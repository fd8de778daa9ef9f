/**
 * The page component: how a card's image source is chosen, which of the
 * three views is rendered, and how the movie list, the add flag and the
 * movie being edited change under the page's callbacks.
 */
module App {
  import opened Wrappers
  import opened JsValues
  import opened Catalog
  import opened Http

  const ApiOrigin := "http://localhost:5000"
  const UploadsPath := "/uploads"

  /** `getImageSrc`: no source for a falsy `image_url`; the API origin before a URL starting with "/uploads"; any other URL as it is. */
  function GetImageSrc(imageUrl: Option<string>): (src: Option<string>)
    ensures src.None? <==> !Truthy(imageUrl)
    ensures Truthy(imageUrl) && StartsWith(imageUrl.value, UploadsPath) ==> src == Some(ApiOrigin + imageUrl.value)
    ensures Truthy(imageUrl) && !StartsWith(imageUrl.value, UploadsPath) ==> src == imageUrl
  {
    if !Truthy(imageUrl) then None
    else if StartsWith(imageUrl.value, UploadsPath) then Some(ApiOrigin + imageUrl.value)
    else imageUrl
  }

  /** The test is on characters, not path segments: "/uploadsX.png" is sent to the API too, "/upload.png" is not. */
  lemma ImagePrefixIsPlainText()
    ensures GetImageSrc(Some("/uploadsX.png")) == Some("http://localhost:5000/uploadsX.png")
    ensures GetImageSrc(Some("/upload.png")) == Some("/upload.png")
  {
    assert StartsWith("/uploadsX.png", UploadsPath) by {
      assert "/uploadsX.png"[..|UploadsPath|] == UploadsPath;
    }
    assert ApiOrigin + "/uploadsX.png" == "http://localhost:5000/uploadsX.png";
    assert !StartsWith("/upload.png", UploadsPath) by {
      assert "/upload.png"[7] != UploadsPath[7];
    }
  }

  /** Exactly one view is rendered; the add form wins over the edit form. */
  datatype View = MovieList | AddForm | EditForm(movie: Movie)

  /** The component's early returns: `if (showAddForm)`, then `if (editingMovie)`, then the list. */
  function Dispatch(showAddForm: bool, editingMovie: Option<Movie>): (v: View)
    ensures v == AddForm <==> showAddForm
    ensures v.EditForm? <==> !showAddForm && editingMovie.Some?
    ensures v.EditForm? ==> editingMovie == Some(v.movie)
    ensures v == MovieList <==> !showAddForm && editingMovie.None?
  {
    if showAddForm then AddForm
    else if editingMovie.Some? then EditForm(editingMovie.value)
    else MovieList
  }

  class AppState {
    var movies: seq<Movie>
    var showAddForm: bool
    var editingMovie: Option<Movie>

    /** The add flag and the edited movie are never set together, because both are only set from the list view. */
    ghost predicate Valid()
      reads this
    {
      !(showAddForm && editingMovie.Some?)
    }

    function CurrentView(): View
      reads this
    {
      Dispatch(showAddForm, editingMovie)
    }

    /** The `useState` initial values: no movies, the list view. */
    constructor ()
      ensures Valid() && movies == [] && CurrentView() == MovieList
    {
      movies, showAddForm, editingMovie := [], false, None;
    }

    /**
     * `fetchMovies`: one GET; its parsed body replaces the list wholesale;
     * a rejected fetch (None) leaves the list as it was.
     */
    method FetchMovies(listing: Option<seq<Movie>>) returns (requests: seq<Request>)
      modifies this
      ensures requests == [GetMovies]
      ensures movies == if listing.Some? then listing.value else old(movies)
      ensures showAddForm == old(showAddForm) && editingMovie == old(editingMovie)
    {
      requests := [GetMovies];
      if listing.Some? {
        movies := listing.value;
      }
    }

    /** The Add button, rendered only in the list view. */
    method ClickAdd()
      requires Valid() && CurrentView() == MovieList
      modifies this
      ensures Valid() && CurrentView() == AddForm
      ensures movies == old(movies) && editingMovie == old(editingMovie)
    {
      showAddForm := true;
    }

    /** A card's Edit button, rendered only in the list view. */
    method ClickEdit(movie: Movie)
      requires Valid() && CurrentView() == MovieList
      modifies this
      ensures Valid() && CurrentView() == EditForm(movie)
      ensures movies == old(movies) && showAddForm == old(showAddForm)
    {
      editingMovie := Some(movie);
    }

    /** The add form's `onCancel`: back to the list, no request. */
    method CancelAdd()
      requires Valid()
      modifies this
      ensures Valid() && !showAddForm
      ensures old(CurrentView()) == AddForm ==> CurrentView() == MovieList
      ensures movies == old(movies) && editingMovie == old(editingMovie)
    {
      showAddForm := false;
    }

    /** The add form's `onSuccess`: back to the list and a refetch. */
    method AddSucceeded(listing: Option<seq<Movie>>) returns (requests: seq<Request>)
      requires Valid()
      modifies this
      ensures Valid() && !showAddForm && editingMovie == old(editingMovie)
      ensures old(CurrentView()) == AddForm ==> CurrentView() == MovieList
      ensures requests == [GetMovies]
      ensures movies == if listing.Some? then listing.value else old(movies)
    {
      showAddForm := false;
      requests := FetchMovies(listing);
    }

    /** The edit form's `onCancel`: back to the list, no request. */
    method CancelEdit()
      requires Valid()
      modifies this
      ensures Valid() && editingMovie.None?
      ensures old(CurrentView()).EditForm? ==> CurrentView() == MovieList
      ensures movies == old(movies) && showAddForm == old(showAddForm)
    {
      editingMovie := None;
    }

    /** The edit form's `onSuccess`: back to the list and a refetch. */
    method EditSucceeded(listing: Option<seq<Movie>>) returns (requests: seq<Request>)
      requires Valid()
      modifies this
      ensures Valid() && editingMovie.None? && showAddForm == old(showAddForm)
      ensures old(CurrentView()).EditForm? ==> CurrentView() == MovieList
      ensures requests == [GetMovies]
      ensures movies == if listing.Some? then listing.value else old(movies)
    {
      editingMovie := None;
      requests := FetchMovies(listing);
    }

    /**
     * `deleteMovie`: nothing is sent when the confirmation is declined;
     * otherwise one DELETE, and a refetch only when the response is ok.
     */
    method DeleteMovie(id: int, confirmed: bool, reply: Reply, listing: Option<seq<Movie>>) returns (requests: seq<Request>)
      modifies this
      ensures !confirmed ==> requests == []
      ensures confirmed ==> requests == [DeleteById(id)] + (if reply == Responded(true) then [GetMovies] else [])
      ensures movies == if confirmed && reply == Responded(true) && listing.Some? then listing.value else old(movies)
      ensures showAddForm == old(showAddForm) && editingMovie == old(editingMovie)
    {
      if !confirmed {
        return [];
      }
      requests := [DeleteById(id)];
      if reply == Responded(true) {
        var refetch := FetchMovies(listing);
        requests := requests + refetch;
      }
    }
  }
}
