/**
 * The edit form: inputs prefilled from the movie, the trim check, and the PUT
 * body, which also passes the movie's original image URL back to the server.
 */
module EditMovieForm {
  import opened Wrappers
  import opened JsValues
  import opened Catalog
  import opened Http
  import opened Forms

  /**
   * The `useState` initial values: each field of the movie, with a falsy one
   * shown as "". `show` is JavaScript's conversion of a number to text, which
   * `formData.append` applies to a rating left as the stored number.
   */
  function Prefill(movie: Movie, show: Numeric -> string): (f: FormFields)
    ensures f.name == movie.name && f.selectedFile.None?
    ensures Truthy(movie.kind) ==> Some(f.kind) == movie.kind
    ensures !Truthy(movie.kind) ==> f.kind == ""
    ensures NumericTruthy(movie.rating) ==> f.rating == show(movie.rating.value)
    ensures !NumericTruthy(movie.rating) ==> f.rating == ""
    ensures Truthy(movie.imageUrl) ==> Some(f.imageUrl) == movie.imageUrl
    ensures !Truthy(movie.imageUrl) ==> f.imageUrl == ""
  {
    FormFields(
      movie.name,
      OrEmpty(movie.kind),
      if NumericTruthy(movie.rating) then show(movie.rating.value) else "",
      OrEmpty(movie.imageUrl),
      None)
  }

  /** A stored rating of 0 (or NaN, or null) is shown as an empty rating input. */
  lemma PrefillHidesFalsyRating(movie: Movie, show: Numeric -> string)
    ensures Prefill(movie, show).rating == "" <==> !NumericTruthy(movie.rating) || show(movie.rating.value) == ""
    ensures movie.rating == Some(Finite(0.0)) ==> Prefill(movie, show).rating == ""
  {
  }

  /** The body `handleSubmit` sends: the four inputs, the original image URL (or ""), then the file when one was chosen. */
  function EditPayload(f: FormFields, movie: Movie): (body: seq<Part>)
    ensures DistinctKeys(body)
    ensures |body| == if f.selectedFile.Some? then 6 else 5
    ensures forall i | 0 <= i < |body| :: body[i].value.Blob? <==> body[i].key == ImageKey
  {
    [Part(NameKey, Text(f.name)), Part(TypeKey, Text(f.kind)), Part(RatingKey, Text(f.rating)),
     Part(ImageUrlLinkKey, Text(f.imageUrl)), Part(CurrentImageUrlKey, Text(OrEmpty(movie.imageUrl)))]
    + (if f.selectedFile.Some? then [Part(ImageKey, Blob(f.selectedFile.value))] else [])
  }

  /** The body repeats no key, and the server reads back each text input exactly as typed. */
  lemma EditPayloadReadsInputs(f: FormFields, movie: Movie)
    ensures DistinctKeys(EditPayload(f, movie))
    ensures TextField(EditPayload(f, movie), NameKey) == Some(f.name)
    ensures TextField(EditPayload(f, movie), TypeKey) == Some(f.kind)
    ensures TextField(EditPayload(f, movie), RatingKey) == Some(f.rating)
    ensures TextField(EditPayload(f, movie), ImageUrlLinkKey) == Some(f.imageUrl)
  {
    var body := EditPayload(f, movie);
    assert DistinctKeys(body);
    assert TextField(body, RatingKey) == Some(f.rating) by { FieldOfDistinct(body, 2); }
    assert TextField(body, ImageUrlLinkKey) == Some(f.imageUrl) by { FieldOfDistinct(body, 3); }
  }

  /** The prior URL the server receives is always the movie's own `image_url || ""`, whatever was typed in the link input. */
  lemma EditPayloadPassesOriginalImage(f: FormFields, movie: Movie)
    ensures TextField(EditPayload(f, movie), CurrentImageUrlKey) == Some(OrEmpty(movie.imageUrl))
  {
    var body := EditPayload(f, movie);
    assert DistinctKeys(body);
    FieldOfDistinct(body, 4);
  }

  /** The body carries a file under `image` if and only if one was chosen. */
  lemma EditPayloadFileIffSelected(f: FormFields, movie: Movie)
    ensures FileField(EditPayload(f, movie), ImageKey) == f.selectedFile
  {
    var body := EditPayload(f, movie);
    if f.selectedFile.Some? {
      assert DistinctKeys(body);
      FieldOfDistinct(body, 5);
    }
  }

  const AlertUpdateFailed := "Failed to update movie"
  const AlertUpdateError := "Error updating movie"

  class EditMovieForm {
    const movie: Movie
    const inputs: FormInputs

    constructor (movie: Movie, show: Numeric -> string)
      ensures this.movie == movie && fresh(inputs) && inputs.Fields() == Prefill(movie, show)
    {
      this.movie := movie;
      inputs := new FormInputs(Prefill(movie, show));
    }

    /** `handleSubmit`: a name that trims to nothing is refused before any request; otherwise one PUT to the movie's id, then `onSuccess` or an alert. */
    method HandleSubmit(reply: Reply) returns (outcome: SubmitOutcome)
      ensures NameMissing(inputs.name) ==> outcome == Refused(AlertNameRequired)
      ensures !NameMissing(inputs.name) ==>
                outcome == Sent(PutMovie(movie.id, EditPayload(inputs.Fields(), movie)),
                                Complete(reply, AlertUpdateFailed, AlertUpdateError))
    {
      if Trim(inputs.name) == "" {
        return Refused(AlertNameRequired);
      }
      var fields := inputs.Fields();
      var formData := new FormData();
      formData.AppendText(NameKey, fields.name);
      formData.AppendText(TypeKey, fields.kind);
      formData.AppendText(RatingKey, fields.rating);
      formData.AppendText(ImageUrlLinkKey, fields.imageUrl);
      formData.AppendText(CurrentImageUrlKey, OrEmpty(movie.imageUrl));
      if fields.selectedFile.Some? {
        formData.AppendFile(ImageKey, fields.selectedFile.value);
      }
      assert formData.parts == EditPayload(fields, movie);
      outcome := Sent(PutMovie(movie.id, formData.parts), Complete(reply, AlertUpdateFailed, AlertUpdateError));
    }
  }
}
