/**
 * Facts about client and server together: what the row looks like after a
 * form is submitted, read by the upload middleware and resolved by the
 * handler, and what the list shows after a create.
 */
module EndToEnd {
  import opened Wrappers
  import opened JsValues
  import opened Catalog
  import opened Http
  import opened Server
  import opened Forms
  import opened App
  import AddMovieForm
  import EditMovieForm

  /** The columns an add-form submission writes, with `storedName` the name the upload got. */
  function AddedValues(f: FormFields, storedName: string, parse: string -> Numeric): Result<RowValues>
  {
    ResolveCreate(ReadWriteRequest(AddMovieForm.AddPayload(f), storedName), parse)
  }

  /** The columns an edit-form submission for `movie` writes. */
  function EditedValues(f: FormFields, movie: Movie, storedName: string, parse: string -> Numeric): Result<RowValues>
  {
    ResolveUpdate(ReadWriteRequest(EditMovieForm.EditPayload(f, movie), storedName), parse)
  }

  /**
   * Every add the client lets through is written: the name as typed, an
   * empty type or rating as null, and the image by file, then link, then none.
   */
  lemma AddRoundTrip(f: FormFields, storedName: string, parse: string -> Numeric)
    requires !NameMissing(f.name)
    ensures AddedValues(f, storedName, parse) == Ok(RowValues(
              f.name,
              if f.kind == "" then None else Some(f.kind),
              if f.rating == "" then None else Some(parse(f.rating)),
              if f.selectedFile.Some? then Some(UploadPath(storedName))
              else if f.imageUrl != "" then Some(f.imageUrl)
              else None))
  {
    AddMovieForm.AddPayloadReadsInputs(f);
    AddMovieForm.AddPayloadFileIffSelected(f);
    TrimmedNonEmptyIsTruthy(f.name);
  }

  /** Submitting the add form with only a name creates a row whose type, rating and image are null. */
  lemma AddWithOnlyName(name: string, storedName: string, parse: string -> Numeric)
    requires !NameMissing(name)
    ensures AddedValues(AddMovieForm.Initial.(name := name), storedName, parse) == Ok(RowValues(name, None, None, None))
  {
    AddRoundTrip(AddMovieForm.Initial.(name := name), storedName, parse);
  }

  /** An edit with no new file and an emptied link input keeps the old image: the prior URL fills in. */
  lemma EditWithoutNewImageKeepsOld(f: FormFields, movie: Movie, storedName: string, parse: string -> Numeric)
    requires !NameMissing(f.name) && f.selectedFile.None? && f.imageUrl == ""
    ensures EditedValues(f, movie, storedName, parse).Ok?
    ensures EditedValues(f, movie, storedName, parse).value.imageUrl == OrNull(movie.imageUrl)
  {
    EditMovieForm.EditPayloadReadsInputs(f, movie);
    EditMovieForm.EditPayloadPassesOriginalImage(f, movie);
    EditMovieForm.EditPayloadFileIffSelected(f, movie);
    TrimmedNonEmptyIsTruthy(f.name);
  }

  /** Without a new file the edit form cannot remove an image: it keeps the old one or takes the typed link. */
  lemma EditCannotRemoveImage(f: FormFields, movie: Movie, storedName: string, parse: string -> Numeric)
    requires !NameMissing(f.name) && f.selectedFile.None? && Truthy(movie.imageUrl)
    ensures EditedValues(f, movie, storedName, parse).Ok?
    ensures var image := EditedValues(f, movie, storedName, parse).value.imageUrl;
            image == (if f.imageUrl != "" then Some(f.imageUrl) else movie.imageUrl)
  {
    EditMovieForm.EditPayloadReadsInputs(f, movie);
    EditMovieForm.EditPayloadPassesOriginalImage(f, movie);
    EditMovieForm.EditPayloadFileIffSelected(f, movie);
    TrimmedNonEmptyIsTruthy(f.name);
  }

  /**
   * Saving the edit form untouched resends the image URL, so the image is
   * kept; a truthy rating survives when `Number` reads back what `String`
   * wrote, but a stored rating of 0 comes back as null, because the prefill
   * shows it as an empty input. `Movie.rating` is the number the client
   * holds; a driver that returns the column as text is outside this model.
   */
  lemma UnchangedEdit(movie: Movie, show: Numeric -> string, storedName: string, parse: string -> Numeric)
    requires !NameMissing(movie.name)
    ensures EditedValues(EditMovieForm.Prefill(movie, show), movie, storedName, parse).Ok?
    ensures EditedValues(EditMovieForm.Prefill(movie, show), movie, storedName, parse).value.imageUrl == OrNull(movie.imageUrl)
    ensures movie.rating == Some(Finite(0.0)) ==>
              EditedValues(EditMovieForm.Prefill(movie, show), movie, storedName, parse).value.rating == None
    ensures NumericTruthy(movie.rating) && show(movie.rating.value) != "" && parse(show(movie.rating.value)) == movie.rating.value ==>
              EditedValues(EditMovieForm.Prefill(movie, show), movie, storedName, parse).value.rating == movie.rating
  {
    var f := EditMovieForm.Prefill(movie, show);
    EditMovieForm.EditPayloadReadsInputs(f, movie);
    EditMovieForm.EditPayloadPassesOriginalImage(f, movie);
    EditMovieForm.EditPayloadFileIffSelected(f, movie);
    TrimmedNonEmptyIsTruthy(movie.name);
  }

  /** An uploaded image is stored as `/uploads/<name>` and shown from the API's origin. */
  lemma UploadedImageShownFromApi(storedName: string)
    ensures GetImageSrc(Some(UploadPath(storedName))) == Some(ApiOrigin + "/uploads/" + storedName)
  {
    var p := UploadPath(storedName);
    assert p[..|UploadsPath|] == UploadsPath;
    assert ApiOrigin + p == ApiOrigin + "/uploads/" + storedName;
  }

  /** After a successful create, the listing holds the new row first, since no row has a larger id. */
  method CreateThenList(db: MovieTable, req: WriteRequest, parse: string -> Numeric) returns (created: Response, listed: Response)
    requires db.Valid() && Truthy(req.name)
    modifies db
    ensures db.Valid() && created.Created? && listed.Listed?
    ensures |listed.rows| == |old(db.rows)| + 1
    ensures listed.rows[0] == created.row
  {
    created := HandleCreate(db, req, parse);
    listed := HandleList(db);
    var rows := listed.rows;
    assert created.row in rows;
  }
}
