/**
 * The write-request decisions of the API layer (name validation, image-URL
 * precedence, rating and type coercion) and the four movie handlers, which
 * run those decisions and then the table statements.
 */
module Server {
  import opened Wrappers
  import opened JsValues
  import opened Catalog
  import opened Http

  /**
   * A write request after the upload middleware: the `req.body` fields
   * (None is `undefined`) and, when a file came under `image`, the name it
   * was stored under.
   */
  datatype WriteRequest = WriteRequest(
    name: Option<string>,
    kind: Option<string>,
    rating: Option<string>,
    imageUrlLink: Option<string>,
    currentImageUrl: Option<string>,
    file: Option<string>)

  /** How `upload.single('image')` reads a multipart body; the generated file name is an input. */
  function ReadWriteRequest(body: seq<Part>, storedName: string): (req: WriteRequest)
    ensures req.file.Some? <==> FileField(body, ImageKey).Some?
    ensures req.file.Some? ==> req.file.value == storedName
  {
    WriteRequest(
      TextField(body, NameKey),
      TextField(body, TypeKey),
      TextField(body, RatingKey),
      TextField(body, ImageUrlLinkKey),
      TextField(body, CurrentImageUrlKey),
      if FileField(body, ImageKey).Some? then Some(storedName) else None)
  }

  const UploadsPrefix := "/uploads/"

  /** The URL under which an uploaded file is served: `/uploads/<filename>`. */
  function UploadPath(storedName: string): (p: string)
    ensures StartsWith(p, UploadsPrefix) && p[|UploadsPrefix|..] == storedName
  {
    UploadsPrefix + storedName
  }

  /** The image of an INSERT: the uploaded file wins, then a non-empty link verbatim, then null. */
  function CreateImage(file: Option<string>, link: Option<string>): (r: Option<string>)
    ensures file.Some? ==> r == Some(UploadPath(file.value))
    ensures file.None? && Truthy(link) ==> r == link
    ensures file.None? && !Truthy(link) ==> r == None
  {
    if file.Some? then Some(UploadPath(file.value))
    else if Truthy(link) then link
    else None
  }

  /** The image of an UPDATE: the uploaded file, then a non-empty link, then the prior URL the client passed back, then null. */
  function UpdateImage(file: Option<string>, link: Option<string>, current: Option<string>): (r: Option<string>)
    ensures file.Some? ==> r == Some(UploadPath(file.value))
    ensures file.None? && Truthy(link) ==> r == link
    ensures file.None? && !Truthy(link) && Truthy(current) ==> r == current
    ensures file.None? && !Truthy(link) && !Truthy(current) ==> r == None
  {
    if file.Some? then Some(UploadPath(file.value))
    else if Truthy(link) then link
    else OrNull(current)
  }

  /** Neither resolution ever yields the empty string, so the `|| null` applied on insert changes nothing. */
  lemma ResolvedImageNeverEmpty(file: Option<string>, link: Option<string>, current: Option<string>)
    ensures CreateImage(file, link).None? || Truthy(CreateImage(file, link))
    ensures UpdateImage(file, link, current).None? || Truthy(UpdateImage(file, link, current))
    ensures OrNull(CreateImage(file, link)) == CreateImage(file, link)
  {
  }

  /** The update rule is the create rule with one more fallback: they differ only when the prior URL is used. */
  lemma UpdateImageExtendsCreate(file: Option<string>, link: Option<string>, current: Option<string>)
    ensures UpdateImage(file, link, current) != CreateImage(file, link) <==>
              file.None? && !Truthy(link) && Truthy(current)
  {
  }

  /** The resolved image is one of the request's own inputs, or null: nothing is invented. */
  lemma ImageComesFromRequest(file: Option<string>, link: Option<string>, current: Option<string>)
    ensures var r := UpdateImage(file, link, current);
            r.None? || (file.Some? && r == Some(UploadPath(file.value))) || r == link || r == current
  {
  }

  /** `rating === undefined || rating === '' ? null : Number(rating)`, with `Number` given as `parse`. */
  function CoerceRating(rating: Option<string>, parse: string -> Numeric): (r: Option<Numeric>)
    ensures r.None? <==> !Truthy(rating)
    ensures r.Some? ==> r.value == parse(rating.value)
  {
    if rating.None? || rating.value == "" then None else Some(parse(rating.value))
  }

  const NameRequired := "Movie name is required"

  /** The columns a POST writes, or the 400 for a falsy name. */
  function ResolveCreate(req: WriteRequest, parse: string -> Numeric): (r: Result<RowValues>)
    ensures r.Err? <==> !Truthy(req.name)
    ensures r.Err? ==> r.error == NameRequired
    ensures r.Ok? ==> ServerWritten(r.value) && Some(r.value.name) == req.name
    ensures r.Ok? ==> r.value.kind == OrNull(req.kind) && r.value.rating == CoerceRating(req.rating, parse)
    ensures r.Ok? ==> r.value.imageUrl == CreateImage(req.file, req.imageUrlLink)
  {
    var finalImageUrl := CreateImage(req.file, req.imageUrlLink);
    if !Truthy(req.name) then Err(NameRequired)
    else
      ResolvedImageNeverEmpty(req.file, req.imageUrlLink, None);
      Ok(RowValues(req.name.value, OrNull(req.kind), CoerceRating(req.rating, parse), OrNull(finalImageUrl)))
  }

  /** The columns a PUT writes, or the 400 for a falsy name. */
  function ResolveUpdate(req: WriteRequest, parse: string -> Numeric): (r: Result<RowValues>)
    ensures r.Err? <==> !Truthy(req.name)
    ensures r.Err? ==> r.error == NameRequired
    ensures r.Ok? ==> ServerWritten(r.value) && Some(r.value.name) == req.name
    ensures r.Ok? ==> r.value.kind == OrNull(req.kind) && r.value.rating == CoerceRating(req.rating, parse)
    ensures r.Ok? ==> r.value.imageUrl == UpdateImage(req.file, req.imageUrlLink, req.currentImageUrl)
  {
    if !Truthy(req.name) then Err(NameRequired)
    else
      ResolvedImageNeverEmpty(req.file, req.imageUrlLink, req.currentImageUrl);
      Ok(RowValues(req.name.value, OrNull(req.kind), CoerceRating(req.rating, parse),
                   UpdateImage(req.file, req.imageUrlLink, req.currentImageUrl)))
  }

  /** Both writes agree on everything but the image, and on the image whenever no prior URL is in play. */
  lemma CreateAndUpdateAgree(req: WriteRequest, parse: string -> Numeric)
    ensures ResolveCreate(req, parse).Err? <==> ResolveUpdate(req, parse).Err?
    ensures ResolveCreate(req, parse).Ok? ==>
              ResolveCreate(req, parse).value.(imageUrl := None) == ResolveUpdate(req, parse).value.(imageUrl := None)
    ensures !Truthy(req.currentImageUrl) ==> ResolveCreate(req, parse) == ResolveUpdate(req, parse)
  {
  }

  /** The API's responses; the tag stands for the status code and the fields for the JSON body. */
  datatype Response =
    | Created(row: Movie)             // 201, the row read back by its new id
    | Updated(found: Option<Movie>)   // 200, `rows[0]`, undefined when no row has the id
    | Deleted(message: string)        // 200, `{ message }`
    | Listed(rows: seq<Movie>)        // 200, the array of rows
    | BadRequest(error: string)       // 400, `{ error }`

  function Status(resp: Response): int
  {
    match resp
    case Created(_) => 201
    case BadRequest(_) => 400
    case _ => 200
  }

  /** `res.ok` on the client: a status in 200..299. */
  predicate ResponseOk(resp: Response)
  {
    200 <= Status(resp) < 300
  }

  const DeletedMessage := "Movie deleted successfully"

  /** Every row in the table was written by this API. */
  ghost predicate AllServerWritten(db: MovieTable)
    reads db
  {
    forall id | id in db.rows :: ServerWritten(RowValues(db.rows[id].name, db.rows[id].kind, db.rows[id].rating, db.rows[id].imageUrl))
  }

  /** POST /api/movies */
  method HandleCreate(db: MovieTable, req: WriteRequest, parse: string -> Numeric) returns (resp: Response)
    requires db.Valid()
    modifies db
    ensures db.Valid()
    ensures ResponseOk(resp) <==> Truthy(req.name)
    ensures !Truthy(req.name) ==>
              resp == BadRequest(NameRequired) && db.rows == old(db.rows) && db.nextId == old(db.nextId)
    ensures Truthy(req.name) ==>
              && old(db.nextId) !in old(db.rows)
              && resp == Created(RowWith(old(db.nextId), ResolveCreate(req, parse).value))
              && db.rows == old(db.rows)[old(db.nextId) := resp.row]
              && db.nextId == old(db.nextId) + 1
    ensures old(AllServerWritten(db)) ==> AllServerWritten(db)
  {
    var resolved := ResolveCreate(req, parse);
    if resolved.Err? {
      return BadRequest(resolved.error);
    }
    var inserted := db.Insert(resolved.value);
    var selected := db.SelectById(inserted.id);
    assert selected[0] == inserted by { assert selected[0] in selected; }
    resp := Created(selected[0]);
  }

  /** PUT /api/movies/:id */
  method HandleUpdate(db: MovieTable, id: int, req: WriteRequest, parse: string -> Numeric) returns (resp: Response)
    requires db.Valid()
    modifies db
    ensures db.Valid() && db.nextId == old(db.nextId)
    ensures ResponseOk(resp) <==> Truthy(req.name)
    ensures !Truthy(req.name) ==> resp == BadRequest(NameRequired) && db.rows == old(db.rows)
    ensures Truthy(req.name) && id in old(db.rows) ==>
              && resp == Updated(Some(RowWith(id, ResolveUpdate(req, parse).value)))
              && db.rows == old(db.rows)[id := resp.found.value]
    ensures Truthy(req.name) && id !in old(db.rows) ==> resp == Updated(None) && db.rows == old(db.rows)
    ensures old(AllServerWritten(db)) ==> AllServerWritten(db)
  {
    var resolved := ResolveUpdate(req, parse);
    if resolved.Err? {
      return BadRequest(resolved.error);
    }
    db.UpdateRow(id, resolved.value);
    var selected := db.SelectById(id);
    assert selected != [] ==> selected[0] in selected;
    resp := Updated(if selected == [] then None else Some(selected[0]));
  }

  /** DELETE /api/movies/:id: reports success whether or not a row had the id. */
  method HandleDelete(db: MovieTable, id: int) returns (resp: Response)
    requires db.Valid()
    modifies db
    ensures db.Valid() && db.nextId == old(db.nextId)
    ensures resp == Deleted(DeletedMessage) && ResponseOk(resp)
    ensures db.rows == old(db.rows) - {id}
    ensures id !in old(db.rows) ==> db.rows == old(db.rows)
    ensures old(AllServerWritten(db)) ==> AllServerWritten(db)
  {
    db.DeleteRow(id);
    resp := Deleted(DeletedMessage);
  }

  /** GET /api/movies: every row once, newest id first. */
  method HandleList(db: MovieTable) returns (resp: Response)
    requires db.Valid()
    ensures resp.Listed? && DescendingIds(resp.rows) && |resp.rows| == |db.rows|
    ensures forall m :: m in resp.rows <==> m.id in db.rows && db.rows[m.id] == m
  {
    resp := Listed(db.ListByIdDesc());
  }
}
