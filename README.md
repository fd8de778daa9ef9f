# Movie catalog: a Dafny model of its write rules, table and client logic

The catalog is a small web application: one `movies(id, name, type, rating, image_url)`
table behind an Express API (`backend/server.js`) and a React page (`frontend/src/App.js`)
with an add form (`AddMovieForm.js`) and an edit form (`EditMovieForm.js`). This project
models the decisions and state changes of that code and proves what they guarantee:

- **Server decisions** (`server.dfy`): name validation by JavaScript truthiness
  (`undefined` and `""` are refused with 400, white space is accepted), the image-URL
  precedence for create (uploaded file, then a non-empty link, then null) and for update
  (file, then link, then the `currentImageUrl` the client passes back, then null), the
  rating coercion (`undefined`/`""` to null, otherwise `Number(rating)`) and `type || null`.
  The handlers `HandleCreate`, `HandleUpdate`, `HandleDelete` and `HandleList` run these
  decisions against the table.
- **The table** (`catalog.dfy`): a class holding `rows: map<int, Movie>` and the
  auto-increment counter `nextId`, with the INSERT, UPDATE, DELETE and SELECT statements
  the handlers issue, and the listing in strictly descending id order.
- **Multipart bodies** (`http.dfy`): the browser's `FormData` as a class whose `append`
  extends a sequence of parts, and how the upload middleware reads text fields and the
  `image` file back.
- **Client** (`forms.dfy`, `add_movie_form.dfy`, `edit_movie_form.dfy`, `app.dfy`): the
  forms' controlled inputs and handlers, the trim-based check, the payloads (including the
  edit form's prefill and its `currentImageUrl` pass-through), `getImageSrc`, the
  list / add / edit view dispatch, `deleteMovie` and `fetchMovies`.
- **Client and server together** (`end_to_end.dfy`): for instance, an edit with no new
  file and an emptied link input keeps the old image, so the edit form cannot remove an
  image; and saving an untouched edit of a movie rated 0 stores a null rating, because the
  prefill shows a falsy rating as an empty input. That last consequence assumes the
  database driver hands `rating` to the client as a JavaScript number: the pool in
  `backend/db.js:9-14` sets no `decimalNumbers` option, so for a DECIMAL column the driver
  returns text such as `"0.0"`, which is truthy, and the rating is then written back as 0.

Inputs the code gets from its environment are parameters: `parse` stands for JavaScript's
`Number` applied to the rating text, `show` for `String` applied to a stored rating, and
`storedName` for the file name the upload middleware generates. `window.confirm`, the
`res.ok` of a response and a rejected `fetch` are boolean or `Reply` inputs; alerts and
calls of `onSuccess` are part of a submission's outcome; the requests a callback issues
are returned as a sequence.

Two readings of the code are easy to get wrong, and the model follows the code in both.
The server's only name check is `!name` (`backend/server.js:113`, with the 400 message
"Movie name is required" at line 114), so any truthy string passes it, `" "` included;
only the forms trim the name first (client and server are compared in
`TrimmedNonEmptyIsTruthy`). And the image an update keeps when no file or link is given
(`backend/server.js:167-168`) is whatever the client sends as `currentImageUrl`, not a
value read from the table.

## Model

| member | source | states |
|---|---|---|
| JsValues.OrNull | backend/server.js:125 | `x \|\| null` keeps a truthy string, turns `undefined` and `""` into null, and never yields the empty string |
| JsValues.OrEmpty | frontend/src/EditMovieForm.js:11-13 | `x \|\| ""` keeps a truthy string and maps every falsy value to "" |
| JsValues.TrimStartShape | frontend/src/AddMovieForm.js:21 | what `trim` keeps at the front is a suffix starting with a non-space, and all it dropped is white space |
| JsValues.TrimEndShape | frontend/src/AddMovieForm.js:21 | what `trim` keeps at the back is a prefix ending with a non-space, and all it dropped is white space |
| JsValues.TrimEmptyIffAllSpace | frontend/src/EditMovieForm.js:20 | `!name.trim()` holds exactly when every character of the name is ECMAScript white space |
| JsValues.TrimmedNonEmptyIsTruthy | backend/server.js:113-115 | every name the forms accept passes the server's truthiness check, while `" "` passes the server but not the forms |
| Catalog.RowsDownFrom | backend/server.js:86 | walking ids downwards yields stored rows only, with strictly descending ids, and every stored row in range |
| Catalog.MovieTable.ListByIdDesc | backend/server.js:86 | `ORDER BY id DESC` lists every row exactly once, ids strictly descending |
| Catalog.MovieTable.constructor | backend/server.js:123-126 | the table starts empty with the auto-increment counter at 1 |
| Catalog.MovieTable.Insert | backend/server.js:123-126 | an INSERT adds exactly one row, at an id no row had, and leaves the other rows alone |
| Catalog.MovieTable.SelectById | backend/server.js:129-131 | `WHERE id = ?` selects at most one row, the one stored under that id, and none for a missing id |
| Catalog.MovieTable.UpdateRow | backend/server.js:176-179 | an UPDATE replaces the four mutable columns of that id only; a missing id changes nothing |
| Catalog.MovieTable.DeleteRow | backend/server.js:198 | a DELETE removes that id only; a missing id changes nothing |
| Http.FormData.AppendText | frontend/src/AddMovieForm.js:29-32 | `append` of text adds one part at the end |
| Http.FormData.AppendFile | frontend/src/AddMovieForm.js:36 | `append` of a file adds one part at the end |
| Http.TextField | backend/server.js:98 | a body field read by the server is a text part with that key; `undefined` when there is none |
| Http.FileField | backend/server.js:95 | `req.file` is a file part under `image`, and absent when the body has none |
| Http.FieldOfDistinct | backend/server.js:150 | in a body without repeated keys each part is read back exactly as appended |
| Server.ReadWriteRequest | backend/server.js:95-98 | the request carries a stored file name exactly when the body had a file under `image` |
| Server.UploadPath | backend/server.js:106 | an uploaded file's URL is `/uploads/` followed by its stored name |
| Server.CreateImage | backend/server.js:101-110 | create precedence: a file yields `/uploads/<name>` even when a link is given; else a non-empty link verbatim; else null |
| Server.UpdateImage | backend/server.js:161-169 | update precedence: file, then non-empty link, then a truthy `currentImageUrl`, then null |
| Server.ResolvedImageNeverEmpty | backend/server.js:125 | neither rule yields "", so the `\|\| null` on insert changes nothing |
| Server.UpdateImageExtendsCreate | backend/server.js:163-168 | the update rule differs from the create rule exactly when there is no file, no link and a truthy prior URL |
| Server.ImageComesFromRequest | backend/server.js:161-169 | the resolved update image is null or one of the request's own file path, link or prior URL |
| Server.CoerceRating | backend/server.js:119-120 | rating is null exactly when absent or "", and otherwise `Number(rating)` |
| Server.ResolveCreate | backend/server.js:98-125 | 400 exactly for a falsy name; otherwise the name as given, `type \|\| null`, the coerced rating and the create image, with no empty string stored |
| Server.ResolveUpdate | backend/server.js:150-178 | 400 exactly for a falsy name; otherwise the name as given, `type \|\| null`, the coerced rating and the update image |
| Server.CreateAndUpdateAgree | backend/server.js:172-173 | create and update validate and coerce alike and differ at most in the image, and not at all without a truthy prior URL |
| Server.HandleCreate | backend/server.js:95-139 | 400 for a falsy name with the table unchanged; otherwise 201 with the row read back at the fresh id, the one row added; rows written by the API stay well formed |
| Server.HandleUpdate | backend/server.js:145-188 | 400 for a falsy name with the table unchanged; otherwise row `id` alone gets the four columns and is returned; a missing id changes nothing and returns `rows[0]`, undefined |
| Server.HandleDelete | backend/server.js:193-205 | removes row `id` only and reports the success message whether or not it existed |
| Server.HandleList | backend/server.js:83-92 | responds with every row once, ids strictly descending |
| Forms.FormInputs.SetName | frontend/src/AddMovieForm.js:69 | the name input's `onChange` sets the name and nothing else |
| Forms.FormInputs.SetKind | frontend/src/AddMovieForm.js:80 | the type input's `onChange` sets the type and nothing else |
| Forms.FormInputs.SetImageUrl | frontend/src/AddMovieForm.js:113 | the link input's `onChange` sets the link and nothing else |
| Forms.FormInputs.SetRating | frontend/src/AddMovieForm.js:126 | the rating input's `onChange` sets the rating and nothing else |
| Forms.FormInputs.SelectFiles | frontend/src/AddMovieForm.js:96-103 | choosing files selects the first and keeps the link input; an empty file list changes nothing |
| Forms.NameMissing | frontend/src/AddMovieForm.js:21 | `!name.trim()` refuses a name exactly when it consists of white space only (the empty name included) |
| Forms.Complete | frontend/src/AddMovieForm.js:45-54 | `onSuccess` is called exactly when the response is ok; a failed response or a rejected fetch shows its alert instead |
| AddMovieForm.AddMovieForm.constructor | frontend/src/AddMovieForm.js:10-14 | the add form starts with every input empty and no file |
| AddMovieForm.AddPayload | frontend/src/AddMovieForm.js:28-37 | the POST body repeats no key, has one part per text input plus one for a chosen file, and only the `image` part carries a file |
| AddMovieForm.AddPayloadReadsInputs | frontend/src/AddMovieForm.js:28-32 | the POST body repeats no key and carries name, type, rating and link exactly as typed |
| AddMovieForm.AddPayloadFileIffSelected | frontend/src/AddMovieForm.js:35-37 | the POST body has an `image` part if and only if a file was chosen, and no prior URL |
| AddMovieForm.AddMovieForm.HandleSubmit | frontend/src/AddMovieForm.js:17-55 | a name that trims to nothing alerts and sends nothing; otherwise one POST of the payload, then `onSuccess` or an alert |
| EditMovieForm.Prefill | frontend/src/EditMovieForm.js:10-14 | the inputs start from the movie: the name as stored, each truthy field as stored and each falsy one as "", no file |
| EditMovieForm.PrefillHidesFalsyRating | frontend/src/EditMovieForm.js:12 | the rating input starts empty for a stored 0, NaN or null |
| EditMovieForm.EditMovieForm.constructor | frontend/src/EditMovieForm.js:10-14 | the edit form starts from the movie, each falsy field shown as "", with no file |
| EditMovieForm.EditPayload | frontend/src/EditMovieForm.js:26-38 | the PUT body repeats no key, has one part per text input, one for the prior URL and one for a chosen file, and only the `image` part carries a file |
| EditMovieForm.EditPayloadReadsInputs | frontend/src/EditMovieForm.js:27-31 | the PUT body repeats no key and carries name, type, rating and link as typed |
| EditMovieForm.EditPayloadPassesOriginalImage | frontend/src/EditMovieForm.js:33 | `currentImageUrl` is always the movie's own `image_url \|\| ""`, whatever the link input holds |
| EditMovieForm.EditPayloadFileIffSelected | frontend/src/EditMovieForm.js:35-38 | the PUT body has an `image` part if and only if a file was chosen |
| EditMovieForm.EditMovieForm.HandleSubmit | frontend/src/EditMovieForm.js:16-58 | a name that trims to nothing alerts and sends nothing; otherwise one PUT to `movie.id`, then `onSuccess` or an alert |
| App.GetImageSrc | frontend/src/App.js:25-37 | no source for a falsy `image_url`; the API origin prefixed exactly when it starts with `/uploads`; any other URL unchanged |
| App.ImagePrefixIsPlainText | frontend/src/App.js:31-33 | the prefix test is on characters: `/uploadsX.png` is prefixed, `/upload.png` is not |
| App.Dispatch | frontend/src/App.js:90-122 | the add form whenever `showAddForm`, even with a movie being edited; the edit form only without it and with a movie; otherwise the list |
| App.AppState.constructor | frontend/src/App.js:15-21 | no movies, neither form open: the list view |
| App.AppState.FetchMovies | frontend/src/App.js:40-53 | one GET; a parsed response replaces `movies` wholesale; a rejected fetch changes nothing |
| App.AppState.ClickAdd | frontend/src/App.js:136-139 | the Add button of the list view opens the add form |
| App.AppState.ClickEdit | frontend/src/App.js:172-175 | a card's Edit button opens the edit form for that movie |
| App.AppState.CancelAdd | frontend/src/App.js:95 | cancelling the add form returns to the list with no request |
| App.AppState.AddSucceeded | frontend/src/App.js:97-100 | a successful add returns to the list and refetches |
| App.AppState.CancelEdit | frontend/src/App.js:113 | cancelling the edit form returns to the list with no request |
| App.AppState.EditSucceeded | frontend/src/App.js:115-118 | a successful edit returns to the list and refetches |
| App.AppState.DeleteMovie | frontend/src/App.js:62-84 | no request when the confirmation is declined; otherwise one DELETE and a refetch only when the response is ok |
| EndToEnd.AddRoundTrip | backend/server.js:119-125 | an add the form lets through stores the name as typed, empty type and rating as null, and the image by file, then link, then none |
| EndToEnd.AddWithOnlyName | backend/server.js:125 | an add with only a name stores null type, rating and image |
| EndToEnd.EditWithoutNewImageKeepsOld | frontend/src/EditMovieForm.js:31-33 | no new file and an emptied link keep the old image |
| EndToEnd.EditCannotRemoveImage | backend/server.js:165-168 | without a new file an edit keeps an existing image or takes the typed link, never null |
| EndToEnd.UnchangedEdit | frontend/src/EditMovieForm.js:10-13 | an untouched edit keeps the image and a truthy rating, but turns a stored rating of 0 into null (for a rating the driver returns as a number) |
| EndToEnd.UploadedImageShownFromApi | frontend/src/App.js:31-33 | an uploaded image's stored path is displayed from the API origin |
| EndToEnd.CreateThenList | backend/server.js:86 | after a create the listing has one more row and the new row comes first |

## Left out

- The health-check and database-check endpoints (`/api/health`, `/api/test-db`): a fixed payload and a probe of the database, with no decision in them.
- Database and file-system failures and the 500 responses they produce: the map store never fails.
- The upload middleware's storage: the directory, the generated name (`Date.now()` and `Math.random()`) and the file write are replaced by the input `storedName`; a file written before a 400 is refused is not modelled.
- `Number` and `String` on ratings are the parameters `parse` and `show`; floating point, and how the database stores a NaN, are not modelled.
- Http.TextField: a key repeated in one body, which the middleware turns into an array, is not modelled; the forms never repeat a key (`DistinctKeys`), and a file under a field other than `image` is not modelled either.
- JSON bodies: `app.use(express.json())` (`backend/server.js:29`) also lets POST and PUT take a JSON body, whose fields may be numbers, `null` or objects (`"rating": null` would be stored as `Number(null)`, that is 0, and `"name": 0` is refused); `WriteRequest` holds only the strings, or `undefined`, that a multipart body yields.
- Server.HandleList: rows are values of the model's own types; how the driver converts each column (a DECIMAL `rating` comes back as text, since `backend/db.js:9-14` sets no `decimalNumbers`) is not modelled, and `EndToEnd.UnchangedEdit` assumes a rating that arrives as a number.
- The `:id` path parameter is modelled as an integer; the database's conversion of other text is not modelled.
- App.AppState.FetchMovies: a non-ok response whose JSON body (`{ error }`) would be stored as `movies` is not modelled; only a parsed list or a rejected fetch is.
- The mount effect that calls `fetchMovies` once is left to the caller of `FetchMovies`; interleavings of pending requests with other events are modelled only as the order in which the callbacks are called.
- EditMovieForm.EditMovieForm.constructor: the rating input holds the stored number until it is edited; the model holds its text `show(n)` from the start, which is what `append` sends.
- `console.error` logging, JSX, CSS, routing, CORS, static file serving and listening on a port.
- `backend/db.js` (connection-pool settings) and `frontend/src/index.js` (React bootstrap) are not part of this model.
