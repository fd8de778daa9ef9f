/**
 * The multipart payload the forms build (the browser's FormData, filled by
 * successive `append` calls), how the server reads its fields back, and the
 * requests and replies exchanged between client and API.
 */
module Http {
  import opened Wrappers

  /** A file picked in the browser's file input; only its identity matters here. */
  datatype File = File(originalName: string)

  datatype FormValue = Text(text: string) | Blob(file: File)

  /** The multipart field names the forms use and the server reads. */
  datatype FieldKey =
    | NameKey             // "name"
    | TypeKey             // "type"
    | RatingKey           // "rating"
    | ImageUrlLinkKey     // "imageUrlLink"
    | CurrentImageUrlKey  // "currentImageUrl"
    | ImageKey            // "image"

  datatype Part = Part(key: FieldKey, value: FormValue)

  /** The browser's FormData object: an ordered list of parts that `append` extends at the end. */
  class FormData {
    var parts: seq<Part>

    constructor ()
      ensures parts == []
    {
      parts := [];
    }

    /** `formData.append(key, text)` */
    method AppendText(key: FieldKey, text: string)
      modifies this
      ensures parts == old(parts) + [Part(key, Text(text))]
    {
      parts := parts + [Part(key, Text(text))];
    }

    /** `formData.append(key, file)` */
    method AppendFile(key: FieldKey, file: File)
      modifies this
      ensures parts == old(parts) + [Part(key, Blob(file))]
    {
      parts := parts + [Part(key, Blob(file))];
    }
  }

  /** No key occurs twice, so the server's reading of a field cannot depend on which duplicate it keeps. */
  predicate DistinctKeys(parts: seq<Part>)
  {
    forall i, j :: 0 <= i < j < |parts| ==> parts[i].key != parts[j].key
  }

  /** The text a multipart body carries under `key`, as the upload middleware puts it in `req.body`; None is `undefined`. */
  function TextField(parts: seq<Part>, key: FieldKey): (r: Option<string>)
    ensures r.Some? ==> Part(key, Text(r.value)) in parts
    ensures r.None? ==> forall i :: 0 <= i < |parts| && parts[i].key == key ==> !parts[i].value.Text?
  {
    if parts == [] then None
    else if parts[0].key == key && parts[0].value.Text? then Some(parts[0].value.text)
    else TextField(parts[1..], key)
  }

  /** The file a multipart body carries under `key`, as `upload.single(key)` puts it in `req.file`. */
  function FileField(parts: seq<Part>, key: FieldKey): (r: Option<File>)
    ensures r.Some? ==> Part(key, Blob(r.value)) in parts
    ensures r.None? ==> forall i :: 0 <= i < |parts| && parts[i].key == key ==> !parts[i].value.Blob?
  {
    if parts == [] then None
    else if parts[0].key == key && parts[0].value.Blob? then Some(parts[0].value.file)
    else FileField(parts[1..], key)
  }

  /** In a body without repeated keys, a part is read back exactly as it was appended. */
  lemma {:induction false} FieldOfDistinct(parts: seq<Part>, i: int)
    requires DistinctKeys(parts) && 0 <= i < |parts|
    ensures parts[i].value.Text? ==> TextField(parts, parts[i].key) == Some(parts[i].value.text)
    ensures parts[i].value.Text? ==> FileField(parts, parts[i].key) == None
    ensures parts[i].value.Blob? ==> FileField(parts, parts[i].key) == Some(parts[i].value.file)
    ensures parts[i].value.Blob? ==> TextField(parts, parts[i].key) == None
  {
    if i > 0 {
      assert parts[0].key != parts[i].key;
      assert DistinctKeys(parts[1..]) by {
        forall a, b | 0 <= a < b < |parts| - 1 ensures parts[1..][a].key != parts[1..][b].key {
          assert parts[1..][a] == parts[a + 1] && parts[1..][b] == parts[b + 1];
        }
      }
      assert parts[1..][i - 1] == parts[i];
      FieldOfDistinct(parts[1..], i - 1);
    } else if |parts| > 1 {
      assert forall k :: 0 <= k < |parts| - 1 ==> parts[1..][k].key != parts[0].key by {
        forall k | 0 <= k < |parts| - 1 ensures parts[1..][k].key != parts[0].key {
          assert parts[1..][k] == parts[k + 1];
        }
      }
    }
  }

  /** The requests the client issues to the API. */
  datatype Request =
    | GetMovies                               // GET /api/movies
    | PostMovie(body: seq<Part>)              // POST /api/movies
    | PutMovie(id: int, body: seq<Part>)      // PUT /api/movies/:id
    | DeleteById(id: int)                     // DELETE /api/movies/:id

  /** What `await fetch(...)` yields: a response whose `res.ok` is known, or a rejection (network failure). */
  datatype Reply = Responded(ok: bool) | NetworkError
}
