/** The add form: empty inputs, the trim check, and the POST body built by successive appends. */
module AddMovieForm {
  import opened Wrappers
  import opened JsValues
  import opened Http
  import opened Forms

  /** The `useState` initial values: every text input empty and no file chosen. */
  const Initial := FormFields("", "", "", "", None)

  /** The body `handleSubmit` sends: the four text inputs in order, then the file under `image` when one was chosen. */
  function AddPayload(f: FormFields): (body: seq<Part>)
    ensures DistinctKeys(body)
    ensures |body| == if f.selectedFile.Some? then 5 else 4
    ensures forall i | 0 <= i < |body| :: body[i].value.Blob? <==> body[i].key == ImageKey
  {
    [Part(NameKey, Text(f.name)), Part(TypeKey, Text(f.kind)), Part(RatingKey, Text(f.rating)), Part(ImageUrlLinkKey, Text(f.imageUrl))]
    + (if f.selectedFile.Some? then [Part(ImageKey, Blob(f.selectedFile.value))] else [])
  }

  /** The body repeats no key, and the server reads back each text input exactly as typed (`name` untrimmed). */
  lemma AddPayloadReadsInputs(f: FormFields)
    ensures DistinctKeys(AddPayload(f))
    ensures TextField(AddPayload(f), NameKey) == Some(f.name)
    ensures TextField(AddPayload(f), TypeKey) == Some(f.kind)
    ensures TextField(AddPayload(f), RatingKey) == Some(f.rating)
    ensures TextField(AddPayload(f), ImageUrlLinkKey) == Some(f.imageUrl)
  {
    var body := AddPayload(f);
    assert DistinctKeys(body);
    assert TextField(body, RatingKey) == Some(f.rating) by { FieldOfDistinct(body, 2); }
    assert TextField(body, ImageUrlLinkKey) == Some(f.imageUrl) by { FieldOfDistinct(body, 3); }
  }

  /** The body carries a file under `image` if and only if one was chosen, and no prior image URL. */
  lemma AddPayloadFileIffSelected(f: FormFields)
    ensures FileField(AddPayload(f), ImageKey) == f.selectedFile
    ensures TextField(AddPayload(f), CurrentImageUrlKey) == None
  {
    var body := AddPayload(f);
    if f.selectedFile.Some? {
      assert DistinctKeys(body);
      FieldOfDistinct(body, 4);
    }
  }

  const AlertAddFailed := "Failed to add movie"
  const AlertAddError := "Error adding movie"

  class AddMovieForm {
    const inputs: FormInputs

    constructor ()
      ensures fresh(inputs) && inputs.Fields() == Initial
    {
      inputs := new FormInputs(Initial);
    }

    /** `handleSubmit`: a name that trims to nothing is refused before any request; otherwise one POST, then `onSuccess` or an alert. */
    method HandleSubmit(reply: Reply) returns (outcome: SubmitOutcome)
      ensures NameMissing(inputs.name) ==> outcome == Refused(AlertNameRequired)
      ensures !NameMissing(inputs.name) ==>
                outcome == Sent(PostMovie(AddPayload(inputs.Fields())), Complete(reply, AlertAddFailed, AlertAddError))
    {
      if Trim(inputs.name) == "" {
        return Refused(AlertNameRequired);
      }
      var fields := inputs.Fields();
      var formData := new FormData();
      formData.AppendText(NameKey, fields.name);
      formData.AppendText(TypeKey, fields.kind);
      formData.AppendText(RatingKey, fields.rating);
      formData.AppendText(ImageUrlLinkKey, fields.imageUrl);
      if fields.selectedFile.Some? {
        formData.AppendFile(ImageKey, fields.selectedFile.value);
      }
      assert formData.parts == AddPayload(fields);
      outcome := Sent(PostMovie(formData.parts), Complete(reply, AlertAddFailed, AlertAddError));
    }
  }
}
