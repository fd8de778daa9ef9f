/**
 * What the add form and the edit form share: their five controlled inputs,
 * the handlers that change them, the trim-based name check and what a
 * submission ends in.
 */
module Forms {
  import opened Wrappers
  import opened JsValues
  import opened Http

  /** The values of the inputs: name, type, rating and image link as typed, and the chosen file. */
  datatype FormFields = FormFields(name: string, kind: string, rating: string, imageUrl: string, selectedFile: Option<File>)

  /** The form's state hooks; each `onChange` handler sets one of them. */
  class FormInputs {
    var name: string
    var kind: string
    var rating: string
    var imageUrl: string
    var selectedFile: Option<File>

    function Fields(): FormFields
      reads this
    {
      FormFields(name, kind, rating, imageUrl, selectedFile)
    }

    /** The `useState` initial values. */
    constructor (initial: FormFields)
      ensures Fields() == initial
    {
      name, kind, rating, imageUrl, selectedFile := initial.name, initial.kind, initial.rating, initial.imageUrl, initial.selectedFile;
    }

    method SetName(s: string)
      modifies this
      ensures Fields() == old(Fields()).(name := s)
    {
      name := s;
    }

    method SetKind(s: string)
      modifies this
      ensures Fields() == old(Fields()).(kind := s)
    {
      kind := s;
    }

    method SetRating(s: string)
      modifies this
      ensures Fields() == old(Fields()).(rating := s)
    {
      rating := s;
    }

    method SetImageUrl(s: string)
      modifies this
      ensures Fields() == old(Fields()).(imageUrl := s)
    {
      imageUrl := s;
    }

    /** The file input's `onChange`: the first chosen file becomes the selection, the link is kept, an empty list changes nothing. */
    method SelectFiles(files: seq<File>)
      modifies this
      ensures files != [] ==> Fields() == old(Fields()).(selectedFile := Some(files[0]))
      ensures files == [] ==> Fields() == old(Fields())
    {
      if files != [] {
        selectedFile := Some(files[0]);
      }
    }
  }

  /** `!name.trim()`: the form refuses to submit, which happens exactly for a name of white space only. */
  function NameMissing(name: string): (missing: bool)
    ensures missing <==> AllSpace(name)
  {
    TrimEmptyIffAllSpace(name);
    Trim(name) == ""
  }

  const AlertNameRequired := "Movie name is required"

  /** How a sent submission ends: `onSuccess()` is called, or an alert is shown and the form stays open. */
  datatype Completion = CalledOnSuccess | Alerted(message: string)

  /** What one `handleSubmit` does: refuse with an alert before any request, or send one request. */
  datatype SubmitOutcome = Refused(alert: string) | Sent(request: Request, completion: Completion)

  /** `if (res.ok) onSuccess(); else alert(failed)`, and `alert(errored)` when the fetch itself rejects. */
  function Complete(reply: Reply, failed: string, errored: string): (c: Completion)
    ensures c == CalledOnSuccess <==> reply == Responded(true)
    ensures reply == Responded(false) ==> c == Alerted(failed)
    ensures reply == NetworkError ==> c == Alerted(errored)
  {
    match reply
    case Responded(ok) => if ok then CalledOnSuccess else Alerted(failed)
    case NetworkError => Alerted(errored)
  }
}
