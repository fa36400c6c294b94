/** The older HOD sign-up page: no validation, the `file` part appended before the
    fields, a single request, and one message for every outcome. */
module HodSignUpPage {
  import opened Wrappers
  import opened JsValue
  import opened Record
  import opened Http
  import opened Multipart
  import ApiEndpoints

  /** The page's fields, in declaration order: the same as the newer HOD form's. */
  const Fields := ["name", "department", "username", "password", "email", "phone"]

  /** The literal register URL, which is the endpoint table's. */
  const RegisterUrl := ApiEndpoints.HodEndpoints.register

  const PlaceholderName := "empty.png"
  const CreatedMessage := "HOD created successfully"
  const ConflictMessage := "HOD with same username or email already exists."
  const FailedMessage := "Failed to create HOD"

  /** The body: the `file` part first, then one text part per entry. */
  function LegacyPayload(form: Entries, upload: Upload): (parts: seq<Part>)
    ensures |parts| == |form| + 1 && parts[0] == FilePart("file", upload)
    ensures parts[1..] == EntryParts(form, {})
  {
    [FilePart("file", upload)] + EntryParts(form, {})
  }

  /** The message shown after the request settles: the response body when it is truthy,
      whatever its type; a fixed text otherwise. */
  function ResultMessage(outcome: Outcome): (m: Json)
    ensures Truthy(m)
    ensures outcome.Rejected? ==> m in {JStr(ConflictMessage), JStr(FailedMessage)}
    ensures outcome.Rejected? ==> (m == JStr(ConflictMessage) <==> HasStatus(outcome.error, 409))
    ensures outcome.Resolved? && Truthy(outcome.response.data) ==> m == outcome.response.data
    ensures outcome.Resolved? && !Truthy(outcome.response.data) ==> m == JStr(CreatedMessage)
  {
    match outcome
    case Resolved(r) => Or(r.data, JStr(CreatedMessage))
    case Rejected(e) => if HasStatus(e, 409) then JStr(ConflictMessage) else JStr(FailedMessage)
  }

  /** The older page sends the same parts as the newer forms, in another order: the
      `file` part is first instead of last. */
  lemma SamePartsOtherOrder(form: Entries, upload: Upload)
    ensures multiset(LegacyPayload(form, upload)) == multiset(Payload(form, {}, upload))
  {
    var entries := EntryParts(form, {});
    var file := [FilePart("file", upload)];
    calc {
      multiset(LegacyPayload(form, upload));
      multiset(file + entries);
      multiset(file) + multiset(entries);
      multiset(entries + file);
    }
  }

  /** The part names of the older body: "file", then the form's keys in order. */
  lemma LegacyNames(form: Entries, upload: Upload)
    ensures Names(LegacyPayload(form, upload)) == ["file"] + Keys(form)
  {
    var names := Names(LegacyPayload(form, upload));
    var expected := ["file"] + Keys(form);
    assert |names| == |expected|;
    forall i | 0 <= i < |names| ensures names[i] == expected[i] {
      if i > 0 {
        assert LegacyPayload(form, upload)[i] == EntryParts(form, {})[i - 1];
      }
    }
  }

  /** `formData.get("file")` finds the upload, since it is the first part. */
  lemma FileFoundFirst(form: Entries, upload: Upload)
    ensures FormGet(LegacyPayload(form, upload), "file") == Some(FilePart("file", upload))
  {
  }

  /** The page's state. */
  class Page {
    var formData: Entries
    var file: Option<File>
    var message: Json

    constructor()
      ensures formData == Blank(Fields) && file == None && message == JStr("")
    {
      formData := Blank(Fields);
      file := None;
      message := JStr("");
    }

    /** `handleChange`: only the named field takes the new value. */
    method HandleChange(name: string, value: string)
      modifies this
      ensures formData == Set(old(formData), name, value)
      ensures file == old(file) && message == old(message)
    {
      formData := Set(formData, name, value);
    }

    /** `handleFileChange`: any file is taken as it is, with no type or size check. */
    method HandleFileChange(chosen: Option<File>)
      modifies this
      ensures file == chosen && formData == old(formData) && message == old(message)
    {
      file := chosen;
    }

    /** `handleSubmit`, given the outcome of the one request: the handler itself does not
        validate and posts whatever the form holds. The inputs' `required` attributes are
        markup and are not modelled. */
    method HandleSubmit(outcome: Outcome) returns (sent: Request)
      modifies this
      ensures sent == Request(Post, RegisterUrl, FormBody(LegacyPayload(old(formData), FileUpload(old(file), PlaceholderName))))
      ensures message == ResultMessage(outcome)
      ensures formData == old(formData) && file == old(file)
    {
      var payload := new FormData();
      if file.Some? {
        payload.AppendFile("file", Chosen(file.value));
      } else {
        payload.AppendFile("file", Placeholder(PlaceholderName));
      }
      assert payload.parts == [FilePart("file", FileUpload(file, PlaceholderName))];
      payload.AppendEntries(formData, {});
      sent := Request(Post, RegisterUrl, FormBody(payload.parts));
      match outcome {
        case Resolved(r) =>
          message := Or(r.data, JStr(CreatedMessage));
        case Rejected(e) =>
          if HasStatus(e, 409) {
            message := JStr(ConflictMessage);
          } else {
            message := JStr(FailedMessage);
          }
      }
    }
  }
}
