/** The professor registration form: a comma-separated `subjects` list normalised before
    it is sent, and no department picker. */
module ImprovedProfessorSignUp {
  import opened Wrappers
  import opened JsValue
  import opened Record
  import opened Http
  import opened Multipart
  import SignUp
  import ApiEndpoints

  /** The form's fields, in declaration order. */
  const Fields := ["professorId", "name", "departmentName", "subject", "username", "password",
                   "email", "phone", "subjects"]

  /** The fields the validator demands, in the order it checks them; `subjects` is optional. */
  const Required := ["professorId", "name", "departmentName", "subject", "username", "password",
                     "email", "phone"]

  /** The literal register URL, which is the endpoint table's. */
  const RegisterPaths := [ApiEndpoints.ProfessorEndpoints.register]

  /** The one key whose value is normalised before it is appended. */
  const Normalised := {"subjects"}

  const PlaceholderName := "empty.png"
  const SuccessMessage := "Professor registered successfully! Redirecting to login..."
  const SignInPath := "/auth/professor/sign-in"
  const ConflictMessage := "Professor with this username or email already exists"
  const BadRequestMessage := "Invalid data provided"
  const GenericMessage := "Registration failed. Please try again."

  /** The message set for a failed registration; a timeout gets the generic message. */
  function FailureMessage(e: HttpError): (m: Json)
    ensures Truthy(m)
    ensures !m.JStr? ==> m == DataOf(e) && (HasStatus(e, 409) || HasStatus(e, 400))
    ensures HasStatus(e, 409) ==> m == (if Truthy(DataOf(e)) then DataOf(e) else JStr(ConflictMessage))
    ensures HasStatus(e, 400) ==> m == (if Truthy(DataOf(e)) then DataOf(e) else JStr(BadRequestMessage))
    ensures !HasStatus(e, 409) && !HasStatus(e, 400) ==> m == JStr(GenericMessage)
  {
    if HasStatus(e, 409) then Or(DataOf(e), JStr(ConflictMessage))
    else if HasStatus(e, 400) then Or(DataOf(e), JStr(BadRequestMessage))
    else JStr(GenericMessage)
  }

  /** A truthy body is shown exactly under a 409 or a 400; every other failure shows one
      of the three fixed texts. */
  lemma FailureEchoesBody(e: HttpError)
    ensures Truthy(DataOf(e)) && (HasStatus(e, 409) || HasStatus(e, 400)) ==> FailureMessage(e) == DataOf(e)
    ensures !(Truthy(DataOf(e)) && (HasStatus(e, 409) || HasStatus(e, 400))) ==>
      FailureMessage(e) in {JStr(ConflictMessage), JStr(BadRequestMessage), JStr(GenericMessage)}
  {
  }

  /** There is no timeout branch: the message depends on the response alone, so an
      aborted request and one that was not get the same text. */
  lemma FailureIgnoresTimeout(e1: HttpError, e2: HttpError)
    requires e1.response == e2.response
    ensures FailureMessage(e1) == FailureMessage(e2)
  {
  }

  /** The component's constants. */
  const Settings := SignUp.Config(Fields, Required, RegisterPaths, Normalised, PlaceholderName,
                                  SuccessMessage, SignInPath, FailureMessage, [], "")

  lemma SettingsCoherent()
    ensures SignUp.Coherent(Settings)
  {
    assert Fields[5] == "password" && Fields[6] == "email";
    assert forall i :: 0 <= i < |Required| ==> Required[i] == Fields[i];
  }

  /** The `subjects` part carries the tidied list; every other field is sent verbatim. */
  lemma SubjectsNormalised(form: Entries, upload: Upload)
    requires UniqueKeys(form)
    ensures forall i :: 0 <= i < |form| && form[i].key == "subjects" ==>
      FormGet(Payload(form, Normalised, upload), "subjects") == Some(TextPart("subjects", NormaliseList(form[i].value)))
    ensures forall i :: 0 <= i < |form| && form[i].key != "subjects" ==>
      FormGet(Payload(form, Normalised, upload), form[i].key) == Some(TextPart(form[i].key, form[i].value))
  {
    PayloadFields(form, Normalised, upload);
  }
}
