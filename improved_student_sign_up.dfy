/** The first student registration form: one register URL, one department URL, the
    placeholder file `empty.png`, and a shorter error chain than the corrected form's. */
module ImprovedStudentSignUp {
  import opened JsValue
  import opened Http
  import SignUp
  import ApiEndpoints
  import CorrectedStudentSignUp

  /** The same fields and required fields as the corrected form. */
  const Fields := CorrectedStudentSignUp.Fields
  const Required := CorrectedStudentSignUp.Required

  /** The literal register URL, which is the endpoint table's. */
  const RegisterPaths := [ApiEndpoints.StudentEndpoints.register]

  /** The literal department list URL, which is the endpoint table's; no alternative. */
  const DepartmentPaths := [ApiEndpoints.DepartmentGetAll]

  const PlaceholderName := "empty.png"

  const BadRequestMessage := "Invalid data provided"
  const GenericMessage := "Registration failed. Please try again."

  /** The message set for a failed registration: only a 409 or 400 can echo the body. */
  function FailureMessage(e: HttpError): (m: Json)
    ensures Truthy(m)
    ensures !m.JStr? ==> m == DataOf(e) && (HasStatus(e, 409) || HasStatus(e, 400))
    ensures HasStatus(e, 409) ==> m == (if Truthy(DataOf(e)) then DataOf(e) else JStr(CorrectedStudentSignUp.ConflictMessage))
    ensures HasStatus(e, 400) ==> m == (if Truthy(DataOf(e)) then DataOf(e) else JStr(BadRequestMessage))
    ensures !HasStatus(e, 409) && !HasStatus(e, 400) ==>
      m == JStr(if e.aborted then CorrectedStudentSignUp.TimeoutMessage else GenericMessage)
  {
    if HasStatus(e, 409) then Or(DataOf(e), JStr(CorrectedStudentSignUp.ConflictMessage))
    else if HasStatus(e, 400) then Or(DataOf(e), JStr(BadRequestMessage))
    else if e.aborted then JStr(CorrectedStudentSignUp.TimeoutMessage)
    else JStr(GenericMessage)
  }

  /** The two student forms agree on a conflict and on a timeout. */
  lemma ChainsAgree(e: HttpError)
    ensures HasStatus(e, 409) ==> FailureMessage(e) == CorrectedStudentSignUp.FailureMessage(e)
    ensures !HasStatus(e, 409) && !HasStatus(e, 400) && e.aborted ==>
      FailureMessage(e) == CorrectedStudentSignUp.FailureMessage(e)
  {
  }

  /** They differ on a 400 without a body, and on any other failure: the corrected form
      shows a text body verbatim where this one shows its generic message. */
  lemma ChainsDiffer(e: HttpError)
    ensures HasStatus(e, 400) && !Truthy(DataOf(e)) ==>
      FailureMessage(e) != CorrectedStudentSignUp.FailureMessage(e)
    ensures !HasStatus(e, 409) && !HasStatus(e, 400) && !e.aborted ==>
      FailureMessage(e) == JStr(GenericMessage) &&
      (DataOf(e).JStr? && DataOf(e).s != "" ==> CorrectedStudentSignUp.FailureMessage(e) == DataOf(e))
  {
    CorrectedStudentSignUp.FailureShowsBody(e);
    if HasStatus(e, 400) && !Truthy(DataOf(e)) {
      assert |BadRequestMessage| != |CorrectedStudentSignUp.BadRequestMessage|;
    }
  }

  /** The component's constants. */
  const Settings := SignUp.Config(Fields, Required, RegisterPaths, {}, PlaceholderName,
                                  CorrectedStudentSignUp.SuccessMessage, CorrectedStudentSignUp.SignInPath,
                                  FailureMessage, DepartmentPaths, CorrectedStudentSignUp.DepartmentsError)

  lemma SettingsCoherent()
    ensures SignUp.Coherent(Settings)
  {
    CorrectedStudentSignUp.SettingsCoherent();
  }
}
