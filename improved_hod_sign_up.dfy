/** The HOD registration form: six fields, all required, and a conflict message that
    never echoes the response body. */
module ImprovedHodSignUp {
  import opened JsValue
  import opened Http
  import SignUp
  import ApiEndpoints

  /** The form's fields, in declaration order; the validator demands all of them. */
  const Fields := ["name", "department", "username", "password", "email", "phone"]

  /** The literal register URL, which is the endpoint table's. */
  const RegisterPaths := [ApiEndpoints.HodEndpoints.register]

  const PlaceholderName := "empty.png"
  const SuccessMessage := "HOD registered successfully! Redirecting to login..."
  const SignInPath := "/auth/hod/sign-in"
  const ConflictMessage := "HOD with same username or email already exists"
  const BadRequestMessage := "Invalid data provided"
  const GenericMessage := "Registration failed. Please try again."

  /** The message set for a failed registration: only a 400 can echo the body. */
  function FailureMessage(e: HttpError): (m: Json)
    ensures Truthy(m)
    ensures !m.JStr? ==> m == DataOf(e) && HasStatus(e, 400)
    ensures HasStatus(e, 409) ==> m == JStr(ConflictMessage)
    ensures HasStatus(e, 400) ==> m == (if Truthy(DataOf(e)) then DataOf(e) else JStr(BadRequestMessage))
    ensures !HasStatus(e, 409) && !HasStatus(e, 400) ==> m == JStr(GenericMessage)
  {
    if HasStatus(e, 409) then JStr(ConflictMessage)
    else if HasStatus(e, 400) then Or(DataOf(e), JStr(BadRequestMessage))
    else JStr(GenericMessage)
  }

  /** Apart from a 400, the message does not depend on the response body. */
  lemma FailureIgnoresBody(e1: HttpError, e2: HttpError)
    requires StatusOf(e1) == StatusOf(e2) && !HasStatus(e1, 400)
    ensures FailureMessage(e1) == FailureMessage(e2)
  {
  }

  /** The component's constants. */
  const Settings := SignUp.Config(Fields, Fields, RegisterPaths, {}, PlaceholderName,
                                  SuccessMessage, SignInPath, FailureMessage, [], "")

  lemma SettingsCoherent()
    ensures SignUp.Coherent(Settings)
  {
    assert Fields[3] == "password" && Fields[4] == "email";
  }
}
