/** The corrected student registration form: the endpoint table's register URL with
    four alternatives, a department list fetched with one alternative, and an error
    chain that also reports a response body. */
module CorrectedStudentSignUp {
  import opened Wrappers
  import opened JsValue
  import opened Http
  import SignUp
  import ApiEndpoints

  /** The form's fields, in declaration order. */
  const Fields := ["studentId", "username", "password", "email", "studName", "studFatherName",
                   "studLastName", "studentAge", "studentDob", "studCaste", "studCategory",
                   "studRollNo", "year", "studPhoneNumber", "major"]

  /** The fields the validator demands, in the order it checks them. */
  const Required := ["studentId", "username", "password", "email", "studName", "major", "year", "studRollNo"]

  /** The primary register endpoint, then the alternatives in the order they are tried. */
  const RegisterPaths := [ApiEndpoints.StudentEndpoints.register, "/api/student/register",
                          "/api/students/register", "/api/student/add", "/api/auth/student/register"]

  /** The department list endpoint and its single alternative. */
  const DepartmentPaths := [ApiEndpoints.DepartmentGetAll, "/api/department/all"]

  /** The placeholder file name of the empty blob sent when no image is chosen. */
  const PlaceholderName := ""

  const SuccessMessage := "Student registered successfully! Redirecting to login..."
  const SignInPath := "/auth/student/sign-in"
  const DepartmentsError := "Failed to load departments. Please try again."
  const ConflictMessage := "Student with this username or email already exists"
  const BadRequestMessage := "Invalid data provided. Please check all fields."
  const TimeoutMessage := "Request timeout. Please try again."
  const NonTextBodyMessage := "Registration failed"
  const ConnectionMessage := "Registration failed. Please check your connection and try again."

  /** The message set for a failed registration. A 409 or 400 echoes the response body
      when it is truthy, whatever its type; so the result is not always a string. */
  function FailureMessage(e: HttpError): (m: Json)
    ensures Truthy(m)
    ensures !m.JStr? ==> m == DataOf(e) && (HasStatus(e, 409) || HasStatus(e, 400))
    ensures HasStatus(e, 409) ==> m == (if Truthy(DataOf(e)) then DataOf(e) else JStr(ConflictMessage))
    ensures HasStatus(e, 400) ==> m == (if Truthy(DataOf(e)) then DataOf(e) else JStr(BadRequestMessage))
    ensures !HasStatus(e, 409) && !HasStatus(e, 400) && e.aborted ==> m == JStr(TimeoutMessage)
    ensures !HasStatus(e, 409) && !HasStatus(e, 400) && !e.aborted ==>
      m == (if !Truthy(DataOf(e)) then JStr(ConnectionMessage)
            else if DataOf(e).JStr? then DataOf(e) else JStr(NonTextBodyMessage))
  {
    if HasStatus(e, 409) then Or(DataOf(e), JStr(ConflictMessage))
    else if HasStatus(e, 400) then Or(DataOf(e), JStr(BadRequestMessage))
    else if e.aborted then JStr(TimeoutMessage)
    else if Truthy(DataOf(e)) then (if DataOf(e).JStr? then DataOf(e) else JStr(NonTextBodyMessage))
    else JStr(ConnectionMessage)
  }

  /** The texts the chain falls back on when it does not show the body. */
  const FixedMessages := {JStr(ConflictMessage), JStr(BadRequestMessage), JStr(TimeoutMessage),
                          JStr(NonTextBodyMessage), JStr(ConnectionMessage)}

  /** The body itself is shown exactly in two situations: it is truthy and came with a 409
      or a 400, or it is a non-empty text and the request was neither of those nor a
      timeout. Every other failure shows one of the fixed texts. */
  lemma FailureShowsBody(e: HttpError)
    ensures Truthy(DataOf(e)) && (HasStatus(e, 409) || HasStatus(e, 400) || (!e.aborted && DataOf(e).JStr?))
      ==> FailureMessage(e) == DataOf(e)
    ensures !(Truthy(DataOf(e)) && (HasStatus(e, 409) || HasStatus(e, 400) || (!e.aborted && DataOf(e).JStr?)))
      ==> FailureMessage(e) in FixedMessages
  {
  }

  /** A timeout without a 409 or a 400 never looks at the body, nor at the message. */
  lemma TimeoutIgnoresBody(e1: HttpError, e2: HttpError)
    requires e1.aborted && e2.aborted
    requires !HasStatus(e1, 409) && !HasStatus(e1, 400) && !HasStatus(e2, 409) && !HasStatus(e2, 400)
    ensures FailureMessage(e1) == FailureMessage(e2) == JStr(TimeoutMessage)
  {
  }

  /** The component's constants. */
  const Settings := SignUp.Config(Fields, Required, RegisterPaths, {}, PlaceholderName, SuccessMessage,
                                  SignInPath, FailureMessage, DepartmentPaths, DepartmentsError)

  /** The validator reads only declared fields: each required name is one of the fields. */
  lemma SettingsCoherent()
    ensures SignUp.Coherent(Settings)
  {
    assert Fields[0] == "studentId" && Fields[1] == "username" && Fields[2] == "password";
    assert Fields[3] == "email" && Fields[4] == "studName" && Fields[14] == "major";
    assert Fields[12] == "year" && Fields[11] == "studRollNo";
  }
}
