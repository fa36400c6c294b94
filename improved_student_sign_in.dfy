/** The first student sign-in component: the staged flow with the id in `studentId`. */
module ImprovedStudentSignIn {
  import opened JsValue
  import opened Http
  import StagedSignIn
  import ApiEndpoints
  import CorrectedStudentSignIn

  /** The literal login URL, which is the endpoint table's; the profile URL is built
      like the table's `GET_BY_ID`. */
  const Settings := StagedSignIn.Config(
    ApiEndpoints.StudentEndpoints.login, "studentId", "student", "studentId", ApiEndpoints.Student,
    "studentData", "rememberStudent", "/dashboard/student/home", "Student not found",
    "Failed to fetch student data")

  /** The first student sign-in stops at a failed profile fetch, where the corrected one
      still opens the dashboard. */
  lemma StricterThanCorrected(login: Response, remember: bool, profile: Outcome, codec: Codec)
    requires login.status == 200
    requires login.data.JObj? && "studentId" in login.data.props && Truthy(login.data.props["studentId"])
    requires !(profile.Resolved? && profile.response.status == 200)
    ensures StagedSignIn.LoginStage(Settings, Resolved(login), remember, profile, codec).navigation == []
    ensures CorrectedStudentSignIn.LoginStage(Resolved(login), remember, profile, codec).navigation
      == [CorrectedStudentSignIn.DashboardPath]
  {
    CorrectedStudentSignIn.StudentIdFirst(login.data.props);
  }

  /** Where both succeed they request the same profile URL and store the same role and id. */
  lemma SameProfileRequest(login: Response, remember: bool, profile: Outcome, codec: Codec)
    requires login.status == 200
    requires login.data.JObj? && "studentId" in login.data.props && Truthy(login.data.props["studentId"])
    ensures StagedSignIn.LoginStage(Settings, Resolved(login), remember, profile, codec).requests
      == CorrectedStudentSignIn.LoginStage(Resolved(login), remember, profile, codec).requests
    ensures StagedSignIn.LoginStage(Settings, Resolved(login), remember, profile, codec).writes[..2]
      == CorrectedStudentSignIn.LoginStage(Resolved(login), remember, profile, codec).writes[..2]
  {
    CorrectedStudentSignIn.StudentIdFirst(login.data.props);
  }
}
