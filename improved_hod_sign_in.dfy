/** The HOD sign-in component: the staged flow with the id in `id`. */
module ImprovedHodSignIn {
  import opened JsValue
  import opened Http
  import StagedSignIn
  import ApiEndpoints

  /** The literal login URL, which is the endpoint table's; the profile URL is built
      like the table's `GET_BY_ID`. */
  const Settings := StagedSignIn.Config(
    ApiEndpoints.HodEndpoints.login, "id", "hod", "hodId", ApiEndpoints.Hod,
    "hodData", "rememberHOD", "/dashboard/hod/home", "HOD not found",
    "Failed to fetch HOD data")

  /** The HOD profile is fetched from the hods collection with the `id` of the login body. */
  lemma ProfileFromHods(props: map<string, Json>, remember: bool, profile: Outcome, codec: Codec)
    requires "id" in props
    ensures StagedSignIn.LoginStage(Settings, Resolved(Response(200, JObj(props))), remember, profile, codec).requests
      == [Request(Get, ApiEndpoints.GetById(ApiEndpoints.Hod, ToJsString(props["id"])), NoBody)]
  {
  }
}
