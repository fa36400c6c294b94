/** The corrected student sign-in: the endpoint table's login URL with four
    alternatives, a login body whose id may come in several shapes, and a profile fetch
    whose failure does not stop the login. */
module CorrectedStudentSignIn {
  import opened Wrappers
  import opened JsValue
  import opened Record
  import opened Http
  import opened Browser
  import opened Fallback
  import opened SignIn
  import ApiEndpoints

  /** The primary login endpoint, then the alternatives in the order they are tried. */
  const LoginPaths := [ApiEndpoints.StudentEndpoints.login, "/api/student/login", "/api/students/authenticate",
                       "/api/auth/student/login", "/api/student/signin"]

  const Role := "student"
  const DashboardPath := "/dashboard/student/home"
  const RememberKey := "rememberStudent"
  const InvalidFormatMessage := "Invalid login response format"

  const UnauthorizedMessage := "Invalid username or password"
  const NotFoundMessage := "Student not found"
  const ForbiddenMessage := "Account is disabled. Please contact administrator."
  const TimeoutMessage := "Request timeout. Please try again."
  const NonTextBodyMessage := "Login failed"
  const ConnectionMessage := "Login failed. Please check your connection and try again."

  /** The message set for a failed login. The result is always a string: a body that is
      not one gives a fixed text. */
  function FailureMessage(e: HttpError): (m: Json)
    ensures m.JStr? && m.s != ""
    ensures !DataOf(e).JStr? ==>
      m.s in {UnauthorizedMessage, NotFoundMessage, ForbiddenMessage, TimeoutMessage, NonTextBodyMessage, ConnectionMessage}
    ensures HasStatus(e, 401) ==> m == JStr(UnauthorizedMessage)
    ensures HasStatus(e, 404) ==> m == JStr(NotFoundMessage)
    ensures HasStatus(e, 403) ==> m == JStr(ForbiddenMessage)
    ensures StatusOf(e) !in {Some(401), Some(404), Some(403)} && e.aborted ==> m == JStr(TimeoutMessage)
    ensures StatusOf(e) !in {Some(401), Some(404), Some(403)} && !e.aborted ==>
      m == (if !Truthy(DataOf(e)) then JStr(ConnectionMessage)
            else if DataOf(e).JStr? then DataOf(e) else JStr(NonTextBodyMessage))
  {
    if HasStatus(e, 401) then JStr(UnauthorizedMessage)
    else if HasStatus(e, 404) then JStr(NotFoundMessage)
    else if HasStatus(e, 403) then JStr(ForbiddenMessage)
    else if e.aborted then JStr(TimeoutMessage)
    else if Truthy(DataOf(e)) then JStr(if DataOf(e).JStr? then DataOf(e).s else NonTextBodyMessage)
    else JStr(ConnectionMessage)
  }

  /** An error the component throws itself (a malformed login body, a TypeError) has no
      response, so it shows the connection message. */
  lemma ThrownShowsConnectionMessage(message: string)
    ensures FailureMessage(Thrown(message)) == JStr(ConnectionMessage)
  {
  }

  /** A text body of an unlisted failure is shown verbatim; the listed statuses and a
      timeout never show the body. */
  lemma FailureShowsTextBody(e: HttpError)
    ensures (!HasStatus(e, 401) && !HasStatus(e, 404) && !HasStatus(e, 403) && !e.aborted
             && DataOf(e).JStr? && DataOf(e).s != "") ==> FailureMessage(e) == DataOf(e)
    ensures HasStatus(e, 401) || HasStatus(e, 404) || HasStatus(e, 403) || e.aborted ==>
      FailureMessage(e) in {JStr(UnauthorizedMessage), JStr(NotFoundMessage), JStr(ForbiddenMessage), JStr(TimeoutMessage)}
  {
  }

  /** The student id in a login body: `studentId`, then `id`, then `student.studentId`,
      whichever is truthy first, then the body itself when it is a string. Reading a
      property of a `null` or missing body throws. */
  function StudentIdOf(data: Json): (r: Result<Json, HttpError>)
    ensures r.Success? ==> Truthy(r.value) || r.value == data
    ensures r.Success? && !Truthy(r.value) ==> data.JStr?
  {
    match JsValue.Get(data, "studentId")
    case None => Failure(TypeError)
    case Some(sid) =>
      if Truthy(sid) then Success(sid)
      else if Truthy(GetOptional(data, "id")) then Success(GetOptional(data, "id"))
      else if Truthy(GetOptional(GetOptional(data, "student"), "studentId")) then Success(GetOptional(GetOptional(data, "student"), "studentId"))
      else if data.JStr? then Success(data)
      else Failure(Thrown(InvalidFormatMessage))
  }

  /** Which login bodies yield an id: a present, non-null body with one of the three
      properties truthy, or a string. */
  lemma StudentIdAccepted(data: Json)
    ensures StudentIdOf(data).Success? <==>
      !data.JUndefined? && !data.JNull? &&
      (Truthy(GetOptional(data, "studentId")) || Truthy(GetOptional(data, "id"))
       || Truthy(GetOptional(GetOptional(data, "student"), "studentId")) || data.JStr?)
    ensures data.JStr? ==> StudentIdOf(data) == Success(data)
    ensures data.JNull? || data.JUndefined? ==> StudentIdOf(data) == Failure(TypeError)
  {
  }

  /** A body carrying a truthy `studentId` yields it, whatever else it holds. */
  lemma StudentIdFirst(props: map<string, Json>)
    requires "studentId" in props && Truthy(props["studentId"])
    ensures StudentIdOf(JObj(props)) == Success(props["studentId"])
  {
  }

  /** With a falsy `studentId`, a truthy `id` comes next, whatever `student` holds. */
  lemma StudentIdSecond(props: map<string, Json>)
    requires "studentId" !in props || !Truthy(props["studentId"])
    requires "id" in props && Truthy(props["id"])
    ensures StudentIdOf(JObj(props)) == Success(props["id"])
  {
  }

  /** With `studentId` and `id` both falsy, a truthy `student.studentId` is taken before
      the body would be read as a string. */
  lemma StudentIdThird(props: map<string, Json>)
    requires "studentId" !in props || !Truthy(props["studentId"])
    requires "id" !in props || !Truthy(props["id"])
    requires Truthy(GetOptional(GetOptional(JObj(props), "student"), "studentId"))
    ensures StudentIdOf(JObj(props)) == Success(GetOptional(GetOptional(JObj(props), "student"), "studentId"))
  {
  }

  /** The `studentData` write when the profile fetch resolved with status 200. */
  function ProfileWrites(profile: Outcome, codec: Codec): seq<(string, string)> {
    if profile.Resolved? && profile.response.status == 200
    then [("studentData", codec.stringify(profile.response.data))]
    else []
  }

  /** What follows the login requests, once they settled with `result`: the profile
      request, the writes, the navigation and the message. */
  function LoginStage(result: Outcome, remember: bool, profile: Outcome, codec: Codec): Effect {
    match result
    case Rejected(e) => Effect([], [], [], FailureMessage(e))
    case Resolved(r) =>
      if r.status != 200 then Effect([], [], [], JStr(""))
      else match StudentIdOf(r.data)
        case Failure(e) => Effect([], [], [], FailureMessage(e))
        case Success(id) =>
          Effect([Request(Get, ApiEndpoints.GetById(ApiEndpoints.Student, ToJsString(id)), NoBody)],
                 LoginWrites(ToJsString(id), remember, profile, codec), [DashboardPath], JStr(""))
  }

  /** One submission of `form`, where `logins[i]` is how the login request to
      `LoginPaths[i]` would end and `profile` how the profile fetch would end. */
  function Attempt(form: Entries, remember: bool, logins: seq<Outcome>, profile: Outcome, codec: Codec): Effect
    requires HasCredentials(form) && |logins| == |LoginPaths|
  {
    match CredentialsError(form)
    case Some(m) => Refusal(m)
    case None =>
      var run := Resolution(logins);
      var stage := LoginStage(run.result, remember, profile, codec);
      Effect(Attempts(Post, LoginPaths, JsonBody(Credentials(form)))[..run.tries] + stage.requests,
             stage.writes, stage.navigation, stage.error)
  }

  /** The submission of an accepted form whose login requests are known. */
  lemma AttemptPosted(form: Entries, remember: bool, logins: seq<Outcome>, profile: Outcome, codec: Codec,
                      result: Outcome, posted: seq<Request>)
    requires HasCredentials(form) && |logins| == |LoginPaths| && CredentialsError(form).None?
    requires Run(result, |posted|) == Resolution(logins)
    requires posted == Attempts(Post, LoginPaths, JsonBody(Credentials(form)))[..|posted|]
    ensures var stage := LoginStage(result, remember, profile, codec);
      Attempt(form, remember, logins, profile, codec) == Effect(posted + stage.requests, stage.writes, stage.navigation, stage.error)
  {
  }

  /** Nothing is stored and nobody is navigated away unless a login succeeded with an id;
      then the role and id are stored before anything else and the dashboard opens,
      whether or not the profile fetch succeeded. */
  lemma StorageOnlyAfterLogin(form: Entries, remember: bool, logins: seq<Outcome>, profile: Outcome, codec: Codec)
    requires HasCredentials(form) && |logins| == |LoginPaths|
    ensures var eff := Attempt(form, remember, logins, profile, codec);
      && (eff.writes != [] <==> eff.navigation != [])
      && (eff.navigation != [] ==>
            && CredentialsError(form).None?
            && Resolution(logins).result.Resolved? && Resolution(logins).result.response.status == 200
            && StudentIdOf(Resolution(logins).result.response.data).Success?
            && eff.navigation == [DashboardPath] && eff.error == JStr("")
            && eff.writes == LoginWrites(ToJsString(StudentIdOf(Resolution(logins).result.response.data).value), remember, profile, codec))
  {
  }

  /** The writes of a login that yielded an id whose text is `id`. */
  function LoginWrites(id: string, remember: bool, profile: Outcome, codec: Codec): seq<(string, string)> {
    [("userRole", Role), ("studentId", id)] + ProfileWrites(profile, codec) + RememberWrites(remember, RememberKey)
  }

  /** After those writes the store holds the role, the id and, when the fetch returned
      200, the serialised profile; a failed fetch leaves any older profile in place. */
  lemma LoginWritesStored(items: map<string, string>, id: string, remember: bool, profile: Outcome, codec: Codec)
    ensures var after := ApplyWrites(items, LoginWrites(id, remember, profile, codec));
      && "userRole" in after && after["userRole"] == Role
      && "studentId" in after && after["studentId"] == id
      && (profile.Resolved? && profile.response.status == 200 ==>
            "studentData" in after && after["studentData"] == codec.stringify(profile.response.data))
      && (!(profile.Resolved? && profile.response.status == 200) ==>
            ("studentData" in after <==> "studentData" in items) && ("studentData" in items ==> after["studentData"] == items["studentData"]))
  {
    var writes := LoginWrites(id, remember, profile, codec);
    assert writes[0] == ("userRole", Role) && writes[1] == ("studentId", id);
    assert forall j :: 1 <= j < |writes| ==> writes[j].0 != "userRole";
    assert forall j :: 2 <= j < |writes| ==> writes[j].0 != "studentId";
    ApplyWritesLastWins(items, writes, "userRole", 0);
    ApplyWritesLastWins(items, writes, "studentId", 1);
    if profile.Resolved? && profile.response.status == 200 {
      assert writes[2] == ("studentData", codec.stringify(profile.response.data));
      ApplyWritesLastWins(items, writes, "studentData", 2);
    } else {
      ApplyWritesUntouched(items, writes, "studentData");
    }
  }

  /** The sign-in page's state. */
  class Form {
    var formData: Entries
    var loading: bool
    var error: Json
    var rememberMe: bool
    const store: Storage
    const router: Router
    const codec: Codec

    ghost predicate Valid()
      reads this
    {
      HasCredentials(formData)
    }

    constructor(store: Storage, router: Router, codec: Codec)
      ensures Valid() && formData == Blank(Fields) && !loading && error == JStr("") && !rememberMe
      ensures this.store == store && this.router == router && this.codec == codec
    {
      formData := Blank(Fields);
      loading := false;
      error := JStr("");
      rememberMe := false;
      this.store := store;
      this.router := router;
      this.codec := codec;
      BlankHasCredentials();
    }

    /** `handleInputChange`: only the named field takes the new value. */
    method HandleInputChange(name: string, value: string)
      requires Valid()
      modifies this
      ensures Valid() && formData == Set(old(formData), name, value)
      ensures loading == old(loading) && error == old(error) && rememberMe == old(rememberMe)
    {
      SetKeys(formData, name, value);
      formData := Set(formData, name, value);
    }

    /** The "remember me" checkbox. */
    method SetRememberMe(checked: bool)
      modifies this
      ensures rememberMe == checked
      ensures formData == old(formData) && loading == old(loading) && error == old(error)
    {
      rememberMe := checked;
    }

    /** `handleSubmit`, given how each request would end: it does what `Attempt` of the
        form as it stood describes. */
    method HandleSubmit(logins: seq<Outcome>, profile: Outcome) returns (sent: seq<Request>)
      requires Valid() && |logins| == |LoginPaths|
      modifies this, store, router
      ensures Valid() && formData == old(formData) && rememberMe == old(rememberMe)
      ensures var eff := Attempt(old(formData), old(rememberMe), logins, profile, codec);
        && sent == eff.requests && error == eff.error
        && store.items == ApplyWrites(old(store.items), eff.writes)
        && router.visited == old(router.visited) + eff.navigation && router.scheduled == old(router.scheduled)
      ensures loading == if CredentialsError(old(formData)).Some? then old(loading) else false
    {
      error := JStr("");
      var refusal := CredentialsError(formData);
      if refusal.Some? {
        error := JStr(refusal.value);
        return [];
      }
      loading := true;
      var result, posted := Resolve(Post, LoginPaths, JsonBody(Credentials(formData)), logins);
      AttemptPosted(formData, rememberMe, logins, profile, codec, result, posted);
      var more := Settle(result, profile);
      sent := posted + more;
    }

    /** What `handleSubmit` does once the login requests have settled; the message was
        cleared when the submission began. */
    method Settle(result: Outcome, profile: Outcome) returns (sent: seq<Request>)
      requires error == JStr("")
      modifies this, store, router
      ensures var stage := LoginStage(result, rememberMe, profile, codec);
        && sent == stage.requests && error == stage.error
        && store.items == ApplyWrites(old(store.items), stage.writes)
        && router.visited == old(router.visited) + stage.navigation && router.scheduled == old(router.scheduled)
      ensures formData == old(formData) && rememberMe == old(rememberMe) && !loading
    {
      sent := [];
      match result {
        case Rejected(e) =>
          error := FailureMessage(e);
        case Resolved(r) =>
          if r.status == 200 {
            match StudentIdOf(r.data) {
              case Failure(e) =>
                error := FailureMessage(e);
              case Success(id) =>
                sent := [Request(Get, ApiEndpoints.GetById(ApiEndpoints.Student, ToJsString(id)), NoBody)];
                LogIn(ToJsString(id), profile);
            }
          }
      }
      loading := false;
    }

    /** The writes and the navigation after a login that yielded an id whose text is `id`. */
    method LogIn(id: string, profile: Outcome)
      modifies store, router
      ensures store.items == ApplyWrites(old(store.items), LoginWrites(id, rememberMe, profile, codec))
      ensures router.visited == old(router.visited) + [DashboardPath] && router.scheduled == old(router.scheduled)
    {
      ghost var items0 := store.items;
      store.SetItem("userRole", Role);
      store.SetItem("studentId", id);
      ApplyWritesSnoc(items0, [], "userRole", Role);
      ApplyWritesSnoc(items0, [("userRole", Role)], "studentId", id);
      ghost var writes: seq<(string, string)> := [("userRole", Role), ("studentId", id)];
      assert store.items == ApplyWrites(items0, writes);
      if profile.Resolved? && profile.response.status == 200 {
        var data := codec.stringify(profile.response.data);
        store.SetItem("studentData", data);
        ApplyWritesSnoc(items0, writes, "studentData", data);
        writes := writes + [("studentData", data)];
      }
      assert writes == [("userRole", Role), ("studentId", id)] + ProfileWrites(profile, codec);
      if rememberMe {
        store.SetItem(RememberKey, "true");
        ApplyWritesSnoc(items0, writes, RememberKey, "true");
        writes := writes + [(RememberKey, "true")];
      }
      assert writes == LoginWrites(id, rememberMe, profile, codec);
      router.Navigate(DashboardPath);
    }
  }
}
