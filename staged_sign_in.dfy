/** The shape shared by the first student and HOD sign-in components: one login
    request, the id read from one property of the login body, then a profile fetch
    that must succeed before the dashboard opens. `Config` holds what differs. */
module StagedSignIn {
  import opened Wrappers
  import opened JsValue
  import opened Record
  import opened Http
  import opened Browser
  import opened SignIn
  import ApiEndpoints

  /** One component's constants. */
  datatype Config = Config(
    loginUrl: string,
    idKey: string,
    role: string,
    idStorageKey: string,
    entity: ApiEndpoints.Entity,
    dataKey: string,
    rememberKey: string,
    dashboard: string,
    notFoundMessage: string,
    profileErrorMessage: string)

  const UnauthorizedMessage := "Invalid username or password"
  const ForbiddenMessage := "Account is disabled. Please contact administrator."
  const TimeoutMessage := "Request timeout. Please try again."
  const GenericMessage := "Login failed. Please try again."

  /** The message set for a failed login: a truthy body of an unlisted failure is shown
      as it is, whatever its type. */
  function FailureMessage(c: Config, e: HttpError): (m: Json)
    ensures !m.JStr? ==> m == DataOf(e) && Truthy(m)
    ensures c.notFoundMessage != "" ==> Truthy(m)
    ensures e.response.None? ==> m == JStr(if e.aborted then TimeoutMessage else GenericMessage)
    ensures StatusOf(e) !in {Some(401), Some(404), Some(403)} && !e.aborted ==>
      m == (if Truthy(DataOf(e)) then DataOf(e) else JStr(GenericMessage))
  {
    if HasStatus(e, 401) then JStr(UnauthorizedMessage)
    else if HasStatus(e, 404) then JStr(c.notFoundMessage)
    else if HasStatus(e, 403) then JStr(ForbiddenMessage)
    else if e.aborted then JStr(TimeoutMessage)
    else if Truthy(DataOf(e)) then DataOf(e)
    else JStr(GenericMessage)
  }

  /** The chain is tried in order (401, 404, 403, timeout); past all four a truthy body
      is shown as it is, and otherwise the message is one of the fixed texts. */
  lemma FailureShowsBody(c: Config, e: HttpError)
    ensures !HasStatus(e, 401) && !HasStatus(e, 404) && !HasStatus(e, 403) && !e.aborted && Truthy(DataOf(e))
      ==> FailureMessage(c, e) == DataOf(e)
    ensures !(!HasStatus(e, 401) && !HasStatus(e, 404) && !HasStatus(e, 403) && !e.aborted && Truthy(DataOf(e)))
      ==> FailureMessage(c, e) in {JStr(UnauthorizedMessage), JStr(c.notFoundMessage), JStr(ForbiddenMessage),
                                   JStr(TimeoutMessage), JStr(GenericMessage)}
    ensures HasStatus(e, 401) ==> FailureMessage(c, e) == JStr(UnauthorizedMessage)
    ensures HasStatus(e, 404) ==> FailureMessage(c, e) == JStr(c.notFoundMessage)
    ensures HasStatus(e, 403) ==> FailureMessage(c, e) == JStr(ForbiddenMessage)
    ensures e.aborted && StatusOf(e) !in {Some(401), Some(404), Some(403)} ==> FailureMessage(c, e) == JStr(TimeoutMessage)
  {
  }

  /** The role and the id, written as soon as the login succeeded. */
  function IdWrites(c: Config, id: string): seq<(string, string)> {
    [("userRole", c.role), (c.idStorageKey, id)]
  }

  /** The profile fetch for the id whose text is `id`. */
  function ProfileRequest(c: Config, id: string): Request {
    Request(Get, ApiEndpoints.GetById(c.entity, id), NoBody)
  }

  /** What follows the profile fetch for the id whose text is `id`. */
  function ProfileStage(c: Config, id: string, remember: bool, profile: Outcome, codec: Codec): Effect {
    match profile
    case Rejected(e) => Effect([ProfileRequest(c, id)], IdWrites(c, id), [], FailureMessage(c, e))
    case Resolved(p) =>
      if p.status == 200
      then Effect([ProfileRequest(c, id)],
                  IdWrites(c, id) + [(c.dataKey, codec.stringify(p.data))] + RememberWrites(remember, c.rememberKey),
                  [c.dashboard], JStr(""))
      else Effect([ProfileRequest(c, id)], IdWrites(c, id), [], FailureMessage(c, Thrown(c.profileErrorMessage)))
  }

  /** What follows the login request, once it settled with `login`. `String(id)` is used
      both for the store and for the URL, so a missing id becomes "undefined". */
  function LoginStage(c: Config, login: Outcome, remember: bool, profile: Outcome, codec: Codec): Effect {
    match login
    case Rejected(e) => Effect([], [], [], FailureMessage(c, e))
    case Resolved(r) =>
      if r.status != 200 then Effect([], [], [], JStr(""))
      else match JsValue.Get(r.data, c.idKey)
        case None => Effect([], [], [], FailureMessage(c, TypeError))
        case Some(id) => ProfileStage(c, ToJsString(id), remember, profile, codec)
  }

  /** One submission of `form`: `login` and `profile` are how the two requests would end. */
  function Attempt(c: Config, form: Entries, remember: bool, login: Outcome, profile: Outcome, codec: Codec): Effect
    requires HasCredentials(form)
  {
    match CredentialsError(form)
    case Some(m) => Refusal(m)
    case None =>
      var stage := LoginStage(c, login, remember, profile, codec);
      Effect([Request(Post, c.loginUrl, JsonBody(Credentials(form)))] + stage.requests,
             stage.writes, stage.navigation, stage.error)
  }

  /** The dashboard opens exactly when the form is accepted, the login answers 200 with a
      readable body, and the profile fetch answers 200; the profile is then stored. */
  lemma NavigatesOnlyWithProfile(c: Config, form: Entries, remember: bool, login: Outcome, profile: Outcome, codec: Codec)
    requires HasCredentials(form)
    ensures var eff := Attempt(c, form, remember, login, profile, codec);
      && (eff.navigation != [] <==>
            && CredentialsError(form).None?
            && login.Resolved? && login.response.status == 200
            && JsValue.Get(login.response.data, c.idKey).Some?
            && profile.Resolved? && profile.response.status == 200)
      && (eff.navigation != [] ==>
            && eff.navigation == [c.dashboard] && eff.error == JStr("")
            && eff.writes[2] == (c.dataKey, codec.stringify(profile.response.data)))
  {
  }

  /** A failed profile fetch after a successful login leaves the role and the id in the
      store, opens no page, and shows an error. */
  lemma HalfSignedIn(c: Config, form: Entries, remember: bool, login: Outcome, profile: Outcome, codec: Codec)
    requires HasCredentials(form) && CredentialsError(form).None? && c.notFoundMessage != ""
    requires login.Resolved? && login.response.status == 200
    requires JsValue.Get(login.response.data, c.idKey).Some?
    requires !(profile.Resolved? && profile.response.status == 200)
    ensures var eff := Attempt(c, form, remember, login, profile, codec);
      && eff.writes == IdWrites(c, ToJsString(JsValue.Get(login.response.data, c.idKey).value))
      && eff.navigation == [] && Truthy(eff.error)
  {
  }

  /** A login body that is an object without the id property gives the id "undefined":
      that text is stored and requested. */
  lemma MissingIdBecomesUndefined(c: Config, props: map<string, Json>, remember: bool, profile: Outcome, codec: Codec)
    requires c.idKey !in props
    ensures LoginStage(c, Resolved(Response(200, JObj(props))), remember, profile, codec)
      == ProfileStage(c, "undefined", remember, profile, codec)
  {
  }

  /** The submission of an accepted form: the login request, then what follows it. */
  lemma AttemptAccepted(c: Config, form: Entries, remember: bool, login: Outcome, profile: Outcome, codec: Codec)
    requires HasCredentials(form) && CredentialsError(form).None?
    ensures var stage := LoginStage(c, login, remember, profile, codec);
      Attempt(c, form, remember, login, profile, codec)
        == Effect([Request(Post, c.loginUrl, JsonBody(Credentials(form)))] + stage.requests,
                  stage.writes, stage.navigation, stage.error)
  {
  }

  /** The sign-in page's state. */
  class Form {
    const config: Config
    const store: Storage
    const router: Router
    const codec: Codec
    var formData: Entries
    var loading: bool
    var error: Json
    var rememberMe: bool

    ghost predicate Valid()
      reads this
    {
      HasCredentials(formData)
    }

    constructor(config: Config, store: Storage, router: Router, codec: Codec)
      ensures Valid() && formData == Blank(Fields) && !loading && error == JStr("") && !rememberMe
      ensures this.config == config && this.store == store && this.router == router && this.codec == codec
    {
      this.config := config;
      this.store := store;
      this.router := router;
      this.codec := codec;
      formData := Blank(Fields);
      loading := false;
      error := JStr("");
      rememberMe := false;
      BlankHasCredentials();
    }

    /** `handleInputChange`: only the named field takes the new value. */
    method HandleInputChange(name: string, value: string)
      requires Valid()
      modifies this
      ensures Valid() && formData == Set(old(formData), name, value)
      ensures loading == old(loading) && error == old(error) && rememberMe == old(rememberMe)
    {
      SetKeys(formData, name, value);
      formData := Set(formData, name, value);
    }

    /** The "remember me" checkbox. */
    method SetRememberMe(checked: bool)
      modifies this
      ensures rememberMe == checked
      ensures formData == old(formData) && loading == old(loading) && error == old(error)
    {
      rememberMe := checked;
    }

    /** `handleSubmit`, given how the login request and the profile fetch would end: it
        does what `Attempt` of the form as it stood describes. */
    method HandleSubmit(login: Outcome, profile: Outcome) returns (sent: seq<Request>)
      requires Valid()
      modifies this, store, router
      ensures Valid() && formData == old(formData) && rememberMe == old(rememberMe)
      ensures var eff := Attempt(config, old(formData), old(rememberMe), login, profile, codec);
        && sent == eff.requests && error == eff.error
        && store.items == ApplyWrites(old(store.items), eff.writes)
        && router.visited == old(router.visited) + eff.navigation && router.scheduled == old(router.scheduled)
      ensures loading == if CredentialsError(old(formData)).Some? then old(loading) else false
    {
      error := JStr("");
      var refusal := CredentialsError(formData);
      if refusal.Some? {
        error := JStr(refusal.value);
        return [];
      }
      loading := true;
      AttemptAccepted(config, formData, rememberMe, login, profile, codec);
      var more := Settle(login, profile);
      sent := [Request(Post, config.loginUrl, JsonBody(Credentials(formData)))] + more;
    }

    /** What `handleSubmit` does once the login request has settled. */
    method Settle(login: Outcome, profile: Outcome) returns (sent: seq<Request>)
      requires error == JStr("")
      modifies this, store, router
      ensures var stage := LoginStage(config, login, rememberMe, profile, codec);
        && sent == stage.requests && error == stage.error
        && store.items == ApplyWrites(old(store.items), stage.writes)
        && router.visited == old(router.visited) + stage.navigation && router.scheduled == old(router.scheduled)
      ensures formData == old(formData) && rememberMe == old(rememberMe) && !loading
    {
      sent := [];
      match login {
        case Rejected(e) =>
          error := FailureMessage(config, e);
        case Resolved(r) =>
          if r.status == 200 {
            match JsValue.Get(r.data, config.idKey) {
              case None =>
                error := FailureMessage(config, TypeError);
              case Some(id) =>
                sent := FetchProfile(ToJsString(id), profile);
            }
          }
      }
      loading := false;
    }

    /** The writes, the profile fetch and what follows it, for the id whose text is `id`. */
    method FetchProfile(id: string, profile: Outcome) returns (sent: seq<Request>)
      requires error == JStr("")
      modifies this, store, router
      ensures var stage := ProfileStage(config, id, rememberMe, profile, codec);
        && sent == stage.requests && error == stage.error
        && store.items == ApplyWrites(old(store.items), stage.writes)
        && router.visited == old(router.visited) + stage.navigation && router.scheduled == old(router.scheduled)
      ensures formData == old(formData) && rememberMe == old(rememberMe) && loading == old(loading)
    {
      ghost var items0 := store.items;
      store.SetItem("userRole", config.role);
      store.SetItem(config.idStorageKey, id);
      ApplyWritesSnoc(items0, [], "userRole", config.role);
      ApplyWritesSnoc(items0, [("userRole", config.role)], config.idStorageKey, id);
      assert store.items == ApplyWrites(items0, IdWrites(config, id));
      sent := [ProfileRequest(config, id)];
      match profile {
        case Rejected(e) =>
          error := FailureMessage(config, e);
        case Resolved(p) =>
          if p.status == 200 {
            var data := codec.stringify(p.data);
            store.SetItem(config.dataKey, data);
            ApplyWritesSnoc(items0, IdWrites(config, id), config.dataKey, data);
            ghost var writes := IdWrites(config, id) + [(config.dataKey, data)];
            if rememberMe {
              store.SetItem(config.rememberKey, "true");
              ApplyWritesSnoc(items0, writes, config.rememberKey, "true");
              writes := writes + [(config.rememberKey, "true")];
            }
            assert writes == IdWrites(config, id) + [(config.dataKey, data)] + RememberWrites(rememberMe, config.rememberKey);
            router.Navigate(config.dashboard);
          } else {
            error := FailureMessage(config, Thrown(config.profileErrorMessage));
          }
      }
    }
  }
}
