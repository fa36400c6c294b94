/** The session hook: the signed-in user is kept in storage under `userRole` and a
    role-scoped `<role>Data` entry, restored from there on start-up and wiped on logout. */
module UseAuth {
  import opened Wrappers
  import opened JsValue
  import opened Browser

  const RoleKey := "userRole"
  const HomePath := "/"

  /** The key under which a role's profile is saved. */
  function DataKey(role: string): (k: string)
    ensures |k| == |role| + 4 && k[..|role|] == role && k[|role|..] == "Data"
  {
    role + "Data"
  }

  /** The hook's user: the profile's fields picked out under fixed names. */
  datatype User = User(id: Json, name: Json, email: Json, role: string, imageUrl: Json)

  /** The user built from a saved or freshly received profile: the id is the first truthy
      of `id`, `studentId` and `professorId`, the name is `name` or else `studName`.
      Reading a field of `null` or `undefined` throws, given here as `None`. */
  function UserOf(data: Json, role: string): (u: Option<User>)
    ensures u.None? <==> data.JNull? || data.JUndefined?
    ensures u.Some? ==>
      (u.value.role == role && u.value.email == GetOptional(data, "email")
       && u.value.imageUrl == GetOptional(data, "imageUrl"))
  {
    if data.JNull? || data.JUndefined? then None
    else
      Some(User(Or(Or(GetOptional(data, "id"), GetOptional(data, "studentId")), GetOptional(data, "professorId")),
                Or(GetOptional(data, "name"), GetOptional(data, "studName")),
                GetOptional(data, "email"), role, GetOptional(data, "imageUrl")))
  }

  /** The id is always one of the three id fields, the first truthy one when there is one,
      and it is truthy exactly when one of them is; the name likewise from `name` and
      `studName`. */
  lemma UserFieldPrecedence(data: Json, role: string)
    requires !data.JNull? && !data.JUndefined?
    ensures var id := UserOf(data, role).value.id;
      && id in {GetOptional(data, "id"), GetOptional(data, "studentId"), GetOptional(data, "professorId")}
      && (Truthy(id) <==> Truthy(GetOptional(data, "id")) || Truthy(GetOptional(data, "studentId"))
                          || Truthy(GetOptional(data, "professorId")))
      && (Truthy(GetOptional(data, "id")) ==> id == GetOptional(data, "id"))
      && (!Truthy(GetOptional(data, "id")) && Truthy(GetOptional(data, "studentId")) ==> id == GetOptional(data, "studentId"))
      && (!Truthy(GetOptional(data, "id")) && !Truthy(GetOptional(data, "studentId")) ==> id == GetOptional(data, "professorId"))
    ensures var name := UserOf(data, role).value.name;
      && name in {GetOptional(data, "name"), GetOptional(data, "studName")}
      && (Truthy(name) <==> Truthy(GetOptional(data, "name")) || Truthy(GetOptional(data, "studName")))
      && (Truthy(GetOptional(data, "name")) ==> name == GetOptional(data, "name"))
  {
  }

  /** What `checkAuthStatus` finds in a store. */
  datatype Status =
    | NoRole              // no (or an empty) `userRole`: nothing to restore
    | NoData              // a role, but no (or an empty) profile entry for it
    | Found(user: User)   // the saved profile, normalised
    | Corrupt             // the profile does not parse, or parses to `null`

  /** `checkAuthStatus`'s reading of the store through `codec`. */
  function Restore(items: map<string, string>, codec: Codec): (s: Status)
    ensures s.NoRole? <==> RoleKey !in items || items[RoleKey] == ""
    ensures s.Found? ==> s.user.role == items[RoleKey]
  {
    if RoleKey !in items || items[RoleKey] == "" then NoRole
    else
      var role := items[RoleKey];
      var key := DataKey(role);
      if key !in items || items[key] == "" then NoData
      else
        match codec.parse(items[key])
        case None => Corrupt
        case Some(v) =>
          match UserOf(v, role)
          case None => Corrupt
          case Some(u) => Found(u)
  }

  /** Distinct roles keep their profiles under distinct keys. */
  lemma DataKeyInjective(r1: string, r2: string)
    ensures DataKey(r1) == DataKey(r2) ==> r1 == r2
  {
    if DataKey(r1) == DataKey(r2) {
      assert r1 == DataKey(r1)[..|r1|] && r2 == DataKey(r2)[..|r2|];
    }
  }

  /** The profile key of a role is never the role key itself. */
  lemma DataKeyIsNotRoleKey(role: string)
    ensures DataKey(role) != RoleKey
  {
  }

  /** The store after `login(data, role)`: the two keys set, every other key as it was. */
  function LoggedIn(items: map<string, string>, data: Json, role: string, codec: Codec): map<string, string> {
    items[RoleKey := role][DataKey(role) := codec.stringify(data)]
  }

  /** Logging in and then starting up again restores the same user, provided the codec
      reads back what it writes, the profile holds no `undefined`, and the role is not empty. */
  lemma LoginThenRestore(items: map<string, string>, data: Json, role: string, codec: Codec)
    requires RoundTrips(codec) && JsonSafe(data) && role != ""
    requires codec.stringify(data) != ""
    ensures Restore(LoggedIn(items, data, role, codec), codec)
      == (if UserOf(data, role).Some? then Found(UserOf(data, role).value) else Corrupt)
  {
    DataKeyIsNotRoleKey(role);
    assert codec.parse(codec.stringify(data)) == Some(data);
  }

  /** Logging in touches only the role key and that role's profile key. */
  lemma LoginTouchesTwoKeys(items: map<string, string>, data: Json, role: string, codec: Codec, key: string)
    requires key != RoleKey && key != DataKey(role)
    ensures key in LoggedIn(items, data, role, codec) <==> key in items
    ensures key in items ==> LoggedIn(items, data, role, codec)[key] == items[key]
  {
  }

  /** After a logout the store is empty, so nothing is restored. */
  lemma NothingAfterLogout(codec: Codec)
    ensures Restore(map[], codec) == NoRole
  {
  }

  /** The hook's state. `loading` starts true and is cleared by the first check. */
  class Auth {
    var user: Option<User>
    var loading: bool
    const store: Storage
    const router: Router
    const codec: Codec

    constructor(store: Storage, router: Router, codec: Codec)
      ensures user == None && loading
      ensures this.store == store && this.router == router && this.codec == codec
    {
      user := None;
      loading := true;
      this.store := store;
      this.router := router;
      this.codec := codec;
    }

    /** `isAuthenticated`: a signed-in user holds the role they were restored or logged in
        with, and nobody signed out holds any role. */
    predicate IsAuthenticated()
      reads this
      ensures IsAuthenticated() <==> user.Some? && HasRole(user.value.role)
      ensures !IsAuthenticated() ==> forall r :: !HasRole(r)
    {
      user.Some?
    }

    /** `hasRole(requiredRole)`: the comparison is exact, so a role holds only for the
        signed-in user's own role string. */
    predicate HasRole(requiredRole: string)
      reads this
      ensures HasRole(requiredRole) ==> user.Some? && requiredRole == user.value.role
    {
      user.Some? && user.value.role == requiredRole
    }

    /** Only a signed-in user has a role, and only one. */
    lemma HasRoleOnlyWhenAuthenticated(r1: string, r2: string)
      ensures HasRole(r1) ==> IsAuthenticated()
      ensures HasRole(r1) && HasRole(r2) ==> r1 == r2
    {
    }

    /** `logout`: the whole store is cleared, the user forgotten, and home visited. */
    method Logout()
      modifies this, store, router
      ensures store.items == map[] && user == None && loading == old(loading)
      ensures router.visited == old(router.visited) + [HomePath] && router.scheduled == old(router.scheduled)
    {
      store.Clear();
      user := None;
      router.Navigate(HomePath);
    }

    /** `checkAuthStatus`: restores the saved user; a profile that does not parse logs out.
        Without a role or a profile the user is left as it was. `loading` is false on
        every path. */
    method CheckAuthStatus()
      modifies this, store, router
      ensures !loading && router.scheduled == old(router.scheduled)
      ensures match Restore(old(store.items), codec)
        case NoRole => user == old(user) && store.items == old(store.items) && router.visited == old(router.visited)
        case NoData => user == old(user) && store.items == old(store.items) && router.visited == old(router.visited)
        case Found(u) => user == Some(u) && store.items == old(store.items) && router.visited == old(router.visited)
        case Corrupt => user == None && store.items == map[] && router.visited == old(router.visited) + [HomePath]
    {
      var userRole := store.GetItem(RoleKey);
      if userRole.None? || userRole.value == "" {
        loading := false;
        return;
      }
      var userData := store.GetItem(DataKey(userRole.value));
      if userData.Some? && userData.value != "" {
        var parsed := codec.parse(userData.value);
        if parsed.None? {
          Logout();
        } else {
          var u := UserOf(parsed.value, userRole.value);
          if u.None? {
            Logout();
          } else {
            user := u;
          }
        }
      }
      loading := false;
    }

    /** `login(userData, role)`: both keys are written first; reading the fields of a
        `null` or `undefined` profile then throws (`thrown`), leaving the user as it was. */
    method Login(data: Json, role: string) returns (thrown: bool)
      modifies this, store
      ensures store.items == LoggedIn(old(store.items), data, role, codec)
      ensures thrown <==> UserOf(data, role).None?
      ensures !thrown ==> user == UserOf(data, role) && HasRole(role)
      ensures thrown ==> user == old(user)
      ensures loading == old(loading)
    {
      store.SetItem(RoleKey, role);
      store.SetItem(DataKey(role), codec.stringify(data));
      var u := UserOf(data, role);
      if u.None? {
        return true;
      }
      user := u;
      return false;
    }
  }
}
