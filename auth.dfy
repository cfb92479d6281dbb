/**
 * The session provider: the signed-in user and bearer token, kept in memory and
 * in two local-storage keys; the start-up restore, `login`, `logout`, and the
 * `useAuth` guard. Router navigation and API calls are recorded in a trace.
 */
module Auth {
  import opened Wrappers
  import opened Json
  import opened Effects
  import Api

  const TokenKey: string := Api.TokenKey
  const UserKey: string := "auth_user"

  /** The signed-in user as the API describes it. */
  datatype User = User(userId: string, firstNames: string, lastNames: string, role: string,
                       email: Option<string>, phone: Option<string>)

  // ---------------------------------------------------------------------------
  // The stored form of a user
  // ---------------------------------------------------------------------------

  function OptionalMember(key: string, v: Option<string>): seq<Member> {
    if v.Some? then [Member(key, JStr(v.value))] else []
  }

  /** The user as a JSON object; `JSON.stringify` drops absent optional fields. */
  function UserMembers(u: User): (ms: seq<Member>)
    ensures IsFlat(ms) && DistinctKeys(ms)
  {
    RequiredMembers(u) + (OptionalMember("email", u.email) + OptionalMember("phone", u.phone))
  }

  function RequiredMembers(u: User): seq<Member> {
    [Member("user_id", JStr(u.userId)), Member("first_names", JStr(u.firstNames)),
     Member("last_names", JStr(u.lastNames)), Member("role", JStr(u.role))]
  }

  function StringField(ms: seq<Member>, key: string): Option<string> {
    var v := Lookup(ms, key);
    if v.Some? && v.value.JStr? then Some(v.value.s) else None
  }

  /** Reads a user back from a JSON object; `None` when a required field is missing. */
  function UserFromMembers(ms: seq<Member>): Option<User> {
    var id, first, last, role := StringField(ms, "user_id"), StringField(ms, "first_names"),
                                 StringField(ms, "last_names"), StringField(ms, "role");
    if id.Some? && first.Some? && last.Some? && role.Some?
    then Some(User(id.value, first.value, last.value, role.value,
                   StringField(ms, "email"), StringField(ms, "phone")))
    else None
  }

  /** `JSON.stringify(user)`. */
  function SerializeUser(u: User): string {
    Stringify(JObj(UserMembers(u)))
  }

  /** `JSON.parse(stored)` read as a user. */
  function ParseUser(s: string): Option<User> {
    match ParseFlatObject(s)
    case None => None
    case Some(ms) => UserFromMembers(ms)
  }

  /** The stored form of a user reads back as that user. */
  lemma UserRoundTrip(u: User)
    ensures ParseUser(SerializeUser(u)) == Some(u)
  {
    FlatObjectRoundTrip(UserMembers(u));
    UserMembersRead(u);
  }

  lemma UserMembersRead(u: User)
    ensures UserFromMembers(UserMembers(u)) == Some(u)
  {
    var ms := UserMembers(u);
    LookupAt(ms, 0, "user_id");
    LookupAt(ms, 1, "first_names");
    LookupAt(ms, 2, "last_names");
    LookupAt(ms, 3, "role");
    OptionalMembersRead(u.email, u.phone);
    var rest := OptionalMember("email", u.email) + OptionalMember("phone", u.phone);
    LookupPastRequired(u, rest, "email");
    LookupPastRequired(u, rest, "phone");
  }

  lemma LookupPastRequired(u: User, rest: seq<Member>, key: string)
    requires key == "email" || key == "phone"
    ensures Lookup(RequiredMembers(u) + rest, key) == Lookup(rest, key)
  {
    LookupPastHead(RequiredMembers(u), rest, key);
  }

  lemma OptionalMembersRead(email: Option<string>, phone: Option<string>)
    ensures var rest := OptionalMember("email", email) + OptionalMember("phone", phone);
            StringField(rest, "email") == email && StringField(rest, "phone") == phone
  {
    var e, p := OptionalMember("email", email), OptionalMember("phone", phone);
    LookupPastHead(e, p, "phone");
    if email.None? {
      assert e + p == p;
    }
  }

  // ---------------------------------------------------------------------------
  // The two-key store
  // ---------------------------------------------------------------------------

  type Store = map<string, string>

  /** What the start-up effect finds: both keys present and non-empty (an empty
      string is falsy), or nothing. */
  function Restored(store: Store): (r: Option<(string, string)>)
    ensures r.Some? <==> TokenKey in store && UserKey in store && store[TokenKey] != "" && store[UserKey] != ""
    ensures r.Some? ==> r.value == (store[TokenKey], store[UserKey])
  {
    if TokenKey in store && UserKey in store && store[TokenKey] != "" && store[UserKey] != ""
    then Some((store[TokenKey], store[UserKey]))
    else None
  }

  function StoreAfterLogin(store: Store, token: string, user: User): Store {
    store[TokenKey := token][UserKey := SerializeUser(user)]
  }

  function StoreAfterLogout(store: Store): Store {
    store - {TokenKey, UserKey}
  }

  /** Logging in writes the two keys and leaves every other key as it was. */
  lemma LoginStore(store: Store, token: string, user: User)
    ensures var s := StoreAfterLogin(store, token, user);
            s.Keys == store.Keys + {TokenKey, UserKey}
            && s[TokenKey] == token && s[UserKey] == SerializeUser(user)
            && forall k :: k in store && k != TokenKey && k != UserKey ==> s[k] == store[k]
  {
  }

  /** Logging out removes exactly the two keys. */
  lemma LogoutStore(store: Store)
    ensures var s := StoreAfterLogout(store);
            s.Keys == store.Keys - {TokenKey, UserKey}
            && forall k :: k in s ==> s[k] == store[k]
  {
  }

  /** After a logout a fresh start-up restores nothing. */
  lemma LogoutThenRestartRestoresNothing(store: Store)
    ensures Restored(StoreAfterLogout(store)) == None
  {
  }

  /** After a login with a non-empty token a fresh start-up restores that token and
      that user; with an empty token it restores nothing. */
  lemma LoginThenRestartRestoresSession(store: Store, token: string, user: User)
    ensures token != "" ==>
      var r := Restored(StoreAfterLogin(store, token, user));
      r == Some((token, SerializeUser(user))) && ParseUser(r.value.1) == Some(user)
    ensures token == "" ==> Restored(StoreAfterLogin(store, token, user)) == None
  {
    UserRoundTrip(user);
    assert SerializeUser(user) != "" by {
      assert SerializeUser(user)[0] == '{';
    }
  }

  // ---------------------------------------------------------------------------
  // The provider
  // ---------------------------------------------------------------------------

  /** What `api.login` resolves to. */
  datatype LoginResponse = LoginResponse(token: string, user: User)

  class AuthProvider {
    var storage: Store
    var user: Option<User>
    var token: Option<string>
    var isLoading: bool
    var trace: seq<Event>
    const configuredBase: Option<string>

    /** The client environment the API client sees right now. */
    function Env(): Api.Env
      reads this
    {
      Api.Env(true, storage, configuredBase)
    }

    /** The provider as first rendered: no user, no token, loading. */
    constructor (storage: Store, configuredBase: Option<string>)
      ensures this.storage == storage && this.configuredBase == configuredBase
      ensures user == None && token == None && isLoading && trace == []
    {
      this.storage := storage;
      this.configuredBase := configuredBase;
      user := None;
      token := None;
      isLoading := true;
      trace := [];
    }

    /** The mount effect. Both keys present: the token is set, then the stored user
        is parsed; a user that does not parse makes the effect throw (`crashed`),
        before the user is set and before loading ends. */
    method RestoreSession() returns (crashed: bool)
      modifies this`user, this`token, this`isLoading
      ensures Restored(storage).None? ==>
        !crashed && user == old(user) && token == old(token) && !isLoading
      ensures Restored(storage).Some? && ParseUser(Restored(storage).value.1).Some? ==>
        !crashed && token == Some(Restored(storage).value.0)
        && user == ParseUser(Restored(storage).value.1) && !isLoading
      ensures Restored(storage).Some? && ParseUser(Restored(storage).value.1).None? ==>
        crashed && token == Some(Restored(storage).value.0) && user == old(user) && isLoading == old(isLoading)
    {
      crashed := false;
      var found := Restored(storage);
      if found.Some? {
        var (storedToken, storedUser) := found.value;
        token := Some(storedToken);
        var parsed := ParseUser(storedUser);
        if parsed.None? {
          crashed := true;
          return;
        }
        user := parsed;
      }
      isLoading := false;
    }

    /** `login(id, password)`: the login call; on success both keys are stored and
        set in memory, then `getUser` runs (through the API client, which needs the
        token just stored) and only then the router goes to `/dashboard`. Any
        failure is returned as the rethrown error. */
    method Login(id: string, password: string, response: Result<LoginResponse, string>,
                 userFetch: Api.FetchResult) returns (error: Option<string>)
      modifies this`storage, this`user, this`token, this`trace
      ensures response.Err? ==>
        error == Some(response.error) && storage == old(storage) && user == old(user)
        && token == old(token) && trace == old(trace) + [Called(Api.Login(id, password))]
      ensures response.Ok? ==>
        storage == StoreAfterLogin(old(storage), response.value.token, response.value.user)
        && token == Some(response.value.token) && user == Some(response.value.user)
      ensures response.Ok? ==>
        var details := Api.Invoke(Api.GetUser(id), Env(), userFetch).outcome;
        var calls := [Called(Api.Login(id, password)), Called(Api.GetUser(id))];
        (details.Err? ==> error == Some(details.error) && trace == old(trace) + calls)
        && (details.Ok? ==> error == None && trace == old(trace) + calls + [Navigated("/dashboard")])
    {
      trace := trace + [Called(Api.Login(id, password))];
      if response.Err? {
        return Some(response.error);
      }
      var r := response.value;
      storage := storage[TokenKey := r.token];
      storage := storage[UserKey := SerializeUser(r.user)];
      token := Some(r.token);
      user := Some(r.user);
      trace := trace + [Called(Api.GetUser(id))];
      var details := Api.Invoke(Api.GetUser(id), Env(), userFetch).outcome;
      if details.Err? {
        return Some(details.error);
      }
      trace := trace + [Navigated("/dashboard")];
      error := None;
    }

    /** `logout()`: the logout call is fired and its outcome ignored (the client
        reads the token when the call starts, before the keys go); both keys are
        removed, token and user cleared, and the router goes to `/login`. */
    method Logout()
      modifies this`storage, this`user, this`token, this`trace
      ensures storage == StoreAfterLogout(old(storage))
      ensures user == None && token == None
      ensures trace == old(trace) + [Called(Api.Logout), Navigated("/login")]
    {
      trace := trace + [Called(Api.Logout)];
      storage := storage - {TokenKey};
      storage := storage - {UserKey};
      token := None;
      user := None;
      trace := trace + [Navigated("/login")];
    }
  }

  /** A login whose response token is empty stores it, but the follow-up `getUser`
      is refused by the API client before any request, so the login fails. */
  lemma EmptyTokenFailsAfterStoring(store: Store, id: string, user: User, base: Option<string>,
                                    fetch: Api.FetchResult)
    ensures var env := Api.Env(true, StoreAfterLogin(store, "", user), base);
            Api.Invoke(Api.GetUser(id), env, fetch) == Api.Exchange(None, Err(Api.MissingTokenMessage))
  {
  }

  const OutsideProviderMessage: string := "useAuth debe ser usado dentro de un AuthProvider"

  /** `useAuth()`: the provider's context, or an error outside any provider. */
  function UseAuth(provider: AuthProvider?): (r: Result<AuthProvider, string>)
    ensures provider == null <==> r == Err(OutsideProviderMessage)
    ensures r.Ok? ==> r.value == provider
  {
    if provider == null then Err(OutsideProviderMessage) else Ok(provider as AuthProvider)
  }
}
