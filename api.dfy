/**
 * The HTTP client of the front end: the endpoint table of `api`, header
 * construction with the bearer token, request composition, and the choice of
 * error message for a response that is not OK. `fetch` is an abstract result.
 */
module Api {
  import opened Wrappers
  import opened Builtins
  import opened Json

  const DefaultBase: string := "http://172.25.153.38:8080/api/v1"

  /** The local-storage key under which the session keeps the bearer token. */
  const TokenKey: string := "auth_token"

  const MissingTokenMessage: string := "No authentication token found"

  type Headers = map<string, string>

  /** What the client can see of its surroundings: whether it runs in a browser
      (on the server there is no local storage), the browser's local storage, and
      the configured `NEXT_PUBLIC_API_BASE`. */
  datatype Env = Env(inBrowser: bool, storage: map<string, string>, configuredBase: Option<string>)

  /** `API_BASE`: the configured base, unless it is unset or empty. */
  function ApiBase(configured: Option<string>): (r: string)
    ensures configured.Some? && configured.value != "" ==> r == configured.value
    ensures configured.None? || configured.value == "" ==> r == DefaultBase
  {
    if configured.Some? && configured.value != "" then configured.value else DefaultBase
  }

  /** `getToken()`: the stored token, or nothing outside a browser. */
  function GetToken(env: Env): (r: Option<string>)
    ensures r.Some? <==> env.inBrowser && TokenKey in env.storage
    ensures r.Some? ==> r.value == env.storage[TokenKey]
  {
    if !env.inBrowser then None
    else if TokenKey in env.storage then Some(env.storage[TokenKey])
    else None
  }

  /** `buildHeaders(includeAuth)`: always the JSON content type; with `includeAuth`
      also the bearer token, and an error when there is no (non-empty) token. */
  function BuildHeaders(includeAuth: bool, token: Option<string>): (r: Result<Headers, string>)
    ensures !includeAuth ==> r == Ok(map["Content-Type" := "application/json"])
    ensures includeAuth ==> (r.Err? <==> token.None? || token.value == "")
    ensures r.Err? ==> r.error == MissingTokenMessage
    ensures includeAuth && r.Ok? ==>
      r.value == map["Content-Type" := "application/json", "Authorization" := "Bearer " + token.value]
  {
    var headers := map["Content-Type" := "application/json"];
    if !includeAuth then Ok(headers)
    else if token.None? || token.value == "" then Err(MissingTokenMessage)
    else Ok(headers["Authorization" := "Bearer " + token.value])
  }

  // ---------------------------------------------------------------------------
  // Requests and responses
  // ---------------------------------------------------------------------------

  datatype HttpMethod = GET | POST | PUT

  /** The `RequestInit` a caller passes to `apiCall`; `None` is an absent member. */
  datatype Options = Options(verb: Option<HttpMethod>, body: Option<string>, headers: Headers)

  datatype Request = Request(url: string, verb: HttpMethod, headers: Headers, body: Option<string>)

  /** The request `apiCall` hands to `fetch`: the base URL followed by the endpoint,
      the caller's options, and the default headers overridden by the caller's. */
  function Compose(endpoint: string, options: Options, includeAuth: bool, env: Env): (r: Result<Request, string>)
    ensures r.Err? <==> BuildHeaders(includeAuth, GetToken(env)).Err?
    ensures r.Err? ==> r.error == MissingTokenMessage
    ensures r.Ok? ==> r.value.url == ApiBase(env.configuredBase) + endpoint
    ensures r.Ok? ==> r.value.body == options.body
    ensures r.Ok? ==> forall h :: h in options.headers ==> h in r.value.headers && r.value.headers[h] == options.headers[h]
    ensures r.Ok? ==> forall h :: h in BuildHeaders(includeAuth, GetToken(env)).value && h !in options.headers ==>
      h in r.value.headers && r.value.headers[h] == BuildHeaders(includeAuth, GetToken(env)).value[h]
  {
    match BuildHeaders(includeAuth, GetToken(env))
    case Err(e) => Err(e)
    case Ok(defaults) =>
      var verb := if options.verb.Some? then options.verb.value else GET;
      Ok(Request(ApiBase(env.configuredBase) + endpoint, verb, defaults + options.headers, options.body))
  }

  /** The parsed JSON body of a response, or the `SyntaxError` message of a body that
      does not parse. */
  datatype Body = Parsed(json: Json) | Malformed(syntaxError: string)

  /** What `fetch` resolves to, or the message it rejects with. */
  datatype FetchResult =
    | Responded(ok: bool, status: int, body: Body)
    | NetworkFailure(message: string)

  /** The message of the error thrown for a response that is not OK: the body's
      `message` when it parses and is truthy, else `HTTP <status>`. */
  function ErrorMessage(status: int, body: Body): string {
    var fallback := "HTTP " + IntToString(status);
    if body.Parsed? then
      var m := Get(body.json, "message");
      if m.Some? && Truthy(m.value) then ToText(m.value) else fallback
    else fallback
  }

  /** The message is the body's `message` exactly when that parses and is truthy. */
  lemma ErrorMessageChoice(status: int, body: Body)
    ensures var m := if body.Parsed? then Get(body.json, "message") else None;
            if m.Some? && Truthy(m.value)
            then ErrorMessage(status, body) == ToText(m.value)
            else ErrorMessage(status, body) == "HTTP " + IntToString(status)
  {
  }

  /** A body whose `message` is a non-empty string is shown as that string. */
  lemma ServerMessageShown(status: int, members: seq<Member>, text: string)
    requires text != "" && Lookup(members, "message") == Some(JStr(text))
    ensures ErrorMessage(status, Parsed(JObj(members))) == text
  {
  }

  /** Without a usable message two different statuses give two different messages. */
  lemma StatusMessagesDistinct(s1: int, s2: int, b1: Body, b2: Body)
    requires b1.Malformed? && b2.Malformed? && s1 != s2
    ensures ErrorMessage(s1, b1) != ErrorMessage(s2, b2)
  {
    if ErrorMessage(s1, b1) == ErrorMessage(s2, b2) {
      assert "HTTP " + IntToString(s1) == "HTTP " + IntToString(s2);
      assert IntToString(s1) == ("HTTP " + IntToString(s1))[5..];
      assert IntToString(s2) == ("HTTP " + IntToString(s2))[5..];
      IntToStringInjective(s1, s2);
    }
  }

  /** What `apiCall` resolves to once the request was sent. */
  function Outcome(result: FetchResult): (r: Result<Json, string>)
    ensures result.NetworkFailure? ==> r == Err(result.message)
    ensures result.Responded? && !result.ok ==> r == Err(ErrorMessage(result.status, result.body))
    ensures result.Responded? && result.ok ==>
      r == (if result.body.Parsed? then Ok(result.body.json) else Err(result.body.syntaxError))
  {
    match result
    case NetworkFailure(m) => Err(m)
    case Responded(ok, status, body) =>
      if !ok then Err(ErrorMessage(status, body))
      else if body.Parsed? then Ok(body.json)
      else Err(body.syntaxError)
  }

  // ---------------------------------------------------------------------------
  // The endpoint table
  // ---------------------------------------------------------------------------

  datatype Endpoint =
    | Login(loginId: string, password: string)
    | Recover(email: string)
    | ResetPassword(resetToken: string, newPassword: string)
    | VerifyEmail(verifyToken: string)
    | Logout
    | ChangePassword(oldPassword: string, changedPassword: string)
    | RegisterStudent(data: Json)
    | RegisterTutor(data: Json)
    | RegisterAdmin(data: Json)
    | RegisterChecker(data: Json)
    | GetUsers
    | GetUser(id: string)
    | CreateUser(data: Json)
    | UpdateUser(id: string, data: Json)
    | GetStudents
    | GetStudent(id: string)
    | GetTutors
    | GetTutor(id: string)
    | GetAdmins
    | GetAdmin(id: string)
    | GetCheckers
    | GetChecker(id: string)
    | GetTutorias
    | GetTutoria(num: int)
    | CreateTutoria(data: Json)
    | UpdateTutoria(num: int, data: Json)
    | GetConstancia(num: int)
    | GetCronogramas
    | GetCronograma(num: int)
    | CreateCronograma(data: Json)
    | UpdateCronograma(num: int, data: Json)
    | AsignarEstudiantes(num: int, data: Json)
    | ReasignarEstudiante(num: int, data: Json)
    | CerrarAsignacion(num: int)
    | GetReporteEstudiante(studentCode: string)
    | GetReporteTutor(tutorCode: string)
    | GetReporteSemestre(semesterId: string)
    | GetReporteFecha(date: string)

  /** The path of each endpoint, after `API_BASE`. */
  function Path(e: Endpoint): string {
    match e
    case Login(_, _) => "/login"
    case Recover(_) => "/recover"
    case ResetPassword(_, _) => "/reset-password"
    case VerifyEmail(_) => "/verify-email"
    case Logout => "/logout"
    case ChangePassword(_, _) => "/change-password"
    case RegisterStudent(_) => "/register/Student"
    case RegisterTutor(_) => "/register/Tutor"
    case RegisterAdmin(_) => "/register/Admin"
    case RegisterChecker(_) => "/register/Checker"
    case GetUsers => "/users"
    case GetUser(id) => "/users/" + id
    case CreateUser(data) => "/users/" + Interpolate(Get(data, "id"))
    case UpdateUser(id, _) => "/users/" + id
    case GetStudents => "/students"
    case GetStudent(id) => "/students/" + id
    case GetTutors => "/tutors"
    case GetTutor(id) => "/tutors/" + id
    case GetAdmins => "/admins"
    case GetAdmin(id) => "/admins/" + id
    case GetCheckers => "/checkers"
    case GetChecker(id) => "/checkers/" + id
    case GetTutorias => "/tutorias"
    case GetTutoria(n) => "/tutorias/" + IntToString(n)
    case CreateTutoria(_) => "/tutorias"
    case UpdateTutoria(n, _) => "/tutorias/" + IntToString(n)
    case GetConstancia(n) => "/tutorias/" + IntToString(n) + "/constancia"
    case GetCronogramas => "/cronogramas"
    case GetCronograma(n) => "/cronogramas/" + IntToString(n)
    case CreateCronograma(_) => "/cronogramas"
    case UpdateCronograma(n, _) => "/cronogramas/" + IntToString(n)
    case AsignarEstudiantes(n, _) => "/cronogramas/" + IntToString(n) + "/asignar-estudiantes"
    case ReasignarEstudiante(n, _) => "/cronogramas/" + IntToString(n) + "/reasignar-estudiante"
    case CerrarAsignacion(n) => "/cronogramas/" + IntToString(n) + "/cerrar-asignacion"
    case GetReporteEstudiante(code) => "/reportes/estudiante/" + code
    case GetReporteTutor(code) => "/reportes/tutor/" + code
    case GetReporteSemestre(id) => "/reportes/semestre/" + id
    case GetReporteFecha(date) => "/reportes/fecha/" + date
  }

  /** A value placed in a template literal; `None` is `undefined`. */
  function Interpolate(v: Option<Json>): string {
    if v.Some? then ToText(v.value) else "undefined"
  }

  /** The HTTP method each endpoint sends (`GET` when it sets none). */
  function MethodOf(e: Endpoint): Option<HttpMethod> {
    match e
    case UpdateUser(_, _) => Some(PUT)
    case UpdateTutoria(_, _) => Some(PUT)
    case UpdateCronograma(_, _) => Some(PUT)
    case GetUsers => None
    case GetUser(_) => None
    case GetStudents => None
    case GetStudent(_) => None
    case GetTutors => None
    case GetTutor(_) => None
    case GetAdmins => None
    case GetAdmin(_) => None
    case GetCheckers => None
    case GetChecker(_) => None
    case GetTutorias => None
    case GetTutoria(_) => None
    case GetConstancia(_) => None
    case GetCronogramas => None
    case GetCronograma(_) => None
    case GetReporteEstudiante(_) => None
    case GetReporteTutor(_) => None
    case GetReporteSemestre(_) => None
    case GetReporteFecha(_) => None
    case _ => Some(POST)
  }

  function Str(key: string, value: string): Member {
    Member(key, JStr(value))
  }

  /** The JSON value each endpoint sends as its body, if any. */
  function Payload(e: Endpoint): Option<Json> {
    match e
    case Login(id, pw) => Some(JObj([Member("user", JObj([Str("id", id), Str("password", pw)]))]))
    case Recover(email) => Some(JObj([Str("email", email)]))
    case ResetPassword(t, pw) => Some(JObj([Str("token", t), Str("password", pw)]))
    case VerifyEmail(t) => Some(JObj([Str("token", t)]))
    case ChangePassword(o, n) => Some(JObj([Str("old_password", o), Str("new_password", n)]))
    case RegisterStudent(d) => Some(d)
    case RegisterTutor(d) => Some(d)
    case RegisterAdmin(d) => Some(d)
    case RegisterChecker(d) => Some(d)
    case CreateUser(d) => Some(d)
    case UpdateUser(_, d) => Some(d)
    case CreateTutoria(d) => Some(d)
    case UpdateTutoria(_, d) => Some(d)
    case CreateCronograma(d) => Some(d)
    case UpdateCronograma(_, d) => Some(d)
    case AsignarEstudiantes(_, d) => Some(d)
    case ReasignarEstudiante(_, d) => Some(d)
    case _ => None
  }

  /** The `includeAuth` argument each endpoint passes to `apiCall`. */
  function IncludesAuth(e: Endpoint): bool {
    match e
    case Login(_, _) => false
    case Recover(_) => false
    case ResetPassword(_, _) => false
    case VerifyEmail(_) => false
    case RegisterStudent(_) => false
    case RegisterTutor(_) => false
    case RegisterAdmin(_) => false
    case RegisterChecker(_) => false
    case _ => true
  }

  /** The public endpoints: session login, password recovery and reset, e-mail
      verification and the four registrations. */
  predicate IsPublic(e: Endpoint) {
    e.Login? || e.Recover? || e.ResetPassword? || e.VerifyEmail?
    || e.RegisterStudent? || e.RegisterTutor? || e.RegisterAdmin? || e.RegisterChecker?
  }

  /** The options object each `api` member passes. */
  function OptionsOf(e: Endpoint): Options {
    var body := Payload(e);
    Options(MethodOf(e), if body.Some? then Some(Stringify(body.value)) else None, map[])
  }

  /** The request `api.<member>(…)` sends, or the error it throws before sending. */
  function RequestFor(e: Endpoint, env: Env): Result<Request, string> {
    Compose(Path(e), OptionsOf(e), IncludesAuth(e), env)
  }

  /** One call through `api`: the request that went out, if any, and what the call
      resolves or rejects with. */
  datatype Exchange = Exchange(sent: Option<Request>, outcome: Result<Json, string>)

  function Invoke(e: Endpoint, env: Env, fetch: FetchResult): (r: Exchange)
    ensures r.sent.None? ==> r.outcome == Err(MissingTokenMessage)
    ensures r.sent.Some? ==> r.outcome == Outcome(fetch)
  {
    match RequestFor(e, env)
    case Err(m) => Exchange(None, Err(m))
    case Ok(req) => Exchange(Some(req), Outcome(fetch))
  }

  /** Exactly the public endpoints are called with `includeAuth = false`. */
  lemma PublicIffNoAuth(e: Endpoint)
    ensures !IncludesAuth(e) <==> IsPublic(e)
  {
  }

  /** A public endpoint always sends its request, and sends no `Authorization` header. */
  lemma PublicRequestsNeedNoToken(e: Endpoint, env: Env, fetch: FetchResult)
    requires IsPublic(e)
    ensures Invoke(e, env, fetch).sent.Some?
    ensures "Authorization" !in Invoke(e, env, fetch).sent.value.headers
  {
  }

  /** A protected endpoint sends nothing when no non-empty token is stored, and
      otherwise carries `Bearer <token>`. */
  lemma ProtectedRequestsCarryToken(e: Endpoint, env: Env, fetch: FetchResult)
    requires !IsPublic(e)
    ensures var x := Invoke(e, env, fetch);
            var t := GetToken(env);
            (x.sent.None? <==> t.None? || t.value == "")
            && (x.sent.Some? ==> x.sent.value.headers["Authorization"] == "Bearer " + t.value)
            && (x.sent.Some? ==> x.sent.value.url == ApiBase(env.configuredBase) + Path(e))
  {
  }
}
