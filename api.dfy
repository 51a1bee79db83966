/** The HTTP client of `src/services/api.ts`: the admin records it exchanges,
    its two interceptors, and the three authentication calls the session
    store uses. Requests themselves are not sent: every remote call takes its
    settled result as an input. */
module Api {
  import opened Wrappers
  import opened Browser

  /** The `admin` object of a login response (no token). */
  datatype AdminRecord = AdminRecord(
    id: int,
    username: string,
    email: Option<string>,
    fullName: Option<string>,
    isActive: bool)

  /** `Admin`: the identity the client keeps, with the bearer token. */
  datatype Admin = Admin(
    id: int,
    username: string,
    email: Option<string>,
    fullName: Option<string>,
    isActive: bool,
    token: Option<string>)

  /** The body of a successful `POST /auth/login`. */
  datatype LoginResponse = LoginResponse(admin: AdminRecord, token: string)

  /** `error.response` of a failed request: its status and `data.message`. */
  datatype ErrorResponse = ErrorResponse(status: int, message: Option<string>)

  /** A rejected request; `response` is absent for network failures. */
  datatype HttpError = HttpError(response: Option<ErrorResponse>)

  /** How a request settles: fulfilled with its data, or rejected. */
  datatype Http<+T> = Ok(data: T) | Fail(error: HttpError)

  /** `JSON.stringify` and `JSON.parse` as the client uses them: on admin
      records, with parsing allowed to fail. */
  datatype Json = Json(stringify: Admin -> string, parse: string -> Option<Admin>)

  /** The properties of JSON the session code relies on: text written by
      `stringify` parses back to the same admin, and is never empty. */
  ghost predicate Lawful(json: Json)
  {
    forall a: Admin :: json.parse(json.stringify(a)) == Some(a) && json.stringify(a) != ""
  }

  /** The response interceptor's test: an error with a response whose status
      is 401. */
  predicate IsUnauthorized<T>(h: Http<T>)
  {
    h.Fail? && h.error.response.Some? && h.error.response.value.status == 401
  }

  /** The admin record of a login response, forgetting any token. */
  function RecordOf(a: Admin): AdminRecord
  {
    AdminRecord(a.id, a.username, a.email, a.fullName, a.isActive)
  }

  /** `{ ...response.data.admin, token: response.data.token }`. */
  function MergeLogin(resp: LoginResponse): (a: Admin)
    ensures RecordOf(a) == resp.admin
    ensures a.token == Some(resp.token)
  {
    Admin(resp.admin.id, resp.admin.username, resp.admin.email, resp.admin.fullName,
          resp.admin.isActive, Some(resp.token))
  }

  /** An admin is fully determined by its record and its token, so the merge
      loses nothing of the login response. */
  lemma MergeLoginInjective(r1: LoginResponse, r2: LoginResponse)
    ensures MergeLogin(r1) == MergeLogin(r2) <==> r1 == r2
  {
  }

  /** The token the request interceptor finds in storage: the persisted
      entry is present and non-empty, parses, and carries a non-empty
      `token`. */
  function StoredToken(storage: map<string, string>, json: Json): (t: Option<string>)
    ensures t.Some? ==> t.value != ""
    ensures t.Some? <==>
      && SavedEntry(storage, UserKey).Some?
      && json.parse(storage[UserKey]).Some?
      && json.parse(storage[UserKey]).value.token.Some?
      && json.parse(storage[UserKey]).value.token.value != ""
    ensures t.Some? ==> Some(t.value) == json.parse(storage[UserKey]).value.token
  {
    match SavedEntry(storage, UserKey)
    case None => None
    case Some(text) =>
      match json.parse(text)
      case None => None
      case Some(admin) =>
        if admin.token.Some? && admin.token.value != "" then admin.token else None
  }

  /** The `Authorization` header value the request interceptor sets. */
  function BearerHeader(token: string): (h: string)
    ensures |h| == 7 + |token| && h[..7] == "Bearer " && h[7..] == token
  {
    "Bearer " + token
  }

  /** An outgoing request's configuration; the interceptor edits its headers
      in place. */
  class RequestConfig {
    var headers: map<string, string>

    constructor (headers: map<string, string>)
      ensures this.headers == headers
    {
      this.headers := headers;
    }
  }

  /** The parse-error message written by the request interceptor and by
      `initAuth`. */
  const ParseErrorLog: string := "解析用户数据时出错:"

  /** What the request interceptor writes to the console for the given
      storage: the parse-error message when the persisted entry is present
      and non-empty but does not parse, nothing otherwise. */
  function RequestLog(storage: map<string, string>, json: Json): (log: seq<string>)
    ensures log == [] || log == [ParseErrorLog]
    ensures log == [ParseErrorLog] <==> SavedEntry(storage, UserKey).Some? && json.parse(storage[UserKey]).None?
  {
    if SavedEntry(storage, UserKey).Some? && json.parse(storage[UserKey]).None? then [ParseErrorLog] else []
  }

  /** The request interceptor: attach `Authorization: Bearer <token>` when the
      persisted admin has a token; when the entry does not parse, log and go
      on. The same configuration object is returned, and the request is never
      refused. */
  method AttachToken(w: Window, json: Json, config: RequestConfig) returns (r: RequestConfig)
    modifies config, w
    ensures r == config
    ensures StoredToken(old(w.storage), json).Some? ==>
      config.headers == old(config.headers)["Authorization" := BearerHeader(StoredToken(old(w.storage), json).value)]
    ensures StoredToken(old(w.storage), json).None? ==> config.headers == old(config.headers)
    ensures w.consoleErrors == old(w.consoleErrors) + RequestLog(old(w.storage), json)
    ensures w.storage == old(w.storage) && w.navigations == old(w.navigations)
  {
    var saved := SavedEntry(w.storage, UserKey);
    if saved.Some? {
      var userData := json.parse(saved.value);
      if userData.None? {
        w.LogError(ParseErrorLog);
      } else if userData.value.token.Some? && userData.value.token.value != "" {
        config.headers := config.headers["Authorization" := BearerHeader(userData.value.token.value)];
      }
    }
    r := config;
  }

  /** Both response-interceptor handlers: a fulfilled response passes
      through, a rejection is rejected again with the same error, and a 401
      first removes the persisted admin and sends the page to the login
      path. */
  method InterceptResponse<T>(w: Window, h: Http<T>) returns (r: Http<T>)
    modifies w
    ensures r == h
    ensures ResponseEffects(w, IsUnauthorized(h))
  {
    if h.Fail? && h.error.response.Some? && h.error.response.value.status == 401 {
      w.RemoveItem(UserKey);
      w.Navigate(LocationAssign(LoginPath));
    }
    r := h;
  }

  /** What one request through `api` does to the window: the request
      interceptor may log an unparseable persisted entry, then the response
      interceptor handles a 401. */
  twostate predicate RequestEffects(w: Window, json: Json, unauthorized: bool)
    reads w
  {
    && w.storage == (if unauthorized then old(w.storage) - {UserKey} else old(w.storage))
    && w.navigations == old(w.navigations) + (if unauthorized then [LocationAssign(LoginPath)] else [])
    && w.consoleErrors == old(w.consoleErrors) + RequestLog(old(w.storage), json)
  }

  /** One request through `api`: the request interceptor runs on a fresh
      configuration, the request settles as `raw`, and the response
      interceptor runs on the result. */
  method Send<T>(w: Window, json: Json, raw: Http<T>) returns (r: Http<T>)
    modifies w
    ensures r == raw
    ensures RequestEffects(w, json, IsUnauthorized(raw))
  {
    var config := new RequestConfig(map[]);
    config := AttachToken(w, json, config);
    r := InterceptResponse(w, raw);
  }

  /** `login(username, password)`: `POST /auth/login` through both
      interceptors, then the admin merged with its token. */
  method Login(w: Window, json: Json, raw: Http<LoginResponse>) returns (r: Http<Admin>)
    modifies w
    ensures raw.Ok? <==> r.Ok?
    ensures raw.Ok? ==> r.data == MergeLogin(raw.data)
    ensures raw.Fail? ==> r.error == raw.error
    ensures RequestEffects(w, json, IsUnauthorized(raw))
  {
    var response := Send(w, json, raw);
    match response
    case Ok(data) => r := Ok(MergeLogin(data));
    case Fail(e) => r := Fail(e);
  }

  /** `logout()`: `POST /auth/logout` through both interceptors. */
  method Logout(w: Window, json: Json, raw: Http<()>) returns (r: Http<()>)
    modifies w
    ensures r == raw
    ensures RequestEffects(w, json, IsUnauthorized(raw))
  {
    r := Send(w, json, raw);
  }

  /** `checkAuth()`: `GET /auth/me` through both interceptors; the input
      already holds `response.data.admin`. */
  method CheckAuth(w: Window, json: Json, raw: Http<Admin>) returns (r: Http<Admin>)
    modifies w
    ensures r == raw
    ensures RequestEffects(w, json, IsUnauthorized(raw))
  {
    r := Send(w, json, raw);
  }

  /** After an admin has been persisted, every request carries its token. */
  lemma PersistedTokenIsSent(storage: map<string, string>, json: Json, a: Admin)
    requires Lawful(json)
    requires a.token.Some? && a.token.value != ""
    ensures StoredToken(storage[UserKey := json.stringify(a)], json) == a.token
  {
  }

  /** After a successful login, the merged admin always carries the login
      token, so the next request is sent with `Bearer <token>` whenever the
      server's token is non-empty. */
  lemma LoginTokenIsSent(storage: map<string, string>, json: Json, resp: LoginResponse)
    requires Lawful(json)
    requires resp.token != ""
    ensures StoredToken(storage[UserKey := json.stringify(MergeLogin(resp))], json) == Some(resp.token)
  {
  }

  /** Removing the persisted admin (as the 401 handler does) stops the token
      from being sent. */
  lemma NoTokenAfterRemoval(storage: map<string, string>, json: Json)
    ensures StoredToken(storage - {UserKey}, json) == None
  {
  }
}
