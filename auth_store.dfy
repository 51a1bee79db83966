/** The session store of `src/store/auth.ts`: the current admin, the
    authentication flag, and the persisted `user` entry, with the four
    transitions `initAuth`, `login`, `register` and `logout`. Each remote
    call's settled result is an input; `initAuth` is split at its one `await`
    so that a caller can act between its synchronous part and its
    continuation. */
module AuthStore {
  import opened Wrappers
  import opened Browser
  import opened Api

  const DisabledMessage: string := "账户已被禁用，请联系系统管理员"
  const LoginFailedMessage: string := "用户名或密码错误"
  const RegisterFailedMessage: string := "注册失败，请稍后重试"
  const LogoutErrorLog: string := "登出时发生错误:"

  /** How a store action's promise settles. */
  datatype Settled = Resolved | Rejected(message: string)

  /** The store's fields together with the storage they persist to. */
  datatype Session = Session(user: Option<Admin>, isAuthenticated: bool, storage: map<string, string>)

  /** The flag says exactly whether an admin is held. */
  predicate Consistent(s: Session)
  {
    s.isAuthenticated <==> s.user.Some?
  }

  /** Where the synchronous part of `initAuth` stops: there was no usable
      entry; the entry was restored and `checkAuth` is awaited; or the entry
      did not parse. */
  datatype InitStep = NothingSaved | AwaitingCheckAuth | ParseFailed

  /** The synchronous part of `initAuth`, up to its `await checkAuth()`. */
  function InitAuthPrefix(s: Session, json: Json): (r: (Session, InitStep))
    ensures r.1 == NothingSaved <==> SavedEntry(s.storage, UserKey).None?
    ensures r.1 == NothingSaved ==> r.0 == s
    ensures r.1 == AwaitingCheckAuth ==>
      && json.parse(s.storage[UserKey]).Some?
      && r.0 == Session(json.parse(s.storage[UserKey]), true, s.storage)
    ensures r.1 == ParseFailed ==>
      && json.parse(s.storage[UserKey]).None?
      && r.0 == Session(s.user, s.isAuthenticated, s.storage - {UserKey})
    ensures Consistent(s) ==> Consistent(r.0)
  {
    match SavedEntry(s.storage, UserKey)
    case None => (s, NothingSaved)
    case Some(text) =>
      match json.parse(text)
      case Some(admin) => (Session(Some(admin), true, s.storage), AwaitingCheckAuth)
      case None => (Session(s.user, s.isAuthenticated, s.storage - {UserKey}), ParseFailed)
  }

  /** Running the synchronous part twice is the same as running it once: it
      leaves no entry that it would treat differently the second time. */
  lemma InitAuthPrefixIdempotent(s: Session, json: Json)
    ensures InitAuthPrefix(InitAuthPrefix(s, json).0, json).0 == InitAuthPrefix(s, json).0
  {
  }

  /** `error.response?.data?.message || fallback`. */
  function ServerMessageOr(e: HttpError, fallback: string): (m: string)
    ensures e.response.Some? && e.response.value.message.Some? && e.response.value.message.value != ""
      ==> m == e.response.value.message.value
    ensures !(e.response.Some? && e.response.value.message.Some? && e.response.value.message.value != "")
      ==> m == fallback
    ensures fallback != "" ==> m != ""
  {
    match e.response
    case Some(ErrorResponse(_, Some(message))) => if message != "" then message else fallback
    case _ => fallback
  }

  class Store {
    var user: Option<Admin>
    var isAuthenticated: bool
    /** The page the store runs in (storage, navigation, console). */
    const window: Window
    /** The JSON implementation of that page. */
    const json: Json

    /** `Consistent` of the store's own fields; stated on them directly so
        that it reads only the store, not its window. */
    ghost predicate Valid()
      reads this
    {
      isAuthenticated <==> user.Some?
    }

    function State(): (s: Session)
      reads this, window
      ensures Valid() <==> Consistent(s)
    {
      Session(user, isAuthenticated, window.storage)
    }

    constructor (window: Window, json: Json)
      ensures Valid()
      ensures user == None && !isAuthenticated
      ensures this.window == window && this.json == json
    {
      user := None;
      isAuthenticated := false;
      this.window := window;
      this.json := json;
    }

    /** The synchronous part of `initAuth`: restore the persisted admin and
        set the flag before awaiting `checkAuth`, or drop an entry that does
        not parse (logging it) and leave the session as it was. */
    method InitAuthStart() returns (step: InitStep)
      requires Valid()
      modifies this, window
      ensures Valid()
      ensures (State(), step) == InitAuthPrefix(old(State()), json)
      ensures window.navigations == old(window.navigations)
      ensures window.consoleErrors == old(window.consoleErrors) + (if step == ParseFailed then [ParseErrorLog] else [])
    {
      var savedUser := SavedEntry(window.storage, UserKey);
      if savedUser.None? {
        step := NothingSaved;
        return;
      }
      var parsed := json.parse(savedUser.value);
      if parsed.Some? {
        user := parsed;
        isAuthenticated := true;
        step := AwaitingCheckAuth;
      } else {
        window.LogError(ParseErrorLog);
        window.RemoveItem(UserKey);
        step := ParseFailed;
      }
    }

    /** The continuation of `initAuth` once `checkAuth` settles: on a
        rejection the session and the persisted entry are cleared; on success
        nothing changes. */
    method InitAuthResume(raw: Http<Admin>)
      requires Valid()
      modifies this, window
      ensures Valid()
      ensures raw.Ok? ==> user == old(user) && isAuthenticated == old(isAuthenticated) && RequestEffects(window, json, false)
      ensures raw.Fail? ==> user == None && !isAuthenticated
      ensures raw.Fail? ==> window.storage == old(window.storage) - {UserKey}
      ensures raw.Fail? ==>
        window.navigations == old(window.navigations) + (if IsUnauthorized(raw) then [LocationAssign(LoginPath)] else [])
      ensures window.consoleErrors == old(window.consoleErrors) + RequestLog(old(window.storage), json)
    {
      var checked := Api.CheckAuth(window, json, raw);
      if checked.Fail? {
        user := None;
        isAuthenticated := false;
        window.RemoveItem(UserKey);
      }
    }

    /** `initAuth()` awaited to the end; `check` is how `checkAuth` settles if
        it is called. */
    method InitAuth(check: Http<Admin>)
      requires Valid()
      modifies this, window
      ensures Valid()
      ensures SavedEntry(old(window.storage), UserKey).None? ==>
        State() == old(State()) && window.navigations == old(window.navigations)
        && window.consoleErrors == old(window.consoleErrors)
      ensures SavedEntry(old(window.storage), UserKey).Some? && json.parse(old(window.storage)[UserKey]).Some? ==>
        && (if check.Ok? then
              user == json.parse(old(window.storage)[UserKey]) && isAuthenticated && window.storage == old(window.storage)
            else
              user == None && !isAuthenticated && window.storage == old(window.storage) - {UserKey})
        && window.navigations == old(window.navigations) + (if IsUnauthorized(check) then [LocationAssign(LoginPath)] else [])
        && window.consoleErrors == old(window.consoleErrors)
      ensures SavedEntry(old(window.storage), UserKey).Some? && json.parse(old(window.storage)[UserKey]).None? ==>
        user == old(user) && isAuthenticated == old(isAuthenticated)
        && window.storage == old(window.storage) - {UserKey}
        && window.navigations == old(window.navigations)
        && window.consoleErrors == old(window.consoleErrors) + [ParseErrorLog]
    {
      var step := InitAuthStart();
      if step == AwaitingCheckAuth {
        InitAuthResume(check);
      }
    }

    /** `login(username, password)`: an active admin becomes the session and
        is persisted; an inactive one is refused with the disabled-account
        message and nothing changes; a failed call is refused with the
        server's message or the bad-credentials message, and the session is
        untouched (the interceptor's 401 handling aside). */
    method Login(raw: Http<LoginResponse>) returns (r: Settled)
      requires Valid()
      modifies this, window
      ensures Valid()
      ensures raw.Ok? && raw.data.admin.isActive ==>
        && r == Resolved
        && user == Some(MergeLogin(raw.data)) && isAuthenticated
        && window.storage == old(window.storage)[UserKey := json.stringify(MergeLogin(raw.data))]
      ensures raw.Ok? && !raw.data.admin.isActive ==>
        && r == Rejected(DisabledMessage)
        && user == old(user) && isAuthenticated == old(isAuthenticated)
        && window.storage == old(window.storage)
      ensures raw.Fail? ==>
        && r == Rejected(ServerMessageOr(raw.error, LoginFailedMessage))
        && user == old(user) && isAuthenticated == old(isAuthenticated)
        && RequestEffects(window, json, IsUnauthorized(raw))
      ensures raw.Ok? ==> window.navigations == old(window.navigations)
      ensures window.consoleErrors == old(window.consoleErrors) + RequestLog(old(window.storage), json)
    {
      var result := Api.Login(window, json, raw);
      match result
      case Fail(e) =>
        r := Rejected(ServerMessageOr(e, LoginFailedMessage));
      case Ok(adminData) =>
        if !adminData.isActive {
          r := Rejected(DisabledMessage);
        } else {
          user := Some(adminData);
          isAuthenticated := true;
          window.SetItem(UserKey, json.stringify(adminData));
          r := Resolved;
        }
    }

    /** `register(username, password, email?, full_name?)`: `result` is how
        the registration call settles. Success makes the same three updates
        as a login, without the active-account check; failure is refused with
        the server's message or the registration-failed message and changes
        nothing. */
    method Register(result: Http<Admin>) returns (r: Settled)
      requires Valid()
      modifies this, window
      ensures Valid()
      ensures result.Ok? ==>
        && r == Resolved
        && user == Some(result.data) && isAuthenticated
        && window.storage == old(window.storage)[UserKey := json.stringify(result.data)]
      ensures result.Fail? ==>
        && r == Rejected(ServerMessageOr(result.error, RegisterFailedMessage))
        && user == old(user) && isAuthenticated == old(isAuthenticated)
        && window.storage == old(window.storage)
      ensures window.navigations == old(window.navigations)
      ensures window.consoleErrors == old(window.consoleErrors)
    {
      match result
      case Fail(e) =>
        r := Rejected(ServerMessageOr(e, RegisterFailedMessage));
      case Ok(adminData) =>
        user := Some(adminData);
        isAuthenticated := true;
        window.SetItem(UserKey, json.stringify(adminData));
        r := Resolved;
    }

    /** `logout()`: the remote logout is best effort (a failure is only
        logged); whatever it does, the session is cleared, the persisted entry
        removed and the router sent to the login path, and the action never
        rejects. */
    method Logout(raw: Http<()>) returns (r: Settled)
      requires Valid()
      modifies this, window
      ensures Valid()
      ensures r == Resolved
      ensures user == None && !isAuthenticated
      ensures window.storage == old(window.storage) - {UserKey}
      ensures window.navigations == old(window.navigations) +
        (if IsUnauthorized(raw) then [LocationAssign(LoginPath)] else []) + [RouterPush(LoginPath)]
      ensures window.consoleErrors == old(window.consoleErrors) + RequestLog(old(window.storage), json)
        + (if raw.Fail? then [LogoutErrorLog] else [])
    {
      var result := Api.Logout(window, json, raw);
      if result.Fail? {
        window.LogError(LogoutErrorLog);
      }
      user := None;
      isAuthenticated := false;
      window.RemoveItem(UserKey);
      window.Navigate(RouterPush(LoginPath));
      r := Resolved;
    }
  }

  /** What a successful login persists is what the next `initAuth` restores:
      the same admin, authenticated, with the entry kept. */
  lemma LoginThenInitAuthRestores(s: Session, json: Json, resp: LoginResponse)
    requires Lawful(json)
    ensures
      var stored := Session(Some(MergeLogin(resp)), true, s.storage[UserKey := json.stringify(MergeLogin(resp))]);
      InitAuthPrefix(Session(None, false, stored.storage), json) == (stored, AwaitingCheckAuth)
  {
  }
}
