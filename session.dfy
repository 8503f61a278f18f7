/** The session store: who is signed in, whether the session is still loading, and whether the
    token carries an admin role. Restored from `localStorage` at start-up, written on login and
    registration, cleared on logout. JSON parsing, JSON serialisation and the decoding of a JWT's
    payload are given as functions. */
module Session {
  import opened Base
  import opened Js
  import opened ApiClient
  import opened Services

  datatype AuthState = AuthState(user: Val, isAuthenticated: bool, isLoading: bool)

  /** Before the start-up check: nobody signed in, still loading. */
  const Initial: AuthState := AuthState(Null, false, true)

  /** The three claims that may carry a role: `role`, `roles` and the WS-Federation role claim. */
  const MsRoleClaim: string := "http://schemas.microsoft.com/ws/2008/06/identity/claims/role"

  function Candidates(payload: Val): (r: seq<Val>)
    ensures |r| == 3
  {
    [Get(payload, "role"), Get(payload, "roles"), Get(payload, MsRoleClaim)]
  }

  /** One claim value grants admin: it is exactly "Admin", or a string that parses as a JSON array
      holding "Admin", or an array holding "Admin". */
  predicate AdminClaim(c: Val, parse: string -> Option<Val>) {
    Truthy(c) &&
    if c.Str? then
      c.s == "Admin" || (parse(c.s).Some? && parse(c.s).value.Arr? && Str("Admin") in parse(c.s).value.elems)
    else c.Arr? && Str("Admin") in c.elems
  }

  /** The payload grants admin when it is truthy and some role claim grants it. */
  predicate AdminPayload(payload: Val, parse: string -> Option<Val>) {
    Truthy(payload) && exists i :: 0 <= i < 3 && AdminClaim(Candidates(payload)[i], parse)
  }

  /** `hasAdminRole(payload)`: checks the claims in order and stops at the first that grants admin. */
  method HasAdminRole(payload: Val, parse: string -> Option<Val>) returns (r: bool)
    ensures r <==> AdminPayload(payload, parse)
  {
    if !Truthy(payload) {
      return false;
    }
    var candidates := Candidates(payload);
    for i := 0 to |candidates|
      invariant forall j :: 0 <= j < i ==> !AdminClaim(candidates[j], parse)
    {
      var c := candidates[i];
      if !Truthy(c) {
        continue;
      }
      if c.Str? {
        if c.s == "Admin" {
          return true;
        }
        var parsed := parse(c.s);
        if parsed.Some? && parsed.value.Arr? && Str("Admin") in parsed.value.elems {
          return true;
        }
      } else if c.Arr? && Str("Admin") in c.elems {
        return true;
      }
    }
    return false;
  }

  /** The role check is case-sensitive: a lone role "admin" (lower case) grants nothing, "Admin" does. */
  lemma AdminIsCaseSensitive(parse: string -> Option<Val>)
    requires forall s :: parse(s).None?
    ensures !AdminPayload(Obj(map["role" := Str("admin")]), parse)
    ensures AdminPayload(Obj(map["role" := Str("Admin")]), parse)
    ensures AdminPayload(Obj(map["roles" := Arr([Str("User"), Str("Admin")])]), parse)
  {
    var p := Obj(map["role" := Str("admin")]);
    assert Candidates(p) == [Str("admin"), Undefined, Undefined];
    assert AdminClaim(Candidates(Obj(map["role" := Str("Admin")]))[0], parse);
    var q := Obj(map["roles" := Arr([Str("User"), Str("Admin")])]);
    assert Candidates(q)[1] == Arr([Str("User"), Str("Admin")]);
    assert AdminClaim(Candidates(q)[1], parse);
  }

  /** `parseJwt(token)` for whatever `token` holds: the decoded payload, or {} when the token is not
      a string or cannot be decoded. It never throws. */
  function ParseJwt(token: Val, decode: string -> Option<Val>): (r: Val)
    ensures !token.Str? ==> r == EmptyObj
    ensures token.Str? && decode(token.s).None? ==> r == EmptyObj
  {
    if token.Str? && decode(token.s).Some? then decode(token.s).value else EmptyObj
  }

  /** What the start-up check finds in storage: both keys present and non-empty, and the saved
      user parsing, restores the session; a user that does not parse drops both keys; otherwise
      storage is left alone. `isLoading` ends false in every case. */
  function Restore(storage: map<string, string>, prev: AuthState, decode: string -> Option<Val>,
                   parse: string -> Option<Val>): (r: (AuthState, bool, map<string, string>))
    ensures !r.0.isLoading
    ensures Stored(storage, "jwt").Some? && Stored(storage, "user").Some? && parse(storage["user"]).Some? ==>
              r.0 == AuthState(parse(storage["user"]).value, true, false) && r.2 == storage
              && r.1 == AdminPayload(ParseJwt(Str(storage["jwt"]), decode), parse)
    ensures Stored(storage, "jwt").Some? && Stored(storage, "user").Some? && parse(storage["user"]).None? ==>
              r.2 == storage - {"jwt", "user"}
    ensures !(Stored(storage, "jwt").Some? && Stored(storage, "user").Some?) ==> r.2 == storage
    ensures !(Stored(storage, "jwt").Some? && Stored(storage, "user").Some? && parse(storage["user"]).Some?) ==>
              r.0 == prev.(isLoading := false) && !r.1
    ensures r.2 != storage ==>
              (r.2 == storage - {"jwt", "user"}
               && Stored(storage, "jwt").Some? && Stored(storage, "user").Some? && parse(storage["user"]).None?)
  {
    var token := Stored(storage, "jwt");
    var saved := Stored(storage, "user");
    if token.Some? && saved.Some? then
      var user := parse(saved.value);
      if user.Some? then
        (AuthState(user.value, true, false), AdminPayload(ParseJwt(Str(token.value), decode), parse), storage)
      else (prev.(isLoading := false), false, storage - {"jwt", "user"})
    else (prev.(isLoading := false), false, storage)
  }

  /** What a successful login or registration writes: the token (as a string) under "jwt" and the
      serialised user under "user". */
  function SignedInStorage(storage: map<string, string>, data: Val, stringify: Val -> string): map<string, string> {
    storage["jwt" := ToJsString(Get(data, "token"))]["user" := stringify(Get(data, "user"))]
  }

  /** What `login` or `register` leaves behind and resolves to, from the browser state and the
      session before the call: on success both keys are stored, the user is signed in and the admin
      flag is derived from the token; any failure, including a reply without a body to
      destructure, is rethrown with the session as it was and only the exchange's effects on the
      browser. */
  function SignedIn(b: Browser, st: BrowserState, c: Call, prev: AuthState, prevAdmin: bool,
                    decode: string -> Option<Val>, parse: string -> Option<Val>, stringify: Val -> string)
    : (r: (BrowserState, AuthState, bool, Outcome))
    ensures var (st1, reply) := Exchange(b, st, c);
            (r.3.Resolved? <==> reply.Done? && !Nullish(reply.data))
            && (r.3.Failed? ==> r.0 == st1 && r.1 == prev && r.2 == prevAdmin)
            && (reply.Rejected? ==> r.3 == Failed(reply.failure))
            && (r.3.Resolved? ==> r.1 == AuthState(Get(reply.data, "user"), true, false)
                                  && r.1.isAuthenticated && !r.1.isLoading
                                  && "jwt" in r.0.storage && r.0.storage["jwt"] == ToJsString(Get(reply.data, "token"))
                                  && "user" in r.0.storage && r.0.storage["user"] == stringify(Get(reply.data, "user"))
                                  && r.0 == st1.(storage := SignedInStorage(st1.storage, reply.data, stringify))
                                  && r.2 == AdminPayload(ParseJwt(Get(reply.data, "token"), decode), parse))
    ensures r.0.sent == st.sent + [Request(c, AuthHeader(st.storage, b.env))]
    ensures r.0.toasts == st.toasts && r.0.visited == st.visited
  {
    var (st1, reply) := Exchange(b, st, c);
    if reply.Rejected? then (st1, prev, prevAdmin, Failed(reply.failure))
    else if Nullish(reply.data) then (st1, prev, prevAdmin, Failed(Failure(None, TypeErrorText)))
    else
      (st1.(storage := SignedInStorage(st1.storage, reply.data, stringify)),
       AuthState(Get(reply.data, "user"), true, false),
       AdminPayload(ParseJwt(Get(reply.data, "token"), decode), parse),
       Resolved)
  }

  /** The session store of the current client. */
  class SessionStore {
    var auth: AuthState
    var isAdmin: bool
    const browser: Browser
    const decode: string -> Option<Val>
    const parse: string -> Option<Val>
    const stringify: Val -> string

    constructor(browser: Browser, decode: string -> Option<Val>, parse: string -> Option<Val>,
                stringify: Val -> string)
      ensures auth == Initial && !isAdmin
      ensures this.browser == browser && this.decode == decode && this.parse == parse
      ensures this.stringify == stringify
    {
      auth := Initial;
      isAdmin := false;
      this.browser := browser;
      this.decode := decode;
      this.parse := parse;
      this.stringify := stringify;
    }

    /** The start-up `checkAuth`. */
    method CheckAuth()
      modifies this, browser
      ensures var (a, admin, storage) := Restore(old(browser.st.storage), old(auth), decode, parse);
              auth == a && isAdmin == admin && browser.st == old(browser.st).(storage := storage)
    {
      var token := Stored(browser.st.storage, "jwt");
      var saved := Stored(browser.st.storage, "user");
      if token.Some? && saved.Some? {
        var user := parse(saved.value);
        if user.Some? {
          var payload := ParseJwt(Str(token.value), decode);
          var admin := HasAdminRole(payload, parse);
          auth := AuthState(user.value, true, false);
          isAdmin := admin;
        } else {
          browser.RemoveItems({"jwt", "user"});
          auth := auth.(isLoading := false);
          isAdmin := false;
        }
      } else {
        auth := auth.(isLoading := false);
        isAdmin := false;
      }
    }

    /** `login` and `register`. */
    method SignIn(c: Call) returns (r: Outcome)
      requires c.Login? || c.Register?
      modifies this, browser
      ensures (browser.st, auth, isAdmin, r) ==
              SignedIn(browser, old(browser.st), c, old(auth), old(isAdmin), decode, parse, stringify)
    {
      var res := CallForData(browser, c);
      if res.Err? {
        return Failed(res.error);
      }
      var response := res.value;
      if Nullish(response) {
        return Failed(Failure(None, TypeErrorText));
      }
      var user := Get(response, "user");
      var token := Get(response, "token");
      browser.SetItem("jwt", ToJsString(token));
      browser.SetItem("user", stringify(user));
      var admin := HasAdminRole(ParseJwt(token, decode), parse);
      auth := AuthState(user, true, false);
      isAdmin := admin;
      r := Resolved;
    }

    /** `login(email, password)` */
    method Login(email: string, password: string) returns (r: Outcome)
      modifies this, browser
      ensures (browser.st, auth, isAdmin, r) ==
              SignedIn(browser, old(browser.st), ApiClient.Login(email, password), old(auth), old(isAdmin),
                       decode, parse, stringify)
    {
      r := SignIn(ApiClient.Login(email, password));
    }

    /** `register(email, password, name)` */
    method Register(email: string, password: string, name: string) returns (r: Outcome)
      modifies this, browser
      ensures (browser.st, auth, isAdmin, r) ==
              SignedIn(browser, old(browser.st), ApiClient.Register(email, password, name), old(auth),
                       old(isAdmin), decode, parse, stringify)
    {
      r := SignIn(ApiClient.Register(email, password, name));
    }

    /** `logout()`: drops both keys and resets to signed out, not loading, not admin. */
    method Logout()
      modifies this, browser
      ensures auth == AuthState(Null, false, false) && !isAdmin
      ensures browser.st == old(browser.st).(storage := old(browser.st.storage) - {"jwt", "user"})
    {
      browser.RemoveItems({"jwt", "user"});
      auth := AuthState(Null, false, false);
      isAdmin := false;
    }
  }

  /** Signing in and then restarting restores the same session, provided the token is a
      non-empty string and the user survives a JSON round trip. */
  lemma SignInSurvivesRestart(storage: map<string, string>, data: Val, prev: AuthState,
                              decode: string -> Option<Val>, parse: string -> Option<Val>,
                              stringify: Val -> string)
    requires Get(data, "token").Str? && Get(data, "token").s != ""
    requires stringify(Get(data, "user")) != "" && parse(stringify(Get(data, "user"))) == Some(Get(data, "user"))
    ensures var storage' := SignedInStorage(storage, data, stringify);
            Restore(storage', prev, decode, parse) ==
            (AuthState(Get(data, "user"), true, false),
             AdminPayload(ParseJwt(Get(data, "token"), decode), parse), storage')
  {
    var storage' := SignedInStorage(storage, data, stringify);
    assert Stored(storage', "jwt") == Some(Get(data, "token").s);
    assert Stored(storage', "user") == Some(stringify(Get(data, "user")));
  }

  /** The start-up check settles in one run: checking again, from the storage and session it
      left, changes nothing. */
  lemma RestoreSettles(storage: map<string, string>, prev: AuthState,
                       decode: string -> Option<Val>, parse: string -> Option<Val>)
    ensures var (auth, admin, storage') := Restore(storage, prev, decode, parse);
            Restore(storage', auth, decode, parse) == (auth, admin, storage')
  {
    var (auth, admin, storage') := Restore(storage, prev, decode, parse);
    if storage' != storage {
      assert Stored(storage', "jwt").None?;
    }
  }

  /** Logging out and then restarting stays signed out. */
  lemma LogoutSurvivesRestart(storage: map<string, string>, prev: AuthState,
                              decode: string -> Option<Val>, parse: string -> Option<Val>)
    ensures var storage' := storage - {"jwt", "user"};
            Restore(storage', prev, decode, parse) == (prev.(isLoading := false), false, storage')
  {
    var storage' := storage - {"jwt", "user"};
    assert Stored(storage', "jwt").None?;
  }
}
