/** The older session store, kept beside the current one: the same start-up restore, login,
    registration and logout, without the admin flag. */
module LegacySession {
  import opened Base
  import opened Js
  import opened ApiClient
  import opened Services
  import opened Session

  /** The older store's start-up check: both keys present and non-empty and the saved user
      parsing restores the session with storage kept; a user that does not parse drops both keys;
      a missing key leaves storage alone. Loading ends in every case, and a session is restored
      only from a stored token. */
  function LegacyRestore(storage: map<string, string>, prev: AuthState, parse: string -> Option<Val>): (r: (AuthState, map<string, string>))
    ensures !r.0.isLoading
    ensures Stored(storage, "jwt").Some? && Stored(storage, "user").Some? && parse(storage["user"]).Some? ==>
              r == (AuthState(parse(storage["user"]).value, true, false), storage)
    ensures Stored(storage, "jwt").Some? && Stored(storage, "user").Some? && parse(storage["user"]).None? ==>
              r == (prev.(isLoading := false), storage - {"jwt", "user"})
    ensures !(Stored(storage, "jwt").Some? && Stored(storage, "user").Some?) ==>
              r == (prev.(isLoading := false), storage)
    ensures r.0 != prev.(isLoading := false) ==> Stored(storage, "jwt").Some? && r.0.isAuthenticated
  {
    var token := Stored(storage, "jwt");
    var saved := Stored(storage, "user");
    if token.Some? && saved.Some? then
      match parse(saved.value)
      case Some(user) => (AuthState(user, true, false), storage)
      case None => (prev.(isLoading := false), storage - {"jwt", "user"})
    else (prev.(isLoading := false), storage)
  }

  class LegacySessionStore {
    var auth: AuthState
    const browser: Browser
    const parse: string -> Option<Val>
    const stringify: Val -> string

    constructor(browser: Browser, parse: string -> Option<Val>, stringify: Val -> string)
      ensures auth == Initial
      ensures this.browser == browser && this.parse == parse && this.stringify == stringify
    {
      auth := Initial;
      this.browser := browser;
      this.parse := parse;
      this.stringify := stringify;
    }

    /** The start-up `checkAuth`: restores only when both keys exist and the user parses; a user
        that does not parse drops both keys; a missing key leaves storage alone. */
    method CheckAuth()
      modifies this, browser
      ensures var (a, storage) := LegacyRestore(old(browser.st.storage), old(auth), parse);
              auth == a && browser.st == old(browser.st).(storage := storage)
    {
      var token := Stored(browser.st.storage, "jwt");
      var saved := Stored(browser.st.storage, "user");
      if token.Some? && saved.Some? {
        var user := parse(saved.value);
        if user.Some? {
          auth := AuthState(user.value, true, false);
        } else {
          browser.RemoveItems({"jwt", "user"});
          auth := auth.(isLoading := false);
        }
      } else {
        auth := auth.(isLoading := false);
      }
    }

    /** `login` and `register`: store both keys and sign in, or rethrow with nothing changed but
        what the interceptor did. */
    method SignIn(c: Call) returns (r: Outcome)
      requires c.Login? || c.Register?
      modifies this, browser
      ensures var (st1, reply) := Exchange(browser, old(browser.st), c);
              if reply.Rejected? then r == Failed(reply.failure) && auth == old(auth) && browser.st == st1
              else if Nullish(reply.data) then
                r == Failed(Failure(None, TypeErrorText)) && auth == old(auth) && browser.st == st1
              else
                r == Resolved && auth == AuthState(Get(reply.data, "user"), true, false)
                && browser.st == st1.(storage := SignedInStorage(st1.storage, reply.data, stringify))
    {
      var res := CallForData(browser, c);
      if res.Err? {
        return Failed(res.error);
      }
      var response := res.value;
      if Nullish(response) {
        return Failed(Failure(None, TypeErrorText));
      }
      var user := Get(response, "user");
      browser.SetItem("jwt", ToJsString(Get(response, "token")));
      browser.SetItem("user", stringify(user));
      auth := AuthState(user, true, false);
      r := Resolved;
    }

    /** `logout()` */
    method Logout()
      modifies this, browser
      ensures auth == AuthState(Null, false, false)
      ensures browser.st == old(browser.st).(storage := old(browser.st.storage) - {"jwt", "user"})
    {
      browser.RemoveItems({"jwt", "user"});
      auth := AuthState(Null, false, false);
    }
  }
}
