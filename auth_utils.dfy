/** The page guards' own checks on `localStorage`: whether a token is stored, and whether the
    stored JWT names an admin. The admin check differs from the session store's: it looks for a
    lower-case "admin", and any exception on the way makes it false. */
module AuthUtils {
  import opened Base
  import opened Text
  import opened Js
  import opened ApiClient
  import Session

  /** `isLoggedIn()`: one of "jwt", "access_token" or "token" is stored and non-empty. */
  function IsLoggedIn(storage: map<string, string>): (r: bool)
    ensures r <==> StoredToken(storage).Some?
    ensures r <==> SelectToken(storage, None).Some?
  {
    Stored(storage, "jwt").Some? || Stored(storage, "access_token").Some? || Stored(storage, "token").Some?
  }

  /** The build-time VITE_JWT authorises requests but does not count as being logged in. */
  lemma EnvTokenIsNotLogin(env: string)
    requires env != ""
    ensures AuthHeader(map[], Some(env)) == Some("Bearer " + env)
    ensures !IsLoggedIn(map[])
  {
  }

  /** A role that lower-cases to "admin". */
  predicate AdminRole(v: Val) {
    v.Str? && Lower(v.s) == "admin"
  }

  /** `roles.some(r => r.toLowerCase() === 'admin')`: stops at the first match; a non-string
      element reached before any match throws. It answers true exactly when some element is an
      admin role and every element before it is a string; it throws exactly when some element is
      not a string and every element before it is a string that is not an admin role; otherwise
      every element is a non-admin string and it answers false. */
  function SomeAdminIgnoringCase(roles: seq<Val>): (r: Result<bool, string>)
    ensures r == Ok(true) <==>
            exists i :: 0 <= i < |roles| && AdminRole(roles[i]) && forall j :: 0 <= j < i ==> roles[j].Str?
    ensures r.Err? <==>
            exists i :: 0 <= i < |roles| && !roles[i].Str? && forall j :: 0 <= j < i ==> roles[j].Str? && !AdminRole(roles[j])
    ensures r == Ok(false) <==> forall i :: 0 <= i < |roles| ==> roles[i].Str? && !AdminRole(roles[i])
    ensures r.Err? ==> r.error == NotAFunction
  {
    if roles == [] then Ok(false)
    else if !roles[0].Str? then Err(NotAFunction)
    else if Lower(roles[0].s) == "admin" then Ok(true)
    else
      var rest := SomeAdminIgnoringCase(roles[1..]);
      assert forall i :: 0 <= i < |roles| - 1 ==> roles[1..][i] == roles[i + 1];
      rest
  }

  const NotAFunction: string := "is not a function"

  /** The body of the `try` in `isAdmin()`, evaluated on the decoded payload: `role === 'admin'`,
      else `roles?.includes('admin')` (a substring search on a string, an element search on an array,
      a TypeError on anything else but null or undefined), else the case-insensitive search of an
      array of roles. */
  function AdminCheck(payload: Val): (r: Result<bool, string>)
    ensures Nullish(payload) ==> r.Err?
    ensures Get(payload, "role") == Str("admin") && !Nullish(payload) ==> r == Ok(true)
    ensures !Nullish(payload) && Get(payload, "role") != Str("admin") ==>
              var roles := Get(payload, "roles");
              (Nullish(roles) ==> r == Ok(false))
              && (roles.Str? ==> r == Ok(Contains(roles.s, "admin")))
              && (roles.Arr? ==>
                    (r == Ok(true) <==> (Str("admin") in roles.elems || SomeAdminIgnoringCase(roles.elems) == Ok(true))))
              && (roles.Arr? && Str("admin") !in roles.elems ==> r == SomeAdminIgnoringCase(roles.elems))
              && (!Nullish(roles) && !roles.Str? && !roles.Arr? ==> r == Err(NotAFunction))
  {
    match Member(payload, "role")
    case Err(e) => Err(e)
    case Ok(role) =>
      if role == Str("admin") then Ok(true)
      else
        var roles := Get(payload, "roles");
        match roles
        case Undefined => Ok(false)
        case Null => Ok(false)
        case Str(s) => Ok(Contains(s, "admin"))
        case Arr(es) => if Str("admin") in es then Ok(true) else SomeAdminIgnoringCase(es)
        case _ => Err(NotAFunction)
  }

  /** `isAdmin()`: false without a stored JWT, false when the payload does not decode, false when
      the check throws, else the check's answer. */
  function IsAdmin(storage: map<string, string>, decodePayload: string -> Option<Val>): (r: bool)
    ensures Stored(storage, "jwt").None? ==> !r
    ensures Stored(storage, "jwt").Some? && decodePayload(storage["jwt"]).None? ==> !r
    ensures r <==> Stored(storage, "jwt").Some? && decodePayload(storage["jwt"]).Some?
                   && AdminCheck(decodePayload(storage["jwt"]).value) == Ok(true)
  {
    var jwt := Stored(storage, "jwt");
    if jwt.None? then false
    else
      var payload := decodePayload(jwt.value);
      if payload.None? then false
      else
        var check := AdminCheck(payload.value);
        check.Ok? && check.value
  }

  /** A roles string is searched as text: any string containing "admin" qualifies. */
  lemma RolesStringIsSubstringMatch(s: string, pre: string, post: string)
    requires s == pre + "admin" + post
    ensures AdminCheck(Obj(map["roles" := Str(s)])) == Ok(true)
  {
    assert Get(Obj(map["roles" := Str(s)]), "role") == Undefined;
    assert s[|pre|..|pre| + 5] == "admin";
    assert OccursAt(s, "admin", |pre|);
  }

  /** A roles array needs an element equal to "admin" up to case: a one-element array qualifies
      exactly when its element lower-cases to "admin", so "Admin" does and a longer string
      containing "admin" does not. */
  lemma RolesArrayIsElementMatch(s: string)
    ensures AdminCheck(Obj(map["roles" := Arr([Str(s)])])) == Ok(Lower(s) == "admin")
    ensures AdminCheck(Obj(map["roles" := Arr([Str("Admin")])])) == Ok(true)
  {
    var p := Obj(map["roles" := Arr([Str(s)])]);
    assert Get(p, "role") == Undefined && Get(p, "roles") == Arr([Str(s)]);
    if s == "admin" {
      assert Lower(s) == "admin";
    } else {
      assert Str("admin") !in [Str(s)];
      assert [Str(s)][1..] == [];
      assert SomeAdminIgnoringCase([Str(s)]) == Ok(Lower(s) == "admin");
    }
    assert Lower("Admin") == "admin";
    assert Get(Obj(map["roles" := Arr([Str("Admin")])]), "role") == Undefined;
  }

  /** A non-string roles element reached before a match makes the whole check false, unless the
      exact "admin" is in the array: `includes` finds it before the case-insensitive search runs. */
  lemma NonStringRoleFails()
    ensures AdminCheck(Obj(map["roles" := Arr([NumVal(1.0), Str("ADMIN")])])).Err?
    ensures AdminCheck(Obj(map["roles" := Arr([NumVal(1.0), Str("admin")])])) == Ok(true)
  {
    assert Str("admin") in [NumVal(1.0), Str("admin")];
    assert Str("admin") !in [NumVal(1.0), Str("ADMIN")];
  }

  /** The guard and the session store disagree on case: a token whose only claim is role "admin"
      passes the guard but not the store, and one whose only claim is role "Admin" passes the store
      but not the guard. */
  lemma GuardAndStoreDisagree(parse: string -> Option<Val>)
    requires forall s :: parse(s).None?
    ensures AdminCheck(Obj(map["role" := Str("admin")])) == Ok(true)
    ensures !Session.AdminPayload(Obj(map["role" := Str("admin")]), parse)
    ensures AdminCheck(Obj(map["role" := Str("Admin")])) == Ok(false)
    ensures Session.AdminPayload(Obj(map["role" := Str("Admin")]), parse)
  {
    Session.AdminIsCaseSensitive(parse);
    assert Get(Obj(map["role" := Str("Admin")]), "roles") == Undefined;
  }
}
