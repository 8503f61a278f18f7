/** The storefront's HTTP client: how a failure is turned into a message, which failures count as
    a database concurrency conflict, which bearer token a request carries, and what the response
    interceptor does with a rejected request (console line, `api-error` event, dropping the session
    on 401). The transport is an oracle: the server's reply to the n-th request sent. */
module ApiClient {
  import opened Base
  import opened Text
  import opened Js

  // ---------------------------------------------------------------------------
  // Failures

  /** The body of an error response, as far as the client inspects it: nothing (undefined or null),
      a plain string, or an object whose `message` and `error` fields are read. */
  datatype ErrBody = NoBody | TextBody(s: string) | ObjBody(message: Option<string>, error: Option<string>)

  datatype Response = Response(status: int, data: ErrBody)

  /** A rejected request, or an error thrown while handling a reply: the HTTP response if one
      arrived, and the error object's own `message`. */
  datatype Failure = Failure(response: Option<Response>, message: string)

  /** The server's answer to one request: a 2xx response body, or a rejection. */
  datatype Reply = Done(data: Val) | Rejected(failure: Failure)

  /** How an awaited operation that may rethrow ends. */
  datatype Outcome = Resolved | Failed(failure: Failure)

  /** An optional string that is present and truthy (non-empty). */
  predicate Filled(o: Option<string>) {
    o.Some? && o.value != ""
  }

  function BodyOf(f: Failure): ErrBody {
    if f.response.Some? then f.response.value.data else NoBody
  }

  /** `error.response?.status || 'Unknown'`: a missing or zero status reads as "Unknown"; any
      other status is spelled so that `Number` reads it back, and without a ':'. */
  function StatusText(f: Failure): (r: string)
    ensures r == "Unknown" <==> f.response.None? || f.response.value.status == 0
    ensures r != "Unknown" ==> StringToNumber(r) == Fin(f.response.value.status as real)
    ensures forall k :: 0 <= k < |r| ==> r[k] != ':'
  {
    if f.response.Some? && f.response.value.status != 0 then
      var st := f.response.value.status;
      IntegerSpellingRoundTrip(st);
      IntegerSpellingChars(st);
      NumberToString(Fin(st as real))
    else "Unknown"
  }

  /** The message part of `extractErrorMessage`: a string body (even an empty one), else a truthy
      `message` field, else a truthy `error` field, else the error's own message, else
      "Request failed". */
  function MessageOf(f: Failure): (r: string)
    ensures BodyOf(f).TextBody? ==> r == BodyOf(f).s
    ensures BodyOf(f).ObjBody? && Filled(BodyOf(f).message) ==> r == BodyOf(f).message.value
    ensures BodyOf(f).ObjBody? && !Filled(BodyOf(f).message) && Filled(BodyOf(f).error)
            ==> r == BodyOf(f).error.value
    ensures !BodyOf(f).TextBody? && !(BodyOf(f).ObjBody? && (Filled(BodyOf(f).message) || Filled(BodyOf(f).error)))
            ==> r == (if f.message != "" then f.message else "Request failed")
  {
    match BodyOf(f)
    case TextBody(s) => s
    case ObjBody(m, e) =>
      if Filled(m) then m.value
      else if Filled(e) then e.value
      else if f.message != "" then f.message
      else "Request failed"
    case NoBody => if f.message != "" then f.message else "Request failed"
  }

  /** `extractErrorMessage(error)`: "<status>: <message>". */
  function ExtractErrorMessage(f: Failure): string {
    StatusText(f) + ": " + MessageOf(f)
  }

  /** The line is the status text, then ": ", then the message. */
  lemma ExtractErrorMessageParts(f: Failure)
    ensures var line := ExtractErrorMessage(f);
            |line| == |StatusText(f)| + 2 + |MessageOf(f)|
            && line[..|StatusText(f)|] == StatusText(f)
            && line[|StatusText(f)|] == ':' && line[|StatusText(f)| + 1] == ' '
            && line[|StatusText(f)| + 2..] == MessageOf(f)
  {
    var line := ExtractErrorMessage(f);
    assert line == (StatusText(f) + ": ") + MessageOf(f);
  }

  /** Index of the first ':' in s, or |s| when there is none. */
  function FirstColon(s: string): (i: nat)
    ensures i <= |s|
    ensures i < |s| ==> s[i] == ':'
    ensures forall k :: 0 <= k < i ==> s[k] != ':'
  {
    if s == [] then 0 else if s[0] == ':' then 0 else 1 + FirstColon(s[1..])
  }

  /** Reads a "<status>: <message>" line back into its two parts. */
  function SplitStatusLine(s: string): (string, string) {
    var i := FirstColon(s);
    if i + 2 <= |s| then (s[..i], s[i + 2..]) else (s, "")
  }

  /** The status part never contains ':', so the line splits back into exactly the status text
      and the message, whatever the message contains. */
  lemma ExtractErrorMessageSplits(f: Failure)
    ensures SplitStatusLine(ExtractErrorMessage(f)) == (StatusText(f), MessageOf(f))
  {
    var st := StatusText(f);
    var line := ExtractErrorMessage(f);
    assert line[|st|] == ':';
    assert forall k :: 0 <= k < |st| ==> line[k] == st[k];
    assert FirstColon(line) == |st|;
    assert line[..|st|] == st;
    assert line[|st| + 2..] == MessageOf(f);
  }

  const ConcurrencyMarker: string := "DbUpdateConcurrencyException"

  /** `isConcurrencyError(error)`: only a status of exactly 500 qualifies. A string body or a
      truthy `message` qualifies when it mentions DbUpdateConcurrencyException; a missing body
      qualifies outright; an empty string body and any other object do not. */
  function IsConcurrencyError(f: Failure): (r: bool)
    ensures r ==> f.response.Some? && f.response.value.status == 500
    ensures f.response.Some? && f.response.value.status == 500 ==>
              (f.response.value.data == NoBody ==> r)
              && (f.response.value.data == TextBody("") ==> !r)
              && (f.response.value.data.ObjBody? && !Filled(f.response.value.data.message) ==> !r)
    ensures f.response.Some? && f.response.value.status == 500 && f.response.value.data.TextBody? ==>
              (r <==> Contains(f.response.value.data.s, ConcurrencyMarker))
    ensures f.response.Some? && f.response.value.status == 500 && f.response.value.data.ObjBody?
            && Filled(f.response.value.data.message) ==>
              (r <==> Contains(f.response.value.data.message.value, ConcurrencyMarker))
  {
    if f.response.None? || f.response.value.status != 500 then false
    else
      match f.response.value.data
      case TextBody(s) => Contains(s, ConcurrencyMarker)
      case ObjBody(m, _) => if Filled(m) then Contains(m.value, ConcurrencyMarker) else false
      case NoBody => true
  }

  /** A conflict that carries a body shows the marker in its extracted message: the message is
      the string body or the `message` field, and that is what was searched. */
  lemma ConflictMessageMentionsMarker(f: Failure)
    requires IsConcurrencyError(f) && BodyOf(f) != NoBody
    ensures Contains(MessageOf(f), ConcurrencyMarker)
  {
    match BodyOf(f)
    case TextBody(s) =>
      assert MessageOf(f) == s;
    case ObjBody(m, _) =>
      assert Filled(m);
      assert MessageOf(f) == m.value;
  }

  /** A message that mentions the marker is a conflict exactly when the status is 500. */
  lemma MarkerDecidesAt500(f: Failure, text: string)
    requires f.response.Some? && f.response.value.data in {TextBody(text), ObjBody(Some(text), None)}
    requires Contains(text, ConcurrencyMarker)
    ensures IsConcurrencyError(f) <==> f.response.value.status == 500
  {
    if f.response.value.data == ObjBody(Some(text), None) {
      assert text != "" by {
        assert OccursAt(text, ConcurrencyMarker, 0) || exists i: nat :: OccursAt(text, ConcurrencyMarker, i);
      }
    }
  }

  // ---------------------------------------------------------------------------
  // Bearer token

  /** `localStorage.getItem(k)` read for truthiness: a missing key and an empty value are both absent. */
  function Stored(storage: map<string, string>, k: string): Option<string> {
    if k in storage && storage[k] != "" then Some(storage[k]) else None
  }

  /** The first truthy token among the stored "jwt", "access_token" and "token" keys. */
  function StoredToken(storage: map<string, string>): (r: Option<string>)
    ensures r.Some? ==> r.value != ""
    ensures r.None? <==> Stored(storage, "jwt").None? && Stored(storage, "access_token").None?
                         && Stored(storage, "token").None?
  {
    if Stored(storage, "jwt").Some? then Stored(storage, "jwt")
    else if Stored(storage, "access_token").Some? then Stored(storage, "access_token")
    else Stored(storage, "token")
  }

  /** The token the request interceptor uses: the stored token, else the build-time VITE_JWT. */
  function SelectToken(storage: map<string, string>, env: Option<string>): (r: Option<string>)
    ensures r.Some? ==> r.value != ""
    ensures StoredToken(storage).Some? ==> r == StoredToken(storage)
    ensures r.Some? && StoredToken(storage).None? ==> env == r
  {
    if StoredToken(storage).Some? then StoredToken(storage)
    else if Filled(env) then env
    else None
  }

  /** The Authorization header a request carries: "Bearer <token>" exactly when a token is chosen. */
  function AuthHeader(storage: map<string, string>, env: Option<string>): (r: Option<string>)
    ensures r.Some? <==> StoredToken(storage).Some? || Filled(env)
    ensures r.Some? ==> r.value == "Bearer " + SelectToken(storage, env).value
  {
    var t := SelectToken(storage, env);
    if t.Some? then Some("Bearer " + t.value) else None
  }

  /** The chosen token follows the order jwt, access_token, token, VITE_JWT: a key is used only
      when every key before it is missing or empty. */
  lemma TokenPrecedence(storage: map<string, string>, env: Option<string>)
    ensures "jwt" in storage && storage["jwt"] != "" ==> AuthHeader(storage, env) == Some("Bearer " + storage["jwt"])
    ensures Stored(storage, "jwt").None? && "access_token" in storage && storage["access_token"] != ""
            ==> AuthHeader(storage, env) == Some("Bearer " + storage["access_token"])
    ensures Stored(storage, "jwt").None? && Stored(storage, "access_token").None?
            && "token" in storage && storage["token"] != ""
            ==> AuthHeader(storage, env) == Some("Bearer " + storage["token"])
    ensures StoredToken(storage).None? ==>
              AuthHeader(storage, env) == (if Filled(env) then Some("Bearer " + env.value) else None)
  {
  }

  // ---------------------------------------------------------------------------
  // Requests

  /** The requests the modelled callers make. */
  datatype Call =
    | GetCart
    | AddItem(productId: string, quantity: real)
    | RemoveItem(productId: string)
    | ClearCart
    | Login(email: string, password: string)
    | Register(email: string, password: string, name: string)
    | Checkout(order: Val)

  /** The HTTP method as the client's request config holds it (lower case). */
  function MethodOf(c: Call): string {
    match c
    case GetCart => "get"
    case RemoveItem(_) => "delete"
    case _ => "post"
  }

  function UrlOf(c: Call): string {
    match c
    case GetCart => "/api/cart"
    case AddItem(_, _) => "/api/cart/items"
    case RemoveItem(id) => "/api/cart/items/" + id
    case ClearCart => "/api/cart/clear"
    case Login(_, _) => "/api/auth/login"
    case Register(_, _, _) => "/api/auth/register"
    case Checkout(_) => "/api/orders/checkout"
  }

  /** A request as it leaves the client: the call and the Authorization header, if any. */
  datatype Request = Request(call: Call, authorization: Option<string>)

  // ---------------------------------------------------------------------------
  // Response interceptor

  /** What the response interceptor does with a rejection. */
  datatype Reaction = Reaction(logged: bool, broadcast: bool, dropsSession: bool)

  const CartItemsPath: string := "/api/cart/items"

  /** The concurrency failure of an add-to-cart request, which the cart handles itself. */
  predicate IsCartAddConcurrency(c: Call, f: Failure) {
    Contains(UrlOf(c), CartItemsPath) && Lower(MethodOf(c)) == "post" && IsConcurrencyError(f)
  }

  function ReactionTo(c: Call, f: Failure): (r: Reaction)
    ensures r.logged <==> !IsConcurrencyError(f)
    ensures r.logged ==> r.broadcast
    ensures !r.broadcast ==> IsConcurrencyError(f)
    ensures r.dropsSession <==> f.response.Some? && f.response.value.status == 401
  {
    var cartAdd := IsCartAddConcurrency(c, f);
    Reaction(!cartAdd && !IsConcurrencyError(f), !cartAdd,
             f.response.Some? && f.response.value.status == 401)
  }

  /** Every failure is broadcast as an `api-error` event except the concurrency failure of an
      add-to-cart request; no concurrency failure is written to the console; and only a 401
      drops the stored session. */
  lemma ReactionRules(c: Call, f: Failure)
    ensures !ReactionTo(c, f).broadcast <==> c.AddItem? && IsConcurrencyError(f)
    ensures ReactionTo(c, f).logged <==> !IsConcurrencyError(f)
    ensures ReactionTo(c, f).logged ==> ReactionTo(c, f).broadcast
    ensures ReactionTo(c, f).dropsSession <==> f.response.Some? && f.response.value.status == 401
  {
    CartAddOnlyForAddItem(c);
  }

  /** Among the modelled calls, only AddItem is a POST whose URL contains "/api/cart/items". */
  lemma CartAddOnlyForAddItem(c: Call)
    ensures Contains(UrlOf(c), CartItemsPath) && Lower(MethodOf(c)) == "post" <==> c.AddItem?
  {
    LowerOfLowercase(MethodOf(c));
    if c.AddItem? {
      assert OccursAt(UrlOf(c), CartItemsPath, 0);
    } else if MethodOf(c) == "post" {
      OtherPostsMissCartItems(c);
    }
  }

  lemma OtherPostsMissCartItems(c: Call)
    requires MethodOf(c) == "post" && !c.AddItem?
    ensures !Contains(UrlOf(c), CartItemsPath)
  {
    match c
    case ClearCart =>
      NotAt("/api/cart/clear", 0, 10);
      OnlyAt("/api/cart/clear");
    case Login(_, _) =>
      NotAt("/api/auth/login", 0, 5);
      OnlyAt("/api/auth/login");
    case Register(_, _, _) =>
      RegisterMissesCartItems();
    case Checkout(_) =>
      CheckoutMissesCartItems();
  }

  lemma RegisterMissesCartItems()
    ensures !Contains("/api/auth/register", CartItemsPath)
  {
    var s := "/api/auth/register";
    forall i: nat | i + |CartItemsPath| <= |s|
      ensures !OccursAt(s, CartItemsPath, i)
    {
      if i == 0 {
        NotAt(s, 0, 5);
      } else {
        NotAt(s, i, 1);
      }
    }
    OnlyAt(s);
  }

  lemma CheckoutMissesCartItems()
    ensures !Contains("/api/orders/checkout", CartItemsPath)
  {
    var s := "/api/orders/checkout";
    forall i: nat | i + |CartItemsPath| <= |s|
      ensures !OccursAt(s, CartItemsPath, i)
    {
      if i == 0 {
        NotAt(s, 0, 5);
      } else if i == 4 {
        NotAt(s, 4, 1);
      } else {
        NotAt(s, i, 0);
      }
    }
    OnlyAt(s);
  }

  /** The cart-items path does not start at position i of s, witnessed by a mismatch at offset k. */
  lemma NotAt(s: string, i: nat, k: nat)
    requires i + |CartItemsPath| <= |s| && k < |CartItemsPath| && s[i + k] != CartItemsPath[k]
    ensures !OccursAt(s, CartItemsPath, i)
  {
    assert s[i..i + |CartItemsPath|][k] == s[i + k];
  }

  /** When no start position with room for the path holds it, s does not contain the path. */
  lemma OnlyAt(s: string)
    requires forall i: nat :: i + |CartItemsPath| <= |s| ==> !OccursAt(s, CartItemsPath, i)
    ensures !Contains(s, CartItemsPath)
  {
  }

  lemma LowerOfLowercase(s: string)
    requires forall i :: 0 <= i < |s| ==> !('A' <= s[i] <= 'Z')
    ensures Lower(s) == s
  {
  }

  /** The console line the interceptor writes for a logged failure. */
  function ConsoleLine(c: Call, f: Failure): (r: string)
    ensures |r| >= 11 && r[..11] == "API Error: "
    ensures |r| >= |ExtractErrorMessage(f)| && r[|r| - |ExtractErrorMessage(f)|..] == ExtractErrorMessage(f)
  {
    "API Error: " + Upper(MethodOf(c)) + " " + UrlOf(c) + " - " + ExtractErrorMessage(f)
  }

  // ---------------------------------------------------------------------------
  // The browser around the client

  datatype ToastKind = Success | Error

  /** A toast notification (`showToast(message, type)`). */
  datatype Toast = Toast(message: string, kind: ToastKind)

  /** Everything outside the page that the modelled code touches: `localStorage`, the requests
      sent, the `api-error` events dispatched (their `detail.message`), the interceptor's console
      errors, the toasts shown and the routes navigated to. */
  datatype BrowserState = BrowserState(
    storage: map<string, string>,
    sent: seq<Request>,
    events: seq<string>,
    consoleErrors: seq<string>,
    toasts: seq<Toast>,
    visited: seq<string>)

  /** `localStorage` after the 401 branch: exactly "jwt" and "user" go, every other key keeps its value. */
  function DropSession(storage: map<string, string>): (r: map<string, string>)
    ensures "jwt" !in r && "user" !in r
    ensures forall k :: k != "jwt" && k != "user" ==>
              (k in r <==> k in storage) && (k in r ==> r[k] == storage[k])
  {
    storage - {"jwt", "user"}
  }

  /** The interceptor's effects on the browser for a rejected request. */
  function AfterRejection(st: BrowserState, c: Call, f: Failure): (r: BrowserState)
    ensures r.sent == st.sent && r.toasts == st.toasts && r.visited == st.visited
  {
    var how := ReactionTo(c, f);
    st.(events := st.events + (if how.broadcast then [ExtractErrorMessage(f)] else []),
        consoleErrors := st.consoleErrors + (if how.logged then [ConsoleLine(c, f)] else []),
        storage := if how.dropsSession then DropSession(st.storage) else st.storage)
  }

  /** The browser holding the client: its state changes as requests go out and toasts and
      navigation happen; the build-time VITE_JWT and the server are fixed. */
  class Browser {
    var st: BrowserState
    const env: Option<string>
    /** The server's reply to the n-th request the browser sends. */
    const server: (nat, Request) -> Reply

    constructor(storage: map<string, string>, env: Option<string>, server: (nat, Request) -> Reply)
      ensures st == BrowserState(storage, [], [], [], [], [])
      ensures this.env == env && this.server == server
    {
      st := BrowserState(storage, [], [], [], [], []);
      this.env := env;
      this.server := server;
    }

    /** Sends one request through both interceptors. */
    method Send(c: Call) returns (r: Reply)
      modifies this
      ensures (st, r) == Exchange(this, old(st), c)
    {
      var req := Request(c, AuthHeader(st.storage, env));
      r := server(|st.sent|, req);
      st := st.(sent := st.sent + [req]);
      if r.Rejected? {
        st := AfterRejection(st, c, r.failure);
      }
    }

    /** `showToast(message, kind)` */
    method ShowToast(t: Toast)
      modifies this
      ensures st == old(st).(toasts := old(st.toasts) + [t])
    {
      st := st.(toasts := st.toasts + [t]);
    }

    /** `navigate(path)` */
    method Navigate(path: string)
      modifies this
      ensures st == old(st).(visited := old(st.visited) + [path])
    {
      st := st.(visited := st.visited + [path]);
    }

    /** `localStorage.setItem(k, v)` */
    method SetItem(k: string, v: string)
      modifies this
      ensures st == old(st).(storage := old(st.storage)[k := v])
    {
      st := st.(storage := st.storage[k := v]);
    }

    /** `localStorage.removeItem(k)` for each key given. */
    method RemoveItems(ks: set<string>)
      modifies this
      ensures st == old(st).(storage := old(st.storage) - ks)
    {
      st := st.(storage := st.storage - ks);
    }
  }

  /** One round trip: the request carries the header chosen from the storage as it is when the
      request leaves; a rejection then goes through the response interceptor. */
  function Exchange(b: Browser, st: BrowserState, c: Call): (r: (BrowserState, Reply))
    ensures r.1 == b.server(|st.sent|, Request(c, AuthHeader(st.storage, b.env)))
    ensures r.0.sent == st.sent + [Request(c, AuthHeader(st.storage, b.env))]
    ensures r.0.toasts == st.toasts && r.0.visited == st.visited
    ensures r.1.Done? ==> r.0 == st.(sent := r.0.sent)
    ensures r.1.Rejected? ==> r.0 == AfterRejection(st.(sent := r.0.sent), c, r.1.failure)
  {
    var req := Request(c, AuthHeader(st.storage, b.env));
    var reply := b.server(|st.sent|, req);
    var st1 := st.(sent := st.sent + [req]);
    (if reply.Rejected? then AfterRejection(st1, c, reply.failure) else st1, reply)
  }
}
