/** The cart synchroniser: the client-side cart state, refreshed from the server after every
    change. Each operation calls the server through `cartAPI` and then refetches; the state it
    exposes keeps `count` equal to the sum of the item quantities. */
module CartSync {
  import opened Base
  import opened Js
  import opened ApiClient
  import opened Services

  datatype CartProduct = CartProduct(
    id: string, name: Val, description: Val, price: Number, imageUrl: Val, category: Val, stock: Number)

  datatype CartItem = CartItem(product: CartProduct, quantity: Number, lineTotal: Number)

  datatype CartState = CartState(
    items: seq<CartItem>, total: Number, count: Number, loading: bool, error: Option<string>)

  /** The state of a signed-out cart, and the initial state. */
  const EmptyCart: CartState := CartState([], Fin(0.0), Fin(0.0), false, None)

  /** One cart line as the synchroniser normalises it: numbers coerced with `Number`, each field
      taken from the first of its sources that is not null or undefined, else a default. The price
      comes from the item, its product, then `unitPrice`; the name from the item, its product, the
      item's title, then the product's title; the id from `productId`, then `id`. */
  function NormalizeCartItem(item: Val): (r: CartItem)
    ensures r.product.price ==
            ToNumber(CoalesceAll([Get(item, "price"), Get(ProductOf(item), "price"), Get(item, "unitPrice")], NumVal(0.0)))
    ensures r.product.name ==
            CoalesceAll([Get(item, "name"), Get(ProductOf(item), "name"), Get(item, "title"), Get(ProductOf(item), "title")],
                        Str(UnknownProduct))
    ensures r.product.id == ToJsString(CoalesceAll([Get(item, "productId"), Get(item, "id")], Str("")))
    ensures r.quantity == (if Nullish(Get(item, "quantity")) then Fin(1.0) else ToNumber(Get(item, "quantity")))
    ensures r.lineTotal ==
            (if Nullish(Get(item, "lineTotal")) then Mul(r.product.price, r.quantity) else ToNumber(Get(item, "lineTotal")))
    ensures r.product.description == CoalesceAll([Get(item, "description"), Get(ProductOf(item), "description")], Str(""))
    ensures r.product.imageUrl == CoalesceAll([Get(item, "imageUrl"), Get(ProductOf(item), "imageUrl")], Str(""))
    ensures r.product.category == CoalesceAll([Get(item, "category"), Get(ProductOf(item), "category")], Str(""))
    ensures r.product.stock ==
            ToNumber(CoalesceAll([Get(item, "stock"), Get(ProductOf(item), "stock")], NumVal(0.0)))
    ensures !Nullish(r.product.name)
  {
    var p := Get(item, "product");
    CoalesceChain3(Get(item, "price"), Get(p, "price"), Get(item, "unitPrice"), NumVal(0.0));
    CoalesceChain4(Get(item, "name"), Get(p, "name"), Get(item, "title"), Get(p, "title"), Str(UnknownProduct));
    CoalesceChain2(Get(item, "productId"), Get(item, "id"), Str(""));
    CoalesceChain2(Get(item, "description"), Get(p, "description"), Str(""));
    CoalesceChain2(Get(item, "imageUrl"), Get(p, "imageUrl"), Str(""));
    CoalesceChain2(Get(item, "category"), Get(p, "category"), Str(""));
    CoalesceChain2(Get(item, "stock"), Get(p, "stock"), NumVal(0.0));
    var price := ToNumber(Coalesce(Coalesce(Coalesce(Get(item, "price"), Get(p, "price")),
                                            Get(item, "unitPrice")), NumVal(0.0)));
    var qty := ToNumber(Coalesce(Get(item, "quantity"), NumVal(1.0)));
    var lineTotal := ToNumber(Coalesce(Get(item, "lineTotal"), Num(Mul(price, qty))));
    var name := Coalesce(Coalesce(Coalesce(Coalesce(Get(item, "name"), Get(p, "name")),
                                           Get(item, "title")), Get(p, "title")), Str(UnknownProduct));
    var product := CartProduct(
      ToJsString(Coalesce(Coalesce(Get(item, "productId"), Get(item, "id")), Str(""))),
      name,
      Coalesce(Coalesce(Get(item, "description"), Get(p, "description")), Str("")),
      price,
      Coalesce(Coalesce(Get(item, "imageUrl"), Get(p, "imageUrl")), Str("")),
      Coalesce(Coalesce(Get(item, "category"), Get(p, "category")), Str("")),
      ToNumber(Coalesce(Coalesce(Get(item, "stock"), Get(p, "stock")), NumVal(0.0))));
    CartItem(product, qty, lineTotal)
  }

  /** An item with none of the fields gets every default: no id, "Unknown Product", price 0,
      quantity 1, so a line total of 0. */
  lemma EmptyItemDefaults(item: Val)
    requires item == Null || item == Undefined || item == EmptyObj
    ensures NormalizeCartItem(item) ==
            CartItem(CartProduct("", Str(UnknownProduct), Str(""), Fin(0.0), Str(""), Str(""), Fin(0.0)),
                     Fin(1.0), Fin(0.0))
  {
  }

  /** `items.reduce((s, ci) => s + Number(ci.quantity), 0)` */
  function SumQuantities(items: seq<CartItem>): Number {
    if items == [] then Fin(0.0)
    else Add(SumQuantities(items[..|items| - 1]), items[|items| - 1].quantity)
  }

  /** `items.reduce((sum, ci) => sum + Number(ci.product.price) * Number(ci.quantity), 0)` */
  function SumLineValues(items: seq<CartItem>): Number {
    if items == [] then Fin(0.0)
    else Add(SumLineValues(items[..|items| - 1]), Mul(items[|items| - 1].product.price, items[|items| - 1].quantity))
  }

  /** The sum is a number unless some quantity is NaN. */
  lemma {:induction false} SumQuantitiesFinite(items: seq<CartItem>)
    ensures SumQuantities(items).Fin? <==> forall i :: 0 <= i < |items| ==> items[i].quantity.Fin?
  {
    if items != [] {
      SumQuantitiesFinite(items[..|items| - 1]);
      assert forall i :: 0 <= i < |items| - 1 ==> items[..|items| - 1][i] == items[i];
    }
  }

  /** Non-negative number quantities add up to a non-negative number. */
  lemma {:induction false} SumQuantitiesNonNegative(items: seq<CartItem>)
    requires forall i :: 0 <= i < |items| ==> items[i].quantity.Fin? && items[i].quantity.r >= 0.0
    ensures SumQuantities(items).Fin? && SumQuantities(items).r >= 0.0
  {
    if items != [] {
      SumQuantitiesNonNegative(items[..|items| - 1]);
    }
  }

  /** With every quantity 1, the count is the number of lines. */
  lemma {:induction false} SumQuantitiesCountsUnits(items: seq<CartItem>)
    requires forall i :: 0 <= i < |items| ==> items[i].quantity == Fin(1.0)
    ensures SumQuantities(items) == Fin(|items| as real)
  {
    if items != [] {
      SumQuantitiesCountsUnits(items[..|items| - 1]);
    }
  }

  /** The fallback total is a number exactly when every price and quantity is one, and is
      non-negative when they all are. */
  lemma {:induction false} SumLineValuesSign(items: seq<CartItem>)
    ensures SumLineValues(items).Fin? <==>
            forall i :: 0 <= i < |items| ==> items[i].product.price.Fin? && items[i].quantity.Fin?
    ensures (forall i :: 0 <= i < |items| ==>
               items[i].product.price.Fin? && items[i].product.price.r >= 0.0
               && items[i].quantity.Fin? && items[i].quantity.r >= 0.0)
            ==> SumLineValues(items).Fin? && SumLineValues(items).r >= 0.0
  {
    if items != [] {
      var init := items[..|items| - 1];
      SumLineValuesSign(init);
      assert forall i :: 0 <= i < |init| ==> init[i] == items[i];
      var last := items[|items| - 1];
      if last.product.price.Fin? && last.product.price.r >= 0.0 && last.quantity.Fin? && last.quantity.r >= 0.0 {
        assert last.product.price.r * last.quantity.r >= 0.0;
      }
    }
  }

  /** The `items` array the synchroniser reads from what `cartAPI.get` resolved to. */
  function ItemsOf(data: Val): seq<Val> {
    if Get(data, "items").Arr? then Get(data, "items").elems else []
  }

  /** The state after a successful fetch: the items normalised one for one, in order; `count` the
      sum of their quantities; `total` the server's total when it is a number, else the sum of
      price times quantity; not loading and no error. */
  function Loaded(data: Val): (r: CartState)
    ensures |r.items| == |ItemsOf(data)|
    ensures forall i :: 0 <= i < |r.items| ==> r.items[i] == NormalizeCartItem(ItemsOf(data)[i])
    ensures r.count == SumQuantities(r.items)
    ensures r.total == if Get(data, "total").Num? then Get(data, "total").n else SumLineValues(r.items)
    ensures !r.loading && r.error.None?
  {
    var raw := ItemsOf(data);
    var items := seq(|raw|, i requires 0 <= i < |raw| => NormalizeCartItem(raw[i]));
    var total := if Get(data, "total").Num? then Get(data, "total").n else SumLineValues(items);
    CartState(items, total, SumQuantities(items), false, None)
  }

  /** The synchroniser's invariant: the count is the sum of the item quantities. */
  predicate Consistent(s: CartState) {
    s.count == SumQuantities(s.items)
  }

  /** What `refreshCart` does to the cart and the browser. Signed out: the empty cart, no request.
      Signed in: one `GET /api/cart`; on success the loaded state, on failure the old items, total
      and count with `loading` false and the extracted message as the error. */
  function Refresh(auth: bool, s: CartState, b: Browser, st: BrowserState): (r: (CartState, BrowserState))
    ensures !auth ==> r == (EmptyCart, st)
    ensures auth ==> r.1 == Exchange(b, st, GetCart).0
    ensures auth && FetchCart(b, st).1.Ok? ==> r.0 == Loaded(FetchCart(b, st).1.value)
    ensures auth && FetchCart(b, st).1.Err? ==>
              r.0 == s.(loading := false, error := Some(ExtractErrorMessage(FetchCart(b, st).1.error)))
  {
    if !auth then (EmptyCart, st)
    else
      var (st1, res) := FetchCart(b, st);
      (if res.Ok? then Loaded(res.value)
       else s.(loading := false, error := Some(ExtractErrorMessage(res.error))), st1)
  }

  /** Every refresh keeps the count equal to the sum of the quantities, and a failed one keeps
      the items, total and count it had. */
  lemma RefreshKeepsConsistent(auth: bool, s: CartState, b: Browser, st: BrowserState)
    requires Consistent(s)
    ensures Consistent(Refresh(auth, s, b, st).0)
    ensures auth && FetchCart(b, st).1.Err? ==>
              var s' := Refresh(auth, s, b, st).0;
              s'.items == s.items && s'.total == s.total && s'.count == s.count && !s'.loading
  {
  }

  /** What `removeFromCart` does: one DELETE; on failure its message is stored first; a refresh
      follows either way. */
  function Remove(auth: bool, s: CartState, b: Browser, st: BrowserState, productId: string): (r: (CartState, BrowserState))
    ensures CallsSince(st, r.1) == [RemoveItem(productId)] + RefreshCalls(auth)
    ensures Consistent(s) ==> Consistent(r.0)
    ensures !auth ==> r.0 == EmptyCart
    ensures var st1 := Exchange(b, st, RemoveItem(productId)).0;
            auth && FetchCart(b, st1).1.Ok? ==> r.0 == Loaded(FetchCart(b, st1).1.value)
  {
    var (st1, reply) := Exchange(b, st, RemoveItem(productId));
    var s1 := if reply.Done? then s else s.(error := Some(ExtractErrorMessage(reply.failure)));
    ExchangeThenRefreshSends(RemoveItem(productId), auth, s1, b, st);
    Refresh(auth, s1, b, st1)
  }

  /** A failed removal's own message never survives the refresh that follows: signed out, the
      cart is emptied; a successful refresh clears the error; a failed one replaces it with the
      refresh's message. */
  lemma RemoveErrorClearedByRefresh(auth: bool, s: CartState, b: Browser, st: BrowserState, productId: string)
    ensures var st1 := Exchange(b, st, RemoveItem(productId)).0;
            (!auth || FetchCart(b, st1).1.Ok?) ==> Remove(auth, s, b, st, productId).0.error.None?
    ensures var (st1, reply) := Exchange(b, st, RemoveItem(productId));
            auth && reply.Rejected? && FetchCart(b, st1).1.Err? ==>
              Remove(auth, s, b, st, productId).0.error == Some(ExtractErrorMessage(FetchCart(b, st1).1.error))
  {
  }

  /** The request calls sent between two browser states. */
  function CallsSince(before: BrowserState, after: BrowserState): seq<Call> {
    if |before.sent| <= |after.sent| then
      seq(|after.sent| - |before.sent|, i requires 0 <= i < |after.sent| - |before.sent| => after.sent[|before.sent| + i].call)
    else []
  }

  /** The requests a refresh sends: one GET when signed in, none otherwise. */
  function RefreshCalls(auth: bool): seq<Call> {
    if auth then [GetCart] else []
  }

  lemma RefreshSends(auth: bool, s: CartState, b: Browser, st: BrowserState)
    ensures CallsSince(st, Refresh(auth, s, b, st).1) == RefreshCalls(auth)
  {
  }

  lemma ExchangeThenRefreshSends(c: Call, auth: bool, s: CartState, b: Browser, st: BrowserState)
    ensures var st1 := Exchange(b, st, c).0;
            CallsSince(st, Refresh(auth, s, b, st1).1) == [c] + RefreshCalls(auth)
  {
    var st1 := Exchange(b, st, c).0;
    RefreshSends(auth, s, b, st1);
    var st2 := Refresh(auth, s, b, st1).1;
    assert |st1.sent| == |st.sent| + 1;
    assert CallsSince(st, st2) == [c] + CallsSince(st1, st2);
  }

  // ---------------------------------------------------------------------------
  // The two normalisations composed

  /** An item as the service normalised it and the synchroniser then read it: the quantity is
      the item's number quantity or 1, the price the service's price, the line total the
      service's line total, and the name never falls through to a title field. */
  lemma ComposedItem(item: Val)
    ensures var ci := NormalizeCartItem(NormalizeItem(item));
            ci.quantity == (if Get(item, "quantity").Num? then Get(item, "quantity").n else Fin(1.0))
            && ci.product.price == ToNumber(ApiPrice(item))
            && ci.lineTotal == ToNumber(ApiLineTotal(item))
            && ci.product.name == Or(Or(Get(item, "name"), Get(ProductOf(item), "name")), Str(UnknownProduct))
  {
    var n := NormalizeItem(item);
    ServiceItemFields(item);
    var ci := NormalizeCartItem(n);
    assert ci.quantity == ToNumber(Coalesce(Get(n, "quantity"), NumVal(1.0)));
    assert ci.product.price == ToNumber(Coalesce(Coalesce(Coalesce(Get(n, "price"), Get(Get(n, "product"), "price")),
                                            Get(n, "unitPrice")), NumVal(0.0)));
    assert ci.lineTotal == ToNumber(Coalesce(Get(n, "lineTotal"), Num(Mul(ci.product.price, ci.quantity))));
  }

  /** The fields of the service's item, read back. */
  lemma ServiceItemFields(item: Val)
    ensures var n := NormalizeItem(item);
            Get(n, "quantity") == ApiQuantity(item) && Get(n, "price") == ApiPrice(item)
            && Get(n, "lineTotal") == ApiLineTotal(item)
            && Get(n, "name") == Or(Or(Get(item, "name"), Get(ProductOf(item), "name")), Str(UnknownProduct))
            && Get(n, "productId") == Or(Get(item, "productId"), Get(item, "id"))
            && !Nullish(ApiPrice(item)) && !Nullish(ApiLineTotal(item)) && !Nullish(Get(n, "name"))
  {
  }

  /** Since the service turns a missing or non-number total into 0, the synchroniser's own
      fallback (the sum of price times quantity) never runs: the total is the server's number
      total, or 0. */
  lemma ComposedTotal(data: Val)
    requires NormalizeCart(data).Ok?
    ensures Loaded(NormalizeCart(data).value).total ==
            (if Get(Or(data, EmptyObj), "total").Num? then Get(Or(data, EmptyObj), "total").n else Fin(0.0))
    ensures |Loaded(NormalizeCart(data).value).items| == |RawItems(data)|
  {
  }

  const ScenarioItem: Val := Obj(map["productId" := Str("7"), "price" := NumVal(199.99), "quantity" := NumVal(2.0)])
  const ScenarioReply: Val := Obj(map["items" := Arr([ScenarioItem]), "total" := NumVal(399.98)])

  /** The line of the scenario's single item: id "7", price 199.99, quantity 2, line total 399.98. */
  lemma ScenarioLine()
    ensures var ci := NormalizeCartItem(NormalizeItem(ScenarioItem));
            ci.quantity == Fin(2.0) && ci.product.price == Fin(199.99) && ci.lineTotal == Fin(399.98)
            && ci.product.id == "7"
  {
    assert Get(ScenarioItem, "price") == NumVal(199.99) && Get(ScenarioItem, "quantity") == NumVal(2.0);
    assert Get(ScenarioItem, "lineTotal") == Undefined && Get(ScenarioItem, "productId") == Str("7");
    assert ApiPrice(ScenarioItem) == NumVal(199.99);
    assert Mul(Fin(199.99), Fin(2.0)) == Fin(399.98);
    assert ApiLineTotal(ScenarioItem) == NumVal(399.98);
    ComposedItem(ScenarioItem);
    ServiceItemFields(ScenarioItem);
    var n := NormalizeItem(ScenarioItem);
    assert Get(n, "productId") == Str("7");
  }

  lemma ScenarioCart()
    ensures NormalizeCart(ScenarioReply).Ok?
    ensures ItemsOf(NormalizeCart(ScenarioReply).value) == [NormalizeItem(ScenarioItem)]
    ensures Get(NormalizeCart(ScenarioReply).value, "total") == NumVal(399.98)
  {
    assert RawItems(ScenarioReply) == [ScenarioItem];
  }

  /** A signed-in refresh whose reply lists one item of price 199.99 and quantity 2 with a total of
      399.98 leaves one line, a count of 2 and a total of 399.98. */
  lemma RefreshScenario(s: CartState, b: Browser, st: BrowserState)
    requires b.server(|st.sent|, Request(GetCart, AuthHeader(st.storage, b.env))) == Done(ScenarioReply)
    ensures var s' := Refresh(true, s, b, st).0;
            |s'.items| == 1 && s'.count == Fin(2.0) && s'.total == Fin(399.98)
            && s'.items[0].lineTotal == Fin(399.98) && s'.items[0].product.id == "7"
            && s'.error.None? && !s'.loading
  {
    ScenarioCart();
    assert FetchCart(b, st).1 == NormalizeCart(ScenarioReply);
    LoadedScenario();
  }

  /** The cart loaded from the scenario's normalised reply. */
  lemma LoadedScenario()
    requires NormalizeCart(ScenarioReply).Ok?
    ensures var l := Loaded(NormalizeCart(ScenarioReply).value);
            |l.items| == 1 && l.count == Fin(2.0) && l.total == Fin(399.98)
            && l.items[0].lineTotal == Fin(399.98) && l.items[0].product.id == "7"
            && l.error.None? && !l.loading
  {
    ScenarioCart();
    ScenarioLine();
    var v := NormalizeCart(ScenarioReply).value;
    LoadedOfOne(v, NormalizeItem(ScenarioItem));
    assert Add(Fin(0.0), Fin(2.0)) == Fin(2.0);
  }

  /** A reply of one item and a number total loads as that one line. */
  lemma LoadedOfOne(data: Val, item: Val)
    requires ItemsOf(data) == [item] && Get(data, "total").Num?
    ensures var l := Loaded(data);
            l.items == [NormalizeCartItem(item)] && l.total == Get(data, "total").n
            && l.count == Add(Fin(0.0), NormalizeCartItem(item).quantity)
  {
    var l := Loaded(data);
    var ci := NormalizeCartItem(item);
    assert |l.items| == 1 && l.items[0] == ci;
    assert l.items == [ci];
    SumOfOne(ci);
  }

  lemma SumOfOne(ci: CartItem)
    ensures SumQuantities([ci]) == Add(Fin(0.0), ci.quantity)
  {
    assert [ci][..0] == [];
  }

  /** The cart provider: the cart state, the session flag it reads, and the browser it talks
      through. `refreshes` counts the refreshes run. */
  class CartSynchronizer {
    var state: CartState
    var isAuthenticated: bool
    ghost var refreshes: nat
    const browser: Browser

    predicate Valid()
      reads this
    {
      Consistent(state)
    }

    constructor(browser: Browser)
      ensures state == EmptyCart && !isAuthenticated && refreshes == 0
      ensures this.browser == browser
      ensures Valid()
    {
      state := EmptyCart;
      isAuthenticated := false;
      refreshes := 0;
      this.browser := browser;
    }

    /** `getTotalItems()`: with the invariant, the sum of the item quantities. */
    function TotalItems(): (n: Number)
      requires Valid()
      reads this
      ensures n == SumQuantities(state.items)
    {
      state.count
    }

    /** `getTotalPrice()` */
    function TotalPrice(): Number
      reads this
    {
      state.total
    }

    /** `refreshCart()` */
    method RefreshCart()
      requires Valid()
      modifies this, browser
      ensures (state, browser.st) == Refresh(isAuthenticated, old(state), browser, old(browser.st))
      ensures isAuthenticated == old(isAuthenticated) && refreshes == old(refreshes) + 1
      ensures CallsSince(old(browser.st), browser.st) == RefreshCalls(isAuthenticated)
      ensures Valid()
    {
      RefreshKeepsConsistent(isAuthenticated, state, browser, browser.st);
      RefreshSends(isAuthenticated, state, browser, browser.st);
      refreshes := refreshes + 1;
      if !isAuthenticated {
        state := EmptyCart;
        return;
      }
      state := state.(loading := true, error := None);
      var res := GetCartData(browser);
      if res.Ok? {
        state := Loaded(res.value);
      } else {
        state := state.(loading := false, error := Some(ExtractErrorMessage(res.error)));
      }
    }

    /** The session changed: with the session settled, the cart refetches. */
    method OnAuthChange(authenticated: bool, authLoading: bool)
      requires Valid()
      modifies this, browser
      ensures isAuthenticated == authenticated
      ensures authLoading ==> state == old(state) && browser.st == old(browser.st) && refreshes == old(refreshes)
      ensures !authLoading ==> (state, browser.st) == Refresh(authenticated, old(state), browser, old(browser.st))
                               && refreshes == old(refreshes) + 1
      ensures Valid()
    {
      isAuthenticated := authenticated;
      if !authLoading {
        RefreshCart();
      }
    }

    /** `addToCart(productId, quantity)`: adds the clamped quantity, then refreshes. A concurrency
        conflict is treated as success (refresh, resolve); any other failure stores its message,
        skips the refresh and rethrows. */
    method AddToCart(productId: string, quantity: Number) returns (r: Outcome)
      requires Valid()
      modifies this, browser
      ensures isAuthenticated == old(isAuthenticated) && Valid()
      ensures var (st1, reply) := Exchange(browser, old(browser.st), AddItem(productId, ClampQuantity(quantity)));
              if reply.Done? || IsConcurrencyError(reply.failure) then
                r == Resolved && refreshes == old(refreshes) + 1
                && (state, browser.st) == Refresh(isAuthenticated, old(state), browser, st1)
                && CallsSince(old(browser.st), browser.st) == [AddItem(productId, ClampQuantity(quantity))] + RefreshCalls(isAuthenticated)
              else
                r == Failed(reply.failure) && refreshes == old(refreshes)
                && state == old(state).(error := Some(ExtractErrorMessage(reply.failure))) && browser.st == st1
    {
      var safe := ClampQuantity(quantity);
      ClampIdempotent(quantity);
      ExchangeThenRefreshSends(AddItem(productId, safe), isAuthenticated, state, browser, browser.st);
      var res := AddCartItem(browser, productId, Fin(safe));
      if res.Ok? {
        RefreshCart();
        r := Resolved;
      } else if IsConcurrencyError(res.error) {
        RefreshCart();
        r := Resolved;
      } else {
        state := state.(error := Some(ExtractErrorMessage(res.error)));
        r := Failed(res.error);
      }
    }

    /** `removeFromCart(productId)`: never rethrows; refreshes on both paths. */
    method RemoveFromCart(productId: string)
      requires Valid()
      modifies this, browser
      ensures isAuthenticated == old(isAuthenticated) && Valid()
      ensures (state, browser.st) == Remove(isAuthenticated, old(state), browser, old(browser.st), productId)
      ensures refreshes == old(refreshes) + 1
      ensures CallsSince(old(browser.st), browser.st) == [RemoveItem(productId)] + RefreshCalls(isAuthenticated)
    {
      ExchangeThenRefreshSends(RemoveItem(productId), isAuthenticated, state, browser, browser.st);
      var res := RemoveCartItem(browser, productId);
      if res.Ok? {
        RefreshCart();
      } else {
        state := state.(error := Some(ExtractErrorMessage(res.error)));
        ExchangeThenRefreshSends(RemoveItem(productId), isAuthenticated, state, browser, old(browser.st));
        RefreshCart();
      }
    }

    /** `updateQuantity(productId, quantity)`: a quantity of at most 0 is exactly a removal.
        Otherwise remove, add, refresh in that order; the first failure is rethrown without
        touching the error field and without a refresh. */
    method UpdateQuantity(productId: string, quantity: Number) returns (r: Outcome)
      requires Valid()
      modifies this, browser
      ensures isAuthenticated == old(isAuthenticated) && Valid()
      ensures LessEq(quantity, Fin(0.0)) ==>
                r == Resolved && refreshes == old(refreshes) + 1
                && (state, browser.st) == Remove(isAuthenticated, old(state), browser, old(browser.st), productId)
      ensures !LessEq(quantity, Fin(0.0)) ==>
                var (st1, reply1) := Exchange(browser, old(browser.st), RemoveItem(productId));
                var (st2, reply2) := Exchange(browser, st1, AddItem(productId, ClampQuantity(quantity)));
                if reply1.Rejected? then
                  r == Failed(reply1.failure) && state == old(state) && browser.st == st1 && refreshes == old(refreshes)
                else if reply2.Rejected? then
                  r == Failed(reply2.failure) && state == old(state) && browser.st == st2 && refreshes == old(refreshes)
                else
                  r == Resolved && refreshes == old(refreshes) + 1
                  && (state, browser.st) == Refresh(isAuthenticated, old(state), browser, st2)
    {
      if LessEq(quantity, Fin(0.0)) {
        RemoveFromCart(productId);
        return Resolved;
      }
      var res := RemoveCartItem(browser, productId);
      if res.Err? {
        return Failed(res.error);
      }
      res := AddCartItem(browser, productId, quantity);
      if res.Err? {
        return Failed(res.error);
      }
      RefreshCart();
      r := Resolved;
    }

    /** `clearCart()`: clear, then refresh; a failure of the clear is rethrown without a refresh. */
    method ClearCart() returns (r: Outcome)
      requires Valid()
      modifies this, browser
      ensures isAuthenticated == old(isAuthenticated) && Valid()
      ensures var (st1, reply) := Exchange(browser, old(browser.st), ApiClient.ClearCart);
              if reply.Rejected? then
                r == Failed(reply.failure) && state == old(state) && browser.st == st1 && refreshes == old(refreshes)
              else
                r == Resolved && refreshes == old(refreshes) + 1
                && (state, browser.st) == Refresh(isAuthenticated, old(state), browser, st1)
    {
      var res := ClearCartItems(browser);
      if res.Err? {
        return Failed(res.error);
      }
      RefreshCart();
      r := Resolved;
    }
  }
}
