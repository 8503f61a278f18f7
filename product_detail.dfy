/** The product page: the lookup of the product named by the route, the quantity selector, and
    the add-to-cart handler with its guards, quantity clamp and `isAdding` flag. The product list
    arrives as an input: the list the server returned, or nothing when the call failed. */
module ProductDetailView {
  import opened Base
  import opened Js
  import opened ApiClient
  import opened Services
  import opened CartSync
  import opened AuthUtils
  import opened AddFeedback

  /** `p.id === id`: strict equality, so a numeric id never matches the route's string. */
  predicate HasId(p: Val, id: string) {
    Get(p, "id") == Str(id)
  }

  /** `products.find(p => p.id === id)`, as the position of the first match. */
  function FindIndex(products: seq<Val>, id: string): (r: Option<nat>)
    ensures r.Some? ==> r.value < |products| && HasId(products[r.value], id)
                        && forall j :: 0 <= j < r.value ==> !HasId(products[j], id)
    ensures r.None? <==> forall j :: 0 <= j < |products| ==> !HasId(products[j], id)
  {
    if products == [] then None
    else if HasId(products[0], id) then Some(0)
    else
      match FindIndex(products[1..], id)
      case None => None
      case Some(k) => Some(k + 1)
  }

  function FindProduct(products: seq<Val>, id: string): (r: Option<Val>)
    ensures r.Some? <==> exists j :: 0 <= j < |products| && HasId(products[j], id)
    ensures r.Some? ==> r == Some(products[FindIndex(products, id).value])
  {
    match FindIndex(products, id)
    case None => None
    case Some(i) => Some(products[i])
  }

  /** What the page renders: the spinner while loading, the not-found view (titled after the
      load error when there is one), or the product. */
  datatype View = Spinner | Missing(title: string, error: Option<string>) | Shown(product: Val)

  const LoadError: string := "Failed to load products from API"

  function ViewOf(loading: bool, products: seq<Val>, error: Option<string>, id: string): (r: View)
    ensures r.Shown? <==> !loading && FindProduct(products, id).Some?
    ensures r.Shown? ==> r.product == FindProduct(products, id).value
    ensures r.Missing? ==> r.error == error
                           && r.title == (if error.Some? then "Failed to load product" else "Product not found")
  {
    if loading then Spinner
    else match FindProduct(products, id)
      case None => Missing(if error.Some? then "Failed to load product" else "Product not found", error)
      case Some(p) => Shown(p)
  }

  /** The minus button, `Math.max(1, quantity - 1)`: one less, but never below 1. */
  function Minus(quantity: Number): (r: Number)
    ensures quantity.Fin? ==> r == Fin(if quantity.r - 1.0 >= 1.0 then quantity.r - 1.0 else 1.0)
    ensures quantity.NaN? ==> r.NaN?
  {
    Max(Fin(1.0), Add(quantity, Fin(-1.0)))
  }

  /** One press of the selector: minus floors at 1, plus caps at the stock
      (`Math.min(product.stock, quantity + 1)`). */
  function Step(quantity: Number, stock: Number, plus: bool): Number {
    if plus then Min(stock, Add(quantity, Fin(1.0))) else Minus(quantity)
  }

  function Steps(quantity: Number, stock: Number, presses: seq<bool>): Number
    decreases |presses|
  {
    if presses == [] then quantity else Steps(Step(quantity, stock, presses[0]), stock, presses[1..])
  }

  /** From the initial 1, with a stock of at least 1 (the selector shows only then), any run of
      presses keeps the quantity between 1 and the stock. */
  lemma {:induction false} SelectorStaysInRange(quantity: Number, stock: real, presses: seq<bool>)
    requires stock >= 1.0 && quantity.Fin? && 1.0 <= quantity.r <= stock
    ensures var q := Steps(quantity, Fin(stock), presses); q.Fin? && 1.0 <= q.r <= stock
    decreases |presses|
  {
    if presses != [] {
      SelectorStaysInRange(Step(quantity, Fin(stock), presses[0]), stock, presses[1..]);
    }
  }

  class ProductDetailPage {
    var products: seq<Val>
    var loading: bool
    var error: Option<string>
    var quantity: Number
    var isAdding: bool
    const id: string
    const cart: CartSynchronizer

    constructor(id: string, cart: CartSynchronizer)
      ensures products == [] && loading && error.None? && quantity == Fin(1.0) && !isAdding
      ensures this.id == id && this.cart == cart
    {
      products := [];
      loading := true;
      error := None;
      quantity := Fin(1.0);
      isAdding := false;
      this.id := id;
      this.cart := cart;
    }

    function View(): View
      reads this
    {
      ViewOf(loading, products, error, id)
    }

    /** The load on mount: the list on success; on failure an empty list and the load error. */
    method Load(fetched: Option<seq<Val>>)
      modifies this
      ensures !loading && quantity == old(quantity) && isAdding == old(isAdding)
      ensures fetched.Some? ==> products == fetched.value && error.None?
      ensures fetched.None? ==> products == [] && error == Some(LoadError)
      ensures View().Missing? <==> FindProduct(products, id).None?
    {
      error := None;
      if fetched.Some? {
        products := fetched.value;
      } else {
        error := Some(LoadError);
        products := [];
      }
      loading := false;
    }

    /** The minus button. */
    method Decrement()
      modifies this
      ensures quantity == Minus(old(quantity))
      ensures old(quantity).Fin? ==> quantity.Fin? && quantity.r >= 1.0
      ensures products == old(products) && isAdding == old(isAdding)
      ensures loading == old(loading) && error == old(error)
    {
      quantity := Minus(quantity);
    }

    /** The plus button, shown with the product. */
    method Increment(product: Val)
      requires View() == Shown(product)
      modifies this
      ensures quantity == Step(old(quantity), ToNumber(Get(product, "stock")), true)
      ensures var stock := ToNumber(Get(product, "stock"));
              quantity.Fin? ==> stock.Fin? && quantity.r <= stock.r
      ensures products == old(products) && isAdding == old(isAdding)
      ensures loading == old(loading) && error == old(error)
    {
      quantity := Min(ToNumber(Get(product, "stock")), Add(quantity, Fin(1.0)));
    }

    /** The click on the add button of the shown product, up to the add: the login guard, the
        stock guard on `product.stock`, then single-flight; a click that passes sets `isAdding`
        and starts an add of `String(product.id)` with `Math.max(1, Number(quantity) || 1)`. */
    method Begin(product: Val) returns (s: Start)
      requires View() == Shown(product)
      modifies this, cart.browser
      ensures products == old(products) && quantity == old(quantity)
      ensures loading == old(loading) && error == old(error)
      ensures var st := old(cart.browser.st);
              if !IsLoggedIn(st.storage) then
                s == LoginRequired && isAdding == old(isAdding)
                && cart.browser.st == st.(toasts := st.toasts + [Toast(LoginPrompt, Error)],
                                          visited := st.visited + [LoginPath])
              else if LessEq(ToNumber(Get(product, "stock")), Fin(0.0)) then
                s == NoStock && isAdding == old(isAdding)
                && cart.browser.st == st.(toasts := st.toasts + [Toast(StockWarning, Error)])
              else if old(isAdding) then
                s == Ignored && isAdding && cart.browser.st == st
              else
                s == Started(ToJsString(Get(product, "id")), ClampQuantity(quantity)) && isAdding
                && cart.browser.st == st
    {
      if !IsLoggedIn(cart.browser.st.storage) {
        cart.browser.ShowToast(Toast(LoginPrompt, Error));
        cart.browser.Navigate(LoginPath);
        return LoginRequired;
      }
      if LessEq(ToNumber(Get(product, "stock")), Fin(0.0)) {
        cart.browser.ShowToast(Toast(StockWarning, Error));
        return NoStock;
      }
      if isAdding {
        return Ignored;
      }
      isAdding := true;
      var safeQuantity := ClampQuantity(quantity);
      s := Started(ToJsString(Get(product, "id")), safeQuantity);
    }

    /** `performAdd`: the add, its toast, the 401 redirect, and `isAdding` reset in `finally`.
        The quantity started is already clamped, so the cart's own clamp sends it unchanged. */
    method Finish(productId: string, safeQuantity: real) returns (r: Outcome)
      requires cart.Valid() && safeQuantity >= 1.0
      modifies this, cart, cart.browser
      ensures !isAdding && products == old(products) && quantity == old(quantity)
      ensures loading == old(loading) && error == old(error)
      ensures cart.Valid() && cart.isAuthenticated == old(cart.isAuthenticated)
      ensures r == AddOutcome(cart.browser, old(cart.browser.st), productId, Fin(safeQuantity))
      ensures var st1 := Exchange(cart.browser, old(cart.browser.st), AddItem(productId, safeQuantity)).0;
              if r.Resolved? then
                var (s2, st2) := Refresh(cart.isAuthenticated, old(cart.state), cart.browser, st1);
                cart.state == s2 && cart.browser.st == WithFeedback(st2, r)
              else
                cart.state == old(cart.state).(error := Some(ExtractErrorMessage(r.failure)))
                && cart.browser.st == WithFeedback(st1, r)
    {
      r := cart.AddToCart(productId, Fin(safeQuantity));
      var (toast, paths) := Feedback(r);
      cart.browser.ShowToast(toast);
      if paths != [] {
        cart.browser.Navigate(LoginPath);
      }
      isAdding := false;
    }
  }
}
