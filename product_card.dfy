/** The product card: its add-to-cart handler, with the login guard, the stock guard and the
    single-flight `pending` flag around the awaited add, and the rules for the button. The
    handler is split at its `await`: `Begin` is what runs on the click, `Finish` what runs once
    the add settles; `HandleAddToCart` runs both in sequence. */
module ProductCardView {
  import opened Base
  import opened Js
  import opened ApiClient
  import opened Services
  import opened CartSync
  import opened AuthUtils
  import opened AddFeedback

  /** The button's label while an add is in flight, spelled as the component file spells it (its
      ellipsis is stored double-encoded). */
  const AddingLabel: string := "Addingâ€¦"

  /** The handler's stock check `product.stockQuantity <= 0`: a missing count compares as NaN and
      passes, a null one compares as 0 and is refused. */
  predicate StockRefused(product: Val) {
    LessEq(ToNumber(Get(product, "stockQuantity")), Fin(0.0))
  }

  /** `outOfStock = (product?.stockQuantity ?? 0) <= 0` */
  predicate OutOfStock(product: Val) {
    LessEq(ToNumber(Coalesce(Get(product, "stockQuantity"), NumVal(0.0))), Fin(0.0))
  }

  /** `disabled={pending || outOfStock}` */
  predicate ButtonDisabled(pending: bool, product: Val) {
    pending || OutOfStock(product)
  }

  /** The button's label: "Out of stock" takes priority over the in-flight label. */
  function ButtonLabel(pending: bool, product: Val): (r: string)
    ensures OutOfStock(product) ==> r == "Out of stock"
    ensures !OutOfStock(product) && pending ==> r == AddingLabel
    ensures r == "Add to cart" <==> !ButtonDisabled(pending, product)
  {
    if OutOfStock(product) then "Out of stock" else if pending then AddingLabel else "Add to cart"
  }

  /** Whenever the handler would refuse for stock, the button is already disabled; the converse
      fails for a product without a stock count, which the button disables but the handler lets
      through. */
  lemma ButtonCoversStockGuard(product: Val)
    ensures StockRefused(product) ==> ButtonDisabled(false, product)
    ensures Get(product, "stockQuantity") == Undefined ==> ButtonDisabled(false, product) && !StockRefused(product)
  {
  }

  class ProductCard {
    var pending: bool
    const product: Val
    const cart: CartSynchronizer

    constructor(product: Val, cart: CartSynchronizer)
      ensures !pending && this.product == product && this.cart == cart
    {
      pending := false;
      this.product := product;
      this.cart := cart;
    }

    /** The click, up to the `await`: the login guard (error toast, then `/login`), the stock
        guard (error toast), then single-flight; only a click that passes all three sets
        `pending` and starts an add of `String(product.id)`. */
    method Begin() returns (s: Start)
      modifies this, cart.browser
      ensures var st := old(cart.browser.st);
              if !IsLoggedIn(st.storage) then
                s == LoginRequired && pending == old(pending)
                && cart.browser.st == st.(toasts := st.toasts + [Toast(LoginPrompt, Error)],
                                          visited := st.visited + [LoginPath])
              else if StockRefused(product) then
                s == NoStock && pending == old(pending)
                && cart.browser.st == st.(toasts := st.toasts + [Toast(StockWarning, Error)])
              else if old(pending) then
                s == Ignored && pending && cart.browser.st == st
              else
                s == Started(ToJsString(Get(product, "id")), 1.0) && pending && cart.browser.st == st
    {
      if !IsLoggedIn(cart.browser.st.storage) {
        cart.browser.ShowToast(Toast(LoginPrompt, Error));
        cart.browser.Navigate(LoginPath);
        return LoginRequired;
      }
      if StockRefused(product) {
        cart.browser.ShowToast(Toast(StockWarning, Error));
        return NoStock;
      }
      if pending {
        return Ignored;
      }
      pending := true;
      s := Started(ToJsString(Get(product, "id")), 1.0);
    }

    /** After the `await`: the add of one unit, its toast, the 401 redirect, and `pending` reset
        in `finally` whatever the outcome. */
    method Finish(productId: string) returns (r: Outcome)
      requires cart.Valid()
      modifies this, cart, cart.browser
      ensures !pending && cart.Valid() && cart.isAuthenticated == old(cart.isAuthenticated)
      ensures r == AddOutcome(cart.browser, old(cart.browser.st), productId, Fin(1.0))
      ensures var st1 := Exchange(cart.browser, old(cart.browser.st), AddItem(productId, 1.0)).0;
              if r.Resolved? then
                var (s2, st2) := Refresh(cart.isAuthenticated, old(cart.state), cart.browser, st1);
                cart.state == s2 && cart.browser.st == WithFeedback(st2, r)
              else
                cart.state == old(cart.state).(error := Some(ExtractErrorMessage(r.failure)))
                && cart.browser.st == WithFeedback(st1, r)
    {
      assert ClampQuantity(Fin(1.0)) == 1.0;
      r := cart.AddToCart(productId, Fin(1.0));
      var (toast, paths) := Feedback(r);
      cart.browser.ShowToast(toast);
      if paths != [] {
        cart.browser.Navigate(LoginPath);
      }
      pending := false;
    }

    /** `handleAddToCart` run to the end: a click that passes the guards sends exactly the add of
        one unit of `String(product.id)` (and the refresh after it) and leaves `pending` false; a
        refused or ignored click sends nothing. */
    method HandleAddToCart() returns (s: Start)
      requires cart.Valid()
      modifies this, cart, cart.browser
      ensures cart.Valid()
      ensures s.Started? <==> IsLoggedIn(old(cart.browser.st.storage)) && !StockRefused(product) && !old(pending)
      ensures s.Started? ==> s.productId == ToJsString(Get(product, "id")) && !pending
                             && |CallsSince(old(cart.browser.st), cart.browser.st)| >= 1
                             && CallsSince(old(cart.browser.st), cart.browser.st)[0] == AddItem(s.productId, 1.0)
      ensures !s.Started? ==> cart.browser.st.sent == old(cart.browser.st.sent) && pending == old(pending)
    {
      s := Begin();
      if s.Started? {
        ghost var st0 := cart.browser.st;
        var r := Finish(s.productId);
        StartsWithAdd(st0, cart.browser.st, cart.browser, s.productId, cart.isAuthenticated, old(cart.state), r);
      }
    }
  }

  /** The requests sent by an add and the refresh after it begin with the add. */
  lemma StartsWithAdd(st0: BrowserState, st: BrowserState, b: Browser, productId: string, auth: bool,
                      s: CartState, r: Outcome)
    requires var st1 := Exchange(b, st0, AddItem(productId, 1.0)).0;
             if r.Resolved? then st == WithFeedback(Refresh(auth, s, b, st1).1, r)
             else st == WithFeedback(st1, r)
    ensures |CallsSince(st0, st)| >= 1 && CallsSince(st0, st)[0] == AddItem(productId, 1.0)
  {
    var st1 := Exchange(b, st0, AddItem(productId, 1.0)).0;
    RefreshSends(auth, s, b, st1);
    assert st1.sent[|st0.sent|].call == AddItem(productId, 1.0);
    if r.Resolved? {
      var st2 := Refresh(auth, s, b, st1).1;
      assert st2.sent[..|st1.sent|] == st1.sent by {
        ExchangeThenRefreshSends(AddItem(productId, 1.0), auth, s, b, st0);
      }
      assert st2.sent[|st0.sent|] == st1.sent[|st0.sent|];
    }
  }
}
