/** The cart page: how each line is shown from whatever the cart holds, the summary's item count,
    and the handlers, which delegate to the cart and swallow its failures. */
module CartPage {
  import opened Base
  import opened Js
  import opened ApiClient
  import opened CartSync

  /** `Array.isArray(items) ? items : []` */
  function SafeItems(items: Val): (r: seq<Val>)
    ensures !items.Arr? ==> r == []
  {
    if items.Arr? then items.elems else []
  }

  datatype Line = Line(name: Val, imageUrl: Val, price: Number, quantity: Number, lineTotal: Number)

  /** One line with its defaults: "Unknown Product", no image, price 0, quantity 1, and a line
      total of price times quantity when the item carries none. */
  function LineOf(item: Val): (r: Line)
    ensures Nullish(Get(Get(item, "product"), "name")) ==> r.name == Str("Unknown Product")
    ensures !Nullish(r.name)
    ensures Nullish(Get(Get(item, "product"), "price")) ==> r.price == Fin(0.0)
    ensures Nullish(Get(item, "quantity")) ==> r.quantity == Fin(1.0)
    ensures Nullish(Get(item, "lineTotal")) ==> r.lineTotal == Mul(r.price, r.quantity)
    ensures !Nullish(Get(item, "lineTotal")) ==> r.lineTotal == ToNumber(Get(item, "lineTotal"))
  {
    var product := Get(item, "product");
    var price := ToNumber(Coalesce(Get(product, "price"), NumVal(0.0)));
    var qty := ToNumber(Coalesce(Get(item, "quantity"), NumVal(1.0)));
    Line(Coalesce(Get(product, "name"), Str("Unknown Product")),
         Coalesce(Get(product, "imageUrl"), Str("")),
         price, qty,
         ToNumber(Coalesce(Get(item, "lineTotal"), Num(Mul(price, qty)))))
  }

  /** The id the remove button passes: `item?.product?.id || ''`, as the string the request
      path is built from. */
  function RemoveTarget(item: Val): (r: string)
    ensures var id := Get(Get(item, "product"), "id");
            (id.Str? && id.s != "" ==> r == id.s) && (Truthy(id) ==> r == ToJsString(id)) && (!Truthy(id) ==> r == "")
  {
    ToJsString(Or(Get(Get(item, "product"), "id"), Str("")))
  }

  /** The summary's count, `reduce((sum, item) => sum + Number(item?.quantity ?? 0), 0)`: a
      missing quantity counts 0 here, though its line shows 1. */
  function SummaryCount(items: seq<Val>): Number {
    if items == [] then Fin(0.0)
    else Add(SummaryCount(items[..|items| - 1]),
             ToNumber(Coalesce(Get(items[|items| - 1], "quantity"), NumVal(0.0))))
  }

  /** An item's quantity as the summary reads it is missing or a non-negative number. */
  predicate SummaryQuantityNonNegative(item: Val) {
    var q := Get(item, "quantity");
    Nullish(q) || (q.Num? && q.n.Fin? && q.n.r >= 0.0)
  }

  /** Missing or non-negative quantities give a non-negative summary count. */
  lemma {:induction false} SummaryCountNonNegative(items: seq<Val>)
    requires forall i :: 0 <= i < |items| ==> SummaryQuantityNonNegative(items[i])
    ensures SummaryCount(items).Fin? && SummaryCount(items).r >= 0.0
  {
    if items != [] {
      SummaryCountNonNegative(items[..|items| - 1]);
      assert SummaryQuantityNonNegative(items[|items| - 1]);
    }
  }

  /** The quantities the lines show, added up. */
  function LineQuantities(items: seq<Val>): Number {
    if items == [] then Fin(0.0)
    else Add(LineQuantities(items[..|items| - 1]), LineOf(items[|items| - 1]).quantity)
  }

  /** How many items carry no quantity. */
  function MissingQuantities(items: seq<Val>): nat {
    if items == [] then 0
    else MissingQuantities(items[..|items| - 1]) + (if Nullish(Get(items[|items| - 1], "quantity")) then 1 else 0)
  }

  predicate QuantityIsNumber(item: Val) {
    Nullish(Get(item, "quantity")) || ToNumber(Get(item, "quantity")).Fin?
  }

  /** The summary undercounts the lines by exactly one per item without a quantity. */
  lemma {:induction false} SummaryUndercountsMissing(items: seq<Val>)
    requires forall i :: 0 <= i < |items| ==> QuantityIsNumber(items[i])
    ensures SummaryCount(items).Fin? && LineQuantities(items).Fin?
    ensures LineQuantities(items).r == SummaryCount(items).r + MissingQuantities(items) as real
  {
    if items != [] {
      var init := items[..|items| - 1];
      assert forall i :: 0 <= i < |init| ==> init[i] == items[i];
      SummaryUndercountsMissing(init);
    }
  }

  /** Where the checkout button leads. */
  function CheckoutTarget(isAuthenticated: bool): (r: string)
    ensures r == "/checkout" <==> isAuthenticated
    ensures r == "/login" <==> !isAuthenticated
  {
    if !isAuthenticated then "/login" else "/checkout"
  }

  class CartView {
    var refreshing: bool
    const cart: CartSynchronizer

    constructor(cart: CartSynchronizer)
      ensures !refreshing && this.cart == cart
    {
      refreshing := false;
      this.cart := cart;
    }

    /** The refresh button: a refresh, with `refreshing` set around it. */
    method HandleRefresh()
      requires cart.Valid()
      modifies this, cart, cart.browser
      ensures !refreshing && cart.Valid()
      ensures (cart.state, cart.browser.st) == Refresh(cart.isAuthenticated, old(cart.state), cart.browser, old(cart.browser.st))
    {
      refreshing := true;
      cart.RefreshCart();
      refreshing := false;
    }

    /** The remove button of a line: removes its product; nothing is rethrown. */
    method HandleRemoveItem(item: Val)
      requires cart.Valid()
      modifies cart, cart.browser
      ensures cart.Valid()
      ensures (cart.state, cart.browser.st) ==
              Remove(cart.isAuthenticated, old(cart.state), cart.browser, old(cart.browser.st), RemoveTarget(item))
    {
      cart.RemoveFromCart(RemoveTarget(item));
    }

    /** The clear button: clears and refreshes; a failed clear is swallowed with the cart as
        it was. */
    method HandleClearCart()
      requires cart.Valid()
      modifies cart, cart.browser
      ensures cart.Valid()
      ensures var (st1, reply) := Exchange(cart.browser, old(cart.browser.st), ClearCart);
              if reply.Rejected? then cart.state == old(cart.state) && cart.browser.st == st1
              else (cart.state, cart.browser.st) == Refresh(cart.isAuthenticated, old(cart.state), cart.browser, st1)
    {
      var _ := cart.ClearCart();
    }

    /** The checkout button: to the login page when signed out, else to the checkout. */
    method HandleCheckout(isAuthenticated: bool)
      modifies cart.browser
      ensures cart.browser.st == old(cart.browser.st).(visited := old(cart.browser.st.visited) + [CheckoutTarget(isAuthenticated)])
    {
      if !isAuthenticated {
        cart.browser.Navigate("/login");
        return;
      }
      cart.browser.Navigate("/checkout");
    }
  }
}
