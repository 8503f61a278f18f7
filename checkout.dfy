/** The checkout page: the order it submits, built from the cart's items and total, and the
    submit sequence (place the order, clear the cart, go to the success page), with
    `isProcessing` set around it. */
module CheckoutPage {
  import opened Base
  import opened Js
  import opened ApiClient
  import opened Services
  import opened CartSync
  import opened Pricing

  const SuccessPath: string := "/checkout/success"

  /** `{ productId: item.product.id, quantity: item.quantity, price: item.product.price }` */
  function OrderLine(item: CartItem): (r: Val)
    ensures Get(r, "productId") == Str(item.product.id)
    ensures Get(r, "quantity") == Num(item.quantity)
    ensures Get(r, "price") == Num(item.product.price)
  {
    Obj(map["productId" := Str(item.product.id), "quantity" := Num(item.quantity),
            "price" := Num(item.product.price)])
  }

  /** The order's items: one line per cart item, in cart order. */
  function OrderLines(items: seq<CartItem>): (r: seq<Val>)
    ensures |r| == |items|
    ensures forall i :: 0 <= i < |items| ==> r[i] == OrderLine(items[i])
  {
    seq(|items|, i requires 0 <= i < |items| => OrderLine(items[i]))
  }

  /** The order body: the lines, the two forms, and the grand total shown on the page. */
  function OrderData(items: seq<CartItem>, shipping: Val, payment: Val, totalPrice: Number): Val {
    Obj(map["items" := Arr(OrderLines(items)), "shippingAddress" := shipping,
            "paymentData" := payment, "total" := Num(FinalTotal(totalPrice))])
  }

  /** The submitted order carries the cart's lines field for field and the total the page
      displays, which includes shipping and tax. */
  lemma OrderDataFields(items: seq<CartItem>, shipping: Val, payment: Val, totalPrice: real)
    ensures var o := OrderData(items, shipping, payment, Fin(totalPrice));
            Get(o, "items").Arr? && |Get(o, "items").elems| == |items|
            && (forall i :: 0 <= i < |items| ==>
                  Get(Get(o, "items").elems[i], "productId") == Str(items[i].product.id)
                  && Get(Get(o, "items").elems[i], "quantity") == Num(items[i].quantity))
            && Get(o, "total") == Num(Fin(totalPrice * 1.08 + Shipping(Fin(totalPrice))))
  {
    var o := OrderData(items, shipping, payment, Fin(totalPrice));
    assert Get(o, "items") == Arr(OrderLines(items));
    assert Get(o, "total") == Num(FinalTotal(Fin(totalPrice)));
  }

  class CheckoutView {
    var isProcessing: bool
    var shippingData: Val
    var paymentData: Val
    const cart: CartSynchronizer

    constructor(cart: CartSynchronizer)
      ensures !isProcessing && this.cart == cart
      ensures shippingData == Obj(map["street" := Str(""), "city" := Str(""), "state" := Str(""),
                                      "zipCode" := Str(""), "country" := Str("USA")])
      ensures paymentData == Obj(map["cardNumber" := Str(""), "expiryDate" := Str(""), "cvv" := Str(""),
                                     "cardholderName" := Str("")])
    {
      isProcessing := false;
      shippingData := Obj(map["street" := Str(""), "city" := Str(""), "state" := Str(""),
                              "zipCode" := Str(""), "country" := Str("USA")]);
      paymentData := Obj(map["cardNumber" := Str(""), "expiryDate" := Str(""), "cvv" := Str(""),
                             "cardholderName" := Str("")]);
      this.cart := cart;
    }

    /** `handleSubmit`: place the order; on success clear the cart; on success of that go to the
        success page. Any failure stops the sequence there and is swallowed; `isProcessing` ends
        false on every path. */
    method HandleSubmit()
      requires cart.Valid()
      modifies this, cart, cart.browser
      ensures !isProcessing && cart.Valid()
      ensures shippingData == old(shippingData) && paymentData == old(paymentData)
      ensures var order := OrderData(old(cart.state.items), shippingData, paymentData, old(cart.state.total));
              var (st1, reply1) := Exchange(cart.browser, old(cart.browser.st), ApiClient.Checkout(order));
              var (st2, reply2) := Exchange(cart.browser, st1, ApiClient.ClearCart);
              if reply1.Rejected? then cart.state == old(cart.state) && cart.browser.st == st1
              else if reply2.Rejected? then cart.state == old(cart.state) && cart.browser.st == st2
              else
                var (s3, st3) := Refresh(cart.isAuthenticated, old(cart.state), cart.browser, st2);
                cart.state == s3 && cart.browser.st == st3.(visited := st3.visited + [SuccessPath])
    {
      isProcessing := true;
      var order := OrderData(cart.state.items, shippingData, paymentData, cart.TotalPrice());
      var placed := CallForData(cart.browser, ApiClient.Checkout(order));
      if placed.Ok? {
        var cleared := cart.ClearCart();
        if cleared.Resolved? {
          cart.browser.Navigate(SuccessPath);
        }
      }
      isProcessing := false;
    }
  }

  /** The success page is reached only after both the order and the clear were sent, in that
      order, as the first two requests of the submit. */
  lemma SuccessFollowsOrderAndClear(b: Browser, st0: BrowserState, order: Val)
    ensures var st1 := Exchange(b, st0, ApiClient.Checkout(order)).0;
            var st2 := Exchange(b, st1, ApiClient.ClearCart).0;
            CallsSince(st0, st2) == [ApiClient.Checkout(order), ApiClient.ClearCart]
            && st2.visited == st0.visited
  {
    var st1 := Exchange(b, st0, ApiClient.Checkout(order)).0;
    var st2 := Exchange(b, st1, ApiClient.ClearCart).0;
    assert |st2.sent| == |st0.sent| + 2;
    assert st2.sent[|st0.sent|] == st1.sent[|st0.sent|];
  }
}
