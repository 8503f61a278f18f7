/** What the product card and the product page share around an add to the cart: the outcome the
    cart's `addToCart` settles to, and the toasts and navigation shown once it settles. */
module AddFeedback {
  import opened Base
  import opened Js
  import opened ApiClient
  import opened Services

  const LoginPrompt: string := "Please log in to add items to your cart."
  const StockWarning: string := "Product is out of stock"
  const AddedMessage: string := "Added to cart"
  const CartUpdatedMessage: string := "Cart updated"
  const LoginPath: string := "/login"

  /** How the synchronous part of a click ends: sent to the login page, refused for stock,
      ignored while an add is in flight, or started for the given product id and quantity. */
  datatype Start = LoginRequired | NoStock | Ignored | Started(productId: string, quantity: real)

  /** `err?.response?.status === 401` */
  predicate Unauthorized(f: Failure) {
    f.response.Some? && f.response.value.status == 401
  }

  /** What the cart's `addToCart(productId, q)` settles to: it resolves after a success or a
      concurrency conflict, and rejects with any other failure. */
  function AddOutcome(b: Browser, st: BrowserState, productId: string, q: Number): (r: Outcome)
    ensures r.Failed? ==> !IsConcurrencyError(r.failure)
    ensures var reply := Exchange(b, st, AddItem(productId, ClampQuantity(q))).1;
            (r.Resolved? <==> reply.Done? || IsConcurrencyError(reply.failure))
            && (r.Failed? ==> reply == Rejected(r.failure))
  {
    var reply := Exchange(b, st, AddItem(productId, ClampQuantity(q))).1;
    if reply.Done? || IsConcurrencyError(reply.failure) then Resolved else Failed(reply.failure)
  }

  /** The toast shown and the paths navigated to once the add settles. */
  function Feedback(r: Outcome): (f: (Toast, seq<string>))
    ensures r.Resolved? ==> f == (Toast(AddedMessage, Success), [])
    ensures r.Failed? && !IsConcurrencyError(r.failure) ==> f.0 == Toast(ExtractErrorMessage(r.failure), Error)
    ensures f.0.kind == Success <==> r.Resolved? || IsConcurrencyError(r.failure)
    ensures f.1 == [LoginPath] <==> r.Failed? && Unauthorized(r.failure)
    ensures f.1 == [] <==> !(r.Failed? && Unauthorized(r.failure))
  {
    match r
    case Resolved => (Toast(AddedMessage, Success), [])
    case Failed(f) =>
      var t := if IsConcurrencyError(f) then Toast(CartUpdatedMessage, Success)
               else Toast(ExtractErrorMessage(f), Error);
      (t, if Unauthorized(f) then [LoginPath] else [])
  }

  /** The browser after the feedback for `r` is shown. */
  function WithFeedback(st: BrowserState, r: Outcome): BrowserState {
    st.(toasts := st.toasts + [Feedback(r).0], visited := st.visited + Feedback(r).1)
  }

  /** The cart swallows every concurrency conflict, so the handlers' "Cart updated" branch is never
      taken: a settled add shows "Added to cart" or an error toast, never "Cart updated". */
  lemma CartUpdatedIsNeverShown(b: Browser, st: BrowserState, productId: string, q: Number)
    ensures var r := AddOutcome(b, st, productId, q);
            Feedback(r).0 == Toast(AddedMessage, Success)
            || Feedback(r).0 == Toast(ExtractErrorMessage(r.failure), Error)
    ensures Feedback(AddOutcome(b, st, productId, q)).0 != Toast(CartUpdatedMessage, Success)
  {
  }
}
