/** The service functions built on the HTTP client: `cartAPI` (with the normalisation of the cart
    the server returns and the clamp on the quantity added), `authAPI` and `ordersAPI.checkout`. */
module Services {
  import opened Base
  import opened Js
  import opened ApiClient

  // ---------------------------------------------------------------------------
  // Cart response normalisation

  /** The quantity `cartAPI.addItem` sends: `Math.max(1, Number(quantity) || 1)`. */
  function ClampQuantity(q: Number): (r: real)
    ensures r >= 1.0
    ensures r == (if q.Fin? && q.r > 1.0 then q.r else 1.0)
  {
    var asked := Or(Num(q), NumVal(1.0));
    var m := Max(Fin(1.0), asked.n);
    m.r
  }

  /** Clamping a clamped quantity changes nothing, so clamping in the cart and again in the
      service sends the same quantity as clamping once. */
  lemma ClampIdempotent(q: Number)
    ensures ClampQuantity(Fin(ClampQuantity(q))) == ClampQuantity(q)
  {
  }

  function ProductOf(item: Val): Val {
    Get(item, "product")
  }

  /** `item.price` when it is a number, else `item.product?.price || 0`. */
  function ApiPrice(item: Val): (r: Val)
    ensures !Nullish(r)
    ensures Get(item, "price").Num? ==> r == Get(item, "price")
    ensures !Get(item, "price").Num? && Truthy(Get(ProductOf(item), "price")) ==> r == Get(ProductOf(item), "price")
    ensures !Get(item, "price").Num? && !Truthy(Get(ProductOf(item), "price")) ==> r == NumVal(0.0)
  {
    if Get(item, "price").Num? then Get(item, "price") else Or(Get(ProductOf(item), "price"), NumVal(0.0))
  }

  /** `item.quantity` when it is a number, else 1. */
  function ApiQuantity(item: Val): (r: Val)
    ensures r.Num?
    ensures Get(item, "quantity").Num? ==> r == Get(item, "quantity")
    ensures !Get(item, "quantity").Num? ==> r == NumVal(1.0)
  {
    if Get(item, "quantity").Num? then Get(item, "quantity") else NumVal(1.0)
  }

  /** `item.lineTotal || (item.price * item.quantity) || ((item.product?.price || 0) * (item.quantity || 1))` */
  function ApiLineTotal(item: Val): (r: Val)
    ensures Truthy(Get(item, "lineTotal")) ==> r == Get(item, "lineTotal")
    ensures !Truthy(Get(item, "lineTotal")) ==> r.Num?
    ensures !Truthy(Get(item, "lineTotal")) && Get(item, "price").Num? && Get(item, "quantity").Num?
            && Truthy(Num(Mul(Get(item, "price").n, Get(item, "quantity").n)))
            ==> r == Num(Mul(Get(item, "price").n, Get(item, "quantity").n))
    ensures !Truthy(Get(item, "lineTotal")) && !Truthy(Num(Mul(ToNumber(Get(item, "price")), ToNumber(Get(item, "quantity")))))
            ==> r == Num(Mul(ToNumber(Or(Get(ProductOf(item), "price"), NumVal(0.0))),
                             ToNumber(Or(Get(item, "quantity"), NumVal(1.0)))))
    ensures !Truthy(Get(item, "lineTotal")) && Get(item, "price").Undefined? && Get(item, "quantity").Undefined?
            && Get(ProductOf(item), "price").Num? && Get(ProductOf(item), "price").n.Fin?
            ==> r == Get(ProductOf(item), "price")
  {
    var stated := Get(item, "lineTotal");
    var product := Num(Mul(ToNumber(Get(item, "price")), ToNumber(Get(item, "quantity"))));
    var fallback := Num(Mul(ToNumber(Or(Get(ProductOf(item), "price"), NumVal(0.0))),
                            ToNumber(Or(Get(item, "quantity"), NumVal(1.0)))));
    Or(Or(stated, product), fallback)
  }

  /** The object literal of a product, with its fields read back. */
  function ProductObject(id: Val, name: Val, price: Val, description: Val, imageUrl: Val, category: Val,
                         stock: Val): (r: Val)
    ensures Get(r, "id") == id && Get(r, "name") == name && Get(r, "price") == price
    ensures Get(r, "description") == description && Get(r, "imageUrl") == imageUrl
    ensures Get(r, "category") == category && Get(r, "stock") == stock
  {
    Obj(map["id" := id, "name" := name, "price" := price, "description" := description,
            "imageUrl" := imageUrl, "category" := category, "stock" := stock])
  }

  /** The product object built when the item carries none: every field is present, and a field
      the item leaves falsy gets its default. */
  function FallbackProduct(item: Val): (r: Val)
    ensures !Nullish(Get(r, "id")) && !Nullish(Get(r, "name")) && !Nullish(Get(r, "price"))
    ensures !Nullish(Get(r, "description")) && !Nullish(Get(r, "imageUrl")) && !Nullish(Get(r, "category"))
    ensures !Nullish(Get(r, "stock"))
    ensures Get(r, "id") == (if Truthy(Get(item, "productId")) then Get(item, "productId")
                             else if Truthy(Get(item, "id")) then Get(item, "id") else Str(""))
    ensures Get(r, "name") == (if Truthy(Get(item, "name")) then Get(item, "name") else Str(UnknownProduct))
    ensures Get(r, "price") == (if Get(item, "price").Num? then Get(item, "price") else NumVal(0.0))
    ensures Get(r, "description") == (if Truthy(Get(item, "description")) then Get(item, "description") else Str(""))
    ensures Get(r, "imageUrl") == (if Truthy(Get(item, "imageUrl")) then Get(item, "imageUrl") else Str(""))
    ensures Get(r, "category") == (if Truthy(Get(item, "category")) then Get(item, "category") else Str(""))
    ensures Get(r, "stock") == (if Truthy(Get(item, "stock")) then Get(item, "stock") else NumVal(0.0))
  {
    ProductObject(Or(Or(Get(item, "productId"), Get(item, "id")), Str("")),
                  Or(Get(item, "name"), Str(UnknownProduct)),
                  if Get(item, "price").Num? then Get(item, "price") else NumVal(0.0),
                  Or(Get(item, "description"), Str("")),
                  Or(Get(item, "imageUrl"), Str("")),
                  Or(Get(item, "category"), Str("")),
                  Or(Get(item, "stock"), NumVal(0.0)))
  }

  const UnknownProduct: string := "Unknown Product"

  /** The object literal of a normalised item, with its fields read back. */
  function ItemObject(id: Val, name: Val, price: Val, quantity: Val, lineTotal: Val, product: Val): (r: Val)
    ensures Get(r, "id") == id && Get(r, "productId") == id && Get(r, "name") == name
    ensures Get(r, "price") == price && Get(r, "quantity") == quantity && Get(r, "lineTotal") == lineTotal
    ensures Get(r, "product") == product
  {
    Obj(map["id" := id, "productId" := id, "name" := name, "price" := price, "quantity" := quantity,
            "lineTotal" := lineTotal, "product" := product])
  }

  /** One item of the normalised cart, for an item that is not null or undefined. */
  function NormalizeItem(item: Val): Val {
    var id := Or(Get(item, "productId"), Get(item, "id"));
    ItemObject(id, Or(Or(Get(item, "name"), Get(ProductOf(item), "name")), Str(UnknownProduct)),
               ApiPrice(item), ApiQuantity(item), ApiLineTotal(item),
               Or(ProductOf(item), FallbackProduct(item)))
  }

  /** The `items` array of a response, or [] when it is not an array. */
  function RawItems(data: Val): (r: seq<Val>)
    ensures !Get(Or(data, EmptyObj), "items").Arr? ==> r == []
    ensures Truthy(data) && Get(data, "items").Arr? ==> r == Get(data, "items").elems
    ensures !Truthy(data) ==> r == []
  {
    var d := Or(data, EmptyObj);
    if Get(d, "items").Arr? then Get(d, "items").elems else []
  }

  /** `cartAPI.get`'s normalisation of the response body. Reading `item.productId` of a null or
      undefined item throws, which rejects the whole call. */
  function NormalizeCart(data: Val): (r: Result<Val, Failure>)
    ensures r.Err? <==> exists i :: 0 <= i < |RawItems(data)| && Nullish(RawItems(data)[i])
    ensures r.Err? ==> r.error == Failure(None, TypeErrorText)
    ensures r.Ok? ==> Get(r.value, "items").Arr?
                      && |Get(r.value, "items").elems| == |RawItems(data)|
                      && forall i :: 0 <= i < |RawItems(data)| ==>
                           Get(r.value, "items").elems[i] == NormalizeItem(RawItems(data)[i])
    ensures r.Ok? ==> Get(r.value, "total") ==
                      (if Get(Or(data, EmptyObj), "total").Num? then Get(Or(data, EmptyObj), "total") else NumVal(0.0))
  {
    var d := Or(data, EmptyObj);
    var raw := RawItems(data);
    if exists i :: 0 <= i < |raw| && Nullish(raw[i]) then Err(Failure(None, TypeErrorText))
    else
      var items := seq(|raw|, i requires 0 <= i < |raw| => NormalizeItem(raw[i]));
      Ok(Obj(map[
        "userId" := Or(Get(d, "userId"), Null),
        "items" := Arr(items),
        "total" := if Get(d, "total").Num? then Get(d, "total") else NumVal(0.0)]))
  }

  /** The fields of a normalised item. The id (and productId) is the item's truthy productId,
      else its id. The name is the item's own, else the nested product's, else "Unknown Product".
      The quantity is the item's own quantity when that is a number and 1 otherwise; the price is
      the item's price when that is a number and otherwise the nested product's price or 0. The
      line total is the stated one, else price times quantity, else the product's price (or 0)
      times the quantity (or 1). A truthy nested product is kept; otherwise the fallback product
      is built. */
  lemma NormalizedItemFields(item: Val)
    ensures Get(NormalizeItem(item), "id") == Get(NormalizeItem(item), "productId")
    ensures Get(NormalizeItem(item), "id") ==
            (if Truthy(Get(item, "productId")) then Get(item, "productId") else Get(item, "id"))
    ensures Get(NormalizeItem(item), "name") ==
            (if Truthy(Get(item, "name")) then Get(item, "name")
             else if Truthy(Get(ProductOf(item), "name")) then Get(ProductOf(item), "name")
             else Str(UnknownProduct))
    ensures Get(NormalizeItem(item), "quantity") ==
            (if Get(item, "quantity").Num? then Get(item, "quantity") else NumVal(1.0))
    ensures Get(NormalizeItem(item), "price") ==
            (if Get(item, "price").Num? then Get(item, "price")
             else if Truthy(Get(ProductOf(item), "price")) then Get(ProductOf(item), "price")
             else NumVal(0.0))
    ensures Truthy(Get(item, "lineTotal")) ==> Get(NormalizeItem(item), "lineTotal") == Get(item, "lineTotal")
    ensures !Truthy(Get(item, "lineTotal")) && Get(item, "price").Num? && Get(item, "quantity").Num?
            && Truthy(Num(Mul(Get(item, "price").n, Get(item, "quantity").n)))
            ==> Get(NormalizeItem(item), "lineTotal") == Num(Mul(Get(item, "price").n, Get(item, "quantity").n))
    ensures !Truthy(Get(item, "lineTotal")) && !Truthy(Num(Mul(ToNumber(Get(item, "price")), ToNumber(Get(item, "quantity")))))
            ==> Get(NormalizeItem(item), "lineTotal") ==
                Num(Mul(ToNumber(Or(Get(ProductOf(item), "price"), NumVal(0.0))),
                        ToNumber(Or(Get(item, "quantity"), NumVal(1.0)))))
    ensures Get(NormalizeItem(item), "product") ==
            (if Truthy(ProductOf(item)) then ProductOf(item) else FallbackProduct(item))
  {
  }

  // ---------------------------------------------------------------------------
  // Service calls

  function OutcomeOf(reply: Reply): (r: Result<Val, Failure>)
    ensures r.Ok? <==> reply.Done?
  {
    if reply.Done? then Ok(reply.data) else Err(reply.failure)
  }

  /** What `cartAPI.get` leaves behind and resolves to: the exchange, then the normalisation of a
      successful reply. */
  function FetchCart(b: Browser, st: BrowserState): (r: (BrowserState, Result<Val, Failure>))
    ensures r.0 == Exchange(b, st, GetCart).0
  {
    var (st1, reply) := Exchange(b, st, GetCart);
    (st1, if reply.Done? then NormalizeCart(reply.data) else Err(reply.failure))
  }

  /** `cartAPI.get()` */
  method GetCartData(b: Browser) returns (r: Result<Val, Failure>)
    modifies b
    ensures (b.st, r) == FetchCart(b, old(b.st))
  {
    var reply := b.Send(GetCart);
    r := if reply.Done? then NormalizeCart(reply.data) else Err(reply.failure);
  }

  /** `cartAPI.addItem(productId, quantity)`: posts the clamped quantity. */
  method AddCartItem(b: Browser, productId: string, quantity: Number) returns (r: Result<Val, Failure>)
    modifies b
    ensures var (st, reply) := Exchange(b, old(b.st), AddItem(productId, ClampQuantity(quantity)));
            b.st == st && r == OutcomeOf(reply)
  {
    var reply := b.Send(AddItem(productId, ClampQuantity(quantity)));
    r := OutcomeOf(reply);
  }

  /** `cartAPI.removeItem(productId)` */
  method RemoveCartItem(b: Browser, productId: string) returns (r: Result<Val, Failure>)
    modifies b
    ensures var (st, reply) := Exchange(b, old(b.st), RemoveItem(productId));
            b.st == st && r == OutcomeOf(reply)
  {
    var reply := b.Send(RemoveItem(productId));
    r := OutcomeOf(reply);
  }

  /** `cartAPI.clear()` */
  method ClearCartItems(b: Browser) returns (r: Result<Val, Failure>)
    modifies b
    ensures var (st, reply) := Exchange(b, old(b.st), ClearCart);
            b.st == st && r == OutcomeOf(reply)
  {
    var reply := b.Send(ClearCart);
    r := OutcomeOf(reply);
  }

  /** `authAPI.login(email, password)` and `authAPI.register(email, password, name)`, and
      `ordersAPI.checkout(order)`: each resolves to the response body. */
  method CallForData(b: Browser, c: Call) returns (r: Result<Val, Failure>)
    requires c.Login? || c.Register? || c.Checkout?
    modifies b
    ensures var (st, reply) := Exchange(b, old(b.st), c);
            b.st == st && r == OutcomeOf(reply)
  {
    var reply := b.Send(c);
    r := OutcomeOf(reply);
  }
}
