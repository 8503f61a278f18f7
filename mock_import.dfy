/** The payload `importSampleProductsFromMock` posts to the seeding endpoint: each mock product
    mapped to the fields the server's create request expects, with defaults for missing ones. */
module MockImport {
  import opened Js

  const PayloadKeys: set<string> := {"name", "description", "category", "price", "stockQuantity", "imageUrl"}
  const DefaultCategory: string := "general"
  const DefaultStock: real := 10.0

  /** One mapped product. `name` and `price` are copied; `description` defaults to "", `category`
      to "general", `stockQuantity` to 10; `imageUrl` falls back to `image`, then to null. */
  function PayloadEntry(p: Val): (r: Val)
    ensures r.Obj? && r.fields.Keys == PayloadKeys
    ensures Get(r, "name") == Get(p, "name") && Get(r, "price") == Get(p, "price")
    ensures !Nullish(Get(r, "description")) && !Nullish(Get(r, "category")) && !Nullish(Get(r, "stockQuantity"))
    ensures Get(r, "description") == (if Nullish(Get(p, "description")) then Str("") else Get(p, "description"))
    ensures Get(r, "category") == (if Nullish(Get(p, "category")) then Str(DefaultCategory) else Get(p, "category"))
    ensures Get(r, "stockQuantity") == (if Nullish(Get(p, "stockQuantity")) then NumVal(DefaultStock) else Get(p, "stockQuantity"))
    ensures Get(r, "imageUrl") == (if !Nullish(Get(p, "imageUrl")) then Get(p, "imageUrl")
                                   else if !Nullish(Get(p, "image")) then Get(p, "image") else Null)
  {
    Obj(map[
      "name" := Get(p, "name"),
      "description" := Coalesce(Get(p, "description"), Str("")),
      "category" := Coalesce(Get(p, "category"), Str(DefaultCategory)),
      "price" := Get(p, "price"),
      "stockQuantity" := Coalesce(Get(p, "stockQuantity"), NumVal(DefaultStock)),
      "imageUrl" := Coalesce(Coalesce(Get(p, "imageUrl"), Get(p, "image")), Null)])
  }

  /** `mockProducts.map(...)`: one entry per mock product, in the same order. */
  function ImportPayload(mock: seq<Val>): (r: seq<Val>)
    ensures |r| == |mock|
    ensures forall i :: 0 <= i < |mock| ==> r[i] == PayloadEntry(mock[i])
  {
    seq(|mock|, i requires 0 <= i < |mock| => PayloadEntry(mock[i]))
  }

  /** The payload of a concatenation is the concatenation of the payloads. */
  lemma {:induction false} ImportPayloadAppend(a: seq<Val>, b: seq<Val>)
    ensures ImportPayload(a + b) == ImportPayload(a) + ImportPayload(b)
  {
    var l, r := ImportPayload(a + b), ImportPayload(a) + ImportPayload(b);
    assert |l| == |r|;
    forall i | 0 <= i < |l| ensures l[i] == r[i] {
      if i < |a| {
        assert (a + b)[i] == a[i];
      } else {
        assert (a + b)[i] == b[i - |a|];
      }
    }
  }

  /** The shape of an entry of the mock product list. */
  datatype MockProduct = MockProduct(id: string, name: string, description: string, price: real, imageUrl: string,
                                     category: string, stock: real, featured: bool)

  function AsVal(m: MockProduct): (r: Val)
    ensures r.Obj? && "stockQuantity" !in r.fields && "image" !in r.fields
  {
    Obj(map[
      "id" := Str(m.id),
      "name" := Str(m.name),
      "description" := Str(m.description),
      "price" := NumVal(m.price),
      "imageUrl" := Str(m.imageUrl),
      "category" := Str(m.category),
      "stock" := NumVal(m.stock),
      "featured" := Bool(m.featured)])
  }

  /** The mock entries carry `stock` rather than `stockQuantity`, so an imported mock product
      gets a stock of 10 whatever its mock stock, while name, description, category, price and
      image come through unchanged; the id and the featured flag are not sent. */
  lemma MockEntryPayload(m: MockProduct)
    ensures PayloadEntry(AsVal(m)) == Obj(map[
              "name" := Str(m.name),
              "description" := Str(m.description),
              "category" := Str(m.category),
              "price" := NumVal(m.price),
              "stockQuantity" := NumVal(DefaultStock),
              "imageUrl" := Str(m.imageUrl)])
  {
    var v := AsVal(m);
    assert Get(v, "stockQuantity") == Undefined;
  }

  /** For the whole mock list: one entry per product, each with stock 10. */
  lemma {:induction false} MockStockIsIgnored(mock: seq<MockProduct>)
    ensures var payload := ImportPayload(seq(|mock|, i requires 0 <= i < |mock| => AsVal(mock[i])));
            |payload| == |mock|
            && forall i :: 0 <= i < |mock| ==>
                 Get(payload[i], "stockQuantity") == NumVal(DefaultStock) && Get(payload[i], "name") == Str(mock[i].name)
  {
    var vals := seq(|mock|, i requires 0 <= i < |mock| => AsVal(mock[i]));
    var payload := ImportPayload(vals);
    forall i | 0 <= i < |mock|
      ensures Get(payload[i], "stockQuantity") == NumVal(DefaultStock) && Get(payload[i], "name") == Str(mock[i].name)
    {
      assert payload[i] == PayloadEntry(AsVal(mock[i]));
      MockEntryPayload(mock[i]);
    }
  }
}
