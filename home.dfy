/** The shop's home page: the category list derived from the products, the filtered grid, the
    featured products, and the load and reload of the product list (whose replies are inputs). */
module Home {
  import opened Base
  import opened Text
  import opened Lists

  /** A product as the home page uses it; `featured` is false when the record has none. */
  datatype Product = Product(id: string, name: string, description: string, category: string, featured: bool)

  const AllCategories: string := "all"
  const LoadFailed: string := "Failed to load products from API"

  function Elems(s: seq<string>): set<string> {
    set x | x in s
  }

  predicate NoDuplicates(s: seq<string>) {
    forall i, j :: 0 <= i < j < |s| ==> s[i] != s[j]
  }

  /** The values of s not in `seen`, each once, in order of first appearance: what iterating a
      `Set` built from s yields, when `seen` is empty. */
  function FirstAppearances(s: seq<string>, seen: set<string>): (r: seq<string>)
    ensures NoDuplicates(r)
    ensures forall x :: x in r <==> x in s && x !in seen
    decreases |s|
  {
    if s == [] then []
    else if s[0] in seen then FirstAppearances(s[1..], seen)
    else [s[0]] + FirstAppearances(s[1..], seen + {s[0]})
  }

  /** First appearances of a concatenation are those of the first part, then those of the second
      part not already seen in the first: so the order is that of first appearance. */
  lemma {:induction false} FirstAppearancesAppend(a: seq<string>, b: seq<string>, seen: set<string>)
    ensures FirstAppearances(a + b, seen) == FirstAppearances(a, seen) + FirstAppearances(b, seen + Elems(a))
    decreases |a|
  {
    if a == [] {
      assert a + b == b;
      assert Elems(a) == {};
      assert seen + Elems(a) == seen;
    } else {
      assert (a + b)[0] == a[0];
      assert (a + b)[1..] == a[1..] + b;
      if a[0] in seen {
        FirstAppearancesAppend(a[1..], b, seen);
        assert seen + Elems(a[1..]) == seen + Elems(a);
      } else {
        FirstAppearancesAppend(a[1..], b, seen + {a[0]});
        assert seen + {a[0]} + Elems(a[1..]) == seen + Elems(a);
      }
    }
  }

  function CategoriesOf(products: seq<Product>): (r: seq<string>)
    ensures |r| == |products|
    ensures forall i :: 0 <= i < |products| ==> r[i] == products[i].category
  {
    seq(|products|, i requires 0 <= i < |products| => products[i].category)
  }

  /** `['all', ...new Set(products.map(p => p.category))]` */
  function Categories(products: seq<Product>): (r: seq<string>)
    ensures |r| >= 1 && r[0] == AllCategories
    ensures NoDuplicates(r[1..])
    ensures forall c :: c in r[1..] <==> exists i :: 0 <= i < |products| && products[i].category == c
  {
    var r := [AllCategories] + FirstAppearances(CategoriesOf(products), {});
    assert r[1..] == FirstAppearances(CategoriesOf(products), {});
    r
  }

  /** The list repeats "all" exactly when some product's category is "all". */
  lemma CategoriesDistinctUnlessAll(products: seq<Product>)
    ensures NoDuplicates(Categories(products)) <==> forall i :: 0 <= i < |products| ==> products[i].category != AllCategories
  {
    var r := Categories(products);
    if exists i :: 0 <= i < |products| && products[i].category == AllCategories {
      assert AllCategories in r[1..];
      var j :| 0 <= j < |r[1..]| && r[1..][j] == AllCategories;
      assert r[0] == r[j + 1];
    } else {
      assert AllCategories !in r[1..];
      forall i, j | 0 <= i < j < |r| ensures r[i] != r[j] {
        if i == 0 {
          assert r[j] == r[1..][j - 1];
        } else {
          assert r[i] == r[1..][i - 1] && r[j] == r[1..][j - 1];
        }
      }
    }
  }

  /** The category filter and the text search together. */
  predicate Shown(p: Product, category: string, term: string) {
    (category == AllCategories || p.category == category)
    && (ContainsIgnoringCase(p.name, term) || ContainsIgnoringCase(p.description, term))
  }

  /** `filteredProducts` */
  function FilteredProducts(products: seq<Product>, category: string, term: string): (r: seq<Product>)
    ensures forall p :: p in r <==> p in products && Shown(p, category, term)
  {
    Filter(products, (p: Product) => Shown(p, category, term))
  }

  /** The grid keeps the list's order; with "all" and no search it shows every product. */
  lemma FilteredProductsKeepOrder(a: seq<Product>, b: seq<Product>, category: string, term: string)
    ensures FilteredProducts(a + b, category, term) == FilteredProducts(a, category, term) + FilteredProducts(b, category, term)
    ensures FilteredProducts(a, AllCategories, "") == a
  {
    FilterAppend(a, b, (p: Product) => Shown(p, category, term));
    forall i | 0 <= i < |a| ensures Shown(a[i], AllCategories, "") {
      EmptyTermMatches(a[i].name);
    }
    FilterKeepsAll(a, (p: Product) => Shown(p, AllCategories, ""));
  }

  /** `featuredProducts` */
  function FeaturedProducts(products: seq<Product>): (r: seq<Product>)
    ensures forall p :: p in r <==> p in products && p.featured
  {
    Filter(products, (p: Product) => p.featured)
  }

  class HomePage {
    var selectedCategory: string
    var searchTerm: string
    var products: seq<Product>
    var loading: bool
    var error: Option<string>

    constructor()
      ensures selectedCategory == AllCategories && searchTerm == "" && products == [] && loading && error.None?
    {
      selectedCategory := AllCategories;
      searchTerm := "";
      products := [];
      loading := true;
      error := None;
    }

    /** The mount effect's load: the list on success; on failure no products and the load error. */
    method Load(fetched: Option<seq<Product>>)
      modifies this
      ensures !loading && selectedCategory == old(selectedCategory) && searchTerm == old(searchTerm)
      ensures fetched.Some? ==> products == fetched.value && error.None?
      ensures fetched.None? ==> products == [] && error == Some(LoadFailed)
    {
      error := None;
      if fetched.Some? {
        products := fetched.value;
      } else {
        error := Some(LoadFailed);
        products := [];
      }
      loading := false;
    }

    /** `handleProductDeleted`: the reload replaces the list; a failed reload keeps it and sets
        no error. */
    method HandleProductDeleted(fetched: Option<seq<Product>>)
      modifies this
      ensures fetched.Some? ==> products == fetched.value
      ensures fetched.None? ==> products == old(products)
      ensures error == old(error) && loading == old(loading)
      ensures selectedCategory == old(selectedCategory) && searchTerm == old(searchTerm)
    {
      if fetched.Some? {
        products := fetched.value;
      }
    }
  }
}
