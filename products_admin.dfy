/** The older products admin page: the product list with its search, the create/edit modal and
    its submit (replace in place or append), the delete, and the sample import, whose reload
    refers to a function that is not in scope. Server replies and the confirmation dialog's
    answer are inputs; `calls` records the requests the page makes. */
module ProductsAdmin {
  import opened Base
  import opened Text
  import opened Js
  import opened Lists
  import opened ApiClient
  import opened AuthUtils
  import opened AdminImport

  datatype Product = Product(id: string, name: string, description: string, price: Number, imageUrl: string,
                             category: string, stock: Number, featured: bool)

  /** The modal's fields; price and stock are kept as the text typed. */
  datatype Form = Form(name: string, description: string, price: string, category: string, stock: string,
                       imageUrl: string, featured: bool)

  const EmptyForm: Form := Form("", "", "", "", "", "", false)

  datatype Request = LoadProducts | ImportSample | CreateProduct(form: Form) | UpdateProduct(id: string, form: Form)
                   | DeleteProduct(id: string)

  const LoadFailed: string := "Failed to load products from API"
  const SaveFailed: string := "Failed to save product"
  const DeleteFailed: string := "Failed to delete product"

  /** The name or the category contains the term, ignoring case. */
  predicate Shown(p: Product, term: string) {
    ContainsIgnoringCase(p.name, term) || ContainsIgnoringCase(p.category, term)
  }

  /** `filteredProducts` */
  function FilteredProducts(products: seq<Product>, term: string): (r: seq<Product>)
    ensures forall p :: p in r <==> p in products && Shown(p, term)
  {
    Filter(products, (p: Product) => Shown(p, term))
  }

  /** The filter keeps the list's order, and an empty term keeps every product. */
  lemma FilteredProductsKeepOrder(a: seq<Product>, b: seq<Product>, term: string)
    ensures FilteredProducts(a + b, term) == FilteredProducts(a, term) + FilteredProducts(b, term)
    ensures FilteredProducts(a, "") == a
  {
    FilterAppend(a, b, (p: Product) => Shown(p, term));
    forall i | 0 <= i < |a| ensures Shown(a[i], "") {
      EmptyTermMatches(a[i].name);
    }
    FilterKeepsAll(a, (p: Product) => Shown(p, ""));
  }

  /** `{ ...formData, price: parseFloat(formData.price), stock: parseInt(formData.stock) }` under
      the given id. */
  function ProductData(form: Form, id: string): (r: Product)
    ensures r.id == id && r.name == form.name && r.category == form.category && r.featured == form.featured
    ensures r.price == ParseFloat(form.price) && r.stock == ParseInt(form.stock)
    ensures r.description == form.description && r.imageUrl == form.imageUrl
  {
    Product(id, form.name, form.description, ParseFloat(form.price), form.imageUrl, form.category,
            ParseInt(form.stock), form.featured)
  }

  /** The list after a successful edit: the entries with the edited id become the form's product
      under that id; the others stay as they were. */
  function Replaced(products: seq<Product>, id: string, form: Form): (r: seq<Product>)
    ensures |r| == |products|
    ensures forall i :: 0 <= i < |products| ==>
              r[i] == if products[i].id == id then ProductData(form, id) else products[i]
  {
    MapWhere(products, (p: Product) => p.id == id, (p: Product) => ProductData(form, id))
  }

  /** The list after a successful delete: every entry with that id gone, the rest in order. */
  function Without(products: seq<Product>, id: string): (r: seq<Product>)
    ensures forall p :: p in r <==> p in products && p.id != id
    ensures |r| <= |products|
  {
    Filter(products, (p: Product) => p.id != id)
  }

  /** `handleEdit`'s form: the fields copied, the numbers printed back to text. */
  function FormOf(p: Product): Form {
    Form(p.name, p.description, NumberToString(p.price), p.category, NumberToString(p.stock), p.imageUrl, p.featured)
  }

  /** Opening a product with whole-number price and stock and saving it unchanged replaces it
      with itself. */
  lemma EditUnchangedKeepsProduct(p: Product, price: int, stock: int)
    requires p.price == Fin(price as real) && p.stock == Fin(stock as real)
    ensures ProductData(FormOf(p), p.id) == p
  {
    IntegerSpellingRoundTrip(price);
    IntegerSpellingRoundTrip(stock);
  }

  /** `loadProducts` exists only inside the mount effect, so the reload after an import throws a
      ReferenceError with this message. */
  const ReloadError: string := "loadProducts is not defined"

  /** The banner the import leaves as written: a completed import goes on to the out-of-scope
      reload, whose ReferenceError replaces the completion banner with a failure. */
  function ReportAsWritten(reply: ImportReply): (r: ImportStatus)
    ensures r.kind == ErrorStatus
    ensures reply.Imported? ==> r == FailedStatus(Some(ReloadError))
  {
    match reply
    case Imported(_) => FailedStatus(Some(ReloadError))
    case Threw(m) => FailedStatus(m)
  }

  /** A clean import is reported as a failure, where the completion banner was meant. */
  lemma CleanImportReportedAsFailure(created: Val, skipped: Val)
    ensures var reply := Imported(ImportResult(created, skipped, []));
            ReportAsWritten(reply).kind == ErrorStatus && ReportOf(reply).kind == SuccessStatus
    ensures ReportAsWritten(Imported(ImportResult(created, skipped, []))).message ==
            "Import failed: " + ReloadError + FailureAdvice
  {
  }

  class ProductsAdminPage {
    var products: seq<Product>
    var isModalOpen: bool
    var editingProduct: Option<Product>
    var searchTerm: string
    var loading: bool
    var error: Option<string>
    var importing: bool
    var importStatus: ImportStatus
    var formData: Form
    ghost var calls: seq<Request>
    const browser: Browser
    const decodePayload: string -> Option<Val>

    constructor(browser: Browser, decodePayload: string -> Option<Val>)
      ensures products == [] && !isModalOpen && editingProduct.None? && searchTerm == "" && loading
      ensures error.None? && !importing && importStatus == NoStatus && formData == EmptyForm && calls == []
      ensures this.browser == browser && this.decodePayload == decodePayload
    {
      products := [];
      isModalOpen := false;
      editingProduct := None;
      searchTerm := "";
      loading := true;
      error := None;
      importing := false;
      importStatus := NoStatus;
      formData := EmptyForm;
      calls := [];
      this.browser := browser;
      this.decodePayload := decodePayload;
    }

    /** The mount effect's `loadProducts`. */
    method Load(fetched: Option<seq<Product>>)
      modifies this
      ensures !loading && calls == old(calls) + [LoadProducts]
      ensures fetched.Some? ==> products == fetched.value && error.None?
      ensures fetched.None? ==> products == [] && error == Some(LoadFailed)
      ensures formData == old(formData) && editingProduct == old(editingProduct) && isModalOpen == old(isModalOpen)
      ensures importStatus == old(importStatus) && importing == old(importing) && searchTerm == old(searchTerm)
    {
      error := None;
      calls := calls + [LoadProducts];
      if fetched.Some? {
        products := fetched.value;
      } else {
        error := Some(LoadFailed);
        products := [];
      }
      loading := false;
    }

    /** `handleCloseModal`: closed, nothing being edited, the form emptied. */
    method HandleCloseModal()
      modifies this
      ensures !isModalOpen && editingProduct.None? && formData == EmptyForm
      ensures products == old(products) && error == old(error) && calls == old(calls)
      ensures importStatus == old(importStatus) && importing == old(importing)
      ensures loading == old(loading) && searchTerm == old(searchTerm)
    {
      isModalOpen := false;
      editingProduct := None;
      formData := EmptyForm;
    }

    /** `handleEdit`: the modal opens on the product's fields. */
    method HandleEdit(p: Product)
      modifies this
      ensures isModalOpen && editingProduct == Some(p) && formData == FormOf(p)
      ensures products == old(products) && error == old(error) && calls == old(calls)
      ensures importStatus == old(importStatus) && importing == old(importing)
      ensures loading == old(loading) && searchTerm == old(searchTerm)
    {
      editingProduct := Some(p);
      formData := FormOf(p);
      isModalOpen := true;
    }

    /** `handleSubmit`: with a product being edited, the update and the replacement in place;
        otherwise the create and the returned product appended. Success closes the modal; failure
        keeps the list and the modal and sets the error. `saved` is the reply: the created
        product, or any product for an update, whose body is not used; None when the call fails. */
    method HandleSubmit(saved: Option<Product>)
      modifies this
      ensures old(editingProduct).Some? ==>
                calls == old(calls) + [UpdateProduct(old(editingProduct).value.id, old(formData))]
      ensures old(editingProduct).None? ==> calls == old(calls) + [CreateProduct(old(formData))]
      ensures saved.Some? && old(editingProduct).Some? ==>
                products == Replaced(old(products), old(editingProduct).value.id, old(formData))
      ensures saved.Some? && old(editingProduct).None? ==> products == old(products) + [saved.value]
      ensures saved.Some? ==> !isModalOpen && editingProduct.None? && formData == EmptyForm && error == old(error)
      ensures saved.None? ==> products == old(products) && error == Some(SaveFailed)
                              && isModalOpen == old(isModalOpen) && editingProduct == old(editingProduct)
                              && formData == old(formData)
      ensures importStatus == old(importStatus) && importing == old(importing)
      ensures loading == old(loading) && searchTerm == old(searchTerm)
    {
      if editingProduct.Some? {
        var id := editingProduct.value.id;
        calls := calls + [UpdateProduct(id, formData)];
        if saved.None? {
          error := Some(SaveFailed);
          return;
        }
        products := Replaced(products, id, formData);
      } else {
        calls := calls + [CreateProduct(formData)];
        if saved.None? {
          error := Some(SaveFailed);
          return;
        }
        products := products + [saved.value];
      }
      HandleCloseModal();
    }

    /** `handleDelete`: nothing without confirmation; otherwise the delete, and on success every
        entry with that id removed; a failure keeps the list and sets the error. */
    method HandleDelete(id: string, confirmed: bool, succeeded: bool)
      modifies this
      ensures !confirmed ==> products == old(products) && calls == old(calls) && error == old(error)
      ensures confirmed ==> calls == old(calls) + [DeleteProduct(id)]
      ensures confirmed && succeeded ==> products == Without(old(products), id) && error == old(error)
      ensures confirmed && !succeeded ==> products == old(products) && error == Some(DeleteFailed)
      ensures formData == old(formData) && editingProduct == old(editingProduct) && isModalOpen == old(isModalOpen)
      ensures importStatus == old(importStatus) && importing == old(importing)
      ensures loading == old(loading) && searchTerm == old(searchTerm)
    {
      if confirmed {
        calls := calls + [DeleteProduct(id)];
        if succeeded {
          products := Without(products, id);
        } else {
          error := Some(DeleteFailed);
        }
      }
    }

    /** `handleImportSampleProducts` as written: refused without an admin token; otherwise the
        import, whose completion banner the failed reload then overwrites. */
    method HandleImportAsWritten(reply: ImportReply)
      modifies this
      ensures products == old(products) && error == old(error)
      ensures formData == old(formData) && editingProduct == old(editingProduct) && isModalOpen == old(isModalOpen)
      ensures searchTerm == old(searchTerm) && loading == old(loading)
      ensures !IsAdmin(browser.st.storage, decodePayload) ==>
                importStatus == AdminRequired && calls == old(calls) && importing == old(importing)
      ensures IsAdmin(browser.st.storage, decodePayload) ==>
                importStatus == ReportAsWritten(reply) && calls == old(calls) + [ImportSample] && !importing
    {
      if !IsAdmin(browser.st.storage, decodePayload) {
        importStatus := AdminRequired;
        return;
      }
      importing := true;
      importStatus := ImportStatus(true, "Starting import of sample products...", InfoStatus);
      calls := calls + [ImportSample];
      match reply {
        case Imported(res) =>
          importStatus := CompleteStatus(res);
          importStatus := FailedStatus(Some(ReloadError));
        case Threw(m) =>
          importStatus := FailedStatus(m);
      }
      importing := false;
    }

    /** The import as intended: the completion banner stays, and the list is reloaded (which,
        like the mount's load, empties the list and sets the load error when it fails). */
    method HandleImport(reply: ImportReply, reloaded: Option<seq<Product>>)
      modifies this
      ensures !IsAdmin(browser.st.storage, decodePayload) ==>
                importStatus == AdminRequired && calls == old(calls) && importing == old(importing)
                && products == old(products) && error == old(error)
      ensures IsAdmin(browser.st.storage, decodePayload) ==> importStatus == ReportOf(reply) && !importing
      ensures IsAdmin(browser.st.storage, decodePayload) && reply.Threw? ==>
                calls == old(calls) + [ImportSample] && products == old(products) && error == old(error)
      ensures IsAdmin(browser.st.storage, decodePayload) && reply.Imported? ==>
                calls == old(calls) + [ImportSample, LoadProducts]
                && (reloaded.Some? ==> products == reloaded.value && error.None?)
                && (reloaded.None? ==> products == [] && error == Some(LoadFailed))
                && !loading
      ensures !(IsAdmin(browser.st.storage, decodePayload) && reply.Imported?) ==> loading == old(loading)
      ensures formData == old(formData) && editingProduct == old(editingProduct) && isModalOpen == old(isModalOpen)
      ensures searchTerm == old(searchTerm)
    {
      if !IsAdmin(browser.st.storage, decodePayload) {
        importStatus := AdminRequired;
        return;
      }
      importing := true;
      importStatus := ImportStatus(true, "Starting import of sample products...", InfoStatus);
      calls := calls + [ImportSample];
      if reply.Imported? {
        importStatus := CompleteStatus(reply.results);
        Load(reloaded);
      } else {
        importStatus := FailedStatus(reply.message);
      }
      importing := false;
    }
  }
}
