/** The orders admin page: the orders list with its search and status filter, the status change
    that rewrites one order in place, the load, the status colours, and the sample import. Server
    replies are inputs; `calls` records the requests the page makes. */
module OrdersAdmin {
  import opened Base
  import opened Text
  import opened Js
  import opened Lists
  import opened ApiClient
  import opened AuthUtils
  import opened AdminImport

  /** An order as the page uses it: its id, its status, and the rest of the record. */
  datatype Order = Order(id: string, status: string, details: Val)

  datatype Request = LoadOrders | ImportSample | UpdateStatus(id: string, status: string)

  const AllStatuses: string := "all"
  const LoadFailed: string := "Failed to load orders from API"
  const UpdateFailed: string := "Failed to update order status"

  /** The id contains the search term, and the filter is "all" or equals the status, all ignoring
      case. */
  predicate Shown(o: Order, term: string, statusFilter: string) {
    ContainsIgnoringCase(o.id, term)
    && (statusFilter == AllStatuses || Lower(o.status) == Lower(statusFilter))
  }

  /** `filteredOrders` */
  function FilteredOrders(orders: seq<Order>, term: string, statusFilter: string): (r: seq<Order>)
    ensures forall o :: o in r <==> o in orders && Shown(o, term, statusFilter)
    ensures |r| <= |orders|
  {
    Filter(orders, (o: Order) => Shown(o, term, statusFilter))
  }

  /** The filter keeps the list's order, and with no term and "all" it keeps every order. */
  lemma FilteredOrdersKeepOrder(a: seq<Order>, b: seq<Order>, term: string, statusFilter: string)
    ensures FilteredOrders(a + b, term, statusFilter) ==
            FilteredOrders(a, term, statusFilter) + FilteredOrders(b, term, statusFilter)
    ensures FilteredOrders(a, "", AllStatuses) == a
  {
    FilterAppend(a, b, (o: Order) => Shown(o, term, statusFilter));
    forall i | 0 <= i < |a| ensures Shown(a[i], "", AllStatuses) {
      EmptyTermMatches(a[i].id);
    }
    FilterKeepsAll(a, (o: Order) => Shown(o, "", AllStatuses));
  }

  /** The update after a successful status change: `{ ...order, status }` for the order with that
      id, every other order as it was. */
  function WithStatus(orders: seq<Order>, id: string, status: string): (r: seq<Order>)
    ensures |r| == |orders|
    ensures forall i :: 0 <= i < |orders| ==>
              r[i] == if orders[i].id == id then orders[i].(status := status) else orders[i]
  {
    MapWhere(orders, (o: Order) => o.id == id, (o: Order) => o.(status := status))
  }

  /** Changing the status twice to the same value is changing it once, and an order whose status
      was changed then shows under a filter for its new status (when its id matches the term). */
  lemma StatusChangeSettles(orders: seq<Order>, id: string, status: string, term: string)
    requires ContainsIgnoringCase(id, term)
    ensures WithStatus(WithStatus(orders, id, status), id, status) == WithStatus(orders, id, status)
    ensures forall i :: 0 <= i < |orders| && orders[i].id == id ==>
              WithStatus(orders, id, status)[i] in FilteredOrders(WithStatus(orders, id, status), term, status)
  {
  }

  const Gray: string := "bg-gray-100 text-gray-800"

  /** `getStatusColor`: by the lower-cased status, gray for an unknown one. */
  function StatusColor(status: string): (r: string)
    ensures r == Gray <==> Lower(status) !in ["pending", "paid", "shipped", "delivered", "cancelled"]
  {
    match Lower(status)
    case "pending" => "bg-yellow-100 text-yellow-800"
    case "paid" => "bg-blue-100 text-blue-800"
    case "shipped" => "bg-purple-100 text-purple-800"
    case "delivered" => "bg-green-100 text-green-800"
    case "cancelled" => "bg-red-100 text-red-800"
    case _ => Gray
  }

  /** The colour ignores case: "Shipped", "SHIPPED" and "shipped" look the same. */
  lemma StatusColorIgnoresCase(status: string)
    ensures StatusColor(status) == StatusColor(Lower(status))
  {
    LowerIdempotent(status);
  }

  class OrdersAdminPage {
    var orders: seq<Order>
    var searchTerm: string
    var statusFilter: string
    var loading: bool
    var error: Option<string>
    var importing: bool
    var importStatus: ImportStatus
    ghost var calls: seq<Request>
    const browser: Browser
    const decodePayload: string -> Option<Val>

    constructor(browser: Browser, decodePayload: string -> Option<Val>)
      ensures orders == [] && searchTerm == "" && statusFilter == AllStatuses && loading && error.None?
      ensures !importing && importStatus == NoStatus && calls == []
      ensures this.browser == browser && this.decodePayload == decodePayload
    {
      orders := [];
      searchTerm := "";
      statusFilter := AllStatuses;
      loading := true;
      error := None;
      importing := false;
      importStatus := NoStatus;
      calls := [];
      this.browser := browser;
      this.decodePayload := decodePayload;
    }

    function Visible(): seq<Order>
      reads this
    {
      FilteredOrders(orders, searchTerm, statusFilter)
    }

    /** `loadOrders`: the list on success; on failure no orders and the load error. */
    method Load(fetched: Option<seq<Order>>)
      modifies this
      ensures !loading && calls == old(calls) + [LoadOrders]
      ensures fetched.Some? ==> orders == fetched.value && error.None?
      ensures fetched.None? ==> orders == [] && error == Some(LoadFailed)
      ensures searchTerm == old(searchTerm) && statusFilter == old(statusFilter) && importStatus == old(importStatus)
      ensures importing == old(importing)
    {
      error := None;
      calls := calls + [LoadOrders];
      if fetched.Some? {
        orders := fetched.value;
      } else {
        error := Some(LoadFailed);
        orders := [];
      }
      loading := false;
    }

    /** `handleStatusChange`: a successful update rewrites that order only; a failed one keeps the
        list and sets the error. */
    method HandleStatusChange(orderId: string, newStatus: string, succeeded: bool)
      modifies this
      ensures calls == old(calls) + [UpdateStatus(orderId, newStatus)]
      ensures succeeded ==> orders == WithStatus(old(orders), orderId, newStatus) && error == old(error)
      ensures !succeeded ==> orders == old(orders) && error == Some(UpdateFailed)
      ensures searchTerm == old(searchTerm) && statusFilter == old(statusFilter) && importStatus == old(importStatus)
      ensures loading == old(loading) && importing == old(importing)
    {
      calls := calls + [UpdateStatus(orderId, newStatus)];
      if succeeded {
        orders := WithStatus(orders, orderId, newStatus);
      } else {
        error := Some(UpdateFailed);
      }
    }

    /** `handleImportSampleProducts`: refused, with no request, unless the stored token names an
        admin; otherwise the import and its banner, with `importing` reset at the end. */
    method HandleImportSampleProducts(reply: ImportReply)
      modifies this
      ensures orders == old(orders) && error == old(error)
      ensures searchTerm == old(searchTerm) && statusFilter == old(statusFilter) && loading == old(loading)
      ensures !IsAdmin(browser.st.storage, decodePayload) ==>
                importStatus == AdminRequired && calls == old(calls) && importing == old(importing)
      ensures IsAdmin(browser.st.storage, decodePayload) ==>
                importStatus == ReportOf(reply) && calls == old(calls) + [ImportSample] && !importing
    {
      if !IsAdmin(browser.st.storage, decodePayload) {
        importStatus := AdminRequired;
        return;
      }
      importing := true;
      importStatus := ImportStatus(true, "Starting import of sample products...", InfoStatus);
      calls := calls + [ImportSample];
      importStatus := ReportOf(reply);
      importing := false;
    }

    /** The timer that hides the banner. */
    method HideImportStatus()
      modifies this
      ensures importStatus == Hidden(old(importStatus))
      ensures orders == old(orders) && calls == old(calls) && error == old(error)
      ensures importing == old(importing) && searchTerm == old(searchTerm) && statusFilter == old(statusFilter)
      ensures loading == old(loading)
    {
      importStatus := importStatus.(show := false);
    }
  }
}
