/** The order server actions: the list, a single order, and update and delete (orders are not created here). */
module OrderActions {
  import opened Wrappers
  import opened JsText
  import opened Json
  import opened ServerActions
  import ApiService

  /** `OrderFilterParams`. */
  datatype OrderFilter = OrderFilter(page: int, pageSize: int, search: Option<string>, status: Option<string>,
                                     paymentStatus: Option<string>, sort: Option<string>, order: Option<string>)

  const DefaultOrderFilter := OrderFilter(DefaultPage, DefaultPageSize, None, None, None, None, None)

  function OrderEntries(f: OrderFilter): seq<(string, Option<string>)> {
    [("search", f.search), ("status", f.status), ("paymentStatus", f.paymentStatus), ("sort", f.sort), ("order", f.order)]
  }

  /** The query of `listOrdersAction`. */
  function OrderQuery(f: OrderFilter): Query {
    ListQuery(f.page, f.pageSize, OrderEntries(f))
  }

  /** The order query: page and pageSize first, in decimal, and then its optional keys in a fixed order. */
  lemma OrderQueryOrder(f: OrderFilter)
    ensures var q := OrderQuery(f);
      Subsequence(Keys(q), ["page", "pageSize", "search", "status", "paymentStatus", "sort", "order"])
      && Lookup(q, "page") == Some(IntToString(f.page)) && Lookup(q, "pageSize") == Some(IntToString(f.pageSize))
  {
    var e := OrderEntries(f);
    assert ["page", "pageSize"] + Keys(e) == ["page", "pageSize", "search", "status", "paymentStatus", "sort", "order"];
    ListQueryInOrder(f.page, f.pageSize, e);
  }

  /** Each of search, status, paymentStatus, sort and order is in the order query, with its value, exactly when that is non-empty. */
  lemma OrderQueryShape(f: OrderFilter)
    ensures var q := OrderQuery(f);
      Lookup(q, "search") == Setting(f.search) && Lookup(q, "status") == Setting(f.status)
      && Lookup(q, "paymentStatus") == Setting(f.paymentStatus)
      && Lookup(q, "sort") == Setting(f.sort) && Lookup(q, "order") == Setting(f.order)
  {
    var e := OrderEntries(f);
    assert OptionalKeys(e);
    ListQueryEntry(f.page, f.pageSize, e, 0);
    ListQueryEntry(f.page, f.pageSize, e, 1);
    ListQueryEntry(f.page, f.pageSize, e, 2);
    ListQueryEntry(f.page, f.pageSize, e, 3);
    ListQueryEntry(f.page, f.pageSize, e, 4);
  }

  /** `listOrdersAction(params)`: a GET of the order list; the normalised page or "Failed to fetch orders". */
  function ListOrders(params: Option<OrderFilter>, response: Settled): (r: (Call, Result<DataFetchState>))
    ensures var f := params.GetOr(DefaultOrderFilter);
      r.0 == Call(ApiService.GET, ListPath(Orders, OrderQuery(f)), None)
      && ReportsPage(r.1, response, f.page, f.pageSize, "Failed to fetch orders")
  {
    var f := params.GetOr(DefaultOrderFilter);
    (Call(ApiService.GET, ListPath(Orders, OrderQuery(f)), None), ListOutcome(response, f.page, f.pageSize, "Failed to fetch orders"))
  }

  /** Without parameters, the first page of 20 is requested and echoed. */
  lemma ListOrdersDefaults(response: Settled)
    ensures Lookup(ListOrders(None, response).0.endpoint.query, "page") == Some("1")
    ensures Lookup(ListOrders(None, response).0.endpoint.query, "pageSize") == Some("20")
    ensures ListOrders(None, response).1.Ok? ==>
      ListOrders(None, response).1.value.page == 1 && ListOrders(None, response).1.value.pageSize == 20
  {
    OrderQueryOrder(DefaultOrderFilter);
    PageNumberTexts();
  }

  /** `getOrderAction(id)`: its body, or "Failed to fetch order". */
  function GetOrder(id: string, response: Settled): (r: (Call, Result<Json>))
    ensures r.0 == Call(ApiService.GET, ItemPath(Orders, GetOp, id), None)
    ensures response.Resolved? ==> r.1 == Ok(response.value)
    ensures response.Rejected? ==> r.1 == Err("Failed to fetch order")
  {
    (Call(ApiService.GET, ItemPath(Orders, GetOp, id), None), GetOutcome(response, "Failed to fetch order"))
  }

  /** `updateOrderAction(id, payload)`. */
  function UpdateOrder(id: string, payload: Json, response: Settled): (r: (Call, Result<ActionResult>))
    ensures r.0 == Call(ApiService.PUT, ItemPath(Orders, UpdateOp, id), Some(payload))
    ensures Reports(r.1, response, true, "Failed to update order")
  {
    (Call(ApiService.PUT, ItemPath(Orders, UpdateOp, id), Some(payload)), ActionOutcome(response, true, "Failed to update order"))
  }

  /** `deleteOrderAction(id)`: a success carries `null`. */
  function DeleteOrder(id: string, response: Settled): (r: (Call, Result<ActionResult>))
    ensures r.0 == Call(ApiService.DELETE, ItemPath(Orders, DeleteOp, id), None)
    ensures Reports(r.1, response, false, "Failed to delete order")
  {
    (Call(ApiService.DELETE, ItemPath(Orders, DeleteOp, id), None), ActionOutcome(response, false, "Failed to delete order"))
  }
}
