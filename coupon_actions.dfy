/** The coupon server actions: the list, a single coupon, and create, update and delete. */
module CouponActions {
  import opened Wrappers
  import opened JsText
  import opened Json
  import opened ServerActions
  import ApiService

  /** `CouponFilterParams`. */
  datatype CouponFilter = CouponFilter(page: int, pageSize: int, search: Option<string>, status: Option<string>,
                                       sort: Option<string>, order: Option<string>)

  const DefaultCouponFilter := CouponFilter(DefaultPage, DefaultPageSize, None, None, None, None)

  function CouponEntries(c: CouponFilter): seq<(string, Option<string>)> {
    [("search", c.search), ("status", c.status), ("sort", c.sort), ("order", c.order)]
  }

  /** The query of `listCouponsAction`. */
  function CouponQuery(c: CouponFilter): Query {
    ListQuery(c.page, c.pageSize, CouponEntries(c))
  }

  /** The coupon query: page and pageSize first, in decimal, and then its optional keys in a fixed order. */
  lemma CouponQueryOrder(c: CouponFilter)
    ensures var q := CouponQuery(c);
      Subsequence(Keys(q), ["page", "pageSize", "search", "status", "sort", "order"])
      && Lookup(q, "page") == Some(IntToString(c.page)) && Lookup(q, "pageSize") == Some(IntToString(c.pageSize))
  {
    var e := CouponEntries(c);
    assert ["page", "pageSize"] + Keys(e) == ["page", "pageSize", "search", "status", "sort", "order"];
    ListQueryInOrder(c.page, c.pageSize, e);
  }

  /** Each of search, status, sort and order is in the coupon query, with its value, exactly when that is non-empty. */
  lemma CouponQueryShape(c: CouponFilter)
    ensures var q := CouponQuery(c);
      Lookup(q, "search") == Setting(c.search) && Lookup(q, "status") == Setting(c.status)
      && Lookup(q, "sort") == Setting(c.sort) && Lookup(q, "order") == Setting(c.order)
  {
    var e := CouponEntries(c);
    assert OptionalKeys(e);
    ListQueryEntry(c.page, c.pageSize, e, 0);
    ListQueryEntry(c.page, c.pageSize, e, 1);
    ListQueryEntry(c.page, c.pageSize, e, 2);
    ListQueryEntry(c.page, c.pageSize, e, 3);
  }

  /** `listCouponsAction(params)`: a GET of the coupon list; the normalised page or "Failed to fetch coupons". */
  function ListCoupons(params: Option<CouponFilter>, response: Settled): (r: (Call, Result<DataFetchState>))
    ensures var c := params.GetOr(DefaultCouponFilter);
      r.0 == Call(ApiService.GET, ListPath(Coupons, CouponQuery(c)), None)
      && ReportsPage(r.1, response, c.page, c.pageSize, "Failed to fetch coupons")
  {
    var c := params.GetOr(DefaultCouponFilter);
    (Call(ApiService.GET, ListPath(Coupons, CouponQuery(c)), None),
     ListOutcome(response, c.page, c.pageSize, "Failed to fetch coupons"))
  }

  /** Without parameters, the first page of 20 is requested and echoed. */
  lemma ListCouponsDefaults(response: Settled)
    ensures Lookup(ListCoupons(None, response).0.endpoint.query, "page") == Some("1")
    ensures Lookup(ListCoupons(None, response).0.endpoint.query, "pageSize") == Some("20")
    ensures ListCoupons(None, response).1.Ok? ==>
      ListCoupons(None, response).1.value.page == 1 && ListCoupons(None, response).1.value.pageSize == 20
  {
    CouponQueryOrder(DefaultCouponFilter);
    PageNumberTexts();
  }

  /** `getCouponAction(id)`: a GET through the coupon's update path; its body, or "Failed to fetch coupon". */
  function GetCoupon(id: string, response: Settled): (r: (Call, Result<Json>))
    ensures r.0 == Call(ApiService.GET, ItemPath(Coupons, UpdateOp, id), None)
    ensures response.Resolved? ==> r.1 == Ok(response.value)
    ensures response.Rejected? ==> r.1 == Err("Failed to fetch coupon")
  {
    (Call(ApiService.GET, ItemPath(Coupons, UpdateOp, id), None), GetOutcome(response, "Failed to fetch coupon"))
  }

  /** `createCouponAction(payload)`. */
  function CreateCoupon(payload: Json, response: Settled): (r: (Call, Result<ActionResult>))
    ensures r.0 == Call(ApiService.POST, CreatePath(Coupons), Some(payload))
    ensures Reports(r.1, response, true, "Failed to create coupon")
  {
    (Call(ApiService.POST, CreatePath(Coupons), Some(payload)), ActionOutcome(response, true, "Failed to create coupon"))
  }

  /** `updateCouponAction(id, payload)`. */
  function UpdateCoupon(id: string, payload: Json, response: Settled): (r: (Call, Result<ActionResult>))
    ensures r.0 == Call(ApiService.PUT, ItemPath(Coupons, UpdateOp, id), Some(payload))
    ensures Reports(r.1, response, true, "Failed to update coupon")
  {
    (Call(ApiService.PUT, ItemPath(Coupons, UpdateOp, id), Some(payload)), ActionOutcome(response, true, "Failed to update coupon"))
  }

  /** `deleteCouponAction(id)`: a success carries `null`. */
  function DeleteCoupon(id: string, response: Settled): (r: (Call, Result<ActionResult>))
    ensures r.0 == Call(ApiService.DELETE, ItemPath(Coupons, DeleteOp, id), None)
    ensures Reports(r.1, response, false, "Failed to delete coupon")
  {
    (Call(ApiService.DELETE, ItemPath(Coupons, DeleteOp, id), None), ActionOutcome(response, false, "Failed to delete coupon"))
  }

  /**
   * Fetching a coupon reads the same endpoint an update writes. The second
   * clause only tells the symbolic endpoints apart: the read is not the
   * `GetOp` item path the other resources read through.
   */
  lemma GetReadsUpdateEndpoint(id: string, payload: Json, response: Settled)
    ensures GetCoupon(id, response).0.endpoint == UpdateCoupon(id, payload, response).0.endpoint
    ensures GetCoupon(id, response).0.endpoint != ItemPath(Coupons, GetOp, id)
  {
  }
}
