/** The review server actions: the list, a single review, and update and delete (reviews are not created here). */
module ReviewActions {
  import opened Wrappers
  import opened JsText
  import opened Json
  import opened ServerActions
  import ApiService

  /** `ReviewFilterParams`; the rating is a number. */
  datatype ReviewFilter = ReviewFilter(page: int, pageSize: int, search: Option<string>, status: Option<string>,
                                       rating: Option<int>, sort: Option<string>, order: Option<string>)

  const DefaultReviewFilter := ReviewFilter(DefaultPage, DefaultPageSize, None, None, None, None, None)

  /** `params.rating && params.rating.toString()`: the rating in decimal unless it is absent or 0. */
  function RatingText(rating: Option<int>): (t: Option<string>)
    ensures t.Some? <==> rating.Some? && rating.value != 0
    ensures t.Some? ==> t.value == IntToString(rating.value) && t.value != ""
  {
    if rating.Some? && rating.value != 0 then Some(IntToString(rating.value)) else None
  }

  function ReviewEntries(f: ReviewFilter): seq<(string, Option<string>)> {
    [("search", f.search), ("status", f.status), ("rating", RatingText(f.rating)), ("sort", f.sort), ("order", f.order)]
  }

  /** The query of `listReviewsAction`. */
  function ReviewQuery(f: ReviewFilter): Query {
    ListQuery(f.page, f.pageSize, ReviewEntries(f))
  }

  /** The review query: page and pageSize first, in decimal, and then its optional keys in a fixed order. */
  lemma ReviewQueryOrder(f: ReviewFilter)
    ensures var q := ReviewQuery(f);
      Subsequence(Keys(q), ["page", "pageSize", "search", "status", "rating", "sort", "order"])
      && Lookup(q, "page") == Some(IntToString(f.page)) && Lookup(q, "pageSize") == Some(IntToString(f.pageSize))
  {
    var e := ReviewEntries(f);
    assert ["page", "pageSize"] + Keys(e) == ["page", "pageSize", "search", "status", "rating", "sort", "order"];
    ListQueryInOrder(f.page, f.pageSize, e);
  }

  /** Search, status, sort and order are in the review query exactly when non-empty; the rating, in decimal, exactly when non-zero. */
  lemma ReviewQueryShape(f: ReviewFilter)
    ensures var q := ReviewQuery(f);
      Lookup(q, "search") == Setting(f.search) && Lookup(q, "status") == Setting(f.status)
      && Lookup(q, "rating") == (if f.rating.Some? && f.rating.value != 0 then Some(IntToString(f.rating.value)) else None)
      && Lookup(q, "sort") == Setting(f.sort) && Lookup(q, "order") == Setting(f.order)
  {
    var e := ReviewEntries(f);
    assert OptionalKeys(e);
    ListQueryEntry(f.page, f.pageSize, e, 0);
    ListQueryEntry(f.page, f.pageSize, e, 1);
    ListQueryEntry(f.page, f.pageSize, e, 2);
    ListQueryEntry(f.page, f.pageSize, e, 3);
    ListQueryEntry(f.page, f.pageSize, e, 4);
  }

  /** A rating of 0 filters nothing: the query is the one without a rating. */
  lemma ZeroRatingOmitted(f: ReviewFilter)
    ensures ReviewQuery(f.(rating := Some(0))) == ReviewQuery(f.(rating := None))
  {
  }

  /** `listReviewsAction(params)`: a GET of the review list; the normalised page or "Failed to fetch reviews". */
  function ListReviews(params: Option<ReviewFilter>, response: Settled): (r: (Call, Result<DataFetchState>))
    ensures var f := params.GetOr(DefaultReviewFilter);
      r.0 == Call(ApiService.GET, ListPath(Reviews, ReviewQuery(f)), None)
      && ReportsPage(r.1, response, f.page, f.pageSize, "Failed to fetch reviews")
  {
    var f := params.GetOr(DefaultReviewFilter);
    (Call(ApiService.GET, ListPath(Reviews, ReviewQuery(f)), None), ListOutcome(response, f.page, f.pageSize, "Failed to fetch reviews"))
  }

  /** `getReviewAction(id)`: its body, or "Failed to fetch review". */
  function GetReview(id: string, response: Settled): (r: (Call, Result<Json>))
    ensures r.0 == Call(ApiService.GET, ItemPath(Reviews, GetOp, id), None)
    ensures response.Resolved? ==> r.1 == Ok(response.value)
    ensures response.Rejected? ==> r.1 == Err("Failed to fetch review")
  {
    (Call(ApiService.GET, ItemPath(Reviews, GetOp, id), None), GetOutcome(response, "Failed to fetch review"))
  }

  /** `updateReviewAction(id, payload)`. */
  function UpdateReview(id: string, payload: Json, response: Settled): (r: (Call, Result<ActionResult>))
    ensures r.0 == Call(ApiService.PUT, ItemPath(Reviews, UpdateOp, id), Some(payload))
    ensures Reports(r.1, response, true, "Failed to update review")
  {
    (Call(ApiService.PUT, ItemPath(Reviews, UpdateOp, id), Some(payload)), ActionOutcome(response, true, "Failed to update review"))
  }

  /** `deleteReviewAction(id)`: a success carries `null`. */
  function DeleteReview(id: string, response: Settled): (r: (Call, Result<ActionResult>))
    ensures r.0 == Call(ApiService.DELETE, ItemPath(Reviews, DeleteOp, id), None)
    ensures Reports(r.1, response, false, "Failed to delete review")
  {
    (Call(ApiService.DELETE, ItemPath(Reviews, DeleteOp, id), None), ActionOutcome(response, false, "Failed to delete review"))
  }
}
