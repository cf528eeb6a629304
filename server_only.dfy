/**
 * The server-side query-string helpers of the admin pages: the `serverOnly`
 * guard, the common search-parameter parser with its page/pageSize clamping,
 * the skip/take pagination query and the per-entity filter records.
 */
module ServerOnly {
  import opened Wrappers
  import opened JsText

  /** `serverOnly()`: throws exactly when a browser `window` object exists. */
  function ServerOnlyGuard(hasWindow: bool): (r: Outcome)
    ensures r.Fail? <==> hasWindow
  {
    if hasWindow then
      Fail("This function should only be called on the server. Remove \"use server\" directive or move this to a server action.")
    else Pass
  }

  /** One entry of a Next.js `searchParams` record: a single value or a repeated key. */
  datatype ParamValue = One(s: string) | Many(items: seq<string>)

  /** The `searchParams` record; a key that is not in the map is `undefined`. */
  type SearchParams = map<string, ParamValue>

  /** `String(v)`: an array of strings is joined with commas. */
  function ParamString(v: ParamValue): string {
    match v
    case One(s) => s
    case Many(items) => Join(items, ",")
  }

  /** `String(searchParams[key] ?? fallback)`. */
  function ParamOr(sp: SearchParams, key: string, fallback: string): (r: string)
    ensures key !in sp ==> r == fallback
    ensures key in sp ==> r == ParamString(sp[key])
  {
    if key in sp then ParamString(sp[key]) else fallback
  }

  /** `Math.max(lo, x)`: NaN stays NaN. */
  function MaxNum(lo: int, x: JsNum): (r: JsNum)
    ensures r.NaN? <==> x.NaN?
    ensures r.Num? ==> r.n >= lo && (r.n == lo || r.n == x.n)
  {
    match x
    case NaN => NaN
    case Num(v) => Num(if v < lo then lo else v)
  }

  /** `Math.min(hi, x)`: NaN stays NaN. */
  function MinNum(hi: int, x: JsNum): (r: JsNum)
    ensures r.NaN? <==> x.NaN?
    ensures r.Num? ==> r.n <= hi && (r.n == hi || r.n == x.n)
  {
    match x
    case NaN => NaN
    case Num(v) => Num(if v > hi then hi else v)
  }

  /** The page number: `Math.max(1, parseInt(String(page ?? 1)))`. */
  function PageParam(sp: SearchParams): (r: JsNum)
    ensures r.Num? ==> r.n >= 1
  {
    MaxNum(1, ParseInt(ParamOr(sp, "page", "1"), Auto))
  }

  /** The page size: `Math.max(1, Math.min(100, parseInt(String(pageSize ?? 10))))`. */
  function PageSizeParam(sp: SearchParams): (r: JsNum)
    ensures r.Num? ==> 1 <= r.n <= 100
  {
    MaxNum(1, MinNum(100, ParseInt(ParamOr(sp, "pageSize", "10"), Auto)))
  }

  /** A filter string: `String(value ?? '').trim()`. */
  function TrimmedParam(sp: SearchParams, key: string): string {
    Trim(ParamOr(sp, key, ""))
  }

  /** The record `parseSearchParams` returns. */
  datatype ParsedParams = ParsedParams(
    page: JsNum, pageSize: JsNum,
    search: string, sort: string, order: string, status: string, category: string)

  /** `parseSearchParams`: page and pageSize parsed and clamped, the filter strings trimmed, order as given. */
  function ParseSearchParams(sp: SearchParams): (p: ParsedParams)
    ensures p.page.Num? ==> p.page.n >= 1
    ensures p.pageSize.Num? ==> 1 <= p.pageSize.n <= 100
  {
    ParsedParams(
      PageParam(sp), PageSizeParam(sp),
      TrimmedParam(sp, "search"), TrimmedParam(sp, "sort"),
      ParamOr(sp, "order", "desc"),
      TrimmedParam(sp, "status"), TrimmedParam(sp, "category"))
  }

  /** A missing page is 1 and a missing pageSize is 10. */
  lemma MissingPageDefaults(sp: SearchParams)
    ensures "page" !in sp ==> ParseSearchParams(sp).page == Num(1)
    ensures "pageSize" !in sp ==> ParseSearchParams(sp).pageSize == Num(10)
  {
    ParseIntIntToString(1, Auto);
    ParseIntIntToString(10, Auto);
    PageNumberTexts();
  }

  /**
   * The page is NaN exactly when its text does not parse; when it parses to
   * `k` the page is `k` raised to at least 1, and pageSize is its parse
   * clamped into [1, 100].
   */
  lemma PageClamping(sp: SearchParams)
    ensures var p := ParseSearchParams(sp);
      var pg := ParseInt(ParamOr(sp, "page", "1"), Auto);
      var ps := ParseInt(ParamOr(sp, "pageSize", "10"), Auto);
      (p.page.NaN? <==> pg.NaN?) && (p.pageSize.NaN? <==> ps.NaN?)
      && (pg.Num? && pg.n >= 1 ==> p.page == pg)
      && (pg.Num? && pg.n < 1 ==> p.page == Num(1))
      && (ps.Num? && 1 <= ps.n <= 100 ==> p.pageSize == ps)
      && (ps.Num? && ps.n > 100 ==> p.pageSize == Num(100))
      && (ps.Num? && ps.n < 1 ==> p.pageSize == Num(1))
  {
  }

  /** Trimming a search string again changes nothing: the parsed strings are already trimmed. */
  lemma ParsedStringsTrimmed(sp: SearchParams)
    ensures var p := ParseSearchParams(sp);
      Trim(p.search) == p.search && Trim(p.sort) == p.sort
      && Trim(p.status) == p.status && Trim(p.category) == p.category
  {
    TrimIdempotent(ParamOr(sp, "search", ""));
    TrimIdempotent(ParamOr(sp, "sort", ""));
    TrimIdempotent(ParamOr(sp, "status", ""));
    TrimIdempotent(ParamOr(sp, "category", ""));
  }

  /** The record `getPaginationQuery` returns. */
  datatype PaginationQuery = PaginationQuery(skip: JsNum, take: JsNum, page: JsNum, pageSize: JsNum)

  /** `(page - 1) * pageSize` on numbers that may be NaN. */
  function SkipFor(page: JsNum, pageSize: JsNum): (r: JsNum)
    ensures r.Num? <==> page.Num? && pageSize.Num?
    ensures r.Num? ==> r.n == (page.n - 1) * pageSize.n
    ensures r.Num? && page.n >= 1 && pageSize.n >= 1 ==> r.n >= 0
  {
    if page.Num? && pageSize.Num? then
      var k := page.n - 1;
      var m := pageSize.n;
      assert k >= 0 && m >= 1 ==> k * m >= 0 by {
        if k >= 0 && m >= 1 {
          NonNegativeProduct(k, m);
        }
      }
      Num(k * m)
    else NaN
  }

  /** `getPaginationQuery`: skip the whole pages before the requested one and take one page. */
  function GetPaginationQuery(sp: SearchParams): (q: PaginationQuery)
    ensures var p := ParseSearchParams(sp); q.page == p.page && q.pageSize == p.pageSize && q.take == p.pageSize
    ensures q.skip.Num? <==> q.page.Num? && q.take.Num?
    ensures q.skip.Num? ==> q.skip.n >= 0
    ensures q.skip == SkipFor(q.page, q.take)
  {
    var p := ParseSearchParams(sp);
    var skip := SkipFor(p.page, p.pageSize);
    assert skip.Num? ==> p.page.n >= 1 && p.pageSize.n >= 1;
    PaginationQuery(skip, p.pageSize, p.page, p.pageSize)
  }

  /** `value || undefined` for a string. */
  function OrUndefined(s: string): (r: Option<string>)
    ensures r.None? <==> s == ""
    ensures r.Some? ==> r.value == s
  {
    if s == "" then None else Some(s)
  }

  /** `sort || 'createdAt'`. */
  function SortOrDefault(s: string): (r: string)
    ensures r != ""
    ensures s != "" ==> r == s
  {
    if s == "" then "createdAt" else s
  }

  /** The record `parseProductFilters` returns; `categoryId` is `parseInt(category)` or absent. */
  datatype ProductFilters = ProductFilters(
    search: Option<string>, categoryId: Option<JsNum>, status: Option<string>, sort: string, order: string)

  /** The record the order, coupon and user filter parsers return. */
  datatype StatusFilters = StatusFilters(search: Option<string>, status: Option<string>, sort: string, order: string)

  /** The record `parseReviewFilters` returns. */
  datatype ReviewFilters = ReviewFilters(search: Option<string>, sort: string, order: string)

  /** `parseProductFilters`. */
  function ParseProductFilters(sp: SearchParams): (f: ProductFilters)
    ensures var p := ParseSearchParams(sp);
      (f.categoryId.None? <==> p.category == "")
      && (f.categoryId.Some? ==> f.categoryId.value == ParseInt(p.category, Auto))
  {
    var p := ParseSearchParams(sp);
    ProductFilters(OrUndefined(p.search),
      if p.category != "" then Some(ParseInt(p.category, Auto)) else None,
      OrUndefined(p.status), SortOrDefault(p.sort), p.order)
  }

  /** A filter field taken from a query value: absent when the value is empty, else that value. */
  predicate TakenFrom(field: Option<string>, value: string) {
    (field.None? <==> value == "") && (field.Some? ==> field.value == value)
  }

  /** The filter record shared by `parseOrderFilters`, `parseCouponFilters` and `parseUserFilters`. */
  function ParseStatusFilters(sp: SearchParams): (f: StatusFilters)
    ensures var p := ParseSearchParams(sp);
      TakenFrom(f.search, p.search) && TakenFrom(f.status, p.status)
      && f.sort == (if p.sort == "" then "createdAt" else p.sort) && f.order == p.order
  {
    var p := ParseSearchParams(sp);
    StatusFilters(OrUndefined(p.search), OrUndefined(p.status), SortOrDefault(p.sort), p.order)
  }

  /** `parseOrderFilters`. */
  function ParseOrderFilters(sp: SearchParams): (f: StatusFilters)
    ensures var p := ParseSearchParams(sp);
      TakenFrom(f.search, p.search) && TakenFrom(f.status, p.status)
      && f.sort == (if p.sort == "" then "createdAt" else p.sort) && f.order == p.order
  {
    ParseStatusFilters(sp)
  }

  /** `parseCouponFilters`. */
  function ParseCouponFilters(sp: SearchParams): (f: StatusFilters)
    ensures var p := ParseSearchParams(sp);
      TakenFrom(f.search, p.search) && TakenFrom(f.status, p.status)
      && f.sort == (if p.sort == "" then "createdAt" else p.sort) && f.order == p.order
  {
    ParseStatusFilters(sp)
  }

  /** `parseUserFilters`. */
  function ParseUserFilters(sp: SearchParams): (f: StatusFilters)
    ensures var p := ParseSearchParams(sp);
      TakenFrom(f.search, p.search) && TakenFrom(f.status, p.status)
      && f.sort == (if p.sort == "" then "createdAt" else p.sort) && f.order == p.order
  {
    ParseStatusFilters(sp)
  }

  /** `parseReviewFilters`. */
  function ParseReviewFilters(sp: SearchParams): (f: ReviewFilters)
    ensures var p := ParseSearchParams(sp);
      TakenFrom(f.search, p.search) && f.sort == (if p.sort == "" then "createdAt" else p.sort) && f.order == p.order
  {
    var p := ParseSearchParams(sp);
    ReviewFilters(OrUndefined(p.search), SortOrDefault(p.sort), p.order)
  }

  /**
   * Every entity filter parser maps an empty (trimmed) search or status to
   * absent, keeps a non-empty one, defaults an empty sort to "createdAt" and
   * passes order through unchanged.
   */
  lemma EntityFilterDefaults(sp: SearchParams)
    ensures var p := ParseSearchParams(sp);
      var pf := ParseProductFilters(sp);
      var sf := ParseStatusFilters(sp);
      var rf := ParseReviewFilters(sp);
      (pf.search.None? <==> p.search == "") && (sf.search.None? <==> p.search == "") && (rf.search.None? <==> p.search == "")
      && (pf.search.Some? ==> pf.search.value == p.search) && (sf.search.Some? ==> sf.search.value == p.search)
      && (rf.search.Some? ==> rf.search.value == p.search)
      && (pf.status.None? <==> p.status == "") && (sf.status.None? <==> p.status == "")
      && (pf.status.Some? ==> pf.status.value == p.status) && (sf.status.Some? ==> sf.status.value == p.status)
      && (p.sort == "" ==> pf.sort == "createdAt" && sf.sort == "createdAt" && rf.sort == "createdAt")
      && (p.sort != "" ==> pf.sort == p.sort && sf.sort == p.sort && rf.sort == p.sort)
      && pf.order == p.order && sf.order == p.order && rf.order == p.order
  {
  }
}
