/**
 * What the admin server actions have in common: the list query built from
 * the filter parameters, the normalisation of a list response into a page of
 * results, and the outcome records of the create, update and delete actions,
 * which report a failure instead of rejecting.
 *
 * The endpoint paths come from an endpoint table that is not part of this
 * model, so an endpoint is named by its resource and operation. A call's
 * settlement (the value the API client resolved to, or what it threw) is a
 * parameter.
 */
module ServerActions {
  import opened Wrappers
  import opened JsText
  import opened Json
  import ApiService

  datatype Resource = Products | Categories | Coupons | Users | Reviews | Orders

  datatype ItemOp = GetOp | UpdateOp | DeleteOp

  /** URL query parameters, in insertion order. */
  type Query = seq<(string, string)>

  /** An entry of the endpoint table: a list (with its query), the create path, or an item path for an id. */
  datatype Endpoint =
    | ListPath(resource: Resource, query: Query)
    | CreatePath(resource: Resource)
    | ItemPath(resource: Resource, op: ItemOp, id: string)

  /** The API client call an action makes: its method, endpoint and JSON payload. */
  datatype Call = Call(verb: ApiService.HttpMethod, endpoint: Endpoint, payload: Option<Json>)

  /** How the API client's promise settled: the parsed body, or the thrown value. */
  datatype Settled = Resolved(value: Json) | Rejected(error: Json)

  /** `DataFetchState`: a page of results and the pagination echoed back. */
  datatype DataFetchState = DataFetchState(data: Json, total: Json, page: int, pageSize: int)

  /** What a create, update or delete action resolves to: `{success: true, data}` or `{success: false, error}`. */
  datatype ActionResult = Success(data: Json) | Failure(error: Json)

  /** The default filter parameters of every list action. */
  const DefaultPage := 1
  const DefaultPageSize := 20

  // ---------------------------------------------------------------- query

  /** What `...(value && { key: value })` contributes for a string: the value when it is non-empty. */
  function Setting(value: Option<string>): (s: Option<string>)
    ensures s.Some? <==> value.Some? && value.value != ""
    ensures s.Some? ==> s == value
  {
    if value.Some? && value.value != "" then value else None
  }

  /** The keys of a list of key/value pairs, in order. */
  function Keys<V>(entries: seq<(string, V)>): (keys: seq<string>)
    ensures |keys| == |entries|
    ensures forall i :: 0 <= i < |entries| ==> keys[i] == entries[i].0
  {
    if entries == [] then [] else [entries[0].0] + Keys(entries[1..])
  }

  predicate DistinctNames(entries: seq<(string, Option<string>)>) {
    forall i, j :: 0 <= i < j < |entries| ==> entries[i].0 != entries[j].0
  }

  /** The optional keys of a list query: no two alike, and neither page nor pageSize. */
  predicate OptionalKeys(entries: seq<(string, Option<string>)>) {
    DistinctNames(entries) && forall i :: 0 <= i < |entries| ==> entries[i].0 != "page" && entries[i].0 != "pageSize"
  }

  /** `a` is `b` with some elements left out. */
  predicate Subsequence(a: seq<string>, b: seq<string>)
    decreases |b|
  {
    a == [] || (b != [] && ((a[0] == b[0] && Subsequence(a[1..], b[1..])) || Subsequence(a, b[1..])))
  }

  /** The optional entries of a query object: each spread in when its value is a non-empty string. */
  function Spread(entries: seq<(string, Option<string>)>): (q: Query)
    ensures |q| <= |entries|
    ensures forall i :: 0 <= i < |q| ==> q[i].1 != ""
  {
    if entries == [] then []
    else
      var head := Setting(entries[0].1);
      (if head.Some? then [(entries[0].0, head.value)] else []) + Spread(entries[1..])
  }

  /** `new URLSearchParams({ page, pageSize, ...optional })`: page and pageSize in decimal, then the optional entries. */
  function ListQuery(page: int, pageSize: int, entries: seq<(string, Option<string>)>): (q: Query)
    ensures |q| >= 2
    ensures q[0] == ("page", IntToString(page)) && q[1] == ("pageSize", IntToString(pageSize))
  {
    [("page", IntToString(page)), ("pageSize", IntToString(pageSize))] + Spread(entries)
  }

  /** The spread keeps the entries' order. */
  lemma {:induction false} SpreadInOrder(entries: seq<(string, Option<string>)>)
    ensures Subsequence(Keys(Spread(entries)), Keys(entries))
  {
    if entries != [] {
      SpreadInOrder(entries[1..]);
      var rest := Spread(entries[1..]);
      var head := Setting(entries[0].1);
      SubsequenceSkip(Keys(rest), Keys(entries[1..]), entries[0].0);
      if head.Some? {
        assert Spread(entries) == [(entries[0].0, head.value)] + rest;
        assert Keys(Spread(entries)) == [entries[0].0] + Keys(rest);
      } else {
        assert Spread(entries) == rest;
      }
      assert Keys(entries) == [entries[0].0] + Keys(entries[1..]);
    }
  }

  lemma SubsequenceSkip(a: seq<string>, b: seq<string>, x: string)
    requires Subsequence(a, b)
    ensures Subsequence(a, [x] + b) && Subsequence([x] + a, [x] + b)
  {
    assert ([x] + b)[1..] == b;
    assert ([x] + a)[1..] == a;
  }

  /** A key the entries do not name is absent from their spread. */
  lemma {:induction false} SpreadAbsent(entries: seq<(string, Option<string>)>, key: string)
    requires key !in Keys(entries)
    ensures Lookup(Spread(entries), key) == None
  {
    if entries != [] {
      assert Keys(entries) == [entries[0].0] + Keys(entries[1..]);
      SpreadAbsent(entries[1..], key);
      var rest := Spread(entries[1..]);
      var head := Setting(entries[0].1);
      if head.Some? {
        var q := [(entries[0].0, head.value)] + rest;
        assert q[1..] == rest;
      } else {
        assert Spread(entries) == rest;
      }
    }
  }

  /** A named key carries its value exactly when the value is a non-empty string. */
  lemma {:induction false} SpreadLookup(entries: seq<(string, Option<string>)>, i: int)
    requires 0 <= i < |entries| && DistinctNames(entries)
    ensures Lookup(Spread(entries), entries[i].0) == Setting(entries[i].1)
  {
    var rest := Spread(entries[1..]);
    var head := Setting(entries[0].1);
    var key := entries[i].0;
    assert Spread(entries) == (if head.Some? then [(entries[0].0, head.value)] else []) + rest;
    assert DistinctNames(entries[1..]) by {
      forall a, b | 0 <= a < b < |entries[1..]|
        ensures entries[1..][a].0 != entries[1..][b].0
      {
        assert entries[1..][a] == entries[a + 1] && entries[1..][b] == entries[b + 1];
      }
    }
    if i == 0 {
      if head.None? {
        assert Spread(entries) == rest;
        assert key !in Keys(entries[1..]) by {
          forall j | 0 <= j < |entries[1..]|
            ensures Keys(entries[1..])[j] != key
          {
            assert entries[1..][j] == entries[j + 1];
          }
        }
        SpreadAbsent(entries[1..], key);
      }
    } else {
      assert entries[0].0 != key;
      assert entries[1..][i - 1] == entries[i];
      SpreadLookup(entries[1..], i - 1);
      if head.Some? {
        var q := [(entries[0].0, head.value)] + rest;
        assert q[1..] == rest;
      } else {
        assert Spread(entries) == rest;
      }
    }
  }

  /** Past page and pageSize, the list query reads like its optional part. */
  lemma LookupPastPagination(page: int, pageSize: int, entries: seq<(string, Option<string>)>, key: string)
    requires key != "page" && key != "pageSize"
    ensures Lookup(ListQuery(page, pageSize, entries), key) == Lookup(Spread(entries), key)
  {
    var q := ListQuery(page, pageSize, entries);
    assert q[1..][1..] == Spread(entries);
  }

  /** The list query starts with page and pageSize and keeps the order of the optional keys. */
  lemma ListQueryInOrder(page: int, pageSize: int, entries: seq<(string, Option<string>)>)
    ensures var q := ListQuery(page, pageSize, entries);
      Subsequence(Keys(q), ["page", "pageSize"] + Keys(entries))
      && Lookup(q, "page") == Some(IntToString(page))
      && Lookup(q, "pageSize") == Some(IntToString(pageSize))
  {
    var q := ListQuery(page, pageSize, entries);
    var rest := Spread(entries);
    var tail := [("pageSize", IntToString(pageSize))] + rest;
    assert q == [("page", IntToString(page))] + tail;
    assert q[1..] == tail;
    SpreadInOrder(entries);
    SubsequenceSkip(Keys(rest), Keys(entries), "pageSize");
    assert Keys(tail) == ["pageSize"] + Keys(rest) by {
      assert tail[1..] == rest;
    }
    SubsequenceSkip(Keys(tail), ["pageSize"] + Keys(entries), "page");
    assert Keys(q) == ["page"] + Keys(tail);
    assert ["page", "pageSize"] + Keys(entries) == ["page"] + (["pageSize"] + Keys(entries));
  }

  /** An optional key of the list query is present, with its value, exactly when its value is a non-empty string. */
  lemma ListQueryEntry(page: int, pageSize: int, entries: seq<(string, Option<string>)>, i: int)
    requires OptionalKeys(entries) && 0 <= i < |entries|
    ensures Lookup(ListQuery(page, pageSize, entries), entries[i].0) == Setting(entries[i].1)
  {
    LookupPastPagination(page, pageSize, entries, entries[i].0);
    SpreadLookup(entries, i);
  }

  /** A key that is neither page, pageSize nor one of the optional keys is never in the list query. */
  lemma ListQueryAbsent(page: int, pageSize: int, entries: seq<(string, Option<string>)>, key: string)
    requires key !in Keys(entries) && key != "page" && key != "pageSize"
    ensures Lookup(ListQuery(page, pageSize, entries), key) == None
  {
    LookupPastPagination(page, pageSize, entries, key);
    SpreadAbsent(entries, key);
  }

  // ---------------------------------------------------------------- list responses

  predicate Nullish(v: Json) {
    v.JUndefined? || v.JNull?
  }

  /**
   * The page a list action builds from a non-nullish body: `data.data ||
   * data` as the rows, `data.total || (Array.isArray(data) ? data.length :
   * 0)` as the total, and the requested page and page size.
   */
  function Normalised(body: Json, page: int, pageSize: int): (st: DataFetchState)
    requires !Nullish(body)
    ensures st.page == page && st.pageSize == pageSize
    ensures body.JArr? ==> st.data == body && st.total == JNum(|body.items|)
    ensures body.JObj? && Truthy(Member(body, "data")) ==> st.data == body.fields["data"]
    ensures !(body.JObj? && Truthy(Member(body, "data"))) ==> st.data == body
    ensures body.JObj? && Truthy(Member(body, "total")) ==> st.total == body.fields["total"]
    ensures !body.JArr? && !(body.JObj? && Truthy(Member(body, "total"))) ==> st.total == JNum(0)
  {
    var rows := Or(Get(body, "data").value, body);
    var total := Or(Get(body, "total").value, if body.JArr? then JNum(|body.items|) else JNum(0));
    DataFetchState(rows, total, page, pageSize)
  }

  /** A member of an object value, `undefined` for anything else. */
  function Member(v: Json, key: string): (m: Json)
    ensures v.JObj? && key in v.fields ==> m == v.fields[key]
    ensures !(v.JObj? && key in v.fields) ==> m == JUndefined
  {
    if v.JObj? && key in v.fields then v.fields[key] else JUndefined
  }

  /** A server envelope `{ data: rows, total: n }` is unwrapped to exactly its rows and total, even when n is 0. */
  lemma EnvelopeUnwrapped(rows: seq<Json>, n: int, page: int, pageSize: int)
    ensures var body := JObj(map["data" := JArr(rows), "total" := JNum(n)]);
      Normalised(body, page, pageSize) == DataFetchState(JArr(rows), JNum(n), page, pageSize)
  {
  }

  /** A bare array is its own page, counted by its length. */
  lemma BareArrayCounted(rows: seq<Json>, page: int, pageSize: int)
    ensures Normalised(JArr(rows), page, pageSize) == DataFetchState(JArr(rows), JNum(|rows|), page, pageSize)
  {
  }

  /**
   * A list action's outcome: the page normalised from the body, or the
   * fixed message "Failed to fetch <plural>" when the call rejects or the
   * body is `null` (reading `.data` of it throws inside the `try`).
   */
  function ListOutcome(response: Settled, page: int, pageSize: int, failure: string): (out: Result<DataFetchState>)
    ensures ReportsPage(out, response, page, pageSize, failure)
  {
    match response
    case Rejected(_) => Err(failure)
    case Resolved(body) =>
      match Get(body, "data")
      case Err(_) => Err(failure)
      case Ok(_) => Ok(Normalised(body, page, pageSize))
  }

  /** A get action's outcome: the body itself, or the fixed failure message. */
  function GetOutcome(response: Settled, failure: string): (out: Result<Json>)
    ensures response.Resolved? ==> out == Ok(response.value)
    ensures response.Rejected? ==> out == Err(failure)
  {
    match response
    case Resolved(v) => Ok(v)
    case Rejected(_) => Err(failure)
  }

  // ---------------------------------------------------------------- create, update, delete

  /**
   * The contract of an action that never rejects for a thrown object: a
   * resolved call is a success carrying the body (or `null` when the body is
   * not kept); a rejection with a thrown object is a failure carrying its
   * `message` when that is truthy and the fallback otherwise; a nullish
   * thrown value makes the action reject.
   */
  predicate Reports(out: Result<ActionResult>, response: Settled, keepBody: bool, fallback: string) {
    (response.Resolved? ==> out == Ok(Success(if keepBody then response.value else JNull)))
    && (response.Rejected? && Nullish(response.error) ==> out.Err?)
    && (response.Rejected? && !Nullish(response.error) ==>
          out == Ok(Failure(Or(Member(response.error, "message"), JStr(fallback)))))
  }

  /**
   * The contract of a list action: the page normalised from a non-nullish
   * body, and otherwise the rejection with the fixed message.
   */
  predicate ReportsPage(out: Result<DataFetchState>, response: Settled, page: int, pageSize: int, failure: string) {
    (out.Ok? <==> response.Resolved? && !Nullish(response.value))
    && (out.Ok? ==> out.value == Normalised(response.value, page, pageSize))
    && (out.Err? ==> out.error == failure)
  }

  /**
   * A create, update or delete action's outcome. A resolved call is a
   * success carrying the body (`null` for a delete); a rejection is caught
   * and reported as a failure carrying `error.message || fallback`. Only a
   * nullish thrown value escapes, because reading its `message` throws in
   * the `catch` block itself.
   */
  function ActionOutcome(response: Settled, keepBody: bool, fallback: string): (out: Result<ActionResult>)
    ensures Reports(out, response, keepBody, fallback)
  {
    match response
    case Resolved(body) => Ok(Success(if keepBody then body else JNull))
    case Rejected(error) =>
      match Get(error, "message")
      case Err(e) => Err(e)
      case Ok(message) => Ok(Failure(Or(message, JStr(fallback))))
  }

  /** The actions never reject for a thrown object, and a reported failure always carries a truthy message. */
  lemma ActionsReportFailures(response: Settled, keepBody: bool, fallback: string)
    requires response.Resolved? || !Nullish(response.error)
    requires fallback != ""
    ensures ActionOutcome(response, keepBody, fallback).Ok?
    ensures ActionOutcome(response, keepBody, fallback).value.Failure? ==>
      Truthy(ActionOutcome(response, keepBody, fallback).value.error)
  {
  }

  /** How an API client result settles: its value, or a thrown `Error` carrying the message. */
  function FromClient(result: Result<Json>): (s: Settled)
    ensures result.Ok? ==> s == Resolved(result.value)
    ensures result.Err? ==> s == Rejected(JObj(map["message" := JStr(result.error)]))
  {
    if result.Ok? then Resolved(result.value) else Rejected(JObj(map["message" := JStr(result.error)]))
  }

  /** A non-ok response surfaces in an action's failure as the client's "API Error <status>: <text>" message. */
  lemma ClientErrorReported(keepBody: bool, fallback: string, configured: string, accessToken: Option<string>, endpoint: string,
                            verb: ApiService.HttpMethod, body: Option<string>, response: ApiService.Response)
    requires !response.ok
    ensures var settled := FromClient(ApiService.FetchApi(configured, accessToken, endpoint, verb, body,
                                                          ApiService.NoOptions, response).1);
      ActionOutcome(settled, keepBody, fallback) == Ok(Failure(JStr(ApiService.ApiError(response.status, response.text))))
  {
    var e := ApiService.ApiError(response.status, response.text);
    assert e == "API Error " + (IntToString(response.status) + ": " + response.text);
    assert e != "";
  }

  /** String(id) for an id given as a string or a number. */
  datatype Id = StrId(s: string) | NumId(n: int)

  function IdString(id: Id): (s: string)
    ensures id.StrId? ==> s == id.s
    ensures id.NumId? ==> s == IntToString(id.n)
  {
    match id
    case StrId(s) => s
    case NumId(n) => IntToString(n)
  }

  /** A numeric id and its decimal string reach the same endpoint. */
  lemma IdStringAgrees(n: int)
    ensures IdString(NumId(n)) == IdString(StrId(IntToString(n)))
  {
  }
}
