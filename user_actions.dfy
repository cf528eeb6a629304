/** The store-user server actions: the list, a single user, and create, update and delete. */
module UserActions {
  import opened Wrappers
  import opened JsText
  import opened Json
  import opened ServerActions
  import ApiService

  /** `UserFilterParams`. */
  datatype UserFilter = UserFilter(page: int, pageSize: int, search: Option<string>, role: Option<string>,
                                   status: Option<string>, sort: Option<string>, order: Option<string>)

  const DefaultUserFilter := UserFilter(DefaultPage, DefaultPageSize, None, None, None, None, None)

  function UserEntries(u: UserFilter): seq<(string, Option<string>)> {
    [("search", u.search), ("role", u.role), ("status", u.status), ("sort", u.sort), ("order", u.order)]
  }

  /** The query of `listUsersAction`. */
  function UserQuery(u: UserFilter): Query {
    ListQuery(u.page, u.pageSize, UserEntries(u))
  }

  /** The user query: page and pageSize first, in decimal, and then its optional keys in a fixed order. */
  lemma UserQueryOrder(u: UserFilter)
    ensures var q := UserQuery(u);
      Subsequence(Keys(q), ["page", "pageSize", "search", "role", "status", "sort", "order"])
      && Lookup(q, "page") == Some(IntToString(u.page)) && Lookup(q, "pageSize") == Some(IntToString(u.pageSize))
  {
    var e := UserEntries(u);
    assert ["page", "pageSize"] + Keys(e) == ["page", "pageSize", "search", "role", "status", "sort", "order"];
    ListQueryInOrder(u.page, u.pageSize, e);
  }

  /** Each of search, role, status, sort and order is in the user query, with its value, exactly when that is non-empty. */
  lemma UserQueryShape(u: UserFilter)
    ensures var q := UserQuery(u);
      Lookup(q, "search") == Setting(u.search) && Lookup(q, "role") == Setting(u.role)
      && Lookup(q, "status") == Setting(u.status) && Lookup(q, "sort") == Setting(u.sort)
      && Lookup(q, "order") == Setting(u.order)
  {
    var e := UserEntries(u);
    assert OptionalKeys(e);
    ListQueryEntry(u.page, u.pageSize, e, 0);
    ListQueryEntry(u.page, u.pageSize, e, 1);
    ListQueryEntry(u.page, u.pageSize, e, 2);
    ListQueryEntry(u.page, u.pageSize, e, 3);
    ListQueryEntry(u.page, u.pageSize, e, 4);
  }

  /** `listUsersAction(params)`: a GET of the user list; the normalised page or "Failed to fetch users". */
  function ListUsers(params: Option<UserFilter>, response: Settled): (r: (Call, Result<DataFetchState>))
    ensures var u := params.GetOr(DefaultUserFilter);
      r.0 == Call(ApiService.GET, ListPath(Users, UserQuery(u)), None)
      && ReportsPage(r.1, response, u.page, u.pageSize, "Failed to fetch users")
  {
    var u := params.GetOr(DefaultUserFilter);
    (Call(ApiService.GET, ListPath(Users, UserQuery(u)), None), ListOutcome(response, u.page, u.pageSize, "Failed to fetch users"))
  }

  /** Without parameters, the first page of 20 is requested and echoed. */
  lemma ListUsersDefaults(response: Settled)
    ensures Lookup(ListUsers(None, response).0.endpoint.query, "page") == Some("1")
    ensures Lookup(ListUsers(None, response).0.endpoint.query, "pageSize") == Some("20")
    ensures ListUsers(None, response).1.Ok? ==>
      ListUsers(None, response).1.value.page == 1 && ListUsers(None, response).1.value.pageSize == 20
  {
    UserQueryOrder(DefaultUserFilter);
    PageNumberTexts();
  }

  /** `getUserAction(id)`: its body, or "Failed to fetch user". */
  function GetUser(id: string, response: Settled): (r: (Call, Result<Json>))
    ensures r.0 == Call(ApiService.GET, ItemPath(Users, GetOp, id), None)
    ensures response.Resolved? ==> r.1 == Ok(response.value)
    ensures response.Rejected? ==> r.1 == Err("Failed to fetch user")
  {
    (Call(ApiService.GET, ItemPath(Users, GetOp, id), None), GetOutcome(response, "Failed to fetch user"))
  }

  /** `createUserAction(payload)`. */
  function CreateUser(payload: Json, response: Settled): (r: (Call, Result<ActionResult>))
    ensures r.0 == Call(ApiService.POST, CreatePath(Users), Some(payload))
    ensures Reports(r.1, response, true, "Failed to create user")
  {
    (Call(ApiService.POST, CreatePath(Users), Some(payload)), ActionOutcome(response, true, "Failed to create user"))
  }

  /** `updateUserAction(id, payload)`. */
  function UpdateUser(id: string, payload: Json, response: Settled): (r: (Call, Result<ActionResult>))
    ensures r.0 == Call(ApiService.PUT, ItemPath(Users, UpdateOp, id), Some(payload))
    ensures Reports(r.1, response, true, "Failed to update user")
  {
    (Call(ApiService.PUT, ItemPath(Users, UpdateOp, id), Some(payload)), ActionOutcome(response, true, "Failed to update user"))
  }

  /** `deleteUserAction(id)`: a success carries `null`. */
  function DeleteUser(id: string, response: Settled): (r: (Call, Result<ActionResult>))
    ensures r.0 == Call(ApiService.DELETE, ItemPath(Users, DeleteOp, id), None)
    ensures Reports(r.1, response, false, "Failed to delete user")
  {
    (Call(ApiService.DELETE, ItemPath(Users, DeleteOp, id), None), ActionOutcome(response, false, "Failed to delete user"))
  }
}
