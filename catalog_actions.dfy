/**
 * The catalogue server actions: the product and category lists, a single
 * product, and the category and product create, update and delete actions.
 */
module CatalogActions {
  import opened Wrappers
  import opened JsText
  import opened Json
  import opened ServerActions
  import ApiService

  /** `ProductFilterParams`. */
  datatype ProductFilter = ProductFilter(page: int, pageSize: int, search: Option<string>, category: Option<string>,
                                         status: Option<string>, sort: Option<string>, order: Option<string>)

  /** `CategoryFilterParams`; its status is accepted but never sent. */
  datatype CategoryFilter = CategoryFilter(page: int, pageSize: int, search: Option<string>, status: Option<string>,
                                           sort: Option<string>, order: Option<string>)

  const DefaultProductFilter := ProductFilter(DefaultPage, DefaultPageSize, None, None, None, None, None)
  const DefaultCategoryFilter := CategoryFilter(DefaultPage, DefaultPageSize, None, None, None, None)

  function ProductEntries(p: ProductFilter): seq<(string, Option<string>)> {
    [("search", p.search), ("category", p.category), ("status", p.status), ("sort", p.sort), ("order", p.order)]
  }

  function CategoryEntries(c: CategoryFilter): seq<(string, Option<string>)> {
    [("search", c.search), ("sort", c.sort), ("order", c.order)]
  }

  /** The query of `getProductsAction`. */
  function ProductQuery(p: ProductFilter): Query {
    ListQuery(p.page, p.pageSize, ProductEntries(p))
  }

  /** The query of `getCategoriesAction`. */
  function CategoryQuery(c: CategoryFilter): Query {
    ListQuery(c.page, c.pageSize, CategoryEntries(c))
  }

  /** The product query: page and pageSize first, in decimal, and then its optional keys in a fixed order. */
  lemma ProductQueryOrder(p: ProductFilter)
    ensures var q := ProductQuery(p);
      Subsequence(Keys(q), ["page", "pageSize", "search", "category", "status", "sort", "order"])
      && Lookup(q, "page") == Some(IntToString(p.page)) && Lookup(q, "pageSize") == Some(IntToString(p.pageSize))
  {
    var e := ProductEntries(p);
    assert ["page", "pageSize"] + Keys(e) == ["page", "pageSize", "search", "category", "status", "sort", "order"];
    ListQueryInOrder(p.page, p.pageSize, e);
  }

  /** Each of search, category, status, sort and order is in the product query, with its value, exactly when that is a non-empty string. */
  lemma ProductQueryShape(p: ProductFilter)
    ensures var q := ProductQuery(p);
      Lookup(q, "search") == Setting(p.search) && Lookup(q, "category") == Setting(p.category)
      && Lookup(q, "status") == Setting(p.status) && Lookup(q, "sort") == Setting(p.sort)
      && Lookup(q, "order") == Setting(p.order)
  {
    var e := ProductEntries(p);
    assert OptionalKeys(e);
    ListQueryEntry(p.page, p.pageSize, e, 0);
    ListQueryEntry(p.page, p.pageSize, e, 1);
    ListQueryEntry(p.page, p.pageSize, e, 2);
    ListQueryEntry(p.page, p.pageSize, e, 3);
    ListQueryEntry(p.page, p.pageSize, e, 4);
  }

  /** The category query: page and pageSize first, in decimal, and then its optional keys in a fixed order. */
  lemma CategoryQueryOrder(c: CategoryFilter)
    ensures var q := CategoryQuery(c);
      Subsequence(Keys(q), ["page", "pageSize", "search", "sort", "order"])
      && Lookup(q, "page") == Some(IntToString(c.page)) && Lookup(q, "pageSize") == Some(IntToString(c.pageSize))
  {
    var e := CategoryEntries(c);
    assert ["page", "pageSize"] + Keys(e) == ["page", "pageSize", "search", "sort", "order"];
    ListQueryInOrder(c.page, c.pageSize, e);
  }

  /** Search, sort and order are in the category query exactly when non-empty; a category or a status never is. */
  lemma CategoryQueryShape(c: CategoryFilter)
    ensures var q := CategoryQuery(c);
      Lookup(q, "search") == Setting(c.search) && Lookup(q, "sort") == Setting(c.sort)
      && Lookup(q, "order") == Setting(c.order)
      && Lookup(q, "category") == None && Lookup(q, "status") == None
  {
    var e := CategoryEntries(c);
    assert OptionalKeys(e);
    ListQueryEntry(c.page, c.pageSize, e, 0);
    ListQueryEntry(c.page, c.pageSize, e, 1);
    ListQueryEntry(c.page, c.pageSize, e, 2);
    ListQueryAbsent(c.page, c.pageSize, e, "category");
    ListQueryAbsent(c.page, c.pageSize, e, "status");
  }

  /** `getProductsAction(params)`: a GET of the product list with the query; the normalised page or "Failed to fetch products". */
  function GetProducts(params: Option<ProductFilter>, response: Settled): (r: (Call, Result<DataFetchState>))
    ensures var p := params.GetOr(DefaultProductFilter);
      r.0 == Call(ApiService.GET, ListPath(Products, ProductQuery(p)), None)
      && ReportsPage(r.1, response, p.page, p.pageSize, "Failed to fetch products")
  {
    var p := params.GetOr(DefaultProductFilter);
    (Call(ApiService.GET, ListPath(Products, ProductQuery(p)), None), ListOutcome(response, p.page, p.pageSize, "Failed to fetch products"))
  }

  /** `getCategoriesAction(params)`: the same for the category list. */
  function GetCategories(params: Option<CategoryFilter>, response: Settled): (r: (Call, Result<DataFetchState>))
    ensures var c := params.GetOr(DefaultCategoryFilter);
      r.0 == Call(ApiService.GET, ListPath(Categories, CategoryQuery(c)), None)
      && ReportsPage(r.1, response, c.page, c.pageSize, "Failed to fetch categories")
  {
    var c := params.GetOr(DefaultCategoryFilter);
    (Call(ApiService.GET, ListPath(Categories, CategoryQuery(c)), None), ListOutcome(response, c.page, c.pageSize, "Failed to fetch categories"))
  }

  /** Without parameters, the product list asks for the first page of 20, and reads a resolved answer that way. */
  lemma ListDefaults(response: Settled)
    ensures Lookup(GetProducts(None, response).0.endpoint.query, "page") == Some("1")
    ensures Lookup(GetProducts(None, response).0.endpoint.query, "pageSize") == Some("20")
    ensures GetProducts(None, response).1.Ok? ==>
      GetProducts(None, response).1.value.page == 1 && GetProducts(None, response).1.value.pageSize == 20
  {
    ProductQueryOrder(DefaultProductFilter);
    PageNumberTexts();
  }

  /** Without parameters, the category list asks for pages of 20. */
  lemma ListCategoriesDefaults(response: Settled)
    ensures Lookup(GetCategories(None, response).0.endpoint.query, "pageSize") == Some("20")
  {
    CategoryQueryOrder(DefaultCategoryFilter);
    PageNumberTexts();
  }

  /** `getProductAction(id)`: a GET of the product; its body, or "Failed to fetch product". */
  function GetProduct(id: string, response: Settled): (r: (Call, Result<Json>))
    ensures r.0 == Call(ApiService.GET, ItemPath(Products, GetOp, id), None)
    ensures response.Resolved? ==> r.1 == Ok(response.value)
    ensures response.Rejected? ==> r.1 == Err("Failed to fetch product")
  {
    (Call(ApiService.GET, ItemPath(Products, GetOp, id), None), GetOutcome(response, "Failed to fetch product"))
  }

  /** `createCategoryAction(payload)`: a POST of the payload, reported as a success or a failure. */
  function CreateCategory(payload: Json, response: Settled): (r: (Call, Result<ActionResult>))
    ensures r.0 == Call(ApiService.POST, CreatePath(Categories), Some(payload))
    ensures Reports(r.1, response, true, "Failed to create category")
  {
    (Call(ApiService.POST, CreatePath(Categories), Some(payload)), ActionOutcome(response, true, "Failed to create category"))
  }

  /** `updateCategoryAction(id, payload)`: a PUT to the category's path for `String(id)`. */
  function UpdateCategory(id: Id, payload: Json, response: Settled): (r: (Call, Result<ActionResult>))
    ensures r.0 == Call(ApiService.PUT, ItemPath(Categories, UpdateOp, IdString(id)), Some(payload))
    ensures Reports(r.1, response, true, "Failed to update category")
  {
    (Call(ApiService.PUT, ItemPath(Categories, UpdateOp, IdString(id)), Some(payload)), ActionOutcome(response, true, "Failed to update category"))
  }

  /** `deleteCategoryAction(id)`: a DELETE of the category; a success carries `null`. */
  function DeleteCategory(id: Id, response: Settled): (r: (Call, Result<ActionResult>))
    ensures r.0 == Call(ApiService.DELETE, ItemPath(Categories, DeleteOp, IdString(id)), None)
    ensures Reports(r.1, response, false, "Failed to delete category")
  {
    (Call(ApiService.DELETE, ItemPath(Categories, DeleteOp, IdString(id)), None), ActionOutcome(response, false, "Failed to delete category"))
  }

  /** `createProductAction(payload)`. */
  function CreateProduct(payload: Json, response: Settled): (r: (Call, Result<ActionResult>))
    ensures r.0 == Call(ApiService.POST, CreatePath(Products), Some(payload))
    ensures Reports(r.1, response, true, "Failed to create product")
  {
    (Call(ApiService.POST, CreatePath(Products), Some(payload)), ActionOutcome(response, true, "Failed to create product"))
  }

  /** `updateProductAction(id, payload)`. */
  function UpdateProduct(id: Id, payload: Json, response: Settled): (r: (Call, Result<ActionResult>))
    ensures r.0 == Call(ApiService.PUT, ItemPath(Products, UpdateOp, IdString(id)), Some(payload))
    ensures Reports(r.1, response, true, "Failed to update product")
  {
    (Call(ApiService.PUT, ItemPath(Products, UpdateOp, IdString(id)), Some(payload)), ActionOutcome(response, true, "Failed to update product"))
  }

  /** `deleteProductAction(id)`. */
  function DeleteProduct(id: Id, response: Settled): (r: (Call, Result<ActionResult>))
    ensures r.0 == Call(ApiService.DELETE, ItemPath(Products, DeleteOp, IdString(id)), None)
    ensures Reports(r.1, response, false, "Failed to delete product")
  {
    (Call(ApiService.DELETE, ItemPath(Products, DeleteOp, IdString(id)), None), ActionOutcome(response, false, "Failed to delete product"))
  }

  /** A numeric id and its decimal string update and delete the same product. */
  lemma NumericIdsAgree(n: int, payload: Json, response: Settled)
    ensures UpdateProduct(NumId(n), payload, response) == UpdateProduct(StrId(IntToString(n)), payload, response)
    ensures DeleteProduct(NumId(n), response) == DeleteProduct(StrId(IntToString(n)), response)
  {
  }
}
