/**
 * The product editor: a form of text fields filled from the product being
 * edited (or empty for a new one), a change handler, and a submit handler
 * that checks the required fields in order, builds the payload and calls the
 * update or create action. Number parsing of prices is a parameter; the
 * action's settlement is a parameter of each submission.
 */
module ProductForm {
  import opened Wrappers
  import opened JsText
  import opened Json
  import opened ServerActions
  import opened ApiHandlers
  import CatalogActions

  /** The product fields the form reads. */
  datatype Product = Product(id: string, name: string, description: string, price: int, originalPrice: Option<int>,
                             categoryId: string, sku: string, stock: int, status: string)

  /** The fields of the form's state object. */
  const FormKeys: set<string> := {"name", "description", "price", "originalPrice", "categoryId", "sku", "stock", "status"}

  /** `String(n)`, or "" when the value is absent. */
  function NumberText(n: Option<int>): (t: string)
    ensures n.None? <==> t == ""
    ensures n.Some? ==> t == IntToString(n.value)
  {
    if n.Some? then IntToString(n.value) else ""
  }

  /**
   * The initial form: each field from the product, "" for a missing or empty
   * text, and "active" for a missing status.
   */
  function InitialForm(product: Option<Product>): (f: map<string, string>)
    ensures f.Keys == FormKeys
    ensures product.None? ==> forall k :: k in f ==> f[k] == (if k == "status" then "active" else "")
    ensures product.Some? ==>
      var p := product.value;
      f["name"] == p.name && f["description"] == p.description && f["price"] == IntToString(p.price)
      && f["originalPrice"] == NumberText(p.originalPrice) && f["categoryId"] == p.categoryId
      && f["sku"] == p.sku && f["stock"] == IntToString(p.stock)
      && f["status"] == (if p.status != "" then p.status else "active")
  {
    if product.None? then
      map["name" := "", "description" := "", "price" := "", "originalPrice" := "", "categoryId" := "", "sku" := "",
          "stock" := "", "status" := "active"]
    else
      var p := product.value;
      map["name" := p.name, "description" := p.description, "price" := IntToString(p.price),
          "originalPrice" := NumberText(p.originalPrice), "categoryId" := p.categoryId, "sku" := p.sku,
          "stock" := IntToString(p.stock), "status" := if p.status != "" then p.status else "active"]
  }

  /** The message of the first required-field check that fails: name (trimmed), then price, then category. */
  function Check(form: map<string, string>): (message: Option<string>)
    requires FormKeys <= form.Keys
    ensures message.None? <==> Trim(form["name"]) != "" && form["price"] != "" && form["categoryId"] != ""
    ensures Trim(form["name"]) == "" ==> message == Some("Product name is required")
    ensures Trim(form["name"]) != "" && form["price"] == "" ==> message == Some("Product price is required")
    ensures Trim(form["name"]) != "" && form["price"] != "" && form["categoryId"] == "" ==>
      message == Some("Product category is required")
  {
    if Trim(form["name"]) == "" then Some("Product name is required")
    else if form["price"] == "" then Some("Product price is required")
    else if form["categoryId"] == "" then Some("Product category is required")
    else None
  }

  /** A parsed number as JSON: NaN serialises as `null`. */
  function NumberJson(x: JsNum): Json {
    match x
    case NaN => JNull
    case Num(n) => JNum(n)
  }

  /** `parseFloat(text) || 0`: NaN and 0 both become 0. */
  function OrZero(x: JsNum): (y: JsNum)
    ensures y.Num?
    ensures x.Num? && x.n != 0 ==> y == x
  {
    if x.Num? && x.n != 0 then x else Num(0)
  }

  /** `parseInt(form.stock || '0', 10)`. */
  function Stock(text: string): (s: JsNum)
    ensures text == "" ==> s == Num(0)
    ensures text != "" ==> s == ParseInt(text, Decimal)
  {
    ParseIntIntToString(0, Decimal);
    ParseInt(if text == "" then "0" else text, Decimal)
  }

  /**
   * The payload sent for a form: the texts as they are, the price parsed
   * (0 when unparsable), the original price parsed with no fallback (so an
   * unparsable one is sent as `null`) and left out when empty, the category
   * as text and left out when empty, the stock parsed in decimal, and no
   * other key.
   */
  function Payload(form: map<string, string>, parseFloat: string -> JsNum): (body: Json)
    requires FormKeys <= form.Keys
    ensures body.JObj?
    ensures "originalPrice" in body.fields <==> form["originalPrice"] != ""
    ensures "categoryId" in body.fields <==> form["categoryId"] != ""
    ensures "stock" in body.fields && body.fields["stock"] == NumberJson(Stock(form["stock"]))
    ensures "name" in body.fields && body.fields["name"] == JStr(form["name"])
    ensures "price" in body.fields && body.fields["price"] == NumberJson(OrZero(parseFloat(form["price"])))
    ensures "description" in body.fields && body.fields["description"] == JStr(form["description"])
    ensures "sku" in body.fields && body.fields["sku"] == JStr(form["sku"])
    ensures "status" in body.fields && body.fields["status"] == JStr(form["status"])
    ensures form["originalPrice"] != "" ==>
      body.fields["originalPrice"] == NumberJson(parseFloat(form["originalPrice"]))
    ensures form["originalPrice"] != "" && parseFloat(form["originalPrice"]).NaN? ==> body.fields["originalPrice"] == JNull
    ensures form["categoryId"] != "" ==> body.fields["categoryId"] == JStr(form["categoryId"])
    ensures body.fields.Keys ==
      {"name", "description", "price", "sku", "stock", "status"}
      + (if form["originalPrice"] != "" then {"originalPrice"} else {})
      + (if form["categoryId"] != "" then {"categoryId"} else {})
  {
    var required := map["name" := JStr(form["name"]), "description" := JStr(form["description"]),
                        "price" := NumberJson(OrZero(parseFloat(form["price"]))), "sku" := JStr(form["sku"]),
                        "stock" := NumberJson(Stock(form["stock"])), "status" := JStr(form["status"])];
    var withOriginal := if form["originalPrice"] != "" then required["originalPrice" := NumberJson(parseFloat(form["originalPrice"]))]
                        else required;
    JObj(if form["categoryId"] != "" then withOriginal["categoryId" := JStr(form["categoryId"])] else withOriginal)
  }

  /** The stock field's own text parses back to the stock. */
  lemma StockRoundTrip(n: int)
    ensures Stock(IntToString(n)) == Num(n)
  {
    ParseIntIntToString(n, Decimal);
    assert IntToString(n) != "" by {
      if n < 0 {
        assert IntToString(n) == "-" + NatToString(-n);
      }
    }
  }

  /** Editing a product and submitting it unchanged sends its own name and stock back. */
  lemma EditedProductRoundTrip(p: Product, parseFloat: string -> JsNum)
    ensures var body := Payload(InitialForm(Some(p)), parseFloat);
      body.fields["name"] == JStr(p.name) && body.fields["stock"] == JNum(p.stock)
      && ("originalPrice" in body.fields <==> p.originalPrice.Some?)
  {
    var f := InitialForm(Some(p));
    StockRoundTrip(p.stock);
    assert Stock(f["stock"]) == Num(p.stock);
  }

  /** The toasts a submission can end with. */
  function SavedMessage(edit: bool): string {
    if edit then "Product updated successfully" else "Product created successfully"
  }

  function FailedMessage(edit: bool): string {
    if edit then "Failed to update product" else "Failed to create product"
  }

  function CrashedMessage(edit: bool): string {
    if edit then "An error occurred while updating the product" else "An error occurred while creating the product"
  }

  /** Where a successful submission navigates. */
  const CatalogPath := "/admin/catalog"

  class ProductEditor {
    /** The product being edited; none when adding. */
    const product: Option<Product>
    const parseFloat: string -> JsNum
    var form: map<string, string>
    var isLoading: bool
    /** The toasts shown, the pages navigated to, and the action calls made, oldest first. */
    var toasts: seq<Notice>
    var pushed: seq<string>
    var calls: seq<Call>

    predicate Valid()
      reads this
    {
      FormKeys <= form.Keys
    }

    /** Edit mode: a product was given. */
    predicate IsEditMode() {
      product.Some?
    }

    constructor (product: Option<Product>, parseFloat: string -> JsNum)
      ensures this.product == product && this.parseFloat == parseFloat
      ensures form == InitialForm(product) && !isLoading
      ensures toasts == [] && pushed == [] && calls == []
      ensures Valid()
    {
      this.product := product;
      this.parseFloat := parseFloat;
      form := InitialForm(product);
      isLoading := false;
      toasts := [];
      pushed := [];
      calls := [];
    }

    /** `handleChange(field, value)`: only the named field changes. */
    method HandleChange(field: string, value: string)
      requires Valid()
      modifies this
      ensures form == old(form)[field := value]
      ensures forall k :: k in old(form) && k != field ==> k in form && form[k] == old(form)[k]
      ensures isLoading == old(isLoading) && toasts == old(toasts) && pushed == old(pushed) && calls == old(calls)
      ensures Valid()
    {
      form := form[field := value];
    }

    /** The call a passing form makes: update in edit mode, create otherwise. */
    function Submission(response: Settled): (sent: (Call, Result<ActionResult>))
      requires Valid()
      reads this
    {
      var body := Payload(form, parseFloat);
      if product.Some? then CatalogActions.UpdateProduct(StrId(product.value.id), body, response)
      else CatalogActions.CreateProduct(body, response)
    }

    /**
     * `handleSubmit`: a failed check shows its message and makes no call; a
     * passing form is sent to the update action in edit mode and the create
     * action otherwise. Only a success navigates to the catalogue; loading
     * ends on every path.
     */
    method HandleSubmit(response: Settled)
      requires Valid()
      modifies this
      ensures Valid() && form == old(form) && !isLoading
      ensures Check(form).Some? ==>
        calls == old(calls) && pushed == old(pushed)
        && toasts == old(toasts) + [Notice(ErrorToast, JStr(Check(form).value))]
      ensures Check(form).None? ==>
        calls == old(calls) + [Submission(response).0]
        && Reported(Submission(response).1, old(pushed), old(toasts))
    {
      isLoading := true;
      var problem := Check(form);
      if problem.Some? {
        toasts := toasts + [Notice(ErrorToast, JStr(problem.value))];
        isLoading := false;
        return;
      }
      var sent := Submission(response);
      calls := calls + [sent.0];
      Report(sent.1);
      isLoading := false;
    }

    /**
     * What the form shows for the action's outcome: a success navigates to
     * the catalogue with the saved toast; a reported failure shows its error
     * (or the fixed failure text); a rejection shows the fixed error text.
     */
    ghost predicate Reported(result: Result<ActionResult>, pushed0: seq<string>, toasts0: seq<Notice>)
      reads this
    {
      var edit := product.Some?;
      (result.Ok? && result.value.Success? ==>
         pushed == pushed0 + [CatalogPath] && toasts == toasts0 + [Notice(SuccessToast, JStr(SavedMessage(edit)))])
      && (result.Ok? && result.value.Failure? ==>
            pushed == pushed0 && toasts == toasts0 + [Notice(ErrorToast, Or(result.value.error, JStr(FailedMessage(edit))))])
      && (result.Err? ==>
            pushed == pushed0 && toasts == toasts0 + [Notice(ErrorToast, JStr(CrashedMessage(edit)))])
    }

    method Report(result: Result<ActionResult>)
      modifies this
      ensures Reported(result, old(pushed), old(toasts))
      ensures form == old(form) && calls == old(calls) && isLoading == old(isLoading)
    {
      match result {
        case Ok(r) =>
          if r.Success? {
            toasts := toasts + [Notice(SuccessToast, JStr(SavedMessage(product.Some?)))];
            pushed := pushed + [CatalogPath];
          } else {
            toasts := toasts + [Notice(ErrorToast, Or(r.error, JStr(FailedMessage(product.Some?))))];
          }
        case Err(_) =>
          toasts := toasts + [Notice(ErrorToast, JStr(CrashedMessage(product.Some?)))];
      }
    }
  }

  /**
   * A new product with a blank name is never sent: whatever the response
   * would have been, the submission stops at the first check.
   */
  method BlankNameNotSent(parseFloat: string -> JsNum, response: Settled) returns (editor: ProductEditor)
    ensures editor.calls == [] && editor.pushed == [] && !editor.isLoading
    ensures editor.toasts == [Notice(ErrorToast, JStr("Product name is required"))]
  {
    editor := new ProductEditor(None, parseFloat);
    editor.HandleChange("name", "  ");
    assert Trim("  ") == "" by {
      assert LeadingSpaces("  ") == 2;
    }
    editor.HandleSubmit(response);
  }
}
