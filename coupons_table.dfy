/**
 * The coupons table: the discount column's text, and the add, edit, save
 * and delete handlers around the coupon form and the two modals. The save
 * goes through `apiHandlers.async` and the delete through
 * `apiHandlers.deleteWithConfirm`; how the action call settles, whether the
 * user confirms and whether the parent's refresh succeeds are parameters.
 * The toasts those wrappers show are not part of this model.
 */
module CouponsTable {
  import opened Wrappers
  import opened JsText
  import opened Json
  import opened ServerActions
  import opened ApiHandlers
  import CouponActions
  import ApiService

  datatype DiscountType = Percentage | Fixed

  /** The coupon fields the table reads. */
  datatype Coupon = Coupon(id: string, code: string, description: Option<string>, discountType: DiscountType,
                           discountValue: int, maxUses: Option<int>, currentUses: int, expiryDate: Option<string>,
                           minOrderValue: Option<int>, status: string)

  /** The coupon form: every field a text, except the discount type. */
  datatype CouponForm = CouponForm(code: string, description: string, discountType: DiscountType, discountValue: string,
                                   maxUses: string, expiryDate: string, minOrderValue: string)

  const EmptyCouponForm := CouponForm("", "", Percentage, "", "", "", "")

  function DiscountTypeName(t: DiscountType): string {
    match t
    case Percentage => "percentage"
    case Fixed => "fixed"
  }

  /** The discount column: the value followed by "%" for a percentage, preceded by "$" otherwise. */
  function DiscountLabel(t: DiscountType, value: int): (shown: string)
    ensures |shown| == |IntToString(value)| + 1
    ensures t == Percentage ==> shown[..|shown| - 1] == IntToString(value) && shown[|shown| - 1] == '%'
    ensures t == Fixed ==> shown[0] == '$' && shown[1..] == IntToString(value)
  {
    if t == Percentage then IntToString(value) + "%" else "$" + IntToString(value)
  }

  /** `String(n)` has no "%" and no "$" in it: only a sign and digits. */
  lemma IntToStringPlain(n: int, i: int)
    requires 0 <= i < |IntToString(n)|
    ensures IntToString(n)[i] == '-' || IsDecimalDigit(IntToString(n)[i])
  {
    if n < 0 {
      assert IntToString(n) == "-" + NatToString(-n);
      if i > 0 {
        assert IntToString(n)[i] == NatToString(-n)[i - 1];
      }
    }
  }

  /** The label gives back both the type (from its symbol) and the value (from its digits). */
  lemma DiscountLabelReadBack(t: DiscountType, value: int)
    ensures var shown := DiscountLabel(t, value);
      (shown[|shown| - 1] == '%' <==> t == Percentage)
      && (shown[0] == '$' <==> t == Fixed)
      && ParseInt(if t == Percentage then shown[..|shown| - 1] else shown[1..], Decimal) == Num(value)
  {
    var text := IntToString(value);
    assert |text| >= 1 by {
      if value < 0 {
        assert text == "-" + NatToString(-value);
      }
    }
    IntToStringPlain(value, 0);
    IntToStringPlain(value, |text| - 1);
    ParseIntIntToString(value, Decimal);
    if t == Fixed {
      assert DiscountLabel(t, value)[|text|] == text[|text| - 1];
    } else {
      assert DiscountLabel(t, value)[0] == text[0];
    }
  }

  /** `String(n || '')`: the decimal text of a present non-zero number, "" for a missing or zero one. */
  function OptionalNumberText(n: Option<int>): (t: string)
    ensures t == "" <==> n.None? || n.value == 0
    ensures t != "" ==> ParseInt(t, Decimal) == Num(n.value)
  {
    if n.Some? && n.value != 0 then
      ParseIntIntToString(n.value, Decimal);
      assert n.value < 0 ==> IntToString(n.value) == "-" + NatToString(-n.value);
      IntToString(n.value)
    else ""
  }

  /**
   * The form `handleEdit` fills: the code and type as they are, the value in
   * decimal, and the optional fields as "" when missing (and, for the
   * numbers, when zero).
   */
  function EditForm(c: Coupon): (f: CouponForm)
    ensures f.code == c.code && f.discountType == c.discountType
    ensures f.description == c.description.GetOr("") && f.expiryDate == c.expiryDate.GetOr("")
    ensures ParseInt(f.discountValue, Decimal) == Num(c.discountValue)
    ensures f.maxUses == "" <==> c.maxUses.None? || c.maxUses.value == 0
    ensures f.maxUses != "" ==> ParseInt(f.maxUses, Decimal) == Num(c.maxUses.value)
    ensures f.minOrderValue == "" <==> c.minOrderValue.None? || c.minOrderValue.value == 0
    ensures f.minOrderValue != "" ==> ParseInt(f.minOrderValue, Decimal) == Num(c.minOrderValue.value)
  {
    ParseIntIntToString(c.discountValue, Decimal);
    CouponForm(c.code, c.description.GetOr(""), c.discountType, IntToString(c.discountValue),
               OptionalNumberText(c.maxUses), c.expiryDate.GetOr(""), OptionalNumberText(c.minOrderValue))
  }

  const CouponFormKeys: set<string> := {"code", "description", "discountType", "discountValue", "maxUses", "expiryDate", "minOrderValue"}

  /** The form as the payload object it is sent as, texts and all. */
  function FormJson(f: CouponForm): (body: Json)
    ensures body.JObj? && body.fields.Keys == CouponFormKeys
    ensures body.fields["code"] == JStr(f.code) && body.fields["discountType"] == JStr(DiscountTypeName(f.discountType))
    ensures body.fields["description"] == JStr(f.description) && body.fields["discountValue"] == JStr(f.discountValue)
    ensures body.fields["maxUses"] == JStr(f.maxUses) && body.fields["expiryDate"] == JStr(f.expiryDate)
    ensures body.fields["minOrderValue"] == JStr(f.minOrderValue)
  {
    JObj(map["code" := JStr(f.code), "description" := JStr(f.description),
             "discountType" := JStr(DiscountTypeName(f.discountType)), "discountValue" := JStr(f.discountValue),
             "maxUses" := JStr(f.maxUses), "expiryDate" := JStr(f.expiryDate), "minOrderValue" := JStr(f.minOrderValue)])
  }

  /** A deletion the server refuses is still reported as a (failed) result, so the `await` in the table passes. */
  lemma RefusedDeletionPasses(id: string, error: Json)
    requires !Nullish(error)
    ensures var r := CouponActions.DeleteCoupon(id, Rejected(error)).1;
      r.Ok? && r.value.Failure? && Awaited(r).Pass?
  {
  }

  class CouponsDataTable {
    /** The rows from the initial page, and whether the parent passed `onRefresh`. */
    const coupons: seq<Coupon>
    const canRefresh: bool
    var showModal: bool
    var showDeleteModal: bool
    var selected: Option<Coupon>
    var form: CouponForm
    /** The action calls made and the number of times the parent's refresh was awaited. */
    var calls: seq<Call>
    var refreshes: nat

    constructor (initialData: seq<Coupon>, canRefresh: bool)
      ensures coupons == initialData && this.canRefresh == canRefresh
      ensures !showModal && !showDeleteModal && selected.None? && form == EmptyCouponForm
      ensures calls == [] && refreshes == 0
    {
      coupons := initialData;
      this.canRefresh := canRefresh;
      showModal := false;
      showDeleteModal := false;
      selected := None;
      form := EmptyCouponForm;
      calls := [];
      refreshes := 0;
    }

    /** `handleAdd`: no selection, an empty percentage form, and the form modal open. */
    method HandleAdd()
      modifies this
      ensures selected.None? && form == EmptyCouponForm && showModal
      ensures showDeleteModal == old(showDeleteModal) && calls == old(calls) && refreshes == old(refreshes)
    {
      selected := None;
      form := EmptyCouponForm;
      showModal := true;
    }

    /** `handleEdit(coupon)`: the coupon selected, the form filled from it, and the form modal open. */
    method HandleEdit(coupon: Coupon)
      modifies this
      ensures selected == Some(coupon) && form == EditForm(coupon) && showModal
      ensures showDeleteModal == old(showDeleteModal) && calls == old(calls) && refreshes == old(refreshes)
    {
      selected := Some(coupon);
      form := EditForm(coupon);
      showModal := true;
    }

    /** `handleDelete(coupon)`: the coupon selected and the delete modal open; the form is untouched. */
    method HandleDelete(coupon: Coupon)
      modifies this
      ensures selected == Some(coupon) && showDeleteModal
      ensures form == old(form) && showModal == old(showModal) && calls == old(calls) && refreshes == old(refreshes)
    {
      selected := Some(coupon);
      showDeleteModal := true;
    }

    /**
     * The save's action call: an update of the selected row, or a create
     * without a selection, with the form as the payload. `apiHandlers.async`
     * turns a rejection into null and the value is not used, so how the call
     * settles changes nothing else.
     */
    method SendForm(response: Settled)
      modifies this
      ensures old(selected).Some? ==>
        calls == old(calls) + [Call(ApiService.PUT, ItemPath(Coupons, UpdateOp, old(selected).value.id), Some(FormJson(old(form))))]
      ensures old(selected).None? ==>
        calls == old(calls) + [Call(ApiService.POST, CreatePath(Coupons), Some(FormJson(old(form))))]
      ensures selected == old(selected) && form == old(form) && refreshes == old(refreshes)
      ensures showModal == old(showModal) && showDeleteModal == old(showDeleteModal)
    {
      var payload := FormJson(form);
      var sent: (Call, Result<ActionResult>);
      if selected.Some? {
        sent := CouponActions.UpdateCoupon(selected.value.id, payload, response);
      } else {
        sent := CouponActions.CreateCoupon(payload, response);
      }
      calls := calls + [sent.0];
      var _ := Async(sent.1);
    }

    /**
     * `handleSave`: an update of the selected coupon, or a create without a
     * selection, with the form as the payload. `apiHandlers.async` swallows
     * whatever the call does, so the parent's refresh follows and the modal
     * closes whatever the server said; only a refresh that rejects keeps the
     * modal open.
     */
    method HandleSave(response: Settled, refresh: Outcome)
      modifies this
      ensures old(selected).Some? ==>
        calls == old(calls) + [Call(ApiService.PUT, ItemPath(Coupons, UpdateOp, old(selected).value.id), Some(FormJson(old(form))))]
      ensures old(selected).None? ==>
        calls == old(calls) + [Call(ApiService.POST, CreatePath(Coupons), Some(FormJson(old(form))))]
      ensures refreshes == old(refreshes) + (if canRefresh then 1 else 0)
      ensures showModal == (if canRefresh && refresh.Fail? then old(showModal) else false)
      ensures selected == old(selected) && form == old(form) && showDeleteModal == old(showDeleteModal)
    {
      SendForm(response);
      if canRefresh {
        refreshes := refreshes + 1;
      }
      // a refresh that rejects reaches the catch block, which only logs it
      if !canRefresh || refresh.Pass? {
        showModal := false;
      }
    }

    /**
     * `handleConfirmDelete`: nothing at all without a selection. Otherwise
     * the deletion runs only if the user confirms, the parent refreshes only
     * when `deleteWithConfirm` answered true, and the delete modal closes on
     * every path.
     */
    method HandleConfirmDelete(confirmed: bool, response: Settled)
      modifies this
      ensures old(selected).None? ==>
        showDeleteModal == old(showDeleteModal) && calls == old(calls) && refreshes == old(refreshes)
      ensures old(selected).Some? ==>
        !showDeleteModal
        && calls == old(calls) + (if confirmed then [Call(ApiService.DELETE, ItemPath(Coupons, DeleteOp, old(selected).value.id), None)]
                                  else [])
        && refreshes == old(refreshes) + (if confirmed && canRefresh && CouponActions.DeleteCoupon(old(selected).value.id, response).1.Ok?
                                          then 1 else 0)
      ensures selected == old(selected) && form == old(form) && showModal == old(showModal)
    {
      if selected.None? {
        return;
      }
      var coupon := selected.value;
      var deletion := CouponActions.DeleteCoupon(coupon.id, response);
      if confirmed {
        calls := calls + [deletion.0];
      }
      var ok := DeleteWithConfirm(coupon.code, confirmed, Awaited(deletion.1)).result;
      if ok && canRefresh {
        // a refresh that rejects is caught and logged
        refreshes := refreshes + 1;
      }
      showDeleteModal := false;
    }
  }
}
