/**
 * The categories table: the add, edit, save and delete handlers around the
 * category form (a name and a description) and the two modals. As in the
 * coupons table, how the action call settles, whether the user confirms and
 * whether the parent's refresh succeeds are parameters, and the wrappers'
 * toasts are not part of this model.
 */
module CategoriesTable {
  import opened Wrappers
  import opened Json
  import opened ServerActions
  import opened ApiHandlers
  import CatalogActions
  import ApiService

  /** The category fields the table reads. */
  datatype Category = Category(id: string, name: string, description: Option<string>, slug: string)

  datatype CategoryForm = CategoryForm(name: string, description: string)

  const EmptyCategoryForm := CategoryForm("", "")

  /** The form `handleEditCategory` fills: the name, and the description or "" when it is missing. */
  function EditForm(c: Category): (f: CategoryForm)
    ensures f.name == c.name
    ensures c.description.Some? ==> f.description == c.description.value
    ensures c.description.None? ==> f.description == ""
  {
    CategoryForm(c.name, c.description.GetOr(""))
  }

  /** The form as the payload object it is sent as. */
  function FormJson(f: CategoryForm): (body: Json)
    ensures body.JObj? && body.fields.Keys == {"name", "description"}
    ensures body.fields["name"] == JStr(f.name) && body.fields["description"] == JStr(f.description)
  {
    JObj(map["name" := JStr(f.name), "description" := JStr(f.description)])
  }

  /** A deletion the server refuses is still reported as a (failed) result, so the `await` in the table passes. */
  lemma RefusedDeletionPasses(id: string, error: Json)
    requires !Nullish(error)
    ensures var r := CatalogActions.DeleteCategory(StrId(id), Rejected(error)).1;
      r.Ok? && r.value.Failure? && Awaited(r).Pass?
  {
  }

  class CategoriesDataTable {
    /** The rows from the initial page, and whether the parent passed `onRefresh`. */
    const categories: seq<Category>
    const canRefresh: bool
    var showCategoryModal: bool
    var showDeleteModal: bool
    var selected: Option<Category>
    var form: CategoryForm
    /** The action calls made and the number of times the parent's refresh was awaited. */
    var calls: seq<Call>
    var refreshes: nat

    constructor (initialData: seq<Category>, canRefresh: bool)
      ensures categories == initialData && this.canRefresh == canRefresh
      ensures !showCategoryModal && !showDeleteModal && selected.None? && form == EmptyCategoryForm
      ensures calls == [] && refreshes == 0
    {
      categories := initialData;
      this.canRefresh := canRefresh;
      showCategoryModal := false;
      showDeleteModal := false;
      selected := None;
      form := EmptyCategoryForm;
      calls := [];
      refreshes := 0;
    }

    /** `handleAddCategory`: no selection, an empty form, and the form modal open. */
    method HandleAddCategory()
      modifies this
      ensures selected.None? && form == EmptyCategoryForm && showCategoryModal
      ensures showDeleteModal == old(showDeleteModal) && calls == old(calls) && refreshes == old(refreshes)
    {
      selected := None;
      form := EmptyCategoryForm;
      showCategoryModal := true;
    }

    /** `handleEditCategory(category)`: the category selected, the form filled from it, and the form modal open. */
    method HandleEditCategory(category: Category)
      modifies this
      ensures selected == Some(category) && form == EditForm(category) && showCategoryModal
      ensures showDeleteModal == old(showDeleteModal) && calls == old(calls) && refreshes == old(refreshes)
    {
      selected := Some(category);
      form := EditForm(category);
      showCategoryModal := true;
    }

    /** `handleDeleteCategory(category)`: the category selected and the delete modal open. */
    method HandleDeleteCategory(category: Category)
      modifies this
      ensures selected == Some(category) && showDeleteModal
      ensures form == old(form) && showCategoryModal == old(showCategoryModal)
      ensures calls == old(calls) && refreshes == old(refreshes)
    {
      selected := Some(category);
      showDeleteModal := true;
    }

    /**
     * The save's action call: an update of the selected row, or a create
     * without a selection, with the form as the payload. `apiHandlers.async`
     * turns a rejection into null and the value is not used, so how the call
     * settles changes nothing else.
     */
    method SendForm(response: Settled)
      modifies this
      ensures old(selected).Some? ==>
        calls == old(calls) + [Call(ApiService.PUT, ItemPath(Categories, UpdateOp, old(selected).value.id), Some(FormJson(old(form))))]
      ensures old(selected).None? ==>
        calls == old(calls) + [Call(ApiService.POST, CreatePath(Categories), Some(FormJson(old(form))))]
      ensures selected == old(selected) && form == old(form) && refreshes == old(refreshes)
      ensures showCategoryModal == old(showCategoryModal) && showDeleteModal == old(showDeleteModal)
    {
      var payload := FormJson(form);
      var sent: (Call, Result<ActionResult>);
      if selected.Some? {
        sent := CatalogActions.UpdateCategory(StrId(selected.value.id), payload, response);
      } else {
        sent := CatalogActions.CreateCategory(payload, response);
      }
      calls := calls + [sent.0];
      var _ := Async(sent.1);
    }

    /**
     * `handleSaveCategory`: an update of the selected category, or a create
     * without a selection. Whatever the server says, the parent refreshes and
     * the modal closes; only a refresh that rejects keeps it open.
     */
    method HandleSaveCategory(response: Settled, refresh: Outcome)
      modifies this
      ensures old(selected).Some? ==>
        calls == old(calls) + [Call(ApiService.PUT, ItemPath(Categories, UpdateOp, old(selected).value.id), Some(FormJson(old(form))))]
      ensures old(selected).None? ==>
        calls == old(calls) + [Call(ApiService.POST, CreatePath(Categories), Some(FormJson(old(form))))]
      ensures refreshes == old(refreshes) + (if canRefresh then 1 else 0)
      ensures showCategoryModal == (if canRefresh && refresh.Fail? then old(showCategoryModal) else false)
      ensures selected == old(selected) && form == old(form) && showDeleteModal == old(showDeleteModal)
    {
      SendForm(response);
      if canRefresh {
        refreshes := refreshes + 1;
      }
      // a refresh that rejects reaches the catch block, which only logs it
      if !canRefresh || refresh.Pass? {
        showCategoryModal := false;
      }
    }

    /**
     * `handleConfirmDelete`: nothing at all without a selection. Otherwise
     * the deletion of the category (asked about by its name) runs only if
     * the user confirms, the parent refreshes only when `deleteWithConfirm`
     * answered true, and the delete modal closes on every path.
     */
    method HandleConfirmDelete(confirmed: bool, response: Settled)
      modifies this
      ensures old(selected).None? ==>
        showDeleteModal == old(showDeleteModal) && calls == old(calls) && refreshes == old(refreshes)
      ensures old(selected).Some? ==>
        !showDeleteModal
        && calls == old(calls) + (if confirmed then [Call(ApiService.DELETE, ItemPath(Categories, DeleteOp, old(selected).value.id), None)]
                                  else [])
        && refreshes == old(refreshes) + (if confirmed && canRefresh
                                             && CatalogActions.DeleteCategory(StrId(old(selected).value.id), response).1.Ok?
                                          then 1 else 0)
      ensures selected == old(selected) && form == old(form) && showCategoryModal == old(showCategoryModal)
    {
      if selected.None? {
        return;
      }
      var category := selected.value;
      var deletion := CatalogActions.DeleteCategory(StrId(category.id), response);
      if confirmed {
        calls := calls + [deletion.0];
      }
      var ok := DeleteWithConfirm(category.name, confirmed, Awaited(deletion.1)).result;
      if ok && canRefresh {
        // a refresh that rejects is caught and logged
        refreshes := refreshes + 1;
      }
      showDeleteModal := false;
    }
  }
}
