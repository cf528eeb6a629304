/**
 * The store-content editor: the banner list with its add form and delete
 * buttons, and the footer-link list. The banner actions pass their calls
 * straight to the API client, so each handler takes how each of its calls
 * settled; the confirmation dialog's answer is a parameter too.
 */
module StoreContentForm {
  import opened Wrappers
  import opened Json
  import opened ServerActions
  import opened ApiHandlers

  datatype FooterLink = FooterLink(id: string, labelText: string, url: string, category: string, position: int)

  /** The add-banner form; the link is optional. */
  datatype BannerForm = BannerForm(title: string, image: string, link: string)

  const EmptyBannerForm := BannerForm("", "", "")

  /** The three inputs of the add-banner form. */
  datatype BannerField = Title | Image | Link

  /** `{ ...bannerForm, <field>: value }`: the named input takes the value and the other two are kept. */
  function WithBannerField(form: BannerForm, field: BannerField, value: string): (r: BannerForm)
    ensures field == Title ==> r.title == value && r.image == form.image && r.link == form.link
    ensures field == Image ==> r.image == value && r.title == form.title && r.link == form.link
    ensures field == Link ==> r.link == value && r.title == form.title && r.image == form.image
  {
    match field
    case Title => form.(title := value)
    case Image => form.(image := value)
    case Link => form.(link := value)
  }

  /** The banner calls the editor makes (their endpoints are not part of this model). */
  datatype BannerCall = ListBanners | CreateBanner(form: BannerForm) | DeleteBanner(id: string)

  /** `links.filter(l => l.id !== id)`. */
  function WithoutLink(links: seq<FooterLink>, id: string): (rest: seq<FooterLink>)
    ensures |rest| <= |links|
    ensures forall l :: l in rest <==> l in links && l.id != id
  {
    if links == [] then []
    else (if links[0].id != id then [links[0]] else []) + WithoutLink(links[1..], id)
  }

  /** Filtering works piecewise, so the links that stay keep their order. */
  lemma {:induction false} WithoutLinkSplits(a: seq<FooterLink>, b: seq<FooterLink>, id: string)
    ensures WithoutLink(a + b, id) == WithoutLink(a, id) + WithoutLink(b, id)
    decreases |a|
  {
    if a == [] {
      assert a + b == b;
    } else {
      assert (a + b)[0] == a[0];
      assert (a + b)[1..] == a[1..] + b;
      WithoutLinkSplits(a[1..], b, id);
    }
  }

  /** Removing an id no link has changes nothing. */
  lemma {:induction false} WithoutAbsentLink(links: seq<FooterLink>, id: string)
    requires forall l :: l in links ==> l.id != id
    ensures WithoutLink(links, id) == links
    decreases |links|
  {
    if links != [] {
      assert links[0] in links;
      assert forall l :: l in links[1..] ==> l in links;
      WithoutAbsentLink(links[1..], id);
      assert links == [links[0]] + links[1..];
    }
  }

  /** Removing an id twice is removing it once. */
  lemma WithoutLinkIdempotent(links: seq<FooterLink>, id: string)
    ensures WithoutLink(WithoutLink(links, id), id) == WithoutLink(links, id)
  {
    WithoutAbsentLink(WithoutLink(links, id), id);
  }

  /** The banners a list call yields, if it yields an array. */
  function ListedBanners(listed: Settled): (banners: Option<seq<Json>>)
    ensures banners.Some? <==> listed.Resolved? && listed.value.JArr?
    ensures banners.Some? ==> banners.value == listed.value.items
  {
    if listed.Resolved? && listed.value.JArr? then Some(listed.value.items) else None
  }

  /** `result?.success` of a banner call's body. */
  predicate Succeeded(body: Json) {
    Truthy(OptGet(body, "success"))
  }

  /** `result?.error || <fallback>`: the error a resolved body reports, else the fixed text. */
  function FailureMessage(result: Settled, fallback: string): (m: Json)
    ensures fallback != "" ==> Truthy(m)
    ensures result.Resolved? && Truthy(OptGet(result.value, "error")) ==> m == OptGet(result.value, "error")
    ensures !(result.Resolved? && Truthy(OptGet(result.value, "error"))) ==> m == JStr(fallback)
  {
    if result.Resolved? then Or(OptGet(result.value, "error"), JStr(fallback)) else JStr(fallback)
  }

  class StoreContentEditor {
    var banners: seq<Json>
    var footerLinks: seq<FooterLink>
    var showBannerForm: bool
    var isLoading: bool
    var bannerForm: BannerForm
    /** The toasts shown and the banner calls made, oldest first. */
    var toasts: seq<Notice>
    var calls: seq<BannerCall>

    constructor (initialBanners: Option<seq<Json>>, initialFooterLinks: Option<seq<FooterLink>>)
      ensures banners == initialBanners.GetOr([]) && footerLinks == initialFooterLinks.GetOr([])
      ensures !showBannerForm && !isLoading && bannerForm == EmptyBannerForm
      ensures toasts == [] && calls == []
    {
      banners := initialBanners.GetOr([]);
      footerLinks := initialFooterLinks.GetOr([]);
      showBannerForm := false;
      isLoading := false;
      bannerForm := EmptyBannerForm;
      toasts := [];
      calls := [];
    }

    /** The "Add Banner" button: the form is shown; what it holds is kept. */
    method OpenBannerForm()
      modifies this`showBannerForm
      ensures showBannerForm
    {
      showBannerForm := true;
    }

    /** Typing into one of the form's inputs: that input changes and nothing else does. */
    method SetBannerField(field: BannerField, value: string)
      modifies this`bannerForm
      ensures bannerForm == WithBannerField(old(bannerForm), field, value)
    {
      bannerForm := WithBannerField(bannerForm, field, value);
    }

    /** The form's "Cancel" button: the form is hidden; what it holds is kept for the next opening. */
    method CancelBannerForm()
      modifies this`showBannerForm
      ensures !showBannerForm
    {
      showBannerForm := false;
    }

    /** `listBanners()` once more: only an array it resolves to replaces the list. */
    method Reload(listed: Settled)
      modifies this
      ensures calls == old(calls) + [ListBanners] && banners == ListedBanners(listed).GetOr(old(banners))
      ensures footerLinks == old(footerLinks) && bannerForm == old(bannerForm) && toasts == old(toasts)
      ensures showBannerForm == old(showBannerForm) && isLoading == old(isLoading)
    {
      calls := calls + [ListBanners];
      var loaded := ListedBanners(listed);
      if loaded.Some? {
        banners := loaded.value;
      }
    }

    /** The mount effect: only an empty initial list is loaded, and only an array replaces it. */
    method Mount(listed: Settled)
      modifies this
      ensures old(banners) != [] ==> banners == old(banners) && calls == old(calls)
      ensures old(banners) == [] ==>
        calls == old(calls) + [ListBanners] && banners == ListedBanners(listed).GetOr(old(banners))
      ensures footerLinks == old(footerLinks) && bannerForm == old(bannerForm) && toasts == old(toasts)
      ensures showBannerForm == old(showBannerForm) && isLoading == old(isLoading)
    {
      if |banners| == 0 {
        // a rejected load is caught and logged
        Reload(listed);
      }
    }

    /**
     * What both banner handlers do once their call has settled: a reported
     * success shows the success toast and reloads the list (a reload that
     * rejects adds the failure toast after it); a reported failure shows the
     * body's error, and a rejection the fixed failure text. `reloaded` says
     * whether the reload resolved.
     */
    method Settle(result: Settled, listed: Settled, success: string, failure: string) returns (reloaded: bool)
      modifies this
      ensures reloaded <==> result.Resolved? && Succeeded(result.value) && listed.Resolved?
      ensures result.Resolved? && Succeeded(result.value) ==>
        calls == old(calls) + [ListBanners] && banners == ListedBanners(listed).GetOr(old(banners))
        && toasts == old(toasts) + [Notice(SuccessToast, JStr(success))]
                     + (if listed.Resolved? then [] else [Notice(ErrorToast, JStr(failure))])
      ensures !(result.Resolved? && Succeeded(result.value)) ==>
        calls == old(calls) && banners == old(banners)
        && toasts == old(toasts) + [Notice(ErrorToast, FailureMessage(result, failure))]
      ensures footerLinks == old(footerLinks) && bannerForm == old(bannerForm)
      ensures showBannerForm == old(showBannerForm) && isLoading == old(isLoading)
    {
      reloaded := false;
      match result {
        case Resolved(body) =>
          if Succeeded(body) {
            toasts := toasts + [Notice(SuccessToast, JStr(success))];
            Reload(listed);
            if listed.Resolved? {
              reloaded := true;
            } else {
              toasts := toasts + [Notice(ErrorToast, JStr(failure))];
            }
          } else {
            toasts := toasts + [Notice(ErrorToast, Or(OptGet(body, "error"), JStr(failure)))];
          }
        case Rejected(_) =>
          toasts := toasts + [Notice(ErrorToast, JStr(failure))];
      }
    }

    /**
     * `handleAddBanner`: without a title or an image, an error and no call.
     * Otherwise the banner is created and the outcome settled as above; only
     * when the list was reloaded is the form hidden and cleared. Loading ends
     * false whenever a call was made.
     */
    method HandleAddBanner(created: Settled, refreshed: Settled)
      modifies this
      ensures footerLinks == old(footerLinks)
      ensures old(bannerForm).title == "" || old(bannerForm).image == "" ==>
        calls == old(calls) && banners == old(banners) && bannerForm == old(bannerForm)
        && showBannerForm == old(showBannerForm) && isLoading == old(isLoading)
        && toasts == old(toasts) + [Notice(ErrorToast, JStr("Please fill in all required fields"))]
      ensures old(bannerForm).title != "" && old(bannerForm).image != "" ==>
        !isLoading && |calls| > |old(calls)| && calls[..|old(calls)| + 1] == old(calls) + [CreateBanner(old(bannerForm))]
      ensures (old(bannerForm).title != "" && old(bannerForm).image != "" && created.Resolved? && Succeeded(created.value)) ==>
        calls == old(calls) + [CreateBanner(old(bannerForm)), ListBanners]
        && banners == ListedBanners(refreshed).GetOr(old(banners))
        && toasts == old(toasts) + [Notice(SuccessToast, JStr("Banner created successfully"))]
                     + (if refreshed.Resolved? then [] else [Notice(ErrorToast, JStr("Failed to create banner"))])
      ensures old(bannerForm).title != "" && old(bannerForm).image != "" ==>
        if created.Resolved? && Succeeded(created.value) && refreshed.Resolved? then !showBannerForm && bannerForm == EmptyBannerForm
        else showBannerForm == old(showBannerForm) && bannerForm == old(bannerForm)
      ensures old(bannerForm).title != "" && old(bannerForm).image != "" && !(created.Resolved? && Succeeded(created.value)) ==>
        calls == old(calls) + [CreateBanner(old(bannerForm))] && banners == old(banners)
        && toasts == old(toasts) + [Notice(ErrorToast, FailureMessage(created, "Failed to create banner"))]
    {
      if bannerForm.title == "" || bannerForm.image == "" {
        toasts := toasts + [Notice(ErrorToast, JStr("Please fill in all required fields"))];
        return;
      }
      isLoading := true;
      calls := calls + [CreateBanner(bannerForm)];
      var reloaded := Settle(created, refreshed, "Banner created successfully", "Failed to create banner");
      if reloaded {
        showBannerForm := false;
        bannerForm := EmptyBannerForm;
      }
      isLoading := false;
    }

    /**
     * `handleDeleteBanner(id)`: declining the confirmation changes nothing;
     * otherwise the banner is deleted, the outcome settled as above, and
     * loading ends false.
     */
    method HandleDeleteBanner(bannerId: string, confirmed: bool, deleted: Settled, refreshed: Settled)
      modifies this
      ensures footerLinks == old(footerLinks) && bannerForm == old(bannerForm) && showBannerForm == old(showBannerForm)
      ensures !confirmed ==>
        banners == old(banners) && calls == old(calls) && toasts == old(toasts) && isLoading == old(isLoading)
      ensures confirmed ==> !isLoading
      ensures confirmed && deleted.Resolved? && Succeeded(deleted.value) ==>
        calls == old(calls) + [DeleteBanner(bannerId), ListBanners]
        && banners == ListedBanners(refreshed).GetOr(old(banners))
        && toasts == old(toasts) + [Notice(SuccessToast, JStr("Banner deleted successfully"))]
                     + (if refreshed.Resolved? then [] else [Notice(ErrorToast, JStr("Failed to delete banner"))])
      ensures confirmed && !(deleted.Resolved? && Succeeded(deleted.value)) ==>
        calls == old(calls) + [DeleteBanner(bannerId)] && banners == old(banners)
        && toasts == old(toasts) + [Notice(ErrorToast, FailureMessage(deleted, "Failed to delete banner"))]
    {
      if !confirmed {
        return;
      }
      isLoading := true;
      calls := calls + [DeleteBanner(bannerId)];
      var _ := Settle(deleted, refreshed, "Banner deleted successfully", "Failed to delete banner");
      isLoading := false;
    }

    /** `handleAddFooterLink`: not wired to the API; it only says so. */
    method HandleAddFooterLink()
      modifies this
      ensures toasts == old(toasts) + [Notice(InfoToast, JStr("Coming soon"))]
      ensures footerLinks == old(footerLinks) && banners == old(banners) && calls == old(calls)
      ensures bannerForm == old(bannerForm) && showBannerForm == old(showBannerForm) && isLoading == old(isLoading)
    {
      toasts := toasts + [Notice(InfoToast, JStr("Coming soon"))];
    }

    /** `handleDeleteFooterLink(id)`: the links with that id go, the rest stay in order. */
    method HandleDeleteFooterLink(linkId: string)
      modifies this
      ensures footerLinks == WithoutLink(old(footerLinks), linkId)
      ensures banners == old(banners) && calls == old(calls) && toasts == old(toasts)
      ensures bannerForm == old(bannerForm) && showBannerForm == old(showBannerForm) && isLoading == old(isLoading)
    {
      footerLinks := WithoutLink(footerLinks, linkId);
    }
  }
}
