/**
 * The admin shell: its navigation items, the exact-match rule that marks one
 * active, and the mobile drawer's open flag.
 */
module AdminLayout {
  import opened JsText

  datatype NavItem = NavItem(title: string, href: string)

  /** The `navItems` table, in display order. */
  const NavItems: seq<NavItem> := [
    NavItem("Dashboard", "/admin/dashboard"),
    NavItem("Catalog", "/admin/catalog"),
    NavItem("Orders", "/admin/orders"),
    NavItem("Coupons", "/admin/coupons"),
    NavItem("Reviews", "/admin/reviews"),
    NavItem("Users", "/admin/users"),
    NavItem("Store Content", "/admin/store-content"),
    NavItem("Profile", "/admin/profile")
  ]

  /** An item is active only when the path is exactly its href. */
  predicate IsActive(item: NavItem, pathname: string) {
    pathname == item.href
  }

  /** Which item has the given characters at indices 7 and 8 of its href. */
  function ItemOfTag(c7: char, c8: char): int {
    if c7 == 'd' && c8 == 'a' then 0        // "/admin/dashboard"
    else if c7 == 'c' && c8 == 'a' then 1   // "/admin/catalog"
    else if c7 == 'o' && c8 == 'r' then 2   // "/admin/orders"
    else if c7 == 'c' && c8 == 'o' then 3   // "/admin/coupons"
    else if c7 == 'r' && c8 == 'e' then 4   // "/admin/reviews"
    else if c7 == 'u' && c8 == 's' then 5   // "/admin/users"
    else if c7 == 's' && c8 == 't' then 6   // "/admin/store-content"
    else if c7 == 'p' && c8 == 'r' then 7   // "/admin/profile"
    else -1
  }

  /** Indices 7 and 8 of each href identify its item. */
  lemma ItemTags(k: nat)
    requires k < |NavItems|
    ensures var h := NavItems[k].href;
      |h| > 8 && ItemOfTag(h[7], h[8]) == k
  {
  }

  /** A name with no slash in it. */
  predicate NoSlash(name: string) {
    forall c :: 0 <= c < |name| ==> name[c] != '/'
  }

  /** "/admin/" and a slash-free name: the only slashes are the prefix's two. */
  lemma AdminHrefSlashes(name: string)
    requires NoSlash(name)
    ensures var h := "/admin/" + name;
      forall c :: 0 <= c < |h| ==> (h[c] == '/' <==> c == 0 || c == 6)
  {
    var h := "/admin/" + name;
    forall c | 7 <= c < |h|
      ensures h[c] != '/'
    {
      assert h[c] == name[c - 7];
    }
  }

  /** Every href has exactly two slashes, at 0 and 6. */
  lemma HrefSlashes(k: nat)
    requires k < |NavItems|
    ensures var h := NavItems[k].href;
      forall c :: 0 <= c < |h| ==> (h[c] == '/' <==> c == 0 || c == 6)
  {
    if k == 0 {
      AdminHrefSlashes("dashboard");
    } else if k == 1 {
      AdminHrefSlashes("catalog");
    } else if k == 2 {
      AdminHrefSlashes("orders");
    } else if k == 3 {
      AdminHrefSlashes("coupons");
    } else if k == 4 {
      AdminHrefSlashes("reviews");
    } else if k == 5 {
      AdminHrefSlashes("users");
    } else if k == 6 {
      AdminHrefSlashes("store-content");
    } else {
      AdminHrefSlashes("profile");
    }
  }

  /** The eight hrefs are distinct. */
  lemma HrefsDistinct(i: nat, j: nat)
    requires i < |NavItems| && j < |NavItems| && i != j
    ensures NavItems[i].href != NavItems[j].href
  {
    ItemTags(i);
    ItemTags(j);
  }

  /** So at most one item is active for any path. */
  lemma AtMostOneActive(pathname: string, i: nat, j: nat)
    requires i < |NavItems| && j < |NavItems|
    requires IsActive(NavItems[i], pathname) && IsActive(NavItems[j], pathname)
    ensures i == j
  {
    if i != j {
      HrefsDistinct(i, j);
    }
  }

  /** A path below an item's href, such as "/admin/catalog/123", activates no item. */
  lemma NestedPathActivatesNone(i: nat, rest: string, j: nat)
    requires i < |NavItems| && j < |NavItems|
    ensures !IsActive(NavItems[j], NavItems[i].href + "/" + rest)
  {
    var p := NavItems[i].href + "/" + rest;
    ItemTags(i);
    HrefSlashes(j);
    var k := |NavItems[i].href|;
    assert p[k] == '/';
  }

  /** The mobile drawer. */
  class Drawer {
    var mobileOpen: bool

    /** Closed when the layout mounts. */
    constructor ()
      ensures !mobileOpen
    {
      mobileOpen := false;
    }

    /** The overlay is rendered exactly while the drawer is open. */
    predicate OverlayShown()
      reads this
    {
      mobileOpen
    }

    /** The menu button opens the drawer. */
    method MenuClicked()
      modifies this
      ensures mobileOpen && OverlayShown()
    {
      mobileOpen := true;
    }

    /** The close button closes it. */
    method CloseClicked()
      modifies this
      ensures !mobileOpen && !OverlayShown()
    {
      mobileOpen := false;
    }

    /** A click on the overlay closes it too. */
    method OverlayClicked()
      requires OverlayShown()
      modifies this
      ensures !mobileOpen && !OverlayShown()
    {
      mobileOpen := false;
    }
  }
}
