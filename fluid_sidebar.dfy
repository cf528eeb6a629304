/**
 * The fixed-width sidebar variant: the same route table and active rule as
 * the collapsible sidebar, and a user widget with name and avatar fallbacks.
 */
module FluidSidebar {
  import opened Wrappers
  import opened JsText
  import Sidebar

  /** This sidebar's own `routes` table, in display order. */
  const Routes: seq<Sidebar.Route> := [
    Sidebar.Route("Dashboard", "/dashboard"),
    Sidebar.Route("My Store", "/admin/my-store"),
    Sidebar.Route("Catalog", "/admin/catalog"),
    Sidebar.Route("Orders", "/admin/orders"),
    Sidebar.Route("Coupons", "/admin/coupons"),
    Sidebar.Route("Reviews", "/admin/reviews"),
    Sidebar.Route("Users", "/admin/users"),
    Sidebar.Route("Profile", "/admin/profile")
  ]

  /** The active flag of each route, in table order, for one path. */
  function ActiveFlags(pathname: string): (flags: seq<bool>)
    ensures |flags| == |Routes|
    ensures forall k :: 0 <= k < |Routes| ==> (flags[k] <==> Sidebar.IsActive(Routes[k].href, pathname))
  {
    seq(|Routes|, k requires 0 <= k < |Routes| => Sidebar.IsActive(Routes[k].href, pathname))
  }

  /** The table matches the collapsible sidebar's entry for entry. */
  lemma SameRoutesAsSidebar()
    ensures Routes == Sidebar.Routes
  {
  }

  /** "/dashboard" lights only on an exact match; every other route on a prefix match; at most one lights. */
  lemma ActiveFlagsRule(pathname: string, i: nat, j: nat)
    requires i < |Routes| && j < |Routes|
    ensures Routes[0].href == "/dashboard" && (ActiveFlags(pathname)[0] <==> pathname == "/dashboard")
    ensures i > 0 ==> (ActiveFlags(pathname)[i] <==> StartsWith(pathname, Routes[i].href))
    ensures ActiveFlags(pathname)[i] && ActiveFlags(pathname)[j] ==> i == j
  {
    SameRoutesAsSidebar();
    if ActiveFlags(pathname)[i] && ActiveFlags(pathname)[j] {
      Sidebar.AtMostOneActive(pathname, i, j);
    }
    if i > 0 {
      Sidebar.RouteTags(i);
    }
  }

  /** The user widget's name and avatar letter: "User" and "U" when the session has no name. */
  lemma WidgetFallbacks(name: Option<string>)
    ensures name.None? || name == Some("") ==> Sidebar.DisplayName(name) == "User" && Sidebar.AvatarFallback(name) == "U"
    ensures name.Some? && name.value != "" ==>
      Sidebar.DisplayName(name) == name.value && Sidebar.AvatarFallback(name) == [name.value[0]]
  {
  }
}
