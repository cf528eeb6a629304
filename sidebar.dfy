/**
 * The collapsible dashboard sidebar: its route table, the rule that marks a
 * route active for the current path, the expand/collapse state driven by the
 * mouse and a delayed-collapse timer, and the user widget's fallbacks.
 */
module Sidebar {
  import opened Wrappers
  import opened JsText

  datatype Route = Route(title: string, href: string)

  /** The `routes` table, in display order. */
  const Routes: seq<Route> := [
    Route("Dashboard", "/dashboard"),
    Route("My Store", "/admin/my-store"),
    Route("Catalog", "/admin/catalog"),
    Route("Orders", "/admin/orders"),
    Route("Coupons", "/admin/coupons"),
    Route("Reviews", "/admin/reviews"),
    Route("Users", "/admin/users"),
    Route("Profile", "/admin/profile")
  ]

  /** The active rule: "/dashboard" only on an exact match, every other route on a textual prefix match. */
  predicate IsActive(href: string, pathname: string) {
    if href == "/dashboard" then pathname == "/dashboard" else StartsWith(pathname, href)
  }

  /** The dashboard route is active exactly on "/dashboard", and any other route exactly below its own href. */
  lemma ActiveRule(href: string, pathname: string)
    ensures href == "/dashboard" ==> (IsActive(href, pathname) <==> pathname == "/dashboard")
    ensures href != "/dashboard" ==> (IsActive(href, pathname) <==> exists rest :: pathname == href + rest)
  {
    if href != "/dashboard" && StartsWith(pathname, href) {
      assert pathname == href + pathname[|href|..];
    }
  }

  /** No href of the table is a prefix of a different one. */
  predicate PrefixFree(hrefs: seq<string>) {
    forall i, j :: 0 <= i < |hrefs| && 0 <= j < |hrefs| && i != j ==> !StartsWith(hrefs[i], hrefs[j])
  }

  function Hrefs(routes: seq<Route>): (hs: seq<string>)
    ensures |hs| == |routes| && forall k :: 0 <= k < |routes| ==> hs[k] == routes[k].href
  {
    seq(|routes|, k requires 0 <= k < |routes| => routes[k].href)
  }

  /** Two prefixes of one string: the shorter is a prefix of the longer. */
  lemma CommonPrefix(p: string, a: string, b: string)
    requires StartsWith(p, a) && StartsWith(p, b) && |a| <= |b|
    ensures StartsWith(b, a)
  {
    assert b[..|a|] == p[..|b|][..|a|];
  }

  /** Two strings that differ at an index inside both are not prefixes of one another. */
  lemma DifferAt(a: string, b: string, k: nat)
    requires k < |a| && k < |b| && a[k] != b[k]
    ensures !StartsWith(a, b)
  {
  }

  /** Which route of the table has the given characters at indices 7 and 8 of its href. */
  function RouteOfTag(c7: char, c8: char): int {
    if c7 == 'a' && c8 == 'r' then 0        // "/dashboard"
    else if c7 == 'm' && c8 == 'y' then 1   // "/admin/my-store"
    else if c7 == 'c' && c8 == 'a' then 2   // "/admin/catalog"
    else if c7 == 'o' && c8 == 'r' then 3   // "/admin/orders"
    else if c7 == 'c' && c8 == 'o' then 4   // "/admin/coupons"
    else if c7 == 'r' && c8 == 'e' then 5   // "/admin/reviews"
    else if c7 == 'u' && c8 == 's' then 6   // "/admin/users"
    else if c7 == 'p' && c8 == 'r' then 7   // "/admin/profile"
    else -1
  }

  /** Indices 7 and 8 of each href identify its route. */
  lemma RouteTags(k: nat)
    requires k < |Routes|
    ensures |Routes[k].href| > 8 && RouteOfTag(Routes[k].href[7], Routes[k].href[8]) == k
  {
    if k == 0 {
    } else if k == 1 {
    } else if k == 2 {
    } else if k == 3 {
    } else if k == 4 {
    } else if k == 5 {
    } else if k == 6 {
    } else {
    }
  }

  /** The eight hrefs differ at index 7 or 8, so none is a prefix of another. */
  lemma RoutesPrefixFree()
    ensures PrefixFree(Hrefs(Routes))
  {
    var hs := Hrefs(Routes);
    forall i, j | 0 <= i < |hs| && 0 <= j < |hs| && i != j
      ensures !StartsWith(hs[i], hs[j])
    {
      RouteTags(i);
      RouteTags(j);
      if hs[i][7] != hs[j][7] {
        DifferAt(hs[i], hs[j], 7);
      } else {
        DifferAt(hs[i], hs[j], 8);
      }
    }
  }

  /** An active route's href is a prefix of the path. */
  lemma ActiveIsPrefix(href: string, pathname: string)
    requires IsActive(href, pathname)
    ensures StartsWith(pathname, href)
  {
  }

  /** In a prefix-free table with at most one exact-match "/dashboard" entry, at most one route is active. */
  lemma AtMostOneActiveIn(hrefs: seq<string>, pathname: string, i: nat, j: nat)
    requires PrefixFree(hrefs)
    requires i < |hrefs| && j < |hrefs|
    requires IsActive(hrefs[i], pathname) && IsActive(hrefs[j], pathname)
    ensures i == j
  {
    ActiveIsPrefix(hrefs[i], pathname);
    ActiveIsPrefix(hrefs[j], pathname);
    if i != j {
      if |hrefs[i]| <= |hrefs[j]| {
        CommonPrefix(pathname, hrefs[i], hrefs[j]);
      } else {
        CommonPrefix(pathname, hrefs[j], hrefs[i]);
      }
    }
  }

  /** For the sidebar's table, any path activates at most one route. */
  lemma AtMostOneActive(pathname: string, i: nat, j: nat)
    requires i < |Routes| && j < |Routes|
    requires IsActive(Routes[i].href, pathname) && IsActive(Routes[j].href, pathname)
    ensures i == j
  {
    RoutesPrefixFree();
    AtMostOneActiveIn(Hrefs(Routes), pathname, i, j);
  }

  /** `session?.user?.name?.charAt(0) || "U"`. */
  function AvatarFallback(name: Option<string>): (r: string)
    ensures |r| == 1
    ensures name.Some? && name.value != "" ==> r == name.value[..1]
    ensures !(name.Some? && name.value != "") ==> r == "U"
  {
    if name.Some? && name.value != "" then [name.value[0]] else "U"
  }

  /** `session?.user?.name || "User"`. */
  function DisplayName(name: Option<string>): (r: string)
    ensures r != ""
    ensures name.Some? && name.value != "" ==> r == name.value
    ensures !(name.Some? && name.value != "") ==> r == "User"
  {
    if name.Some? && name.value != "" then name.value else "User"
  }

  /**
   * The expand state. `timeoutRef` holds the id of the last scheduled
   * collapse (or nothing); `pending` is the set of collapses scheduled and
   * neither fired nor cleared; `nextTimer` stands for the timer ids the
   * browser hands out.
   */
  class ExpandState {
    var isExpanded: bool
    var timeoutRef: Option<nat>
    var pending: set<nat>
    var nextTimer: nat

    predicate Valid()
      reads this
    {
      (forall t :: t in pending ==> t < nextTimer)
      && (timeoutRef.Some? ==> timeoutRef.value < nextTimer)
    }

    /** The mounted sidebar: collapsed, with no timer. */
    constructor ()
      ensures !isExpanded && timeoutRef.None? && pending == {} && Valid()
    {
      isExpanded := false;
      timeoutRef := None;
      pending := {};
      nextTimer := 0;
    }

    /** `handleMouseEnter`: cancel the referenced collapse, forget it, and expand. */
    method MouseEnter()
      requires Valid()
      modifies this
      ensures isExpanded && timeoutRef.None?
      ensures old(timeoutRef).Some? ==> pending == old(pending) - {old(timeoutRef).value}
      ensures old(timeoutRef).None? ==> pending == old(pending)
      ensures nextTimer == old(nextTimer) && Valid()
    {
      if timeoutRef.Some? {
        pending := pending - {timeoutRef.value};
        timeoutRef := None;
      }
      isExpanded := true;
    }

    /** `handleMouseLeave`: schedule a collapse and remember it; the state itself does not change yet. */
    method MouseLeave()
      requires Valid()
      modifies this
      ensures isExpanded == old(isExpanded)
      ensures timeoutRef == Some(old(nextTimer)) && pending == old(pending) + {old(nextTimer)}
      ensures old(nextTimer) !in old(pending)
      ensures nextTimer == old(nextTimer) + 1 && Valid()
    {
      var id := nextTimer;
      nextTimer := nextTimer + 1;
      pending := pending + {id};
      timeoutRef := Some(id);
    }

    /** A scheduled collapse fires: the sidebar collapses; `timeoutRef` keeps the spent id. */
    method TimerFires(id: nat)
      requires Valid() && id in pending
      modifies this
      ensures !isExpanded && pending == old(pending) - {id}
      ensures timeoutRef == old(timeoutRef) && nextTimer == old(nextTimer) && Valid()
    {
      pending := pending - {id};
      isExpanded := false;
    }

    /** The unmount cleanup: clear the referenced collapse. */
    method Unmount()
      requires Valid()
      modifies this
      ensures old(timeoutRef).Some? ==> pending == old(pending) - {old(timeoutRef).value}
      ensures old(timeoutRef).None? ==> pending == old(pending)
      ensures isExpanded == old(isExpanded) && timeoutRef == old(timeoutRef) && Valid()
    {
      if timeoutRef.Some? {
        pending := pending - {timeoutRef.value};
      }
    }
  }

  /**
   * Leaving and re-entering before the delay runs out cancels the collapse:
   * starting from no pending collapse, leave then enter leaves the sidebar
   * expanded with nothing pending.
   */
  method LeaveThenEnter(s: ExpandState)
    requires s.Valid() && s.pending == {}
    modifies s
    ensures s.isExpanded && s.pending == {} && s.timeoutRef.None? && s.Valid()
  {
    s.MouseLeave();
    s.MouseEnter();
  }
}
