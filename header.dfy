/**
 * The page title of the dashboard header: an exact entry of the title
 * table, else an edit title chosen by substring when the path contains an
 * identifier, else "Dashboard".
 */
module Header {
  import opened Wrappers
  import opened JsText
  import opened Uuid

  /** The fixed `pageTitles` table, in declaration order. */
  const PageTitles: seq<(string, string)> := [
    ("/dashboard", "Dashboard"),
    ("/admin/my-store", "My Store"),
    ("/admin/catalog", "Catalog"),
    ("/admin/catalog/new", "Add Product"),
    ("/admin/orders", "Orders"),
    ("/admin/coupons", "Coupons"),
    ("/admin/coupons/new", "Add Coupon"),
    ("/admin/reviews", "Reviews"),
    ("/admin/users", "Users"),
    ("/admin/profile", "Profile")
  ]

  /** Every title the header can show. */
  const AllTitles: set<string> := {
    "Dashboard", "My Store", "Catalog", "Add Product", "Orders", "Coupons", "Add Coupon",
    "Reviews", "Users", "Profile", "Edit User", "Edit Corporate Parent", "Edit Facility"
  }

  /** The title chosen for a path that contains an identifier and has no table entry. */
  function EditTitle(pathname: string): string {
    if Includes(pathname, "/users/") then "Edit User"
    else if Includes(pathname, "/corporate-parents/") then "Edit Corporate Parent"
    else if Includes(pathname, "/therapy-facility/") then "Edit Facility"
    else "Dashboard"
  }

  /** `getPageTitle(pathname)`. */
  function GetPageTitle(pathname: string): (title: string)
    ensures title in AllTitles
  {
    match Lookup(PageTitles, pathname)
    case Some(t) => LookupInTable(PageTitles, pathname); t
    case None => if ContainsUuid(pathname) then EditTitle(pathname) else "Dashboard"
  }

  /** A value found in a table is one of its values. */
  lemma {:induction false} LookupInTable(table: seq<(string, string)>, key: string)
    requires Lookup(table, key).Some?
    ensures exists k :: 0 <= k < |table| && table[k] == (key, Lookup(table, key).value)
  {
    if table[0].0 != key {
      LookupInTable(table[1..], key);
      var k :| 0 <= k < |table[1..]| && table[1..][k] == (key, Lookup(table, key).value);
      assert table[k + 1] == table[1..][k];
    }
  }

  /** A key longer than every key of a table has no entry in it. */
  lemma {:induction false} LookupLongKey(table: seq<(string, string)>, key: string)
    requires forall k :: 0 <= k < |table| ==> |table[k].0| < |key|
    ensures Lookup(table, key).None?
  {
    if table != [] {
      LookupLongKey(table[1..], key);
    }
  }

  /** An exact table entry wins over every other rule, and its title is one of the table's. */
  lemma ExactMatchWins(pathname: string)
    requires Lookup(PageTitles, pathname).Some?
    ensures GetPageTitle(pathname) == Lookup(PageTitles, pathname).value
    ensures exists k :: 0 <= k < |PageTitles| && PageTitles[k] == (pathname, GetPageTitle(pathname))
  {
    LookupInTable(PageTitles, pathname);
  }

  /**
   * Without a table entry, a path that contains an identifier is titled by
   * the first of "/users/", "/corporate-parents/", "/therapy-facility/" it
   * contains; every other path is titled "Dashboard".
   */
  lemma FallbackRules(pathname: string)
    requires Lookup(PageTitles, pathname).None?
    ensures ContainsUuid(pathname) && Includes(pathname, "/users/") ==> GetPageTitle(pathname) == "Edit User"
    ensures (ContainsUuid(pathname) && !Includes(pathname, "/users/") && Includes(pathname, "/corporate-parents/"))
      ==> GetPageTitle(pathname) == "Edit Corporate Parent"
    ensures (ContainsUuid(pathname) && !Includes(pathname, "/users/") && !Includes(pathname, "/corporate-parents/")
      && Includes(pathname, "/therapy-facility/")) ==> GetPageTitle(pathname) == "Edit Facility"
    ensures !ContainsUuid(pathname) ==> GetPageTitle(pathname) == "Dashboard"
    ensures (ContainsUuid(pathname) && !Includes(pathname, "/users/") && !Includes(pathname, "/corporate-parents/")
      && !Includes(pathname, "/therapy-facility/")) ==> GetPageTitle(pathname) == "Dashboard"
  {
  }

  /** In "/admin/catalog/<id>" the only slashes are the three of the prefix. */
  lemma CatalogEditSlashes(u: string, j: nat)
    requires IsUuid(u) && j < 15 + |u|
    ensures var p := "/admin/catalog/" + u; (p[j] == '/' <==> j == 0 || j == 6 || j == 14) && p[1] == 'a'
  {
    var p := "/admin/catalog/" + u;
    if j >= 15 {
      UuidHasNoSlash(u);
      assert p[j] == u[j - 15];
    }
  }

  /** "/admin/catalog/<id>" contains none of the three edit markers. */
  lemma CatalogEditHasNoMarker(u: string, q: string)
    requires IsUuid(u)
    requires q == "/users/" || q == "/corporate-parents/" || q == "/therapy-facility/"
    ensures !Includes("/admin/catalog/" + u, q)
  {
    var p := "/admin/catalog/" + u;
    IncludesIff(p, q);
    if exists i :: OccursAt(p, q, i) {
      var i :| OccursAt(p, q, i);
      var last := |q| - 1;
      assert p[i] == q[0] == '/' && p[i + last] == q[last] == '/' && p[i + 1] == q[1];
      CatalogEditSlashes(u, i);
      CatalogEditSlashes(u, i + last);
      assert false;
    }
  }

  /** The catalog edit page has no table entry and no marker, so it is titled "Dashboard". */
  lemma CatalogEditIsDashboard(u: string)
    requires IsUuid(u)
    ensures GetPageTitle("/admin/catalog/" + u) == "Dashboard"
  {
    var p := "/admin/catalog/" + u;
    LookupLongKey(PageTitles, p);
    CatalogEditHasNoMarker(u, "/users/");
    CatalogEditHasNoMarker(u, "/corporate-parents/");
    CatalogEditHasNoMarker(u, "/therapy-facility/");
  }
}
