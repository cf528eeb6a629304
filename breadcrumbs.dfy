/**
 * The breadcrumb trail of the dashboard header: the path is cut into its
 * non-empty segments, the running path is extended segment by segment, and
 * every segment other than "dashboard" contributes one crumb whose label
 * comes from the route-label table, from the parent's label for an
 * identifier segment, or from the segment's own words.
 */
module Breadcrumbs {
  import opened Wrappers
  import opened JsText
  import opened Uuid

  /**
   * A value `routeLabels[...]` can yield: a string, or a member every object
   * literal inherits from `Object.prototype` (a function, or the prototype
   * object itself for `__proto__`), named by its key.
   */
  datatype Label = Text(s: string) | Inherited(name: string)

  datatype Crumb = Crumb(title: Label, href: string)

  /** The fixed `routeLabels` table, in declaration order. */
  const RouteLabels: seq<(string, string)> := [
    ("dashboard", "Dashboard"),
    ("users", "Users"),
    ("corporate-parents", "Corporate Parents"),
    ("therapy-facility", "Facilities"),
    ("container-management", "Container Management"),
    ("financial", "Financial"),
    ("orders", "Orders"),
    ("access-requests", "Access Requests"),
    ("new", "Create")
  ]

  /** The keys of the members an object literal inherits from `Object.prototype`. */
  const InheritedNames: set<string> := {
    "constructor", "hasOwnProperty", "isPrototypeOf", "propertyIsEnumerable", "toString",
    "toLocaleString", "valueOf", "__proto__", "__defineGetter__", "__defineSetter__",
    "__lookupGetter__", "__lookupSetter__"
  }

  /** `routeLabels[segment]`: an own entry first, else an inherited member, else `undefined`. */
  function RouteLabel(segment: string): Option<Label> {
    match Lookup(RouteLabels, segment)
    case Some(text) => Some(Text(text))
    case None => if segment in InheritedNames then Some(Inherited(segment)) else None
  }

  /** A key absent from a table is not found in it. */
  lemma {:induction false} LookupMissing(table: seq<(string, string)>, key: string)
    requires forall k :: 0 <= k < |table| ==> table[k].0 != key
    ensures Lookup(table, key).None?
    decreases |table|
  {
    if table != [] {
      LookupMissing(table[1..], key);
    }
  }

  /** No table entry shadows an inherited member, so each inherited key yields that member. */
  lemma InheritedNotShadowed(name: string)
    requires name in InheritedNames
    ensures RouteLabel(name) == Some(Inherited(name))
  {
    LookupMissing(RouteLabels, name);
  }

  /** `parts.filter(Boolean)` on strings: drops the empty ones and keeps the order of the rest. */
  function NonEmpty(parts: seq<string>): (r: seq<string>)
    ensures |r| <= |parts|
    ensures forall k :: 0 <= k < |r| ==> r[k] != [] && r[k] in parts
    ensures forall x :: x in parts && x != [] ==> x in r
  {
    if parts == [] then []
    else if parts[0] == [] then NonEmpty(parts[1..])
    else [parts[0]] + NonEmpty(parts[1..])
  }

  /** `pathname.split("/").filter(Boolean)`. */
  function Segments(pathname: string): (segs: seq<string>)
    ensures forall k :: 0 <= k < |segs| ==> segs[k] != [] && '/' !in segs[k]
  {
    NonEmpty(Split(pathname, '/'))
  }

  /** The running path after the given segments: "/" before each one. */
  function PathOf(segs: seq<string>): string
    decreases |segs|
  {
    if segs == [] then "" else PathOf(segs[..|segs| - 1]) + "/" + segs[|segs| - 1]
  }

  /** `word.charAt(0).toUpperCase() + word.slice(1)`. */
  function Capitalize(word: string): string {
    if word == [] then [] else [UpperChar(word[0])] + word[1..]
  }

  function CapitalizeAll(words: seq<string>): (r: seq<string>)
    ensures |r| == |words| && forall k :: 0 <= k < |r| ==> r[k] == Capitalize(words[k])
  {
    if words == [] then [] else [Capitalize(words[0])] + CapitalizeAll(words[1..])
  }

  /** The label of a segment with no table entry: its '-'-separated words capitalised and joined by spaces. */
  function TitleCase(segment: string): string {
    Join(CapitalizeAll(Split(segment, '-')), " ")
  }

  /** `label.replace(/s$/, "")`: one trailing lower-case 's' removed. */
  function DropTrailingS(s: string): (r: string)
    ensures s != [] && s[|s| - 1] == 's' ==> r + "s" == s
    ensures !(s != [] && s[|s| - 1] == 's') ==> r == s
  {
    if s != [] && s[|s| - 1] == 's' then s[..|s| - 1] else s
  }

  /** `routeLabels[s] || s`: every table entry and every inherited member is truthy, so a found value always wins. */
  function LabelOrSelf(s: string): Label {
    RouteLabel(s).GetOr(Text(s))
  }

  /** What `generateBreadcrumbs` throws for an identifier with no parent segment. */
  const UndefinedReplace := "TypeError: Cannot read properties of undefined (reading 'replace')"

  /** What it throws for an identifier whose parent's label is an inherited member, which has no `replace`. */
  const ReplaceNotAFunction := "TypeError: parentLabel.replace is not a function"

  /**
   * Segment `i` throws: it is an identifier, and its parent's label has no
   * `replace` method, because there is no parent or because the label is an
   * inherited member.
   */
  predicate ThrowsAt(segs: seq<string>, i: nat)
    requires i < |segs|
  {
    IsUuid(segs[i]) && (i == 0 || LabelOrSelf(segs[i - 1]).Inherited?)
  }

  /** No segment before `n` throws. */
  predicate NoThrowBefore(segs: seq<string>, n: nat)
    requires n <= |segs|
  {
    forall k :: 0 <= k < n ==> !ThrowsAt(segs, k)
  }

  /** The trail throws when some segment does. */
  predicate Throws(segs: seq<string>) {
    exists i :: 0 <= i < |segs| && ThrowsAt(segs, i)
  }

  /**
   * The error of a trail that throws: the first segment to throw decides it,
   * and that is the first segment exactly when the first is an identifier.
   */
  function ThrowMessage(segs: seq<string>): string {
    if segs != [] && IsUuid(segs[0]) then UndefinedReplace else ReplaceNotAFunction
  }

  /**
   * The label of the crumb for segment `i`: an identifier segment is "Edit "
   * plus its parent's label in the singular; any other segment takes what
   * `routeLabels` yields for it or else its title-cased words.
   */
  function SegmentLabel(segs: seq<string>, i: nat): Label
    requires i < |segs| && !ThrowsAt(segs, i)
  {
    if IsUuid(segs[i]) then Text("Edit " + DropTrailingS(LabelOrSelf(segs[i - 1]).s))
    else RouteLabel(segs[i]).GetOr(Text(TitleCase(segs[i])))
  }

  /** The indices below `n` of the segments other than "dashboard", in increasing order. */
  function KeptIndices(segs: seq<string>, n: nat): (idx: seq<nat>)
    requires n <= |segs|
    ensures forall j :: 0 <= j < |idx| ==> idx[j] < n && segs[idx[j]] != "dashboard"
    ensures forall j, k :: 0 <= j < k < |idx| ==> idx[j] < idx[k]
    decreases n
  {
    if n == 0 then []
    else KeptIndices(segs, n - 1) + (if segs[n - 1] != "dashboard" then [n - 1] else [])
  }

  /** The crumb of segment `i`: its label, linking to the running path through it. */
  function CrumbAt(segs: seq<string>, i: nat): Crumb
    requires i < |segs| && !ThrowsAt(segs, i)
  {
    Crumb(SegmentLabel(segs, i), PathOf(segs[..i + 1]))
  }

  /** The crumbs of the given segment indices, in that order. */
  function CrumbsAt(segs: seq<string>, idx: seq<nat>): (cs: seq<Crumb>)
    requires forall j :: 0 <= j < |idx| ==> idx[j] < |segs| && !ThrowsAt(segs, idx[j])
    ensures |cs| == |idx| && forall j :: 0 <= j < |idx| ==> cs[j] == CrumbAt(segs, idx[j])
  {
    seq(|idx|, j requires 0 <= j < |idx| => CrumbAt(segs, idx[j]))
  }

  /**
   * The trail of a path's segments: one crumb per segment other than
   * "dashboard", in path order, unless some segment throws.
   */
  function Trail(segs: seq<string>): Result<seq<Crumb>> {
    if Throws(segs) then Err(ThrowMessage(segs))
    else Ok(CrumbsAt(segs, KeptIndices(segs, |segs|)))
  }

  /** One more kept segment appends its crumb. */
  lemma TrailStep(segs: seq<string>, i: nat)
    requires i < |segs| && NoThrowBefore(segs, i + 1)
    ensures segs[i] != "dashboard" ==>
      CrumbsAt(segs, KeptIndices(segs, i + 1)) == CrumbsAt(segs, KeptIndices(segs, i)) + [CrumbAt(segs, i)]
    ensures segs[i] == "dashboard" ==> KeptIndices(segs, i + 1) == KeptIndices(segs, i)
  {
    if segs[i] != "dashboard" {
      var idx := KeptIndices(segs, i);
      assert KeptIndices(segs, i + 1) == idx + [i];
      var a := CrumbsAt(segs, idx + [i]);
      var b := CrumbsAt(segs, idx) + [CrumbAt(segs, i)];
      assert |a| == |b|;
      forall j | 0 <= j < |a|
        ensures a[j] == b[j]
      {
        if j < |idx| {
          assert (idx + [i])[j] == idx[j];
        }
      }
    }
  }

  /** The running path through one more segment. */
  lemma PathStep(segs: seq<string>, i: nat)
    requires i < |segs|
    ensures PathOf(segs[..i + 1]) == PathOf(segs[..i]) + "/" + segs[i]
  {
    assert segs[..i + 1][..i] == segs[..i];
  }

  /** `generateBreadcrumbs(pathname)`. */
  method GenerateBreadcrumbs(pathname: string) returns (r: Result<seq<Crumb>>)
    ensures r == Trail(Segments(pathname))
  {
    var segments := Segments(pathname);
    var crumbs: seq<Crumb> := [];
    var currentPath := "";
    for i := 0 to |segments|
      invariant currentPath == PathOf(segments[..i])
      invariant NoThrowBefore(segments, i)
      invariant crumbs == CrumbsAt(segments, KeptIndices(segments, i))
    {
      var segment := segments[i];
      PathStep(segments, i);
      currentPath := currentPath + "/" + segment;
      if segment == "dashboard" {
        assert !IsUuid(segment) by {
          assert |"dashboard"| != 36;
        }
        TrailStep(segments, i);
        continue;
      }
      var title;
      if IsUuid(segment) {
        if i == 0 {
          assert ThrowsAt(segments, 0);
          return Err(UndefinedReplace);
        }
        var parentLabel := LabelOrSelf(segments[i - 1]);
        if parentLabel.Inherited? {
          assert ThrowsAt(segments, i) && !ThrowsAt(segments, 0);
          return Err(ReplaceNotAFunction);
        }
        title := Text("Edit " + DropTrailingS(parentLabel.s));
      } else {
        title := RouteLabel(segment).GetOr(Text(TitleCase(segment)));
      }
      TrailStep(segments, i);
      crumbs := crumbs + [Crumb(title, currentPath)];
    }
    assert segments[..|segments|] == segments;
    return Ok(crumbs);
  }

  /** Every segment other than "dashboard" is kept. */
  lemma {:induction false} KeptIndicesComplete(segs: seq<string>, n: nat, i: nat)
    requires i < n <= |segs| && segs[i] != "dashboard"
    ensures i in KeptIndices(segs, n)
    decreases n
  {
    if i < n - 1 {
      KeptIndicesComplete(segs, n - 1, i);
    }
  }

  /** The running path through more segments extends the running path through fewer. */
  lemma {:induction false} PathOfExtends(segs: seq<string>, a: nat, b: nat)
    requires a < b <= |segs|
    ensures |PathOf(segs[..a])| < |PathOf(segs[..b])|
    ensures PathOf(segs[..b])[..|PathOf(segs[..a])|] == PathOf(segs[..a])
    decreases b - a
  {
    assert segs[..b][..b - 1] == segs[..b - 1];
    if a < b - 1 {
      PathOfExtends(segs, a, b - 1);
    }
  }

  /** Every crumb's link is a proper prefix of every later crumb's link. */
  lemma HrefsStrictlyGrow(segs: seq<string>, j: nat, k: nat)
    requires Trail(segs).Ok? && j < k < |Trail(segs).value|
    ensures var cs := Trail(segs).value;
      |cs[j].href| < |cs[k].href| && cs[k].href[..|cs[j].href|] == cs[j].href
  {
    assert !Throws(segs);
    var idx := KeptIndices(segs, |segs|);
    var cs := CrumbsAt(segs, idx);
    assert Trail(segs).value == cs;
    assert idx[j] < idx[k] < |segs|;
    assert cs[j] == CrumbAt(segs, idx[j]) && cs[k] == CrumbAt(segs, idx[k]);
    PathOfExtends(segs, idx[j] + 1, idx[k] + 1);
  }

  /**
   * An identifier segment after the first, whose parent's label is a
   * string, is labelled "Edit " and that label less one trailing 's'; any
   * other segment with a table entry is labelled by it, an inherited key
   * by the inherited member, and the rest by their title-cased words.
   */
  lemma SegmentLabelCases(segs: seq<string>, i: nat)
    requires i < |segs| && !ThrowsAt(segs, i)
    ensures IsUuid(segs[i]) ==> i > 0 && LabelOrSelf(segs[i - 1]).Text?
    ensures IsUuid(segs[i]) ==> SegmentLabel(segs, i) == Text("Edit " + DropTrailingS(LabelOrSelf(segs[i - 1]).s))
    ensures !IsUuid(segs[i]) && Lookup(RouteLabels, segs[i]).Some? ==>
      SegmentLabel(segs, i) == Text(Lookup(RouteLabels, segs[i]).value)
    ensures !IsUuid(segs[i]) && segs[i] in InheritedNames ==> SegmentLabel(segs, i) == Inherited(segs[i])
    ensures !IsUuid(segs[i]) && Lookup(RouteLabels, segs[i]).None? && segs[i] !in InheritedNames ==>
      SegmentLabel(segs, i) == Text(TitleCase(segs[i]))
  {
    if segs[i] in InheritedNames {
      InheritedNotShadowed(segs[i]);
    }
  }

  /** An identifier under an inherited key, as in "/admin/toString/<id>", makes the whole trail throw. */
  lemma InheritedParentThrows(segs: seq<string>, i: nat)
    requires 0 < i < |segs| && IsUuid(segs[i]) && segs[i - 1] in InheritedNames
    ensures Trail(segs).Err?
    ensures !IsUuid(segs[0]) ==> Trail(segs) == Err(ReplaceNotAFunction)
  {
    InheritedNotShadowed(segs[i - 1]);
    assert ThrowsAt(segs, i);
  }

  /** The render guard of `Breadcrumbs`: nothing on "/dashboard" or with at most one crumb. */
  predicate ShowsTrail(pathname: string, crumbs: seq<Crumb>) {
    !(pathname == "/dashboard" || |crumbs| <= 1)
  }

  /** "/dashboard" is the one segment "dashboard". */
  lemma DashboardSegments()
    ensures Segments("/dashboard") == ["dashboard"]
  {
    var path := "/dashboard";
    assert FirstIndex(path, '/') == 0;
    assert path[1..] == "dashboard" && '/' !in path[1..];
    assert Split(path, '/') == ["", "dashboard"];
    assert NonEmpty(["", "dashboard"]) == ["dashboard"] by {
      assert ["", "dashboard"][1..] == ["dashboard"];
      assert ["dashboard"][1..] == [];
    }
  }

  /** The guard shows the trail of a path exactly when that trail has at least two crumbs. */
  lemma ShowsTrailWithTwoCrumbs(pathname: string)
    requires Trail(Segments(pathname)).Ok?
    ensures ShowsTrail(pathname, Trail(Segments(pathname)).value) <==> |Trail(Segments(pathname)).value| >= 2
  {
    if pathname == "/dashboard" {
      DashboardSegments();
      DashboardOnlyHasNoCrumbs(["dashboard"], 1);
    }
  }

  /** A path made only of "dashboard" segments has an empty trail, so the path test only repeats the length test. */
  lemma {:induction false} DashboardOnlyHasNoCrumbs(segs: seq<string>, n: nat)
    requires n <= |segs| && forall k :: 0 <= k < |segs| ==> segs[k] == "dashboard"
    ensures KeptIndices(segs, n) == []
    decreases n
  {
    if n > 0 {
      DashboardOnlyHasNoCrumbs(segs, n - 1);
    }
  }
}
