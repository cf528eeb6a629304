/**
 * The two role gates: `RoleGuard`, which chooses between its children and a
 * fallback, and `ProtectedRoute`, which also waits for the session to load
 * and sends a denied visitor elsewhere.
 */
module RoleGuard {
  import opened Wrappers
  import opened AuthContext

  /** What a guard renders: its children, or the fallback node (`null` when there is none). */
  datatype GuardView<N> = ShowChildren | ShowFallback(node: Option<N>)

  /** `user && allowedRoles.includes(user.role)`. */
  predicate Allowed(user: Option<User>, allowedRoles: seq<UserRole>) {
    user.Some? && user.value.role in allowedRoles
  }

  /** The fallback when none is given: `null`. */
  function DefaultFallback<N>(fallback: Option<Option<N>>): (node: Option<N>)
    ensures fallback.None? ==> node.None?
    ensures fallback.Some? ==> node == fallback.value
  {
    if fallback.Some? then fallback.value else None
  }

  /** `RoleGuard`: the children for an allowed user, the fallback for no user or a role outside the list. */
  function Guard<N>(user: Option<User>, allowedRoles: seq<UserRole>, fallback: Option<Option<N>>): (v: GuardView<N>)
    ensures v.ShowChildren? <==> user.Some? && user.value.role in allowedRoles
    ensures v.ShowFallback? ==> v.node == DefaultFallback(fallback)
  {
    if Allowed(user, allowedRoles) then ShowChildren else ShowFallback(DefaultFallback(fallback))
  }

  /** Allowing more roles never hides what was shown. */
  lemma GuardMonotone<N>(user: Option<User>, fewer: seq<UserRole>, more: seq<UserRole>, fallback: Option<Option<N>>)
    requires forall r :: r in fewer ==> r in more
    ensures Guard(user, fewer, fallback).ShowChildren? ==> Guard(user, more, fallback).ShowChildren?
  {
  }
}

module ProtectedRoute {
  import opened Wrappers
  import opened AuthContext
  import RoleGuard

  /** What the route renders. */
  datatype RouteView = LoadingPlaceholder | Nothing | Children

  /** The effect's redirect target: "/home" unless the caller gives one. */
  function RedirectTarget(redirectTo: Option<string>): (target: string)
    ensures redirectTo.None? ==> target == "/home"
    ensures redirectTo.Some? ==> target == redirectTo.value
  {
    redirectTo.GetOr("/home")
  }

  /**
   * `ProtectedRoute`: while loading, a placeholder and no redirect; after
   * loading, the children for an allowed user, and otherwise nothing on
   * screen and a push to the redirect target.
   */
  function Decide(user: Option<User>, isLoading: bool, allowedRoles: seq<UserRole>, redirectTo: Option<string>)
    : (r: (RouteView, Option<string>))
    ensures isLoading ==> r == (LoadingPlaceholder, None)
    ensures !isLoading && RoleGuard.Allowed(user, allowedRoles) ==> r == (Children, None)
    ensures !isLoading && !RoleGuard.Allowed(user, allowedRoles) ==> r == (Nothing, Some(RedirectTarget(redirectTo)))
  {
    var denied := !RoleGuard.Allowed(user, allowedRoles);
    var redirect := if !isLoading && denied then Some(RedirectTarget(redirectTo)) else None;
    var view := if isLoading then LoadingPlaceholder else if denied then Nothing else Children;
    (view, redirect)
  }

  /** Once loaded, the route shows its children exactly when a `RoleGuard` with the same roles would. */
  lemma AgreesWithRoleGuard<N>(user: Option<User>, allowedRoles: seq<UserRole>, redirectTo: Option<string>, fallback: Option<Option<N>>)
    ensures Decide(user, false, allowedRoles, redirectTo).0 == Children
      <==> RoleGuard.Guard(user, allowedRoles, fallback).ShowChildren?
  {
  }

  /** A redirect is issued exactly when the children are not shown after loading. */
  lemma RedirectIffHidden(user: Option<User>, isLoading: bool, allowedRoles: seq<UserRole>, redirectTo: Option<string>)
    ensures var r := Decide(user, isLoading, allowedRoles, redirectTo);
      r.1.Some? <==> r.0 == Nothing
  {
  }
}
