/**
 * The guest-only route guard: a logged-in user is sent home, replacing the
 * history entry; a guest sees the wrapped children. No route of the app wraps
 * a screen in it.
 */
module Guards {

  /** What a guard renders: a `<Navigate>` element or its children as given. */
  datatype Rendered<C> = Navigate(to: string, replace: bool) | Children(children: C)

  /**
   * `GuestOnlyRoute`: a logged-in user is sent home, replacing the current
   * history entry; a guest sees the wrapped children unchanged.
   */
  function GuestOnlyRoute<C>(isLoggedIn: bool, children: C): (r: Rendered<C>)
    ensures r.Navigate? <==> isLoggedIn
    ensures r.Navigate? ==> r.to == "/" && r.replace
    ensures r.Children? ==> r.children == children
  {
    if isLoggedIn then Navigate("/", true) else Children(children)
  }

  /** The decision depends on nothing but the flag: the children never show through a redirect. */
  lemma GuestOnlyRouteIgnoresChildren<C>(isLoggedIn: bool, c1: C, c2: C)
    ensures isLoggedIn ==> GuestOnlyRoute(isLoggedIn, c1) == GuestOnlyRoute(isLoggedIn, c2)
    ensures GuestOnlyRoute(isLoggedIn, c1).Children? == GuestOnlyRoute(isLoggedIn, c2).Children?
  {
  }
}
