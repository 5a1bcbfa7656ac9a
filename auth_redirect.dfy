/**
 * The route guard (frontend/components/auth/AuthRedirect.tsx). Its effect
 * chooses a navigation and its render chooses what to show, both from the
 * guard's mode and the session state.
 */
module AuthRedirect {
  import opened Wrappers

  /** Pages for signed-in users only, or for signed-out users only. */
  datatype Mode = RequireAuth | RequireGuest

  /** What the guard renders: the loading spinner, nothing, or the guarded page. */
  datatype View = Spinner | Nothing | Children

  const SIGN_IN := "/sign-in"
  const DASHBOARD := "/dashboard"

  /** The user is on the wrong side of the guard. */
  predicate Misplaced(mode: Mode, hasSession: bool) {
    (mode == RequireAuth && !hasSession) || (mode == RequireGuest && hasSession)
  }

  /**
   * The redirect effect: none in demo mode or before the session is known;
   * otherwise a signed-out user is sent to sign in and a signed-in one to
   * the dashboard, when the mode says they do not belong here.
   */
  function Redirect(mode: Mode, hasSession: bool, isPending: bool, isMounted: bool, isDemo: bool): (r: Option<string>)
    ensures isDemo ==> r.None?
    ensures !isMounted || isPending ==> r.None?
    ensures r.Some? <==> !isDemo && isMounted && !isPending && Misplaced(mode, hasSession)
    ensures r == Some(SIGN_IN) <==> !isDemo && isMounted && !isPending && mode == RequireAuth && !hasSession
    ensures r == Some(DASHBOARD) <==> !isDemo && isMounted && !isPending && mode == RequireGuest && hasSession
  {
    if isDemo || !isMounted || isPending then None
    else if mode == RequireAuth && !hasSession then Some(SIGN_IN)
    else if mode == RequireGuest && hasSession then Some(DASHBOARD)
    else None
  }

  /**
   * The render: in demo mode the spinner until mounted and then the page;
   * otherwise the spinner while unmounted or pending, nothing for a user who
   * does not belong here, and the page for one who does.
   */
  function Render(mode: Mode, hasSession: bool, isPending: bool, isMounted: bool, isDemo: bool): (v: View)
    ensures isDemo ==> (v == Children <==> isMounted) && (v == Spinner <==> !isMounted)
    ensures !isDemo && (!isMounted || isPending) ==> v == Spinner
    ensures !isDemo && isMounted && !isPending ==> (v == Nothing <==> Misplaced(mode, hasSession))
    ensures !isDemo && isMounted && !isPending ==> (v == Children <==> !Misplaced(mode, hasSession))
  {
    if isDemo then (if !isMounted then Spinner else Children)
    else if !isMounted || isPending then Spinner
    else if mode == RequireAuth && !hasSession then Nothing
    else if mode == RequireGuest && hasSession then Nothing
    else Children
  }

  /**
   * Effect and render agree: the guard shows nothing exactly when it
   * redirects, and shows the page exactly when it does not redirect and is
   * neither loading nor unmounted.
   */
  lemma RenderMatchesRedirect(mode: Mode, hasSession: bool, isPending: bool, isMounted: bool, isDemo: bool)
    ensures Render(mode, hasSession, isPending, isMounted, isDemo) == Nothing <==>
      Redirect(mode, hasSession, isPending, isMounted, isDemo).Some?
    ensures Render(mode, hasSession, isPending, isMounted, isDemo) == Children <==>
      Redirect(mode, hasSession, isPending, isMounted, isDemo).None? && isMounted && (isDemo || !isPending)
  {
  }
}
