/**
 * The guard around pages for signed-out visitors (login, registration): a spinner
 * while loading, a redirect home for a signed-in user, otherwise the page itself.
 */
module GuestRoute {

  import opened Wrappers
  import opened Js
  import AuthStore
  import ProtectedRoute

  function Decide(token: Nullable, user: Option<AuthStore.User>, isLoading: bool): (d: ProtectedRoute.Decision)
    ensures isLoading ==> d == ProtectedRoute.Spinner
    ensures !isLoading ==> (d == ProtectedRoute.Children <==> !ProtectedRoute.IsAuthenticated(token, user))
    ensures !isLoading && ProtectedRoute.IsAuthenticated(token, user) ==> d == ProtectedRoute.Redirect("/", true)
  {
    if isLoading then ProtectedRoute.Spinner
    else if ProtectedRoute.IsAuthenticated(token, user) then ProtectedRoute.Redirect("/", true)
    else ProtectedRoute.Children
  }

  /** Once loading is over, exactly one of the two guards renders its page. */
  lemma GuardsAreComplementary(token: Nullable, user: Option<AuthStore.User>)
    ensures (Decide(token, user, false) == ProtectedRoute.Children)
        != (ProtectedRoute.Decide(token, user, false) == ProtectedRoute.Children)
  {
  }

  /** Each guard that does not render its page redirects to the other guard's side. */
  lemma GuardsRedirectAcross(token: Nullable, user: Option<AuthStore.User>)
    ensures ProtectedRoute.Decide(token, user, false) == ProtectedRoute.Redirect("/login", true)
        <==> Decide(token, user, false) == ProtectedRoute.Children
    ensures Decide(token, user, false) == ProtectedRoute.Redirect("/", true)
        <==> ProtectedRoute.Decide(token, user, false) == ProtectedRoute.Children
  {
  }

  /** While the store is loading both guards show the spinner, whatever the session. */
  lemma BothSpinWhileLoading(token: Nullable, user: Option<AuthStore.User>)
    ensures Decide(token, user, true) == ProtectedRoute.Decide(token, user, true) == ProtectedRoute.Spinner
  {
  }
}
