/**
 * The guard around pages that need a signed-in user: a spinner while the auth
 * store is loading, the page itself for a signed-in user, otherwise a redirect
 * to the login page that replaces the current history entry.
 */
module ProtectedRoute {

  import opened Wrappers
  import opened Js
  import AuthStore

  /** What a route guard renders. */
  datatype Decision = Spinner | Children | Redirect(to: string, replace: bool)

  /** `!!token && !!user`. */
  predicate IsAuthenticated(token: Nullable, user: Option<AuthStore.User>)
    ensures IsAuthenticated(token, user) ==> user.Some? && token.Str? && StringOf(token) != ""
    ensures token == Null || token == Undefined || token == Str("") || user.None? ==> !IsAuthenticated(token, user)
  {
    TruthyString(token) && user.Some?
  }

  function Decide(token: Nullable, user: Option<AuthStore.User>, isLoading: bool): (d: Decision)
    ensures isLoading ==> d == Spinner
    ensures !isLoading ==> (d == Children <==> IsAuthenticated(token, user))
    ensures !isLoading && !IsAuthenticated(token, user) ==> d == Redirect("/login", true)
  {
    if isLoading then Spinner
    else if IsAuthenticated(token, user) then Children
    else Redirect("/login", true)
  }

  /** The guard's verdict on a store session. */
  function DecideSession(s: AuthStore.Session, isLoading: bool): Decision {
    Decide(s.token, s.user, isLoading)
  }

  /** A token without a user is not a session: the guard redirects. */
  lemma TokenWithoutUserRedirects(token: string)
    ensures Decide(Str(token), None, false) == Redirect("/login", true)
  {
  }

  /** After a committed reply that carries a user and a non-empty token, the protected page is shown. */
  lemma SuccessfulSignInOpensPage(s: AuthStore.Session, reply: Completion<AuthStore.AuthReply>)
    requires AuthStore.Commits(reply)
    requires reply.value.user.Some? && TruthyString(reply.value.token)
    ensures DecideSession(AuthStore.AfterCommit(s, reply), false) == Children
  {
  }

  /** A rejected or thrown sign-in leaves the guard's verdict as it was. */
  lemma FailedSignInKeepsVerdict(s: AuthStore.Session, reply: Completion<AuthStore.AuthReply>)
    requires !AuthStore.Commits(reply)
    ensures DecideSession(AuthStore.AfterCommit(s, reply), false) == DecideSession(s, false)
  {
  }

  /** After `logout` the guard redirects to the login page. */
  lemma LogoutRedirects()
    ensures DecideSession(AuthStore.LoggedOut, false) == Redirect("/login", true)
  {
  }

  /** A store created from storage alone has no user, so the guard redirects to `/login`, whatever token storage holds. */
  lemma ReloadRedirects(stored: Option<string>)
    ensures DecideSession(AuthStore.InitialSession(stored), false) == Redirect("/login", true)
  {
  }
}
