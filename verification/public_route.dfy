/**
 * The guard of src/components/RouteGuards/PublicRoute.jsx, which keeps
 * signed-in users away from the login and registration pages.
 */
module PublicRoute {
  import opened Wrappers
  import opened Js
  import opened Net
  import opened AuthProvider

  /** What the guard renders: the spinner, a redirect, or the guarded page. */
  datatype View = Spinner | Redirect(to: string, replace: bool) | Children

  /** The guard's decision from the session's `loading` and `user`. */
  function Guard(loading: bool, user: Json): (v: View)
    ensures loading ==> v == Spinner
    ensures !loading && Truthy(user) ==> v == Redirect("/", true)
    ensures !loading && !Truthy(user) ==> v == Children
  {
    if loading then Spinner
    else if Truthy(user) then Redirect("/", true)
    else Children
  }

  /**
   * No redirect while loading; the page is shown exactly to a settled
   * session without a user; and a redirect always replaces the history
   * entry and goes home.
   */
  lemma GuardOutcomes(loading: bool, user: Json)
    ensures Guard(loading, user).Redirect? ==> !loading && Truthy(user) && Guard(loading, user) == Redirect("/", true)
    ensures Guard(loading, user) == Children <==> !loading && !Truthy(user)
    ensures Guard(loading, user) == Spinner <==> loading
  {
  }

  /**
   * Once a start-up bootstrap that is never torn down has finished, the
   * guard no longer shows the spinner; if the bootstrap ended anonymous the
   * guarded page is shown.
   */
  lemma GuardAfterBootstrap(respond: Responder, history: seq<Request>, s0: State)
    ensures var b := Bootstrap(respond, history, s0, None);
      && Guard(b.state.loading, b.state.user) != Spinner
      && (b.state.user == JNull ==> Guard(b.state.loading, b.state.user) == Children)
  {
    BootstrapSettles(respond, history, s0);
  }
}
