/**
 * `src/components/PublicRoute.tsx`: a route shown only to visitors who are
 * not signed in.
 */
module PublicRouting {
  import opened Wrappers
  import Auth

  /** The home route an authenticated visitor is sent to. */
  const Home: string := "/"

  /** The spinner, a redirect (rendering nothing) or the route's children. */
  datatype RouteView = Spinner | Redirect(to: string) | Children

  /** The view for a context: loading wins, then authentication. */
  function PublicRoute(context: Auth.AuthContext): (v: RouteView)
    ensures v == Spinner <==> context.loading
    ensures v.Redirect? <==> !context.loading && context.isAuthenticated
    ensures v.Redirect? ==> v.to == Home
    ensures v == Children <==> !context.loading && !context.isAuthenticated
  {
    if context.loading then Spinner
    else if context.isAuthenticated then Redirect(Home)
    else Children
  }

  /** The view through `useAuth`: outside a provider it is the hook's error. */
  function PublicRouteIn(context: Option<Auth.AuthContext>): (r: Result<RouteView, string>)
    ensures r.Failure? <==> context.None?
    ensures r.Failure? ==> r.error == Auth.OutsideProvider
    ensures r.Success? ==> r.value == PublicRoute(context.value)
  {
    match Auth.UseAuth(context)
    case Success(c) => Success(PublicRoute(c))
    case Failure(e) => Failure(e)
  }

  /** Before the mount effect runs, the spinner shows whatever is stored. */
  method FirstView(saved: Auth.Storage) returns (v: RouteView)
    ensures v == Spinner
  {
    var p := new Auth.AuthProvider(saved);
    v := PublicRoute(p.Context());
  }

  /** Once loaded: a saved truthy token redirects home, otherwise the page is shown. */
  method ViewAfterLoad(saved: Auth.Storage) returns (v: RouteView)
    ensures Auth.HasToken(saved) ==> v == Redirect(Home)
    ensures !Auth.HasToken(saved) ==> v == Children
  {
    var context := Auth.Load(saved);
    v := PublicRoute(context);
  }
}
