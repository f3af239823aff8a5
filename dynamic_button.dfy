/**
 * The navigation bar's button: the first configured route whose path is the
 * current path gives the button's text and link; otherwise the defaults do.
 */
module DynamicButton {
  import opened Wrappers

  datatype RouteConfig = RouteConfig(path: string, text: string, url: string)

  /** What the button shows and where it leads. */
  datatype ButtonTarget = ButtonTarget(text: string, url: string)

  const DefaultButtonText: string := "Home"
  const DefaultButtonUrl: string := "/"

  /** `routes.find(route => route.path === currentPath)`. */
  function FindRoute(routes: seq<RouteConfig>, currentPath: string): (r: Option<nat>)
    ensures r.Some? ==> r.value < |routes| && routes[r.value].path == currentPath
    ensures r.Some? ==> forall k :: 0 <= k < r.value ==> routes[k].path != currentPath
    ensures r.None? <==> forall k :: 0 <= k < |routes| ==> routes[k].path != currentPath
  {
    if routes == [] then None
    else if routes[0].path == currentPath then Some(0)
    else match FindRoute(routes[1..], currentPath)
      case None => None
      case Some(i) => Some(i + 1)
  }

  /** The matched route's text and url, or the defaults. */
  function MatchedRoute(routes: seq<RouteConfig>, currentPath: string,
                        defaultButtonText: string, defaultButtonUrl: string): ButtonTarget
  {
    match FindRoute(routes, currentPath)
    case Some(i) => ButtonTarget(routes[i].text, routes[i].url)
    case None => ButtonTarget(defaultButtonText, defaultButtonUrl)
  }

  /**
   * The button takes text and url unchanged from the first route on the
   * current path, and the defaults exactly when no route has that path.
   */
  lemma MatchedRouteIsFirstMatch(routes: seq<RouteConfig>, currentPath: string, text: string, url: string)
    ensures var b := MatchedRoute(routes, currentPath, text, url);
      && ((forall k :: 0 <= k < |routes| ==> routes[k].path != currentPath) ==> b == ButtonTarget(text, url))
      && (forall i :: 0 <= i < |routes| && routes[i].path == currentPath
                        && (forall k :: 0 <= k < i ==> routes[k].path != currentPath) ==>
            b == ButtonTarget(routes[i].text, routes[i].url))
  {
    var r := FindRoute(routes, currentPath);
    forall i | 0 <= i < |routes| && routes[i].path == currentPath
                 && (forall k :: 0 <= k < i ==> routes[k].path != currentPath)
      ensures r == Some(i)
    {
      assert r.Some?;
    }
  }

  /** Without routes, the button is the default "Home" link to "/". */
  lemma NoRoutesGivesHome(currentPath: string)
    ensures MatchedRoute([], currentPath, DefaultButtonText, DefaultButtonUrl) == ButtonTarget("Home", "/")
  {
  }

  /** Only the path is compared: routes that agree on paths select the same position. */
  lemma OnlyPathCompared(routes: seq<RouteConfig>, routes': seq<RouteConfig>, currentPath: string)
    requires |routes| == |routes'|
    requires forall k :: 0 <= k < |routes| ==> routes[k].path == routes'[k].path
    ensures FindRoute(routes, currentPath) == FindRoute(routes', currentPath)
  {
  }
}
