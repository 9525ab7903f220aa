/** The router (`App\Support\Router\Router`): routes in order of registration, looked up by path. */
module Routing {
  import opened Wrappers
  import opened Routes

  /** `RouteNotFoundException`, carrying the path that no route matched. */
  datatype RouteNotFound = RouteNotFound(path: string)

  /** The position of the first route, in order of registration, that matches `p`. */
  function FirstMatch<C>(routes: seq<Route<C>>, p: string): (r: Option<nat>)
    ensures r.Some? ==> r.value < |routes| && routes[r.value].Match(p)
    ensures r.Some? ==> forall j :: 0 <= j < r.value ==> !routes[j].Match(p)
    ensures r.None? ==> forall j :: 0 <= j < |routes| ==> !routes[j].Match(p)
  {
    if routes == [] then None
    else if routes[0].Match(p) then Some(0)
    else match FirstMatch(routes[1..], p)
      case None => None
      case Some(k) => Some(k + 1)
  }

  /**
    Registering a route never changes which route serves a path some earlier route serves; it serves
    a path no earlier route matched exactly when it matches it.
  */
  lemma {:induction false} FirstMatchAfterAppend<C>(routes: seq<Route<C>>, route: Route<C>, p: string)
    ensures FirstMatch(routes + [route], p) ==
      if FirstMatch(routes, p).Some? then FirstMatch(routes, p)
      else if route.Match(p) then Some(|routes|)
      else None
  {
    if routes != [] {
      assert (routes + [route])[1..] == routes[1..] + [route];
      FirstMatchAfterAppend(routes[1..], route, p);
    }
  }

  /** Lookup ignores the HTTP method and the callable: route lists with the same paths resolve alike. */
  lemma {:induction false} FirstMatchIgnoresMethod<C>(a: seq<Route<C>>, b: seq<Route<C>>, p: string)
    requires |a| == |b|
    requires forall j :: 0 <= j < |a| ==> a[j].path == b[j].path
    ensures FirstMatch(a, p) == FirstMatch(b, p)
  {
    if a != [] {
      FirstMatchIgnoresMethod(a[1..], b[1..], p);
    }
  }

  class Router<C> {
    var routes: seq<Route<C>>

    /** A router with no routes. */
    constructor ()
      ensures routes == []
    {
      routes := [];
    }

    /** Register a GET route after the existing ones. */
    method Get(path: string, callable: C)
      modifies this
      ensures routes == old(routes) + [Route("GET", path, callable)]
    {
      AddRoute("GET", path, callable);
    }

    /** Register a POST route after the existing ones. */
    method Post(path: string, callable: C)
      modifies this
      ensures routes == old(routes) + [Route("POST", path, callable)]
    {
      AddRoute("POST", path, callable);
    }

    /** Append one route, keeping the earlier ones in order. */
    method AddRoute(httpMethod: string, path: string, callable: C)
      modifies this
      ensures routes == old(routes) + [Route(httpMethod, path, callable)]
    {
      routes := routes + [Route(httpMethod, path, callable)];
    }

    /** The first route, in order of registration, that matches `path`; `RouteNotFound` when none does. */
    method GetRouteMatching(path: string) returns (r: Result<Route<C>, RouteNotFound>)
      ensures r.Failure? <==> forall j :: 0 <= j < |routes| ==> !routes[j].Match(path)
      ensures r.Failure? ==> r.error == RouteNotFound(path)
      ensures r.Success? ==> FirstMatch(routes, path).Some? && r.value == routes[FirstMatch(routes, path).value]
    {
      var key := 0;
      while key < |routes|
        invariant key <= |routes|
        invariant forall j :: 0 <= j < key ==> !routes[j].Match(path)
      {
        var route := routes[key];
        if !route.Match(path) {
          key := key + 1;
          continue;
        }
        return Success(route);
      }
      return Failure(RouteNotFound(path));
    }

    /** The registered routes, in order; the router is not changed. */
    function GetRoutes(): (r: seq<Route<C>>)
      reads this
      ensures r == routes
    {
      routes
    }
  }

  /** A router given one GET route for "/" lists exactly that route. */
  method OneRouteIsListed<C>(callable: C) returns (count: nat, path: string, found: Result<Route<C>, RouteNotFound>)
    ensures count == 1 && path == "/" && found == Success(Route("GET", "/", callable))
  {
    var router := new Router<C>();
    router.Get("/", callable);
    count := |router.GetRoutes()|;
    path := router.GetRoutes()[0].path;
    found := router.GetRouteMatching("/");
  }
}
