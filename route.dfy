/** A route (`App\Support\Router\Route`): an HTTP method, a path and the callable that serves it. */
module Routes {

  /** The fields are fixed at construction; `getPath` and `getMethod` are the fields `path` and `httpMethod`. */
  datatype Route<C> = Route(httpMethod: string, path: string, callable: C) {

    /** A route matches a path equal to its own, character for character. */
    predicate Match(p: string)
      ensures Match(p) <==> |p| == |path| && forall j :: 0 <= j < |p| ==> p[j] == path[j]
    {
      p == path
    }
  }

  /** Matching looks at the path only: neither the method nor the callable plays a part. */
  lemma MatchDependsOnPathOnly<C>(a: Route<C>, b: Route<C>, p: string)
    ensures a.path == b.path ==> a.Match(p) == b.Match(p)
    ensures a.Match(p) && b.Match(p) ==> a.path == b.path
  {
  }
}
