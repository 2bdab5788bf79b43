/**
 * DocumentOptionalPathRouteParameters: the two overloads of the resolver,
 * writing into the path-info record in place.
 */
module RouteParameters {
  import opened Wrappers
  import opened Paths

  /** ElasticsearchPathInfo, restricted to its Index, Type and Id strings. */
  class PathInfo {
    var index: Option<string>
    var typ: Option<string>
    var id: Option<string>

    constructor ()
      ensures Resolved() == ResolvedPath(None, None, None)
    {
      index, typ, id := None, None, None;
    }

    /** The three route segments currently held. */
    function Resolved(): ResolvedPath
      reads this
    {
      ResolvedPath(index, typ, id)
    }
  }

  /**
   * The resolver without T: writes the three segments of pathInfo and
   * nothing else. It has no precondition, so it never fails on null parts.
   */
  method SetRouteParameters<O(!new)>(path: PathParts<O>, inf: Inferrer<O>, pathInfo: PathInfo)
    modifies pathInfo`index, pathInfo`typ, pathInfo`id
    ensures pathInfo.Resolved() == Resolve(path, inf)
  {
    pathInfo.index := inf.indexName(path.index);
    pathInfo.typ := inf.typeName(path.typ);
    pathInfo.id := if path.id.Some? then path.id else inf.id(path.idFrom);
  }

  /**
   * The resolver with T: computes the three segments, falling back to the
   * default names of t for null markers, then writes them into pathInfo.
   */
  method SetRouteParametersFor<O(!new)>(path: PathParts<O>, inf: Inferrer<O>, t: ClrType, pathInfo: PathInfo)
    modifies pathInfo`index, pathInfo`typ, pathInfo`id
    ensures pathInfo.Resolved() == ResolveFor(path, inf, t)
  {
    var index := if path.index.Some? then inf.indexName(path.index) else inf.defaultIndexName(t);
    var typ := if path.typ.Some? then inf.typeName(path.typ) else inf.defaultTypeName(t);
    var id := if path.id.Some? then path.id else inf.id(path.idFrom);
    pathInfo.index := index;
    pathInfo.typ := typ;
    pathInfo.id := id;
  }
}
