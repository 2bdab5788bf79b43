/**
 * The objects that carry an optional document path: the two request base
 * classes and the fluent descriptor, whose properties are updated in place,
 * and which resolver overload each of them dispatches to.
 */
module Requests {
  import opened Wrappers
  import opened Paths
  import opened Fluent
  import opened RouteParameters

  /**
   * A request with an optional document path. documentType is None for
   * DocumentOptionalPathBase<TParameters> and Some(T) for its subclass
   * DocumentOptionalPathBase<TParameters, T>; the four properties are plain
   * settable properties of the request.
   */
  class DocumentOptionalPathBase<O(!new)> {
    var index: Option<Marker>
    var typ: Option<Marker>
    var id: Option<string>
    var idFrom: Option<O>
    const documentType: Option<ClrType>

    constructor (documentType: Option<ClrType>)
      ensures Parts() == Unset() && this.documentType == documentType
    {
      index, typ, id, idFrom := None, None, None, None;
      this.documentType := documentType;
    }

    /** The four path properties. */
    function Parts(): PathParts<O>
      reads this
    {
      PathParts(index, typ, id, idFrom)
    }

    /**
     * The class without T dispatches to the resolver without T; the class
     * with T to the resolver with T. The request itself is left unchanged.
     */
    method SetRouteParameters(inf: Inferrer<O>, pathInfo: PathInfo)
      modifies pathInfo`index, pathInfo`typ, pathInfo`id
      ensures Parts() == old(Parts())
      ensures pathInfo.Resolved() == match documentType
        case None => Resolve(Parts(), inf)
        case Some(t) => ResolveFor(Parts(), inf, t)
    {
      match documentType
      case None => RouteParameters.SetRouteParameters(Parts(), inf, pathInfo);
      case Some(t) => SetRouteParametersFor(Parts(), inf, t, pathInfo);
    }
  }

  /** ToPathInfo's only outcome. */
  datatype Exception = NotImplementedException

  /**
   * The fluent descriptor for document type T (documentType). Every setter
   * writes one property, leaves the others as they were and returns the
   * descriptor itself, so calls can be chained.
   */
  class DocumentOptionalPathDescriptor<O(!new)> {
    var index: Option<Marker>
    var typ: Option<Marker>
    var id: Option<string>
    var idFrom: Option<O>
    const documentType: ClrType

    constructor (documentType: ClrType)
      ensures Parts() == Unset() && this.documentType == documentType
    {
      index, typ, id, idFrom := None, None, None, None;
      this.documentType := documentType;
    }

    /** The four path properties. */
    function Parts(): PathParts<O>
      reads this
    {
      PathParts(index, typ, id, idFrom)
    }

    /** Index(string): an explicit index name. */
    method Index(name: string) returns (r: DocumentOptionalPathDescriptor<O>)
      modifies this`index
      ensures r == this
      ensures Parts() == Apply(old(Parts()), SetIndex(Name(name)))
    {
      index := Some(Name(name));
      r := this;
    }

    /** Index(Type): the index name is inferred from a type. */
    method IndexOfType(t: ClrType) returns (r: DocumentOptionalPathDescriptor<O>)
      modifies this`index
      ensures r == this
      ensures Parts() == Apply(old(Parts()), SetIndex(TypeRef(t)))
    {
      index := Some(TypeRef(t));
      r := this;
    }

    /** Index<TAlternative>(): the same effect as Index(typeof(TAlternative)). */
    method IndexFor(tAlternative: ClrType) returns (r: DocumentOptionalPathDescriptor<O>)
      modifies this`index
      ensures r == this
      ensures Parts() == Apply(old(Parts()), SetIndex(TypeRef(tAlternative)))
    {
      index := Some(TypeRef(tAlternative));
      r := this;
    }

    /** Type(string): an explicit type name. */
    method Type(name: string) returns (r: DocumentOptionalPathDescriptor<O>)
      modifies this`typ
      ensures r == this
      ensures Parts() == Apply(old(Parts()), SetType(Name(name)))
    {
      typ := Some(Name(name));
      r := this;
    }

    /** Type(Type): the type name is inferred from a type. */
    method TypeOfType(t: ClrType) returns (r: DocumentOptionalPathDescriptor<O>)
      modifies this`typ
      ensures r == this
      ensures Parts() == Apply(old(Parts()), SetType(TypeRef(t)))
    {
      typ := Some(TypeRef(t));
      r := this;
    }

    /** Type<TAlternative>(): the same effect as Type(typeof(TAlternative)). */
    method TypeFor(tAlternative: ClrType) returns (r: DocumentOptionalPathDescriptor<O>)
      modifies this`typ
      ensures r == this
      ensures Parts() == Apply(old(Parts()), SetType(TypeRef(tAlternative)))
    {
      typ := Some(TypeRef(tAlternative));
      r := this;
    }

    /** Id(long): the same effect as Id(n.ToString()). */
    method IdLong(n: int64) returns (r: DocumentOptionalPathDescriptor<O>)
      modifies this`id
      ensures r == this
      ensures Parts() == Apply(old(Parts()), SetId(Some(LongToString(n))))
    {
      r := Id(Some(LongToString(n)));
    }

    /** Id(string): an explicit id; null clears it. */
    method Id(id: Option<string>) returns (r: DocumentOptionalPathDescriptor<O>)
      modifies this`id
      ensures r == this
      ensures Parts() == Apply(old(Parts()), SetId(id))
    {
      this.id := id;
      r := this;
    }

    /** Object(T): the document the id is inferred from while Id is null. */
    method Object(o: Option<O>) returns (r: DocumentOptionalPathDescriptor<O>)
      modifies this`idFrom
      ensures r == this
      ensures Parts() == Apply(old(Parts()), SetIdFrom(o))
    {
      idFrom := o;
      r := this;
    }

    /**
     * The descriptor dispatches to the resolver WITHOUT T: its documentType
     * plays no part, so null markers are passed to the inferrer as they are.
     */
    method SetRouteParameters(inf: Inferrer<O>, pathInfo: PathInfo)
      modifies pathInfo`index, pathInfo`typ, pathInfo`id
      ensures Parts() == old(Parts())
      ensures pathInfo.Resolved() == Resolve(Parts(), inf)
    {
      RouteParameters.SetRouteParameters(Parts(), inf, pathInfo);
    }

    /** ToPathInfo always throws NotImplementedException. */
    method ToPathInfo(inf: Inferrer<O>) returns (r: Result<ResolvedPath, Exception>)
      ensures r.Failure? && r.error == NotImplementedException
    {
      r := Failure(NotImplementedException);
    }
  }
}
