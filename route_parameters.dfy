/**
 * The optional-path route resolver: how the four optional properties of a
 * document path become the index, type and id segments of /{index}/{type}/{id}.
 *
 * The naming service (ElasticInferrer) is not part of this model; it is given
 * as an Inferrer value whose functions are arbitrary, so every property proved
 * here holds whatever names the service infers.
 */
module Paths {
  import opened Wrappers

  /** A .NET type reference (System.Type), identified by its full name. */
  datatype ClrType = ClrType(fullName: string)

  /** IndexNameMarker / TypeNameMarker: an explicit name, or a type to infer the name from. */
  datatype Marker = Name(name: string) | TypeRef(clrType: ClrType)

  /**
   * The four properties of IDocumentOptionalPath: Index, Type, Id and IdFrom.
   * Each may be null (None).
   */
  datatype PathParts<O> = PathParts(
    index: Option<Marker>,
    typ: Option<Marker>,
    id: Option<string>,
    idFrom: Option<O>)

  /** A path whose four properties are all null, as a freshly created request or descriptor has. */
  function Unset<O(!new)>(): PathParts<O>
  {
    PathParts(None, None, None, None)
  }

  /**
   * The inferrer built from the connection settings. Its C# methods may be
   * given null and may return null, hence the Options.
   *   indexName        IndexName(IndexNameMarker)
   *   typeName         TypeName(TypeNameMarker)
   *   defaultIndexName IndexName<T>(), for the type T given as argument
   *   defaultTypeName  TypeName<T>()
   *   id               Id(object)
   */
  datatype Inferrer<!O> = Inferrer(
    indexName: Option<Marker> -> Option<string>,
    typeName: Option<Marker> -> Option<string>,
    defaultIndexName: ClrType -> Option<string>,
    defaultTypeName: ClrType -> Option<string>,
    id: Option<O> -> Option<string>)

  /** The Index, Type and Id strings of ElasticsearchPathInfo; any of them may be null. */
  datatype ResolvedPath = ResolvedPath(index: Option<string>, typ: Option<string>, id: Option<string>)

  /** `path.Id ?? inferrer.Id(path.IdFrom)`, shared by both overloads. */
  function ResolveId<O(!new)>(p: PathParts<O>, inf: Inferrer<O>): (r: Option<string>)
    ensures p.id.Some? ==> r == p.id
    ensures r == p.id || r == inf.id(p.idFrom)
  {
    if p.id.Some? then p.id else inf.id(p.idFrom)
  }

  /**
   * The overload without T: the markers go to the inferrer as they are, null
   * included. UntypedResolveHasNoFallback and OverloadsAgreeExactlyWhenMarkersSet
   * state what this means next to the overload with T.
   */
  function Resolve<O(!new)>(p: PathParts<O>, inf: Inferrer<O>): ResolvedPath
  {
    ResolvedPath(inf.indexName(p.index), inf.typeName(p.typ), ResolveId(p, inf))
  }

  /** The overload with T: a null marker falls back to the default name of T. */
  function ResolveFor<O(!new)>(p: PathParts<O>, inf: Inferrer<O>, t: ClrType): (r: ResolvedPath)
    ensures r.id == Resolve(p, inf).id
    ensures p.index.Some? ==> r.index == Resolve(p, inf).index
    ensures p.typ.Some? ==> r.typ == Resolve(p, inf).typ
    ensures p.index.None? ==> r.index == inf.defaultIndexName(t)
    ensures p.typ.None? ==> r.typ == inf.defaultTypeName(t)
  {
    ResolvedPath(
      if p.index.Some? then inf.indexName(p.index) else inf.defaultIndexName(t),
      if p.typ.Some? then inf.typeName(p.typ) else inf.defaultTypeName(t),
      ResolveId(p, inf))
  }

  /** An inferrer that answers every question with a fixed value; used to build counterexamples. */
  function ConstantInferrer<O(!new)>(index: Option<string>, typ: Option<string>,
                               defaultIndex: Option<string>, defaultType: Option<string>,
                               id: Option<string>): Inferrer<O>
  {
    Inferrer(_ => index, _ => typ, _ => defaultIndex, _ => defaultType, _ => id)
  }

  /** The resolved id is the explicit Id, whatever the inferrer says. */
  ghost predicate IdIsExplicit<O(!new)>(p: PathParts<O>)
  {
    forall inf: Inferrer<O> :: ResolveId(p, inf) == p.id
  }

  /** The resolved id is what the inferrer derives from IdFrom, whatever the inferrer says. */
  ghost predicate IdIsInferred<O(!new)>(p: PathParts<O>)
  {
    forall inf: Inferrer<O> :: ResolveId(p, inf) == inf.id(p.idFrom)
  }

  /**
   * Id takes precedence over IdFrom: the explicit Id is used exactly when it
   * is set, and IdFrom is consulted exactly when Id is null.
   */
  lemma IdPrecedence<O(!new)>(p: PathParts<O>)
    ensures IdIsExplicit(p) <==> p.id.Some?
    ensures IdIsInferred(p) <==> p.id.None?
  {
    if p.id.None? {
      var inf := ConstantInferrer<O>(None, None, None, None, Some(""));
      assert ResolveId(p, inf) != p.id;
    } else {
      var inf := ConstantInferrer<O>(None, None, None, None, None);
      assert ResolveId(p, inf) != inf.id(p.idFrom);
    }
  }

  /** With T known, the index is the default index name of T, whatever the inferrer says. */
  ghost predicate IndexFallsBack<O(!new)>(p: PathParts<O>, t: ClrType)
  {
    forall inf: Inferrer<O> :: ResolveFor(p, inf, t).index == inf.defaultIndexName(t)
  }

  /** With T known, the index is inferred from the Index marker, whatever the inferrer says. */
  ghost predicate IndexFromMarker<O(!new)>(p: PathParts<O>, t: ClrType)
  {
    forall inf: Inferrer<O> :: ResolveFor(p, inf, t).index == inf.indexName(p.index)
  }

  /**
   * The overload with T: a set Index marker takes precedence, and the default
   * index name of T is used exactly when the marker is null.
   */
  lemma IndexFallbackExactlyWhenUnset<O(!new)>(p: PathParts<O>, t: ClrType)
    ensures IndexFallsBack(p, t) <==> p.index.None?
    ensures IndexFromMarker(p, t) <==> p.index.Some?
  {
    var inf := ConstantInferrer<O>(Some("marker"), None, Some("default"), None, None);
    assert ResolveFor(p, inf, t).index != (if p.index.Some? then inf.defaultIndexName(t) else inf.indexName(p.index));
  }

  /** With T known, the type is the default type name of T, whatever the inferrer says. */
  ghost predicate TypeFallsBack<O(!new)>(p: PathParts<O>, t: ClrType)
  {
    forall inf: Inferrer<O> :: ResolveFor(p, inf, t).typ == inf.defaultTypeName(t)
  }

  /** With T known, the type is inferred from the Type marker, whatever the inferrer says. */
  ghost predicate TypeFromMarker<O(!new)>(p: PathParts<O>, t: ClrType)
  {
    forall inf: Inferrer<O> :: ResolveFor(p, inf, t).typ == inf.typeName(p.typ)
  }

  /** The same precedence for the Type marker. */
  lemma TypeFallbackExactlyWhenUnset<O(!new)>(p: PathParts<O>, t: ClrType)
    ensures TypeFallsBack(p, t) <==> p.typ.None?
    ensures TypeFromMarker(p, t) <==> p.typ.Some?
  {
    var inf := ConstantInferrer<O>(None, Some("marker"), None, Some("default"), None);
    assert ResolveFor(p, inf, t).typ != (if p.typ.Some? then inf.defaultTypeName(t) else inf.typeName(p.typ));
  }

  /**
   * The overload without T never consults the type defaults: it resolves the
   * markers as they are, null included, and the id as the other overload does.
   */
  lemma UntypedResolveHasNoFallback<O(!new)>(p: PathParts<O>, inf: Inferrer<O>, t: ClrType, other: Inferrer<O>)
    requires other.indexName == inf.indexName && other.typeName == inf.typeName && other.id == inf.id
    ensures Resolve(p, inf) == Resolve(p, other)
    ensures Resolve(p, inf).index == inf.indexName(p.index)
    ensures Resolve(p, inf).typ == inf.typeName(p.typ)
    ensures Resolve(p, inf).id == ResolveFor(p, inf, t).id
  {
  }

  /**
   * The two overloads agree for every inferrer exactly when both markers are
   * set; so a path resolved without T honours the type defaults only when
   * Index and Type were both given explicitly.
   */
  lemma OverloadsAgreeExactlyWhenMarkersSet<O(!new)>(p: PathParts<O>, t: ClrType)
    ensures (forall inf: Inferrer<O> :: Resolve(p, inf) == ResolveFor(p, inf, t))
            <==> p.index.Some? && p.typ.Some?
  {
    if p.index.None? {
      var inf := ConstantInferrer<O>(Some("marker"), None, Some("default"), None, None);
      assert Resolve(p, inf).index != ResolveFor(p, inf, t).index;
    } else if p.typ.None? {
      var inf := ConstantInferrer<O>(None, Some("marker"), None, Some("default"), None);
      assert Resolve(p, inf).typ != ResolveFor(p, inf, t).typ;
    }
  }
}
