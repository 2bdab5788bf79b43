# Optional document path resolution (NEST)

This project models the optional-path route resolver of the NEST Elasticsearch
client and the fluent descriptor that feeds it. A request or descriptor holds
four optional properties: an `Index` marker, a `Type` marker, an explicit `Id`
string and an `IdFrom` object. Before a request is sent, `SetRouteParameters`
turns them into the `index`, `type` and `id` segments of `/{index}/{type}/{id}`
and writes them into the request's path-info record.

- `Paths` (route_parameters.dfy): the data model (markers, the four
  properties, the resolved triple). It also holds both overloads of the
  resolver as functions and the precedence and fallback lemmas about them.
  The name-inference service is an `Inferrer` value of arbitrary total
  functions, so every lemma holds whatever names it infers.
- `Fluent` (fluent_setters.dfy): each fluent setter as one step on the four
  properties, chains of setter calls, and `long.ToString()`.
- `RouteParameters` (route_parameter_methods.dfy): the path-info record as a
  class, and the two resolver overloads as methods that write exactly its
  three fields.
- `Requests` (document_optional_path.dfy): the request base classes and the
  descriptor, as classes whose properties are updated in place. One class,
  `DocumentOptionalPathBase`, stands for both request base classes: its
  `documentType` is None for `DocumentOptionalPathBase<TParameters>` and
  `Some(T)` for `DocumentOptionalPathBase<TParameters, T>`. Each request or
  descriptor dispatches to one resolver overload.

C# `null` is `Option.None` throughout. The inferrer's methods may receive and
return null, so its functions take and give `Option`s.

Code and documentation disagree, and the model follows the code. The doc
comment of `DocumentOptionalPathDescriptor` (lines 79-86) says that unset parts
fall back to the defaults of the document type `T`. But the descriptor's
`SetRouteParameters` (line 151) calls the overload without `T`, because C#
cannot infer `T` from its arguments. So the descriptor never falls back to
`T`'s defaults: a null marker goes to the inferrer as null.
`Paths.OverloadsAgreeExactlyWhenMarkersSet` states the consequence. The
descriptor's result and the documented fallback agree for every inferrer
exactly when both `Index` and `Type` were set explicitly. When a marker is
null, some inferrer makes them differ. Only
`DocumentOptionalPathBase<TParameters, T>` (line 75) uses the fallback overload.

When neither `Id` nor `IdFrom` is set, the resolved id is not necessarily empty.
The code asks the inferrer for the id of a null object (`inferrer.Id(null)`,
lines 31 and 45), and the model keeps that call: the id is `inf.id(None)`,
whatever the inferrer makes of it.

## Model

| member | source | states |
|---|---|---|
| `Paths.ResolveId` | src/Nest/DSL/Paths/DocumentOptionalPathDescriptor.cs:31 | the `??` of both overloads: a set Id is the result, and the result is always either Id or the inferrer's id of IdFrom; that a null Id yields the inferrer's id of IdFrom is proved by `Paths.IdPrecedence` |
| `Paths.Resolve` | src/Nest/DSL/Paths/DocumentOptionalPathDescriptor.cs:29-31 | definition of the overload without T (index and type are the inferrer's names of the markers as given, null included; the id is ResolveId); its properties are stated by `Paths.UntypedResolveHasNoFallback` and `Paths.OverloadsAgreeExactlyWhenMarkersSet` |
| `Paths.ResolveFor` | src/Nest/DSL/Paths/DocumentOptionalPathDescriptor.cs:43-45 | the overload with T: the same id as the overload without T; a set marker resolves as in the overload without T; a null Index or Type marker resolves to the default index or type name of T |
| `Paths.IdPrecedence` | src/Nest/DSL/Paths/DocumentOptionalPathDescriptor.cs:31 | Id takes precedence over IdFrom: the resolved id is the explicit Id for every inferrer exactly when Id is set, and is the inferrer's id of IdFrom for every inferrer exactly when Id is null |
| `Paths.IndexFallbackExactlyWhenUnset` | src/Nest/DSL/Paths/DocumentOptionalPathDescriptor.cs:43 | overload with T: the index is the default index name of T for every inferrer exactly when the Index marker is null, and is the marker's inferred name for every inferrer exactly when it is set |
| `Paths.TypeFallbackExactlyWhenUnset` | src/Nest/DSL/Paths/DocumentOptionalPathDescriptor.cs:44 | overload with T: the same precedence and fallback for the Type marker and the default type name of T |
| `Paths.UntypedResolveHasNoFallback` | src/Nest/DSL/Paths/DocumentOptionalPathDescriptor.cs:29-31 | overload without T: index and type are the inferrer's names of the markers as given, null included; the result does not depend on the type defaults; the id is resolved as by the overload with T |
| `Paths.OverloadsAgreeExactlyWhenMarkersSet` | src/Nest/DSL/Paths/DocumentOptionalPathDescriptor.cs:148-152 | the two overloads give the same triple for every inferrer if and only if both markers are set; when a marker is null, some inferrer makes the descriptor's dispatch to the overload without T differ from the documented fallback |
| `Fluent.Apply` | src/Nest/DSL/Paths/DocumentOptionalPathDescriptor.cs:100-146 | a setter call leaves its own property holding the argument and every other property unchanged |
| `Fluent.ChainLastWriteWins` | src/Nest/DSL/Paths/DocumentOptionalPathDescriptor.cs:100-146 | after any chain of fluent setter calls each property holds the value of the last call that wrote it, or its old value when none did |
| `Fluent.SetTwiceLastWins` | src/Nest/DSL/Paths/DocumentOptionalPathDescriptor.cs:100-146 | writing the same property twice leaves the same properties as the second write alone |
| `Fluent.DistinctSettersCommute` | src/Nest/DSL/Paths/DocumentOptionalPathDescriptor.cs:100-146 | setters of different properties can be called in either order with the same result |
| `Fluent.ObjectUsedOnlyWhileIdUnset` | src/Nest/DSL/Paths/DocumentOptionalPathDescriptor.cs:142-146 | after Object(o), a resolution always uses the inferrer's id of o exactly when Id was null; otherwise the explicit Id stays in force |
| `Fluent.LongToString` | src/Nest/DSL/Paths/DocumentOptionalPathDescriptor.cs:135 | the decimal rendering of a long is non-empty and starts with a minus sign exactly when the number is negative |
| `RouteParameters.SetRouteParameters` | src/Nest/DSL/Paths/DocumentOptionalPathDescriptor.cs:21-32 | writes exactly the Index, Type and Id fields of the path-info record, with the triple of the overload without T; no precondition, so it never fails on null parts |
| `RouteParameters.SetRouteParametersFor` | src/Nest/DSL/Paths/DocumentOptionalPathDescriptor.cs:34-50 | writes exactly the three fields with the triple of the overload with T; no precondition |
| `Requests.DocumentOptionalPathBase.SetRouteParameters` | src/Nest/DSL/Paths/DocumentOptionalPathDescriptor.cs:54-77 | the base class without T resolves without fallback and its subclass with T resolves with T's defaults; the request's properties stay unchanged and only the record's three fields are written |
| `Requests.DocumentOptionalPathBase.constructor` | src/Nest/DSL/Paths/DocumentOptionalPathDescriptor.cs:57-60 | a new request has all four properties null, and its document type records whether it is the class without T or the class with T |
| `Requests.DocumentOptionalPathDescriptor.constructor` | src/Nest/DSL/Paths/DocumentOptionalPathDescriptor.cs:94-98 | a new descriptor has all four properties null |
| `Requests.DocumentOptionalPathDescriptor.Index` | src/Nest/DSL/Paths/DocumentOptionalPathDescriptor.cs:100-104 | sets only the Index marker to the given name and returns the same descriptor |
| `Requests.DocumentOptionalPathDescriptor.IndexOfType` | src/Nest/DSL/Paths/DocumentOptionalPathDescriptor.cs:106-110 | sets only the Index marker to the given type and returns the same descriptor |
| `Requests.DocumentOptionalPathDescriptor.IndexFor` | src/Nest/DSL/Paths/DocumentOptionalPathDescriptor.cs:112-116 | the same new state as IndexOfType of the type argument |
| `Requests.DocumentOptionalPathDescriptor.Type` | src/Nest/DSL/Paths/DocumentOptionalPathDescriptor.cs:118-122 | sets only the Type marker to the given name and returns the same descriptor |
| `Requests.DocumentOptionalPathDescriptor.TypeOfType` | src/Nest/DSL/Paths/DocumentOptionalPathDescriptor.cs:123-127 | sets only the Type marker to the given type and returns the same descriptor |
| `Requests.DocumentOptionalPathDescriptor.TypeFor` | src/Nest/DSL/Paths/DocumentOptionalPathDescriptor.cs:128-132 | the same new state as TypeOfType of the type argument |
| `Requests.DocumentOptionalPathDescriptor.IdLong` | src/Nest/DSL/Paths/DocumentOptionalPathDescriptor.cs:133-136 | the same new state as Id of the number's decimal string |
| `Requests.DocumentOptionalPathDescriptor.Id` | src/Nest/DSL/Paths/DocumentOptionalPathDescriptor.cs:137-141 | sets only Id (null included) and returns the same descriptor |
| `Requests.DocumentOptionalPathDescriptor.Object` | src/Nest/DSL/Paths/DocumentOptionalPathDescriptor.cs:142-146 | sets only IdFrom and returns the same descriptor |
| `Requests.DocumentOptionalPathDescriptor.SetRouteParameters` | src/Nest/DSL/Paths/DocumentOptionalPathDescriptor.cs:148-152 | resolves with the overload without T, ignoring the descriptor's document type; the descriptor stays unchanged and only the record's three fields are written |
| `Requests.DocumentOptionalPathDescriptor.ToPathInfo` | src/Nest/DSL/Paths/DocumentOptionalPathDescriptor.cs:154-157 | always fails with NotImplementedException |

## Left out

- The name-inference service (ElasticInferrer) and the connection settings it is built from are not part of this model. The inferrer is a parameter of arbitrary total functions, so nothing is assumed about the names it produces or whether it returns null. Exceptions raised inside the inferrer, for example on a marker it cannot resolve, are not modelled. So "never fails" in the rows below means that the resolver's own code (lines 27-31 and 41-49) raises nothing.
- The implicit conversions from `string` and `Type` to `IndexNameMarker` and `TypeNameMarker` are not part of this model. `Index(string)`, `Type(string)`, `Index(Type)` and `Type(Type)` take a non-null argument and store the matching marker. What a null argument converts to is not modelled.
- `Requests.DocumentOptionalPathDescriptor.IdLong`: does not model culture-dependent formatting. `Fluent.LongToString` renders a long the way the invariant culture does. No proved property depends on the digits.
- A type reference is a value identified by its full name. `typeof(T)` for a type argument `T` is modelled as passing that value.
- The path-info record holds only its Index, Type and Id strings. The rest of `ElasticsearchPathInfo`, `BasePathDescriptor`, `BasePathRequest`, the request parameters and the HTTP transport are not part of this model.
- Every fluent setter ends with the cast `(TDescriptor)this`. The model assumes the cast succeeds, because every concrete descriptor passes itself as `TDescriptor`. A subclass that names a different class as `TDescriptor` makes the setter write its field and then throw `InvalidCastException`. That failure path is not modelled.
- The documents and the `IdFrom` object are values (type parameter `O`), not heap references, so aliasing of the object is not modelled.
- The resolver methods receive the request's four properties as one value rather than the request object. Both callers pass their current properties, and the request is not in the methods' frame.
- src/Nest/Domain/DSL/IPathInfo.cs only declares the `ToPathInfo` interface, so it has no model of its own.
