# typed-routing, modelled in Dafny

`typed-routing` binds one endpoint definition (method, URI, query shape,
request-body shape, response-body shape) both to the actix-web handler that
serves it and to the gloo-net client code that calls it. This project models
the sequential core of `src/lib.rs`:

- **Shapes** (`shapes.dfy`): the marker types `NoQuery`, `Query<T>`, `NoBody`,
  `JsonBody<T>`, and a Rust type `T` reduced to its name and whether it is
  `Serialize` / `Deserialize`.
- **Compat** (`compat.dfy`): the marker traits `FromRequest<Query, Body>` and
  `IntoResponse<Body>` and the where-clauses of `handled_by`, as predicates
  read inductively (a fact holds when a finite chain of the crate's impls
  derives it). Extractors are actix `Json<T>`, actix `Query<T>`, tuples,
  `NoCheck<T>` and types without an impl here.
- **QueryPairs** (`query_pairs.dfy`): how `Query<T>::apply` turns the
  serialised query string into pairs (`split('&')`, `split_once('=')`,
  `filter_map`), with the round trip from `k1=v1&...&kn=vn` back to the pairs.
- **Routes** (`routes.dfy`): route descriptors, the `URI` concatenation rule
  of `routes!` and `define_route_type!`, the crate root `"/123"` and the
  example module `x` with its route `Abc`.
- **Builder** (`builder.dfy`): the staged `RequestBuilder` as a class whose
  fields are the route, the held-query slot, the held-body slot and the
  low-level `gloo_net` builder; `new`, `query`, `json`, `extra_query` and the
  two-stage `build` with its tagged `RequestBuildError`.

The serialisers (`serde_urlencoded::to_string`, the JSON serialiser inside
`gloo_net`'s `RequestBuilder::json`) and the browser's request constructor are
code this crate only calls; they enter as the three total functions of a
`Codecs` value passed to `Build`, so every property holds for every behaviour
of theirs. The `unimplemented!()` of `RequestBuilder::new` is the `None`
result of `RequestBuilder.New`.

Three consequences of the code as written shape the model:

- Route `Abc` is listed among the `outer_routes` of module `x`'s `routes!`, so its URI is `"/123/abc"`:
  `define_route_type!` expands inside `mod x` and reads `super::URI`, which
  there is the crate's `"/123"`, so the route's URI skips module `x`'s
  `"/xyz"`; only module `x`'s own `URI` is `"/123/xyz"` (`src/lib.rs:466`,
  `src/lib.rs:489`, `src/lib.rs:515`).
- `NoCheck<T>` is documented as an opt-out (`src/lib.rs:75-79`) but has no
  `FromRequest` impl in this file, so it never fits.
- Using only the impls in `src/lib.rs`, there is no base impl of
  `IntoResponse<JsonBody<R>>`, only the `Result` step (`src/lib.rs:56`), so no
  output type fits a `JsonBody` response and `handled_by` accepts handlers only
  for routes whose response shape is `NoBody`; in particular route `Abc` has no
  possible handler unless another crate adds an impl.

## Model

| member | source | states |
|---|---|---|
| `Compat.EmptyTupleFits` | src/lib.rs:23-33 | the empty argument list fits every query shape and body shape |
| `Compat.LongTupleRejected` | src/lib.rs:33-49 | an argument list of more than sixteen extractors has no impl, whatever it holds |
| `Compat.TupleAppend` | src/lib.rs:23-49 | within the arity ceiling, a concatenated argument list fits iff both parts fit the same shapes |
| `Compat.TupleReorder` | src/lib.rs:23-49 | reordering a handler's arguments never changes whether they fit |
| `Compat.FromRequestMeetsDemands` | src/lib.rs:11-49 | an extractor fits iff no leaf lacks an impl, no tuple exceeds sixteen, every payload type is serde, every `Query<T>` leaf sees `Query<T>` and every `Json<T>` leaf sees `JsonBody<T>` |
| `Compat.ConflictingQueries` | src/lib.rs:18-21 | arguments asking for two different query types fit no shapes at all |
| `Compat.JsonPinsBody` | src/lib.rs:13-16 | an argument list containing `Json<T>` fits only the body shape `JsonBody<T>` |
| `Compat.NoCheckNeverFits` | src/lib.rs:75-79 | `NoCheck<T>` has no impl here, so it, and any argument list containing it, never fits |
| `Compat.NoOutputForJsonBody` | src/lib.rs:51-56 | no finite output type fits a `JsonBody<R>` response: only the `Result` step exists |
| `Compat.ErrorTypeUnchecked` | src/lib.rs:56 | whether `Result<T, E>` fits a response shape does not depend on `E` |
| `Compat.HandledOnlyWithoutResponseBody` | src/lib.rs:324-335 | `handled_by` accepts a handler only for a route whose response shape is `NoBody` |
| `Compat.AbcHasNoHandler` | src/lib.rs:510-517 | no arguments and output can be registered for route `Abc` |
| `Compat.JsonHandlerFits` | src/lib.rs:13-16 | for a route with a serde JSON request body and no response body, the handler arguments `(Json<T>,)` with any output fit |
| `QueryPairs.Split` | src/lib.rs:120 | `split('&')` yields at least one piece |
| `QueryPairs.SplitPieces` | src/lib.rs:120 | no piece of `split` contains the separator and joining the pieces with it gives back the input |
| `QueryPairs.SplitJoin` | src/lib.rs:120 | splitting separator-free pieces joined by the separator gives back exactly those pieces |
| `QueryPairs.SplitFree` | src/lib.rs:120 | a string without the separator is a single piece |
| `QueryPairs.SplitAround` | src/lib.rs:120 | splitting `a&b` gives the pieces of `a` followed by the pieces of `b` |
| `QueryPairs.SplitOnce` | src/lib.rs:120 | `split_once('=')` fails iff there is no '='; otherwise the key has no '=' and key, '=', value rebuild the segment |
| `QueryPairs.KeepSplit` | src/lib.rs:120 | `filter_map` keeps at most one pair per segment and no kept key contains '=' |
| `QueryPairs.KeepSplitAppend` | src/lib.rs:120 | `filter_map` works segment by segment and keeps their order |
| `QueryPairs.KeepSplitAvoids` | src/lib.rs:120 | a character absent from every segment is absent from every kept key and value |
| `QueryPairs.Pairs` | src/lib.rs:119-121 | an empty serialised string yields no pairs; keys contain no '=' or '&' and values no '&' |
| `QueryPairs.PairsAround` | src/lib.rs:119-121 | the pairs of `a&b` are the pairs of `a` followed by the pairs of `b` |
| `QueryPairs.PairsOfSegment` | src/lib.rs:119-121 | one segment without '=' is dropped; one with '=' yields its split at the first '=' |
| `QueryPairs.KeepSplitSegments` | src/lib.rs:120 | `filter_map` recovers every pair from its `k=v` segment when keys have no '=' |
| `QueryPairs.PairsSerialize` | src/lib.rs:119-121 | splitting `k1=v1&...&kn=vn` recovers exactly the pairs when keys have no '=' or '&' and values no '&' |
| `Routes.Concat` | src/lib.rs:489 | a URI is the enclosing URI followed by the local part |
| `Routes.DefineRoute` | src/lib.rs:480-491 | a defined route keeps its method, part and shapes, and `super::URI` is a prefix of its URI followed by exactly its part |
| `Routes.ScopeUriFlat` | src/lib.rs:466 | a module nested under scopes has the base URI followed by every scope part, outermost first |
| `Routes.ScopeUriExtends` | src/lib.rs:466 | every enclosing module's URI is a prefix of the URIs below it |
| `Routes.ScopeUriNest` | src/lib.rs:466 | composing outer scopes and then inner ones equals composing all of them at once |
| `Routes.NestedRouteUri` | src/lib.rs:489 | a route defined by `routes!` in a module has the URI `"/123"`, then the scope parts of the modules strictly above that module (outermost first), then its own part |
| `Routes.ModuleXUri` | src/lib.rs:501-517 | module `x`'s URI is `"/123/xyz"` |
| `Routes.AbcRoute` | src/lib.rs:510-514 | route `Abc` is `POST` at `"/123/abc"` with no query, a JSON body of `Vec<u8>` and a JSON response of `(String, u8)` |
| `Builder.ClientMethodOf` | src/lib.rs:175-186 | the nine standard verbs map to the client verb of the same name; every other method reaches `unimplemented!()` |
| `Builder.ClientMethodOfByName` | src/lib.rs:175-186 | for a method `http::Method` can hold, `new` panics exactly when the method's name is not one of the nine standard verbs |
| `Builder.ClientMethodOfInjective` | src/lib.rs:175-186 | two standard verbs map to the same client verb only if they are equal |
| `Builder.ApplyQuery` | src/lib.rs:103-122 | `NoQuery` leaves the builder as is; `Query` fails iff serialisation fails, with its error, and otherwise only appends the split pairs |
| `Builder.ApplyBody` | src/lib.rs:133-151 | a built request keeps verb, URI and pairs; it has a body iff the body slot is `JsonBody`, whose serialisation error surfaces as such; once the body serialises, the stage succeeds iff the browser accepts the assembled request, and a refusal surfaces as `JsError` |
| `Builder.TypedPairsRoundTrip` | src/lib.rs:113-122 | a query serialised as `k1=v1&...&kn=vn` contributes exactly those pairs |
| `Builder.RequestBuilder.CompleteIffDeclaredSet` | src/lib.rs:238-243 | `build` is reachable exactly when every shape the route declares has been set and no other |
| `Builder.RequestBuilder.Fresh` | src/lib.rs:187-192 | both slots start empty and the low-level request has the route's URI and no pairs |
| `Builder.RequestBuilder.New` | src/lib.rs:173-193 | `new` fails fatally iff the method is not one of the nine verbs; otherwise both slots are empty and the request carries exactly the route's method and URI |
| `Builder.RequestBuilder.WithQuery` | src/lib.rs:208-217 | `query` needs the route to declare `Query<T>` and an empty slot, fills it, and leaves the body slot and low-level request unchanged |
| `Builder.RequestBuilder.WithJson` | src/lib.rs:219-228 | `json` needs the route to declare `JsonBody<T>` and an empty slot, fills it, and leaves the query slot and low-level request unchanged |
| `Builder.RequestBuilder.ExtraQuery` | src/lib.rs:196-206 | `extra_query` only appends pairs to the low-level request; neither slot changes |
| `Builder.RequestBuilder.Build` | src/lib.rs:230-268 | `build` needs the held shapes to equal the declared ones; a query failure is `QueryError` whatever the body, a body failure is `BodyError`, success carries the route's method and URI, extra pairs before typed pairs, and the serialised body |
| `Builder.BuildAbcRequest` | src/lib.rs:520-525 | `new().json(bytes).build()` on `Abc` cannot panic, fails only in the body stage, and once the bytes serialise, fails with `BodyError(JsError(e))` exactly when the browser refuses the request with `e` and succeeds otherwise; it yields a `POST` to `"/123/abc"` with no pairs and the serialised bytes |

## Left out

- `Request::send`, the `Response` accessors and the async `Response::json`: asynchronous transport calls into `gloo_net`.
- `serde_urlencoded::to_string`, the JSON serialiser and the browser's request constructor are not modelled; they are the functions of `Codecs`, arbitrary but total.
- The internals of `gloo_net`'s `RequestBuilder`: it is a record of verb, URI and appended pairs whose `query` appends and whose `build` may be refused; `build` itself (`src/lib.rs:139`) is the helper `Builder.Finish` behind that abstraction.
- `Routes.HttpMethod`: the datatype admits extension tokens equal to a standard name, which `http::Method` never holds; `HttpMethod.Canonical` states the restriction (used by `Builder.ClientMethodOfByName`) but the datatype does not impose it, and `ClientMethodOf` sends such values to `None`.
- Impls outside this crate: `FromRequest` and `IntoResponse` are public traits, and other crates may implement them for their own types; the relation is closed over the impls in `src/lib.rs` only, so `Foreign` extractors never fit, and `Compat.NoOutputForJsonBody`, `Compat.HandledOnlyWithoutResponseBody` and `Compat.AbcHasNoHandler` hold only for types without outside impls.
- The `Router` trait and its `App` and `Scope` impls, and `Module::register`: pure delegation to actix, and `register` has an empty body.
- The token matching of `routes!`, `define_item!` and `outer_routes_typedef!`; only the `URI` concatenation rule is modelled.
- `PhantomData` markers, the `Deref`/`DerefMut` impls of `NoCheck`, lifetimes, and the async part of the example `f` (sending and decoding).
- `Compat.HandledOnlyWithoutResponseBody`: the bound `F: actix_web::Handler<Args>` of `handled_by` is not modelled; the argument list and output type are given directly.
- Move semantics: `build` consumes the Rust builder, whereas the Dafny object stays usable after `Build`.
- Rust types are reduced to a name and their two serde capabilities; other trait bounds and generic structure are not modelled.
