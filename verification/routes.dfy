/**
 * Route descriptors (the `Route` trait) and how their `URI` constants are
 * composed: every level's `URI` is the `URI` of the module enclosing it
 * followed by the level's own part, starting from the crate's "/123".
 */
module Routes {
  import opened Shapes

  /**
   * `http::Method`: the nine standard verbs and the extension methods.
   * `http::Method` never holds an extension whose token is one of the nine
   * standard names (its parser turns those into the constants); `Canonical`
   * states that, and the datatype alone does not enforce it.
   */
  datatype HttpMethod =
    | GET | POST | PUT | DELETE | HEAD | OPTIONS | CONNECT | PATCH | TRACE
    | Extension(token: string)
  {
    /** The value is one `http::Method` can hold. */
    predicate Canonical() {
      Extension? ==> token !in StandardNames
    }

    /** The method's name as written on the wire. */
    function Name(): string {
      match this
      case GET => "GET"
      case POST => "POST"
      case PUT => "PUT"
      case DELETE => "DELETE"
      case HEAD => "HEAD"
      case OPTIONS => "OPTIONS"
      case CONNECT => "CONNECT"
      case PATCH => "PATCH"
      case TRACE => "TRACE"
      case Extension(token) => token
    }
  }

  /** The names of the nine standard verbs. */
  const StandardNames: set<string> :=
    {"GET", "POST", "PUT", "DELETE", "HEAD", "OPTIONS", "CONNECT", "PATCH", "TRACE"}

  /** What one `Route` impl declares: method, URI part, full URI and the three shapes. */
  datatype Route = Route(
    verb: HttpMethod,
    uriPart: string,
    uri: string,
    query: QueryShape,
    body: BodyShape,
    response: BodyShape)

  /** The crate-level `URI` every composition starts from. */
  const RootUri: string := "/123"

  /** `const_str::concat!(super::URI, part)`: the enclosing URI followed by the local part. */
  function Concat(enclosing: string, part: string): (uri: string)
    ensures |uri| == |enclosing| + |part|
    ensures uri[..|enclosing|] == enclosing && uri[|enclosing|..] == part
  {
    enclosing + part
  }

  /**
   * The trait bounds on a route's associated types: `Query: ApplyToRequestHead`
   * and `RequestBody: ApplyToRequestBody` hold only for `Query<T: Serialize>`
   * and `JsonBody<T: Serialize>` (or the `No` shapes).
   */
  predicate Declarable(query: QueryShape, body: BodyShape) {
    && (query.Query? ==> query.t.serialize)
    && (body.JsonBody? ==> body.t.serialize)
  }

  /** `define_route_type!`: one route whose `URI` is `super::URI` followed by its part. */
  function DefineRoute(
    superUri: string, verb: HttpMethod, part: string,
    query: QueryShape, body: BodyShape, response: BodyShape): (r: Route)
    requires Declarable(query, body)
    ensures r.verb == verb && r.uriPart == part
    ensures r.query == query && r.body == body && r.response == response
    ensures superUri <= r.uri && r.uri[|superUri|..] == part
  {
    Route(verb, part, Concat(superUri, part), query, body, response)
  }

  /**
   * The `URI` of a module reached from a module whose `URI` is `base` through
   * nested `routes!` scopes, outermost first; each level computes
   * `concat!(super::URI, scope)`.
   */
  function ScopeUri(base: string, scopes: seq<string>): string
    decreases |scopes|
  {
    if scopes == [] then base
    else Concat(ScopeUri(base, scopes[..|scopes| - 1]), scopes[|scopes| - 1])
  }

  /** All the parts written one after another. */
  function Flatten(parts: seq<string>): string
    decreases |parts|
  {
    if parts == [] then "" else parts[0] + Flatten(parts[1..])
  }

  lemma {:induction false} FlattenAppend(xs: seq<string>, ys: seq<string>)
    ensures Flatten(xs + ys) == Flatten(xs) + Flatten(ys)
    decreases |xs|
  {
    if xs == [] {
      assert xs + ys == ys;
    } else {
      assert (xs + ys)[1..] == xs[1..] + ys;
      FlattenAppend(xs[1..], ys);
    }
  }

  /** A nested module's URI is the base followed by every scope part, outermost first. */
  lemma {:induction false} ScopeUriFlat(base: string, scopes: seq<string>)
    ensures ScopeUri(base, scopes) == base + Flatten(scopes)
    decreases |scopes|
  {
    if scopes != [] {
      var n := |scopes| - 1;
      var init, last := scopes[..n], scopes[n];
      assert ScopeUri(base, init) == base + Flatten(init) by { ScopeUriFlat(base, init); }
      assert Flatten(scopes) == Flatten(init) + last by {
        FlattenAppend(init, [last]);
        assert init + [last] == scopes;
        assert Flatten([last]) == last;
      }
      assert (base + Flatten(init)) + last == base + (Flatten(init) + last);
    }
  }

  /** Every enclosing module's URI is a prefix of every URI below it. */
  lemma ScopeUriExtends(base: string, scopes: seq<string>)
    ensures base <= ScopeUri(base, scopes)
  {
    ScopeUriFlat(base, scopes);
  }

  /**
   * Composition is associative: resolving the outer scopes first and the inner
   * ones from there gives the same URI as resolving them all at once.
   */
  lemma ScopeUriNest(base: string, outer: seq<string>, inner: seq<string>)
    ensures ScopeUri(ScopeUri(base, outer), inner) == ScopeUri(base, outer + inner)
  {
    var o, f, g := ScopeUri(base, outer), Flatten(outer), Flatten(inner);
    assert o == base + f by { ScopeUriFlat(base, outer); }
    assert ScopeUri(o, inner) == o + g by { ScopeUriFlat(o, inner); }
    assert ScopeUri(base, outer + inner) == base + (f + g) by {
      ScopeUriFlat(base, outer + inner);
      FlattenAppend(outer, inner);
    }
    assert (base + f) + g == base + (f + g);
  }

  /** A route defined in a module nested under `scopes` carries the whole chain of parts. */
  lemma NestedRouteUri(scopes: seq<string>, verb: HttpMethod, part: string,
                       query: QueryShape, body: BodyShape, response: BodyShape)
    requires Declarable(query, body)
    ensures DefineRoute(ScopeUri(RootUri, scopes), verb, part, query, body, response).uri
            == RootUri + Flatten(scopes) + part
  {
    ScopeUriFlat(RootUri, scopes);
  }

  /** `Vec<u8>` and `(String, u8)`, the two payload types of the example route. */
  const Bytes: Ty := Ty("Vec<u8>", true, true)
  const TextAndByte: Ty := Ty("(String, u8)", true, true)

  /** The `URI` of module `x`: the crate's URI followed by its scope "/xyz". */
  function ModuleXUri(): (uri: string)
    ensures uri == "/123/xyz"
  {
    ScopeUri(RootUri, ["/xyz"])
  }

  /**
   * Route `Abc`, declared among module `x`'s outer routes. `define_route_type!`
   * expands inside `mod x`, where `super::URI` is the crate's URI, so the
   * scope "/xyz" is not part of its URI.
   */
  function AbcRoute(): (r: Route)
    ensures r.verb == POST && r.uri == "/123/abc"
    ensures r.query == NoQuery && r.body == JsonBody(Bytes) && r.response == JsonBody(TextAndByte)
  {
    DefineRoute(RootUri, POST, "/abc", NoQuery, JsonBody(Bytes), JsonBody(TextAndByte))
  }
}
