/**
 * The client-side staged request builder: `RequestBuilder::new` fixes the
 * route's method and URI, `query` and `json` each fill one slot the route
 * declares, `extra_query` appends raw pairs, and `build` runs the query stage
 * and then the body stage, each with its own tagged error.
 *
 * The serialisers and the browser-side request constructor belong to other
 * crates; they enter as the total functions of a `Codecs` value.
 */
module Builder {
  import opened Shapes
  import Routes
  import QueryPairs

  /** `gloo_net::http::Method`. */
  datatype ClientMethod = GET | POST | PUT | DELETE | HEAD | OPTIONS | CONNECT | PATCH | TRACE {
    function Name(): string {
      match this
      case GET => "GET"
      case POST => "POST"
      case PUT => "PUT"
      case DELETE => "DELETE"
      case HEAD => "HEAD"
      case OPTIONS => "OPTIONS"
      case CONNECT => "CONNECT"
      case PATCH => "PATCH"
      case TRACE => "TRACE"
    }
  }

  /**
   * The `match Route::METHOD` of `RequestBuilder::new`: each standard verb goes
   * to the client verb of the same name; any other method reaches
   * `unimplemented!()`, shown here as `None`.
   */
  function ClientMethodOf(m: Routes.HttpMethod): (r: Option<ClientMethod>)
    ensures r.None? <==> m.Extension?
    ensures r.Some? ==> r.value.Name() == m.Name()
  {
    match m
    case GET => Some(GET)
    case POST => Some(POST)
    case PUT => Some(PUT)
    case DELETE => Some(DELETE)
    case HEAD => Some(HEAD)
    case OPTIONS => Some(OPTIONS)
    case CONNECT => Some(CONNECT)
    case PATCH => Some(PATCH)
    case TRACE => Some(TRACE)
    case Extension(_) => None
  }

  /** Distinct standard verbs never share a client verb. */
  lemma ClientMethodOfInjective(m1: Routes.HttpMethod, m2: Routes.HttpMethod)
    requires ClientMethodOf(m1).Some? && ClientMethodOf(m1) == ClientMethodOf(m2)
    ensures m1 == m2
  {
  }

  /** For a method `http::Method` can hold, `new` panics exactly when its name is not a standard verb's. */
  lemma ClientMethodOfByName(m: Routes.HttpMethod)
    requires m.Canonical()
    ensures ClientMethodOf(m).None? <==> m.Name() !in Routes.StandardNames
  {
  }

  type Pair = QueryPairs.Pair

  /** The low-level `gloo_net` builder as this crate drives it: verb, URI and appended query pairs. */
  datatype LowBuilder = LowBuilder(verb: ClientMethod, uri: string, pairs: seq<Pair>)

  /** What a built request carries as its body; `JsonPayload` also sets the JSON content type. */
  datatype Payload = NoPayload | JsonPayload(document: string)

  /** A built `gloo_net` request. */
  datatype Request = Request(verb: ClientMethod, uri: string, pairs: seq<Pair>, payload: Payload)

  /** `gloo_net::Error` as the body stage can raise it. */
  datatype TransportError = SerdeError(message: string) | JsError(message: string)

  /** `RequestBuildError`: which stage of `build` failed, with its cause. */
  datatype RequestBuildError = QueryError(queryCause: string) | BodyError(bodyCause: TransportError)

  /**
   * The collaborators `build` calls: `serde_urlencoded::to_string`, the JSON
   * serialiser inside `RequestBuilder::json`, and the constructor of the
   * browser request, which may refuse it with a message.
   */
  datatype Codecs = Codecs(
    urlEncode: Value -> Result<string, string>,
    jsonEncode: Value -> Result<string, string>,
    reject: Request -> Option<string>)

  /** The builder's query type parameter: `NoQuery` or `Query(value)`. */
  datatype HeldQuery = NoQueryHeld | QueryHeld(value: Value) {
    function Shape(): QueryShape {
      match this
      case NoQueryHeld => NoQuery
      case QueryHeld(v) => Query(v.ty)
    }
  }

  /** The builder's body type parameter: `NoBody` or `JsonBody(value)`. */
  datatype HeldBody = NoBodyHeld | BodyHeld(value: Value) {
    function Shape(): BodyShape {
      match this
      case NoBodyHeld => NoBody
      case BodyHeld(v) => JsonBody(v.ty)
    }
  }

  // ---------------------------------------------------------------------------
  // The two stages of `build`

  /** `ApplyToRequestHead::apply`: nothing for `NoQuery`; for `Query` serialise, split and append. */
  function ApplyQuery(held: HeldQuery, low: LowBuilder, urlEncode: Value -> Result<string, string>)
    : (r: Result<LowBuilder, string>)
    ensures held.NoQueryHeld? ==> r == Success(low)
    ensures held.QueryHeld? ==> (r.Failure? <==> urlEncode(held.value).Failure?)
    ensures held.QueryHeld? && r.Failure? ==> r.error == urlEncode(held.value).error
    ensures r.Success? ==> r.value.verb == low.verb && r.value.uri == low.uri && low.pairs <= r.value.pairs
    ensures held.QueryHeld? && r.Success? ==>
      r.value.pairs[|low.pairs|..] == QueryPairs.Pairs(urlEncode(held.value).value)
  {
    match held
    case NoQueryHeld => Success(low)
    case QueryHeld(v) =>
      match urlEncode(v)
      case Failure(e) => Failure(e)
      case Success(serialized) => Success(low.(pairs := low.pairs + QueryPairs.Pairs(serialized)))
  }

  /** `RequestBuilder::build` / `RequestBuilder::json` of `gloo_net`: the last step of either. */
  function Finish(low: LowBuilder, payload: Payload, reject: Request -> Option<string>)
    : (r: Result<Request, TransportError>)
    ensures r.Success? <==> reject(Request(low.verb, low.uri, low.pairs, payload)).None?
    ensures r.Success? ==> r.value == Request(low.verb, low.uri, low.pairs, payload)
    ensures r.Failure? ==> r.error == JsError(reject(Request(low.verb, low.uri, low.pairs, payload)).value)
  {
    var request := Request(low.verb, low.uri, low.pairs, payload);
    match reject(request)
    case Some(e) => Failure(JsError(e))
    case None => Success(request)
  }

  /** `ApplyToRequestBody::apply`: build without a body for `NoBody`, with a JSON body for `JsonBody`. */
  function ApplyBody(held: HeldBody, low: LowBuilder, codecs: Codecs): (r: Result<Request, TransportError>)
    ensures r.Success? ==> r.value.verb == low.verb && r.value.uri == low.uri && r.value.pairs == low.pairs
    ensures r.Success? ==> (r.value.payload.NoPayload? <==> held.NoBodyHeld?)
    ensures held.BodyHeld? && codecs.jsonEncode(held.value).Failure? ==>
      r == Failure(SerdeError(codecs.jsonEncode(held.value).error))
    ensures held.BodyHeld? && r.Success? ==>
      r.value.payload == JsonPayload(codecs.jsonEncode(held.value).value)
    ensures BodyEncodes(held, codecs) ==>
      match codecs.reject(Request(low.verb, low.uri, low.pairs, PayloadOf(held, codecs)))
      case Some(e) => r == Failure(JsError(e))
      case None => r.Success?
  {
    match held
    case NoBodyHeld => Finish(low, NoPayload, codecs.reject)
    case BodyHeld(v) =>
      match codecs.jsonEncode(v)
      case Failure(e) => Failure(SerdeError(e))
      case Success(document) => Finish(low, JsonPayload(document), codecs.reject)
  }

  // ---------------------------------------------------------------------------
  // What a successful `build` produces

  /** The held query, if any, serialises. */
  predicate QueryEncodes(held: HeldQuery, codecs: Codecs) {
    held.QueryHeld? ==> codecs.urlEncode(held.value).Success?
  }

  /** The held body, if any, serialises. */
  predicate BodyEncodes(held: HeldBody, codecs: Codecs) {
    held.BodyHeld? ==> codecs.jsonEncode(held.value).Success?
  }

  /** The pairs the typed query contributes. */
  function TypedPairs(held: HeldQuery, codecs: Codecs): seq<Pair>
    requires QueryEncodes(held, codecs)
  {
    if held.NoQueryHeld? then [] else QueryPairs.Pairs(codecs.urlEncode(held.value).value)
  }

  /** The body the typed body contributes. */
  function PayloadOf(held: HeldBody, codecs: Codecs): Payload
    requires BodyEncodes(held, codecs)
  {
    if held.NoBodyHeld? then NoPayload else JsonPayload(codecs.jsonEncode(held.value).value)
  }

  /** The request `build` hands to the browser when both values serialise. */
  function Outgoing(low: LowBuilder, query: HeldQuery, body: HeldBody, codecs: Codecs): Request
    requires QueryEncodes(query, codecs) && BodyEncodes(body, codecs)
  {
    Request(low.verb, low.uri, low.pairs + TypedPairs(query, codecs), PayloadOf(body, codecs))
  }

  /** A query serialised as `k1=v1&...&kn=vn` contributes exactly those pairs. */
  lemma TypedPairsRoundTrip(v: Value, ps: seq<Pair>, codecs: Codecs)
    requires codecs.urlEncode(v) == Success(QueryPairs.Serialize(ps)) && QueryPairs.Splittable(ps)
    ensures QueryEncodes(QueryHeld(v), codecs) && TypedPairs(QueryHeld(v), codecs) == ps
  {
    QueryPairs.PairsSerialize(ps);
  }

  // ---------------------------------------------------------------------------
  // The builder

  /**
   * `RequestBuilder<Route, Query, Body>`: the route is fixed, the two slots
   * are the type parameters `Query` and `Body`, and `low` is the wrapped
   * `gloo_net` builder.
   */
  class RequestBuilder {
    const route: Routes.Route
    var query: HeldQuery
    var body: HeldBody
    var low: LowBuilder

    /** The low-level request targets the route, and a filled slot holds the declared shape. */
    ghost predicate Valid()
      reads this
    {
      && ClientMethodOf(route.verb) == Some(low.verb)
      && low.uri == route.uri
      && (query.QueryHeld? ==> route.query == query.Shape())
      && (body.BodyHeld? ==> route.body == body.Shape())
    }

    /** The held shapes are exactly the declared ones: the only state `build` accepts. */
    predicate Complete()
      reads this
    {
      query.Shape() == route.query && body.Shape() == route.body
    }

    /** Under `Valid`, `build` is reachable exactly when every shape the route declares has been set. */
    lemma CompleteIffDeclaredSet()
      requires Valid()
      ensures Complete() <==> (query.QueryHeld? <==> route.query.Query?) && (body.BodyHeld? <==> route.body.JsonBody?)
    {
    }

    constructor Fresh(route: Routes.Route, verb: ClientMethod)
      requires ClientMethodOf(route.verb) == Some(verb)
      ensures Valid() && this.route == route
      ensures query == NoQueryHeld && body == NoBodyHeld && low == LowBuilder(verb, route.uri, [])
    {
      this.route := route;
      query := NoQueryHeld;
      body := NoBodyHeld;
      low := LowBuilder(verb, route.uri, []);
    }

    /** `RequestBuilder::new`: both slots empty, the request carries the route's method and URI. */
    static method New(route: Routes.Route) returns (r: Option<RequestBuilder>)
      ensures r.None? <==> route.verb.Extension?
      ensures r.Some? ==> fresh(r.value) && r.value.Valid() && r.value.route == route
      ensures r.Some? ==> r.value.query == NoQueryHeld && r.value.body == NoBodyHeld
      ensures r.Some? ==> r.value.low.uri == route.uri && r.value.low.pairs == []
      ensures r.Some? ==> r.value.low.verb.Name() == route.verb.Name()
    {
      var verb := ClientMethodOf(route.verb);
      if verb.None? {
        return None;
      }
      var b := new RequestBuilder.Fresh(route, verb.value);
      return Some(b);
    }

    /** `query`: fill the empty query slot the route declares; nothing else changes. */
    method WithQuery(value: Value)
      requires Valid() && query.NoQueryHeld? && route.query == Query(value.ty)
      modifies this
      ensures Valid()
      ensures query == QueryHeld(value) && body == old(body) && low == old(low)
    {
      query := QueryHeld(value);
    }

    /** `json`: fill the empty body slot the route declares; nothing else changes. */
    method WithJson(value: Value)
      requires Valid() && body.NoBodyHeld? && route.body == JsonBody(value.ty)
      modifies this
      ensures Valid()
      ensures body == BodyHeld(value) && query == old(query) && low == old(low)
    {
      body := BodyHeld(value);
    }

    /** `extra_query`: append raw pairs to the low-level request; the slots do not change. */
    method ExtraQuery(params: seq<Pair>)
      requires Valid()
      modifies this
      ensures Valid()
      ensures query == old(query) && body == old(body)
      ensures low == old(low).(pairs := old(low.pairs) + params)
    {
      low := low.(pairs := low.pairs + params);
    }

    /**
     * `build`: the query stage and then the body stage. A query failure is
     * reported as `QueryError` and the body is never looked at; a body failure
     * as `BodyError`; otherwise the request carries the route's method and URI,
     * the extra pairs followed by the typed pairs, and the serialised body.
     */
    method Build(codecs: Codecs) returns (r: Result<Request, RequestBuildError>)
      requires Valid() && Complete()
      ensures (r.Failure? && r.error.QueryError?) <==> !QueryEncodes(query, codecs)
      ensures !QueryEncodes(query, codecs) ==> r == Failure(QueryError(codecs.urlEncode(query.value).error))
      ensures QueryEncodes(query, codecs) && !BodyEncodes(body, codecs) ==>
        r == Failure(BodyError(SerdeError(codecs.jsonEncode(body.value).error)))
      ensures QueryEncodes(query, codecs) && BodyEncodes(body, codecs) ==>
        match codecs.reject(Outgoing(low, query, body, codecs))
        case Some(e) => r == Failure(BodyError(JsError(e)))
        case None => r == Success(Outgoing(low, query, body, codecs))
      ensures r.Success? ==> ClientMethodOf(route.verb) == Some(r.value.verb) && r.value.uri == route.uri
      ensures r.Success? ==> r.value.pairs == low.pairs + TypedPairs(query, codecs)
    {
      var staged := ApplyQuery(query, low, codecs.urlEncode);
      if staged.Failure? {
        return Failure(QueryError(staged.error));
      }
      if query.QueryHeld? {
        assert staged.value.pairs == low.pairs + staged.value.pairs[|low.pairs|..];
      }
      assert staged.value == low.(pairs := low.pairs + TypedPairs(query, codecs));
      var built := ApplyBody(body, staged.value, codecs);
      if BodyEncodes(body, codecs) {
        assert built == Finish(staged.value, PayloadOf(body, codecs), codecs.reject);
      }
      if built.Failure? {
        return Failure(BodyError(built.error));
      }
      return Success(built.value);
    }
  }

  /**
   * The builder part of the crate's example: a `POST` to `Abc` with a JSON
   * body of bytes. `new` cannot panic for `POST`; the request has no query
   * pairs and the serialised bytes as its body.
   */
  method BuildAbcRequest(bytes: Value, codecs: Codecs) returns (r: Result<Request, RequestBuildError>)
    requires bytes.ty == Routes.Bytes
    ensures codecs.jsonEncode(bytes).Failure? ==> r == Failure(BodyError(SerdeError(codecs.jsonEncode(bytes).error)))
    ensures r.Success? ==>
      r.value == Request(POST, "/123/abc", [], JsonPayload(codecs.jsonEncode(bytes).value))
    ensures r.Failure? ==> r.error.BodyError?
    ensures codecs.jsonEncode(bytes).Success? ==>
      match codecs.reject(Request(POST, "/123/abc", [], JsonPayload(codecs.jsonEncode(bytes).value)))
      case Some(e) => r == Failure(BodyError(JsError(e)))
      case None => r.Success?
  {
    var created := RequestBuilder.New(Routes.AbcRoute());
    var b := created.value;
    b.WithJson(bytes);
    if codecs.jsonEncode(bytes).Success? {
      assert Outgoing(b.low, b.query, b.body, codecs)
          == Request(POST, "/123/abc", [], JsonPayload(codecs.jsonEncode(bytes).value));
    }
    r := b.Build(codecs);
  }
}
