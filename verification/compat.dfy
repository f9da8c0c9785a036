/**
 * The definition-time compatibility relation: the marker traits
 * `FromRequest<Query, Body>` (which handler arguments fit a route's query and
 * body shapes) and `IntoResponse<Body>` (which handler outputs fit its
 * response shape), read inductively: a fact holds exactly when a finite
 * chain of the crate's impls derives it.
 */
module Compat {
  import opened Shapes
  import opened Routes

  /** A handler argument type, as far as the impls can tell them apart. */
  datatype Extractor =
    | ActixJson(t: Ty)                // actix_web::web::Json<T>
    | ActixQuery(t: Ty)               // actix_web::web::Query<T>
    | Tuple(items: seq<Extractor>)    // (A, B, ...), the handler's argument list
    | NoCheck(inner: Extractor)       // the crate's NoCheck<T> wrapper
    | Foreign(name: string)           // any type this crate gives no impl

  /** The largest tuple that `impl_from_request!` is instantiated for (A through P). */
  const MaxArity: nat := 16

  /** `e: FromRequest<query, body>` is derivable from the impls. */
  predicate FromRequest(e: Extractor, query: QueryShape, body: BodyShape)
    decreases e
  {
    match e
    case ActixJson(t) => t.Serde() && body == JsonBody(t)
    case ActixQuery(t) => t.Serde() && query == Query(t)
    case Tuple(items) =>
      |items| <= MaxArity && forall k :: 0 <= k < |items| ==> FromRequest(items[k], query, body)
    case NoCheck(_) => false
    case Foreign(_) => false
  }

  /** A handler's output type: a plain type or `Result<T, E>`. */
  datatype Output = Plain(name: string) | ResultOf(ok: Output, err: Output)

  /** `o: IntoResponse<response>` is derivable from the impls. */
  predicate IntoResponse(o: Output, response: BodyShape)
    decreases o
  {
    match response
    case NoBody => true
    case JsonBody(_) => o.ResultOf? && IntoResponse(o.ok, response)
  }

  /** The where-clauses of `handled_by`: arguments fit the request shapes, output fits the response shape. */
  predicate HandledBy(route: Route, args: Extractor, output: Output) {
    FromRequest(args, route.query, route.body) && IntoResponse(output, route.response)
  }

  // ---------------------------------------------------------------------------
  // Argument lists

  /** The empty argument list fits every pair of shapes. */
  lemma EmptyTupleFits(query: QueryShape, body: BodyShape)
    ensures FromRequest(Tuple([]), query, body)
  {
  }

  /** An argument list longer than sixteen has no impl, whatever it holds. */
  lemma LongTupleRejected(items: seq<Extractor>, query: QueryShape, body: BodyShape)
    requires |items| > MaxArity
    ensures !FromRequest(Tuple(items), query, body)
  {
  }

  /** Within the arity ceiling, concatenating argument lists conjoins their compatibility. */
  lemma TupleAppend(xs: seq<Extractor>, ys: seq<Extractor>, query: QueryShape, body: BodyShape)
    requires |xs| + |ys| <= MaxArity
    ensures FromRequest(Tuple(xs + ys), query, body)
        <==> FromRequest(Tuple(xs), query, body) && FromRequest(Tuple(ys), query, body)
  {
    if FromRequest(Tuple(xs), query, body) && FromRequest(Tuple(ys), query, body) {
      forall k | 0 <= k < |xs + ys| ensures FromRequest((xs + ys)[k], query, body) {
        if k >= |xs| { assert (xs + ys)[k] == ys[k - |xs|]; }
      }
    }
    if FromRequest(Tuple(xs + ys), query, body) {
      forall k | 0 <= k < |xs| ensures FromRequest(xs[k], query, body) {
        assert (xs + ys)[k] == xs[k];
      }
      forall k | 0 <= k < |ys| ensures FromRequest(ys[k], query, body) {
        assert (xs + ys)[|xs| + k] == ys[k];
      }
    }
  }

  /** The order of a handler's arguments does not matter. */
  lemma TupleReorder(xs: seq<Extractor>, ys: seq<Extractor>, query: QueryShape, body: BodyShape)
    requires multiset(xs) == multiset(ys)
    ensures FromRequest(Tuple(xs), query, body) <==> FromRequest(Tuple(ys), query, body)
  {
    assert |xs| == |multiset(xs)| == |ys|;
    forall zs, ws | (zs == xs && ws == ys) || (zs == ys && ws == xs)
      ensures FromRequest(Tuple(zs), query, body) ==> FromRequest(Tuple(ws), query, body)
    {
      if FromRequest(Tuple(zs), query, body) {
        forall k | 0 <= k < |ws| ensures FromRequest(ws[k], query, body) {
          assert ws[k] in multiset(ws);
          assert ws[k] in zs;
        }
      }
    }
  }

  // ---------------------------------------------------------------------------
  // An independent reading: every leaf states its own demand

  /** No leaf lacks an impl, every tuple is within the ceiling, every payload type is serde. */
  predicate Admissible(e: Extractor)
    decreases e, 1
  {
    match e
    case ActixJson(t) => t.Serde()
    case ActixQuery(t) => t.Serde()
    case Tuple(items) => |items| <= MaxArity && AllAdmissible(items)
    case NoCheck(_) => false
    case Foreign(_) => false
  }

  predicate AllAdmissible(items: seq<Extractor>)
    decreases items, 0
  {
    items == [] || (Admissible(items[0]) && AllAdmissible(items[1..]))
  }

  /** The query types that the `Query<T>` extractors inside `e` ask for. */
  function QueryDemands(e: Extractor): set<Ty>
    decreases e, 1
  {
    match e
    case ActixQuery(t) => {t}
    case Tuple(items) => AllQueryDemands(items)
    case _ => {}
  }

  function AllQueryDemands(items: seq<Extractor>): set<Ty>
    decreases items, 0
  {
    if items == [] then {} else QueryDemands(items[0]) + AllQueryDemands(items[1..])
  }

  /** The body types that the `Json<T>` extractors inside `e` ask for. */
  function BodyDemands(e: Extractor): set<Ty>
    decreases e, 1
  {
    match e
    case ActixJson(t) => {t}
    case Tuple(items) => AllBodyDemands(items)
    case _ => {}
  }

  function AllBodyDemands(items: seq<Extractor>): set<Ty>
    decreases items, 0
  {
    if items == [] then {} else BodyDemands(items[0]) + AllBodyDemands(items[1..])
  }

  /** `e` fits exactly when it is admissible and every demand names the declared shape. */
  predicate MeetsDemands(e: Extractor, query: QueryShape, body: BodyShape) {
    && Admissible(e)
    && (forall t :: t in QueryDemands(e) ==> query == Query(t))
    && (forall t :: t in BodyDemands(e) ==> body == JsonBody(t))
  }

  predicate AllMeetDemands(items: seq<Extractor>, query: QueryShape, body: BodyShape) {
    && AllAdmissible(items)
    && (forall t :: t in AllQueryDemands(items) ==> query == Query(t))
    && (forall t :: t in AllBodyDemands(items) ==> body == JsonBody(t))
  }

  /** The impls decide compatibility leaf by leaf. */
  lemma {:induction false} FromRequestMeetsDemands(e: Extractor, query: QueryShape, body: BodyShape)
    ensures FromRequest(e, query, body) <==> MeetsDemands(e, query, body)
    decreases e, 1
  {
    match e
    case Tuple(items) =>
      AllFromRequestMeetDemands(items, query, body);
    case _ =>
  }

  lemma {:induction false} AllFromRequestMeetDemands(items: seq<Extractor>, query: QueryShape, body: BodyShape)
    ensures (forall k :: 0 <= k < |items| ==> FromRequest(items[k], query, body))
        <==> AllMeetDemands(items, query, body)
    decreases items, 0
  {
    if items != [] {
      FromRequestMeetsDemands(items[0], query, body);
      AllFromRequestMeetDemands(items[1..], query, body);
      assert forall k :: 1 <= k < |items| ==> items[k] == items[1..][k - 1];
    }
  }

  /** An argument list asking for two different query types fits no route at all. */
  lemma ConflictingQueries(e: Extractor, t1: Ty, t2: Ty, query: QueryShape, body: BodyShape)
    requires t1 != t2 && t1 in QueryDemands(e) && t2 in QueryDemands(e)
    ensures !FromRequest(e, query, body)
  {
    FromRequestMeetsDemands(e, query, body);
  }

  /** An argument list containing `Json<T>` pins the route's body shape to `JsonBody<T>`. */
  lemma JsonPinsBody(items: seq<Extractor>, t: Ty, query: QueryShape, body: BodyShape)
    requires ActixJson(t) in items && FromRequest(Tuple(items), query, body)
    ensures body == JsonBody(t)
  {
    var k :| 0 <= k < |items| && items[k] == ActixJson(t);
    assert FromRequest(items[k], query, body);
  }

  /** `NoCheck<T>` has no impl here, so wrapping an argument never makes it fit. */
  lemma NoCheckNeverFits(inner: Extractor, items: seq<Extractor>, query: QueryShape, body: BodyShape)
    requires NoCheck(inner) in items
    ensures !FromRequest(NoCheck(inner), query, body)
    ensures !FromRequest(Tuple(items), query, body)
  {
    var k :| 0 <= k < |items| && items[k] == NoCheck(inner);
    assert !FromRequest(items[k], query, body);
  }

  // ---------------------------------------------------------------------------
  // Outputs

  /** Only the `Result` step exists for `JsonBody<R>`, so no finite output type reaches it. */
  lemma {:induction false} NoOutputForJsonBody(o: Output, r: Ty)
    ensures !IntoResponse(o, JsonBody(r))
    decreases o
  {
    if o.ResultOf? {
      NoOutputForJsonBody(o.ok, r);
    }
  }

  /** The error type of a `Result` output is never checked against the response shape. */
  lemma ErrorTypeUnchecked(ok: Output, e1: Output, e2: Output, response: BodyShape)
    ensures IntoResponse(ResultOf(ok, e1), response) <==> IntoResponse(ResultOf(ok, e2), response)
  {
  }

  /** Consequently `handled_by` accepts a handler only for routes whose response shape is `NoBody`. */
  lemma HandledOnlyWithoutResponseBody(route: Route, args: Extractor, output: Output)
    requires HandledBy(route, args, output)
    ensures route.response == NoBody
  {
    if route.response.JsonBody? {
      NoOutputForJsonBody(output, route.response.t);
    }
  }

  /** No handler at all can be registered for the example route `Abc`. */
  lemma AbcHasNoHandler(args: Extractor, output: Output)
    ensures !HandledBy(AbcRoute(), args, output)
  {
    NoOutputForJsonBody(output, TextAndByte);
  }

  /** `handled_by` for a route with a JSON request body and no response body: `(Json<T>,)` fits. */
  lemma JsonHandlerFits(route: Route, output: Output)
    requires route.body.JsonBody? && route.body.t.Serde() && route.response == NoBody
    ensures HandledBy(route, Tuple([ActixJson(route.body.t)]), output)
  {
  }
}
