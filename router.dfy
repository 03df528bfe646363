/**
 The command router of the server, as pure functions: which (method, path)
 pair selects which handler, Unity's integer clamp, the toggle handler with
 its caught exceptions, the response every request is finalised with, and
 the effect of draining a whole queue of requests in order.
 */
module Router {
  import opened Common

  /**
   The request half of one listener context. `parsedIndex` is what decoding the
   body as a ToggleCommand yields, `None` when the decoder throws.
   */
  datatype Request = Request(
    httpMethod: string,
    localPath: string,
    contentType: Option<string>,
    parsedIndex: Option<int>)

  /** The response half of one listener context, as the handler leaves it. */
  datatype Response = Response(
    status: int,
    headers: seq<Header>,
    body: Option<ToggleStatus>,
    closed: bool)

  /** A request together with the response it was answered with. */
  datatype Exchange = Exchange(request: Request, response: Response)

  /** The four headers appended to every response, in order. */
  const CorsHeaders: seq<Header> := [
    Header("Access-Control-Allow-Origin", "*"),
    Header("Access-Control-Allow-Credentials", "true"),
    Header("Access-Control-Allow-Headers",
           "Content-Type, X-CSRF-Token, X-Requested-With, Accept, Accept-Version, Content-Length, Content-MD5, Date, X-Api-Version, X-File-Name"),
    Header("Access-Control-Allow-Methods", "POST,GET,PUT,PATCH,DELETE,OPTIONS")
  ]

  datatype Route = Ping | ExecuteEvents | ToggleObject | Unmatched

  /** The nested switch on the exact method string and then the exact local path. */
  function RouteOf(httpMethod: string, localPath: string): (r: Route)
    ensures r == Ping <==> httpMethod == "GET" && localPath == "/ping"
    ensures r == ExecuteEvents <==> httpMethod == "GET" && localPath == "/executeEvents"
    ensures r == ToggleObject <==> httpMethod == "POST" && localPath == "/toggleObject"
  {
    match httpMethod
    case "GET" =>
      (match localPath
       case "/ping" => Ping
       case "/executeEvents" => ExecuteEvents
       case _ => Unmatched)
    case "POST" =>
      (match localPath
       case "/toggleObject" => ToggleObject
       case _ => Unmatched)
    case _ => Unmatched
  }

  /** Unity's integer clamp: the low bound is tested first, then the high bound. */
  function Clamp(value: int, min: int, max: int): (r: int)
    ensures min <= max ==> min <= r <= max
    ensures min <= value <= max ==> r == value
    ensures value < min ==> r == min
    ensures min <= value && max < value ==> r == max
    // an empty range (max < min) yields one of its bounds, never a value in between
    ensures max < min ==> r == min || r == max
  {
    if value < min then min else if value > max then max else value
  }

  /** The content type test guarding the toggle handler: present and exactly "application/json". */
  function AcceptsJson(contentType: Option<string>): (b: bool)
    // a missing content type and any other string, one with parameters included, are refused
    ensures b <==> contentType == Some("application/json")
  {
    contentType.Some? && contentType.value == JsonContentType
  }

  /**
   The try block of the toggle handler: `Some` with the clamped index and the
   new active flag when it runs to the end, `None` when the decoder or the
   registry access throws and the exception is caught.
   */
  function TryToggle(toggles: seq<bool>, parsedIndex: Option<int>): (r: Option<ToggleStatus>)
    ensures r.Some? <==> parsedIndex.Some? && |toggles| > 0
    ensures r.Some? ==> 0 <= r.value.index < |toggles|
                        && r.value.index == Clamp(parsedIndex.value, 0, |toggles| - 1)
                        && r.value.active == !toggles[r.value.index]
    ensures r.Some? && 0 <= parsedIndex.value < |toggles| ==> r.value.index == parsedIndex.value
  {
    match parsedIndex
    case None => None
    case Some(index) =>
      var clamped := Clamp(index, 0, |toggles| - 1);
      if 0 <= clamped < |toggles| then Some(ToggleStatus(clamped, !toggles[clamped])) else None
  }

  /** The registry after a toggle outcome: only the reported entry takes the reported flag. */
  function ApplyToggle(toggles: seq<bool>, outcome: Option<ToggleStatus>): (t: seq<bool>)
    ensures |t| == |toggles|
    ensures forall i :: 0 <= i < |toggles| && !(outcome.Some? && outcome.value.index == i) ==> t[i] == toggles[i]
    ensures outcome.Some? && 0 <= outcome.value.index < |toggles| ==> t[outcome.value.index] == outcome.value.active
  {
    match outcome
    case Some(status) =>
      if 0 <= status.index < |toggles| then toggles[status.index := status.active] else toggles
    case None => toggles
  }

  /** What resolving one request does: the new registry, the new event count and the response. */
  datatype Effect = Effect(toggles: seq<bool>, events: nat, response: Response)

  /** The body a request gets: a toggle status only on the toggle route with a JSON content type. */
  function BodyFor(toggles: seq<bool>, request: Request): Option<ToggleStatus> {
    if RouteOf(request.httpMethod, request.localPath) == ToggleObject && AcceptsJson(request.contentType)
    then TryToggle(toggles, request.parsedIndex)
    else None
  }

  /**
   The effect of resolving `request` against a registry `toggles` and an event
   callback that has run `events` times.
   */
  function Resolve(toggles: seq<bool>, events: nat, request: Request): (e: Effect)
    // every branch, the caught-exception one included, is finalised the same way
    ensures e.response.status == 200 && e.response.headers == CorsHeaders && e.response.closed
    ensures |e.toggles| == |toggles|
    // the event callback runs exactly once, and only for GET /executeEvents
    ensures e.events == events + (if RouteOf(request.httpMethod, request.localPath) == ExecuteEvents then 1 else 0)
    // a body is written only by a toggle that ran to the end
    ensures e.response.body.Some? ==>
              RouteOf(request.httpMethod, request.localPath) == ToggleObject && AcceptsJson(request.contentType)
              && request.parsedIndex.Some? && |toggles| > 0
    // a toggle that can run to the end reports the clamped index and its negated flag
    ensures RouteOf(request.httpMethod, request.localPath) == ToggleObject && AcceptsJson(request.contentType)
            && request.parsedIndex.Some? && |toggles| > 0 ==>
              var clamped := Clamp(request.parsedIndex.value, 0, |toggles| - 1);
              e.response.body == Some(ToggleStatus(clamped, !toggles[clamped]))
    // at most the reported entry changes, and it changes to the reported flag
    ensures forall i :: 0 <= i < |toggles| ==>
              (e.toggles[i] != toggles[i] <==> e.response.body.Some? && e.response.body.value.index == i)
    ensures e.response.body.Some? ==> 0 <= e.response.body.value.index < |toggles|
                                      && e.toggles[e.response.body.value.index] == e.response.body.value.active
  {
    var outcome := BodyFor(toggles, request);
    var route := RouteOf(request.httpMethod, request.localPath);
    Effect(ApplyToggle(toggles, outcome),
           if route == ExecuteEvents then events + 1 else events,
           Response(200, CorsHeaders, outcome, true))
  }

  /** The registry, the event count and the answered exchanges after a whole queue. */
  datatype Drained = Drained(toggles: seq<bool>, events: nat, answered: seq<Exchange>)

  /** Resolves every queued request in turn, each against the state the earlier ones left. */
  function DrainAll(toggles: seq<bool>, events: nat, queue: seq<Request>): (d: Drained)
    ensures |d.answered| == |queue|
    decreases |queue|
  {
    if |queue| == 0 then Drained(toggles, events, [])
    else
      var e := Resolve(toggles, events, queue[0]);
      var rest := DrainAll(e.toggles, e.events, queue[1..]);
      Drained(rest.toggles, rest.events, [Exchange(queue[0], e.response)] + rest.answered)
  }

  /** How many requests of `queue` select `route`. */
  function CountRoute(queue: seq<Request>, route: Route): nat
    decreases |queue|
  {
    if |queue| == 0 then 0
    else (if RouteOf(queue[0].httpMethod, queue[0].localPath) == route then 1 else 0) + CountRoute(queue[1..], route)
  }

  /** Draining answers every queued request exactly once, in insertion order. */
  lemma {:induction false} DrainAnswersInOrder(toggles: seq<bool>, events: nat, queue: seq<Request>)
    ensures |DrainAll(toggles, events, queue).answered| == |queue|
    ensures forall i :: 0 <= i < |queue| ==> DrainAll(toggles, events, queue).answered[i].request == queue[i]
    decreases |queue|
  {
    if |queue| > 0 {
      var e := Resolve(toggles, events, queue[0]);
      DrainAnswersInOrder(e.toggles, e.events, queue[1..]);
    }
  }

  /** Every answered exchange of a drain has status 200, the four CORS headers and a closed response. */
  lemma {:induction false} DrainFinalizesEveryResponse(toggles: seq<bool>, events: nat, queue: seq<Request>)
    ensures forall x :: x in DrainAll(toggles, events, queue).answered ==>
              x.response.status == 200 && x.response.headers == CorsHeaders && x.response.closed
    decreases |queue|
  {
    if |queue| > 0 {
      var e := Resolve(toggles, events, queue[0]);
      DrainFinalizesEveryResponse(e.toggles, e.events, queue[1..]);
    }
  }

  /** A drain invokes the event callback once per `GET /executeEvents` and keeps the registry's size. */
  lemma {:induction false} DrainCountsEvents(toggles: seq<bool>, events: nat, queue: seq<Request>)
    ensures DrainAll(toggles, events, queue).events == events + CountRoute(queue, ExecuteEvents)
    ensures |DrainAll(toggles, events, queue).toggles| == |toggles|
    decreases |queue|
  {
    if |queue| > 0 {
      var e := Resolve(toggles, events, queue[0]);
      DrainCountsEvents(e.toggles, e.events, queue[1..]);
    }
  }

  /** A queue without toggle requests leaves the registry as it was. */
  lemma {:induction false} DrainWithoutToggleKeepsRegistry(toggles: seq<bool>, events: nat, queue: seq<Request>)
    requires CountRoute(queue, ToggleObject) == 0
    ensures DrainAll(toggles, events, queue).toggles == toggles
    decreases |queue|
  {
    if |queue| > 0 {
      var e := Resolve(toggles, events, queue[0]);
      assert e.toggles == toggles;
      DrainWithoutToggleKeepsRegistry(e.toggles, e.events, queue[1..]);
    }
  }

  /**
   Draining `a` and then, on a later tick, `b` has the same effect as
   draining `a + b` at once: how arrivals are split across ticks does not matter.
   */
  lemma {:induction false} DrainSplits(toggles: seq<bool>, events: nat, a: seq<Request>, b: seq<Request>)
    ensures var first := DrainAll(toggles, events, a);
            var second := DrainAll(first.toggles, first.events, b);
            DrainAll(toggles, events, a + b) == Drained(second.toggles, second.events, first.answered + second.answered)
    decreases |a|
  {
    if |a| == 0 {
      assert a + b == b;
    } else {
      var e := Resolve(toggles, events, a[0]);
      assert (a + b)[0] == a[0];
      assert (a + b)[1..] == a[1..] + b;
      DrainSplits(e.toggles, e.events, a[1..], b);
    }
  }

  /**
   The i-th answer of a drain is the response `Resolve` gives the i-th request
   in the state that draining the requests before it left.
   */
  lemma {:induction false} DrainSerializes(toggles: seq<bool>, events: nat, queue: seq<Request>, i: nat)
    requires i < |queue|
    ensures |DrainAll(toggles, events, queue).answered| == |queue|
    ensures var before := DrainAll(toggles, events, queue[..i]);
            DrainAll(toggles, events, queue).answered[i]
              == Exchange(queue[i], Resolve(before.toggles, before.events, queue[i]).response)
  {
    DrainAnswersInOrder(toggles, events, queue);
    DrainSplits(toggles, events, queue[..i], queue[i..]);
    assert queue[..i] + queue[i..] == queue;
    DrainAnswersInOrder(toggles, events, queue[..i]);
    var before := DrainAll(toggles, events, queue[..i]);
    assert queue[i..][0] == queue[i];
  }

  /** Resolving the same toggle request twice restores the registry; the second answer reports the original flag. */
  lemma ToggleTwiceRestores(toggles: seq<bool>, events: nat, request: Request)
    requires RouteOf(request.httpMethod, request.localPath) == ToggleObject
    requires AcceptsJson(request.contentType) && request.parsedIndex.Some? && |toggles| > 0
    ensures var first := Resolve(toggles, events, request);
            var second := Resolve(first.toggles, first.events, request);
            second.toggles == toggles
            && second.response.body == Some(ToggleStatus(first.response.body.value.index,
                                                         toggles[first.response.body.value.index]))
  {
  }

  /** Three inactive targets; `{"index":1}` twice answers `{1, true}` then `{1, false}`. */
  lemma ThreeTargetScenario()
    ensures var request := Request("POST", "/toggleObject", Some(JsonContentType), Some(1));
            var first := Resolve([false, false, false], 0, request);
            var second := Resolve(first.toggles, first.events, request);
            first.response.body == Some(ToggleStatus(1, true))
            && first.toggles == [false, true, false]
            && second.response.body == Some(ToggleStatus(1, false))
            && second.toggles == [false, false, false]
  {
  }
}
