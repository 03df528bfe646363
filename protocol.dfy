/**
 The wire between the two bridges: how a request the client builds arrives
 at the server's router, and how the server's response arrives back as a
 response message. The JSON codecs are taken as lossless on the two payload
 shapes, so a body crosses the wire as the structured value it encodes.
 */
module Protocol {
  import opened Common
  import opened Router
  import opened Client

  /** The request the listener hands over for an outbound request of the client. */
  function Deliver(request: OutboundRequest): Router.Request {
    Router.Request(
      request.httpMethod,
      LocalPath(request.uri),
      request.contentType,
      match request.body
      case Some(command) => Some(command.index)
      case None => None)
  }

  /** The response message the client receives for a closed server response. */
  function Transmit(response: Router.Response): ResponseMessage {
    ResponseMessage(response.status, response.body)
  }

  /** Each of the client's three commands selects the server route of the same name. */
  lemma ClientCommandsSelectTheirRoutes(host: string, port: int, index: int)
    requires '/' !in host
    ensures RouteOf(Deliver(PingRequest(BaseUrl(host, port))).httpMethod,
                    Deliver(PingRequest(BaseUrl(host, port))).localPath) == Ping
    ensures RouteOf(Deliver(ExecuteEventsRequest(BaseUrl(host, port))).httpMethod,
                    Deliver(ExecuteEventsRequest(BaseUrl(host, port))).localPath) == ExecuteEvents
    ensures var r := Deliver(ToggleObjectRequest(BaseUrl(host, port), index));
            RouteOf(r.httpMethod, r.localPath) == ToggleObject
            && AcceptsJson(r.contentType) && r.parsedIndex == Some(index)
  {
    LocalPathOfBaseUrl(host, port, "/ping");
    LocalPathOfBaseUrl(host, port, "/executeEvents");
    LocalPathOfBaseUrl(host, port, "/toggleObject");
  }

  /**
   Sending a toggle for `index` to a server whose registry is non-empty flips
   the entry at the clamped index and answers 200 with that index and its new
   flag; nothing else in the registry and no event changes.
   */
  lemma ToggleRoundTrip(host: string, port: int, index: int, toggles: seq<bool>, events: nat)
    requires '/' !in host
    requires |toggles| > 0
    ensures var clamped := Clamp(index, 0, |toggles| - 1);
            var e := Resolve(toggles, events, Deliver(ToggleObjectRequest(BaseUrl(host, port), index)));
            0 <= clamped < |toggles|
            && Transmit(e.response) == ResponseMessage(200, Some(ToggleStatus(clamped, !toggles[clamped])))
            && e.toggles == toggles[clamped := !toggles[clamped]]
            && e.events == events
  {
    ClientCommandsSelectTheirRoutes(host, port, index);
    var clamped := Clamp(index, 0, |toggles| - 1);
    var e := Resolve(toggles, events, Deliver(ToggleObjectRequest(BaseUrl(host, port), index)));
    assert e.toggles == toggles[clamped := !toggles[clamped]];
  }

  /** A `GET /executeEvents` from the client runs the event callback once and answers 200 with no body. */
  lemma ExecuteEventsRoundTrip(host: string, port: int, toggles: seq<bool>, events: nat)
    requires '/' !in host
    ensures var e := Resolve(toggles, events, Deliver(ExecuteEventsRequest(BaseUrl(host, port))));
            e.events == events + 1 && e.toggles == toggles && Transmit(e.response) == ResponseMessage(200, None)
  {
    ClientCommandsSelectTheirRoutes(host, port, 0);
  }

  /** A `GET /ping` from the client changes nothing on the server and answers 200 with no body. */
  lemma PingRoundTrip(host: string, port: int, toggles: seq<bool>, events: nat)
    requires '/' !in host
    ensures var e := Resolve(toggles, events, Deliver(PingRequest(BaseUrl(host, port))));
            e.events == events && e.toggles == toggles && Transmit(e.response) == ResponseMessage(200, None)
  {
    ClientCommandsSelectTheirRoutes(host, port, 0);
  }
}
