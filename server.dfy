/**
 The server bridge: a run flag, the listener, the FIFO queue of requests the
 listener hands over, the registry of toggle targets and the example event
 callback, with the lifecycle, the enqueue done by the listener callback, the
 coroutine's drain and the request handler.
 */
module Server {
  import opened Common
  import opened Router

  /** `$"http://{url}:{port}/"`, the prefix the listener is started on. */
  function ServerPrefix(host: string, port: int): (p: string)
    ensures |p| > 0 && p[|p| - 1] == '/' && p[..|p| - 1] == BaseUrl(host, port)
    // for a host without '/', the prefix covers the root local path
    ensures '/' !in host ==> LocalPath(p) == "/"
  {
    var p := BaseUrl(host, port) + "/";
    assert p[..|p| - 1] == BaseUrl(host, port);
    if '/' !in host then LocalPathOfBaseUrl(host, port, "/"); p else p
  }

  class UnityHttpServer {
    const host: string
    const port: int
    /** `_serverIsUp`. */
    var up: bool
    /** The prefix the listener accepts connections on, `None` while no listener runs. */
    var listening: Option<string>
    /** `_requests`, front first. */
    var requests: seq<Request>
    /** The active flags of `toggleObjects`, by index. */
    var toggles: seq<bool>
    /** How many times `exampleEvents` has been invoked. */
    var eventInvocations: nat
    /** Every request answered so far, with the response it was closed with, in order. */
    var answered: seq<Exchange>

    ghost predicate Valid()
      reads this
    {
      up <==> listening == Some(ServerPrefix(host, port))
    }

    constructor (host: string, port: int, toggles: seq<bool>)
      ensures Valid()
      ensures this.host == host && this.port == port && this.toggles == toggles
      ensures !up && requests == [] && eventInvocations == 0 && answered == []
    {
      this.host := host;
      this.port := port;
      this.toggles := toggles;
      up := false;
      listening := None;
      requests := [];
      eventInvocations := 0;
      answered := [];
    }

    /**
     Starts the listener and a fresh, empty request queue; does nothing when
     already up. `started` is whether the listener accepts the prefix and
     starts: when it throws, the server stays down and nothing else happens.
     */
    method InitializeServer(started: bool)
      requires Valid()
      modifies this
      ensures Valid()
      ensures old(up) || !started ==> unchanged(this)
      ensures !old(up) && started ==> up && requests == [] && listening == Some(ServerPrefix(host, port))
      ensures toggles == old(toggles) && eventInvocations == old(eventInvocations) && answered == old(answered)
    {
      if up { return; }
      if !started { return; }
      listening := Some(ServerPrefix(host, port));
      up := true;
      requests := [];
    }

    /** Stops the listener; does nothing when already down. */
    method StopServer()
      requires Valid()
      modifies this
      ensures Valid()
      ensures old(up) ==> !up && listening == None
      ensures !old(up) ==> unchanged(this)
      ensures requests == old(requests) && toggles == old(toggles)
      ensures eventInvocations == old(eventInvocations) && answered == old(answered)
    {
      if !up { return; }
      listening := None;
      up := false;
    }

    /**
     The listener callback: puts an accepted request at the back of the queue.
     A stopped listener delivers nothing, so it is a no-op while the server is down.
     */
    method Enqueue(request: Request)
      requires Valid()
      modifies this`requests
      ensures Valid()
      ensures requests == if up then old(requests) + [request] else old(requests)
    {
      if up {
        requests := requests + [request];
      }
    }

    /** Handles one request: dispatch, toggle, event callback, status, CORS headers and close. */
    method ResolveRequest(request: Request)
      requires Valid()
      modifies this`toggles, this`eventInvocations, this`answered
      ensures Valid()
      ensures var e := Resolve(old(toggles), old(eventInvocations), request);
              toggles == e.toggles && eventInvocations == e.events
              && answered == old(answered) + [Exchange(request, e.response)]
    {
      var response := Response(200, [], None, false);
      match RouteOf(request.httpMethod, request.localPath) {
        case Ping =>
        case ExecuteEvents =>
          eventInvocations := eventInvocations + 1;
        case ToggleObject =>
          if request.contentType.Some? && request.contentType.value == JsonContentType {
            match request.parsedIndex {
              case None =>
                // the decoder threw; the exception is caught and nothing is written
              case Some(index) =>
                var clamped := Clamp(index, 0, |toggles| - 1);
                if 0 <= clamped < |toggles| {
                  var active := !toggles[clamped];
                  toggles := toggles[clamped := active];
                  response := response.(body := Some(ToggleStatus(clamped, active)));
                }
                // otherwise the registry access threw and the exception is caught
            }
          }
        case Unmatched =>
      }
      response := response.(headers := response.headers + [CorsHeaders[0]]);
      response := response.(headers := response.headers + [CorsHeaders[1]]);
      response := response.(headers := response.headers + [CorsHeaders[2]]);
      response := response.(headers := response.headers + [CorsHeaders[3]]);
      assert response.headers == CorsHeaders;
      response := response.(closed := true);
      answered := answered + [Exchange(request, response)];
    }

    /**
     One pass of the server coroutine: while up, resolves queued requests front
     first until the queue is empty; a stopped coroutine does nothing.
     */
    method DrainOnce()
      requires Valid()
      modifies this
      ensures Valid()
      ensures old(up) ==>
                var d := DrainAll(old(toggles), old(eventInvocations), old(requests));
                requests == [] && toggles == d.toggles && eventInvocations == d.events
                && answered == old(answered) + d.answered
      ensures !old(up) ==> unchanged(this)
      ensures up == old(up) && listening == old(listening)
    {
      if !up { return; }
      ghost var goal := DrainAll(toggles, eventInvocations, requests);
      while |requests| > 0
        invariant Valid()
        invariant up == old(up) && listening == old(listening)
        invariant var d := DrainAll(toggles, eventInvocations, requests);
                  d.toggles == goal.toggles && d.events == goal.events
                  && answered + d.answered == old(answered) + goal.answered
        decreases |requests|
      {
        var request := requests[0];
        requests := requests[1..];
        ResolveRequest(request);
      }
    }
  }
}
