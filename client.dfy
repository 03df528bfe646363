/**
 The client bridge: a run flag, a nullable HTTP client handle, the base URL,
 the FIFO queue of completed responses and the calls still awaiting their
 completion, with the lifecycle, the three commands, the GET and POST
 senders, the completion that enqueues, and the coroutine's drain.
 */
module Client {
  import opened Common

  /** One outbound HTTP call as it leaves the client. */
  datatype OutboundRequest = OutboundRequest(
    httpMethod: string,
    uri: string,
    contentType: Option<string>,
    body: Option<ToggleCommand>)

  /** A completed call's response message, as far as the client looks at it. */
  datatype ResponseMessage = ResponseMessage(status: int, body: Option<ToggleStatus>)

  /**
   A call whose completion is still awaited. `queueGeneration` names the
   response queue its continuation will enqueue into: the receiver of the enqueue
   is read before the call is awaited.
   */
  datatype PendingCall = PendingCall(request: OutboundRequest, queueGeneration: nat)

  /** What a GET sends: no body, no content type. */
  function GetRequest(uri: string): (r: OutboundRequest)
    ensures r.httpMethod == "GET" && r.uri == uri && r.body == None && r.contentType == None
  {
    OutboundRequest("GET", uri, None, None)
  }

  /** What a POST sends: the serialised object as a JSON body. */
  function PostRequest(uri: string, command: ToggleCommand): (r: OutboundRequest)
    ensures r.httpMethod == "POST" && r.uri == uri
    ensures r.contentType == Some("application/json") && r.body == Some(command)
  {
    OutboundRequest("POST", uri, Some(JsonContentType), Some(command))
  }

  /** A bodiless GET to the base URL followed by "/ping". */
  function PingRequest(baseUrl: string): (r: OutboundRequest)
    ensures r.httpMethod == "GET" && r.body == None && r.contentType == None
    ensures |r.uri| > |baseUrl| && r.uri[..|baseUrl|] == baseUrl && r.uri[|baseUrl|..] == "/ping"
  {
    var r := GetRequest(baseUrl + "/ping");
    assert r.uri[|baseUrl|..] == "/ping";
    r
  }

  /** A bodiless GET to the base URL followed by "/executeEvents". */
  function ExecuteEventsRequest(baseUrl: string): (r: OutboundRequest)
    ensures r.httpMethod == "GET" && r.body == None && r.contentType == None
    ensures |r.uri| > |baseUrl| && r.uri[..|baseUrl|] == baseUrl && r.uri[|baseUrl|..] == "/executeEvents"
  {
    var r := GetRequest(baseUrl + "/executeEvents");
    assert r.uri[|baseUrl|..] == "/executeEvents";
    r
  }

  /** A JSON POST of `{"index": index}` to the base URL followed by "/toggleObject". */
  function ToggleObjectRequest(baseUrl: string, index: int): (r: OutboundRequest)
    ensures r.httpMethod == "POST" && r.contentType == Some("application/json")
    ensures r.body == Some(ToggleCommand(index))
    ensures |r.uri| > |baseUrl| && r.uri[..|baseUrl|] == baseUrl && r.uri[|baseUrl|..] == "/toggleObject"
  {
    var r := PostRequest(baseUrl + "/toggleObject", ToggleCommand(index));
    assert r.uri[|baseUrl|..] == "/toggleObject";
    r
  }

  /** The `HttpClient` object; only its identity matters here. */
  class HttpClientHandle {
    constructor () {}
  }

  class UnityHttpClient {
    const host: string
    const port: int
    /** `_clientIsUp`. */
    var up: bool
    /** `_client`, null while stopped. */
    var client: HttpClientHandle?
    /** `_formattedUrl`. */
    var formattedUrl: string
    /** `_responses`, front first. */
    var responses: seq<ResponseMessage>
    /** Which response queue `responses` is; each start creates a new one. */
    var queueGeneration: nat
    /** Calls issued and not yet completed, oldest first. */
    var inFlight: seq<PendingCall>
    /** Every response the coroutine has resolved, in order. */
    var resolved: seq<ResponseMessage>

    ghost predicate Valid()
      reads this
    {
      (client != null <==> up)
      && (up ==> formattedUrl == BaseUrl(host, port))
    }

    constructor (host: string, port: int)
      ensures Valid()
      ensures this.host == host && this.port == port
      ensures !up && client == null && responses == [] && inFlight == [] && resolved == []
    {
      this.host := host;
      this.port := port;
      up := false;
      client := null;
      formattedUrl := "";
      responses := [];
      queueGeneration := 0;
      inFlight := [];
      resolved := [];
    }

    /** Creates the client, formats the base URL and starts a fresh, empty queue; does nothing when already up. */
    method InitializeClient()
      requires Valid()
      modifies this
      ensures Valid()
      ensures old(up) ==> unchanged(this)
      ensures !old(up) ==> up && client != null && fresh(client)
                           && formattedUrl == BaseUrl(host, port)
                           && responses == [] && queueGeneration == old(queueGeneration) + 1
      ensures inFlight == old(inFlight) && resolved == old(resolved)
    {
      if up { return; }
      client := new HttpClientHandle();
      formattedUrl := BaseUrl(host, port);
      up := true;
      responses := [];
      queueGeneration := queueGeneration + 1;
    }

    /** Drops the client; the response queue and the calls in flight are left alone. Does nothing when already down. */
    method StopClient()
      requires Valid()
      modifies this
      ensures Valid()
      ensures old(up) ==> !up && client == null
      ensures !old(up) ==> unchanged(this)
      ensures formattedUrl == old(formattedUrl) && responses == old(responses)
      ensures queueGeneration == old(queueGeneration) && inFlight == old(inFlight) && resolved == old(resolved)
    {
      if !up { return; }
      client := null;
      up := false;
    }

    /** Issues a GET to `uri`; with no client it issues nothing. */
    method SendGet(uri: string)
      requires Valid()
      modifies this`inFlight
      ensures Valid()
      ensures inFlight == if client == null then old(inFlight)
                          else old(inFlight) + [PendingCall(GetRequest(uri), queueGeneration)]
    {
      if client == null { return; }
      inFlight := inFlight + [PendingCall(GetRequest(uri), queueGeneration)];
    }

    /** Issues a POST of `command` as JSON to `uri`; with no client it issues nothing. */
    method SendPost(uri: string, command: ToggleCommand)
      requires Valid()
      modifies this`inFlight
      ensures Valid()
      ensures inFlight == if client == null then old(inFlight)
                          else old(inFlight) + [PendingCall(PostRequest(uri, command), queueGeneration)]
    {
      if client == null { return; }
      inFlight := inFlight + [PendingCall(PostRequest(uri, command), queueGeneration)];
    }

    method SendPing()
      requires Valid()
      modifies this`inFlight
      ensures Valid()
      ensures inFlight == if client == null then old(inFlight)
                          else old(inFlight) + [PendingCall(PingRequest(formattedUrl), queueGeneration)]
    {
      SendGet(formattedUrl + "/ping");
    }

    method SendExecuteEvents()
      requires Valid()
      modifies this`inFlight
      ensures Valid()
      ensures inFlight == if client == null then old(inFlight)
                          else old(inFlight) + [PendingCall(ExecuteEventsRequest(formattedUrl), queueGeneration)]
    {
      SendGet(formattedUrl + "/executeEvents");
    }

    method SendToggleObject(index: int)
      requires Valid()
      modifies this`inFlight
      ensures Valid()
      ensures inFlight == if client == null then old(inFlight)
                          else old(inFlight) + [PendingCall(ToggleObjectRequest(formattedUrl, index), queueGeneration)]
    {
      SendPost(formattedUrl + "/toggleObject", ToggleCommand(index));
    }

    /**
     The awaited call `k` completes: with a response (`Some`) or a transport
     failure (`None`). A response goes to the back of the queue it was issued
     against; when that queue has since been replaced, it is never drained.
     */
    method Complete(k: nat, outcome: Option<ResponseMessage>)
      requires Valid()
      requires k < |inFlight|
      modifies this`inFlight, this`responses
      ensures Valid()
      ensures inFlight == old(inFlight)[..k] + old(inFlight)[k + 1..]
      ensures responses == if outcome.Some? && old(inFlight)[k].queueGeneration == queueGeneration
                           then old(responses) + [outcome.value]
                           else old(responses)
    {
      var call := inFlight[k];
      inFlight := inFlight[..k] + inFlight[k + 1..];
      if outcome.Some? && call.queueGeneration == queueGeneration {
        responses := responses + [outcome.value];
      }
    }

    /** Resolves one response; resolving only reports it, so it is recorded. */
    method ResolveResponse(response: ResponseMessage)
      modifies this`resolved
      ensures resolved == old(resolved) + [response]
    {
      resolved := resolved + [response];
    }

    /**
     One pass of the client coroutine: while up, resolves queued responses front
     first until the queue is empty; a stopped coroutine does nothing.
     */
    method DrainOnce()
      requires Valid()
      modifies this
      ensures Valid()
      ensures old(up) ==> responses == [] && resolved == old(resolved) + old(responses)
      ensures !old(up) ==> unchanged(this)
      ensures up == old(up) && client == old(client) && formattedUrl == old(formattedUrl)
      ensures queueGeneration == old(queueGeneration) && inFlight == old(inFlight)
    {
      if !up { return; }
      while |responses| > 0
        invariant Valid()
        invariant up == old(up) && client == old(client) && formattedUrl == old(formattedUrl)
        invariant queueGeneration == old(queueGeneration) && inFlight == old(inFlight)
        invariant resolved + responses == old(resolved) + old(responses)
        decreases |responses|
      {
        var response := responses[0];
        responses := responses[1..];
        ResolveResponse(response);
      }
    }
  }
}
