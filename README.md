# Unity HTTP command channel, modelled in Dafny

This project models the two small state machines at the core of a Unity HTTP
command channel, and proves properties of them.

- **The server.** `UnityHttpServer` runs an `HttpListener` on a background
  thread. Its callback puts each accepted request at the back of a FIFO queue.
  A Unity coroutine drains that queue on the main thread and resolves each
  request. Resolving a request means dispatching on the exact (method, path)
  pair:
  - `GET /ping` only acknowledges.
  - `GET /executeEvents` invokes a `UnityEvent`.
  - `POST /toggleObject` needs content type exactly `application/json`. It
    reads an index, clamps it with `Mathf.Clamp` into the bounds of the
    `toggleObjects` list, flips that object's active flag and answers the
    JSON `{index, active}`.

  Every request whose handler returns gets status 200, has the same four
  CORS headers appended and gets a closed response. This holds for unknown
  routes and for an exception caught inside the toggle handler too.
- **The client.** `UnityHttpClient` holds a run flag, a nullable `HttpClient`
  and the base URL `http://{url}:{port}`. It issues `GET /ping`,
  `GET /executeEvents` and `POST /toggleObject` with a JSON body
  `{"index": i}`. Each awaited completion goes into a FIFO response queue,
  which a coroutine drains.

The Dafny modules follow these parts:

| module | file | what it holds |
|---|---|---|
| `Common` | common.dfy | shared types (Option, headers, the two payload shapes); decimal formatting of the port, with its inverse; the base URL; the local path a listener reports for a URI |
| `Router` | router.dfy | the request handler as pure functions (`RouteOf`, `Clamp`, `TryToggle`, `Resolve`), the drain of a whole queue (`DrainAll`), and lemmas about them |
| `Server` | server.dfy | class `UnityHttpServer`: run flag, listener, request queue, toggle registry, event counter and answered exchanges; its methods are proved against `Router` |
| `Client` | client.dfy | the request builders, and class `UnityHttpClient`: run flag, client handle, base URL, response queue, calls in flight |
| `Protocol` | protocol.dfy | the wire between the two: a client request as the server's router sees it, and the round-trip lemmas |

Some parts are environment events or abstract values:

- The listener callback is the method `Enqueue`.
- An awaited HTTP completion is the method `Complete`.
- One coroutine pass is the method `DrainOnce`.
- Whether `HttpListener.Start` succeeds is the parameter `started` of
  `InitializeServer`.
- The JSON decoder's result is the request field `parsedIndex`. It is `None`
  when the decoder throws.
- `exampleEvents` is a counter of invocations.
- The active flags of `toggleObjects` are a `seq<bool>`.

### Behaviour of the code worth knowing

- `StopServer` and `StopClient` leave the queue as it is; the next start
  replaces it with a fresh, empty one.
- The client's `async void` senders have no try/catch. A call that fails in
  transport enqueues nothing: `Complete` with `None`. How the exception then
  surfaces in Unity is left out.
- `_responses.Enqueue(await ...)` reads `_responses` before the await. A call
  issued before a stop-and-restart therefore completes into the queue it was
  issued against, and that queue is never drained again. `Complete` models
  this with a queue generation number.
- `InitializeServer` sets the run flag only after `_listener.Start()`
  returns. A listener that throws leaves the server down with its old queue,
  and the exception goes to the caller.
- `ServerCallback` enqueues without checking the run flag. A stopped listener
  delivers no more contexts, so `Enqueue` is a no-op while the server is down.

## Model

| member | source | states |
|---|---|---|
| Common.DecimalString | UnityHttpClientProject/Assets/Scripts/Client/UnityHttpClient.cs:61 | the port text is non-empty, has only digits after an optional leading '-', starts with '-' exactly for a negative port, and has no leading zero unless it is the single digit "0" |
| Common.DecimalRoundTrip | UnityHttpClientProject/Assets/Scripts/Client/UnityHttpClient.cs:61 | reading the formatted port back gives the same number |
| Common.BaseUrl | UnityHttpClientProject/Assets/Scripts/Client/UnityHttpClient.cs:61 | the base URL is "http://", then the host, then ':', then exactly the decimal text of the port, which reads back as the port |
| Common.LocalPath | UnityHttpServerProject/Assets/Scripts/Server/UnityHttpServer.cs:145 | the local path of a URI always starts with '/' |
| Common.LocalPathOfBaseUrl | UnityHttpServerProject/Assets/Scripts/Server/UnityHttpServer.cs:145 | for a host without '/', a route appended to the base URL is exactly the local path the listener reports |
| Router.AcceptsJson | UnityHttpServerProject/Assets/Scripts/Server/UnityHttpServer.cs:223 | the body is decoded as a toggle command only when the content type is present and exactly "application/json"; the body itself is read for every request |
| Router.RouteOf | UnityHttpServerProject/Assets/Scripts/Server/UnityHttpServer.cs:167-270 | each of the three handlers is selected if and only if the method and path are exactly its pair; everything else is unmatched |
| Router.Clamp | UnityHttpServerProject/Assets/Scripts/Server/UnityHttpServer.cs:240 | below min the result is min; at or above min and above max it is max; otherwise it is the value. So a non-empty range gives a result in [min, max], the value itself when in range and N-1 for N+5; an empty registry gets 0 for a negative index and -1 otherwise |
| Router.TryToggle | UnityHttpServerProject/Assets/Scripts/Server/UnityHttpServer.cs:229-263 | the try block finishes if and only if the body parsed and the registry is non-empty; then it reports the clamped index, which is in range and is the index itself when in range, and the negated flag; otherwise the exception is caught |
| Router.ApplyToggle | UnityHttpServerProject/Assets/Scripts/Server/UnityHttpServer.cs:243-246 | only the reported entry takes the reported flag; every other entry and the size are unchanged |
| Router.Resolve | UnityHttpServerProject/Assets/Scripts/Server/UnityHttpServer.cs:141-281 | on every branch: status 200, the four CORS headers appended, closed; the event counter rises by exactly one only for GET /executeEvents; a body only for a completed JSON toggle, reporting the clamped index and its negated flag; an entry changes if and only if it is the reported one |
| Router.DrainAll | UnityHttpServerProject/Assets/Scripts/Server/UnityHttpServer.cs:133-137 | draining a queue answers exactly as many exchanges as there are queued requests |
| Router.DrainAnswersInOrder | UnityHttpServerProject/Assets/Scripts/Server/UnityHttpServer.cs:133-137 | a drain answers exactly one exchange per queued request, the i-th for the i-th request |
| Router.DrainFinalizesEveryResponse | UnityHttpServerProject/Assets/Scripts/Server/UnityHttpServer.cs:274-280 | every exchange a drain answers has status 200, the four CORS headers and a closed response |
| Router.DrainCountsEvents | UnityHttpServerProject/Assets/Scripts/Server/UnityHttpServer.cs:196 | a drain invokes the event callback once per GET /executeEvents in the queue and keeps the registry's size |
| Router.DrainWithoutToggleKeepsRegistry | UnityHttpServerProject/Assets/Scripts/Server/UnityHttpServer.cs:167-270 | a queue with no POST /toggleObject request leaves the registry unchanged |
| Router.DrainSplits | UnityHttpServerProject/Assets/Scripts/Server/UnityHttpServer.cs:126-139 | draining a and then b on a later pass has the same effect as draining a + b at once |
| Router.DrainSerializes | UnityHttpServerProject/Assets/Scripts/Server/UnityHttpServer.cs:133-137 | the i-th answer is what resolving the i-th request gives in the state the earlier requests left |
| Router.ToggleTwiceRestores | UnityHttpServerProject/Assets/Scripts/Server/UnityHttpServer.cs:243-256 | the same toggle resolved twice restores the registry, and the second answer reports the original flag |
| Router.ThreeTargetScenario | UnityHttpServerProject/Assets/Scripts/Server/UnityHttpServer.cs:229-258 | three inactive targets: index 1 answers (1, true) and activates only target 1; a second time answers (1, false) and restores them |
| Server.ServerPrefix | UnityHttpServerProject/Assets/Scripts/Server/UnityHttpServer.cs:64 | the listener prefix is the base URL followed by a single '/', and for a host without '/' it covers the root local path "/" |
| Server.UnityHttpServer.constructor | UnityHttpServerProject/Assets/Scripts/Server/UnityHttpServer.cs:19-35 | a new server is down, with an empty queue, no answered requests, zero event invocations and the given registry |
| Server.UnityHttpServer.InitializeServer | UnityHttpServerProject/Assets/Scripts/Server/UnityHttpServer.cs:59-84 | when up, or when the listener fails to start (the exception then goes to the caller before the run flag is set), it changes nothing; otherwise the server is up, listening on "http://host:port/", with a fresh, empty queue; the registry is untouched |
| Server.UnityHttpServer.StopServer | UnityHttpServerProject/Assets/Scripts/Server/UnityHttpServer.cs:86-95 | when down it changes nothing; otherwise the server is down and no listener runs; queue and registry are untouched |
| Server.UnityHttpServer.Enqueue | UnityHttpServerProject/Assets/Scripts/Server/UnityHttpServer.cs:114-120 | while up, the request goes to the back of the queue; otherwise the queue is unchanged |
| Server.UnityHttpServer.ResolveRequest | UnityHttpServerProject/Assets/Scripts/Server/UnityHttpServer.cs:141-281 | the registry, the event counter and the answered response are exactly those of `Router.Resolve` |
| Server.UnityHttpServer.DrainOnce | UnityHttpServerProject/Assets/Scripts/Server/UnityHttpServer.cs:126-139 | while up, it leaves the queue empty, with registry, counter and answers those of `Router.DrainAll` on the old queue; a stopped coroutine changes nothing |
| Client.GetRequest | UnityHttpClientProject/Assets/Scripts/Client/UnityHttpClient.cs:125 | a GET to exactly the given URI, with no body and no content type |
| Client.PostRequest | UnityHttpClientProject/Assets/Scripts/Client/UnityHttpClient.cs:140-147 | a POST to exactly the given URI, with content type application/json and the command as body |
| Client.PingRequest | UnityHttpClientProject/Assets/Scripts/Client/UnityHttpClient.cs:112 | a bodiless GET whose URI is the base URL followed by "/ping" |
| Client.ExecuteEventsRequest | UnityHttpClientProject/Assets/Scripts/Client/UnityHttpClient.cs:116 | a bodiless GET whose URI is the base URL followed by "/executeEvents" |
| Client.ToggleObjectRequest | UnityHttpClientProject/Assets/Scripts/Client/UnityHttpClient.cs:131-132 | a JSON POST of {index = i} whose URI is the base URL followed by "/toggleObject" |
| Client.UnityHttpClient.constructor | UnityHttpClientProject/Assets/Scripts/Client/UnityHttpClient.cs:18-31 | a new client is down, with no client handle, empty queues and no calls in flight |
| Client.UnityHttpClient.InitializeClient | UnityHttpClientProject/Assets/Scripts/Client/UnityHttpClient.cs:55-71 | when up it changes nothing; otherwise it has a fresh client, the base URL "http://url:port", up = true and a new, empty response queue |
| Client.UnityHttpClient.StopClient | UnityHttpClientProject/Assets/Scripts/Client/UnityHttpClient.cs:73-81 | when down it changes nothing; otherwise client = null and up = false, with the response queue untouched |
| Client.UnityHttpClient.SendGet | UnityHttpClientProject/Assets/Scripts/Client/UnityHttpClient.cs:119-126 | with a null client no call is issued; otherwise one GET to the URI is issued against the current queue |
| Client.UnityHttpClient.SendPost | UnityHttpClientProject/Assets/Scripts/Client/UnityHttpClient.cs:135-148 | with a null client no call is issued; otherwise one JSON POST of the command is issued against the current queue |
| Client.UnityHttpClient.SendPing | UnityHttpClientProject/Assets/Scripts/Client/UnityHttpClient.cs:110-113 | issues the ping request on the base URL, or nothing with a null client |
| Client.UnityHttpClient.SendExecuteEvents | UnityHttpClientProject/Assets/Scripts/Client/UnityHttpClient.cs:114-117 | issues the executeEvents request on the base URL, or nothing with a null client |
| Client.UnityHttpClient.SendToggleObject | UnityHttpClientProject/Assets/Scripts/Client/UnityHttpClient.cs:128-133 | issues the toggleObject POST for the index on the base URL, or nothing with a null client |
| Client.UnityHttpClient.Complete | UnityHttpClientProject/Assets/Scripts/Client/UnityHttpClient.cs:119-148 | the completed call leaves the calls in flight; its response goes to the back of the queue when that is still the queue it was issued against; a failure enqueues nothing |
| Client.UnityHttpClient.ResolveResponse | UnityHttpClientProject/Assets/Scripts/Client/UnityHttpClient.cs:102-107 | the response is recorded as resolved, once |
| Client.UnityHttpClient.DrainOnce | UnityHttpClientProject/Assets/Scripts/Client/UnityHttpClient.cs:87-100 | while up, it empties the queue and resolves each response once, front first; a stopped coroutine changes nothing |
| Protocol.ClientCommandsSelectTheirRoutes | UnityHttpClientProject/Assets/Scripts/Client/UnityHttpClient.cs:110-133 | for a host without '/', the client's ping, executeEvents and toggleObject requests select the server's routes of the same names, and the toggle carries a JSON content type and the index |
| Protocol.ToggleRoundTrip | UnityHttpServerProject/Assets/Scripts/Server/UnityHttpServer.cs:229-258 | a client toggle for i on a non-empty registry is answered 200 with (clamp(i, 0, N-1), the negated old flag); only that entry flips and no event runs |
| Protocol.ExecuteEventsRoundTrip | UnityHttpServerProject/Assets/Scripts/Server/UnityHttpServer.cs:185-198 | the client's executeEvents runs the event callback once, keeps the registry and gets 200 with no body |
| Protocol.PingRoundTrip | UnityHttpServerProject/Assets/Scripts/Server/UnityHttpServer.cs:173-184 | the client's ping changes neither registry nor counter and gets 200 with no body |

## Left out

- Threads and async completions are left out. This covers the server thread,
  `Thread.Abort`, the `async`/`await` continuations and the unsynchronised
  `Queue<T>` shared between threads. Each enqueue is one atomic environment
  call, and thread safety is not verified. That includes the window in
  `InitializeServer` where the thread starts before the queue is created.
- `HttpListener`, `HttpClient`, `BeginGetContext`/`EndGetContext` and the
  sockets are network I/O. Requests and responses are plain records. The
  request URI becomes a local path by a simplified rule: no query strings, no
  percent-decoding.
- `Common.LocalPath` does not model how the listener parses a URL in general;
  it covers only what the client sends.
- The JSON codecs are library code: `JsonUtility`, `JObject`/`JsonConvert`,
  `StreamReader` and UTF-8 encoding. The server sees the decoder's result as
  `Option<int>`, and a body crosses the wire as the structured payload.
  `ContentLength64` and the body's byte count are not modelled.
- Router.Resolve: entries are taken as distinct objects, and a failure while
  writing the body after the flip is not modelled. `toggleObjects` may hold
  the same object at two indices, and `SetActive` would then flip both. An
  exception after `SetActive`, such as a write to a dropped connection, would
  leave the entry flipped with no body written.
- Server.UnityHttpServer.DrainOnce / ResolveRequest: an exception outside the
  try (reading the body, an `exampleEvents` listener, `Response.Close`) ends
  the coroutine while the server stays up; the model assumes every handler
  returns. In the source the failing request then gets no CORS headers and
  no close, and later requests pile up unanswered in the queue until
  `StopServer` and `InitializeServer` run.
- Whether the listener has already flushed the headers when the toggle body
  is written before the CORS headers are appended is not modelled. The model
  records the headers appended to the response object.
- Unity's scheduling is left out: coroutines, `WaitUntil`, `StartCoroutine`
  and `StopAllCoroutines`. One coroutine pass is `DrainOnce`, and it is a
  no-op while the bridge is down.
- Logging is presentation: `Debug.Log`, `DebugMessage`, and what
  `ResolveResponse` prints. `ResolveResponse` only records the response it
  handles.
- Engine glue is left out: the `Awake` singleton, `Destroy`, `Start` with
  `initServerOnStart`/`initClientOnStart`, and `GameObject`/`UnityEvent`
  beyond an active flag and an invocation count. A null entry in
  `toggleObjects` is not modelled.
- The two inspector editor files only call the public methods. They are not
  part of this model.
- Integer width: C# `int` is 32-bit, but the source does no arithmetic on the
  index or the port that could overflow. The clamp compares with
  `Count - 1`, which is at least -1. So unbounded integers are used.
