/** The server's decision logic: whether it runs as "production", the
    downstream WebSocket URL handed out by `/api/config`, the status and
    body of the Synthflow session route, and the fan-out hub of downstream
    clients (`broadcastToDownstream` and the `message` handler of each
    client). The hub's clients are values indexed by their position in
    `wss.clients`; `excludeClient` is such an index. */
module Server {
  import opened Common

  // ---------------------------------------------------------------
  // Environment and /api/config
  // ---------------------------------------------------------------

  /** The environment variables the server reads at start-up. */
  datatype Environment = Environment(
    nodeEnv: Option<string>,
    websitesEnableAppServiceStorage: Option<string>,
    containerAppName: Option<string>,
    port: Option<string>)

  /** JavaScript truthiness of an optional string: set and non-empty. */
  predicate Truthy(o: Option<string>) {
    o.Some? && o.value != ""
  }

  /** `isProduction`: NODE_ENV is "production", or any of the three cloud
      variables is set to a non-empty value. */
  predicate IsProduction(env: Environment) {
    || env.nodeEnv == Some("production")
    || Truthy(env.websitesEnableAppServiceStorage)
    || Truthy(env.containerAppName)
    || Truthy(env.port)
  }

  /** Any non-empty PORT counts as production, even with NODE_ENV set to
      "development". */
  lemma PortMakesProduction(env: Environment)
    requires Truthy(env.port)
    ensures IsProduction(env)
  {
  }

  /** The request's scheme: the `x-forwarded-proto` header when it is set
      and non-empty, otherwise "https" on a TLS connection and "http"
      otherwise. */
  function RequestProtocol(forwardedProto: Option<string>, secure: bool): (protocol: string)
    ensures Truthy(forwardedProto) ==> protocol == forwardedProto.value
    ensures !Truthy(forwardedProto) ==> protocol in {"https", "http"} && (protocol == "https" <==> secure)
  {
    if Truthy(forwardedProto) then forwardedProto.value else if secure then "https" else "http"
  }

  /** The `downstreamWebSocketUrl` of `/api/config`: in production the
      same host as the request, over "wss" exactly when the request came
      over "https"; in development the fixed local server on port 8080. */
  function WebSocketUrl(isProduction: bool, host: string, forwardedProto: Option<string>, secure: bool): (url: string)
    ensures !isProduction ==> url == "ws://localhost:8080"
    ensures isProduction ==> url == (if RequestProtocol(forwardedProto, secure) == "https" then "wss" else "ws") + "://" + host
    ensures |url| >= 5 && (url[..4] == "wss:" <==> isProduction && RequestProtocol(forwardedProto, secure) == "https")
  {
    var protocol := RequestProtocol(forwardedProto, secure);
    var wsProtocol := if protocol == "https" then "wss" else "ws";
    var url := if isProduction then wsProtocol + "://" + host else "ws://localhost:8080";
    assert url[..4] == (if isProduction && protocol == "https" then "wss:" else "ws:/");
    url
  }

  /** Behind a proxy that forwards "http", a TLS connection still yields
      a plain "ws" URL: the header wins over the connection. */
  lemma ForwardedHeaderWins(host: string)
    ensures WebSocketUrl(true, host, Some("http"), true) == "ws://" + host
  {
  }

  // ---------------------------------------------------------------
  // /api/synthflow/session/:assistantId
  // ---------------------------------------------------------------

  /** The upstream error body, when the upstream answered: its `error`
      field and the body as a whole. */
  datatype UpstreamErrorData = UpstreamErrorData(error: Option<string>, body: string)

  /** The upstream response carried by an axios error. */
  datatype UpstreamResponse = UpstreamResponse(status: nat, data: Option<UpstreamErrorData>)

  /** The outcome of the token request to Synthflow: its body, or an
      error with its message and (when the upstream answered) its
      response. */
  datatype UpstreamOutcome =
    | UpstreamOk(data: string)
    | UpstreamFailed(response: Option<UpstreamResponse>, message: string)

  /** The `details` of an error reply. */
  datatype Details = UpstreamData(data: UpstreamErrorData) | NetworkOrAuthentication

  datatype ReplyBody =
    | Relayed(data: string)
    | ErrorOnly(error: string)
    | ErrorWithDetails(error: string, details: Details)

  datatype Reply = Reply(status: nat, body: ReplyBody)

  /** The status of a failed upstream request: the upstream status when
      there is one (and it is not 0), otherwise 500. */
  function UpstreamErrorStatus(response: Option<UpstreamResponse>): (status: nat)
    ensures response.Some? && response.value.status != 0 ==> status == response.value.status
    ensures response.None? || response.value.status == 0 ==> status == 500
  {
    if response.Some? && response.value.status != 0 then response.value.status else 500
  }

  /** The message of a failed upstream request: the upstream body's
      `error`, else the error's own message, else a fixed text; the first
      non-empty one wins. */
  function UpstreamErrorMessage(response: Option<UpstreamResponse>, message: string): (m: string)
    ensures m != ""
    ensures response.Some? && response.value.data.Some? && Truthy(response.value.data.value.error)
            ==> m == response.value.data.value.error.value
  {
    if response.Some? && response.value.data.Some? && Truthy(response.value.data.value.error)
    then response.value.data.value.error.value
    else if message != "" then message
    else "Failed to get session token"
  }

  /** The session route. The API key is checked before the assistant id,
      and only with both in place is the upstream asked. */
  function SessionRoute(apiKey: Option<string>, assistantId: string, upstream: UpstreamOutcome): (r: Reply)
    ensures !Truthy(apiKey) ==> r == Reply(500, ErrorOnly("Synthflow API key not configured"))
    ensures Truthy(apiKey) && assistantId == "" ==> r == Reply(400, ErrorOnly("Assistant ID is required"))
    ensures r.body.Relayed? <==> Truthy(apiKey) && assistantId != "" && upstream.UpstreamOk?
    ensures r.body.Relayed? ==> r.status == 200 && r.body.data == upstream.data
    ensures r.body.ErrorWithDetails? <==> Truthy(apiKey) && assistantId != "" && upstream.UpstreamFailed?
    ensures r.body.ErrorWithDetails? ==>
              && r.status == UpstreamErrorStatus(upstream.response)
              && r.body.error == UpstreamErrorMessage(upstream.response, upstream.message)
              && (r.body.details.UpstreamData? <==> upstream.response.Some? && upstream.response.value.data.Some?)
  {
    if !Truthy(apiKey) then Reply(500, ErrorOnly("Synthflow API key not configured"))
    else if assistantId == "" then Reply(400, ErrorOnly("Assistant ID is required"))
    else match upstream
      case UpstreamOk(data) => Reply(200, Relayed(data))
      case UpstreamFailed(response, message) =>
        var details := if response.Some? && response.value.data.Some?
                       then UpstreamData(response.value.data.value) else NetworkOrAuthentication;
        Reply(UpstreamErrorStatus(response), ErrorWithDetails(UpstreamErrorMessage(response, message), details))
  }

  // ---------------------------------------------------------------
  // The downstream hub
  // ---------------------------------------------------------------

  /** The `data.data.text` a transcript message carries, as far as the
      log check reads it: missing (it, or `data.data`, is null or
      undefined), something with a `length`, or a value without one. */
  datatype TextField = TextMissing | TextWithLength(length: nat) | TextWithoutLength

  /** A parsed client message: `null`, a value that is not an object
      with fields (a number, string, boolean or array), or an object with
      a string `type` (or none) and its transcript text. */
  datatype Json = JNull | JOther | JObject(msgType: Option<string>, text: TextField)

  /** A raw client message: JSON text, or anything `JSON.parse` rejects. */
  datatype Incoming = NotJson | Parsed(data: Json)

  /** The transcript log check `data.type === 'transcript' && (!isProduction
      || data.data.text.length > 50)` throws: reading `type` of null, or
      reading `length` of a missing text, which only happens in
      production (elsewhere the `||` stops first). */
  predicate LogCheckThrows(data: Json, isProduction: bool) {
    || data.JNull?
    || (data.JObject? && data.msgType == Some("transcript") && isProduction && data.text.TextMissing?)
  }

  /** When the log check throws: outside production only for `null`; a
      message of another type only when it is `null`; in production a
      transcript exactly when its text is missing. */
  lemma LogCheckThrowsCases(data: Json, isProduction: bool)
    ensures !isProduction ==> (LogCheckThrows(data, isProduction) <==> data.JNull?)
    ensures data.JObject? && data.msgType != Some("transcript") ==> !LogCheckThrows(data, isProduction)
    ensures isProduction && data.JObject? && data.msgType == Some("transcript") ==>
              (LogCheckThrows(data, isProduction) <==> data.text.TextMissing?)
  {
  }

  /** Client `i` receives a broadcast: it is OPEN and not the excluded one. */
  predicate Recipient<M>(clients: seq<Socket<M>>, exclude: Option<nat>, i: nat)
    requires i < |clients|
  {
    clients[i].IsOpen() && exclude != Some(i)
  }

  /** The number of recipients among the first `n` clients. */
  function RecipientCount<M>(clients: seq<Socket<M>>, exclude: Option<nat>, n: nat): nat
    requires n <= |clients|
  {
    if n == 0 then 0
    else RecipientCount(clients, exclude, n - 1) + (if Recipient(clients, exclude, n - 1) then 1 else 0)
  }

  /** The number of OPEN clients among the first `n`. */
  function OpenCount<M>(clients: seq<Socket<M>>, n: nat): nat
    requires n <= |clients|
  {
    if n == 0 then 0 else OpenCount(clients, n - 1) + (if clients[n - 1].IsOpen() then 1 else 0)
  }

  /** The broadcast reaches every OPEN client but the excluded one: one
      fewer than the OPEN clients when the excluded client is OPEN, all
      of them otherwise. */
  lemma {:induction false} RecipientCountSpec<M>(clients: seq<Socket<M>>, exclude: Option<nat>, n: nat)
    requires n <= |clients|
    ensures RecipientCount(clients, exclude, n) ==
              OpenCount(clients, n)
              - (if exclude.Some? && exclude.value < n && clients[exclude.value].IsOpen() then 1 else 0)
  {
    if n > 0 {
      RecipientCountSpec(clients, exclude, n - 1);
    }
  }

  /** The downstream WebSocket server with its connected clients. */
  class Hub {
    const isProduction: bool
    var clients: seq<Socket<Json>>

    constructor (env: Environment)
      ensures isProduction == IsProduction(env) && clients == []
    {
      isProduction := IsProduction(env);
      clients := [];
    }

    /** A `connection`: the new client is OPEN and joins the set; its
        index is returned. */
    method AcceptConnection() returns (id: nat)
      modifies this
      ensures id == |old(clients)| && clients == old(clients) + [Socket(Open, [])]
    {
      id := |clients|;
      clients := clients + [Socket(Open, [])];
    }

    /** The network moves client `id` to `state`. */
    method ClientStateChanged(id: nat, state: ReadyState)
      requires id < |clients|
      modifies this
      ensures clients == old(clients)[id := Socket(state, old(clients)[id].sent)]
    {
      clients := clients[id := Socket(state, clients[id].sent)];
    }

    /** `broadcastToDownstream(data, excludeClient)`: every OPEN client
        other than `exclude` is sent the message once; nobody else gets
        anything. `sentCount` counts the sends. The closing log check runs
        after every send, so `raised` reports its throw without undoing
        any of them. */
    method BroadcastToDownstream(data: Json, exclude: Option<nat>) returns (sentCount: nat, raised: bool)
      modifies this
      ensures |clients| == |old(clients)|
      ensures forall i :: 0 <= i < |clients| ==>
                clients[i] == if Recipient(old(clients), exclude, i) then old(clients)[i].Send(data) else old(clients)[i]
      ensures sentCount == RecipientCount(old(clients), exclude, |old(clients)|)
      ensures raised == LogCheckThrows(data, isProduction)
    {
      sentCount := 0;
      var i := 0;
      while i < |clients|
        invariant i <= |clients| == |old(clients)|
        invariant forall j :: 0 <= j < i ==>
                    clients[j] == if Recipient(old(clients), exclude, j) then old(clients)[j].Send(data) else old(clients)[j]
        invariant clients[i..] == old(clients)[i..]
        invariant sentCount == RecipientCount(old(clients), exclude, i)
      {
        assert clients[i] == old(clients)[i];
        if clients[i].readyState == Open && exclude != Some(i) {
          clients := clients[i := clients[i].Send(data)];
          sentCount := sentCount + 1;
        }
        i := i + 1;
      }
      raised := LogCheckThrows(data, isProduction);
    }

    /** The `message` handler of client `from`: text that parses and
        passes the log check is broadcast to every other OPEN client;
        anything else is caught and dropped. */
    method OnClientMessage(from: nat, message: Incoming) returns (broadcast: bool)
      modifies this
      ensures broadcast <==> message.Parsed? && !LogCheckThrows(message.data, isProduction)
      ensures |clients| == |old(clients)|
      ensures forall i :: 0 <= i < |clients| ==>
                clients[i] == if broadcast && Recipient(old(clients), Some(from), i)
                              then old(clients)[i].Send(message.data) else old(clients)[i]
    {
      broadcast := false;
      if message.NotJson? {
        return;
      }
      var data := message.data;
      if LogCheckThrows(data, isProduction) {
        return;
      }
      var sentCount, raised := BroadcastToDownstream(data, Some(from));
      broadcast := true;
    }
  }
}
