/**
 * The request forwarder (`pipe`): route the request, build the outbound
 * headers, payload and URL, send one POST to the OpenAI-compatible upstream,
 * and turn its outcome into a stream of lines, a decoded value, or an
 * `Error: ...` diagnostic string. The HTTP client is not modelled: what the
 * upstream does with a request is a parameter.
 */
module RequestForwarder {
  import opened JsonValue
  import opened MediaDetector
  import opened ModelRouter

  /** The pipeline's settings: API key, upstream base URL and the two model ids. */
  datatype Config = Config(apiKey: string, baseUrl: string, mediaModel: string, defaultModel: string)

  /** An outbound POST; `stream` is the transport's streaming flag. */
  datatype Request = Request(url: string, headers: map<string, string>, payload: map<string, Value>, stream: bool)

  /** What decoding the upstream's response body as JSON gives. */
  datatype Decoded = Parsed(value: Value) | Malformed(reason: string)

  /**
   * How the upstream call went: the POST itself failed (connection, DNS, timeout),
   * or an HTTP response came back with a status, the error text the client gives
   * that status, the response's lines, and its body decoded as JSON.
   */
  datatype Exchange =
    | Unreachable(reason: string)
    | Answered(status: int, statusError: string, lines: seq<string>, decoded: Decoded)

  /** What `pipe` returns: a line stream, one decoded value, or a diagnostic string. */
  datatype Reply = Stream(lines: seq<string>) | Whole(value: Value) | Error(message: string)

  /** Caller and session fields that never reach the upstream. */
  const StrippedFields: set<string> := {"user", "chat_id", "title"}

  const CompletionsPath: string := "chat/completions"

  /** The text of the KeyError raised when the body has no `stream` entry. */
  const MissingStreamText: string := "'stream'"

  // ---------------------------------------------------------------------------
  // Headers and payload

  /** Exactly a bearer token from the API key and a JSON content type. */
  method BuildHeaders(apiKey: string) returns (headers: map<string, string>)
    ensures headers.Keys == {"Authorization", "Content-Type"}
    ensures headers["Authorization"] == "Bearer " + apiKey
    ensures headers["Content-Type"] == "application/json"
  {
    headers := map[];
    headers := headers["Authorization" := "Bearer " + apiKey];
    headers := headers["Content-Type" := "application/json"];
  }

  /**
   * `payload` is the body with `model` set to the chosen id and the caller fields
   * removed: every other key keeps its value, and no key is added.
   */
  ghost predicate IsOutboundPayload(body: map<string, Value>, model: string, payload: map<string, Value>)
  {
    && "model" in payload && payload["model"] == Str(model)
    && (forall k :: k in StrippedFields ==> k !in payload)
    && (forall k :: k in body && k !in StrippedFields ==> k in payload)
    && (forall k :: k in body && k !in StrippedFields && k != "model" ==> payload[k] == body[k])
    && (forall k :: k in payload ==> k in body || k == "model")
  }

  /** The payload is a shallow copy: `body`, a value here, is left as it was. */
  method BuildPayload(body: map<string, Value>, model: string) returns (payload: map<string, Value>)
    ensures IsOutboundPayload(body, model, payload)
  {
    payload := body["model" := Str(model)];
    if "user" in payload {
      payload := payload - {"user"};
    }
    if "chat_id" in payload {
      payload := payload - {"chat_id"};
    }
    if "title" in payload {
      payload := payload - {"title"};
    }
  }

  /** The outbound payload is fully determined by the body and the model id. */
  lemma OutboundPayloadUnique(body: map<string, Value>, model: string, p: map<string, Value>, q: map<string, Value>)
    requires IsOutboundPayload(body, model, p) && IsOutboundPayload(body, model, q)
    ensures p == q
  {
    assert p.Keys == q.Keys;
    forall k | k in p ensures p[k] == q[k] {
      if k != "model" {
        assert k in body && k !in StrippedFields;
      }
    }
  }

  /** A concrete body (its `messages` any value): `model`, `user`, `chat_id` and `title` are replaced or dropped, the rest kept. */
  method PayloadExample(messages: Value) returns (payload: map<string, Value>)
    ensures payload == map["model" := Str("M"), "stream" := Bool(false), "messages" := messages]
  {
    var body := map["model" := Str("x"), "user" := Str("u1"), "chat_id" := Str("c1"), "title" := Str("t1"),
                    "stream" := Bool(false), "messages" := messages];
    payload := BuildPayload(body, "M");
    OutboundPayloadUnique(body, "M", payload,
      map["model" := Str("M"), "stream" := Bool(false), "messages" := messages]);
  }

  // ---------------------------------------------------------------------------
  // Target URL

  /** `s.rstrip("/")`: `s` without its trailing slashes. */
  function RStripSlashes(s: string): (r: string)
    ensures |r| <= |s| && s[..|r|] == r
    ensures forall i :: |r| <= i < |s| ==> s[i] == '/'
    ensures r == [] || r[|r| - 1] != '/'
  {
    if s != [] && s[|s| - 1] == '/' then RStripSlashes(s[..|s| - 1]) else s
  }

  /** The base URL with its trailing slashes normalised to one, followed by `chat/completions`. */
  function ChatCompletionsUrl(baseUrl: string): (url: string)
    ensures EndsWith(url, "/chat/completions")
    ensures url[..|url| - |"/chat/completions"|] == RStripSlashes(baseUrl)
  {
    RStripSlashes(baseUrl) + "/" + CompletionsPath
  }

  function Slashes(n: nat): (s: string)
  {
    seq(n, _ => '/')
  }

  /** However many slashes end the base URL, the target is the same: `.../v1`, `.../v1/`, `.../v1//`. */
  lemma UrlIgnoresTrailingSlashes(base: string, n: nat)
    requires base == [] || base[|base| - 1] != '/'
    ensures ChatCompletionsUrl(base + Slashes(n)) == base + "/chat/completions"
  {
    var s := base + Slashes(n);
    assert s[..|base|] == base;
  }

  // ---------------------------------------------------------------------------
  // Dispatch

  /** The HTTP client raises for client and server error statuses. */
  predicate RaisesForStatus(status: int)
  {
    400 <= status < 600
  }

  /**
   * The `try` block after the POST: a failed POST or an error status becomes a
   * diagnostic; otherwise `body["stream"]` is read, and only now does a missing
   * `stream` key fail. A truthy flag returns the response's lines, a falsy one its
   * decoded JSON.
   */
  function Dispatch(exchange: Exchange, body: map<string, Value>): (reply: Reply)
    reads if "stream" in body then Refs(body["stream"]) else {}
    ensures reply.Error? ==> StartsWith(reply.message, "Error: ")
    ensures exchange.Unreachable? ==> reply == Error("Error: " + exchange.reason)
    ensures exchange.Answered? && RaisesForStatus(exchange.status) ==> reply == Error("Error: " + exchange.statusError)
    ensures exchange.Answered? && !RaisesForStatus(exchange.status) && "stream" !in body ==>
      reply == Error("Error: " + MissingStreamText)
    ensures reply.Stream? <==>
      exchange.Answered? && !RaisesForStatus(exchange.status) && "stream" in body && Truthy(body["stream"])
    ensures reply.Stream? ==> reply.lines == exchange.lines
    ensures reply.Whole? <==>
      exchange.Answered? && !RaisesForStatus(exchange.status) && "stream" in body && !Truthy(body["stream"])
      && exchange.decoded.Parsed?
    ensures reply.Whole? ==> reply.value == exchange.decoded.value
  {
    match exchange
    case Unreachable(reason) => Error("Error: " + reason)
    case Answered(status, statusError, lines, decoded) =>
      if RaisesForStatus(status) then Error("Error: " + statusError)
      else if "stream" !in body then Error("Error: " + MissingStreamText)
      else if Truthy(body["stream"]) then Stream(lines)
      else match decoded
        case Parsed(value) => Whole(value)
        case Malformed(reason) => Error("Error: " + reason)
  }

  // ---------------------------------------------------------------------------
  // pipe

  /**
   * One request: the router's model wins over the requested `modelId` and over the
   * body's own `model`; one POST is sent, with streaming transport, whatever the
   * body's `stream` flag; the reply is what Dispatch makes of the upstream's answer.
   */
  method Pipe(config: Config, userMessage: string, modelId: string, messages: Value, body: map<string, Value>,
              upstream: Request -> Exchange, ghost universe: set<Container>)
    returns (sent: Request, reply: Reply)
    requires Closed(universe) && Within(messages, universe) && BodyWithin(body, universe)
    ensures sent.url == ChatCompletionsUrl(config.baseUrl)
    ensures sent.headers == map["Authorization" := "Bearer " + config.apiKey, "Content-Type" := "application/json"]
    ensures IsOutboundPayload(body,
      if MediaAnalysisRequest(userMessage, messages, body, universe) then config.mediaModel else config.defaultModel,
      sent.payload)
    ensures sent.stream
    ensures reply == Dispatch(upstream(sent), body)
  {
    var apiKey := config.apiKey;
    var model := SelectModel(userMessage, messages, body, config.mediaModel, config.defaultModel, universe);
    var headers := BuildHeaders(apiKey);
    var payload := BuildPayload(body, model);
    sent := Request(ChatCompletionsUrl(config.baseUrl), headers, payload, true);
    reply := Dispatch(upstream(sent), body);
  }
}
