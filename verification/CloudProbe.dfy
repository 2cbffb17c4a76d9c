/**
 The one-shot catalog probe of apps/server/src/agent-context-cloud-probe.ts: the checks that must
 pass before any request is sent, then a three-request MCP handshake that shares one byte budget.

 The network is adversarial: for each request it chooses a response, a rejection or a timeout, and
 for each body the chunks and where reading fails. UTF-8, JSON and URL parsing are parameters.
 */
module CloudProbe {
  import opened Common
  import opened Json
  import opened UrlText
  import Sse

  const MAX_RESPONSE_BYTES := 65536
  const MAX_TOOL_COUNT := 100
  const MAX_TOOL_ID_LENGTH := 160
  const MAX_ENDPOINT_LENGTH := 2048
  const MAX_AUTHORIZATION_LENGTH := 8192
  const MAX_SESSION_HEADER_LENGTH := 1024
  const MAX_PROTOCOL_HEADER_LENGTH := 128
  const MAX_ACTIVE_PROBES := 16
  const INITIALIZE_REQUEST_ID := "jugglework-agent-diagnostics-initialize"
  const SEARCH := "search_capabilities"
  const EXECUTE := "execute_capability"

  datatype Code =
    | CatalogObserved
    | RuntimeConfigUnavailable | RemoteWorkspaceUnavailable
    | CloudMcpMissing | CloudMcpNotRemote | CloudMcpDisabled
    | ToolPolicyUnavailable | ToolPolicyDenied
    | InvalidEndpoint | UntrustedEndpoint
    | CredentialMissing | DuplicateAuthorization
    | RegistrationFailed | RegistrationDisabled | RegistrationNeedsAuth
    | RegistrationNeedsClientRegistration | RegistrationNotRecorded
    | Timeout | NetworkError | ProbeBusy
    | RedirectRejected | Unauthorized | Forbidden | RateLimited | HttpError
    | ResponseTooLarge | InvalidContentType | InvalidResponse
    | JsonRpcError | PaginationUnsupported | InvalidCatalog

  datatype Registration = Connected | Disabled | Failed | NeedsAuth | NeedsClientRegistration | NotRecorded

  // ---- What must hold before anything is sent ---------------------------------------------------

  /** The URL parser, the loopback test and the trusted origins of the running server. */
  datatype Web = Web(parse: string -> Option<Url>, loopback: string -> bool, trusted: set<string>)

  datatype Enabled = EnabledTrue | EnabledFalse | EnabledOther

  datatype Header = Header(name: string, value: Option<string>)

  /** A runtime MCP entry: its `type`, `enabled`, `url` (None unless a string) and `headers`. */
  datatype McpConfig = McpConfig(kind: string, enabled: Enabled, url: Option<string>, headers: seq<Header>)

  datatype PolicyStatus = PolicyAvailable | PolicyDenied | PolicyUnavailable

  datatype PolicyProvenance = EffectiveEngine | PassiveStatic | NoProvenance

  datatype ProbeInput = ProbeInput(
    local: bool,
    runtimeConfigAvailable: bool,
    config: Option<McpConfig>,
    policy: PolicyStatus,
    provenance: PolicyProvenance,
    registration: Registration,
    requestId: string)

  predicate SchemeChar(c: char) {
    'a' <= c <= 'z' || 'A' <= c <= 'Z' || '0' <= c <= '9' || c in {'+', '.', '-'}
  }

  /** The textual test for `scheme://user@`. */
  predicate HasUserinfo(raw: string) {
    var colon := IndexOf(raw, ':');
    && 0 < colon && Letter(raw[0]) && (forall i | 0 <= i < colon :: SchemeChar(raw[i]))
    && colon + 3 <= |raw| && raw[colon..colon + 3] == "://"
    && var rest := raw[colon + 3..];
       '@' in rest[..Start(rest, c => c != '/' && c != '?' && c != '#', 0)]
  }

  /** `s.slice(0, end)`: a negative end counts from the back. */
  function SliceTo(s: string, end: int): string {
    if end >= |s| then s
    else if end >= 0 then s[..end]
    else if end + |s| > 0 then s[..end + |s|]
    else ""
  }

  function SafeEndpoint(value: Option<string>, web: Web): Option<Url> {
    if value.None? then None
    else
      var raw := Trim(value.value, JsWhitespace);
      if raw == "" || |raw| > MAX_ENDPOINT_LENGTH || '?' in raw || '#' in raw then None
      else if HasUserinfo(raw) then None
      else
        var parsed := web.parse(raw);
        if parsed.None? then None
        else
          var url := parsed.value;
          if url.username != "" || url.password != "" || url.search != "" || url.hash != "" then None
          else if url.protocol != "https:" && !(url.protocol == "http:" && web.loopback(url.hostname)) then None
          else if !EndsWith(url.pathname, TERMINAL_PATH) || EndsWith(url.pathname, TERMINAL_PATH + "/") then None
          else if url.origin != SliceTo(raw, |raw| - |url.pathname|) then None
          else Some(url)
  }

  predicate TokenChar(c: char) {
    Letter(c) || '0' <= c <= '9' || c in {'-', '.', '_', '~', '+', '/'}
  }

  predicate IsBearer(value: string) {
    && StartsWith(value, "Bearer ")
    && var token := value[7..];
       var core := token[..End(token, c => c == '=', 0, |token|)];
       core != "" && forall i | 0 <= i < |core| :: TokenChar(core[i])
  }

  function Authorizations(headers: seq<Header>): seq<Header> {
    if headers == [] then []
    else (if IsAuthorization(headers[0]) then [headers[0]] else []) + Authorizations(headers[1..])
  }

  function AuthorizationHeader(headers: seq<Header>): Result<string, Code> {
    var matches := Authorizations(headers);
    if |matches| > 1 then Err(DuplicateAuthorization)
    else if matches == [] || matches[0].value.None? then Err(CredentialMissing)
    else
      var value := matches[0].value.value;
      if |value| > MAX_AUTHORIZATION_LENGTH || !IsBearer(value) then Err(CredentialMissing) else Ok(value)
  }

  predicate RequestIdOk(id: string) {
    1 <= |id| <= 128
    && forall i | 0 <= i < |id| :: Letter(id[i]) || '0' <= id[i] <= '9' || id[i] in {'_', '.', ':', '-'}
  }

  datatype Prepared = Prepared(endpoint: Url, authorization: string)

  /** The order of the checks, given what the text tests say: the first unmet condition names the code. */
  function Gate(input: ProbeInput, endpoint: Option<Url>, trusted: bool, authorization: Result<string, Code>, idOk: bool)
    : Result<Prepared, Code>
  {
    if !input.local then Err(RemoteWorkspaceUnavailable)
    else if !input.runtimeConfigAvailable then Err(RuntimeConfigUnavailable)
    else if input.config.None? then Err(CloudMcpMissing)
    else if input.config.value.kind != "remote" then Err(CloudMcpNotRemote)
    else if input.config.value.enabled != EnabledTrue then Err(CloudMcpDisabled)
    else if input.policy == PolicyUnavailable then Err(ToolPolicyUnavailable)
    else if input.policy == PolicyDenied then Err(ToolPolicyDenied)
    else if input.provenance != EffectiveEngine then Err(ToolPolicyUnavailable)
    else if endpoint.None? then Err(InvalidEndpoint)
    else if !trusted then Err(UntrustedEndpoint)
    else if authorization.Err? then Err(authorization.error)
    else match input.registration
      case Failed => Err(RegistrationFailed)
      case Disabled => Err(RegistrationDisabled)
      case NeedsAuth => Err(RegistrationNeedsAuth)
      case NeedsClientRegistration => Err(RegistrationNeedsClientRegistration)
      case NotRecorded => Err(RegistrationNotRecorded)
      case Connected => if idOk then Ok(Prepared(endpoint.value, authorization.value)) else Err(InvalidEndpoint)
  }

  function EndpointOf(input: ProbeInput, web: Web): Option<Url> {
    if input.config.None? then None else SafeEndpoint(input.config.value.url, web)
  }

  /** `prepare`. */
  function Prepare(input: ProbeInput, web: Web): Result<Prepared, Code> {
    var endpoint := EndpointOf(input, web);
    Gate(input, endpoint,
         endpoint.Some? && (web.loopback(endpoint.value.hostname) || endpoint.value.origin in web.trusted),
         AuthorizationHeader(if input.config.None? then [] else input.config.value.headers),
         RequestIdOk(input.requestId))
  }

  predicate PathOk(url: Url) {
    && EndsWith(url.pathname, TERMINAL_PATH) && !EndsWith(url.pathname, TERMINAL_PATH + "/")
    && url.username == "" && url.password == "" && url.search == "" && url.hash == ""
  }

  /** The trimmed URL parses, carries no credentials, query or fragment, and ends at the route. */
  ghost predicate EndpointFacts(u: string, parse: string -> Option<Url>) {
    var raw := Trim(u, JsWhitespace);
    '?' !in raw && '#' !in raw && parse(raw).Some? && PathOk(parse(raw).value)
  }

  /** Where a credentialed request may go: to a URL that is short, carries nothing but its route, is written
      with its own origin, is encrypted or local, and names a trusted or a local host. */
  ghost predicate SafeTarget(u: string, web: Web) {
    var raw := Trim(u, JsWhitespace);
    && EndpointFacts(u, web.parse) && raw != "" && |raw| <= MAX_ENDPOINT_LENGTH && !HasUserinfo(raw)
    && var url := web.parse(raw).value;
       && (url.protocol == "https:" || (url.protocol == "http:" && web.loopback(url.hostname)))
       && url.origin == SliceTo(raw, |raw| - |url.pathname|)
       && (web.loopback(url.hostname) || url.origin in web.trusted)
  }

  predicate IsAuthorization(header: Header) { Lower(header.name) == "authorization" }

  /** The header is the only authorization header, and holds the bearer credential. */
  predicate BearerAt(headers: seq<Header>, i: nat, credential: string) {
    && i < |headers| && IsAuthorization(headers[i]) && headers[i].value == Some(credential)
    && |credential| <= MAX_AUTHORIZATION_LENGTH && IsBearer(credential)
    && forall j | 0 <= j < |headers| && j != i :: !IsAuthorization(headers[j])
  }

  ghost predicate HasBearer(headers: seq<Header>, credential: string) { exists i: nat :: BearerAt(headers, i, credential) }

  /** The conditions that are not about the URL or the credential. */
  predicate Ready(input: ProbeInput) {
    && input.local && input.runtimeConfigAvailable
    && input.config.Some? && input.config.value.kind == "remote" && input.config.value.enabled == EnabledTrue
    && input.policy == PolicyAvailable && input.provenance == EffectiveEngine
    && input.registration == Connected && RequestIdOk(input.requestId)
  }

  /** What must hold of a workspace before a credentialed request may leave it. */
  ghost predicate Permitted(input: ProbeInput, web: Web) {
    && Ready(input)
    && input.config.value.url.Some? && SafeTarget(input.config.value.url.value, web)
    && exists credential :: HasBearer(input.config.value.headers, credential)
  }

  lemma {:induction false} AuthorizationsAre(headers: seq<Header>)
    ensures |Authorizations(headers)| == 0 <==> forall i | 0 <= i < |headers| :: !IsAuthorization(headers[i])
    ensures |Authorizations(headers)| == 1 <==> exists i: nat :: OnlyAuthorization(headers, i)
    ensures forall i: nat | OnlyAuthorization(headers, i) :: Authorizations(headers) == [headers[i]]
  {
    if headers != [] {
      var rest := headers[1..];
      AuthorizationsAre(rest);
      assert forall i | 1 <= i < |headers| :: headers[i] == rest[i - 1];
      if IsAuthorization(headers[0]) {
        assert |Authorizations(rest)| == 0 ==> OnlyAuthorization(headers, 0);
      } else {
        forall i: nat | OnlyAuthorization(headers, i) ensures OnlyAuthorization(rest, i - 1) {}
        if i: nat :| OnlyAuthorization(rest, i) {
          assert OnlyAuthorization(headers, i + 1);
        }
      }
    }
  }

  predicate OnlyAuthorization(headers: seq<Header>, i: nat) {
    i < |headers| && IsAuthorization(headers[i]) && forall j | 0 <= j < |headers| && j != i :: !IsAuthorization(headers[j])
  }

  lemma AuthorizationIff(headers: seq<Header>, credential: string)
    ensures AuthorizationHeader(headers) == Ok(credential) <==> HasBearer(headers, credential)
  {
    AuthorizationsAre(headers);
    if i: nat :| OnlyAuthorization(headers, i) {
      assert Authorizations(headers) == [headers[i]];
      assert BearerAt(headers, i, credential) <==> AuthorizationHeader(headers) == Ok(credential);
    }
    if i: nat :| BearerAt(headers, i, credential) {
      assert OnlyAuthorization(headers, i);
    }
  }

  /** The URL stands for an endpoint that may be trusted with a credential. */
  predicate TrustedEndpoint(value: Option<string>, web: Web) {
    var endpoint := SafeEndpoint(value, web);
    endpoint.Some? && (web.loopback(endpoint.value.hostname) || endpoint.value.origin in web.trusted)
  }

  lemma {:induction false} SafeEndpointIs(value: Option<string>, web: Web)
    ensures SafeEndpoint(value, web).Some? ==>
              value.Some? && SafeEndpoint(value, web) == web.parse(Trim(value.value, JsWhitespace))
  {
  }

  lemma {:induction false} TrustedIsSafe(value: Option<string>, web: Web)
    ensures TrustedEndpoint(value, web) ==> value.Some? && SafeTarget(value.value, web)
  {
  }

  lemma {:induction false} SafeIsTrusted(value: Option<string>, web: Web)
    ensures value.Some? && SafeTarget(value.value, web) ==> TrustedEndpoint(value, web)
  {
  }

  lemma {:induction false} SafeEndpointIff(value: Option<string>, web: Web)
    ensures TrustedEndpoint(value, web) <==> value.Some? && SafeTarget(value.value, web)
  {
    TrustedIsSafe(value, web);
    SafeIsTrusted(value, web);
  }

  /** Which outcomes of the single checks open the gate. */
  lemma {:induction false} GateIff(input: ProbeInput, endpoint: Option<Url>, trusted: bool,
                                   authorization: Result<string, Code>)
    requires trusted ==> endpoint.Some?
    ensures Gate(input, endpoint, trusted, authorization, RequestIdOk(input.requestId)).Ok? <==>
            Ready(input) && trusted && authorization.Ok?
    ensures Ready(input) && trusted && authorization.Ok? ==>
              Gate(input, endpoint, trusted, authorization, RequestIdOk(input.requestId))
              == Ok(Prepared(endpoint.value, authorization.value))
  {
  }

  lemma {:induction false} PrepareIffParts(input: ProbeInput, web: Web)
    ensures Prepare(input, web).Ok? <==> Ready(input) && TrustedEndpoint(input.config.value.url, web)
                                         && AuthorizationHeader(input.config.value.headers).Ok?
    ensures Prepare(input, web).Ok? ==>
              Prepare(input, web).value == Prepared(SafeEndpoint(input.config.value.url, web).value,
                                                    AuthorizationHeader(input.config.value.headers).value)
  {
    var endpoint := EndpointOf(input, web);
    GateIff(input, endpoint,
            endpoint.Some? && (web.loopback(endpoint.value.hostname) || endpoint.value.origin in web.trusted),
            AuthorizationHeader(if input.config.None? then [] else input.config.value.headers));
  }

  /** The gate opens exactly for a permitted workspace. */
  lemma PrepareIffPermitted(input: ProbeInput, web: Web)
    ensures Prepare(input, web).Ok? <==> Permitted(input, web)
  {
    PrepareIffParts(input, web);
    if Ready(input) {
      CredentialIff(input.config.value.headers);
      SafeEndpointIff(input.config.value.url, web);
    }
  }

  /** The request then goes to the trimmed URL with the workspace's own credential. */
  lemma PreparedMeans(input: ProbeInput, web: Web)
    requires Prepare(input, web).Ok?
    ensures input.config.Some? && input.config.value.url.Some?
    ensures web.parse(Trim(input.config.value.url.value, JsWhitespace)) == Some(Prepare(input, web).value.endpoint)
    ensures HasBearer(input.config.value.headers, Prepare(input, web).value.authorization)
  {
    PrepareIffParts(input, web);
    CredentialIff(input.config.value.headers);
    SafeEndpointIs(input.config.value.url, web);
  }

  lemma CredentialIff(headers: seq<Header>)
    ensures AuthorizationHeader(headers).Ok? <==> exists credential :: HasBearer(headers, credential)
    ensures AuthorizationHeader(headers).Ok? ==> HasBearer(headers, AuthorizationHeader(headers).value)
  {
    if AuthorizationHeader(headers).Ok? {
      AuthorizationIff(headers, AuthorizationHeader(headers).value);
    }
    if credential :| HasBearer(headers, credential) {
      AuthorizationIff(headers, credential);
    }
  }

  /** Of the URL only the endpoint it stands for matters to the gate. */
  lemma OnlyEndpointMatters(input: ProbeInput, config: McpConfig, web: Web)
    requires input.config.Some? && config == input.config.value.(url := config.url)
    requires SafeEndpoint(config.url, web) == SafeEndpoint(input.config.value.url, web)
    requires Prepare(input, web).Ok?
    ensures Prepare(input.(config := Some(config)), web) == Prepare(input, web)
  {
    PrepareIffParts(input, web);
    PrepareIffParts(input.(config := Some(config)), web);
  }

  // ---- The network ------------------------------------------------------------------------------

  type Byte = b: int | 0 <= b < 256

  datatype BodyRead = Chunk(bytes: seq<Byte>) | ReadRejects | ReadTimesOut

  datatype Cancellation = CancelSettles | CancelRejects | CancelTimesOut

  /** `body` is None when the response has no body stream; the list ends where the stream does. */
  datatype Response = Response(
    status: nat,
    mediaType: string,
    declaredLength: Option<int>,
    body: Option<seq<BodyRead>>,
    cancellation: Cancellation,
    sessionHeader: Option<string>,
    protocolHeader: Option<string>)

  datatype Exchange =
    | ExpiredBefore
    | FetchTimesOut
    | FetchRejects(networkCode: Code)
    | Arrives(response: Response)

  datatype Codec = Codec(utf8: seq<Byte> -> Option<string>, json: string -> Option<Value>)

  datatype Failure =
    | Safe(code: Code)
    | Http(httpCode: Code, status: nat)
    | TimedOut
    | Unclassified(networkFailure: Code)

  datatype Method = Initialize | Initialized | ToolsList

  datatype Request = Request(method_: Method, id: Option<string>, session: Option<string>, protocol: Option<string>)

  // ---- Bodies against the shared budget ----------------------------------------------------------

  function ChunkBytes(body: seq<BodyRead>): seq<Byte> {
    if body == [] || !body[0].Chunk? then [] else body[0].bytes + ChunkBytes(body[1..])
  }

  /** How many leading body are chunks that fit the budget one after another. */
  function AcceptedReads(body: seq<BodyRead>, remaining: nat): (n: nat)
    ensures n <= |body|
  {
    if body == [] || !body[0].Chunk? || |body[0].bytes| > remaining then 0
    else 1 + AcceptedReads(body[1..], remaining - |body[0].bytes|)
  }

  function AcceptedBytes(response: Response, remaining: nat): seq<Byte> {
    if TooLongDeclared(response, remaining) || response.body.None? then []
    else ChunkBytes(response.body.value[..AcceptedReads(response.body.value, remaining)])
  }

  predicate TooLongDeclared(response: Response, remaining: nat) {
    response.declaredLength.Some? && response.declaredLength.value > remaining
  }

  function BodyText(response: Response, remaining: nat, codec: Codec): Result<string, Failure> {
    if TooLongDeclared(response, remaining) then Err(Safe(ResponseTooLarge))
    else if response.body.None? then Ok("")
    else
      var body := response.body.value;
      var n := AcceptedReads(body, remaining);
      if n == |body| then
        var text := codec.utf8(ChunkBytes(body));
        if text.Some? then Ok(text.value) else Err(Safe(InvalidResponse))
      else match body[n]
        case ReadTimesOut => Err(TimedOut)
        case ReadRejects => Err(Safe(InvalidResponse))
        case Chunk(_) =>
          match response.cancellation
          case CancelSettles => Err(Safe(ResponseTooLarge))
          case CancelRejects => Err(Safe(InvalidResponse))
          case CancelTimesOut => Err(TimedOut)
  }

  lemma {:induction false} AcceptedFit(body: seq<BodyRead>, remaining: nat)
    ensures |ChunkBytes(body[..AcceptedReads(body, remaining)])| <= remaining
  {
    var n := AcceptedReads(body, remaining);
    if n > 0 {
      AcceptedFit(body[1..], remaining - |body[0].bytes|);
      assert body[..n][1..] == body[1..][..n - 1];
    }
  }

  lemma {:induction false} AcceptedStep(body: seq<BodyRead>, i: nat, remaining: nat)
    requires i < |body|
    requires forall j | 0 <= j < i :: body[j].Chunk?
    requires |ChunkBytes(body[..i])| <= remaining && i <= AcceptedReads(body, remaining)
    ensures i < AcceptedReads(body, remaining)
       <==> body[i].Chunk? && |ChunkBytes(body[..i])| + |body[i].bytes| <= remaining
    ensures body[i].Chunk? ==> ChunkBytes(body[..i + 1]) == ChunkBytes(body[..i]) + body[i].bytes
  {
    if i == 0 {
      assert body[..0] == [] && body[..1] == [body[0]];
      if body[0].Chunk? {
        assert [body[0]][1..] == [] && ChunkBytes([body[0]]) == body[0].bytes + [];
      }
    } else {
      assert body[..i][1..] == body[1..][..i - 1] && body[..i + 1][1..] == body[1..][..i];
      AcceptedStep(body[1..], i - 1, remaining - |body[0].bytes|);
    }
  }

  // ---- JSON-RPC ------------------------------------------------------------------------------------

  /** Section 5 of the JSON-RPC 2.0 specification: version, matching id, no error member, a result. */
  function RpcResult(payload: Value, id: string): Result<Value, Failure> {
    if !payload.Obj? || !HasText(payload, "jsonrpc", "2.0") || !HasText(payload, "id", id) then Err(Safe(InvalidResponse))
    else if Lookup(payload, "error").Some? then Err(Safe(JsonRpcError))
    else
      var result := Lookup(payload, "result");
      if result.None? || !result.value.Obj? then Err(Safe(InvalidResponse)) else Ok(result.value)
  }

  predicate ToolIdChar(c: char) {
    Letter(c) || '0' <= c <= '9' || c in {'_', '.', ':', '-'}
  }

  predicate ToolIdOk(name: string) {
    name != "" && Letter(name[0]) && forall i | 0 <= i < |name| :: ToolIdChar(name[i])
  }

  predicate Named(tool: Value, name: string) { HasText(tool, "name", name) }

  /** The catalog is exactly the two required tools, in either order. */
  predicate ExactCatalog(tools: seq<Value>) {
    |tools| == 2 && ((Named(tools[0], SEARCH) && Named(tools[1], EXECUTE))
                     || (Named(tools[0], EXECUTE) && Named(tools[1], SEARCH)))
  }

  predicate Paged(result: Value) {
    Lookup(result, "nextCursor").Some? && Lookup(result, "nextCursor") != Some(Null)
  }

  predicate ExactToolList(payload: Value, id: string) {
    var rpc := RpcResult(payload, id);
    && rpc.Ok? && !Paged(rpc.value)
    && Lookup(rpc.value, "tools").Some? && Lookup(rpc.value, "tools").value.Arr?
    && ExactCatalog(Lookup(rpc.value, "tools").value.items)
  }

  /** `parseToolIds`. It succeeds exactly on the two-tool catalog, and then returns the required ids
      themselves, never text the server chose. */
  method ParseToolIds(payload: Value, id: string) returns (r: Result<seq<string>, Failure>)
    ensures r.Ok? <==> ExactToolList(payload, id)
    ensures r.Ok? ==> r.value == [SEARCH, EXECUTE]
    ensures RpcResult(payload, id).Err? ==> r == Err(RpcResult(payload, id).error)
    ensures RpcResult(payload, id).Ok? && Paged(RpcResult(payload, id).value) ==> r == Err(Safe(PaginationUnsupported))
    ensures r.Err? && RpcResult(payload, id).Ok? && !Paged(RpcResult(payload, id).value) ==> r == Err(Safe(InvalidCatalog))
  {
    var rpc := RpcResult(payload, id);
    if rpc.Err? { return Err(rpc.error); }
    if Paged(rpc.value) { return Err(Safe(PaginationUnsupported)); }
    var listed := Lookup(rpc.value, "tools");
    if listed.None? || !listed.value.Arr? || |listed.value.items| > MAX_TOOL_COUNT { return Err(Safe(InvalidCatalog)); }
    var exact := ScanTools(listed.value.items);
    if !exact { return Err(Safe(InvalidCatalog)); }
    return Ok([SEARCH, EXECUTE]);
  }

  predicate Required(tool: Value) { Named(tool, SEARCH) || Named(tool, EXECUTE) }

  /** The name of a listed tool, if it is one of the two. */
  method RequiredName(tool: Value) returns (name: Option<string>)
    ensures name.Some? <==> Required(tool)
    ensures name.Some? ==> Named(tool, name.value) && name.value in {SEARCH, EXECUTE}
  {
    RequiredIdsAreWellFormed();
    var listed := Lookup(tool, "name");
    if listed.None? || !listed.value.Str? || |listed.value.text| > MAX_TOOL_ID_LENGTH || !ToolIdOk(listed.value.text) {
      return None;
    }
    if listed.value.text !in {SEARCH, EXECUTE} { return None; }
    return Some(listed.value.text);
  }

  /** The loop over the listed tools, with its set of names seen so far. */
  method ScanTools(tools: seq<Value>) returns (exact: bool)
    ensures exact <==> ExactCatalog(tools)
  {
    var seen: set<string> := {};
    for i := 0 to |tools|
      invariant Scanned(tools, i, seen)
    {
      var name := RequiredName(tools[i]);
      if name.None? { return false; }
      if name.value in seen {
        NoRepeats(tools, i, name.value);
        return false;
      }
      ScannedStep(tools, i, seen, name.value);
      seen := seen + {name.value};
    }
    ScannedMeans(tools, seen);
    return |seen| == 2;
  }

  /** The first n tools are required ones, all different; `seen` holds their names. */
  ghost predicate Scanned(tools: seq<Value>, n: nat, seen: set<string>)
    requires n <= |tools|
  {
    && |seen| == n && seen <= {SEARCH, EXECUTE}
    && (forall j | 0 <= j < n :: Required(tools[j]))
    && (forall name :: name in seen <==> NamedBefore(tools, n, name))
  }

  lemma ScannedStep(tools: seq<Value>, i: nat, seen: set<string>, name: string)
    requires i < |tools| && Scanned(tools, i, seen) && name !in seen
    requires Named(tools[i], name) && name in {SEARCH, EXECUTE}
    ensures Scanned(tools, i + 1, seen + {name})
  {
    forall other ensures other in seen + {name} <==> NamedBefore(tools, i + 1, other) {
      assert NamedBefore(tools, i + 1, other) <==> NamedBefore(tools, i, other) || Named(tools[i], other);
    }
  }

  lemma ScannedMeans(tools: seq<Value>, seen: set<string>)
    requires Scanned(tools, |tools|, seen)
    ensures |seen| == 2 <==> ExactCatalog(tools)
  {
    TwoNames(seen);
    if |seen| == 2 {
      assert NamedBefore(tools, |tools|, SEARCH) && NamedBefore(tools, |tools|, EXECUTE);
    }
  }

  ghost predicate NamedBefore(tools: seq<Value>, n: nat, name: string)
    requires n <= |tools|
  {
    exists j :: 0 <= j < n && Named(tools[j], name)
  }

  lemma NoRepeats(tools: seq<Value>, j: nat, name: string)
    requires j < |tools| && NamedBefore(tools, j, name) && Named(tools[j], name)
    ensures !ExactCatalog(tools)
  {
    RequiredIdsAreWellFormed();
    var i :| 0 <= i < j && Named(tools[i], name);
  }

  lemma RequiredIdsAreWellFormed()
    ensures ToolIdOk(SEARCH) && ToolIdOk(EXECUTE) && SEARCH != EXECUTE
    ensures |SEARCH| <= MAX_TOOL_ID_LENGTH && |EXECUTE| <= MAX_TOOL_ID_LENGTH
  {
    assert SEARCH[0] != EXECUTE[0];
  }

  lemma TwoNames(seen: set<string>)
    requires seen <= {SEARCH, EXECUTE}
    ensures |seen| == 2 ==> seen == {SEARCH, EXECUTE}
  {
    RequiredIdsAreWellFormed();
    if seen != {SEARCH, EXECUTE} {
      if SEARCH !in seen { SubsetSize(seen, {EXECUTE}); } else { SubsetSize(seen, {SEARCH}); }
    }
  }

  lemma {:induction false} SubsetSize<T>(a: set<T>, b: set<T>)
    requires a <= b
    ensures |a| <= |b|
  {
    if a != {} {
      var x :| x in a;
      SubsetSize(a - {x}, b - {x});
    }
  }

  // ---- The handshake, stated over the network's choices --------------------------------------------

  datatype Handshake = Handshake(initialize: Exchange, acknowledge: Exchange, list: Exchange)

  predicate MediaOk(response: Response) {
    response.mediaType == "application/json" || response.mediaType == "text/event-stream"
  }

  function PayloadBytes(response: Response, remaining: nat): seq<Byte> {
    if MediaOk(response) then AcceptedBytes(response, remaining) else []
  }

  function PayloadOf(response: Response, remaining: nat, codec: Codec): Result<Value, Failure> {
    if !MediaOk(response) then Err(Safe(InvalidContentType))
    else
      var text := BodyText(response, remaining, codec);
      if text.Err? then Err(text.error)
      else
        var value := if response.mediaType == "text/event-stream" then Sse.Parse(text.value, codec.json)
                     else codec.json(text.value);
        if value.Some? then Ok(value.value) else Err(Safe(InvalidResponse))
  }

  predicate HeaderOk(header: Option<string>, max: nat) {
    header.Some? ==> header.value != "" && |header.value| <= max
                     && forall i | 0 <= i < |header.value| :: '!' <= header.value[i] <= '~'
  }

  predicate SessionOk(response: Response) {
    HeaderOk(response.sessionHeader, MAX_SESSION_HEADER_LENGTH) && HeaderOk(response.protocolHeader, MAX_PROTOCOL_HEADER_LENGTH)
  }

  predicate InitializeOk(h: Handshake, codec: Codec) {
    && h.initialize.Arrives?
    && h.initialize.response.status == 200
    && SessionOk(h.initialize.response)
    && var payload := PayloadOf(h.initialize.response, MAX_RESPONSE_BYTES, codec);
       payload.Ok? && RpcResult(payload.value, INITIALIZE_REQUEST_ID).Ok?
  }

  function InitializeBytes(h: Handshake): (bytes: seq<Byte>)
    ensures |bytes| <= MAX_RESPONSE_BYTES
  {
    if h.initialize.Arrives? && h.initialize.response.status == 200
    then PayloadWithin(h.initialize.response, MAX_RESPONSE_BYTES); PayloadBytes(h.initialize.response, MAX_RESPONSE_BYTES)
    else []
  }

  lemma PayloadWithin(response: Response, remaining: nat)
    ensures |AcceptedBytes(response, remaining)| <= remaining && |PayloadBytes(response, remaining)| <= remaining
  {
    if response.body.Some? {
      AcceptedFit(response.body.value, remaining);
    }
  }

  predicate Accepted2xx(exchange: Exchange) {
    exchange.Arrives? && 200 <= exchange.response.status < 300
  }

  predicate AcknowledgeOk(h: Handshake, remaining: nat, codec: Codec) {
    Accepted2xx(h.acknowledge) && BodyText(h.acknowledge.response, remaining, codec).Ok?
  }

  /** tools/list may be attempted: a valid initialize result and a 2xx acknowledgement, both read within budget. */
  predicate OpenOk(h: Handshake, codec: Codec) {
    InitializeOk(h, codec) && AcknowledgeOk(h, MAX_RESPONSE_BYTES - |InitializeBytes(h)|, codec)
  }

  predicate ListOk(h: Handshake, remaining: nat, requestId: string, codec: Codec) {
    && h.list.Arrives?
    && h.list.response.status == 200
    && var payload := PayloadOf(h.list.response, remaining, codec);
       payload.Ok? && ExactToolList(payload.value, requestId)
  }

  datatype ProbeStatus = Observed | NotPerformed | ProbeFailed

  datatype Probe = Probe(performed: bool, toolsListPerformed: bool, status: ProbeStatus, code: Code,
                         toolIds: seq<string>, httpStatus: Option<nat>)

  function HttpFailureCode(status: nat): Code {
    if status == 401 then Unauthorized
    else if status == 403 then Forbidden
    else if status == 429 then RateLimited
    else if 300 <= status < 400 then RedirectRejected
    else HttpError
  }

  const INITIALIZE := Request(Initialize, Some(INITIALIZE_REQUEST_ID), None, None)

  function InitializedWith(first: Response): Request {
    Request(Initialized, None, first.sessionHeader, first.protocolHeader)
  }

  function ToolsListWith(first: Response, requestId: string): Request {
    Request(ToolsList, Some(requestId), first.sessionHeader, first.protocolHeader)
  }

  /** What the first two responses contribute: the second is read only when the first one passed. */
  function OpenBytes(h: Handshake, codec: Codec): seq<Byte> {
    InitializeBytes(h)
    + if InitializeOk(h, codec) then AcknowledgeBytes(h, MAX_RESPONSE_BYTES - |InitializeBytes(h)|) else []
  }

  function AcknowledgeBytes(h: Handshake, remaining: nat): seq<Byte> {
    if Accepted2xx(h.acknowledge) then AcceptedBytes(h.acknowledge.response, remaining) else []
  }

  function ListBytes(h: Handshake, remaining: nat): seq<Byte> {
    if h.list.Arrives? && h.list.response.status == 200 then PayloadBytes(h.list.response, remaining) else []
  }

  /** tools/list was handed to the network. */
  ghost predicate ListSent(sent: seq<Request>) { exists i :: 0 <= i < |sent| && sent[i].method_ == ToolsList }

  function AllSent(h: Handshake, requestId: string): seq<Request>
    requires h.initialize.Arrives?
  {
    var first := h.initialize.response;
    [INITIALIZE, InitializedWith(first), ToolsListWith(first, requestId)]
  }

  function ExchangeError(exchange: Exchange): Failure
    requires !exchange.Arrives?
  {
    if exchange.FetchRejects? then Unclassified(exchange.networkCode) else TimedOut
  }

  function StatusOf(exchange: Exchange): Option<nat> {
    if exchange.Arrives? then Some(exchange.response.status) else None
  }

  function StatusError(status: nat): Failure { Http(HttpFailureCode(status), status) }

  function InitializeError(h: Handshake, codec: Codec): Failure
    requires !InitializeOk(h, codec)
  {
    if !h.initialize.Arrives? then ExchangeError(h.initialize)
    else if h.initialize.response.status != 200 then StatusError(h.initialize.response.status)
    else
      var payload := PayloadOf(h.initialize.response, MAX_RESPONSE_BYTES, codec);
      if payload.Err? then payload.error
      else
        var rpc := RpcResult(payload.value, INITIALIZE_REQUEST_ID);
        if rpc.Err? then rpc.error else Safe(InvalidResponse)
  }

  function AcknowledgeError(h: Handshake, remaining: nat, codec: Codec): Failure
    requires !AcknowledgeOk(h, remaining, codec)
  {
    if !h.acknowledge.Arrives? then ExchangeError(h.acknowledge)
    else if !Accepted2xx(h.acknowledge) then StatusError(h.acknowledge.response.status)
    else BodyText(h.acknowledge.response, remaining, codec).error
  }

  /** The first thing that goes wrong before tools/list, and the last status seen by then. */
  function OpenError(h: Handshake, codec: Codec): (Failure, Option<nat>)
    requires !OpenOk(h, codec)
  {
    if InitializeOk(h, codec)
    then (AcknowledgeError(h, MAX_RESPONSE_BYTES - |InitializeBytes(h)|, codec), StatusOf(h.acknowledge))
    else (InitializeError(h, codec), StatusOf(h.initialize))
  }

  /** The first thing that goes wrong with tools/list. */
  function ListError(h: Handshake, remaining: nat, requestId: string, codec: Codec): Failure
    requires !ListOk(h, remaining, requestId, codec)
  {
    if !h.list.Arrives? then ExchangeError(h.list)
    else if h.list.response.status != 200 then StatusError(h.list.response.status)
    else
      var payload := PayloadOf(h.list.response, remaining, codec);
      if payload.Err? then payload.error
      else
        var rpc := RpcResult(payload.value, requestId);
        if rpc.Err? then rpc.error
        else if Paged(rpc.value) then Safe(PaginationUnsupported)
        else Safe(InvalidCatalog)
  }

  /** What the `catch` reports for a failure: a fired deadline hides every other cause. */
  function ReportedCode(failure: Failure, late: bool): Code {
    if failure.TimedOut? || late then Timeout
    else match failure
      case Safe(code) => code
      case Http(code, _) => code
      case Unclassified(code) => code
  }

  function ReportedStatus(failure: Failure, last: Option<nat>, late: bool): Option<nat> {
    if failure.Http? then Some(failure.status)
    else if failure.TimedOut? || late || failure.Safe? then last
    else None
  }

  /** The locals of `performProbe` that its phases share: the budget, the last status, the progress
      flag, and the requests handed to `fetch`. */
  class ProbeRun {
    var remaining: nat
    var httpStatus: Option<nat>
    var toolsListPerformed: bool
    var sent: seq<Request>
    ghost var accepted: seq<Byte>

    /** What is left of the budget is the limit minus every byte accepted so far. */
    ghost predicate Valid() reads this { remaining + |accepted| == MAX_RESPONSE_BYTES }

    constructor ()
      ensures Valid() && remaining == MAX_RESPONSE_BYTES && accepted == []
      ensures httpStatus == None && !toolsListPerformed && sent == []
    {
      remaining, httpStatus, toolsListPerformed, sent, accepted := MAX_RESPONSE_BYTES, None, false, [], [];
    }

    method PostJsonRpc(request: Request, exchange: Exchange) returns (r: Result<Response, Failure>)
      modifies this`sent
      ensures sent == if exchange.ExpiredBefore? then old(sent) else old(sent) + [request]
      ensures r.Ok? <==> exchange.Arrives?
      ensures r.Ok? ==> r.value == exchange.response
      ensures r.Err? ==> r.error == if exchange.FetchRejects? then Unclassified(exchange.networkCode) else TimedOut
    {
      if exchange.ExpiredBefore? { return Err(TimedOut); }
      sent := sent + [request];
      match exchange
      case FetchRejects(code) => return Err(Unclassified(code));
      case FetchTimesOut => return Err(TimedOut);
      case Arrives(response) => return Ok(response);
    }

    method ReadBoundedBody(response: Response, codec: Codec) returns (r: Result<string, Failure>)
      requires Valid()
      modifies this`remaining, this`accepted
      ensures Valid()
      ensures accepted == old(accepted) + AcceptedBytes(response, old(remaining))
      ensures r == BodyText(response, old(remaining), codec)
    {
      if response.declaredLength.Some? && response.declaredLength.value > remaining {
        return Err(Safe(ResponseTooLarge));
      }
      if response.body.None? { return Ok(""); }
      var body := response.body.value;
      var bytes: seq<Byte> := [];
      ghost var budget := remaining;
      for i := 0 to |body|
        invariant Valid() && accepted == old(accepted) + bytes
        invariant remaining == budget - |bytes|
        invariant forall j | 0 <= j < i :: body[j].Chunk?
        invariant bytes == ChunkBytes(body[..i])
        invariant i <= AcceptedReads(body, budget)
      {
        AcceptedStep(body, i, budget);
        match body[i] {
          case ReadTimesOut => return Err(TimedOut);
          case ReadRejects => return Err(Safe(InvalidResponse));
          case Chunk(chunk) =>
            if |chunk| > remaining {
              match response.cancellation
              case CancelSettles => return Err(Safe(ResponseTooLarge));
              case CancelRejects => return Err(Safe(InvalidResponse));
              case CancelTimesOut => return Err(TimedOut);
            }
            remaining := remaining - |chunk|;
            bytes := bytes + chunk;
            accepted := accepted + chunk;
        }
      }
      assert body[..|body|] == body;
      var text := codec.utf8(bytes);
      if text.None? { return Err(Safe(InvalidResponse)); }
      return Ok(text.value);
    }

    method ReadJsonRpcPayload(response: Response, codec: Codec) returns (r: Result<Value, Failure>)
      requires Valid()
      modifies this`remaining, this`accepted
      ensures Valid()
      ensures accepted == old(accepted) + PayloadBytes(response, old(remaining))
      ensures r == PayloadOf(response, old(remaining), codec)
    {
      if response.mediaType != "application/json" && response.mediaType != "text/event-stream" {
        return Err(Safe(InvalidContentType));
      }
      var text := ReadBoundedBody(response, codec);
      if text.Err? { return Err(text.error); }
      var value;
      if response.mediaType == "text/event-stream" {
        value := Sse.ParseSse(text.value, codec.json);
      } else {
        value := codec.json(text.value);
      }
      if value.None? { return Err(Safe(InvalidResponse)); }
      return Ok(value.value);
    }

    /** The first phase. */
    method Initialize(h: Handshake, codec: Codec) returns (r: Result<Response, Failure>)
      requires Valid() && remaining == MAX_RESPONSE_BYTES && sent == [] && httpStatus == None
      modifies this`remaining, this`accepted, this`sent, this`httpStatus
      ensures Valid() && accepted == old(accepted) + InitializeBytes(h)
      ensures r.Ok? <==> InitializeOk(h, codec)
      ensures r.Ok? ==> r.value == h.initialize.response
      ensures r.Err? ==> r.error == InitializeError(h, codec)
      ensures httpStatus == StatusOf(h.initialize)
      ensures sent == if h.initialize.ExpiredBefore? then [] else [INITIALIZE]
    {
      var initialized := PostJsonRpc(INITIALIZE, h.initialize);
      if initialized.Err? { return Err(initialized.error); }
      var first := initialized.value;
      httpStatus := Some(first.status);
      if first.status != 200 { return Err(Http(HttpFailureCode(first.status), first.status)); }
      var payload := ReadJsonRpcPayload(first, codec);
      if payload.Err? { return Err(payload.error); }
      var rpc := RpcResult(payload.value, INITIALIZE_REQUEST_ID);
      if rpc.Err? { return Err(rpc.error); }
      if !HeaderOk(first.sessionHeader, MAX_SESSION_HEADER_LENGTH)
         || !HeaderOk(first.protocolHeader, MAX_PROTOCOL_HEADER_LENGTH) { return Err(Safe(InvalidResponse)); }
      return Ok(first);
    }

    /** The second phase: any 2xx acknowledgement whose body can be drained. */
    method Acknowledge(first: Response, h: Handshake, codec: Codec) returns (failure: Option<Failure>)
      requires Valid()
      modifies this`remaining, this`accepted, this`sent, this`httpStatus
      ensures Valid() && accepted == old(accepted) + AcknowledgeBytes(h, old(remaining))
      ensures failure.None? <==> AcknowledgeOk(h, old(remaining), codec)
      ensures failure.Some? ==> failure.value == AcknowledgeError(h, old(remaining), codec)
      ensures httpStatus == StatusOf(h.acknowledge)
      ensures sent == if h.acknowledge.ExpiredBefore? then old(sent) else old(sent) + [InitializedWith(first)]
    {
      httpStatus := None;
      var acknowledged := PostJsonRpc(InitializedWith(first), h.acknowledge);
      if acknowledged.Err? { return Some(acknowledged.error); }
      var second := acknowledged.value;
      httpStatus := Some(second.status);
      if !(200 <= second.status < 300) { return Some(Http(HttpFailureCode(second.status), second.status)); }
      var drained := ReadBoundedBody(second, codec);
      if drained.Err? { return Some(drained.error); }
      return None;
    }

    /** The first two phases. On success the initialize response is returned, whose session headers the
        later requests carry. */
    method Open(h: Handshake, codec: Codec) returns (r: Result<Response, Failure>)
      requires Valid() && remaining == MAX_RESPONSE_BYTES && accepted == []
      requires sent == [] && httpStatus == None && !toolsListPerformed
      modifies this
      ensures Valid() && !toolsListPerformed
      ensures r.Ok? <==> OpenOk(h, codec)
      ensures r.Ok? ==> h.initialize.Arrives? && r.value == h.initialize.response
      ensures r.Ok? ==> sent == [INITIALIZE, InitializedWith(h.initialize.response)]
      ensures r.Err? ==> (r.error, httpStatus) == OpenError(h, codec)
      ensures r.Err? ==> !ListSent(sent)
      ensures accepted == OpenBytes(h, codec)
    {
      r := Initialize(h, codec);
      if r.Ok? {
        ghost var before := accepted;
        assert before == InitializeBytes(h) && remaining == MAX_RESPONSE_BYTES - |InitializeBytes(h)|;
        var failure := Acknowledge(r.value, h, codec);
        if failure.Some? { r := Err(failure.value); }
      } else {
        assert OpenBytes(h, codec) == InitializeBytes(h);
      }
    }

    /** The third phase. The flag is raised before the request is attempted. */
    method List(first: Response, h: Handshake, requestId: string, codec: Codec)
      returns (r: Result<seq<string>, Failure>)
      requires Valid()
      modifies this
      ensures Valid() && toolsListPerformed
      ensures r.Ok? <==> ListOk(h, old(remaining), requestId, codec)
      ensures r.Ok? ==> r.value == [SEARCH, EXECUTE] && httpStatus == Some(200)
      ensures httpStatus == StatusOf(h.list)
      ensures r.Err? ==> r.error == ListError(h, old(remaining), requestId, codec)
      ensures sent == if h.list.ExpiredBefore? then old(sent) else old(sent) + [ToolsListWith(first, requestId)]
      ensures accepted == old(accepted) + ListBytes(h, old(remaining))
    {
      httpStatus, toolsListPerformed := None, true;
      var listed := PostJsonRpc(ToolsListWith(first, requestId), h.list);
      if listed.Err? { return Err(listed.error); }
      httpStatus := Some(listed.value.status);
      if listed.value.status != 200 {
        return Err(Http(HttpFailureCode(listed.value.status), listed.value.status));
      }
      var payload := ReadJsonRpcPayload(listed.value, codec);
      if payload.Err? { return Err(payload.error); }
      r := ParseToolIds(payload.value, requestId);
    }

    /** The `try` block: the phases in order. */
    method Attempt(h: Handshake, requestId: string, codec: Codec) returns (outcome: Result<seq<string>, Failure>)
      requires Valid() && remaining == MAX_RESPONSE_BYTES && accepted == []
      requires sent == [] && httpStatus == None && !toolsListPerformed
      modifies this
      ensures Valid() && accepted == AcceptedInRun(h, codec)
      ensures toolsListPerformed <==> OpenOk(h, codec)
      ensures outcome.Ok? <==> OpenOk(h, codec) && ListOk(h, BudgetForList(h), requestId, codec)
      ensures outcome.Ok? ==> outcome.value == [SEARCH, EXECUTE] && httpStatus == Some(200)
      ensures outcome.Err? && !OpenOk(h, codec) ==> (outcome.error, httpStatus) == OpenError(h, codec)
      ensures outcome.Err? && OpenOk(h, codec) ==>
                (outcome.error, httpStatus) == (ListError(h, BudgetForList(h), requestId, codec), StatusOf(h.list))
      ensures ListSent(sent) <==> OpenOk(h, codec) && !h.list.ExpiredBefore?
      ensures ListSent(sent) ==> sent == AllSent(h, requestId)
    {
      var began := Open(h, codec);
      if began.Err? { return Err(began.error); }
      BudgetLeft(h, codec);
      assert remaining == BudgetForList(h);
      outcome := List(began.value, h, requestId, codec);
      ListSentIff(h, requestId);
    }
  }

  lemma ListSentIff(h: Handshake, requestId: string)
    requires h.initialize.Arrives?
    ensures ListSent(AllSent(h, requestId)) && !ListSent([INITIALIZE, InitializedWith(h.initialize.response)])
    ensures AllSent(h, requestId) == [INITIALIZE, InitializedWith(h.initialize.response)]
                                     + [ToolsListWith(h.initialize.response, requestId)]
  {
    assert AllSent(h, requestId)[2].method_ == ToolsList;
  }

  /** `performProbe`: the phases, and one `catch` for them all. `late` says whether the deadline has
      fired by the time the `catch` runs. */
  method PerformProbe(h: Handshake, requestId: string, codec: Codec, late: bool)
    returns (probe: Probe, sent: seq<Request>, remaining: nat, ghost accepted: seq<Byte>)
    ensures probe.performed
    ensures probe.toolsListPerformed <==> OpenOk(h, codec)
    ensures ListSent(sent) <==> OpenOk(h, codec) && !h.list.ExpiredBefore?
    ensures ListSent(sent) ==> sent == AllSent(h, requestId)
    ensures probe.status == Observed <==> OpenOk(h, codec) && ListOk(h, BudgetForList(h), requestId, codec)
    ensures probe.status == Observed ==>
              probe.toolIds == [SEARCH, EXECUTE] && probe.code == CatalogObserved && probe.httpStatus == Some(200)
    ensures probe.status != Observed ==> probe.status == ProbeFailed && probe.toolIds == []
    ensures !OpenOk(h, codec) ==> var (failure, last) := OpenError(h, codec);
              probe.code == ReportedCode(failure, late) && probe.httpStatus == ReportedStatus(failure, last, late)
    ensures OpenOk(h, codec) && !ListOk(h, BudgetForList(h), requestId, codec) ==>
              var failure := ListError(h, BudgetForList(h), requestId, codec);
              probe.code == ReportedCode(failure, late) && probe.httpStatus == ReportedStatus(failure, StatusOf(h.list), late)
    ensures probe.status == ProbeFailed && late ==> probe.code == Timeout
    ensures remaining == MAX_RESPONSE_BYTES - |accepted| && accepted == AcceptedInRun(h, codec)
  {
    var run := new ProbeRun();
    var outcome := run.Attempt(h, requestId, codec);
    sent, remaining, accepted := run.sent, run.remaining, run.accepted;
    if outcome.Ok? {
      return Probe(true, true, Observed, CatalogObserved, outcome.value, run.httpStatus), sent, remaining, accepted;
    }
    probe := Probe(true, run.toolsListPerformed, ProbeFailed, ReportedCode(outcome.error, late), [],
                   ReportedStatus(outcome.error, run.httpStatus, late));
  }

  /** What is left of the budget when tools/list is answered. */
  function BudgetForList(h: Handshake): (remaining: nat)
  {
    var afterFirst := MAX_RESPONSE_BYTES - |InitializeBytes(h)|;
    if Accepted2xx(h.acknowledge) then
      PayloadWithin(h.acknowledge.response, afterFirst);
      afterFirst - |AcceptedBytes(h.acknowledge.response, afterFirst)|
    else afterFirst
  }

  /** Every byte accepted over the run: each response reads only when the one before it passed. */
  function AcceptedInRun(h: Handshake, codec: Codec): seq<Byte> {
    OpenBytes(h, codec) + if OpenOk(h, codec) then ListBytes(h, BudgetForList(h)) else []
  }

  lemma BudgetLeft(h: Handshake, codec: Codec)
    requires OpenOk(h, codec)
    ensures BudgetForList(h) == MAX_RESPONSE_BYTES - |OpenBytes(h, codec)|
  {
  }

  /** The three responses together never contribute more than the limit. */
  lemma RunWithinBudget(h: Handshake, codec: Codec)
    ensures |AcceptedInRun(h, codec)| <= MAX_RESPONSE_BYTES
  {
    var afterFirst := MAX_RESPONSE_BYTES - |InitializeBytes(h)|;
    if h.acknowledge.Arrives? { PayloadWithin(h.acknowledge.response, afterFirst); }
    if h.list.Arrives? { PayloadWithin(h.list.response, BudgetForList(h)); }
  }

  /** The budget is shared and blind to chunking: however the bodies of an observed run are cut into
      chunks, together they are exactly the accepted bytes, nothing dropped or repeated. */
  lemma ObservedRunReadsWholeBodies(h: Handshake, requestId: string, codec: Codec)
    requires OpenOk(h, codec)
    requires ListOk(h, BudgetForList(h), requestId, codec)
    ensures AcceptedInRun(h, codec) == WholeBody(h.initialize.response) + WholeBody(h.acknowledge.response) + WholeBody(h.list.response)
  {
    var afterFirst := MAX_RESPONSE_BYTES - |InitializeBytes(h)|;
    ReadBodyIsWhole(h.initialize.response, MAX_RESPONSE_BYTES, codec);
    ReadBodyIsWhole(h.acknowledge.response, afterFirst, codec);
    ReadBodyIsWhole(h.list.response, BudgetForList(h), codec);
  }

  function WholeBody(response: Response): seq<Byte> {
    if response.body.None? then [] else ChunkBytes(response.body.value)
  }

  lemma ReadBodyIsWhole(response: Response, remaining: nat, codec: Codec)
    requires BodyText(response, remaining, codec).Ok?
    ensures AcceptedBytes(response, remaining) == WholeBody(response)
  {
    if response.body.Some? {
      assert response.body.value[..|response.body.value|] == response.body.value;
    }
  }

  // ---- Admission ------------------------------------------------------------------------------------

  /** The module-level set of running probes. A task is in it from admission to settlement. */
  class ProbeGate {
    var active: set<nat>

    ghost predicate Valid() reads this { |active| <= MAX_ACTIVE_PROBES }

    constructor ()
      ensures Valid() && active == {}
    {
      active := {};
    }

    method Enter(task: nat) returns (admitted: bool)
      requires Valid() && task !in active
      modifies this
      ensures Valid()
      ensures admitted <==> |old(active)| < MAX_ACTIVE_PROBES
      ensures active == if admitted then old(active) + {task} else old(active)
    {
      if |active| >= MAX_ACTIVE_PROBES { return false; }
      active := active + {task};
      return true;
    }

    method Leave(task: nat)
      requires Valid() && task in active
      modifies this
      ensures Valid() && active == old(active) - {task}
    {
      active := active - {task};
    }
  }

  /** `probeJuggleWorkCloudCatalog`. `aborted` is the caller's signal on entry. */
  method ProbeCatalog(input: ProbeInput, web: Web, aborted: bool, gate: ProbeGate, task: nat,
                      h: Handshake, codec: Codec, late: bool)
    returns (probe: Probe)
    requires gate.Valid() && task !in gate.active
    modifies gate
    ensures gate.Valid() && gate.active == old(gate.active)
    ensures probe.performed <==> !aborted && Prepare(input, web).Ok? && |old(gate.active)| < MAX_ACTIVE_PROBES
    ensures probe.performed ==> Permitted(input, web)
    ensures probe.toolsListPerformed <==> probe.performed && OpenOk(h, codec)
    ensures probe.toolIds != [] ==> probe.toolsListPerformed
    ensures probe.toolIds == if probe.status == Observed then [SEARCH, EXECUTE] else []
    ensures !probe.performed ==> probe.code == if aborted then Timeout
                                               else if Prepare(input, web).Err? then Prepare(input, web).error
                                               else ProbeBusy
  {
    if aborted { return Probe(false, false, NotPerformed, Timeout, [], None); }
    var prepared := Prepare(input, web);
    if prepared.Err? { return Probe(false, false, NotPerformed, prepared.error, [], None); }
    PrepareIffPermitted(input, web);
    var admitted := gate.Enter(task);
    if !admitted { return Probe(false, false, NotPerformed, ProbeBusy, [], None); }
    var sent, remaining;
    ghost var accepted;
    probe, sent, remaining, accepted := PerformProbe(h, input.requestId, codec, late);
    gate.Leave(task);
  }
}
