/**
 The agent-context report builder (apps/server/src/agent-context-diagnostics.ts) against the
 cross-field rules of its own schema (apps/server/src/agent-context-diagnostics-schema.ts).

 The builder merges engine, runtime, registration, policy and probe evidence; the schema then
 re-derives what that evidence must look like. Texts, field lengths and durations are not modelled.
 An MCP item is identified by its index in the combined inventory, as the source identifies it by
 reference.
 */
module Diagnostics {
  import opened Common
  import opened CloudProbe
  import opened UrlText
  import Glob

  const CLOUD := "jugglework-cloud"
  const AGENT := "jugglework"
  const MAX_ROWS := 200
  const STALE_MS := 60000

  // ---- Reports ------------------------------------------------------------------------------------

  datatype CheckId =
    | RequestSafety | WorkspaceRuntime | ConnectSteeringScope | AgentResolution
    | AgentPromptMarkers | AgentConnectToolPermissions | PluginRegistration | McpInventory
    | EngineConfigCheck | EngineAgentCheck | EnginePluginTools | EngineMcpSync
    | EngineMcpStatus | CloudToolCatalog | OrganizationConnections | ReportSafety

  const CHECK_IDS: seq<CheckId> := [
    RequestSafety, WorkspaceRuntime, ConnectSteeringScope, AgentResolution,
    AgentPromptMarkers, AgentConnectToolPermissions, PluginRegistration, McpInventory,
    EngineConfigCheck, EngineAgentCheck, EnginePluginTools, EngineMcpSync,
    EngineMcpStatus, CloudToolCatalog, OrganizationConnections, ReportSafety]

  datatype Status = Passed | Warned | FailedCheck | Skipped

  datatype Evidence = ObservedEvidence | ClientObserved | Expected | Derived | Unavailable

  datatype Check = Check(id: CheckId, status: Status, evidence: Evidence)

  datatype Source = FromEngine | FromProject | FromGlobal | FromRuntime

  datatype SyncStatus = Registered(registration: Registration) | NotApplicable

  datatype McpRow = McpRow(name: string, source: Source, path: Option<string>, sync: SyncStatus)

  datatype OrgStatus = OrgObserved | OrgUnavailable | OrgSkipped

  datatype OrgCode = SignedOut | ListFailed | NotAttempted | RemoteWorkspacePrivacy

  datatype OrgProbe = OrgProbe(status: OrgStatus, code: Option<OrgCode>, totalCount: nat, truncated: bool)

  datatype Connection = Connection(id: string, shared: bool, connected: bool, connectedForMe: bool,
                                   needsReconnect: bool, missingFeatureCount: nat)

  datatype OrgRequest = OrgRequest(probe: OrgProbe, connections: seq<Connection>)

  datatype Report = Report(
    overall: Status,
    firstFailed: Option<CheckId>,
    checks: seq<Check>,
    effectiveEvidence: bool,
    mcps: seq<McpRow>,
    observedToolIds: seq<string>,
    organization: OrgRequest,
    toolsListPerformed: bool,
    engineApiReadPerformed: bool,
    engineBootstrapMayHaveRun: bool)

  // ---- The schema's cross-field rules ---------------------------------------------------------------

  /** `organizationConnectionsProbeSchema`. */
  predicate OrgProbeOk(probe: OrgProbe) {
    && (probe.status == OrgObserved ==> probe.code == None)
    && (probe.status == OrgUnavailable ==> probe.code == Some(ListFailed))
    && (probe.status == OrgSkipped ==> probe.code in {Some(SignedOut), Some(NotAttempted), Some(RemoteWorkspacePrivacy)})
    && (probe.status != OrgObserved ==> probe.totalCount == 0 && !probe.truncated)
  }

  /** What the request schema and the report schema both ask of the organization rows. */
  predicate OrgRowsOk(org: OrgRequest) {
    && (org.probe.status != OrgObserved ==> org.connections == [])
    && (org.probe.status == OrgObserved ==>
          && org.probe.totalCount >= |org.connections|
          && org.probe.truncated == (org.probe.totalCount > |org.connections|))
  }

  predicate Distinct<T(==)>(s: seq<T>) {
    forall i, j | 0 <= i < j < |s| :: s[i] != s[j]
  }

  /** `agentContextDiagnosticsRequestSchema`. */
  predicate RequestAccepted(org: OrgRequest) {
    && OrgProbeOk(org.probe) && OrgRowsOk(org) && |org.connections| <= 200
    && forall i, j | 0 <= i < j < |org.connections| :: org.connections[i].id != org.connections[j].id
  }

  predicate AnyStatus(checks: seq<Check>, status: Status) {
    exists i | 0 <= i < |checks| :: checks[i].status == status
  }

  function Severity(checks: seq<Check>): Status {
    if AnyStatus(checks, FailedCheck) then FailedCheck
    else if AnyStatus(checks, Warned) then Warned
    else Passed
  }

  function FirstFailed(checks: seq<Check>): Option<CheckId> {
    if checks == [] then None
    else if checks[0].status == FailedCheck then Some(checks[0].id)
    else FirstFailed(checks[1..])
  }

  /** `checks.find((check) => check.id === id)`. */
  function FindCheck(checks: seq<Check>, id: CheckId): Option<Check> {
    if checks == [] then None else if checks[0].id == id then Some(checks[0]) else FindCheck(checks[1..], id)
  }

  predicate RetainedCloudRow(row: McpRow) {
    row.source == FromRuntime && row.name == CLOUD && row.path == Some(TERMINAL_PATH) && row.sync == Registered(Connected)
  }

  /** Each check once, in canonical order. */
  predicate Canonical(checks: seq<Check>) {
    |checks| == |CHECK_IDS| && forall i | 0 <= i < |CHECK_IDS| :: checks[i].id == CHECK_IDS[i]
  }

  predicate ChecksOk(report: Report) {
    && Canonical(report.checks)
    && report.overall == Severity(report.checks)
    && report.firstFailed == FirstFailed(report.checks)
  }

  predicate OrganizationOk(report: Report) {
    OrgProbeOk(report.organization.probe) && OrgRowsOk(report.organization) && |report.organization.connections| <= 200
  }

  predicate ToolIdsOk(report: Report) {
    && Distinct(report.observedToolIds) && |report.observedToolIds| <= 100
    && (!report.toolsListPerformed ==> report.observedToolIds == [])
  }

  predicate EngineReadOk(report: Report) {
    && report.engineBootstrapMayHaveRun == report.engineApiReadPerformed
    && (!report.engineApiReadPerformed ==>
          forall i | 0 <= i < |report.checks| :: report.checks[i].id in {EngineConfigCheck, EngineAgentCheck} ==>
            report.checks[i].status == Warned && report.checks[i].evidence == Unavailable)
  }

  predicate EffectiveEvidenceOk(report: Report) {
    if report.effectiveEvidence then
      var config, agent := FindCheck(report.checks, EngineConfigCheck), FindCheck(report.checks, EngineAgentCheck);
      && report.engineApiReadPerformed
      && config.Some? && config.value.status == Passed && config.value.evidence == ObservedEvidence
      && agent.Some? && agent.value.evidence == ObservedEvidence
    else
      forall i | 0 <= i < |report.mcps| :: report.mcps[i].source != FromEngine
  }

  predicate CatalogOk(report: Report) {
    report.toolsListPerformed ==>
      && (exists i | 0 <= i < |report.mcps| :: RetainedCloudRow(report.mcps[i]))
      && report.effectiveEvidence
      && var policy := FindCheck(report.checks, AgentConnectToolPermissions);
         policy.Some? && policy.value.status == Passed
  }

  /** The object-level refinement of the report schema, with the array bounds it rests on. */
  predicate Accepts(report: Report) {
    && ChecksOk(report) && |report.mcps| <= MAX_ROWS && OrganizationOk(report) && ToolIdsOk(report)
    && EngineReadOk(report) && EffectiveEvidenceOk(report) && CatalogOk(report)
  }

  // ---- The builder's inputs -------------------------------------------------------------------------

  datatype Mode = Subagent | Primary | All

  datatype Agent = Agent(name: string, mode: Mode, hidden: bool, rules: seq<Glob.Rule>)

  datatype McpEntry = McpEntry(name: string, config: McpConfig)

  datatype Snapshot = Snapshot(defaultAgent: Option<string>, mcps: seq<McpEntry>, agents: seq<Agent>)

  /** What the engine reader does if it is called: throw, or answer with text that does or does not validate. */
  datatype EngineRead = ReadThrows | ReadInvalid | ReadSnapshot(snapshot: Snapshot)

  datatype RuntimeStatus = RuntimeAvailable | DatabaseMissing | RowMissing | TableMissing | Unreadable | InvalidRow | RemoteWorkspace

  datatype Passive = Passive(global: seq<McpEntry>, project: seq<McpEntry>, collisions: bool, layerProblem: bool, deniedTools: nat)

  datatype Facts = Facts(
    connectAvailable: bool, steeringDrift: bool, promptMatches: bool, pluginMatched: bool)

  datatype Env = Env(
    local: bool,
    engineConfigured: bool,
    readerSupplied: bool,
    engineRead: EngineRead,
    runtimeStatus: RuntimeStatus,
    runtimeMcps: seq<McpEntry>,
    passive: Option<Passive>,
    request: OrgRequest,
    facts: Facts,
    runId: string,
    web: Web,
    fold: char -> char,
    safeName: string -> string)

  datatype Item = Item(name: string, config: McpConfig, source: Source)

  datatype Inspection = Inspection(status: Registration, recordAgeMs: Option<nat>)

  // ---- Derived evidence -----------------------------------------------------------------------------

  predicate EngineReadPerformed(env: Env) { env.engineConfigured && env.local && env.readerSupplied }

  function EffectiveEngineOf(env: Env): Option<Snapshot> {
    if EngineReadPerformed(env) && env.engineRead.ReadSnapshot? then Some(env.engineRead.snapshot) else None
  }

  function FindAgent(agents: seq<Agent>): Option<Agent> {
    if agents == [] then None else if agents[0].name == AGENT then Some(agents[0]) else FindAgent(agents[1..])
  }

  predicate UsableAgent(snapshot: Snapshot) {
    var agent := FindAgent(snapshot.agents);
    && agent.Some? && snapshot.defaultAgent == Some(AGENT) && !agent.value.hidden && agent.value.mode in {Primary, All}
  }

  const TOOL_IDS: seq<string> := [CLOUD + "_" + SEARCH, CLOUD + "_" + EXECUTE]

  function ToolDecision(agent: Agent, toolId: string, fold: char -> char): Glob.Action {
    Glob.Decision(agent.rules, Glob.RulesFor(toolId, fold))
  }

  function PolicyOf(snapshot: Option<Snapshot>, fold: char -> char): PolicyStatus {
    if snapshot.None? || !UsableAgent(snapshot.value) then PolicyUnavailable
    else
      var agent := FindAgent(snapshot.value.agents).value;
      if exists i | 0 <= i < |TOOL_IDS| :: ToolDecision(agent, TOOL_IDS[i], fold) == Glob.Deny then PolicyDenied
      else PolicyAvailable
  }

  /** The tool ids among `ids` that the agent's rules deny, in their order. */
  function Denied(agent: Agent, ids: seq<string>, fold: char -> char): seq<string> {
    if ids == [] then []
    else
      var n := |ids| - 1;
      Denied(agent, ids[..n], fold) + if ToolDecision(agent, ids[n], fold) == Glob.Deny then [ids[n]] else []
  }

  lemma {:induction false} DeniedIff(agent: Agent, ids: seq<string>, fold: char -> char)
    ensures forall id :: id in Denied(agent, ids, fold) <==> id in ids && ToolDecision(agent, id, fold) == Glob.Deny
    ensures |Denied(agent, ids, fold)| <= |ids|
  {
    if ids != [] {
      DeniedIff(agent, ids[..|ids| - 1], fold);
      assert ids == ids[..|ids| - 1] + [ids[|ids| - 1]];
    }
  }

  /** `assessEffectiveToolPolicy`: the status, and the decision and denial list behind it. */
  method AssessEffectiveToolPolicy(snapshot: Option<Snapshot>, fold: char -> char)
    returns (status: PolicyStatus, decisions: map<string, Glob.Action>, denied: seq<string>)
    ensures status == PolicyOf(snapshot, fold)
    ensures status == PolicyDenied <==> denied != []
    ensures status != PolicyUnavailable ==> snapshot.Some? && UsableAgent(snapshot.value)
    ensures status != PolicyUnavailable ==> forall toolId :: toolId in decisions <==> toolId in TOOL_IDS
    ensures status != PolicyUnavailable ==> forall toolId | toolId in TOOL_IDS ::
              && decisions[toolId] == ToolDecision(FindAgent(snapshot.value.agents).value, toolId, fold)
              && (toolId in denied <==> decisions[toolId] == Glob.Deny)
    ensures status == PolicyUnavailable ==> decisions == map[] && denied == []
    ensures status != PolicyUnavailable ==> denied == Denied(FindAgent(snapshot.value.agents).value, TOOL_IDS, fold)
  {
    if snapshot.None? { return PolicyUnavailable, map[], []; }
    var agent := FindAgent(snapshot.value.agents);
    if agent.None? { return PolicyUnavailable, map[], []; }
    if snapshot.value.defaultAgent != Some(AGENT) || agent.value.hidden || agent.value.mode !in {Primary, All} {
      return PolicyUnavailable, map[], [];
    }
    decisions, denied := DecideTools(agent.value, TOOL_IDS, fold);
    DeniedIff(agent.value, TOOL_IDS, fold);
    if denied != [] {
      assert denied[0] in denied && denied[0] in TOOL_IDS;
    }
    status := if denied != [] then PolicyDenied else PolicyAvailable;
  }

  /** The loop over the tool ids. */
  method DecideTools(agent: Agent, ids: seq<string>, fold: char -> char) returns (decisions: map<string, Glob.Action>, denied: seq<string>)
    ensures forall toolId :: toolId in decisions <==> toolId in ids
    ensures forall toolId | toolId in ids :: decisions[toolId] == ToolDecision(agent, toolId, fold)
    ensures denied == Denied(agent, ids, fold)
  {
    decisions, denied := map[], [];
    for i := 0 to |ids|
      invariant decisions == Decisions(agent, ids[..i], fold) && denied == Denied(agent, ids[..i], fold)
    {
      DecisionsNext(agent, ids, i, fold);
      var action := Glob.EffectiveToolDecision(agent.rules, Glob.RulesFor(ids[i], fold));
      decisions := decisions[ids[i] := action];
      if action == Glob.Deny { denied := denied + [ids[i]]; }
    }
    assert ids[..|ids|] == ids;
  }

  function Decisions(agent: Agent, ids: seq<string>, fold: char -> char): map<string, Glob.Action> {
    map id | id in ids :: ToolDecision(agent, id, fold)
  }

  lemma {:induction false} DecisionsNext(agent: Agent, ids: seq<string>, i: nat, fold: char -> char)
    requires i < |ids|
    ensures Decisions(agent, ids[..i + 1], fold) == Decisions(agent, ids[..i], fold)[ids[i] := ToolDecision(agent, ids[i], fold)]
    ensures Denied(agent, ids[..i + 1], fold)
         == Denied(agent, ids[..i], fold) + if ToolDecision(agent, ids[i], fold) == Glob.Deny then [ids[i]] else []
  {
    assert ids[..i + 1] == ids[..i] + [ids[i]] && ids[..i + 1][..i] == ids[..i];
  }

  /** The policy status the report and the probe are given. */
  function ToolPolicy(env: Env): PolicyStatus {
    var engine := EffectiveEngineOf(env);
    if engine.Some? then PolicyOf(engine, env.fold)
    else if StaticallyDenied(env) then PolicyDenied
    else PolicyUnavailable
  }

  predicate StaticallyDenied(env: Env) { env.passive.Some? && env.passive.value.deniedTools > 0 }

  function Provenance(env: Env, policy: PolicyStatus): PolicyProvenance {
    if EffectiveEngineOf(env).Some? && policy != PolicyUnavailable then EffectiveEngine
    else if EffectiveEngineOf(env).None? && StaticallyDenied(env) then PassiveStatic
    else NoProvenance
  }

  // ---- Inventory ------------------------------------------------------------------------------------

  function ItemsFrom(entries: seq<McpEntry>, source: Source): (items: seq<Item>)
    ensures |items| == |entries|
    ensures forall i | 0 <= i < |items| :: items[i].source == source
  {
    seq(|entries|, i requires 0 <= i < |entries| => Item(entries[i].name, entries[i].config, source))
  }

  /** With an effective engine only the runtime layer is inventoried beside it. */
  function Inventory(env: Env): seq<Item> {
    if EffectiveEngineOf(env).Some? || env.passive.None? then ItemsFrom(env.runtimeMcps, FromRuntime)
    else ItemsFrom(env.passive.value.global, FromGlobal) + ItemsFrom(env.runtimeMcps, FromRuntime)
         + ItemsFrom(env.passive.value.project, FromProject)
  }

  function Combined(env: Env): seq<Item> {
    Inventory(env) + if EffectiveEngineOf(env).Some? then ItemsFrom(EffectiveEngineOf(env).value.mcps, FromEngine) else []
  }

  predicate IsCloud(item: Item) { item.source == FromRuntime && item.name == CLOUD }

  /** The first runtime-managed cloud item, or the length if there is none. */
  function CloudIndex(items: seq<Item>): (k: nat)
    ensures k <= |items|
    ensures k < |items| ==> IsCloud(items[k])
    ensures forall i | 0 <= i < k :: !IsCloud(items[i])
  {
    if items == [] || IsCloud(items[0]) then 0 else 1 + CloudIndex(items[1..])
  }

  /** The indices reported: the first 200, with the last slot given to the cloud item if it fell off. */
  function Kept(items: seq<Item>): (kept: seq<nat>)
    ensures forall i | 0 <= i < |kept| :: kept[i] < |items|
  {
    var n := if |items| <= MAX_ROWS then |items| else MAX_ROWS;
    var first := seq(n, i requires 0 <= i < n => i);
    var k := CloudIndex(items);
    if k < |items| && k >= n && n == MAX_ROWS then first[MAX_ROWS - 1 := k] else first
  }

  function NamesOf(entries: seq<McpEntry>): set<string> { set i | 0 <= i < |entries| :: entries[i].name }

  predicate Managed(names: set<string>, item: Item) { item.source == FromRuntime && item.name in names }

  /** `cloudTerminalPathEvidence`: the URL is parsed as configured, without trimming it first. */
  function PathEvidence(item: Item, web: Web): Option<string> {
    if item.name != CLOUD || item.source !in {FromRuntime, FromEngine} || item.config.url.None? then None
    else
      var parsed := web.parse(item.config.url.value);
      if parsed.None? then None
      else
        var url := parsed.value;
        if !EndsWith(url.pathname, TERMINAL_PATH) || EndsWith(url.pathname, TERMINAL_PATH + "/") then None
        else if url.username != "" || url.password != "" || url.search != "" || url.hash != "" then None
        else Some(TERMINAL_PATH)
  }

  function Row(env: Env, item: Item, status: Registration): McpRow {
    McpRow(env.safeName(item.name), item.source, PathEvidence(item, env.web),
           if Managed(NamesOf(env.runtimeMcps), item) then Registered(status) else NotApplicable)
  }

  function CloudConfig(entries: seq<McpEntry>): Option<McpConfig> {
    if entries == [] then None
    else if entries[0].name == CLOUD then Some(entries[0].config)
    else CloudConfig(entries[1..])
  }

  /** The registration status the probe is told. */
  function RegistrationFor(env: Env, known: map<nat, Inspection>): Registration {
    var k := CloudIndex(Combined(env));
    if k < |Combined(env)| && CloudConfig(env.runtimeMcps).Some? && k in known then known[k].status else NotRecorded
  }

  /** What `probeJuggleWorkCloudCatalog` is called with, given the tool policy and the registration memo. */
  function ProbeInputOf(env: Env, policy: PolicyStatus, known: map<nat, Inspection>): ProbeInput {
    var config := CloudConfig(env.runtimeMcps);
    ProbeInput(
      env.local,
      env.runtimeStatus == RuntimeAvailable,
      if env.runtimeStatus in {Unreadable, InvalidRow, TableMissing} then None else config,
      policy,
      Provenance(env, policy),
      RegistrationFor(env, known),
      env.runId)
  }

  // ---- The sixteen checks -----------------------------------------------------------------------------

  function EngineChecks(engine: Option<Snapshot>): (r: (Check, Check))
    ensures r.0.id == EngineConfigCheck && r.1.id == EngineAgentCheck
  {
    if engine.None? then
      (Check(EngineConfigCheck, Warned, Unavailable), Check(EngineAgentCheck, Warned, Unavailable))
    else
      (Check(EngineConfigCheck, Passed, ObservedEvidence),
       Check(EngineAgentCheck, if FindAgent(engine.value.agents).Some? then Passed else FailedCheck, ObservedEvidence))
  }

  function RuntimeHealth(env: Env): (c: Check)
    ensures c.id == WorkspaceRuntime
  {
    var corrupt := env.runtimeStatus in {Unreadable, InvalidRow};
    var degraded := env.runtimeStatus in {DatabaseMissing, RowMissing, TableMissing, RemoteWorkspace};
    Check(WorkspaceRuntime,
          if corrupt || !env.engineConfigured then FailedCheck else if degraded then Warned else Passed,
          if corrupt then Unavailable else Derived)
  }

  function InventoryCheck(env: Env): (c: Check)
    ensures c.id == McpInventory
  {
    var engine, over := EffectiveEngineOf(env).Some?, |Combined(env)| > MAX_ROWS;
    // Without a passive inspection both static layers count as unreadable.
    var layerProblem := env.passive.None? || env.passive.value.layerProblem;
    var collisions := env.passive.Some? && env.passive.value.collisions;
    Check(McpInventory,
          if over || (!engine && (collisions || env.passive.None? || layerProblem)) then Warned else Passed,
          if engine then ObservedEvidence else if layerProblem then Unavailable else Derived)
  }

  /** Failed registrations: enabled entries neither connected nor unrecorded, disabled entries neither
      disabled nor unrecorded. */
  predicate FailedRegistration(item: Item, inspection: Inspection) {
    inspection.status !in {if item.config.enabled == EnabledFalse then Disabled else Connected, NotRecorded}
  }

  predicate ReadReachedEngine(env: Env) { EngineReadPerformed(env) && !env.engineRead.ReadThrows? }

  predicate StaleEvidence(env: Env, inspection: Inspection) {
    ReadReachedEngine(env) && inspection.recordAgeMs.Some? && inspection.recordAgeMs.value > STALE_MS
  }

  ghost predicate Inspected(env: Env, known: map<nat, Inspection>) {
    forall i | 0 <= i < |Inventory(env)| && Inventory(env)[i].source == FromRuntime :: i in known
  }

  function SyncCheck(env: Env, known: map<nat, Inspection>): (c: Check)
    requires Inspected(env, known)
    ensures c.id == EngineMcpSync
  {
    var items := Inventory(env);
    var failed := set i | 0 <= i < |items| && items[i].source == FromRuntime && FailedRegistration(items[i], known[i]);
    Check(EngineMcpSync,
      if failed != {} then if forall i | i in failed :: StaleEvidence(env, known[i]) then Warned else FailedCheck
      else if exists i | 0 <= i < |items| :: items[i].source == FromRuntime && items[i].config.enabled != EnabledFalse
                                             && known[i].status == NotRecorded then Warned
      else if exists i | 0 <= i < |items| :: items[i].source == FromRuntime then Passed
      else Skipped,
      Derived)
  }

  /** `cloudCatalogCheck`. */
  function CatalogCheck(probe: Probe): (c: Check)
    ensures c.id == CloudToolCatalog
  {
    if probe.status == Observed then
      Check(CloudToolCatalog, if |probe.toolIds| == 2 && SEARCH in probe.toolIds && EXECUTE in probe.toolIds then Passed
                              else FailedCheck, ObservedEvidence)
    else match probe.code
      case RuntimeConfigUnavailable | RemoteWorkspaceUnavailable | ToolPolicyUnavailable | ProbeBusy =>
        Check(CloudToolCatalog, Warned, Unavailable)
      case RegistrationNotRecorded | RateLimited =>
        Check(CloudToolCatalog, Warned, if probe.performed then ObservedEvidence else Derived)
      case _ => Check(CloudToolCatalog, FailedCheck, if probe.performed then ObservedEvidence else Derived)
  }

  predicate NeedsAttention(connection: Connection) {
    || connection.needsReconnect || connection.missingFeatureCount > 0
    || (if connection.shared then !connection.connected else !connection.connectedForMe)
  }

  function OrganizationCheck(org: OrgRequest): (c: Check)
    ensures c.id == OrganizationConnections
  {
    match org.probe.status
    case OrgUnavailable => Check(OrganizationConnections, Warned, ClientObserved)
    case OrgSkipped => Check(OrganizationConnections, Skipped, ClientObserved)
    case OrgObserved =>
      var attention := exists i | 0 <= i < |org.connections| :: NeedsAttention(org.connections[i]);
      Check(OrganizationConnections, if attention || org.probe.truncated then Warned else Passed, ClientObserved)
  }

  function AgentCheck(env: Env): (c: Check)
    ensures c.id == AgentResolution
  {
    var engine := EffectiveEngineOf(env);
    if engine.Some? then Check(AgentResolution, if UsableAgent(engine.value) then Passed else FailedCheck, ObservedEvidence)
    else Check(AgentResolution, Warned, if env.runtimeStatus == RuntimeAvailable then Expected else Unavailable)
  }

  function PolicyCheck(env: Env, policy: PolicyStatus): (c: Check)
    ensures c.id == AgentConnectToolPermissions
  {
    match policy
    case PolicyUnavailable => Check(AgentConnectToolPermissions, Warned, Unavailable)
    case PolicyDenied => Check(AgentConnectToolPermissions, FailedCheck, ObservedOr(env, Derived))
    case PolicyAvailable => Check(AgentConnectToolPermissions, Passed, ObservedOr(env, Derived))
  }

  function ObservedOr(env: Env, otherwise: Evidence): Evidence {
    if EffectiveEngineOf(env).Some? then ObservedEvidence else otherwise
  }

  function Checks(env: Env, policy: PolicyStatus, known: map<nat, Inspection>, probe: Probe): (checks: seq<Check>)
    requires Inspected(env, known)
    ensures Canonical(checks)
    ensures checks[5] == PolicyCheck(env, policy)
    ensures (checks[8], checks[9]) == EngineChecks(EffectiveEngineOf(env))
  {
    InOrder(FirstChecks(env, policy), LaterChecks(env, known, probe));
    FirstChecks(env, policy) + LaterChecks(env, known, probe)
  }

  function FirstChecks(env: Env, policy: PolicyStatus): (checks: seq<Check>)
    ensures |checks| == 8 && forall i | 0 <= i < 8 :: checks[i].id == CHECK_IDS[i]
    ensures checks[5] == PolicyCheck(env, policy)
  {
    var steeringOk := env.facts.connectAvailable && !env.facts.steeringDrift;
    [ Check(RequestSafety, Passed, ObservedEvidence),
      RuntimeHealth(env),
      Check(ConnectSteeringScope, if steeringOk then Passed else Warned, if env.facts.connectAvailable then Derived else Unavailable),
      AgentCheck(env),
      Check(AgentPromptMarkers, if env.facts.promptMatches then Passed else FailedCheck, ObservedOr(env, Expected)),
      PolicyCheck(env, policy),
      Check(PluginRegistration, if env.facts.pluginMatched then Passed else FailedCheck, ObservedOr(env, Expected)),
      InventoryCheck(env) ]
  }

  function LaterChecks(env: Env, known: map<nat, Inspection>, probe: Probe): (checks: seq<Check>)
    requires Inspected(env, known)
    ensures |checks| == 8 && forall i | 0 <= i < 8 :: checks[i].id == CHECK_IDS[i + 8]
    ensures (checks[0], checks[1]) == EngineChecks(EffectiveEngineOf(env))
  {
    var engine := EngineChecks(EffectiveEngineOf(env));
    [ engine.0,
      engine.1,
      Check(EnginePluginTools, Warned, Unavailable),
      SyncCheck(env, known),
      Check(EngineMcpStatus, Skipped, Unavailable),
      CatalogCheck(probe),
      OrganizationCheck(env.request),
      Check(ReportSafety, Passed, Derived) ]
  }

  lemma InOrder(first: seq<Check>, later: seq<Check>)
    requires |first| == 8 && forall i | 0 <= i < 8 :: first[i].id == CHECK_IDS[i]
    requires |later| == 8 && forall i | 0 <= i < 8 :: later[i].id == CHECK_IDS[i + 8]
    ensures Canonical(first + later)
  {
    forall i | 0 <= i < 16 ensures (first + later)[i].id == CHECK_IDS[i] {
      assert (first + later)[i] == if i < 8 then first[i] else later[i - 8];
    }
  }

  /** Every item the report or the probe looks at has a memoised registration. */
  ghost predicate Memoised(env: Env, known: map<nat, Inspection>) {
    && Inspected(env, known)
    && forall i | 0 <= i < |Kept(Combined(env))| :: Kept(Combined(env))[i] in known
  }

  function Rows(env: Env, known: map<nat, Inspection>): seq<McpRow>
    requires Memoised(env, known)
  {
    var items, kept := Combined(env), Kept(Combined(env));
    seq(|kept|, i requires 0 <= i < |kept| => Row(env, items[kept[i]], known[kept[i]].status))
  }

  function Assemble(checks: seq<Check>, effective: bool, rows: seq<McpRow>, probe: Probe, request: OrgRequest, engineRead: bool): Report {
    Report(Severity(checks), FirstFailed(checks), checks, effective, rows, probe.toolIds, request,
           probe.toolsListPerformed, engineRead, engineRead)
  }

  function BuildReport(env: Env, policy: PolicyStatus, known: map<nat, Inspection>, probe: Probe): Report
    requires Memoised(env, known)
  {
    Assemble(Checks(env, policy, known, probe), EffectiveEngineOf(env).Some?, Rows(env, known), probe, env.request,
             EngineReadPerformed(env))
  }

  // ---- Every built report meets the cross-field rules, except one family ----------------------------

  /** What `ProbeCatalog` guarantees about its result for a given input. */
  ghost predicate ProbeContract(probe: Probe, input: ProbeInput, web: Web) {
    && (probe.toolsListPerformed ==> Permitted(input, web))
    && (probe.toolIds != [] ==> probe.toolsListPerformed)
    && (probe.toolIds == [] || probe.toolIds == [SEARCH, EXECUTE])
  }

  /** The probe gets as far as tools/list: it is prepared, a slot is free, and the handshake opens. */
  predicate Attempts(input: ProbeInput, web: Web, active: nat, h: Handshake, codec: Codec) {
    Prepare(input, web).Ok? && active < MAX_ACTIVE_PROBES && OpenOk(h, codec)
  }

  ghost predicate UniqueNames(entries: seq<McpEntry>) {
    forall i, j | 0 <= i < j < |entries| :: entries[i].name != entries[j].name
  }

  /** The sanitizer leaves the fixed name of the managed entry alone. */
  ghost predicate Sane(env: Env) {
    UniqueNames(env.runtimeMcps) && env.safeName(CLOUD) == CLOUD && RequestAccepted(env.request)
  }

  /** The configured cloud URL is padded in a way the probe ignores and the report does not. */
  predicate PaddedUrl(env: Env) {
    var config := CloudConfig(env.runtimeMcps);
    config.Some? && config.value.url.Some? && !PlainPadding(config.value.url.value)
  }

  lemma {:induction false} CloudConfigIsFirst(entries: seq<McpEntry>)
    ensures CloudConfig(entries).Some? <==> CloudIndex(ItemsFrom(entries, FromRuntime)) < |entries|
    ensures CloudConfig(entries).Some? ==>
              CloudConfig(entries).value == entries[CloudIndex(ItemsFrom(entries, FromRuntime))].config
  {
    if entries != [] && entries[0].name != CLOUD {
      CloudConfigIsFirst(entries[1..]);
      assert ItemsFrom(entries, FromRuntime)[1..] == ItemsFrom(entries[1..], FromRuntime);
    }
  }

  lemma {:induction false} CloudIndexAppend(items: seq<Item>, more: seq<Item>)
    requires CloudIndex(items) < |items|
    ensures CloudIndex(items + more) == CloudIndex(items)
  {
    if !IsCloud(items[0]) {
      assert (items + more)[1..] == items[1..] + more;
      CloudIndexAppend(items[1..], more);
    }
  }

  /** The cloud item survives truncation. */
  lemma CloudItemIsKept(items: seq<Item>)
    requires CloudIndex(items) < |items|
    ensures exists j :: 0 <= j < |Kept(items)| && Kept(items)[j] == CloudIndex(items)
  {
    var k := CloudIndex(items);
    var n := if |items| <= MAX_ROWS then |items| else MAX_ROWS;
    if k < n {
      assert Kept(items)[k] == k;
    } else {
      assert Kept(items)[MAX_ROWS - 1] == k;
    }
  }

  lemma {:induction false} FindCheckAt(checks: seq<Check>, i: nat)
    requires i < |checks| && forall j | 0 <= j < i :: checks[j].id != checks[i].id
    ensures FindCheck(checks, checks[i].id) == Some(checks[i])
  {
    if i > 0 {
      FindCheckAt(checks[1..], i - 1);
    }
  }

  /** The path evidence of an entry the probe accepted: present exactly when its padding is plain. */
  lemma PathEvidenceIff(config: McpConfig, web: Web)
    requires UrlLaws(web.parse)
    requires config.url.Some? && EndpointFacts(config.url.value, web.parse)
    ensures PathEvidence(Item(CLOUD, config, FromRuntime), web)
         == if PlainPadding(config.url.value) then Some(TERMINAL_PATH) else None
  {
    if PlainPadding(config.url.value) {
      PlainPaddingAgrees(config.url.value, web.parse);
    } else {
      OtherPaddingLosesThePath(config.url.value, web.parse);
    }
  }

  ghost predicate HasRetainedRow(rows: seq<McpRow>) {
    exists i | 0 <= i < |rows| :: RetainedCloudRow(rows[i])
  }

  /** A connected cloud entry has a retained row exactly when it has path evidence: its row survives
      truncation, and no other row can pass for it. */
  lemma RetainedRowIff(env: Env, known: map<nat, Inspection>)
    requires Sane(env) && Memoised(env, known) && EffectiveEngineOf(env).Some?
    requires CloudConfig(env.runtimeMcps).Some?
    requires CloudIndex(Combined(env)) in known && known[CloudIndex(Combined(env))].status == Connected
    ensures HasRetainedRow(Rows(env, known)) <==>
            PathEvidence(Item(CLOUD, CloudConfig(env.runtimeMcps).value, FromRuntime), env.web) == Some(TERMINAL_PATH)
  {
    var items, kept, rows := Combined(env), Kept(Combined(env)), Rows(env, known);
    CloudConfigIsFirst(env.runtimeMcps);
    CloudIndexAppend(ItemsFrom(env.runtimeMcps, FromRuntime), ItemsFrom(EffectiveEngineOf(env).value.mcps, FromEngine));
    var k := CloudIndex(items);
    assert items[k] == Item(CLOUD, CloudConfig(env.runtimeMcps).value, FromRuntime);
    CloudItemIsKept(items);
    var j :| 0 <= j < |kept| && kept[j] == k;
    assert env.runtimeMcps[k].name == items[k].name;
    assert rows[j] == Row(env, items[k], Connected);
    forall i | 0 <= i < |rows| && RetainedCloudRow(rows[i]) ensures rows[i] == rows[j] {
      OnlyCloudRow(env, known, i);
    }
  }

  lemma RowOfCloud(env: Env, item: Item, status: Registration)
    requires RetainedCloudRow(Row(env, item, status))
    ensures IsCloud(item)
  {
  }

  /** A row that could pass for the retained one is the row of the one cloud item. */
  lemma OnlyCloudRow(env: Env, known: map<nat, Inspection>, i: nat)
    requires Sane(env) && Memoised(env, known) && EffectiveEngineOf(env).Some?
    requires i < |Rows(env, known)| && RetainedCloudRow(Rows(env, known)[i])
    ensures Kept(Combined(env))[i] == CloudIndex(Combined(env))
  {
    var items, k := Combined(env), Kept(Combined(env))[i];
    RowOfCloud(env, items[k], known[k].status);
    assert k < |env.runtimeMcps| && env.runtimeMcps[k].name == CLOUD;
    var first := CloudIndex(items);
    assert IsCloud(items[first]) && first <= k;
    assert env.runtimeMcps[first].name == CLOUD;
  }

  lemma FindCanonical(checks: seq<Check>, i: nat)
    requires Canonical(checks) && i < |checks|
    ensures FindCheck(checks, CHECK_IDS[i]) == Some(checks[i])
  {
    forall j | 0 <= j < i ensures checks[j].id != checks[i].id {
      assert checks[j].id == CHECK_IDS[j] && checks[i].id == CHECK_IDS[i];
    }
    FindCheckAt(checks, i);
  }

  lemma EngineIdsAt(i: nat)
    requires i < |CHECK_IDS| && CHECK_IDS[i] in {EngineConfigCheck, EngineAgentCheck}
    ensures i == 8 || i == 9
  {
  }

  lemma EngineRulesHold(checks: seq<Check>, engine: Option<Snapshot>, rows: seq<McpRow>, probe: Probe, request: OrgRequest, read: bool)
    requires Canonical(checks) && (checks[8], checks[9]) == EngineChecks(engine)
    requires engine.Some? ==> read
    requires engine.None? ==> forall i | 0 <= i < |rows| :: rows[i].source != FromEngine
    ensures EngineReadOk(Assemble(checks, engine.Some?, rows, probe, request, read))
    ensures EffectiveEvidenceOk(Assemble(checks, engine.Some?, rows, probe, request, read))
  {
    FindCanonical(checks, 8);
    FindCanonical(checks, 9);
    forall i | 0 <= i < |checks| && checks[i].id in {EngineConfigCheck, EngineAgentCheck} ensures i == 8 || i == 9 {
      assert checks[i].id == CHECK_IDS[i];
      EngineIdsAt(i);
    }
  }

  lemma CatalogRuleIff(checks: seq<Check>, rows: seq<McpRow>, probe: Probe, request: OrgRequest, read: bool)
    requires Canonical(checks) && checks[5].status == Passed && probe.toolsListPerformed
    ensures CatalogOk(Assemble(checks, true, rows, probe, request, read)) <==> HasRetainedRow(rows)
  {
    FindCanonical(checks, 5);
  }

  lemma NoEngineRows(env: Env, known: map<nat, Inspection>)
    requires Memoised(env, known) && EffectiveEngineOf(env).None?
    ensures forall i | 0 <= i < |Rows(env, known)| :: Rows(env, known)[i].source != FromEngine
  {
    var rows := Rows(env, known);
    forall i | 0 <= i < |rows| ensures rows[i].source != FromEngine {
      assert Combined(env)[Kept(Combined(env))[i]].source != FromEngine;
    }
  }

  /** The part of acceptance that does not depend on tools/list having been performed. */
  lemma RestAccepted(env: Env, checks: seq<Check>, known: map<nat, Inspection>, probe: Probe)
    requires Sane(env) && Memoised(env, known) && Canonical(checks)
    requires (checks[8], checks[9]) == EngineChecks(EffectiveEngineOf(env))
    requires probe.toolIds != [] ==> probe.toolsListPerformed && probe.toolIds == [SEARCH, EXECUTE]
    ensures var report := Assemble(checks, EffectiveEngineOf(env).Some?, Rows(env, known), probe, env.request, EngineReadPerformed(env));
            Accepts(report) <==> CatalogOk(report)
  {
    if EffectiveEngineOf(env).None? {
      NoEngineRows(env, known);
    }
    AssembledRest(checks, EffectiveEngineOf(env), Rows(env, known), probe, env.request, EngineReadPerformed(env));
  }

  lemma AssembledRest(checks: seq<Check>, engine: Option<Snapshot>, rows: seq<McpRow>, probe: Probe, request: OrgRequest, read: bool)
    requires Canonical(checks) && (checks[8], checks[9]) == EngineChecks(engine) && RequestAccepted(request)
    requires (engine.Some? ==> read) && |rows| <= MAX_ROWS
    requires engine.None? ==> forall i | 0 <= i < |rows| :: rows[i].source != FromEngine
    requires probe.toolIds != [] ==> probe.toolsListPerformed && probe.toolIds == [SEARCH, EXECUTE]
    ensures var report := Assemble(checks, engine.Some?, rows, probe, request, read);
            Accepts(report) <==> CatalogOk(report)
  {
    EngineRulesHold(checks, engine, rows, probe, request, read);
    RequiredIdsDiffer(probe.toolIds);
  }

  lemma RequiredIdsDiffer(ids: seq<string>)
    requires ids == [] || ids == [SEARCH, EXECUTE]
    ensures Distinct(ids)
  {
    RequiredIdsAreWellFormed();
  }

  /** What a permitted probe says about the workspace it was permitted for. */
  lemma PermittedMeans(env: Env, policy: PolicyStatus, known: map<nat, Inspection>)
    requires Permitted(ProbeInputOf(env, policy, known), env.web)
    ensures EffectiveEngineOf(env).Some? && policy == PolicyAvailable && CloudConfig(env.runtimeMcps).Some?
    ensures CloudIndex(Combined(env)) in known && known[CloudIndex(Combined(env))].status == Connected
    ensures CloudConfig(env.runtimeMcps).value.url.Some?
    ensures EndpointFacts(CloudConfig(env.runtimeMcps).value.url.value, env.web.parse)
  {
  }

  lemma CloudRowIff(env: Env, policy: PolicyStatus, known: map<nat, Inspection>)
    requires Sane(env) && Memoised(env, known) && UrlLaws(env.web.parse)
    requires Permitted(ProbeInputOf(env, policy, known), env.web)
    ensures HasRetainedRow(Rows(env, known)) <==> !PaddedUrl(env)
  {
    PermittedMeans(env, policy, known);
    var config := CloudConfig(env.runtimeMcps).value;
    PathEvidenceIff(config, env.web);
    RetainedRowIff(env, known);
  }

  lemma AssembledAccepted(env: Env, policy: PolicyStatus, checks: seq<Check>, known: map<nat, Inspection>, probe: Probe)
    requires Sane(env) && Memoised(env, known) && Canonical(checks)
    requires checks[5] == PolicyCheck(env, policy) && (checks[8], checks[9]) == EngineChecks(EffectiveEngineOf(env))
    requires probe.toolIds != [] ==> probe.toolsListPerformed && probe.toolIds == [SEARCH, EXECUTE]
    requires probe.toolsListPerformed ==> EffectiveEngineOf(env).Some? && policy == PolicyAvailable
    ensures Accepts(Assemble(checks, EffectiveEngineOf(env).Some?, Rows(env, known), probe, env.request, EngineReadPerformed(env)))
       <==> (probe.toolsListPerformed ==> HasRetainedRow(Rows(env, known)))
  {
    RestAccepted(env, checks, known, probe);
    if probe.toolsListPerformed {
      CatalogRuleIff(checks, Rows(env, known), probe, env.request, EngineReadPerformed(env));
    }
  }

  /** For every workspace, engine snapshot, registration map and probe outcome, the built report meets
      the schema's cross-field rules exactly when tools/list was not performed over a padded URL. */
  lemma BuiltReportAccepted(env: Env, policy: PolicyStatus, known: map<nat, Inspection>, probe: Probe)
    requires Sane(env) && Memoised(env, known) && UrlLaws(env.web.parse)
    requires ProbeContract(probe, ProbeInputOf(env, policy, known), env.web)
    ensures Accepts(BuildReport(env, policy, known, probe)) <==> !(probe.toolsListPerformed && PaddedUrl(env))
  {
    if probe.toolsListPerformed {
      PermittedMeans(env, policy, known);
      CloudRowIff(env, policy, known);
    }
    AssembledAccepted(env, policy, Checks(env, policy, known, probe), known, probe);
  }

  /** The failing family is inhabited: put a no-break space before the URL of any probe that is prepared.
      The probe is prepared as before, for the same endpoint and with the same credential, while the
      report loses its path evidence. */
  lemma NoBreakSpaceIsLost(input: ProbeInput, clean: string, config: McpConfig, web: Web)
    requires UrlLaws(web.parse) && Prepare(input, web).Ok?
    requires input.config.Some? && input.config.value.url == Some(clean)
    requires config == input.config.value.(url := Some(['\U{A0}'] + clean))
    ensures !PlainPadding(config.url.value)
    ensures Prepare(input.(config := Some(config)), web) == Prepare(input, web)
    ensures PathEvidence(Item(CLOUD, config, FromRuntime), web) == None
  {
    PrepareIffPermitted(input, web);
    var padded := ['\U{A0}'] + clean;
    assert SafeEndpoint(Some(padded), web) == SafeEndpoint(Some(clean), web) && EndpointFacts(padded, web.parse)
      && !PlainPadding(padded) by {
      SafeEndpointByTrim(clean, clean, web);
      SafeEndpointIff(Some(clean), web);
      SpaceBefore(clean, padded);
      SafeEndpointByTrim(padded, clean, web);
    }
    OnlyEndpointMatters(input, config, web);
    PathEvidenceIff(config, web);
  }

  /** From there to a rejected report: whatever the workspace, once a probe over a padded URL gets as far as
      tools/list, the report that is built breaks the schema's rules. */
  lemma PaddedRunIsRejected(env: Env, known: map<nat, Inspection>, probe: Probe, active: nat, h: Handshake, codec: Codec)
    requires Sane(env) && Memoised(env, known) && UrlLaws(env.web.parse)
    requires ProbeContract(probe, ProbeInputOf(env, ToolPolicy(env), known), env.web)
    requires probe.toolsListPerformed <==> Attempts(ProbeInputOf(env, ToolPolicy(env), known), env.web, active, h, codec)
    requires CloudConfig(env.runtimeMcps).Some? && CloudConfig(env.runtimeMcps).value.url.Some?
    requires !PlainPadding(CloudConfig(env.runtimeMcps).value.url.value)
    ensures Attempts(ProbeInputOf(env, ToolPolicy(env), known), env.web, active, h, codec) <==>
            !Accepts(BuildReport(env, ToolPolicy(env), known, probe))
  {
    BuiltReportAccepted(env, ToolPolicy(env), known, probe);
  }

  /** The configuration with a no-break space put before the URL of its cloud entry. */
  function Padded(entries: seq<McpEntry>): seq<McpEntry> {
    if entries == [] then []
    else if entries[0].name == CLOUD then [entries[0].(config := PaddedConfig(entries[0].config))] + entries[1..]
    else [entries[0]] + Padded(entries[1..])
  }

  function PaddedConfig(config: McpConfig): McpConfig {
    if config.url.None? then config else config.(url := Some(['\U{A0}'] + config.url.value))
  }

  lemma {:induction false} PaddedKeepsNames(entries: seq<McpEntry>)
    ensures |Padded(entries)| == |entries| && forall i | 0 <= i < |entries| :: Padded(entries)[i].name == entries[i].name
    ensures CloudConfig(entries).Some? ==> CloudConfig(Padded(entries)) == Some(PaddedConfig(CloudConfig(entries).value))
  {
    if entries != [] && entries[0].name != CLOUD {
      PaddedKeepsNames(entries[1..]);
      assert Padded(entries)[1..] == Padded(entries[1..]);
    }
  }

  /** The same names in the same places, from the same layers. */
  ghost predicate SamePlaces(a: seq<Item>, b: seq<Item>) {
    |a| == |b| && forall i | 0 <= i < |a| :: a[i].name == b[i].name && a[i].source == b[i].source
  }

  lemma {:induction false} SamePlacesSameRows(a: seq<Item>, b: seq<Item>)
    requires SamePlaces(a, b)
    ensures CloudIndex(a) == CloudIndex(b) && Kept(a) == Kept(b)
  {
    var i, j := CloudIndex(a), CloudIndex(b);
    assert i < |a| ==> IsCloud(b[i]);
    assert j < |b| ==> IsCloud(a[j]);
  }

  /** Padding changes nothing the builder looks at but the URL. */
  lemma {:induction false} PaddedEnv(env: Env, padded: Env, policy: PolicyStatus, known: map<nat, Inspection>)
    requires Sane(env) && Memoised(env, known) && padded == env.(runtimeMcps := Padded(env.runtimeMcps))
    requires CloudConfig(env.runtimeMcps).Some? && env.runtimeStatus == RuntimeAvailable
    ensures Sane(padded) && Memoised(padded, known)
    ensures ProbeInputOf(padded, policy, known)
         == ProbeInputOf(env, policy, known).(config := Some(PaddedConfig(CloudConfig(env.runtimeMcps).value)))
  {
    PaddedKeepsNames(env.runtimeMcps);
    PaddedPlaces(env, padded);
    SamePlacesSameRows(Combined(env), Combined(padded));
    SamePlacesInspected(env, padded, known);
    PaddedRegistration(env, padded, known);
  }

  lemma SamePlacesInspected(env: Env, padded: Env, known: map<nat, Inspection>)
    requires SamePlaces(Inventory(env), Inventory(padded)) && Inspected(env, known)
    ensures Inspected(padded, known)
  {
    forall i | 0 <= i < |Inventory(padded)| && Inventory(padded)[i].source == FromRuntime ensures i in known {
      assert Inventory(env)[i].source == FromRuntime;
    }
  }

  lemma PaddedRegistration(env: Env, padded: Env, known: map<nat, Inspection>)
    requires |Combined(env)| == |Combined(padded)| && CloudIndex(Combined(env)) == CloudIndex(Combined(padded))
    requires CloudConfig(env.runtimeMcps).Some? && CloudConfig(padded.runtimeMcps).Some?
    ensures RegistrationFor(padded, known) == RegistrationFor(env, known)
  {
  }

  lemma {:induction false} PaddedPlaces(env: Env, padded: Env)
    requires padded == env.(runtimeMcps := Padded(env.runtimeMcps))
    ensures SamePlaces(Inventory(env), Inventory(padded)) && SamePlaces(Combined(env), Combined(padded))
  {
    var runtime, again := ItemsFrom(env.runtimeMcps, FromRuntime), ItemsFrom(padded.runtimeMcps, FromRuntime);
    PaddedKeepsNames(env.runtimeMcps);
    assert SamePlaces(runtime, again);
    if EffectiveEngineOf(env).None? && env.passive.Some? {
      var global, project := ItemsFrom(env.passive.value.global, FromGlobal), ItemsFrom(env.passive.value.project, FromProject);
      PlacesAppend(global, runtime, global, again);
      PlacesAppend(global + runtime, project, global + again, project);
    }
    if EffectiveEngineOf(env).Some? {
      var engine := ItemsFrom(EffectiveEngineOf(env).value.mcps, FromEngine);
      PlacesAppend(runtime, engine, again, engine);
    }
  }

  lemma PlacesAppend(a: seq<Item>, b: seq<Item>, a': seq<Item>, b': seq<Item>)
    requires SamePlaces(a, a') && SamePlaces(b, b')
    ensures SamePlaces(a + b, a' + b')
  {
  }

  /** A whole run, twice: a workspace whose probe gets as far as tools/list has its report accepted, and with a
      no-break space before its cloud URL the same run has its report rejected. */
  lemma {:induction false} PaddingRejectsTheReport(env: Env, padded: Env, known: map<nat, Inspection>, probe: Probe, active: nat, h: Handshake, codec: Codec)
    requires Sane(env) && Memoised(env, known) && UrlLaws(env.web.parse) && !PaddedUrl(env)
    requires ProbeContract(probe, ProbeInputOf(env, ToolPolicy(env), known), env.web) && probe.toolsListPerformed
    requires Attempts(ProbeInputOf(env, ToolPolicy(env), known), env.web, active, h, codec)
    requires padded == env.(runtimeMcps := Padded(env.runtimeMcps))
    ensures Memoised(padded, known) && Attempts(ProbeInputOf(padded, ToolPolicy(padded), known), env.web, active, h, codec)
    ensures Accepts(BuildReport(env, ToolPolicy(env), known, probe))
    ensures !Accepts(BuildReport(padded, ToolPolicy(padded), known, probe))
  {
    var policy := ToolPolicy(env);
    PermittedMeans(env, policy, known);
    assert ToolPolicy(padded) == policy;
    PaddedIsPrepared(env, padded, policy, known);
    BuiltReportAccepted(env, policy, known, probe);
    BuiltReportAccepted(padded, policy, known, probe);
    PaddedAttempts(env, padded, policy, known, active, h, codec);
  }

  lemma PaddedAttempts(env: Env, padded: Env, policy: PolicyStatus, known: map<nat, Inspection>, active: nat, h: Handshake, codec: Codec)
    requires Prepare(ProbeInputOf(padded, policy, known), env.web) == Prepare(ProbeInputOf(env, policy, known), env.web)
    ensures Attempts(ProbeInputOf(padded, policy, known), env.web, active, h, codec)
       <==> Attempts(ProbeInputOf(env, policy, known), env.web, active, h, codec)
  {
  }

  lemma {:induction false} PaddedIsPrepared(env: Env, padded: Env, policy: PolicyStatus, known: map<nat, Inspection>)
    requires Sane(env) && Memoised(env, known) && UrlLaws(env.web.parse)
    requires Prepare(ProbeInputOf(env, policy, known), env.web).Ok? && padded == env.(runtimeMcps := Padded(env.runtimeMcps))
    ensures Sane(padded) && Memoised(padded, known) && PaddedUrl(padded) && Permitted(ProbeInputOf(padded, policy, known), env.web)
    ensures Prepare(ProbeInputOf(padded, policy, known), env.web) == Prepare(ProbeInputOf(env, policy, known), env.web)
  {
    var input := ProbeInputOf(env, policy, known);
    PreparedMeans(input, env.web);
    var config := input.config.value;
    PrepareIffParts(input, env.web);
    PaddedEnv(env, padded, policy, known);
    PaddedKeepsNames(env.runtimeMcps);
    NoBreakSpaceIsLost(input, config.url.value, PaddedConfig(config), env.web);
    PrepareIffPermitted(ProbeInputOf(padded, policy, known), env.web);
  }

  lemma SafeEndpointByTrim(a: string, b: string, web: Web)
    requires Trim(a, JsWhitespace) == Trim(b, JsWhitespace)
    ensures SafeEndpoint(Some(a), web) == SafeEndpoint(Some(b), web)
    ensures Trim(a, JsWhitespace) == "" ==> SafeEndpoint(Some(a), web) == None
  {
  }

  lemma {:induction false} SpaceBefore(clean: string, padded: string)
    requires Trim(clean, JsWhitespace) != "" && padded == ['\U{A0}'] + clean
    ensures Trim(padded, JsWhitespace) == Trim(clean, JsWhitespace) && !PlainPadding(padded)
  {
    TrimAfter('\U{A0}', clean, JsWhitespace);
    assert padded[0] == '\U{A0}';
  }

  // ---- The builder as it runs ---------------------------------------------------------------------

  /** `registrationByItem`: the first look at an item asks the engine's registration record, whose
      answer may differ from call to call; every later look reuses it. */
  class RegistrationMemo {
    var known: map<nat, Inspection>
    var asked: seq<nat>
    const items: seq<Item>
    const managed: set<string>
    const answer: nat -> Inspection

    ghost predicate Valid()
      reads this
    {
      && (forall i | i in known :: i < |items|)
      && (forall i :: i in asked <==> i in known && Managed(managed, items[i]))
      && Distinct(asked)
    }

    constructor (items: seq<Item>, managed: set<string>, answer: nat -> Inspection)
      ensures Valid() && known == map[] && this.items == items && this.managed == managed
    {
      this.items, this.managed, this.answer, known, asked := items, managed, answer, map[], [];
    }

    method For(i: nat) returns (inspection: Inspection)
      requires Valid() && i < |items|
      modifies this
      ensures Valid() && i in known && known[i] == inspection
      ensures known.Keys == old(known.Keys) + {i}
      ensures forall j | j in old(known) :: known[j] == old(known[j])
      ensures i in old(known) ==> asked == old(asked)
      ensures i !in old(known) ==> inspection == if Managed(managed, items[i]) then answer(|old(asked)|) else Inspection(NotRecorded, None)
    {
      if i in known { return known[i]; }
      if Managed(managed, items[i]) {
        inspection := answer(|asked|);
        asked := asked + [i];
      } else {
        inspection := Inspection(NotRecorded, None);
      }
      known := known[i := inspection];
    }

    /** Looks at each of some items in turn. */
    method Visit(indices: seq<nat>) returns (statuses: seq<Registration>)
      requires Valid() && forall i | i in indices :: i < |items|
      modifies this
      ensures Valid()
      ensures forall j | j in old(known) :: j in known && known[j] == old(known[j])
      ensures forall j | 0 <= j < |indices| :: indices[j] in known
      ensures |statuses| == |indices| && forall j | 0 <= j < |indices| :: statuses[j] == known[indices[j]].status
    {
      statuses := [];
      for i := 0 to |indices|
        invariant Valid() && |statuses| == i
        invariant forall j | j in old(known) :: j in known && known[j] == old(known[j])
        invariant forall j | 0 <= j < i :: indices[j] in known && statuses[j] == known[indices[j]].status
      {
        assert indices[i] in indices;
        var inspection := For(indices[i]);
        statuses := statuses + [inspection.status];
      }
    }
  }

  function RuntimeIndices(items: seq<Item>): (indices: seq<nat>)
    ensures forall i | i in indices :: i < |items| && items[i].source == FromRuntime
    ensures forall i | 0 <= i < |items| && items[i].source == FromRuntime :: i in indices
  {
    if items == [] then []
    else
      var n := |items| - 1;
      RuntimeIndices(items[..n]) + if items[n].source == FromRuntime then [n] else []
  }

  /** `runAgentContextDiagnostics`; None is a schema rejection, of the request or of the built report.
      The report it returns is the one built from the memo and the probe result it names, and it is
      returned for every accepted request unless tools/list was performed over a padded URL. */
  method RunDiagnostics(env: Env, answer: nat -> Inspection, gate: ProbeGate, task: nat, h: Handshake, codec: Codec, late: bool)
    returns (r: Option<Report>, known: map<nat, Inspection>, probe: Probe)
    requires UniqueNames(env.runtimeMcps) && env.safeName(CLOUD) == CLOUD && UrlLaws(env.web.parse)
    requires gate.Valid() && task !in gate.active
    modifies gate
    ensures gate.Valid() && gate.active == old(gate.active)
    ensures !RequestAccepted(env.request) ==> r == None
    ensures RequestAccepted(env.request) ==>
              && Memoised(env, known)
              && ProbeContract(probe, ProbeInputOf(env, ToolPolicy(env), known), env.web)
              && (probe.toolsListPerformed <==>
                    Attempts(ProbeInputOf(env, ToolPolicy(env), known), env.web, |old(gate.active)|, h, codec))
              && (r.Some? <==> !(probe.toolsListPerformed && PaddedUrl(env)))
              && (r.Some? ==> r.value == BuildReport(env, ToolPolicy(env), known, probe))
  {
    known, probe := map[], Probe(false, false, NotPerformed, Timeout, [], None);
    if !RequestAccepted(env.request) { return None, known, probe; }

    var effectiveEngine: Option<Snapshot> := None;
    var engineApiReadPerformed := false;
    if env.engineConfigured && env.local && env.readerSupplied {
      engineApiReadPerformed := true;
      if env.engineRead.ReadSnapshot? { effectiveEngine := Some(env.engineRead.snapshot); }
    }
    var status, decisions, denied := AssessEffectiveToolPolicy(effectiveEngine, env.fold);
    var policy := if effectiveEngine.Some? then status
                  else if StaticallyDenied(env) then PolicyDenied else PolicyUnavailable;
    r, known, probe := ObserveAndBuild(env, policy, effectiveEngine, engineApiReadPerformed, answer, gate, task, h, codec, late);
  }

  method ObserveAndBuild(env: Env, policy: PolicyStatus, effectiveEngine: Option<Snapshot>, engineApiReadPerformed: bool,
                         answer: nat -> Inspection, gate: ProbeGate, task: nat, h: Handshake, codec: Codec, late: bool)
    returns (r: Option<Report>, known: map<nat, Inspection>, probe: Probe)
    requires Sane(env) && UrlLaws(env.web.parse)
    requires effectiveEngine == EffectiveEngineOf(env) && engineApiReadPerformed == EngineReadPerformed(env)
    requires gate.Valid() && task !in gate.active
    modifies gate
    ensures gate.Valid() && gate.active == old(gate.active)
    ensures Memoised(env, known)
    ensures ProbeContract(probe, ProbeInputOf(env, policy, known), env.web)
    ensures probe.toolsListPerformed <==> Attempts(ProbeInputOf(env, policy, known), env.web, |old(gate.active)|, h, codec)
    ensures r.Some? <==> !(probe.toolsListPerformed && PaddedUrl(env))
    ensures r.Some? ==> r.value == BuildReport(env, policy, known, probe)
  {
    var mcps;
    mcps, probe, known := Observe(env, policy, answer, gate, task, h, codec, late);
    BuiltReportAccepted(env, policy, known, probe);
    var report := Assemble(Checks(env, policy, known, probe), effectiveEngine.Some?, mcps, probe, env.request,
                           engineApiReadPerformed);
    r := if Accepts(report) then Some(report) else None;
  }

  /** The evidence in the order it is gathered: rows, probe, then every other managed registration. */
  method Observe(env: Env, policy: PolicyStatus, answer: nat -> Inspection, gate: ProbeGate, task: nat, h: Handshake, codec: Codec, late: bool)
    returns (mcps: seq<McpRow>, probe: Probe, known: map<nat, Inspection>)
    requires gate.Valid() && task !in gate.active
    modifies gate
    ensures gate.Valid() && gate.active == old(gate.active)
    ensures Memoised(env, known) && mcps == Rows(env, known)
    ensures ProbeContract(probe, ProbeInputOf(env, policy, known), env.web)
    ensures probe.toolsListPerformed <==> Attempts(ProbeInputOf(env, policy, known), env.web, |old(gate.active)|, h, codec)
  {
    var memo := new RegistrationMemo(Combined(env), NamesOf(env.runtimeMcps), answer);
    var registration;
    mcps, registration := ReportRows(env, memo);
    ghost var afterRows := memo.known;
    var input := ProbeInput(
      env.local, env.runtimeStatus == RuntimeAvailable,
      if env.runtimeStatus in {Unreadable, InvalidRow, TableMissing} then None else CloudConfig(env.runtimeMcps),
      policy, Provenance(env, policy), registration, env.runId);
    probe := ProbeOnce(input, env.web, gate, task, h, codec, late);
    var remaining := memo.Visit(RuntimeIndices(Inventory(env)));
    known := memo.known;
    InputKept(env, policy, registration, afterRows, known);
    RowsKept(env, mcps, afterRows, known);
  }

  method ProbeOnce(input: ProbeInput, web: Web, gate: ProbeGate, task: nat, h: Handshake, codec: Codec, late: bool) returns (probe: Probe)
    requires gate.Valid() && task !in gate.active
    modifies gate
    ensures gate.Valid() && gate.active == old(gate.active)
    ensures ProbeContract(probe, input, web)
    ensures probe.toolsListPerformed <==> Attempts(input, web, |old(gate.active)|, h, codec)
  {
    probe := ProbeCatalog(input, web, false, gate, task, h, codec, late);
  }

  lemma InputKept(env: Env, policy: PolicyStatus, registration: Registration, before: map<nat, Inspection>, after: map<nat, Inspection>)
    requires forall j | j in before :: j in after && after[j] == before[j]
    requires registration == RegistrationFor(env, before)
    requires CloudIndex(Combined(env)) < |Combined(env)| && CloudConfig(env.runtimeMcps).Some? ==> CloudIndex(Combined(env)) in before
    ensures registration == RegistrationFor(env, after)
  {
  }

  ghost predicate RowsFrom(env: Env, mcps: seq<McpRow>, known: map<nat, Inspection>) {
    var items, kept := Combined(env), Kept(Combined(env));
    && |mcps| == |kept|
    && forall i | 0 <= i < |kept| :: kept[i] in known && mcps[i] == Row(env, items[kept[i]], known[kept[i]].status)
  }

  /** The reported rows, then the registration the probe is told, from the same memo. */
  method ReportRows(env: Env, memo: RegistrationMemo) returns (mcps: seq<McpRow>, registration: Registration)
    requires memo.Valid() && memo.items == Combined(env)
    modifies memo
    ensures memo.Valid() && RowsFrom(env, mcps, memo.known)
    ensures registration == RegistrationFor(env, memo.known)
    ensures CloudIndex(Combined(env)) < |Combined(env)| && CloudConfig(env.runtimeMcps).Some? ==> CloudIndex(Combined(env)) in memo.known
  {
    var items := Combined(env);
    var inventoryItems := KeptRows(items);
    var statuses := memo.Visit(inventoryItems);
    mcps := seq(|inventoryItems|, i requires 0 <= i < |inventoryItems| => Row(env, items[inventoryItems[i]], statuses[i]));
    registration := NotRecorded;
    if CloudIndex(items) < |items| && CloudConfig(env.runtimeMcps).Some? {
      var inspection := memo.For(CloudIndex(items));
      registration := inspection.status;
    }
  }

  lemma RowsKept(env: Env, mcps: seq<McpRow>, before: map<nat, Inspection>, after: map<nat, Inspection>)
    requires RowsFrom(env, mcps, before) && Inspected(env, after)
    requires forall j | j in before :: j in after && after[j] == before[j]
    ensures Memoised(env, after) && mcps == Rows(env, after)
  {
  }

  /** The slice to 200 and the replacement of its last slot: at most 200 rows, the inventory's own first
      ones in order, and among them always the cloud entry. */
  method KeptRows(items: seq<Item>) returns (kept: seq<nat>)
    ensures |kept| <= MAX_ROWS && (|kept| < MAX_ROWS ==> |kept| == |items|) && |kept| <= |items|
    ensures forall i | 0 <= i < |kept| :: kept[i] != i ==> i == MAX_ROWS - 1 && kept[i] == CloudIndex(items)
    ensures CloudIndex(items) < |items| ==> CloudIndex(items) in kept
    ensures kept == Kept(items)
  {
    var n := if |items| <= MAX_ROWS then |items| else MAX_ROWS;
    kept := seq(n, i requires 0 <= i < n => i);
    var k := CloudIndex(items);
    assert forall x | x in kept :: x < n;
    assert k < n ==> kept[k] == k;
    if k < |items| && k !in kept && |kept| == MAX_ROWS {
      kept := kept[MAX_ROWS - 1 := k];
      assert kept[MAX_ROWS - 1] == k;
    }
  }
}
