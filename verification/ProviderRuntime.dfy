/**
 The persisted runtime state behind Cloud providers and the two staged, non-transactional mutations
 over it: `importProvider` and `removeProvider` (apps/cli/src/provider-command.ts), against the host
 routes they call (apps/server/src/routes/provider-auth.ts, the cloud-provider-config PATCH of
 apps/server/src/server.ts) and the baseline builder of packages/cloud-provider/src/index.ts.

 Every call can be lost before it takes effect, or take effect and lose its answer; one workspace,
 one writer.
 */
module ProviderRuntime {
  import opened Common

  // ---- Persisted state ---------------------------------------------------------------------------

  /** The owner of a gateway mirror. The environment name is an injective rendering of it. */
  datatype Owner = Owner(workspace: string, organization: string, cloudId: string)

  datatype Mirror = Mirror(owner: Owner, key: Owner)

  /** An import baseline. `typed` says the remaining fields have the types the CLI reader asks for. */
  datatype Record = Record(
    cloudProviderId: string, providerId: string, typed: bool, sourceProviderId: string, source: Option<string>,
    updatedAt: Option<string>, modelIds: seq<string>, version: nat, organization: Option<string>, mirror: Option<Mirror>)

  datatype Config = Config(settings: string)

  datatype State = State(
    records: map<string, Record>,
    mirrors: map<Owner, string>,
    env: map<string, string>,
    auth: map<string, string>,
    config: map<string, Config>)

  /** The identities the mutations run under. */
  datatype Site = Site(workspace: string, legacyName: string -> string, idOk: string -> bool, managed: string -> bool)

  // ---- The host's calls -----------------------------------------------------------------------------

  datatype Call =
    | PutEnv(entries: map<string, string>)
    | DeleteEnv(name: string)
    | SetMirror(owner: Owner, value: string)
    | RemoveMirror(id: string)
    | SetAuth(providerId: string, value: string)
    | RemoveAuth(providerId: string)
    | PatchConfig(drop: Option<string>, put: Option<(string, Config)>)
    | PutRecord(id: string, item: Record)
    | DeleteRecord(id: string)

  /** The baseline's mirror names exactly this workspace and this provider as its owner. */
  predicate ExactMirror(record: Record, id: string, site: Site) {
    && record.mirror.Some?
    && record.mirror.value.owner == record.mirror.value.key
    && record.mirror.value.owner.workspace == site.workspace && record.mirror.value.owner.cloudId == id
    && record.mirror.value.owner.organization != ""
  }

  /** Some baseline owns the provider id. */
  predicate Owned(s: State, providerId: string) {
    exists id | id in s.records :: s.records[id].providerId == providerId
  }

  /** What the routes check beyond the arguments' syntax. */
  predicate Accepts(s: State, call: Call, site: Site) {
    match call
    case SetMirror(owner, value) => owner.organization != "" && value != ""
    case RemoveMirror(id) => id in s.records && ExactMirror(s.records[id], id, site)
    case PatchConfig(drop, put) => (drop.Some? || put.Some?) && (drop.Some? ==> Owned(s, drop.value))
                                   && (put.Some? ==> site.managed(put.value.0))
    case PutRecord(id, item) => item.cloudProviderId == id && site.idOk(id)
    case _ => true
  }

  function Apply(s: State, call: Call): State {
    match call
    case PutEnv(entries) => s.(env := s.env + entries)
    case DeleteEnv(name) => s.(env := s.env - {name})
    case SetMirror(owner, value) => s.(mirrors := s.mirrors[owner := value])
    case RemoveMirror(id) =>
      if id in s.records && s.records[id].mirror.Some? then s.(mirrors := s.mirrors - {s.records[id].mirror.value.key}) else s
    case SetAuth(providerId, value) => s.(auth := s.auth[providerId := value])
    case RemoveAuth(providerId) => s.(auth := s.auth - {providerId})
    case PatchConfig(drop, put) =>
      var dropped := if drop.Some? then s.config - {drop.value} else s.config;
      s.(config := if put.Some? then dropped[put.value.0 := put.value.1] else dropped)
    case PutRecord(id, item) => s.(records := s.records[id := item])
    case DeleteRecord(id) => s.(records := s.records - {id})
  }

  function ApplyAll(s: State, calls: seq<Call>): State
    decreases |calls|
  {
    if calls == [] then s else ApplyAll(Apply(s, calls[0]), calls[1..])
  }

  predicate AllAccepted(s: State, calls: seq<Call>, site: Site)
    decreases |calls|
  {
    calls == [] || (Accepts(s, calls[0], site) && AllAccepted(Apply(s, calls[0]), calls[1..], site))
  }

  lemma {:induction false} ApplyAllAppend(s: State, a: seq<Call>, b: seq<Call>)
    ensures ApplyAll(s, a + b) == ApplyAll(ApplyAll(s, a), b)
    decreases |a|
  {
    if a == [] {
      assert a + b == b;
    } else {
      assert (a + b)[1..] == a[1..] + b;
      ApplyAllAppend(Apply(s, a[0]), a[1..], b);
    }
  }

  lemma {:induction false} AcceptedAppend(s: State, a: seq<Call>, b: seq<Call>, site: Site)
    ensures AllAccepted(s, a + b, site) <==> AllAccepted(s, a, site) && AllAccepted(ApplyAll(s, a), b, site)
    decreases |a|
  {
    if a == [] {
      assert a + b == b;
    } else {
      assert (a + b)[1..] == a[1..] + b;
      AcceptedAppend(Apply(s, a[0]), a[1..], b, site);
    }
  }

  // ---- The mutations as lists of calls -----------------------------------------------------------------

  /** A publication with its credentials, as `providerConnection` returns it. */
  datatype Connection = Connection(
    id: string, sourceProviderId: string, source: Option<string>, updatedAt: Option<string>, modelIds: seq<string>,
    importable: bool, config: Config, primaryKey: string, requiresEnv: bool, envEntries: map<string, string>)

  const METADATA_VERSION := 11

  function NewOwner(id: string, organization: string, site: Site): Owner { Owner(site.workspace, organization, id) }

  /** `buildCloudImportedProvider`. */
  function Baseline(c: Connection, organization: string, site: Site): Record {
    Record(c.id, c.id, true, c.sourceProviderId, c.source, c.updatedAt, c.modelIds, METADATA_VERSION, Some(organization),
           if c.primaryKey == "" then None
           else Some(Mirror(NewOwner(c.id, organization, site), NewOwner(c.id, organization, site))))
  }

  function EntryCalls(c: Connection): seq<Call> { if c.envEntries == map[] then [] else [PutEnv(c.envEntries)] }

  function MirrorCalls(c: Connection, organization: string, site: Site): seq<Call> {
    if c.primaryKey == "" then [] else [SetMirror(NewOwner(c.id, organization, site), c.primaryKey)]
  }

  /** The mirror of another organization is dropped while the old baseline still names it. */
  predicate RetiresMirror(existing: Option<Record>, c: Connection, organization: string, site: Site) {
    && existing.Some? && existing.value.mirror.Some? && c.primaryKey != ""
    && existing.value.mirror.value.key != NewOwner(c.id, organization, site)
  }

  predicate RetiresLegacy(existing: Option<Record>, c: Connection) {
    existing.Some? && existing.value.mirror.None? && existing.value.cloudProviderId == c.id
  }

  function RetireCalls(existing: Option<Record>, c: Connection, organization: string, site: Site): seq<Call> {
    if RetiresMirror(existing, c, organization, site) then [RemoveMirror(c.id)] else []
  }

  function LegacyCalls(existing: Option<Record>, c: Connection, site: Site): seq<Call> {
    if RetiresLegacy(existing, c) then [DeleteEnv(site.legacyName(c.id))] else []
  }

  function EnvironmentCalls(existing: Option<Record>, c: Connection, organization: string, site: Site): seq<Call> {
    EntryCalls(c) + MirrorCalls(c, organization, site) + RetireCalls(existing, c, organization, site) + LegacyCalls(existing, c, site)
  }

  function AuthenticationCalls(c: Connection): seq<Call> {
    if c.primaryKey == "" then [] else [SetAuth(c.id, c.primaryKey)]
  }

  /** The runtime id a re-imported provider was filed under before, if it was another one. */
  function PreviousId(existing: Option<Record>, c: Connection): Option<string> {
    if existing.Some? && existing.value.cloudProviderId == c.id && existing.value.providerId !in {c.id, ""}
    then Some(existing.value.providerId) else None
  }

  function ConfigCalls(existing: Option<Record>, c: Connection): seq<Call> {
    [PatchConfig(PreviousId(existing, c), Some((c.id, c.config)))]
  }

  function BaselineCalls(c: Connection, organization: string, site: Site): seq<Call> {
    [PutRecord(c.id, Baseline(c, organization, site))]
  }

  function ImportCalls(existing: Option<Record>, c: Connection, organization: string, site: Site): seq<Call> {
    EnvironmentCalls(existing, c, organization, site) + AuthenticationCalls(c) + ConfigCalls(existing, c)
    + BaselineCalls(c, organization, site)
  }

  function Existing(s: State, id: string): Option<Record> {
    if id in s.records then Some(s.records[id]) else None
  }

  function RemoveEnvironmentCalls(record: Record, id: string, site: Site): seq<Call> {
    if record.mirror.Some? then [RemoveMirror(id)]
    else if record.cloudProviderId == id then [DeleteEnv(site.legacyName(id))]
    else []
  }

  function RemoveCalls(record: Record, id: string, site: Site): seq<Call> {
    RemoveEnvironmentCalls(record, id, site)
    + [RemoveAuth(record.providerId), PatchConfig(Some(record.providerId), None), DeleteRecord(id)]
  }

  /** What removing a provider means, call list aside: nothing if there is no baseline. */
  function Removed(s: State, id: string, site: Site): State {
    if id in s.records then ApplyAll(s, RemoveCalls(s.records[id], id, site)) else s
  }

  function Imported(s: State, c: Connection, organization: string, site: Site): State {
    ApplyAll(s, ImportCalls(Existing(s, c.id), c, organization, site))
  }

  // ---- The mutations as they run --------------------------------------------------------------------

  datatype Fault = NoFault | LostRequest | LostResponse

  /** What becomes of the i-th request from now on. */
  function FaultAt(faults: seq<Fault>, i: nat): Fault { if i < |faults| then faults[i] else NoFault }

  function Later(faults: seq<Fault>, n: nat): seq<Fault> { if n <= |faults| then faults[n..] else [] }

  /** The i-th call is accepted and answered. */
  predicate Succeeds(s: State, calls: seq<Call>, faults: seq<Fault>, site: Site, i: nat)
    requires i < |calls|
  {
    FaultAt(faults, i) == NoFault && Accepts(ApplyAll(s, calls[..i]), calls[i], site)
  }

  ghost predicate AllSucceed(s: State, calls: seq<Call>, faults: seq<Fault>, site: Site, n: nat)
    requires n <= |calls|
  {
    forall i: nat | i < n :: Succeeds(s, calls, faults, site, i)
  }

  /** The calls run up to the first that fails, which is number `at`; if none does, `at` is their number. */
  ghost predicate FailsAt(s: State, calls: seq<Call>, faults: seq<Fault>, site: Site, at: nat) {
    at <= |calls| && AllSucceed(s, calls, faults, site, at) && (at < |calls| ==> !Succeeds(s, calls, faults, site, at))
  }

  /** How many calls have taken effect by then: the failing one too, if only its answer was lost. */
  function Effective(s: State, calls: seq<Call>, faults: seq<Fault>, site: Site, at: nat): nat
    requires at <= |calls|
  {
    if at < |calls| && FaultAt(faults, at) == LostResponse && Accepts(ApplyAll(s, calls[..at]), calls[at], site) then at + 1 else at
  }

  /** The calls have run as far as they get: the state they leave, and the faults that remain. */
  ghost predicate Ran(s: State, calls: seq<Call>, faults: seq<Fault>, site: Site, at: nat, t: State, rest: seq<Fault>) {
    && FailsAt(s, calls, faults, site, at)
    && t == ApplyAll(s, calls[..Effective(s, calls, faults, site, at)])
    && rest == Later(faults, if at < |calls| then at + 1 else at)
  }

  datatype Stage = HostAuthority | ConnectionStage | Environment | Authentication | RuntimeConfig | BaselineStage | Reload | Verification

  datatype MutationError = MutationError(stage: Stage, completed: seq<Stage>)

  class Runtime {
    var state: State
    var faults: seq<Fault>
    const site: Site

    constructor (state: State, faults: seq<Fault>, site: Site)
      ensures this.state == state && this.faults == faults && this.site == site
    {
      this.state, this.faults, this.site := state, faults, site;
    }

    /** One request. It succeeds exactly if it is accepted and its answer arrives. */
    method Invoke(call: Call) returns (ok: bool)
      modifies this
      ensures ok <==> FaultAt(old(faults), 0) == NoFault && Accepts(old(state), call, site)
      ensures state == if FaultAt(old(faults), 0) != LostRequest && Accepts(old(state), call, site)
                       then Apply(old(state), call) else old(state)
      ensures faults == Later(old(faults), 1)
    {
      var fault := if faults == [] then NoFault else faults[0];
      if faults != [] { faults := faults[1..]; }
      if fault == LostRequest || !Accepts(state, call, site) { return false; }
      state := Apply(state, call);
      return fault == NoFault;
    }

    /** `stage` around reads and engine requests, which persist nothing here. */
    method TouchStage(name: Stage, completed: seq<Stage>) returns (r: Result<seq<Stage>, MutationError>)
      modifies this`faults
      ensures r == if FaultAt(old(faults), 0) == NoFault then Ok(completed + [name]) else Err(MutationError(name, completed))
      ensures faults == Later(old(faults), 1)
    {
      var fault := if faults == [] then NoFault else faults[0];
      if faults != [] { faults := faults[1..]; }
      if fault != NoFault { return Err(MutationError(name, completed)); }
      return Ok(completed + [name]);
    }

    /** `stage` around mutations: its calls in order, up to the first that fails, and its name on the
        completed list exactly if none does. The calls are the stretch of `all` that starts at `from`; the
        requests of the mutation meet the faults `f`. */
    method RunStage(name: Stage, completed: seq<Stage>, calls: seq<Call>, ghost s0: State, ghost all: seq<Call>, ghost from: nat,
                    ghost f: seq<Fault>)
      returns (r: Result<seq<Stage>, MutationError>, ghost at: nat)
      requires from + |calls| <= |all| && all[from..from + |calls|] == calls
      requires state == ApplyAll(s0, all[..from]) && AllSucceed(s0, all, f, site, from) && faults == Later(f, from)
      modifies this
      ensures from <= at <= from + |calls| && AllSucceed(s0, all, f, site, at)
      ensures r == if at == from + |calls| then Ok(completed + [name]) else Err(MutationError(name, completed))
      ensures r.Err? ==> at < |all| && Ran(s0, all, f, site, at, state, faults)
      ensures r.Ok? ==> state == ApplyAll(s0, all[..at]) && faults == Later(f, at)
    {
      at := from;
      for i := 0 to |calls|
        invariant at == from + i && state == ApplyAll(s0, all[..at])
        invariant AllSucceed(s0, all, f, site, at) && faults == Later(f, at)
      {
        CallStep(s0, all, f, site, at, faults);
        assert calls[i] == all[at];
        var ok := Invoke(calls[i]);
        if !ok {
          return Err(MutationError(name, completed)), at;
        }
        at := at + 1;
      }
      return Ok(completed + [name]), at;
    }

    /** The four mutating stages both operations run, in order. The error names the stage of the failing
        call. */
    method RunMutation(completed: seq<Stage>, environment: seq<Call>, auth: seq<Call>, config: seq<Call>, baseline: seq<Call>,
                       ghost all: seq<Call>)
      returns (r: Result<seq<Stage>, MutationError>, ghost at: nat)
      requires Parts(all, environment, auth, config, baseline)
      modifies this
      ensures Ran(old(state), all, old(faults), site, at, state, faults)
      ensures r == if at == |all| then Ok(completed + MUTATING) else Err(ErrorOfCall(at, completed, |environment|, |auth|, |config|))
    {
      ghost var s0, f := state, faults;
      MutatingStages(completed);
      r, at := RunStage(Environment, completed, environment, s0, all, 0, f);
      if r.Err? { return r, at; }
      r, at := RunStage(Authentication, r.value, auth, s0, all, at, f);
      if r.Err? { return r, at; }
      r, at := RunStage(RuntimeConfig, r.value, config, s0, all, at, f);
      if r.Err? { return r, at; }
      r, at := RunStage(BaselineStage, r.value, baseline, s0, all, at, f);
      assert r.Ok? ==> at == |all| && Ran(s0, all, f, site, at, state, faults);
    }

    /** The mutating stages of an import. */
    method RunImport(completed: seq<Stage>, existing: Option<Record>, c: Connection, organization: string)
      returns (r: Result<seq<Stage>, MutationError>, ghost at: nat)
      requires completed == IMPORT_STAGES[..2]
      modifies this
      ensures var calls := ImportCalls(existing, c, organization, site);
              && Ran(old(state), calls, old(faults), site, at, state, faults)
              && r == if at == |calls| then Ok(IMPORT_STAGES[..6]) else Err(ImportError(at, existing, c, organization, site))
    {
      ghost var calls := ImportCalls(existing, c, organization, site);
      ImportStages();
      FourParts(EnvironmentCalls(existing, c, organization, site), AuthenticationCalls(c), ConfigCalls(existing, c),
                BaselineCalls(c, organization, site));
      r, at := RunMutation(completed, EnvironmentCalls(existing, c, organization, site), AuthenticationCalls(c),
                           ConfigCalls(existing, c), BaselineCalls(c, organization, site), calls);
    }

    /** The two reading stages of an import, and the checks after them. */
    method CheckConnection(c: Connection, id: string) returns (r: Result<seq<Stage>, MutationError>)
      modifies `faults
      ensures r == Checked(c, id, old(faults), site)
      ensures old(faults) == [] ==> faults == []
      ensures r.Ok? ==> faults == Later(old(faults), 2)
    {
      r := TouchStage(HostAuthority, []);
      ImportStages();
      LaterTwice(faults, old(faults), 1, 1);
      if r.Err? { return; }
      r := TouchStage(ConnectionStage, r.value);
      if r.Err? { return; }
      if c.id != id || !site.managed(c.id) || !c.importable { return Err(MutationError(ConnectionStage, r.value)); }
      if c.primaryKey == "" && c.requiresEnv { return Err(MutationError(ConnectionStage, r.value)); }
    }

    /** The reload and the status read at the end. */
    method Finish(completed: seq<Stage>) returns (r: Result<seq<Stage>, MutationError>)
      requires completed == IMPORT_STAGES[..6]
      modifies `faults
      ensures r == Finished(old(faults))
      ensures old(faults) == [] ==> faults == []
    {
      ImportStages();
      r := TouchStage(Reload, completed);
      LaterTwice(faults, old(faults), 1, 1);
      if r.Err? { return; }
      r := TouchStage(Verification, r.value);
    }

    /** Four mutating stages after two reading ones, then a reload and a status read. */
    method ImportProvider(c: Connection, id: string, organization: string)
      returns (r: Result<seq<Stage>, MutationError>, ghost at: nat)
      modifies this
      ensures ImportResult(r, at, old(state), old(faults), c, id, organization, site)
      ensures state == if Checked(c, id, old(faults), site).Err? then old(state)
                       else var calls := ImportCalls(Existing(old(state), id), c, organization, site);
                            ApplyAll(old(state), calls[..Effective(old(state), calls, Later(old(faults), 2), site, at)])
      ensures r.Ok? ==> c.id == id && Publishable(c, site) && r.value == IMPORT_STAGES
      ensures r.Ok? ==> state == Imported(old(state), c, organization, site)
      ensures r.Ok? ==> AllAccepted(old(state), ImportCalls(Existing(old(state), id), c, organization, site), site)
      ensures old(faults) == [] ==> faults == []
    {
      at := 0;
      r := CheckConnection(c, id);
      if r.Err? { return r, at; }
      var existing := Existing(state, id);
      ghost var calls := ImportCalls(existing, c, organization, site);
      LaterTwice(Later(old(faults), 2), old(faults), 2, |calls|);
      r, at := RunImport(r.value, existing, c, organization);
      if r.Err? { return r, at; }
      AllSucceededMeans(old(state), calls, Later(old(faults), 2), site);
      r := Finish(r.value);
    }

    method RemoveProvider(id: string) returns (r: Result<seq<Stage>, MutationError>, ghost at: nat)
      modifies this
      ensures id !in old(state).records ==> state == old(state)
      ensures id !in old(state).records ==>
                r == if FaultAt(old(faults), 0) == NoFault then Ok(REMOVE_STAGES[..1]) else Err(MutationError(HostAuthority, []))
      ensures id in old(state).records ==> RemoveResult(r, at, old(state), old(faults), id, site)
      ensures id in old(state).records ==>
                var calls := RemoveCalls(old(state).records[id], id, site);
                state == if FaultAt(old(faults), 0) != NoFault then old(state)
                         else ApplyAll(old(state), calls[..Effective(old(state), calls, Later(old(faults), 1), site, at)])
      ensures r.Ok? ==> state == Removed(old(state), id, site)
      ensures r.Ok? && id in old(state).records ==>
                r.value == REMOVE_STAGES && AllAccepted(old(state), RemoveCalls(old(state).records[id], id, site), site)
      ensures old(faults) == [] ==> faults == []
    {
      at := 0;
      r := TouchStage(HostAuthority, []);
      ImportStages();
      if r.Err? || id !in state.records { return r, at; }
      var record := state.records[id];
      var patch, baseline := [PatchConfig(Some(record.providerId), None)], [DeleteRecord(id)];
      RemoveCallsParts(record, id, site);
      LaterTwice(Later(old(faults), 1), old(faults), 1, |RemoveCalls(record, id, site)|);
      r, at := RunMutation(r.value, RemoveEnvironmentCalls(record, id, site), [RemoveAuth(record.providerId)], patch, baseline,
                           RemoveCalls(record, id, site));
      if r.Err? { return r, at; }
      AllSucceededMeans(old(state), RemoveCalls(record, id, site), Later(old(faults), 1), site);
      r := TouchStage(Reload, r.value);
    }
  }

  /** The stage a call belongs to, counted among the mutating ones. */
  function StageOf(at: nat, environment: nat, auth: nat, config: nat): (k: nat)
    ensures k < |MUTATING|
  {
    if at < environment then 0 else if at < environment + auth then 1 else if at < environment + auth + config then 2 else 3
  }

  /** The error of a failing call: its stage, after all the stages before it. */
  function ErrorOfCall(at: nat, completed: seq<Stage>, environment: nat, auth: nat, config: nat): MutationError {
    var k := StageOf(at, environment, auth, config);
    MutationError(MUTATING[k], completed + MUTATING[..k])
  }

  /** The reading stages of an import. */
  function Checked(c: Connection, id: string, faults: seq<Fault>, site: Site): Result<seq<Stage>, MutationError> {
    if FaultAt(faults, 0) != NoFault then Err(MutationError(HostAuthority, []))
    else if FaultAt(faults, 1) != NoFault then Err(MutationError(ConnectionStage, [HostAuthority]))
    else if c.id != id || !Publishable(c, site) then Err(MutationError(ConnectionStage, IMPORT_STAGES[..2]))
    else Ok(IMPORT_STAGES[..2])
  }

  /** The last stages of an import. */
  function Finished(faults: seq<Fault>): Result<seq<Stage>, MutationError> {
    if FaultAt(faults, 0) != NoFault then Err(MutationError(Reload, IMPORT_STAGES[..6]))
    else if FaultAt(faults, 1) != NoFault then Err(MutationError(Verification, IMPORT_STAGES[..7]))
    else Ok(IMPORT_STAGES)
  }

  /** The error of an import whose call number `at` fails. */
  function ImportError(at: nat, existing: Option<Record>, c: Connection, organization: string, site: Site): MutationError {
    ErrorOfCall(at, IMPORT_STAGES[..2], |EnvironmentCalls(existing, c, organization, site)|, |AuthenticationCalls(c)|,
                |ConfigCalls(existing, c)|)
  }

  /** The outcome of an import is decided by the faults its requests meet and by what the host accepts:
      the error names the stage of the first request that fails and lists the stages before it. */
  ghost predicate ImportResult(
    r: Result<seq<Stage>, MutationError>, at: nat, s: State, faults: seq<Fault>, c: Connection, id: string, organization: string,
    site: Site)
  {
    var existing := Existing(s, id);
    var calls := ImportCalls(existing, c, organization, site);
    if Checked(c, id, faults, site).Err? then r == Checked(c, id, faults, site) && at == 0
    else
      && FailsAt(s, calls, Later(faults, 2), site, at)
      && r == if at == |calls| then Finished(Later(faults, 2 + |calls|))
              else Err(ImportError(at, existing, c, organization, site))
  }

  ghost predicate RemoveResult(
    r: Result<seq<Stage>, MutationError>, at: nat, s: State, faults: seq<Fault>, id: string, site: Site)
    requires id in s.records
  {
    var calls := RemoveCalls(s.records[id], id, site);
    if FaultAt(faults, 0) != NoFault then r == Err(MutationError(HostAuthority, [])) && at == 0
    else
      && FailsAt(s, calls, Later(faults, 1), site, at)
      && r == if at < |calls| then Err(ErrorOfCall(at, [HostAuthority], |RemoveEnvironmentCalls(s.records[id], id, site)|, 1, 1))
              else if FaultAt(faults, 1 + |calls|) != NoFault then Err(MutationError(Reload, REMOVE_STAGES[..5]))
              else Ok(REMOVE_STAGES)
  }

  lemma {:induction false} CallStep(s: State, calls: seq<Call>, faults: seq<Fault>, site: Site, at: nat, rest: seq<Fault>)
    requires at < |calls| && AllSucceed(s, calls, faults, site, at) && rest == Later(faults, at)
    ensures FaultAt(rest, 0) == FaultAt(faults, at) && Later(rest, 1) == Later(faults, at + 1)
    ensures ApplyAll(s, calls[..at + 1]) == Apply(ApplyAll(s, calls[..at]), calls[at])
    ensures if Succeeds(s, calls, faults, site, at) then AllSucceed(s, calls, faults, site, at + 1) else FailsAt(s, calls, faults, site, at)
  {
    StepInto(s, calls, at, site);
    LaterTwice(rest, faults, at, 1);
    assert FaultAt(rest, 0) == FaultAt(faults, at + 0);
  }

  lemma {:induction false} AllSucceededMeans(s: State, calls: seq<Call>, faults: seq<Fault>, site: Site)
    requires AllSucceed(s, calls, faults, site, |calls|)
    ensures AllAccepted(s, calls, site) && calls[..|calls|] == calls
  {
    AcceptedUpTo(s, calls, faults, site, |calls|);
    assert calls[..|calls|] == calls;
  }

  lemma {:induction false} AcceptedUpTo(s: State, calls: seq<Call>, faults: seq<Fault>, site: Site, n: nat)
    requires n <= |calls| && AllSucceed(s, calls, faults, site, n)
    ensures AllAccepted(s, calls[..n], site)
  {
    if n > 0 {
      AcceptedUpTo(s, calls, faults, site, n - 1);
      StepInto(s, calls, n - 1, site);
      assert Succeeds(s, calls, faults, site, n - 1);
    }
  }

  lemma ImportErrorMeans(r: Result<seq<Stage>, MutationError>, at: nat, s: State, faults: seq<Fault>, c: Connection, id: string,
                         organization: string, site: Site)
    requires ImportResult(r, at, s, faults, c, id, organization, site) && r.Err?
    ensures StoppedAt(r.error, IMPORT_STAGES) || r.error == MutationError(ConnectionStage, IMPORT_STAGES[..2])
  {
    ImportStages();
    MutatingStages(IMPORT_STAGES[..2]);
  }

  lemma RemoveErrorMeans(r: Result<seq<Stage>, MutationError>, at: nat, s: State, faults: seq<Fault>, id: string, site: Site)
    requires id in s.records && RemoveResult(r, at, s, faults, id, site) && r.Err?
    ensures StoppedAt(r.error, REMOVE_STAGES)
  {
    ImportStages();
    MutatingStages([HostAuthority]);
  }

  lemma RemoveCallsParts(record: Record, id: string, site: Site)
    ensures Parts(RemoveCalls(record, id, site), RemoveEnvironmentCalls(record, id, site), [RemoveAuth(record.providerId)],
                  [PatchConfig(Some(record.providerId), None)], [DeleteRecord(id)])
  {
    var environment := RemoveEnvironmentCalls(record, id, site);
    var auth, patch, baseline := [RemoveAuth(record.providerId)], [PatchConfig(Some(record.providerId), None)], [DeleteRecord(id)];
    FourParts(environment, auth, patch, baseline);
    assert environment + auth + patch + baseline == RemoveCalls(record, id, site);
  }

  /** The calls of the four mutating stages, one after the other. */
  predicate Parts(all: seq<Call>, a: seq<Call>, b: seq<Call>, c: seq<Call>, d: seq<Call>) {
    && |all| == |a| + |b| + |c| + |d|
    && all[0..|a|] == a && all[|a|..|a| + |b|] == b
    && all[|a| + |b|..|a| + |b| + |c|] == c && all[|a| + |b| + |c|..|a| + |b| + |c| + |d|] == d
  }

  lemma FourParts(a: seq<Call>, b: seq<Call>, c: seq<Call>, d: seq<Call>)
    ensures Parts(a + b + c + d, a, b, c, d)
  {
    var all := a + b + c + d;
    assert all[0..|a|] == a;
    assert (a + b)[|a|..|a| + |b|] == b && all[|a|..|a| + |b|] == b;
    assert (a + b + c)[|a| + |b|..|a| + |b| + |c|] == c;
  }

  const MUTATING: seq<Stage> := [Environment, Authentication, RuntimeConfig, BaselineStage]

  lemma MutatingStages(completed: seq<Stage>)
    ensures completed + MUTATING[..0] == completed && completed + MUTATING[..1] == completed + [Environment]
    ensures completed + MUTATING[..2] == completed + [Environment] + [Authentication]
    ensures completed + MUTATING[..3] == completed + [Environment] + [Authentication] + [RuntimeConfig]
    ensures completed + MUTATING == completed + [Environment] + [Authentication] + [RuntimeConfig] + [BaselineStage]
  {
  }

  const IMPORT_STAGES: seq<Stage> :=
    [HostAuthority, ConnectionStage, Environment, Authentication, RuntimeConfig, BaselineStage, Reload, Verification]

  const REMOVE_STAGES: seq<Stage> := [HostAuthority, Environment, Authentication, RuntimeConfig, BaselineStage, Reload]

  lemma ImportStages()
    ensures [] + [HostAuthority] == [HostAuthority] && [HostAuthority] + [ConnectionStage] == IMPORT_STAGES[..2]
    ensures IMPORT_STAGES[..2] + MUTATING == IMPORT_STAGES[..6]
    ensures IMPORT_STAGES[..6] + [Reload] == IMPORT_STAGES[..7] && IMPORT_STAGES[..7] + [Verification] == IMPORT_STAGES
    ensures [HostAuthority] == REMOVE_STAGES[..1] && [HostAuthority] + MUTATING == REMOVE_STAGES[..5]
    ensures REMOVE_STAGES[..5] + [Reload] == REMOVE_STAGES
  {
  }

  lemma LaterTwice(rest: seq<Fault>, faults: seq<Fault>, n: nat, m: nat)
    requires rest == Later(faults, n)
    ensures Later(rest, m) == Later(faults, n + m)
    ensures forall i: nat :: FaultAt(rest, i) == FaultAt(faults, n + i)
    ensures faults == [] ==> rest == []
  {
  }

  /** The error names the first unfinished stage and lists exactly those before it. */
  predicate StoppedAt(error: MutationError, stages: seq<Stage>) {
    error.completed + [error.stage] <= stages
  }

  predicate Publishable(c: Connection, site: Site) {
    site.managed(c.id) && c.importable && (c.requiresEnv ==> c.primaryKey != "")
  }

  lemma StepInto(s: State, calls: seq<Call>, i: nat, site: Site)
    requires i < |calls|
    ensures ApplyAll(s, calls[..i + 1]) == Apply(ApplyAll(s, calls[..i]), calls[i])
    ensures AllAccepted(s, calls[..i + 1], site) <==>
            AllAccepted(s, calls[..i], site) && Accepts(ApplyAll(s, calls[..i]), calls[i], site)
    ensures AllAccepted(s, calls, site) ==> AllAccepted(s, calls[..i + 1], site)
  {
    assert calls[..i + 1] == calls[..i] + [calls[i]];
    ApplyAllAppend(s, calls[..i], [calls[i]]);
    AcceptedAppend(s, calls[..i], [calls[i]], site);
    assert calls == calls[..i + 1] + calls[i + 1..];
    AcceptedAppend(s, calls[..i + 1], calls[i + 1..], site);
  }

  // ---- Removing again after any interruption -------------------------------------------------------

  /** A remove that has not reached its last call can be run again from the start: the baseline is
      still there unchanged, every call is accepted again, and the outcome is that of a remove that
      was never interrupted. Once the last call has taken effect there is nothing left to do. */
  lemma RemoveCanBeRetried(s: State, id: string, n: nat, site: Site)
    requires id in s.records && n <= |RemoveCalls(s.records[id], id, site)|
    requires AllAccepted(s, RemoveCalls(s.records[id], id, site), site)
    ensures var calls := RemoveCalls(s.records[id], id, site);
            var cut := ApplyAll(s, calls[..n]);
            && Removed(cut, id, site) == Removed(s, id, site)
            && (n < |calls| ==> id in cut.records && cut.records[id] == s.records[id] && AllAccepted(cut, calls, site))
            && (n == |calls| ==> id !in cut.records && cut == Removed(s, id, site))
  {
    var record := s.records[id];
    var calls := RemoveCalls(record, id, site);
    RemovedMeans(s, id, site);
    if n == |calls| {
      assert calls[..n] == calls;
    } else {
      CutRemove(s, id, n, site);
      RemovedMeans(ApplyAll(s, calls[..n]), id, site);
    }
  }

  /** Removing, as one change to the state. */
  function RemovedAtOnce(s: State, id: string, site: Site): State
    requires id in s.records
  {
    var record := s.records[id];
    State(
      s.records - {id},
      if record.mirror.Some? then s.mirrors - {record.mirror.value.key} else s.mirrors,
      if record.mirror.None? && record.cloudProviderId == id then s.env - {site.legacyName(id)} else s.env,
      s.auth - {record.providerId},
      s.config - {record.providerId})
  }

  lemma RemovedMeans(s: State, id: string, site: Site)
    requires id in s.records
    ensures Removed(s, id, site) == RemovedAtOnce(s, id, site)
  {
    var record := s.records[id];
    var environment := RemoveEnvironmentCalls(record, id, site);
    ApplyAllAppend(s, environment, [RemoveAuth(record.providerId), PatchConfig(Some(record.providerId), None), DeleteRecord(id)]);
    ApplyThree(ApplyAll(s, environment), RemoveAuth(record.providerId), PatchConfig(Some(record.providerId), None), DeleteRecord(id));
    assert |environment| == 1 ==> environment[1..] == [];
  }

  lemma ApplyThree(s: State, a: Call, b: Call, c: Call)
    ensures ApplyAll(s, [a, b, c]) == Apply(Apply(Apply(s, a), b), c)
  {
    assert [a, b, c][1..] == [b, c] && [b, c][1..] == [c] && [c][1..] == [];
    assert ApplyAll(Apply(Apply(s, a), b), [c]) == Apply(Apply(Apply(s, a), b), c);
    assert ApplyAll(Apply(s, a), [b, c]) == ApplyAll(Apply(Apply(s, a), b), [c]);
  }

  /** The calls of a remove before its last one. */
  predicate ClearingCall(record: Record, id: string, call: Call, site: Site) {
    || (call == RemoveMirror(id) && record.mirror.Some?)
    || (call == DeleteEnv(site.legacyName(id)) && record.mirror.None? && record.cloudProviderId == id)
    || call == RemoveAuth(record.providerId)
    || call == PatchConfig(Some(record.providerId), None)
  }

  lemma ClearingStep(s: State, id: string, call: Call, site: Site)
    requires id in s.records && ClearingCall(s.records[id], id, call, site)
    ensures Apply(s, call).records == s.records
    ensures RemovedAtOnce(Apply(s, call), id, site) == RemovedAtOnce(s, id, site)
  {
    var t, u := RemovedAtOnce(Apply(s, call), id, site), RemovedAtOnce(s, id, site);
    assert t.mirrors == u.mirrors && t.env == u.env && t.auth == u.auth && t.config == u.config;
  }

  lemma {:induction false} ClearingSteps(s: State, id: string, calls: seq<Call>, site: Site)
    requires id in s.records && forall i | 0 <= i < |calls| :: ClearingCall(s.records[id], id, calls[i], site)
    ensures ApplyAll(s, calls).records == s.records
    ensures RemovedAtOnce(ApplyAll(s, calls), id, site) == RemovedAtOnce(s, id, site)
    decreases |calls|
  {
    if calls != [] {
      ClearingStep(s, id, calls[0], site);
      forall i | 0 <= i < |calls[1..]| ensures ClearingCall(s.records[id], id, calls[1..][i], site) {
        assert calls[1..][i] == calls[i + 1];
      }
      ClearingSteps(Apply(s, calls[0]), id, calls[1..], site);
    }
  }

  lemma RemoveCallKinds(record: Record, id: string, site: Site)
    ensures var calls := RemoveCalls(record, id, site);
            && |calls| >= 3 && calls[|calls| - 1] == DeleteRecord(id)
            && forall i | 0 <= i < |calls| - 1 :: ClearingCall(record, id, calls[i], site)
  {
  }

  lemma CutRemove(s: State, id: string, n: nat, site: Site)
    requires id in s.records && n < |RemoveCalls(s.records[id], id, site)|
    ensures var calls := RemoveCalls(s.records[id], id, site);
            var cut := ApplyAll(s, calls[..n]);
            && cut.records == s.records
            && RemovedAtOnce(cut, id, site) == RemovedAtOnce(s, id, site)
            && (AllAccepted(s, calls, site) ==> AllAccepted(cut, calls, site))
  {
    var calls := RemoveCalls(s.records[id], id, site);
    RemoveCallKinds(s.records[id], id, site);
    ClearingSteps(s, id, calls[..n], site);
    SameRecordsSameAnswers(s, ApplyAll(s, calls[..n]), calls, site);
  }

  lemma OwnedByRecords(s: State, t: State, call: Call, site: Site)
    requires s.records == t.records
    ensures Accepts(s, call, site) == Accepts(t, call, site)
    ensures Apply(s, call).records == Apply(t, call).records
  {
  }

  /** Which calls are accepted depends only on the baselines. */
  lemma {:induction false} SameRecordsSameAnswers(s: State, t: State, calls: seq<Call>, site: Site)
    requires s.records == t.records
    ensures AllAccepted(s, calls, site) ==> AllAccepted(t, calls, site)
    decreases |calls|
  {
    if calls != [] && AllAccepted(s, calls, site) {
      OwnedByRecords(s, t, calls[0], site);
      SameRecordsSameAnswers(Apply(s, calls[0]), Apply(t, calls[0]), calls[1..], site);
    }
  }

  // ---- No residue without a baseline ----------------------------------------------------------------

  /** A baseline as this CLI writes it: filed under its own id, which is also the runtime provider id,
      with a mirror only of this workspace and provider. */
  ghost predicate RecordAligned(record: Record, id: string, site: Site) {
    && record.cloudProviderId == id && record.providerId == id && site.managed(id)
    && (record.mirror.Some? ==> ExactMirror(record, id, site))
  }

  ghost predicate Aligned(s: State, site: Site) {
    forall id | id in s.records :: RecordAligned(s.records[id], id, site)
  }

  /** Whatever credential or config of a managed provider is left has a baseline that leads to it. */
  ghost predicate Accounted(s: State, site: Site) {
    && (forall p | p in s.auth && site.managed(p) :: p in s.records)
    && (forall p | p in s.config && site.managed(p) :: p in s.records)
    && (forall k | k in s.mirrors && k.workspace == site.workspace ::
          k.cloudId in s.records && s.records[k.cloudId].mirror == Some(Mirror(k, k)))
  }

  lemma CutRemoveAccounted(s: State, id: string, n: nat, site: Site)
    requires id in s.records && n <= |RemoveCalls(s.records[id], id, site)|
    requires Aligned(s, site) && Accounted(s, site)
    ensures Aligned(ApplyAll(s, RemoveCalls(s.records[id], id, site)[..n]), site)
    ensures Accounted(ApplyAll(s, RemoveCalls(s.records[id], id, site)[..n]), site)
  {
    var calls := RemoveCalls(s.records[id], id, site);
    if n == |calls| {
      assert calls[..n] == calls;
      RemovedMeans(s, id, site);
      RemovedStaysAccounted(s, id, site);
    } else {
      CutRemove(s, id, n, site);
      RemoveCallKinds(s.records[id], id, site);
      forall i | 0 <= i < n ensures Shrinking(calls[..n][i]) {
        assert ClearingCall(s.records[id], id, calls[i], site) && calls[..n][i] == calls[i];
      }
      OnlyShrinks(s, calls[..n]);
      ShrunkStaysAccounted(s, ApplyAll(s, calls[..n]), site);
    }
  }

  ghost predicate ShrunkTo(s: State, t: State) {
    t.mirrors.Keys <= s.mirrors.Keys && t.auth.Keys <= s.auth.Keys && t.config.Keys <= s.config.Keys
  }

  lemma ShrunkStaysAccounted(s: State, t: State, site: Site)
    requires t.records == s.records && ShrunkTo(s, t) && Aligned(s, site) && Accounted(s, site)
    ensures Aligned(t, site) && Accounted(t, site)
  {
    forall k | k in t.mirrors && k.workspace == site.workspace
      ensures k.cloudId in t.records && t.records[k.cloudId].mirror == Some(Mirror(k, k))
    {
      assert k in s.mirrors.Keys;
    }
    forall p | p in t.auth ensures p in s.auth { assert p in t.auth.Keys; }
    forall p | p in t.config ensures p in s.config { assert p in t.config.Keys; }
  }

  lemma RemovedStaysAccounted(s: State, id: string, site: Site)
    requires id in s.records && Aligned(s, site) && Accounted(s, site)
    ensures Aligned(RemovedAtOnce(s, id, site), site) && Accounted(RemovedAtOnce(s, id, site), site)
  {
    assert RecordAligned(s.records[id], id, site);
  }

  predicate Shrinking(call: Call) {
    call.DeleteEnv? || call.RemoveMirror? || call.RemoveAuth? || (call.PatchConfig? && call.put.None?) || call.DeleteRecord?
  }

  lemma ShrinkStep(s: State, call: Call)
    requires Shrinking(call)
    ensures ShrunkTo(s, Apply(s, call))
  {
  }

  lemma {:induction false} OnlyShrinks(s: State, calls: seq<Call>)
    requires forall i | 0 <= i < |calls| :: Shrinking(calls[i])
    ensures ShrunkTo(s, ApplyAll(s, calls))
    decreases |calls|
  {
    if calls != [] {
      ShrinkStep(s, calls[0]);
      forall i | 0 <= i < |calls[1..]| ensures Shrinking(calls[1..][i]) { assert calls[1..][i] == calls[i + 1]; }
      OnlyShrinks(Apply(s, calls[0]), calls[1..]);
    }
  }

  function KeyedMirrors(s: State, c: Connection, organization: string, site: Site): map<Owner, string> {
    if c.primaryKey == "" then s.mirrors else s.mirrors[NewOwner(c.id, organization, site) := c.primaryKey]
  }

  /** A completed import, as one change to the state. */
  function ImportedAtOnce(s: State, c: Connection, organization: string, site: Site): State {
    var existing, keyed := Existing(s, c.id), KeyedMirrors(s, c, organization, site);
    var previous := PreviousId(existing, c);
    State(
      s.records[c.id := Baseline(c, organization, site)],
      if RetiresMirror(existing, c, organization, site) then keyed - {existing.value.mirror.value.key} else keyed,
      if RetiresLegacy(existing, c) then s.env + c.envEntries - {site.legacyName(c.id)} else s.env + c.envEntries,
      if c.primaryKey == "" then s.auth else s.auth[c.id := c.primaryKey],
      (if previous.Some? then s.config - {previous.value} else s.config)[c.id := c.config])
  }

  lemma ApplyMaybe(s: State, calls: seq<Call>, call: Call)
    requires calls == [] || calls == [call]
    ensures ApplyAll(s, calls) == if calls == [] then s else Apply(s, call)
  {
    assert calls != [] ==> calls[1..] == [];
  }

  lemma ApplyFour(s: State, a: seq<Call>, b: seq<Call>, c: seq<Call>, d: seq<Call>)
    ensures ApplyAll(s, a + b + c + d) == ApplyAll(ApplyAll(ApplyAll(ApplyAll(s, a), b), c), d)
  {
    ApplyAllAppend(s, a + b + c, d);
    ApplyAllAppend(s, a + b, c);
    ApplyAllAppend(s, a, b);
  }

  lemma StoresMean(s: State, c: Connection, organization: string, site: Site)
    ensures ApplyAll(ApplyAll(s, EntryCalls(c)), MirrorCalls(c, organization, site))
         == s.(env := s.env + c.envEntries, mirrors := KeyedMirrors(s, c, organization, site))
  {
    ApplyMaybe(s, EntryCalls(c), PutEnv(c.envEntries));
    if c.envEntries == map[] { assert s.env + c.envEntries == s.env; }
    ApplyMaybe(s.(env := s.env + c.envEntries), MirrorCalls(c, organization, site),
               SetMirror(NewOwner(c.id, organization, site), c.primaryKey));
  }

  lemma RetiringMeans(s: State, existing: Option<Record>, c: Connection, organization: string, site: Site)
    requires existing == Existing(s, c.id)
    ensures ApplyAll(ApplyAll(s, RetireCalls(existing, c, organization, site)), LegacyCalls(existing, c, site))
         == s.(mirrors := if RetiresMirror(existing, c, organization, site) then s.mirrors - {existing.value.mirror.value.key} else s.mirrors,
               env := if RetiresLegacy(existing, c) then s.env - {site.legacyName(c.id)} else s.env)
  {
    ApplyMaybe(s, RetireCalls(existing, c, organization, site), RemoveMirror(c.id));
    ApplyMaybe(ApplyAll(s, RetireCalls(existing, c, organization, site)), LegacyCalls(existing, c, site), DeleteEnv(site.legacyName(c.id)));
  }

  lemma EnvironmentMeans(s: State, c: Connection, organization: string, site: Site)
    ensures ApplyAll(s, EnvironmentCalls(Existing(s, c.id), c, organization, site))
         == s.(mirrors := ImportedAtOnce(s, c, organization, site).mirrors, env := ImportedAtOnce(s, c, organization, site).env)
  {
    var existing := Existing(s, c.id);
    ApplyFour(s, EntryCalls(c), MirrorCalls(c, organization, site), RetireCalls(existing, c, organization, site), LegacyCalls(existing, c, site));
    StoresMean(s, c, organization, site);
    RetiringMeans(s.(env := s.env + c.envEntries, mirrors := KeyedMirrors(s, c, organization, site)), existing, c, organization, site);
  }

  lemma ImportedMeans(s: State, c: Connection, organization: string, site: Site)
    ensures Imported(s, c, organization, site) == ImportedAtOnce(s, c, organization, site)
  {
    var existing := Existing(s, c.id);
    var environment, auth := EnvironmentCalls(existing, c, organization, site), AuthenticationCalls(c);
    ApplyFour(s, environment, auth, ConfigCalls(existing, c), BaselineCalls(c, organization, site));
    EnvironmentMeans(s, c, organization, site);
    RestMeans(ApplyAll(s, environment), existing, c, organization, site);
  }

  lemma RestMeans(s: State, existing: Option<Record>, c: Connection, organization: string, site: Site)
    ensures var t := ApplyAll(ApplyAll(ApplyAll(s, AuthenticationCalls(c)), ConfigCalls(existing, c)), BaselineCalls(c, organization, site));
            var previous := PreviousId(existing, c);
            t == State(s.records[c.id := Baseline(c, organization, site)], s.mirrors, s.env,
                       if c.primaryKey == "" then s.auth else s.auth[c.id := c.primaryKey],
                       (if previous.Some? then s.config - {previous.value} else s.config)[c.id := c.config])
  {
    var s1 := ApplyAll(s, AuthenticationCalls(c));
    ApplyMaybe(s, AuthenticationCalls(c), SetAuth(c.id, c.primaryKey));
    ApplyMaybe(s1, ConfigCalls(existing, c), ConfigCalls(existing, c)[0]);
    ApplyMaybe(ApplyAll(s1, ConfigCalls(existing, c)), BaselineCalls(c, organization, site), BaselineCalls(c, organization, site)[0]);
  }

  /** A completed import keeps everything accounted for, except in one case: a publication that has
      lost its key, imported over a baseline whose mirror is still stored. The new baseline then names
      no mirror, and nothing will ever remove the old one. */
  lemma ImportAccountedIff(s: State, c: Connection, organization: string, site: Site)
    requires Aligned(s, site) && Accounted(s, site) && site.managed(c.id) && organization != ""
    ensures Aligned(Imported(s, c, organization, site), site)
    ensures Accounted(Imported(s, c, organization, site), site) <==>
            !(c.primaryKey == "" && c.id in s.records && s.records[c.id].mirror.Some? && s.records[c.id].mirror.value.key in s.mirrors)
  {
    ImportedMeans(s, c, organization, site);
    var t := ImportedAtOnce(s, c, organization, site);
    if c.primaryKey == "" {
      forall k | k in t.mirrors && k.workspace == site.workspace
        ensures k.cloudId in s.records && s.records[k.cloudId].mirror == Some(Mirror(k, k))
      {
      }
      if c.id in s.records && s.records[c.id].mirror.Some? && s.records[c.id].mirror.value.key in s.mirrors {
        var k := s.records[c.id].mirror.value.key;
        assert k in t.mirrors && k.cloudId == c.id && t.records[k.cloudId].mirror == None;
      }
    } else {
      AccountedAfterKeyedImport(s, c, organization, site);
    }
  }

  lemma AccountedAfterKeyedImport(s: State, c: Connection, organization: string, site: Site)
    requires Aligned(s, site) && Accounted(s, site) && site.managed(c.id) && organization != "" && c.primaryKey != ""
    ensures Accounted(ImportedAtOnce(s, c, organization, site), site)
  {
    var t, owner := ImportedAtOnce(s, c, organization, site), NewOwner(c.id, organization, site);
    forall k | k in t.mirrors && k.workspace == site.workspace
      ensures k.cloudId in t.records && t.records[k.cloudId].mirror == Some(Mirror(k, k))
    {
      if k != owner {
        assert k in s.mirrors;
        assert s.records[k.cloudId].mirror == Some(Mirror(k, k));
      }
    }
  }

  /** The leak, from an empty runtime: import with a key, import again without one, remove. The mirror
      outlives its provider, and removing again finds no baseline to lead to it. */
  lemma KeylessReimportLeaksTheMirror(c: Connection, organization: string, site: Site)
    requires c.primaryKey != "" && !c.requiresEnv
    ensures var s1 := Imported(State(map[], map[], map[], map[], map[]), c, organization, site);
            var s2 := Imported(s1, c.(primaryKey := ""), organization, site);
            var s3 := Removed(s2, c.id, site);
            && NewOwner(c.id, organization, site) in s3.mirrors && c.id !in s3.records && Removed(s3, c.id, site) == s3
  {
    var s0 := State(map[], map[], map[], map[], map[]);
    ImportedMeans(s0, c, organization, site);
    var s1 := ImportedAtOnce(s0, c, organization, site);
    ImportedMeans(s1, c.(primaryKey := ""), organization, site);
    var s2 := ImportedAtOnce(s1, c.(primaryKey := ""), organization, site);
    RemovedMeans(s2, c.id, site);
  }

  /** A completed remove leaves nothing of an accounted provider behind. */
  lemma RemoveLeavesNothing(s: State, id: string, site: Site)
    requires Aligned(s, site) && Accounted(s, site) && id in s.records
    ensures var t := Removed(s, id, site);
            && id !in t.records && id !in t.auth && id !in t.config
            && forall k | k in t.mirrors :: !(k.workspace == site.workspace && k.cloudId == id)
  {
    RemovedMeans(s, id, site);
  }

  // ---- What a mutation of one provider leaves alone --------------------------------------------------

  predicate MirrorOf(k: Owner, id: string, site: Site) { k.workspace == site.workspace && k.cloudId == id }

  /** The two states agree on everything filed under another provider. The user environment is shared
      by name and not filed under a provider. */
  ghost predicate SameElsewhere(s: State, t: State, ids: set<string>, site: Site) {
    && (forall p | p !in ids :: (p in s.records <==> p in t.records) && (p in s.records ==> t.records[p] == s.records[p]))
    && (forall p | p !in ids :: (p in s.auth <==> p in t.auth) && (p in s.auth ==> t.auth[p] == s.auth[p]))
    && (forall p | p !in ids :: (p in s.config <==> p in t.config) && (p in s.config ==> t.config[p] == s.config[p]))
    && (forall k: Owner | !(k.workspace == site.workspace && k.cloudId in ids) ::
          (k in s.mirrors <==> k in t.mirrors) && (k in s.mirrors ==> t.mirrors[k] == s.mirrors[k]))
  }

  ghost predicate About(call: Call, id: string, site: Site) {
    match call
    case PutEnv(_) | DeleteEnv(_) => true
    case SetMirror(owner, _) => MirrorOf(owner, id, site)
    case RemoveMirror(i) => i == id
    case SetAuth(i, _) => i == id
    case RemoveAuth(i) => i == id
    case DeleteRecord(i) => i == id
    case PatchConfig(drop, put) => (drop.Some? ==> drop.value == id) && (put.Some? ==> put.value.0 == id)
    case PutRecord(i, item) => i == id && RecordAligned(item, id, site)
  }

  lemma AboutStep(s: State, call: Call, id: string, site: Site)
    requires Aligned(s, site) && About(call, id, site)
    ensures Aligned(Apply(s, call), site) && SameElsewhere(s, Apply(s, call), {id}, site)
  {
    if call.RemoveMirror? && id in s.records {
      assert RecordAligned(s.records[id], id, site);
    }
  }

  lemma SameElsewhereTrans(s: State, t: State, u: State, a: set<string>, b: set<string>, site: Site)
    requires SameElsewhere(s, t, a, site) && SameElsewhere(t, u, b, site)
    ensures SameElsewhere(s, u, a + b, site)
  {
  }

  lemma {:induction false} AboutSteps(s: State, calls: seq<Call>, id: string, site: Site)
    requires Aligned(s, site) && forall i | 0 <= i < |calls| :: About(calls[i], id, site)
    ensures Aligned(ApplyAll(s, calls), site) && SameElsewhere(s, ApplyAll(s, calls), {id}, site)
    decreases |calls|
  {
    if calls != [] {
      AboutStep(s, calls[0], id, site);
      forall i | 0 <= i < |calls[1..]| ensures About(calls[1..][i], id, site) { assert calls[1..][i] == calls[i + 1]; }
      AboutSteps(Apply(s, calls[0]), calls[1..], id, site);
      SameElsewhereTrans(s, Apply(s, calls[0]), ApplyAll(s, calls), {id}, {id}, site);
      assert {id} + {id} == {id};
    }
  }

  /** An import cut off anywhere leaves aligned baselines aligned and every other provider as it was. */
  lemma CutImportElsewhere(s: State, c: Connection, organization: string, n: nat, site: Site)
    requires Aligned(s, site) && site.managed(c.id) && organization != ""
    requires n <= |ImportCalls(Existing(s, c.id), c, organization, site)|
    ensures var cut := ApplyAll(s, ImportCalls(Existing(s, c.id), c, organization, site)[..n]);
            Aligned(cut, site) && SameElsewhere(s, cut, {c.id}, site)
  {
    var existing := Existing(s, c.id);
    var calls := ImportCalls(existing, c, organization, site);
    if existing.Some? { assert RecordAligned(existing.value, c.id, site); }
    var entries, mirror := EntryCalls(c), MirrorCalls(c, organization, site);
    var retire, legacy := RetireCalls(existing, c, organization, site), LegacyCalls(existing, c, site);
    var auth, config := AuthenticationCalls(c), ConfigCalls(existing, c);
    AllAboutAppend(entries, mirror, c.id, site);
    AllAboutAppend(entries + mirror, retire, c.id, site);
    AllAboutAppend(entries + mirror + retire, legacy, c.id, site);
    AllAboutAppend(EnvironmentCalls(existing, c, organization, site), auth, c.id, site);
    AllAboutAppend(EnvironmentCalls(existing, c, organization, site) + auth, config, c.id, site);
    AllAboutAppend(EnvironmentCalls(existing, c, organization, site) + auth + config, BaselineCalls(c, organization, site), c.id, site);
    AboutSteps(s, calls[..n], c.id, site);
  }

  ghost predicate AllAbout(calls: seq<Call>, id: string, site: Site) { forall i | 0 <= i < |calls| :: About(calls[i], id, site) }

  lemma {:induction false} AllAboutAppend(a: seq<Call>, b: seq<Call>, id: string, site: Site)
    requires AllAbout(a, id, site) && AllAbout(b, id, site)
    ensures AllAbout(a + b, id, site)
  {
  }

  /** So does a remove. */
  lemma CutRemoveElsewhere(s: State, id: string, n: nat, site: Site)
    requires Aligned(s, site) && id in s.records && n <= |RemoveCalls(s.records[id], id, site)|
    ensures var cut := ApplyAll(s, RemoveCalls(s.records[id], id, site)[..n]);
            Aligned(cut, site) && SameElsewhere(s, cut, {id}, site)
  {
    assert RecordAligned(s.records[id], id, site);
    var calls := RemoveCalls(s.records[id], id, site);
    AboutSteps(s, calls[..n], id, site);
  }

  /** Baselines elsewhere are untouched whatever the state, aligned or not. */
  ghost predicate RecordsElsewhere(s: State, t: State, ids: set<string>) {
    forall p | p !in ids :: (p in s.records <==> p in t.records) && (p in s.records ==> t.records[p] == s.records[p])
  }

  lemma {:induction false} CallsKeepRecords(s: State, calls: seq<Call>, id: string)
    requires forall i | 0 <= i < |calls| :: (calls[i].PutRecord? || calls[i].DeleteRecord?) ==> calls[i].id == id
    ensures RecordsElsewhere(s, ApplyAll(s, calls), {id})
    decreases |calls|
  {
    if calls != [] {
      forall i | 0 <= i < |calls[1..]| ensures (calls[1..][i].PutRecord? || calls[1..][i].DeleteRecord?) ==> calls[1..][i].id == id {
        assert calls[1..][i] == calls[i + 1];
      }
      CallKeepsRecords(s, calls[0], id);
      CallsKeepRecords(Apply(s, calls[0]), calls[1..], id);
    }
  }

  lemma CallKeepsRecords(s: State, call: Call, id: string)
    requires (call.PutRecord? || call.DeleteRecord?) ==> call.id == id
    ensures RecordsElsewhere(s, Apply(s, call), {id})
  {
  }

  // ---- Any sequence of mutations ----------------------------------------------------------------------

  /** One mutation, of which the first n calls take effect. */
  datatype Operation = ImportUpTo(c: Connection, organization: string, n: nat) | RemoveUpTo(id: string, n: nat)

  function Min(a: nat, b: nat): nat { if a < b then a else b }

  function CallsOf(s: State, op: Operation, site: Site): seq<Call> {
    match op
    case ImportUpTo(c, organization, _) => ImportCalls(Existing(s, c.id), c, organization, site)
    case RemoveUpTo(id, _) => if id in s.records then RemoveCalls(s.records[id], id, site) else []
  }

  function Perform(s: State, op: Operation, site: Site): State {
    var calls := CallsOf(s, op, site);
    ApplyAll(s, calls[..Min(op.n, |calls|)])
  }

  function PerformAll(s: State, ops: seq<Operation>, site: Site): State
    decreases |ops|
  {
    if ops == [] then s else PerformAll(Perform(s, ops[0], site), ops[1..], site)
  }

  /** Only managed publications of an organization get as far as a mutating call. */
  predicate Mutates(op: Operation, site: Site) {
    op.ImportUpTo? ==> site.managed(op.c.id) && op.organization != ""
  }

  lemma PerformAligned(s: State, op: Operation, site: Site)
    requires Aligned(s, site) && Mutates(op, site)
    ensures Aligned(Perform(s, op, site), site)
  {
    var n := Min(op.n, |CallsOf(s, op, site)|);
    match op
    case ImportUpTo(c, organization, _) => CutImportElsewhere(s, c, organization, n, site);
    case RemoveUpTo(id, _) =>
      if id in s.records {
        CutRemoveElsewhere(s, id, n, site);
      } else {
        assert CallsOf(s, op, site)[..n] == [];
      }
  }

  /** Whatever imports and removes have run, each cut off anywhere, every baseline is one this CLI writes. */
  lemma {:induction false} RunsStayAligned(s: State, ops: seq<Operation>, site: Site)
    requires Aligned(s, site) && forall i | 0 <= i < |ops| :: Mutates(ops[i], site)
    ensures Aligned(PerformAll(s, ops, site), site)
    decreases |ops|
  {
    if ops != [] {
      PerformAligned(s, ops[0], site);
      forall i | 0 <= i < |ops[1..]| ensures Mutates(ops[1..][i], site) { assert ops[1..][i] == ops[i + 1]; }
      RunsStayAligned(Perform(s, ops[0], site), ops[1..], site);
    }
  }

  /** Where every baseline is one this CLI writes, the host accepts every call of a remove. */
  lemma RemoveIsAccepted(s: State, id: string, site: Site)
    requires Aligned(s, site) && id in s.records
    ensures AllAccepted(s, RemoveCalls(s.records[id], id, site), site)
  {
    var record := s.records[id];
    assert RecordAligned(record, id, site);
    var environment := RemoveEnvironmentCalls(record, id, site);
    var rest := [RemoveAuth(record.providerId), PatchConfig(Some(record.providerId), None), DeleteRecord(id)];
    AcceptedAppend(s, environment, rest, site);
    assert |environment| == 1 ==> environment[1..] == [] && Accepts(s, environment[0], site);
    var t := ApplyAll(s, environment);
    assert t.records == s.records && t.records[id].providerId == record.providerId;
    AcceptedThree(t, RemoveAuth(record.providerId), PatchConfig(Some(record.providerId), None), DeleteRecord(id), site);
    assert environment + rest == RemoveCalls(record, id, site);
  }

  /** A call that changes no baseline. */
  predicate KeepsRecords(call: Call) { !call.PutRecord? && !call.DeleteRecord? }

  ghost predicate EachAccepted(s: State, calls: seq<Call>, site: Site) { forall i | 0 <= i < |calls| :: Accepts(s, calls[i], site) }

  lemma {:induction false} AllAcceptHeadTail(s: State, calls: seq<Call>, site: Site)
    requires calls != []
    ensures EachAccepted(s, calls, site) <==> Accepts(s, calls[0], site) && EachAccepted(s, calls[1..], site)
  {
    if Accepts(s, calls[0], site) && EachAccepted(s, calls[1..], site) {
      forall i | 0 <= i < |calls| ensures Accepts(s, calls[i], site) {
        assert i > 0 ==> calls[i] == calls[1..][i - 1];
      }
    }
    if EachAccepted(s, calls, site) {
      forall i | 0 <= i < |calls[1..]| ensures Accepts(s, calls[1..][i], site) { assert calls[1..][i] == calls[i + 1]; }
    }
  }

  lemma {:induction false} AcceptedOneByOne(s: State, t: State, calls: seq<Call>, site: Site)
    requires s.records == t.records && forall i | 0 <= i < |calls| :: KeepsRecords(calls[i])
    ensures AllAccepted(t, calls, site) <==> EachAccepted(s, calls, site)
    ensures ApplyAll(t, calls).records == s.records
    decreases |calls|
  {
    if calls != [] {
      var rest, next := calls[1..], Apply(t, calls[0]);
      forall i | 0 <= i < |rest| ensures KeepsRecords(rest[i]) && rest[i] == calls[i + 1] {}
      OwnedByRecords(s, t, calls[0], site);
      AcceptedOneByOne(s, next, rest, site);
      AllAcceptHeadTail(s, calls, site);
    }
  }

  /** Where every baseline is one this CLI writes, the host accepts every call of an import of a publishable
      connection, if and only if it accepts the id. */
  lemma ImportIsAccepted(s: State, c: Connection, organization: string, site: Site)
    requires Aligned(s, site) && Publishable(c, site) && organization != ""
    ensures AllAccepted(s, ImportCalls(Existing(s, c.id), c, organization, site), site) <==> site.idOk(c.id)
  {
    var existing := Existing(s, c.id);
    var front := EnvironmentCalls(existing, c, organization, site) + AuthenticationCalls(c) + ConfigCalls(existing, c);
    var last := BaselineCalls(c, organization, site);
    FrontIsAccepted(s, c, organization, site);
    AcceptedOneByOne(s, s, front, site);
    AcceptedAppend(s, front, last, site);
    assert last[1..] == [];
  }

  lemma FrontIsAccepted(s: State, c: Connection, organization: string, site: Site)
    requires Aligned(s, site) && Publishable(c, site) && organization != ""
    ensures var existing := Existing(s, c.id);
            var front := EnvironmentCalls(existing, c, organization, site) + AuthenticationCalls(c) + ConfigCalls(existing, c);
            Fine(s, front, site)
  {
    var existing := Existing(s, c.id);
    assert existing.Some? ==> RecordAligned(existing.value, c.id, site);
    var entries, mirror := EntryCalls(c), MirrorCalls(c, organization, site);
    var retire, legacy := RetireCalls(existing, c, organization, site), LegacyCalls(existing, c, site);
    assert Fine(s, entries, site) && Fine(s, mirror, site) && Fine(s, retire, site) && Fine(s, legacy, site);
    FineAppend(s, entries, mirror, site);
    FineAppend(s, entries + mirror, retire, site);
    FineAppend(s, entries + mirror + retire, legacy, site);
    FineAppend(s, EnvironmentCalls(existing, c, organization, site), AuthenticationCalls(c), site);
    FineAppend(s, EnvironmentCalls(existing, c, organization, site) + AuthenticationCalls(c), ConfigCalls(existing, c), site);
  }

  /** Calls that are accepted and change no baseline. */
  ghost predicate Fine(s: State, calls: seq<Call>, site: Site) {
    EachAccepted(s, calls, site) && forall i | 0 <= i < |calls| :: KeepsRecords(calls[i])
  }

  lemma {:induction false} FineAppend(s: State, a: seq<Call>, b: seq<Call>, site: Site)
    requires Fine(s, a, site) && Fine(s, b, site)
    ensures Fine(s, a + b, site)
  {
  }

  /** Everything about an import succeeds: no request meets a fault, and the host takes every call. */
  lemma {:induction false} AllSucceedIff(s: State, calls: seq<Call>, faults: seq<Fault>, site: Site)
    ensures AllSucceed(s, calls, faults, site, |calls|) <==> AllAccepted(s, calls, site) && NoFaults(faults, |calls|)
  {
    if AllSucceed(s, calls, faults, site, |calls|) {
      AllSucceededMeans(s, calls, faults, site);
      forall i: nat | i < |calls| ensures FaultAt(faults, i) == NoFault { assert Succeeds(s, calls, faults, site, i); }
    }
    if AllAccepted(s, calls, site) && NoFaults(faults, |calls|) {
      forall i: nat | i < |calls| ensures Succeeds(s, calls, faults, site, i) { StepInto(s, calls, i, site); }
    }
  }

  ghost predicate NoFaults(faults: seq<Fault>, n: nat) { forall i: nat | i < n :: FaultAt(faults, i) == NoFault }

  /** An import completes exactly if the connection is the requested one and publishable, the host takes
      every call, and none of its requests meets a fault: the two reads, the calls, the reload and the
      status. */
  lemma {:induction false} ImportCompletesIff(r: Result<seq<Stage>, MutationError>, at: nat, s: State, faults: seq<Fault>, c: Connection, id: string,
                           organization: string, site: Site)
    requires ImportResult(r, at, s, faults, c, id, organization, site)
    ensures var calls := ImportCalls(Existing(s, id), c, organization, site);
            r.Ok? <==> c.id == id && Publishable(c, site) && AllAccepted(s, calls, site) && NoFaults(faults, |calls| + 4)
  {
    var calls := ImportCalls(Existing(s, id), c, organization, site);
    TwoFaults(faults);
    TwoFaults(Later(faults, 2 + |calls|));
    if Checked(c, id, faults, site).Ok? {
      CallsCompleteIff(s, calls, faults, site, at, 2, 2);
    } else {
      FaultsInTurn(faults, 2, |calls|, 2);
    }
  }

  lemma TwoFaults(faults: seq<Fault>)
    ensures NoFaults(faults, 2) <==> FaultAt(faults, 0) == NoFault && FaultAt(faults, 1) == NoFault
    ensures NoFaults(faults, 1) <==> FaultAt(faults, 0) == NoFault
  {
  }

  /** The same of the calls with any number of reads before and behind them. */
  lemma {:induction false} CallsCompleteIff(s: State, calls: seq<Call>, faults: seq<Fault>, site: Site, at: nat, before: nat, after: nat)
    requires FailsAt(s, calls, Later(faults, before), site, at) && NoFaults(faults, before)
    ensures at == |calls| && NoFaults(Later(faults, before + |calls|), after)
            <==> AllAccepted(s, calls, site) && NoFaults(faults, before + |calls| + after)
  {
    AllSucceedIff(s, calls, Later(faults, before), site);
    FaultsInTurn(faults, before, |calls|, after);
    assert at < |calls| ==> !Succeeds(s, calls, Later(faults, before), site, at);
  }

  /** No fault in n requests, then in m, then in k. */
  lemma FaultsInTurn(faults: seq<Fault>, n: nat, m: nat, k: nat)
    ensures NoFaults(faults, n + m + k) <==>
            NoFaults(faults, n) && NoFaults(Later(faults, n), m) && NoFaults(Later(faults, n + m), k)
  {
    LaterTwice(Later(faults, n), faults, n, m);
    LaterTwice(Later(faults, n + m), faults, n + m, 0);
    if NoFaults(faults, n) && NoFaults(Later(faults, n), m) && NoFaults(Later(faults, n + m), k) {
      forall i: nat | i < n + m + k ensures FaultAt(faults, i) == NoFault {
        if n <= i < n + m {
          assert FaultAt(Later(faults, n), i - n) == FaultAt(faults, i);
        } else if n + m <= i {
          assert FaultAt(Later(faults, n + m), i - n - m) == FaultAt(faults, i);
        }
      }
    }
  }

  lemma {:induction false} RemoveCompletesIff(r: Result<seq<Stage>, MutationError>, at: nat, s: State, faults: seq<Fault>, id: string, site: Site)
    requires id in s.records && RemoveResult(r, at, s, faults, id, site)
    ensures var calls := RemoveCalls(s.records[id], id, site);
            r.Ok? <==> AllAccepted(s, calls, site) && NoFaults(faults, |calls| + 2)
  {
    var calls := RemoveCalls(s.records[id], id, site);
    TwoFaults(faults);
    TwoFaults(Later(faults, 1 + |calls|));
    if FaultAt(faults, 0) == NoFault {
      CallsCompleteIff(s, calls, faults, site, at, 1, 1);
    } else {
      FaultsInTurn(faults, 1, |calls|, 1);
    }
  }

  lemma AcceptedThree(s: State, a: Call, b: Call, c: Call, site: Site)
    ensures AllAccepted(s, [a, b, c], site) <==>
            Accepts(s, a, site) && Accepts(Apply(s, a), b, site) && Accepts(Apply(Apply(s, a), b), c, site)
  {
    assert [a, b, c][1..] == [b, c] && [b, c][1..] == [c] && [c][1..] == [];
    assert AllAccepted(Apply(s, a), [b, c], site) <==>
           Accepts(Apply(s, a), b, site) && AllAccepted(Apply(Apply(s, a), b), [c], site);
    assert AllAccepted(Apply(Apply(s, a), b), [c], site) <==> Accepts(Apply(Apply(s, a), b), c, site);
  }

  lemma CutRemoveFromAligned(t: State, id: string, n: nat, site: Site, cut: State)
    requires Aligned(t, site) && cut == Perform(t, RemoveUpTo(id, n), site)
    ensures Removed(cut, id, site) == Removed(t, id, site)
    ensures id in cut.records ==> AllAccepted(cut, RemoveCalls(cut.records[id], id, site), site)
  {
    var calls := CallsOf(t, RemoveUpTo(id, n), site);
    PerformAligned(t, RemoveUpTo(id, n), site);
    if id in t.records {
      RemoveIsAccepted(t, id, site);
      RemoveCanBeRetried(t, id, Min(n, |calls|), site);
    } else {
      assert calls[..0] == [];
    }
    if id in cut.records {
      RemoveIsAccepted(cut, id, site);
    }
  }

  /** After any imports and removes, each cut off anywhere, one more remove that is cut off anywhere can
      be run again: every one of its calls is accepted, and it reaches the state of a remove that was
      never interrupted. */
  lemma CutRemoveConverges(s: State, ops: seq<Operation>, id: string, n: nat, site: Site, t: State, cut: State)
    requires Aligned(s, site) && forall i | 0 <= i < |ops| :: Mutates(ops[i], site)
    requires t == PerformAll(s, ops, site) && cut == Perform(t, RemoveUpTo(id, n), site)
    ensures Removed(cut, id, site) == Removed(t, id, site)
    ensures id in cut.records ==> AllAccepted(cut, RemoveCalls(cut.records[id], id, site), site)
  {
    RunsStayAligned(s, ops, site);
    CutRemoveFromAligned(t, id, n, site, cut);
  }

  /** An import that stopped short, or the keyless re-import that strands a mirror. */
  predicate Leaks(s: State, op: Operation, site: Site) {
    op.ImportUpTo? && (op.n < |CallsOf(s, op, site)|
                       || (op.c.primaryKey == "" && op.c.id in s.records && s.records[op.c.id].mirror.Some?
                           && s.records[op.c.id].mirror.value.key in s.mirrors))
  }

  ghost predicate NeverLeaks(s: State, ops: seq<Operation>, site: Site)
    decreases |ops|
  {
    ops == [] || (Mutates(ops[0], site) && !Leaks(s, ops[0], site) && NeverLeaks(Perform(s, ops[0], site), ops[1..], site))
  }

  /** In every state reached by completed imports and removes cut off anywhere, whatever credential,
      mirror or config is left still has the baseline that leads a later remove to it. */
  lemma {:induction false} RunsStayAccounted(s: State, ops: seq<Operation>, site: Site)
    requires Aligned(s, site) && Accounted(s, site) && NeverLeaks(s, ops, site)
    ensures Aligned(PerformAll(s, ops, site), site) && Accounted(PerformAll(s, ops, site), site)
    decreases |ops|
  {
    if ops != [] {
      var op, t := ops[0], Perform(s, ops[0], site);
      match op {
        case ImportUpTo(c, organization, n) =>
          var calls := CallsOf(s, op, site);
          assert calls[..Min(n, |calls|)] == calls;
          ImportAccountedIff(s, c, organization, site);
        case RemoveUpTo(id, n) =>
          if id in s.records {
            CutRemoveAccounted(s, id, Min(n, |CallsOf(s, op, site)|), site);
          } else {
            assert CallsOf(s, op, site)[..0] == [];
          }
      }
      RunsStayAccounted(t, ops[1..], site);
    }
  }
}
