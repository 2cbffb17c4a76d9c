/**
 Organization reconciliation (apps/cli/src/cloud-runtime-sync.ts): remove what is no longer
 published, import what is missing or out of date. It runs over a runtime state left by any earlier
 mutations, complete or not, and may itself stop at any call.
 */
module CloudSync {
  import opened Common
  import opened ProviderRuntime

  /** A published provider as the organization lists it, already filtered to importable ones. */
  datatype Publication = Publication(
    id: string, sourceProviderId: string, source: Option<string>, updatedAt: Option<string>, modelIds: seq<string>,
    needsOwnedMirror: bool)

  /** `importedCloudProviders`: an entry filed under its own id, well typed, with a managed runtime id. */
  predicate WellFormed(key: string, record: Record, site: Site) {
    record.cloudProviderId == key && record.typed && site.managed(record.providerId)
  }

  function WellFormedIds(s: State, site: Site): set<string> {
    set id | id in s.records && WellFormed(id, s.records[id], site)
  }

  /** `isCloudProviderOutOfSync`, for a known organization and no catalog. */
  predicate OutOfSync(p: Publication, record: Record, organization: string) {
    || record.version < METADATA_VERSION
    || record.organization != Some(organization)
    || record.providerId != p.id
    || record.sourceProviderId != p.sourceProviderId
    || record.source != p.source
    || record.updatedAt != p.updatedAt
    || (p.needsOwnedMirror && (record.mirror.None? || record.mirror.value.owner.cloudId != p.id
                               || record.mirror.value.owner.organization != organization
                               || record.mirror.value.key != record.mirror.value.owner))
    || record.modelIds != p.modelIds
  }

  function Ids(published: seq<Publication>): set<string> { set i | 0 <= i < |published| :: published[i].id }

  /** The connection agrees with the listing it was requested for. Both carry the same environment list:
      a provider needs its own mirror when that list holds a gateway key name, so the list is not empty. */
  predicate Matches(c: Connection, p: Publication) {
    && c.id == p.id && c.sourceProviderId == p.sourceProviderId && c.source == p.source && c.updatedAt == p.updatedAt
    && c.modelIds == p.modelIds && (p.needsOwnedMirror ==> c.requiresEnv)
  }

  /** A published provider is imported and up to date. */
  ghost predicate SettledAt(s: State, p: Publication, organization: string, site: Site) {
    p.id in s.records && WellFormed(p.id, s.records[p.id], site) && !OutOfSync(p, s.records[p.id], organization)
  }

  /** The baseline an import writes is well formed and in sync with the listing: what needs its own
      mirror is not imported without a key. */
  lemma FreshBaselineInSync(c: Connection, p: Publication, organization: string, site: Site)
    requires Matches(c, p) && Publishable(c, site)
    ensures WellFormed(c.id, Baseline(c, organization, site), site)
    ensures !OutOfSync(p, Baseline(c, organization, site), organization)
  {
  }

  datatype SyncResult = SyncResult(removed: seq<string>, imported: seq<string>)

  function ToSet(s: seq<string>): set<string> { set x | x in s }

  // ---- One step of either loop ---------------------------------------------------------------------

  /** Everything filed under providers other than `ids` is as it was: baselines always, and also auth,
      config and mirrors when every baseline was written by this CLI. */
  ghost predicate Progress(s: State, t: State, ids: set<string>, site: Site) {
    && RecordsElsewhere(s, t, ids)
    && (Aligned(s, site) ==> Aligned(t, site) && SameElsewhere(s, t, ids, site))
  }

  lemma ProgressNone(s: State, site: Site)
    ensures Progress(s, s, {}, site)
  {
  }

  lemma ProgressStep(s: State, t: State, u: State, a: set<string>, b: set<string>, site: Site)
    requires Progress(s, t, a, site) && Progress(t, u, b, site)
    ensures Progress(s, u, a + b, site)
  {
    if Aligned(s, site) {
      SameElsewhereTrans(s, t, u, a, b, site);
    }
  }

  lemma ProgressGrows(s: State, t: State, a: set<string>, b: set<string>, site: Site)
    requires Progress(s, t, a, site) && a <= b
    ensures Progress(s, t, b, site)
  {
  }

  lemma CutRemoveProgress(s: State, id: string, n: nat, site: Site)
    requires id in s.records && n <= |RemoveCalls(s.records[id], id, site)|
    ensures Progress(s, ApplyAll(s, RemoveCalls(s.records[id], id, site)[..n]), {id}, site)
  {
    CallsKeepRecords(s, RemoveCalls(s.records[id], id, site)[..n], id);
    if Aligned(s, site) {
      CutRemoveElsewhere(s, id, n, site);
    }
  }

  lemma CutImportProgress(s: State, c: Connection, organization: string, n: nat, site: Site)
    requires n <= |ImportCalls(Existing(s, c.id), c, organization, site)|
    requires n > 0 ==> site.managed(c.id) && organization != ""
    ensures Progress(s, ApplyAll(s, ImportCalls(Existing(s, c.id), c, organization, site)[..n]), {c.id}, site)
  {
    if n == 0 {
      assert ImportCalls(Existing(s, c.id), c, organization, site)[..0] == [];
      ProgressNone(s, site);
    } else {
      CallsKeepRecords(s, ImportCalls(Existing(s, c.id), c, organization, site)[..n], c.id);
      if Aligned(s, site) {
        CutImportElsewhere(s, c, organization, n, site);
      }
    }
  }

  /** The connection can be imported under this id. */
  predicate Importable(c: Connection, id: string, site: Site) { c.id == id && Publishable(c, site) && site.idOk(id) }

  /** However an import ends, it has kept everything else. */
  lemma ImportedOrCut(s: State, f: seq<Fault>, c: Connection, organization: string, site: Site, at: nat)
    requires organization != ""
    requires var calls := ImportCalls(Existing(s, c.id), c, organization, site);
             Checked(c, c.id, f, site).Ok? ==> at <= |calls|
    ensures var calls := ImportCalls(Existing(s, c.id), c, organization, site);
            Progress(s, if Checked(c, c.id, f, site).Err? then s
                        else ApplyAll(s, calls[..Effective(s, calls, Later(f, 2), site, at)]), {c.id}, site)
  {
    var calls := ImportCalls(Existing(s, c.id), c, organization, site);
    if Checked(c, c.id, f, site).Ok? {
      CutImportProgress(s, c, organization, Effective(s, calls, Later(f, 2), site, at), site);
    } else {
      ProgressNone(s, site);
      ProgressGrows(s, s, {}, {c.id}, site);
    }
  }

  lemma LastCallAccepted(s: State, c: Connection, organization: string, site: Site)
    ensures AllAccepted(s, ImportCalls(Existing(s, c.id), c, organization, site), site) ==> site.idOk(c.id)
  {
    var existing := Existing(s, c.id);
    var front := EnvironmentCalls(existing, c, organization, site) + AuthenticationCalls(c) + ConfigCalls(existing, c);
    AcceptedAppend(s, front, BaselineCalls(c, organization, site), site);
  }

  /** A remove within a longer run. */
  method RemoveOne(runtime: Runtime, id: string, ghost s0: State, ghost touched: set<string>) returns (ok: bool)
    requires Progress(s0, runtime.state, touched, runtime.site)
    modifies runtime
    ensures Progress(s0, runtime.state, touched + {id}, runtime.site)
    ensures RecordsElsewhere(old(runtime.state), runtime.state, {id})
    ensures ok ==> id !in runtime.state.records
    ensures old(runtime.faults) == [] ==> runtime.faults == [] && (Aligned(old(runtime.state), runtime.site) ==> ok)
  {
    ghost var before, f := runtime.state, runtime.faults;
    var r, at := runtime.RemoveProvider(id);
    if id in before.records {
      var calls := RemoveCalls(before.records[id], id, runtime.site);
      CutRemoveProgress(before, id, if FaultAt(f, 0) != NoFault then 0 else Effective(before, calls, Later(f, 1), runtime.site, at),
                        runtime.site);
      RemoveCompletesIff(r, at, before, f, id, runtime.site);
      if Aligned(before, runtime.site) { RemoveIsAccepted(before, id, runtime.site); }
      RemovedMeans(before, id, runtime.site);
      ProgressStep(s0, before, runtime.state, touched, {id}, runtime.site);
    } else {
      ProgressGrows(s0, before, touched, touched + {id}, runtime.site);
    }
    ok := r.Ok?;
  }

  /** An import within a longer run. */
  method ImportOne(runtime: Runtime, c: Connection, id: string, organization: string, ghost s0: State, ghost touched: set<string>)
    returns (ok: bool)
    requires Progress(s0, runtime.state, touched, runtime.site) && organization != ""
    modifies runtime
    ensures Progress(s0, runtime.state, touched + {id}, runtime.site)
    ensures RecordsElsewhere(old(runtime.state), runtime.state, {id})
    ensures ok ==> c.id == id && Publishable(c, runtime.site) && id in runtime.state.records
                   && runtime.state.records[id] == Baseline(c, organization, runtime.site)
    ensures ok ==> Importable(c, id, runtime.site)
    ensures old(runtime.faults) == [] ==>
              runtime.faults == [] && (Aligned(old(runtime.state), runtime.site) && Importable(c, id, runtime.site) ==> ok)
  {
    ghost var before, f := runtime.state, runtime.faults;
    var r, at := runtime.ImportProvider(c, id, organization);
    ImportCompletesIff(r, at, before, f, c, id, organization, runtime.site);
    if c.id == id {
      ImportedOrCut(before, f, c, organization, runtime.site, at);
      LastCallAccepted(before, c, organization, runtime.site);
      if Publishable(c, runtime.site) && Aligned(before, runtime.site) {
        ImportIsAccepted(before, c, organization, runtime.site);
      }
      ImportedMeans(before, c, organization, runtime.site);
      ProgressStep(s0, before, runtime.state, touched, {id}, runtime.site);
    } else {
      ProgressGrows(s0, before, touched, touched + {id}, runtime.site);
    }
    ok := r.Ok?;
  }

  // ---- The two loops ---------------------------------------------------------------------------------

  /** Removes every well-formed import that is no longer published. None is a failed stage. */
  method RemoveStale(runtime: Runtime, stale: set<string>) returns (removed: Option<seq<string>>)
    modifies runtime
    ensures Progress(old(runtime.state), runtime.state, stale, runtime.site)
    ensures removed.Some? ==> ToSet(removed.value) == stale && forall id | id in stale :: id !in runtime.state.records
    ensures old(runtime.faults) == [] ==> runtime.faults == [] && (Aligned(old(runtime.state), runtime.site) ==> removed.Some?)
  {
    var todo, gone := stale, [];
    ghost var s0 := runtime.state;
    ProgressNone(s0, runtime.site);
    while todo != {}
      invariant todo <= stale && ToSet(gone) == stale - todo
      invariant Progress(s0, runtime.state, stale - todo, runtime.site)
      invariant forall id | id in stale - todo :: id !in runtime.state.records
      invariant old(runtime.faults) == [] ==> runtime.faults == []
      decreases todo
    {
      var id :| id in todo;
      var ok := RemoveOne(runtime, id, s0, stale - todo);
      assert (stale - todo) + {id} == stale - (todo - {id});
      if !ok {
        ProgressGrows(s0, runtime.state, stale - (todo - {id}), stale, runtime.site);
        return None;
      }
      assert ToSet(gone + [id]) == ToSet(gone) + {id};
      gone := gone + [id];
      todo := todo - {id};
    }
    assert stale - todo == stale;
    removed := Some(gone);
  }

  function Baselines(s: State, site: Site): map<string, Record> {
    map id | id in WellFormedIds(s, site) :: s.records[id]
  }

  predicate NothingToDo(p: Publication, previous: map<string, Record>, organization: string, healthy: bool) {
    p.id in previous && !OutOfSync(p, previous[p.id], organization) && healthy
  }

  /** The providers that are imported: missing, out of date or not working, in listing order. */
  function Needed(published: seq<Publication>, previous: map<string, Record>, organization: string, healthy: nat -> bool): seq<string> {
    if published == [] then []
    else
      var n := |published| - 1;
      Needed(published[..n], previous, organization, healthy)
      + if NothingToDo(published[n], previous, organization, healthy(n)) then [] else [published[n].id]
  }

  lemma NeededNext(published: seq<Publication>, i: nat, previous: map<string, Record>, organization: string, healthy: nat -> bool)
    requires i < |published|
    ensures published[..i + 1] == published[..i] + [published[i]]
    ensures Needed(published[..i + 1], previous, organization, healthy) == Needed(published[..i], previous, organization, healthy)
            + if NothingToDo(published[i], previous, organization, healthy(i)) then [] else [published[i].id]
  {
    assert published[..i + 1][..i] == published[..i];
  }

  /** An id is needed exactly when one of its publications has something to do. */
  lemma {:induction false} NeededIff(published: seq<Publication>, previous: map<string, Record>, organization: string,
                                     healthy: nat -> bool, id: string)
    ensures id in Needed(published, previous, organization, healthy) <==>
            exists i :: 0 <= i < |published| && published[i].id == id && !NothingToDo(published[i], previous, organization, healthy(i))
  {
    if published != [] {
      var n := |published| - 1;
      var before := published[..n];
      NeededIff(before, previous, organization, healthy, id);
      assert forall i | 0 <= i < n :: before[i] == published[i];
    }
  }

  ghost predicate AllQuiet(published: seq<Publication>, previous: map<string, Record>, organization: string, healthy: nat -> bool) {
    forall i | 0 <= i < |published| :: NothingToDo(published[i], previous, organization, healthy(i))
  }

  /** Of the first n publications, those that have something to do can be imported. */
  ghost predicate AllImportable(published: seq<Publication>, previous: map<string, Record>, organization: string,
                                connection: string -> Connection, healthy: nat -> bool, site: Site, n: nat)
    requires n <= |published|
  {
    forall i: nat | i < n && !NothingToDo(published[i], previous, organization, healthy(i)) ::
      Importable(connection(published[i].id), published[i].id, site)
  }

  lemma {:induction false} ImportableNext(published: seq<Publication>, previous: map<string, Record>, organization: string,
                                          connection: string -> Connection, healthy: nat -> bool, site: Site, i: nat)
    requires i < |published| && AllImportable(published, previous, organization, connection, healthy, site, i)
    ensures NothingToDo(published[i], previous, organization, healthy(i)) || Importable(connection(published[i].id), published[i].id, site)
            <==> AllImportable(published, previous, organization, connection, healthy, site, i + 1)
    ensures AllImportable(published, previous, organization, connection, healthy, site, |published|) ==>
              AllImportable(published, previous, organization, connection, healthy, site, i + 1)
  {
  }

  /** The baseline a provider was given by this run. */
  ghost predicate FreshAt(s: State, id: string, organization: string, connection: string -> Connection, site: Site) {
    && id in s.records && s.records[id] == Baseline(connection(id), organization, site)
    && connection(id).id == id && Publishable(connection(id), site)
  }

  /** A published provider is imported and up to date, or was imported anew by this run. */
  ghost predicate DoneAt(s: State, p: Publication, organization: string, connection: string -> Connection, site: Site) {
    SettledAt(s, p, organization, site) || FreshAt(s, p.id, organization, connection, site)
  }

  ghost predicate AllDone(s: State, published: seq<Publication>, organization: string, connection: string -> Connection, site: Site) {
    forall i | 0 <= i < |published| :: DoneAt(s, published[i], organization, connection, site)
  }

  /** The baselines read at the start are still those of the published providers not yet touched. */
  ghost predicate StillThere(s: State, previous: map<string, Record>, touched: set<string>, site: Site) {
    forall id | id in previous && id !in touched :: id in s.records && s.records[id] == previous[id] && WellFormed(id, previous[id], site)
  }

  /** One mutation keeps what earlier rounds did. */
  lemma KeptByOthers(s: State, t: State, id: string, published: seq<Publication>, previous: map<string, Record>, touched: set<string>,
                     organization: string, connection: string -> Connection, site: Site)
    requires RecordsElsewhere(s, t, {id}) && FreshAt(t, id, organization, connection, site)
    requires AllDone(s, published, organization, connection, site) && StillThere(s, previous, touched, site)
    ensures AllDone(t, published, organization, connection, site) && StillThere(t, previous, touched + {id}, site)
    ensures forall other | FreshAt(s, other, organization, connection, site) :: FreshAt(t, other, organization, connection, site)
  {
    forall j | 0 <= j < |published| ensures DoneAt(t, published[j], organization, connection, site) {
      assert DoneAt(s, published[j], organization, connection, site);
      if published[j].id != id {
        assert t.records[published[j].id] == s.records[published[j].id];
      }
    }
  }

  /** What holds between two rounds of the import loop: the providers in `first` are done, those in
      `touched` were imported anew, and the baselines of the others are as they were read. */
  ghost predicate Round(s0: State, s: State, first: seq<Publication>, ids: set<string>, previous: map<string, Record>, touched: set<string>,
                        organization: string, connection: string -> Connection, site: Site) {
    && touched <= ids && Progress(s0, s, touched, site)
    && AllDone(s, first, organization, connection, site)
    && StillThere(s, previous, previous.Keys - ids + touched, site)
    && forall id | id in touched :: FreshAt(s, id, organization, connection, site)
  }

  lemma RoundSkips(s0: State, s: State, first: seq<Publication>, ids: set<string>, previous: map<string, Record>, touched: set<string>,
                   organization: string, connection: string -> Connection, site: Site, p: Publication, healthy: bool)
    requires Round(s0, s, first, ids, previous, touched, organization, connection, site)
    requires p.id in ids && NothingToDo(p, previous, organization, healthy)
    ensures Round(s0, s, first + [p], ids, previous, touched, organization, connection, site)
  {
    assert DoneAt(s, p, organization, connection, site);
  }

  lemma RoundImports(s0: State, s: State, t: State, first: seq<Publication>, ids: set<string>, previous: map<string, Record>,
                     touched: set<string>, organization: string, connection: string -> Connection, site: Site, p: Publication)
    requires Round(s0, s, first, ids, previous, touched, organization, connection, site)
    requires p.id in ids && Progress(s0, t, touched + {p.id}, site)
    requires RecordsElsewhere(s, t, {p.id}) && FreshAt(t, p.id, organization, connection, site)
    ensures Round(s0, t, first + [p], ids, previous, touched + {p.id}, organization, connection, site)
  {
    var out := previous.Keys - ids;
    KeptByOthers(s, t, p.id, first, previous, out + touched, organization, connection, site);
    assert out + touched + {p.id} == out + (touched + {p.id});
    assert DoneAt(t, p, organization, connection, site);
  }

  /** One round that imports. */
  method ImportRound(runtime: Runtime, p: Publication, organization: string, connection: string -> Connection, ghost s0: State,
                     ghost first: seq<Publication>, ghost ids: set<string>, ghost previous: map<string, Record>, ghost touched: set<string>)
    returns (ok: bool)
    requires Round(s0, runtime.state, first, ids, previous, touched, organization, connection, runtime.site)
    requires p.id in ids && organization != ""
    modifies runtime
    ensures Progress(s0, runtime.state, ids, runtime.site)
    ensures ok ==> Round(s0, runtime.state, first + [p], ids, previous, touched + {p.id}, organization, connection, runtime.site)
    ensures ok ==> Importable(connection(p.id), p.id, runtime.site)
    ensures old(runtime.faults) == [] ==> runtime.faults == []
    ensures old(runtime.faults) == [] && Aligned(s0, runtime.site) ==> (ok <==> Importable(connection(p.id), p.id, runtime.site))
  {
    ghost var before := runtime.state;
    ok := ImportOne(runtime, connection(p.id), p.id, organization, s0, touched);
    ProgressGrows(s0, runtime.state, touched + {p.id}, ids, runtime.site);
    if ok {
      RoundImports(s0, before, runtime.state, first, ids, previous, touched, organization, connection, runtime.site, p);
    }
  }

  /** Imports each published provider that is missing, out of date or not working. `healthy` answers
      the status request: loaded, authenticated and not disabled. None is a failed stage. */
  method ImportMissing(runtime: Runtime, published: seq<Publication>, previous: map<string, Record>, organization: string,
                       connection: string -> Connection, healthy: nat -> bool)
    returns (imported: Option<seq<string>>)
    requires organization != ""
    requires StillThere(runtime.state, previous, previous.Keys - Ids(published), runtime.site)
    modifies runtime
    ensures Progress(old(runtime.state), runtime.state, Ids(published), runtime.site)
    ensures imported.Some? ==> AllDone(runtime.state, published, organization, connection, runtime.site)
    ensures imported.Some? ==> imported.value == Needed(published, previous, organization, healthy)
    ensures AllQuiet(published, previous, organization, healthy) ==> runtime.state == old(runtime.state) && imported == Some([])
    ensures imported.Some? ==> AllImportable(published, previous, organization, connection, healthy, runtime.site, |published|)
    ensures old(runtime.faults) == [] && Aligned(old(runtime.state), runtime.site) ==>
              (imported.Some? <==> AllImportable(published, previous, organization, connection, healthy, runtime.site, |published|))
    ensures old(runtime.faults) == [] ==> runtime.faults == []
  {
    var done: seq<string> := [];
    ghost var s0, ids := runtime.state, Ids(published);
    ghost var touched: set<string> := {};
    ProgressNone(s0, runtime.site);
    for i := 0 to |published|
      invariant done == Needed(published[..i], previous, organization, healthy)
      invariant Round(s0, runtime.state, published[..i], ids, previous, touched, organization, connection, runtime.site)
      invariant AllQuiet(published, previous, organization, healthy) ==> done == [] && runtime.state == s0
      invariant AllImportable(published, previous, organization, connection, healthy, runtime.site, i)
      invariant old(runtime.faults) == [] ==> runtime.faults == []
    {
      var p := published[i];
      assert p.id in ids;
      NeededNext(published, i, previous, organization, healthy);
      ImportableNext(published, previous, organization, connection, healthy, runtime.site, i);
      if NothingToDo(p, previous, organization, healthy(i)) {
        RoundSkips(s0, runtime.state, published[..i], ids, previous, touched, organization, connection, runtime.site, p, healthy(i));
      } else {
        var ok := ImportRound(runtime, p, organization, connection, s0, published[..i], ids, previous, touched);
        if !ok { return None; }
        touched := touched + {p.id};
        done := done + [p.id];
      }
    }
    assert published[..|published|] == published;
    ProgressGrows(s0, runtime.state, touched, ids, runtime.site);
    imported := Some(done);
  }

  /** The reconciliation part of `synchronizeCloudRuntime`; None is any failed call. From any state at
      all, a run that completes leaves exactly the published providers as well-formed imports, and
      even one that does not complete leaves every other provider alone. */
  method Synchronize(runtime: Runtime, published: seq<Publication>, organization: string,
                     connection: string -> Connection, healthy: nat -> bool)
    returns (r: Option<SyncResult>)
    requires organization != ""
    modifies runtime
    ensures Progress(old(runtime.state), runtime.state, WellFormedIds(old(runtime.state), runtime.site) + Ids(published), runtime.site)
    ensures r.Some? ==> WellFormedIds(runtime.state, runtime.site) == Ids(published)
    ensures r.Some? ==> AllDone(runtime.state, published, organization, connection, runtime.site)
    ensures r.Some? ==> ToSet(r.value.removed) == WellFormedIds(old(runtime.state), runtime.site) - Ids(published)
    ensures r.Some? ==> r.value.imported == Needed(published, Baselines(old(runtime.state), runtime.site), organization, healthy)
    ensures old(runtime.faults) == [] && Aligned(old(runtime.state), runtime.site) ==>
              (r.Some? <==> AllImportable(published, Baselines(old(runtime.state), runtime.site), organization, connection, healthy,
                                          runtime.site, |published|))
  {
    ghost var s0, all := runtime.state, WellFormedIds(runtime.state, runtime.site) + Ids(published);
    var previous := Baselines(runtime.state, runtime.site);
    ProgressNone(s0, runtime.site);
    ProgressGrows(s0, s0, {}, all, runtime.site);
    if published != [] || previous != map[] {
      var preflight := runtime.TouchStage(HostAuthority, []);
      if preflight.Err? { return None; }
    }
    var stale := previous.Keys - Ids(published);
    var removed := RemoveStale(runtime, stale);
    ghost var s1 := runtime.state;
    ProgressGrows(s0, s1, stale, all, runtime.site);
    if removed.None? { return None; }
    assert StillThere(s1, previous, previous.Keys - Ids(published), runtime.site);
    var imported := ImportMissing(runtime, published, previous, organization, connection, healthy);
    ProgressStep(s0, s1, runtime.state, all, Ids(published), runtime.site);
    assert all + Ids(published) == all;
    if imported.None? { return None; }
    AllDoneWellFormed(runtime.state, published, organization, connection, runtime.site);
    ExactlyPublished(s0, s1, runtime.state, published, runtime.site);
    r := Some(SyncResult(removed.value, imported.value));
  }

  lemma AllDoneWellFormed(s: State, published: seq<Publication>, organization: string, connection: string -> Connection, site: Site)
    requires AllDone(s, published, organization, connection, site)
    ensures forall i | 0 <= i < |published| :: published[i].id in WellFormedIds(s, site)
  {
    forall i | 0 <= i < |published| ensures published[i].id in WellFormedIds(s, site) {
      assert DoneAt(s, published[i], organization, connection, site);
    }
  }

  /** After a completed run over matching connections, the next run with the same listing and healthy
      statuses has nothing to import and nothing to remove. */
  lemma NextRunIsQuiet(s: State, published: seq<Publication>, organization: string, connection: string -> Connection,
                       healthy: nat -> bool, site: Site)
    requires AllDone(s, published, organization, connection, site) && WellFormedIds(s, site) == Ids(published)
    requires forall i | 0 <= i < |published| :: Matches(connection(published[i].id), published[i]) && healthy(i)
    ensures AllQuiet(published, Baselines(s, site), organization, healthy)
    ensures Baselines(s, site).Keys - Ids(published) == {}
  {
    AllDoneWellFormed(s, published, organization, connection, site);
    forall i | 0 <= i < |published| ensures NothingToDo(published[i], Baselines(s, site), organization, healthy(i)) {
      assert DoneAt(s, published[i], organization, connection, site);
      assert published[i].id in WellFormedIds(s, site);
      if FreshAt(s, published[i].id, organization, connection, site) {
        FreshBaselineInSync(connection(published[i].id), published[i], organization, site);
      }
    }
  }

  lemma ExactlyPublished(s0: State, s1: State, s2: State, published: seq<Publication>, site: Site)
    requires RecordsElsewhere(s0, s1, WellFormedIds(s0, site) - Ids(published))
    requires forall id | id in WellFormedIds(s0, site) - Ids(published) :: id !in s1.records
    requires RecordsElsewhere(s1, s2, Ids(published))
    requires forall i | 0 <= i < |published| :: published[i].id in WellFormedIds(s2, site)
    ensures WellFormedIds(s2, site) == Ids(published)
  {
  }

  /** `removeImportedCloudRuntimeProviders`, after sign-out. */
  method RemoveImported(runtime: Runtime) returns (removed: Option<seq<string>>)
    modifies runtime
    ensures Progress(old(runtime.state), runtime.state, WellFormedIds(old(runtime.state), runtime.site), runtime.site)
    ensures removed.Some? ==> WellFormedIds(runtime.state, runtime.site) == {}
                              && ToSet(removed.value) == WellFormedIds(old(runtime.state), runtime.site)
  {
    removed := RemoveStale(runtime, WellFormedIds(runtime.state, runtime.site));
  }
}
