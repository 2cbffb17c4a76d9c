/**
 Which model a session ends up with after organization sync: the tail of `synchronizeCloudRuntime`
 and `recommendedModel` (apps/cli/src/cloud-runtime-sync.ts, apps/cli/src/managed-points.ts). This is
 the signed-in path; the early returns before an organization is resolved select nothing.

 The empty string stands for an absent explicit or configured model, as JavaScript's falsiness does.
 */
module ModelSelection {
  import opened Common

  /** A published provider; `router` marks the one whose models are paid for in points. */
  datatype Provider = Provider(id: string, router: bool, models: seq<string>)

  datatype RuntimeStatus = RuntimeStatus(loaded: bool, authenticated: bool, disabled: bool, enabledModels: set<string>)

  datatype Runtime = Runtime(statuses: map<string, RuntimeStatus>, selectable: set<string>)

  function ModelId(provider: Provider, model: string): string { provider.id + "/" + model }

  /** `model.split("/")[0]`. */
  function ProviderPart(model: string): string { model[..IndexOf(model, '/')] }

  /** Ids of publications are row keys: distinct, and free of the separator. */
  ghost predicate WellKeyed(providers: seq<Provider>) {
    && (forall i | 0 <= i < |providers| :: '/' !in providers[i].id)
    && (forall i, j | 0 <= i < j < |providers| :: providers[i].id != providers[j].id)
  }

  /** `modelFitsAvailablePoints`. */
  predicate Fits(provider: Provider, points: Option<int>) {
    !provider.router || (points.Some? && points.value > 0)
  }

  predicate Ready(provider: Provider, runtime: Runtime) {
    provider.id in runtime.statuses
    && var status := runtime.statuses[provider.id];
       status.loaded && status.authenticated && !status.disabled
  }

  /** Published, loaded, authenticated, enabled, selectable and affordable. */
  predicate Usable(provider: Provider, model: string, runtime: Runtime, points: Option<int>) {
    && model in provider.models
    && Ready(provider, runtime)
    && ModelId(provider, model) in runtime.selectable
    && model in runtime.statuses[provider.id].enabledModels
    && Fits(provider, points)
  }

  predicate Publishes(provider: Provider, id: string) {
    exists j | 0 <= j < |provider.models| :: ModelId(provider, provider.models[j]) == id
  }

  predicate Published(providers: seq<Provider>, id: string) {
    exists i | 0 <= i < |providers| :: Publishes(providers[i], id)
  }

  ghost predicate NoneUsable(providers: seq<Provider>, runtime: Runtime, points: Option<int>) {
    forall i, j | 0 <= i < |providers| && 0 <= j < |providers[i].models| ::
      !Usable(providers[i], providers[i].models[j], runtime, points)
  }

  /** The first usable model in publication order. */
  ghost predicate FirstUsable(id: string, i: nat, j: nat, providers: seq<Provider>, runtime: Runtime, points: Option<int>) {
    && i < |providers| && j < |providers[i].models|
    && id == ModelId(providers[i], providers[i].models[j])
    && Usable(providers[i], providers[i].models[j], runtime, points)
    && NoneUsable(providers[..i], runtime, points)
    && forall k | 0 <= k < j :: !Usable(providers[i], providers[i].models[k], runtime, points)
  }

  method RecommendedModel(providers: seq<Provider>, runtime: Runtime, points: Option<int>) returns (r: Option<string>)
    ensures r.None? <==> NoneUsable(providers, runtime, points)
    ensures r.Some? ==> exists i: nat, j: nat :: FirstUsable(r.value, i, j, providers, runtime, points)
  {
    for i := 0 to |providers|
      invariant NoneUsable(providers[..i], runtime, points)
    {
      var provider := providers[i];
      if Ready(provider, runtime) {
        for j := 0 to |provider.models|
          invariant forall k | 0 <= k < j :: !Usable(provider, provider.models[k], runtime, points)
        {
          var model := provider.models[j];
          if ModelId(provider, model) in runtime.selectable && model in runtime.statuses[provider.id].enabledModels
             && Fits(provider, points) {
            assert FirstUsable(ModelId(provider, model), i, j, providers, runtime, points);
            return Some(ModelId(provider, model));
          }
        }
      }
      NoneUsableNext(providers, i, runtime, points);
    }
    assert providers[..|providers|] == providers;
    return None;
  }

  lemma NoneUsableNext(providers: seq<Provider>, i: nat, runtime: Runtime, points: Option<int>)
    requires i < |providers| && NoneUsable(providers[..i], runtime, points)
    requires forall k | 0 <= k < |providers[i].models| :: !Usable(providers[i], providers[i].models[k], runtime, points)
    ensures NoneUsable(providers[..i + 1], runtime, points)
  {
    var next := providers[..i + 1];
    forall a, b | 0 <= a < |next| && 0 <= b < |next[a].models| ensures !Usable(next[a], next[a].models[b], runtime, points) {
      if a < i { assert providers[..i][a] == next[a]; }
    }
  }

  /** `providers.find(...)` by published model id. */
  function FindPublisher(providers: seq<Provider>, id: string): (r: Option<Provider>)
    ensures r.Some? <==> Published(providers, id)
    ensures r.Some? ==> r.value in providers && Publishes(r.value, id)
  {
    if providers == [] then None
    else if Publishes(providers[0], id) then Some(providers[0])
    else
      var rest := FindPublisher(providers[1..], id);
      assert Published(providers, id) <==> Published(providers[1..], id) by {
        if i :| 0 <= i < |providers| && Publishes(providers[i], id) { assert providers[1..][i - 1] == providers[i]; }
      }
      rest
  }

  datatype Refusal = NeedsPoints | NothingUsable | StaleWithoutReplacement

  /** `model` is `options.model` afterwards. */
  datatype Outcome = Refused(reason: Refusal) | Resolved(model: string, autoModel: Option<string>)

  /** What the session will run: the explicit model, else the automatic one, else the workspace's. */
  function Effective(outcome: Outcome, configured: string): string
    requires outcome.Resolved?
  {
    if outcome.model != "" then outcome.model
    else if outcome.autoModel.Some? then outcome.autoModel.value
    else configured
  }

  /** A managed model its organization no longer publishes. */
  predicate Stale(model: string, providers: seq<Provider>, managed: string -> bool) {
    model != "" && managed(ProviderPart(model)) && !Published(providers, model)
  }

  /** The caller's choice: the explicit model, else the workspace's. */
  function Choice(explicitModel: string, configured: string): string {
    if explicitModel != "" then explicitModel else configured
  }

  /** The choice is a model of some provider that is not managed by an organization. */
  predicate NonCloud(choice: string, managed: string -> bool) { choice != "" && !managed(ProviderPart(choice)) }

  /** The choice is published by a provider the points do not cover; or nothing is usable, the choice is no
      model from elsewhere, and the points are used up. */
  ghost predicate PointsMissing(choice: string, providers: seq<Provider>, runtime: Runtime, points: Option<int>, managed: string -> bool) {
    || (exists p | p in providers :: Publishes(p, choice) && !Fits(p, points))
    || (NoneUsable(providers, runtime, points) && !NonCloud(choice, managed) && points.Some? && points.value <= 0)
  }

  /** Models are published and none is usable, and the choice is no model from elsewhere. */
  ghost predicate Disconnected(choice: string, providers: seq<Provider>, runtime: Runtime, points: Option<int>, managed: string -> bool) {
    && (exists i :: 0 <= i < |providers| && providers[i].models != [])
    && NoneUsable(providers, runtime, points) && !NonCloud(choice, managed)
  }

  method ResolveModel(providers: seq<Provider>, runtime: Runtime, points: Option<int>, explicitModel: string, configured: string,
                      managed: string -> bool)
    returns (r: Outcome)
    requires WellKeyed(providers)
    requires points.Some? <==> exists i :: 0 <= i < |providers| && providers[i].router && providers[i].models != []
    // Safety: never an unpublished managed model, never an unaffordable one.
    ensures r.Resolved? ==> !Stale(Effective(r, configured), providers, managed)
    ensures r.Resolved? ==> forall p | p in providers && Publishes(p, Effective(r, configured)) :: Fits(p, points)
    // An automatic model is the first usable one, and appears only in place of nothing or of a stale choice.
    ensures r.Resolved? && r.autoModel.Some? ==> exists i: nat, j: nat :: FirstUsable(r.autoModel.value, i, j, providers, runtime, points)
    ensures r.Resolved? && r.autoModel.Some? ==>
              (explicitModel == "" || Stale(explicitModel, providers, managed))
              && (configured == "" || Stale(configured, providers, managed) || Stale(explicitModel, providers, managed))
    // The caller's choice survives unless it is stale, and then there is a replacement.
    ensures r.Resolved? ==> r.model == if Stale(explicitModel, providers, managed) then "" else explicitModel
    ensures r.Resolved? && Stale(explicitModel, providers, managed) ==> r.autoModel.Some?
    ensures r.Resolved? && explicitModel == "" && Stale(configured, providers, managed) ==> r.autoModel.Some?
    // It refuses for a reason it names, and only then.
    ensures r == Refused(NeedsPoints) <==> PointsMissing(Choice(explicitModel, configured), providers, runtime, points, managed)
    ensures r == Refused(NothingUsable) <==>
              && !PointsMissing(Choice(explicitModel, configured), providers, runtime, points, managed)
              && Disconnected(Choice(explicitModel, configured), providers, runtime, points, managed)
    ensures r == Refused(StaleWithoutReplacement) <==>
              && !PointsMissing(Choice(explicitModel, configured), providers, runtime, points, managed)
              && !Disconnected(Choice(explicitModel, configured), providers, runtime, points, managed)
              && NoneUsable(providers, runtime, points)
              && (Stale(explicitModel, providers, managed) || Stale(configured, providers, managed))
    ensures r == Refused(NeedsPoints) ==> points.Some? && points.value <= 0
    ensures !NoneUsable(providers, runtime, points) && explicitModel == "" && (configured == "" || Stale(configured, providers, managed)) ==>
              r.Resolved? && r.autoModel.Some?
  {
    var preferred := RecommendedModel(providers, runtime, points);
    var explicitStale := Stale(explicitModel, providers, managed);
    var configuredStale := Stale(configured, providers, managed);
    var selected := Choice(explicitModel, configured);
    var selectedProvider := FindPublisher(providers, selected);
    var selectedNonCloud := NonCloud(selected, managed);
    OnePublisher(providers, selected);
    if (selectedProvider.Some? && !Fits(selectedProvider.value, points))
       || (preferred.None? && !selectedNonCloud && points.Some? && points.value <= 0) {
      if selectedProvider.Some? && !Fits(selectedProvider.value, points) {
        assert selectedProvider.value.models != [];
      }
      return Refused(NeedsPoints);
    }
    if (exists i :: 0 <= i < |providers| && providers[i].models != []) && preferred.None? && !selectedNonCloud {
      return Refused(NothingUsable);
    }
    if (explicitStale || configuredStale) && preferred.None? { return Refused(StaleWithoutReplacement); }
    var model := if explicitStale then "" else explicitModel;
    var autoModel := if model == "" && (configured == "" || configuredStale || explicitStale) then preferred else None;
    r := Resolved(model, autoModel);
    if autoModel.Some? {
      UsableIsPublished(autoModel.value, providers, runtime, points);
    } else if Effective(r, configured) != "" {
      assert Effective(r, configured) == selected;
    } else {
      NothingPublishesEmpty(providers);
    }
  }

  lemma NothingPublishesEmpty(providers: seq<Provider>)
    ensures forall p | p in providers :: !Publishes(p, "")
  {
    forall p | p in providers ensures !Publishes(p, "") {
      forall j | 0 <= j < |p.models| ensures ModelId(p, p.models[j]) != "" {
        assert |ModelId(p, p.models[j])| > 0;
      }
    }
  }

  /** A model id names its provider. */
  lemma ProviderPartOf(p: Provider, model: string)
    requires '/' !in p.id
    ensures ProviderPart(ModelId(p, model)) == p.id
  {
    var id := ModelId(p, model);
    assert id[..|p.id|] == p.id && id[|p.id|] == '/';
    IndexOfIs(id, '/', |p.id|);
  }

  lemma OnePublisher(providers: seq<Provider>, id: string)
    requires WellKeyed(providers)
    ensures forall p, q | p in providers && q in providers && Publishes(p, id) && Publishes(q, id) :: p == q
  {
    forall p, q | p in providers && q in providers && Publishes(p, id) && Publishes(q, id) ensures p == q {
      var a :| 0 <= a < |p.models| && ModelId(p, p.models[a]) == id;
      var b :| 0 <= b < |q.models| && ModelId(q, q.models[b]) == id;
      ProviderPartOf(p, p.models[a]);
      ProviderPartOf(q, q.models[b]);
    }
  }

  lemma UsableIsPublished(id: string, providers: seq<Provider>, runtime: Runtime, points: Option<int>)
    requires WellKeyed(providers)
    requires exists i: nat, j: nat :: FirstUsable(id, i, j, providers, runtime, points)
    ensures Published(providers, id) && id != ""
    ensures forall p | p in providers && Publishes(p, id) :: Fits(p, points)
  {
    var i: nat, j: nat :| FirstUsable(id, i, j, providers, runtime, points);
    assert Publishes(providers[i], id);
    OnePublisher(providers, id);
    NothingPublishesEmpty(providers);
  }
}
