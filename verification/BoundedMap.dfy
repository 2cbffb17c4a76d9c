/**
 The bounded-concurrency mapper (`mapWithConcurrency` of apps/server/src/claude-plugin-bundle.ts):
 workers share one index and one result array, and give way to each other at every awaited call. A
 schedule says which worker's call comes back next; it ranges over all interleavings. What the call
 on each item comes to is given as `calls`, so the sequential map is its reference.
 */
module BoundedMap {
  import opened Common

  datatype Worker = Busy(item: nat) | Done | Failed(item: nat, error: string)

  /** `rejected` is the first error, which rejects the whole map. */
  datatype State<R> = State(index: nat, workers: seq<Worker>, results: seq<Option<R>>, rejected: Option<string>)

  function Min(a: nat, b: nat): nat { if a < b then a else b }

  function AllStarted(count: nat): seq<Worker> { seq(count, w requires 0 <= w < count => Busy(w)) }

  /** Every worker has run up to its first call. */
  function Started<R>(calls: seq<Result<R, string>>, limit: nat): (s: State<R>)
    ensures Valid(calls, s)
  {
    var count := Min(limit, |calls|);
    State(count, AllStarted(count), seq(|calls|, _ => None), None)
  }

  /** The call of a busy worker comes back, and the worker goes on to its next call or its end. */
  function Step<R>(calls: seq<Result<R, string>>, s: State<R>, w: nat): State<R>
    requires Valid(calls, s) && w < |s.workers| && s.workers[w].Busy?
  {
    var item := s.workers[w].item;
    match calls[item]
    case Err(error) =>
      s.(workers := s.workers[w := Failed(item, error)],
         rejected := if s.rejected.None? then Some(error) else s.rejected)
    case Ok(value) =>
      if s.index < |calls| then
        State(s.index + 1, s.workers[w := Busy(s.index)], s.results[item := Some(value)], s.rejected)
      else State(s.index, s.workers[w := Done], s.results[item := Some(value)], s.rejected)
  }

  // ---- Invariant ------------------------------------------------------------------------------------

  /** The item is with the worker: in flight, or failed there. */
  predicate With(worker: Worker, item: nat) {
    match worker
    case Busy(i) => i == item
    case Failed(i, _) => i == item
    case Done => false
  }

  ghost predicate Held(workers: seq<Worker>, item: nat) { exists w :: 0 <= w < |workers| && With(workers[w], item) }

  ghost predicate Valid<R>(calls: seq<Result<R, string>>, s: State<R>) {
    && s.index <= |calls| == |s.results|
    && (forall i | s.index <= i < |calls| :: s.results[i].None?)
    && (forall w | 0 <= w < |s.workers| :: WorkerOk(calls, s, s.workers[w]))
    && (forall v, w, i: nat | 0 <= v < w < |s.workers| && With(s.workers[v], i) :: !With(s.workers[w], i))
  }

  /** A worker's item was claimed and has no result; a worker stops only when no item is left. */
  predicate WorkerOk<R>(calls: seq<Result<R, string>>, s: State<R>, worker: Worker)
    requires s.index <= |calls| == |s.results|
  {
    match worker
    case Busy(i) => i < s.index && s.results[i].None?
    case Failed(i, error) => i < s.index && s.results[i].None? && calls[i] == Err(error)
    case Done => s.index == |calls|
  }

  /** Every claimed item has its own call's result or is with exactly one worker; no other has a result. */
  ghost predicate Accounted<R>(calls: seq<Result<R, string>>, s: State<R>)
    requires Valid(calls, s)
  {
    && (forall i | 0 <= i < s.index :: s.results[i].None? ==> Held(s.workers, i))
    && (forall i | 0 <= i < |calls| :: s.results[i].Some? ==> i < s.index && calls[i] == Ok(s.results[i].value))
  }

  /** The map is rejected with the error of one of its calls, as soon as one has failed. */
  predicate RejectsOwn<R>(s: State<R>) {
    && (s.rejected.Some? ==> exists w | 0 <= w < |s.workers| :: s.workers[w].Failed? && s.workers[w].error == s.rejected.value)
    && (s.rejected.None? ==> forall w | 0 <= w < |s.workers| :: !s.workers[w].Failed?)
  }

  ghost predicate Inv<R>(calls: seq<Result<R, string>>, limit: nat, s: State<R>) {
    && Valid(calls, s) && Accounted(calls, s) && RejectsOwn(s)
    && |s.workers| == Min(limit, |calls|)
  }

  lemma StartedInv<R>(calls: seq<Result<R, string>>, limit: nat)
    ensures Inv(calls, limit, Started(calls, limit))
  {
    var s := Started(calls, limit);
    forall i | 0 <= i < s.index ensures Held(s.workers, i) {
      assert With(s.workers[i], i);
    }
  }

  lemma StepValid<R>(calls: seq<Result<R, string>>, s: State<R>, w: nat)
    requires Valid(calls, s) && w < |s.workers| && s.workers[w].Busy?
    ensures Valid(calls, Step(calls, s, w))
  {
    var next, item := Step(calls, s, w), s.workers[w].item;
    assert With(s.workers[w], item);
    forall v | 0 <= v < |next.workers| ensures WorkerOk(calls, next, next.workers[v]) {
      assert WorkerOk(calls, s, s.workers[v]) && WorkerOk(calls, s, s.workers[w]);
      if v != w && !s.workers[v].Done? {
        assert With(s.workers[v], s.workers[v].item);
      }
    }
    forall u, v, i: nat | 0 <= u < v < |next.workers| && With(next.workers[u], i) ensures !With(next.workers[v], i) {
      assert WorkerOk(calls, s, s.workers[u]) && WorkerOk(calls, s, s.workers[v]);
    }
  }

  lemma StepAccounted<R>(calls: seq<Result<R, string>>, s: State<R>, w: nat)
    requires Valid(calls, s) && Accounted(calls, s) && w < |s.workers| && s.workers[w].Busy?
    requires Valid(calls, Step(calls, s, w))
    ensures Accounted(calls, Step(calls, s, w))
  {
    var next, item := Step(calls, s, w), s.workers[w].item;
    assert WorkerOk(calls, s, s.workers[w]);
    forall i | 0 <= i < next.index && next.results[i].None?
      ensures Held(next.workers, i)
    {
      if i == s.index || i == item {
        assert With(next.workers[w], i);
      } else {
        var v :| 0 <= v < |s.workers| && With(s.workers[v], i);
        assert With(next.workers[v], i);
      }
    }
  }

  lemma StepRejects<R>(calls: seq<Result<R, string>>, s: State<R>, w: nat)
    requires Valid(calls, s) && RejectsOwn(s) && w < |s.workers| && s.workers[w].Busy?
    ensures RejectsOwn(Step(calls, s, w))
  {
    var next := Step(calls, s, w);
    if s.rejected.Some? {
      var v :| 0 <= v < |s.workers| && s.workers[v].Failed? && s.workers[v].error == s.rejected.value;
      assert next.workers[v] == s.workers[v];
    } else if next.rejected.Some? {
      assert next.workers[w].Failed?;
    }
  }

  lemma StepInv<R>(calls: seq<Result<R, string>>, limit: nat, s: State<R>, w: nat)
    requires Inv(calls, limit, s) && w < |s.workers| && s.workers[w].Busy?
    ensures Inv(calls, limit, Step(calls, s, w))
  {
    StepValid(calls, s, w);
    StepAccounted(calls, s, w);
    StepRejects(calls, s, w);
  }

  // ---- Progress -------------------------------------------------------------------------------------

  /** The calls in flight among the first n workers. */
  function InFlight(workers: seq<Worker>, n: nat): (count: nat)
    requires n <= |workers|
    ensures count <= n
  {
    if n == 0 then 0 else InFlight(workers, n - 1) + (if workers[n - 1].Busy? then 1 else 0)
  }

  /** What is left to do: items not claimed yet, and calls in flight. */
  function Left<R>(n: nat, s: State<R>): nat
    requires s.index <= n
  {
    n - s.index + InFlight(s.workers, |s.workers|)
  }

  lemma {:induction false} InFlightAfter(workers: seq<Worker>, w: nat, worker: Worker, n: nat)
    requires w < |workers| && workers[w].Busy? && n <= |workers|
    ensures InFlight(workers[w := worker], n) == InFlight(workers, n) - (if worker.Busy? || n <= w then 0 else 1)
  {
    if n > 0 {
      InFlightAfter(workers, w, worker, n - 1);
    }
  }

  /** Every step brings the map one call nearer to its end, in every interleaving. */
  lemma StepProgresses<R>(calls: seq<Result<R, string>>, s: State<R>, w: nat)
    requires Valid(calls, s) && w < |s.workers| && s.workers[w].Busy?
    ensures Left(|calls|, Step(calls, s, w)) == Left(|calls|, s) - 1
  {
    InFlightAfter(s.workers, w, Step(calls, s, w).workers[w], |s.workers|);
  }

  lemma {:induction false} AllBusy(workers: seq<Worker>, n: nat)
    requires n <= |workers| && forall w | 0 <= w < |workers| :: workers[w].Busy?
    ensures InFlight(workers, n) == n
  {
    if n > 0 {
      AllBusy(workers, n - 1);
    }
  }

  lemma {:induction false} NoneBusy(workers: seq<Worker>, n: nat)
    requires n <= |workers| && forall w | 0 <= w < |workers| :: !workers[w].Busy?
    ensures InFlight(workers, n) == 0
  {
    if n > 0 {
      NoneBusy(workers, n - 1);
    }
  }

  // ---- Runs -------------------------------------------------------------------------------------------

  /** Each scheduled worker has a call in flight when its turn comes. */
  ghost predicate Possible<R>(calls: seq<Result<R, string>>, s: State<R>, schedule: seq<nat>)
    requires Valid(calls, s)
    decreases |schedule|
  {
    schedule == [] ||
    (schedule[0] < |s.workers| && s.workers[schedule[0]].Busy? &&
     (StepValid(calls, s, schedule[0]); Possible(calls, Step(calls, s, schedule[0]), schedule[1..])))
  }

  ghost function Run<R>(calls: seq<Result<R, string>>, s: State<R>, schedule: seq<nat>): State<R>
    requires Valid(calls, s) && Possible(calls, s, schedule)
    decreases |schedule|
  {
    if schedule == [] then s
    else
      StepValid(calls, s, schedule[0]);
      Run(calls, Step(calls, s, schedule[0]), schedule[1..])
  }

  lemma {:induction false} RunInv<R>(calls: seq<Result<R, string>>, limit: nat, s: State<R>, schedule: seq<nat>)
    requires Inv(calls, limit, s) && Possible(calls, s, schedule)
    ensures Inv(calls, limit, Run(calls, s, schedule))
    ensures Left(|calls|, Run(calls, s, schedule)) == Left(|calls|, s) - |schedule|
    decreases |schedule|
  {
    if schedule != [] {
      StepInv(calls, limit, s, schedule[0]);
      StepProgresses(calls, s, schedule[0]);
      RunInv(calls, limit, Step(calls, s, schedule[0]), schedule[1..]);
    }
  }

  /** No call is in flight any more. */
  predicate Finished<R>(s: State<R>) { forall w | 0 <= w < |s.workers| :: !s.workers[w].Busy? }

  /** The results of the sequential map. */
  ghost predicate SequentialMap<R>(calls: seq<Result<R, string>>, results: seq<Option<R>>) {
    |results| == |calls| && forall i | 0 <= i < |calls| :: calls[i].Ok? && results[i] == Some(calls[i].value)
  }

  lemma StartedLeft<R>(calls: seq<Result<R, string>>, limit: nat)
    ensures Left(|calls|, Started(calls, limit)) == |calls|
  {
    AllBusy(AllStarted(Min(limit, |calls|)), Min(limit, |calls|));
  }

  lemma FinishedMeansClaimed<R>(calls: seq<Result<R, string>>, limit: nat, s: State<R>)
    requires Inv(calls, limit, s) && Finished(s) && s.rejected.None? && (limit >= 1 || calls == [])
    ensures s.index == |calls| && Left(|calls|, s) == 0
  {
    NoneBusy(s.workers, |s.workers|);
    if calls != [] {
      assert WorkerOk(calls, s, s.workers[0]);
    }
  }

  /** Every interleaving ends, after at most one step per item; as long as nothing has failed and a
      worker was started, it ends with every item claimed. */
  lemma {:induction false} EveryRunEnds<R>(calls: seq<Result<R, string>>, limit: nat, schedule: seq<nat>, s: State<R>)
    requires Possible(calls, Started(calls, limit), schedule) && s == Run(calls, Started(calls, limit), schedule)
    ensures |schedule| <= |calls|
    ensures Finished(s) && s.rejected.None? && limit >= 1 ==> s.index == |calls| == |schedule|
  {
    StartedInv(calls, limit);
    StartedLeft(calls, limit);
    RunInv(calls, limit, Started(calls, limit), schedule);
    if Finished(s) && s.rejected.None? && limit >= 1 {
      FinishedMeansClaimed(calls, limit, s);
    }
  }

  /** The map resolves to the sequential map exactly when every call succeeds and, unless there is
      nothing to do, a worker is started: with a limit of zero it resolves to a list of holes. */
  lemma ResolvesToTheMapIff<R>(calls: seq<Result<R, string>>, limit: nat, schedule: seq<nat>, s: State<R>)
    requires Possible(calls, Started(calls, limit), schedule) && s == Run(calls, Started(calls, limit), schedule)
    requires Finished(s)
    ensures s.rejected.None? && SequentialMap(calls, s.results)
            <==> (forall i | 0 <= i < |calls| :: calls[i].Ok?) && (limit >= 1 || calls == [])
  {
    StartedInv(calls, limit);
    RunInv(calls, limit, Started(calls, limit), schedule);
    if (forall i | 0 <= i < |calls| :: calls[i].Ok?) && (limit >= 1 || calls == []) {
      forall w | 0 <= w < |s.workers| ensures s.workers[w].Done? {
        assert WorkerOk(calls, s, s.workers[w]);
      }
      assert s.rejected.None?;
      FinishedMeansClaimed(calls, limit, s);
      forall i | 0 <= i < |calls| ensures s.results[i] == Some(calls[i].value) {
        assert !Held(s.workers, i);
      }
    } else if limit == 0 && calls != [] {
      assert schedule == [];
      assert s.results[0].None?;
    }
  }

  /** A rejected map was rejected with the error of one of its calls. */
  lemma RejectsWithOwnError<R>(calls: seq<Result<R, string>>, limit: nat, schedule: seq<nat>, s: State<R>)
    requires Possible(calls, Started(calls, limit), schedule) && s == Run(calls, Started(calls, limit), schedule)
    ensures s.rejected.Some? ==> Err(s.rejected.value) in calls
  {
    StartedInv(calls, limit);
    RunInv(calls, limit, Started(calls, limit), schedule);
    if s.rejected.Some? {
      var w :| 0 <= w < |s.workers| && s.workers[w].Failed? && s.workers[w].error == s.rejected.value;
      assert WorkerOk(calls, s, s.workers[w]);
      assert calls[s.workers[w].item] == Err(s.rejected.value);
    }
  }

  // ---- The mapper -------------------------------------------------------------------------------------

  /** The variables the workers share, and the workers. */
  class Mapper<R> {
    const calls: seq<Result<R, string>>
    var index: nat
    var workers: seq<Worker>
    var results: array<Option<R>>
    var rejected: Option<string>

    ghost function View(): State<R>
      reads this, results
    {
      State(index, workers, results[..], rejected)
    }

    /** Starts the workers one after the other; each claims its first item. */
    constructor (calls: seq<Result<R, string>>, limit: nat)
      ensures this.calls == calls && fresh(results) && View() == Started(calls, limit) && Inv(calls, limit, View())
    {
      this.calls := calls;
      index, workers, rejected := 0, [], None;
      results := new Option<R>[|calls|](_ => None);
      new;
      var count := Min(limit, |calls|);
      while |workers| < count
        invariant |workers| == index <= count && workers == AllStarted(index)
        invariant fresh(results) && results.Length == |calls| && results[..] == seq(|calls|, _ => None)
        invariant this.calls == calls && rejected == None
      {
        var current := index;
        index := index + 1;
        workers := workers + [Busy(current)];
      }
      StartedInv(calls, limit);
    }

    /** The call of worker w comes back. */
    method Resume(w: nat, ghost limit: nat)
      requires Inv(calls, limit, View()) && w < |workers| && workers[w].Busy?
      modifies this, results
      ensures results == old(results) && View() == Step(calls, old(View()), w) && Inv(calls, limit, View())
    {
      StepInv(calls, limit, View(), w);
      assert WorkerOk(calls, View(), workers[w]);
      var item := workers[w].item;
      match calls[item] {
        case Err(error) =>
          workers := workers[w := Failed(item, error)];
          if rejected.None? { rejected := Some(error); }
        case Ok(value) =>
          results[item] := Some(value);
          if index < |calls| {
            var current := index;
            index := index + 1;
            workers := workers[w := Busy(current)];
          } else {
            workers := workers[w := Done];
          }
      }
    }

    /** Lets the calls come back in the order of the schedule. */
    method RunAll(schedule: seq<nat>, ghost limit: nat)
      requires Inv(calls, limit, View()) && Possible(calls, View(), schedule)
      modifies this, results
      ensures results == old(results) && View() == Run(calls, old(View()), schedule) && Inv(calls, limit, View())
    {
      for k := 0 to |schedule|
        invariant results == old(results) && Inv(calls, limit, View()) && Possible(calls, View(), schedule[k..])
        invariant Run(calls, View(), schedule[k..]) == Run(calls, old(View()), schedule)
      {
        assert schedule[k..][0] == schedule[k] && schedule[k..][1..] == schedule[k + 1..];
        Resume(schedule[k], limit);
      }
    }
  }
}
