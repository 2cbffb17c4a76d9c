/**
 The request multiplexer over a debugger WebSocket (evals/runner/cdp.ts, `connect`): requests carry
 ascending ids, replies arrive in any order, and every request can also end by its timer, by a
 failing send, or with the socket. Timers and socket events are the environment's moves; a timer that
 was cleared does not fire, and a socket opens at most once.
 */
module Cdp {

  datatype Reason = CallFailed(message: string) | CallTimedOut | SendFailed | SocketFailed | SocketClosed

  datatype Settlement = Resolved(value: string) | Rejected(reason: Reason)

  /** How one request ended. */
  datatype Entry = Entry(id: int, how: Settlement)

  datatype Connected = Opened | ConnectTimedOut | ConnectFailed(reason: Reason)

  datatype Event =
    | Open | ConnectTimeout | Send(accepted: bool) | Message(id: int, answer: Settlement) | SendTimeout(id: int)
    | Error | Close

  /** Which of the two time limits are above zero. */
  datatype Limits = Limits(connect: bool, send: bool)

  /** `connects` and `log` are the settlements of the connection and of its requests so far. */
  datatype State = State(
    nextId: nat, pending: set<int>, timers: set<int>, isOpen: bool, settled: bool, connectTimer: bool,
    connects: seq<Connected>, log: seq<Entry>)

  function Initial(limits: Limits): State {
    State(1, {}, {}, false, false, limits.connect, [], [])
  }

  /** The moves the environment and the client have. */
  predicate Enabled(s: State, e: Event) {
    match e
    case Open => !s.isOpen
    case ConnectTimeout => s.connectTimer
    case Send(_) => s.isOpen
    case SendTimeout(id) => id in s.timers
    case _ => true
  }

  /** The pending requests with ids below n, in the order they were made, all rejected. */
  function Rejections(pending: set<int>, n: nat, reason: Reason): seq<Entry> {
    if n == 0 then []
    else Rejections(pending, n - 1, reason) + (if n - 1 in pending then [Entry(n - 1, Rejected(reason))] else [])
  }

  function Ended(s: State, reason: Reason): State {
    var rejected := s.(pending := {}, timers := {}, log := s.log + Rejections(s.pending, s.nextId, reason));
    if s.isOpen || s.settled then rejected
    else rejected.(settled := true, connectTimer := false, connects := s.connects + [ConnectFailed(reason)])
  }

  function Settle(s: State, id: int, how: Settlement): State {
    s.(pending := s.pending - {id}, timers := s.timers - {id}, log := s.log + [Entry(id, how)])
  }

  function Step(limits: Limits, s: State, e: Event): State
    requires Enabled(s, e)
  {
    match e
    case Open =>
      if s.settled then s else s.(isOpen := true, connectTimer := false, connects := s.connects + [Opened])
    case ConnectTimeout => s.(settled := true, connectTimer := false, connects := s.connects + [ConnectTimedOut])
    case Send(accepted) =>
      var sent := s.(nextId := s.nextId + 1, pending := s.pending + {s.nextId},
                     timers := if limits.send then s.timers + {s.nextId} else s.timers);
      if accepted then sent else Settle(sent, s.nextId, Rejected(SendFailed))
    case Message(id, answer) => if id in s.pending then Settle(s, id, answer) else s
    case SendTimeout(id) => Settle(s, id, Rejected(CallTimedOut))
    case Error => Ended(s, SocketFailed)
    case Close => Ended(s, SocketClosed)
  }

  // ---- Invariant -----------------------------------------------------------------------------------

  predicate Issued(s: State, id: int) { 1 <= id < s.nextId }

  ghost predicate Logged(log: seq<Entry>, id: int) { exists i :: 0 <= i < |log| && log[i].id == id }

  /** Pending is exactly what was issued and has not settled; nothing settles twice. */
  ghost predicate Accounted(s: State) {
    && (forall id | id in s.pending :: Issued(s, id))
    && (forall i | 0 <= i < |s.log| :: Issued(s, s.log[i].id) && s.log[i].id !in s.pending)
    && (forall i, j | 0 <= i < j < |s.log| :: s.log[i].id != s.log[j].id)
    && (forall id :: Issued(s, id) ==> id in s.pending || Logged(s.log, id))
  }

  /** The connection settles once, when it opens or fails, and its timer runs only until then. */
  predicate ConnectsOnce(limits: Limits, s: State) {
    && (s.isOpen ==> s.connects == [Opened] && !s.settled)
    && (s.settled ==> |s.connects| == 1 && !s.connects[0].Opened?)
    && (!s.isOpen && !s.settled ==> s.connects == [])
    && (s.connectTimer <==> limits.connect && !s.isOpen && !s.settled)
    && (s.nextId > 1 ==> s.isOpen) && s.nextId >= 1
  }

  /** With a send limit every pending request has its timer running, so none can be left hanging. */
  predicate Timed(limits: Limits, s: State) {
    s.timers == if limits.send then s.pending else {}
  }

  ghost predicate Inv(limits: Limits, s: State) {
    Accounted(s) && ConnectsOnce(limits, s) && Timed(limits, s)
  }

  lemma InitialInv(limits: Limits)
    ensures Inv(limits, Initial(limits))
  {
  }

  lemma {:induction false} RejectionsAre(pending: set<int>, n: nat, reason: Reason)
    ensures forall i | 0 <= i < |Rejections(pending, n, reason)| ::
              Rejections(pending, n, reason)[i].id in pending && 0 <= Rejections(pending, n, reason)[i].id < n
    ensures forall i | 0 <= i < |Rejections(pending, n, reason)| :: Rejections(pending, n, reason)[i].how == Rejected(reason)
    ensures forall i, j | 0 <= i < j < |Rejections(pending, n, reason)| ::
              Rejections(pending, n, reason)[i].id < Rejections(pending, n, reason)[j].id
  {
    if n > 0 {
      RejectionsAre(pending, n - 1, reason);
      var before, all := Rejections(pending, n - 1, reason), Rejections(pending, n, reason);
      assert forall i | 0 <= i < |before| :: all[i] == before[i];
    }
  }

  lemma {:induction false} RejectionsLogged(pending: set<int>, n: nat, reason: Reason, id: int)
    requires 0 <= id < n && id in pending
    ensures Logged(Rejections(pending, n, reason), id)
  {
    var before, all := Rejections(pending, n - 1, reason), Rejections(pending, n, reason);
    if id == n - 1 {
      assert all[|before|].id == id;
    } else {
      RejectionsLogged(pending, n - 1, reason, id);
      LoggedGrows(before, all[|before|..], id);
      assert all == before + all[|before|..];
    }
  }

  lemma LoggedGrows(log: seq<Entry>, more: seq<Entry>, id: int)
    requires Logged(log, id) || Logged(more, id)
    ensures Logged(log + more, id)
  {
    if i :| 0 <= i < |log| && log[i].id == id {
      assert (log + more)[i].id == id;
    } else {
      var j :| 0 <= j < |more| && more[j].id == id;
      assert (log + more)[|log| + j].id == id;
    }
  }

  lemma SettleKeeps(s: State, id: int, how: Settlement)
    requires Accounted(s) && id in s.pending
    ensures Accounted(Settle(s, id, how))
  {
    var next := Settle(s, id, how);
    forall k | Issued(next, k) ensures k in next.pending || Logged(next.log, k) {
      assert Issued(s, k);
      if k == id {
        assert next.log[|s.log|].id == k;
      } else if k !in s.pending {
        LoggedGrows(s.log, [Entry(id, how)], k);
      }
    }
  }

  lemma EndedKeeps(s: State, reason: Reason)
    requires Accounted(s)
    ensures Accounted(Ended(s, reason))
  {
    var next, more := Ended(s, reason), Rejections(s.pending, s.nextId, reason);
    RejectionsAre(s.pending, s.nextId, reason);
    forall k | Issued(next, k) ensures k in next.pending || Logged(next.log, k) {
      assert Issued(s, k);
      if k in s.pending {
        RejectionsLogged(s.pending, s.nextId, reason, k);
      }
      LoggedGrows(s.log, more, k);
    }
  }

  lemma SentKeeps(limits: Limits, s: State, sent: State)
    requires Accounted(s) && s.nextId >= 1 && sent.nextId == s.nextId + 1 && sent.pending == s.pending + {s.nextId} && sent.log == s.log
    ensures Accounted(sent)
  {
    forall k | Issued(sent, k) ensures k in sent.pending || Logged(sent.log, k) {
      assert k == s.nextId || Issued(s, k);
    }
    forall i | 0 <= i < |sent.log| ensures Issued(sent, sent.log[i].id) && sent.log[i].id !in sent.pending {
      assert Issued(s, s.log[i].id);
    }
    forall id | id in sent.pending ensures Issued(sent, id) {
      assert id == s.nextId || Issued(s, id);
    }
  }

  lemma SameRequests(s: State, next: State)
    requires Accounted(s) && next.nextId == s.nextId && next.pending == s.pending && next.log == s.log
    ensures Accounted(next)
  {
    assert forall id :: Issued(next, id) <==> Issued(s, id);
  }

  /** Every move keeps the whole invariant. */
  lemma StepKeepsInv(limits: Limits, s: State, e: Event)
    requires Inv(limits, s) && Enabled(s, e)
    ensures Inv(limits, Step(limits, s, e))
  {
    match e
    case Open => SameRequests(s, Step(limits, s, e));
    case ConnectTimeout => SameRequests(s, Step(limits, s, e));
    case Send(accepted) =>
      var sent := s.(nextId := s.nextId + 1, pending := s.pending + {s.nextId},
                     timers := if limits.send then s.timers + {s.nextId} else s.timers);
      SentKeeps(limits, s, sent);
      if !accepted {
        SettleKeeps(sent, s.nextId, Rejected(SendFailed));
      }
    case Message(id, answer) => if id in s.pending { SettleKeeps(s, id, answer); }
    case SendTimeout(id) => SettleKeeps(s, id, Rejected(CallTimedOut));
    case Error => EndedKeeps(s, SocketFailed);
    case Close => EndedKeeps(s, SocketClosed);
  }

  // ---- Runs -----------------------------------------------------------------------------------------

  /** The state after the events, each of them possible when it happens. */
  ghost predicate Possible(limits: Limits, events: seq<Event>) {
    events == [] ||
    (Possible(limits, events[..|events| - 1]) && Enabled(After(limits, events[..|events| - 1]), events[|events| - 1]))
  }

  ghost function After(limits: Limits, events: seq<Event>): State {
    if events == [] then Initial(limits)
    else
      var before, e := After(limits, events[..|events| - 1]), events[|events| - 1];
      if Enabled(before, e) then Step(limits, before, e) else before
  }

  /** Over all interleavings the invariant holds. */
  lemma {:induction false} AlwaysInv(limits: Limits, events: seq<Event>)
    requires Possible(limits, events)
    ensures Inv(limits, After(limits, events))
  {
    if events == [] {
      InitialInv(limits);
    } else {
      AlwaysInv(limits, events[..|events| - 1]);
      StepKeepsInv(limits, After(limits, events[..|events| - 1]), events[|events| - 1]);
    }
  }

  lemma StepGrows(limits: Limits, s: State, e: Event)
    requires Enabled(s, e)
    ensures s.log <= Step(limits, s, e).log && s.connects <= Step(limits, s, e).connects && s.nextId <= Step(limits, s, e).nextId
  {
  }

  /** Settlements are for good, and ids only ever grow, so an id names one request for ever. */
  lemma {:induction false} HistoryGrows(limits: Limits, events: seq<Event>, k: nat)
    requires k <= |events|
    ensures After(limits, events[..k]).log <= After(limits, events).log
    ensures After(limits, events[..k]).connects <= After(limits, events).connects
    ensures After(limits, events[..k]).nextId <= After(limits, events).nextId
  {
    if k == |events| {
      assert events[..k] == events;
    } else {
      var before, e := events[..|events| - 1], events[|events| - 1];
      assert before[..k] == events[..k];
      HistoryGrows(limits, before, k);
      if Enabled(After(limits, before), e) {
        StepGrows(limits, After(limits, before), e);
      }
    }
  }

  /** A step that adds a resolved entry is the message with that id, and the request was pending. */
  lemma StepAnswers(limits: Limits, s: State, e: Event, i: nat)
    requires Enabled(s, e) && |s.log| <= i < |Step(limits, s, e).log| && Step(limits, s, e).log[i].how.Resolved?
    ensures e == Message(Step(limits, s, e).log[i].id, Step(limits, s, e).log[i].how) && e.id in s.pending
  {
    if e.Error? {
      EndRejects(s, SocketFailed, i);
    } else if e.Close? {
      EndRejects(s, SocketClosed, i);
    }
  }

  lemma EndRejects(s: State, reason: Reason, i: nat)
    requires |s.log| <= i < |Ended(s, reason).log|
    ensures Ended(s, reason).log[i].how == Rejected(reason)
  {
    RejectionsAre(s.pending, s.nextId, reason);
    assert Ended(s, reason).log[i] == Rejections(s.pending, s.nextId, reason)[i - |s.log|];
  }

  ghost predicate AnsweredAt(limits: Limits, events: seq<Event>, entry: Entry, k: nat) {
    k < |events| && events[k] == Message(entry.id, entry.how) && entry.id in After(limits, events[..k]).pending
  }

  /** A resolved request was answered by a message with its own id and that answer, received while the
      request was pending. */
  lemma {:induction false} AnswersAreOwn(limits: Limits, events: seq<Event>, entry: Entry)
    requires Possible(limits, events) && entry in After(limits, events).log && entry.how.Resolved?
    ensures exists k: nat :: AnsweredAt(limits, events, entry, k)
  {
    if events != [] {
      var n := |events| - 1;
      var before, s := After(limits, events[..n]), After(limits, events);
      if entry in before.log {
        AnswersAreOwn(limits, events[..n], entry);
        var k: nat :| AnsweredAt(limits, events[..n], entry, k);
        assert events[..n][..k] == events[..k];
        assert AnsweredAt(limits, events, entry, k);
      } else {
        StepGrows(limits, before, events[n]);
        var i :| 0 <= i < |s.log| && s.log[i] == entry;
        assert forall j | 0 <= j < |before.log| :: before.log[j] == s.log[j] && before.log[j] in before.log;
        StepAnswers(limits, before, events[n], i);
        assert AnsweredAt(limits, events, entry, n);
      }
    }
  }

  /** Every request ends once: after an error or a close, every request made so far has settled, each
      with a single entry. */
  lemma EndSettlesAll(limits: Limits, events: seq<Event>, end: Event, id: int)
    requires Possible(limits, events) && (end.Error? || end.Close?)
    ensures After(limits, events + [end]).pending == {} && |After(limits, events + [end]).connects| == 1
    ensures Issued(After(limits, events), id) ==>
              exists i :: 0 <= i < |After(limits, events + [end]).log| && After(limits, events + [end]).log[i].id == id
                && forall j | 0 <= j < |After(limits, events + [end]).log| && j != i :: After(limits, events + [end]).log[j].id != id
  {
    var all := events + [end];
    assert all[..|all| - 1] == events;
    AlwaysInv(limits, all);
    var s := After(limits, all);
    if Issued(After(limits, events), id) {
      assert Issued(s, id);
      assert Logged(s.log, id);
      var i :| 0 <= i < |s.log| && s.log[i].id == id;
    }
  }

  // ---- The connection ---------------------------------------------------------------------------------

  class Connection {
    const limits: Limits
    var nextId: nat
    var pending: set<int>
    var timers: set<int>
    var isOpen: bool
    var settled: bool
    var connectTimer: bool
    var connects: seq<Connected>
    var log: seq<Entry>

    ghost function View(): State
      reads this
    {
      State(nextId, pending, timers, isOpen, settled, connectTimer, connects, log)
    }

    constructor (limits: Limits)
      ensures this.limits == limits && View() == Initial(limits)
    {
      this.limits := limits;
      nextId, pending, timers := 1, {}, {};
      isOpen, settled, connectTimer := false, false, limits.connect;
      connects, log := [], [];
    }

    method OnConnectTimeout()
      requires Inv(limits, View()) && connectTimer
      modifies `connectTimer, `settled, `connects
      ensures Inv(limits, View()) && View() == Step(limits, old(View()), ConnectTimeout)
    {
      StepKeepsInv(limits, View(), ConnectTimeout);
      connectTimer := false;
      if isOpen { return; }
      settled := true;
      connects := connects + [ConnectTimedOut];
    }

    method OnOpen()
      requires Inv(limits, View()) && !isOpen
      modifies `isOpen, `connectTimer, `connects
      ensures Inv(limits, View()) && View() == Step(limits, old(View()), Open)
    {
      StepKeepsInv(limits, View(), Open);
      if settled { return; }
      isOpen := true;
      connectTimer := false;
      connects := connects + [Opened];
    }

    /** Removes a request from the table, with its timer, and settles it. */
    method Finish(id: int, how: Settlement)
      modifies `pending, `timers, `log
      ensures View() == Settle(old(View()), id, how)
    {
      pending := pending - {id};
      timers := timers - {id};
      log := log + [Entry(id, how)];
    }

    /** `send`: the id is new, and the request pending unless the socket refuses it. */
    method SendRequest(accepted: bool) returns (id: int)
      requires Inv(limits, View()) && isOpen
      modifies `nextId, `pending, `timers, `log
      ensures Inv(limits, View()) && View() == Step(limits, old(View()), Send(accepted))
      ensures !Issued(old(View()), id) && Issued(View(), id) && id !in old(View()).pending
      ensures id in pending <==> accepted
    {
      StepKeepsInv(limits, View(), Send(accepted));
      id := nextId;
      nextId := nextId + 1;
      if limits.send { timers := timers + {id}; }
      pending := pending + {id};
      if !accepted {
        Finish(id, Rejected(SendFailed));
      }
    }

    method OnMessage(id: int, answer: Settlement)
      requires Inv(limits, View())
      modifies `pending, `timers, `log
      ensures Inv(limits, View()) && View() == Step(limits, old(View()), Message(id, answer))
    {
      StepKeepsInv(limits, View(), Message(id, answer));
      if id !in pending { return; }
      Finish(id, answer);
    }

    method OnSendTimeout(id: int)
      requires Inv(limits, View()) && id in timers
      modifies `pending, `timers, `log
      ensures Inv(limits, View()) && View() == Step(limits, old(View()), SendTimeout(id))
    {
      StepKeepsInv(limits, View(), SendTimeout(id));
      Finish(id, Rejected(CallTimedOut));
    }

    /** `rejectPending`: the table is walked in the order the requests were made. */
    method RejectPending(reason: Reason)
      modifies `pending, `timers, `log
      ensures pending == {} && timers == {}
      ensures log == old(log) + Rejections(old(pending), nextId, reason)
    {
      var id := 0;
      while id < nextId
        invariant id <= nextId && log == old(log) + Rejections(old(pending), id, reason) && pending == old(pending)
        decreases nextId - id
      {
        if id in pending {
          log := log + [Entry(id, Rejected(reason))];
        }
        id := id + 1;
      }
      pending, timers := {}, {};
    }

    /** The error and close listeners. */
    method OnEnd(end: Event)
      requires Inv(limits, View()) && (end.Error? || end.Close?)
      modifies `pending, `timers, `log, `settled, `connectTimer, `connects
      ensures Inv(limits, View()) && View() == Step(limits, old(View()), end) && pending == {}
    {
      StepKeepsInv(limits, View(), end);
      var reason := if end.Error? then SocketFailed else SocketClosed;
      RejectPending(reason);
      if !isOpen && !settled {
        settled := true;
        connectTimer := false;
        connects := connects + [ConnectFailed(reason)];
      }
    }
  }
}
