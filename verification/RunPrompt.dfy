/**
 The interactive prompt loop of the CLI (apps/cli/src/controller.ts): `runPrompt` polls a session
 until its run has ended, printing the growing assistant text as deltas and answering interactions
 on the way.

 What the Server answers in one turn of the loop is a `Poll`; the deadline passes after an arbitrary
 number of turns. Answers and outcomes range over everything the requests can bring back.
 */
module RunPrompt {
  import opened Common
  import UrlText

  // ---- What the Server sends ------------------------------------------------------------------

  datatype Part = Text(id: string, text: string) | Other(id: string)

  /** `error` is the error in its serialised form; the empty text is falsy. */
  datatype Message = Message(id: string, assistant: bool, error: Option<string>, parts: seq<Part>)

  datatype Status = Idle | Busy | Waiting | Retrying(outOfPoints: bool)

  datatype Snapshot = Snapshot(messages: seq<Message>, status: Status)

  datatype Run = Run(id: string, session: string)

  /** `handled` says whether asking the user and sending the answer succeed. */
  datatype Interaction = Interaction(session: string, id: string, handled: bool)

  datatype Interactions = Interactions(permissions: seq<Interaction>, questions: seq<Interaction>)

  datatype Observation = Observed(cleared: bool) | RunGone | ObserveFailed

  datatype AbortAnswer = Accepted | Refused | AbortGone | AbortFailed

  /** The answers to one request to stop. */
  datatype AbortAnswers = AbortAnswers(active: Option<seq<Run>>, answer: AbortAnswer)

  /** The answers of one turn, `None` for a request that failed. `stop` holds the answers to a stop request
      of the user, if one was made meanwhile. */
  datatype Poll = Poll(
    interactions: Option<Interactions>, snapshot: Option<Snapshot>, observation: Observation,
    active: Option<seq<Run>>, stop: Option<AbortAnswers>)

  datatype Start = Started(run: Run) | Steered(active: Option<seq<Run>>) | NotStarted

  /** The answers before the loop. */
  datatype Setup = Setup(session: Option<string>, before: Option<Snapshot>, start: Start)

  datatype RunError =
    | EmptyPrompt | BadModel | RequestFailed | InteractionFailed | MessageFailed(text: string)
    | OutOfPoints | TimedOut

  datatype Outcome = Outcome(text: string, session: string, aborted: bool)

  // ---- Text parts -----------------------------------------------------------------------------

  datatype TextPart = TextPart(key: string, text: string)

  datatype Delta = Delta(key: string, text: string)

  function PartKey(message: string, part: string): string { message + ":" + part }

  function PartsOf(message: string, parts: seq<Part>): seq<TextPart> {
    if parts == [] then []
    else
      (match parts[0]
       case Text(id, text) => [TextPart(PartKey(message, id), text)]
       case Other(_) => []) + PartsOf(message, parts[1..])
  }

  /** `assistantTextParts`. */
  function TextParts(messages: seq<Message>): seq<TextPart> {
    if messages == [] then []
    else (if messages[0].assistant then PartsOf(messages[0].id, messages[0].parts) else []) + TextParts(messages[1..])
  }

  /** Every part's text is set in turn: a later entry replaces an earlier one. */
  function Update(texts: map<string, string>, parts: seq<TextPart>): map<string, string> {
    if parts == [] then texts
    else
      var n := |parts| - 1;
      Update(texts, parts[..n])[parts[n].key := parts[n].text]
  }

  function Get(texts: map<string, string>, key: string): string { if key in texts then texts[key] else "" }

  ghost predicate WellKeyed(parts: seq<TextPart>) {
    forall i, j | 0 <= i < j < |parts| :: parts[i].key != parts[j].key
  }

  lemma {:induction false} UpdateHas(texts: map<string, string>, parts: seq<TextPart>, i: nat)
    requires WellKeyed(parts) && i < |parts|
    ensures parts[i].key in Update(texts, parts) && Update(texts, parts)[parts[i].key] == parts[i].text
  {
    var n := |parts| - 1;
    if i < n {
      UpdateHas(texts, parts[..n], i);
    }
  }

  lemma {:induction false} UpdateKeeps(texts: map<string, string>, parts: seq<TextPart>, key: string)
    requires forall i | 0 <= i < |parts| :: parts[i].key != key
    ensures Get(Update(texts, parts), key) == Get(texts, key)
  {
    if parts != [] {
      UpdateKeeps(texts, parts[..|parts| - 1], key);
    }
  }

  // ---- What one snapshot prints -----------------------------------------------------------------

  /** The parts that are new or differ from the text they had before the prompt. */
  function Changed(parts: seq<TextPart>, baseline: map<string, string>): seq<TextPart> {
    if parts == [] then []
    else
      var n := |parts| - 1;
      Changed(parts[..n], baseline)
      + (if parts[n].key in baseline && baseline[parts[n].key] == parts[n].text then [] else [parts[n]])
  }

  /** A part without the text it had before the prompt. */
  function Beyond(part: TextPart, baseline: map<string, string>): string {
    var known := Get(baseline, part.key);
    if StartsWith(part.text, known) then part.text[|known|..] else part.text
  }

  function FinalText(parts: seq<TextPart>, baseline: map<string, string>): string {
    var changed := Changed(parts, baseline);
    Join(seq(|changed|, i requires 0 <= i < |changed| => Beyond(changed[i], baseline)), "\n")
  }

  datatype Display = Display(printed: map<string, string>, deltas: seq<Delta>)

  function DeltaText(text: string, previous: string): string {
    if StartsWith(text, previous) then text[|previous|..] else "\n" + text
  }

  function PrintPart(d: Display, part: TextPart): Display {
    var previous := Get(d.printed, part.key);
    if part.text == previous then d
    else Display(d.printed[part.key := part.text], d.deltas + [Delta(part.key, DeltaText(part.text, previous))])
  }

  function PrintParts(d: Display, parts: seq<TextPart>): Display {
    if parts == [] then d
    else PrintPart(PrintParts(d, parts[..|parts| - 1]), parts[|parts| - 1])
  }

  /** The display after the given snapshots. */
  function Shown(baseline: map<string, string>, snapshots: seq<seq<TextPart>>): Display {
    if snapshots == [] then Display(baseline, [])
    else
      var n := |snapshots| - 1;
      PrintParts(Shown(baseline, snapshots[..n]), Changed(snapshots[n], baseline))
  }

  // ---- Streams ------------------------------------------------------------------------------------

  /** What was printed before does not matter to what is printed next. */
  lemma {:induction false} PrintAfter(first: seq<Delta>, d: Display, parts: seq<TextPart>)
    ensures PrintParts(Display(d.printed, first + d.deltas), parts)
         == (var next := PrintParts(d, parts); Display(next.printed, first + next.deltas))
  {
    if parts == [] {
    } else {
      var n := |parts| - 1;
      PrintAfter(first, d, parts[..n]);
      var next := PrintParts(d, parts[..n]);
      var delta := Delta(parts[n].key, DeltaText(parts[n].text, Get(next.printed, parts[n].key)));
      Assoc(first, next.deltas, [delta]);
    }
  }

  /** Everything printed for one part. */
  function Stream(deltas: seq<Delta>, key: string): string {
    if deltas == [] then ""
    else
      var n := |deltas| - 1;
      Stream(deltas[..n], key) + (if deltas[n].key == key then deltas[n].text else "")
  }

  /** The latest text of every part after the given snapshots. */
  function Latest(baseline: map<string, string>, snapshots: seq<seq<TextPart>>): map<string, string> {
    if snapshots == [] then baseline
    else Update(Latest(baseline, snapshots[..|snapshots| - 1]), snapshots[|snapshots| - 1])
  }

  /** Each part's text extends the latest text the part had. */
  ghost predicate Extends(seen: map<string, string>, parts: seq<TextPart>) {
    forall i | 0 <= i < |parts| :: Get(seen, parts[i].key) <= parts[i].text
  }

  /** Text only ever grows, and the keys of a snapshot are distinct. */
  ghost predicate AppendOnly(baseline: map<string, string>, snapshots: seq<seq<TextPart>>) {
    forall k | 0 <= k < |snapshots| :: WellKeyed(snapshots[k]) && Extends(Latest(baseline, snapshots[..k]), snapshots[k])
  }

  /** The text a part had before the prompt and its printed stream make up its latest text. */
  ghost predicate Faithful(baseline: map<string, string>, d: Display, seen: map<string, string>, key: string) {
    Get(baseline, key) + Stream(d.deltas, key) == Get(d.printed, key) == Get(seen, key)
  }

  lemma StreamOfOneMore(deltas: seq<Delta>, delta: Delta, key: string)
    ensures Stream(deltas + [delta], key) == Stream(deltas, key) + (if delta.key == key then delta.text else "")
  {
    assert (deltas + [delta])[..|deltas|] == deltas;
  }

  /** What a grown text adds to the one before it. */
  lemma DeltaOfGrowth(text: string, previous: string)
    requires previous <= text
    ensures previous + DeltaText(text, previous) == text
  {
    assert text[..|previous|] == previous;
  }

  lemma {:induction false} PrintOwnPart(baseline: map<string, string>, d: Display, seen: map<string, string>, part: TextPart)
    requires Faithful(baseline, d, seen, part.key) && Get(seen, part.key) <= part.text
    ensures Faithful(baseline, PrintPart(d, part), seen[part.key := part.text], part.key)
  {
    var previous, stream := Get(d.printed, part.key), Stream(d.deltas, part.key);
    if part.text != previous {
      var text := DeltaText(part.text, previous);
      DeltaOfGrowth(part.text, previous);
      StreamOfOneMore(d.deltas, Delta(part.key, text), part.key);
      Assoc(Get(baseline, part.key), stream, text);
    }
  }

  lemma {:induction false} PrintOtherPart(baseline: map<string, string>, d: Display, seen: map<string, string>, part: TextPart, key: string)
    requires Faithful(baseline, d, seen, key) && part.key != key
    ensures Faithful(baseline, PrintPart(d, part), seen[part.key := part.text], key)
  {
    var next, stream := PrintPart(d, part), Stream(d.deltas, key);
    assert Get(next.printed, key) == Get(d.printed, key) && Get(seen[part.key := part.text], key) == Get(seen, key);
    if part.text != Get(d.printed, part.key) {
      StreamOfOneMore(d.deltas, Delta(part.key, DeltaText(part.text, Get(d.printed, part.key))), key);
      assert Stream(next.deltas, key) == stream + "" == stream;
    }
  }

  /** Printing a part adds to its own stream exactly what the part grew by, and nothing to any other. */
  lemma PrintPartIsFaithful(baseline: map<string, string>, d: Display, seen: map<string, string>, part: TextPart, key: string)
    requires Faithful(baseline, d, seen, key) && (part.key == key ==> Get(seen, key) <= part.text)
    ensures Faithful(baseline, PrintPart(d, part), seen[part.key := part.text], key)
  {
    if part.key == key {
      PrintOwnPart(baseline, d, seen, part);
    } else {
      PrintOtherPart(baseline, d, seen, part, key);
    }
  }

  lemma {:induction false} SnapshotIsFaithful(
    baseline: map<string, string>, d: Display, seen: map<string, string>, parts: seq<TextPart>, key: string)
    requires Faithful(baseline, d, seen, key) && Get(baseline, key) <= Get(seen, key)
    requires WellKeyed(parts) && Extends(seen, parts)
    ensures Faithful(baseline, PrintParts(d, Changed(parts, baseline)), Update(seen, parts), key)
  {
    if parts != [] {
      var n := |parts| - 1;
      var before, part := parts[..n], parts[n];
      FrontExtends(seen, parts);
      SnapshotIsFaithful(baseline, d, seen, before, key);
      if part.key == key {
        UpdateKeeps(seen, before, key);
      }
      LastPartIsFaithful(baseline, d, Changed(before, baseline), Update(seen, before), part, key);
    }
  }

  lemma FrontExtends(seen: map<string, string>, parts: seq<TextPart>)
    requires parts != [] && WellKeyed(parts) && Extends(seen, parts)
    ensures var before, last := parts[..|parts| - 1], parts[|parts| - 1];
            && WellKeyed(before) && Extends(seen, before) && Get(seen, last.key) <= last.text
            && forall i | 0 <= i < |before| :: before[i].key != last.key
  {
  }

  /** The last part of a snapshot: printed if it has changed, and otherwise already what was seen. */
  lemma LastPartIsFaithful(
    baseline: map<string, string>, d: Display, changed: seq<TextPart>, seen: map<string, string>, part: TextPart, key: string)
    requires Faithful(baseline, PrintParts(d, changed), seen, key)
    requires part.key == key ==> Get(baseline, key) <= Get(seen, key) <= part.text
    ensures var more := if part.key in baseline && baseline[part.key] == part.text then [] else [part];
            Faithful(baseline, PrintParts(d, changed + more), seen[part.key := part.text], key)
  {
    if part.key in baseline && baseline[part.key] == part.text {
      assert changed + [] == changed;
      assert part.key == key ==> Get(seen, key) == part.text;
    } else {
      assert (changed + [part])[..|changed|] == changed;
      PrintPartIsFaithful(baseline, PrintParts(d, changed), seen, part, key);
    }
  }

  lemma {:induction false} SnapshotExtends(seen: map<string, string>, parts: seq<TextPart>, key: string)
    requires WellKeyed(parts) && Extends(seen, parts)
    ensures Get(seen, key) <= Get(Update(seen, parts), key)
  {
    if i :| 0 <= i < |parts| && parts[i].key == key {
      UpdateHas(seen, parts, i);
    } else {
      UpdateKeeps(seen, parts, key);
    }
  }

  /** Over append-only snapshots the deltas printed for a part, concatenated, are its latest text
      without the text it had before the prompt: nothing is lost, repeated or reordered. */
  lemma {:induction false} StreamsAreFaithful(baseline: map<string, string>, snapshots: seq<seq<TextPart>>, key: string)
    requires AppendOnly(baseline, snapshots)
    ensures Faithful(baseline, Shown(baseline, snapshots), Latest(baseline, snapshots), key)
    ensures Get(baseline, key) <= Get(Latest(baseline, snapshots), key)
  {
    if snapshots == [] {
      assert Get(baseline, key) + "" == Get(baseline, key);
    } else {
      var n := |snapshots| - 1;
      var before := snapshots[..n];
      assert AppendOnly(baseline, before) by {
        forall k | 0 <= k < n ensures WellKeyed(before[k]) && Extends(Latest(baseline, before[..k]), before[k]) {
          assert before[..k] == snapshots[..k] && before[k] == snapshots[k];
        }
      }
      StreamsAreFaithful(baseline, before, key);
      SnapshotIsFaithful(baseline, Shown(baseline, before), Latest(baseline, before), snapshots[n], key);
      SnapshotExtends(Latest(baseline, before), snapshots[n], key);
    }
  }

  lemma {:induction false} ChangedIsPart(parts: seq<TextPart>, baseline: map<string, string>, i: nat)
    requires i < |Changed(parts, baseline)|
    ensures Changed(parts, baseline)[i] in parts
  {
    var before := Changed(parts[..|parts| - 1], baseline);
    if i < |before| {
      ChangedIsPart(parts[..|parts| - 1], baseline, i);
    }
  }

  function Streams(parts: seq<TextPart>, deltas: seq<Delta>): seq<string> {
    seq(|parts|, i requires 0 <= i < |parts| => Stream(deltas, parts[i].key))
  }

  lemma BeyondIsStream(baseline: map<string, string>, snapshots: seq<seq<TextPart>>, part: TextPart)
    requires AppendOnly(baseline, snapshots) && snapshots != [] && part in snapshots[|snapshots| - 1]
    ensures Beyond(part, baseline) == Stream(Shown(baseline, snapshots).deltas, part.key)
  {
    var n := |snapshots| - 1;
    var i :| 0 <= i < |snapshots[n]| && snapshots[n][i] == part;
    StreamsAreFaithful(baseline, snapshots, part.key);
    UpdateHas(Latest(baseline, snapshots[..n]), snapshots[n], i);
    var known, stream := Get(baseline, part.key), Stream(Shown(baseline, snapshots).deltas, part.key);
    assert part.text == known + stream;
    assert part.text[..|known|] == known && part.text[|known|..] == stream;
  }

  /** The returned text is the newline join of the printed streams of the changed parts, in the order
      of the last snapshot. */
  lemma ReturnedTextIsWhatWasPrinted(baseline: map<string, string>, snapshots: seq<seq<TextPart>>, changed: seq<TextPart>)
    requires AppendOnly(baseline, snapshots) && snapshots != []
    requires changed == Changed(snapshots[|snapshots| - 1], baseline)
    ensures FinalText(snapshots[|snapshots| - 1], baseline)
         == Join(Streams(changed, Shown(baseline, snapshots).deltas), "\n")
  {
    var last := snapshots[|snapshots| - 1];
    var streams := Streams(changed, Shown(baseline, snapshots).deltas);
    var beyond := seq(|changed|, i requires 0 <= i < |changed| => Beyond(changed[i], baseline));
    forall i | 0 <= i < |changed| ensures beyond[i] == streams[i] {
      ChangedIsPart(last, baseline, i);
      BeyondIsStream(baseline, snapshots, changed[i]);
    }
    assert beyond == streams;
  }

  // ---- Failures ---------------------------------------------------------------------------------

  /** The keys of `errors` are the ids of all messages there were. */
  datatype Baseline = Baseline(errors: map<string, Option<string>>, texts: map<string, string>)

  function ErrorMap(messages: seq<Message>): map<string, Option<string>> {
    if messages == [] then map[]
    else
      var n := |messages| - 1;
      ErrorMap(messages[..n])[messages[n].id := messages[n].error]
  }

  function TakeBaseline(before: Snapshot): Baseline {
    Baseline(ErrorMap(before.messages), Update(map[], TextParts(before.messages)))
  }

  predicate NewText(message: string, part: Part, texts: map<string, string>) {
    && part.Text?
    && (PartKey(message, part.id) !in texts || texts[PartKey(message, part.id)] != part.text)
  }

  /** The message is new since the prompt, or its error or one of its texts is. */
  predicate Relevant(m: Message, b: Baseline) {
    && m.assistant
    && (m.id !in b.errors || b.errors[m.id] != m.error
        || (exists i | 0 <= i < |m.parts| :: NewText(m.id, m.parts[i], b.texts)))
  }

  predicate HasError(m: Message) { m.error.Some? && m.error.value != "" }

  /** `messageFailure` over the relevant messages: the first error. */
  function Failure(messages: seq<Message>, b: Baseline): Option<string> {
    if messages == [] then None
    else if Relevant(messages[0], b) && HasError(messages[0]) then messages[0].error
    else Failure(messages[1..], b)
  }

  lemma {:induction false} FailureIff(messages: seq<Message>, b: Baseline)
    ensures Failure(messages, b).Some? <==> exists i | 0 <= i < |messages| :: Relevant(messages[i], b) && HasError(messages[i])
  {
    if messages != [] {
      FailureIff(messages[1..], b);
      if Relevant(messages[0], b) && HasError(messages[0]) {
      } else if i :| 0 <= i < |messages| && Relevant(messages[i], b) && HasError(messages[i]) {
        assert messages[i] == messages[1..][i - 1];
      }
    }
  }

  lemma {:induction false} ErrorMapHas(messages: seq<Message>, i: nat)
    requires i < |messages| && forall j, k | 0 <= j < k < |messages| :: messages[j].id != messages[k].id
    ensures messages[i].id in ErrorMap(messages) && ErrorMap(messages)[messages[i].id] == messages[i].error
  {
    var n := |messages| - 1;
    if i < n {
      ErrorMapHas(messages[..n], i);
    }
  }

  lemma {:induction false} PartsOfHas(message: string, parts: seq<Part>, j: nat)
    requires j < |parts| && parts[j].Text?
    ensures TextPart(PartKey(message, parts[j].id), parts[j].text) in PartsOf(message, parts)
  {
    if j > 0 {
      PartsOfHas(message, parts[1..], j - 1);
    }
  }

  lemma {:induction false} TextPartsHas(messages: seq<Message>, i: nat, part: TextPart)
    requires i < |messages| && messages[i].assistant && part in PartsOf(messages[i].id, messages[i].parts)
    ensures part in TextParts(messages)
  {
    if i > 0 {
      TextPartsHas(messages[1..], i - 1, part);
    }
  }

  lemma NoNewText(messages: seq<Message>, i: nat, j: nat)
    requires i < |messages| && messages[i].assistant && WellKeyed(TextParts(messages)) && j < |messages[i].parts|
    ensures !NewText(messages[i].id, messages[i].parts[j], Update(map[], TextParts(messages)))
  {
    var part := messages[i].parts[j];
    if part.Text? {
      var text := TextPart(PartKey(messages[i].id, part.id), part.text);
      PartsOfHas(messages[i].id, messages[i].parts, j);
      TextPartsHas(messages, i, text);
      var k :| 0 <= k < |TextParts(messages)| && TextParts(messages)[k] == text;
      UpdateHas(map[], TextParts(messages), k);
    }
  }

  /** An error the session already had never fails a new prompt, as long as nothing has changed. */
  lemma OldErrorsDoNotFail(before: Snapshot)
    requires forall j, k | 0 <= j < k < |before.messages| :: before.messages[j].id != before.messages[k].id
    requires WellKeyed(TextParts(before.messages))
    ensures Failure(before.messages, TakeBaseline(before)) == None
  {
    var b := TakeBaseline(before);
    FailureIff(before.messages, b);
    forall i | 0 <= i < |before.messages| ensures !Relevant(before.messages[i], b) {
      ErrorMapHas(before.messages, i);
      if before.messages[i].assistant {
        forall j | 0 <= j < |before.messages[i].parts|
          ensures !NewText(before.messages[i].id, before.messages[i].parts[j], b.texts)
        {
          NoNewText(before.messages, i, j);
        }
      }
    }
  }

  // ---- The controller ---------------------------------------------------------------------------

  /** `items.find((item) => item.sessionId === session)`. */
  function FindRun(active: seq<Run>, session: string): (r: Option<Run>)
    ensures r.Some? ==> r.value in active && r.value.session == session
    ensures r.None? ==> forall i | 0 <= i < |active| :: active[i].session != session
  {
    if active == [] then None
    else if active[0].session == session then Some(active[0])
    else FindRun(active[1..], session)
  }

  /** `modelSelection` accepts the text: both sides of the first slash are there. */
  predicate ModelOk(model: string) {
    model == "" || 0 < IndexOf(model, '/') < |model| - 1
  }

  predicate SessionIdle(poll: Poll) { poll.snapshot.Some? && poll.snapshot.value.status.Idle? }

  predicate NoneActive(poll: Poll, session: string) {
    poll.active.Some? && FindRun(poll.active.value, session).None?
  }

  /** The held run was observed to be cleared. */
  predicate Cleared(slot: Option<Run>, poll: Poll) { slot.Some? && poll.observation == Observed(true) }

  /** The run slot after one turn. */
  function NextSlot(slot: Option<Run>, poll: Poll, session: string): Option<Run> {
    var kept := Kept(slot, poll);
    if poll.active.None? || Cleared(slot, poll) then kept
    else if SessionIdle(poll) then
      var found := FindRun(poll.active.value, session);
      if found.Some? then found else kept
    else if kept.Some? then kept
    else FindRun(poll.active.value, session)
  }

  /** The run slot when the loop starts. */
  function FirstSlot(start: Start, session: string): Option<Run> {
    match start
    case Started(run) => Some(run)
    case Steered(active) => if active.None? then None else FindRun(active.value, session)
    case NotStarted => None
  }

  /** The session is idle, and its run was observed to be cleared or none is active. */
  predicate RunEnded(slot: Option<Run>, poll: Poll, session: string) {
    SessionIdle(poll) && (Cleared(slot, poll) || NoneActive(poll, session))
  }

  function PartsShown(poll: Poll): seq<TextPart> {
    if poll.snapshot.None? then [] else TextParts(poll.snapshot.value.messages)
  }

  function SnapshotsOf(polls: seq<Poll>): seq<seq<TextPart>> {
    seq(|polls|, i requires 0 <= i < |polls| => PartsShown(polls[i]))
  }

  ghost predicate NoDuplicates(keys: seq<string>) {
    forall i, j | 0 <= i < j < |keys| :: keys[i] != keys[j]
  }

  /** `keys` are new to `seen`, and each appears once. */
  ghost predicate FreshKeys(keys: seq<string>, seen: set<string>) {
    NoDuplicates(keys) && forall i | 0 <= i < |keys| :: keys[i] !in seen
  }

  /** The run a stop request is for: the held one, or else the active run of the session. */
  function StopTarget(slot: Option<Run>, answers: AbortAnswers, session: string): Option<Run> {
    if slot.Some? then slot
    else if answers.active.None? then None
    else FindRun(answers.active.value, session)
  }

  /** What one stop request adds to the log. */
  function Asks(slot: Option<Run>, answers: AbortAnswers, session: string): seq<Run> {
    var target := StopTarget(slot, answers, session);
    if target.Some? then [target.value] else []
  }

  predicate StopAccepted(slot: Option<Run>, answers: AbortAnswers, session: string) {
    StopTarget(slot, answers, session).Some? && answers.answer.Accepted?
  }

  /** What the turns of the loop carry along: the display, the run slot, whether a stop was accepted, and
      the runs that were asked to stop. */
  datatype Progress = Progress(display: Display, slot: Option<Run>, stopped: bool, asked: seq<Run>)

  /** The user's stop request of a turn, if there is one. */
  function WithStop(p: Progress, poll: Poll, session: string): Progress {
    if poll.stop.None? then p
    else p.(stopped := p.stopped || StopAccepted(p.slot, poll.stop.value, session),
            asked := p.asked + Asks(p.slot, poll.stop.value, session))
  }

  function Step(p: Progress, poll: Poll, texts: map<string, string>, session: string): Progress {
    WithStop(p, poll, session).(display := PrintParts(p.display, Changed(PartsShown(poll), texts)),
                                slot := NextSlot(p.slot, poll, session))
  }

  function After(p: Progress, polls: seq<Poll>, texts: map<string, string>, session: string): Progress {
    if polls == [] then p
    else
      var n := |polls| - 1;
      Step(After(p, polls[..n], texts, session), polls[n], texts, session)
  }

  /** The turns print the snapshots' text after whatever was printed before. */
  lemma {:induction false} AfterPrints(p: Progress, polls: seq<Poll>, texts: map<string, string>, session: string)
    requires p.display.printed == texts
    ensures var shown := Shown(texts, SnapshotsOf(polls));
            After(p, polls, texts, session).display == Display(shown.printed, p.display.deltas + shown.deltas)
  {
    if polls == [] {
      assert p.display.deltas + [] == p.display.deltas;
    } else {
      var n := |polls| - 1;
      AfterPrints(p, polls[..n], texts, session);
      assert SnapshotsOf(polls)[..n] == SnapshotsOf(polls[..n]);
      PrintAfter(p.display.deltas, Shown(texts, SnapshotsOf(polls[..n])), Changed(PartsShown(polls[n]), texts));
    }
  }

  /** A stop request was accepted in turn i. */
  predicate StoppedAt(p: Progress, polls: seq<Poll>, texts: map<string, string>, session: string, i: nat) {
    i < |polls| && polls[i].stop.Some? && StopAccepted(After(p, polls[..i], texts, session).slot, polls[i].stop.value, session)
  }

  lemma StoppedInLast(p: Progress, polls: seq<Poll>, texts: map<string, string>, session: string)
    requires polls != []
    ensures After(p, polls, texts, session).stopped <==>
            After(p, polls[..|polls| - 1], texts, session).stopped || StoppedAt(p, polls, texts, session, |polls| - 1)
  {
  }

  lemma {:induction false} NoneStopped(p: Progress, polls: seq<Poll>, texts: map<string, string>, session: string, i: nat)
    requires !After(p, polls, texts, session).stopped
    ensures !p.stopped && !StoppedAt(p, polls, texts, session, i)
  {
    if polls != [] {
      var n := |polls| - 1;
      StoppedInLast(p, polls, texts, session);
      NoneStopped(p, polls[..n], texts, session, i);
      assert i < n ==> polls[..n][..i] == polls[..i] && polls[..n][i] == polls[i];
    }
  }

  lemma {:induction false} WhoStopped(p: Progress, polls: seq<Poll>, texts: map<string, string>, session: string) returns (i: nat)
    requires !p.stopped && After(p, polls, texts, session).stopped
    ensures StoppedAt(p, polls, texts, session, i)
  {
    var n := |polls| - 1;
    i := n;
    StoppedInLast(p, polls, texts, session);
    if !StoppedAt(p, polls, texts, session, n) {
      i := WhoStopped(p, polls[..n], texts, session);
      assert polls[..n][..i] == polls[..i] && polls[..n][i] == polls[i];
    }
  }

  ghost predicate Joined(all: set<string>, seen: set<string>, keys: seq<string>) {
    forall key :: key in all <==> key in seen || key in keys
  }

  function KeyOf(prefix: string, i: Interaction): string { prefix + i.session + ":" + i.id }

  /** Between the two logs each new key was answered once, and none of them was in `seen`. */
  ghost predicate AnsweredOnce(before: seq<string>, after: seq<string>, seen: set<string>) {
    before <= after && FreshKeys(after[|before|..], seen)
  }

  /** `all` is `seen` and the keys answered between the two logs. */
  ghost predicate SeenGrew(all: set<string>, seen: set<string>, before: seq<string>, after: seq<string>) {
    before <= after && Joined(all, seen, after[|before|..])
  }

  /** The turns taken have printed the given deltas, and a result is returned only when the last of them
      found the run ended: its text is the last snapshot's. */
  ghost predicate LoopResult(
    r: Result<Outcome, RunError>, start: Progress, taken: seq<Poll>, texts: map<string, string>, session: string, deltas: seq<Delta>)
  {
    && deltas == After(start, taken, texts, session).display.deltas
    && (r.Ok? ==>
          && taken != []
          && RunEnded(After(start, taken[..|taken| - 1], texts, session).slot, taken[|taken| - 1], session)
          && r.value == Outcome(FinalText(PartsShown(taken[|taken| - 1]), texts), session, After(start, taken, texts, session).stopped))
  }

  // ---- When the loop is left ----------------------------------------------------------------------

  /** What answering a list of interactions does: whether all went well, the keys seen, the keys answered. */
  datatype Answering = Answering(ok: bool, seen: set<string>, keys: seq<string>)

  function AnswerOne(prefix: string, item: Interaction, a: Answering): Answering {
    var key := KeyOf(prefix, item);
    if key in a.seen then a
    else if !item.handled then a.(ok := false)
    else Answering(true, a.seen + {key}, a.keys + [key])
  }

  function AnswersTo(prefix: string, items: seq<Interaction>, a: Answering): Answering
    decreases |items|
  {
    if items == [] || !a.ok then a else AnswersTo(prefix, items[1..], AnswerOne(prefix, items[0], a))
  }

  /** The interactions of one turn: permissions first, then questions. */
  function TurnAnswers(pending: Option<Interactions>, seen: set<string>): Answering {
    if pending.None? then Answering(false, seen, [])
    else
      var first := AnswersTo("permission:", pending.value.permissions, Answering(true, seen, []));
      if !first.ok then first
      else
        var next := AnswersTo("question:", pending.value.questions, Answering(true, first.seen, []));
        next.(keys := first.keys + next.keys)
  }

  /** The keys answered are new and different, and exactly what has been seen since. */
  ghost predicate Fresh(a: Answering, seen: set<string>) { FreshKeys(a.keys, seen) && Joined(a.seen, seen, a.keys) }

  lemma {:induction false} AnswerOneIsFresh(prefix: string, item: Interaction, a: Answering, seen: set<string>)
    requires Fresh(a, seen)
    ensures Fresh(AnswerOne(prefix, item, a), seen)
  {
    var next := AnswerOne(prefix, item, a);
    forall i, j | 0 <= i < j < |next.keys| ensures next.keys[i] != next.keys[j] {
      assert i < |a.keys| ==> next.keys[i] == a.keys[i] && a.keys[i] in a.keys;
    }
    forall key ensures key in next.seen <==> key in seen || key in next.keys {}
  }

  lemma {:induction false} AnswersAreFresh(prefix: string, items: seq<Interaction>, a: Answering, seen: set<string>)
    requires Fresh(a, seen)
    ensures var all := AnswersTo(prefix, items, a);
            && Fresh(all, seen) && a.seen <= all.seen
            && (all.ok ==> forall i | 0 <= i < |items| :: KeyOf(prefix, items[i]) in all.seen)
    decreases |items|
  {
    if items != [] && a.ok {
      var next, rest := AnswerOne(prefix, items[0], a), items[1..];
      AnswerOneIsFresh(prefix, items[0], a, seen);
      AnswersAreFresh(prefix, rest, next, seen);
      var all := AnswersTo(prefix, rest, next);
      forall i | 0 <= i < |items| && all.ok ensures KeyOf(prefix, items[i]) in all.seen {
        assert i > 0 ==> items[i] == rest[i - 1];
        assert next.ok ==> KeyOf(prefix, items[0]) in next.seen;
      }
    }
  }

  /** Answers to what has been seen in between are answers to both. */
  lemma {:induction false} FreshAfter(a: Answering, b: Answering, seen: set<string>)
    requires Fresh(a, seen) && Fresh(b, a.seen)
    ensures Fresh(b.(keys := a.keys + b.keys), seen)
  {
    var all := a.keys + b.keys;
    forall i, j | 0 <= i < j < |all| ensures all[i] != all[j] {
      assert i < |a.keys| <= j ==> a.keys[i] in a.seen && b.keys[j - |a.keys|] !in a.seen;
    }
    forall i | 0 <= i < |all| ensures all[i] !in seen {
      assert i >= |a.keys| ==> b.keys[i - |a.keys|] !in a.seen;
    }
  }

  /** Every pending interaction has been seen. */
  ghost predicate AllSeen(pending: Option<Interactions>, seen: set<string>) {
    && pending.Some?
    && (forall i | 0 <= i < |pending.value.permissions| :: KeyOf("permission:", pending.value.permissions[i]) in seen)
    && (forall i | 0 <= i < |pending.value.questions| :: KeyOf("question:", pending.value.questions[i]) in seen)
  }

  lemma {:induction false} TurnIsFresh(pending: Option<Interactions>, seen: set<string>)
    ensures var a := TurnAnswers(pending, seen);
            && Fresh(a, seen)
            && (a.ok ==> AllSeen(pending, a.seen))
  {
    if pending.Some? {
      var first := AnswersTo("permission:", pending.value.permissions, Answering(true, seen, []));
      AnswersAreFresh("permission:", pending.value.permissions, Answering(true, seen, []), seen);
      if first.ok {
        AnswersAreFresh("question:", pending.value.questions, Answering(true, first.seen, []), first.seen);
        FreshAfter(first, AnswersTo("question:", pending.value.questions, Answering(true, first.seen, [])), seen);
      }
    }
  }

  lemma {:induction false} KeysAreFresh(polls: seq<Poll>)
    ensures Fresh(Answering(true, SeenBefore(polls), KeysAnswered(polls)), {})
  {
    if polls != [] {
      var n := |polls| - 1;
      KeysAreFresh(polls[..n]);
      TurnIsFresh(polls[n].interactions, SeenBefore(polls[..n]));
      FreshAfter(Answering(true, SeenBefore(polls[..n]), KeysAnswered(polls[..n])),
                 TurnAnswers(polls[n].interactions, SeenBefore(polls[..n])), {});
    }
  }

  lemma LogIsFresh(before: seq<string>, keys: seq<string>, all: set<string>, seen: set<string>)
    requires FreshKeys(keys, seen) && Joined(all, seen, keys)
    ensures AnsweredOnce(before, before + keys, seen) && SeenGrew(all, seen, before, before + keys)
  {
    assert (before + keys)[|before|..] == keys;
  }

  lemma TurnAnswersAreFresh(before: seq<string>, pending: Option<Interactions>, seen: set<string>)
    ensures var a := TurnAnswers(pending, seen);
            && AnsweredOnce(before, before + a.keys, seen) && SeenGrew(a.seen, seen, before, before + a.keys)
            && (a.ok ==> AllSeen(pending, a.seen))
  {
    var a := TurnAnswers(pending, seen);
    TurnIsFresh(pending, seen);
    LogIsFresh(before, a.keys, a.seen, seen);
  }

  lemma {:induction false} TwoLists(first: seq<string>, pending: Interactions, seen: set<string>, between: set<string>)
    requires AnswersTo("permission:", pending.permissions, Answering(true, seen, [])).ok
    requires between == AnswersTo("permission:", pending.permissions, Answering(true, seen, [])).seen
    ensures var a := AnswersTo("permission:", pending.permissions, Answering(true, seen, []));
            var b := AnswersTo("question:", pending.questions, Answering(true, between, []));
            && TurnAnswers(Some(pending), seen) == Answering(b.ok, b.seen, a.keys + b.keys)
            && first + a.keys + b.keys == first + (a.keys + b.keys)
  {
    Assoc(first, AnswersTo("permission:", pending.permissions, Answering(true, seen, [])).keys,
          AnswersTo("question:", pending.questions, Answering(true, between, [])).keys);
  }

  /** The interactions answered before a turn, if all turns before it went on. */
  function SeenBefore(polls: seq<Poll>): set<string> {
    if polls == [] then {}
    else TurnAnswers(polls[|polls| - 1].interactions, SeenBefore(polls[..|polls| - 1])).seen
  }

  function KeysAnswered(polls: seq<Poll>): seq<string> {
    if polls == [] then []
    else
      var n := |polls| - 1;
      KeysAnswered(polls[..n]) + TurnAnswers(polls[n].interactions, SeenBefore(polls[..n])).keys
  }

  /** The run still held after the observation, before the active runs are listed. */
  function Kept(slot: Option<Run>, poll: Poll): Option<Run> { if poll.observation.RunGone? then None else slot }

  predicate SettleFails(slot: Option<Run>, poll: Poll) {
    || (slot.Some? && poll.observation.ObserveFailed?)
    || (poll.active.None? && if SessionIdle(poll) then !Cleared(slot, poll) else Kept(slot, poll).None?)
  }

  /** The turn gets as far as printing its snapshot. */
  predicate Prints(poll: Poll, b: Baseline, seen: set<string>) {
    TurnAnswers(poll.interactions, seen).ok && poll.snapshot.Some? && Failure(poll.snapshot.value.messages, b).None?
  }

  /** The first thing that goes wrong in a turn. */
  function TurnError(slot: Option<Run>, poll: Poll, b: Baseline, seen: set<string>): (e: Option<RunError>)
    ensures e != Some(TimedOut)
    ensures !Prints(poll, b, seen) ==> e.Some?
  {
    if !TurnAnswers(poll.interactions, seen).ok then Some(if poll.interactions.None? then RequestFailed else InteractionFailed)
    else if poll.snapshot.None? then Some(RequestFailed)
    else if Failure(poll.snapshot.value.messages, b).Some? then Some(MessageFailed(Failure(poll.snapshot.value.messages, b).value))
    else if poll.snapshot.value.status == Retrying(true) then Some(OutOfPoints)
    else if SettleFails(slot, poll) then Some(RequestFailed)
    else None
  }

  /** The run held when a turn fails: the one held before it, unless the turn found that one gone. */
  function HeldAtFailure(slot: Option<Run>, poll: Poll, b: Baseline, seen: set<string>): Option<Run> {
    if Prints(poll, b, seen) && poll.snapshot.value.status != Retrying(true) then Kept(slot, poll) else slot
  }

  /** Turn i neither fails nor finds the run ended. */
  predicate GoesOn(start: Progress, polls: seq<Poll>, b: Baseline, session: string, i: nat) {
    && i < |polls|
    && var slot := After(start, polls[..i], b.texts, session).slot;
       TurnError(slot, polls[i], b, SeenBefore(polls[..i])).None? && !RunEnded(slot, polls[i], session)
  }

  ghost predicate AllGoOn(start: Progress, polls: seq<Poll>, b: Baseline, session: string, n: nat) {
    forall i: nat | i < n :: GoesOn(start, polls, b, session, i)
  }

  /** How a loop is left: the turns begun, those whose text was printed, and the run then held. */
  datatype Exit = Exit(begun: nat, shown: nat, held: Option<Run>)

  /** The loop is left at the first turn that fails or finds the run ended, or else at the deadline. */
  ghost predicate LeavesAt(r: Result<Outcome, RunError>, x: Exit, start: Progress, polls: seq<Poll>, b: Baseline, session: string) {
    && x.begun <= |polls|
    && if r == Err(TimedOut) then
         && x.begun == x.shown == |polls| && AllGoOn(start, polls, b, session, |polls|)
         && x.held == After(start, polls, b.texts, session).slot
       else
         && x.begun > 0 && AllGoOn(start, polls, b, session, x.begun - 1)
         && var last, seen := polls[x.begun - 1], SeenBefore(polls[..x.begun - 1]);
            var slot := After(start, polls[..x.begun - 1], b.texts, session).slot;
            && x.shown == (if Prints(last, b, seen) then x.begun else x.begun - 1)
            && TurnError(slot, last, b, seen) == (if r.Err? then Some(r.error) else None)
            && (r.Ok? ==> RunEnded(slot, last, session) && x.held == NextSlot(slot, last, session))
            && (r.Err? ==> x.held == HeldAtFailure(slot, last, b, seen))
  }

  /** The answers of the Server decide how the loop is left. */
  lemma {:induction false} ExitIsUnique(r: Result<Outcome, RunError>, x: Exit, r': Result<Outcome, RunError>, x': Exit,
                     start: Progress, polls: seq<Poll>, b: Baseline, session: string)
    requires LeavesAt(r, x, start, polls, b, session) && LeavesAt(r', x', start, polls, b, session)
    ensures x == x' && (r.Err? <==> r'.Err?) && (r.Err? ==> r == r')
  {
    LeavesOnce(r, x, r', x', start, polls, b, session);
    LeavesOnce(r', x', r, x, start, polls, b, session);
  }

  lemma {:induction false} LeavesOnce(r: Result<Outcome, RunError>, x: Exit, r': Result<Outcome, RunError>, x': Exit,
                   start: Progress, polls: seq<Poll>, b: Baseline, session: string)
    requires LeavesAt(r, x, start, polls, b, session) && LeavesAt(r', x', start, polls, b, session)
    ensures x.begun <= x'.begun && (r == Err(TimedOut) ==> r' == Err(TimedOut))
  {
    assert r' != Err(TimedOut) ==> !GoesOn(start, polls, b, session, x'.begun - 1);
  }

  lemma {:induction false} GoesOnInTurn(start: Progress, polls: seq<Poll>, b: Baseline, session: string, i: nat)
    requires i < |polls| && AllGoOn(start, polls, b, session, i)
    requires var slot := After(start, polls[..i], b.texts, session).slot;
             TurnError(slot, polls[i], b, SeenBefore(polls[..i])).None? && !RunEnded(slot, polls[i], session)
    ensures AllGoOn(start, polls, b, session, i + 1)
  {
  }

  /** Whether a stop has been accepted when the loop is left, and all the runs asked by then. */
  predicate StoppedBefore(r: Result<Outcome, RunError>, end: Progress, atDeadline: AbortAnswers, session: string) {
    end.stopped || (r == Err(TimedOut) && StopAccepted(end.slot, atDeadline, session))
  }

  function AskedBefore(r: Result<Outcome, RunError>, end: Progress, atDeadline: AbortAnswers, session: string): seq<Run> {
    end.asked + if r == Err(TimedOut) then Asks(end.slot, atDeadline, session) else []
  }

  /** What is printed, answered and asked when the loop is left. `first` is the log of answers before it. */
  ghost predicate LoopLeft(r: Result<Outcome, RunError>, x: Exit, start: Progress, polls: seq<Poll>, b: Baseline, session: string,
                           atDeadline: AbortAnswers, first: seq<string>, deltas: seq<Delta>, stopped: bool, asked: seq<Run>,
                           answered: seq<string>) {
    && LeavesAt(r, x, start, polls, b, session)
    && LoopResult(r, start, polls[..x.shown], b.texts, session, deltas)
    && stopped == StoppedBefore(r, After(start, polls[..x.begun], b.texts, session), atDeadline, session)
    && asked == AskedBefore(r, After(start, polls[..x.begun], b.texts, session), atDeadline, session)
    && answered == first + KeysAnswered(polls[..x.begun])
  }

  /** Between two turns: i turns have gone on, and this is what they have left behind. */
  ghost predicate LoopAt(start: Progress, polls: seq<Poll>, b: Baseline, session: string, first: seq<string>, i: nat, p: Progress,
                         seen: set<string>, answered: seq<string>) {
    && i <= |polls| && AllGoOn(start, polls, b, session, i) && p == After(start, polls[..i], b.texts, session)
    && seen == SeenBefore(polls[..i]) && answered == first + KeysAnswered(polls[..i])
  }

  lemma {:induction false} FailsInTurn(error: RunError, x: Exit, start: Progress, polls: seq<Poll>, b: Baseline, session: string, i: nat)
    requires i < |polls| && AllGoOn(start, polls, b, session, i)
    requires var slot, seen := After(start, polls[..i], b.texts, session).slot, SeenBefore(polls[..i]);
             && TurnError(slot, polls[i], b, seen) == Some(error)
             && x == Exit(i + 1, if Prints(polls[i], b, seen) then i + 1 else i, HeldAtFailure(slot, polls[i], b, seen))
    ensures LeavesAt(Err(error), x, start, polls, b, session)
  {
  }

  lemma {:induction false} EndsInTurn(o: Outcome, x: Exit, start: Progress, polls: seq<Poll>, b: Baseline, session: string, i: nat)
    requires i < |polls| && AllGoOn(start, polls, b, session, i)
    requires var slot := After(start, polls[..i], b.texts, session).slot;
             && TurnError(slot, polls[i], b, SeenBefore(polls[..i])).None? && RunEnded(slot, polls[i], session)
             && x == Exit(i + 1, i + 1, NextSlot(slot, polls[i], session))
    ensures LeavesAt(Ok(o), x, start, polls, b, session)
  {
  }

  /** The logs after a failing turn, given those before it. */
  lemma {:induction false} FailsWithLogs(error: RunError, x: Exit, start: Progress, polls: seq<Poll>, b: Baseline, session: string, i: nat,
                                         atDeadline: AbortAnswers, first: seq<string>, p: Progress)
    requires i < |polls| && p == After(start, polls[..i], b.texts, session) && error != TimedOut
    requires LeavesAt(Err(error), x, start, polls, b, session) && x.begun == i + 1
    ensures var end := WithStop(p, polls[i], session);
            var deltas := (if x.shown == i + 1 then Step(p, polls[i], b.texts, session) else p).display.deltas;
            LoopLeft(Err(error), x, start, polls, b, session, atDeadline, first, deltas, end.stopped, end.asked,
                     first + KeysAnswered(polls[..i + 1]))
  {
    AfterNext(start, polls, i, b.texts, session);
  }

  lemma {:induction false} EndsWithLogs(o: Outcome, x: Exit, start: Progress, polls: seq<Poll>, b: Baseline, session: string, i: nat,
                                        atDeadline: AbortAnswers, first: seq<string>, p: Progress)
    requires i < |polls| && p == After(start, polls[..i], b.texts, session)
    requires RunEnded(p.slot, polls[i], session) && x.shown == i + 1
    requires LeavesAt(Ok(o), x, start, polls, b, session) && x.begun == i + 1
    requires o == Outcome(FinalText(PartsShown(polls[i]), b.texts), session, Step(p, polls[i], b.texts, session).stopped)
    ensures var end := Step(p, polls[i], b.texts, session);
            LoopLeft(Ok(o), x, start, polls, b, session, atDeadline, first, end.display.deltas, end.stopped, end.asked,
                     first + KeysAnswered(polls[..i + 1]))
  {
    AfterNext(start, polls, i, b.texts, session);
    assert polls[..i + 1][..i] == polls[..i];
  }

  lemma {:induction false} EndsAtDeadline(start: Progress, polls: seq<Poll>, b: Baseline, session: string, atDeadline: AbortAnswers, first: seq<string>)
    requires AllGoOn(start, polls, b, session, |polls|)
    ensures var end := After(start, polls, b.texts, session);
            LoopLeft(Err(TimedOut), Exit(|polls|, |polls|, end.slot), start, polls, b, session, atDeadline, first, end.display.deltas,
                     end.stopped || StopAccepted(end.slot, atDeadline, session), end.asked + Asks(end.slot, atDeadline, session),
                     first + KeysAnswered(polls))
  {
    assert polls[..|polls|] == polls;
  }

  /** All the runs asked to stop once the prompt is over: a run still held at a failure is the last of them,
      unless a stop has been accepted. */
  function AskedInAll(r: Result<Outcome, RunError>, end: Progress, held: Option<Run>, atDeadline: AbortAnswers, session: string): seq<Run> {
    AskedBefore(r, end, atDeadline, session)
    + if r.Err? && held.Some? && !StoppedBefore(r, end, atDeadline, session) then [held.value] else []
  }

  /** When a run still held at a failure has been asked to stop during the call: exactly at the deadline, or
      while no stop had been accepted, or if one of the user's stop requests named that run. */
  lemma {:induction false} AskedIff(r: Result<Outcome, RunError>, x: Exit, start: Progress, polls: seq<Poll>, b: Baseline, session: string,
                 atDeadline: AbortAnswers)
    requires LeavesAt(r, x, start, polls, b, session) && r.Err? && x.held.Some?
    ensures var end := After(start, polls[..x.begun], b.texts, session);
            var all := AskedInAll(r, end, x.held, atDeadline, session);
            && start.asked <= end.asked <= all
            && (x.held.value in all[|start.asked|..] <==>
                  r == Err(TimedOut) || !end.stopped || x.held.value in end.asked[|start.asked|..])
  {
    AskedGrow(start, polls[..x.begun], b.texts, session);
    if r == Err(TimedOut) {
      assert polls[..x.begun] == polls;
    }
    HeldWasAsked(r, After(start, polls[..x.begun], b.texts, session), x.held.value, |start.asked|, atDeadline, session);
  }

  lemma {:induction false} HeldWasAsked(r: Result<Outcome, RunError>, end: Progress, held: Run, before: nat, atDeadline: AbortAnswers,
                                        session: string)
    requires r.Err? && before <= |end.asked| && (r == Err(TimedOut) ==> end.slot == Some(held))
    ensures var all := AskedInAll(r, end, Some(held), atDeadline, session);
            && end.asked <= all
            && (held in all[before..] <==> r == Err(TimedOut) || !end.stopped || held in end.asked[before..])
  {
    var all := AskedInAll(r, end, Some(held), atDeadline, session);
    var more := all[|end.asked|..];
    assert all[before..] == end.asked[before..] + more;
    if r == Err(TimedOut) {
      assert more[0] == held;
    } else {
      assert more == if end.stopped then [] else [held];
    }
  }

  /** An accepted stop outlives the run it was for. Run a is held and the user stops it; it goes, and another
      run b of the session is held instead; then the Server fails to answer. The prompt fails with b still
      running and held, and b was never asked to stop. */
  lemma {:induction false} StopForAnotherRun(r: Result<Outcome, RunError>, x: Exit, start: Progress, first: Poll, second: Poll, b: Baseline,
                          session: string, atDeadline: AbortAnswers, held: Run, other: Run)
    requires start.slot == Some(held) && !start.stopped && other.session == session && other != held && other !in start.asked
    requires first.stop.Some? && first.stop.value.answer.Accepted? && first.interactions == Some(Interactions([], []))
    requires first.snapshot.Some? && first.snapshot.value.status.Busy? && Failure(first.snapshot.value.messages, b).None?
    requires first.observation == RunGone && first.active == Some([other])
    requires second.stop.None? && second.interactions.None?
    requires LeavesAt(r, x, start, [first, second], b, session)
    ensures r == Err(RequestFailed) && x == Exit(2, 1, Some(other))
    ensures var end := After(start, [first, second], b.texts, session);
            AskedInAll(r, end, x.held, atDeadline, session) == start.asked + [held] && other !in start.asked + [held]
  {
    var polls := [first, second];
    TwoTurns(start, first, second, b.texts, session);
    assert FindRun([other], session) == Some(other);
    assert SeenBefore(polls[..0]) == {} && polls[..1] == [first] && polls[..2] == polls;
    assert GoesOn(start, polls, b, session, 0);
    assert !GoesOn(start, polls, b, session, 1);
  }

  lemma {:induction false} TwoTurns(start: Progress, first: Poll, second: Poll, texts: map<string, string>, session: string)
    ensures After(start, [first, second][..0], texts, session) == start
    ensures After(start, [first, second][..1], texts, session) == Step(start, first, texts, session)
    ensures After(start, [first, second], texts, session) == Step(Step(start, first, texts, session), second, texts, session)
  {
    assert [first, second][..0] == [] && [first, second][..1] == [first] && [first][..0] == [];
  }

  lemma {:induction false} KeysNext(first: seq<string>, polls: seq<Poll>, i: nat)
    requires i < |polls|
    ensures SeenBefore(polls[..i + 1]) == TurnAnswers(polls[i].interactions, SeenBefore(polls[..i])).seen
    ensures first + KeysAnswered(polls[..i + 1])
         == first + KeysAnswered(polls[..i]) + TurnAnswers(polls[i].interactions, SeenBefore(polls[..i])).keys
  {
    assert polls[..i + 1][..i] == polls[..i];
    Assoc(first, KeysAnswered(polls[..i]), TurnAnswers(polls[i].interactions, SeenBefore(polls[..i])).keys);
  }

  lemma {:induction false} AfterNext(p: Progress, polls: seq<Poll>, i: nat, texts: map<string, string>, session: string)
    requires i < |polls|
    ensures After(p, polls[..i + 1], texts, session) == Step(After(p, polls[..i], texts, session), polls[i], texts, session)
  {
    assert polls[..i + 1][..i] == polls[..i];
  }

  lemma {:induction false} AskedGrow(p: Progress, polls: seq<Poll>, texts: map<string, string>, session: string)
    ensures p.asked <= After(p, polls, texts, session).asked
  {
    if polls != [] {
      AskedGrow(p, polls[..|polls| - 1], texts, session);
    }
  }

  class SessionController {
    var session: Option<string>
    var currentRun: Option<Run>
    var abortRequested: bool
    var lastText: string
    /** What went out: printed deltas, answered interactions, runs asked to stop. */
    var deltas: seq<Delta>
    var answered: seq<string>
    var aborts: seq<Run>

    constructor ()
      ensures session == None && currentRun == None && !abortRequested && lastText == ""
      ensures deltas == [] && answered == [] && aborts == []
    {
      session, currentRun, abortRequested, lastText := None, None, false, "";
      deltas, answered, aborts := [], [], [];
    }

    /** Asks the Server to stop the held run, or else the active run of the session. */
    method AbortCurrentRun(answers: AbortAnswers) returns (r: Result<bool, RunError>)
      requires session.Some?
      modifies `abortRequested, `aborts
      ensures r == Ok(true) <==> StopAccepted(currentRun, answers, session.value)
      ensures abortRequested == (old(abortRequested) || r == Ok(true))
      ensures aborts == old(aborts) + Asks(currentRun, answers, session.value)
    {
      var run := currentRun;
      if run.None? {
        if answers.active.None? {
          return Err(RequestFailed);
        }
        run := FindRun(answers.active.value, session.value);
      }
      if run.None? {
        return Ok(false);
      }
      aborts := aborts + [run.value];
      match answers.answer {
        case Refused => return Ok(false);
        case AbortGone => return Ok(false);
        case AbortFailed => return Err(RequestFailed);
        case Accepted =>
          abortRequested := true;
          return Ok(true);
      }
    }

    /** One list of interactions: those not seen yet are asked and answered, until one fails. */
    method AnswerAll(prefix: string, items: seq<Interaction>, seen: set<string>)
      returns (ok: bool, seen': set<string>)
      modifies `answered
      ensures var a := AnswersTo(prefix, items, Answering(true, seen, []));
              ok == a.ok && seen' == a.seen && answered == old(answered) + a.keys
    {
      seen' := seen;
      ghost var keys: seq<string> := [];
      assert items[0..] == items;
      for i := 0 to |items|
        invariant answered == old(answered) + keys
        invariant AnswersTo(prefix, items[i..], Answering(true, seen', keys)) == AnswersTo(prefix, items, Answering(true, seen, []))
      {
        var key := KeyOf(prefix, items[i]);
        assert items[i..][0] == items[i] && items[i..][1..] == items[i + 1..];
        if key !in seen' {
          if !items[i].handled {
            return false, seen';
          }
          keys := keys + [key];
          answered := answered + [key];
          seen' := seen' + {key};
        }
      }
      ok := true;
    }

    /** `resolveInteractions`: permissions first, then questions. */
    method ResolveInteractions(pending: Option<Interactions>, seen: set<string>) returns (r: Result<set<string>, RunError>)
      modifies `answered
      ensures AnsweredOnce(old(answered), answered, seen)
      ensures r.Ok? ==> SeenGrew(r.value, seen, old(answered), answered)
      ensures r.Ok? && session.Some? ==> AllSeen(pending, r.value)
      ensures session.Some? ==>
                var a := TurnAnswers(pending, seen);
                && answered == old(answered) + a.keys
                && r == if a.ok then Ok(a.seen) else Err(if pending.None? then RequestFailed else InteractionFailed)
    {
      LogIsFresh(old(answered), [], seen, seen);
      TurnAnswersAreFresh(old(answered), pending, seen);
      if session.None? {
        return Ok(seen);
      }
      if pending.None? {
        return Err(RequestFailed);
      }
      var ok, afterPermissions := AnswerAll("permission:", pending.value.permissions, seen);
      if !ok {
        return Err(InteractionFailed);
      }
      var okQuestions, afterQuestions := AnswerAll("question:", pending.value.questions, afterPermissions);
      TwoLists(old(answered), pending.value, seen, afterPermissions);
      r := if okQuestions then Ok(afterQuestions) else Err(InteractionFailed);
    }

    /** The text of one snapshot: prints what each changed part grew by. */
    method PrintText(parts: seq<TextPart>, printed: map<string, string>) returns (printed': map<string, string>)
      modifies `deltas
      ensures var d := PrintParts(Display(printed, old(deltas)), parts); printed' == d.printed && deltas == d.deltas
    {
      printed' := printed;
      for i := 0 to |parts|
        invariant Display(printed', deltas) == PrintParts(Display(printed, old(deltas)), parts[..i])
      {
        assert parts[..i + 1][..i] == parts[..i];
        var part := parts[i];
        var previous := Get(printed', part.key);
        if part.text != previous {
          deltas := deltas + [Delta(part.key, DeltaText(part.text, previous))];
          printed' := printed'[part.key := part.text];
        }
      }
      assert parts[..|parts|] == parts;
    }

    /** The end of a turn: has the run ended, and which run is held now? */
    method SettleRun(id: string, poll: Poll) returns (r: Result<bool, RunError>)
      modifies `currentRun
      ensures r.Ok? ==> currentRun == NextSlot(old(currentRun), poll, id)
      ensures r.Ok? && SessionIdle(poll) ==> r.value == RunEnded(old(currentRun), poll, id)
      ensures r.Ok? && SessionIdle(poll) && !r.value ==> currentRun.Some? && currentRun.value.session == id
      ensures r.Err? <==> SettleFails(old(currentRun), poll)
      ensures r.Err? ==> r.error == RequestFailed && currentRun == Kept(old(currentRun), poll)
    {
      var terminal := false;
      if currentRun.Some? {
        match poll.observation {
          case Observed(cleared) => terminal := cleared;
          case RunGone => currentRun := None;
          case ObserveFailed => return Err(RequestFailed);
        }
      }
      if SessionIdle(poll) && !terminal {
        if poll.active.None? {
          return Err(RequestFailed);
        }
        var activeRun := FindRun(poll.active.value, id);
        if activeRun.Some? {
          currentRun := activeRun;
        } else {
          terminal := true;
        }
      } else if !SessionIdle(poll) && currentRun.None? {
        if poll.active.None? {
          return Err(RequestFailed);
        }
        currentRun := FindRun(poll.active.value, id);
      }
      r := Ok(terminal);
    }

    /** One turn of the loop. `shown` says that the snapshot's text was printed. */
    method TakeTurn(id: string, poll: Poll, baseline: Baseline, seen: set<string>, printed: map<string, string>)
      returns (r: Result<bool, RunError>, seen': set<string>, printed': map<string, string>, finalText: string,
               ghost shown: bool)
      requires session == Some(id)
      modifies `currentRun, `abortRequested, `deltas, `answered, `aborts
      ensures AnsweredOnce(old(answered), answered, seen)
      ensures Display(printed', deltas)
           == if shown then PrintParts(Display(printed, old(deltas)), Changed(PartsShown(poll), baseline.texts))
              else Display(printed, old(deltas))
      ensures r.Ok? ==> shown && SeenGrew(seen', seen, old(answered), answered)
      ensures var start := Progress(Display(printed, old(deltas)), old(currentRun), old(abortRequested), old(aborts));
              && (r.Ok? ==> Progress(Display(printed', deltas), currentRun, abortRequested, aborts)
                            == Step(start, poll, baseline.texts, id))
              && abortRequested == WithStop(start, poll, id).stopped && aborts == WithStop(start, poll, id).asked
      ensures r.Ok? ==> finalText == FinalText(PartsShown(poll), baseline.texts)
      ensures r.Ok? ==> r.value == RunEnded(old(currentRun), poll, id)
      ensures TurnError(old(currentRun), poll, baseline, seen) == if r.Err? then Some(r.error) else None
      ensures shown <==> Prints(poll, baseline, seen)
      ensures r.Err? ==> currentRun == HeldAtFailure(old(currentRun), poll, baseline, seen)
      ensures answered == old(answered) + TurnAnswers(poll.interactions, seen).keys
      ensures r.Ok? ==> seen' == TurnAnswers(poll.interactions, seen).seen
    {
      seen', printed', finalText, shown := seen, printed, "", false;
      if poll.stop.Some? {
        var _ := AbortCurrentRun(poll.stop.value);
      }
      var resolved := ResolveInteractions(poll.interactions, seen);
      if resolved.Err? {
        return Err(resolved.error), seen', printed', finalText, shown;
      }
      seen' := resolved.value;
      if poll.snapshot.None? {
        return Err(RequestFailed), seen', printed', finalText, shown;
      }
      var snapshot := poll.snapshot.value;
      var failure := Failure(snapshot.messages, baseline);
      if failure.Some? {
        return Err(MessageFailed(failure.value)), seen', printed', finalText, shown;
      }
      var parts := TextParts(snapshot.messages);
      finalText := FinalText(parts, baseline.texts);
      printed' := PrintText(Changed(parts, baseline.texts), printed);
      shown := true;
      if snapshot.status == Retrying(true) {
        return Err(OutOfPoints), seen', printed', finalText, shown;
      }
      var terminal := SettleRun(id, poll);
      r := match terminal
        case Ok(ended) => Ok(SessionIdle(poll) && ended)
        case Err(error) => Err(error);
    }

    /** One round of the loop: a turn, and what it means for the loop. */
    method NextTurn(id: string, polls: seq<Poll>, i: nat, baseline: Baseline, seen: set<string>, printed: map<string, string>,
                    ghost start: Progress, ghost first: seq<string>, ghost atDeadline: AbortAnswers)
      returns (r: Option<Result<Outcome, RunError>>, seen': set<string>, printed': map<string, string>, ghost x: Exit)
      requires session == Some(id) && i < |polls|
      requires LoopAt(start, polls, baseline, id, first, i, Progress(Display(printed, deltas), currentRun, abortRequested, aborts),
                      seen, answered)
      modifies `currentRun, `abortRequested, `lastText, `deltas, `answered, `aborts
      ensures r.None? ==> LoopAt(start, polls, baseline, id, first, i + 1,
                                 Progress(Display(printed', deltas), currentRun, abortRequested, aborts), seen', answered)
      ensures r.Some? ==> currentRun == x.held && LoopLeft(r.value, x, start, polls, baseline, id, atDeadline, first,
                                                           deltas, abortRequested, aborts, answered)
      ensures lastText == if r.Some? && r.value.Ok? then r.value.value.text else old(lastText)
    {
      AfterNext(start, polls, i, baseline.texts, id);
      KeysNext(first, polls, i);
      ghost var p := Progress(Display(printed, deltas), currentRun, abortRequested, aborts);
      var ended, finalText;
      ghost var shown;
      ended, seen', printed', finalText, shown := TakeTurn(id, polls[i], baseline, seen, printed);
      x := Exit(i + 1, if shown then i + 1 else i, currentRun);
      if ended.Err? {
        FailsInTurn(ended.error, x, start, polls, baseline, id, i);
        FailsWithLogs(ended.error, x, start, polls, baseline, id, i, atDeadline, first, p);
        return Some(Err(ended.error)), seen', printed', x;
      }
      if ended.value {
        lastText := finalText;
        var outcome := Outcome(finalText, id, abortRequested);
        EndsInTurn(outcome, x, start, polls, baseline, id, i);
        EndsWithLogs(outcome, x, start, polls, baseline, id, i, atDeadline, first, p);
        return Some(Ok(outcome)), seen', printed', x;
      }
      GoesOnInTurn(start, polls, baseline, id, i);
      r := None;
    }

    /** The loop: turns are taken until the run has ended, a step fails or the deadline passes. */
    method PollUntilEnded(id: string, polls: seq<Poll>, baseline: Baseline, atDeadline: AbortAnswers)
      returns (r: Result<Outcome, RunError>, ghost x: Exit)
      requires session == Some(id)
      modifies `currentRun, `abortRequested, `lastText, `deltas, `answered, `aborts
      ensures currentRun == x.held
      ensures LoopLeft(r, x, Progress(Display(baseline.texts, old(deltas)), old(currentRun), old(abortRequested), old(aborts)),
                       polls, baseline, id, atDeadline, old(answered), deltas, abortRequested, aborts, answered)
      ensures r.Ok? ==> lastText == r.value.text
      ensures r.Err? ==> lastText == old(lastText)
    {
      var seen, printed := {}, baseline.texts;
      ghost var start := Progress(Display(baseline.texts, deltas), currentRun, abortRequested, aborts);
      for i := 0 to |polls|
        invariant session == Some(id) && lastText == old(lastText)
        invariant LoopAt(start, polls, baseline, id, old(answered), i, Progress(Display(printed, deltas), currentRun, abortRequested, aborts),
                         seen, answered)
      {
        var left;
        left, seen, printed, x := NextTurn(id, polls, i, baseline, seen, printed, start, old(answered), atDeadline);
        if left.Some? {
          return left.value, x;
        }
      }
      assert polls[..|polls|] == polls;
      EndsAtDeadline(start, polls, baseline, id, atDeadline, old(answered));
      x := Exit(|polls|, |polls|, currentRun);
      var _ := AbortCurrentRun(atDeadline);
      r := Err(TimedOut);
    }

    /** The `catch` and `finally`: a run still held at a failure is asked to stop unless a stop was accepted. */
    method LeaveLoop(failed: bool, atFailure: AbortAnswers)
      requires session.Some?
      modifies `currentRun, `abortRequested, `aborts
      ensures currentRun == None
      ensures aborts == if failed && old(currentRun).Some? && !old(abortRequested)
                        then old(aborts) + [old(currentRun).value] else old(aborts)
    {
      if failed && currentRun.Some? && !abortRequested {
        var _ := AbortCurrentRun(atFailure);
      }
      currentRun := None;
    }

    /** The loop with its `catch` and `finally`. */
    method PollGuarded(id: string, polls: seq<Poll>, baseline: Baseline, atDeadline: AbortAnswers, atFailure: AbortAnswers)
      returns (r: Result<Outcome, RunError>, ghost x: Exit)
      requires session == Some(id)
      modifies `currentRun, `abortRequested, `lastText, `deltas, `answered, `aborts
      ensures AnsweredOnce(old(answered), answered, {})
      ensures var start := Progress(Display(baseline.texts, old(deltas)), old(currentRun), old(abortRequested), old(aborts));
              && LeavesAt(r, x, start, polls, baseline, id)
              && LoopResult(r, start, polls[..x.shown], baseline.texts, id, deltas)
              && aborts == AskedInAll(r, After(start, polls[..x.begun], baseline.texts, id), x.held, atDeadline, id)
      ensures answered == old(answered) + KeysAnswered(polls[..x.begun])
      ensures r.Ok? ==> lastText == r.value.text
      ensures r.Err? ==> lastText == old(lastText)
      ensures currentRun == None
    {
      r, x := PollUntilEnded(id, polls, baseline, atDeadline);
      KeysAreFresh(polls[..x.begun]);
      LogIsFresh(old(answered), KeysAnswered(polls[..x.begun]), SeenBefore(polls[..x.begun]), {});
      LeaveLoop(r.Err?, atFailure);
    }

    /** Everything before the loop: the session, its state before the prompt, and the started run. */
    method Begin(prompt: string, model: string, setup: Setup) returns (r: Result<(string, Baseline), RunError>)
      modifies `session, `lastText, `abortRequested, `currentRun
      ensures UrlText.Trim(prompt, UrlText.JsWhitespace) == "" ==> r == Err(EmptyPrompt)
      ensures BeginError(prompt, model, setup, old(session)) == if r.Err? then Some(r.error) else None
      ensures r.Ok? ==> session == SessionOf(setup, old(session)) == Some(r.value.0) && r.value.1 == TakeBaseline(setup.before.value)
      ensures r.Ok? ==> currentRun == FirstSlot(setup.start, r.value.0) && !abortRequested
      ensures r.Err? ==> currentRun == old(currentRun) && r != Err(TimedOut)
    {
      if UrlText.Trim(prompt, UrlText.JsWhitespace) == "" {
        return Err(EmptyPrompt);
      }
      if session.None? {
        if setup.session.None? {
          return Err(RequestFailed);
        }
        session, lastText := setup.session, "";
      }
      if setup.before.None? {
        return Err(RequestFailed);
      }
      if !ModelOk(model) {
        return Err(BadModel);
      }
      abortRequested := false;
      if setup.start.NotStarted? || (setup.start.Steered? && setup.start.active.None?) {
        return Err(RequestFailed);
      }
      currentRun := FirstSlot(setup.start, session.value);
      r := Ok((session.value, TakeBaseline(setup.before.value)));
    }

    /** `runPrompt`. What it returns, prints, answers and asks to stop is decided by what the Server answers. */
    method RunPrompt(prompt: string, model: string, setup: Setup, polls: seq<Poll>, atDeadline: AbortAnswers, atFailure: AbortAnswers)
      returns (r: Result<Outcome, RunError>, ghost x: Exit)
      modifies this
      ensures AnsweredOnce(old(answered), answered, {})
      ensures BeginError(prompt, model, setup, old(session)).Some? ==>
                && r == Err(BeginError(prompt, model, setup, old(session)).value) && x == Exit(0, 0, None)
                && (deltas, answered, aborts, currentRun) == old((deltas, answered, aborts, currentRun))
      ensures BeginError(prompt, model, setup, old(session)).None? ==>
                && session == SessionOf(setup, old(session)) && currentRun == None
                && PromptExit(r, x, old(deltas), old(aborts), setup, polls, session.value)
                && PromptResult(r, old(deltas), old(aborts), setup, polls[..x.shown], session.value, deltas)
                && answered == old(answered) + KeysAnswered(polls[..x.begun])
                && aborts == AskedInAll(r, PromptProgress(old(deltas), old(aborts), setup, polls[..x.begun], session.value), x.held,
                                        atDeadline, session.value)
      ensures r.Ok? ==> lastText == r.value.text
      ensures old(currentRun) == None ==> currentRun == None
      ensures UrlText.Trim(prompt, UrlText.JsWhitespace) == "" ==> r == Err(EmptyPrompt)
      ensures r == Err(TimedOut) ==> x.begun == x.shown == |polls|
    {
      x := Exit(0, 0, None);
      var entered := Begin(prompt, model, setup);
      if entered.Err? {
        return Err(entered.error), x;
      }
      r, x := PollGuarded(entered.value.0, polls, entered.value.1, atDeadline, atFailure);
    }
  }

  /** Where the loop of a prompt starts: the deltas and stop requests logged before it are kept. */
  function PromptStart(first: seq<Delta>, asked: seq<Run>, setup: Setup, session: string): Progress
    requires setup.before.Some?
  {
    Progress(Display(TakeBaseline(setup.before.value).texts, first), FirstSlot(setup.start, session), false, asked)
  }

  /** What goes wrong before the loop, if anything. */
  function BeginError(prompt: string, model: string, setup: Setup, session: Option<string>): (e: Option<RunError>)
    ensures e.None? ==> SessionOf(setup, session).Some? && setup.before.Some?
  {
    if UrlText.Trim(prompt, UrlText.JsWhitespace) == "" then Some(EmptyPrompt)
    else if SessionOf(setup, session).None? || setup.before.None? then Some(RequestFailed)
    else if !ModelOk(model) then Some(BadModel)
    else if setup.start.NotStarted? || (setup.start.Steered? && setup.start.active.None?) then Some(RequestFailed)
    else None
  }

  function SessionOf(setup: Setup, session: Option<string>): Option<string> { if session.None? then setup.session else session }

  ghost predicate PromptExit(
    r: Result<Outcome, RunError>, x: Exit, first: seq<Delta>, asked: seq<Run>, setup: Setup, polls: seq<Poll>, session: string)
    requires setup.before.Some?
  {
    LeavesAt(r, x, PromptStart(first, asked, setup, session), polls, TakeBaseline(setup.before.value), session)
  }

  function PromptProgress(first: seq<Delta>, asked: seq<Run>, setup: Setup, taken: seq<Poll>, session: string): Progress
    requires setup.before.Some?
  {
    After(PromptStart(first, asked, setup, session), taken, TakeBaseline(setup.before.value).texts, session)
  }

  ghost predicate PromptResult(
    r: Result<Outcome, RunError>, first: seq<Delta>, asked: seq<Run>, setup: Setup, taken: seq<Poll>, session: string,
    deltas: seq<Delta>)
    requires setup.before.Some?
  {
    LoopResult(r, PromptStart(first, asked, setup, session), taken, TakeBaseline(setup.before.value).texts, session, deltas)
  }

  /** What a caller of `RunPrompt` may rely on: a returned text is the newline join of what was printed
      during the call, provided the session's texts only grew; and the last turn found the session idle
      and its run cleared or gone. */
  lemma PromptResultMeans(
    r: Result<Outcome, RunError>, first: seq<Delta>, asked: seq<Run>, setup: Setup, taken: seq<Poll>, session: string,
    deltas: seq<Delta>)
    requires setup.before.Some? && PromptResult(r, first, asked, setup, taken, session, deltas)
    ensures first <= deltas
    ensures var texts := TakeBaseline(setup.before.value).texts;
            AppendOnly(texts, SnapshotsOf(taken)) ==>
              (forall key :: Get(texts, key) + Stream(deltas[|first|..], key) == Get(Latest(texts, SnapshotsOf(taken)), key))
    ensures var texts := TakeBaseline(setup.before.value).texts;
            r.Ok? && AppendOnly(texts, SnapshotsOf(taken)) ==>
              r.value.text == Join(Streams(Changed(PartsShown(taken[|taken| - 1]), texts), deltas[|first|..]), "\n")
    ensures r.Ok? ==> SessionIdle(taken[|taken| - 1])
    ensures r.Ok? ==> taken[|taken| - 1].observation == Observed(true) || NoneActive(taken[|taken| - 1], session)
    ensures var start, texts := PromptStart(first, asked, setup, session), TakeBaseline(setup.before.value).texts;
            r.Ok? ==> (r.value.aborted <==> exists i: nat :: StoppedAt(start, taken, texts, session, i))
  {
    var texts := TakeBaseline(setup.before.value).texts;
    var start := PromptStart(first, asked, setup, session);
    var snapshots := SnapshotsOf(taken);
    AfterPrints(start, taken, texts, session);
    if After(start, taken, texts, session).stopped {
      var i := WhoStopped(start, taken, texts, session);
    } else {
      forall i: nat ensures !StoppedAt(start, taken, texts, session, i) {
        NoneStopped(start, taken, texts, session, i);
      }
    }
    assert deltas[|first|..] == Shown(texts, snapshots).deltas;
    if AppendOnly(texts, snapshots) {
      forall key ensures Get(texts, key) + Stream(deltas[|first|..], key) == Get(Latest(texts, snapshots), key) {
        StreamsAreFaithful(texts, snapshots, key);
      }
      if r.Ok? {
        ReturnedTextIsWhatWasPrinted(texts, snapshots, Changed(PartsShown(taken[|taken| - 1]), texts));
      }
    }
  }
}
