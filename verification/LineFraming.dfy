/**
 The pipe between the installer and its child server (apps/installer/src/index.ts,
 `startChildInstallerServer`): standard output arrives in arbitrary chunks and is cut into lines, the
 first line that announces the server settles the start, and so do a spawn error or an early exit.
 */
module LineFraming {
  import opened Common
  import opened Json
  import opened UrlText

  // ---- Framing ------------------------------------------------------------------------------------

  /** The newline-terminated lines of a text, without their newlines. */
  function Lines(text: string): seq<string>
    decreases |text|
  {
    var i := IndexOf(text, '\n');
    if i == |text| then [] else [text[..i]] + Lines(text[i + 1..])
  }

  /** What follows the last newline. */
  function Rest(text: string): string
    decreases |text|
  {
    var i := IndexOf(text, '\n');
    if i == |text| then text else Rest(text[i + 1..])
  }

  /** Each line with the newline that ends it. */
  function Terminated(lines: seq<string>): string {
    if lines == [] then "" else lines[0] + ['\n'] + Terminated(lines[1..])
  }

  ghost predicate NoNewlines(lines: seq<string>) { forall i | 0 <= i < |lines| :: '\n' !in lines[i] }

  /** The text cut at every newline. */
  ghost predicate IsCut(text: string, lines: seq<string>, rest: string) {
    text == Terminated(lines) + rest && NoNewlines(lines) && '\n' !in rest
  }

  lemma CutOneMore(line: string, after: string, lines: seq<string>, rest: string)
    requires '\n' !in line && IsCut(after, lines, rest)
    ensures IsCut(line + ['\n'] + after, [line] + lines, rest)
  {
    assert ([line] + lines)[1..] == lines;
    Assoc(line + ['\n'], Terminated(lines), rest);
  }

  lemma {:induction false} LinesAreTheCut(text: string)
    ensures IsCut(text, Lines(text), Rest(text))
    decreases |text|
  {
    var i := IndexOf(text, '\n');
    if i == |text| {
      assert Lines(text) == [] && Rest(text) == text && Terminated([]) == [];
      assert [] + text == text;
    } else {
      var line, after := text[..i], text[i + 1..];
      assert line + ['\n'] + after == text;
      LinesAreTheCut(after);
      CutOneMore(line, after, Lines(after), Rest(after));
      assert Lines(text) == [line] + Lines(after) && Rest(text) == Rest(after);
    }
  }

  lemma FirstNewline(line: string, after: string, text: string)
    requires text == line + ['\n'] + after && '\n' !in line
    ensures IndexOf(text, '\n') == |line| < |text| && text[..|line|] == line && text[|line| + 1..] == after
  {
    assert text[..|line|] == line && text[|line|] == '\n';
    IndexOfIs(text, '\n', |line|);
  }

  /** There is only one way to cut a text at its newlines. */
  lemma {:induction false} OneCut(text: string, lines: seq<string>, rest: string)
    requires IsCut(text, lines, rest)
    ensures lines == Lines(text) && rest == Rest(text)
    decreases |lines|
  {
    if lines == [] {
      NothingToCut(text, rest);
    } else {
      var line, others := lines[0], lines[1..];
      var after := Terminated(others) + rest;
      Assoc(line + ['\n'], Terminated(others), rest);
      FirstNewline(line, after, text);
      assert '\n' !in line && forall i | 0 <= i < |others| :: others[i] == lines[i + 1];
      assert IsCut(after, others, rest);
      OneCut(after, others, rest);
      assert lines == [line] + others;
    }
  }

  lemma NothingToCut(text: string, rest: string)
    requires text == [] + rest && '\n' !in rest
    ensures Lines(text) == [] && Rest(text) == rest
  {
    assert text == rest;
    assert forall i | 0 <= i < |text| :: text[i] in text;
  }

  lemma {:induction false} TerminatedAppend(a: seq<string>, b: seq<string>)
    ensures Terminated(a + b) == Terminated(a) + Terminated(b)
  {
    if a == [] {
      assert a + b == b;
    } else {
      TerminatedAppend(a[1..], b);
      assert (a + b)[0] == a[0] && (a + b)[1..] == a[1..] + b;
      Assoc(a[0] + ['\n'], Terminated(a[1..]), Terminated(b));
    }
  }

  lemma CutsJoin(text: string, lines: seq<string>, rest: string, more: string, moreLines: seq<string>, moreRest: string)
    requires IsCut(text, lines, rest) && IsCut(rest + more, moreLines, moreRest)
    ensures IsCut(text + more, lines + moreLines, moreRest)
  {
    TerminatedAppend(lines, moreLines);
    Assoc(Terminated(lines), rest, more);
    Assoc(Terminated(lines), Terminated(moreLines), moreRest);
  }

  /** More text extends the unterminated rest and leaves the lines before it alone. */
  lemma {:induction false} CutAppend(text: string, more: string)
    ensures Lines(text + more) == Lines(text) + Lines(Rest(text) + more)
    ensures Rest(text + more) == Rest(Rest(text) + more)
  {
    var tail := Rest(text) + more;
    LinesAreTheCut(text);
    LinesAreTheCut(tail);
    CutsJoin(text, Lines(text), Rest(text), more, Lines(tail), Rest(tail));
    OneCut(text + more, Lines(text) + Lines(tail), Rest(tail));
  }

  // ---- Messages -------------------------------------------------------------------------------------

  datatype Outcome = Ready(url: string, token: string) | SpawnFailed | Exited

  predicate HasString(v: Value, key: string) { Lookup(v, key).Some? && Lookup(v, key).value.Str? }

  function ReadyOf(v: Value): Option<Outcome> {
    if HasText(v, "type", "ready") && HasString(v, "url") && HasString(v, "token")
    then Some(Ready(Lookup(v, "url").value.text, Lookup(v, "token").value.text)) else None
  }

  predicate IsExit(v: Value) { HasText(v, "type", "exit") }

  /** The outcome a line brings, given the JSON parser. */
  function LineOutcome(parse: string -> Option<Value>, line: string): Option<Outcome> {
    var text := Trim(line, JsWhitespace);
    if text == "" || parse(text).None? then None else ReadyOf(parse(text).value)
  }

  predicate LineExits(parse: string -> Option<Value>, line: string) {
    var text := Trim(line, JsWhitespace);
    text != "" && parse(text).Some? && IsExit(parse(text).value)
  }

  /** The first line that announces the server, unless the start had settled before. */
  function AfterLines(parse: string -> Option<Value>, settled: Option<Outcome>, lines: seq<string>): Option<Outcome>
    decreases |lines|
  {
    if lines == [] then settled
    else AfterLines(parse, if settled.Some? then settled else LineOutcome(parse, lines[0]), lines[1..])
  }

  function Exits(parse: string -> Option<Value>, lines: seq<string>): nat {
    if lines == [] then 0 else (if LineExits(parse, lines[0]) then 1 else 0) + Exits(parse, lines[1..])
  }

  lemma {:induction false} AfterLinesAppend(parse: string -> Option<Value>, settled: Option<Outcome>, a: seq<string>, b: seq<string>)
    ensures AfterLines(parse, settled, a + b) == AfterLines(parse, AfterLines(parse, settled, a), b)
    ensures Exits(parse, a + b) == Exits(parse, a) + Exits(parse, b)
    decreases |a|
  {
    if a == [] {
      assert a + b == b;
    } else {
      assert (a + b)[0] == a[0] && (a + b)[1..] == a[1..] + b;
      AfterLinesAppend(parse, if settled.Some? then settled else LineOutcome(parse, a[0]), a[1..], b);
    }
  }

  lemma {:induction false} SettledStays(parse: string -> Option<Value>, settled: Option<Outcome>, lines: seq<string>)
    requires settled.Some?
    ensures AfterLines(parse, settled, lines) == settled
    decreases |lines|
  {
    if lines != [] {
      SettledStays(parse, settled, lines[1..]);
    }
  }

  predicate NoneReady(parse: string -> Option<Value>, lines: seq<string>, n: nat) {
    n <= |lines| && forall j | 0 <= j < n :: LineOutcome(parse, lines[j]).None?
  }

  /** The number of lines before the first ready one. */
  lemma {:induction false} FirstReady(parse: string -> Option<Value>, lines: seq<string>) returns (i: nat)
    ensures NoneReady(parse, lines, i)
    ensures AfterLines(parse, None, lines) == if i < |lines| then LineOutcome(parse, lines[i]) else None
    ensures i < |lines| ==> LineOutcome(parse, lines[i]).Some?
    decreases |lines|
  {
    i := 0;
    if lines != [] {
      var first, rest := LineOutcome(parse, lines[0]), lines[1..];
      if first.Some? {
        SettledStays(parse, first, rest);
      } else {
        var k := FirstReady(parse, rest);
        assert forall j | 0 <= j < k :: lines[j + 1] == rest[j] && LineOutcome(parse, rest[j]).None?;
        i := k + 1;
      }
    }
  }

  /** Once settled nothing changes the outcome; otherwise the first ready line decides. */
  lemma FirstReadyWins(parse: string -> Option<Value>, settled: Option<Outcome>, lines: seq<string>)
    ensures settled.Some? ==> AfterLines(parse, settled, lines) == settled
    ensures settled.None? && AfterLines(parse, settled, lines).None? ==> NoneReady(parse, lines, |lines|)
    ensures settled.None? && AfterLines(parse, settled, lines).Some? ==>
              exists i: nat :: i < |lines| && NoneReady(parse, lines, i)
                               && LineOutcome(parse, lines[i]) == AfterLines(parse, settled, lines)
  {
    if settled.Some? {
      SettledStays(parse, settled, lines);
    } else {
      var i := FirstReady(parse, lines);
    }
  }

  // ---- The child server -----------------------------------------------------------------------------

  datatype Event = Data(chunk: string) | SpawnError | Exit

  /** Everything received so far. */
  function Received(events: seq<Event>): string {
    if events == [] then ""
    else
      var n := |events| - 1;
      Received(events[..n]) + (if events[n].Data? then events[n].chunk else "")
  }

  function NextOutcome(parse: string -> Option<Value>, buffer: string, before: Option<Outcome>, e: Event): Option<Outcome> {
    match e
    case Data(chunk) => AfterLines(parse, before, Lines(buffer + chunk))
    case SpawnError => if before.Some? then before else Some(SpawnFailed)
    case Exit => if before.Some? then before else Some(Exited)
  }

  /** The start's outcome: the events up to the first that settles it decide. */
  function OutcomeOf(parse: string -> Option<Value>, events: seq<Event>): Option<Outcome> {
    if events == [] then None
    else
      var n := |events| - 1;
      NextOutcome(parse, Rest(Received(events[..n])), OutcomeOf(parse, events[..n]), events[n])
  }

  /** However the output is cut into chunks, as long as only output arrives the outcome is decided by the
      lines of the whole text. */
  lemma {:induction false} ChunksDoNotMatter(parse: string -> Option<Value>, events: seq<Event>)
    requires forall i | 0 <= i < |events| :: events[i].Data?
    ensures OutcomeOf(parse, events) == AfterLines(parse, None, Lines(Received(events)))
  {
    if events != [] {
      var n := |events| - 1;
      var before := Received(events[..n]);
      ChunksDoNotMatter(parse, events[..n]);
      CutAppend(before, events[n].chunk);
      AfterLinesAppend(parse, None, Lines(before), Lines(Rest(before) + events[n].chunk));
    }
  }

  /** The start settles once: later events never change its outcome. */
  lemma {:induction false} SettlesOnce(parse: string -> Option<Value>, events: seq<Event>, k: nat)
    requires k <= |events| && OutcomeOf(parse, events[..k]).Some?
    ensures OutcomeOf(parse, events) == OutcomeOf(parse, events[..k])
  {
    if k == |events| {
      assert events[..k] == events;
    } else {
      var n := |events| - 1;
      var before := events[..n];
      assert before[..k] == events[..k];
      SettlesOnce(parse, before, k);
      SettledNext(parse, Rest(Received(before)), OutcomeOf(parse, before), events[n]);
    }
  }

  lemma SettledNext(parse: string -> Option<Value>, buffer: string, before: Option<Outcome>, e: Event)
    requires before.Some?
    ensures NextOutcome(parse, buffer, before, e) == before
  {
    if e.Data? {
      SettledStays(parse, before, Lines(buffer + e.chunk));
    }
  }

  /** Handling the first line of the buffer leaves the others. */
  lemma NextLine(parse: string -> Option<Value>, settled: Option<Outcome>, handled: seq<string>, text: string, i: nat)
    requires i == IndexOf(text, '\n') < |text|
    ensures var line, others := text[..i], Lines(text[i + 1..]);
            && handled + Lines(text) == handled + [line] + others
            && AfterLines(parse, settled, Lines(text))
            == AfterLines(parse, if settled.Some? then settled else LineOutcome(parse, line), others)
            && Exits(parse, Lines(text)) == (if LineExits(parse, line) then 1 else 0) + Exits(parse, others)
            && Rest(text) == Rest(text[i + 1..])
  {
    var line, others := text[..i], Lines(text[i + 1..]);
    assert Lines(text) == [line] + others;
    assert Lines(text)[1..] == others;
    Assoc(handled, [line], others);
  }

  lemma DataStep(parse: string -> Option<Value>, before: string, chunk: string, lines: seq<string>)
    requires lines == Lines(Rest(before) + chunk)
    ensures Lines(before + chunk) == Lines(before) + lines && Rest(before + chunk) == Rest(Rest(before) + chunk)
    ensures Exits(parse, Lines(before) + lines) == Exits(parse, Lines(before)) + Exits(parse, lines)
  {
    CutAppend(before, chunk);
    AfterLinesAppend(parse, None, Lines(before), lines);
  }

  lemma ReceivedNext(events: seq<Event>, i: nat)
    requires i < |events|
    ensures Received(events[..i + 1]) == Received(events[..i]) + (if events[i].Data? then events[i].chunk else [])
  {
    assert events[..i + 1][..i] == events[..i];
  }

  lemma OutcomeNext(parse: string -> Option<Value>, events: seq<Event>, i: nat)
    requires i < |events|
    ensures OutcomeOf(parse, events[..i + 1])
         == NextOutcome(parse, Rest(Received(events[..i])), OutcomeOf(parse, events[..i]), events[i])
  {
    assert events[..i + 1][..i] == events[..i];
  }

  class ChildServer {
    const parse: string -> Option<Value>
    var stdout: string
    var outcome: Option<Outcome>
    /** The lines handled, and how often the exit listeners were called. */
    var handled: seq<string>
    var exits: nat

    constructor (parse: string -> Option<Value>)
      ensures this.parse == parse && stdout == "" && outcome == None && handled == [] && exits == 0
    {
      this.parse := parse;
      stdout, outcome, handled, exits := "", None, [], 0;
    }

    method Fail(reason: Outcome)
      modifies `outcome
      ensures outcome == if old(outcome).Some? then old(outcome) else Some(reason)
    {
      if outcome.Some? { return; }
      outcome := Some(reason);
    }

    method HandleLine(line: string)
      modifies `outcome, `handled, `exits
      ensures handled == old(handled) + [line]
      ensures outcome == if old(outcome).Some? then old(outcome) else LineOutcome(parse, line)
      ensures exits == old(exits) + if LineExits(parse, line) then 1 else 0
    {
      handled := handled + [line];
      var text := Trim(line, JsWhitespace);
      if text == "" { return; }
      var payload := parse(text);
      if payload.None? { return; }
      if IsExit(payload.value) {
        exits := exits + 1;
      }
      if ReadyOf(payload.value).None? || outcome.Some? { return; }
      outcome := ReadyOf(payload.value);
    }

    /** The data listener. */
    method OnData(chunk: string)
      modifies `stdout, `outcome, `handled, `exits
      ensures var lines := Lines(old(stdout) + chunk);
              handled == old(handled) + lines && outcome == AfterLines(parse, old(outcome), lines) &&
              exits == old(exits) + Exits(parse, lines)
      ensures stdout == Rest(old(stdout) + chunk)
    {
      stdout := stdout + chunk;
      ghost var all := stdout;
      var newline := IndexOf(stdout, '\n');
      while newline < |stdout|
        invariant newline == IndexOf(stdout, '\n')
        invariant handled + Lines(stdout) == old(handled) + Lines(all)
        invariant AfterLines(parse, outcome, Lines(stdout)) == AfterLines(parse, old(outcome), Lines(all))
        invariant exits + Exits(parse, Lines(stdout)) == old(exits) + Exits(parse, Lines(all))
        invariant Rest(stdout) == Rest(all)
        decreases |stdout|
      {
        NextLine(parse, outcome, handled, stdout, newline);
        HandleLine(stdout[..newline]);
        stdout := stdout[newline + 1..];
        newline := IndexOf(stdout, '\n');
      }
      assert handled + [] == handled;
    }

    /** A whole run: the handled lines are the terminated lines of everything received, the buffer holds
        the unterminated rest, and the outcome is settled by the first event that settles it. */
    method Run(events: seq<Event>)
      requires stdout == "" && outcome == None && handled == [] && exits == 0
      modifies `stdout, `outcome, `handled, `exits
      ensures handled == Lines(Received(events)) && stdout == Rest(Received(events))
      ensures outcome == OutcomeOf(parse, events)
      ensures exits == Exits(parse, Lines(Received(events)))
    {
      for i := 0 to |events|
        invariant handled == Lines(Received(events[..i])) && stdout == Rest(Received(events[..i]))
        invariant outcome == OutcomeOf(parse, events[..i])
        invariant exits == Exits(parse, handled)
      {
        ReceivedNext(events, i);
        OutcomeNext(parse, events, i);
        ghost var before := Received(events[..i]);
        match events[i] {
          case Data(chunk) =>
            DataStep(parse, before, chunk, Lines(stdout + chunk));
            OnData(chunk);
          case SpawnError =>
            assert before + [] == before;
            Fail(SpawnFailed);
          case Exit =>
            assert before + [] == before;
            Fail(Exited);
        }
      }
      assert events[..|events|] == events;
    }
  }
}
