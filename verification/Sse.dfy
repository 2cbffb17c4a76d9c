/**
 The event-stream reader of apps/server/src/agent-context-cloud-probe.ts (`parseSse`), against a
 printer for the format of section 9.2.6 of the WHATWG HTML standard.
 */
module Sse {
  import opened Common

  // ---- Lines: `text.split(/\r\n|\r|\n/u)` ------------------------------------------------------

  function BreakLength(text: string): (n: nat)
    ensures n <= |text|
  {
    if text == "" then 0
    else if text[0] == '\r' then if |text| >= 2 && text[1] == '\n' then 2 else 1
    else if text[0] == '\n' then 1
    else 0
  }

  function SplitLines(text: string): (lines: seq<string>)
    ensures |lines| >= 1
    decreases |text|
  {
    var n := BreakLength(text);
    if text == "" then [""]
    else if n > 0 then [""] + SplitLines(text[n..])
    else
      var rest := SplitLines(text[1..]);
      [[text[0]] + rest[0]] + rest[1..]
  }

  // ---- Fields ----------------------------------------------------------------------------------

  function FieldOf(line: string): string { line[..IndexOf(line, ':')] }

  function ValueOf(line: string): string {
    var colon := IndexOf(line, ':');
    var raw := if colon == |line| then "" else line[colon + 1..];
    if raw != "" && raw[0] == ' ' then raw[1..] else raw
  }

  predicate IsComment(line: string) { line != "" && line[0] == ':' }

  predicate IsData(line: string) { line != "" && !IsComment(line) && FieldOf(line) == "data" }

  predicate IsEvent(line: string) { line != "" && !IsComment(line) && FieldOf(line) == "event" }

  // ---- The reader ------------------------------------------------------------------------------

  datatype Reader = Reader(event: string, data: seq<string>, messages: seq<string>)

  const START := Reader("", [], [])

  /** `dispatch`; None is the thrown `invalid_response`. */
  function Dispatch(r: Reader): Option<Reader> {
    if r.data == [] then Some(Reader("", [], r.messages))
    else if r.event != "" && r.event != "message" then None
    else Some(Reader("", [], r.messages + [Join(r.data, "\n")]))
  }

  function ReadLine(r: Reader, line: string): Option<Reader> {
    if line == "" then Dispatch(r)
    else if IsComment(line) then Some(r)
    else Some(Reader(
      if IsEvent(line) then ValueOf(line) else r.event,
      if IsData(line) then r.data + [ValueOf(line)] else r.data,
      r.messages))
  }

  function ReadLines(r: Reader, lines: seq<string>): Option<Reader>
    decreases |lines|
  {
    if lines == [] then Some(r)
    else
      var next := ReadLine(r, lines[0]);
      if next.None? then None else ReadLines(next.value, lines[1..])
  }

  /** The messages a body carries, before JSON: every line, then one more dispatch. */
  function Messages(text: string): Option<seq<string>> {
    var read := ReadLines(START, SplitLines(text));
    var last := if read.None? then None else Dispatch(read.value);
    if last.None? then None else Some(last.value.messages)
  }

  /** `parseSse`: exactly one message, whose text is JSON. */
  function Parse<J>(text: string, json: string -> Option<J>): Option<J> {
    var messages := Messages(text);
    if messages.Some? && |messages.value| == 1 then json(messages.value[0]) else None
  }

  function AllJson<J>(texts: seq<string>, json: string -> Option<J>): Option<seq<J>> {
    if texts == [] then Some([])
    else
      var first, rest := json(texts[0]), AllJson(texts[1..], json);
      if first.None? || rest.None? then None else Some([first.value] + rest.value)
  }

  /** `parseSse` as written: the locals are updated line by line and JSON is parsed as messages are
      dispatched. Every failure is the same `invalid_response`. */
  method ParseSse<J>(text: string, json: string -> Option<J>) returns (r: Option<J>)
    ensures r == Parse(text, json)
  {
    var messages: seq<J> := [];
    var event := "";
    var data: seq<string> := [];
    ghost var seen: seq<string> := [];
    var lines := SplitLines(text);
    ghost var whole := ReadLines(START, lines);
    for i := 0 to |lines|
      invariant whole == ReadLines(Reader(event, data, seen), lines[i..])
      invariant |messages| == |seen|
      invariant AllJson(seen, json) == Some(messages)
    {
      var line := lines[i];
      assert lines[i..][0] == line && lines[i..][1..] == lines[i + 1..];
      if line == "" {
        if data == [] {
          event := "";
        } else {
          if event != "" && event != "message" { return None; }
          var message := json(Join(data, "\n"));
          ghost var before := seen;
          seen := seen + [Join(data, "\n")];
          if message.None? {
            MessagesOnlyGrow(Reader("", [], seen), lines[i + 1..]);
            return None;
          }
          AllJsonAppend(before, Join(data, "\n"), json);
          messages := messages + [message.value];
          event, data := "", [];
        }
      } else if line[0] != ':' {
        if FieldOf(line) == "event" { event := ValueOf(line); }
        if FieldOf(line) == "data" { data := data + [ValueOf(line)]; }
      }
    }
    assert lines[|lines|..] == [];
    if data != [] {
      if event != "" && event != "message" { return None; }
      var message := json(Join(data, "\n"));
      if message.None? { return None; }
      AllJsonAppend(seen, Join(data, "\n"), json);
      seen := seen + [Join(data, "\n")];
      messages := messages + [message.value];
    }
    if |messages| != 1 { return None; }
    r := Some(messages[0]);
  }

  lemma {:induction false} AllJsonAppend<J>(texts: seq<string>, last: string, json: string -> Option<J>)
    requires AllJson(texts, json).Some? && json(last).Some?
    ensures AllJson(texts + [last], json) == Some(AllJson(texts, json).value + [json(last).value])
    ensures |AllJson(texts, json).value| == |texts|
  {
    var all, end := texts + [last], [json(last).value];
    if texts == [] {
      assert all == [last] && AllJson([last][1..], json) == Some([]);
      assert AllJson(all, json) == Some(end + []) && end + [] == [] + end;
    } else {
      var first, middle := [json(texts[0]).value], AllJson(texts[1..], json).value;
      assert all[0] == texts[0] && all[1..] == texts[1..] + [last];
      AllJsonAppend(texts[1..], last, json);
      assert AllJson(all, json) == Some(first + (middle + end));
      assert first + (middle + end) == first + middle + end;
    }
  }

  lemma {:induction false} MessagesOnlyGrow(r: Reader, lines: seq<string>)
    ensures ReadLines(r, lines).Some? ==> r.messages <= ReadLines(r, lines).value.messages
    decreases |lines|
  {
    if lines != [] && ReadLine(r, lines[0]).Some? {
      MessagesOnlyGrow(ReadLine(r, lines[0]).value, lines[1..]);
    }
  }

  // ---- The printer ------------------------------------------------------------------------------

  datatype Break = Lf | Cr | CrLf

  function BreakText(b: Break): string {
    match b case Lf => "\n" case Cr => "\r" case CrLf => "\r\n"
  }

  predicate OneLine(line: string) { '\r' !in line && '\n' !in line }

  datatype PrintedLine = PrintedLine(text: string, ending: Break)

  function Render(lines: seq<PrintedLine>): string {
    if lines == [] then "" else lines[0].text + BreakText(lines[0].ending) + Render(lines[1..])
  }

  function Texts(lines: seq<PrintedLine>): seq<string> {
    seq(|lines|, i requires 0 <= i < |lines| => lines[i].text)
  }

  /** A lone CR must not be followed by an empty line ended by LF: together they read as one CRLF.
      Any one ending used throughout satisfies this. */
  ghost predicate NoFalseCrLf(lines: seq<PrintedLine>) {
    forall i | 0 <= i < |lines| - 1 :: lines[i].ending == Cr ==> !(lines[i + 1].text == "" && lines[i + 1].ending == Lf)
  }

  ghost predicate Printable(lines: seq<PrintedLine>) {
    && NoFalseCrLf(lines)
    && forall i | 0 <= i < |lines| :: OneLine(lines[i].text)
  }

  lemma {:induction false} SplitAfterText(text: string, rest: string)
    requires OneLine(text)
    ensures SplitLines(text + rest) == [text + SplitLines(rest)[0]] + SplitLines(rest)[1..]
  {
    if text == "" {
      assert text + rest == rest && text + SplitLines(rest)[0] == SplitLines(rest)[0];
    } else {
      var more, first := text[1..], SplitLines(rest)[0];
      assert text[0] in text && OneLine(more);
      SplitAfterText(more, rest);
      assert (text + rest)[1..] == more + rest && (text + rest)[0] == text[0];
      Assoc([text[0]], more, first);
      assert [text[0]] + more == text;
    }
  }

  lemma {:induction false} SplitAtBreak(text: string, ending: string, rest: string)
    requires OneLine(text) && 0 < |ending| == BreakLength(ending + rest)
    ensures SplitLines(text + ending + rest) == [text] + SplitLines(rest)
  {
    var tail := ending + rest;
    assert tail[|ending|..] == rest;
    assert SplitLines(tail) == [""] + SplitLines(rest);
    SplitAfterText(text, tail);
    Assoc(text, ending, rest);
    assert text + "" == text;
  }

  lemma PrintableTail(lines: seq<PrintedLine>)
    requires Printable(lines) && lines != []
    ensures Printable(lines[1..])
  {
    var tail := lines[1..];
    forall i | 0 <= i < |tail| - 1
      ensures tail[i].ending == Cr ==> !(tail[i + 1].text == "" && tail[i + 1].ending == Lf)
    {
      assert lines[i + 1] == tail[i] && lines[i + 2] == tail[i + 1];
    }
  }

  lemma {:induction false} SplitRendered(lines: seq<PrintedLine>)
    requires Printable(lines)
    ensures SplitLines(Render(lines)) == Texts(lines) + [""]
    decreases |lines|
  {
    if lines != [] {
      var rest := lines[1..];
      PrintableTail(lines);
      SplitRendered(rest);
      BreakBefore(lines[0].ending, rest);
      SplitAtBreak(lines[0].text, BreakText(lines[0].ending), Render(rest));
      assert Texts(lines) == [lines[0].text] + Texts(rest);
      Assoc([lines[0].text], Texts(rest), [""]);
    } else {
      assert Texts(lines) == [];
    }
  }

  /** A line break is read back at its full length, and no longer, before any rendering. */
  lemma BreakBefore(ending: Break, rest: seq<PrintedLine>)
    requires Printable(rest)
    requires ending == Cr && rest != [] ==> !(rest[0].text == "" && rest[0].ending == Lf)
    ensures BreakLength(BreakText(ending) + Render(rest)) == |BreakText(ending)|
  {
    if ending == Cr && rest != [] && rest[0].text != "" {
      assert rest[0].text[0] in rest[0].text;
    }
  }

  // ---- What a block of lines means ----------------------------------------------------------------

  /** The values of the data lines, in order. */
  function DataOf(lines: seq<string>): seq<string> {
    if lines == [] then []
    else (if IsData(lines[0]) then [ValueOf(lines[0])] else []) + DataOf(lines[1..])
  }

  /** The event type after the lines, if it was `event` before them. */
  function LastEvent(lines: seq<string>, event: string): string {
    if lines == [] then event
    else LastEvent(lines[1..], if IsEvent(lines[0]) then ValueOf(lines[0]) else event)
  }

  /** Lines that stay inside one event: data, comments, unknown fields and event types, none of them blank. */
  ghost predicate Lines(block: seq<string>) { forall i | 0 <= i < |block| :: block[i] != "" }

  /** The block is accepted: it has no data, or its last event type is none or `message`. */
  predicate Deliverable(block: seq<string>) {
    DataOf(block) == [] || LastEvent(block, "") in {"", "message"}
  }

  ghost predicate Block(block: seq<string>) { Lines(block) && Deliverable(block) }

  lemma ReadFirst(r: Reader, block: seq<string>, rest: seq<string>, next: Reader)
    requires block != [] && ReadLine(r, block[0]) == Some(next)
    ensures ReadLines(r, block + rest) == ReadLines(next, block[1..] + rest)
  {
    assert (block + rest)[1..] == block[1..] + rest && (block + rest)[0] == block[0];
  }

  /** A block leaves its last event type and adds its data. */
  lemma {:induction false} ReadBlock(r: Reader, block: seq<string>, rest: seq<string>)
    requires Lines(block)
    ensures ReadLines(r, block + rest)
         == ReadLines(Reader(LastEvent(block, r.event), r.data + DataOf(block), r.messages), rest)
    decreases |block|
  {
    if block == [] {
      assert block + rest == rest;
      assert DataOf(block) == [] && r.data + [] == r.data;
    } else {
      var line := block[0];
      var more := if IsData(line) then [ValueOf(line)] else [];
      var next := Reader(if IsEvent(line) then ValueOf(line) else r.event, r.data + more, r.messages);
      assert line != "" && r.data + [] == r.data;
      assert ReadLine(r, line) == Some(next);
      ReadFirst(r, block, rest, next);
      assert Lines(block[1..]) by {
        forall i | 0 <= i < |block[1..]| ensures block[1..][i] != "" { assert block[i + 1] != ""; }
      }
      ReadBlock(next, block[1..], rest);
      Assoc(r.data, more, DataOf(block[1..]));
    }
  }

  /** The message a block dispatches, if it has data. */
  function MessageOf(block: seq<string>): seq<string> {
    if DataOf(block) == [] then [] else [Join(DataOf(block), "\n")]
  }

  /** The events of a stream of blocks: one message per block that has data. */
  function EventsOf(blocks: seq<seq<string>>): seq<string> {
    if blocks == [] then []
    else MessageOf(blocks[0]) + EventsOf(blocks[1..])
  }

  /** Each block is ended by one blank line. */
  function Stream(blocks: seq<seq<string>>): seq<string> {
    if blocks == [] then [] else blocks[0] + [""] + Stream(blocks[1..])
  }

  lemma ReadEvent(messages: seq<string>, block: seq<string>, rest: seq<string>)
    requires Lines(block)
    ensures ReadLines(Reader("", [], messages), block + ([""] + rest))
         == if Deliverable(block) then ReadLines(Reader("", [], messages + MessageOf(block)), rest) else None
  {
    ReadBlock(Reader("", [], messages), block, [""] + rest);
    assert ([""] + rest)[1..] == rest && [] + DataOf(block) == DataOf(block);
    assert messages + [] == messages;
  }

  /** One block with data and another event type refuses the whole stream. */
  lemma {:induction false} OtherEventStops(messages: seq<string>, blocks: seq<seq<string>>, tail: seq<string>, i: nat)
    requires forall j | 0 <= j < |blocks| :: Lines(blocks[j])
    requires i < |blocks| && !Deliverable(blocks[i])
    ensures ReadLines(Reader("", [], messages), Stream(blocks) + tail) == None
    decreases i
  {
    ReadFirstEvent(messages, blocks, tail);
    if Deliverable(blocks[0]) {
      var rest := blocks[1..];
      assert rest[i - 1] == blocks[i] && forall j | 0 <= j < |rest| :: rest[j] == blocks[j + 1];
      OtherEventStops(messages + MessageOf(blocks[0]), rest, tail, i - 1);
    }
  }

  lemma {:induction false} ReadFirstEvent(messages: seq<string>, blocks: seq<seq<string>>, tail: seq<string>)
    requires blocks != [] && Lines(blocks[0])
    ensures ReadLines(Reader("", [], messages), Stream(blocks) + tail)
         == if Deliverable(blocks[0])
            then ReadLines(Reader("", [], messages + MessageOf(blocks[0])), Stream(blocks[1..]) + tail) else None
  {
    StreamStarts(blocks, tail);
    ReadEvent(messages, blocks[0], Stream(blocks[1..]) + tail);
  }

  lemma {:induction false} StreamStarts(blocks: seq<seq<string>>, tail: seq<string>)
    requires blocks != []
    ensures Stream(blocks) + tail == blocks[0] + ([""] + (Stream(blocks[1..]) + tail))
  {
    var first, blank, others := blocks[0], [""], Stream(blocks[1..]);
    Assoc(first + blank, others, tail);
    Assoc(first, blank, others + tail);
  }

  lemma {:induction false} ReadStream(messages: seq<string>, blocks: seq<seq<string>>, tail: seq<string>)
    requires forall i | 0 <= i < |blocks| :: Block(blocks[i])
    ensures ReadLines(Reader("", [], messages), Stream(blocks) + tail)
         == ReadLines(Reader("", [], messages + EventsOf(blocks)), tail)
    decreases |blocks|
  {
    if blocks == [] {
      assert Stream(blocks) == [] && EventsOf(blocks) == [];
      assert [] + tail == tail && messages + [] == messages;
    } else {
      ReadFirstEvent(messages, blocks, tail);
      Assoc(messages, MessageOf(blocks[0]), EventsOf(blocks[1..]));
      ReadStream(messages + MessageOf(blocks[0]), blocks[1..], tail);
    }
  }

  /** The reader recovers exactly the messages of any printed stream, whatever its line endings and
      filler; a last block without its blank line is still dispatched. */
  lemma StreamMessages(printed: seq<PrintedLine>, blocks: seq<seq<string>>, last: seq<string>)
    requires Printable(printed) && Texts(printed) == Stream(blocks) + last
    requires Block(last) && forall i | 0 <= i < |blocks| :: Block(blocks[i])
    ensures Messages(Render(printed)) == Some(EventsOf(blocks + [last]))
  {
    SplitRendered(printed);
    assert Stream(blocks) + last + [""] == Stream(blocks) + (last + [""]);
    ReadStream([], blocks, last + [""]);
    assert [] + EventsOf(blocks) == EventsOf(blocks);
    ReadLast(EventsOf(blocks), last);
    EventsAppend(blocks, last);
  }

  /** The end of the text: the empty piece after the last line break, then one more dispatch. */
  lemma ReadLast(messages: seq<string>, last: seq<string>)
    requires Block(last)
    ensures ReadLines(Reader("", [], messages), last + [""])
         == Some(Reader("", [], messages + MessageOf(last)))
  {
    assert [""] + [] == [""];
    ReadEvent(messages, last, []);
  }

  lemma {:induction false} EventsAppend(blocks: seq<seq<string>>, last: seq<string>)
    ensures EventsOf(blocks + [last])
         == EventsOf(blocks) + MessageOf(last)
  {
    if blocks == [] {
      assert blocks + [last] == [last] && [last][1..] == [];
      assert EventsOf([last]) == MessageOf(last) + [];
    } else {
      var rest := blocks[1..];
      EventsAppend(rest, last);
      assert blocks + [last] == [blocks[0]] + (rest + [last]) && (blocks + [last])[1..] == rest + [last];
      Assoc(MessageOf(blocks[0]), EventsOf(rest), MessageOf(last));
    }
  }

  // ---- Round trip ---------------------------------------------------------------------------------

  /** `payload.split("\n")`. */
  function PayloadLines(payload: string): (lines: seq<string>)
    ensures |lines| >= 1
    ensures Join(lines, "\n") == payload
    ensures forall i | 0 <= i < |lines| :: '\n' !in lines[i]
    ensures '\r' !in payload ==> forall i | 0 <= i < |lines| :: '\r' !in lines[i]
  {
    if payload == "" then [""]
    else
      var rest := PayloadLines(payload[1..]);
      if payload[0] == '\n' then [""] + rest
      else
        assert Join([[payload[0]] + rest[0]] + rest[1..], "\n") == [payload[0]] + Join(rest, "\n") by {
          if |rest| > 1 { assert ([[payload[0]] + rest[0]] + rest[1..])[1..] == rest[1..]; }
        }
        [[payload[0]] + rest[0]] + rest[1..]
  }

  function DataLine(value: string): string { "data: " + value }

  lemma DataLineReads(value: string)
    ensures IsData(DataLine(value)) && ValueOf(DataLine(value)) == value && !IsEvent(DataLine(value))
  {
    var line := DataLine(value);
    assert line[4] == ':' && line[..4] == "data";
    IndexOfIs(line, ':', 4);
    assert line[5..] == " " + value && (" " + value)[1..] == value;
  }

  /** A printing of one payload: its data lines in order, with filler that carries no data between them. */
  ghost predicate Prints(block: seq<string>, payload: string) {
    Block(block) && DataOf(block) == PayloadLines(payload)
  }

  /** Round trip: however a CR-free payload is printed as one event, with any filler, any of the
      three line endings and with or without its closing blank line, exactly that payload reaches
      the JSON parser. */
  lemma RoundTrip<J>(payload: string, block: seq<string>, printed: seq<PrintedLine>, closed: bool, json: string -> Option<J>)
    requires Prints(block, payload) && Printable(printed)
    requires Texts(printed) == block + if closed then [""] else []
    ensures Parse(Render(printed), json) == json(payload)
  {
    if closed {
      assert Stream([block]) == block + [""] by { assert [block][1..] == []; }
      assert Stream([block]) + [] == block + [""];
      StreamMessages(printed, [block], []);
      assert [block] + [[]] == [block, []];
      EventsAppend([block], []);
    } else {
      assert Stream([]) + block == block + [];
      StreamMessages(printed, [], block);
      assert [] + [block] == [block];
    }
    assert EventsOf([block]) == [payload] by { assert [block][1..] == []; }
  }

  function DataLines(lines: seq<string>): seq<string> {
    if lines == [] then [] else [DataLine(lines[0])] + DataLines(lines[1..])
  }

  lemma {:induction false} PlainPrintingReads(lines: seq<string>)
    requires forall i | 0 <= i < |lines| :: OneLine(lines[i])
    ensures Lines(DataLines(lines)) && DataOf(DataLines(lines)) == lines && LastEvent(DataLines(lines), "") == ""
    ensures forall i | 0 <= i < |DataLines(lines)| :: OneLine(DataLines(lines)[i])
  {
    if lines != [] {
      DataLineReads(lines[0]);
      PlainPrintingReads(lines[1..]);
    }
  }

  function EndedBy(lines: seq<string>, ending: Break): (printed: seq<PrintedLine>)
    ensures Texts(printed) == lines
  {
    seq(|lines|, i requires 0 <= i < |lines| => PrintedLine(lines[i], ending))
  }

  /** The plain printing: `data: ` before each line, one ending throughout, one closing blank line. */
  function Print(payload: string, ending: Break): string {
    Render(EndedBy(DataLines(PayloadLines(payload)) + [""], ending))
  }

  lemma PlainRoundTrip<J>(payload: string, ending: Break, json: string -> Option<J>)
    requires '\r' !in payload
    ensures Parse(Print(payload, ending), json) == json(payload)
  {
    var block := DataLines(PayloadLines(payload));
    PlainPrintingReads(PayloadLines(payload));
    RoundTrip(payload, block, EndedBy(block + [""], ending), true, json);
  }

  lemma {:induction false} StreamAppend(blocks: seq<seq<string>>, last: seq<string>)
    ensures Stream(blocks + [last]) == Stream(blocks) + last + [""]
    decreases |blocks|
  {
    var all := blocks + [last];
    if blocks == [] {
      assert all == [last] && [last][1..] == [];
      assert Stream([]) + last == last && Stream(all) == last + [""] + [];
    } else {
      var rest := blocks[1..];
      StreamAppend(rest, last);
      assert all[0] == blocks[0] && all[1..] == rest + [last];
      Assoc(blocks[0] + [""], Stream(rest), last);
      Assoc(blocks[0] + [""], Stream(rest) + last, [""]);
    }
  }

  /** A stream is accepted only if every block with data has no event type but `message`. The last block may
      be without its blank line. */
  lemma {:induction false} OtherEventsRefused<J>(printed: seq<PrintedLine>, blocks: seq<seq<string>>, last: seq<string>, json: string -> Option<J>)
    requires Printable(printed) && Texts(printed) == Stream(blocks) + last
    requires Lines(last) && forall i | 0 <= i < |blocks| :: Lines(blocks[i])
    requires !Deliverable(last) || exists i :: 0 <= i < |blocks| && !Deliverable(blocks[i])
    ensures Parse(Render(printed), json) == None
  {
    var all := blocks + [last];
    SplitRendered(printed);
    StreamAppend(blocks, last);
    assert Stream(all) + [] == Stream(all);
    var at := |blocks|;
    if i :| 0 <= i < |blocks| && !Deliverable(blocks[i]) {
      at := i;
    }
    assert !Deliverable(all[at]) && forall i | 0 <= i < |blocks| :: all[i] == blocks[i];
    OtherEventStops([], all, [], at);
  }

  /** Exactly one message: a stream with no data, or with two events that carry data, is refused. */
  lemma {:induction false} OneMessageRequired<J>(printed: seq<PrintedLine>, blocks: seq<seq<string>>, last: seq<string>, json: string -> Option<J>)
    requires Printable(printed) && Texts(printed) == Stream(blocks) + last
    requires Block(last) && forall i | 0 <= i < |blocks| :: Block(blocks[i])
    ensures |EventsOf(blocks + [last])| != 1 ==> Parse(Render(printed), json) == None
    ensures |EventsOf(blocks + [last])| == 1 ==> Parse(Render(printed), json) == json(EventsOf(blocks + [last])[0])
  {
    StreamMessages(printed, blocks, last);
  }
}
