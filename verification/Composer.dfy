/**
 The line editor with a scrolling menu (apps/cli/src/composer.ts): the key handler works in place on
 the characters, the cursor, the selection and the window of the menu. It is proved against a zipper,
 the text before and the text after the cursor.
 */
module Composer {
  import opened Common
  import opened UrlText

  datatype Choice = Choice(value: string, title: string, detail: string)

  datatype KeyName =
    | Return | Enter | Escape | Up | Down | Tab | Left | Right | Home | End | Backspace | Delete
    | Letter(c: char) | OtherKey

  /** `character` is the text the key produces, empty when there is none. */
  datatype KeyPress = KeyPress(name: KeyName, ctrl: bool, meta: bool, character: string)

  /** The chooser filters its own list; the command line offers commands while a slash command is typed. */
  datatype Menu = Chooser(choices: seq<Choice>) | Commands(commands: seq<Choice>)

  datatype Outcome = Cancelled | Submitted(value: string)

  // ---- The list --------------------------------------------------------------------------------

  predicate Includes(text: string, word: string) {
    exists at | 0 <= at <= |text| :: OccursAt(text, word, at)
  }

  predicate Matches(choice: Choice, needle: string) {
    needle == "" || Includes(Lower(choice.title + " " + choice.detail), needle)
  }

  function Filter(choices: seq<Choice>, needle: string): seq<Choice> {
    if choices == [] then []
    else (if Matches(choices[0], needle) then [choices[0]] else []) + Filter(choices[1..], needle)
  }

  /** `filterComposerChoices`. */
  function FilterChoices(choices: seq<Choice>, query: string): seq<Choice> {
    Filter(choices, Lower(Trim(query, JsWhitespace)))
  }

  lemma WrapOnce(x: nat, n: nat)
    requires 0 < n <= x <= 2 * n
    ensures x % n == if x == 2 * n then 0 else x - n
  {
    var q := x / n;
    assert x == n * q + x % n;
    assert q <= 0 ==> n * q <= 0;
    assert q >= 3 ==> n * q >= n * 3;
  }

  /** `moveComposerSelection` for one step down (or up), wrapping round. */
  function Move(index: nat, count: nat, down: bool): (r: nat)
    requires index < count
    ensures r < count
    ensures down ==> r == if index == count - 1 then 0 else index + 1
    ensures !down ==> r == if index == 0 then count - 1 else index - 1
  {
    var sum := index + (if down then 1 else -1) + count;
    if sum >= count then WrapOnce(sum, count); sum % count
    else assert sum == count - 1; assert sum % count == sum; sum % count
  }

  predicate HasSpace(text: string) { exists i | 0 <= i < |text| :: JsWhitespace(text[i]) }

  function Visible(menu: Menu, text: string): seq<Choice> {
    match menu
    case Chooser(choices) => FilterChoices(choices, text)
    case Commands(commands) =>
      if !StartsWith(text, "/") || HasSpace(text) then [] else FilterChoices(commands, text[1..])
  }

  // ---- The menu window -------------------------------------------------------------------------

  const WINDOW := 8

  datatype Window = Window(selected: nat, start: nat)

  /** What `draw` makes of selection and window for a list of `count` choices. */
  function Drawn(w: Window, count: nat): Window {
    var selected := if w.selected >= count then 0 else w.selected;
    var start := if selected < w.start then selected else w.start;
    var scrolled := if selected >= start + WINDOW then selected - 7 else start;
    Window(selected, if count <= WINDOW then 0 else scrolled)
  }

  /** The selected choice exists and is on screen. */
  predicate OnScreen(w: Window, count: nat) {
    if count == 0 then w == Window(0, 0) else w.selected < count && w.start <= w.selected < w.start + WINDOW
  }

  /** As many choices are on screen as fit. */
  predicate Full(w: Window, count: nat) { if count <= WINDOW then w.start == 0 else w.start + WINDOW <= count }

  lemma DrawnIsOnScreen(w: Window, count: nat)
    ensures OnScreen(Drawn(w, count), count)
  {
  }

  /** For a window that was on screen, the redrawn one is full exactly when the new list is short, is too
      short to keep the selection, or reaches the end of the old window. */
  lemma DrawnFullIff(w: Window, before: nat, count: nat)
    requires OnScreen(w, before)
    ensures Full(Drawn(w, count), count) <==> count <= WINDOW || w.selected >= count || w.start + WINDOW <= count
  {
  }

  lemma TopIsFull(start: nat, count: nat)
    ensures Full(Drawn(Window(0, start), count), count)
  {
  }

  lemma SettledStays(w: Window, count: nat)
    requires OnScreen(w, count) && Full(w, count)
    ensures Drawn(w, count) == w
  {
  }

  lemma MovedIsFull(w: Window, count: nat, down: bool)
    requires 0 < count && OnScreen(w, count) && Full(w, count)
    ensures Full(Drawn(Window(Move(w.selected, count, down), w.start), count), count)
  {
  }

  // ---- The zipper ---------------------------------------------------------------------------------

  datatype Zipper = Zipper(before: string, after: string) {
    function Text(): string { before + after }
  }

  /** The text without its trailing characters of one kind. */
  function DropTrailing(text: string, drop: char -> bool): string {
    if text != "" && drop(text[|text| - 1]) then DropTrailing(text[..|text| - 1], drop) else text
  }

  function NotSpace(c: char): bool { !JsWhitespace(c) }

  function DropWord(text: string): string { DropTrailing(DropTrailing(text, JsWhitespace), NotSpace) }

  predicate ControlCharacter(c: char) { c <= '\U{1f}' || c == '\U{7f}' }

  predicate Printable(p: KeyPress) {
    !p.ctrl && !p.meta && p.character != "" && forall i | 0 <= i < |p.character| :: !ControlCharacter(p.character[i])
  }

  /** Moving keys leave the text alone. */
  predicate Moves(p: KeyPress) {
    p.name.Left? || p.name.Right? || p.name.Home? || p.name.End? || (p.ctrl && (p.name == Letter('a') || p.name == Letter('e')))
  }

  function Moved(z: Zipper, p: KeyPress): Zipper
    requires Moves(p)
  {
    var n := |z.before|;
    if p.name.Left? then if n == 0 then z else Zipper(z.before[..n - 1], [z.before[n - 1]] + z.after)
    else if p.name.Right? then if z.after == "" then z else Zipper(z.before + [z.after[0]], z.after[1..])
    else if p.name.Home? || p.name == Letter('a') then Zipper("", z.Text())
    else Zipper(z.Text(), "")
  }

  /** The keys that change the text at the cursor; any other key does nothing. */
  function Typed(z: Zipper, p: KeyPress): (r: (Zipper, bool)) {
    var n := |z.before|;
    if p.name.Backspace? && n > 0 then (Zipper(z.before[..n - 1], z.after), true)
    else if p.name.Delete? && z.after != "" then (Zipper(z.before, z.after[1..]), true)
    else if p.ctrl && p.name == Letter('u') then (Zipper("", z.after), true)
    else if p.ctrl && p.name == Letter('w') then (Zipper(DropWord(z.before), z.after), true)
    else if Printable(p) then (Zipper(z.before + p.character, z.after), true)
    else (z, false)
  }

  datatype State = State(z: Zipper, w: Window)

  function Redrawn(menu: Menu, z: Zipper, w: Window): State {
    State(z, Drawn(w, |Visible(menu, z.Text())|))
  }

  datatype Next = Continue(s: State) | Finish(outcome: Outcome)

  predicate Interrupts(menu: Menu, text: string, p: KeyPress) {
    p.ctrl && (p.name == Letter('c') || (menu.Commands? && p.name == Letter('d') && text == ""))
  }

  predicate Submits(p: KeyPress) { p.name.Return? || p.name.Enter? }

  /** The outcome of a key that ends the editing. */
  function Ending(menu: Menu, s: State, list: seq<Choice>, p: KeyPress): Option<Outcome>
    requires OnScreen(s.w, |list|)
  {
    if Interrupts(menu, s.z.Text(), p) then Some(Cancelled)
    else if Submits(p) then
      Some(if list != [] then Submitted(list[s.w.selected].value)
           else if menu.Chooser? then Cancelled else Submitted(s.z.Text()))
    else if p.name.Escape? && menu.Chooser? then Some(Cancelled)
    else None
  }

  /** The effect of any other key, before the redraw. */
  function Edited(menu: Menu, s: State, list: seq<Choice>, p: KeyPress): State
    requires OnScreen(s.w, |list|)
  {
    if p.name.Escape? then State(Zipper("", ""), Window(0, s.w.start))
    else if (p.name.Up? || p.name.Down?) && list != [] then
      State(s.z, Window(Move(s.w.selected, |list|, p.name.Down?), s.w.start))
    else if p.name.Tab? && menu.Commands? && list != [] then State(Zipper(list[s.w.selected].value, ""), s.w)
    else if Moves(p) then State(Moved(s.z, p), s.w)
    else
      var (z, changed) := Typed(s.z, p);
      State(z, if changed then Window(0, s.w.start) else s.w)
  }

  /** One key on the zipper. */
  function Press(menu: Menu, s: State, p: KeyPress): Next
    requires OnScreen(s.w, |Visible(menu, s.z.Text())|)
  {
    var list := Visible(menu, s.z.Text());
    var ending := Ending(menu, s, list, p);
    if ending.Some? then Finish(ending.value)
    else if p.name.Escape? && list == [] then Continue(s)
    else
      var edited := Edited(menu, s, list, p);
      Continue(Redrawn(menu, edited.z, edited.w))
  }

  // ---- Runs ---------------------------------------------------------------------------------------

  /** Completing a command never leaves more matches than fit. A chooser has no completion. */
  predicate ShortCompletions(menu: Menu) {
    menu.Commands? ==> forall i | 0 <= i < |menu.commands| :: |Visible(menu, menu.commands[i].value)| <= WINDOW
  }

  /** Between keys the menu is on screen, and with short completions it is full as well. */
  predicate Settled(menu: Menu, s: State) {
    var count := |Visible(menu, s.z.Text())|;
    OnScreen(s.w, count) && (ShortCompletions(menu) ==> Full(s.w, count))
  }

  /** Before the first key the cursor is at the end of the initial text. */
  function Opened(menu: Menu, initial: string, selected: nat): State {
    Redrawn(menu, Zipper(initial, ""), Window(selected, 0))
  }

  lemma OpenedIsSettled(menu: Menu, initial: string, selected: nat)
    ensures Settled(menu, Opened(menu, initial, selected))
  {
    var z := Zipper(initial, "");
    DrawnIsOnScreen(Window(selected, 0), |Visible(menu, z.Text())|);
  }

  lemma MovedKeepsText(z: Zipper, p: KeyPress)
    requires Moves(p)
    ensures Moved(z, p).Text() == z.Text()
  {
    if p.name.Left? && z.before != "" {
      assert z.before == z.before[..|z.before| - 1] + [z.before[|z.before| - 1]];
    } else if p.name.Right? && z.after != "" {
      assert z.after == [z.after[0]] + z.after[1..];
    }
  }

  /** An edit goes back to the top of the menu, keeps the text, completes a command, or changes nothing. */
  lemma EditedIsFull(menu: Menu, s: State, list: seq<Choice>, p: KeyPress)
    requires OnScreen(s.w, |list|) && Full(s.w, |list|)
    ensures var edited := Edited(menu, s, list, p);
            || edited.w == Window(0, s.w.start)
            || (edited.z.Text() == s.z.Text() && Full(Drawn(edited.w, |list|), |list|))
            || (menu.Commands? && list != [] && edited.z.Text() == list[s.w.selected].value)
  {
    SettledStays(s.w, |list|);
    if Moves(p) {
      MovedKeepsText(s.z, p);
    }
    if (p.name.Up? || p.name.Down?) && list != [] {
      MovedIsFull(s.w, |list|, p.name.Down?);
    }
    if p.name.Tab? && menu.Commands? && list != [] {
      assert Zipper(list[s.w.selected].value, "").Text() == list[s.w.selected].value;
    }
  }

  /** What the menu shows is among its choices. */
  lemma VisibleAreChoices(menu: Menu, text: string, i: nat)
    requires i < |Visible(menu, text)|
    ensures Visible(menu, text)[i] in (if menu.Chooser? then menu.choices else menu.commands)
  {
    match menu
    case Chooser(choices) => FilterKeeps(choices, Lower(Trim(text, JsWhitespace)), i);
    case Commands(commands) => FilterKeeps(commands, Lower(Trim(text[1..], JsWhitespace)), i);
  }

  lemma RedrawnIsFull(menu: Menu, s: State, edited: State, list: seq<Choice>)
    requires list == Visible(menu, s.z.Text()) && OnScreen(s.w, |list|) && ShortCompletions(menu)
    requires || edited.w == Window(0, s.w.start)
             || (edited.z.Text() == s.z.Text() && Full(Drawn(edited.w, |list|), |list|))
             || (menu.Commands? && list != [] && edited.z.Text() == list[s.w.selected].value)
    ensures var count := |Visible(menu, edited.z.Text())|; Full(Drawn(edited.w, count), count)
  {
    TopIsFull(s.w.start, |Visible(menu, edited.z.Text())|);
    if menu.Commands? && list != [] {
      VisibleAreChoices(menu, s.z.Text(), s.w.selected);
    }
  }

  /** Every key keeps the menu on screen. A chooser stays full, and so does a command menu in which no
      command's name matches more entries than fit. */
  lemma PressStaysSettled(menu: Menu, s: State, p: KeyPress)
    requires Settled(menu, s)
    ensures Press(menu, s, p).Continue? ==> Settled(menu, Press(menu, s, p).s)
  {
    var next := Press(menu, s, p);
    var list := Visible(menu, s.z.Text());
    if next.Continue? && !(p.name.Escape? && list == []) {
      var edited := Edited(menu, s, list, p);
      DrawnIsOnScreen(edited.w, |Visible(menu, edited.z.Text())|);
      if ShortCompletions(menu) {
        EditedIsFull(menu, s, list, p);
        RedrawnIsFull(menu, s, edited, list);
      }
    }
  }

  /** The state after a sequence of keys, and the outcome if one of them finished. */
  function PressAll(menu: Menu, s: State, keys: seq<KeyPress>): (r: Next)
    requires Settled(menu, s)
    ensures r.Continue? ==> Settled(menu, r.s)
    decreases |keys|
  {
    if keys == [] then Continue(s)
    else
      PressStaysSettled(menu, s, keys[0]);
      match Press(menu, s, keys[0])
      case Finish(outcome) => Finish(outcome)
      case Continue(next) => PressAll(menu, next, keys[1..])
  }

  /** A chooser finishes only by cancelling or with one of its own choices. */
  lemma {:induction false} ChooserSubmitsAChoice(choices: seq<Choice>, s: State, keys: seq<KeyPress>)
    requires Settled(Chooser(choices), s)
    ensures var r := PressAll(Chooser(choices), s, keys);
            r.Finish? && r.outcome.Submitted? ==> exists i :: 0 <= i < |choices| && choices[i].value == r.outcome.value
    decreases |keys|
  {
    if keys != [] {
      var menu := Chooser(choices);
      match Press(menu, s, keys[0])
      case Continue(next) =>
        PressStaysSettled(menu, s, keys[0]);
        ChooserSubmitsAChoice(choices, next, keys[1..]);
      case Finish(outcome) =>
        if outcome.Submitted? {
          FilterKeeps(choices, Lower(Trim(s.z.Text(), JsWhitespace)), s.w.selected);
        }
    }
  }

  lemma {:induction false} FilterKeeps(choices: seq<Choice>, needle: string, i: nat)
    requires i < |Filter(choices, needle)|
    ensures Filter(choices, needle)[i] in choices && Matches(Filter(choices, needle)[i], needle)
  {
    var first := if Matches(choices[0], needle) then [choices[0]] else [];
    if i >= |first| {
      FilterKeeps(choices[1..], needle, i - |first|);
    }
  }

  lemma {:induction false} FilterDropsNone(choices: seq<Choice>, needle: string, i: nat)
    requires i < |choices| && Matches(choices[i], needle)
    ensures choices[i] in Filter(choices, needle)
  {
    if i > 0 {
      FilterDropsNone(choices[1..], needle, i - 1);
    }
  }

  /** A typed character can be taken back. */
  lemma BackspaceUndoesTyping(z: Zipper, typed: KeyPress, back: KeyPress)
    requires Printable(typed) && |typed.character| == 1 && back.name.Backspace?
    requires typed.name != Backspace && typed.name != Delete
    ensures Typed(Typed(z, typed).0, back).0 == z
  {
    assert (z.before + typed.character)[..|z.before|] == z.before;
  }

  lemma RightUndoesLeft(z: Zipper, left: KeyPress, right: KeyPress)
    requires left.name.Left? && right.name.Right? && z.before != ""
    ensures Moved(Moved(z, left), right) == z
  {
    var n := |z.before|;
    assert z.before[..n - 1] + [z.before[n - 1]] == z.before;
    assert ([z.before[n - 1]] + z.after)[1..] == z.after;
  }

  lemma {:induction false} DropTrailingIs(text: string, drop: char -> bool)
    ensures var kept := DropTrailing(text, drop);
            && kept <= text
            && (forall i | |kept| <= i < |text| :: drop(text[i]))
            && (kept != "" ==> !drop(kept[|kept| - 1]))
  {
    if text != "" && drop(text[|text| - 1]) {
      DropTrailingIs(text[..|text| - 1], drop);
    }
  }

  /** Deleting a word removes exactly the last word and the white space after it. */
  lemma DropWordIs(text: string, line: string, kept: string)
    requires line == DropTrailing(text, JsWhitespace) && kept == DropWord(text)
    ensures kept <= line <= text
    ensures forall i | |line| <= i < |text| :: JsWhitespace(text[i])
    ensures forall i | |kept| <= i < |line| :: !JsWhitespace(text[i])
    ensures kept != "" ==> JsWhitespace(kept[|kept| - 1])
  {
    DropTrailingIs(text, JsWhitespace);
    DropTrailingIs(line, NotSpace);
    assert forall i | |kept| <= i < |line| :: NotSpace(line[i]) && line[i] == text[i];
  }

  // ---- The key handler ------------------------------------------------------------------------------

  class Editor {
    const menu: Menu
    var chars: string
    var cursor: nat
    var selected: nat
    var windowStart: nat

    ghost predicate Valid()
      reads this
    {
      cursor <= |chars|
    }

    ghost function View(): State
      requires Valid()
      reads this
    {
      State(Zipper(chars[..cursor], chars[cursor..]), Window(selected, windowStart))
    }

    /** `initial` is the index of the initially selected choice. */
    constructor (menu: Menu, text: string, initial: nat)
      ensures this.menu == menu && Valid() && View() == Opened(menu, text, initial) && Settled(menu, View())
    {
      this.menu := menu;
      chars, cursor := text, |text|;
      selected, windowStart := initial, 0;
      new;
      assert chars[..cursor] == text && chars[cursor..] == "";
      OpenedIsSettled(menu, text, initial);
      Draw();
    }

    /** `draw`: brings selection and window in line with the visible choices. */
    method Draw()
      requires Valid()
      modifies `selected, `windowStart
      ensures Valid() && View() == Redrawn(menu, old(View()).z, old(View()).w)
    {
      var count := |Visible(menu, chars)|;
      assert chars == View().z.Text();
      if selected >= count { selected := 0; }
      if selected < windowStart { windowStart := selected; }
      if selected >= windowStart + 8 { windowStart := selected - 7; }
      if count <= 8 { windowStart := 0; }
    }

    /** `chars.splice(at, removed, ...inserted)`. */
    method Splice(at: nat, removed: nat, inserted: string)
      requires at + removed <= |chars|
      modifies `chars
      ensures chars == old(chars)[..at] + inserted + old(chars)[at + removed..]
    {
      chars := chars[..at] + inserted + chars[at + removed..];
    }

    /** The two loops of control-W. */
    method DeleteTrailing(drop: char -> bool)
      requires Valid()
      modifies `chars, `cursor
      ensures Valid() && chars[..cursor] == DropTrailing(old(chars[..cursor]), drop) && chars[cursor..] == old(chars[cursor..])
    {
      ghost var after := chars[cursor..];
      while cursor > 0 && drop(chars[cursor - 1])
        invariant Valid() && chars[cursor..] == after
        invariant DropTrailing(chars[..cursor], drop) == DropTrailing(old(chars[..cursor]), drop)
        decreases cursor
      {
        ghost var before := chars[..cursor];
        cursor := cursor - 1;
        Splice(cursor, 1, "");
        assert chars[..cursor] == before[..|before| - 1];
      }
    }

    /** The keys that edit at the cursor. */
    method Type(p: KeyPress)
      requires Valid() && !Moves(p)
      modifies `chars, `cursor, `selected
      ensures Valid()
      ensures var (z, changed) := Typed(old(View()).z, p);
              View() == State(z, if changed then Window(0, old(windowStart)) else old(View()).w)
    {
      if p.name.Backspace? && cursor > 0 {
        cursor := cursor - 1;
        Splice(cursor, 1, "");
        selected := 0;
      } else if p.name.Delete? && cursor < |chars| {
        Splice(cursor, 1, "");
        selected := 0;
      } else if p.ctrl && p.name == Letter('u') {
        Splice(0, cursor, "");
        cursor := 0;
        selected := 0;
      } else if p.ctrl && p.name == Letter('w') {
        DeleteTrailing(JsWhitespace);
        DeleteTrailing(NotSpace);
        selected := 0;
      } else if !p.ctrl && !p.meta && p.character != "" && Printable(p) {
        Splice(cursor, 0, p.character);
        cursor := cursor + |p.character|;
        selected := 0;
      }
    }

    method MoveCursor(p: KeyPress)
      requires Valid() && Moves(p)
      modifies `cursor
      ensures Valid() && View() == State(Moved(old(View()).z, p), old(View()).w)
    {
      if p.name.Left? {
        cursor := if cursor == 0 then 0 else cursor - 1;
        assert old(cursor) > 0 ==> chars[cursor..] == [chars[cursor]] + chars[old(cursor)..];
        assert old(cursor) > 0 ==> chars[..old(cursor)][..cursor] == chars[..cursor];
      } else if p.name.Right? {
        cursor := if cursor == |chars| then |chars| else cursor + 1;
        assert old(cursor) < |chars| ==> chars[..cursor] == chars[..old(cursor)] + [chars[old(cursor)]];
        assert old(cursor) < |chars| ==> chars[old(cursor)..][1..] == chars[cursor..];
      } else if p.name.Home? || p.name == Letter('a') {
        cursor := 0;
      } else {
        cursor := |chars|;
      }
    }

    /** The keys that end the editing. The selected choice is there when it is taken. */
    method End(list: seq<Choice>, p: KeyPress) returns (outcome: Option<Outcome>)
      requires Valid() && OnScreen(View().w, |list|) && list == Visible(menu, chars)
      ensures outcome == Ending(menu, View(), list, p)
    {
      assert chars == View().z.Text();
      if p.ctrl && p.name == Letter('c') {
        return Some(Cancelled);
      }
      if menu.Commands? && p.ctrl && p.name == Letter('d') && |chars| == 0 {
        return Some(Cancelled);
      }
      if p.name.Return? || p.name.Enter? {
        if menu.Chooser? {
          return Some(if selected < |list| then Submitted(list[selected].value) else Cancelled);
        }
        if list != [] && StartsWith(chars, "/") && !HasSpace(chars) {
          return Some(Submitted(list[selected].value));
        }
        return Some(Submitted(chars));
      }
      if p.name.Escape? && menu.Chooser? {
        return Some(Cancelled);
      }
      return None;
    }

    /** The keys that edit, up to the redraw. */
    method Edit(list: seq<Choice>, p: KeyPress)
      requires Valid() && OnScreen(View().w, |list|)
      modifies `chars, `cursor, `selected
      ensures Valid() && View() == Edited(menu, old(View()), list, p)
    {
      if p.name.Escape? {
        Splice(0, |chars|, "");
        cursor, selected := 0, 0;
      } else if (p.name.Up? || p.name.Down?) && list != [] {
        selected := Move(selected, |list|, p.name.Down?);
      } else if p.name.Tab? && menu.Commands? && list != [] {
        Splice(0, |chars|, list[selected].value);
        cursor := |chars|;
      } else if Moves(p) {
        MoveCursor(p);
      } else {
        Type(p);
      }
    }

    /** `onKeypress`. */
    method OnKey(p: KeyPress) returns (outcome: Option<Outcome>)
      requires Valid() && Settled(menu, View())
      modifies `chars, `cursor, `selected, `windowStart
      ensures Valid() && Settled(menu, View())
      ensures var next := Press(menu, old(View()), p);
              outcome == (if next.Finish? then Some(next.outcome) else None) &&
              View() == (if next.Finish? then old(View()) else next.s)
    {
      ghost var before := View();
      PressStaysSettled(menu, before, p);
      assert chars == before.z.Text();
      var list := Visible(menu, chars);
      outcome := End(list, p);
      if outcome.None? && !(p.name.Escape? && list == []) {
        Edit(list, p);
        ghost var edited := View();
        assert Press(menu, before, p) == Continue(Redrawn(menu, edited.z, edited.w));
        Draw();
      }
    }

    /** The listener: keys are handled until one finishes. */
    method Feed(keys: seq<KeyPress>) returns (outcome: Option<Outcome>)
      requires Valid() && Settled(menu, View())
      modifies `chars, `cursor, `selected, `windowStart
      ensures Valid() && Settled(menu, View())
      ensures match PressAll(menu, old(View()), keys)
              case Finish(o) => outcome == Some(o)
              case Continue(s) => outcome == None && View() == s
    {
      for i := 0 to |keys|
        invariant Valid() && Settled(menu, View())
        invariant PressAll(menu, View(), keys[i..]) == PressAll(menu, old(View()), keys)
      {
        assert keys[i..][0] == keys[i] && keys[i..][1..] == keys[i + 1..];
        outcome := OnKey(keys[i]);
        if outcome.Some? {
          return;
        }
      }
      outcome := None;
    }
  }
}
