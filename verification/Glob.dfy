/**
 Tool visibility in apps/server/src/agent-context-engine-inspection.ts: a permission pattern is
 compiled to a regular expression by four text rewrites, and the last matching rule decides.

 Text is a sequence of UTF-16 code units. `fold` is the canonicalisation the `i` flag applies on
 Windows; elsewhere it is the identity.
 */
module Glob {
  import opened Common

  // ---- The compiler: four rewrites over the pattern text -------------------------------------

  const META: set<char> := {'.', '+', '^', '$', '{', '}', '(', ')', '|', '[', ']', '\\'}

  function SlashChar(c: char): string { if c == '\\' then "/" else [c] }

  function EscapeChar(c: char): string { if c in META then ['\\', c] else [c] }

  function StarChar(c: char): string { if c == '*' then ".*" else [c] }

  function QuestionChar(c: char): string { if c == '?' then "." else [c] }

  function Rewrite(s: string, f: char -> string): string {
    if s == "" then "" else f(s[0]) + Rewrite(s[1..], f)
  }

  function Slashes(s: string): string { Rewrite(s, SlashChar) }

  function Translate(pattern: string): string {
    Rewrite(Rewrite(Rewrite(Slashes(pattern), EscapeChar), StarChar), QuestionChar)
  }

  // ---- The target: the fragment of regular expressions the compiler can produce ---------------

  datatype Item = Lit(c: char) | AnyChar | AnyRun

  predicate QuantifierAt(s: string, i: nat) {
    i < |s| && s[i] in {'*', '+', '?', '{'}
  }

  function Prepend(item: Item, rest: Option<seq<Item>>): Option<seq<Item>> {
    if rest.None? then None else Some([item] + rest.value)
  }

  /** Reads a regular expression; None for anything outside the fragment, including syntax errors. */
  function Parse(s: string): Option<seq<Item>> {
    if s == "" then Some([])
    else if s[0] == '\\' then
      if |s| >= 2 && s[1] in META && !QuantifierAt(s, 2) then Prepend(Lit(s[1]), Parse(s[2..])) else None
    else if s[0] == '.' then
      if |s| >= 2 && s[1] == '*' then
        if QuantifierAt(s, 2) then None else Prepend(AnyRun, Parse(s[2..]))
      else if QuantifierAt(s, 1) then None
      else Prepend(AnyChar, Parse(s[1..]))
    else if s[0] in META || s[0] == '*' || s[0] == '?' || QuantifierAt(s, 1) then None
    else Prepend(Lit(s[0]), Parse(s[1..]))
  }

  /** A backtracking matcher for `^items$` with the dot-all flag: a run takes the longest text first. */
  predicate Backtrack(items: seq<Item>, v: string, fold: char -> char)
    decreases |items|, 0
  {
    if items == [] then v == ""
    else match items[0]
      case Lit(c) => v != "" && fold(v[0]) == fold(c) && Backtrack(items[1..], v[1..], fold)
      case AnyChar => v != "" && Backtrack(items[1..], v[1..], fold)
      case AnyRun => TryRun(items[1..], v, |v|, fold)
  }

  predicate TryRun(items: seq<Item>, v: string, taken: nat, fold: char -> char)
    requires taken <= |v|
    decreases |items|, taken + 1
  {
    Backtrack(items, v[taken..], fold) || (taken > 0 && TryRun(items, v, taken - 1, fold))
  }

  /** `wildcardMatch`: an unreadable expression is caught and does not match. */
  predicate WildcardMatch(value: string, pattern: string, fold: char -> char) {
    var compiled := Parse(Translate(pattern));
    compiled.Some? && Backtrack(compiled.value, Slashes(value), fold)
  }

  // ---- The glob language, stated without the compiler -----------------------------------------

  predicate PieceFits(c: char, piece: string, fold: char -> char) {
    if c == '*' then true
    else if c == '?' then |piece| == 1
    else |piece| == 1 && fold(piece[0]) == fold(c)
  }

  ghost predicate Fits(pieces: seq<string>, pattern: string, v: string, fold: char -> char) {
    && |pieces| == |pattern|
    && Flatten(pieces) == v
    && forall i | 0 <= i < |pattern| :: PieceFits(pattern[i], pieces[i], fold)
  }

  /** The value is cut into one piece per pattern character: `*` any text, `?` one character. */
  ghost predicate GlobAccepts(pattern: string, v: string, fold: char -> char) {
    exists pieces :: Fits(pieces, pattern, v, fold)
  }

  // ---- The compiled text parses back to one item per pattern character ------------------------

  function Compiled(c: char): string {
    if c in META then ['\\', c] else if c == '*' then ".*" else if c == '?' then "." else [c]
  }

  function ItemOf(c: char): Item {
    if c == '*' then AnyRun else if c == '?' then AnyChar else Lit(c)
  }

  function Items(p: string): seq<Item> { seq(|p|, i requires 0 <= i < |p| => ItemOf(p[i])) }

  lemma {:induction false} RewriteAppend(a: string, b: string, f: char -> string)
    ensures Rewrite(a + b, f) == Rewrite(a, f) + Rewrite(b, f)
  {
    if a == "" {
      assert a + b == b;
    } else {
      RewriteAppend(a[1..], b, f);
      assert (a + b)[1..] == a[1..] + b;
    }
  }

  lemma RewriteOne(c: char, f: char -> string)
    ensures Rewrite([c], f) == f(c)
  {
    assert [c][1..] == "";
    assert Rewrite("", f) == "";
    assert f(c) + "" == f(c);
  }

  lemma RewriteTwo(c: char, d: char, f: char -> string)
    ensures Rewrite([c, d], f) == f(c) + f(d)
  {
    assert [c, d] == [c] + [d];
    RewriteAppend([c], [d], f);
    RewriteOne(c, f);
    RewriteOne(d, f);
  }

  lemma RewriteCompiled(c: char)
    ensures Rewrite(Rewrite(EscapeChar(c), StarChar), QuestionChar) == Compiled(c)
  {
    if c in META {
      RewriteTwo('\\', c, StarChar);
      RewriteTwo('\\', c, QuestionChar);
    } else {
      RewriteOne(c, StarChar);
      if c == '*' {
        RewriteTwo('.', '*', QuestionChar);
      } else {
        RewriteOne(c, QuestionChar);
      }
    }
  }

  lemma {:induction false} PassesCompose(p: string)
    ensures Rewrite(Rewrite(Rewrite(p, EscapeChar), StarChar), QuestionChar) == Rewrite(p, Compiled)
  {
    if p != "" {
      var escaped, rest := EscapeChar(p[0]), Rewrite(p[1..], EscapeChar);
      RewriteAppend(escaped, rest, StarChar);
      RewriteAppend(Rewrite(escaped, StarChar), Rewrite(rest, StarChar), QuestionChar);
      RewriteCompiled(p[0]);
      PassesCompose(p[1..]);
    }
  }

  lemma {:induction false} ParseCompiled(p: string)
    ensures Parse(Rewrite(p, Compiled)) == Some(Items(p))
    ensures !QuantifierAt(Rewrite(p, Compiled), 0)
  {
    if p == "" {
      assert Items(p) == [];
    } else {
      var head, rest := Compiled(p[0]), Rewrite(p[1..], Compiled);
      ParseCompiled(p[1..]);
      assert (head + rest)[|head|..] == rest;
      assert Items(p) == [ItemOf(p[0])] + Items(p[1..]);
    }
  }

  /** Every pattern compiles, so the `catch` of the source is never reached, to the item sequence
      that reads off the pattern. */
  lemma TranslationParses(pattern: string)
    ensures Parse(Translate(pattern)) == Some(Items(Slashes(pattern)))
  {
    PassesCompose(Slashes(pattern));
    ParseCompiled(Slashes(pattern));
  }

  // ---- Backtracking accepts exactly the declared language --------------------------------------

  lemma {:induction false} BacktrackSound(p: string, v: string, fold: char -> char)
    requires Backtrack(Items(p), v, fold)
    ensures GlobAccepts(p, v, fold)
    decreases |p|, 0
  {
    if p == "" {
      assert Fits([], p, v, fold);
    } else {
      assert Items(p)[1..] == Items(p[1..]);
      if p[0] == '*' {
        TryRunSound(p, v, |v|, fold);
      } else {
        BacktrackSound(p[1..], v[1..], fold);
        var rest :| Fits(rest, p[1..], v[1..], fold);
        assert Flatten([v[..1]] + rest) == v[..1] + Flatten(rest) by { assert ([v[..1]] + rest)[1..] == rest; }
        assert Fits([v[..1]] + rest, p, v, fold);
      }
    }
  }

  lemma {:induction false} TryRunSound(p: string, v: string, taken: nat, fold: char -> char)
    requires p != "" && p[0] == '*' && taken <= |v|
    requires TryRun(Items(p[1..]), v, taken, fold)
    ensures GlobAccepts(p, v, fold)
    decreases |p| - 1, taken + 1
  {
    if Backtrack(Items(p[1..]), v[taken..], fold) {
      BacktrackSound(p[1..], v[taken..], fold);
      var rest :| Fits(rest, p[1..], v[taken..], fold);
      assert Flatten([v[..taken]] + rest) == v[..taken] + Flatten(rest) by { assert ([v[..taken]] + rest)[1..] == rest; }
      assert Fits([v[..taken]] + rest, p, v, fold);
    } else {
      TryRunSound(p, v, taken - 1, fold);
    }
  }

  lemma {:induction false} BacktrackComplete(pieces: seq<string>, p: string, v: string, fold: char -> char)
    requires Fits(pieces, p, v, fold)
    ensures Backtrack(Items(p), v, fold)
    decreases |p|
  {
    if p != "" {
      assert Items(p)[1..] == Items(p[1..]);
      var n := |pieces[0]|;
      assert v[n..] == Flatten(pieces[1..]) && v[..n] == pieces[0];
      assert Fits(pieces[1..], p[1..], v[n..], fold) by {
        forall i | 0 <= i < |p[1..]| ensures PieceFits(p[1..][i], pieces[1..][i], fold) {
          assert PieceFits(p[i + 1], pieces[i + 1], fold);
        }
      }
      BacktrackComplete(pieces[1..], p[1..], v[n..], fold);
      assert PieceFits(p[0], pieces[0], fold);
      if p[0] == '*' {
        TryRunReaches(Items(p[1..]), v, n, |v|, fold);
      } else {
        assert v[0] == pieces[0][0];
      }
    }
  }

  lemma {:induction false} TryRunReaches(items: seq<Item>, v: string, n: nat, taken: nat, fold: char -> char)
    requires n <= taken <= |v|
    requires Backtrack(items, v[n..], fold)
    ensures TryRun(items, v, taken, fold)
    decreases taken
  {
    if n < taken {
      TryRunReaches(items, v, n, taken - 1, fold);
    }
  }

  /** The translation preserves meaning: a tool id matches the generated expression exactly when it
      is in the glob language of the pattern, backslashes counting as slashes on both sides. */
  lemma WildcardIsGlob(value: string, pattern: string, fold: char -> char)
    ensures WildcardMatch(value, pattern, fold) <==> GlobAccepts(Slashes(pattern), Slashes(value), fold)
  {
    TranslationParses(pattern);
    var p, v := Slashes(pattern), Slashes(value);
    if Backtrack(Items(p), v, fold) {
      BacktrackSound(p, v, fold);
    }
    if GlobAccepts(p, v, fold) {
      var pieces :| Fits(pieces, p, v, fold);
      BacktrackComplete(pieces, p, v, fold);
    }
  }

  // ---- Last matching rule wins ------------------------------------------------------------------

  datatype Action = Allow | Ask | Deny

  datatype Rule = Rule(permission: string, pattern: string, action: Action)

  /** Which rules apply to a tool. The scan below is stated for any such test. */
  function RulesFor(toolId: string, fold: char -> char): Rule -> bool {
    (rule: Rule) => WildcardMatch(toolId, rule.permission, fold)
  }

  /** What a winning rule says: only a whole-resource rule can deny or ask. */
  function Verdict(winning: Option<Rule>): Action {
    if winning.Some? && winning.value.pattern == "*" then winning.value.action else Allow
  }

  ghost predicate IsLastMatch(rules: seq<Rule>, k: nat, applies: Rule -> bool) {
    && k < |rules|
    && applies(rules[k])
    && forall j | k < j < |rules| :: !applies(rules[j])
  }

  ghost predicate NoneMatch(rules: seq<Rule>, applies: Rule -> bool) {
    forall j | 0 <= j < |rules| :: !applies(rules[j])
  }

  /** The decision read from the end of the list. */
  function Decision(rules: seq<Rule>, applies: Rule -> bool): Action {
    if rules == [] then Allow
    else if applies(rules[|rules| - 1]) then Verdict(Some(rules[|rules| - 1]))
    else Decision(rules[..|rules| - 1], applies)
  }

  method EffectiveToolDecision(rules: seq<Rule>, applies: Rule -> bool) returns (action: Action)
    ensures action == Decision(rules, applies)
    ensures forall k: nat :: IsLastMatch(rules, k, applies) ==> action == Verdict(Some(rules[k]))
    ensures NoneMatch(rules, applies) ==> action == Allow
  {
    var winning := None;
    for i := 0 to |rules|
      invariant winning.None? ==> NoneMatch(rules[..i], applies)
      invariant winning.Some? ==> exists k: nat :: IsLastMatch(rules[..i], k, applies) && winning == Some(rules[k])
      invariant Verdict(winning) == Decision(rules[..i], applies)
    {
      assert rules[..i + 1][..i] == rules[..i];
      if applies(rules[i]) {
        winning := Some(rules[i]);
        assert IsLastMatch(rules[..i + 1], i, applies);
      } else if winning.Some? {
        ghost var k: nat :| IsLastMatch(rules[..i], k, applies) && winning == Some(rules[k]);
        assert IsLastMatch(rules[..i + 1], k, applies);
      }
    }
    assert rules[..|rules|] == rules;
    if winning.Some? && winning.value.pattern == "*" && winning.value.action == Deny { return Deny; }
    if winning.Some? && winning.value.pattern == "*" && winning.value.action == Ask { return Ask; }
    return Allow;
  }

  /** Rules before the last match are irrelevant. */
  lemma {:induction false} EarlierRulesIrrelevant(before: seq<Rule>, after: seq<Rule>, applies: Rule -> bool)
    requires !NoneMatch(after, applies)
    ensures Decision(before + after, applies) == Decision(after, applies)
  {
    var n := |after| - 1;
    assert (before + after)[|before| + n] == after[n];
    if !applies(after[n]) {
      assert (before + after)[..|before| + n] == before + after[..n];
      var j :| 0 <= j < |after| && applies(after[j]);
      assert after[..n][j] == after[j];
      EarlierRulesIrrelevant(before, after[..n], applies);
    }
  }

  lemma {:induction false} SilentSuffix(a: seq<Rule>, silent: seq<Rule>, applies: Rule -> bool)
    requires NoneMatch(silent, applies)
    ensures Decision(a + silent, applies) == Decision(a, applies)
  {
    if silent == [] {
      assert a + silent == a;
    } else {
      var n := |silent| - 1;
      assert (a + silent)[..|a| + n] == a + silent[..n];
      assert (a + silent)[|a| + n] == silent[n];
      SilentSuffix(a, silent[..n], applies);
    }
  }

  lemma {:induction false} SameSuffix(a: seq<Rule>, a': seq<Rule>, b: seq<Rule>, applies: Rule -> bool)
    requires Decision(a, applies) == Decision(a', applies)
    ensures Decision(a + b, applies) == Decision(a' + b, applies)
  {
    if b == [] {
      assert a + b == a && a' + b == a';
    } else {
      var n := |b| - 1;
      assert (a + b)[..|a| + n] == a + b[..n] && (a' + b)[..|a'| + n] == a' + b[..n];
      assert (a + b)[|a| + n] == b[n] == (a' + b)[|a'| + n];
      SameSuffix(a, a', b[..n], applies);
    }
  }

  /** Rules that do not match may be inserted anywhere. */
  lemma NonMatchingRulesIrrelevant(a: seq<Rule>, silent: seq<Rule>, b: seq<Rule>, applies: Rule -> bool)
    requires NoneMatch(silent, applies)
    ensures Decision(a + silent + b, applies) == Decision(a + b, applies)
  {
    SilentSuffix(a, silent, applies);
    SameSuffix(a + silent, a, b, applies);
  }

  /** The last rule that matches, where one does. */
  lemma {:induction false} LastMatch(rules: seq<Rule>, applies: Rule -> bool) returns (k: nat)
    requires !NoneMatch(rules, applies)
    ensures IsLastMatch(rules, k, applies) && Decision(rules, applies) == Verdict(Some(rules[k]))
  {
    var n := |rules| - 1;
    k := n;
    if !applies(rules[n]) {
      var j :| 0 <= j < |rules| && applies(rules[j]);
      assert applies(rules[..n][j]);
      k := LastMatch(rules[..n], applies);
      assert rules[..n][k] == rules[k];
      assert forall i | k < i < n :: rules[..n][i] == rules[i];
    }
  }

  lemma {:induction false} NoMatchAllows(rules: seq<Rule>, applies: Rule -> bool)
    requires NoneMatch(rules, applies)
    ensures Decision(rules, applies) == Allow
  {
    if rules != [] {
      var n := |rules| - 1;
      assert !applies(rules[n]);
      assert forall i | 0 <= i < n :: rules[..n][i] == rules[i];
      NoMatchAllows(rules[..n], applies);
    }
  }

  lemma DecisionIsLastMatch(rules: seq<Rule>, applies: Rule -> bool)
    ensures NoneMatch(rules, applies) ==> Decision(rules, applies) == Allow
    ensures !NoneMatch(rules, applies) ==>
              exists k: nat :: IsLastMatch(rules, k, applies) && Decision(rules, applies) == Verdict(Some(rules[k]))
  {
    if NoneMatch(rules, applies) {
      NoMatchAllows(rules, applies);
    } else {
      var k := LastMatch(rules, applies);
    }
  }

  ghost predicate InGlob(rule: Rule, toolId: string, fold: char -> char) {
    GlobAccepts(Slashes(rule.permission), Slashes(toolId), fold)
  }

  /** Rule k covers the tool, no later one does, and it denies the whole resource. */
  ghost predicate LastDenies(rules: seq<Rule>, k: nat, toolId: string, fold: char -> char) {
    && k < |rules| && InGlob(rules[k], toolId, fold) && rules[k].pattern == "*" && rules[k].action == Deny
    && forall j | k < j < |rules| :: !InGlob(rules[j], toolId, fold)
  }

  lemma AppliesIff(rule: Rule, toolId: string, fold: char -> char)
    ensures RulesFor(toolId, fold)(rule) <==> InGlob(rule, toolId, fold)
  {
    WildcardIsGlob(toolId, rule.permission, fold);
  }

  lemma DenyHasWitness(rules: seq<Rule>, toolId: string, fold: char -> char) returns (k: nat)
    requires Decision(rules, RulesFor(toolId, fold)) == Deny
    ensures LastDenies(rules, k, toolId, fold)
  {
    var applies := RulesFor(toolId, fold);
    if NoneMatch(rules, applies) {
      NoMatchAllows(rules, applies);
    }
    k := LastMatch(rules, applies);
    AppliesIff(rules[k], toolId, fold);
    forall j | k < j < |rules| ensures !InGlob(rules[j], toolId, fold) {
      AppliesIff(rules[j], toolId, fold);
    }
  }

  lemma WitnessDenies(rules: seq<Rule>, k: nat, toolId: string, fold: char -> char)
    requires LastDenies(rules, k, toolId, fold)
    ensures Decision(rules, RulesFor(toolId, fold)) == Deny
  {
    var applies := RulesFor(toolId, fold);
    AppliesIff(rules[k], toolId, fold);
    assert !NoneMatch(rules, applies);
    var last := LastMatch(rules, applies);
    AppliesIff(rules[last], toolId, fold);
    assert last == k;
  }

  /** A tool is hidden exactly when the last rule whose glob covers it is a whole-resource deny. */
  lemma DeniedIffLastGlobDenies(rules: seq<Rule>, toolId: string, fold: char -> char)
    ensures Decision(rules, RulesFor(toolId, fold)) == Deny <==> exists k: nat :: LastDenies(rules, k, toolId, fold)
  {
    if Decision(rules, RulesFor(toolId, fold)) == Deny {
      var k := DenyHasWitness(rules, toolId, fold);
    }
    if k: nat :| LastDenies(rules, k, toolId, fold) {
      WitnessDenies(rules, k, toolId, fold);
    }
  }
}
