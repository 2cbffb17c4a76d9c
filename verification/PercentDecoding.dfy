/**
 The bounded percent-decoding closure of apps/server/src/agent-context-diagnostics-schema.ts.

 Text is a sequence of UTF-16 code units. The pieces that come from the JavaScript runtime or from
 long literal patterns (NFKC, strict UTF-8, the sensitive patterns, the punctuation and control
 classes) are the fields of a `TextRules` value; the theorems hold for every such value, and the few
 that need a law of the runtime state it as a precondition.
 */
module PercentDecoding {
  import opened Common

  const MAX_ROUNDS := 12
  const GROWTH_ROUNDS := 4

  datatype TextRules = TextRules(
    nfkc: string -> string,
    utf8: seq<nat> -> Option<string>,
    sensitive: string -> bool,
    punctuation: char -> bool,
    forbidden: char -> bool)

  // ---- Octets ---------------------------------------------------------------------------------

  predicate IsHex(c: char) {
    '0' <= c <= '9' || 'a' <= c <= 'f' || 'A' <= c <= 'F'
  }

  function HexValue(c: char): (v: nat)
    requires IsHex(c)
    ensures v < 16
  {
    if c <= '9' then c as int - '0' as int
    else if c <= 'F' then c as int - 'A' as int + 10
    else c as int - 'a' as int + 10
  }

  function HexDigit(v: nat, upper: bool): (c: char)
    requires v < 16
    ensures IsHex(c) && HexValue(c) == v
  {
    if v < 10 then ('0' as int + v) as char
    else ((if upper then 'A' else 'a') as int + v - 10) as char
  }

  datatype Token = Plain(c: char) | Octet(hi: char, lo: char)

  predicate OctetAt(s: string, i: nat) {
    i + 2 < |s| && s[i] == '%' && IsHex(s[i + 1]) && IsHex(s[i + 2])
  }

  /** Left-to-right reading of a text as `%xx` octets and single characters. */
  function Tokens(s: string): (ts: seq<Token>)
    ensures forall t | t in ts && t.Octet? :: IsHex(t.hi) && IsHex(t.lo)
  {
    if s == "" then []
    else if OctetAt(s, 0) then [Octet(s[1], s[2])] + Tokens(s[3..])
    else [Plain(s[0])] + Tokens(s[1..])
  }

  function TokenText(t: Token): string {
    match t case Plain(c) => [c] case Octet(hi, lo) => ['%', hi, lo]
  }

  function Byte(t: Token): (b: nat)
    requires t.Octet? && IsHex(t.hi) && IsHex(t.lo)
    ensures b < 256
  {
    16 * HexValue(t.hi) + HexValue(t.lo)
  }

  predicate WellFormed(ts: seq<Token>) {
    forall i | 0 <= i < |ts| :: ts[i].Octet? ==> IsHex(ts[i].hi) && IsHex(ts[i].lo)
  }

  /** Length of the octet run a token list starts with. */
  function RunLength(ts: seq<Token>): (n: nat)
    ensures n <= |ts|
    ensures forall i | 0 <= i < n :: ts[i].Octet?
    ensures n < |ts| ==> ts[n].Plain?
  {
    if ts == [] || ts[0].Plain? then 0 else 1 + RunLength(ts[1..])
  }

  function Bytes(ts: seq<Token>): (bs: seq<nat>)
    requires WellFormed(ts) && forall i | 0 <= i < |ts| :: ts[i].Octet?
    ensures |bs| == |ts|
    ensures forall i | 0 <= i < |ts| :: bs[i] == Byte(ts[i])
  {
    if ts == [] then [] else [Byte(ts[0])] + Bytes(ts[1..])
  }

  /** `run.replace(/%([0-9a-f]{2})/giu, …)`: ASCII octets become characters, others stay as written. */
  function AsciiOctets(ts: seq<Token>): string
    requires WellFormed(ts)
  {
    if ts == [] then ""
    else (if ts[0].Octet? && Byte(ts[0]) <= 0x7f then [Byte(ts[0]) as char] else TokenText(ts[0]))
         + AsciiOctets(ts[1..])
  }

  /** `decodeURIComponent`: throws (None) on a stray percent sign or a run that is not UTF-8. */
  function Strict(ts: seq<Token>, rules: TextRules): Option<string>
    requires WellFormed(ts)
    decreases |ts|
  {
    if ts == [] then Some("")
    else if ts[0].Plain? then
      if ts[0].c == '%' then None
      else
        var rest := Strict(ts[1..], rules);
        if rest.None? then None else Some([ts[0].c] + rest.value)
    else
      var n := RunLength(ts);
      var run, rest := rules.utf8(Bytes(ts[..n])), Strict(ts[n..], rules);
      if run.None? || rest.None? then None else Some(run.value + rest.value)
  }

  /** The fallback: each maximal octet run on its own, everything else copied. */
  function Lenient(ts: seq<Token>, rules: TextRules): string
    requires WellFormed(ts)
    decreases |ts|
  {
    if ts == [] then ""
    else if ts[0].Plain? then [ts[0].c] + Lenient(ts[1..], rules)
    else
      var n := RunLength(ts);
      var run := rules.utf8(Bytes(ts[..n]));
      (if run.Some? then run.value else AsciiOctets(ts[..n])) + Lenient(ts[n..], rules)
  }

  /** `decodeDiagnosticPercentEncoding`. */
  function Decode(s: string, rules: TextRules): string {
    var whole := Strict(Tokens(s), rules);
    if whole.Some? then whole.value else Lenient(Tokens(s), rules)
  }

  /** The two branches never disagree: where `decodeURIComponent` succeeds, the run-by-run fallback
      would have produced the same text. */
  lemma {:induction false} FallbackAgrees(ts: seq<Token>, rules: TextRules)
    requires WellFormed(ts)
    ensures Strict(ts, rules).Some? ==> Strict(ts, rules).value == Lenient(ts, rules)
    decreases |ts|
  {
    if ts != [] {
      FallbackAgrees(ts[if ts[0].Plain? then 1 else RunLength(ts)..], rules);
    }
  }

  lemma DecodeIsRunwise(s: string, rules: TextRules)
    ensures Decode(s, rules) == Lenient(Tokens(s), rules)
  {
    FallbackAgrees(Tokens(s), rules);
  }

  // ---- The decoding rounds ---------------------------------------------------------------------

  function Step(s: string, rules: TextRules): string { rules.nfkc(Decode(s, rules)) }

  /** n unbounded decoding rounds. */
  function Iterate(n: nat, s: string, rules: TextRules): string {
    if n == 0 then s else Step(Iterate(n - 1, s, rules), rules)
  }

  lemma {:induction false} FixpointStays(m: nat, n: nat, s: string, rules: TextRules)
    requires m <= n && Iterate(m + 1, s, rules) == Iterate(m, s, rules)
    ensures Iterate(n, s, rules) == Iterate(m, s, rules)
    decreases n
  {
    if m < n {
      FixpointStays(m, n - 1, s, rules);
    }
  }

  function Added(s: string, rules: TextRules): set<string> { {s, rules.nfkc(s)} }

  /** What the decoding loop collects, as if it always ran all n rounds. */
  function Chain(n: nat, s: string, rules: TextRules): set<string> {
    if n == 0 then {} else Chain(n - 1, s, rules) + Added(Iterate(n, s, rules), rules)
  }

  lemma {:induction false} ChainHas(i: nat, n: nat, s: string, rules: TextRules)
    requires 1 <= i <= n
    ensures Iterate(i, s, rules) in Chain(n, s, rules)
  {
    if i < n {
      ChainHas(i, n - 1, s, rules);
    }
  }

  /** Rounds after a fixpoint add nothing. */
  lemma {:induction false} ChainStops(m: nat, n: nat, s: string, rules: TextRules)
    requires m <= n && Iterate(m + 1, s, rules) == Iterate(m, s, rules)
    requires Added(Iterate(m, s, rules), rules) <= Chain(m, s, rules) + Added(s, rules)
    ensures Chain(n, s, rules) + Added(s, rules) == Chain(m, s, rules) + Added(s, rules)
    decreases n
  {
    if m < n {
      ChainStops(m, n - 1, s, rules);
      FixpointStays(m, n, s, rules);
    }
  }

  predicate HasOctet(s: string) {
    exists i | 0 <= i < |s| :: OctetAt(s, i)
  }

  predicate Incomplete(candidate: string, rules: TextRules) {
    HasOctet(candidate) || Step(candidate, rules) != candidate
  }

  // ---- Variant growth --------------------------------------------------------------------------

  function MapChars(s: string, f: char -> char): string { seq(|s|, i requires 0 <= i < |s| => f(s[i])) }

  function PlusSpaced(s: string): string { MapChars(s, c => if c == '+' then ' ' else c) }

  function PunctuationSpaced(s: string, rules: TextRules): string {
    MapChars(s, c => if rules.punctuation(c) && c != ':' && c != '=' then ' ' else c)
  }

  function OctetsReplaced(ts: seq<Token>, filler: string): string {
    if ts == [] then ""
    else (match ts[0] case Plain(c) => [c] case Octet(_, _) => filler) + OctetsReplaced(ts[1..], filler)
  }

  function ForbiddenReplaced(s: string, filler: string, rules: TextRules): string {
    if s == "" then ""
    else (if rules.forbidden(s[0]) then filler else [s[0]]) + ForbiddenReplaced(s[1..], filler, rules)
  }

  predicate HasForbidden(s: string, rules: TextRules) {
    exists i | 0 <= i < |s| :: rules.forbidden(s[i])
  }

  /** The rewritings one candidate contributes in one growth round. */
  function Rewritings(s: string, rules: TextRules): set<string> {
    (if '+' in s then Added(PlusSpaced(s), rules) else {})
    + (if PunctuationSpaced(s, rules) != s then Added(PunctuationSpaced(s, rules), rules) else {})
    + (if HasOctet(s) then Added(OctetsReplaced(Tokens(s), ""), rules) + Added(OctetsReplaced(Tokens(s), " "), rules)
       else {})
    + (if HasForbidden(s, rules)
       then Added(ForbiddenReplaced(s, "", rules), rules) + Added(ForbiddenReplaced(s, " ", rules), rules)
       else {})
  }

  function Grow(variants: set<string>, rules: TextRules): set<string> {
    variants + set s, x | s in variants && x in Rewritings(s, rules) :: x
  }

  function GrowTimes(n: nat, variants: set<string>, rules: TextRules): set<string> {
    if n == 0 then variants else Grow(GrowTimes(n - 1, variants, rules), rules)
  }

  lemma {:induction false} GrowthKeeps(n: nat, variants: set<string>, rules: TextRules)
    ensures variants <= GrowTimes(n, variants, rules)
  {
    if n > 0 {
      GrowthKeeps(n - 1, variants, rules);
    }
  }

  /** The variants a text is judged by. */
  function Variants(value: string, rules: TextRules): set<string> {
    var start := rules.nfkc(value);
    GrowTimes(GROWTH_ROUNDS, Added(value, rules) + Added(start, rules) + Chain(MAX_ROUNDS, start, rules), rules)
  }

  /** `diagnosticTextVariants`. The early exit of the decoding loop changes nothing: the result is
      what twelve unconditional rounds and four growth rounds give. */
  method DiagnosticTextVariants(value: string, rules: TextRules) returns (variants: set<string>, incomplete: bool)
    requires rules.nfkc(rules.nfkc(value)) == rules.nfkc(value)
    ensures variants == Variants(value, rules)
    ensures incomplete == Incomplete(Iterate(MAX_ROUNDS, rules.nfkc(value), rules), rules)
  {
    ghost var start := rules.nfkc(value);
    variants := Added(value, rules);
    var decodedCandidate := rules.nfkc(value);
    var round := 0;
    var stopped := false;
    while round < MAX_ROUNDS && !stopped
      invariant 0 <= round <= MAX_ROUNDS
      invariant decodedCandidate == Iterate(round, start, rules)
      invariant variants == Added(value, rules) + Chain(round, start, rules)
      invariant Added(decodedCandidate, rules) <= variants
      invariant stopped ==> Step(decodedCandidate, rules) == decodedCandidate
      decreases MAX_ROUNDS - round, !stopped
    {
      var decoded := Step(decodedCandidate, rules);
      if decoded == decodedCandidate {
        stopped := true;
      } else {
        decodedCandidate := decoded;
        variants := variants + Added(decodedCandidate, rules);
        round := round + 1;
      }
    }
    if stopped {
      FixpointStays(round, MAX_ROUNDS, start, rules);
      assert Added(start, rules) <= Added(value, rules);
      LateRoundsAddNothing(round, value, rules);
    }
    assert variants == Added(value, rules) + Added(start, rules) + Chain(MAX_ROUNDS, start, rules);
    ghost var base := variants;
    incomplete := Incomplete(decodedCandidate, rules);
    for growth := 0 to GROWTH_ROUNDS
      invariant variants == GrowTimes(growth, base, rules)
    {
      variants := GrowOnce(variants, rules);
    }
  }

  /** One growth round, over a snapshot of the variants. */
  method GrowOnce(before: set<string>, rules: TextRules) returns (variants: set<string>)
    ensures variants == Grow(before, rules)
  {
    variants := before;
    var todo := before;
    while todo != {}
      invariant todo <= before
      invariant variants == Grow(before - todo, rules) + before
      decreases todo
    {
      var candidate :| candidate in todo;
      GrowAdd(before - todo, candidate, rules);
      assert before - (todo - {candidate}) == (before - todo) + {candidate};
      variants := variants + Rewritings(candidate, rules);
      todo := todo - {candidate};
    }
    assert before - todo == before;
  }

  lemma GrowAdd(done: set<string>, candidate: string, rules: TextRules)
    ensures Grow(done + {candidate}, rules) == Grow(done, rules) + {candidate} + Rewritings(candidate, rules)
  {
  }

  lemma LateRoundsAddNothing(m: nat, value: string, rules: TextRules)
    requires rules.nfkc(rules.nfkc(value)) == rules.nfkc(value)
    requires m <= MAX_ROUNDS
    requires Step(Iterate(m, rules.nfkc(value), rules), rules) == Iterate(m, rules.nfkc(value), rules)
    ensures Added(value, rules) + Chain(m, rules.nfkc(value), rules)
         == Added(value, rules) + Chain(MAX_ROUNDS, rules.nfkc(value), rules)
  {
    var start := rules.nfkc(value);
    assert Added(Iterate(m, start, rules), rules) <= Chain(m, start, rules) + Added(start, rules);
    ChainStops(m, MAX_ROUNDS, start, rules);
    assert Added(start, rules) <= Added(value, rules);
  }

  predicate HasSlash(s: string) { '/' in s || '\\' in s }

  /** `containsSensitiveDiagnosticText`. */
  predicate ContainsSensitive(value: string, rules: TextRules) {
    var normalized := rules.nfkc(value);
    || (normalized != value && HasSlash(normalized))
    || Incomplete(Iterate(MAX_ROUNDS, normalized, rules), rules)
    || exists x | x in Variants(value, rules) :: rules.sensitive(x)
  }

  // ---- No nesting depth hides a sensitive text ---------------------------------------------------

  /** However many decoding rounds it would take to uncover a sensitive text, the bounded check
      reports it: either a round uncovers it or the bound is hit with work left. */
  lemma NoDepthHides(n: nat, value: string, rules: TextRules)
    requires rules.sensitive(Iterate(n, rules.nfkc(value), rules))
    ensures ContainsSensitive(value, rules)
  {
    var start := rules.nfkc(value);
    var base := Added(value, rules) + Added(start, rules) + Chain(MAX_ROUNDS, start, rules);
    GrowthKeeps(GROWTH_ROUNDS, base, rules);
    if n == 0 {
      assert start in base;
    } else if n <= MAX_ROUNDS {
      ChainHas(n, MAX_ROUNDS, start, rules);
    } else if Iterate(MAX_ROUNDS + 1, start, rules) == Iterate(MAX_ROUNDS, start, rules) {
      FixpointStays(MAX_ROUNDS, n, start, rules);
      ChainHas(MAX_ROUNDS, MAX_ROUNDS, start, rules);
    }
  }

  // ---- Nested percent-encoding of ASCII text -----------------------------------------------------

  predicate Ascii(s: string) { forall i | 0 <= i < |s| :: s[i] as int < 128 }

  /** Per character: leave it, or write it as an octet with a chosen case for each digit. */
  datatype Spelling = Keep | Escape(upperHi: bool, upperLo: bool)

  function EncodeChar(c: char, spelling: Spelling): string
    requires c as int < 128
  {
    if spelling == Keep && c != '%' then [c]
    else
      var (a, b) := if spelling == Keep then (true, true) else (spelling.upperHi, spelling.upperLo);
      ['%', HexDigit(c as int / 16, a), HexDigit(c as int % 16, b)]
  }

  function Shifted(spelling: nat -> Spelling): nat -> Spelling { (i: nat) => spelling(i + 1) }

  /** One layer of percent-encoding, spelling chosen per position; `%` itself is always encoded. */
  function Encode(s: string, spelling: nat -> Spelling): (e: string)
    requires Ascii(s)
    ensures Ascii(e)
  {
    if s == "" then "" else EncodeChar(s[0], spelling(0)) + Encode(s[1..], Shifted(spelling))
  }

  function EncodeNested(s: string, layers: seq<nat -> Spelling>): (e: string)
    requires Ascii(s)
    ensures Ascii(e)
  {
    if layers == [] then s else Encode(EncodeNested(s, layers[1..]), layers[0])
  }

  /** The two facts about the runtime: ASCII text is already in NFKC, and a UTF-8 decoder maps
      ASCII bytes to the characters they are. */
  ghost predicate AsciiLaws(rules: TextRules) {
    && (forall s: string | Ascii(s) :: rules.nfkc(s) == s)
    && (forall bs: seq<nat> | AsciiBytes(bs) :: rules.utf8(bs) == Some(FromBytes(bs)))
  }

  predicate AsciiBytes(bs: seq<nat>) { forall i | 0 <= i < |bs| :: bs[i] < 128 }

  function FromBytes(bs: seq<nat>): string
    requires AsciiBytes(bs)
  {
    seq(|bs|, i requires 0 <= i < |bs| => bs[i] as char)
  }

  /** The character a token of encoded ASCII text stands for. */
  predicate Stands(t: Token, c: char) {
    match t
    case Plain(d) => d == c && c != '%'
    case Octet(hi, lo) => IsHex(hi) && IsHex(lo) && Byte(t) == c as int && c as int < 128
  }

  lemma {:induction false} EncodedTokens(s: string, spelling: nat -> Spelling)
    requires Ascii(s)
    ensures |Tokens(Encode(s, spelling))| == |s|
    ensures forall i | 0 <= i < |s| :: Stands(Tokens(Encode(s, spelling))[i], s[i])
  {
    if s != "" {
      var head, rest := EncodeChar(s[0], spelling(0)), Encode(s[1..], Shifted(spelling));
      EncodedTokens(s[1..], Shifted(spelling));
      assert (head + rest)[|head|..] == rest;
      if |head| == 3 {
        assert OctetAt(head + rest, 0);
        assert Tokens(head + rest) == [Octet(head[1], head[2])] + Tokens(rest);
        assert Byte(Octet(head[1], head[2])) == s[0] as int;
      } else {
        assert Tokens(head + rest) == [Plain(s[0])] + Tokens(rest);
      }
    }
  }

  lemma OctetsRead(ts: seq<Token>, s: string, rules: TextRules)
    requires AsciiLaws(rules) && |ts| == |s| && forall i | 0 <= i < |ts| :: ts[i].Octet? && Stands(ts[i], s[i])
    ensures WellFormed(ts) && rules.utf8(Bytes(ts)) == Some(s)
  {
    assert forall i | 0 <= i < |ts| :: Stands(ts[i], s[i]);
    var bytes := Bytes(ts);
    forall i | 0 <= i < |ts| ensures bytes[i] == s[i] as int && bytes[i] < 128 {
      assert Stands(ts[i], s[i]);
    }
    assert FromBytes(bytes) == s;
  }

  lemma {:induction false} StrictReads(ts: seq<Token>, s: string, rules: TextRules)
    requires AsciiLaws(rules)
    requires |ts| == |s| && forall i | 0 <= i < |s| :: Stands(ts[i], s[i])
    ensures WellFormed(ts) && Strict(ts, rules) == Some(s)
    decreases |s|
  {
    if s != "" {
      assert Stands(ts[0], s[0]);
      var n := if ts[0].Plain? then 1 else RunLength(ts);
      StrictReads(ts[n..], s[n..], rules);
      if ts[0].Plain? {
        assert s == [s[0]] + s[1..];
      } else {
        OctetsRead(ts[..n], s[..n], rules);
        assert s == s[..n] + s[n..];
      }
    }
  }

  /** Decoding undoes one layer, whatever its spelling. */
  lemma DecodeEncode(s: string, spelling: nat -> Spelling, rules: TextRules)
    requires AsciiLaws(rules) && Ascii(s)
    ensures Decode(Encode(s, spelling), rules) == s
  {
    EncodedTokens(s, spelling);
    StrictReads(Tokens(Encode(s, spelling)), s, rules);
  }

  lemma {:induction false} IterateFrom(n: nat, s: string, rules: TextRules)
    ensures Iterate(n + 1, s, rules) == Iterate(n, Step(s, rules), rules)
  {
    if n > 0 {
      IterateFrom(n - 1, s, rules);
    }
  }

  lemma {:induction false} IterateUndoes(s: string, layers: seq<nat -> Spelling>, rules: TextRules)
    requires AsciiLaws(rules) && Ascii(s)
    ensures Iterate(|layers|, EncodeNested(s, layers), rules) == s
  {
    if layers != [] {
      var inner := EncodeNested(s, layers[1..]);
      DecodeEncode(inner, layers[0], rules);
      IterateFrom(|layers| - 1, EncodeNested(s, layers), rules);
      IterateUndoes(s, layers[1..], rules);
    }
  }

  /** Every depth and every spelling of nested percent-encoding of a sensitive ASCII text is caught. */
  lemma NestedEncodingIsCaught(s: string, layers: seq<nat -> Spelling>, rules: TextRules)
    requires AsciiLaws(rules) && Ascii(s) && rules.sensitive(s)
    ensures ContainsSensitive(EncodeNested(s, layers), rules)
  {
    IterateUndoes(s, layers, rules);
    NoDepthHides(|layers|, EncodeNested(s, layers), rules);
  }

  /** The bound is not overcautious: a text with nothing left to decode, nested at most twelve
      layers deep, is judged on its own text and never reported as incompletely decoded. */
  lemma ShallowNestingIsComplete(s: string, layers: seq<nat -> Spelling>, rules: TextRules)
    requires AsciiLaws(rules) && Ascii(s) && Step(s, rules) == s && !HasOctet(s)
    requires |layers| <= MAX_ROUNDS
    ensures !Incomplete(Iterate(MAX_ROUNDS, EncodeNested(s, layers), rules), rules)
  {
    var text := EncodeNested(s, layers);
    IterateUndoes(s, layers, rules);
    assert Iterate(|layers| + 1, text, rules) == Step(s, rules);
    FixpointStays(|layers|, MAX_ROUNDS, text, rules);
  }
}
