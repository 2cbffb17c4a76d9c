/**
 How the two readers of one configured URL treat the whitespace around it. The probe calls
 `trim` before parsing (apps/server/src/agent-context-cloud-probe.ts); the report hands the text to
 the URL parser as it is (apps/server/src/agent-context-diagnostics.ts).
 */
module UrlText {
  import opened Common

  const TERMINAL_PATH := "/mcp/agent"

  datatype Url = Url(protocol: string, hostname: string, origin: string, pathname: string,
                     username: string, password: string, search: string, hash: string)

  /** What `String.prototype.trim` removes. */
  predicate JsWhitespace(c: char) {
    || c in {'\t', '\n', '\U{B}', '\U{C}', '\r', ' ', '\U{A0}', '\U{1680}', '\U{2028}', '\U{2029}', '\U{202F}',
             '\U{205F}', '\U{3000}', '\U{FEFF}'}
    || '\U{2000}' <= c <= '\U{200A}'
  }

  /** What a URL parser removes from both ends: C0 controls and the space. */
  predicate UrlPadding(c: char) { c <= ' ' }

  /** The first index from i on that is not dropped. */
  function Start(s: string, drop: char -> bool, i: nat): (a: nat)
    requires i <= |s|
    ensures i <= a <= |s|
    ensures forall k | i <= k < a :: drop(s[k])
    ensures a < |s| ==> !drop(s[a])
    decreases |s| - i
  {
    if i == |s| || !drop(s[i]) then i else Start(s, drop, i + 1)
  }

  /** The index after the last kept character before j, or low. */
  function End(s: string, drop: char -> bool, low: nat, j: nat): (b: nat)
    requires low <= j <= |s|
    ensures low <= b <= j
    ensures forall k | b <= k < j :: drop(s[k])
    ensures b > low ==> !drop(s[b - 1])
    decreases j
  {
    if j == low || !drop(s[j - 1]) then j else End(s, drop, low, j - 1)
  }

  function TrimStart(s: string, drop: char -> bool): nat { Start(s, drop, 0) }

  function TrimEnd(s: string, drop: char -> bool): nat { End(s, drop, TrimStart(s, drop), |s|) }

  function Trim(s: string, drop: char -> bool): string { s[TrimStart(s, drop)..TrimEnd(s, drop)] }

  predicate Letter(c: char) { 'a' <= c <= 'z' || 'A' <= c <= 'Z' }

  // ---- The parser's laws --------------------------------------------------------------------------

  ghost predicate PaddingIgnored(u: string, parse: string -> Option<Url>) {
    parse(u) == parse(Trim(u, UrlPadding))
  }

  ghost predicate SchemeNeeded(u: string, parse: string -> Option<Url>) {
    Trim(u, UrlPadding) == "" || !Letter(Trim(u, UrlPadding)[0]) ==> parse(u) == None
  }

  ghost predicate TailEncoded(u: string, parse: string -> Option<Url>) {
    u != "" && u[|u| - 1] > '~' && '?' !in u && '#' !in u && parse(u).Some? ==>
      !EndsWith(parse(u).value.pathname, TERMINAL_PATH)
  }

  /** Laws of the WHATWG basic URL parser used without a base: padding is stripped first, what is left
      starts with the letter of a scheme, and a path ending in a non-ASCII character is percent-encoded
      there, so it does not end in the route. */
  ghost predicate UrlLaws(parse: string -> Option<Url>) {
    && (forall u: string :: PaddingIgnored(u, parse))
    && (forall u: string :: SchemeNeeded(u, parse))
    && (forall u: string :: TailEncoded(u, parse))
  }

  /** Every character `trim` would remove from either end is one the URL parser removes too. */
  predicate PlainPadding(u: string) {
    forall i | 0 <= i < |u| && !(TrimStart(u, JsWhitespace) <= i < TrimEnd(u, JsWhitespace)) :: UrlPadding(u[i])
  }

  /** A cut with dropped characters outside and kept ones at its ends is the trim. */
  lemma TrimIs(s: string, drop: char -> bool, a: nat, b: nat)
    requires a < b <= |s| && !drop(s[a]) && !drop(s[b - 1])
    requires forall k | 0 <= k < |s| && !(a <= k < b) :: drop(s[k])
    ensures Trim(s, drop) == s[a..b] && TrimStart(s, drop) == a && TrimEnd(s, drop) == b
  {
  }

  /** One more dropped character in front changes nothing. */
  lemma {:induction false} TrimAfter(c: char, s: string, drop: char -> bool)
    requires drop(c) && Trim(s, drop) != ""
    ensures Trim([c] + s, drop) == Trim(s, drop) && TrimStart([c] + s, drop) == TrimStart(s, drop) + 1
  {
    var a, b, t := TrimStart(s, drop), TrimEnd(s, drop), [c] + s;
    assert t[a + 1] == s[a] && t[b] == s[b - 1];
    forall k | 0 <= k < |t| && !(a + 1 <= k < b + 1) ensures drop(t[k]) {
      assert k > 0 ==> t[k] == s[k - 1];
    }
    TrimIs(t, drop, a + 1, b + 1);
    Shifted(c, s, a, b);
  }

  lemma Shifted(c: char, s: string, a: nat, b: nat)
    requires a <= b <= |s|
    ensures ([c] + s)[a + 1..b + 1] == s[a..b]
  {
  }

  lemma TrimNothing(s: string, drop: char -> bool)
    requires forall k | 0 <= k < |s| :: drop(s[k])
    ensures Trim(s, drop) == "" && TrimStart(s, drop) == |s|
  {
  }

  lemma TrimWithin(u: string, drop: char -> bool, a: nat, b: nat, c: nat, d: nat)
    requires a <= c < d <= b <= |u| && !drop(u[c]) && !drop(u[d - 1])
    requires forall k | a <= k < b && !(c <= k < d) :: drop(u[k])
    ensures Trim(u[a..b], drop) == u[c..d]
  {
    var raw := u[a..b];
    forall k | 0 <= k < |raw| ensures raw[k] == u[a + k] {}
    TrimIs(raw, drop, c - a, d - a);
    assert raw[c - a..d - a] == u[c..d];
  }

  /** Trimming first by one class, then by another that covers all it removed, is trimming by the other. */
  lemma TrimInTwoSteps(u: string, first: char -> bool, drop: char -> bool)
    requires forall i | 0 <= i < |u| && !(TrimStart(u, first) <= i < TrimEnd(u, first)) :: drop(u[i])
    ensures Trim(Trim(u, first), drop) == Trim(u, drop)
  {
    var a, b := TrimStart(u, first), TrimEnd(u, first);
    var c, d := TrimStart(u, drop), TrimEnd(u, drop);
    if c < d {
      TrimWithin(u, drop, a, b, c, d);
    } else {
      TrimNothing(u[a..b], drop);
    }
  }

  /** Plain padding: both readings see the same URL. */
  lemma PlainPaddingAgrees(u: string, parse: string -> Option<Url>)
    requires UrlLaws(parse) && PlainPadding(u)
    ensures parse(u) == parse(Trim(u, JsWhitespace))
  {
    TrimInTwoSteps(u, JsWhitespace, UrlPadding);
    assert PaddingIgnored(u, parse) && PaddingIgnored(Trim(u, JsWhitespace), parse);
  }

  lemma WhitespaceKinds(c: char)
    requires JsWhitespace(c)
    ensures !Letter(c) && c != '?' && c != '#'
    ensures UrlPadding(c) || c > '~'
  {
  }

  /** Every character of a text is trimmed whitespace or survives the trim. */
  lemma NoQueryAnywhere(u: string)
    requires '?' !in Trim(u, JsWhitespace) && '#' !in Trim(u, JsWhitespace)
    ensures '?' !in u && '#' !in u
  {
    var a, b := TrimStart(u, JsWhitespace), TrimEnd(u, JsWhitespace);
    forall k | 0 <= k < |u| ensures u[k] != '?' && u[k] != '#' {
      if a <= k < b {
        assert Trim(u, JsWhitespace)[k - a] == u[k];
      } else {
        WhitespaceKinds(u[k]);
      }
    }
  }

  lemma LeadingPaddingBreaks(u: string, i: nat, parse: string -> Option<Url>)
    requires UrlLaws(parse) && i < TrimStart(u, JsWhitespace) && !UrlPadding(u[i])
    ensures parse(u) == None
  {
    var c := TrimStart(u, UrlPadding);
    assert c <= i;
    WhitespaceKinds(u[c]);
    assert Trim(u, UrlPadding) != "" ==> Trim(u, UrlPadding)[0] == u[c];
    assert SchemeNeeded(u, parse);
  }

  lemma {:induction false} TrailingPaddingBreaks(u: string, i: nat, parse: string -> Option<Url>)
    requires UrlLaws(parse) && '?' !in u && '#' !in u
    requires TrimEnd(u, JsWhitespace) <= i < |u| && !UrlPadding(u[i])
    ensures parse(u).Some? ==> !EndsWith(parse(u).value.pathname, TERMINAL_PATH)
  {
    assert PaddingIgnored(u, parse) && TailEncoded(Trim(u, UrlPadding), parse);
    var core := CoreEndsHigh(u, i);
  }

  /** Trailing whitespace the URL parser keeps is above the ASCII range, and stays at the end of what it keeps. */
  lemma CoreEndsHigh(u: string, i: nat) returns (core: string)
    requires '?' !in u && '#' !in u
    requires TrimEnd(u, JsWhitespace) <= i < |u| && !UrlPadding(u[i])
    ensures core == Trim(u, UrlPadding) && core != "" && core[|core| - 1] > '~' && '?' !in core && '#' !in core
  {
    var c, d := TrimStart(u, UrlPadding), TrimEnd(u, UrlPadding);
    assert c <= i < d;
    WhitespaceKinds(u[d - 1]);
    core := u[c..d];
    assert core[|core| - 1] == u[d - 1];
  }

  /** Any other padding: the untrimmed URL is refused, or its path no longer ends at the route. */
  lemma OtherPaddingLosesThePath(u: string, parse: string -> Option<Url>)
    requires UrlLaws(parse) && !PlainPadding(u)
    requires '?' !in Trim(u, JsWhitespace) && '#' !in Trim(u, JsWhitespace)
    ensures parse(u).Some? ==> !EndsWith(parse(u).value.pathname, TERMINAL_PATH)
  {
    var i: nat :| i < |u| && !(TrimStart(u, JsWhitespace) <= i < TrimEnd(u, JsWhitespace)) && !UrlPadding(u[i]);
    if i < TrimStart(u, JsWhitespace) {
      LeadingPaddingBreaks(u, i, parse);
    } else {
      NoQueryAnywhere(u);
      TrailingPaddingBreaks(u, i, parse);
    }
  }
}
