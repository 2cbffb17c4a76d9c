/**
 Secret redaction (apps/cli/src/render.ts, `redactSecrets`): every registered secret is cut out of
 every string value of a JSON tree, and secret-named properties are replaced whole.
 */
module Redaction {
  import opened Common
  import opened Json

  const MARKER := "[REDACTED]"

  // ---- Text ------------------------------------------------------------------------------------

  /** `text.split(secret).join(marker)`: leftmost, non-overlapping, left to right. */
  function Replace(text: string, secret: string, marker: string): string
    requires secret != ""
  {
    if |text| < |secret| then text
    else if text[..|secret|] == secret then marker + Replace(text[|secret|..], secret, marker)
    else [text[0]] + Replace(text[1..], secret, marker)
  }

  ghost predicate NonEmpty(secrets: seq<string>) { forall i | 0 <= i < |secrets| :: secrets[i] != "" }

  function ReplaceAll(text: string, secrets: seq<string>, marker: string): string
    requires NonEmpty(secrets)
    decreases |secrets|
  {
    if secrets == [] then text else ReplaceAll(Replace(text, secrets[0], marker), secrets[1..], marker)
  }

  // ---- Overlaps with the marker ------------------------------------------------------------------

  /** Laid over `a` from position i on, `b` agrees with it as far as both go. */
  predicate Begins(a: string, b: string, i: nat) { i < |a| && (a[i..] <= b || b <= a[i..]) }

  ghost predicate NeverBegins(a: string, b: string) { forall i: nat | i < |a| :: !Begins(a, b, i) }

  /** The two texts overlap in no way: neither contains the other, and no end of one starts the other. */
  ghost predicate Apart(word: string, marker: string) { NeverBegins(word, marker) && NeverBegins(marker, word) }

  ghost predicate AllApart(secrets: seq<string>, marker: string) {
    forall i | 0 <= i < |secrets| && secrets[i] != "" :: Apart(secrets[i], marker)
  }

  lemma OccursAtStart(text: string, word: string)
    ensures OccursAt(text, word, 0) <==> word <= text
  {
    assert |word| <= |text| ==> text[0..|word|] == text[..|word|];
  }

  lemma OccursBegins(text: string, word: string, at: nat)
    requires word != ""
    ensures OccursAt(text, word, at) ==> Begins(text, word, at)
  {
    if OccursAt(text, word, at) {
      assert text[at..][..|word|] == text[at..at + |word|] == word;
      assert word <= text[at..];
    }
  }

  lemma PrefixOfSum(w: string, a: string, b: string)
    requires w <= a + b
    ensures w <= a || a <= w
  {
    assert |w| <= |a| ==> w == (a + b)[..|w|] == a[..|w|];
    assert |w| > |a| ==> w[..|a|] == (a + b)[..|a|] == a;
  }

  lemma LaterBegins(w: string, marker: string)
    requires w != "" && NeverBegins(w, marker)
    ensures NeverBegins(w[1..], marker)
  {
    forall i: nat | i < |w[1..]| ensures !Begins(w[1..], marker, i) {
      assert w[1..][i..] == w[i + 1..];
      assert !Begins(w, marker, i + 1);
    }
  }

  // ---- No occurrence is created -------------------------------------------------------------------

  /** What a replacement starts with, if no marker can begin in it, the text started with. */
  lemma {:induction false} CleanPrefix(text: string, secret: string, marker: string, word: string)
    requires secret != "" && NeverBegins(word, marker)
    requires word <= Replace(text, secret, marker)
    ensures word <= text
    decreases |text|
  {
    if word != "" && |text| >= |secret| {
      assert !Begins(word, marker, 0) && word[0..] == word;
      if text[..|secret|] == secret {
        PrefixOfSum(word, marker, Replace(text[|secret|..], secret, marker));
      } else {
        LaterBegins(word, marker);
        AfterFirst(word, text[0], Replace(text[1..], secret, marker));
        CleanPrefix(text[1..], secret, marker, word[1..]);
        assert word == [word[0]] + word[1..] && text == [text[0]] + text[1..];
      }
    }
  }

  lemma AfterFirst(word: string, c: char, rest: string)
    requires word != "" && word <= [c] + rest
    ensures word[0] == c && word[1..] <= rest
  {
    assert word[0] == ([c] + rest)[0] && ([c] + rest)[1..] == rest;
    assert word[1..] == ([c] + rest)[..|word|][1..];
  }

  lemma AcrossMarker(marker: string, rest: string, word: string, at: nat)
    requires OccursAt(marker + rest, word, at)
    ensures at < |marker| ==> Begins(marker, word, at)
    ensures at >= |marker| ==> OccursAt(rest, word, at - |marker|)
  {
    var all := marker + rest;
    if at < |marker| {
      assert all[at..] == marker[at..] + rest;
      assert word == all[at..][..|word|];
      PrefixOfSum(word, marker[at..], rest);
    } else {
      assert all[at..at + |word|] == rest[at - |marker|..at - |marker| + |word|];
    }
  }

  /** A replacement creates no occurrence of a word apart from the marker, and leaves none of the secret
      it replaces. */
  lemma {:induction false} NothingCreated(text: string, secret: string, marker: string, word: string, at: nat)
    requires secret != "" && word != "" && Apart(word, marker)
    requires OccursAt(Replace(text, secret, marker), word, at)
    ensures word != secret && Contains(text, word)
    decreases |text|
  {
    if |text| < |secret| {
      assert OccursAt(text, word, at);
    } else if text[..|secret|] == secret {
      assert at < |marker| ==> !Begins(marker, word, at);
      AcrossMarker(marker, Replace(text[|secret|..], secret, marker), word, at);
      NothingCreated(text[|secret|..], secret, marker, word, at - |marker|);
      ContainsLater(text, |secret|, word);
    } else if at > 0 {
      OccursAfterFirst(text[0], Replace(text[1..], secret, marker), word, at);
      NothingCreated(text[1..], secret, marker, word, at - 1);
      ContainsLater(text, 1, word);
    } else {
      CleanPrefix(text, secret, marker, word);
      assert OccursAt(text, word, 0);
    }
  }

  lemma OccursAfterFirst(c: char, rest: string, word: string, at: nat)
    requires at > 0 && OccursAt([c] + rest, word, at)
    ensures OccursAt(rest, word, at - 1)
  {
    assert ([c] + rest)[at..at + |word|] == rest[at - 1..at - 1 + |word|];
  }

  lemma ContainsLater(text: string, from: nat, word: string)
    requires from <= |text| && Contains(text[from..], word)
    ensures Contains(text, word)
  {
    var k: nat :| OccursAt(text[from..], word, k);
    assert text[from..][k..k + |word|] == text[from + k..from + k + |word|];
    assert OccursAt(text, word, from + k);
  }

  lemma {:induction false} LaterReplacementsCreateNothing(text: string, secrets: seq<string>, marker: string, word: string)
    requires NonEmpty(secrets) && word != "" && Apart(word, marker)
    requires Contains(ReplaceAll(text, secrets, marker), word)
    ensures word !in secrets && Contains(text, word)
    decreases |secrets|
  {
    if secrets != [] {
      var next := Replace(text, secrets[0], marker);
      LaterReplacementsCreateNothing(next, secrets[1..], marker, word);
      var at: nat :| OccursAt(next, word, at);
      NothingCreated(text, secrets[0], marker, word, at);
      assert secrets == [secrets[0]] + secrets[1..];
    }
  }

  lemma NoneLeft(text: string, secrets: seq<string>, marker: string, secret: string)
    requires NonEmpty(secrets) && AllApart(secrets, marker) && secret in secrets
    ensures !Contains(ReplaceAll(text, secrets, marker), secret)
  {
    if Contains(ReplaceAll(text, secrets, marker), secret) {
      var i :| 0 <= i < |secrets| && secrets[i] == secret;
      LaterReplacementsCreateNothing(text, secrets, marker, secret);
    }
  }

  /** After all replacements no registered secret is left, in whatever order they were made. */
  lemma NoSecretLeft(text: string, secrets: seq<string>, marker: string)
    requires NonEmpty(secrets) && AllApart(secrets, marker)
    ensures forall secret | secret in secrets :: !Contains(ReplaceAll(text, secrets, marker), secret)
  {
    forall secret | secret in secrets ensures !Contains(ReplaceAll(text, secrets, marker), secret) {
      NoneLeft(text, secrets, marker, secret);
    }
  }

  // ---- When a secret comes back -------------------------------------------------------------------

  /** After the first k characters of the secret, the whole secret is the first occurrence there is. */
  ghost predicate FirstAt(secret: string, k: nat) {
    k <= |secret| && forall j: nat | j < k :: !OccursAt(secret[..k] + secret, secret, j)
  }

  /** The secret can begin inside the marker, or the marker inside the secret after a beginning that a
      left-to-right scan passes over. */
  ghost predicate Restorable(secret: string, marker: string) {
    || (exists k: nat :: Begins(marker, secret, k))
    || (exists k: nat :: k > 0 && Begins(secret, marker, k) && FirstAt(secret, k))
  }

  /** The scan passes over a stretch in which the secret does not begin. */
  lemma {:induction false} ScanPasses(p: string, tail: string, secret: string, marker: string)
    requires secret != "" && |tail| >= |secret| && forall j: nat | j < |p| :: !OccursAt(p + tail, secret, j)
    ensures Replace(p + tail, secret, marker) == p + Replace(tail, secret, marker)
    decreases |p|
  {
    var all := p + tail;
    if p == "" {
      assert all == tail && "" + Replace(tail, secret, marker) == Replace(tail, secret, marker);
    } else {
      assert !OccursAt(all, secret, 0) && all[0..|secret|] == all[..|secret|];
      assert all[1..] == p[1..] + tail && all[0] == p[0];
      forall j: nat | j < |p[1..]| ensures !OccursAt(p[1..] + tail, secret, j) {
        assert !OccursAt(all, secret, j + 1);
        assert j + |secret| < |all| ==> all[j + 1..j + 1 + |secret|] == all[1..][j..j + |secret|];
      }
      ScanPasses(p[1..], tail, secret, marker);
      Assoc([p[0]], p[1..], Replace(tail, secret, marker));
      assert p == [p[0]] + p[1..];
    }
  }

  /** The secret followed by something shorter than itself. */
  lemma ReplaceOne(secret: string, q: string, marker: string)
    requires secret != "" && |q| < |secret|
    ensures Replace(secret + q, secret, marker) == marker + q
  {
    assert (secret + q)[..|secret|] == secret && (secret + q)[|secret|..] == q;
  }

  lemma RestoredFromMarker(secret: string, marker: string, k: nat) returns (text: string)
    requires secret != "" && Begins(marker, secret, k)
    ensures Contains(Replace(text, secret, marker), secret)
  {
    var n := |marker| - k;
    var q := if |secret| <= n then "" else secret[n..];
    text := secret + q;
    ReplaceOne(secret, q, marker);
    assert (marker + q)[k..k + |secret|] == secret;
    assert OccursAt(marker + q, secret, k);
  }

  lemma RestoredBefore(secret: string, marker: string, k: nat) returns (text: string)
    requires k > 0 && Begins(secret, marker, k) && FirstAt(secret, k)
    ensures Contains(Replace(text, secret, marker), secret)
  {
    var p := secret[..k];
    var q := if k + |marker| >= |secret| then "" else secret[k + |marker|..];
    text := p + (secret + q);
    forall j: nat | j < k ensures !OccursAt(text, secret, j) {
      assert !OccursAt(p + secret, secret, j);
      assert text[j..j + |secret|] == (p + secret)[j..j + |secret|];
    }
    ScanPasses(p, secret + q, secret, marker);
    ReplaceOne(secret, q, marker);
    Completes(secret, marker, k, q);
  }

  /** A marker laid over the secret from position k on, with what is left behind it, is the secret again. */
  lemma Completes(secret: string, marker: string, k: nat, q: string)
    requires Begins(secret, marker, k) && q == if k + |marker| >= |secret| then "" else secret[k + |marker|..]
    ensures OccursAt(secret[..k] + (marker + q), secret, 0)
  {
    var whole := secret[..k] + (marker + q);
    forall i | 0 <= i < |secret| ensures whole[i] == secret[i] {
      if k <= i {
        assert secret[k..][i - k] == secret[i] && whole[i] == (marker + q)[i - k];
      }
    }
    assert whole[0..|secret|] == secret;
  }

  lemma RoomForSecret(text: string, secret: string, marker: string, p: string)
    requires secret != "" && p <= secret
    requires forall j: nat | j < |p| :: !OccursAt(p + text, secret, j)
    requires secret[|p|..] <= Replace(text, secret, marker)
    ensures p != secret && |text| >= |secret|
  {
    var w := secret[|p|..];
    assert p + w == secret;
    OccursAtStart(p + text, secret);
    PrefixOfBoth(p, w, text);
  }

  lemma PrefixOfBoth(p: string, w: string, text: string)
    ensures w <= text <==> p + w <= p + text
  {
    assert (p + text)[|p|..] == text && (p + w)[|p|..] == w;
    assert |w| <= |text| ==> (p + text)[..|p + w|] == p + text[..|w|];
  }

  /** The secret was begun by p, which the scan has passed over, and its rest starts what comes next. */
  lemma {:induction false} RestoredPrefix(text: string, secret: string, marker: string, p: string)
    requires secret != "" && marker != "" && p <= secret
    requires forall j: nat | j < |p| :: !OccursAt(p + text, secret, j)
    requires secret[|p|..] <= Replace(text, secret, marker)
    ensures Restorable(secret, marker)
    decreases |text|
  {
    var w := secret[|p|..];
    RoomForSecret(text, secret, marker, p);
    if text[..|secret|] == secret {
      PrefixOfSum(w, marker, Replace(text[|secret|..], secret, marker));
      if p == "" {
        assert marker[0..] == marker && Begins(marker, secret, 0);
      } else {
        assert p == secret[..|p|];
        forall j: nat | j < |p| ensures !OccursAt(p + secret, secret, j) {
          assert !OccursAt(p + text, secret, j);
          assert (p + secret)[j..j + |secret|] == (p + text)[j..j + |secret|];
        }
        assert Begins(secret, marker, |p|) && FirstAt(secret, |p|);
      }
    } else {
      AfterFirst(w, text[0], Replace(text[1..], secret, marker));
      var p' := p + [text[0]];
      assert p' + text[1..] == p + text;
      assert p' <= secret && secret[|p'|..] == w[1..];
      forall j: nat | j < |p'| ensures !OccursAt(p' + text[1..], secret, j) {
        assert j == |p| ==> (p + text)[j..j + |secret|] == text[..|secret|];
      }
      RestoredPrefix(text[1..], secret, marker, p');
    }
  }

  lemma {:induction false} RestoredMeans(text: string, secret: string, marker: string, at: nat)
    requires secret != "" && marker != "" && OccursAt(Replace(text, secret, marker), secret, at)
    ensures Restorable(secret, marker)
    decreases |text|
  {
    if at > 0 && |text| >= |secret| && text[..|secret|] != secret {
      OccursAfterFirst(text[0], Replace(text[1..], secret, marker), secret, at);
      RestoredMeans(text[1..], secret, marker, at - 1);
    } else if at > 0 && |text| >= |secret| {
      AcrossMarker(marker, Replace(text[|secret|..], secret, marker), secret, at);
      if at >= |marker| {
        RestoredMeans(text[|secret|..], secret, marker, at - |marker|);
      }
    } else if |text| >= |secret| {
      assert secret[0..] == secret && Replace(text, secret, marker)[0..|secret|] == secret;
      RestoredPrefix(text, secret, marker, "");
    }
  }

  /** The replacement of the secret leaves the secret in the text. */
  ghost predicate ComesBack(text: string, secret: string, marker: string)
    requires secret != ""
  {
    Contains(Replace(text, secret, marker), secret)
  }

  /** With one registered secret: some text has the secret back after its replacement exactly when the
      secret overlaps the marker in a way the scan can meet. */
  lemma RestorableIff(secret: string, marker: string)
    requires secret != "" && marker != ""
    ensures (exists text :: ComesBack(text, secret, marker)) <==> Restorable(secret, marker)
  {
    if text :| ComesBack(text, secret, marker) {
      var at: nat :| OccursAt(Replace(text, secret, marker), secret, at);
      RestoredMeans(text, secret, marker, at);
    }
    if Restorable(secret, marker) {
      var text := RestoredText(secret, marker);
      assert ComesBack(text, secret, marker);
    }
  }

  lemma RestoredText(secret: string, marker: string) returns (text: string)
    requires secret != "" && Restorable(secret, marker)
    ensures Contains(Replace(text, secret, marker), secret)
  {
    if k: nat :| Begins(marker, secret, k) {
      text := RestoredFromMarker(secret, marker, k);
    } else {
      var k: nat :| k > 0 && Begins(secret, marker, k) && FirstAt(secret, k);
      text := RestoredBefore(secret, marker, k);
    }
  }

  lemma LastOfPrefix(a: string, b: string)
    requires a != ""
    ensures a <= b ==> a[|a| - 1] in b
  {
  }

  predicate BracketFree(word: string) { '[' !in word && ']' !in word }

  /** A secret without square brackets overlaps the marker only as a part of it. */
  lemma BracketFreeApartIff(word: string)
    requires BracketFree(word) && word != ""
    ensures Apart(word, MARKER) <==> !Contains(MARKER, word)
  {
    var last := |MARKER| - 1;
    assert MARKER[0] == '[' && MARKER[last] == ']';
    forall i: nat | i < |word| ensures !Begins(word, MARKER, i) {
      assert word[i..][0] == word[i] && word[i] in word;
    }
    forall i: nat | i < |MARKER| ensures Begins(MARKER, word, i) <==> OccursAt(MARKER, word, i) {
      var rest := MARKER[i..];
      assert rest[|rest| - 1] == ']';
      LastOfPrefix(rest, word);
      OccursBegins(MARKER, word, i);
      assert word <= rest ==> rest[..|word|] == MARKER[i..i + |word|];
    }
    if at: nat :| OccursAt(MARKER, word, at) {
      assert Begins(MARKER, word, at);
    }
  }

  /** A registered part of the marker comes back, whatever else is registered: a value that is that
      secret ends up with a whole marker in it. */
  lemma {:induction false} MarkerPartComesBack(text: string, secrets: seq<string>, marker: string, secret: string)
    requires NonEmpty(secrets) && Contains(marker, secret)
    requires Contains(text, marker) || (text == secret && secret in secrets)
    ensures Contains(ReplaceAll(text, secrets, marker), secret)
    decreases |secrets|
  {
    if secrets == [] {
      ContainsThrough(text, marker, secret);
    } else {
      var next := Replace(text, secrets[0], marker);
      if Contains(text, secrets[0]) {
        ReplacedHasMarker(text, secrets[0], marker);
      } else {
        NoOccurrenceNoChange(text, secrets[0], marker);
        if text == secret {
          assert secret[0..|secret|] == secret;
          assert OccursAt(text, secret, 0);
        }
      }
      MarkerPartComesBack(next, secrets[1..], marker, secret);
    }
  }

  lemma SliceOfSlice(text: string, i: nat, m: nat, j: nat, n: nat)
    requires i + m <= |text| && j + n <= m
    ensures text[i..i + m][j..j + n] == text[i + j..i + j + n]
  {
    var inner, direct := text[i..i + m][j..j + n], text[i + j..i + j + n];
    assert |inner| == |direct| && forall k | 0 <= k < n :: inner[k] == direct[k];
  }

  lemma ContainsThrough(text: string, middle: string, word: string)
    requires Contains(text, middle) && Contains(middle, word)
    ensures Contains(text, word)
  {
    var i: nat :| OccursAt(text, middle, i);
    var j: nat :| OccursAt(middle, word, j);
    SliceOfSlice(text, i, |middle|, j, |word|);
    assert OccursAt(text, word, i + j);
  }

  lemma {:induction false} ReplacedHasMarker(text: string, secret: string, marker: string)
    requires secret != "" && Contains(text, secret)
    ensures Contains(Replace(text, secret, marker), marker)
    decreases |text|
  {
    var at: nat :| OccursAt(text, secret, at);
    if text[..|secret|] == secret {
      var rest := Replace(text[|secret|..], secret, marker);
      assert (marker + rest)[0..|marker|] == marker;
      assert OccursAt(marker + rest, marker, 0);
    } else {
      OccursAtStart(text, secret);
      assert at > 0 && text == [text[0]] + text[1..];
      OccursAfterFirst(text[0], text[1..], secret, at);
      ReplacedHasMarker(text[1..], secret, marker);
      var rest := Replace(text[1..], secret, marker);
      assert ([text[0]] + rest)[1..] == rest;
      ContainsLater([text[0]] + rest, 1, marker);
    }
  }

  /** Redacting the text with all the secrets leaves none of this one. */
  ghost predicate Gone(text: string, secrets: seq<string>, secret: string)
    requires NonEmpty(secrets)
  {
    !Contains(ReplaceAll(text, secrets, MARKER), secret)
  }

  /** Any number of secrets without square brackets: no text holds a registered secret after redaction, if
      and only if no registered secret is part of the marker. */
  lemma BracketFreeSecretsIff(secrets: seq<string>)
    requires NonEmpty(secrets) && forall i | 0 <= i < |secrets| :: BracketFree(secrets[i])
    ensures (forall text, secret | secret in secrets :: Gone(text, secrets, secret))
            <==> (forall secret | secret in secrets :: !Contains(MARKER, secret))
  {
    if forall secret | secret in secrets :: !Contains(MARKER, secret) {
      BracketFreeAllApart(secrets);
      forall text, secret | secret in secrets ensures Gone(text, secrets, secret) {
        NoneLeft(text, secrets, MARKER, secret);
      }
    } else {
      var secret :| secret in secrets && Contains(MARKER, secret);
      MarkerPartComesBack(secret, secrets, MARKER, secret);
      assert !Gone(secret, secrets, secret);
    }
  }

  lemma BracketFreeAllApart(secrets: seq<string>)
    requires NonEmpty(secrets) && forall i | 0 <= i < |secrets| :: BracketFree(secrets[i])
    requires forall secret | secret in secrets :: !Contains(MARKER, secret)
    ensures AllApart(secrets, MARKER)
  {
    forall i | 0 <= i < |secrets| ensures Apart(secrets[i], MARKER) {
      assert secrets[i] in secrets;
      BracketFreeApartIff(secrets[i]);
    }
  }

  // ---- Longest secret first ------------------------------------------------------------------------

  function InsertByLength(secret: string, sorted: seq<string>): (r: seq<string>)
    ensures multiset(r) == multiset(sorted) + multiset{secret}
  {
    if sorted == [] then [secret]
    else if |sorted[0]| < |secret| then
      assert multiset([secret] + sorted) == multiset{secret} + multiset(sorted);
      [secret] + sorted
    else
      var rest := InsertByLength(secret, sorted[1..]);
      assert sorted == [sorted[0]] + sorted[1..];
      assert multiset([sorted[0]] + rest) == multiset{sorted[0]} + multiset(rest);
      [sorted[0]] + rest
  }

  /** `[...registered].filter(Boolean).sort((left, right) => right.length - left.length)`. */
  function SortedSecrets(registered: seq<string>): seq<string> {
    if registered == [] then []
    else
      var n := |registered| - 1;
      if registered[n] == "" then SortedSecrets(registered[..n])
      else InsertByLength(registered[n], SortedSecrets(registered[..n]))
  }

  ghost predicate LongestFirst(s: seq<string>) {
    forall i, j | 0 <= i < j < |s| :: |s[j]| <= |s[i]|
  }

  lemma {:induction false} InsertKeepsOrder(secret: string, sorted: seq<string>)
    requires LongestFirst(sorted)
    ensures LongestFirst(InsertByLength(secret, sorted))
  {
    if sorted != [] && |sorted[0]| >= |secret| {
      var rest := InsertByLength(secret, sorted[1..]);
      InsertKeepsOrder(secret, sorted[1..]);
      forall j | 0 <= j < |rest| ensures |rest[j]| <= |sorted[0]| {
        assert rest[j] in multiset(rest);
        if rest[j] != secret {
          assert rest[j] in multiset(sorted[1..]);
          assert rest[j] in sorted[1..];
        }
      }
    }
  }

  /** The sort keeps exactly the non-empty secrets, longest first. */
  lemma {:induction false} SortedSecretsAre(registered: seq<string>)
    ensures LongestFirst(SortedSecrets(registered)) && NonEmpty(SortedSecrets(registered))
    ensures forall s :: s in SortedSecrets(registered) <==> s in registered && s != ""
  {
    if registered != [] {
      var n := |registered| - 1;
      var before := SortedSecrets(registered[..n]);
      SortedSecretsAre(registered[..n]);
      assert registered == registered[..n] + [registered[n]];
      if registered[n] != "" {
        InsertKeepsOrder(registered[n], before);
        var all := InsertByLength(registered[n], before);
        forall s ensures s in all <==> s in before || s == registered[n] {
          assert s in all <==> s in multiset(all);
          assert s in before <==> s in multiset(before);
        }
        forall i | 0 <= i < |all| ensures all[i] != "" { assert all[i] in all; }
      }
    }
  }

  lemma {:induction false} NoOccurrenceNoChange(text: string, secret: string, marker: string)
    requires secret != "" && !Contains(text, secret)
    ensures Replace(text, secret, marker) == text
    decreases |text|
  {
    if |text| >= |secret| {
      assert !OccursAt(text, secret, 0);
      if Contains(text[1..], secret) {
        ContainsLater(text, 1, secret);
      }
      NoOccurrenceNoChange(text[1..], secret, marker);
    }
  }

  lemma ShorterHasNone(text: string, secret: string)
    requires |text| <= |secret| && text != secret
    ensures !Contains(text, secret)
  {
    forall at: nat ensures !OccursAt(text, secret, at) {
      if at + |secret| <= |text| { assert text[0..|text|] == text; }
    }
  }

  lemma ApartHasNone(marker: string, secret: string)
    requires secret != "" && Apart(secret, marker)
    ensures !Contains(marker, secret)
  {
    forall at: nat ensures !OccursAt(marker, secret, at) {
      OccursBegins(marker, secret, at);
    }
  }

  lemma {:induction false} MarkerStays(secrets: seq<string>, marker: string)
    requires NonEmpty(secrets) && AllApart(secrets, marker)
    ensures ReplaceAll(marker, secrets, marker) == marker
  {
    if secrets != [] {
      ApartHasNone(marker, secrets[0]);
      NoOccurrenceNoChange(marker, secrets[0], marker);
      MarkerStays(secrets[1..], marker);
    }
  }

  /** Longest first means a value that is exactly a registered secret becomes exactly the marker, even
      when shorter secrets are parts of it. */
  lemma {:induction false} WholeSecretBecomesMarker(secret: string, secrets: seq<string>, marker: string)
    requires NonEmpty(secrets) && AllApart(secrets, marker) && LongestFirst(secrets) && secret in secrets
    ensures ReplaceAll(secret, secrets, marker) == marker
    decreases |secrets|
  {
    if secrets[0] == secret {
      assert secret[..|secret|] == secret && secret[|secret|..] == "";
      assert Replace("", secret, marker) == "" && marker + "" == marker;
      MarkerStays(secrets[1..], marker);
    } else {
      ShorterHasNone(secret, secrets[0]);
      NoOccurrenceNoChange(secret, secrets[0], marker);
      WholeSecretBecomesMarker(secret, secrets[1..], marker);
    }
  }

  // ---- Trees -------------------------------------------------------------------------------------

  const SECRET_KEYS: set<string> := {
    "authorization", "cookie", "set-cookie", "password", "username", "token",
    "hosttoken", "host_token", "host-token", "accesstoken", "access_token", "access-token",
    "refreshtoken", "refresh_token", "refresh-token", "apikey", "api_key", "api-key"}

  predicate SecretKey(key: string) { Lower(key) in SECRET_KEYS }

  const PROTO := "__proto__"

  /** `visit`. Assigning the key `__proto__` to an ordinary object adds no own property. */
  function Visit(value: Value, secrets: seq<string>): Value
    requires NonEmpty(secrets)
    decreases value
  {
    match value
    case Str(text) => Str(ReplaceAll(text, secrets, MARKER))
    case Arr(items) => Arr(VisitItems(items, secrets))
    case Obj(fields) => Obj(VisitFields(fields, secrets))
    case _ => value
  }

  function VisitItems(items: seq<Value>, secrets: seq<string>): seq<Value>
    requires NonEmpty(secrets)
    decreases items
  {
    if items == [] then [] else [Visit(items[0], secrets)] + VisitItems(items[1..], secrets)
  }

  function VisitFields(fields: seq<Field>, secrets: seq<string>): seq<Field>
    requires NonEmpty(secrets)
    decreases fields
  {
    if fields == [] then []
    else
      var field := fields[0];
      (if field.key == PROTO then []
       else [Field(field.key, if SecretKey(field.key) then Str(MARKER) else Visit(field.value, secrets))])
      + VisitFields(fields[1..], secrets)
  }

  function RedactSecrets(value: Value, registered: seq<string>): Value {
    SortedSecretsAre(registered);
    Visit(value, SortedSecrets(registered))
  }

  /** No string value anywhere in the tree contains the secret. */
  ghost predicate Clean(value: Value, secret: string)
    decreases value
  {
    match value
    case Str(text) => !Contains(text, secret)
    case Arr(items) => CleanItems(items, secret)
    case Obj(fields) => CleanFields(fields, secret)
    case _ => true
  }

  ghost predicate CleanItems(items: seq<Value>, secret: string)
    decreases items
  {
    items == [] || (Clean(items[0], secret) && CleanItems(items[1..], secret))
  }

  ghost predicate CleanFields(fields: seq<Field>, secret: string)
    decreases fields
  {
    fields == [] || (Clean(fields[0].value, secret) && CleanFields(fields[1..], secret))
  }

  lemma {:induction false} VisitCleans(value: Value, secrets: seq<string>, secret: string)
    requires NonEmpty(secrets) && AllApart(secrets, MARKER) && secret in secrets
    ensures Clean(Visit(value, secrets), secret)
    decreases value
  {
    match value
    case Str(text) => NoSecretLeft(text, secrets, MARKER);
    case Arr(items) => VisitItemsCleans(items, secrets, secret);
    case Obj(fields) => VisitFieldsCleans(fields, secrets, secret);
    case _ =>
  }

  lemma {:induction false} VisitItemsCleans(items: seq<Value>, secrets: seq<string>, secret: string)
    requires NonEmpty(secrets) && AllApart(secrets, MARKER) && secret in secrets
    ensures CleanItems(VisitItems(items, secrets), secret)
    decreases items
  {
    if items != [] {
      VisitCleans(items[0], secrets, secret);
      VisitItemsCleans(items[1..], secrets, secret);
    }
  }

  lemma {:induction false} VisitFieldsCleans(fields: seq<Field>, secrets: seq<string>, secret: string)
    requires NonEmpty(secrets) && AllApart(secrets, MARKER) && secret in secrets
    ensures CleanFields(VisitFields(fields, secrets), secret)
    decreases fields
  {
    if fields != [] {
      VisitCleans(fields[0].value, secrets, secret);
      VisitFieldsCleans(fields[1..], secrets, secret);
      var i :| 0 <= i < |secrets| && secrets[i] == secret;
      ApartHasNone(MARKER, secret);
      var rest := VisitFields(fields[1..], secrets);
      if fields[0].key == PROTO {
        assert [] + rest == rest;
      } else {
        var f := Field(fields[0].key, if SecretKey(fields[0].key) then Str(MARKER) else Visit(fields[0].value, secrets));
        assert ([f] + rest)[1..] == rest;
      }
    }
  }

  /** After redaction no string value in the tree contains any registered secret, provided no secret
      overlaps the marker. */
  lemma RedactedTreeIsClean(value: Value, registered: seq<string>, secret: string)
    requires AllApart(registered, MARKER) && secret in registered && secret != ""
    ensures Clean(RedactSecrets(value, registered), secret)
  {
    SortedSecretsAre(registered);
    var secrets := SortedSecrets(registered);
    forall i | 0 <= i < |secrets| ensures Apart(secrets[i], MARKER) {
      assert secrets[i] in secrets && secrets[i] != "";
      var j :| 0 <= j < |registered| && registered[j] == secrets[i];
    }
    VisitCleans(value, secrets, secret);
  }

  /** Same kinds, lengths and keys; below a secret-named key only the key is compared. */
  ghost predicate SameShape(a: Value, b: Value)
    decreases a
  {
    match a
    case Str(_) => b.Str?
    case Arr(items) => b.Arr? && SameItems(items, b.items)
    case Obj(fields) => b.Obj? && SameFields(fields, b.fields)
    case _ => b == a
  }

  ghost predicate SameItems(a: seq<Value>, b: seq<Value>)
    decreases a
  {
    if a == [] || b == [] then a == [] && b == [] else SameShape(a[0], b[0]) && SameItems(a[1..], b[1..])
  }

  ghost predicate SameFields(a: seq<Field>, b: seq<Field>)
    decreases a
  {
    if a == [] || b == [] then a == [] && b == []
    else a[0].key == b[0].key && (SecretKey(a[0].key) || SameShape(a[0].value, b[0].value)) && SameFields(a[1..], b[1..])
  }

  /** An object the redaction reaches has an own property named `__proto__`. */
  predicate HasProto(value: Value)
    decreases value
  {
    match value
    case Arr(items) => ItemsHaveProto(items)
    case Obj(fields) => FieldsHaveProto(fields)
    case _ => false
  }

  predicate ItemsHaveProto(items: seq<Value>)
    decreases items
  {
    items != [] && (HasProto(items[0]) || ItemsHaveProto(items[1..]))
  }

  predicate FieldsHaveProto(fields: seq<Field>)
    decreases fields
  {
    fields != [] && (fields[0].key == PROTO || (!SecretKey(fields[0].key) && HasProto(fields[0].value)) || FieldsHaveProto(fields[1..]))
  }

  lemma {:induction false} FewerFields(fields: seq<Field>, secrets: seq<string>)
    requires NonEmpty(secrets)
    ensures |VisitFields(fields, secrets)| <= |fields|
  {
    if fields != [] {
      FewerFields(fields[1..], secrets);
    }
  }

  lemma {:induction false} SameFieldsLength(a: seq<Field>, b: seq<Field>)
    requires SameFields(a, b)
    ensures |a| == |b|
  {
    if a != [] && b != [] {
      SameFieldsLength(a[1..], b[1..]);
    }
  }

  /** Redaction keeps the shape and the keys of every tree but those with an own `__proto__` key,
      which loses that property. */
  lemma {:induction false} ShapeKeptIff(value: Value, secrets: seq<string>)
    requires NonEmpty(secrets)
    ensures SameShape(value, Visit(value, secrets)) <==> !HasProto(value)
    decreases value
  {
    match value
    case Arr(items) => ItemsKeptIff(items, secrets);
    case Obj(fields) => FieldsKeptIff(fields, secrets);
    case _ =>
  }

  lemma {:induction false} ItemsKeptIff(items: seq<Value>, secrets: seq<string>)
    requires NonEmpty(secrets)
    ensures SameItems(items, VisitItems(items, secrets)) <==> !ItemsHaveProto(items)
    decreases items
  {
    if items != [] {
      ShapeKeptIff(items[0], secrets);
      ItemsKeptIff(items[1..], secrets);
    }
  }

  lemma {:induction false} FieldsKeptIff(fields: seq<Field>, secrets: seq<string>)
    requires NonEmpty(secrets)
    ensures SameFields(fields, VisitFields(fields, secrets)) <==> !FieldsHaveProto(fields)
    decreases fields
  {
    if fields != [] {
      ShapeKeptIff(fields[0].value, secrets);
      FieldsKeptIff(fields[1..], secrets);
      if fields[0].key == PROTO {
        FewerFields(fields[1..], secrets);
        if SameFields(fields, VisitFields(fields, secrets)) {
          SameFieldsLength(fields, VisitFields(fields, secrets));
        }
      }
    }
  }
}
