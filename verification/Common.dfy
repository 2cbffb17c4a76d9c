/** Small datatypes and sequence vocabulary shared by the models. */
module Common {

  datatype Option<+T> = None | Some(value: T)

  datatype Result<+T, +E> = Ok(value: T) | Err(error: E)

  function Flatten<T>(parts: seq<seq<T>>): seq<T> {
    if parts == [] then [] else parts[0] + Flatten(parts[1..])
  }

  lemma Assoc<T>(a: seq<T>, b: seq<T>, c: seq<T>)
    ensures a + b + c == a + (b + c)
  {
  }

  lemma {:induction false} FlattenAppend<T>(a: seq<seq<T>>, b: seq<seq<T>>)
    ensures Flatten(a + b) == Flatten(a) + Flatten(b)
  {
    if a == [] {
      assert a + b == b;
    } else {
      FlattenAppend(a[1..], b);
      assert (a + b)[0] == a[0] && (a + b)[1..] == a[1..] + b;
      Assoc(a[0], Flatten(a[1..]), Flatten(b));
    }
  }

  /** `parts.join(separator)`. */
  function Join<T>(parts: seq<seq<T>>, separator: seq<T>): seq<T> {
    if parts == [] then []
    else if |parts| == 1 then parts[0]
    else parts[0] + separator + Join(parts[1..], separator)
  }

  predicate OccursAt<T(==)>(text: seq<T>, word: seq<T>, at: nat) {
    at + |word| <= |text| && text[at..at + |word|] == word
  }

  ghost predicate Contains<T>(text: seq<T>, word: seq<T>) {
    exists at: nat :: OccursAt(text, word, at)
  }

  predicate StartsWith<T(==)>(text: seq<T>, prefix: seq<T>) {
    |prefix| <= |text| && text[..|prefix|] == prefix
  }

  predicate EndsWith<T(==)>(text: seq<T>, suffix: seq<T>) {
    |suffix| <= |text| && text[|text| - |suffix|..] == suffix
  }

  /** `text.indexOf(c)`, with `|text|` where the source has -1. */
  function IndexOf<T(==)>(text: seq<T>, c: T): (i: nat)
    ensures i <= |text|
    ensures c !in text[..i]
    ensures i < |text| ==> text[i] == c
    ensures i == |text| ==> c !in text
  {
    if text == [] || text[0] == c then 0
    else
      var rest := IndexOf(text[1..], c);
      assert text[..rest + 1] == [text[0]] + text[1..][..rest];
      rest + 1
  }

  lemma IndexOfIs<T>(text: seq<T>, c: T, i: nat)
    requires i < |text| && text[i] == c && c !in text[..i]
    ensures IndexOf(text, c) == i
  {
    NotBefore(text, c, i);
    NotBefore(text, c, IndexOf(text, c));
  }

  lemma NotBefore<T>(text: seq<T>, c: T, n: nat)
    requires n <= |text| && c !in text[..n]
    ensures forall j | 0 <= j < n :: text[j] != c
  {
    forall j | 0 <= j < n ensures text[j] != c {
      assert text[..n][j] == text[j];
    }
  }

  /** `toLowerCase` on ASCII text. */
  function Lower(s: string): string {
    seq(|s|, i requires 0 <= i < |s| => if 'A' <= s[i] <= 'Z' then ((s[i] as int) + 32) as char else s[i])
  }
}
