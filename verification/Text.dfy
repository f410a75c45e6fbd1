// The few string operations the store relies on, over strings of Unicode code points: lower-casing,
// trimming, searching, lengths in bytes, and the ordering of ids.
module Text {

  function AsciiLower(c: char): char {
    if 'A' <= c <= 'Z' then (c as int + 32) as char else c
  }

  // What the store relies on of a table of lower-case letters: it says what ASCII says about ASCII, and
  // lower-casing twice is lower-casing once.
  ghost predicate IsCasing(f: char -> char) {
    && (forall c :: f(f(c)) == f(c))
    && (forall c | c < '\U{80}' :: f(c) == AsciiLower(c))
  }

  type Casing = f: char -> char | IsCasing(f) witness (c => AsciiLower(c))

  // Any such table, Unicode's among them.
  const LOWER_CASE: Casing

  function Lower(s: string): (r: string)
    ensures |r| == |s|
  {
    seq(|s|, i requires 0 <= i < |s| => LOWER_CASE(s[i]))
  }

  lemma LowerIdempotent(s: string)
    ensures Lower(Lower(s)) == Lower(s)
  {
    assert forall i | 0 <= i < |s| :: Lower(Lower(s))[i] == LOWER_CASE(LOWER_CASE(s[i]));
  }

  lemma LowerConcat(a: string, b: string)
    ensures Lower(a + b) == Lower(a) + Lower(b)
  {
    assert forall i | 0 <= i < |a| + |b| :: Lower(a + b)[i] == (Lower(a) + Lower(b))[i];
  }

  // Unicode's white space.
  predicate IsSpace(c: char) {
    || '\t' <= c <= '\r' || c == ' ' || c == '\U{85}' || c == '\U{A0}' || c == '\U{1680}'
    || '\U{2000}' <= c <= '\U{200A}' || c == '\U{2028}' || c == '\U{2029}'
    || c == '\U{202F}' || c == '\U{205F}' || c == '\U{3000}'
  }

  function TrimSpace(s: string): string {
    if s == "" then ""
    else if IsSpace(s[0]) then TrimSpace(s[1..])
    else if IsSpace(s[|s| - 1]) then TrimSpace(s[..|s| - 1])
    else s
  }

  // The length of a string in UTF-8, which is what Go's len counts.
  function ByteLength(s: string): nat {
    if s == "" then 0
    else
      var c := s[0];
      (if c < '\U{80}' then 1 else if c < '\U{800}' then 2 else if c < '\U{10000}' then 3 else 4) + ByteLength(s[1..])
  }

  // The position of the first c; the length when there is none.
  function IndexOf(s: string, c: char): (i: nat)
    ensures i <= |s|
    ensures i < |s| ==> s[i] == c
    ensures c !in s[..i]
  {
    if s == "" then 0
    else if s[0] == c then 0
    else
      var j := IndexOf(s[1..], c);
      assert s[..1 + j] == [s[0]] + s[1..][..j];
      1 + j
  }

  // The order of Go's `<` on strings.
  predicate Less(a: string, b: string) {
    if b == "" then false
    else if a == "" then true
    else a[0] < b[0] || (a[0] == b[0] && Less(a[1..], b[1..]))
  }

  lemma {:induction false} LessTotal(a: string, b: string)
    ensures Less(a, b) || Less(b, a) || a == b
  {
    if a != "" && b != "" && a[0] == b[0] {
      LessTotal(a[1..], b[1..]);
      assert a == [a[0]] + a[1..] && b == [b[0]] + b[1..];
    }
  }

  lemma {:induction false} LessTransitive(a: string, b: string, c: string)
    requires Less(a, b) && Less(b, c)
    ensures Less(a, c)
  {
    if a != "" && a[0] == b[0] == c[0] {
      LessTransitive(a[1..], b[1..], c[1..]);
    }
  }

  lemma {:induction false} LessIrreflexive(a: string)
    ensures !Less(a, a)
  {
    if a != "" {
      LessIrreflexive(a[1..]);
    }
  }
}
