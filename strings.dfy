/**
 * Text helpers shared by the model: the Python string built-ins the pipeline
 * relies on (str(n), int(digits), str.strip(), str.lower(), str.replace(),
 * "".join, sep.join) written out over `string`, with the facts about them
 * that the rest of the model uses.
 */
module Strings {

  /** The characters for which Python's `str.isspace()` holds: the set that `\s`
      in a str pattern and a no-argument `str.strip()` both use. */
  predicate IsSpace(c: char) {
    || ('\t' <= c <= '\r')
    || ('\U{1C}' <= c <= '\U{1F}')
    || c == ' ' || c == '\U{85}' || c == '\U{A0}' || c == '\U{1680}'
    || ('\U{2000}' <= c <= '\U{200A}')
    || c == '\U{2028}' || c == '\U{2029}' || c == '\U{202F}' || c == '\U{205F}' || c == '\U{3000}'
  }

  predicate IsDigit(c: char) {
    '0' <= c <= '9'
  }

  predicate AllDigits(s: string) {
    forall i :: 0 <= i < |s| ==> IsDigit(s[i])
  }

  function DigitChar(d: nat): (c: char)
    requires d < 10
    ensures IsDigit(c) && DigitValue(c) == d
  {
    (d + '0' as int) as char
  }

  function DigitValue(c: char): (d: nat)
    requires IsDigit(c)
    ensures d < 10
  {
    c as int - '0' as int
  }

  /** `str(n)` (and `f"{n}"`) for a non-negative integer: decimal digits, no
      leading zero except for 0 itself. */
  function NatToString(n: nat): (r: string)
    ensures |r| > 0 && AllDigits(r)
    ensures |r| > 1 ==> r[0] != '0'
    decreases n
  {
    if n < 10 then [DigitChar(n)] else NatToString(n / 10) + [DigitChar(n % 10)]
  }

  /** `str(i)` for any integer. */
  function IntToString(i: int): (r: string)
    ensures i >= 0 ==> r == NatToString(i)
    ensures i < 0 ==> r == "-" + NatToString(-i)
  {
    if i < 0 then "-" + NatToString(-i) else NatToString(i)
  }

  /** `int(ds)` for a string of ASCII decimal digits (leading zeros allowed). */
  function DecimalValue(ds: string): nat
    requires AllDigits(ds)
  {
    if ds == [] then 0 else DecimalValue(ds[..|ds| - 1]) * 10 + DigitValue(ds[|ds| - 1])
  }

  /** Parsing what `str(n)` printed gives back n. */
  lemma {:induction false} DecimalValueOfNatToString(n: nat)
    ensures DecimalValue(NatToString(n)) == n
    decreases n
  {
    if n >= 10 {
      var r := NatToString(n);
      assert r[..|r| - 1] == NatToString(n / 10);
      DecimalValueOfNatToString(n / 10);
    }
  }

  /** `"".join(parts)` for strings; the flattening of a list of lists in general. */
  function Concat<T>(parts: seq<seq<T>>): (r: seq<T>)
    ensures |r| == TotalLength(parts)
  {
    if parts == [] then [] else Concat(parts[..|parts| - 1]) + parts[|parts| - 1]
  }

  function TotalLength<T>(parts: seq<seq<T>>): nat {
    if parts == [] then 0 else TotalLength(parts[..|parts| - 1]) + |parts[|parts| - 1]|
  }

  lemma {:induction false} ConcatAppend<T>(a: seq<seq<T>>, b: seq<seq<T>>)
    ensures Concat(a + b) == Concat(a) + Concat(b)
    decreases |b|
  {
    if b == [] {
      assert a + b == a;
    } else {
      var b', last := b[..|b| - 1], b[|b| - 1];
      assert (a + b)[..|a + b| - 1] == a + b';
      ConcatAppend(a, b');
      assert Concat(a + b) == Concat(a) + Concat(b') + last;
      assert Concat(b) == Concat(b') + last;
    }
  }

  /** The parts appended to `head` one at a time, as a `+=` loop does. */
  function Appended<T>(head: seq<T>, parts: seq<seq<T>>): seq<T> {
    if parts == [] then head else Appended(head, parts[..|parts| - 1]) + parts[|parts| - 1]
  }

  lemma {:induction false} AppendedIsConcat<T>(head: seq<T>, parts: seq<seq<T>>)
    ensures Appended(head, parts) == head + Concat(parts)
    decreases |parts|
  {
    if parts != [] {
      var init, last := parts[..|parts| - 1], parts[|parts| - 1];
      AppendedIsConcat(head, init);
      assert (head + Concat(init)) + last == head + (Concat(init) + last);
    }
  }

  /** Flattening one-element lists gives the list of their elements. */
  lemma {:induction false} ConcatSingletons<T>(parts: seq<seq<T>>, xs: seq<T>)
    requires |parts| == |xs|
    requires forall j :: 0 <= j < |parts| ==> parts[j] == [xs[j]]
    ensures Concat(parts) == xs
    decreases |parts|
  {
    if parts != [] {
      ConcatSingletons(parts[..|parts| - 1], xs[..|xs| - 1]);
    }
  }

  /** `sep.join(parts)`. */
  function Join(sep: string, parts: seq<string>): (r: string)
    ensures parts == [] ==> r == ""
    ensures |parts| == 1 ==> r == parts[0]
    ensures parts != [] ==> |r| >= |parts[|parts| - 1]|
  {
    if parts == [] then ""
    else if |parts| == 1 then parts[0]
    else Join(sep, parts[..|parts| - 1]) + sep + parts[|parts| - 1]
  }

  /** Two neighbouring pieces of a text put together. */
  lemma SliceJoin<T>(s: seq<T>, a: nat, b: nat, c: nat)
    requires a <= b <= c <= |s|
    ensures s[a..b] + s[b..c] == s[a..c]
  {
  }

  predicate StartsWith(s: string, prefix: string) {
    |prefix| <= |s| && s[..|prefix|] == prefix
  }

  /** `pattern` occurs in `s` starting at index i. */
  predicate OccursAt(s: string, pattern: string, i: nat) {
    i + |pattern| <= |s| && s[i..i + |pattern|] == pattern
  }

  predicate Occurs(s: string, pattern: string) {
    exists i: nat :: i <= |s| && OccursAt(s, pattern, i)
  }

  /** No occurrence of `pattern` starts at an index in [a, b). */
  predicate AbsentIn(s: string, pattern: string, a: nat, b: nat) {
    forall i :: a <= i < b ==> !OccursAt(s, pattern, i)
  }

  /** `s.find(pattern, from)`, with |s| for "not found". */
  function Find(s: string, pattern: string, from: nat): (r: nat)
    requires from <= |s|
    ensures from <= r <= |s|
    ensures r < |s| ==> OccursAt(s, pattern, r)
    ensures AbsentIn(s, pattern, from, r)
    decreases |s| - from
  {
    if from == |s| then |s| else if OccursAt(s, pattern, from) then from else Find(s, pattern, from + 1)
  }

  /** `s.replace(pattern, replacement)` for a non-empty pattern: every
      non-overlapping occurrence, scanning from the left, is replaced. */
  function ReplaceAll(s: string, pattern: string, replacement: string): string
    requires |pattern| > 0
    decreases |s|
  {
    if |s| < |pattern| then s
    else if s[..|pattern|] == pattern then replacement + ReplaceAll(s[|pattern|..], pattern, replacement)
    else [s[0]] + ReplaceAll(s[1..], pattern, replacement)
  }

  /** A pattern that does not occur leaves the text exactly as it was. */
  lemma {:induction false} ReplaceAllAbsent(s: string, pattern: string, replacement: string)
    requires |pattern| > 0 && !Occurs(s, pattern)
    ensures ReplaceAll(s, pattern, replacement) == s
    decreases |s|
  {
    if |s| >= |pattern| {
      assert !OccursAt(s, pattern, 0);
      forall i: nat | i <= |s[1..]| ensures !OccursAt(s[1..], pattern, i) {
        assert !OccursAt(s, pattern, i + 1);
        if i + |pattern| <= |s[1..]| {
          assert s[1..][i..i + |pattern|] == s[i + 1..i + 1 + |pattern|];
        }
      }
      ReplaceAllAbsent(s[1..], pattern, replacement);
      assert [s[0]] + s[1..] == s;
    }
  }

  /** While the output of ReplaceAll shows no first character of the
      replacement, it is a copy of the input. */
  lemma {:induction false} ReplaceAllCopiesPrefix(s: string, pattern: string, replacement: string, n: nat)
    requires |pattern| > 0 && |replacement| > 0
    requires n <= |ReplaceAll(s, pattern, replacement)|
    ensures (forall j :: 0 <= j < n ==> ReplaceAll(s, pattern, replacement)[j] != replacement[0]) ==>
      n <= |s| && ReplaceAll(s, pattern, replacement)[..n] == s[..n]
    decreases |s|
  {
    var out := ReplaceAll(s, pattern, replacement);
    if n > 0 && |s| >= |pattern| {
      if s[..|pattern|] == pattern {
        assert out[0] == replacement[0];
      } else {
        var rest := ReplaceAll(s[1..], pattern, replacement);
        assert out == [s[0]] + rest;
        ReplaceAllCopiesPrefix(s[1..], pattern, replacement, n - 1);
        if forall j :: 0 <= j < n ==> out[j] != replacement[0] {
          forall j | 0 <= j < n - 1 ensures rest[j] != replacement[0] {
            assert rest[j] == out[j + 1];
          }
          assert s[..n] == [s[0]] + s[1..][..n - 1];
        }
      }
    }
  }

  /** A pattern absent from a text stays absent after a replacement that
      cannot take part in an occurrence: the replacement starts with a
      character the pattern lacks and does not contain the pattern's first
      character. When the pattern is the one being replaced, the same holds
      without the absence. */
  lemma {:induction false} ReplaceAllLeavesNoOccurrence(s: string, pattern: string, replacement: string, p: string)
    requires |pattern| > 0 && |replacement| > 0 && |p| > 0
    requires replacement[0] !in p && p[0] !in replacement
    requires p == pattern || !Occurs(s, p)
    ensures !Occurs(ReplaceAll(s, pattern, replacement), p)
    decreases |s|
  {
    var out := ReplaceAll(s, pattern, replacement);
    if |s| >= |pattern| {
      var matched := s[..|pattern|] == pattern;
      var k := if matched then |pattern| else 1;
      var head := if matched then replacement else [s[0]];
      var rest := ReplaceAll(s[k..], pattern, replacement);
      if p != pattern {
        AbsentInSuffix(s, p, k);
      }
      ReplaceAllLeavesNoOccurrence(s[k..], pattern, replacement, p);
      assert out == head + rest;
      forall i | 0 <= i < |head| ensures !OccursAt(out, p, i) {
        if matched {
          assert out[i] == replacement[i] && out[i] != p[0];
        } else if |p| <= |out| && forall j :: 0 <= j < |p| ==> out[j] != replacement[0] {
          ReplaceAllCopiesPrefix(s, pattern, replacement, |p|);
          assert !OccursAt(s, p, 0);
        } else if |p| <= |out| {
          var j :| 0 <= j < |p| && out[j] == replacement[0];
          assert out[j] != p[j];
        }
      }
      NoOccurrenceAfterHead(head, rest, p);
    }
  }

  /** A pattern absent from a text is absent from each of its suffixes. */
  lemma AbsentInSuffix(s: string, p: string, k: nat)
    requires k <= |s| && !Occurs(s, p)
    ensures !Occurs(s[k..], p)
  {
    forall i: nat | i <= |s[k..]| ensures !OccursAt(s[k..], p, i) {
      assert !OccursAt(s, p, i + k);
      if i + |p| <= |s[k..]| {
        assert s[k..][i..i + |p|] == s[i + k..i + k + |p|];
      }
    }
  }

  /** With no occurrence starting inside `head` and none in `rest`, there is
      none in `head + rest`. */
  lemma NoOccurrenceAfterHead(head: string, rest: string, p: string)
    requires !Occurs(rest, p)
    requires forall i :: 0 <= i < |head| ==> !OccursAt(head + rest, p, i)
    ensures !Occurs(head + rest, p)
  {
    var out := head + rest;
    forall i: nat | |head| <= i <= |out| ensures !OccursAt(out, p, i) {
      assert !OccursAt(rest, p, i - |head|);
      if i + |p| <= |out| {
        assert out[i..i + |p|] == rest[i - |head|..i - |head| + |p|];
      }
    }
  }

  function LowerChar(c: char): char {
    if 'A' <= c <= 'Z' then (c as int + 32) as char else c
  }

  /** `s.lower()` on the ASCII letters. */
  function Lower(s: string): (r: string)
    ensures |r| == |s|
    ensures forall i :: 0 <= i < |s| ==> r[i] == LowerChar(s[i])
  {
    seq(|s|, i requires 0 <= i < |s| => LowerChar(s[i]))
  }

  function StripLeft(s: string): (r: string)
    ensures |r| <= |s|
  {
    if |s| > 0 && IsSpace(s[0]) then StripLeft(s[1..]) else s
  }

  function StripRight(s: string): (r: string)
    ensures |r| <= |s|
  {
    if |s| > 0 && IsSpace(s[|s| - 1]) then StripRight(s[..|s| - 1]) else s
  }

  /** `s.strip()`: the text with leading and trailing whitespace removed. */
  function Strip(s: string): string {
    StripRight(StripLeft(s))
  }

  /** What StripLeft removes is whitespace, and what it keeps does not start with any. */
  lemma {:induction false} StripLeftIsSuffix(s: string)
    ensures var r := StripLeft(s);
      && r == s[|s| - |r|..]
      && (r == [] || !IsSpace(r[0]))
      && forall i :: 0 <= i < |s| - |r| ==> IsSpace(s[i])
  {
    if |s| > 0 && IsSpace(s[0]) {
      StripLeftIsSuffix(s[1..]);
    }
  }

  /** What StripRight removes is whitespace, and what it keeps does not end with any. */
  lemma {:induction false} StripRightIsPrefix(s: string)
    ensures var r := StripRight(s);
      && r == s[..|r|]
      && (r == [] || !IsSpace(r[|r| - 1]))
      && forall i :: |r| <= i < |s| ==> IsSpace(s[i])
  {
    if |s| > 0 && IsSpace(s[|s| - 1]) {
      StripRightIsPrefix(s[..|s| - 1]);
    }
  }

  /** The stripped text neither starts nor ends with whitespace. */
  lemma {:induction false} StripEnds(s: string)
    ensures var r := Strip(s); r == [] || (!IsSpace(r[0]) && !IsSpace(r[|r| - 1]))
  {
    StripLeftIsSuffix(s);
    StripRightIsPrefix(StripLeft(s));
    var l := StripLeft(s);
    var r := StripRight(l);
    if r != [] {
      assert r[0] == l[0];
    }
  }

  lemma {:induction false} StripUnspaced(s: string)
    requires s == [] || (!IsSpace(s[0]) && !IsSpace(s[|s| - 1]))
    ensures Strip(s) == s
  {
  }
}
