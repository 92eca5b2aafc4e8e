/** Value-level helpers shared by the models: JavaScript's optional values and
    truthiness, ASCII case folding, substring search, whitespace trimming and
    splitting a string on one separator character. Strings are sequences of
    characters; no Unicode case mapping is attempted. */
module Common {

  datatype Option<+T> = None | Some(value: T)

  type Id = string

  /** JavaScript truthiness of a value that is either undefined or a string:
      undefined and the empty string are falsy, every other string is truthy. */
  predicate Truthy(o: Option<string>) {
    o.Some? && o.value != ""
  }

  /** The same test for an optional number: absent and 0 are falsy. */
  predicate TruthyNumber(o: Option<int>) {
    o.Some? && o.value != 0
  }

  // ---------------------------------------------------------------------------
  // Days and instants

  /** Dates are whole day numbers; an instant is a count of milliseconds,
      and day `d` begins at the instant `d * MillisPerDay`. A date written
      without a time, such as a date of birth, is the first instant of its
      day. */
  const MillisPerDay: int := 1000 * 60 * 60 * 24

  /** The first instant of day `day`. */
  function DayStart(day: int): int {
    day * MillisPerDay
  }

  /** A later day starts later. */
  lemma DayStartMonotone(d1: int, d2: int)
    requires d1 < d2
    ensures DayStart(d1) + MillisPerDay <= DayStart(d2)
  {
    assert DayStart(d2) - DayStart(d1) == (d2 - d1) * MillisPerDay;
  }

  /** `now` lies on day `day`, strictly after its first instant. */
  predicate AfterMidnightOf(day: int, now: int) {
    DayStart(day) < now < DayStart(day) + MillisPerDay
  }

  // ---------------------------------------------------------------------------
  // Case folding and substring search

  /** `toLowerCase` on one character, restricted to the ASCII letters. */
  function LowerChar(c: char): char {
    if 'A' <= c <= 'Z' then (c as int + 32) as char else c
  }

  function Lower(s: string): (r: string)
    ensures |r| == |s|
    ensures forall i :: 0 <= i < |s| ==> r[i] == LowerChar(s[i])
  {
    seq(|s|, i requires 0 <= i < |s| => LowerChar(s[i]))
  }

  predicate StartsWith(s: string, prefix: string) {
    |prefix| <= |s| && s[..|prefix|] == prefix
  }

  /** `part` occurs in `s` starting at offset `i`. */
  predicate OccursAt(s: string, part: string, i: int) {
    0 <= i <= |s| - |part| && s[i..i + |part|] == part
  }

  /** `s.includes(part)`: `part` occurs in `s` at some offset. */
  predicate Contains(s: string, part: string) {
    exists i | 0 <= i <= |s| - |part| :: OccursAt(s, part, i)
  }

  /** The empty string occurs in every string. */
  lemma ContainsEmpty(s: string)
    ensures Contains(s, "")
  {
    assert OccursAt(s, "", 0);
  }

  lemma ContainsSelf(s: string)
    ensures Contains(s, s)
  {
    assert OccursAt(s, s, 0);
  }

  /** Lower-casing both sides keeps an occurrence where it was. */
  lemma LowerContains(s: string, part: string)
    requires Contains(s, part)
    ensures Contains(Lower(s), Lower(part))
  {
    var i :| 0 <= i <= |s| - |part| && OccursAt(s, part, i);
    var ls, lp := Lower(s), Lower(part);
    forall k | 0 <= k < |part|
      ensures ls[i..i + |part|][k] == lp[k]
    {
      assert s[i..i + |part|][k] == part[k];
    }
    assert OccursAt(ls, lp, i);
  }

  /** The decimal digits of a natural number, as a template literal prints
      it. */
  function Decimal(n: nat): (r: string)
    ensures |r| >= 1
    ensures forall k :: 0 <= k < |r| ==> '0' <= r[k] <= '9'
  {
    if n < 10 then [DigitChar(n)] else Decimal(n / 10) + [DigitChar(n % 10)]
  }

  function DigitChar(d: nat): (c: char)
    requires d < 10
    ensures '0' <= c <= '9'
  {
    ('0' as int + d) as char
  }

  // ---------------------------------------------------------------------------
  // Whitespace and String.prototype.trim

  /** The characters ECMAScript counts as WhiteSpace or LineTerminator, which
      `trim` removes: tab, line feed, vertical tab, form feed, carriage return,
      the space separators of Unicode category Zs, the byte-order mark and the
      line and paragraph separators. */
  predicate IsWhitespace(c: char) {
    || c == '\t' || c == '\n' || c == '\U{000B}' || c == '\U{000C}' || c == '\r'
    || c == ' ' || c == '\U{00A0}' || c == '\U{1680}'
    || ('\U{2000}' <= c <= '\U{200A}')
    || c == '\U{2028}' || c == '\U{2029}' || c == '\U{202F}' || c == '\U{205F}'
    || c == '\U{3000}' || c == '\U{FEFF}'
  }

  /** No whitespace at either end. */
  predicate Trimmed(s: string) {
    s == [] || (!IsWhitespace(s[0]) && !IsWhitespace(s[|s| - 1]))
  }

  predicate AllWhitespace(s: string) {
    forall i :: 0 <= i < |s| ==> IsWhitespace(s[i])
  }

  /** Drops the leading whitespace: the result is the suffix of `s` that
      starts at its first non-whitespace character. */
  function TrimStart(s: string): (r: string)
    ensures |r| <= |s| && r == s[|s| - |r|..]
    ensures r == [] || !IsWhitespace(r[0])
    ensures AllWhitespace(s[..|s| - |r|])
  {
    if s != [] && IsWhitespace(s[0]) then
      var r := TrimStart(s[1..]);
      assert s[1..][|s| - 1 - |r|..] == s[|s| - |r|..];
      assert forall i :: 1 <= i < |s| - |r| ==> s[i] == s[1..][i - 1];
      r
    else s
  }

  /** Drops the trailing whitespace: the result is the prefix of `s` that
      ends at its last non-whitespace character. */
  function TrimEnd(s: string): (r: string)
    ensures |r| <= |s| && r == s[..|r|]
    ensures r == [] || !IsWhitespace(r[|r| - 1])
    ensures AllWhitespace(s[|r|..])
  {
    if s != [] && IsWhitespace(s[|s| - 1]) then
      var r := TrimEnd(s[..|s| - 1]);
      assert s[..|s| - 1][..|r|] == s[..|r|];
      assert forall i :: |r| <= i < |s| - 1 ==> s[i] == s[..|s| - 1][i];
      r
    else s
  }

  /** `s.trim()`. The result has no whitespace at either end, and it is empty
      exactly when `s` is made of whitespace only. */
  function Trim(s: string): (r: string)
    ensures Trimmed(r)
    ensures r == [] <==> AllWhitespace(s)
  {
    TrimBothEnds(s);
    TrimStart(TrimEnd(s))
  }

  lemma TrimBothEnds(s: string)
    ensures Trimmed(TrimStart(TrimEnd(s)))
    ensures TrimStart(TrimEnd(s)) == [] <==> AllWhitespace(s)
  {
    TrimEndMeaning(s);
    var t := TrimEnd(s);
    if t != [] {
      TrimStartKeepsLast(t);
    }
  }

  /** Nothing is left of `s` after its trailing whitespace exactly when it
      is all whitespace. */
  lemma TrimEndMeaning(s: string)
    ensures TrimEnd(s) == [] <==> AllWhitespace(s)
  {
    var t := TrimEnd(s);
    if t == [] {
      assert s[|t|..] == s;
    } else {
      assert s[|t| - 1] == t[|t| - 1];
    }
  }

  /** Leading whitespace is dropped up to a last character that is not
      whitespace, which stays. */
  lemma {:induction false} TrimStartKeepsLast(t: string)
    requires t != [] && !IsWhitespace(t[|t| - 1])
    ensures TrimStart(t) != [] && TrimStart(t)[|TrimStart(t)| - 1] == t[|t| - 1]
  {
    if IsWhitespace(t[0]) {
      assert |t| > 1;
      assert t[1..][|t| - 2] == t[|t| - 1];
      TrimStartKeepsLast(t[1..]);
    }
  }

  /** Trimming a string that is already trimmed gives it back; so `Trim` is
      idempotent. */
  lemma TrimOfTrimmed(s: string)
    requires Trimmed(s)
    ensures Trim(s) == s
  {
    assert TrimEnd(s) == s;
  }

  lemma TrimIdempotent(s: string)
    ensures Trim(Trim(s)) == Trim(s)
  {
    TrimOfTrimmed(Trim(s));
  }

  // ---------------------------------------------------------------------------
  // Array.prototype.filter

  /** `s.filter(p)`: the elements that satisfy `p`, in their original order. */
  function Filter<T(!new)>(s: seq<T>, p: T -> bool): (r: seq<T>)
    ensures |r| <= |s|
    ensures forall x :: x in r <==> x in s && p(x)
  {
    if s == [] then [] else (if p(s[0]) then [s[0]] else []) + Filter(s[1..], p)
  }

  /** `s.filter((_, i) => i !== index)`: the element at `index` removed, or
      `s` itself when there is no such element. */
  function RemoveAt<T>(s: seq<T>, index: int): (r: seq<T>)
    ensures 0 <= index < |s| ==> r == s[..index] + s[index + 1..]
    ensures !(0 <= index < |s|) ==> r == s
  {
    if s == [] then []
    else if index == 0 then s[1..]
    else
      var rest := RemoveAt(s[1..], index - 1);
      assert 0 < index < |s| ==> s[..index] == [s[0]] + s[1..][..index - 1] && s[index + 1..] == s[1..][index..];
      [s[0]] + rest
  }

  /** `r` is obtained from `s` by deleting elements, without reordering. */
  predicate IsSubsequence<T(==)>(r: seq<T>, s: seq<T>)
    decreases |s|
  {
    r == [] || (s != [] && if r[0] == s[0] then IsSubsequence(r[1..], s[1..]) else IsSubsequence(r, s[1..]))
  }

  /** A filter keeps the surviving elements in their original order. */
  lemma {:induction false} FilterIsSubsequence<T(!new)>(s: seq<T>, p: T -> bool)
    ensures IsSubsequence(Filter(s, p), s)
  {
    if s != [] {
      FilterIsSubsequence(s[1..], p);
      if p(s[0]) {
        assert Filter(s, p) == [s[0]] + Filter(s[1..], p);
        assert Filter(s, p)[1..] == Filter(s[1..], p);
      } else {
        assert Filter(s, p) == Filter(s[1..], p);
        SubsequenceSkip(Filter(s, p), s);
      }
    }
  }

  /** Dropping the head of `s` that the subsequence does not use. */
  lemma SubsequenceSkip<T>(r: seq<T>, s: seq<T>)
    requires s != [] && IsSubsequence(r, s[1..])
    ensures IsSubsequence(r, s)
    decreases |s|, 1
  {
    if r != [] && r[0] == s[0] {
      SubsequenceSkipHead(r, s[1..]);
    }
  }

  /** A subsequence without its head is still a subsequence. */
  lemma SubsequenceSkipHead<T>(r: seq<T>, s: seq<T>)
    requires r != [] && IsSubsequence(r, s)
    ensures IsSubsequence(r[1..], s)
    decreases |s|, 2
  {
    if r[0] != s[0] {
      SubsequenceSkipHead(r, s[1..]);
      SubsequenceSkip(r[1..], s);
    } else if r[1..] != [] {
      SubsequenceSkip(r[1..], s);
    }
  }

  /** Filtering distributes over concatenation. */
  lemma {:induction false} FilterAppend<T(!new)>(a: seq<T>, b: seq<T>, p: T -> bool)
    ensures Filter(a + b, p) == Filter(a, p) + Filter(b, p)
  {
    if a == [] {
      assert a + b == b;
    } else {
      var head := if p(a[0]) then [a[0]] else [];
      assert (a + b)[0] == a[0] && (a + b)[1..] == a[1..] + b;
      FilterAppend(a[1..], b, p);
      calc {
        Filter(a + b, p);
        head + Filter(a[1..] + b, p);
        head + (Filter(a[1..], p) + Filter(b, p));
        (head + Filter(a[1..], p)) + Filter(b, p);
        Filter(a, p) + Filter(b, p);
      }
    }
  }

  /** A filter whose predicate holds everywhere keeps the whole sequence. */
  lemma {:induction false} FilterAll<T(!new)>(s: seq<T>, p: T -> bool)
    requires forall x :: x in s ==> p(x)
    ensures Filter(s, p) == s
  {
    if s != [] {
      FilterAll(s[1..], p);
    }
  }

  /** A filter that keeps as many elements as it is given keeps them all. */
  lemma {:induction false} FilterFullLength<T(!new)>(s: seq<T>, p: T -> bool)
    requires |Filter(s, p)| == |s|
    ensures forall x :: x in s ==> p(x)
  {
    if s != [] {
      if !p(s[0]) {
        assert false;
      }
      FilterFullLength(s[1..], p);
      forall x | x in s
        ensures p(x)
      {
        if x != s[0] {
          assert x in s[1..];
        }
      }
    }
  }

  /** A filter whose predicate holds nowhere keeps nothing. */
  lemma FilterNone<T(!new)>(s: seq<T>, p: T -> bool)
    requires forall x :: x in s ==> !p(x)
    ensures Filter(s, p) == []
  {
    if Filter(s, p) != [] {
      assert Filter(s, p)[0] in Filter(s, p);
    }
  }

  /** Filtering by `p` after filtering by a weaker `q` is filtering by `p`:
      what a stricter filter keeps is a subset of what the looser keeps. */
  lemma {:induction false} FilterNarrows<T(!new)>(s: seq<T>, p: T -> bool, q: T -> bool)
    requires forall x :: p(x) ==> q(x)
    ensures Filter(Filter(s, q), p) == Filter(s, p)
  {
    if s != [] {
      FilterNarrows(s[1..], p, q);
      if q(s[0]) {
        var t := [s[0]] + Filter(s[1..], q);
        assert Filter(s, q) == t;
        assert t[0] == s[0] && t[1..] == Filter(s[1..], q);
        assert Filter(t, p) == (if p(s[0]) then [s[0]] else []) + Filter(t[1..], p);
      } else {
        assert Filter(s, q) == Filter(s[1..], q);
      }
    }
  }

  // ---------------------------------------------------------------------------
  // String.prototype.split with a one-character separator

  /** Number of occurrences of `c` in `s`. */
  function Count(s: string, c: char): nat {
    if s == [] then 0 else (if s[0] == c then 1 else 0) + Count(s[1..], c)
  }

  /** A character occurs in `s` exactly when its count is positive. */
  lemma {:induction false} CountPositive(s: string, c: char)
    ensures Count(s, c) > 0 <==> c in s
  {
    if s != [] {
      CountPositive(s[1..], c);
      assert c in s <==> s[0] == c || c in s[1..];
    }
  }

  /** `s.split(sep)`: the maximal runs between separators, in order. There is
      always one more piece than there are separators, and no piece holds the
      separator. */
  function Split(s: string, sep: char): (parts: seq<string>)
    ensures |parts| == Count(s, sep) + 1
    ensures forall k :: 0 <= k < |parts| ==> sep !in parts[k]
  {
    if s == [] then [[]]
    else
      var rest := Split(s[1..], sep);
      if s[0] == sep then [[]] + rest
      else [[s[0]] + rest[0]] + rest[1..]
  }

  /** `parts.join(sep)`, the inverse of `Split`. */
  function Join(parts: seq<string>, sep: char): string {
    if parts == [] then []
    else if |parts| == 1 then parts[0]
    else parts[0] + [sep] + Join(parts[1..], sep)
  }

  /** Joining the pieces of a split with the same separator gives back the
      original string. */
  lemma {:induction false} JoinSplit(s: string, sep: char)
    ensures Join(Split(s, sep), sep) == s
  {
    if s != [] {
      var rest := Split(s[1..], sep);
      JoinSplit(s[1..], sep);
      if s[0] == sep {
        assert Split(s, sep) == [[]] + rest;
        assert ([[]] + rest)[1..] == rest;
        assert s == [sep] + s[1..];
      } else {
        var parts := [[s[0]] + rest[0]] + rest[1..];
        assert Split(s, sep) == parts;
        if |rest| == 1 {
          assert Join(parts, sep) == [s[0]] + rest[0];
        } else {
          assert parts[1..] == rest[1..];
          assert Join(rest, sep) == rest[0] + [sep] + Join(rest[1..], sep);
        }
        assert s == [s[0]] + s[1..];
      }
    }
  }

  /** A string without the separator splits into itself alone. */
  lemma {:induction false} SplitWithoutSeparator(s: string, sep: char)
    requires sep !in s
    ensures Split(s, sep) == [s]
  {
    if s != [] {
      assert sep !in s[1..];
      SplitWithoutSeparator(s[1..], sep);
      assert s == [s[0]] + s[1..];
    }
  }

  /** Two separator-free words joined by one separator split into exactly
      those two words. */
  lemma {:induction false} SplitTwoWords(w: string, t: string, sep: char)
    requires sep !in w && sep !in t
    ensures Split(w + [sep] + t, sep) == [w, t]
  {
    if w == [] {
      assert w + [sep] + t == [sep] + t;
      assert ([sep] + t)[1..] == t;
      SplitWithoutSeparator(t, sep);
    } else {
      var s := w + [sep] + t;
      assert s[1..] == w[1..] + [sep] + t;
      assert sep !in w[1..];
      SplitTwoWords(w[1..], t, sep);
      assert [w[0]] + w[1..] == w;
    }
  }
}
