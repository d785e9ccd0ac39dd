/**
 * The few Python built-ins the content pipeline relies on, stated with
 * CPython's semantics: `str.strip`, `str.split`, `str.join`, `str.find`,
 * `in` on strings, `str.lower`, `str(int)`, the prefix slice `s[:n]`, and
 * list comprehensions that filter.
 */
module Builtins {

  datatype Option<+T> = None | Some(value: T)

  datatype Result<+T, +E> = Ok(value: T) | Err(error: E)

  // ---------------------------------------------------------------------
  // Whitespace, as `str.isspace` defines it
  // ---------------------------------------------------------------------

  /** The characters CPython's `str.isspace` accepts. */
  predicate IsSpace(c: char) {
    var n := c as int;
    (9 <= n <= 13) || (28 <= n <= 32) || n == 0x85 || n == 0xA0 || n == 0x1680
    || (0x2000 <= n <= 0x200A) || n == 0x2028 || n == 0x2029 || n == 0x202F
    || n == 0x205F || n == 0x3000
  }

  predicate NoSpace(s: string) {
    forall i :: 0 <= i < |s| ==> !IsSpace(s[i])
  }

  /** `r` is `s[i:j]` for some bounds. */
  ghost predicate IsSlice(r: string, s: string) {
    exists i, j :: 0 <= i <= j <= |s| && r == s[i..j]
  }

  lemma SliceOfSlice(r: string, t: string, s: string)
    requires IsSlice(r, t) && IsSlice(t, s)
    ensures IsSlice(r, s)
  {
    var i, j :| 0 <= i <= j <= |t| && r == t[i..j];
    var a, b :| 0 <= a <= b <= |s| && t == s[a..b];
    forall k | 0 <= k < j - i
      ensures r[k] == s[a + i + k]
    {
      assert r[k] == t[i + k];
    }
    assert r == s[a + i..a + j];
  }

  lemma SliceAt(s: string, i: int, j: int)
    requires 0 <= i <= j <= |s|
    ensures IsSlice(s[i..j], s)
  {
  }

  lemma SliceSelf(s: string)
    ensures IsSlice(s, s)
  {
    assert s == s[0..|s|];
  }

  /** `s.lstrip()` */
  function LStrip(s: string): (r: string)
    ensures |r| <= |s| && r == s[|s| - |r|..]
    ensures r == [] || !IsSpace(r[0])
    ensures forall i :: 0 <= i < |s| - |r| ==> IsSpace(s[i])
  {
    if s != [] && IsSpace(s[0]) then LStrip(s[1..]) else s
  }

  /** `s.strip()`: drops whitespace from both ends. */
  function Strip(s: string): (r: string)
    ensures r == [] || (!IsSpace(r[0]) && !IsSpace(r[|r| - 1]))
    decreases |s|
  {
    if s != [] && IsSpace(s[0]) then Strip(s[1..])
    else if s != [] && IsSpace(s[|s| - 1]) then Strip(s[..|s| - 1])
    else s
  }

  /** What `strip` returns is a slice of its argument. */
  lemma {:induction false} StripSlice(s: string)
    ensures IsSlice(Strip(s), s)
    decreases |s|
  {
    if s != [] && IsSpace(s[0]) {
      StripSlice(s[1..]);
      SliceAt(s, 1, |s|);
      SliceOfSlice(Strip(s[1..]), s[1..], s);
    } else if s != [] && IsSpace(s[|s| - 1]) {
      StripSlice(s[..|s| - 1]);
      SliceAt(s, 0, |s| - 1);
      SliceOfSlice(Strip(s[..|s| - 1]), s[..|s| - 1], s);
    } else {
      SliceSelf(s);
    }
  }

  /** Stripping a text whose ends are not whitespace leaves it as it is. */
  lemma StripNoop(s: string)
    requires s == [] || (!IsSpace(s[0]) && !IsSpace(s[|s| - 1]))
    ensures Strip(s) == s
  {
  }

  /** Stripping a text that starts with a non-space keeps that first character. */
  lemma {:induction false} StripKeepsFirst(t: string)
    requires t != [] && !IsSpace(t[0])
    ensures Strip(t) != [] && Strip(t)[0] == t[0]
    decreases |t|
  {
    if IsSpace(t[|t| - 1]) {
      var u := t[..|t| - 1];
      assert u[0] == t[0];
      StripKeepsFirst(u);
    }
  }

  lemma StripIdempotent(s: string)
    ensures Strip(Strip(s)) == Strip(s)
  {
    StripNoop(Strip(s));
  }

  // ---------------------------------------------------------------------
  // Searching
  // ---------------------------------------------------------------------

  predicate StartsWith(s: string, p: string) {
    |p| <= |s| && s[..|p|] == p
  }

  predicate EndsWith(s: string, p: string) {
    |p| <= |s| && s[|s| - |p|..] == p
  }

  /** `s.find(c)` for a one-character needle: the first index, or -1. */
  function Find(s: string, c: char): (k: int)
    ensures -1 <= k < |s|
    ensures k == -1 <==> (forall i :: 0 <= i < |s| ==> s[i] != c)
    ensures k >= 0 ==> s[k] == c && forall i :: 0 <= i < k ==> s[i] != c
  {
    if s == [] then -1
    else if s[0] == c then 0
    else var k := Find(s[1..], c); if k == -1 then -1 else k + 1
  }

  /** `sub` occurs in `s` starting at index `i`. */
  predicate OccursAt(s: string, sub: string, i: int) {
    0 <= i && i + |sub| <= |s| && s[i..i + |sub|] == sub
  }

  /** The first occurrence of `sub` in `s` at or after `from`, or -1. */
  function FindFrom(s: string, sub: string, from: nat): (k: int)
    ensures k == -1 || (from <= k && OccursAt(s, sub, k))
    ensures forall i :: from <= i && (k == -1 || i < k) ==> !OccursAt(s, sub, i)
    decreases |s| + 1 - from
  {
    if from + |sub| > |s| then -1
    else if s[from..from + |sub|] == sub then from
    else FindFrom(s, sub, from + 1)
  }

  /** `s.find(sub)`: the first index at which `sub` occurs, or -1. */
  function FindSub(s: string, sub: string): (k: int)
    ensures k == -1 || OccursAt(s, sub, k)
    ensures forall i :: 0 <= i && (k == -1 || i < k) ==> !OccursAt(s, sub, i)
  {
    FindFrom(s, sub, 0)
  }

  /** `sub in s` */
  predicate Contains(s: string, sub: string) {
    FindSub(s, sub) >= 0
  }

  lemma ContainsAt(s: string, sub: string, i: int)
    requires OccursAt(s, sub, i)
    ensures Contains(s, sub)
  {
  }

  lemma ContainsIn(a: string, sub: string, b: string)
    ensures Contains(a + sub + b, sub)
  {
    assert (a + sub + b)[|a|..|a| + |sub|] == sub;
    ContainsAt(a + sub + b, sub, |a|);
  }

  lemma ContainsSelf(s: string)
    ensures Contains(s, s)
  {
    assert s[0..|s|] == s;
    assert OccursAt(s, s, 0);
  }

  /** An occurrence inside `a` is one inside `a + b`. */
  lemma ContainsLeft(a: string, b: string, sub: string)
    requires Contains(a, sub)
    ensures Contains(a + b, sub)
  {
    var i := FindSub(a, sub);
    assert (a + b)[i..i + |sub|] == a[i..i + |sub|];
    assert OccursAt(a + b, sub, i);
  }

  /** An occurrence inside `b` is one inside `a + b`. */
  lemma ContainsRight(a: string, b: string, sub: string)
    requires Contains(b, sub)
    ensures Contains(a + b, sub)
  {
    var i := FindSub(b, sub);
    assert (a + b)[|a| + i..|a| + i + |sub|] == b[i..i + |sub|];
    assert OccursAt(a + b, sub, |a| + i);
  }

  /** A prefix that ends before every occurrence holds none. */
  lemma NoneBefore(s: string, sep: string, k: int)
    requires sep != [] && 0 <= k <= |s|
    requires forall i :: 0 <= i < k ==> !OccursAt(s, sep, i)
    ensures !Contains(s[..k], sep)
  {
    forall i | 0 <= i
      ensures !OccursAt(s[..k], sep, i)
    {
      if i + |sep| <= k {
        assert s[..k][i..i + |sep|] == s[i..i + |sep|];
        assert i < k && !OccursAt(s, sep, i);
      }
    }
  }

  // ---------------------------------------------------------------------
  // Splitting and joining
  // ---------------------------------------------------------------------

  /** `sep.join(parts)` */
  function Join(sep: string, parts: seq<string>): string
    decreases |parts|
  {
    if |parts| == 0 then ""
    else if |parts| == 1 then parts[0]
    else parts[0] + sep + Join(sep, parts[1..])
  }

  lemma JoinCons(sep: string, p: string, parts: seq<string>)
    requires parts != []
    ensures Join(sep, [p] + parts) == p + sep + Join(sep, parts)
  {
    assert ([p] + parts)[1..] == parts;
  }

  /** `s.split(sep)` for a non-empty separator. */
  function Split(s: string, sep: string): (parts: seq<string>)
    requires sep != []
    ensures |parts| >= 1
    decreases |s|
  {
    var k := FindSub(s, sep);
    if k < 0 then [s]
    else [s[..k]] + Split(s[k + |sep|..], sep)
  }

  /** No part of a split holds the separator. */
  lemma {:induction false} SplitPartsLackSep(s: string, sep: string)
    requires sep != []
    ensures forall p :: p in Split(s, sep) ==> !Contains(p, sep)
    decreases |s|
  {
    var k := FindSub(s, sep);
    if k < 0 {
      NoneBefore(s, sep, |s|);
      assert s[..|s|] == s;
    } else {
      NoneBefore(s, sep, k);
      SplitPartsLackSep(s[k + |sep|..], sep);
    }
  }

  /** Splitting and joining again with the same separator gives back the text. */
  lemma {:induction false} JoinSplit(s: string, sep: string)
    requires sep != []
    ensures Join(sep, Split(s, sep)) == s
    decreases |s|
  {
    var k := FindSub(s, sep);
    if k >= 0 {
      var rest := s[k + |sep|..];
      var parts := Split(rest, sep);
      assert Split(s, sep) == [s[..k]] + parts;
      JoinSplit(rest, sep);
      JoinCons(sep, s[..k], parts);
      assert s[k..k + |sep|] == sep;
      assert s == s[..k] + s[k..k + |sep|] + rest;
    }
  }

  /** A text without the separator splits into itself alone. */
  lemma SplitNone(s: string, sep: string)
    requires sep != [] && !Contains(s, sep)
    ensures Split(s, sep) == [s]
  {
  }

  /** The split of `a + sep + b` for a one-character separator absent from `a`. */
  lemma SplitConcat(a: string, sep: string, b: string)
    requires |sep| == 1 && !Contains(a, sep)
    ensures Split(a + sep + b, sep) == [a] + Split(b, sep)
  {
    var s := a + sep + b;
    assert OccursAt(s, sep, |a|) by {
      assert s[|a|..|a| + |sep|] == sep;
    }
    var k := FindSub(s, sep);
    assert k == |a| by {
      if k < |a| {
        assert s[k..k + 1] == a[k..k + 1];
        assert OccursAt(a, sep, k);
      }
    }
    assert s[..k] == a;
    assert s[k + |sep|..] == b;
  }

  /** A one-character needle occurs exactly when the character does. */
  lemma ContainsChar(s: string, c: char)
    ensures Contains(s, [c]) <==> c in s
  {
    if c in s {
      var i :| 0 <= i < |s| && s[i] == c;
      assert s[i..i + 1] == [c];
      assert OccursAt(s, [c], i);
    }
    if Contains(s, [c]) {
      var k := FindSub(s, [c]);
      assert s[k..k + 1][0] == s[k];
    }
  }

  /** Joining parts free of a one-character separator and splitting again gives the parts back. */
  lemma {:induction false} SplitJoin(parts: seq<string>, sep: string)
    requires |sep| == 1 && parts != []
    requires forall i :: 0 <= i < |parts| ==> !Contains(parts[i], sep)
    ensures Split(Join(sep, parts), sep) == parts
    decreases |parts|
  {
    if |parts| == 1 {
      SplitNone(parts[0], sep);
    } else {
      var rest := parts[1..];
      SplitJoin(rest, sep);
      SplitConcat(parts[0], sep, Join(sep, rest));
      assert parts == [parts[0]] + rest;
    }
  }

  /** Every part of a split is a slice of the text. */
  lemma {:induction false} SplitSlices(s: string, sep: string, p: string)
    requires sep != [] && p in Split(s, sep)
    ensures IsSlice(p, s)
    decreases |s|
  {
    var k := FindSub(s, sep);
    if k < 0 {
      SliceSelf(s);
    } else if p == s[..k] {
      SliceAt(s, 0, k);
    } else {
      var rest := s[k + |sep|..];
      assert p in Split(rest, sep);
      SplitSlices(rest, sep, p);
      SliceAt(s, k + |sep|, |s|);
      assert rest == s[k + |sep|..|s|];
      SliceOfSlice(p, rest, s);
    }
  }

  /** The prefix of `s` before the first whitespace character. */
  function WordEnd(s: string): (k: nat)
    ensures k <= |s| && NoSpace(s[..k])
    ensures k < |s| ==> IsSpace(s[k])
  {
    if s == [] || IsSpace(s[0]) then 0 else 1 + WordEnd(s[1..])
  }

  /** `s.split()`: the maximal runs of non-whitespace characters, in order. */
  function Words(s: string): seq<string>
    decreases |s|
  {
    var t := LStrip(s);
    if t == [] then []
    else
      var k := WordEnd(t);
      [t[..k]] + Words(t[k..])
  }

  /** Every word `split` returns is non-empty and free of whitespace. */
  lemma {:induction false} WordsAreWords(s: string)
    ensures forall i :: 0 <= i < |Words(s)| ==> Words(s)[i] != [] && NoSpace(Words(s)[i])
    decreases |s|
  {
    var t := LStrip(s);
    if t != [] {
      var k := WordEnd(t);
      var rest := Words(t[k..]);
      WordsAreWords(t[k..]);
      assert Words(s) == [t[..k]] + rest;
      forall i | 0 <= i < |Words(s)|
        ensures Words(s)[i] != [] && NoSpace(Words(s)[i])
      {
        if i > 0 {
          assert Words(s)[i] == rest[i - 1];
        }
      }
    }
  }

  /** Joining words with a single space and splitting again gives the words back. */
  lemma {:induction false} WordsJoin(ws: seq<string>)
    requires forall i :: 0 <= i < |ws| ==> ws[i] != [] && NoSpace(ws[i])
    ensures Words(Join(" ", ws)) == ws
    decreases |ws|
  {
    if |ws| == 1 {
      WordAlone(ws[0], "");
      assert ws[0] + "" == ws[0];
    } else if |ws| > 1 {
      var tail := ws[1..];
      var rest := Join(" ", tail);
      JoinCons(" ", ws[0], tail);
      assert [ws[0]] + tail == ws;
      assert Join(" ", ws) == ws[0] + (" " + rest);
      WordsJoin(tail);
      WordsLeadingSpace(rest);
      assert (" " + rest)[0] == ' ';
      WordAlone(ws[0], " " + rest);
    }
  }

  lemma WordsLeadingSpace(t: string)
    ensures Words(" " + t) == Words(t)
  {
    assert (" " + t)[1..] == t;
    assert LStrip(" " + t) == LStrip(t);
  }

  lemma WordAlone(w: string, tail: string)
    requires w != [] && NoSpace(w) && (tail == [] || IsSpace(tail[0]))
    ensures Words(w + tail) == [w] + Words(tail)
  {
    var t := w + tail;
    assert LStrip(t) == t;
    WordEndOf(w, tail);
    assert t[..|w|] == w && t[|w|..] == tail;
  }

  lemma {:induction false} WordEndOf(w: string, tail: string)
    requires NoSpace(w) && (tail == [] || IsSpace(tail[0]))
    ensures WordEnd(w + tail) == |w|
  {
    if w != [] {
      assert (w + tail)[1..] == w[1..] + tail;
      WordEndOf(w[1..], tail);
    }
  }

  // ---------------------------------------------------------------------
  // Case mapping
  // ---------------------------------------------------------------------

  /**
   * `str.lower` on one character, for the Latin and Russian Cyrillic
   * letters (A-Z, U+0400..U+042F); every other character is left as it is.
   */
  function LowerChar(c: char): char {
    if 'A' <= c <= 'Z' then (c as int + 32) as char
    else if 0x0410 <= c as int <= 0x042F then (c as int + 32) as char
    else if 0x0400 <= c as int <= 0x040F then (c as int + 80) as char
    else c
  }

  lemma LowerCharIdempotent(c: char)
    ensures LowerChar(LowerChar(c)) == LowerChar(c)
  {
  }

  /** Case mapping leaves punctuation such as `/` alone and never produces it. */
  lemma LowerCharSlash(c: char)
    ensures LowerChar(c) == '/' <==> c == '/'
  {
  }

  function Lower(s: string): (r: string)
    ensures |r| == |s|
    ensures forall i :: 0 <= i < |s| ==> r[i] == LowerChar(s[i])
  {
    seq(|s|, i requires 0 <= i < |s| => LowerChar(s[i]))
  }

  /** `s.replace(a, b)` for one-character `a` and `b`. */
  function ReplaceChar(s: string, a: char, b: char): (r: string)
    ensures |r| == |s|
    ensures forall i :: 0 <= i < |s| ==> r[i] == if s[i] == a then b else s[i]
  {
    seq(|s|, i requires 0 <= i < |s| => if s[i] == a then b else s[i])
  }

  lemma LowerConcat(a: string, b: string)
    ensures Lower(a + b) == Lower(a) + Lower(b)
  {
    var l, r := Lower(a + b), Lower(a) + Lower(b);
    assert |l| == |r|;
    forall i | 0 <= i < |l|
      ensures l[i] == r[i]
    {
      if i < |a| {
        assert (a + b)[i] == a[i];
      } else {
        assert (a + b)[i] == b[i - |a|];
      }
    }
  }

  /** A character missing from a string is missing from each of its slices. */
  lemma SliceAvoids(s: string, a: nat, b: nat, c: char)
    requires a <= b <= |s| && c !in s
    ensures c !in s[a..b]
  {
    forall i | 0 <= i < b - a
      ensures s[a..b][i] != c
    {
      assert s[a..b][i] == s[a + i];
    }
  }

  /** Lowering a slice is slicing the lowered string. */
  lemma LowerSlice(s: string, a: nat, b: nat)
    requires a <= b <= |s|
    ensures Lower(s[a..b]) == Lower(s)[a..b]
  {
    var l, r := Lower(s[a..b]), Lower(s)[a..b];
    forall i | 0 <= i < b - a
      ensures l[i] == r[i]
    {
      assert s[a..b][i] == s[a + i];
    }
  }

  /** Lowering twice is lowering once. */
  lemma LowerIdempotent(s: string)
    ensures Lower(Lower(s)) == Lower(s)
  {
    var l := Lower(s);
    forall i | 0 <= i < |s|
      ensures Lower(l)[i] == l[i]
    {
      LowerCharIdempotent(s[i]);
    }
  }

  // ---------------------------------------------------------------------
  // Slices and integers
  // ---------------------------------------------------------------------

  /** Concatenation regroups freely. */
  lemma ConcatAssoc<T>(a: seq<T>, b: seq<T>, c: seq<T>)
    ensures (a + b) + c == a + (b + c)
  {
  }

  /** `s[:n]` with Python's rules for a bound past the end or negative. */
  function PrefixSlice<T>(s: seq<T>, n: int): (r: seq<T>)
    ensures |r| <= |s| && r == s[..|r|]
    ensures n >= |s| ==> r == s
    ensures 0 <= n <= |s| ==> |r| == n
    ensures n < 0 ==> |r| == if |s| + n < 0 then 0 else |s| + n
  {
    if n >= |s| then s
    else if n >= 0 then s[..n]
    else if |s| + n < 0 then []
    else s[..|s| + n]
  }

  function DigitChar(d: nat): char
    requires d < 10
  {
    "0123456789"[d]
  }

  predicate IsDigit(c: char) {
    '0' <= c <= '9'
  }

  /** `str(n)` for a natural number: its decimal digits, no leading zero. */
  function NatToString(n: nat): (r: string)
    ensures r != [] && forall i :: 0 <= i < |r| ==> IsDigit(r[i])
    ensures |r| > 1 ==> r[0] != '0'
  {
    if n < 10 then [DigitChar(n)] else NatToString(n / 10) + [DigitChar(n % 10)]
  }

  /** `str(i)` for any integer. */
  function IntToString(i: int): (r: string)
    ensures r != []
    ensures forall k :: 0 <= k < |r| ==> IsDigit(r[k]) || (k == 0 && r[k] == '-')
  {
    if i < 0 then "-" + NatToString(-i) else NatToString(i)
  }

  /** The value of a string of decimal digits. */
  function DigitsValue(s: string): nat
    requires forall i :: 0 <= i < |s| ==> IsDigit(s[i])
  {
    if s == [] then 0
    else
      assert IsDigit(s[|s| - 1]);
      10 * DigitsValue(s[..|s| - 1]) + (s[|s| - 1] as int - '0' as int)
  }

  /** Reading back the decimal text of a number yields the number. */
  lemma {:induction false} NatToStringRoundTrip(n: nat)
    ensures DigitsValue(NatToString(n)) == n
  {
    if n >= 10 {
      NatToStringRoundTrip(n / 10);
      var s := NatToString(n);
      assert s[..|s| - 1] == NatToString(n / 10);
    }
  }

  /** Different numbers are printed differently. */
  lemma NatToStringInjective(a: nat, b: nat)
    requires NatToString(a) == NatToString(b)
    ensures a == b
  {
    NatToStringRoundTrip(a);
    NatToStringRoundTrip(b);
  }

  // ---------------------------------------------------------------------
  // Sequences
  // ---------------------------------------------------------------------

  /** `a` is `b` with some elements left out, the rest kept in order. */
  predicate IsSubseq<T(==)>(a: seq<T>, b: seq<T>)
    decreases |b|
  {
    if a == [] then true
    else if b == [] then false
    else if a[0] == b[0] then IsSubseq(a[1..], b[1..])
    else IsSubseq(a, b[1..])
  }

  lemma {:induction false} IsSubseqElements<T>(a: seq<T>, b: seq<T>)
    requires IsSubseq(a, b)
    ensures forall x :: x in a ==> x in b
    decreases |b|
  {
    if a != [] && b != [] {
      assert a == [a[0]] + a[1..] && b == [b[0]] + b[1..];
      if a[0] == b[0] {
        IsSubseqElements(a[1..], b[1..]);
      } else {
        IsSubseqElements(a, b[1..]);
      }
    }
  }

  lemma {:induction false} IsSubseqLength<T>(a: seq<T>, b: seq<T>)
    requires IsSubseq(a, b)
    ensures |a| <= |b|
    decreases |b|
  {
    if a != [] && b != [] {
      if a[0] == b[0] {
        IsSubseqLength(a[1..], b[1..]);
      } else {
        IsSubseqLength(a, b[1..]);
      }
    }
  }

  /** Leaving out the first element of a subsequence keeps it a subsequence. */
  lemma {:induction false} IsSubseqDropHead<T>(a: seq<T>, b: seq<T>)
    requires a != [] && IsSubseq(a, b)
    ensures IsSubseq(a[1..], b)
    decreases |b|, 1
  {
    if a[0] == b[0] {
      IsSubseqWeaken(a[1..], b);
    } else {
      IsSubseqDropHead(a, b[1..]);
      IsSubseqWeaken(a[1..], b);
    }
  }

  /** A subsequence of the tail is a subsequence of the whole. */
  lemma {:induction false} IsSubseqWeaken<T>(a: seq<T>, b: seq<T>)
    requires b != [] && IsSubseq(a, b[1..])
    ensures IsSubseq(a, b)
    decreases |b|, 0
  {
    if a != [] && a[0] == b[0] {
      IsSubseqDropHead(a, b[1..]);
    }
  }

  lemma IsSubseqCons<T>(x: T, a: seq<T>, b: seq<T>)
    requires IsSubseq(a, b)
    ensures IsSubseq(a, [x] + b) && IsSubseq([x] + a, [x] + b)
  {
    assert ([x] + b)[1..] == b;
    assert ([x] + a)[1..] == a;
    IsSubseqWeaken(a, [x] + b);
  }

  lemma {:induction false} IsSubseqSnoc<T>(a: seq<T>, b: seq<T>, x: T)
    requires IsSubseq(a, b)
    ensures IsSubseq(a, b + [x]) && IsSubseq(a + [x], b + [x])
    decreases |b|
  {
    if b == [] {
      assert a == [] && a + [x] == [x] && b + [x] == [x];
      assert [x][1..] == [];
    } else if a == [] {
      assert a + [x] == [x];
      IsSubseqTail(x, b);
    } else {
      assert (b + [x])[1..] == b[1..] + [x];
      assert (a + [x])[1..] == a[1..] + [x];
      if a[0] == b[0] {
        IsSubseqSnoc(a[1..], b[1..], x);
      } else {
        IsSubseqSnoc(a, b[1..], x);
      }
    }
  }

  lemma {:induction false} IsSubseqTail<T>(x: T, b: seq<T>)
    ensures IsSubseq([x], b + [x])
    decreases |b|
  {
    assert [x][1..] == [];
    if b != [] {
      assert (b + [x])[1..] == b[1..] + [x];
      if b[0] != x {
        IsSubseqTail(x, b[1..]);
      }
    }
  }

  lemma {:induction false} IsSubseqRefl<T>(a: seq<T>)
    ensures IsSubseq(a, a)
    decreases |a|
  {
    if a != [] {
      IsSubseqRefl(a[1..]);
    }
  }

  /** A list comprehension `[x for x in s if keep(x)]`. */
  function Filter<T(!new)>(keep: T -> bool, s: seq<T>): (r: seq<T>)
    ensures IsSubseq(r, s)
    ensures forall i :: 0 <= i < |r| ==> keep(r[i])
    ensures forall x :: x in r <==> x in s && keep(x)
    ensures |r| <= |s|
  {
    if s == [] then []
    else
      var rest := Filter(keep, s[1..]);
      assert s == [s[0]] + s[1..];
      IsSubseqLength(rest, s[1..]);
      if keep(s[0]) then
        IsSubseqCons(s[0], rest, s[1..]);
        [s[0]] + rest
      else
        IsSubseqCons(s[0], rest, s[1..]);
        rest
  }

  lemma FilterAll<T(!new)>(keep: T -> bool, s: seq<T>)
    requires forall x :: x in s ==> keep(x)
    ensures Filter(keep, s) == s
  {
  }

  lemma FilterSnoc<T(!new)>(keep: T -> bool, s: seq<T>, x: T)
    ensures Filter(keep, s + [x]) == Filter(keep, s) + (if keep(x) then [x] else [])
  {
    var tail := if keep(x) then [x] else [];
    if s == [] {
      assert [] + [x] == [x];
    } else {
      var t := s[1..];
      var head := if keep(s[0]) then [s[0]] else [];
      assert (s + [x])[0] == s[0] && (s + [x])[1..] == t + [x];
      FilterSnoc(keep, t, x);
      assert Filter(keep, s + [x]) == head + Filter(keep, t + [x]);
      assert Filter(keep, s) == head + Filter(keep, t);
      ConcatAssoc(head, Filter(keep, t), tail);
    }
  }

  /** Filtering keeps nothing when no element passes. */
  lemma {:induction false} FilterNone<T(!new)>(keep: T -> bool, s: seq<T>)
    requires forall i :: 0 <= i < |s| ==> !keep(s[i])
    ensures Filter(keep, s) == []
  {
    if s != [] {
      FilterNone(keep, s[1..]);
    }
  }

  /** Two tests that agree on every element keep the same elements. */
  lemma {:induction false} FilterSame<T(!new)>(f: T -> bool, g: T -> bool, s: seq<T>)
    requires forall i :: 0 <= i < |s| ==> f(s[i]) == g(s[i])
    ensures Filter(f, s) == Filter(g, s)
  {
    if s != [] {
      FilterSame(f, g, s[1..]);
    }
  }
}
