/**
 * Shared vocabulary for the widget models: an optional value, the few
 * Python string operations the widgets rely on (ASCII case mapping,
 * `in` on strings, `strip`, `split`, `str(int)`, `join`), Python list
 * slicing with a possibly negative bound, and the list edits several
 * widgets repeat ("remove the first match", "move to the front and cap").
 */
module Common {

  datatype Option<T> = None | Some(value: T)

  /** The smaller of two integers (Python's `min` of two). */
  function Lesser(a: int, b: int): (r: int)
    ensures r <= a && r <= b && (r == a || r == b)
  {
    if a <= b then a else b
  }

  /** The larger of two integers (Python's `max` of two). */
  function Greater(a: int, b: int): (r: int)
    ensures r >= a && r >= b && (r == a || r == b)
  {
    if a >= b then a else b
  }

  // ---------------------------------------------------------------------
  // Characters and case

  /**
   * The characters Python's `str.isspace` (and so `strip` and `split`)
   * treats as whitespace: tab through carriage return, the separators
   * U+001C to U+001F, the space, U+0085, the no-break space and the Unicode
   * space separators.
   */
  predicate IsSpace(c: char) {
    ('\t' <= c <= '\r') || ('\U{1C}' <= c <= ' ')
    || c == '\U{85}' || c == '\U{A0}' || c == '\U{1680}'
    || ('\U{2000}' <= c <= '\U{200A}') || c == '\U{2028}' || c == '\U{2029}'
    || c == '\U{202F}' || c == '\U{205F}' || c == '\U{3000}'
  }

  predicate IsDigit(c: char) { '0' <= c <= '9' }

  predicate IsUpperAscii(c: char) { 'A' <= c <= 'Z' }

  predicate IsLowerAscii(c: char) { 'a' <= c <= 'z' }

  function LowerChar(c: char): (r: char)
    ensures IsUpperAscii(c) ==> IsLowerAscii(r)
    ensures !IsUpperAscii(c) ==> r == c
  {
    if IsUpperAscii(c) then (c as int - 'A' as int + 'a' as int) as char else c
  }

  function UpperChar(c: char): (r: char)
    ensures IsLowerAscii(c) ==> IsUpperAscii(r)
    ensures !IsLowerAscii(c) ==> r == c
  {
    if IsLowerAscii(c) then (c as int - 'a' as int + 'A' as int) as char else c
  }

  /** Python `s.lower()` restricted to ASCII letters. */
  function Lower(s: string): (r: string)
    ensures |r| == |s|
    ensures forall i :: 0 <= i < |s| ==> r[i] == LowerChar(s[i])
  {
    if s == [] then [] else [LowerChar(s[0])] + Lower(s[1..])
  }

  /** Python `s.upper()` restricted to ASCII letters. */
  function Upper(s: string): (r: string)
    ensures |r| == |s|
    ensures forall i :: 0 <= i < |s| ==> r[i] == UpperChar(s[i])
  {
    if s == [] then [] else [UpperChar(s[0])] + Upper(s[1..])
  }

  /** Python `str.title()` on ASCII text: a letter is uppercased after a non-letter and lowercased after a letter. */
  function TitleCase(s: string): (r: string)
    ensures |r| == |s|
    ensures forall i :: 0 <= i < |s| && IsAsciiLetter(s[i]) ==>
              r[i] == if i == 0 || !IsAsciiLetter(s[i - 1]) then UpperChar(s[i]) else LowerChar(s[i])
    ensures forall i :: 0 <= i < |s| && !IsAsciiLetter(s[i]) ==> r[i] == s[i]
  {
    TitleCaseAfter(s, false)
  }

  predicate IsAsciiLetter(c: char) { IsUpperAscii(c) || IsLowerAscii(c) }

  function TitleCaseAfter(s: string, afterLetter: bool): (r: string)
    ensures |r| == |s|
    ensures forall i :: 0 <= i < |s| && IsAsciiLetter(s[i]) ==>
              r[i] == if (if i == 0 then !afterLetter else !IsAsciiLetter(s[i - 1])) then UpperChar(s[i]) else LowerChar(s[i])
    ensures forall i :: 0 <= i < |s| && !IsAsciiLetter(s[i]) ==> r[i] == s[i]
  {
    if s == [] then []
    else
      var c := if !IsAsciiLetter(s[0]) then s[0] else if afterLetter then LowerChar(s[0]) else UpperChar(s[0]);
      [c] + TitleCaseAfter(s[1..], IsAsciiLetter(s[0]))
  }

  lemma LowerIdempotent(s: string)
    ensures Lower(Lower(s)) == Lower(s)
  {
    assert forall i :: 0 <= i < |s| ==> LowerChar(LowerChar(s[i])) == LowerChar(s[i]);
  }

  // ---------------------------------------------------------------------
  // Substrings: Python `needle in haystack`

  predicate OccursAt(needle: string, hay: string, i: int) {
    0 <= i && i + |needle| <= |hay| && hay[i..i + |needle|] == needle
  }

  /** Python `needle in hay` for strings, by scanning from the left. */
  predicate Contains(hay: string, needle: string)
    decreases |hay|
  {
    needle <= hay || (hay != [] && Contains(hay[1..], needle))
  }

  /** `Contains` holds exactly when the needle occurs at some position. */
  lemma ContainsIff(hay: string, needle: string)
    ensures Contains(hay, needle) <==> exists i :: OccursAt(needle, hay, i)
  {
    if Contains(hay, needle) {
      ContainsOccurs(hay, needle);
    }
    if exists i :: OccursAt(needle, hay, i) {
      var i :| OccursAt(needle, hay, i);
      OccursContains(hay, needle, i);
    }
  }

  lemma {:induction false} ContainsOccurs(hay: string, needle: string)
    requires Contains(hay, needle)
    ensures exists i :: OccursAt(needle, hay, i)
    decreases |hay|
  {
    if needle <= hay {
      PrefixIffOccursAtZero(needle, hay);
    } else {
      ContainsOccurs(hay[1..], needle);
      var i :| OccursAt(needle, hay[1..], i);
      TailSlice(hay, i, |needle|);
      assert OccursAt(needle, hay, i + 1);
    }
  }

  lemma {:induction false} OccursContains(hay: string, needle: string, i: int)
    requires OccursAt(needle, hay, i)
    ensures Contains(hay, needle)
    decreases i
  {
    if i == 0 {
      PrefixIffOccursAtZero(needle, hay);
    } else {
      TailSlice(hay, i - 1, |needle|);
      assert OccursAt(needle, hay[1..], i - 1);
      OccursContains(hay[1..], needle, i - 1);
    }
  }

  lemma PrefixIffOccursAtZero(needle: string, hay: string)
    ensures needle <= hay <==> OccursAt(needle, hay, 0)
  {
    if |needle| <= |hay| {
      assert needle <= hay <==> hay[..|needle|] == needle;
    }
  }

  lemma TailSlice(hay: string, i: nat, n: nat)
    requires hay != [] && i + n <= |hay| - 1
    ensures hay[1..][i..i + n] == hay[i + 1..i + 1 + n]
  {
  }

  lemma {:induction false} ContainsEmpty(hay: string)
    ensures Contains(hay, "")
  {
    assert [] <= hay;
  }

  lemma {:induction false} ContainsSelf(s: string)
    ensures Contains(s, s)
  {
    assert s <= s;
  }

  /** A needle found in a part of a concatenation is found in the whole. */
  lemma ContainsInAppend(a: string, b: string, needle: string)
    ensures Contains(a, needle) ==> Contains(a + b, needle)
    ensures Contains(b, needle) ==> Contains(a + b, needle)
  {
    ContainsIff(a, needle);
    ContainsIff(b, needle);
    ContainsIff(a + b, needle);
    if Contains(a, needle) {
      var i :| OccursAt(needle, a, i);
      assert (a + b)[i..i + |needle|] == a[i..i + |needle|];
      assert OccursAt(needle, a + b, i);
    }
    if Contains(b, needle) {
      var i :| OccursAt(needle, b, i);
      assert (a + b)[|a| + i..|a| + i + |needle|] == b[i..i + |needle|];
      assert OccursAt(needle, a + b, |a| + i);
    }
  }

  /** A needle without `sep` found in `a + [sep] + b` lies wholly in `a` or wholly in `b`. */
  lemma ContainsAcrossSeparator(a: string, sep: char, b: string, needle: string)
    requires sep !in needle
    ensures Contains(a + [sep] + b, needle) <==> Contains(a, needle) || Contains(b, needle)
  {
    if Contains(a + [sep] + b, needle) {
      FoundOnOneSide(a, sep, b, needle);
    }
    ContainsInAppend(a, [sep] + b, needle);
    ContainsInAppend([sep], b, needle);
    assert a + [sep] + b == a + ([sep] + b);
  }

  lemma FoundOnOneSide(a: string, sep: char, b: string, needle: string)
    requires sep !in needle && Contains(a + [sep] + b, needle)
    ensures Contains(a, needle) || Contains(b, needle)
  {
    var h := a + [sep] + b;
    ContainsIff(h, needle);
    var i :| OccursAt(needle, h, i);
    OccurrenceSides(a, sep, b, needle, i);
    if i + |needle| <= |a| {
      assert h[i..i + |needle|] == a[i..i + |needle|];
      assert OccursAt(needle, a, i);
      ContainsIff(a, needle);
    } else {
      assert h[i..i + |needle|] == b[i - |a| - 1..i - |a| - 1 + |needle|];
      assert OccursAt(needle, b, i - |a| - 1);
      ContainsIff(b, needle);
    }
  }

  /** An occurrence in `a + [sep] + b` lies in `a`, lies in `b`, or covers the separator. */
  lemma OccurrenceSides(a: string, sep: char, b: string, needle: string, i: int)
    requires OccursAt(needle, a + [sep] + b, i)
    ensures i + |needle| <= |a| || i > |a| || (0 <= |a| - i < |needle| && needle[|a| - i] == sep)
  {
    var h := a + [sep] + b;
    if i <= |a| < i + |needle| {
      assert needle[|a| - i] == h[i..i + |needle|][|a| - i] == h[|a|];
    }
  }

  /** Lowercasing works field by field. */
  lemma LowerAppend(a: string, b: string)
    ensures Lower(a + b) == Lower(a) + Lower(b)
  {
    forall i | 0 <= i < |a + b|
      ensures Lower(a + b)[i] == (Lower(a) + Lower(b))[i]
    {
      if i < |a| {
        assert (a + b)[i] == a[i];
      } else {
        assert (a + b)[i] == b[i - |a|];
      }
    }
  }

  // ---------------------------------------------------------------------
  // strip and split

  /** Python `s.lstrip()`. */
  function StripLeft(s: string): (r: string)
    ensures |r| <= |s| && r == s[|s| - |r|..]
    ensures forall k :: 0 <= k < |s| - |r| ==> IsSpace(s[k])
    ensures r == [] || !IsSpace(r[0])
  {
    if s != [] && IsSpace(s[0]) then
      var r := StripLeft(s[1..]);
      assert forall k :: 1 <= k < |s| - |r| ==> s[k] == s[1..][k - 1];
      r
    else s
  }

  /** Python `s.rstrip()`. */
  function StripRight(s: string): (r: string)
    ensures |r| <= |s| && r == s[..|r|]
    ensures forall k :: |r| <= k < |s| ==> IsSpace(s[k])
    ensures r == [] || !IsSpace(r[|r| - 1])
  {
    if s != [] && IsSpace(s[|s| - 1]) then
      var r := StripRight(s[..|s| - 1]);
      assert forall k :: |r| <= k < |s| - 1 ==> s[k] == s[..|s| - 1][k];
      r
    else s
  }

  /** Python `s.strip()`. */
  function Strip(s: string): (r: string)
    ensures |r| <= |s|
    ensures r == [] || (!IsSpace(r[0]) && !IsSpace(r[|r| - 1]))
  {
    StripRight(StripLeft(s))
  }

  predicate AllSpace(s: string) {
    forall k :: 0 <= k < |s| ==> IsSpace(s[k])
  }

  /** A string strips to nothing exactly when it is all whitespace. */
  lemma StripEmptyIff(s: string)
    ensures Strip(s) == [] <==> AllSpace(s)
  {
    var l := StripLeft(s);
    if Strip(s) != [] {
      var r := Strip(s);
      assert r == l[..|r|];
      assert l == s[|s| - |l|..];
      assert !IsSpace(s[|s| - |l|]);
    }
  }

  /** A string without surrounding whitespace strips to itself. */
  lemma StripNoop(s: string)
    requires s == [] || (!IsSpace(s[0]) && !IsSpace(s[|s| - 1]))
    ensures Strip(s) == s
  {
  }

  /** The leading run of non-whitespace characters. */
  function TakeWord(s: string): (r: string)
    ensures r <= s
    ensures forall k :: 0 <= k < |r| ==> !IsSpace(r[k])
    ensures |r| == |s| || IsSpace(s[|r|])
  {
    if s == [] || IsSpace(s[0]) then [] else [s[0]] + TakeWord(s[1..])
  }

  predicate IsWord(w: string) {
    w != [] && forall k :: 0 <= k < |w| ==> !IsSpace(w[k])
  }

  /** Python `s.split()`: the maximal runs of non-whitespace characters. */
  function Split(s: string): (r: seq<string>)
    ensures forall i :: 0 <= i < |r| ==> IsWord(r[i])
    decreases |s|
  {
    if s == [] then []
    else if IsSpace(s[0]) then Split(s[1..])
    else
      var w := TakeWord(s);
      [w] + Split(s[|w|..])
  }

  /** A single word splits into itself. */
  lemma SplitWord(w: string)
    requires IsWord(w)
    ensures Split(w) == [w]
  {
    var t := TakeWord(w);
    assert |t| == |w|;
    assert t == w;
    assert w[|t|..] == [];
  }

  /** `split` finds no word exactly in an all-whitespace string. */
  lemma {:induction false} SplitEmptyIff(s: string)
    ensures Split(s) == [] <==> AllSpace(s)
  {
    if s != [] && IsSpace(s[0]) {
      SplitEmptyIff(s[1..]);
      assert AllSpace(s) <==> AllSpace(s[1..]);
    }
  }

  /** The first word of a string that does not start with whitespace is its leading run. */
  lemma SplitHead(s: string)
    requires s != [] && !IsSpace(s[0])
    ensures Split(s) != [] && Split(s)[0] == TakeWord(s) && Split(s)[0][0] == s[0]
  {
  }

  /** The first word starts with the first non-whitespace character. */
  lemma {:induction false} SplitFirstChar(s: string)
    requires !AllSpace(s)
    ensures Split(s) != [] && StripLeft(s) != [] && Split(s)[0][0] == StripLeft(s)[0]
  {
    if IsSpace(s[0]) {
      assert !AllSpace(s[1..]) by {
        var k :| 0 <= k < |s| && !IsSpace(s[k]);
        assert s[1..][k - 1] == s[k];
      }
      SplitFirstChar(s[1..]);
    } else {
      SplitHead(s);
    }
  }

  /** The position of the first space, or the length when there is none. */
  function SpaceIndex(s: string): (k: nat)
    ensures k <= |s|
  {
    if s == [] || s[0] == ' ' then 0 else 1 + SpaceIndex(s[1..])
  }

  lemma {:induction false} SpaceIndexAfter(a: string, b: string)
    requires ' ' !in a && (b == [] || b[0] == ' ')
    ensures SpaceIndex(a + b) == |a|
  {
    if a != [] {
      assert (a + b)[1..] == a[1..] + b;
      SpaceIndexAfter(a[1..], b);
    }
  }

  /** A word without spaces followed by nothing or by a space splits uniquely. */
  lemma SplitAtSpace(a1: string, b1: string, a2: string, b2: string)
    requires ' ' !in a1 && ' ' !in a2
    requires (b1 == [] || b1[0] == ' ') && (b2 == [] || b2[0] == ' ')
    requires a1 + b1 == a2 + b2
    ensures a1 == a2 && b1 == b2
  {
    SpaceIndexAfter(a1, b1);
    SpaceIndexAfter(a2, b2);
    assert a1 == (a1 + b1)[..|a1|] == a2;
    assert b1 == (a1 + b1)[|a1|..] == b2;
  }

  // ---------------------------------------------------------------------
  // Numbers as text: Python `str(n)`

  function DigitChar(d: nat): (c: char)
    requires d < 10
    ensures IsDigit(c)
  {
    ('0' as int + d) as char
  }

  function NatToStr(n: nat): (r: string)
    ensures |r| >= 1
    ensures forall i :: 0 <= i < |r| ==> IsDigit(r[i])
    ensures n < 10 <==> |r| == 1
    decreases n
  {
    if n < 10 then [DigitChar(n)] else NatToStr(n / 10) + [DigitChar(n % 10)]
  }

  /** Python `str(n)` for any integer. */
  function IntToStr(n: int): (r: string)
    ensures |r| >= 1
    ensures n < 0 <==> r[0] == '-'
  {
    if n < 0 then "-" + NatToStr(-n) else NatToStr(n)
  }

  function DigitValue(c: char): nat
    requires IsDigit(c)
  {
    c as int - '0' as int
  }

  /** Reading the decimal digits back gives the number. */
  function DigitsValue(s: string): nat
    requires forall i :: 0 <= i < |s| ==> IsDigit(s[i])
  {
    if s == [] then 0 else 10 * DigitsValue(s[..|s| - 1]) + DigitValue(s[|s| - 1])
  }

  lemma {:induction false} NatToStrRoundTrip(n: nat)
    ensures DigitsValue(NatToStr(n)) == n
    decreases n
  {
    var r := NatToStr(n);
    if n >= 10 {
      NatToStrRoundTrip(n / 10);
      assert r[..|r| - 1] == NatToStr(n / 10);
    }
  }

  /** Different numbers print differently. */
  lemma NatToStrInjective(a: nat, b: nat)
    requires NatToStr(a) == NatToStr(b)
    ensures a == b
  {
    NatToStrRoundTrip(a);
    NatToStrRoundTrip(b);
  }

  /** Different integers print differently, negative ones included. */
  lemma IntToStrInjective(a: int, b: int)
    requires IntToStr(a) == IntToStr(b)
    ensures a == b
  {
    if a < 0 && b < 0 {
      assert NatToStr(-a) == IntToStr(a)[1..];
      NatToStrInjective(-a, -b);
    } else if a >= 0 && b >= 0 {
      NatToStrInjective(a, b);
    }
  }

  // ---------------------------------------------------------------------
  // Sequences

  /** Python `sep.join(parts)`. */
  function Join(sep: string, parts: seq<string>): (r: string)
    ensures parts == [] ==> r == []
    ensures |parts| == 1 ==> r == parts[0]
  {
    if parts == [] then []
    else if |parts| == 1 then parts[0]
    else parts[0] + sep + Join(sep, parts[1..])
  }

  function Repeat<T>(x: T, n: nat): (r: seq<T>)
    ensures |r| == n
    ensures forall i :: 0 <= i < n ==> r[i] == x
  {
    if n == 0 then [] else [x] + Repeat(x, n - 1)
  }

  /** Whether Python's `s[i]` finds an element: `i` may count from either end. */
  predicate InRange(count: int, i: int) {
    -count <= i < count
  }

  /** Python `seq[i]` for an index that may count from the end. */
  function PyIndex<T>(s: seq<T>, i: int): (x: T)
    requires -|s| <= i < |s|
    ensures 0 <= i ==> x == s[i]
    ensures i < 0 ==> x == s[|s| + i]
  {
    if i >= 0 then s[i] else s[|s| + i]
  }

  /** Python `s[:n]`: a negative bound counts from the end. */
  function PyTake<T>(s: seq<T>, n: int): (r: seq<T>)
    ensures r <= s
    ensures n >= 0 ==> |r| == if n < |s| then n else |s|
    ensures n < 0 ==> |r| == if |s| + n > 0 then |s| + n else 0
  {
    if n >= 0 then (if n < |s| then s[..n] else s)
    else (if |s| + n > 0 then s[..|s| + n] else [])
  }

  predicate Distinct<T(==)>(s: seq<T>) {
    forall i, j :: 0 <= i < j < |s| ==> s[i] != s[j]
  }

  /** Python `s.index(x)`: the first position of `x`. */
  function IndexOf<T(==)>(s: seq<T>, x: T): (i: nat)
    requires x in s
    ensures i < |s| && s[i] == x
    ensures forall k :: 0 <= k < i ==> s[k] != x
  {
    if s[0] == x then 0 else 1 + IndexOf(s[1..], x)
  }

  /** Python `s.remove(x)` guarded by `x in s`: drop the first `x`, keep the rest in order. */
  function RemoveFirst<T(==)>(s: seq<T>, x: T): (r: seq<T>)
    ensures x !in s ==> r == s
  {
    if s == [] then []
    else if s[0] == x then s[1..]
    else [s[0]] + RemoveFirst(s[1..], x)
  }

  /** Removing `x` cuts out exactly the first position holding it. */
  lemma {:induction false} RemoveFirstSlices<T>(s: seq<T>, x: T)
    requires x in s
    ensures RemoveFirst(s, x) == s[..IndexOf(s, x)] + s[IndexOf(s, x) + 1..]
  {
    if s[0] != x {
      assert s == [s[0]] + s[1..];
      RemoveFirstSlices(s[1..], x);
      SliceShift(s, IndexOf(s[1..], x));
    }
  }

  /** Removing an element that only the appended last position holds gives back the front. */
  lemma {:induction false} RemoveFirstAfter<T>(s: seq<T>, x: T)
    requires x !in s
    ensures RemoveFirst(s + [x], x) == s
  {
    if s != [] {
      assert (s + [x])[1..] == s[1..] + [x];
      RemoveFirstAfter(s[1..], x);
    }
  }

  lemma SliceShift<T>(s: seq<T>, j: nat)
    requires j + 1 < |s|
    ensures [s[0]] + (s[1..][..j] + s[1..][j + 1..]) == s[..j + 1] + s[j + 2..]
  {
    assert s[1..][..j] == s[1..j + 1];
    assert s[1..][j + 1..] == s[j + 2..];
    assert [s[0]] + s[1..j + 1] == s[..j + 1];
  }

  lemma {:induction false} RemoveFirstMultiset<T>(s: seq<T>, x: T)
    ensures x in s ==> multiset(RemoveFirst(s, x)) == multiset(s) - multiset{x}
    ensures |RemoveFirst(s, x)| == if x in s then |s| - 1 else |s|
  {
    if x in s {
      var i := IndexOf(s, x);
      RemoveFirstSlices(s, x);
      assert s == s[..i] + [x] + s[i + 1..];
      calc {
        multiset(s);
        multiset(s[..i]) + multiset{x} + multiset(s[i + 1..]);
      }
    }
  }

  /** On a list without repeats, removing `x` removes every `x`. */
  lemma {:induction false} RemoveFirstDistinct<T>(s: seq<T>, x: T)
    requires Distinct(s)
    ensures Distinct(RemoveFirst(s, x))
    ensures forall y :: y in RemoveFirst(s, x) <==> y in s && y != x
  {
    if s != [] {
      DistinctTail(s);
      HeadTail(s);
      if s[0] != x {
        RemoveFirstDistinct(s[1..], x);
        var r := RemoveFirst(s[1..], x);
        assert RemoveFirst(s, x) == [s[0]] + r;
        DistinctCons(s[0], r);
        HeadTail([s[0]] + r);
        assert ([s[0]] + r)[1..] == r;
      }
    }
  }

  lemma DistinctTail<T>(s: seq<T>)
    requires Distinct(s) && s != []
    ensures Distinct(s[1..]) && s[0] !in s[1..]
  {
    forall i, j | 0 <= i < j < |s[1..]|
      ensures s[1..][i] != s[1..][j]
    {
      assert s[1..][i] == s[i + 1] && s[1..][j] == s[j + 1];
    }
    forall k | 0 <= k < |s[1..]|
      ensures s[1..][k] != s[0]
    {
      assert s[1..][k] == s[k + 1];
    }
  }

  lemma DistinctCons<T>(h: T, r: seq<T>)
    requires Distinct(r) && h !in r
    ensures Distinct([h] + r)
  {
    var t := [h] + r;
    forall i, j | 0 <= i < j < |t|
      ensures t[i] != t[j]
    {
      assert t[j] == r[j - 1];
      if i > 0 {
        assert t[i] == r[i - 1];
      }
    }
  }

  /** The elements of a list, as a set. */
  function Elems<T>(s: seq<T>): set<T>
  {
    set x | x in s
  }

  /** Appending an element not yet present keeps a list free of repeats. */
  lemma DistinctSnoc<T>(s: seq<T>, x: T)
    requires Distinct(s) && x !in s
    ensures Distinct(s + [x])
  {
    forall i, j | 0 <= i < j < |s + [x]|
      ensures (s + [x])[i] != (s + [x])[j]
    {
      if j == |s| {
        assert (s + [x])[i] == s[i];
      }
    }
  }

  /** Two lists without repeats and without common elements join into one without repeats. */
  lemma DistinctConcat<T>(a: seq<T>, b: seq<T>)
    requires Distinct(a) && Distinct(b)
    requires forall x :: x in a ==> x !in b
    ensures Distinct(a + b)
  {
    forall i, j | 0 <= i < j < |a + b|
      ensures (a + b)[i] != (a + b)[j]
    {
      if i < |a| <= j {
        assert (a + b)[i] in a && (a + b)[j] == b[j - |a|];
      } else if |a| <= i {
        assert (a + b)[i] == b[i - |a|] && (a + b)[j] == b[j - |a|];
      }
    }
  }

  lemma ConcatAssoc<T>(a: seq<T>, b: seq<T>, c: seq<T>)
    ensures (a + b) + c == a + (b + c)
  {
  }

  lemma TakeSnoc<T>(s: seq<T>, i: nat)
    requires i < |s|
    ensures s[..i + 1] == s[..i] + [s[i]]
  {
  }

  lemma HeadTail<T>(s: seq<T>)
    requires s != []
    ensures forall y :: y in s <==> y == s[0] || y in s[1..]
  {
    assert s == [s[0]] + s[1..];
  }

  /**
   * The "most recent first" update: drop an existing copy of `x`, put `x`
   * in front and keep at most `cap` entries (Python `s[:cap]`).
   */
  function MoveToFront<T(==)>(s: seq<T>, x: T, cap: int): (r: seq<T>)
    ensures r <= [x] + RemoveFirst(s, x)
    ensures cap >= 1 ==> |r| >= 1 && r[0] == x && |r| <= cap
  {
    PyTake([x] + RemoveFirst(s, x), cap)
  }

  /** The update keeps a repeat-free list repeat-free and holds `x` exactly once. */
  lemma MoveToFrontDistinct<T>(s: seq<T>, x: T, cap: int)
    requires Distinct(s)
    ensures Distinct(MoveToFront(s, x, cap))
    ensures forall k :: 1 <= k < |MoveToFront(s, x, cap)| ==> MoveToFront(s, x, cap)[k] != x
  {
    RemoveFirstDistinct(s, x);
    var rf := RemoveFirst(s, x);
    assert x !in rf;
    DistinctCons(x, rf);
    var full := [x] + rf;
    var r := MoveToFront(s, x, cap);
    assert r <= full;
    forall i, j | 0 <= i < j < |r| ensures r[i] != r[j] {
      assert r[i] == full[i] && r[j] == full[j];
    }
    forall k | 1 <= k < |r| ensures r[k] != x {
      assert r[k] == full[k] && full[0] == x;
    }
  }

  /** Python `del s[i]`. */
  function DeleteAt<T>(s: seq<T>, i: nat): (r: seq<T>)
    requires i < |s|
    ensures |r| == |s| - 1
    ensures forall k :: 0 <= k < i ==> r[k] == s[k]
    ensures forall k :: i <= k < |r| ==> r[k] == s[k + 1]
  {
    s[..i] + s[i + 1..]
  }

  // ---------------------------------------------------------------------
  // Named entries: the (widget, name) lists the action bars keep

  /** Python `s.replace(" ", "_")`. */
  function SpacesToUnderscores(s: string): (r: string)
    ensures |r| == |s|
    ensures forall i :: 0 <= i < |s| ==> r[i] == if s[i] == ' ' then '_' else s[i]
  {
    if s == [] then [] else [if s[0] == ' ' then '_' else s[0]] + SpacesToUnderscores(s[1..])
  }

  /** The name an action gets when none is given: the text lowercased, spaces as underscores. */
  function DefaultActionName(text: string): (name: string)
    ensures |name| == |text|
    ensures ' ' !in name
    ensures forall i :: 0 <= i < |text| && text[i] != ' ' ==> name[i] == LowerChar(text[i])
  {
    SpacesToUnderscores(Lower(text))
  }

  /** The given name, or the default one derived from the text. */
  function ActionName(text: string, name: Option<string>): (n: string)
    ensures name.Some? ==> n == name.value
    ensures name.None? ==> n == DefaultActionName(text)
  {
    if name.Some? then name.value else DefaultActionName(text)
  }

  datatype Named<T> = Named(name: string, item: T)

  /** An action button of an action bar: its text and colour variant. */
  datatype ActionButton = ActionButton(text: string, variant: string)

  function Names<T>(s: seq<Named<T>>): (r: seq<string>)
    ensures |r| == |s|
    ensures forall i :: 0 <= i < |s| ==> r[i] == s[i].name
  {
    if s == [] then [] else [s[0].name] + Names(s[1..])
  }

  lemma NamesAppend<T>(a: seq<Named<T>>, b: seq<Named<T>>)
    ensures Names(a + b) == Names(a) + Names(b)
  {
  }

  /** The loop `for i, (w, n) in enumerate(s): if n == name: ... break`: the first position holding `name`, or -1. */
  method FindName<T>(s: seq<Named<T>>, name: string) returns (i: int)
    ensures i == -1 <==> name !in Names(s)
    ensures i != -1 ==> 0 <= i < |s| && i == IndexOf(Names(s), name)
  {
    i := 0;
    while i < |s|
      invariant 0 <= i <= |s|
      invariant forall k :: 0 <= k < i ==> s[k].name != name
    {
      if s[i].name == name {
        IndexOfIsFirst(Names(s), name, i);
        return;
      }
      i := i + 1;
    }
    i := -1;
  }

  /** The first position of `x` is the one no earlier position holds. */
  lemma {:induction false} IndexOfIsFirst<T>(s: seq<T>, x: T, i: nat)
    requires i < |s| && s[i] == x
    requires forall k :: 0 <= k < i ==> s[k] != x
    ensures IndexOf(s, x) == i
  {
    if i > 0 {
      IndexOfIsFirst(s[1..], x, i - 1);
    }
  }

  lemma NamesDeleteAt<T>(s: seq<Named<T>>, i: nat)
    requires i < |s|
    ensures Names(s[..i] + s[i + 1..]) == Names(s)[..i] + Names(s)[i + 1..]
  {
    var a, b := Names(s[..i] + s[i + 1..]), Names(s)[..i] + Names(s)[i + 1..];
    assert |a| == |b|;
    forall k | 0 <= k < |a|
      ensures a[k] == b[k]
    {
      if k < i {
        assert a[k] == s[k].name == b[k];
      } else {
        assert a[k] == s[k + 1].name == b[k];
      }
    }
  }

  /** Replacing an entry by one of the same name keeps the name list. */
  lemma NamesUpdate<T>(s: seq<Named<T>>, i: nat, x: Named<T>)
    requires i < |s| && x.name == s[i].name
    ensures Names(s[i := x]) == Names(s)
  {
    assert forall j :: 0 <= j < |s| ==> Names(s[i := x])[j] == Names(s)[j];
  }

  /**
   * `del s[i]` at the first position `i` holding `name` (the loop above),
   * and no change for an absent name: exactly that name leaves the name list.
   */
  function RemoveNamed<T>(s: seq<Named<T>>, name: string): (r: seq<Named<T>>)
    ensures Names(r) == RemoveFirst(Names(s), name)
    ensures name !in Names(s) ==> r == s
    ensures |r| == if name in Names(s) then |s| - 1 else |s|
  {
    if name in Names(s) then
      var i := IndexOf(Names(s), name);
      NamesDeleteAt(s, i);
      RemoveFirstSlices(Names(s), name);
      s[..i] + s[i + 1..]
    else s
  }

  /** A label shown for a value: it exists only for a value that was non-empty when the row was built. */
  function LabelFor(value: string): (l: Option<string>)
    ensures l.Some? <==> value != ""
    ensures l.Some? ==> l.value == value
  {
    if value != "" then Some(value) else None
  }

  /** A label built at construction follows later updates; a missing one stays missing. */
  function Relabel(shown: Option<string>, value: string): (l: Option<string>)
    ensures l.Some? <==> shown.Some?
    ensures l.Some? ==> l.value == value
  {
    if shown.Some? then Some(value) else None
  }

  /** A fresh name added and then removed leaves the action list exactly as it was. */
  lemma AddThenRemoveAction<T>(s: seq<Named<T>>, x: Named<T>)
    requires x.name !in Names(s)
    ensures RemoveNamed(s + [x], x.name) == s
  {
    var t := s + [x];
    NamesAppend(s, [x]);
    assert Names(t)[|s|] == x.name;
    IndexOfIsFirst(Names(t), x.name, |s|);
    assert t[..|s|] + t[|s| + 1..] == s;
  }

  /** Removing an action takes out the first button of that name and keeps all others, in order. */
  lemma RemoveActionKeepsOthers<T>(s: seq<Named<T>>, name: string, i: nat)
    requires i < |s| && s[i].name == name
    requires forall k :: 0 <= k < i ==> s[k].name != name
    ensures RemoveNamed(s, name) == s[..i] + s[i + 1..]
  {
    assert forall k :: 0 <= k < i ==> Names(s)[k] != name;
    IndexOfIsFirst(Names(s), name, i);
  }

  // ---------------------------------------------------------------------
  // splitting on one character

  /** Python `s.split(c)`: the fields between occurrences of `c`, empty ones included. */
  function SplitOn(s: string, c: char): (r: seq<string>)
    ensures r != []
    ensures forall i :: 0 <= i < |r| ==> c !in r[i]
    decreases |s|
  {
    if c !in s then [s]
    else
      var i := IndexOf(s, c);
      [s[..i]] + SplitOn(s[i + 1..], c)
  }

  /** Python `[p for p in parts if p]`. */
  function NonEmpty(parts: seq<string>): (r: seq<string>)
    ensures |r| <= |parts|
    ensures forall i :: 0 <= i < |r| ==> r[i] != "" && r[i] in parts
    ensures (forall i :: 0 <= i < |parts| ==> parts[i] != "") ==> r == parts
  {
    if parts == [] then []
    else (if parts[0] != "" then [parts[0]] else []) + NonEmpty(parts[1..])
  }

  /** Splitting a join on a character the parts do not contain gives the parts back. */
  lemma {:induction false} SplitOnJoin(parts: seq<string>, c: char)
    requires parts != []
    requires forall i :: 0 <= i < |parts| ==> c !in parts[i]
    ensures SplitOn(Join([c], parts), c) == parts
  {
    if |parts| > 1 {
      JoinStep(parts, c);
      SplitOnJoin(parts[1..], c);
      SplitOnField(parts[0], c, Join([c], parts[1..]));
    }
  }

  lemma JoinStep(parts: seq<string>, c: char)
    requires |parts| > 1
    requires forall i :: 0 <= i < |parts| ==> c !in parts[i]
    ensures Join([c], parts) == parts[0] + [c] + Join([c], parts[1..])
    ensures c !in parts[0] && forall i :: 0 <= i < |parts[1..]| ==> c !in parts[1..][i]
    ensures parts == [parts[0]] + parts[1..]
  {
  }

  /** The first field ends at the first separator. */
  lemma SplitOnField(p: string, c: char, t: string)
    requires c !in p
    ensures SplitOn(p + [c] + t, c) == [p] + SplitOn(t, c)
  {
    var s := p + [c] + t;
    IndexOfAfter(p, c, t);
    assert s[..|p|] == p;
    assert s[|p| + 1..] == t;
  }

  lemma IndexOfAfter(p: string, c: char, t: string)
    requires c !in p
    ensures c in p + [c] + t && IndexOf(p + [c] + t, c) == |p|
  {
    var s := p + [c] + t;
    assert s[|p|] == c;
    assert forall k :: 0 <= k < |p| ==> s[k] == p[k] && s[k] != c;
  }

  /** Python `s[k:]` for a start that may count from the end. */
  function PyDrop<T>(s: seq<T>, k: int): (r: seq<T>)
    ensures k >= 0 ==> r == s[if k < |s| then k else |s|..]
    ensures k < 0 ==> r == s[if |s| + k > 0 then |s| + k else 0..]
  {
    if k >= 0 then s[if k < |s| then k else |s|..]
    else s[if |s| + k > 0 then |s| + k else 0..]
  }

  /** Python `s[:k] + s[k:] == s`. */
  lemma TakeDropSplit<T>(s: seq<T>, k: int)
    ensures PyTake(s, k) + PyDrop(s, k) == s
  {
  }
}
