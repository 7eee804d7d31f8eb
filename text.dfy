/** The string operations the application relies on: case folding, substring
    tests (`in`, `icontains`), `strip`, `split`/`join` and `int()` parsing. */
module Text {
  import opened Wrappers

  // ---------------------------------------------------------------------------
  // Case folding

  /** `c.lower()` for the ASCII letters; every other character is left as is. */
  function LowerChar(c: char): char {
    if 'A' <= c <= 'Z' then (c as int - 'A' as int + 'a' as int) as char else c
  }

  /** `s.lower()`, one character at a time. */
  function Lower(s: string): (r: string)
    ensures |r| == |s|
    ensures forall i :: 0 <= i < |s| ==> r[i] == LowerChar(s[i])
  {
    seq(|s|, i requires 0 <= i < |s| => LowerChar(s[i]))
  }

  lemma LowerAppend(a: string, b: string)
    ensures Lower(a + b) == Lower(a) + Lower(b)
  {
    assert forall i :: 0 <= i < |a + b| ==> Lower(a + b)[i] == (Lower(a) + Lower(b))[i];
  }

  /** Django's `iexact`: equal once both sides are lower-cased. */
  predicate IEquals(a: string, b: string) {
    Lower(a) == Lower(b)
  }

  // ---------------------------------------------------------------------------
  // Substrings

  /** `p` occurs in `s` starting at index `i`. */
  predicate OccursAt(p: string, s: string, i: int) {
    0 <= i && i + |p| <= |s| && s[i..i + |p|] == p
  }

  /** Python's `p in s`. */
  predicate Contains(s: string, p: string) {
    exists i | 0 <= i <= |s| - |p| :: OccursAt(p, s, i)
  }

  /** Django's `icontains`, and Python's `p.lower() in s.lower()`. */
  predicate IContains(s: string, p: string) {
    Contains(Lower(s), Lower(p))
  }

  lemma ContainsMiddle(a: string, b: string, c: string)
    ensures Contains(a + b + c, b)
  {
    assert OccursAt(b, a + b + c, |a|) by {
      assert (a + b + c)[|a|..|a| + |b|] == b;
    }
  }

  lemma ContainsTransitive(s: string, t: string, p: string)
    requires Contains(s, t) && Contains(t, p)
    ensures Contains(s, p)
  {
    var i :| 0 <= i <= |s| - |t| && OccursAt(t, s, i);
    var j :| 0 <= j <= |t| - |p| && OccursAt(p, t, j);
    assert t == s[i..i + |t|];
    assert t[j..j + |p|] == p;
    forall k | 0 <= k < |p|
      ensures s[i + j + k] == p[k]
    {
      assert s[i + j + k] == t[j + k];
    }
    assert s[i + j..i + j + |p|] == p;
    assert OccursAt(p, s, i + j);
  }

  /** Lower-casing keeps every substring a substring. */
  lemma ContainsLower(s: string, p: string)
    requires Contains(s, p)
    ensures Contains(Lower(s), Lower(p))
  {
    var i :| 0 <= i <= |s| - |p| && OccursAt(p, s, i);
    assert Lower(s)[i..i + |p|] == Lower(p);
    assert OccursAt(Lower(p), Lower(s), i);
  }

  // ---------------------------------------------------------------------------
  // Stripping

  /** The characters for which Python's `str.isspace()` holds: what `strip()`
      removes when it is given no argument. */
  const Whitespace: set<char> := {
    '\t', '\n', '\U{0B}', '\U{0C}', '\r', '\U{1C}', '\U{1D}', '\U{1E}', '\U{1F}', ' ',
    '\U{85}', '\U{A0}', '\U{1680}',
    '\U{2000}', '\U{2001}', '\U{2002}', '\U{2003}', '\U{2004}', '\U{2005}',
    '\U{2006}', '\U{2007}', '\U{2008}', '\U{2009}', '\U{200A}',
    '\U{2028}', '\U{2029}', '\U{202F}', '\U{205F}', '\U{3000}'
  }

  /** Every character of `s` is in `cs`. */
  predicate AllIn(s: string, cs: set<char>) {
    forall i :: 0 <= i < |s| ==> s[i] in cs
  }

  /** `s` neither starts nor ends with a character of `cs`. */
  predicate Trimmed(s: string, cs: set<char>) {
    s == [] || (s[0] !in cs && s[|s| - 1] !in cs)
  }

  /** `s.lstrip(cs)`. */
  function StripLeft(s: string, cs: set<char>): (r: string)
    ensures |r| <= |s| && r == s[|s| - |r|..]
    ensures AllIn(s[..|s| - |r|], cs)
    ensures r == [] || r[0] !in cs
    decreases |s|
  {
    if s != [] && s[0] in cs then
      var r := StripLeft(s[1..], cs);
      assert s[..|s| - |r|] == [s[0]] + s[1..][..|s| - 1 - |r|];
      r
    else s
  }

  /** `s.rstrip(cs)`. */
  function StripRight(s: string, cs: set<char>): (r: string)
    ensures |r| <= |s| && r == s[..|r|]
    ensures AllIn(s[|r|..], cs)
    ensures r == [] || r[|r| - 1] !in cs
    decreases |s|
  {
    if s != [] && s[|s| - 1] in cs then
      var r := StripRight(s[..|s| - 1], cs);
      assert s[|r|..] == s[..|s| - 1][|r|..] + [s[|s| - 1]];
      r
    else s
  }

  /** `s.strip(cs)`: the longest middle part of `s` that neither starts nor
      ends with a character of `cs`. */
  function Strip(s: string, cs: set<char>): (r: string)
    ensures Trimmed(r, cs)
    ensures |r| <= |s|
  {
    StripRight(StripLeft(s, cs), cs)
  }

  lemma {:induction false} StripLeftOf(a: string, t: string, cs: set<char>)
    requires AllIn(a, cs) && (t == [] || t[0] !in cs)
    ensures StripLeft(a + t, cs) == t
    decreases |a|
  {
    if a != [] {
      assert (a + t)[1..] == a[1..] + t;
      StripLeftOf(a[1..], t, cs);
    } else {
      assert a + t == t;
    }
  }

  /** A leading run of stripped characters makes no difference to `lstrip`. */
  lemma {:induction false} StripLeftSkips(a: string, t: string, cs: set<char>)
    requires AllIn(a, cs)
    ensures StripLeft(a + t, cs) == StripLeft(t, cs)
    decreases |a|
  {
    if a != [] {
      assert (a + t)[1..] == a[1..] + t;
      StripLeftSkips(a[1..], t, cs);
    } else {
      assert a + t == t;
    }
  }

  lemma {:induction false} StripRightOf(t: string, b: string, cs: set<char>)
    requires AllIn(b, cs) && (t == [] || t[|t| - 1] !in cs)
    ensures StripRight(t + b, cs) == t
    decreases |b|
  {
    if b != [] {
      assert (t + b)[..|t + b| - 1] == t + b[..|b| - 1];
      StripRightOf(t, b[..|b| - 1], cs);
    } else {
      assert t + b == t;
    }
  }

  /** `strip` is characterised by its result: whenever `s` is `a + r + b` with
      `a` and `b` made of characters of `cs` and `r` trimmed, it returns `r`. */
  lemma StripOf(a: string, r: string, b: string, cs: set<char>)
    requires AllIn(a, cs) && AllIn(b, cs) && Trimmed(r, cs)
    ensures Strip(a + r + b, cs) == r
  {
    if r == [] {
      assert a + r + b == a + b;
      assert AllIn(a + b, cs);
      StripLeftOf(a + b, [], cs);
      assert a + b + [] == a + b;
    } else {
      assert a + r + b == a + (r + b);
      StripLeftOf(a, r + b, cs);
      StripRightOf(r, b, cs);
    }
  }

  /** Stripping twice is stripping once. */
  lemma StripIdempotent(s: string, cs: set<char>)
    ensures Strip(Strip(s, cs), cs) == Strip(s, cs)
  {
    var r := Strip(s, cs);
    assert [] + r + [] == r;
    assert AllIn([], cs);
    StripOf([], r, [], cs);
  }

  /** `r` sits in `s` at index `i`, with only characters of `cs` before and
      after it. */
  predicate SliceBetween(s: string, i: nat, r: string, cs: set<char>) {
    && i + |r| <= |s|
    && s[i..i + |r|] == r
    && AllIn(s[..i], cs)
    && AllIn(s[i + |r|..], cs)
  }

  /** Stripping only removes characters of `cs`, and only at the two ends:
      the result sits in `s` at the index where `lstrip` stopped, with only
      characters of `cs` before and after it. */
  lemma StripSlice(s: string, cs: set<char>)
    ensures SliceBetween(s, |s| - |StripLeft(s, cs)|, Strip(s, cs), cs)
  {
    var l := StripLeft(s, cs);
    var r := StripRight(l, cs);
    assert Strip(s, cs) == r;
    PrefixOfSuffix(s, l, r, cs);
  }

  /** A prefix `r` of a suffix `l` of `s`, where `s` has only characters of
      `cs` before `l` and `l` only characters of `cs` after `r`. */
  lemma PrefixOfSuffix(s: string, l: string, r: string, cs: set<char>)
    requires |l| <= |s| && l == s[|s| - |l|..] && AllIn(s[..|s| - |l|], cs)
    requires |r| <= |l| && r == l[..|r|] && AllIn(l[|r|..], cs)
    ensures SliceBetween(s, |s| - |l|, r, cs)
  {
    var i := |s| - |l|;
    assert s[i..][..|r|] == s[i..i + |r|];
    assert s[i + |r|..] == l[|r|..];
  }

  /** A trailing run of stripped characters makes no difference to `rstrip`. */
  lemma {:induction false} StripRightSkips(t: string, b: string, cs: set<char>)
    requires AllIn(b, cs)
    ensures StripRight(t + b, cs) == StripRight(t, cs)
    decreases |b|
  {
    if b != [] {
      assert (t + b)[..|t + b| - 1] == t + b[..|b| - 1];
      StripRightSkips(t, b[..|b| - 1], cs);
    } else {
      assert t + b == t;
    }
  }

  /** Once `lstrip` stops inside `s`, what follows `s` is kept as it is. */
  lemma {:induction false} StripLeftAppend(s: string, b: string, cs: set<char>)
    requires StripLeft(s, cs) != []
    ensures StripLeft(s + b, cs) == StripLeft(s, cs) + b
    decreases |s|
  {
    if s[0] in cs {
      calc {
        StripLeft(s + b, cs);
      == { assert (s + b)[0] == s[0] && (s + b)[1..] == s[1..] + b; }
        StripLeft(s[1..] + b, cs);
      == { StripLeftAppend(s[1..], b, cs); }
        StripLeft(s[1..], cs) + b;
      }
    } else {
      assert (s + b)[0] == s[0];
    }
  }

  /** Padding made of stripped characters on either side changes nothing. */
  lemma StripPadded(a: string, s: string, b: string, cs: set<char>)
    requires AllIn(a, cs) && AllIn(b, cs)
    ensures Strip(a + s + b, cs) == Strip(s, cs)
  {
    assert a + s + b == a + (s + b);
    StripLeftSkips(a, s + b, cs);
    var l := StripLeft(s, cs);
    if l == [] {
      assert AllIn(s, cs) by {
        assert AllIn(s[..|s| - |l|], cs);
        assert s[..|s| - |l|] == s;
      }
      StripLeftSkips(s, b, cs);
      StripLeftOf(b, [], cs);
      assert b + [] == b;
    } else {
      StripLeftAppend(s, b, cs);
      StripRightSkips(l, b, cs);
    }
  }

  /** Python's no-argument `strip()`. */
  function Trim(s: string): (r: string)
    ensures Trimmed(r, Whitespace)
  {
    Strip(s, Whitespace)
  }

  // ---------------------------------------------------------------------------
  // Splitting and joining

  /** The first index at or after `from` where `sep` occurs in `s`. */
  function FindFrom(s: string, sep: string, from: nat): (r: Option<nat>)
    requires |sep| > 0
    ensures r.Some? ==> from <= r.value && OccursAt(sep, s, r.value)
    ensures forall k :: from <= k && (r.None? || k < r.value) ==> !OccursAt(sep, s, k)
    decreases |s| - from
  {
    if from + |sep| > |s| then None
    else if s[from..from + |sep|] == sep then Some(from)
    else FindFrom(s, sep, from + 1)
  }

  /** Python's `s.find(sep)`, as an Option: the leftmost occurrence. */
  function Find(s: string, sep: string): (r: Option<nat>)
    requires |sep| > 0
    ensures r.Some? ==> OccursAt(sep, s, r.value)
    ensures forall k :: 0 <= k && (r.None? || k < r.value) ==> !OccursAt(sep, s, k)
  {
    FindFrom(s, sep, 0)
  }

  /** Python's `s.count(sep)`: non-overlapping occurrences, scanned left to right. */
  function Count(s: string, sep: string): nat
    requires |sep| > 0
    decreases |s|
  {
    match Find(s, sep)
    case None => 0
    case Some(i) => 1 + Count(s[i + |sep|..], sep)
  }

  /** Python's `s.split(sep)` for a non-empty separator: the pieces between
      successive leftmost occurrences, empty pieces included. */
  function Split(s: string, sep: string): (parts: seq<string>)
    requires |sep| > 0
    ensures |parts| == Count(s, sep) + 1
    ensures forall k :: 0 <= k < |parts| ==> !Contains(parts[k], sep)
    decreases |s|
  {
    match Find(s, sep)
    case None =>
      assert !Contains(s, sep);
      [s]
    case Some(i) =>
      var head := s[..i];
      assert !Contains(head, sep) by {
        forall k | 0 <= k <= |head| - |sep|
          ensures !OccursAt(sep, head, k)
        {
          assert k < i;
          assert !OccursAt(sep, s, k);
          assert head[k..k + |sep|] == s[k..k + |sep|];
        }
      }
      [head] + Split(s[i + |sep|..], sep)
  }

  /** Python's `sep.join(parts)`. */
  function Join(parts: seq<string>, sep: string): string
    decreases |parts|
  {
    if parts == [] then ""
    else if |parts| == 1 then parts[0]
    else parts[0] + sep + Join(parts[1..], sep)
  }

  /** Joining the pieces of a split with the separator gives the string back. */
  lemma {:induction false} JoinSplit(s: string, sep: string)
    requires |sep| > 0
    ensures Join(Split(s, sep), sep) == s
    decreases |s|
  {
    match Find(s, sep)
    case None =>
    case Some(i) =>
      var rest := s[i + |sep|..];
      JoinSplit(rest, sep);
      assert s == s[..i] + sep + rest by {
        assert s[i..i + |sep|] == sep;
      }
  }

  /** Every piece of a joined sequence is a substring of the joined string. */
  lemma {:induction false} JoinContainsPart(parts: seq<string>, sep: string, k: nat)
    requires k < |parts|
    ensures Contains(Join(parts, sep), parts[k])
    decreases |parts|
  {
    if |parts| == 1 {
      ContainsMiddle([], parts[0], []);
      assert [] + parts[0] + [] == parts[0];
    } else if k == 0 {
      ContainsMiddle([], parts[0], sep + Join(parts[1..], sep));
      assert [] + parts[0] + (sep + Join(parts[1..], sep)) == Join(parts, sep);
    } else {
      JoinContainsPart(parts[1..], sep, k - 1);
      ContainsMiddle(parts[0] + sep, Join(parts[1..], sep), []);
      assert parts[0] + sep + Join(parts[1..], sep) + [] == Join(parts, sep);
      ContainsTransitive(Join(parts, sep), Join(parts[1..], sep), parts[k]);
    }
  }

  // ---------------------------------------------------------------------------
  // Integers

  predicate IsDigit(c: char) {
    '0' <= c <= '9'
  }

  /** The digit string Python's `int()` accepts after the sign: ASCII digits,
      with single underscores allowed between two digits. */
  predicate DigitGroup(s: string) {
    && |s| > 0
    && IsDigit(s[0])
    && IsDigit(s[|s| - 1])
    && (forall i :: 0 <= i < |s| ==> IsDigit(s[i]) || s[i] == '_')
    && (forall i :: 0 <= i < |s| - 1 ==> s[i] == '_' ==> s[i + 1] != '_')
  }

  /** The value of a digit group, underscores ignored. */
  function DigitsValue(s: string): nat
    requires forall i :: 0 <= i < |s| ==> IsDigit(s[i]) || s[i] == '_'
  {
    if s == [] then 0
    else if s[|s| - 1] == '_' then DigitsValue(s[..|s| - 1])
    else
      assert IsDigit(s[|s| - 1]);
      10 * DigitsValue(s[..|s| - 1]) + (s[|s| - 1] as int - '0' as int)
  }

  /** Python's `int(s)` on a string: surrounding whitespace is ignored, a sign
      is optional, and anything else than a digit group is a `ValueError`
      (here `None`). */
  function ParseInt(s: string): (r: Option<int>)
  {
    var t := Trim(s);
    if |t| > 0 && (t[0] == '-' || t[0] == '+') then
      if DigitGroup(t[1..]) then
        var v: int := DigitsValue(t[1..]);
        Some(if t[0] == '-' then -v else v)
      else None
    else if DigitGroup(t) then Some(DigitsValue(t))
    else None
  }

  /** The decimal digits of `n`, most significant first: Python's `str(n)`. */
  function NatToString(n: nat): (r: string)
    ensures DigitGroup(r)
    ensures forall i :: 0 <= i < |r| ==> IsDigit(r[i])
  {
    var d := ['0' + (n % 10) as char];
    if n < 10 then d else NatToString(n / 10) + d
  }

  /** Python's `str(n)` for an integer. */
  function IntToString(n: int): string {
    if n < 0 then "-" + NatToString(-n) else NatToString(n)
  }

  lemma {:induction false} DigitsValueOfNat(n: nat)
    ensures DigitsValue(NatToString(n)) == n
    decreases n
  {
    var r := NatToString(n);
    if n >= 10 {
      DigitsValueOfNat(n / 10);
      assert r[..|r| - 1] == NatToString(n / 10);
    }
  }

  lemma IntStringTrimmed(n: int)
    ensures Trim(IntToString(n)) == IntToString(n)
  {
    var s := IntToString(n);
    var d := NatToString(if n < 0 then -n else n);
    assert IsDigit(d[0]) && IsDigit(d[|d| - 1]);
    assert s[|s| - 1] == d[|d| - 1];
    assert s[0] == '-' || s[0] == d[0];
    assert Trimmed(s, Whitespace);
    assert AllIn([], Whitespace);
    StripOf([], s, [], Whitespace);
    assert [] + s + [] == s;
  }

  /** `int("")` is a `ValueError`. */
  lemma ParseIntEmpty()
    ensures ParseInt("") == None
  {
    assert Trim("") == "" by {
      assert AllIn("", Whitespace);
      assert Trimmed("", Whitespace);
      StripOf("", "", "", Whitespace);
    }
  }

  /** `int(str(n)) == n`: parsing inverts printing. */
  lemma ParseIntToString(n: int)
    ensures ParseInt(IntToString(n)) == Some(n)
  {
    var s := IntToString(n);
    var m: nat := if n < 0 then -n else n;
    DigitsValueOfNat(m);
    IntStringTrimmed(n);
    if n < 0 {
      assert s[0] == '-' && s[1..] == NatToString(m);
    } else {
      assert s == NatToString(m);
      assert IsDigit(s[0]);
    }
  }
}
