/** String helpers with the semantics of the std::string members the source uses
    (find, find_first_not_of/find_last_not_of trims, getline splitting, to_string). */
module Strings {
  import opened Wrappers

  /** std::string comparison: lexicographic on (unsigned) character codes. */
  predicate StrLt(a: string, b: string)
  {
    if |a| == 0 then |b| > 0
    else if |b| == 0 then false
    else if a[0] < b[0] then true
    else if a[0] == b[0] then StrLt(a[1..], b[1..])
    else false
  }

  lemma {:induction false} StrLtIrreflexive(a: string)
    ensures !StrLt(a, a)
  {
    if |a| > 0 {
      StrLtIrreflexive(a[1..]);
    }
  }

  lemma {:induction false} StrLtTransitive(a: string, b: string, c: string)
    requires StrLt(a, b) && StrLt(b, c)
    ensures StrLt(a, c)
  {
    if |a| > 0 && |b| > 0 && |c| > 0 && a[0] == b[0] && b[0] == c[0] {
      StrLtTransitive(a[1..], b[1..], c[1..]);
    }
  }

  lemma {:induction false} StrLtTotal(a: string, b: string)
    ensures StrLt(a, b) || a == b || StrLt(b, a)
  {
    if |a| > 0 && |b| > 0 && a[0] == b[0] {
      StrLtTotal(a[1..], b[1..]);
      if a[1..] == b[1..] {
        assert a == [a[0]] + a[1..] && b == [b[0]] + b[1..];
      }
    }
  }

  /** A common prefix does not change the comparison. */
  lemma {:induction false} StrLtPrefix(p: string, a: string, b: string)
    ensures StrLt(p + a, p + b) == StrLt(a, b)
    decreases |p|
  {
    if |p| > 0 {
      assert (p + a)[1..] == p[1..] + a && (p + b)[1..] == p[1..] + b;
      StrLtPrefix(p[1..], a, b);
    } else {
      assert p + a == a && p + b == b;
    }
  }

  /** pat occurs in s at index i. */
  predicate IsAt(s: string, pat: string, i: nat)
  {
    i + |pat| <= |s| && s[i..i + |pat|] == pat
  }

  /** s.find(pat, from): the least index >= from where pat occurs (FindFromSpec). */
  function FindFrom(s: string, pat: string, from: nat): (r: Option<nat>)
    decreases |s| - from
    ensures r.Some? ==> from <= r.value && r.value + |pat| <= |s|
  {
    if from + |pat| > |s| then None
    else if s[from..from + |pat|] == pat then Some(from)
    else FindFrom(s, pat, from + 1)
  }

  /** find() returns the first occurrence at or after `from`, or none when there is
      none. */
  lemma {:induction false} FindFromSpec(s: string, pat: string, from: nat)
    ensures var r := FindFrom(s, pat, from);
      (r.Some? ==> IsAt(s, pat, r.value) && forall i :: from <= i < r.value ==> !IsAt(s, pat, i))
      && (r.None? ==> forall i :: from <= i ==> !IsAt(s, pat, i))
    decreases |s| - from
  {
    if from + |pat| <= |s| && s[from..from + |pat|] != pat {
      FindFromSpec(s, pat, from + 1);
    }
  }

  lemma IsAtShift(s: string, pat: string, pos: nat, q: nat)
    requires pos <= |s|
    ensures IsAt(s[pos..], pat, q) <==> IsAt(s, pat, q + pos)
  {
    if q + pos + |pat| <= |s| {
      assert s[pos..][q..q + |pat|] == s[q + pos..q + pos + |pat|];
    }
  }

  /** Searching a suffix finds the same occurrence, shifted. */
  lemma FindFromShift(s: string, pat: string, pos: nat)
    requires pos <= |s|
    ensures FindFrom(s[pos..], pat, 0) ==
      match FindFrom(s, pat, pos) case None => None case Some(i) => Some(i - pos)
  {
    var a := FindFrom(s[pos..], pat, 0);
    var b := FindFrom(s, pat, pos);
    FindFromSpec(s[pos..], pat, 0);
    FindFromSpec(s, pat, pos);
    if a.Some? {
      IsAtShift(s, pat, pos, a.value);
      if b.Some? && b.value < a.value + pos {
        IsAtShift(s, pat, pos, b.value - pos);
      }
    } else if b.Some? {
      IsAtShift(s, pat, pos, b.value - pos);
    }
  }

  lemma IsAtFirst(s: string, pat: string, i: nat)
    requires IsAt(s, pat, i) && |pat| > 0
    ensures s[i] == pat[0]
  {
    assert s[i..i + |pat|][0] == s[i];
  }

  /** find() at a position that is an occurrence with none between. */
  lemma FindFromIs(s: string, pat: string, from: nat, i: nat)
    requires |pat| > 0 && from <= i && IsAt(s, pat, i)
    requires forall q :: from <= q < i ==> s[q] != pat[0]
    ensures FindFrom(s, pat, from) == Some(i)
  {
    FindFromSpec(s, pat, from);
    var r := FindFrom(s, pat, from);
    if r.Some? && r.value < i {
      IsAtFirst(s, pat, r.value);
    }
  }

  /** find() when pat's first character does not occur from `from` on. */
  lemma FindFromNone(s: string, pat: string, from: nat)
    requires |pat| > 0
    requires forall q :: from <= q < |s| ==> s[q] != pat[0]
    ensures FindFrom(s, pat, from) == None
  {
    FindFromSpec(s, pat, from);
    var r := FindFrom(s, pat, from);
    if r.Some? {
      IsAtFirst(s, pat, r.value);
    }
  }

  /** s.find(pat) != npos */
  predicate Contains(s: string, pat: string)
  {
    exists i: nat | i <= |s| :: IsAt(s, pat, i)
  }

  /** s.find(c): index of the first c. */
  function FindChar(s: string, c: char): (r: Option<nat>)
    ensures r.Some? ==> r.value < |s| && s[r.value] == c && c !in s[..r.value]
    ensures r.None? <==> c !in s
  {
    if |s| == 0 then None
    else if s[0] == c then Some(0)
    else match FindChar(s[1..], c)
      case None => None
      case Some(i) => assert s[1..][..i] == s[1..i + 1]; Some(i + 1)
  }

  /** s.find_last_of(c): index of the last c. */
  function FindLastChar(s: string, c: char): (r: Option<nat>)
    ensures r.Some? ==> r.value < |s| && s[r.value] == c && c !in s[r.value + 1..]
    ensures r.None? <==> c !in s
  {
    if |s| == 0 then None
    else if s[|s| - 1] == c then Some(|s| - 1)
    else
      var r := FindLastChar(s[..|s| - 1], c);
      assert r.Some? ==> s[r.value + 1..] == s[..|s| - 1][r.value + 1..] + [s[|s| - 1]];
      assert r.None? ==> s == s[..|s| - 1] + [s[|s| - 1]];
      r
  }

  /** s.erase(0, s.find_first_not_of(set)): drop leading characters of set. */
  function TrimLeft(s: string, set_: set<char>): (r: string)
    ensures |r| <= |s| && r == s[|s| - |r|..]
    ensures r == [] || r[0] !in set_
    ensures forall i :: 0 <= i < |s| - |r| ==> s[i] in set_
  {
    if |s| == 0 || s[0] !in set_ then s else TrimLeft(s[1..], set_)
  }

  /** s.erase(s.find_last_not_of(set) + 1): drop trailing characters of set. */
  function TrimRight(s: string, set_: set<char>): (r: string)
    ensures |r| <= |s| && r == s[..|r|]
    ensures r == [] || r[|r| - 1] !in set_
    ensures forall i :: |r| <= i < |s| ==> s[i] in set_
  {
    if |s| == 0 || s[|s| - 1] !in set_ then s else TrimRight(s[..|s| - 1], set_)
  }

  /** r is s with its leading characters of lead and then its trailing characters
      of tail removed: a slice of s with only lead characters before it, only tail
      characters after it, and neither at its ends. */
  predicate Trimmed(s: string, r: string, lead: set<char>, tail: set<char>)
  {
    && (r == [] || (r[0] !in lead && r[|r| - 1] !in tail))
    && exists a: nat, b: nat | a <= b <= |s| :: TrimmedSlice(s, r, lead, tail, a, b)
  }

  /** r is s[a..b], with only lead characters before a and only tail characters
      from b on. */
  predicate TrimmedSlice(s: string, r: string, lead: set<char>, tail: set<char>, a: nat, b: nat)
  {
    && a <= b <= |s| && r == s[a..b]
    && (forall i :: 0 <= i < a ==> s[i] in lead)
    && (forall i :: b <= i < |s| ==> s[i] in tail)
  }

  /** The two erase calls in a row: leading characters of lead, then trailing
      characters of tail. */
  function Trim(s: string, lead: set<char>, tail: set<char>): (r: string)
    ensures Trimmed(s, r, lead, tail)
    ensures forall ch :: ch in r ==> ch in s
  {
    TrimBoth(s, lead, tail);
    TrimChars(s, TrimRight(TrimLeft(s, lead), tail), lead, tail);
    TrimRight(TrimLeft(s, lead), tail)
  }

  lemma TrimBoth(s: string, lead: set<char>, tail: set<char>)
    ensures Trimmed(s, TrimRight(TrimLeft(s, lead), tail), lead, tail)
  {
    TrimSteps(s, TrimLeft(s, lead), TrimRight(TrimLeft(s, lead), tail), lead, tail);
  }

  /** t is s without a leading run of lead characters, and r is t without a
      trailing run of tail characters. */
  lemma TrimSteps(s: string, t: string, r: string, lead: set<char>, tail: set<char>)
    requires |t| <= |s| && t == s[|s| - |t|..] && (t == [] || t[0] !in lead)
    requires forall i :: 0 <= i < |s| - |t| ==> s[i] in lead
    requires |r| <= |t| && r == t[..|r|] && (r == [] || r[|r| - 1] !in tail)
    requires forall i :: |r| <= i < |t| ==> t[i] in tail
    ensures Trimmed(s, r, lead, tail)
  {
    var a := |s| - |t|;
    var b := a + |r|;
    assert r == s[a..b];
    assert r != [] ==> r[0] == t[0];
    forall i | b <= i < |s| ensures s[i] in tail {
      assert s[i] == t[i - a];
    }
    assert TrimmedSlice(s, r, lead, tail, a, b);
  }

  /** A trimmed text keeps only characters of the original. */
  lemma TrimChars(s: string, r: string, lead: set<char>, tail: set<char>)
    requires Trimmed(s, r, lead, tail)
    ensures forall ch :: ch in r ==> ch in s
  {
    var a: nat, b: nat :| TrimmedSlice(s, r, lead, tail, a, b);
    assert TrimmedSlice(s, r, lead, tail, a, b);
    assert b <= |s| && r == s[a..b];
    forall ch | ch in r ensures ch in s {
      var i :| 0 <= i < |r| && r[i] == ch;
      assert s[a + i] == ch;
    }
  }

  /** A non-empty trimmed slice lies inside every other slice with the same
      surroundings. */
  lemma TrimmedInside(s: string, r1: string, r2: string, lead: set<char>, tail: set<char>,
                      a1: nat, b1: nat, a2: nat, b2: nat)
    requires TrimmedSlice(s, r1, lead, tail, a1, b1) && TrimmedSlice(s, r2, lead, tail, a2, b2)
    requires r1 != [] && r1[0] !in lead && r1[|r1| - 1] !in tail
    ensures a2 <= a1 && b1 <= b2
  {
    assert s[a1] == r1[0] && s[b1 - 1] == r1[|r1| - 1];
  }

  /** Trimmed determines the result: there is only one way to trim a text. */
  lemma TrimmedUnique(s: string, r1: string, r2: string, lead: set<char>, tail: set<char>)
    requires Trimmed(s, r1, lead, tail) && Trimmed(s, r2, lead, tail)
    ensures r1 == r2
  {
    var a1: nat, b1: nat :| TrimmedSlice(s, r1, lead, tail, a1, b1);
    var a2: nat, b2: nat :| TrimmedSlice(s, r2, lead, tail, a2, b2);
    if r1 != [] {
      TrimmedInside(s, r1, r2, lead, tail, a1, b1, a2, b2);
    }
    if r2 != [] {
      TrimmedInside(s, r2, r1, lead, tail, a2, b2, a1, b1);
    }
  }

  /** The pieces std::getline(stream, piece, sep) yields, one call after another:
      split at every sep; a trailing sep does not produce a final empty piece. */
  function SplitGetline(s: string, sep: char): (r: seq<string>)
    decreases |s|
  {
    if |s| == 0 then []
    else match FindChar(s, sep)
      case None => [s]
      case Some(i) => [s[..i]] + SplitGetline(s[i + 1..], sep)
  }

  /** Pieces joined with sep between them. */
  function Join(pieces: seq<string>, sep: char): string
  {
    if |pieces| == 0 then ""
    else if |pieces| == 1 then pieces[0]
    else pieces[0] + [sep] + Join(pieces[1..], sep)
  }

  lemma SplitNonEmpty(s: string, sep: char)
    requires |s| > 0
    ensures |SplitGetline(s, sep)| > 0
  {
  }

  lemma JoinCons(p: string, tail: seq<string>, sep: char)
    requires |tail| > 0
    ensures Join([p] + tail, sep) == p + [sep] + Join(tail, sep)
  {
    assert ([p] + tail)[1..] == tail;
  }

  /** Text with one trailing sep removed, if there is one. */
  function DropTrailing(s: string, sep: char): string
  {
    if |s| > 0 && s[|s| - 1] == sep then s[..|s| - 1] else s
  }

  lemma SplitStep(s: string, sep: char, i: nat)
    requires FindChar(s, sep) == Some(i)
    ensures SplitGetline(s, sep) == [s[..i]] + SplitGetline(s[i + 1..], sep)
  {
  }

  lemma JoinSplitLast(s: string, sep: char)
    requires |s| > 0 && FindChar(s, sep) == Some(|s| - 1)
    ensures Join(SplitGetline(s, sep), sep) == DropTrailing(s, sep)
  {
    SplitStep(s, sep, |s| - 1);
    assert SplitGetline(s[|s|..], sep) == [];
  }

  lemma JoinSplitNone(s: string, sep: char)
    requires |s| > 0 && FindChar(s, sep) == None
    ensures Join(SplitGetline(s, sep), sep) == DropTrailing(s, sep)
  {
    assert s[|s| - 1] in s;
  }

  lemma DropTrailingConcat(a: string, rest: string, sep: char)
    requires |rest| > 0
    ensures DropTrailing(a + [sep] + rest, sep) == a + [sep] + DropTrailing(rest, sep)
  {
    var s := a + [sep] + rest;
    assert s[|s| - 1] == rest[|rest| - 1];
    if rest[|rest| - 1] == sep {
      assert s[..|s| - 1] == a + [sep] + rest[..|rest| - 1];
    }
  }

  lemma Around(s: string, i: nat)
    requires i < |s|
    ensures s == s[..i] + [s[i]] + s[i + 1..]
  {
  }

  lemma JoinSplitMiddle(s: string, sep: char, i: nat)
    requires FindChar(s, sep) == Some(i) && i + 1 < |s|
    requires Join(SplitGetline(s[i + 1..], sep), sep) == DropTrailing(s[i + 1..], sep)
    ensures Join(SplitGetline(s, sep), sep) == DropTrailing(s, sep)
  {
    var a := s[..i];
    var rest := s[i + 1..];
    var t := SplitGetline(rest, sep);
    Around(s, i);
    calc {
      Join(SplitGetline(s, sep), sep);
      { SplitStep(s, sep, i); }
      Join([a] + t, sep);
      { SplitNonEmpty(rest, sep); JoinCons(a, t, sep); }
      a + [sep] + Join(t, sep);
      a + [sep] + DropTrailing(rest, sep);
      { DropTrailingConcat(a, rest, sep); }
      DropTrailing(s, sep);
    }
  }

  /** Joining the getline pieces restores the text, less a final sep. */
  lemma {:induction false} JoinSplit(s: string, sep: char)
    ensures Join(SplitGetline(s, sep), sep) == DropTrailing(s, sep)
    decreases |s|
  {
    if |s| > 0 {
      match FindChar(s, sep)
      case None => JoinSplitNone(s, sep);
      case Some(i) =>
        if i + 1 == |s| {
          JoinSplitLast(s, sep);
        } else {
          JoinSplit(s[i + 1..], sep);
          JoinSplitMiddle(s, sep, i);
        }
    }
  }

  // ---------------------------------------------------------------------------
  // Decimal numbers (std::to_string and its inverse)

  predicate IsDigit(c: char)
  {
    '0' <= c <= '9'
  }

  predicate AllDigits(s: string)
  {
    forall i :: 0 <= i < |s| ==> IsDigit(s[i])
  }

  function DigitChar(d: nat): (c: char)
    requires d < 10
    ensures IsDigit(c)
  {
    (48 + d) as char
  }

  function DigitValue(c: char): nat
    requires IsDigit(c)
  {
    c as int - 48
  }

  /** std::to_string on a non-negative value: decimal, no leading zeros. */
  function NatToString(n: nat): (s: string)
    ensures |s| > 0 && AllDigits(s)
  {
    if n < 10 then [DigitChar(n)] else NatToString(n / 10) + [DigitChar(n % 10)]
  }

  /** std::to_string(int). */
  function IntToString(i: int): string
  {
    if i < 0 then "-" + NatToString(-i) else NatToString(i)
  }

  /** Value of a string of decimal digits. */
  function ParseNat(s: string): nat
    requires AllDigits(s)
  {
    if |s| == 0 then 0 else ParseNat(s[..|s| - 1]) * 10 + DigitValue(s[|s| - 1])
  }

  lemma {:induction false} NatToStringRoundTrip(n: nat)
    ensures ParseNat(NatToString(n)) == n
  {
    if n >= 10 {
      NatToStringRoundTrip(n / 10);
      var s := NatToString(n);
      assert s[..|s| - 1] == NatToString(n / 10);
    }
  }

  lemma IntToStringRoundTrip(i: int)
    ensures i >= 0 ==> AllDigits(IntToString(i)) && ParseNat(IntToString(i)) == i
    ensures i < 0 ==> IntToString(i)[0] == '-' && AllDigits(IntToString(i)[1..])
                      && ParseNat(IntToString(i)[1..]) == -i
  {
    if i >= 0 {
      NatToStringRoundTrip(i);
    } else {
      NatToStringRoundTrip(-i);
      assert IntToString(i)[1..] == NatToString(-i);
    }
  }
}
