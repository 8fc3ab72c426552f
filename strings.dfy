/** The Python string operations the services rely on: `str.strip`,
    `str.lower`, the `in` substring test, `str.find`/`str.rfind` of one
    character, `str.replace`, `str.split` on one character, `str.join` and
    the decimal rendering of a natural number. */
module Strings {
  import opened Wrappers

  /** `c.isspace()`: the characters Python's `str.strip()` removes. */
  predicate IsSpace(c: char)
  {
    ('\U{0009}' <= c <= '\U{000D}') || ('\U{001C}' <= c <= '\U{0020}') ||
    c == '\U{0085}' || c == '\U{00A0}' || c == '\U{1680}' ||
    ('\U{2000}' <= c <= '\U{200A}') || c == '\U{2028}' || c == '\U{2029}' ||
    c == '\U{202F}' || c == '\U{205F}' || c == '\U{3000}'
  }

  predicate AllSpace(s: string)
  {
    forall i :: 0 <= i < |s| ==> IsSpace(s[i])
  }

  /** Neither end of `s` is whitespace. */
  predicate IsStripped(s: string)
  {
    s == [] || (!IsSpace(s[0]) && !IsSpace(s[|s| - 1]))
  }

  function LStrip(s: string): (r: string)
    ensures |r| <= |s| && r == s[|s| - |r|..]
    ensures forall i :: 0 <= i < |s| - |r| ==> IsSpace(s[i])
    ensures r == [] || !IsSpace(r[0])
  {
    if s != [] && IsSpace(s[0]) then LStrip(s[1..]) else s
  }

  function RStrip(s: string): (r: string)
    ensures |r| <= |s| && r == s[..|r|]
    ensures forall i :: |r| <= i < |s| ==> IsSpace(s[i])
    ensures r == [] || !IsSpace(r[|r| - 1])
  {
    if s != [] && IsSpace(s[|s| - 1]) then
      var r := RStrip(s[..|s| - 1]);
      assert forall i :: |r| <= i < |s| - 1 ==> s[..|s| - 1][i] == s[i];
      r
    else s
  }

  /** `s.strip()`: empty exactly when `s` is all whitespace; otherwise a
      slice of `s` with no whitespace at either end. */
  function Strip(s: string): (r: string)
    ensures r == [] <==> AllSpace(s)
    ensures IsStripped(r)
  {
    var t := RStrip(s);
    var r := LStrip(t);
    assert r == [] ==> t == [];
    r
  }

  /** The stripped text is a slice of the original. */
  lemma StripIsSlice(s: string)
    ensures |Strip(s)| <= |s| && exists i :: OccursAt(s, Strip(s), i)
  {
    var t := RStrip(s);
    var r := LStrip(t);
    assert r == s[|t| - |r|..|t|];
    assert OccursAt(s, r, |t| - |r|);
  }

  /** Stripping adds no character. */
  lemma StripKeepsAbsent(s: string, c: char)
    requires c !in s
    ensures c !in Strip(s)
  {
    var t := RStrip(s);
    var r := LStrip(t);
    assert r == s[|t| - |r|..|t|];
    forall j | 0 <= j < |r| ensures r[j] != c {
      assert r[j] == s[|t| - |r| + j];
    }
  }

  function LowerChar(c: char): char
  {
    if 'A' <= c <= 'Z' then (c as int - 'A' as int + 'a' as int) as char else c
  }

  /** `s.lower()`, on the ASCII letters. */
  function Lower(s: string): (r: string)
    ensures |r| == |s|
    ensures forall i :: 0 <= i < |s| ==> r[i] == LowerChar(s[i])
  {
    if s == [] then [] else [LowerChar(s[0])] + Lower(s[1..])
  }

  /** Equal once both sides are lower-cased, compared character by character. */
  predicate SameIgnoringCase(a: string, b: string)
  {
    |a| == |b| && forall i :: 0 <= i < |a| ==> LowerChar(a[i]) == LowerChar(b[i])
  }

  /** Lower-casing `a` gives `b`, a string with no upper-case letter, iff
      the two are the same ignoring case. */
  lemma LowerIsSameIgnoringCase(a: string, b: string)
    requires forall i :: 0 <= i < |b| ==> LowerChar(b[i]) == b[i]
    ensures Lower(a) == b <==> SameIgnoringCase(a, b)
  {
    if SameIgnoringCase(a, b) {
      assert forall i :: 0 <= i < |a| ==> Lower(a)[i] == b[i];
    }
  }

  predicate StartsWith(s: string, prefix: string)
  {
    |prefix| <= |s| && s[..|prefix|] == prefix
  }

  /** `sub` occurs in `s` starting at position `i`. */
  predicate OccursAt(s: string, sub: string, i: int)
  {
    0 <= i <= |s| - |sub| && s[i..i + |sub|] == sub
  }

  /** `sub in s`, scanning from the left. */
  predicate Contains(s: string, sub: string)
  {
    StartsWith(s, sub) || (s != [] && Contains(s[1..], sub))
  }

  /** The scan agrees with "occurs at some position". */
  lemma {:induction false} ContainsAt(s: string, sub: string)
    ensures Contains(s, sub) <==> exists i :: OccursAt(s, sub, i)
  {
    if StartsWith(s, sub) {
      assert OccursAt(s, sub, 0);
    }
    if s != [] {
      ContainsAt(s[1..], sub);
      if Contains(s[1..], sub) {
        var i :| OccursAt(s[1..], sub, i);
        assert s[1..][i..i + |sub|] == s[i + 1..i + 1 + |sub|];
        assert OccursAt(s, sub, i + 1);
      }
      if i :| OccursAt(s, sub, i) {
        if i > 0 {
          assert s[1..][i - 1..i - 1 + |sub|] == s[i..i + |sub|];
          assert OccursAt(s[1..], sub, i - 1);
        }
      }
    } else {
      if i :| OccursAt(s, sub, i) { assert StartsWith(s, sub); }
    }
  }

  /** Putting text in front keeps every occurrence. */
  lemma {:induction false} ContainsAfterPrefix(prefix: string, s: string, sub: string)
    requires Contains(s, sub)
    ensures Contains(prefix + s, sub)
  {
    if prefix != [] {
      assert (prefix + s)[1..] == prefix[1..] + s;
      ContainsAfterPrefix(prefix[1..], s, sub);
    } else {
      assert prefix + s == s;
    }
  }

  /** `s.endswith(suffix)`. */
  predicate EndsWith(s: string, suffix: string)
  {
    |suffix| <= |s| && s[|s| - |suffix|..] == suffix
  }

  lemma EndsWithTrans(a: string, b: string, c: string)
    requires EndsWith(a, b) && EndsWith(b, c)
    ensures EndsWith(a, c)
  {
    assert a[|a| - |c|..] == a[|a| - |b|..][|b| - |c|..];
  }

  /** `s.find(c)` as an option: the first position holding `c`. */
  function FirstIndexOf(s: string, c: char): (r: Option<nat>)
    ensures r.None? <==> c !in s
    ensures r.Some? ==> r.value < |s| && s[r.value] == c && c !in s[..r.value]
  {
    if s == [] then None
    else if s[0] == c then Some(0)
    else match FirstIndexOf(s[1..], c)
      case None => None
      case Some(i) => assert s[..i + 1] == [s[0]] + s[1..][..i]; Some(i + 1)
  }

  /** `s.rfind(c)` as an option: the last position holding `c`. */
  function LastIndexOf(s: string, c: char): (r: Option<nat>)
    ensures r.None? <==> c !in s
    ensures r.Some? ==> r.value < |s| && s[r.value] == c && c !in s[r.value + 1..]
  {
    if s == [] then None
    else if s[|s| - 1] == c then Some(|s| - 1)
    else
      var init := s[..|s| - 1];
      assert s == init + [s[|s| - 1]];
      match LastIndexOf(init, c)
      case None => None
      case Some(i) => assert s[i + 1..] == init[i + 1..] + [s[|s| - 1]]; Some(i)
  }

  /** `s.replace(pattern, replacement)`: every non-overlapping occurrence of
      `pattern`, scanning from the left, is replaced. */
  function ReplaceAll(s: string, pattern: string, replacement: string): string
    requires pattern != []
    decreases |s|
  {
    if |s| < |pattern| then s
    else if s[..|pattern|] == pattern then replacement + ReplaceAll(s[|pattern|..], pattern, replacement)
    else [s[0]] + ReplaceAll(s[1..], pattern, replacement)
  }

  /** Replacing a pattern that does not occur changes nothing. */
  lemma {:induction false} ReplaceAbsent(s: string, pattern: string, replacement: string)
    requires pattern != [] && !Contains(s, pattern)
    ensures ReplaceAll(s, pattern, replacement) == s
  {
    if |s| >= |pattern| {
      ReplaceAbsent(s[1..], pattern, replacement);
    }
  }

  /** Replacing a pattern in the pattern itself gives the replacement. */
  lemma ReplaceWhole(pattern: string, replacement: string)
    requires pattern != []
    ensures ReplaceAll(pattern, pattern, replacement) == replacement
  {
    assert pattern[|pattern|..] == [];
  }

  function Count(s: string, c: char): nat
  {
    if s == [] then 0 else (if s[0] == c then 1 else 0) + Count(s[1..], c)
  }

  /** `s.split(c)`: the pieces between occurrences of `c`. */
  function Split(s: string, c: char): seq<string>
  {
    match FirstIndexOf(s, c)
    case None => [s]
    case Some(i) => [s[..i]] + Split(s[i + 1..], c)
  }

  lemma {:induction false} CountAppend(a: string, b: string, c: char)
    ensures Count(a + b, c) == Count(a, c) + Count(b, c)
  {
    if a != [] {
      assert (a + b)[0] == a[0] && (a + b)[1..] == a[1..] + b;
      CountAppend(a[1..], b, c);
    } else {
      assert a + b == b;
    }
  }

  lemma {:induction false} CountAbsent(s: string, c: char)
    requires c !in s
    ensures Count(s, c) == 0
  {
    if s != [] { CountAbsent(s[1..], c); }
  }

  /** `len(s.split(c))` is one more than the number of `c` in `s`. */
  lemma {:induction false} SplitPieces(s: string, c: char)
    ensures |Split(s, c)| == Count(s, c) + 1
    decreases |s|
  {
    match FirstIndexOf(s, c)
    case None => CountAbsent(s, c);
    case Some(i) =>
      SplitPieces(s[i + 1..], c);
      assert s == s[..i] + [c] + s[i + 1..];
      CountAppend(s[..i] + [c], s[i + 1..], c);
      CountAppend(s[..i], [c], c);
      CountAbsent(s[..i], c);
  }

  /** `sep.join(parts)`. */
  function Join(sep: string, parts: seq<string>): string
  {
    if parts == [] then ""
    else if |parts| == 1 then parts[0]
    else parts[0] + sep + Join(sep, parts[1..])
  }

  /** The joined text is empty only if every part is (an empty list joins to
      "" as well). */
  lemma {:induction false} JoinEmpty(sep: string, parts: seq<string>)
    requires sep != []
    ensures Join(sep, parts) == "" <==> (|parts| <= 1 && forall i :: 0 <= i < |parts| ==> parts[i] == "")
  {
    if |parts| > 1 {
      assert |Join(sep, parts)| >= |sep|;
    }
  }

  function Digit(d: nat): char
    requires d < 10
  {
    "0123456789"[d]
  }

  /** `str(n)` for a natural number. */
  function NatToString(n: nat): (r: string)
    ensures r != []
    ensures forall i :: 0 <= i < |r| ==> '0' <= r[i] <= '9'
    decreases n
  {
    if n < 10 then [Digit(n)] else NatToString(n / 10) + [Digit(n % 10)]
  }

  /** `str(i)` for an integer. */
  function IntToString(i: int): string
  {
    if i < 0 then "-" + NatToString(-i) else NatToString(i)
  }
}
