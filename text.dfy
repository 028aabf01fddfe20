/**
 * String operations the application relies on: Python's substring test
 * (`needle in hay`), `str.lower`, `str.replace(pat, '')` and `str(n)` for
 * integers, together with the facts about them the rest of the model uses.
 */
module Text {

  /** `needle` occurs in `hay` starting at index `i`. */
  predicate OccursAt(needle: string, hay: string, i: nat)
  {
    i + |needle| <= |hay| && hay[i..i + |needle|] == needle
  }

  /** Python's `needle in hay` for strings (the empty string occurs everywhere). */
  predicate Contains(hay: string, needle: string)
  {
    exists i | 0 <= i <= |hay| - |needle| :: OccursAt(needle, hay, i)
  }

  /** An occurrence in a suffix of `hay` is an occurrence in `hay`. */
  lemma ContainsInSuffix(hay: string, needle: string, k: nat)
    requires k <= |hay| && Contains(hay[k..], needle)
    ensures Contains(hay, needle)
  {
    var i :| 0 <= i <= |hay[k..]| - |needle| && OccursAt(needle, hay[k..], i);
    assert hay[k + i..k + i + |needle|] == hay[k..][i..i + |needle|];
    assert OccursAt(needle, hay, k + i);
  }

  /** `str.lower` restricted to ASCII letters. */
  function LowerChar(c: char): char
  {
    if 'A' <= c <= 'Z' then (c as int - 'A' as int + 'a' as int) as char else c
  }

  predicate IsUpper(c: char)
  {
    'A' <= c <= 'Z'
  }

  function Lower(s: string): (r: string)
    ensures |r| == |s|
    ensures forall i :: 0 <= i < |s| ==> !IsUpper(r[i])
    ensures forall i :: 0 <= i < |s| && !IsUpper(s[i]) ==> r[i] == s[i]
    ensures forall i :: 0 <= i < |s| && IsUpper(s[i]) ==> r[i] as int == s[i] as int + ('a' as int - 'A' as int)
  {
    seq(|s|, i requires 0 <= i < |s| => LowerChar(s[i]))
  }

  /**
   * `s.replace(pat, '')`: scans left to right and drops every non-overlapping
   * occurrence of `pat`, the leftmost first.
   */
  function RemoveAll(s: string, pat: string): (r: string)
    requires |pat| > 0
    ensures |r| <= |s|
    decreases |s|
  {
    if |s| == 0 then ""
    else if |pat| <= |s| && s[..|pat|] == pat then RemoveAll(s[|pat|..], pat)
    else [s[0]] + RemoveAll(s[1..], pat)
  }

  /** When `pat` does not occur, removing it changes nothing. */
  lemma {:induction false} RemoveAllAbsent(s: string, pat: string)
    requires |pat| > 0 && !Contains(s, pat)
    ensures RemoveAll(s, pat) == s
    decreases |s|
  {
    if |s| > 0 {
      if |pat| <= |s| && s[..|pat|] == pat {
        assert OccursAt(pat, s, 0);
        assert false;
      }
      if Contains(s[1..], pat) {
        ContainsInSuffix(s, pat, 1);
      }
      RemoveAllAbsent(s[1..], pat);
      assert s == [s[0]] + s[1..];
    }
  }

  /**
   * The leftmost occurrence is removed and the scan resumes right after it:
   * with `RemoveAllAbsent` this determines `RemoveAll` on every input.
   */
  lemma {:induction false} RemoveAllFirst(s: string, pat: string, i: nat)
    requires |pat| > 0 && OccursAt(pat, s, i)
    requires forall j :: 0 <= j < i ==> !OccursAt(pat, s, j)
    ensures RemoveAll(s, pat) == s[..i] + RemoveAll(s[i + |pat|..], pat)
    decreases i
  {
    if i == 0 {
      assert s[..|pat|] == pat;
    } else {
      var t := s[1..];
      RemoveAllStep(s, pat);
      OccursShift(s, pat, i);
      forall j | 0 <= j < i - 1
        ensures !OccursAt(pat, t, j)
      {
        OccursShift(s, pat, j + 1);
      }
      RemoveAllFirst(t, pat, i - 1);
      assert t[i - 1 + |pat|..] == s[i + |pat|..];
      assert s[..i] == [s[0]] + t[..i - 1];
    }
  }

  /** Where `pat` does not start, `RemoveAll` keeps the first character. */
  lemma RemoveAllStep(s: string, pat: string)
    requires |pat| > 0 && |s| > 0 && !OccursAt(pat, s, 0)
    ensures RemoveAll(s, pat) == [s[0]] + RemoveAll(s[1..], pat)
  {
    if |pat| <= |s| {
      assert s[..|pat|] == s[0..0 + |pat|];
    }
  }

  /** An occurrence at `j > 0` is an occurrence at `j - 1` in the tail. */
  lemma OccursShift(s: string, pat: string, j: nat)
    requires 0 < j && |s| > 0
    ensures OccursAt(pat, s, j) <==> OccursAt(pat, s[1..], j - 1)
  {
    if j + |pat| <= |s| {
      assert s[1..][j - 1..j - 1 + |pat|] == s[j..j + |pat|];
    }
  }

  /**
   * When the first character of `pat` occurs nowhere else in it, `pat`
   * cannot start inside a pattern-free `a` and run into a following `pat`.
   */
  lemma NoOccurrenceBefore(a: string, pat: string, rest: string)
    requires |pat| > 0 && pat[0] !in pat[1..] && !Contains(a, pat)
    ensures forall j :: 0 <= j < |a| ==> !OccursAt(pat, a + pat + rest, j)
  {
    var s := a + pat + rest;
    forall j | 0 <= j < |a|
      ensures !OccursAt(pat, s, j)
    {
      if j + |pat| <= |a| {
        assert !OccursAt(pat, a, j);
        assert s[j..j + |pat|] == a[j..j + |pat|];
      } else if j + |pat| <= |s| {
        var k := |a| - j;
        assert s[j..j + |pat|][k] == s[|a|] == pat[0];
        assert pat[k] == pat[1..][k - 1];
      }
    }
  }

  /**
   * A pattern whose first character occurs nowhere else in it (such as
   * `" County"`) is removed exactly once from `a + pat` when `a` does not
   * already contain it: the result is `a`.
   */
  lemma {:induction false} RemoveAllTrailing(a: string, pat: string)
    requires |pat| > 0 && pat[0] !in pat[1..]
    requires !Contains(a, pat)
    ensures RemoveAll(a + pat, pat) == a
    decreases |a|
  {
    var s := a + pat;
    if |a| == 0 {
      assert s == pat && s[..|pat|] == pat;
      assert s[|pat|..] == "";
    } else {
      if |a| < |pat| {
        assert pat[|a|] == pat[1..][|a| - 1];
        assert s[..|pat|][|a|] == pat[0] != pat[|a|];
      }
      if |a| >= |pat| {
        assert s[..|pat|] == a[0..0 + |pat|];
        assert !OccursAt(pat, a, 0);
      }
      if Contains(a[1..], pat) {
        ContainsInSuffix(a, pat, 1);
      }
      assert s[1..] == a[1..] + pat;
      RemoveAllTrailing(a[1..], pat);
      assert a == [a[0]] + a[1..];
    }
  }

  /** Decimal digit for `0 <= d < 10`. */
  function DigitChar(d: nat): char
    requires d < 10
  {
    ('0' as int + d) as char
  }

  predicate IsDigit(c: char)
  {
    '0' <= c <= '9'
  }

  function DigitValue(c: char): nat
    requires IsDigit(c)
  {
    c as int - '0' as int
  }

  /** `str(n)` for a natural number: its decimal digits, without leading zeros. */
  function NatToString(n: nat): (r: string)
    ensures |r| > 0
    ensures forall i :: 0 <= i < |r| ==> IsDigit(r[i])
  {
    if n < 10 then [DigitChar(n)] else NatToString(n / 10) + [DigitChar(n % 10)]
  }

  /** `str(n)` for an integer, with a leading `-` when negative. */
  function IntToString(n: int): (r: string)
    ensures |r| > 0
    ensures (r[0] == '-') == (n < 0)
  {
    if n < 0 then "-" + NatToString(-n) else NatToString(n)
  }

  /** Reads back a string of decimal digits. */
  function ParseNat(s: string): nat
    requires forall i :: 0 <= i < |s| ==> IsDigit(s[i])
  {
    if |s| == 0 then 0 else ParseNat(s[..|s| - 1]) * 10 + DigitValue(s[|s| - 1])
  }

  /** Reads back an optionally signed decimal integer. */
  function ParseInt(s: string): int
    requires |s| > 0
    requires forall i :: 0 < i < |s| ==> IsDigit(s[i])
    requires s[0] == '-' || IsDigit(s[0])
  {
    if s[0] == '-' then -(ParseNat(s[1..]) as int) else ParseNat(s)
  }

  lemma {:induction false} ParseNatToString(n: nat)
    ensures ParseNat(NatToString(n)) == n
  {
    if n >= 10 {
      var r := NatToString(n);
      assert r[..|r| - 1] == NatToString(n / 10);
      ParseNatToString(n / 10);
    }
  }

  /** `str` on integers loses nothing: the text reads back as the same number. */
  lemma IntToStringRoundTrip(n: int)
    ensures var r := IntToString(n);
      (forall i :: 0 < i < |r| ==> IsDigit(r[i])) && (r[0] == '-' || IsDigit(r[0])) && ParseInt(r) == n
  {
    var r := IntToString(n);
    if n < 0 {
      assert r[1..] == NatToString(-n);
      ParseNatToString(-n);
    } else {
      ParseNatToString(n);
    }
  }
}
