/**
 * The string operations the source relies on, stated on Dafny strings (`seq<char>`):
 * JavaScript's relational `<` on strings, `includes`, `replace(/[:.]/g, "-")`,
 * `split(c)[0]` and the decimal rendering of a non-negative integer in a template literal.
 */
module Text {

  /**
   * JavaScript's `a < b` on strings: characters are compared one by one from the left, the
   * first difference decides, and a proper prefix sorts before the longer string. (Dafny's own
   * `<` on sequences means "proper prefix", which is why this is spelled out.)
   */
  predicate Less(a: string, b: string)
    decreases |a|
  {
    if b == [] then false
    else if a == [] then true
    else if a[0] != b[0] then a[0] < b[0]
    else Less(a[1..], b[1..])
  }

  lemma {:induction false} LessIrreflexive(a: string)
    ensures !Less(a, a)
    decreases |a|
  {
    if a != [] {
      LessIrreflexive(a[1..]);
    }
  }

  lemma {:induction false} LessTransitive(a: string, b: string, c: string)
    requires Less(a, b) && Less(b, c)
    ensures Less(a, c)
    decreases |a|
  {
    if a != [] && a[0] == b[0] && b[0] == c[0] {
      LessTransitive(a[1..], b[1..], c[1..]);
    }
  }

  /** Any two different strings are ordered one way or the other. */
  lemma {:induction false} LessTotal(a: string, b: string)
    requires a != b
    ensures Less(a, b) || Less(b, a)
    decreases |a|
  {
    if a != [] && b != [] && a[0] == b[0] {
      assert a == [a[0]] + a[1..] && b == [b[0]] + b[1..];
      LessTotal(a[1..], b[1..]);
    }
  }

  lemma {:induction false} LessAsymmetric(a: string, b: string)
    requires Less(a, b)
    ensures !Less(b, a)
  {
    if Less(b, a) {
      LessTransitive(a, b, a);
      LessIrreflexive(a);
    }
  }

  /** A proper prefix sorts before every longer string that starts with it. */
  lemma {:induction false} ProperPrefixIsLess(a: string, b: string)
    requires a < b
    ensures Less(a, b)
    decreases |a|
  {
    if a != [] {
      ProperPrefixIsLess(a[1..], b[1..]);
    }
  }

  /**
   * Comparing a string of length k with a longer one is decided by the longer one's first
   * k characters: the short one is below it exactly when it is at most that prefix, and above
   * it exactly when it is above that prefix.
   */
  lemma {:induction false} CompareWithLonger(a: string, b: string)
    requires |a| < |b|
    ensures Less(a, b) <==> Less(a, b[..|a|]) || a == b[..|a|]
    ensures Less(b, a) <==> Less(b[..|a|], a)
    decreases |a|
  {
    if a == [] {
      assert b[..0] == [];
    } else {
      assert b[..|a|][1..] == b[1..][..|a| - 1];
      CompareWithLonger(a[1..], b[1..]);
      if a[0] == b[0] {
        assert a == b[..|a|] <==> a[1..] == b[1..][..|a| - 1];
      }
    }
  }

  /** `s.includes(pat)`: `pat` occurs somewhere in `s` as a block of consecutive characters. */
  predicate Contains(s: string, pat: string)
    decreases |s|
  {
    if |pat| > |s| then false
    else if pat <= s then true
    else Contains(s[1..], pat)
  }

  /** `pat` occurs in `s` starting at index `i`. */
  predicate OccursAt(s: string, pat: string, i: int) {
    0 <= i && i + |pat| <= |s| && s[i..i + |pat|] == pat
  }

  lemma {:induction false} ContainsIff(s: string, pat: string)
    ensures Contains(s, pat) <==> exists i :: OccursAt(s, pat, i)
    decreases |s|
  {
    if |pat| > |s| {
    } else if pat <= s {
      assert OccursAt(s, pat, 0);
    } else {
      ContainsIff(s[1..], pat);
      if Contains(s, pat) {
        var j :| OccursAt(s[1..], pat, j);
        assert s[j + 1..j + 1 + |pat|] == s[1..][j..j + |pat|];
        assert OccursAt(s, pat, j + 1);
      }
      if exists i :: OccursAt(s, pat, i) {
        var i :| OccursAt(s, pat, i);
        assert s[1..][i - 1..i - 1 + |pat|] == s[i..i + |pat|];
        assert OccursAt(s[1..], pat, i - 1);
      }
    }
  }

  /** `pats.some(p => s.includes(p))`, the source's chains of `||`-ed `includes` tests. */
  predicate ContainsAny(s: string, pats: seq<string>)
    decreases |pats|
  {
    |pats| > 0 && (Contains(s, pats[0]) || ContainsAny(s, pats[1..]))
  }

  lemma {:induction false} ContainsAnyIff(s: string, pats: seq<string>)
    ensures ContainsAny(s, pats) <==> exists i :: 0 <= i < |pats| && Contains(s, pats[i])
    decreases |pats|
  {
    if pats != [] {
      ContainsAnyIff(s, pats[1..]);
      if exists i :: 0 <= i < |pats| && Contains(s, pats[i]) {
        var i :| 0 <= i < |pats| && Contains(s, pats[i]);
        if i > 0 { assert pats[1..][i - 1] == pats[i]; }
      }
    }
  }

  /** A string that is itself one of the patterns is matched by them. */
  lemma ListedIsContained(s: string, pats: seq<string>)
    requires s in pats
    ensures ContainsAny(s, pats)
  {
    var i :| 0 <= i < |pats| && pats[i] == s;
    assert Contains(s, pats[i]);
    ContainsAnyIff(s, pats);
  }

  /** `s.replace(/[:.]/g, "-")`: every colon and every full stop becomes a hyphen. */
  function ReplaceColonsAndDots(s: string): (r: string)
    ensures |r| == |s|
    ensures ':' !in r && '.' !in r
    ensures forall i :: 0 <= i < |s| && s[i] != ':' && s[i] != '.' ==> r[i] == s[i]
  {
    seq(|s|, i requires 0 <= i < |s| => if s[i] == ':' || s[i] == '.' then '-' else s[i])
  }

  /** Replacing a second time changes nothing. */
  lemma ReplaceColonsAndDotsIdempotent(s: string)
    ensures ReplaceColonsAndDots(ReplaceColonsAndDots(s)) == ReplaceColonsAndDots(s)
  {
  }

  /** `s.split(c)[0]`: everything before the first occurrence of `c`, or all of `s`. */
  function BeforeFirst(s: string, c: char): (r: string)
    ensures r <= s
    ensures c !in r
    ensures |r| < |s| ==> s[|r|] == c
    decreases |s|
  {
    if s == [] || s[0] == c then [] else [s[0]] + BeforeFirst(s[1..], c)
  }

  predicate IsDigit(c: char) {
    '0' <= c <= '9'
  }

  function DigitChar(d: nat): (c: char)
    requires d < 10
    ensures IsDigit(c)
  {
    ['0', '1', '2', '3', '4', '5', '6', '7', '8', '9'][d]
  }

  function DigitValue(c: char): nat
    requires IsDigit(c)
  {
    (c as int - '0' as int) as nat
  }

  /** The value of a string of decimal digits, read from the left. */
  function Decimal(s: string): nat
    requires forall i :: 0 <= i < |s| ==> IsDigit(s[i])
    decreases |s|
  {
    if s == [] then 0 else Decimal(s[..|s| - 1]) * 10 + DigitValue(s[|s| - 1])
  }

  /** `${n}` for a non-negative integer: its decimal digits, without leading zeros. */
  function NatToString(n: nat): (r: string)
    ensures |r| > 0
    ensures forall i :: 0 <= i < |r| ==> IsDigit(r[i])
    ensures |r| > 1 ==> r[0] != '0'
    decreases n
  {
    if n < 10 then [DigitChar(n)] else NatToString(n / 10) + [DigitChar(n % 10)]
  }

  lemma DigitRoundTrip(d: nat)
    requires d < 10
    ensures DigitValue(DigitChar(d)) == d
  {
  }

  /** Reading back the rendered digits gives the number. */
  lemma {:induction false} NatToStringRoundTrip(n: nat)
    ensures Decimal(NatToString(n)) == n
    decreases n
  {
    DigitRoundTrip(n % 10);
    if n >= 10 {
      NatToStringRoundTrip(n / 10);
      var r := NatToString(n);
      assert r[..|r| - 1] == NatToString(n / 10);
    }
  }

  /** An ISO 8601 calendar date in the extended format `YYYY-MM-DD`. */
  predicate IsIsoDate(s: string) {
    |s| == 10 && s[4] == '-' && s[7] == '-'
    && forall i :: 0 <= i < 10 && i != 4 && i != 7 ==> IsDigit(s[i])
  }

  /** An ISO 8601 calendar month (reduced accuracy) in the extended format `YYYY-MM`. */
  predicate IsIsoMonth(s: string) {
    |s| == 7 && s[4] == '-' && forall i :: 0 <= i < 7 && i != 4 ==> IsDigit(s[i])
  }

  /** The month a calendar date falls in. */
  function MonthOf(date: string): (m: string)
    requires IsIsoDate(date)
    ensures IsIsoMonth(m) && m < date
  {
    date[..7]
  }
}
