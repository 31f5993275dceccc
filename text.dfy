/**
 * String helpers shared by the query builder and the entity mapper:
 * PHP's `implode`, the decimal rendering of integers (used for parameter
 * names and cache keys), reading a leading run of decimal digits (used by
 * the `(int)` cast), and PHP's `str_replace`.
 */
module Text {

  /** PHP `implode(sep, xs)`: the pieces in order, `sep` between neighbours. */
  function Join(sep: string, xs: seq<string>): string
    decreases |xs|
  {
    if |xs| == 0 then ""
    else if |xs| == 1 then xs[0]
    else xs[0] + sep + Join(sep, xs[1..])
  }

  /** Appending one piece extends the joined text by a separator and that piece. */
  lemma {:induction false} JoinSnoc(sep: string, xs: seq<string>, x: string)
    ensures Join(sep, xs + [x]) == if |xs| == 0 then x else Join(sep, xs) + sep + x
    decreases |xs|
  {
    if |xs| >= 2 {
      assert (xs + [x])[1..] == xs[1..] + [x];
      JoinSnoc(sep, xs[1..], x);
    } else if |xs| == 1 {
      assert (xs + [x])[1..] == [x];
    }
  }

  /** A non-empty join ends with its last piece, after the join of the others and a separator. */
  lemma JoinSnocLast(sep: string, xs: seq<string>)
    ensures |xs| > 0 ==> Join(sep, xs) == (if |xs| == 1 then "" else Join(sep, xs[..|xs| - 1]) + sep) + xs[|xs| - 1]
  {
    if |xs| > 0 {
      assert xs == xs[..|xs| - 1] + [xs[|xs| - 1]];
      JoinSnoc(sep, xs[..|xs| - 1], xs[|xs| - 1]);
    }
  }

  /** A character that occurs neither in the separator nor in any piece does not occur in the join. */
  lemma {:induction false} JoinAvoids(sep: string, xs: seq<string>, c: char)
    requires c !in sep
    requires forall i :: 0 <= i < |xs| ==> c !in xs[i]
    ensures c !in Join(sep, xs)
    decreases |xs|
  {
    if |xs| >= 2 {
      JoinAvoids(sep, xs[1..], c);
    }
  }

  predicate IsDigit(c: char) {
    '0' <= c <= '9'
  }

  /** The decimal digit character for `d`. */
  function DigitChar(d: nat): (c: char)
    requires d < 10
    ensures IsDigit(c)
  {
    (48 + d) as char
  }

  /** The value of a decimal digit character. */
  function DigitValue(c: char): (d: nat)
    requires IsDigit(c)
    ensures d < 10
  {
    c as int - 48
  }

  /** Decimal rendering of a natural number, as PHP's string conversion writes it. */
  function NatToString(n: nat): string
    decreases n
  {
    if n < 10 then [DigitChar(n)] else NatToString(n / 10) + [DigitChar(n % 10)]
  }

  predicate AllDigits(s: string) {
    forall i :: 0 <= i < |s| ==> IsDigit(s[i])
  }

  /** The value of a string of decimal digits, most significant first. */
  function DigitsValue(s: string): nat
    requires AllDigits(s)
    decreases |s|
  {
    if |s| == 0 then 0 else DigitsValue(s[..|s| - 1]) * 10 + DigitValue(s[|s| - 1])
  }

  /** Rendering a number gives a non-empty run of digits that reads back as that number. */
  lemma {:induction false} NatToStringReadsBack(n: nat)
    ensures |NatToString(n)| > 0 && AllDigits(NatToString(n))
    ensures DigitsValue(NatToString(n)) == n
    ensures (|NatToString(n)| == 1) == (n < 10)
    decreases n
  {
    if n >= 10 {
      NatToStringReadsBack(n / 10);
      var s := NatToString(n);
      assert s[..|s| - 1] == NatToString(n / 10);
    }
  }

  /** Distinct numbers have distinct decimal renderings. */
  lemma NatToStringInjective(a: nat, b: nat)
    requires NatToString(a) == NatToString(b)
    ensures a == b
  {
    NatToStringReadsBack(a);
    NatToStringReadsBack(b);
  }

  /** Decimal rendering of an integer, with a leading `-` for negatives. */
  function IntToString(i: int): string {
    if i < 0 then "-" + NatToString(-i) else NatToString(i)
  }

  /** PHP `str_replace(pat, rep, s)`: every non-overlapping occurrence of `pat`, scanning left to right, becomes `rep`. */
  function ReplaceAll(s: string, pat: string, rep: string): string
    requires |pat| > 0
    decreases |s|
  {
    if |s| < |pat| then s
    else if s[..|pat|] == pat then rep + ReplaceAll(s[|pat|..], pat, rep)
    else [s[0]] + ReplaceAll(s[1..], pat, rep)
  }

  /** A prefix free of the pattern's first character passes through `str_replace` untouched. */
  lemma {:induction false} ReplaceAllSkipsPrefix(p: string, rest: string, pat: string, rep: string)
    requires |pat| > 0 && pat[0] !in p
    ensures ReplaceAll(p + rest, pat, rep) == p + ReplaceAll(rest, pat, rep)
    decreases |p|
  {
    if |p| > 0 {
      var s := p + rest;
      assert s[0] == p[0];
      assert s[1..] == p[1..] + rest;
      ReplaceAllSkipsPrefix(p[1..], rest, pat, rep);
      if |s| < |pat| {
        ReplaceAllShort(rest, pat, rep);
      } else {
        assert s[..|pat|][0] != pat[0];
        calc {
          ReplaceAll(s, pat, rep);
          [p[0]] + ReplaceAll(p[1..] + rest, pat, rep);
          [p[0]] + (p[1..] + ReplaceAll(rest, pat, rep));
          { assert [p[0]] + p[1..] == p; }
          p + ReplaceAll(rest, pat, rep);
        }
      }
    } else {
      assert p + rest == rest;
    }
  }

  /** Replacing by a text shorter than the pattern leaves the text alone or shortens it. */
  lemma {:induction false} ReplaceAllShrinks(s: string, pat: string, rep: string)
    requires |rep| < |pat|
    ensures ReplaceAll(s, pat, rep) == s || |ReplaceAll(s, pat, rep)| < |s|
    decreases |s|
  {
    if |s| >= |pat| {
      if s[..|pat|] == pat {
        ReplaceAllShrinks(s[|pat|..], pat, rep);
      } else {
        ReplaceAllShrinks(s[1..], pat, rep);
        assert [s[0]] + s[1..] == s;
      }
    }
  }

  /** Text shorter than the pattern passes through `str_replace` untouched. */
  lemma ReplaceAllShort(s: string, pat: string, rep: string)
    requires 0 < |pat| && |s| < |pat|
    ensures ReplaceAll(s, pat, rep) == s
  {
  }
}
