/** String helpers the build script relies on: `Array.prototype.join` with a
    one-character separator, its inverse (splitting at that character), and
    the decimal rendering of a non-negative integer (`Number.prototype.toString`). */
module Text {

  /** No character of `s` is `c`. */
  predicate NoChar(c: char, s: string) {
    forall i :: 0 <= i < |s| ==> s[i] != c
  }

  /** `ts.join(sep)`: the elements in order with one `sep` between neighbours. */
  function JoinWith(sep: char, ts: seq<string>): string {
    if |ts| == 0 then ""
    else if |ts| == 1 then ts[0]
    else ts[0] + [sep] + JoinWith(sep, ts[1..])
  }

  /** `s.split(sep)`: the maximal runs between separators, empty runs included. */
  function SplitAt(sep: char, s: string): (r: seq<string>)
    ensures |r| > 0
    ensures forall k :: 0 <= k < |r| ==> NoChar(sep, r[k])
  {
    if |s| == 0 then [""]
    else
      var rest := SplitAt(sep, s[1..]);
      if s[0] == sep then [""] + rest
      else [[s[0]] + rest[0]] + rest[1..]
  }

  /** Summed length of the parts, the length of the joined text minus its separators. */
  function TotalLength(ts: seq<string>): nat {
    if ts == [] then 0 else |ts[0]| + TotalLength(ts[1..])
  }

  lemma {:induction false} JoinLength(sep: char, ts: seq<string>)
    requires |ts| > 0
    ensures |JoinWith(sep, ts)| == TotalLength(ts) + |ts| - 1
  {
    if |ts| > 1 {
      JoinLength(sep, ts[1..]);
    }
  }

  lemma {:induction false} SplitWithoutSep(sep: char, t: string)
    requires NoChar(sep, t)
    ensures SplitAt(sep, t) == [t]
  {
    if |t| > 0 {
      SplitWithoutSep(sep, t[1..]);
      assert [t[0]] + t[1..] == t;
    }
  }

  lemma {:induction false} SplitHead(sep: char, t: string, u: string)
    requires NoChar(sep, t)
    ensures SplitAt(sep, t + [sep] + u) == [t] + SplitAt(sep, u)
  {
    var s := t + [sep] + u;
    if |t| == 0 {
      assert s[1..] == u;
    } else {
      assert s[1..] == t[1..] + [sep] + u;
      SplitHead(sep, t[1..], u);
      assert [t[0]] + t[1..] == t;
    }
  }

  /** Splitting a joined sequence gives the parts back when no part holds the separator. */
  lemma {:induction false} SplitJoin(sep: char, ts: seq<string>)
    requires |ts| > 0
    requires forall k :: 0 <= k < |ts| ==> NoChar(sep, ts[k])
    ensures SplitAt(sep, JoinWith(sep, ts)) == ts
  {
    if |ts| == 1 {
      SplitWithoutSep(sep, ts[0]);
    } else {
      SplitJoin(sep, ts[1..]);
      SplitHead(sep, ts[0], JoinWith(sep, ts[1..]));
      assert [ts[0]] + ts[1..] == ts;
    }
  }

  lemma JoinConsChar(sep: char, c: char, ts: seq<string>)
    requires |ts| > 0
    ensures JoinWith(sep, [[c] + ts[0]] + ts[1..]) == [c] + JoinWith(sep, ts)
  {
    var us := [[c] + ts[0]] + ts[1..];
    if |ts| > 1 {
      assert us[1..] == ts[1..];
    }
  }

  /** Joining the parts of any split gives the original text back. */
  lemma {:induction false} JoinSplit(sep: char, s: string)
    ensures JoinWith(sep, SplitAt(sep, s)) == s
  {
    if |s| > 0 {
      var rest := SplitAt(sep, s[1..]);
      JoinSplit(sep, s[1..]);
      if s[0] == sep {
        assert ([""] + rest)[1..] == rest;
        assert [s[0]] + s[1..] == s;
      } else {
        JoinConsChar(sep, s[0], rest);
        assert [s[0]] + s[1..] == s;
      }
    }
  }

  predicate IsDigit(c: char) {
    '0' <= c <= '9'
  }

  function DigitValue(c: char): (d: nat)
    requires IsDigit(c)
    ensures d < 10
  {
    c as int - 48
  }

  function Digit(d: nat): (c: char)
    requires d < 10
    ensures IsDigit(c)
  {
    (48 + d) as char
  }

  /** Decimal rendering of `n`, as JavaScript prints a non-negative integral
      number below 10^21 (from there on it switches to exponent notation). */
  function DecimalString(n: nat): (r: string)
    ensures |r| > 0
    ensures forall i :: 0 <= i < |r| ==> IsDigit(r[i])
    ensures r[0] == '0' <==> n == 0
  {
    if n < 10 then [Digit(n)] else DecimalString(n / 10) + [Digit(n % 10)]
  }

  /** The number a string of decimal digits denotes. */
  function DecimalValue(s: string): nat
    requires forall i :: 0 <= i < |s| ==> IsDigit(s[i])
  {
    if |s| == 0 then 0
    else 10 * DecimalValue(s[..|s| - 1]) + DigitValue(s[|s| - 1])
  }

  /** The decimal rendering denotes the number it was made from. */
  lemma {:induction false} DecimalRoundTrip(n: nat)
    ensures DecimalValue(DecimalString(n)) == n
  {
    if n >= 10 {
      DecimalRoundTrip(n / 10);
      var r := DecimalString(n);
      assert r[..|r| - 1] == DecimalString(n / 10);
    }
  }
}
