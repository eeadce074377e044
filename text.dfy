/**
 * The Python string operations the plug-in relies on, written out on
 * `seq<char>`: `str.find`, `in`, `str.split`, `str.join`, `str.replace`,
 * ASCII `str.lower`, `int(...)`, `str(int)` and the first match of the
 * regular expression `\d+`.
 */
module Text {
  import opened Wrappers

  /** `p` occurs in `s` at index `i`. */
  predicate Occurs(s: string, p: string, i: int) {
    0 <= i && i + |p| <= |s| && s[i..i + |p|] == p
  }

  predicate StartsWith(s: string, p: string) {
    |p| <= |s| && s[..|p|] == p
  }

  lemma OccursInTail(s: string, p: string, j: int)
    requires |s| > 0 && 0 <= j
    ensures Occurs(s, p, j + 1) <==> Occurs(s[1..], p, j)
  {
    if j + 1 + |p| <= |s| {
      assert s[1..][j..j + |p|] == s[j + 1..j + 1 + |p|];
    }
  }

  /** `str.find`: the index of the leftmost occurrence of `p` in `s`, or -1. */
  function Find(s: string, p: string): (r: int)
    ensures -1 <= r <= |s|
    ensures r >= 0 ==> Occurs(s, p, r)
    ensures r >= 0 ==> forall j :: 0 <= j < r ==> !Occurs(s, p, j)
    ensures r < 0 ==> forall j :: !Occurs(s, p, j)
    decreases |s|
  {
    if StartsWith(s, p) then 0
    else if |s| == 0 then -1
    else
      var k := Find(s[1..], p);
      assert forall j :: 1 <= j ==> (Occurs(s, p, j) <==> Occurs(s[1..], p, j - 1)) by {
        forall j | 1 <= j ensures Occurs(s, p, j) <==> Occurs(s[1..], p, j - 1) {
          OccursInTail(s, p, j - 1);
        }
      }
      assert !Occurs(s, p, 0);
      if k < 0 then -1 else k + 1
  }

  /** Python's `p in s`. */
  predicate Contains(s: string, p: string) {
    Find(s, p) >= 0
  }

  /** A string without the first character of `p` does not contain `p`. */
  lemma AbsentWithoutHead(s: string, p: string)
    requires |p| > 0 && forall k :: 0 <= k < |s| ==> s[k] != p[0]
    ensures !Contains(s, p)
  {
    forall j ensures !Occurs(s, p, j) {
      if 0 <= j && j + |p| <= |s| {
        assert s[j..j + |p|][0] == s[j];
      }
    }
  }

  /** `str.split(p)` for a non-empty separator `p`, scanning left to right. */
  function Split(s: string, p: string): (r: seq<string>)
    requires |p| > 0
    ensures |r| >= 1
    decreases |s|
  {
    if |s| < |p| then [s]
    else if s[..|p|] == p then [""] + Split(s[|p|..], p)
    else
      var rest := Split(s[1..], p);
      [[s[0]] + rest[0]] + rest[1..]
  }

  /** `sep.join(parts)`. */
  function Join(parts: seq<string>, sep: string): string
    decreases |parts|
  {
    if |parts| == 0 then ""
    else if |parts| == 1 then parts[0]
    else parts[0] + sep + Join(parts[1..], sep)
  }

  /** `s.replace(p, r)`: every non-overlapping occurrence of `p`, leftmost first, becomes `r`. */
  function ReplaceAll(s: string, p: string, r: string): string
    requires |p| > 0
    decreases |s|
  {
    if |s| < |p| then s
    else if s[..|p|] == p then r + ReplaceAll(s[|p|..], p, r)
    else [s[0]] + ReplaceAll(s[1..], p, r)
  }

  lemma JoinConsChar(c: char, parts: seq<string>, sep: string)
    requires |parts| >= 1
    ensures Join([[c] + parts[0]] + parts[1..], sep) == [c] + Join(parts, sep)
  {
    var q := [[c] + parts[0]] + parts[1..];
    if |parts| > 1 {
      assert q[1..] == parts[1..];
    }
  }

  /** Joining the pieces of a split with the separator gives back the string. */
  lemma {:induction false} SplitJoin(s: string, p: string)
    requires |p| > 0
    ensures Join(Split(s, p), p) == s
    decreases |s|
  {
    if |s| < |p| {
    } else if s[..|p|] == p {
      var rest := Split(s[|p|..], p);
      SplitJoin(s[|p|..], p);
      assert ([""] + rest)[1..] == rest;
      assert s == s[..|p|] + s[|p|..];
    } else {
      var rest := Split(s[1..], p);
      SplitJoin(s[1..], p);
      JoinConsChar(s[0], rest, p);
      assert s == [s[0]] + s[1..];
    }
  }

  /**
   * No piece of `s.split(p)` contains `p`; the first piece is the text of
   * `s` before the leftmost occurrence (`str.find`), and without an
   * occurrence `s` is the only piece.
   */
  lemma {:induction false} SplitPieces(s: string, p: string)
    requires |p| > 0
    ensures StartsWith(s, Split(s, p)[0])
    ensures forall i :: 0 <= i < |Split(s, p)| ==> !Contains(Split(s, p)[i], p)
    ensures Contains(s, p) ==> |Split(s, p)[0]| == Find(s, p)
    ensures !Contains(s, p) ==> Split(s, p) == [s]
    decreases |s|
  {
    var r := Split(s, p);
    if |s| < |p| {
      assert forall j :: !Occurs(s, p, j);
    } else if s[..|p|] == p {
      assert StartsWith(s, p);
      SplitPieces(s[|p|..], p);
      var rest := Split(s[|p|..], p);
      assert forall j :: !Occurs("", p, j);
      forall i | 0 <= i < |r| ensures !Contains(r[i], p) {
        if i > 0 {
          assert r[i] == rest[i - 1];
        }
      }
    } else {
      SplitPieces(s[1..], p);
      var rest := Split(s[1..], p);
      var x := [s[0]] + rest[0];
      assert r == [x] + rest[1..];
      assert x[1..] == rest[0];
      assert s[1..][..|rest[0]|] == rest[0];
      assert x == s[..|x|];
      forall j ensures !Occurs(x, p, j) {
        if j == 0 && |p| <= |x| {
          assert x[..|p|] == s[..|p|];
        } else if j > 0 {
          OccursInTail(x, p, j - 1);
        }
      }
      forall i | 0 <= i < |r| ensures !Contains(r[i], p) {
        if i > 0 {
          assert r[i] == rest[i];
        }
      }
      assert !StartsWith(s, p);
      if Contains(s[1..], p) {
        assert Find(s, p) == Find(s[1..], p) + 1;
      } else {
        assert Find(s, p) == -1;
        assert s == [s[0]] + s[1..];
      }
    }
  }

  /** A string that does not contain the one-character string `[c]` has no character `c`. */
  lemma NoCharOfAbsent(x: string, c: char)
    requires !Contains(x, [c])
    ensures forall k :: 0 <= k < |x| ==> x[k] != c
  {
    forall k | 0 <= k < |x| ensures x[k] != c {
      assert x[k..k + 1] == [x[k]];
      assert !Occurs(x, [c], k);
    }
  }

  /** Joining pieces that do not contain `c` with `c`, then splitting on `c`, gives the pieces. */
  lemma {:induction false} SplitJoinedPieces(ps: seq<string>, c: char)
    requires |ps| >= 1
    requires forall i :: 0 <= i < |ps| ==> forall k :: 0 <= k < |ps[i]| ==> ps[i][k] != c
    ensures Split(Join(ps, [c]), [c]) == ps
    decreases |ps|
  {
    AbsentWithoutHead(ps[0], [c]);
    SplitAbsent(ps[0], [c]);
    if |ps| > 1 {
      SplitJoinedPieces(ps[1..], c);
      SplitAtChar(ps[0], c, Join(ps[1..], [c]));
      assert ps[0] + [c] + Join(ps[1..], [c]) == Join(ps, [c]);
      assert [ps[0]] + ps[1..] == ps;
    }
  }

  /** `s.replace(p, r)` is `r.join(s.split(p))`. */
  lemma {:induction false} ReplaceIsSplitJoin(s: string, p: string, r: string)
    requires |p| > 0
    ensures ReplaceAll(s, p, r) == Join(Split(s, p), r)
    decreases |s|
  {
    if |s| < |p| {
    } else if s[..|p|] == p {
      var rest := Split(s[|p|..], p);
      ReplaceIsSplitJoin(s[|p|..], p, r);
      assert ([""] + rest)[1..] == rest;
    } else {
      ReplaceIsSplitJoin(s[1..], p, r);
      JoinConsChar(s[0], Split(s[1..], p), r);
    }
  }

  /** A string that does not contain the separator splits into itself alone. */
  lemma {:induction false} SplitAbsent(s: string, p: string)
    requires |p| > 0 && !Contains(s, p)
    ensures Split(s, p) == [s]
    decreases |s|
  {
    if |s| < |p| {
    } else {
      assert !Occurs(s, p, 0);
      assert !Contains(s[1..], p);
      SplitAbsent(s[1..], p);
      assert [s[0]] + s[1..] == s;
    }
  }

  /** Replacing a pattern that does not occur changes nothing. */
  lemma ReplaceAbsent(s: string, p: string, r: string)
    requires |p| > 0 && !Contains(s, p)
    ensures ReplaceAll(s, p, r) == s
  {
    ReplaceIsSplitJoin(s, p, r);
    SplitAbsent(s, p);
  }

  /** Splitting on one character distributes over an occurrence of that character. */
  lemma {:induction false} SplitAtChar(a: string, c: char, b: string)
    ensures Split(a + [c] + b, [c]) == Split(a, [c]) + Split(b, [c])
    decreases |a|
  {
    var s := a + [c] + b;
    if |a| == 0 {
      assert s[..1] == [c];
      assert s[1..] == b;
    } else if a[0] == c {
      assert s[..1] == [c];
      assert s[1..] == a[1..] + [c] + b;
      assert a[..1] == [c];
      SplitAtChar(a[1..], c, b);
    } else {
      assert s[0] == a[0];
      assert s[..1] != [c];
      assert a[..1] != [c];
      assert s[1..] == a[1..] + [c] + b;
      SplitAtChar(a[1..], c, b);
      var ra := Split(a[1..], [c]);
      assert (ra + Split(b, [c]))[0] == ra[0];
      assert (ra + Split(b, [c]))[1..] == ra[1..] + Split(b, [c]);
    }
  }

  lemma {:induction false} JoinAppend(xs: seq<string>, ys: seq<string>, sep: string)
    requires |xs| >= 1 && |ys| >= 1
    ensures Join(xs + ys, sep) == Join(xs, sep) + sep + Join(ys, sep)
    decreases |xs|
  {
    if |xs| == 1 {
      assert (xs + ys)[1..] == ys;
    } else {
      assert (xs + ys)[1..] == xs[1..] + ys;
      JoinAppend(xs[1..], ys, sep);
    }
  }

  /** Joining the first `k` pieces of a split gives a prefix of the string. */
  lemma SplitPrefixJoin(s: string, p: string, k: nat)
    requires |p| > 0 && 1 <= k
    ensures StartsWith(s, Join(Split(s, p)[..if k < |Split(s, p)| then k else |Split(s, p)|], p))
  {
    var ps := Split(s, p);
    SplitJoin(s, p);
    if k < |ps| {
      assert ps == ps[..k] + ps[k..];
      JoinAppend(ps[..k], ps[k..], p);
    } else {
      assert ps[..|ps|] == ps;
    }
  }

  // ---------------------------------------------------------------------
  // ASCII lower-casing

  function LowerChar(c: char): char {
    if 'A' <= c <= 'Z' then (c as int + 32) as char else c
  }

  /** `str.lower()` restricted to ASCII letters. */
  function Lower(s: string): (r: string)
    ensures |r| == |s|
    ensures forall i :: 0 <= i < |s| ==> r[i] == LowerChar(s[i])
  {
    if |s| == 0 then "" else [LowerChar(s[0])] + Lower(s[1..])
  }

  // ---------------------------------------------------------------------
  // Digits and integers

  predicate IsDigit(c: char) {
    '0' <= c <= '9'
  }

  predicate AllDigits(s: string) {
    forall i :: 0 <= i < |s| ==> IsDigit(s[i])
  }

  /** The value of a string of decimal digits. */
  function DigitsValue(s: string): nat
    requires AllDigits(s)
    decreases |s|
  {
    if |s| == 0 then 0
    else DigitsValue(s[..|s| - 1]) * 10 + (s[|s| - 1] as int - '0' as int)
  }

  function DigitChar(d: nat): char
    requires d < 10
  {
    ('0' as int + d) as char
  }

  /** `str(n)` for a natural number: decimal digits without leading zeros. */
  function NatToDecimal(n: nat): (r: string)
    ensures |r| >= 1 && AllDigits(r)
    ensures r[0] == '0' ==> n == 0
    decreases n
  {
    if n < 10 then [DigitChar(n)] else NatToDecimal(n / 10) + [DigitChar(n % 10)]
  }

  /** Reading back the decimal text of `n` gives `n`. */
  lemma {:induction false} DecimalRoundTrip(n: nat)
    ensures DigitsValue(NatToDecimal(n)) == n
    decreases n
  {
    if n >= 10 {
      var r := NatToDecimal(n);
      assert r[..|r| - 1] == NatToDecimal(n / 10);
      DecimalRoundTrip(n / 10);
    }
  }

  /** `int(s)`: an optional `+` or `-` followed by at least one ASCII digit. */
  function ParseInt(s: string): (r: Option<int>)
    ensures r.Some? <==> (|s| >= 1 && AllDigits(s)) || (|s| >= 2 && (s[0] == '-' || s[0] == '+') && AllDigits(s[1..]))
    ensures r.Some? && AllDigits(s) ==> r.value == DigitsValue(s)
    ensures r.Some? && s[0] == '+' ==> r.value == DigitsValue(s[1..])
    ensures r.Some? && s[0] == '-' ==> r.value == -(DigitsValue(s[1..]) as int)
  {
    if |s| >= 1 && (s[0] == '-' || s[0] == '+') then
      if |s| >= 2 && AllDigits(s[1..]) then
        var v: int := DigitsValue(s[1..]);
        Some(if s[0] == '-' then -v else v)
      else None
    else if |s| >= 1 && AllDigits(s) then Some(DigitsValue(s))
    else None
  }

  /** `str(i)` for any integer. */
  function IntToDecimal(i: int): string {
    if i < 0 then "-" + NatToDecimal(-i) else NatToDecimal(i)
  }

  /** `int(str(i)) == i`. */
  lemma IntRoundTrip(i: int)
    ensures ParseInt(IntToDecimal(i)) == Some(i)
  {
    if i < 0 {
      var d := NatToDecimal(-i);
      DecimalRoundTrip(-i);
      assert IntToDecimal(i) == "-" + d;
      assert ("-" + d)[0] == '-' && ("-" + d)[1..] == d;
      var v: int := DigitsValue(d);
      assert ParseInt("-" + d) == Some(-v);
    } else {
      var d := NatToDecimal(i);
      DecimalRoundTrip(i);
      assert d[0] != '-' && d[0] != '+';
      assert ParseInt(d) == Some(DigitsValue(d));
    }
  }

  /** The end of the run of digits that starts at `i`. */
  function DigitsEnd(s: string, i: nat): (e: nat)
    requires i <= |s|
    ensures i <= e <= |s|
    ensures forall k :: i <= k < e ==> IsDigit(s[k])
    ensures e == |s| || !IsDigit(s[e])
    decreases |s| - i
  {
    if i < |s| && IsDigit(s[i]) then DigitsEnd(s, i + 1) else i
  }

  /**
   * The first match of the regular expression `\d+`, as a pair of indices
   * (start, end): a maximal run of digits with no digit before it.
   */
  function FirstDigitRun(s: string, from: nat := 0): (r: Option<(nat, nat)>)
    requires from <= |s|
    requires forall k :: 0 <= k < from ==> !IsDigit(s[k])
    ensures r.None? <==> forall k :: 0 <= k < |s| ==> !IsDigit(s[k])
    ensures r.Some? ==> var (a, b) := r.value;
      a < b <= |s| && (forall k :: 0 <= k < a ==> !IsDigit(s[k])) &&
      (forall k :: a <= k < b ==> IsDigit(s[k])) && (b == |s| || !IsDigit(s[b]))
    decreases |s| - from
  {
    if from == |s| then None
    else if IsDigit(s[from]) then Some((from, DigitsEnd(s, from)))
    else FirstDigitRun(s, from + 1)
  }

  /** The first match of `\d+` is unique: a maximal run of digits with no digit before it is that match. */
  lemma FirstDigitRunIs(s: string, a: nat, b: nat)
    requires a < b <= |s|
    requires forall k :: 0 <= k < a ==> !IsDigit(s[k])
    requires forall k :: a <= k < b ==> IsDigit(s[k])
    requires b == |s| || !IsDigit(s[b])
    ensures FirstDigitRun(s) == Some((a, b))
  {
    var r := FirstDigitRun(s);
    assert IsDigit(s[a]);
    var (a', b') := r.value;
    assert IsDigit(s[a']);
    assert b' < |s| ==> !IsDigit(s[b']);
    assert b < |s| ==> !IsDigit(s[b]);
  }
}
