/** Character and string helpers shared by every script of the pipeline:
    ASCII lower-casing, plain substring search, separator joins and the
    decimal rendering of counts that the Markdown reports print. */
module Text {

  datatype Option<+T> = None | Some(value: T) {
    /** The value, or `default` when there is none (Python's `x or default`
        for a value that may be None). */
    function GetOr(default: T): T
    {
      match this
      case Some(v) => v
      case None => default
    }
  }

  /** `str.lower()` restricted to ASCII: only 'A'..'Z' change. */
  function LowerChar(c: char): char
  {
    if 'A' <= c <= 'Z' then (c as int + 32) as char else c
  }

  function Lower(s: string): (r: string)
    ensures |r| == |s|
    ensures forall i :: 0 <= i < |s| ==> r[i] == LowerChar(s[i])
  {
    seq(|s|, i requires 0 <= i < |s| => LowerChar(s[i]))
  }

  /** Lower-casing twice is lower-casing once, so a lower-cased text is
      its own lower-cased form. */
  lemma LowerIdempotent(s: string)
    ensures Lower(Lower(s)) == Lower(s)
  {
    var l := Lower(s);
    assert forall i :: 0 <= i < |l| ==> LowerChar(l[i]) == l[i];
  }

  predicate IsPrefix(p: string, s: string)
  {
    |p| <= |s| && s[..|p|] == p
  }

  /** Python's `kw in t`: true when `kw` occurs as a contiguous block of
      `t`, anywhere, whole word or not; the empty keyword is in every text. */
  function Contains(t: string, kw: string): bool
    decreases |t|
  {
    IsPrefix(kw, t) || (|t| > 0 && Contains(t[1..], kw))
  }

  /** `kw` starts at position `p` of `t`. */
  ghost predicate OccursAt(t: string, kw: string, p: int)
  {
    0 <= p && p + |kw| <= |t| && t[p..p + |kw|] == kw
  }

  ghost predicate Occurs(t: string, kw: string)
  {
    exists p :: OccursAt(t, kw, p)
  }

  /** The scanning search finds `kw` exactly when it occurs at some position. */
  lemma {:induction false} ContainsIffOccurs(t: string, kw: string)
    ensures Contains(t, kw) <==> Occurs(t, kw)
    decreases |t|
  {
    if IsPrefix(kw, t) {
      assert OccursAt(t, kw, 0);
    } else if |t| == 0 {
      assert |kw| > 0;
      assert forall p :: !OccursAt(t, kw, p);
    } else {
      ContainsIffOccurs(t[1..], kw);
      if Contains(t[1..], kw) {
        var p :| OccursAt(t[1..], kw, p);
        forall k | 0 <= k < |kw| ensures t[p + 1 + k] == kw[k] {
          assert t[1..][p..p + |kw|][k] == kw[k];
        }
        assert t[p + 1..p + 1 + |kw|] == kw;
        assert OccursAt(t, kw, p + 1);
      }
      assert |kw| <= |t| ==> t[0..|kw|] == t[..|kw|];
      assert !OccursAt(t, kw, 0);
      if Occurs(t, kw) {
        var p :| OccursAt(t, kw, p);
        forall k | 0 <= k < |kw| ensures t[1..][p - 1 + k] == kw[k] {
          assert t[p..p + |kw|][k] == kw[k];
        }
        assert t[1..][p - 1..p - 1 + |kw|] == kw;
        assert OccursAt(t[1..], kw, p - 1);
      }
    }
  }

  /** `sep.join(xs)`. */
  function JoinWith(sep: string, xs: seq<string>): string
  {
    if xs == [] then ""
    else if |xs| == 1 then xs[0]
    else xs[0] + sep + JoinWith(sep, xs[1..])
  }

  function TotalLength(xs: seq<string>): nat
  {
    if xs == [] then 0 else |xs[0]| + TotalLength(xs[1..])
  }

  /** The position at which element `i` begins in `JoinWith(sep, xs)`. */
  function JoinOffset(sep: string, xs: seq<string>, i: nat): nat
    requires i <= |xs|
  {
    if i == 0 then 0 else |xs[0]| + |sep| + JoinOffset(sep, xs[1..], i - 1)
  }

  /** A join is as long as its parts plus one separator between each
      neighbouring pair. */
  lemma {:induction false} JoinLength(sep: string, xs: seq<string>)
    ensures |JoinWith(sep, xs)| == if xs == [] then 0 else TotalLength(xs) + (|xs| - 1) * |sep|
  {
    if |xs| > 1 {
      JoinLength(sep, xs[1..]);
    }
  }

  /** Every element sits unchanged at its offset, and between two
      neighbours stands exactly the separator: the joined text is the
      elements in order, separated by `sep`. */
  lemma {:induction false} JoinAt(sep: string, xs: seq<string>, i: nat)
    requires i < |xs|
    ensures JoinOffset(sep, xs, i) + |xs[i]| <= |JoinWith(sep, xs)|
    ensures JoinWith(sep, xs)[JoinOffset(sep, xs, i)..JoinOffset(sep, xs, i) + |xs[i]|] == xs[i]
    ensures i + 1 < |xs| ==>
      JoinOffset(sep, xs, i) + |xs[i]| + |sep| <= |JoinWith(sep, xs)| &&
      JoinWith(sep, xs)[JoinOffset(sep, xs, i) + |xs[i]|..JoinOffset(sep, xs, i) + |xs[i]| + |sep|] == sep
  {
    var j := JoinWith(sep, xs);
    if |xs| == 1 {
      assert j == xs[0];
      assert JoinOffset(sep, xs, i) == 0;
      assert j[0..|xs[0]|] == xs[0];
    } else if i == 0 {
      var q := sep + JoinWith(sep, xs[1..]);
      assert j == xs[0] + q;
      assert JoinOffset(sep, xs, i) == 0;
      assert j[0..|xs[0]|] == xs[0];
      SliceShift(xs[0], q, 0, |sep|);
      assert q[0..|sep|] == sep;
    } else {
      JoinAt(sep, xs[1..], i - 1);
      var rest := JoinWith(sep, xs[1..]);
      var p := xs[0] + sep;
      assert j == p + rest;
      assert xs[1..][i - 1] == xs[i];
      var o := JoinOffset(sep, xs[1..], i - 1);
      assert JoinOffset(sep, xs, i) == |p| + o;
      SliceShift(p, rest, o, |xs[i]|);
      if i + 1 < |xs| {
        SliceShift(p, rest, o + |xs[i]|, |sep|);
      }
    }
  }

  /** A slice of `r` is found |p| places further in `p + r`. */
  lemma SliceShift(p: string, r: string, o: nat, n: nat)
    requires o + n <= |r|
    ensures |p| + o + n <= |p + r|
    ensures (p + r)[|p| + o..|p| + o + n] == r[o..o + n]
  {
  }

  function DigitChar(d: nat): char
    requires d < 10
  {
    ('0' as int + d) as char
  }

  predicate IsDigit(c: char)
  {
    '0' <= c <= '9'
  }

  predicate AllDigits(s: string)
  {
    forall i :: 0 <= i < |s| ==> IsDigit(s[i])
  }

  /** Python's `f"{n}"` for a non-negative int: decimal digits, most
      significant first, no leading zero. */
  function NatToString(n: nat): (r: string)
    ensures |r| >= 1 && AllDigits(r)
    ensures r[0] == '0' <==> n == 0
    ensures n == 0 ==> r == "0"
  {
    if n < 10 then [DigitChar(n)] else NatToString(n / 10) + [DigitChar(n % 10)]
  }

  /** Reads a decimal digit string back. */
  function ParseNat(s: string): nat
    requires AllDigits(s)
  {
    if s == [] then 0 else ParseNat(s[..|s| - 1]) * 10 + (s[|s| - 1] as int - '0' as int)
  }

  /** The rendering of a count can be read back: distinct counts print differently. */
  lemma {:induction false} NatRoundTrip(n: nat)
    ensures ParseNat(NatToString(n)) == n
  {
    if n >= 10 {
      NatRoundTrip(n / 10);
      var r := NatToString(n);
      assert r[..|r| - 1] == NatToString(n / 10);
    }
  }
}
