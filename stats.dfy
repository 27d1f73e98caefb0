/**
 * The longest run of one symbol in a sequence (`_subsequence`, which both
 * analysis modules define identically), used for the longest winning and
 * losing streaks.
 */
module Runs {
  /** `n` copies of `c` start at index `i` of `s`. */
  predicate RunAt<T(==)>(s: seq<T>, c: T, i: int, n: int)
  {
    0 <= i && 0 <= n && i + n <= |s| && forall k :: i <= k < i + n ==> s[k] == c
  }

  /** The length of the run of `c` that ends the sequence. */
  function TrailingRun<T(==)>(s: seq<T>, c: T): (n: nat)
    ensures RunAt(s, c, |s| - n, n)
    ensures n < |s| ==> s[|s| - n - 1] != c
  {
    if s == [] || s[|s| - 1] != c then 0 else TrailingRun(s[..|s| - 1], c) + 1
  }

  /** The longest run of `c` anywhere in `s`: the longer of the prefix's longest and the trailing run. */
  function LongestRun<T(==)>(s: seq<T>, c: T): nat
  {
    if s == [] then 0
    else
      var m := LongestRun(s[..|s| - 1], c);
      var t := TrailingRun(s, c);
      if t > m then t else m
  }

  /** A run that reaches the end of `s` is no longer than the trailing run. */
  lemma {:induction false} TrailingRunMaximal<T>(s: seq<T>, c: T, i: int)
    requires RunAt(s, c, i, |s| - i)
    ensures |s| - i <= TrailingRun(s, c)
    decreases |s|
  {
    if i < |s| {
      var p := s[..|s| - 1];
      assert RunAt(p, c, i, |p| - i);
      TrailingRunMaximal(p, c, i);
    }
  }

  /** No run of `c` in `s` is longer than `LongestRun(s, c)`. */
  lemma {:induction false} LongestRunBounds<T>(s: seq<T>, c: T, i: int, n: int)
    requires RunAt(s, c, i, n)
    ensures n <= LongestRun(s, c)
    decreases |s|
  {
    if i + n == |s| {
      if n > 0 {
        TrailingRunMaximal(s, c, i);
      }
    } else {
      var p := s[..|s| - 1];
      assert RunAt(p, c, i, n);
      LongestRunBounds(p, c, i, n);
    }
  }

  /** Some run of `c` in `s` is exactly `LongestRun(s, c)` long. */
  lemma {:induction false} LongestRunAttained<T>(s: seq<T>, c: T)
    ensures exists i :: RunAt(s, c, i, LongestRun(s, c))
    decreases |s|
  {
    if s == [] {
      assert RunAt(s, c, 0, 0);
    } else {
      var p := s[..|s| - 1];
      var t := TrailingRun(s, c);
      if t > LongestRun(p, c) {
        assert LongestRun(s, c) == t;
        assert RunAt(s, c, |s| - t, t);
      } else {
        LongestRunAttained(p, c);
        var i :| RunAt(p, c, i, LongestRun(p, c));
        assert RunAt(s, c, i, LongestRun(s, c));
      }
    }
  }

  /** The longest run is 0 exactly when `c` does not occur. */
  lemma LongestRunZero<T>(s: seq<T>, c: T)
    ensures LongestRun(s, c) == 0 <==> c !in s
  {
    if c in s {
      var k :| 0 <= k < |s| && s[k] == c;
      LongestRunBounds(s, c, k, 1);
    }
    if LongestRun(s, c) > 0 {
      LongestRunAttained(s, c);
      var i :| RunAt(s, c, i, LongestRun(s, c));
      assert s[i] == c;
    }
  }

  /**
   * `_subsequence`: one pass keeping the current run length and the best so
   * far. The result is the length of a run of `c` that occurs in `s`, no run
   * is longer, and it is 0 exactly when `c` is absent.
   */
  method Subsequence<T(==)>(s: seq<T>, c: T) returns (maxlen: nat)
    ensures maxlen == LongestRun(s, c)
    ensures maxlen <= |s|
    ensures maxlen == 0 <==> c !in s
  {
    var count := 0;
    maxlen := 0;
    var i := 0;
    while i < |s|
      invariant 0 <= i <= |s|
      invariant count == TrailingRun(s[..i], c)
      invariant maxlen == LongestRun(s[..i], c)
    {
      assert s[..i + 1][..i] == s[..i];
      if s[i] == c {
        count := count + 1;
        if count > maxlen {
          maxlen := count;
        }
      } else {
        count := 0;
      }
      i := i + 1;
    }
    assert s[..i] == s;
    LongestRunAttained(s, c);
    LongestRunZero(s, c);
  }
}

/**
 * Tallies over a list of realized gains and losses: how many trades won,
 * lost or broke even, and the sums of the gains and of the losses.
 */
module Tallies {
  import opened PySeq

  /** The sign a trade's realized result is classified by. */
  datatype Sign = Win | Loss | Even

  function SignOf(x: real): (g: Sign)
    ensures g == Win <==> x > 0.0
    ensures g == Loss <==> x < 0.0
    ensures g == Even <==> x == 0.0
  {
    if x > 0.0 then Win else if x < 0.0 then Loss else Even
  }

  /** The number of results of sign `g` (`len(df[df > 0])` and its two siblings). */
  function CountOf(xs: seq<real>, g: Sign): (n: nat)
    ensures n <= |xs|
    ensures n == 0 <==> forall k :: 0 <= k < |xs| ==> SignOf(xs[k]) != g
  {
    if xs == [] then 0
    else CountOf(xs[..|xs| - 1], g) + (if SignOf(xs[|xs| - 1]) == g then 1 else 0)
  }

  /** Every result is a win, a loss or even, so the three counts add up to the number of trades. */
  lemma {:induction false} CountsPartition(xs: seq<real>)
    ensures CountOf(xs, Win) + CountOf(xs, Loss) + CountOf(xs, Even) == |xs|
    decreases |xs|
  {
    if xs != [] {
      CountsPartition(xs[..|xs| - 1]);
    }
  }

  /** Counting over two lists put together is counting over each. */
  lemma {:induction false} CountConcat(xs: seq<real>, ys: seq<real>, g: Sign)
    ensures CountOf(xs + ys, g) == CountOf(xs, g) + CountOf(ys, g)
    decreases |ys|
  {
    if ys != [] {
      var p := ys[..|ys| - 1];
      assert (xs + ys)[..|xs + ys| - 1] == xs + p;
      assert (xs + ys)[|xs + ys| - 1] == ys[|ys| - 1];
      CountConcat(xs, p, g);
    } else {
      assert xs + ys == xs;
    }
  }

  /** The sum of the positive results (`df[df > 0].sum()`). */
  function GrossGain(xs: seq<real>): (r: real)
    ensures r >= 0.0
    ensures r == 0.0 <==> CountOf(xs, Win) == 0
  {
    if xs == [] then 0.0
    else GrossGain(xs[..|xs| - 1]) + (if xs[|xs| - 1] > 0.0 then xs[|xs| - 1] else 0.0)
  }

  /** The sum of the negative results (`df[df < 0].sum()`), itself negative or zero. */
  function GrossDrain(xs: seq<real>): (r: real)
    ensures r <= 0.0
    ensures r == 0.0 <==> CountOf(xs, Loss) == 0
  {
    if xs == [] then 0.0
    else GrossDrain(xs[..|xs| - 1]) + (if xs[|xs| - 1] < 0.0 then xs[|xs| - 1] else 0.0)
  }

  /** The net result of all trades is the gross gain plus the (negative) gross loss. */
  lemma {:induction false} NetIsGainPlusDrain(xs: seq<real>)
    ensures Sum(xs) == GrossGain(xs) + GrossDrain(xs)
    decreases |xs|
  {
    if xs != [] {
      NetIsGainPlusDrain(xs[..|xs| - 1]);
    }
  }

  /** Two counts `a <= b` out of `n` give fractions `0 <= a/n <= b/n <= 1`. */
  lemma Fractions(a: nat, b: nat, n: nat)
    requires a <= b <= n && n > 0
    ensures 0.0 <= a as real / n as real <= b as real / n as real <= 1.0
  {
    var x, y := a as real / n as real, b as real / n as real;
    assert x * n as real == a as real && y * n as real == b as real;
    assert (y - x) * n as real >= 0.0;
    assert (1.0 - y) * n as real >= 0.0;
  }

  /** A count `a` out of `n` is a fraction in [0, 1], equal to 1 exactly when `a == n`. */
  lemma Share(a: nat, n: nat)
    requires a <= n && n > 0
    ensures 0.0 <= a as real / n as real <= 1.0
    ensures a as real / n as real == 1.0 <==> a == n
  {
    Fractions(a, a, n);
    var x := a as real / n as real;
    assert x * n as real == a as real;
    assert (1.0 - x) * n as real == (n - a) as real;
    if x == 1.0 {
      assert (n - a) as real == 0.0;
    }
  }

  /** `x` times `y`. */
  function Scaled(x: real, y: real): real
  {
    x * y
  }

  /** A positive amount `p` over a positive amount `q` is a positive ratio `x` that scales `q` back to `p`. */
  lemma PositiveRatio(p: real, q: real, x: real)
    requires p > 0.0 && q > 0.0 && x == p / q
    ensures x > 0.0 && Scaled(x, q) == p
  {
  }

  /** A positive amount over a negative amount, negated, is a positive ratio that scales `-q` back to `p`. */
  lemma NegatedRatio(p: real, q: real, x: real)
    requires p > 0.0 && q < 0.0 && x == p / q * -1.0
    ensures x > 0.0 && Scaled(x, -q) == p
  {
    PositiveRatio(p, -q, p / -q);
  }
}
