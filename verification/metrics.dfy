/** The backtest summary's loops: streaks, drawdown and the win/loss partition. */
module BacktestMetrics {
  import opened Common

  /** A trade's net result; break-even trades are neither wins nor losses. */
  predicate Hits(pnl: Money, losing: bool) {
    if losing then pnl < 0 else pnl > 0
  }

  // ------------------------------------------------------------------
  // Streaks
  // ------------------------------------------------------------------

  /** Trades `i` to `j`, exclusive, are one unbroken streak. */
  predicate IsStreak(pnls: seq<Money>, losing: bool, i: nat, j: nat) {
    i <= j <= |pnls| && forall k :: i <= k < j ==> if losing then pnls[k] < 0 else pnls[k] > 0
  }

  /** Some streak has this length, and none is longer. */
  ghost predicate IsLongest(pnls: seq<Money>, losing: bool, longest: nat) {
    && (exists i: nat, j: nat :: IsStreak(pnls, losing, i, j) && j - i == longest)
    && (forall i: nat, j: nat :: IsStreak(pnls, losing, i, j) ==> j - i <= longest)
  }

  method LongestRun(pnls: seq<Money>, losing: bool) returns (longest: nat)
    ensures IsLongest(pnls, losing, longest)
  {
    longest := 0;
    var current := 0;
    ghost var from: nat := 0;
    for n := 0 to |pnls|
      invariant current <= n && current <= longest
      invariant IsStreak(pnls, losing, n - current, n)
      invariant n - current > 0 ==> !Hits(pnls[n - current - 1], losing)
      invariant IsStreak(pnls, losing, from, from + longest)
      invariant forall i: nat, j: nat :: j <= n && IsStreak(pnls, losing, i, j) ==> j - i <= longest
    {
      current := if Hits(pnls[n], losing) then current + 1 else 0;
      if current > longest {
        longest, from := current, n + 1 - current;
      }
      ghost var edge := n + 1 - current;
      assert edge > 0 ==> !Hits(pnls[edge - 1], losing);
    }
    assert IsStreak(pnls, losing, from, from + longest);
  }

  function CountHits(pnls: seq<Money>, losing: bool): nat {
    if pnls == [] then 0
    else CountHits(pnls[..|pnls| - 1], losing) + if Hits(pnls[|pnls| - 1], losing) then 1 else 0
  }

  lemma {:induction false} StreakWithinCount(pnls: seq<Money>, losing: bool, i: nat, j: nat)
    requires IsStreak(pnls, losing, i, j)
    ensures j - i <= CountHits(pnls, losing)
  {
    if i < j {
      var n := |pnls| - 1;
      if j == |pnls| {
        assert IsStreak(pnls[..n], losing, i, n);
        StreakWithinCount(pnls[..n], losing, i, n);
      } else {
        assert IsStreak(pnls[..n], losing, i, j);
        StreakWithinCount(pnls[..n], losing, i, j);
      }
    }
  }

  lemma {:induction false} WinsAndLossesAreDisjoint(pnls: seq<Money>)
    ensures CountHits(pnls, false) + CountHits(pnls, true) <= |pnls|
  {
    if pnls != [] {
      WinsAndLossesAreDisjoint(pnls[..|pnls| - 1]);
    }
  }

  /** The longest winning and the longest losing run fit into the trades together, break-evens apart. */
  lemma RunsFitTogether(pnls: seq<Money>, winning: nat, losing: nat)
    requires IsLongest(pnls, false, winning) && IsLongest(pnls, true, losing)
    ensures winning <= CountHits(pnls, false) && losing <= CountHits(pnls, true)
    ensures winning + losing <= |pnls|
  {
    var a: nat, b: nat :| IsStreak(pnls, false, a, b) && b - a == winning;
    var i: nat, j: nat :| IsStreak(pnls, true, i, j) && j - i == losing;
    StreakWithinCount(pnls, false, a, b);
    StreakWithinCount(pnls, true, i, j);
    WinsAndLossesAreDisjoint(pnls);
  }

  // ------------------------------------------------------------------
  // Drawdown
  // ------------------------------------------------------------------

  /** The level at a point of the curve; -1 stands for the starting balance in front of it. */
  function EquityAt(start: Money, curve: seq<Money>, i: int): Money
    requires -1 <= i < |curve|
  {
    if i == -1 then start else curve[i]
  }

  /** The deepest fall from any level to a later one, floored at zero. */
  predicate IsDrawdown(start: Money, curve: seq<Money>, d: Money) {
    && d >= 0
    && (forall i, j :: -1 <= i <= j < |curve| ==> EquityAt(start, curve, i) - EquityAt(start, curve, j) <= d)
    && (d > 0 ==> exists i, j :: -1 <= i <= j < |curve| && EquityAt(start, curve, i) - EquityAt(start, curve, j) == d)
  }

  method MaxDrawdown(start: Money, curve: seq<Money>) returns (deepest: Money)
    ensures IsDrawdown(start, curve, deepest)
  {
    var peak := start;
    deepest := 0;
    ghost var top, high, low := -1, -1, -1;
    for n := 0 to |curve|
      invariant -1 <= top < n && EquityAt(start, curve, top) == peak
      invariant forall i :: -1 <= i < n ==> EquityAt(start, curve, i) <= peak
      invariant deepest >= 0 && -1 <= high <= low < n
      invariant EquityAt(start, curve, high) - EquityAt(start, curve, low) == deepest
      invariant forall i, j :: -1 <= i <= j < n ==> EquityAt(start, curve, i) - EquityAt(start, curve, j) <= deepest
    {
      if curve[n] > peak {
        peak, top := curve[n], n;
      }
      if peak - curve[n] > deepest {
        deepest, high, low := peak - curve[n], top, n;
      }
      assert EquityAt(start, curve, n) == curve[n];
    }
  }

  /** A curve thinned to some of its points, in order. */
  predicate Thinned(curve: seq<Money>, kept: seq<nat>, thin: seq<Money>) {
    && |thin| == |kept|
    && (forall i :: 0 <= i < |kept| ==> kept[i] < |curve| && thin[i] == curve[kept[i]])
    && (forall i, j :: 0 <= i < j < |kept| ==> kept[i] < kept[j])
  }

  /** Thinning a curve never makes the drawdown look deeper. */
  lemma ThinningOnlyHidesDrawdown(start: Money, curve: seq<Money>, kept: seq<nat>, thin: seq<Money>, d: Money, e: Money)
    requires Thinned(curve, kept, thin) && IsDrawdown(start, curve, d) && IsDrawdown(start, thin, e)
    ensures e <= d
  {
    if e > 0 {
      var i, j :| -1 <= i <= j < |thin| && EquityAt(start, thin, i) - EquityAt(start, thin, j) == e;
      var a := if i == -1 then -1 else kept[i];
      var b := if j == -1 then -1 else kept[j];
      assert EquityAt(start, curve, a) == EquityAt(start, thin, i);
      assert EquityAt(start, curve, b) == EquityAt(start, thin, j);
    }
  }

  // ------------------------------------------------------------------
  // Gross profit and gross loss
  // ------------------------------------------------------------------

  function Sum(pnls: seq<Money>): Money {
    if pnls == [] then 0 else Sum(pnls[..|pnls| - 1]) + pnls[|pnls| - 1]
  }

  function Only(pnls: seq<Money>, losing: bool): seq<Money> {
    if pnls == [] then []
    else Only(pnls[..|pnls| - 1], losing)
         + if Hits(pnls[|pnls| - 1], losing) then [pnls[|pnls| - 1]] else []
  }

  lemma SumOfAppended(s: seq<Money>, x: Money)
    ensures Sum(s + [x]) == Sum(s) + x
  {
    assert (s + [x])[..|s|] == s;
  }

  /** Before rounding, the net result is gross profit less gross loss, and neither is negative. */
  lemma {:induction false} NetIsProfitLessLoss(pnls: seq<Money>)
    ensures var profit, loss := Sum(Only(pnls, false)), -Sum(Only(pnls, true));
            Sum(pnls) == profit - loss && profit >= 0 && loss >= 0
    ensures |Only(pnls, false)| == CountHits(pnls, false) && |Only(pnls, true)| == CountHits(pnls, true)
  {
    if pnls != [] {
      var n := |pnls| - 1;
      NetIsProfitLessLoss(pnls[..n]);
      SumOfAppended(Only(pnls[..n], false), pnls[n]);
      SumOfAppended(Only(pnls[..n], true), pnls[n]);
      assert Only(pnls[..n], false) + [] == Only(pnls[..n], false);
      assert Only(pnls[..n], true) + [] == Only(pnls[..n], true);
    }
  }
}
