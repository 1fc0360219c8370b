/** The multi-factor objective, in whole units of 0.0001. */
module Objective {
  import opened Common

  datatype Metrics = Metrics(
    totalTrades: nat,
    returnPercent: real,
    profitFactor: Option<real>,
    maxDrawdownPercent: real,
    maxConsecutiveLosses: nat)

  datatype Rejection = NoMetrics | TooFewTrades

  datatype Score = Score(value: int, rejected: Option<Rejection>)

  const MIN_TRADES := 20

  function ClampUnit(x: real): real {
    if x < 0.0 then 0.0 else if x > 1.0 then 1.0 else x
  }

  /** Quantize to four decimals, halves away from zero for the values that occur here. */
  function Quantized(x: real): int
    requires x >= 0.0
  {
    (x * 10000.0 + 0.5).Floor
  }

  function ReturnPart(m: Metrics): int {
    Quantized(ClampUnit(m.returnPercent / 30.0) * 0.35)
  }

  /** No losing trades: undefined, and scored at full marks on this axis only. */
  function ProfitPart(m: Metrics): int {
    match m.profitFactor
    case None => Quantized(1.0 * 0.25)
    case Some(factor) => Quantized(ClampUnit((factor - 1.0) / (2.0 - 1.0)) * 0.25)
  }

  function DrawdownPart(m: Metrics): int {
    Quantized(ClampUnit(1.0 - m.maxDrawdownPercent / 25.0) * 0.25)
  }

  function StreakPart(m: Metrics): int {
    Quantized(ClampUnit(1.0 - m.maxConsecutiveLosses as real / 10.0) * 0.15)
  }

  function ScoreObjective(metrics: Option<Metrics>): (score: Score)
    ensures 0 <= score.value <= 10_000
    ensures score.rejected.Some? ==> score.value == 0
  {
    if metrics.None? then Score(0, Some(NoMetrics))
    else if metrics.value.totalTrades < MIN_TRADES then Score(0, Some(TooFewTrades))
    else
      var m := metrics.value;
      PartBound(ClampUnit(m.returnPercent / 30.0), 0.35, 3500);
      PartBound(ClampUnit(1.0 - m.maxDrawdownPercent / 25.0), 0.25, 2500);
      PartBound(ClampUnit(1.0 - m.maxConsecutiveLosses as real / 10.0), 0.15, 1500);
      PartBound(if m.profitFactor.Some? then ClampUnit((m.profitFactor.value - 1.0) / 1.0) else 1.0, 0.25, 2500);
      Score(ReturnPart(m) + ProfitPart(m) + DrawdownPart(m) + StreakPart(m), None)
  }

  lemma PartBound(x: real, weight: real, most: int)
    requires 0.0 <= x <= 1.0 && weight > 0.0 && weight * 10000.0 == most as real
    ensures x * weight >= 0.0 && 0 <= Quantized(x * weight) <= most
  {
    ScaleMonotone(0.0, x, weight);
    ScaleMonotone(x, 1.0, weight);
  }

  lemma ScaleMonotone(x: real, y: real, weight: real)
    requires 0.0 <= x <= y && weight > 0.0
    ensures 0.0 <= x * weight <= y * weight && Quantized(x * weight) <= Quantized(y * weight)
  {
    assert (y - x) * weight >= 0.0;
    assert x * weight >= 0.0;
  }

  /** At least as good on every axis the objective looks at. */
  predicate NoWorse(a: Metrics, b: Metrics) {
    && (b.totalTrades >= MIN_TRADES ==> a.totalTrades >= MIN_TRADES)
    && a.returnPercent >= b.returnPercent
    && (a.profitFactor.None? || (b.profitFactor.Some? && a.profitFactor.value >= b.profitFactor.value))
    && a.maxDrawdownPercent <= b.maxDrawdownPercent
    && a.maxConsecutiveLosses <= b.maxConsecutiveLosses
  }

  lemma ProfitPartIsMonotone(a: Metrics, b: Metrics)
    requires a.profitFactor.None? || (b.profitFactor.Some? && a.profitFactor.value >= b.profitFactor.value)
    ensures ProfitPart(a) >= ProfitPart(b)
  {
    if b.profitFactor.Some? {
      var p := ClampUnit((b.profitFactor.value - 1.0) / (2.0 - 1.0));
      if a.profitFactor.Some? {
        ScaleMonotone(p, ClampUnit((a.profitFactor.value - 1.0) / (2.0 - 1.0)), 0.25);
      } else {
        ScaleMonotone(p, 1.0, 0.25);
      }
    }
  }

  lemma RiskPartsAreMonotone(a: Metrics, b: Metrics)
    requires a.maxDrawdownPercent <= b.maxDrawdownPercent && a.maxConsecutiveLosses <= b.maxConsecutiveLosses
    ensures DrawdownPart(a) >= DrawdownPart(b) && StreakPart(a) >= StreakPart(b)
  {
    ScaleMonotone(ClampUnit(1.0 - b.maxDrawdownPercent / 25.0), ClampUnit(1.0 - a.maxDrawdownPercent / 25.0), 0.25);
    ScaleMonotone(ClampUnit(1.0 - b.maxConsecutiveLosses as real / 10.0),
                  ClampUnit(1.0 - a.maxConsecutiveLosses as real / 10.0), 0.15);
  }

  lemma ReturnPartIsMonotone(a: Metrics, b: Metrics)
    requires a.returnPercent >= b.returnPercent
    ensures ReturnPart(a) >= ReturnPart(b)
  {
    ScaleMonotone(ClampUnit(b.returnPercent / 30.0), ClampUnit(a.returnPercent / 30.0), 0.35);
  }

  /** A candidate that is no worse on any axis scores no lower. */
  lemma ScoreIsMonotone(a: Metrics, b: Metrics)
    requires NoWorse(a, b)
    ensures ScoreObjective(Some(a)).value >= ScoreObjective(Some(b)).value
  {
    if b.totalTrades >= MIN_TRADES {
      ReturnPartIsMonotone(a, b);
      ProfitPartIsMonotone(a, b);
      RiskPartsAreMonotone(a, b);
    }
  }

  /**
    The sum of the rounded parts is on the rounding grid already, so it differs from the
    unrounded objective by at most half a unit per part.
   */
  function Exact(m: Metrics): real {
    ClampUnit(m.returnPercent / 30.0) * 0.35
    + (if m.profitFactor.None? then 1.0 else ClampUnit(m.profitFactor.value - 1.0)) * 0.25
    + ClampUnit(1.0 - m.maxDrawdownPercent / 25.0) * 0.25
    + ClampUnit(1.0 - m.maxConsecutiveLosses as real / 10.0) * 0.15
  }

  lemma ScoreIsNearExact(m: Metrics)
    requires m.totalTrades >= MIN_TRADES
    ensures -2.0 <= ScoreObjective(Some(m)).value as real - Exact(m) * 10000.0 <= 2.0
  {
  }

  // ------------------------------------------------------------------
  // Earning nothing
  // ------------------------------------------------------------------

  /** Too small on every axis for the rounded part of it to count. */
  predicate EarnsNothing(m: Metrics) {
    && 700.0 * m.returnPercent < 3.0
    && m.profitFactor.Some? && m.profitFactor.value < 1.0002
    && m.maxDrawdownPercent > 24.995
    && m.maxConsecutiveLosses >= 10
  }

  lemma ReturnPartIsZeroIff(m: Metrics)
    ensures 0 <= ReturnPart(m) && (ReturnPart(m) == 0 <==> 700.0 * m.returnPercent < 3.0)
  {
    var x := m.returnPercent / 30.0;
    assert x * 30.0 == m.returnPercent;
    if x < 0.0 {
      assert ClampUnit(x) * 0.35 == 0.0;
    }
  }

  lemma ProfitPartIsZeroIff(m: Metrics)
    ensures 0 <= ProfitPart(m)
    ensures ProfitPart(m) == 0 <==> m.profitFactor.Some? && m.profitFactor.value < 1.0002
  {
    if m.profitFactor.Some? {
      var x := (m.profitFactor.value - 1.0) / (2.0 - 1.0);
      assert x == m.profitFactor.value - 1.0;
    }
  }

  lemma DrawdownPartIsZeroIff(m: Metrics)
    ensures 0 <= DrawdownPart(m) && (DrawdownPart(m) == 0 <==> m.maxDrawdownPercent > 24.995)
  {
    var x := m.maxDrawdownPercent / 25.0;
    assert x * 25.0 == m.maxDrawdownPercent;
  }

  lemma StreakPartIsZeroIff(m: Metrics)
    ensures 0 <= StreakPart(m) && (StreakPart(m) == 0 <==> m.maxConsecutiveLosses >= 10)
  {
    var x := m.maxConsecutiveLosses as real / 10.0;
    assert x * 10.0 == m.maxConsecutiveLosses as real;
  }

  /** A candidate that passes the gate scores zero exactly when it earns nothing on any axis. */
  lemma ScoresZeroIff(m: Metrics)
    requires m.totalTrades >= MIN_TRADES
    ensures ScoreObjective(Some(m)).rejected.None?
    ensures ScoreObjective(Some(m)).value == 0 <==> EarnsNothing(m)
  {
    ReturnPartIsZeroIff(m);
    ProfitPartIsZeroIff(m);
    DrawdownPartIsZeroIff(m);
    StreakPartIsZeroIff(m);
  }
}
