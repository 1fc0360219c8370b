/**
  The leverage chain, from a volatility reading to the quantity that is sent: the candidate,
  the constraint chain, the venue's bracket table, and sizing.

  Decimals are integers in units of 1e-8, products of two of them integers in units of
  1e-16, and a quotient that is rounded to a whole number is one integer division, so
  everything here is exact; the precision of decimal division is not modelled.
 */
module Leverage {
  import opened Common

  const UNIT := 100_000_000
  const LEVERAGE_MIN := UNIT
  const LEVERAGE_MAX := 500 * UNIT

  /** A ceiling that may be missing, may not be a usable number, or has a value. */
  datatype Ceiling = Missing | Malformed | Given(value: int)

  datatype Reason =
    | ApprovedInFull | BoundByExchangeMax | BoundByRiskMax | ApprovedAtDomainMinimum
    | InsufficientData | RequestOutOfRange | ExchangeMaxUnknown | ExchangeMaxInvalid
    | RiskEngineUnavailable | RiskMaxUnknown | RiskMaxInvalid

  datatype Decision = Decision(approved: Option<int>, reason: Reason)

  /** Every failure is a rejection, never a correction. */
  predicate Usable(c: Ceiling) {
    c.Given? && LEVERAGE_MIN <= c.value <= LEVERAGE_MAX
  }

  /** Approve exactly the minimum when what is missing could not change the answer. */
  function DomainMinimum(requested: int, exchange: Ceiling, risk: Ceiling): Option<Decision> {
    if requested != LEVERAGE_MIN then None
    else if !exchange.Missing? && !Usable(exchange) then None
    else if !risk.Missing? && !Usable(risk) then None
    else Some(Decision(Some(LEVERAGE_MIN), ApprovedAtDomainMinimum))
  }

  /** The checks in order of authority, once the request itself is in range. */
  function Constrain(requested: int, exchange: Ceiling, risk: Ceiling, engineAvailable: bool): Decision {
    if exchange.Missing? then Decision(None, ExchangeMaxUnknown)
    else if !Usable(exchange) then Decision(None, ExchangeMaxInvalid)
    else if !engineAvailable then Decision(None, RiskEngineUnavailable)
    else if risk.Missing? then Decision(None, RiskMaxUnknown)
    else if !Usable(risk) then Decision(None, RiskMaxInvalid)
    else
      var approved := Min(requested, Min(exchange.value, risk.value));
      Decision(Some(approved),
               if approved >= requested then ApprovedInFull
               else if approved == exchange.value then BoundByExchangeMax
               else BoundByRiskMax)
  }

  function ResolveLeverage(request: Ceiling, exchange: Ceiling, risk: Ceiling, engineAvailable: bool): Decision {
    if request.Missing? then Decision(None, InsufficientData)
    else if !Usable(request) then Decision(None, RequestOutOfRange)
    else
      var minimum := if exchange.Missing? || !engineAvailable || risk.Missing?
                     then DomainMinimum(request.value, exchange, risk) else None;
      if minimum.Some? then minimum.value
      else Constrain(request.value, exchange, risk, engineAvailable)
  }

  // ------------------------------------------------------------------
  // What an approval means
  // ------------------------------------------------------------------

  predicate NotBroken(c: Ceiling) {
    c.Missing? || Usable(c)
  }

  predicate AllKnown(exchange: Ceiling, risk: Ceiling, engineAvailable: bool) {
    !exchange.Missing? && !risk.Missing? && engineAvailable
  }

  /** Approved exactly when nothing supplied is broken and nothing that matters is missing. */
  lemma ApprovedIff(request: Ceiling, exchange: Ceiling, risk: Ceiling, engineAvailable: bool)
    ensures ResolveLeverage(request, exchange, risk, engineAvailable).approved.Some?
            <==> Usable(request) && NotBroken(exchange) && NotBroken(risk)
                 && (AllKnown(exchange, risk, engineAvailable) || request.value == LEVERAGE_MIN)
  {
  }

  lemma ApprovedWithinEveryBound(request: Ceiling, exchange: Ceiling, risk: Ceiling, engineAvailable: bool)
    requires ResolveLeverage(request, exchange, risk, engineAvailable).approved.Some?
    ensures var approved := ResolveLeverage(request, exchange, risk, engineAvailable).approved.value;
            && LEVERAGE_MIN <= approved <= LEVERAGE_MAX && request.Given? && approved <= request.value
            && (!exchange.Missing? ==> exchange.Given? && approved <= exchange.value)
            && (!risk.Missing? ==> risk.Given? && approved <= risk.value)
            && (AllKnown(exchange, risk, engineAvailable) ==>
                  approved == request.value || approved == exchange.value || approved == risk.value)
  {
  }

  /** Which reason is given: of a refusal the first check that fails, of an approval the bound it met. */
  lemma TheReasonTells(request: Ceiling, exchange: Ceiling, risk: Ceiling, engineAvailable: bool)
    ensures var d := ResolveLeverage(request, exchange, risk, engineAvailable);
            match d.approved
            case None =>
              d.reason == (if request.Missing? then InsufficientData else if !Usable(request) then RequestOutOfRange
                           else if !Usable(exchange) then if exchange.Missing? then ExchangeMaxUnknown else ExchangeMaxInvalid
                           else if !engineAvailable then RiskEngineUnavailable
                           else if risk.Missing? then RiskMaxUnknown else RiskMaxInvalid)
            case Some(approved) =>
              && (d.reason.ApprovedAtDomainMinimum? <==> !AllKnown(exchange, risk, engineAvailable))
              && (d.reason.ApprovedInFull? ==> approved == request.value)
              && (d.reason.BoundByExchangeMax? ==> approved == exchange.value < request.value)
              && (d.reason.BoundByRiskMax? ==> approved == risk.value < Min(request.value, exchange.value))
              && d.reason in {ApprovedInFull, BoundByExchangeMax, BoundByRiskMax, ApprovedAtDomainMinimum}
  {
  }

  /** A ceiling that was missing, once learned. */
  predicate Learned(before: Ceiling, after: Ceiling) {
    if before.Missing? then NotBroken(after) else after == before
  }

  /** What was approved with something missing is approved unchanged, whatever the missing turn out to be. */
  lemma LearningCannotChangeAnApproval(request: Ceiling, exchange: Ceiling, risk: Ceiling, engine: bool,
                                       exchange': Ceiling, risk': Ceiling, engine': bool)
    requires ResolveLeverage(request, exchange, risk, engine).approved.Some?
    requires Learned(exchange, exchange') && Learned(risk, risk') && (engine ==> engine')
    ensures ResolveLeverage(request, exchange', risk', engine').approved
            == ResolveLeverage(request, exchange, risk, engine).approved
  {
  }

  predicate AtLeast(a: Ceiling, b: Ceiling) {
    a.Given? && b.Given? && a.value >= b.value
  }

  /** Looser ceilings and a larger request never approve less. */
  lemma ApprovalIsMonotone(request: Ceiling, exchange: Ceiling, risk: Ceiling,
                           request': Ceiling, exchange': Ceiling, risk': Ceiling)
    requires ResolveLeverage(request, exchange, risk, true).approved.Some?
    requires AtLeast(request', request) && AtLeast(exchange', exchange) && AtLeast(risk', risk)
    requires Usable(request') && Usable(exchange') && Usable(risk')
    ensures var looser := ResolveLeverage(request', exchange', risk', true).approved;
            looser.Some? && looser.value >= ResolveLeverage(request, exchange, risk, true).approved.value
  {
  }

  // ------------------------------------------------------------------
  // Whole numbers of steps
  // ------------------------------------------------------------------

  /** Division truncated toward zero, as a quotient is rounded down. */
  function TruncatedQuotient(a: int, b: int): int
    requires b > 0
  {
    if a >= 0 then a / b else -((-a) / b)
  }

  lemma QuotientAtLeast(q: int, d: int, x: int)
    requires d > 0 && q * d <= x
    ensures q <= x / d
  {
    var k := x / d;
    assert x == k * d + x % d;
    if k < q {
      MulStep(k, q, d);
    }
  }

  lemma QuotientMonotone(x: int, d: int, x': int, d': int)
    requires 0 <= x <= x' && 0 < d' <= d
    ensures 0 <= x / d <= x' / d'
  {
    var q := x / d;
    assert x == q * d + x % d;
    MulMonotone(d', d, q);
    assert q * d' <= q * d;
    QuotientAtLeast(q, d', x');
  }

  // ------------------------------------------------------------------
  // The candidate
  // ------------------------------------------------------------------

  const TARGET_ADVERSE_MOVE := 2 * UNIT

  /** The reference move over the measured one, scaled by agreement, rounded down and clamped. */
  function ProposeLeverage(atr: int, met: int, total: int): Option<int> {
    if atr <= 0 then None
    else if total <= 0 then None
    else if met < 0 || met > total then None
    else if met == 0 then None
    else Some(Clamped(Candidate(atr, met, total)))
  }

  function Candidate(atr: int, met: int, total: int): int
    requires atr > 0 && total > 0
  {
    MulPositive(atr, total);
    TARGET_ADVERSE_MOVE * met / (atr * total)
  }

  lemma MulPositive(a: int, b: int)
    requires a > 0 && b > 0
    ensures a * b > 0
  {
  }

  function Clamped(candidate: int): int {
    Max(LEVERAGE_MIN, Min(candidate * UNIT, LEVERAGE_MAX))
  }

  /** A candidate exists exactly for usable inputs, and is a whole multiple the chain accepts. */
  lemma CandidateIff(atr: int, met: int, total: int)
    ensures ProposeLeverage(atr, met, total).Some? <==> atr > 0 && 0 < met <= total
    ensures ProposeLeverage(atr, met, total).Some? ==>
              var c := ProposeLeverage(atr, met, total).value; Usable(Given(c)) && c % UNIT == 0
  {
  }

  /**
    The candidate is the largest whole multiple, from 1 to 500, that times the volatility and the
    conditions there are does not pass the reference move times the conditions met, and at least 1.
   */
  lemma CandidateIsTheLargest(atr: int, met: int, total: int, n: int)
    requires atr > 0 && 0 < met <= total && 1 <= n <= 500
    ensures ProposeLeverage(atr, met, total).Some?
    ensures ProposeLeverage(atr, met, total).value >= n * UNIT
            <==> n == 1 || n * atr * total <= TARGET_ADVERSE_MOVE * met
  {
    MulPositive(atr, total);
    var x, d := TARGET_ADVERSE_MOVE * met, atr * total;
    var q := Candidate(atr, met, total);
    assert x == q * d + x % d && n * atr * total == n * d;
    if n * d <= x {
      QuotientAtLeast(n, d, x);
    }
    if n <= q {
      MulMonotone(n, q, d);
    }
  }

  /** More volatility never raises the candidate, and partial agreement never scales it up. */
  lemma CandidateIsConservative(atr: int, atr': int, met: int, met': int, total: int)
    requires 0 < atr <= atr' && 0 < met' <= met <= total
    ensures var c, d := ProposeLeverage(atr, met, total), ProposeLeverage(atr', met', total);
            c.Some? && d.Some? && d.value <= c.value <= Clamped(TARGET_ADVERSE_MOVE / atr)
  {
    MulPositive(atr, total);
    MulPositive(atr', total);
    MulMonotone(atr, atr', total);
    QuotientMonotone(TARGET_ADVERSE_MOVE * met', atr' * total, TARGET_ADVERSE_MOVE * met, atr * total);
    var q := Candidate(atr, met, total);
    assert TARGET_ADVERSE_MOVE * met == q * (atr * total) + TARGET_ADVERSE_MOVE * met % (atr * total);
    FullAgreementIsMost(q, atr, met, total);
  }

  lemma FullAgreementIsMost(q: int, atr: int, met: int, total: int)
    requires atr > 0 && 0 < met <= total && q >= 0 && q * (atr * total) <= TARGET_ADVERSE_MOVE * met
    ensures q <= TARGET_ADVERSE_MOVE / atr
  {
    assert q * (atr * total) == (q * atr) * total;
    if q * atr > TARGET_ADVERSE_MOVE {
      MulStep(TARGET_ADVERSE_MOVE, q * atr, total);
    }
    QuotientAtLeast(q, atr, TARGET_ADVERSE_MOVE);
  }

  // ------------------------------------------------------------------
  // The venue's bracket table
  // ------------------------------------------------------------------

  /** A tier; its bounds are in units of 1e-16, like the notionals they are compared with. */
  datatype Bracket = Bracket(maxLeverage: int, floor: int, cap: Option<int>)

  predicate Covers(b: Bracket, notional: int) {
    b.floor <= notional && (b.cap.Some? ==> notional <= b.cap.value)
  }

  /** The first bracket, in the venue's order, that covers the notional. */
  function FirstCovering(table: seq<Bracket>, notional: int): Option<nat> {
    if table == [] then None
    else if Covers(table[0], notional) then Some(0)
    else
      match FirstCovering(table[1..], notional)
      case None => None
      case Some(i) => Some(i + 1)
  }

  method LookUp(table: seq<Bracket>, notional: int) returns (found: Option<Bracket>)
    ensures found == if FirstCovering(table, notional).Some? then Some(table[CoveredAt(table, notional)]) else None
  {
    FirstCoveringIs(table, notional);
    for i := 0 to |table|
      invariant forall j :: 0 <= j < i ==> !Covers(table[j], notional)
    {
      if Covers(table[i], notional) {
        return Some(table[i]);
      }
    }
    found := None;
  }

  /** Below the tier's floor or above its cap, if it has one; on either it is inside. */
  predicate IsOutside(b: Bracket, notional: int) {
    notional < b.floor || (b.cap.Some? && b.cap.value < notional)
  }

  lemma {:induction false} FirstCoveringIs(table: seq<Bracket>, notional: int)
    ensures match FirstCovering(table, notional)
            case None => forall j :: 0 <= j < |table| ==> IsOutside(table[j], notional)
            case Some(i) => i < |table| && !IsOutside(table[i], notional)
                            && forall j :: 0 <= j < i ==> IsOutside(table[j], notional)
  {
    if table != [] {
      FirstCoveringIs(table[1..], notional);
    }
  }

  function CoveredAt(table: seq<Bracket>, notional: int): (i: nat)
    requires FirstCovering(table, notional).Some?
    ensures i < |table|
  {
    FirstCoveringIs(table, notional);
    FirstCovering(table, notional).value
  }

  /** Tiers in order of size, allowing less the larger they are. */
  predicate Tiered(table: seq<Bracket>) {
    forall i, j :: 0 <= i < j < |table| ==>
      table[i].floor <= table[j].floor && table[i].maxLeverage >= table[j].maxLeverage
  }

  /** The ceiling looked up for a larger notional is no higher than the actual tier's. */
  lemma LargerNotionalIsConservative(table: seq<Bracket>, actual: int, requested: int)
    requires Tiered(table) && actual <= requested
    requires FirstCovering(table, actual).Some? && FirstCovering(table, requested).Some?
    ensures table[CoveredAt(table, requested)].maxLeverage <= table[CoveredAt(table, actual)].maxLeverage
  {
    FirstCoveringIs(table, actual);
    FirstCoveringIs(table, requested);
  }

  // ------------------------------------------------------------------
  // Sizing
  // ------------------------------------------------------------------

  function FloorToStep(value: int, step: int): int
    requires step > 0
  {
    TruncatedQuotient(value, step) * step
  }

  /** The largest multiple of the step that does not exceed a non-negative value. */
  lemma FloorToStepIsLargest(value: int, step: int, k: int)
    requires value >= 0 && step > 0
    ensures 0 <= FloorToStep(value, step) <= value < FloorToStep(value, step) + step
    ensures k * step <= value ==> k * step <= FloorToStep(value, step)
  {
    var q := value / step;
    assert value == q * step + value % step;
    if k * step <= value {
      QuotientAtLeast(k, step, value);
      MulMonotone(k, q, step);
    }
  }

  /** Quantity times price, or margin times leverage. */
  function Notional(amount: int, factor: int): int {
    amount * factor
  }

  /** How many steps the margin carries at this leverage and price. */
  function Steps(margin: int, leverage: int, price: int, step: int): int
    requires price > 0 && step > 0
  {
    MulPositive(price, step);
    TruncatedQuotient(Notional(margin, leverage), price * step)
  }

  /** Quantity from margin and leverage, or None when it cannot be sized. */
  function Sized(margin: int, leverage: int, price: Option<int>, step: int): Option<int>
    requires step > 0
  {
    if price.None? || price.value <= 0 then None
    else
      var quantity := Steps(margin, leverage, price.value, step) * step;
      if quantity <= 0 then None else Some(quantity)
  }

  /** The sized quantity is a step multiple the margin carries at this price; one more step is not. */
  lemma SizedFitsTheMargin(margin: int, leverage: int, price: int, step: int)
    requires step > 0 && margin >= 0 && leverage >= 0 && price > 0
    requires Sized(margin, leverage, Some(price), step).Some?
    ensures var quantity := Sized(margin, leverage, Some(price), step).value;
            && quantity > 0 && Notional(quantity, price) <= Notional(margin, leverage)
            && Notional(quantity + step, price) > Notional(margin, leverage)
  {
    MulPositive(price, step);
    MulMonotone(0, margin, leverage);
    var n := Steps(margin, leverage, price, step);
    var m := Notional(margin, leverage);
    assert m == n * (price * step) + m % (price * step);
    assert Notional(n * step, price) == n * (price * step);
    assert Notional(n * step + step, price) == n * (price * step) + price * step;
  }

  /** An order cannot be sized exactly without a usable price or when one step is more than the margin carries. */
  lemma SizedIff(margin: int, leverage: int, price: Option<int>, step: int)
    requires step > 0 && margin >= 0 && leverage >= 0
    ensures Sized(margin, leverage, price, step).Some?
            <==> price.Some? && price.value > 0 && Notional(step, price.value) <= Notional(margin, leverage)
  {
    if price.Some? && price.value > 0 {
      MulMonotone(0, margin, leverage);
      StepsAreSome(Notional(margin, leverage), price.value, step);
      var n := Steps(margin, leverage, price.value, step);
      if n > 0 {
        MulPositive(n, step);
      }
    }
  }

  lemma StepsAreSome(worth: nat, price: int, step: int)
    requires price > 0 && step > 0
    ensures price * step > 0 && 0 <= worth / (price * step)
    ensures worth / (price * step) >= 1 <==> Notional(step, price) <= worth
  {
    MulPositive(price, step);
    var d := price * step;
    assert Notional(step, price) == d;
    if d <= worth {
      QuotientAtLeast(1, d, worth);
    } else {
      QuotientIs(worth, d, 0);
    }
  }

  /** The ceiling the risk engine is given: the tier of the requested notional. */
  function VenueCeiling(table: seq<Bracket>, margin: int, request: int): Ceiling {
    if FirstCovering(table, Notional(margin, request)).None? then Missing
    else Given(table[CoveredAt(table, Notional(margin, request))].maxLeverage)
  }

  /**
    The whole chain: what is sent stays within the request, the venue's ceiling for the notional
    that was asked about, and the venue's ceiling for the notional that is actually sent.
   */
  lemma SentWithinTheVenueTier(table: seq<Bracket>, margin: int, request: int, risk: Ceiling, approved: int,
                               price: int, step: int)
    requires Tiered(table) && margin >= 0 && price > 0 && step > 0
    requires VenueCeiling(table, margin, request).Given?
    requires ResolveLeverage(Given(request), VenueCeiling(table, margin, request), risk, true).approved == Some(approved)
    requires Sized(margin, approved, Some(price), step).Some?
    ensures var sent := Notional(Sized(margin, approved, Some(price), step).value, price);
            && sent <= Notional(margin, approved) <= Notional(margin, request)
            && approved <= VenueCeiling(table, margin, request).value
            && (FirstCovering(table, sent).Some? ==> approved <= table[CoveredAt(table, sent)].maxLeverage)
  {
    var asked := Notional(margin, request);
    ApprovedWithinEveryBound(Given(request), VenueCeiling(table, margin, request), risk, true);
    SizedFitsTheMargin(margin, approved, price, step);
    MulMonotone(approved, request, margin);
    var sent := Notional(Sized(margin, approved, Some(price), step).value, price);
    if FirstCovering(table, sent).Some? {
      LargerNotionalIsConservative(table, sent, asked);
    }
  }

  // ------------------------------------------------------------------
  // Prices on the venue's grid
  // ------------------------------------------------------------------

  /** Toward zero for a buy, away from zero for a sell. */
  function RoundPriceToTick(value: int, tick: int, buy: bool): int
    requires tick > 0
  {
    var ticks := TruncatedQuotient(value, tick);
    if buy || ticks * tick == value then ticks * tick
    else (if value >= 0 then ticks + 1 else ticks - 1) * tick
  }

  /** Snapping a price never makes an order more aggressive, and moves it by less than a tick. */
  lemma SnappingIsConservative(value: int, tick: int, buy: bool)
    requires value >= 0 && tick > 0
    ensures var snapped := RoundPriceToTick(value, tick, buy);
            && snapped % tick == 0
            && if buy then value - tick < snapped <= value else value <= snapped < value + tick
  {
    var q := value / tick;
    assert value == q * tick + value % tick;
    assert (q + 1) * tick == q * tick + tick;
    MultipleHasNoRest(q, tick);
    MultipleHasNoRest(q + 1, tick);
  }

  lemma MultipleHasNoRest(q: int, d: int)
    requires d > 0
    ensures (q * d) % d == 0
  {
    var k := (q * d) / d;
    QuotientIs(q * d, d, q);
    assert q * d == k * d + (q * d) % d;
  }
}
