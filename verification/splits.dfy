/** Chronological splits and rolling windows: index ranges into one candle series. */
module Splits {
  import opened Common

  datatype SplitError =
    | EmptySeries
    | FractionNotPositive
    | NoTestWindow
    | TooFewBars
    | OutOfOrder
    | PastTheEnd

  datatype DataSplit = DataSplit(
    trainStart: nat,
    trainEnd: nat,
    validationStart: nat,
    validationEnd: nat,
    testStart: nat,
    testEnd: nat,
    totalBars: nat)

  /** The validator of a split, in its order. */
  function SplitRefused(d: DataSplit): Option<SplitError> {
    if !(d.trainStart <= d.trainEnd <= d.validationStart <= d.validationEnd <= d.testStart <= d.testEnd) then
      Some(OutOfOrder)
    else if d.testEnd > d.totalBars then Some(PastTheEnd)
    else None
  }

  /** A fraction is so many parts of `whole`; `int()` of a positive product rounds down. */
  function Share(bars: int, fraction: int, whole: int): int
    requires whole > 0
  {
    bars * fraction / whole
  }

  /** Both fractions are parts of the same whole, as fine as they need to be. */
  function SplitChronological(bars: int, train: int, validation: int, whole: int): Result<DataSplit, SplitError>
    requires whole > 0
  {
    if bars <= 0 then Err(EmptySeries)
    else if train <= 0 || validation <= 0 then Err(FractionNotPositive)
    else if train + validation >= whole then Err(NoTestWindow)
    else
      var trainEnd := Share(bars, train, whole);
      var validationEnd := trainEnd + Share(bars, validation, whole);
      if trainEnd <= 0 || validationEnd <= trainEnd || validationEnd >= bars then Err(TooFewBars)
      else Ok(DataSplit(0, trainEnd, trainEnd, validationEnd, validationEnd, bars, bars))
  }

  /** An accepted split tiles the series: every bar is in exactly one of three non-empty windows. */
  lemma AcceptedSplitTiles(bars: int, train: int, validation: int, whole: int, bar: nat)
    requires whole > 0 && SplitChronological(bars, train, validation, whole).Ok? && bar < bars
    ensures var d := SplitChronological(bars, train, validation, whole).value;
            var inTrain := d.trainStart <= bar < d.trainEnd;
            var inValidation := d.validationStart <= bar < d.validationEnd;
            var inTest := d.testStart <= bar < d.testEnd;
            && SplitRefused(d).None? && d.totalBars == bars
            && d.trainStart < d.trainEnd && d.validationStart < d.validationEnd && d.testStart < d.testEnd
            && (inTrain || inValidation || inTest)
            && !(inTrain && inValidation) && !(inTrain && inTest) && !(inValidation && inTest)
  {
  }

  lemma RoundedDown(a: int, whole: int)
    requires a >= 0 && whole > 0
    ensures a / whole >= 0 && a / whole * whole <= a
    ensures a / whole >= 1 <==> a >= whole
  {
    var q := a / whole;
    assert a == q * whole + a % whole;
    if q >= 1 {
      MulMonotone(1, q, whole);
    } else if q < 0 {
      MulMonotone(q, -1, whole);
    }
  }

  lemma FewerThan(n: int, m: int, whole: int)
    requires whole > 0 && n * whole < m * whole
    ensures n < m
  {
    if n >= m {
      MulMonotone(m, n, whole);
    }
  }

  /** Two admissible shares leave a bar over. */
  lemma SharesLeaveABar(bars: int, train: int, validation: int, whole: int)
    requires bars > 0 && train > 0 && validation > 0 && train + validation < whole
    ensures Share(bars, train, whole) + Share(bars, validation, whole) < bars
    ensures Share(bars, train, whole) >= 1 <==> bars * train >= whole
    ensures Share(bars, validation, whole) >= 1 <==> bars * validation >= whole
    ensures Share(bars, train, whole) >= 0 && Share(bars, validation, whole) >= 0
  {
    MulMonotone(0, train, bars);
    MulMonotone(0, validation, bars);
    RoundedDown(bars * train, whole);
    RoundedDown(bars * validation, whole);
    MulStep(train + validation, whole, bars);
    var p, q := Share(bars, train, whole), Share(bars, validation, whole);
    assert (p + q) * whole == p * whole + q * whole;
    assert (train + validation) * bars == bars * train + bars * validation;
    assert whole * bars == bars * whole;
    FewerThan(p + q, bars, whole);
  }

  lemma FloorOf(a: int, whole: int)
    requires whole > 0
    ensures a / whole * whole <= a < (a / whole + 1) * whole
  {
    assert a == a / whole * whole + a % whole;
    assert (a / whole + 1) * whole == a / whole * whole + whole;
  }

  /** Each window has as many whole bars as its fraction of the series comes to, and the test window the rest. */
  lemma WindowsHoldTheirShares(bars: int, train: int, validation: int, whole: int)
    requires whole > 0 && SplitChronological(bars, train, validation, whole).Ok?
    ensures var d := SplitChronological(bars, train, validation, whole).value;
            var trained, validated := d.trainEnd - d.trainStart, d.validationEnd - d.validationStart;
            && trained * whole <= bars * train < (trained + 1) * whole
            && validated * whole <= bars * validation < (validated + 1) * whole
            && d.trainStart == 0 && d.validationStart == d.trainEnd && d.testStart == d.validationEnd && d.testEnd == bars
  {
    FloorOf(bars * train, whole);
    FloorOf(bars * validation, whole);
  }

  /** With admissible fractions the only way to be refused is a training or validation share of no bar at all. */
  lemma SplitRefusedIff(bars: int, train: int, validation: int, whole: int)
    requires bars > 0 && train > 0 && validation > 0 && train + validation < whole
    ensures SplitChronological(bars, train, validation, whole).Err?
            <==> bars * train < whole || bars * validation < whole
  {
    SharesLeaveABar(bars, train, validation, whole);
  }

  // ------------------------------------------------------------------
  // Rolling windows
  // ------------------------------------------------------------------

  datatype Window = Window(
    index: nat,
    trainStart: nat,
    trainEnd: nat,
    validationStart: nat,
    validationEnd: nat)

  datatype WindowError = WindowNotPositive | StepNotPositive

  function WindowAt(i: nat, train: nat, validation: nat, step: nat): Window {
    Window(i, i * step, i * step + train, i * step + train, i * step + train + validation)
  }

  /** How many windows fit. */
  function WindowCount(bars: nat, train: nat, validation: nat, step: nat): nat
    requires step > 0
  {
    if bars < train + validation then 0 else (bars - train - validation) / step + 1
  }

  method WalkForwardWindows(bars: nat, train: int, validation: int, stepBars: Option<int>)
    returns (r: Result<seq<Window>, WindowError>)
    ensures train <= 0 || validation <= 0 ==> r == Err(WindowNotPositive)
    ensures train > 0 && validation > 0 && stepBars.GetOr(validation) <= 0 ==> r == Err(StepNotPositive)
    ensures train > 0 && validation > 0 && stepBars.GetOr(validation) > 0 ==>
              r.Ok? && r.value == Windows(bars, train, validation, stepBars.GetOr(validation))
  {
    if train <= 0 || validation <= 0 {
      return Err(WindowNotPositive);
    }
    var step := stepBars.GetOr(validation);
    if step <= 0 {
      return Err(StepNotPositive);
    }
    var windows := RollWindows(bars, train, validation, step);
    r := Ok(windows);
  }

  method RollWindows(bars: nat, train: nat, validation: nat, step: nat) returns (windows: seq<Window>)
    requires step > 0
    ensures windows == Windows(bars, train, validation, step)
  {
    windows := [];
    var start := 0;
    while start + train + validation <= bars
      invariant start == |windows| * step
      invariant windows != [] ==> start - step + train + validation <= bars
      invariant forall i :: 0 <= i < |windows| ==> windows[i] == WindowAt(i, train, validation, step)
      decreases bars - start
    {
      NextMultiple(|windows|, step);
      windows := windows + [Window(|windows|, start, start + train, start + train, start + train + validation)];
      start := start + step;
    }
    CountOfWindows(bars, train, validation, step, |windows|);
  }

  /** The loop stops after as many windows as fit. */
  lemma CountOfWindows(bars: nat, train: nat, validation: nat, step: nat, n: nat)
    requires step > 0 && n * step + train + validation > bars
    requires n > 0 ==> n * step - step + train + validation <= bars
    ensures n == WindowCount(bars, train, validation, step)
  {
    if n > 0 {
      NextMultiple(n - 1, step);
      QuotientIs(bars - train - validation, step, n - 1);
    }
  }

  function Windows(bars: nat, train: nat, validation: nat, step: nat): seq<Window>
    requires step > 0
  {
    seq(WindowCount(bars, train, validation, step), i requires 0 <= i => WindowAt(i, train, validation, step))
  }

  /** Every window fits, validates strictly after it trains, and one more window would not fit. */
  lemma WindowsFit(bars: nat, train: nat, validation: nat, step: nat, i: nat)
    requires step > 0
    ensures i < WindowCount(bars, train, validation, step)
            <==> WindowAt(i, train, validation, step).validationEnd <= bars
  {
    if bars >= train + validation {
      var room := bars - train - validation;
      var q := room / step;
      assert room == q * step + room % step;
      if i <= q {
        MulMonotone(i, q, step);
      } else {
        MulStep(q, i, step);
      }
    } else {
      assert i * step >= 0;
    }
  }

  /**
    The first window starts at the first bar and each next one a step later; it trains on `train`
    bars and validates on the `validation` bars after them; and there are as many as fit.
   */
  lemma WindowsRoll(bars: nat, train: nat, validation: nat, step: nat)
    requires step > 0
    ensures var ws := Windows(bars, train, validation, step);
            && (forall i :: 0 <= i < |ws| ==>
                  && ws[i].index == i && ws[i].trainStart == i * step
                  && ws[i].trainEnd == ws[i].trainStart + train && ws[i].validationStart == ws[i].trainEnd
                  && ws[i].validationEnd == ws[i].validationStart + validation && ws[i].validationEnd <= bars)
            && |ws| * step + train + validation > bars
  {
    var n := WindowCount(bars, train, validation, step);
    forall i | 0 <= i < n
      ensures WindowAt(i, train, validation, step).validationEnd <= bars
    {
      WindowsFit(bars, train, validation, step, i);
    }
    WindowsFit(bars, train, validation, step, n);
  }

  /** At the default step no bar is validated twice. */
  lemma ValidationSpansAreDisjoint(bars: nat, train: nat, validation: nat, i: nat, j: nat, bar: nat)
    requires validation > 0
    requires i < j < WindowCount(bars, train, validation, validation)
    ensures var a := WindowAt(i, train, validation, validation);
            var b := WindowAt(j, train, validation, validation);
            !(a.validationStart <= bar < a.validationEnd && b.validationStart <= bar < b.validationEnd)
  {
    MulStep(i, j, validation);
  }

  /** The windows of the first bars are the first windows. */
  lemma WindowsOfAPrefix(fewer: nat, bars: nat, train: nat, validation: nat, step: nat)
    requires step > 0 && fewer <= bars
    ensures Windows(fewer, train, validation, step) <= Windows(bars, train, validation, step)
  {
    var n := WindowCount(fewer, train, validation, step);
    if n > 0 {
      WindowsFit(fewer, train, validation, step, n - 1);
      WindowsFit(bars, train, validation, step, n - 1);
    }
  }
}
