/**
  The grid search and the walk-forward run. Building a candidate's parameters and
  backtesting it are functions of what they are handed: the combination, and the slice
  of candles.
 */
module Search {
  import opened Common
  import opened Grid
  import opened Splits
  import opened Objective

  datatype Candle = Candle(openTime: Time, close: Money)

  type Series = seq<Candle>

  /** `builds` is whether the strategy's own validator accepts the combination. */
  datatype Strategy = Strategy(
    builds: Combination -> bool,
    backtest: (Series, Combination) -> Option<Metrics>)

  datatype SearchError = EmptySpace | TooManyCombinations | SplitMismatch | BadWindows(error: WindowError) | TooManyFolds

  datatype Trial = Trial(parameters: Combination, trainScore: Score, validationScore: Score)

  /** `warned`: the report says that every candidate was rejected. */
  datatype Report = Report(
    possible: nat,
    trials: seq<Trial>,
    best: Option<Trial>,
    testScore: Option<Score>,
    warned: bool)

  datatype Fold = Fold(window: Window, selected: Combination, trainScore: Score, validationScore: Score)

  function ScoreOn(st: Strategy, candles: Series, c: Combination): Score {
    ScoreObjective(st.backtest(candles, c))
  }

  /** The candidates the strategy accepts, in grid order. */
  function Candidates(st: Strategy, combos: seq<Combination>): seq<Combination> {
    if combos == [] then []
    else
      var n := |combos| - 1;
      Candidates(st, combos[..n]) + if st.builds(combos[n]) then [combos[n]] else []
  }

  // ------------------------------------------------------------------
  // The first of the best
  // ------------------------------------------------------------------

  /** No value is higher, and every earlier one is lower. */
  predicate IsFirstMaximum(values: seq<int>, k: int) {
    && 0 <= k < |values|
    && (forall j :: 0 <= j < |values| ==> values[j] <= values[k])
    && (forall j :: 0 <= j < k ==> values[j] < values[k])
  }

  lemma FirstMaximumIsUnique(values: seq<int>, j: int, k: int)
    requires IsFirstMaximum(values, j) && IsFirstMaximum(values, k)
    ensures j == k
  {
    assert values[j] <= values[k] <= values[j];
  }

  function ValidationValues(trials: seq<Trial>): seq<int> {
    seq(|trials|, i requires 0 <= i < |trials| => trials[i].validationScore.value)
  }

  /** What `_select_on` sees: the scores on the bars it is handed, and nothing else. */
  function TrainValues(st: Strategy, candles: Series, candidates: seq<Combination>): seq<int> {
    seq(|candidates|, i requires 0 <= i < |candidates| => ScoreOn(st, candles, candidates[i]).value)
  }

  // ------------------------------------------------------------------
  // One search
  // ------------------------------------------------------------------

  function TrialOf(st: Strategy, train: Series, validation: Series, c: Combination): Trial {
    Trial(c, ScoreOn(st, train, c), ScoreOn(st, validation, c))
  }

  /** What the report says, given the candles; `best` is pinned by where it stands in grid order. */
  ghost predicate IsReport(r: Report, st: Strategy, candles: Series, split: DataSplit, grids: seq<seq<int>>)
    requires SplitRefused(split).None? && split.totalBars == |candles|
  {
    var candidates := Candidates(st, Product(grids));
    var train := candles[split.trainStart..split.trainEnd];
    var validation := candles[split.validationStart..split.validationEnd];
    var test := candles[split.testStart..split.testEnd];
    && r.possible == |Product(grids)|
    && |r.trials| == |candidates|
    && (forall i :: 0 <= i < |candidates| ==> r.trials[i] == TrialOf(st, train, validation, candidates[i]))
    && (r.best.None? <==> candidates == [])
    && (r.best.Some? ==>
          && (exists k :: IsFirstMaximum(ValidationValues(r.trials), k) && r.best == Some(r.trials[k]))
          && r.testScore == Some(ScoreOn(st, test, r.best.value.parameters)))
    && (r.best.None? ==> r.testScore.None? && !r.warned)
    && (r.best.Some? ==> r.warned == r.best.value.validationScore.rejected.Some?)
  }

  method Optimize(st: Strategy, candles: Series, split: DataSplit, grids: seq<seq<int>>, maxCombinations: nat)
    returns (r: Result<Report, SearchError>)
    requires SplitRefused(split).None?
    ensures grids == [] ==> r == Err(EmptySpace)
    ensures grids != [] && |Product(grids)| > maxCombinations ==> r == Err(TooManyCombinations)
    ensures grids != [] && |Product(grids)| <= maxCombinations && split.totalBars != |candles| ==> r == Err(SplitMismatch)
    ensures grids != [] && |Product(grids)| <= maxCombinations && split.totalBars == |candles| ==>
              r.Ok? && IsReport(r.value, st, candles, split, grids)
  {
    if grids == [] {
      return Err(EmptySpace);
    }
    var possible := Possible(grids);
    if possible > maxCombinations {
      return Err(TooManyCombinations);
    }
    if split.totalBars != |candles| {
      return Err(SplitMismatch);
    }
    var train := candles[split.trainStart..split.trainEnd];
    var validation := candles[split.validationStart..split.validationEnd];
    var test := candles[split.testStart..split.testEnd];
    var trials := RunTrials(st, train, validation, Product(grids));
    var best := FirstBest(trials);
    var testScore := None;
    var warned := false;
    if best.Some? {
      testScore := Some(ScoreOn(st, test, trials[best.value].parameters));
      warned := trials[best.value].validationScore.rejected.Some?;
    }
    r := Ok(Report(possible, trials, if best.Some? then Some(trials[best.value]) else None, testScore, warned));
  }

  method RunTrials(st: Strategy, train: Series, validation: Series, combos: seq<Combination>)
    returns (trials: seq<Trial>)
    ensures |trials| == |Candidates(st, combos)|
    ensures forall i :: 0 <= i < |trials| ==> trials[i] == TrialOf(st, train, validation, Candidates(st, combos)[i])
  {
    trials := [];
    for i := 0 to |combos|
      invariant |trials| == |Candidates(st, combos[..i])|
      invariant forall j :: 0 <= j < |trials| ==>
                  trials[j] == TrialOf(st, train, validation, Candidates(st, combos[..i])[j])
    {
      assert combos[..i + 1][..i] == combos[..i];
      if st.builds(combos[i]) {
        trials := trials + [TrialOf(st, train, validation, combos[i])];
      }
    }
    assert combos[..|combos|] == combos;
  }

  /** Strictly greater replaces, so ties stay with the earlier trial. */
  method FirstBest(trials: seq<Trial>) returns (best: Option<nat>)
    ensures best.None? <==> trials == []
    ensures best.Some? ==> best.value < |trials| && IsFirstMaximum(ValidationValues(trials), best.value)
  {
    best := None;
    for i := 0 to |trials|
      invariant best.None? <==> i == 0
      invariant best.Some? ==> best.value < i && IsFirstMaximum(ValidationValues(trials)[..i], best.value)
    {
      if best.None? || trials[i].validationScore.value > trials[best.value].validationScore.value {
        best := Some(i);
      }
    }
    assert ValidationValues(trials)[..|trials|] == ValidationValues(trials);
  }

  // ------------------------------------------------------------------
  // Walk-forward
  // ------------------------------------------------------------------

  lemma NextMaximum(values: seq<int>, k: int, x: int)
    requires IsFirstMaximum(values, k)
    ensures IsFirstMaximum(values + [x], if x > values[k] then |values| else k)
  {
  }

  lemma NextTrainValue(st: Strategy, candles: Series, candidates: seq<Combination>, c: Combination)
    ensures TrainValues(st, candles, candidates + [c])
            == TrainValues(st, candles, candidates) + [ScoreOn(st, candles, c).value]
  {
  }

  /** The first grid-order maximiser of the score on these candles. */
  predicate IsSelection(st: Strategy, candles: Series, candidates: seq<Combination>, c: Combination, k: int) {
    IsFirstMaximum(TrainValues(st, candles, candidates), k) && c == candidates[k]
  }

  method SelectOn(st: Strategy, candles: Series, combos: seq<Combination>)
    returns (selection: Option<Combination>, score: Score)
    ensures var candidates := Candidates(st, combos);
            && (selection.None? <==> candidates == [])
            && (selection.Some? ==>
                  && (exists k :: IsSelection(st, candles, candidates, selection.value, k))
                  && score == ScoreOn(st, candles, selection.value))
  {
    selection, score := None, Score(0, None);
    ghost var at, candidates := 0, [];
    for i := 0 to |combos|
      invariant candidates == Candidates(st, combos[..i])
      invariant selection.None? <==> candidates == []
      invariant selection.Some? ==>
                  && IsSelection(st, candles, candidates, selection.value, at)
                  && score == ScoreOn(st, candles, selection.value)
    {
      assert combos[..i + 1][..i] == combos[..i];
      if st.builds(combos[i]) {
        var s := ScoreOn(st, candles, combos[i]);
        NextTrainValue(st, candles, candidates, combos[i]);
        if selection.None? {
          selection, score, at := Some(combos[i]), s, 0;
        } else {
          NextMaximum(TrainValues(st, candles, candidates), at, s.value);
          if s.value > score.value {
            selection, score, at := Some(combos[i]), s, |candidates|;
          }
        }
        candidates := candidates + [combos[i]];
      }
    }
    assert combos[..|combos|] == combos;
  }

  /** The fold of one window: selected on its training bars, scored on its validation bars. */
  ghost predicate IsFold(f: Fold, st: Strategy, candles: Series, w: Window, candidates: seq<Combination>)
  {
    && f.window == w && Fits(w, candles)
    && (exists k :: IsSelection(st, candles[w.trainStart..w.trainEnd], candidates, f.selected, k))
    && f.trainScore == ScoreOn(st, candles[w.trainStart..w.trainEnd], f.selected)
    && f.validationScore == ScoreOn(st, candles[w.validationStart..w.validationEnd], f.selected)
  }

  predicate Fits(w: Window, candles: Series) {
    w.trainStart <= w.trainEnd <= w.validationStart <= w.validationEnd <= |candles|
  }

  /** One fold per window, in order; none at all when no candidate can be built. */
  ghost predicate AreFolds(folds: seq<Fold>, st: Strategy, candles: Series, windows: seq<Window>,
                           candidates: seq<Combination>)
  {
    && |folds| == (if candidates == [] then 0 else |windows|)
    && forall i :: 0 <= i < |folds| ==> IsFold(folds[i], st, candles, windows[i], candidates)
  }

  method WalkForward(st: Strategy, candles: Series, train: int, validation: int, stepBars: Option<int>,
                     grids: seq<seq<int>>, maxCombinations: nat, maxFolds: nat)
    returns (r: Result<seq<Fold>, SearchError>)
    ensures grids == [] ==> r == Err(EmptySpace)
    ensures grids != [] && |Product(grids)| > maxCombinations ==> r == Err(TooManyCombinations)
    ensures r.Ok? ==>
              && train > 0 && validation > 0 && stepBars.GetOr(validation) > 0
              && var windows := Windows(|candles|, train, validation, stepBars.GetOr(validation));
                 && |windows| <= maxFolds
                 && AreFolds(r.value, st, candles, windows, Candidates(st, Product(grids)))
    ensures r.Err? && grids != [] && |Product(grids)| <= maxCombinations && train > 0 && validation > 0
            && stepBars.GetOr(validation) > 0 ==>
              r.error == TooManyFolds
              && WindowCount(|candles|, train, validation, stepBars.GetOr(validation)) > maxFolds
  {
    if grids == [] {
      return Err(EmptySpace);
    }
    var possible := Possible(grids);
    if possible > maxCombinations {
      return Err(TooManyCombinations);
    }
    var rolled := WalkForwardWindows(|candles|, train, validation, stepBars);
    if rolled.Err? {
      return Err(BadWindows(rolled.error));
    }
    var windows := rolled.value;
    if |windows| > maxFolds {
      return Err(TooManyFolds);
    }
    forall w <- windows
      ensures Fits(w, candles)
    {
      var i :| 0 <= i < |windows| && windows[i] == w;
      WindowsFit(|candles|, train, validation, stepBars.GetOr(validation), i);
    }
    var folds := RunFolds(st, candles, windows, Product(grids));
    r := Ok(folds);
  }

  method RunFolds(st: Strategy, candles: Series, windows: seq<Window>, combos: seq<Combination>)
    returns (folds: seq<Fold>)
    requires forall w <- windows :: Fits(w, candles)
    ensures AreFolds(folds, st, candles, windows, Candidates(st, combos))
  {
    folds := [];
    for i := 0 to |windows|
      invariant |folds| == if Candidates(st, combos) == [] then 0 else i
      invariant forall j :: 0 <= j < |folds| ==> IsFold(folds[j], st, candles, windows[j], Candidates(st, combos))
    {
      var w := windows[i];
      assert Fits(w, candles);
      var selection, score := SelectOn(st, candles[w.trainStart..w.trainEnd], combos);
      if selection.Some? {
        var outcome := ScoreOn(st, candles[w.validationStart..w.validationEnd], selection.value);
        folds := folds + [Fold(w, selection.value, score, outcome)];
      }
    }
  }

  // ------------------------------------------------------------------
  // The parameter set that won most folds
  // ------------------------------------------------------------------

  function Selections(folds: seq<Fold>): seq<Combination> {
    seq(|folds|, i requires 0 <= i < |folds| => folds[i].selected)
  }

  /** No combination won more folds, and none that won as many comes before it in dictionary order. */
  ghost predicate IsMostSelected(won: multiset<Combination>, winner: Combination) {
    && winner in won
    && forall c <- won :: won[c] < won[winner] || (won[c] == won[winner] && !LexLess(c, winner))
  }

  function InsertKey(c: Combination, sorted: seq<Combination>): seq<Combination> {
    if sorted == [] || LexLess(c, sorted[0]) then [c] + sorted
    else if c == sorted[0] then sorted
    else [sorted[0]] + InsertKey(c, sorted[1..])
  }

  lemma {:induction false} InsertKeyKeeps(c: Combination, sorted: seq<Combination>)
    requires LexSorted(sorted)
    ensures LexSorted(InsertKey(c, sorted))
    ensures forall x :: x in InsertKey(c, sorted) <==> x == c || x in sorted
  {
    if sorted == [] {
    } else if LexLess(c, sorted[0]) {
      forall j | 0 <= j < |sorted|
        ensures LexLess(c, sorted[j])
      {
        if j > 0 {
          LexLessIsTransitive(c, sorted[0], sorted[j]);
        }
      }
    } else if c != sorted[0] {
      LexLessIsTotal(c, sorted[0]);
      InsertKeyKeeps(c, sorted[1..]);
      assert sorted == [sorted[0]] + sorted[1..];
      var rest := InsertKey(c, sorted[1..]);
      forall j | 0 <= j < |rest|
        ensures LexLess(sorted[0], rest[j])
      {
        assert rest[j] in rest;
        if rest[j] != c {
          var k :| 0 <= k < |sorted[1..]| && sorted[1..][k] == rest[j];
          assert sorted[k + 1] == rest[j];
        }
      }
    }
  }

  method MostSelected(folds: seq<Fold>) returns (winner: Combination, count: nat)
    requires folds != []
    ensures IsMostSelected(multiset(Selections(folds)), winner)
    ensures count == multiset(Selections(folds))[winner]
  {
    var tally, keys := Tally(folds);
    ghost var won := multiset(Selections(folds));
    assert Selections(folds)[0] in won;
    winner := keys[0];
    ghost var at := 0;
    for i := 1 to |keys|
      invariant 0 <= at < i && winner == keys[at]
      invariant forall j :: 0 <= j < i ==> won[keys[j]] <= won[winner]
      invariant forall j :: 0 <= j < at ==> won[keys[j]] < won[winner]
    {
      assert keys[i] in keys;
      if tally[keys[i]] > tally[winner] {
        winner, at := keys[i], i;
      }
    }
    count := tally[winner];
    forall c <- won
      ensures won[c] < won[winner] || (won[c] == won[winner] && !LexLess(c, winner))
    {
      var j :| 0 <= j < |keys| && keys[j] == c;
      if j > at {
        LexLessIsTotal(winner, c);
      } else if j == at {
        LexLessIsTotal(c, c);
      }
    }
  }

  /** How often each combination was selected, and the distinct ones in dictionary order. */
  method Tally(folds: seq<Fold>) returns (tally: map<Combination, nat>, keys: seq<Combination>)
    ensures LexSorted(keys)
    ensures forall c :: c in keys <==> c in multiset(Selections(folds))
    ensures forall c :: c in tally <==> c in keys
    ensures forall c <- tally :: tally[c] == multiset(Selections(folds))[c]
  {
    tally, keys := map[], [];
    for i := 0 to |folds|
      invariant LexSorted(keys)
      invariant forall c :: c in keys <==> c in multiset(Selections(folds[..i]))
      invariant forall c :: c in tally <==> c in keys
      invariant forall c <- tally :: tally[c] == multiset(Selections(folds[..i]))[c]
    {
      var c := folds[i].selected;
      assert Selections(folds[..i + 1]) == Selections(folds[..i]) + [c];
      InsertKeyKeeps(c, keys);
      keys := InsertKey(c, keys);
      tally := tally[c := 1 + if c in tally then tally[c] else 0];
    }
    assert folds[..|folds|] == folds;
  }
}
