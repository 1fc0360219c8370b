/** What the search may and may not depend on, and what its warning means. */
module SearchTheorems {
  import opened Common
  import opened Grid
  import opened Splits
  import opened Objective
  import opened Search

  // ------------------------------------------------------------------
  // What is tried, and what is chosen
  // ------------------------------------------------------------------

  lemma {:induction false} CandidatesAre(st: Strategy, combos: seq<Combination>)
    ensures forall c :: c in Candidates(st, combos) <==> c in combos && st.builds(c)
    ensures LexSorted(combos) ==> LexSorted(Candidates(st, combos))
  {
    if combos != [] {
      var n := |combos| - 1;
      CandidatesAre(st, combos[..n]);
      assert combos == combos[..n] + [combos[n]];
      var before := Candidates(st, combos[..n]);
      if LexSorted(combos) {
        forall i | 0 <= i < |before|
          ensures LexLess(before[i], combos[n])
        {
          assert before[i] in combos[..n];
          var k :| 0 <= k < n && combos[..n][k] == before[i];
          assert combos[k] == before[i];
        }
      }
    }
  }

  /** A combination of grid values that the strategy accepts. */
  predicate IsTried(st: Strategy, grids: seq<seq<int>>, c: Combination) {
    && st.builds(c) && |c| == |grids| && forall i :: 0 <= i < |c| ==> c[i] in grids[i]
  }

  predicate Increasing(grids: seq<seq<int>>) {
    forall g <- grids :: StrictlyIncreasing(g)
  }

  lemma CandidatesAreTried(st: Strategy, grids: seq<seq<int>>)
    ensures var candidates := Candidates(st, Product(grids));
            && (forall c :: c in candidates <==> IsTried(st, grids, c))
            && (Increasing(grids) ==> LexSorted(candidates))
  {
    CandidatesAre(st, Product(grids));
    forall c: Combination
      ensures c in Product(grids) <==> Grid.Fits(c, grids)
    {
      ProductIsEveryCombination(grids, c);
    }
    if Increasing(grids) {
      ProductIsSorted(grids);
    }
  }

  /** The objective on a stretch of the candles. */
  function ScoredOn(st: Strategy, candles: Series, from: nat, end: nat, c: Combination): Score
    requires from <= end <= |candles|
  {
    ScoreObjective(st.backtest(candles[from..end], c))
  }

  /**
    The trials are the combinations of grid values that the strategy accepts, over increasing
    grids each once and in dictionary order, with their scores on the training and on the
    validation bars.
   */
  lemma TrialsAreTheAcceptedCombinations(st: Strategy, candles: Series, split: DataSplit, grids: seq<seq<int>>, r: Report)
    requires SplitRefused(split).None? && split.totalBars == |candles|
    requires IsReport(r, st, candles, split, grids)
    ensures forall i :: 0 <= i < |r.trials| ==>
              var t := r.trials[i];
              && IsTried(st, grids, t.parameters)
              && t.trainScore == ScoredOn(st, candles, split.trainStart, split.trainEnd, t.parameters)
              && t.validationScore == ScoredOn(st, candles, split.validationStart, split.validationEnd, t.parameters)
    ensures forall c | IsTried(st, grids, c) :: exists i :: 0 <= i < |r.trials| && r.trials[i].parameters == c
    ensures Increasing(grids) ==>
              forall i, j :: 0 <= i < j < |r.trials| ==> LexLess(r.trials[i].parameters, r.trials[j].parameters)
  {
    var candidates := Candidates(st, Product(grids));
    CandidatesAreTried(st, grids);
    forall i | 0 <= i < |r.trials|
      ensures IsTried(st, grids, r.trials[i].parameters)
    {
      assert candidates[i] in candidates;
    }
    forall c | IsTried(st, grids, c)
      ensures exists i :: 0 <= i < |r.trials| && r.trials[i].parameters == c
    {
      var i :| 0 <= i < |candidates| && candidates[i] == c;
      assert r.trials[i].parameters == c;
    }
  }

  /** None scores higher than `c`, and those that score the same come after it in dictionary order. */
  ghost predicate IsBestTried(st: Strategy, candles: Series, from: nat, end: nat, grids: seq<seq<int>>, c: Combination)
    requires from <= end <= |candles|
  {
    && IsTried(st, grids, c)
    && forall d | IsTried(st, grids, d) && d != c ::
         var best, other := ScoredOn(st, candles, from, end, c).value, ScoredOn(st, candles, from, end, d).value;
         other < best || (other == best && LexLess(c, d))
  }

  /**
    Unless the strategy accepts no combination at all, the best is the one that scores highest on
    the validation bars, the first in dictionary order of those that do, and its score on the
    test bars is reported with it.
   */
  lemma TheBestScoresHighest(st: Strategy, candles: Series, split: DataSplit, grids: seq<seq<int>>, r: Report)
    requires SplitRefused(split).None? && split.totalBars == |candles| && Increasing(grids)
    requires IsReport(r, st, candles, split, grids)
    ensures r.best.Some? <==> exists c :: IsTried(st, grids, c)
    ensures r.best.Some? ==>
              var c := r.best.value.parameters;
              && IsBestTried(st, candles, split.validationStart, split.validationEnd, grids, c)
              && r.testScore == Some(ScoredOn(st, candles, split.testStart, split.testEnd, c))
  {
    var candidates := Candidates(st, Product(grids));
    CandidatesAreTried(st, grids);
    if r.best.Some? {
      assert candidates[0] in candidates;
      var k :| IsFirstMaximum(ValidationValues(r.trials), k) && r.best == Some(r.trials[k]);
      var bars := candles[split.validationStart..split.validationEnd];
      assert ValidationValues(r.trials) == TrainValues(st, bars, candidates);
      FirstMaximumIsBest(st, candles, split.validationStart, split.validationEnd, grids, k);
    }
  }

  /** The first to score highest, in grid order, is the best. */
  lemma FirstMaximumIsBest(st: Strategy, candles: Series, from: nat, end: nat, grids: seq<seq<int>>, k: int)
    requires Increasing(grids) && from <= end <= |candles|
    requires IsFirstMaximum(TrainValues(st, candles[from..end], Candidates(st, Product(grids))), k)
    ensures IsBestTried(st, candles, from, end, grids, Candidates(st, Product(grids))[k])
  {
    var candidates := Candidates(st, Product(grids));
    var bars := candles[from..end];
    var values := TrainValues(st, bars, candidates);
    CandidatesAreTried(st, grids);
    var c := candidates[k];
    assert c in candidates;
    forall d | IsTried(st, grids, d) && d != c
      ensures var best := ScoreOn(st, bars, c).value;
              var other := ScoreOn(st, bars, d).value;
              other < best || (other == best && LexLess(c, d))
    {
      var i :| 0 <= i < |candidates| && candidates[i] == d;
      assert values[i] <= values[k] && (i < k ==> values[i] < values[k]);
    }
  }

  /**
    Every window has a fold unless the strategy accepts no combination, and then none has. A
    fold selects what scores highest on its training bars, the first in dictionary order, and
    scores that on its validation bars.
   */
  lemma FoldsSelectTheBest(st: Strategy, candles: Series, windows: seq<Window>, grids: seq<seq<int>>, folds: seq<Fold>)
    requires Increasing(grids) && AreFolds(folds, st, candles, windows, Candidates(st, Product(grids)))
    ensures |folds| == if exists c :: IsTried(st, grids, c) then |windows| else 0
    ensures forall i :: 0 <= i < |folds| ==>
              var f, w := folds[i], windows[i];
              && f.window == w && w.trainStart <= w.trainEnd <= w.validationStart <= w.validationEnd <= |candles|
              && IsBestTried(st, candles, w.trainStart, w.trainEnd, grids, f.selected)
              && f.trainScore == ScoredOn(st, candles, w.trainStart, w.trainEnd, f.selected)
              && f.validationScore == ScoredOn(st, candles, w.validationStart, w.validationEnd, f.selected)
  {
    var candidates := Candidates(st, Product(grids));
    CandidatesAreTried(st, grids);
    if candidates != [] {
      assert candidates[0] in candidates;
    }
    forall i | 0 <= i < |folds|
      ensures IsFold(folds[i], st, candles, windows[i], candidates)
      ensures IsBestTried(st, candles, windows[i].trainStart, windows[i].trainEnd, grids, folds[i].selected)
    {
      var w := windows[i];
      var k :| IsSelection(st, candles[w.trainStart..w.trainEnd], candidates, folds[i].selected, k);
      FirstMaximumIsBest(st, candles, w.trainStart, w.trainEnd, grids, k);
    }
  }

  // ------------------------------------------------------------------
  // Selection sees the validation bars and nothing else
  // ------------------------------------------------------------------

  /** Changing training or test bars cannot change what is selected, nor the warning. */
  lemma SelectionDependsOnValidationOnly(st: Strategy, a: Series, b: Series, split: DataSplit, grids: seq<seq<int>>,
                                         r: Report, s: Report)
    requires SplitRefused(split).None? && split.totalBars == |a| == |b|
    requires a[split.validationStart..split.validationEnd] == b[split.validationStart..split.validationEnd]
    requires IsReport(r, st, a, split, grids) && IsReport(s, st, b, split, grids)
    ensures r.best.Some? <==> s.best.Some?
    ensures r.best.Some? ==>
              && r.best.value.parameters == s.best.value.parameters
              && r.best.value.validationScore == s.best.value.validationScore
              && r.warned == s.warned
  {
    assert ValidationValues(r.trials) == ValidationValues(s.trials);
    if r.best.Some? {
      var j :| IsFirstMaximum(ValidationValues(r.trials), j) && r.best == Some(r.trials[j]);
      var k :| IsFirstMaximum(ValidationValues(s.trials), k) && s.best == Some(s.trials[k]);
      FirstMaximumIsUnique(ValidationValues(r.trials), j, k);
    }
  }

  /** The held-out bars reach nothing but the test score. */
  lemma TestBarsReachTheTestScoreOnly(st: Strategy, a: Series, b: Series, split: DataSplit, grids: seq<seq<int>>,
                                      r: Report, s: Report)
    requires SplitRefused(split).None? && split.totalBars == |a| == |b|
    requires a[..split.testStart] == b[..split.testStart]
    requires IsReport(r, st, a, split, grids) && IsReport(s, st, b, split, grids)
    ensures r.(testScore := None) == s.(testScore := None)
  {
    SliceOfPrefix(a, split.trainStart, split.trainEnd, split.testStart);
    SliceOfPrefix(b, split.trainStart, split.trainEnd, split.testStart);
    SliceOfPrefix(a, split.validationStart, split.validationEnd, split.testStart);
    SliceOfPrefix(b, split.validationStart, split.validationEnd, split.testStart);
    assert r.trials == s.trials;
    SelectionDependsOnValidationOnly(st, a, b, split, grids, r, s);
  }

  // ------------------------------------------------------------------
  // What the warning means
  // ------------------------------------------------------------------

  predicate AllZero(trials: seq<Trial>) {
    forall t <- trials :: t.validationScore.value == 0
  }

  predicate AllRejected(trials: seq<Trial>) {
    forall t <- trials :: t.validationScore.rejected.Some?
  }

  lemma TrialScores(st: Strategy, candles: Series, split: DataSplit, grids: seq<seq<int>>, r: Report)
    requires SplitRefused(split).None? && split.totalBars == |candles|
    requires IsReport(r, st, candles, split, grids)
    ensures forall t <- r.trials :: t.validationScore.value >= 0
                                    && (t.validationScore.rejected.Some? ==> t.validationScore.value == 0)
  {
    forall t <- r.trials
      ensures t.validationScore.value >= 0 && (t.validationScore.rejected.Some? ==> t.validationScore.value == 0)
    {
      var i :| 0 <= i < |r.trials| && r.trials[i] == t;
    }
  }

  /** The warning is issued exactly when every score is zero and the first candidate was rejected. */
  lemma WarnedIff(st: Strategy, candles: Series, split: DataSplit, grids: seq<seq<int>>, r: Report)
    requires SplitRefused(split).None? && split.totalBars == |candles|
    requires IsReport(r, st, candles, split, grids)
    ensures r.warned <==> r.trials != [] && AllZero(r.trials) && r.trials[0].validationScore.rejected.Some?
  {
    TrialScores(st, candles, split, grids, r);
    if r.best.Some? {
      var k :| IsFirstMaximum(ValidationValues(r.trials), k) && r.best == Some(r.trials[k]);
      assert r.trials[k] in r.trials && r.trials[0] in r.trials;
      assert ValidationValues(r.trials)[0] <= ValidationValues(r.trials)[k];
      if r.warned {
        assert k == 0;
        forall t <- r.trials
          ensures t.validationScore.value == 0
        {
          var i :| 0 <= i < |r.trials| && r.trials[i] == t;
          assert ValidationValues(r.trials)[i] <= ValidationValues(r.trials)[k];
        }
      }
      if AllZero(r.trials) {
        assert k == 0;
      }
    }
  }

  /** Too few trades, or none to speak of: what the objective's gate rejects. */
  predicate IsGated(m: Option<Metrics>) {
    m.None? || m.value.totalTrades < MIN_TRADES
  }

  predicate ScoresNothing(m: Option<Metrics>) {
    IsGated(m) || EarnsNothing(m.value)
  }

  lemma ScoreMeans(m: Option<Metrics>)
    ensures ScoreObjective(m).rejected.Some? <==> IsGated(m)
    ensures ScoreObjective(m).value == 0 <==> ScoresNothing(m)
  {
    if !IsGated(m) {
      ScoresZeroIff(m.value);
    }
  }

  /** The backtests the selection looks at, candidate by candidate. */
  function Backtests(st: Strategy, candles: Series, split: DataSplit, grids: seq<seq<int>>): seq<Option<Metrics>>
    requires SplitRefused(split).None? && split.totalBars == |candles|
  {
    var candidates := Candidates(st, Product(grids));
    var validation := candles[split.validationStart..split.validationEnd];
    seq(|candidates|, i requires 0 <= i < |candidates| => st.backtest(validation, candidates[i]))
  }

  lemma TrialsMean(st: Strategy, candles: Series, split: DataSplit, grids: seq<seq<int>>, r: Report)
    requires SplitRefused(split).None? && split.totalBars == |candles|
    requires IsReport(r, st, candles, split, grids)
    ensures var tests := Backtests(st, candles, split, grids);
            && |r.trials| == |tests|
            && (forall i :: 0 <= i < |tests| ==>
                  && (r.trials[i].validationScore.rejected.Some? <==> IsGated(tests[i]))
                  && (r.trials[i].validationScore.value == 0 <==> ScoresNothing(tests[i])))
            && (AllRejected(r.trials) <==> forall i :: 0 <= i < |tests| ==> IsGated(tests[i]))
            && (AllZero(r.trials) <==> forall i :: 0 <= i < |tests| ==> ScoresNothing(tests[i]))
  {
    var tests := Backtests(st, candles, split, grids);
    forall i | 0 <= i < |tests|
      ensures r.trials[i].validationScore.rejected.Some? <==> IsGated(tests[i])
      ensures r.trials[i].validationScore.value == 0 <==> ScoresNothing(tests[i])
      ensures r.trials[i] in r.trials
    {
      ScoreMeans(tests[i]);
    }
  }

  /**
    In terms of the backtests: the warning is issued exactly when the first candidate is gated
    and no candidate earns anything. It says that every candidate was rejected, and that is
    false exactly when one of them traded enough to pass the gate.
   */
  lemma WarningIsFalseIff(st: Strategy, candles: Series, split: DataSplit, grids: seq<seq<int>>, r: Report)
    requires SplitRefused(split).None? && split.totalBars == |candles|
    requires IsReport(r, st, candles, split, grids)
    ensures var tests := Backtests(st, candles, split, grids);
            && (r.warned <==> tests != [] && IsGated(tests[0])
                              && forall i :: 0 <= i < |tests| ==> ScoresNothing(tests[i]))
            && (r.warned && !AllRejected(r.trials)
                <==> && (exists i :: 0 <= i < |tests| && !IsGated(tests[i]))
                     && tests != [] && IsGated(tests[0])
                     && forall i :: 0 <= i < |tests| ==> ScoresNothing(tests[i]))
  {
    TrialsMean(st, candles, split, grids, r);
    WarnedIff(st, candles, split, grids, r);
  }

  const WORTHLESS := Metrics(MIN_TRADES, -5.0, Some(0.5), 30.0, 12)

  /** One candidate without metrics, then one that traded and earned nothing. */
  function Misleading(): Strategy {
    Strategy((c: Combination) => true,
             (candles: Series, c: Combination) => if c == [1] then None else Some(WORTHLESS))
  }

  /** A report can be warned about although a candidate passed the gate. */
  lemma AWarningCanBeFalse(candles: Series, split: DataSplit, r: Report)
    requires SplitRefused(split).None? && split.totalBars == |candles|
    requires IsReport(r, Misleading(), candles, split, [[1, 2]])
    ensures r.warned && !AllRejected(r.trials)
  {
    TwoCandidates();
    var tests := Backtests(Misleading(), candles, split, [[1, 2]]);
    assert tests == [None, Some(WORTHLESS)];
    assert !IsGated(tests[1]) && EarnsNothing(WORTHLESS);
    WarningIsFalseIff(Misleading(), candles, split, [[1, 2]], r);
  }

  lemma TwoCandidates()
    ensures Candidates(Misleading(), Product([[1, 2]])) == [[1], [2]]
  {
    var grids := [[1, 2]];
    assert Product(grids[1..]) == [[]];
    var tails: seq<Combination> := [[]];
    EachWithIs(1, tails);
    EachWithIs(2, tails);
    assert [1] + tails[0] == [1] && [2] + tails[0] == [2];
    assert EachWith(1, tails) == [[1]] && EachWith(2, tails) == [[2]];
    assert grids[0][1..] == [2] && [2][1..] == [];
    assert Prepended([2], tails) == [[2]] + Prepended([2][1..], tails);
    assert Prepended([1, 2], tails) == [[1]] + Prepended([1, 2][1..], tails);
    assert [1, 2][1..] == [2];
    assert Product(grids) == [[1], [2]];
    var p := Product(grids);
    assert p[..1] == [[1]] && p[..1][..0] == [];
    assert Candidates(Misleading(), p[..1]) == [[1]];
  }

  // ------------------------------------------------------------------
  // No look-ahead
  // ------------------------------------------------------------------

  /** A fold is determined by the bars of its two windows. */
  lemma SameFold(st: Strategy, a: Series, b: Series, w: Window, candidates: seq<Combination>, f: Fold, g: Fold)
    requires IsFold(f, st, a, w, candidates) && IsFold(g, st, b, w, candidates)
    requires a[w.trainStart..w.trainEnd] == b[w.trainStart..w.trainEnd]
    ensures f.selected == g.selected && f.trainScore == g.trainScore
    ensures a[w.validationStart..w.validationEnd] == b[w.validationStart..w.validationEnd] ==> f == g
  {
    var bars := a[w.trainStart..w.trainEnd];
    var j :| IsSelection(st, bars, candidates, f.selected, j);
    var k :| IsSelection(st, bars, candidates, g.selected, k);
    FirstMaximumIsUnique(TrainValues(st, bars, candidates), j, k);
  }

  /** Two series agreeing before a fold's training end select the same there and in every earlier fold. */
  lemma NoLookAhead(st: Strategy, a: Series, b: Series, train: nat, validation: nat, step: nat,
                    candidates: seq<Combination>, f: seq<Fold>, g: seq<Fold>, k: nat, i: nat)
    requires step > 0 && i <= k
    requires AreFolds(f, st, a, Windows(|a|, train, validation, step), candidates) && i < |f|
    requires AreFolds(g, st, b, Windows(|b|, train, validation, step), candidates) && i < |g|
    requires var end := WindowAt(k, train, validation, step).trainEnd;
             end <= |a| && end <= |b| && a[..end] == b[..end]
    ensures f[i].selected == g[i].selected && f[i].trainScore == g[i].trainScore
  {
    var end := WindowAt(k, train, validation, step).trainEnd;
    var w := WindowAt(i, train, validation, step);
    MulMonotone(i, k, step);
    SliceOfPrefix(a, w.trainStart, w.trainEnd, end);
    SliceOfPrefix(b, w.trainStart, w.trainEnd, end);
    SameFold(st, a, b, w, candidates, f[i], g[i]);
  }

  /** A run on the first bars yields the first folds of the run on all of them, scores included. */
  lemma FoldsOfAPrefix(st: Strategy, a: Series, n: nat, train: nat, validation: nat, step: nat,
                       candidates: seq<Combination>, f: seq<Fold>, g: seq<Fold>)
    requires step > 0 && n <= |a|
    requires AreFolds(f, st, a[..n], Windows(n, train, validation, step), candidates)
    requires AreFolds(g, st, a, Windows(|a|, train, validation, step), candidates)
    ensures f <= g
  {
    WindowsOfAPrefix(n, |a|, train, validation, step);
    forall i | 0 <= i < |f|
      ensures f[i] == g[i]
    {
      FoldOfAPrefix(st, a, n, WindowAt(i, train, validation, step), candidates, f[i], g[i]);
    }
  }

  lemma FoldOfAPrefix(st: Strategy, a: Series, n: nat, w: Window, candidates: seq<Combination>, f: Fold, g: Fold)
    requires n <= |a| && IsFold(f, st, a[..n], w, candidates) && IsFold(g, st, a, w, candidates)
    ensures f == g
  {
    SliceOfPrefix(a, w.trainStart, w.trainEnd, n);
    SliceOfPrefix(a, w.validationStart, w.validationEnd, n);
    SameFold(st, a[..n], a, w, candidates, f, g);
  }

  /** Which set won most folds does not depend on the order of the folds. */
  lemma MostSelectedIsUnique(won: multiset<Combination>, a: Combination, b: Combination)
    requires IsMostSelected(won, a) && IsMostSelected(won, b)
    ensures a == b
  {
    LexLessIsTotal(a, b);
  }
}
