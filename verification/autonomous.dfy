/** The autonomous loop: its arming, its counters and its bounded decision log. */
module Autonomous {
  import opened Common

  datatype Action = Skipped | NoSignal | Managed | Closed | Refused | Entered

  /** What evaluating one symbol came to: one decision, and whether it counts as a failure. */
  datatype Outcome = Outcome(action: Action, failed: bool)

  datatype Decision = Decision(sequence: nat, symbol: Option<Symbol>, action: Action)

  datatype Evaluation = Evaluation(symbol: Symbol, failed: bool)

  datatype Round = Round(evaluated: nat, failures: nat)

  // ------------------------------------------------------------------
  // What the counters count
  // ------------------------------------------------------------------

  /** How many of the symbol's most recent evaluations failed in a row. */
  function Trailing(evaluations: seq<Evaluation>, s: Symbol): nat {
    if evaluations == [] then 0
    else
      var last := evaluations[|evaluations| - 1];
      var before := evaluations[..|evaluations| - 1];
      if last.symbol != s then Trailing(before, s)
      else if last.failed then Trailing(before, s) + 1
      else 0
  }

  /** Everything it evaluated failed, and it did evaluate something. */
  predicate IsOutage(r: Round) {
    r.evaluated > 0 && r.failures >= r.evaluated
  }

  function TrailingOutages(rounds: seq<Round>): nat {
    if rounds == [] then 0
    else if IsOutage(rounds[|rounds| - 1]) then TrailingOutages(rounds[..|rounds| - 1]) + 1
    else 0
  }

  /** No symbol was ever evaluated after its failures in a row reached the ceiling. */
  predicate NeverAgain(evaluations: seq<Evaluation>, ceiling: nat) {
    evaluations == [] ||
    (var n := |evaluations| - 1;
     Trailing(evaluations[..n], evaluations[n].symbol) < ceiling && NeverAgain(evaluations[..n], ceiling))
  }

  lemma NextEvaluation(evaluations: seq<Evaluation>, e: Evaluation, ceiling: nat)
    ensures forall s :: Trailing(evaluations + [e], s)
              == if e.symbol != s then Trailing(evaluations, s)
                 else if e.failed then Trailing(evaluations, s) + 1 else 0
    ensures NeverAgain(evaluations + [e], ceiling)
            <==> NeverAgain(evaluations, ceiling) && Trailing(evaluations, e.symbol) < ceiling
  {
    assert (evaluations + [e])[..|evaluations|] == evaluations;
  }

  function Last<T>(s: seq<T>, n: nat): seq<T> {
    if |s| <= n then s else s[|s| - n..]
  }

  predicate Numbered(recorded: seq<Decision>) {
    forall i :: 0 <= i < |recorded| ==> recorded[i].sequence == i + 1
  }

  // ------------------------------------------------------------------
  // Arming
  // ------------------------------------------------------------------

  /** The background task: never made, running, or returned after a failure. */
  datatype Background = NoTask | Running | Returned

  datatype Control = Control(armed: bool, failed: bool, task: Background)

  datatype ArmError = NotPermitted | PaperDisabled

  datatype Request = Arm(enabled: bool) | Start | Stop

  predicate MayArm(permitted: bool, paper: bool) {
    permitted && paper
  }

  function Answered(c: Control, r: Request, permitted: bool, paper: bool): Control {
    match r
    case Arm(enabled) =>
      if !enabled then c.(armed := false)
      else if MayArm(permitted, paper) then c.(armed := true, failed := false)
      else c
    case Start => if c.task.NoTask? && permitted then c.(task := Running) else c
    case Stop => c.(armed := false, task := NoTask)
  }

  function AllAnswered(c: Control, rs: seq<Request>, permitted: bool, paper: bool): Control
    decreases |rs|
  {
    if rs == [] then c else AllAnswered(Answered(c, rs[0], permitted, paper), rs[1..], permitted, paper)
  }

  /** A turn of the supervisor: an exception in an armed one records itself, disarms and ends the task. */
  function Turned(c: Control, raises: bool): Control {
    if c.task.Running? && c.armed && raises then Control(false, true, Returned) else c
  }

  /** What comes the loop's way: requests, and the turns of its own task. */
  datatype Happening = Asked(request: Request) | Turns(raises: bool)

  function Happened(c: Control, h: Happening, permitted: bool, paper: bool): Control {
    match h
    case Asked(r) => Answered(c, r, permitted, paper)
    case Turns(raises) => Turned(c, raises)
  }

  function AllHappened(c: Control, hs: seq<Happening>, permitted: bool, paper: bool): Control {
    if hs == [] then c
    else Happened(AllHappened(c, hs[..|hs| - 1], permitted, paper), hs[|hs| - 1], permitted, paper)
  }

  // ------------------------------------------------------------------
  // The loop
  // ------------------------------------------------------------------

  class AutonomousLoop {
    const symbols: seq<Symbol>
    const permitted: bool
    const paperEnabled: bool
    const maxSymbols: nat
    const maxFailures: nat
    const outageIterations: nat
    const maxLog: nat

    var armed: bool
    var failed: bool
    var task: Background
    var decisions: seq<Decision>
    var sequence: nat
    var iterations: nat
    var consecutive: map<Symbol, nat>
    var excluded: set<Symbol>
    var outages: nat

    /** Everything ever evaluated, finished and recorded. */
    ghost var evaluations: seq<Evaluation>
    ghost var rounds: seq<Round>
    ghost var recorded: seq<Decision>

    predicate Configured() {
      && maxFailures >= 1 && outageIterations >= 1 && maxLog >= 10
      && forall i, j :: 0 <= i < j < |symbols| ==> symbols[i] != symbols[j]
    }

    ghost predicate CountersAgree()
      reads this
    {
      && (forall s :: (if s in consecutive then consecutive[s] else 0) == Trailing(evaluations, s))
      && (forall s :: s in excluded <==> Trailing(evaluations, s) >= maxFailures)
      && NeverAgain(evaluations, maxFailures)
    }

    ghost predicate LogAgrees()
      reads this
    {
      sequence == |recorded| && Numbered(recorded) && decisions == Last(recorded, maxLog)
    }

    ghost predicate Valid()
      reads this
    {
      && Configured() && CountersAgree() && LogAgrees()
      && outages == TrailingOutages(rounds) && iterations == |rounds|
      && !(armed && failed)
      && (armed ==> permitted && paperEnabled)
    }

    function Controls(): Control
      reads this
    {
      Control(armed, failed, task)
    }

    constructor (symbols: seq<Symbol>, permitted: bool, paperEnabled: bool, maxSymbols: nat,
                 maxFailures: nat, outageIterations: nat, maxLog: nat)
      requires maxFailures >= 1 && outageIterations >= 1 && maxLog >= 10
      requires forall i, j :: 0 <= i < j < |symbols| ==> symbols[i] != symbols[j]
      ensures Valid() && Controls() == Control(false, false, NoTask)
      ensures evaluations == [] && rounds == [] && recorded == []
    {
      this.symbols, this.permitted, this.paperEnabled := symbols, permitted, paperEnabled;
      this.maxSymbols, this.maxFailures := maxSymbols, maxFailures;
      this.outageIterations, this.maxLog := outageIterations, maxLog;
      armed, failed, task := false, false, NoTask;
      decisions, sequence, iterations, consecutive, excluded, outages := [], 0, 0, map[], {}, 0;
      evaluations, rounds, recorded := [], [], [];
    }

    predicate VenueOutage()
      reads this
    {
      outages >= outageIterations
    }

    /** Outage is reported exactly while each of the last finished iterations evaluated something and failed it all. */
    lemma OutageMeans()
      requires Valid()
      ensures VenueOutage() <==>
                outageIterations <= |rounds|
                && forall i :: |rounds| - outageIterations <= i < |rounds| ==>
                     rounds[i].evaluated > 0 && rounds[i].failures >= rounds[i].evaluated
    {
      OutageIff(rounds, outageIterations);
    }

    /** A symbol is excluded exactly when its last evaluations, as many as the ceiling, all failed. */
    lemma ExcludedMeans(s: Symbol)
      requires Valid()
      ensures s in excluded <==>
                var mine := Of(evaluations, s);
                maxFailures <= |mine| && forall i :: |mine| - maxFailures <= i < |mine| ==> mine[i].failed
      ensures Trailing(evaluations, s) <= maxFailures
    {
      TrailingCountsTheLastFailures(evaluations, s, maxFailures);
      CountStopsAtTheCeiling(evaluations, maxFailures, s);
    }

    function Live(s: seq<Symbol>): seq<Symbol>
      reads this`excluded
    {
      if s == [] then [] else (if s[0] in excluded then [] else [s[0]]) + Live(s[1..])
    }

    /** What an iteration looks at: the first configured symbols that are not excluded, up to the limit. */
    function Universe(): seq<Symbol>
      reads this`excluded
    {
      var live := Live(symbols);
      live[..Min(|live|, maxSymbols)]
    }

    /** What an iteration looks at stands in configured order, and is all that is live and within the limit. */
    lemma UniverseIs() returns (at: seq<nat>)
      requires Configured()
      ensures IsUniverse(at, symbols, excluded, maxSymbols)
      ensures |at| == |Universe()| && forall k :: 0 <= k < |at| ==> Universe()[k] == symbols[at[k]]
    {
      LiveStands(symbols);
      FirstPlacesAre(symbols, excluded, maxSymbols);
      at := FirstPlaces(symbols, excluded, maxSymbols);
    }

    lemma {:induction false} LiveStands(s: seq<Symbol>)
      ensures var places := LivePlaces(s, excluded, |s|);
              |Live(s)| == |places| && forall k :: 0 <= k < |places| ==> Live(s)[k] == s[places[k]]
    {
      LivePlacesAre(s, excluded, |s|);
      if s != [] {
        var n := |s| - 1;
        LiveStands(s[..n]);
        LivePlacesAre(s[..n], excluded, n);
        SamePlaces(s, s[..n], excluded, n);
        LiveOfOneMore(s[..n], s[n]);
        assert s == s[..n] + [s[n]];
      }
    }

    lemma {:induction false} LiveOfOneMore(s: seq<Symbol>, x: Symbol)
      ensures Live(s + [x]) == Live(s) + if x in excluded then [] else [x]
    {
      if s != [] {
        assert (s + [x])[1..] == s[1..] + [x];
        LiveOfOneMore(s[1..], x);
      }
    }

    method Arm(enabled: bool) returns (r: Result<bool, ArmError>)
      requires Valid()
      modifies this`armed, this`failed
      ensures Valid()
      ensures r == (if enabled && !permitted then Err(NotPermitted)
                    else if enabled && !paperEnabled then Err(PaperDisabled)
                    else Ok(enabled))
      ensures Controls() == Answered(old(Controls()), Request.Arm(enabled), permitted, paperEnabled)
    {
      if enabled {
        if !permitted {
          return Err(NotPermitted);
        }
        if !paperEnabled {
          return Err(PaperDisabled);
        }
        failed := false;
      }
      armed := enabled;
      r := Ok(enabled);
    }

    method Start()
      requires Valid()
      modifies this`task
      ensures Valid() && Controls() == Answered(old(Controls()), Request.Start, permitted, paperEnabled)
    {
      if !task.NoTask? || !permitted {
        return;
      }
      task := Running;
    }

    method Stop()
      requires Valid()
      modifies this`armed, this`task
      ensures Valid() && Controls() == Answered(old(Controls()), Request.Stop, permitted, paperEnabled)
    {
      armed := false;
      task := NoTask;
    }

    /** One more decision, numbered; a full log gives up its first. */
    method Record(symbol: Option<Symbol>, action: Action)
      requires Configured() && LogAgrees()
      modifies this`decisions, this`sequence, this`recorded
      ensures LogAgrees()
      ensures recorded == old(recorded) + [Decision(old(sequence) + 1, symbol, action)]
    {
      sequence := sequence + 1;
      var decision := Decision(sequence, symbol, action);
      recorded := recorded + [decision];
      decisions := decisions + [decision];
      if |decisions| > maxLog {
        decisions := decisions[|decisions| - maxLog..];
      }
    }

    method NoteOutcome(symbol: Symbol, failure: bool)
      requires Configured() && CountersAgree() && symbol !in excluded
      modifies this`consecutive, this`excluded, this`evaluations
      ensures CountersAgree()
      ensures evaluations == old(evaluations) + [Evaluation(symbol, failure)]
      ensures old(excluded) <= excluded <= old(excluded) + {symbol}
    {
      NextEvaluation(evaluations, Evaluation(symbol, failure), maxFailures);
      evaluations := evaluations + [Evaluation(symbol, failure)];
      if failure {
        var count := (if symbol in consecutive then consecutive[symbol] else 0) + 1;
        consecutive := consecutive[symbol := count];
        if count >= maxFailures {
          excluded := excluded + {symbol};
        }
      } else {
        consecutive := consecutive - {symbol};
      }
    }

    method FinishIteration(failures: nat, evaluated: nat)
      requires outages == TrailingOutages(rounds) && iterations == |rounds|
      modifies this`iterations, this`outages, this`rounds
      ensures outages == TrailingOutages(rounds) && iterations == |rounds|
      ensures rounds == old(rounds) + [Round(evaluated, failures)]
    {
      ghost var was := rounds;
      rounds := rounds + [Round(evaluated, failures)];
      assert rounds[..|was|] == was;
      iterations := iterations + 1;
      if evaluated > 0 && failures >= evaluated {
        outages := outages + 1;
      } else {
        outages := 0;
      }
    }

    /**
      One iteration. `closed` is what the management pass closed, None when it raises;
      `interrupted` says after which symbol refreshing the account raises. The result is
      whether the iteration finished; `at` is where the symbols it looks at stand among the
      configured ones: those that are not excluded, as long as fewer than the limit of them came
      before, in configured order.
     */
    method RunOnce(closed: Option<seq<Symbol>>, outcomes: Symbol -> Outcome, interrupted: Option<nat>)
      returns (finished: bool, ghost at: seq<nat>)
      requires Valid()
      modifies this`decisions, this`sequence, this`recorded, this`consecutive, this`excluded, this`evaluations
      modifies this`iterations, this`outages, this`rounds
      ensures Valid()
      ensures IsUniverse(at, symbols, old(excluded), maxSymbols)
      ensures at == [] ==>
                finished && evaluations == old(evaluations) && rounds == old(rounds) + [Round(0, 0)]
                && recorded == old(recorded) + [Decision(|old(recorded)| + 1, None, Skipped)]
      ensures at != [] && closed.None? ==>
                !finished && evaluations == old(evaluations) && recorded == old(recorded) && rounds == old(rounds)
      ensures at != [] && closed.Some? ==>
                && (finished <==> interrupted.Some? ==> interrupted.value >= |at|)
                && var n := if finished then |at| else interrupted.value + 1;
                   && Evaluated(old(evaluations), evaluations, symbols, at[..n], outcomes)
                   && Logged(old(recorded), recorded, closed.value, symbols, at[..n], outcomes)
      ensures at != [] && closed.Some? ==>
                rounds == old(rounds) + if finished then [Round(|at|, |FailedAt(symbols, at, outcomes)|)] else []
    {
      var universe := Universe();
      at := UniverseIs();
      if universe == [] {
        Record(None, Skipped);
        FinishIteration(0, 0);
        return true, at;
      }
      if closed.None? {
        return false, at;
      }
      UniverseIsLive(at);
      finished := RunPass(universe, at, closed.value, outcomes, interrupted);
    }

    /** Manage, evaluate, and count the iteration unless an exception ended the pass. */
    method RunPass(universe: seq<Symbol>, ghost at: seq<nat>, closed: seq<Symbol>, outcomes: Symbol -> Outcome,
                   interrupted: Option<nat>)
      returns (finished: bool)
      requires Valid() && |universe| == |at| > 0
      requires forall k :: 0 <= k < |at| ==> at[k] < |symbols| && universe[k] == symbols[at[k]]
      requires forall i :: 0 <= i < |universe| ==> universe[i] !in excluded
      requires forall i, j :: 0 <= i < j < |universe| ==> universe[i] != universe[j]
      modifies this`decisions, this`sequence, this`recorded, this`consecutive, this`excluded, this`evaluations
      modifies this`iterations, this`outages, this`rounds
      ensures Valid()
      ensures finished <==> interrupted.Some? ==> interrupted.value >= |at|
      ensures var n := if finished then |at| else interrupted.value + 1;
              && Evaluated(old(evaluations), evaluations, symbols, at[..n], outcomes)
              && Logged(old(recorded), recorded, closed, symbols, at[..n], outcomes)
      ensures rounds == old(rounds) + if finished then [Round(|at|, |FailedAt(symbols, at, outcomes)|)] else []
    {
      finished := interrupted.None? || interrupted.value >= |universe|;
      var failures := ManageAndEvaluate(universe, at, closed, outcomes, Reach(universe, interrupted));
      assert at[..|at|] == at;
      if finished {
        FinishIteration(failures, |universe|);
      }
    }

    lemma UniverseIsLive(at: seq<nat>)
      requires Configured() && IsUniverse(at, symbols, excluded, maxSymbols)
      requires |at| == |Universe()| && forall k :: 0 <= k < |at| ==> Universe()[k] == symbols[at[k]]
      ensures forall i :: 0 <= i < |Universe()| ==> Universe()[i] !in excluded
      ensures forall i, j :: 0 <= i < j < |Universe()| ==> Universe()[i] != Universe()[j]
    {
      assert forall k :: 0 <= k < |at| ==> at[k] in at;
    }

    /** Management first, so a position that should close no longer occupies a slot at entry. */
    method ManageAndEvaluate(universe: seq<Symbol>, ghost at: seq<nat>, closed: seq<Symbol>,
                             outcomes: Symbol -> Outcome, reach: nat)
      returns (failures: nat)
      requires Configured() && CountersAgree() && LogAgrees() && reach <= |universe| == |at|
      requires forall k :: 0 <= k < |at| ==> at[k] < |symbols| && universe[k] == symbols[at[k]]
      requires forall i :: 0 <= i < |universe| ==> universe[i] !in excluded
      requires forall i, j :: 0 <= i < j < |universe| ==> universe[i] != universe[j]
      modifies this`decisions, this`sequence, this`recorded, this`consecutive, this`excluded, this`evaluations
      ensures CountersAgree() && LogAgrees()
      ensures Evaluated(old(evaluations), evaluations, symbols, at[..reach], outcomes)
      ensures Logged(old(recorded), recorded, closed, symbols, at[..reach], outcomes)
      ensures failures == |FailedAt(symbols, at[..reach], outcomes)|
    {
      RecordCloses(closed);
      failures := EvaluateAll(universe, outcomes, reach);
      PassIs(symbols, at, universe, outcomes, old(evaluations), old(recorded), closed, reach);
    }

    method RecordCloses(closed: seq<Symbol>)
      requires Configured() && LogAgrees()
      modifies this`decisions, this`sequence, this`recorded
      ensures LogAgrees()
      ensures recorded == AfterCloses(old(recorded), closed, |closed|)
    {
      ghost var log := recorded;
      for i := 0 to |closed|
        invariant LogAgrees() && recorded == AfterCloses(log, closed, i)
      {
        Record(Some(closed[i]), Closed);
      }
    }

    /** The first `reach` symbols of the universe, in order: an exception ends the pass there. */
    method EvaluateAll(universe: seq<Symbol>, outcomes: Symbol -> Outcome, reach: nat) returns (failures: nat)
      requires Configured() && CountersAgree() && LogAgrees() && reach <= |universe|
      requires forall i :: 0 <= i < |universe| ==> universe[i] !in excluded
      requires forall i, j :: 0 <= i < j < |universe| ==> universe[i] != universe[j]
      modifies this`decisions, this`sequence, this`recorded, this`consecutive, this`excluded, this`evaluations
      ensures CountersAgree() && LogAgrees()
      ensures failures == Failures(universe, outcomes, reach)
      ensures evaluations == AfterEvaluations(old(evaluations), universe, outcomes, reach)
      ensures recorded == AfterDecisions(old(recorded), universe, outcomes, reach)
    {
      failures := 0;
      ghost var was, log := evaluations, recorded;
      for i := 0 to reach
        invariant CountersAgree() && LogAgrees()
        invariant evaluations == AfterEvaluations(was, universe, outcomes, i)
        invariant forall j :: i <= j < |universe| ==> universe[j] !in excluded
        invariant failures == Failures(universe, outcomes, i)
        invariant recorded == AfterDecisions(log, universe, outcomes, i)
      {
        var outcome := outcomes(universe[i]);
        EvaluateOne(universe[i], outcome);
        if outcome.failed {
          failures := failures + 1;
        }
      }
    }

    method EvaluateOne(symbol: Symbol, outcome: Outcome)
      requires Configured() && CountersAgree() && LogAgrees() && symbol !in excluded
      modifies this`decisions, this`sequence, this`recorded, this`consecutive, this`excluded, this`evaluations
      ensures CountersAgree() && LogAgrees()
      ensures evaluations == old(evaluations) + [Evaluation(symbol, outcome.failed)]
      ensures recorded == old(recorded) + [Decision(|old(recorded)| + 1, Some(symbol), outcome.action)]
      ensures old(excluded) <= excluded <= old(excluded) + {symbol}
    {
      Record(Some(symbol), outcome.action);
      NoteOutcome(symbol, outcome.failed);
    }

    /** One turn of the supervisor: iterate when armed; an exception is recorded, disarms and ends the task. */
    method Supervise(closed: Option<seq<Symbol>>, outcomes: Symbol -> Outcome, interrupted: Option<nat>)
      requires Valid() && task.Running?
      modifies this
      ensures Valid()
      ensures !old(armed) ==> rounds == old(rounds) && evaluations == old(evaluations)
      ensures Controls() == Turned(old(Controls()), |rounds| == |old(rounds)|)
    {
      if armed {
        var finished, _ := RunOnce(closed, outcomes, interrupted);
        if !finished {
          failed, armed, task := true, false, Returned;
        }
      }
    }
  }

  // ------------------------------------------------------------------
  // What an iteration looks at
  // ------------------------------------------------------------------

  /** The places before the `i`-th whose symbol is not excluded. */
  function LiveBefore(symbols: seq<Symbol>, excluded: set<Symbol>, i: nat): set<nat>
    requires i <= |symbols|
  {
    set j: nat | j < i && symbols[j] !in excluded
  }

  /** These places, in order: of every symbol that is not excluded and has fewer than `limit` such before it. */
  ghost predicate IsUniverse(at: seq<nat>, symbols: seq<Symbol>, excluded: set<Symbol>, limit: nat) {
    && (forall k :: 0 <= k < |at| ==> at[k] < |symbols|)
    && (forall k, l :: 0 <= k < l < |at| ==> at[k] < at[l])
    && forall i :: 0 <= i < |symbols| ==>
         (i in at <==> symbols[i] !in excluded && |LiveBefore(symbols, excluded, i)| < limit)
  }

  function LivePlaces(symbols: seq<Symbol>, excluded: set<Symbol>, n: nat): (places: seq<nat>)
    requires n <= |symbols|
    ensures forall k :: 0 <= k < |places| ==> places[k] < n
  {
    if n == 0 then []
    else LivePlaces(symbols, excluded, n - 1) + if symbols[n - 1] in excluded then [] else [n - 1]
  }

  lemma {:induction false} LivePlacesAre(symbols: seq<Symbol>, excluded: set<Symbol>, n: nat)
    requires n <= |symbols|
    ensures var places := LivePlaces(symbols, excluded, n);
            && (forall k, l :: 0 <= k < l < |places| ==> places[k] < places[l])
            && |places| == |LiveBefore(symbols, excluded, n)|
  {
    if n == 0 {
      assert LiveBefore(symbols, excluded, 0) == {};
    } else {
      LivePlacesAre(symbols, excluded, n - 1);
      assert LiveBefore(symbols, excluded, n)
             == LiveBefore(symbols, excluded, n - 1) + if symbols[n - 1] in excluded then {} else {n - 1};
    }
  }

  lemma {:induction false} SamePlaces(a: seq<Symbol>, b: seq<Symbol>, excluded: set<Symbol>, n: nat)
    requires n <= |a| && n <= |b| && a[..n] == b[..n]
    ensures LivePlaces(a, excluded, n) == LivePlaces(b, excluded, n)
  {
    if n > 0 {
      assert a[..n][..n - 1] == b[..n][..n - 1] && a[..n][n - 1] == b[..n][n - 1];
      assert a[..n - 1] == a[..n][..n - 1] && b[..n - 1] == b[..n][..n - 1];
      SamePlaces(a, b, excluded, n - 1);
    }
  }

  lemma {:induction false} LivePlaceOf(symbols: seq<Symbol>, excluded: set<Symbol>, n: nat, i: nat)
    requires i < n <= |symbols| && symbols[i] !in excluded
    ensures var k, places := |LiveBefore(symbols, excluded, i)|, LivePlaces(symbols, excluded, n);
            k < |places| && places[k] == i
  {
    if i < n - 1 {
      LivePlaceOf(symbols, excluded, n - 1, i);
    } else {
      LivePlacesAre(symbols, excluded, i);
    }
  }

  function FirstPlaces(symbols: seq<Symbol>, excluded: set<Symbol>, limit: nat): seq<nat> {
    var places := LivePlaces(symbols, excluded, |symbols|);
    places[..Min(|places|, limit)]
  }

  lemma FirstPlacesAre(symbols: seq<Symbol>, excluded: set<Symbol>, limit: nat)
    ensures IsUniverse(FirstPlaces(symbols, excluded, limit), symbols, excluded, limit)
  {
    var places, at := LivePlaces(symbols, excluded, |symbols|), FirstPlaces(symbols, excluded, limit);
    LivePlacesAre(symbols, excluded, |symbols|);
    forall i | 0 <= i < |symbols|
      ensures i in at <==> symbols[i] !in excluded && |LiveBefore(symbols, excluded, i)| < limit
    {
      if symbols[i] !in excluded {
        PlacedIff(symbols, excluded, limit, i);
      } else {
        NoPlaceFor(symbols, excluded, |symbols|, i);
      }
    }
  }

  lemma PlacedIff(symbols: seq<Symbol>, excluded: set<Symbol>, limit: nat, i: nat)
    requires i < |symbols| && symbols[i] !in excluded
    ensures i in FirstPlaces(symbols, excluded, limit) <==> |LiveBefore(symbols, excluded, i)| < limit
  {
    var places, at := LivePlaces(symbols, excluded, |symbols|), FirstPlaces(symbols, excluded, limit);
    var k := |LiveBefore(symbols, excluded, i)|;
    LivePlacesAre(symbols, excluded, |symbols|);
    LivePlaceOf(symbols, excluded, |symbols|, i);
    if k < |at| {
      assert at[k] == i;
    } else {
      assert forall l :: 0 <= l < |at| ==> at[l] == places[l] < places[k];
    }
  }

  lemma {:induction false} NoPlaceFor(symbols: seq<Symbol>, excluded: set<Symbol>, n: nat, i: nat)
    requires i < |symbols| && symbols[i] in excluded && n <= |symbols|
    ensures i !in LivePlaces(symbols, excluded, n)
  {
    if n > 0 {
      NoPlaceFor(symbols, excluded, n - 1, i);
    }
  }

  // ------------------------------------------------------------------
  // What an iteration leaves
  // ------------------------------------------------------------------

  /** One evaluation more for each of these places, in order. */
  predicate Evaluated(before: seq<Evaluation>, after: seq<Evaluation>, symbols: seq<Symbol>, at: seq<nat>,
                      outcomes: Symbol -> Outcome)
    requires forall k :: 0 <= k < |at| ==> at[k] < |symbols|
  {
    && before <= after && |after| == |before| + |at|
    && forall k :: 0 <= k < |at| ==>
         after[|before| + k] == Evaluation(symbols[at[k]], outcomes(symbols[at[k]]).failed)
  }

  /** One decision more for each closed position and then for each of these places, numbered on. */
  predicate Logged(before: seq<Decision>, after: seq<Decision>, closed: seq<Symbol>, symbols: seq<Symbol>, at: seq<nat>,
                   outcomes: Symbol -> Outcome)
    requires forall k :: 0 <= k < |at| ==> at[k] < |symbols|
  {
    var n := |before| + |closed|;
    && before <= after && |after| == n + |at|
    && (forall k :: 0 <= k < |closed| ==> after[|before| + k] == Decision(|before| + k + 1, Some(closed[k]), Closed))
    && forall k :: 0 <= k < |at| ==>
         after[n + k] == Decision(n + k + 1, Some(symbols[at[k]]), outcomes(symbols[at[k]]).action)
  }

  /** Which of these places failed. */
  function FailedAt(symbols: seq<Symbol>, at: seq<nat>, outcomes: Symbol -> Outcome): set<nat>
    requires forall k :: 0 <= k < |at| ==> at[k] < |symbols|
  {
    set k: nat | k < |at| && outcomes(symbols[at[k]]).failed
  }

  lemma PassIs(symbols: seq<Symbol>, at: seq<nat>, universe: seq<Symbol>, outcomes: Symbol -> Outcome,
               evaluations: seq<Evaluation>, log: seq<Decision>, closed: seq<Symbol>, n: nat)
    requires |at| == |universe| && n <= |at|
    requires forall k :: 0 <= k < |at| ==> at[k] < |symbols| && universe[k] == symbols[at[k]]
    ensures Evaluated(evaluations, AfterEvaluations(evaluations, universe, outcomes, n), symbols, at[..n], outcomes)
    ensures Logged(log, AfterDecisions(AfterCloses(log, closed, |closed|), universe, outcomes, n), closed, symbols, at[..n],
                   outcomes)
    ensures Failures(universe, outcomes, n) == |FailedAt(symbols, at[..n], outcomes)|
  {
    EvaluationsAre(evaluations, universe, outcomes, n);
    ClosesAre(log, closed, |closed|);
    DecisionsAre(AfterCloses(log, closed, |closed|), universe, outcomes, n);
    FailuresAre(symbols, at, universe, outcomes, n);
  }

  lemma {:induction false} EvaluationsAre(before: seq<Evaluation>, symbols: seq<Symbol>, outcomes: Symbol -> Outcome, n: nat)
    requires n <= |symbols|
    ensures var after := AfterEvaluations(before, symbols, outcomes, n);
            && before <= after
            && forall k :: 0 <= k < n ==> after[|before| + k] == Evaluation(symbols[k], outcomes(symbols[k]).failed)
  {
    if n > 0 {
      EvaluationsAre(before, symbols, outcomes, n - 1);
    }
  }

  lemma {:induction false} ClosesAre(log: seq<Decision>, closed: seq<Symbol>, n: nat)
    requires n <= |closed|
    ensures var after := AfterCloses(log, closed, n);
            && log <= after
            && forall k :: 0 <= k < n ==> after[|log| + k] == Decision(|log| + k + 1, Some(closed[k]), Closed)
  {
    if n > 0 {
      ClosesAre(log, closed, n - 1);
    }
  }

  lemma {:induction false} DecisionsAre(log: seq<Decision>, symbols: seq<Symbol>, outcomes: Symbol -> Outcome, n: nat)
    requires n <= |symbols|
    ensures var after := AfterDecisions(log, symbols, outcomes, n);
            && log <= after
            && forall k :: 0 <= k < n ==>
                 after[|log| + k] == Decision(|log| + k + 1, Some(symbols[k]), outcomes(symbols[k]).action)
  {
    if n > 0 {
      DecisionsAre(log, symbols, outcomes, n - 1);
    }
  }

  lemma {:induction false} FailuresAre(symbols: seq<Symbol>, at: seq<nat>, universe: seq<Symbol>,
                                       outcomes: Symbol -> Outcome, n: nat)
    requires n <= |at| == |universe|
    requires forall k :: 0 <= k < |at| ==> at[k] < |symbols| && universe[k] == symbols[at[k]]
    ensures Failures(universe, outcomes, n) == |FailedAt(symbols, at[..n], outcomes)|
  {
    if n == 0 {
      assert FailedAt(symbols, at[..0], outcomes) == {};
    } else {
      FailuresAre(symbols, at, universe, outcomes, n - 1);
      assert FailedAt(symbols, at[..n], outcomes)
             == FailedAt(symbols, at[..n - 1], outcomes) + if outcomes(universe[n - 1]).failed then {n - 1} else {};
    }
  }

  /** How many symbols are evaluated before an exception, if any, ends the pass. */
  function Reach(universe: seq<Symbol>, interrupted: Option<nat>): (n: nat)
    ensures n <= |universe|
  {
    if interrupted.Some? then Min(interrupted.value + 1, |universe|) else |universe|
  }

  /** The log after one CLOSED decision for each of the first `n` closed positions. */
  function AfterCloses(log: seq<Decision>, closed: seq<Symbol>, n: nat): (after: seq<Decision>)
    requires n <= |closed|
    ensures |after| == |log| + n
  {
    if n == 0 then log
    else
      var before := AfterCloses(log, closed, n - 1);
      before + [Decision(|before| + 1, Some(closed[n - 1]), Closed)]
  }

  /** The log after one decision for each of the first `n` symbols. */
  function AfterDecisions(log: seq<Decision>, symbols: seq<Symbol>, outcomes: Symbol -> Outcome, n: nat)
    : (after: seq<Decision>)
    requires n <= |symbols|
    ensures |after| == |log| + n
  {
    if n == 0 then log
    else
      var before := AfterDecisions(log, symbols, outcomes, n - 1);
      before + [Decision(|before| + 1, Some(symbols[n - 1]), outcomes(symbols[n - 1]).action)]
  }

  /** The evaluations after the first `n` symbols. */
  function AfterEvaluations(before: seq<Evaluation>, symbols: seq<Symbol>, outcomes: Symbol -> Outcome, n: nat)
    : (after: seq<Evaluation>)
    requires n <= |symbols|
    ensures |after| == |before| + n
  {
    if n == 0 then before
    else AfterEvaluations(before, symbols, outcomes, n - 1)
         + [Evaluation(symbols[n - 1], outcomes(symbols[n - 1]).failed)]
  }

  function Failures(symbols: seq<Symbol>, outcomes: Symbol -> Outcome, n: nat): nat
    requires n <= |symbols|
  {
    if n == 0 then 0
    else Failures(symbols, outcomes, n - 1) + if outcomes(symbols[n - 1]).failed then 1 else 0
  }

  // ------------------------------------------------------------------
  // What the counters mean
  // ------------------------------------------------------------------

  /** Reaching the ceiling is final: the symbol is not evaluated again, and its count stands. */
  lemma {:induction false} ExclusionIsFinal(evaluations: seq<Evaluation>, ceiling: nat, s: Symbol, k: nat)
    requires NeverAgain(evaluations, ceiling) && k <= |evaluations| && Trailing(evaluations[..k], s) >= ceiling
    ensures forall i :: k <= i < |evaluations| ==> evaluations[i].symbol != s
    ensures Trailing(evaluations, s) == Trailing(evaluations[..k], s)
    decreases |evaluations|
  {
    var n := |evaluations| - 1;
    if k == |evaluations| {
      assert evaluations[..k] == evaluations;
    } else {
      assert evaluations[..n][..k] == evaluations[..k];
      ExclusionIsFinal(evaluations[..n], ceiling, s, k);
    }
  }

  /** So a symbol's count never passes the ceiling: it is dropped on the failure that reaches it. */
  lemma {:induction false} CountStopsAtTheCeiling(evaluations: seq<Evaluation>, ceiling: nat, s: Symbol)
    requires NeverAgain(evaluations, ceiling)
    ensures Trailing(evaluations, s) <= ceiling
  {
    if evaluations != [] {
      CountStopsAtTheCeiling(evaluations[..|evaluations| - 1], ceiling, s);
    }
  }

  /** Among the symbol's evaluations, the last `n` failed. */
  function Of(evaluations: seq<Evaluation>, s: Symbol): seq<Evaluation> {
    if evaluations == [] then []
    else
      var last := evaluations[|evaluations| - 1];
      Of(evaluations[..|evaluations| - 1], s) + if last.symbol == s then [last] else []
  }

  lemma {:induction false} TrailingCountsTheLastFailures(evaluations: seq<Evaluation>, s: Symbol, n: nat)
    ensures Trailing(evaluations, s) >= n
            <==> n <= |Of(evaluations, s)|
                 && forall i :: |Of(evaluations, s)| - n <= i < |Of(evaluations, s)| ==> Of(evaluations, s)[i].failed
  {
    if evaluations != [] {
      var last := evaluations[|evaluations| - 1];
      var before := evaluations[..|evaluations| - 1];
      if last.symbol == s {
        if n > 0 {
          TrailingCountsTheLastFailures(before, s, n - 1);
          var all := Of(evaluations, s);
          assert all == Of(before, s) + [last] && all[|all| - 1] == last;
          assert forall i :: 0 <= i < |all| - 1 ==> all[i] == Of(before, s)[i];
        }
      } else {
        TrailingCountsTheLastFailures(before, s, n);
        assert Of(evaluations, s) == Of(before, s);
      }
    }
  }

  /** An outage is reported exactly when each of the last `n` finished iterations failed everything. */
  lemma {:induction false} OutageIff(rounds: seq<Round>, n: nat)
    ensures TrailingOutages(rounds) >= n
            <==> n <= |rounds| && forall i :: |rounds| - n <= i < |rounds| ==> IsOutage(rounds[i])
  {
    if rounds != [] && n > 0 {
      OutageIff(rounds[..|rounds| - 1], n - 1);
    }
  }

  /** The log is the last `n` decisions, in sequence, with none missing between them. */
  lemma LogIsContiguous(recorded: seq<Decision>, n: nat, i: nat)
    requires Numbered(recorded) && i < |Last(recorded, n)|
    ensures |Last(recorded, n)| == Min(n, |recorded|)
    ensures Last(recorded, n)[i].sequence == |recorded| - |Last(recorded, n)| + i + 1
  {
  }

  predicate NoStops(rs: seq<Request>) {
    forall i :: 0 <= i < |rs| ==> !rs[i].Stop?
  }

  /** A start with no stop after it, and a stop before it unless no task was there to begin with. */
  predicate StartsAtLast(rs: seq<Request>, j: nat, fromNothing: bool)
    requires j < |rs|
  {
    rs[j].Start? && NoStops(rs[j..]) && (fromNothing || !NoStops(rs[..j]))
  }

  predicate StartsLast(rs: seq<Request>, fromNothing: bool) {
    exists j :: 0 <= j < |rs| && StartsAtLast(rs, j, fromNothing)
  }

  /** Where a task was there to begin with, only a stop before the start makes a difference. */
  lemma StartsAfterAStop(rs: seq<Request>)
    ensures StartsLast(rs, true) ==> NoStops(rs) || StartsLast(rs, false)
    ensures StartsLast(rs, false) ==> StartsLast(rs, true)
  {
    if j :| 0 <= j < |rs| && StartsAtLast(rs, j, true) {
      if NoStops(rs[..j]) {
        assert forall i :: j <= i < |rs| ==> rs[i] == rs[j..][i - j];
        assert forall i :: 0 <= i < j ==> rs[i] == rs[..j][i];
      } else {
        assert StartsAtLast(rs, j, false);
      }
    }
    if j :| 0 <= j < |rs| && StartsAtLast(rs, j, false) {
      assert StartsAtLast(rs, j, true);
    }
  }

  /**
    What keeps the loop's task running, or makes it run again after a failure has ended it:
    after any requests it runs exactly when it ran and was never stopped, or a permitted start
    follows the last stop. Arming has no part in it.
   */
  lemma {:induction false} RunsIff(c: Control, rs: seq<Request>, permitted: bool, paper: bool)
    ensures AllAnswered(c, rs, permitted, paper).task.Running?
            <==> (c.task.Running? && NoStops(rs)) || (permitted && StartsLast(rs, c.task.NoTask?))
    decreases |rs|
  {
    if rs != [] {
      RunsIff(Answered(c, rs[0], permitted, paper), rs[1..], permitted, paper);
      StopsFromFirst(rs);
      StartsFromFirst(rs, c.task.NoTask?);
      StartsAfterAStop(rs[1..]);
    }
  }

  lemma StopsFromFirst(rs: seq<Request>)
    requires rs != []
    ensures NoStops(rs) <==> !rs[0].Stop? && NoStops(rs[1..])
  {
    if !rs[0].Stop? && NoStops(rs[1..]) {
      assert forall i :: 1 <= i < |rs| ==> rs[i] == rs[1..][i - 1];
    }
  }

  lemma StartsOneLater(rs: seq<Request>, j: nat, fromNothing: bool)
    requires 0 < j < |rs|
    ensures StartsAtLast(rs, j, fromNothing) <==> StartsAtLast(rs[1..], j - 1, fromNothing || rs[0].Stop?)
  {
    assert rs[1..][j - 1..] == rs[j..];
    StopsFromFirst(rs[..j]);
    assert rs[..j][1..] == rs[1..][..j - 1];
  }

  /** The same question one request later. */
  lemma StartsFromFirst(rs: seq<Request>, fromNothing: bool)
    requires rs != []
    ensures StartsLast(rs, fromNothing)
            <==> (rs[0].Start? && NoStops(rs) && fromNothing) || StartsLast(rs[1..], fromNothing || rs[0].Stop?)
  {
    assert rs[0..] == rs && NoStops(rs[..0]);
    if j :| 0 <= j < |rs| && StartsAtLast(rs, j, fromNothing) {
      if j > 0 {
        StartsOneLater(rs, j, fromNothing);
      }
    }
    var rest, free := rs[1..], fromNothing || rs[0].Stop?;
    if j :| 0 <= j < |rest| && StartsAtLast(rest, j, free) {
      StartsOneLater(rs, j + 1, fromNothing);
      assert StartsAtLast(rs, j + 1, fromNothing);
    }
    assert StartsAtLast(rs, 0, fromNothing) <==> rs[0].Start? && NoStops(rs) && fromNothing;
  }

  /** Switches the loop off. */
  predicate Disarms(r: Request) {
    r == Request.Arm(false) || r.Stop?
  }

  predicate NothingDisarms(rs: seq<Request>) {
    forall r <- rs :: !Disarms(r)
  }

  /** A permitted arming that nothing has switched off since. */
  predicate ArmedForGood(rs: seq<Request>, permitted: bool, paper: bool)
    decreases |rs|
  {
    permitted && paper && exists j :: 0 <= j < |rs| && rs[j] == Request.Arm(true) && NothingDisarms(rs[j..])
  }

  lemma ArmedFromFirst(rs: seq<Request>, permitted: bool, paper: bool)
    requires rs != []
    ensures NothingDisarms(rs) <==> !Disarms(rs[0]) && NothingDisarms(rs[1..])
    ensures ArmedForGood(rs, permitted, paper)
            <==> (permitted && paper && rs[0] == Request.Arm(true) && NothingDisarms(rs[1..]))
                 || ArmedForGood(rs[1..], permitted, paper)
  {
    var rest := rs[1..];
    assert rs == [rs[0]] + rest && rs[0..] == rs;
    if j :| 0 <= j < |rs| && rs[j] == Request.Arm(true) && NothingDisarms(rs[j..]) {
      if j > 0 {
        assert rest[j - 1] == Request.Arm(true) && rest[j - 1..] == rs[j..];
      }
    }
    if j :| 0 <= j < |rest| && rest[j] == Request.Arm(true) && NothingDisarms(rest[j..]) {
      assert rs[j + 1] == Request.Arm(true) && rs[j + 1..] == rest[j..];
    }
  }

  /**
    After any requests the loop is armed exactly when it was and none switched it off, or a
    permitted arming has not been switched off since; and a failure stays recorded exactly until
    a permitted arming.
   */
  lemma {:induction false} ArmedIff(c: Control, rs: seq<Request>, permitted: bool, paper: bool)
    ensures AllAnswered(c, rs, permitted, paper).armed
            <==> (c.armed && NothingDisarms(rs)) || ArmedForGood(rs, permitted, paper)
    ensures AllAnswered(c, rs, permitted, paper).failed
            <==> c.failed && !(permitted && paper && Request.Arm(true) in rs)
    decreases |rs|
  {
    if rs != [] {
      ArmedIff(Answered(c, rs[0], permitted, paper), rs[1..], permitted, paper);
      ArmedFromFirst(rs, permitted, paper);
      assert rs == [rs[0]] + rs[1..];
    }
  }

  // ------------------------------------------------------------------
  // Requests and turns together
  // ------------------------------------------------------------------

  /** The `i`-th happening starts a task: none is there, and starting is permitted. */
  predicate StartsAt(c: Control, hs: seq<Happening>, i: nat, permitted: bool, paper: bool)
    requires i < |hs|
  {
    hs[i] == Asked(Start) && permitted && AllHappened(c, hs[..i], permitted, paper).task.NoTask?
  }

  /** It ends the task: a stop, or an exception in a turn that iterates. */
  predicate EndsAt(c: Control, hs: seq<Happening>, i: nat, permitted: bool, paper: bool)
    requires i < |hs|
  {
    var before := AllHappened(c, hs[..i], permitted, paper);
    hs[i] == Asked(Stop) || (hs[i] == Turns(true) && before.armed && before.task.Running?)
  }

  predicate NothingEnds(c: Control, hs: seq<Happening>, from: nat, permitted: bool, paper: bool) {
    forall i :: from <= i < |hs| ==> !EndsAt(c, hs, i, permitted, paper)
  }

  /** A start that nothing ended. */
  predicate StartedForGood(c: Control, hs: seq<Happening>, permitted: bool, paper: bool) {
    exists j :: 0 <= j < |hs| && StartsAt(c, hs, j, permitted, paper) && NothingEnds(c, hs, j + 1, permitted, paper)
  }

  lemma EarlierHappenings(c: Control, hs: seq<Happening>, i: nat, permitted: bool, paper: bool)
    requires i < |hs| - 1
    ensures StartsAt(c, hs, i, permitted, paper) == StartsAt(c, hs[..|hs| - 1], i, permitted, paper)
    ensures EndsAt(c, hs, i, permitted, paper) == EndsAt(c, hs[..|hs| - 1], i, permitted, paper)
  {
    assert hs[..|hs| - 1][..i] == hs[..i];
  }

  lemma NothingEndsUpTo(c: Control, hs: seq<Happening>, from: nat, permitted: bool, paper: bool)
    requires hs != [] && from < |hs|
    ensures NothingEnds(c, hs, from, permitted, paper)
            <==> NothingEnds(c, hs[..|hs| - 1], from, permitted, paper) && !EndsAt(c, hs, |hs| - 1, permitted, paper)
  {
    var first := hs[..|hs| - 1];
    forall i: nat | from <= i < |first|
      ensures EndsAt(c, first, i, permitted, paper) == EndsAt(c, hs, i, permitted, paper)
    {
      EarlierHappenings(c, hs, i, permitted, paper);
    }
    if NothingEnds(c, first, from, permitted, paper) && !EndsAt(c, hs, |first|, permitted, paper) {
      assert forall i: nat :: from <= i < |hs| ==> !EndsAt(c, hs, i, permitted, paper);
    }
  }

  /** One happening more. */
  lemma LastHappening(c: Control, hs: seq<Happening>, permitted: bool, paper: bool)
    requires hs != []
    ensures StartedForGood(c, hs, permitted, paper)
            <==> StartsAt(c, hs, |hs| - 1, permitted, paper)
                 || (StartedForGood(c, hs[..|hs| - 1], permitted, paper) && !EndsAt(c, hs, |hs| - 1, permitted, paper))
  {
    var n, first := |hs| - 1, hs[..|hs| - 1];
    if StartsAt(c, hs, n, permitted, paper) {
      assert NothingEnds(c, hs, n + 1, permitted, paper);
    }
    if j :| 0 <= j < n && StartsAt(c, first, j, permitted, paper) && NothingEnds(c, first, j + 1, permitted, paper) {
      EarlierHappenings(c, hs, j, permitted, paper);
      NothingEndsUpTo(c, hs, j + 1, permitted, paper);
    }
    if j :| 0 <= j < n && StartsAt(c, hs, j, permitted, paper) && NothingEnds(c, hs, j + 1, permitted, paper) {
      EarlierHappenings(c, hs, j, permitted, paper);
      NothingEndsUpTo(c, hs, j + 1, permitted, paper);
    }
  }

  /**
    Over any requests and turns: the task runs exactly when it ran and nothing ended it, or a
    start made it and nothing ended it since, where a failing turn ends it as a stop does. And
    the loop is never armed with a failure recorded.
   */
  lemma {:induction false} RunsThroughFailuresIff(c: Control, hs: seq<Happening>, permitted: bool, paper: bool)
    requires !(c.armed && c.failed)
    ensures var after := AllHappened(c, hs, permitted, paper);
            && (after.task.Running?
                <==> (c.task.Running? && NothingEnds(c, hs, 0, permitted, paper)) || StartedForGood(c, hs, permitted, paper))
            && !(after.armed && after.failed)
  {
    if hs != [] {
      RunsThroughFailuresIff(c, hs[..|hs| - 1], permitted, paper);
      LastHappening(c, hs, permitted, paper);
      NothingEndsUpTo(c, hs, 0, permitted, paper);
    }
  }

  /** So after a failure it does not run again until it is stopped, and can read as armed all the while. */
  lemma ReArmingDoesNotRestart(c: Control, rs: seq<Request>)
    requires c.task.Returned?
    ensures var after := AllAnswered(c, rs, true, true);
            (after.task.Running? <==> StartsLast(rs, false))
            && (NoStops(rs) ==> AllAnswered(c, rs + [Arm(true)], true, true).armed
                                && !AllAnswered(c, rs + [Arm(true)], true, true).task.Running?)
  {
    RunsIff(c, rs, true, true);
    AnswersLast(c, rs, Arm(true));
    if NoStops(rs) {
      forall j | 0 <= j < |rs|
        ensures NoStops(rs[..j])
      {
        assert forall i :: 0 <= i < j ==> rs[..j][i] == rs[i];
      }
    }
  }

  lemma {:induction false} AnswersLast(c: Control, rs: seq<Request>, r: Request)
    ensures AllAnswered(c, rs + [r], true, true) == Answered(AllAnswered(c, rs, true, true), r, true, true)
    decreases |rs|
  {
    if rs == [] {
      assert [r][1..] == [];
    } else {
      assert (rs + [r])[1..] == rs[1..] + [r];
      AnswersLast(Answered(c, rs[0], true, true), rs[1..], r);
    }
  }
}
