/**
  What the calls on the paper account do to its money, its positions and the day's session,
  stated over prices, sizes, rates and limits.
 */
module PaperMoney {
  import opened Common
  import opened PaperEngine

  /** The nearest whole number to a quotient, and of two equally near the one further from zero. */
  predicate Nearest(amount: int, numerator: int, denominator: int) {
    var excess := 2 * (amount * denominator - numerator);
    if numerator >= 0 then -denominator < excess <= denominator else -denominator <= excess < denominator
  }

  lemma HalfRoundsUp(n: nat, d: int)
    requires d > 0
    ensures var q := (2 * n + d) / (2 * d); -d < 2 * (q * d - n) <= d
  {
    var q := (2 * n + d) / (2 * d);
    assert 2 * n + d == q * (2 * d) + (2 * n + d) % (2 * d);
    assert q * (2 * d) == 2 * (q * d);
  }

  lemma RoundedIsNearest(numerator: int, denominator: int)
    requires denominator > 0
    ensures Nearest(Rounded(numerator, denominator), numerator, denominator)
  {
    if numerator >= 0 {
      HalfRoundsUp(numerator, denominator);
    } else {
      HalfRoundsUp(-numerator, denominator);
      var q := (-2 * numerator + denominator) / (2 * denominator);
      assert (-q) * denominator == -(q * denominator);
    }
  }

  /** Only one amount is nearest. */
  lemma NearestIsUnique(a: int, b: int, numerator: int, denominator: int)
    requires denominator > 0 && Nearest(a, numerator, denominator) && Nearest(b, numerator, denominator)
    ensures a == b
  {
    if a < b {
      MulStep(a, b, denominator);
    } else if b < a {
      MulStep(b, a, denominator);
    }
  }

  /** `fee` is what a trade worth this many 1e-16ths costs: its value is rounded first, then the fee. */
  ghost predicate IsFee(fee: Money, worth: int, takerFeeBps: nat) {
    exists value: Money :: Nearest(value, worth, 100_000_000) && Nearest(fee, value * takerFeeBps, 10_000)
  }

  // ------------------------------------------------------------------
  // A close
  // ------------------------------------------------------------------

  /** A long position gains upwards and a short one downwards. */
  function Favour(p: Position): int {
    if p.isLong then 1 else -1
  }

  /** A long position is sold and a short one bought back. */
  function ExitPrice(p: Position, mark: Mark): Money {
    if p.isLong then mark.sell else mark.buy
  }

  /** What the price moved in the position's favour, and what leaving cost. */
  ghost predicate IsOutcome(p: Position, exit: Money, takerFeeBps: nat, moved: Money, fee: Money) {
    && Nearest(moved, Favour(p) * (exit - p.entry) * p.quantity, 100_000_000)
    && IsFee(fee, p.quantity * exit, takerFeeBps)
  }

  /** The money of the account and of the day move by the same amount, and nothing else does. */
  predicate BooksBoth(before: Engine, after: Engine, moved: Money, fee: Money, closed: nat) {
    && before.session.Some? && after.session.Some? && after.config == before.config
    && after.book == before.book.(
         balance := before.book.balance + moved - fee, realized := before.book.realized + moved - fee,
         fees := before.book.fees + fee,
         positions := after.book.positions, log := after.book.log, index := after.book.index)
    && var s := before.session.value;
       after.session.value == s.(realized := s.realized + moved - fee, fees := s.fees + fee,
                                 closed := s.closed + closed, lock := after.session.value.lock)
  }

  lemma {:induction false} NothingElse(ps: seq<Position>, symbol: Symbol)
    requires forall i :: 0 <= i < |ps| ==> ps[i].symbol != symbol
    ensures Without(ps, symbol) == ps
    ensures forall price: Money :: AllAdvanced(ps, symbol, price) == ps
  {
    if ps != [] {
      NothingElse(ps[1..], symbol);
    }
  }

  lemma OneEachInParts(a: seq<Position>, p: Position, b: seq<Position>)
    requires OneEach(a + [p] + b)
    ensures a != [] ==> a[0].symbol != p.symbol && OneEach(a[1..] + [p] + b)
    ensures forall i :: 0 <= i < |b| ==> b[i].symbol != p.symbol
    ensures OneEach(a + b)
  {
    var ps := a + [p] + b;
    assert ps[|a|] == p;
    assert forall i :: 0 <= i < |b| ==> b[i] == ps[|a| + 1 + i];
    assert forall i :: 0 <= i < |a + b| ==> (a + b)[i] == ps[if i < |a| then i else i + 1];
    if a != [] {
      assert ps[0] == a[0];
      assert forall i :: 0 <= i < |a[1..] + [p] + b| ==> (a[1..] + [p] + b)[i] == ps[i + 1];
    }
  }

  lemma HeadOfParts<T>(a: seq<T>, m: seq<T>, b: seq<T>)
    requires a != []
    ensures (a + m + b)[0] == a[0] && (a + m + b)[1..] == a[1..] + m + b
    ensures [a[0]] + (a[1..] + m + b) == a + m + b
  {
  }

  lemma {:induction false} FindAt(a: seq<Position>, p: Position, b: seq<Position>)
    requires OneEach(a + [p] + b)
    ensures Find(a + [p] + b, p.symbol) == Some(p)
    decreases |a|
  {
    OneEachInParts(a, p, b);
    if a == [] {
      assert a + [p] + b == [p] + b;
    } else {
      HeadOfParts(a, [p], b);
      FindAt(a[1..], p, b);
    }
  }

  lemma {:induction false} WithoutAt(a: seq<Position>, p: Position, b: seq<Position>)
    requires OneEach(a + [p] + b)
    ensures Without(a + [p] + b, p.symbol) == a + b
    decreases |a|
  {
    OneEachInParts(a, p, b);
    if a == [] {
      assert a + [p] + b == [p] + b && ([p] + b)[1..] == b;
      NothingElse(b, p.symbol);
    } else {
      HeadOfParts(a, [p], b);
      WithoutAt(a[1..], p, b);
      assert [a[0]] + (a[1..] + b) == a + b;
    }
  }

  lemma InParts<T>(s: seq<T>, k: nat)
    requires k < |s|
    ensures s[..k] + [s[k]] + s[k + 1..] == s
  {
  }

  lemma LeavesTheOthers(ps: seq<Position>, k: nat)
    requires OneEach(ps) && k < |ps|
    ensures Find(ps, ps[k].symbol) == Some(ps[k]) && Without(ps, ps[k].symbol) == ps[..k] + ps[k + 1..]
  {
    InParts(ps, k);
    FindAt(ps[..k], ps[k], ps[k + 1..]);
    WithoutAt(ps[..k], ps[k], ps[k + 1..]);
  }

  lemma {:induction false} AdvancedAt(a: seq<Position>, p: Position, b: seq<Position>, price: Money)
    requires OneEach(a + [p] + b)
    ensures AllAdvanced(a + [p] + b, p.symbol, price) == a + [Advanced(p, price)] + b
    decreases |a|
  {
    OneEachInParts(a, p, b);
    if a == [] {
      assert a + [p] + b == [p] + b && ([p] + b)[1..] == b;
      NothingElse(b, p.symbol);
    } else {
      HeadOfParts(a, [p], b);
      HeadOfParts(a, [Advanced(p, price)], b);
      AdvancedAt(a[1..], p, b, price);
    }
  }

  /** One close, whichever call makes it. */
  lemma ClosingBooks(e: Engine, p: Position, mark: Mark) returns (moved: Money, fee: Money)
    requires e.session.Some?
    ensures var after := Closed(e, p, mark);
            && IsOutcome(p, ExitPrice(p, mark), e.config.takerFeeBps, moved, fee) && BooksBoth(e, after, moved, fee, 1)
            && after.book.log == e.book.log && after.book.index == e.book.index
            && after.book.positions == Without(e.book.positions, p.symbol) && RightlyBraked(e, after)
  {
    var exit := ExitPrice(p, mark);
    var value := Rounded(p.quantity * exit, UNIT);
    fee := Fee(e.config, value);
    moved := Gross(p, exit);
    RoundedIsNearest(p.quantity * exit, UNIT);
    RoundedIsNearest(value * e.config.takerFeeBps, BPS);
    RoundedIsNearest(Favour(p) * (exit - p.entry) * p.quantity, UNIT);
  }

  /** The day locks when what it has realised is at its target or its limit, and a lock stays. */
  predicate RightlyBraked(before: Engine, after: Engine)
    requires before.session.Some? && after.session.Some?
  {
    var s := after.session.value;
    if !before.session.value.lock.Unlocked? then s.lock == before.session.value.lock
    else
      && (s.lock.ProfitTargetReached? <==> s.realized >= s.profitTarget)
      && (s.lock.LossLimitReached? <==> s.profitTarget > s.realized && s.realized <= s.lossLimit)
  }

  /**
    A position closed by hand leaves the account, and what it gained, less the fee on what it was
    sold or bought back for, goes to the balance, to the realised result and to the day's. The day
    is locked afterwards exactly when that takes it to its target or its limit, or it was before.
   */
  lemma AHandCloseBooksTheMove(e: Engine, id: OrderId, k: nat, mark: Mark, now: Time)
      returns (moved: Money, fee: Money)
    requires OneEach(e.book.positions) && k < |e.book.positions|
    ensures var p := e.book.positions[k];
            var after := Apply(e, ClosePosition(id, p.symbol, Some(mark)), now);
            && IsOutcome(p, ExitPrice(p, mark), e.config.takerFeeBps, moved, fee)
            && BooksBoth(Rolled(e, now), after, moved, fee, 1)
            && after.book.positions == e.book.positions[..k] + e.book.positions[k + 1..]
            && RightlyBraked(Rolled(e, now), after)
  {
    LeavesTheOthers(e.book.positions, k);
    moved, fee := ClosingBooks(Rolled(e, now), e.book.positions[k], mark);
  }

  /** A favourable exit loses no more than the exit fee, and an adverse one at least that. */
  lemma AFavourableExitLosesOnlyTheFee(p: Position, exit: Money, takerFeeBps: nat, moved: Money, fee: Money)
    requires IsOutcome(p, exit, takerFeeBps, moved, fee) && p.quantity >= 0
    ensures (if p.isLong then exit >= p.entry else exit <= p.entry) ==> moved - fee >= -fee
    ensures (if p.isLong then exit <= p.entry else exit >= p.entry) ==> moved - fee <= -fee
    ensures p.quantity * exit >= 0 ==> fee >= 0
  {
    var gain := Favour(p) * (exit - p.entry);
    if gain >= 0 {
      MulMonotone(0, gain, p.quantity);
    }
    if gain <= 0 {
      MulMonotone(gain, 0, p.quantity);
    }
    if p.quantity * exit >= 0 {
      var value: Money :| Nearest(value, p.quantity * exit, 100_000_000) && Nearest(fee, value * takerFeeBps, 10_000);
      MulMonotone(0, value, takerFeeBps);
    }
  }

  /** Without an open position or a usable price a close is refused and moves no money. */
  lemma ACloseIsRefusedIff(e: Engine, id: OrderId, symbol: Symbol, mark: Option<Mark>, now: Time)
    requires OneEach(e.book.positions)
    ensures var after := Apply(e, ClosePosition(id, symbol, mark), now);
            (|after.book.positions| == |e.book.positions|
             <==> mark.None? || forall p <- e.book.positions :: p.symbol != symbol)
            && (|after.book.positions| == |e.book.positions| ==> OnlyRefused(Rolled(e, now), after))
  {
    if mark.Some? && IsOpen(e.book.positions, symbol) {
      var k :| 0 <= k < |e.book.positions| && e.book.positions[k].symbol == symbol;
      var moved, fee := AHandCloseBooksTheMove(e, id, k, mark.value, now);
    }
  }

  /** The order is recorded and counted, and that is all. */
  predicate OnlyRefused(before: Engine, after: Engine) {
    && before.session.Some?
    && after.config == before.config
    && after.book == before.book.(log := after.book.log, index := after.book.index)
    && var s := before.session.value; after.session == Some(s.(rejected := s.rejected + 1))
  }

  // ------------------------------------------------------------------
  // A tick
  // ------------------------------------------------------------------

  /**
    The price has come to a level of the position, seen in its own direction: down to where it is
    liquidated or stopped or its trailing stop stands, or up to its target.
   */
  predicate Exits(p: Position, price: Money) {
    var d := Favour(p);
    || (p.liquidation.Some? && d * (price - p.liquidation.value) <= 0)
    || (p.stop.Some? && d * (price - p.stop.value) <= 0)
    || (p.trail.Some? && d * price * 100_000_000
                        <= d * p.trail.value.extreme * (100_000_000 - d * p.trail.value.distance))
    || (p.target.Some? && d * (price - p.target.value) >= 0)
  }

  predicate ExitsAt(p: Position, marks: map<Symbol, Mark>) {
    p.symbol in marks && Exits(p, marks[p.symbol].last)
  }

  /** `q` is `p` with its trailing extreme at the better of where it was and the price. */
  predicate Follows(q: Position, p: Position, price: Money) {
    && q == p.(trail := q.trail) && (q.trail.Some? <==> p.trail.Some?)
    && (p.trail.Some? ==>
          var was, now := p.trail.value, q.trail.value;
          && now.distance == was.distance && (now.extreme == was.extreme || now.extreme == price)
          && Favour(p) * (now.extreme - was.extreme) >= 0 && Favour(p) * (now.extreme - price) >= 0)
  }

  lemma TriggeredIffExits(p: Position, price: Money)
    ensures Triggered(p, price) <==> Exits(p, price)
  {
    if p.trail.Some? && !p.isLong {
      var t := p.trail.value;
      assert (-1) * t.extreme * (UNIT - (-1) * t.distance) == -(t.extreme * (UNIT + t.distance));
    }
  }

  /** What stays, in order: every position that does not leave, following its price if it has one. */
  ghost predicate Stay(before: seq<Position>, after: seq<Position>, marks: map<Symbol, Mark>) {
    if before == [] then after == []
    else if ExitsAt(before[0], marks) then Stay(before[1..], after, marks)
    else
      && after != [] && Stay(before[1..], after[1..], marks)
      && if before[0].symbol in marks then Follows(after[0], before[0], marks[before[0].symbol].last)
         else after[0] == before[0]
  }

  function Sum(amounts: seq<Money>): Money {
    if amounts == [] then 0 else amounts[0] + Sum(amounts[1..])
  }

  /** How many leave. */
  function Leaving(positions: seq<Position>, marks: map<Symbol, Mark>): nat {
    if positions == [] then 0
    else (if ExitsAt(positions[0], marks) then 1 else 0) + Leaving(positions[1..], marks)
  }

  /** One result and one fee for each position that leaves, and nothing for one that stays. */
  ghost predicate Outcomes(positions: seq<Position>, marks: map<Symbol, Mark>, takerFeeBps: nat,
                           moves: seq<Money>, fees: seq<Money>) {
    && |moves| == |fees| == |positions|
    && forall i :: 0 <= i < |positions| ==> OutcomeOf(positions[i], marks, takerFeeBps, moves[i], fees[i])
  }

  ghost predicate OutcomeOf(p: Position, marks: map<Symbol, Mark>, takerFeeBps: nat, moved: Money, fee: Money) {
    if ExitsAt(p, marks) then IsOutcome(p, ExitPrice(p, marks[p.symbol]), takerFeeBps, moved, fee)
    else moved == 0 && fee == 0
  }

  /** The day is braked after the last close, if there was one. */
  predicate BrakedIfClosed(before: Engine, after: Engine, closed: nat)
    requires before.session.Some? && after.session.Some?
  {
    var s := after.session.value;
    && (closed == 0 ==> s == before.session.value)
    && (closed > 0 && (s.realized >= s.profitTarget || s.realized <= s.lossLimit) ==> !s.lock.Unlocked?)
    && (closed == 1 ==> RightlyBraked(before, after))
    && (!before.session.value.lock.Unlocked? ==> s.lock == before.session.value.lock)
  }

  /** One position has been managed. */
  ghost predicate ManagedOne(e: Engine, after: Engine, marks: map<Symbol, Mark>, p: Position, moved: Money, fee: Money) {
    && e.session.Some? && after.session.Some?
    && OutcomeOf(p, marks, e.config.takerFeeBps, moved, fee)
    && BooksBoth(e, after, moved, fee, Leaving([p], marks)) && BrakedIfClosed(e, after, Leaving([p], marks))
    && after.book.log == e.book.log && after.book.index == e.book.index
  }

  lemma ManagesAnExit(e: Engine, marks: map<Symbol, Mark>, a: seq<Position>, p: Position, b: seq<Position>)
      returns (moved: Money, fee: Money)
    requires e.session.Some? && OneEach(a + [p] + b) && e.book.positions == a + [p] + b && ExitsAt(p, marks)
    ensures var after := Managed(e, marks, p.symbol);
            ManagedOne(e, after, marks, p, moved, fee) && after.book.positions == a + b
  {
    FindAt(a, p, b);
    WithoutAt(a, p, b);
    TriggeredIffExits(p, marks[p.symbol].last);
    moved, fee := ClosingBooks(e, p, marks[p.symbol]);
    assert Leaving([p], marks) == 1;
  }

  lemma NothingClosed(e: Engine, positions: seq<Position>)
    requires e.session.Some?
    ensures var after := e.(book := e.book.(positions := positions));
            BooksBoth(e, after, 0, 0, 0) && BrakedIfClosed(e, after, 0)
  {
  }

  lemma ManagedWithoutExit(e: Engine, marks: map<Symbol, Mark>, p: Position)
    requires e.session.Some? && Find(e.book.positions, p.symbol) == Some(p) && !ExitsAt(p, marks)
    ensures Managed(e, marks, p.symbol)
            == if p.symbol in marks
               then e.(book := e.book.(positions := AllAdvanced(e.book.positions, p.symbol, marks[p.symbol].last)))
               else e
  {
    if p.symbol in marks {
      TriggeredIffExits(p, marks[p.symbol].last);
    }
  }

  lemma AdvancedFollows(p: Position, price: Money)
    ensures Follows(Advanced(p, price), p, price)
  {
  }

  lemma ManagesAStay(e: Engine, marks: map<Symbol, Mark>, a: seq<Position>, p: Position, b: seq<Position>)
      returns (kept: Position)
    requires e.session.Some? && OneEach(a + [p] + b) && e.book.positions == a + [p] + b && !ExitsAt(p, marks)
    ensures var after := Managed(e, marks, p.symbol);
            && ManagedOne(e, after, marks, p, 0, 0) && after.book.positions == a + [kept] + b
            && Stay([p], [kept], marks) && kept.symbol == p.symbol
  {
    FindAt(a, p, b);
    ManagedWithoutExit(e, marks, p);
    assert Leaving([p], marks) == 0;
    kept := p;
    if p.symbol in marks {
      AdvancedAt(a, p, b, marks[p.symbol].last);
      kept := Advanced(p, marks[p.symbol].last);
      AdvancedFollows(p, marks[p.symbol].last);
    }
    NothingClosed(e, a + [kept] + b);
    assert e.(book := e.book.(positions := e.book.positions)) == e;
  }

  lemma SameSymbols(a: seq<Position>, p: Position, q: Position, b: seq<Position>)
    requires OneEach(a + [p] + b) && q.symbol == p.symbol
    ensures OneEach(a + [q] + b)
  {
    assert forall i :: 0 <= i < |a| + 1 + |b| ==> (a + [q] + b)[i].symbol == (a + [p] + b)[i].symbol;
  }

  /** The money of two stretches adds up. */
  lemma BooksBothTwice(e: Engine, between: Engine, after: Engine, m1: Money, f1: Money, n1: nat, m2: Money, f2: Money, n2: nat)
    requires BooksBoth(e, between, m1, f1, n1) && BooksBoth(between, after, m2, f2, n2)
    requires BrakedIfClosed(e, between, n1) && BrakedIfClosed(between, after, n2)
    ensures BooksBoth(e, after, m1 + m2, f1 + f2, n1 + n2) && BrakedIfClosed(e, after, n1 + n2)
  {
  }

  /** What managing some of the positions has done. */
  ghost predicate ManagedAll(e: Engine, after: Engine, marks: map<Symbol, Mark>, done: seq<Position>, rest: seq<Position>,
                             moves: seq<Money>, fees: seq<Money>, kept: seq<Position>) {
    && e.session.Some? && after.session.Some?
    && Outcomes(rest, marks, e.config.takerFeeBps, moves, fees)
    && BooksBoth(e, after, Sum(moves), Sum(fees), Leaving(rest, marks)) && BrakedIfClosed(e, after, Leaving(rest, marks))
    && after.book.log == e.book.log && after.book.index == e.book.index
    && after.book.positions == done + kept && Stay(rest, kept, marks)
  }

  lemma OneMoreManaged(e: Engine, between: Engine, after: Engine, marks: map<Symbol, Mark>, p: Position,
                       moved: Money, fee: Money, stays: seq<Position>, done: seq<Position>, rest: seq<Position>,
                       moves: seq<Money>, fees: seq<Money>, kept: seq<Position>)
    requires ManagedOne(e, between, marks, p, moved, fee) && Stay([p], stays, marks) && |stays| <= 1
    requires ManagedAll(between, after, marks, done + stays, rest, moves, fees, kept)
    ensures ManagedAll(e, after, marks, done, [p] + rest, [moved] + moves, [fee] + fees, stays + kept)
  {
    var all := [p] + rest;
    assert all[0] == p && all[1..] == rest;
    assert ([moved] + moves)[1..] == moves && ([fee] + fees)[1..] == fees;
    BooksBothTwice(e, between, after, moved, fee, Leaving([p], marks), Sum(moves), Sum(fees), Leaving(rest, marks));
    assert Leaving(all, marks) == Leaving([p], marks) + Leaving(rest, marks);
    assert done + stays + kept == done + (stays + kept);
    OneMoreStays(p, rest, stays, kept, marks);
  }

  lemma OneMoreStays(p: Position, rest: seq<Position>, stays: seq<Position>, kept: seq<Position>, marks: map<Symbol, Mark>)
    requires Stay([p], stays, marks) && |stays| <= 1 && Stay(rest, kept, marks)
    ensures Stay([p] + rest, stays + kept, marks)
  {
    assert ([p] + rest)[0] == p && ([p] + rest)[1..] == rest;
    if ExitsAt(p, marks) {
      assert stays == [] && stays + kept == kept;
    } else {
      assert (stays + kept)[1..] == kept;
    }
  }

  lemma {:induction false} ManagesAll(e: Engine, marks: map<Symbol, Mark>, done: seq<Position>, rest: seq<Position>)
      returns (moves: seq<Money>, fees: seq<Money>, kept: seq<Position>)
    requires e.session.Some? && OneEach(done + rest) && e.book.positions == done + rest
    ensures ManagedAll(e, AllManaged(e, marks, rest), marks, done, rest, moves, fees, kept)
    decreases |rest|
  {
    if rest == [] {
      moves, fees, kept := [], [], [];
      NothingClosed(e, e.book.positions);
      assert done + [] == done && e.(book := e.book.(positions := e.book.positions)) == e;
    } else {
      var p, later := rest[0], rest[1..];
      assert rest == [p] + later && done + rest == done + [p] + later;
      var moved, fee, stays := ManagesOne(e, marks, done, p, later);
      var between := Managed(e, marks, p.symbol);
      var ms, fs, ks := ManagesAll(between, marks, done + stays, later);
      OneMoreManaged(e, between, AllManaged(between, marks, later), marks, p, moved, fee, stays, done, later, ms, fs, ks);
      moves, fees, kept := [moved] + ms, [fee] + fs, stays + ks;
    }
  }

  lemma ManagesOne(e: Engine, marks: map<Symbol, Mark>, a: seq<Position>, p: Position, b: seq<Position>)
      returns (moved: Money, fee: Money, stays: seq<Position>)
    requires e.session.Some? && OneEach(a + [p] + b) && e.book.positions == a + [p] + b
    ensures var after := Managed(e, marks, p.symbol);
            && ManagedOne(e, after, marks, p, moved, fee) && after.book.positions == a + stays + b
            && OneEach(a + stays + b) && Stay([p], stays, marks) && |stays| <= 1
  {
    if ExitsAt(p, marks) {
      moved, fee := ManagesAnExit(e, marks, a, p, b);
      stays := [];
      OneEachInParts(a, p, b);
      assert a + [] + b == a + b;
    } else {
      var kept := ManagesAStay(e, marks, a, p, b);
      moved, fee, stays := 0, 0, [kept];
      SameSymbols(a, p, kept, b);
    }
  }

  /**
    A tick: exactly the positions whose price has come to a level of theirs leave the account, in
    one result and one fee each; the rest stay as they are, with a trailing extreme that follows
    the price. The sum goes to the balance, the realised result and the day's, and the day is
    braked if a close takes it to its target or its limit.
   */
  lemma ATickClosesWhatHasReachedALevel(e: Engine, marks: map<Symbol, Mark>, now: Time)
      returns (moves: seq<Money>, fees: seq<Money>)
    requires OneEach(e.book.positions)
    ensures var r, after := Rolled(e, now), Apply(e, Tick(marks), now);
            var n := Leaving(e.book.positions, marks);
            && Stay(e.book.positions, after.book.positions, marks)
            && Outcomes(e.book.positions, marks, e.config.takerFeeBps, moves, fees)
            && BooksBoth(r, after, Sum(moves), Sum(fees), n) && BrakedIfClosed(r, after, n)
            && after.book.log == e.book.log && after.book.index == e.book.index
  {
    var r := Rolled(e, now);
    assert [] + r.book.positions == r.book.positions;
    var kept;
    moves, fees, kept := ManagesAll(r, marks, [], r.book.positions);
    assert [] + kept == kept;
  }

  // ------------------------------------------------------------------
  // An order
  // ------------------------------------------------------------------

  /** The account with one position more would be within its limits, and its margins covered by its balance. */
  predicate HasRoomFor(e: Engine, symbol: Symbol, p: Position) {
    var ps := e.book.positions + [p];
    && p.symbol == symbol && p.quantity > 0 && 0 < p.notional <= e.config.maxNotional
    && (forall q <- e.book.positions :: q.symbol != symbol)
    && |ps| <= e.config.maxOpen && Exposure(ps) <= e.config.maxExposure && MarginUsed(ps) <= e.book.balance
  }

  lemma {:induction false} MarginOfOneMore(ps: seq<Position>, p: Position)
    ensures MarginUsed(ps + [p]) == MarginUsed(ps) + p.margin
  {
    if ps != [] {
      assert (ps + [p])[1..] == ps[1..] + [p];
      MarginOfOneMore(ps[1..], p);
    }
  }

  /**
    An order fills exactly when its id is new, its position is known, entries are allowed and the
    account has room. Then its position is the account's last, and the fee on its notional leaves
    the balance, the realised result and the day's; otherwise a new id is recorded as refused and
    a known one changes nothing.
   */
  lemma AnOrderFillsIff(e: Engine, m: Mutation, now: Time)
    requires m.Place?
    ensures var r, after := Rolled(e, now), Apply(e, m, now);
            && (Fills(e, m, now)
                <==> && m.id !in e.book.index && e.config.enabled && !e.book.emergencyStopped && !LockedOn(e, Date(now))
                     && m.terms.Some? && HasRoomFor(e, m.symbol, m.terms.value))
            && (Fills(e, m, now) ==> PaysToOpen(r, after, m.terms.value))
            && (!Fills(e, m, now) && m.id !in e.book.index ==> OnlyRefused(r, after))
            && (m.id in e.book.index ==> after == r)
  {
    if m.terms.Some? {
      ExposureOfOneMore(e.book.positions, m.terms.value);
      MarginOfOneMore(e.book.positions, m.terms.value);
      RoundedIsNearest(m.terms.value.notional * e.config.takerFeeBps, BPS);
    }
  }

  predicate PaysToOpen(before: Engine, after: Engine, p: Position) {
    && before.session.Some? && after.session.Some? && after.config == before.config
    && var fee := after.book.fees - before.book.fees;
       Nearest(fee, p.notional * before.config.takerFeeBps, 10_000)
       && after.book == before.book.(
            balance := before.book.balance - fee, realized := before.book.realized - fee,
            fees := before.book.fees + fee, positions := before.book.positions + [p],
            log := after.book.log, index := after.book.index)
       && var s := before.session.value;
          after.session.value == s.(realized := s.realized - fee, fees := s.fees + fee, submitted := s.submitted + 1)
  }

  /** What opening and closing again by hand comes to: the move, less a fee each way. */
  lemma ARoundTripCostsTwoFees(e: Engine, m: Mutation, now: Time, id: OrderId, mark: Mark, later: Time)
      returns (moved: Money, paid: Money, fee: Money)
    requires Fills(e, m, now) && OneEach(e.book.positions)
    ensures var p := m.terms.value;
            var after := Apply(Apply(e, m, now), ClosePosition(id, p.symbol, Some(mark)), later);
            && m.terms.Some? && after.book.positions == e.book.positions
            && after.book.balance == e.book.balance + moved - paid - fee && after.book.fees == e.book.fees + paid + fee
            && Nearest(paid, p.notional * e.config.takerFeeBps, 10_000)
            && IsOutcome(p, ExitPrice(p, mark), e.config.takerFeeBps, moved, fee)
  {
    AnOrderFillsIff(e, m, now);
    var first, p := Apply(e, m, now), m.terms.value;
    var ps := e.book.positions;
    paid := first.book.fees - e.book.fees;
    assert OneEach(first.book.positions);
    moved, fee := AHandCloseBooksTheMove(first, id, |ps|, mark, later);
    assert (ps + [p])[..|ps|] + (ps + [p])[|ps| + 1..] == ps;
  }

  // ------------------------------------------------------------------
  // A day
  // ------------------------------------------------------------------

  predicate Today(e: Engine, date: int) {
    e.session.Some? && e.session.value.date == date
  }

  /** As much has moved in the day's figures as in the account's. */
  predicate Tracks(before: Engine, after: Engine) {
    && before.session.Some? && after.session.Some?
    && after.session.value.date == before.session.value.date
    && after.session.value.realized - before.session.value.realized == after.book.realized - before.book.realized
    && after.session.value.fees - before.session.value.fees == after.book.fees - before.book.fees
  }

  lemma CallTracks(e: Engine, m: Mutation, now: Time)
    requires Today(e, Date(now)) && OneEach(e.book.positions) && !m.Reset?
    ensures Tracks(e, Apply(e, m, now))
  {
    if m.Tick? {
      var moves, fees := ATickClosesWhatHasReachedALevel(e, m.marks, now);
    } else if m.Place? {
      AnOrderFillsIff(e, m, now);
    } else if m.ClosePosition? {
      ACloseIsRefusedIff(e, m.id, m.symbol, m.mark, now);
      if m.mark.Some? && IsOpen(e.book.positions, m.symbol) {
        var k :| 0 <= k < |e.book.positions| && e.book.positions[k].symbol == m.symbol;
        var moved, fee := AHandCloseBooksTheMove(e, m.id, k, m.mark.value, now);
      }
    }
  }

  /** Over any calls and reads of one day, the day's figures move with the account's. */
  lemma {:induction false} TheDayTracksTheBook(e: Engine, touches: seq<Touch>, date: int)
    requires Today(e, date) && WithinLimits(e)
    requires forall t <- touches :: Date(t.now) == date && !Resets(t)
    ensures Tracks(e, AllTouched(e, touches))
    decreases |touches|
  {
    if touches != [] {
      var t := touches[0];
      assert t in touches;
      if t.Mutated? {
        CallTracks(e, t.mutation, t.now);
        CallWithinLimits(e, t.mutation, t.now);
      }
      TheDayTracksTheBook(Touched(e, t), touches[1..], date);
    }
  }

  /** So a close that takes a day to its target or its limit is the day's last word: nothing opens after it. */
  lemma ACloseAtTheLimitEndsTheDay(e: Engine, id: OrderId, k: nat, mark: Mark, now: Time, touches: seq<Touch>,
                                   m: Mutation, later: Time)
    requires OneEach(e.book.positions) && k < |e.book.positions| && Date(later) == Date(now)
    requires forall t <- touches :: Date(t.now) == Date(now) && !Resets(t)
    requires var s := Apply(e, ClosePosition(id, e.book.positions[k].symbol, Some(mark)), now).session.value;
             s.realized >= s.profitTarget || s.realized <= s.lossLimit
    ensures var closed := Apply(e, ClosePosition(id, e.book.positions[k].symbol, Some(mark)), now);
            !Fills(AllTouched(closed, touches), m, later)
  {
    var moved, fee := AHandCloseBooksTheMove(e, id, k, mark, now);
    BrakeHolds(Apply(e, ClosePosition(id, e.book.positions[k].symbol, Some(mark)), now), touches, Date(now));
  }

  /** The first call or read of another day starts its session afresh, and touches nothing else. */
  lemma ANewDayStartsAfresh(e: Engine, now: Time)
    ensures var after := Rolled(e, now);
            && after.book == e.book && after.config == e.config
            && (Today(e, now / 86_400) ==> after == e)
            && (!Today(e, now / 86_400) ==>
                  after.session == Some(Session(now / 86_400, e.config.profitTarget, e.config.lossLimit,
                                                0, 0, 0, 0, 0, Unlocked)))
  {
  }

  // ------------------------------------------------------------------
  // The emergency stop and the reset
  // ------------------------------------------------------------------

  /** This call or read leaves the emergency stop as it is. */
  predicate LeavesTheStop(t: Touch) {
    t.Peeked? || (!t.mutation.Reset? && !t.mutation.EmergencyStop?)
  }

  lemma StopStays(e: Engine, t: Touch)
    requires LeavesTheStop(t)
    ensures Touched(e, t).book.emergencyStopped == e.book.emergencyStopped
  {
    if t.Mutated? && t.mutation.Tick? {
      ManagingKeeps(Rolled(e, t.now), t.mutation.marks, e.book.positions);
    }
  }

  /** An engaged stop lets nothing open, whatever else happens, until it is lifted or the account is reset. */
  lemma {:induction false} TheStopHolds(e: Engine, touches: seq<Touch>, m: Mutation, now: Time)
    requires e.book.emergencyStopped && forall t <- touches :: LeavesTheStop(t)
    ensures AllTouched(e, touches).book.emergencyStopped && !Fills(AllTouched(e, touches), m, now)
    decreases |touches|
  {
    if touches == [] {
      if m.Place? {
        AnOrderFillsIff(e, m, now);
      }
    } else {
      assert touches[0] in touches;
      StopStays(e, touches[0]);
      TheStopHolds(Touched(e, touches[0]), touches[1..], m, now);
    }
  }

  /** It closes nothing and costs nothing, and lifting it undoes it. */
  lemma LiftingUndoesTheStop(e: Engine, now: Time)
    ensures var stopped := Apply(e, EmergencyStop(true), now);
            && stopped.book.emergencyStopped && stopped.book == e.book.(emergencyStopped := true)
            && (!e.book.emergencyStopped ==> Apply(stopped, EmergencyStop(false), now) == Rolled(e, now))
  {
  }

  /** A reset account has its starting balance and nothing else: no position, order, result, stop or lock. */
  lemma AResetStartsAgain(e: Engine, balance: Money, now: Time)
    ensures var after := Apply(e, Reset(balance), now);
            var b, s := after.book, after.session.value;
            && after.config == e.config && b.starting == b.balance == balance && b.realized == b.fees == 0
            && b.positions == [] && b.log == [] && b.index == map[] && !b.emergencyStopped
            && s.date == Date(now) && s.lock.Unlocked? && s.realized == s.fees == 0
            && s.closed == s.submitted == s.rejected == 0
            && s.profitTarget == e.config.profitTarget && s.lossLimit == e.config.lossLimit
  {
  }
}
