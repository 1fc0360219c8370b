/**
  The paper account: its open positions, its realised book, its bounded order log, its daily
  session, and the engine calls that change them. A call runs to completion without waiting.

  A price and the size an order comes to are inputs; what each call then does to the account
  is the engine's own.
 */
module PaperEngine {
  import opened Common

  const DAY := 86_400
  const UNIT := 100_000_000
  const BPS := 10_000

  datatype Lock = Unlocked | ProfitTargetReached | LossLimitReached

  datatype Config = Config(
    enabled: bool,
    profitTarget: Money,
    lossLimit: Money,
    maxOpen: nat,
    maxNotional: Money,
    maxExposure: Money,
    takerFeeBps: nat,
    maxOrderLog: nat)

  datatype Session = Session(
    date: int,
    profitTarget: Money,
    lossLimit: Money,
    realized: Money,
    fees: Money,
    closed: nat,
    submitted: nat,
    rejected: nat,
    lock: Lock)

  /** A trailing stop: its distance in units of 1e-8 of the price, and the best price so far. */
  datatype Trail = Trail(distance: nat, extreme: Money)

  datatype Position = Position(
    symbol: Symbol,
    isLong: bool,
    quantity: Money,
    entry: Money,
    notional: Money,
    margin: Money,
    stop: Option<Money>,
    target: Option<Money>,
    liquidation: Option<Money>,
    trail: Option<Trail>)

  /** A usable price, and what a sale and a purchase would get. */
  datatype Mark = Mark(last: Money, sell: Money, buy: Money)

  /** An order as the log keeps it: the client's id for it, and whether it filled. */
  datatype Order = Order(id: OrderId, filled: bool)

  /**
    The account apart from the day's session. `log` holds the last orders recorded, oldest
    first, and `index` the outcome of every client id that can still be replayed.
   */
  datatype Book = Book(
    starting: Money,
    balance: Money,
    realized: Money,
    fees: Money,
    positions: seq<Position>,
    log: seq<Order>,
    index: map<OrderId, bool>,
    emergencyStopped: bool)

  datatype Engine = Engine(config: Config, book: Book, session: Option<Session>)

  /** `Place` is a submission, with the position it comes to when its size and price can be had. */
  datatype Mutation =
    | Tick(marks: map<Symbol, Mark>)
    | Place(id: OrderId, symbol: Symbol, terms: Option<Position>)
    | Refuse(id: OrderId)
    | ClosePosition(id: OrderId, symbol: Symbol, mark: Option<Mark>)
    | Reset(balance: Money)
    | EmergencyStop(engaged: bool)

  function Date(now: Time): int {
    now / DAY
  }

  /** Rounded to a whole unit, halves away from zero. */
  function Rounded(numerator: int, denominator: int): int
    requires denominator > 0
  {
    if numerator >= 0 then (2 * numerator + denominator) / (2 * denominator)
    else -((-2 * numerator + denominator) / (2 * denominator))
  }

  // ------------------------------------------------------------------
  // The session
  // ------------------------------------------------------------------

  function NewSession(config: Config, date: int): Session {
    Session(date, config.profitTarget, config.lossLimit, 0, 0, 0, 0, 0, Unlocked)
  }

  /** Start a new session unless the current one is of this date: every call does this first, reads included. */
  function Rolled(e: Engine, now: Time): Engine {
    if e.session.Some? && e.session.value.date == Date(now) then e
    else e.(session := Some(NewSession(e.config, Date(now))))
  }

  function Braked(s: Session): Session {
    if !s.lock.Unlocked? then s
    else if s.realized >= s.profitTarget then s.(lock := ProfitTargetReached)
    else if s.realized <= s.lossLimit then s.(lock := LossLimitReached)
    else s
  }

  // ------------------------------------------------------------------
  // Positions
  // ------------------------------------------------------------------

  predicate IsOpen(positions: seq<Position>, symbol: Symbol) {
    exists p <- positions :: p.symbol == symbol
  }

  function Find(positions: seq<Position>, symbol: Symbol): (p: Option<Position>)
    ensures p.Some? <==> IsOpen(positions, symbol)
    ensures p.Some? ==> p.value in positions && p.value.symbol == symbol
  {
    if positions == [] then None
    else if positions[0].symbol == symbol then Some(positions[0])
    else Find(positions[1..], symbol)
  }

  function Without(positions: seq<Position>, symbol: Symbol): seq<Position> {
    if positions == [] then []
    else (if positions[0].symbol == symbol then [] else [positions[0]]) + Without(positions[1..], symbol)
  }

  function Exposure(positions: seq<Position>): Money {
    if positions == [] then 0 else positions[0].notional + Exposure(positions[1..])
  }

  function MarginUsed(positions: seq<Position>): Money {
    if positions == [] then 0 else positions[0].margin + MarginUsed(positions[1..])
  }

  /** Where the trailing stop stands, compared at full precision. */
  predicate TrailReached(p: Position, price: Money) {
    p.trail.Some?
    && var t := p.trail.value;
       if p.isLong then price * UNIT <= t.extreme * (UNIT - t.distance)
       else price * UNIT >= t.extreme * (UNIT + t.distance)
  }

  predicate LevelReached(p: Position, level: Option<Money>, price: Money) {
    level.Some? && if p.isLong then price <= level.value else price >= level.value
  }

  /** An adverse level was reached, or the target was. */
  predicate Triggered(p: Position, price: Money) {
    || LevelReached(p, p.liquidation, price) || LevelReached(p, p.stop, price) || TrailReached(p, price)
    || (p.target.Some? && if p.isLong then price >= p.target.value else price <= p.target.value)
  }

  /** The trailing extreme only ever moves in the position's favour. */
  function Advanced(p: Position, price: Money): Position {
    if p.trail.None? then p
    else
      var t := p.trail.value;
      p.(trail := Some(t.(extreme := if p.isLong then Max(t.extreme, price) else Min(t.extreme, price))))
  }

  function AllAdvanced(positions: seq<Position>, symbol: Symbol, price: Money): (after: seq<Position>)
    ensures |after| == |positions|
    ensures forall i :: 0 <= i < |after| ==> after[i] == positions[i].(trail := after[i].trail)
  {
    if positions == [] then []
    else [if positions[0].symbol == symbol then Advanced(positions[0], price) else positions[0]]
         + AllAdvanced(positions[1..], symbol, price)
  }

  // ------------------------------------------------------------------
  // What the calls do
  // ------------------------------------------------------------------

  function NewBook(balance: Money): Book {
    Book(balance, balance, 0, 0, [], [], map[], false)
  }

  /** How many of the oldest orders a log of this length is over the ceiling by. */
  function Excess(log: seq<Order>, ceiling: nat): (n: nat)
    ensures n <= |log|
  {
    if |log| > ceiling then |log| - ceiling else 0
  }

  predicate Mentions(log: seq<Order>, id: OrderId) {
    exists i :: 0 <= i < |log| && log[i].id == id
  }

  function Ids(log: seq<Order>): set<OrderId> {
    set o <- log :: o.id
  }

  /** The order enters the log and the index; what falls off the log leaves the index. */
  function Recorded(b: Book, ceiling: nat, id: OrderId, filled: bool): Book {
    var log := b.log + [Order(id, filled)];
    var n := Excess(log, ceiling);
    b.(log := log[n..], index := b.index[id := filled] - Ids(log[..n]))
  }

  function Gross(p: Position, exit: Money): Money {
    Rounded((if p.isLong then exit - p.entry else p.entry - exit) * p.quantity, UNIT)
  }

  /** The fee on a notional. */
  function Fee(config: Config, notional: Money): Money {
    Rounded(notional * config.takerFeeBps, BPS)
  }

  /** Gross result and exit fee move the balance; the entry fee left it when the position opened. */
  function Closed(e: Engine, p: Position, mark: Mark): Engine
    requires e.session.Some?
  {
    var exit := if p.isLong then mark.sell else mark.buy;
    var fee := Fee(e.config, Rounded(p.quantity * exit, UNIT));
    Booked(e, p.symbol, Gross(p, exit) - fee, fee)
  }

  /** A position leaves the account, which gains `net` after a fee. */
  function Booked(e: Engine, symbol: Symbol, net: Money, fee: Money): Engine
    requires e.session.Some?
  {
    var b, s := e.book, e.session.value;
    e.(book := b.(balance := b.balance + net, realized := b.realized + net, fees := b.fees + fee,
                  positions := Without(b.positions, symbol)),
       session := Some(Braked(s.(realized := s.realized + net, fees := s.fees + fee, closed := s.closed + 1))))
  }

  function Rejected(e: Engine, id: OrderId): Engine
    requires e.session.Some?
  {
    var s := e.session.value;
    e.(book := Recorded(e.book, e.config.maxOrderLog, id, false),
       session := Some(s.(rejected := s.rejected + 1)))
  }

  function Opened(e: Engine, id: OrderId, p: Position): Engine
    requires e.session.Some?
  {
    var fee := Fee(e.config, p.notional);
    var b, s := e.book, e.session.value;
    var paid := b.(balance := b.balance - fee, realized := b.realized - fee, fees := b.fees + fee,
                   positions := b.positions + [p]);
    e.(book := Recorded(paid, e.config.maxOrderLog, id, true),
       session := Some(s.(realized := s.realized - fee, fees := s.fees + fee, submitted := s.submitted + 1)))
  }

  /** Nothing is opened while the mode is off, or past the emergency stop or the day's brake. */
  predicate MayEnter(e: Engine) {
    e.config.enabled && !e.book.emergencyStopped && (e.session.Some? ==> e.session.value.lock.Unlocked?)
  }

  /** The engine's own checks of the position an order comes to, whatever has ruled on it before. */
  predicate PassesGate(c: Config, b: Book, symbol: Symbol, p: Position) {
    && p.symbol == symbol && p.quantity > 0 && 0 < p.notional <= c.maxNotional
    && !IsOpen(b.positions, symbol)
    && |b.positions| < c.maxOpen
    && Exposure(b.positions) + p.notional <= c.maxExposure
    && p.margin <= b.balance - MarginUsed(b.positions)
  }

  function Placed(e: Engine, id: OrderId, symbol: Symbol, terms: Option<Position>): (after: Engine)
    requires e.session.Some?
    ensures after.session.Some?
  {
    if id in e.book.index then e
    else if !MayEnter(e) || terms.None? || !PassesGate(e.config, e.book, symbol, terms.value) then Rejected(e, id)
    else Opened(e, id, terms.value)
  }

  /** Manage one position against its price, if it has one. */
  function Managed(e: Engine, marks: map<Symbol, Mark>, symbol: Symbol): (after: Engine)
    requires e.session.Some?
    ensures after.session.Some?
  {
    var p := Find(e.book.positions, symbol);
    if p.None? || symbol !in marks then e
    else if Triggered(p.value, marks[symbol].last) then Closed(e, p.value, marks[symbol])
    else e.(book := e.book.(positions := AllAdvanced(e.book.positions, symbol, marks[symbol].last)))
  }

  function AllManaged(e: Engine, marks: map<Symbol, Mark>, positions: seq<Position>): (after: Engine)
    requires e.session.Some?
    ensures after.session.Some?
    decreases |positions|
  {
    if positions == [] then e
    else AllManaged(Managed(e, marks, positions[0].symbol), marks, positions[1..])
  }

  /** A close is recorded under the id the engine gives it, and refused without a usable price. */
  function ClosedByHand(e: Engine, id: OrderId, symbol: Symbol, mark: Option<Mark>): (after: Engine)
    requires e.session.Some?
    ensures after.session.Some?
  {
    var p := Find(e.book.positions, symbol);
    if p.None? || mark.None? then Rejected(e, id)
    else
      var c := Closed(e, p.value, mark.value);
      c.(book := Recorded(c.book, c.config.maxOrderLog, id, true))
  }

  function Apply(e: Engine, m: Mutation, now: Time): (after: Engine)
    ensures after.session.Some?
  {
    match m
    case Tick(marks) => var r := Rolled(e, now); AllManaged(r, marks, r.book.positions)
    case Place(id, symbol, terms) => Placed(Rolled(e, now), id, symbol, terms)
    case Refuse(id) => Rejected(Rolled(e, now), id)
    case ClosePosition(id, symbol, mark) => ClosedByHand(Rolled(e, now), id, symbol, mark)
    case Reset(balance) => Rolled(Engine(e.config, NewBook(balance), None), now)
    case EmergencyStop(engaged) => var r := Rolled(e, now); r.(book := r.book.(emergencyStopped := engaged))
  }

  datatype Touch = Mutated(mutation: Mutation, now: Time) | Peeked(now: Time)

  function Touched(e: Engine, t: Touch): Engine {
    match t
    case Mutated(m, now) => Apply(e, m, now)
    case Peeked(now) => Rolled(e, now)
  }

  function AllTouched(e: Engine, touches: seq<Touch>): Engine
    decreases |touches|
  {
    if touches == [] then e else AllTouched(Touched(e, touches[0]), touches[1..])
  }

  // ------------------------------------------------------------------
  // The books balance
  // ------------------------------------------------------------------

  predicate Balanced(e: Engine) {
    e.book.balance == e.book.starting + e.book.realized
  }

  /** What managing positions leaves alone: only the book's money, its positions and the session move. */
  lemma {:induction false} ManagingKeeps(e: Engine, marks: map<Symbol, Mark>, positions: seq<Position>)
    requires e.session.Some?
    ensures var after := AllManaged(e, marks, positions);
            && after.config == e.config && after.book.log == e.book.log && after.book.index == e.book.index
            && after.book.starting == e.book.starting && after.book.emergencyStopped == e.book.emergencyStopped
            && after.session.value.date == e.session.value.date
            && (!e.session.value.lock.Unlocked? ==> !after.session.value.lock.Unlocked?)
            && after.book.balance - after.book.realized == e.book.balance - e.book.realized
    decreases |positions|
  {
    if positions != [] {
      ManagedKeeps(e, marks, positions[0].symbol);
      ManagingKeeps(Managed(e, marks, positions[0].symbol), marks, positions[1..]);
    }
  }

  lemma ManagedKeeps(e: Engine, marks: map<Symbol, Mark>, symbol: Symbol)
    requires e.session.Some?
    ensures var after := Managed(e, marks, symbol);
            && after.config == e.config && after.book.log == e.book.log && after.book.index == e.book.index
            && after.book.starting == e.book.starting && after.book.emergencyStopped == e.book.emergencyStopped
            && after.session.value.date == e.session.value.date
            && (!e.session.value.lock.Unlocked? ==> !after.session.value.lock.Unlocked?)
            && after.book.balance - after.book.realized == e.book.balance - e.book.realized
  {
  }

  /** Whatever happens to an account, its balance is what it started with plus what it realised. */
  lemma {:induction false} BooksBalance(e: Engine, touches: seq<Touch>)
    requires Balanced(e)
    ensures Balanced(AllTouched(e, touches))
    decreases |touches|
  {
    if touches != [] {
      BalancedAfter(e, touches[0]);
      BooksBalance(Touched(e, touches[0]), touches[1..]);
    }
  }

  lemma BalancedAfter(e: Engine, t: Touch)
    requires Balanced(e)
    ensures Balanced(Touched(e, t))
  {
    if t.Mutated? {
      if t.mutation.Tick? {
        var r := Rolled(e, t.now);
        ManagingKeeps(r, t.mutation.marks, r.book.positions);
      } else {
        BalancedCall(e, t.mutation, t.now);
      }
    }
  }

  lemma BalancedCall(e: Engine, m: Mutation, now: Time)
    requires Balanced(e) && !m.Tick?
    ensures Balanced(Apply(e, m, now))
  {
  }

  // ------------------------------------------------------------------
  // Nothing opens past the gate
  // ------------------------------------------------------------------

  predicate OneEach(positions: seq<Position>) {
    forall i, j :: 0 <= i < j < |positions| ==> positions[i].symbol != positions[j].symbol
  }

  /** One position a symbol, no more than the ceiling allows, and no more exposure. */
  predicate WithinLimits(e: Engine) {
    var ps := e.book.positions;
    && OneEach(ps) && |ps| <= e.config.maxOpen
    && (forall p <- ps :: 0 < p.notional <= e.config.maxNotional)
    && (ps != [] ==> Exposure(ps) <= e.config.maxExposure)
  }

  lemma {:induction false} WithoutMembers(ps: seq<Position>, symbol: Symbol)
    ensures forall p :: p in Without(ps, symbol) <==> p in ps && p.symbol != symbol
    ensures |Without(ps, symbol)| <= |ps|
  {
    if ps != [] {
      WithoutMembers(ps[1..], symbol);
      assert ps == [ps[0]] + ps[1..];
    }
  }

  lemma {:induction false} WithoutKeepsOneEach(ps: seq<Position>, symbol: Symbol)
    requires OneEach(ps)
    ensures OneEach(Without(ps, symbol))
  {
    if ps != [] {
      var rest := Without(ps[1..], symbol);
      WithoutKeepsOneEach(ps[1..], symbol);
      WithoutMembers(ps[1..], symbol);
      assert forall i :: 0 <= i < |rest| ==> rest[i] in ps[1..];
    }
  }

  lemma {:induction false} WithoutLowersExposure(ps: seq<Position>, symbol: Symbol)
    requires forall i :: 0 <= i < |ps| ==> ps[i].notional > 0
    ensures 0 <= Exposure(Without(ps, symbol)) <= Exposure(ps)
  {
    if ps != [] {
      var rest := Without(ps[1..], symbol);
      WithoutLowersExposure(ps[1..], symbol);
      assert ([] + rest) == rest && ([ps[0]] + rest)[1..] == rest;
    }
  }

  lemma WithoutKeeps(ps: seq<Position>, symbol: Symbol)
    requires OneEach(ps) && forall p <- ps :: p.notional > 0
    ensures var rest := Without(ps, symbol);
            && |rest| <= |ps| && OneEach(rest) && 0 <= Exposure(rest) <= Exposure(ps)
            && (forall p <- rest :: p in ps)
  {
    WithoutMembers(ps, symbol);
    WithoutKeepsOneEach(ps, symbol);
    WithoutLowersExposure(ps, symbol);
  }

  lemma {:induction false} AdvancingKeeps(ps: seq<Position>, symbol: Symbol, price: Money)
    ensures Exposure(AllAdvanced(ps, symbol, price)) == Exposure(ps)
  {
    if ps != [] {
      AdvancingKeeps(ps[1..], symbol, price);
    }
  }

  lemma BookedWithinLimits(e: Engine, symbol: Symbol, net: Money, fee: Money)
    requires e.session.Some? && WithinLimits(e)
    ensures WithinLimits(Booked(e, symbol, net, fee))
  {
    WithoutKeeps(e.book.positions, symbol);
  }

  lemma AdvancedWithinLimits(e: Engine, symbol: Symbol, price: Money)
    requires WithinLimits(e)
    ensures WithinLimits(e.(book := e.book.(positions := AllAdvanced(e.book.positions, symbol, price))))
  {
    AdvancingKeeps(e.book.positions, symbol, price);
  }

  lemma ManagedWithinLimits(e: Engine, marks: map<Symbol, Mark>, symbol: Symbol)
    requires e.session.Some? && WithinLimits(e)
    ensures WithinLimits(Managed(e, marks, symbol))
  {
    var p := Find(e.book.positions, symbol);
    if p.Some? && symbol in marks {
      var mark := marks[symbol];
      if Triggered(p.value, mark.last) {
        var exit := if p.value.isLong then mark.sell else mark.buy;
        var fee := Fee(e.config, Rounded(p.value.quantity * exit, UNIT));
        BookedWithinLimits(e, symbol, Gross(p.value, exit) - fee, fee);
      } else {
        AdvancedWithinLimits(e, symbol, mark.last);
      }
    }
  }

  lemma {:induction false} ManagingWithinLimits(e: Engine, marks: map<Symbol, Mark>, positions: seq<Position>)
    requires e.session.Some? && WithinLimits(e)
    ensures WithinLimits(AllManaged(e, marks, positions))
    decreases |positions|
  {
    if positions != [] {
      ManagedWithinLimits(e, marks, positions[0].symbol);
      ManagingWithinLimits(Managed(e, marks, positions[0].symbol), marks, positions[1..]);
    }
  }

  lemma {:induction false} ExposureOfOneMore(ps: seq<Position>, p: Position)
    ensures Exposure(ps + [p]) == Exposure(ps) + p.notional
  {
    if ps != [] {
      assert (ps + [p])[1..] == ps[1..] + [p];
      ExposureOfOneMore(ps[1..], p);
    }
  }

  lemma CallWithinLimits(e: Engine, m: Mutation, now: Time)
    requires WithinLimits(e)
    ensures WithinLimits(Apply(e, m, now))
  {
    var r := Rolled(e, now);
    if m.Tick? {
      ManagingWithinLimits(r, m.marks, r.book.positions);
    } else if m.Place? {
      PlacedWithinLimits(r, m.id, m.symbol, m.terms);
    } else if m.ClosePosition? {
      WithoutKeeps(r.book.positions, m.symbol);
    }
  }

  lemma PlacedWithinLimits(e: Engine, id: OrderId, symbol: Symbol, terms: Option<Position>)
    requires e.session.Some? && WithinLimits(e)
    ensures WithinLimits(Placed(e, id, symbol, terms))
  {
    if terms.Some? {
      ExposureOfOneMore(e.book.positions, terms.value);
    }
  }

  /**
    The gate looks at the account as it stands when the order is placed, in the same stretch.
    So whatever ruled on an order, and whenever, over any calls and reads there is one position
    a symbol at most, and never more positions or exposure than allowed.
   */
  lemma {:induction false} NothingOpensPastTheGate(e: Engine, touches: seq<Touch>)
    requires WithinLimits(e)
    ensures WithinLimits(AllTouched(e, touches))
    decreases |touches|
  {
    if touches != [] {
      var t := touches[0];
      if t.Mutated? {
        CallWithinLimits(e, t.mutation, t.now);
      }
      NothingOpensPastTheGate(Touched(e, t), touches[1..]);
    }
  }

  // ------------------------------------------------------------------
  // Retrying a submission
  // ------------------------------------------------------------------

  /** The call opened a position. */
  predicate Fills(e: Engine, m: Mutation, now: Time) {
    m.Place? && |Apply(e, m, now).book.positions| > |e.book.positions|
  }

  predicate Resets(t: Touch) {
    t.Mutated? && t.mutation.Reset?
  }

  /** The order a call or a read records, if any. */
  function RecordedBy(e: Engine, t: Touch): seq<Order> {
    if t.Peeked? then []
    else
      match t.mutation
      case Place(id, _, _) => if id in e.book.index then [] else [Order(id, Fills(e, t.mutation, t.now))]
      case Refuse(id) => [Order(id, false)]
      case ClosePosition(id, symbol, mark) => [Order(id, IsOpen(e.book.positions, symbol) && mark.Some?)]
      case _ => []
  }

  function AllRecordedBy(e: Engine, touches: seq<Touch>): seq<Order>
    decreases |touches|
  {
    if touches == [] then [] else RecordedBy(e, touches[0]) + AllRecordedBy(Touched(e, touches[0]), touches[1..])
  }

  /** What a log of these orders has dropped by now. */
  function Dropped(orders: seq<Order>, ceiling: nat): seq<Order> {
    orders[..Excess(orders, ceiling)]
  }

  predicate LogFits(e: Engine) {
    |e.book.log| <= e.config.maxOrderLog
  }

  /** The log and the index once these orders are recorded: the oldest drop out of both. */
  predicate Records(e: Engine, after: Engine, recorded: seq<Order>) {
    var orders := e.book.log + recorded;
    var n := Excess(orders, e.config.maxOrderLog);
    && after.config == e.config && after.book.log == orders[n..] && |recorded| <= 1
    && after.book.index == (if recorded == [] then e.book.index
                            else e.book.index[recorded[0].id := recorded[0].filled] - Ids(orders[..n]))
  }

  lemma NothingRecorded(e: Engine, after: Engine)
    requires LogFits(e) && after.config == e.config
    requires after.book.log == e.book.log && after.book.index == e.book.index
    ensures Records(e, after, [])
  {
    assert e.book.log + [] == e.book.log;
  }

  lemma PlacingRecords(e: Engine, m: Mutation, now: Time)
    requires m.Place? && LogFits(e)
    ensures Records(e, Apply(e, m, now), RecordedBy(e, Mutated(m, now)))
  {
    if m.id in e.book.index {
      NothingRecorded(e, Apply(e, m, now));
    }
  }

  lemma ClosingRecords(e: Engine, m: Mutation, now: Time)
    requires m.ClosePosition? && LogFits(e)
    ensures Records(e, Apply(e, m, now), RecordedBy(e, Mutated(m, now)))
  {
  }

  lemma RefusingRecords(e: Engine, m: Mutation, now: Time)
    requires m.Refuse? && LogFits(e)
    ensures Records(e, Apply(e, m, now), RecordedBy(e, Mutated(m, now)))
  {
  }

  lemma TickingRecords(e: Engine, m: Mutation, now: Time)
    requires m.Tick? && LogFits(e)
    ensures Records(e, Apply(e, m, now), [])
  {
    var r := Rolled(e, now);
    ManagingKeeps(r, m.marks, r.book.positions);
    NothingRecorded(e, Apply(e, m, now));
  }

  lemma TouchRecords(e: Engine, t: Touch)
    requires !Resets(t) && LogFits(e)
    ensures Records(e, Touched(e, t), RecordedBy(e, t))
  {
    if t.Peeked? || t.mutation.EmergencyStop? {
      NothingRecorded(e, Touched(e, t));
    } else if t.mutation.Place? {
      PlacingRecords(e, t.mutation, t.now);
    } else if t.mutation.ClosePosition? {
      ClosingRecords(e, t.mutation, t.now);
    } else if t.mutation.Refuse? {
      RefusingRecords(e, t.mutation, t.now);
    } else if t.mutation.Tick? {
      TickingRecords(e, t.mutation, t.now);
    }
  }

  lemma RecordingDrops(e: Engine, after: Engine, recorded: seq<Order>, id: OrderId)
    requires LogFits(e) && Records(e, after, recorded) && !Mentions(recorded, id)
    ensures LogFits(after)
    ensures id in after.book.index
            <==> id in e.book.index && !Mentions(Dropped(e.book.log + recorded, e.config.maxOrderLog), id)
  {
    assert recorded != [] ==> recorded[0].id != id;
    assert e.book.log + [] == e.book.log;
  }

  /** Dropping in two goes drops the same. */
  lemma DroppedInTwo(first: seq<Order>, rest: seq<Order>, ceiling: nat, id: OrderId)
    ensures var kept := first[Excess(first, ceiling)..];
            Mentions(Dropped(first + rest, ceiling), id)
            <==> Mentions(Dropped(first, ceiling), id) || Mentions(Dropped(kept + rest, ceiling), id)
  {
    var n := Excess(first, ceiling);
    var kept := first[n..];
    assert first + rest == first[..n] + (kept + rest);
    assert Dropped(first + rest, ceiling) == Dropped(first, ceiling) + Dropped(kept + rest, ceiling);
    MentionedInEither(Dropped(first, ceiling), Dropped(kept + rest, ceiling), id);
  }

  lemma MentionedInEither(a: seq<Order>, b: seq<Order>, id: OrderId)
    ensures Mentions(a + b, id) <==> Mentions(a, id) || Mentions(b, id)
  {
    if i :| 0 <= i < |a| && a[i].id == id {
      assert (a + b)[i].id == id;
    }
    if i :| 0 <= i < |b| && b[i].id == id {
      assert (a + b)[|a| + i].id == id;
    }
  }

  /** An id that is not recorded again can be replayed until it is among what the log has dropped. */
  lemma {:induction false} ReplayableUntilDropped(e: Engine, touches: seq<Touch>, id: OrderId)
    requires LogFits(e) && (forall t <- touches :: !Resets(t)) && !Mentions(AllRecordedBy(e, touches), id)
    ensures id in AllTouched(e, touches).book.index
            <==> id in e.book.index
                 && !Mentions(Dropped(e.book.log + AllRecordedBy(e, touches), e.config.maxOrderLog), id)
    decreases |touches|
  {
    if touches == [] {
      assert e.book.log + [] == e.book.log;
    } else {
      var t := touches[0];
      assert t in touches;
      var next := Touched(e, t);
      var one, rest := RecordedBy(e, t), AllRecordedBy(next, touches[1..]);
      MentionedInEither(one, rest, id);
      assert forall u <- touches[1..] :: u in touches;
      TouchRecords(e, t);
      RecordingDrops(e, next, one, id);
      ReplayableUntilDropped(next, touches[1..], id);
      DroppedAfter(e, next, one, rest, id);
    }
  }

  lemma DroppedAfter(e: Engine, next: Engine, one: seq<Order>, rest: seq<Order>, id: OrderId)
    requires Records(e, next, one)
    ensures var ceiling := e.config.maxOrderLog;
            Mentions(Dropped(e.book.log + (one + rest), ceiling), id)
            <==> Mentions(Dropped(e.book.log + one, ceiling), id) || Mentions(Dropped(next.book.log + rest, ceiling), id)
  {
    DroppedInTwo(e.book.log + one, rest, e.config.maxOrderLog, id);
    assert e.book.log + (one + rest) == e.book.log + one + rest;
  }

  /**
    A retried submission is answered, and nothing but the day's session changes, exactly until
    its id is among the orders the log has dropped; from then on it is a new order.
   */
  lemma RetryIsAnsweredIff(e: Engine, touches: seq<Touch>, retry: Mutation, later: Time)
    requires retry.Place? && LogFits(e) && retry.id in e.book.index
    requires (forall t <- touches :: !Resets(t)) && !Mentions(AllRecordedBy(e, touches), retry.id)
    ensures var before := AllTouched(e, touches);
            Apply(before, retry, later) == Rolled(before, later)
            <==> !Mentions(Dropped(e.book.log + AllRecordedBy(e, touches), e.config.maxOrderLog), retry.id)
  {
    ReplayableUntilDropped(e, touches, retry.id);
    NewOrderIsCounted(AllTouched(e, touches), retry, later);
  }

  lemma NewOrderIsCounted(e: Engine, m: Mutation, now: Time)
    requires m.Place?
    ensures Apply(e, m, now) == Rolled(e, now) <==> m.id in e.book.index
  {
  }

  /** So a first submission can be retried while fewer orders than the log holds came after it. */
  lemma FirstSubmissionIsAnsweredIff(e: Engine, m: Mutation, now: Time, since: seq<Touch>, retry: Mutation, later: Time)
    requires m.Place? && m.id !in e.book.index && !Mentions(e.book.log, m.id)
    requires LogFits(e) && e.config.maxOrderLog > 0
    requires retry.Place? && retry.id == m.id
    requires var first := Apply(e, m, now);
             (forall t <- since :: !Resets(t)) && !Mentions(AllRecordedBy(first, since), m.id)
    ensures var first := Apply(e, m, now);
            var before := AllTouched(first, since);
            Apply(before, retry, later) == Rolled(before, later)
            <==> |AllRecordedBy(first, since)| < e.config.maxOrderLog
  {
    var first := Apply(e, m, now);
    FirstIsLast(e, m, now);
    RetryIsAnsweredIff(first, since, retry, later);
    LastIsDroppedIff(first.book.log, AllRecordedBy(first, since), e.config.maxOrderLog);
  }

  /** A new order stands at the end of the log, and nowhere else in it. */
  lemma FirstIsLast(e: Engine, m: Mutation, now: Time)
    requires m.Place? && m.id !in e.book.index && !Mentions(e.book.log, m.id)
    requires LogFits(e) && e.config.maxOrderLog > 0
    ensures var first := Apply(e, m, now);
            var log := first.book.log;
            && first.config == e.config && LogFits(first) && m.id in first.book.index
            && log != [] && log[|log| - 1].id == m.id && !Mentions(log[..|log| - 1], m.id)
  {
    var t := Mutated(m, now);
    TouchRecords(e, t);
    var orders := e.book.log + RecordedBy(e, t);
    var n := Excess(orders, e.config.maxOrderLog);
    var log := Touched(e, t).book.log;
    assert forall i :: 0 <= i < |log| - 1 ==> log[i] == e.book.log[n + i];
    assert forall i :: 0 <= i < n ==> orders[..n][i] == e.book.log[i];
  }

  lemma LastIsDroppedIff(log: seq<Order>, since: seq<Order>, ceiling: nat)
    requires log != [] && !Mentions(log[..|log| - 1], log[|log| - 1].id) && !Mentions(since, log[|log| - 1].id)
    requires |log| <= ceiling
    ensures Mentions(Dropped(log + since, ceiling), log[|log| - 1].id) <==> |since| >= ceiling
  {
    var last := |log| - 1;
    var gone := Dropped(log + since, ceiling);
    assert |gone| > last <==> |since| >= ceiling;
    if |gone| > last {
      assert gone[last] == log[last];
    } else {
      assert forall i :: 0 <= i < |gone| ==> gone[i] == log[..last][i];
    }
  }

  /** Refused attempts to close what is not open, under the ids the engine gives them. */
  function Attempts(ids: seq<OrderId>, symbol: Symbol, now: Time): seq<Touch> {
    seq(|ids|, i requires 0 <= i < |ids| => Mutated(ClosePosition(ids[i], symbol, None), now))
  }

  function Refusals(ids: seq<OrderId>): seq<Order> {
    seq(|ids|, i requires 0 <= i < |ids| => Order(ids[i], false))
  }

  lemma {:induction false} AttemptsAreRecorded(e: Engine, ids: seq<OrderId>, symbol: Symbol, now: Time)
    requires e.session.Some? && e.session.value.date == Date(now)
    ensures AllRecordedBy(e, Attempts(ids, symbol, now)) == Refusals(ids)
    ensures var after := AllTouched(e, Attempts(ids, symbol, now));
            && after.config == e.config && after.session.Some?
            && after.session.value.lock == e.session.value.lock && after.session.value.date == e.session.value.date
            && after.book == e.book.(log := after.book.log, index := after.book.index)
    decreases |ids|
  {
    if ids != [] {
      var touches := Attempts(ids, symbol, now);
      assert touches[1..] == Attempts(ids[1..], symbol, now);
      AttemptsAreRecorded(Touched(e, touches[0]), ids[1..], symbol, now);
      assert Refusals(ids) == [Order(ids[0], false)] + Refusals(ids[1..]);
    }
  }

  /** After an attempted close and as many orders as the log holds, the log's last order is gone. */
  lemma CrowdedOut(first: Engine, close: Touch, ids: seq<OrderId>, symbol: Symbol, now: Time, id: OrderId)
    requires close.Mutated? && close.mutation.ClosePosition? && close.now == now && LogFits(first)
    requires |ids| + 1 == first.config.maxOrderLog && id !in ids && close.mutation.id != id
    requires var log := first.book.log;
             log != [] && log[|log| - 1].id == id && !Mentions(log[..|log| - 1], id)
    ensures id !in AllTouched(Touched(first, close), Attempts(ids, symbol, now)).book.index
  {
    var closed := Touched(first, close);
    var attempts := Attempts(ids, symbol, now);
    var since := [close] + attempts;
    assert since[1..] == attempts;
    DatedToday(first, close.mutation, now);
    AttemptsAreRecorded(closed, ids, symbol, now);
    var recorded := RecordedBy(first, close) + Refusals(ids);
    assert AllRecordedBy(first, since) == recorded;
    assert recorded[0].id == close.mutation.id && forall i :: 1 <= i < |recorded| ==> recorded[i].id == ids[i - 1];
    ReplayableUntilDropped(first, since, id);
    LastIsDroppedIff(first.book.log, recorded, first.config.maxOrderLog);
  }

  /** One id fills, its position is closed, as many orders pass as the log holds, and it fills again. */
  lemma AnIdFillsTwice(e: Engine, m: Mutation, now: Time, close: Mutation, ids: seq<OrderId>)
    requires OtherwiseFills(e, m) && !Mentions(e.book.log, m.id) && LogFits(e) && MayEnter(Rolled(e, now))
    requires m.id !in ids && |ids| + 1 == e.config.maxOrderLog
    requires close.ClosePosition? && close.id != m.id
    ensures Fills(e, m, now)
    ensures var closed := Apply(Apply(e, m, now), close, now);
            MayEnter(closed) && PassesGate(closed.config, closed.book, m.symbol, m.terms.value)
            ==> Fills(AllTouched(closed, Attempts(ids, m.symbol, now)), m, now)
  {
    UnlockedFills(e, m, now);
    var first := Apply(e, m, now);
    var closed := Apply(first, close, now);
    var last := AllTouched(closed, Attempts(ids, m.symbol, now));
    FirstIsLast(e, m, now);
    CrowdedOut(first, Mutated(close, now), ids, m.symbol, now, m.id);
    DatedToday(first, close, now);
    AttemptsAreRecorded(closed, ids, m.symbol, now);
    if MayEnter(closed) && PassesGate(closed.config, closed.book, m.symbol, m.terms.value) {
      RefillsAfter(closed, last, m, now);
    }
  }

  /** The log and the index are all that changed, and the id is free again. */
  lemma RefillsAfter(closed: Engine, last: Engine, m: Mutation, now: Time)
    requires m.Place? && m.terms.Some? && m.id !in last.book.index
    requires MayEnter(closed) && PassesGate(closed.config, closed.book, m.symbol, m.terms.value)
    requires closed.session.Some? && closed.session.value.date == Date(now)
    requires last.config == closed.config && last.session.Some?
    requires last.session.value.lock == closed.session.value.lock && last.session.value.date == closed.session.value.date
    requires last.book == closed.book.(log := last.book.log, index := last.book.index)
    ensures Fills(last, m, now)
  {
    UnlockedFills(last, m, now);
  }

  /** A new account that trades free of charge, and a position that is closed where it was opened. */
  predicate ClosesFlat(e: Engine, m: Mutation, close: Mutation) {
    && m.Place? && m.terms.Some? && close.ClosePosition? && close.symbol == m.symbol
    && close.mark == Some(Mark(m.terms.value.entry, m.terms.value.entry, m.terms.value.entry))
    && e.book.positions == [] && e.session.None? && e.config.takerFeeBps == 0
    && e.config.lossLimit < 0 < e.config.profitTarget
  }

  lemma ClosingFlatChangesNothing(e: Engine, p: Position, mark: Mark)
    requires e.session.Some? && e.config.takerFeeBps == 0 && mark == Mark(p.entry, p.entry, p.entry)
    ensures Closed(e, p, mark) == Booked(e, p.symbol, 0, 0)
  {
    assert 0 * p.quantity == 0;
    FreeOfCharge(e.config, Rounded(p.quantity * p.entry, UNIT));
  }

  lemma FreeOfCharge(c: Config, notional: Money)
    requires c.takerFeeBps == 0
    ensures Fee(c, notional) == 0
  {
    assert notional * 0 == 0;
  }

  lemma FlatAccountReopens(e: Engine, m: Mutation, now: Time, close: Mutation)
    requires OtherwiseFills(e, m) && ClosesFlat(e, m, close)
    ensures var closed := Apply(Apply(e, m, now), close, now);
            MayEnter(closed) && PassesGate(closed.config, closed.book, m.symbol, m.terms.value)
  {
    var r := Rolled(e, now);
    var p := m.terms.value;
    FreeOfCharge(e.config, p.notional);
    var first := Apply(e, m, now);
    assert first == Opened(r, m.id, p) && first.book.positions == [p];
    ClosingFlatChangesNothing(first, p, close.mark.value);
    assert Without([p], m.symbol) == [];
  }

  /** So in a new account one id fills twice. */
  lemma AnIdFillsTwiceInANewAccount(e: Engine, m: Mutation, now: Time, close: Mutation, ids: seq<OrderId>)
    requires OtherwiseFills(e, m) && ClosesFlat(e, m, close) && e.book.log == []
    requires m.id !in ids && |ids| + 1 == e.config.maxOrderLog && close.id != m.id
    ensures var closed := Apply(Apply(e, m, now), close, now);
            Fills(e, m, now) && Fills(AllTouched(closed, Attempts(ids, m.symbol, now)), m, now)
  {
    FlatAccountReopens(e, m, now, close);
    AnIdFillsTwice(e, m, now, close, ids);
  }

  lemma DatedToday(e: Engine, m: Mutation, now: Time)
    requires m.ClosePosition?
    ensures Apply(e, m, now).session.value.date == Date(now) && Apply(e, m, now).config == e.config
  {
  }

  // ------------------------------------------------------------------
  // The index and the log
  // ------------------------------------------------------------------

  /** The index a stored log is read back into: the last order of an id counts. */
  function IndexOf(log: seq<Order>): (index: map<OrderId, bool>)
    ensures forall id :: id in index <==> Mentions(log, id)
  {
    if log == [] then map[]
    else
      var n := |log| - 1;
      assert forall id :: Mentions(log, id) <==> Mentions(log[..n], id) || log[n].id == id by {
        assert log == log[..n] + [log[n]];
        forall id ensures Mentions(log, id) <==> Mentions(log[..n], id) || log[n].id == id {
          MentionedInEither(log[..n], [log[n]], id);
          assert log[n].id == id ==> [log[n]][0].id == id;
        }
      }
      IndexOf(log[..n])[log[n].id := log[n].filled]
  }

  /** Every order in the log has an id of its own. */
  predicate OwnIds(log: seq<Order>) {
    log == [] || (OwnIds(log[..|log| - 1]) && !Mentions(log[..|log| - 1], log[|log| - 1].id))
  }

  /** Every order in the log has an id of its own, and the index is what the log says. */
  predicate Indexed(b: Book) {
    OwnIds(b.log) && b.index == IndexOf(b.log)
  }

  lemma IndexOfOneMore(log: seq<Order>, o: Order)
    ensures IndexOf(log + [o]) == IndexOf(log)[o.id := o.filled]
    ensures OwnIds(log + [o]) <==> OwnIds(log) && !Mentions(log, o.id)
    ensures forall id :: Mentions(log + [o], id) <==> Mentions(log, id) || o.id == id
  {
    assert (log + [o])[..|log|] == log;
    forall id
      ensures Mentions(log + [o], id) <==> Mentions(log, id) || o.id == id
    {
      MentionedInEither(log, [o], id);
      assert o.id == id ==> [o][0].id == id;
    }
  }

  lemma TailMentions(log: seq<Order>, id: OrderId)
    requires log != []
    ensures Mentions(log, id) <==> log[0].id == id || Mentions(log[1..], id)
  {
    MentionedInEither(log[..1], log[1..], id);
    assert log == log[..1] + log[1..];
    assert Mentions(log[..1], id) <==> log[..1][0].id == id;
  }

  /** `rest` is what is left of the log without its oldest order. */
  predicate WithoutTheOldest(log: seq<Order>, rest: seq<Order>)
    requires log != []
  {
    OwnIds(rest) && !Mentions(rest, log[0].id) && IndexOf(rest) == IndexOf(log) - {log[0].id}
  }

  lemma WithoutTheOldestStep(first: seq<Order>, last: Order)
    requires first != [] && !Mentions(first, last.id) && WithoutTheOldest(first, first[1..])
    ensures WithoutTheOldest(first + [last], first[1..] + [last])
  {
    assert first[0].id != last.id;
    TailMentions(first, last.id);
    IndexOfOneMore(first, last);
    IndexOfOneMore(first[1..], last);
  }

  lemma {:induction false} IndexWithoutTheOldest(log: seq<Order>)
    requires log != [] && OwnIds(log)
    ensures WithoutTheOldest(log, log[1..])
  {
    var n := |log| - 1;
    if n > 0 {
      IndexWithoutTheOldest(log[..n]);
      WithoutTheOldestStep(log[..n], log[n]);
      assert log == log[..n] + [log[n]] && log[1..] == log[..n][1..] + [log[n]];
    } else {
      assert log[1..] == [];
    }
  }

  lemma IdsOfFirst(log: seq<Order>, n: nat)
    requires n <= |log| && n <= 1
    ensures Ids(log[..n]) == if n == 1 then {log[0].id} else {}
  {
    assert n == 1 ==> log[..n] == [log[0]];
  }

  /** An order under an id the log does not hold keeps them in agreement. */
  lemma RecordingKeepsTheIndex(b: Book, ceiling: nat, id: OrderId, filled: bool)
    requires Indexed(b) && |b.log| <= ceiling && !Mentions(b.log, id)
    ensures Indexed(Recorded(b, ceiling, id, filled))
  {
    var log := b.log + [Order(id, filled)];
    var n := Excess(log, ceiling);
    IndexOfOneMore(b.log, Order(id, filled));
    IdsOfFirst(log, n);
    if n == 1 {
      IndexWithoutTheOldest(log);
    } else {
      assert log[n..] == log;
      assert b.index[id := filled] - {} == b.index[id := filled];
    }
  }

  // ------------------------------------------------------------------
  // The daily brake
  // ------------------------------------------------------------------

  predicate LockedOn(e: Engine, date: int) {
    e.session.Some? && e.session.value.date == date && !e.session.value.lock.Unlocked?
  }

  lemma LockedNothingFills(e: Engine, m: Mutation, now: Time)
    requires LockedOn(e, Date(now))
    ensures !Fills(e, m, now)
  {
  }

  lemma LockedStaysLocked(e: Engine, t: Touch, date: int)
    requires LockedOn(e, date) && Date(t.now) == date && !Resets(t)
    ensures LockedOn(Touched(e, t), date)
  {
    if t.Mutated? && t.mutation.Tick? {
      ManagingKeeps(e, t.mutation.marks, e.book.positions);
    }
  }

  /** While every call and every read carries the day's own date, the brake stays on and nothing opens. */
  lemma {:induction false} BrakeHolds(e: Engine, touches: seq<Touch>, date: int)
    requires LockedOn(e, date)
    requires forall t <- touches :: Date(t.now) == date && !Resets(t)
    ensures LockedOn(AllTouched(e, touches), date)
    ensures forall m: Mutation, now: Time :: Date(now) == date ==> !Fills(AllTouched(e, touches), m, now)
    decreases |touches|
  {
    if touches != [] {
      assert touches[0] in touches;
      LockedStaysLocked(e, touches[0], date);
      BrakeHolds(Touched(e, touches[0]), touches[1..], date);
    } else {
      forall m: Mutation, now: Time | Date(now) == date
        ensures !Fills(e, m, now)
      {
        LockedNothingFills(e, m, now);
      }
    }
  }

  /** So with a clock that never goes backwards from call to call, nothing opens on a braked day. */
  lemma MonotoneClockKeepsTheBrake(e: Engine, touches: seq<Touch>, lockedAt: Time, m: Mutation, now: Time)
    requires LockedOn(e, Date(lockedAt)) && Date(now) == Date(lockedAt)
    requires forall t <- touches :: lockedAt <= t.now <= now && !Resets(t)
    ensures !Fills(AllTouched(e, touches), m, now)
  {
    forall t <- touches
      ensures Date(t.now) == Date(lockedAt)
    {
      assert Date(lockedAt) <= Date(t.now) <= Date(now);
    }
    BrakeHolds(e, touches, Date(lockedAt));
  }

  function Reads(nows: seq<Time>): seq<Touch> {
    seq(|nows|, i requires 0 <= i < |nows| => Peeked(nows[i]))
  }

  /** The order would fill but for the day's brake. */
  predicate OtherwiseFills(e: Engine, m: Mutation) {
    && m.Place? && m.id !in e.book.index && m.terms.Some?
    && PassesGate(e.config, e.book, m.symbol, m.terms.value)
    && e.config.enabled && !e.book.emergencyStopped
  }

  /**
    A read takes its instant, then waits for prices, then rolls the session to that instant's
    date. So a day's brake outlives the reads that finish after it engaged exactly when none
    of them began on another date: a read that did wipes the lock, and the next order fills.
   */
  lemma BrakeSurvivesReadsIff(e: Engine, nows: seq<Time>, m: Mutation, now: Time)
    requires LockedOn(e, Date(now)) && OtherwiseFills(e, m)
    ensures Fills(AllTouched(e, Reads(nows)), m, now)
            <==> exists k :: 0 <= k < |nows| && Date(nows[k]) != Date(now)
  {
    if k :| 0 <= k < |nows| && Date(nows[k]) != Date(now) {
      StrayReadUnlocks(e, nows, k, Date(now));
      UnlockedFills(AllTouched(e, Reads(nows)), m, now);
    } else {
      BrakeHolds(e, Reads(nows), Date(now));
    }
  }

  lemma UnlockedFills(e: Engine, m: Mutation, now: Time)
    requires OtherwiseFills(e, m) && MayEnter(Rolled(e, now))
    ensures Fills(e, m, now)
  {
  }

  /** After a read of another date, whatever session is current on the lock's date is a fresh one. */
  lemma {:induction false} StrayReadUnlocks(e: Engine, nows: seq<Time>, k: nat, date: int)
    requires e.session.Some? && k < |nows| && Date(nows[k]) != date
    ensures var after := AllTouched(e, Reads(nows));
            && after.book == e.book && after.config == e.config && after.session.Some?
            && (after.session.value.date == date ==> after.session.value.lock.Unlocked?)
    decreases |nows|
  {
    var next := Rolled(e, nows[0]);
    assert Reads(nows)[1..] == Reads(nows[1..]);
    if k == 0 {
      FreshOrElsewhere(next, nows[1..], date);
    } else {
      StrayReadUnlocks(next, nows[1..], k - 1, date);
    }
  }

  lemma {:induction false} FreshOrElsewhere(e: Engine, nows: seq<Time>, date: int)
    requires e.session.Some? && (e.session.value.date == date ==> e.session.value.lock.Unlocked?)
    ensures var after := AllTouched(e, Reads(nows));
            && after.book == e.book && after.config == e.config && after.session.Some?
            && (after.session.value.date == date ==> after.session.value.lock.Unlocked?)
    decreases |nows|
  {
    if nows != [] {
      assert Reads(nows)[1..] == Reads(nows[1..]);
      FreshOrElsewhere(Rolled(e, nows[0]), nows[1..], date);
    }
  }

  // ------------------------------------------------------------------
  // Reads among the writes
  // ------------------------------------------------------------------

  function OnlyMutations(touches: seq<Touch>): seq<Touch> {
    if touches == [] then []
    else (if touches[0].Mutated? then [touches[0]] else []) + OnlyMutations(touches[1..])
  }

  lemma RolledTwice(e: Engine, a: Time, b: Time)
    requires Date(a) == Date(b)
    ensures Rolled(Rolled(e, a), b) == Rolled(e, b)
  {
  }

  /** Within one day the reads between the calls leave no trace but the day's session itself. */
  lemma {:induction false} ReadsAreHarmlessWithinADay(e: Engine, f: Engine, touches: seq<Touch>, now: Time)
    requires forall t <- touches :: Date(t.now) == Date(now)
    requires Rolled(e, now) == Rolled(f, now)
    ensures Rolled(AllTouched(e, touches), now) == Rolled(AllTouched(f, OnlyMutations(touches)), now)
    decreases |touches|
  {
    if touches != [] {
      var t := touches[0];
      assert t in touches;
      RolledTwice(e, t.now, now);
      RolledTwice(e, now, t.now);
      RolledTwice(f, now, t.now);
      if t.Mutated? {
        SameDayApply(e, f, t.mutation, t.now);
        ReadsAreHarmlessWithinADay(Touched(e, t), Touched(f, t), touches[1..], now);
        assert ([t] + OnlyMutations(touches[1..]))[1..] == OnlyMutations(touches[1..]);
      } else {
        assert OnlyMutations(touches) == OnlyMutations(touches[1..]);
        ReadsAreHarmlessWithinADay(Touched(e, t), f, touches[1..], now);
      }
    }
  }

  /** A call sees the account only through the session it first rolls. */
  lemma SameDayApply(e: Engine, f: Engine, m: Mutation, now: Time)
    requires Rolled(e, now) == Rolled(f, now)
    ensures Apply(e, m, now) == Apply(f, m, now)
  {
    assert e.config == f.config;
  }

  /** What a series of reads leaves of a session: itself, or the last read's new one. */
  lemma {:induction false} AfterReads(e: Engine, nows: seq<Time>)
    requires e.session.Some? && nows != []
    ensures var after := AllTouched(e, Reads(nows));
            after == if forall k :: 0 <= k < |nows| ==> Date(nows[k]) == e.session.value.date then e
                     else e.(session := Some(NewSession(e.config, Date(nows[|nows| - 1]))))
    decreases |nows|
  {
    var next := Rolled(e, nows[0]);
    assert Reads(nows)[1..] == Reads(nows[1..]);
    if |nows| > 1 {
      AfterReads(next, nows[1..]);
      assert forall k :: 1 <= k < |nows| ==> nows[k] == nows[1..][k - 1];
    }
  }
}
