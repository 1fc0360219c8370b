# Aetheris: verified models of the order, paper and search cores

This project models the parts of Aetheris that decide whether an order is sent, what an
account is worth, and which parameters a search reports, and proves what they promise over
every input, every run and every interleaving. Each module names its subject in its first
comment.

| files | subject |
|---|---|
| `common.dfy` | options, results, identifiers, arithmetic and string order |
| `orders.dfy`, `mutators.dfy`, `lifecycle.dfy` | the order state machine, the reconciliation decision, every locked mutator, and runs of them |
| `order_store.dfy`, `store_contents.dfy`, `store_theorems.dfy` | the order tables and repository, what a write leaves, and which writes leave every order loadable |
| `submission.dfy`, `submission_theorems.dfy`, `submission_traces.dfy` | concurrent `submit` calls against one order table and one venue |
| `settled_orders.dfy`, `venue_settings.dfy` | the submission window that is not under a row lock; the venue settings submissions share |
| `row_locks.dfy` | the re-entrant row lock and its two context variables |
| `sweep.dfy`, `sweep_theorems.dfy`, `sweep_reports.dfy` | start-up recovery and the reconciliation sweep, apart and together |
| `ttl_cache.dfy`, `cache_theorems.dfy` | the bounded TTL cache |
| `grid.dfy`, `splits.dfy`, `objective.dfy`, `search.dfy`, `search_theorems.dfy` | the grid search and the walk-forward run |
| `paper_engine.dfy`, `paper_money.dfy`, `paper_service.dfy`, `paper_theorems.dfy` | the paper account, its money, its write lock, its snapshot store and its restarts |
| `scanner.dfy` | the scanner's ranking, pool and pages |
| `metrics.dfy` | streaks, drawdown and the win/loss partition |
| `autonomous.dfy` | the autonomous loop's arming, counters and log |
| `leverage.dfy` | the leverage chain, the venue's bracket table and sizing |

Money is an integer number of 1e-8 units, the exponent stored amounts carry. A protocol is a
transition system: an event is one committed transaction, one venue call, one prompt stretch
between two awaits, or a crash, and an event that is not enabled changes nothing, so a
theorem about every sequence of events is a theorem about every run. Classes that change
their fields in place are classes here, and their methods are proved against functions the
theorems are about. Clocks, prices, venue answers, database outcomes and the strategy's
backtest are parameters.

## Where the code does not do what it says

Each of these is a theorem giving the exact condition, with a run or an input that shows it.

- `submit` re-reads the order and writes it back in two transactions under no row lock
  (`backend/src/aetheris/services/testnet.py:338-349`). An order settled meanwhile as never
  sent is set back to VALIDATING and sent, although the state machine gives settled orders no
  exit (`docs/order-engine.md:64-67`): `SettledOrders.SettledOrderSentIff`. No service calls
  `cancel_before_submission`; the service's own `cancel` settles such an order when the venue
  holds another one under the same client order id, as it can when the order table was
  rebuilt: `SettledOrders.ACancelledOrderIsSent`.
- Leverage and margin mode belong to a symbol at the venue, and submissions for one symbol
  share them. An order can leave under settings its worker had not confirmed:
  `VenueSettings.SentUnderOtherSettingsIff`, `VenueSettings.AnOrderLeavesUnderOtherSettings`.
- Recovery moves interrupted orders to UNKNOWN, and `reconcile` does not take an UNKNOWN
  order through RECONCILING, so the sweep never settles a recovered order and raises as soon
  as the venue describes one: `SweepTheorems.RecoveredOrdersAreNotSettledByTheSweep`. No
  service calls `begin_reconciliation` or `resolve_manually`, the two that would.
- "The venue is the authority: adopt its state" (`docs/order-engine.md:111`) does not hold for
  the quantity when the view names the state the order already has:
  `Lifecycle.AdoptionTakesTheQuantityIff`. What an order filled before a terminal
  acknowledgement is never recorded: `Lifecycle.AckLosesTheQuantityIff`.
- A fill arriving on a total adopted from the venue, or a fill id applied twice, leaves the
  order's row unreadable: `StoreTheorems.EngineRunsLoadIff`. Only the engine's own interface
  reaches this: no service, route or start-up step calls `apply_fill`.
- The order log of the paper account is bounded and the index of client ids with it, so a
  retry is answered only for a while, and after that an id can fill twice:
  `PaperEngine.RetryIsAnsweredIff`, `PaperEngine.AnIdFillsTwice`. `_record_order` says so
  (`backend/src/aetheris/engines/paper/engine.py:1292-1304`); the interface promises the
  original outcome without a limit (`backend/src/aetheris/api/v1/paper.py:98-106`).
- The paper service's write lock is documented as what keeps one symbol from being opened
  twice (`backend/src/aetheris/services/paper.py:16-26`). The engine's gate does that alone:
  `PaperTheorems.TheGateNeedsNoLock`. What the lock does keep apart is a submission and its
  retry: `PaperTheorems.WithoutTheLockAFillIsOverwritten`.
- Reads of the paper account are documented as changing nothing
  (`backend/src/aetheris/services/paper.py:305-307`). They roll the session, outside the write
  lock and at an instant taken before they wait. So a durable account's stored session can
  differ from its own (`PaperTheorems.DurableMeansStored`), a submission can be ruled on
  another session than the one it changes (`PaperTheorems.RuledOnTheAccountIff`), and a slow
  read that began on another day lifts the day's loss brake (`PaperEngine.BrakeSurvivesReadsIff`).
- The search's warning that every candidate was rejected is issued although one was not:
  `SearchTheorems.WarningIsFalseIff`.
- Re-arming the autonomous loop after a failure shows it armed and does not run it again:
  `Autonomous.RunsIff`, `Autonomous.RunsThroughFailuresIff`.
- Recovery is documented to do nothing the second time; for rows that do not load it appends
  the evidence again: `SweepTheorems.RecoveryIsIdempotentIff`.

## Model

| member | source | states |
|---|---|---|
| Lifecycle.TerminalIsFrozen | backend/src/aetheris/engines/order/machine.py:58-145 | Over any sequence of mutators a settled order keeps its state, fills, totals and stamps; only evidence and bookkeeping times grow. |
| Lifecycle.AckLosesTheQuantityIff | backend/src/aetheris/engines/order/engine.py:195-213 | An acknowledgement carries no quantity: what the order filled by then is never recorded, whatever mutators follow, exactly when the state acknowledged is terminal. |
| Lifecycle.FillsNeverGoBackwards | backend/src/aetheris/engines/order/reconcile.py:118-149 | Over any run the filled total never shrinks and never passes the quantity ordered. |
| Lifecycle.SentIsPermanent | backend/src/aetheris/domain/order.py:191-200 | Identity and confirmed venue parameters never change under the lifecycle engine, and a submission stamp is never removed. |
| Lifecycle.StampsTellTheState | backend/src/aetheris/engines/order/engine.py:580-595 | Over any run an unstamped order is in a never-sent state, a never-sent open state carries no stamp, and the terminal time is set exactly in terminal states. |
| Lifecycle.SubmissionRequiresValidation | backend/src/aetheris/engines/order/machine.py:58-145 | Any run from CREATED that stamps a submission passes through VALIDATING. |
| Lifecycle.UnreconciledStaysBlockingWithoutEvidence | backend/src/aetheris/engines/order/reconcile.py:55-98 | No sequence of mutators that carries neither a venue message, a fill, a risk ruling nor an operator ends the blocking of a sent, unreconciled order. |
| Lifecycle.AbsenceSettlesOnlyWhatNeverLeft | backend/src/aetheris/engines/order/reconcile.py:74-98 | "No such order" makes an open order terminal exactly when it was never sent. |
| Lifecycle.AdoptionTakesTheQuantityIff | backend/src/aetheris/engines/order/engine.py:345-357 | An adopted view's quantity, average price and venue id are taken over, and the fills on record dropped, exactly when the view names another state; otherwise only the times change. |
| Lifecycle.WrittenRecordIsValidIff | backend/src/aetheris/domain/order.py:206-215 | Every completed mutator writes a record the validator accepts, except exactly a fill landing on a total adopted without its fills. |
| Lifecycle.EveryRecordLoadsIff | backend/src/aetheris/domain/order.py:206-215 | Over whole runs: every record written is accepted iff no step is that exception. |
| Lifecycle.AFillAfterAdoptionIsUnreadable | backend/src/aetheris/engines/order/engine.py:237-277 | Such a run exists: a partial total adopted from the venue, then the next fill. |
| Mutators.ReachedFrom | backend/src/aetheris/engines/order/machine.py:58-145 | The transition table read from the state a move leads to. |
| Mutators.AMutatorMovesIff | backend/src/aetheris/engines/order/engine.py:135-235 | When each mutator that is not about fills or answers goes through, and the record it then leaves; otherwise the record stays. |
| Mutators.AFillIsTakenIff | backend/src/aetheris/engines/order/engine.py:237-281 | A fill past the ordered quantity is noted and not taken; any other raises unless the order is working or being reconciled, and fills the order iff nothing is left of it. |
| Mutators.TheAverageIsVolumeWeighted | backend/src/aetheris/engines/order/engine.py:265-277 | Over runs in which no fill lands on an adopted total, the average price is the fills' total price over their total quantity, to the nearest unit. |
| Mutators.ADisagreementIsNotedIff | backend/src/aetheris/engines/order/reconcile.py:100-165 | A view is adopted iff it neither ends a settled order otherwise, nor loses quantity, nor passes the order; a disagreement adds one piece of evidence and keeps the record. |
| Mutators.AbsenceMeans | backend/src/aetheris/engines/order/reconcile.py:74-98 | "No such order" cancels an order that never left and leaves a sent one in doubt, or raises where that is no legal move. |
| OrderStore.SyncFillRows | backend/src/aetheris/adapters/persistence/orders.py:225-275 | The delete-then-add loops leave the stored rows the record keeps, followed by the rows it gained. |
| OrderStore.AppendEvidence | backend/src/aetheris/adapters/persistence/orders.py:276-298 | The evidence loop appends exactly the unseen discrepancies and rewrites none. |
| OrderStore.ScanRows | backend/src/aetheris/adapters/persistence/orders.py:355-400 | Every open row is reported, loaded or by name, one bad row hiding no other; nothing else is reported. |
| OrderStore.OrderRepository.Add | backend/src/aetheris/adapters/persistence/orders.py:168-184 | Inserts the record with its children, or reports the taken identity and changes nothing. |
| OrderStore.OrderRepository.Update | backend/src/aetheris/adapters/persistence/orders.py:206-223 | Replaces every column of an existing row and reconciles its children, or raises and changes nothing. |
| OrderStore.OrderRepository.Write | backend/src/aetheris/adapters/persistence/orders.py:206-298 | One transaction: both uniqueness constraints, then columns, fills and evidence, or a full rollback. |
| OrderStore.OrderRepository.WriteChildren | backend/src/aetheris/adapters/persistence/orders.py:225-298 | Sets exactly this order's fill rows and evidence rows. |
| OrderStore.OrderRepository.RecordUnreadable | backend/src/aetheris/adapters/persistence/orders.py:402-428 | Appends one piece of evidence under the row's own state, without loading the record; an unknown id raises. |
| OrderStore.OrderRepository.ScanOpen | backend/src/aetheris/adapters/persistence/orders.py:355-400 | The recovery read over the whole table. |
| StoreContents.RefusedIff | backend/src/aetheris/adapters/persistence/orders.py:471-497 | A write is refused iff the tables with it would have two orders under one client id or one venue id, or one fill id twice; which of them decides the error. |
| StoreContents.KeysStayUnique | backend/src/aetheris/adapters/persistence/orders.py:168-223 | Over any inserts and updates, refused ones included, those three constraints hold. |
| StoreContents.FillRowsAfter | backend/src/aetheris/adapters/persistence/orders.py:234-275 | After a write a fill row is there iff it was and the record still carries its id, or the record brings an id not stored. |
| StoreContents.EvidenceAfter | backend/src/aetheris/adapters/persistence/orders.py:276-298 | Stored evidence stays in place, and of the record's exactly what is not stored yet is added behind it. |
| StoreContents.LoadedInOrder | backend/src/aetheris/adapters/persistence/orders.py:547-628 | A record loads with exactly its child rows, fills by time and id, evidence by time. |
| StoreTheorems.WriteLoadsIff | backend/src/aetheris/adapters/persistence/orders.py:225-275 | A valid record written over stored fills loads again iff the stored quantities of the ids it reuses add up to what it says of them. |
| StoreTheorems.LoadReturnsWhatWasWritten | backend/src/aetheris/adapters/persistence/orders.py:547-628 | When reused ids keep their content, loading gives back every column, the same fills up to order and every piece of evidence, old and new. |
| StoreTheorems.EveryRowStaysLoadable | backend/src/aetheris/adapters/persistence/orders.py:206-298 | Over any sequence of such writes, refused ones included, every row stays loadable and no evidence is lost. |
| StoreTheorems.EngineWriteLoadsIff | backend/src/aetheris/adapters/persistence/orders.py:225-298 | A completed engine mutator leaves its order loadable with exactly two exceptions: a fill on an adopted total, and a fill id applied twice. |
| StoreTheorems.CallLoadsIff | backend/src/aetheris/engines/order/engine.py:558-578 | The same for the whole table: all rows load after a call iff the call is not one of the two. |
| StoreTheorems.EngineRunsLoadIff | backend/src/aetheris/engines/order/engine.py:237-277 | The same over any sequence of engine calls on any orders. |
| StoreTheorems.AppendOnlyBreaksAdoption | backend/src/aetheris/adapters/persistence/orders.py:234-245 | Were stored fills never removed, adopting a venue total would leave the row unreadable. |
| Submission.ActIsSound | backend/src/aetheris/services/testnet.py:211-387 | Each step of `submit`, seen from its own row, is the winning insert, the one venue call, or a step that keeps what the others rely on; the owner stays bound to what was approved and sized. |
| Submission.EventKeeps | backend/src/aetheris/services/testnet.py:185-387 | Any event of any worker, a crash, or anybody else's locked mutator keeps the protocol invariant of every client order id. |
| Submission.ReachedInv | backend/src/aetheris/services/testnet.py:185-387 | The invariant holds in every state any interleaving reaches. |
| SubmissionTheorems.AtMostOneSend | backend/src/aetheris/services/testnet.py:211-236 | Over every run of any number of concurrent submissions, retries and crashes, the venue is given at most one order per client order id. |
| SubmissionTheorems.SentWasWrittenDown | backend/src/aetheris/services/testnet.py:338-355 | Whatever the venue was given has a durable row, stamped and bound to the approved leverage, ISOLATED margin and the quantity its worker sized. |
| SubmissionTheorems.NoStampMeansNotSent | backend/src/aetheris/domain/order.py:191-200 | A row without a submission stamp proves the order has not left. |
| SubmissionTheorems.OneCreatorPerOrder | backend/src/aetheris/adapters/persistence/orders.py:186-204 | One creator per stored order; every loser of the insert race holds that order; the re-read after a duplicate error finds a row. |
| SubmissionTraces.SentAsSized | backend/src/aetheris/services/testnet.py:335-355 | In every reached history the venue was given what the request asked for, in the quantity its worker computed when it sized the order and at the leverage the risk engine approved for it. |
| SubmissionTraces.AnswerIsRecorded | backend/src/aetheris/services/testnet.py:355-387 | A venue call without an answer leaves the order UNKNOWN; one with an answer leaves it in the state and under the id the venue gave; nothing else of it changes. |
| SubmissionTraces.ARefusalIsRecorded | backend/src/aetheris/services/testnet.py:240-333 | A refusal, or a venue setting that differs from what was approved, ends the submission without a venue call and the order as REJECTED with a code. |
| SubmissionTraces.AReplayReturnsTheRow | backend/src/aetheris/services/testnet.py:226-236 | A submission that finds an order under its id returns that order and changes nothing. |
| SettledOrders.ActLeavesSettled | backend/src/aetheris/services/testnet.py:338-349 | A worker's step leaves an order settled as never sent settled, unless it puts back a stale read. |
| SettledOrders.SettledOrderSentIff | backend/src/aetheris/services/testnet.py:338-349 | An order settled as never sent is sent in some continuation iff a worker stands between re-reading it as VALIDATING and writing it back. |
| SettledOrders.StaleReadIsSent | backend/src/aetheris/services/testnet.py:338-355 | From such a state four steps of that worker reach the venue. |
| SettledOrders.SettledWhileReadIsSent | backend/src/aetheris/services/testnet.py:338-355 | A complete run: whatever settles the order as never sent between the re-read and the write-back, it is sent. |
| SettledOrders.ACancelledOrderIsSent | backend/src/aetheris/services/testnet.py:453-495 | The same run through the service: `cancel` adopts the venue's CANCELLED for an order under the same client order id, and the new order is sent. |
| VenueSettings.ActHolds | backend/src/aetheris/services/testnet.py:283-325 | What a step confirms is in force at the venue, and an order leaves only under what was confirmed. |
| VenueSettings.SentUnderItsApproval | backend/src/aetheris/services/testnet.py:283-325 | When no two workers are at the venue for one symbol at once, every order leaves under its approved leverage and ISOLATED margin. |
| VenueSettings.SentUnderOtherSettingsIff | backend/src/aetheris/services/testnet.py:283-355 | In any reached state, for a worker past `set_leverage`: the workers present can bring its order to leave under settings it had not confirmed iff it can still send it and the settings in force already differ or another worker of that symbol can still set them. |
| VenueSettings.AnOrderLeavesUnderOtherSettings | backend/src/aetheris/services/testnet.py:283-355 | A complete run of two submissions for one symbol in which that happens. |
| RowLocks.RunKeeps | backend/src/aetheris/adapters/persistence/orders.py:99-150 | Entering, acquiring and leaving in any interleaving keep the context variables, the open blocks and the held rows consistent. |
| RowLocks.NoTwoInside | backend/src/aetheris/adapters/persistence/orders.py:109-150 | In every interleaving no two workers are inside the same order. |
| RowLocks.ReentryNeverWaits | backend/src/aetheris/adapters/persistence/orders.py:112-128 | An order already held is entered again at once, whoever queues for it. |
| RowLocks.LockedIdsAreHeld | backend/src/aetheris/adapters/persistence/orders.py:60-64 | Every id in `_locked_ids` is held by the transaction, except one it still waits for or did not find. |
| RowLocks.OutermostLeavesNothing | backend/src/aetheris/adapters/persistence/orders.py:141-150 | Leaving the outermost block restores both context variables and releases this worker's rows and no others. |
| RowLocks.LeaveUndoesEnter | backend/src/aetheris/adapters/persistence/orders.py:130-150 | Entering and leaving restores the worker exactly, whether or not the row was acquired. |
| RowLocks.NobodyWaitsForAWaiter | backend/src/aetheris/engines/order/engine.py:558-578 | While each transaction concerns one order, whoever a worker waits for does not itself wait. |
| RowLocks.CrossedOrdersDeadlock | backend/src/aetheris/adapters/persistence/orders.py:124-135 | With two orders in one transaction two workers can wait for each other. |
| RowLocks.ImpoliteWorkersMeet | backend/src/aetheris/adapters/persistence/orders.py:130-140 | A worker that goes on inside a block that found no row can end up inside the order next to its holder. |
| Sweep.OrderDesk.ReconcileAll | backend/src/aetheris/services/testnet.py:502-579 | The sweep's final tables and its report, or the order it raises at, for every combination of answers and of transactions others commit between its turns: engine calls, inserts, and the write `submit` makes under no row lock. |
| Sweep.OrderDesk.ScanCandidates | backend/src/aetheris/services/testnet.py:519 | The sweep concerns exactly the sent, open orders, in row order. |
| Sweep.OrderDesk.ApplyAnswers | backend/src/aetheris/services/testnet.py:557-572 | Turn by turn: rows written so far, orders counted, and a stop at the first that raises. |
| Sweep.OrderDesk.Query | backend/src/aetheris/services/testnet.py:521-532 | Counts the unanswered questions and the orders the venue does not know. |
| Sweep.OrderDesk.ReportReset | backend/src/aetheris/services/testnet.py:533-555 | The loop applies its step to one order after another, in sweep order; `ReconcileAll` says what the step writes. |
| Sweep.OrderDesk.Recover | backend/src/aetheris/engines/order/engine.py:473-537 | In-flight orders become UNKNOWN, damaged rows get evidence, everything else is left alone, and each order is reported once under its fate. |
| Sweep.OrderDesk.MoveInFlight | backend/src/aetheris/engines/order/engine.py:497-517 | The loop applies its step to each row and files each order under its fate, in row order; `Recover` says what the step and the fates are. |
| Sweep.OrderDesk.RecordDamaged | backend/src/aetheris/engines/order/engine.py:519-528 | The loop applies its step to each row, in row order; `Recover` says what the step writes. |
| SweepTheorems.TurnRaisesIff | backend/src/aetheris/engines/order/engine.py:301-385 | One order's transaction raises iff its row no longer loads, the answer is illegal from the state it finds, or the venue id it would adopt is on another row. |
| SweepTheorems.ReconcileRaisesIff | backend/src/aetheris/engines/order/engine.py:301-385 | Which venue answers break an order's reconcile, state by state. |
| SweepTheorems.SweepRaisesIff | backend/src/aetheris/services/testnet.py:557-572 | The sweep raises iff no reset is suspected and it reaches an order whose turn does, on the tables as that turn finds them, whatever others committed before it. |
| SweepTheorems.SweepSettlesOnlyOnAnAnswer | backend/src/aetheris/services/testnet.py:502-579 | An order the sweep reaches, and nobody touches afterwards, ends terminal only if it was when its turn came or the venue reported that state and that quantity. |
| SweepTheorems.ResetSuspectedIff | backend/src/aetheris/services/testnet.py:530-532 | A reset is suspected iff at least two orders were answered about and the venue knows none of them. |
| SweepTheorems.ResetResolvesNothing | backend/src/aetheris/services/testnet.py:533-555 | Then orders and fills end as the others' transactions alone leave them; undisturbed, one piece of evidence per vanished order is added and nothing else. |
| SweepTheorems.ResolvedIsBounded | backend/src/aetheris/services/testnet.py:557-579 | A finished sweep counts at most the checked orders less the unreachable and the vanished. |
| SweepTheorems.ResolvedIsExact | backend/src/aetheris/services/testnet.py:557-579 | A finished sweep that suspects no reset leaves the tables as one engine call per order leaves them, and counts exactly the orders that were answered about and whose row is terminal right after their own turn. |
| SweepReports.SweepCounts | backend/src/aetheris/services/testnet.py:519-555 | The report of a finished sweep: how many orders were checked, how many questions went unanswered, and a suspected reset iff two or more answers came and none described an order. |
| SweepReports.CandidatesInRowOrder | backend/src/aetheris/services/testnet.py:518-519 | The sweep concerns exactly the orders that load, were sent and are open, in row order. |
| SweepTheorems.ReportCountsTheBlocking | backend/src/aetheris/engines/order/engine.py:43-65 | The reported number of blocking orders is what blocks afterwards, and a second recovery interrupts nothing. |
| SweepReports.RecoveryLeaves | backend/src/aetheris/engines/order/engine.py:497-528 | After recovery every order that was working at the venue is UNKNOWN and every other row as it was; the only evidence added is one piece against each open row that does not load. |
| SweepReports.RecoveryReports | backend/src/aetheris/engines/order/engine.py:497-537 | Each order is named once: as interrupted, never submitted, already unresolved or unreadable, by what its row said. |
| SweepTheorems.RecoveryIsIdempotentIff | backend/src/aetheris/engines/order/engine.py:487-488 | A second recovery changes nothing iff every open row loads; a row that does not gets its evidence again. |
| SweepTheorems.RecoveryNeverRaises | backend/src/aetheris/engines/order/engine.py:497-517 | The transaction of each order recovery finds in flight completes, however many it has moved before. |
| SweepTheorems.RecoverySurvivesACrash | backend/src/aetheris/engines/order/engine.py:487-488 | Recovering after a crash part-way ends as an uninterrupted recovery does, up to update times. |
| SweepTheorems.SweepLeavesUnknown | backend/src/aetheris/services/testnet.py:557-572 | A sweep leaves every UNKNOWN order UNKNOWN, and raises if the venue describes one usably, whatever others do to other orders. |
| SweepTheorems.RecoveredOrdersAreNotSettledByTheSweep | backend/src/aetheris/engines/order/engine.py:473-517 | So the sweep after a recovery settles no interrupted order and raises once the venue describes one. |
| TtlCache.Construct | backend/src/aetheris/adapters/exchange/cache.py:37-46 | The two argument checks, in order, and an empty cache otherwise. |
| TtlCache.TTLCache.Get | backend/src/aetheris/adapters/exchange/cache.py:48-60 | A hit moves the entry to the end and counts; an expired entry is dropped and counts as a miss. |
| TtlCache.TTLCache.Set | backend/src/aetheris/adapters/exchange/cache.py:62-66 | The entry is rewritten at the end with a new expiry and the oldest entries over the ceiling go. |
| TtlCache.TTLCache.Trim | backend/src/aetheris/adapters/exchange/cache.py:65-66 | The eviction loop drops exactly the oldest entries over the ceiling. |
| TtlCache.TTLCache.Invalidate | backend/src/aetheris/adapters/exchange/cache.py:68-69 | The key's entry goes, the others keep their order. |
| TtlCache.TTLCache.Clear | backend/src/aetheris/adapters/exchange/cache.py:71-72 | Nothing is left. |
| CacheTheorems.CachedIsBounded | backend/src/aetheris/adapters/exchange/cache.py:48-66 | Over every trace the size never exceeds the ceiling and keys are distinct. |
| CacheTheorems.HitIsTheLatestWrite | backend/src/aetheris/adapters/exchange/cache.py:48-60 | A hit returns the key's latest write, younger than the TTL, with no invalidation or clear since. |
| CacheTheorems.AReadKeepsOnlyTheLive | backend/src/aetheris/adapters/exchange/cache.py:48-60 | A read leaves its key in the cache iff it is answered, and every other key as it was. |
| CacheTheorems.EntryOrderIsTouchOrder | backend/src/aetheris/adapters/exchange/cache.py:58-66 | Of any two entries the later one was touched after the earlier one's last touch. |
| CacheTheorems.MissingMeansCrowdedOut | backend/src/aetheris/adapters/exchange/cache.py:62-66 | A live key is missing only if at least as many other keys as the ceiling were touched since its last touch. |
| CacheTheorems.RoomyCacheIsATimedMap | backend/src/aetheris/adapters/exchange/cache.py:48-72 | While no more keys are ever written than fit, every read is answered as by a timed map. |
| CacheTheorems.LargerCacheContainsSmaller | backend/src/aetheris/adapters/exchange/cache.py:48-72 | On the same trace a smaller cache is the larger one cut down to its keys, in order, and lags it by at most the capacity gap. |
| CacheTheorems.LargerCacheHitsWhereSmallerDoes | backend/src/aetheris/adapters/exchange/cache.py:48-60 | So a larger cache never misses where a smaller one hits, and answers the same. |
| Grid.Values | backend/src/aetheris/domain/optimization.py:61-70 | The values run from minimum to maximum, strictly increasing, at most a step apart, one plus the range over the step rounded up of them. |
| Grid.Possible | backend/src/aetheris/analysis/optimize.py:396-400 | The count checked against the ceiling is the number of combinations generated. |
| Grid.ProductIsEveryCombination | backend/src/aetheris/analysis/optimize.py:431-432 | The search tries exactly the combinations of grid values. |
| Grid.ProductIsSorted | backend/src/aetheris/analysis/optimize.py:393-394 | In dictionary order, so none is tried twice. |
| Splits.AcceptedSplitTiles | backend/src/aetheris/analysis/optimize.py:157-195 | An accepted split puts every bar into exactly one of three non-empty windows and passes the type's own validator. |
| Splits.SplitRefusedIff | backend/src/aetheris/analysis/optimize.py:172-185 | With admissible fractions a series is refused iff the training or the validation share has no whole bar. |
| Splits.WindowsHoldTheirShares | backend/src/aetheris/analysis/optimize.py:172-195 | The training and the validation window hold as many whole bars as their own fraction comes to, one after the other from the first bar, and the test window the rest. |
| Splits.WindowsRoll | backend/src/aetheris/analysis/optimize.py:217-233 | Window i starts i steps in, trains on its bars and validates on the next ones; one more window would not fit. |
| Splits.WalkForwardWindows | backend/src/aetheris/analysis/optimize.py:198-233 | The two argument errors, and otherwise the windows in closed form. |
| Splits.RollWindows | backend/src/aetheris/analysis/optimize.py:217-233 | The loop's windows: as many as fit, each a step after the last. |
| Splits.WindowsFit | backend/src/aetheris/analysis/optimize.py:220 | A window is produced iff it ends within the series. |
| Splits.ValidationSpansAreDisjoint | backend/src/aetheris/analysis/optimize.py:203-205 | At the default step no bar is validated twice. |
| Splits.WindowsOfAPrefix | backend/src/aetheris/analysis/optimize.py:217-233 | The windows of the first bars are the first windows. |
| Objective.ScoreObjective | backend/src/aetheris/analysis/optimize.py:241-294 | The score lies between 0 and 1, and a rejected candidate scores zero. |
| Objective.ScoreIsMonotone | backend/src/aetheris/analysis/optimize.py:262-281 | A candidate no worse in trades, return, profit factor, drawdown and streak scores no lower. |
| Objective.ScoreIsNearExact | backend/src/aetheris/analysis/optimize.py:273-284 | Rounding the parts moves the score by at most two units of 0.0001 from the unrounded objective. |
| Objective.ScoresZeroIff | backend/src/aetheris/analysis/optimize.py:262-281 | A candidate that passes the gate scores zero iff each of its four figures is too small for its rounded part to count; the thresholds are given. |
| Search.Optimize | backend/src/aetheris/analysis/optimize.py:372-503 | The refusals in order, and a report whose best trial is the first grid-order maximiser of the validation score. |
| Search.RunTrials | backend/src/aetheris/analysis/optimize.py:429-460 | One trial per buildable combination, in grid order, scored on both windows; which those are, `SearchTheorems.TrialsAreTheAcceptedCombinations` says. |
| Search.FirstBest | backend/src/aetheris/analysis/optimize.py:462-469 | The first trial no other beats. |
| Search.SelectOn | backend/src/aetheris/analysis/optimize.py:506-539 | The first grid-order maximiser on the bars it is handed. |
| Search.WalkForward | backend/src/aetheris/analysis/optimize.py:542-656 | The refusals, and one fold per window otherwise. |
| Search.RunFolds | backend/src/aetheris/analysis/optimize.py:624-656 | One fold for each window unless no combination can be built; which is selected, `SearchTheorems.FoldsSelectTheBest` says. |
| Search.MostSelected | backend/src/aetheris/analysis/optimize.py:664-678 | A combination no other won more folds than, the first in dictionary order among equals, with its count. |
| Search.Tally | backend/src/aetheris/analysis/optimize.py:670-674 | How often each combination won, over the distinct ones in dictionary order. |
| SearchTheorems.TrialsAreTheAcceptedCombinations | backend/src/aetheris/analysis/optimize.py:429-460 | The trials are exactly the combinations of grid values that the strategy accepts, over increasing grids in strictly increasing dictionary order, each with its score on both windows. |
| SearchTheorems.TheBestScoresHighest | backend/src/aetheris/analysis/optimize.py:462-490 | There is a best iff the strategy accepts a combination; no accepted one scores higher on the validation bars, those that score the same come later in dictionary order, and its score on the test bars is reported. |
| SearchTheorems.FoldsSelectTheBest | backend/src/aetheris/analysis/optimize.py:506-539 | Every window has a fold unless no combination is accepted; it selects the accepted combination that scores highest on its training bars, the first in dictionary order, and scores it on its validation bars. |
| SearchTheorems.SelectionDependsOnValidationOnly | backend/src/aetheris/analysis/optimize.py:462-472 | Changing training or test bars changes neither the selection, its score, nor the warning. |
| SearchTheorems.TestBarsReachTheTestScoreOnly | backend/src/aetheris/analysis/optimize.py:483-490 | The held-out bars reach nothing in the report but the test score. |
| SearchTheorems.WarnedIff | backend/src/aetheris/analysis/optimize.py:471-480 | The warning is issued iff every validation score is zero and the first candidate was rejected. |
| SearchTheorems.WarningIsFalseIff | backend/src/aetheris/analysis/optimize.py:471-480 | In terms of the backtests: the warning is issued iff the first candidate is gated and none earns anything, and is false iff moreover some candidate traded enough to pass the gate. |
| SearchTheorems.AWarningCanBeFalse | backend/src/aetheris/analysis/optimize.py:471-480 | A report warned about although a candidate passed the gate. |
| SearchTheorems.NoLookAhead | backend/src/aetheris/analysis/optimize.py:624-640 | Two series agreeing before a fold's training end select the same there and in every earlier fold. |
| SearchTheorems.FoldsOfAPrefix | backend/src/aetheris/analysis/optimize.py:624-656 | A run on the first bars yields the first folds of the full run, scores included. |
| SearchTheorems.MostSelectedIsUnique | backend/src/aetheris/analysis/optimize.py:664-678 | The reported set depends on how often each was selected, not on the order of the folds. |
| PaperEngine.BooksBalance | backend/src/aetheris/engines/paper/engine.py:983-996 | Over any calls and reads, ticks, closes and refusals included, the balance is the starting balance plus what was realised. |
| PaperMoney.AHandCloseBooksTheMove | backend/src/aetheris/engines/paper/engine.py:1148-1208 | A close takes the position out and moves the balance, the realised result and the day's by its gain, (exit - entry) times quantity in its own direction, less the fee on the exit's value, each to the nearest unit; the day is locked afterwards iff that takes it to its target or limit, or it was. |
| PaperMoney.AFavourableExitLosesOnlyTheFee | backend/src/aetheris/engines/paper/engine.py:1161-1183 | A long closed at or above its entry, or a short at or below, loses no more than the exit fee; the other way round it loses at least that. |
| PaperMoney.ACloseIsRefusedIff | backend/src/aetheris/engines/paper/engine.py:738-785 | A close is refused, and moves no money, iff nothing is open in the symbol or there is no usable price. |
| PaperMoney.ATickClosesWhatHasReachedALevel | backend/src/aetheris/engines/paper/engine.py:671-726 | A tick closes exactly the positions whose price has come to their liquidation, stop, trailing stop or target, each with its own gain and fee; the rest stay, their trailing extreme following the price; the sums go to the balance, the realised result and the day's, and the day is braked. |
| PaperMoney.AnOrderFillsIff | backend/src/aetheris/engines/paper/engine.py:620-668 | An order fills iff its id is new, entries are allowed and the account with the position would be within its ceilings, one position a symbol, its margins covered by its balance; then the position is added and the fee on its notional paid, otherwise it is recorded as refused. |
| PaperMoney.ARoundTripCostsTwoFees | backend/src/aetheris/engines/paper/engine.py:957-996 | Opening and closing by hand leaves the other positions, and the balance changed by the gain less a fee each way. |
| PaperMoney.TheDayTracksTheBook | backend/src/aetheris/engines/paper/engine.py:975-996 | Over any calls and reads of one day, the day's realised result and fees move with the account's. |
| PaperMoney.ACloseAtTheLimitEndsTheDay | backend/src/aetheris/engines/paper/engine.py:1210-1234 | After a close that takes the day to its target or its limit nothing opens that day, whatever else happens. |
| PaperMoney.TheStopHolds | backend/src/aetheris/engines/paper/engine.py:833-846 | An engaged emergency stop lets nothing open over any calls and reads, until it is lifted or the account is reset. |
| PaperMoney.LiftingUndoesTheStop | backend/src/aetheris/engines/paper/engine.py:833-846 | Engaging the stop closes nothing and costs nothing, and lifting it restores the account. |
| PaperMoney.AResetStartsAgain | backend/src/aetheris/engines/paper/engine.py:824-831 | A reset account has its starting balance and nothing else. |
| PaperMoney.ANewDayStartsAfresh | backend/src/aetheris/engines/paper/engine.py:852-868 | The first call or read of another date starts its session afresh, lock included, and touches nothing else. |
| PaperEngine.RetryIsAnsweredIff | backend/src/aetheris/engines/paper/engine.py:1292-1304 | A retried submission changes nothing but the day's session iff its id is not yet among the orders the bounded log has dropped. |
| PaperEngine.FirstSubmissionIsAnsweredIff | backend/src/aetheris/engines/paper/engine.py:1292-1304 | So a first submission can be retried iff fewer orders than the log holds were recorded since. |
| PaperEngine.AnIdFillsTwice | backend/src/aetheris/engines/paper/engine.py:1292-1304 | An id fills, its position is closed and as many orders pass as the log holds: the id fills again if the account may then enter at all. |
| PaperEngine.AnIdFillsTwiceInANewAccount | backend/src/aetheris/engines/paper/engine.py:1292-1304 | From a new account that trades free of charge, the whole of such a run. |
| PaperEngine.NothingOpensPastTheGate | backend/src/aetheris/engines/paper/risk.py:131-212 | Over any calls and reads, whatever ruled on them: one position a symbol, never more positions, larger ones or more exposure than the ceilings. |
| PaperEngine.BrakeHolds | backend/src/aetheris/engines/paper/engine.py:1210-1234 | While every call and read carries the day's date, the brake stays on and nothing opens. |
| PaperEngine.MonotoneClockKeepsTheBrake | backend/src/aetheris/engines/paper/engine.py:852-868 | With instants that never go backwards nothing opens on a braked day. |
| PaperEngine.BrakeSurvivesReadsIff | backend/src/aetheris/engines/paper/engine.py:462-473 | After reads, an otherwise acceptable order fills on a braked day iff one of the reads began on another date. |
| PaperEngine.ReadsAreHarmlessWithinADay | backend/src/aetheris/engines/paper/engine.py:462-473 | Within one day reads between calls leave no trace but the day's session. |
| PaperEngine.AfterReads | backend/src/aetheris/engines/paper/engine.py:852-868 | What a series of reads leaves of a session: itself, or the last read's new one. |
| PaperService.SnapshotStore.Save | backend/src/aetheris/adapters/persistence/paper.py:149-195 | What each ending of a write leaves of the row, the health and the last error. |
| PaperService.SnapshotStore.Load | backend/src/aetheris/adapters/persistence/paper.py:98-147 | An unreachable database degrades the store, an unreadable document does not. |
| PaperService.EventKeeps | backend/src/aetheris/services/paper.py:316-342 | Every event keeps the lock, the ticket order, the account the entries replay to, what each submission was ruled on, and the stored state in agreement. |
| PaperTheorems.CallsFollowLockOrder | backend/src/aetheris/services/paper.py:316-342 | Every interleaving leaves the account where the calls, in lock order, lead, and only reads come between the account a submission was ruled on and its change. |
| PaperTheorems.EachCallIsOneEngineCall | backend/src/aetheris/services/paper.py:316-433 | In a reached state the change a call makes is one engine call on the account as it stands, with the instant the service gives it; a symbol's last entry becomes the start of a submission that fills. |
| PaperTheorems.RuledOnTheAccountIff | backend/src/aetheris/services/paper.py:361-431 | The book a submission changes is the one it was ruled on; the session is iff no read since the snapshot began on another date, or that session was new. |
| PaperTheorems.EveryRunIsSerial | backend/src/aetheris/services/paper.py:344-433 | A run in which no read of another date falls inside a submission ends exactly where the same calls end one by one, lookup, snapshot, ruling and change in one piece. |
| PaperTheorems.AStrayReadSplitsACall | backend/src/aetheris/services/paper.py:305-307 | A read that does fall inside one can make its outcome differ from that of the call in one piece. |
| PaperTheorems.ARetryIsAnswered | backend/src/aetheris/services/paper.py:353-361 | In every run a submission whose id can be replayed changes nothing but the day's session. |
| PaperTheorems.TheGateNeedsNoLock | backend/src/aetheris/services/paper.py:16-26 | With the lock or without it, no interleaving has two positions in one symbol or passes a ceiling: the gate looks again when the order is placed. |
| PaperTheorems.WithoutTheLockAFillIsOverwritten | backend/src/aetheris/services/paper.py:399-410 | Without the lock a submission fills and its concurrent retry is recorded over it as refused. |
| PaperTheorems.DurableMeansStored | backend/src/aetheris/adapters/persistence/paper.py:84-92 | After a completed write, lock free and durable: the stored book is the account's; the stored session is iff no read since began on another date, or that session was still new. |
| PaperTheorems.AReadUnsettlesADurableAccount | backend/src/aetheris/services/paper.py:305-307 | A reachable state, durable and idle, whose stored state is not the account's. |
| PaperTheorems.RestartRestoresBetweenCalls | backend/src/aetheris/services/paper.py:199-212 | A restart finds the account as it stood between two calls, its index read back from the log, or starts a new one. |
| PaperTheorems.DurableBooksSurviveARestart | backend/src/aetheris/engines/paper/snapshot.py:248-264 | What a durable, idle account promises survives a restart: its book, and its index iff the log gives it back, as it does unless a close is recorded under an id the log already holds. |
| PaperTheorems.AStaleReadLiftsTheBrake | backend/src/aetheris/services/paper.py:305-307 | From any idle state with a pending read of another date: a submission alone is refused on the braked day, and fills once the read has ended. |
| Scanner.Sort | backend/src/aetheris/services/scanner.py:551-578 | The partition and the two passes give the ranking function's value. |
| Scanner.PassKeepsTies | backend/src/aetheris/services/scanner.py:572-576 | A stable pass over rows in tie order sorts by its key and, among equals, by the tie, in both directions. |
| Scanner.RankedIsInOrder | backend/src/aetheris/services/scanner.py:551-578 | Known values first in the asked direction, equal values by symbol ascending, unknown values last by symbol; no row lost. |
| Scanner.OrderIsUnique | backend/src/aetheris/services/scanner.py:551-578 | Only one sequence of the same rows is in that order. |
| Scanner.RankingIgnoresInputOrder | backend/src/aetheris/services/scanner.py:551-578 | With distinct symbols the ranking does not depend on input order. |
| Scanner.PoolIsTheTop | backend/src/aetheris/services/scanner.py:362-367 | A row left out of the pool is no more liquid than any row in it, and the pool is then full. |
| Scanner.PagesPartition | backend/src/aetheris/services/scanner.py:580-583 | The pages, one after another, give the ranking back. |
| BacktestMetrics.LongestRun | backend/src/aetheris/analysis/backtest/metrics.py:40-51 | The length of the longest contiguous block of wins or of losses. |
| BacktestMetrics.RunsFitTogether | backend/src/aetheris/analysis/backtest/metrics.py:40-51 | The longest winning and losing runs fit into the wins, the losses and the trades together. |
| BacktestMetrics.MaxDrawdown | backend/src/aetheris/analysis/backtest/metrics.py:138-142 | The deepest fall from any level, the start included, to a later one, floored at zero and attained. |
| BacktestMetrics.ThinningOnlyHidesDrawdown | backend/src/aetheris/analysis/backtest/metrics.py:138-142 | A thinned curve never shows a deeper drawdown. |
| BacktestMetrics.NetIsProfitLessLoss | backend/src/aetheris/analysis/backtest/metrics.py:125-131 | Unrounded net result is gross profit less gross loss, both non-negative, over exactly the wins and the losses. |
| Autonomous.AutonomousLoop.Arm | backend/src/aetheris/services/autonomous.py:188-208 | The two refusals in order, and otherwise the new arming; arming clears a recorded failure. |
| Autonomous.AutonomousLoop.Start | backend/src/aetheris/services/autonomous.py:214-219 | Creates the task once, if permitted, and arms nothing. |
| Autonomous.AutonomousLoop.Stop | backend/src/aetheris/services/autonomous.py:221-234 | Disarms and forgets the task. |
| Autonomous.AutonomousLoop.Record | backend/src/aetheris/services/autonomous.py:662-739 | Appends the next decision in sequence and evicts the oldest past the ceiling. |
| Autonomous.AutonomousLoop.NoteOutcome | backend/src/aetheris/services/autonomous.py:339-376 | Keeps failures in a row and the exclusions what the history of evaluations says. |
| Autonomous.AutonomousLoop.FinishIteration | backend/src/aetheris/services/autonomous.py:359-366 | Counts the iteration and the outage streak. |
| Autonomous.AutonomousLoop.RunOnce | backend/src/aetheris/services/autonomous.py:270-357 | A configured symbol is evaluated iff it is not excluded and fewer than the limit of such symbols come before it, in configured order; what is recorded and counted for each, finished or cut short by an exception. |
| Autonomous.AutonomousLoop.Supervise | backend/src/aetheris/services/autonomous.py:236-253 | An armed turn iterates; an exception disarms, records the failure and ends the task. |
| Autonomous.AutonomousLoop.UniverseIs | backend/src/aetheris/services/autonomous.py:378-381 | A configured symbol is in the universe iff it is not excluded and fewer than the limit of such symbols come before it; they stand in configured order. |
| Autonomous.AutonomousLoop.OutageMeans | backend/src/aetheris/services/autonomous.py:359-366 | Outage is reported iff each of the last finished iterations evaluated something and failed it all. |
| Autonomous.AutonomousLoop.ExcludedMeans | backend/src/aetheris/services/autonomous.py:368-376 | A symbol is excluded iff its last evaluations, as many as the ceiling, all failed; its count never passes the ceiling. |
| Autonomous.ExclusionIsFinal | backend/src/aetheris/services/autonomous.py:368-381 | A symbol at the ceiling is not evaluated again and its count stands. |
| Autonomous.CountStopsAtTheCeiling | backend/src/aetheris/services/autonomous.py:368-376 | The count of failures in a row never passes the ceiling. |
| Autonomous.TrailingCountsTheLastFailures | backend/src/aetheris/services/autonomous.py:339-376 | The counter is at least n iff the symbol's last n evaluations failed. |
| Autonomous.OutageIff | backend/src/aetheris/services/autonomous.py:359-366 | The streak is at least n iff the last n finished iterations were outages. |
| Autonomous.LogIsContiguous | backend/src/aetheris/services/autonomous.py:727-731 | The log is the last decisions in sequence, none missing between them. |
| Autonomous.RunsIff | backend/src/aetheris/services/autonomous.py:214-253 | After any requests the task runs iff it ran and was never stopped, or a permitted start follows the last stop. |
| Autonomous.ArmedIff | backend/src/aetheris/services/autonomous.py:188-234 | After any requests the loop is armed iff it was and none switched it off, or a permitted arming has not been switched off since; a failure stays recorded iff no permitted arming came. |
| Autonomous.RunsThroughFailuresIff | backend/src/aetheris/services/autonomous.py:188-253 | Over any requests and turns: the task runs iff it ran, or a start made it, and nothing ended it since, a failing turn ending it as a stop does; and the loop is never armed with a failure recorded. |
| Autonomous.ReArmingDoesNotRestart | backend/src/aetheris/services/autonomous.py:188-253 | So after a failure it runs again iff it was stopped and then started, and until then arming only makes it read as armed. |
| Leverage.ApprovedIff | backend/src/aetheris/analysis/leverage.py:204-352 | Approved iff the request and everything supplied is usable and nothing is missing, or the request is the minimum. |
| Leverage.ApprovedWithinEveryBound | backend/src/aetheris/analysis/leverage.py:204-352 | An approval is at most the request and every ceiling given, and equals one of them when all are known. |
| Leverage.TheReasonTells | backend/src/aetheris/analysis/leverage.py:204-352 | The reason of a refusal is the first check that fails, and of an approval the bound it met. |
| Leverage.LearningCannotChangeAnApproval | backend/src/aetheris/analysis/leverage.py:151-201 | What is approved with a ceiling missing is approved unchanged, whatever valid value it turns out to have. |
| Leverage.ApprovalIsMonotone | backend/src/aetheris/analysis/leverage.py:331-352 | Looser ceilings and a larger request never approve less. |
| Leverage.CandidateIff | backend/src/aetheris/analysis/leverage.py:38-101 | A candidate exists iff volatility is measured and some but no more than all conditions hold; it is a whole number the chain accepts. |
| Leverage.CandidateIsTheLargest | backend/src/aetheris/analysis/leverage.py:78-100 | The candidate is the largest whole multiple n from 1 to 500 with n times the volatility times the conditions at most the reference move times the conditions met, and at least 1. |
| Leverage.CandidateIsConservative | backend/src/aetheris/analysis/leverage.py:78-100 | More volatility or less agreement never raises it, and agreement never scales it above the unscaled candidate. |
| Leverage.LookUp | backend/src/aetheris/adapters/exchange/binance/testnet_adapter.py:306-341 | The first listed bracket covering the notional, or none. |
| Leverage.FirstCoveringIs | backend/src/aetheris/domain/venue.py:86-89 | That bracket covers it and no earlier one does. |
| Leverage.LargerNotionalIsConservative | backend/src/aetheris/adapters/exchange/binance/testnet_adapter.py:306-341 | In a tiered table the ceiling looked up for a larger notional is no higher than the actual tier's. |
| Leverage.FloorToStepIsLargest | backend/src/aetheris/core/money.py:68-80 | The largest multiple of the step not above a non-negative value. |
| Leverage.SizedFitsTheMargin | backend/src/aetheris/services/testnet.py:718-735 | The sized notional is within margin times leverage, and one more step is not. |
| Leverage.SizedIff | backend/src/aetheris/services/testnet.py:718-735 | An order can be sized iff there is a usable price and the margin carries at least one step at it. |
| Leverage.SentWithinTheVenueTier | backend/src/aetheris/services/testnet.py:611-616 | What is sent stays within the request and within the venue's ceiling both for the notional asked about and for the one sent. |
| Leverage.SnappingIsConservative | backend/src/aetheris/core/money.py:83-99 | A buy snaps down and a sell up to the grid, by less than a tick. |

## Left out

- Human-readable detail, warning and refusal strings; evidence is a datatype with the figures the sentences quote.
- Row-level security, owners and accounts, DSN handling, migrations and `clear`; one account's rows are the whole table.
- The uniqueness of venue trade ids across orders, and `created_at` ordering (row order is insertion order).
- Decimal context precision: quotients are exact, or one integer division where the code rounds them down.
- Deriving client order ids, HTTP clients, signing, routes, authentication, settings parsing, the capability registry and the frontend.
- The risk engine's individual checks: on the testnet path its ruling is an input, on the paper path it is any function of the request, of what was fetched and of the account it is shown. The size and the levels a paper order comes to, the prices a sale and a purchase get, the strategy and its indicators enter as the outcome they produce.
- The paper account's trade log, excursions, mark fields and theses: nothing decides by them. Prices and fills are whole units of 1e-8, where a fallback price moved by slippage can be finer.
- A paper submission without a client id, for which the engine mints one no order has and the service skips the lookup: every submission here carries an id.
- Configuration is the same throughout a run, restarts included.
- Volatility, regime, setup scoring and position intelligence: threshold facts over those outcomes.
- Task cancellation in the middle of an await, and lock-wait timeouts other than as an exception ending a block.
- `cancel` on the testnet service as a procedure: one venue call followed by a reconcile, which the lifecycle and sweep theorems cover and `SettledOrders.ACancelledOrderIsSent` uses.
- Sharpe-like ratio, average R multiple and percentage fields of the backtest summary: square roots and rounding of quotients.
- Search warnings about warm-up length and about folds that never agree.
- Warnings and counters of the scanner other than ranking, pool and pages.
- Submission.ActIsSound: the risk ruling is any approval or refusal, and `None` from it is a refusal; how the ruling is reached is not modelled.
- Autonomous.AutonomousLoop.RunOnce: one decision per evaluated symbol; which action it carries is an input.
- Search.Optimize: whether a combination builds, and what its backtest gives, are functions of the combination and of the candles handed over.
- Leverage.SizedFitsTheMargin: margin times leverage over price is exact, where the code divides at 28 significant digits first.
