# The cBridge relay protocol, modelled and proved in Dafny

A user locks funds for the relay on a source chain (an OUT transfer). The relay locks scaled, fee-reduced funds for the
user on a destination chain (an IN transfer) under the same hash lock and a time lock eight hours shorter. Whoever
reveals the preimage on one side lets the other side be claimed; an IN transfer that nobody takes is refunded. The node
runs four event monitors, a send job, a confirm job, a refund job and a recovery job as separate goroutines. They share
one `transfer` table, some of whose updates are guarded and some not; they work on stale copies of rows, read the chain
as it was some blocks ago, and submit transactions that may be mined late or never.

This project models that system, its table, its arithmetic, its statistics page and its row format, and proves what the
node promises about money, agreement between database and chain, retries, and time.

## How the model is built

- `Types`, `Scaling`, `TimeLock`: rows, ids and configuration; the `uint64` power loop that scales amounts between token
  decimals, with its wrap-around; the `int64` and `time.Duration` arithmetic of the IN lock, with its wrap-around.
- `Dal`: every SQL statement as a function on the table, and a class `DAL` whose methods run them
  (`server/dal.go:113-342`); what the single-row updates are worth is said by the results of `Preserve` and `Safety`.
- `Ledger`: the contract of every chain as an environment. A transfer is unknown, pending, settled or returned;
  creating it needs a positive amount, a lock in the future and an unused id; settling needs it pending and the
  preimage; returning needs it pending and expired (`contracts/cbridge.go:30-33`). Every deposit also has a `safe`
  status, which lags behind: this is what the node's reads and events see (`server/server.go:592-612`).
- `Protocol`: the transition system. Each database statement, chain read and submission is one action; a job keeps its
  program counter and its stale rows in the state. `EnabledSend`/`ApplySend` follow `server/server.go:765-849`,
  `EnabledConfirm`/`ApplyConfirm` 851-897, `EnabledRefund`/`ApplyRefund` 899-974, `EnabledRecover`/`ApplyRecover`
  976-1019, `EnabledMonitor`/`ApplyMonitor` 298-515; `EnabledEnvironment`/`ApplyEnvironment` is the clock, the users,
  the miners and a restart of the node (`Crash`), which forgets everything but the database.
- `Frames`, `Invariant`, `Preserve`: what each step leaves alone, the inductive invariant, and the proof that every
  step keeps it and only lets the world evolve in ways that keep stale knowledge true (`Evolves`).
- `Safety`, `Retry`: what holds in every reachable state and along every run.
- `RetryLoop`, `Timed`, `Watching`, `Loops`, `Atomicity`: a generic timed retry loop, runs watched with clocks and
  deadlines, both retry loops of the relay as instances of the generic one, and atomicity. `Claims` proves the confirm
  job's promise for IN and OUT transfers alike, and that no deadline runs without its transaction; `Untimed` shows that
  the timing assumptions are needed.
- `Steps`, `Relay`: the procedures of the node as imperative code over a `DAL` and the chain, with interference by
  everyone else between any two statements, each proved to be a run of the transition system.
- `Decimal`, `Summary`, `Codec`: the statistics page and the text format of rows.

## Assumptions

- Transfer ids are injective in sender, receiver, hash lock and chain; the hash is an arbitrary function (no property of
  it is used except where a statement says that it does not collide).
- Blocks at or below the safe block are final and the clock does not run backwards; one clock serves the node and the
  chains. An event is handled only when the safe block shows it, possibly many times, in any order across monitors.
- The relay account locks IN transfers only through this node, and is never the sender of a user's lock. Anyone may
  settle or refund any transfer on chain.
- The gateway's fee is not negative; a request may fail. Every database call, chain read and submission may fail, and a
  submitted transaction may be mined at any later time or never.
- Timed runs (`Timed.TimedRun`) start in any reachable state in which the watched IN deposit does not exist yet, and add:
  its events are handled within `event`, also when the node is restarted meanwhile; a job's pass lasts at most `pass` and
  starts at most `gap` after the last one or after a restart, likewise for recovery (`recPass`, `recGap`); a transaction
  handed over is mined within `mining`; at most `faults` attempts of each loop fail. Only faults while the loop runs
  count: for the claim from the moment the preimage reaches the database, for the refund from the moment the lock is over
  and the deposit was seen. A restart of the node in that time is one fault. `Timed.FitsGap` asks that the two delays
  these bounds add up to, the 6-minute margin of the recovery query and one second are less than 8 hours;
  `Timed.FitsWithTwoFaults` gives an example.

## Where the code differs from what it or its documentation says

- The power loop is exact up to a gap of 19 decimals; from 20 to 63 it is too small and the scaled amount can be worth
  more than what was received; from 64 the power is zero and `big.Int.Div` panics inside the monitor's callback
  (`Scaling`). No code of the repository recovers from it, so the process of the node ends: `Relay.Node.HandleTransferOut`
  then restarts the node, and the redelivered event does so again.
- A source lock further than about 292 years away overflows a `Duration`, and the IN lock is then earlier than eight
  hours before the source (`TimeLock.LockGap`); rounding to database microseconds can make it one second later
  (`TimeLock.StoredLockGap`).
- The comment at `server/server.go:396` speaks of two hours between the locks; the code makes it eight.
- The answers at `README.md:347-350` hold only under timing assumptions (`Atomicity.RelayIsAtomic`,
  `Untimed.AtomicityNeedsTiming`).
- A chain id of 2^63 or more cannot be stored (`Codec.Stored` is then `None`).

## Model

| member | source | states |
|---|---|---|
| `Atomicity.RelayIsAtomic` | README.md:347-355 | from any reachable state before the IN deposit exists, in every timed run whose delays fit between the locks, restarts included, an IN transfer of the relay that is settled on chain never goes with its OUT transfer returned |
| `Atomicity.ExpiredTransferIsRefunded` | README.md:349-355 | in such runs an IN deposit is refunded (or settled, or its OUT settled) once its lock plus the derived refund delay is over |
| `Atomicity.RevealedTransferIsClaimed` | README.md:350-355 | in such runs the OUT transfer is settled once the derived claim delay has passed since the IN transfer was |
| `Claims.KnownPreimageIsClaimed` | server/server.go:851-897 | from any reachable state, an IN or OUT row with a stored preimage, past its sending states and with its lock the loop's total time and 6 minutes ahead, is settled on chain within that time |
| `Claims.DeadlinesHaveTransactions` | server/server.go:866-957 | whenever a timed run waits for a transaction to be mined, the `confirm` of the OUT transfer or the `refund` of the IN transfer really was handed over |
| `Claims.ClaimDeadlineHasTransaction` | server/server.go:866-878 | the same for the claim loop over any one row |
| `Atomicity.RunWatchful` | server/server.go:851-1019 | every timed move keeps the progress of both retry loops, the flags behind them, and atomicity |
| `Untimed.AtomicityNeedsTiming` | server/server.go:765-849 | for every transfer that the relay accepts, that scales to a positive amount and whose IN lock is the send job's hour ahead there is a legal run, without timing bounds, that settles the IN and returns the OUT transfer |
| `Timed.FitsWithTwoFaults` | server/server.go:719-763 | a concrete set of bounds with two failed attempts per loop fits into the eight hours |
| `RetryLoop.WithinTotal` | server/server.go:976-1019 | a retry loop (job, recovery after 15 minutes, bounded passes and faults) that is still going is within its total time |
| `RetryLoop.JobStepGoes` | server/server.go:851-897 | every kind of job step, succeeding or failing, keeps the loop's progress measure |
| `RetryLoop.RecStepGoes` | server/server.go:991-1019 | every kind of recovery step keeps the loop's progress measure |
| `Loops.ClaimGoesOn` | server/server.go:851-897 | whatever any actor does while a transfer with known preimage is unsettled and its lock ahead is a step of the claim loop |
| `Loops.RefundGoesOn` | server/server.go:899-974 | whatever any actor does while an expired IN transfer is pending is a step of the refund loop |
| `Preserve.StepKeeps` | server/server.go:298-1019 | every action of every actor keeps the invariant and lets rows, deposits and submissions only evolve |
| `Preserve.RunKeeps` | server/server.go:298-1019 | so does every run |
| `Safety.DatabaseAgreesWithChain` | server/dal.go:129-176 | CONFIRMED and REFUNDED rows are settled and returned on chain; rows past their sending states exist on chain |
| `Safety.TerminalIsAbsorbing` | server/dal.go:129-152 | CONFIRMED and REFUNDED never change again, although their writers are unguarded and act on stale rows |
| `Safety.PreimagesAreSound` | server/dal.go:123-133 | stored preimages open their row's lock, CONFIRMED rows have one, and every submitted `confirm` carries one that opens its lock |
| `Safety.SubmittedConfirmIsAccepted` | server/server.go:547-560 | a submitted `confirm` succeeds on chain whenever the transfer is still pending |
| `Safety.StuckConfirmationIsPaid` | server/server.go:867-873 | an IN row in CONFIRM_PENDING, or with a submitted `confirm`, has its OUT transfer settled on chain |
| `Safety.AmountIsConserved` | server/server.go:799-818 | amount plus fee of an IN row is always the OUT amount divided or multiplied by the power of ten between the two tokens' decimals, the tokens share a name, and neither part is negative |
| `Safety.SubmittedAmountIsPriced` | server/server.go:818-831 | along every run each submitted amount plus a fee that was stored for that row earlier in the run is the row's total |
| `Safety.StoredFeeIsPriced` | server/dal.go:160-164 | along every run the fee column is zero or a fee stored for that very row, never a part of the amount |
| `Safety.LockedInIsBacked` | server/server.go:642-656 | what the relay has locked on chain is backed by the OUT deposit it names, in the token of the same name, and up to a gap of 19 decimals never worth more; its lock ends at least 28800 s earlier |
| `Safety.BackingIsExclusive` | server/server.go:368-417 | one OUT deposit backs at most one locked IN transfer |
| `Safety.LockedAtMostOnce` | server/server.go:824-843 | over any run an IN id is locked on chain at most once, and the terms of a deposit never change |
| `Safety.ReferencesAreIntact` | server/server.go:368-417 | an IN row names an OUT row that points back, with equal hash lock and crossed chains and tokens |
| `Safety.ReferencesAreInjective` | server/dal.go:113-121 | two IN rows never name the same OUT row |
| `Safety.RedeliveryChangesNothing` | server/dal.go:113-121 | over any run of TransferOut deliveries, whole, half or repeated, an existing row stays as it is |
| `Safety.InLockGap` | server/server.go:391-417 | in every reachable state an IN lock ends at least 28800 whole seconds before its OUT lock; exactly 28800, and eight hours after handling, if and only if the duration did not overflow |
| `Safety.OutStatuses` | server/dal.go:135-176 | an OUT row is LOCKED, CONFIRM_PENDING, CONFIRMED or REFUNDED |
| `Safety.ClaimIsPickedUp` | server/dal.go:248-291 | an unfinished row with a preimage is selected exactly when LOCKED, or 15 minutes after its last try and 6 before its lock, and the restore of recovery makes it selectable |
| `Safety.SendIsRetried` | server/dal.go:230-272 | a row in IN_PENDING is selected by recovery exactly 15 minutes after its last try and 6 before its lock, the restore makes it IN_START, and the send job selects it while its lock is over an hour away |
| `Safety.RefundIsRetried` | server/dal.go:307-342 | a row in REFUND_PENDING is selected by recovery exactly 15 minutes after its last try, the restore makes it LOCKED, and the refund job selects it once its lock is over |
| `Safety.RefundIsRestrained` | server/server.go:920-957 | once an OUT confirmation shows at the safe block, no later pass submits a refund of the linked IN, and no job hands over a refund transaction for it |
| `Safety.DeliveryIsFinal` | server/server.go:429-515 | what a delivered event does to an existing row is still there at the end of any run |
| `Safety.EventsAreConfluent` | server/server.go:429-515 | two runs that delivered the same terminal events, in any order and number, agree on status, and on the preimage if the hash does not collide |
| `Retry.RetriesAreBounded` | server/dal.go:266-272 | a row makes at most 1 + lifetime / 15 min (9 * 10^11 ns) transitions to IN_PENDING and at most two submissions for each, plus two |
| `Retry.HistoryCounts` | server/server.go:824-843 | the counters of the state are the numbers of those transitions and submissions in the run |
| `Scaling.PowerLoop` | server/server.go:352-363 | the loop computes the wrapped power, which is 10^gap if and only if the gap is at most 19 |
| `Scaling.ScaleAmount` | server/server.go:351-364 | scales down by division, up by multiplication, and fails where the power wrapped to zero |
| `Scaling.WrapsExactlyFrom20` | server/server.go:353-356 | the wrapped power equals 10^n exactly for n up to 19 and is smaller from 20 |
| `Scaling.WrapsToZeroExactlyFrom64` | server/server.go:353-357 | the wrapped power is zero exactly from 64 |
| `Scaling.SolventExactly` | server/server.go:351-364 | no amount scales to more than it is worth if and only if src <= dst + 19 or src >= dst + 64 |
| `Scaling.WrappedGapInsolvent` | server/server.go:352-357 | for gaps 20 to 63 a concrete amount scales to a unit worth more |
| `Scaling.ScalingSolvent` | server/server.go:351-364 | scaled amount times 10^src is at most amount times 10^dst |
| `Scaling.UpThenDown` | server/server.go:351-364 | scaling up and down again is the identity |
| `Scaling.DownThenUp` | server/server.go:351-364 | scaling down and up again loses less than 10^gap |
| `Scaling.ScalingMonotone` | server/server.go:351-364 | a larger amount never scales to a smaller one |
| `TimeLock.LockGap` | server/server.go:391-397 | the IN lock is at least 28800 whole seconds before the source; exactly so, and whole seconds after the handling, if and only if no Duration overflows |
| `TimeLock.AcceptedExactly` | server/server.go:391-395 | a source lock is accepted if and only if it is 57600 whole seconds ahead and below 2^63 |
| `TimeLock.StoredLockGap` | server/schema.sql:20-20 | for every accepted lock without overflow, rounding to microseconds moves the IN lock by one second exactly in the last 500 ns of a second |
| `Dal.DAL.SetRelatedTxPreimage` | server/dal.go:123-127 | every row related to the id gets the preimage, every other row stays |
| `Dal.DAL.Select` | server/dal.go:230-342 | the result lists exactly the matching rows, each once |
| `Dal.DAL.GetAllTransfers` | server/dal.go:194-210 | the result lists the whole table, each row once |
| `Relay.Node.ProcessTrySendTransferIn` | server/server.go:765-849 | under any interference a pass is a run of the machine, and its own steps are one query, one turn for each row listed, in order, and the end; or one failed query. Without failing calls every row whose turn ends in a submission has its transferIn, less the fee, in the network |
| `Relay.Node.SendOne` | server/server.go:771-797 | a run whose own steps are too late (lock within 6 minutes); or the clock check and a chain read, followed by nothing, a fix, or pricing and sending; nothing is submitted for a transfer the delayed read showed before |
| `Relay.Node.FixOne` | server/server.go:784-795 | a run whose one own step makes the row LOCKED from IN_START, or fails to |
| `Relay.Node.PriceOne` | server/server.go:799-831 | a run whose own steps store exactly the gateway's fee, mark the row and submit amount plus old fee less that fee, to the row's receiver, in its token, under its lock; skipped only on a failure or a fee above the original amount |
| `Relay.Node.TransmitOne` | server/server.go:831-846 | a run whose own steps are one submission or, after a failure, two; each one taken up is a transferIn of exactly the given amount |
| `Relay.Node.ProcessTryConfirmTransfer` | server/server.go:851-897 | under any interference a pass is a run of the machine, and its own steps are one query, one turn for each row listed, and the end; or one failed query. Every submission taken up is a `confirm` with its row's preimage, for IN and OUT rows |
| `Relay.Node.ConfirmOne` | server/server.go:857-896 | a run whose own steps are a chain read followed by nothing, by mark and submission, or by copying the chain's verdict; only the last where the chain had shown one before |
| `Relay.Node.ClaimOne` | server/server.go:866-878 | a run whose two own steps are the mark, written or not, and the submission of a `confirm` with the row's own preimage, whatever kind of row |
| `Relay.Node.FinishOne` | server/server.go:879-891 | a run whose one own step writes REFUNDED where the read said returned and CONFIRMED where it said settled |
| `Relay.Node.ProcessTryRefundTransferIn` | server/server.go:899-974 | under any interference a pass is a run of the machine, and its own steps are one query, one turn for each row listed, and the end; or one failed query |
| `Relay.Node.RefundOne` | server/server.go:906-970 | a run whose own steps are a chain read followed by nothing, by writing REFUNDED, or by mark, related row and what that calls for |
| `Relay.Node.RelateOne` | server/server.go:920-936 | a run whose own steps are the related row's lookup followed by nothing, the chain check, or, exactly for a CONFIRMED row, a `confirm` with the preimage stored in it; a row CONFIRMED before is found so |
| `Relay.Node.CheckAndReturn` | server/server.go:937-958 | a run whose own steps are a read of the OUT transfer's chain and at most one `refund` of the IN transfer right after it; none where the OUT transfer showed as confirmed before |
| `Relay.Node.ProcessRecoverTimeoutPending` | server/server.go:976-1019 | under any interference a pass of one of the three queries is a run of the machine, and its own steps are the query, one restore for each row listed, and the end; or one failed query |
| `Relay.Node.RecoverTick` | server/server.go:752-763 | a tick makes three passes in this order, over rows in IN_PENDING, in CONFIRM_PENDING and in REFUND_PENDING, and ends where it started |
| `Relay.Node.HandleTransferOut` | server/server.go:298-427 | under any interference the handler is a run; it panics exactly for served routes with a gap of 64 decimals or more, asks for redelivery only if a write failed, and otherwise leaves both rows of every accepted transfer |
| `Relay.Node.HandleTransferIn` | server/server.go:429-458 | a run; unless a write failed the row is then past its sending states |
| `Relay.Node.HandleConfirm` | server/server.go:460-490 | a run; unless a write failed the row is then CONFIRMED and all related rows have the preimage |
| `Relay.Node.HandleRefund` | server/server.go:492-515 | a run; unless a write failed the row is then REFUNDED |
| `Steps.OthersAreCovered` | server/main/main.go:58-61 | whatever run the other goroutines make leaves the invariant, this one's place, and an evolved world |
| `Steps.RanIsReachable` | server/main/main.go:58-61 | so all that is proved of reachable states holds between procedures |
| `Summary.GetTotalSummary` | server/server.go:1023-1036 | one line for every pair of chains with a counted row, named the right way round and holding that pair's filtered sums |
| `Summary.PageSays` | server/server.go:1114-1172 | every OUT row has a line from its chain to the related one and every counted IN row one the other way, and every line says what is counted for the chains it names |
| `Summary.LineSays` | server/server.go:1131-1154 | counts, gas by status, and per-token volume and fee of a line, each spelled out as a sum over the rows |
| `Summary.Page.RecordTransferIn` | server/server.go:1110-1156 | adds an IN row to the sums of its pair and changes no other line |
| `Summary.Page.RecordTransferOut` | server/server.go:1158-1173 | counts an OUT row on the line of its pair |
| `Summary.Detail.CountIn` | server/server.go:1131-1154 | gas, successes, volume and fee by status |
| `Summary.SummaryStep` | server/server.go:1110-1173 | one more row keeps the page equal to the filtered sums |
| `Summary.OrderIsIrrelevant` | server/server.go:1030-1036 | any order of the rows gives the same lines |
| `Summary.KeyIsInjective` | server/server.go:1202-1204 | different pairs of chains have different keys |
| `Summary.SuccessesAreBounded` | server/server.go:1043-1047 | in a snapshot of a reachable table no line shows a success rate above 100% |
| `Codec.ScanRestoresInsert` | server/dal.go:113-121 | scanning what was inserted restores the record, but for the preimage and the times, for every address checksum |
| `Codec.RestoredExactly` | server/dal.go:113-121 | the record comes back unchanged if and only if its preimage is zero and its times are whole microseconds and the statement's own |
| `Codec.ScanTransfer` | server/dal.go:344-396 | fills every field from its column; fails exactly on a NULL in a nullable column or a negative chain id |
| `Codec.Hex2Bytes` | server/util.go:122-132 | drops the prefix, pads to an even length and decodes up to the first bad pair |
| `Codec.Hex2BytesUndoesHex` | server/util.go:119-138 | gives the bytes back from their text in any letter case, with or without the prefix |
| `Codec.Hex2BytesReadsNumber` | server/util.go:122-132 | any digits, an odd number of them too, decode to the bytes of the number they stand for |
| `Codec.DecodingStops` | server/util.go:130-131 | what follows the first bad pair is ignored |
| `Codec.FitIsRemainder` | server/util.go:142-164 | fitting to a width pads a short value and keeps the low bytes of a long one |
| `Codec.HashIsRestored` | server/util.go:158-160 | a hash is read back from its text |
| `Codec.AddrIsRestored` | server/util.go:142-144 | an address is read back from its checksummed text |
| `Codec.TextIdentifies` | server/dal.go:123-176 | comparing id columns as text compares ids |
| `Codec.EmptyPreimage` | server/dal.go:248-250 | the empty column reads back as the zero hash and is the text of no hash |
| `Decimal.PrintedInt` | server/dal.go:117-119 | every amount, negative ones included, is read back from its decimal text |
| `Decimal.PrintedReads` | server/server.go:1202-1204 | the text of a number is its decimal digits, most significant first, without a leading zero |

## Left out

- Safety.AmountIsConserved: speaks of the row; a stale write of amount and fee can leave a row whose amount differs from what an earlier submission locked on chain, and `LockedInIsBacked` bounds the latter.
- Summary.GetTotalSummary: counters and sums are unbounded integers; `GasTokenName`, `GasDecimal` and the token's name and decimals are absent, the first two because they depend on which row creates a line.
- Codec.ScanTransfer: the record is a value whose fields are reassigned step by step; aliasing of the record is not modelled.
- Relay.Node.Interfere: in `Relay` the other goroutines are known only by what any run of theirs leaves (`Steps.OthersAreCovered`); the method's body itself does nothing.
- Relay.Node.HandleTransferOut: a handler runs alone for its event; two handlers of the same event at the same instant are not modelled.
- The transaction-hash and gas columns in the protocol rows: nothing reads them there; gas columns are always zero in the code and are ordinary columns in `Summary` and `Codec`.
- Any claim that `confirm` and `refund` are never both submitted: the guarded updates do not look at the number of rows they hit.
- Memory of Confirmed and Refunded events that arrive before their row exists: the updates hit no row.
- `SetTransferPreimage`, the `monitor` table, the transfer list page, fee and ping exchange with the gateway, configuration, keystore and token approval.
- keccak, gas prices, nonces, block paging of the event watcher, and the text layout and floating-point formatting of the page.
- Database timestamps are exact in the protocol; their rounding is analysed only in `TimeLock` and `Codec`.
