/**
 * Timed runs: the relay watched over one IN transfer and the OUT transfer behind it, with the clocks, deadlines and
 * fault counts that the timing assumptions speak about. The watch only observes; it changes no action.
 */
module Timed {
  import opened Types
  import opened Dal
  import opened Ledger
  import opened Protocol
  import opened RetryLoop

  /** The timing assumptions: event delivery, and the bounds on the two retry loops. */
  datatype Params = Params(event: Time, claim: Bounds, refund: Bounds)

  ghost predicate ParamsOk(p: Params) {
    0 <= p.event && BoundsOk(p.claim) && BoundsOk(p.refund)
  }

  /** From the IN lock's expiry until the IN transfer is refunded, if nothing settles it or its OUT transfer. */
  function RefundDelay(p: Params): Time {
    p.event + 1 + TotalTime(p.refund)
  }

  /** From the IN transfer's settling until its OUT transfer is claimed. */
  function ClaimDelay(p: Params): Time {
    p.event + TotalTime(p.claim)
  }

  /** The delays, the recovery query's margin and one rounded second fit into the eight hours between the locks. */
  ghost predicate FitsGap(p: Params) {
    ParamsOk(p) && RefundDelay(p) + ClaimDelay(p) + TIME_LOCK_SAFE_MARGIN + SECOND < LOCK_GAP * SECOND
  }

  /**
   * Room for two failed attempts of each loop: passes of ten minutes every five, recovery passes of five minutes every
   * five, half an hour to mine, ten minutes to deliver an event.
   */
  lemma FitsWithTwoFaults(p: Params)
    requires p.event == 10 * MINUTE && p.claim == p.refund
    requires p.claim == Bounds(10 * MINUTE, 5 * MINUTE, 5 * MINUTE, 5 * MINUTE, 30 * MINUTE, 2)
    ensures FitsGap(p)
  {
    var b := p.claim;
    assert AttemptTime(b) == 55 * MINUTE;
    assert Budget(b, 0) == 0;
    assert Budget(b, 1) == Budget(b, 0) + AttemptTime(b);
    assert Budget(b, 2) == Budget(b, 1) + AttemptTime(b);
    assert Budget(b, 3) == Budget(b, 2) + AttemptTime(b);
    assert TotalTime(b) == 3 * 55 * MINUTE + 30 * MINUTE;
  }

  /** One retry loop, watched: since when its job and its recovery wait or run, its deadline, its faults. */
  datatype Side = Side(jobSince: Time, recSince: Time, due: Option<Time>, faults: nat)

  datatype Watch = Watch(
    s: State,
    claim: Side,
    refund: Side,
    minedAt: Option<Time>,
    settledAt: Option<Time>,
    seen: bool,
    shown: bool)

  /** The OUT transfer behind `inn`, once its row exists. */
  function OutOf(s: State, inn: Tid): Tid {
    if inn in s.table then s.table[inn].relTid else inn
  }

  predicate InPass(pc: RecPc, q: Selection) {
    pc.RecRun? && pc.q == q
  }

  predicate Listed(rows: seq<Row>, t: Tid) {
    exists x :: x in rows && x.tid == t
  }

  predicate ConfCovers(pc: ConfPc, t: Tid) {
    match pc
    case ConfIdle => false
    case ConfNext(rows) => Listed(rows, t)
    case ConfMarking(x, rest) => x.tid == t || Listed(rest, t)
    case ConfCalling(x, rest) => x.tid == t || Listed(rest, t)
    case ConfReturned(_, rest) => Listed(rest, t)
    case ConfSettled(_, rest) => Listed(rest, t)
  }

  predicate RefCovers(pc: RefPc, t: Tid) {
    match pc
    case RefIdle => false
    case RefNext(rows) => Listed(rows, t)
    case RefMarking(x, rest) => x.tid == t || Listed(rest, t)
    case RefRelating(x, rest) => x.tid == t || Listed(rest, t)
    case RefReadingOut(x, rest, _) => x.tid == t || Listed(rest, t)
    case RefConfirming(_, rest, _) => Listed(rest, t)
    case RefCalling(x, rest) => x.tid == t || Listed(rest, t)
    case RefReturned(_, rest) => Listed(rest, t)
  }

  function PhaseOf(tbl: Table, t: Tid, busy: Status): Phase {
    if t in tbl && tbl[t].status == busy then Busy(tbl[t].updateTs) else Ready
  }

  function ClockOf(idle: bool, since: Time, covers: bool): Clocked {
    if idle then Waiting(since) else Passing(since, covers)
  }

  function RecClock(pc: RecPc, q: Selection, since: Time, t: Tid): Clocked {
    if InPass(pc, q) then Passing(since, Listed(pc.rows, t)) else Waiting(since)
  }

  /** The confirm job and its recovery, as a retry loop over a row. */
  function ClaimLoop(s: State, k: Side, t: Tid): Loop {
    Loop(s.now,
         PhaseOf(s.table, t, ConfirmPending),
         ClockOf(s.conf.ConfIdle?, k.jobSince, ConfCovers(s.conf, t)),
         RecClock(s.reco, TimeoutPendingConfirm, k.recSince, t),
         k.due, k.faults)
  }

  /** The refund job and its recovery, as a retry loop over an IN row. */
  function RefundLoop(s: State, k: Side, inn: Tid): Loop {
    Loop(s.now,
         PhaseOf(s.table, inn, RefundPending),
         ClockOf(s.refu.RefIdle?, k.jobSince, RefCovers(s.refu, inn)),
         RecClock(s.reco, TimeoutPendingRefund, k.recSince, inn),
         k.due, k.faults)
  }

  // ----- what a step does to the watch -----

  /** An attempt to claim `out` failing: a query, read or recovery write, a submission not taken up, or a restart. */
  predicate ClaimFault(s: State, a: Action, drop: bool, out: Tid) {
    match a
    case Crash => true
    case QueryError(who) => who == ConfirmJob
    case ConfSkip => s.conf.ConfNext? && s.conf.rows != [] && s.conf.rows[0].tid == out
    case ConfSubmit(pool) => ClaimSubmits(s, a, out) && (drop || !pool)
    case RecSkip => s.reco.q == TimeoutPendingConfirm
    case RecRestore(ok) => !ok && RecHead(s, TimeoutPendingConfirm, out)
    case _ => false
  }

  predicate ClaimSubmits(s: State, a: Action, out: Tid) {
    a.ConfSubmit? && s.conf.ConfCalling? && s.conf.x.tid == out
  }

  predicate RecHead(s: State, q: Selection, t: Tid) {
    InPass(s.reco, q) && s.reco.rows != [] && s.reco.rows[0].tid == t
  }

  predicate RefundFault(s: State, a: Action, drop: bool, inn: Tid) {
    match a
    case Crash => true
    case QueryError(who) => who == RefundJob
    case RefSkip =>
      || (s.refu.RefNext? && s.refu.rows != [] && s.refu.rows[0].tid == inn)
      || ((s.refu.RefRelating? || s.refu.RefReadingOut?) && s.refu.x.tid == inn)
    case RefRefund(pool) => RefundSubmits(s, a, inn) && (drop || !pool)
    case RecSkip => s.reco.q == TimeoutPendingRefund
    case RecRestore(ok) => !ok && RecHead(s, TimeoutPendingRefund, inn)
    case _ => false
  }

  predicate RefundSubmits(s: State, a: Action, inn: Tid) {
    a.RefRefund? && s.refu.RefCalling? && s.refu.x.tid == inn
  }

  predicate MinesConfirm(a: Action, t: Tid) {
    a.Mine? && a.tx.TxConfirm? && a.tx.tid == t
  }

  predicate MinesRefund(a: Action, t: Tid) {
    a.Mine? && a.tx.TxRefund? && a.tx.tid == t
  }

  /** The claim loop has begun: the preimage was shown to the database. */
  predicate ClaimBegun(w: Watch) {
    w.shown
  }

  /** The refund loop has begun: the IN deposit was seen and its lock is over. */
  predicate RefundBegun(w: Watch, inn: Tid) {
    w.seen && inn in w.s.table && w.s.table[inn].timeLock < w.s.now
  }

  /** A deadline: cleared when the transaction is mined, set by a submission that will be. */
  function DueAfter(due: Option<Time>, mined: bool, submits: bool, fault: bool, at: Time): Option<Time> {
    if mined then None
    else if submits && !fault && due.None? then Some(at)
    else due
  }

  function SinceAfter(since: Time, idle: bool, idle': bool, failed: bool, now: Time): Time {
    if idle != idle' || failed then now else since
  }

  /** The claim loop's watch after the step `a` from `s` to `s'`; faults count once the loop has begun. */
  function ClaimSide(b: Bounds, t: Tid, s: State, s': State, k: Side, a: Action, drop: bool, begun: bool): Side {
    Side(
      SinceAfter(k.jobSince, s.conf.ConfIdle?, s'.conf.ConfIdle?, a == QueryError(ConfirmJob) || a.Crash?, s'.now),
      SinceAfter(k.recSince, InPass(s.reco, TimeoutPendingConfirm), InPass(s'.reco, TimeoutPendingConfirm),
                 (a.RecSkip? && s.reco.q == TimeoutPendingConfirm) || a.Crash?, s'.now),
      DueAfter(k.due, MinesConfirm(a, t), ClaimSubmits(s, a, t), ClaimFault(s, a, drop, t), s'.now + b.mining),
      k.faults + (if begun && ClaimFault(s, a, drop, t) then 1 else 0))
  }

  function RefundSide(b: Bounds, inn: Tid, s: State, s': State, k: Side, a: Action, drop: bool, begun: bool): Side {
    Side(
      SinceAfter(k.jobSince, s.refu.RefIdle?, s'.refu.RefIdle?, a == QueryError(RefundJob) || a.Crash?, s'.now),
      SinceAfter(k.recSince, InPass(s.reco, TimeoutPendingRefund), InPass(s'.reco, TimeoutPendingRefund),
                 (a.RecSkip? && s.reco.q == TimeoutPendingRefund) || a.Crash?, s'.now),
      DueAfter(k.due, MinesRefund(a, inn), RefundSubmits(s, a, inn), RefundFault(s, a, drop, inn), s'.now + b.mining),
      k.faults + (if begun && RefundFault(s, a, drop, inn) then 1 else 0))
  }

  /** The watch after a step; `drop` says that a submitted transaction will never be mined. */
  function Watched(c: Config, p: Params, inn: Tid, w: Watch, a: Action, drop: bool): Watch
    requires Enabled(c, w.s, a)
  {
    var s := w.s;
    var s' := Apply(c, s, a);
    Watch(
      s',
      ClaimSide(p.claim, OutOf(s, inn), s, s', w.claim, a, drop, ClaimBegun(w)),
      RefundSide(p.refund, inn, s, s', w.refund, a, drop, RefundBegun(w, inn)),
      if inn !in s.chain && inn in s'.chain then Some(s'.now) else w.minedAt,
      if !Has(s.chain, inn, Settled) && Has(s'.chain, inn, Settled) then Some(s'.now) else w.settledAt,
      w.seen || a == InSeen(inn),
      w.shown || a == ConfirmSecond(inn))
  }

  /** No timing assumption is overrun in this state. */
  ghost predicate Punctual(p: Params, inn: Tid, w: Watch) {
    && OnTime(p.claim, ClaimLoop(w.s, w.claim, OutOf(w.s, inn)))
    && OnTime(p.refund, RefundLoop(w.s, w.refund, inn))
    && (w.minedAt.Some? && !w.seen ==> w.s.now <= w.minedAt.value + p.event)
    && (w.settledAt.Some? && !w.shown ==> w.s.now <= w.settledAt.value + p.event)
  }

  function SideFrom(s: State): Side {
    Side(s.now, s.now, None, 0)
  }

  /** The watch set up in any state before the IN deposit exists, with nothing held against the past. */
  function WatchFrom(s: State): Watch {
    Watch(s, SideFrom(s), SideFrom(s), None, None, false, false)
  }

  /** A timed step: legal, and punctual after it. */
  datatype Move = Move(a: Action, drop: bool)

  ghost predicate MoveOk(c: Config, p: Params, inn: Tid, w: Watch, m: Move) {
    && Enabled(c, w.s, m.a)
    && Punctual(p, inn, Watched(c, p, inn, w, m.a, m.drop))
  }

  ghost predicate TimedRun(c: Config, p: Params, inn: Tid, w: Watch, moves: seq<Move>)
    decreases |moves|
  {
    moves == [] ||
    (MoveOk(c, p, inn, w, moves[0]) &&
     TimedRun(c, p, inn, Watched(c, p, inn, w, moves[0].a, moves[0].drop), moves[1..]))
  }

  ghost function After(c: Config, p: Params, inn: Tid, w: Watch, moves: seq<Move>): Watch
    requires TimedRun(c, p, inn, w, moves)
    decreases |moves|
  {
    if moves == [] then w
    else After(c, p, inn, Watched(c, p, inn, w, moves[0].a, moves[0].drop), moves[1..])
  }
}
