/**
 * The relay never loses its OUT transfer after its IN transfer was taken: in a timed run whose bounds fit into the
 * eight hours between the two locks, no state has the IN transfer settled and its OUT transfer returned.
 */
module Atomicity {
  import opened Types
  import opened Ledger
  import opened Protocol
  import opened Frames
  import opened Invariant
  import opened Preserve
  import opened Safety
  import opened RetryLoop
  import opened Timed
  import opened Watching
  import opened Loops

  // ----- the invariant of a watched run -----

  ghost predicate ClocksPast(w: Watch) {
    && w.claim.jobSince <= w.s.now && w.claim.recSince <= w.s.now
    && w.refund.jobSince <= w.s.now && w.refund.recSince <= w.s.now
  }

  ghost predicate DuesSane(p: Params, w: Watch) {
    && (w.claim.due.Some? ==> w.claim.due.value <= w.s.now + p.claim.mining)
    && (w.refund.due.Some? ==> w.refund.due.value <= w.s.now + p.refund.mining)
  }

  ghost predicate MarksSane(w: Watch, inn: Tid) {
    && (w.minedAt.Some? <==> inn in w.s.chain)
    && (w.settledAt.Some? <==> Has(w.s.chain, inn, Settled))
    && (inn in w.s.chain ==> inn in w.s.table)
    && (w.minedAt.Some? ==> inn in w.s.table && w.minedAt.value < w.s.table[inn].timeLock)
    && (w.settledAt.Some? ==> w.settledAt.value <= w.s.now)
  }

  ghost predicate FlagsSane(w: Watch, inn: Tid) {
    && (w.seen ==> inn in w.s.table && !Unsent(w.s.table[inn].status))
    && (w.shown ==> w.settledAt.Some? && OutOf(w.s, inn) in w.s.table && w.s.table[OutOf(w.s, inn)].preimage.Some?)
  }

  ghost predicate Base(c: Config, p: Params, inn: Tid, w: Watch) {
    && Inv(c, w.s) && Sorted(w.s)
    && ClocksPast(w) && DuesSane(p, w) && MarksSane(w, inn) && FlagsSane(w, inn)
  }

  ghost predicate OutSettled(w: Watch, inn: Tid) {
    Has(w.s.chain, OutOf(w.s, inn), Settled)
  }

  /** The claim loop is running: the preimage is shown and the OUT transfer is not yet claimed. */
  ghost predicate Claiming(w: Watch, inn: Tid) {
    inn in w.s.table && w.shown && !OutSettled(w, inn)
  }

  /** The refund loop is running: the lock has expired, the row is seen, and nothing is settled. */
  ghost predicate Refunding(w: Watch, inn: Tid) {
    && inn in w.s.table && w.seen && w.s.table[inn].timeLock < w.s.now
    && Has(w.s.chain, inn, Pending) && !OutSettled(w, inn)
  }

  ghost predicate ClaimProgress(p: Params, inn: Tid, w: Watch) {
    Claiming(w, inn) && w.settledAt.Some? ==>
      exists t0: Time ::
        t0 <= w.settledAt.value + p.event && Goes(p.claim, ClaimLoop(w.s, w.claim, OutOf(w.s, inn)), t0)
  }

  ghost predicate RefundProgress(p: Params, inn: Tid, w: Watch) {
    Refunding(w, inn) ==>
      exists t0: Time ::
        t0 <= w.s.table[inn].timeLock + p.event + 1 && Goes(p.refund, RefundLoop(w.s, w.refund, inn), t0)
  }

  /** The IN transfer was settled early enough, unless the OUT transfer is already claimed. */
  ghost predicate SettledEarly(p: Params, inn: Tid, w: Watch) {
    inn in w.s.table && w.settledAt.Some? && !OutSettled(w, inn) ==>
      w.settledAt.value <= w.s.table[inn].timeLock + RefundDelay(p)
  }

  ghost predicate Atomic(w: Watch, inn: Tid) {
    !(inn in w.s.table && Has(w.s.chain, inn, Settled) && Has(w.s.chain, OutOf(w.s, inn), Returned))
  }

  ghost predicate Watchful(c: Config, p: Params, inn: Tid, w: Watch) {
    && Base(c, p, inn, w) && Punctual(p, inn, w)
    && ClaimProgress(p, inn, w) && RefundProgress(p, inn, w)
    && SettledEarly(p, inn, w) && Atomic(w, inn)
  }

  // ----- what the loops' deadlines say -----

  /** While the IN transfer is pending and the OUT transfer unclaimed, the refund delay has not run out. */
  lemma PendingInTime(c: Config, p: Params, inn: Tid, w: Watch)
    requires ParamsOk(p) && Base(c, p, inn, w) && Punctual(p, inn, w) && RefundProgress(p, inn, w)
    requires inn in w.s.table && Has(w.s.chain, inn, Pending) && !OutSettled(w, inn)
    ensures w.s.now <= w.s.table[inn].timeLock + RefundDelay(p)
  {
    hide Inv, Sorted, OnTime, Goes;
    TotalNonNegative(p.refund);
    if Refunding(w, inn) {
      var t0: Time :|
        t0 <= w.s.table[inn].timeLock + p.event + 1 && Goes(p.refund, RefundLoop(w.s, w.refund, inn), t0);
      GoesWithinTotal(p.refund, RefundLoop(w.s, w.refund, inn), t0);
    }
  }

  lemma GoesWithinTotal(b: Bounds, l: Loop, t0: Time)
    requires Goes(b, l, t0) && OnTime(b, l)
    ensures l.now <= t0 + TotalTime(b)
  {
    hide OnTime, Progress;
    var mark: Time :| Progress(b, l, mark, t0);
    WithinTotal(b, l, mark, t0);
  }

  lemma TotalNonNegative(b: Bounds)
    requires BoundsOk(b)
    ensures TotalTime(b) >= b.mining >= 0
  {
    BudgetMono(b, 0, b.faults + 1);
  }

  /** While the OUT transfer of a settled IN transfer is unclaimed, the claim delay has not run out. */
  lemma UnclaimedInTime(c: Config, p: Params, inn: Tid, w: Watch)
    requires ParamsOk(p) && Base(c, p, inn, w) && Punctual(p, inn, w) && ClaimProgress(p, inn, w)
    requires inn in w.s.table && w.settledAt.Some? && !OutSettled(w, inn)
    ensures w.s.now <= w.settledAt.value + ClaimDelay(p)
  {
    hide Inv, Sorted, OnTime, Goes;
    TotalNonNegative(p.claim);
    if w.shown {
      var t0: Time :|
        t0 <= w.settledAt.value + p.event && Goes(p.claim, ClaimLoop(w.s, w.claim, OutOf(w.s, inn)), t0);
      GoesWithinTotal(p.claim, ClaimLoop(w.s, w.claim, OutOf(w.s, inn)), t0);
    }
  }

  /** So the OUT transfer's lock, less the recovery margin, is still ahead. */
  lemma LockStillAhead(c: Config, p: Params, inn: Tid, w: Watch)
    requires FitsGap(p) && inn.sender == c.me && Watchful(c, p, inn, w)
    requires inn in w.s.table && w.settledAt.Some? && !OutSettled(w, inn)
    ensures OutOf(w.s, inn) in w.s.chain && OutOf(w.s, inn) in w.s.table
    ensures w.s.table[OutOf(w.s, inn)].timeLock == w.s.chain[OutOf(w.s, inn)].timelock * SECOND
    ensures w.s.now + TIME_LOCK_SAFE_MARGIN < w.s.chain[OutOf(w.s, inn)].timelock * SECOND
  {
    hide Inv, Sorted, OnTime, Progress, ClaimProgress, RefundProgress;
    UnclaimedInTime(c, p, inn, w);
    PairFacts(c, w.s, inn);
  }

  /** The OUT transfer cannot be returned while the IN transfer is pending or settled but unclaimed. */
  lemma NotReturned(c: Config, p: Params, inn: Tid, w: Watch)
    requires FitsGap(p) && inn.sender == c.me && Watchful(c, p, inn, w)
    requires inn in w.s.table && inn in w.s.chain && w.s.chain[inn].status != Returned && !OutSettled(w, inn)
    ensures Has(w.s.chain, OutOf(w.s, inn), Pending)
    ensures Unix(w.s.now) < w.s.chain[OutOf(w.s, inn)].timelock
  {
    hide Inv, OnTime, Progress, ClaimProgress, RefundProgress, ConfDistinct, RefDistinct, RecDistinct;
    PairFacts(c, w.s, inn);
    StatusDefined(c, w.s, inn);
    StatusDefined(c, w.s, OutOf(w.s, inn));
    TotalNonNegative(p.claim);
    if w.settledAt.Some? {
      UnclaimedInTime(c, p, inn, w);
    } else {
      PendingInTime(c, p, inn, w);
    }
    BeforeLock(w.s.now, w.s.table[inn].timeLock, w.s.chain[OutOf(w.s, inn)].timelock);
  }

  lemma BeforeLock(now: Time, timeLock: Time, srcLock: int)
    requires Unix(timeLock) + LOCK_GAP <= srcLock
    requires now + SECOND < timeLock + LOCK_GAP * SECOND
    ensures Unix(now) < srcLock
  {
  }

  lemma StatusDefined(c: Config, s: State, t: Tid)
    requires Inv(c, s) && t in s.chain
    ensures s.chain[t].status != Undefined
  {
    assert DepositOk(c, s, t, s.chain[t]);
  }

  // ----- one step of the chain -----

  /** Creating a deposit leaves it pending, before its lock. */
  lemma CreatedPending(c: Config, s: State, a: Action, t: Tid)
    requires Inv(c, s) && Enabled(c, s, a) && t !in s.chain && t in Apply(c, s, a).chain
    ensures !a.Tick? && Who(a) == Environment
    ensures Has(Apply(c, s, a).chain, t, Pending) && Apply(c, s, a).chain[t].timelock > Unix(s.now)
  {
    hide Enabled, Apply, Inv;
    OnlyEnvironmentMoves(c, s, a);
    EnvironmentApplies(c, s, a);
  }

  lemma OnlyEnvironmentMoves(c: Config, s: State, a: Action)
    requires Enabled(c, s, a)
    ensures Who(a) != Environment || a.Tick? || a.Crash? ==> Apply(c, s, a).chain == s.chain
    ensures Apply(c, s, a).now == if a.Tick? then s.now + 1 else s.now
  {
    hide Enabled, Apply;
    match Who(a) {
      case Environment => EnvironmentFrame(c, s, a);
      case Monitors => MonitorFrame(c, s, a);
      case SendJob => SendFrame(c, s, a);
      case ConfirmJob => ConfirmFrame(c, s, a);
      case RefundJob => RefundFrame(c, s, a);
      case RecoverJob => RecoverFrame(c, s, a);
    }
  }

  /** A deposit settles or returns only from pending, and returns only past its lock. */
  lemma ClosesFromPending(c: Config, s: State, a: Action, t: Tid)
    requires Inv(c, s) && Enabled(c, s, a) && t in s.chain && t in Apply(c, s, a).chain
    requires Apply(c, s, a).chain[t].status != s.chain[t].status
    ensures !a.Tick? && s.chain[t].status == Pending
    ensures Has(Apply(c, s, a).chain, t, Returned) ==> s.chain[t].timelock <= Unix(s.now)
  {
    hide Enabled, Apply, Inv;
    OnlyEnvironmentMoves(c, s, a);
    EnvironmentApplies(c, s, a);
  }

  // ----- the base facts are kept -----

  lemma MarksKept(c: Config, p: Params, inn: Tid, w: Watch, w': Watch, a: Action, drop: bool)
    requires inn.sender == c.me && Inv(c, w.s) && Enabled(c, w.s, a) && w' == Watched(c, p, inn, w, a, drop)
    requires MarksSane(w, inn) && Inv(c, w'.s) && Evolves(w.s, w'.s)
    ensures MarksSane(w', inn)
  {
    hide Inv, Enabled, Apply, ClaimFault, RefundFault;
    OnlyEnvironmentMoves(c, w.s, a);
    if inn in w'.s.chain {
      OwnDeposit(c, w'.s, inn);
      PairFacts(c, w'.s, inn);
      if inn !in w.s.chain {
        CreatedPending(c, w.s, a, inn);
        UnixOrder(w.s.now, w'.s.table[inn].timeLock);
      } else {
        assert RowGrows(w.s.table[inn], w'.s.table[inn]);
      }
    }
  }

  lemma UnixOrder(a: Time, b: Time)
    requires Unix(a) < Unix(b)
    ensures a < b
  {
  }

  lemma FlagsKept(c: Config, p: Params, inn: Tid, w: Watch, w': Watch, a: Action, drop: bool)
    requires inn.sender == c.me && Inv(c, w.s) && Enabled(c, w.s, a) && w' == Watched(c, p, inn, w, a, drop)
    requires MarksSane(w, inn) && FlagsSane(w, inn) && MarksSane(w', inn) && Inv(c, w'.s) && Evolves(w.s, w'.s)
    ensures FlagsSane(w', inn)
  {
    hide Inv, Enabled, Apply, ClaimFault, RefundFault, Evolves, MarksSane;
    SeenKept(c, inn, w, w'.s, a);
    ShownKept(c, inn, w, w', a);
  }

  lemma SeenKept(c: Config, inn: Tid, w: Watch, s': State, a: Action)
    requires inn.sender == c.me && Inv(c, w.s) && Enabled(c, w.s, a) && s' == Apply(c, w.s, a) && Evolves(w.s, s')
    requires FlagsSane(w, inn)
    ensures w.seen || a == InSeen(inn) ==> inn in s'.table && !Unsent(s'.table[inn].status)
  {
    hide Inv, Enabled, Apply;
    if a == InSeen(inn) {
      SeenIsThere(c, w.s, inn);
      assert RowGrows(w.s.table[inn], s'.table[inn]);
      DeliveryActs(c, w.s, a, inn);
    } else if w.seen {
      assert RowGrows(w.s.table[inn], s'.table[inn]);
    }
  }

  lemma ShownKept(c: Config, inn: Tid, w: Watch, w': Watch, a: Action)
    requires inn.sender == c.me && Inv(c, w.s) && Enabled(c, w.s, a) && w'.s == Apply(c, w.s, a) && Evolves(w.s, w'.s)
    requires MarksSane(w, inn) && FlagsSane(w, inn) && MarksSane(w', inn)
    ensures w.shown || a == ConfirmSecond(inn) ==>
              w'.settledAt.Some? && OutOf(w'.s, inn) in w'.s.table && w'.s.table[OutOf(w'.s, inn)].preimage.Some?
  {
    hide Inv, Enabled, Apply, RowGrows;
    if w.shown || a == ConfirmSecond(inn) {
      if a == ConfirmSecond(inn) {
        ShownIsSettled(c, w.s, inn);
      }
      OwnDeposit(c, w.s, inn);
      PairFacts(c, w.s, inn);
      PairGrows(w.s, w'.s, inn);
      if a == ConfirmSecond(inn) {
        DeliveryActs(c, w.s, a, OutOf(w.s, inn));
      }
    }
  }

  lemma PairGrows(s: State, s': State, inn: Tid)
    requires Evolves(s, s') && inn in s.table && s.table[inn].relTid in s.table && inn in s.chain
    ensures inn in s'.table && OutOf(s', inn) == OutOf(s, inn) && OutOf(s, inn) in s'.table
    ensures s.table[OutOf(s, inn)].preimage.Some? ==> s'.table[OutOf(s, inn)].preimage.Some?
    ensures inn in s'.chain && (Has(s.chain, inn, Settled) ==> Has(s'.chain, inn, Settled))
  {
    assert RowGrows(s.table[inn], s'.table[inn]);
    assert RowGrows(s.table[OutOf(s, inn)], s'.table[OutOf(s, inn)]);
  }

  lemma SeenIsThere(c: Config, s: State, inn: Tid)
    requires Inv(c, s) && inn.sender == c.me && Enabled(c, s, InSeen(inn))
    ensures inn in s.chain && inn in s.table
  {
    MonitorApplies(c, s, InSeen(inn));
    OwnDeposit(c, s, inn);
  }

  lemma ShownIsSettled(c: Config, s: State, inn: Tid)
    requires Inv(c, s) && Enabled(c, s, ConfirmSecond(inn))
    ensures Has(s.chain, inn, Settled)
  {
    MonitorApplies(c, s, ConfirmSecond(inn));
    assert DepositOk(c, s, inn, s.chain[inn]);
  }

  lemma BaseKept(c: Config, p: Params, inn: Tid, w: Watch, w': Watch, a: Action, drop: bool)
    requires ParamsOk(p) && inn.sender == c.me && Base(c, p, inn, w)
    requires Enabled(c, w.s, a) && w' == Watched(c, p, inn, w, a, drop)
    ensures Base(c, p, inn, w') && Evolves(w.s, w'.s)
  {
    hide Enabled, Apply, ClaimFault, RefundFault, Sorted, MarksSane, FlagsSane, Inv;
    StepKeeps(c, w.s, a);
    StepSorted(c, w.s, a);
    MarksKept(c, p, inn, w, w', a, drop);
    FlagsKept(c, p, inn, w, w', a, drop);
  }

  // ----- the loops are kept -----

  lemma WatchedParts(c: Config, p: Params, inn: Tid, w: Watch, a: Action, drop: bool)
    requires Enabled(c, w.s, a)
    ensures var w' := Watched(c, p, inn, w, a, drop);
            && w'.s == Apply(c, w.s, a)
            && w'.claim == ClaimSide(p.claim, OutOf(w.s, inn), w.s, w'.s, w.claim, a, drop, ClaimBegun(w))
            && w'.refund == RefundSide(p.refund, inn, w.s, w'.s, w.refund, a, drop, RefundBegun(w, inn))
  {
    hide Enabled, Apply, ClaimSide, RefundSide;
  }

  lemma OutSettledStays(w: Watch, w': Watch, inn: Tid)
    requires Evolves(w.s, w'.s) && inn in w.s.table
    ensures inn in w'.s.table && OutOf(w'.s, inn) == OutOf(w.s, inn)
    ensures w'.s.table[inn].timeLock == w.s.table[inn].timeLock
    ensures OutSettled(w, inn) ==> OutSettled(w', inn)
  {
    assert RowGrows(w.s.table[inn], w'.s.table[inn]);
  }

  /** While the IN transfer is pending or settled, a step may settle its OUT transfer but not return it. */
  lemma OutStaysOpen(c: Config, p: Params, inn: Tid, w: Watch, a: Action)
    requires FitsGap(p) && inn.sender == c.me && Watchful(c, p, inn, w) && Enabled(c, w.s, a)
    requires inn in w.s.table && inn in w.s.chain && w.s.chain[inn].status != Returned && !OutSettled(w, inn)
    requires Inv(c, Apply(c, w.s, a)) && Evolves(w.s, Apply(c, w.s, a))
    ensures Has(w.s.chain, OutOf(w.s, inn), Pending)
    ensures !Has(Apply(c, w.s, a).chain, OutOf(w.s, inn), Returned)
    ensures !Has(Apply(c, w.s, a).chain, OutOf(w.s, inn), Settled) ==>
              Has(Apply(c, w.s, a).chain, OutOf(w.s, inn), Pending)
  {
    hide Watchful, Enabled, Apply, Inv, FitsGap, RowGrows;
    NotReturned(c, p, inn, w);
    var out := OutOf(w.s, inn);
    InvOf(c, p, inn, w);
    StatusDefined(c, Apply(c, w.s, a), out);
    if Apply(c, w.s, a).chain[out].status != Pending {
      ClosesFromPending(c, w.s, a, out);
    }
  }

  lemma InvOf(c: Config, p: Params, inn: Tid, w: Watch)
    requires Watchful(c, p, inn, w)
    ensures Inv(c, w.s) && Sorted(w.s) && Base(c, p, inn, w) && Punctual(p, inn, w)
    ensures MarksSane(w, inn) && FlagsSane(w, inn)
  {
  }

  lemma ClaimOpenNow(c: Config, p: Params, inn: Tid, w: Watch)
    requires FitsGap(p) && inn.sender == c.me && Watchful(c, p, inn, w)
    requires Claiming(w, inn) && w.settledAt.Some? && Has(w.s.chain, OutOf(w.s, inn), Pending)
    ensures ClaimOpen(c, w.s, OutOf(w.s, inn))
  {
    LockStillAhead(c, p, inn, w);
    InvOf(c, p, inn, w);
    hide Watchful, Inv, Sorted, Punctual;
    PairFacts(c, w.s, inn);
    RowFacts(c, w.s, OutOf(w.s, inn));
    ClaimIsOpen(c, w.s, OutOf(w.s, inn));
  }

  lemma StartClaim(p: Params, inn: Tid, w: Watch)
    requires ParamsOk(p) && ClocksPast(w) && DuesSane(p, w) && StampsPast(w.s)
    ensures Goes(p.claim, ClaimLoop(w.s, w.claim, OutOf(w.s, inn)), w.s.now)
  {
    TotalNonNegative(p.claim);
    StartLoop(p.claim, ClaimLoop(w.s, w.claim, OutOf(w.s, inn)));
  }

  lemma StartRefund(p: Params, inn: Tid, w: Watch)
    requires ParamsOk(p) && ClocksPast(w) && DuesSane(p, w) && StampsPast(w.s)
    ensures Goes(p.refund, RefundLoop(w.s, w.refund, inn), w.s.now)
  {
    TotalNonNegative(p.refund);
    StartLoop(p.refund, RefundLoop(w.s, w.refund, inn));
  }

  lemma ClaimKept(c: Config, p: Params, inn: Tid, w: Watch, w': Watch, m: Move)
    requires FitsGap(p) && inn.sender == c.me && Watchful(c, p, inn, w)
    requires MoveOk(c, p, inn, w, m) && w' == Watched(c, p, inn, w, m.a, m.drop)
    requires Base(c, p, inn, w') && Evolves(w.s, w'.s)
    ensures ClaimProgress(p, inn, w')
  {
    InvOf(c, p, inn, w);
    WatchedParts(c, p, inn, w, m.a, m.drop);
    hide Inv, Enabled, Apply, Goes, OnTime, ClaimLoop, RefundLoop, Watchful, ClaimFault, RefundFault, Sorted;
    if Claiming(w', inn) && w'.settledAt.Some? {
      if w.shown {
        ClaimContinues(c, p, inn, w, w', m);
      } else {
        ShownIsSettled(c, w.s, inn);
        SortedStamps(w'.s);
        StartClaim(p, inn, w');
        OnlyEnvironmentMoves(c, w.s, m.a);
      }
    }
  }

  lemma SortedStamps(s: State)
    requires Sorted(s)
    ensures StampsPast(s)
  {
  }

  lemma ClaimContinues(c: Config, p: Params, inn: Tid, w: Watch, w': Watch, m: Move)
    requires FitsGap(p) && inn.sender == c.me && Watchful(c, p, inn, w) && w.shown
    requires MoveOk(c, p, inn, w, m) && w' == Watched(c, p, inn, w, m.a, m.drop)
    requires Base(c, p, inn, w') && Evolves(w.s, w'.s) && Claiming(w', inn)
    ensures ClaimProgress(p, inn, w')
  {
    InvOf(c, p, inn, w);
    WatchedParts(c, p, inn, w, m.a, m.drop);
    hide Inv, Enabled, Apply, Goes, OnTime, ClaimLoop, RefundLoop, ClaimFault, RefundFault, Sorted;
    var out := OutOf(w.s, inn);
    OutSettledStays(w, w', inn);
    assert Claiming(w, inn) && w.settledAt.Some?;
    OutStaysOpen(c, p, inn, w, m.a);
    ClaimOpenNow(c, p, inn, w);
    var t0: Time :| t0 <= w.settledAt.value + p.event && Goes(p.claim, ClaimLoop(w.s, w.claim, out), t0);
    ClaimGoesOn(c, p.claim, out, w.s, w.claim, w'.s, w'.claim, m.a, m.drop, t0);
    assert w'.settledAt == w.settledAt;
  }

  lemma RefundOpenNow(c: Config, p: Params, inn: Tid, w: Watch)
    requires inn.sender == c.me && Watchful(c, p, inn, w) && Refunding(w, inn)
    ensures RefundOpen(c, w.s, inn)
  {
    InvOf(c, p, inn, w);
    hide Watchful, Inv, Sorted, Punctual;
    PairFacts(c, w.s, inn);
    InIsOpen(c, w.s, inn);
    RowFacts(c, w.s, inn);
    RowFacts(c, w.s, OutOf(w.s, inn));
    DepositFacts(c, w.s, OutOf(w.s, inn));
  }

  lemma DepositFacts(c: Config, s: State, t: Tid)
    requires Inv(c, s) && t in s.chain
    ensures s.chain[t].safe == Settled ==> s.chain[t].status == Settled
  {
    assert DepositOk(c, s, t, s.chain[t]);
  }

  lemma RefundKept(c: Config, p: Params, inn: Tid, w: Watch, w': Watch, m: Move)
    requires FitsGap(p) && inn.sender == c.me && Watchful(c, p, inn, w)
    requires MoveOk(c, p, inn, w, m) && w' == Watched(c, p, inn, w, m.a, m.drop)
    requires Base(c, p, inn, w') && Evolves(w.s, w'.s)
    ensures RefundProgress(p, inn, w')
  {
    InvOf(c, p, inn, w);
    WatchedParts(c, p, inn, w, m.a, m.drop);
    hide Inv, Enabled, Apply, Goes, OnTime, ClaimLoop, RefundLoop, Watchful, ClaimFault, RefundFault, Sorted;
    if Refunding(w', inn) {
      if w.seen {
        OutSettledStays(w, w', inn);
        if w.s.table[inn].timeLock < w.s.now {
          RefundContinues(c, p, inn, w, w', m);
        } else {
          SortedStamps(w'.s);
          StartRefund(p, inn, w');
          OnlyEnvironmentMoves(c, w.s, m.a);
        }
      } else {
        SeenIsThere(c, w.s, inn);
        OutSettledStays(w, w', inn);
        SortedStamps(w'.s);
        StartRefund(p, inn, w');
        OnlyEnvironmentMoves(c, w.s, m.a);
      }
    }
  }

  /** The refund loop was already running before the step. */
  lemma WasRefunding(c: Config, inn: Tid, w: Watch, w': Watch)
    requires Inv(c, w.s) && FlagsSane(w, inn) && Evolves(w.s, w'.s) && Refunding(w', inn)
    requires w.seen && inn in w.s.table && w.s.table[inn].timeLock < w.s.now
    ensures Refunding(w, inn) && w'.s.table[inn].timeLock == w.s.table[inn].timeLock
  {
    hide TableOk, ChainOk, SentOk, MonitorsOk, SendOk, ConfOk, RefOk, RecOk, RowOk;
    OutSettledStays(w, w', inn);
    RowFacts(c, w.s, inn);
    StatusDefined(c, w.s, inn);
  }

  lemma RefundContinues(c: Config, p: Params, inn: Tid, w: Watch, w': Watch, m: Move)
    requires FitsGap(p) && inn.sender == c.me && Watchful(c, p, inn, w)
    requires MoveOk(c, p, inn, w, m) && w' == Watched(c, p, inn, w, m.a, m.drop)
    requires Base(c, p, inn, w') && Evolves(w.s, w'.s) && Refunding(w', inn)
    requires w.seen && inn in w.s.table && w.s.table[inn].timeLock < w.s.now
    ensures RefundProgress(p, inn, w')
  {
    InvOf(c, p, inn, w);
    WatchedParts(c, p, inn, w, m.a, m.drop);
    hide Inv, Enabled, Apply, Goes, OnTime, ClaimLoop, RefundLoop, Watched, Sorted, Evolves, Base, MarksSane, FlagsSane,
      ClaimProgress, SettledEarly, Atomic;
    WasRefunding(c, inn, w, w');
    RefundOpenNow(c, p, inn, w);
    hide RefundOpen;
    var t0: Time :| t0 <= w.s.table[inn].timeLock + p.event + 1 && Goes(p.refund, RefundLoop(w.s, w.refund, inn), t0);
    assert RefundMove(c, p.refund, inn, w.s, w.refund, w'.s, w'.refund, m.a, m.drop);
    RefundGoesOn(c, p.refund, inn, w.s, w.refund, w'.s, w'.refund, m.a, m.drop, t0);
  }

  // ----- the two safety parts are kept -----

  lemma SettledEarlyKept(c: Config, p: Params, inn: Tid, w: Watch, w': Watch, m: Move)
    requires FitsGap(p) && inn.sender == c.me && Watchful(c, p, inn, w)
    requires MoveOk(c, p, inn, w, m) && w' == Watched(c, p, inn, w, m.a, m.drop)
    requires Base(c, p, inn, w') && Evolves(w.s, w'.s)
    ensures SettledEarly(p, inn, w')
  {
    InvOf(c, p, inn, w);
    WatchedParts(c, p, inn, w, m.a, m.drop);
    hide Inv, Enabled, Apply, Goes, OnTime, ClaimLoop, RefundLoop, ClaimFault, RefundFault, Sorted;
    if inn in w'.s.table && w'.settledAt.Some? && !OutSettled(w', inn) {
      OnlyEnvironmentMoves(c, w.s, m.a);
      if inn !in w.s.chain {
        CreatedPending(c, w.s, m.a, inn);
      } else {
        OutSettledStays(w, w', inn);
        if w.settledAt.None? {
          ClosesFromPending(c, w.s, m.a, inn);
          PendingInTime(c, p, inn, w);
        }
      }
    }
  }

  lemma AtomicKept(c: Config, p: Params, inn: Tid, w: Watch, w': Watch, m: Move)
    requires FitsGap(p) && inn.sender == c.me && Watchful(c, p, inn, w)
    requires MoveOk(c, p, inn, w, m) && w' == Watched(c, p, inn, w, m.a, m.drop)
    requires Base(c, p, inn, w') && Evolves(w.s, w'.s)
    ensures Atomic(w', inn)
  {
    InvOf(c, p, inn, w);
    WatchedParts(c, p, inn, w, m.a, m.drop);
    hide Inv, Enabled, Apply, Goes, OnTime, ClaimLoop, RefundLoop, ClaimFault, RefundFault, Sorted, Punctual,
      ClaimProgress, RefundProgress;
    if inn in w'.s.table && Has(w'.s.chain, inn, Settled) {
      if inn !in w.s.chain {
        CreatedPending(c, w.s, m.a, inn);
      } else {
        OutSettledStays(w, w', inn);
        if !OutSettled(w, inn) {
          OutStaysOpen(c, p, inn, w, m.a);
        }
      }
    }
  }

  lemma WatchfulKept(c: Config, p: Params, inn: Tid, w: Watch, m: Move)
    requires FitsGap(p) && inn.sender == c.me && Watchful(c, p, inn, w) && MoveOk(c, p, inn, w, m)
    ensures Watchful(c, p, inn, Watched(c, p, inn, w, m.a, m.drop))
  {
    var w' := Watched(c, p, inn, w, m.a, m.drop);
    hide Inv, Enabled, Apply, Watched, Punctual, Base, ClaimProgress, RefundProgress, SettledEarly, Atomic, Evolves;
    BaseKept(c, p, inn, w, w', m.a, m.drop);
    ClaimKept(c, p, inn, w, w', m);
    RefundKept(c, p, inn, w, w', m);
    SettledEarlyKept(c, p, inn, w, w', m);
    AtomicKept(c, p, inn, w, w', m);
  }

  // ----- every timed run -----

  /** Before the IN deposit exists a watch can be set up in any reachable state. */
  lemma StartWatchful(c: Config, p: Params, inn: Tid, s: State)
    requires Reachable(c, s) && inn !in s.chain && ParamsOk(p)
    ensures Watchful(c, p, inn, WatchFrom(s))
  {
    hide Reachable, Base, Punctual, Goes;
    StartBase(c, p, inn, s);
    StartPunctual(p, inn, s);
  }

  lemma StartBase(c: Config, p: Params, inn: Tid, s: State)
    requires Reachable(c, s) && inn !in s.chain && ParamsOk(p)
    ensures Base(c, p, inn, WatchFrom(s))
  {
    hide Inv, Sorted, Reachable;
    ReachableInv(c, s);
    ReachableSorted(c, s);
  }

  lemma StartPunctual(p: Params, inn: Tid, s: State)
    requires ParamsOk(p)
    ensures Punctual(p, inn, WatchFrom(s))
  {
    hide ConfCovers, RefCovers, Listed;
  }

  lemma {:induction false} RunWatchful(c: Config, p: Params, inn: Tid, w: Watch, moves: seq<Move>)
    requires FitsGap(p) && inn.sender == c.me && Watchful(c, p, inn, w) && TimedRun(c, p, inn, w, moves)
    ensures Watchful(c, p, inn, After(c, p, inn, w, moves))
    decreases |moves|
  {
    hide Watchful, MoveOk, Watched, FitsGap;
    if moves != [] {
      WatchfulKept(c, p, inn, w, moves[0]);
      MoveEnabled(c, p, inn, w, moves[0]);
      RunWatchful(c, p, inn, Watched(c, p, inn, w, moves[0].a, moves[0].drop), moves[1..]);
    }
  }

  lemma MoveEnabled(c: Config, p: Params, inn: Tid, w: Watch, m: Move)
    requires MoveOk(c, p, inn, w, m)
    ensures Enabled(c, w.s, m.a)
  {
  }

  /**
   * From any reachable state, in every timed run whose delays fit between the two locks, restarts included, an IN
   * transfer of the relay that is taken never goes with an OUT transfer that is returned to its sender.
   */
  lemma RelayIsAtomic(c: Config, p: Params, inn: Tid, start: State, moves: seq<Move>)
    requires Reachable(c, start) && inn !in start.chain && inn.sender == c.me && FitsGap(p)
    requires TimedRun(c, p, inn, WatchFrom(start), moves)
    ensures var s := After(c, p, inn, WatchFrom(start), moves).s;
            inn in s.table && Has(s.chain, inn, Settled) ==> !Has(s.chain, s.table[inn].relTid, Returned)
  {
    StartWatchful(c, p, inn, start);
    RunWatchful(c, p, inn, WatchFrom(start), moves);
  }

  /** If the user never reveals the preimage, the relay gets its IN deposit back within the refund delay. */
  lemma ExpiredTransferIsRefunded(c: Config, p: Params, inn: Tid, start: State, moves: seq<Move>)
    requires Reachable(c, start) && inn !in start.chain && inn.sender == c.me && FitsGap(p)
    requires TimedRun(c, p, inn, WatchFrom(start), moves)
    ensures var s := After(c, p, inn, WatchFrom(start), moves).s;
            && (inn in s.chain ==> inn in s.table)
            && (inn in s.chain && s.now > s.table[inn].timeLock + RefundDelay(p) ==>
                  s.chain[inn].status == Returned || s.chain[inn].status == Settled
                  || Has(s.chain, s.table[inn].relTid, Settled))
  {
    StartWatchful(c, p, inn, start);
    RunWatchful(c, p, inn, WatchFrom(start), moves);
    var w := After(c, p, inn, WatchFrom(start), moves);
    InvOf(c, p, inn, w);
    if inn in w.s.chain {
      StatusDefined(c, w.s, inn);
      if w.s.chain[inn].status == Pending && !OutSettled(w, inn) {
        PendingInTime(c, p, inn, w);
      }
    }
  }

  /** If the user takes the IN transfer, the relay has claimed the OUT transfer within the claim delay. */
  lemma RevealedTransferIsClaimed(c: Config, p: Params, inn: Tid, start: State, moves: seq<Move>)
    requires Reachable(c, start) && inn !in start.chain && inn.sender == c.me && FitsGap(p)
    requires TimedRun(c, p, inn, WatchFrom(start), moves)
    ensures var w := After(c, p, inn, WatchFrom(start), moves);
            && (Has(w.s.chain, inn, Settled) <==> w.settledAt.Some?)
            && (w.settledAt.Some? ==> inn in w.s.table)
            && (w.settledAt.Some? && w.s.now > w.settledAt.value + ClaimDelay(p) ==>
                  Has(w.s.chain, w.s.table[inn].relTid, Settled))
  {
    StartWatchful(c, p, inn, start);
    RunWatchful(c, p, inn, WatchFrom(start), moves);
    var w := After(c, p, inn, WatchFrom(start), moves);
    InvOf(c, p, inn, w);
    if w.settledAt.Some? && !OutSettled(w, inn) {
      UnclaimedInTime(c, p, inn, w);
    }
  }
}
