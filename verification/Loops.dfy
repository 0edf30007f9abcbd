/** The watched jobs are instances of the retry loop: each of their steps is a step of the loop, or none. */
module Loops {
  import opened Types
  import opened Dal
  import opened Ledger
  import opened Protocol
  import opened Frames
  import opened Invariant
  import opened RetryLoop
  import opened Timed
  import opened Watching

  // ----- how the lists move -----

  ghost predicate ConfListMoved(s: State, s': State, a: Action, out: Tid)
    requires out in s.table
  {
    match a
    case ConfQuery(_) =>
      s.conf.ConfIdle? && !s'.conf.ConfIdle? && (ConfCovers(s'.conf, out) <==> s.table[out].status == Locked)
    case QueryError(_) => s.conf.ConfIdle? && s'.conf.ConfIdle?
    case ConfEnd => !s.conf.ConfIdle? && s'.conf.ConfIdle? && !ConfCovers(s.conf, out)
    case _ =>
      && !s.conf.ConfIdle? && !s'.conf.ConfIdle?
      && (if ClaimFault(s, a, true, out)
          then ConfCovers(s.conf, out) && !ConfCovers(s'.conf, out)
          else ConfCovers(s'.conf, out) == ConfCovers(s.conf, out))
      && (ClaimMarks(s, a, out) ==> ConfCovers(s.conf, out))
  }

  lemma ListedWhenQueried(s: State, rows: seq<Row>, q: Selection, t: Tid)
    requires Selects(rows, s.table, q, s.now) && t in s.table && s.table[t].tid == t
    ensures Listed(rows, t) <==> Matches(q, s.table[t], s.now)
  {
    if Matches(q, s.table[t], s.now) {
      assert s.table[t] in rows;
    }
  }

  lemma ConfListMoves(c: Config, s: State, a: Action, out: Tid)
    requires Inv(c, s) && ConfDistinct(s.conf) && OpenClaim(s, out) && s.table[out].preimage.Some?
    requires s.table[out].chainId in c.chains && s.table[out].chainId == out.chain
    requires Enabled(c, s, a) && Who(a) == ConfirmJob
    ensures out in s.table && ConfListMoved(s, Apply(c, s, a), a, out)
  {
    hide Enabled, Apply, TableOk, ChainOk, SentOk, MonitorsOk, SendOk, RefOk, RecOk, DistinctTids, Listed;
    ConfirmApplies(c, s, a);
    if a.ConfQuery? {
      ListedWhenQueried(s, a.rows, ConfirmableLocked, out);
    } else if s.conf.ConfNext? && s.conf.rows != [] {
      DistinctTail(s.conf.rows);
      assert ConfRowOk(c, s, s.conf.rows[0]);
    } else if s.conf.ConfNext? {
      EmptyList(out);
    } else if !s.conf.ConfIdle? {
      ConfRowMoves(c, s, a, out);
    }
  }

  lemma ConfRowMoves(c: Config, s: State, a: Action, out: Tid)
    requires ConfDistinct(s.conf) && out in s.table && EnabledConfirm(c, s, a) && Who(a) == ConfirmJob
    requires !s.conf.ConfIdle? && !s.conf.ConfNext?
    ensures ConfListMoved(s, ApplyConfirm(c, s, a), a, out)
  {
    hide DistinctTids, Listed, StatusSwapped, StatusSet, ConfirmedIn;
    DistinctHead(s.conf.x, s.conf.rest);
  }

  lemma EmptyList(t: Tid)
    ensures !Listed([], t)
  {
  }

  ghost predicate RefListMoved(s: State, s': State, a: Action, inn: Tid)
    requires inn in s.table
  {
    match a
    case RefQuery(_) =>
      s.refu.RefIdle? && !s'.refu.RefIdle? && (RefCovers(s'.refu, inn) <==> s.table[inn].status == Locked)
    case QueryError(_) => s.refu.RefIdle? && s'.refu.RefIdle?
    case RefEnd => !s.refu.RefIdle? && s'.refu.RefIdle? && !RefCovers(s.refu, inn)
    case _ =>
      && !s.refu.RefIdle? && !s'.refu.RefIdle?
      && (if RefundFault(s, a, true, inn)
          then RefCovers(s.refu, inn) && !RefCovers(s'.refu, inn)
          else RefCovers(s'.refu, inn) == RefCovers(s.refu, inn))
      && (RefundMarks(s, a, inn) ==> RefCovers(s.refu, inn))
  }

  /** The related row of an open IN row is there, unsettled, and on a configured chain. */
  ghost predicate RelatedOpen(c: Config, s: State, inn: Tid) {
    && inn in s.table && s.table[inn].relTid in s.table
    && s.table[s.table[inn].relTid].status != Confirmed
    && s.table[s.table[inn].relTid].chainId in c.chains
    && !SafeIs(s, s.table[inn].relTid, Settled)
  }

  lemma RefListMoves(c: Config, s: State, a: Action, inn: Tid)
    requires Inv(c, s) && RefDistinct(s.refu) && OpenIn(s, inn) && s.table[inn].timeLock < s.now
    requires s.table[inn].chainId in c.chains && s.table[inn].chainId == inn.chain && RelatedOpen(c, s, inn)
    requires Enabled(c, s, a) && Who(a) == RefundJob
    ensures inn in s.table && RefListMoved(s, Apply(c, s, a), a, inn)
  {
    hide Enabled, Apply, TableOk, ChainOk, SentOk, MonitorsOk, SendOk, ConfOk, RecOk, DistinctTids, Listed;
    RefundApplies(c, s, a);
    if a.RefQuery? {
      ListedWhenQueried(s, a.rows, RefundableIn, inn);
    } else if s.refu.RefNext? && s.refu.rows != [] {
      DistinctTail(s.refu.rows);
      assert RefRowOk(s, s.refu.rows[0]);
    } else if s.refu.RefNext? {
      EmptyList(inn);
    } else if !s.refu.RefIdle? {
      RefRowMoves(c, s, a, inn);
    }
  }

  lemma RefRowMoves(c: Config, s: State, a: Action, inn: Tid)
    requires RefDistinct(s.refu) && RefOk(c, s, s.refu) && EnabledRefund(c, s, a) && Who(a) == RefundJob
    requires RelatedOpen(c, s, inn) && !s.refu.RefIdle? && !s.refu.RefNext?
    ensures RefListMoved(s, ApplyRefund(c, s, a), a, inn)
  {
    hide DistinctTids, Listed, StatusSwapped, StatusSet;
    DistinctHead(s.refu.x, s.refu.rest);
    assert RefRowOk(s, s.refu.x);
  }

  ghost predicate RecListMoved(s: State, s': State, a: Action, q: Selection, t: Tid) {
    match a
    case RecQuery(rows) =>
      if s.reco.q == q then
        !InPass(s.reco, q) && InPass(s'.reco, q)
        && (t in s.table && Matches(q, s.table[t], s.now) ==> Listed(s'.reco.rows, t))
      else !InPass(s.reco, q) && !InPass(s'.reco, q)
    case RecRestore(ok) =>
      && (InPass(s.reco, q) <==> InPass(s'.reco, q))
      && (InPass(s.reco, q) ==>
            if RecHead(s, q, t) then Listed(s.reco.rows, t) && !Listed(s'.reco.rows, t)
            else Listed(s'.reco.rows, t) == Listed(s.reco.rows, t))
      && (RecHead(s, q, t) ==> InPass(s.reco, q))
    case RecEnd => !InPass(s'.reco, q) && (InPass(s.reco, q) ==> !Listed(s.reco.rows, t))
    case _ => !InPass(s.reco, q) && !InPass(s'.reco, q)
  }

  lemma RecListMoves(c: Config, s: State, a: Action, q: Selection, t: Tid)
    requires Inv(c, s) && RecDistinct(s.reco) && Enabled(c, s, a) && Who(a) == RecoverJob
    requires q == TimeoutPendingConfirm || q == TimeoutPendingRefund
    ensures RecListMoved(s, Apply(c, s, a), a, q, t)
  {
    hide Enabled, Apply, ChainOk, SentOk, MonitorsOk, SendOk, ConfOk, RefOk, RowOk, DistinctTids, Listed;
    RecoverApplies(c, s, a);
    if a.RecQuery? {
      if t in s.table {
        ListedWhenQueried(s, a.rows, s.reco.q, t);
      }
    } else if s.reco.RecRun? && s.reco.rows != [] {
      DistinctTail(s.reco.rows);
    } else {
      EmptyList(t);
    }
  }

  // ----- the claim loop -----

  /** The watched transfer can be claimed: open, its preimage stored, its lock far enough ahead for recovery. */
  ghost predicate ClaimOpen(c: Config, s: State, t: Tid) {
    && Inv(c, s) && Sorted(s) && OpenClaim(s, t) && s.table[t].preimage.Some?
    && s.table[t].chainId in c.chains && s.table[t].chainId == t.chain
    && s.table[t].timeLock > s.now + TIME_LOCK_SAFE_MARGIN
  }

  /** One step, seen from the claim loop over `t`. */
  ghost predicate ClaimMove(c: Config, b: Bounds, t: Tid, s: State, k: Side, s': State, k': Side, a: Action,
                            drop: bool) {
    && Enabled(c, s, a) && s' == Apply(c, s, a) && k' == ClaimSide(b, t, s, s', k, a, drop, true)
    && ClaimOpen(c, s, t) && Has(s'.chain, t, Pending)
  }

  lemma MinedClaimSettles(c: Config, s: State, a: Action, t: Tid)
    requires Inv(c, s) && Enabled(c, s, a) && MinesConfirm(a, t) && Has(s.chain, t, Pending)
    ensures Has(Apply(c, s, a).chain, t, Settled)
  {
    hide TableOk, ChainOk, MonitorsOk, SendOk, ConfOk, RefOk, RecOk;
    assert TxOk(c, s, a.tx);
  }

  lemma ClaimColumnsKept(c: Config, s: State, a: Action, t: Tid)
    requires Inv(c, s) && Enabled(c, s, a) && !a.Crash? && Who(a) != ConfirmJob && Who(a) != RecoverJob
    requires OpenClaim(s, t)
    ensures var s' := Apply(c, s, a);
            s'.conf == s.conf && s'.reco == s.reco && s.now <= s'.now && SameColumns(s, s', t)
  {
    hide Inv, Enabled, Apply;
    match Who(a) {
      case Environment => EnvironmentFrame(c, s, a);
      case Monitors => MonitorFrame(c, s, a); ClaimUnderMonitors(c, s, a, t);
      case SendJob => SendFrame(c, s, a); ClaimUnderSend(c, s, a, t);
      case RefundJob => RefundFrame(c, s, a); ClaimUnderRefund(c, s, a, t);
    }
  }

  lemma ClaimUnderOthers(c: Config, b: Bounds, t: Tid, s: State, k: Side, s': State, k': Side, a: Action, drop: bool)
    requires ClaimMove(c, b, t, s, k, s', k', a, drop)
    requires !a.Crash? && Who(a) != ConfirmJob && Who(a) != RecoverJob
    ensures s.now <= s'.now && ClaimLoop(s', k', t) == ClaimLoop(s, k, t).(now := s'.now)
  {
    hide Inv, Enabled, Apply, Sorted, OpenClaim, ConfCovers, Listed;
    ClaimColumnsKept(c, s, a, t);
    OpenIsPending(s, t);
    if MinesConfirm(a, t) {
      MinedClaimSettles(c, s, a, t);
    }
  }

  lemma OpenIsPending(s: State, t: Tid)
    requires OpenClaim(s, t)
    ensures Has(s.chain, t, Pending)
  {
  }

  ghost function ClaimKind(s: State, a: Action, drop: bool, t: Tid): JobKind {
    match a
    case ConfQuery(_) => JobQuery
    case QueryError(_) => JobFail
    case ConfEnd => JobEnd
    case _ => JobInner(ClaimFault(s, a, drop, t), ClaimSubmits(s, a, t), ClaimMarks(s, a, t))
  }

  lemma ClaimUnderConfirmJob(c: Config, b: Bounds, t: Tid, s: State, k: Side, s': State, k': Side, a: Action,
                             drop: bool)
    requires ClaimMove(c, b, t, s, k, s', k', a, drop) && Who(a) == ConfirmJob
    ensures JobStep(b, ClaimLoop(s, k, t), ClaimLoop(s', k', t), ClaimKind(s, a, drop, t))
  {
    hide Enabled, Apply, Inv, Sorted, OpenClaim, ConfCovers, Listed;
    ConfirmFrame(c, s, a);
    SortedParts(s);
    ConfListMoves(c, s, a, t);
    ClaimUnderConfirm(c, s, a, t);
    OpenPhase(s, t);
  }

  lemma SortedParts(s: State)
    requires Sorted(s)
    ensures ConfDistinct(s.conf) && RefDistinct(s.refu) && RecDistinct(s.reco)
  {
  }

  lemma OpenPhase(s: State, t: Tid)
    requires OpenClaim(s, t)
    ensures PhaseOf(s.table, t, ConfirmPending).Ready? <==> s.table[t].status == Locked
  {
  }

  ghost function RecoveryKind(s: State, a: Action, q: Selection, t: Tid): RecKind {
    match a
    case RecQuery(_) => if s.reco.q == q then RecoverQuery else RecoverElse
    case RecRestore(ok) => RecoverInner(RecHead(s, q, t), ok)
    case RecSkip => if s.reco.q == q then RecoverFail else RecoverElse
    case RecEnd => if InPass(s.reco, q) then RecoverEnd else RecoverElse
    case _ => RecoverElse
  }

  lemma ClaimUnderRecoverJob(c: Config, b: Bounds, t: Tid, s: State, k: Side, s': State, k': Side, a: Action,
                             drop: bool)
    requires ClaimMove(c, b, t, s, k, s', k', a, drop) && Who(a) == RecoverJob
    ensures RecStep(ClaimLoop(s, k, t), ClaimLoop(s', k', t), RecoveryKind(s, a, TimeoutPendingConfirm, t))
  {
    hide Enabled, Apply, Inv, Sorted, OpenClaim, ConfCovers, Listed;
    RecoverFrame(c, s, a);
    SortedParts(s);
    RecListMoves(c, s, a, TimeoutPendingConfirm, t);
    ClaimUnderRecover(c, s, a, t);
    OpenPhase(s, t);
  }

  /** A restart of the node, seen from the claim loop: both jobs wait again and one attempt counts as failed. */
  lemma ClaimUnderRestart(c: Config, b: Bounds, t: Tid, s: State, k: Side, s': State, k': Side, a: Action, drop: bool)
    requires ClaimMove(c, b, t, s, k, s', k', a, drop) && a.Crash?
    ensures ClaimLoop(s', k', t) == ClaimLoop(s, k, t).(job := Waiting(s.now), rec := Waiting(s.now),
                                                        faults := k.faults + 1)
  {
    hide Inv, Enabled, Apply, Sorted, ClaimOpen, ConfCovers, Listed;
    EnvironmentFrame(c, s, a);
  }

  /** Every step of any actor keeps the claim loop going while the transfer stays open. */
  lemma ClaimGoesOn(c: Config, b: Bounds, t: Tid, s: State, k: Side, s': State, k': Side, a: Action, drop: bool,
                    t0: Time)
    requires ClaimMove(c, b, t, s, k, s', k', a, drop)
    requires Goes(b, ClaimLoop(s, k, t), t0) && OnTime(b, ClaimLoop(s, k, t))
    ensures Goes(b, ClaimLoop(s', k', t), t0)
  {
    hide Enabled, Apply, Goes, OnTime, ClaimLoop, ClaimMove;
    match Who(a) {
      case ConfirmJob =>
        ClaimUnderConfirmJob(c, b, t, s, k, s', k', a, drop);
        JobStepGoes(b, ClaimLoop(s, k, t), ClaimLoop(s', k', t), ClaimKind(s, a, drop, t), t0);
      case RecoverJob =>
        ClaimUnderRecoverJob(c, b, t, s, k, s', k', a, drop);
        RecStepGoes(b, ClaimLoop(s, k, t), ClaimLoop(s', k', t), RecoveryKind(s, a, TimeoutPendingConfirm, t), t0);
      case _ =>
        LoopNow(s, k, t);
        if a.Crash? {
          ClaimUnderRestart(c, b, t, s, k, s', k', a, drop);
          RestartGoes(b, ClaimLoop(s, k, t), ClaimLoop(s', k', t), t0);
        } else {
          ClaimUnderOthers(c, b, t, s, k, s', k', a, drop);
          ClockGoes(b, ClaimLoop(s, k, t), ClaimLoop(s', k', t), t0);
        }
    }
  }

  lemma LoopNow(s: State, k: Side, t: Tid)
    ensures ClaimLoop(s, k, t).now == s.now && RefundLoop(s, k, t).now == s.now
    ensures ClaimLoop(s, k, t).faults == k.faults && RefundLoop(s, k, t).faults == k.faults
  {
  }

  // ----- the refund loop -----

  /** The watched IN transfer is open and its lock expired. */
  ghost predicate RefundOpen(c: Config, s: State, inn: Tid) {
    && Inv(c, s) && Sorted(s) && OpenIn(s, inn) && s.table[inn].timeLock < s.now
    && s.table[inn].chainId in c.chains && s.table[inn].chainId == inn.chain && RelatedOpen(c, s, inn)
    && s.chain[inn].timelock == Unix(s.table[inn].timeLock)
  }

  ghost predicate RefundMove(c: Config, b: Bounds, inn: Tid, s: State, k: Side, s': State, k': Side, a: Action,
                             drop: bool) {
    && Enabled(c, s, a) && s' == Apply(c, s, a) && k' == RefundSide(b, inn, s, s', k, a, drop, true)
    && RefundOpen(c, s, inn) && Has(s'.chain, inn, Pending)
  }

  lemma MinedRefundReturns(c: Config, s: State, a: Action, inn: Tid)
    requires Inv(c, s) && Enabled(c, s, a) && MinesRefund(a, inn) && Has(s.chain, inn, Pending)
    requires inn in s.table && s.chain[inn].timelock == Unix(s.table[inn].timeLock) && s.table[inn].timeLock < s.now
    ensures Has(Apply(c, s, a).chain, inn, Returned)
  {
    hide TableOk, ChainOk, MonitorsOk, SendOk, ConfOk, RefOk, RecOk;
    assert TxOk(c, s, a.tx);
  }

  lemma InColumnsKept(c: Config, s: State, a: Action, inn: Tid)
    requires Inv(c, s) && Enabled(c, s, a) && !a.Crash? && Who(a) != RefundJob && Who(a) != RecoverJob
    requires OpenIn(s, inn)
    ensures var s' := Apply(c, s, a);
            s'.refu == s.refu && s'.reco == s.reco && s.now <= s'.now && SameColumns(s, s', inn)
  {
    hide Inv, Enabled, Apply;
    match Who(a) {
      case Environment => EnvironmentFrame(c, s, a);
      case Monitors => MonitorFrame(c, s, a); InUnderMonitors(c, s, a, inn);
      case SendJob => SendFrame(c, s, a); InUnderSend(c, s, a, inn);
      case ConfirmJob => ConfirmFrame(c, s, a); InUnderConfirm(c, s, a, inn);
    }
  }

  lemma RefundUnderOthers(c: Config, b: Bounds, inn: Tid, s: State, k: Side, s': State, k': Side, a: Action,
                          drop: bool)
    requires RefundMove(c, b, inn, s, k, s', k', a, drop)
    requires !a.Crash? && Who(a) != RefundJob && Who(a) != RecoverJob
    ensures s.now <= s'.now && RefundLoop(s', k', inn) == RefundLoop(s, k, inn).(now := s'.now)
  {
    hide Inv, Enabled, Apply, Sorted, OpenIn, RefCovers, Listed, RelatedOpen;
    InColumnsKept(c, s, a, inn);
    InIsPending(s, inn);
    if MinesRefund(a, inn) {
      MinedRefundReturns(c, s, a, inn);
    }
  }

  lemma InIsPending(s: State, inn: Tid)
    requires OpenIn(s, inn)
    ensures Has(s.chain, inn, Pending)
  {
  }

  ghost function RefundKind(s: State, a: Action, drop: bool, inn: Tid): JobKind {
    match a
    case RefQuery(_) => JobQuery
    case QueryError(_) => JobFail
    case RefEnd => JobEnd
    case _ => JobInner(RefundFault(s, a, drop, inn), RefundSubmits(s, a, inn), RefundMarks(s, a, inn))
  }

  lemma RefundUnderRefundJob(c: Config, b: Bounds, inn: Tid, s: State, k: Side, s': State, k': Side, a: Action,
                             drop: bool)
    requires RefundMove(c, b, inn, s, k, s', k', a, drop) && Who(a) == RefundJob
    ensures JobStep(b, RefundLoop(s, k, inn), RefundLoop(s', k', inn), RefundKind(s, a, drop, inn))
  {
    hide Enabled, Apply, Inv, Sorted, OpenIn, RefCovers, Listed, RelatedOpen;
    RefundFrame(c, s, a);
    SortedParts(s);
    RefListMoves(c, s, a, inn);
    InUnderRefund(c, s, a, inn);
    OpenInPhase(s, inn);
  }

  lemma OpenInPhase(s: State, inn: Tid)
    requires OpenIn(s, inn)
    ensures PhaseOf(s.table, inn, RefundPending).Ready? <==> s.table[inn].status == Locked
  {
  }

  lemma RefundUnderRecoverJob(c: Config, b: Bounds, inn: Tid, s: State, k: Side, s': State, k': Side, a: Action,
                              drop: bool)
    requires RefundMove(c, b, inn, s, k, s', k', a, drop) && Who(a) == RecoverJob
    ensures RecStep(RefundLoop(s, k, inn), RefundLoop(s', k', inn), RecoveryKind(s, a, TimeoutPendingRefund, inn))
  {
    hide Enabled, Apply, Inv, Sorted, OpenIn, RefCovers, Listed, RelatedOpen;
    RecoverFrame(c, s, a);
    SortedParts(s);
    RecListMoves(c, s, a, TimeoutPendingRefund, inn);
    InUnderRecover(c, s, a, inn);
    OpenInPhase(s, inn);
  }

  lemma RefundUnderRestart(c: Config, b: Bounds, inn: Tid, s: State, k: Side, s': State, k': Side, a: Action,
                           drop: bool)
    requires RefundMove(c, b, inn, s, k, s', k', a, drop) && a.Crash?
    ensures RefundLoop(s', k', inn) == RefundLoop(s, k, inn).(job := Waiting(s.now), rec := Waiting(s.now),
                                                              faults := k.faults + 1)
  {
    hide Inv, Enabled, Apply, Sorted, RefundOpen, RefCovers, Listed;
    EnvironmentFrame(c, s, a);
  }

  /** Every step of any actor keeps the refund loop going while the IN transfer stays open. */
  lemma RefundGoesOn(c: Config, b: Bounds, inn: Tid, s: State, k: Side, s': State, k': Side, a: Action, drop: bool,
                     t0: Time)
    requires RefundMove(c, b, inn, s, k, s', k', a, drop)
    requires Goes(b, RefundLoop(s, k, inn), t0) && OnTime(b, RefundLoop(s, k, inn))
    ensures Goes(b, RefundLoop(s', k', inn), t0)
  {
    hide Enabled, Apply, Goes, OnTime, RefundLoop, RefundMove;
    match Who(a) {
      case RefundJob =>
        RefundUnderRefundJob(c, b, inn, s, k, s', k', a, drop);
        JobStepGoes(b, RefundLoop(s, k, inn), RefundLoop(s', k', inn), RefundKind(s, a, drop, inn), t0);
      case RecoverJob =>
        RefundUnderRecoverJob(c, b, inn, s, k, s', k', a, drop);
        RecStepGoes(b, RefundLoop(s, k, inn), RefundLoop(s', k', inn), RecoveryKind(s, a, TimeoutPendingRefund, inn),
                    t0);
      case _ =>
        LoopNow(s, k, inn);
        if a.Crash? {
          RefundUnderRestart(c, b, inn, s, k, s', k', a, drop);
          RestartGoes(b, RefundLoop(s, k, inn), RefundLoop(s', k', inn), t0);
        } else {
          RefundUnderOthers(c, b, inn, s, k, s', k', a, drop);
          ClockGoes(b, RefundLoop(s, k, inn), RefundLoop(s', k', inn), t0);
        }
    }
  }
}
