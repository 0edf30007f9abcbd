/** Facts about a watched run that hold whatever its timing, and how each actor moves the two watched rows. */
module Watching {
  import opened Types
  import opened TimeLock
  import opened Dal
  import opened Ledger
  import opened Protocol
  import opened Frames
  import opened Invariant
  import opened Preserve
  import opened Safety
  import opened RetryLoop
  import opened Timed

  // ----- lists hold an id once, stamps lie in the past, refunds come late -----

  ghost predicate ConfDistinct(pc: ConfPc) {
    match pc
    case ConfIdle => true
    case ConfNext(rows) => DistinctTids(rows)
    case ConfMarking(x, rest) => DistinctTids([x] + rest)
    case ConfCalling(x, rest) => DistinctTids([x] + rest)
    case ConfReturned(x, rest) => DistinctTids([x] + rest)
    case ConfSettled(x, rest) => DistinctTids([x] + rest)
  }

  ghost predicate RefDistinct(pc: RefPc) {
    match pc
    case RefIdle => true
    case RefNext(rows) => DistinctTids(rows)
    case RefMarking(x, rest) => DistinctTids([x] + rest)
    case RefRelating(x, rest) => DistinctTids([x] + rest)
    case RefReadingOut(x, rest, _) => DistinctTids([x] + rest)
    case RefConfirming(x, rest, _) => DistinctTids([x] + rest)
    case RefCalling(x, rest) => DistinctTids([x] + rest)
    case RefReturned(x, rest) => DistinctTids([x] + rest)
  }

  ghost predicate RecDistinct(pc: RecPc) {
    pc.RecRun? ==> DistinctTids(pc.rows)
  }

  ghost predicate StampsPast(s: State) {
    forall t :: t in s.table ==> s.table[t].updateTs <= s.now
  }

  ghost predicate ReturnedLate(s: State) {
    forall t :: t in s.chain && s.chain[t].status == Returned ==> s.chain[t].timelock <= Unix(s.now)
  }

  ghost predicate Sorted(s: State) {
    ConfDistinct(s.conf) && RefDistinct(s.refu) && RecDistinct(s.reco) && StampsPast(s) && ReturnedLate(s)
  }

  lemma DistinctTail(rows: seq<Row>)
    requires rows != [] && DistinctTids(rows)
    ensures DistinctTids([rows[0]] + rows[1..]) && DistinctTids(rows[1..])
    ensures !Listed(rows[1..], rows[0].tid)
    ensures forall t :: Listed(rows, t) <==> rows[0].tid == t || Listed(rows[1..], t)
  {
    assert [rows[0]] + rows[1..] == rows;
    forall t
      ensures Listed(rows, t) <==> rows[0].tid == t || Listed(rows[1..], t)
    {
      if Listed(rows, t) {
        var x :| x in rows && x.tid == t;
        assert x == rows[0] || x in rows[1..];
      }
      if Listed(rows[1..], t) {
        var x :| x in rows[1..] && x.tid == t;
        assert x in rows;
      }
    }
  }

  lemma DistinctHead(x: Row, rest: seq<Row>)
    requires DistinctTids([x] + rest)
    ensures DistinctTids(rest) && !Listed(rest, x.tid)
  {
    DistinctTail([x] + rest);
    assert ([x] + rest)[1..] == rest;
  }

  lemma ChainStepLate(c: Config, s: State, a: Action)
    requires ReturnedLate(s) && Enabled(c, s, a) && Who(a) == Environment
    ensures ReturnedLate(Apply(c, s, a))
  {
    hide Enabled, Apply;
    EnvironmentApplies(c, s, a);
  }

  lemma EnvironmentApplies(c: Config, s: State, a: Action)
    requires Enabled(c, s, a) && Who(a) == Environment
    ensures EnabledEnvironment(c, s, a) && Apply(c, s, a) == ApplyEnvironment(c, s, a)
  {
    hide EnabledEnvironment, ApplyEnvironment;
  }

  lemma MonitorStamps(c: Config, s: State, a: Action)
    requires StampsPast(s) && Enabled(c, s, a) && Who(a) == Monitors
    ensures StampsPast(Apply(c, s, a))
  {
    hide Enabled, Apply, QuoteFor, InTimeLock, OutRowFor, InRowFor, OutEvent;
    MonitorWrites(c, s, a);
  }

  lemma SendStamps(c: Config, s: State, a: Action)
    requires StampsPast(s) && Enabled(c, s, a) && Who(a) == SendJob
    ensures StampsPast(Apply(c, s, a))
  {
    hide Enabled, Apply, Selects, TxInFor, ReadSafe, Pooled;
    SendApplies(c, s, a);
  }

  lemma ConfirmSorted(c: Config, s: State, a: Action)
    requires Sorted(s) && Enabled(c, s, a) && Who(a) == ConfirmJob
    ensures StampsPast(Apply(c, s, a)) && ConfDistinct(Apply(c, s, a).conf)
  {
    hide Enabled, Apply, DistinctTids, Listed;
    ConfirmApplies(c, s, a);
    if s.conf.ConfNext? && s.conf.rows != [] {
      DistinctTail(s.conf.rows);
    } else if !s.conf.ConfIdle? && !s.conf.ConfNext? {
      DistinctHead(s.conf.x, s.conf.rest);
    }
  }

  lemma RefundSorted(c: Config, s: State, a: Action)
    requires Sorted(s) && Enabled(c, s, a) && Who(a) == RefundJob
    ensures StampsPast(Apply(c, s, a)) && RefDistinct(Apply(c, s, a).refu)
  {
    hide Enabled, Apply, DistinctTids, Listed;
    RefundApplies(c, s, a);
    if s.refu.RefNext? && s.refu.rows != [] {
      DistinctTail(s.refu.rows);
    } else if !s.refu.RefIdle? && !s.refu.RefNext? {
      DistinctHead(s.refu.x, s.refu.rest);
    }
  }

  lemma RecoverSorted(c: Config, s: State, a: Action)
    requires Sorted(s) && Enabled(c, s, a) && Who(a) == RecoverJob
    ensures StampsPast(Apply(c, s, a)) && RecDistinct(Apply(c, s, a).reco)
  {
    hide Enabled, Apply, DistinctTids, Listed;
    RecoverApplies(c, s, a);
    if s.reco.RecRun? && s.reco.rows != [] {
      DistinctTail(s.reco.rows);
    }
  }

  lemma StepSorted(c: Config, s: State, a: Action)
    requires Sorted(s) && Enabled(c, s, a)
    ensures Sorted(Apply(c, s, a))
  {
    hide Enabled, Apply, ConfDistinct, RefDistinct, DistinctTids;
    match Who(a) {
      case Environment => EnvironmentFrame(c, s, a); ChainStepLate(c, s, a); ResetSorted();
      case Monitors => MonitorFrame(c, s, a); MonitorStamps(c, s, a);
      case SendJob => SendFrame(c, s, a); SendStamps(c, s, a);
      case ConfirmJob => ConfirmFrame(c, s, a); ConfirmSorted(c, s, a);
      case RefundJob => RefundFrame(c, s, a); RefundSorted(c, s, a);
      case RecoverJob => RecoverFrame(c, s, a); RecoverSorted(c, s, a);
    }
  }

  lemma {:induction false} RunSorted(c: Config, s: State, acts: seq<Action>)
    requires Sorted(s) && Legal(c, s, acts)
    ensures Sorted(Exec(c, s, acts))
    decreases |acts|
  {
    hide Sorted, Enabled, Apply;
    if acts != [] {
      StepSorted(c, s, acts[0]);
      RunSorted(c, Apply(c, s, acts[0]), acts[1..]);
    }
  }

  lemma ReachableSorted(c: Config, s: State)
    requires Reachable(c, s)
    ensures Sorted(s)
  {
    hide Enabled, Apply;
    var now: Time, acts: seq<Action> :| 0 <= now && Legal(c, Init(now), acts) && Exec(c, Init(now), acts) == s;
    RunSorted(c, Init(now), acts);
  }

  lemma ResetSorted()
    ensures ConfDistinct(ConfIdle) && RefDistinct(RefIdle)
  {
  }

  // ----- the watched pair -----

  /** What stands behind an IN row of the relay. */
  lemma PairFacts(c: Config, s: State, inn: Tid)
    requires Inv(c, s) && inn in s.table && inn.sender == c.me
    ensures s.table[inn].kind == TransferIn && s.table[inn].tid == inn
    ensures var out := s.table[inn].relTid;
            && out in s.table && out in s.chain && s.table[out].kind == TransferOut && s.table[out].tid == out
            && s.table[out].relTid == inn && s.table[out].chainId in c.chains && s.table[out].chainId == out.chain
            && Visible(s.chain, out) && 0 <= s.table[inn].timeLock + TWO64 * SECOND
            && Unix(s.table[inn].timeLock) + LOCK_GAP <= s.chain[out].timelock
            && s.table[out].timeLock == s.chain[out].timelock * SECOND
    ensures inn in s.chain ==> s.chain[inn].timelock == Unix(s.table[inn].timeLock)
  {
    hide SendOk, ConfOk, RefOk, RecOk, TxOk, NoteOk, QuoteFor, InTimeLock;
    SenderOfIn(c, s, inn);
    RowFacts(c, s, inn);
    PairRows(c, s, inn);
    LockInRange(c, s, inn);
    var ts := HandlingTime(c, s, inn);
    AcceptedLock(s.chain[s.table[inn].relTid].timelock, ts);
    LockNotTooEarly(s.chain[s.table[inn].relTid].timelock, ts);
    if inn in s.chain {
      assert DepositOk(c, s, inn, s.chain[inn]);
    }
  }

  lemma LockNotTooEarly(srcLock: int, ts: Time)
    requires 0 <= ts && InTimeLock(srcLock, ts).Some?
    ensures InTimeLock(srcLock, ts).value >= -TWO63
  {
  }

  lemma PairRows(c: Config, s: State, inn: Tid)
    requires TableOk(c, s) && inn in s.table && s.table[inn].kind == TransferIn
    ensures var out := s.table[inn].relTid;
            && out in s.table && out in s.chain && s.table[out].kind == TransferOut && s.table[out].tid == out
            && s.table[out].relTid == inn && s.table[out].chainId in c.chains && s.table[out].chainId == out.chain
            && Visible(s.chain, out) && s.table[out].timeLock == WrapInt64(s.chain[out].timelock) * SECOND
  {
    hide QuoteFor, LockDerived, WrapInt64;
    assert RowOk(c, s, s.table[inn]);
    assert RowOk(c, s, s.table[s.table[inn].relTid]);
  }

  /** Two states agree on what the loops see of row `t`. */
  ghost predicate SameColumns(s: State, s': State, t: Tid) {
    && t in s.table && t in s'.table
    && s'.table[t].status == s.table[t].status && s'.table[t].updateTs == s.table[t].updateTs
  }

  /** The transfer `t`, OUT or IN, can be claimed: pending on chain, its row unfinished, its lock still ahead. */
  ghost predicate OpenClaim(s: State, t: Tid) {
    && t in s.table && s.table[t].tid == t && s.now < s.table[t].timeLock
    && Has(s.chain, t, Pending) && SafeIs(s, t, Pending)
    && (s.table[t].status == Locked || s.table[t].status == ConfirmPending)
  }

  ghost predicate ClaimMarks(s: State, a: Action, out: Tid) {
    a.ConfMark? && s.conf.ConfMarking? && s.conf.x.tid == out
  }

  ghost predicate RefundMarks(s: State, a: Action, inn: Tid) {
    a.RefMark? && s.refu.RefMarking? && s.refu.x.tid == inn
  }

  lemma ClaimIsOpen(c: Config, s: State, t: Tid)
    requires Inv(c, s) && t in s.table && Has(s.chain, t, Pending)
    requires !Unsent(s.table[t].status) && s.now < s.table[t].timeLock
    ensures OpenClaim(s, t)
  {
    hide SendOk, ConfOk, RefOk, RecOk, TxOk, NoteOk, QuoteFor, LockDerived, OwnDepositOk;
    RowFacts(c, s, t);
    assert RowOk(c, s, s.table[t]);
    assert DepositOk(c, s, t, s.chain[t]);
  }

  lemma ClaimUnderMonitors(c: Config, s: State, a: Action, out: Tid)
    requires Enabled(c, s, a) && Who(a) == Monitors && OpenClaim(s, out)
    ensures SameColumns(s, Apply(c, s, a), out)
  {
    hide Enabled, Apply, QuoteFor, InTimeLock, OutRowFor, InRowFor, OutEvent;
    MonitorWrites(c, s, a);
  }

  lemma ClaimUnderSend(c: Config, s: State, a: Action, out: Tid)
    requires Inv(c, s) && Enabled(c, s, a) && Who(a) == SendJob && OpenClaim(s, out)
    ensures SameColumns(s, Apply(c, s, a), out)
  {
    hide Enabled, Apply, Selects, TableOk, ChainOk, SentOk, MonitorsOk, ConfOk, RefOk, RecOk;
    SendApplies(c, s, a);
  }

  lemma ClaimUnderRefund(c: Config, s: State, a: Action, out: Tid)
    requires Inv(c, s) && Enabled(c, s, a) && Who(a) == RefundJob && OpenClaim(s, out)
    ensures SameColumns(s, Apply(c, s, a), out)
  {
    hide Enabled, Apply, Selects, TableOk, ChainOk, SentOk, MonitorsOk, ConfOk, SendOk, RecOk;
    RefundApplies(c, s, a);
    if a.RefMark? {
      assert RefRowOk(s, s.refu.x);
    } else if a.RefSetReturned? {
      assert RefRowOk(s, s.refu.x);
    }
  }

  lemma ClaimUnderConfirm(c: Config, s: State, a: Action, out: Tid)
    requires Inv(c, s) && Enabled(c, s, a) && Who(a) == ConfirmJob && OpenClaim(s, out)
    ensures var s' := Apply(c, s, a);
            || SameColumns(s, s', out)
            || (ClaimMarks(s, a, out) && out in s'.table && s'.table[out].status == ConfirmPending
                && s'.table[out].updateTs == s.now)
  {
    hide Enabled, Apply, Selects, TableOk, ChainOk, SentOk, MonitorsOk, SendOk, RefOk, RecOk;
    ConfirmApplies(c, s, a);
  }

  lemma ClaimUnderRecover(c: Config, s: State, a: Action, out: Tid)
    requires Inv(c, s) && Enabled(c, s, a) && Who(a) == RecoverJob && OpenClaim(s, out)
    ensures var s' := Apply(c, s, a);
            && out in s'.table
            && (if a == RecRestore(true) && RecHead(s, TimeoutPendingConfirm, out) then s'.table[out].status == Locked
                else SameColumns(s, s', out))
  {
    hide Enabled, Apply, Selects, TableOk, ChainOk, SentOk, MonitorsOk, ConfOk, SendOk, RefOk;
    RecoverApplies(c, s, a);
    if a.RecRestore? {
      assert RecRowOk(s, s.reco.q, s.reco.rows[0]);
    }
  }

  /** The IN transfer `inn` is open: locked, seen, pending, and its OUT transfer not settled. */
  ghost predicate OpenIn(s: State, inn: Tid) {
    && inn in s.table && s.table[inn].kind == TransferIn && s.table[inn].tid == inn
    && Has(s.chain, inn, Pending) && SafeIs(s, inn, Pending) && !Has(s.chain, s.table[inn].relTid, Settled)
    && (s.table[inn].status == Locked || s.table[inn].status == RefundPending)
  }

  lemma InIsOpen(c: Config, s: State, inn: Tid)
    requires Inv(c, s) && inn in s.table && s.table[inn].kind == TransferIn && Has(s.chain, inn, Pending)
    requires !Unsent(s.table[inn].status) && !Has(s.chain, s.table[inn].relTid, Settled)
    ensures OpenIn(s, inn)
  {
    hide SendOk, ConfOk, RefOk, RecOk, TxOk, NoteOk, QuoteFor, LockDerived, OwnDepositOk;
    assert RowOk(c, s, s.table[inn]);
    assert DepositOk(c, s, inn, s.chain[inn]);
  }

  lemma InUnderMonitors(c: Config, s: State, a: Action, inn: Tid)
    requires Enabled(c, s, a) && Who(a) == Monitors && OpenIn(s, inn)
    ensures SameColumns(s, Apply(c, s, a), inn)
  {
    hide Enabled, Apply, QuoteFor, InTimeLock, OutRowFor, InRowFor, OutEvent;
    MonitorWrites(c, s, a);
  }

  lemma InUnderSend(c: Config, s: State, a: Action, inn: Tid)
    requires Enabled(c, s, a) && Who(a) == SendJob && OpenIn(s, inn)
    ensures SameColumns(s, Apply(c, s, a), inn)
  {
    hide Enabled, Apply, Selects, TxInFor, ReadSafe, Pooled;
    SendApplies(c, s, a);
  }

  lemma InUnderConfirm(c: Config, s: State, a: Action, inn: Tid)
    requires Inv(c, s) && Enabled(c, s, a) && Who(a) == ConfirmJob && OpenIn(s, inn)
    ensures SameColumns(s, Apply(c, s, a), inn)
  {
    hide Enabled, Apply, Selects, TableOk, ChainOk, SentOk, MonitorsOk, SendOk, RefOk, RecOk;
    ConfirmApplies(c, s, a);
  }

  lemma InUnderRefund(c: Config, s: State, a: Action, inn: Tid)
    requires Inv(c, s) && Enabled(c, s, a) && Who(a) == RefundJob && OpenIn(s, inn)
    ensures var s' := Apply(c, s, a);
            || SameColumns(s, s', inn)
            || (RefundMarks(s, a, inn) && inn in s'.table && s'.table[inn].status == RefundPending
                && s'.table[inn].updateTs == s.now)
  {
    hide Enabled, Apply, Selects, TableOk, ChainOk, SentOk, MonitorsOk, SendOk, ConfOk, RecOk;
    RefundApplies(c, s, a);
  }

  lemma InUnderRecover(c: Config, s: State, a: Action, inn: Tid)
    requires Inv(c, s) && Enabled(c, s, a) && Who(a) == RecoverJob && OpenIn(s, inn)
    ensures var s' := Apply(c, s, a);
            && inn in s'.table
            && (if a == RecRestore(true) && RecHead(s, TimeoutPendingRefund, inn) then s'.table[inn].status == Locked
                else SameColumns(s, s', inn))
  {
    hide Enabled, Apply, Selects, TableOk, ChainOk, SentOk, MonitorsOk, ConfOk, SendOk, RefOk;
    RecoverApplies(c, s, a);
  }
}
