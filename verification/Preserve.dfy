/** Every action keeps the invariant, and every action only evolves the state. */
module Preserve {
  import opened Types
  import opened TimeLock
  import opened Dal
  import opened Ledger
  import opened Protocol
  import opened Invariant

  ghost predicate Kept(c: Config, s: State, s': State) {
    Inv(c, s') && Evolves(s, s')
  }

  // ----- assembling the parts -----

  /** Deposits stay backed while the table only grows and the chain stands still. */
  lemma ChainFrame(c: Config, s: State, s': State)
    requires ChainOk(c, s) && s'.chain == s.chain && TableGrows(s.table, s'.table)
    ensures ChainOk(c, s')
  {
  }

  /** At most one row differs, and it is in order. */
  lemma OneRow(c: Config, s: State, s': State, t: Tid)
    requires TableOk(c, s) && Evolves(s, s') && ChainOk(c, s) && ChainOk(c, s')
    requires forall u :: u in s'.table && u != t ==> u in s.table && s'.table[u] == s.table[u]
    requires t in s'.table ==> s'.table[t].tid == t && RowOk(c, s', s'.table[t])
    ensures TableOk(c, s')
  {
    hide RowOk, ChainOk, Evolves;
    forall u | u in s'.table && u != t
      ensures RowOk(c, s', s'.table[u])
    {
      RowStable(c, s, s', s.table[u]);
    }
  }

  lemma SameRows(c: Config, s: State, s': State)
    requires TableOk(c, s) && Evolves(s, s') && ChainOk(c, s) && ChainOk(c, s') && s'.table == s.table
    ensures TableOk(c, s')
  {
    hide RowOk, ChainOk, Evolves;
    forall u | u in s'.table
      ensures RowOk(c, s', s'.table[u])
    {
      RowStable(c, s, s', s.table[u]);
    }
  }

  /** What a step leaves alone except for the table, the monitors and the jobs. */
  ghost predicate SameWorld(s: State, s': State) {
    s'.now == s.now && s'.chain == s.chain && s'.sent == s.sent
  }

  ghost predicate SameMonitors(s: State, s': State) {
    s'.notes == s.notes && s'.revealing == s.revealing
  }

  ghost predicate OtherRowsSame(s: State, s': State, t: Tid) {
    forall u :: u in s'.table && u != t ==> u in s.table && s'.table[u] == s.table[u]
  }

  /** Each job either stands still or is at a point that is in order. */
  ghost predicate JobsMoved(c: Config, s: State, s': State) {
    && (s'.send == s.send || SendOk(s', s'.send))
    && (s'.conf == s.conf || ConfOk(c, s', s'.conf))
    && (s'.refu == s.refu || RefOk(c, s', s'.refu))
    && (s'.reco == s.reco || RecOk(s', s'.reco))
  }

  /** A job's step that may rewrite one row. */
  lemma RowStep(c: Config, s: State, s': State, t: Tid)
    requires Inv(c, s) && SameWorld(s, s') && SameMonitors(s, s') && JobsMoved(c, s, s')
    requires TableGrows(s.table, s'.table) && OtherRowsSame(s, s', t)
    requires t in s'.table ==> s'.table[t].tid == t && RowOk(c, s', s'.table[t])
    ensures Kept(c, s, s')
  {
    hide RowOk, TxOk, DepositOk, NoteOk, SendOk, ConfOk, RefOk, RecOk;
    ChainFrame(c, s, s');
    OneRow(c, s, s', t);
    SentStable(c, s, s');
    MonitorsStable(c, s, s');
    JobsStable(c, s, s');
  }

  /** A job's step that writes nothing shared. */
  lemma PcStep(c: Config, s: State, s': State)
    requires Inv(c, s) && SameWorld(s, s') && s'.table == s.table && SameMonitors(s, s') && JobsMoved(c, s, s')
    ensures Kept(c, s, s')
  {
    hide RowOk, TxOk, DepositOk, NoteOk, SendOk, ConfOk, RefOk, RecOk;
    ChainFrame(c, s, s');
    SameRows(c, s, s');
    SentStable(c, s, s');
    MonitorsStable(c, s, s');
    JobsStable(c, s, s');
  }

  /** A job's step that may hand over one transaction. */
  lemma SubmitStep(c: Config, s: State, s': State, tx: Tx)
    requires Inv(c, s) && s'.now == s.now && s'.chain == s.chain && s'.table == s.table
    requires s.sent <= s'.sent <= s.sent + {tx} && TxOk(c, s, tx)
    requires SameMonitors(s, s') && JobsMoved(c, s, s')
    ensures Kept(c, s, s')
  {
    hide RowOk, TxOk, DepositOk, NoteOk, SendOk, ConfOk, RefOk, RecOk;
    ChainFrame(c, s, s');
    SameRows(c, s, s');
    TxStable(c, s, s', tx);
    SentStable(c, s, s');
    MonitorsStable(c, s, s');
    JobsStable(c, s, s');
  }

  /** A step of the chain or the clock. */
  lemma ChainStep(c: Config, s: State, s': State)
    requires Inv(c, s) && s' == s.(now := s'.now, chain := s'.chain)
    requires s.now <= s'.now && LedgerGrows(s.chain, s'.chain) && ChainOk(c, s')
    ensures Kept(c, s, s')
  {
    hide RowOk, TxOk, DepositOk, NoteOk, SendOk, ConfOk, RefOk, RecOk, LedgerGrows;
    SameRows(c, s, s');
    SentStable(c, s, s');
    MonitorsStable(c, s, s');
    JobsStable(c, s, s');
  }

  /** A monitor's step that may rewrite or insert one row. */
  lemma MonitorStep(c: Config, s: State, s': State, t: Tid)
    requires Inv(c, s) && s' == s.(table := s'.table, notes := s'.notes, revealing := s'.revealing)
    requires TableGrows(s.table, s'.table) && OtherRowsSame(s, s', t)
    requires t in s'.table ==> s'.table[t].tid == t && RowOk(c, s', s'.table[t])
    requires forall n :: n in s'.notes ==> n in s.notes || NoteOk(c, s', n)
    requires forall u :: u in s'.revealing ==> u in s.revealing || SafeIs(s', u, Settled)
    ensures Kept(c, s, s')
  {
    hide RowOk, TxOk, DepositOk, NoteOk, SendOk, ConfOk, RefOk, RecOk, SafeIs;
    ChainFrame(c, s, s');
    OneRow(c, s, s', t);
    SentStable(c, s, s');
    MonitorsStable(c, s, s');
    JobsStable(c, s, s');
  }

  // ----- environment -----

  /** An IN row's lock, in whole seconds, lies at least eight hours before its source and fits the contract's uint64. */
  lemma LockInRange(c: Config, s: State, t: Tid)
    requires TableOk(c, s) && ChainOk(c, s) && t in s.table && s.table[t].kind == TransferIn
    ensures Unix(s.table[t].timeLock) < TWO63
    ensures s.table[t].relTid in s.chain
    ensures Unix(s.table[t].timeLock) + LOCK_GAP <= s.chain[s.table[t].relTid].timelock
  {
    var r := s.table[t];
    assert RowOk(c, s, r);
    var d := s.chain[r.relTid];
    assert DepositOk(c, s, r.relTid, d);
    var ts: Time :| 0 <= ts <= r.createTs && InTimeLock(d.timelock, ts) == Some(r.timeLock);
    LockGap(d.timelock, ts);
    AcceptedLock(d.timelock, ts);
  }

  /** A source lock of 2^63 or more reads as negative and is rejected. */
  lemma AcceptedLock(srcLock: int, ts: Time)
    requires 0 <= srcLock < TWO64 && 0 <= ts && InTimeLock(srcLock, ts).Some?
    ensures srcLock < TWO63
  {
  }

  lemma MineInKeeps(c: Config, s: State, tx: Tx)
    requires Inv(c, s) && tx in s.sent && tx.TxIn?
    ensures Kept(c, s, s.(chain := Executed(c, s, tx)))
  {
    hide RowOk, SendOk, ConfOk, RefOk, RecOk, MonitorsOk, Kept;
    var s' := s.(chain := Executed(c, s, tx));
    assert TxOk(c, s, tx);
    var t := Tid(c.me, tx.receiver, tx.lock, tx.chain);
    LockInRange(c, s, t);
    forall u | u in s'.chain
      ensures DepositOk(c, s', u, s'.chain[u])
    {
      if u in s.chain {
        assert s'.chain[u] == s.chain[u] && DepositOk(c, s, u, s.chain[u]);
      }
    }
    ChainStep(c, s, s');
  }

  lemma SettleKeeps(c: Config, s: State, t: Tid, p: Preimage)
    requires Inv(c, s)
    ensures Kept(c, s, s.(chain := Settle(s.chain, c.hash, t, p)))
  {
    hide RowOk, TxOk, SendOk, ConfOk, RefOk, RecOk, MonitorsOk, Kept;
    var s' := s.(chain := Settle(s.chain, c.hash, t, p));
    assert t in s.chain ==> DepositOk(c, s, t, s.chain[t]);
    ChainStep(c, s, s');
  }

  lemma ReturnKeeps(c: Config, s: State, t: Tid)
    requires Inv(c, s)
    ensures Kept(c, s, s.(chain := Return(s.chain, t, Unix(s.now))))
  {
    hide RowOk, TxOk, SendOk, ConfOk, RefOk, RecOk, MonitorsOk, Kept;
    var s' := s.(chain := Return(s.chain, t, Unix(s.now)));
    assert t in s.chain ==> DepositOk(c, s, t, s.chain[t]);
    ChainStep(c, s, s');
  }

  lemma MineKeeps(c: Config, s: State, tx: Tx)
    requires Inv(c, s) && tx in s.sent
    ensures Kept(c, s, s.(chain := Executed(c, s, tx)))
  {
    hide Inv, Kept;
    match tx {
      case TxIn(_, _, _, _, _, _, _, _) => MineInKeeps(c, s, tx);
      case TxConfirm(chain, t, p) =>
        if t.chain == chain { SettleKeeps(c, s, t, p); } else { StutterKeeps(c, s); }
      case TxRefund(chain, t) =>
        if t.chain == chain { ReturnKeeps(c, s, t); } else { StutterKeeps(c, s); }
    }
  }

  lemma StutterKeeps(c: Config, s: State)
    requires Inv(c, s)
    ensures Kept(c, s, s)
  {
    PcStep(c, s, s);
  }

  lemma UserLockKeeps(c: Config, s: State, t: Tid, origin: Origin, token: Token, amount: int, timelock: int)
    requires Inv(c, s) && t.sender != c.me && timelock < TWO64 && CanLock(s.chain, t, amount, timelock, Unix(s.now))
    ensures Kept(c, s, s.(chain := Lock(s.chain, t, origin, token, amount, timelock, Unix(s.now))))
  {
    hide RowOk, TxOk, SendOk, ConfOk, RefOk, RecOk, MonitorsOk, Kept, OwnDepositOk;
    var s' := s.(chain := Lock(s.chain, t, origin, token, amount, timelock, Unix(s.now)));
    forall u | u in s'.chain
      ensures DepositOk(c, s', u, s'.chain[u])
    {
      if u in s.chain {
        OwnDepositFrame(s, s', u, s.chain[u]);
        assert s'.chain[u] == s.chain[u] && DepositOk(c, s, u, s.chain[u]);
      }
    }
    ChainStep(c, s, s');
  }

  lemma OwnDepositFrame(s: State, s': State, t: Tid, d: Deposit)
    requires s'.table == s.table
    ensures OwnDepositOk(s, t, d) == OwnDepositOk(s', t, d)
  {
  }

  lemma TickKeeps(c: Config, s: State)
    requires Inv(c, s)
    ensures Kept(c, s, s.(now := s.now + 1))
  {
    hide RowOk, TxOk, SendOk, ConfOk, RefOk, RecOk, MonitorsOk, Kept;
    ChainStep(c, s, s.(now := s.now + 1));
  }

  lemma BuryKeeps(c: Config, s: State, t: Tid, to: ChainStatus)
    requires Inv(c, s) && t in s.chain && Precedes(s.chain[t].safe, to) && Precedes(to, s.chain[t].status)
    ensures Kept(c, s, s.(chain := s.chain[t := s.chain[t].(safe := to)]))
  {
    hide RowOk, TxOk, SendOk, ConfOk, RefOk, RecOk, MonitorsOk, Kept;
    assert DepositOk(c, s, t, s.chain[t]);
    ChainStep(c, s, s.(chain := s.chain[t := s.chain[t].(safe := to)]));
  }

  lemma CrashKeeps(c: Config, s: State, s': State)
    requires Inv(c, s)
    requires s' == s.(notes := {}, revealing := {}, send := SendIdle, conf := ConfIdle, refu := RefIdle,
                      reco := RecReady(TimeoutPendingIn))
    ensures Kept(c, s, s')
  {
    hide RowOk, TxOk, DepositOk, NoteOk;
    ChainFrame(c, s, s');
    SameRows(c, s, s');
    SentStable(c, s, s');
  }

  lemma EnvironmentKeeps(c: Config, s: State, a: Action)
    requires Inv(c, s) && EnabledEnvironment(c, s, a)
    ensures Kept(c, s, ApplyEnvironment(c, s, a))
  {
    hide Inv, Kept, CanLock, CanSettle, CanReturn, Lock, Settle, Return, Executed;
    match a {
      case Tick => TickKeeps(c, s);
      case UserLock(t, origin, token, amount, timelock) => UserLockKeeps(c, s, t, origin, token, amount, timelock);
      case UserConfirm(t, p) => SettleKeeps(c, s, t, p);
      case UserRefund(t) => ReturnKeeps(c, s, t);
      case Mine(tx) => MineKeeps(c, s, tx);
      case Bury(t, to) => BuryKeeps(c, s, t, to);
      case Crash => CrashKeeps(c, s, ApplyEnvironment(c, s, a));
      case _ =>
    }
  }

  // ----- what a single write leaves -----

  /** A row stays in order when only its status, preimage, time stamp or split of the total changes, and legally so. */
  lemma RowRewrite(c: Config, s: State, s': State, t: Tid)
    requires TableOk(c, s) && t in s.table && t in s'.table && OtherRowsSame(s, s', t)
    requires s'.now == s.now && s'.chain == s.chain
    requires forall u :: u in s.table ==> u in s'.table
    requires RowGrows(s.table[t], s'.table[t])
    requires 0 <= s'.table[t].amount && 0 <= s'.table[t].fee
    requires s.table[t].kind == TransferOut ==> s'.table[t].amount == s.table[t].amount
    requires (s.table[t].kind == TransferOut && s'.table[t].status != s.table[t].status) ==>
               (s'.table[t].status == Locked || s'.table[t].status == ConfirmPending || Terminal(s'.table[t].status))
    requires (s.table[t].kind == TransferIn && s'.table[t].status != s.table[t].status &&
              s'.table[t].status == ConfirmPending) ==> Has(s.chain, s.table[t].relTid, Settled)
    requires s'.table[t].preimage.Some? ==> c.hash(s'.table[t].preimage.value) == s'.table[t].hashLock
    requires RowMatchesChain(s', s'.table[t])
    ensures s'.table[t].tid == t && RowOk(c, s', s'.table[t])
    ensures TableGrows(s.table, s'.table)
  {
    hide QuoteFor, LockDerived;
    assert RowOk(c, s, s.table[t]);
    var rel := s.table[t].relTid;
    if rel in s.table {
      assert SameIdentity(s.table[rel], s'.table[rel]);
    }
  }

  lemma RowFacts(c: Config, s: State, t: Tid)
    requires TableOk(c, s) && t in s.table
    ensures s.table[t].tid == t && RowOk(c, s, s.table[t])
    ensures RowShape(c, s.table[t]) && RowMatchesChain(s, s.table[t])
  {
    assert RowOk(c, s, s.table[t]);
  }

  /** What `RowRewrite` gives, also when the write hit no row. */
  ghost predicate RowWritten(c: Config, s: State, s': State, t: Tid) {
    && OtherRowsSame(s, s', t) && TableGrows(s.table, s'.table)
    && (t in s'.table ==> s'.table[t].tid == t && RowOk(c, s', s'.table[t]))
  }

  /** The parts of a state the row predicates look at, after a write to the table. */
  ghost predicate TableWrite(s: State, s': State, tbl: Table) {
    s'.now == s.now && s'.chain == s.chain && s'.table == tbl
  }

  lemma GrowsSelf(a: Table)
    ensures TableGrows(a, a)
  {
  }

  lemma UnchangedRow(c: Config, s: State, s': State, t: Tid)
    requires TableOk(c, s) && TableWrite(s, s', s.table)
    ensures RowWritten(c, s, s', t)
  {
    hide RowOk, TableGrows;
    if t in s.table {
      RowFacts(c, s, t);
      RowRewrite(c, s, s', t);
    } else {
      GrowsSelf(s.table);
    }
  }

  lemma ConfirmedRow(c: Config, s: State, s': State, t: Tid, p: Preimage)
    requires TableOk(c, s) && ChainOk(c, s) && SafeIs(s, t, Settled) && c.hash(p) == t.lock
    requires TableWrite(s, s', ConfirmedIn(s.table, t, p))
    ensures RowWritten(c, s, s', t)
  {
    hide RowOk, TableGrows, OwnDepositOk;
    if t in s.table {
      RowFacts(c, s, t);
      RowRewrite(c, s, s', t);
    } else {
      GrowsSelf(s.table);
    }
  }

  lemma ReturnedRow(c: Config, s: State, s': State, t: Tid)
    requires TableOk(c, s) && ChainOk(c, s) && SafeIs(s, t, Returned)
    requires TableWrite(s, s', StatusSet(s.table, t, Refunded))
    ensures RowWritten(c, s, s', t)
  {
    hide RowOk, TableGrows, OwnDepositOk;
    if t in s.table {
      RowFacts(c, s, t);
      assert DepositOk(c, s, t, s.chain[t]);
      RowRewrite(c, s, s', t);
    } else {
      GrowsSelf(s.table);
    }
  }

  lemma RecordedRow(c: Config, s: State, s': State, t: Tid)
    requires TableOk(c, s) && Visible(s.chain, t)
    requires TableWrite(s, s', InRecorded(s.table, t))
    ensures RowWritten(c, s, s', t)
  {
    hide RowOk, TableGrows;
    if t in s.table {
      RowFacts(c, s, t);
      RowRewrite(c, s, s', t);
    } else {
      GrowsSelf(s.table);
    }
  }

  /** Every compare-and-set the jobs issue. */
  lemma SwappedRow(c: Config, s: State, s': State, t: Tid, to: Status, from: Status)
    requires TableOk(c, s) && TableWrite(s, s', StatusSwapped(s.table, t, to, from, s.now))
    requires t in s.table
    requires !Terminal(from) && !Terminal(to) && (Unsent(to) ==> Unsent(from))
    requires !Unsent(to) ==> Visible(s.chain, t)
    requires s.table[t].kind == TransferOut ==> to == Locked || to == ConfirmPending
    requires s.table[t].kind == TransferIn && to == ConfirmPending ==> Has(s.chain, s.table[t].relTid, Settled)
    requires to == RefundPending ==> s.table[t].timeLock < s.now
    ensures RowWritten(c, s, s', t)
  {
    hide RowOk, TableGrows, SafeIs;
    if s.table[t].status == from {
      RowFacts(c, s, t);
      RowRewrite(c, s, s', t);
    } else {
      UnchangedRow(c, s, s', t);
    }
  }

  lemma AmountRow(c: Config, s: State, s': State, t: Tid, amount: int, fee: int)
    requires TableOk(c, s) && TableWrite(s, s', AmountAndFeeSet(s.table, t, amount, fee))
    requires t in s.table && s.table[t].kind == TransferIn
    requires 0 <= amount && 0 <= fee && amount + fee == s.table[t].Total()
    ensures RowWritten(c, s, s', t)
  {
    hide RowOk, TableGrows;
    RowFacts(c, s, t);
    RowRewrite(c, s, s', t);
  }

  // ----- monitors -----

  lemma OutFirstKeeps(c: Config, s: State, t: Tid, ts: Time, s': State)
    requires Inv(c, s) && EnabledMonitor(c, s, OutFirst(t, ts)) && s' == ApplyMonitor(c, s, OutFirst(t, ts))
    ensures Kept(c, s, s')
  {
    hide TxOk, SendOk, ConfOk, RefOk, RecOk, QuoteFor, InTimeLock, WrapInt64, RowOk, Kept;
    OutRowAfter(c, s, t, s');
    MonitorStep(c, s, s', t);
  }

  lemma OutRowAfter(c: Config, s: State, t: Tid, s': State)
    requires TableOk(c, s) && ChainOk(c, s) && OutEvent(c, s, t) && 0 <= s.now
    requires s'.chain == s.chain && s'.now == s.now
    requires s'.table == Inserted(s.table, OutRowFor(c, t, s.chain[t]), s.now)
    ensures t in s'.table && s'.table[t].kind == TransferOut
    ensures RowWritten(c, s, s', t)
  {
    hide QuoteFor, WrapInt64, RowOk, RowGrows;
    assert DepositOk(c, s, t, s.chain[t]);
    QuoteFacts(c, t, s.chain[t]);
    if t in s.table {
      SenderOfIn(c, s, t);
      UnchangedRow(c, s, s', t);
    } else {
      FreshOutRow(c, s', t);
      NewRowGrows(s.table, s'.table, t);
    }
  }

  lemma NewRowGrows(a: Table, b: Table, t: Tid)
    requires t !in a && t in b && b == a[t := b[t]]
    ensures TableGrows(a, b)
  {
  }

  lemma FreshOutRow(c: Config, s: State, t: Tid)
    requires OutEvent(c, s, t) && 0 <= s.now && t.sender != c.me && s.chain[t].amount >= 0
    requires t in s.table
    requires s.table[t] == OutRowFor(c, t, s.chain[t]).(updateTs := s.now, createTs := s.now)
    ensures RowOk(c, s, s.table[t])
  {
    QuoteFacts(c, t, s.chain[t]);
    hide QuoteFor, WrapInt64;
  }

  lemma QuoteFacts(c: Config, t: Tid, d: Deposit)
    requires QuoteFor(c, t, d).Some?
    ensures d.origin.OutLock? && t.receiver == c.me && t.chain in c.chains && d.origin.dstChain in c.chains
  {
  }

  lemma OutSecondKeeps(c: Config, s: State, n: Note, s': State)
    requires Inv(c, s) && EnabledMonitor(c, s, OutSecond(n)) && s' == ApplyMonitor(c, s, OutSecond(n))
    ensures Kept(c, s, s')
  {
    hide TxOk, SendOk, ConfOk, RefOk, RecOk, RowOk, QuoteFor, InTimeLock, Kept;
    assert NoteOk(c, s, n);
    InRowAfter(c, s, n, s');
    MonitorStep(c, s, s', InTidFor(n.tid, s.chain[n.tid]));
  }

  lemma InRowAfter(c: Config, s: State, n: Note, s': State)
    requires TableOk(c, s) && ChainOk(c, s) && NoteOk(c, s, n) && 0 <= s.now
    requires s'.now == s.now && s'.chain == s.chain
    requires s'.table == Inserted(s.table, InRowFor(c, n.tid, s.chain[n.tid], n.ts), s.now)
    ensures RowWritten(c, s, s', InTidFor(n.tid, s.chain[n.tid]))
  {
    hide QuoteFor, InTimeLock, RowOk, RowGrows;
    var t := InTidFor(n.tid, s.chain[n.tid]);
    if t in s.table {
      UnchangedRow(c, s, s', t);
    } else {
      RowFacts(c, s, n.tid);
      assert t != n.tid;
      assert s'.table[n.tid] == s.table[n.tid];
      OutFacts(c, s, n.tid);
      FreshInRow(c, s', n);
      NewRowGrows(s.table, s'.table, t);
    }
  }

  lemma OutFacts(c: Config, s: State, t: Tid)
    requires TableOk(c, s) && t in s.table && s.table[t].kind == TransferOut
    ensures s.table[t].tid == t && OutRowOk(c, s, s.table[t]) && RowShape(c, s.table[t])
  {
    assert RowOk(c, s, s.table[t]);
  }

  lemma FreshInRow(c: Config, s: State, n: Note)
    requires OutEvent(c, s, n.tid) && InTimeLock(s.chain[n.tid].timelock, n.ts).Some? && 0 <= n.ts <= s.now
    requires n.tid in s.table && s.table[n.tid].kind == TransferOut && s.table[n.tid].tid == n.tid
    requires OutRowOk(c, s, s.table[n.tid]) && RowShape(c, s.table[n.tid])
    requires var t := InTidFor(n.tid, s.chain[n.tid]);
             t in s.table && s.table[t] ==
             InRowFor(c, n.tid, s.chain[n.tid], n.ts).(updateTs := s.now, createTs := s.now)
    ensures RowOk(c, s, s.table[InTidFor(n.tid, s.chain[n.tid])])
  {
    var d := s.chain[n.tid];
    QuoteFacts(c, n.tid, d);
    hide QuoteFor, InTimeLock, WrapInt64;
    var r := s.table[InTidFor(n.tid, d)];
    assert InTimeLock(d.timelock, n.ts) == Some(r.timeLock);
    assert LockDerived(d.timelock, r.timeLock, r.createTs);
  }

  lemma ConfirmSecondKeeps(c: Config, s: State, t: Tid, s': State)
    requires Inv(c, s) && EnabledMonitor(c, s, ConfirmSecond(t)) && s' == ApplyMonitor(c, s, ConfirmSecond(t))
    ensures Kept(c, s, s')
  {
    hide TxOk, SendOk, ConfOk, RefOk, RecOk, NoteOk, RowOk, DepositOk, RowGrows;
    assert SafeIs(s, t, Settled);
    forall u | u in s'.table
      ensures s'.table[u].tid == u && RowOk(c, s', s'.table[u]) && RowGrows(s.table[u], s'.table[u])
    {
      RevealedRow(c, s, t, s', u);
    }
    ChainFrame(c, s, s');
    SentStable(c, s, s');
    MonitorsStable(c, s, s');
    JobsStable(c, s, s');
  }

  /** One row of the `UPDATE ... WHERE relatedtid` statement. */
  lemma RevealedRow(c: Config, s: State, t: Tid, s': State, u: Tid)
    requires TableOk(c, s) && ChainOk(c, s) && SafeIs(s, t, Settled) && u in s.table
    requires TableWrite(s, s', RelatedPreimageSet(s.table, s.chain[t].preimage, t))
    ensures s'.table[u].tid == u && RowOk(c, s', s'.table[u]) && RowGrows(s.table[u], s'.table[u])
  {
    hide QuoteFor, LockDerived, OwnDepositOk, InRowOk, OutRowOk;
    var r, r' := s.table[u], s'.table[u];
    assert DepositOk(c, s, t, s.chain[t]);
    assert RowOk(c, s, r);
    assert RowShape(c, r') && RowMatchesChain(s', r');
    RevealedKind(c, s, t, s', u);
  }

  lemma RevealedKind(c: Config, s: State, t: Tid, s': State, u: Tid)
    requires u in s.table && t in s.chain
    requires if s.table[u].kind == TransferOut then OutRowOk(c, s, s.table[u]) else InRowOk(c, s, s.table[u])
    requires TableWrite(s, s', RelatedPreimageSet(s.table, s.chain[t].preimage, t))
    ensures if s.table[u].kind == TransferOut then OutRowOk(c, s', s'.table[u]) else InRowOk(c, s', s'.table[u])
  {
    hide QuoteFor, LockDerived;
  }

  lemma StatusEventKeeps(c: Config, s: State, a: Action, s': State)
    requires Inv(c, s) && EnabledMonitor(c, s, a) && s' == ApplyMonitor(c, s, a)
    requires a.InSeen? || a.ConfirmFirst? || a.RefundSeen?
    ensures Kept(c, s, s')
  {
    hide TxOk, SendOk, ConfOk, RefOk, RecOk, NoteOk, RowOk, Kept, RowWritten;
    match a {
      case InSeen(t) =>
        RecordedRow(c, s, s', t);
        WrittenByMonitor(c, s, s', t);
      case ConfirmFirst(t) =>
        assert DepositOk(c, s, t, s.chain[t]);
        ConfirmedRow(c, s, s', t, s.chain[t].preimage);
        WrittenByMonitor(c, s, s', t);
      case RefundSeen(t) =>
        ReturnedRow(c, s, s', t);
        WrittenByMonitor(c, s, s', t);
    }
  }

  lemma WrittenByMonitor(c: Config, s: State, s': State, t: Tid)
    requires Inv(c, s) && RowWritten(c, s, s', t)
    requires s' == s.(table := s'.table, revealing := s'.revealing)
    requires forall u :: u in s'.revealing ==> u in s.revealing || SafeIs(s, u, Settled)
    ensures Kept(c, s, s')
  {
    hide TxOk, SendOk, ConfOk, RefOk, RecOk, NoteOk, RowOk, Kept, Inv;
    MonitorStep(c, s, s', t);
  }

  lemma DropKeeps(c: Config, s: State, s': State)
    requires Inv(c, s) && s' == s.(notes := s'.notes, revealing := s'.revealing)
    requires s'.notes <= s.notes && s'.revealing <= s.revealing
    ensures Kept(c, s, s')
  {
    hide RowOk, TxOk, DepositOk, NoteOk, SendOk, ConfOk, RefOk, RecOk;
    ChainFrame(c, s, s');
    SameRows(c, s, s');
    SentStable(c, s, s');
    MonitorsStable(c, s, s');
    JobsStable(c, s, s');
  }

  lemma MonitorsKeep(c: Config, s: State, a: Action)
    requires Inv(c, s) && EnabledMonitor(c, s, a)
    ensures Kept(c, s, ApplyMonitor(c, s, a))
  {
    hide Inv, Kept, OutEvent;
    var s' := ApplyMonitor(c, s, a);
    match a {
      case OutFirst(t, ts) => OutFirstKeeps(c, s, t, ts, s');
      case OutSecond(n) => OutSecondKeeps(c, s, n, s');
      case OutDrop(_) => DropKeeps(c, s, s');
      case ConfirmSecond(t) => ConfirmSecondKeeps(c, s, t, s');
      case ConfirmDrop(_) => DropKeeps(c, s, s');
      case InSeen(t) => StatusEventKeeps(c, s, a, s');
      case ConfirmFirst(t) => StatusEventKeeps(c, s, a, s');
      case RefundSeen(t) => StatusEventKeeps(c, s, a, s');
      case _ =>
    }
  }

  // ----- jobs -----

  /** Assembling a job's write. */
  lemma WrittenByJob(c: Config, s: State, s': State, t: Tid)
    requires Inv(c, s) && SameWorld(s, s') && SameMonitors(s, s') && JobsMoved(c, s, s') && RowWritten(c, s, s', t)
    ensures Kept(c, s, s')
  {
    hide RowOk, JobsMoved, Inv, Kept;
    RowStep(c, s, s', t);
  }

  lemma SendWritten(c: Config, s: State, s': State, x: Row)
    requires Inv(c, s) && SendRowOk(s, x) && RowWritten(c, s, s', x.tid)
    requires s' == s.(table := s'.table, send := s'.send, pends := s'.pends, stray := s'.stray)
    requires SendOk(s, s.send) ==> SendOk(s, s'.send)
    ensures Kept(c, s, s')
  {
    hide RowOk, TxOk, NoteOk, SendOk, ConfOk, RefOk, RecOk, DepositOk, RowWritten, Kept;
    WrittenGrows(c, s, s', x.tid);
    SendStable(s.(send := s'.send), s');
    SendWorld(s, s.(send := s'.send), s'.send);
    hide Inv;
    WrittenByJob(c, s, s', x.tid);
  }

  lemma SendWorld(s: State, s': State, pc: SendPc)
    requires s'.table == s.table && s'.chain == s.chain
    ensures SendOk(s, pc) == SendOk(s', pc)
  {
    assert forall y :: SendRowOk(s, y) == SendRowOk(s', y);
  }

  lemma SendFixKeeps(c: Config, s: State, ok: bool, s': State)
    requires Inv(c, s) && EnabledSend(c, s, SendFix(ok)) && s' == ApplySend(c, s, SendFix(ok))
    ensures Kept(c, s, s')
  {
    hide TxOk, ConfOk, RefOk, RecOk, DepositOk, RowOk, RowWritten, MonitorsOk, Kept, StatusSwapped;
    var x := s.send.x;
    assert SendRowOk(s, x);
    RowFacts(c, s, x.tid);
    if ok { SwappedRow(c, s, s', x.tid, Locked, InStart); } else { UnchangedRow(c, s, s', x.tid); }
    SendWritten(c, s, s', x);
  }

  lemma SendPriceKeeps(c: Config, s: State, fee: int, s': State)
    requires Inv(c, s) && EnabledSend(c, s, SendPrice(fee)) && s' == ApplySend(c, s, SendPrice(fee))
    ensures Kept(c, s, s')
  {
    hide TxOk, ConfOk, RefOk, RecOk, DepositOk, RowOk, RowWritten, MonitorsOk, Kept, AmountAndFeeSet;
    var x := s.send.x;
    assert SendRowOk(s, x);
    AmountRow(c, s, s', x.tid, x.Total() - fee, fee);
    SendWritten(c, s, s', x);
  }

  lemma SendMarkKeeps(c: Config, s: State, s': State)
    requires Inv(c, s) && EnabledSend(c, s, SendMark) && s' == ApplySend(c, s, SendMark)
    ensures Kept(c, s, s')
  {
    hide TxOk, ConfOk, RefOk, RecOk, DepositOk, RowOk, RowWritten, MonitorsOk, Kept, StatusSwapped;
    var x := s.send.x;
    assert SendRowOk(s, x);
    SwappedRow(c, s, s', x.tid, InPending, InStart);
    SendWritten(c, s, s', x);
  }

  lemma WrittenGrows(c: Config, s: State, s': State, t: Tid)
    requires RowWritten(c, s, s', t) && s'.chain == s.chain
    ensures TableGrows(s.table, s'.table) && LedgerGrows(s.chain, s'.chain)
  {
  }

  lemma SendSubmitKeeps(c: Config, s: State, pool: bool, ok: bool, s': State)
    requires Inv(c, s) && EnabledSend(c, s, SendSubmit(pool, ok)) && s' == ApplySend(c, s, SendSubmit(pool, ok))
    ensures Kept(c, s, s')
  {
    hide TxOk, ConfOk, RefOk, RecOk, DepositOk, RowOk, MonitorsOk, Kept, Selects, SendRowOk;
    var x := s.send.x;
    var amount := s.send.amount;
    assert SendRowOk(s, x);
    TxInSound(c, s, x, amount);
    SubmitPcs(c, s, s');
    SubmitStep(c, s, s', TxInFor(x, amount));
  }

  lemma SubmitPcs(c: Config, s: State, s': State)
    requires s'.table == s.table && s'.chain == s.chain && s'.now == s.now
    ensures forall y :: SendRowOk(s, y) == SendRowOk(s', y)
    ensures forall y :: ConfRowOk(c, s, y) == ConfRowOk(c, s', y)
    ensures forall y :: RefRowOk(s, y) == RefRowOk(s', y)
  {
  }

  lemma TxInSound(c: Config, s: State, x: Row, amount: int)
    requires TableOk(c, s) && ChainOk(c, s) && SendRowOk(s, x) && amount <= x.Total()
    ensures TxOk(c, s, TxInFor(x, amount))
  {
    hide InRowOk, OutRowOk, DepositOk;
    LockInRange(c, s, x.tid);
    assert RowOk(c, s, s.table[x.tid]);
    assert RowShape(c, s.table[x.tid]);
    SenderOfIn(c, s, x.tid);
  }

  lemma SenderOfIn(c: Config, s: State, t: Tid)
    requires TableOk(c, s) && t in s.table
    ensures s.table[t].kind == TransferIn <==> t.sender == c.me
  {
    assert RowOk(c, s, s.table[t]);
  }

  lemma SendQueryKeeps(c: Config, s: State, rows: seq<Row>)
    requires Inv(c, s) && Selects(rows, s.table, StartTransferIn, s.now)
    ensures Kept(c, s, s.(send := SendNext(rows)))
  {
    hide TxOk, ConfOk, RefOk, RecOk, DepositOk, RowOk, MonitorsOk, Kept;
    var s' := s.(send := SendNext(rows));
    forall x | x in rows
      ensures SendRowOk(s', x)
    {
      assert s.table[x.tid] == x;
    }
    PcStep(c, s, s');
  }

  lemma SendMoveKeeps(c: Config, s: State, pc: SendPc)
    requires Inv(c, s) && (SendOk(s, s.send) ==> SendOk(s, pc))
    ensures Kept(c, s, s.(send := pc))
  {
    hide TxOk, ConfOk, RefOk, RecOk, DepositOk, RowOk, MonitorsOk, Kept, SendRowOk, Visible;
    SubmitPcs(c, s, s.(send := pc));
    PcStep(c, s, s.(send := pc));
  }

  lemma SendKeeps(c: Config, s: State, a: Action)
    requires Inv(c, s) && EnabledSend(c, s, a)
    ensures Kept(c, s, ApplySend(c, s, a))
  {
    hide Inv, Kept, Selects, SendRowOk, StatusSwapped, AmountAndFeeSet;
    var s' := ApplySend(c, s, a);
    match a {
      case SendQuery(rows) => SendQueryKeeps(c, s, rows);
      case SendFix(ok) => SendFixKeeps(c, s, ok, s');
      case SendPrice(fee) => SendPriceKeeps(c, s, fee, s');
      case SendMark => SendMarkKeeps(c, s, s');
      case SendSubmit(pool, ok) => SendSubmitKeeps(c, s, pool, ok, s');
      case QueryError(_) => StutterKeeps(c, s);
      case SendCheck => SendMoveKeeps(c, s, s'.send);
      case SendLate => SendMoveKeeps(c, s, s'.send);
      case SendRead => SendMoveKeeps(c, s, s'.send);
      case SendSkip => SendMoveKeeps(c, s, s'.send);
      case SendEnd => SendMoveKeeps(c, s, s'.send);
      case _ =>
    }
  }

  lemma ConfWorld(c: Config, s: State, s': State, pc: ConfPc)
    requires s'.table == s.table && s'.chain == s.chain
    ensures ConfOk(c, s, pc) == ConfOk(c, s', pc)
  {
    assert forall y :: ConfRowOk(c, s, y) == ConfRowOk(c, s', y);
  }

  lemma ConfWritten(c: Config, s: State, s': State, x: Row)
    requires Inv(c, s) && RowWritten(c, s, s', x.tid)
    requires s' == s.(table := s'.table, conf := s'.conf)
    requires ConfOk(c, s, s.conf) ==> ConfOk(c, s, s'.conf)
    ensures Kept(c, s, s')
  {
    hide RowOk, TxOk, NoteOk, SendOk, ConfOk, RefOk, RecOk, DepositOk, RowWritten, Kept;
    WrittenGrows(c, s, s', x.tid);
    ConfStable(c, s.(conf := s'.conf), s');
    ConfWorld(c, s, s.(conf := s'.conf), s'.conf);
    hide Inv;
    WrittenByJob(c, s, s', x.tid);
  }

  lemma ConfMarkKeeps(c: Config, s: State, ok: bool, s': State)
    requires Inv(c, s) && EnabledConfirm(c, s, ConfMark(ok)) && s' == ApplyConfirm(c, s, ConfMark(ok))
    ensures Kept(c, s, s')
  {
    hide TxOk, SendOk, RefOk, RecOk, DepositOk, RowOk, RowWritten, MonitorsOk, Kept, StatusSwapped;
    var x := s.conf.x;
    assert ConfRowOk(c, s, x);
    if ok { SwappedRow(c, s, s', x.tid, ConfirmPending, Locked); } else { UnchangedRow(c, s, s', x.tid); }
    ConfWritten(c, s, s', x);
  }

  lemma ConfSetReturnedKeeps(c: Config, s: State, ok: bool, s': State)
    requires Inv(c, s) && EnabledConfirm(c, s, ConfSetReturned(ok)) && s' == ApplyConfirm(c, s, ConfSetReturned(ok))
    ensures Kept(c, s, s')
  {
    hide TxOk, SendOk, RefOk, RecOk, DepositOk, RowOk, RowWritten, MonitorsOk, Kept, StatusSet;
    var x := s.conf.x;
    assert ConfRowOk(c, s, x);
    if ok { ReturnedRow(c, s, s', x.tid); } else { UnchangedRow(c, s, s', x.tid); }
    ConfWritten(c, s, s', x);
  }

  lemma ConfSetSettledKeeps(c: Config, s: State, ok: bool, s': State)
    requires Inv(c, s) && EnabledConfirm(c, s, ConfSetSettled(ok)) && s' == ApplyConfirm(c, s, ConfSetSettled(ok))
    ensures Kept(c, s, s')
  {
    hide TxOk, SendOk, RefOk, RecOk, DepositOk, RowOk, RowWritten, MonitorsOk, Kept, ConfirmedIn;
    var x := s.conf.x;
    assert ConfRowOk(c, s, x);
    RowFacts(c, s, x.tid);
    if ok { ConfirmedRow(c, s, s', x.tid, x.Decoded()); } else { UnchangedRow(c, s, s', x.tid); }
    ConfWritten(c, s, s', x);
  }

  lemma ConfSubmitKeeps(c: Config, s: State, pool: bool, s': State)
    requires Inv(c, s) && EnabledConfirm(c, s, ConfSubmit(pool)) && s' == ApplyConfirm(c, s, ConfSubmit(pool))
    ensures Kept(c, s, s')
  {
    hide SendOk, RefOk, RecOk, DepositOk, RowOk, MonitorsOk, Kept;
    var x := s.conf.x;
    assert ConfRowOk(c, s, x);
    RowFacts(c, s, x.tid);
    var tx := TxConfirm(x.chainId, x.tid, x.Decoded());
    assert TxOk(c, s, tx);
    hide TxOk, ConfRowOk;
    ConfWorld(c, s, s', s'.conf);
    SubmitStep(c, s, s', tx);
  }

  lemma ConfMoveKeeps(c: Config, s: State, pc: ConfPc)
    requires Inv(c, s) && (ConfOk(c, s, s.conf) ==> ConfOk(c, s, pc))
    ensures Kept(c, s, s.(conf := pc))
  {
    hide TxOk, SendOk, ConfOk, RefOk, RecOk, DepositOk, RowOk, MonitorsOk, Kept;
    ConfWorld(c, s, s.(conf := pc), pc);
    PcStep(c, s, s.(conf := pc));
  }

  lemma ConfQueryKeeps(c: Config, s: State, rows: seq<Row>)
    requires Inv(c, s) && Selects(rows, s.table, ConfirmableLocked, s.now)
    ensures Kept(c, s, s.(conf := ConfNext(rows)))
  {
    hide TxOk, SendOk, RefOk, RecOk, DepositOk, MonitorsOk, Kept, RowOk;
    forall x | x in rows
      ensures ConfRowOk(c, s, x)
    {
      assert s.table[x.tid] == x;
      RowFacts(c, s, x.tid);
    }
    ConfMoveKeeps(c, s, ConfNext(rows));
  }

  lemma ConfReadKeeps(c: Config, s: State, s': State)
    requires Inv(c, s) && EnabledConfirm(c, s, ConfRead) && s' == ApplyConfirm(c, s, ConfRead)
    ensures Kept(c, s, s')
  {
    hide TxOk, SendOk, RefOk, RecOk, DepositOk, RowOk, MonitorsOk, Kept, ConfRowOk;
    ConfMoveKeeps(c, s, s'.conf);
  }

  lemma ConfKeeps(c: Config, s: State, a: Action)
    requires Inv(c, s) && EnabledConfirm(c, s, a)
    ensures Kept(c, s, ApplyConfirm(c, s, a))
  {
    hide Inv, Kept, Selects, ConfRowOk, StatusSwapped, StatusSet, ConfirmedIn;
    var s' := ApplyConfirm(c, s, a);
    match a {
      case ConfQuery(rows) => ConfQueryKeeps(c, s, rows);
      case ConfRead => ConfReadKeeps(c, s, s');
      case ConfMark(ok) => ConfMarkKeeps(c, s, ok, s');
      case ConfSubmit(pool) => ConfSubmitKeeps(c, s, pool, s');
      case ConfSetReturned(ok) => ConfSetReturnedKeeps(c, s, ok, s');
      case ConfSetSettled(ok) => ConfSetSettledKeeps(c, s, ok, s');
      case ConfSkip => ConfMoveKeeps(c, s, s'.conf);
      case ConfEnd => ConfMoveKeeps(c, s, s'.conf);
      case QueryError(_) => StutterKeeps(c, s);
      case _ =>
    }
  }

  lemma RefWorld(c: Config, s: State, s': State, pc: RefPc)
    requires s'.table == s.table && s'.chain == s.chain && s'.now == s.now
    ensures RefOk(c, s, pc) == RefOk(c, s', pc)
  {
    assert forall y :: RefRowOk(s, y) == RefRowOk(s', y);
  }

  lemma RefWritten(c: Config, s: State, s': State, x: Row)
    requires Inv(c, s) && RowWritten(c, s, s', x.tid)
    requires s' == s.(table := s'.table, refu := s'.refu)
    requires RefOk(c, s, s.refu) ==> RefOk(c, s, s'.refu)
    ensures Kept(c, s, s')
  {
    hide RowOk, TxOk, NoteOk, SendOk, ConfOk, RefOk, RecOk, DepositOk, RowWritten, Kept;
    WrittenGrows(c, s, s', x.tid);
    RefStable(c, s.(refu := s'.refu), s');
    RefWorld(c, s, s.(refu := s'.refu), s'.refu);
    hide Inv;
    WrittenByJob(c, s, s', x.tid);
  }

  lemma RefMarkKeeps(c: Config, s: State, ok: bool, s': State)
    requires Inv(c, s) && EnabledRefund(c, s, RefMark(ok)) && s' == ApplyRefund(c, s, RefMark(ok))
    ensures Kept(c, s, s')
  {
    hide TxOk, SendOk, ConfOk, RecOk, DepositOk, RowOk, RowWritten, MonitorsOk, Kept, StatusSwapped;
    var x := s.refu.x;
    assert RefRowOk(s, x);
    if ok { SwappedRow(c, s, s', x.tid, RefundPending, Locked); } else { UnchangedRow(c, s, s', x.tid); }
    RefWritten(c, s, s', x);
  }

  lemma RefSetReturnedKeeps(c: Config, s: State, ok: bool, s': State)
    requires Inv(c, s) && EnabledRefund(c, s, RefSetReturned(ok)) && s' == ApplyRefund(c, s, RefSetReturned(ok))
    ensures Kept(c, s, s')
  {
    hide TxOk, SendOk, ConfOk, RecOk, DepositOk, RowOk, RowWritten, MonitorsOk, Kept, StatusSet;
    var x := s.refu.x;
    assert RefRowOk(s, x);
    if ok { ReturnedRow(c, s, s', x.tid); } else { UnchangedRow(c, s, s', x.tid); }
    RefWritten(c, s, s', x);
  }

  lemma RefMoveKeeps(c: Config, s: State, pc: RefPc)
    requires Inv(c, s) && (RefOk(c, s, s.refu) ==> RefOk(c, s, pc))
    ensures Kept(c, s, s.(refu := pc))
  {
    hide TxOk, SendOk, ConfOk, RefOk, RecOk, DepositOk, RowOk, MonitorsOk, Kept;
    RefWorld(c, s, s.(refu := pc), pc);
    PcStep(c, s, s.(refu := pc));
  }

  lemma RefQueryKeeps(c: Config, s: State, rows: seq<Row>)
    requires Inv(c, s) && Selects(rows, s.table, RefundableIn, s.now)
    ensures Kept(c, s, s.(refu := RefNext(rows)))
  {
    hide TxOk, SendOk, ConfOk, RecOk, DepositOk, MonitorsOk, Kept, RowOk;
    forall x | x in rows
      ensures RefRowOk(s, x)
    {
      assert s.table[x.tid] == x;
      RowFacts(c, s, x.tid);
    }
    RefMoveKeeps(c, s, RefNext(rows));
  }

  /** The related row of a refundable copy: what the job then knows of it. */
  lemma RelatedRow(c: Config, s: State, x: Row)
    requires Inv(c, s) && RefRowOk(s, x)
    ensures x.relTid in s.table && s.table[x.relTid].tid == x.relTid
    ensures s.table[x.relTid].chainId == x.relTid.chain
    ensures s.table[x.relTid].status == Confirmed ==>
              c.hash(s.table[x.relTid].Decoded()) == x.hashLock && Has(s.chain, x.relTid, Settled)
  {
    hide SendOk, ConfOk, RefOk, RecOk, TxOk, NoteOk, OutRowOk, OwnDepositOk, QuoteFor, LockDerived;
    assert RowOk(c, s, s.table[x.tid]);
    var rel := s.table[x.relTid];
    assert RowOk(c, s, rel);
    if rel.status == Confirmed {
      assert DepositOk(c, s, rel.tid, s.chain[rel.tid]);
    }
  }

  lemma RefRelateKeeps(c: Config, s: State, s': State)
    requires Inv(c, s) && EnabledRefund(c, s, RefRelate) && s' == ApplyRefund(c, s, RefRelate)
    ensures Kept(c, s, s')
  {
    hide TxOk, SendOk, ConfOk, RecOk, DepositOk, RowOk, MonitorsOk, Kept, Has;
    var x := s.refu.x;
    assert RefRowOk(s, x);
    hide RefRowOk;
    RelatedRow(c, s, x);
    RefMoveKeeps(c, s, s'.refu);
  }

  lemma RefReadKeeps(c: Config, s: State, a: Action, s': State)
    requires Inv(c, s) && EnabledRefund(c, s, a) && s' == ApplyRefund(c, s, a) && (a.RefRead? || a.RefReadOut?)
    ensures Kept(c, s, s')
  {
    hide TxOk, SendOk, ConfOk, RecOk, DepositOk, RowOk, MonitorsOk, Kept, RefRowOk;
    RefMoveKeeps(c, s, s'.refu);
  }

  lemma RefSubmitKeeps(c: Config, s: State, a: Action, s': State)
    requires Inv(c, s) && EnabledRefund(c, s, a) && s' == ApplyRefund(c, s, a) && (a.RefConfirm? || a.RefRefund?)
    ensures Kept(c, s, s')
  {
    hide SendOk, ConfOk, RecOk, DepositOk, RowOk, MonitorsOk, Kept;
    var x := s.refu.x;
    assert RefRowOk(s, x);
    RowFacts(c, s, x.tid);
    var tx := if a.RefConfirm? then TxConfirm(x.chainId, x.tid, s.refu.p) else TxRefund(x.chainId, x.tid);
    assert TxOk(c, s, tx);
    hide TxOk, RefRowOk;
    RefWorld(c, s, s', s'.refu);
    SubmitStep(c, s, s', tx);
  }

  lemma RefKeeps(c: Config, s: State, a: Action)
    requires Inv(c, s) && EnabledRefund(c, s, a)
    ensures Kept(c, s, ApplyRefund(c, s, a))
  {
    hide Inv, Kept, Selects, RefRowOk, StatusSwapped, StatusSet;
    var s' := ApplyRefund(c, s, a);
    match a {
      case RefQuery(rows) => RefQueryKeeps(c, s, rows);
      case RefRead => RefReadKeeps(c, s, a, s');
      case RefMark(ok) => RefMarkKeeps(c, s, ok, s');
      case RefRelate => RefRelateKeeps(c, s, s');
      case RefReadOut => RefReadKeeps(c, s, a, s');
      case RefConfirm(_) => RefSubmitKeeps(c, s, a, s');
      case RefRefund(_) => RefSubmitKeeps(c, s, a, s');
      case RefSetReturned(ok) => RefSetReturnedKeeps(c, s, ok, s');
      case RefSkip => RefMoveKeeps(c, s, s'.refu);
      case RefEnd => RefMoveKeeps(c, s, s'.refu);
      case QueryError(_) => StutterKeeps(c, s);
      case _ =>
    }
  }

  lemma RecWorld(s: State, s': State, pc: RecPc)
    requires LedgerGrows(s.chain, s'.chain) && TableGrows(s.table, s'.table)
    ensures RecOk(s, pc) ==> RecOk(s', pc)
  {
    assert forall q, y :: RecRowOk(s, q, y) ==> RecRowOk(s', q, y);
  }

  lemma RecRestoreKeeps(c: Config, s: State, ok: bool, s': State)
    requires Inv(c, s) && EnabledRecover(s, RecRestore(ok)) && s' == ApplyRecover(c, s, RecRestore(ok))
    ensures Kept(c, s, s')
  {
    hide TxOk, SendOk, ConfOk, RefOk, DepositOk, RowOk, RowWritten, MonitorsOk, Kept, StatusSwapped;
    var q, x := s.reco.q, s.reco.rows[0];
    assert RecRowOk(s, q, x);
    if ok { SwappedRow(c, s, s', x.tid, RestoredTo(q), RestoredFrom(q)); } else { UnchangedRow(c, s, s', x.tid); }
    WrittenGrows(c, s, s', x.tid);
    hide RecRowOk;
    RecWorld(s, s', s'.reco);
    hide Inv;
    WrittenByJob(c, s, s', x.tid);
  }

  lemma RecMoveKeeps(c: Config, s: State, pc: RecPc)
    requires Inv(c, s) && (RecOk(s, s.reco) ==> RecOk(s, pc))
    ensures Kept(c, s, s.(reco := pc))
  {
    hide TxOk, SendOk, ConfOk, RefOk, RecOk, DepositOk, RowOk, MonitorsOk, Kept;
    GrowsSelf(s.table);
    RecWorld(s, s.(reco := pc), pc);
    PcStep(c, s, s.(reco := pc));
  }

  lemma RecQueryKeeps(c: Config, s: State, q: Selection, rows: seq<Row>)
    requires Inv(c, s) && Selects(rows, s.table, q, s.now) && q == s.reco.q
    ensures Kept(c, s, s.(reco := RecRun(q, rows)))
  {
    hide TxOk, SendOk, ConfOk, RefOk, DepositOk, MonitorsOk, Kept, RowOk;
    forall x | x in rows
      ensures RecRowOk(s, q, x)
    {
      assert s.table[x.tid] == x;
      RowFacts(c, s, x.tid);
    }
    RecMoveKeeps(c, s, RecRun(q, rows));
  }

  lemma RecKeeps(c: Config, s: State, a: Action)
    requires Inv(c, s) && EnabledRecover(s, a)
    ensures Kept(c, s, ApplyRecover(c, s, a))
  {
    hide Inv, Kept, Selects, RecRowOk, StatusSwapped;
    var s' := ApplyRecover(c, s, a);
    match a {
      case RecQuery(rows) => RecQueryKeeps(c, s, s.reco.q, rows);
      case RecRestore(ok) => RecRestoreKeeps(c, s, ok, s');
      case RecSkip => RecMoveKeeps(c, s, s'.reco);
      case RecEnd => RecMoveKeeps(c, s, s'.reco);
      case _ =>
    }
  }

  // ----- every run -----

  /** The invariant is inductive, and nothing the relay knows is ever taken back. */
  lemma StepKeeps(c: Config, s: State, a: Action)
    requires Inv(c, s) && Enabled(c, s, a)
    ensures Kept(c, s, Apply(c, s, a))
  {
    hide Inv, Kept, EnabledEnvironment, EnabledMonitor, EnabledSend, EnabledConfirm, EnabledRefund, EnabledRecover,
      ApplyEnvironment, ApplyMonitor, ApplySend, ApplyConfirm, ApplyRefund, ApplyRecover;
    match Who(a) {
      case Environment => EnvironmentKeeps(c, s, a);
      case Monitors => MonitorsKeep(c, s, a);
      case SendJob => SendKeeps(c, s, a);
      case ConfirmJob => ConfKeeps(c, s, a);
      case RefundJob => RefKeeps(c, s, a);
      case RecoverJob => RecKeeps(c, s, a);
    }
  }

  lemma {:induction false} RunKeeps(c: Config, s: State, acts: seq<Action>)
    requires Inv(c, s) && Legal(c, s, acts)
    ensures Kept(c, s, Exec(c, s, acts))
    decreases |acts|
  {
    hide Inv, Evolves, Enabled, Apply;
    if acts == [] {
      SelfKept(c, s);
    } else {
      var m := Apply(c, s, acts[0]);
      StepKeeps(c, s, acts[0]);
      RunKeeps(c, m, acts[1..]);
      EvolvesTransitive(s, m, Exec(c, s, acts));
    }
  }

  lemma SelfKept(c: Config, s: State)
    requires Inv(c, s)
    ensures Kept(c, s, s)
  {
    StutterKeeps(c, s);
  }

  lemma InitOk(c: Config, now: Time)
    requires 0 <= now
    ensures Inv(c, Init(now))
  {
  }

  lemma ReachableInv(c: Config, s: State)
    requires Reachable(c, s)
    ensures Inv(c, s)
  {
    hide Inv, Enabled, Apply;
    var now: Time, acts: seq<Action> :| 0 <= now && Legal(c, Init(now), acts) && Exec(c, Init(now), acts) == s;
    InitOk(c, now);
    RunKeeps(c, Init(now), acts);
  }
}
