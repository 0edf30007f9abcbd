/** How often the send job can try one transfer: the recovery window bounds the tries, and each try two submissions. */
module Retry {
  import opened Types
  import opened TimeLock
  import opened Dal
  import opened Ledger
  import opened Protocol
  import opened Frames
  import opened Invariant
  import opened Preserve

  function Positive(x: int): nat {
    if x < 0 then 0 else x
  }

  /** Submissions the send job may still make in the pass it is in. */
  function Owed(pc: SendPc, t: Tid): nat {
    if pc.SendFirst? && pc.x.tid == t then 2
    else if pc.SendAgain? && pc.x.tid == t then 1
    else 0
  }

  // ----- the inductive bounds -----

  ghost predicate PendsBounded(s: State, t: Tid, r: Row) {
    var k := Count(s.pends, t);
    && r.createTs <= r.updateTs <= s.now
    && (r.status == InStart ==>
          && MAX_PENDING_RETRY * k <= r.updateTs - r.createTs
          && MAX_PENDING_RETRY * k <= Positive(r.timeLock - r.createTs))
    && (r.status == InPending ==> k >= 1 && MAX_PENDING_RETRY * (k - 1) <= r.updateTs - r.createTs)
    && (k >= 1 ==> MAX_PENDING_RETRY * (k - 1) <= Positive(r.timeLock - r.createTs))
  }

  ghost predicate SubsBounded(s: State, t: Tid) {
    Count(s.subs, t) + Owed(s.send, t) <= 2 * Count(s.pends, t) + if t in s.stray then 2 else 0
  }

  ghost predicate RetryRow(s: State, t: Tid) {
    && SubsBounded(s, t)
    && (t in s.table ==> s.table[t].kind == TransferIn ==>
          PendsBounded(s, t, s.table[t]) && (t in s.stray ==> !Unsent(s.table[t].status)))
    && (t !in s.table ==> Count(s.pends, t) == 0 && t !in s.stray)
  }

  ghost predicate RetryRows(s: State) {
    forall t :: RetryRow(s, t)
  }

  /** A copy the send job has not marked yet: its row is not PENDING and has not been submitted without a mark. */
  ghost predicate Fresh(s: State, x: Row) {
    x.tid !in s.stray && x.tid in s.table && s.table[x.tid].status != InPending
  }

  ghost predicate Unmarked(s: State, x: Row, rest: seq<Row>) {
    DistinctTids([x] + rest) && Fresh(s, x) && forall y :: y in rest ==> Fresh(s, y)
  }

  ghost predicate SendFresh(s: State, pc: SendPc) {
    match pc
    case SendIdle => true
    case SendNext(rows) => DistinctTids(rows) && forall y :: y in rows ==> Fresh(s, y)
    case SendReading(x, rest) => Unmarked(s, x, rest)
    case SendFixing(x, rest) => Unmarked(s, x, rest)
    case SendPricing(x, rest) => Unmarked(s, x, rest)
    case SendMarking(x, rest, _) => Unmarked(s, x, rest)
    case SendFirst(x, rest, _) => DistinctTids([x] + rest) && forall y :: y in rest ==> Fresh(s, y)
    case SendAgain(x, rest, _) => DistinctTids([x] + rest) && forall y :: y in rest ==> Fresh(s, y)
  }

  /** A copy the recovery job is about to restart: timed out when it was read, and untouched or done since. */
  ghost predicate TimedOut(s: State, x: Row) {
    && x.updateTs + MAX_PENDING_RETRY < s.now && x.updateTs + MAX_PENDING_RETRY < x.timeLock
    && x.tid in s.table && s.table[x.tid].status != InStart
    && (s.table[x.tid].status == InPending ==> s.table[x.tid].updateTs == x.updateTs)
  }

  ghost predicate RecFresh(s: State, pc: RecPc) {
    pc.RecRun? && pc.q == TimeoutPendingIn ==>
      DistinctTids(pc.rows) && forall x :: x in pc.rows ==> TimedOut(s, x)
  }

  ghost predicate RetryInv(s: State) {
    RetryRows(s) && SendFresh(s, s.send) && RecFresh(s, s.reco)
  }

  // ----- steps that start no new try -----

  ghost predicate QuietRow(s: State, s': State, t: Tid)
    requires t in s.table && t in s'.table
  {
    || (s'.table[t].status == s.table[t].status && s'.table[t].updateTs == s.table[t].updateTs)
    || (!Unsent(s'.table[t].status) && (s'.table[t].updateTs == s.table[t].updateTs || s'.table[t].updateTs == s.now))
  }

  /** Existing rows keep status and time stamp or leave the sending statuses; new IN rows are at their start. */
  ghost predicate Quiet(s: State, s': State) {
    && (forall t :: t in s.table ==> t in s'.table && QuietRow(s, s', t))
    && (forall t :: t in s'.table && t !in s.table ==>
          s'.table[t].kind == TransferIn ==>
            s'.table[t].status == InStart && s'.table[t].createTs == s'.table[t].updateTs == s.now)
  }

  lemma QuietKeepsRows(s: State, s': State)
    requires RetryRows(s) && Quiet(s, s') && Evolves(s, s') && SameHistory(s, s')
    requires forall t :: Owed(s'.send, t) <= Owed(s.send, t)
    ensures RetryRows(s')
  {
    forall t
      ensures RetryRow(s', t)
    {
      assert RetryRow(s, t);
      if t in s.table {
        assert RowGrows(s.table[t], s'.table[t]) && QuietRow(s, s', t);
      }
    }
  }

  lemma QuietKeepsCopies(s: State, s': State)
    requires Quiet(s, s') && s.now <= s'.now && s'.stray == s.stray
    ensures forall x :: Fresh(s, x) ==> Fresh(s', x)
    ensures forall x :: TimedOut(s, x) ==> TimedOut(s', x)
    ensures forall pc: SendPc :: SendFresh(s, pc) ==> SendFresh(s', pc)
    ensures forall pc: RecPc :: RecFresh(s, pc) ==> RecFresh(s', pc)
  {
    assert forall x: Row :: x.tid in s.table ==> QuietRow(s, s', x.tid);
    assert forall x :: Fresh(s, x) ==> Fresh(s', x);
    assert forall x :: TimedOut(s, x) ==> TimedOut(s', x);
    hide QuietRow, Quiet, Fresh, TimedOut;
    forall pc: SendPc | SendFresh(s, pc)
      ensures SendFresh(s', pc)
    {
      SendFreshMono(s, s', pc);
    }
  }

  lemma SendFreshMono(s: State, s': State, pc: SendPc)
    requires SendFresh(s, pc) && forall x :: Fresh(s, x) ==> Fresh(s', x)
    ensures SendFresh(s', pc)
  {
    hide Fresh, DistinctTids;
  }

  lemma QuietKeeps(s: State, s': State)
    requires RetryInv(s) && Quiet(s, s') && Evolves(s, s') && SameHistory(s, s')
    requires s'.send == s.send || s'.send == SendIdle || (SendFresh(s, s'.send) && forall t :: Owed(s'.send, t) == 0)
    requires s'.reco == s.reco || RecFresh(s, s'.reco)
    ensures RetryInv(s')
  {
    QuietKeepsRows(s, s');
    QuietKeepsCopies(s, s');
  }

  // ----- actor by actor -----

  lemma QuietSame(s: State, s': State)
    requires s'.table == s.table
    ensures Quiet(s, s')
  {
  }

  /** One compare-and-set or unconditional status write out of the sending statuses. */
  lemma QuietOneRow(s: State, s': State, t: Tid)
    requires forall u :: u in s.table ==> u in s'.table && (u != t ==> s'.table[u] == s.table[u])
    requires forall u :: u in s'.table ==> u in s.table
    requires t in s.table ==> QuietRow(s, s', t)
    ensures Quiet(s, s')
  {
  }

  lemma MonitorQuiet(c: Config, s: State, a: Action)
    requires Enabled(c, s, a) && Who(a) == Monitors
    ensures Quiet(s, Apply(c, s, a))
  {
    hide QuoteFor, InTimeLock, Quiet, Apply, Enabled, Inserted;
    var s' := Apply(c, s, a);
    MonitorWrites(c, s, a);
    match a {
      case OutFirst(t, _) => QuietInsert(s, s', OutRowFor(c, t, s.chain[t]));
      case OutSecond(n) => QuietInsert(s, s', InRowFor(c, n.tid, s.chain[n.tid], n.ts));
      case InSeen(t) => QuietOneRow(s, s', t);
      case ConfirmFirst(t) => QuietOneRow(s, s', t);
      case RefundSeen(t) => QuietOneRow(s, s', t);
      case ConfirmSecond(t) => QuietReveal(s, s', s.chain[t].preimage, t);
      case _ => QuietSame(s, s');
    }
  }

  lemma QuietInsert(s: State, s': State, r: Row)
    requires s'.table == Inserted(s.table, r, s.now) && (r.kind == TransferIn ==> r.status == InStart)
    ensures Quiet(s, s')
  {
  }

  lemma QuietReveal(s: State, s': State, p: Preimage, rel: Tid)
    requires s'.table == RelatedPreimageSet(s.table, p, rel)
    ensures Quiet(s, s')
  {
  }

  lemma ConfirmQuiet(c: Config, s: State, a: Action)
    requires Enabled(c, s, a) && Who(a) == ConfirmJob
    ensures Quiet(s, Apply(c, s, a))
  {
    hide Selects, Quiet, Apply, Enabled;
    var s' := Apply(c, s, a);
    ConfirmApplies(c, s, a);
    match a {
      case ConfMark(_) => QuietOneRow(s, s', s.conf.x.tid);
      case ConfSetReturned(_) => QuietOneRow(s, s', s.conf.x.tid);
      case ConfSetSettled(_) => QuietOneRow(s, s', s.conf.x.tid);
      case _ => QuietSame(s, s');
    }
  }

  lemma RefundQuiet(c: Config, s: State, a: Action)
    requires Enabled(c, s, a) && Who(a) == RefundJob
    ensures Quiet(s, Apply(c, s, a))
  {
    hide Selects, Quiet, Apply, Enabled;
    var s' := Apply(c, s, a);
    RefundApplies(c, s, a);
    match a {
      case RefMark(_) => QuietOneRow(s, s', s.refu.x.tid);
      case RefSetReturned(_) => QuietOneRow(s, s', s.refu.x.tid);
      case _ => QuietSame(s, s');
    }
  }

  // ----- the two jobs that move the count -----

  lemma DistinctTail(rows: seq<Row>)
    requires rows != [] && DistinctTids(rows)
    ensures DistinctTids([rows[0]] + rows[1..]) && DistinctTids(rows[1..])
    ensures forall y :: y in rows[1..] ==> y.tid != rows[0].tid
  {
    assert [rows[0]] + rows[1..] == rows;
  }

  lemma DistinctHead(x: Row, rest: seq<Row>)
    requires DistinctTids([x] + rest)
    ensures DistinctTids(rest) && forall y :: y in rest ==> y.tid != x.tid
  {
    var rows := [x] + rest;
    assert rest == rows[1..];
    DistinctTail(rows);
  }

  /** Rows whose columns and counts a step leaves alone. */
  lemma RetryRowFrame(s: State, s': State, t: Tid)
    requires RetryRow(s, t) && s.now <= s'.now
    requires t in s.table <==> t in s'.table
    requires t in s.table ==> s'.table[t] == s.table[t]
    requires Count(s'.pends, t) == Count(s.pends, t) && (t in s'.stray <==> t in s.stray)
    requires Count(s'.subs, t) + Owed(s'.send, t) <= Count(s.subs, t) + Owed(s.send, t)
    ensures RetryRow(s', t)
  {
  }

  lemma MarkedRow(s: State, s': State, x: Row)
    requires RetryRow(s, x.tid) && Fresh(s, x) && s.table[x.tid].kind == TransferIn && s'.now == s.now
    requires Owed(s'.send, x.tid) == 2 && Owed(s.send, x.tid) == 0 && s'.subs == s.subs
    requires s'.table == StatusSwapped(s.table, x.tid, InPending, InStart, s.now)
    requires var hit := s.table[x.tid].status == InStart;
             && s'.pends == (if hit then Bump(s.pends, x.tid) else s.pends)
             && s'.stray == if hit then s.stray else s.stray + {x.tid}
    ensures RetryRow(s', x.tid)
  {
  }

  lemma SendMarkRetries(c: Config, s: State)
    requires RetryInv(s) && Enabled(c, s, SendMark) && Inv(c, s)
    ensures RetryInv(Apply(c, s, SendMark))
  {
    hide Apply, Enabled, TableOk, ChainOk, SentOk, MonitorsOk, ConfOk, RefOk, RecOk, Fresh, RetryRow, RecFresh;
    SendApplies(c, s, SendMark);
    var x := s.send.x;
    assert SendRowOk(s, x);
    assert Fresh(s, x);
    assert x.tid in s.table && s.table[x.tid].kind == TransferIn;
    hide Inv;
    MarkRetries(s, Apply(c, s, SendMark), x, s.send.rest);
  }

  lemma MarkRetries(s: State, s': State, x: Row, rest: seq<Row>)
    requires RetryInv(s) && Fresh(s, x) && DistinctTids([x] + rest) && forall y :: y in rest ==> Fresh(s, y)
    requires s.table[x.tid].kind == TransferIn && s'.now == s.now && s'.reco == s.reco
    requires s.send.SendMarking? && s'.send.SendFirst? && s'.send.x == x && s'.send.rest == rest
    requires s'.table == StatusSwapped(s.table, x.tid, InPending, InStart, s.now) && s'.subs == s.subs
    requires var hit := s.table[x.tid].status == InStart;
             && s'.pends == (if hit then Bump(s.pends, x.tid) else s.pends)
             && s'.stray == if hit then s.stray else s.stray + {x.tid}
    ensures RetryInv(s')
  {
    hide Fresh, RetryRow, RecFresh, SendFresh;
    DistinctHead(x, rest);
    assert RetryRow(s, x.tid);
    MarkedRow(s, s', x);
    forall t | t != x.tid
      ensures RetryRow(s', t)
    {
      assert RetryRow(s, t);
      RetryRowFrame(s, s', t);
    }
    MarkKeepsCopies(s, s', x, rest);
    FirstFresh(s', x, rest);
  }

  lemma FirstFresh(s: State, x: Row, rest: seq<Row>)
    requires s.send.SendFirst? && s.send.x == x && s.send.rest == rest
    requires DistinctTids([x] + rest) && forall y :: y in rest ==> Fresh(s, y)
    ensures SendFresh(s, s.send)
  {
  }

  lemma MarkKeepsCopies(s: State, s': State, x: Row, rest: seq<Row>)
    requires s'.table == StatusSwapped(s.table, x.tid, InPending, InStart, s.now) && s'.now == s.now
    requires s.stray <= s'.stray <= s.stray + {x.tid} && s'.reco == s.reco && RecFresh(s, s.reco)
    requires forall y :: y in rest ==> Fresh(s, y) && y.tid != x.tid
    ensures RecFresh(s', s'.reco) && forall y :: y in rest ==> Fresh(s', y)
  {
    forall y | TimedOut(s, y)
      ensures TimedOut(s', y)
    {
    }
  }

  lemma SendSubmitRetries(c: Config, s: State, pool: bool, ok: bool)
    requires RetryInv(s) && Enabled(c, s, SendSubmit(pool, ok))
    ensures RetryInv(Apply(c, s, SendSubmit(pool, ok)))
  {
    hide Quiet, Fresh, TimedOut, RetryRow, TxInFor;
    var s' := Apply(c, s, SendSubmit(pool, ok));
    QuietSame(s, s');
    QuietKeepsCopies(s, s');
    DistinctHead(s.send.x, s.send.rest);
    forall t
      ensures RetryRow(s', t)
    {
      RetryRowFrame(s, s', t);
    }
  }

  lemma SendQueryRetries(c: Config, s: State, rows: seq<Row>)
    requires RetryInv(s) && Enabled(c, s, SendQuery(rows)) && Evolves(s, Apply(c, s, SendQuery(rows)))
    ensures RetryInv(Apply(c, s, SendQuery(rows)))
  {
    hide Apply, Enabled, Evolves, Quiet;
    SendApplies(c, s, SendQuery(rows));
    QuietSame(s, Apply(c, s, SendQuery(rows)));
    FreshWhenRead(s, rows);
    QuietKeeps(s, Apply(c, s, SendQuery(rows)));
  }

  lemma FreshWhenRead(s: State, rows: seq<Row>)
    requires RetryRows(s) && Selects(rows, s.table, StartTransferIn, s.now)
    ensures SendFresh(s, SendNext(rows))
  {
    forall y | y in rows
      ensures Fresh(s, y)
    {
      assert s.table[y.tid] == y && RetryRow(s, y.tid);
    }
  }

  lemma SendWritesQuiet(c: Config, s: State, a: Action)
    requires Enabled(c, s, a) && (a.SendFix? || a.SendPrice?)
    ensures Quiet(s, Apply(c, s, a))
  {
    hide Quiet, Apply, Enabled, Selects;
    var s' := Apply(c, s, a);
    SendApplies(c, s, a);
    QuietOneRow(s, s', s.send.x.tid);
  }

  lemma SendMovesFresh(c: Config, s: State, a: Action)
    requires Enabled(c, s, a) && SendFresh(s, s.send)
    requires a.SendCheck? || a.SendLate? || a.SendRead? || a.SendFix? || a.SendPrice? || a.SendSkip? || a.SendEnd?
    ensures SendFresh(s, Apply(c, s, a).send) && forall t :: Owed(Apply(c, s, a).send, t) == 0
    ensures SameHistory(s, Apply(c, s, a))
  {
    hide Fresh, StatusSwapped, AmountAndFeeSet, Apply, Enabled, Selects;
    SendApplies(c, s, a);
    if a.SendCheck? || a.SendLate? {
      DistinctTail(s.send.rows);
    } else if !a.SendEnd? {
      DistinctHead(s.send.x, s.send.rest);
    }
  }

  lemma SendRetries(c: Config, s: State, a: Action)
    requires RetryInv(s) && Inv(c, s) && Enabled(c, s, a) && Who(a) == SendJob && Evolves(s, Apply(c, s, a))
    ensures RetryInv(Apply(c, s, a))
  {
    hide RetryInv, Inv, Evolves, Quiet, Selects, StatusSwapped, AmountAndFeeSet;
    match a {
      case SendMark => SendMarkRetries(c, s);
      case SendSubmit(pool, ok) => SendSubmitRetries(c, s, pool, ok);
      case SendQuery(rows) => SendQueryRetries(c, s, rows);
      case QueryError(_) => assert Apply(c, s, a) == s;
      case _ => SendMoveRetries(c, s, a);
    }
  }

  lemma SendMoveRetries(c: Config, s: State, a: Action)
    requires RetryInv(s) && Enabled(c, s, a) && Evolves(s, Apply(c, s, a))
    requires a.SendCheck? || a.SendLate? || a.SendRead? || a.SendFix? || a.SendPrice? || a.SendSkip? || a.SendEnd?
    ensures RetryInv(Apply(c, s, a))
  {
    hide Evolves, Quiet;
    SendFrame(c, s, a);
    SendMovesFresh(c, s, a);
    if a.SendFix? || a.SendPrice? {
      SendWritesQuiet(c, s, a);
    } else {
      QuietSame(s, Apply(c, s, a));
    }
    hide Apply, Enabled;
    QuietKeeps(s, Apply(c, s, a));
  }

  lemma RestartedRow(s: State, s': State, x: Row)
    requires RetryRow(s, x.tid) && TimedOut(s, x) && s.table[x.tid].kind == TransferIn && s'.now == s.now
    requires SameIdentity(x, s.table[x.tid])
    requires s'.send == s.send && SameHistory(s, s')
    requires s'.table == StatusSwapped(s.table, x.tid, InStart, InPending, s.now)
    ensures RetryRow(s', x.tid)
  {
  }

  lemma RestartRetries(c: Config, s: State, s': State)
    requires RetryInv(s) && Inv(c, s) && s.reco.RecRun? && s.reco.q == TimeoutPendingIn && s.reco.rows != []
    requires s' == s.(reco := RecRun(TimeoutPendingIn, s.reco.rows[1..]),
                      table := StatusSwapped(s.table, s.reco.rows[0].tid, InStart, InPending, s.now))
    ensures RetryInv(s')
  {
    var x := s.reco.rows[0];
    assert RecRowOk(s, TimeoutPendingIn, x) && TimedOut(s, x);
    hide Inv, TimedOut, SendFresh;
    DistinctTail(s.reco.rows);
    RestartedRow(s, s', x) by {
      assert RetryRow(s, x.tid);
    }
    hide RetryRow;
    forall t | t != x.tid
      ensures RetryRow(s', t)
    {
      RetryRowFrame(s, s', t);
    }
    RestartKeepsCopies(s, s', x);
  }

  lemma RestartKeepsCopies(s: State, s': State, x: Row)
    requires s'.table == StatusSwapped(s.table, x.tid, InStart, InPending, s.now) && s'.now == s.now
    requires s'.stray == s.stray && s'.send == s.send && SendFresh(s, s.send)
    requires s'.reco.RecRun? && DistinctTids(s'.reco.rows)
    requires forall y :: y in s'.reco.rows ==> TimedOut(s, y) && y.tid != x.tid
    ensures SendFresh(s', s'.send) && RecFresh(s', s'.reco)
  {
    assert forall y :: Fresh(s, y) ==> Fresh(s', y);
    hide Fresh;
    SendFreshMono(s, s', s.send);
  }

  lemma RecoverRetries(c: Config, s: State, a: Action)
    requires RetryInv(s) && Inv(c, s) && Enabled(c, s, a) && Who(a) == RecoverJob && Evolves(s, Apply(c, s, a))
    ensures RetryInv(Apply(c, s, a))
  {
    hide Evolves, Quiet, Fresh, RetryRows, SendFresh, Apply, Enabled, Selects, StatusSwapped, TimedOut, Inv;
    var s' := Apply(c, s, a);
    if a.RecRestore? {
      RestoreRetries(c, s, a);
    } else {
      RecoverFrame(c, s, a);
      RecoverApplies(c, s, a);
      QuietSame(s, s');
      if a.RecQuery? {
        TimedOutWhenRead(c, s, a.rows);
      }
      QuietKeeps(s, s');
    }
  }

  lemma RestoreRetries(c: Config, s: State, a: Action)
    requires RetryInv(s) && Inv(c, s) && Enabled(c, s, a) && a.RecRestore? && Evolves(s, Apply(c, s, a))
    ensures RetryInv(Apply(c, s, a))
  {
    hide Evolves, Quiet, Fresh, RetryRows, SendFresh, Apply, Enabled, Selects, StatusSwapped, TimedOut, Inv;
    var s' := Apply(c, s, a);
    RecoverFrame(c, s, a);
    RecoverApplies(c, s, a);
    if a.ok && s.reco.q == TimeoutPendingIn {
      RestartRetries(c, s, s');
    } else {
      QuietRestore(c, s, s', a.ok);
    }
  }

  lemma TimedOutWhenRead(c: Config, s: State, rows: seq<Row>)
    requires Inv(c, s) && Selects(rows, s.table, s.reco.q, s.now)
    ensures RecFresh(s, RecRun(s.reco.q, rows))
  {
    hide Inv;
  }

  lemma QuietRestore(c: Config, s: State, s': State, ok: bool)
    requires RetryInv(s) && Inv(c, s) && s.reco.RecRun? && s.reco.rows != [] && Evolves(s, s')
    requires ok ==> s.reco.q != TimeoutPendingIn
    requires s' == s.(reco := RecRun(s.reco.q, s.reco.rows[1..]),
                      table := if ok then StatusSwapped(s.table, s.reco.rows[0].tid, RestoredTo(s.reco.q),
                                                        RestoredFrom(s.reco.q), s.now)
                               else s.table)
    ensures RetryInv(s')
  {
    hide Evolves;
    var x := s.reco.rows[0];
    assert s.reco.q == TimeoutPendingIn ==> DistinctTids(s.reco.rows);
    if s.reco.q == TimeoutPendingIn {
      DistinctTail(s.reco.rows);
    }
    hide Inv;
    QuietOneRow(s, s', x.tid);
    hide Quiet;
    QuietKeeps(s, s');
  }

  lemma StepRetries(c: Config, s: State, a: Action)
    requires RetryInv(s) && Inv(c, s) && Enabled(c, s, a)
    ensures RetryInv(Apply(c, s, a))
  {
    hide RetryInv, Inv, Evolves, Enabled, Apply, Quiet;
    StepKeeps(c, s, a);
    match Who(a) {
      case Environment =>
        EnvironmentFrame(c, s, a);
        EnvironmentRetries(s, Apply(c, s, a));
      case Monitors =>
        MonitorFrame(c, s, a);
        MonitorQuiet(c, s, a);
        QuietKeeps(s, Apply(c, s, a));
      case SendJob => SendRetries(c, s, a);
      case ConfirmJob =>
        ConfirmFrame(c, s, a);
        ConfirmQuiet(c, s, a);
        QuietKeeps(s, Apply(c, s, a));
      case RefundJob =>
        RefundFrame(c, s, a);
        RefundQuiet(c, s, a);
        QuietKeeps(s, Apply(c, s, a));
      case RecoverJob => RecoverRetries(c, s, a);
    }
  }

  lemma EnvironmentRetries(s: State, s': State)
    requires RetryInv(s) && Evolves(s, s') && s'.table == s.table && SameHistory(s, s')
    requires SameJobs(s, s') || JobsReset(s')
    ensures RetryInv(s')
  {
    hide Evolves;
    QuietSame(s, s');
    hide Quiet;
    QuietKeeps(s, s');
  }

  // ----- counting along a run -----

  /** START -> PENDING transitions of row `t`. */
  ghost function Pendings(c: Config, s: State, acts: seq<Action>, t: Tid): nat
    requires Legal(c, s, acts)
    decreases |acts|
  {
    if acts == [] then 0
    else
      var m := Apply(c, s, acts[0]);
      Begun(s, m, t) + Pendings(c, m, acts[1..], t)
  }

  /** 1 if a step from `s` to `m` takes `t` from START to PENDING. */
  function Begun(s: State, m: State, t: Tid): nat {
    if t in s.table && s.table[t].status == InStart && t in m.table && m.table[t].status == InPending then 1 else 0
  }

  /** 1 if `a` in `s` submits `t`. */
  function Submitting(s: State, a: Action, t: Tid): nat {
    if a.SendSubmit? && (s.send.SendFirst? || s.send.SendAgain?) && s.send.x.tid == t then 1 else 0
  }

  /** transferIn submissions for `t`. */
  ghost function Submissions(c: Config, s: State, acts: seq<Action>, t: Tid): nat
    requires Legal(c, s, acts)
    decreases |acts|
  {
    if acts == [] then 0
    else
      Submitting(s, acts[0], t) + Submissions(c, Apply(c, s, acts[0]), acts[1..], t)
  }

  lemma {:induction false} HistoryCounts(c: Config, s: State, acts: seq<Action>, t: Tid)
    requires Inv(c, s) && RetryInv(s) && Legal(c, s, acts)
    ensures Inv(c, Exec(c, s, acts)) && RetryInv(Exec(c, s, acts))
    ensures Count(Exec(c, s, acts).pends, t) == Count(s.pends, t) + Pendings(c, s, acts, t)
    ensures Count(Exec(c, s, acts).subs, t) == Count(s.subs, t) + Submissions(c, s, acts, t)
    decreases |acts|
  {
    hide Inv, RetryInv, Enabled, Apply, Evolves, Count;
    if acts != [] {
      StepKeeps(c, s, acts[0]);
      StepRetries(c, s, acts[0]);
      StepCounts(c, s, acts[0], Apply(c, s, acts[0]), t);
      HistoryCounts(c, Apply(c, s, acts[0]), acts[1..], t);
    }
  }

  lemma StepCounts(c: Config, s: State, a: Action, m: State, t: Tid)
    requires Inv(c, s) && RetryInv(s) && Enabled(c, s, a) && m == Apply(c, s, a)
    ensures Count(m.pends, t) == Count(s.pends, t) + Begun(s, m, t)
    ensures Count(m.subs, t) == Count(s.subs, t) + Submitting(s, a, t)
  {
    hide Inv, RetryInv, Enabled, Apply, Quiet, Count;
    match Who(a) {
      case Environment => EnvironmentFrame(c, s, a);
      case Monitors =>
        MonitorFrame(c, s, a);
        MonitorQuiet(c, s, a);
        QuietNeverPends(s, m, t);
      case SendJob => SendCounts(c, s, a, m, t);
      case ConfirmJob =>
        ConfirmFrame(c, s, a);
        ConfirmQuiet(c, s, a);
        QuietNeverPends(s, m, t);
      case RefundJob =>
        RefundFrame(c, s, a);
        RefundQuiet(c, s, a);
        QuietNeverPends(s, m, t);
      case RecoverJob =>
        RecoverFrame(c, s, a);
        RecoverNeverPends(c, s, a, t);
    }
  }

  lemma QuietNeverPends(s: State, s': State, t: Tid)
    requires Quiet(s, s')
    ensures t in s.table && s.table[t].status == InStart && t in s'.table ==> s'.table[t].status != InPending
  {
    assert t in s.table ==> QuietRow(s, s', t);
  }

  lemma RecoverNeverPends(c: Config, s: State, a: Action, t: Tid)
    requires Enabled(c, s, a) && Who(a) == RecoverJob
    ensures t in s.table && s.table[t].status == InStart && t in Apply(c, s, a).table ==>
              Apply(c, s, a).table[t].status != InPending
  {
    hide Selects;
  }

  lemma SendCounts(c: Config, s: State, a: Action, m: State, t: Tid)
    requires Enabled(c, s, a) && Who(a) == SendJob && m == Apply(c, s, a)
    ensures Count(m.pends, t) == Count(s.pends, t) + Begun(s, m, t)
    ensures Count(m.subs, t) == Count(s.subs, t) + Submitting(s, a, t)
  {
    hide Selects, Apply, Enabled, TxInFor, ReadSafe, Pooled;
    SendApplies(c, s, a);
  }

  /** Before anything was handled. */
  lemma InitRetries(now: Time)
    ensures RetryInv(Init(now))
  {
  }

  /**
   * Along any run from the start, an IN row created at t0 with lock T goes from START to PENDING at most
   * 1 + (T - t0) / 15 min times, and its transfer is submitted at most twice per transition and twice more.
   */
  lemma RetriesAreBounded(c: Config, now: Time, acts: seq<Action>, t: Tid)
    requires 0 <= now && Legal(c, Init(now), acts)
    requires t in Exec(c, Init(now), acts).table && Exec(c, Init(now), acts).table[t].kind == TransferIn
    ensures var r := Exec(c, Init(now), acts).table[t];
            && Pendings(c, Init(now), acts, t) <= 1 + Positive(r.timeLock - r.createTs) / 900_000_000_000
            && Submissions(c, Init(now), acts, t) <= 2 * Pendings(c, Init(now), acts, t) + 2
  {
    hide Inv, Enabled, Apply, SendFresh, RecFresh;
    InitOk(c, now);
    InitRetries(now);
    HistoryCounts(c, Init(now), acts, t);
    EndCounts(Exec(c, Init(now), acts), t);
  }

  lemma EndCounts(e: State, t: Tid)
    requires RetryRows(e) && t in e.table && e.table[t].kind == TransferIn
    ensures Count(e.pends, t) <= 1 + Positive(e.table[t].timeLock - e.table[t].createTs) / MAX_PENDING_RETRY
    ensures Count(e.subs, t) <= 2 * Count(e.pends, t) + 2
  {
    assert RetryRow(e, t);
    var k, room := Count(e.pends, t), Positive(e.table[t].timeLock - e.table[t].createTs);
    if k >= 1 {
      assert MAX_PENDING_RETRY * (k - 1) <= room;
      assert k - 1 <= room / MAX_PENDING_RETRY;
    }
  }
}
