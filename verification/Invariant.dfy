/** What every reachable state satisfies, and the stable facts that make stale copies harmless. */
module Invariant {
  import opened Types
  import opened TimeLock
  import opened Dal
  import opened Ledger
  import opened Protocol

  ghost predicate SafeIs(s: State, t: Tid, st: ChainStatus) {
    t in s.chain && s.chain[t].safe == st
  }

  // ----- how a state may evolve: everything the relay's stale knowledge rests on -----

  ghost predicate RowGrows(a: Row, b: Row) {
    && SameIdentity(a, b)
    && (a.preimage.Some? ==> b.preimage.Some?)
    && (Terminal(a.status) ==> b.status == a.status)
    && (!Unsent(a.status) ==> !Unsent(b.status))
  }

  ghost predicate TableGrows(a: Table, b: Table) {
    forall t :: t in a ==> t in b && RowGrows(a[t], b[t])
  }

  ghost predicate Evolves(s: State, s': State) {
    && s.now <= s'.now
    && LedgerGrows(s.chain, s'.chain)
    && TableGrows(s.table, s'.table)
    && s.sent <= s'.sent
  }

  // ----- rows -----

  /** The IN lock was computed from the source lock at some handling time. */
  ghost predicate LockDerived(srcLock: int, timeLock: Time, createTs: Time) {
    exists ts: Time :: 0 <= ts <= createTs && InTimeLock(srcLock, ts) == Some(timeLock)
  }

  ghost predicate RowShape(c: Config, r: Row) {
    && r.tid == Tid(r.sender, r.receiver, r.hashLock, r.chainId)
    && r.relTid.lock == r.hashLock && r.relTid.chain == r.relChain
    && r.chainId in c.chains && r.relChain in c.chains
    && 0 <= r.amount && 0 <= r.fee
    && (r.preimage.Some? ==> c.hash(r.preimage.value) == r.hashLock)
  }

  ghost predicate RowMatchesChain(s: State, r: Row) {
    && (r.status == Confirmed ==> r.preimage.Some? && SafeIs(s, r.tid, Settled))
    && (r.status == Refunded ==> SafeIs(s, r.tid, Returned))
    && (!Unsent(r.status) ==> Visible(s.chain, r.tid))
    && (r.preimage.Some? && r.status != Confirmed ==> Has(s.chain, r.relTid, Settled))
    && (r.status == RefundPending ==> r.timeLock < s.now)
  }

  ghost predicate OutRowOk(c: Config, s: State, r: Row) {
    && r.sender != c.me && r.receiver == c.me
    && r.tid in s.chain
    && (var d := s.chain[r.tid];
        && d.origin.OutLock? && QuoteFor(c, r.tid, d).Some?
        && r.relTid == InTidFor(r.tid, d) && r.relToken == QuoteFor(c, r.tid, d).value.dstToken
        && r.token == d.token && r.amount == d.amount && r.fee == 0
        && r.timeLock == WrapInt64(d.timelock) * SECOND)
    && (r.status == Locked || r.status == ConfirmPending || Terminal(r.status))
  }

  ghost predicate InRowOk(c: Config, s: State, r: Row) {
    && r.sender == c.me
    && r.relTid in s.table && r.relTid in s.chain
    && (var o := s.table[r.relTid];
        && o.kind == TransferOut && o.tid == r.relTid && o.relTid == r.tid
        && o.chainId == r.relChain && o.relChain == r.chainId
        && o.token == r.relToken && o.relToken == r.token)
    && (var d := s.chain[r.relTid];
        && QuoteFor(c, r.relTid, d).Some? && r.Total() == QuoteFor(c, r.relTid, d).value.amount
        && LockDerived(d.timelock, r.timeLock, r.createTs))
    && (r.status == ConfirmPending ==> Has(s.chain, r.relTid, Settled))
  }

  ghost predicate RowOk(c: Config, s: State, r: Row) {
    && RowShape(c, r)
    && RowMatchesChain(s, r)
    && (if r.kind == TransferOut then OutRowOk(c, s, r) else InRowOk(c, s, r))
    && r.createTs <= s.now
  }

  ghost predicate TableOk(c: Config, s: State) {
    forall t :: t in s.table ==> s.table[t].tid == t && RowOk(c, s, s.table[t])
  }

  // ----- chain -----

  /** A deposit the relay made: an IN row stands behind it and it locks no more than that row's total. */
  ghost predicate OwnDepositOk(s: State, t: Tid, d: Deposit) {
    && t in s.table && s.table[t].kind == TransferIn
    && var r := s.table[t];
       && d.origin == InLock(r.relChain, r.relTid)
       && d.token == r.token && d.amount <= r.Total() && d.timelock == Unix(r.timeLock)
  }

  ghost predicate DepositOk(c: Config, s: State, t: Tid, d: Deposit) {
    && d.status != Undefined && Precedes(d.safe, d.status)
    && d.amount > 0 && 0 <= d.timelock < TWO64
    && (d.status == Settled ==> c.hash(d.preimage) == t.lock)
    && (t.sender == c.me ==> OwnDepositOk(s, t, d))
  }

  ghost predicate ChainOk(c: Config, s: State) {
    forall t :: t in s.chain ==> DepositOk(c, s, t, s.chain[t])
  }

  // ----- submissions -----

  ghost predicate TxInOk(c: Config, s: State, tx: Tx)
    requires tx.TxIn?
  {
    var t := Tid(c.me, tx.receiver, tx.lock, tx.chain);
    && t in s.table && s.table[t].kind == TransferIn
    && var r := s.table[t];
       && tx.srcChain == r.relChain && tx.srcTid == r.relTid
       && tx.token == r.token && tx.amount <= r.Total() && tx.timelock == Unix(r.timeLock)
  }

  ghost predicate TxOk(c: Config, s: State, tx: Tx) {
    match tx
    case TxIn(_, _, _, _, _, _, _, _) => TxInOk(c, s, tx)
    case TxConfirm(chain, t, p) =>
      && t in s.table && t.chain == chain && c.hash(p) == t.lock && Visible(s.chain, t)
      && (s.table[t].kind == TransferIn ==> Has(s.chain, s.table[t].relTid, Settled))
    case TxRefund(chain, t) =>
      && t in s.table && t.chain == chain && s.table[t].kind == TransferIn && Visible(s.chain, t)
      && s.table[t].timeLock < s.now
  }

  ghost predicate SentOk(c: Config, s: State) {
    forall tx :: tx in s.sent ==> TxOk(c, s, tx)
  }

  // ----- what the actors remember -----

  ghost predicate NoteOk(c: Config, s: State, n: Note) {
    && OutEvent(c, s, n.tid) && n.tid in s.table && s.table[n.tid].kind == TransferOut
    && InTimeLock(s.chain[n.tid].timelock, n.ts).Some? && 0 <= n.ts <= s.now
  }

  ghost predicate MonitorsOk(c: Config, s: State) {
    && (forall n :: n in s.notes ==> NoteOk(c, s, n))
    && (forall t :: t in s.revealing ==> SafeIs(s, t, Settled))
  }

  /** A stale copy: its row is still there, with the same identity columns and the same total. */
  ghost predicate Echo(s: State, x: Row) {
    x.tid in s.table && SameIdentity(x, s.table[x.tid])
  }

  ghost predicate SendRowOk(s: State, x: Row) {
    Echo(s, x) && x.kind == TransferIn && 0 <= x.timeLock
  }

  ghost predicate SendOk(s: State, pc: SendPc) {
    match pc
    case SendIdle => true
    case SendNext(rows) => forall x :: x in rows ==> SendRowOk(s, x)
    case SendReading(x, rest) => SendRowOk(s, x) && forall y :: y in rest ==> SendRowOk(s, y)
    case SendFixing(x, rest) =>
      SendRowOk(s, x) && Visible(s.chain, x.tid) && forall y :: y in rest ==> SendRowOk(s, y)
    case SendPricing(x, rest) => SendRowOk(s, x) && forall y :: y in rest ==> SendRowOk(s, y)
    case SendMarking(x, rest, amount) =>
      SendRowOk(s, x) && amount <= x.Total() && forall y :: y in rest ==> SendRowOk(s, y)
    case SendFirst(x, rest, amount) =>
      SendRowOk(s, x) && amount <= x.Total() && forall y :: y in rest ==> SendRowOk(s, y)
    case SendAgain(x, rest, amount) =>
      SendRowOk(s, x) && amount <= x.Total() && forall y :: y in rest ==> SendRowOk(s, y)
  }

  ghost predicate ConfRowOk(c: Config, s: State, x: Row) {
    && Echo(s, x) && Visible(s.chain, x.tid)
    && x.preimage.Some? && c.hash(x.preimage.value) == x.hashLock
    && (x.kind == TransferIn ==> Has(s.chain, x.relTid, Settled))
  }

  ghost predicate ConfOk(c: Config, s: State, pc: ConfPc) {
    match pc
    case ConfIdle => true
    case ConfNext(rows) => forall x :: x in rows ==> ConfRowOk(c, s, x)
    case ConfMarking(x, rest) => ConfRowOk(c, s, x) && forall y :: y in rest ==> ConfRowOk(c, s, y)
    case ConfCalling(x, rest) => ConfRowOk(c, s, x) && forall y :: y in rest ==> ConfRowOk(c, s, y)
    case ConfReturned(x, rest) =>
      ConfRowOk(c, s, x) && SafeIs(s, x.tid, Returned) && forall y :: y in rest ==> ConfRowOk(c, s, y)
    case ConfSettled(x, rest) =>
      ConfRowOk(c, s, x) && SafeIs(s, x.tid, Settled) && forall y :: y in rest ==> ConfRowOk(c, s, y)
  }

  ghost predicate RefRowOk(s: State, x: Row) {
    Echo(s, x) && x.kind == TransferIn && Visible(s.chain, x.tid) && x.timeLock < s.now
  }

  ghost predicate RefOk(c: Config, s: State, pc: RefPc) {
    match pc
    case RefIdle => true
    case RefNext(rows) => forall x :: x in rows ==> RefRowOk(s, x)
    case RefMarking(x, rest) => RefRowOk(s, x) && forall y :: y in rest ==> RefRowOk(s, y)
    case RefRelating(x, rest) => RefRowOk(s, x) && forall y :: y in rest ==> RefRowOk(s, y)
    case RefReadingOut(x, rest, rel) =>
      RefRowOk(s, x) && rel.tid == x.relTid && rel.chainId == x.relTid.chain && forall y :: y in rest ==> RefRowOk(s, y)
    case RefConfirming(x, rest, p) =>
      && RefRowOk(s, x) && c.hash(p) == x.hashLock && Has(s.chain, x.relTid, Settled)
      && forall y :: y in rest ==> RefRowOk(s, y)
    case RefCalling(x, rest) => RefRowOk(s, x) && forall y :: y in rest ==> RefRowOk(s, y)
    case RefReturned(x, rest) =>
      RefRowOk(s, x) && SafeIs(s, x.tid, Returned) && forall y :: y in rest ==> RefRowOk(s, y)
  }

  ghost predicate RecRowOk(s: State, q: Selection, x: Row) {
    && Echo(s, x)
    && (if q == TimeoutPendingIn then x.kind == TransferIn else Visible(s.chain, x.tid))
  }

  ghost predicate RecoverQuery(q: Selection) {
    q == TimeoutPendingIn || q == TimeoutPendingConfirm || q == TimeoutPendingRefund
  }

  ghost predicate RecOk(s: State, pc: RecPc) {
    && RecoverQuery(pc.q)
    && (pc.RecRun? ==> forall x :: x in pc.rows ==> RecRowOk(s, pc.q, x))
  }

  ghost predicate Inv(c: Config, s: State) {
    && 0 <= s.now
    && TableOk(c, s)
    && ChainOk(c, s)
    && SentOk(c, s)
    && MonitorsOk(c, s)
    && SendOk(s, s.send)
    && ConfOk(c, s, s.conf)
    && RefOk(c, s, s.refu)
    && RecOk(s, s.reco)
  }

  // ----- stability -----

  lemma EvolvesTransitive(a: State, b: State, d: State)
    requires Evolves(a, b) && Evolves(b, d)
    ensures Evolves(a, d)
  {
  }

  lemma RowStable(c: Config, s: State, s': State, r: Row)
    requires RowOk(c, s, r) && Evolves(s, s')
    requires ChainOk(c, s) && ChainOk(c, s')
    ensures RowOk(c, s', r)
  {
  }

  lemma SentStable(c: Config, s: State, s': State)
    requires SentOk(c, s) && Evolves(s, s')
    ensures forall tx :: tx in s.sent ==> TxOk(c, s', tx)
  {
    forall tx | tx in s.sent
      ensures TxOk(c, s', tx)
    {
      TxStable(c, s, s', tx);
    }
  }

  lemma TxStable(c: Config, s: State, s': State, tx: Tx)
    requires TxOk(c, s, tx) && Evolves(s, s')
    ensures TxOk(c, s', tx)
  {
  }

  lemma MonitorsStable(c: Config, s: State, s': State)
    requires MonitorsOk(c, s) && Evolves(s, s')
    ensures forall n :: n in s.notes ==> NoteOk(c, s', n)
    ensures forall t :: t in s.revealing ==> SafeIs(s', t, Settled)
  {
  }

  lemma JobsStable(c: Config, s: State, s': State)
    requires Evolves(s, s')
    ensures SendOk(s, s.send) ==> SendOk(s', s.send)
    ensures ConfOk(c, s, s.conf) ==> ConfOk(c, s', s.conf)
    ensures RefOk(c, s, s.refu) ==> RefOk(c, s', s.refu)
    ensures RecOk(s, s.reco) ==> RecOk(s', s.reco)
  {
    SendStable(s, s');
    ConfStable(c, s, s');
    RefStable(c, s, s');
  }

  lemma SendStable(s: State, s': State)
    requires Evolves(s, s')
    ensures SendOk(s, s.send) ==> SendOk(s', s.send)
  {
    assert forall x :: SendRowOk(s, x) ==> SendRowOk(s', x);
  }

  lemma ConfStable(c: Config, s: State, s': State)
    requires Evolves(s, s')
    ensures ConfOk(c, s, s.conf) ==> ConfOk(c, s', s.conf)
  {
    assert forall x :: ConfRowOk(c, s, x) ==> ConfRowOk(c, s', x);
  }

  lemma RefStable(c: Config, s: State, s': State)
    requires Evolves(s, s')
    ensures RefOk(c, s, s.refu) ==> RefOk(c, s', s.refu)
  {
    assert forall x :: RefRowOk(s, x) ==> RefRowOk(s', x);
  }
}
