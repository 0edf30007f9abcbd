/** Why the timing assumptions are needed: a relay that stops after sending can lose any transfer it accepted. */
module Untimed {
  import opened Types
  import opened TimeLock
  import opened Dal
  import opened Ledger
  import opened Protocol
  import opened Steps

  /** A run so far, told from nobody's point of view. */
  ghost predicate Ends(c: Config, start: State, s: State) {
    exists own :: Ran(c, Handler(Tick), start, s, own)
  }

  lemma Begin(c: Config, s: State)
    ensures Ends(c, s, s)
  {
    RanNothing(c, Handler(Tick), s);
  }

  lemma Then(c: Config, start: State, s: State, a: Action)
    requires Ends(c, start, s) && Enabled(c, s, a)
    ensures Ends(c, start, Apply(c, s, a))
  {
    hide Ran, Enabled, Apply;
    var own :| Ran(c, Handler(Tick), start, s, own);
    RanOne(c, Handler(Tick), s, a);
    RanOn(c, Handler(Tick), start, s, Apply(c, s, a), own, [a]);
  }

  lemma {:induction false} Wait(c: Config, start: State, s: State, n: nat)
    requires Ends(c, start, s)
    ensures Ends(c, start, s.(now := s.now + n))
  {
    hide Ends;
    if n == 0 {
      assert s.(now := s.now + 0) == s;
    } else {
      Wait(c, start, s, n - 1);
      Then(c, start, s.(now := s.now + (n - 1)), Tick);
    }
  }

  /**
   * A transfer the relay accepts and would send: it serves the route, the amount does not scale to nothing, and the IN
   * lock it computes is the send job's margin ahead.
   */
  ghost predicate Accepted(c: Config, t: Tid, d: Deposit, now: Time) {
    && 0 <= now && t.sender != c.me && d.amount > 0 && d.status == Pending && d.safe == Undefined
    && d.preimage == ZERO_HASH
    && 0 <= d.timelock < TWO64
    && InTimeLock(d.timelock, now).Some? && InTimeLock(d.timelock, now).value > now + SEND_MARGIN
    && QuoteFor(c, t, d).Some? && QuoteFor(c, t, d).value.amount > 0
  }

  /** The row of the transfer-in that the handler records. */
  function Inn(c: Config, t: Tid, d: Deposit, now: Time): Row
    requires d.origin.OutLock? && QuoteFor(c, t, d).Some? && InTimeLock(d.timelock, now).Some?
  {
    InRowFor(c, t, d, now).(updateTs := now, createTs := now)
  }

  lemma AcceptedLocks(c: Config, t: Tid, d: Deposit, now: Time)
    requires Accepted(c, t, d, now)
    ensures d.origin.OutLock? && InTimeLock(d.timelock, now).Some?
    ensures var lock := InTimeLock(d.timelock, now).value;
            lock > now + SEND_MARGIN && 0 <= Unix(lock) < TWO64 && Unix(lock) > Unix(now)
    ensures Unix(now) < d.timelock
  {
    LockGap(d.timelock, now);
  }

  /** The event's two statements: both rows are there and nothing has been sent. */
  lemma Recorded(c: Config, t: Tid, d: Deposit, now: Time) returns (s: State)
    requires Accepted(c, t, d, now)
    ensures d.origin.OutLock? && InTimeLock(d.timelock, now).Some?
    ensures Ends(c, Init(now), s) && s.now == now && s.send == SendIdle && s.sent == {}
    ensures s.chain == map[t := d.(safe := Pending)]
    ensures s.table.Keys == {t, InTidFor(t, d)} && t != InTidFor(t, d)
    ensures s.table[t].kind == TransferOut && s.table[InTidFor(t, d)] == Inn(c, t, d, now)
  {
    hide Ends, QuoteFor, InTimeLock;
    AcceptedLocks(c, t, d, now);
    s := Init(now);
    Begin(c, s);
    Then(c, Init(now), s, UserLock(t, d.origin, d.token, d.amount, d.timelock));
    s := Apply(c, s, UserLock(t, d.origin, d.token, d.amount, d.timelock));
    assert s.chain == map[t := d];
    Then(c, Init(now), s, Bury(t, Pending));
    s := Apply(c, s, Bury(t, Pending));
    SameQuote(c, t, d);
    InShape(c, t, d);
    Then(c, Init(now), s, OutFirst(t, now));
    s := Apply(c, s, OutFirst(t, now));
    Then(c, Init(now), s, OutSecond(Note(t, now)));
    s := Apply(c, s, OutSecond(Note(t, now)));
  }

  lemma SameQuote(c: Config, t: Tid, d: Deposit)
    ensures QuoteFor(c, t, d.(safe := Pending)) == QuoteFor(c, t, d)
  {
  }

  /** One pass of the send job: the transfer-in is marked and handed to the network, with no fee taken. */
  lemma Sent(c: Config, start: State, s: State, x: Row) returns (e: State)
    requires Ends(c, start, s) && s.send == SendIdle && s.sent == {} && s.table.Keys == {x.relTid, x.tid}
    requires s.table[x.tid] == x && s.table[x.relTid].kind == TransferOut
    requires x.kind == TransferIn && x.status == InStart && x.fee == 0 && x.amount > 0 && x.tid !in s.chain
    requires x.chainId in c.chains && x.timeLock > s.now + SEND_MARGIN
    ensures Ends(c, start, e) && e.now == s.now && e.chain == s.chain && TxInFor(x, x.amount) in e.sent
  {
    hide Ends, TxInFor, StatusSwapped, AmountAndFeeSet;
    hide EnabledEnvironment, EnabledMonitor, EnabledConfirm, EnabledRefund, EnabledRecover, ApplyEnvironment,
      ApplyMonitor, ApplyConfirm, ApplyRefund, ApplyRecover;
    e := s;
    assert [x][0] == x && [x][1..] == [];
    Then(c, start, e, SendQuery([x]));
    e := Apply(c, e, SendQuery([x]));
    e := Checked(c, start, e, x);
    e := Submitted(c, start, e, x);
  }

  lemma Checked(c: Config, start: State, s: State, x: Row) returns (e: State)
    requires Ends(c, start, s) && s.send == SendNext([x]) && x.tid !in s.chain
    requires x.chainId in c.chains && x.timeLock > s.now + SEND_MARGIN
    ensures Ends(c, start, e) && e.now == s.now && e.chain == s.chain && e.send == SendPricing(x, [])
  {
    hide Ends, TxInFor, StatusSwapped, AmountAndFeeSet, Selects;
    hide EnabledEnvironment, EnabledMonitor, EnabledConfirm, EnabledRefund, EnabledRecover, ApplyEnvironment,
      ApplyMonitor, ApplyConfirm, ApplyRefund, ApplyRecover;
    assert [x][0] == x && [x][1..] == [];
    Then(c, start, s, SendCheck);
    e := Apply(c, s, SendCheck);
    assert e.send == SendReading(x, []);
    Then(c, start, e, SendRead);
    e := Apply(c, e, SendRead);
  }

  lemma Submitted(c: Config, start: State, s: State, x: Row) returns (e: State)
    requires Ends(c, start, s) && s.send == SendPricing(x, []) && x.fee == 0 && x.amount > 0
    ensures Ends(c, start, e) && e.now == s.now && e.chain == s.chain && TxInFor(x, x.amount) in e.sent
  {
    hide Ends, TxInFor, StatusSwapped, AmountAndFeeSet;
    hide EnabledEnvironment, EnabledMonitor, EnabledConfirm, EnabledRefund, EnabledRecover, ApplyEnvironment,
      ApplyMonitor, ApplyConfirm, ApplyRefund, ApplyRecover;
    e := s;
    assert x.Total() == x.amount;
    Then(c, start, e, SendPrice(0));
    e := Apply(c, e, SendPrice(0));
    Then(c, start, e, SendMark);
    e := Apply(c, e, SendMark);
    Then(c, start, e, SendSubmit(true, true));
    e := Apply(c, e, SendSubmit(true, true));
  }

  /** Mined, taken by the user, and the OUT transfer taken back once its lock is over. */
  lemma TakenTwice(c: Config, start: State, s: State, x: Row, t: Tid, p: Preimage) returns (e: State)
    requires Ends(c, start, s) && s.chain.Keys == {t} && TxInFor(x, x.amount) in s.sent
    requires t != x.tid && x.tid == Tid(c.me, x.receiver, x.hashLock, x.chainId) && x.amount > 0
    requires s.chain[t].status == Pending && c.hash(p) == x.hashLock && 0 <= s.now
    requires Unix(s.now) < Unix(x.timeLock) < TWO64
    ensures Ends(c, start, e) && Has(e.chain, x.tid, Settled) && Has(e.chain, t, Returned)
  {
    hide Ends;
    e := s;
    var tx := TxInFor(x, x.amount);
    Then(c, start, e, Mine(tx));
    e := Apply(c, e, Mine(tx));
    Then(c, start, e, UserConfirm(x.tid, p));
    e := Apply(c, e, UserConfirm(x.tid, p));
    var late := s.chain[t].timelock * SECOND;
    var n := if late > e.now then late - e.now else 0;
    Wait(c, start, e, n);
    e := e.(now := e.now + n);
    Then(c, start, e, UserRefund(t));
    e := Apply(c, e, UserRefund(t));
  }

  /**
   * Without timing assumptions atomicity fails, for every transfer the relay accepts and would send: in some run the
   * user takes the IN transfer and later gets the OUT transfer back.
   */
  lemma AtomicityNeedsTiming(c: Config, t: Tid, d: Deposit, now: Time, p: Preimage) returns (e: State)
    requires Accepted(c, t, d, now) && c.hash(p) == t.lock
    ensures Reachable(c, e) && d.origin.OutLock?
    ensures Has(e.chain, InTidFor(t, d), Settled) && Has(e.chain, t, Returned)
  {
    hide Ends, QuoteFor, InTimeLock, Reachable;
    AcceptedLocks(c, t, d, now);
    var s := Recorded(c, t, d, now);
    var x := Inn(c, t, d, now);
    InShape(c, t, d);
    s := Sent(c, Init(now), s, x);
    e := TakenTwice(c, Init(now), s, x, t, p);
    EndsReachable(c, now, e);
  }

  lemma InShape(c: Config, t: Tid, d: Deposit)
    requires QuoteFor(c, t, d).Some?
    ensures d.origin.OutLock? && d.origin.dstChain in c.chains && t.receiver == c.me
  {
  }

  lemma EndsReachable(c: Config, now: Time, e: State)
    requires 0 <= now && Ends(c, Init(now), e)
    ensures Reachable(c, e)
  {
    hide Enabled, Apply;
    assert Legal(c, Init(now), []) && Exec(c, Init(now), []) == Init(now);
    var own :| Ran(c, Handler(Tick), Init(now), e, own);
    RanIsReachable(c, Handler(Tick), Init(now), e, own);
  }
}
