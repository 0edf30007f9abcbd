/** What the relay guarantees in every reachable state and along every run. */
module Safety {
  import opened Types
  import opened Scaling
  import opened TimeLock
  import opened Dal
  import opened Ledger
  import opened Protocol
  import opened Frames
  import opened Invariant
  import opened Preserve

  // ----- database and chain -----

  /** CONFIRMED and REFUNDED rows are settled and returned on chain; a row past its sending states is on chain. */
  lemma DatabaseAgreesWithChain(c: Config, s: State, t: Tid)
    requires Reachable(c, s) && t in s.table
    ensures s.table[t].status == Confirmed ==> Has(s.chain, t, Settled)
    ensures s.table[t].status == Refunded ==> Has(s.chain, t, Returned)
    ensures !Unsent(s.table[t].status) ==> t in s.chain
  {
    ReachableInv(c, s);
    RowFacts(c, s, t);
    assert t in s.chain ==> DepositOk(c, s, t, s.chain[t]);
  }

  /** CONFIRMED and REFUNDED are never left, whatever stale job or repeated event writes next. */
  lemma TerminalIsAbsorbing(c: Config, s: State, acts: seq<Action>, t: Tid)
    requires Reachable(c, s) && Legal(c, s, acts) && t in s.table && Terminal(s.table[t].status)
    ensures t in Exec(c, s, acts).table && Exec(c, s, acts).table[t].status == s.table[t].status
  {
    hide Inv, Enabled, Apply;
    ReachableInv(c, s);
    RunKeeps(c, s, acts);
    assert RowGrows(s.table[t], Exec(c, s, acts).table[t]);
  }

  // ----- preimages -----

  /** A stored preimage opens its row's lock, a CONFIRMED row has one, and so does every `confirm` handed over. */
  lemma PreimagesAreSound(c: Config, s: State)
    requires Reachable(c, s)
    ensures forall t :: t in s.table && s.table[t].preimage.Some? ==>
              c.hash(s.table[t].preimage.value) == s.table[t].hashLock
    ensures forall t :: t in s.table && s.table[t].status == Confirmed ==> s.table[t].preimage.Some?
    ensures forall chain, t, p :: TxConfirm(chain, t, p) in s.sent ==> t.chain == chain && c.hash(p) == t.lock
  {
    ReachableInv(c, s);
    hide RowOk;
    forall t | t in s.table
      ensures s.table[t].preimage.Some? ==> c.hash(s.table[t].preimage.value) == s.table[t].hashLock
      ensures s.table[t].status == Confirmed ==> s.table[t].preimage.Some?
    {
      RowFacts(c, s, t);
    }
    forall chain, t, p | TxConfirm(chain, t, p) in s.sent
      ensures t.chain == chain && c.hash(p) == t.lock
    {
      assert TxOk(c, s, TxConfirm(chain, t, p));
    }
  }

  /** A `confirm` the relay handed over fails on chain only when the transfer is no longer pending. */
  lemma SubmittedConfirmIsAccepted(c: Config, s: State, t: Tid, p: Preimage)
    requires Reachable(c, s) && TxConfirm(t.chain, t, p) in s.sent
    ensures t in s.chain
    ensures s.chain[t].status == Pending ==>
              Enabled(c, s, Mine(TxConfirm(t.chain, t, p))) &&
              Has(Apply(c, s, Mine(TxConfirm(t.chain, t, p))).chain, t, Settled)
  {
    ReachableInv(c, s);
    assert TxOk(c, s, TxConfirm(t.chain, t, p));
  }

  /** The relay only ever claims an IN transfer for the user after its own OUT transfer is settled. */
  lemma StuckConfirmationIsPaid(c: Config, s: State, t: Tid)
    requires Reachable(c, s) && t in s.table && s.table[t].kind == TransferIn
    requires s.table[t].status == ConfirmPending || exists p :: TxConfirm(t.chain, t, p) in s.sent
    ensures Has(s.chain, s.table[t].relTid, Settled)
  {
    ReachableInv(c, s);
    if s.table[t].status == ConfirmPending {
      assert RowOk(c, s, s.table[t]);
    } else {
      var p :| TxConfirm(t.chain, t, p) in s.sent;
      assert TxOk(c, s, TxConfirm(t.chain, t, p));
    }
  }

  // ----- money -----

  /** What the handler looks up for an OUT deposit it serves: the same token on the other chain, the scaled amount. */
  ghost predicate Served(c: Config, out: Tid, d: Deposit, dstChain: ChainId, dstToken: Token, total: int) {
    && d.origin.OutLock? && d.origin.dstChain == dstChain && out.receiver == c.me && d.amount >= 0
    && (out.chain, d.token) in c.tokenName
    && (dstChain, c.tokenName[(out.chain, d.token)]) in c.tokenAddr
    && dstToken == c.tokenAddr[(dstChain, c.tokenName[(out.chain, d.token)])]
    && (out.chain, d.token) in c.decimals && (dstChain, dstToken) in c.decimals
    && (var src, dst := c.decimals[(out.chain, d.token)], c.decimals[(dstChain, dstToken)];
        && (dst <= src <= dst + 19 ==> total == d.amount / Pow10(src - dst))
        && (src <= dst <= src + 19 ==> total == d.amount * Pow10(dst - src))
        && (src <= dst + 19 ==> total * Pow10(src) <= d.amount * Pow10(dst)))
  }

  lemma QuoteServes(c: Config, out: Tid, d: Deposit)
    requires QuoteFor(c, out, d).Some?
    ensures d.origin.OutLock? && InTidFor(out, d) == Tid(c.me, d.origin.dstAddr, out.lock, d.origin.dstChain)
    ensures Served(c, out, d, d.origin.dstChain, QuoteFor(c, out, d).value.dstToken, QuoteFor(c, out, d).value.amount)
  {
    var q := QuoteFor(c, out, d).value;
    var src, dst := c.decimals[(out.chain, d.token)], c.decimals[(d.origin.dstChain, q.dstToken)];
    QuoteIsScaled(c, out, d);
    hide QuoteFor;
    if src <= dst + 19 {
      ScalingSolvent(src, dst, d.amount);
    }
    if dst <= src <= dst + 19 {
      WrapsExactlyFrom20(src - dst);
    }
    if src <= dst <= src + 19 {
      WrapsExactlyFrom20(dst - src);
    }
  }

  lemma QuoteIsScaled(c: Config, out: Tid, d: Deposit)
    requires QuoteFor(c, out, d).Some?
    ensures d.amount >= 0 && d.origin.OutLock? && out.receiver == c.me && (out.chain, d.token) in c.tokenName
    ensures (d.origin.dstChain, c.tokenName[(out.chain, d.token)]) in c.tokenAddr
    ensures QuoteFor(c, out, d).value.dstToken == c.tokenAddr[(d.origin.dstChain, c.tokenName[(out.chain, d.token)])]
    ensures (out.chain, d.token) in c.decimals
    ensures (d.origin.dstChain, QuoteFor(c, out, d).value.dstToken) in c.decimals
    ensures DstAmount(c.decimals[(out.chain, d.token)],
                      c.decimals[(d.origin.dstChain, QuoteFor(c, out, d).value.dstToken)], d.amount)
            == Some(QuoteFor(c, out, d).value.amount)
  {
  }

  /**
   * Amount plus fee of an IN row is the OUT amount scaled between the decimals of the two tokens, which have the same
   * name, and neither part is negative.
   */
  lemma AmountIsConserved(c: Config, s: State, t: Tid)
    requires Reachable(c, s) && t in s.table && s.table[t].kind == TransferIn
    ensures 0 <= s.table[t].amount && 0 <= s.table[t].fee
    ensures var r := s.table[t];
            r.relTid in s.chain && Served(c, r.relTid, s.chain[r.relTid], r.chainId, r.token, r.amount + r.fee)
  {
    hide *;
    ReachableInv(c, s);
    ServedRow(c, s, t);
    ServedQuote(c, s, t);
  }

  lemma ServedQuote(c: Config, s: State, t: Tid)
    requires t in s.table && s.table[t].relTid in s.chain
    requires QuoteFor(c, s.table[t].relTid, s.chain[s.table[t].relTid]).Some?
    requires s.chain[s.table[t].relTid].origin.OutLock?
    requires s.table[t].chainId == s.chain[s.table[t].relTid].origin.dstChain
    requires s.table[t].token == QuoteFor(c, s.table[t].relTid, s.chain[s.table[t].relTid]).value.dstToken
    requires s.table[t].amount + s.table[t].fee ==
             QuoteFor(c, s.table[t].relTid, s.chain[s.table[t].relTid]).value.amount
    ensures var r := s.table[t];
            Served(c, r.relTid, s.chain[r.relTid], r.chainId, r.token, r.amount + r.fee)
  {
    hide QuoteFor, Served;
    QuoteServes(c, s.table[t].relTid, s.chain[s.table[t].relTid]);
  }

  lemma ServedRow(c: Config, s: State, t: Tid)
    requires Inv(c, s) && t in s.table && s.table[t].kind == TransferIn
    ensures var r := s.table[t];
            && 0 <= r.amount && 0 <= r.fee && r.relTid in s.chain
            && (var d := s.chain[r.relTid];
                && QuoteFor(c, r.relTid, d).Some? && d.origin.OutLock? && r.chainId == d.origin.dstChain
                && r.token == QuoteFor(c, r.relTid, d).value.dstToken
                && r.amount + r.fee == QuoteFor(c, r.relTid, d).value.amount)
  {
    hide LockDerived, SendOk, ConfOk, RefOk, RecOk, TxOk, NoteOk;
    assert RowOk(c, s, s.table[t]);
    assert RowOk(c, s, s.table[s.table[t].relTid]);
  }

  /**
   * Whatever the relay has locked for a user is backed by the one OUT deposit it names, addressed to the relay, in the
   * token of the same name, and is worth no more than it, for every gap that the power loop computes exactly; its lock
   * ends at least 28800 seconds earlier.
   */
  lemma LockedInIsBacked(c: Config, s: State, t: Tid)
    requires Reachable(c, s) && t in s.chain && t.sender == c.me
    ensures s.chain[t].origin.InLock? && s.chain[t].origin.srcTid in s.chain
    ensures var out := s.chain[t].origin.srcTid;
            var d := s.chain[out];
            && d.origin.OutLock? && t == Tid(c.me, d.origin.dstAddr, out.lock, d.origin.dstChain)
            && s.chain[t].timelock + 28_800 <= d.timelock
            && (exists total: int ::
                  s.chain[t].amount <= total && Served(c, out, d, t.chain, s.chain[t].token, total))
  {
    ReachableInv(c, s);
    OwnDeposit(c, s, t);
    hide Inv, QuoteFor, Served;
    var out := s.chain[t].origin.srcTid;
    QuoteServes(c, out, s.chain[out]);
  }

  /** The rows behind a deposit of the relay. */
  lemma OwnDeposit(c: Config, s: State, t: Tid)
    requires Inv(c, s) && t in s.chain && t.sender == c.me
    ensures t in s.table && s.table[t].kind == TransferIn
    ensures s.chain[t].origin.InLock? && s.chain[t].origin.srcTid == s.table[t].relTid
    ensures s.table[t].relTid in s.table && s.table[t].relTid in s.chain
    ensures var out := s.table[t].relTid;
            var d := s.chain[out];
            && QuoteFor(c, out, d).Some? && InTidFor(out, d) == t
            && s.chain[t].token == QuoteFor(c, out, d).value.dstToken
            && s.chain[t].amount <= QuoteFor(c, out, d).value.amount
            && s.chain[t].timelock + 28_800 <= d.timelock
  {
    hide QuoteFor, LockDerived, SendOk, ConfOk, RefOk, RecOk, TxOk, NoteOk;
    assert DepositOk(c, s, t, s.chain[t]);
    LockInRange(c, s, t);
    assert RowOk(c, s, s.table[t]);
    assert RowOk(c, s, s.table[s.table[t].relTid]);
  }

  /** One OUT deposit backs at most one locked IN transfer. */
  lemma BackingIsExclusive(c: Config, s: State, t: Tid, u: Tid)
    requires Reachable(c, s) && t in s.chain && u in s.chain && t.sender == c.me && u.sender == c.me
    requires s.chain[t].origin.InLock? && s.chain[u].origin.InLock?
    requires s.chain[t].origin.srcTid == s.chain[u].origin.srcTid
    ensures t == u
  {
    ReachableInv(c, s);
    OwnDeposit(c, s, t);
    OwnDeposit(c, s, u);
  }

  // ----- fees -----

  /** Somewhere in the run the send job stored this fee for `t`. */
  ghost predicate Priced(c: Config, s: State, acts: seq<Action>, t: Tid, fee: int)
    requires Legal(c, s, acts)
    decreases |acts|
  {
    acts != [] && (PricesNow(s, acts[0], t, fee) || Priced(c, Apply(c, s, acts[0]), acts[1..], t, fee))
  }

  predicate PricesNow(s: State, a: Action, t: Tid, fee: int) {
    a == SendPrice(fee) && s.send.SendPricing? && s.send.x.tid == t
  }

  /** The transfer a submitted transferIn creates. */
  function CreatedBy(c: Config, tx: Tx): Tid
    requires tx.TxIn?
  {
    Tid(c.me, tx.receiver, tx.lock, tx.chain)
  }

  /** The send job is about to hand `amount` over for `t`. */
  ghost predicate Holding(s: State, t: Tid, amount: int) {
    (s.send.SendMarking? || s.send.SendFirst? || s.send.SendAgain?) && s.send.x.tid == t && s.send.amount == amount
  }

  /** Along every run each submitted amount is the row's total less a fee stored for that row earlier in the run. */
  lemma SubmittedAmountIsPriced(c: Config, now: Time, acts: seq<Action>, tx: Tx)
    requires 0 <= now && Legal(c, Init(now), acts) && tx.TxIn? && tx in Exec(c, Init(now), acts).sent
    ensures CreatedBy(c, tx) in Exec(c, Init(now), acts).table
    ensures exists fee: int ::
              && Priced(c, Init(now), acts, CreatedBy(c, tx), fee)
              && tx.amount + fee == Exec(c, Init(now), acts).table[CreatedBy(c, tx)].Total()
  {
    hide Inv, Enabled, Apply;
    InitOk(c, now);
    RunKeeps(c, Init(now), acts);
    SubmissionIsListed(c, Exec(c, Init(now), acts), tx);
    HandedWasPriced(c, Init(now), acts, CreatedBy(c, tx), tx);
  }

  lemma SubmissionIsListed(c: Config, s: State, tx: Tx)
    requires Inv(c, s) && tx.TxIn? && tx in s.sent
    ensures CreatedBy(c, tx) in s.table
  {
    assert TxOk(c, s, tx);
  }

  lemma {:induction false} HandedWasPriced(c: Config, s: State, acts: seq<Action>, t: Tid, tx: Tx)
    requires Inv(c, s) && Legal(c, s, acts) && tx.TxIn? && t == CreatedBy(c, tx)
    requires tx in Exec(c, s, acts).sent && tx !in s.sent && !Holding(s, t, tx.amount)
    ensures t in Exec(c, s, acts).table
    ensures exists fee: int :: Priced(c, s, acts, t, fee) && tx.amount + fee == Exec(c, s, acts).table[t].Total()
    decreases |acts|
  {
    hide Inv, Enabled, Apply, Holding, PricesNow;
    if acts != [] {
      var a, m := acts[0], Apply(c, s, acts[0]);
      StepKeeps(c, s, a);
      RunKeeps(c, m, acts[1..]);
      if tx in m.sent {
        HandsWhatItHolds(c, s, a, tx);
        assert false;
      } else if Holding(m, t, tx.amount) {
        var fee := PicksUp(c, s, a, t, tx.amount);
        assert RowGrows(m.table[t], Exec(c, m, acts[1..]).table[t]);
        assert Priced(c, s, acts, t, fee);
      } else {
        HandedWasPriced(c, m, acts[1..], t, tx);
        var fee :| Priced(c, m, acts[1..], t, fee) && tx.amount + fee == Exec(c, m, acts[1..]).table[t].Total();
        assert Priced(c, s, acts, t, fee);
      }
    }
  }

  /** A submission hands over what the job holds. */
  lemma HandsWhatItHolds(c: Config, s: State, a: Action, tx: Tx)
    requires Inv(c, s) && Enabled(c, s, a) && tx.TxIn? && tx in Apply(c, s, a).sent && tx !in s.sent
    ensures Holding(s, CreatedBy(c, tx), tx.amount)
  {
    hide Enabled, Apply;
    match Who(a) {
      case Environment => EnvironmentFrame(c, s, a);
      case Monitors => MonitorFrame(c, s, a);
      case SendJob =>
        SendHands(c, s, a);
        CallNamesRow(c, s, s.send.x, s.send.amount);
      case ConfirmJob => ConfirmHands(c, s, a);
      case RefundJob => RefundHands(c, s, a);
      case RecoverJob => RecoverFrame(c, s, a);
    }
  }

  lemma CallNamesRow(c: Config, s: State, x: Row, amount: int)
    requires Inv(c, s) && (s.send.SendFirst? || s.send.SendAgain?) && s.send.x == x && s.send.amount == amount
    ensures CreatedBy(c, TxInFor(x, amount)) == x.tid && TxInFor(x, amount).amount == amount
  {
    hide TableOk, ChainOk, SentOk, MonitorsOk, ConfOk, RefOk, RecOk;
    assert SendRowOk(s, x);
    ListedShape(c, s, x.tid);
  }

  lemma ListedShape(c: Config, s: State, t: Tid)
    requires TableOk(c, s) && t in s.table && s.table[t].kind == TransferIn
    ensures t == Tid(c.me, s.table[t].receiver, s.table[t].hashLock, s.table[t].chainId)
  {
    hide RowMatchesChain, OutRowOk, LockDerived, QuoteFor;
    RowFacts(c, s, t);
  }

  /** The job comes to hold an amount only by pricing: the amount is the row's total less the fee stored. */
  lemma PicksUp(c: Config, s: State, a: Action, t: Tid, amount: int) returns (fee: int)
    requires Inv(c, s) && Enabled(c, s, a) && !Holding(s, t, amount) && Holding(Apply(c, s, a), t, amount)
    ensures PricesNow(s, a, t, fee) && t in Apply(c, s, a).table && amount + fee == Apply(c, s, a).table[t].Total()
  {
    hide Enabled, Apply, TableOk, ChainOk, SentOk, MonitorsOk, ConfOk, RefOk, RecOk, Selects, TxInFor, ReadSafe;
    OnlySendJobPicksUp(c, s, a, t, amount);
    SendApplies(c, s, a);
    assert SendRowOk(s, s.send.x);
    fee := a.fee;
  }

  lemma OnlySendJobPicksUp(c: Config, s: State, a: Action, t: Tid, amount: int)
    requires Enabled(c, s, a) && !Holding(s, t, amount) && Holding(Apply(c, s, a), t, amount)
    ensures Who(a) == SendJob && a.SendPrice? && s.send.SendPricing? && s.send.x.tid == t
  {
    hide Enabled, Apply, Selects, TxInFor, ReadSafe, StatusSwapped, AmountAndFeeSet;
    match Who(a) {
      case Environment => EnvironmentFrame(c, s, a);
      case Monitors => MonitorFrame(c, s, a);
      case SendJob => SendApplies(c, s, a);
      case ConfirmJob => ConfirmFrame(c, s, a);
      case RefundJob => RefundFrame(c, s, a);
      case RecoverJob => RecoverFrame(c, s, a);
    }
  }

  function FeeOf(s: State, t: Tid): int {
    if t in s.table then s.table[t].fee else 0
  }

  /** Along every run the fee column of a row is zero or a fee stored for that very row: never a part of the amount. */
  lemma StoredFeeIsPriced(c: Config, now: Time, acts: seq<Action>, t: Tid)
    requires Legal(c, Init(now), acts) && t in Exec(c, Init(now), acts).table
    ensures var fee := Exec(c, Init(now), acts).table[t].fee;
            fee == 0 || Priced(c, Init(now), acts, t, fee)
  {
    hide Enabled, Apply;
    FeeWasPriced(c, Init(now), acts, t);
  }

  lemma {:induction false} FeeWasPriced(c: Config, s: State, acts: seq<Action>, t: Tid)
    requires Legal(c, s, acts)
    ensures FeeOf(Exec(c, s, acts), t) == FeeOf(s, t) || Priced(c, s, acts, t, FeeOf(Exec(c, s, acts), t))
    decreases |acts|
  {
    hide Enabled, Apply, FeeOf, PricesNow;
    if acts != [] {
      FeeStep(c, s, acts[0], t);
      FeeWasPriced(c, Apply(c, s, acts[0]), acts[1..], t);
    }
  }

  lemma FeeStep(c: Config, s: State, a: Action, t: Tid)
    requires Enabled(c, s, a)
    ensures FeeOf(Apply(c, s, a), t) == FeeOf(s, t) || PricesNow(s, a, t, FeeOf(Apply(c, s, a), t))
  {
    hide Enabled, Apply;
    match Who(a) {
      case Environment => EnvironmentFrame(c, s, a);
      case Monitors => MonitorFee(c, s, a, t);
      case SendJob => SendFee(c, s, a, t);
      case ConfirmJob => ConfirmFee(c, s, a, t);
      case RefundJob => RefundFee(c, s, a, t);
      case RecoverJob => RecoverFee(c, s, a, t);
    }
  }

  lemma MonitorFee(c: Config, s: State, a: Action, t: Tid)
    requires Enabled(c, s, a) && Who(a) == Monitors
    ensures FeeOf(Apply(c, s, a), t) == FeeOf(s, t)
  {
    hide Enabled, Apply, QuoteFor, InTimeLock;
    MonitorWrites(c, s, a);
  }

  lemma SendFee(c: Config, s: State, a: Action, t: Tid)
    requires Enabled(c, s, a) && Who(a) == SendJob
    ensures FeeOf(Apply(c, s, a), t) == FeeOf(s, t) || PricesNow(s, a, t, FeeOf(Apply(c, s, a), t))
  {
    hide Enabled, Apply, Selects, TxInFor, ReadSafe, Pooled;
    SendApplies(c, s, a);
  }

  lemma ConfirmFee(c: Config, s: State, a: Action, t: Tid)
    requires Enabled(c, s, a) && Who(a) == ConfirmJob
    ensures FeeOf(Apply(c, s, a), t) == FeeOf(s, t)
  {
    hide Enabled, Apply, Selects, ReadSafe, Pooled;
    ConfirmApplies(c, s, a);
  }

  lemma RefundFee(c: Config, s: State, a: Action, t: Tid)
    requires Enabled(c, s, a) && Who(a) == RefundJob
    ensures FeeOf(Apply(c, s, a), t) == FeeOf(s, t)
  {
    hide Enabled, Apply, Selects, ReadSafe, Pooled;
    RefundApplies(c, s, a);
  }

  lemma RecoverFee(c: Config, s: State, a: Action, t: Tid)
    requires Enabled(c, s, a) && Who(a) == RecoverJob
    ensures FeeOf(Apply(c, s, a), t) == FeeOf(s, t)
  {
    hide Enabled, Apply, Selects;
    RecoverApplies(c, s, a);
  }

  // ----- creations -----

  /** How many actions of a run bring `t` onto its chain. */
  ghost function Creations(c: Config, s: State, acts: seq<Action>, t: Tid): nat
    requires Legal(c, s, acts)
    decreases |acts|
  {
    if acts == [] then 0
    else
      var m := Apply(c, s, acts[0]);
      (if t !in s.chain && t in m.chain then 1 else 0) + Creations(c, m, acts[1..], t)
  }

  /** However many retries, recoveries and late submissions a run holds, an id is locked at most once. */
  lemma {:induction false} LockedAtMostOnce(c: Config, s: State, acts: seq<Action>, t: Tid)
    requires Inv(c, s) && Legal(c, s, acts)
    ensures Creations(c, s, acts, t) <= if t in s.chain then 0 else 1
    ensures t in s.chain ==> t in Exec(c, s, acts).chain && DepositGrows(s.chain[t], Exec(c, s, acts).chain[t])
    decreases |acts|
  {
    hide Inv, Enabled, Apply;
    RunKeeps(c, s, acts);
    if acts != [] {
      StepKeeps(c, s, acts[0]);
      LockedAtMostOnce(c, Apply(c, s, acts[0]), acts[1..], t);
    }
  }

  // ----- references between rows -----

  /** An IN row names an OUT row that points back, with the same lock and crossed chains and tokens. */
  lemma ReferencesAreIntact(c: Config, s: State, t: Tid)
    requires Reachable(c, s) && t in s.table && s.table[t].kind == TransferIn
    ensures s.table[t].relTid in s.table
    ensures var r := s.table[t];
            var o := s.table[r.relTid];
            && o.kind == TransferOut && o.relTid == t && o.hashLock == r.hashLock
            && o.chainId == r.relChain && o.relChain == r.chainId && o.token == r.relToken && o.relToken == r.token
  {
    ReachableInv(c, s);
    RowFacts(c, s, t);
    assert RowOk(c, s, s.table[t]);
    assert RowOk(c, s, s.table[s.table[t].relTid]);
  }

  /** Several OUT rows may name one IN row, but two IN rows never name one OUT row. */
  lemma ReferencesAreInjective(c: Config, s: State, t: Tid, u: Tid)
    requires Reachable(c, s) && t in s.table && u in s.table
    requires s.table[t].kind == TransferIn && s.table[u].kind == TransferIn && s.table[t].relTid == s.table[u].relTid
    ensures t == u
  {
    ReferencesAreIntact(c, s, t);
    ReferencesAreIntact(c, s, u);
  }

  predicate OutDelivery(a: Action) {
    a.OutFirst? || a.OutSecond? || a.OutDrop?
  }

  /** TransferOut events, redelivered in any number and order and handled half or whole, change no row already there. */
  lemma {:induction false} RedeliveryChangesNothing(c: Config, s: State, acts: seq<Action>, t: Tid)
    requires Legal(c, s, acts) && t in s.table && forall a :: a in acts ==> OutDelivery(a)
    ensures t in Exec(c, s, acts).table && Exec(c, s, acts).table[t] == s.table[t]
    decreases |acts|
  {
    hide Enabled, Apply, OutDelivery;
    if acts != [] {
      OutDeliveryKeepsRow(c, s, acts[0], t);
      RedeliveryChangesNothing(c, Apply(c, s, acts[0]), acts[1..], t);
    }
  }

  lemma OutDeliveryKeepsRow(c: Config, s: State, a: Action, t: Tid)
    requires Enabled(c, s, a) && OutDelivery(a) && t in s.table
    ensures t in Apply(c, s, a).table && Apply(c, s, a).table[t] == s.table[t]
  {
    hide Enabled, Apply, QuoteFor, InTimeLock, OutEvent, OutRowFor, InRowFor;
    MonitorWrites(c, s, a);
  }

  // ----- time locks -----

  /**
   * An IN row expires at least eight hours before its OUT transfer; exactly eight hours, and at least eight hours after
   * the event was handled, if and only if the remaining time did not overflow a Duration when it was handled.
   */
  lemma InLockGap(c: Config, s: State, t: Tid) returns (ts: Time)
    requires Reachable(c, s) && t in s.table && s.table[t].kind == TransferIn
    ensures s.table[t].relTid in s.chain && 0 <= ts <= s.table[t].createTs
    ensures var lock := s.chain[s.table[t].relTid].timelock;
            var mine := s.table[t].timeLock;
            && mine / 1_000_000_000 + 28_800 <= lock
            && (mine / 1_000_000_000 + 28_800 == lock <==>
                  lock - ts / 1_000_000_000 - 28_800 <= MAX_DURATION_SECONDS)
            && (mine / 1_000_000_000 + 28_800 == lock ==> mine >= ts + 28_800_000_000_000)
  {
    ReachableInv(c, s);
    ts := HandlingTime(c, s, t);
    var lock := s.chain[s.table[t].relTid].timelock;
    hide Inv;
    AcceptedLock(lock, ts);
    LockGap(lock, ts);
  }

  lemma HandlingTime(c: Config, s: State, t: Tid) returns (ts: Time)
    requires Inv(c, s) && t in s.table && s.table[t].kind == TransferIn
    ensures s.table[t].relTid in s.chain && 0 <= ts <= s.table[t].createTs
    ensures 0 <= s.chain[s.table[t].relTid].timelock < TWO64
    ensures InTimeLock(s.chain[s.table[t].relTid].timelock, ts) == Some(s.table[t].timeLock)
  {
    hide InTimeLock, QuoteFor;
    var r := s.table[t];
    assert RowOk(c, s, r);
    assert DepositOk(c, s, r.relTid, s.chain[r.relTid]);
    ts :| 0 <= ts <= r.createTs && InTimeLock(s.chain[r.relTid].timelock, ts) == Some(r.timeLock);
  }

  // ----- claiming -----

  /** An OUT row has one of four statuses. */
  lemma OutStatuses(c: Config, s: State, t: Tid)
    requires Reachable(c, s) && t in s.table && s.table[t].kind == TransferOut
    ensures s.table[t].status == Locked || s.table[t].status == ConfirmPending || Terminal(s.table[t].status)
  {
    ReachableInv(c, s);
    assert RowOk(c, s, s.table[t]);
  }

  /** The recovery job is at row `t` of the list that query `q` gave it. */
  ghost predicate AtRow(s: State, q: Selection, t: Tid) {
    s.reco.RecRun? && s.reco.q == q && s.reco.rows != [] && s.reco.rows[0].tid == t
  }

  /**
   * An unfinished row with a preimage that is past its sending states and not being refunded is picked up at an instant
   * `n` exactly when it is LOCKED (by the confirm job), or its last try is over 15 minutes old and its lock over 6
   * minutes away (by recovery, whose restore makes it LOCKED).
   */
  lemma ClaimIsPickedUp(c: Config, s: State, t: Tid, n: Time)
    requires Reachable(c, s) && t in s.table
    requires s.table[t].kind == TransferOut || s.table[t].status == Locked || s.table[t].status == ConfirmPending
    requires s.table[t].preimage.Some? && !Terminal(s.table[t].status)
    ensures var r := s.table[t];
            Matches(ConfirmableLocked, r, n) || Matches(TimeoutPendingConfirm, r, n) <==>
            r.status == Locked || (r.updateTs + 900_000_000_000 < n && n + 360_000_000_000 < r.timeLock)
    ensures s.table[t].status == ConfirmPending && AtRow(s, TimeoutPendingConfirm, t) ==>
              && Enabled(c, s, RecRestore(true))
              && t in Apply(c, s, RecRestore(true)).table
              && Matches(ConfirmableLocked, Apply(c, s, RecRestore(true)).table[t], n)
  {
    if s.table[t].kind == TransferOut {
      OutStatuses(c, s, t);
    }
  }

  /**
   * A row stuck in IN_PENDING is picked up by recovery exactly when its last try is over 15 minutes old and its lock
   * over 6 minutes away; the restore makes it IN_START, and then the send job selects it while its lock is over an hour
   * away.
   */
  lemma SendIsRetried(c: Config, s: State, t: Tid, n: Time, later: Time)
    requires Reachable(c, s) && t in s.table && s.table[t].status == InPending
    ensures s.table[t].kind == TransferIn
    ensures Matches(TimeoutPendingIn, s.table[t], n) <==>
              s.table[t].updateTs + 900_000_000_000 < n && n + 360_000_000_000 < s.table[t].timeLock
    ensures AtRow(s, TimeoutPendingIn, t) ==>
              && Enabled(c, s, RecRestore(true)) && t in Apply(c, s, RecRestore(true)).table
              && Apply(c, s, RecRestore(true)).table[t].status == InStart
              && (Matches(StartTransferIn, Apply(c, s, RecRestore(true)).table[t], later) <==>
                    later + 3_600_000_000_000 < s.table[t].timeLock)
  {
    if s.table[t].kind == TransferOut {
      OutStatuses(c, s, t);
    }
  }

  /** A row being refunded is picked up by recovery once its last try is over 15 minutes old, then refundable again. */
  lemma RefundIsRetried(c: Config, s: State, t: Tid, n: Time, later: Time)
    requires Reachable(c, s) && t in s.table && s.table[t].status == RefundPending
    ensures s.table[t].kind == TransferIn
    ensures Matches(TimeoutPendingRefund, s.table[t], n) <==> s.table[t].updateTs + 900_000_000_000 < n
    ensures AtRow(s, TimeoutPendingRefund, t) ==>
              && Enabled(c, s, RecRestore(true)) && t in Apply(c, s, RecRestore(true)).table
              && Apply(c, s, RecRestore(true)).table[t].status == Locked
              && (Matches(RefundableIn, Apply(c, s, RecRestore(true)).table[t], later) <==>
                    s.table[t].timeLock < later)
  {
    if s.table[t].kind == TransferOut {
      OutStatuses(c, s, t);
    }
  }

  // ----- refund restraint -----

  /** The refund job has already decided to refund `t` and only the submission is left. */
  ghost predicate RefundDecided(s: State, t: Tid) {
    s.refu.RefCalling? && s.refu.x.tid == t
  }

  /** The refund submissions for `t` along a run. */
  ghost function RefundsOf(c: Config, s: State, acts: seq<Action>, t: Tid): nat
    requires Legal(c, s, acts)
    decreases |acts|
  {
    if acts == [] then 0
    else (if acts[0].RefRefund? && RefundDecided(s, t) then 1 else 0)
         + RefundsOf(c, Apply(c, s, acts[0]), acts[1..], t)
  }

  /**
   * Once the OUT confirmation shows at the safe block, no later pass refunds the linked IN, whatever it retries: no
   * such step is taken, and no refund transaction for it is handed over by any job.
   */
  lemma {:induction false} RefundIsRestrained(c: Config, s: State, acts: seq<Action>, t: Tid)
    requires Inv(c, s) && Legal(c, s, acts) && t in s.table && SafeIs(s, s.table[t].relTid, Settled)
    requires !RefundDecided(s, t)
    ensures RefundsOf(c, s, acts, t) == 0
    ensures TxRefund(t.chain, t) in Exec(c, s, acts).sent ==> TxRefund(t.chain, t) in s.sent
    decreases |acts|
  {
    hide Inv, Enabled, Apply, RefundDecided, Evolves;
    if acts != [] {
      var m := Apply(c, s, acts[0]);
      StepKeeps(c, s, acts[0]);
      StaysUndecided(c, s, acts[0], t);
      RefundHanded(c, s, acts[0], t);
      SettledStays(c, s, m, t);
      RefundIsRestrained(c, m, acts[1..], t);
    }
  }

  /** A refund transaction is handed over only where the refund job has decided to. */
  lemma RefundHanded(c: Config, s: State, a: Action, t: Tid)
    requires Enabled(c, s, a) && !RefundDecided(s, t)
    ensures TxRefund(t.chain, t) in Apply(c, s, a).sent ==> TxRefund(t.chain, t) in s.sent
  {
    hide Enabled, Apply;
    match Who(a) {
      case Environment => EnvironmentFrame(c, s, a);
      case Monitors => MonitorFrame(c, s, a);
      case SendJob => SendHands(c, s, a);
      case ConfirmJob => ConfirmHands(c, s, a);
      case RefundJob => RefundHands(c, s, a);
      case RecoverJob => RecoverFrame(c, s, a);
    }
  }

  /** What each job can hand over, per step. */
  lemma SendHands(c: Config, s: State, a: Action)
    requires Enabled(c, s, a) && Who(a) == SendJob
    ensures a.SendSubmit? ==> s.send.SendFirst? || s.send.SendAgain?
    ensures forall tx :: tx in Apply(c, s, a).sent && tx !in s.sent ==>
              a.SendSubmit? && tx == TxInFor(s.send.x, s.send.amount)
  {
    hide Enabled, Apply, Selects, StatusSwapped, AmountAndFeeSet, TxInFor, ReadSafe;
    SendApplies(c, s, a);
  }

  lemma ConfirmHands(c: Config, s: State, a: Action)
    requires Enabled(c, s, a) && Who(a) == ConfirmJob
    ensures a.ConfSubmit? ==> s.conf.ConfCalling?
    ensures forall tx :: tx in Apply(c, s, a).sent && tx !in s.sent ==>
              a.ConfSubmit? && tx == TxConfirm(s.conf.x.chainId, s.conf.x.tid, s.conf.x.Decoded())
  {
    hide Enabled, Apply, Selects, StatusSwapped, StatusSet, ConfirmedIn, ReadSafe;
    ConfirmApplies(c, s, a);
  }

  lemma RefundHands(c: Config, s: State, a: Action)
    requires Enabled(c, s, a) && Who(a) == RefundJob
    ensures forall tx :: tx in Apply(c, s, a).sent && tx !in s.sent ==>
              || (s.refu.RefConfirming? && tx == TxConfirm(s.refu.x.chainId, s.refu.x.tid, s.refu.p))
              || (s.refu.RefCalling? && tx == TxRefund(s.refu.x.chainId, s.refu.x.tid))
  {
    hide Enabled, Apply, Selects, StatusSwapped, StatusSet, ReadSafe;
    RefundApplies(c, s, a);
  }

  lemma SettledStays(c: Config, s: State, s': State, t: Tid)
    requires Evolves(s, s') && t in s.table && SafeIs(s, s.table[t].relTid, Settled)
    ensures t in s'.table && SafeIs(s', s'.table[t].relTid, Settled)
  {
    assert RowGrows(s.table[t], s'.table[t]);
  }

  lemma StaysUndecided(c: Config, s: State, a: Action, t: Tid)
    requires Inv(c, s) && Enabled(c, s, a) && t in s.table && SafeIs(s, s.table[t].relTid, Settled)
    requires !RefundDecided(s, t)
    ensures !RefundDecided(Apply(c, s, a), t)
  {
    hide TableOk, ChainOk, SentOk, MonitorsOk, SendOk, ConfOk, RecOk, Selects;
    if Who(a) == RefundJob {
      assert s.refu.RefReadingOut? ==> RefRowOk(s, s.refu.x);
    } else {
      OthersLeaveRefund(c, s, a);
    }
  }

  lemma OthersLeaveRefund(c: Config, s: State, a: Action)
    requires Enabled(c, s, a) && Who(a) != RefundJob
    ensures Apply(c, s, a).refu == s.refu || Apply(c, s, a).refu == RefIdle
  {
    hide Enabled, Apply;
    match Who(a) {
      case Environment => EnvironmentFrame(c, s, a);
      case Monitors => MonitorFrame(c, s, a);
      case SendJob => SendFrame(c, s, a);
      case ConfirmJob => ConfirmFrame(c, s, a);
      case RecoverJob => RecoverFrame(c, s, a);
    }
  }

  // ----- event confluence -----

  ghost predicate Delivers(acts: seq<Action>, a: Action) {
    a in acts
  }

  /** What a delivered event leaves of an existing row, whatever else the run holds before, between and after. */
  lemma {:induction false} DeliveryIsFinal(c: Config, s: State, acts: seq<Action>, t: Tid)
    requires Inv(c, s) && Legal(c, s, acts) && t in s.table
    ensures t in Exec(c, s, acts).table
    ensures Delivers(acts, ConfirmFirst(t)) ==> Exec(c, s, acts).table[t].status == Confirmed
    ensures Delivers(acts, RefundSeen(t)) ==> Exec(c, s, acts).table[t].status == Refunded
    ensures Delivers(acts, InSeen(t)) ==> !Unsent(Exec(c, s, acts).table[t].status)
    ensures Delivers(acts, ConfirmSecond(s.table[t].relTid)) ==> Exec(c, s, acts).table[t].preimage.Some?
    decreases |acts|
  {
    hide Inv, Enabled, Apply;
    if acts != [] {
      var a, m := acts[0], Apply(c, s, acts[0]);
      StepKeeps(c, s, a);
      RunKeeps(c, m, acts[1..]);
      assert RowGrows(s.table[t], m.table[t]);
      assert RowGrows(m.table[t], Exec(c, m, acts[1..]).table[t]);
      DeliveryIsFinal(c, m, acts[1..], t);
      DeliveryActs(c, s, a, t);
      assert acts == [a] + acts[1..];
    }
  }

  lemma DeliveryActs(c: Config, s: State, a: Action, t: Tid)
    requires Enabled(c, s, a) && t in s.table && t in Apply(c, s, a).table
    ensures a == ConfirmFirst(t) ==> Apply(c, s, a).table[t].status == Confirmed
    ensures a == RefundSeen(t) ==> Apply(c, s, a).table[t].status == Refunded
    ensures a == InSeen(t) ==> !Unsent(Apply(c, s, a).table[t].status)
    ensures a == ConfirmSecond(s.table[t].relTid) ==> Apply(c, s, a).table[t].preimage.Some?
  {
    if a.ConfirmFirst? || a.RefundSeen? || a.InSeen? || a.ConfirmSecond? {
      hide Enabled, Apply, OutEvent, QuoteFor, Inserted;
      MonitorWrites(c, s, a);
    }
  }

  /**
   * Two runs from the same state that have both delivered the same terminal event of an existing row, in any order, any
   * number of times and however interleaved with the jobs, agree on its status; and, unless the hash collides, on its
   * preimage once one has been delivered to it.
   */
  lemma EventsAreConfluent(c: Config, s: State, acts: seq<Action>, bcts: seq<Action>, t: Tid)
    requires Reachable(c, s) && Legal(c, s, acts) && Legal(c, s, bcts) && t in s.table
    ensures t in Exec(c, s, acts).table && t in Exec(c, s, bcts).table
    ensures Delivers(acts, ConfirmFirst(t)) && Delivers(bcts, ConfirmFirst(t)) ==>
              Exec(c, s, acts).table[t].status == Exec(c, s, bcts).table[t].status == Confirmed
    ensures Delivers(acts, RefundSeen(t)) && Delivers(bcts, RefundSeen(t)) ==>
              Exec(c, s, acts).table[t].status == Exec(c, s, bcts).table[t].status == Refunded
    ensures (forall p, q :: c.hash(p) == c.hash(q) ==> p == q) && Revealed(c, s, acts, t) && Revealed(c, s, bcts, t) ==>
              Exec(c, s, acts).table[t].preimage == Exec(c, s, bcts).table[t].preimage
  {
    hide Inv, Enabled, Apply, RowOk;
    ReachableInv(c, s);
    DeliveryIsFinal(c, s, acts, t);
    DeliveryIsFinal(c, s, bcts, t);
    RunKeeps(c, s, acts);
    RunKeeps(c, s, bcts);
    EndRow(c, s, Exec(c, s, acts), t);
    EndRow(c, s, Exec(c, s, bcts), t);
  }

  ghost predicate Revealed(c: Config, s: State, acts: seq<Action>, t: Tid)
    requires t in s.table
  {
    Delivers(acts, ConfirmFirst(t)) || Delivers(acts, ConfirmSecond(s.table[t].relTid))
  }

  lemma EndRow(c: Config, s: State, e: State, t: Tid)
    requires Inv(c, e) && Evolves(s, e) && t in s.table
    ensures t in e.table && e.table[t].hashLock == s.table[t].hashLock
    ensures e.table[t].status == Confirmed ==> e.table[t].preimage.Some?
    ensures e.table[t].preimage.Some? ==> c.hash(e.table[t].preimage.value) == e.table[t].hashLock
  {
    hide RowOk;
    RowFacts(c, e, t);
    assert RowGrows(s.table[t], e.table[t]);
  }
}
