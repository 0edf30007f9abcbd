/**
 * The relay as a transition system: one action per database statement, chain read or submission, and the
 * environment's moves. Every job is its own sequential actor that keeps stale copies of rows between its steps.
 */
module Protocol {
  import opened Types
  import opened Scaling
  import opened TimeLock
  import opened Dal
  import opened Ledger

  /** A transaction the relay has handed to the network. */
  datatype Tx =
    | TxIn(chain: ChainId, receiver: Addr, token: Token, amount: int, lock: HashLock, timelock: int,
           srcChain: ChainId, srcTid: Tid)
    | TxConfirm(chain: ChainId, tid: Tid, preimage: Preimage)
    | TxRefund(chain: ChainId, tid: Tid)

  /** A TransferOut handler between its two inserts: the event's id and the clock it read. */
  datatype Note = Note(tid: Tid, ts: Time)

  datatype SendPc =
    | SendIdle
    | SendNext(rows: seq<Row>)
    | SendReading(x: Row, rest: seq<Row>)
    | SendFixing(x: Row, rest: seq<Row>)
    | SendPricing(x: Row, rest: seq<Row>)
    | SendMarking(x: Row, rest: seq<Row>, amount: int)
    | SendFirst(x: Row, rest: seq<Row>, amount: int)
    | SendAgain(x: Row, rest: seq<Row>, amount: int)

  datatype ConfPc =
    | ConfIdle
    | ConfNext(rows: seq<Row>)
    | ConfMarking(x: Row, rest: seq<Row>)
    | ConfCalling(x: Row, rest: seq<Row>)
    | ConfReturned(x: Row, rest: seq<Row>)
    | ConfSettled(x: Row, rest: seq<Row>)

  datatype RefPc =
    | RefIdle
    | RefNext(rows: seq<Row>)
    | RefMarking(x: Row, rest: seq<Row>)
    | RefRelating(x: Row, rest: seq<Row>)
    | RefReadingOut(x: Row, rest: seq<Row>, rel: Row)
    | RefConfirming(x: Row, rest: seq<Row>, p: Preimage)
    | RefCalling(x: Row, rest: seq<Row>)
    | RefReturned(x: Row, rest: seq<Row>)

  /** The recovery job runs its three queries in turn; `RecReady(TimeoutPendingIn)` is its idle point. */
  datatype RecPc =
    | RecReady(q: Selection)
    | RecRun(q: Selection, rows: seq<Row>)

  datatype State = State(
    now: Time,
    table: Table,
    chain: Ledger,
    sent: set<Tx>,
    notes: set<Note>,
    revealing: set<Tid>,
    send: SendPc,
    conf: ConfPc,
    refu: RefPc,
    reco: RecPc,
    // history, read by no action: START->PENDING transitions, transferIn submissions, submissions without transition
    pends: map<Tid, nat>,
    subs: map<Tid, nat>,
    stray: set<Tid>)

  function Count(m: map<Tid, nat>, t: Tid): nat {
    if t in m then m[t] else 0
  }

  function Bump(m: map<Tid, nat>, t: Tid): map<Tid, nat> {
    m[t := Count(m, t) + 1]
  }

  datatype Actor = Environment | Monitors | SendJob | ConfirmJob | RefundJob | RecoverJob

  datatype Action =
    // environment
    | Tick
    | UserLock(t: Tid, origin: Origin, token: Token, amount: int, timelock: int)
    | UserConfirm(t: Tid, p: Preimage)
    | UserRefund(t: Tid)
    | Mine(tx: Tx)
    | Bury(t: Tid, to: ChainStatus)
    | Crash
    // event monitors
    | OutFirst(t: Tid, ts: Time)
    | OutSecond(n: Note)
    | OutDrop(n: Note)
    | InSeen(t: Tid)
    | ConfirmFirst(t: Tid)
    | ConfirmSecond(t: Tid)
    | ConfirmDrop(t: Tid)
    | RefundSeen(t: Tid)
    // send job
    | SendQuery(rows: seq<Row>)
    | SendCheck
    | SendLate
    | SendRead
    | SendFix(ok: bool)
    | SendPrice(fee: int)
    | SendMark
    | SendSubmit(pool: bool, ok: bool)
    | SendSkip
    | SendEnd
    // confirm job
    | ConfQuery(rows: seq<Row>)
    | ConfRead
    | ConfMark(ok: bool)
    | ConfSubmit(pool: bool)
    | ConfSetReturned(ok: bool)
    | ConfSetSettled(ok: bool)
    | ConfSkip
    | ConfEnd
    // refund job
    | RefQuery(rows: seq<Row>)
    | RefRead
    | RefMark(ok: bool)
    | RefRelate
    | RefReadOut
    | RefConfirm(pool: bool)
    | RefRefund(pool: bool)
    | RefSetReturned(ok: bool)
    | RefSkip
    | RefEnd
    // recovery job
    | RecQuery(rows: seq<Row>)
    | RecRestore(ok: bool)
    | RecSkip
    | RecEnd
    // a job's list query failing
    | QueryError(who: Actor)

  function Who(a: Action): Actor {
    match a
    case Tick | UserLock(_, _, _, _, _) | UserConfirm(_, _) | UserRefund(_) | Mine(_) | Bury(_, _) => Environment
    case Crash => Environment
    case OutFirst(_, _) | OutSecond(_) | OutDrop(_) | InSeen(_) => Monitors
    case ConfirmFirst(_) | ConfirmSecond(_) | ConfirmDrop(_) | RefundSeen(_) => Monitors
    case SendQuery(_) | SendCheck | SendLate | SendRead | SendFix(_) | SendPrice(_) => SendJob
    case SendMark | SendSubmit(_, _) | SendSkip | SendEnd => SendJob
    case ConfQuery(_) | ConfRead | ConfMark(_) | ConfSubmit(_) => ConfirmJob
    case ConfSetReturned(_) | ConfSetSettled(_) | ConfSkip | ConfEnd => ConfirmJob
    case RefQuery(_) | RefRead | RefMark(_) | RefRelate | RefReadOut | RefConfirm(_) => RefundJob
    case RefRefund(_) | RefSetReturned(_) | RefSkip | RefEnd => RefundJob
    case RecQuery(_) | RecRestore(_) | RecSkip | RecEnd => RecoverJob
    case QueryError(who) => who
  }

  // ----- the TransferOut handler's view of an event -----

  datatype Quote = Quote(dstToken: Token, amount: nat)

  /** The handler's chain, token and decimal lookups and the scaled amount; None where it gives up (or panics). */
  function QuoteFor(c: Config, t: Tid, d: Deposit): Option<Quote> {
    if !d.origin.OutLock? || t.receiver != c.me || t.chain !in c.chains || d.origin.dstChain !in c.chains then None
    else if (t.chain, d.token) !in c.tokenName then None
    else
      var name := c.tokenName[(t.chain, d.token)];
      if (d.origin.dstChain, name) !in c.tokenAddr then None
      else
        var dstToken := c.tokenAddr[(d.origin.dstChain, name)];
        if (t.chain, d.token) !in c.decimals || (d.origin.dstChain, dstToken) !in c.decimals || d.amount < 0 then None
        else
          var a := DstAmount(c.decimals[(t.chain, d.token)], c.decimals[(d.origin.dstChain, dstToken)], d.amount);
          if a.None? then None else Some(Quote(dstToken, a.value))
  }

  function InTidFor(t: Tid, d: Deposit): Tid
    requires d.origin.OutLock?
  {
    Tid(t.receiver, d.origin.dstAddr, t.lock, d.origin.dstChain)
  }

  function OutRowFor(c: Config, t: Tid, d: Deposit): Row
    requires d.origin.OutLock? && QuoteFor(c, t, d).Some?
  {
    Row(t, TransferOut, t.chain, d.token, WrapInt64(d.timelock) * SECOND, t.lock, Locked,
        InTidFor(t, d), d.origin.dstChain, QuoteFor(c, t, d).value.dstToken, d.amount, 0, 0, 0, 0, None,
        t.sender, t.receiver, 0, 0)
  }

  function InRowFor(c: Config, t: Tid, d: Deposit, ts: Time): Row
    requires d.origin.OutLock? && QuoteFor(c, t, d).Some? && InTimeLock(d.timelock, ts).Some?
  {
    Row(InTidFor(t, d), TransferIn, d.origin.dstChain, QuoteFor(c, t, d).value.dstToken,
        InTimeLock(d.timelock, ts).value, t.lock, InStart,
        t, t.chain, d.token, QuoteFor(c, t, d).value.amount, 0, 0, 0, 0, None,
        t.receiver, d.origin.dstAddr, 0, 0)
  }

  /** The event TransferOut of `t` is out, addressed to the relay, and names tokens and chains it serves. */
  predicate OutEvent(c: Config, s: State, t: Tid) {
    Visible(s.chain, t) && s.chain[t].origin.OutLock? && QuoteFor(c, t, s.chain[t]).Some?
  }

  // ----- the chain's side of a submitted transaction -----

  function TxInFor(x: Row, amount: int): Tx {
    TxIn(x.chainId, x.receiver, x.token, amount, x.hashLock, Unix(x.timeLock) % TWO64, x.relChain, x.relTid)
  }

  function Executed(c: Config, s: State, tx: Tx): Ledger {
    match tx
    case TxIn(chain, receiver, token, amount, lock, timelock, srcChain, srcTid) =>
      Lock(s.chain, Tid(c.me, receiver, lock, chain), InLock(srcChain, srcTid), token, amount, timelock, Unix(s.now))
    case TxConfirm(chain, tid, preimage) =>
      if tid.chain == chain then Settle(s.chain, c.hash, tid, preimage) else s.chain
    case TxRefund(chain, tid) =>
      if tid.chain == chain then Return(s.chain, tid, Unix(s.now)) else s.chain
  }

  function Pooled(s: State, tx: Tx, pool: bool): set<Tx> {
    if pool then s.sent + {tx} else s.sent
  }

  function NextQuery(q: Selection): Selection {
    match q
    case TimeoutPendingIn => TimeoutPendingConfirm
    case TimeoutPendingConfirm => TimeoutPendingRefund
    case _ => TimeoutPendingIn
  }

  /** What the recovery job swaps from and to, per query. */
  function RestoredTo(q: Selection): Status {
    if q == TimeoutPendingIn then InStart else Locked
  }

  function RestoredFrom(q: Selection): Status {
    match q
    case TimeoutPendingIn => InPending
    case TimeoutPendingConfirm => ConfirmPending
    case _ => RefundPending
  }

  // ----- transitions -----

  function Init(now: Time): State {
    State(now, map[], map[], {}, {}, {}, SendIdle, ConfIdle, RefIdle, RecReady(TimeoutPendingIn), map[], map[], {})
  }

  ghost predicate Enabled(c: Config, s: State, a: Action) {
    match Who(a)
    case Environment => EnabledEnvironment(c, s, a)
    case Monitors => EnabledMonitor(c, s, a)
    case SendJob => EnabledSend(c, s, a)
    case ConfirmJob => EnabledConfirm(c, s, a)
    case RefundJob => EnabledRefund(c, s, a)
    case RecoverJob => EnabledRecover(s, a)
  }

  ghost predicate EnabledEnvironment(c: Config, s: State, a: Action) {
    match a
    case Tick => true
    case UserLock(t, origin, token, amount, timelock) =>
      t.sender != c.me && timelock < TWO64 && CanLock(s.chain, t, amount, timelock, Unix(s.now))
    case UserConfirm(t, p) => CanSettle(s.chain, c.hash, t, p)
    case UserRefund(t) => CanReturn(s.chain, t, Unix(s.now))
    case Mine(tx) => tx in s.sent
    case Bury(t, to) =>
      t in s.chain && Precedes(s.chain[t].safe, to) && Precedes(to, s.chain[t].status)
    case Crash => true
    case _ => false
  }

  ghost predicate EnabledMonitor(c: Config, s: State, a: Action) {
    match a
    case OutFirst(t, ts) => OutEvent(c, s, t) && 0 <= ts <= s.now
    case OutSecond(n) => n in s.notes && OutEvent(c, s, n.tid) && InTimeLock(s.chain[n.tid].timelock, n.ts).Some?
    case OutDrop(n) => n in s.notes
    case InSeen(t) => Visible(s.chain, t) && s.chain[t].origin.InLock? && t.sender == c.me
    case ConfirmFirst(t) => t in s.chain && s.chain[t].safe == Settled
    case ConfirmSecond(t) => t in s.revealing && t in s.chain
    case ConfirmDrop(t) => t in s.revealing
    case RefundSeen(t) => t in s.chain && s.chain[t].safe == Returned
    case _ => false
  }

  ghost predicate EnabledSend(c: Config, s: State, a: Action) {
    match a
    case SendQuery(rows) => s.send.SendIdle? && Selects(rows, s.table, StartTransferIn, s.now)
    case SendCheck =>
      && s.send.SendNext? && s.send.rows != []
      && s.send.rows[0].chainId in c.chains && s.send.rows[0].timeLock - TIME_LOCK_SAFE_MARGIN >= s.now
    case SendLate =>
      && s.send.SendNext? && s.send.rows != []
      && (s.send.rows[0].chainId !in c.chains || s.send.rows[0].timeLock - TIME_LOCK_SAFE_MARGIN < s.now)
    case SendRead => s.send.SendReading?
    case SendFix(ok) => s.send.SendFixing?
    case SendPrice(fee) => s.send.SendPricing? && 0 <= fee <= s.send.x.Total()
    case SendMark => s.send.SendMarking?
    case SendSubmit(pool, ok) => s.send.SendFirst? || s.send.SendAgain?
    case SendSkip => s.send.SendReading? || s.send.SendPricing? || s.send.SendMarking?
    case SendEnd => s.send.SendNext? && s.send.rows == []
    case QueryError(who) => who == SendJob && s.send.SendIdle?
    case _ => false
  }

  ghost predicate EnabledConfirm(c: Config, s: State, a: Action) {
    match a
    case ConfQuery(rows) => s.conf.ConfIdle? && Selects(rows, s.table, ConfirmableLocked, s.now)
    case ConfRead => s.conf.ConfNext? && s.conf.rows != [] && s.conf.rows[0].chainId in c.chains
    case ConfMark(ok) => s.conf.ConfMarking?
    case ConfSubmit(pool) => s.conf.ConfCalling?
    case ConfSetReturned(ok) => s.conf.ConfReturned?
    case ConfSetSettled(ok) => s.conf.ConfSettled?
    case ConfSkip => s.conf.ConfNext? && s.conf.rows != []
    case ConfEnd => s.conf.ConfNext? && s.conf.rows == []
    case QueryError(who) => who == ConfirmJob && s.conf.ConfIdle?
    case _ => false
  }

  ghost predicate EnabledRefund(c: Config, s: State, a: Action) {
    match a
    case RefQuery(rows) => s.refu.RefIdle? && Selects(rows, s.table, RefundableIn, s.now)
    case RefRead => s.refu.RefNext? && s.refu.rows != [] && s.refu.rows[0].chainId in c.chains
    case RefMark(ok) => s.refu.RefMarking?
    case RefRelate => s.refu.RefRelating?
    case RefReadOut => s.refu.RefReadingOut?
    case RefConfirm(pool) => s.refu.RefConfirming?
    case RefRefund(pool) => s.refu.RefCalling?
    case RefSetReturned(ok) => s.refu.RefReturned?
    case RefSkip => (s.refu.RefNext? && s.refu.rows != []) || s.refu.RefRelating? || s.refu.RefReadingOut?
    case RefEnd => s.refu.RefNext? && s.refu.rows == []
    case QueryError(who) => who == RefundJob && s.refu.RefIdle?
    case _ => false
  }

  ghost predicate EnabledRecover(s: State, a: Action) {
    match a
    case RecQuery(rows) => s.reco.RecReady? && Selects(rows, s.table, s.reco.q, s.now)
    case RecRestore(ok) => s.reco.RecRun? && s.reco.rows != []
    case RecSkip => s.reco.RecReady?
    case RecEnd => s.reco.RecRun? && s.reco.rows == []
    case _ => false
  }

  function Apply(c: Config, s: State, a: Action): State
    requires Enabled(c, s, a)
  {
    match Who(a)
    case Environment => ApplyEnvironment(c, s, a)
    case Monitors => ApplyMonitor(c, s, a)
    case SendJob => ApplySend(c, s, a)
    case ConfirmJob => ApplyConfirm(c, s, a)
    case RefundJob => ApplyRefund(c, s, a)
    case RecoverJob => ApplyRecover(c, s, a)
  }

  function ApplyEnvironment(c: Config, s: State, a: Action): State
    requires EnabledEnvironment(c, s, a)
  {
    match a
    case Tick => s.(now := s.now + 1)
    case UserLock(t, origin, token, amount, timelock) =>
      s.(chain := Lock(s.chain, t, origin, token, amount, timelock, Unix(s.now)))
    case UserConfirm(t, p) => s.(chain := Settle(s.chain, c.hash, t, p))
    case UserRefund(t) => s.(chain := Return(s.chain, t, Unix(s.now)))
    case Mine(tx) => s.(chain := Executed(c, s, tx))
    case Bury(t, to) => s.(chain := s.chain[t := s.chain[t].(safe := to)])
    case _ =>
      s.(notes := {}, revealing := {}, send := SendIdle, conf := ConfIdle, refu := RefIdle,
         reco := RecReady(TimeoutPendingIn))
  }

  function ApplyMonitor(c: Config, s: State, a: Action): State
    requires EnabledMonitor(c, s, a)
  {
    match a
    case OutFirst(t, ts) =>
      var tbl := Inserted(s.table, OutRowFor(c, t, s.chain[t]), s.now);
      if InTimeLock(s.chain[t].timelock, ts).Some?
      then s.(table := tbl, notes := s.notes + {Note(t, ts)})
      else s.(table := tbl)
    case OutSecond(n) =>
      s.(table := Inserted(s.table, InRowFor(c, n.tid, s.chain[n.tid], n.ts), s.now), notes := s.notes - {n})
    case OutDrop(n) => s.(notes := s.notes - {n})
    case InSeen(t) => s.(table := InRecorded(s.table, t))
    case ConfirmFirst(t) =>
      s.(table := ConfirmedIn(s.table, t, s.chain[t].preimage), revealing := s.revealing + {t})
    case ConfirmSecond(t) =>
      s.(table := RelatedPreimageSet(s.table, s.chain[t].preimage, t), revealing := s.revealing - {t})
    case ConfirmDrop(t) => s.(revealing := s.revealing - {t})
    case RefundSeen(t) => s.(table := StatusSet(s.table, t, Refunded))
    case _ => s
  }

  function ApplySend(c: Config, s: State, a: Action): State
    requires EnabledSend(c, s, a)
  {
    match a
    case SendQuery(rows) => s.(send := SendNext(rows))
    case SendCheck => s.(send := SendReading(s.send.rows[0], s.send.rows[1..]))
    case SendLate => s.(send := SendNext(s.send.rows[1..]))
    case SendRead =>
      var x, rest := s.send.x, s.send.rest;
      var st := ReadSafe(s.chain, x.chainId, x.tid);
      s.(send := if st == Undefined then SendPricing(x, rest)
                 else if st == Pending then SendFixing(x, rest)
                 else SendNext(rest))
    case SendFix(ok) =>
      var x := s.send.x;
      s.(send := SendNext(s.send.rest),
         table := if ok then StatusSwapped(s.table, x.tid, Locked, InStart, s.now) else s.table)
    case SendPrice(fee) =>
      var x := s.send.x;
      var amount := x.Total() - fee;
      s.(send := SendMarking(x, s.send.rest, amount), table := AmountAndFeeSet(s.table, x.tid, amount, fee))
    case SendMark =>
      var x := s.send.x;
      var hit := x.tid in s.table && s.table[x.tid].status == InStart;
      s.(send := SendFirst(x, s.send.rest, s.send.amount),
         table := StatusSwapped(s.table, x.tid, InPending, InStart, s.now),
         pends := if hit then Bump(s.pends, x.tid) else s.pends,
         stray := if hit then s.stray else s.stray + {x.tid})
    case SendSubmit(pool, ok) =>
      var x := s.send.x;
      s.(send := if ok || s.send.SendAgain? then SendNext(s.send.rest)
                 else SendAgain(x, s.send.rest, s.send.amount),
         sent := Pooled(s, TxInFor(x, s.send.amount), pool),
         subs := Bump(s.subs, x.tid))
    case SendSkip => s.(send := SendNext(s.send.rest))
    case SendEnd => s.(send := SendIdle)
    case _ => s
  }

  function ApplyConfirm(c: Config, s: State, a: Action): State
    requires EnabledConfirm(c, s, a)
  {
    match a
    case ConfQuery(rows) => s.(conf := ConfNext(rows))
    case ConfRead =>
      var x, rest := s.conf.rows[0], s.conf.rows[1..];
      s.(conf := match ReadSafe(s.chain, x.chainId, x.tid)
                 case Pending => ConfMarking(x, rest)
                 case Returned => ConfReturned(x, rest)
                 case Settled => ConfSettled(x, rest)
                 case Undefined => ConfNext(rest))
    case ConfMark(ok) =>
      var x := s.conf.x;
      s.(conf := ConfCalling(x, s.conf.rest),
         table := if ok then StatusSwapped(s.table, x.tid, ConfirmPending, Locked, s.now) else s.table)
    case ConfSubmit(pool) =>
      var x := s.conf.x;
      s.(conf := ConfNext(s.conf.rest), sent := Pooled(s, TxConfirm(x.chainId, x.tid, x.Decoded()), pool))
    case ConfSetReturned(ok) =>
      s.(conf := ConfNext(s.conf.rest),
         table := if ok then StatusSet(s.table, s.conf.x.tid, Refunded) else s.table)
    case ConfSetSettled(ok) =>
      s.(conf := ConfNext(s.conf.rest),
         table := if ok then ConfirmedIn(s.table, s.conf.x.tid, s.conf.x.Decoded()) else s.table)
    case ConfSkip => s.(conf := ConfNext(s.conf.rows[1..]))
    case ConfEnd => s.(conf := ConfIdle)
    case _ => s
  }

  function ApplyRefund(c: Config, s: State, a: Action): State
    requires EnabledRefund(c, s, a)
  {
    match a
    case RefQuery(rows) => s.(refu := RefNext(rows))
    case RefRead =>
      var x, rest := s.refu.rows[0], s.refu.rows[1..];
      s.(refu := match ReadSafe(s.chain, x.chainId, x.tid)
                 case Pending => RefMarking(x, rest)
                 case Returned => RefReturned(x, rest)
                 case _ => RefNext(rest))
    case RefMark(ok) =>
      var x := s.refu.x;
      s.(refu := RefRelating(x, s.refu.rest),
         table := if ok then StatusSwapped(s.table, x.tid, RefundPending, Locked, s.now) else s.table)
    case RefRelate =>
      var x, rest := s.refu.x, s.refu.rest;
      s.(refu := if x.relTid !in s.table then RefNext(rest)
                 else
                   var rel := s.table[x.relTid];
                   if rel.status == Confirmed then RefConfirming(x, rest, rel.Decoded())
                   else if rel.chainId !in c.chains then RefNext(rest)
                   else RefReadingOut(x, rest, rel))
    case RefReadOut =>
      var x, rest, rel := s.refu.x, s.refu.rest, s.refu.rel;
      s.(refu := if ReadSafe(s.chain, rel.chainId, rel.tid) == Settled then RefNext(rest) else RefCalling(x, rest))
    case RefConfirm(pool) =>
      var x := s.refu.x;
      s.(refu := RefNext(s.refu.rest), sent := Pooled(s, TxConfirm(x.chainId, x.tid, s.refu.p), pool))
    case RefRefund(pool) =>
      var x := s.refu.x;
      s.(refu := RefNext(s.refu.rest), sent := Pooled(s, TxRefund(x.chainId, x.tid), pool))
    case RefSetReturned(ok) =>
      s.(refu := RefNext(s.refu.rest),
         table := if ok then StatusSet(s.table, s.refu.x.tid, Refunded) else s.table)
    case RefSkip => s.(refu := RefNext(if s.refu.RefNext? then s.refu.rows[1..] else s.refu.rest))
    case RefEnd => s.(refu := RefIdle)
    case _ => s
  }

  function ApplyRecover(c: Config, s: State, a: Action): State
    requires EnabledRecover(s, a)
  {
    match a
    case RecQuery(rows) => s.(reco := RecRun(s.reco.q, rows))
    case RecRestore(ok) =>
      var q, x := s.reco.q, s.reco.rows[0];
      s.(reco := RecRun(q, s.reco.rows[1..]),
         table := if ok then StatusSwapped(s.table, x.tid, RestoredTo(q), RestoredFrom(q), s.now) else s.table)
    case RecSkip => s.(reco := RecReady(NextQuery(s.reco.q)))
    case RecEnd => s.(reco := RecReady(NextQuery(s.reco.q)))
    case _ => s
  }

  // ----- runs -----

  ghost predicate Legal(c: Config, s: State, acts: seq<Action>)
    decreases |acts|
  {
    acts == [] || (Enabled(c, s, acts[0]) && Legal(c, Apply(c, s, acts[0]), acts[1..]))
  }

  ghost function Exec(c: Config, s: State, acts: seq<Action>): State
    requires Legal(c, s, acts)
    decreases |acts|
  {
    if acts == [] then s else Exec(c, Apply(c, s, acts[0]), acts[1..])
  }

  ghost predicate Reachable(c: Config, s: State) {
    exists now: Time, acts: seq<Action> :: 0 <= now && Legal(c, Init(now), acts) && Exec(c, Init(now), acts) == s
  }
}
