/**
 * The node's own procedures over the DAL and the chain, statement by statement, with every other actor free to run
 * between two statements. Each procedure is proved to be a run of the transition system.
 */
module Relay {
  import opened Types
  import opened Scaling
  import opened TimeLock
  import opened Dal
  import opened Ledger
  import opened Protocol
  import opened Invariant
  import opened Preserve
  import opened Steps

  /** The node: its database, and the world its procedures and everyone else act on. */
  class Node {
    const c: Config
    const db: DAL
    var world: State
    /** The steps taken so far by the procedure that is running. */
    ghost var own: seq<Action>

    ghost predicate Valid()
      reads this, db
    {
      Inv(c, world) && world.table == db.table && db.Keyed()
    }

    constructor (c: Config, now: Time)
      requires 0 <= now
      ensures Valid() && fresh(db) && this.c == c && world == Init(now)
    {
      this.c := c;
      db := new DAL();
      world := Init(now);
      own := [];
      new;
      InitOk(c, now);
    }

    /** Everyone but `me` runs for a while: callers learn only what any such run leaves (`OthersAreCovered`). */
    method Interfere(ghost start: State, me: Self)
      requires Valid() && Ran(c, me, start, world, own)
      modifies this`world, db
      ensures Valid() && Ran(c, me, start, world, own) && Stands(old(world), world, me)
      ensures Evolves(old(world), world) && old(world.sent) <= world.sent
    {
      hide *;
      NothingYet(world, me);
    }

    /** Records the step that the statement just executed is. */
    method Fire(ghost start: State, me: Self, a: Action)
      requires Inv(c, world) && db.Keyed() && Ran(c, me, start, world, own) && (me.Job? ==> Who(a) == me.who)
      requires Enabled(c, world, a) && Apply(c, world, a).table == db.table
      modifies this
      ensures Valid() && Ran(c, me, start, world, own) && Evolves(old(world), world)
      ensures world == Apply(c, old(world), a) && own == old(own) + [a]
    {
      hide Inv, Ran, Evolves, Enabled, Apply, DAL.Keyed;
      Stepped(c, world, a);
      RanOne(c, me, world, a);
      RanOn(c, me, start, world, Apply(c, world, a), own, [a]);
      world := Apply(c, world, a);
      own := own + [a];
    }

    method FireSend(ghost start: State, a: Action, ghost pc: SendPc, ghost handed: set<Tx>)
      requires Inv(c, world) && db.Keyed() && Ran(c, Job(SendJob), start, world, own)
      requires SendGoes(c, world, a, pc, db.table, handed)
      modifies this
      ensures Valid() && Ran(c, Job(SendJob), start, world, own) && own == old(own) + [a]
      ensures world.send == pc && world.sent == old(world.sent) + handed && Evolves(old(world), world)
    {
      hide Inv, Ran, Evolves, EnabledSend, ApplySend, DAL.Keyed;
      Fire(start, Job(SendJob), a);
    }

    method FireConfirm(ghost start: State, a: Action, ghost pc: ConfPc, ghost handed: set<Tx>)
      requires Inv(c, world) && db.Keyed() && Ran(c, Job(ConfirmJob), start, world, own)
      requires ConfGoes(c, world, a, pc, db.table, handed)
      modifies this
      ensures Valid() && Ran(c, Job(ConfirmJob), start, world, own) && own == old(own) + [a]
      ensures world.conf == pc && world.sent == old(world.sent) + handed && Evolves(old(world), world)
    {
      hide Inv, Ran, Evolves, EnabledConfirm, ApplyConfirm, DAL.Keyed;
      Fire(start, Job(ConfirmJob), a);
    }

    method FireRefund(ghost start: State, a: Action, ghost pc: RefPc, ghost handed: set<Tx>)
      requires Inv(c, world) && db.Keyed() && Ran(c, Job(RefundJob), start, world, own)
      requires RefGoes(c, world, a, pc, db.table, handed)
      modifies this
      ensures Valid() && Ran(c, Job(RefundJob), start, world, own) && own == old(own) + [a]
      ensures world.refu == pc && world.sent == old(world.sent) + handed && Evolves(old(world), world)
    {
      hide Inv, Ran, Evolves, EnabledRefund, ApplyRefund, DAL.Keyed;
      Fire(start, Job(RefundJob), a);
    }

    method FireRecover(ghost start: State, a: Action, ghost pc: RecPc)
      requires Inv(c, world) && db.Keyed() && Ran(c, Job(RecoverJob), start, world, own)
      requires RecGoes(c, world, a, pc, db.table)
      modifies this
      ensures Valid() && Ran(c, Job(RecoverJob), start, world, own) && own == old(own) + [a]
      ensures world.reco == pc && world.sent == old(world.sent) && Evolves(old(world), world)
    {
      hide Inv, Ran, Evolves, EnabledRecover, ApplyRecover, DAL.Keyed;
      Fire(start, Job(RecoverJob), a);
    }

    method FireMonitor(ghost start: State, me: Self, a: Action)
      requires Inv(c, world) && db.Keyed() && Ran(c, me, start, world, own) && MonitorGoes(c, world, a, db.table)
      requires me.Handler?
      modifies this
      ensures Valid() && Ran(c, me, start, world, own) && Evolves(old(world), world)
      ensures EnabledMonitor(c, old(world), a) && world == ApplyMonitor(c, old(world), a)
    {
      hide Inv, Ran, Evolves, EnabledMonitor, ApplyMonitor, DAL.Keyed;
      Fire(start, me, a);
    }

    // ----- sending transfer-ins -----

    /** One pass of the send job: a query, a turn for each row it lists, and the end; or a failed query. */
    method ProcessTrySendTransferIn(fees: Tid -> nat, faulty: bool)
      returns (failed: bool, ghost rows: seq<Row>, ghost did: seq<Action>)
      requires Valid() && world.send == SendIdle
      modifies this, db
      ensures Valid() && world.send == SendIdle && Ran(c, Job(SendJob), old(world), world, own)
      ensures failed ==> faulty && own == [QueryError(SendJob)]
      ensures !failed ==> own == [SendQuery(rows)] + did + [SendEnd] && SendTurns(fees, faulty, rows, did, world.sent)
    {
      hide Inv, Ran, Selects, Evolves, SendGoes, ConfGoes, RefGoes, RecGoes, MonitorGoes, DAL.Keyed, ReadSafe;
      hide SendTurns;
      ghost var start := world;
      own := [];
      RanNothing(c, Job(SendJob), start);
      Interfere(start, Job(SendJob));
      failed := *;
      failed := failed && faulty;
      var started := db.Select(StartTransferIn, world.now);
      rows, did := started, [];
      FromSendIdle(c, world, started);
      if failed {
        FireSend(start, QueryError(SendJob), SendIdle, {});
        return;
      }
      FireSend(start, SendQuery(started), SendNext(started), {});
      did := SendRows(start, fees, faulty, started);
      ghost var before := world.sent;
      Interfere(start, Job(SendJob));
      FromSendDone(c, world);
      FireSend(start, SendEnd, SendIdle, {});
      SendTurnsStay(fees, faulty, started, did, before, world.sent);
    }

    /** The rows of a pass, one after the other. */
    method SendRows(ghost start: State, fees: Tid -> nat, faulty: bool, started: seq<Row>)
      returns (ghost did: seq<Action>)
      requires Valid() && Ran(c, Job(SendJob), start, world, own) && world.send == SendNext(started)
      modifies this, db
      ensures Valid() && Ran(c, Job(SendJob), start, world, own) && world.send == SendNext([])
      ensures old(world.sent) <= world.sent && own == old(own) + did
      ensures SendTurns(fees, faulty, started, did, world.sent)
    {
      hide Inv, Ran, Selects, Evolves, SendGoes, ConfGoes, RefGoes, RecGoes, MonitorGoes, DAL.Keyed, ReadSafe;
      hide SendTurns, SendTurn;
      var i := 0;
      did := [];
      NoTurns(world.sent);
      assert started[..0] == [];
      while i < |started|
        invariant i <= |started|
        invariant Valid() && Ran(c, Job(SendJob), start, world, own) && world.send == SendNext(started[i..])
        invariant old(world.sent) <= world.sent && own == old(own) + did
        invariant SendTurns(fees, faulty, started[..i], did, world.sent)
      {
        assert started[i..] == [started[i]] + started[i + 1..];
        ghost var before := world.sent;
        ghost var turn := SendOne(start, fees, faulty, started[i], started[i + 1..]);
        SendTurnsStay(fees, faulty, started[..i], did, before, world.sent);
        SendTurnsPush(fees, faulty, started[..i], started[i], did, turn, world.sent);
        assert started[..i + 1] == started[..i] + [started[i]];
        did := did + turn;
        i := i + 1;
      }
      assert started[i..] == [] && started[..i] == started;
    }

    /** The loop body for one row. */
    method SendOne(ghost start: State, fees: Tid -> nat, faulty: bool, x: Row, ghost rest: seq<Row>)
      returns (ghost did: seq<Action>)
      requires Valid() && Ran(c, Job(SendJob), start, world, own) && world.send == SendNext([x] + rest)
      modifies this, db
      ensures Valid() && Ran(c, Job(SendJob), start, world, own) && world.send == SendNext(rest)
      ensures old(world.sent) <= world.sent && own == old(own) + did
      ensures did == [SendLate] ==> x.chainId !in c.chains || x.timeLock - 360_000_000_000 < world.now
      ensures x.timeLock - 360_000_000_000 < old(world.now) ==> did == [SendLate]
      ensures old(ReadSafe(world.chain, x.chainId, x.tid)) != Undefined ==> forall a :: a in did ==> !a.SendSubmit?
      ensures SendTurn(did, x, fees(x.relTid), faulty, world.sent)
    {
      hide Inv, Ran, Selects, Evolves, SendGoes, ConfGoes, RefGoes, RecGoes, MonitorGoes, DAL.Keyed, ReadSafe;
      hide SendTurn, PriceTurn;
      ghost var before := world;
      Interfere(start, Job(SendJob));
      SafeMoves(before, world, x.chainId, x.tid);
      FromSendNext(c, world, x, rest);
      if x.chainId !in c.chains || x.timeLock - TIME_LOCK_SAFE_MARGIN < world.now {
        before := world;
        FireSend(start, SendLate, SendNext(rest), {});
        SafeMoves(before, world, x.chainId, x.tid);
        SendTurnShapes([], x, fees(x.relTid), faulty, world.sent);
        return [SendLate];
      }
      before := world;
      FireSend(start, SendCheck, SendReading(x, rest), {});
      SafeMoves(before, world, x.chainId, x.tid);
      before := world;
      Interfere(start, Job(SendJob));
      SafeMoves(before, world, x.chainId, x.tid);
      FromSendReading(c, world, x, rest);
      var err: bool := *;
      err := err && faulty;
      if err {
        FireSend(start, SendSkip, SendNext(rest), {});
        SendTurnShapes([], x, fees(x.relTid), faulty, world.sent);
        return [SendCheck, SendSkip];
      }
      did := [];
      var remote := ReadSafe(world.chain, x.chainId, x.tid);
      if remote == Undefined {
        FireSend(start, SendRead, SendPricing(x, rest), {});
        did := PriceOne(start, fees, faulty, x, rest);
      } else if remote == Pending {
        FireSend(start, SendRead, SendFixing(x, rest), {});
        did := FixOne(start, faulty, x, rest);
      } else {
        FireSend(start, SendRead, SendNext(rest), {});
      }
      SendTurnShapes(did, x, fees(x.relTid), faulty, world.sent);
      Join(old(own), SendCheck, SendRead, did);
      did := [SendCheck, SendRead] + did;
    }

    /** The transfer is already on chain: make up for a missed event. */
    method FixOne(ghost start: State, faulty: bool, x: Row, ghost rest: seq<Row>) returns (ghost did: seq<Action>)
      requires Valid() && Ran(c, Job(SendJob), start, world, own) && world.send == SendFixing(x, rest)
      modifies this, db
      ensures Valid() && Ran(c, Job(SendJob), start, world, own) && world.send == SendNext(rest)
      ensures old(world.sent) <= world.sent && own == old(own) + did
      ensures FixTurn(did, faulty)
    {
      hide Inv, Ran, Selects, Evolves, SendGoes, ConfGoes, RefGoes, RecGoes, MonitorGoes, DAL.Keyed, ReadSafe;
      Interfere(start, Job(SendJob));
      var ok: bool := *;
      ok := ok || !faulty;
      FromSendFixing(c, world, x, rest, ok);
      if ok {
        db.SetTransferStatusByFrom(x.tid, Locked, InStart, world.now);
      }
      FireSend(start, SendFix(ok), SendNext(rest), {});
      did := [SendFix(ok)];
    }

    /** The gateway's answer, or a failure. */
    method GetFee(out: Tid, fees: Tid -> nat, faulty: bool) returns (fee: nat, err: bool)
      ensures fee == fees(out) && (err ==> faulty)
    {
      fee := fees(out);
      err := *;
      err := err && faulty;
    }

    /** Ask for the fee, take it off the original amount, store both, mark the row and send. */
    method PriceOne(ghost start: State, fees: Tid -> nat, faulty: bool, x: Row, ghost rest: seq<Row>)
      returns (ghost did: seq<Action>)
      requires Valid() && Ran(c, Job(SendJob), start, world, own) && world.send == SendPricing(x, rest)
      modifies this, db
      ensures Valid() && Ran(c, Job(SendJob), start, world, own) && world.send == SendNext(rest)
      ensures old(world.sent) <= world.sent && own == old(own) + did
      ensures PriceTurn(did, x, fees(x.relTid), faulty, world.sent)
    {
      hide Inv, Ran, Selects, Evolves, SendGoes, ConfGoes, RefGoes, RecGoes, MonitorGoes, DAL.Keyed, ReadSafe;
      hide PriceTurn, SubmitTurn;
      var originAmt := x.amount + x.fee;
      Interfere(start, Job(SendJob));
      var fee, err := GetFee(x.relTid, fees, faulty);
      FromSendPricing(c, world, x, rest, fee);
      if err || fee > originAmt {
        FireSend(start, SendSkip, SendNext(rest), {});
        PriceTurnShapes([], x, fee, faulty, world.sent);
        return [SendSkip];
      }
      var newAmount := originAmt - fee;
      assert newAmount == x.Total() - fee;
      db.SetTransferInAmountAndFee(x.tid, newAmount, fee);
      FireSend(start, SendPrice(fee), SendMarking(x, rest, newAmount), {});
      Interfere(start, Job(SendJob));
      FromSendMarking(c, world, x, rest, newAmount);
      err := *;
      err := err && faulty;
      if err {
        FireSend(start, SendSkip, SendNext(rest), {});
        PriceTurnShapes([], x, fee, faulty, world.sent);
        return [SendPrice(fee), SendSkip];
      }
      db.SetTransferStatusByFrom(x.tid, InPending, InStart, world.now);
      FireSend(start, SendMark, SendFirst(x, rest, newAmount), {});
      did := TransmitOne(start, faulty, x, rest, newAmount);
      PriceTurnShapes(did, x, fee, faulty, world.sent);
      Join(old(own), SendPrice(fee), SendMark, did);
      did := [SendPrice(fee), SendMark] + did;
    }

    /** Submit, and once more after a failure. */
    method TransmitOne(ghost start: State, faulty: bool, x: Row, ghost rest: seq<Row>, amount: int)
      returns (ghost did: seq<Action>)
      requires Valid() && Ran(c, Job(SendJob), start, world, own) && world.send == SendFirst(x, rest, amount)
      modifies this, db
      ensures Valid() && Ran(c, Job(SendJob), start, world, own) && world.send == SendNext(rest)
      ensures old(world.sent) <= world.sent && own == old(own) + did
      ensures SubmitTurn(did, x, amount, faulty, world.sent)
    {
      hide Inv, Ran, Selects, Evolves, SendGoes, ConfGoes, RefGoes, RecGoes, MonitorGoes, DAL.Keyed, ReadSafe;
      Interfere(start, Job(SendJob));
      var pool: bool := *;
      pool := pool || !faulty;
      var ok: bool := *;
      ok := ok || !faulty;
      FromSendSubmitting(c, world, x, rest, amount, pool, ok);
      FireSend(start, SendSubmit(pool, ok), if ok then SendNext(rest) else SendAgain(x, rest, amount),
               if pool then {InCall(x, amount)} else {});
      did := [SendSubmit(pool, ok)];
      if !ok {
        Interfere(start, Job(SendJob));
        pool := *;
        FromSendSubmitting(c, world, x, rest, amount, pool, false);
        FireSend(start, SendSubmit(pool, false), SendNext(rest), if pool then {InCall(x, amount)} else {});
        did := did + [SendSubmit(pool, false)];
      }
    }

    // ----- confirming -----

    /** One pass of the confirm job. */
    method ProcessTryConfirmTransfer(faulty: bool) returns (failed: bool, ghost rows: seq<Row>, ghost did: seq<Action>)
      requires Valid() && world.conf == ConfIdle
      modifies this, db
      ensures Valid() && world.conf == ConfIdle && Ran(c, Job(ConfirmJob), old(world), world, own)
      ensures failed ==> faulty && own == [QueryError(ConfirmJob)]
      ensures !failed ==> own == [ConfQuery(rows)] + did + [ConfEnd] && ConfTurns(faulty, rows, did, world.sent)
    {
      hide Inv, Ran, Selects, Evolves, SendGoes, ConfGoes, RefGoes, RecGoes, MonitorGoes, DAL.Keyed, ReadSafe;
      hide ConfTurns;
      ghost var start := world;
      own := [];
      RanNothing(c, Job(ConfirmJob), start);
      Interfere(start, Job(ConfirmJob));
      failed := *;
      failed := failed && faulty;
      var locked := db.Select(ConfirmableLocked, world.now);
      rows, did := locked, [];
      FromConfIdle(c, world, locked);
      if failed {
        FireConfirm(start, QueryError(ConfirmJob), ConfIdle, {});
        return;
      }
      FireConfirm(start, ConfQuery(locked), ConfNext(locked), {});
      did := ConfirmRows(start, faulty, locked);
      ghost var before := world.sent;
      Interfere(start, Job(ConfirmJob));
      FromConfDone(c, world);
      FireConfirm(start, ConfEnd, ConfIdle, {});
      ConfTurnsStay(faulty, locked, did, before, world.sent);
    }

    /** The rows of a pass, one after the other. */
    method ConfirmRows(ghost start: State, faulty: bool, locked: seq<Row>) returns (ghost did: seq<Action>)
      requires Valid() && Ran(c, Job(ConfirmJob), start, world, own) && world.conf == ConfNext(locked)
      modifies this, db
      ensures Valid() && Ran(c, Job(ConfirmJob), start, world, own) && world.conf == ConfNext([])
      ensures old(world.sent) <= world.sent && own == old(own) + did
      ensures ConfTurns(faulty, locked, did, world.sent)
    {
      hide Inv, Ran, Selects, Evolves, SendGoes, ConfGoes, RefGoes, RecGoes, MonitorGoes, DAL.Keyed, ReadSafe;
      hide ConfTurns, ConfTurn;
      var i := 0;
      did := [];
      NoTurns(world.sent);
      assert locked[..0] == [];
      while i < |locked|
        invariant i <= |locked|
        invariant Valid() && Ran(c, Job(ConfirmJob), start, world, own) && world.conf == ConfNext(locked[i..])
        invariant old(world.sent) <= world.sent && own == old(own) + did
        invariant ConfTurns(faulty, locked[..i], did, world.sent)
      {
        assert locked[i..] == [locked[i]] + locked[i + 1..];
        ghost var before := world.sent;
        ghost var turn := ConfirmOne(start, faulty, locked[i], locked[i + 1..]);
        ConfTurnsStay(faulty, locked[..i], did, before, world.sent);
        ConfTurnsPush(faulty, locked[..i], locked[i], did, turn, world.sent);
        assert locked[..i + 1] == locked[..i] + [locked[i]];
        did := did + turn;
        i := i + 1;
      }
      assert locked[i..] == [] && locked[..i] == locked;
    }

    /** The loop body for one row. */
    method ConfirmOne(ghost start: State, faulty: bool, x: Row, ghost rest: seq<Row>) returns (ghost did: seq<Action>)
      requires Valid() && Ran(c, Job(ConfirmJob), start, world, own) && world.conf == ConfNext([x] + rest)
      modifies this, db
      ensures Valid() && Ran(c, Job(ConfirmJob), start, world, own) && world.conf == ConfNext(rest)
      ensures old(world.sent) <= world.sent && own == old(own) + did
      ensures old(ReadSafe(world.chain, x.chainId, x.tid)) == Settled ==>
                did == [ConfSkip] || (|did| == 2 && did[1].ConfSetSettled?)
      ensures old(ReadSafe(world.chain, x.chainId, x.tid)) == Returned ==>
                did == [ConfSkip] || (|did| == 2 && did[1].ConfSetReturned?)
      ensures ConfTurn(did, x, faulty, world.sent)
    {
      hide Inv, Ran, Selects, Evolves, SendGoes, ConfGoes, RefGoes, RecGoes, MonitorGoes, DAL.Keyed, ReadSafe;
      hide ConfTurn, ClaimTurn;
      ghost var before := world;
      Interfere(start, Job(ConfirmJob));
      SafeMoves(before, world, x.chainId, x.tid);
      FromConfNext(c, world, x, rest);
      ConfServed(c, world, x, rest);
      var err: bool := *;
      err := err && faulty;
      if x.chainId !in c.chains || err {
        FireConfirm(start, ConfSkip, ConfNext(rest), {});
        ConfTurnShapes([], x, faulty, world.sent);
        return [ConfSkip];
      }
      did := [];
      match ReadSafe(world.chain, x.chainId, x.tid) {
        case Pending =>
          FireConfirm(start, ConfRead, ConfMarking(x, rest), {});
          did := ClaimOne(start, faulty, x, rest);
        case Returned =>
          FireConfirm(start, ConfRead, ConfReturned(x, rest), {});
          did := FinishOne(start, faulty, x, rest);
        case Settled =>
          FireConfirm(start, ConfRead, ConfSettled(x, rest), {});
          did := FinishOne(start, faulty, x, rest);
        case Undefined =>
          FireConfirm(start, ConfRead, ConfNext(rest), {});
      }
      ConfTurnShapes(did, x, faulty, world.sent);
      did := [ConfRead] + did;
    }

    /** Mark the row, whether or not that works, and submit. */
    method ClaimOne(ghost start: State, faulty: bool, x: Row, ghost rest: seq<Row>) returns (ghost did: seq<Action>)
      requires Valid() && Ran(c, Job(ConfirmJob), start, world, own) && world.conf == ConfMarking(x, rest)
      modifies this, db
      ensures Valid() && Ran(c, Job(ConfirmJob), start, world, own) && world.conf == ConfNext(rest)
      ensures old(world.sent) <= world.sent && own == old(own) + did
      ensures ClaimTurn(did, x, faulty, world.sent)
    {
      hide Inv, Ran, Selects, Evolves, SendGoes, ConfGoes, RefGoes, RecGoes, MonitorGoes, DAL.Keyed, ReadSafe;
      Interfere(start, Job(ConfirmJob));
      var ok: bool := *;
      ok := ok || !faulty;
      FromConfMarking(c, world, x, rest, ok);
      if ok {
        db.SetTransferStatusByFrom(x.tid, ConfirmPending, Locked, world.now);
      }
      FireConfirm(start, ConfMark(ok), ConfCalling(x, rest), {});
      Interfere(start, Job(ConfirmJob));
      var pool: bool := *;
      pool := pool || !faulty;
      ConfHasPreimage(c, world, x, rest);
      FromConfCalling(c, world, x, rest, pool);
      FireConfirm(start, ConfSubmit(pool), ConfNext(rest),
                  if pool then {TxConfirm(x.chainId, x.tid, x.preimage.value)} else {});
      did := [ConfMark(ok), ConfSubmit(pool)];
    }

    /** The chain already settled or returned the transfer: copy that into the row. */
    method FinishOne(ghost start: State, faulty: bool, x: Row, ghost rest: seq<Row>) returns (ghost did: seq<Action>)
      requires Valid() && Ran(c, Job(ConfirmJob), start, world, own)
      requires world.conf == ConfReturned(x, rest) || world.conf == ConfSettled(x, rest)
      modifies this, db
      ensures Valid() && Ran(c, Job(ConfirmJob), start, world, own) && world.conf == ConfNext(rest)
      ensures old(world.sent) <= world.sent && own == old(own) + did
      ensures FinishTurn(did, old(world.conf.ConfReturned?), faulty)
    {
      hide Inv, Ran, Selects, Evolves, SendGoes, ConfGoes, RefGoes, RecGoes, MonitorGoes, DAL.Keyed, ReadSafe;
      Interfere(start, Job(ConfirmJob));
      var ok: bool := *;
      ok := ok || !faulty;
      FromConfFinishing(c, world, x, rest, ok);
      if world.conf.ConfReturned? {
        if ok {
          db.UpdateTransferStatus(x.tid, Refunded);
        }
        FireConfirm(start, ConfSetReturned(ok), ConfNext(rest), {});
        did := [ConfSetReturned(ok)];
      } else {
        if ok {
          db.ConfirmTransfer(x.tid, x.Decoded());
        }
        FireConfirm(start, ConfSetSettled(ok), ConfNext(rest), {});
        did := [ConfSetSettled(ok)];
      }
    }

    // ----- refunding -----

    /** One pass of the refund job. */
    method ProcessTryRefundTransferIn(faulty: bool) returns (failed: bool, ghost rows: seq<Row>, ghost did: seq<Action>)
      requires Valid() && world.refu == RefIdle
      modifies this, db
      ensures Valid() && world.refu == RefIdle && Ran(c, Job(RefundJob), old(world), world, own)
      ensures failed ==> faulty && own == [QueryError(RefundJob)]
      ensures !failed ==> own == [RefQuery(rows)] + did + [RefEnd] && RefTurns(faulty, rows, did, world.sent)
    {
      hide Inv, Ran, Selects, Evolves, SendGoes, ConfGoes, RefGoes, RecGoes, MonitorGoes, DAL.Keyed, ReadSafe;
      hide RefTurns;
      ghost var start := world;
      own := [];
      RanNothing(c, Job(RefundJob), start);
      Interfere(start, Job(RefundJob));
      failed := *;
      failed := failed && faulty;
      var refundable := db.Select(RefundableIn, world.now);
      rows, did := refundable, [];
      FromRefIdle(c, world, refundable);
      if failed {
        FireRefund(start, QueryError(RefundJob), RefIdle, {});
        return;
      }
      FireRefund(start, RefQuery(refundable), RefNext(refundable), {});
      did := RefundRows(start, faulty, refundable);
      ghost var before := world.sent;
      Interfere(start, Job(RefundJob));
      FromRefDone(c, world);
      FireRefund(start, RefEnd, RefIdle, {});
      RefTurnsStay(faulty, refundable, did, before, world.sent);
    }

    /** The rows of a pass, one after the other. */
    method RefundRows(ghost start: State, faulty: bool, refundable: seq<Row>) returns (ghost did: seq<Action>)
      requires Valid() && Ran(c, Job(RefundJob), start, world, own) && world.refu == RefNext(refundable)
      modifies this, db
      ensures Valid() && Ran(c, Job(RefundJob), start, world, own) && world.refu == RefNext([])
      ensures old(world.sent) <= world.sent && own == old(own) + did
      ensures RefTurns(faulty, refundable, did, world.sent)
    {
      hide Inv, Ran, Selects, Evolves, SendGoes, ConfGoes, RefGoes, RecGoes, MonitorGoes, DAL.Keyed, ReadSafe;
      hide RefTurns, RefTurn;
      var i := 0;
      did := [];
      NoTurns(world.sent);
      assert refundable[..0] == [];
      while i < |refundable|
        invariant i <= |refundable|
        invariant Valid() && Ran(c, Job(RefundJob), start, world, own) && world.refu == RefNext(refundable[i..])
        invariant old(world.sent) <= world.sent && own == old(own) + did
        invariant RefTurns(faulty, refundable[..i], did, world.sent)
      {
        assert refundable[i..] == [refundable[i]] + refundable[i + 1..];
        ghost var before := world.sent;
        ghost var turn := RefundOne(start, faulty, refundable[i], refundable[i + 1..]);
        RefTurnsStay(faulty, refundable[..i], did, before, world.sent);
        RefTurnsPush(faulty, refundable[..i], refundable[i], did, turn, world.sent);
        assert refundable[..i + 1] == refundable[..i] + [refundable[i]];
        did := did + turn;
        i := i + 1;
      }
      assert refundable[i..] == [] && refundable[..i] == refundable;
    }

    /** The loop body for one row. */
    method RefundOne(ghost start: State, faulty: bool, x: Row, ghost rest: seq<Row>) returns (ghost did: seq<Action>)
      requires Valid() && Ran(c, Job(RefundJob), start, world, own) && world.refu == RefNext([x] + rest)
      modifies this, db
      ensures Valid() && Ran(c, Job(RefundJob), start, world, own) && world.refu == RefNext(rest)
      ensures old(world.sent) <= world.sent && own == old(own) + did
      ensures old(ReadSafe(world.chain, x.chainId, x.tid)) == Settled ==> did == [RefSkip] || did == [RefRead]
      ensures old(ReadSafe(world.chain, x.chainId, x.tid)) == Returned ==>
                did == [RefSkip] || (|did| == 2 && did[1].RefSetReturned?)
      ensures RefTurn(did, x, faulty, world.sent)
    {
      hide Inv, Ran, Selects, Evolves, SendGoes, ConfGoes, RefGoes, RecGoes, MonitorGoes, DAL.Keyed, ReadSafe;
      hide RefTurn, ReturnTurn;
      ghost var before := world;
      Interfere(start, Job(RefundJob));
      SafeMoves(before, world, x.chainId, x.tid);
      FromRefNext(c, world, x, rest);
      RefServed(c, world, x, rest);
      var err: bool := *;
      err := err && faulty;
      if x.chainId !in c.chains || err {
        FireRefund(start, RefSkip, RefNext(rest), {});
        RefTurnShapes([], x, faulty, world.sent);
        return [RefSkip];
      }
      did := [];
      match ReadSafe(world.chain, x.chainId, x.tid) {
        case Pending =>
          FireRefund(start, RefRead, RefMarking(x, rest), {});
          did := ReturnOne(start, faulty, x, rest);
        case Returned =>
          FireRefund(start, RefRead, RefReturned(x, rest), {});
          did := CloseOne(start, faulty, x, rest);
        case _ =>
          FireRefund(start, RefRead, RefNext(rest), {});
      }
      RefTurnShapes(did, x, faulty, world.sent);
      did := [RefRead] + did;
    }

    /** The chain already returned the transfer: copy that into the row. */
    method CloseOne(ghost start: State, faulty: bool, x: Row, ghost rest: seq<Row>) returns (ghost did: seq<Action>)
      requires Valid() && Ran(c, Job(RefundJob), start, world, own) && world.refu == RefReturned(x, rest)
      modifies this, db
      ensures Valid() && Ran(c, Job(RefundJob), start, world, own) && world.refu == RefNext(rest)
      ensures old(world.sent) <= world.sent && own == old(own) + did
      ensures CloseTurn(did, faulty)
    {
      hide Inv, Ran, Selects, Evolves, SendGoes, ConfGoes, RefGoes, RecGoes, MonitorGoes, DAL.Keyed, ReadSafe;
      Interfere(start, Job(RefundJob));
      var ok: bool := *;
      ok := ok || !faulty;
      FromRefReturned(c, world, x, rest, ok);
      if ok {
        db.UpdateTransferStatus(x.tid, Refunded);
      }
      FireRefund(start, RefSetReturned(ok), RefNext(rest), {});
      did := [RefSetReturned(ok)];
    }

    /** Mark the row, whether or not that works, and settle what to do with it. */
    method ReturnOne(ghost start: State, faulty: bool, x: Row, ghost rest: seq<Row>) returns (ghost did: seq<Action>)
      requires Valid() && Ran(c, Job(RefundJob), start, world, own) && world.refu == RefMarking(x, rest)
      modifies this, db
      ensures Valid() && Ran(c, Job(RefundJob), start, world, own) && world.refu == RefNext(rest)
      ensures old(world.sent) <= world.sent && own == old(own) + did
      ensures ReturnTurn(did, x, faulty, world.sent)
    {
      hide Inv, Ran, Selects, Evolves, SendGoes, ConfGoes, RefGoes, RecGoes, MonitorGoes, DAL.Keyed, ReadSafe;
      hide ReturnTurn, RelateTurn;
      Interfere(start, Job(RefundJob));
      var ok: bool := *;
      ok := ok || !faulty;
      FromRefMarking(c, world, x, rest, ok);
      if ok {
        db.SetTransferStatusByFrom(x.tid, RefundPending, Locked, world.now);
      }
      FireRefund(start, RefMark(ok), RefRelating(x, rest), {});
      ghost var rel;
      did, rel := RelateOne(start, faulty, x, rest);
      ReturnTurnShapes(did, x, rel, ok, faulty, world.sent);
      did := [RefMark(ok)] + did;
    }

    /** The related row decides: confirm with its preimage if it is CONFIRMED, else go on to refund. */
    method RelateOne(ghost start: State, faulty: bool, x: Row, ghost rest: seq<Row>)
      returns (ghost did: seq<Action>, ghost rel: Option<Row>)
      requires Valid() && Ran(c, Job(RefundJob), start, world, own) && world.refu == RefRelating(x, rest)
      modifies this, db
      ensures Valid() && Ran(c, Job(RefundJob), start, world, own) && world.refu == RefNext(rest)
      ensures old(world.sent) <= world.sent && own == old(own) + did
      ensures RelateTurn(did, x, rel, faulty, world.sent)
      ensures !faulty && x.relTid in old(db.table) && old(db.table[x.relTid]).status == Confirmed ==>
                rel.Some? && rel.value.status == Confirmed
    {
      hide Inv, Ran, Selects, Evolves, SendGoes, ConfGoes, RefGoes, RecGoes, MonitorGoes, DAL.Keyed, ReadSafe;
      hide RelateTurn, ConfirmTurn, CheckTurn;
      ghost var before := world;
      rel := None;
      Interfere(start, Job(RefundJob));
      if x.relTid in before.table {
        RowStays(before, world, x.relTid);
      }
      FromRefRelating(c, world, x, rest);
      var err: bool := *;
      err := err && faulty;
      if err {
        FireRefund(start, RefSkip, RefNext(rest), {});
        RelateTurnShapes([], x, rel, faulty, world.sent);
        return [RefSkip], rel;
      }
      var related := db.GetTransferByTid(x.relTid);
      rel := related;
      if related.Some? && related.value.status == Confirmed {
        ConfirmedHasPreimage(c, world, x.relTid);
      }
      FireRefund(start, RefRelate, Related(c, x, rest, related), {});
      did := [];
      if related.Some? && related.value.status == Confirmed {
        did := ConfirmInstead(start, faulty, x, rest, related.value.Decoded());
      } else if related.Some? && related.value.chainId in c.chains {
        did := CheckAndReturn(start, faulty, x, rest, related.value);
      }
      RelateTurnShapes(did, x, rel, faulty, world.sent);
      did := [RefRelate] + did;
    }

    /** The OUT transfer is confirmed: confirm the IN transfer with its preimage. */
    method ConfirmInstead(ghost start: State, faulty: bool, x: Row, ghost rest: seq<Row>, p: Preimage)
      returns (ghost did: seq<Action>)
      requires Valid() && Ran(c, Job(RefundJob), start, world, own) && world.refu == RefConfirming(x, rest, p)
      modifies this, db
      ensures Valid() && Ran(c, Job(RefundJob), start, world, own) && world.refu == RefNext(rest)
      ensures old(world.sent) <= world.sent && own == old(own) + did
      ensures ConfirmTurn(did, x, p, faulty, world.sent)
    {
      hide Inv, Ran, Selects, Evolves, SendGoes, ConfGoes, RefGoes, RecGoes, MonitorGoes, DAL.Keyed, ReadSafe;
      Interfere(start, Job(RefundJob));
      var pool: bool := *;
      pool := pool || !faulty;
      FromRefSubmitting(c, world, x, rest, p, pool);
      FireRefund(start, RefConfirm(pool), RefNext(rest), if pool then {TxConfirm(x.chainId, x.tid, p)} else {});
      did := [RefConfirm(pool)];
    }

    /** Refund, unless the chain of the related transfer shows it confirmed. */
    method CheckAndReturn(ghost start: State, faulty: bool, x: Row, ghost rest: seq<Row>, related: Row)
      returns (ghost did: seq<Action>)
      requires Valid() && Ran(c, Job(RefundJob), start, world, own) && world.refu == RefReadingOut(x, rest, related)
      modifies this, db
      ensures Valid() && Ran(c, Job(RefundJob), start, world, own) && world.refu == RefNext(rest)
      ensures old(world.sent) <= world.sent && own == old(own) + did
      ensures old(ReadSafe(world.chain, related.chainId, related.tid)) == Settled ==>
                did == [RefSkip] || did == [RefReadOut]
      ensures CheckTurn(did, x, faulty, world.sent)
    {
      hide Inv, Ran, Selects, Evolves, SendGoes, ConfGoes, RefGoes, RecGoes, MonitorGoes, DAL.Keyed, ReadSafe;
      ghost var before := world;
      Interfere(start, Job(RefundJob));
      SafeMoves(before, world, related.chainId, related.tid);
      FromRefReadingOut(c, world, x, rest, related);
      var err: bool := *;
      err := err && faulty;
      if err {
        FireRefund(start, RefSkip, RefNext(rest), {});
        return [RefSkip];
      }
      var remoteOut := ReadSafe(world.chain, related.chainId, related.tid);
      if remoteOut == Settled {
        FireRefund(start, RefReadOut, RefNext(rest), {});
        return [RefReadOut];
      }
      FireRefund(start, RefReadOut, RefCalling(x, rest), {});
      Interfere(start, Job(RefundJob));
      var pool: bool := *;
      pool := pool || !faulty;
      FromRefSubmitting(c, world, x, rest, ZERO_HASH, pool);
      FireRefund(start, RefRefund(pool), RefNext(rest), if pool then {TxRefund(x.chainId, x.tid)} else {});
      did := [RefReadOut, RefRefund(pool)];
    }

    // ----- recovering -----

    /** One of the three recovery procedures. */
    method ProcessRecoverTimeoutPending(q: Selection, faulty: bool)
      returns (failed: bool, ghost rows: seq<Row>, ghost did: seq<Action>)
      requires Valid() && world.reco == RecReady(q)
      modifies this, db
      ensures Valid() && world.reco == RecReady(AfterQuery(q)) && Ran(c, Job(RecoverJob), old(world), world, own)
      ensures !failed && RecoverQuery(q) ==> forall x :: x in rows ==> Recoverable(x, q)
      ensures failed ==> faulty && own == [RecSkip]
      ensures !failed ==> own == [RecQuery(rows)] + did + [RecEnd] && RecTurns(faulty, rows, did)
    {
      hide Inv, Ran, Selects, Evolves, SendGoes, ConfGoes, RefGoes, RecGoes, MonitorGoes, DAL.Keyed, ReadSafe;
      hide RecTurns;
      ghost var start := world;
      own := [];
      RanNothing(c, Job(RecoverJob), start);
      Interfere(start, Job(RecoverJob));
      failed := *;
      failed := failed && faulty;
      var pending := db.Select(q, world.now);
      rows, did := pending, [];
      FromRecReady(c, world, q, pending);
      if failed {
        FireRecover(start, RecSkip, RecReady(AfterQuery(q)));
        return;
      }
      FireRecover(start, RecQuery(pending), RecRun(q, pending));
      did := RestoreRows(start, faulty, q, pending);
      Interfere(start, Job(RecoverJob));
      FromRecDone(c, world, q);
      FireRecover(start, RecEnd, RecReady(AfterQuery(q)));
    }

    /** One tick of the recovery job: the three queries, in this order, and back to where it started. */
    method RecoverTick(faulty: bool)
      returns (ghost first: seq<Action>, ghost second: seq<Action>, ghost third: seq<Action>)
      requires Valid() && world.reco == RecReady(TimeoutPendingIn)
      modifies this, db
      ensures Valid() && world.reco == RecReady(TimeoutPendingIn)
      ensures Ran(c, Job(RecoverJob), old(world), world, first + second + third)
      ensures RecoverPass(first, InPending, faulty) && RecoverPass(second, ConfirmPending, faulty)
      ensures RecoverPass(third, RefundPending, faulty)
    {
      hide Inv, Ran, Selects, Evolves, SendGoes, ConfGoes, RefGoes, RecGoes, MonitorGoes, DAL.Keyed, ReadSafe;
      hide RecTurns, RecoverPass;
      ghost var start := world;
      first := RecoverOnce(TimeoutPendingIn, faulty);
      ghost var mid := world;
      second := RecoverOnce(TimeoutPendingConfirm, faulty);
      RanOn(c, Job(RecoverJob), start, mid, world, first, second);
      mid := world;
      third := RecoverOnce(TimeoutPendingRefund, faulty);
      RanOn(c, Job(RecoverJob), start, mid, world, first + second, third);
    }

    method RecoverOnce(q: Selection, faulty: bool) returns (ghost pass: seq<Action>)
      requires Valid() && world.reco == RecReady(q) && RecoverQuery(q)
      modifies this, db
      ensures Valid() && world.reco == RecReady(AfterQuery(q))
      ensures Ran(c, Job(RecoverJob), old(world), world, pass) && RecoverPass(pass, Restarted(q).1, faulty)
    {
      hide Inv, Ran, Selects, Evolves, SendGoes, ConfGoes, RefGoes, RecGoes, MonitorGoes, DAL.Keyed, ReadSafe;
      hide RecTurns;
      ghost var rows, did;
      var failed;
      failed, rows, did := ProcessRecoverTimeoutPending(q, faulty);
      pass := own;
    }

    /** The rows of a pass, one after the other. */
    method RestoreRows(ghost start: State, faulty: bool, q: Selection, pending: seq<Row>)
      returns (ghost did: seq<Action>)
      requires Valid() && Ran(c, Job(RecoverJob), start, world, own) && world.reco == RecRun(q, pending)
      modifies this, db
      ensures Valid() && Ran(c, Job(RecoverJob), start, world, own) && world.reco == RecRun(q, [])
      ensures old(world.sent) <= world.sent && own == old(own) + did
      ensures RecTurns(faulty, pending, did)
    {
      hide Inv, Ran, Selects, Evolves, SendGoes, ConfGoes, RefGoes, RecGoes, MonitorGoes, DAL.Keyed, ReadSafe;
      hide RecTurns, RestoreTurn;
      var i := 0;
      did := [];
      NoTurns(world.sent);
      assert pending[..0] == [];
      while i < |pending|
        invariant i <= |pending|
        invariant Valid() && Ran(c, Job(RecoverJob), start, world, own) && world.reco == RecRun(q, pending[i..])
        invariant old(world.sent) <= world.sent
        invariant own == old(own) + did && RecTurns(faulty, pending[..i], did)
      {
        assert pending[i..] == [pending[i]] + pending[i + 1..];
        ghost var turn := RestoreOne(start, faulty, q, pending[i], pending[i + 1..]);
        RecTurnsPush(faulty, pending[..i], pending[i], did, turn);
        assert pending[..i + 1] == pending[..i] + [pending[i]];
        did := did + turn;
        i := i + 1;
      }
      assert pending[i..] == [] && pending[..i] == pending;
    }

    /** Back to the status that the jobs select. */
    method RestoreOne(ghost start: State, faulty: bool, q: Selection, x: Row, ghost rest: seq<Row>)
      returns (ghost did: seq<Action>)
      requires Valid() && Ran(c, Job(RecoverJob), start, world, own) && world.reco == RecRun(q, [x] + rest)
      modifies this, db
      ensures Valid() && Ran(c, Job(RecoverJob), start, world, own) && world.reco == RecRun(q, rest)
      ensures old(world.sent) <= world.sent && own == old(own) + did
      ensures RestoreTurn(did, faulty)
    {
      hide Inv, Ran, Selects, Evolves, SendGoes, ConfGoes, RefGoes, RecGoes, MonitorGoes, DAL.Keyed, ReadSafe;
      Interfere(start, Job(RecoverJob));
      var ok: bool := *;
      ok := ok || !faulty;
      RecoverQueryOf(c, world);
      FromRecRun(c, world, q, x, rest, ok);
      if ok {
        db.SetTransferStatusByFrom(x.tid, Restarted(q).0, Restarted(q).1, world.now);
      }
      FireRecover(start, RecRestore(ok), RecRun(q, rest));
      did := [RecRestore(ok)];
    }

    // ----- event handlers; `retry` asks the monitor to deliver the event again -----

    /**
     * A user locked funds for the relay on the source chain: record both sides of the transfer. Where the wrapped power
     * is zero the division panics, which ends the node's process: its jobs forget everything but the database.
     */
    method HandleTransferOut(t: Tid, d: Deposit, faulty: bool) returns (retry: bool, panicked: bool)
      requires Valid() && Logged(world, t, d) && d.origin.OutLock? && d.amount >= 0 && t.chain in c.chains
      modifies this, db
      ensures Valid() && Ran(c, Handler(OutSecond(Note(t, old(world.now)))), old(world), world, own)
      ensures retry ==> faulty
      ensures panicked <==> DividesByZero(c, t, d)
      ensures panicked ==> world == old(world).(notes := {}, revealing := {}, send := SendIdle, conf := ConfIdle,
                                                refu := RefIdle, reco := RecReady(TimeoutPendingIn))
      ensures !retry && QuoteFor(c, t, d).Some? ==>
                && t in db.table
                && (InTimeLock(d.timelock, old(world.now)).Some? ==> InTidFor(t, d) in db.table)
    {
      hide Inv, Ran, Selects, Evolves, SendGoes, ConfGoes, RefGoes, RecGoes, MonitorGoes, DAL.Keyed, ReadSafe;
      ghost var start := world;
      own := [];
      RanNothing(c, Handler(OutSecond(Note(t, world.now))), start);
      retry, panicked := false, false;
      if t.receiver != c.me || d.origin.dstChain !in c.chains {
        return;
      }
      var tsNow := world.now;
      ClockIsNatural(c, world);
      if (t.chain, d.token) !in c.tokenName {
        return;
      }
      var tokenName := c.tokenName[(t.chain, d.token)];
      if (d.origin.dstChain, tokenName) !in c.tokenAddr {
        return;
      }
      var dstToken := c.tokenAddr[(d.origin.dstChain, tokenName)];
      if (t.chain, d.token) !in c.decimals || (d.origin.dstChain, dstToken) !in c.decimals {
        return;
      }
      var dstAmount := ScaleAmount(c.decimals[(t.chain, d.token)], c.decimals[(d.origin.dstChain, dstToken)], d.amount);
      ZeroPower(c, t, d);
      if dstAmount.None? {
        FromPanic(c, world);
        Fire(start, Handler(OutSecond(Note(t, world.now))), Crash);
        panicked := true;
        return;
      }
      assert QuoteFor(c, t, d) == Some(Quote(dstToken, dstAmount.value));
      retry := RecordBoth(start, faulty, t, d, dstToken, dstAmount.value, tsNow);
    }

    /** The two inserts of the handler, with the clock it read at its start. */
    method RecordBoth(ghost start: State, faulty: bool, t: Tid, d: Deposit, dstToken: Token, dstAmount: nat,
                      tsNow: Time)
      returns (retry: bool)
      requires Valid() && Logged(world, t, d) && d.origin.OutLock?
      requires Ran(c, Handler(OutSecond(Note(t, tsNow))), start, world, own) && 0 <= tsNow <= world.now
      requires QuoteFor(c, t, d) == Some(Quote(dstToken, dstAmount))
      modifies this, db
      ensures Valid() && Ran(c, Handler(OutSecond(Note(t, tsNow))), start, world, own)
      ensures retry ==> faulty
      ensures !retry ==>
                && t in db.table
                && (InTimeLock(d.timelock, tsNow).Some? ==> InTidFor(t, d) in db.table)
    {
      hide Inv, Ran, Selects, Evolves, SendGoes, ConfGoes, RefGoes, RecGoes, MonitorGoes, DAL.Keyed, ReadSafe;
      var transferInId := Tid(t.receiver, d.origin.dstAddr, t.lock, d.origin.dstChain);
      var timeout := WrapInt64(d.timelock) - Unix(tsNow);
      var n := Note(t, tsNow);
      ghost var before := world;
      Interfere(start, Handler(OutSecond(Note(t, tsNow))));
      LoggedStays(before, world, t, d);
      var err: bool := *;
      err := err && faulty;
      if err {
        return true;
      }
      var out := Row(t, TransferOut, t.chain, d.token, WrapInt64(d.timelock) * SECOND, t.lock, Locked,
                     transferInId, d.origin.dstChain, dstToken, d.amount, 0, 0, 0, 0, None,
                     t.sender, t.receiver, 0, 0);
      FromOutEvent(c, world, t, d, tsNow);
      db.InsertTransfer(out, world.now);
      before := world;
      FireMonitor(start, Handler(OutSecond(Note(t, tsNow))), OutFirst(t, tsNow));
      if timeout < MIN_SRC_TIMEOUT {
        return false;
      }
      LoggedStays(before, world, t, d);
      before := world;
      Interfere(start, Handler(OutSecond(Note(t, tsNow))));
      LoggedStays(before, world, t, d);
      RowStays(before, world, t);
      FromOutNote(c, world, n, d);
      err := *;
      err := err && faulty;
      if err {
        FireMonitor(start, Handler(OutSecond(Note(t, tsNow))), OutDrop(n));
        return true;
      }
      var inn := Row(transferInId, TransferIn, d.origin.dstChain, dstToken,
                     tsNow + WrapInt64((timeout - LOCK_GAP) * SECOND), t.lock, InStart,
                     t, t.chain, d.token, dstAmount, 0, 0, 0, 0, None, t.receiver, d.origin.dstAddr, 0, 0);
      db.InsertTransfer(inn, world.now);
      FireMonitor(start, Handler(OutSecond(Note(t, tsNow))), OutSecond(n));
      retry := false;
    }

    /** The relay's own lock on the destination chain became visible. */
    method HandleTransferIn(t: Tid, d: Deposit, faulty: bool) returns (retry: bool)
      requires Valid() && Logged(world, t, d) && d.origin.InLock?
      modifies this, db
      ensures Valid() && Ran(c, Handler(InSeen(t)), old(world), world, own)
      ensures retry ==> faulty
      ensures !retry && t.sender == c.me && t in db.table ==> !Unsent(db.table[t].status)
    {
      hide Inv, Ran, Selects, Evolves, SendGoes, ConfGoes, RefGoes, RecGoes, MonitorGoes, DAL.Keyed, ReadSafe;
      ghost var start := world;
      own := [];
      RanNothing(c, Handler(InSeen(t)), start);
      if t.sender != c.me {
        return false;
      }
      ghost var before := world;
      Interfere(start, Handler(InSeen(t)));
      LoggedStays(before, world, t, d);
      retry := *;
      retry := retry && faulty;
      if !retry {
        FromInEvent(c, world, t, d);
        db.RecordTransferIn(t);
        FireMonitor(start, Handler(InSeen(t)), InSeen(t));
      }
    }

    /** A transfer was settled with preimage `p`: store it in its row and in every row related to it. */
    method HandleConfirm(t: Tid, p: Preimage, faulty: bool) returns (retry: bool)
      requires Valid() && LoggedPreimage(world, t, p)
      modifies this, db
      ensures Valid() && Ran(c, Handler(ConfirmSecond(t)), old(world), world, own)
      ensures retry ==> faulty
      ensures !retry ==> forall u :: u in db.table && db.table[u].relTid == t ==> db.table[u].preimage == Some(p)
      ensures !retry && t in old(db.table) ==> t in db.table && db.table[t].status == Confirmed
    {
      hide Inv, Ran, Selects, Evolves, SendGoes, ConfGoes, RefGoes, RecGoes, MonitorGoes, DAL.Keyed, ReadSafe;
      ghost var start := world;
      own := [];
      RanNothing(c, Handler(ConfirmSecond(t)), start);
      ghost var before := world;
      Interfere(start, Handler(ConfirmSecond(t)));
      LoggedPreimageStays(c, before, world, t, p);
      if t in before.table {
        RowStays(before, world, t);
      }
      retry := *;
      retry := retry && faulty;
      if retry {
        return;
      }
      FromConfirmEvent(c, world, t, p);
      db.ConfirmTransfer(t, p);
      before := world;
      FireMonitor(start, Handler(ConfirmSecond(t)), ConfirmFirst(t));
      LoggedPreimageStays(c, before, world, t, p);
      before := world;
      Interfere(start, Handler(ConfirmSecond(t)));
      LoggedPreimageStays(c, before, world, t, p);
      if t in before.table {
        RowStays(before, world, t);
      }
      FromConfirmEvent(c, world, t, p);
      retry := *;
      retry := retry && faulty;
      if retry {
        FireMonitor(start, Handler(ConfirmSecond(t)), ConfirmDrop(t));
        return;
      }
      db.SetRelatedTxPreimage(p, t);
      FireMonitor(start, Handler(ConfirmSecond(t)), ConfirmSecond(t));
    }

    /** A transfer was refunded. */
    method HandleRefund(t: Tid, faulty: bool) returns (retry: bool)
      requires Valid() && SafeIs(world, t, Returned)
      modifies this, db
      ensures Valid() && Ran(c, Handler(RefundSeen(t)), old(world), world, own)
      ensures retry ==> faulty
      ensures !retry && t in db.table ==> db.table[t].status == Refunded
    {
      hide Inv, Ran, Selects, Evolves, SendGoes, ConfGoes, RefGoes, RecGoes, MonitorGoes, DAL.Keyed, ReadSafe;
      ghost var start := world;
      own := [];
      RanNothing(c, Handler(RefundSeen(t)), start);
      ghost var before := world;
      Interfere(start, Handler(RefundSeen(t)));
      ReturnedStays(c, before, world, t);
      retry := *;
      retry := retry && faulty;
      if !retry {
        FromRefundEvent(c, world, t);
        db.RefundTransfer(t);
        FireMonitor(start, Handler(RefundSeen(t)), RefundSeen(t));
      }
    }
  }
}
