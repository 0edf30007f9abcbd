/**
 * What a procedure of the node needs to know of the transition system: runs put together, what everyone else may do
 * between two of its statements, and where each of its own statements leads.
 */
module Steps {
  import opened Types
  import opened Scaling
  import opened TimeLock
  import opened Dal
  import opened Ledger
  import opened Protocol
  import opened Frames
  import opened Invariant
  import opened Preserve

  // ----- who runs -----

  /** Who is running: a job, or the handler of one event with a second statement still to come. */
  datatype Self = Job(who: Actor) | Handler(second: Action)

  /** The steps of one actor in a run. */
  ghost function Own(acts: seq<Action>, who: Actor): seq<Action> {
    if acts == [] then []
    else if Who(acts[0]) == who then [acts[0]] + Own(acts[1..], who)
    else Own(acts[1..], who)
  }

  lemma {:induction false} OwnConcat(a: seq<Action>, b: seq<Action>, who: Actor)
    ensures Own(a + b, who) == Own(a, who) + Own(b, who)
  {
    hide Who;
    if a == [] {
      assert a + b == b;
    } else {
      OwnConcat(a[1..], b, who);
      OwnStep(a, who);
      OwnStep(a + b, who);
      hide Own;
      assert (a + b)[0] == a[0] && (a + b)[1..] == a[1..] + b;
    }
  }

  lemma OwnStep(a: seq<Action>, who: Actor)
    requires a != []
    ensures Own(a, who) == (if Who(a[0]) == who then [a[0]] else []) + Own(a[1..], who)
  {
  }

  // ----- runs -----

  /** Some run leads from `s` to `s'`; if `me` is a job, its own steps in that run are `own`, in this order. */
  ghost predicate Ran(c: Config, me: Self, s: State, s': State, own: seq<Action>) {
    exists acts: seq<Action> ::
      Legal(c, s, acts) && Exec(c, s, acts) == s' && (me.Job? ==> Own(acts, me.who) == own)
  }

  lemma {:induction false} LegalConcat(c: Config, s: State, a: seq<Action>, b: seq<Action>)
    requires Legal(c, s, a) && Legal(c, Exec(c, s, a), b)
    ensures Legal(c, s, a + b) && Exec(c, s, a + b) == Exec(c, Exec(c, s, a), b)
    decreases |a|
  {
    hide Enabled, Apply;
    if a == [] {
      assert a + b == b;
    } else {
      LegalConcat(c, Apply(c, s, a[0]), a[1..], b);
      assert (a + b)[0] == a[0] && (a + b)[1..] == a[1..] + b;
    }
  }

  lemma RanNothing(c: Config, me: Self, s: State)
    ensures Ran(c, me, s, s, [])
  {
    hide Enabled, Apply;
    assert Legal(c, s, []) && Exec(c, s, []) == s;
  }

  lemma RanOn(c: Config, me: Self, r: State, s: State, t: State, own: seq<Action>, more: seq<Action>)
    requires Ran(c, me, r, s, own) && Ran(c, me, s, t, more)
    ensures Ran(c, me, r, t, own + more)
  {
    hide Enabled, Apply;
    var a :| Legal(c, r, a) && Exec(c, r, a) == s && (me.Job? ==> Own(a, me.who) == own);
    var b :| Legal(c, s, b) && Exec(c, s, b) == t && (me.Job? ==> Own(b, me.who) == more);
    LegalConcat(c, r, a, b);
    if me.Job? {
      OwnConcat(a, b, me.who);
    }
  }

  lemma RanOne(c: Config, me: Self, s: State, a: Action)
    requires Enabled(c, s, a) && (me.Job? ==> Who(a) == me.who)
    ensures Ran(c, me, s, Apply(c, s, a), [a])
  {
    hide Enabled, Apply;
    OneAction(c, s, a);
    assert [a][1..] == [];
    assert me.Job? ==> Own([a], me.who) == [a] + Own([], me.who);
  }

  /** So everything proved of reachable states holds between any two procedures of a node. */
  lemma RanIsReachable(c: Config, me: Self, s: State, s': State, own: seq<Action>)
    requires Reachable(c, s) && Ran(c, me, s, s', own)
    ensures Reachable(c, s')
  {
    hide Enabled, Apply;
    var now: Time, a: seq<Action> :| 0 <= now && Legal(c, Init(now), a) && Exec(c, Init(now), a) == s;
    var b :| Legal(c, s, b) && Exec(c, s, b) == s' && (me.Job? ==> Own(b, me.who) == own);
    LegalConcat(c, Init(now), a, b);
    assert Legal(c, Init(now), a + b) && Exec(c, Init(now), a + b) == s';
  }

  lemma OneAction(c: Config, s: State, a: Action)
    requires Enabled(c, s, a)
    ensures Legal(c, s, [a]) && Exec(c, s, [a]) == Apply(c, s, a)
  {
    hide Enabled, Apply;
    assert [a][1..] == [];
    assert Legal(c, Apply(c, s, a), []);
    assert Legal(c, s, [a]);
    assert Exec(c, s, [a]) == Exec(c, Apply(c, s, a), [a][1..]);
  }

  // ----- interference -----

  /** Not a step of `me`, nor a restart of the node. */
  predicate Foreign(a: Action, me: Self) {
    && !a.Crash?
    && (match me
        case Job(who) => Who(a) != who
        case Handler(h) =>
          && a != h
          && (h.OutSecond? ==> a != OutDrop(h.n))
          && (h.ConfirmSecond? ==> a != ConfirmDrop(h.t)))
  }

  /** `me` stands where it stood. */
  ghost predicate Stands(s: State, s': State, me: Self) {
    match me
    case Job(SendJob) => s'.send == s.send
    case Job(ConfirmJob) => s'.conf == s.conf
    case Job(RefundJob) => s'.refu == s.refu
    case Job(RecoverJob) => s'.reco == s.reco
    case Handler(OutSecond(n)) => n in s.notes ==> n in s'.notes
    case Handler(ConfirmSecond(t)) => t in s.revealing ==> t in s'.revealing
    case _ => true
  }

  lemma StepStands(c: Config, s: State, a: Action, me: Self)
    requires Enabled(c, s, a) && Foreign(a, me)
    ensures Stands(s, Apply(c, s, a), me)
  {
    hide Enabled, Apply;
    match Who(a) {
      case Environment => EnvironmentFrame(c, s, a);
      case Monitors =>
        MonitorFrame(c, s, a);
        if me.Handler? {
          MonitorStands(c, s, a, me);
        }
      case SendJob => SendFrame(c, s, a);
      case ConfirmJob => ConfirmFrame(c, s, a);
      case RefundJob => RefundFrame(c, s, a);
      case RecoverJob => RecoverFrame(c, s, a);
    }
  }

  lemma MonitorStands(c: Config, s: State, a: Action, me: Self)
    requires Enabled(c, s, a) && Foreign(a, me) && Who(a) == Monitors && me.Handler?
    ensures Stands(s, Apply(c, s, a), me)
  {
    hide Enabled, Apply, OutEvent, QuoteFor, Inserted, InRecorded, ConfirmedIn, StatusSet, RelatedPreimageSet;
    MonitorApplies(c, s, a);
  }

  lemma {:induction false} OthersLeaveStanding(c: Config, s: State, acts: seq<Action>, me: Self)
    requires Legal(c, s, acts) && forall a :: a in acts ==> Foreign(a, me)
    ensures Stands(s, Exec(c, s, acts), me)
    decreases |acts|
  {
    hide Enabled, Apply, Foreign;
    if acts != [] {
      StepStands(c, s, acts[0], me);
      OthersLeaveStanding(c, Apply(c, s, acts[0]), acts[1..], me);
    }
  }

  /** All that a run of everyone else leaves `me`: the invariant, `me` where it stood, and a world that only evolved. */
  lemma OthersAreCovered(c: Config, s: State, acts: seq<Action>, me: Self)
    requires Inv(c, s) && Legal(c, s, acts) && forall a :: a in acts ==> Foreign(a, me)
    ensures var s' := Exec(c, s, acts);
            Inv(c, s') && Evolves(s, s') && Stands(s, s', me) && Ran(c, me, s, s', [])
  {
    hide Inv, Enabled, Apply, Evolves, Stands;
    RunKeeps(c, s, acts);
    OthersLeaveStanding(c, s, acts, me);
    if me.Job? {
      OwnNothing(acts, me.who);
    }
  }

  lemma {:induction false} OwnNothing(acts: seq<Action>, who: Actor)
    requires forall a :: a in acts ==> Who(a) != who
    ensures Own(acts, who) == []
  {
    if acts != [] {
      OwnNothing(acts[1..], who);
    }
  }

  lemma Stepped(c: Config, s: State, a: Action)
    requires Inv(c, s) && Enabled(c, s, a)
    ensures Inv(c, Apply(c, s, a)) && Evolves(s, Apply(c, s, a))
  {
    hide Inv, Enabled, Apply, Evolves;
    StepKeeps(c, s, a);
  }

  lemma NothingYet(s: State, me: Self)
    ensures Stands(s, s, me) && Evolves(s, s)
  {
  }

  // ----- what a procedure does: its own steps, in order -----

  // With `faulty` false no call fails: nothing is skipped, every write is made and every submission handed over.

  /** The transferIn call for a row: its receiver, token, hash lock, whole-second time lock and OUT transfer. */
  function InCall(x: Row, amount: int): Tx {
    TxIn(x.chainId, x.receiver, x.token, amount, x.hashLock, x.timeLock / 1_000_000_000 % 0x1_0000_0000_0000_0000,
         x.relChain, x.relTid)
  }

  /** One submission of exactly this amount, or after a failure two. */
  ghost predicate SubmitTurn(d: seq<Action>, x: Row, amount: int, faulty: bool, sent: set<Tx>) {
    && (if !faulty then d == [SendSubmit(true, true)]
        else
          || (|d| == 1 && d[0].SendSubmit? && d[0].ok)
          || (|d| == 2 && d[0].SendSubmit? && !d[0].ok && d[1].SendSubmit?))
    && (forall a :: a in d && a.pool ==> InCall(x, amount) in sent)
  }

  /** Skip a fee that is too high; otherwise store this very fee, mark the row and submit what the fee leaves. */
  ghost predicate PriceTurn(d: seq<Action>, x: Row, fee: nat, faulty: bool, sent: set<Tx>) {
    || (d == [SendSkip] && (faulty || fee > x.amount + x.fee))
    || (d == [SendPrice(fee), SendSkip] && faulty && fee <= x.amount + x.fee)
    || (|d| >= 2 && d[0] == SendPrice(fee) && d[1] == SendMark && fee <= x.amount + x.fee &&
        SubmitTurn(d[2..], x, x.amount + x.fee - fee, faulty, sent))
  }

  ghost predicate FixTurn(d: seq<Action>, faulty: bool) {
    |d| == 1 && d[0].SendFix? && (d[0].ok || faulty)
  }

  /** Too late; or a chain read, after which the row is left, fixed, or priced and sent. */
  ghost predicate SendTurn(d: seq<Action>, x: Row, fee: nat, faulty: bool, sent: set<Tx>) {
    || d == [SendLate]
    || (d == [SendCheck, SendSkip] && faulty)
    || (|d| >= 2 && d[0] == SendCheck && d[1] == SendRead &&
        (d[2..] == [] || FixTurn(d[2..], faulty) || PriceTurn(d[2..], x, fee, faulty, sent)))
  }

  /** A mark, and a `confirm` with the row's own preimage. */
  ghost predicate ClaimTurn(d: seq<Action>, x: Row, faulty: bool, sent: set<Tx>) {
    && |d| == 2 && d[0].ConfMark? && d[1].ConfSubmit? && (faulty || (d[0].ok && d[1].pool))
    && (d[1].pool ==> x.preimage.Some? && TxConfirm(x.chainId, x.tid, x.preimage.value) in sent)
  }

  ghost predicate FinishTurn(d: seq<Action>, returned: bool, faulty: bool) {
    |d| == 1 && (if returned then d[0].ConfSetReturned? else d[0].ConfSetSettled?) && (d[0].ok || faulty)
  }

  /** A chain read, after which the row is left, claimed, or given the status the chain has decided. */
  ghost predicate ConfTurn(d: seq<Action>, x: Row, faulty: bool, sent: set<Tx>) {
    || (d == [ConfSkip] && faulty)
    || (d != [] && d[0] == ConfRead &&
        (d[1..] == [] || ClaimTurn(d[1..], x, faulty, sent) || FinishTurn(d[1..], true, faulty) ||
         FinishTurn(d[1..], false, faulty)))
  }

  ghost predicate ConfirmTurn(d: seq<Action>, x: Row, p: Preimage, faulty: bool, sent: set<Tx>) {
    && |d| == 1 && d[0].RefConfirm? && (d[0].pool || faulty)
    && (d[0].pool ==> TxConfirm(x.chainId, x.tid, p) in sent)
  }

  /** A refund is submitted only right after a read of the OUT transfer's chain. */
  ghost predicate CheckTurn(d: seq<Action>, x: Row, faulty: bool, sent: set<Tx>) {
    || (d == [RefSkip] && faulty)
    || d == [RefReadOut]
    || (|d| == 2 && d[0] == RefReadOut && d[1].RefRefund? && (d[1].pool || faulty) &&
        (d[1].pool ==> TxRefund(x.chainId, x.tid) in sent))
  }

  /** The related row found decides: its preimage confirms, or its chain is read. */
  ghost predicate RelateTurn(d: seq<Action>, x: Row, rel: Option<Row>, faulty: bool, sent: set<Tx>) {
    || (d == [RefSkip] && faulty)
    || (d != [] && d[0] == RefRelate &&
        (if rel.Some? && rel.value.status == Confirmed
         then rel.value.preimage.Some? && ConfirmTurn(d[1..], x, rel.value.preimage.value, faulty, sent)
         else d[1..] == [] || CheckTurn(d[1..], x, faulty, sent)))
  }

  ghost predicate ReturnTurn(d: seq<Action>, x: Row, faulty: bool, sent: set<Tx>) {
    && d != [] && d[0].RefMark? && (d[0].ok || faulty)
    && exists rel: Option<Row> :: RelateTurn(d[1..], x, rel, faulty, sent)
  }

  ghost predicate CloseTurn(d: seq<Action>, faulty: bool) {
    |d| == 1 && d[0].RefSetReturned? && (d[0].ok || faulty)
  }

  /** A chain read, after which the row is left, closed, or marked and then confirmed or refunded. */
  ghost predicate RefTurn(d: seq<Action>, x: Row, faulty: bool, sent: set<Tx>) {
    || (d == [RefSkip] && faulty)
    || (d != [] && d[0] == RefRead &&
        (d[1..] == [] || CloseTurn(d[1..], faulty) || ReturnTurn(d[1..], x, faulty, sent)))
  }

  ghost predicate RestoreTurn(d: seq<Action>, faulty: bool) {
    |d| == 1 && d[0].RecRestore? && (d[0].ok || faulty)
  }

  lemma SendTurnStays(d: seq<Action>, x: Row, fee: nat, faulty: bool, sent: set<Tx>, more: set<Tx>)
    requires SendTurn(d, x, fee, faulty, sent) && sent <= more
    ensures SendTurn(d, x, fee, faulty, more)
  {
  }

  lemma ConfTurnStays(d: seq<Action>, x: Row, faulty: bool, sent: set<Tx>, more: set<Tx>)
    requires ConfTurn(d, x, faulty, sent) && sent <= more
    ensures ConfTurn(d, x, faulty, more)
  {
  }

  lemma RefTurnStays(d: seq<Action>, x: Row, faulty: bool, sent: set<Tx>, more: set<Tx>)
    requires RefTurn(d, x, faulty, sent) && sent <= more
    ensures RefTurn(d, x, faulty, more)
  {
    if d != [] && ReturnTurn(d[1..], x, faulty, sent) {
      var rel: Option<Row> :| RelateTurn(d[1..][1..], x, rel, faulty, sent);
      assert RelateTurn(d[1..][1..], x, rel, faulty, more);
      assert ReturnTurn(d[1..], x, faulty, more);
    }
  }

  /** One turn of the send job for each row, in the order of the list. */
  ghost predicate SendTurns(fees: Tid -> nat, faulty: bool, rows: seq<Row>, d: seq<Action>, sent: set<Tx>) {
    if rows == [] then d == []
    else
      var last := |rows| - 1;
      exists k: nat ::
        && k <= |d| && SendTurns(fees, faulty, rows[..last], d[..k], sent)
        && SendTurn(d[k..], rows[last], fees(rows[last].relTid), faulty, sent)
  }

  lemma SendTurnsPush(fees: Tid -> nat, faulty: bool, rows: seq<Row>, x: Row, d: seq<Action>,
                      e: seq<Action>, sent: set<Tx>)
    requires SendTurns(fees, faulty, rows, d, sent) && SendTurn(e, x, fees(x.relTid), faulty, sent)
    ensures SendTurns(fees, faulty, rows + [x], d + e, sent)
  {
    hide SendTurn;
    assert (rows + [x])[..|rows|] == rows && (d + e)[..|d|] == d && (d + e)[|d|..] == e;
  }

  lemma {:induction false} SendTurnsStay(fees: Tid -> nat, faulty: bool, rows: seq<Row>, d: seq<Action>, sent: set<Tx>,
                                         more: set<Tx>)
    requires SendTurns(fees, faulty, rows, d, sent) && sent <= more
    ensures SendTurns(fees, faulty, rows, d, more)
    decreases |rows|
  {
    if rows != [] {
      var last := |rows| - 1;
      var k: nat :|
        && k <= |d| && SendTurns(fees, faulty, rows[..last], d[..k], sent)
        && SendTurn(d[k..], rows[last], fees(rows[last].relTid), faulty, sent);
      SendTurnsStay(fees, faulty, rows[..last], d[..k], sent, more);
      SendTurnStays(d[k..], rows[last], fees(rows[last].relTid), faulty, sent, more);
    }
  }

  /** One turn of the confirm job for each row, in the order of the list. */
  ghost predicate ConfTurns(faulty: bool, rows: seq<Row>, d: seq<Action>, sent: set<Tx>) {
    if rows == [] then d == []
    else
      var last := |rows| - 1;
      exists k: nat ::
        && k <= |d| && ConfTurns(faulty, rows[..last], d[..k], sent)
        && ConfTurn(d[k..], rows[last], faulty, sent)
  }

  lemma ConfTurnsPush(faulty: bool, rows: seq<Row>, x: Row, d: seq<Action>,
                      e: seq<Action>, sent: set<Tx>)
    requires ConfTurns(faulty, rows, d, sent) && ConfTurn(e, x, faulty, sent)
    ensures ConfTurns(faulty, rows + [x], d + e, sent)
  {
    hide ConfTurn;
    assert (rows + [x])[..|rows|] == rows && (d + e)[..|d|] == d && (d + e)[|d|..] == e;
  }

  lemma {:induction false} ConfTurnsStay(faulty: bool, rows: seq<Row>, d: seq<Action>, sent: set<Tx>,
                                         more: set<Tx>)
    requires ConfTurns(faulty, rows, d, sent) && sent <= more
    ensures ConfTurns(faulty, rows, d, more)
    decreases |rows|
  {
    if rows != [] {
      var last := |rows| - 1;
      var k: nat :|
        && k <= |d| && ConfTurns(faulty, rows[..last], d[..k], sent)
        && ConfTurn(d[k..], rows[last], faulty, sent);
      ConfTurnsStay(faulty, rows[..last], d[..k], sent, more);
      ConfTurnStays(d[k..], rows[last], faulty, sent, more);
    }
  }

  /** One turn of the refund job for each row, in the order of the list. */
  ghost predicate RefTurns(faulty: bool, rows: seq<Row>, d: seq<Action>, sent: set<Tx>) {
    if rows == [] then d == []
    else
      var last := |rows| - 1;
      exists k: nat ::
        && k <= |d| && RefTurns(faulty, rows[..last], d[..k], sent)
        && RefTurn(d[k..], rows[last], faulty, sent)
  }

  lemma RefTurnsPush(faulty: bool, rows: seq<Row>, x: Row, d: seq<Action>,
                     e: seq<Action>, sent: set<Tx>)
    requires RefTurns(faulty, rows, d, sent) && RefTurn(e, x, faulty, sent)
    ensures RefTurns(faulty, rows + [x], d + e, sent)
  {
    hide RefTurn;
    assert (rows + [x])[..|rows|] == rows && (d + e)[..|d|] == d && (d + e)[|d|..] == e;
  }

  lemma {:induction false} RefTurnsStay(faulty: bool, rows: seq<Row>, d: seq<Action>, sent: set<Tx>,
                                        more: set<Tx>)
    requires RefTurns(faulty, rows, d, sent) && sent <= more
    ensures RefTurns(faulty, rows, d, more)
    decreases |rows|
  {
    if rows != [] {
      var last := |rows| - 1;
      var k: nat :|
        && k <= |d| && RefTurns(faulty, rows[..last], d[..k], sent)
        && RefTurn(d[k..], rows[last], faulty, sent);
      RefTurnsStay(faulty, rows[..last], d[..k], sent, more);
      RefTurnStays(d[k..], rows[last], faulty, sent, more);
    }
  }

  /** One turn of the recovery job for each row, in the order of the list. */
  ghost predicate RecTurns(faulty: bool, rows: seq<Row>, d: seq<Action>) {
    if rows == [] then d == []
    else
      var last := |rows| - 1;
      exists k: nat ::
        && k <= |d| && RecTurns(faulty, rows[..last], d[..k])
        && RestoreTurn(d[k..], faulty)
  }

  lemma RecTurnsPush(faulty: bool, rows: seq<Row>, x: Row, d: seq<Action>,
                     e: seq<Action>)
    requires RecTurns(faulty, rows, d) && RestoreTurn(e, faulty)
    ensures RecTurns(faulty, rows + [x], d + e)
  {
    hide RestoreTurn;
    assert (rows + [x])[..|rows|] == rows && (d + e)[..|d|] == d && (d + e)[|d|..] == e;
  }

  /** A recovery pass: rows that all have this status, each restored in turn; or a failed query. */
  ghost predicate RecoverPass(own: seq<Action>, from: Status, faulty: bool) {
    || (own == [RecSkip] && faulty)
    || (exists rows: seq<Row>, d: seq<Action> ::
          && own == [RecQuery(rows)] + d + [RecEnd] && RecTurns(faulty, rows, d)
          && forall x :: x in rows ==> x.status == from)
  }

  ghost predicate Recoverable(x: Row, q: Selection) {
    x.status == Restarted(q).1
  }

  lemma SendTurnShapes(d: seq<Action>, x: Row, fee: nat, faulty: bool, sent: set<Tx>)
    ensures SendTurn([SendLate], x, fee, faulty, sent)
    ensures faulty ==> SendTurn([SendCheck, SendSkip], x, fee, faulty, sent)
    ensures d == [] || FixTurn(d, faulty) || PriceTurn(d, x, fee, faulty, sent) ==>
              SendTurn([SendCheck, SendRead] + d, x, fee, faulty, sent)
  {
    hide FixTurn, PriceTurn;
    assert ([SendCheck, SendRead] + d)[2..] == d;
  }

  lemma PriceTurnShapes(d: seq<Action>, x: Row, fee: nat, faulty: bool, sent: set<Tx>)
    ensures faulty || fee > x.amount + x.fee ==> PriceTurn([SendSkip], x, fee, faulty, sent)
    ensures faulty && fee <= x.amount + x.fee ==> PriceTurn([SendPrice(fee), SendSkip], x, fee, faulty, sent)
    ensures fee <= x.amount + x.fee && SubmitTurn(d, x, x.amount + x.fee - fee, faulty, sent) ==>
              PriceTurn([SendPrice(fee), SendMark] + d, x, fee, faulty, sent)
  {
    hide SubmitTurn;
    assert ([SendPrice(fee), SendMark] + d)[2..] == d;
  }

  lemma ConfTurnShapes(d: seq<Action>, x: Row, faulty: bool, sent: set<Tx>)
    ensures faulty ==> ConfTurn([ConfSkip], x, faulty, sent)
    ensures d == [] || ClaimTurn(d, x, faulty, sent) || FinishTurn(d, true, faulty) || FinishTurn(d, false, faulty) ==>
              ConfTurn([ConfRead] + d, x, faulty, sent)
  {
    hide ClaimTurn, FinishTurn;
    assert ([ConfRead] + d)[1..] == d;
  }

  lemma RefTurnShapes(d: seq<Action>, x: Row, faulty: bool, sent: set<Tx>)
    ensures faulty ==> RefTurn([RefSkip], x, faulty, sent)
    ensures d == [] || CloseTurn(d, faulty) || ReturnTurn(d, x, faulty, sent) ==>
              RefTurn([RefRead] + d, x, faulty, sent)
  {
    hide CloseTurn, ReturnTurn;
    assert ([RefRead] + d)[1..] == d;
  }

  lemma ReturnTurnShapes(d: seq<Action>, x: Row, rel: Option<Row>, ok: bool, faulty: bool, sent: set<Tx>)
    ensures (ok || faulty) && RelateTurn(d, x, rel, faulty, sent) ==> ReturnTurn([RefMark(ok)] + d, x, faulty, sent)
  {
    hide RelateTurn;
    assert ([RefMark(ok)] + d)[1..] == d;
  }

  lemma RelateTurnShapes(d: seq<Action>, x: Row, rel: Option<Row>, faulty: bool, sent: set<Tx>)
    ensures faulty ==> RelateTurn([RefSkip], x, rel, faulty, sent)
    ensures rel.Some? && rel.value.status == Confirmed && rel.value.preimage.Some? &&
            ConfirmTurn(d, x, rel.value.preimage.value, faulty, sent) ==>
              RelateTurn([RefRelate] + d, x, rel, faulty, sent)
    ensures !(rel.Some? && rel.value.status == Confirmed) && (d == [] || CheckTurn(d, x, faulty, sent)) ==>
              RelateTurn([RefRelate] + d, x, rel, faulty, sent)
  {
    hide ConfirmTurn, CheckTurn;
    assert ([RefRelate] + d)[1..] == d;
  }

  lemma NoTurns(sent: set<Tx>)
    ensures forall fees, faulty :: SendTurns(fees, faulty, [], [], sent)
    ensures forall faulty :: ConfTurns(faulty, [], [], sent) && RefTurns(faulty, [], [], sent)
    ensures forall faulty :: RecTurns(faulty, [], [])
  {
  }

  lemma Join(own: seq<Action>, a: Action, b: Action, d: seq<Action>)
    ensures own + [a] + [b] + d == own + ([a, b] + d)
  {
  }

  /** What a delayed read showed, a later one shows too, or something further on. */
  lemma SafeMoves(s: State, s': State, chain: ChainId, t: Tid)
    requires Evolves(s, s')
    ensures ReadSafe(s.chain, chain, t) != Undefined ==> ReadSafe(s'.chain, chain, t) != Undefined
    ensures ReadSafe(s.chain, chain, t) == Settled ==> ReadSafe(s'.chain, chain, t) == Settled
    ensures ReadSafe(s.chain, chain, t) == Returned ==> ReadSafe(s'.chain, chain, t) == Returned
    ensures s.now <= s'.now
  {
    if t in s.chain {
      assert DepositGrows(s.chain[t], s'.chain[t]);
    }
  }

  lemma RecoverQueryOf(c: Config, s: State)
    requires Inv(c, s)
    ensures RecoverQuery(s.reco.q)
  {
  }

  /** A row about to be claimed has its preimage, and so has a CONFIRMED row. */
  lemma ConfHasPreimage(c: Config, s: State, x: Row, rest: seq<Row>)
    requires Inv(c, s) && s.conf == ConfCalling(x, rest)
    ensures x.preimage.Some?
  {
    hide TableOk, ChainOk, SentOk, MonitorsOk, SendOk, RefOk, RecOk;
    assert ConfRowOk(c, s, x);
  }

  lemma ConfirmedHasPreimage(c: Config, s: State, t: Tid)
    requires Inv(c, s) && t in s.table && s.table[t].status == Confirmed
    ensures s.table[t].preimage.Some?
  {
    hide RowShape, OutRowOk, InRowOk, ChainOk, SentOk, MonitorsOk, SendOk, ConfOk, RefOk, RecOk;
    RowFacts(c, s, t);
  }

  /** The jobs only meet rows of chains the node serves. */
  lemma ConfServed(c: Config, s: State, x: Row, rest: seq<Row>)
    requires Inv(c, s) && s.conf == ConfNext([x] + rest)
    ensures x.chainId in c.chains
  {
    hide RowMatchesChain, OutRowOk, InRowOk, ChainOk, SentOk, MonitorsOk, SendOk, RefOk, RecOk;
    assert x in s.conf.rows && ConfRowOk(c, s, x);
    RowFacts(c, s, x.tid);
  }

  lemma RefServed(c: Config, s: State, x: Row, rest: seq<Row>)
    requires Inv(c, s) && s.refu == RefNext([x] + rest)
    ensures x.chainId in c.chains
  {
    hide RowMatchesChain, OutRowOk, InRowOk, ChainOk, SentOk, MonitorsOk, SendOk, ConfOk, RecOk;
    assert x in s.refu.rows && RefRowOk(s, x);
    RowFacts(c, s, x.tid);
  }

  // ----- where each statement of a job leads -----

  /** Action `a` of the send job is possible in `s`, leads to the point `pc`, leaves `tbl` and hands over `handed`. */
  ghost predicate SendGoes(c: Config, s: State, a: Action, pc: SendPc, tbl: Table, handed: set<Tx>) {
    && Who(a) == SendJob && EnabledSend(c, s, a)
    && ApplySend(c, s, a).send == pc && ApplySend(c, s, a).table == tbl
    && ApplySend(c, s, a).sent == s.sent + handed
  }

  lemma FromSendIdle(c: Config, s: State, rows: seq<Row>)
    requires s.send == SendIdle
    ensures SendGoes(c, s, QueryError(SendJob), SendIdle, s.table, {})
    ensures Selects(rows, s.table, StartTransferIn, s.now) ==>
              SendGoes(c, s, SendQuery(rows), SendNext(rows), s.table, {})
  {
    hide Selects;
  }

  lemma FromSendNext(c: Config, s: State, x: Row, rest: seq<Row>)
    requires s.send == SendNext([x] + rest)
    ensures if x.chainId !in c.chains || x.timeLock - 360_000_000_000 < s.now
            then SendGoes(c, s, SendLate, SendNext(rest), s.table, {})
            else SendGoes(c, s, SendCheck, SendReading(x, rest), s.table, {})
  {
    assert ([x] + rest)[1..] == rest;
  }

  lemma FromSendDone(c: Config, s: State)
    requires s.send == SendNext([])
    ensures SendGoes(c, s, SendEnd, SendIdle, s.table, {})
  {
  }

  lemma FromSendReading(c: Config, s: State, x: Row, rest: seq<Row>)
    requires s.send == SendReading(x, rest)
    ensures SendGoes(c, s, SendSkip, SendNext(rest), s.table, {})
    ensures var st := ReadSafe(s.chain, x.chainId, x.tid);
            var pc := if st == Undefined then SendPricing(x, rest)
                      else if st == Pending then SendFixing(x, rest) else SendNext(rest);
            SendGoes(c, s, SendRead, pc, s.table, {})
  {
    hide ReadSafe;
  }

  lemma FromSendFixing(c: Config, s: State, x: Row, rest: seq<Row>, ok: bool)
    requires s.send == SendFixing(x, rest)
    ensures SendGoes(c, s, SendFix(ok), SendNext(rest),
                     if ok then StatusSwapped(s.table, x.tid, Locked, InStart, s.now) else s.table, {})
  {
    hide StatusSwapped;
  }

  lemma FromSendPricing(c: Config, s: State, x: Row, rest: seq<Row>, fee: int)
    requires s.send == SendPricing(x, rest)
    ensures SendGoes(c, s, SendSkip, SendNext(rest), s.table, {})
    ensures 0 <= fee <= x.Total() ==>
              SendGoes(c, s, SendPrice(fee), SendMarking(x, rest, x.Total() - fee),
                       AmountAndFeeSet(s.table, x.tid, x.Total() - fee, fee), {})
  {
    hide AmountAndFeeSet;
  }

  lemma FromSendMarking(c: Config, s: State, x: Row, rest: seq<Row>, amount: int)
    requires s.send == SendMarking(x, rest, amount)
    ensures SendGoes(c, s, SendSkip, SendNext(rest), s.table, {})
    ensures SendGoes(c, s, SendMark, SendFirst(x, rest, amount),
                     StatusSwapped(s.table, x.tid, InPending, InStart, s.now), {})
  {
    hide StatusSwapped;
  }

  lemma FromSendSubmitting(c: Config, s: State, x: Row, rest: seq<Row>, amount: int, pool: bool, ok: bool)
    requires s.send == SendFirst(x, rest, amount) || s.send == SendAgain(x, rest, amount)
    ensures SendGoes(c, s, SendSubmit(pool, ok),
                     if ok || s.send.SendAgain? then SendNext(rest) else SendAgain(x, rest, amount), s.table,
                     if pool then {InCall(x, amount)} else {})
  {
    hide TxInFor, InCall;
    CallOfRow(x, amount);
  }

  lemma CallOfRow(x: Row, amount: int)
    ensures TxInFor(x, amount) == InCall(x, amount)
  {
  }

  ghost predicate ConfGoes(c: Config, s: State, a: Action, pc: ConfPc, tbl: Table, handed: set<Tx>) {
    && Who(a) == ConfirmJob && EnabledConfirm(c, s, a)
    && ApplyConfirm(c, s, a).conf == pc && ApplyConfirm(c, s, a).table == tbl
    && ApplyConfirm(c, s, a).sent == s.sent + handed
  }

  lemma FromConfIdle(c: Config, s: State, rows: seq<Row>)
    requires s.conf == ConfIdle
    ensures ConfGoes(c, s, QueryError(ConfirmJob), ConfIdle, s.table, {})
    ensures Selects(rows, s.table, ConfirmableLocked, s.now) ==>
              ConfGoes(c, s, ConfQuery(rows), ConfNext(rows), s.table, {})
  {
    hide Selects;
  }

  lemma FromConfNext(c: Config, s: State, x: Row, rest: seq<Row>)
    requires s.conf == ConfNext([x] + rest)
    ensures ConfGoes(c, s, ConfSkip, ConfNext(rest), s.table, {})
    ensures x.chainId in c.chains ==>
              var pc := match ReadSafe(s.chain, x.chainId, x.tid)
                        case Pending => ConfMarking(x, rest)
                        case Returned => ConfReturned(x, rest)
                        case Settled => ConfSettled(x, rest)
                        case Undefined => ConfNext(rest);
              ConfGoes(c, s, ConfRead, pc, s.table, {})
  {
    hide ReadSafe;
    assert ([x] + rest)[1..] == rest;
  }

  lemma FromConfDone(c: Config, s: State)
    requires s.conf == ConfNext([])
    ensures ConfGoes(c, s, ConfEnd, ConfIdle, s.table, {})
  {
  }

  lemma FromConfMarking(c: Config, s: State, x: Row, rest: seq<Row>, ok: bool)
    requires s.conf == ConfMarking(x, rest)
    ensures ConfGoes(c, s, ConfMark(ok), ConfCalling(x, rest),
                     if ok then StatusSwapped(s.table, x.tid, ConfirmPending, Locked, s.now) else s.table, {})
  {
    hide StatusSwapped;
  }

  lemma FromConfCalling(c: Config, s: State, x: Row, rest: seq<Row>, pool: bool)
    requires s.conf == ConfCalling(x, rest) && x.preimage.Some?
    ensures ConfGoes(c, s, ConfSubmit(pool), ConfNext(rest), s.table,
                     if pool then {TxConfirm(x.chainId, x.tid, x.preimage.value)} else {})
  {
  }

  lemma FromConfFinishing(c: Config, s: State, x: Row, rest: seq<Row>, ok: bool)
    ensures s.conf == ConfReturned(x, rest) ==>
              ConfGoes(c, s, ConfSetReturned(ok), ConfNext(rest),
                       if ok then StatusSet(s.table, x.tid, Refunded) else s.table, {})
    ensures s.conf == ConfSettled(x, rest) ==>
              ConfGoes(c, s, ConfSetSettled(ok), ConfNext(rest),
                       if ok then ConfirmedIn(s.table, x.tid, x.Decoded()) else s.table, {})
  {
    hide StatusSet, ConfirmedIn;
  }

  ghost predicate RefGoes(c: Config, s: State, a: Action, pc: RefPc, tbl: Table, handed: set<Tx>) {
    && Who(a) == RefundJob && EnabledRefund(c, s, a)
    && ApplyRefund(c, s, a).refu == pc && ApplyRefund(c, s, a).table == tbl
    && ApplyRefund(c, s, a).sent == s.sent + handed
  }

  lemma FromRefIdle(c: Config, s: State, rows: seq<Row>)
    requires s.refu == RefIdle
    ensures RefGoes(c, s, QueryError(RefundJob), RefIdle, s.table, {})
    ensures Selects(rows, s.table, RefundableIn, s.now) ==> RefGoes(c, s, RefQuery(rows), RefNext(rows), s.table, {})
  {
    hide Selects;
  }

  lemma FromRefNext(c: Config, s: State, x: Row, rest: seq<Row>)
    requires s.refu == RefNext([x] + rest)
    ensures RefGoes(c, s, RefSkip, RefNext(rest), s.table, {})
    ensures x.chainId in c.chains ==>
              var pc := match ReadSafe(s.chain, x.chainId, x.tid)
                        case Pending => RefMarking(x, rest)
                        case Returned => RefReturned(x, rest)
                        case _ => RefNext(rest);
              RefGoes(c, s, RefRead, pc, s.table, {})
  {
    hide ReadSafe;
    assert ([x] + rest)[1..] == rest;
  }

  lemma FromRefDone(c: Config, s: State)
    requires s.refu == RefNext([])
    ensures RefGoes(c, s, RefEnd, RefIdle, s.table, {})
  {
  }

  lemma FromRefMarking(c: Config, s: State, x: Row, rest: seq<Row>, ok: bool)
    requires s.refu == RefMarking(x, rest)
    ensures RefGoes(c, s, RefMark(ok), RefRelating(x, rest),
                    if ok then StatusSwapped(s.table, x.tid, RefundPending, Locked, s.now) else s.table, {})
  {
    hide StatusSwapped;
  }

  /** Where the related row, if there is one, sends the refund job. */
  function Related(c: Config, x: Row, rest: seq<Row>, rel: Option<Row>): RefPc {
    if rel.None? then RefNext(rest)
    else if rel.value.status == Confirmed then RefConfirming(x, rest, rel.value.Decoded())
    else if rel.value.chainId !in c.chains then RefNext(rest)
    else RefReadingOut(x, rest, rel.value)
  }

  lemma FromRefRelating(c: Config, s: State, x: Row, rest: seq<Row>)
    requires s.refu == RefRelating(x, rest)
    ensures RefGoes(c, s, RefSkip, RefNext(rest), s.table, {})
    ensures RefGoes(c, s, RefRelate,
                    Related(c, x, rest, if x.relTid in s.table then Some(s.table[x.relTid]) else None), s.table, {})
  {
  }

  lemma FromRefReadingOut(c: Config, s: State, x: Row, rest: seq<Row>, rel: Row)
    requires s.refu == RefReadingOut(x, rest, rel)
    ensures RefGoes(c, s, RefSkip, RefNext(rest), s.table, {})
    ensures RefGoes(c, s, RefReadOut,
                    if ReadSafe(s.chain, rel.chainId, rel.tid) == Settled then RefNext(rest) else RefCalling(x, rest),
                    s.table, {})
  {
    hide ReadSafe;
  }

  lemma FromRefSubmitting(c: Config, s: State, x: Row, rest: seq<Row>, p: Preimage, pool: bool)
    ensures s.refu == RefConfirming(x, rest, p) ==>
              RefGoes(c, s, RefConfirm(pool), RefNext(rest), s.table,
                      if pool then {TxConfirm(x.chainId, x.tid, p)} else {})
    ensures s.refu == RefCalling(x, rest) ==>
              RefGoes(c, s, RefRefund(pool), RefNext(rest), s.table,
                      if pool then {TxRefund(x.chainId, x.tid)} else {})
  {
  }

  lemma FromRefReturned(c: Config, s: State, x: Row, rest: seq<Row>, ok: bool)
    requires s.refu == RefReturned(x, rest)
    ensures RefGoes(c, s, RefSetReturned(ok), RefNext(rest),
                    if ok then StatusSet(s.table, x.tid, Refunded) else s.table, {})
  {
    hide StatusSet;
  }

  /** The tick's three queries in their order; after the last it is at its idle point again. */
  function AfterQuery(q: Selection): Selection {
    if q == TimeoutPendingIn then TimeoutPendingConfirm
    else if q == TimeoutPendingConfirm then TimeoutPendingRefund
    else TimeoutPendingIn
  }

  /** What a restore swaps to and from. */
  function Restarted(q: Selection): (Status, Status) {
    if q == TimeoutPendingIn then (InStart, InPending)
    else if q == TimeoutPendingConfirm then (Locked, ConfirmPending)
    else (Locked, RefundPending)
  }

  ghost predicate RecGoes(c: Config, s: State, a: Action, pc: RecPc, tbl: Table) {
    && Who(a) == RecoverJob && EnabledRecover(s, a)
    && ApplyRecover(c, s, a).reco == pc && ApplyRecover(c, s, a).table == tbl && ApplyRecover(c, s, a).sent == s.sent
  }

  lemma FromRecReady(c: Config, s: State, q: Selection, rows: seq<Row>)
    requires s.reco == RecReady(q)
    ensures RecGoes(c, s, RecSkip, RecReady(AfterQuery(q)), s.table)
    ensures Selects(rows, s.table, q, s.now) ==> RecGoes(c, s, RecQuery(rows), RecRun(q, rows), s.table)
    ensures Selects(rows, s.table, q, s.now) && RecoverQuery(q) ==> forall x :: x in rows ==> Recoverable(x, q)
  {
  }

  lemma FromRecRun(c: Config, s: State, q: Selection, x: Row, rest: seq<Row>, ok: bool)
    requires s.reco == RecRun(q, [x] + rest) && RecoverQuery(q)
    ensures RecGoes(c, s, RecRestore(ok), RecRun(q, rest),
                    if ok then StatusSwapped(s.table, x.tid, Restarted(q).0, Restarted(q).1, s.now) else s.table)
  {
    hide StatusSwapped;
    assert ([x] + rest)[1..] == rest;
  }

  lemma FromRecDone(c: Config, s: State, q: Selection)
    requires s.reco == RecRun(q, [])
    ensures RecGoes(c, s, RecEnd, RecReady(AfterQuery(q)), s.table)
  {
  }

  // ----- where each statement of a handler leads -----

  ghost predicate MonitorGoes(c: Config, s: State, a: Action, tbl: Table) {
    Who(a) == Monitors && EnabledMonitor(c, s, a) && ApplyMonitor(c, s, a).table == tbl
  }

  ghost predicate SameTerms(a: Deposit, b: Deposit) {
    a.origin == b.origin && a.token == b.token && a.amount == b.amount && a.timelock == b.timelock
  }

  /** `d` has the terms of the deposit that the event for `t` was emitted for. */
  ghost predicate Logged(s: State, t: Tid, d: Deposit) {
    Visible(s.chain, t) && SameTerms(d, s.chain[t])
  }

  lemma LoggedStays(s: State, s': State, t: Tid, d: Deposit)
    requires Logged(s, t, d) && Evolves(s, s')
    ensures Logged(s', t, d) && s.now <= s'.now
  {
    assert DepositGrows(s.chain[t], s'.chain[t]);
  }

  lemma RowStays(s: State, s': State, t: Tid)
    requires Evolves(s, s') && t in s.table
    ensures t in s'.table && (Terminal(s.table[t].status) ==> s'.table[t].status == s.table[t].status)
  {
    assert RowGrows(s.table[t], s'.table[t]);
  }

  lemma ClockIsNatural(c: Config, s: State)
    requires Inv(c, s)
    ensures 0 <= s.now
  {
  }

  /** A served route whose source token has 64 or more decimals more than the destination token. */
  predicate DividesByZero(c: Config, t: Tid, d: Deposit) {
    && d.origin.OutLock? && t.receiver == c.me && d.origin.dstChain in c.chains && (t.chain, d.token) in c.tokenName
    && (var dst := (d.origin.dstChain, c.tokenName[(t.chain, d.token)]);
        && dst in c.tokenAddr && (t.chain, d.token) in c.decimals && (d.origin.dstChain, c.tokenAddr[dst]) in c.decimals
        && c.decimals[(t.chain, d.token)] >= c.decimals[(d.origin.dstChain, c.tokenAddr[dst])] + 64)
  }

  lemma ZeroPower(c: Config, t: Tid, d: Deposit)
    requires d.origin.OutLock? && d.amount >= 0 && t.chain in c.chains && t.receiver == c.me
    requires d.origin.dstChain in c.chains && (t.chain, d.token) in c.tokenName && (t.chain, d.token) in c.decimals
    requires (d.origin.dstChain, c.tokenName[(t.chain, d.token)]) in c.tokenAddr
    requires (d.origin.dstChain, c.tokenAddr[(d.origin.dstChain, c.tokenName[(t.chain, d.token)])]) in c.decimals
    ensures QuoteFor(c, t, d).None? <==> DividesByZero(c, t, d)
  {
    var dstToken := c.tokenAddr[(d.origin.dstChain, c.tokenName[(t.chain, d.token)])];
    var src, dst := c.decimals[(t.chain, d.token)], c.decimals[(d.origin.dstChain, dstToken)];
    if src > dst {
      WrapsToZeroExactlyFrom64(src - dst);
    }
  }

  /** A panic is a restart of the node. */
  lemma FromPanic(c: Config, s: State)
    ensures Enabled(c, s, Crash)
    ensures Apply(c, s, Crash) == s.(notes := {}, revealing := {}, send := SendIdle, conf := ConfIdle, refu := RefIdle,
                                     reco := RecReady(TimeoutPendingIn))
  {
  }

  lemma OnTermsOnly(c: Config, t: Tid, d: Deposit, e: Deposit)
    requires SameTerms(d, e)
    ensures QuoteFor(c, t, d) == QuoteFor(c, t, e)
    ensures d.origin.OutLock? && QuoteFor(c, t, d).Some? ==> OutRowFor(c, t, d) == OutRowFor(c, t, e)
    ensures forall ts :: d.origin.OutLock? && QuoteFor(c, t, d).Some? && InTimeLock(d.timelock, ts).Some? ==>
              InRowFor(c, t, d, ts) == InRowFor(c, t, e, ts)
  {
    hide DstAmount, InTimeLock;
  }

  lemma FromOutEvent(c: Config, s: State, t: Tid, d: Deposit, ts: Time)
    requires Logged(s, t, d) && d.origin.OutLock? && QuoteFor(c, t, d).Some? && 0 <= ts <= s.now
    ensures MonitorGoes(c, s, OutFirst(t, ts), Inserted(s.table, OutRowFor(c, t, d), s.now))
    ensures InTimeLock(d.timelock, ts).Some? ==> Note(t, ts) in ApplyMonitor(c, s, OutFirst(t, ts)).notes
  {
    hide QuoteFor, InTimeLock, Inserted, OutRowFor;
    OnTermsOnly(c, t, d, s.chain[t]);
  }

  lemma FromOutNote(c: Config, s: State, n: Note, d: Deposit)
    requires Logged(s, n.tid, d) && d.origin.OutLock? && QuoteFor(c, n.tid, d).Some? && n in s.notes
    requires InTimeLock(d.timelock, n.ts).Some?
    ensures MonitorGoes(c, s, OutSecond(n), Inserted(s.table, InRowFor(c, n.tid, d, n.ts), s.now))
    ensures MonitorGoes(c, s, OutDrop(n), s.table)
  {
    hide QuoteFor, InTimeLock, Inserted, InRowFor;
    OnTermsOnly(c, n.tid, d, s.chain[n.tid]);
  }

  lemma FromInEvent(c: Config, s: State, t: Tid, d: Deposit)
    requires Logged(s, t, d) && d.origin.InLock? && t.sender == c.me
    ensures MonitorGoes(c, s, InSeen(t), InRecorded(s.table, t))
  {
    hide InRecorded;
  }

  ghost predicate LoggedPreimage(s: State, t: Tid, p: Preimage) {
    SafeIs(s, t, Settled) && s.chain[t].preimage == p
  }

  lemma LoggedPreimageStays(c: Config, s: State, s': State, t: Tid, p: Preimage)
    requires Inv(c, s) && LoggedPreimage(s, t, p) && Evolves(s, s')
    ensures LoggedPreimage(s', t, p)
  {
    hide TableOk, SentOk, MonitorsOk, SendOk, ConfOk, RefOk, RecOk, TableGrows;
    assert DepositOk(c, s, t, s.chain[t]);
    assert DepositGrows(s.chain[t], s'.chain[t]);
  }

  lemma FromConfirmEvent(c: Config, s: State, t: Tid, p: Preimage)
    requires LoggedPreimage(s, t, p)
    ensures MonitorGoes(c, s, ConfirmFirst(t), ConfirmedIn(s.table, t, p))
    ensures t in ApplyMonitor(c, s, ConfirmFirst(t)).revealing
    ensures t in s.revealing ==> MonitorGoes(c, s, ConfirmSecond(t), RelatedPreimageSet(s.table, p, t))
    ensures t in s.revealing ==> MonitorGoes(c, s, ConfirmDrop(t), s.table)
  {
    hide ConfirmedIn, RelatedPreimageSet;
  }

  lemma ReturnedStays(c: Config, s: State, s': State, t: Tid)
    requires Inv(c, s) && SafeIs(s, t, Returned) && Evolves(s, s')
    ensures SafeIs(s', t, Returned)
  {
    assert DepositGrows(s.chain[t], s'.chain[t]);
  }

  lemma FromRefundEvent(c: Config, s: State, t: Tid)
    requires SafeIs(s, t, Returned)
    ensures MonitorGoes(c, s, RefundSeen(t), StatusSet(s.table, t, Refunded))
  {
    hide StatusSet;
  }
}
