/**
 * The confirm job's promise, for IN and OUT transfers alike: a transfer whose preimage is stored is settled on chain
 * within the total time of the claim loop, if its lock is that time and the recovery margin ahead.
 */
module Claims {
  import opened Types
  import opened TimeLock
  import opened Ledger
  import opened Protocol
  import opened Frames
  import opened Invariant
  import opened Preserve
  import opened RetryLoop
  import opened Timed
  import opened Watching
  import opened Loops
  import opened Atomicity

  /** A run in which no bound of the claim loop over `t` is overrun. */
  ghost predicate ClaimRun(c: Config, b: Bounds, t: Tid, s: State, k: Side, moves: seq<Move>)
    decreases |moves|
  {
    moves == [] ||
    (Enabled(c, s, moves[0].a) &&
     (var s' := Apply(c, s, moves[0].a);
      var k' := ClaimSide(b, t, s, s', k, moves[0].a, moves[0].drop, true);
      OnTime(b, ClaimLoop(s', k', t)) && ClaimRun(c, b, t, s', k', moves[1..])))
  }

  ghost function ClaimEnd(c: Config, b: Bounds, t: Tid, s: State, k: Side, moves: seq<Move>): (State, Side)
    requires ClaimRun(c, b, t, s, k, moves)
    decreases |moves|
  {
    if moves == [] then (s, k)
    else
      var s' := Apply(c, s, moves[0].a);
      ClaimEnd(c, b, t, s', ClaimSide(b, t, s, s', k, moves[0].a, moves[0].drop, true), moves[1..])
  }

  /** What does not depend on the timing: the row is past its sending states, with its preimage and a lock ahead. */
  ghost predicate Claimable(c: Config, s: State, t: Tid, until: Time) {
    && Inv(c, s) && Sorted(s) && t in s.table && t in s.chain
    && s.table[t].preimage.Some? && !Unsent(s.table[t].status) && s.table[t].timeLock > until + TIME_LOCK_SAFE_MARGIN
  }

  /** Settled, or pending with the claim loop on its way. */
  ghost predicate Underway(b: Bounds, s: State, k: Side, t: Tid, t0: Time) {
    && OnTime(b, ClaimLoop(s, k, t))
    && (Has(s.chain, t, Settled) || (Has(s.chain, t, Pending) && Goes(b, ClaimLoop(s, k, t), t0)))
  }

  /** While the row's lock is ahead, so is the deposit's: the contract will not return it. */
  lemma LockOnChain(c: Config, s: State, t: Tid, until: Time)
    requires Claimable(c, s, t, until) && s.now <= until
    ensures s.chain[t].timelock > Unix(s.now) && s.chain[t].status != Returned && s.chain[t].status != Undefined
    ensures s.table[t].chainId in c.chains && s.table[t].chainId == t.chain
  {
    hide SendOk, ConfOk, RefOk, RecOk, TxOk, NoteOk, QuoteFor, LockDerived, ConfDistinct, RefDistinct, RecDistinct;
    RowFacts(c, s, t);
    assert RowOk(c, s, s.table[t]);
    assert DepositOk(c, s, t, s.chain[t]);
    LaterSecond(s.now, s.table[t].timeLock);
  }

  lemma LaterSecond(a: Time, b: Time)
    requires a + TIME_LOCK_SAFE_MARGIN < b
    ensures Unix(a) < Unix(b) && (b % SECOND == 0 ==> Unix(a) < b / SECOND)
  {
  }

  lemma ClaimableStays(c: Config, s: State, a: Action, t: Tid, until: Time)
    requires Claimable(c, s, t, until) && Enabled(c, s, a)
    ensures Claimable(c, Apply(c, s, a), t, until)
  {
    hide Inv, Sorted, Enabled, Apply;
    StepKeeps(c, s, a);
    StepSorted(c, s, a);
    assert RowGrows(s.table[t], Apply(c, s, a).table[t]);
  }

  lemma OpenNow(c: Config, s: State, t: Tid, until: Time)
    requires Claimable(c, s, t, until) && s.now <= until && Has(s.chain, t, Pending)
    ensures ClaimOpen(c, s, t)
  {
    hide Inv, Sorted, OpenClaim;
    LockOnChain(c, s, t, until);
    ClaimIsOpen(c, s, t);
  }

  lemma UnderwayStays(c: Config, b: Bounds, t: Tid, s: State, k: Side, m: Move, t0: Time)
    requires BoundsOk(b) && Claimable(c, s, t, t0 + TotalTime(b)) && Underway(b, s, k, t, t0)
    requires Enabled(c, s, m.a)
    requires OnTime(b, ClaimLoop(Apply(c, s, m.a), ClaimSide(b, t, s, Apply(c, s, m.a), k, m.a, m.drop, true), t))
    ensures var s' := Apply(c, s, m.a);
            Underway(b, s', ClaimSide(b, t, s, s', k, m.a, m.drop, true), t, t0)
  {
    hide Inv, Sorted, Enabled, Apply, Goes, OnTime, ClaimLoop, ClaimSide, Claimable;
    var s' := Apply(c, s, m.a);
    ClaimableParts(c, s, t, t0 + TotalTime(b));
    ChainOnly(c, s, m.a, t);
    if !Has(s.chain, t, Settled) {
      GoesWithinTotal(b, ClaimLoop(s, k, t), t0);
      LoopNow(s, k, t);
      LockOnChain(c, s, t, t0 + TotalTime(b));
      OpenNow(c, s, t, t0 + TotalTime(b));
      StillOpen(c, s, m.a, t);
      if !Has(s'.chain, t, Settled) {
        ClaimGoesOn(c, b, t, s, k, s', ClaimSide(b, t, s, s', k, m.a, m.drop, true), m.a, m.drop, t0);
      }
    }
  }

  lemma ClaimableParts(c: Config, s: State, t: Tid, until: Time)
    requires Claimable(c, s, t, until)
    ensures Inv(c, s) && Sorted(s) && t in s.table && t in s.chain
  {
  }

  lemma ChainOnly(c: Config, s: State, a: Action, t: Tid)
    requires Inv(c, s) && Enabled(c, s, a) && t in s.chain
    ensures t in Apply(c, s, a).chain && (Has(s.chain, t, Settled) ==> Has(Apply(c, s, a).chain, t, Settled))
  {
    hide Inv, Enabled, Apply;
    StepKeeps(c, s, a);
  }

  /** A pending deposit whose lock is ahead is still pending after a step, or settled. */
  lemma StillOpen(c: Config, s: State, a: Action, t: Tid)
    requires Inv(c, s) && Enabled(c, s, a) && Has(s.chain, t, Pending) && s.chain[t].timelock > Unix(s.now)
    ensures Has(Apply(c, s, a).chain, t, Pending) || Has(Apply(c, s, a).chain, t, Settled)
  {
    hide Inv, Enabled, Apply;
    StepKeeps(c, s, a);
    StatusDefined(c, Apply(c, s, a), t);
    if Apply(c, s, a).chain[t].status != Pending {
      ClosesFromPending(c, s, a, t);
    }
  }

  lemma {:induction false} RunStays(c: Config, b: Bounds, t: Tid, s: State, k: Side, moves: seq<Move>, t0: Time)
    requires BoundsOk(b) && Claimable(c, s, t, t0 + TotalTime(b)) && Underway(b, s, k, t, t0)
    requires ClaimRun(c, b, t, s, k, moves)
    ensures var e := ClaimEnd(c, b, t, s, k, moves).0;
            e.now > t0 + TotalTime(b) ==> Has(e.chain, t, Settled)
    decreases |moves|
  {
    hide Enabled, Apply, Claimable, OnTime, Goes, ClaimLoop, ClaimSide;
    if moves == [] {
      if !Has(s.chain, t, Settled) {
        GoesWithinTotal(b, ClaimLoop(s, k, t), t0);
        LoopNow(s, k, t);
      }
    } else {
      var m := moves[0];
      var s' := Apply(c, s, m.a);
      ClaimableStays(c, s, m.a, t, t0 + TotalTime(b));
      UnderwayStays(c, b, t, s, k, m, t0);
      RunStays(c, b, t, s', ClaimSide(b, t, s, s', k, m.a, m.drop, true), moves[1..], t0);
    }
  }

  /**
   * From any reachable state: a row with a stored preimage, past its sending states and with its lock more than the
   * loop's total time and 6 minutes ahead, is settled on chain within that time, in every run that keeps the bounds.
   */
  lemma KnownPreimageIsClaimed(c: Config, b: Bounds, t: Tid, s: State, moves: seq<Move>)
    requires BoundsOk(b) && Reachable(c, s) && t in s.table
    requires s.table[t].preimage.Some? && !Unsent(s.table[t].status)
    requires s.table[t].timeLock > s.now + TotalTime(b) + 360_000_000_000
    requires ClaimRun(c, b, t, s, SideFrom(s), moves)
    ensures var e := ClaimEnd(c, b, t, s, SideFrom(s), moves).0;
            e.now > s.now + TotalTime(b) ==> Has(e.chain, t, Settled)
  {
    hide Reachable, ClaimRun, ClaimEnd, Inv, Sorted, Underway;
    ReachableInv(c, s);
    ReachableSorted(c, s);
    OnChain(c, s, t);
    TotalNonNegative(b);
    assert Claimable(c, s, t, s.now + TotalTime(b));
    StartsUnderway(c, b, t, s);
    RunStays(c, b, t, s, SideFrom(s), moves, s.now);
  }

  lemma OnChain(c: Config, s: State, t: Tid)
    requires Inv(c, s) && t in s.table && !Unsent(s.table[t].status)
    ensures t in s.chain
  {
    hide ChainOk, SentOk, MonitorsOk, SendOk, ConfOk, RefOk, RecOk;
    RowFacts(c, s, t);
  }

  lemma StartsUnderway(c: Config, b: Bounds, t: Tid, s: State)
    requires BoundsOk(b) && Claimable(c, s, t, s.now + TotalTime(b)) && TotalTime(b) >= 0
    ensures Underway(b, s, SideFrom(s), t, s.now)
  {
    hide Inv, ConfDistinct, RefDistinct, RecDistinct, ReturnedLate, ConfCovers, Listed;
    LockOnChain(c, s, t, s.now + TotalTime(b));
    StartLoop(b, ClaimLoop(s, SideFrom(s), t));
  }

  // ----- a deadline always has its transaction -----

  ghost predicate ConfirmOf(s: State, t: Tid) {
    exists p: Preimage :: TxConfirm(t.chain, t, p) in s.sent
  }

  /** A running claim deadline belongs to a `confirm` that is really in the network. */
  ghost predicate ClaimBacked(s: State, k: Side, t: Tid) {
    k.due.Some? ==> t in s.table && ConfirmOf(s, t)
  }

  ghost predicate RefundBacked(s: State, k: Side, t: Tid) {
    k.due.Some? ==> t in s.table && TxRefund(t.chain, t) in s.sent
  }

  lemma ClaimDueStep(c: Config, b: Bounds, t: Tid, s: State, k: Side, a: Action, drop: bool, begun: bool)
    requires Inv(c, s) && Enabled(c, s, a) && ClaimBacked(s, k, t)
    ensures ClaimBacked(Apply(c, s, a), ClaimSide(b, t, s, Apply(c, s, a), k, a, drop, begun), t)
  {
    hide Inv, Enabled, Apply;
    StepKeeps(c, s, a);
    if ClaimSubmits(s, a, t) && a.pool {
      ConfirmIsHanded(c, s, a, t);
    }
  }

  lemma ConfirmIsHanded(c: Config, s: State, a: Action, t: Tid)
    requires Inv(c, s) && Enabled(c, s, a) && ClaimSubmits(s, a, t) && a.pool
    ensures t in s.table && ConfirmOf(Apply(c, s, a), t)
  {
    hide Enabled, Apply, TableOk, ChainOk, SentOk, MonitorsOk, SendOk, RefOk, RecOk;
    ConfirmApplies(c, s, a);
    assert ConfRowOk(c, s, s.conf.x);
    ChainOfRow(c, s, t);
    assert TxConfirm(t.chain, t, s.conf.x.Decoded()) in Apply(c, s, a).sent;
  }

  lemma ChainOfRow(c: Config, s: State, t: Tid)
    requires TableOk(c, s) && t in s.table
    ensures s.table[t].chainId == t.chain
  {
    hide RowMatchesChain, OutRowOk, InRowOk;
    RowFacts(c, s, t);
  }

  lemma RefundDueStep(c: Config, b: Bounds, t: Tid, s: State, k: Side, a: Action, drop: bool, begun: bool)
    requires Inv(c, s) && Enabled(c, s, a) && RefundBacked(s, k, t)
    ensures RefundBacked(Apply(c, s, a), RefundSide(b, t, s, Apply(c, s, a), k, a, drop, begun), t)
  {
    hide Inv, Enabled, Apply;
    StepKeeps(c, s, a);
    if RefundSubmits(s, a, t) && a.pool {
      RefundIsHanded(c, s, a, t);
    }
  }

  lemma RefundIsHanded(c: Config, s: State, a: Action, t: Tid)
    requires Inv(c, s) && Enabled(c, s, a) && RefundSubmits(s, a, t) && a.pool
    ensures t in s.table && TxRefund(t.chain, t) in Apply(c, s, a).sent
  {
    hide Enabled, Apply, TableOk, ChainOk, SentOk, MonitorsOk, SendOk, ConfOk, RecOk;
    RefundApplies(c, s, a);
    assert RefRowOk(s, s.refu.x);
    ChainOfRow(c, s, t);
  }

  ghost predicate Backed(inn: Tid, w: Watch) {
    ClaimBacked(w.s, w.claim, OutOf(w.s, inn)) && RefundBacked(w.s, w.refund, inn)
  }

  /** The id watched by the claim loop changes only before there is a deadline. */
  lemma OutOfStays(s: State, s': State, inn: Tid, k: Side)
    requires Evolves(s, s') && ClaimBacked(s', k, OutOf(s, inn)) && (k.due.Some? ==> inn in s.table)
    ensures ClaimBacked(s', k, OutOf(s', inn))
  {
    if inn in s.table {
      assert RowGrows(s.table[inn], s'.table[inn]);
    }
  }

  /** A claim deadline set while the IN row is missing would need a row of that very id. */
  lemma DueNeedsRow(c: Config, b: Bounds, inn: Tid, s: State, k: Side, a: Action, drop: bool, begun: bool)
    requires Inv(c, s) && Enabled(c, s, a) && (k.due.Some? ==> inn in s.table)
    requires inn !in s.table
    ensures ClaimSide(b, inn, s, Apply(c, s, a), k, a, drop, begun).due.None?
  {
    hide Enabled, Apply, TableOk, ChainOk, SentOk, MonitorsOk, SendOk, RefOk, RecOk;
    CallingIsListed(c, s);
  }

  lemma CallingIsListed(c: Config, s: State)
    requires Inv(c, s)
    ensures s.conf.ConfCalling? ==> s.conf.x.tid in s.table
  {
    hide TableOk, ChainOk, SentOk, MonitorsOk, SendOk, RefOk, RecOk;
    if s.conf.ConfCalling? {
      assert ConfRowOk(c, s, s.conf.x);
    }
  }

  lemma BackedStep(c: Config, p: Params, inn: Tid, w: Watch, a: Action, drop: bool)
    requires Inv(c, w.s) && Enabled(c, w.s, a) && Backed(inn, w) && (w.claim.due.Some? ==> inn in w.s.table)
    ensures var w' := Watched(c, p, inn, w, a, drop);
            Backed(inn, w') && (w'.claim.due.Some? ==> inn in w'.s.table)
  {
    var w' := Watched(c, p, inn, w, a, drop);
    hide Inv, Enabled, Apply, Watched, ClaimSide, RefundSide;
    WatchedParts(c, p, inn, w, a, drop);
    StepKeeps(c, w.s, a);
    ClaimDueStep(c, p.claim, OutOf(w.s, inn), w.s, w.claim, a, drop, ClaimBegun(w));
    RefundDueStep(c, p.refund, inn, w.s, w.refund, a, drop, RefundBegun(w, inn));
    if inn !in w.s.table {
      DueNeedsRow(c, p.claim, inn, w.s, w.claim, a, drop, ClaimBegun(w));
    }
    OutOfStays(w.s, w'.s, inn, w'.claim);
  }

  lemma {:induction false} RunBacked(c: Config, p: Params, inn: Tid, w: Watch, moves: seq<Move>)
    requires Inv(c, w.s) && Backed(inn, w) && (w.claim.due.Some? ==> inn in w.s.table)
    requires TimedRun(c, p, inn, w, moves)
    ensures Backed(inn, After(c, p, inn, w, moves))
    decreases |moves|
  {
    hide Inv, Enabled, Apply, Watched, Backed, Punctual;
    if moves != [] {
      BackedStep(c, p, inn, w, moves[0].a, moves[0].drop);
      StepKeeps(c, w.s, moves[0].a);
      WatchedParts(c, p, inn, w, moves[0].a, moves[0].drop);
      RunBacked(c, p, inn, Watched(c, p, inn, w, moves[0].a, moves[0].drop), moves[1..]);
    }
  }

  /**
   * No deadline of a timed run runs without its transaction: the bound on mining asks nothing impossible. The claim's
   * `confirm` settles the OUT transfer if it is mined while that is pending (`Safety.SubmittedConfirmIsAccepted`).
   */
  lemma DeadlinesHaveTransactions(c: Config, p: Params, inn: Tid, start: State, moves: seq<Move>)
    requires Reachable(c, start) && TimedRun(c, p, inn, WatchFrom(start), moves)
    ensures var w := After(c, p, inn, WatchFrom(start), moves);
            && (w.claim.due.Some? ==>
                  exists q: Preimage :: TxConfirm(OutOf(w.s, inn).chain, OutOf(w.s, inn), q) in w.s.sent)
            && (w.refund.due.Some? ==> TxRefund(inn.chain, inn) in w.s.sent)
  {
    hide Inv, Reachable;
    ReachableInv(c, start);
    RunBacked(c, p, inn, WatchFrom(start), moves);
  }

  /** The same for the claim loop over any one row. */
  lemma {:induction false} ClaimDeadlineHasTransaction(c: Config, b: Bounds, t: Tid, s: State, k: Side,
                                                       moves: seq<Move>)
    requires Inv(c, s) && ClaimBacked(s, k, t) && ClaimRun(c, b, t, s, k, moves)
    ensures var e := ClaimEnd(c, b, t, s, k, moves);
            e.1.due.Some? ==> exists q: Preimage :: TxConfirm(t.chain, t, q) in e.0.sent
    decreases |moves|
  {
    hide Inv, Enabled, Apply, ClaimSide, ClaimLoop, OnTime;
    if moves != [] {
      var m := moves[0];
      var s' := Apply(c, s, m.a);
      ClaimDueStep(c, b, t, s, k, m.a, m.drop, true);
      StepKeeps(c, s, m.a);
      ClaimDeadlineHasTransaction(c, b, t, s', ClaimSide(b, t, s, s', k, m.a, m.drop, true), moves[1..]);
    }
  }
}
