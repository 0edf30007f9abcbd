/** What each actor's steps leave alone. */
module Frames {
  import opened Types
  import opened Dal
  import opened Ledger
  import opened Protocol

  ghost predicate SameJobs(s: State, s': State) {
    s'.send == s.send && s'.conf == s.conf && s'.refu == s.refu && s'.reco == s.reco
  }

  ghost predicate JobsReset(s': State) {
    s'.send == SendIdle && s'.conf == ConfIdle && s'.refu == RefIdle && s'.reco == RecReady(TimeoutPendingIn)
  }

  ghost predicate SameHistory(s: State, s': State) {
    s'.pends == s.pends && s'.subs == s.subs && s'.stray == s.stray
  }

  lemma EnvironmentFrame(c: Config, s: State, a: Action)
    requires Enabled(c, s, a) && Who(a) == Environment
    ensures var s' := Apply(c, s, a);
            && s'.table == s.table && s'.sent == s.sent && SameHistory(s, s')
            && (if a.Crash? then JobsReset(s') && s'.chain == s.chain && s'.now == s.now
                else SameJobs(s, s') && s'.notes == s.notes && s'.revealing == s.revealing)
            && (a.Tick? ==> s'.chain == s.chain && s'.now == s.now + 1)
            && (!a.Tick? ==> s'.now == s.now)
  {
    hide CanLock, CanSettle, CanReturn, Lock, Settle, Return, Executed;
  }

  lemma MonitorFrame(c: Config, s: State, a: Action)
    requires Enabled(c, s, a) && Who(a) == Monitors
    ensures var s' := Apply(c, s, a);
            s'.now == s.now && s'.chain == s.chain && s'.sent == s.sent && SameJobs(s, s') && SameHistory(s, s')
  {
    hide OutEvent, QuoteFor, Inserted, InRecorded, ConfirmedIn, StatusSet, RelatedPreimageSet, OutRowFor, InRowFor;
  }

  /** The table after a monitor's action. */
  ghost function MonitorTable(c: Config, s: State, a: Action): Table
    requires EnabledMonitor(c, s, a)
  {
    match a
    case OutFirst(t, _) => Inserted(s.table, OutRowFor(c, t, s.chain[t]), s.now)
    case OutSecond(n) => Inserted(s.table, InRowFor(c, n.tid, s.chain[n.tid], n.ts), s.now)
    case InSeen(t) => InRecorded(s.table, t)
    case ConfirmFirst(t) => ConfirmedIn(s.table, t, s.chain[t].preimage)
    case ConfirmSecond(t) => RelatedPreimageSet(s.table, s.chain[t].preimage, t)
    case RefundSeen(t) => StatusSet(s.table, t, Refunded)
    case _ => s.table
  }

  lemma MonitorWrites(c: Config, s: State, a: Action)
    requires Enabled(c, s, a) && Who(a) == Monitors
    ensures EnabledMonitor(c, s, a) && Apply(c, s, a).table == MonitorTable(c, s, a)
    ensures Apply(c, s, a).now == s.now && Apply(c, s, a).chain == s.chain
  {
    hide Enabled, Apply, QuoteFor, OutRowFor, InRowFor;
    hide Inserted, InRecorded, ConfirmedIn, StatusSet, RelatedPreimageSet;
    MonitorApplies(c, s, a);
  }

  lemma SendFrame(c: Config, s: State, a: Action)
    requires Enabled(c, s, a) && Who(a) == SendJob
    ensures var s' := Apply(c, s, a);
            && s'.now == s.now && s'.chain == s.chain && s'.notes == s.notes && s'.revealing == s.revealing
            && s'.conf == s.conf && s'.refu == s.refu && s'.reco == s.reco
  {
    hide Selects, StatusSwapped, AmountAndFeeSet;
  }

  lemma ConfirmFrame(c: Config, s: State, a: Action)
    requires Enabled(c, s, a) && Who(a) == ConfirmJob
    ensures var s' := Apply(c, s, a);
            && s'.now == s.now && s'.chain == s.chain && s'.notes == s.notes && s'.revealing == s.revealing
            && s'.send == s.send && s'.refu == s.refu && s'.reco == s.reco && SameHistory(s, s')
  {
    hide Selects, StatusSwapped, StatusSet, ConfirmedIn;
  }

  lemma RefundFrame(c: Config, s: State, a: Action)
    requires Enabled(c, s, a) && Who(a) == RefundJob
    ensures var s' := Apply(c, s, a);
            && s'.now == s.now && s'.chain == s.chain && s'.notes == s.notes && s'.revealing == s.revealing
            && s'.send == s.send && s'.conf == s.conf && s'.reco == s.reco && SameHistory(s, s')
  {
    hide Selects, StatusSwapped, StatusSet;
  }

  lemma RecoverFrame(c: Config, s: State, a: Action)
    requires Enabled(c, s, a) && Who(a) == RecoverJob
    ensures var s' := Apply(c, s, a);
            && s'.now == s.now && s'.chain == s.chain && s'.notes == s.notes && s'.revealing == s.revealing
            && s'.sent == s.sent
            && s'.send == s.send && s'.conf == s.conf && s'.refu == s.refu && SameHistory(s, s')
  {
    hide Selects, StatusSwapped;
  }

  // ----- which part of the relation an actor's action uses -----

  lemma MonitorApplies(c: Config, s: State, a: Action)
    requires Enabled(c, s, a) && Who(a) == Monitors
    ensures EnabledMonitor(c, s, a) && Apply(c, s, a) == ApplyMonitor(c, s, a)
  {
    hide EnabledMonitor, ApplyMonitor;
  }

  lemma SendApplies(c: Config, s: State, a: Action)
    requires Enabled(c, s, a) && Who(a) == SendJob
    ensures EnabledSend(c, s, a) && Apply(c, s, a) == ApplySend(c, s, a)
  {
    hide EnabledSend, ApplySend;
  }

  lemma ConfirmApplies(c: Config, s: State, a: Action)
    requires Enabled(c, s, a) && Who(a) == ConfirmJob
    ensures EnabledConfirm(c, s, a) && Apply(c, s, a) == ApplyConfirm(c, s, a)
  {
    hide EnabledConfirm, ApplyConfirm;
  }

  lemma RefundApplies(c: Config, s: State, a: Action)
    requires Enabled(c, s, a) && Who(a) == RefundJob
    ensures EnabledRefund(c, s, a) && Apply(c, s, a) == ApplyRefund(c, s, a)
  {
    hide EnabledRefund, ApplyRefund;
  }

  lemma RecoverApplies(c: Config, s: State, a: Action)
    requires Enabled(c, s, a) && Who(a) == RecoverJob
    ensures EnabledRecover(s, a) && Apply(c, s, a) == ApplyRecover(c, s, a)
  {
    hide EnabledRecover, ApplyRecover;
  }
}
