/**
 * A timed retry loop: a job polls for a row that is Ready, marks it Busy and submits; a recovery job turns a row that
 * has been Busy too long back to Ready. With bounded passes, gaps, mining time and faults, some submission is mined by
 * a fixed deadline. The confirm job on an OUT row and the refund job on an IN row are both instances.
 */
module RetryLoop {
  import opened Types

  /** Bounds on one job and its recovery: a pass, the wait between passes, mining, and failing attempts. */
  datatype Bounds = Bounds(pass: Time, gap: Time, recPass: Time, recGap: Time, mining: Time, faults: nat)

  ghost predicate BoundsOk(b: Bounds) {
    0 <= b.pass && 0 <= b.gap && 0 <= b.recPass && 0 <= b.recGap && 0 <= b.mining
  }

  datatype Phase = Ready | Busy(since: Time)

  datatype Clocked =
    | Waiting(since: Time)
    | Passing(start: Time, covers: bool)

  datatype Loop = Loop(now: Time, row: Phase, job: Clocked, rec: Clocked, due: Option<Time>, faults: nat)

  /** Busy for so long at most before the row is Ready again. */
  function RecoverTime(b: Bounds): Time {
    MAX_PENDING_RETRY + 2 * b.recPass + b.recGap
  }

  /** One attempt, from any state of the loop to its submission. */
  function AttemptTime(b: Bounds): Time {
    RecoverTime(b) + 2 * b.pass + b.gap
  }

  function Budget(b: Bounds, n: nat): Time {
    if n == 0 then 0 else Budget(b, n - 1) + AttemptTime(b)
  }

  /** From the start of the loop to a mined submission, with every allowed attempt failing first. */
  function TotalTime(b: Bounds): Time {
    Budget(b, b.faults + 1) + b.mining
  }

  ghost predicate ClockOnTime(now: Time, k: Clocked, pass: Time, gap: Time) {
    match k
    case Waiting(since) => now <= since + gap
    case Passing(start, _) => now <= start + pass
  }

  /** No bound has been overrun. */
  ghost predicate OnTime(b: Bounds, l: Loop) {
    && ClockOnTime(l.now, l.job, b.pass, b.gap)
    && ClockOnTime(l.now, l.rec, b.recPass, b.recGap)
    && (l.due.Some? ==> l.now <= l.due.value)
    && l.faults <= b.faults
  }

  ghost predicate Past(now: Time, k: Clocked) {
    match k
    case Waiting(since) => since <= now
    case Passing(start, _) => start <= now
  }

  ghost predicate Covered(k: Clocked) {
    k.Passing? && k.covers
  }

  ghost predicate PastOk(l: Loop) {
    && Past(l.now, l.job) && Past(l.now, l.rec)
    && (l.row.Busy? ==> l.row.since <= l.now)
  }

  /** How far the attempt that began at `mark` can have got. */
  ghost predicate Stage(b: Bounds, l: Loop, mark: Time) {
    if Covered(l.job) then l.job.start <= mark + RecoverTime(b) + b.pass + b.gap
    else
      match l.row
      case Busy(u) =>
        && u <= mark
        && (match l.rec
            case Passing(start, covers) =>
              start <= mark + MAX_PENDING_RETRY + if covers then b.recPass + b.recGap else 0
            case Waiting(since) => since <= mark + MAX_PENDING_RETRY + b.recPass)
      case Ready =>
        match l.job
        case Passing(start, _) => start <= mark + RecoverTime(b)
        case Waiting(since) => since <= mark + RecoverTime(b) + b.pass
  }

  /** The loop began at `t0`; its current attempt began at `mark`, one attempt per fault later. */
  ghost predicate Progress(b: Bounds, l: Loop, mark: Time, t0: Time) {
    && BoundsOk(b) && PastOk(l)
    && t0 <= mark <= l.now && mark <= t0 + Budget(b, l.faults)
    && (l.due.Some? ==> l.due.value <= t0 + TotalTime(b))
    && (l.due.None? ==> Stage(b, l, mark))
  }

  lemma {:induction false} BudgetMono(b: Bounds, m: nat, n: nat)
    requires BoundsOk(b) && m <= n
    ensures Budget(b, m) <= Budget(b, n)
    decreases n
  {
    if m < n {
      BudgetMono(b, m, n - 1);
    }
  }

  /** While nothing is due, the current attempt is not over its time. */
  lemma WithinAttempt(b: Bounds, l: Loop, mark: Time, t0: Time)
    requires Progress(b, l, mark, t0) && OnTime(b, l) && l.due.None?
    ensures l.now <= mark + AttemptTime(b)
  {
  }

  /** The loop is never past its total time. */
  lemma WithinTotal(b: Bounds, l: Loop, mark: Time, t0: Time)
    requires Progress(b, l, mark, t0) && OnTime(b, l)
    ensures l.now <= t0 + TotalTime(b)
  {
    if l.due.None? {
      WithinAttempt(b, l, mark, t0);
      BudgetMono(b, l.faults + 1, b.faults + 1);
    }
  }

  /** Any state can be the beginning of an attempt. */
  lemma FreshAttempt(b: Bounds, l: Loop, t0: Time)
    requires BoundsOk(b) && PastOk(l) && t0 <= l.now <= t0 + Budget(b, l.faults)
    requires l.due.Some? ==> l.due.value <= t0 + TotalTime(b)
    ensures Progress(b, l, l.now, t0)
  {
  }

  lemma StartLoop(b: Bounds, l: Loop)
    requires BoundsOk(b) && PastOk(l) && (l.due.Some? ==> l.due.value <= l.now + TotalTime(b))
    ensures Progress(b, l, l.now, l.now)
  {
    BudgetMono(b, 0, l.faults);
    FreshAttempt(b, l, l.now);
  }

  lemma LaterClock(b: Bounds, l: Loop, l': Loop, mark: Time, t0: Time)
    requires Progress(b, l, mark, t0) && l' == l.(now := l'.now) && l.now <= l'.now
    ensures Progress(b, l', mark, t0)
  {
  }

  /** One more fault: whatever else changed, a new attempt begins now. */
  lemma Faulted(b: Bounds, l: Loop, l': Loop, mark: Time, t0: Time)
    requires Progress(b, l, mark, t0) && OnTime(b, l)
    requires l'.now == l.now && l'.due == l.due && l'.faults == l.faults + 1 && PastOk(l')
    ensures exists m: Time :: Progress(b, l', m, t0)
  {
    if l.due.None? {
      WithinAttempt(b, l, mark, t0);
      FreshAttempt(b, l', t0);
    } else {
      assert Progress(b, l', mark, t0) by {
        BudgetMono(b, l.faults, l'.faults);
      }
    }
  }

  /** The job's list query: it covers the row exactly when the row is Ready. */
  lemma JobQueried(b: Bounds, l: Loop, l': Loop, mark: Time, t0: Time)
    requires Progress(b, l, mark, t0) && OnTime(b, l)
    requires l.job.Waiting? && l' == l.(job := Passing(l.now, l.row.Ready?))
    ensures Progress(b, l', mark, t0)
  {
  }

  lemma JobEnded(b: Bounds, l: Loop, l': Loop, mark: Time, t0: Time)
    requires Progress(b, l, mark, t0) && OnTime(b, l)
    requires l.job.Passing? && !l.job.covers && l' == l.(job := Waiting(l.now))
    ensures Progress(b, l', mark, t0)
  {
  }

  /** The job's compare-and-set, before it submits. */
  lemma JobMarked(b: Bounds, l: Loop, l': Loop, mark: Time, t0: Time)
    requires Progress(b, l, mark, t0) && Covered(l.job)
    requires l' == l.(row := l'.row) && (l'.row == l.row || l'.row == Busy(l.now))
    ensures Progress(b, l', mark, t0)
  {
  }

  /** A submission that will be mined in time. */
  lemma Submitted(b: Bounds, l: Loop, l': Loop, mark: Time, t0: Time)
    requires Progress(b, l, mark, t0) && OnTime(b, l)
    requires Covered(l.job) && l' == l.(job := Passing(l.job.start, false), due := l'.due)
    requires l'.due == if l.due.Some? then l.due else Some(l.now + b.mining)
    ensures Progress(b, l', mark, t0)
  {
    if l.due.None? {
      WithinAttempt(b, l, mark, t0);
      BudgetMono(b, l.faults + 1, b.faults + 1);
    }
  }

  /** The recovery query covers a row that has been Busy long enough. */
  lemma RecoveryQueried(b: Bounds, l: Loop, l': Loop, mark: Time, t0: Time)
    requires Progress(b, l, mark, t0) && OnTime(b, l)
    requires l.rec.Waiting? && l'.rec.Passing? && l' == l.(rec := Passing(l.now, l'.rec.covers))
    requires l.row.Busy? && l.row.since + MAX_PENDING_RETRY < l.now ==> l'.rec.covers
    ensures Progress(b, l', mark, t0)
  {
  }

  lemma RecoveryEnded(b: Bounds, l: Loop, l': Loop, mark: Time, t0: Time)
    requires Progress(b, l, mark, t0) && OnTime(b, l)
    requires l.rec.Passing? && !l.rec.covers && l' == l.(rec := Waiting(l.now))
    ensures Progress(b, l', mark, t0)
  {
  }

  /** The recovery job's compare-and-set. */
  lemma Restored(b: Bounds, l: Loop, l': Loop, mark: Time, t0: Time)
    requires Progress(b, l, mark, t0) && OnTime(b, l)
    requires Covered(l.rec) && l' == l.(rec := Passing(l.rec.start, false), row := Ready)
    ensures Progress(b, l', mark, t0)
  {
  }

  // ----- the loop's steps, as one relation per job -----

  ghost predicate Goes(b: Bounds, l: Loop, t0: Time) {
    exists mark: Time :: Progress(b, l, mark, t0)
  }

  /** A step of the polling job: inside a pass it may fail on the row, submit it, mark it, or do none of these. */
  datatype JobKind = JobQuery | JobFail | JobEnd | JobInner(fault: bool, submits: bool, marks: bool)

  ghost predicate JobStep(b: Bounds, l: Loop, l': Loop, k: JobKind) {
    match k
    case JobQuery => l.job.Waiting? && l' == l.(job := Passing(l.now, l.row.Ready?))
    case JobFail => l.job.Waiting? && l' == l.(job := Waiting(l.now), faults := l.faults + 1)
    case JobEnd => l.job.Passing? && !l.job.covers && l' == l.(job := Waiting(l.now))
    case JobInner(fault, submits, marks) =>
      && l.job.Passing?
      && (if fault then
            l' == l.(job := Passing(l.job.start, false), faults := l.faults + 1)
          else if submits then
            && l.job.covers
            && l' == l.(job := Passing(l.job.start, false),
                        due := if l.due.Some? then l.due else Some(l.now + b.mining))
          else
            l' == l.(row := l'.row) && (l'.row == l.row || (marks && l.job.covers && l'.row == Busy(l.now))))
  }

  lemma JobStepGoes(b: Bounds, l: Loop, l': Loop, k: JobKind, t0: Time)
    requires Goes(b, l, t0) && OnTime(b, l) && JobStep(b, l, l', k)
    ensures Goes(b, l', t0)
  {
    hide OnTime, Progress, PastOk;
    var mark: Time :| Progress(b, l, mark, t0);
    match k {
      case JobQuery => JobQueried(b, l, l', mark, t0);
      case JobFail => PastAfter(b, l, l', mark, t0); Faulted(b, l, l', mark, t0);
      case JobEnd => JobEnded(b, l, l', mark, t0);
      case JobInner(fault, submits, marks) =>
        if fault {
          PastAfter(b, l, l', mark, t0);
          Faulted(b, l, l', mark, t0);
        } else if submits {
          Submitted(b, l, l', mark, t0);
        } else if l'.row != l.row {
          JobMarked(b, l, l', mark, t0);
        }
    }
  }

  /** A step of the recovery job; inside a pass it may reach the row, and restore it or fail to. */
  datatype RecKind = RecoverQuery | RecoverFail | RecoverEnd | RecoverInner(head: bool, ok: bool) | RecoverElse

  ghost predicate RecStep(l: Loop, l': Loop, k: RecKind) {
    match k
    case RecoverQuery =>
      && l.rec.Waiting? && l'.rec.Passing? && l' == l.(rec := Passing(l.now, l'.rec.covers))
      && (l.row.Busy? && l.row.since + MAX_PENDING_RETRY < l.now ==> l'.rec.covers)
    case RecoverFail => l.rec.Waiting? && l' == l.(rec := Waiting(l.now), faults := l.faults + 1)
    case RecoverEnd => l.rec.Passing? && !l.rec.covers && l' == l.(rec := Waiting(l.now))
    case RecoverInner(head, ok) =>
      if !head then l' == l
      else
        && Covered(l.rec)
        && (if ok then l' == l.(rec := Passing(l.rec.start, false), row := Ready)
            else l' == l.(rec := Passing(l.rec.start, false), faults := l.faults + 1))
    case RecoverElse => l' == l
  }

  lemma RecStepGoes(b: Bounds, l: Loop, l': Loop, k: RecKind, t0: Time)
    requires Goes(b, l, t0) && OnTime(b, l) && RecStep(l, l', k)
    ensures Goes(b, l', t0)
  {
    hide OnTime, Progress, PastOk;
    var mark: Time :| Progress(b, l, mark, t0);
    match k {
      case RecoverQuery => RecoveryQueried(b, l, l', mark, t0);
      case RecoverFail => PastAfter(b, l, l', mark, t0); Faulted(b, l, l', mark, t0);
      case RecoverEnd => RecoveryEnded(b, l, l', mark, t0);
      case RecoverInner(head, ok) =>
        if head && ok {
          Restored(b, l, l', mark, t0);
        } else if head {
          PastAfter(b, l, l', mark, t0);
          Faulted(b, l, l', mark, t0);
        }
      case RecoverElse =>
    }
  }

  /** A restart of the node: both jobs wait again, and an attempt may be lost. */
  lemma RestartGoes(b: Bounds, l: Loop, l': Loop, t0: Time)
    requires Goes(b, l, t0) && OnTime(b, l)
    requires l' == l.(job := Waiting(l.now), rec := Waiting(l.now), faults := l.faults + 1)
    ensures Goes(b, l', t0)
  {
    hide OnTime, Progress, PastOk;
    var mark: Time :| Progress(b, l, mark, t0);
    PastAfter(b, l, l', mark, t0);
    Faulted(b, l, l', mark, t0);
  }

  lemma ClockGoes(b: Bounds, l: Loop, l': Loop, t0: Time)
    requires Goes(b, l, t0) && l' == l.(now := l'.now) && l.now <= l'.now
    ensures Goes(b, l', t0)
  {
    var mark: Time :| Progress(b, l, mark, t0);
    LaterClock(b, l, l', mark, t0);
  }

  /** A step that only stops covering the row, or starts a new wait, keeps all stamps in the past. */
  lemma PastAfter(b: Bounds, l: Loop, l': Loop, mark: Time, t0: Time)
    requires Progress(b, l, mark, t0) && l'.now == l.now
    requires l'.row == l.row || l'.row == Ready
    requires l'.job == l.job || l'.job == Waiting(l.now) || (l.job.Passing? && l'.job == Passing(l.job.start, false))
    requires l'.rec == l.rec || l'.rec == Waiting(l.now) || (l.rec.Passing? && l'.rec == Passing(l.rec.start, false))
    ensures PastOk(l')
  {
  }
}
