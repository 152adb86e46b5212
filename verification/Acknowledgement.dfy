/** Which messages can still be acknowledged.  A message that was read stays pending for good
    exactly when no worker is on its way to acknowledge it, and nothing hands it out again. */
module Acknowledgement {
  import opened Domain
  import opened Tables
  import opened Pipeline
  import opened Integrity
  import opened Leases
  import opened Delivery
  import Backoff
  import Booking
  import Copies

  // ---------- workers on their way to an acknowledgement ----------

  /** The entry in hand is yet to be acknowledged, unless a command throws. */
  predicate BeforeAck(stage: Stage) {
    InRun(stage) || stage.AckReturned? || stage.Increment? || stage.AckFailed?
  }

  /** The worker is bound to leave its batch: it has aborted, or is about to bury an event that
      already has its dead letter. */
  predicate Doomed(cfg: Config, db: Db, job: Job) {
    match job.stage
    case Release(outcome) => outcome.Aborted?
    case Increment => Copies.AttemptsOf(db, job.event) + 1 >= cfg.maxAttempts && job.event in db.deadLetters
    case AckFailed(n) => n >= cfg.maxAttempts && job.event in db.deadLetters
    case Bury(_) => job.event in db.deadLetters
    case _ => false
  }

  /** Worker `w` can still acknowledge entry `i`. */
  predicate MayAck(cfg: Config, s: State, w: nat, i: nat) {
    w in s.workers && match s.workers[w]
      case Reading => false
      case Locking(j, end) => j <= i < end
      case Skipping(j, end) => j <= i < end
      case Working(j, end, job) => (i == j && BeforeAck(job.stage)) || (j < i < end && !Doomed(cfg, s.db, job))
  }

  /** The entry was read, is not acknowledged, and nobody can acknowledge it any more. */
  ghost predicate Forsaken(cfg: Config, s: State, i: nat) {
    i in s.cache.pending && forall w :: !MayAck(cfg, s, w, i)
  }

  // ---------- a forsaken entry stays forsaken ----------

  /** A worker that could not acknowledge the entry does not, and cannot afterwards. */
  ghost predicate StillNot(cfg: Config, s: State, t: State, w: nat, i: nat) {
    (i in s.cache.pending ==> i in t.cache.pending) && !MayAck(cfg, t, w, i)
  }

  lemma ReadNot(cfg: Config, s: State, w: nat, fault: Fault, i: nat)
    requires w in s.workers && s.workers[w].Reading? && i < s.cache.cursor
    ensures StillNot(cfg, s, DoRead(cfg, s, w, fault), w, i)
  {}

  lemma LockNot(cfg: Config, s: State, w: nat, j: nat, end: nat, fault: Fault, i: nat)
    requires w in s.workers && s.workers[w] == Locking(j, end) && !MayAck(cfg, s, w, i) && j < end
    ensures StillNot(cfg, s, DoLock(cfg, s, w, j, end, fault), w, i)
  {}

  lemma SkipNot(cfg: Config, s: State, w: nat, j: nat, end: nat, fault: Fault, i: nat)
    requires w in s.workers && s.workers[w] == Skipping(j, end) && !MayAck(cfg, s, w, i) && j < end
    ensures StillNot(cfg, s, DoSkip(s, w, j, end, fault), w, i)
  {}

  lemma ReleaseNot(cfg: Config, s: State, w: nat, j: nat, end: nat, job: Job, fault: Fault, i: nat)
    requires w in s.workers && s.workers[w] == Working(j, end, job) && job.stage.Release? && !MayAck(cfg, s, w, i)
    ensures StillNot(cfg, s, DoRelease(s, w, j, end, job, fault), w, i)
  {}

  /** A doomed command leads only to another, whatever it throws. */
  lemma DoomLasts(cfg: Config, now: nat, u: real, j: nat, db: Db, cache: Cache, job: Job)
    requires !job.stage.Release? && DbOk(cfg, db) && job.event in db.events && Doomed(cfg, db, job)
    ensures var reply := HandleCommand(cfg, now, u, job.event, j, db, cache, job.stage);
            && Doomed(cfg, reply.db, job.(stage := reply.stage))
            && Doomed(cfg, reply.db, job.(stage := OnThrow(job.stage)))
            && Doomed(cfg, db, job.(stage := OnThrow(job.stage)))
  {}

  lemma CommandAcks(cfg: Config, now: nat, u: real, e: nat, j: nat, db: Db, cache: Cache, stage: Stage)
    requires !stage.Release?
    ensures var reply := HandleCommand(cfg, now, u, e, j, db, cache, stage);
            && reply.cache.pending ==
               (if stage.AckReturned? || stage.AckFailed? then cache.pending - {j} else cache.pending)
            && (BeforeAck(reply.stage) ==> BeforeAck(stage)) && (BeforeAck(OnThrow(stage)) ==> BeforeAck(stage))
  {}

  lemma BehindDoomed(cfg: Config, s: State, w: nat, j: nat, end: nat, job: Job, fault: Fault, u: real)
    requires w in s.workers && s.workers[w] == Working(j, end, job) && !job.stage.Release? && Doomed(cfg, s.db, job)
    requires DbOk(cfg, s.db) && job.event in s.db.events
    ensures var t := DoCommand(cfg, s, w, j, end, job, fault, u);
            t.workers[w].Working? && t.workers[w].i == j && t.workers[w].end == end && Doomed(cfg, t.db, JobOf(t, w))
  {
    DoomLasts(cfg, s.now, u, j, s.db, s.cache, job);
  }

  lemma CommandNot(cfg: Config, s: State, w: nat, j: nat, end: nat, job: Job, fault: Fault, u: real, i: nat)
    requires w in s.workers && s.workers[w] == Working(j, end, job) && !job.stage.Release? && !MayAck(cfg, s, w, i)
    requires DbOk(cfg, s.db) && job.event in s.db.events
    ensures StillNot(cfg, s, DoCommand(cfg, s, w, j, end, job, fault, u), w, i)
  {
    CommandAcks(cfg, s.now, u, job.event, j, s.db, s.cache, job.stage);
    if Doomed(cfg, s.db, job) {
      BehindDoomed(cfg, s, w, j, end, job, fault, u);
    }
  }

  lemma WorkNot(cfg: Config, s: State, w: nat, fault: Fault, u: real, i: nat)
    requires Inv(cfg, s) && w in s.workers && !MayAck(cfg, s, w, i) && i < s.cache.cursor
    ensures StillNot(cfg, s, DoWork(cfg, s, w, fault, u), w, i)
  {
    assert WorkerOk(cfg, s.db, s.cache.log, s.workers[w]);
    match s.workers[w] {
      case Reading => ReadNot(cfg, s, w, fault, i);
      case Locking(j, end) => LockNot(cfg, s, w, j, end, fault, i);
      case Skipping(j, end) => SkipNot(cfg, s, w, j, end, fault, i);
      case Working(j, end, job) =>
        if job.stage.Release? {
          ReleaseNot(cfg, s, w, j, end, job, fault, i);
        } else {
          CommandNot(cfg, s, w, j, end, job, fault, u, i);
        }
    }
  }

  /** Only more workers are doomed as the tables grow. */
  lemma OthersNot(cfg: Config, s: State, t: State, v: nat, i: nat)
    requires Grows(s.db, t.db) && !MayAck(cfg, s, v, i)
    requires v in t.workers ==> (v in s.workers && t.workers[v] == s.workers[v]) || t.workers[v].Reading?
    ensures !MayAck(cfg, t, v, i)
  {}

  lemma OneWorkerMoves(cfg: Config, s: State, w: nat, fault: Fault, u: real)
    requires w in s.workers
    ensures var t := DoWork(cfg, s, w, fault, u);
            forall v | v != w && v in t.workers :: v in s.workers && t.workers[v] == s.workers[v]
  {}

  lemma OtherStepWorkers(cfg: Config, s: State, step: Step)
    requires !step.Work?
    ensures var t := Apply(cfg, s, step);
            forall v | v in t.workers :: (v in s.workers && t.workers[v] == s.workers[v]) || t.workers[v].Reading?
  {
    if step.Handle? && step.h in s.handlers {
      Booking.HandleLeavesOrders(cfg, s, step.h, step.id);
    }
  }

  lemma StaysForsaken(cfg: Config, s: State, step: Step, i: nat)
    requires Inv(cfg, s) && Partitioned(s) && Forsaken(cfg, s, i)
    ensures Forsaken(cfg, Apply(cfg, s, step), i)
  {
    var t := Apply(cfg, s, step);
    Integrity.StepKeeps(cfg, s, step);
    if step.Work? && step.w in s.workers && Backoff.IsDraw(step.u) {
      WorkNot(cfg, s, step.w, step.fault, step.u, i);
      OneWorkerMoves(cfg, s, step.w, step.fault, step.u);
      forall v ensures !MayAck(cfg, t, v, i) {
        if v != step.w { OthersNot(cfg, s, t, v, i); }
      }
    } else if !step.Work? {
      PendingKept(cfg, s, step);
      OtherStepWorkers(cfg, s, step);
      forall v ensures !MayAck(cfg, t, v, i) {
        OthersNot(cfg, s, t, v, i);
      }
    }
  }

  lemma ExecMore(cfg: Config, steps: seq<Step>, more: seq<Step>)
    requires more != []
    ensures Exec(cfg, steps + more) == Apply(cfg, Exec(cfg, steps + more[..|more| - 1]), more[|more| - 1])
  {
    var all := steps + more;
    assert all[..|all| - 1] == steps + more[..|more| - 1];
  }

  lemma {:induction false} ForsakenForGood(cfg: Config, steps: seq<Step>, more: seq<Step>, i: nat)
    requires Forsaken(cfg, Exec(cfg, steps), i)
    ensures Forsaken(cfg, Exec(cfg, steps + more), i)
    decreases |more|
  {
    if more == [] {
      assert steps + more == steps;
    } else {
      var before := steps + more[..|more| - 1];
      ForsakenForGood(cfg, steps, more[..|more| - 1], i);
      Integrity.Always(cfg, before);
      EachEntryOnce(cfg, before);
      ExecMore(cfg, steps, more);
      StaysForsaken(cfg, Exec(cfg, before), more[|more| - 1], i);
    }
  }

  // ---------- a worker that can acknowledge an entry gets there ----------

  /** How far the worker is from the end of the entry in hand. */
  function Rank(wk: Worker): nat {
    match wk
    case Reading => 0
    case Locking(_, _) => 20
    case Skipping(_, _) => 19
    case Working(_, _, job) =>
      match job.stage {
        case FindEvent => 18
        case FindOrder(_) => 17
        case Attach(_, _) => 16
        case WriteMismatches(_, _, _) => 15
        case SetStatus(_, _, _, _) => 14
        case Commit(_, _, _, _) => 13
        case Mark(_) => 13
        case AckReturned => 12
        case Increment => 11
        case AckFailed(_) => 10
        case Bury(_) => 9
        case MarkBuried => 8
        case MarkFailedState(_) => 7
        case Reschedule(_) => 6
        case Release(_) => 5
      }
  }

  function Reached(wk: Worker): nat { if wk.Reading? then 0 else wk.i }

  /** The worker is nearer to the entry, if it has not acknowledged it. */
  ghost predicate Nearer(cfg: Config, s: State, t: State, w: nat, i: nat) {
    || i !in t.cache.pending
    || (MayAck(cfg, t, w, i) && w in s.workers
        && (Reached(t.workers[w]) > Reached(s.workers[w])
            || (Reached(t.workers[w]) == Reached(s.workers[w]) && Rank(t.workers[w]) < Rank(s.workers[w]))))
  }

  lemma RunNearer(cfg: Config, now: nat, e: nat, db: Db, stage: Stage, j: nat, end: nat, job: Job)
    requires InRun(stage) && job.stage == stage
    ensures var stage' := RunCommand(cfg, now, e, db, stage).1;
            && (InRun(stage') || stage'.AckReturned?)
            && Rank(Working(j, end, job.(stage := stage'))) < Rank(Working(j, end, job))
  {}

  lemma HandlerNearer(cfg: Config, now: nat, u: real, j: nat, end: nat, db: Db, cache: Cache, job: Job)
    requires !InRun(job.stage) && !job.stage.Release? && job.event in db.events && !Doomed(cfg, db, job)
    ensures var reply := HandleCommand(cfg, now, u, job.event, j, db, cache, job.stage);
            && !Doomed(cfg, reply.db, job.(stage := reply.stage))
            && Rank(Working(j, end, job.(stage := reply.stage))) < Rank(Working(j, end, job))
  {}

  lemma RunCommandNearer(cfg: Config, s: State, w: nat, j: nat, end: nat, job: Job, u: real, i: nat)
    requires w in s.workers && s.workers[w] == Working(j, end, job) && InRun(job.stage) && MayAck(cfg, s, w, i)
    ensures Nearer(cfg, s, DoCommand(cfg, s, w, j, end, job, NoFault, u), w, i)
  {
    RunNearer(cfg, s.now, job.event, s.db, job.stage, j, end, job);
  }

  lemma HandlerCommandNearer(cfg: Config, s: State, w: nat, j: nat, end: nat, job: Job, u: real, i: nat)
    requires w in s.workers && s.workers[w] == Working(j, end, job) && MayAck(cfg, s, w, i)
    requires !InRun(job.stage) && !job.stage.Release? && job.event in s.db.events
    ensures Nearer(cfg, s, DoCommand(cfg, s, w, j, end, job, NoFault, u), w, i)
  {
    CommandAcks(cfg, s.now, u, job.event, j, s.db, s.cache, job.stage);
    if i != j {
      HandlerNearer(cfg, s.now, u, j, end, s.db, s.cache, job);
    }
  }

  lemma SkipNearer(cfg: Config, s: State, w: nat, j: nat, end: nat, i: nat)
    requires w in s.workers && s.workers[w] == Skipping(j, end) && MayAck(cfg, s, w, i)
    ensures Nearer(cfg, s, DoSkip(s, w, j, end, NoFault), w, i)
  {}

  lemma LockNearer(cfg: Config, s: State, w: nat, j: nat, end: nat, i: nat)
    requires w in s.workers && s.workers[w] == Locking(j, end) && MayAck(cfg, s, w, i) && j < |s.cache.log|
    ensures Nearer(cfg, s, DoLock(cfg, s, w, j, end, NoFault), w, i)
  {}

  lemma ReleaseNearer(cfg: Config, s: State, w: nat, j: nat, end: nat, job: Job, i: nat)
    requires w in s.workers && s.workers[w] == Working(j, end, job) && job.stage.Release? && MayAck(cfg, s, w, i)
    ensures Nearer(cfg, s, DoRelease(s, w, j, end, job, NoFault), w, i)
  {}

  lemma WorkNearer(cfg: Config, s: State, w: nat, u: real, i: nat)
    requires Inv(cfg, s) && MayAck(cfg, s, w, i)
    ensures Nearer(cfg, s, DoWork(cfg, s, w, NoFault, u), w, i)
  {
    assert WorkerOk(cfg, s.db, s.cache.log, s.workers[w]);
    match s.workers[w] {
      case Reading =>
      case Locking(j, end) => LockNearer(cfg, s, w, j, end, i);
      case Skipping(j, end) => SkipNearer(cfg, s, w, j, end, i);
      case Working(j, end, job) =>
        if job.stage.Release? {
          ReleaseNearer(cfg, s, w, j, end, job, i);
        } else if InRun(job.stage) {
          RunCommandNearer(cfg, s, w, j, end, job, u, i);
        } else {
          HandlerCommandNearer(cfg, s, w, j, end, job, u, i);
        }
    }
  }

  lemma OneStepNearer(cfg: Config, steps: seq<Step>, w: nat, i: nat) returns (next: seq<Step>)
    requires MayAck(cfg, Exec(cfg, steps), w, i)
    ensures next == steps + [Work(w, NoFault, 0.0)] && Nearer(cfg, Exec(cfg, steps), Exec(cfg, next), w, i)
  {
    next := steps + [Work(w, NoFault, 0.0)];
    assert next[..|steps|] == steps;
    Integrity.Always(cfg, steps);
    WorkNearer(cfg, Exec(cfg, steps), w, 0.0, i);
  }

  lemma {:induction false} GetsThere(cfg: Config, steps: seq<Step>, w: nat, i: nat) returns (more: seq<Step>)
    requires MayAck(cfg, Exec(cfg, steps), w, i)
    ensures i !in Exec(cfg, steps + more).cache.pending
    decreases i - Reached(Exec(cfg, steps).workers[w]), Rank(Exec(cfg, steps).workers[w])
  {
    var next := OneStepNearer(cfg, steps, w, i);
    more := [Work(w, NoFault, 0.0)];
    if i in Exec(cfg, next).cache.pending {
      var rest := GetsThere(cfg, next, w, i);
      more := more + rest;
      assert steps + more == next + rest;
    }
  }

  /** Whatever happens next, an entry is never acknowledged again if and only if it is pending
      and no worker can acknowledge it any more. */
  lemma {:induction false} NeverAcknowledgedExactly(cfg: Config, steps: seq<Step>, i: nat)
    ensures (forall more :: i in Exec(cfg, steps + more).cache.pending) <==> Forsaken(cfg, Exec(cfg, steps), i)
  {
    if Forsaken(cfg, Exec(cfg, steps), i) {
      forall more ensures i in Exec(cfg, steps + more).cache.pending {
        ForsakenForGood(cfg, steps, more, i);
      }
    } else if i in Exec(cfg, steps).cache.pending {
      var w :| MayAck(cfg, Exec(cfg, steps), w, i);
      var more := GetsThere(cfg, steps, w, i);
    } else {
      assert steps + [] == steps;
    }
  }

  lemma NotAheadNotAcked(cfg: Config, s: State, w: nat, i: nat)
    requires Inv(cfg, s) && !Ahead(s, w, i)
    ensures !MayAck(cfg, s, w, i)
  {
    if w in s.workers {
      assert WorkerOk(cfg, s.db, s.cache.log, s.workers[w]);
    }
  }

  /** An entry that was read and that no worker has before it any more, because it was handled
      or because its worker is gone, is never delivered again, and never acknowledged if it was
      not before. */
  lemma {:induction false} NeverRedelivered(cfg: Config, steps: seq<Step>, k: nat, i: nat)
    requires k <= |steps| && i < At(cfg, steps, k).cache.cursor && forall v :: !Ahead(At(cfg, steps, k), v, i)
    ensures forall v :: !Ahead(Exec(cfg, steps), v, i)
    ensures i in Exec(cfg, steps).cache.pending <==> i in At(cfg, steps, k).cache.pending
  {
    NeverAheadAgain(cfg, steps, k, i);
    var s := At(cfg, steps, k);
    Integrity.Always(cfg, steps[..k]);
    if i in s.cache.pending {
      forall w ensures !MayAck(cfg, s, w, i) {
        NotAheadNotAcked(cfg, s, w, i);
      }
      ForsakenForGood(cfg, steps[..k], steps[k..], i);
      assert steps[..k] + steps[k..] == steps;
    }
  }

  // ---------- the steps that leave an entry behind ----------

  predicate Behind(s: State, w: nat, i: nat) {
    w in s.workers && !s.workers[w].Reading? && s.workers[w].i < i < s.workers[w].end
  }

  /** The worker's next command, throwing like this, keeps it from acknowledging the entry: it
      ends the batch, or leads to a failure handler that is bound to. */
  predicate GivesUp(cfg: Config, s: State, w: nat, fault: Fault, i: nat) {
    && w in s.workers && !fault.NoFault?
    && match s.workers[w]
       case Reading => false
       case Locking(_, _) => true
       case Skipping(j, _) => j < i || fault.Before?
       case Working(j, _, job) =>
         if InRun(job.stage) || job.stage.AckReturned?
         then j < i && Doomed(cfg, s.db, job.(stage := Increment))
         else j < i || fault.Before? || job.stage.Increment?
  }

  /** Worker `w` is at a failure handler that a dead letter for its event would doom. */
  predicate DoomedOnceDead(cfg: Config, s: State, w: nat) {
    IsWorking(s, w) && match JobOf(s, w).stage
      case Increment => Copies.AttemptsOf(s.db, JobOf(s, w).event) + 1 >= cfg.maxAttempts
      case AckFailed(n) => n >= cfg.maxAttempts
      case Bury(_) => true
      case _ => false
  }

  /** The next command of worker `v` dooms worker `w`: it buries the event that `w` too is about
      to bury, or counts the failure that uses up the attempts of a buried one. */
  predicate Dooms(cfg: Config, s: State, v: nat, fault: Fault, w: nat) {
    && v != w && IsWorking(s, v) && IsWorking(s, w) && JobOf(s, v).event == JobOf(s, w).event && !fault.Before?
    && ((JobOf(s, v).stage.Bury? && JobOf(s, w).event !in s.db.deadLetters && DoomedOnceDead(cfg, s, w))
        || (JobOf(s, v).stage.Increment? && JobOf(s, w).event in s.db.deadLetters && JobOf(s, w).stage.Increment?
            && Copies.AttemptsOf(s.db, JobOf(s, w).event) + 2 >= cfg.maxAttempts))
  }

  /** A read that throws after its effect; a crash, or an exception, of the worker that could
      acknowledge the entry; or a command of another that dooms it. */
  ghost predicate LeavesBehind(cfg: Config, s: State, step: Step, i: nat) {
    match step
    case Crash(w) => i in s.cache.pending && MayAck(cfg, s, w, i)
    case Work(v, fault, u) =>
      && Backoff.IsDraw(u) && v in s.workers
      && if i in s.cache.pending
         then (MayAck(cfg, s, v, i) && GivesUp(cfg, s, v, fault, i))
              || exists w :: MayAck(cfg, s, w, i) && Behind(s, w, i) && Dooms(cfg, s, v, fault, w)
         else s.workers[v].Reading? && fault.After?
              && s.cache.cursor <= i < s.cache.cursor + Available(s.cache, cfg.batchSize)
    case _ => false
  }

  lemma SameWorkerMayAck(cfg: Config, s: State, t: State, w: nat, i: nat)
    requires MayAck(cfg, s, w, i) && w in t.workers && t.workers[w] == s.workers[w]
    requires IsWorking(s, w) ==>
      var e := JobOf(s, w).event;
      Copies.AttemptsOf(t.db, e) == Copies.AttemptsOf(s.db, e) && (e in t.db.deadLetters <==> e in s.db.deadLetters)
    ensures MayAck(cfg, t, w, i)
  {}

  lemma OtherStepRows(cfg: Config, s: State, step: Step, e: nat)
    requires !step.Work?
    ensures var t := Apply(cfg, s, step);
            Copies.AttemptsOf(t.db, e) == Copies.AttemptsOf(s.db, e) && t.db.deadLetters == s.db.deadLetters
  {
    match step {
      case Handle(h, id) =>
        if h in s.handlers && !s.handlers[h].Publishing? { Copies.HandleEffect(cfg, s, h, id, e); }
      case Promote(p) =>
      case _ => Copies.AsideEvents(cfg, s, step);
    }
  }

  /** What a command does to them. */
  lemma CommandRows(cfg: Config, now: nat, u: real, x: nat, j: nat, db: Db, cache: Cache, stage: Stage, e: nat)
    requires !stage.Release? && x in db.events
    ensures var db' := HandleCommand(cfg, now, u, x, j, db, cache, stage).db;
            && Copies.AttemptsOf(db', e) == Copies.AttemptsOf(db, e) + (if x == e && stage.Increment? then 1 else 0)
            && (e in db'.deadLetters <==> e in db.deadLetters || (x == e && stage.Bury?))
  {
    if x != e || !stage.Increment? {
      Copies.OtherRow(cfg, now, u, x, j, db, cache, stage, e);
    }
  }

  lemma WorkRows(cfg: Config, s: State, v: nat, fault: Fault, u: real, e: nat)
    requires Inv(cfg, s) && v in s.workers
    ensures var t := DoWork(cfg, s, v, fault, u);
            var own := IsWorking(s, v) && JobOf(s, v).event == e && !fault.Before?;
            && Copies.AttemptsOf(t.db, e)
               == Copies.AttemptsOf(s.db, e) + (if own && JobOf(s, v).stage.Increment? then 1 else 0)
            && (e in t.db.deadLetters <==> e in s.db.deadLetters || (own && JobOf(s, v).stage.Bury?))
  {
    assert WorkerOk(cfg, s.db, s.cache.log, s.workers[v]);
    if IsWorking(s, v) && !JobOf(s, v).stage.Release? {
      CommandRows(cfg, s.now, u, JobOf(s, v).event, s.workers[v].i, s.db, s.cache, JobOf(s, v).stage, e);
    } else {
      Booking.AwayMoves(cfg, s, v, fault, u);
    }
  }

  /** Another worker's command takes the entry from `w` exactly if it dooms `w` before it. */
  lemma OthersDoomExactly(cfg: Config, s: State, v: nat, fault: Fault, u: real, w: nat, i: nat)
    requires Inv(cfg, s) && v in s.workers && v != w && MayAck(cfg, s, w, i)
    ensures MayAck(cfg, DoWork(cfg, s, v, fault, u), w, i) <==> !(Behind(s, w, i) && Dooms(cfg, s, v, fault, w))
  {
    WorkerStays(cfg, s, v, fault, u, w);
    if IsWorking(s, w) {
      WorkRows(cfg, s, v, fault, u, JobOf(s, w).event);
    }
  }

  lemma LockGivesUp(cfg: Config, s: State, w: nat, j: nat, end: nat, fault: Fault, i: nat)
    requires w in s.workers && s.workers[w] == Locking(j, end) && MayAck(cfg, s, w, i) && !fault.NoFault?
    ensures var t := DoLock(cfg, s, w, j, end, fault);
            t.cache.pending == s.cache.pending && !MayAck(cfg, t, w, i)
  {}

  lemma SkipGivesUp(cfg: Config, s: State, w: nat, j: nat, end: nat, fault: Fault, i: nat)
    requires w in s.workers && s.workers[w] == Skipping(j, end) && MayAck(cfg, s, w, i) && !fault.NoFault?
    requires i in s.cache.pending
    ensures var t := DoSkip(s, w, j, end, fault);
            i in t.cache.pending && !MayAck(cfg, t, w, i) <==> GivesUp(cfg, s, w, fault, i)
  {}

  lemma ReleaseGivesUp(cfg: Config, s: State, w: nat, j: nat, end: nat, job: Job, fault: Fault, i: nat)
    requires w in s.workers && s.workers[w] == Working(j, end, job) && job.stage.Release? && !fault.NoFault?
    requires MayAck(cfg, s, w, i)
    ensures var t := DoRelease(s, w, j, end, job, fault);
            t.cache.pending == s.cache.pending && !MayAck(cfg, t, w, i) && j < i
  {}

  lemma RunKeepsRows(cfg: Config, now: nat, u: real, e: nat, j: nat, db: Db, cache: Cache, stage: Stage)
    requires InRun(stage) || stage.AckReturned?
    ensures var db' := HandleCommand(cfg, now, u, e, j, db, cache, stage).db;
            Copies.AttemptsOf(db', e) == Copies.AttemptsOf(db, e) && db'.deadLetters == db.deadLetters
  {}

  lemma CommandGivesUp(cfg: Config, s: State, w: nat, j: nat, end: nat, job: Job, fault: Fault, u: real, i: nat)
    requires w in s.workers && s.workers[w] == Working(j, end, job) && !job.stage.Release? && !fault.NoFault?
    requires MayAck(cfg, s, w, i) && i in s.cache.pending
    ensures var t := DoCommand(cfg, s, w, j, end, job, fault, u);
            i in t.cache.pending && !MayAck(cfg, t, w, i) <==> GivesUp(cfg, s, w, fault, i)
  {
    CommandAcks(cfg, s.now, u, job.event, j, s.db, s.cache, job.stage);
    if InRun(job.stage) || job.stage.AckReturned? {
      RunKeepsRows(cfg, s.now, u, job.event, j, s.db, s.cache, job.stage);
    }
  }

  /** The worker itself leaves the entry behind exactly if it gives it up. */
  lemma OwnGivesUpExactly(cfg: Config, s: State, w: nat, fault: Fault, u: real, i: nat)
    requires Inv(cfg, s) && MayAck(cfg, s, w, i) && i in s.cache.pending
    ensures var t := DoWork(cfg, s, w, fault, u);
            i in t.cache.pending && !MayAck(cfg, t, w, i) <==> GivesUp(cfg, s, w, fault, i)
  {
    assert WorkerOk(cfg, s.db, s.cache.log, s.workers[w]);
    if fault.NoFault? {
      WorkNearer(cfg, s, w, u, i);
    } else {
      match s.workers[w] {
        case Reading =>
        case Locking(j, end) => LockGivesUp(cfg, s, w, j, end, fault, i);
        case Skipping(j, end) => SkipGivesUp(cfg, s, w, j, end, fault, i);
        case Working(j, end, job) =>
          if job.stage.Release? {
            ReleaseGivesUp(cfg, s, w, j, end, job, fault, i);
          } else {
            CommandGivesUp(cfg, s, w, j, end, job, fault, u, i);
          }
      }
    }
  }

  lemma WorkerStays(cfg: Config, s: State, v: nat, fault: Fault, u: real, w: nat)
    requires v in s.workers && w in s.workers && v != w
    ensures w in DoWork(cfg, s, v, fault, u).workers && DoWork(cfg, s, v, fault, u).workers[w] == s.workers[w]
  {
    if !IsWorking(s, v) || JobOf(s, v).stage.Release? {
      Booking.AwayMoves(cfg, s, v, fault, u);
    }
  }

  lemma ReadForsakesExactly(cfg: Config, s: State, v: nat, fault: Fault, i: nat)
    requires Inv(cfg, s) && Partitioned(s) && v in s.workers && s.workers[v].Reading? && i !in s.cache.pending
    ensures Forsaken(cfg, DoRead(cfg, s, v, fault), i)
            <==> fault.After? && s.cache.cursor <= i < s.cache.cursor + Available(s.cache, cfg.batchSize)
  {
    var t := DoRead(cfg, s, v, fault);
    SpanContents(s.cache.cursor, s.cache.cursor + Available(s.cache, cfg.batchSize));
    if s.cache.cursor <= i {
      forall w | w != v ensures !MayAck(cfg, t, w, i) {
        assert !Ahead(s, w, i);
        NotAheadNotAcked(cfg, s, w, i);
      }
    }
    assert fault.NoFault? && i in t.cache.pending ==> MayAck(cfg, t, v, i);
  }

  lemma OnlyReadsDeliver(cfg: Config, s: State, v: nat, fault: Fault, u: real)
    requires v in s.workers && !s.workers[v].Reading?
    ensures DoWork(cfg, s, v, fault, u).cache.pending <= s.cache.pending
  {
    if IsWorking(s, v) && !JobOf(s, v).stage.Release? {
      CommandPending(cfg, s.now, u, JobOf(s, v).event, s.workers[v].i, s.db, s.cache, JobOf(s, v).stage);
    }
  }

  /** Only one worker can acknowledge an entry, so whether it is forsaken hangs on that one. */
  lemma HangsOn(cfg: Config, s: State, step: Step, w: nat, i: nat)
    requires Inv(cfg, s) && Partitioned(s) && MayAck(cfg, s, w, i) && i in s.cache.pending
    ensures var t := Apply(cfg, s, step); Forsaken(cfg, t, i) <==> i in t.cache.pending && !MayAck(cfg, t, w, i)
    ensures forall v | MayAck(cfg, s, v, i) :: v == w
  {
    var t := Apply(cfg, s, step);
    Integrity.StepKeeps(cfg, s, step);
    forall v | v != w ensures !MayAck(cfg, s, v, i) && !MayAck(cfg, t, v, i) {
      if Ahead(s, w, i) {
        NotAheadNotAcked(cfg, s, v, i);
      } else {
        NotAheadNotAcked(cfg, s, w, i);
      }
      StillMayNot(cfg, s, step, v, i);
    }
  }

  lemma StillMayNot(cfg: Config, s: State, step: Step, v: nat, i: nat)
    requires Inv(cfg, s) && !MayAck(cfg, s, v, i) && i < s.cache.cursor && Grows(s.db, Apply(cfg, s, step).db)
    ensures !MayAck(cfg, Apply(cfg, s, step), v, i)
  {
    var t := Apply(cfg, s, step);
    if step.Work? {
      if step.w in s.workers && Backoff.IsDraw(step.u) {
        if step.w == v {
          WorkNot(cfg, s, v, step.fault, step.u, i);
        } else {
          OneWorkerMoves(cfg, s, step.w, step.fault, step.u);
          OthersNot(cfg, s, t, v, i);
        }
      }
    } else {
      OtherStepWorkers(cfg, s, step);
      OthersNot(cfg, s, t, v, i);
    }
  }

  lemma OthersKeepPending(cfg: Config, s: State, v: nat, fault: Fault, u: real, w: nat, i: nat)
    requires Inv(cfg, s) && Partitioned(s) && v in s.workers && v != w && i in s.cache.pending
    requires MayAck(cfg, s, w, i) && !MayAck(cfg, s, v, i)
    ensures i in DoWork(cfg, s, v, fault, u).cache.pending
  {
    WorkNot(cfg, s, v, fault, u, i);
  }

  lemma WorkForsakesExactly(cfg: Config, s: State, v: nat, fault: Fault, u: real, w: nat, i: nat)
    requires Inv(cfg, s) && Partitioned(s) && v in s.workers && Backoff.IsDraw(u)
    requires MayAck(cfg, s, w, i) && i in s.cache.pending
    ensures Forsaken(cfg, Apply(cfg, s, Work(v, fault, u)), i) <==> LeavesBehind(cfg, s, Work(v, fault, u), i)
  {
    HangsOn(cfg, s, Work(v, fault, u), w, i);
    if v == w {
      OwnGivesUpExactly(cfg, s, w, fault, u, i);
    } else {
      OthersKeepPending(cfg, s, v, fault, u, w, i);
      OthersDoomExactly(cfg, s, v, fault, u, w, i);
    }
  }

  lemma OtherStepForsakesExactly(cfg: Config, s: State, step: Step, w: nat, i: nat)
    requires Inv(cfg, s) && Partitioned(s) && !step.Work? && MayAck(cfg, s, w, i) && i in s.cache.pending
    ensures Forsaken(cfg, Apply(cfg, s, step), i) <==> LeavesBehind(cfg, s, step, i)
  {
    HangsOn(cfg, s, step, w, i);
    PendingKept(cfg, s, step);
    if step != Crash(w) {
      if IsWorking(s, w) { OtherStepRows(cfg, s, step, JobOf(s, w).event); }
      OtherStepKeepsWorker(cfg, s, step, w);
      SameWorkerMayAck(cfg, s, Apply(cfg, s, step), w, i);
    }
  }

  /** An entry that is not pending. */
  lemma FreshForsakesExactly(cfg: Config, s: State, step: Step, i: nat)
    requires Inv(cfg, s) && Partitioned(s) && i !in s.cache.pending
    ensures Forsaken(cfg, Apply(cfg, s, step), i) <==> LeavesBehind(cfg, s, step, i)
  {
    if !step.Work? {
      PendingKept(cfg, s, step);
    } else if step.w in s.workers && s.workers[step.w].Reading? {
      ReadForsakesExactly(cfg, s, step.w, step.fault, i);
    } else if step.w in s.workers {
      OnlyReadsDeliver(cfg, s, step.w, step.fault, step.u);
    }
  }

  /** In every state a run reaches, a step makes an entry one that is never acknowledged if and
      only if it is such a step. */
  lemma {:induction false} ForsakenExactly(cfg: Config, steps: seq<Step>, step: Step, i: nat)
    requires !Forsaken(cfg, Exec(cfg, steps), i)
    ensures Forsaken(cfg, Apply(cfg, Exec(cfg, steps), step), i) <==> LeavesBehind(cfg, Exec(cfg, steps), step, i)
  {
    var s := Exec(cfg, steps);
    Integrity.Always(cfg, steps);
    EachEntryOnce(cfg, steps);
    if i !in s.cache.pending {
      FreshForsakesExactly(cfg, s, step, i);
    } else {
      var w :| MayAck(cfg, s, w, i);
      if !step.Work? {
        OtherStepForsakesExactly(cfg, s, step, w, i);
      } else if step.w in s.workers && Backoff.IsDraw(step.u) {
        WorkForsakesExactly(cfg, s, step.w, step.fault, step.u, w, i);
      }
    }
  }

  lemma OtherStepKeepsWorker(cfg: Config, s: State, step: Step, w: nat)
    requires !step.Work? && step != Crash(w) && w in s.workers
    ensures w in Apply(cfg, s, step).workers && Apply(cfg, s, step).workers[w] == s.workers[w]
  {
    if step.Handle? && step.h in s.handlers {
      Booking.HandleLeavesOrders(cfg, s, step.h, step.id);
    }
  }
}
