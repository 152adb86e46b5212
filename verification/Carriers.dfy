/** Where an event is kept between its publication and its outcome: undelivered in the stream,
    in a worker's batch or hands, in the retry schedule, or with a poller.  One step without
    crashes and infrastructure errors outside the run keeps it there, or gives it its outcome,
    except in exactly two situations. */
module Carriers {
  import opened Domain
  import opened SortedSet
  import opened Tables
  import opened Pipeline
  import opened Integrity
  import opened Leases
  import Backoff

  // ---------- carriers ----------

  ghost predicate InRange(log: seq<nat>, lo: nat, hi: nat, e: nat) {
    exists k :: lo <= k < hi && k < |log| && log[k] == e
  }

  ghost predicate Undelivered(c: Cache, e: nat) { InRange(c.log, c.cursor, |c.log|, e) }

  /** The entries a worker still has to take, beyond the one in hand. */
  ghost predicate InBatch(log: seq<nat>, wk: Worker, e: nat) {
    match wk
    case Reading => false
    case Locking(i, end) => InRange(log, i + 1, end, e)
    case Skipping(i, end) => InRange(log, i + 1, end, e)
    case Working(i, end, _) => InRange(log, i + 1, end, e)
  }

  /** The event in a worker's hands, from its delivery until its run has returned or its
      retry or dead letter has been written. */
  ghost predicate InHand(log: seq<nat>, wk: Worker, e: nat) {
    match wk
    case Locking(i, end) => i < |log| && log[i] == e
    case Working(i, end, job) => job.event == e && !job.stage.Release?
    case _ => false
  }

  ghost predicate HeldBy(s: State, w: nat, e: nat) {
    w in s.workers && (InBatch(s.cache.log, s.workers[w], e) || InHand(s.cache.log, s.workers[w], e))
  }

  ghost predicate PolledBy(s: State, p: nat, e: nat) {
    p in s.pollers && match s.pollers[p] { case Removing(due) => e in due case Promoting(rest) => e in rest }
  }

  ghost predicate Queued(s: State, e: nat) {
    Undelivered(s.cache, e) || e in Members(s.cache.retry) || exists p :: PolledBy(s, p, e)
  }

  ghost predicate Carried(s: State, e: nat) {
    Queued(s, e) || exists w :: HeldBy(s, w, e)
  }

  /** The event has completed a run, or has a dead letter. */
  predicate HasOutcome(s: State, e: nat) { e in s.returned || e in s.db.deadLetters }

  ghost predicate NothingLost(s: State) {
    forall e | e in s.cache.log :: HasOutcome(s, e) || Carried(s, e)
  }

  // ---------- runs without crashes and infrastructure errors ----------

  /** Exceptions are allowed inside ReconciliationRunner.run, before or after any command. */
  predicate FaultFree(s: State, step: Step) {
    match step
    case Crash(_) => false
    case DropPoller(_) => false
    case Work(w, fault, _) => fault.NoFault? || (IsWorking(s, w) && InRun(JobOf(s, w).stage))
    case _ => true
  }

  ghost predicate Owner(s: State, w: nat, e: nat) {
    && IsWorking(s, w) && JobOf(s, w).event == e
    && e in s.cache.locks && JobOf(s, w).token == s.cache.locks[e].token
  }

  predicate OutcomeKept(s: State, job: Job) {
    match job.stage
    case AckReturned => job.event in s.returned
    case MarkBuried => job.event in s.db.deadLetters
    case Release(Returned) => job.event in s.returned
    case Release(Buried) => job.event in s.db.deadLetters
    case Release(Aborted) => job.event in s.db.deadLetters
    case _ => true
  }

  /** Every live lock has its worker, and every outcome has been recorded. */
  ghost predicate OwnersInv(s: State) {
    && (forall e | e in s.cache.locks && !LockFree(s.cache, e, s.now) :: exists w :: Owner(s, w, e))
    && (forall w | IsWorking(s, w) :: OutcomeKept(s, JobOf(s, w)))
  }

  // ---------- the two ways to lose an event ----------

  /** The lock of the event in hand is held by a worker that has written its retry and not
      yet released. */
  ghost predicate MissesBehindReschedule(s: State, w: nat, e: nat) {
    && w in s.workers && s.workers[w].Locking? && InHand(s.cache.log, s.workers[w], e)
    && !LockFree(s.cache, e, s.now)
    && !InBatch(s.cache.log, s.workers[w], e)
    && exists h :: Owner(s, h, e) && JobOf(s, h).stage == Release(Rescheduled)
  }

  /** The event waits in a batch whose worker leaves it after failing to bury another event
      a second time. */
  ghost predicate AbandonsBatch(s: State, w: nat, e: nat) {
    && IsWorking(s, w) && JobOf(s, w).stage == Release(Aborted) && JobOf(s, w).event in s.db.deadLetters
    && InBatch(s.cache.log, s.workers[w], e)
  }

  /** The step does one of these to the last carrier of an event still without outcome. */
  ghost predicate Loses(s: State, step: Step, e: nat) {
    && step.Work? && step.fault.NoFault? && Backoff.IsDraw(step.u)
    && (MissesBehindReschedule(s, step.w, e) || AbandonsBatch(s, step.w, e))
    && !HasOutcome(s, e) && !Queued(s, e)
    && forall v | v != step.w :: !HeldBy(s, v, e)
  }

  // ---------- the invariant ----------

  lemma OwnersSame(s: State, t: State)
    requires OwnersInv(s) && s.now <= t.now && t.cache.locks == s.cache.locks
    requires t.workers == s.workers && s.returned <= t.returned && s.db.deadLetters.Keys <= t.db.deadLetters.Keys
    ensures OwnersInv(t)
  {
    forall e | e in t.cache.locks && !LockFree(t.cache, e, t.now) ensures exists w :: Owner(t, w, e) {
      assert !LockFree(s.cache, e, s.now);
      var w :| Owner(s, w, e);
      assert Owner(t, w, e);
    }
    forall w | IsWorking(t, w) ensures OutcomeKept(t, JobOf(t, w)) {
      assert IsWorking(s, w);
    }
  }

  /** Worker `w` takes a step that leaves the locks alone and keeps its job, if it has one. */
  lemma OwnersMoved(s: State, t: State, w: nat)
    requires OwnersInv(s) && t.now == s.now && t.cache.locks == s.cache.locks
    requires s.returned <= t.returned && s.db.deadLetters.Keys <= t.db.deadLetters.Keys
    requires forall v | v != w && (IsWorking(s, v) || IsWorking(t, v)) ::
               IsWorking(s, v) && IsWorking(t, v) && JobOf(t, v) == JobOf(s, v)
    requires IsWorking(s, w) ==> IsWorking(t, w) && JobOf(t, w) == JobOf(s, w).(stage := JobOf(t, w).stage)
    requires IsWorking(t, w) ==> OutcomeKept(t, JobOf(t, w))
    ensures OwnersInv(t)
  {
    forall e | e in t.cache.locks && !LockFree(t.cache, e, t.now) ensures exists v :: Owner(t, v, e) {
      var v :| Owner(s, v, e);
      assert Owner(t, v, e);
    }
    forall v | IsWorking(t, v) ensures OutcomeKept(t, JobOf(t, v)) {
      if v != w {
        assert IsWorking(s, v) && OutcomeKept(s, JobOf(s, v));
      }
    }
  }

  lemma OwnersLock(cfg: Config, s: State, w: nat, i: nat, end: nat)
    requires OwnersInv(s) && w in s.workers && s.workers[w] == Locking(i, end)
    ensures OwnersInv(DoLock(cfg, s, w, i, end, NoFault))
  {
    var t := DoLock(cfg, s, w, i, end, NoFault);
    forall e | e in t.cache.locks && !LockFree(t.cache, e, t.now) ensures exists v :: Owner(t, v, e) {
      if t.cache.locks == s.cache.locks || e != s.cache.log[i] {
        var v :| Owner(s, v, e);
        assert Owner(t, v, e);
      } else {
        assert Owner(t, w, e);
      }
    }
    forall v | IsWorking(t, v) ensures OutcomeKept(t, JobOf(t, v)) {
      if v != w {
        assert IsWorking(s, v) && OutcomeKept(s, JobOf(s, v));
      }
    }
  }

  lemma OwnersRelease(s: State, w: nat, i: nat, end: nat, job: Job)
    requires OwnersInv(s) && LeaseInv(s) && w in s.workers && s.workers[w] == Working(i, end, job) && job.stage.Release?
    ensures OwnersInv(DoRelease(s, w, i, end, job, NoFault))
  {
    var t := DoRelease(s, w, i, end, job, NoFault);
    forall e | e in t.cache.locks && !LockFree(t.cache, e, t.now) ensures exists v :: Owner(t, v, e) {
      assert !LockFree(s.cache, e, s.now);
      var v :| Owner(s, v, e);
      assert v != w;
      assert Owner(t, v, e);
    }
    forall v | IsWorking(t, v) ensures OutcomeKept(t, JobOf(t, v)) {
      assert v != w && IsWorking(s, v) && OutcomeKept(s, JobOf(s, v));
    }
  }

  lemma OwnersCommand(cfg: Config, s: State, w: nat, i: nat, end: nat, job: Job, fault: Fault, u: real)
    requires OwnersInv(s) && w in s.workers && s.workers[w] == Working(i, end, job) && !job.stage.Release?
    requires Inv(cfg, s) && (fault.NoFault? || InRun(job.stage))
    ensures OwnersInv(DoCommand(cfg, s, w, i, end, job, fault, u))
  {
    var t := DoCommand(cfg, s, w, i, end, job, fault, u);
    assert IsWorking(s, w) && OutcomeKept(s, JobOf(s, w));
    assert WorkerOk(cfg, s.db, s.cache.log, s.workers[w]);
    HandleCommandQueue(cfg, s.now, u, job.event, i, s.db, s.cache, job.stage);
    DeadLettersOnlyGrow(cfg, s.now, u, job.event, i, s.db, s.cache, job.stage);
    CommandOutcome(cfg, s, t, w, i, end, job, fault, u);
    OwnersMoved(s, t, w);
  }

  lemma DeadLettersOnlyGrow(cfg: Config, now: nat, u: real, e: nat, i: nat, db: Db, cache: Cache, stage: Stage)
    requires !stage.Release?
    ensures var db' := HandleCommand(cfg, now, u, e, i, db, cache, stage).db;
            db.deadLetters.Keys <= db'.deadLetters.Keys
            && (stage.Bury? && e in db.events ==> e in db'.deadLetters)
  {}

  lemma CommandOutcome(cfg: Config, s: State, t: State, w: nat, i: nat, end: nat, job: Job, fault: Fault, u: real)
    requires OutcomeKept(s, job) && !job.stage.Release? && job.event in s.db.events
    requires fault.NoFault? || InRun(job.stage)
    requires t == DoCommand(cfg, s, w, i, end, job, fault, u)
    requires s.db.deadLetters.Keys <= t.db.deadLetters.Keys
    ensures OutcomeKept(t, JobOf(t, w))
  {}

  lemma OwnersWork(cfg: Config, s: State, w: nat, fault: Fault, u: real)
    requires OwnersInv(s) && LeaseInv(s) && Inv(cfg, s) && FaultFree(s, Work(w, fault, u)) && w in s.workers
    ensures OwnersInv(DoWork(cfg, s, w, fault, u))
  {
    match s.workers[w] {
      case Locking(i, end) => OwnersLock(cfg, s, w, i, end);
      case Working(i, end, job) =>
        if job.stage.Release? {
          OwnersRelease(s, w, i, end, job);
        } else {
          OwnersCommand(cfg, s, w, i, end, job, fault, u);
        }
      case _ => OwnersMoved(s, DoWork(cfg, s, w, fault, u), w);
    }
  }

  lemma UploadLeavesDead(db: Db, now: nat, up: Upload)
    ensures UploadCommand(db, now, up).0.deadLetters == db.deadLetters
  {}

  lemma HandleLeavesDead(cfg: Config, s: State, h: nat, id: nat)
    requires h in s.handlers
    ensures var t := DoHandle(cfg, s, h, id);
            && t.db.deadLetters == s.db.deadLetters && t.cache.locks == s.cache.locks && t.workers == s.workers
            && t.returned == s.returned && t.pollers == s.pollers && t.cache.retry == s.cache.retry
            && t.cache.cursor == s.cache.cursor && s.cache.log <= t.cache.log && t.now == s.now
  {
    match s.handlers[h] {
      case Upserting(p, order) =>
        var db' := UpsertPending(s.db, id, p, order);
        assert db'.deadLetters == s.db.deadLetters;
      case Marking(p) => assert DoHandle(cfg, s, h, id).db == s.db;
      case Resolving(p) => assert DoHandle(cfg, s, h, id).db == s.db;
      case Publishing(e) => assert DoHandle(cfg, s, h, id).db == s.db;
    }
  }

  /** What the steps of the other actors leave as it is. */
  lemma OthersLeave(cfg: Config, s: State, step: Step)
    requires !step.Work? && !step.Crash? && !step.StartWorker?
    ensures var t := Apply(cfg, s, step);
            && t.cache.locks == s.cache.locks && t.workers == s.workers && t.returned == s.returned
            && t.db.deadLetters == s.db.deadLetters && s.now <= t.now
            && t.cache.cursor == s.cache.cursor && s.cache.log <= t.cache.log
  {
    match step {
      case Handle(h, id) => if h in s.handlers { HandleLeavesDead(cfg, s, h, id); }
      case AdvanceUpload(n) => if n in s.uploads { UploadLeavesDead(s.db, s.now, s.uploads[n]); }
      case Promote(p) => if p in s.pollers { PromoteLeaves(s, p); }
      case _ =>
    }
  }

  lemma PromoteLeaves(s: State, p: nat)
    requires p in s.pollers
    ensures var t := DoPromote(s, p);
            && t == s.(cache := t.cache, pollers := t.pollers)
            && t.cache == s.cache.(retry := t.cache.retry, log := t.cache.log)
            && s.cache.log <= t.cache.log && |t.cache.log| <= |s.cache.log| + 1
  {
    match s.pollers[p] {
      case Removing(due) => assert DoPromote(s, p).cache == Unschedule(s.cache, due);
      case Promoting(rest) => assert rest != [] ==> DoPromote(s, p).cache == Publish(s.cache, rest[0]);
    }
  }

  lemma OwnersStep(cfg: Config, s: State, step: Step)
    requires OwnersInv(s) && LeaseInv(s) && Inv(cfg, s) && FaultFree(s, step)
    ensures OwnersInv(Apply(cfg, s, step))
  {
    match step {
      case Work(w, fault, u) => if w in s.workers { OwnersWork(cfg, s, w, fault, u); }
      case StartWorker(w) => if w !in s.workers { OwnersMoved(s, Apply(cfg, s, step), w); }
      case _ =>
        OthersLeave(cfg, s, step);
        OwnersSame(s, Apply(cfg, s, step));
    }
  }

  // ---------- what one step does to the carriers of an event ----------

  /** The range splits into its first entry and the rest. */
  lemma RangeSplit(log: seq<nat>, lo: nat, hi: nat, e: nat)
    requires lo < hi <= |log|
    ensures InRange(log, lo, hi, e) <==> log[lo] == e || InRange(log, lo + 1, hi, e)
  {
    if InRange(log, lo, hi, e) {
      var k :| lo <= k < hi && k < |log| && log[k] == e;
      assert k == lo || lo + 1 <= k;
    }
  }

  lemma NextEntryHolds(log: seq<nat>, i: nat, end: nat, e: nat)
    requires i < end <= |log|
    ensures InRange(log, i + 1, end, e) <==> InBatch(log, NextEntry(i, end), e) || InHand(log, NextEntry(i, end), e)
  {
    if i + 1 < end {
      RangeSplit(log, i + 1, end, e);
    }
  }

  /** Only worker `w` has moved, over the same log, and nothing has left the queues. */
  predicate OnlyWorker(s: State, t: State, w: nat) {
    && w in s.workers && w in t.workers && t.workers == s.workers[w := t.workers[w]]
    && t.cache.log == s.cache.log && t.cache.cursor == s.cache.cursor && t.pollers == s.pollers
    && Members(s.cache.retry) <= Members(t.cache.retry)
    && s.returned <= t.returned && s.db.deadLetters.Keys <= t.db.deadLetters.Keys
  }

  lemma OtherCarriers(s: State, t: State, w: nat, e: nat)
    requires OnlyWorker(s, t, w)
    ensures forall v | v != w :: HeldBy(t, v, e) <==> HeldBy(s, v, e)
    ensures Queued(s, e) ==> Queued(t, e)
    ensures t.cache.retry == s.cache.retry ==> (Queued(s, e) <==> Queued(t, e))
  {
    forall p ensures PolledBy(t, p, e) <==> PolledBy(s, p, e) {}
  }

  /** If the worker gives up nothing of the event, it stays carried. */
  lemma KeptCarried(s: State, t: State, w: nat, e: nat)
    requires OnlyWorker(s, t, w) && Carried(s, e) && (HeldBy(s, w, e) ==> Carried(t, e) || HasOutcome(t, e))
    ensures Carried(t, e) || HasOutcome(t, e)
  {
    OtherCarriers(s, t, w, e);
    if !Queued(s, e) {
      var v :| HeldBy(s, v, e);
      assert v != w ==> HeldBy(t, v, e);
    }
  }

  lemma ReadCarries(cfg: Config, s: State, w: nat, e: nat)
    requires Inv(cfg, s) && w in s.workers && s.workers[w].Reading? && Carried(s, e)
    ensures Carried(DoRead(cfg, s, w, NoFault), e)
  {
    var t := DoRead(cfg, s, w, NoFault);
    var lo := s.cache.cursor;
    var n := Available(s.cache, cfg.batchSize);
    forall v | HeldBy(s, v, e) ensures HeldBy(t, v, e) {}
    forall p | PolledBy(s, p, e) ensures PolledBy(t, p, e) {}
    if Undelivered(s.cache, e) {
      var k :| lo <= k < |s.cache.log| && s.cache.log[k] == e;
      if k < lo + n {
        assert InRange(s.cache.log, lo, lo + n, e);
        RangeSplit(s.cache.log, lo, lo + n, e);
        assert HeldBy(t, w, e);
      } else {
        assert Undelivered(t.cache, e);
      }
    }
  }

  lemma SkipCarries(cfg: Config, s: State, w: nat, i: nat, end: nat, e: nat)
    requires Inv(cfg, s) && w in s.workers && s.workers[w] == Skipping(i, end) && Carried(s, e)
    ensures Carried(DoSkip(s, w, i, end, NoFault), e) || HasOutcome(s, e)
  {
    var t := DoSkip(s, w, i, end, NoFault);
    assert WorkerOk(cfg, s.db, s.cache.log, s.workers[w]);
    NextEntryHolds(s.cache.log, i, end, e);
    if HeldBy(s, w, e) {
      assert HeldBy(t, w, e);
    }
    KeptCarried(s, t, w, e);
  }

  lemma CommandCarries(cfg: Config, s: State, w: nat, i: nat, end: nat, job: Job, fault: Fault, u: real, e: nat)
    requires Inv(cfg, s) && w in s.workers && s.workers[w] == Working(i, end, job) && !job.stage.Release?
    requires OwnersInv(s) && Carried(s, e) && (fault.NoFault? || InRun(job.stage))
    ensures var t := DoCommand(cfg, s, w, i, end, job, fault, u); Carried(t, e) || HasOutcome(t, e)
  {
    var t := DoCommand(cfg, s, w, i, end, job, fault, u);
    assert WorkerOk(cfg, s.db, s.cache.log, s.workers[w]) && IsWorking(s, w) && OutcomeKept(s, JobOf(s, w));
    HandleCommandQueue(cfg, s.now, u, job.event, i, s.db, s.cache, job.stage);
    DeadLettersOnlyGrow(cfg, s.now, u, job.event, i, s.db, s.cache, job.stage);
    if HeldBy(s, w, e) {
      if InBatch(s.cache.log, s.workers[w], e) {
        assert HeldBy(t, w, e);
      } else {
        assert job.event == e;
        HandOver(cfg, s, t, w, i, end, job, fault, u);
      }
    }
    KeptCarried(s, t, w, e);
  }

  /** The command that ends a handling has put the event into the retry schedule, or its
      outcome is on record. */
  lemma HandOver(cfg: Config, s: State, t: State, w: nat, i: nat, end: nat, job: Job, fault: Fault, u: real)
    requires w in s.workers && !job.stage.Release? && t == DoCommand(cfg, s, w, i, end, job, fault, u)
    requires OutcomeKept(s, job) && job.event in s.db.events && (fault.NoFault? || InRun(job.stage))
    requires s.db.deadLetters.Keys <= t.db.deadLetters.Keys && s.returned <= t.returned
    requires Members(HandleCommand(cfg, s.now, u, job.event, i, s.db, s.cache, job.stage).cache.retry)
             == Members(s.cache.retry) + (if job.stage.Reschedule? then {job.event} else {})
    ensures HeldBy(t, w, job.event) || job.event in Members(t.cache.retry) || HasOutcome(t, job.event)
  {
    if job.stage.Reschedule? {
      assert t.cache == HandleCommand(cfg, s.now, u, job.event, i, s.db, s.cache, job.stage).cache;
    }
  }

  // ---------- exactly when a step loses an event ----------

  lemma LockMoves(cfg: Config, s: State, w: nat, i: nat, end: nat)
    requires w in s.workers && s.workers[w] == Locking(i, end) && i < end <= |s.cache.log|
    ensures var t := DoLock(cfg, s, w, i, end, NoFault);
            && OnlyWorker(s, t, w) && t.returned == s.returned && t.db == s.db && t.cache.retry == s.cache.retry
            && (if LockFree(s.cache, s.cache.log[i], s.now)
                then t.workers[w].Working? && t.workers[w].i == i && t.workers[w].end == end
                     && t.workers[w].job.event == s.cache.log[i] && t.workers[w].job.stage.FindEvent?
                else t.workers[w] == Skipping(i, end))
  {}

  lemma TakenLockCarries(cfg: Config, s: State, t: State, w: nat, e: nat)
    requires OnlyWorker(s, t, w) && Carried(s, e) && (HeldBy(s, w, e) ==> HeldBy(t, w, e))
    ensures Carried(t, e)
  {
    OtherCarriers(s, t, w, e);
    if !Queued(s, e) {
      var v :| HeldBy(s, v, e);
      assert HeldBy(t, v, e);
    }
  }

  /** The event whose lock is taken is carried on, unless by its holder's reschedule alone. */
  lemma MissLosesExactly(cfg: Config, s: State, w: nat, i: nat, end: nat, u: real, e: nat)
    requires OwnersInv(s) && w in s.workers && s.workers[w] == Locking(i, end) && i < end <= |s.cache.log|
    requires Carried(s, e) && !HasOutcome(s, e) && Backoff.IsDraw(u) && s.cache.log[i] == e
    requires !LockFree(s.cache, e, s.now)
    ensures Carried(DoLock(cfg, s, w, i, end, NoFault), e) <==> !Loses(s, Work(w, NoFault, u), e)
  {
    var t := DoLock(cfg, s, w, i, end, NoFault);
    LockMoves(cfg, s, w, i, end);
    OtherCarriers(s, t, w, e);
    MissFindsOwner(cfg, s, w, e);
    assert HeldBy(t, w, e) <==> InBatch(s.cache.log, s.workers[w], e);
  }

  lemma LockLosesExactly(cfg: Config, s: State, w: nat, i: nat, end: nat, u: real, e: nat)
    requires Inv(cfg, s) && OwnersInv(s) && w in s.workers && s.workers[w] == Locking(i, end)
    requires Carried(s, e) && !HasOutcome(s, e) && Backoff.IsDraw(u)
    ensures Carried(DoLock(cfg, s, w, i, end, NoFault), e) <==> !Loses(s, Work(w, NoFault, u), e)
  {
    assert WorkerOk(cfg, s.db, s.cache.log, s.workers[w]);
    if LockFree(s.cache, s.cache.log[i], s.now) || s.cache.log[i] != e {
      LockMoves(cfg, s, w, i, end);
      TakenLockCarries(cfg, s, DoLock(cfg, s, w, i, end, NoFault), w, e);
    } else {
      MissLosesExactly(cfg, s, w, i, end, u, e);
    }
  }

  /** Behind a live lock there is a worker that still carries the event, unless it has
      already handed it to the retry schedule. */
  lemma MissFindsOwner(cfg: Config, s: State, w: nat, e: nat)
    requires OwnersInv(s) && w in s.workers && s.workers[w].Locking? && e in s.cache.locks
        && !LockFree(s.cache, e, s.now)
    requires !HasOutcome(s, e)
    ensures (exists h :: h != w && HeldBy(s, h, e))
            || exists h :: Owner(s, h, e) && JobOf(s, h).stage == Release(Rescheduled)
  {
    var h :| Owner(s, h, e);
    assert OutcomeKept(s, JobOf(s, h));
    if !JobOf(s, h).stage.Release? {
      assert InHand(s.cache.log, s.workers[h], e) && HeldBy(s, h, e);
    }
  }

  lemma AbortLosesExactly(cfg: Config, s: State, w: nat, i: nat, end: nat, job: Job, u: real, e: nat)
    requires OwnersInv(s) && w in s.workers && s.workers[w] == Working(i, end, job) && job.stage == Release(Aborted)
    requires Carried(s, e) && !HasOutcome(s, e) && Backoff.IsDraw(u)
    ensures Carried(DoRelease(s, w, i, end, job, NoFault), e) <==> !Loses(s, Work(w, NoFault, u), e)
  {
    var t := DoRelease(s, w, i, end, job, NoFault);
    assert IsWorking(s, w) && OutcomeKept(s, JobOf(s, w));
    OtherCarriers(s, t, w, e);
    assert !HeldBy(t, w, e);
  }

  lemma ReleaseLosesExactly(cfg: Config, s: State, w: nat, i: nat, end: nat, job: Job, u: real, e: nat)
    requires Inv(cfg, s) && OwnersInv(s) && w in s.workers && s.workers[w] == Working(i, end, job) && job.stage.Release?
    requires Carried(s, e) && !HasOutcome(s, e) && Backoff.IsDraw(u)
    ensures Carried(DoRelease(s, w, i, end, job, NoFault), e) <==> !Loses(s, Work(w, NoFault, u), e)
  {
    var t := DoRelease(s, w, i, end, job, NoFault);
    assert WorkerOk(cfg, s.db, s.cache.log, s.workers[w]);
    if job.stage.outcome.Aborted? {
      AbortLosesExactly(cfg, s, w, i, end, job, u, e);
    } else {
      NextEntryHolds(s.cache.log, i, end, e);
      assert HeldBy(s, w, e) ==> HeldBy(t, w, e);
      KeptCarried(s, t, w, e);
    }
  }

  lemma WorkLosesExactly(cfg: Config, s: State, w: nat, fault: Fault, u: real, e: nat)
    requires Inv(cfg, s) && OwnersInv(s) && FaultFree(s, Work(w, fault, u)) && w in s.workers && Backoff.IsDraw(u)
    requires Carried(s, e) && !HasOutcome(s, e)
    ensures var t := DoWork(cfg, s, w, fault, u); Carried(t, e) || HasOutcome(t, e) <==> !Loses(s, Work(w, fault, u), e)
  {
    match s.workers[w] {
      case Reading => ReadCarries(cfg, s, w, e);
      case Locking(i, end) => LockLosesExactly(cfg, s, w, i, end, u, e);
      case Skipping(i, end) => SkipCarries(cfg, s, w, i, end, e);
      case Working(i, end, job) =>
        if job.stage.Release? {
          ReleaseLosesExactly(cfg, s, w, i, end, job, u, e);
        } else {
          CommandCarries(cfg, s, w, i, end, job, fault, u, e);
        }
    }
  }

  lemma PromoteCarries(s: State, p: nat, e: nat)
    requires p in s.pollers && QueueOk(s) && Carried(s, e)
    ensures Carried(DoPromote(s, p), e)
  {
    var t := DoPromote(s, p);
    forall q | q != p && PolledBy(s, q, e) ensures PolledBy(t, q, e) {}
    match s.pollers[p] {
      case Removing(due) =>
        WithoutContents(s.cache.retry, Ids(due));
        if e in due {
          assert PolledBy(t, p, e);
        }
      case Promoting(rest) =>
        if rest != [] {
          assert rest == [rest[0]] + rest[1..];
          if e == rest[0] {
            assert t.cache.log[|s.cache.log|] == e;
          } else if PolledBy(s, p, e) {
            assert PolledBy(t, p, e);
          }
        }
        if Undelivered(s.cache, e) {
          LogGrowsCarries(s, t, e);
        }
    }
    forall w | HeldBy(s, w, e) ensures HeldBy(t, w, e) {
      WorkerGrows(s, t, w, e);
    }
  }

  lemma LogGrowsCarries(s: State, t: State, e: nat)
    requires s.cache.log <= t.cache.log && t.cache.cursor == s.cache.cursor && Undelivered(s.cache, e)
    ensures Undelivered(t.cache, e)
  {
    var k :| s.cache.cursor <= k < |s.cache.log| && s.cache.log[k] == e;
    assert t.cache.log[k] == e;
  }

  lemma WorkerGrows(s: State, t: State, w: nat, e: nat)
    requires s.cache.log <= t.cache.log && t.workers == s.workers && HeldBy(s, w, e)
    ensures HeldBy(t, w, e)
  {
    if InBatch(s.cache.log, s.workers[w], e) {
      var end := s.workers[w].end;
      var lo := s.workers[w].i + 1;
      var k :| lo <= k < end && k < |s.cache.log| && s.cache.log[k] == e;
      assert t.cache.log[k] == e;
    }
  }

  lemma OtherStepCarries(cfg: Config, s: State, step: Step, e: nat)
    requires Inv(cfg, s) && FaultFree(s, step) && !step.Work? && Carried(s, e)
    ensures Carried(Apply(cfg, s, step), e)
  {
    var t := Apply(cfg, s, step);
    if step.Promote? {
      if step.p in s.pollers { PromoteCarries(s, step.p, e); }
    } else if step.StartWorker? {
      forall v | HeldBy(s, v, e) ensures HeldBy(t, v, e) {}
      forall p | PolledBy(s, p, e) ensures PolledBy(t, p, e) {}
    } else {
      OthersLeave(cfg, s, step);
      RetryKept(cfg, s, step);
      StillCarried(s, t, e);
    }
  }

  lemma StillCarried(s: State, t: State, e: nat)
    requires Carried(s, e) && t.workers == s.workers && t.cache.retry == s.cache.retry
    requires s.cache.log <= t.cache.log && t.cache.cursor == s.cache.cursor
    requires forall p | p in s.pollers :: p in t.pollers && t.pollers[p] == s.pollers[p]
    ensures Carried(t, e)
  {
    forall v | HeldBy(s, v, e) ensures HeldBy(t, v, e) {
      WorkerGrows(s, t, v, e);
    }
    forall p | PolledBy(s, p, e) ensures PolledBy(t, p, e) {}
    if Undelivered(s.cache, e) {
      LogGrowsCarries(s, t, e);
    }
  }

  lemma RetryKept(cfg: Config, s: State, step: Step)
    requires FaultFree(s, step) && !step.Work? && !step.StartWorker? && !step.Promote?
    ensures var t := Apply(cfg, s, step);
            && t.cache.retry == s.cache.retry
            && forall p | p in s.pollers :: p in t.pollers && t.pollers[p] == s.pollers[p]
  {
    match step {
      case Handle(h, id) => if h in s.handlers { HandleLeavesDead(cfg, s, h, id); }
      case _ =>
    }
  }

  /** An event that is still carried and without outcome stays so, or gets its outcome,
      except in exactly the steps that lose it. */
  lemma StepLosesExactly(cfg: Config, s: State, step: Step, e: nat)
    requires Inv(cfg, s) && OwnersInv(s) && FaultFree(s, step) && Carried(s, e) && !HasOutcome(s, e)
    ensures var t := Apply(cfg, s, step); Carried(t, e) || HasOutcome(t, e) <==> !Loses(s, step, e)
  {
    if step.Work? && step.w in s.workers && Backoff.IsDraw(step.u) {
      WorkLosesExactly(cfg, s, step.w, step.fault, step.u, e);
    } else if !step.Work? {
      OtherStepCarries(cfg, s, step, e);
    }
  }

  lemma WorkReturns(cfg: Config, s: State, w: nat, fault: Fault, u: real)
    requires w in s.workers
    ensures s.returned <= DoWork(cfg, s, w, fault, u).returned
  {}

  lemma OutcomeStays(cfg: Config, s: State, step: Step, e: nat)
    requires Inv(cfg, s) && HasOutcome(s, e)
    ensures HasOutcome(Apply(cfg, s, step), e)
  {
    Integrity.StepKeeps(cfg, s, step);
    if step.Work? {
      if step.w in s.workers { WorkReturns(cfg, s, step.w, step.fault, step.u); }
    } else if !step.Crash? && !step.StartWorker? {
      OthersLeave(cfg, s, step);
    }
  }

  /** A message enters the log undelivered. */
  lemma PublishedIsCarried(cfg: Config, s: State, step: Step, e: nat)
    requires Inv(cfg, s) && e in Apply(cfg, s, step).cache.log && e !in s.cache.log
    ensures Carried(Apply(cfg, s, step), e)
  {
    var t := Apply(cfg, s, step);
    LogByOne(cfg, s, step);
    var k :| 0 <= k < |t.cache.log| && t.cache.log[k] == e;
    assert k == |s.cache.log|;
    assert Undelivered(t.cache, e);
  }

  lemma LogByOne(cfg: Config, s: State, step: Step)
    ensures var c := Apply(cfg, s, step).cache;
            && s.cache.log <= c.log && |c.log| <= |s.cache.log| + 1
            && (c.log == s.cache.log || c.cursor == s.cache.cursor)
  {
    match step {
      case Work(w, fault, u) =>
        if IsWorking(s, w) && !JobOf(s, w).stage.Release? {
          var job := JobOf(s, w);
          HandleCommandQueue(cfg, s.now, u, job.event, s.workers[w].i, s.db, s.cache, job.stage);
        }
      case Promote(p) => if p in s.pollers { PromoteLeaves(s, p); }
      case _ =>
    }
  }
}
