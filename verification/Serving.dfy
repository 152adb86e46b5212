/** What one call of the services does: the same commands as the steps of one actor left to
    itself, with any pattern of exceptions.  A batch served, one entry of it, and a turn of the
    loop are each a run of their worker's steps in the pipeline; an accepted webhook is a run of
    its handler's. */
module Serving {
  import opened Domain
  import opened SortedSet
  import opened Tables
  import opened Pipeline
  import Backoff

  function Rank(stage: Stage): nat {
    match stage
    case FindEvent => 14
    case FindOrder(_) => 13
    case Attach(_, _) => 12
    case WriteMismatches(_, _, _) => 11
    case SetStatus(_, _, _, _) => 10
    case Commit(_, _, _, _) => 9
    case Mark(_) => 9
    case AckReturned => 8
    case Increment => 7
    case AckFailed(_) => 6
    case Bury(_) => 5
    case MarkBuried => 4
    case MarkFailedState(_) => 5
    case Reschedule(_) => 4
    case Release(_) => 0
  }

  datatype Ran = Ran(db: Db, stage: Stage, calls: nat)

  /** The run, to its return or its first exception. */
  function RunFor(cfg: Config, now: nat, e: nat, db: Db, stage: Stage, fault: nat -> Fault, k: nat): (r: Ran)
    ensures !InRun(r.stage) && k <= r.calls
    decreases Rank(stage)
  {
    if !InRun(stage) then Ran(db, stage, k)
    else
      var (db', stage') := RunCommand(cfg, now, e, db, stage);
      match fault(k)
      case NoFault => RunFor(cfg, now, e, db', stage', fault, k + 1)
      case Before => Ran(db, Increment, k + 1)
      case After => Ran(db', Increment, k + 1)
  }

  datatype Handling = Handling(db: Db, cache: Cache, outcome: Outcome, calls: nat)

  /** Everything from a stage on, to the release. */
  function Advance(cfg: Config, now: nat, u: real, e: nat, i: nat, db: Db, cache: Cache, stage: Stage,
      fault: nat -> Fault, k: nat): (r: Handling)
    ensures k <= r.calls && r.cache.log == cache.log
    decreases Rank(stage)
  {
    if stage.Release? then Handling(db, cache, stage.outcome, k)
    else
      var reply := HandleCommand(cfg, now, u, e, i, db, cache, stage);
      match fault(k)
      case NoFault => Advance(cfg, now, u, e, i, reply.db, reply.cache, reply.stage, fault, k + 1)
      case Before => Advance(cfg, now, u, e, i, db, cache, OnThrow(stage), fault, k + 1)
      case After => Advance(cfg, now, u, e, i, reply.db, reply.cache, OnThrow(stage), fault, k + 1)
  }

  /** `onward` says whether the worker goes on with its batch. */
  datatype Served = Served(db: Db, cache: Cache, onward: bool, calls: nat)

  /** From the run to the release. */
  function Hold(cfg: Config, now: nat, u: real, e: nat, i: nat, token: nat, db: Db, cache: Cache, fault: nat -> Fault,
      k: nat): Served {
    var h := Advance(cfg, now, u, e, i, db, cache, FindEvent, fault, k);
    Served(h.db, if fault(h.calls).Before? then h.cache else ReleaseLock(h.cache, e, token, now),
           fault(h.calls).NoFault? && !h.outcome.Aborted?, h.calls + 1)
  }

  function Serve(cfg: Config, now: nat, u: real, i: nat, db: Db, cache: Cache, fault: nat -> Fault, k: nat): Served
    requires i < |cache.log|
  {
    var e := cache.log[i];
    var locked := SetLock(cache, e, now, cfg.lockTtl);
    match fault(k)
    case Before => Served(db, cache, false, k + 1)
    case After => Served(db, locked, false, k + 1)
    case NoFault =>
      if LockFree(cache, e, now) then Hold(cfg, now, u, e, i, cache.nextToken, db, locked, fault, k + 1)
      else
        Served(db, if fault(k + 1).Before? then locked else Ack(locked, i), fault(k + 1).NoFault?, k + 2)
  }

  datatype Batched = Batched(db: Db, cache: Cache, calls: nat)

  /** The entries of a batch one after another. */
  function ServeBatch(cfg: Config, now: nat, u: real, i: nat, end: nat, db: Db, cache: Cache, fault: nat -> Fault,
      k: nat): Batched
    decreases end - i
  {
    if i >= end || i >= |cache.log| then Batched(db, cache, k)
    else
      var r := Serve(cfg, now, u, i, db, cache, fault, k);
      if r.onward then ServeBatch(cfg, now, u, i + 1, end, r.db, r.cache, fault, r.calls)
      else Batched(r.db, r.cache, r.calls)
  }

  lemma ServeBatchNext(cfg: Config, now: nat, u: real, i: nat, end: nat, db: Db, cache: Cache, fault: nat -> Fault,
      k: nat, r: Served)
    requires i < end && i < |cache.log| && r == Serve(cfg, now, u, i, db, cache, fault, k)
    ensures ServeBatch(cfg, now, u, i, end, db, cache, fault, k)
            == if r.onward then ServeBatch(cfg, now, u, i + 1, end, r.db, r.cache, fault, r.calls)
               else Batched(r.db, r.cache, r.calls)
  {}

  lemma ServeThrows(cfg: Config, now: nat, u: real, i: nat, db: Db, cache: Cache, fault: nat -> Fault, k: nat)
    requires i < |cache.log| && !fault(k).NoFault?
    ensures var after := if fault(k).Before? then cache else SetLock(cache, cache.log[i], now, cfg.lockTtl);
            Serve(cfg, now, u, i, db, cache, fault, k) == Served(db, after, false, k + 1)
  {}

  lemma ServeSkips(cfg: Config, now: nat, u: real, i: nat, db: Db, cache: Cache, fault: nat -> Fault, k: nat)
    requires i < |cache.log| && fault(k).NoFault? && !LockFree(cache, cache.log[i], now)
    ensures var locked := SetLock(cache, cache.log[i], now, cfg.lockTtl);
            Serve(cfg, now, u, i, db, cache, fault, k)
            == Served(db, if fault(k + 1).Before? then locked else Ack(locked, i), fault(k + 1).NoFault?, k + 2)
  {}

  lemma ServeHolds(cfg: Config, now: nat, u: real, i: nat, db: Db, cache: Cache, fault: nat -> Fault, k: nat, r: Served)
    requires i < |cache.log| && fault(k).NoFault? && LockFree(cache, cache.log[i], now)
    requires var locked := SetLock(cache, cache.log[i], now, cfg.lockTtl);
             r == Hold(cfg, now, u, cache.log[i], i, cache.nextToken, db, locked, fault, k + 1)
    ensures Serve(cfg, now, u, i, db, cache, fault, k) == r
  {}

  /** A run that returned is over once acknowledged; an acknowledgement that throws is a failure. */
  lemma AfterReturn(cfg: Config, now: nat, u: real, e: nat, i: nat, db: Db, cache: Cache, fault: nat -> Fault, k: nat)
    ensures var h := Advance(cfg, now, u, e, i, db, cache, AckReturned, fault, k);
            var acked := if fault(k).Before? then cache else Ack(cache, i);
            h == if fault(k).NoFault? then Handling(db, acked, Returned, k + 1)
                 else Advance(cfg, now, u, e, i, db, acked, Increment, fault, k + 1)
  {}

  lemma RunCommandDone(cfg: Config, now: nat, u: real, e: nat, i: nat, db: Db, cache: Cache, stage: Stage,
      fault: nat -> Fault, k: nat)
    requires InRun(stage) && fault(k).NoFault?
    ensures var (db', stage') := RunCommand(cfg, now, e, db, stage);
            && Rank(stage') < Rank(stage)
            && Advance(cfg, now, u, e, i, db, cache, stage, fault, k)
               == Advance(cfg, now, u, e, i, db', cache, stage', fault, k + 1)
            && RunFor(cfg, now, e, db, stage, fault, k) == RunFor(cfg, now, e, db', stage', fault, k + 1)
  {}

  lemma RunCommandThrows(cfg: Config, now: nat, u: real, e: nat, i: nat, db: Db, cache: Cache, stage: Stage,
      fault: nat -> Fault, k: nat)
    requires InRun(stage) && !fault(k).NoFault?
    ensures var r := RunFor(cfg, now, e, db, stage, fault, k);
            && r.stage.Increment?
            && Advance(cfg, now, u, e, i, db, cache, stage, fault, k)
               == Advance(cfg, now, u, e, i, r.db, cache, Increment, fault, r.calls)
  {}

  /** The run comes first, and the rest takes up where it ended. */
  lemma {:induction false} RunThenRest(cfg: Config, now: nat, u: real, e: nat, i: nat, db: Db, cache: Cache,
      stage: Stage, fault: nat -> Fault, k: nat, r: Ran, h: Handling)
    requires r == RunFor(cfg, now, e, db, stage, fault, k)
    requires h == Advance(cfg, now, u, e, i, db, cache, stage, fault, k)
    ensures h == Advance(cfg, now, u, e, i, r.db, cache, r.stage, fault, r.calls)
    decreases Rank(stage)
  {
    if InRun(stage) {
      if fault(k).NoFault? {
        RunCommandDone(cfg, now, u, e, i, db, cache, stage, fault, k);
        var (db', stage') := RunCommand(cfg, now, e, db, stage);
        RunThenRest(cfg, now, u, e, i, db', cache, stage', fault, k + 1, r, h);
      } else {
        RunCommandThrows(cfg, now, u, e, i, db, cache, stage, fault, k);
      }
    }
  }

  // ---------- as steps of the pipeline ----------

  /** The state after the worker's commands from `k` up to `n`. */
  function Worked(cfg: Config, s: State, w: nat, u: real, fault: nat -> Fault, k: nat, n: nat): State
    decreases n - k
  {
    if n <= k then s else Worked(cfg, Apply(cfg, s, Work(w, fault(k), u)), w, u, fault, k + 1, n)
  }

  lemma {:induction false} WorkedMore(cfg: Config, s: State, w: nat, u: real, fault: nat -> Fault, k: nat, n: nat)
    requires k <= n
    ensures Worked(cfg, s, w, u, fault, k, n + 1)
            == Apply(cfg, Worked(cfg, s, w, u, fault, k, n), Work(w, fault(n), u))
    decreases n - k
  {
    if k < n { WorkedMore(cfg, Apply(cfg, s, Work(w, fault(k), u)), w, u, fault, k + 1, n); }
  }

  /** From `s` to `t` only the stores and worker `w` have changed, and what has returned. */
  ghost predicate Left(s: State, t: State, w: nat, db: Db, cache: Cache, wk: Worker) {
    t == s.(db := db, cache := cache, workers := s.workers[w := wk], returned := t.returned)
  }

  lemma LeftThenLeft(s: State, t: State, r: State, w: nat, wk: Worker)
    requires w in t.workers && Left(s, t, w, t.db, t.cache, t.workers[w]) && Left(t, r, w, r.db, r.cache, wk)
    ensures Left(s, r, w, r.db, r.cache, wk)
  {
    assert t.workers[w := wk] == s.workers[w := wk];
  }

  lemma CommandStep(cfg: Config, s: State, w: nat, u: real, i: nat, end: nat, job: Job, f: Fault)
    requires w in s.workers && s.workers[w] == Working(i, end, job) && Backoff.IsDraw(u) && !job.stage.Release?
    ensures var t := Apply(cfg, s, Work(w, f, u));
            var reply := HandleCommand(cfg, s.now, u, job.event, i, s.db, s.cache, job.stage);
            Left(s, t, w, if f.Before? then s.db else reply.db, if f.Before? then s.cache else reply.cache,
                 Working(i, end, job.(stage := if f.NoFault? then reply.stage else OnThrow(job.stage))))
  {}

  lemma {:induction false} AdvanceIsWork(cfg: Config, s: State, w: nat, u: real, i: nat, end: nat, job: Job,
      fault: nat -> Fault, k: nat, h: Handling)
    requires w in s.workers && s.workers[w] == Working(i, end, job) && Backoff.IsDraw(u)
    requires h == Advance(cfg, s.now, u, job.event, i, s.db, s.cache, job.stage, fault, k)
    ensures Left(s, Worked(cfg, s, w, u, fault, k, h.calls), w, h.db, h.cache,
                 Working(i, end, job.(stage := Release(h.outcome))))
    decreases Rank(job.stage)
  {
    if job.stage.Release? {
      assert s.workers[w := s.workers[w]] == s.workers;
    } else {
      var t := Apply(cfg, s, Work(w, fault(k), u));
      CommandStep(cfg, s, w, u, i, end, job, fault(k));
      StageFalls(cfg, s.now, u, job.event, i, s.db, s.cache, job.stage);
      var job' := t.workers[w].job;
      AdvanceIsWork(cfg, t, w, u, i, end, job', fault, k + 1, h);
      LeftThenLeft(s, t, Worked(cfg, t, w, u, fault, k + 1, h.calls), w,
                   Working(i, end, job'.(stage := Release(h.outcome))));
    }
  }

  lemma StageFalls(cfg: Config, now: nat, u: real, e: nat, i: nat, db: Db, cache: Cache, stage: Stage)
    requires !stage.Release?
    ensures Rank(HandleCommand(cfg, now, u, e, i, db, cache, stage).stage) < Rank(stage)
    ensures Rank(OnThrow(stage)) < Rank(stage)
  {}

  lemma ReleaseStep(cfg: Config, s: State, w: nat, u: real, i: nat, end: nat, job: Job, f: Fault)
    requires w in s.workers && s.workers[w] == Working(i, end, job) && Backoff.IsDraw(u) && job.stage.Release?
    ensures Left(s, Apply(cfg, s, Work(w, f, u)), w, s.db,
                 if f.Before? then s.cache else ReleaseLock(s.cache, job.event, job.token, s.now),
                 if f.NoFault? && !job.stage.outcome.Aborted? then NextEntry(i, end) else Reading)
  {}

  lemma LockStep(cfg: Config, s: State, w: nat, u: real, i: nat, end: nat, f: Fault)
    requires w in s.workers && s.workers[w] == Locking(i, end) && i < |s.cache.log| && Backoff.IsDraw(u)
    ensures var e := s.cache.log[i];
            Left(s, Apply(cfg, s, Work(w, f, u)), w, s.db,
                 if f.Before? then s.cache else SetLock(s.cache, e, s.now, cfg.lockTtl),
                 if !f.NoFault? then Reading
                 else if LockFree(s.cache, e, s.now)
                 then Working(i, end, Job(e, s.cache.nextToken, s.now + cfg.lockTtl, FindEvent))
                 else Skipping(i, end))
  {}

  lemma SkipStep(cfg: Config, s: State, w: nat, u: real, i: nat, end: nat, f: Fault)
    requires w in s.workers && s.workers[w] == Skipping(i, end) && Backoff.IsDraw(u)
    ensures Left(s, Apply(cfg, s, Work(w, f, u)), w, s.db, if f.Before? then s.cache else Ack(s.cache, i),
                 if f.NoFault? then NextEntry(i, end) else Reading)
  {}

  /** From the run to the release. */
  lemma HoldIsWork(cfg: Config, t: State, w: nat, u: real, i: nat, end: nat, job: Job, fault: nat -> Fault, k: nat,
      h: Handling)
    requires w in t.workers && t.workers[w] == Working(i, end, job) && Backoff.IsDraw(u) && k <= h.calls
    requires Left(t, Worked(cfg, t, w, u, fault, k, h.calls), w, h.db, h.cache,
                  Working(i, end, job.(stage := Release(h.outcome))))
    ensures var f := fault(h.calls);
            Left(t, Worked(cfg, t, w, u, fault, k, h.calls + 1), w, h.db,
                 if f.Before? then h.cache else ReleaseLock(h.cache, job.event, job.token, t.now),
                 if f.NoFault? && !h.outcome.Aborted? then NextEntry(i, end) else Reading)
  {
    var r := Worked(cfg, t, w, u, fault, k, h.calls);
    WorkedMore(cfg, t, w, u, fault, k, h.calls);
    ReleaseStep(cfg, r, w, u, i, end, job.(stage := Release(h.outcome)), fault(h.calls));
    var last := Apply(cfg, r, Work(w, fault(h.calls), u));
    LeftThenLeft(t, r, last, w, last.workers[w]);
  }

  /** What a worker at an entry has become, when it was served as `r` says. */
  ghost predicate ServedAs(cfg: Config, s: State, w: nat, u: real, i: nat, end: nat, fault: nat -> Fault, k: nat,
      r: Served) {
    k <= r.calls
    && Left(s, Worked(cfg, s, w, u, fault, k, r.calls), w, r.db, r.cache,
            if r.onward then NextEntry(i, end) else Reading)
  }

  lemma SkippedEntry(cfg: Config, s: State, t: State, w: nat, u: real, i: nat, end: nat, fault: nat -> Fault, k: nat)
    requires w in t.workers && t.workers[w] == Skipping(i, end) && Left(s, t, w, s.db, t.cache, Skipping(i, end))
    requires t == Apply(cfg, s, Work(w, fault(k), u)) && Backoff.IsDraw(u)
    ensures ServedAs(cfg, s, w, u, i, end, fault, k,
                     Served(s.db, if fault(k + 1).Before? then t.cache else Ack(t.cache, i),
                            fault(k + 1).NoFault?, k + 2))
  {
    SkipStep(cfg, t, w, u, i, end, fault(k + 1));
    WorkedMore(cfg, t, w, u, fault, k + 1, k + 1);
    var last := Worked(cfg, t, w, u, fault, k + 1, k + 2);
    LeftThenLeft(s, t, last, w, last.workers[w]);
  }

  /** The step that takes the lock, and then the steps of the holder. */
  lemma HeldEntry(cfg: Config, s: State, t: State, last: State, w: nat, u: real, i: nat, end: nat,
      fault: nat -> Fault, k: nat, r: Served)
    requires t == Apply(cfg, s, Work(w, fault(k), u)) && w in t.workers && Left(s, t, w, t.db, t.cache, t.workers[w])
    requires k < r.calls && last == Worked(cfg, t, w, u, fault, k + 1, r.calls)
    requires Left(t, last, w, r.db, r.cache, if r.onward then NextEntry(i, end) else Reading)
    ensures ServedAs(cfg, s, w, u, i, end, fault, k, r)
  {
    FirstWorked(cfg, s, w, u, fault, k, r.calls);
    LeftThenLeft(s, t, last, w, last.workers[w]);
  }

  lemma FirstWorked(cfg: Config, s: State, w: nat, u: real, fault: nat -> Fault, k: nat, n: nat)
    requires k < n
    ensures Worked(cfg, s, w, u, fault, k, n) == Worked(cfg, Apply(cfg, s, Work(w, fault(k), u)), w, u, fault, k + 1, n)
  {}

  /** Serving an entry is a run of its worker's steps, from taking the lock to the next entry
      or the next read. */
  lemma {:induction false} ServeIsWork(cfg: Config, s: State, w: nat, u: real, i: nat, end: nat, fault: nat -> Fault,
      k: nat)
    requires w in s.workers && s.workers[w] == Locking(i, end) && i < |s.cache.log| && Backoff.IsDraw(u)
    ensures ServedAs(cfg, s, w, u, i, end, fault, k, Serve(cfg, s.now, u, i, s.db, s.cache, fault, k))
  {
    if !fault(k).NoFault? {
      ThrownEntry(cfg, s, w, u, i, end, fault, k);
      ServeThrows(cfg, s.now, u, i, s.db, s.cache, fault, k);
    } else if LockFree(s.cache, s.cache.log[i], s.now) {
      LockedEntry(cfg, s, w, u, i, end, fault, k);
    } else {
      LockStep(cfg, s, w, u, i, end, fault(k));
      SkippedEntry(cfg, s, Apply(cfg, s, Work(w, fault(k), u)), w, u, i, end, fault, k);
      ServeSkips(cfg, s.now, u, i, s.db, s.cache, fault, k);
    }
  }

  lemma ThrownEntry(cfg: Config, s: State, w: nat, u: real, i: nat, end: nat, fault: nat -> Fault, k: nat)
    requires w in s.workers && s.workers[w] == Locking(i, end) && i < |s.cache.log| && Backoff.IsDraw(u)
    requires !fault(k).NoFault?
    ensures var locked := SetLock(s.cache, s.cache.log[i], s.now, cfg.lockTtl);
            ServedAs(cfg, s, w, u, i, end, fault, k,
                     Served(s.db, if fault(k).Before? then s.cache else locked, false, k + 1))
  {
    LockStep(cfg, s, w, u, i, end, fault(k));
    assert Worked(cfg, s, w, u, fault, k, k + 1) == Apply(cfg, s, Work(w, fault(k), u));
  }

  lemma LockedEntry(cfg: Config, s: State, w: nat, u: real, i: nat, end: nat, fault: nat -> Fault, k: nat)
    requires w in s.workers && s.workers[w] == Locking(i, end) && i < |s.cache.log| && Backoff.IsDraw(u)
    requires fault(k).NoFault? && LockFree(s.cache, s.cache.log[i], s.now)
    ensures ServedAs(cfg, s, w, u, i, end, fault, k, Serve(cfg, s.now, u, i, s.db, s.cache, fault, k))
  {
    var e := s.cache.log[i];
    var t := Apply(cfg, s, Work(w, fault(k), u));
    LockStep(cfg, s, w, u, i, end, fault(k));
    var job := Job(e, s.cache.nextToken, s.now + cfg.lockTtl, FindEvent);
    var h := Advance(cfg, s.now, u, e, i, s.db, SetLock(s.cache, e, s.now, cfg.lockTtl), FindEvent, fault, k + 1);
    var r := Hold(cfg, s.now, u, e, i, s.cache.nextToken, s.db, SetLock(s.cache, e, s.now, cfg.lockTtl), fault, k + 1);
    ServeHolds(cfg, s.now, u, i, s.db, s.cache, fault, k, r);
    AdvanceIsWork(cfg, t, w, u, i, end, job, fault, k + 1, h);
    HoldIsWork(cfg, t, w, u, i, end, job, fault, k + 1, h);
    HeldEntry(cfg, s, t, Worked(cfg, t, w, u, fault, k + 1, r.calls), w, u, i, end, fault, k, r);
  }

  lemma {:induction false} WorkedOn(cfg: Config, s: State, w: nat, u: real, fault: nat -> Fault, k: nat, m: nat, n: nat)
    requires k <= m <= n
    ensures Worked(cfg, s, w, u, fault, k, n) == Worked(cfg, Worked(cfg, s, w, u, fault, k, m), w, u, fault, m, n)
    decreases m - k
  {
    if k < m { WorkedOn(cfg, Apply(cfg, s, Work(w, fault(k), u)), w, u, fault, k + 1, m, n); }
  }

  /** One stretch of the worker's steps after another. */
  lemma WorkedThenLeft(cfg: Config, s: State, t: State, r: State, w: nat, u: real, fault: nat -> Fault, k: nat,
      m: nat, n: nat, wk: Worker)
    requires k <= m <= n && w in t.workers && t == Worked(cfg, s, w, u, fault, k, m)
        && r == Worked(cfg, t, w, u, fault, m, n)
    requires Left(s, t, w, t.db, t.cache, t.workers[w]) && Left(t, r, w, r.db, r.cache, wk)
    ensures Worked(cfg, s, w, u, fault, k, n) == r && Left(s, r, w, r.db, r.cache, wk)
  {
    WorkedOn(cfg, s, w, u, fault, k, m, n);
    LeftThenLeft(s, t, r, w, wk);
  }

  /** What a worker has become when it left its batch as `b` says. */
  ghost predicate LeftAs(cfg: Config, s: State, w: nat, u: real, fault: nat -> Fault, k: nat, b: Batched) {
    k <= b.calls && Left(s, Worked(cfg, s, w, u, fault, k, b.calls), w, b.db, b.cache, Reading)
  }

  lemma BatchGoesOn(cfg: Config, s: State, t: State, w: nat, u: real, i: nat, end: nat, fault: nat -> Fault, k: nat,
      r: Served, b: Batched)
    requires r.onward && i + 1 < end && ServedAs(cfg, s, w, u, i, end, fault, k, r)
    requires t == Worked(cfg, s, w, u, fault, k, r.calls) && LeftAs(cfg, t, w, u, fault, r.calls, b)
    ensures LeftAs(cfg, s, w, u, fault, k, b)
  {
    WorkedThenLeft(cfg, s, t, Worked(cfg, t, w, u, fault, r.calls, b.calls), w, u, fault, k, r.calls, b.calls, Reading);
  }

  lemma AtNextEntry(cfg: Config, s: State, w: nat, u: real, i: nat, end: nat, fault: nat -> Fault, k: nat, r: Served)
    returns (t: State)
    requires r.onward && i + 1 < end && ServedAs(cfg, s, w, u, i, end, fault, k, r)
    ensures t == Worked(cfg, s, w, u, fault, k, r.calls)
    ensures t.now == s.now && t.db == r.db && t.cache == r.cache && w in t.workers
        && t.workers[w] == Locking(i + 1, end)
  {
    t := Worked(cfg, s, w, u, fault, k, r.calls);
  }

  /** Serving a batch is a run of its worker's steps, from taking the first lock to the next
      read, whatever throws on the way. */
  lemma {:induction false} BatchIsWork(cfg: Config, s: State, w: nat, u: real, i: nat, end: nat, fault: nat -> Fault,
      k: nat, b: Batched)
    requires w in s.workers && s.workers[w] == Locking(i, end) && i < end <= |s.cache.log| && Backoff.IsDraw(u)
    requires b == ServeBatch(cfg, s.now, u, i, end, s.db, s.cache, fault, k)
    ensures LeftAs(cfg, s, w, u, fault, k, b)
    decreases end - i, 1
  {
    var r := Serve(cfg, s.now, u, i, s.db, s.cache, fault, k);
    ServeIsWork(cfg, s, w, u, i, end, fault, k);
    ServeKeepsLog(cfg, s.now, u, i, s.db, s.cache, fault, k);
    AfterEntry(cfg, s, w, u, i, end, fault, k, r, b);
  }

  lemma {:induction false} AfterEntry(cfg: Config, s: State, w: nat, u: real, i: nat, end: nat, fault: nat -> Fault,
      k: nat, r: Served, b: Batched)
    requires ServedAs(cfg, s, w, u, i, end, fault, k, r) && i < end <= |r.cache.log| && Backoff.IsDraw(u)
    requires b == if r.onward then ServeBatch(cfg, s.now, u, i + 1, end, r.db, r.cache, fault, r.calls)
                  else Batched(r.db, r.cache, r.calls)
    ensures LeftAs(cfg, s, w, u, fault, k, b)
    decreases end - i, 0
  {
    if r.onward && i + 1 < end {
      var t := AtNextEntry(cfg, s, w, u, i, end, fault, k, r);
      BatchIsWork(cfg, t, w, u, i + 1, end, fault, r.calls, b);
      BatchGoesOn(cfg, s, t, w, u, i, end, fault, k, r, b);
    }
  }

  lemma ServeKeepsLog(cfg: Config, now: nat, u: real, i: nat, db: Db, cache: Cache, fault: nat -> Fault, k: nat)
    requires i < |cache.log|
    ensures Serve(cfg, now, u, i, db, cache, fault, k).cache.log == cache.log
  {}

  /** A read hands the worker the entries it may take, and nothing but the group's cursor and
      pending entries change. */
  lemma ReadStep(cfg: Config, s: State, w: nat, u: real, f: Fault)
    requires w in s.workers && s.workers[w].Reading? && Backoff.IsDraw(u)
    ensures var n := Available(s.cache, cfg.batchSize);
            Left(s, Apply(cfg, s, Work(w, f, u)), w, s.db,
                 if f.Before? then s.cache else ReadGroup(s.cache, cfg.batchSize),
                 if f.NoFault? && n > 0 then Locking(s.cache.cursor, s.cache.cursor + n) else Reading)
  {
    assert s.workers[w := s.workers[w]] == s.workers;
  }

  lemma NothingRead(cfg: Config, s: State, t: State, w: nat, u: real, fault: nat -> Fault, k: nat, b: Batched)
    requires t == Apply(cfg, s, Work(w, fault(k), u)) && Left(s, t, w, t.db, t.cache, Reading)
    requires b == Batched(t.db, t.cache, k + 1)
    ensures LeftAs(cfg, s, w, u, fault, k, b)
  {
    assert Worked(cfg, t, w, u, fault, k + 1, k + 1) == t;
  }

  lemma ReadThenLeft(cfg: Config, s: State, t: State, w: nat, u: real, fault: nat -> Fault, k: nat, b: Batched)
    requires t == Apply(cfg, s, Work(w, fault(k), u)) && w in t.workers && Left(s, t, w, t.db, t.cache, t.workers[w])
    requires LeftAs(cfg, t, w, u, fault, k + 1, b)
    ensures LeftAs(cfg, s, w, u, fault, k, b)
  {
    LeftThenLeft(s, t, Worked(cfg, t, w, u, fault, k + 1, b.calls), w, Reading);
  }

  /** A turn of the loop that reads a batch is a run of its worker's steps from one read to
      the next, whatever throws while the batch is served. */
  lemma TurnIsWork(cfg: Config, s: State, w: nat, u: real, fault: nat -> Fault, k: nat, end: nat, b: Batched)
    requires w in s.workers && s.workers[w].Reading? && Backoff.IsDraw(u) && fault(k).NoFault?
    requires s.cache.cursor < end == s.cache.cursor + Available(s.cache, cfg.batchSize) <= |s.cache.log|
    requires b == ServeBatch(cfg, s.now, u, s.cache.cursor, end, s.db, ReadGroup(s.cache, cfg.batchSize), fault, k + 1)
    ensures LeftAs(cfg, s, w, u, fault, k, b)
  {
    var t := Apply(cfg, s, Work(w, fault(k), u));
    ReadStep(cfg, s, w, u, fault(k));
    BatchIsWork(cfg, t, w, u, s.cache.cursor, end, fault, k + 1, b);
    ReadThenLeft(cfg, s, t, w, u, fault, k, b);
  }

  /** So is one that finds nothing or whose read throws. */
  lemma BareTurnIsWork(cfg: Config, s: State, w: nat, u: real, fault: nat -> Fault, k: nat, b: Batched)
    requires w in s.workers && s.workers[w].Reading? && Backoff.IsDraw(u)
    requires !fault(k).NoFault? || Available(s.cache, cfg.batchSize) == 0
    requires b == Batched(s.db, if fault(k).Before? then s.cache else ReadGroup(s.cache, cfg.batchSize), k + 1)
    ensures LeftAs(cfg, s, w, u, fault, k, b)
  {
    ReadStep(cfg, s, w, u, fault(k));
    NothingRead(cfg, s, Apply(cfg, s, Work(w, fault(k), u)), w, u, fault, k, b);
  }

  // ---------- a webhook that wins its key ----------

  /** An accepted webhook, too, is four steps of its handler. */
  lemma AcceptedIsItsSteps(cfg: Config, s: State, h: nat, id: nat, p: Payload)
    requires h in s.handlers && s.handlers[h] == Marking(p) && KeyFree(s.cache, p.gatewayId, s.now)
        && id !in s.db.events
    ensures var keyed := SetKey(s.cache, p.gatewayId, s.now, cfg.idempotencyTtl);
            var stored := UpsertPending(s.db, id, p, if p.orderId in s.db.orders then Some(p.orderId) else None);
            var step := Handle(h, id);
            && p.gatewayId in stored.byGateway
            && Apply(cfg, Apply(cfg, Apply(cfg, Apply(cfg, s, step), step), step), step)
               == s.(db := stored, cache := Publish(keyed, stored.byGateway[p.gatewayId]), handlers := s.handlers - {h})
  {
    var step := Handle(h, id);
    var s1 := Apply(cfg, s, step);
    var s2 := Apply(cfg, s1, step);
    var s3 := Apply(cfg, s2, step);
    assert s1.handlers[h].Resolving? && s2.handlers[h].Upserting? && s3.handlers[h].Publishing?;
    assert s3.handlers - {h} == s.handlers - {h};
  }

  // ---------- a promotion ----------

  /** A number of the poller's commands. */
  function Promotes(cfg: Config, s: State, p: nat, n: nat): State
    decreases n
  {
    if n == 0 then s else Promotes(cfg, Apply(cfg, s, Promote(p)), p, n - 1)
  }

  lemma {:induction false} RestPublished(cfg: Config, s: State, p: nat, rest: seq<nat>)
    requires p in s.pollers && s.pollers[p] == Promoting(rest)
    ensures Promotes(cfg, s, p, |rest| + 1)
            == s.(cache := s.cache.(log := s.cache.log + rest), pollers := s.pollers - {p})
    decreases |rest|
  {
    if rest == [] {
      assert Promotes(cfg, Apply(cfg, s, Promote(p)), p, 0) == Apply(cfg, s, Promote(p));
      assert s.cache.log + rest == s.cache.log;
    } else {
      var t := Apply(cfg, s, Promote(p));
      RestPublished(cfg, t, p, rest[1..]);
      assert [rest[0]] + rest[1..] == rest;
      assert s.cache.log + [rest[0]] + rest[1..] == s.cache.log + rest;
      assert t.pollers - {p} == s.pollers - {p};
    }
  }

  /** A promotion is its poller's steps: a read of the lowest due entries, up to the batch size,
      and unless there are none their removal and a publication of each, in order. */
  lemma PromotionIsItsSteps(cfg: Config, s: State, p: nat)
    requires p !in s.pollers
    ensures var due := Due(s.cache.retry, s.now, cfg.batchSize); var t := Apply(cfg, s, Poll(p));
            if due == [] then t == s
            else Promotes(cfg, t, p, |due| + 2)
                 == s.(cache := s.cache.(retry := Without(s.cache.retry, Ids(due)), log := s.cache.log + due))
  {
    var due := Due(s.cache.retry, s.now, cfg.batchSize);
    if due != [] {
      var t := Apply(cfg, s, Poll(p));
      var r := Apply(cfg, t, Promote(p));
      RestPublished(cfg, r, p, due);
      assert Promotes(cfg, t, p, |due| + 2) == Promotes(cfg, r, p, |due| + 1);
      assert r.pollers - {p} == s.pollers;
    }
  }

  // ---------- the failure handler ----------

  /** Counting and acknowledging. */
  lemma FirstTwo(cfg: Config, now: nat, u: real, e: nat, i: nat, db: Db, cache: Cache, fault: nat -> Fault, k: nat)
    requires e in db.events && fault(k).NoFault? && fault(k + 1).NoFault?
    ensures var db1 := IncrementAttempts(db, e); var n := db1.events[e].attempts;
            Advance(cfg, now, u, e, i, db, cache, Increment, fault, k)
            == Advance(cfg, now, u, e, i, db1, Ack(cache, i),
                       if n >= cfg.maxAttempts then Bury(n) else MarkFailedState(n), fault, k + 2)
  {
    var db1 := IncrementAttempts(db, e);
    var n := db1.events[e].attempts;
    assert Advance(cfg, now, u, e, i, db, cache, Increment, fault, k)
           == Advance(cfg, now, u, e, i, db1, cache, AckFailed(n), fault, k + 1);
  }
}
