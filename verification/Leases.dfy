/** The lock around one payment event is a lease: while it has not run out, its holder is
    alone, whatever the other workers do and however late they release. */
module Leases {
  import opened Domain
  import opened Tables
  import opened Pipeline
  import Backoff
  import Integrity

  predicate IsWorking(s: State, w: nat) { w in s.workers && s.workers[w].Working? }

  function JobOf(s: State, w: nat): Job
    requires IsWorking(s, w)
  {
    s.workers[w].job
  }

  /** The worker still has time left on its lease. */
  predicate InLease(s: State, w: nat) { IsWorking(s, w) && s.now < JobOf(s, w).until }

  ghost predicate OneWorker(s: State) {
    forall v, w | v in s.workers && w in s.workers :: v == w
  }

  ghost predicate TokensFresh(s: State) {
    && (forall w | IsWorking(s, w) :: JobOf(s, w).token < s.cache.nextToken)
    && (forall e | e in s.cache.locks :: s.cache.locks[e].token < s.cache.nextToken)
    && (forall v, w | IsWorking(s, v) && IsWorking(s, w) && v != w :: JobOf(s, v).token != JobOf(s, w).token)
  }

  ghost predicate HoldsLock(s: State, w: nat)
    requires IsWorking(s, w)
  {
    var job := JobOf(s, w);
    job.event in s.cache.locks && s.cache.locks[job.event] == Lease(job.token, job.until)
  }

  ghost predicate LeaseInv(s: State) {
    TokensFresh(s) && forall w | InLease(s, w) :: HoldsLock(s, w)
  }

  /** A step that leaves locks and tokens alone, and no worker with another job. */
  lemma SameJobs(s: State, t: State)
    requires LeaseInv(s) && s.now <= t.now && t.cache.locks == s.cache.locks && t.cache.nextToken == s.cache.nextToken
    requires forall w | IsWorking(t, w) :: IsWorking(s, w) && JobOf(t, w) == JobOf(s, w).(stage := JobOf(t, w).stage)
    ensures LeaseInv(t)
  {
    forall w | InLease(t, w) ensures HoldsLock(t, w) {
      assert InLease(s, w);
    }
  }

  lemma LockKeepsTokens(cfg: Config, s: State, w: nat, i: nat, end: nat, fault: Fault)
    requires TokensFresh(s) && w in s.workers && s.workers[w] == Locking(i, end)
    ensures var t := DoLock(cfg, s, w, i, end, fault);
            TokensFresh(t) && forall v | IsWorking(t, v) && v != w :: IsWorking(s, v) && JobOf(t, v) == JobOf(s, v)
  {
    var t := DoLock(cfg, s, w, i, end, fault);
    forall v | IsWorking(t, v) && v != w ensures IsWorking(s, v) && JobOf(t, v) == JobOf(s, v) {}
    LockToken(cfg, s, w, i, end, fault);
  }

  /** Only the next token is given out. */
  lemma LockToken(cfg: Config, s: State, w: nat, i: nat, end: nat, fault: Fault)
    requires w in s.workers && s.workers[w] == Locking(i, end)
    ensures var t := DoLock(cfg, s, w, i, end, fault);
            && s.cache.nextToken <= t.cache.nextToken
            && (IsWorking(t, w) ==> JobOf(t, w).token == s.cache.nextToken < t.cache.nextToken)
            && forall e | e in t.cache.locks ::
                 (e in s.cache.locks && t.cache.locks[e] == s.cache.locks[e])
                 || t.cache.locks[e].token == s.cache.nextToken < t.cache.nextToken
  {}

  lemma LockKeeps(cfg: Config, s: State, w: nat, i: nat, end: nat, fault: Fault)
    requires LeaseInv(s) && w in s.workers && s.workers[w] == Locking(i, end)
    ensures LeaseInv(DoLock(cfg, s, w, i, end, fault))
  {
    var t := DoLock(cfg, s, w, i, end, fault);
    LockKeepsTokens(cfg, s, w, i, end, fault);
    forall v | InLease(t, v) ensures HoldsLock(t, v) {
      if v != w {
        assert InLease(s, v);
      }
    }
  }

  lemma ReleaseKeeps(s: State, w: nat, i: nat, end: nat, job: Job, fault: Fault)
    requires LeaseInv(s) && w in s.workers && s.workers[w] == Working(i, end, job) && job.stage.Release?
    ensures LeaseInv(DoRelease(s, w, i, end, job, fault))
  {
    var t := DoRelease(s, w, i, end, job, fault);
    forall v | IsWorking(t, v) ensures v != w && IsWorking(s, v) && JobOf(t, v) == JobOf(s, v) {}
    forall v | InLease(t, v) ensures HoldsLock(t, v) {
      assert InLease(s, v) && IsWorking(s, w);
    }
  }

  lemma CommandKeeps(cfg: Config, s: State, w: nat, i: nat, end: nat, job: Job, fault: Fault, u: real)
    requires LeaseInv(s) && w in s.workers && s.workers[w] == Working(i, end, job) && !job.stage.Release?
    ensures LeaseInv(DoCommand(cfg, s, w, i, end, job, fault, u))
  {
    Integrity.HandleCommandQueue(cfg, s.now, u, job.event, i, s.db, s.cache, job.stage);
    SameJobs(s, DoCommand(cfg, s, w, i, end, job, fault, u));
  }

  lemma WorkKeeps(cfg: Config, s: State, w: nat, fault: Fault, u: real)
    requires LeaseInv(s) && w in s.workers
    ensures LeaseInv(DoWork(cfg, s, w, fault, u))
  {
    match s.workers[w] {
      case Locking(i, end) => LockKeeps(cfg, s, w, i, end, fault);
      case Working(i, end, job) =>
        if job.stage.Release? {
          ReleaseKeeps(s, w, i, end, job, fault);
        } else {
          CommandKeeps(cfg, s, w, i, end, job, fault, u);
        }
      case _ => SameJobs(s, DoWork(cfg, s, w, fault, u));
    }
  }

  lemma HandleLeavesLocks(cfg: Config, s: State, h: nat, id: nat)
    requires h in s.handlers
    ensures var t := DoHandle(cfg, s, h, id);
            t.cache.locks == s.cache.locks && t.cache.nextToken == s.cache.nextToken && t.workers == s.workers
              && t.now == s.now
  {}

  lemma OtherLocks(cfg: Config, s: State, step: Step)
    requires !step.Work? && !step.Handle?
    ensures var t := Apply(cfg, s, step);
            && t.cache.locks == s.cache.locks && t.cache.nextToken == s.cache.nextToken && s.now <= t.now
            && forall w | IsWorking(t, w) :: IsWorking(s, w) && JobOf(t, w) == JobOf(s, w)
  {
    match step {
      case Promote(p) => if p in s.pollers { PromoteLeavesLocks(s, p); }
      case _ =>
    }
  }

  lemma PromoteLeavesLocks(s: State, p: nat)
    requires p in s.pollers
    ensures var t := DoPromote(s, p);
            t.cache.locks == s.cache.locks && t.cache.nextToken == s.cache.nextToken && t.workers == s.workers
              && t.now == s.now
  {}

  lemma OtherStepKeeps(cfg: Config, s: State, step: Step)
    requires LeaseInv(s) && !step.Work?
    ensures LeaseInv(Apply(cfg, s, step))
  {
    if !step.Handle? {
      OtherLocks(cfg, s, step);
      SameJobs(s, Apply(cfg, s, step));
    } else if step.h in s.handlers {
      HandleLeavesLocks(cfg, s, step.h, step.id);
      SameJobs(s, DoHandle(cfg, s, step.h, step.id));
    }
  }

  lemma StepKeeps(cfg: Config, s: State, step: Step)
    requires LeaseInv(s)
    ensures LeaseInv(Apply(cfg, s, step))
  {
    if !step.Work? {
      OtherStepKeeps(cfg, s, step);
    } else if step.w in s.workers && Backoff.IsDraw(step.u) {
      WorkKeeps(cfg, s, step.w, step.fault, step.u);
    }
  }

  lemma {:induction false} Always(cfg: Config, steps: seq<Step>)
    ensures LeaseInv(Exec(cfg, steps))
  {
    if steps != [] {
      Always(cfg, steps[..|steps| - 1]);
      StepKeeps(cfg, Exec(cfg, steps[..|steps| - 1]), steps[|steps| - 1]);
    }
  }

  /** In every run, a worker within its lease is the one the lock names, so no step of
      another worker takes or deletes a live lease, and two workers on one event mean that
      one of them has outlived its lease. */
  lemma {:induction false} LeaseSafety(cfg: Config, steps: seq<Step>, v: nat, w: nat)
    ensures var s := Exec(cfg, steps);
            && (InLease(s, v) ==> HoldsLock(s, v))
            && (InLease(s, v) && InLease(s, w) && JobOf(s, v).event == JobOf(s, w).event ==> v == w)
  {
    Always(cfg, steps);
  }

  lemma OthersStay(cfg: Config, s: State, v: nat, w: nat, fault: Fault, u: real)
    requires v != w && w in s.workers
    ensures var t := DoWork(cfg, s, w, fault, u);
            t.now == s.now && (v in s.workers ==> v in t.workers && t.workers[v] == s.workers[v])
  {
    match s.workers[w] {
      case Reading => assert DoWork(cfg, s, w, fault, u) == DoRead(cfg, s, w, fault);
      case Locking(i, end) => assert DoWork(cfg, s, w, fault, u) == DoLock(cfg, s, w, i, end, fault);
      case Skipping(i, end) => assert DoWork(cfg, s, w, fault, u) == DoSkip(s, w, i, end, fault);
      case Working(i, end, job) =>
    }
  }

  /** No step of another worker, a release that comes too late included, takes a live lease
      from its holder. */
  lemma {:induction false} StaleReleaseHarmless(cfg: Config, steps: seq<Step>, v: nat, w: nat, fault: Fault, u: real)
    requires v != w && InLease(Exec(cfg, steps), v)
    ensures var t := Apply(cfg, Exec(cfg, steps), Work(w, fault, u)); InLease(t, v) && HoldsLock(t, v)
  {
    var s := Exec(cfg, steps);
    Always(cfg, steps);
    StepKeeps(cfg, s, Work(w, fault, u));
    if w in s.workers && Backoff.IsDraw(u) {
      OthersStay(cfg, s, v, w, fault, u);
    }
  }

  /** A lock that was free is held once set, by its own token only: until it expires nobody
      else can set it, the setter's release frees it, anyone else's changes nothing, and
      neither touches another event's lock. */
  lemma LockRoundTrip(c: Cache, e: nat, now: nat, ttl: nat, later: nat, token: nat)
    requires (e in c.locks ==> c.locks[e].until <= now) && now <= later < now + ttl
    ensures var held := SetLock(c, e, now, ttl); var t := ReleaseLock(held, e, token, later);
            && !LockFree(held, e, later) && LockFree(held, e, now + ttl) && held.locks[e].token == c.nextToken
            && SetLock(held, e, later, ttl).locks == held.locks
            && (token == c.nextToken ==> e !in t.locks)
            && (token != c.nextToken ==> t == held)
            && forall x | x != e :: (x in t.locks <==> x in c.locks) && (x in c.locks ==> t.locks[x] == c.locks[x])
  {
    var held := SetLock(c, e, now, ttl);
    assert held.locks[e] == Lease(c.nextToken, now + ttl);
    forall x | x != e ensures (x in held.locks <==> x in c.locks) && (x in c.locks ==> held.locks[x] == c.locks[x]) {}
  }
}
