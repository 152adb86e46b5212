/** Who gets which stream entry: the group hands out each entry once, and nothing that was
    acknowledged, or whose worker is gone, comes back. */
module Delivery {
  import opened Domain
  import opened Tables
  import opened Pipeline
  import Backoff

  /** The entries worker `w` has before it, the one in hand included. */
  predicate Ahead(s: State, w: nat, i: nat) {
    w in s.workers && !s.workers[w].Reading? && s.workers[w].i <= i < s.workers[w].end
  }

  ghost predicate Partitioned(s: State) {
    && s.cache.cursor <= |s.cache.log|
    && (forall w: nat, i: nat | Ahead(s, w, i) :: i < s.cache.cursor)
    && (forall v: nat, w: nat, i: nat | Ahead(s, v, i) && Ahead(s, w, i) :: v == w)
    && (forall i | i in s.cache.pending :: i < s.cache.cursor)
  }

  lemma {:induction false} SpanContents(lo: nat, hi: nat)
    ensures forall i :: i in Span(lo, hi) <==> lo <= i < hi
    decreases hi - lo
  {
    if lo < hi { SpanContents(lo + 1, hi); }
  }

  /** From `s` to `t` no worker gets an entry it did not have, unless it was unread. */
  ghost predicate OnlyUnread(s: State, t: State) {
    && s.cache.cursor <= t.cache.cursor <= |t.cache.log|
    && (forall w: nat, i: nat | Ahead(t, w, i) && i < s.cache.cursor :: Ahead(s, w, i))
    && (forall w: nat, i: nat | Ahead(t, w, i) :: i < t.cache.cursor)
    && (forall v: nat, w: nat, i: nat | Ahead(t, v, i) && Ahead(t, w, i) && s.cache.cursor <= i :: v == w)
    && (forall i | i in t.cache.pending :: i in s.cache.pending || s.cache.cursor <= i < t.cache.cursor)
  }

  lemma UnreadKeeps(s: State, t: State)
    requires Partitioned(s) && OnlyUnread(s, t)
    ensures Partitioned(t)
  {}

  lemma ReadUnread(cfg: Config, s: State, w: nat, fault: Fault)
    requires Partitioned(s) && w in s.workers && s.workers[w].Reading?
    ensures OnlyUnread(s, DoRead(cfg, s, w, fault))
  {
    var t := DoRead(cfg, s, w, fault);
    SpanContents(s.cache.cursor, s.cache.cursor + Available(s.cache, cfg.batchSize));
    forall v: nat, i: nat | Ahead(t, v, i) ensures Ahead(s, v, i) || (v == w && s.cache.cursor <= i < t.cache.cursor) {}
  }

  lemma LockUnread(cfg: Config, s: State, w: nat, fault: Fault)
    requires Partitioned(s) && w in s.workers && s.workers[w].Locking?
    ensures OnlyUnread(s, DoLock(cfg, s, w, s.workers[w].i, s.workers[w].end, fault))
  {
    var t := DoLock(cfg, s, w, s.workers[w].i, s.workers[w].end, fault);
    forall v: nat, i: nat | Ahead(t, v, i) ensures Ahead(s, v, i) {}
  }

  lemma SkipUnread(s: State, w: nat, fault: Fault)
    requires Partitioned(s) && w in s.workers && s.workers[w].Skipping?
    ensures OnlyUnread(s, DoSkip(s, w, s.workers[w].i, s.workers[w].end, fault))
  {
    var t := DoSkip(s, w, s.workers[w].i, s.workers[w].end, fault);
    forall v: nat, i: nat | Ahead(t, v, i) ensures Ahead(s, v, i) {}
  }

  lemma ReleaseUnread(s: State, w: nat, fault: Fault)
    requires Partitioned(s) && w in s.workers && s.workers[w].Working? && s.workers[w].job.stage.Release?
    ensures OnlyUnread(s, DoRelease(s, w, s.workers[w].i, s.workers[w].end, s.workers[w].job, fault))
  {
    var t := DoRelease(s, w, s.workers[w].i, s.workers[w].end, s.workers[w].job, fault);
    forall v: nat, i: nat | Ahead(t, v, i) ensures Ahead(s, v, i) {}
  }

  lemma CommandPending(cfg: Config, now: nat, u: real, e: nat, i: nat, db: Db, cache: Cache, stage: Stage)
    requires !stage.Release?
    ensures var c := HandleCommand(cfg, now, u, e, i, db, cache, stage).cache;
            c.pending <= cache.pending && c.cursor == cache.cursor && c.log == cache.log
  {}

  lemma CommandUnread(cfg: Config, s: State, w: nat, fault: Fault, u: real)
    requires Partitioned(s) && w in s.workers && s.workers[w].Working? && !s.workers[w].job.stage.Release?
    ensures OnlyUnread(s, DoCommand(cfg, s, w, s.workers[w].i, s.workers[w].end, s.workers[w].job, fault, u))
  {
    var job := s.workers[w].job;
    var t := DoCommand(cfg, s, w, s.workers[w].i, s.workers[w].end, job, fault, u);
    CommandPending(cfg, s.now, u, job.event, s.workers[w].i, s.db, s.cache, job.stage);
    forall v: nat, i: nat | Ahead(t, v, i) ensures Ahead(s, v, i) {}
  }

  lemma WorkUnread(cfg: Config, s: State, w: nat, fault: Fault, u: real)
    requires Partitioned(s) && w in s.workers
    ensures OnlyUnread(s, DoWork(cfg, s, w, fault, u))
  {
    match s.workers[w] {
      case Reading => ReadUnread(cfg, s, w, fault);
      case Locking(_, _) => LockUnread(cfg, s, w, fault);
      case Skipping(_, _) => SkipUnread(s, w, fault);
      case Working(_, _, job) =>
        if job.stage.Release? {
          ReleaseUnread(s, w, fault);
        } else {
          CommandUnread(cfg, s, w, fault, u);
        }
    }
  }

  lemma OtherQueues(cfg: Config, s: State, step: Step)
    requires !step.Work? && !step.Handle?
    ensures var c := Apply(cfg, s, step).cache;
            c.pending == s.cache.pending && c.cursor == s.cache.cursor && s.cache.log <= c.log
  {
    match step {
      case Promote(p) => if p in s.pollers { PromoteQueues(s, p); }
      case _ =>
    }
  }

  lemma PromoteQueues(s: State, p: nat)
    requires p in s.pollers
    ensures var c := DoPromote(s, p).cache;
            c.pending == s.cache.pending && c.cursor == s.cache.cursor && s.cache.log <= c.log
  {
    match s.pollers[p] {
      case Removing(due) => assert DoPromote(s, p).cache == Unschedule(s.cache, due);
      case Promoting(rest) => assert rest != [] ==> DoPromote(s, p).cache == Publish(s.cache, rest[0]);
    }
  }

  lemma OtherWorkers(cfg: Config, s: State, step: Step)
    requires !step.Work? && !step.Handle?
    ensures forall w: nat, i: nat | Ahead(Apply(cfg, s, step), w, i) :: Ahead(s, w, i)
  {}

  lemma PendingKept(cfg: Config, s: State, step: Step)
    requires !step.Work?
    ensures var t := Apply(cfg, s, step);
            && t.cache.pending == s.cache.pending && t.cache.cursor == s.cache.cursor && s.cache.log <= t.cache.log
            && forall w: nat, i: nat | Ahead(t, w, i) :: Ahead(s, w, i)
  {
    if !step.Handle? {
      OtherQueues(cfg, s, step);
      OtherWorkers(cfg, s, step);
    } else if step.h in s.handlers {
      HandlePending(cfg, s, step.h, step.id);
    }
  }

  lemma HandlePending(cfg: Config, s: State, h: nat, id: nat)
    requires h in s.handlers
    ensures var t := DoHandle(cfg, s, h, id);
            && t.cache.pending == s.cache.pending && t.cache.cursor == s.cache.cursor && s.cache.log <= t.cache.log
            && t.workers == s.workers
  {}

  lemma StepUnread(cfg: Config, s: State, step: Step)
    requires Partitioned(s)
    ensures OnlyUnread(s, Apply(cfg, s, step))
  {
    if step.Work? {
      if step.w in s.workers && Backoff.IsDraw(step.u) { WorkUnread(cfg, s, step.w, step.fault, step.u); }
    } else {
      PendingKept(cfg, s, step);
    }
  }

  /** In every run no two workers ever have the same entry before them, in hand or waiting,
      and an entry is pending only after it was read. */
  lemma {:induction false} EachEntryOnce(cfg: Config, steps: seq<Step>)
    ensures Partitioned(Exec(cfg, steps))
  {
    if steps != [] {
      EachEntryOnce(cfg, steps[..|steps| - 1]);
      StepUnread(cfg, Exec(cfg, steps[..|steps| - 1]), steps[|steps| - 1]);
      UnreadKeeps(Exec(cfg, steps[..|steps| - 1]), Exec(cfg, steps));
    }
  }

  /** An entry that was read and that no worker has before it any more never comes back. */
  lemma {:induction false} NeverAheadAgain(cfg: Config, steps: seq<Step>, k: nat, i: nat)
    requires k <= |steps| && i < At(cfg, steps, k).cache.cursor
    requires forall v :: !Ahead(At(cfg, steps, k), v, i)
    ensures i < Exec(cfg, steps).cache.cursor && forall v :: !Ahead(Exec(cfg, steps), v, i)
    ensures i !in At(cfg, steps, k).cache.pending ==> i !in Exec(cfg, steps).cache.pending
    decreases |steps|
  {
    if k == |steps| {
      assert steps[..k] == steps;
    } else {
      var n := |steps| - 1;
      AtPrefix(cfg, steps, n, k);
      NeverAheadAgain(cfg, steps[..n], k, i);
      EachEntryOnce(cfg, steps[..n]);
      StepUnread(cfg, Exec(cfg, steps[..n]), steps[n]);
    }
  }
}
