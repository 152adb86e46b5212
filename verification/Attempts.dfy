/** How often, and how soon, an event that intake publishes once is run: exactly when its
    promotions match its retries, and what follows for the number and the times of its runs. */
module Attempts {
  import opened Domain
  import opened Backoff
  import opened SortedSet
  import opened Tables
  import opened Pipeline
  import opened Integrity
  import opened Leases
  import opened Copies
  import opened Retries
  import opened Accounting
  import Carriers
  import Intake
  import Losses
  import Spacing

  // ---------- when promotions match ----------

  lemma BackoffPositive(n: nat, u: real)
    requires IsDraw(u)
    ensures 0 < BackoffMs(n, u)
  {
    BackoffWithinBounds(n, u);
  }

  /** A mismatch lasts: a retry scheduled later is due later still. */
  lemma MismatchLasts(s: State, step: Step, e: nat, y: Tally)
    requires Past(y.taken, s.now)
    ensures Past(Count(s, step, e, y).taken, s.now)
    ensures !Punctual(y) ==> !Punctual(Count(s, step, e, y))
  {
    var z := Count(s, step, e, y);
    if step.Promote? && TakesOut(s, step, e) {
      PastMore(y.taken, s.now);
      if Punctual(z) { TakenBefore(y.scheduled, y.taken, s.now); }
    } else if z.scheduled != y.scheduled {
      var n := JobOf(s, step.w).stage.attempts;
      BackoffPositive(n, step.u);
      if Punctual(z) { ScheduledTooLate(y.scheduled, y.taken, s.now, s.now + NonNegative(BackoffMs(n, step.u))); }
    }
  }

  lemma TakenBefore(scheduled: seq<nat>, taken: seq<nat>, now: nat)
    requires TakenWhenDue(scheduled, taken + [now])
    ensures TakenWhenDue(scheduled, taken)
  {
    forall k | 0 <= k < |taken| ensures scheduled[k] <= taken[k] {
      assert (taken + [now])[k] == taken[k];
    }
  }

  lemma ScheduledTooLate(scheduled: seq<nat>, taken: seq<nat>, now: nat, at: nat)
    requires TakenWhenDue(scheduled + [at], taken) && Past(taken, now) && now < at
    ensures TakenWhenDue(scheduled, taken)
  {
    assert (scheduled + [at])[|scheduled|] == at;
    forall k | 0 <= k < |taken| ensures scheduled[k] <= taken[k] {
      assert (scheduled + [at])[k] == scheduled[k];
    }
  }

  lemma StaleMismatches(cfg: Config, s: State, step: Step, e: nat, y: Tally)
    requires Course(cfg, s, e, y) && Stale(s, step, e)
    ensures !Punctual(Count(s, step, e, y))
  {
    var z := Count(s, step, e, y);
    assert z.taken == y.taken + [s.now] && z.scheduled == y.scheduled;
    if e in Members(s.cache.retry) {
      var x :| x in s.cache.retry && x.id == e;
      assert s.now < x.score;
      assert z.taken[|y.taken|] == s.now < y.scheduled[|y.taken|];
    }
  }

  lemma {:induction false} TakenInThePast(cfg: Config, steps: seq<Step>, e: nat)
    ensures Past(TallyOf(cfg, steps, e).taken, Exec(cfg, steps).now)
  {
    if steps != [] {
      var before := steps[..|steps| - 1];
      TakenInThePast(cfg, before, e);
      MismatchLasts(Exec(cfg, before), steps[|steps| - 1], e, TallyOf(cfg, before, e));
      Spacing.TimePasses(cfg, Exec(cfg, before), steps[|steps| - 1]);
    }
  }

  /** Of an event published once, each promotion is of its own retry and no earlier than that
      is due, if and only if no poller ever takes it out of the schedule when its entry is
      gone or not due. */
  lemma {:induction false} RetriesMatchExactly(cfg: Config, steps: seq<Step>, e: nat)
    requires TallyOf(cfg, steps, e).published <= 1
    ensures Punctual(TallyOf(cfg, steps, e)) <==> NeverStale(cfg, steps, e)
  {
    if steps != [] {
      var before := steps[..|steps| - 1];
      var s, step, y := Exec(cfg, before), steps[|steps| - 1], TallyOf(cfg, before, e);
      PublishedGrows(s, step, e, y);
      RetriesMatchExactly(cfg, before, e);
      if NeverStale(cfg, steps, e) {
        CourseAlways(cfg, steps, e);
      } else if NeverStale(cfg, before, e) {
        CourseAlways(cfg, before, e);
        StaleMismatches(cfg, s, step, e, y);
      } else {
        TakenInThePast(cfg, before, e);
        MismatchLasts(s, step, e, y);
      }
    }
  }

  // ---------- the spacing and the number of the runs ----------

  /** Every run of the event after its k-th failure, returning runs included, starts no
      earlier than the k-th delay after that failure. */
  lemma {:induction false} RunsAreSpaced(cfg: Config, steps: seq<Step>, e: nat, k: nat)
    requires TallyOf(cfg, steps, e).published <= 1 && NeverStale(cfg, steps, e)
    requires 1 <= k < |TallyOf(cfg, steps, e).runs|
    ensures var y := TallyOf(cfg, steps, e);
            k <= |y.failures| && y.runs[k - 1] <= y.failures[k - 1] && y.failures[k - 1] + BaseDelay(k) <= y.runs[k]
    ensures |TallyOf(cfg, steps, e).runs| <= cfg.maxAttempts
  {
    CourseAlways(cfg, steps, e);
  }

  lemma {:induction false} SpacedFailures(runs: seq<nat>, failures: seq<nat>, i: nat, j: nat)
    requires RunsWait(runs, failures) && FailuresFollow(runs, failures) && i <= j < |failures|
    ensures failures[i] + TotalBase(j) <= failures[j] + TotalBase(i)
    decreases j - i
  {
    if i < j {
      SpacedFailures(runs, failures, i, j - 1);
      assert failures[j - 1] + BaseDelay(j) <= runs[j] <= failures[j];
    }
  }

  /** So the failures lie as far apart as the delays between them add up to; after the first
      one they follow at least the doubling delays, and a minute each from the seventh on. */
  lemma {:induction false} FailuresAreSpaced(cfg: Config, steps: seq<Step>, e: nat, i: nat, j: nat)
    requires TallyOf(cfg, steps, e).published <= 1 && NeverStale(cfg, steps, e)
    requires i <= j < |TallyOf(cfg, steps, e).failures|
    ensures var f := TallyOf(cfg, steps, e).failures;
            && f[i] + TotalBase(j) <= f[j] + TotalBase(i)
            && f[0] + (if j <= 6 then 1000 * (Pow2(j) - 1) else 63000 + 60000 * (j - 6)) <= f[j]
  {
    var y := TallyOf(cfg, steps, e);
    CourseAlways(cfg, steps, e);
    SpacedFailures(y.runs, y.failures, i, j);
    SpacedFailures(y.runs, y.failures, 0, j);
    TotalBaseClosedForm(j);
  }

  /** An event with a dead letter has been run and has failed exactly the allowed number of
      times, with one retry scheduled and promoted after each failure but the last, and is
      nowhere any more.  Where nothing crashes and no step loses an event, one that was
      published and has not completed a run is either still carried or has that dead letter. */
  lemma {:induction false} ExactlyMaxAttempts(cfg: Config, steps: seq<Step>, e: nat)
    requires TallyOf(cfg, steps, e).published <= 1 && NeverStale(cfg, steps, e)
    ensures e in Exec(cfg, steps).db.deadLetters ==>
              && Exhausted(cfg, TallyOf(cfg, steps, e))
              && Exec(cfg, steps).db.deadLetters[e].attempts == cfg.maxAttempts
              && Outside(Exec(cfg, steps), e) == 0
    ensures Losses.FaultFreeRun(cfg, steps) && Losses.NoLosingStep(cfg, steps) && e in Exec(cfg, steps).cache.log
            && e !in Exec(cfg, steps).returned && !Carriers.Carried(Exec(cfg, steps), e) ==>
              e in Exec(cfg, steps).db.deadLetters
  {
    var s := Exec(cfg, steps);
    CourseAlways(cfg, steps, e);
    if e in s.db.deadLetters {
      assert Entries(s, e) == {} && Pollers(s, e) == {};
    }
    if Losses.FaultFreeRun(cfg, steps) && Losses.NoLosingStep(cfg, steps) && e in s.cache.log {
      Losses.NothingLostExactly(cfg, steps);
      assert Carriers.NothingLost(s);
    }
  }

  // ---------- one poller at a time ----------

  /** What a poller is about to remove is there and due. */
  ghost predicate Fresh(s: State, e: nat) {
    forall p | p in s.pollers && s.pollers[p].Removing? && e in s.pollers[p].due :: DueNow(s, e)
  }

  lemma FreshKept(s: State, t: State, e: nat)
    requires Fresh(s, e) && s.now <= t.now
    requires forall p | p in t.pollers && t.pollers[p].Removing? && e in t.pollers[p].due ::
               p in s.pollers && t.pollers[p] == s.pollers[p]
    requires DueNow(s, e) ==> forall x | x in s.cache.retry && x.id == e :: x in t.cache.retry
    ensures Fresh(t, e)
  {}

  lemma PollFresh(cfg: Config, s: State, p: nat, e: nat)
    requires Fresh(s, e) && p !in s.pollers
    ensures Fresh(DoPoll(cfg, s, p), e)
  {
    var due := Due(s.cache.retry, s.now, cfg.batchSize);
    var t := DoPoll(cfg, s, p);
    if e in due {
      DueIsDue(s.cache.retry, s.now, cfg.batchSize, e);
      assert DueNow(t, e);
    } else {
      FreshKept(s, t, e);
    }
  }

  lemma PromoteFresh(s: State, p: nat, e: nat)
    requires Fresh(s, e) && OnePoller(s, e) && p in s.pollers
    ensures Fresh(DoPromote(s, p), e)
  {
    var t := DoPromote(s, p);
    if s.pollers[p].Removing? && e in s.pollers[p].due {
      forall q | q in t.pollers && t.pollers[q].Removing? ensures e !in t.pollers[q].due {
        assert Carriers.PolledBy(s, p, e) && (e in t.pollers[q].due ==> Carriers.PolledBy(s, q, e));
      }
    } else {
      if s.pollers[p].Removing? { WithoutContents(s.cache.retry, Ids(s.pollers[p].due)); }
      FreshKept(s, t, e);
    }
  }

  lemma SlotOrHand(s: State, w: nat, e: nat)
    requires Single(s, e) && DueNow(s, e)
    ensures !InHands(s, w, e)
  {
    var x :| x in s.cache.retry && x.id == e;
    assert x.id in Members(s.cache.retry);
    if InHands(s, w, e) {
      SingleHand(s, w, e);
    }
  }

  lemma OtherSlot(cfg: Config, now: nat, u: real, x: nat, i: nat, db: Db, cache: Cache, stage: Stage, e: nat)
    requires !stage.Release? && x != e
    ensures forall y | y in cache.retry && y.id == e ::
              y in HandleCommand(cfg, now, u, x, i, db, cache, stage).cache.retry
  {
    if stage.Reschedule? {
      AddContents(cache.retry, x, now + NonNegative(BackoffMs(stage.attempts, u)));
    }
  }

  lemma CommandKeepsSlot(cfg: Config, s: State, w: nat, i: nat, end: nat, job: Job, fault: Fault, u: real, e: nat)
    requires w in s.workers && s.workers[w] == Working(i, end, job) && !job.stage.Release? && job.event != e
    ensures forall x | x in s.cache.retry && x.id == e :: x in DoCommand(cfg, s, w, i, end, job, fault, u).cache.retry
  {
    OtherSlot(cfg, s.now, u, job.event, i, s.db, s.cache, job.stage, e);
  }

  lemma WorkKeepsSlot(cfg: Config, s: State, w: nat, fault: Fault, u: real, e: nat)
    requires w in s.workers && Single(s, e) && DueNow(s, e)
    ensures forall x | x in s.cache.retry && x.id == e :: x in DoWork(cfg, s, w, fault, u).cache.retry
  {
    match s.workers[w] {
      case Working(i, end, job) =>
        SlotOrHand(s, w, e);
        if !job.stage.Release? { CommandKeepsSlot(cfg, s, w, i, end, job, fault, u, e); }
      case Reading => ReadEffect(cfg, s, w, fault);
      case Locking(i, end) =>
      case Skipping(i, end) =>
    }
  }

  lemma WorkFresh(cfg: Config, s: State, w: nat, fault: Fault, u: real, e: nat)
    requires Fresh(s, e) && Single(s, e) && w in s.workers
    ensures Fresh(DoWork(cfg, s, w, fault, u), e)
  {
    WorkKeepsPollers(cfg, s, w, fault, u);
    if DueNow(s, e) { WorkKeepsSlot(cfg, s, w, fault, u, e); }
    FreshKept(s, DoWork(cfg, s, w, fault, u), e);
  }

  lemma FreshStep(cfg: Config, s: State, step: Step, e: nat)
    requires Fresh(s, e) && OnePoller(s, e) && Single(s, e)
    ensures Fresh(Apply(cfg, s, step), e)
  {
    match step {
      case Work(w, fault, u) => if w in s.workers { WorkFresh(cfg, s, w, fault, u, e); }
      case Promote(p) => if p in s.pollers { PromoteFresh(s, p, e); }
      case Poll(p) => if p !in s.pollers { PollFresh(cfg, s, p, e); }
      case Handle(h, id) => if h in s.handlers { HandleRetry(cfg, s, h, id); FreshKept(s, DoHandle(cfg, s, h, id), e); }
      case _ =>
        AsideQueues(cfg, s, step);
        AsidePollers(cfg, s, step);
        FreshKept(s, Apply(cfg, s, step), e);
    }
  }

  lemma HandleRetry(cfg: Config, s: State, h: nat, id: nat)
    requires h in s.handlers
    ensures var t := DoHandle(cfg, s, h, id);
            t.cache.retry == s.cache.retry && t.pollers == s.pollers && t.now == s.now
  {}

  lemma AsidePollers(cfg: Config, s: State, step: Step)
    requires Aside(step) && !step.Poll?
    ensures forall p | p in Apply(cfg, s, step).pollers ::
              p in s.pollers && Apply(cfg, s, step).pollers[p] == s.pollers[p]
  {}

  /** Of an event published once, a poller's promotions always match as long as no two pollers
      ever have it between reading it and publishing it. */
  lemma {:induction false} OnePollerNeverStale(cfg: Config, steps: seq<Step>, e: nat)
    requires TallyOf(cfg, steps, e).published <= 1 && OnePollerRun(cfg, steps, e)
    ensures NeverStale(cfg, steps, e) && Fresh(Exec(cfg, steps), e)
  {
    if steps != [] {
      var before := steps[..|steps| - 1];
      var s, step := Exec(cfg, before), steps[|steps| - 1];
      PublishedGrows(s, step, e, TallyOf(cfg, before, e));
      OnePollerNeverStale(cfg, before, e);
      CourseAlways(cfg, before, e);
      AccountsAlways(cfg, before, e);
      FreshStep(cfg, s, step, e);
    }
  }

  // ---------- publications ----------

  lemma OneGateway(cfg: Config, s: State, h: nat, e: nat, g: nat, last: Db)
    requires Inv(cfg, s) && Grows(s.db, last) && EventsOk(last) && g in last.byGateway && last.byGateway[g] == e
    requires h in s.handlers && s.handlers[h].Publishing?
    ensures s.handlers[h].event == e <==> Intake.Past(s, h, g)
  {
    assert HandlerOk(s.db, s.handlers[h]);
    var x := s.handlers[h].event;
    assert EventOk(s.db, x);
    var own := s.db.events[x].gatewayId;
    assert last.byGateway[own] == x;
    assert last.events[last.byGateway[own]].gatewayId == own;
  }

  lemma PublicationCounted(cfg: Config, s: State, step: Step, e: nat, g: nat, last: Db, y: Tally)
    requires Inv(cfg, s) && Grows(s.db, last) && EventsOk(last) && g in last.byGateway && last.byGateway[g] == e
    ensures Count(s, step, e, y).published == y.published
              + if step.Handle? && Intake.Past(s, step.h, g) && s.handlers[step.h].Publishing? then 1 else 0
  {
    if step.Handle? && step.h in s.handlers && s.handlers[step.h].Publishing? {
      OneGateway(cfg, s, step.h, e, g, last);
    }
  }

  lemma {:induction false} PublicationsUpTo(cfg: Config, steps: seq<Step>, n: nat, e: nat, g: nat)
    requires n <= |steps| && g in Exec(cfg, steps).db.byGateway && Exec(cfg, steps).db.byGateway[g] == e
    ensures TallyOf(cfg, steps[..n], e).published == Spacing.Publications(cfg, steps[..n], g)
  {
    if n != 0 {
      PublicationsUpTo(cfg, steps, n - 1, e, g);
      var s, step := Exec(cfg, steps[..n - 1]), steps[n - 1];
      assert steps[..n][..n - 1] == steps[..n - 1];
      Integrity.Always(cfg, steps[..n - 1]);
      Integrity.Always(cfg, steps);
      FactsStand(cfg, steps, n - 1);
      PublicationCounted(cfg, s, step, e, g, Exec(cfg, steps).db, TallyOf(cfg, steps[..n - 1], e));
    }
  }

  /** The publications of an event are those of its gateway id; so within the lifetime of its
      key an event is published at most once. */
  lemma {:induction false} PublishedOnceInLifetime(cfg: Config, steps: seq<Step>, e: nat, g: nat)
    requires g in Exec(cfg, steps).db.byGateway && Exec(cfg, steps).db.byGateway[g] == e
    ensures TallyOf(cfg, steps, e).published == Spacing.Publications(cfg, steps, g)
    ensures Exec(cfg, steps).now < cfg.idempotencyTtl ==> TallyOf(cfg, steps, e).published <= 1
  {
    PublicationsUpTo(cfg, steps, |steps|, e, g);
    assert steps[..|steps|] == steps;
    Spacing.PublicationsBounded(cfg, steps, g);
    NoLifetimeYet(Exec(cfg, steps).now, cfg.idempotencyTtl);
  }

  lemma NoLifetimeYet(now: nat, ttl: pos)
    ensures now < ttl ==> now / ttl == 0
  {}
}
