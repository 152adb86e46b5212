/** The course of an event that intake publishes once, as long as a poller takes out only what
    is there and due: where its only copy is, how many runs, failures and retries it has had by
    then, and when.  Every step of the pipeline keeps to it: a worker's command moves the copy
    along the run or the failure handler, a poller's promotion moves it back to the stream. */
module Retries {
  import opened Domain
  import opened Backoff
  import opened SortedSet
  import opened Tables
  import opened Pipeline
  import opened Integrity
  import opened Leases
  import opened Delivery
  import opened Copies
  import Accounting
  import Spacing

  // ---------- promotions that match their retries ----------

  /** The schedule holds a due entry for the event. */
  predicate DueNow(s: State, e: nat) { exists x :: x in s.cache.retry && x.id == e && x.score <= s.now }

  /** A poller removes the event from the schedule though its entry is gone or not due, since
      another poller has removed it since this one read it. */
  ghost predicate Stale(s: State, step: Step, e: nat) { TakesOut(s, step, e) && !DueNow(s, e) }

  ghost predicate NeverStale(cfg: Config, steps: seq<Step>, e: nat) {
    steps != [] ==>
      && NeverStale(cfg, steps[..|steps| - 1], e)
      && !Stale(Exec(cfg, steps[..|steps| - 1]), steps[|steps| - 1], e)
  }

  /** Each promotion is of its own scheduled retry, and not before that is due. */
  predicate Punctual(y: Tally) { TakenWhenDue(y.scheduled, y.taken) }

  // ---------- where an event stands ----------

  /** Every failure so far has led to a retry, and every retry to a message. */
  predicate Level(cfg: Config, y: Tally) {
    |y.runs| == |y.failures| == |y.scheduled| == |y.taken| < cfg.maxAttempts
  }

  /** Every failure so far but the last has. */
  predicate Behind(cfg: Config, y: Tally, n: nat) {
    |y.runs| == |y.failures| == n == |y.scheduled| + 1 && |y.scheduled| == |y.taken| && n <= cfg.maxAttempts
  }

  ghost predicate HandOk(cfg: Config, dead: bool, y: Tally, stage: Stage) {
    match stage
    case FindEvent => Level(cfg, y) && !dead
    case AckFailed(n) => Behind(cfg, y, n) && !dead
    case Bury(n) => Behind(cfg, y, n) && n == cfg.maxAttempts && !dead
    case MarkBuried => dead
    case MarkFailedState(n) => Behind(cfg, y, n) && n < cfg.maxAttempts && !dead
    case Reschedule(n) => Behind(cfg, y, n) && n < cfg.maxAttempts && !dead
    case _ =>
      |y.runs| == |y.failures| + 1 && |y.failures| == |y.scheduled| == |y.taken| < cfg.maxAttempts && !dead
  }

  predicate RunsWait(runs: seq<nat>, failures: seq<nat>) {
    |runs| <= |failures| + 1 && forall k | 1 <= k < |runs| :: failures[k - 1] + BaseDelay(k) <= runs[k]
  }

  predicate FailuresFollow(runs: seq<nat>, failures: seq<nat>) {
    |failures| <= |runs| && forall k | 0 <= k < |failures| :: runs[k] <= failures[k]
  }

  predicate RetriesWait(failures: seq<nat>, scheduled: seq<nat>) {
    |scheduled| <= |failures| && forall k | 0 <= k < |scheduled| :: failures[k] + BaseDelay(k + 1) <= scheduled[k]
  }

  predicate TakenWhenDue(scheduled: seq<nat>, taken: seq<nat>) {
    |taken| <= |scheduled| && forall k | 0 <= k < |taken| :: scheduled[k] <= taken[k]
  }

  predicate Past(times: seq<nat>, now: nat) { forall k | 0 <= k < |times| :: times[k] <= now }

  /** The times: a run starts after the delay of the failure before it, by way of a retry that
      is taken out when due. */
  predicate Chain(y: Tally, now: nat) {
    && RunsWait(y.runs, y.failures) && FailuresFollow(y.runs, y.failures)
    && RetriesWait(y.failures, y.scheduled) && TakenWhenDue(y.scheduled, y.taken)
    && Past(y.runs, now) && Past(y.failures, now) && Past(y.taken, now)
  }

  /** The numbers of an event with a dead letter. */
  predicate Exhausted(cfg: Config, y: Tally) {
    |y.runs| == |y.failures| == cfg.maxAttempts && |y.scheduled| == |y.taken| == cfg.maxAttempts - 1
  }

  /** What is true of the numbers wherever the copy is. */
  predicate Numbers(cfg: Config, y: Tally, slots: nat) {
    && |y.runs| <= cfg.maxAttempts && |y.scheduled| < cfg.maxAttempts && |y.scheduled| == |y.taken| + slots
    && (y.published == 0 ==> y.runs == y.failures == y.scheduled == y.taken == [])
  }

  ghost predicate OutsideOk(cfg: Config, s: State, e: nat, y: Tally) {
    && (Entries(s, e) != {} || Pollers(s, e) != {} ==> Level(cfg, y) && e !in s.db.deadLetters)
    && (e in Members(s.cache.retry) ==>
          |y.runs| == |y.failures| == |y.scheduled| && |y.scheduled| > 0 && e !in s.db.deadLetters
          && forall x | x in s.cache.retry && x.id == e :: x.score == y.scheduled[|y.scheduled| - 1])
  }

  ghost predicate HandsOk(cfg: Config, s: State, e: nat, y: Tally) {
    forall w | InHands(s, w, e) :: HandOk(cfg, e in s.db.deadLetters, y, JobOf(s, w).stage)
  }

  ghost predicate BuriedOk(cfg: Config, db: Db, e: nat, y: Tally) {
    e in db.deadLetters ==> Exhausted(cfg, y) && db.deadLetters[e].attempts == cfg.maxAttempts
  }

  ghost predicate Course(cfg: Config, s: State, e: nat, y: Tally) {
    && Chain(y, s.now) && Numbers(cfg, y, Slots(s, e))
    && OutsideOk(cfg, s, e, y) && HandsOk(cfg, s, e, y) && BuriedOk(cfg, s.db, e, y)
  }

  /** At most one copy, as the accounts give it for one publication and no stale promotion. */
  ghost predicate Single(s: State, e: nat) { Outside(s, e) + |Hands(s, e)| <= 1 }

  ghost predicate Few(s: State, e: nat, y: Tally) {
    Outside(s, e) + |Hands(s, e)| <= y.published <= 1 && AttemptsOf(s.db, e) == |y.failures|
  }

  lemma SingleHand(s: State, w: nat, e: nat)
    requires Single(s, e) && InHands(s, w, e)
    ensures Entries(s, e) == {} && Pollers(s, e) == {} && e !in Members(s.cache.retry)
    ensures forall v | InHands(s, v, e) :: v == w
  {
    assert w in Hands(s, e);
    assert {w} <= Hands(s, e);
    Spacing.SubsetSize({w}, Hands(s, e));
    forall v | InHands(s, v, e) ensures v == w {
      if v != w {
        assert {v, w} <= Hands(s, e);
        Spacing.SubsetSize({v, w}, Hands(s, e));
      }
    }
  }

  lemma SingleOutside(s: State, e: nat)
    requires Single(s, e) && Outside(s, e) == 1
    ensures forall w :: !InHands(s, w, e)
  {
    forall w ensures !InHands(s, w, e) {
      assert InHands(s, w, e) ==> w in Hands(s, e);
    }
  }

  // ---------- one step ----------

  /** Nothing happens to the event, or some of its copies get lost. */
  ghost predicate Unmoved(s: State, t: State, e: nat) {
    && Kept(s, t, e) && s.now <= t.now
    && (e in t.db.deadLetters <==> e in s.db.deadLetters)
    && (e in s.db.deadLetters ==> t.db.deadLetters[e] == s.db.deadLetters[e])
    && (forall x | x in t.cache.retry && x.id == e :: x in s.cache.retry)
  }

  predicate SameTimes(y: Tally, z: Tally) {
    z.runs == y.runs && z.failures == y.failures && z.scheduled == y.scheduled && z.taken == y.taken
  }

  lemma ChainLater(y: Tally, z: Tally, now: nat, later: nat)
    requires Chain(y, now) && now <= later && SameTimes(y, z)
    ensures Chain(z, later)
  {}

  lemma OutsideKept(cfg: Config, s: State, t: State, e: nat, y: Tally, z: Tally)
    requires OutsideOk(cfg, s, e, y) && Unmoved(s, t, e) && SameTimes(y, z)
    ensures OutsideOk(cfg, t, e, z)
  {}

  lemma HandsKept(cfg: Config, s: State, t: State, e: nat, y: Tally, z: Tally)
    requires HandsOk(cfg, s, e, y) && Unmoved(s, t, e) && SameTimes(y, z)
    ensures HandsOk(cfg, t, e, z)
  {}

  lemma CourseKept(cfg: Config, s: State, t: State, e: nat, y: Tally, z: Tally)
    requires Course(cfg, s, e, y) && Unmoved(s, t, e) && SameTimes(y, z) && y.published <= z.published
    ensures Course(cfg, t, e, z)
  {
    ChainLater(y, z, s.now, t.now);
    OutsideKept(cfg, s, t, e, y, z);
    HandsKept(cfg, s, t, e, y, z);
  }

  // ---------- steps outside the workers ----------

  lemma AsideCourse(cfg: Config, s: State, step: Step, e: nat, y: Tally)
    requires Course(cfg, s, e, y) && Aside(step)
    ensures Course(cfg, Apply(cfg, s, step), e, y)
  {
    AsideKept(cfg, s, step, e);
    AsideQueues(cfg, s, step);
    AsideEvents(cfg, s, step);
    CourseKept(cfg, s, Apply(cfg, s, step), e, y, y);
  }

  lemma FirstPublication(cfg: Config, s: State, h: nat, id: nat, e: nat, y: Tally)
    requires Course(cfg, s, e, y) && Few(s, e, y) && QueueOk(s) && y.published == 0
    requires h in s.handlers && s.handlers[h] == Publishing(e)
    ensures Course(cfg, DoHandle(cfg, s, h, id), e, y.(published := 1))
  {
    var t := DoHandle(cfg, s, h, id);
    forall w ensures !InHands(t, w, e) {
      assert InHands(t, w, e) ==> w in Hands(s, e);
    }
  }

  lemma OtherPublication(cfg: Config, s: State, h: nat, id: nat, e: nat, y: Tally)
    requires Course(cfg, s, e, y) && QueueOk(s)
    requires h in s.handlers && s.handlers[h].Publishing? && s.handlers[h].event != e
    ensures Course(cfg, DoHandle(cfg, s, h, id), e, y)
  {
    var t := DoHandle(cfg, s, h, id);
    Appended(s, t, s.handlers[h].event, e);
    CourseKept(cfg, s, t, e, y, y);
  }

  lemma HandleCourse(cfg: Config, s: State, h: nat, id: nat, e: nat, y: Tally)
    requires Course(cfg, s, e, y) && Few(s, e, y) && Inv(cfg, s) && h in s.handlers
    requires Count(s, Handle(h, id), e, y).published <= 1
    ensures Course(cfg, DoHandle(cfg, s, h, id), e, Count(s, Handle(h, id), e, y))
  {
    if s.handlers[h] == Publishing(e) {
      FirstPublication(cfg, s, h, id, e, y);
    } else if s.handlers[h].Publishing? {
      OtherPublication(cfg, s, h, id, e, y);
    } else {
      HandleKept(cfg, s, h, id, e);
      HandleEffect(cfg, s, h, id, e);
      CourseKept(cfg, s, DoHandle(cfg, s, h, id), e, y, y);
    }
  }

  lemma PastMore(times: seq<nat>, now: nat)
    requires Past(times, now)
    ensures Past(times + [now], now)
  {}

  lemma TakenMore(scheduled: seq<nat>, taken: seq<nat>, now: nat)
    requires TakenWhenDue(scheduled, taken) && |taken| < |scheduled|
    ensures TakenWhenDue(scheduled, taken + [now]) <==> scheduled[|taken|] <= now
  {
    assert (taken + [now])[|taken|] == now;
  }

  lemma ChainTaken(cfg: Config, y: Tally, now: nat)
    requires Chain(y, now) && |y.taken| < |y.scheduled| && y.scheduled[|y.taken|] <= now
    ensures Chain(y.(taken := y.taken + [now]), now)
  {
    TakenMore(y.scheduled, y.taken, now);
    PastMore(y.taken, now);
  }

  lemma TakeOutCourse(cfg: Config, s: State, p: nat, e: nat, y: Tally)
    requires Course(cfg, s, e, y) && Single(s, e) && DueNow(s, e)
    requires p in s.pollers && s.pollers[p].Removing? && e in s.pollers[p].due
    ensures Course(cfg, DoPromote(s, p), e, y.(taken := y.taken + [s.now]))
  {
    var t := DoPromote(s, p);
    TakeOutPlaces(s, p, e);
    var x :| x in s.cache.retry && x.id == e && x.score <= s.now;
    assert Slots(s, e) == 1;
    ChainTaken(cfg, y, s.now);
    SingleOutside(s, e);
    forall w ensures !InHands(t, w, e) {
      assert InHands(t, w, e) <==> InHands(s, w, e);
    }
  }

  lemma OtherTakeOutCourse(cfg: Config, s: State, p: nat, e: nat, y: Tally)
    requires Course(cfg, s, e, y) && p in s.pollers && s.pollers[p].Removing? && e !in s.pollers[p].due
    ensures Course(cfg, DoPromote(s, p), e, y)
  {
    var t := DoPromote(s, p);
    TakeOutPlaces(s, p, e);
    WithoutContents(s.cache.retry, Ids(s.pollers[p].due));
    CourseKept(cfg, s, t, e, y, y);
  }

  lemma RepublishCourse(cfg: Config, s: State, p: nat, e: nat, y: Tally)
    requires Course(cfg, s, e, y) && Inv(cfg, s) && PollersOnce(s) && p in s.pollers && s.pollers[p].Promoting?
    ensures Course(cfg, DoPromote(s, p), e, y)
  {
    var t := DoPromote(s, p);
    var rest := s.pollers[p].rest;
    RepublishPlaces(s, p, e);
    if rest != [] {
      RepublishPollers(s, p, e);
    }
    assert Entries(t, e) != {} ==> Entries(s, e) != {} || Pollers(s, e) != {};
    forall w ensures InHands(t, w, e) <==> InHands(s, w, e) {}
  }

  lemma CountTakenOut(s: State, p: nat, e: nat, y: Tally)
    requires DueNow(s, e) && TakesOut(s, Promote(p), e)
    ensures Count(s, Promote(p), e, y) == y.(taken := y.taken + [s.now])
  {
    var x :| x in s.cache.retry && x.id == e && x.score <= s.now;
    assert x.id in Members(s.cache.retry);
  }

  lemma CountNotTaken(s: State, p: nat, e: nat, y: Tally)
    requires !TakesOut(s, Promote(p), e)
    ensures Count(s, Promote(p), e, y) == y
  {}

  lemma PromoteCourse(cfg: Config, s: State, p: nat, e: nat, y: Tally)
    requires Course(cfg, s, e, y) && Single(s, e) && Inv(cfg, s) && PollersOnce(s) && p in s.pollers
    requires TakesOut(s, Promote(p), e) ==> DueNow(s, e)
    ensures Course(cfg, DoPromote(s, p), e, Count(s, Promote(p), e, y))
  {
    if s.pollers[p].Promoting? {
      CountNotTaken(s, p, e, y);
      RepublishCourse(cfg, s, p, e, y);
    } else if TakesOut(s, Promote(p), e) {
      CountTakenOut(s, p, e, y);
      TakeOutCourse(cfg, s, p, e, y);
    } else {
      CountNotTaken(s, p, e, y);
      OtherTakeOutCourse(cfg, s, p, e, y);
    }
  }

  // ---------- steps of the workers ----------

  lemma LockCourse(cfg: Config, s: State, w: nat, i: nat, end: nat, fault: Fault, e: nat, y: Tally, locks: nat)
    requires Course(cfg, s, e, y) && Single(s, e) && Partitioned(s)
    requires w in s.workers && s.workers[w] == Locking(i, end) && i < end && i < |s.cache.log|
    ensures Course(cfg, DoLock(cfg, s, w, i, end, fault), e, y.(locks := locks))
  {
    var t := DoLock(cfg, s, w, i, end, fault);
    LockEffect(cfg, s, w, i, end, fault);
    if s.cache.log[i] != e || !t.workers[w].Working? {
      LockKept(cfg, s, w, i, end, fault, e);
      CourseKept(cfg, s, t, e, y, y.(locks := locks));
    } else {
      LockTakesEntry(cfg, s, w, i, end, fault);
      TakenInHand(cfg, s, t, w, i, e, y, locks);
    }
  }

  lemma TakenInHand(cfg: Config, s: State, t: State, w: nat, i: nat, e: nat, y: Tally, locks: nat)
    requires Course(cfg, s, e, y) && Single(s, e) && i in Entries(s, e) && Entries(t, e) <= Entries(s, e)
    requires t.cache.retry == s.cache.retry && t.pollers == s.pollers && t.db == s.db && t.now == s.now
    requires w in t.workers && t.workers == s.workers[w := t.workers[w]]
    requires InHands(t, w, e) && JobOf(t, w).stage.FindEvent?
    ensures Course(cfg, t, e, y.(locks := locks))
  {
    Spacing.SubsetSize({i}, Entries(s, e));
    SingleOutside(s, e);
    assert Pollers(t, e) == Pollers(s, e);
    forall v | InHands(t, v, e) ensures v == w {
      assert v != w ==> InHands(s, v, e);
    }
  }

  /** A command of the worker that has the only copy in hand. */
  lemma CommandAlone(cfg: Config, s: State, w: nat, i: nat, end: nat, job: Job, fault: Fault, u: real, y: Tally)
    requires Single(s, job.event) && Course(cfg, s, job.event, y)
    requires w in s.workers && s.workers[w] == Working(i, end, job) && !job.stage.Release?
    ensures var t := DoCommand(cfg, s, w, i, end, job, fault, u); var e := job.event;
            && Entries(t, e) == {} && Pollers(t, e) == {} && Slots(s, e) == 0
            && Slots(t, e) == (if job.stage.Reschedule? && !fault.Before? then 1 else 0)
            && IsWorking(t, w) && JobOf(t, w).event == e && (forall v | InHands(t, v, e) :: v == w)
            && HandOk(cfg, e in s.db.deadLetters, y, job.stage)
  {
    var t := DoCommand(cfg, s, w, i, end, job, fault, u);
    assert InHands(s, w, job.event) && JobOf(s, w) == job;
    SingleHand(s, w, job.event);
    CommandPlaces(cfg, s, w, i, end, job, fault, u);
    forall v | InHands(t, v, job.event) ensures v == w {
      assert v != w ==> InHands(s, v, job.event);
    }
  }

  /** What such a command leaves to be shown. */
  lemma AloneCourse(cfg: Config, t: State, w: nat, e: nat, z: Tally)
    requires Chain(z, t.now) && Numbers(cfg, z, Slots(t, e)) && BuriedOk(cfg, t.db, e, z)
    requires Entries(t, e) == {} && Pollers(t, e) == {} && IsWorking(t, w) && forall v | InHands(t, v, e) :: v == w
    requires InHands(t, w, e) ==> HandOk(cfg, e in t.db.deadLetters, z, JobOf(t, w).stage)
    requires e in Members(t.cache.retry) ==> OutsideOk(cfg, t, e, z)
    ensures Course(cfg, t, e, z)
  {}

  lemma DeadUnchanged(cfg: Config, now: nat, u: real, x: nat, i: nat, db: Db, cache: Cache, stage: Stage)
    requires !stage.Release? && !stage.Bury?
    ensures HandleCommand(cfg, now, u, x, i, db, cache, stage).db.deadLetters == db.deadLetters
  {}

  lemma RunsWaitMore(runs: seq<nat>, failures: seq<nat>, now: nat)
    requires RunsWait(runs, failures) && |runs| == |failures|
    requires runs != [] ==> failures[|runs| - 1] + BaseDelay(|runs|) <= now
    ensures RunsWait(runs + [now], failures)
  {}

  lemma FollowLonger(runs: seq<nat>, failures: seq<nat>, now: nat)
    requires FailuresFollow(runs, failures)
    ensures FailuresFollow(runs + [now], failures)
  {}

  lemma LastDelay(failures: seq<nat>, scheduled: seq<nat>, taken: seq<nat>, now: nat)
    requires RetriesWait(failures, scheduled) && TakenWhenDue(scheduled, taken) && Past(taken, now)
    requires |failures| == |scheduled| == |taken| > 0
    ensures failures[|failures| - 1] + BaseDelay(|failures|) <= now
  {
    var k := |failures| - 1;
    assert failures[k] + BaseDelay(k + 1) <= scheduled[k] <= taken[k] <= now;
  }

  lemma ChainRun(y: Tally, now: nat)
    requires Chain(y, now) && |y.runs| == |y.failures| == |y.scheduled| == |y.taken|
    ensures Chain(y.(runs := y.runs + [now]), now)
  {
    if y.runs != [] {
      LastDelay(y.failures, y.scheduled, y.taken, now);
    }
    RunsWaitMore(y.runs, y.failures, now);
    FollowLonger(y.runs, y.failures, now);
    PastMore(y.runs, now);
  }

  lemma RunStarts(cfg: Config, s: State, w: nat, i: nat, end: nat, job: Job, fault: Fault, u: real, y: Tally)
    requires Single(s, job.event) && Course(cfg, s, job.event, y) && job.stage.FindEvent? && y.published > 0
    requires w in s.workers && s.workers[w] == Working(i, end, job)
    ensures Course(cfg, DoCommand(cfg, s, w, i, end, job, fault, u), job.event, y.(runs := y.runs + [s.now]))
  {
    var t := DoCommand(cfg, s, w, i, end, job, fault, u);
    CommandAlone(cfg, s, w, i, end, job, fault, u, y);
    DeadUnchanged(cfg, s.now, u, job.event, i, s.db, s.cache, job.stage);
    ChainRun(y, s.now);
    AloneCourse(cfg, t, w, job.event, y.(runs := y.runs + [s.now]));
  }

  /** The commands of a run after its first, and its acknowledgement. */
  lemma RunGoesOn(cfg: Config, s: State, w: nat, i: nat, end: nat, job: Job, fault: Fault, u: real, y: Tally)
    requires Single(s, job.event) && Course(cfg, s, job.event, y)
    requires (InRun(job.stage) && !job.stage.FindEvent?) || job.stage.AckReturned?
    requires w in s.workers && s.workers[w] == Working(i, end, job)
    ensures Course(cfg, DoCommand(cfg, s, w, i, end, job, fault, u), job.event, y)
  {
    CommandAlone(cfg, s, w, i, end, job, fault, u, y);
    DeadUnchanged(cfg, s.now, u, job.event, i, s.db, s.cache, job.stage);
    AloneCourse(cfg, DoCommand(cfg, s, w, i, end, job, fault, u), w, job.event, y);
  }

  lemma RunsWaitLonger(runs: seq<nat>, failures: seq<nat>, now: nat)
    requires RunsWait(runs, failures)
    ensures RunsWait(runs, failures + [now])
  {}

  lemma FollowMore(runs: seq<nat>, failures: seq<nat>, now: nat)
    requires FailuresFollow(runs, failures) && Past(runs, now) && |failures| < |runs|
    ensures FailuresFollow(runs, failures + [now])
  {}

  lemma RetriesWaitLonger(failures: seq<nat>, scheduled: seq<nat>, now: nat)
    requires RetriesWait(failures, scheduled)
    ensures RetriesWait(failures + [now], scheduled)
  {}

  lemma ChainFailure(y: Tally, now: nat)
    requires Chain(y, now) && |y.runs| == |y.failures| + 1
    ensures Chain(y.(failures := y.failures + [now]), now)
  {
    RunsWaitLonger(y.runs, y.failures, now);
    FollowMore(y.runs, y.failures, now);
    RetriesWaitLonger(y.failures, y.scheduled, now);
    PastMore(y.failures, now);
  }

  lemma IncrementEffect(cfg: Config, s: State, w: nat, i: nat, end: nat, job: Job, fault: Fault, u: real)
    requires w in s.workers && s.workers[w] == Working(i, end, job) && job.stage.Increment? && job.event in s.db.events
    ensures var t := DoCommand(cfg, s, w, i, end, job, fault, u);
            && t.db.deadLetters == s.db.deadLetters && t.now == s.now && t.cache == s.cache && IsWorking(t, w)
            && JobOf(t, w).stage
               == if fault.NoFault? then AckFailed(AttemptsOf(s.db, job.event) + 1) else Release(Aborted)
  {}

  /** The times and numbers when the failure has been counted. */
  lemma FailedCourse(cfg: Config, s: State, t: State, w: nat, e: nat, y: Tally)
    requires Chain(y, s.now) && Numbers(cfg, y, 0) && |y.runs| == |y.failures| + 1 && |y.failures| == |y.scheduled|
    requires t.now == s.now && e !in t.db.deadLetters && Slots(t, e) == 0
    requires Entries(t, e) == {} && Pollers(t, e) == {} && IsWorking(t, w) && forall v | InHands(t, v, e) :: v == w
    requires JobOf(t, w).stage == AckFailed(|y.failures| + 1) || JobOf(t, w).stage.Release?
    ensures Course(cfg, t, e, y.(failures := y.failures + [s.now]))
  {
    ChainFailure(y, s.now);
  }

  lemma FailureCounted(cfg: Config, s: State, w: nat, i: nat, end: nat, job: Job, fault: Fault, u: real, y: Tally)
    requires Single(s, job.event) && Course(cfg, s, job.event, y) && job.stage.Increment? && job.event in s.db.events
    requires AttemptsOf(s.db, job.event) == |y.failures|
    requires w in s.workers && s.workers[w] == Working(i, end, job)
    ensures Course(cfg, DoCommand(cfg, s, w, i, end, job, fault, u), job.event,
                   CountCommand(s.now, fault, u, job.stage, y))
  {
    var t := DoCommand(cfg, s, w, i, end, job, fault, u);
    CommandAlone(cfg, s, w, i, end, job, fault, u, y);
    IncrementEffect(cfg, s, w, i, end, job, fault, u);
    if fault.Before? {
      AloneCourse(cfg, t, w, job.event, y);
    } else {
      FailedCourse(cfg, s, t, w, job.event, y);
    }
  }

  /** The commands of the failure handler that neither bury nor reschedule. */
  lemma HandlerGoesOn(cfg: Config, s: State, w: nat, i: nat, end: nat, job: Job, fault: Fault, u: real, y: Tally)
    requires Single(s, job.event) && Course(cfg, s, job.event, y)
    requires job.stage.AckFailed? || job.stage.MarkBuried? || job.stage.MarkFailedState?
    requires w in s.workers && s.workers[w] == Working(i, end, job)
    ensures Course(cfg, DoCommand(cfg, s, w, i, end, job, fault, u), job.event, y)
  {
    CommandAlone(cfg, s, w, i, end, job, fault, u, y);
    DeadUnchanged(cfg, s.now, u, job.event, i, s.db, s.cache, job.stage);
    AloneCourse(cfg, DoCommand(cfg, s, w, i, end, job, fault, u), w, job.event, y);
  }

  lemma BuriesOnce(cfg: Config, s: State, w: nat, i: nat, end: nat, job: Job, fault: Fault, u: real, y: Tally)
    requires Single(s, job.event) && Course(cfg, s, job.event, y) && job.stage.Bury? && job.event in s.db.events
    requires w in s.workers && s.workers[w] == Working(i, end, job)
    ensures Course(cfg, DoCommand(cfg, s, w, i, end, job, fault, u), job.event, y)
  {
    CommandAlone(cfg, s, w, i, end, job, fault, u, y);
    AloneCourse(cfg, DoCommand(cfg, s, w, i, end, job, fault, u), w, job.event, y);
  }

  lemma RetriesWaitMore(failures: seq<nat>, scheduled: seq<nat>, at: nat)
    requires RetriesWait(failures, scheduled) && |scheduled| < |failures|
    requires failures[|scheduled|] + BaseDelay(|scheduled| + 1) <= at
    ensures RetriesWait(failures, scheduled + [at])
  {}

  lemma TakenLonger(scheduled: seq<nat>, taken: seq<nat>, at: nat)
    requires TakenWhenDue(scheduled, taken)
    ensures TakenWhenDue(scheduled + [at], taken)
  {}

  lemma ChainScheduled(y: Tally, now: nat, n: nat, u: real)
    requires Chain(y, now) && n == |y.failures| == |y.scheduled| + 1 && IsDraw(u)
    ensures Chain(y.(scheduled := y.scheduled + [now + NonNegative(BackoffMs(n, u))]), now)
  {
    BackoffWithinBounds(n, u);
    assert y.failures[n - 1] <= now;
    RetriesWaitMore(y.failures, y.scheduled, now + NonNegative(BackoffMs(n, u)));
    TakenLonger(y.scheduled, y.taken, now + NonNegative(BackoffMs(n, u)));
  }

  /** The times and numbers when the retry has been scheduled. */
  lemma ScheduledCourse(cfg: Config, s: State, t: State, w: nat, e: nat, n: nat, u: real, y: Tally)
    requires Chain(y, s.now) && Numbers(cfg, y, 0) && Behind(cfg, y, n) && n < cfg.maxAttempts && IsDraw(u)
    requires BuriedOk(cfg, s.db, e, y) && e !in s.db.deadLetters && t.db == s.db && t.now == s.now
    requires Entries(t, e) == {} && Pollers(t, e) == {} && IsWorking(t, w) && !InHands(t, w, e)
    requires forall v | InHands(t, v, e) :: v == w
    requires Slots(t, e) == 1 && t.cache.retry == Add(s.cache.retry, e, s.now + NonNegative(BackoffMs(n, u)))
    ensures Course(cfg, t, e, y.(scheduled := y.scheduled + [s.now + NonNegative(BackoffMs(n, u))]))
  {
    ChainScheduled(y, s.now, n, u);
    AddContents(s.cache.retry, e, s.now + NonNegative(BackoffMs(n, u)));
  }

  lemma RescheduleEffect(cfg: Config, s: State, w: nat, i: nat, end: nat, job: Job, fault: Fault, u: real)
    requires w in s.workers && s.workers[w] == Working(i, end, job) && job.stage.Reschedule?
    ensures var t := DoCommand(cfg, s, w, i, end, job, fault, u);
            && t.db == s.db && t.now == s.now && w in t.workers && !InHands(t, w, job.event)
            && t.cache == if fault.Before? then s.cache
                          else Tables.Schedule(s.cache, job.event,
                                               s.now + NonNegative(BackoffMs(job.stage.attempts, u)))
  {}

  lemma RetryScheduled(cfg: Config, s: State, w: nat, i: nat, end: nat, job: Job, fault: Fault, u: real, y: Tally)
    requires Single(s, job.event) && Course(cfg, s, job.event, y) && job.stage.Reschedule? && IsDraw(u)
    requires w in s.workers && s.workers[w] == Working(i, end, job)
    ensures Course(cfg, DoCommand(cfg, s, w, i, end, job, fault, u), job.event,
                   CountCommand(s.now, fault, u, job.stage, y))
  {
    var t := DoCommand(cfg, s, w, i, end, job, fault, u);
    CommandAlone(cfg, s, w, i, end, job, fault, u, y);
    RescheduleEffect(cfg, s, w, i, end, job, fault, u);
    if fault.Before? {
      AloneCourse(cfg, t, w, job.event, y);
    } else {
      ScheduledCourse(cfg, s, t, w, job.event, job.stage.attempts, u, y);
    }
  }

  lemma CommandCourse(cfg: Config, s: State, w: nat, i: nat, end: nat, job: Job, fault: Fault, u: real, y: Tally)
    requires Single(s, job.event) && Course(cfg, s, job.event, y) && !job.stage.Release? && IsDraw(u) && y.published > 0
    requires job.event in s.db.events && AttemptsOf(s.db, job.event) == |y.failures|
    requires w in s.workers && s.workers[w] == Working(i, end, job)
    ensures Course(cfg, DoCommand(cfg, s, w, i, end, job, fault, u), job.event,
                   CountCommand(s.now, fault, u, job.stage, y))
  {
    if job.stage.FindEvent? {
      RunStarts(cfg, s, w, i, end, job, fault, u, y);
    } else if InRun(job.stage) || job.stage.AckReturned? {
      RunGoesOn(cfg, s, w, i, end, job, fault, u, y);
    } else if job.stage.Increment? {
      FailureCounted(cfg, s, w, i, end, job, fault, u, y);
    } else if job.stage.Bury? {
      BuriesOnce(cfg, s, w, i, end, job, fault, u, y);
    } else if job.stage.Reschedule? {
      RetryScheduled(cfg, s, w, i, end, job, fault, u, y);
    } else {
      HandlerGoesOn(cfg, s, w, i, end, job, fault, u, y);
    }
  }

  lemma JobCourse(cfg: Config, s: State, w: nat, i: nat, end: nat, job: Job, fault: Fault, u: real, e: nat, y: Tally)
    requires Course(cfg, s, e, y) && Few(s, e, y) && IsDraw(u)
    requires w in s.workers && s.workers[w] == Working(i, end, job) && job.event in s.db.events
    ensures Course(cfg, DoWork(cfg, s, w, fault, u), e, CountWork(s, s.workers[w], fault, u, e, y))
  {
    if job.stage.Release? {
      ReleaseKept(s, w, i, end, job, fault, e);
      CourseKept(cfg, s, DoRelease(s, w, i, end, job, fault), e, y, y);
    } else if job.event != e {
      OtherCommandCourse(cfg, s, w, i, end, job, fault, u, e, y);
    } else {
      assert InHands(s, w, e) && w in Hands(s, e);
      CommandCourse(cfg, s, w, i, end, job, fault, u, y);
    }
  }

  lemma OtherCommandCourse(
    cfg: Config, s: State, w: nat, i: nat, end: nat, job: Job, fault: Fault, u: real, e: nat, y: Tally)
    requires Course(cfg, s, e, y) && w in s.workers && s.workers[w] == Working(i, end, job)
    requires !job.stage.Release? && job.event != e
    ensures Course(cfg, DoCommand(cfg, s, w, i, end, job, fault, u), e, y)
  {
    var t := DoCommand(cfg, s, w, i, end, job, fault, u);
    OtherCommandKept(cfg, s, w, i, end, job, fault, u, e);
    OtherEffect(cfg, s.now, u, job.event, i, s.db, s.cache, job.stage, e);
    CourseKept(cfg, s, t, e, y, y);
  }

  lemma OtherEffect(cfg: Config, now: nat, u: real, x: nat, i: nat, db: Db, cache: Cache, stage: Stage, e: nat)
    requires !stage.Release? && x != e
    ensures var r := HandleCommand(cfg, now, u, x, i, db, cache, stage);
            && (e in r.db.deadLetters <==> e in db.deadLetters)
            && (e in db.deadLetters ==> r.db.deadLetters[e] == db.deadLetters[e])
            && (forall x | x in r.cache.retry && x.id == e :: x in cache.retry)
  {
    if stage.Reschedule? {
      AddContents(cache.retry, x, now + NonNegative(BackoffMs(stage.attempts, u)));
    }
  }

  lemma ReadEffect(cfg: Config, s: State, w: nat, fault: Fault)
    ensures var t := DoRead(cfg, s, w, fault); t.db == s.db && t.now == s.now && t.cache.retry == s.cache.retry
  {}

  lemma SkipEffect(s: State, w: nat, i: nat, end: nat, fault: Fault)
    ensures var t := DoSkip(s, w, i, end, fault); t.db == s.db && t.now == s.now && t.cache.retry == s.cache.retry
  {}

  lemma LockingCourse(cfg: Config, s: State, w: nat, i: nat, end: nat, fault: Fault, u: real, e: nat, y: Tally)
    requires Course(cfg, s, e, y) && Single(s, e) && Partitioned(s)
    requires w in s.workers && s.workers[w] == Locking(i, end) && i < end && i < |s.cache.log|
    ensures Course(cfg, DoLock(cfg, s, w, i, end, fault), e, CountWork(s, Locking(i, end), fault, u, e, y))
  {
    LockCourse(cfg, s, w, i, end, fault, e, y, CountWork(s, Locking(i, end), fault, u, e, y).locks);
  }

  lemma WorkCourse(cfg: Config, s: State, w: nat, fault: Fault, u: real, e: nat, y: Tally)
    requires Course(cfg, s, e, y) && Few(s, e, y) && IsDraw(u)
    requires Inv(cfg, s) && Partitioned(s) && w in s.workers
    ensures Course(cfg, DoWork(cfg, s, w, fault, u), e, CountWork(s, s.workers[w], fault, u, e, y))
  {
    assert WorkerOk(cfg, s.db, s.cache.log, s.workers[w]);
    match s.workers[w] {
      case Reading =>
        ReadKept(cfg, s, w, fault, e);
        ReadEffect(cfg, s, w, fault);
        CourseKept(cfg, s, DoRead(cfg, s, w, fault), e, y, y);
      case Locking(i, end) => LockingCourse(cfg, s, w, i, end, fault, u, e, y);
      case Skipping(i, end) =>
        SkipKept(s, w, i, end, fault, e);
        SkipEffect(s, w, i, end, fault);
        CourseKept(cfg, s, DoSkip(s, w, i, end, fault), e, y, y);
      case Working(i, end, job) => JobCourse(cfg, s, w, i, end, job, fault, u, e, y);
    }
  }

  lemma WorkStepCourse(cfg: Config, s: State, w: nat, fault: Fault, u: real, e: nat, y: Tally)
    requires Course(cfg, s, e, y) && Few(s, e, y) && Inv(cfg, s) && Partitioned(s)
    ensures Course(cfg, Apply(cfg, s, Work(w, fault, u)), e, Count(s, Work(w, fault, u), e, y))
  {
    if w in s.workers && IsDraw(u) { WorkCourse(cfg, s, w, fault, u, e, y); }
  }

  lemma PromoteStep(cfg: Config, s: State, p: nat, e: nat, y: Tally)
    ensures Apply(cfg, s, Promote(p)) == if p in s.pollers then DoPromote(s, p) else s
    ensures p !in s.pollers ==> Count(s, Promote(p), e, y) == y
  {}

  lemma PromoteStepCourse(cfg: Config, s: State, p: nat, e: nat, y: Tally, t: State, z: Tally)
    requires Course(cfg, s, e, y) && Single(s, e) && Inv(cfg, s) && PollersOnce(s)
    requires TakesOut(s, Promote(p), e) ==> DueNow(s, e)
    requires t == (if p in s.pollers then DoPromote(s, p) else s)
    requires z == if p in s.pollers then Count(s, Promote(p), e, y) else y
    ensures Course(cfg, t, e, z)
  {
    if p in s.pollers {
      PromoteCourse(cfg, s, p, e, y);
    }
  }

  lemma HandleStepCourse(cfg: Config, s: State, h: nat, id: nat, e: nat, y: Tally)
    requires Course(cfg, s, e, y) && Few(s, e, y) && Inv(cfg, s)
    requires Count(s, Handle(h, id), e, y).published <= 1
    ensures Course(cfg, Apply(cfg, s, Handle(h, id)), e, Count(s, Handle(h, id), e, y))
  {
    if h in s.handlers { HandleCourse(cfg, s, h, id, e, y); }
  }

  lemma StepCourse(cfg: Config, s: State, step: Step, e: nat, y: Tally)
    requires Course(cfg, s, e, y) && Few(s, e, y) && Inv(cfg, s) && Partitioned(s) && PollersOnce(s)
    requires Count(s, step, e, y).published <= 1 && (TakesOut(s, step, e) ==> DueNow(s, e))
    ensures Course(cfg, Apply(cfg, s, step), e, Count(s, step, e, y))
  {
    match step {
      case Work(w, fault, u) => WorkStepCourse(cfg, s, w, fault, u, e, y);
      case Promote(p) =>
        PromoteStep(cfg, s, p, e, y);
        PromoteStepCourse(cfg, s, p, e, y, Apply(cfg, s, step), Count(s, step, e, y));
      case Handle(h, id) => HandleStepCourse(cfg, s, h, id, e, y);
      case _ => AsideStepCourse(cfg, s, step, e, y);
    }
  }

  lemma AsideStepCourse(cfg: Config, s: State, step: Step, e: nat, y: Tally)
    requires Course(cfg, s, e, y) && Aside(step)
    ensures Course(cfg, Apply(cfg, s, step), e, Count(s, step, e, y))
  {
    AsideCourse(cfg, s, step, e, y);
  }

  lemma NotStaleNotCounted(s: State, step: Step, e: nat, y: Tally)
    requires !Stale(s, step, e)
    ensures Count(s, step, e, y).stale == y.stale
  {
    if TakesOut(s, step, e) {
      CountTakenOut(s, step.p, e, y);
    }
  }

  lemma PublishedGrows(s: State, step: Step, e: nat, y: Tally)
    ensures y.published <= Count(s, step, e, y).published
  {}

  lemma {:induction false} CourseAlways(cfg: Config, steps: seq<Step>, e: nat)
    requires TallyOf(cfg, steps, e).published <= 1 && NeverStale(cfg, steps, e)
    ensures Course(cfg, Exec(cfg, steps), e, TallyOf(cfg, steps, e)) && TallyOf(cfg, steps, e).stale == 0
  {
    if steps == [] {
      assert Entries(INIT, e) == {} && Pollers(INIT, e) == {};
    } else {
      var before := steps[..|steps| - 1];
      var s, step, y := Exec(cfg, before), steps[|steps| - 1], TallyOf(cfg, before, e);
      PublishedGrows(s, step, e, y);
      CourseAlways(cfg, before, e);
      Accounting.AccountsAlways(cfg, before, e);
      Integrity.Always(cfg, before);
      EachEntryOnce(cfg, before);
      Accounting.OnceAlways(cfg, before);
      StepCourse(cfg, s, step, e, y);
      NotStaleNotCounted(s, step, e, y);
    }
  }
}
