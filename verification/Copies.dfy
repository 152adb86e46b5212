/** The copies of an event: messages that nobody has taken in hand, messages in hand, its
    scheduled retry, and retries a poller has taken out and not yet published.  Each is counted,
    together with what has happened to the event so far, and one step of the pipeline changes
    the counts only as the accounts allow: by a publication, by a promotion, by taking a
    message in hand, or by the commands of the worker that has it. */
module Copies {
  import opened Domain
  import opened SortedSet
  import opened Tables
  import opened Pipeline
  import opened Integrity
  import opened Leases
  import opened Delivery
  import Backoff
  import Carriers
  import Spacing

  // ---------- what happens to an event ----------

  /** What a run has done with one event so far: how often intake published it, how often a
      poller took out a retry that was no longer there, how many of its messages were taken in
      hand, and the times of its runs, its counted failures, its scheduled retries (when they
      are due) and their promotions (when they were taken out). */
  datatype Tally = Tally(
    published: nat, stale: nat, locks: nat, runs: seq<nat>, failures: seq<nat>, scheduled: seq<nat>, taken: seq<nat>)

  const NOTHING := Tally(0, 0, 0, [], [], [], [])

  predicate TakesOut(s: State, step: Step, e: nat) {
    step.Promote? && step.p in s.pollers && s.pollers[step.p].Removing? && e in s.pollers[step.p].due
  }

  function CountCommand(now: nat, fault: Fault, u: real, stage: Stage, y: Tally): Tally {
    match stage
    case FindEvent => y.(runs := y.runs + [now])
    case Increment => if fault.Before? then y else y.(failures := y.failures + [now])
    case Reschedule(n) =>
      if fault.Before? then y else y.(scheduled := y.scheduled + [now + NonNegative(Backoff.BackoffMs(n, u))])
    case _ => y
  }

  function CountWork(s: State, wk: Worker, fault: Fault, u: real, e: nat, y: Tally): Tally {
    match wk
    case Locking(i, end) =>
      if !fault.Before? && i < |s.cache.log| && s.cache.log[i] == e then y.(locks := y.locks + 1) else y
    case Working(i, end, job) => if job.event == e then CountCommand(s.now, fault, u, job.stage, y) else y
    case _ => y
  }

  function Count(s: State, step: Step, e: nat, y: Tally): Tally {
    match step
    case Handle(h, _) =>
      if h in s.handlers && s.handlers[h] == Publishing(e) then y.(published := y.published + 1) else y
    case Work(w, fault, u) =>
      if w in s.workers && Backoff.IsDraw(u) then CountWork(s, s.workers[w], fault, u, e, y) else y
    case Promote(p) =>
      if TakesOut(s, step, e)
      then y.(taken := y.taken + [s.now], stale := y.stale + if e in Members(s.cache.retry) then 0 else 1)
      else y
    case _ => y
  }

  function TallyOf(cfg: Config, steps: seq<Step>, e: nat): Tally {
    if steps == [] then NOTHING
    else
      var before := steps[..|steps| - 1];
      Count(Exec(cfg, before), steps[|steps| - 1], e, TallyOf(cfg, before, e))
  }

  // ---------- where its copies are ----------

  /** The entry waits for worker `w` to take it in hand. */
  predicate Waits(s: State, w: nat, i: nat) {
    w in s.workers && match s.workers[w]
      case Reading => false
      case Locking(j, end) => j <= i < end
      case Skipping(j, end) => j < i < end
      case Working(j, end, _) => j < i < end
  }

  ghost predicate Unhandled(s: State, i: nat) { s.cache.cursor <= i || exists w :: Waits(s, w, i) }

  ghost function Entries(s: State, e: nat): set<nat> {
    set i: nat | i < |s.cache.log| && s.cache.log[i] == e && Unhandled(s, i)
  }

  predicate InHands(s: State, w: nat, e: nat) {
    IsWorking(s, w) && JobOf(s, w).event == e && !JobOf(s, w).stage.Release?
  }

  function Hands(s: State, e: nat): set<nat> { set w | w in s.workers && InHands(s, w, e) }

  predicate TakenOut(s: State, p: nat, e: nat) {
    p in s.pollers && s.pollers[p].Promoting? && e in s.pollers[p].rest
  }

  function Pollers(s: State, e: nat): set<nat> { set p | p in s.pollers && TakenOut(s, p, e) }

  function Slots(s: State, e: nat): nat { if e in Members(s.cache.retry) then 1 else 0 }

  /** In hand, and not run yet. */
  function Untried(s: State, e: nat): set<nat> { set w | w in Hands(s, e) && JobOf(s, w).stage.FindEvent? }

  predicate WillReschedule(cfg: Config, stage: Stage) {
    (stage.AckFailed? && stage.attempts < cfg.maxAttempts) || stage.MarkFailedState? || stage.Reschedule?
  }

  /** In hand, failed, and on the way to its reschedule. */
  function Retrying(cfg: Config, s: State, e: nat): set<nat> {
    set w | w in Hands(s, e) && WillReschedule(cfg, JobOf(s, w).stage)
  }

  function AttemptsOf(db: Db, e: nat): nat { if e in db.events then db.events[e].attempts else 0 }

  /** How many more failures may lead to a reschedule. */
  function Left(cfg: Config, db: Db, e: nat): nat {
    if AttemptsOf(db, e) + 1 < cfg.maxAttempts then cfg.maxAttempts - 1 - AttemptsOf(db, e) else 0
  }

  ghost function Outside(s: State, e: nat): nat { |Entries(s, e)| + |Pollers(s, e)| + Slots(s, e) }

  // ---------- the accounts ----------

  ghost predicate Accounts(cfg: Config, s: State, e: nat, y: Tally) {
    && AttemptsOf(s.db, e) == |y.failures|
    && Outside(s, e) + |Hands(s, e)| <= y.published + y.stale
    && |y.runs| + Outside(s, e) + |Untried(s, e)| + |Retrying(cfg, s, e)| + Left(cfg, s.db, e)
       <= y.published + y.stale + cfg.maxAttempts - 1
    && |y.scheduled| + |Retrying(cfg, s, e)| + Left(cfg, s.db, e) <= cfg.maxAttempts - 1
    && |y.taken| + Slots(s, e) <= |y.scheduled| + y.stale
    && y.locks + |Entries(s, e)| + |Pollers(s, e)| <= y.published + |y.taken|
  }

  /** No copy is new, and none has changed its place. */
  ghost predicate Kept(s: State, t: State, e: nat) {
    && Entries(t, e) <= Entries(s, e) && Pollers(t, e) <= Pollers(s, e) && Slots(t, e) == Slots(s, e)
    && AttemptsOf(t.db, e) == AttemptsOf(s.db, e)
    && forall w | InHands(t, w, e) :: InHands(s, w, e) && JobOf(t, w).stage == JobOf(s, w).stage
  }

  lemma KeptHands(cfg: Config, s: State, t: State, e: nat)
    requires Kept(s, t, e)
    ensures |Hands(t, e)| <= |Hands(s, e)| && |Untried(t, e)| <= |Untried(s, e)|
    ensures |Retrying(cfg, t, e)| <= |Retrying(cfg, s, e)|
  {
    assert Hands(t, e) <= Hands(s, e);
    Spacing.SubsetSize(Hands(t, e), Hands(s, e));
    Spacing.SubsetSize(Untried(t, e), Untried(s, e));
    Spacing.SubsetSize(Retrying(cfg, t, e), Retrying(cfg, s, e));
  }

  lemma KeptAccounts(cfg: Config, s: State, t: State, e: nat, y: Tally)
    requires Accounts(cfg, s, e, y) && Kept(s, t, e)
    ensures Accounts(cfg, t, e, y)
  {
    KeptHands(cfg, s, t, e);
    Spacing.SubsetSize(Entries(t, e), Entries(s, e));
    Spacing.SubsetSize(Pollers(t, e), Pollers(s, e));
  }

  // ---------- steps that make or move no copy ----------

  lemma EntriesShrink(s: State, t: State, e: nat)
    requires t.cache.log == s.cache.log
    requires forall i: nat | i < |s.cache.log| && Unhandled(t, i) :: Unhandled(s, i)
    ensures Entries(t, e) <= Entries(s, e)
  {}

  /** One worker has moved, with no entry waiting for it that did not before. */
  lemma WorkerMoves(s: State, t: State, w: nat, e: nat)
    requires t.cache.log == s.cache.log && s.cache.cursor <= t.cache.cursor
    requires w in t.workers && t.workers == s.workers[w := t.workers[w]]
    requires forall i: nat | Waits(t, w, i) :: Waits(s, w, i) || s.cache.cursor <= i
    ensures Entries(t, e) <= Entries(s, e)
  {
    forall i: nat | i < |s.cache.log| && Unhandled(t, i) ensures Unhandled(s, i) {
      if i < t.cache.cursor {
        var v :| Waits(t, v, i);
        assert v != w ==> Waits(s, v, i);
      }
    }
    EntriesShrink(s, t, e);
  }

  lemma ReadKept(cfg: Config, s: State, w: nat, fault: Fault, e: nat)
    requires w in s.workers && s.workers[w].Reading?
    ensures Kept(s, DoRead(cfg, s, w, fault), e)
  {
    var t := DoRead(cfg, s, w, fault);
    if fault.Before? {
    } else {
      WorkerMoves(s, t, w, e);
    }
  }

  lemma SkipKept(s: State, w: nat, i: nat, end: nat, fault: Fault, e: nat)
    requires w in s.workers && s.workers[w] == Skipping(i, end)
    ensures Kept(s, DoSkip(s, w, i, end, fault), e)
  {
    WorkerMoves(s, DoSkip(s, w, i, end, fault), w, e);
  }

  lemma ReleaseKept(s: State, w: nat, i: nat, end: nat, job: Job, fault: Fault, e: nat)
    requires w in s.workers && s.workers[w] == Working(i, end, job) && job.stage.Release?
    ensures Kept(s, DoRelease(s, w, i, end, job, fault), e)
  {
    WorkerMoves(s, DoRelease(s, w, i, end, job, fault), w, e);
  }

  /** What taking, or failing to take, a lock does to the worker. */
  lemma LockEffect(cfg: Config, s: State, w: nat, i: nat, end: nat, fault: Fault)
    requires w in s.workers && s.workers[w] == Locking(i, end) && i < |s.cache.log|
    ensures var t := DoLock(cfg, s, w, i, end, fault);
            && t.cache.log == s.cache.log && t.cache.cursor == s.cache.cursor && t.cache.retry == s.cache.retry
            && t.db == s.db && t.pollers == s.pollers && t.now == s.now
            && w in t.workers && t.workers == s.workers[w := t.workers[w]]
            && (t.workers[w].Reading? || t.workers[w] == Skipping(i, end)
                || (t.workers[w].Working? && t.workers[w].i == i && t.workers[w].end == end
                    && JobOf(t, w).event == s.cache.log[i] && JobOf(t, w).stage.FindEvent?))
            && (fault.Before? ==> t.workers[w].Reading?)
  {}

  lemma LockKept(cfg: Config, s: State, w: nat, i: nat, end: nat, fault: Fault, e: nat)
    requires w in s.workers && s.workers[w] == Locking(i, end) && i < |s.cache.log|
    requires s.cache.log[i] != e || !DoLock(cfg, s, w, i, end, fault).workers[w].Working?
    ensures Kept(s, DoLock(cfg, s, w, i, end, fault), e)
  {
    LockEffect(cfg, s, w, i, end, fault);
    WorkerMoves(s, DoLock(cfg, s, w, i, end, fault), w, e);
  }

  /** The entry whose lock was asked for waits no longer. */
  lemma LockTakesEntry(cfg: Config, s: State, w: nat, i: nat, end: nat, fault: Fault)
    requires Partitioned(s) && w in s.workers && s.workers[w] == Locking(i, end) && i < end && i < |s.cache.log|
    ensures var t := DoLock(cfg, s, w, i, end, fault); var e := s.cache.log[i];
            Entries(t, e) <= Entries(s, e) - {i} && i in Entries(s, e)
  {
    var t := DoLock(cfg, s, w, i, end, fault);
    var e := s.cache.log[i];
    LockEffect(cfg, s, w, i, end, fault);
    WorkerMoves(s, t, w, e);
    assert Waits(s, w, i) && Ahead(s, w, i);
    if Unhandled(t, i) {
      var v :| Waits(t, v, i);
      assert v != w && Ahead(s, v, i);
    }
  }

  lemma OtherRow(cfg: Config, now: nat, u: real, x: nat, i: nat, db: Db, cache: Cache, stage: Stage, e: nat)
    requires !stage.Release? && (x != e || !stage.Increment?)
    ensures AttemptsOf(HandleCommand(cfg, now, u, x, i, db, cache, stage).db, e) == AttemptsOf(db, e)
  {}

  lemma OtherCommandKept(cfg: Config, s: State, w: nat, i: nat, end: nat, job: Job, fault: Fault, u: real, e: nat)
    requires w in s.workers && s.workers[w] == Working(i, end, job) && !job.stage.Release? && job.event != e
    ensures Kept(s, DoCommand(cfg, s, w, i, end, job, fault, u), e)
  {
    var t := DoCommand(cfg, s, w, i, end, job, fault, u);
    HandleCommandQueue(cfg, s.now, u, job.event, i, s.db, s.cache, job.stage);
    OtherRow(cfg, s.now, u, job.event, i, s.db, s.cache, job.stage, e);
    WorkerMoves(s, t, w, e);
  }

  lemma UploadKeepsEvents(db: Db, now: nat, up: Upload)
    ensures UploadCommand(db, now, up).0.events == db.events
  {
    if up.stage.Settling? {
      assert UploadCommand(db, now, up).0 == SettleForEvent(db, up.stage.event, up.stage.record, now);
    }
  }

  /** Steps of no worker that leave the log and the retries alone. */
  predicate Aside(step: Step) { !step.Work? && !step.Handle? && !step.Promote? }

  lemma AsideQueues(cfg: Config, s: State, step: Step)
    requires Aside(step)
    ensures var t := Apply(cfg, s, step);
            && t.cache == s.cache && s.now <= t.now
            && (forall w | w in t.workers :: (w in s.workers && t.workers[w] == s.workers[w]) || t.workers[w].Reading?)
            && (forall p | p in t.pollers && t.pollers[p].Promoting? :: p in s.pollers && t.pollers[p] == s.pollers[p])
  {}

  lemma AsideEvents(cfg: Config, s: State, step: Step)
    requires Aside(step)
    ensures Apply(cfg, s, step).db.events == s.db.events
    ensures Apply(cfg, s, step).db.deadLetters == s.db.deadLetters
  {
    if step.AdvanceUpload? && step.n in s.uploads {
      UploadKeepsEvents(s.db, s.now, s.uploads[step.n]);
      Carriers.UploadLeavesDead(s.db, s.now, s.uploads[step.n]);
    }
  }

  lemma AsideKept(cfg: Config, s: State, step: Step, e: nat)
    requires Aside(step)
    ensures Kept(s, Apply(cfg, s, step), e)
  {
    var t := Apply(cfg, s, step);
    AsideQueues(cfg, s, step);
    AsideEvents(cfg, s, step);
    forall i: nat | i < |s.cache.log| && Unhandled(t, i) ensures Unhandled(s, i) {
      if i < t.cache.cursor {
        var v :| Waits(t, v, i);
        assert Waits(s, v, i);
      }
    }
    EntriesShrink(s, t, e);
  }

  // ---------- publications ----------

  lemma Appended(s: State, t: State, x: nat, e: nat)
    requires t.cache.log == s.cache.log + [x]
    requires t.cache.cursor == s.cache.cursor <= |s.cache.log| && t.workers == s.workers
    ensures Entries(t, e) == Entries(s, e) + if x == e then {|s.cache.log|} else {}
    ensures |Entries(t, e)| == |Entries(s, e)| + if x == e then 1 else 0
  {
    forall i ensures Unhandled(t, i) <==> Unhandled(s, i) {
      forall w ensures Waits(t, w, i) <==> Waits(s, w, i) {}
    }
    assert |s.cache.log| !in Entries(s, e);
  }

  lemma SameHands(cfg: Config, s: State, t: State, e: nat)
    requires t.workers == s.workers
    ensures Hands(t, e) == Hands(s, e) && Untried(t, e) == Untried(s, e) && Retrying(cfg, t, e) == Retrying(cfg, s, e)
  {
    forall w ensures InHands(t, w, e) <==> InHands(s, w, e) {}
  }

  lemma HandleEffect(cfg: Config, s: State, h: nat, id: nat, e: nat)
    requires h in s.handlers && !s.handlers[h].Publishing?
    ensures var t := DoHandle(cfg, s, h, id);
            && t.cache == s.cache.(idem := t.cache.idem, wins := t.cache.wins)
            && t.workers == s.workers && t.pollers == s.pollers && t.now == s.now
            && AttemptsOf(t.db, e) == AttemptsOf(s.db, e) && t.db.deadLetters == s.db.deadLetters
  {
    match s.handlers[h] {
      case Upserting(p, order) => assert UpsertPending(s.db, id, p, order).deadLetters == s.db.deadLetters;
      case _ =>
    }
  }

  lemma HandleKept(cfg: Config, s: State, h: nat, id: nat, e: nat)
    requires h in s.handlers && !s.handlers[h].Publishing?
    ensures Kept(s, DoHandle(cfg, s, h, id), e)
  {
    var t := DoHandle(cfg, s, h, id);
    HandleEffect(cfg, s, h, id, e);
    forall i: nat | i < |s.cache.log| && Unhandled(t, i) ensures Unhandled(s, i) {
      if i < t.cache.cursor {
        var v :| Waits(t, v, i);
        assert Waits(s, v, i);
      }
    }
    EntriesShrink(s, t, e);
  }

  /** Copies have moved outside the workers' hands, without becoming more than the tally says. */
  lemma OutsideMoved(cfg: Config, s: State, t: State, e: nat, y: Tally, z: Tally)
    requires Accounts(cfg, s, e, y) && t.workers == s.workers && AttemptsOf(t.db, e) == AttemptsOf(s.db, e)
    requires z == y.(published := z.published, stale := z.stale, taken := z.taken)
    requires Outside(t, e) - Outside(s, e) <= z.published + z.stale - y.published - y.stale
    requires |z.taken| - |y.taken| + Slots(t, e) - Slots(s, e) <= z.stale - y.stale
    requires |Entries(t, e)| + |Pollers(t, e)| - |Entries(s, e)| - |Pollers(s, e)|
             <= z.published - y.published + |z.taken| - |y.taken|
    ensures Accounts(cfg, t, e, z)
  {
    SameHands(cfg, s, t, e);
  }

  lemma PublishAccounts(cfg: Config, s: State, h: nat, id: nat, e: nat, y: Tally)
    requires Accounts(cfg, s, e, y) && QueueOk(s) && h in s.handlers && s.handlers[h].Publishing?
    ensures Accounts(cfg, DoHandle(cfg, s, h, id), e, Count(s, Handle(h, id), e, y))
  {
    var t := DoHandle(cfg, s, h, id);
    var z := if s.handlers[h].event == e then y.(published := y.published + 1) else y;
    assert Count(s, Handle(h, id), e, y) == z;
    PublishPlaces(s, t, s.handlers[h].event, e);
    OutsideMoved(cfg, s, t, e, y, z);
  }

  lemma PublishPlaces(s: State, t: State, x: nat, e: nat)
    requires QueueOk(s) && t.cache == Publish(s.cache, x) && t.workers == s.workers && t.pollers == s.pollers
    ensures |Entries(t, e)| == |Entries(s, e)| + if x == e then 1 else 0
    ensures Pollers(t, e) == Pollers(s, e) && Slots(t, e) == Slots(s, e)
  {
    Appended(s, t, x, e);
  }

  // ---------- promotions ----------

  predicate Distinct(es: seq<nat>) { forall i, j | 0 <= i < j < |es| :: es[i] != es[j] }

  /** No poller has taken out the same event twice. */
  ghost predicate PollersOnce(s: State) {
    forall p | p in s.pollers ::
      match s.pollers[p] { case Removing(due) => Distinct(due) case Promoting(rest) => Distinct(rest) }
  }

  lemma OnceStep(cfg: Config, s: State, step: Step)
    requires Inv(cfg, s) && PollersOnce(s)
    ensures PollersOnce(Apply(cfg, s, step))
  {
    if step.Poll? {
      if step.p !in s.pollers { DueDistinct(s.cache.retry, s.now, cfg.batchSize); }
    } else if step.Handle? {
      if step.h in s.handlers { Carriers.HandleLeavesDead(cfg, s, step.h, step.id); }
    } else if step.Promote? {
      if step.p in s.pollers { OnceKeptByPromote(s, step.p); }
    } else {
      OtherPollers(cfg, s, step);
    }
  }

  lemma OtherPollers(cfg: Config, s: State, step: Step)
    requires !step.Poll? && !step.Handle? && !step.Promote?
    ensures forall p | p in Apply(cfg, s, step).pollers ::
              p in s.pollers && Apply(cfg, s, step).pollers[p] == s.pollers[p]
  {
    match step {
      case Work(w, fault, u) => if w in s.workers { WorkKeepsPollers(cfg, s, w, fault, u); }
      case _ =>
    }
  }

  lemma WorkKeepsPollers(cfg: Config, s: State, w: nat, fault: Fault, u: real)
    requires w in s.workers
    ensures DoWork(cfg, s, w, fault, u).pollers == s.pollers && DoWork(cfg, s, w, fault, u).now == s.now
  {
    match s.workers[w] {
      case Reading => assert DoWork(cfg, s, w, fault, u) == DoRead(cfg, s, w, fault);
      case Locking(i, end) => assert DoWork(cfg, s, w, fault, u) == DoLock(cfg, s, w, i, end, fault);
      case Skipping(i, end) => assert DoWork(cfg, s, w, fault, u) == DoSkip(s, w, i, end, fault);
      case Working(i, end, job) =>
    }
  }

  lemma OnceKeptByPromote(s: State, p: nat)
    requires p in s.pollers && PollersOnce(s)
    ensures PollersOnce(DoPromote(s, p))
  {
    match s.pollers[p] {
      case Removing(due) =>
      case Promoting(rest) => assert rest != [] ==> forall k | 0 <= k < |rest| - 1 :: rest[1..][k] == rest[k + 1];
    }
  }

  lemma DueDistinct(z: seq<Slot>, now: nat, limit: nat)
    requires SortedSet.Valid(z)
    ensures Distinct(Due(z, now, limit))
  {
    DueIsPrefix(z, now, limit);
  }

  lemma TakeOutPlaces(s: State, p: nat, e: nat)
    requires p in s.pollers && s.pollers[p].Removing?
    ensures var t := DoPromote(s, p); var found := e in s.pollers[p].due;
            && Entries(t, e) == Entries(s, e)
            && Pollers(t, e) == Pollers(s, e) + (if found then {p} else {}) && p !in Pollers(s, e)
            && Slots(t, e) == (if found then 0 else Slots(s, e))
  {
    WithoutContents(s.cache.retry, Ids(s.pollers[p].due));
    SameEntries(s, DoPromote(s, p), e);
  }

  lemma TakeOutAccounts(cfg: Config, s: State, p: nat, e: nat, y: Tally)
    requires Accounts(cfg, s, e, y) && p in s.pollers && s.pollers[p].Removing?
    ensures Accounts(cfg, DoPromote(s, p), e, Count(s, Promote(p), e, y))
  {
    TakeOutPlaces(s, p, e);
    OutsideMoved(cfg, s, DoPromote(s, p), e, y, Count(s, Promote(p), e, y));
  }

  lemma SameEntries(s: State, t: State, e: nat)
    requires t.cache.log == s.cache.log && t.cache.cursor == s.cache.cursor && t.workers == s.workers
    ensures Entries(t, e) == Entries(s, e)
  {
    forall i ensures Unhandled(t, i) <==> Unhandled(s, i) {
      forall w ensures Waits(t, w, i) <==> Waits(s, w, i) {}
    }
  }

  lemma RepublishPollers(s: State, p: nat, e: nat)
    requires PollersOnce(s) && p in s.pollers && s.pollers[p].Promoting? && s.pollers[p].rest != []
    ensures var rest := s.pollers[p].rest;
            && Pollers(DoPromote(s, p), e) == Pollers(s, e) - (if rest[0] == e then {p} else {})
            && (rest[0] == e ==> p in Pollers(s, e))
            && |Pollers(DoPromote(s, p), e)| == |Pollers(s, e)| - (if rest[0] == e then 1 else 0)
  {
    var t := DoPromote(s, p);
    RestWithout(s.pollers[p].rest, e);
    forall q ensures q in Pollers(t, e) <==> q in Pollers(s, e) && (s.pollers[p].rest[0] == e ==> q != p) {
      assert q != p ==> (TakenOut(t, q, e) <==> TakenOut(s, q, e));
    }
    Spacing.SizeByOne(Pollers(s, e), Pollers(t, e), p);
  }

  lemma RepublishEntries(s: State, p: nat, e: nat)
    requires QueueOk(s) && p in s.pollers && s.pollers[p].Promoting? && s.pollers[p].rest != []
    ensures |Entries(DoPromote(s, p), e)| == |Entries(s, e)| + if s.pollers[p].rest[0] == e then 1 else 0
  {
    Appended(s, DoPromote(s, p), s.pollers[p].rest[0], e);
  }

  lemma RepublishNothing(s: State, p: nat, e: nat)
    requires p in s.pollers && s.pollers[p].Promoting? && s.pollers[p].rest == []
    ensures Entries(DoPromote(s, p), e) == Entries(s, e) && Pollers(DoPromote(s, p), e) == Pollers(s, e)
  {
    SameEntries(s, DoPromote(s, p), e);
  }

  /** The event a poller publishes moves to the stream, and no other. */
  lemma RepublishPlaces(s: State, p: nat, e: nat)
    requires QueueOk(s) && PollersOnce(s) && p in s.pollers && s.pollers[p].Promoting?
    ensures var t := DoPromote(s, p); var rest := s.pollers[p].rest;
            var moved := if rest != [] && rest[0] == e then 1 else 0;
            && |Entries(t, e)| == |Entries(s, e)| + moved && |Pollers(t, e)| == |Pollers(s, e)| - moved
            && t.cache.retry == s.cache.retry && t.workers == s.workers && t.db == s.db
            && (moved == 1 ==> p in Pollers(s, e))
  {
    if s.pollers[p].rest == [] {
      RepublishNothing(s, p, e);
    } else {
      RepublishEntries(s, p, e);
      RepublishPollers(s, p, e);
    }
  }

  lemma RepublishAccounts(cfg: Config, s: State, p: nat, e: nat, y: Tally)
    requires Accounts(cfg, s, e, y) && QueueOk(s) && PollersOnce(s) && p in s.pollers && s.pollers[p].Promoting?
    ensures Accounts(cfg, DoPromote(s, p), e, y)
  {
    RepublishPlaces(s, p, e);
    OutsideMoved(cfg, s, DoPromote(s, p), e, y, y);
  }

  lemma RestWithout(rest: seq<nat>, e: nat)
    requires rest != [] && Distinct(rest)
    ensures e in rest[1..] <==> e in rest && e != rest[0]
  {
    assert rest == [rest[0]] + rest[1..];
    if e in rest[1..] {
      var k :| 0 <= k < |rest| - 1 && rest[1..][k] == e;
      assert rest[k + 1] == e;
    }
  }

  // ---------- messages in hand ----------

  /** The hands other than those of worker `w` are as they were. */
  lemma OtherHands(cfg: Config, s: State, t: State, w: nat, e: nat)
    requires w in t.workers && t.workers == s.workers[w := t.workers[w]]
    ensures |Hands(t, e)| == |Hands(s, e)| + (if w in Hands(t, e) then 1 else 0) - (if w in Hands(s, e) then 1 else 0)
    ensures |Untried(t, e)| == |Untried(s, e)|
              + (if w in Untried(t, e) then 1 else 0) - (if w in Untried(s, e) then 1 else 0)
    ensures |Retrying(cfg, t, e)| == |Retrying(cfg, s, e)|
              + (if w in Retrying(cfg, t, e) then 1 else 0) - (if w in Retrying(cfg, s, e) then 1 else 0)
  {
    forall v | v != w ensures InHands(t, v, e) <==> InHands(s, v, e) {}
    Spacing.SizeByOne(Hands(s, e), Hands(t, e), w);
    Spacing.SizeByOne(Untried(s, e), Untried(t, e), w);
    Spacing.SizeByOne(Retrying(cfg, s, e), Retrying(cfg, t, e), w);
  }

  lemma LockAccounts(cfg: Config, s: State, w: nat, i: nat, end: nat, fault: Fault, u: real, e: nat, y: Tally)
    requires Accounts(cfg, s, e, y) && Partitioned(s) && Backoff.IsDraw(u)
    requires w in s.workers && s.workers[w] == Locking(i, end) && i < end && i < |s.cache.log|
    ensures Accounts(cfg, DoLock(cfg, s, w, i, end, fault), e, CountWork(s, s.workers[w], fault, u, e, y))
  {
    var t := DoLock(cfg, s, w, i, end, fault);
    LockEffect(cfg, s, w, i, end, fault);
    if s.cache.log[i] != e {
      LockKept(cfg, s, w, i, end, fault, e);
      KeptAccounts(cfg, s, t, e, y);
    } else {
      LockTakesEntry(cfg, s, w, i, end, fault);
      TakenAccounts(cfg, s, t, w, i, e, y);
    }
  }

  /** Whether the lock was free or not, an entry has left the ones that wait. */
  lemma TakenAccounts(cfg: Config, s: State, t: State, w: nat, i: nat, e: nat, y: Tally)
    requires Accounts(cfg, s, e, y) && i in Entries(s, e) && Entries(t, e) <= Entries(s, e) - {i}
    requires t.pollers == s.pollers && t.cache.retry == s.cache.retry && t.db == s.db
    requires w in s.workers && w in t.workers && t.workers == s.workers[w := t.workers[w]] && !s.workers[w].Working?
    requires IsWorking(t, w) ==> JobOf(t, w).stage.FindEvent?
    ensures Accounts(cfg, t, e, y) && Accounts(cfg, t, e, y.(locks := y.locks + 1))
  {
    Spacing.SubsetSize(Entries(t, e), Entries(s, e) - {i});
    OtherHands(cfg, s, t, w, e);
    assert Pollers(t, e) == Pollers(s, e);
  }

  /** What one command of the worker in hand of `e` does to the copies. */
  lemma CommandPlaces(cfg: Config, s: State, w: nat, i: nat, end: nat, job: Job, fault: Fault, u: real)
    requires w in s.workers && s.workers[w] == Working(i, end, job) && !job.stage.Release?
    ensures var t := DoCommand(cfg, s, w, i, end, job, fault, u); var e := job.event;
            && w in t.workers && t.workers == s.workers[w := t.workers[w]] && IsWorking(t, w)
            && JobOf(t, w) == job.(stage := JobOf(t, w).stage)
            && Entries(t, e) == Entries(s, e) && Pollers(t, e) == Pollers(s, e)
            && Slots(t, e) == (if job.stage.Reschedule? && !fault.Before? then 1 else Slots(s, e))
  {
    var t := DoCommand(cfg, s, w, i, end, job, fault, u);
    HandleCommandQueue(cfg, s.now, u, job.event, i, s.db, s.cache, job.stage);
    forall j ensures Unhandled(t, j) <==> Unhandled(s, j) {
      forall v ensures Waits(t, v, j) <==> Waits(s, v, j) {}
    }
  }

  /** And to its stage and attempts. */
  lemma CommandStage(cfg: Config, s: State, w: nat, i: nat, end: nat, job: Job, fault: Fault, u: real)
    requires w in s.workers && s.workers[w] == Working(i, end, job) && !job.stage.Release? && job.event in s.db.events
    ensures var t := DoCommand(cfg, s, w, i, end, job, fault, u); var stage' := JobOf(t, w).stage;
            && AttemptsOf(t.db, job.event)
               == AttemptsOf(s.db, job.event) + (if job.stage.Increment? && !fault.Before? then 1 else 0)
            && !stage'.FindEvent?
            && (WillReschedule(cfg, stage') ==>
                  || (WillReschedule(cfg, job.stage) && !job.stage.Reschedule?)
                  || (job.stage.Increment? && fault.NoFault? && AttemptsOf(t.db, job.event) < cfg.maxAttempts))
            && (job.stage.Reschedule? ==> stage'.Release?)
  {
    if !job.stage.Increment? {
      OtherRow(cfg, s.now, u, job.event, i, s.db, s.cache, job.stage, job.event);
    }
  }

  lemma CommandAccounts(cfg: Config, s: State, w: nat, i: nat, end: nat, job: Job, fault: Fault, u: real, y: Tally)
    requires w in s.workers && s.workers[w] == Working(i, end, job) && !job.stage.Release? && job.event in s.db.events
    requires Accounts(cfg, s, job.event, y) && Backoff.IsDraw(u)
    ensures Accounts(cfg, DoCommand(cfg, s, w, i, end, job, fault, u), job.event,
                     CountCommand(s.now, fault, u, job.stage, y))
  {
    var t := DoCommand(cfg, s, w, i, end, job, fault, u);
    CommandPlaces(cfg, s, w, i, end, job, fault, u);
    CommandStage(cfg, s, w, i, end, job, fault, u);
    OtherHands(cfg, s, t, w, job.event);
  }
}
