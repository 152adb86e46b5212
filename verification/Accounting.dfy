/** For every run the copies, the runs, the reschedules and the promotions of an event account
    for each other, so that retries end. */
module Accounting {
  import opened Domain
  import opened SortedSet
  import opened Pipeline
  import opened Integrity
  import opened Leases
  import opened Delivery
  import opened Copies
  import Backoff
  import Carriers
  import Spacing

  lemma WorkAccounts(cfg: Config, s: State, w: nat, fault: Fault, u: real, e: nat, y: Tally)
    requires Accounts(cfg, s, e, y) && Inv(cfg, s) && Partitioned(s) && w in s.workers && Backoff.IsDraw(u)
    ensures Accounts(cfg, DoWork(cfg, s, w, fault, u), e, CountWork(s, s.workers[w], fault, u, e, y))
  {
    assert WorkerOk(cfg, s.db, s.cache.log, s.workers[w]);
    match s.workers[w] {
      case Reading =>
        ReadKept(cfg, s, w, fault, e);
        KeptAccounts(cfg, s, DoRead(cfg, s, w, fault), e, y);
      case Locking(i, end) => LockAccounts(cfg, s, w, i, end, fault, u, e, y);
      case Skipping(i, end) =>
        SkipKept(s, w, i, end, fault, e);
        KeptAccounts(cfg, s, DoSkip(s, w, i, end, fault), e, y);
      case Working(i, end, job) => JobAccounts(cfg, s, w, i, end, job, fault, u, e, y);
    }
  }

  lemma JobAccounts(cfg: Config, s: State, w: nat, i: nat, end: nat, job: Job, fault: Fault, u: real, e: nat, y: Tally)
    requires Accounts(cfg, s, e, y) && w in s.workers && s.workers[w] == Working(i, end, job) && Backoff.IsDraw(u)
    requires job.event in s.db.events
    ensures Accounts(cfg, DoWork(cfg, s, w, fault, u), e, CountWork(s, s.workers[w], fault, u, e, y))
  {
    if job.stage.Release? {
      ReleaseKept(s, w, i, end, job, fault, e);
      KeptAccounts(cfg, s, DoRelease(s, w, i, end, job, fault), e, y);
    } else if job.event != e {
      OtherCommandKept(cfg, s, w, i, end, job, fault, u, e);
      KeptAccounts(cfg, s, DoCommand(cfg, s, w, i, end, job, fault, u), e, y);
    } else {
      CommandAccounts(cfg, s, w, i, end, job, fault, u, y);
    }
  }

  lemma PromoteAccounts(cfg: Config, s: State, p: nat, e: nat, y: Tally)
    requires Accounts(cfg, s, e, y) && Inv(cfg, s) && PollersOnce(s) && p in s.pollers
    ensures Accounts(cfg, DoPromote(s, p), e, Count(s, Promote(p), e, y))
  {
    if s.pollers[p].Removing? {
      TakeOutAccounts(cfg, s, p, e, y);
    } else {
      RepublishAccounts(cfg, s, p, e, y);
    }
  }

  lemma HandleAccounts(cfg: Config, s: State, h: nat, id: nat, e: nat, y: Tally)
    requires Accounts(cfg, s, e, y) && Inv(cfg, s) && h in s.handlers
    ensures Accounts(cfg, DoHandle(cfg, s, h, id), e, Count(s, Handle(h, id), e, y))
  {
    if s.handlers[h].Publishing? {
      PublishAccounts(cfg, s, h, id, e, y);
    } else {
      HandleKept(cfg, s, h, id, e);
      KeptAccounts(cfg, s, DoHandle(cfg, s, h, id), e, y);
    }
  }

  lemma StepAccounts(cfg: Config, s: State, step: Step, e: nat, y: Tally)
    requires Accounts(cfg, s, e, y) && Inv(cfg, s) && Partitioned(s) && PollersOnce(s)
    ensures Accounts(cfg, Apply(cfg, s, step), e, Count(s, step, e, y))
  {
    if step.Work? {
      if step.w in s.workers && Backoff.IsDraw(step.u) { WorkAccounts(cfg, s, step.w, step.fault, step.u, e, y); }
    } else if step.Promote? {
      if step.p in s.pollers { PromoteAccounts(cfg, s, step.p, e, y); }
    } else if step.Handle? {
      if step.h in s.handlers { HandleAccounts(cfg, s, step.h, step.id, e, y); }
    } else {
      AsideKept(cfg, s, step, e);
      KeptAccounts(cfg, s, Apply(cfg, s, step), e, y);
    }
  }

  lemma {:induction false} OnceAlways(cfg: Config, steps: seq<Step>)
    ensures PollersOnce(Exec(cfg, steps))
  {
    if steps != [] {
      OnceAlways(cfg, steps[..|steps| - 1]);
      Integrity.Always(cfg, steps[..|steps| - 1]);
      OnceStep(cfg, Exec(cfg, steps[..|steps| - 1]), steps[|steps| - 1]);
    }
  }

  /** Every run, whatever throws, crashes and overlaps, accounts for the copies of every
      event. */
  lemma {:induction false} AccountsAlways(cfg: Config, steps: seq<Step>, e: nat)
    ensures Accounts(cfg, Exec(cfg, steps), e, TallyOf(cfg, steps, e))
  {
    if steps == [] {
      assert Entries(INIT, e) == {} && Pollers(INIT, e) == {} && Hands(INIT, e) == {};
    } else {
      var before := steps[..|steps| - 1];
      AccountsAlways(cfg, before, e);
      Integrity.Always(cfg, before);
      EachEntryOnce(cfg, before);
      OnceAlways(cfg, before);
      StepAccounts(cfg, Exec(cfg, before), steps[|steps| - 1], e, TallyOf(cfg, before, e));
    }
  }

  // ---------- promotions out of turn ----------

  /** The pollers that have read the event and not yet removed it. */
  function Removers(s: State, e: nat): set<nat> {
    set p | p in s.pollers && s.pollers[p].Removing? && e in s.pollers[p].due
  }

  /** A poller reads the event while another has read it and not yet removed it. */
  predicate ReadsAgain(cfg: Config, s: State, step: Step, e: nat) {
    step.Poll? && step.p !in s.pollers && e in Due(s.cache.retry, s.now, cfg.batchSize) && Removers(s, e) != {}
  }

  /** How often that has happened. */
  function Rereads(cfg: Config, steps: seq<Step>, e: nat): nat {
    if steps == [] then 0
    else
      var before := steps[..|steps| - 1];
      Rereads(cfg, before, e) + if ReadsAgain(cfg, Exec(cfg, before), steps[|steps| - 1], e) then 1 else 0
  }

  /** Every removal that finds the event gone, past or to come, has its rereading. */
  ghost predicate Foreseen(s: State, e: nat, stale: nat, rereads: nat) {
    stale <= rereads && stale + |Removers(s, e)| <= rereads + Slots(s, e)
  }

  lemma PollForeseen(cfg: Config, s: State, p: nat, e: nat, stale: nat, rereads: nat)
    requires Foreseen(s, e, stale, rereads) && p !in s.pollers
    ensures Foreseen(DoPoll(cfg, s, p), e, stale, rereads + if ReadsAgain(cfg, s, Poll(p), e) then 1 else 0)
  {
    var due := Due(s.cache.retry, s.now, cfg.batchSize);
    var t := DoPoll(cfg, s, p);
    Spacing.SizeByOne(Removers(s, e), Removers(t, e), p);
    if e in due {
      DueIsDue(s.cache.retry, s.now, cfg.batchSize, e);
      assert Slots(s, e) == 1;
    }
  }

  lemma PromoteForeseen(s: State, p: nat, e: nat, y: Tally, rereads: nat)
    requires Foreseen(s, e, y.stale, rereads) && p in s.pollers
    ensures Foreseen(DoPromote(s, p), e, Count(s, Promote(p), e, y).stale, rereads)
  {
    var t := DoPromote(s, p);
    Spacing.SizeByOne(Removers(s, e), Removers(t, e), p);
    if s.pollers[p].Removing? { TakeOutPlaces(s, p, e); }
  }

  /** No other step removes the event from the schedule, or gives it to a poller. */
  lemma OthersForeseen(s: State, t: State, e: nat, stale: nat, rereads: nat)
    requires Foreseen(s, e, stale, rereads) && Slots(s, e) <= Slots(t, e) && Removers(t, e) <= Removers(s, e)
    ensures Foreseen(t, e, stale, rereads)
  {
    Spacing.SubsetSize(Removers(t, e), Removers(s, e));
  }

  lemma WorkSchedules(cfg: Config, s: State, w: nat, fault: Fault, u: real, e: nat)
    requires w in s.workers
    ensures Slots(s, e) <= Slots(DoWork(cfg, s, w, fault, u), e)
  {
    if IsWorking(s, w) && !JobOf(s, w).stage.Release? {
      HandleCommandQueue(cfg, s.now, u, JobOf(s, w).event, s.workers[w].i, s.db, s.cache, JobOf(s, w).stage);
    }
  }

  lemma HandlePolls(cfg: Config, s: State, h: nat, id: nat)
    requires h in s.handlers
    ensures var t := DoHandle(cfg, s, h, id); t.cache.retry == s.cache.retry && t.pollers == s.pollers
  {}

  lemma StepForeseen(cfg: Config, s: State, step: Step, e: nat, y: Tally, rereads: nat)
    requires Foreseen(s, e, y.stale, rereads)
    ensures Foreseen(Apply(cfg, s, step), e, Count(s, step, e, y).stale,
                     rereads + if ReadsAgain(cfg, s, step, e) then 1 else 0)
  {
    var t := Apply(cfg, s, step);
    match step {
      case Poll(p) => if p !in s.pollers { PollForeseen(cfg, s, p, e, y.stale, rereads); }
      case Promote(p) => if p in s.pollers { PromoteForeseen(s, p, e, y, rereads); }
      case Work(w, fault, u) =>
        if w in s.workers {
          WorkSchedules(cfg, s, w, fault, u, e);
          WorkKeepsPollers(cfg, s, w, fault, u);
        }
        OthersForeseen(s, t, e, y.stale, rereads);
      case Handle(h, id) =>
        if h in s.handlers { HandlePolls(cfg, s, h, id); }
        OthersForeseen(s, t, e, y.stale, rereads);
      case _ => OthersForeseen(s, t, e, y.stale, rereads);
    }
  }

  lemma {:induction false} ForeseenAlways(cfg: Config, steps: seq<Step>, e: nat)
    ensures Foreseen(Exec(cfg, steps), e, TallyOf(cfg, steps, e).stale, Rereads(cfg, steps, e))
  {
    if steps == [] {
      assert Removers(INIT, e) == {};
    } else {
      var before := steps[..|steps| - 1];
      ForeseenAlways(cfg, before, e);
      StepForeseen(cfg, Exec(cfg, before), steps[|steps| - 1], e, TallyOf(cfg, before, e), Rereads(cfg, before, e));
    }
  }

  // ---------- retries end ----------

  /** In every run, whatever throws, crashes, is duplicated or is promoted twice, an event is
      run, taken in hand, rescheduled and promoted only so often: once for each publication and
      for each read of its retry that overlaps another, and for the attempts it has. */
  lemma {:induction false} RetriesEnd(cfg: Config, steps: seq<Step>, e: nat)
    ensures var y := TallyOf(cfg, steps, e);
            && |y.runs| <= y.published + y.stale + cfg.maxAttempts - 1
            && |y.scheduled| <= cfg.maxAttempts - 1
            && |y.taken| <= y.stale + cfg.maxAttempts - 1
            && y.locks <= y.published + y.stale + cfg.maxAttempts - 1
            && y.stale <= Rereads(cfg, steps, e)
  {
    AccountsAlways(cfg, steps, e);
    ForeseenAlways(cfg, steps, e);
  }

  // ---------- one poller at a time ----------

  ghost predicate OnePoller(s: State, e: nat) {
    forall p, q | Carriers.PolledBy(s, p, e) && Carriers.PolledBy(s, q, e) :: p == q
  }

  ghost predicate OnePollerRun(cfg: Config, steps: seq<Step>, e: nat) {
    OnePoller(Exec(cfg, steps), e) && (steps != [] ==> OnePollerRun(cfg, steps[..|steps| - 1], e))
  }

  lemma RereadsOverlap(cfg: Config, s: State, step: Step, e: nat)
    requires ReadsAgain(cfg, s, step, e)
    ensures !OnePoller(Apply(cfg, s, step), e)
  {
    var t := Apply(cfg, s, step);
    var q :| q in Removers(s, e);
    assert Carriers.PolledBy(t, step.p, e) && Carriers.PolledBy(t, q, e);
  }

  /** As long as no two pollers have the event before them at once, however often it was
      published, nothing is promoted out of turn: retries end with the publications. */
  lemma {:induction false} OnePollerRetriesEnd(cfg: Config, steps: seq<Step>, e: nat)
    requires OnePollerRun(cfg, steps, e)
    ensures Rereads(cfg, steps, e) == 0
    ensures var y := TallyOf(cfg, steps, e);
            && y.stale == 0
            && |y.runs| <= y.published + cfg.maxAttempts - 1 && y.locks <= y.published + cfg.maxAttempts - 1
            && |y.scheduled| <= cfg.maxAttempts - 1 && |y.taken| <= cfg.maxAttempts - 1
  {
    RetriesEnd(cfg, steps, e);
    if steps != [] {
      var before := steps[..|steps| - 1];
      OnePollerRetriesEnd(cfg, before, e);
      if ReadsAgain(cfg, Exec(cfg, before), steps[|steps| - 1], e) {
        RereadsOverlap(cfg, Exec(cfg, before), steps[|steps| - 1], e);
      }
    }
  }
}
