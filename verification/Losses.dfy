/** Exactly when a run without crashes and without infrastructure errors outside the runner
    loses an event. */
module Losses {
  import opened Domain
  import opened Pipeline
  import opened Integrity
  import opened Leases
  import opened Carriers
  import Backoff

  function Earlier(steps: seq<Step>): seq<Step>
    requires steps != []
  {
    steps[..|steps| - 1]
  }

  function Last(steps: seq<Step>): Step
    requires steps != []
  {
    steps[|steps| - 1]
  }

  ghost predicate FaultFreeRun(cfg: Config, steps: seq<Step>) {
    steps != [] ==> FaultFreeRun(cfg, Earlier(steps)) && FaultFree(Exec(cfg, Earlier(steps)), Last(steps))
  }

  /** Nothing is lost at any point of the run. */
  ghost predicate NeverLost(cfg: Config, steps: seq<Step>) {
    NothingLost(Exec(cfg, steps)) && (steps != [] ==> NeverLost(cfg, Earlier(steps)))
  }

  ghost predicate NoLosingStep(cfg: Config, steps: seq<Step>) {
    steps != [] ==> NoLosingStep(cfg, Earlier(steps)) && forall e :: !Loses(Exec(cfg, Earlier(steps)), Last(steps), e)
  }

  lemma {:induction false} OwnersAlways(cfg: Config, steps: seq<Step>)
    requires FaultFreeRun(cfg, steps)
    ensures OwnersInv(Exec(cfg, steps))
  {
    if steps != [] {
      OwnersAlways(cfg, Earlier(steps));
      Integrity.Always(cfg, Earlier(steps));
      Leases.Always(cfg, Earlier(steps));
      OwnersStep(cfg, Exec(cfg, Earlier(steps)), Last(steps));
    }
  }

  lemma StepKeepsAll(cfg: Config, s: State, step: Step)
    requires Inv(cfg, s) && OwnersInv(s) && FaultFree(s, step) && NothingLost(s) && forall e :: !Loses(s, step, e)
    ensures NothingLost(Apply(cfg, s, step))
  {
    var t := Apply(cfg, s, step);
    forall e | e in t.cache.log ensures HasOutcome(t, e) || Carried(t, e) {
      if e !in s.cache.log {
        PublishedIsCarried(cfg, s, step, e);
      } else if HasOutcome(s, e) {
        OutcomeStays(cfg, s, step, e);
      } else {
        StepLosesExactly(cfg, s, step, e);
      }
    }
  }

  lemma LosingStepLoses(cfg: Config, s: State, step: Step, e: nat)
    requires Inv(cfg, s) && OwnersInv(s) && FaultFree(s, step) && Loses(s, step, e)
    ensures !NothingLost(Apply(cfg, s, step))
  {
    assert HeldBy(s, step.w, e);
    assert e in s.cache.log;
    StepLosesExactly(cfg, s, step, e);
    LogByOne(cfg, s, step);
    assert e in Apply(cfg, s, step).cache.log;
  }

  /** Without crashes and without infrastructure errors outside the run, with any number of
      workers, pollers and duplicate messages: every published event keeps a carrier until
      it has its outcome, at every point of the run, if and only if no step acknowledges its
      last message behind a holder past its reschedule, or abandons it in an aborted batch. */
  lemma {:induction false} NothingLostExactly(cfg: Config, steps: seq<Step>)
    requires FaultFreeRun(cfg, steps)
    ensures NeverLost(cfg, steps) <==> NoLosingStep(cfg, steps)
  {
    if steps != [] {
      var s := Exec(cfg, Earlier(steps));
      NothingLostExactly(cfg, Earlier(steps));
      Integrity.Always(cfg, Earlier(steps));
      OwnersAlways(cfg, Earlier(steps));
      if NoLosingStep(cfg, steps) {
        StepKeepsAll(cfg, s, Last(steps));
      } else if NoLosingStep(cfg, Earlier(steps)) {
        var e :| Loses(s, Last(steps), e);
        LosingStepLoses(cfg, s, Last(steps), e);
      }
    }
  }

  ghost predicate OneWorkerRun(cfg: Config, steps: seq<Step>) {
    OneWorker(Exec(cfg, steps)) && (steps != [] ==> OneWorkerRun(cfg, Earlier(steps)))
  }

  /** The last carrier of an event without outcome waits in a batch its worker abandons. */
  ghost predicate Abandons(s: State, step: Step, e: nat) {
    && step.Work? && step.fault.NoFault? && Backoff.IsDraw(step.u) && AbandonsBatch(s, step.w, e)
    && !HasOutcome(s, e) && !Queued(s, e)
  }

  ghost predicate NeverAbandons(cfg: Config, steps: seq<Step>) {
    steps != [] ==>
      NeverAbandons(cfg, Earlier(steps)) && forall e :: !Abandons(Exec(cfg, Earlier(steps)), Last(steps), e)
  }

  lemma AloneLosesByAbandoning(s: State, step: Step, e: nat)
    requires OneWorker(s)
    ensures Loses(s, step, e) <==> Abandons(s, step, e)
  {
    if Abandons(s, step, e) {
      assert forall v | v != step.w :: !HeldBy(s, v, e);
    }
  }

  lemma {:induction false} LosingIsAbandoning(cfg: Config, steps: seq<Step>)
    requires OneWorkerRun(cfg, steps)
    ensures NoLosingStep(cfg, steps) <==> NeverAbandons(cfg, steps)
  {
    if steps != [] {
      LosingIsAbandoning(cfg, Earlier(steps));
      var s := Exec(cfg, Earlier(steps));
      forall e ensures Loses(s, Last(steps), e) <==> Abandons(s, Last(steps), e) {
        AloneLosesByAbandoning(s, Last(steps), e);
      }
    }
  }

  /** A single worker with any batch size loses nothing, however often runs throw and messages
      are duplicated, if and only if it never abandons a batch with the last carrier of an
      event in it. */
  lemma {:induction false} OneWorkerLosesByAbandoning(cfg: Config, steps: seq<Step>)
    requires FaultFreeRun(cfg, steps) && OneWorkerRun(cfg, steps)
    ensures NeverLost(cfg, steps) <==> NeverAbandons(cfg, steps)
  {
    NothingLostExactly(cfg, steps);
    LosingIsAbandoning(cfg, steps);
  }

  lemma NothingBehind(cfg: Config, s: State, step: Step, e: nat)
    requires Inv(cfg, s) && cfg.batchSize == 1
    ensures !Abandons(s, step, e)
  {
    if step.Work? && step.w in s.workers {
      assert WorkerOk(cfg, s.db, s.cache.log, s.workers[step.w]);
    }
  }

  lemma {:induction false} NothingEverBehind(cfg: Config, steps: seq<Step>)
    requires cfg.batchSize == 1
    ensures NeverAbandons(cfg, steps)
  {
    if steps != [] {
      NothingEverBehind(cfg, Earlier(steps));
      Integrity.Always(cfg, Earlier(steps));
      forall e ensures !Abandons(Exec(cfg, Earlier(steps)), Last(steps), e) {
        NothingBehind(cfg, Exec(cfg, Earlier(steps)), Last(steps), e);
      }
    }
  }

  /** So one that reads a single message at a time loses nothing at all. */
  lemma {:induction false} OneWorkerLosesNothing(cfg: Config, steps: seq<Step>)
    requires cfg.batchSize == 1 && FaultFreeRun(cfg, steps) && OneWorkerRun(cfg, steps)
    ensures NoLosingStep(cfg, steps) && NeverLost(cfg, steps)
  {
    LosingIsAbandoning(cfg, steps);
    OneWorkerLosesByAbandoning(cfg, steps);
    NothingEverBehind(cfg, steps);
  }
}
