/** Concrete runs without crashes or infrastructure errors outside the run that lose an event,
    one for each of the two ways.  The steps of intake, worker and poller that they are made
    of come first, each as a lemma that takes a run one step further; other modules build
    their own runs from the same steps. */
module Races {
  import opened Domain
  import opened SortedSet
  import opened Tables
  import opened Pipeline
  import opened Carriers
  import opened Losses
  import Backoff
  import Leases

  /** One more step of a run without faults. */
  lemma Do(cfg: Config, steps: seq<Step>, s: State, step: Step, t: State) returns (more: seq<Step>)
    requires FaultFreeRun(cfg, steps) && Exec(cfg, steps) == s && FaultFree(s, step) && Apply(cfg, s, step) == t
    ensures FaultFreeRun(cfg, more) && Exec(cfg, more) == t && more == steps + [step]
    ensures OneWorkerRun(cfg, steps) && Leases.OneWorker(t) ==> OneWorkerRun(cfg, more)
  {
    more := steps + [step];
    assert Earlier(more) == steps;
  }

  const P := Payload(70, 1, 500, "USD", Success, 0)
  const ROW := Event(70, None, 500, "USD", Success, P, 0, ReconciliationState.Pending, 0, None)
  const DB := EMPTY_DB.(events := map[7 := ROW], byGateway := map[70 := 7], upserts := [P])

  function Queued1(cfg: Config): Cache {
    EMPTY_CACHE.(idem := map[70 := cfg.idempotencyTtl], wins := map[70 := [0]], log := [7])
  }

  function Two(one: Worker, two: Worker): map<nat, Worker> { map[1 := one, 2 := two] }

  function Locked1(cfg: Config): Cache {
    Queued1(cfg).(cursor := 1, pending := {0}, locks := map[7 := Lease(0, cfg.lockTtl)], nextToken := 1)
  }

  function Hand(i: nat, end: nat, token: nat, until: nat, stage: Stage): Worker {
    Working(i, end, Job(7, token, until, stage))
  }

  const IDLE := Two(Reading, Reading)

  /** A webhook wins its key. */
  lemma Keyed(cfg: Config, steps: seq<Step>, s: State, p: Payload, keyed: Cache) returns (more: seq<Step>)
    requires FaultFreeRun(cfg, steps) && Exec(cfg, steps) == s && s.handlers == map[] && WellFormed(p)
    requires KeyFree(s.cache, p.gatewayId, s.now) && keyed == SetKey(s.cache, p.gatewayId, s.now, cfg.idempotencyTtl)
    ensures FaultFreeRun(cfg, more) && (OneWorkerRun(cfg, steps) ==> OneWorkerRun(cfg, more))
    ensures Exec(cfg, more) == s.(cache := keyed, handlers := map[0 := Resolving(p)])
  {
    var s1 := s.(handlers := map[0 := Marking(p)]);
    more := Do(cfg, steps, s, Deliver(0, p), s1);
    more := Do(cfg, more, s1, Handle(0, 0), s.(cache := keyed, handlers := map[0 := Resolving(p)]));
  }

  lemma OneHandler(a: Handler, b: Handler)
    ensures map[0 := a][0 := b] == map[0 := b] && map[0 := a] - {0} == map[]
  {}

  /** Then it looks up the order. */
  lemma Resolved(cfg: Config, steps: seq<Step>, s: State, p: Payload, keyed: Cache) returns (more: seq<Step>)
    requires FaultFreeRun(cfg, steps) && Exec(cfg, steps) == s && s.handlers == map[] && WellFormed(p)
    requires KeyFree(s.cache, p.gatewayId, s.now) && keyed == SetKey(s.cache, p.gatewayId, s.now, cfg.idempotencyTtl)
    ensures FaultFreeRun(cfg, more) && (OneWorkerRun(cfg, steps) ==> OneWorkerRun(cfg, more))
    ensures var order := if p.orderId in s.db.orders then Some(p.orderId) else None;
            Exec(cfg, more) == s.(cache := keyed, handlers := map[0 := Upserting(p, order)])
  {
    var order := if p.orderId in s.db.orders then Some(p.orderId) else None;
    more := Keyed(cfg, steps, s, p, keyed);
    OneHandler(Resolving(p), Upserting(p, order));
    more := Do(cfg, more, s.(cache := keyed, handlers := map[0 := Resolving(p)]), Handle(0, 0),
               s.(cache := keyed, handlers := map[0 := Upserting(p, order)]));
  }

  /** And goes through its other steps. */
  lemma TakenIn(cfg: Config, steps: seq<Step>, s: State, p: Payload, id: nat, keyed: Cache, db: Db)
    returns (more: seq<Step>)
    requires FaultFreeRun(cfg, steps) && Exec(cfg, steps) == s && s.handlers == map[] && WellFormed(p)
    requires KeyFree(s.cache, p.gatewayId, s.now) && keyed == SetKey(s.cache, p.gatewayId, s.now, cfg.idempotencyTtl)
    requires id !in s.db.events && p.gatewayId in db.byGateway
    requires db == UpsertPending(s.db, id, p, if p.orderId in s.db.orders then Some(p.orderId) else None)
    ensures FaultFreeRun(cfg, more) && (OneWorkerRun(cfg, steps) ==> OneWorkerRun(cfg, more))
    ensures Exec(cfg, more) == s.(db := db, cache := Publish(keyed, db.byGateway[p.gatewayId]))
  {
    var e := db.byGateway[p.gatewayId];
    var order := if p.orderId in s.db.orders then Some(p.orderId) else None;
    var s3 := s.(cache := keyed, handlers := map[0 := Upserting(p, order)]);
    var s4 := s3.(db := db, handlers := map[0 := Publishing(e)]);
    more := Resolved(cfg, steps, s, p, keyed);
    OneHandler(Upserting(p, order), Handler.Publishing(e));
    more := Do(cfg, more, s3, Handle(0, id), s4);
    more := Finished(cfg, more, s4, e);
  }

  lemma Finished(cfg: Config, steps: seq<Step>, s: State, e: nat) returns (more: seq<Step>)
    requires FaultFreeRun(cfg, steps) && Exec(cfg, steps) == s && s.handlers == map[0 := Handler.Publishing(e)]
    ensures FaultFreeRun(cfg, more) && (OneWorkerRun(cfg, steps) ==> OneWorkerRun(cfg, more))
    ensures Exec(cfg, more) == s.(cache := Publish(s.cache, e), handlers := map[])
  {
    OneHandler(Handler.Publishing(e), Handler.Publishing(e));
    more := Do(cfg, steps, s, Handle(0, 0), s.(cache := Publish(s.cache, e), handlers := map[]));
  }

  lemma FirstWorker(one: Worker, wk: Worker)
    ensures Two(one, Reading)[1 := wk] == Two(wk, Reading)
  {}

  /** The first worker reads a batch and takes the lock of its first event. */
  lemma Grabbed(cfg: Config, steps: seq<Step>, s: State, end: nat, read: Cache, held: Cache) returns (more: seq<Step>)
    requires FaultFreeRun(cfg, steps) && Exec(cfg, steps) == s && s.workers == IDLE
    requires var i := s.cache.cursor;
             && i < |s.cache.log| && Available(s.cache, cfg.batchSize) == end - i > 0 && s.cache.log[i] == 7
             && read == ReadGroup(s.cache, cfg.batchSize)
             && LockFree(read, 7, s.now) && held == SetLock(read, 7, s.now, cfg.lockTtl)
    ensures FaultFreeRun(cfg, more)
    ensures Exec(cfg, more) ==
            s.(cache := held,
               workers := Two(Hand(s.cache.cursor, end, s.cache.nextToken, s.now + cfg.lockTtl, FindEvent), Reading))
  {
    var i := s.cache.cursor;
    var s1 := s.(cache := read, workers := Two(Locking(i, end), Reading));
    FirstWorker(Reading, Locking(i, end));
    more := Do(cfg, steps, s, Work(1, NoFault, 0.0), s1);
    more := Taken(cfg, more, s1, i, end, held);
  }

  /** The first worker releases its lock. */
  lemma Freed(cfg: Config, steps: seq<Step>, s: State, i: nat, end: nat, job: Job, free: Cache)
    returns (more: seq<Step>)
    requires FaultFreeRun(cfg, steps) && Exec(cfg, steps) == s && s.workers == Two(Working(i, end, job), Reading)
    requires job.stage.Release? && free == ReleaseLock(s.cache, job.event, job.token, s.now)
    ensures FaultFreeRun(cfg, more)
    ensures Exec(cfg, more) ==
            s.(cache := free,
               workers := Two(if job.stage.outcome.Aborted? then Reading else NextEntry(i, end), Reading))
  {
    var next := if job.stage.outcome.Aborted? then Reading else NextEntry(i, end);
    FirstWorker(Working(i, end, job), next);
    more := Do(cfg, steps, s, Work(1, NoFault, 0.0), s.(cache := free, workers := Two(next, Reading)));
  }

  /** It takes the lock of its next event. */
  lemma Taken(cfg: Config, steps: seq<Step>, s: State, i: nat, end: nat, held: Cache) returns (more: seq<Step>)
    requires FaultFreeRun(cfg, steps) && Exec(cfg, steps) == s && s.workers == Two(Locking(i, end), Reading)
    requires i < |s.cache.log| && s.cache.log[i] == 7 && LockFree(s.cache, 7, s.now)
    requires held == SetLock(s.cache, 7, s.now, cfg.lockTtl)
    ensures FaultFreeRun(cfg, more)
    ensures Exec(cfg, more) ==
            s.(cache := held, workers := Two(Hand(i, end, s.cache.nextToken, s.now + cfg.lockTtl, FindEvent), Reading))
  {
    var hand := Hand(i, end, s.cache.nextToken, s.now + cfg.lockTtl, FindEvent);
    FirstWorker(Locking(i, end), hand);
    more := Do(cfg, steps, s, Work(1, NoFault, 0.0), s.(cache := held, workers := Two(hand, Reading)));
  }

  /** A webhook for an unknown order is taken in as event 7 and published. */
  lemma Published(cfg: Config) returns (steps: seq<Step>)
    ensures FaultFreeRun(cfg, steps) && Exec(cfg, steps) == INIT.(db := DB, cache := Queued1(cfg))
  {
    assert WinsOf(EMPTY_CACHE, 70) + [0] == [0];
    assert SetKey(EMPTY_CACHE, 70, 0, cfg.idempotencyTtl) == Queued1(cfg).(log := []);
    steps := TakenIn(cfg, [], INIT, P, 7, Queued1(cfg).(log := []), DB);
  }

  /** Two workers start, and the first takes the message and the lock. */
  lemma Locked(cfg: Config) returns (steps: seq<Step>)
    ensures FaultFreeRun(cfg, steps)
    ensures Exec(cfg, steps) ==
            INIT.(db := DB, workers := Two(Hand(0, 1, 0, cfg.lockTtl, FindEvent), Reading), cache := Locked1(cfg))
  {
    steps := Published(cfg);
    var s0 := INIT.(db := DB, cache := Queued1(cfg));
    steps := Do(cfg, steps, s0, StartWorker(1), s0.(workers := map[1 := Reading]));
    steps := Do(cfg, steps, s0.(workers := map[1 := Reading]), StartWorker(2), s0.(workers := IDLE));
    var read := Queued1(cfg).(cursor := 1, pending := {0});
    assert ReadGroup(Queued1(cfg), cfg.batchSize) == read by { assert Span(0, 1) == {0}; }
    steps := Grabbed(cfg, steps, s0.(workers := IDLE), 1, read, Locked1(cfg));
  }

  /** One command of the first worker, or its throwing without effect. */
  lemma Command(cfg: Config, steps: seq<Step>, s: State, i: nat, end: nat, job: Job, throws: bool, reply: Reply)
    returns (more: seq<Step>)
    requires FaultFreeRun(cfg, steps) && Exec(cfg, steps) == s && s.workers == Two(Working(i, end, job), Reading)
    requires !job.stage.Release? && !reply.stage.AckReturned?
    requires if throws then InRun(job.stage) && reply == Reply(s.db, s.cache, Increment)
             else reply == HandleCommand(cfg, s.now, 0.0, job.event, i, s.db, s.cache, job.stage)
    ensures FaultFreeRun(cfg, more)
    ensures Exec(cfg, more) == s.(db := reply.db, cache := reply.cache,
                                  workers := Two(Working(i, end, job.(stage := reply.stage)), Reading))
  {
    var fault := if throws then Fault.Before else NoFault;
    var t := s.(db := reply.db, cache := reply.cache,
                workers := Two(Working(i, end, job.(stage := reply.stage)), Reading));
    assert s.workers[1 := t.workers[1]] == t.workers;
    assert DoCommand(cfg, s, 1, i, end, job, fault, 0.0) == t;
    more := Do(cfg, steps, s, Work(1, fault, 0.0), t);
  }

  /** The run throws at its first command, and the failure handler counts and acknowledges. */
  lemma Fails(cfg: Config, steps: seq<Step>, s: State, i: nat, end: nat, job: Job, failed: Db) returns (more: seq<Step>)
    requires FaultFreeRun(cfg, steps) && Exec(cfg, steps) == s && s.workers == Two(Working(i, end, job), Reading)
    requires job.stage.FindEvent? && job.event in s.db.events && failed == IncrementAttempts(s.db, job.event)
    ensures FaultFreeRun(cfg, more)
    ensures var n := failed.events[job.event].attempts;
            Exec(cfg, more) == s.(db := failed, cache := Ack(s.cache, i), workers := Two(Working(i, end,
              job.(stage := if n >= cfg.maxAttempts then Bury(n) else MarkFailedState(n))), Reading))
  {
    var n := failed.events[job.event].attempts;
    more := Command(cfg, steps, s, i, end, job, true, Reply(s.db, s.cache, Increment));
    var job1 := job.(stage := Increment);
    var s1 := s.(workers := Two(Working(i, end, job1), Reading));
    more := Command(cfg, more, s1, i, end, job1, false, Reply(failed, s.cache, AckFailed(n)));
    var job2 := job.(stage := AckFailed(n));
    var s2 := s.(db := failed, workers := Two(Working(i, end, job2), Reading));
    more := Command(cfg, more, s2, i, end, job2, false,
                    Reply(failed, Ack(s.cache, i), if n >= cfg.maxAttempts then Bury(n) else MarkFailedState(n)));
  }

  /** The event fails and is rescheduled. */
  lemma Rescheduling(cfg: Config, steps: seq<Step>, s: State, i: nat, end: nat, job: Job, n: nat, failed: Db)
    returns (more: seq<Step>)
    requires FaultFreeRun(cfg, steps) && Exec(cfg, steps) == s && s.workers == Two(Working(i, end, job), Reading)
    requires job.stage == MarkFailedState(n) && failed == MarkFailed(s.db, job.event)
    ensures FaultFreeRun(cfg, more)
    ensures Exec(cfg, more) ==
            s.(db := failed,
               cache := Tables.Schedule(s.cache, job.event, s.now + NonNegative(Backoff.BackoffMs(n, 0.0))),
               workers := Two(Working(i, end, job.(stage := Release(Rescheduled))), Reading))
  {
    more := Command(cfg, steps, s, i, end, job, false, Reply(failed, s.cache, Reschedule(n)));
    var job1 := job.(stage := Reschedule(n));
    var s1 := s.(db := failed, workers := Two(Working(i, end, job1), Reading));
    more := Command(cfg, more, s1, i, end, job1, false,
                    Reply(failed, Tables.Schedule(s.cache, job.event, s.now + NonNegative(Backoff.BackoffMs(n, 0.0))),
                          Release(Rescheduled)));
  }

  const FAILED1 := DB.(events := map[7 := ROW.(attempts := 1)])

  lemma Counted(cfg: Config) returns (steps: seq<Step>)
    ensures FaultFreeRun(cfg, steps)
    ensures Exec(cfg, steps) ==
            INIT.(db := FAILED1, cache := Locked1(cfg).(pending := {}),
                  workers := Two(Hand(0, 1, 0, cfg.lockTtl,
                                      if 1 >= cfg.maxAttempts then Bury(1) else MarkFailedState(1)), Reading))
  {
    steps := Locked(cfg);
    var s := INIT.(db := DB, workers := Two(Hand(0, 1, 0, cfg.lockTtl, FindEvent), Reading), cache := Locked1(cfg));
    assert IncrementAttempts(DB, 7) == FAILED1;
    assert Ack(Locked1(cfg), 0) == Locked1(cfg).(pending := {});
    steps := Fails(cfg, steps, s, 0, 1, Job(7, 0, cfg.lockTtl, FindEvent), FAILED1);
  }

  const FAILED2 := DB.(events := map[7 := ROW.(attempts := 1, state := ReconciliationState.Failed)])

  lemma Rescheduled1(cfg: Config) returns (steps: seq<Step>, ready: nat)
    requires 1 < cfg.maxAttempts
    ensures ready <= 1200 && FaultFreeRun(cfg, steps)
    ensures Exec(cfg, steps) ==
            INIT.(db := FAILED2, cache := Locked1(cfg).(pending := {}, retry := [Slot(ready, 7)]),
                  workers := Two(Hand(0, 1, 0, cfg.lockTtl, Release(Rescheduled)), Reading))
  {
    steps := Counted(cfg);
    assert Backoff.Pow2(0) == 1;
    Backoff.BackoffWithinBounds(1, 0.0);
    ready := Backoff.BackoffMs(1, 0.0);
    var s := INIT.(db := FAILED1, cache := Locked1(cfg).(pending := {}),
                   workers := Two(Hand(0, 1, 0, cfg.lockTtl, MarkFailedState(1)), Reading));
    assert MarkFailed(FAILED1, 7) == FAILED2;
    assert Tables.Schedule(s.cache, 7, ready) == s.cache.(retry := [Slot(ready, 7)]);
    steps := Rescheduling(cfg, steps, s, 0, 1, Job(7, 0, cfg.lockTtl, MarkFailedState(1)), 1, FAILED2);
  }

  // ---------- a message dropped behind a holder past its reschedule ----------

  const CFG := Config(5, 30000, 10, 3600000, 86400000)
  const HELD := Hand(0, 1, 0, 30000, Release(Rescheduled))
  const PROMOTED := Locked1(CFG).(pending := {}, log := [7, 7])

  /** The retry falls due while the first worker still holds the lock. */
  lemma Polled() returns (steps: seq<Step>, ready: nat)
    ensures ready <= 1200 && FaultFreeRun(CFG, steps)
    ensures Exec(CFG, steps) ==
            INIT.(now := 1200, db := FAILED2, cache := Locked1(CFG).(pending := {}, retry := [Slot(ready, 7)]),
                  pollers := map[0 := Removing([7])], workers := Two(HELD, Reading))
  {
    steps, ready := Rescheduled1(CFG);
    var s0 := INIT.(db := FAILED2, cache := Locked1(CFG).(pending := {}, retry := [Slot(ready, 7)]),
                    workers := Two(HELD, Reading));
    var s1 := s0.(now := 1200);
    steps := Do(CFG, steps, s0, Tick(1200), s1);
    assert Due([Slot(ready, 7)], 1200, 10) == [7];
    steps := Do(CFG, steps, s1, Poll(0), s1.(pollers := map[0 := Removing([7])]));
  }

  /** It is promoted. */
  lemma Promoted() returns (steps: seq<Step>)
    ensures FaultFreeRun(CFG, steps)
    ensures Exec(CFG, steps) ==
            INIT.(now := 1200, db := FAILED2, cache := PROMOTED, pollers := map[0 := Promoting([])],
                  workers := Two(HELD, Reading))
  {
    var ready;
    steps, ready := Polled();
    var quiet := Locked1(CFG).(pending := {});
    var s2 := INIT.(now := 1200, db := FAILED2, cache := quiet.(retry := [Slot(ready, 7)]),
                    pollers := map[0 := Removing([7])], workers := Two(HELD, Reading));
    var s3 := s2.(cache := quiet, pollers := map[0 := Promoting([7])]);
    var s4 := s2.(cache := PROMOTED, pollers := map[0 := Promoting([])]);
    assert Without([Slot(ready, 7)], Ids([7])) == [];
    steps := Do(CFG, steps, s2, Promote(0), s3);
    assert quiet.log + [7] == PROMOTED.log;
    assert Publish(quiet, 7) == PROMOTED && [7][1..] == [];
    steps := Do(CFG, steps, s3, Promote(0), s4);
  }

  const REREAD := PROMOTED.(cursor := 2, pending := {1})

  lemma Reread() returns (steps: seq<Step>)
    ensures FaultFreeRun(CFG, steps)
    ensures Exec(CFG, steps) ==
            INIT.(now := 1200, db := FAILED2, cache := REREAD, pollers := map[0 := Promoting([])],
                  workers := Two(HELD, Locking(1, 2)))
  {
    steps := Promoted();
    var s := INIT.(now := 1200, db := FAILED2, cache := PROMOTED, pollers := map[0 := Promoting([])],
                   workers := Two(HELD, Reading));
    assert ReadGroup(PROMOTED, 10) == REREAD by { assert Span(1, 2) == {1} + Span(2, 2); }
    SecondWorker(HELD, Reading, Locking(1, 2));
    steps := Do(CFG, steps, s, Work(2, NoFault, 0.0), s.(cache := REREAD, workers := Two(HELD, Locking(1, 2))));
  }

  lemma SecondWorker(one: Worker, two: Worker, wk: Worker)
    ensures Two(one, two)[2 := wk] == Two(one, wk)
  {}

  lemma Missed() returns (steps: seq<Step>)
    ensures FaultFreeRun(CFG, steps)
    ensures Exec(CFG, steps) ==
            INIT.(now := 1200, db := FAILED2, cache := REREAD.(nextToken := 2), pollers := map[0 := Promoting([])],
                  workers := Two(HELD, Skipping(1, 2)))
  {
    steps := Reread();
    var s := INIT.(now := 1200, db := FAILED2, cache := REREAD, pollers := map[0 := Promoting([])],
                   workers := Two(HELD, Locking(1, 2)));
    assert SetLock(REREAD, 7, 1200, 30000) == REREAD.(nextToken := 2);
    SecondWorker(HELD, Locking(1, 2), Skipping(1, 2));
    steps := Do(CFG, steps, s, Work(2, NoFault, 0.0),
                s.(cache := REREAD.(nextToken := 2), workers := Two(HELD, Skipping(1, 2))));
  }

  /** The second worker has read the promoted message before the first has released the
      lock, and acknowledges it unread: the event has no outcome and no carrier. */
  lemma EventLostBehindReschedule()
    ensures exists steps :: FaultFreeRun(CFG, steps) && !NothingLost(Exec(CFG, steps))
  {
    var steps := Missed();
    var s := Exec(CFG, steps);
    assert 7 == s.cache.log[0];
    assert !HasOutcome(s, 7) && !Carried(s, 7);
  }

  // ---------- a batch abandoned by a second dead letter ----------

  const ONCE := Config(1, 30000, 10, 3600000, 1000)
  const BURIED := FAILED1.(deadLetters := map[7 := DeadLetter(P, 1)])
  const DEAD := BURIED.(events := map[7 := ROW.(attempts := 1, state := DeadLettered, processedAt := Some(0))])

  lemma Burying() returns (steps: seq<Step>)
    ensures FaultFreeRun(ONCE, steps)
    ensures Exec(ONCE, steps) ==
            INIT.(db := DEAD, cache := Locked1(ONCE).(pending := {}),
                  workers := Two(Hand(0, 1, 0, 30000, Release(Buried)), Reading))
  {
    steps := Counted(ONCE);
    var s0 := INIT.(db := FAILED1, cache := Locked1(ONCE).(pending := {}),
                    workers := Two(Hand(0, 1, 0, 30000, Bury(1)), Reading));
    var job := Job(7, 0, 30000, Bury(1));
    steps := Command(ONCE, steps, s0, 0, 1, job, false, Reply(BURIED, s0.cache, MarkBuried));
    var s1 := s0.(db := BURIED, workers := Two(Hand(0, 1, 0, 30000, MarkBuried), Reading));
    steps := Command(ONCE, steps, s1, 0, 1, job.(stage := MarkBuried), false, Reply(DEAD, s0.cache, Release(Buried)));
  }

  /** With a single attempt allowed, the event is dead-lettered and the lock released. */
  lemma BuriedOnce() returns (steps: seq<Step>)
    ensures FaultFreeRun(ONCE, steps)
    ensures Exec(ONCE, steps) ==
            INIT.(db := DEAD, cache := FREED, workers := IDLE)
  {
    steps := Burying();
    var s2 := INIT.(db := DEAD, cache := Locked1(ONCE).(pending := {}),
                    workers := Two(Hand(0, 1, 0, 30000, Release(Buried)), Reading));
    steps := Freed(ONCE, steps, s2, 0, 1, Job(7, 0, 30000, Release(Buried)), FREED);
  }

  const Q := Payload(71, 1, 500, "USD", Success, 0)
  const ROW2 := Event(71, None, 500, "USD", Success, Q, 0, ReconciliationState.Pending, 0, None)
  const DEAD2 := DEAD.(upserts := [P, P])
  const DEAD3 := DEAD2.(upserts := [P, P, Q], byGateway := map[70 := 7, 71 := 8],
                        events := map[7 := DEAD.events[7], 8 := ROW2])

  const FREED := Locked1(ONCE).(pending := {}, locks := map[])
  const TWICE := FREED.(idem := map[70 := 2000], wins := map[70 := [0, 1000]], log := [7, 7])
  const MORE := TWICE.(idem := map[70 := 2000, 71 := 2000], wins := map[70 := [0, 1000], 71 := [1000]],
                      log := [7, 7, 8])

  /** A redelivery after the idempotency key has expired. */
  lemma Redelivered() returns (steps: seq<Step>)
    ensures FaultFreeRun(ONCE, steps)
    ensures Exec(ONCE, steps) == INIT.(now := 1000, db := DEAD2, workers := IDLE, cache := TWICE)
  {
    steps := BuriedOnce();
    var s0 := INIT.(db := DEAD, cache := FREED, workers := IDLE);
    var s1 := s0.(now := 1000);
    steps := Do(ONCE, steps, s0, Tick(1000), s1);
    assert WinsOf(FREED, 70) + [1000] == [0, 1000];
    assert SetKey(FREED, 70, 1000, 1000) == TWICE.(log := [7]);
    steps := TakenIn(ONCE, steps, s1, P, 9, TWICE.(log := [7]), DEAD2);
  }

  lemma SecondRow()
    ensures UpsertPending(DEAD2, 8, Q, None) == DEAD3
  {
    assert DEAD2.events[8 := ROW2] == DEAD3.events;
    assert DEAD2.byGateway[71 := 8] == DEAD3.byGateway;
    assert DEAD2.upserts + [Q] == DEAD3.upserts;
  }

  lemma SecondKey()
    ensures SetKey(TWICE, 71, 1000, 1000) == MORE.(log := [7, 7])
  {
    assert WinsOf(TWICE, 71) + [1000] == [1000];
  }

  /** A new event is published behind it. */
  lemma Joined() returns (steps: seq<Step>)
    ensures FaultFreeRun(ONCE, steps)
    ensures Exec(ONCE, steps) == INIT.(now := 1000, db := DEAD3, workers := IDLE, cache := MORE)
  {
    steps := Redelivered();
    SecondRow();
    SecondKey();
    var s := INIT.(now := 1000, db := DEAD2, workers := IDLE, cache := TWICE);
    steps := TakenIn(ONCE, steps, s, Q, 8, MORE.(log := [7, 7]), DEAD3);
  }

  const AGAIN := DEAD3.(events := map[7 := DEAD.events[7].(attempts := 2), 8 := ROW2])

  const LOCKED3 := MORE.(cursor := 3, pending := {1, 2}, locks := map[7 := Lease(1, 31000)], nextToken := 2)
  const ACKED3 := LOCKED3.(pending := {2})

  lemma LockedAgain() returns (steps: seq<Step>)
    ensures FaultFreeRun(ONCE, steps)
    ensures Exec(ONCE, steps) ==
            INIT.(now := 1000, db := DEAD3, workers := Two(Hand(1, 3, 1, 31000, FindEvent), Reading), cache := LOCKED3)
  {
    steps := Joined();
    var read := MORE.(cursor := 3, pending := {1, 2});
    assert ReadGroup(MORE, 10) == read by { assert Span(1, 3) == {1} + Span(2, 3) && Span(2, 3) == {2}; }
    steps := Grabbed(ONCE, steps, INIT.(now := 1000, db := DEAD3, workers := IDLE, cache := MORE), 3, read, LOCKED3);
  }

  /** The worker reads both messages, the run of the first throws, and its second dead letter
      violates the unique key. */
  lemma AbortedAgain() returns (steps: seq<Step>)
    ensures FaultFreeRun(ONCE, steps)
    ensures Exec(ONCE, steps) ==
            INIT.(now := 1000, db := AGAIN, cache := ACKED3,
                  workers := Two(Hand(1, 3, 1, 31000, Release(Aborted)), Reading))
  {
    steps := LockedAgain();
    var s := INIT.(now := 1000, db := DEAD3, cache := LOCKED3,
                   workers := Two(Hand(1, 3, 1, 31000, FindEvent), Reading));
    assert IncrementAttempts(DEAD3, 7) == AGAIN;
    assert Ack(LOCKED3, 1) == ACKED3;
    steps := Fails(ONCE, steps, s, 1, 3, Job(7, 1, 31000, FindEvent), AGAIN);
    var s5 := s.(db := AGAIN, cache := ACKED3, workers := Two(Hand(1, 3, 1, 31000, Bury(2)), Reading));
    steps := Command(ONCE, steps, s5, 1, 3, Job(7, 1, 31000, Bury(2)), false, Reply(AGAIN, ACKED3, Release(Aborted)));
  }

  lemma Abandoned() returns (steps: seq<Step>)
    ensures FaultFreeRun(ONCE, steps)
    ensures Exec(ONCE, steps) ==
            INIT.(now := 1000, db := AGAIN, cache := ACKED3.(locks := map[]), workers := IDLE)
  {
    steps := AbortedAgain();
    var s6 := INIT.(now := 1000, db := AGAIN, cache := ACKED3,
                    workers := Two(Hand(1, 3, 1, 31000, Release(Aborted)), Reading));
    assert ReleaseLock(ACKED3, 7, 1, 1000) == ACKED3.(locks := map[]);
    steps := Freed(ONCE, steps, s6, 1, 3, Job(7, 1, 31000, Release(Aborted)), ACKED3.(locks := map[]));
  }

  /** The loop leaves the new event behind the aborted one unread, with neither outcome nor
      carrier. */
  lemma EventLostInAbandonedBatch()
    ensures exists steps :: FaultFreeRun(ONCE, steps) && !NothingLost(Exec(ONCE, steps))
  {
    var steps := Abandoned();
    var s := Exec(ONCE, steps);
    assert 8 == s.cache.log[2];
    assert !HasOutcome(s, 8) && !Carried(s, 8);
  }
}
