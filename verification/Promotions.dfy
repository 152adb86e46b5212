/** Two concrete runs, without crashes or infrastructure errors, in which two pollers read the
    same due retry of an event that intake has published once.  In the first both publish it,
    and the event fails more often than its attempts allow; in the second the slower of the two
    publishes the next retry before that is due. */
module Promotions {
  import opened Domain
  import opened SortedSet
  import opened Tables
  import opened Pipeline
  import opened Losses
  import opened Copies
  import opened Retries
  import opened Attempts
  import opened Races
  import Accounting
  import Backoff

  // ---------- both pollers have the retry before them ----------

  function Free1(cfg: Config): Cache { Locked1(cfg).(pending := {}, locks := map[]) }

  function Both(zero: Poller, one: Poller): map<nat, Poller> { map[0 := zero, 1 := one] }

  lemma OnePollerMoves(zero: Poller, one: Poller, p: Poller)
    ensures Both(zero, one)[0 := p] == Both(p, one) && Both(zero, one)[1 := p] == Both(zero, p)
  {}

  lemma Released(cfg: Config) returns (steps: seq<Step>, ready: nat)
    requires 1 < cfg.maxAttempts
    ensures ready <= 1200 && FaultFreeRun(cfg, steps)
    ensures Exec(cfg, steps) ==
            INIT.(now := 1200, db := FAILED2, cache := Free1(cfg).(retry := [Slot(ready, 7)]), workers := IDLE)
  {
    steps, ready := Rescheduled1(cfg);
    var s := INIT.(db := FAILED2, cache := Locked1(cfg).(pending := {}, retry := [Slot(ready, 7)]),
                   workers := Two(Hand(0, 1, 0, cfg.lockTtl, Release(Rescheduled)), Reading));
    var t := INIT.(db := FAILED2, cache := Free1(cfg).(retry := [Slot(ready, 7)]), workers := IDLE);
    steps := Freed(cfg, steps, s, 0, 1, Job(7, 0, cfg.lockTtl, Release(Rescheduled)), t.cache);
    steps := Do(cfg, steps, t, Tick(1200), t.(now := 1200));
  }

  lemma BothPolled(cfg: Config) returns (steps: seq<Step>, ready: nat)
    requires 1 < cfg.maxAttempts
    ensures ready <= 1200 && FaultFreeRun(cfg, steps)
    ensures Exec(cfg, steps) ==
            INIT.(now := 1200, db := FAILED2, cache := Free1(cfg).(retry := [Slot(ready, 7)]), workers := IDLE,
                  pollers := Both(Removing([7]), Removing([7])))
  {
    steps, ready := Released(cfg);
    var s := INIT.(now := 1200, db := FAILED2, cache := Free1(cfg).(retry := [Slot(ready, 7)]), workers := IDLE);
    assert Due([Slot(ready, 7)], 1200, cfg.batchSize) == [7];
    steps := Do(cfg, steps, s, Poll(0), s.(pollers := map[0 := Removing([7])]));
    assert map[0 := Removing([7])][1 := Removing([7])] == Both(Removing([7]), Removing([7]));
    steps := Do(cfg, steps, s.(pollers := map[0 := Removing([7])]), Poll(1),
                s.(pollers := Both(Removing([7]), Removing([7]))));
  }

  /** The first poller removes the retry and publishes it. */
  lemma FirstPromoted(cfg: Config) returns (steps: seq<Step>)
    requires 1 < cfg.maxAttempts
    ensures FaultFreeRun(cfg, steps)
    ensures Exec(cfg, steps) ==
            INIT.(now := 1200, db := FAILED2, cache := Free1(cfg).(log := [7, 7]), workers := IDLE,
                  pollers := Both(Promoting([]), Removing([7])))
  {
    var ready;
    steps, ready := BothPolled(cfg);
    var s := INIT.(now := 1200, db := FAILED2, cache := Free1(cfg).(retry := [Slot(ready, 7)]), workers := IDLE,
                   pollers := Both(Removing([7]), Removing([7])));
    var t := s.(cache := Free1(cfg), pollers := Both(Promoting([7]), Removing([7])));
    assert Without([Slot(ready, 7)], Ids([7])) == [];
    OnePollerMoves(Removing([7]), Removing([7]), Promoting([7]));
    steps := Do(cfg, steps, s, Promote(0), t);
    OnePollerMoves(Promoting([7]), Removing([7]), Promoting([]));
    assert [7][1..] == [] && Free1(cfg).log + [7] == [7, 7];
    steps := Do(cfg, steps, t, Promote(0),
                t.(cache := Free1(cfg).(log := [7, 7]), pollers := Both(Promoting([]), Removing([7]))));
  }

  /** Then the second removes and publishes it too, whatever the schedule now holds. */
  lemma SecondPromoted(cfg: Config, steps: seq<Step>, s: State, rest: seq<Slot>) returns (more: seq<Step>)
    requires FaultFreeRun(cfg, steps) && Exec(cfg, steps) == s && s.pollers == Both(Promoting([]), Removing([7]))
    requires rest == Without(s.cache.retry, {7})
    ensures FaultFreeRun(cfg, more) && |steps| < |more| && more[..|steps|] == steps && more[|steps|] == Promote(1)
    ensures Exec(cfg, more) == s.(cache := s.cache.(retry := rest, log := s.cache.log + [7]),
                                  pollers := Both(Promoting([]), Promoting([])))
  {
    var t := s.(cache := s.cache.(retry := rest), pollers := Both(Promoting([]), Promoting([7])));
    assert Ids([7]) == {7};
    OnePollerMoves(Promoting([]), Removing([7]), Promoting([7]));
    more := Do(cfg, steps, s, Promote(1), t);
    OnePollerMoves(Promoting([]), Promoting([7]), Promoting([]));
    assert [7][1..] == [];
    more := Do(cfg, more, t, Promote(1), s.(cache := s.cache.(retry := rest, log := s.cache.log + [7]),
                                            pollers := Both(Promoting([]), Promoting([]))));
  }

  /** A step at which the promotions stop matching. */
  lemma {:induction false} StaleForGood(cfg: Config, steps: seq<Step>, k: nat, e: nat)
    requires k < |steps| && Stale(At(cfg, steps, k), steps[k], e)
    ensures !NeverStale(cfg, steps, e)
  {
    var n := |steps| - 1;
    if k < n {
      AtPrefix(cfg, steps, n, k);
      StaleForGood(cfg, steps[..n], k, e);
    }
  }

  /** Event 7 was published by intake once, within the lifetime of its key. */
  lemma {:induction false} Once(cfg: Config, steps: seq<Step>)
    requires Exec(cfg, steps).now < cfg.idempotencyTtl
    requires 70 in Exec(cfg, steps).db.byGateway && Exec(cfg, steps).db.byGateway[70] == 7
    ensures TallyOf(cfg, steps, 7).published <= 1
  {
    PublishedOnceInLifetime(cfg, steps, 7, 70);
  }

  // ---------- one retry, two messages ----------

  const TWO := Config(2, 30000, 10, 3600000, 86400000)
  const THREE := Free1(TWO).(log := [7, 7, 7])

  lemma Doubled() returns (steps: seq<Step>)
    ensures FaultFreeRun(TWO, steps)
    ensures Exec(TWO, steps) ==
            INIT.(now := 1200, db := FAILED2, cache := THREE, workers := IDLE,
                  pollers := Both(Promoting([]), Promoting([])))
  {
    var before := FirstPromoted(TWO);
    var s := INIT.(now := 1200, db := FAILED2, cache := Free1(TWO).(log := [7, 7]), workers := IDLE,
                   pollers := Both(Promoting([]), Removing([7])));
    assert s.cache.log + [7] == [7, 7, 7];
    steps := SecondPromoted(TWO, before, s, []);
  }

  const READ := THREE.(cursor := 3, pending := {1, 2})
  const FAILED3 := FAILED2.(events := map[7 := ROW.(attempts := 2, state := ReconciliationState.Failed)])
  const BURIED2 := FAILED3.(deadLetters := map[7 := DeadLetter(P, 2)])
  const DEAD4 := BURIED2.(events := map[7 := ROW.(attempts := 2, state := DeadLettered, processedAt := Some(1200))])
  const TRIED3 := DEAD4.(events := map[7 := DEAD4.events[7].(attempts := 3)])

  function InHand2(i: nat, token: nat, stage: Stage): Worker { Hand(i, 3, token, 31200, stage) }

  function Doubly(db: Db, cache: Cache, one: Worker): State {
    INIT.(now := 1200, db := db, cache := cache, workers := Two(one, Reading),
          pollers := Both(Promoting([]), Promoting([])))
  }

  /** The worker reads both messages, and the run of the first uses up the attempts. */
  lemma UsedUp() returns (steps: seq<Step>)
    ensures FaultFreeRun(TWO, steps)
    ensures Exec(TWO, steps) ==
            Doubly(FAILED3, READ.(pending := {2}, locks := map[7 := Lease(1, 31200)], nextToken := 2),
                   InHand2(1, 1, Bury(2)))
  {
    var before := Doubled();
    var held := READ.(locks := map[7 := Lease(1, 31200)], nextToken := 2);
    assert ReadGroup(THREE, 10) == READ by { assert Span(1, 3) == {1} + Span(2, 3) && Span(2, 3) == {2}; }
    steps := Grabbed(TWO, before, Doubly(FAILED2, THREE, Reading), 3, READ, held);
    assert IncrementAttempts(FAILED2, 7) == FAILED3;
    assert Ack(held, 1) == held.(pending := {2});
    steps := Fails(TWO, steps, Doubly(FAILED2, held, InHand2(1, 1, FindEvent)), 1, 3,
                   Job(7, 1, 31200, FindEvent), FAILED3);
  }

  /** It is dead-lettered. */
  lemma BuriedSecond() returns (steps: seq<Step>)
    ensures FaultFreeRun(TWO, steps)
    ensures Exec(TWO, steps) ==
            Doubly(DEAD4, READ.(pending := {2}, locks := map[7 := Lease(1, 31200)], nextToken := 2),
                   InHand2(1, 1, Release(Buried)))
  {
    steps := UsedUp();
    var held := READ.(pending := {2}, locks := map[7 := Lease(1, 31200)], nextToken := 2);
    steps := Command(TWO, steps, Doubly(FAILED3, held, InHand2(1, 1, Bury(2))), 1, 3, Job(7, 1, 31200, Bury(2)), false,
                     Reply(BURIED2, held, MarkBuried));
    steps := Command(TWO, steps, Doubly(BURIED2, held, InHand2(1, 1, MarkBuried)), 1, 3, Job(7, 1, 31200, MarkBuried),
                     false, Reply(DEAD4, held, Release(Buried)));
  }

  const FREE2 := READ.(pending := {2}, nextToken := 2, locks := map[])

  /** The worker releases the lock. */
  lemma ReleasedSecond() returns (steps: seq<Step>)
    ensures FaultFreeRun(TWO, steps) && Exec(TWO, steps) == Doubly(DEAD4, FREE2, Locking(2, 3))
  {
    steps := BuriedSecond();
    var held := READ.(pending := {2}, locks := map[7 := Lease(1, 31200)], nextToken := 2);
    assert ReleaseLock(held, 7, 1, 1200) == FREE2;
    steps := Freed(TWO, steps, Doubly(DEAD4, held, InHand2(1, 1, Release(Buried))), 1, 3,
                   Job(7, 1, 31200, Release(Buried)), FREE2);
  }

  /** And goes on to the second message. */
  lemma NextInHand() returns (steps: seq<Step>)
    ensures FaultFreeRun(TWO, steps)
    ensures Exec(TWO, steps) ==
            Doubly(DEAD4, FREE2.(locks := map[7 := Lease(2, 31200)], nextToken := 3), InHand2(2, 2, FindEvent))
  {
    steps := ReleasedSecond();
    var held := FREE2.(locks := map[7 := Lease(2, 31200)], nextToken := 3);
    assert SetLock(FREE2, 7, 1200, 30000) == held;
    steps := Taken(TWO, steps, Doubly(DEAD4, FREE2, Locking(2, 3)), 2, 3, held);
  }

  lemma {:induction false} AttemptsBounded(cfg: Config, steps: seq<Step>, e: nat)
    requires TallyOf(cfg, steps, e).published <= 1 && NeverStale(cfg, steps, e)
    ensures AttemptsOf(Exec(cfg, steps).db, e) <= cfg.maxAttempts
  {
    CourseAlways(cfg, steps, e);
    Accounting.AccountsAlways(cfg, steps, e);
  }

  /** Two pollers publish one retry twice, and an event published once fails three times
      where two attempts are allowed. */
  lemma {:induction false} RetryPublishedTwice()
    ensures exists steps ::
              && FaultFreeRun(TWO, steps) && TallyOf(TWO, steps, 7).published <= 1
              && Exec(TWO, steps).cache.log == [7, 7, 7] && !Punctual(TallyOf(TWO, steps, 7))
              && AttemptsOf(Exec(TWO, steps).db, 7) == 3 > TWO.maxAttempts
  {
    var steps := NextInHand();
    var held := FREE2.(locks := map[7 := Lease(2, 31200)], nextToken := 3);
    assert IncrementAttempts(DEAD4, 7) == TRIED3;
    steps := Fails(TWO, steps, Doubly(DEAD4, held, InHand2(2, 2, FindEvent)), 2, 3,
                   Job(7, 2, 31200, FindEvent), TRIED3);
    Once(TWO, steps);
    RetriesMatchExactly(TWO, steps, 7);
    if NeverStale(TWO, steps, 7) {
      AttemptsBounded(TWO, steps, 7);
    }
  }

  // ---------- a retry two seconds early ----------

  const READ2 := Free1(CFG).(log := [7, 7], cursor := 2, pending := {1})

  function Once2(db: Db, cache: Cache, one: Worker): State {
    INIT.(now := 1200, db := db, cache := cache, workers := Two(one, Reading),
          pollers := Both(Promoting([]), Removing([7])))
  }

  const QUIET2 := READ2.(pending := {}, locks := map[7 := Lease(1, 31200)], nextToken := 2)
  const AGAIN2 := FAILED2.(events := map[7 := FAILED2.events[7].(attempts := 2)])

  lemma FailedAgain() returns (steps: seq<Step>)
    ensures FaultFreeRun(CFG, steps)
    ensures Exec(CFG, steps) == Once2(AGAIN2, QUIET2, Hand(1, 2, 1, 31200, MarkFailedState(2)))
  {
    var held := QUIET2.(pending := {1});
    steps := FirstPromoted(CFG);
    assert ReadGroup(Free1(CFG).(log := [7, 7]), 10) == READ2 by { assert Span(1, 2) == {1} + Span(2, 2); }
    steps := Grabbed(CFG, steps, Once2(FAILED2, Free1(CFG).(log := [7, 7]), Reading), 2, READ2, held);
    assert IncrementAttempts(FAILED2, 7) == AGAIN2;
    assert Ack(held, 1) == QUIET2;
    steps := Fails(CFG, steps, Once2(FAILED2, held, Hand(1, 2, 1, 31200, FindEvent)), 1, 2,
                   Job(7, 1, 31200, FindEvent), AGAIN2);
  }

  /** While the second poller still has the first retry before it, the event fails again and
      is rescheduled. */
  lemma RescheduledAgain() returns (steps: seq<Step>, ready: nat)
    ensures FaultFreeRun(CFG, steps) && 3200 <= ready
    ensures Exec(CFG, steps) ==
            Once2(FAILED3, QUIET2.(retry := [Slot(ready, 7)]), Hand(1, 2, 1, 31200, Release(Rescheduled)))
  {
    steps := FailedAgain();
    Backoff.BackoffWithinBounds(2, 0.0);
    assert Backoff.Pow2(1) == 2;
    ready := 1200 + NonNegative(Backoff.BackoffMs(2, 0.0));
    assert MarkFailed(AGAIN2, 7) == FAILED3;
    assert Tables.Schedule(QUIET2, 7, ready) == QUIET2.(retry := [Slot(ready, 7)]);
    steps := Rescheduling(CFG, steps, Once2(AGAIN2, QUIET2, Hand(1, 2, 1, 31200, MarkFailedState(2))), 1, 2,
                          Job(7, 1, 31200, MarkFailedState(2)), 2, FAILED3);
  }

  /** The second poller then removes the new retry and publishes it two seconds before it is
      due. */
  lemma {:induction false} RetryPublishedEarly()
    ensures exists steps, k, x ::
              && FaultFreeRun(CFG, steps) && TallyOf(CFG, steps, 7).published <= 1
              && !Punctual(TallyOf(CFG, steps, 7)) && Exec(CFG, steps).now == 1200
              && Exec(CFG, steps).cache.log == [7, 7, 7] && Exec(CFG, steps).cache.retry == []
              && 0 <= k < |steps| && At(CFG, steps, k).cache.retry == [Slot(x, 7)] && 3200 <= x
  {
    var before, ready := RescheduledAgain();
    var s := Once2(FAILED3, QUIET2.(retry := [Slot(ready, 7)]), Hand(1, 2, 1, 31200, Release(Rescheduled)));
    assert Without([Slot(ready, 7)], {7}) == [];
    var steps := SecondPromoted(CFG, before, s, []);
    assert [7, 7] + [7] == [7, 7, 7];
    assert At(CFG, steps, |before|) == s;
    assert Stale(s, Promote(1), 7);
    StaleForGood(CFG, steps, |before|, 7);
    Once(CFG, steps);
    RetriesMatchExactly(CFG, steps, 7);
  }
}
