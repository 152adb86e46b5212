/** How often, and how soon after a failure, intake publishes an event. */
module Spacing {
  import opened Domain
  import opened SortedSet
  import opened Tables
  import opened Pipeline
  import opened Integrity
  import opened Intake
  import Carriers

  // ---------- wins are a lifetime apart ----------

  ghost predicate Spaced(wins: seq<nat>, ttl: nat) {
    forall i | 0 <= i < |wins| - 1 :: wins[i] + ttl <= wins[i + 1]
  }

  ghost predicate WinsOk(cfg: Config, s: State, g: nat) {
    var wins := WinsOf(s.cache, g);
    && Spaced(wins, cfg.idempotencyTtl)
    && (wins != [] ==>
          && wins[|wins| - 1] <= s.now && g in s.cache.idem
          && s.cache.idem[g] == wins[|wins| - 1] + cfg.idempotencyTtl)
    && (wins == [] ==> g !in s.cache.idem)
  }

  lemma WinsStep(cfg: Config, s: State, step: Step, g: nat)
    requires WinsOk(cfg, s, g)
    ensures WinsOk(cfg, Apply(cfg, s, step), g)
  {
    var t := Apply(cfg, s, step);
    if step.Handle? {
      if step.h in s.handlers { HandleWins(cfg, s, step.h, step.id, g); }
    } else {
      KeysKept(cfg, s, step);
      assert s.now <= t.now;
    }
  }

  lemma HandleWins(cfg: Config, s: State, h: nat, id: nat, g: nat)
    requires WinsOk(cfg, s, g) && h in s.handlers
    ensures WinsOk(cfg, DoHandle(cfg, s, h, id), g)
  {
    var t := DoHandle(cfg, s, h, id);
    match s.handlers[h] {
      case Marking(p) => KeyWins(cfg, s, t, p.gatewayId, g);
      case Upserting(p, order) => assert t.cache == s.cache;
      case _ =>
    }
  }

  lemma KeyWins(cfg: Config, s: State, t: State, x: nat, g: nat)
    requires WinsOk(cfg, s, g) && t.now == s.now && t.cache == SetKey(s.cache, x, s.now, cfg.idempotencyTtl)
    ensures WinsOk(cfg, t, g)
  {
    if x == g && KeyFree(s.cache, g, s.now) {
      assert WinsOf(t.cache, g) == WinsOf(s.cache, g) + [s.now];
    }
  }

  lemma {:induction false} WinsAlways(cfg: Config, steps: seq<Step>, g: nat)
    ensures WinsOk(cfg, Exec(cfg, steps), g)
  {
    if steps != [] {
      WinsAlways(cfg, steps[..|steps| - 1], g);
      WinsStep(cfg, Exec(cfg, steps[..|steps| - 1]), steps[|steps| - 1], g);
    }
  }

  /** In every run two deliveries of one gateway id that win its key are at least the key's
      lifetime apart, since losing deliveries never refresh it. */
  lemma {:induction false} WinsAreSpaced(cfg: Config, steps: seq<Step>, g: nat, i: nat, j: nat)
    requires i < j < |WinsOf(Exec(cfg, steps).cache, g)|
    ensures var wins := WinsOf(Exec(cfg, steps).cache, g); wins[i] + (j - i) * cfg.idempotencyTtl <= wins[j]
  {
    WinsAlways(cfg, steps, g);
    SpacedApart(WinsOf(Exec(cfg, steps).cache, g), cfg.idempotencyTtl, i, j);
  }

  lemma {:induction false} SpacedApart(wins: seq<nat>, ttl: nat, i: nat, j: nat)
    requires Spaced(wins, ttl) && i <= j < |wins|
    ensures wins[i] + (j - i) * ttl <= wins[j]
    decreases j - i
  {
    if i < j {
      SpacedApart(wins, ttl, i, j - 1);
      assert (j - i) * ttl == (j - 1 - i) * ttl + ttl;
    }
  }

  /** Any span of time sees at most one win more than the lifetimes that fit into it. */
  lemma {:induction false} WinsInSpan(cfg: Config, steps: seq<Step>, g: nat, i: nat, n: nat, span: nat)
    requires var wins := WinsOf(Exec(cfg, steps).cache, g);
             0 < n && i + n <= |wins| && wins[i + n - 1] - wins[i] <= span
    ensures n <= span / cfg.idempotencyTtl + 1
  {
    WinsAlways(cfg, steps, g);
    SpanOfSpaced(WinsOf(Exec(cfg, steps).cache, g), cfg.idempotencyTtl, i, n, span);
  }

  lemma SpanOfSpaced(wins: seq<nat>, ttl: pos, i: nat, n: nat, span: nat)
    requires Spaced(wins, ttl) && 0 < n && i + n <= |wins| && wins[i + n - 1] - wins[i] <= span
    ensures n <= span / ttl + 1
  {
    SpacedApart(wins, ttl, i, i + n - 1);
    FitsInto(n - 1, ttl, span);
  }

  lemma FitsInto(n: nat, ttl: pos, span: nat)
    requires n * ttl <= span
    ensures n <= span / ttl
  {
    var q := span / ttl;
    assert span < (q + 1) * ttl;
    if q + 1 <= n {
      ProductGrows(q + 1, n, ttl);
    }
  }

  lemma ProductGrows(m: nat, n: nat, ttl: nat)
    requires m <= n
    ensures m * ttl <= n * ttl
  {}

  // ---------- one publication for each win ----------

  /** How often intake has published the event of a gateway id. */
  function Publications(cfg: Config, steps: seq<Step>, g: nat): nat {
    if steps == [] then 0
    else
      var s := Exec(cfg, steps[..|steps| - 1]);
      var step := steps[|steps| - 1];
      Publications(cfg, steps[..|steps| - 1], g)
      + if step.Handle? && Past(s, step.h, g) && s.handlers[step.h].Publishing? then 1 else 0
  }

  function InFlight(s: State, g: nat): set<nat> { set h | h in s.handlers && Past(s, h, g) }

  lemma HandleFlight(cfg: Config, s: State, h: nat, id: nat, g: nat)
    requires Inv(cfg, s) && h in s.handlers
    ensures var t := DoHandle(cfg, s, h, id);
            && InFlight(t, g) - {h} == InFlight(s, g) - {h}
            && (Past(s, h, g) && s.handlers[h].Publishing? ==> h !in InFlight(t, g))
            && |WinsOf(s.cache, g)| <= |WinsOf(t.cache, g)|
            && (h in InFlight(t, g) && h !in InFlight(s, g) ==> |WinsOf(t.cache, g)| == |WinsOf(s.cache, g)| + 1)
  {
    var t := DoHandle(cfg, s, h, id);
    HandleKeeps(cfg, s, h, id);
    OtherHandlersKept(cfg, s, h, id);
    OthersInFlight(cfg, s, t, h, g);
    HandlerWins(cfg, s, h, id, g);
  }

  lemma OthersInFlight(cfg: Config, s: State, t: State, h: nat, g: nat)
    requires Grows(s.db, t.db) && EventsOk(s.db) && EventsOk(t.db)
    requires forall k | k in s.handlers :: HandlerOk(s.db, s.handlers[k])
    requires forall k | k != h ::
               (k in t.handlers <==> k in s.handlers) && (k in s.handlers ==> t.handlers[k] == s.handlers[k])
    ensures InFlight(t, g) - {h} == InFlight(s, g) - {h}
  {
    forall k | k != h ensures k in InFlight(t, g) <==> k in InFlight(s, g) {
      if k in s.handlers {
        PastStable(cfg, s, t, k, g);
      }
    }
  }

  lemma PastStable(cfg: Config, s: State, t: State, k: nat, g: nat)
    requires k in s.handlers && k in t.handlers && t.handlers[k] == s.handlers[k]
    requires Grows(s.db, t.db) && EventsOk(s.db) && EventsOk(t.db) && HandlerOk(s.db, s.handlers[k])
    ensures Past(t, k, g) <==> Past(s, k, g)
  {
    if s.handlers[k].Publishing? {
      var e := s.handlers[k].event;
      assert EventOk(s.db, e) && EventOk(t.db, e);
    }
  }

  lemma HandlerWins(cfg: Config, s: State, h: nat, id: nat, g: nat)
    requires Inv(cfg, s) && h in s.handlers
    ensures var t := DoHandle(cfg, s, h, id);
            && |WinsOf(s.cache, g)| <= |WinsOf(t.cache, g)|
            && (Past(s, h, g) && s.handlers[h].Publishing? ==> !Past(t, h, g))
            && (Past(t, h, g) && !Past(s, h, g) ==> |WinsOf(t.cache, g)| == |WinsOf(s.cache, g)| + 1)
  {
    var t := DoHandle(cfg, s, h, id);
    match s.handlers[h] {
      case Upserting(p, order) =>
        if id !in s.db.events {
          UpsertHandleKeeps(cfg, s, h, id, p, order);
          UpsertIndex(cfg, s.db, id, p, order);
        }
      case _ =>
    }
  }

  lemma UpsertIndex(cfg: Config, db: Db, id: nat, p: Payload, order: Option<nat>)
    requires EventsOk(db) && id !in db.events
    ensures var db' := UpsertPending(db, id, p, order);
            forall g | g in db'.byGateway && db'.byGateway[g] == db'.byGateway[p.gatewayId] :: g == p.gatewayId
  {
    var db' := UpsertPending(db, id, p, order);
    forall g | g in db'.byGateway && db'.byGateway[g] == db'.byGateway[p.gatewayId] ensures g == p.gatewayId {
      if g in db.byGateway {
        assert db.byGateway[g] in db.events;
      }
    }
  }

  lemma OthersFlight(cfg: Config, s: State, step: Step, g: nat)
    requires Inv(cfg, s) && !step.Handle?
    ensures var t := Apply(cfg, s, step);
            InFlight(t, g) <= InFlight(s, g) && WinsOf(t.cache, g) == WinsOf(s.cache, g)
  {
    var t := Apply(cfg, s, step);
    IndexKept(cfg, s, step);
    KeysKept(cfg, s, step);
  }

  lemma {:induction false} PublicationsByWins(cfg: Config, steps: seq<Step>, g: nat)
    ensures var s := Exec(cfg, steps);
            Publications(cfg, steps, g) + |InFlight(s, g)| <= |WinsOf(s.cache, g)|
  {
    if steps == [] {
      assert InFlight(INIT, g) == {};
    } else {
      var n := |steps| - 1;
      var s := Exec(cfg, steps[..n]);
      PublicationsByWins(cfg, steps[..n], g);
      Always(cfg, steps[..n]);
      FlightStep(cfg, s, steps[n], g);
    }
  }

  lemma FlightStep(cfg: Config, s: State, step: Step, g: nat)
    requires Inv(cfg, s)
    ensures var t := Apply(cfg, s, step);
            (if step.Handle? && Past(s, step.h, g) && s.handlers[step.h].Publishing? then 1 else 0)
            + |InFlight(t, g)| - |InFlight(s, g)| <= |WinsOf(t.cache, g)| - |WinsOf(s.cache, g)|
  {
    var t := Apply(cfg, s, step);
    if step.Handle? {
      if step.h in s.handlers {
        HandleFlight(cfg, s, step.h, step.id, g);
        SizeByOne(InFlight(s, g), InFlight(t, g), step.h);
      }
    } else {
      OthersFlight(cfg, s, step, g);
      SubsetSize(InFlight(t, g), InFlight(s, g));
    }
  }

  lemma SizeByOne(a: set<nat>, b: set<nat>, h: nat)
    requires a - {h} == b - {h}
    ensures |b| == |a| + (if h in b then 1 else 0) - (if h in a then 1 else 0)
  {
    assert a == (a - {h}) + (if h in a then {h} else {});
    assert b == (b - {h}) + (if h in b then {h} else {});
  }

  lemma SubsetSize(a: set<nat>, b: set<nat>)
    requires a <= b
    ensures |a| <= |b|
  {
    assert b == a + (b - a);
  }

  /** In every run intake publishes an event at most once for each win of its key, hence at
      most once more than the key's lifetimes that have passed. */
  lemma {:induction false} PublicationsBounded(cfg: Config, steps: seq<Step>, g: nat)
    ensures Publications(cfg, steps, g) <= |WinsOf(Exec(cfg, steps).cache, g)|
    ensures Publications(cfg, steps, g) <= Exec(cfg, steps).now / cfg.idempotencyTtl + 1
  {
    PublicationsByWins(cfg, steps, g);
    WinsAlways(cfg, steps, g);
    WinsSince0(cfg, Exec(cfg, steps), g);
  }

  lemma WinsSince0(cfg: Config, s: State, g: nat)
    requires WinsOk(cfg, s, g)
    ensures |WinsOf(s.cache, g)| <= s.now / cfg.idempotencyTtl + 1
  {
    var wins := WinsOf(s.cache, g);
    if wins != [] {
      SpacedApart(wins, cfg.idempotencyTtl, 0, |wins| - 1);
      FitsInto(|wins| - 1, cfg.idempotencyTtl, s.now);
    }
  }

  // ---------- a failed request shuts its own redelivery out ----------

  /** Retries, pollers and workers only ever hold events from the log. */
  ghost predicate OnlyFromLog(s: State) {
    && (forall x | x in s.cache.retry :: x.id in s.cache.log)
    && (forall p | p in s.pollers ::
          match s.pollers[p] {
            case Removing(due) => forall e | e in due :: e in s.cache.log
            case Promoting(rest) => forall e | e in rest :: e in s.cache.log
          })
  }

  lemma FromLogKept(s: State, t: State)
    requires OnlyFromLog(s) && s.cache.log <= t.cache.log
    requires forall x | x in t.cache.retry :: x in s.cache.retry || x.id in s.cache.log
    requires forall p | p in t.pollers :: p in s.pollers && t.pollers[p] == s.pollers[p]
    ensures OnlyFromLog(t)
  {}

  lemma CommandQueues(cfg: Config, s: State, w: nat, fault: Fault, u: real)
    requires Inv(cfg, s) && w in s.workers && s.workers[w].Working? && !s.workers[w].job.stage.Release?
    ensures var t := DoCommand(cfg, s, w, s.workers[w].i, s.workers[w].end, s.workers[w].job, fault, u);
            && t.cache.log == s.cache.log && t.pollers == s.pollers
            && forall x | x in t.cache.retry :: x in s.cache.retry || x.id in s.cache.log
  {
    assert WorkerOk(cfg, s.db, s.cache.log, s.workers[w]);
    var job := s.workers[w].job;
    HandleCommandQueue(cfg, s.now, u, job.event, s.workers[w].i, s.db, s.cache, job.stage);
  }

  lemma LockQueues(cfg: Config, s: State, w: nat, fault: Fault)
    requires w in s.workers && s.workers[w].Locking?
    ensures var t := DoLock(cfg, s, w, s.workers[w].i, s.workers[w].end, fault);
            t.cache.log == s.cache.log && t.pollers == s.pollers && t.cache.retry == s.cache.retry
  {}

  lemma ReleaseQueues(s: State, w: nat, fault: Fault)
    requires w in s.workers && s.workers[w].Working? && s.workers[w].job.stage.Release?
    ensures var t := DoRelease(s, w, s.workers[w].i, s.workers[w].end, s.workers[w].job, fault);
            t.cache.log == s.cache.log && t.pollers == s.pollers && t.cache.retry == s.cache.retry
  {}

  lemma WorkQueues(cfg: Config, s: State, w: nat, fault: Fault, u: real)
    requires Inv(cfg, s) && w in s.workers
    ensures var t := DoWork(cfg, s, w, fault, u);
            && t.cache.log == s.cache.log && t.pollers == s.pollers
            && forall x | x in t.cache.retry :: x in s.cache.retry || x.id in s.cache.log
  {
    match s.workers[w] {
      case Reading => assert DoWork(cfg, s, w, fault, u) == DoRead(cfg, s, w, fault);
      case Locking(_, _) => LockQueues(cfg, s, w, fault);
      case Skipping(i, end) => assert DoWork(cfg, s, w, fault, u) == DoSkip(s, w, i, end, fault);
      case Working(_, _, job) =>
        if job.stage.Release? {
          ReleaseQueues(s, w, fault);
        } else {
          CommandQueues(cfg, s, w, fault, u);
        }
    }
  }

  lemma WorkFromLog(cfg: Config, s: State, w: nat, fault: Fault, u: real)
    requires Inv(cfg, s) && OnlyFromLog(s) && w in s.workers
    ensures OnlyFromLog(DoWork(cfg, s, w, fault, u))
  {
    WorkQueues(cfg, s, w, fault, u);
    FromLogKept(s, DoWork(cfg, s, w, fault, u));
  }

  lemma RestFromLog(cfg: Config, s: State, step: Step)
    requires !step.Work? && !step.Promote? && !step.Poll? && !step.Handle?
    ensures var t := Apply(cfg, s, step);
            t.cache == s.cache && forall p | p in t.pollers :: p in s.pollers && t.pollers[p] == s.pollers[p]
  {}

  lemma HandleFromLog(cfg: Config, s: State, h: nat, id: nat)
    requires OnlyFromLog(s) && h in s.handlers
    ensures OnlyFromLog(DoHandle(cfg, s, h, id))
  {
    Carriers.HandleLeavesDead(cfg, s, h, id);
    FromLogKept(s, DoHandle(cfg, s, h, id));
  }

  lemma OnlyFromLogStep(cfg: Config, s: State, step: Step)
    requires Inv(cfg, s) && OnlyFromLog(s)
    ensures OnlyFromLog(Apply(cfg, s, step))
  {
    if step.Work? {
      if step.w in s.workers { WorkFromLog(cfg, s, step.w, step.fault, step.u); }
    } else if step.Promote? {
      if step.p in s.pollers { PromoteFromLog(s, step.p); }
    } else if step.Poll? {
      if step.p !in s.pollers { PollFromLog(cfg, s, step.p); }
    } else if step.Handle? {
      if step.h in s.handlers { HandleFromLog(cfg, s, step.h, step.id); }
    } else {
      RestFromLog(cfg, s, step);
      FromLogKept(s, Apply(cfg, s, step));
    }
  }

  lemma PromoteFromLog(s: State, p: nat)
    requires p in s.pollers && OnlyFromLog(s)
    ensures OnlyFromLog(DoPromote(s, p))
  {
    match s.pollers[p] {
      case Removing(due) => WithoutContents(s.cache.retry, Ids(due));
      case Promoting(rest) =>
    }
  }

  lemma PollFromLog(cfg: Config, s: State, p: nat)
    requires p !in s.pollers && OnlyFromLog(s) && SortedSet.Valid(s.cache.retry)
    ensures OnlyFromLog(DoPoll(cfg, s, p))
  {
    var due := Due(s.cache.retry, s.now, cfg.batchSize);
    DueIsPrefix(s.cache.retry, s.now, cfg.batchSize);
    forall e | e in due ensures e in s.cache.log {
      var k :| 0 <= k < |due| && due[k] == e;
      assert s.cache.retry[k] in s.cache.retry;
    }
  }

  lemma {:induction false} OnlyFromLogAlways(cfg: Config, steps: seq<Step>)
    ensures OnlyFromLog(Exec(cfg, steps))
  {
    if steps != [] {
      OnlyFromLogAlways(cfg, steps[..|steps| - 1]);
      Always(cfg, steps[..|steps| - 1]);
      OnlyFromLogStep(cfg, Exec(cfg, steps[..|steps| - 1]), steps[|steps| - 1]);
    }
  }

  /** The key of `g` is set until `until`, but no request is on its way to publish. */
  ghost predicate Stranded(s: State, g: nat, until: nat) {
    && g in s.cache.idem && s.cache.idem[g] == until
    && !SomePast(s, g) && !Published(s, g)
  }

  /** A request that fails after winning the key, alone and before publishing, leaves it so. */
  lemma FailureStrands(cfg: Config, s: State, h: nat, g: nat)
    requires g in s.cache.idem && !Published(s, g) && Past(s, h, g) && forall k | Past(s, k, g) :: k == h
    ensures Stranded(Apply(cfg, s, DropHandler(h)), g, s.cache.idem[g])
  {
    var t := Apply(cfg, s, DropHandler(h));
    forall k ensures !Past(t, k, g) {
      assert Past(t, k, g) ==> Past(s, k, g);
    }
  }

  lemma StrandedStep(cfg: Config, s: State, step: Step, g: nat, until: nat)
    requires Inv(cfg, s) && OnlyFromLog(s) && Stranded(s, g, until) && s.now < until
    ensures Stranded(Apply(cfg, s, step), g, until)
  {
    var t := Apply(cfg, s, step);
    if step.Handle? {
      if step.h in s.handlers {
        assert HandlerOk(s.db, s.handlers[step.h]);
        StrandedHandle(cfg, s, step.h, step.id, g, until);
      }
    } else {
      IndexKept(cfg, s, step);
      KeysKept(cfg, s, step);
      LogFromLog(cfg, s, step);
      forall h | Past(t, h, g) ensures Past(s, h, g) {}
    }
  }

  lemma LogFromLog(cfg: Config, s: State, step: Step)
    requires OnlyFromLog(s) && !step.Handle?
    ensures forall e | e in Apply(cfg, s, step).cache.log :: e in s.cache.log
  {
    if step.Work? && step.w in s.workers && s.workers[step.w].Working? && !s.workers[step.w].job.stage.Release? {
      var job := s.workers[step.w].job;
      HandleCommandQueue(cfg, s.now, step.u, job.event, s.workers[step.w].i, s.db, s.cache, job.stage);
    }
  }

  lemma StrandedHandle(cfg: Config, s: State, h: nat, id: nat, g: nat, until: nat)
    requires Inv(cfg, s) && Stranded(s, g, until) && s.now < until && h in s.handlers
    ensures Stranded(DoHandle(cfg, s, h, id), g, until)
  {
    var t := DoHandle(cfg, s, h, id);
    HandleKeeps(cfg, s, h, id);
    HandleFlight(cfg, s, h, id, g);
    NoNewFlight(cfg, s, h, id, g);
    assert InFlight(s, g) == {};
    assert InFlight(t, g) == InFlight(t, g) - {h} == {};
    assert forall k :: Past(t, k, g) ==> k in InFlight(t, g);
    UnpublishedHandle(cfg, s, h, id, g);
  }

  lemma NoNewFlight(cfg: Config, s: State, h: nat, id: nat, g: nat)
    requires Inv(cfg, s) && h in s.handlers && !Past(s, h, g) && !KeyFree(s.cache, g, s.now)
    ensures var t := DoHandle(cfg, s, h, id);
            !Past(t, h, g) && g in t.cache.idem && t.cache.idem[g] == s.cache.idem[g]
  {
    match s.handlers[h] {
      case Upserting(p, order) =>
        if id !in s.db.events {
          UpsertHandleKeeps(cfg, s, h, id, p, order);
          UpsertIndex(cfg, s.db, id, p, order);
        }
      case _ =>
    }
  }

  lemma UnpublishedUpsert(s: State, t: State, id: nat, p: Payload, order: Option<nat>, g: nat)
    requires AllEvents(s.db, s.cache.log) && id !in s.db.events && p.gatewayId != g && !Published(s, g)
    requires t.cache == s.cache && t.db == UpsertPending(s.db, id, p, order)
    ensures !Published(t, g)
  {}

  lemma UnpublishedHandle(cfg: Config, s: State, h: nat, id: nat, g: nat)
    requires Inv(cfg, s) && h in s.handlers && !Past(s, h, g) && !Published(s, g)
    ensures !Published(DoHandle(cfg, s, h, id), g)
  {
    match s.handlers[h] {
      case Upserting(p, order) =>
        if id !in s.db.events {
          UnpublishedUpsert(s, DoHandle(cfg, s, h, id), id, p, order, g);
        }
      case _ =>
    }
  }

  lemma TimePasses(cfg: Config, s: State, step: Step)
    ensures s.now <= Apply(cfg, s, step).now
  {
    if step.Handle? && step.h in s.handlers {
      Carriers.HandleLeavesDead(cfg, s, step.h, step.id);
    }
  }

  lemma {:induction false} StrandedNext(cfg: Config, steps: seq<Step>, g: nat, until: nat)
    requires steps != [] && Exec(cfg, steps).now < until
    requires Exec(cfg, steps[..|steps| - 1]).now < until ==> Stranded(Exec(cfg, steps[..|steps| - 1]), g, until)
    ensures Stranded(Exec(cfg, steps), g, until)
  {
    var m := |steps| - 1;
    TimePasses(cfg, Exec(cfg, steps[..m]), steps[m]);
    Always(cfg, steps[..m]);
    OnlyFromLogAlways(cfg, steps[..m]);
    StrandedStep(cfg, Exec(cfg, steps[..m]), steps[m], g, until);
  }

  /** A request that wins the key and fails before publishing leaves the event unpublished
      until the key expires: whatever the gateway redelivers in the meantime is answered as a
      duplicate, and nothing else publishes it. */
  lemma {:induction false} RedeliveryShutOut(cfg: Config, steps: seq<Step>, n: nat, g: nat, until: nat)
    requires n <= |steps| && Stranded(At(cfg, steps, n), g, until)
    requires Exec(cfg, steps).now < until
    ensures Stranded(Exec(cfg, steps), g, until)
    decreases |steps|
  {
    if n == |steps| {
      assert steps[..n] == steps;
    } else {
      var m := |steps| - 1;
      AtPrefix(cfg, steps, m, n);
      if Exec(cfg, steps[..m]).now < until {
        RedeliveryShutOut(cfg, steps[..m], n, g, until);
      }
      StrandedNext(cfg, steps, g, until);
    }
  }

  /** The same payload delivered again, as request `h`, with the request run to its end. */
  function DeliveredAgain(cfg: Config, s: State, h: nat, id: nat, p: Payload): State {
    var step := Handle(h, id);
    var arrived := Apply(cfg, s, Deliver(h, p));
    Apply(cfg, Apply(cfg, Apply(cfg, Apply(cfg, arrived, step), step), step), step)
  }

  lemma AnsweredAsDuplicate(cfg: Config, s: State, h: nat, id: nat, p: Payload)
    requires h !in s.handlers && WellFormed(p) && !KeyFree(s.cache, p.gatewayId, s.now)
    ensures DeliveredAgain(cfg, s, h, id, p) == s
  {
    var s1 := s.(handlers := s.handlers[h := Marking(p)]);
    assert Apply(cfg, s1, Handle(h, id)).handlers == s.handlers;
  }

  lemma TakenInAgain(cfg: Config, s: State, h: nat, id: nat, p: Payload)
    requires h !in s.handlers && WellFormed(p) && KeyFree(s.cache, p.gatewayId, s.now) && id !in s.db.events
    ensures Published(DeliveredAgain(cfg, s, h, id, p), p.gatewayId)
  {
    var step := Handle(h, id);
    var s1 := Apply(cfg, Apply(cfg, s, Deliver(h, p)), step);
    var s2 := Apply(cfg, s1, step);
    var s3 := Apply(cfg, s2, step);
    assert s1.handlers[h] == Resolving(p) && s2.handlers[h].Upserting? && s3.handlers[h].Publishing?;
    var e := s3.handlers[h].event;
    assert s3.db.byGateway[p.gatewayId] == e;
    assert Apply(cfg, s3, step).cache.log[|s3.cache.log|] == e;
  }

  /** Delivering the payload of a stranded event again publishes it if and only if the key has
      expired by then. */
  lemma RedeliveryRecoversExactly(cfg: Config, s: State, h: nat, id: nat, p: Payload, until: nat)
    requires Stranded(s, p.gatewayId, until) && h !in s.handlers && id !in s.db.events && WellFormed(p)
    ensures Published(DeliveredAgain(cfg, s, h, id, p), p.gatewayId) <==> until <= s.now
  {
    if until <= s.now {
      TakenInAgain(cfg, s, h, id, p);
    } else {
      AnsweredAsDuplicate(cfg, s, h, id, p);
    }
  }
}
