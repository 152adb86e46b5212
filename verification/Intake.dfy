/** Webhook intake: a cache that forgets in front of a table that does not.  Together they
    are the plain map in which the first payload of each gateway id wins. */
module Intake {
  import opened Domain
  import opened Tables
  import opened Pipeline
  import opened Integrity
  import Backoff
  import Carriers

  // ---------- first payload wins ----------

  /** The reference: a payload enters only if its gateway id is new. */
  function FirstWins(upserts: seq<Payload>): map<nat, Payload> {
    if upserts == [] then map[]
    else
      var before := FirstWins(upserts[..|upserts| - 1]);
      var p := upserts[|upserts| - 1];
      if p.gatewayId in before then before else before[p.gatewayId := p]
  }

  /** The table read as a map from gateway ids to payloads. */
  function TableView(db: Db): map<nat, Payload> {
    map g | g in db.byGateway && db.byGateway[g] in db.events :: db.events[db.byGateway[g]].raw
  }

  ghost predicate RefinesFirstWins(db: Db) { TableView(db) == FirstWins(db.upserts) }

  lemma ViewStable(a: Db, b: Db)
    requires EventsOk(a) && Grows(a, b) && b.byGateway == a.byGateway && b.upserts == a.upserts && RefinesFirstWins(a)
    ensures RefinesFirstWins(b)
  {
    assert TableView(b) == TableView(a);
  }

  lemma ViewKeys(db: Db)
    requires EventsOk(db)
    ensures TableView(db).Keys == db.byGateway.Keys
  {}

  lemma ViewExtended(db: Db, db': Db, id: nat, row: Event)
    requires EventsOk(db) && id !in db.events && row.gatewayId !in db.byGateway
    requires db'.byGateway == db.byGateway[row.gatewayId := id] && db'.events == db.events[id := row]
    ensures TableView(db') == TableView(db)[row.gatewayId := row.raw]
  {}

  lemma FirstWinsNext(upserts: seq<Payload>, p: Payload)
    ensures FirstWins(upserts + [p])
            == if p.gatewayId in FirstWins(upserts) then FirstWins(upserts) else FirstWins(upserts)[p.gatewayId := p]
  {
    assert (upserts + [p])[..|upserts|] == upserts;
  }

  lemma UpsertRefines(db: Db, id: nat, p: Payload, order: Option<nat>)
    requires EventsOk(db) && RefinesFirstWins(db) && id !in db.events
    ensures RefinesFirstWins(UpsertPending(db, id, p, order))
  {
    var db' := UpsertPending(db, id, p, order);
    ViewKeys(db);
    FirstWinsNext(db.upserts, p);
    if p.gatewayId !in db.byGateway {
      ViewExtended(db, db', id, db'.events[id]);
    } else {
      assert db' == db.(upserts := db'.upserts);
      SameView(db, db');
    }
  }

  lemma SameView(a: Db, b: Db)
    requires b == a.(upserts := b.upserts)
    ensures TableView(b) == TableView(a)
  {}

  lemma IndexKept(cfg: Config, s: State, step: Step)
    requires !step.Handle?
    ensures var db := Apply(cfg, s, step).db; db.byGateway == s.db.byGateway && db.upserts == s.db.upserts
  {
    if step.AdvanceUpload? && step.n in s.uploads {
      UploadKeepsIndex(s.db, s.now, s.uploads[step.n]);
    }
    if step.Work? && step.w in s.workers && s.workers[step.w].Working? && !s.workers[step.w].job.stage.Release? {
      var job := s.workers[step.w].job;
      CommandKeepsIndex(cfg, s.now, step.u, job.event, s.workers[step.w].i, s.db, s.cache, job.stage);
    }
  }

  lemma UploadKeepsIndex(db: Db, now: nat, up: Upload)
    ensures var db' := UploadCommand(db, now, up).0; db'.byGateway == db.byGateway && db'.upserts == db.upserts
  {
    if up.stage.Settling? {
      assert UploadCommand(db, now, up).0 == SettleForEvent(db, up.stage.event, up.stage.record, now);
    }
  }

  lemma CommandKeepsIndex(cfg: Config, now: nat, u: real, e: nat, i: nat, db: Db, cache: Cache, stage: Stage)
    requires !stage.Release?
    ensures var db' := HandleCommand(cfg, now, u, e, i, db, cache, stage).db;
            db'.byGateway == db.byGateway && db'.upserts == db.upserts
  {}

  lemma StepRefines(cfg: Config, s: State, step: Step)
    requires Inv(cfg, s) && RefinesFirstWins(s.db)
    ensures RefinesFirstWins(Apply(cfg, s, step).db)
  {
    StepKeeps(cfg, s, step);
    if step.Handle? && step.h in s.handlers {
      if s.handlers[step.h].Upserting? && step.id !in s.db.events {
        UpsertRefines(s.db, step.id, s.handlers[step.h].payload, s.handlers[step.h].order);
      }
    } else if !step.Handle? {
      IndexKept(cfg, s, step);
      ViewStable(s.db, Apply(cfg, s, step).db);
    }
  }

  /** In every run, whatever is delivered how often and whenever keys expire: the table holds
      one row for each gateway id that reached the upsert and no other, and the row states
      the first payload that did. */
  lemma {:induction false} FirstPayloadWins(cfg: Config, steps: seq<Step>)
    ensures var db := Exec(cfg, steps).db; var first := FirstWins(db.upserts);
            && (forall g :: g in first <==> exists e :: e in db.events && db.events[e].gatewayId == g)
            && (forall d, e | d in db.events && e in db.events
              && db.events[d].gatewayId == db.events[e].gatewayId :: d == e)
            && (forall e | e in db.events ::
                  var row := db.events[e];
                  && row.gatewayId in first
                  && var p := first[row.gatewayId];
                     row.raw == p && row.amount == p.amount && row.currency == p.currency
                     && row.gatewayStatus == p.status && row.receivedAt == p.occurredAt)
  {
    var db := Exec(cfg, steps).db;
    TableRefines(cfg, steps);
    Always(cfg, steps);
    forall e | e in db.events ensures db.events[e].gatewayId in TableView(db)
      && db.byGateway[db.events[e].gatewayId] == e {
      assert EventOk(db, e);
    }
    forall g | g in FirstWins(db.upserts) ensures exists e :: e in db.events && db.events[e].gatewayId == g {
      assert g in TableView(db);
      assert db.events[db.byGateway[g]].gatewayId == g;
    }
    forall e | e in db.events ensures EventOk(db, e) {}
  }

  lemma {:induction false} TableRefines(cfg: Config, steps: seq<Step>)
    ensures RefinesFirstWins(Exec(cfg, steps).db)
  {
    if steps != [] {
      TableRefines(cfg, steps[..|steps| - 1]);
      Always(cfg, steps[..|steps| - 1]);
      StepRefines(cfg, Exec(cfg, steps[..|steps| - 1]), steps[|steps| - 1]);
    }
  }

  // ---------- nothing delivered is forgotten, if no handler fails ----------

  /** The gateway ids of the webhooks accepted for processing. */
  function DeliveredIds(cfg: Config, steps: seq<Step>): set<nat> {
    if steps == [] then {}
    else
      var s := Exec(cfg, steps[..|steps| - 1]);
      var step := steps[|steps| - 1];
      DeliveredIds(cfg, steps[..|steps| - 1])
      + if step.Deliver? && step.h !in s.handlers && WellFormed(step.payload) then {step.payload.gatewayId} else {}
  }

  /** A handler between winning the key and publishing. */
  predicate Past(s: State, h: nat, g: nat) {
    h in s.handlers && match s.handlers[h]
      case Marking(_) => false
      case Resolving(p) => p.gatewayId == g
      case Upserting(p, _) => p.gatewayId == g
      case Publishing(e) => g in s.db.byGateway && s.db.byGateway[g] == e
  }

  ghost predicate Published(s: State, g: nat) {
    g in s.db.byGateway && s.db.byGateway[g] in s.cache.log
  }

  ghost predicate SomePast(s: State, g: nat) { exists h :: Past(s, h, g) }

  ghost predicate SomeMarking(s: State, g: nat) {
    exists h :: h in s.handlers && s.handlers[h].Marking? && s.handlers[h].payload.gatewayId == g
  }

  /** Every key ever set leads to a publication. */
  ghost predicate KeysLead(s: State) {
    forall g | g in s.cache.idem :: Published(s, g) || SomePast(s, g)
  }

  lemma OthersKeepIntake(cfg: Config, s: State, step: Step, g: nat)
    requires Inv(cfg, s) && !step.Handle? && !step.DropHandler?
    ensures var t := Apply(cfg, s, step);
            && (Published(s, g) ==> Published(t, g)) && (SomePast(s, g) ==> SomePast(t, g))
            && (SomeMarking(s, g) ==> SomeMarking(t, g)) && t.cache.idem == s.cache.idem
            && (forall h | h in s.handlers :: h in t.handlers && t.handlers[h] == s.handlers[h])
  {
    var t := Apply(cfg, s, step);
    IndexKept(cfg, s, step);
    Carriers.LogByOne(cfg, s, step);
    KeysKept(cfg, s, step);
    if SomePast(s, g) {
      var h :| Past(s, h, g);
      assert Past(t, h, g);
    }
  }

  lemma CommandKeepsKeys(cfg: Config, s: State, w: nat, fault: Fault, u: real)
    requires w in s.workers && s.workers[w].Working? && !s.workers[w].job.stage.Release?
    ensures var t := DoCommand(cfg, s, w, s.workers[w].i, s.workers[w].end, s.workers[w].job, fault, u);
            t.cache.idem == s.cache.idem && t.cache.wins == s.cache.wins && t.handlers == s.handlers
  {
    var job := s.workers[w].job;
    HandleCommandQueue(cfg, s.now, u, job.event, s.workers[w].i, s.db, s.cache, job.stage);
  }

  lemma WorkKeepsKeys(cfg: Config, s: State, w: nat, fault: Fault, u: real)
    requires w in s.workers
    ensures var t := DoWork(cfg, s, w, fault, u);
            t.cache.idem == s.cache.idem && t.cache.wins == s.cache.wins && t.handlers == s.handlers
  {
    match s.workers[w] {
      case Reading => assert DoWork(cfg, s, w, fault, u) == DoRead(cfg, s, w, fault);
      case Locking(i, end) => assert DoWork(cfg, s, w, fault, u) == DoLock(cfg, s, w, i, end, fault);
      case Skipping(i, end) => assert DoWork(cfg, s, w, fault, u) == DoSkip(s, w, i, end, fault);
      case Working(i, end, job) =>
        if !job.stage.Release? {
          CommandKeepsKeys(cfg, s, w, fault, u);
        }
    }
  }

  lemma KeysKept(cfg: Config, s: State, step: Step)
    requires !step.Handle?
    ensures var t := Apply(cfg, s, step);
            && t.cache.idem == s.cache.idem && t.cache.wins == s.cache.wins
            && (!step.DropHandler? ==> forall h | h in s.handlers :: h in t.handlers && t.handlers[h] == s.handlers[h])
            && (step.Deliver? || step.DropHandler? || t.handlers == s.handlers)
  {
    if step.Work? && step.w in s.workers && Backoff.IsDraw(step.u) {
      WorkKeepsKeys(cfg, s, step.w, step.fault, step.u);
    } else if step.Promote? && step.p in s.pollers {
      PromoteKeepsKeys(s, step.p);
    }
  }

  lemma PromoteKeepsKeys(s: State, p: nat)
    requires p in s.pollers
    ensures var t := DoPromote(s, p);
            t.cache.idem == s.cache.idem && t.cache.wins == s.cache.wins && t.handlers == s.handlers
  {
    match s.pollers[p] {
      case Removing(due) => assert DoPromote(s, p).cache == Unschedule(s.cache, due);
      case Promoting(rest) => assert rest != [] ==> DoPromote(s, p).cache == Publish(s.cache, rest[0]);
    }
  }

  lemma OtherHandlersKept(cfg: Config, s: State, h: nat, id: nat)
    requires h in s.handlers
    ensures var t := DoHandle(cfg, s, h, id);
            forall k | k != h :: (k in t.handlers <==> k in s.handlers)
              && (k in s.handlers ==> t.handlers[k] == s.handlers[k])
  {}

  lemma PastGrows(s: State, t: State, k: nat, g: nat)
    requires Past(s, k, g) && k in t.handlers && t.handlers[k] == s.handlers[k]
    requires forall g | g in s.db.byGateway :: g in t.db.byGateway && t.db.byGateway[g] == s.db.byGateway[g]
    ensures Past(t, k, g)
  {}

  lemma OtherHandlers(cfg: Config, s: State, h: nat, id: nat, g: nat)
    requires Inv(cfg, s) && h in s.handlers
    ensures var t := DoHandle(cfg, s, h, id);
            && (Published(s, g) ==> Published(t, g))
            && (forall k | k != h && Past(s, k, g) :: Past(t, k, g))
            && (forall k | k != h && k in s.handlers :: k in t.handlers && t.handlers[k] == s.handlers[k])
  {
    HandleKeeps(cfg, s, h, id);
    Carriers.HandleLeavesDead(cfg, s, h, id);
    OtherHandlersKept(cfg, s, h, id);
    PastAndPublishedGrow(s, DoHandle(cfg, s, h, id), h, g);
  }

  lemma PastAndPublishedGrow(s: State, t: State, h: nat, g: nat)
    requires Grows(s.db, t.db) && s.cache.log <= t.cache.log
    requires forall k | k != h && k in s.handlers :: k in t.handlers && t.handlers[k] == s.handlers[k]
    ensures Published(s, g) ==> Published(t, g)
    ensures forall k | k != h && Past(s, k, g) :: Past(t, k, g)
  {
    forall k | k != h && Past(s, k, g) ensures Past(t, k, g) {
      PastGrows(s, t, k, g);
    }
  }

  lemma HandleLeads(cfg: Config, s: State, h: nat, id: nat, g: nat)
    requires Inv(cfg, s) && KeysLead(s) && h in s.handlers
    ensures var t := DoHandle(cfg, s, h, id);
            && (Published(s, g) || SomePast(s, g) ==> Published(t, g) || SomePast(t, g))
            && (SomeMarking(s, g) ==> SomeMarking(t, g) || Published(t, g) || SomePast(t, g))
            && (g in t.cache.idem && g !in s.cache.idem ==> SomePast(t, g))
  {
    var t := DoHandle(cfg, s, h, id);
    OtherHandlers(cfg, s, h, id, g);
    HandlerOutcome(cfg, s, h, id, g);
    if SomePast(s, g) {
      var k :| Past(s, k, g);
      assert Past(t, k, g) || Published(t, g);
    }
    if SomeMarking(s, g) {
      var k :| k in s.handlers && s.handlers[k].Marking? && s.handlers[k].payload.gatewayId == g;
      assert k != h ==> k in t.handlers && t.handlers[k] == s.handlers[k];
    }
  }

  /** What becomes of the handler that takes the step. */
  lemma HandlerOutcome(cfg: Config, s: State, h: nat, id: nat, g: nat)
    requires Inv(cfg, s) && KeysLead(s) && h in s.handlers
    ensures var t := DoHandle(cfg, s, h, id);
            && (Past(s, h, g) ==> Past(t, h, g) || Published(t, g))
            && (s.handlers[h].Marking? && s.handlers[h].payload.gatewayId == g ==> Past(t, h, g) || g in s.cache.idem)
            && (g in t.cache.idem ==> g in s.cache.idem || Past(t, h, g))
  {
    var t := DoHandle(cfg, s, h, id);
    match s.handlers[h] {
      case Publishing(e) => assert t.cache.log[|s.cache.log|] == e;
      case _ =>
    }
  }

  ghost predicate NoHandlerFails(steps: seq<Step>) { forall k | 0 <= k < |steps| :: !steps[k].DropHandler? }

  ghost predicate Reached(s: State, g: nat) { SomeMarking(s, g) || SomePast(s, g) || Published(s, g) }

  lemma {:induction false} DeliveriesReach(cfg: Config, steps: seq<Step>)
    requires NoHandlerFails(steps)
    ensures KeysLead(Exec(cfg, steps))
    ensures forall g | g in DeliveredIds(cfg, steps) :: Reached(Exec(cfg, steps), g)
  {
    if steps != [] {
      var n := |steps| - 1;
      var s := Exec(cfg, steps[..n]);
      var t := Exec(cfg, steps);
      assert forall k | 0 <= k < n :: steps[..n][k] == steps[k];
      DeliveriesReach(cfg, steps[..n]);
      Always(cfg, steps[..n]);
      forall g ensures (g in t.cache.idem ==> Published(t, g) || SomePast(t, g)) && (Reached(s, g) ==> Reached(t, g)) {
        StepReaches(cfg, s, steps[n], g);
      }
      if steps[n].Deliver? && steps[n].h !in s.handlers && WellFormed(steps[n].payload) {
        assert t.handlers[steps[n].h] == Marking(steps[n].payload);
      }
    }
  }

  lemma StepReaches(cfg: Config, s: State, step: Step, g: nat)
    requires Inv(cfg, s) && KeysLead(s) && !step.DropHandler?
    ensures var t := Apply(cfg, s, step);
            (g in t.cache.idem ==> Published(t, g) || SomePast(t, g)) && (Reached(s, g) ==> Reached(t, g))
  {
    if step.Handle? {
      if step.h in s.handlers { HandleLeads(cfg, s, step.h, step.id, g); }
    } else {
      OthersKeepIntake(cfg, s, step, g);
    }
  }

  /** If no handler fails, then once no request is in flight every delivered id has its row,
      and its event has been published. */
  lemma {:induction false} DeliveredArePublished(cfg: Config, steps: seq<Step>, g: nat)
    requires NoHandlerFails(steps) && Exec(cfg, steps).handlers == map[] && g in DeliveredIds(cfg, steps)
    ensures Published(Exec(cfg, steps), g)
  {
    DeliveriesReach(cfg, steps);
    assert Reached(Exec(cfg, steps), g);
  }
}
