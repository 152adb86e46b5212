/** Mismatches and settlement records name rows that are there, whatever their status. */
module References {
  import opened Domain
  import opened Tables
  import opened Pipeline
  import opened Integrity
  import opened Leases
  import Backoff
  import Carriers

  ghost predicate MismatchesRefer(db: Db) {
    forall k | 0 <= k < |db.mismatches| :: db.mismatches[k].0 in db.events
  }

  predicate RecordRefers(db: Db, r: Record) {
    r.file in db.batches && (r.event.Some? ==> r.event.value in db.events)
  }

  ghost predicate RecordsRefer(db: Db) { forall k | 0 <= k < |db.records| :: RecordRefers(db, db.records[k]) }

  /** An upload past its first two commands has its batch. */
  predicate UploadRefers(db: Db, up: Upload) {
    match up.stage
    case Searching => true
    case Creating => true
    case Recording(found, _) => up.file in db.batches && (found.Some? ==> found.value in db.events)
    case _ => up.file in db.batches
  }

  ghost predicate UploadsRefer(s: State) { forall n | n in s.uploads :: UploadRefers(s.db, s.uploads[n]) }

  ghost predicate Refers(s: State) { MismatchesRefer(s.db) && RecordsRefer(s.db) && UploadsRefer(s) }

  /** An order stands with the money and at the time it was placed. */
  lemma {:induction false} OrderAsPlaced(cfg: Config, steps: seq<Step>, k: nat, o: nat)
    requires k < |steps| && steps[k].CreateOrder? && steps[k].o == o
    requires o !in At(cfg, steps, k).db.orders && 0 < steps[k].amount
    ensures var db := Exec(cfg, steps).db;
            && o in db.orders && db.orders[o].amount == steps[k].amount && db.orders[o].currency == steps[k].currency
            && db.orders[o].createdAt == At(cfg, steps, k).now
    ensures At(cfg, steps, k + 1).db.orders[o].status.Created?
  {
    assert steps[..k + 1][..k] == steps[..k];
    FactsStand(cfg, steps, k + 1);
  }

  // ---------- uploads ----------

  lemma RecordingRefers(db: Db, now: nat, up: Upload)
    requires RecordsRefer(db) && UploadRefers(db, up) && up.stage.Recording?
    ensures var (db', up') := UploadCommand(db, now, up);
            && RecordsRefer(db') && (up'.Some? ==> UploadRefers(db', up'.value))
            && db' == db.(records := db'.records)
  {
    if up.next < |Rows(up.file)| {
      var r := Record(up.file, Rows(up.file)[up.next], up.stage.status, up.stage.found);
      RecordAdded(db, UploadCommand(db, now, up).0, r);
    }
  }

  lemma CommandRefers(db: Db, now: nat, up: Upload)
    requires EventsOk(db) && RecordsRefer(db) && UploadRefers(db, up)
    ensures var (db', up') := UploadCommand(db, now, up);
            && RecordsRefer(db') && (up'.Some? ==> UploadRefers(db', up'.value))
            && db'.events == db.events && db'.mismatches == db.mismatches && db.batches.Keys <= db'.batches.Keys
  {
    match up.stage {
      case Recording(_, _) => RecordingRefers(db, now, up);
      case Settling(e, record) => assert UploadCommand(db, now, up).0 == SettleForEvent(db, e, record, now);
      case _ =>
    }
  }

  lemma RecordAdded(db: Db, db': Db, r: Record)
    requires RecordsRefer(db) && RecordRefers(db, r) && db' == InsertRecord(db, r)
    ensures RecordsRefer(db')
  {
    forall k | 0 <= k < |db'.records| ensures RecordRefers(db', db'.records[k]) {
      assert k < |db.records| ==> RecordRefers(db, db.records[k]);
    }
  }

  lemma AdvanceRefers(cfg: Config, s: State, n: nat)
    requires Inv(cfg, s) && Refers(s) && n in s.uploads
    ensures Refers(DoUpload(s, n))
  {
    CommandRefers(s.db, s.now, s.uploads[n]);
    var t := DoUpload(s, n);
    forall m | m in t.uploads && m != n ensures UploadRefers(t.db, t.uploads[m]) {
      assert UploadRefers(s.db, s.uploads[m]);
    }
  }

  // ---------- everything else ----------

  /** Rows of other tables only come to be. */
  lemma RefersStill(s: State, t: State)
    requires Refers(s) && s.db.events.Keys <= t.db.events.Keys
    requires t.db.records == s.db.records && t.db.batches == s.db.batches && MismatchesRefer(t.db)
    requires forall n | n in t.uploads ::
               (n in s.uploads && t.uploads[n] == s.uploads[n]) || t.uploads[n].stage.Searching?
    ensures Refers(t)
  {
    forall k | 0 <= k < |t.db.records| ensures RecordRefers(t.db, t.db.records[k]) {
      assert RecordRefers(s.db, s.db.records[k]);
    }
    forall n | n in t.uploads ensures UploadRefers(t.db, t.uploads[n]) {
      assert n in s.uploads ==> UploadRefers(s.db, s.uploads[n]);
    }
  }

  lemma ReplyRefers(cfg: Config, now: nat, u: real, e: nat, i: nat, db: Db, cache: Cache, stage: Stage)
    requires !stage.Release? && e in db.events && MismatchesRefer(db)
    ensures var db' := HandleCommand(cfg, now, u, e, i, db, cache, stage).db;
            && db'.records == db.records && db'.batches == db.batches && db'.events.Keys == db.events.Keys
            && MismatchesRefer(db')
  {}

  lemma HeldRefers(cfg: Config, s: State, w: nat, i: nat, end: nat, job: Job, fault: Fault, u: real)
    requires Refers(s) && !job.stage.Release? && job.event in s.db.events
    ensures Refers(DoCommand(cfg, s, w, i, end, job, fault, u))
  {
    ReplyRefers(cfg, s.now, u, job.event, i, s.db, s.cache, job.stage);
    RefersStill(s, DoCommand(cfg, s, w, i, end, job, fault, u));
  }

  lemma WorkRefers(cfg: Config, s: State, w: nat, fault: Fault, u: real)
    requires Inv(cfg, s) && Refers(s) && w in s.workers
    ensures Refers(DoWork(cfg, s, w, fault, u))
  {
    assert WorkerOk(cfg, s.db, s.cache.log, s.workers[w]);
    if IsWorking(s, w) && !JobOf(s, w).stage.Release? {
      HeldRefers(cfg, s, w, s.workers[w].i, s.workers[w].end, JobOf(s, w), fault, u);
    } else {
      RefersStill(s, DoWork(cfg, s, w, fault, u));
    }
  }

  lemma HandleRefers(cfg: Config, s: State, h: nat, id: nat)
    requires Refers(s) && h in s.handlers
    ensures Refers(DoHandle(cfg, s, h, id))
  {
    match s.handlers[h] {
      case Upserting(p, order) =>
        var db' := UpsertPending(s.db, id, p, order);
        assert db'.records == s.db.records && db'.batches == s.db.batches && db'.mismatches == s.db.mismatches;
      case _ => assert DoHandle(cfg, s, h, id).db == s.db;
    }
    RefersStill(s, DoHandle(cfg, s, h, id));
  }

  lemma StepRefers(cfg: Config, s: State, step: Step)
    requires Inv(cfg, s) && Refers(s)
    ensures Refers(Apply(cfg, s, step))
  {
    match step {
      case AdvanceUpload(n) => if n in s.uploads { AdvanceRefers(cfg, s, n); }
      case Work(w, fault, u) => if w in s.workers && Backoff.IsDraw(u) { WorkRefers(cfg, s, w, fault, u); }
      case Handle(h, id) => if h in s.handlers { HandleRefers(cfg, s, h, id); }
      case _ =>
        AsideRefers(cfg, s, step);
        RefersStill(s, Apply(cfg, s, step));
    }
  }

  lemma AsideRefers(cfg: Config, s: State, step: Step)
    requires !step.AdvanceUpload? && !step.Work? && !step.Handle?
    ensures var t := Apply(cfg, s, step);
            && t.db == s.db.(orders := t.db.orders)
            && forall n | n in t.uploads ::
                 (n in s.uploads && t.uploads[n] == s.uploads[n]) || t.uploads[n].stage.Searching?
  {
    if step.Promote? && step.p in s.pollers {
      Carriers.PromoteLeaves(s, step.p);
    }
  }

  lemma {:induction false} RefersAlways(cfg: Config, steps: seq<Step>)
    ensures Refers(Exec(cfg, steps))
  {
    if steps != [] {
      RefersAlways(cfg, steps[..|steps| - 1]);
      Integrity.Always(cfg, steps[..|steps| - 1]);
      StepRefers(cfg, Exec(cfg, steps[..|steps| - 1]), steps[|steps| - 1]);
    }
  }
}
