/** What uploads leave behind: entries that stay pending, and batches that stay unfinished. */
module Unsettled {
  import opened Domain
  import opened Tables
  import opened Pipeline
  import opened Integrity
  import opened Leases
  import Acknowledgement
  import Backoff
  import Booking
  import Carriers
  import Settlement

  // ---------- what the other steps leave alone ----------

  lemma OthersUpload(cfg: Config, s: State, step: Step)
    requires !step.AdvanceUpload?
    ensures var t := Apply(cfg, s, step);
            && t.db.batches == s.db.batches
            && (forall n | n in t.uploads ::
                  (n in s.uploads && t.uploads[n] == s.uploads[n])
                  || (step.StartUpload? && step.n == n && t.uploads[n] == Upload(step.file, 0, 0, 0, 0, Searching)))
  {
    Settlement.OthersKeepBatches(cfg, s, step);
    if step.Handle? && step.h in s.handlers {
      HandleKeepsUploads(cfg, s, step.h, step.id);
    } else if step.Promote? && step.p in s.pollers {
      Carriers.PromoteLeaves(s, step.p);
    }
  }

  lemma HandleKeepsUploads(cfg: Config, s: State, h: nat, id: nat)
    requires h in s.handlers
    ensures DoHandle(cfg, s, h, id).uploads == s.uploads
  {}

  // ---------- unfinished batches ----------

  predicate Started(up: Upload) { !up.stage.Searching? && !up.stage.Creating? }

  /** The batch is still being processed, but by no upload. */
  ghost predicate Unfinished(s: State, file: File) {
    && file in s.db.batches && s.db.batches[file].status.Processing?
    && forall n | n in s.uploads && s.uploads[n].file == file :: !Started(s.uploads[n])
  }

  lemma CommandUnfinished(db: Db, now: nat, up: Upload, file: File)
    requires file in db.batches && (up.file == file ==> !Started(up))
    ensures var (db', up') := UploadCommand(db, now, up);
            && file in db'.batches && db'.batches[file] == db.batches[file]
            && (up'.Some? && up'.value.file == file ==> !Started(up'.value))
  {
    if up.stage.Settling? {
      assert UploadCommand(db, now, up).0 == SettleForEvent(db, up.stage.event, up.stage.record, now);
    }
  }

  lemma StaysUnfinished(cfg: Config, s: State, step: Step, file: File)
    requires Unfinished(s, file)
    ensures Unfinished(Apply(cfg, s, step), file)
  {
    if step.AdvanceUpload? {
      if step.n in s.uploads { CommandUnfinished(s.db, s.now, s.uploads[step.n], file); }
    } else {
      OthersUpload(cfg, s, step);
    }
  }

  lemma {:induction false} UnfinishedForGood(cfg: Config, steps: seq<Step>, more: seq<Step>, file: File)
    requires Unfinished(Exec(cfg, steps), file)
    ensures Unfinished(Exec(cfg, steps + more), file)
    decreases |more|
  {
    if more == [] {
      assert steps + more == steps;
    } else {
      UnfinishedForGood(cfg, steps, more[..|more| - 1], file);
      Acknowledgement.ExecMore(cfg, steps, more);
      StaysUnfinished(cfg, Exec(cfg, steps + more[..|more| - 1]), more[|more| - 1], file);
    }
  }

  /** An upload at a row has that row. */
  predicate AtSomeRow(up: Upload) {
    up.stage.Looking? || up.stage.Recording? || up.stage.Settling? ==> up.next < |Rows(up.file)|
  }

  ghost predicate RowsAhead(s: State) { forall n | n in s.uploads :: AtSomeRow(s.uploads[n]) }

  lemma {:induction false} RowsAheadAlways(cfg: Config, steps: seq<Step>)
    ensures RowsAhead(Exec(cfg, steps))
  {
    if steps != [] {
      var s, step := Exec(cfg, steps[..|steps| - 1]), steps[|steps| - 1];
      RowsAheadAlways(cfg, steps[..|steps| - 1]);
      if !step.AdvanceUpload? {
        OthersUpload(cfg, s, step);
      }
    }
  }

  /** How many commands are left, one row taking three at most. */
  function CommandsLeft(up: Upload): nat {
    var rows := |Rows(up.file)|;
    var left := if up.next <= rows then rows - up.next else 0;
    match up.stage
    case Searching => 3 * rows + 6
    case Creating => 3 * rows + 5
    case Looking => 3 * left + 3
    case Recording(_, _) => 3 * left + 2
    case Settling(_, _) => 3 * left + 1
    case Finishing => 1
  }

  /** A started upload comes nearer to its end, or completes its batch. */
  lemma CommandFinishes(db: Db, now: nat, up: Upload)
    requires Started(up) && AtSomeRow(up)
    ensures var (db', up') := UploadCommand(db, now, up);
            if up'.None? then up.file in db'.batches && db'.batches[up.file].status.Completed?
            else Started(up'.value) && up'.value.file == up.file && CommandsLeft(up'.value) < CommandsLeft(up)
  {}

  lemma {:induction false} Completes(cfg: Config, steps: seq<Step>, n: nat) returns (more: seq<Step>)
    requires n in Exec(cfg, steps).uploads && Started(Exec(cfg, steps).uploads[n])
    ensures var file := Exec(cfg, steps).uploads[n].file; var db := Exec(cfg, steps + more).db;
            file in db.batches && db.batches[file].status.Completed?
    decreases CommandsLeft(Exec(cfg, steps).uploads[n])
  {
    var s := Exec(cfg, steps);
    RowsAheadAlways(cfg, steps);
    CommandFinishes(s.db, s.now, s.uploads[n]);
    var next := steps + [AdvanceUpload(n)];
    assert next[..|steps|] == steps;
    more := [AdvanceUpload(n)];
    if UploadCommand(s.db, s.now, s.uploads[n]).1.Some? {
      var rest := Completes(cfg, next, n);
      more := more + rest;
      assert steps + more == next + rest;
    }
  }

  /** After any run: a batch is being processed in every continuation if and only if it is now,
      and no upload is at it any more.  Uploading its file again does not finish it. */
  lemma {:induction false} NeverCompletedExactly(cfg: Config, steps: seq<Step>, file: File)
    ensures (forall more :: var db := Exec(cfg, steps + more).db;
                            file in db.batches && db.batches[file].status.Processing?)
            <==> Unfinished(Exec(cfg, steps), file)
  {
    var s := Exec(cfg, steps);
    assert steps + [] == steps;
    if Unfinished(s, file) {
      forall more
        ensures var db := Exec(cfg, steps + more).db; file in db.batches && db.batches[file].status.Processing?
      {
        UnfinishedForGood(cfg, steps, more, file);
      }
    } else if file in s.db.batches && s.db.batches[file].status.Processing? {
      var n :| n in s.uploads && s.uploads[n].file == file && Started(s.uploads[n]);
      var more := Completes(cfg, steps, n);
    }
  }

  // ---------- entries that stay pending ----------

  /** The row confirms the event's money. */
  predicate Names(db: Db, row: Row, e: nat) {
    && e in db.events
    && (row.gatewayId, row.amount, row.currency)
       == (db.events[e].gatewayId, db.events[e].amount, db.events[e].currency)
  }

  predicate NamedFrom(db: Db, file: File, next: nat, e: nat) {
    exists k :: next <= k < |Rows(file)| && Names(db, Rows(file)[k], e)
  }

  /** The upload can still settle entries of the event: it is new and its file names the event,
      or it has not yet done with a row that does. */
  predicate MaySettle(db: Db, up: Upload, e: nat) {
    match up.stage
    case Searching => up.file !in db.batches && NamedFrom(db, up.file, 0, e)
    case Creating => up.file !in db.batches && NamedFrom(db, up.file, 0, e)
    case Looking => NamedFrom(db, up.file, up.next, e)
    case Recording(found, status) =>
      (found == Some(e) && status.Matched?) || NamedFrom(db, up.file, up.next + 1, e)
    case Settling(x, _) => x == e || NamedFrom(db, up.file, up.next + 1, e)
    case Finishing => false
  }

  ghost predicate NoneMaySettle(s: State, e: nat) { forall n | n in s.uploads :: !MaySettle(s.db, s.uploads[n], e) }

  /** An upload with a batch yet to create starts with its first row. */
  predicate AtStart(up: Upload) { !Started(up) ==> up.next == 0 }

  ghost predicate AllAtStart(s: State) { forall n | n in s.uploads :: AtStart(s.uploads[n]) }

  lemma {:induction false} AtStartAlways(cfg: Config, steps: seq<Step>)
    ensures AllAtStart(Exec(cfg, steps))
  {
    if steps != [] {
      var s, step := Exec(cfg, steps[..|steps| - 1]), steps[|steps| - 1];
      AtStartAlways(cfg, steps[..|steps| - 1]);
      if !step.AdvanceUpload? {
        OthersUpload(cfg, s, step);
      }
    }
  }

  /** An upload that cannot settle the event's entries does not, and cannot afterwards. */
  lemma CommandSettlesNone(db: Db, now: nat, up: Upload, e: nat)
    requires EventsOk(db) && e in db.events && !MaySettle(db, up, e) && AtStart(up)
    ensures var (db', up') := UploadCommand(db, now, up);
            && db'.events == db.events && db.batches.Keys <= db'.batches.Keys
            && |db'.ledger| == |db.ledger|
            && (forall i | 0 <= i < |db.ledger| && db.ledger[i].event == e :: db'.ledger[i] == db.ledger[i])
            && (up'.Some? ==> !MaySettle(db', up'.value, e))
  {
    match up.stage {
      case Settling(x, record) => SettlesOthers(db, now, up, e);
      case Looking => LookingSettlesNone(db, now, up, e);
      case Recording(_, _) => RecordingSettlesNone(db, now, up, e);
      case _ =>
    }
  }

  lemma RecordingSettlesNone(db: Db, now: nat, up: Upload, e: nat)
    requires up.stage.Recording? && !MaySettle(db, up, e)
    ensures var (db', up') := UploadCommand(db, now, up);
            db' == db.(records := db'.records) && (up'.Some? ==> !MaySettle(db', up'.value, e))
  {}

  lemma SettlesOthers(db: Db, now: nat, up: Upload, e: nat)
    requires up.stage.Settling? && !MaySettle(db, up, e)
    ensures var (db', up') := UploadCommand(db, now, up);
            && db' == db.(ledger := db'.ledger) && |db'.ledger| == |db.ledger|
            && (forall i | 0 <= i < |db.ledger| && db.ledger[i].event == e :: db'.ledger[i] == db.ledger[i])
            && (up'.Some? ==> !MaySettle(db', up'.value, e))
  {
    assert UploadCommand(db, now, up).0 == SettleForEvent(db, up.stage.event, up.stage.record, now);
  }

  lemma LookingSettlesNone(db: Db, now: nat, up: Upload, e: nat)
    requires EventsOk(db) && e in db.events && up.stage.Looking? && !MaySettle(db, up, e)
    ensures var (db', up') := UploadCommand(db, now, up);
            db' == db && (up'.Some? ==> !MaySettle(db, up'.value, e))
  {
    if up.next < |Rows(up.file)| {
      assert !Names(db, Rows(up.file)[up.next], e);
    }
  }

  /** What an upload can settle does not grow with the tables. */
  lemma StillMayNot(a: Db, b: Db, up: Upload, e: nat)
    requires Grows(a, b) && e in a.events && a.batches.Keys <= b.batches.Keys && !MaySettle(a, up, e)
    ensures !MaySettle(b, up, e)
  {
    forall row ensures Names(b, row, e) <==> Names(a, row, e) {}
  }

  lemma NoneMayStill(s: State, t: State, e: nat)
    requires NoneMaySettle(s, e) && Grows(s.db, t.db) && e in s.db.events && s.db.batches.Keys <= t.db.batches.Keys
    requires forall m | m in t.uploads ::
               (m in s.uploads && t.uploads[m] == s.uploads[m]) || !MaySettle(t.db, t.uploads[m], e)
    ensures NoneMaySettle(t, e)
  {
    forall m | m in t.uploads ensures !MaySettle(t.db, t.uploads[m], e) {
      if m in s.uploads && t.uploads[m] == s.uploads[m] { StillMayNot(s.db, t.db, s.uploads[m], e); }
    }
  }

  lemma AdvanceSettlesNone(cfg: Config, s: State, n: nat, e: nat)
    requires Inv(cfg, s) && AllAtStart(s) && NoneMaySettle(s, e) && e in s.db.events && n in s.uploads
    requires Grows(s.db, DoUpload(s, n).db)
    ensures NoneMaySettle(DoUpload(s, n), e)
  {
    CommandSettlesNone(s.db, s.now, s.uploads[n], e);
    NoneMayStill(s, DoUpload(s, n), e);
  }

  lemma AdvanceKeepsEntry(cfg: Config, s: State, n: nat, e: nat, i: nat)
    requires Inv(cfg, s) && AllAtStart(s) && NoneMaySettle(s, e) && e in s.db.events && n in s.uploads
    requires i < |s.db.ledger| && s.db.ledger[i].event == e
    ensures i < |DoUpload(s, n).db.ledger| && DoUpload(s, n).db.ledger[i] == s.db.ledger[i]
  {
    CommandSettlesNone(s.db, s.now, s.uploads[n], e);
  }

  /** Nobody but an upload changes an entry. */
  lemma OthersAppend(cfg: Config, s: State, step: Step)
    requires Inv(cfg, s) && !step.AdvanceUpload?
    ensures s.db.ledger <= Apply(cfg, s, step).db.ledger
  {
    if step.Work? && step.w in s.workers && Backoff.IsDraw(step.u) {
      WorkAppends(cfg, s, step.w, step.fault, step.u);
    } else if step.Handle? && step.h in s.handlers {
      Booking.HandleLeavesOrders(cfg, s, step.h, step.id);
    } else if step.Promote? && step.p in s.pollers {
      Carriers.PromoteLeaves(s, step.p);
    }
  }

  lemma WorkAppends(cfg: Config, s: State, w: nat, fault: Fault, u: real)
    requires w in s.workers
    ensures s.db.ledger <= DoWork(cfg, s, w, fault, u).db.ledger
  {
    if IsWorking(s, w) && !JobOf(s, w).stage.Release? {
      CommandAppends(cfg, s.now, u, JobOf(s, w).event, s.workers[w].i, s.db, s.cache, JobOf(s, w).stage);
    } else {
      Booking.AwayMoves(cfg, s, w, fault, u);
    }
  }

  lemma CommandAppends(cfg: Config, now: nat, u: real, e: nat, i: nat, db: Db, cache: Cache, stage: Stage)
    requires !stage.Release?
    ensures db.ledger <= HandleCommand(cfg, now, u, e, i, db, cache, stage).db.ledger
  {
    if !stage.SetStatus? && !stage.Commit? {
      Booking.CommandLeaves(cfg, now, u, e, i, db, cache, stage);
    }
  }

  /** The step starts no upload that may settle the event's entries. */
  predicate StartsNone(db: Db, step: Step, e: nat) {
    step.StartUpload? ==> step.file in db.batches || !NamedFrom(db, step.file, 0, e)
  }

  lemma OtherSettlesNone(cfg: Config, s: State, step: Step, e: nat)
    requires NoneMaySettle(s, e) && e in s.db.events && StartsNone(s.db, step, e)
    requires !step.AdvanceUpload? && Grows(s.db, Apply(cfg, s, step).db)
    ensures NoneMaySettle(Apply(cfg, s, step), e)
  {
    var t := Apply(cfg, s, step);
    OthersUpload(cfg, s, step);
    forall n | n in t.uploads && !(n in s.uploads && t.uploads[n] == s.uploads[n])
      ensures !MaySettle(t.db, t.uploads[n], e)
    {
      StillMayNot(s.db, t.db, Upload(step.file, 0, 0, 0, 0, Searching), e);
    }
    NoneMayStill(s, t, e);
  }

  lemma StepSettlesNone(cfg: Config, s: State, step: Step, e: nat)
    requires Inv(cfg, s) && AllAtStart(s) && NoneMaySettle(s, e) && e in s.db.events && StartsNone(s.db, step, e)
    requires Grows(s.db, Apply(cfg, s, step).db)
    ensures NoneMaySettle(Apply(cfg, s, step), e)
  {
    if !step.AdvanceUpload? {
      OtherSettlesNone(cfg, s, step, e);
    } else if step.n in s.uploads {
      assert Apply(cfg, s, step) == DoUpload(s, step.n);
      AdvanceSettlesNone(cfg, s, step.n, e);
    }
  }

  lemma StepKeepsEntry(cfg: Config, s: State, step: Step, e: nat, i: nat)
    requires Inv(cfg, s) && AllAtStart(s) && NoneMaySettle(s, e) && e in s.db.events
    requires i < |s.db.ledger| && s.db.ledger[i].event == e
    ensures var t := Apply(cfg, s, step); i < |t.db.ledger| && t.db.ledger[i] == s.db.ledger[i]
  {
    if !step.AdvanceUpload? {
      OthersAppend(cfg, s, step);
    } else if step.n in s.uploads {
      AdvanceKeepsEntry(cfg, s, step.n, e, i);
    }
  }

  ghost predicate NamedOnlyAgain(cfg: Config, steps: seq<Step>, k: nat, e: nat) {
    forall j: nat | k <= j < |steps| :: StartsNone(At(cfg, steps, j).db, steps[j], e)
  }

  lemma NamedBefore(cfg: Config, steps: seq<Step>, m: nat, k: nat, e: nat)
    requires m <= |steps| && NamedOnlyAgain(cfg, steps, k, e)
    ensures NamedOnlyAgain(cfg, steps[..m], k, e)
  {
    forall j: nat | k <= j < m ensures StartsNone(At(cfg, steps[..m], j).db, steps[..m][j], e) {
      AtPrefix(cfg, steps, m, j);
    }
  }

  lemma PendingNext(cfg: Config, before: seq<Step>, step: Step, e: nat, i: nat)
    requires var s := Exec(cfg, before);
             && NoneMaySettle(s, e) && StartsNone(s.db, step, e)
             && i < |s.db.ledger| && s.db.ledger[i].event == e
    ensures var s, t := Exec(cfg, before), Apply(cfg, Exec(cfg, before), step);
            NoneMaySettle(t, e) && i < |t.db.ledger| && t.db.ledger[i] == s.db.ledger[i]
  {
    Integrity.Always(cfg, before);
    AtStartAlways(cfg, before);
    Booking.EntryHasEvent(Exec(cfg, before).db, i);
    Integrity.StepKeeps(cfg, Exec(cfg, before), step);
    StepSettlesNone(cfg, Exec(cfg, before), step, e);
    StepKeepsEntry(cfg, Exec(cfg, before), step, e, i);
  }

  /** An entry no upload can settle any more stays as it is, as long as its event is named only
      by files that are known already: a pair booked after its event's row was processed stays
      pending until another file names the event. */
  lemma {:induction false} StaysPending(cfg: Config, steps: seq<Step>, k: nat, e: nat, i: nat)
    requires k <= |steps| && i < |At(cfg, steps, k).db.ledger| && At(cfg, steps, k).db.ledger[i].event == e
    requires NoneMaySettle(At(cfg, steps, k), e) && NamedOnlyAgain(cfg, steps, k, e)
    ensures i < |Exec(cfg, steps).db.ledger| && Exec(cfg, steps).db.ledger[i] == At(cfg, steps, k).db.ledger[i]
    ensures NoneMaySettle(Exec(cfg, steps), e)
    decreases |steps|
  {
    if k == |steps| {
      assert steps[..k] == steps;
    } else {
      var m := |steps| - 1;
      AtPrefix(cfg, steps, m, k);
      NamedBefore(cfg, steps, m, k, e);
      StaysPending(cfg, steps[..m], k, e, i);
      assert At(cfg, steps, m) == Exec(cfg, steps[..m]);
      PendingNext(cfg, steps[..m], steps[m], e, i);
    }
  }
}
