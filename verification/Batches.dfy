/** A completed batch counts its own records, in every run. */
module Batches {
  import opened Domain
  import opened Tables
  import opened Pipeline
  import opened Integrity
  import opened Leases
  import opened Unsettled
  import Backoff
  import Booking
  import References

  /** The records of a file, and those among them with a status. */
  function FileRecords(db: Db, file: File): set<nat> {
    set k | 0 <= k < |db.records| && db.records[k].file == file
  }

  function FileStatus(db: Db, file: File, status: MatchStatus): set<nat> {
    set k | 0 <= k < |db.records| && db.records[k].file == file && db.records[k].status == status
  }

  ghost predicate Counters(db: Db, file: File, total: nat, matched: nat, mismatched: nat, unmatched: nat) {
    && |FileRecords(db, file)| == total
    && |FileStatus(db, file, MatchStatus.Matched)| == matched
    && |FileStatus(db, file, MatchStatus.AmountMismatch)| == mismatched
    && |FileStatus(db, file, Unmatched)| == unmatched
  }

  /** An upload under way has counted the records of its file, but for the one whose entries it
      is about to settle. */
  ghost predicate UploadCounts(db: Db, up: Upload) {
    var settling := if up.stage.Settling? then 1 else 0;
    && Counters(db, up.file, up.next + settling, up.matched + settling, up.mismatched, up.unmatched)
    && up.next + settling <= |Rows(up.file)| && (up.stage.Finishing? ==> up.next == |Rows(up.file)|)
  }

  ghost predicate FileOk(s: State, file: File) {
    && (file !in s.db.batches ==> FileRecords(s.db, file) == {})
    && (forall n | n in s.uploads && s.uploads[n].file == file ::
          if Started(s.uploads[n])
          then file in s.db.batches && s.db.batches[file].status.Processing? && UploadCounts(s.db, s.uploads[n])
          else s.uploads[n].next == s.uploads[n].matched == s.uploads[n].mismatched == s.uploads[n].unmatched == 0)
    && (forall m, n | m in s.uploads && n in s.uploads && Started(s.uploads[m]) && Started(s.uploads[n])
                      && s.uploads[m].file == file && s.uploads[n].file == file :: m == n)
    && (file in s.db.batches && s.db.batches[file].status.Completed? ==>
          var b := s.db.batches[file];
          b.total == |Rows(file)| && Counters(s.db, file, b.total, b.matched, b.mismatched, b.unmatched))
  }

  // ---------- a record more ----------

  lemma OneMore(a: Db, b: Db, r: Record)
    requires b == InsertRecord(a, r)
    ensures |FileRecords(b, r.file)| == |FileRecords(a, r.file)| + 1
    ensures forall status ::
              |FileStatus(b, r.file, status)| == |FileStatus(a, r.file, status)| + if r.status == status then 1 else 0
  {
    var n := |a.records|;
    assert FileRecords(b, r.file) == FileRecords(a, r.file) + {n};
    forall status
      ensures |FileStatus(b, r.file, status)| == |FileStatus(a, r.file, status)| + if r.status == status then 1 else 0
    {
      OneMoreWith(a, b, r, status);
    }
  }

  lemma OneMoreWith(a: Db, b: Db, r: Record, status: MatchStatus)
    requires b == InsertRecord(a, r)
    ensures |FileStatus(b, r.file, status)| == |FileStatus(a, r.file, status)| + if r.status == status then 1 else 0
  {
    var more := if r.status == status then {|a.records|} else {};
    assert FileStatus(b, r.file, status) == FileStatus(a, r.file, status) + more;
  }

  lemma NoMore(a: Db, b: Db, r: Record, file: File)
    requires b == InsertRecord(a, r) && file != r.file
    ensures SameRecords(a, b, file)
  {}

  /** A row recorded. */
  lemma RecordingCounts(db: Db, now: nat, up: Upload)
    requires up.stage.Recording? && UploadOk(db, up) && UploadCounts(db, up)
    ensures var (db', up') := UploadCommand(db, now, up);
            && db' == db.(records := db'.records) && up'.Some? && up'.value.file == up.file && Started(up'.value)
            && UploadCounts(db', up'.value)
  {
    var r := Record(up.file, Rows(up.file)[up.next], up.stage.status, up.stage.found);
    OneMore(db, UploadCommand(db, now, up).0, r);
  }

  ghost predicate SameRecords(a: Db, b: Db, file: File) {
    && FileRecords(b, file) == FileRecords(a, file)
    && forall status :: FileStatus(b, file, status) == FileStatus(a, file, status)
  }

  /** Any other command of an upload under way. */
  lemma StartedCounts(db: Db, now: nat, up: Upload)
    requires Started(up) && !up.stage.Recording? && !up.stage.Finishing? && AtSomeRow(up) && UploadCounts(db, up)
    ensures var (db', up') := UploadCommand(db, now, up);
            && db' == db.(ledger := db'.ledger) && up'.Some? && up'.value.file == up.file && Started(up'.value)
            && UploadCounts(db', up'.value)
  {
    if up.stage.Settling? {
      assert UploadCommand(db, now, up).0 == SettleForEvent(db, up.stage.event, up.stage.record, now);
    }
    SameCounters(db, UploadCommand(db, now, up).0, up.file);
  }

  lemma SameCounters(a: Db, b: Db, file: File)
    requires b.records == a.records
    ensures SameRecords(a, b, file)
  {}

  // ---------- one step ----------

  /** The file's batch, records and uploads are as they were, but for uploads gone or new. */
  lemma FileKept(s: State, t: State, file: File)
    requires FileOk(s, file) && SameRecords(s.db, t.db, file)
    requires file in t.db.batches <==> file in s.db.batches
    requires file in s.db.batches ==> t.db.batches[file] == s.db.batches[file]
    requires forall n | n in t.uploads && t.uploads[n].file == file ::
               (n in s.uploads && t.uploads[n] == s.uploads[n]) || t.uploads[n] == Upload(file, 0, 0, 0, 0, Searching)
    ensures FileOk(t, file)
  {
    forall m, n | m in t.uploads && n in t.uploads && Started(t.uploads[m]) && Started(t.uploads[n])
                  && t.uploads[m].file == file && t.uploads[n].file == file
      ensures m == n
    {
      assert m in s.uploads && n in s.uploads && s.uploads[m] == t.uploads[m] && s.uploads[n] == t.uploads[n];
    }
  }

  /** What an upload of another file leaves alone. */
  lemma OtherBatch(db: Db, now: nat, up: Upload, file: File)
    requires up.file != file
    ensures var (db', up') := UploadCommand(db, now, up);
            && (up'.Some? ==> up'.value.file != file) && (file in db'.batches <==> file in db.batches)
            && (file in db.batches ==> db'.batches[file] == db.batches[file])
  {
    if up.stage.Settling? {
      assert UploadCommand(db, now, up).0 == SettleForEvent(db, up.stage.event, up.stage.record, now);
    }
  }

  lemma OtherRecords(db: Db, now: nat, up: Upload, file: File)
    requires up.file != file
    ensures SameRecords(db, UploadCommand(db, now, up).0, file)
  {
    var db' := UploadCommand(db, now, up).0;
    if up.stage.Recording? && up.next < |Rows(up.file)| {
      NoMore(db, db', Record(up.file, Rows(up.file)[up.next], up.stage.status, up.stage.found), file);
    } else {
      if up.stage.Settling? {
        assert db' == SettleForEvent(db, up.stage.event, up.stage.record, now);
      }
      SameCounters(db, db', file);
    }
  }

  /** The file's own upload goes on. */
  lemma GoesOn(s: State, t: State, n: nat, file: File)
    requires FileOk(s, file) && n in s.uploads && n in t.uploads && t.uploads == s.uploads[n := t.uploads[n]]
    requires s.uploads[n].file == t.uploads[n].file == file && Started(s.uploads[n]) && Started(t.uploads[n])
    requires t.db.batches == s.db.batches && UploadCounts(t.db, t.uploads[n])
    ensures FileOk(t, file)
  {
    assert file in s.db.batches && s.db.batches[file].status.Processing?;
    forall m | m in t.uploads && t.uploads[m].file == file && m != n ensures !Started(t.uploads[m]) {
      assert s.uploads[m] == t.uploads[m];
    }
  }

  lemma Created(s: State, t: State, n: nat, file: File)
    requires FileOk(s, file) && n in s.uploads && s.uploads[n].stage.Creating? && s.uploads[n].file == file
    requires file !in s.db.batches && t == DoUpload(s, n)
    ensures FileOk(t, file)
  {
    assert FileRecords(t.db, file) == FileRecords(s.db, file) == {};
    forall status ensures FileStatus(t.db, file, status) == {} {
      assert FileStatus(t.db, file, status) <= FileRecords(t.db, file);
    }
  }

  lemma Finished(s: State, t: State, n: nat, file: File)
    requires FileOk(s, file) && n in s.uploads && s.uploads[n].stage.Finishing? && s.uploads[n].file == file
    requires t == DoUpload(s, n)
    ensures FileOk(t, file)
  {
    SameCounters(s.db, t.db, file);
    forall m | m in t.uploads && t.uploads[m].file == file ensures !Started(t.uploads[m]) {
      assert s.uploads[m] == t.uploads[m];
    }
  }

  lemma OwnFile(s: State, n: nat, file: File)
    requires FileOk(s, file) && n in s.uploads && s.uploads[n].file == file
    requires UploadOk(s.db, s.uploads[n]) && AtSomeRow(s.uploads[n])
    ensures FileOk(DoUpload(s, n), file)
  {
    var up := s.uploads[n];
    var t := DoUpload(s, n);
    match up.stage {
      case Searching =>
        SameCounters(s.db, t.db, file);
        Searched(s, t, n, file);
      case Creating =>
        if file in s.db.batches {
          SameCounters(s.db, t.db, file);
          FileKept(s, t, file);
        } else {
          Created(s, t, n, file);
        }
      case Finishing => Finished(s, t, n, file);
      case Recording(_, _) =>
        RecordingCounts(s.db, s.now, up);
        GoesOn(s, t, n, file);
      case _ =>
        StartedCounts(s.db, s.now, up);
        GoesOn(s, t, n, file);
    }
  }

  lemma Searched(s: State, t: State, n: nat, file: File)
    requires FileOk(s, file) && n in s.uploads && s.uploads[n].stage.Searching? && s.uploads[n].file == file
    requires t == DoUpload(s, n) && SameRecords(s.db, t.db, file)
    ensures FileOk(t, file)
  {
    forall m | m in t.uploads && m != n ensures m in s.uploads && t.uploads[m] == s.uploads[m] {}
  }

  lemma OthersRecord(cfg: Config, s: State, step: Step)
    requires !step.AdvanceUpload?
    ensures Apply(cfg, s, step).db.records == s.db.records
  {
    if step.Work? {
      if step.w in s.workers && Backoff.IsDraw(step.u) { WorkRecords(cfg, s, step.w, step.fault, step.u); }
    } else if step.Handle? {
      if step.h in s.handlers { HandleRecords(cfg, s, step.h, step.id); }
    } else {
      References.AsideRefers(cfg, s, step);
    }
  }

  lemma WorkRecords(cfg: Config, s: State, w: nat, fault: Fault, u: real)
    requires w in s.workers
    ensures DoWork(cfg, s, w, fault, u).db.records == s.db.records
  {
    if IsWorking(s, w) && !JobOf(s, w).stage.Release? {
      CommandRecords(cfg, s.now, u, JobOf(s, w).event, s.workers[w].i, s.db, s.cache, JobOf(s, w).stage);
    } else {
      Booking.AwayMoves(cfg, s, w, fault, u);
    }
  }

  lemma CommandRecords(cfg: Config, now: nat, u: real, e: nat, i: nat, db: Db, cache: Cache, stage: Stage)
    requires !stage.Release?
    ensures HandleCommand(cfg, now, u, e, i, db, cache, stage).db.records == db.records
  {}

  lemma HandleRecords(cfg: Config, s: State, h: nat, id: nat)
    requires h in s.handlers
    ensures DoHandle(cfg, s, h, id).db.records == s.db.records
  {
    match s.handlers[h] {
      case Upserting(p, order) => assert UpsertPending(s.db, id, p, order).records == s.db.records;
      case _ => assert DoHandle(cfg, s, h, id).db == s.db;
    }
  }

  lemma OthersCount(cfg: Config, s: State, step: Step, file: File)
    requires FileOk(s, file) && !step.AdvanceUpload?
    ensures FileOk(Apply(cfg, s, step), file)
  {
    OthersRecord(cfg, s, step);
    OthersUpload(cfg, s, step);
    SameCounters(s.db, Apply(cfg, s, step).db, file);
    FileKept(s, Apply(cfg, s, step), file);
  }

  lemma AdvanceCounts(s: State, n: nat, file: File)
    requires FileOk(s, file) && n in s.uploads && UploadOk(s.db, s.uploads[n]) && AtSomeRow(s.uploads[n])
    ensures FileOk(DoUpload(s, n), file)
  {
    if s.uploads[n].file == file {
      OwnFile(s, n, file);
    } else {
      OtherBatch(s.db, s.now, s.uploads[n], file);
      OtherRecords(s.db, s.now, s.uploads[n], file);
      FileKept(s, DoUpload(s, n), file);
    }
  }

  lemma StepCounts(cfg: Config, s: State, step: Step, file: File)
    requires Inv(cfg, s) && RowsAhead(s) && FileOk(s, file)
    ensures FileOk(Apply(cfg, s, step), file)
  {
    if !step.AdvanceUpload? {
      OthersCount(cfg, s, step, file);
    } else if step.n in s.uploads {
      AdvanceCounts(s, step.n, file);
      assert Apply(cfg, s, step) == DoUpload(s, step.n);
    }
  }

  lemma {:induction false} FileAlways(cfg: Config, steps: seq<Step>, file: File)
    ensures FileOk(Exec(cfg, steps), file)
  {
    if steps != [] {
      var before := steps[..|steps| - 1];
      FileAlways(cfg, before, file);
      Integrity.Always(cfg, before);
      RowsAheadAlways(cfg, before);
      StepCounts(cfg, Exec(cfg, before), steps[|steps| - 1], file);
    }
  }

  /** In every run, whatever else is uploaded, booked or stopped meanwhile: a completed batch
      has one record for each row of its file, and its counters are the numbers of its records
      with each verdict. */
  lemma {:induction false} CompletedBatchCounts(cfg: Config, steps: seq<Step>, file: File)
    requires var db := Exec(cfg, steps).db; file in db.batches && db.batches[file].status.Completed?
    ensures var db := Exec(cfg, steps).db; var b := db.batches[file];
            && b.total == |Rows(file)|
            && b.total == |set k | 0 <= k < |db.records| && db.records[k].file == file|
            && b.matched
               == |set k | 0 <= k < |db.records| && db.records[k].file == file && db.records[k].status.Matched?|
            && b.mismatched
               == |set k | 0 <= k < |db.records| && db.records[k].file == file && db.records[k].status.AmountMismatch?|
            && b.unmatched
               == |set k | 0 <= k < |db.records| && db.records[k].file == file && db.records[k].status.Unmatched?|
  {
    FileAlways(cfg, steps, file);
    var db := Exec(cfg, steps).db;
    assert FileStatus(db, file, MatchStatus.Matched)
           == set k | 0 <= k < |db.records| && db.records[k].file == file && db.records[k].status.Matched?;
    assert FileStatus(db, file, MatchStatus.AmountMismatch)
           == set k | 0 <= k < |db.records| && db.records[k].file == file && db.records[k].status.AmountMismatch?;
    assert FileStatus(db, file, Unmatched)
           == set k | 0 <= k < |db.records| && db.records[k].file == file && db.records[k].status.Unmatched?;
  }
}
