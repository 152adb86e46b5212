/** Settlement uploads: the matching loop against a description of what a file settles. */
module Settlement {
  import opened Domain
  import opened Tables
  import opened Pipeline
  import opened Integrity
  import opened Stores

  // ---------- one upload, run alone ----------

  /** The event with the row's gateway id. */
  function Named(db: Db, row: Row): Option<nat> {
    if row.gatewayId in db.byGateway then Some(db.byGateway[row.gatewayId]) else None
  }

  /** The row confirms the money of event `e`. */
  predicate Confirms(db: Db, row: Row, e: nat) {
    && row.gatewayId in db.byGateway && db.byGateway[row.gatewayId] == e && e in db.events
    && row.amount == db.events[e].amount && row.currency == db.events[e].currency
  }

  function RowStatus(db: Db, row: Row): MatchStatus {
    if row.gatewayId !in db.byGateway || db.byGateway[row.gatewayId] !in db.events then Unmatched
    else if Confirms(db, row, db.byGateway[row.gatewayId]) then MatchStatus.Matched
    else MatchStatus.AmountMismatch
  }

  function RowStep(db: Db, now: nat, file: File, row: Row): Db {
    var e := Named(db, row);
    var db' := InsertRecord(db, Record(file, row, RowStatus(db, row), e));
    if RowStatus(db, row).Matched? && e.Some? then SettleForEvent(db', e.value, |db.records|, now) else db'
  }

  function AfterRows(db: Db, now: nat, file: File, rows: seq<Row>): Db {
    if rows == [] then db
    else RowStep(AfterRows(db, now, file, rows[..|rows| - 1]), now, file, rows[|rows| - 1])
  }

  function CountStatus(db: Db, rows: seq<Row>, status: MatchStatus): nat {
    if rows == [] then 0
    else
      CountStatus(db, rows[..|rows| - 1], status)
      + if RowStatus(db, rows[|rows| - 1]) == status then 1 else 0
  }

  function FinalBatch(db: Db, rows: seq<Row>): Batch {
    Batch(Completed, |rows|, CountStatus(db, rows, MatchStatus.Matched),
          CountStatus(db, rows, MatchStatus.AmountMismatch), CountStatus(db, rows, Unmatched))
  }

  /** The whole upload, when nothing else happens in between. */
  function Uploaded(db: Db, now: nat, file: File): Db {
    if file in db.batches || file.parsed.None? then db
    else
      var opened' := PutBatch(db, file, Batch(Processing, 0, 0, 0, 0));
      PutBatch(AfterRows(opened', now, file, file.parsed.value), file, FinalBatch(db, file.parsed.value))
  }

  datatype UploadResult = Existing(batch: Batch) | Invalid | Processed(batch: Batch)

  /** The upload's loop, counters and all. */
  method ProcessUpload(client: Client, now: nat, file: File) returns (r: UploadResult)
    modifies client`db
    ensures client.db == Uploaded(old(client.db), now, file)
    ensures r == if file in old(client.db.batches) then Existing(old(client.db.batches[file]))
                 else if file.parsed.None? then Invalid
                 else Processed(FinalBatch(old(client.db), file.parsed.value))
  {
    if file in client.db.batches {
      return Existing(client.db.batches[file]);
    }
    if file.parsed.None? {
      return Invalid;
    }
    var rows := file.parsed.value;
    client.db := PutBatch(client.db, file, Batch(Processing, 0, 0, 0, 0));
    ghost var db0 := client.db;
    var matched, mismatched, unmatched := 0, 0, 0;
    for k := 0 to |rows|
      invariant client.db == AfterRows(db0, now, file, rows[..k])
      invariant client.db.events == db0.events && client.db.byGateway == db0.byGateway
      invariant matched == CountStatus(db0, rows[..k], MatchStatus.Matched)
      invariant mismatched == CountStatus(db0, rows[..k], MatchStatus.AmountMismatch)
      invariant unmatched == CountStatus(db0, rows[..k], Unmatched)
    {
      assert rows[..k + 1][..k] == rows[..k];
      var row := rows[k];
      var event := FindByGateway(client.db, row.gatewayId);
      var status := MatchRecord(row, RowOf(client.db, event));
      var record := |client.db.records|;
      client.db := InsertRecord(client.db, Record(file, row, status, event));
      if status == MatchStatus.Matched && event.Some? {
        client.db := SettleForEvent(client.db, event.value, record, now);
        matched := matched + 1;
      } else if status == MatchStatus.AmountMismatch {
        mismatched := mismatched + 1;
      } else {
        unmatched := unmatched + 1;
      }
    }
    assert rows[..|rows|] == rows;
    CountsIgnoreBatches(old(client.db), db0, rows);
    var batch := Batch(Completed, |rows|, matched, mismatched, unmatched);
    client.db := PutBatch(client.db, file, batch);
    return Processed(batch);
  }

  lemma {:induction false} CountsIgnoreBatches(a: Db, b: Db, rows: seq<Row>)
    requires b.events == a.events && b.byGateway == a.byGateway
    ensures forall status :: CountStatus(b, rows, status) == CountStatus(a, rows, status)
  {
    if rows != [] { CountsIgnoreBatches(a, b, rows[..|rows| - 1]); }
  }

  // ---------- the upload is a run of its commands ----------

  /** An upload's commands one after another until the request is over. */
  function Driven(db: Db, now: nat, up: Upload, fuel: nat): (Db, Option<Upload>)
    decreases fuel
  {
    if fuel == 0 then (db, Some(up))
    else
      var (db', up') := UploadCommand(db, now, up);
      if up'.None? then (db', None) else Driven(db', now, up'.value, fuel - 1)
  }

  function Counted(up: Upload, status: MatchStatus): Upload {
    match status
    case Matched => up.(next := up.next + 1, matched := up.matched + 1)
    case AmountMismatch => up.(next := up.next + 1, mismatched := up.mismatched + 1)
    case Unmatched => up.(next := up.next + 1, unmatched := up.unmatched + 1)
  }

  /** The two or three commands of one row. */
  lemma DrivenRow(db: Db, now: nat, up: Upload, fuel: nat)
    requires up.stage.Looking? && up.next < |Rows(up.file)| && 3 <= fuel
    ensures var row := Rows(up.file)[up.next]; var status := RowStatus(db, row);
            Driven(db, now, up, fuel)
            == Driven(RowStep(db, now, up.file, row), now, AtRow(Counted(up, status)),
                      if status.Matched? then fuel - 3 else fuel - 2)
  {
    var row := Rows(up.file)[up.next];
    var e := FindByGateway(db, row.gatewayId);
    var status := RowStatus(db, row);
    var recording := up.(stage := Recording(e, status));
    assert UploadCommand(db, now, up) == (db, Some(recording));
    var mid := InsertRecord(db, Record(up.file, row, status, e));
    if status.Matched? {
      var settling := up.(stage := Settling(e.value, |db.records|));
      assert UploadCommand(db, now, recording) == (mid, Some(settling));
      assert Driven(db, now, recording, fuel - 1) == Driven(mid, now, settling, fuel - 2);
    }
  }

  /** The upload when it comes to row `k`. */
  function UploadAt(db: Db, file: File, k: nat): Upload
    requires k <= |Rows(file)|
  {
    var seen := Rows(file)[..k];
    AtRow(Upload(file, k, CountStatus(db, seen, MatchStatus.Matched), CountStatus(db, seen, MatchStatus.AmountMismatch),
                 CountStatus(db, seen, Unmatched), Looking))
  }

  lemma {:induction false} NextRow(db: Db, now: nat, file: File, k: nat, fuel: nat)
    requires k < |Rows(file)| && 3 <= fuel
    ensures var rows := Rows(file); var left := if RowStatus(db, rows[k]).Matched? then fuel - 3 else fuel - 2;
            Driven(AfterRows(db, now, file, rows[..k]), now, UploadAt(db, file, k), fuel)
            == Driven(AfterRows(db, now, file, rows[..k + 1]), now, UploadAt(db, file, k + 1), left)
  {
    var rows := Rows(file);
    AfterRowsKeeps(db, now, file, rows[..k]);
    assert rows[..k + 1][..k] == rows[..k];
    var at := AfterRows(db, now, file, rows[..k]);
    assert RowStatus(at, rows[k]) == RowStatus(db, rows[k]);
    DrivenRow(at, now, UploadAt(db, file, k), fuel);
  }

  lemma {:induction false} DrivenRows(db: Db, now: nat, file: File, k: nat, fuel: nat)
    requires file.parsed.Some? && k <= |Rows(file)| && fuel >= 3 * (|Rows(file)| - k) + 1
    ensures Driven(AfterRows(db, now, file, Rows(file)[..k]), now, UploadAt(db, file, k), fuel)
            == (PutBatch(AfterRows(db, now, file, Rows(file)), file, FinalBatch(db, Rows(file))), None)
    decreases |Rows(file)| - k
  {
    var rows := Rows(file);
    if k == |rows| {
      assert rows[..k] == rows;
    } else {
      NextRow(db, now, file, k, fuel);
      DrivenRows(db, now, file, k + 1, if RowStatus(db, rows[k]).Matched? then fuel - 3 else fuel - 2);
    }
  }

  lemma {:induction false} AfterRowsKeeps(db: Db, now: nat, file: File, rows: seq<Row>)
    ensures var t := AfterRows(db, now, file, rows);
            && t.events == db.events && t.byGateway == db.byGateway && t.orders == db.orders
            && t.deadLetters == db.deadLetters && t.mismatches == db.mismatches && t.batches == db.batches
            && t.flips == db.flips && t.upserts == db.upserts
            && |t.ledger| == |db.ledger| && |t.records| == |db.records| + |rows|
  {
    if rows != [] { AfterRowsKeeps(db, now, file, rows[..|rows| - 1]); }
  }

  /** The loop is what the interleaved upload does when it is left alone. */
  lemma UploadIsItsCommands(db: Db, now: nat, file: File)
    ensures Driven(db, now, Upload(file, 0, 0, 0, 0, Searching), 3 * |Rows(file)| + 3) == (Uploaded(db, now, file),
        None)
  {
    if file !in db.batches && file.parsed.Some? {
      var n := 3 * |Rows(file)|;
      var opened' := PutBatch(db, file, Batch(Processing, 0, 0, 0, 0));
      var up := Upload(file, 0, 0, 0, 0, Looking);
      assert Driven(db, now, Upload(file, 0, 0, 0, 0, Searching), n + 3)
             == Driven(db, now, Upload(file, 0, 0, 0, 0, Creating), n + 2);
      assert Driven(db, now, Upload(file, 0, 0, 0, 0, Creating), n + 2) == Driven(opened', now, AtRow(up), n + 1);
      assert Rows(file)[..0] == [];
      DrivenRows(opened', now, file, 0, n + 1);
      CountsIgnoreBatches(db, opened', Rows(file));
    }
  }

  // ---------- what a file settles ----------

  /** The first row that confirms the event, if any. */
  function FirstConfirming(db: Db, rows: seq<Row>, e: nat): Option<nat> {
    if rows == [] then None
    else
      var before := FirstConfirming(db, rows[..|rows| - 1], e);
      if before.Some? then before
      else if Confirms(db, rows[|rows| - 1], e) then Some(|rows| - 1) else None
  }

  lemma {:induction false} FirstConfirmingIsFirst(db: Db, rows: seq<Row>, e: nat)
    ensures match FirstConfirming(db, rows, e)
            case Some(k) => k < |rows| && Confirms(db, rows[k], e) && forall j | 0 <= j < k :: !Confirms(db, rows[j], e)
            case None => forall j | 0 <= j < |rows| :: !Confirms(db, rows[j], e)
  {
    if rows != [] { FirstConfirmingIsFirst(db, rows[..|rows| - 1], e); }
  }

  /** What the file makes of one entry. */
  function SettledBy(db: Db, now: nat, rows: seq<Row>, x: Entry): Entry {
    var k := FirstConfirming(db, rows, x.event);
    if x.settlement.PendingSettlement? && k.Some? then x.(settlement := Settled(|db.records| + k.value, now)) else x
  }

  /** The records of the rows follow those that were there. */
  ghost predicate Recorded(db: Db, t: Db, file: File, rows: seq<Row>) {
    && |t.records| == |db.records| + |rows|
    && (forall i | 0 <= i < |db.records| :: t.records[i] == db.records[i])
    && (forall k | 0 <= k < |rows| ::
          t.records[|db.records| + k]
          == Record(file, rows[k], RowStatus(db, rows[k]), Named(db, rows[k])))
  }

  lemma RecordedMore(db: Db, mid: Db, t: Db, file: File, rows: seq<Row>)
    requires rows != [] && Recorded(db, mid, file, rows[..|rows| - 1])
    requires var row := rows[|rows| - 1];
             t.records == mid.records + [Record(file, row, RowStatus(db, row), Named(db, row))]
    ensures Recorded(db, t, file, rows)
  {}

  lemma {:induction false} RowsRecord(db: Db, now: nat, file: File, rows: seq<Row>)
    ensures Recorded(db, AfterRows(db, now, file, rows), file, rows)
  {
    if rows != [] {
      var n := |rows| - 1;
      RowsRecord(db, now, file, rows[..n]);
      AfterRowsKeeps(db, now, file, rows[..n]);
      var mid := AfterRows(db, now, file, rows[..n]);
      assert RowStatus(mid, rows[n]) == RowStatus(db, rows[n]);
      assert AfterRows(db, now, file, rows).records
             == mid.records + [Record(file, rows[n], RowStatus(db, rows[n]), Named(db, rows[n]))];
      RecordedMore(db, mid, AfterRows(db, now, file, rows), file, rows);
    }
  }

  lemma {:induction false} RowsSettle(db: Db, now: nat, file: File, rows: seq<Row>)
    ensures var t := AfterRows(db, now, file, rows);
            && |t.ledger| == |db.ledger|
            && forall i | 0 <= i < |db.ledger| :: t.ledger[i] == SettledBy(db, now, rows, db.ledger[i])
  {
    AfterRowsKeeps(db, now, file, rows);
    if rows != [] {
      var n := |rows| - 1;
      RowsSettle(db, now, file, rows[..n]);
      RowsRecord(db, now, file, rows[..n]);
      AfterRowsKeeps(db, now, file, rows[..n]);
      RowSettles(db, AfterRows(db, now, file, rows[..n]), now, file, rows);
    }
  }

  lemma RowSettles(db: Db, mid: Db, now: nat, file: File, rows: seq<Row>)
    requires rows != [] && mid.events == db.events && mid.byGateway == db.byGateway && |mid.ledger| == |db.ledger|
    requires |mid.records| == |db.records| + |rows| - 1
    requires forall i | 0 <= i < |db.ledger| :: mid.ledger[i] == SettledBy(db, now, rows[..|rows| - 1], db.ledger[i])
    ensures var t := RowStep(mid, now, file, rows[|rows| - 1]);
            |t.ledger| == |db.ledger|
            && forall i | 0 <= i < |db.ledger| :: t.ledger[i] == SettledBy(db, now, rows, db.ledger[i])
  {
    var row := rows[|rows| - 1];
    var t := RowStep(mid, now, file, row);
    assert RowStatus(mid, row) == RowStatus(db, row) && |t.ledger| == |db.ledger|;
    forall i | 0 <= i < |db.ledger| ensures t.ledger[i] == SettledBy(db, now, rows, db.ledger[i]) {
      assert mid.ledger[i] == SettledBy(db, now, rows[..|rows| - 1], db.ledger[i]);
      assert FirstConfirming(db, rows, db.ledger[i].event)
             == if FirstConfirming(db, rows[..|rows| - 1], db.ledger[i].event).Some?
                then FirstConfirming(db, rows[..|rows| - 1], db.ledger[i].event)
                else if Confirms(db, row, db.ledger[i].event) then Some(|rows| - 1) else None;
    }
  }

  /** A completed upload settles exactly the pending entries of the events that some row
      matches on id, amount and currency, each linked to the record of the first such row;
      it records one verdict per row; and it touches nothing else but its batch. */
  lemma UploadSettlesExactly(db: Db, now: nat, file: File)
    requires file !in db.batches && file.parsed.Some?
    ensures var t := Uploaded(db, now, file); var rows := file.parsed.value;
            && t == db.(ledger := t.ledger, records := t.records, batches := db.batches[file := FinalBatch(db, rows)])
            && |t.ledger| == |db.ledger|
            && (forall i | 0 <= i < |db.ledger| :: t.ledger[i] == SettledBy(db, now, rows, db.ledger[i]))
            && Recorded(db, t, file, rows)
  {
    var rows := file.parsed.value;
    var opened' := PutBatch(db, file, Batch(Processing, 0, 0, 0, 0));
    RowsSettle(opened', now, file, rows);
    RowsRecord(opened', now, file, rows);
    AfterRowsKeeps(opened', now, file, rows);
    var t := Uploaded(db, now, file);
    assert t.batches == db.batches[file := FinalBatch(db, rows)];
    SameSettled(db, opened', now, rows);
    SameRecorded(db, opened', t, file, rows);
  }

  lemma SameSettled(a: Db, b: Db, now: nat, rows: seq<Row>)
    requires b.events == a.events && b.byGateway == a.byGateway && b.ledger == a.ledger && b.records == a.records
    ensures forall i | 0 <= i < |a.ledger| ::
              SettledBy(b, now, rows, b.ledger[i]) == SettledBy(a, now, rows, a.ledger[i])
  {
    forall i | 0 <= i < |a.ledger|
      ensures SettledBy(b, now, rows, b.ledger[i]) == SettledBy(a, now, rows, a.ledger[i])
    {
      SameFirst(a, b, rows, a.ledger[i].event);
    }
  }

  lemma SameRecorded(a: Db, b: Db, t: Db, file: File, rows: seq<Row>)
    requires b.events == a.events && b.byGateway == a.byGateway && b.records == a.records && Recorded(b, t, file, rows)
    ensures Recorded(a, t, file, rows)
  {
    forall k | 0 <= k < |rows|
      ensures RowStatus(b, rows[k]) == RowStatus(a, rows[k])
      ensures Named(b, rows[k]) == Named(a, rows[k])
    {}
  }

  lemma {:induction false} SameFirst(a: Db, b: Db, rows: seq<Row>, e: nat)
    requires b.events == a.events && b.byGateway == a.byGateway
    ensures FirstConfirming(b, rows, e) == FirstConfirming(a, rows, e)
  {
    if rows != [] { SameFirst(a, b, rows[..|rows| - 1], e); }
  }

  // ---------- the counts ----------

  lemma {:induction false} CountsAddUp(db: Db, rows: seq<Row>)
    ensures CountStatus(db, rows, MatchStatus.Matched) + CountStatus(db, rows, MatchStatus.AmountMismatch)
            + CountStatus(db, rows, Unmatched) == |rows|
  {
    if rows != [] { CountsAddUp(db, rows[..|rows| - 1]); }
  }

  /** The records from index `lo` on with a status. */
  function WithStatus(records: seq<Record>, lo: nat, status: MatchStatus): set<nat> {
    set k | lo <= k < |records| && records[k].status == status
  }

  lemma {:induction false} CountedRecords(db: Db, records: seq<Record>, lo: nat, rows: seq<Row>, status: MatchStatus)
    requires |records| == lo + |rows|
    requires forall k | 0 <= k < |rows| :: records[lo + k].status == RowStatus(db, rows[k])
    ensures |WithStatus(records, lo, status)| == CountStatus(db, rows, status)
  {
    if rows == [] {
      assert WithStatus(records, lo, status) == {};
    } else {
      var n := |rows| - 1;
      CountedRecords(db, records[..lo + n], lo, rows[..n], status);
      assert WithStatus(records, lo, status)
             == WithStatus(records[..lo + n], lo, status) + if records[lo + n].status == status then {lo + n} else {};
    }
  }

  /** A completed upload's counters are the numbers of its records with each verdict. */
  lemma BatchCountsRecords(db: Db, now: nat, file: File)
    requires file !in db.batches && file.parsed.Some?
    ensures var t := Uploaded(db, now, file); var lo := |db.records|;
            && file in t.batches && t.batches[file].status.Completed?
            && t.batches[file].total == |t.records| - lo
            && t.batches[file].matched == |set k | lo <= k < |t.records| && t.records[k].status.Matched?|
            && t.batches[file].mismatched == |set k | lo <= k < |t.records| && t.records[k].status.AmountMismatch?|
            && t.batches[file].unmatched == |set k | lo <= k < |t.records| && t.records[k].status.Unmatched?|
  {
    UploadSettlesExactly(db, now, file);
    var t := Uploaded(db, now, file);
    var lo := |db.records|;
    CountedRecords(db, t.records, lo, file.parsed.value, MatchStatus.Matched);
    CountedRecords(db, t.records, lo, file.parsed.value, MatchStatus.AmountMismatch);
    CountedRecords(db, t.records, lo, file.parsed.value, Unmatched);
    assert WithStatus(t.records, lo, MatchStatus.Matched)
           == set k | lo <= k < |t.records| && t.records[k].status.Matched?;
    assert WithStatus(t.records, lo, MatchStatus.AmountMismatch)
           == set k | lo <= k < |t.records| && t.records[k].status.AmountMismatch?;
    assert WithStatus(t.records, lo, Unmatched) == set k | lo <= k < |t.records| && t.records[k].status.Unmatched?;
  }

  lemma LastKept(rows: seq<Row>, i: nat)
    requires i < |rows| - 1
    ensures var n := |rows| - 1; rows[..i] + rows[i + 1..] == (rows[..n][..i] + rows[..n][i + 1..]) + [rows[n]]
  {}

  lemma CountOneMore(db: Db, rows: seq<Row>, row: Row, status: MatchStatus)
    ensures CountStatus(db, rows + [row], status) == CountStatus(db, rows, status) + if RowStatus(db,
        row) == status then 1 else 0
  {
    assert (rows + [row])[..|rows|] == rows;
  }

  lemma {:induction false} CountWithout(db: Db, rows: seq<Row>, i: nat, status: MatchStatus)
    requires i < |rows|
    ensures CountStatus(db, rows, status)
            == CountStatus(db, rows[..i] + rows[i + 1..], status) + if RowStatus(db, rows[i]) == status then 1 else 0
  {
    var n := |rows| - 1;
    if i == n {
      assert rows[..i] + rows[i + 1..] == rows[..n];
    } else {
      CountWithout(db, rows[..n], i, status);
      LastKept(rows, i);
      CountOneMore(db, rows[..n][..i] + rows[..n][i + 1..], rows[n], status);
    }
  }

  lemma OneTakenOut(rows: seq<Row>, i: nat)
    requires i < |rows|
    ensures multiset(rows[..i] + rows[i + 1..]) == multiset(rows) - multiset{rows[i]}
  {
    assert rows == rows[..i] + [rows[i]] + rows[i + 1..];
  }

  lemma FoundIn(b: seq<Row>, x: Row) returns (i: nat)
    requires x in multiset(b)
    ensures i < |b| && b[i] == x && multiset(b[..i] + b[i + 1..]) == multiset(b) - multiset{x}
  {
    i :| 0 <= i < |b| && b[i] == x;
    OneTakenOut(b, i);
  }

  lemma {:induction false} CountsIgnoreOrder(db: Db, a: seq<Row>, b: seq<Row>, status: MatchStatus)
    requires multiset(a) == multiset(b)
    ensures CountStatus(db, a, status) == CountStatus(db, b, status)
    decreases |a|
  {
    if a == [] {
      assert |multiset(b)| == 0;
    } else {
      var n := |a| - 1;
      assert a[n] in multiset(a);
      var i := FoundIn(b, a[n]);
      OneTakenOut(a, n);
      assert a[..n] + a[n + 1..] == a[..n];
      CountsIgnoreOrder(db, a[..n], b[..i] + b[i + 1..], status);
      CountWithout(db, b, i, status);
    }
  }

  /** Rows in another order give the same counts, and settle the same entries, though
      possibly through another record. */
  lemma UploadIgnoresRowOrder(db: Db, now: nat, f: File, g: File)
    requires f !in db.batches && g !in db.batches && f.parsed.Some? && g.parsed.Some?
    requires multiset(f.parsed.value) == multiset(g.parsed.value)
    ensures var s, t := Uploaded(db, now, f), Uploaded(db, now, g);
            && s.batches[f] == t.batches[g]
            && s.batches[f].matched + s.batches[f].mismatched + s.batches[f].unmatched == s.batches[f].total
            && |s.ledger| == |t.ledger|
            && (forall i | 0 <= i < |s.ledger| :: s.ledger[i].settlement.Settled? <==> t.ledger[i].settlement.Settled?)
  {
    var a, b := f.parsed.value, g.parsed.value;
    UploadSettlesExactly(db, now, f);
    UploadSettlesExactly(db, now, g);
    assert |multiset(a)| == |a| && |multiset(b)| == |b|;
    forall status: MatchStatus ensures CountStatus(db, a, status) == CountStatus(db, b, status) {
      CountsIgnoreOrder(db, a, b, status);
    }
    CountsAddUp(db, a);
    forall e: nat ensures FirstConfirming(db, a, e).Some? <==> FirstConfirming(db, b, e).Some? {
      SomeConfirms(db, a, b, e);
      SomeConfirms(db, b, a, e);
    }
  }

  lemma SomeConfirms(db: Db, a: seq<Row>, b: seq<Row>, e: nat)
    requires multiset(a) == multiset(b)
    ensures FirstConfirming(db, a, e).Some? ==> FirstConfirming(db, b, e).Some?
  {
    FirstConfirmingIsFirst(db, a, e);
    FirstConfirmingIsFirst(db, b, e);
    if FirstConfirming(db, a, e).Some? {
      var k := FirstConfirming(db, a, e).value;
      assert a[k] in multiset(b);
    }
  }

  // ---------- histories of uploads ----------

  datatype Action = WholeUpload(file: File) | Other(step: Step)

  /** A history of whole uploads among steps of everything else. */
  function Play(cfg: Config, history: seq<Action>): State {
    if history == [] then INIT
    else
      var s := Play(cfg, history[..|history| - 1]);
      match history[|history| - 1]
      case WholeUpload(file) => s.(db := Uploaded(s.db, s.now, file))
      case Other(step) =>
        if step.StartUpload? || step.AdvanceUpload? || step.DropUpload? then s else Apply(cfg, s, step)
  }

  /** Only the first upload of each file that parses. */
  function FirstUploads(history: seq<Action>): seq<Action> {
    if history == [] then []
    else
      var before := history[..|history| - 1];
      var a := history[|history| - 1];
      FirstUploads(before) + if a.WholeUpload? && (a in before || a.file.parsed.None?) then [] else [a]
  }

  lemma OthersKeepBatches(cfg: Config, s: State, step: Step)
    requires !step.AdvanceUpload?
    ensures Apply(cfg, s, step).db.batches == s.db.batches
  {
    if step.Work? && step.w in s.workers && s.workers[step.w].Working? && !s.workers[step.w].job.stage.Release? {
      var job := s.workers[step.w].job;
      CommandKeepsBatches(cfg, s.now, step.u, job.event, s.workers[step.w].i, s.db, s.cache, job.stage);
    }
    if step.Handle? && step.h in s.handlers && s.handlers[step.h].Upserting? {
      var h := s.handlers[step.h];
      assert UpsertPending(s.db, step.id, h.payload, h.order).batches == s.db.batches;
    }
  }

  lemma CommandKeepsBatches(cfg: Config, now: nat, u: real, e: nat, i: nat, db: Db, cache: Cache, stage: Stage)
    requires !stage.Release?
    ensures HandleCommand(cfg, now, u, e, i, db, cache, stage).db.batches == db.batches
  {}

  lemma {:induction false} UploadedStays(cfg: Config, history: seq<Action>, file: File)
    requires WholeUpload(file) in history && file.parsed.Some?
    ensures file in Play(cfg, history).db.batches
  {
    var n := |history| - 1;
    var s := Play(cfg, history[..n]);
    if WholeUpload(file) in history[..n] {
      UploadedStays(cfg, history[..n], file);
    }
    match history[n] {
      case WholeUpload(f) =>
        if f !in s.db.batches && f.parsed.Some? {
          UploadSettlesExactly(s.db, s.now, f);
        }
      case Other(step) => if !step.AdvanceUpload? { OthersKeepBatches(cfg, s, step); }
    }
  }

  /** Uploading a file again, or one that does not parse, leaves no trace: the final state is
      that of the history without those uploads. */
  lemma {:induction false} OnlyFirstUploadsCount(cfg: Config, history: seq<Action>)
    ensures Play(cfg, FirstUploads(history)) == Play(cfg, history)
  {
    if history != [] {
      var n := |history| - 1;
      var before, a := history[..n], history[n];
      OnlyFirstUploadsCount(cfg, before);
      if a.WholeUpload? && (a in before || a.file.parsed.None?) {
        if a.file.parsed.Some? {
          UploadedStays(cfg, before, a.file);
        }
        assert FirstUploads(history) == FirstUploads(before);
      } else {
        var kept := FirstUploads(before) + [a];
        assert kept[..|kept| - 1] == FirstUploads(before);
      }
    }
  }

  // ---------- every run ----------

  /** In every run, over all interleavings of bookings and uploads: a settled entry names a
      matched record of its own event with its amount and currency, and the other half of its
      pair is settled by the same record at the same time. */
  lemma {:induction false} SettlementIsSound(cfg: Config, steps: seq<Step>, i: nat)
    requires i < |Exec(cfg, steps).db.ledger|
    ensures var db := Exec(cfg, steps).db; var j := if i % 2 == 0 then i + 1 else i - 1;
            && j < |db.ledger|
            && db.ledger[j].settlement == db.ledger[i].settlement
            && SettledOk(db, db.ledger[i])
  {
    Always(cfg, steps);
    HalvesAgree(Exec(cfg, steps).db, i);
  }

  lemma HalvesAgree(db: Db, i: nat)
    requires LedgerOk(db) && i < |db.ledger|
    ensures var j := if i % 2 == 0 then i + 1 else i - 1;
            j < |db.ledger| && db.ledger[j].settlement == db.ledger[i].settlement && SettledOk(db, db.ledger[i])
  {
    var k := if i % 2 == 0 then i else i - 1;
    assert PairOk(db, db.ledger[k], db.ledger[k + 1]);
  }

  /** Once settled, an entry never changes again. */
  lemma {:induction false} SettledForGood(cfg: Config, steps: seq<Step>, k: nat, i: nat)
    requires k <= |steps| && i < |At(cfg, steps, k).db.ledger| && At(cfg, steps, k).db.ledger[i].settlement.Settled?
    ensures i < |Exec(cfg, steps).db.ledger| && Exec(cfg, steps).db.ledger[i] == At(cfg, steps, k).db.ledger[i]
  {
    FactsStand(cfg, steps, k);
  }
}
