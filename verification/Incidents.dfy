/** Concrete runs in which one thing goes wrong.  A request fails after it has won its key, a
    worker crashes with a message in hand or between its status write and its booking, two
    workers handle two payments of one order at once, an upload stops midway, and a file is
    processed before the pair that it confirms is booked. */
module Incidents {
  import opened Domain
  import opened Tables
  import opened Pipeline
  import opened Carriers
  import opened Losses
  import opened Races
  import opened Leases
  import Acknowledgement
  import Booking
  import Intake
  import Integrity
  import Overlap
  import Spacing
  import Unsettled

  /** One more step, of any kind. */
  lemma Next(cfg: Config, steps: seq<Step>, s: State, step: Step, t: State) returns (more: seq<Step>)
    requires Exec(cfg, steps) == s && Apply(cfg, s, step) == t
    ensures Exec(cfg, more) == t && more == steps + [step]
    ensures OneWorkerRun(cfg, steps) && OneWorker(t) ==> OneWorkerRun(cfg, more)
  {
    more := steps + [step];
    assert Earlier(more) == steps;
  }

  /** One more command of a worker, without fault. */
  lemma Worked(cfg: Config, steps: seq<Step>, s: State, w: nat, i: nat, end: nat, job: Job, reply: Reply,
               workers: map<nat, Worker>) returns (more: seq<Step>)
    requires FaultFreeRun(cfg, steps) && Exec(cfg, steps) == s && w in s.workers && s.workers[w] == Working(i, end, job)
    requires !job.stage.Release? && !reply.stage.AckReturned?
    requires reply == HandleCommand(cfg, s.now, 0.0, job.event, i, s.db, s.cache, job.stage)
    requires workers == s.workers[w := Working(i, end, job.(stage := reply.stage))]
    ensures FaultFreeRun(cfg, more) && Exec(cfg, more) == s.(db := reply.db, cache := reply.cache, workers := workers)
    ensures OneWorkerRun(cfg, steps) ==> OneWorkerRun(cfg, more)
  {
    more := Do(cfg, steps, s, Work(w, NoFault, 0.0), s.(db := reply.db, cache := reply.cache, workers := workers));
  }

  // ---------- a request that fails before it publishes ----------

  /** A webhook wins its key and fails: its event is not published, and the key still set. */
  lemma {:induction false} RequestStranded()
    ensures exists steps :: Spacing.Stranded(Exec(CFG, steps), P.gatewayId, CFG.idempotencyTtl)
  {
    var keyed := Queued1(CFG).(log := []);
    assert WinsOf(EMPTY_CACHE, 70) + [0] == [0];
    assert SetKey(EMPTY_CACHE, 70, 0, CFG.idempotencyTtl) == keyed;
    var steps := Keyed(CFG, [], INIT, P, keyed);
    OneHandler(Resolving(P), Resolving(P));
    var t := INIT.(cache := keyed, handlers := map[]);
    steps := Next(CFG, steps, t.(handlers := map[0 := Resolving(P)]), DropHandler(0), t);
    assert !Intake.SomePast(t, 70) && !Intake.Published(t, 70);
  }

  // ---------- a worker that crashes with a message in hand ----------

  /** The message is never acknowledged, and its event has neither outcome nor carrier. */
  lemma {:induction false} MessageAbandoned()
    ensures exists steps ::
              var s := Exec(CFG, steps);
              && s.cache.log == [7] && Acknowledgement.Forsaken(CFG, s, 0)
              && !HasOutcome(s, 7) && !Carried(s, 7)
  {
    var steps := Locked(CFG);
    var s := INIT.(db := DB, workers := Two(Hand(0, 1, 0, 30000, FindEvent), Reading), cache := Locked1(CFG));
    var t := s.(workers := map[2 := Reading]);
    assert s.workers - {1} == t.workers;
    steps := Next(CFG, steps, s, Crash(1), t);
    assert !Carried(t, 7);
  }

  // ---------- a worker that crashes between status write and booking ----------

  const ORDER := Order(500, "USD", Created, 0)
  const ORDERED := EMPTY_DB.(orders := map[1 := ORDER])
  const ROW1 := ROW.(orderId := Some(1))
  const DB1 := ORDERED.(events := map[7 := ROW1], byGateway := map[70 := 7], upserts := [P])
  const FOUND := Found(1, ORDER)
  const WRITING := SetStatus(ROW1, FOUND, Paid, ReconciliationState.Matched)
  const BOOKING := Stage.Commit(ROW1, FOUND, Paid, ReconciliationState.Matched)

  function Only(stage: Stage): map<nat, Worker> { map[1 := Hand(0, 1, 0, 30000, stage)] }

  /** An order and its payment event, published. */
  lemma Paying() returns (steps: seq<Step>)
    ensures FaultFreeRun(CFG, steps) && OneWorkerRun(CFG, steps)
    ensures Exec(CFG, steps) == INIT.(db := DB1, cache := Queued1(CFG))
  {
    steps := Do(CFG, [], INIT, CreateOrder(1, 500, "USD"), INIT.(db := ORDERED));
    assert WinsOf(EMPTY_CACHE, 70) + [0] == [0];
    assert SetKey(EMPTY_CACHE, 70, 0, CFG.idempotencyTtl) == Queued1(CFG).(log := []);
    assert UpsertPending(ORDERED, 7, P, Some(1)) == DB1;
    steps := TakenIn(CFG, steps, INIT.(db := ORDERED), P, 7, Queued1(CFG).(log := []), DB1);
  }

  lemma OneMoves(a: Worker, b: Worker)
    ensures map[1 := a][1 := b] == map[1 := b]
  {}

  const READ1 := Queued1(CFG).(cursor := 1, pending := {0})

  lemma Delivered() returns (steps: seq<Step>)
    ensures FaultFreeRun(CFG, steps) && OneWorkerRun(CFG, steps)
    ensures Exec(CFG, steps) == INIT.(db := DB1, cache := READ1, workers := map[1 := Locking(0, 1)])
  {
    steps := Paying();
    var s := INIT.(db := DB1, cache := Queued1(CFG));
    assert ReadGroup(Queued1(CFG), 10) == READ1 by { assert Span(0, 1) == {0}; }
    steps := Do(CFG, steps, s, StartWorker(1), s.(workers := map[1 := Reading]));
    OneMoves(Reading, Locking(0, 1));
    steps := Do(CFG, steps, s.(workers := map[1 := Reading]), Work(1, NoFault, 0.0),
                s.(cache := READ1, workers := map[1 := Locking(0, 1)]));
  }

  /** A worker takes it in hand. */
  lemma InHand1() returns (steps: seq<Step>)
    ensures FaultFreeRun(CFG, steps) && OneWorkerRun(CFG, steps)
    ensures Exec(CFG, steps) == INIT.(db := DB1, cache := Locked1(CFG), workers := Only(FindEvent))
  {
    steps := Delivered();
    var s := INIT.(db := DB1, cache := READ1, workers := map[1 := Locking(0, 1)]);
    OneMoves(Locking(0, 1), Hand(0, 1, 0, 30000, FindEvent));
    steps := Do(CFG, steps, s, Work(1, NoFault, 0.0), s.(cache := Locked1(CFG), workers := Only(FindEvent)));
  }

  lemma PaymentAccepted(cache: Cache)
    ensures HandleCommand(CFG, 0, 0.0, 7, 0, DB1, cache, FindOrder(ROW1)) == Reply(DB1, cache, WRITING)
  {}

  /** And decides to write the order's status. */
  lemma Deciding() returns (steps: seq<Step>)
    ensures FaultFreeRun(CFG, steps) && OneWorkerRun(CFG, steps)
    ensures Exec(CFG, steps) == INIT.(db := DB1, cache := Locked1(CFG), workers := Only(WRITING))
  {
    steps := InHand1();
    var c := Locked1(CFG);
    var s := INIT.(db := DB1, cache := c, workers := Only(FindEvent));
    OneMoves(Hand(0, 1, 0, 30000, FindEvent), Hand(0, 1, 0, 30000, FindOrder(ROW1)));
    steps := Worked(CFG, steps, s, 1, 0, 1, Job(7, 0, 30000, FindEvent), Reply(DB1, c, FindOrder(ROW1)),
                    Only(FindOrder(ROW1)));
    PaymentAccepted(c);
    OneMoves(Hand(0, 1, 0, 30000, FindOrder(ROW1)), Hand(0, 1, 0, 30000, WRITING));
    steps := Worked(CFG, steps, s.(workers := Only(FindOrder(ROW1))), 1, 0, 1, Job(7, 0, 30000, FindOrder(ROW1)),
                    Reply(DB1, c, WRITING), Only(WRITING));
  }

  const PAID := UpdateStatus(DB1, 1, Paid)

  lemma {:induction false} OneWorkerIsExclusive(cfg: Config, steps: seq<Step>, o: nat)
    requires OneWorkerRun(cfg, steps)
    ensures Booking.AlwaysExclusive(cfg, steps, o)
  {
    if steps != [] {
      OneWorkerIsExclusive(cfg, Earlier(steps), o);
      forall k: nat | k <= |steps| ensures Booking.Exclusive(At(cfg, steps, k), o) {
        if k < |steps| {
          AtPrefix(cfg, steps, |steps| - 1, k);
        } else {
          assert steps[..k] == steps;
        }
      }
    }
  }

  /** The worker writes the status and is about to book. */
  lemma AboutToBook() returns (steps: seq<Step>)
    ensures FaultFreeRun(CFG, steps) && OneWorkerRun(CFG, steps)
    ensures Exec(CFG, steps) == INIT.(db := PAID, cache := Locked1(CFG), workers := Only(BOOKING))
  {
    steps := Deciding();
    var s := INIT.(db := DB1, cache := Locked1(CFG), workers := Only(WRITING));
    OneMoves(Hand(0, 1, 0, 30000, WRITING), Hand(0, 1, 0, 30000, BOOKING));
    steps := Worked(CFG, steps, s, 1, 0, 1, Job(7, 0, 30000, WRITING), Reply(PAID, s.cache, BOOKING), Only(BOOKING));
  }

  lemma Unbooked() returns (steps: seq<Step>)
    ensures OneWorkerRun(CFG, steps) && Exec(CFG, steps) == INIT.(db := PAID, cache := Locked1(CFG))
  {
    steps := AboutToBook();
    var s := INIT.(db := PAID, cache := Locked1(CFG), workers := Only(BOOKING));
    assert s.workers - {1} == map[];
    steps := Next(CFG, steps, s, Crash(1), s.(workers := map[]));
  }

  /** The worker writes the status and crashes before the booking: the only worker there ever
      was leaves the order paid without a booking. */
  lemma {:induction false} PaidButUnbooked()
    ensures exists steps ::
              && Booking.AlwaysExclusive(CFG, steps, 1) && Booking.PaidAtRest(Exec(CFG, steps), 1)
              && !Booking.RefundSeen(Exec(CFG, steps).db, 1) && Booking.KindsOf(Exec(CFG, steps).db, 1) == []
  {
    var steps := Unbooked();
    OneWorkerIsExclusive(CFG, steps, 1);
    assert !Booking.RefundSeen(PAID, 1);
  }

  // ---------- two workers with two payments of one order ----------

  const P2 := Payload(71, 1, 500, "USD", Success, 0)
  const ROW8 := Event(71, Some(1), 500, "USD", Success, P2, 0, ReconciliationState.Pending, 0, None)
  const WRITING8 := SetStatus(ROW8, FOUND, Paid, ReconciliationState.Matched)
  const BOOKING8 := Stage.Commit(ROW8, FOUND, Paid, ReconciliationState.Matched)
  const DB2 := DB1.(events := map[7 := ROW1, 8 := ROW8], byGateway := map[70 := 7, 71 := 8], upserts := [P, P2])
  const KEYED2 := Locked1(CFG).(idem := map[70 := 86400000, 71 := 86400000], wins := map[70 := [0], 71 := [0]])
  const QUEUED2 := KEYED2.(log := [7, 8])
  const READ12 := QUEUED2.(cursor := 2, pending := {0, 1})
  const LOCKED2 := READ12.(locks := map[7 := Lease(0, 30000), 8 := Lease(1, 30000)], nextToken := 2)

  function Second(stage: Stage): Worker { Working(1, 2, Job(8, 1, 30000, stage)) }

  function Doing(one: Stage, two: Worker): map<nat, Worker> { Two(Hand(0, 1, 0, 30000, one), two) }

  lemma SecondMoves(one: Worker, a: Worker, b: Worker)
    ensures Two(one, a)[2 := b] == Two(one, b) && Two(a, one)[1 := b] == Two(b, one)
    ensures map[1 := one][2 := b] == Two(one, b)
  {}

  /** While the first worker decides, a second payment of the order is taken in. */
  lemma PaidAgain() returns (steps: seq<Step>)
    ensures FaultFreeRun(CFG, steps)
    ensures Exec(CFG, steps) == INIT.(db := DB2, cache := QUEUED2, workers := Only(WRITING))
  {
    steps := Deciding();
    var s := INIT.(db := DB1, cache := Locked1(CFG), workers := Only(WRITING));
    assert WinsOf(s.cache, 71) + [0] == [0];
    assert SetKey(s.cache, 71, 0, 86400000) == KEYED2 by {
      assert s.cache.idem[71 := 86400000] == KEYED2.idem && s.cache.wins[71 := [0]] == KEYED2.wins;
    }
    assert UpsertPending(DB1, 8, P2, Some(1)) == DB2 by {
      assert DB1.events[8 := ROW8] == DB2.events && DB1.byGateway[71 := 8] == DB2.byGateway;
      assert DB1.upserts + [P2] == DB2.upserts;
    }
    assert Publish(KEYED2, 8) == QUEUED2;
    steps := TakenIn(CFG, steps, s, P2, 8, KEYED2, DB2);
  }

  const ONE := Hand(0, 1, 0, 30000, WRITING)

  lemma SecondStarted() returns (steps: seq<Step>)
    ensures FaultFreeRun(CFG, steps)
    ensures Exec(CFG, steps) == INIT.(db := DB2, cache := QUEUED2, workers := Two(ONE, Reading))
  {
    steps := PaidAgain();
    SecondMoves(ONE, Reading, Reading);
    steps := Do(CFG, steps, INIT.(db := DB2, cache := QUEUED2, workers := Only(WRITING)), StartWorker(2),
                INIT.(db := DB2, cache := QUEUED2, workers := Two(ONE, Reading)));
  }

  lemma BothDelivered() returns (steps: seq<Step>)
    ensures FaultFreeRun(CFG, steps)
    ensures Exec(CFG, steps) == INIT.(db := DB2, cache := READ12, workers := Two(ONE, Locking(1, 2)))
  {
    steps := SecondStarted();
    var s := INIT.(db := DB2, cache := QUEUED2, workers := Two(ONE, Reading));
    assert ReadGroup(QUEUED2, 10) == READ12 by { assert Span(1, 2) == {1} + Span(2, 2); }
    SecondMoves(ONE, Reading, Locking(1, 2));
    steps := Do(CFG, steps, s, Work(2, NoFault, 0.0), s.(cache := READ12, workers := Two(ONE, Locking(1, 2))));
  }

  lemma SecondLocked()
    ensures SetLock(READ12, 8, 0, 30000) == LOCKED2
  {
    assert READ12.locks[8 := Lease(1, 30000)] == LOCKED2.locks;
  }

  /** A second worker takes its message in hand. */
  lemma BothInHand() returns (steps: seq<Step>)
    ensures FaultFreeRun(CFG, steps)
    ensures Exec(CFG, steps) == INIT.(db := DB2, cache := LOCKED2, workers := Doing(WRITING, Second(FindEvent)))
  {
    steps := BothDelivered();
    var s := INIT.(db := DB2, cache := READ12, workers := Two(ONE, Locking(1, 2)));
    SecondLocked();
    SecondMoves(ONE, Locking(1, 2), Second(FindEvent));
    steps := Do(CFG, steps, s, Work(2, NoFault, 0.0), s.(cache := LOCKED2, workers := Two(ONE, Second(FindEvent))));
  }

  lemma PaymentAccepted8(cache: Cache)
    ensures HandleCommand(CFG, 0, 0.0, 8, 1, DB2, cache, FindOrder(ROW8)) == Reply(DB2, cache, WRITING8)
  {}

  /** And reads the order before the first has written its status. */
  lemma BothDeciding() returns (steps: seq<Step>)
    ensures FaultFreeRun(CFG, steps)
    ensures Exec(CFG, steps) == INIT.(db := DB2, cache := LOCKED2, workers := Doing(WRITING, Second(WRITING8)))
  {
    steps := BothInHand();
    var s := INIT.(db := DB2, cache := LOCKED2, workers := Doing(WRITING, Second(FindEvent)));
    SecondMoves(ONE, Second(FindEvent), Second(FindOrder(ROW8)));
    steps := Worked(CFG, steps, s, 2, 1, 2, Job(8, 1, 30000, FindEvent), Reply(DB2, LOCKED2, FindOrder(ROW8)),
                    Doing(WRITING, Second(FindOrder(ROW8))));
    PaymentAccepted8(LOCKED2);
    SecondMoves(ONE, Second(FindOrder(ROW8)), Second(WRITING8));
    steps := Worked(CFG, steps, s.(workers := Doing(WRITING, Second(FindOrder(ROW8)))), 2, 1, 2,
                    Job(8, 1, 30000, FindOrder(ROW8)), Reply(DB2, LOCKED2, WRITING8), Doing(WRITING, Second(WRITING8)));
  }

  const PAID1 := UpdateStatus(DB2, 1, Paid)
  const PAID2 := UpdateStatus(PAID1, 1, Paid)

  /** Both write the order paid. */
  lemma FirstWritten() returns (steps: seq<Step>)
    ensures FaultFreeRun(CFG, steps)
    ensures Exec(CFG, steps) == INIT.(db := PAID1, cache := LOCKED2, workers := Doing(BOOKING, Second(WRITING8)))
  {
    steps := BothDeciding();
    var s := INIT.(db := DB2, cache := LOCKED2, workers := Doing(WRITING, Second(WRITING8)));
    SecondMoves(Second(WRITING8), Hand(0, 1, 0, 30000, WRITING), Hand(0, 1, 0, 30000, BOOKING));
    steps := Worked(CFG, steps, s, 1, 0, 1, Job(7, 0, 30000, WRITING), Reply(PAID1, LOCKED2, BOOKING),
                    Doing(BOOKING, Second(WRITING8)));
  }

  lemma BothWritten() returns (steps: seq<Step>)
    ensures FaultFreeRun(CFG, steps)
    ensures Exec(CFG, steps) == INIT.(db := PAID2, cache := LOCKED2, workers := Doing(BOOKING, Second(BOOKING8)))
  {
    steps := FirstWritten();
    SecondMoves(Hand(0, 1, 0, 30000, BOOKING), Second(WRITING8), Second(BOOKING8));
    var s := INIT.(db := PAID1, cache := LOCKED2, workers := Doing(BOOKING, Second(WRITING8)));
    steps := Worked(CFG, steps, s, 2, 1, 2,
                    Job(8, 1, 30000, WRITING8), Reply(PAID2, LOCKED2, BOOKING8), Doing(BOOKING, Second(BOOKING8)));
  }

  lemma NoRefunds(db: Db)
    requires db.events.Keys == {7, 8} && db.events[7].gatewayStatus == db.events[8].gatewayStatus == Success
    ensures !Booking.RefundSeen(db, 1)
  {}

  /** A commit, whichever its worker. */
  lemma Booked1(steps: seq<Step>, s: State, w: nat) returns (more: seq<Step>, t: State)
    requires FaultFreeRun(CFG, steps) && Exec(CFG, steps) == s && Overlap.Books(s, Work(w, NoFault, 0.0), 1)
    ensures FaultFreeRun(CFG, more) && Exec(CFG, more) == t && more == steps + [Work(w, NoFault, 0.0)]
    ensures Booking.KindsOf(t.db, 1) == Booking.KindsOf(s.db, 1) + [JobOf(s, w).stage.to]
    ensures t.workers == s.workers[w := s.workers[w].(job := JobOf(s, w).(stage := AckReturned))]
    ensures Booking.RefundSeen(t.db, 1) ==> Booking.RefundSeen(s.db, 1)
  {
    Integrity.Always(CFG, steps);
    Overlap.BookEffect(CFG, s, w, NoFault, 0.0, 1);
    t := Apply(CFG, s, Work(w, NoFault, 0.0));
    more := Do(CFG, steps, s, Work(w, NoFault, 0.0), t);
    CommitSees(s, w, t);
  }

  lemma CommitSees(s: State, w: nat, t: State)
    requires Overlap.Books(s, Work(w, NoFault, 0.0), 1) && t == Apply(CFG, s, Work(w, NoFault, 0.0))
    ensures Booking.RefundSeen(t.db, 1) ==> Booking.RefundSeen(s.db, 1)
  {
    forall e | e in t.db.events
      ensures e in s.db.events && t.db.events[e].gatewayStatus == s.db.events[e].gatewayStatus
      ensures t.db.events[e].raw == s.db.events[e].raw
    {}
  }

  /** The first worker books, and the second has yet to. */
  lemma OneBooked() returns (steps: seq<Step>, s: State)
    ensures FaultFreeRun(CFG, steps) && Exec(CFG, steps) == s && !Booking.RefundSeen(s.db, 1)
    ensures Booking.KindsOf(s.db, 1) == [Paid] && Overlap.Books(s, Work(2, NoFault, 0.0), 1)
    ensures JobOf(s, 2).stage.to == Paid
  {
    steps := BothWritten();
    var both := INIT.(db := PAID2, cache := LOCKED2, workers := Doing(BOOKING, Second(BOOKING8)));
    NoRefunds(both.db);
    steps, s := Booked1(steps, both, 1);
    assert s.workers[2] == Second(BOOKING8);
  }

  lemma BothBooked() returns (steps: seq<Step>)
    ensures FaultFreeRun(CFG, steps) && !Booking.RefundSeen(Exec(CFG, steps).db, 1)
    ensures Booking.KindsOf(Exec(CFG, steps).db, 1) == [Paid, Paid]
  {
    var s, t;
    steps, s := OneBooked();
    steps, t := Booked1(steps, s, 2);
  }

  /** Without a crash or an exception, two payments of one order are both booked. */
  lemma {:induction false} BookedTwice()
    ensures exists steps ::
              && FaultFreeRun(CFG, steps) && !Booking.RefundSeen(Exec(CFG, steps).db, 1)
              && Booking.KindsOf(Exec(CFG, steps).db, 1) == [Paid, Paid] && !Overlap.NoStaleWrite(CFG, steps, 1)
  {
    var steps := BothBooked();
    if Overlap.NoStaleWrite(CFG, steps, 1) {
      Overlap.AtMostOnceWithoutStaleWrites(CFG, steps, 1);
    }
  }

  // ---------- uploads that stop, or come too early ----------

  const LINE := Row(70, 500, "USD", 0)
  const FILE := File(1, Some([LINE]))

  function At1(stage: UploadStage): map<nat, Upload> { map[0 := Upload(FILE, 0, 0, 0, 0, stage)] }

  lemma UploadMoves(a: Upload, b: Upload)
    ensures map[0 := a][0 := b] == map[0 := b] && map[0 := a] - {0} == map[]
  {}

  /** One more command of the upload. */
  lemma Uploading(cfg: Config, steps: seq<Step>, s: State, up: Upload, db: Db, next: Option<Upload>)
    returns (more: seq<Step>)
    requires FaultFreeRun(cfg, steps) && Exec(cfg, steps) == s && s.uploads == map[0 := up]
    requires UploadCommand(s.db, s.now, up) == (db, next)
    ensures FaultFreeRun(cfg, more)
    ensures Exec(cfg, more) == s.(db := db, uploads := if next.Some? then map[0 := next.value] else map[])
  {
    var uploads := if next.Some? then map[0 := next.value] else map[];
    if next.Some? { UploadMoves(up, next.value); } else { UploadMoves(up, up); }
    more := Do(cfg, steps, s, AdvanceUpload(0), s.(db := db, uploads := uploads));
  }

  function Opened(db: Db): Db { PutBatch(db, FILE, Batch(Processing, 0, 0, 0, 0)) }

  /** An upload begins. */
  lemma Opening(steps: seq<Step>, s: State) returns (more: seq<Step>)
    requires FaultFreeRun(CFG, steps) && Exec(CFG, steps) == s && s.uploads == map[] && FILE !in s.db.batches
    ensures FaultFreeRun(CFG, more) && Exec(CFG, more) == s.(db := Opened(s.db), uploads := At1(Looking))
  {
    var up := Upload(FILE, 0, 0, 0, 0, Searching);
    more := Do(CFG, steps, s, StartUpload(0, FILE), s.(uploads := At1(Searching)));
    more := Uploading(CFG, more, s.(uploads := At1(Searching)), up, s.db, Some(up.(stage := Creating)));
    more := Uploading(CFG, more, s.(uploads := At1(Creating)), up.(stage := Creating), Opened(s.db),
                      Some(up.(stage := Looking)));
  }

  /** A request that stops there leaves its batch unfinished for good. */
  lemma {:induction false} UploadAbandoned()
    ensures exists steps :: FaultFreeRun(CFG, steps) && Unsettled.Unfinished(Exec(CFG, steps), FILE)
  {
    var steps := Opening([], INIT);
    var s := INIT.(db := Opened(EMPTY_DB), uploads := At1(Looking));
    UploadMoves(s.uploads[0], s.uploads[0]);
    steps := Do(CFG, steps, s, DropUpload(0), s.(uploads := map[]));
  }

  function Seen(db: Db): Db { InsertRecord(Opened(db), Record(FILE, LINE, MatchStatus.Matched, Some(7))) }

  const DONE := Upload(FILE, 1, 1, 0, 0, Finishing)

  /** Its row names an event that is not booked yet. */
  lemma RowSeen(steps: seq<Step>, s: State) returns (more: seq<Step>)
    requires FaultFreeRun(CFG, steps) && Exec(CFG, steps) == s.(db := Opened(s.db), uploads := At1(Looking))
    requires FindByGateway(s.db, 70) == Some(7) && 7 in s.db.events && s.db.ledger == [] && s.db.records == []
    requires s.db.events[7].amount == 500 && s.db.events[7].currency == "USD"
    ensures FaultFreeRun(CFG, more) && Exec(CFG, more) == s.(db := Seen(s.db), uploads := map[0 := DONE])
  {
    var up := Upload(FILE, 0, 0, 0, 0, Looking);
    var recording := up.(stage := Recording(Some(7), MatchStatus.Matched));
    more := Uploading(CFG, steps, s.(db := Opened(s.db), uploads := At1(Looking)), up, Opened(s.db), Some(recording));
    var settling := up.(stage := Settling(7, 0));
    more := Uploading(CFG, more, s.(db := Opened(s.db), uploads := map[0 := recording]), recording, Seen(s.db),
                      Some(settling));
    assert SettleForEvent(Seen(s.db), 7, 0, s.now) == Seen(s.db);
    more := Uploading(CFG, more, s.(db := Seen(s.db), uploads := map[0 := settling]), settling, Seen(s.db), Some(DONE));
  }

  const UPLOADED := PutBatch(Seen(PAID), FILE, Batch(Completed, 1, 1, 0, 0))

  /** A file is processed while the run that its row is about has yet to book. */
  lemma UploadedEarly() returns (steps: seq<Step>)
    ensures FaultFreeRun(CFG, steps)
    ensures Exec(CFG, steps) == INIT.(db := UPLOADED, cache := Locked1(CFG), workers := Only(BOOKING))
  {
    steps := AboutToBook();
    var s := INIT.(db := PAID, cache := Locked1(CFG), workers := Only(BOOKING));
    steps := Opening(steps, s);
    steps := RowSeen(steps, s);
    steps := Uploading(CFG, steps, s.(db := Seen(PAID), uploads := map[0 := DONE]), DONE, UPLOADED, None);
  }

  /** The pair is then booked, and pending although the file confirms it; the file uploaded
      again changes nothing. */
  lemma {:induction false} BookedTooLate()
    ensures exists steps ::
              var s := Exec(CFG, steps);
              && FaultFreeRun(CFG, steps) && |s.db.ledger| == 2 && s.db.ledger[0].event == 7
              && s.db.ledger[0].settlement.PendingSettlement? && s.db.ledger[1].settlement.PendingSettlement?
              && FILE in s.db.batches && s.db.batches[FILE].status.Completed? && Unsettled.NamedFrom(s.db, FILE, 0, 7)
              && Unsettled.NoneMaySettle(s, 7)
  {
    var steps := UploadedEarly();
    var s := INIT.(db := UPLOADED, cache := Locked1(CFG), workers := Only(BOOKING));
    var t := Apply(CFG, s, Work(1, NoFault, 0.0));
    steps := Do(CFG, steps, s, Work(1, NoFault, 0.0), t);
    BookedPending(s, t);
    assert Unsettled.Names(t.db, Rows(FILE)[0], 7);
  }

  lemma BookedPending(s: State, t: State)
    requires s == INIT.(db := UPLOADED, cache := Locked1(CFG), workers := Only(BOOKING))
    requires t == Apply(CFG, s, Work(1, NoFault, 0.0))
    ensures |t.db.ledger| == 2 && t.db.ledger[0].event == 7 && t.db.batches == s.db.batches && t.uploads == map[]
    ensures forall k | 0 <= k < 2 :: t.db.ledger[k].settlement.PendingSettlement?
    ensures 7 in t.db.events && t.db.events[7].gatewayId == 70
    ensures t.db.events[7].amount == 500 && t.db.events[7].currency == "USD"
  {}
}
