/** What the ledger can say about one order when runs fail, crash and are redelivered: its
    bookings follow the writes of its status, and these alternate. */
module Booking {
  import opened Domain
  import opened Reconciliation
  import opened Tables
  import opened Pipeline
  import opened Integrity
  import opened Leases
  import Backoff

  // ---------- the bookings of an order ----------

  function StatusFor(status: PaymentStatus): OrderStatus {
    match status
    case Success => Paid
    case Refunded => OrderStatus.Refunded
    case _ => Created
  }

  /** The pairs booked for an order, in order, by what they record: a payment or a refund. */
  function Kinds(events: map<nat, Event>, ledger: seq<Entry>, o: nat): seq<OrderStatus> {
    if ledger == [] then []
    else
      var x := ledger[|ledger| - 1];
      Kinds(events, ledger[..|ledger| - 1], o)
      + if x.order == o && x.direction.Debit? && x.event in events
        then [StatusFor(events[x.event].gatewayStatus)] else []
  }

  function KindsOf(db: Db, o: nat): seq<OrderStatus> { Kinds(db.events, db.ledger, o) }

  predicate Alternates(f: seq<OrderStatus>) {
    forall i | 0 <= i < |f| :: f[i] == if i % 2 == 0 then Paid else OrderStatus.Refunded
  }

  /** `k` is `f` with some elements left out. */
  predicate Embeds(k: seq<OrderStatus>, f: seq<OrderStatus>) {
    if k == [] then true
    else if f == [] then false
    else
      || (k[|k| - 1] == f[|f| - 1] && Embeds(k[..|k| - 1], f[..|f| - 1]))
      || Embeds(k, f[..|f| - 1])
  }

  /** `exact` asks for equality, otherwise elements may be missing. */
  predicate Follows(exact: bool, k: seq<OrderStatus>, f: seq<OrderStatus>) {
    if exact then k == f else Embeds(k, f)
  }

  function ButLast<T>(f: seq<T>): seq<T> { if f == [] then [] else f[..|f| - 1] }

  lemma FollowsBoth(exact: bool, k: seq<OrderStatus>, f: seq<OrderStatus>, x: OrderStatus)
    requires Follows(exact, k, f)
    ensures Follows(exact, k + [x], f + [x])
  {
    assert (k + [x])[..|k|] == k && (f + [x])[..|f|] == f;
  }

  lemma EmbedsLonger(k: seq<OrderStatus>, f: seq<OrderStatus>, x: OrderStatus)
    requires Embeds(k, f)
    ensures Embeds(k, f + [x])
  {
    assert (f + [x])[..|f|] == f;
  }

  lemma {:induction false} EmbedsLength(k: seq<OrderStatus>, f: seq<OrderStatus>)
    requires Embeds(k, f)
    ensures |k| <= |f|
  {
    if k != [] {
      if k[|k| - 1] == f[|f| - 1] && Embeds(k[..|k| - 1], f[..|f| - 1]) {
        EmbedsLength(k[..|k| - 1], f[..|f| - 1]);
      } else {
        EmbedsLength(k, f[..|f| - 1]);
      }
    }
  }

  /** Growth without new entries, or settling, does not change what was booked. */
  lemma {:induction false} KindsStable(a: Db, b: Db, n: nat, o: nat)
    requires Grows(a, b) && LedgerOk(a) && n <= |a.ledger|
    ensures Kinds(b.events, b.ledger[..n], o) == Kinds(a.events, a.ledger[..n], o)
  {
    if n != 0 {
      KindsStable(a, b, n - 1, o);
      assert a.ledger[..n][..n - 1] == a.ledger[..n - 1] && b.ledger[..n][..n - 1] == b.ledger[..n - 1];
      EntryHasEvent(a, n - 1);
    }
  }

  lemma EntryHasEvent(db: Db, i: nat)
    requires LedgerOk(db) && i < |db.ledger|
    ensures db.ledger[i].event in db.events && db.ledger[i].order in db.orders
  {
    var k := if i % 2 == 0 then i else i - 1;
    assert PairOk(db, db.ledger[k], db.ledger[k + 1]);
  }

  lemma SameKinds(a: Db, b: Db, o: nat)
    requires Grows(a, b) && LedgerOk(a) && |b.ledger| == |a.ledger|
    ensures KindsOf(b, o) == KindsOf(a, o)
  {
    KindsStable(a, b, |a.ledger|, o);
    assert a.ledger[..|a.ledger|] == a.ledger && b.ledger[..|b.ledger|] == b.ledger;
  }

  // ---------- who may touch the order ----------

  /** The order a stage carries from its read to its last use. */
  function Carried(stage: Stage): Option<Found> {
    match stage
    case Attach(row, f) => Some(f)
    case WriteMismatches(row, order, v) => order
    case SetStatus(row, f, to, state) => Some(f)
    case Commit(row, f, to, state) => Some(f)
    case _ => None
  }

  predicate StageHolds(stage: Stage, o: nat) { Carried(stage).Some? && Carried(stage).value.id == o }

  predicate Holding(s: State, w: nat, o: nat) { IsWorking(s, w) && StageHolds(JobOf(s, w).stage, o) }

  /** Between the status write and the commit. */
  predicate InWindow(s: State, w: nat, o: nat) { Holding(s, w, o) && JobOf(s, w).stage.Commit? }

  ghost predicate SomeInWindow(s: State, o: nat) { exists w :: InWindow(s, w, o) }

  /** At most one worker is between reading the order and finishing with it. */
  ghost predicate Exclusive(s: State, o: nat) {
    forall v, w | Holding(s, v, o) && Holding(s, w, o) :: v == w
  }

  ghost predicate RefundSeen(db: Db, o: nat) {
    exists e :: e in db.events && db.events[e].raw.orderId == o && db.events[e].gatewayStatus.Refunded?
  }

  // ---------- the invariant ----------

  ghost predicate StatusOk(db: Db, o: nat) {
    var f := FlipsOf(db, o);
    && Alternates(f)
    && (o in db.orders ==> db.orders[o].status == if f == [] then Created else f[|f| - 1])
    && (o !in db.orders ==> f == [])
    && (!RefundSeen(db, o) ==> forall i | 0 <= i < |f| :: f[i] != OrderStatus.Refunded)
  }

  ghost predicate HolderOk(s: State, w: nat, o: nat)
    requires Holding(s, w, o)
  {
    var stage := JobOf(s, w).stage;
    if stage.Commit? then
      FlipsOf(s.db, o) != [] && stage.to == FlipsOf(s.db, o)[|FlipsOf(s.db, o)| - 1]
    else
      o in s.db.orders && Carried(stage).value.order.status == s.db.orders[o].status
  }

  ghost predicate FlipInv(exact: bool, s: State, o: nat) {
    && StatusOk(s.db, o)
    && (forall w | Holding(s, w, o) :: HolderOk(s, w, o))
    && (if SomeInWindow(s, o) then Follows(exact, KindsOf(s.db, o), ButLast(FlipsOf(s.db, o)))
        else Follows(exact, KindsOf(s.db, o), FlipsOf(s.db, o)))
  }

  /** The worker's next command, ending like this, leaves the order's status written and its
      booking not. */
  predicate GivesUp(s: State, w: nat, fault: Fault, o: nat) {
    && Holding(s, w, o)
    && ((JobOf(s, w).stage.SetStatus? && fault.After?) || (JobOf(s, w).stage.Commit? && fault.Before?))
  }

  /** The step stops a run of the order between its status write and its commit. */
  predicate Stops(s: State, step: Step, o: nat) {
    match step
    case Crash(w) => InWindow(s, w, o)
    case Work(w, fault, u) => Backoff.IsDraw(u) && GivesUp(s, w, fault, o)
    case _ => false
  }

  // ---------- steps that do not concern the order ----------

  lemma RefundStays(a: Db, b: Db, o: nat)
    requires Grows(a, b) && RefundSeen(a, o)
    ensures RefundSeen(b, o)
  {
    var e :| e in a.events && a.events[e].raw.orderId == o && a.events[e].gatewayStatus.Refunded?;
    assert e in b.events;
  }

  ghost predicate SameStatus(a: Db, b: Db, o: nat) {
    && FlipsOf(b, o) == FlipsOf(a, o)
    && (o in a.orders ==> o in b.orders && b.orders[o].status == a.orders[o].status)
    && (o !in a.orders && o in b.orders ==> b.orders[o].status == Created)
  }

  lemma StatusStays(a: Db, b: Db, o: nat)
    requires StatusOk(a, o) && Grows(a, b) && SameStatus(a, b, o)
    ensures StatusOk(b, o)
  {
    if RefundSeen(a, o) {
      RefundStays(a, b, o);
    }
  }

  /** Nothing about the order changes but, perhaps, who is looking at it. */
  lemma Elsewhere(exact: bool, s: State, t: State, o: nat)
    requires FlipInv(exact, s, o) && Grows(s.db, t.db) && SameStatus(s.db, t.db, o)
        && KindsOf(t.db, o) == KindsOf(s.db, o)
    requires forall w | Holding(t, w, o) :: HolderOk(t, w, o)
    requires forall w :: InWindow(t, w, o) <==> InWindow(s, w, o)
    ensures FlipInv(exact, t, o)
  {
    StatusStays(s.db, t.db, o);
    assert SomeInWindow(t, o) <==> SomeInWindow(s, o);
  }

  /** The workers, and what they need to know of the order, stay as they are. */
  lemma OtherActors(exact: bool, s: State, t: State, o: nat)
    requires FlipInv(exact, s, o) && Grows(s.db, t.db) && SameStatus(s.db, t.db, o) && LedgerOk(s.db)
    requires |t.db.ledger| == |s.db.ledger|
    requires t.workers == s.workers
    ensures FlipInv(exact, t, o)
  {
    SameKinds(s.db, t.db, o);
    forall w | Holding(t, w, o) ensures HolderOk(t, w, o) {
      assert Holding(s, w, o);
    }
    Elsewhere(exact, s, t, o);
  }

  lemma UploadLeavesOrders(db: Db, now: nat, up: Upload)
    ensures var (db', up') := UploadCommand(db, now, up);
            db'.orders == db.orders && db'.flips == db.flips && |db'.ledger| == |db.ledger|
  {
    if up.stage.Settling? {
      assert |SettleForEvent(db, up.stage.event, up.stage.record, now).ledger| == |db.ledger|;
    }
  }

  // ---------- a worker's command ----------

  /** The command of a run that is not a status write takes up an order only by reading it. */
  lemma NextHolder(cfg: Config, now: nat, e: nat, db: Db, stage: Stage, o: nat)
    requires InRun(stage) && !stage.SetStatus?
    ensures var (db', stage') := RunCommand(cfg, now, e, db, stage);
            StageHolds(stage', o) ==>
              && !stage'.Commit?
              && ((StageHolds(stage, o) && !stage.Commit? && Carried(stage') == Carried(stage))
                  || (o in db.orders && Carried(stage').value.order == db.orders[o]))
  {}

  /** Nor does it write a status or, unless it is the commit, book anything. */
  lemma CommandLeaves(cfg: Config, now: nat, u: real, e: nat, i: nat, db: Db, cache: Cache, stage: Stage)
    requires !stage.Release? && !stage.SetStatus?
    ensures var db' := HandleCommand(cfg, now, u, e, i, db, cache, stage).db;
            db'.orders == db.orders && db'.flips == db.flips && (!stage.Commit? ==> db'.ledger == db.ledger)
  {}

  lemma NextHolderAny(cfg: Config, now: nat, u: real, e: nat, i: nat, db: Db, cache: Cache, stage: Stage, o: nat)
    requires !stage.Release? && !stage.SetStatus?
    ensures var stage' := HandleCommand(cfg, now, u, e, i, db, cache, stage).stage;
            StageHolds(stage', o) ==>
              && !stage'.Commit?
              && ((StageHolds(stage, o) && !stage.Commit? && Carried(stage') == Carried(stage))
                  || (o in db.orders && Carried(stage').value.order == db.orders[o]))
  {
    if InRun(stage) {
      NextHolder(cfg, now, e, db, stage, o);
    }
  }

  /** What worker `w` leaves behind: a new stage, and possibly other tables. */
  predicate Moved(s: State, t: State, w: nat, stage: Stage) {
    && IsWorking(s, w)
    && t.workers == s.workers[w := s.workers[w].(job := JobOf(s, w).(stage := stage))]
  }

  lemma OthersUnmoved(s: State, t: State, w: nat, stage: Stage, o: nat)
    requires Moved(s, t, w, stage)
    ensures forall v | v != w :: (Holding(t, v, o) <==> Holding(s, v, o)) && (InWindow(t, v, o) <==> InWindow(s, v, o))
    ensures forall v | v != w && IsWorking(t, v) :: IsWorking(s, v) && JobOf(t, v) == JobOf(s, v)
    ensures Holding(t, w, o) <==> StageHolds(stage, o)
    ensures InWindow(t, w, o) <==> StageHolds(stage, o) && stage.Commit?
  {}

  /** A command that neither writes the order's status nor commits a booking for it. */
  lemma PlainCommand(exact: bool, s: State, t: State, w: nat, stage: Stage, o: nat)
    requires FlipInv(exact, s, o) && Moved(s, t, w, stage) && Grows(s.db, t.db) && KindsOf(t.db, o) == KindsOf(s.db, o)
    requires FlipsOf(t.db, o) == FlipsOf(s.db, o) && t.db.orders.Keys == s.db.orders.Keys
    requires o in s.db.orders ==> t.db.orders[o].status == s.db.orders[o].status
    requires !InWindow(s, w, o)
    requires StageHolds(stage, o) ==>
      !stage.Commit? && ((StageHolds(JobOf(s, w).stage, o) && Carried(stage) == Carried(JobOf(s, w).stage))
                         || (o in s.db.orders && Carried(stage).value.order == s.db.orders[o]))
    ensures FlipInv(exact, t, o)
  {
    OthersUnmoved(s, t, w, stage, o);
    forall v | Holding(t, v, o) ensures HolderOk(t, v, o) {
      if v != w {
        assert Holding(s, v, o) && HolderOk(s, v, o);
      } else if StageHolds(JobOf(s, w).stage, o) {
        assert Holding(s, w, o) && HolderOk(s, w, o);
      }
    }
    Elsewhere(exact, s, t, o);
  }

  /** The status write, with or without an exception after it. */
  lemma StatusWrite(exact: bool, cfg: Config, s: State, t: State, w: nat, fault: Fault, o: nat)
    requires FlipInv(exact, s, o) && Exclusive(s, o) && Holding(s, w, o) && JobOf(s, w).stage.SetStatus?
    requires var st := JobOf(s, w).stage;
             && o in s.db.orders && JobOf(s, w).event in s.db.events && s.db.events[JobOf(s, w).event].raw.orderId == o
             && VerdictOk(cfg, st.row, st.found, st.to, st.state)
             && st.row.gatewayStatus == s.db.events[JobOf(s, w).event].gatewayStatus
             && Moved(s, t, w, if fault.NoFault? then Commit(st.row, st.found, st.to, st.state) else Increment)
             && t.db == UpdateStatus(s.db, o, st.to)
    requires !fault.Before? && (exact ==> fault.NoFault?)
    ensures FlipInv(exact, t, o)
  {
    var st := JobOf(s, w).stage;
    VerdictMovesExactlyAccepted(st.row, Some(st.found.order), cfg.delayThreshold);
    assert HolderOk(s, w, o);
    OthersUnmoved(s, t, w, JobOf(t, w).stage, o);
    StatusAfterWrite(s.db, t.db, o, st.to);
    if fault.NoFault? {
      WindowOpened(exact, s, t, w, o, st.to);
    } else {
      WriteUnfinished(s, t, o, st.to);
    }
  }

  lemma WindowOpened(exact: bool, s: State, t: State, w: nat, o: nat, to: OrderStatus)
    requires FlipInv(exact, s, o) && !SomeInWindow(s, o) && StatusOk(t.db, o) && t.db == UpdateStatus(s.db, o, to)
    requires FlipsOf(t.db, o) == FlipsOf(s.db, o) + [to] && InWindow(t, w, o) && JobOf(t, w).stage.to == to
    requires forall v | Holding(t, v, o) :: v == w
    ensures FlipInv(exact, t, o)
  {
    assert ButLast(FlipsOf(t.db, o)) == FlipsOf(s.db, o);
    assert KindsOf(t.db, o) == KindsOf(s.db, o);
  }

  lemma WriteUnfinished(s: State, t: State, o: nat, to: OrderStatus)
    requires FlipInv(false, s, o) && !SomeInWindow(s, o) && StatusOk(t.db, o) && t.db == UpdateStatus(s.db, o, to)
    requires FlipsOf(t.db, o) == FlipsOf(s.db, o) + [to] && forall v :: !Holding(t, v, o)
    ensures FlipInv(false, t, o)
  {
    EmbedsLonger(KindsOf(s.db, o), FlipsOf(s.db, o), to);
    assert KindsOf(t.db, o) == KindsOf(s.db, o);
  }

  lemma StatusAfterWrite(a: Db, b: Db, o: nat, to: OrderStatus)
    requires StatusOk(a, o) && o in a.orders && b == UpdateStatus(a, o, to)
    requires (to.Paid? && !a.orders[o].status.Paid?) || (to.Refunded? && a.orders[o].status.Paid? && RefundSeen(a, o))
    ensures StatusOk(b, o) && FlipsOf(b, o) == FlipsOf(a, o) + [to]
  {
    assert FlipsOf(b, o) == FlipsOf(a, o) + [to];
    assert RefundSeen(a, o) <==> RefundSeen(b, o);
  }

  lemma CommitKinds(cfg: Config, db: Db, e: nat, row: Event, f: Found, to: OrderStatus, state: ReconciliationState,
      now: nat, o: nat)
    requires DbOk(cfg, db) && CopyOk(db, e, row) && ResolvedOk(db, e, f) && VerdictOk(cfg, row, f, to, state)
    ensures var db' := CommitBooking(db, e, f.id, CreateLedgerEntries(row.amount, row.currency, to), state, now);
            KindsOf(db', o) == KindsOf(db, o) + if f.id == o then [to] else []
  {
    VerdictMovesExactlyAccepted(row, Some(f.order), cfg.delayThreshold);
    CommitKeeps(cfg, db, e, row, f, to, state, now);
    var drafts := CreateLedgerEntries(row.amount, row.currency, to);
    KindsAfterPair(db, CommitBooking(db, e, f.id, drafts, state, now), e, f.id, drafts, to, o);
  }

  lemma KindsAfterPair(a: Db, b: Db, e: nat, id: nat, drafts: seq<Draft>, to: OrderStatus, o: nat)
    requires Grows(a, b) && LedgerOk(a) && b.ledger == a.ledger + Booked(e, id, drafts)
    requires |drafts| == 2 && drafts[0].direction.Debit? && drafts[1].direction.Credit?
    requires e in b.events && StatusFor(b.events[e].gatewayStatus) == to
    ensures KindsOf(b, o) == KindsOf(a, o) + if id == o then [to] else []
  {
    var pair := Booked(e, id, drafts);
    KindsBefore(a, b, o);
    assert pair == [pair[0], pair[1]];
    KindsOfPair(b.events, a.ledger, pair[0], pair[1], o);
  }

  lemma KindsBefore(a: Db, b: Db, o: nat)
    requires Grows(a, b) && LedgerOk(a) && a.ledger <= b.ledger
    ensures Kinds(b.events, a.ledger, o) == KindsOf(a, o)
  {
    var n := |a.ledger|;
    KindsStable(a, b, n, o);
    assert b.ledger[..n] == a.ledger == a.ledger[..n];
  }

  lemma KindsOfPair(events: map<nat, Event>, ledger: seq<Entry>, d: Entry, c: Entry, o: nat)
    requires d.direction.Debit? && c.direction.Credit? && d.event in events
    ensures Kinds(events, ledger + [d, c], o)
            == Kinds(events, ledger, o) + if d.order == o then [StatusFor(events[d.event].gatewayStatus)] else []
  {
    var l1 := ledger + [d];
    assert (ledger + [d, c])[..|ledger| + 1] == l1;
    assert l1[..|ledger|] == ledger;
  }

  lemma WindowCloses(s: State, t: State, w: nat, stage: Stage, o: nat)
    requires Exclusive(s, o) && InWindow(s, w, o) && Moved(s, t, w, stage) && !StageHolds(stage, o)
    ensures forall v :: !Holding(t, v, o)
  {
    OthersUnmoved(s, t, w, stage, o);
  }

  /** With nobody at the order any more, its bookings have caught up with its status. */
  lemma CaughtUp(exact: bool, t: State, k: seq<OrderStatus>, to: OrderStatus, o: nat)
    requires StatusOk(t.db, o) && forall v :: !Holding(t, v, o)
    requires var f := FlipsOf(t.db, o); f != [] && to == f[|f| - 1] && Follows(exact, k, ButLast(f))
    requires KindsOf(t.db, o) == k + [to]
    ensures FlipInv(exact, t, o)
  {
    var f := FlipsOf(t.db, o);
    FollowsBoth(exact, k, ButLast(f), to);
    assert ButLast(f) + [to] == f;
    assert !SomeInWindow(t, o);
  }

  lemma CommitDone(exact: bool, cfg: Config, s: State, t: State, w: nat, stage: Stage, o: nat)
    requires FlipInv(exact, s, o) && Exclusive(s, o) && InWindow(s, w, o) && Moved(s, t, w, stage)
    requires !StageHolds(stage, o) && Grows(s.db, t.db) && SameStatus(s.db, t.db, o)
    requires KindsOf(t.db, o) == KindsOf(s.db, o) + [JobOf(s, w).stage.to]
    ensures FlipInv(exact, t, o)
  {
    WindowCloses(s, t, w, stage, o);
    assert HolderOk(s, w, o);
    StatusStays(s.db, t.db, o);
    CaughtUp(exact, t, KindsOf(s.db, o), JobOf(s, w).stage.to, o);
  }

  /** The window closes without a booking. */
  lemma CommitLost(s: State, t: State, w: nat, o: nat)
    requires FlipInv(false, s, o) && Exclusive(s, o) && InWindow(s, w, o) && t.db == s.db
    requires forall v | Holding(t, v, o) :: v != w && Holding(s, v, o)
    ensures FlipInv(false, t, o)
  {
    assert HolderOk(s, w, o);
    var f := FlipsOf(s.db, o);
    assert !SomeInWindow(t, o);
    EmbedsLonger(KindsOf(s.db, o), ButLast(f), f[|f| - 1]);
    assert ButLast(f) + [f[|f| - 1]] == f;
  }

  /** A worker that does not hold the order comes, goes or moves on. */
  lemma WorkerAway(exact: bool, s: State, t: State, w: nat, o: nat)
    requires FlipInv(exact, s, o) && t.db == s.db && !Holding(t, w, o) && !InWindow(s, w, o)
    requires forall v | v != w :: IsWorking(t, v) <==> IsWorking(s, v)
    requires forall v | v != w && IsWorking(t, v) :: JobOf(t, v) == JobOf(s, v)
    ensures FlipInv(exact, t, o)
  {
    GrowsReflexive(s.db);
    forall v | Holding(t, v, o) ensures HolderOk(t, v, o) {
      assert Holding(s, v, o) && HolderOk(s, v, o);
    }
    forall v ensures InWindow(t, v, o) <==> InWindow(s, v, o) {}
    Elsewhere(exact, s, t, o);
  }

  lemma BeforeKeepsFlips(exact: bool, s: State, t: State, w: nat, stage: Stage, o: nat)
    requires FlipInv(exact, s, o) && Exclusive(s, o) && Moved(s, t, w, stage) && t.db == s.db && Carried(stage).None?
    requires exact ==> !InWindow(s, w, o)
    ensures FlipInv(exact, t, o)
  {
    OthersUnmoved(s, t, w, stage, o);
    if InWindow(s, w, o) {
      CommitLost(s, t, w, o);
    } else {
      GrowsReflexive(s.db);
      PlainCommand(exact, s, t, w, stage, o);
    }
  }

  lemma SetStatusKeepsFlips(exact: bool, cfg: Config, s: State, t: State, w: nat, fault: Fault, o: nat)
    requires FlipInv(exact, s, o) && Exclusive(s, o) && IsWorking(s, w) && JobOf(s, w).stage.SetStatus?
    requires DbOk(cfg, s.db) && JobOk(cfg, s.db, JobOf(s, w))
    requires var st := JobOf(s, w).stage;
             && Moved(s, t, w, if fault.NoFault? then Commit(st.row, st.found, st.to, st.state) else Increment)
             && t.db == UpdateStatus(s.db, st.found.id, st.to)
    requires !fault.Before? && (exact ==> !GivesUp(s, w, fault, o))
    ensures FlipInv(exact, t, o)
  {
    var st := JobOf(s, w).stage;
    if st.found.id == o {
      assert EventOk(s.db, JobOf(s, w).event);
      StatusWrite(exact, cfg, s, t, w, fault, o);
    } else {
      OtherStatusWrite(exact, cfg, s, t, w, JobOf(t, w).stage, o);
    }
  }

  lemma OtherStatusWrite(exact: bool, cfg: Config, s: State, t: State, w: nat, stage: Stage, o: nat)
    requires FlipInv(exact, s, o) && DbOk(cfg, s.db) && Moved(s, t, w, stage) && JobOf(s, w).stage.SetStatus?
    requires var st := JobOf(s, w).stage; st.found.id != o && t.db == UpdateStatus(s.db, st.found.id, st.to)
    requires !StageHolds(stage, o)
    ensures FlipInv(exact, t, o)
  {
    var st := JobOf(s, w).stage;
    UpdateStatusKeeps(cfg, s.db, st.found.id, st.to);
    SameKinds(s.db, t.db, o);
    PlainCommand(exact, s, t, w, stage, o);
  }

  lemma CommitElsewhere(exact: bool, s: State, t: State, w: nat, stage: Stage, o: nat)
    requires FlipInv(exact, s, o) && Moved(s, t, w, stage) && Carried(stage).None? && !InWindow(s, w, o)
    requires Grows(s.db, t.db) && t.db.orders == s.db.orders && t.db.flips == s.db.flips
        && KindsOf(t.db, o) == KindsOf(s.db, o)
    ensures FlipInv(exact, t, o)
  {
    PlainCommand(exact, s, t, w, stage, o);
  }

  lemma CommitKeepsFlips(exact: bool, cfg: Config, s: State, t: State, w: nat, stage: Stage, o: nat)
    requires FlipInv(exact, s, o) && Exclusive(s, o) && IsWorking(s, w) && JobOf(s, w).stage.Commit?
    requires DbOk(cfg, s.db) && JobOk(cfg, s.db, JobOf(s, w))
    requires var st := JobOf(s, w).stage;
             t.db == CommitBooking(s.db, JobOf(s, w).event, st.found.id,
                                   CreateLedgerEntries(st.row.amount, st.row.currency, st.to), st.state, s.now)
    requires Moved(s, t, w, stage) && Carried(stage).None?
    ensures FlipInv(exact, t, o)
  {
    var job := JobOf(s, w);
    CommitKeeps(cfg, s.db, job.event, job.stage.row, job.stage.found, job.stage.to, job.stage.state, s.now);
    CommitKinds(cfg, s.db, job.event, job.stage.row, job.stage.found, job.stage.to, job.stage.state, s.now, o);
    if job.stage.found.id == o {
      CommitDone(exact, cfg, s, t, w, stage, o);
    } else {
      CommitElsewhere(exact, s, t, w, stage, o);
    }
  }

  lemma OtherCommandKeepsFlips(exact: bool, cfg: Config, s: State, t: State, w: nat, i: nat, u: real, stage: Stage,
      o: nat)
    requires FlipInv(exact, s, o) && IsWorking(s, w) && DbOk(cfg, s.db) && JobOk(cfg, s.db, JobOf(s, w))
    requires var job := JobOf(s, w);
             && !job.stage.Release? && !job.stage.SetStatus? && !job.stage.Commit?
             && var reply := HandleCommand(cfg, s.now, u, job.event, i, s.db, s.cache, job.stage);
                t.db == reply.db && (stage == reply.stage || Carried(stage).None?)
    requires Moved(s, t, w, stage)
    ensures FlipInv(exact, t, o)
  {
    var job := JobOf(s, w);
    HandleCommandKeeps(cfg, s.now, u, job.event, i, s.db, s.cache, job.stage);
    CommandLeaves(cfg, s.now, u, job.event, i, s.db, s.cache, job.stage);
    NextHolderAny(cfg, s.now, u, job.event, i, s.db, s.cache, job.stage, o);
    SameKinds(s.db, t.db, o);
    PlainCommand(exact, s, t, w, stage, o);
  }

  lemma ThrownCommand(exact: bool, cfg: Config, s: State, w: nat, i: nat, end: nat, job: Job, fault: Fault, u: real,
      o: nat)
    requires FlipInv(exact, s, o) && Exclusive(s, o) && DbOk(cfg, s.db) && JobOk(cfg, s.db, job)
    requires w in s.workers && s.workers[w] == Working(i, end, job) && (exact ==> !GivesUp(s, w, fault, o))
    requires !job.stage.Release? && fault.Before?
    ensures FlipInv(exact, DoCommand(cfg, s, w, i, end, job, fault, u), o)
  {
    var t := DoCommand(cfg, s, w, i, end, job, fault, u);
    assert IsWorking(s, w) && JobOf(s, w) == job;
    BeforeKeepsFlips(exact, s, t, w, OnThrow(job.stage), o);
  }

  lemma StatusCommand(exact: bool, cfg: Config, s: State, w: nat, i: nat, end: nat, job: Job, fault: Fault, u: real,
      o: nat)
    requires FlipInv(exact, s, o) && Exclusive(s, o) && DbOk(cfg, s.db) && JobOk(cfg, s.db, job)
    requires w in s.workers && s.workers[w] == Working(i, end, job) && (exact ==> !GivesUp(s, w, fault, o))
    requires job.stage.SetStatus? && !fault.Before?
    ensures FlipInv(exact, DoCommand(cfg, s, w, i, end, job, fault, u), o)
  {
    var t := DoCommand(cfg, s, w, i, end, job, fault, u);
    assert IsWorking(s, w) && JobOf(s, w) == job;
    SetStatusKeepsFlips(exact, cfg, s, t, w, fault, o);
  }

  lemma CommitCommand(exact: bool, cfg: Config, s: State, w: nat, i: nat, end: nat, job: Job, fault: Fault, u: real,
      o: nat)
    requires FlipInv(exact, s, o) && Exclusive(s, o) && DbOk(cfg, s.db) && JobOk(cfg, s.db, job)
    requires w in s.workers && s.workers[w] == Working(i, end, job) && (exact ==> !GivesUp(s, w, fault, o))
    requires job.stage.Commit? && !fault.Before?
    ensures FlipInv(exact, DoCommand(cfg, s, w, i, end, job, fault, u), o)
  {
    var t := DoCommand(cfg, s, w, i, end, job, fault, u);
    assert IsWorking(s, w) && JobOf(s, w) == job;
    CommitKeepsFlips(exact, cfg, s, t, w, JobOf(t, w).stage, o);
  }

  lemma OtherCommand(exact: bool, cfg: Config, s: State, w: nat, i: nat, end: nat, job: Job, fault: Fault, u: real,
      o: nat)
    requires FlipInv(exact, s, o) && Exclusive(s, o) && DbOk(cfg, s.db) && JobOk(cfg, s.db, job)
    requires w in s.workers && s.workers[w] == Working(i, end, job) && (exact ==> !GivesUp(s, w, fault, o))
    requires !job.stage.Release? && !job.stage.SetStatus? && !job.stage.Commit? && !fault.Before?
    ensures FlipInv(exact, DoCommand(cfg, s, w, i, end, job, fault, u), o)
  {
    var t := DoCommand(cfg, s, w, i, end, job, fault, u);
    assert IsWorking(s, w) && JobOf(s, w) == job;
    OtherCommandKeepsFlips(exact, cfg, s, t, w, i, u, JobOf(t, w).stage, o);
  }

  lemma CommandKeepsFlips(exact: bool, cfg: Config, s: State, w: nat, i: nat, end: nat, job: Job, fault: Fault,
      u: real, o: nat)
    requires FlipInv(exact, s, o) && Exclusive(s, o) && DbOk(cfg, s.db) && JobOk(cfg, s.db, job)
    requires w in s.workers && s.workers[w] == Working(i, end, job) && (exact ==> !GivesUp(s, w, fault, o))
    requires !job.stage.Release?
    ensures FlipInv(exact, DoCommand(cfg, s, w, i, end, job, fault, u), o)
  {
    if fault.Before? {
      ThrownCommand(exact, cfg, s, w, i, end, job, fault, u, o);
    } else if job.stage.SetStatus? {
      StatusCommand(exact, cfg, s, w, i, end, job, fault, u, o);
    } else if job.stage.Commit? {
      CommitCommand(exact, cfg, s, w, i, end, job, fault, u, o);
    } else {
      OtherCommand(exact, cfg, s, w, i, end, job, fault, u, o);
    }
  }

  /** Steps that leave the tables and the workers alone. */
  lemma SameView(exact: bool, s: State, t: State, o: nat)
    requires FlipInv(exact, s, o) && t.db == s.db && t.workers == s.workers
    ensures FlipInv(exact, t, o)
  {
    GrowsReflexive(s.db);
    forall w | Holding(t, w, o) ensures HolderOk(t, w, o) {
      assert Holding(s, w, o);
    }
    forall w ensures InWindow(t, w, o) <==> InWindow(s, w, o) {}
    Elsewhere(exact, s, t, o);
  }

  lemma AwayMoves(cfg: Config, s: State, w: nat, fault: Fault, u: real)
    requires w in s.workers && (IsWorking(s, w) ==> JobOf(s, w).stage.Release?)
    ensures var t := DoWork(cfg, s, w, fault, u);
            && t.db == s.db && w in t.workers && t.workers == s.workers[w := t.workers[w]]
            && (IsWorking(t, w) ==> JobOf(t, w).stage.FindEvent?)
  {
    if s.workers[w].Reading? {
      assert s.workers[w := Reading] == s.workers;
    }
  }

  lemma AwayKeepsFlips(exact: bool, cfg: Config, s: State, w: nat, fault: Fault, u: real, o: nat)
    requires FlipInv(exact, s, o) && w in s.workers && (IsWorking(s, w) ==> JobOf(s, w).stage.Release?)
    ensures FlipInv(exact, DoWork(cfg, s, w, fault, u), o)
  {
    AwayMoves(cfg, s, w, fault, u);
    WorkerAway(exact, s, DoWork(cfg, s, w, fault, u), w, o);
  }

  lemma WorkKeepsFlips(exact: bool, cfg: Config, s: State, w: nat, fault: Fault, u: real, o: nat)
    requires Inv(cfg, s) && FlipInv(exact, s, o) && Exclusive(s, o) && (exact ==> !GivesUp(s, w, fault, o))
    requires w in s.workers
    ensures FlipInv(exact, DoWork(cfg, s, w, fault, u), o)
  {
    if IsWorking(s, w) && !JobOf(s, w).stage.Release? {
      assert WorkerOk(cfg, s.db, s.cache.log, s.workers[w]);
      CommandKeepsFlips(exact, cfg, s, w, s.workers[w].i, s.workers[w].end, JobOf(s, w), fault, u, o);
    } else {
      AwayKeepsFlips(exact, cfg, s, w, fault, u, o);
    }
  }

  lemma HandleLeavesOrders(cfg: Config, s: State, h: nat, id: nat)
    requires h in s.handlers
    ensures var t := DoHandle(cfg, s, h, id);
            t.db.orders == s.db.orders && t.db.flips == s.db.flips && t.db.ledger == s.db.ledger
              && t.workers == s.workers
  {
    match s.handlers[h] {
      case Upserting(p, order) =>
        var db' := UpsertPending(s.db, id, p, order);
        assert db'.orders == s.db.orders && db'.flips == s.db.flips && db'.ledger == s.db.ledger;
      case _ =>
        assert DoHandle(cfg, s, h, id).db == s.db;
    }
  }

  lemma UploadKeepsFlips(exact: bool, cfg: Config, s: State, n: nat, o: nat)
    requires Inv(cfg, s) && FlipInv(exact, s, o) && n in s.uploads
    ensures FlipInv(exact, DoUpload(s, n), o)
  {
    UploadKeeps(cfg, s, n);
    UploadLeavesOrders(s.db, s.now, s.uploads[n]);
    OtherActors(exact, s, DoUpload(s, n), o);
  }

  lemma HandleKeepsFlips(exact: bool, cfg: Config, s: State, h: nat, id: nat, o: nat)
    requires Inv(cfg, s) && FlipInv(exact, s, o) && h in s.handlers
    ensures FlipInv(exact, DoHandle(cfg, s, h, id), o)
  {
    HandleKeeps(cfg, s, h, id);
    HandleLeavesOrders(cfg, s, h, id);
    OtherActors(exact, s, DoHandle(cfg, s, h, id), o);
  }

  lemma OrderKeepsFlips(exact: bool, cfg: Config, s: State, p: nat, amount: int, currency: string, o: nat)
    requires Inv(cfg, s) && FlipInv(exact, s, o) && p !in s.db.orders
    ensures FlipInv(exact, s.(db := InsertOrder(s.db, p, amount, currency, s.now)), o)
  {
    OrderKeeps(cfg, s, p, amount, currency);
    OtherActors(exact, s, s.(db := InsertOrder(s.db, p, amount, currency, s.now)), o);
  }

  lemma CrashKeepsFlips(exact: bool, cfg: Config, s: State, w: nat, o: nat)
    requires FlipInv(exact, s, o) && Exclusive(s, o) && (exact ==> !InWindow(s, w, o))
    ensures FlipInv(exact, Apply(cfg, s, Crash(w)), o)
  {
    var t := Apply(cfg, s, Crash(w));
    if InWindow(s, w, o) {
      assert !exact;
      CommitLost(s, t, w, o);
    } else {
      WorkerAway(exact, s, t, w, o);
    }
  }

  lemma WorkerStepKeepsFlips(exact: bool, cfg: Config, s: State, step: Step, o: nat)
    requires Inv(cfg, s) && FlipInv(exact, s, o) && Exclusive(s, o) && (exact ==> !Stops(s, step, o))
    requires step.Work? || step.Crash? || step.StartWorker?
    ensures FlipInv(exact, Apply(cfg, s, step), o)
  {
    if step.Crash? {
      CrashKeepsFlips(exact, cfg, s, step.w, o);
    } else if step.Work? && step.w in s.workers && Backoff.IsDraw(step.u) {
      WorkKeepsFlips(exact, cfg, s, step.w, step.fault, step.u, o);
    } else if step.StartWorker? && step.w !in s.workers {
      WorkerAway(exact, s, Apply(cfg, s, step), step.w, o);
    }
  }

  lemma TableStepKeepsFlips(exact: bool, cfg: Config, s: State, step: Step, o: nat)
    requires Inv(cfg, s) && FlipInv(exact, s, o)
    requires step.CreateOrder? || step.Handle? || step.AdvanceUpload?
    ensures FlipInv(exact, Apply(cfg, s, step), o)
  {
    if step.CreateOrder? {
      CreateKeepsFlips(exact, cfg, s, step.o, step.amount, step.currency, o);
    } else if step.Handle? {
      if step.h in s.handlers { HandleKeepsFlips(exact, cfg, s, step.h, step.id, o); }
    } else {
      if step.n in s.uploads { UploadKeepsFlips(exact, cfg, s, step.n, o); }
    }
  }

  lemma CreateKeepsFlips(exact: bool, cfg: Config, s: State, p: nat, amount: int, currency: string, o: nat)
    requires Inv(cfg, s) && FlipInv(exact, s, o)
    ensures FlipInv(exact, Apply(cfg, s, CreateOrder(p, amount, currency)), o)
  {
    if p !in s.db.orders {
      OrderKeepsFlips(exact, cfg, s, p, amount, currency, o);
    }
  }

  lemma QuietStep(cfg: Config, s: State, step: Step)
    requires !step.Work? && !step.Crash? && !step.StartWorker?
    requires !step.CreateOrder? && !step.Handle? && !step.AdvanceUpload?
    ensures Apply(cfg, s, step).db == s.db && Apply(cfg, s, step).workers == s.workers
  {}

  lemma StepKeepsFlips(exact: bool, cfg: Config, s: State, step: Step, o: nat)
    requires Inv(cfg, s) && FlipInv(exact, s, o) && Exclusive(s, o) && (exact ==> !Stops(s, step, o))
    ensures FlipInv(exact, Apply(cfg, s, step), o)
  {
    if step.Work? || step.Crash? || step.StartWorker? {
      WorkerStepKeepsFlips(exact, cfg, s, step, o);
    } else if step.CreateOrder? || step.Handle? || step.AdvanceUpload? {
      TableStepKeepsFlips(exact, cfg, s, step, o);
    } else {
      QuietStep(cfg, s, step);
      SameView(exact, s, Apply(cfg, s, step), o);
    }
  }

  // ---------- whole runs ----------

  ghost predicate AlwaysExclusive(cfg: Config, steps: seq<Step>, o: nat) {
    forall k: nat | k <= |steps| :: Exclusive(At(cfg, steps, k), o)
  }

  ghost predicate NeverStopped(cfg: Config, steps: seq<Step>, o: nat) {
    forall k: nat | k < |steps| :: !Stops(At(cfg, steps, k), steps[k], o)
  }

  lemma {:induction false} FlipsAlways(exact: bool, cfg: Config, steps: seq<Step>, o: nat)
    requires AlwaysExclusive(cfg, steps, o) && (exact ==> NeverStopped(cfg, steps, o))
    ensures FlipInv(exact, Exec(cfg, steps), o)
  {
    if steps == [] {
      assert !SomeInWindow(INIT, o);
    } else {
      var n := |steps| - 1;
      var before := steps[..n];
      forall k: nat | k <= n ensures At(cfg, before, k) == At(cfg, steps, k) {
        AtPrefix(cfg, steps, n, k);
      }
      assert forall k: nat | k < n :: before[k] == steps[k];
      FlipsAlways(exact, cfg, before, o);
      Integrity.Always(cfg, before);
      assert At(cfg, steps, n) == Exec(cfg, before);
      StepKeepsFlips(exact, cfg, Exec(cfg, before), steps[n], o);
    }
  }

  /** However runs fail, crash and are redelivered: while one worker at a time handles the
      order, its status writes alternate between paid and refunded, its status is the last
      one written, and its bookings are those writes in order, some possibly missing. */
  lemma {:induction false} BookingsFollowStatusWrites(cfg: Config, steps: seq<Step>, o: nat)
    requires AlwaysExclusive(cfg, steps, o)
    ensures var db := Exec(cfg, steps).db;
            && Alternates(FlipsOf(db, o))
            && (o in db.orders ==>
                  db.orders[o].status == if FlipsOf(db, o) == [] then Created
                                         else FlipsOf(db, o)[|FlipsOf(db, o)| - 1])
            && Embeds(KindsOf(db, o), FlipsOf(db, o))
  {
    FlipsAlways(false, cfg, steps, o);
    var s := Exec(cfg, steps);
    if SomeInWindow(s, o) {
      var w :| InWindow(s, w, o);
      assert HolderOk(s, w, o);
      var f := FlipsOf(s.db, o);
      EmbedsLonger(KindsOf(s.db, o), ButLast(f), f[|f| - 1]);
      assert ButLast(f) + [f[|f| - 1]] == f;
    }
  }

  /** An order that never sees a refund is booked at most once. */
  lemma {:induction false} AtMostOneBooking(cfg: Config, steps: seq<Step>, o: nat)
    requires AlwaysExclusive(cfg, steps, o) && !RefundSeen(Exec(cfg, steps).db, o)
    ensures |KindsOf(Exec(cfg, steps).db, o)| <= 1
  {
    BookingsFollowStatusWrites(cfg, steps, o);
    FlipsAlways(false, cfg, steps, o);
    AtMostOneFlip(Exec(cfg, steps).db, o);
    EmbedsLength(KindsOf(Exec(cfg, steps).db, o), FlipsOf(Exec(cfg, steps).db, o));
  }

  /** One worker at a time, any number of events, redeliveries, exceptions and crashes. */
  lemma {:induction false} AtMostOnceWithOneWorker(cfg: Config, steps: seq<Step>, o: nat)
    requires forall k: nat | k <= |steps| :: OneWorker(At(cfg, steps, k))
    requires !RefundSeen(Exec(cfg, steps).db, o)
    ensures |KindsOf(Exec(cfg, steps).db, o)| <= 1
  {
    AtMostOneBooking(cfg, steps, o);
  }

  /** Any number of workers, when every event of the order is one and the same, and no
      worker handles the order past its lease: the lock and the status guard together. */
  lemma {:induction false} AtMostOnceUnderLock(cfg: Config, steps: seq<Step>, o: nat, e: nat)
    requires var db := Exec(cfg, steps).db;
             && (forall x | x in db.events && db.events[x].raw.orderId == o :: x == e)
             && (e in db.events ==> !db.events[e].gatewayStatus.Refunded?)
    requires forall k: nat, w | k <= |steps| && Holding(At(cfg, steps, k), w, o) :: InLease(At(cfg, steps, k), w)
    ensures |KindsOf(Exec(cfg, steps).db, o)| <= 1
  {
    forall k: nat | k <= |steps| ensures Exclusive(At(cfg, steps, k), o) {
      var s := At(cfg, steps, k);
      forall v, w | Holding(s, v, o) && Holding(s, w, o) ensures v == w {
        HolderNamesOrder(cfg, steps, k, v, o);
        HolderNamesOrder(cfg, steps, k, w, o);
        LeaseSafety(cfg, steps[..k], v, w);
      }
    }
    assert !RefundSeen(Exec(cfg, steps).db, o);
    AtMostOneBooking(cfg, steps, o);
  }

  lemma {:induction false} HolderNamesOrder(cfg: Config, steps: seq<Step>, k: nat, w: nat, o: nat)
    requires k <= |steps| && Holding(At(cfg, steps, k), w, o)
    ensures var db := Exec(cfg, steps).db; var e := JobOf(At(cfg, steps, k), w).event;
            e in db.events && db.events[e].raw.orderId == o
  {
    Integrity.Always(cfg, steps[..k]);
    HolderNames(cfg, At(cfg, steps, k), w, o);
    FactsStand(cfg, steps, k);
  }

  lemma HolderNames(cfg: Config, s: State, w: nat, o: nat)
    requires Inv(cfg, s) && Holding(s, w, o)
    ensures JobOf(s, w).event in s.db.events && s.db.events[JobOf(s, w).event].raw.orderId == o
  {
    assert WorkerOk(cfg, s.db, s.cache.log, s.workers[w]);
    assert EventOk(s.db, JobOf(s, w).event);
  }

  function Count(k: seq<OrderStatus>, x: OrderStatus): nat {
    if k == [] then 0 else Count(k[..|k| - 1], x) + if k[|k| - 1] == x then 1 else 0
  }

  lemma {:induction false} AlternationNets(f: seq<OrderStatus>)
    requires Alternates(f)
    ensures Count(f, Paid) - Count(f, OrderStatus.Refunded) == if |f| % 2 == 1 then 1 else 0
  {
    if f != [] { AlternationNets(f[..|f| - 1]); }
  }

  /** With one worker at a time and no run of the order stopped between the status write and
      the commit, the bookings are exactly the status writes, less the one still in the window; so they
      alternate, and payments exceed refunds by one exactly when the order is paid, or, while a
      run is in the window, exactly when it is not. */
  lemma {:induction false} BookingsAreStatusWrites(cfg: Config, steps: seq<Step>, o: nat)
    requires AlwaysExclusive(cfg, steps, o) && NeverStopped(cfg, steps, o)
    ensures var s := Exec(cfg, steps); var k := KindsOf(s.db, o);
            && Alternates(k)
            && (!SomeInWindow(s, o) ==> k == FlipsOf(s.db, o))
            && (SomeInWindow(s, o) ==> k == ButLast(FlipsOf(s.db, o)))
            && (o in s.db.orders ==>
                  Count(k, Paid) - Count(k, OrderStatus.Refunded)
                  == if s.db.orders[o].status.Paid? != SomeInWindow(s, o) then 1 else 0)
  {
    FlipsAlways(true, cfg, steps, o);
    ReadOff(Exec(cfg, steps), o);
  }

  lemma ReadOff(s: State, o: nat)
    requires FlipInv(true, s, o)
    ensures var k := KindsOf(s.db, o);
            && Alternates(k)
            && (SomeInWindow(s, o) ==> FlipsOf(s.db, o) != [] && k == ButLast(FlipsOf(s.db, o)))
            && (o in s.db.orders ==>
                  Count(k, Paid) - Count(k, OrderStatus.Refunded)
                  == if s.db.orders[o].status.Paid? != SomeInWindow(s, o) then 1 else 0)
  {
    var f := FlipsOf(s.db, o);
    if SomeInWindow(s, o) {
      var w :| InWindow(s, w, o);
      assert HolderOk(s, w, o);
    }
    AlternationNets(KindsOf(s.db, o));
    assert f != [] ==> (f[|f| - 1].Paid? <==> |f| % 2 == 1);
  }

  // ---------- the limit of "at most once" ----------

  /** A step that writes no status of the order opens no window for it and books nothing. */
  lemma NoWriteNoBooking(cfg: Config, s: State, step: Step, o: nat)
    requires Inv(cfg, s) && !SomeInWindow(s, o)
    requires FlipsOf(Apply(cfg, s, step).db, o) == FlipsOf(s.db, o)
    ensures var t := Apply(cfg, s, step); !SomeInWindow(t, o) && KindsOf(t.db, o) == KindsOf(s.db, o)
  {
    var t := Apply(cfg, s, step);
    Integrity.StepKeeps(cfg, s, step);
    if step.Work? && IsWorking(s, step.w) && !JobOf(s, step.w).stage.Release? && Backoff.IsDraw(step.u) {
      var w := step.w;
      assert WorkerOk(cfg, s.db, s.cache.log, s.workers[w]);
      CommandOpensNothing(cfg, s, t, w, s.workers[w].i, JobOf(s, w), step.fault, step.u, o);
    } else {
      LedgerLengthKept(cfg, s, step);
      SameKinds(s.db, t.db, o);
      forall w | InWindow(t, w, o) ensures InWindow(s, w, o) {}
    }
  }

  lemma WorkElsewhere(cfg: Config, s: State, w: nat, fault: Fault, u: real)
    requires w in s.workers && !(IsWorking(s, w) && !JobOf(s, w).stage.Release?)
    ensures var t := DoWork(cfg, s, w, fault, u);
            && |t.db.ledger| == |s.db.ledger|
            && forall v | IsWorking(t, v) && JobOf(t, v).stage.Commit? :: IsWorking(s, v) && JobOf(s, v) == JobOf(t, v)
  {
    AwayMoves(cfg, s, w, fault, u);
  }

  lemma LedgerLengthKept(cfg: Config, s: State, step: Step)
    requires step.Work? ==> !(IsWorking(s, step.w) && !JobOf(s, step.w).stage.Release? && Backoff.IsDraw(step.u))
    ensures |Apply(cfg, s, step).db.ledger| == |s.db.ledger|
    ensures forall w | IsWorking(Apply(cfg, s, step), w) && JobOf(Apply(cfg, s, step), w).stage.Commit? ::
              IsWorking(s, w) && JobOf(s, w) == JobOf(Apply(cfg, s, step), w)
  {
    if step.Work? {
      if step.w in s.workers && Backoff.IsDraw(step.u) { WorkElsewhere(cfg, s, step.w, step.fault, step.u); }
    } else if step.Handle? {
      if step.h in s.handlers { HandleLeavesOrders(cfg, s, step.h, step.id); }
    } else if step.AdvanceUpload? {
      if step.n in s.uploads { UploadLeavesOrders(s.db, s.now, s.uploads[step.n]); }
    }
  }

  lemma CommandOpensNothing(cfg: Config, s: State, t: State, w: nat, i: nat, job: Job, fault: Fault, u: real, o: nat)
    requires w in s.workers && s.workers[w].Working? && s.workers[w].i == i && s.workers[w].job == job
    requires !job.stage.Release? && DbOk(cfg, s.db) && JobOk(cfg, s.db, job) && !SomeInWindow(s, o)
    requires t == DoCommand(cfg, s, w, i, s.workers[w].end, job, fault, u) && FlipsOf(t.db, o) == FlipsOf(s.db, o)
    ensures !SomeInWindow(t, o) && KindsOf(t.db, o) == KindsOf(s.db, o)
  {
    var reply := HandleCommand(cfg, s.now, u, job.event, i, s.db, s.cache, job.stage);
    var stage' := if fault.NoFault? then reply.stage else OnThrow(job.stage);
    assert IsWorking(s, w) && !InWindow(s, w, o) && Moved(s, t, w, stage');
    OthersUnmoved(s, t, w, stage', o);
    forall v | v != w ensures !InWindow(t, v, o) {
      assert !InWindow(s, v, o);
    }
    if job.stage.SetStatus? {
      assert |FlipsOf(UpdateStatus(s.db, job.stage.found.id, job.stage.to), job.stage.found.id)|
             == |FlipsOf(s.db, job.stage.found.id)| + 1;
    } else {
      NextHolderAny(cfg, s.now, u, job.event, i, s.db, s.cache, job.stage, o);
    }
    if !fault.Before? && job.stage.Commit? {
      CommitKinds(cfg, s.db, job.event, job.stage.row, job.stage.found, job.stage.to, job.stage.state, s.now, o);
    } else if !fault.Before? {
      CommandBooksNothing(cfg, s.now, u, job.event, i, s.db, s.cache, job.stage, o);
    }
  }

  lemma CommandBooksNothing(cfg: Config, now: nat, u: real, e: nat, i: nat, db: Db, cache: Cache, stage: Stage, o: nat)
    requires DbOk(cfg, db) && e in db.events && StageOk(cfg, db, e, stage) && !stage.Release? && !stage.Commit?
    ensures KindsOf(HandleCommand(cfg, now, u, e, i, db, cache, stage).db, o) == KindsOf(db, o)
  {
    HandleCommandKeeps(cfg, now, u, e, i, db, cache, stage);
    if !stage.SetStatus? {
      CommandLeaves(cfg, now, u, e, i, db, cache, stage);
    }
    SameKinds(db, HandleCommand(cfg, now, u, e, i, db, cache, stage).db, o);
  }

  ghost predicate PaidAtRest(s: State, o: nat) {
    o in s.db.orders && s.db.orders[o].status.Paid? && !SomeInWindow(s, o)
  }

  lemma PaidStaysAtRest(cfg: Config, s: State, step: Step, o: nat)
    requires Inv(cfg, s) && StatusOk(s.db, o) && !RefundSeen(s.db, o) && PaidAtRest(s, o)
    requires var t := Apply(cfg, s, step); StatusOk(t.db, o) && !RefundSeen(t.db, o)
    ensures var t := Apply(cfg, s, step); PaidAtRest(t, o) && KindsOf(t.db, o) == KindsOf(s.db, o)
  {
    var t := Apply(cfg, s, step);
    OnlyOneFlip(s.db, o);
    FlipsOnlyGrow(cfg, s, step, o);
    AtMostOneFlip(t.db, o);
    Integrity.StepKeeps(cfg, s, step);
    NoWriteNoBooking(cfg, s, step, o);
  }

  lemma ExclusiveBefore(cfg: Config, steps: seq<Step>, m: nat, o: nat)
    requires m <= |steps| && AlwaysExclusive(cfg, steps, o)
    ensures AlwaysExclusive(cfg, steps[..m], o)
  {
    forall k: nat | k <= m ensures Exclusive(At(cfg, steps[..m], k), o) {
      AtPrefix(cfg, steps, m, k);
    }
  }

  lemma RefundBefore(cfg: Config, steps: seq<Step>, m: nat, o: nat)
    requires m <= |steps| && RefundSeen(Exec(cfg, steps[..m]).db, o)
    ensures RefundSeen(Exec(cfg, steps).db, o)
  {
    FactsStand(cfg, steps, m);
    RefundStays(At(cfg, steps, m).db, Exec(cfg, steps).db, o);
  }

  lemma {:induction false} StatusAlways(cfg: Config, steps: seq<Step>, o: nat)
    requires AlwaysExclusive(cfg, steps, o)
    ensures Inv(cfg, Exec(cfg, steps)) && StatusOk(Exec(cfg, steps).db, o)
  {
    FlipsAlways(false, cfg, steps, o);
    Integrity.Always(cfg, steps);
  }

  /** A paid order whose run stopped before its commit stays unbooked: no redelivery, retry
      or further payment event makes the booking good. */
  lemma {:induction false} LostBookingIsNeverMadeGood(cfg: Config, steps: seq<Step>, n: nat, o: nat)
    requires n <= |steps| && AlwaysExclusive(cfg, steps, o) && !RefundSeen(Exec(cfg, steps).db, o)
    requires PaidAtRest(At(cfg, steps, n), o)
    ensures PaidAtRest(Exec(cfg, steps), o) && KindsOf(Exec(cfg, steps).db, o) == KindsOf(At(cfg, steps, n).db, o)
    decreases |steps|
  {
    if n == |steps| {
      assert steps[..n] == steps;
    } else {
      var m := |steps| - 1;
      ExclusiveBefore(cfg, steps, m, o);
      AtPrefix(cfg, steps, m, n);
      if RefundSeen(Exec(cfg, steps[..m]).db, o) {
        RefundBefore(cfg, steps, m, o);
      }
      LostBookingIsNeverMadeGood(cfg, steps[..m], n, o);
      StatusAlways(cfg, steps[..m], o);
      StatusAlways(cfg, steps, o);
      PaidStaysAtRest(cfg, Exec(cfg, steps[..m]), steps[m], o);
    }
  }

  /** A stop leaves the order paid, at rest and without a booking. */
  lemma StopLeavesUnbooked(cfg: Config, s: State, step: Step, o: nat)
    requires Inv(cfg, s) && FlipInv(false, s, o) && Exclusive(s, o) && Stops(s, step, o)
    requires var t := Apply(cfg, s, step); FlipInv(false, t, o) && !RefundSeen(t.db, o)
    ensures var t := Apply(cfg, s, step); PaidAtRest(t, o) && KindsOf(t.db, o) == []
  {
    var t := Apply(cfg, s, step);
    var w := step.w;
    Integrity.StepKeeps(cfg, s, step);
    if RefundSeen(s.db, o) {
      RefundStays(s.db, t.db, o);
    }
    AtMostOneFlip(s.db, o);
    AtMostOneFlip(t.db, o);
    assert HolderOk(s, w, o) && WorkerOk(cfg, s.db, s.cache.log, s.workers[w]);
    if step.Work? && JobOf(s, w).stage.SetStatus? {
      UnfinishedWrite(cfg, s, w, step.u, o);
    } else {
      UnfinishedCommit(cfg, s, step, o);
    }
    WrittenIsPaid(t, o);
  }

  lemma WrittenIsPaid(s: State, o: nat)
    requires StatusOk(s.db, o) && !RefundSeen(s.db, o) && FlipsOf(s.db, o) != [] && !SomeInWindow(s, o)
    ensures PaidAtRest(s, o)
  {}

  lemma UnfinishedWrite(cfg: Config, s: State, w: nat, u: real, o: nat)
    requires Inv(cfg, s) && FlipInv(false, s, o) && Exclusive(s, o) && Holding(s, w, o) && JobOf(s, w).stage.SetStatus?
    requires Backoff.IsDraw(u) && |FlipsOf(Apply(cfg, s, Work(w, After, u)).db, o)| <= 1
    ensures var t := Apply(cfg, s, Work(w, After, u));
            |FlipsOf(t.db, o)| == 1 && !SomeInWindow(t, o) && o in t.db.orders && KindsOf(t.db, o) == []
  {
    var t := Apply(cfg, s, Work(w, After, u));
    assert HolderOk(s, w, o);
    ThrownWrite(cfg, s, w, u, o);
    OthersUnmoved(s, t, w, Increment, o);
    assert |FlipsOf(t.db, o)| == |FlipsOf(s.db, o)| + 1;
    assert !SomeInWindow(s, o);
    assert forall v :: InWindow(t, v, o) ==> InWindow(s, v, o);
    EmbedsLength(KindsOf(s.db, o), FlipsOf(s.db, o));
    assert KindsOf(t.db, o) == KindsOf(s.db, o);
  }

  lemma ThrownWrite(cfg: Config, s: State, w: nat, u: real, o: nat)
    requires Holding(s, w, o) && JobOf(s, w).stage.SetStatus? && Backoff.IsDraw(u)
    ensures var t := Apply(cfg, s, Work(w, After, u));
            Moved(s, t, w, Increment) && t.db == UpdateStatus(s.db, o, JobOf(s, w).stage.to)
  {}

  lemma UnfinishedCommit(cfg: Config, s: State, step: Step, o: nat)
    requires FlipInv(false, s, o) && Exclusive(s, o) && Stops(s, step, o) && |FlipsOf(s.db, o)| <= 1
    requires InWindow(s, step.w, o)
    ensures var t := Apply(cfg, s, step);
            t.db == s.db && FlipsOf(t.db, o) != [] && !SomeInWindow(t, o) && KindsOf(t.db, o) == []
  {
    var t := Apply(cfg, s, step);
    assert HolderOk(s, step.w, o);
    EmbedsLength(KindsOf(s.db, o), ButLast(FlipsOf(s.db, o)));
    assert forall v :: InWindow(t, v, o) ==> v != step.w && InWindow(s, v, o);
  }

  lemma {:induction false} NothingStopped(cfg: Config, steps: seq<Step>, o: nat)
    requires AlwaysExclusive(cfg, steps, o) && NeverStopped(cfg, steps, o)
    requires !RefundSeen(Exec(cfg, steps).db, o) && PaidAtRest(Exec(cfg, steps), o)
    ensures KindsOf(Exec(cfg, steps).db, o) == [Paid]
  {
    FlipsAlways(true, cfg, steps, o);
    OnlyOneFlip(Exec(cfg, steps).db, o);
  }

  lemma {:induction false} StopLasts(cfg: Config, steps: seq<Step>, k: nat, o: nat)
    requires AlwaysExclusive(cfg, steps, o) && !RefundSeen(Exec(cfg, steps).db, o)
    requires k < |steps| && Stops(At(cfg, steps, k), steps[k], o)
    ensures KindsOf(Exec(cfg, steps).db, o) == []
  {
    assert steps[..k + 1][..k] == steps[..k];
    ExclusiveBefore(cfg, steps, k, o);
    ExclusiveBefore(cfg, steps, k + 1, o);
    if RefundSeen(Exec(cfg, steps[..k + 1]).db, o) {
      RefundBefore(cfg, steps, k + 1, o);
    }
    FlipsAlways(false, cfg, steps[..k], o);
    FlipsAlways(false, cfg, steps[..k + 1], o);
    Integrity.Always(cfg, steps[..k]);
    assert At(cfg, steps, k + 1) == Apply(cfg, At(cfg, steps, k), steps[k]);
    StopLeavesUnbooked(cfg, At(cfg, steps, k), steps[k], o);
    LostBookingIsNeverMadeGood(cfg, steps, k + 1, o);
  }

  /** With one worker at a time, an order without refunds that is paid and at rest is booked,
      once, if and only if no step stopped a run of it between its status write and its
      commit. */
  lemma {:induction false} BookedExactlyUnlessStopped(cfg: Config, steps: seq<Step>, o: nat)
    requires AlwaysExclusive(cfg, steps, o) && !RefundSeen(Exec(cfg, steps).db, o)
    requires PaidAtRest(Exec(cfg, steps), o)
    ensures KindsOf(Exec(cfg, steps).db, o) == [Paid] <==> NeverStopped(cfg, steps, o)
    ensures KindsOf(Exec(cfg, steps).db, o) == [] <==> !NeverStopped(cfg, steps, o)
  {
    if NeverStopped(cfg, steps, o) {
      NothingStopped(cfg, steps, o);
    } else {
      var k: nat :| k < |steps| && Stops(At(cfg, steps, k), steps[k], o);
      StopLasts(cfg, steps, k, o);
    }
  }

  lemma AtMostOneFlip(db: Db, o: nat)
    requires StatusOk(db, o) && !RefundSeen(db, o)
    ensures |FlipsOf(db, o)| <= 1
  {
    LongerHasRefund(FlipsOf(db, o));
  }

  lemma LongerHasRefund(f: seq<OrderStatus>)
    requires Alternates(f)
    ensures |f| <= 1 || OrderStatus.Refunded in f
  {
    if |f| > 1 {
      assert f[1] == OrderStatus.Refunded;
    }
  }

  lemma OnlyOneFlip(db: Db, o: nat)
    requires StatusOk(db, o) && !RefundSeen(db, o) && o in db.orders && db.orders[o].status.Paid?
    ensures FlipsOf(db, o) == [Paid]
  {
    AtMostOneFlip(db, o);
  }

  lemma FlipsOnlyGrow(cfg: Config, s: State, step: Step, o: nat)
    ensures FlipsOf(s.db, o) <= FlipsOf(Apply(cfg, s, step).db, o)
  {
    match step {
      case Handle(h, id) => if h in s.handlers { HandleLeavesOrders(cfg, s, h, id); }
      case AdvanceUpload(n) => if n in s.uploads { UploadLeavesOrders(s.db, s.now, s.uploads[n]); }
      case Work(w, fault, u) => if w in s.workers { WorkGrowsFlips(cfg, s, w, fault, u, o); }
      case _ =>
    }
  }

  lemma WorkGrowsFlips(cfg: Config, s: State, w: nat, fault: Fault, u: real, o: nat)
    requires w in s.workers
    ensures FlipsOf(s.db, o) <= FlipsOf(DoWork(cfg, s, w, fault, u).db, o)
  {
    if !IsWorking(s, w) || JobOf(s, w).stage.Release? {
      AwayMoves(cfg, s, w, fault, u);
    } else if !JobOf(s, w).stage.SetStatus? {
      CommandLeaves(cfg, s.now, u, JobOf(s, w).event, s.workers[w].i, s.db, s.cache, JobOf(s, w).stage);
    }
  }
}
