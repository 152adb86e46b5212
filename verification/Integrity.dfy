/** What every step of the pipeline keeps: the tables agree with one another, the queues name
    events that exist, and what an actor remembers of a row is still true of it.  Facts once
    written are never rewritten; a ledger entry changes only by being settled, an order by its
    status, and an event by its progress. */
module Integrity {
  import opened Domain
  import opened Reconciliation
  import opened SortedSet
  import opened Tables
  import opened Pipeline

  // ---------- tables ----------

  ghost predicate EventOk(db: Db, e: nat)
    requires e in db.events
  {
    var row := db.events[e];
    && row.gatewayId == row.raw.gatewayId && row.amount == row.raw.amount && row.currency == row.raw.currency
    && row.gatewayStatus == row.raw.status && row.receivedAt == row.raw.occurredAt && WellFormed(row.raw)
    && (row.orderId.Some? ==> row.orderId.value == row.raw.orderId && row.orderId.value in db.orders)
    && row.gatewayId in db.byGateway && db.byGateway[row.gatewayId] == e
    && (row.state.DeadLettered? ==> e in db.deadLetters)
  }

  ghost predicate EventsOk(db: Db) {
    && (forall e | e in db.events :: EventOk(db, e))
    && (forall g | g in db.byGateway :: db.byGateway[g] in db.events && db.events[db.byGateway[g]].gatewayId == g)
  }

  /** A matched record names an event with its own gateway id, amount and currency. */
  ghost predicate RecordOk(db: Db, r: Record) {
    r.status.Matched? ==>
      && r.event.Some? && r.event.value in db.events
      && r.row.gatewayId == db.events[r.event.value].gatewayId
      && r.row.amount == db.events[r.event.value].amount
      && r.row.currency == db.events[r.event.value].currency
  }

  ghost predicate RecordsOk(db: Db) {
    forall r | 0 <= r < |db.records| :: RecordOk(db, db.records[r])
  }

  ghost predicate SettledOk(db: Db, x: Entry) {
    x.settlement.Settled? ==>
      && x.settlement.record < |db.records|
      && var r := db.records[x.settlement.record];
         r.status.Matched? && r.event == Some(x.event) && r.row.amount == x.amount && r.row.currency == x.currency
  }

  /** Two entries booked together for one event that moved one order. */
  ghost predicate PairOk(db: Db, d: Entry, c: Entry) {
    && d.account.GatewayReceivable? && d.direction.Debit? && c.account.MerchantPayable? && c.direction.Credit?
    && d.event == c.event && d.order == c.order && d.amount == c.amount && d.currency == c.currency
    && d.settlement == c.settlement
    && d.event in db.events && d.order in db.orders
    && db.events[d.event].orderId == Some(d.order)
    && (db.events[d.event].gatewayStatus.Success? || db.events[d.event].gatewayStatus.Refunded?)
    && d.amount == db.events[d.event].amount == db.orders[d.order].amount && 0 < d.amount
    && d.currency == db.events[d.event].currency == db.orders[d.order].currency
    && SettledOk(db, d)
  }

  ghost predicate LedgerOk(db: Db) {
    && |db.ledger| % 2 == 0
    && forall i | 0 <= i < |db.ledger| && i % 2 == 0 :: PairOk(db, db.ledger[i], db.ledger[i + 1])
  }

  ghost predicate DeadOk(cfg: Config, db: Db) {
    forall e | e in db.deadLetters ::
      e in db.events && db.deadLetters[e].attempts >= cfg.maxAttempts && db.deadLetters[e].payload == db.events[e].raw
  }

  ghost predicate DbOk(cfg: Config, db: Db) {
    EventsOk(db) && RecordsOk(db) && LedgerOk(db) && DeadOk(cfg, db)
  }

  // ---------- facts are never rewritten ----------

  predicate SameFacts(a: Event, b: Event) {
    && a.gatewayId == b.gatewayId && a.amount == b.amount && a.currency == b.currency
    && a.gatewayStatus == b.gatewayStatus && a.raw == b.raw && a.receivedAt == b.receivedAt
    && (a.orderId.Some? ==> b.orderId == a.orderId) && a.attempts <= b.attempts
    && (a.processedAt.Some? ==> b.processedAt.Some?)
  }

  predicate SameOrder(a: Order, b: Order) {
    a.amount == b.amount && a.currency == b.currency && a.createdAt == b.createdAt
  }

  /** An entry changes only by being settled, and then never again. */
  predicate SameEntry(a: Entry, b: Entry) {
    if a.settlement.Settled? then b == a else b == a.(settlement := b.settlement)
  }

  ghost predicate Grows(a: Db, b: Db) {
    && (forall e | e in a.events :: e in b.events && SameFacts(a.events[e], b.events[e]))
    && (forall o | o in a.orders :: o in b.orders && SameOrder(a.orders[o], b.orders[o]))
    && (forall g | g in a.byGateway :: g in b.byGateway && b.byGateway[g] == a.byGateway[g])
    && |a.ledger| <= |b.ledger| && (forall i | 0 <= i < |a.ledger| :: SameEntry(a.ledger[i], b.ledger[i]))
    && |a.records| <= |b.records| && (forall i | 0 <= i < |a.records| :: b.records[i] == a.records[i])
    && (forall e | e in a.deadLetters :: e in b.deadLetters && b.deadLetters[e] == a.deadLetters[e])
    && a.upserts <= b.upserts
  }

  // ---------- actors ----------

  ghost predicate CopyOk(db: Db, e: nat, row: Event) {
    e in db.events && SameFacts(row, db.events[e])
  }

  ghost predicate FoundOk(db: Db, f: Found) {
    f.id in db.orders && SameOrder(f.order, db.orders[f.id])
  }

  ghost predicate ResolvedOk(db: Db, e: nat, f: Found) {
    FoundOk(db, f) && e in db.events && db.events[e].orderId == Some(f.id)
  }

  ghost predicate VerdictOk(cfg: Config, row: Event, f: Found, to: OrderStatus, state: ReconciliationState) {
    Judge(row, Some(f.order), cfg.delayThreshold) == Verdict(state, [], Some(to))
  }

  ghost predicate StageOk(cfg: Config, db: Db, e: nat, stage: Stage) {
    match stage
    case FindOrder(row) => CopyOk(db, e, row)
    case Attach(row, f) => CopyOk(db, e, row) && FoundOk(db, f) && f.id == row.raw.orderId && row.orderId.None?
    case WriteMismatches(row, order, v) =>
      && CopyOk(db, e, row) && (order.Some? ==> ResolvedOk(db, e, order.value))
      && v == Judge(row, OrderOf(order), cfg.delayThreshold)
    case SetStatus(row, f, to, state) =>
      CopyOk(db, e, row) && ResolvedOk(db, e, f) && VerdictOk(cfg, row, f, to, state)
    case Commit(row, f, to, state) =>
      CopyOk(db, e, row) && ResolvedOk(db, e, f) && VerdictOk(cfg, row, f, to, state)
    case Mark(state) => !state.DeadLettered?
    case Bury(n) => n >= cfg.maxAttempts
    case MarkBuried => e in db.deadLetters
    case Release(Buried) => e in db.deadLetters
    case _ => true
  }

  ghost predicate JobOk(cfg: Config, db: Db, job: Job) {
    job.event in db.events && StageOk(cfg, db, job.event, job.stage)
  }

  predicate RangeOk(cfg: Config, log: seq<nat>, i: nat, end: nat) {
    i < end <= |log| && end <= i + cfg.batchSize
  }

  ghost predicate WorkerOk(cfg: Config, db: Db, log: seq<nat>, wk: Worker) {
    match wk
    case Reading => true
    case Locking(i, end) => RangeOk(cfg, log, i, end)
    case Skipping(i, end) => RangeOk(cfg, log, i, end)
    case Working(i, end, job) => RangeOk(cfg, log, i, end) && job.event == log[i] && JobOk(cfg, db, job)
  }

  ghost predicate HandlerOk(db: Db, h: Handler) {
    match h
    case Marking(p) => WellFormed(p)
    case Resolving(p) => WellFormed(p)
    case Upserting(p, order) => WellFormed(p) && (order.Some? ==> order.value == p.orderId && p.orderId in db.orders)
    case Publishing(e) => e in db.events
  }

  ghost predicate AllEvents(db: Db, es: seq<nat>) {
    forall k | 0 <= k < |es| :: es[k] in db.events
  }

  ghost predicate PollerOk(db: Db, p: Poller) {
    match p
    case Removing(due) => AllEvents(db, due)
    case Promoting(rest) => AllEvents(db, rest)
  }

  ghost predicate UploadOk(db: Db, up: Upload) {
    match up.stage
    case Recording(e, status) =>
      up.next < |Rows(up.file)| && RecordOk(db, Record(up.file, Rows(up.file)[up.next], status, e))
    case Settling(e, r) => r < |db.records| && db.records[r].status.Matched? && db.records[r].event == Some(e)
    case _ => true
  }

  ghost predicate QueueOk(s: State) {
    && AllEvents(s.db, s.cache.log) && s.cache.cursor <= |s.cache.log|
    && (forall x | x in s.cache.retry :: x.id in s.db.events)
    && SortedSet.Valid(s.cache.retry)
  }

  ghost predicate ActorsOk(cfg: Config, s: State) {
    && (forall w | w in s.workers :: WorkerOk(cfg, s.db, s.cache.log, s.workers[w]))
    && (forall h | h in s.handlers :: HandlerOk(s.db, s.handlers[h]))
    && (forall p | p in s.pollers :: PollerOk(s.db, s.pollers[p]))
    && (forall n | n in s.uploads :: UploadOk(s.db, s.uploads[n]))
  }

  ghost predicate Inv(cfg: Config, s: State) {
    DbOk(cfg, s.db) && QueueOk(s) && ActorsOk(cfg, s)
  }

  // ---------- stability ----------

  lemma StageStable(cfg: Config, a: Db, b: Db, e: nat, stage: Stage)
    requires Grows(a, b) && e in a.events && StageOk(cfg, a, e, stage)
    ensures StageOk(cfg, b, e, stage)
  {}

  lemma ActorsStable(cfg: Config, s: State, b: Db, log: seq<nat>)
    requires ActorsOk(cfg, s) && Grows(s.db, b) && s.cache.log <= log
    ensures forall w | w in s.workers :: WorkerOk(cfg, b, log, s.workers[w])
    ensures forall h | h in s.handlers :: HandlerOk(b, s.handlers[h])
    ensures forall p | p in s.pollers :: PollerOk(b, s.pollers[p])
    ensures forall n | n in s.uploads :: UploadOk(b, s.uploads[n])
  {
    forall w | w in s.workers ensures WorkerOk(cfg, b, log, s.workers[w]) {
      if s.workers[w].Working? {
        StageStable(cfg, s.db, b, s.workers[w].job.event, s.workers[w].job.stage);
      }
    }
  }

  /** Every actor of `t` is either one of `s` or known to be consistent. */
  lemma ActorsCarry(cfg: Config, s: State, t: State)
    requires ActorsOk(cfg, s) && Grows(s.db, t.db) && s.cache.log <= t.cache.log
    requires forall w | w in t.workers ::
               (w in s.workers && t.workers[w] == s.workers[w]) || WorkerOk(cfg, t.db, t.cache.log, t.workers[w])
    requires forall h | h in t.handlers ::
               (h in s.handlers && t.handlers[h] == s.handlers[h]) || HandlerOk(t.db, t.handlers[h])
    requires forall p | p in t.pollers ::
               (p in s.pollers && t.pollers[p] == s.pollers[p]) || PollerOk(t.db, t.pollers[p])
    requires forall n | n in t.uploads ::
               (n in s.uploads && t.uploads[n] == s.uploads[n]) || UploadOk(t.db, t.uploads[n])
    ensures ActorsOk(cfg, t)
  {
    ActorsStable(cfg, s, t.db, t.cache.log);
  }

  /** A database that grows with the same ledger keeps its pairs. */
  lemma PairStable(a: Db, b: Db, d: Entry, c: Entry)
    requires Grows(a, b) && PairOk(a, d, c)
    ensures PairOk(b, d, c)
  {}

  lemma LedgerStable(a: Db, b: Db)
    requires Grows(a, b) && LedgerOk(a) && b.ledger == a.ledger
    ensures LedgerOk(b)
  {
    forall i | 0 <= i < |b.ledger| && i % 2 == 0 ensures PairOk(b, b.ledger[i], b.ledger[i + 1]) {
      PairStable(a, b, b.ledger[i], b.ledger[i + 1]);
    }
  }

  lemma TablesStable(cfg: Config, a: Db, b: Db)
    requires RecordsOk(a) && LedgerOk(a) && DeadOk(cfg, a) && Grows(a, b)
    requires b.ledger == a.ledger && b.records == a.records && b.deadLetters == a.deadLetters
    ensures RecordsOk(b) && LedgerOk(b) && DeadOk(cfg, b)
  {
    LedgerStable(a, b);
  }

  // ---------- commands on the database ----------

  lemma EventsStable(a: Db, b: Db, e: nat)
    requires EventsOk(a) && b.byGateway == a.byGateway && b.events.Keys == a.events.Keys
        && a.orders.Keys <= b.orders.Keys
    requires a.deadLetters.Keys <= b.deadLetters.Keys
    requires forall x | x in a.events && x != e :: b.events[x] == a.events[x]
    requires e in b.events ==> SameFacts(a.events[e], b.events[e]) && EventOk(b, e)
    ensures EventsOk(b)
  {
    forall x | x in b.events ensures EventOk(b, x) {
      assert EventOk(a, x);
    }
  }

  /** Rewriting an event row within its facts. */
  lemma UpdateEventKeeps(cfg: Config, db: Db, e: nat, row: Event)
    requires DbOk(cfg, db) && e in db.events && SameFacts(db.events[e], row)
    requires row.orderId.Some? ==> row.orderId.value == row.raw.orderId && row.orderId.value in db.orders
    requires row.state.DeadLettered? ==> e in db.deadLetters
    ensures DbOk(cfg, UpdateEvent(db, e, row)) && Grows(db, UpdateEvent(db, e, row))
  {
    var db' := UpdateEvent(db, e, row);
    assert EventOk(db, e);
    EventsStable(db, db', e);
    UpdateEventGrows(db, e, row);
    TablesStable(cfg, db, db');
  }

  lemma UpdateEventGrows(db: Db, e: nat, row: Event)
    requires e in db.events && SameFacts(db.events[e], row)
    ensures Grows(db, UpdateEvent(db, e, row))
  {}

  lemma UpdateStatusKeeps(cfg: Config, db: Db, o: nat, to: OrderStatus)
    requires DbOk(cfg, db)
    ensures DbOk(cfg, UpdateStatus(db, o, to)) && Grows(db, UpdateStatus(db, o, to))
  {
    var db' := UpdateStatus(db, o, to);
    OrdersGrow(db, db');
    OrderRowsChange(db, db');
    TablesStable(cfg, db, db');
  }

  lemma OrdersGrow(db: Db, db': Db)
    requires db' == db.(orders := db'.orders, flips := db'.flips)
    requires forall o | o in db.orders :: o in db'.orders && SameOrder(db.orders[o], db'.orders[o])
    ensures Grows(db, db')
  {}

  lemma OrderRowsChange(db: Db, db': Db)
    requires EventsOk(db) && db' == db.(orders := db'.orders, flips := db'.flips) && db.orders.Keys <= db'.orders.Keys
    ensures EventsOk(db')
  {
    forall x | x in db'.events ensures EventOk(db', x) {
      assert EventOk(db, x);
    }
  }

  lemma InsertOrderKeeps(cfg: Config, db: Db, o: nat, amount: int, currency: string, now: nat)
    requires DbOk(cfg, db) && o !in db.orders
    ensures var db' := InsertOrder(db, o, amount, currency, now); DbOk(cfg, db') && Grows(db, db')
  {
    var db' := InsertOrder(db, o, amount, currency, now);
    OrdersGrow(db, db');
    OrderRowsChange(db, db');
    TablesStable(cfg, db, db');
  }

  lemma BuryKeeps(cfg: Config, db: Db, e: nat, n: nat)
    requires DbOk(cfg, db) && e in db.events && e !in db.deadLetters && n >= cfg.maxAttempts
    ensures var db' := InsertDeadLetter(db, e, n); DbOk(cfg, db') && Grows(db, db') && e in db'.deadLetters
  {
    var db' := InsertDeadLetter(db, e, n);
    assert EventOk(db, e);
    EventsStable(db, db', e);
    BuryGrows(db, e, n);
    LedgerStable(db, db');
  }

  lemma BuryGrows(db: Db, e: nat, n: nat)
    requires e !in db.deadLetters
    ensures Grows(db, InsertDeadLetter(db, e, n))
  {}

  lemma UpsertTables(db: Db, id: nat, p: Payload, order: Option<nat>)
    ensures var db' := UpsertPending(db, id, p, order);
            db'.ledger == db.ledger && db'.records == db.records && db'.deadLetters == db.deadLetters
  {}

  lemma UpsertKeeps(cfg: Config, db: Db, id: nat, p: Payload, order: Option<nat>)
    requires DbOk(cfg, db) && id !in db.events && WellFormed(p)
    requires order.Some? ==> order.value == p.orderId && p.orderId in db.orders
    ensures var db' := UpsertPending(db, id, p, order); DbOk(cfg, db') && Grows(db, db')
  {
    UpsertGrows(db, id, p, order);
    UpsertEvents(db, id, p, order);
    UpsertTables(db, id, p, order);
    TablesStable(cfg, db, UpsertPending(db, id, p, order));
  }

  lemma UpsertGrows(db: Db, id: nat, p: Payload, order: Option<nat>)
    requires id !in db.events
    ensures Grows(db, UpsertPending(db, id, p, order))
  {}

  lemma NewRowOk(db: Db, id: nat, p: Payload, order: Option<nat>)
    requires id !in db.events && WellFormed(p) && p.gatewayId !in db.byGateway
    requires order.Some? ==> order.value == p.orderId && p.orderId in db.orders
    ensures EventOk(UpsertPending(db, id, p, order), id)
  {}

  lemma UpsertEvents(db: Db, id: nat, p: Payload, order: Option<nat>)
    requires EventsOk(db) && id !in db.events && WellFormed(p)
    requires order.Some? ==> order.value == p.orderId && p.orderId in db.orders
    ensures EventsOk(UpsertPending(db, id, p, order))
  {
    var db' := UpsertPending(db, id, p, order);
    forall x | x in db.events ensures EventOk(db', x) {
      assert EventOk(db, x);
      OldRowOk(db, db', x);
    }
    if p.gatewayId !in db.byGateway {
      NewRowOk(db, id, p, order);
      IndexGrows(db, db', id, p.gatewayId);
    }
  }

  lemma IndexGrows(db: Db, db': Db, id: nat, g: nat)
    requires EventsOk(db) && db'.byGateway == db.byGateway[g := id] && id in db'.events && db'.events[id].gatewayId == g
    requires forall x | x in db.events :: x in db'.events && db'.events[x].gatewayId == db.events[x].gatewayId
    ensures forall g | g in db'.byGateway ::
              db'.byGateway[g] in db'.events && db'.events[db'.byGateway[g]].gatewayId == g
  {}

  lemma OldRowOk(db: Db, db': Db, x: nat)
    requires x in db.events && EventOk(db, x) && x in db'.events && db'.events[x] == db.events[x]
    requires db'.orders == db.orders && db'.deadLetters == db.deadLetters
    requires db.events[x].gatewayId in db'.byGateway && db'.byGateway[db.events[x].gatewayId] == x
    ensures EventOk(db', x)
  {}

  lemma MarkKeeps(cfg: Config, now: nat, e: nat, db: Db, state: ReconciliationState)
    requires DbOk(cfg, db) && e in db.events && (state.DeadLettered? ==> e in db.deadLetters)
    ensures var db' := MarkProcessed(db, e, state, now); DbOk(cfg, db') && Grows(db, db')
  {
    assert EventOk(db, e);
    UpdateEventKeeps(cfg, db, e, db.events[e].(state := state, processedAt := Some(now)));
  }

  /** The transaction of an accepted verdict adds one pair. */
  lemma {:induction false} CommitKeeps(cfg: Config, db: Db, e: nat, row: Event, f: Found, to: OrderStatus,
      state: ReconciliationState, now: nat)
    requires DbOk(cfg, db) && CopyOk(db, e, row) && ResolvedOk(db, e, f) && VerdictOk(cfg, row, f, to, state)
    ensures var drafts := CreateLedgerEntries(row.amount, row.currency, to);
            var db' := CommitBooking(db, e, f.id, drafts, state, now);
            DbOk(cfg, db') && Grows(db, db') && |drafts| == 2 && db'.ledger == db.ledger + Booked(e, f.id, drafts)
  {
    VerdictMovesExactlyAccepted(row, Some(f.order), cfg.delayThreshold);
    var drafts := CreateLedgerEntries(row.amount, row.currency, to);
    var mid := db.(ledger := db.ledger + Booked(e, f.id, drafts));
    PairAppended(cfg, db, e, row, f, to);
    MarkKeeps(cfg, now, e, mid, state);
    GrowsTransitive(db, mid, MarkProcessed(mid, e, state, now));
  }

  lemma PairAppended(cfg: Config, db: Db, e: nat, row: Event, f: Found, to: OrderStatus)
    requires DbOk(cfg, db) && CopyOk(db, e, row) && ResolvedOk(db, e, f)
    requires to.Paid? || to.Refunded?
    requires Accepted(row, f.order, cfg.delayThreshold)
    ensures var mid := db.(ledger := db.ledger + Booked(e, f.id, CreateLedgerEntries(row.amount, row.currency, to)));
            DbOk(cfg, mid) && Grows(db, mid)
  {
    var pair := Booked(e, f.id, CreateLedgerEntries(row.amount, row.currency, to));
    var mid := db.(ledger := db.ledger + pair);
    LedgerOnlyGrows(db, mid);
    assert EventOk(db, e);
    assert PairOk(mid, pair[0], pair[1]);
    forall i | 0 <= i < |mid.ledger| && i % 2 == 0 ensures PairOk(mid, mid.ledger[i], mid.ledger[i + 1]) {
      if i < |db.ledger| {
        PairStable(db, mid, db.ledger[i], db.ledger[i + 1]);
      }
    }
  }

  lemma LedgerOnlyGrows(db: Db, mid: Db)
    requires EventsOk(db) && db.ledger <= mid.ledger && mid == db.(ledger := mid.ledger)
    ensures EventsOk(mid) && Grows(db, mid)
  {
    forall x | x in mid.events ensures EventOk(mid, x) {
      assert EventOk(db, x);
    }
  }

  lemma GrowsReflexive(a: Db)
    ensures Grows(a, a)
  {}

  lemma GrowsTransitive(a: Db, b: Db, c: Db)
    requires Grows(a, b) && Grows(b, c)
    ensures Grows(a, c)
  {}

  /** Settling flips both halves of each pair of the event, once. */
  lemma SettleKeeps(cfg: Config, db: Db, e: nat, r: nat, now: nat)
    requires DbOk(cfg, db) && r < |db.records| && db.records[r].status.Matched? && db.records[r].event == Some(e)
    ensures var db' := SettleForEvent(db, e, r, now); DbOk(cfg, db') && Grows(db, db')
  {
    var db' := SettleForEvent(db, e, r, now);
    assert RecordOk(db, db.records[r]);
    forall i | 0 <= i < |db'.ledger| && i % 2 == 0 ensures PairOk(db', db'.ledger[i], db'.ledger[i + 1]) {
      assert PairOk(db, db.ledger[i], db.ledger[i + 1]);
    }
    forall x | x in db'.events ensures EventOk(db', x) {
      assert EventOk(db, x);
    }
  }

  lemma InsertRecordKeeps(cfg: Config, db: Db, r: Record)
    requires DbOk(cfg, db) && RecordOk(db, r)
    ensures DbOk(cfg, InsertRecord(db, r)) && Grows(db, InsertRecord(db, r))
  {
    var db' := InsertRecord(db, r);
    forall x | x in db'.events ensures EventOk(db', x) {
      assert EventOk(db, x);
    }
    LedgerStable(db, db');
  }

  /** Tables that no other table refers to. */
  lemma SideTablesKeep(cfg: Config, db: Db, db': Db)
    requires DbOk(cfg, db) && db' == db.(mismatches := db'.mismatches, batches := db'.batches)
    ensures DbOk(cfg, db') && Grows(db, db')
  {
    forall x | x in db'.events ensures EventOk(db', x) {
      assert EventOk(db, x);
    }
    LedgerStable(db, db');
  }

  // ---------- workers ----------

  lemma AfterOrderOk(cfg: Config, db: Db, e: nat, row: Event, order: Option<Found>)
    requires CopyOk(db, e, row) && (order.Some? ==> ResolvedOk(db, e, order.value))
    ensures StageOk(cfg, db, e, AfterOrder(cfg, row, order))
  {
    VerdictMovesExactlyAccepted(row, OrderOf(order), cfg.delayThreshold);
  }

  lemma FindKeeps(cfg: Config, now: nat, e: nat, db: Db, stage: Stage)
    requires DbOk(cfg, db) && e in db.events && StageOk(cfg, db, e, stage) && (stage.FindEvent? || stage.FindOrder?)
    ensures var (db', stage') := RunCommand(cfg, now, e, db, stage);
            DbOk(cfg, db') && Grows(db, db') && StageOk(cfg, db', e, stage')
  {
    GrowsReflexive(db);
    assert EventOk(db, e);
    if stage.FindOrder? {
      var row := stage.row;
      if row.orderId.Some? {
        AfterOrderOk(cfg, db, e, row, Lookup(db, row.orderId.value));
      } else if Lookup(db, row.raw.orderId).None? {
        AfterOrderOk(cfg, db, e, row, None);
      }
    }
  }

  lemma AttachKeeps(cfg: Config, now: nat, e: nat, db: Db, stage: Stage)
    requires DbOk(cfg, db) && e in db.events && StageOk(cfg, db, e, stage) && stage.Attach?
    ensures var (db', stage') := RunCommand(cfg, now, e, db, stage);
            DbOk(cfg, db') && Grows(db, db') && StageOk(cfg, db', e, stage')
  {
    assert EventOk(db, e);
    UpdateEventKeeps(cfg, db, e, db.events[e].(orderId := Some(stage.found.id)));
    AfterOrderOk(cfg, AttachOrder(db, e, stage.found.id), e, stage.row, Some(stage.found));
  }

  lemma WriteMismatchesKeeps(cfg: Config, now: nat, e: nat, db: Db, stage: Stage)
    requires DbOk(cfg, db) && e in db.events && StageOk(cfg, db, e, stage) && stage.WriteMismatches?
    ensures var (db', stage') := RunCommand(cfg, now, e, db, stage);
            DbOk(cfg, db') && Grows(db, db') && StageOk(cfg, db', e, stage')
  {
    SideTablesKeep(cfg, db, InsertMismatches(db, e, stage.verdict.mismatches));
    VerdictMovesExactlyAccepted(stage.row, OrderOf(stage.order), cfg.delayThreshold);
  }

  lemma SetStatusKeeps(cfg: Config, now: nat, e: nat, db: Db, stage: Stage)
    requires DbOk(cfg, db) && e in db.events && StageOk(cfg, db, e, stage) && stage.SetStatus?
    ensures var (db', stage') := RunCommand(cfg, now, e, db, stage);
            DbOk(cfg, db') && Grows(db, db') && StageOk(cfg, db', e, stage')
  {
    UpdateStatusKeeps(cfg, db, stage.found.id, stage.to);
    StageStable(cfg, db, UpdateStatus(db, stage.found.id, stage.to), e, Commit(stage.row, stage.found, stage.to,
      stage.state));
  }

  lemma CommitStageKeeps(cfg: Config, now: nat, e: nat, db: Db, stage: Stage)
    requires DbOk(cfg, db) && e in db.events && StageOk(cfg, db, e, stage) && stage.Commit?
    ensures var (db', stage') := RunCommand(cfg, now, e, db, stage);
            DbOk(cfg, db') && Grows(db, db') && StageOk(cfg, db', e, stage')
  {
    CommitKeeps(cfg, db, e, stage.row, stage.found, stage.to, stage.state, now);
  }

  lemma MarkStageKeeps(cfg: Config, now: nat, e: nat, db: Db, stage: Stage)
    requires DbOk(cfg, db) && e in db.events && StageOk(cfg, db, e, stage) && stage.Mark?
    ensures var (db', stage') := RunCommand(cfg, now, e, db, stage);
            DbOk(cfg, db') && Grows(db, db') && StageOk(cfg, db', e, stage')
  {
    MarkKeeps(cfg, now, e, db, stage.state);
  }

  lemma RunCommandKeeps(cfg: Config, now: nat, e: nat, db: Db, stage: Stage)
    requires DbOk(cfg, db) && e in db.events && StageOk(cfg, db, e, stage) && InRun(stage)
    ensures var (db', stage') := RunCommand(cfg, now, e, db, stage);
            DbOk(cfg, db') && Grows(db, db') && StageOk(cfg, db', e, stage')
  {
    if stage.Attach? {
      AttachKeeps(cfg, now, e, db, stage);
    } else if stage.WriteMismatches? {
      WriteMismatchesKeeps(cfg, now, e, db, stage);
    } else if stage.SetStatus? {
      SetStatusKeeps(cfg, now, e, db, stage);
    } else if stage.Commit? {
      CommitStageKeeps(cfg, now, e, db, stage);
    } else if stage.Mark? {
      MarkStageKeeps(cfg, now, e, db, stage);
    } else {
      FindKeeps(cfg, now, e, db, stage);
    }
  }

  lemma IncrementKeeps(cfg: Config, now: nat, u: real, e: nat, i: nat, db: Db, cache: Cache, stage: Stage)
    requires DbOk(cfg, db) && e in db.events && StageOk(cfg, db, e, stage) && stage.Increment?
    ensures var reply := HandleCommand(cfg, now, u, e, i, db, cache, stage);
            DbOk(cfg, reply.db) && Grows(db, reply.db) && StageOk(cfg, reply.db, e, reply.stage)
  {
    assert EventOk(db, e);
    UpdateEventKeeps(cfg, db, e, db.events[e].(attempts := db.events[e].attempts + 1));
  }

  lemma BuryingKeeps(cfg: Config, now: nat, u: real, e: nat, i: nat, db: Db, cache: Cache, stage: Stage)
    requires DbOk(cfg, db) && e in db.events && StageOk(cfg, db, e, stage) && stage.Bury?
    ensures var reply := HandleCommand(cfg, now, u, e, i, db, cache, stage);
            DbOk(cfg, reply.db) && Grows(db, reply.db) && StageOk(cfg, reply.db, e, reply.stage)
  {
    GrowsReflexive(db);
    if e !in db.deadLetters {
      BuryKeeps(cfg, db, e, stage.attempts);
    }
  }

  lemma MarkFailedKeeps(cfg: Config, now: nat, u: real, e: nat, i: nat, db: Db, cache: Cache, stage: Stage)
    requires DbOk(cfg, db) && e in db.events && StageOk(cfg, db, e, stage) && stage.MarkFailedState?
    ensures var reply := HandleCommand(cfg, now, u, e, i, db, cache, stage);
            DbOk(cfg, reply.db) && Grows(db, reply.db) && StageOk(cfg, reply.db, e, reply.stage)
  {
    assert EventOk(db, e);
    UpdateEventKeeps(cfg, db, e, db.events[e].(state := ReconciliationState.Failed));
  }

  lemma MarkBuriedKeeps(cfg: Config, now: nat, u: real, e: nat, i: nat, db: Db, cache: Cache, stage: Stage)
    requires DbOk(cfg, db) && e in db.events && StageOk(cfg, db, e, stage) && stage.MarkBuried?
    ensures var reply := HandleCommand(cfg, now, u, e, i, db, cache, stage);
            DbOk(cfg, reply.db) && Grows(db, reply.db) && StageOk(cfg, reply.db, e, reply.stage)
  {
    MarkKeeps(cfg, now, e, db, DeadLettered);
  }

  lemma QueueCommandKeeps(cfg: Config, now: nat, u: real, e: nat, i: nat, db: Db, cache: Cache, stage: Stage)
    requires DbOk(cfg, db) && e in db.events && StageOk(cfg, db, e, stage)
        && (stage.AckReturned? || stage.AckFailed? || stage.Reschedule?)
    ensures var reply := HandleCommand(cfg, now, u, e, i, db, cache, stage);
            DbOk(cfg, reply.db) && Grows(db, reply.db) && StageOk(cfg, reply.db, e, reply.stage)
  {
    GrowsReflexive(db);
  }

  lemma FailureCommandKeeps(cfg: Config, now: nat, u: real, e: nat, i: nat, db: Db, cache: Cache, stage: Stage)
    requires DbOk(cfg, db) && e in db.events && StageOk(cfg, db, e, stage) && !stage.Release? && !InRun(stage)
    ensures var reply := HandleCommand(cfg, now, u, e, i, db, cache, stage);
            DbOk(cfg, reply.db) && Grows(db, reply.db) && StageOk(cfg, reply.db, e, reply.stage)
  {
    match stage {
      case Increment => IncrementKeeps(cfg, now, u, e, i, db, cache, stage);
      case Bury(_) => BuryingKeeps(cfg, now, u, e, i, db, cache, stage);
      case MarkBuried => MarkBuriedKeeps(cfg, now, u, e, i, db, cache, stage);
      case MarkFailedState(_) => MarkFailedKeeps(cfg, now, u, e, i, db, cache, stage);
      case _ => QueueCommandKeeps(cfg, now, u, e, i, db, cache, stage);
    }
  }

  lemma HandleCommandKeeps(cfg: Config, now: nat, u: real, e: nat, i: nat, db: Db, cache: Cache, stage: Stage)
    requires DbOk(cfg, db) && e in db.events && StageOk(cfg, db, e, stage) && !stage.Release?
    ensures var reply := HandleCommand(cfg, now, u, e, i, db, cache, stage);
            DbOk(cfg, reply.db) && Grows(db, reply.db) && StageOk(cfg, reply.db, e, reply.stage)
  {
    if InRun(stage) {
      RunCommandKeeps(cfg, now, e, db, stage);
    } else {
      FailureCommandKeeps(cfg, now, u, e, i, db, cache, stage);
    }
  }

  lemma HandleCommandQueue(cfg: Config, now: nat, u: real, e: nat, i: nat, db: Db, cache: Cache, stage: Stage)
    requires !stage.Release?
    ensures var c := HandleCommand(cfg, now, u, e, i, db, cache, stage).cache;
            && c == cache.(pending := c.pending, retry := c.retry)
            && (SortedSet.Valid(cache.retry) ==> SortedSet.Valid(c.retry))
            && (forall x | x in c.retry :: x in cache.retry || x.id == e)
            && Members(c.retry) == Members(cache.retry) + (if stage.Reschedule? then {e} else {})
  {
    if stage.Reschedule? {
      AddContents(cache.retry, e, now + NonNegative(Backoff.BackoffMs(stage.attempts, u)));
    }
  }

  /** A worker's step that touches neither the database nor the queues' contents. */
  lemma WorkerMoves(cfg: Config, s: State, w: nat, wk: Worker, cache: Cache)
    requires Inv(cfg, s) && WorkerOk(cfg, s.db, cache.log, wk)
    requires cache.log == s.cache.log && cache.retry == s.cache.retry && cache.cursor <= |cache.log|
    ensures Inv(cfg, s.(cache := cache, workers := s.workers[w := wk]))
  {
    ActorsCarry(cfg, s, s.(cache := cache, workers := s.workers[w := wk]));
  }

  /** A worker's step on the tables and the retry schedule. */
  lemma WorkerWrites(cfg: Config, s: State, w: nat, wk: Worker, db: Db, cache: Cache, returned: set<nat>, e: nat)
    requires Inv(cfg, s) && DbOk(cfg, db) && Grows(s.db, db) && e in s.db.events
    requires cache.log == s.cache.log && cache.cursor == s.cache.cursor && SortedSet.Valid(cache.retry)
    requires forall x | x in cache.retry :: x in s.cache.retry || x.id == e
    requires WorkerOk(cfg, db, cache.log, wk)
    ensures Inv(cfg, s.(db := db, cache := cache, workers := s.workers[w := wk], returned := returned))
  {
    var s' := s.(db := db, cache := cache, workers := s.workers[w := wk], returned := returned);
    CommandQueueOk(cfg, s, s', e);
    ActorsCarry(cfg, s, s');
  }

  lemma CommandKeeps(cfg: Config, s: State, w: nat, i: nat, end: nat, job: Job, fault: Fault, u: real)
    requires Inv(cfg, s) && !job.stage.Release?
    requires WorkerOk(cfg, s.db, s.cache.log, Working(i, end, job))
    ensures var s' := DoCommand(cfg, s, w, i, end, job, fault, u); Inv(cfg, s') && Grows(s.db, s'.db)
  {
    var s' := DoCommand(cfg, s, w, i, end, job, fault, u);
    GrowsReflexive(s.db);
    if fault.Before? {
      WorkerWrites(cfg, s, w, Working(i, end, job.(stage := OnThrow(job.stage))), s.db, s.cache, s.returned, job.event);
    } else {
      HandleCommandKeeps(cfg, s.now, u, job.event, i, s.db, s.cache, job.stage);
      HandleCommandQueue(cfg, s.now, u, job.event, i, s.db, s.cache, job.stage);
      var reply := HandleCommand(cfg, s.now, u, job.event, i, s.db, s.cache, job.stage);
      var stage' := if fault.NoFault? then reply.stage else OnThrow(job.stage);
      WorkerWrites(cfg, s, w, Working(i, end, job.(stage := stage')), reply.db, reply.cache, s'.returned, job.event);
    }
  }

  lemma CommandQueueOk(cfg: Config, s: State, s': State, e: nat)
    requires QueueOk(s) && Grows(s.db, s'.db) && e in s.db.events
    requires s'.cache.log == s.cache.log && s'.cache.cursor == s.cache.cursor && SortedSet.Valid(s'.cache.retry)
    requires forall x | x in s'.cache.retry :: x in s.cache.retry || x.id == e
    ensures QueueOk(s')
  {}

  lemma WorkKeeps(cfg: Config, s: State, w: nat, fault: Fault, u: real)
    requires Inv(cfg, s) && w in s.workers
    ensures var s' := DoWork(cfg, s, w, fault, u); Inv(cfg, s') && Grows(s.db, s'.db)
  {
    assert WorkerOk(cfg, s.db, s.cache.log, s.workers[w]);
    GrowsReflexive(s.db);
    match s.workers[w] {
      case Reading => ReadKeeps(cfg, s, w, fault);
      case Locking(i, end) => LockKeeps(cfg, s, w, i, end, fault);
      case Skipping(i, end) => SkipKeeps(cfg, s, w, i, end, fault);
      case Working(i, end, job) =>
        if job.stage.Release? {
          ReleaseKeeps(cfg, s, w, i, end, job, fault);
        } else {
          CommandKeeps(cfg, s, w, i, end, job, fault, u);
        }
    }
  }

  lemma ReadKeeps(cfg: Config, s: State, w: nat, fault: Fault)
    requires Inv(cfg, s) && w in s.workers
    ensures var s' := DoRead(cfg, s, w, fault); Inv(cfg, s') && s'.db == s.db
  {
    var s' := DoRead(cfg, s, w, fault);
    if !fault.Before? {
      WorkerMoves(cfg, s, w, s'.workers[w], s'.cache);
    }
  }

  lemma LockKeeps(cfg: Config, s: State, w: nat, i: nat, end: nat, fault: Fault)
    requires Inv(cfg, s) && RangeOk(cfg, s.cache.log, i, end)
    ensures var s' := DoLock(cfg, s, w, i, end, fault); Inv(cfg, s') && s'.db == s.db
  {
    var s' := DoLock(cfg, s, w, i, end, fault);
    assert s.cache.log[i] in s.db.events;
    WorkerMoves(cfg, s, w, s'.workers[w], s'.cache);
  }

  lemma SkipKeeps(cfg: Config, s: State, w: nat, i: nat, end: nat, fault: Fault)
    requires Inv(cfg, s) && RangeOk(cfg, s.cache.log, i, end)
    ensures var s' := DoSkip(s, w, i, end, fault); Inv(cfg, s') && s'.db == s.db
  {
    var s' := DoSkip(s, w, i, end, fault);
    WorkerMoves(cfg, s, w, s'.workers[w], s'.cache);
  }

  lemma ReleaseKeeps(cfg: Config, s: State, w: nat, i: nat, end: nat, job: Job, fault: Fault)
    requires Inv(cfg, s) && RangeOk(cfg, s.cache.log, i, end) && job.stage.Release?
    ensures var s' := DoRelease(s, w, i, end, job, fault); Inv(cfg, s') && s'.db == s.db
  {
    var s' := DoRelease(s, w, i, end, job, fault);
    WorkerMoves(cfg, s, w, s'.workers[w], s'.cache);
  }

  // ---------- the other actors ----------

  lemma HandlersMove(cfg: Config, s: State, hs: map<nat, Handler>)
    requires Inv(cfg, s)
    requires forall h | h in hs :: (h in s.handlers && hs[h] == s.handlers[h]) || HandlerOk(s.db, hs[h])
    ensures Inv(cfg, s.(handlers := hs))
  {}

  lemma WorkersMove(cfg: Config, s: State, ws: map<nat, Worker>)
    requires Inv(cfg, s)
    requires forall w | w in ws :: (w in s.workers && ws[w] == s.workers[w]) || ws[w].Reading?
    ensures Inv(cfg, s.(workers := ws))
  {}

  lemma PollersMove(cfg: Config, s: State, ps: map<nat, Poller>)
    requires Inv(cfg, s)
    requires forall p | p in ps :: (p in s.pollers && ps[p] == s.pollers[p]) || PollerOk(s.db, ps[p])
    ensures Inv(cfg, s.(pollers := ps))
  {}

  lemma UploadsMove(cfg: Config, s: State, us: map<nat, Upload>)
    requires Inv(cfg, s)
    requires forall n | n in us :: (n in s.uploads && us[n] == s.uploads[n]) || us[n].stage.Searching?
    ensures Inv(cfg, s.(uploads := us))
  {}

  lemma PromoteKeeps(cfg: Config, s: State, p: nat)
    requires Inv(cfg, s) && p in s.pollers
    ensures Inv(cfg, DoPromote(s, p))
  {
    assert PollerOk(s.db, s.pollers[p]);
    match s.pollers[p] {
      case Removing(due) =>
        WithoutContents(s.cache.retry, Ids(due));
        WithoutValid(s.cache.retry, Ids(due));
        CacheMoves(cfg, s, Unschedule(s.cache, due));
        PollersMove(cfg, s.(cache := Unschedule(s.cache, due)), s.pollers[p := Promoting(due)]);
      case Promoting(rest) =>
        if rest == [] {
          PollersMove(cfg, s, s.pollers - {p});
        } else {
          TailOfEvents(s.db, rest);
          CacheMoves(cfg, s, Publish(s.cache, rest[0]));
          PollersMove(cfg, s.(cache := Publish(s.cache, rest[0])), s.pollers[p := Promoting(rest[1..])]);
        }
    }
  }

  lemma TailOfEvents(db: Db, es: seq<nat>)
    requires AllEvents(db, es) && es != []
    ensures AllEvents(db, es[1..])
  {
    forall k | 0 <= k < |es| - 1 ensures es[1..][k] in db.events {
      assert es[1..][k] == es[k + 1];
    }
  }

  lemma CacheMoves(cfg: Config, s: State, cache: Cache)
    requires Inv(cfg, s) && cache.cursor == s.cache.cursor && SortedSet.Valid(cache.retry)
    requires forall x | x in cache.retry :: x in s.cache.retry
    requires cache.log == s.cache.log || exists e :: e in s.db.events && cache.log == s.cache.log + [e]
    ensures Inv(cfg, s.(cache := cache))
  {
    GrowsReflexive(s.db);
    ActorsCarry(cfg, s, s.(cache := cache));
  }

  lemma PollKeeps(cfg: Config, s: State, p: nat)
    requires Inv(cfg, s) && p !in s.pollers
    ensures Inv(cfg, DoPoll(cfg, s, p))
  {
    var due := Due(s.cache.retry, s.now, cfg.batchSize);
    if due != [] {
      DueAreEvents(s.db, s.cache.retry, s.now, cfg.batchSize);
      PollersMove(cfg, s, s.pollers[p := Removing(due)]);
    }
  }

  lemma DueAreEvents(db: Db, z: seq<Slot>, now: nat, limit: nat)
    requires SortedSet.Valid(z) && forall x | x in z :: x.id in db.events
    ensures AllEvents(db, Due(z, now, limit))
  {
    DueIsPrefix(z, now, limit);
    var due := Due(z, now, limit);
    forall k | 0 <= k < |due| ensures due[k] in db.events {
      assert z[k] in z;
    }
  }

  lemma QueueStable(s: State, t: State)
    requires QueueOk(s) && Grows(s.db, t.db) && t.cache.retry == s.cache.retry && t.cache.cursor == s.cache.cursor
    requires t.cache.log == s.cache.log || exists e :: e in t.db.events && t.cache.log == s.cache.log + [e]
    ensures QueueOk(t)
  {}

  lemma HandleKeeps(cfg: Config, s: State, h: nat, id: nat)
    requires Inv(cfg, s) && h in s.handlers
    ensures var s' := DoHandle(cfg, s, h, id); Inv(cfg, s') && Grows(s.db, s'.db)
  {
    GrowsReflexive(s.db);
    assert HandlerOk(s.db, s.handlers[h]);
    match s.handlers[h] {
      case Upserting(p, order) => if id !in s.db.events { UpsertHandleKeeps(cfg, s, h, id, p, order); }
      case Publishing(e) => HandlerMoves(cfg, s, Publish(s.cache, e), s.handlers - {h});
      case _ => HandlerMoves(cfg, s, DoHandle(cfg, s, h, id).cache, DoHandle(cfg, s, h, id).handlers);
    }
  }

  lemma HandlerMoves(cfg: Config, s: State, cache: Cache, hs: map<nat, Handler>)
    requires Inv(cfg, s) && cache.cursor == s.cache.cursor && cache.retry == s.cache.retry
    requires cache.log == s.cache.log || exists e :: e in s.db.events && cache.log == s.cache.log + [e]
    requires forall h | h in hs :: (h in s.handlers && hs[h] == s.handlers[h]) || HandlerOk(s.db, hs[h])
    ensures Inv(cfg, s.(cache := cache, handlers := hs))
  {
    CacheMoves(cfg, s, cache);
    HandlersMove(cfg, s.(cache := cache), hs);
  }

  lemma UpsertHandleKeeps(cfg: Config, s: State, h: nat, id: nat, p: Payload, order: Option<nat>)
    requires Inv(cfg, s) && id !in s.db.events && HandlerOk(s.db, Upserting(p, order))
    ensures var db' := UpsertPending(s.db, id, p, order);
            && p.gatewayId in db'.byGateway && Grows(s.db, db')
            && Inv(cfg, s.(db := db', handlers := s.handlers[h := Publishing(db'.byGateway[p.gatewayId])]))
  {
    var db' := UpsertPending(s.db, id, p, order);
    UpsertKeeps(cfg, s.db, id, p, order);
    assert p.gatewayId in db'.byGateway;
    UpsertStepKeeps(cfg, s, s.(db := db', handlers := s.handlers[h := Publishing(db'.byGateway[p.gatewayId])]), h);
  }

  lemma UpsertStepKeeps(cfg: Config, s: State, s': State, h: nat)
    requires Inv(cfg, s) && DbOk(cfg, s'.db) && Grows(s.db, s'.db) && h in s'.handlers
        && HandlerOk(s'.db, s'.handlers[h])
    requires s' == s.(db := s'.db, handlers := s.handlers[h := s'.handlers[h]])
    ensures Inv(cfg, s')
  {
    QueueStable(s, s');
    ActorsCarry(cfg, s, s');
  }

  lemma LookingKeeps(cfg: Config, db: Db, now: nat, up: Upload)
    requires DbOk(cfg, db) && up.stage.Looking?
    ensures var (db', up') := UploadCommand(db, now, up);
            DbOk(cfg, db') && Grows(db, db') && (up'.Some? ==> UploadOk(db', up'.value))
  {
    GrowsReflexive(db);
    if up.next < |Rows(up.file)| {
      var g := Rows(up.file)[up.next].gatewayId;
      assert g in db.byGateway ==> db.events[db.byGateway[g]].gatewayId == g;
    }
  }

  lemma RecordingKeeps(cfg: Config, db: Db, now: nat, up: Upload)
    requires DbOk(cfg, db) && UploadOk(db, up) && up.stage.Recording?
    ensures var (db', up') := UploadCommand(db, now, up);
            DbOk(cfg, db') && Grows(db, db') && (up'.Some? ==> UploadOk(db', up'.value))
  {
    InsertRecordKeeps(cfg, db, Record(up.file, Rows(up.file)[up.next], up.stage.status, up.stage.found));
  }

  lemma OtherUploadKeeps(cfg: Config, db: Db, now: nat, up: Upload)
    requires DbOk(cfg, db) && (up.stage.Searching? || up.stage.Creating? || up.stage.Finishing?)
    ensures var (db', up') := UploadCommand(db, now, up);
            DbOk(cfg, db') && Grows(db, db') && (up'.Some? ==> UploadOk(db', up'.value))
  {
    SideTablesKeep(cfg, db, UploadCommand(db, now, up).0);
  }

  lemma UploadCommandKeeps(cfg: Config, db: Db, now: nat, up: Upload)
    requires DbOk(cfg, db) && UploadOk(db, up)
    ensures var (db', up') := UploadCommand(db, now, up);
            DbOk(cfg, db') && Grows(db, db') && (up'.Some? ==> UploadOk(db', up'.value))
  {
    match up.stage {
      case Recording(_, _) => RecordingKeeps(cfg, db, now, up);
      case Settling(e, r) => SettleKeeps(cfg, db, e, r, now);
      case Looking => LookingKeeps(cfg, db, now, up);
      case _ => OtherUploadKeeps(cfg, db, now, up);
    }
  }

  lemma UploadKeeps(cfg: Config, s: State, n: nat)
    requires Inv(cfg, s) && n in s.uploads
    ensures var s' := DoUpload(s, n); Inv(cfg, s') && Grows(s.db, s'.db)
  {
    var s' := DoUpload(s, n);
    UploadCommandKeeps(cfg, s.db, s.now, s.uploads[n]);
    QueueStable(s, s');
    ActorsCarry(cfg, s, s');
  }

  // ---------- every run ----------

  /** Steps that write to no table, and take an actor in or out. */
  predicate Quiet(step: Step) {
    step.Tick? || step.Deliver? || step.DropHandler? || step.StartWorker? || step.Crash?
    || step.DropPoller? || step.StartUpload? || step.DropUpload?
  }

  lemma QuietKeeps(cfg: Config, s: State, step: Step)
    requires Inv(cfg, s) && Quiet(step)
    ensures Inv(cfg, Apply(cfg, s, step)) && Apply(cfg, s, step).db == s.db
  {
    match step {
      case Deliver(h, p) => if WellFormed(p) { HandlersMove(cfg, s, s.handlers[h := Marking(p)]); }
      case DropHandler(h) => HandlersMove(cfg, s, s.handlers - {h});
      case StartWorker(w) => WorkersMove(cfg, s, s.workers[w := Reading]);
      case Crash(w) => WorkersMove(cfg, s, s.workers - {w});
      case DropPoller(p) => PollersMove(cfg, s, s.pollers - {p});
      case StartUpload(n, file) => UploadsMove(cfg, s, s.uploads[n := Upload(file, 0, 0, 0, 0, Searching)]);
      case DropUpload(n) => UploadsMove(cfg, s, s.uploads - {n});
      case _ =>
    }
  }

  lemma OrderKeeps(cfg: Config, s: State, o: nat, amount: int, currency: string)
    requires Inv(cfg, s) && o !in s.db.orders
    ensures var s' := s.(db := InsertOrder(s.db, o, amount, currency, s.now)); Inv(cfg, s') && Grows(s.db, s'.db)
  {
    var s' := s.(db := InsertOrder(s.db, o, amount, currency, s.now));
    InsertOrderKeeps(cfg, s.db, o, amount, currency, s.now);
    QueueStable(s, s');
    ActorsCarry(cfg, s, s');
  }

  lemma QueueStepKeeps(cfg: Config, s: State, step: Step)
    requires Inv(cfg, s) && (step.Poll? || step.Promote?)
    ensures Inv(cfg, Apply(cfg, s, step)) && Apply(cfg, s, step).db == s.db
  {
    if step.Poll? && step.p !in s.pollers {
      PollKeeps(cfg, s, step.p);
    } else if step.Promote? && step.p in s.pollers {
      PromoteKeeps(cfg, s, step.p);
    }
  }

  lemma CreateKeeps(cfg: Config, s: State, o: nat, amount: int, currency: string)
    requires Inv(cfg, s)
    ensures var t := Apply(cfg, s, CreateOrder(o, amount, currency)); Inv(cfg, t) && Grows(s.db, t.db)
  {
    GrowsReflexive(s.db);
    if o !in s.db.orders {
      OrderKeeps(cfg, s, o, amount, currency);
    }
  }

  lemma WorkStepKeeps(cfg: Config, s: State, w: nat, fault: Fault, u: real)
    requires Inv(cfg, s)
    ensures var t := Apply(cfg, s, Work(w, fault, u)); Inv(cfg, t) && Grows(s.db, t.db)
  {
    GrowsReflexive(s.db);
    if w in s.workers {
      WorkKeeps(cfg, s, w, fault, u);
    }
  }

  lemma HandleStepKeeps(cfg: Config, s: State, h: nat, id: nat)
    requires Inv(cfg, s)
    ensures var t := Apply(cfg, s, Handle(h, id)); Inv(cfg, t) && Grows(s.db, t.db)
  {
    GrowsReflexive(s.db);
    if h in s.handlers {
      HandleKeeps(cfg, s, h, id);
    }
  }

  lemma WritingStepKeeps(cfg: Config, s: State, step: Step)
    requires Inv(cfg, s) && (step.Handle? || step.Work? || step.AdvanceUpload? || step.CreateOrder?)
    ensures Inv(cfg, Apply(cfg, s, step)) && Grows(s.db, Apply(cfg, s, step).db)
  {
    match step {
      case Handle(h, id) => HandleStepKeeps(cfg, s, h, id);
      case Work(w, fault, u) => WorkStepKeeps(cfg, s, w, fault, u);
      case CreateOrder(o, amount, currency) => CreateKeeps(cfg, s, o, amount, currency);
      case AdvanceUpload(n) =>
        GrowsReflexive(s.db);
        if n in s.uploads { UploadKeeps(cfg, s, n); }
    }
  }

  lemma StepKeeps(cfg: Config, s: State, step: Step)
    requires Inv(cfg, s)
    ensures Inv(cfg, Apply(cfg, s, step)) && Grows(s.db, Apply(cfg, s, step).db)
  {
    GrowsReflexive(s.db);
    if Quiet(step) {
      QuietKeeps(cfg, s, step);
    } else if step.Poll? || step.Promote? {
      QueueStepKeeps(cfg, s, step);
    } else {
      WritingStepKeeps(cfg, s, step);
    }
  }

  lemma {:induction false} Always(cfg: Config, steps: seq<Step>)
    ensures Inv(cfg, Exec(cfg, steps))
  {
    if steps != [] {
      Always(cfg, steps[..|steps| - 1]);
      StepKeeps(cfg, Exec(cfg, steps[..|steps| - 1]), steps[|steps| - 1]);
    }
  }

  /** What a table says at some point of a run stands until its end: facts of events, orders
      and records never change, an event's order never changes once set, and an entry changes
      only by being settled, once. */
  lemma {:induction false} FactsStand(cfg: Config, steps: seq<Step>, k: nat)
    requires k <= |steps|
    ensures Grows(At(cfg, steps, k).db, Exec(cfg, steps).db)
    decreases |steps|
  {
    if k == |steps| {
      assert steps[..k] == steps;
      GrowsReflexive(Exec(cfg, steps).db);
    } else {
      var n := |steps| - 1;
      AtPrefix(cfg, steps, n, k);
      FactsStand(cfg, steps[..n], k);
      Always(cfg, steps[..n]);
      StepKeeps(cfg, Exec(cfg, steps[..n]), steps[n]);
      GrowsTransitive(At(cfg, steps, k).db, Exec(cfg, steps[..n]).db, Exec(cfg, steps).db);
    }
  }

  /** Entry `i` and its other half moved one order for one event: both of them, the event
      and the order agree on amount and currency, the event names the order, and it was a
      payment or a refund. */
  ghost predicate Paired(db: Db, i: nat, j: nat)
    requires i < |db.ledger| && j < |db.ledger|
  {
    var x, y := db.ledger[i], db.ledger[j];
    && (x.direction.Debit? <==> i < j) && (y.direction.Debit? <==> j < i)
    && (x.account.GatewayReceivable? <==> x.direction.Debit?) && (y.account.GatewayReceivable? <==> y.direction.Debit?)
    && y.event == x.event && y.order == x.order && y.amount == x.amount && y.currency == x.currency
    && x.event in db.events && x.order in db.orders && db.events[x.event].orderId == Some(x.order)
    && x.amount == db.events[x.event].amount == db.orders[x.order].amount
    && x.currency == db.events[x.event].currency == db.orders[x.order].currency
    && (db.events[x.event].gatewayStatus.Success? || db.events[x.event].gatewayStatus.Refunded?)
  }

  function Partner(i: nat): nat { if i % 2 == 0 then i + 1 else i - 1 }

  /** In every run, each entry stands beside its other half. */
  lemma {:induction false} LedgerIntegrity(cfg: Config, steps: seq<Step>, i: nat)
    requires i < |Exec(cfg, steps).db.ledger|
    ensures Partner(i) < |Exec(cfg, steps).db.ledger| && Paired(Exec(cfg, steps).db, i, Partner(i))
  {
    Always(cfg, steps);
    EntryPaired(Exec(cfg, steps).db, i);
  }

  lemma EntryPaired(db: Db, i: nat)
    requires LedgerOk(db) && i < |db.ledger|
    ensures Partner(i) < |db.ledger| && Paired(db, i, Partner(i))
  {
    var k := if i % 2 == 0 then i else i - 1;
    assert PairOk(db, db.ledger[k], db.ledger[k + 1]);
  }

  /** In every run, an event's order is unset or the existing order its payload names, and it
      never changes once set. */
  lemma {:induction false} EventOrderStands(cfg: Config, steps: seq<Step>, k: nat, e: nat)
    requires k <= |steps| && e in At(cfg, steps, k).db.events
    ensures var early, db := At(cfg, steps, k).db, Exec(cfg, steps).db;
            && e in db.events
            && (db.events[e].orderId.Some? ==>
                  db.events[e].orderId.value == db.events[e].raw.orderId && db.events[e].orderId.value in db.orders)
            && (early.events[e].orderId.Some? ==> db.events[e].orderId == early.events[e].orderId)
  {
    Always(cfg, steps);
    FactsStand(cfg, steps, k);
    assert EventOk(Exec(cfg, steps).db, e);
  }

  /** In every run, a dead-lettered event has its dead letter, with its payload and at least
      the allowed number of attempts. */
  lemma {:induction false} DeadLetteredHasRow(cfg: Config, steps: seq<Step>, e: nat)
    requires var db := Exec(cfg, steps).db; e in db.events && db.events[e].state.DeadLettered?
    ensures var db := Exec(cfg, steps).db;
            && e in db.deadLetters && db.deadLetters[e].attempts >= cfg.maxAttempts
            && db.deadLetters[e].payload == db.events[e].raw
  {
    Always(cfg, steps);
    assert EventOk(Exec(cfg, steps).db, e);
  }
}
