/** The two stores and the commands issued to them.  Each command and each transaction is
    one atomic step.  Three history variables are kept beside the real tables and keys:
    `flips`, `upserts` and `wins`; no command reads them. */
module Tables {
  import opened Domain
  import opened SortedSet

  /** Postgres.  `byGateway` is the unique index on the gateway's event id, dead letters are
      unique per event and batches per file.  `flips` lists the status writes of each order
      and `upserts` the payloads that reached the upsert, in order. */
  datatype Db = Db(
    orders: map<nat, Order>, events: map<nat, Event>, byGateway: map<nat, nat>,
    ledger: seq<Entry>, deadLetters: map<nat, DeadLetter>, mismatches: seq<(nat, Reason)>,
    batches: map<File, Batch>, records: seq<Record>,
    flips: map<nat, seq<OrderStatus>>, upserts: seq<Payload>)

  datatype Lease = Lease(token: nat, until: nat)

  /** Redis: idempotency keys with their expiry, the stream with its group's cursor and
      pending entries, the locks and the retry schedule.  `nextToken` supplies fresh lock
      tokens; `wins` lists the times at which each idempotency key was set. */
  datatype Cache = Cache(
    idem: map<nat, nat>, log: seq<nat>, cursor: nat, pending: set<nat>,
    locks: map<nat, Lease>, nextToken: nat, retry: seq<Slot>, wins: map<nat, seq<nat>>)

  const EMPTY_DB := Db(map[], map[], map[], [], map[], [], map[], [], map[], [])
  const EMPTY_CACHE := Cache(map[], [], 0, {}, map[], 0, [], map[])

  function FlipsOf(db: Db, o: nat): seq<OrderStatus> {
    if o in db.flips then db.flips[o] else []
  }

  function WinsOf(c: Cache, g: nat): seq<nat> {
    if g in c.wins then c.wins[g] else []
  }

  // ---------- orders ----------

  function InsertOrder(db: Db, o: nat, amount: int, currency: string, now: nat): Db {
    db.(orders := db.orders[o := Order(amount, currency, Created, now)])
  }

  function UpdateStatus(db: Db, o: nat, status: OrderStatus): Db {
    if o !in db.orders then db
    else db.(orders := db.orders[o := db.orders[o].(status := status)],
             flips := db.flips[o := FlipsOf(db, o) + [status]])
  }

  // ---------- payment events ----------

  function UpdateEvent(db: Db, e: nat, row: Event): Db {
    if e in db.events then db.(events := db.events[e := row]) else db
  }

  /** Insert unless the gateway id is taken; an existing row is left as it is. */
  function UpsertPending(db: Db, id: nat, p: Payload, order: Option<nat>): Db {
    var db1 := db.(upserts := db.upserts + [p]);
    if p.gatewayId in db.byGateway then db1
    else db1.(byGateway := db.byGateway[p.gatewayId := id],
              events := db.events[id := Event(p.gatewayId, order, p.amount, p.currency, p.status, p,
                                                 p.occurredAt, ReconciliationState.Pending, 0, None)])
  }

  function AttachOrder(db: Db, e: nat, o: nat): Db {
    if e in db.events then UpdateEvent(db, e, db.events[e].(orderId := Some(o))) else db
  }

  function MarkProcessed(db: Db, e: nat, state: ReconciliationState, now: nat): Db {
    if e in db.events then UpdateEvent(db, e, db.events[e].(state := state, processedAt := Some(now))) else db
  }

  function IncrementAttempts(db: Db, e: nat): Db {
    if e in db.events then UpdateEvent(db, e, db.events[e].(attempts := db.events[e].attempts + 1)) else db
  }

  function MarkFailed(db: Db, e: nat): Db {
    if e in db.events then UpdateEvent(db, e, db.events[e].(state := ReconciliationState.Failed)) else db
  }

  function InsertDeadLetter(db: Db, e: nat, attempts: nat): Db {
    if e in db.events then db.(deadLetters := db.deadLetters[e := DeadLetter(db.events[e].raw, attempts)]) else db
  }

  function MismatchRows(e: nat, reasons: seq<Reason>): seq<(nat, Reason)> {
    seq(|reasons|, i requires 0 <= i < |reasons| => (e, reasons[i]))
  }

  function InsertMismatches(db: Db, e: nat, reasons: seq<Reason>): Db {
    db.(mismatches := db.mismatches + MismatchRows(e, reasons))
  }

  // ---------- ledger ----------

  function Booked(e: nat, o: nat, drafts: seq<Draft>): seq<Entry> {
    seq(|drafts|, i requires 0 <= i < |drafts| =>
      Entry(e, o, drafts[i].account, drafts[i].direction, drafts[i].amount, drafts[i].currency, PendingSettlement))
  }

  /** The one transaction of a run: the ledger rows and the event's state. */
  function CommitBooking(db: Db, e: nat, o: nat, drafts: seq<Draft>, state: ReconciliationState, now: nat): Db {
    MarkProcessed(db.(ledger := db.ledger + Booked(e, o, drafts)), e, state, now)
  }

  function SettleEntry(x: Entry, e: nat, record: nat, now: nat): Entry {
    if x.event == e && x.settlement.PendingSettlement? then x.(settlement := Settled(record, now)) else x
  }

  function SettleForEvent(db: Db, e: nat, record: nat, now: nat): Db {
    db.(ledger := seq(|db.ledger|, i requires 0 <= i < |db.ledger| => SettleEntry(db.ledger[i], e, record, now)))
  }

  // ---------- settlement ----------

  function PutBatch(db: Db, file: File, batch: Batch): Db {
    db.(batches := db.batches[file := batch])
  }

  function InsertRecord(db: Db, record: Record): Db {
    db.(records := db.records + [record])
  }

  // ---------- redis ----------

  /** An absent key and a key past its expiry look the same. */
  predicate LockFree(c: Cache, e: nat, now: nat) {
    e in c.locks ==> c.locks[e].until <= now
  }

  /** SET key token PX ttl NX, with a token never used before. */
  function SetLock(c: Cache, e: nat, now: nat, ttl: nat): Cache {
    if LockFree(c, e, now)
    then c.(locks := c.locks[e := Lease(c.nextToken, now + ttl)], nextToken := c.nextToken + 1)
    else c.(nextToken := c.nextToken + 1)
  }

  /** Compare-and-delete. */
  function ReleaseLock(c: Cache, e: nat, token: nat, now: nat): Cache {
    if !LockFree(c, e, now) && c.locks[e].token == token then c.(locks := c.locks - {e}) else c
  }

  predicate KeyFree(c: Cache, g: nat, now: nat) {
    g in c.idem ==> c.idem[g] <= now
  }

  /** SET key 1 EX ttl NX. */
  function SetKey(c: Cache, g: nat, now: nat, ttl: nat): Cache {
    if KeyFree(c, g, now)
    then c.(idem := c.idem[g := now + ttl], wins := c.wins[g := WinsOf(c, g) + [now]])
    else c
  }

  function Publish(c: Cache, e: nat): Cache { c.(log := c.log + [e]) }

  function Ack(c: Cache, i: nat): Cache { c.(pending := c.pending - {i}) }

  function Lowest(a: nat, b: nat): nat { if a < b then a else b }

  /** How many entries XREADGROUP ">" hands out. */
  function Available(c: Cache, batchSize: nat): nat {
    if c.cursor < |c.log| then Lowest(batchSize, |c.log| - c.cursor) else 0
  }

  function Span(lo: nat, hi: nat): set<nat>
    decreases hi - lo
  {
    if lo < hi then {lo} + Span(lo + 1, hi) else {}
  }

  function ReadGroup(c: Cache, batchSize: nat): Cache {
    var n := Available(c, batchSize);
    c.(cursor := c.cursor + n, pending := c.pending + Span(c.cursor, c.cursor + n))
  }

  function Schedule(c: Cache, e: nat, readyAt: nat): Cache { c.(retry := Add(c.retry, e, readyAt)) }

  function Unschedule(c: Cache, due: seq<nat>): Cache { c.(retry := Without(c.retry, Ids(due))) }
}
