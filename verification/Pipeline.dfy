/** The pipeline as one transition system over the two stores.  Every actor advances by one
    awaited command at a time, so runs interleave, fail and stop between any two commands. */
module Pipeline {
  import opened Domain
  import opened Reconciliation
  import opened Backoff
  import opened SortedSet
  import opened Tables

  // ---------- handling one stream entry ----------

  datatype Found = Found(id: nat, order: Order)

  datatype Outcome = Returned | Rescheduled | Buried | Aborted

  /** The next command of a worker that holds the lock.  The first seven are the run, the
      next the acknowledgement after it, and then the failure path; `Release` comes last. */
  datatype Stage =
    | FindEvent
    | FindOrder(row: Event)
    | Attach(row: Event, found: Found)
    | WriteMismatches(row: Event, order: Option<Found>, verdict: Verdict)
    | SetStatus(row: Event, found: Found, to: OrderStatus, state: ReconciliationState)
    | Commit(row: Event, found: Found, to: OrderStatus, state: ReconciliationState)
    | Mark(state: ReconciliationState)
    | AckReturned
    | Increment
    | AckFailed(attempts: nat)
    | Bury(attempts: nat)
    | MarkBuried
    | MarkFailedState(attempts: nat)
    | Reschedule(attempts: nat)
    | Release(outcome: Outcome)

  /** The stages of ReconciliationRunner.run. */
  predicate InRun(stage: Stage) {
    stage.FindEvent? || stage.FindOrder? || stage.Attach? || stage.WriteMismatches?
    || stage.SetStatus? || stage.Commit? || stage.Mark?
  }

  function OrderOf(order: Option<Found>): Option<Order> {
    if order.Some? then Some(order.value.order) else None
  }

  function AfterMismatches(row: Event, order: Option<Found>, v: Verdict): Stage {
    if v.statusUpdate.Some? && order.Some? then SetStatus(row, order.value, v.statusUpdate.value, v.state)
    else Mark(v.state)
  }

  function AfterOrder(cfg: Config, row: Event, order: Option<Found>): Stage {
    var v := Judge(row, OrderOf(order), cfg.delayThreshold);
    if |v.mismatches| > 0 then WriteMismatches(row, order, v) else AfterMismatches(row, order, v)
  }

  function Lookup(db: Db, o: nat): Option<Found> {
    if o in db.orders then Some(Found(o, db.orders[o])) else None
  }

  /** One command of the run: its effect on the database, and what comes next. */
  function RunCommand(cfg: Config, now: nat, e: nat, db: Db, stage: Stage): (Db, Stage)
    requires InRun(stage)
  {
    match stage
    case FindEvent => (db, if e in db.events then FindOrder(db.events[e]) else AckReturned)
    case FindOrder(row) =>
      if row.orderId.Some? then (db, AfterOrder(cfg, row, Lookup(db, row.orderId.value)))
      else (match Lookup(db, row.raw.orderId)
            case None => (db, AfterOrder(cfg, row, None))
            case Some(found) => (db, Attach(row, found)))
    case Attach(row, found) => (AttachOrder(db, e, found.id), AfterOrder(cfg, row, Some(found)))
    case WriteMismatches(row, order, v) => (InsertMismatches(db, e, v.mismatches), AfterMismatches(row, order, v))
    case SetStatus(row, found, to, state) => (UpdateStatus(db, found.id, to), Commit(row, found, to, state))
    case Commit(row, found, to, state) =>
      (CommitBooking(db, e, found.id, CreateLedgerEntries(row.amount, row.currency, to), state, now), AckReturned)
    case Mark(state) => (MarkProcessed(db, e, state, now), AckReturned)
  }

  datatype Reply = Reply(db: Db, cache: Cache, stage: Stage)

  /** One command of a worker that holds the lock, the release excepted.  `u` is the random
      draw of the backoff.  Inserting a second dead letter for an event violates its unique
      key, which throws out of the failure handler. */
  function HandleCommand(cfg: Config, now: nat, u: real, e: nat, i: nat, db: Db, cache: Cache, stage: Stage): Reply
    requires !stage.Release?
  {
    if InRun(stage) then
      var (db', stage') := RunCommand(cfg, now, e, db, stage);
      Reply(db', cache, stage')
    else match stage
    case AckReturned => Reply(db, Ack(cache, i), Release(Returned))
    case Increment =>
      var db' := IncrementAttempts(db, e);
      Reply(db', cache, AckFailed(if e in db'.events then db'.events[e].attempts else 0))
    case AckFailed(n) => Reply(db, Ack(cache, i), if n >= cfg.maxAttempts then Bury(n) else MarkFailedState(n))
    case Bury(n) =>
      if e in db.deadLetters then Reply(db, cache, Release(Aborted))
      else Reply(InsertDeadLetter(db, e, n), cache, MarkBuried)
    case MarkBuried => Reply(MarkProcessed(db, e, DeadLettered, now), cache, Release(Buried))
    case MarkFailedState(n) => Reply(MarkFailed(db, e), cache, Reschedule(n))
    case Reschedule(n) =>
      Reply(db, Tables.Schedule(cache, e, now + NonNegative(BackoffMs(n, u))), Release(Rescheduled))
  }

  function NonNegative(x: int): nat { if x < 0 then 0 else x }

  /** Where an exception leads: out of the run or its acknowledgement into the failure
      handler, and out of the failure handler to the release and then to the loop. */
  function OnThrow(stage: Stage): Stage {
    if InRun(stage) || stage.AckReturned? then Increment else Release(Aborted)
  }

  // ---------- actors ----------

  datatype Job = Job(event: nat, token: nat, until: nat, stage: Stage)

  /** A worker's batch is a range of stream entries, of which `i` is in hand. */
  datatype Worker =
    | Reading
    | Locking(i: nat, end: nat)
    | Skipping(i: nat, end: nat)
    | Working(i: nat, end: nat, job: Job)

  datatype Poller = Removing(due: seq<nat>) | Promoting(rest: seq<nat>)

  datatype Handler =
    | Marking(payload: Payload)
    | Resolving(payload: Payload)
    | Upserting(payload: Payload, order: Option<nat>)
    | Publishing(event: nat)

  datatype UploadStage =
    | Searching
    | Creating
    | Looking
    | Recording(found: Option<nat>, status: MatchStatus)
    | Settling(event: nat, record: nat)
    | Finishing

  datatype Upload = Upload(file: File, next: nat, matched: nat, mismatched: nat, unmatched: nat, stage: UploadStage)

  datatype State = State(
    now: nat, db: Db, cache: Cache, handlers: map<nat, Handler>, workers: map<nat, Worker>,
    pollers: map<nat, Poller>, uploads: map<nat, Upload>, returned: set<nat>)

  const INIT := State(0, EMPTY_DB, EMPTY_CACHE, map[], map[], map[], map[], {})

  /** A command either succeeds, or throws without or with its effect. */
  datatype Fault = NoFault | Before | After

  datatype Step =
    | Tick(ms: nat)
    | CreateOrder(o: nat, amount: int, currency: string)
    | Deliver(h: nat, payload: Payload)
    | Handle(h: nat, id: nat)
    | DropHandler(h: nat)
    | StartWorker(w: nat)
    | Work(w: nat, fault: Fault, u: real)
    | Crash(w: nat)
    | Poll(p: nat)
    | Promote(p: nat)
    | DropPoller(p: nat)
    | StartUpload(n: nat, file: File)
    | AdvanceUpload(n: nat)
    | DropUpload(n: nat)

  // ---------- workers ----------

  /** The entry after `i`, or the next read. */
  function NextEntry(i: nat, end: nat): Worker {
    if i + 1 < end then Locking(i + 1, end) else Reading
  }

  function DoRead(cfg: Config, s: State, w: nat, fault: Fault): State {
    if fault.Before? then s
    else
      var lo := s.cache.cursor;
      var n := Available(s.cache, cfg.batchSize);
      s.(cache := ReadGroup(s.cache, cfg.batchSize),
         workers := s.workers[w := if fault.NoFault? && n > 0 then Locking(lo, lo + n) else Reading])
  }

  function DoLock(cfg: Config, s: State, w: nat, i: nat, end: nat, fault: Fault): State {
    if fault.Before? || i >= |s.cache.log| then s.(workers := s.workers[w := Reading])
    else
      var e := s.cache.log[i];
      s.(cache := SetLock(s.cache, e, s.now, cfg.lockTtl),
         workers := s.workers[w :=
           if fault.After? then Reading
           else if LockFree(s.cache, e, s.now)
           then Working(i, end, Job(e, s.cache.nextToken, s.now + cfg.lockTtl, FindEvent))
           else Skipping(i, end)])
  }

  function DoSkip(s: State, w: nat, i: nat, end: nat, fault: Fault): State {
    s.(cache := if fault.Before? then s.cache else Ack(s.cache, i),
       workers := s.workers[w := if fault.NoFault? then NextEntry(i, end) else Reading])
  }

  function DoRelease(s: State, w: nat, i: nat, end: nat, job: Job, fault: Fault): State
    requires job.stage.Release?
  {
    s.(cache := if fault.Before? then s.cache else ReleaseLock(s.cache, job.event, job.token, s.now),
       workers := s.workers[w := if fault.NoFault? && !job.stage.outcome.Aborted? then NextEntry(i, end) else Reading])
  }

  function DoCommand(cfg: Config, s: State, w: nat, i: nat, end: nat, job: Job, fault: Fault, u: real): State
    requires !job.stage.Release?
  {
    var reply := HandleCommand(cfg, s.now, u, job.event, i, s.db, s.cache, job.stage);
    var stage' := if fault.NoFault? then reply.stage else OnThrow(job.stage);
    var moved := s.(workers := s.workers[w := Working(i, end, job.(stage := stage'))],
                    returned := if stage'.AckReturned? then s.returned + {job.event} else s.returned);
    if fault.Before? then moved else moved.(db := reply.db, cache := reply.cache)
  }

  function DoWork(cfg: Config, s: State, w: nat, fault: Fault, u: real): State
    requires w in s.workers
  {
    match s.workers[w]
    case Reading => DoRead(cfg, s, w, fault)
    case Locking(i, end) => DoLock(cfg, s, w, i, end, fault)
    case Skipping(i, end) => DoSkip(s, w, i, end, fault)
    case Working(i, end, job) =>
      if job.stage.Release? then DoRelease(s, w, i, end, job, fault)
      else DoCommand(cfg, s, w, i, end, job, fault, u)
  }

  // ---------- pollers ----------

  function DoPoll(cfg: Config, s: State, p: nat): State {
    var due := Due(s.cache.retry, s.now, cfg.batchSize);
    if due == [] then s else s.(pollers := s.pollers[p := Removing(due)])
  }

  function DoPromote(s: State, p: nat): State
    requires p in s.pollers
  {
    match s.pollers[p]
    case Removing(due) => s.(cache := Unschedule(s.cache, due), pollers := s.pollers[p := Promoting(due)])
    case Promoting(rest) =>
      if rest == [] then s.(pollers := s.pollers - {p})
      else s.(cache := Publish(s.cache, rest[0]), pollers := s.pollers[p := Promoting(rest[1..])])
  }

  // ---------- webhook intake ----------

  /** Schema check: the amount is positive. */
  predicate WellFormed(p: Payload) { 0 < p.amount }

  function DoHandle(cfg: Config, s: State, h: nat, id: nat): State
    requires h in s.handlers
  {
    match s.handlers[h]
    case Marking(p) =>
      s.(cache := SetKey(s.cache, p.gatewayId, s.now, cfg.idempotencyTtl),
         handlers := if KeyFree(s.cache, p.gatewayId, s.now) then s.handlers[h := Resolving(p)] else s.handlers - {h})
    case Resolving(p) =>
      s.(handlers := s.handlers[h := Upserting(p, if p.orderId in s.db.orders then Some(p.orderId) else None)])
    case Upserting(p, order) =>
      if id in s.db.events then s
      else
        var db' := UpsertPending(s.db, id, p, order);
        s.(db := db', handlers := s.handlers[h := Publishing(db'.byGateway[p.gatewayId])])
    case Publishing(e) => s.(cache := Publish(s.cache, e), handlers := s.handlers - {h})
  }

  // ---------- settlement uploads ----------

  function MatchRecord(row: Row, event: Option<Event>): (status: MatchStatus)
    ensures status.Unmatched? <==> event.None?
    ensures status.Matched? <==> event.Some? && (row.amount, row.currency) == (event.value.amount, event.value.currency)
  {
    if event.None? then Unmatched
    else if row.amount != event.value.amount || row.currency != event.value.currency then MatchStatus.AmountMismatch
    else MatchStatus.Matched
  }

  function FindByGateway(db: Db, g: nat): Option<nat> {
    if g in db.byGateway then Some(db.byGateway[g]) else None
  }

  function RowOf(db: Db, e: Option<nat>): Option<Event> {
    if e.Some? && e.value in db.events then Some(db.events[e.value]) else None
  }

  function Rows(file: File): seq<Row> {
    if file.parsed.Some? then file.parsed.value else []
  }

  function AtRow(up: Upload): Upload {
    up.(stage := if up.next < |Rows(up.file)| then Looking else Finishing)
  }

  /** One command of an upload; None when the request is over. */
  function UploadCommand(db: Db, now: nat, up: Upload): (Db, Option<Upload>) {
    match up.stage
    case Searching =>
      (db, if up.file in db.batches || up.file.parsed.None? then None else Some(up.(stage := Creating)))
    case Creating =>
      if up.file in db.batches then (db, None)
      else (PutBatch(db, up.file, Batch(Processing, 0, 0, 0, 0)), Some(AtRow(up)))
    case Looking =>
      if up.next >= |Rows(up.file)| then (db, None)
      else
        var row := Rows(up.file)[up.next];
        var e := FindByGateway(db, row.gatewayId);
        (db, Some(up.(stage := Recording(e, MatchRecord(row, RowOf(db, e))))))
    case Recording(e, status) =>
      if up.next >= |Rows(up.file)| then (db, None)
      else
        var db' := InsertRecord(db, Record(up.file, Rows(up.file)[up.next], status, e));
        (match status
         case Matched =>
           if e.Some? then (db', Some(up.(stage := Settling(e.value, |db.records|))))
           else (db', Some(AtRow(up.(next := up.next + 1, unmatched := up.unmatched + 1))))
         case AmountMismatch => (db', Some(AtRow(up.(next := up.next + 1, mismatched := up.mismatched + 1))))
         case Unmatched => (db', Some(AtRow(up.(next := up.next + 1, unmatched := up.unmatched + 1)))))
    case Settling(e, record) =>
      (SettleForEvent(db, e, record, now), Some(AtRow(up.(next := up.next + 1, matched := up.matched + 1))))
    case Finishing =>
      (PutBatch(db, up.file, Batch(Completed, |Rows(up.file)|, up.matched, up.mismatched, up.unmatched)), None)
  }

  function DoUpload(s: State, n: nat): State
    requires n in s.uploads
  {
    var (db', up') := UploadCommand(s.db, s.now, s.uploads[n]);
    s.(db := db', uploads := if up'.Some? then s.uploads[n := up'.value] else s.uploads - {n})
  }

  // ---------- runs ----------

  /** A step whose actor is not there, or whose fresh name is taken, changes nothing. */
  function Apply(cfg: Config, s: State, step: Step): State {
    match step
    case Tick(ms) => s.(now := s.now + ms)
    case CreateOrder(o, amount, currency) =>
      if o in s.db.orders || amount <= 0 then s else s.(db := InsertOrder(s.db, o, amount, currency, s.now))
    case Deliver(h, p) =>
      if h in s.handlers || !WellFormed(p) then s else s.(handlers := s.handlers[h := Marking(p)])
    case Handle(h, id) => if h in s.handlers then DoHandle(cfg, s, h, id) else s
    case DropHandler(h) => s.(handlers := s.handlers - {h})
    case StartWorker(w) => if w in s.workers then s else s.(workers := s.workers[w := Reading])
    case Work(w, fault, u) => if w in s.workers && IsDraw(u) then DoWork(cfg, s, w, fault, u) else s
    case Crash(w) => s.(workers := s.workers - {w})
    case Poll(p) => if p in s.pollers then s else DoPoll(cfg, s, p)
    case Promote(p) => if p in s.pollers then DoPromote(s, p) else s
    case DropPoller(p) => s.(pollers := s.pollers - {p})
    case StartUpload(n, file) =>
      if n in s.uploads then s else s.(uploads := s.uploads[n := Upload(file, 0, 0, 0, 0, Searching)])
    case AdvanceUpload(n) => if n in s.uploads then DoUpload(s, n) else s
    case DropUpload(n) => s.(uploads := s.uploads - {n})
  }

  function Exec(cfg: Config, steps: seq<Step>): State {
    if steps == [] then INIT
    else Apply(cfg, Exec(cfg, steps[..|steps| - 1]), steps[|steps| - 1])
  }

  /** The state before step `k`, and the last one for k == |steps|. */
  function At(cfg: Config, steps: seq<Step>, k: nat): State
    requires k <= |steps|
  {
    Exec(cfg, steps[..k])
  }

  lemma AtPrefix(cfg: Config, steps: seq<Step>, n: nat, k: nat)
    requires k <= n <= |steps|
    ensures At(cfg, steps[..n], k) == At(cfg, steps, k)
  {
    assert steps[..n][..k] == steps[..k];
  }
}
