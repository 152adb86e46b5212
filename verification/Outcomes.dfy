/** What one message leads to when nothing throws, and when the run throws but the failure
    handler does not. */
module Outcomes {
  import opened Domain
  import opened Reconciliation
  import opened SortedSet
  import opened Tables
  import opened Pipeline
  import opened Serving
  import Backoff

  // ---------- a run that returns ----------

  /** The order an event is about: the one it refers to, or else the one its payload names. */
  function OrderNamed(row: Event): nat { if row.orderId.Some? then row.orderId.value else row.raw.orderId }

  function Backfilled(row: Event, order: Option<Found>): Event {
    if row.orderId.None? && order.Some? then row.(orderId := Some(order.value.id)) else row
  }

  function Pair(e: nat, o: nat, amount: int, currency: string): seq<Entry> {
    [Entry(e, o, GatewayReceivable, Debit, amount, currency, PendingSettlement),
     Entry(e, o, MerchantPayable, Credit, amount, currency, PendingSettlement)]
  }

  /** The tables after a run whose verdict was `v`. */
  ghost predicate RanTo(db: Db, t: Db, e: nat, order: Option<Found>, v: Verdict, now: nat)
    requires e in db.events
  {
    var row := db.events[e];
    var same := t.(events := db.events, mismatches := db.mismatches, orders := db.orders, flips := db.flips,
      ledger := db.ledger);
    && same == db
    && t.events == db.events[e := Backfilled(row, order).(state := v.state, processedAt := Some(now))]
    && |t.mismatches| == |db.mismatches| + |v.mismatches| && db.mismatches <= t.mismatches
    && (forall i | 0 <= i < |v.mismatches| :: t.mismatches[|db.mismatches| + i] == (e, v.mismatches[i]))
    && if order.Some? && v.statusUpdate.Some? && order.value.id in db.orders then
         var o, to := order.value.id, v.statusUpdate.value;
         && t.orders == db.orders[o := db.orders[o].(status := to)]
         && t.ledger == db.ledger + Pair(e, o, row.amount, row.currency)
       else
         t.orders == db.orders && t.ledger == db.ledger && t.flips == db.flips
  }

  lemma BookedPair(e: nat, o: nat, amount: int, currency: string, to: OrderStatus)
    requires to.Paid? || to.Refunded?
    ensures Booked(e, o, CreateLedgerEntries(amount, currency, to)) == Pair(e, o, amount, currency)
  {}

  ghost predicate Undisturbed(fault: nat -> Fault, k: nat, n: nat) {
    forall j | k <= j < k + n :: fault(j).NoFault?
  }

  /** The writes of an accepted event. */
  lemma MovesOrder(cfg: Config, now: nat, e: nat, db: Db, row: Event, f: Found, to: OrderStatus,
      state: ReconciliationState, fault: nat -> Fault, k: nat)
    requires e in db.events && f.id in db.orders && (to.Paid? || to.Refunded?) && Undisturbed(fault, k, 2)
    ensures RunFor(cfg, now, e, db, SetStatus(row, f, to, state), fault, k)
            == Ran(UpdateStatus(db, f.id, to).(events := db.events[e := db.events[e].(state := state,
              processedAt := Some(now))],
                                               ledger := db.ledger + Pair(e, f.id, row.amount, row.currency)),
                   AckReturned, k + 2)
  {
    var db1 := UpdateStatus(db, f.id, to);
    BookedPair(e, f.id, row.amount, row.currency, to);
    assert fault(k).NoFault? && fault(k + 1).NoFault?;
    assert RunFor(cfg, now, e, db, SetStatus(row, f, to, state), fault, k)
           == RunFor(cfg, now, e, db1, Commit(row, f, to, state), fault, k + 1);
    var db2 := CommitBooking(db1, e, f.id, CreateLedgerEntries(row.amount, row.currency, to), state, now);
    assert db2 == db1.(events := db.events[e := db.events[e].(state := state, processedAt := Some(now))],
                       ledger := db.ledger + Pair(e, f.id, row.amount, row.currency));
    assert RunFor(cfg, now, e, db1, Commit(row, f, to, state), fault, k + 1) == Ran(db2, AckReturned, k + 2);
  }

  lemma NamesReasons(cfg: Config, now: nat, e: nat, db: Db, row: Event, order: Option<Found>, v: Verdict,
      fault: nat -> Fault, k: nat, r: Ran)
    requires v.statusUpdate.None? && fault(k).NoFault? && fault(k + 1).NoFault?
    requires r == RunFor(cfg, now, e, db, WriteMismatches(row, order, v), fault, k)
    ensures r == Ran(MarkProcessed(InsertMismatches(db, e, v.mismatches), e, v.state, now), AckReturned, k + 2)
  {
    assert r == RunFor(cfg, now, e, InsertMismatches(db, e, v.mismatches), Mark(v.state), fault, k + 1);
  }

  /** From the verdict on. */
  lemma VerdictWritten(cfg: Config, now: nat, e: nat, db: Db, row: Event, order: Option<Found>, fault: nat -> Fault,
      k: nat, r: Ran)
    requires e in db.events && (order.Some? ==> order.value.id in db.orders) && Undisturbed(fault, k, 3)
    requires db.events[e].orderId.Some? || order.None?
    requires row.amount == db.events[e].amount && row.currency == db.events[e].currency
    requires r == RunFor(cfg, now, e, db, AfterOrder(cfg, row, order), fault, k)
    ensures r.stage.AckReturned? && RanTo(db, r.db, e, order, Judge(row, OrderOf(order), cfg.delayThreshold), now)
  {
    var v := Judge(row, OrderOf(order), cfg.delayThreshold);
    VerdictMovesExactlyAccepted(row, OrderOf(order), cfg.delayThreshold);
    assert fault(k).NoFault? && fault(k + 1).NoFault?;
    if v.statusUpdate.Some? {
      MovesOrder(cfg, now, e, db, row, order.value, v.statusUpdate.value, v.state, fault, k);
    } else if |v.mismatches| > 0 {
      NamesReasons(cfg, now, e, db, row, order, v, fault, k, r);
    }
  }

  lemma FindsEvent(cfg: Config, now: nat, e: nat, db: Db, fault: nat -> Fault, k: nat, r: Ran)
    requires e in db.events && fault(k).NoFault? && r == RunFor(cfg, now, e, db, FindEvent, fault, k)
    ensures r == RunFor(cfg, now, e, db, FindOrder(db.events[e]), fault, k + 1)
  {}

  lemma FindsOrder(cfg: Config, now: nat, e: nat, db: Db, row: Event, fault: nat -> Fault, k: nat, r: Ran)
    requires fault(k).NoFault? && r == RunFor(cfg, now, e, db, FindOrder(row), fault, k)
    ensures var o := OrderNamed(row);
            var order := if o in db.orders then Some(Found(o, db.orders[o])) else None;
            r == RunFor(cfg, now, e, db,
                        if row.orderId.None? && o in db.orders then Attach(row, Found(o, db.orders[o]))
                        else AfterOrder(cfg, row, order), fault, k + 1)
  {}

  lemma Attaches(cfg: Config, now: nat, e: nat, db: Db, row: Event, f: Found, fault: nat -> Fault, k: nat, r: Ran)
    requires fault(k).NoFault? && r == RunFor(cfg, now, e, db, Attach(row, f), fault, k)
    ensures r == RunFor(cfg, now, e, AttachOrder(db, e, f.id), AfterOrder(cfg, row, Some(f)), fault, k + 1)
  {}

  lemma RanFromAttached(db: Db, t: Db, e: nat, f: Found, v: Verdict, now: nat)
    requires e in db.events && db.events[e].orderId.None?
    requires RanTo(AttachOrder(db, e, f.id), t, e, Some(f), v, now)
    ensures RanTo(db, t, e, Some(f), v, now)
  {}

  lemma UnknownEvent(cfg: Config, now: nat, e: nat, db: Db, fault: nat -> Fault, k: nat, r: Ran)
    requires e !in db.events && fault(k).NoFault? && r == RunFor(cfg, now, e, db, FindEvent, fault, k)
    ensures r == Ran(db, AckReturned, k + 1)
  {}

  /** A run in which nothing throws finds the order by the event's own reference or its
      payload's, backfilling the former; it records every reason of the verdict, or moves the
      order to the status the verdict gives and books the pair; it marks the event with the
      verdict's state; and it returns, also when the order is missing.  Without the event it
      returns at once. */
  lemma RunOutcome(cfg: Config, now: nat, e: nat, db: Db, fault: nat -> Fault, k: nat, r: Ran)
    requires Undisturbed(fault, k, 6) && r == RunFor(cfg, now, e, db, FindEvent, fault, k)
    ensures e !in db.events ==> r == Ran(db, AckReturned, k + 1)
    ensures e in db.events ==>
              var row := db.events[e];
              var o := if row.orderId.Some? then row.orderId.value else row.raw.orderId;
              var order := if o in db.orders then Some(db.orders[o]) else None;
              && r.stage.AckReturned?
              && RanTo(db, r.db, e, if o in db.orders then Some(Found(o, db.orders[o])) else None,
                       Judge(row, order, cfg.delayThreshold), now)
  {
    assert fault(k).NoFault? && fault(k + 1).NoFault? && fault(k + 2).NoFault?;
    if e !in db.events {
      UnknownEvent(cfg, now, e, db, fault, k, r);
    } else {
      FindsEvent(cfg, now, e, db, fault, k, r);
      FindsOrder(cfg, now, e, db, db.events[e], fault, k + 1, r);
      FoundOutcome(cfg, now, e, db, OrderNamed(db.events[e]), fault, k, r);
    }
  }

  lemma FoundOutcome(cfg: Config, now: nat, e: nat, db: Db, o: nat, fault: nat -> Fault, k: nat, r: Ran)
    requires e in db.events && Undisturbed(fault, k, 6) && o == OrderNamed(db.events[e])
    requires var row := db.events[e];
             r == RunFor(cfg, now, e, db,
                         if row.orderId.None? && o in db.orders then Attach(row, Found(o, db.orders[o]))
                         else AfterOrder(cfg, row, if o in db.orders then Some(Found(o, db.orders[o])) else None),
                         fault, k + 2)
    ensures var order := if o in db.orders then Some(Found(o, db.orders[o])) else None;
            && r.stage.AckReturned?
            && RanTo(db, r.db, e, order, Judge(db.events[e], OrderOf(order), cfg.delayThreshold), now)
  {
    var row := db.events[e];
    var order := if o in db.orders then Some(Found(o, db.orders[o])) else None;
    assert fault(k + 2).NoFault?;
    if row.orderId.None? && order.Some? {
      Attaches(cfg, now, e, db, row, order.value, fault, k + 2, r);
      VerdictWritten(cfg, now, e, AttachOrder(db, e, o), row, order, fault, k + 3, r);
      RanFromAttached(db, r.db, e, order.value, Judge(row, OrderOf(order), cfg.delayThreshold), now);
    } else {
      VerdictWritten(cfg, now, e, db, row, order, fault, k + 2, r);
    }
  }

  // ---------- a run that throws ----------

  /** What the failure handler makes of the event. */
  ghost predicate FailedTo(cfg: Config, db: Db, cache: Cache, h: Handling, e: nat, i: nat, now: nat, u: real)
    requires e in db.events
  {
    var row := db.events[e].(attempts := db.events[e].attempts + 1);
    var acked := cache.(pending := cache.pending - {i});
    if row.attempts < cfg.maxAttempts then
      && h.outcome == Rescheduled
      && h.db == db.(events := db.events[e := row.(state := ReconciliationState.Failed)])
      && h.cache == acked.(retry := Add(cache.retry, e, now + NonNegative(Backoff.BackoffMs(row.attempts, u))))
    else if e in db.deadLetters then
      h.outcome == Aborted && h.db == db.(events := db.events[e := row]) && h.cache == acked
    else
      && h.outcome == Buried && h.cache == acked
      && h.db == db.(events := db.events[e := row.(state := DeadLettered, processedAt := Some(now))],
                     deadLetters := db.deadLetters[e := DeadLetter(row.raw, row.attempts)])
  }

  /** When the run has thrown and the failure handler does not: the attempt is counted and the
      message acknowledged in every case; below the limit the event fails and its retry is
      scheduled, at the limit it is dead-lettered with its payload and attempts, and a second
      dead letter aborts the batch. */
  lemma FailureOutcome(cfg: Config, now: nat, u: real, e: nat, i: nat, db: Db, cache: Cache, fault: nat -> Fault,
      k: nat, h: Handling)
    requires e in db.events && Undisturbed(fault, k, 4)
    requires h == Advance(cfg, now, u, e, i, db, cache, Increment, fault, k)
    ensures FailedTo(cfg, db, cache, h, e, i, now, u)
  {
    assert fault(k).NoFault? && fault(k + 1).NoFault? && fault(k + 2).NoFault? && fault(k + 3).NoFault?;
    FirstTwo(cfg, now, u, e, i, db, cache, fault, k);
    Decided(cfg, now, u, e, i, db, cache, db.events[e].attempts + 1, fault, k + 2, h);
  }

  /** Once counted and acknowledged. */
  lemma Decided(cfg: Config, now: nat, u: real, e: nat, i: nat, db: Db, cache: Cache, n: nat, fault: nat -> Fault,
      k: nat, h: Handling)
    requires e in db.events && n == db.events[e].attempts + 1 && fault(k).NoFault? && fault(k + 1).NoFault?
    requires h == Advance(cfg, now, u, e, i, IncrementAttempts(db, e), Ack(cache, i),
                          if n >= cfg.maxAttempts then Bury(n) else MarkFailedState(n), fault, k)
    ensures FailedTo(cfg, db, cache, h, e, i, now, u)
  {
    var db1 := IncrementAttempts(db, e);
    var c1 := Ack(cache, i);
    if n < cfg.maxAttempts {
      Rescheduling(cfg, now, u, e, i, db1, c1, n, fault, k, h);
    } else if e in db.deadLetters {
      BuryingTwice(cfg, now, u, e, i, db1, c1, n, fault, k, h);
    } else {
      BuryingOnce(cfg, now, u, e, i, db1, c1, n, fault, k, h);
    }
    FailedTables(cfg, now, u, e, i, db, cache, h);
  }

  /** The commands' effects taken together. */
  lemma FailedTables(cfg: Config, now: nat, u: real, e: nat, i: nat, db: Db, cache: Cache, h: Handling)
    requires e in db.events
    requires var n := db.events[e].attempts + 1; var db1 := IncrementAttempts(db, e); var c1 := Ack(cache, i);
             h.(calls := 0) ==
               if n < cfg.maxAttempts then
                 Handling(MarkFailed(db1, e), Tables.Schedule(c1, e, now + NonNegative(Backoff.BackoffMs(n, u))),
                   Rescheduled, 0)
               else if e in db.deadLetters then Handling(db1, c1, Aborted, 0)
               else Handling(MarkProcessed(InsertDeadLetter(db1, e, n), e, DeadLettered, now), c1, Buried, 0)
    ensures FailedTo(cfg, db, cache, h, e, i, now, u)
  {}

  lemma Rescheduling(cfg: Config, now: nat, u: real, e: nat, i: nat, db: Db, cache: Cache, n: nat,
      fault: nat -> Fault, k: nat, h: Handling)
    requires e in db.events && fault(k).NoFault? && fault(k + 1).NoFault?
    requires h == Advance(cfg, now, u, e, i, db, cache, MarkFailedState(n), fault, k)
    ensures h == Handling(MarkFailed(db, e), Tables.Schedule(cache, e, now + NonNegative(Backoff.BackoffMs(n, u))),
        Rescheduled, k + 2)
  {
    assert h == Advance(cfg, now, u, e, i, MarkFailed(db, e), cache, Reschedule(n), fault, k + 1);
  }

  lemma BuryingTwice(cfg: Config, now: nat, u: real, e: nat, i: nat, db: Db, cache: Cache, n: nat,
      fault: nat -> Fault, k: nat, h: Handling)
    requires e in db.deadLetters && fault(k).NoFault?
    requires h == Advance(cfg, now, u, e, i, db, cache, Bury(n), fault, k)
    ensures h == Handling(db, cache, Aborted, k + 1)
  {}

  lemma BuryingOnce(cfg: Config, now: nat, u: real, e: nat, i: nat, db: Db, cache: Cache, n: nat, fault: nat -> Fault,
      k: nat, h: Handling)
    requires e in db.events && e !in db.deadLetters && fault(k).NoFault? && fault(k + 1).NoFault?
    requires h == Advance(cfg, now, u, e, i, db, cache, Bury(n), fault, k)
    ensures h == Handling(MarkProcessed(InsertDeadLetter(db, e, n), e, DeadLettered, now), cache, Buried, k + 2)
  {
    assert h == Advance(cfg, now, u, e, i, InsertDeadLetter(db, e, n), cache, MarkBuried, fault, k + 1);
  }
}
