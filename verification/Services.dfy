/** The services as they run: objects that issue one awaited command after another, tied to
    the steps of the pipeline. */
module Services {
  import opened Domain
  import opened Reconciliation
  import opened Backoff
  import opened SortedSet
  import opened Tables
  import opened Pipeline
  import opened Stores
  import opened Serving

  class DistributedLock {
    const client: Client

    constructor (client: Client)
      ensures this.client == client
    {
      this.client := client;
    }

    /** SET NX PX with a fresh token; the token is returned only if it was set. */
    method Acquire(key: nat, now: nat, ttl: nat) returns (r: Status, token: Option<nat>)
      modifies client`calls, client`cache
      ensures client.calls == old(client.calls) + 1 && r == StatusOf(client.fault(old(client.calls)))
      ensures client.cache == if client.fault(old(client.calls)).Before? then old(client.cache)
                              else SetLock(old(client.cache), key, now, ttl)
      ensures token == if r.Done? && LockFree(old(client.cache), key, now)
                       then Some(old(client.cache.nextToken)) else None
    {
      token := None;
      var own := client.cache.nextToken;
      var free := LockFree(client.cache, key, now);
      :- client.Send(SetLock(client.cache, key, now, ttl));
      return Done, if free then Some(own) else None;
    }

    method Release(key: nat, token: nat, now: nat) returns (r: Status)
      modifies client`calls, client`cache
      ensures client.calls == old(client.calls) + 1 && r == StatusOf(client.fault(old(client.calls)))
      ensures client.cache == if client.fault(old(client.calls)).Before? then old(client.cache)
                              else ReleaseLock(old(client.cache), key, token, now)
    {
      r := client.Send(ReleaseLock(client.cache, key, token, now));
    }
  }

  class RetrySchedule {
    const client: Client

    constructor (client: Client)
      ensures this.client == client
    {
      this.client := client;
    }

    /** Afterwards the event has one entry, with this time; the others keep theirs. */
    method ScheduleRetry(e: nat, readyAt: nat) returns (r: Status)
      modifies client`calls, client`cache
      ensures client.calls == old(client.calls) + 1 && r == StatusOf(client.fault(old(client.calls)))
      ensures client.cache == if client.fault(old(client.calls)).Before? then old(client.cache)
                              else Tables.Schedule(old(client.cache), e, readyAt)
      ensures !client.fault(old(client.calls)).Before? ==>
                && (forall x :: x in client.cache.retry <==>
                      x == Slot(readyAt, e) || (x in old(client.cache.retry) && x.id != e))
                && (SortedSet.Valid(old(client.cache.retry)) ==> SortedSet.Valid(client.cache.retry))
    {
      AddContents(client.cache.retry, e, readyAt);
      r := client.Send(Tables.Schedule(client.cache, e, readyAt));
    }

    /** Reads what is due, and removes it if there is anything; it throws exactly when one of
        these one or two calls does. */
    method PullDue(now: nat, limit: nat) returns (r: Status, due: seq<nat>)
      modifies client`calls, client`cache
      ensures var found := Due(old(client.cache.retry), now, limit);
              var calls := old(client.calls);
              var removing := client.fault(calls).NoFault? && found != [];
              && client.calls == calls + (if removing then 2 else 1)
              && (r.Thrown? <==> Threw(client.fault, calls, client.calls))
              && due == (if r.Done? then found else [])
              && client.cache == if removing && !client.fault(calls + 1).Before?
                                 then Unschedule(old(client.cache), found) else old(client.cache)
      ensures r.Done? ==> client.cache == Unschedule(old(client.cache), due)
    {
      due := [];
      :- client.Query();
      var found: seq<nat> := Due(client.cache.retry, now, limit);
      if |found| > 0 {
        :- client.Send(Unschedule(client.cache, found));
      } else {
        assert Ids(found) == {};
        WithoutNone(client.cache.retry);
      }
      return Done, found;
    }
  }

  class ReconciliationRunner {
    const client: Client
    const cfg: Config

    constructor (client: Client, cfg: Config)
      ensures this.client == client && this.cfg == cfg
    {
      this.client := client;
      this.cfg := cfg;
    }

    /** The order by the event's own reference, or by its payload's, backfilling the former. */
    method ResolveOrder(e: nat, row: Event, ghost now: nat) returns (r: Status, order: Option<Found>)
      modifies client`calls, client`db
      ensures var o := if row.orderId.Some? then row.orderId.value else row.raw.orderId;
              var found := o in old(client.db.orders);
              && (r.Done? ==>
                    && order == (if found then Some(Found(o, old(client.db.orders)[o])) else None)
                    && client.db == if row.orderId.None? && found then AttachOrder(old(client.db), e, o)
                                    else old(client.db))
              && client.calls == old(client.calls)
                   + if client.fault(old(client.calls)).NoFault? && row.orderId.None? && found then 2 else 1
      ensures r.Thrown? <==> Threw(client.fault, old(client.calls), client.calls)
      ensures r.Done? ==>
                RunFor(cfg, now, e, old(client.db), FindOrder(row), client.fault, old(client.calls))
                == RunFor(cfg, now, e, client.db, AfterOrder(cfg, row, order), client.fault, client.calls)
      ensures r.Thrown? ==>
                RunFor(cfg, now, e, old(client.db), FindOrder(row), client.fault, old(client.calls))
                == Ran(client.db, Increment, client.calls)
    {
      order := None;
      :- client.Query();
      if row.orderId.Some? {
        return Done, Lookup(client.db, row.orderId.value);
      }
      var found := Lookup(client.db, row.raw.orderId);
      if found.Some? {
        :- client.Write(AttachOrder(client.db, e, found.value.id));
      }
      return Done, found;
    }

    /** The run issues exactly the commands of the pipeline's run, in the same order and with
        the same effects, up to its return or its first exception. */
    method Run(e: nat, now: nat) returns (r: Status)
      modifies client`calls, client`db
      ensures r.Thrown? <==> Threw(client.fault, old(client.calls), client.calls)
      ensures RunFor(cfg, now, e, old(client.db), FindEvent, client.fault, old(client.calls))
              == Ran(client.db, if r.Done? then AckReturned else Increment, client.calls)
    {
      r := Done;
      :- client.Query();
      if e !in client.db.events {
        return Done;
      }
      var row := client.db.events[e];
      var order :- ResolveOrder(e, row, now);
      var result := Reconcile(row, OrderOf(order), cfg.delayThreshold);
      r := Persist(e, row, order, result, now);
    }

    /** The writes of a run once its verdict is known. */
    method Persist(e: nat, row: Event, order: Option<Found>, result: Verdict, now: nat) returns (r: Status)
      requires result == Judge(row, OrderOf(order), cfg.delayThreshold)
      modifies client`calls, client`db
      ensures old(client.calls) <= client.calls
      ensures r.Thrown? <==> Threw(client.fault, old(client.calls), client.calls)
      ensures RunFor(cfg, now, e, old(client.db), AfterOrder(cfg, row, order), client.fault, old(client.calls))
              == Ran(client.db, if r.Done? then AckReturned else Increment, client.calls)
    {
      if |result.mismatches| > 0 {
        :- client.Write(InsertMismatches(client.db, e, result.mismatches));
      }
      assert RunFor(cfg, now, e, old(client.db), AfterOrder(cfg, row, order), client.fault, old(client.calls))
             == RunFor(cfg, now, e, client.db, AfterMismatches(row, order, result), client.fault, client.calls);
      if result.statusUpdate.Some? && order.Some? {
        r := Book(e, row, order.value, result.statusUpdate.value, result.state, now);
      } else {
        r := client.Write(MarkProcessed(client.db, e, result.state, now));
      }
    }

    /** The status write, and the transaction after it. */
    method Book(e: nat, row: Event, order: Found, to: OrderStatus, state: ReconciliationState,
        now: nat) returns (r: Status)
      modifies client`calls, client`db
      ensures old(client.calls) <= client.calls
      ensures r.Thrown? <==> Threw(client.fault, old(client.calls), client.calls)
      ensures RunFor(cfg, now, e, old(client.db), SetStatus(row, order, to, state), client.fault, old(client.calls))
              == Ran(client.db, if r.Done? then AckReturned else Increment, client.calls)
    {
      r := Done;
      :- client.Write(UpdateStatus(client.db, order.id, to));
      var drafts := CreateLedgerEntries(row.amount, row.currency, to);
      ghost var db, calls := client.db, client.calls;
      r := client.Write(CommitBooking(client.db, e, order.id, drafts, state, now));
      assert RunFor(cfg, now, e, db, Commit(row, order, to, state), client.fault, calls)
             == Ran(client.db, if r.Done? then AckReturned else Increment, client.calls);
    }
  }

  class StreamConsumer {
    const client: Client
    const cfg: Config
    const lock: DistributedLock
    const retrySchedule: RetrySchedule
    const runner: ReconciliationRunner

    predicate Wired() {
      lock.client == client && retrySchedule.client == client && runner.client == client && runner.cfg == cfg
    }

    constructor (client: Client, runner: ReconciliationRunner)
      requires runner.client == client
      ensures this.client == client && this.runner == runner && cfg == runner.cfg && Wired()
    {
      this.client := client;
      this.runner := runner;
      cfg := runner.cfg;
      lock := new DistributedLock(client);
      retrySchedule := new RetrySchedule(client);
    }

    method Acknowledge(i: nat) returns (r: Status)
      modifies client`calls, client`cache
      ensures client.calls == old(client.calls) + 1 && r == StatusOf(client.fault(old(client.calls)))
      ensures client.cache == if client.fault(old(client.calls)).Before? then old(client.cache)
                              else Ack(old(client.cache), i)
    {
      r := client.Send(Ack(client.cache, i));
    }

    /** Counts the failure, acknowledges the message, and dead-letters or reschedules. */
    method HandleFailure(e: nat, i: nat, now: nat, u: real) returns (r: Status)
      requires Wired()
      modifies client`calls, client`db, client`cache
      ensures var h := Advance(cfg, now, u, e, i, old(client.db), old(client.cache), Increment, client.fault,
                               old(client.calls));
              && client.db == h.db && client.cache == h.cache && client.calls == h.calls
              && (r.Thrown? <==> h.outcome.Aborted?)
    {
      r := client.Write(IncrementAttempts(client.db, e));
      if r.Done? {
        var attempts := if e in client.db.events then client.db.events[e].attempts else 0;
        r := AcknowledgeFailure(e, i, attempts, now, u);
      }
    }

    /** The acknowledgement comes before the dead letter or the reschedule. */
    method AcknowledgeFailure(e: nat, i: nat, attempts: nat, now: nat, u: real) returns (r: Status)
      requires Wired()
      modifies client`calls, client`db, client`cache
      ensures var h := Advance(cfg, now, u, e, i, old(client.db), old(client.cache), AckFailed(attempts),
                               client.fault, old(client.calls));
              && client.db == h.db && client.cache == h.cache && client.calls == h.calls
              && (r.Thrown? <==> h.outcome.Aborted?)
    {
      r := Done;
      :- Acknowledge(i);
      if attempts >= cfg.maxAttempts {
        r := Bury(e, i, attempts, now, u);
      } else {
        r := Reschedule(e, i, attempts, now, u);
      }
    }

    /** The dead letter's unique key may throw by itself. */
    method Bury(e: nat, ghost i: nat, attempts: nat, now: nat, ghost u: real) returns (r: Status)
      modifies client`calls, client`db
      ensures var h := Advance(cfg, now, u, e, i, old(client.db), client.cache, Pipeline.Bury(attempts), client.fault,
                               old(client.calls));
              && client.db == h.db && client.cache == h.cache && client.calls == h.calls
              && (r.Thrown? <==> h.outcome.Aborted?)
    {
      if e in client.db.deadLetters {
        var thrown := client.Query();
        return Thrown;
      }
      :- client.Write(InsertDeadLetter(client.db, e, attempts));
      r := client.Write(MarkProcessed(client.db, e, DeadLettered, now));
    }

    method Reschedule(e: nat, ghost i: nat, attempts: nat, now: nat, u: real) returns (r: Status)
      requires Wired()
      modifies client`calls, client`db, client`cache
      ensures var h := Advance(cfg, now, u, e, i, old(client.db), old(client.cache), MarkFailedState(attempts),
                               client.fault, old(client.calls));
              && client.db == h.db && client.cache == h.cache && client.calls == h.calls
              && (r.Thrown? <==> h.outcome.Aborted?)
    {
      r := Done;
      :- client.Write(MarkFailed(client.db, e));
      ghost var db, cache, calls := client.db, client.cache, client.calls;
      r := retrySchedule.ScheduleRetry(e, now + NonNegative(BackoffMs(attempts, u)));
      assert Advance(cfg, now, u, e, i, db, cache, Pipeline.Reschedule(attempts), client.fault, calls)
             == Handling(client.db, client.cache, if r.Done? then Rescheduled else Aborted, client.calls);
    }

    method RunAndAcknowledge(e: nat, i: nat, now: nat, u: real) returns (r: Status)
      requires Wired()
      modifies client`calls, client`db, client`cache
      ensures var h := Advance(cfg, now, u, e, i, old(client.db), old(client.cache), FindEvent, client.fault,
                               old(client.calls));
              && client.db == h.db && client.cache == h.cache && client.calls == h.calls
              && (r.Thrown? <==> h.outcome.Aborted?)
    {
      RunThenRest(cfg, now, u, e, i, client.db, client.cache, FindEvent, client.fault, client.calls,
                  RunFor(cfg, now, e, client.db, FindEvent, client.fault, client.calls),
                  Advance(cfg, now, u, e, i, client.db, client.cache, FindEvent, client.fault, client.calls));
      r := runner.Run(e, now);
      r := AcknowledgeOrFail(r, e, i, now, u);
    }

    /** The failure handler catches what the run or its acknowledgement throws. */
    method AcknowledgeOrFail(ran: Status, e: nat, i: nat, now: nat, u: real) returns (r: Status)
      requires Wired()
      modifies client`calls, client`db, client`cache
      ensures var stage := if ran.Done? then AckReturned else Increment;
              var h := Advance(cfg, now, u, e, i, old(client.db), old(client.cache), stage, client.fault,
                               old(client.calls));
              && client.db == h.db && client.cache == h.cache && client.calls == h.calls
              && (r.Thrown? <==> h.outcome.Aborted?)
    {
      r := ran;
      if r.Done? {
        ghost var db, cache, calls := client.db, client.cache, client.calls;
        r := Acknowledge(i);
        AfterReturn(cfg, now, u, e, i, db, cache, client.fault, calls);
      }
      if r.Thrown? {
        r := HandleFailure(e, i, now, u);
      }
    }

    /** The lock is released whatever the run and its failure handler do. */
    method HandleLocked(e: nat, i: nat, token: nat, now: nat, u: real) returns (r: Status)
      requires Wired()
      modifies client`calls, client`db, client`cache
      ensures Hold(cfg, now, u, e, i, token, old(client.db), old(client.cache), client.fault, old(client.calls))
              == Served(client.db, client.cache, r.Done?, client.calls)
    {
      r := RunAndAcknowledge(e, i, now, u);
      var released := lock.Release(e, token, now);
      if released.Thrown? {
        return Thrown;
      }
    }

    /** One stream entry, from the lock to the release; an exception thrown on, or by the
        release, reaches the loop and leaves the rest of the batch. */
    method HandleMessage(i: nat, now: nat, u: real) returns (r: Status)
      requires Wired() && i < |client.cache.log|
      modifies client`calls, client`db, client`cache
      ensures Serve(cfg, now, u, i, old(client.db), old(client.cache), client.fault, old(client.calls))
              == Served(client.db, client.cache, r.Done?, client.calls)
    {
      ghost var db, cache, calls := client.db, client.cache, client.calls;
      var e := client.cache.log[i];
      var token;
      r, token := lock.Acquire(e, now, cfg.lockTtl);
      if r.Thrown? {
        ServeThrows(cfg, now, u, i, db, cache, client.fault, calls);
      } else if token.None? {
        ServeSkips(cfg, now, u, i, db, cache, client.fault, calls);
        r := Acknowledge(i);
      } else {
        r := HandleLocked(e, i, token.value, now, u);
        ServeHolds(cfg, now, u, i, db, cache, client.fault, calls,
                   Served(client.db, client.cache, r.Done?, client.calls));
      }
    }

    /** A turn of the loop reads a batch and, unless that throws or finds nothing, handles it.
        This is the read: the group's next unread entries, in order, at most batchSize. */
    method ReadBatch() returns (r: Status, lo: nat, end: nat)
      modifies client`calls, client`cache
      ensures client.calls == old(client.calls) + 1 && r == StatusOf(client.fault(old(client.calls)))
      ensures client.cache == if client.fault(old(client.calls)).Before? then old(client.cache)
                              else ReadGroup(old(client.cache), cfg.batchSize)
      ensures lo == old(client.cache.cursor)
      ensures end == if lo >= |old(client.cache.log)| then lo
                     else if lo + cfg.batchSize <= |old(client.cache.log)| then lo + cfg.batchSize
                     else |old(client.cache.log)|
      ensures lo <= end <= lo + cfg.batchSize
      ensures r.Done? && lo <= |client.cache.log| ==> end == client.cache.cursor <= |client.cache.log|
      ensures r.Done? && lo < |client.cache.log| ==> lo < end
    {
      lo := client.cache.cursor;
      end := lo + Available(client.cache, cfg.batchSize);
      r := client.Send(ReadGroup(client.cache, cfg.batchSize));
    }

    /** The rest of the turn: every entry of the batch one after another, until one throws. */
    method HandleBatch(i: nat, end: nat, now: nat, u: real)
      requires Wired() && end <= |client.cache.log|
      modifies client`calls, client`db, client`cache
      ensures ServeBatch(cfg, now, u, i, end, old(client.db), old(client.cache), client.fault, old(client.calls))
              == Batched(client.db, client.cache, client.calls)
      ensures client.cache.log == old(client.cache.log)
    {
      var next := i;
      while next < end
        invariant end <= |client.cache.log| && client.cache.log == old(client.cache.log)
        invariant ServeBatch(cfg, now, u, i, end, old(client.db), old(client.cache), client.fault, old(client.calls))
                  == ServeBatch(cfg, now, u, next, end, client.db, client.cache, client.fault, client.calls)
      {
        ghost var db, cache, calls := client.db, client.cache, client.calls;
        var r := HandleMessage(next, now, u);
        ServeKeepsLog(cfg, now, u, next, db, cache, client.fault, calls);
        ServeBatchNext(cfg, now, u, next, end, db, cache, client.fault, calls,
                       Served(client.db, client.cache, r.Done?, client.calls));
        if r.Thrown? {
          return;
        }
        next := next + 1;
      }
    }

    /** Moves due retries back to the stream, one by one, after removing them all.  It throws
        exactly when one of its calls does, which is then the last: a query, a removal if
        anything is due, and a publication for each due event. */
    method PromoteDueRetries(now: nat) returns (r: Status)
      requires Wired()
      modifies client`calls, client`cache
      ensures var due := Due(old(client.cache.retry), now, cfg.batchSize);
              var removed := Unschedule(old(client.cache), due);
              var calls := old(client.calls);
              var pulls := if due == [] then 1 else 2;
              && (r.Thrown? <==> Threw(client.fault, calls, client.calls))
              && (r.Done? ==>
                    client.calls == calls + pulls + |due| && client.cache == removed.(log := removed.log + due))
              && (r.Thrown? ==>
                    && calls < client.calls <= calls + pulls + |due|
                    && !Threw(client.fault, calls, client.calls - 1)
                    && var last := client.fault(client.calls - 1);
                       client.cache == if client.calls == calls + 1 || (client.calls == calls + 2 && last.Before?)
                                       then old(client.cache)
                                       else if client.calls == calls + 2 then removed
                                       else removed.(log := removed.log + due[..client.calls - calls - 2
                                                                             - (if last.Before? then 1 else 0)]))
    {
      ghost var calls := client.calls;
      var pulled, due := retrySchedule.PullDue(now, cfg.batchSize);
      ghost var removed := client.cache;
      if pulled.Thrown? {
        return pulled;
      }
      ghost var sent := client.calls;
      assert removed.log + due[..0] == removed.log;
      for k := 0 to |due|
        invariant client.calls == sent + k && !Threw(client.fault, calls, client.calls)
        invariant client.cache == removed.(log := removed.log + due[..k])
      {
        assert due[..k + 1] == due[..k] + [due[k]];
        :- client.Send(Publish(client.cache, due[k]));
      }
      assert due[..|due|] == due;
      return Done;
    }
  }

  class IdempotencyService {
    const client: Client
    const ttl: nat

    constructor (client: Client, ttl: nat)
      ensures this.client == client && this.ttl == ttl
    {
      this.client := client;
      this.ttl := ttl;
    }

    method MarkIfNew(key: nat, now: nat) returns (r: Status, isNew: bool)
      modifies client`calls, client`cache
      ensures client.calls == old(client.calls) + 1 && r == StatusOf(client.fault(old(client.calls)))
      ensures client.cache == if client.fault(old(client.calls)).Before? then old(client.cache)
                              else SetKey(old(client.cache), key, now, ttl)
      ensures isNew <==> r.Done? && KeyFree(old(client.cache), key, now)
    {
      isNew := false;
      var free := KeyFree(client.cache, key, now);
      :- client.Send(SetKey(client.cache, key, now, ttl));
      return Done, free;
    }
  }

  datatype WebhookResult = Accepted(event: nat) | Duplicate(existing: Option<nat>) | Unauthorized | Invalid | Errored

  class WebhookService {
    const client: Client
    const idempotency: IdempotencyService

    predicate Wired() { idempotency.client == client }

    constructor (client: Client, ttl: nat)
      ensures this.client == client && Wired() && idempotency.ttl == ttl
    {
      this.client := client;
      idempotency := new IdempotencyService(client, ttl);
    }

    /** A webhook that passed its checks; `id` is the id a new row would get.  It fails exactly
        when one of its calls throws, which is then the last: key, order, row and message, or key
        and row for a duplicate. */
    method Process(p: Payload, id: nat, now: nat) returns (r: WebhookResult)
      requires Wired() && id !in client.db.events
      modifies client`calls, client`db, client`cache
      ensures r.Errored? <==> Threw(client.fault, old(client.calls), client.calls)
      ensures Answered(old(client.db), old(client.cache), p, id, now, idempotency.ttl, client.fault,
                       old(client.calls), client.calls, client.db, client.cache, r)
    {
      var status, isNew := idempotency.MarkIfNew(p.gatewayId, now);
      if status.Thrown? {
        return Errored;
      }
      if !isNew {
        status := client.Query();
        return if status.Thrown? then Errored else Duplicate(FindByGateway(client.db, p.gatewayId));
      }
      r := TakeIn(p, id);
    }

    /** The order looked up, the row stored and the message published. */
    method TakeIn(p: Payload, id: nat) returns (r: WebhookResult)
      requires id !in client.db.events
      modifies client`calls, client`db, client`cache
      ensures r.Errored? <==> Threw(client.fault, old(client.calls), client.calls)
      ensures Taken(old(client.db), old(client.cache), p, id, client.fault, old(client.calls), client.calls, client.db,
                    client.cache, r)
    {
      ghost var calls := client.calls;
      var status := client.Query();
      if status.Thrown? {
        return Errored;
      }
      var order := if p.orderId in client.db.orders then Some(p.orderId) else None;
      status := client.Write(UpsertPending(client.db, id, p, order));
      if status.Thrown? {
        return Errored;
      }
      assert !Threw(client.fault, calls, calls + 2) && client.db == Stored(old(client.db), p, id);
      var e := client.db.byGateway[p.gatewayId];
      assert e == StoredId(old(client.db), p, id);
      status := client.Send(Publish(client.cache, e));
      return if status.Thrown? then Errored else Accepted(e);
    }

    /** One webhook; `signed` and `body` are what signature and schema checks make of it. */
    method ProcessWebhook(signed: bool, body: Option<Payload>, id: nat, now: nat) returns (r: WebhookResult)
      requires Wired() && id !in client.db.events
      modifies client`calls, client`db, client`cache
      ensures r.Unauthorized? <==> !signed
      ensures r.Invalid? <==> signed && (body.None? || body.value.amount <= 0)
      ensures r.Errored? <==> Threw(client.fault, old(client.calls), client.calls)
      ensures r.Unauthorized? || r.Invalid? ==>
                client.db == old(client.db) && client.cache == old(client.cache) && client.calls == old(client.calls)
      ensures signed && body.Some? && 0 < body.value.amount ==>
                Answered(old(client.db), old(client.cache), body.value, id, now, idempotency.ttl, client.fault,
                         old(client.calls), client.calls, client.db, client.cache, r)
    {
      if !signed {
        return Unauthorized;
      }
      if body.None? || !WellFormed(body.value) {
        return Invalid;
      }
      r := Process(body.value, id, now);
    }
  }

  function StoredId(db: Db, p: Payload, id: nat): nat {
    if p.gatewayId in db.byGateway then db.byGateway[p.gatewayId] else id
  }

  function Stored(db: Db, p: Payload, id: nat): Db {
    UpsertPending(db, id, p, if p.orderId in db.orders then Some(p.orderId) else None)
  }

  /** What taking a payload in leaves, from its first call to its last: the last of three, or
      the first that throws, without or with its effect. */
  ghost predicate Taken(db: Db, cache: Cache, p: Payload, id: nat, fault: nat -> Fault, first: nat, next: nat,
      db': Db, cache': Cache, r: WebhookResult)
  {
    var published := cache.(log := cache.log + [StoredId(db, p, id)]);
    && first < next <= first + 3 && !Threw(fault, first, next - 1)
    && var last, made := fault(next - 1), next - first;
       match r
       case Accepted(x) => made == 3 && x == StoredId(db, p, id) && db' == Stored(db, p, id) && cache' == published
       case Errored =>
         && !last.NoFault?
         && db' == (if made == 1 || (made == 2 && last.Before?) then db else Stored(db, p, id))
         && cache' == if made == 3 && last.After? then published else cache
       case _ => false
  }

  /** What a webhook that passed its checks leaves: a key that throws, a duplicate answered or
      not, or a payload taken in. */
  ghost predicate Answered(db: Db, cache: Cache, p: Payload, id: nat, now: nat, ttl: nat, fault: nat -> Fault,
      first: nat, next: nat, db': Db, cache': Cache, r: WebhookResult)
  {
    var isNew := p.gatewayId in cache.idem ==> cache.idem[p.gatewayId] <= now;
    var keyed := SetKey(cache, p.gatewayId, now, ttl);
    if !fault(first).NoFault? then
      r == Errored && next == first + 1 && db' == db && cache' == if fault(first).Before? then cache else keyed
    else if isNew then
      Taken(db, keyed, p, id, fault, first + 1, next, db', cache', r)
    else
      && next == first + 2 && db' == db && cache' == cache
      && r == if !fault(first + 1).NoFault? then Errored
              else if p.gatewayId in db.byGateway then Duplicate(Some(db.byGateway[p.gatewayId])) else Duplicate(None)
  }
}
