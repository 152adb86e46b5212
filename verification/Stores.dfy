/** The services' handle on the two stores.  Every call is one awaited command: it counts
    itself, and the environment decides whether it succeeds, or throws without or with its
    effect. */
module Stores {
  import opened Tables
  import opened Pipeline

  /** How a call ends; `:-` passes an exception on. */
  datatype Status = Done | Thrown {
    predicate IsFailure() { Thrown? }
    function PropagateFailure(): Status { this }
  }

  function StatusOf(fault: Fault): Status { if fault.NoFault? then Done else Thrown }

  /** One of the calls from `lo` up to `hi` throws. */
  ghost predicate Threw(fault: nat -> Fault, lo: nat, hi: nat) {
    exists k :: lo <= k < hi && !fault(k).NoFault?
  }

  class Client {
    var db: Db
    var cache: Cache
    var calls: nat
    const fault: nat -> Fault

    constructor (fault: nat -> Fault)
      ensures db == EMPTY_DB && cache == EMPTY_CACHE && calls == 0 && this.fault == fault
    {
      db, cache, calls := EMPTY_DB, EMPTY_CACHE, 0;
      this.fault := fault;
    }

    /** A command that only reads. */
    method Query() returns (r: Status)
      modifies this`calls
      ensures calls == old(calls) + 1 && r == StatusOf(fault(old(calls)))
    {
      r := StatusOf(fault(calls));
      calls := calls + 1;
    }

    /** A command or transaction that takes Postgres to `to`. */
    method Write(to: Db) returns (r: Status)
      modifies this`calls, this`db
      ensures calls == old(calls) + 1 && r == StatusOf(fault(old(calls)))
      ensures db == if fault(old(calls)).Before? then old(db) else to
    {
      r := StatusOf(fault(calls));
      if fault(calls) != Before {
        db := to;
      }
      calls := calls + 1;
    }

    /** A command that takes Redis to `to`. */
    method Send(to: Cache) returns (r: Status)
      modifies this`calls, this`cache
      ensures calls == old(calls) + 1 && r == StatusOf(fault(old(calls)))
      ensures cache == if fault(old(calls)).Before? then old(cache) else to
    {
      r := StatusOf(fault(calls));
      if fault(calls) != Before {
        cache := to;
      }
      calls := calls + 1;
    }
  }
}
