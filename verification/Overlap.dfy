/** What holds of one order when several workers handle it at once: exactly how its bookings
    follow from its status writes, and exactly when it is booked twice. */
module Overlap {
  import opened Domain
  import opened Reconciliation
  import opened Tables
  import opened Pipeline
  import opened Integrity
  import opened Leases
  import opened Booking
  import Backoff
  import Spacing

  // ---------- the steps that count ----------

  predicate Acts(s: State, step: Step) {
    step.Work? && Backoff.IsDraw(step.u) && IsWorking(s, step.w) && !JobOf(s, step.w).stage.Release?
  }

  /** The step writes the status of the order. */
  predicate Writes(s: State, step: Step, o: nat) {
    Acts(s, step) && JobOf(s, step.w).stage.SetStatus? && JobOf(s, step.w).stage.found.id == o && !step.fault.Before?
  }

  /** The step books for the order. */
  predicate Books(s: State, step: Step, o: nat) {
    Acts(s, step) && JobOf(s, step.w).stage.Commit? && JobOf(s, step.w).stage.found.id == o && !step.fault.Before?
  }

  /** It writes the status although whether the order is paid has changed since its worker
      read the order. */
  predicate WritesStale(s: State, step: Step, o: nat) {
    && Writes(s, step, o) && o in s.db.orders
    && JobOf(s, step.w).stage.found.order.status.Paid? != s.db.orders[o].status.Paid?
  }

  ghost predicate NoStaleWrite(cfg: Config, steps: seq<Step>, o: nat) {
    forall k: nat | k < |steps| :: !WritesStale(At(cfg, steps, k), steps[k], o)
  }

  // ---------- what a step does to the order ----------

  /** The runs between their write of status `x` and their booking. */
  function Windows(s: State, o: nat, x: OrderStatus): set<nat> {
    set w | w in s.workers && InWindow(s, w, o) && JobOf(s, w).stage.to == x
  }

  lemma CommandMoves(cfg: Config, s: State, w: nat, fault: Fault, u: real)
    requires Acts(s, Work(w, fault, u))
    ensures var job := JobOf(s, w);
            var reply := HandleCommand(cfg, s.now, u, job.event, s.workers[w].i, s.db, s.cache, job.stage);
            var t := Apply(cfg, s, Work(w, fault, u));
            && Moved(s, t, w, if fault.NoFault? then reply.stage else OnThrow(job.stage))
            && t.db == if fault.Before? then s.db else reply.db
  {}

  lemma OthersInWindow(s: State, t: State, w: nat, stage: Stage, o: nat, x: OrderStatus)
    requires Moved(s, t, w, stage)
    ensures Windows(t, o, x) - {w} == Windows(s, o, x) - {w}
  {
    OthersUnmoved(s, t, w, stage, o);
  }

  lemma WriteEffect(cfg: Config, s: State, w: nat, fault: Fault, u: real, o: nat)
    requires Inv(cfg, s) && Writes(s, Work(w, fault, u), o)
    ensures var st := JobOf(s, w).stage; var t := Apply(cfg, s, Work(w, fault, u));
            && o in s.db.orders && t.db == UpdateStatus(s.db, o, st.to)
            && FlipsOf(t.db, o) == FlipsOf(s.db, o) + [st.to]
            && VerdictOk(cfg, st.row, st.found, st.to, st.state)
            && (st.row.gatewayStatus.Refunded? ==> RefundSeen(s.db, o))
            && Moved(s, t, w, if fault.NoFault? then Commit(st.row, st.found, st.to, st.state) else Increment)
  {
    CommandMoves(cfg, s, w, fault, u);
    assert WorkerOk(cfg, s.db, s.cache.log, s.workers[w]);
    assert EventOk(s.db, JobOf(s, w).event);
  }

  lemma BookEffect(cfg: Config, s: State, w: nat, fault: Fault, u: real, o: nat)
    requires Inv(cfg, s) && Books(s, Work(w, fault, u), o)
    ensures var t := Apply(cfg, s, Work(w, fault, u));
            && t.db.orders == s.db.orders && t.db.flips == s.db.flips
            && KindsOf(t.db, o) == KindsOf(s.db, o) + [JobOf(s, w).stage.to]
            && Moved(s, t, w, if fault.NoFault? then AckReturned else Increment)
  {
    var job := JobOf(s, w);
    CommandMoves(cfg, s, w, fault, u);
    assert WorkerOk(cfg, s.db, s.cache.log, s.workers[w]);
    CommitKinds(cfg, s.db, job.event, job.stage.row, job.stage.found, job.stage.to, job.stage.state, s.now, o);
  }

  lemma ReplyAside(cfg: Config, now: nat, u: real, e: nat, i: nat, db: Db, cache: Cache, stage: Stage, o: nat)
    requires DbOk(cfg, db) && e in db.events && StageOk(cfg, db, e, stage) && !stage.Release? && !stage.Commit?
    requires stage.SetStatus? ==> stage.found.id != o
    ensures var db' := HandleCommand(cfg, now, u, e, i, db, cache, stage).db;
            KindsOf(db', o) == KindsOf(db, o) && SameStatus(db, db', o)
  {
    CommandBooksNothing(cfg, now, u, e, i, db, cache, stage, o);
    if !stage.SetStatus? {
      CommandLeaves(cfg, now, u, e, i, db, cache, stage);
    }
  }

  /** A command that does neither leaves the order's status and bookings alone. */
  lemma CommandAside(cfg: Config, s: State, w: nat, fault: Fault, u: real, o: nat)
    requires Inv(cfg, s) && Acts(s, Work(w, fault, u))
    requires !Writes(s, Work(w, fault, u), o) && !Books(s, Work(w, fault, u), o)
    ensures var t := Apply(cfg, s, Work(w, fault, u));
            && FlipsOf(t.db, o) == FlipsOf(s.db, o) && KindsOf(t.db, o) == KindsOf(s.db, o)
            && SameStatus(s.db, t.db, o)
  {
    var job := JobOf(s, w);
    CommandMoves(cfg, s, w, fault, u);
    assert WorkerOk(cfg, s.db, s.cache.log, s.workers[w]);
    if !fault.Before? {
      if job.stage.Commit? {
        CommitKinds(cfg, s.db, job.event, job.stage.row, job.stage.found, job.stage.to, job.stage.state, s.now, o);
      } else {
        ReplyAside(cfg, s.now, u, job.event, s.workers[w].i, s.db, s.cache, job.stage, o);
      }
    }
  }

  /** And opens no window for it. */
  lemma CommandWindows(cfg: Config, s: State, w: nat, fault: Fault, u: real, o: nat, x: OrderStatus)
    requires Inv(cfg, s) && Acts(s, Work(w, fault, u))
    requires !Writes(s, Work(w, fault, u), o) && !Books(s, Work(w, fault, u), o)
    ensures Windows(Apply(cfg, s, Work(w, fault, u)), o, x) == Windows(s, o, x) - {w}
  {
    var t := Apply(cfg, s, Work(w, fault, u));
    CommandMoves(cfg, s, w, fault, u);
    NoNewWindow(cfg, s, w, fault, u, o);
    OthersInWindow(s, t, w, JobOf(t, w).stage, o, x);
    assert w !in Windows(t, o, x);
    assert Windows(t, o, x) == Windows(t, o, x) - {w};
  }

  lemma NoNewWindow(cfg: Config, s: State, w: nat, fault: Fault, u: real, o: nat)
    requires Acts(s, Work(w, fault, u)) && !Writes(s, Work(w, fault, u), o)
    ensures !InWindow(Apply(cfg, s, Work(w, fault, u)), w, o)
  {
    var job := JobOf(s, w);
    CommandMoves(cfg, s, w, fault, u);
    if !job.stage.SetStatus? {
      NextHolderAny(cfg, s.now, u, job.event, s.workers[w].i, s.db, s.cache, job.stage, o);
    }
  }

  /** Nor does any other step. */
  lemma StatusAside(cfg: Config, s: State, step: Step, o: nat)
    requires !Acts(s, step)
    ensures var t := Apply(cfg, s, step); SameStatus(s.db, t.db, o)
  {
    match step {
      case Handle(h, id) => if h in s.handlers { HandleLeavesOrders(cfg, s, h, id); }
      case AdvanceUpload(n) => if n in s.uploads { UploadLeavesOrders(s.db, s.now, s.uploads[n]); }
      case Work(w, fault, u) => if w in s.workers && Backoff.IsDraw(u) { AwayMoves(cfg, s, w, fault, u); }
      case CreateOrder(p, amount, currency) =>
      case Crash(w) =>
      case StartWorker(w) =>
      case _ => QuietStep(cfg, s, step);
    }
  }

  lemma StepAside(cfg: Config, s: State, step: Step, o: nat)
    requires Inv(cfg, s) && !Acts(s, step)
    ensures var t := Apply(cfg, s, step); SameStatus(s.db, t.db, o) && KindsOf(t.db, o) == KindsOf(s.db, o)
  {
    StatusAside(cfg, s, step, o);
    LedgerLengthKept(cfg, s, step);
    Integrity.StepKeeps(cfg, s, step);
    SameKinds(s.db, Apply(cfg, s, step).db, o);
  }

  lemma CommitsStay(cfg: Config, s: State, step: Step, v: nat)
    requires !Acts(s, step) && step != Crash(v) && IsWorking(s, v) && JobOf(s, v).stage.Commit?
    ensures IsWorking(Apply(cfg, s, step), v) && JobOf(Apply(cfg, s, step), v) == JobOf(s, v)
  {
    match step {
      case Handle(h, id) => if h in s.handlers { HandleLeavesOrders(cfg, s, h, id); }
      case Work(w, fault, u) => if w in s.workers && Backoff.IsDraw(u) { AwayMoves(cfg, s, w, fault, u); }
      case _ =>
    }
  }

  /** Of the other steps only a crash closes a window. */
  lemma WindowsAside(cfg: Config, s: State, step: Step, o: nat, x: OrderStatus)
    requires !Acts(s, step)
    ensures Windows(Apply(cfg, s, step), o, x) == Windows(s, o, x) - (if step.Crash? then {step.w} else {})
  {
    var t := Apply(cfg, s, step);
    LedgerLengthKept(cfg, s, step);
    forall v ensures v in Windows(t, o, x) <==> v in Windows(s, o, x) && step != Crash(v) {
      if v in Windows(s, o, x) && step != Crash(v) {
        CommitsStay(cfg, s, step, v);
      }
    }
  }

  // ---------- bookings and status writes ----------

  /** The order has the status written last, and refunds are written only when there are any. */
  ghost predicate LastWritten(db: Db, o: nat) {
    var f := FlipsOf(db, o);
    && (o in db.orders ==> db.orders[o].status == if f == [] then Created else f[|f| - 1])
    && (o !in db.orders ==> f == [])
    && (forall i | 0 <= i < |f| :: f[i].Paid? || f[i].Refunded?)
    && (!RefundSeen(db, o) ==> forall i | 0 <= i < |f| :: f[i].Paid?)
  }

  lemma LastKept(a: Db, b: Db, o: nat)
    requires LastWritten(a, o) && SameStatus(a, b, o) && (RefundSeen(a, o) ==> RefundSeen(b, o))
    ensures LastWritten(b, o)
  {}

  lemma LastAfterWrite(a: Db, b: Db, o: nat, to: OrderStatus)
    requires LastWritten(a, o) && o in a.orders && b == UpdateStatus(a, o, to) && FlipsOf(b, o) == FlipsOf(a, o) + [to]
    requires to.Paid? || (to.Refunded? && RefundSeen(a, o))
    requires RefundSeen(a, o) ==> RefundSeen(b, o)
    ensures LastWritten(b, o)
  {}

  lemma LastWrittenStep(cfg: Config, s: State, step: Step, o: nat)
    requires Inv(cfg, s) && LastWritten(s.db, o)
    ensures LastWritten(Apply(cfg, s, step).db, o)
  {
    var t := Apply(cfg, s, step);
    Integrity.StepKeeps(cfg, s, step);
    if RefundSeen(s.db, o) {
      RefundStays(s.db, t.db, o);
    }
    if Writes(s, step, o) {
      var st := JobOf(s, step.w).stage;
      WriteEffect(cfg, s, step.w, step.fault, step.u, o);
      VerdictMovesExactlyAccepted(st.row, Some(st.found.order), cfg.delayThreshold);
      LastAfterWrite(s.db, t.db, o, st.to);
    } else {
      NoWriteSameStatus(cfg, s, step, o);
      LastKept(s.db, t.db, o);
    }
  }

  lemma NoWriteSameStatus(cfg: Config, s: State, step: Step, o: nat)
    requires Inv(cfg, s) && !Writes(s, step, o)
    ensures SameStatus(s.db, Apply(cfg, s, step).db, o)
  {
    if Books(s, step, o) {
      BookEffect(cfg, s, step.w, step.fault, step.u, o);
    } else if Acts(s, step) {
      CommandAside(cfg, s, step.w, step.fault, step.u, o);
    } else {
      StatusAside(cfg, s, step, o);
    }
  }

  lemma {:induction false} LastWrittenAlways(cfg: Config, steps: seq<Step>, o: nat)
    ensures LastWritten(Exec(cfg, steps).db, o)
  {
    if steps != [] {
      LastWrittenAlways(cfg, steps[..|steps| - 1], o);
      Integrity.Always(cfg, steps[..|steps| - 1]);
      LastWrittenStep(cfg, Exec(cfg, steps[..|steps| - 1]), steps[|steps| - 1], o);
    }
  }

  // ---------- every status write is booked, about to be, or stopped ----------

  function Written(stage: Stage): Option<OrderStatus> {
    if stage.SetStatus? || stage.Commit? then Some(stage.to) else None
  }

  /** The step stops a run of the order after its write of status `x` and before its booking. */
  predicate StopsWith(s: State, step: Step, o: nat, x: OrderStatus) {
    Stops(s, step, o) && Written(JobOf(s, step.w).stage) == Some(x)
  }

  /** How many such steps there have been. */
  function Stopped(cfg: Config, steps: seq<Step>, o: nat, x: OrderStatus): nat {
    if steps == [] then 0
    else
      var before := steps[..|steps| - 1];
      Stopped(cfg, before, o, x) + if StopsWith(Exec(cfg, before), steps[|steps| - 1], o, x) then 1 else 0
  }

  ghost predicate Balanced(s: State, o: nat, x: OrderStatus, stopped: nat) {
    Count(KindsOf(s.db, o), x) + |Windows(s, o, x)| + stopped == Count(FlipsOf(s.db, o), x)
  }

  lemma CountMore(k: seq<OrderStatus>, y: OrderStatus, x: OrderStatus)
    ensures Count(k + [y], x) == Count(k, x) + if y == x then 1 else 0
  {
    assert (k + [y])[..|k|] == k;
  }

  /** Only worker `w` has moved. */
  lemma Rebalanced(s: State, t: State, w: nat, o: nat, x: OrderStatus, n: nat, m: nat)
    requires Balanced(s, o, x, n) && Windows(t, o, x) - {w} == Windows(s, o, x) - {w}
    requires Count(KindsOf(t.db, o), x) - Count(KindsOf(s.db, o), x) + m - n
             + (if w in Windows(t, o, x) then 1 else 0) - (if w in Windows(s, o, x) then 1 else 0)
             == Count(FlipsOf(t.db, o), x) - Count(FlipsOf(s.db, o), x)
    ensures Balanced(t, o, x, m)
  {
    Spacing.SizeByOne(Windows(s, o, x), Windows(t, o, x), w);
  }

  lemma WriteOpens(s: State, t: State, w: nat, fault: Fault, u: real, o: nat, x: OrderStatus, stage: Stage)
    requires Writes(s, Work(w, fault, u), o) && Moved(s, t, w, stage)
    requires var st := JobOf(s, w).stage;
             stage == if fault.NoFault? then Commit(st.row, st.found, st.to, st.state) else Increment
    ensures w !in Windows(s, o, x)
    ensures w in Windows(t, o, x) <==> fault.NoFault? && JobOf(s, w).stage.to == x
    ensures StopsWith(s, Work(w, fault, u), o, x) <==> fault.After? && JobOf(s, w).stage.to == x
  {}

  lemma WriteBalances(cfg: Config, s: State, w: nat, fault: Fault, u: real, o: nat, x: OrderStatus, n: nat)
    requires Inv(cfg, s) && Balanced(s, o, x, n) && Writes(s, Work(w, fault, u), o)
    ensures Balanced(Apply(cfg, s, Work(w, fault, u)), o, x, n + if StopsWith(s, Work(w, fault, u), o, x) then 1 else 0)
  {
    var t := Apply(cfg, s, Work(w, fault, u));
    WriteEffect(cfg, s, w, fault, u, o);
    CountMore(FlipsOf(s.db, o), JobOf(s, w).stage.to, x);
    OthersInWindow(s, t, w, JobOf(t, w).stage, o, x);
    WriteOpens(s, t, w, fault, u, o, x, JobOf(t, w).stage);
    assert KindsOf(t.db, o) == KindsOf(s.db, o);
    Rebalanced(s, t, w, o, x, n, n + if StopsWith(s, Work(w, fault, u), o, x) then 1 else 0);
  }

  lemma BookBalances(cfg: Config, s: State, w: nat, fault: Fault, u: real, o: nat, x: OrderStatus, n: nat)
    requires Inv(cfg, s) && Balanced(s, o, x, n) && Books(s, Work(w, fault, u), o)
    ensures Balanced(Apply(cfg, s, Work(w, fault, u)), o, x, n) && !StopsWith(s, Work(w, fault, u), o, x)
  {
    var t := Apply(cfg, s, Work(w, fault, u));
    BookEffect(cfg, s, w, fault, u, o);
    CountMore(KindsOf(s.db, o), JobOf(s, w).stage.to, x);
    OthersInWindow(s, t, w, JobOf(t, w).stage, o, x);
    assert InWindow(s, w, o);
    Rebalanced(s, t, w, o, x, n, n);
  }

  /** A worker that neither writes nor books has at most left its window. */
  lemma LeavesWindow(s: State, t: State, w: nat, o: nat, x: OrderStatus, n: nat)
    requires Balanced(s, o, x, n) && Windows(t, o, x) == Windows(s, o, x) - {w}
    requires KindsOf(t.db, o) == KindsOf(s.db, o) && FlipsOf(t.db, o) == FlipsOf(s.db, o)
    ensures Balanced(t, o, x, n + if w in Windows(s, o, x) then 1 else 0)
  {
    Rebalanced(s, t, w, o, x, n, n + if w in Windows(s, o, x) then 1 else 0);
  }

  lemma CommandBalances(cfg: Config, s: State, w: nat, fault: Fault, u: real, o: nat, x: OrderStatus, n: nat)
    requires Inv(cfg, s) && Balanced(s, o, x, n) && Acts(s, Work(w, fault, u))
    requires !Writes(s, Work(w, fault, u), o) && !Books(s, Work(w, fault, u), o)
    ensures Balanced(Apply(cfg, s, Work(w, fault, u)), o, x, n + if StopsWith(s, Work(w, fault, u), o, x) then 1 else 0)
  {
    CommandAside(cfg, s, w, fault, u, o);
    CommandWindows(cfg, s, w, fault, u, o, x);
    LeavesWindow(s, Apply(cfg, s, Work(w, fault, u)), w, o, x, n);
    StopIsWindow(s, w, fault, u, o, x);
  }

  lemma StopIsWindow(s: State, w: nat, fault: Fault, u: real, o: nat, x: OrderStatus)
    requires Acts(s, Work(w, fault, u)) && !Writes(s, Work(w, fault, u), o) && !Books(s, Work(w, fault, u), o)
    ensures w in Windows(s, o, x) <==> StopsWith(s, Work(w, fault, u), o, x)
  {}

  lemma AsideBalances(cfg: Config, s: State, step: Step, o: nat, x: OrderStatus, n: nat)
    requires Inv(cfg, s) && Balanced(s, o, x, n) && !Acts(s, step)
    ensures Balanced(Apply(cfg, s, step), o, x, n + if StopsWith(s, step, o, x) then 1 else 0)
  {
    StepAside(cfg, s, step, o);
    WindowsAside(cfg, s, step, o, x);
    if step.Crash? {
      LeavesWindow(s, Apply(cfg, s, step), step.w, o, x, n);
    }
  }

  lemma StepBalances(cfg: Config, s: State, step: Step, o: nat, x: OrderStatus, n: nat)
    requires Inv(cfg, s) && Balanced(s, o, x, n)
    ensures Balanced(Apply(cfg, s, step), o, x, n + if StopsWith(s, step, o, x) then 1 else 0)
  {
    if Writes(s, step, o) {
      WriteBalances(cfg, s, step.w, step.fault, step.u, o, x, n);
    } else if Books(s, step, o) {
      BookBalances(cfg, s, step.w, step.fault, step.u, o, x, n);
    } else if Acts(s, step) {
      CommandBalances(cfg, s, step.w, step.fault, step.u, o, x, n);
    } else {
      AsideBalances(cfg, s, step, o, x, n);
    }
  }

  /** However many workers handle an order at once, and however they fail: each write of a
      status has been booked, is about to be, or was stopped before its booking. */
  lemma {:induction false} BookingsAreCounted(cfg: Config, steps: seq<Step>, o: nat, x: OrderStatus)
    ensures var s := Exec(cfg, steps);
            Count(KindsOf(s.db, o), x) + |Windows(s, o, x)| + Stopped(cfg, steps, o, x) == Count(FlipsOf(s.db, o), x)
  {
    if steps == [] {
      assert Windows(INIT, o, x) == {};
    } else {
      var before := steps[..|steps| - 1];
      BookingsAreCounted(cfg, before, o, x);
      Integrity.Always(cfg, before);
      StepBalances(cfg, Exec(cfg, before), steps[|steps| - 1], o, x, Stopped(cfg, before, o, x));
    }
  }

  // ---------- when the status writes alternate ----------

  lemma AlternatesLonger(f: seq<OrderStatus>, x: OrderStatus)
    ensures Alternates(f + [x]) <==> Alternates(f) && x == if |f| % 2 == 0 then Paid else OrderStatus.Refunded
  {
    assert (f + [x])[|f|] == x;
    assert forall i | 0 <= i < |f| :: (f + [x])[i] == f[i];
  }

  lemma WriteAlternates(cfg: Config, s: State, w: nat, fault: Fault, u: real, o: nat)
    requires Inv(cfg, s) && LastWritten(s.db, o) && Alternates(FlipsOf(s.db, o)) && Writes(s, Work(w, fault, u), o)
    ensures Alternates(FlipsOf(Apply(cfg, s, Work(w, fault, u)).db, o)) <==> !WritesStale(s, Work(w, fault, u), o)
  {
    var st := JobOf(s, w).stage;
    WriteEffect(cfg, s, w, fault, u, o);
    VerdictMovesExactlyAccepted(st.row, Some(st.found.order), cfg.delayThreshold);
    NextInTurn(s.db, o, st.to, st.found.order.status);
  }

  /** The next status in turn is the one that a verdict on the stored status leads to. */
  lemma NextInTurn(db: Db, o: nat, to: OrderStatus, read: OrderStatus)
    requires LastWritten(db, o) && o in db.orders && Alternates(FlipsOf(db, o))
    requires (to.Paid? && !read.Paid?) || (to.Refunded? && read.Paid?)
    ensures Alternates(FlipsOf(db, o) + [to]) <==> (read.Paid? <==> db.orders[o].status.Paid?)
  {
    AlternatesLonger(FlipsOf(db, o), to);
  }

  lemma StepAlternates(cfg: Config, s: State, step: Step, o: nat)
    requires Inv(cfg, s) && LastWritten(s.db, o)
    ensures Alternates(FlipsOf(Apply(cfg, s, step).db, o))
            <==> Alternates(FlipsOf(s.db, o)) && !WritesStale(s, step, o)
  {
    if Writes(s, step, o) {
      WriteEffect(cfg, s, step.w, step.fault, step.u, o);
      AlternatesLonger(FlipsOf(s.db, o), JobOf(s, step.w).stage.to);
      if Alternates(FlipsOf(s.db, o)) {
        WriteAlternates(cfg, s, step.w, step.fault, step.u, o);
      }
    } else {
      NoWriteSameStatus(cfg, s, step, o);
    }
  }

  lemma StaleWriteSplit(cfg: Config, steps: seq<Step>, o: nat)
    requires steps != []
    ensures var n := |steps| - 1;
            NoStaleWrite(cfg, steps, o)
            <==> NoStaleWrite(cfg, steps[..n], o) && !WritesStale(Exec(cfg, steps[..n]), steps[n], o)
  {
    var n := |steps| - 1;
    forall k: nat | k <= n ensures At(cfg, steps[..n], k) == At(cfg, steps, k) {
      AtPrefix(cfg, steps, n, k);
    }
    assert forall k: nat | k < n :: steps[..n][k] == steps[k];
  }

  /** In every run, with any number of workers and any failures, the status writes of an order
      alternate between paid and refunded if and only if each of them finds the order paid, or
      not paid, as its worker read it. */
  lemma {:induction false} AlternatesExactly(cfg: Config, steps: seq<Step>, o: nat)
    ensures Alternates(FlipsOf(Exec(cfg, steps).db, o)) <==> NoStaleWrite(cfg, steps, o)
  {
    if steps != [] {
      var before := steps[..|steps| - 1];
      AlternatesExactly(cfg, before, o);
      StaleWriteSplit(cfg, steps, o);
      Integrity.Always(cfg, before);
      LastWrittenAlways(cfg, before, o);
      StepAlternates(cfg, Exec(cfg, before), steps[|steps| - 1], o);
    }
  }

  // ---------- at most once, without exclusion ----------

  lemma {:induction false} Counts(k: seq<OrderStatus>)
    ensures |k| == Count(k, Created) + Count(k, Paid) + Count(k, Cancelled) + Count(k, OrderStatus.Refunded)
  {
    if k != [] { Counts(k[..|k| - 1]); }
  }

  lemma {:induction false} CountNone(f: seq<OrderStatus>, x: OrderStatus)
    requires x !in f
    ensures Count(f, x) == 0
  {
    if f != [] { CountNone(f[..|f| - 1], x); }
  }

  /** How many stale writes of status `x` there have been. */
  function StaleWrites(cfg: Config, steps: seq<Step>, o: nat, x: OrderStatus): nat {
    if steps == [] then 0
    else
      var before := steps[..|steps| - 1];
      StaleWrites(cfg, before, o, x) + if StaleWith(Exec(cfg, before), steps[|steps| - 1], o, x) then 1 else 0
  }

  predicate StaleWith(s: State, step: Step, o: nat, x: OrderStatus) {
    WritesStale(s, step, o) && JobOf(s, step.w).stage.to == x
  }

  function PaidOnce(db: Db, o: nat): nat { if o in db.orders && db.orders[o].status.Paid? then 1 else 0 }

  ghost predicate NetOk(db: Db, o: nat, paid: nat, refunded: nat) {
    Count(FlipsOf(db, o), Paid) - Count(FlipsOf(db, o), OrderStatus.Refunded) == PaidOnce(db, o) + paid - refunded
  }

  lemma WriteNets(cfg: Config, s: State, w: nat, fault: Fault, u: real, o: nat, paid: nat, refunded: nat)
    requires Inv(cfg, s) && NetOk(s.db, o, paid, refunded) && Writes(s, Work(w, fault, u), o)
    ensures var step := Work(w, fault, u);
            NetOk(Apply(cfg, s, step).db, o, paid + (if StaleWith(s, step, o, Paid) then 1 else 0),
                  refunded + if StaleWith(s, step, o, OrderStatus.Refunded) then 1 else 0)
  {
    var st := JobOf(s, w).stage;
    WriteEffect(cfg, s, w, fault, u, o);
    VerdictMovesExactlyAccepted(st.row, Some(st.found.order), cfg.delayThreshold);
    CountMore(FlipsOf(s.db, o), st.to, Paid);
    CountMore(FlipsOf(s.db, o), st.to, OrderStatus.Refunded);
  }

  lemma StepNets(cfg: Config, s: State, step: Step, o: nat, paid: nat, refunded: nat)
    requires Inv(cfg, s) && NetOk(s.db, o, paid, refunded)
    ensures NetOk(Apply(cfg, s, step).db, o, paid + (if StaleWith(s, step, o, Paid) then 1 else 0),
                  refunded + if StaleWith(s, step, o, OrderStatus.Refunded) then 1 else 0)
  {
    if Writes(s, step, o) {
      WriteNets(cfg, s, step.w, step.fault, step.u, o, paid, refunded);
    } else {
      NoWriteSameStatus(cfg, s, step, o);
    }
  }

  lemma {:induction false} WritesNet(cfg: Config, steps: seq<Step>, o: nat)
    ensures NetOk(Exec(cfg, steps).db, o, StaleWrites(cfg, steps, o, Paid),
                  StaleWrites(cfg, steps, o, OrderStatus.Refunded))
  {
    if steps != [] {
      var before := steps[..|steps| - 1];
      WritesNet(cfg, before, o);
      Integrity.Always(cfg, before);
      StepNets(cfg, Exec(cfg, before), steps[|steps| - 1], o, StaleWrites(cfg, before, o, Paid),
               StaleWrites(cfg, before, o, OrderStatus.Refunded));
    }
  }

  /** The runs that wrote status `x` and have not booked it. */
  function Unbooked(cfg: Config, steps: seq<Step>, o: nat, x: OrderStatus): nat {
    Stopped(cfg, steps, o, x) + |Windows(Exec(cfg, steps), o, x)|
  }

  /** In every run, however many workers handle the order and however they fail: what is booked
      as paid, less what is booked as refunded, is one if the order is paid, and one more for
      each stale write of a payment and each unbooked refund, and one less for each stale write
      of a refund and each unbooked payment. */
  lemma {:induction false} NetBookings(cfg: Config, steps: seq<Step>, o: nat)
    ensures var db := Exec(cfg, steps).db;
            Count(KindsOf(db, o), Paid) - Count(KindsOf(db, o), OrderStatus.Refunded)
            == PaidOnce(db, o)
               + StaleWrites(cfg, steps, o, Paid) - StaleWrites(cfg, steps, o, OrderStatus.Refunded)
               - Unbooked(cfg, steps, o, Paid) + Unbooked(cfg, steps, o, OrderStatus.Refunded)
  {
    WritesNet(cfg, steps, o);
    BookingsAreCounted(cfg, steps, o, Paid);
    BookingsAreCounted(cfg, steps, o, OrderStatus.Refunded);
  }

  lemma {:induction false} StaleAreWrites(cfg: Config, steps: seq<Step>, o: nat, x: OrderStatus)
    ensures StaleWrites(cfg, steps, o, x) <= Count(FlipsOf(Exec(cfg, steps).db, o), x)
  {
    if steps != [] {
      var before := steps[..|steps| - 1];
      var s, step := Exec(cfg, before), steps[|steps| - 1];
      StaleAreWrites(cfg, before, o, x);
      Integrity.Always(cfg, before);
      StaleIsWrite(cfg, s, step, o, x);
    }
  }

  lemma StaleIsWrite(cfg: Config, s: State, step: Step, o: nat, x: OrderStatus)
    requires Inv(cfg, s)
    ensures Count(FlipsOf(s.db, o), x) + (if StaleWith(s, step, o, x) then 1 else 0)
            <= Count(FlipsOf(Apply(cfg, s, step).db, o), x)
  {
    if Writes(s, step, o) {
      WriteEffect(cfg, s, step.w, step.fault, step.u, o);
      CountMore(FlipsOf(s.db, o), JobOf(s, step.w).stage.to, x);
    } else {
      NoWriteSameStatus(cfg, s, step, o);
    }
  }

  lemma {:induction false} OnlyPayments(cfg: Config, steps: seq<Step>, o: nat)
    requires !RefundSeen(Exec(cfg, steps).db, o)
    ensures var db := Exec(cfg, steps).db;
            && Count(FlipsOf(db, o), OrderStatus.Refunded) == 0
            && |FlipsOf(db, o)| == Count(FlipsOf(db, o), Paid) && |KindsOf(db, o)| == Count(KindsOf(db, o), Paid)
  {
    var db := Exec(cfg, steps).db;
    var f := FlipsOf(db, o);
    LastWrittenAlways(cfg, steps, o);
    BookingsAreCounted(cfg, steps, o, Created);
    BookingsAreCounted(cfg, steps, o, Cancelled);
    BookingsAreCounted(cfg, steps, o, OrderStatus.Refunded);
    Counts(f);
    Counts(KindsOf(db, o));
    CountNone(f, Created);
    CountNone(f, Cancelled);
    CountNone(f, OrderStatus.Refunded);
  }

  /** In every run, with any number of workers and any failures, an order that never sees a
      refund is booked at most once if and only if no more of its status writes were stale
      than of its runs were stopped, or still are, between status write and booking. */
  lemma {:induction false} AtMostOnceExactly(cfg: Config, steps: seq<Step>, o: nat)
    requires !RefundSeen(Exec(cfg, steps).db, o)
    ensures |KindsOf(Exec(cfg, steps).db, o)| <= 1
            <==> StaleWrites(cfg, steps, o, Paid) <= Unbooked(cfg, steps, o, Paid)
  {
    NetBookings(cfg, steps, o);
    OnlyPayments(cfg, steps, o);
    BookingsAreCounted(cfg, steps, o, Paid);
    BookingsAreCounted(cfg, steps, o, OrderStatus.Refunded);
    StaleAreWrites(cfg, steps, o, Paid);
    StaleAreWrites(cfg, steps, o, OrderStatus.Refunded);
    LastWrittenAlways(cfg, steps, o);
  }

  lemma {:induction false} NoneStopped(cfg: Config, steps: seq<Step>, o: nat, x: OrderStatus)
    requires NeverStopped(cfg, steps, o)
    ensures Stopped(cfg, steps, o, x) == 0
  {
    if steps != [] {
      var n := |steps| - 1;
      forall k: nat | k < n ensures !Stops(At(cfg, steps[..n], k), steps[..n][k], o) {
        AtPrefix(cfg, steps, n, k);
      }
      NoneStopped(cfg, steps[..n], o, x);
      assert !Stops(At(cfg, steps, n), steps[n], o);
    }
  }

  /** So where no run of the order was stopped there, and none is there now, it is booked at
      most once if and only if no status write was stale at all. */
  lemma {:induction false} AtMostOnceUnlessStale(cfg: Config, steps: seq<Step>, o: nat)
    requires NeverStopped(cfg, steps, o) && !SomeInWindow(Exec(cfg, steps), o) && !RefundSeen(Exec(cfg, steps).db, o)
    ensures |KindsOf(Exec(cfg, steps).db, o)| <= 1 <==> NoStaleWrite(cfg, steps, o)
  {
    var s := Exec(cfg, steps);
    var f := FlipsOf(s.db, o);
    NoneStopped(cfg, steps, o, Paid);
    assert Windows(s, o, Paid) == {};
    BookingsAreCounted(cfg, steps, o, Paid);
    OnlyPayments(cfg, steps, o);
    AlternatesExactly(cfg, steps, o);
    LastWrittenAlways(cfg, steps, o);
    if Alternates(f) { LongerHasRefund(f); }
  }

  /** As long as no status write is stale, an order is booked at most one payment more than
      refunds are written, and one that never sees a refund at most once. */
  lemma {:induction false} AtMostOnceWithoutStaleWrites(cfg: Config, steps: seq<Step>, o: nat)
    requires NoStaleWrite(cfg, steps, o)
    ensures var db := Exec(cfg, steps).db;
            && Count(KindsOf(db, o), Paid) <= Count(FlipsOf(db, o), OrderStatus.Refunded) + 1
            && (!RefundSeen(db, o) ==> |KindsOf(db, o)| <= 1)
  {
    var f := FlipsOf(Exec(cfg, steps).db, o);
    AlternatesExactly(cfg, steps, o);
    AlternationNets(f);
    BookingsAreCounted(cfg, steps, o, Paid);
    if !RefundSeen(Exec(cfg, steps).db, o) { OnlyPayments(cfg, steps, o); }
  }

  /** One worker at a time never writes a stale status: the guard is weaker than exclusion. */
  lemma {:induction false} ExclusiveWritesAreFresh(cfg: Config, steps: seq<Step>, o: nat)
    requires AlwaysExclusive(cfg, steps, o)
    ensures NoStaleWrite(cfg, steps, o)
  {
    BookingsFollowStatusWrites(cfg, steps, o);
    AlternatesExactly(cfg, steps, o);
  }
}
