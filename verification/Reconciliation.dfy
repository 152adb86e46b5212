/** The verdict on one payment event against its order, and the ledger pair it leads to. */
module Reconciliation {
  import opened Domain

  datatype Verdict = Verdict(
    state: ReconciliationState, mismatches: seq<Reason>, statusUpdate: Option<OrderStatus>)

  predicate SameMoney(event: Event, order: Order) {
    event.amount == order.amount && event.currency == order.currency
  }

  predicate Delayed(event: Event, order: Order, threshold: int) {
    event.receivedAt - order.createdAt > threshold
  }

  /** When an event is accepted as moving its order to a new status. */
  predicate Accepted(event: Event, order: Order, threshold: int) {
    && SameMoney(event, order)
    && !Delayed(event, order, threshold)
    && match event.gatewayStatus {
         case Success => order.status != OrderStatus.Paid
         case Refunded => order.status == OrderStatus.Paid
         case _ => false
       }
  }

  function Complaints(event: Event, order: Order, threshold: int): seq<Reason> {
    (if SameMoney(event, order) then [] else [Reason.AmountMismatch])
    + (if Delayed(event, order, threshold) then [DelayedWebhook] else [])
    + (if event.gatewayStatus.Success? && order.status.Paid? then [DuplicatePayment] else [])
    + (if event.gatewayStatus.Refunded? && !order.status.Paid? then [StatusConflict] else [])
  }

  function Judge(event: Event, order: Option<Order>, threshold: int): Verdict {
    if order.None? then
      Verdict(ReconciliationState.Mismatched, [MissingOrder], None)
    else
      var complaints := Complaints(event, order.value, threshold);
      if complaints != [] then Verdict(Mismatched, complaints, None)
      else match event.gatewayStatus {
        case Pending => Verdict(ReconciliationState.Pending, [], None)
        case Success => Verdict(ReconciliationState.Matched, [], Some(Paid))
        case Refunded => Verdict(ReconciliationState.Matched, [], Some(OrderStatus.Refunded))
        case Failed => Verdict(ReconciliationState.Matched, [], None)
      }
  }

  /** The reconciler, collecting its complaints one by one. */
  method Reconcile(event: Event, order: Option<Order>, threshold: int) returns (v: Verdict)
    ensures v == Judge(event, order, threshold)
  {
    if order.None? {
      return Verdict(ReconciliationState.Mismatched, [MissingOrder], None);
    }
    var o := order.value;
    var mismatches := [];
    if event.amount != o.amount || event.currency != o.currency {
      mismatches := mismatches + [Reason.AmountMismatch];
    }
    var delay := event.receivedAt - o.createdAt;
    if delay > threshold {
      mismatches := mismatches + [DelayedWebhook];
    }
    if event.gatewayStatus == PaymentStatus.Success && o.status == OrderStatus.Paid {
      mismatches := mismatches + [DuplicatePayment];
    }
    if event.gatewayStatus == PaymentStatus.Refunded && o.status != OrderStatus.Paid {
      mismatches := mismatches + [StatusConflict];
    }
    if |mismatches| > 0 {
      return Verdict(Mismatched, mismatches, None);
    }
    if event.gatewayStatus == PaymentStatus.Pending {
      return Verdict(ReconciliationState.Pending, [], None);
    }
    if event.gatewayStatus == PaymentStatus.Success {
      return Verdict(ReconciliationState.Matched, [], Some(Paid));
    }
    if event.gatewayStatus == PaymentStatus.Refunded {
      return Verdict(ReconciliationState.Matched, [], Some(OrderStatus.Refunded));
    }
    return Verdict(ReconciliationState.Matched, [], None);
  }

  /** A verdict moves the order exactly when the event is accepted, it then moves it to the
      status the event announces and never to the one it has, and it names no reason; the
      state is Mismatched exactly when some reason is named. */
  lemma VerdictMovesExactlyAccepted(event: Event, order: Option<Order>, threshold: int)
    ensures var v := Judge(event, order, threshold);
            && (v.statusUpdate.Some? <==> order.Some? && Accepted(event, order.value, threshold))
            && (v.statusUpdate.Some? ==>
                  && v.statusUpdate.value != order.value.status
                  && (v.statusUpdate.value.Paid? <==> event.gatewayStatus.Success?)
                  && (v.statusUpdate.value.Refunded? <==> event.gatewayStatus.Refunded?)
                  && v.state.Matched?)
            && (v.state.Mismatched? <==> v.mismatches != [])
  {
    if order.Some? {
      var c := Complaints(event, order.value, threshold);
      if SameMoney(event, order.value) && !Delayed(event, order.value, threshold) {
        assert c == (if event.gatewayStatus.Success? && order.value.status.Paid? then [DuplicatePayment] else [])
                    + (if event.gatewayStatus.Refunded? && !order.value.status.Paid? then [StatusConflict] else []);
      } else {
        assert Reason.AmountMismatch in c || DelayedWebhook in c;
      }
    }
  }

  /** One of the checks objects to the event. */
  predicate Objected(event: Event, o: Order, threshold: int) {
    || event.amount != o.amount || event.currency != o.currency
    || event.receivedAt - o.createdAt > threshold
    || (event.gatewayStatus.Success? && o.status.Paid?)
    || (event.gatewayStatus.Refunded? && !o.status.Paid?)
  }

  /** The verdict, without its reasons: mismatched exactly when there is no order or a check
      objects; else pending exactly for a pending payment, and matched for every other; and the
      order is to be paid, or refunded, exactly for a payment, or a refund, that is matched. */
  lemma VerdictExactly(event: Event, order: Option<Order>, threshold: int)
    ensures var v := Judge(event, order, threshold);
            var fine := order.Some? && !Objected(event, order.value, threshold);
            && v.state == (if !fine then ReconciliationState.Mismatched
                           else if event.gatewayStatus == PaymentStatus.Pending then ReconciliationState.Pending
                           else ReconciliationState.Matched)
            && v.statusUpdate == (if fine && event.gatewayStatus == PaymentStatus.Success then Some(Paid)
                                  else if fine && event.gatewayStatus == PaymentStatus.Refunded
                                  then Some(OrderStatus.Refunded) else None)
  {
    if order.Some? {
      var complaints := Complaints(event, order.value, threshold);
      if Objected(event, order.value, threshold) {
        forall r: Reason {
          ComplaintsExactly(event, order.value, threshold, r);
        }
        assert complaints != [];
      } else {
        assert complaints == [];
      }
    }
  }

  lemma InFour(a: seq<Reason>, b: seq<Reason>, c: seq<Reason>, d: seq<Reason>, r: Reason)
    ensures r in a + b + c + d <==> r in a || r in b || r in c || r in d
  {}

  lemma ComplaintsExactly(event: Event, o: Order, threshold: int, r: Reason)
    ensures r in Complaints(event, o, threshold) <==>
              match r
              case AmountMismatch => event.amount != o.amount || event.currency != o.currency
              case DelayedWebhook => event.receivedAt - o.createdAt > threshold
              case DuplicatePayment => event.gatewayStatus.Success? && o.status.Paid?
              case StatusConflict => event.gatewayStatus.Refunded? && !o.status.Paid?
              case MissingOrder => false
  {
    InFour(if SameMoney(event, o) then [] else [Reason.AmountMismatch],
           if Delayed(event, o, threshold) then [DelayedWebhook] else [],
           if event.gatewayStatus.Success? && o.status.Paid? then [DuplicatePayment] else [],
           if event.gatewayStatus.Refunded? && !o.status.Paid? then [StatusConflict] else [], r);
  }

  /** Each reason is named exactly when its own condition holds; without an order the
      one reason is that it is missing. */
  lemma ReasonsExactly(event: Event, order: Option<Order>, threshold: int)
    ensures var v := Judge(event, order, threshold);
            && (MissingOrder in v.mismatches <==> order.None?)
            && (order.None? ==> v.mismatches == [MissingOrder])
            && (order.Some? ==>
                  var o := order.value;
                  && (Reason.AmountMismatch in v.mismatches <==>
                        event.amount != o.amount || event.currency != o.currency)
                  && (DelayedWebhook in v.mismatches <==> event.receivedAt - o.createdAt > threshold)
                  && (DuplicatePayment in v.mismatches <==> event.gatewayStatus.Success? && o.status.Paid?)
                  && (StatusConflict in v.mismatches <==> event.gatewayStatus.Refunded? && !o.status.Paid?))
  {
    if order.Some? {
      assert Judge(event, order, threshold).mismatches == Complaints(event, order.value, threshold);
      forall r: Reason {
        ComplaintsExactly(event, order.value, threshold, r);
      }
    }
  }

  /** The place of a reason among the checks. */
  function Place(r: Reason): nat {
    match r
    case MissingOrder => 0
    case AmountMismatch => 1
    case DelayedWebhook => 2
    case DuplicatePayment => 3
    case StatusConflict => 4
  }

  /** No reason is named twice, and they come in the order of the checks. */
  lemma ReasonsDistinct(event: Event, order: Option<Order>, threshold: int, i: nat, j: nat)
    requires i < j < |Judge(event, order, threshold).mismatches|
    ensures Judge(event, order, threshold).mismatches[i] != Judge(event, order, threshold).mismatches[j]
    ensures Place(Judge(event, order, threshold).mismatches[i]) < Place(Judge(event, order, threshold).mismatches[j])
  {
    if order.Some? {
      var o := order.value;
      var ab := (if SameMoney(event, o) then [] else [Reason.AmountMismatch])
                + (if Delayed(event, o, threshold) then [DelayedWebhook] else []);
      var c := if event.gatewayStatus.Success? && o.status.Paid? then [DuplicatePayment] else [];
      var d := if event.gatewayStatus.Refunded? && !o.status.Paid? then [StatusConflict] else [];
      assert Complaints(event, o, threshold) == ab + (c + d);
    }
  }

  function CreateLedgerEntries(amount: int, currency: string, status: OrderStatus): seq<Draft> {
    if status != OrderStatus.Paid && status != OrderStatus.Refunded then []
    else [Draft(GatewayReceivable, Debit, amount, currency), Draft(MerchantPayable, Credit, amount, currency)]
  }
}
