/** app/services/payment_service.py: the webhook that finalises payments.  The gateway's order id is
    the payment's index, and the signature check is a boolean input. */
module Payments {
  import opened Tables
  import opened Inventory
  import opened InventoryServices
  import opened Lifecycle
  import opened Database

  datatype WebhookKind = PaymentCaptured | PaymentFailed | OtherKind

  datatype Webhook = Webhook(kind: WebhookKind, event: Option<EventId>, gatewayOrder: Option<nat>, hasPaymentId: bool)

  datatype WebhookOutcome =
    | BadSignature
    | Duplicate
    | Malformed
    | UnknownOrder
    | AlreadyCaptured
    | CapturedPaid
    | CapturedNeedsRefund
    | CaptureAborted
    | FailedRecorded
    | Ignored

  predicate EventSeen(payments: seq<Payment>, event: Option<EventId>) {
    event.Some? && exists p | 0 <= p < |payments| :: payments[p].event == event
  }

  function FindPayment(payments: seq<Payment>, gatewayOrder: Option<nat>): (r: Option<PaymentId>)
    ensures r.Some? ==> r.value < |payments|
  {
    if gatewayOrder.Some? && gatewayOrder.value < |payments| then gatewayOrder else None
  }

  function Stamp(event: Option<EventId>, payment: Payment): Option<EventId> {
    if event.Some? then event else payment.event
  }

  /** The stock side of a capture: the sale of a reservation-backed order, or the consumption of a
      legacy order's stored reservation. */
  function SaleOf(s: Shop, o: OrderId): Option<Shop>
    requires o < |s.orders|
  {
    if s.orders[o].session.Some? then SaleCompleted(s, o)
    else match Post(Consume, s.book, s.orders[o].lines, o)
      case None => None
      case Some(b) => Some(s.(book := b))
  }

  function CaptureTaken(s: Shop, p: PaymentId, event: Option<EventId>): Option<Shop>
    requires p < |s.payments| && s.payments[p].order < |s.orders|
  {
    var o := s.payments[p].order;
    match SaleOf(s, o)
    case None => None
    case Some(t) =>
      var paid := s.payments[p].(status := GatewayStatus.Captured, event := Stamp(event, s.payments[p]));
      Some(t.(payments := s.payments[p := paid],
              orders := s.orders[o := s.orders[o].(paid := Paid)]))
  }

  /** Money captured that cannot be fulfilled: the order is not paid, the payment awaits a refund. */
  function Unfulfillable(s: Shop, p: PaymentId, event: Option<EventId>): Shop
    requires p < |s.payments|
  {
    var event := Stamp(event, s.payments[p]);
    var owed := s.payments[p].(status := GatewayStatus.Captured, event := event, refundDue := true);
    s.(payments := s.payments[p := owed])
  }

  /** A legacy release of a hold that was never there cannot be refused by the CHECK constraints. */
  function MarkedFailed(s: Shop, p: PaymentId, event: Option<EventId>): (r: Shop)
    requires p < |s.payments| && s.payments[p].order < |s.orders|
    ensures r == s.(book := r.book, sessions := r.sessions, orders := r.orders, payments := r.payments)
  {
    var o := s.payments[p].order;
    if s.payments[p].status == GatewayStatus.Captured || s.orders[o].paid == Paid then s
    else
      var t := if s.orders[o].session.Some? then HoldCancelled(s, o)
               else match Post(Release, s.book, s.orders[o].lines, o)
                 case None => s
                 case Some(b) => s.(book := b);
      t.(payments := s.payments[p := s.payments[p].(status := GatewayFailed, event := Stamp(event, s.payments[p]))],
         orders := s.orders[o := s.orders[o].(paid := Failed)])
  }

  predicate PaymentsResolve(s: Shop) {
    forall p | 0 <= p < |s.payments| :: s.payments[p].order < |s.orders|
  }

  function WebhookHandled(s: Shop, w: Webhook, signatureOk: bool): (r: (WebhookOutcome, Shop))
    requires PaymentsResolve(s)
    ensures r.1 == s.(book := r.1.book, sessions := r.1.sessions, orders := r.1.orders, payments := r.1.payments)
  {
    if !signatureOk then (BadSignature, s)
    else if EventSeen(s.payments, w.event) then (Duplicate, s)
    else match w.kind
      case PaymentCaptured =>
        if w.gatewayOrder.None? || !w.hasPaymentId then (Malformed, s)
        else (match FindPayment(s.payments, w.gatewayOrder)
          case None => (UnknownOrder, s)
          case Some(p) => CaptureHandled(s, p, w.event))
      case PaymentFailed =>
        (match FindPayment(s.payments, w.gatewayOrder)
          case None => (UnknownOrder, s)
          case Some(p) => (FailedRecorded, MarkedFailed(s, p, w.event)))
      case OtherKind => (Ignored, s)
  }

  function CaptureHandled(s: Shop, p: PaymentId, event: Option<EventId>): (r: (WebhookOutcome, Shop))
    requires p < |s.payments| && s.payments[p].order < |s.orders|
    ensures r.1 == s.(book := r.1.book, sessions := r.1.sessions, orders := r.1.orders, payments := r.1.payments)
  {
    var order := s.orders[s.payments[p].order];
    if s.payments[p].status == GatewayStatus.Captured then
      (AlreadyCaptured, s.(payments := s.payments[p := s.payments[p].(event := event)]))
    else if order.session.Some? && order.status == OrderCancelled then
      (CapturedNeedsRefund, Unfulfillable(s, p, event))
    else match CaptureTaken(s, p, event)
      case None =>
        if CheckRefuses(s, s.payments[p].order) then (CaptureAborted, s)
        else (CapturedNeedsRefund, Unfulfillable(s, p, event))
      case Some(t) => (CapturedPaid, t)
  }

  /** Only the out-of-stock error is caught.  A legacy order has no test of its own: what its consumption
      takes below zero the database refuses, which aborts the whole request. */
  predicate CheckRefuses(s: Shop, o: OrderId)
    requires o < |s.orders|
  {
    s.orders[o].session.None? && ApplyLines(Consume, s.book, s.orders[o].lines, o).Some?
  }

  /** A late capture of a legacy order of one unit: its payment had failed, which released the unit, and the
      unit has been sold since. */
  lemma CaptureCanAbort(s: Shop)
    requires s.book.rows == map[0 := Stock(0, 0, 0)] && s.payments == [Payment(0, GatewayFailed, None, false)]
    requires s.orders == [Order(None, false, [Line(0, 1)], Placed, Failed)]
    ensures CaptureHandled(s, 0, None) == (CaptureAborted, s)
  {
    assert [Line(0, 1)][..0] == [];
    assert Total([Line(0, 1)], 0) == 1;
    CaptureAbortsIff(s, 0, None);
  }

  /** When a capture records nothing at all. */
  lemma CaptureAbortsIff(s: Shop, p: PaymentId, event: Option<EventId>)
    requires p < |s.payments| && s.payments[p].order < |s.orders| && AllChecked(s.book.rows)
    requires s.payments[p].status != GatewayStatus.Captured
    ensures var order := s.orders[s.payments[p].order];
            CaptureHandled(s, p, event).0 == CaptureAborted <==>
            && order.session.None? && Present(s.book, order.lines)
            && exists v <- s.book.rows :: s.book.rows[v].stock < Total(order.lines, v)
    ensures CaptureHandled(s, p, event).0 == CaptureAborted ==> CaptureHandled(s, p, event).1 == s
  {
    var o := s.payments[p].order;
    PostsIff(Consume, s.book, s.orders[o].lines, o);
    LoopSucceedsIff(Consume, s.book, s.orders[o].lines, o);
  }

  class PaymentService {
    const db: Db
    const inventory: InventoryService
    const lifecycle: ReservationLifecycleService

    predicate Wired() {
      inventory.db == db && lifecycle.db == db && lifecycle.inventory.db == db
    }

    constructor (db: Db)
      ensures this.db == db && Wired()
    {
      this.db := db;
      inventory := new InventoryService(db);
      lifecycle := new ReservationLifecycleService(db);
    }

    method HandleWebhook(w: Webhook, signatureOk: bool) returns (r: WebhookOutcome)
      requires Wired() && PaymentsResolve(db.Contents())
      requires AllChecked(db.rows)
      modifies db`rows, db`ledger, db`sessions, db`orders, db`payments
      ensures (r, db.Contents()) == WebhookHandled(old(db.Contents()), w, signatureOk)
    {
      if !signatureOk {
        return BadSignature;
      }
      if w.event.Some? && exists p | 0 <= p < |db.payments| :: db.payments[p].event == w.event {
        return Duplicate;
      }
      if w.kind == PaymentCaptured {
        if w.gatewayOrder.None? || !w.hasPaymentId {
          return Malformed;
        }
        var found := FindPayment(db.payments, w.gatewayOrder);
        if found.None? {
          return UnknownOrder;
        }
        r := HandleCaptured(found.value, w.event);
      } else if w.kind == PaymentFailed {
        var found := FindPayment(db.payments, w.gatewayOrder);
        if found.None? {
          return UnknownOrder;
        }
        MarkFailed(found.value, w.event);
        r := FailedRecorded;
      } else {
        r := Ignored;
      }
    }

    method HandleCaptured(p: PaymentId, event: Option<EventId>) returns (r: WebhookOutcome)
      requires Wired() && p < |db.payments| && db.payments[p].order < |db.orders|
      modifies db`rows, db`ledger, db`sessions, db`orders, db`payments
      ensures (r, db.Contents()) == CaptureHandled(old(db.Contents()), p, event)
    {
      var payment := db.payments[p];
      if payment.status == GatewayStatus.Captured {
        db.payments := db.payments[p := payment.(event := event)];
        return AlreadyCaptured;
      }
      var order := db.orders[payment.order];
      if order.session.Some? && order.status == OrderCancelled {
        RecordCaptureUnfulfillable(p, event);
        return CapturedNeedsRefund;
      }
      var ok, refused := Capture(p, event);
      if refused {
        return CaptureAborted;
      }
      if !ok {
        RecordCaptureUnfulfillable(p, event);
        return CapturedNeedsRefund;
      }
      return CapturedPaid;
    }

    /** One savepoint: on an error nothing of it remains. */
    method Capture(p: PaymentId, event: Option<EventId>) returns (ok: bool, refused: bool)
      requires Wired() && p < |db.payments| && db.payments[p].order < |db.orders|
      modifies db`rows, db`ledger, db`sessions, db`orders, db`payments
      ensures ok ==> CaptureTaken(old(db.Contents()), p, event) == Some(db.Contents())
      ensures !ok ==> CaptureTaken(old(db.Contents()), p, event) == None && db.Contents() == old(db.Contents())
      ensures refused <==> !ok && CheckRefuses(old(db.Contents()), old(db.payments)[p].order)
    {
      refused := false;
      var o := db.payments[p].order;
      var rows, ledger := db.rows, db.ledger;
      if db.orders[o].session.Some? {
        ok := lifecycle.CompleteSale(o);
      } else {
        ok, refused := inventory.ConsumeReservation(db.orders[o].lines, o);
      }
      if !ok {
        db.rows, db.ledger := rows, ledger;
        return;
      }
      var paid := db.payments[p].(status := GatewayStatus.Captured, event := Stamp(event, db.payments[p]));
      db.payments := db.payments[p := paid];
      db.orders := db.orders[o := db.orders[o].(paid := Paid)];
    }

    method RecordCaptureUnfulfillable(p: PaymentId, event: Option<EventId>)
      requires p < |db.payments|
      modifies db`payments
      ensures db.Contents() == Unfulfillable(old(db.Contents()), p, event)
    {
      var payment := db.payments[p];
      payment := payment.(status := GatewayStatus.Captured);
      if event.Some? {
        payment := payment.(event := event);
      }
      db.payments := db.payments[p := payment.(refundDue := true)];
    }

    method MarkFailed(p: PaymentId, event: Option<EventId>)
      requires Wired() && p < |db.payments| && db.payments[p].order < |db.orders|
      requires AllChecked(db.rows)
      modifies db`rows, db`ledger, db`sessions, db`orders, db`payments
      ensures db.Contents() == MarkedFailed(old(db.Contents()), p, event)
    {
      var o := db.payments[p].order;
      if db.payments[p].status == GatewayStatus.Captured || db.orders[o].paid == Paid {
        return;
      }
      if db.orders[o].session.Some? {
        lifecycle.CancelForOrder(o);
      } else {
        PostsIff(Release, db.Stocks(), db.orders[o].lines, o);
        var released := inventory.ReleaseReservation(db.orders[o].lines, o);
      }
      db.payments := db.payments[p := db.payments[p].(status := GatewayFailed, event := Stamp(event, db.payments[p]))];
      db.orders := db.orders[o := db.orders[o].(paid := Failed)];
    }
  }
}
