/** What the webhook answers and leaves, in the columns of payments, orders and sessions. */
module PaymentOutcomes {
  import opened Tables
  import opened Inventory
  import opened Payments
  import opened StockOutcomes
  import opened HoldOutcomes

  /** Some payment row carries the event's id. */
  predicate Recorded(s: Shop, event: Option<EventId>) {
    event.Some? && exists q | 0 <= q < |s.payments| :: s.payments[q].event == event
  }

  predicate Found(s: Shop, w: Webhook) {
    w.gatewayOrder.Some? && w.gatewayOrder.value < |s.payments|
  }

  /** Every answer of the webhook before it looks at a payment: a bad signature first, then a recorded event,
      then what the payload lacks. */
  lemma WebhookAnswers(s: Shop, w: Webhook, signatureOk: bool)
    requires PaymentsResolve(s)
    ensures var (r, t) := WebhookHandled(s, w, signatureOk);
            var looked := signatureOk && !Recorded(s, w.event);
            && (r == BadSignature <==> !signatureOk)
            && (r == Duplicate <==> signatureOk && Recorded(s, w.event))
            && (r == Malformed <==> looked && w.kind == PaymentCaptured && (w.gatewayOrder.None? || !w.hasPaymentId))
            && (r == UnknownOrder <==>
                looked && !Found(s, w) &&
                ((w.kind == PaymentCaptured && w.gatewayOrder.Some? && w.hasPaymentId) || w.kind == PaymentFailed))
            && (r == FailedRecorded <==> looked && w.kind == PaymentFailed && Found(s, w))
            && (r == Ignored <==> looked && w.kind == OtherKind)
            && (r in {BadSignature, Duplicate, Malformed, UnknownOrder, Ignored} ==> t == s)
  {
  }

  /** A first, well-formed capture is about exactly the payment it names. */
  predicate FirstCapture(s: Shop, w: Webhook, p: PaymentId) {
    && w.kind == PaymentCaptured && w.gatewayOrder == Some(p) && w.hasPaymentId && p < |s.payments|
    && !Recorded(s, w.event) && s.payments[p].status != GatewayStatus.Captured
  }

  function EventAfter(w: Webhook, was: Payment): Option<EventId> {
    if w.event.Some? then w.event else was.event
  }

  /** It is recorded and either fulfilled or flagged for refund, or the request aborts; no other payment and no
      other order changes. */
  lemma CaptureRecords(s: Shop, w: Webhook, p: PaymentId)
    requires PaymentsResolve(s) && FirstCapture(s, w, p)
    ensures WebhookHandled(s, w, true).0 in {CapturedPaid, CapturedNeedsRefund, CaptureAborted}
    ensures var (r, t) := WebhookHandled(s, w, true);
            var was, o := s.payments[p], s.payments[p].order;
            && |t.payments| == |s.payments| && |t.orders| == |s.orders|
            && (forall q | 0 <= q < |s.payments| && q != p :: t.payments[q] == s.payments[q])
            && (forall q | 0 <= q < |s.orders| && q != o :: t.orders[q] == s.orders[q])
            && (r == CaptureAborted ==> t == s)
            && (r == CapturedPaid ==>
                  && t.payments[p] == Payment(o, GatewayStatus.Captured, EventAfter(w, was), was.refundDue)
                  && t.orders[o] == s.orders[o].(paid := Paid))
            && (r == CapturedNeedsRefund ==>
                  && t.payments[p] == Payment(o, GatewayStatus.Captured, EventAfter(w, was), true)
                  && t.orders == s.orders && t.book == s.book && t.sessions == s.sessions)
  {
    assert !EventSeen(s.payments, w.event);
    assert WebhookHandled(s, w, true) == CaptureHandled(s, p, w.event);
  }

  /** Which of them: a reservation-backed order that stands is fulfilled iff stock covers its lines, and flagged
      for refund otherwise; a cancelled one is flagged. */
  lemma CaptureFulfilsIff(s: Shop, w: Webhook, p: PaymentId)
    requires PaymentsResolve(s) && FirstCapture(s, w, p) && AllChecked(s.book.rows)
    requires s.orders[s.payments[p].order].session.Some?
    ensures var r, order := WebhookHandled(s, w, true).0, s.orders[s.payments[p].order];
            && (r == CapturedPaid <==>
                && order.status != OrderCancelled
                && (forall k | 0 <= k < |order.lines| :: order.lines[k].variant in s.book.rows)
                && forall v <- s.book.rows :: Total(order.lines, v) <= s.book.rows[v].stock)
            && r != CaptureAborted
  {
    var o := s.payments[p].order;
    assert !EventSeen(s.payments, w.event);
    assert WebhookHandled(s, w, true) == CaptureHandled(s, p, w.event);
    GoesThroughIff(CommitSale, s.book, s.orders[o].lines, o);
  }

  /** Fulfilled, its units have left stock and its session is completed with all its rows. */
  lemma FulfilledCaptureTakes(s: Shop, w: Webhook, p: PaymentId, i: SessionId, v: VariantId)
    requires PaymentsResolve(s) && FirstCapture(s, w, p) && AllChecked(s.book.rows)
    requires s.orders[s.payments[p].order].session == Some(i) && i < |s.sessions|
    requires WebhookHandled(s, w, true).0 == CapturedPaid && v in s.book.rows
    ensures var t, lines := WebhookHandled(s, w, true).1, s.orders[s.payments[p].order].lines;
            && v in t.book.rows && t.book.rows[v].stock == s.book.rows[v].stock - Total(lines, v)
            && t.book.rows[v].sold == s.book.rows[v].sold + Total(lines, v)
            && |t.sessions| == |s.sessions| && EndedAs(s.sessions[i], t.sessions[i], Completed)
  {
    var o := s.payments[p].order;
    assert !EventSeen(s.payments, w.event);
    assert WebhookHandled(s, w, true) == CaptureHandled(s, p, w.event);
    HoldEnds(s, o, i);
    RowAfter(CommitSale, s.book, s.orders[o].lines, o, v);
  }

  /** A capture of a captured payment only notes the event. */
  lemma CapturedAgain(s: Shop, w: Webhook, p: PaymentId)
    requires PaymentsResolve(s) && p < |s.payments| && s.payments[p].status == GatewayStatus.Captured
    requires w.kind == PaymentCaptured && w.gatewayOrder == Some(p) && w.hasPaymentId && !Recorded(s, w.event)
    ensures var (r, t) := WebhookHandled(s, w, true);
            r == AlreadyCaptured && t == s.(payments := s.payments[p := s.payments[p].(event := w.event)])
  {
    assert !EventSeen(s.payments, w.event);
  }

  /** A failure of a payment that is neither captured nor paid fails both records, and ends the hold as
      cancelled; of any other it changes nothing.  Neither takes stock. */
  lemma FailureRecords(s: Shop, w: Webhook, p: PaymentId)
    requires PaymentsResolve(s) && p < |s.payments|
    requires w.kind == PaymentFailed && w.gatewayOrder == Some(p) && !Recorded(s, w.event)
    ensures WebhookHandled(s, w, true).0 == FailedRecorded
    ensures var t, was, o := WebhookHandled(s, w, true).1, s.payments[p], s.payments[p].order;
            if was.status == GatewayStatus.Captured || s.orders[o].paid == Paid then t == s
            else
              && |t.payments| == |s.payments| && |t.orders| == |s.orders|
              && t.payments[p] == Payment(o, GatewayFailed, EventAfter(w, was), was.refundDue)
              && t.orders[o] == s.orders[o].(paid := Failed)
              && (forall q | 0 <= q < |s.payments| && q != p :: t.payments[q] == s.payments[q])
              && (forall q | 0 <= q < |s.orders| && q != o :: t.orders[q] == s.orders[q])
  {
    assert !EventSeen(s.payments, w.event);
    assert WebhookHandled(s, w, true).1 == MarkedFailed(s, p, w.event);
  }

  lemma FailureEndsTheHold(s: Shop, w: Webhook, p: PaymentId, i: SessionId)
    requires PaymentsResolve(s) && p < |s.payments| && i < |s.sessions|
    requires w.kind == PaymentFailed && w.gatewayOrder == Some(p) && !Recorded(s, w.event)
    requires s.payments[p].status != GatewayStatus.Captured && s.orders[s.payments[p].order].paid != Paid
    requires s.orders[s.payments[p].order].session == Some(i)
    ensures var t := WebhookHandled(s, w, true).1;
            && t.book == s.book && |t.sessions| == |s.sessions| && EndedAs(s.sessions[i], t.sessions[i], Cancelled)
            && forall j | 0 <= j < |s.sessions| && j != i :: t.sessions[j] == s.sessions[j]
  {
    assert !EventSeen(s.payments, w.event);
    assert WebhookHandled(s, w, true).1 == MarkedFailed(s, p, w.event);
    HoldEnds(s, s.payments[p].order, i);
  }

  /** A legacy order's failure gives its reserved units back. */
  lemma LegacyFailureReleases(s: Shop, w: Webhook, p: PaymentId, v: VariantId)
    requires PaymentsResolve(s) && p < |s.payments| && AllChecked(s.book.rows) && v in s.book.rows
    requires w.kind == PaymentFailed && w.gatewayOrder == Some(p) && !Recorded(s, w.event)
    requires s.payments[p].status != GatewayStatus.Captured && s.orders[s.payments[p].order].paid != Paid
    requires s.orders[s.payments[p].order].session.None?
    ensures var t, n := WebhookHandled(s, w, true).1, Total(s.orders[s.payments[p].order].lines, v);
            && v in t.book.rows && t.book.rows[v].stock == s.book.rows[v].stock
            && t.book.rows[v].reserved == if n <= s.book.rows[v].reserved then s.book.rows[v].reserved - n else 0
  {
    var o := s.payments[p].order;
    assert !EventSeen(s.payments, w.event);
    assert WebhookHandled(s, w, true).1 == MarkedFailed(s, p, w.event);
    GoesThroughIff(Release, s.book, s.orders[o].lines, o);
    RowAfter(Release, s.book, s.orders[o].lines, o, v);
  }

  /** A legacy order's fulfilled capture takes its units out of stock and of the reserved ones. */
  lemma LegacyCaptureTakes(s: Shop, w: Webhook, p: PaymentId, v: VariantId)
    requires PaymentsResolve(s) && FirstCapture(s, w, p) && AllChecked(s.book.rows) && v in s.book.rows
    requires s.orders[s.payments[p].order].session.None? && WebhookHandled(s, w, true).0 == CapturedPaid
    ensures var t, n := WebhookHandled(s, w, true).1, Total(s.orders[s.payments[p].order].lines, v);
            && v in t.book.rows && t.book.rows[v].stock == s.book.rows[v].stock - n
            && t.book.rows[v].reserved == if n <= s.book.rows[v].reserved then s.book.rows[v].reserved - n else 0
  {
    var o := s.payments[p].order;
    assert !EventSeen(s.payments, w.event);
    assert WebhookHandled(s, w, true) == CaptureHandled(s, p, w.event);
    RowAfter(Consume, s.book, s.orders[o].lines, o, v);
  }
}
