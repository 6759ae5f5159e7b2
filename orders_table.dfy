/** The `orders` table as a map from order id to order row, and what a
    verified payment event does to it. */
module OrdersTable {
  import opened Records
  import opened OrderRef

  type Orders = map<nat, Order>

  /** The event type that confirms a payment. */
  const CompletedEvent := "checkout.session.completed"

  /** Setting the status of the referenced order to paid: if the reference
      reads as the id of an existing order, that order becomes Paid with all
      its other fields kept; no other order changes, and no order appears or
      disappears. */
  function MarkPaid(orders: Orders, ref: string): (o: Orders)
    ensures o.Keys == orders.Keys
    ensures forall id :: id in orders && ParseId(ref) != Some(id) ==> o[id] == orders[id]
    ensures forall id :: id in orders && ParseId(ref) == Some(id) ==> o[id] == orders[id].(status := Paid)
  {
    match ParseId(ref)
    case Some(id) => if id in orders then orders[id := orders[id].(status := Paid)] else orders
    case None => orders
  }

  /** The effect of a verified event: a completed checkout session marks its
      order paid; every other event type leaves the orders as they are. */
  function ApplyEvent(orders: Orders, e: Event): (o: Orders)
    ensures e.kind != CompletedEvent ==> o == orders
    ensures e.kind == CompletedEvent ==> o == MarkPaid(orders, e.orderRef)
    ensures e.kind == CompletedEvent ==> o.Keys == orders.Keys
    ensures forall id :: id in orders && o[id] != orders[id] ==>
      e.kind == CompletedEvent && ParseId(e.orderRef) == Some(id) && o[id] == orders[id].(status := Paid)
  {
    if e.kind == CompletedEvent then MarkPaid(orders, e.orderRef) else orders
  }

  /** Delivering the same event twice has the effect of delivering it once. */
  lemma ApplyEventIdempotent(orders: Orders, e: Event)
    ensures ApplyEvent(ApplyEvent(orders, e), e) == ApplyEvent(orders, e)
  {
  }

  /** A completed event that names no existing order changes nothing. */
  lemma UnknownOrderUnchanged(orders: Orders, e: Event)
    requires ParseId(e.orderRef).None? || ParseId(e.orderRef).value !in orders
    ensures ApplyEvent(orders, e) == orders
  {
  }

  /** The reference checkout puts in the session metadata leads the
      completion event back to that order and marks exactly it paid. */
  lemma CompletionPaysItsOrder(orders: Orders, id: nat)
    requires id in orders
    ensures var o := ApplyEvent(orders, Event(CompletedEvent, IdToString(id)));
      o[id] == orders[id].(status := Paid) &&
      forall other :: other in orders && other != id ==> o[other] == orders[other]
  {
    ParseIdToString(id);
  }

  /** Status only ever moves to Paid: events never make a paid order pending. */
  lemma PaidStaysPaid(orders: Orders, e: Event, id: nat)
    requires id in orders && orders[id].status == Paid
    ensures id in ApplyEvent(orders, e) && ApplyEvent(orders, e)[id].status == Paid
  {
  }
}
