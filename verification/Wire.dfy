// One order across the services, field by field: from the request to the
// outbox row, onto the wire, through the filter, and into each consumer's
// reading and row.
module Wire {
  import opened Base
  import opened Messages
  import Orders
  import Consumers
  import Bootstrap

  // The message of an order, as the Order Service and the relay write it.
  lemma MessageOfAnOrder(req: Orders.Request)
    ensures EncodeEvent(BuildMessage(req.eventId, Orders.RowOf(req))) == Obj(map[
              "event_id" := Str(UuidText(req.eventId)),
              "event_type" := Str(Plain("OrderCreated")),
              "order_id" := Str(UuidText(req.orderId)),
              "occurred_at" := Str(IsoText(req.stagedAt)),
              "payload" := Obj(map[
                "order_id" := Str(UuidText(req.orderId)),
                "customer_id" := Str(req.customer),
                "item" := Str(req.item),
                "amount" := Str(DecimalText(req.amount)),
                "created_at" := Str(IsoText(req.orderedAt))])])
  {
  }

  // The subscriptions let it through: the filter is on its event type.
  lemma FilterPassesOrders(req: Orders.Request)
    ensures Bootstrap.ORDER_CREATED.EventTypes?
    ensures BuildMessage(req.eventId, Orders.RowOf(req)).eventType in Bootstrap.ORDER_CREATED.types
  {
  }

  // What each consumer reads of it, whatever SNS adds.
  lemma ReadFromAnOrder(req: Orders.Request, metadata: map<string, Json>)
    ensures var body := SnsBody(metadata, EncodeEvent(BuildMessage(req.eventId, Orders.RowOf(req))));
            && Classify(Billing, body) == Readable(BillOf(req.eventId, req.orderId, req.customer, req.amount))
            && Classify(Shipping, body) == Readable(ShipOf(req.eventId, req.orderId, req.customer, req.item))
            && Classify(Notifications, body) ==
                 Readable(NoticeOf(Str(UuidText(req.eventId)), UuidText(req.orderId), true))
  {
    var e := BuildMessage(req.eventId, Orders.RowOf(req));
    ReadUndoesPublish(Billing, metadata, e);
    ReadUndoesPublish(Shipping, metadata, e);
    ReadUndoesPublish(Notifications, metadata, e);
  }

  // The row it becomes, and the key that row is under.
  lemma RowOfAnOrder(req: Orders.Request, metadata: map<string, Json>, tracking: int)
    ensures var body := SnsBody(metadata, EncodeEvent(BuildMessage(req.eventId, Orders.RowOf(req))));
            && Classify(Billing, body).Readable? && Classify(Shipping, body).Readable?
            && var bill, ship := Classify(Billing, body).reading, Classify(Shipping, body).reading;
            && !bill.NoticeOf? && !ship.NoticeOf? && KeyOf(bill) == KeyOf(ship) == UuidText(req.orderId)
            && Consumers.Project(bill, tracking) == Consumers.Bill(req.eventId, req.customer, req.amount)
            && Consumers.Project(ship, tracking) == Consumers.Shipment(req.eventId, req.customer, req.item, tracking)
  {
    ReadFromAnOrder(req, metadata);
  }
}
