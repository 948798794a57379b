// What travels on the wire: the relay's envelope as JSON text, SNS's own
// wrapper around it, and what each consumer's handler reads of an SQS body.
module Messages {
  import opened Base

  datatype Error = JsonDecodeError | KeyError | TypeError

  datatype Result<+T> = Ok(value: T) | Err(error: Error)

  function Dumps(j: Json): Text { Dumped(j) }

  function Loads(t: Text): Result<Json> {
    if t.Dumped? then Ok(t.json) else Err(JsonDecodeError)
  }

  // json.loads applied to a parsed value: only strings can be parsed.
  function LoadsValue(j: Json): Result<Json> {
    if j.Str? then Loads(j.text) else Err(TypeError)
  }

  predicate IsNotification(j: Json) {
    && j.Obj?
    && "Type" in j.fields && j.fields["Type"] == Str(Plain("Notification"))
    && "Message" in j.fields
  }

  function Unwrap(body: Text): Result<Json> {
    match Loads(body)
    case Err(e) => Err(e)
    case Ok(outer) =>
      if IsNotification(outer) then LoadsValue(outer.fields["Message"]) else Ok(outer)
  }

  // `value[key]` on a parsed value.
  function Subscript(j: Json, key: string): Result<Json> {
    if !j.Obj? then Err(TypeError)
    else if key !in j.fields then Err(KeyError)
    else Ok(j.fields[key])
  }

  // The part of _handle_one inside its try: unwrap, then read event_id.
  function Parse(body: Text): Result<Json> {
    match Unwrap(body)
    case Err(e) => Err(e)
    case Ok(event) =>
      match Subscript(event, "event_id")
      case Err(e) => Err(e)
      case Ok(_) => Ok(event)
  }

  predicate Poison(body: Text) { Parse(body).Err? }

  // ---- the relay's envelope ------------------------------------------------

  function EncodePayload(p: Payload): Json {
    Obj(map[
      "order_id" := Str(UuidText(p.orderId)),
      "customer_id" := Str(p.customer),
      "item" := Str(p.item),
      "amount" := Str(DecimalText(p.amount)),
      "created_at" := Str(IsoText(p.createdAt))])
  }

  function EncodeEvent(e: Event): Json {
    Obj(map[
      "event_id" := Str(UuidText(e.eventId)),
      "event_type" := Str(Plain(e.eventType)),
      "order_id" := Str(UuidText(e.orderId)),
      "occurred_at" := Str(IsoText(e.occurredAt)),
      "payload" := EncodePayload(e.payload)])
  }

  // SNS's wrapper: its own metadata plus our JSON as a string. The two fields
  // `unwrap` looks at always win over the metadata.
  function SnsBody(metadata: map<string, Json>, message: Json): Text {
    Dumps(Obj(metadata[
      "Type" := Str(Plain("Notification"))][
      "Message" := Str(Dumps(message))]))
  }

  // ---- what the handlers read ----------------------------------------------

  // What a handler takes from an event: no more than it reads. `complete` is
  // whether the notification can be written from the payload.
  datatype Reading =
    | BillOf(eventId: EventId, orderId: OrderId, customer: Text, amount: int)
    | ShipOf(eventId: EventId, orderId: OrderId, customer: Text, item: Text)
    | NoticeOf(first: Json, order: Text, complete: bool)

  // What the consumer's store is keyed by: the printed order id.
  function KeyOf(r: Reading): Text {
    match r
    case BillOf(_, o, _, _) => UuidText(o)
    case ShipOf(_, o, _, _) => UuidText(o)
    case NoticeOf(_, order, _) => order
  }

  function Field(j: Json, key: string): Option<Json> {
    if j.Obj? && key in j.fields then Some(j.fields[key]) else None
  }

  function Uuid(j: Option<Json>): Option<int> {
    if j.Some? && j.value.Str? && j.value.text.UuidText? then Some(j.value.text.id) else None
  }

  // A value a text column takes.
  function Column(j: Option<Json>): Option<Text> {
    if j.Some? && j.value.Str? then Some(j.value.text) else None
  }

  // Decimal(...) of a parsed value, in cents.
  function Cents(j: Option<Json>): Option<int> {
    match j
    case Some(Str(DecimalText(cents))) => Some(cents)
    case Some(Number(n)) => Some(100 * n)
    case Some(Bool(b)) => Some(if b then 100 else 0)
    case _ => None
  }

  // A parsed value inside an f-string.
  function Printed(j: Json): Text { if j.Str? then j.text else Dumped(j) }

  // What the handler can use of an event, or nothing if it raises before it
  // has done anything.
  function Read(kind: Kind, event: Json): Option<Reading> {
    var id := Field(event, "event_id");
    match Field(event, "payload")
    case None => None
    case Some(p) =>
      var order, customer := Field(p, "order_id"), Column(Field(p, "customer_id"));
      match kind
      case Billing =>
        if Uuid(id).Some? && Uuid(order).Some? && customer.Some? && Cents(Field(p, "amount")).Some?
        then Some(BillOf(Uuid(id).value, Uuid(order).value, customer.value, Cents(Field(p, "amount")).value)) else None
      case Shipping =>
        if Uuid(id).Some? && Uuid(order).Some? && customer.Some? && Column(Field(p, "item")).Some?
        then Some(ShipOf(Uuid(id).value, Uuid(order).value, customer.value, Column(Field(p, "item")).value)) else None
      case Notifications =>
        // Redis takes strings and numbers as values.
        var complete := Field(p, "customer_id").Some? && Field(p, "item").Some? && Field(p, "amount").Some?;
        if order.Some? && id.Some? && (id.value.Str? || id.value.Number?)
        then Some(NoticeOf(id.value, Printed(order.value), complete)) else None
  }

  // What a body is to a worker: unparsable, an object the handler raises on
  // at once, or one it can work with.
  datatype Content = Unparsable | Unusable | Readable(reading: Reading)

  function Classify(kind: Kind, body: Text): Content {
    match Parse(body)
    case Err(_) => Unparsable
    case Ok(event) =>
      match Read(kind, event)
      case None => Unusable
      case Some(r) => Readable(r)
  }

  // What each consumer should make of one of our events.
  function ReadingOf(kind: Kind, e: Event): Reading {
    match kind
    case Billing => BillOf(e.eventId, e.payload.orderId, e.payload.customer, e.payload.amount)
    case Shipping => ShipOf(e.eventId, e.payload.orderId, e.payload.customer, e.payload.item)
    case Notifications => NoticeOf(Str(UuidText(e.eventId)), UuidText(e.payload.orderId), true)
  }

  // ---- properties ----------------------------------------------------------

  // Whatever SNS adds, a wrapped message comes back as it was sent.
  lemma UnwrapUndoesSns(metadata: map<string, Json>, message: Json)
    ensures Unwrap(SnsBody(metadata, message)) == Ok(message)
  {
    var outer := Loads(SnsBody(metadata, message)).value;
    assert outer.fields["Type"] == Str(Plain("Notification"));
  }

  // Raw delivery also works, for exactly the messages that do not themselves
  // look like an SNS notification.
  lemma {:induction false} UnwrapRawIffNotNotification(message: Json)
    ensures Unwrap(Dumps(message)) == Ok(message) <==> !IsNotification(message)
  {
    if IsNotification(message) && Unwrap(Dumps(message)) == Ok(message) {
      InnerIsSmaller(message, message.fields["Message"]);
    }
  }

  ghost function Depth(j: Json): nat {
    match j
    case Str(Dumped(k)) => 1 + Depth(k)
    case Obj(fields) => if "Message" in fields then 1 + Depth(fields["Message"]) else 0
    case _ => 0
  }

  lemma InnerIsSmaller(outer: Json, inner: Json)
    requires outer.Obj? && "Message" in outer.fields && outer.fields["Message"] == inner
    requires inner.Str? && inner.text.Dumped?
    ensures inner.text.json != outer
  {
    assert Depth(outer) == 2 + Depth(inner.text.json);
  }

  // End to end on the wire: from each event the relay publishes, wrapped or
  // raw, every consumer reads exactly its own part of that event.
  lemma ReadUndoesPublish(kind: Kind, metadata: map<string, Json>, e: Event)
    ensures Parse(SnsBody(metadata, EncodeEvent(e))) == Ok(EncodeEvent(e))
    ensures Classify(kind, SnsBody(metadata, EncodeEvent(e))) == Readable(ReadingOf(kind, e))
    ensures Classify(kind, Dumps(EncodeEvent(e))) == Readable(ReadingOf(kind, e))
  {
    var j := EncodeEvent(e);
    assert Field(j, "payload") == Some(EncodePayload(e.payload));
    assert Read(kind, j) == Some(ReadingOf(kind, e));
    UnwrapUndoesSns(metadata, j);
    UnwrapRawIffNotNotification(j);
  }

  // What the loop leaves for the dead-letter queue: anything that is not,
  // wrapped or raw, a JSON object with an event_id.
  lemma PoisonIff(body: Text)
    ensures Poison(body) <==>
              || !body.Dumped?
              || var outer := body.json;
                 var wrapped := outer.Obj? && "Type" in outer.fields && "Message" in outer.fields
                                && outer.fields["Type"] == Str(Plain("Notification"));
                 if wrapped then
                   var inner := outer.fields["Message"];
                   !(inner.Str? && inner.text.Dumped? && inner.text.json.Obj? && "event_id" in inner.text.json.fields)
                 else !(outer.Obj? && "event_id" in outer.fields)
  {
  }

  // The least a body needs, consumer by consumer.
  lemma LeastBodies(e: int, o: int, customer: Text, item: Text, amount: int)
    ensures Classify(Billing, Dumps(Obj(map["event_id" := Str(UuidText(e)), "payload" := Obj(map[
              "order_id" := Str(UuidText(o)), "customer_id" := Str(customer), "amount" := Str(DecimalText(amount))])])))
            == Readable(BillOf(e, o, customer, amount))
    ensures Classify(Shipping, Dumps(Obj(map["event_id" := Str(UuidText(e)), "payload" := Obj(map[
              "order_id" := Str(UuidText(o)), "customer_id" := Str(customer), "item" := Str(item)])])))
            == Readable(ShipOf(e, o, customer, item))
    ensures Classify(Notifications, Dumps(Obj(map["event_id" := Str(UuidText(e)), "payload" := Obj(map[
              "order_id" := Str(UuidText(o))])])))
            == Readable(NoticeOf(Str(UuidText(e)), UuidText(o), false))
  {
    var paid := Str(DecimalText(amount));
    var b := Obj(map["order_id" := Str(UuidText(o)), "customer_id" := Str(customer), "amount" := paid]);
    var s := Obj(map["order_id" := Str(UuidText(o)), "customer_id" := Str(customer), "item" := Str(item)]);
    var n := Obj(map["order_id" := Str(UuidText(o))]);
    assert Field(b, "amount") == Some(paid) && Field(s, "item") == Some(Str(item));
    assert Field(n, "order_id") == Some(Str(UuidText(o))) && Field(n, "item") == None;
  }

  // Which amounts Decimal takes, and what it makes of them.
  lemma AmountsBilled(e: int, o: int, customer: Text, x: Json)
    ensures Classify(Billing, Dumps(Obj(map["event_id" := Str(UuidText(e)), "payload" := Obj(map[
              "order_id" := Str(UuidText(o)), "customer_id" := Str(customer), "amount" := x])])))
            == match x
               case Str(DecimalText(cents)) => Readable(BillOf(e, o, customer, cents))
               case Number(n) => Readable(BillOf(e, o, customer, 100 * n))
               case Bool(b) => Readable(BillOf(e, o, customer, if b then 100 else 0))
               case _ => Unusable
  {
    var p := Obj(map["order_id" := Str(UuidText(o)), "customer_id" := Str(customer), "amount" := x]);
    assert Field(p, "amount") == Some(x) && Field(p, "customer_id") == Some(Str(customer));
  }

  // A notification is keyed by the order id as printed, whatever it is, and
  // fails in the send, after the claim, if a part of its text is missing.
  lemma NoticesKeyed(e: Json, order: Json, p: map<string, Json>)
    requires "order_id" in p && p["order_id"] == order
    ensures Classify(Notifications, Dumps(Obj(map["event_id" := e, "payload" := Obj(p)])))
            == if e.Str? || e.Number?
               then Readable(NoticeOf(e, if order.Str? then order.text else Dumped(order),
                                      "customer_id" in p && "item" in p && "amount" in p))
               else Unusable
  {
    assert Field(Obj(p), "order_id") == Some(order);
  }

  // ... and all a consumer takes from one: fields it has no use for may be
  // missing, of another type, or anything.
  lemma ReadsNoMore(kind: Kind, a: map<string, Json>, b: map<string, Json>, p: Json, q: Json)
    requires "event_id" in a && "event_id" in b && a["event_id"] == b["event_id"]
    requires "payload" in a && "payload" in b && a["payload"] == p && b["payload"] == q
    requires Field(p, "order_id") == Field(q, "order_id")
    requires kind.Billing? || kind.Shipping? ==> Field(p, "customer_id") == Field(q, "customer_id")
    requires kind.Billing? ==> Field(p, "amount") == Field(q, "amount")
    requires kind.Shipping? ==> Field(p, "item") == Field(q, "item")
    requires kind.Notifications? ==>
               forall k :: k in {"customer_id", "item", "amount"} ==> Field(p, k).Some? == Field(q, k).Some?
    ensures Read(kind, Obj(a)) == Read(kind, Obj(b))
  {
  }
}
