// The vocabulary every part of the model shares: texts and JSON values,
// identifiers, the order snapshot, the outbox row and the event the relay
// publishes from it.
module Base {
  datatype Option<+T> = None | Some(value: T)

  // UUIDs are modelled as integers; only equality matters to the protocol.
  type EventId = int
  type OrderId = int
  type RelayId = int

  // Text is abstract. Each text has the form it can be read in: the encoding
  // of a JSON value, a printed UUID, decimal or timestamp, or none of these.
  // json.dumps and json.loads are inverse on encodings, as are the printed
  // forms of UUIDs, decimals and timestamps.
  datatype Text =
    | Plain(chars: string)
    | Dumped(json: Json)
    | UuidText(id: int)
    | DecimalText(cents: int)
    | IsoText(time: int)

  datatype Json =
    | Null
    | Bool(b: bool)
    | Number(n: int)
    | Str(text: Text)
    | Arr(items: seq<Json>)
    | Obj(fields: map<string, Json>)

  datatype Kind = Billing | Shipping | Notifications

  datatype Order = Order(customer: Text, item: Text, amount: int, createdAt: int)

  // The JSONB snapshot staged with the order (amount in cents).
  datatype Payload = Payload(orderId: OrderId, customer: Text, item: Text, amount: int, createdAt: int)

  // One outbox row. `parked` stands for `failed_at IS NOT NULL`.
  datatype Row = Row(
    orderId: OrderId,
    eventType: string,
    payload: Payload,
    createdAt: int,
    published: bool,
    attempts: nat,
    parked: bool)

  datatype Event = Event(
    eventId: EventId,
    eventType: string,
    orderId: OrderId,
    occurredAt: int,
    payload: Payload)

  // RELAY_BATCH_SIZE and OUTBOX_MAX_ATTEMPTS.
  datatype RelayConfig = RelayConfig(batchSize: nat, maxAttempts: nat) {
    predicate Valid() { batchSize >= 1 && maxAttempts >= 1 }
  }

  type Table = map<EventId, Row>

  function BuildMessage(id: EventId, row: Row): Event {
    Event(id, row.eventType, row.orderId, row.createdAt, row.payload)
  }

  // A small order and its row, for the runs that show a property fails.
  const BLANK: Text := Plain("")

  function SampleRow(orderId: OrderId, createdAt: int): Row {
    Row(orderId, "OrderCreated", Payload(orderId, BLANK, BLANK, 0, 0), createdAt, false, 0, false)
  }
}
