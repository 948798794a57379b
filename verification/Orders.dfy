// order/service.py, order/routes.py and shared/db.py: the order and its outbox
// row are staged in one session and committed, or discarded, together.
module Orders {
  import opened Arithmetic
  import opened Base

  // The committed contents of the two tables the Order Service owns.
  datatype Db = Db(orders: map<OrderId, Order>, outbox: Table)

  // One POST /orders: the client's data, the values the process generates,
  // and what the database does. `sabotage` is BREAK_OUTBOX_INSERT.
  datatype Request = Request(
    orderId: OrderId,
    eventId: EventId,
    customer: Text,
    item: Text,
    amount: int,
    orderedAt: int,
    stagedAt: int,
    sabotage: bool,
    fault: Fault)

  // CommitReplyLost: the commit is applied but raises all the same.
  datatype Fault = NoFault | FlushFails | CommitFails | CommitReplyLost

  datatype Response = Created(id: OrderId) | Unprocessable | Unavailable

  function BuildPayload(id: OrderId, order: Order): Payload {
    Payload(id, order.customer, order.item, order.amount, order.createdAt)
  }

  function OrderOf(req: Request): Order { Order(req.customer, req.item, req.amount, req.orderedAt) }

  function RowOf(req: Request): Row {
    Row(req.orderId, "OrderCreated", BuildPayload(req.orderId, OrderOf(req)), req.stagedAt, false, 0, false)
  }

  // The inserts a flush can be refused for: a null event_type, or a key in use.
  predicate Refused(db: Db, req: Request) {
    req.sabotage || req.orderId in db.orders || req.eventId in db.outbox
  }

  predicate Saved(db: Db, req: Request) {
    !Refused(db, req) && (req.fault.NoFault? || req.fault.CommitReplyLost?)
  }

  // What one request does to the database.
  function Place(db: Db, req: Request): Db {
    if Saved(db, req) then Db(db.orders[req.orderId := OrderOf(req)], db.outbox[req.eventId := RowOf(req)]) else db
  }

  // What the client is told.
  function Respond(db: Db, req: Request): Response {
    if req.fault.FlushFails? then Unavailable
    else if Refused(db, req) then Unprocessable
    else if req.fault.NoFault? then Created(req.orderId)
    else Unavailable
  }

  datatype Flushed = Ok | IntegrityError | OperationalError

  // A SQLAlchemy session: what it stages is invisible until it commits.
  class Session {
    var db: Db
    var newOrder: Option<Order>
    var newRow: Option<Row>         // with event_type "" standing for NULL

    constructor (db: Db)
      ensures this.db == db && newOrder == None && newRow == None
    {
      this.db, this.newOrder, this.newRow := db, None, None;
    }

    // Sends the staged inserts inside the open transaction.
    method Flush(orderId: OrderId, eventId: EventId, fault: Fault) returns (r: Flushed)
      ensures r.Ok? <==> fault != FlushFails && !(orderId in db.orders || eventId in db.outbox ||
                           (newRow.Some? && newRow.value.eventType == ""))
      ensures r.OperationalError? <==> fault == FlushFails
    {
      if fault.FlushFails? { return OperationalError; }
      if newRow.Some? && newRow.value.eventType == "" { return IntegrityError; }
      if orderId in db.orders || eventId in db.outbox { return IntegrityError; }
      return Ok;
    }

    // Makes the staged rows visible, all or none; may raise either way.
    method Commit(orderId: OrderId, eventId: EventId, fault: Fault) returns (raised: bool)
      requires newOrder.Some? && newRow.Some?
      modifies this
      ensures raised == !fault.NoFault?
      ensures db == if fault.NoFault? || fault.CommitReplyLost?
                    then Db(old(db).orders[orderId := old(newOrder).value],
                            old(db).outbox[eventId := old(newRow).value])
                    else old(db)
      ensures !raised ==> newOrder == None && newRow == None
    {
      if fault.NoFault? || fault.CommitReplyLost? {
        db := Db(db.orders[orderId := newOrder.value], db.outbox[eventId := newRow.value]);
        newOrder, newRow := None, None;
      }
      return !fault.NoFault?;
    }

    method Rollback()
      modifies this
      ensures db == old(db) && newOrder == None && newRow == None
    {
      newOrder, newRow := None, None;
    }

    // create_order: stage both rows and flush. Does not commit.
    method CreateOrder(req: Request) returns (r: Flushed)
      requires newOrder == None && newRow == None
      modifies this
      ensures db == old(db)
      ensures r.Ok? <==> !Refused(db, req) && !req.fault.FlushFails?
      ensures r.OperationalError? <==> req.fault.FlushFails?
      ensures r.Ok? ==>
                && newOrder == Some(Order(req.customer, req.item, req.amount, req.orderedAt))
                && newRow == Some(Row(req.orderId, "OrderCreated",
                     Payload(req.orderId, req.customer, req.item, req.amount, req.orderedAt),
                     req.stagedAt, false, 0, false))
    {
      var order := Order(req.customer, req.item, req.amount, req.orderedAt);
      newOrder := Some(order);
      var row := Row(req.orderId, "OrderCreated", BuildPayload(req.orderId, order), req.stagedAt, false, 0, false);
      if req.sabotage {
        row := row.(eventType := "");
      }
      newRow := Some(row);
      r := Flush(req.orderId, req.eventId, req.fault);
    }

    // The endpoint: commit on success, and roll back whatever went wrong.
    method PostOrder(req: Request) returns (response: Response)
      requires newOrder == None && newRow == None
      modifies this
      ensures db == Place(old(db), req)
      ensures newOrder == None && newRow == None
      ensures response == Respond(old(db), req)
      // 201 with its id for the one outcome that is known to be saved, 422 for
      // a refused insert, 503 for everything else; and in the tables both rows
      // or nothing.
      ensures var refused := req.sabotage || req.orderId in old(db).orders || req.eventId in old(db).outbox;
              && (response == Created(req.orderId) <==> !refused && req.fault.NoFault?)
              && (response == Unprocessable <==> refused && !req.fault.FlushFails?)
              && (response == Unavailable <==> req.fault.FlushFails? || (!refused && !req.fault.NoFault?))
              && (db != old(db) <==> !refused && (req.fault.NoFault? || req.fault.CommitReplyLost?))
              && (db != old(db) ==>
                    && db.orders == old(db).orders[req.orderId :=
                         Order(req.customer, req.item, req.amount, req.orderedAt)]
                    && db.outbox == old(db).outbox[req.eventId :=
                         Row(req.orderId, "OrderCreated",
                             Payload(req.orderId, req.customer, req.item, req.amount, req.orderedAt),
                             req.stagedAt, false, 0, false)])
    {
      var flushed := CreateOrder(req);
      if !flushed.Ok? {
        Rollback();
        return if flushed.IntegrityError? then Unprocessable else Unavailable;
      }
      var raised := Commit(req.orderId, req.eventId, req.fault);
      if raised {
        Rollback();
        return Unavailable;
      }
      return Created(req.orderId);
    }
  }

  // ---- a client that retries ------------------------------------------------

  // Every error response says nothing was saved, so a client that wants one
  // order asks again until it is told 201.
  ghost predicate Dialogue(db: Db, reqs: seq<Request>)
    decreases |reqs|
  {
    reqs != [] &&
    if |reqs| == 1 then Respond(db, reqs[0]).Created?
    else !Respond(db, reqs[0]).Created? && Dialogue(Place(db, reqs[0]), reqs[1..])
  }

  function PlaceAll(db: Db, reqs: seq<Request>): Db
    decreases |reqs|
  {
    if reqs == [] then db else PlaceAll(Place(db, reqs[0]), reqs[1..])
  }

  // Requests whose commit was applied and raised all the same.
  function LostReplies(db: Db, reqs: seq<Request>): nat
    decreases |reqs|
  {
    if reqs == [] then 0
    else (if reqs[0].fault.CommitReplyLost? && !Refused(db, reqs[0]) then 1 else 0)
         + LostReplies(Place(db, reqs[0]), reqs[1..])
  }

  predicate Wishes(reqs: seq<Request>, customer: Text, item: Text, amount: int) {
    forall i :: 0 <= i < |reqs| ==> reqs[i].customer == customer && reqs[i].item == item && reqs[i].amount == amount
  }

  // The orders a dialogue added to the table.
  function Added(before: Db, after: Db): set<OrderId> { after.orders.Keys - before.orders.Keys }

  // The orders table only grows.
  lemma {:induction false} OrdersGrow(db: Db, reqs: seq<Request>)
    ensures forall o :: o in db.orders ==>
            o in PlaceAll(db, reqs).orders && PlaceAll(db, reqs).orders[o] == db.orders[o]
    decreases |reqs|
  {
    if reqs != [] { OrdersGrow(Place(db, reqs[0]), reqs[1..]); }
  }

  lemma FirstAdds(db: Db, reqs: seq<Request>)
    requires reqs != []
    ensures var db', after := Place(db, reqs[0]), PlaceAll(db, reqs);
            && Added(db, after) == Added(db', after) + (if Saved(db, reqs[0]) then {reqs[0].orderId} else {})
            && (Saved(db, reqs[0]) ==> reqs[0].orderId !in Added(db', after))
  {
    OrdersGrow(Place(db, reqs[0]), reqs[1..]);
  }

  // What the client gets for one wish: one order, and one more for each lost
  // reply.
  lemma {:induction false} RetrySaves(db: Db, reqs: seq<Request>)
    requires Dialogue(db, reqs)
    ensures |Added(db, PlaceAll(db, reqs))| == 1 + LostReplies(db, reqs)
    decreases |reqs|
  {
    var db', after := Place(db, reqs[0]), PlaceAll(db, reqs);
    FirstAdds(db, reqs);
    if |reqs| == 1 {
      assert PlaceAll(db', reqs[1..]) == db';
      assert Added(db', after) == {};
    } else {
      RetrySaves(db', reqs[1..]);
    }
    if Saved(db, reqs[0]) { assert |Added(db', after) + {reqs[0].orderId}| == |Added(db', after)| + 1; }
  }

  predicate AsWished(order: Order, customer: Text, item: Text, amount: int) {
    order.customer == customer && order.item == item && order.amount == amount
  }

  // ... and they are all what was wished for.
  lemma {:induction false} RetrySavesTheWish(db: Db, reqs: seq<Request>, customer: Text, item: Text, amount: int,
                                             o: OrderId)
    requires Wishes(reqs, customer, item, amount) && o in Added(db, PlaceAll(db, reqs))
    ensures AsWished(PlaceAll(db, reqs).orders[o], customer, item, amount)
    decreases |reqs|
  {
    var db', rest := Place(db, reqs[0]), reqs[1..];
    assert Wishes(rest, customer, item, amount) by {
      forall i | 0 <= i < |rest|
        ensures rest[i].customer == customer && rest[i].item == item && rest[i].amount == amount {
        assert rest[i] == reqs[i + 1];
      }
    }
    OrdersGrow(db', rest);
    if o in db'.orders {
      assert PlaceAll(db, reqs).orders[o] == OrderOf(reqs[0]);
    } else {
      RetrySavesTheWish(db', rest, customer, item, amount, o);
    }
  }

  // Any number of lost replies can befall one wish.
  lemma {:induction false} RepliesLostInARow(db: Db, n: nat, customer: Text, item: Text, amount: int)
    returns (reqs: seq<Request>)
    ensures Dialogue(db, reqs) && LostReplies(db, reqs) == n && Wishes(reqs, customer, item, amount)
    decreases n
  {
    var o := Unused(db.orders.Keys);
    var e := Unused(db.outbox.Keys);
    var fault := if n == 0 then NoFault else CommitReplyLost;
    var req := Request(o, e, customer, item, amount, 0, 0, false, fault);
    if n == 0 {
      reqs := [req];
      assert reqs[1..] == [];
    } else {
      var rest := RepliesLostInARow(Place(db, req), n - 1, customer, item, amount);
      reqs := [req] + rest;
      assert reqs[1..] == rest;
    }
  }

  lemma {:induction false} Unused(ids: set<int>) returns (id: int)
    ensures forall x :: x in ids ==> x < id
    decreases |ids|
  {
    if ids == {} {
      id := 0;
    } else {
      var x := Pick(ids);
      var other := Unused(ids - {x});
      id := if x < other then other else x + 1;
      forall y | y in ids ensures y < id {
        if y != x { assert y in ids - {x}; }
      }
    }
  }

  // ---- orders and outbox correspond ----------------------------------------

  // `eventOf` pairs each order with its outbox row, one to one, and each row
  // still carries its order's snapshot.
  ghost predicate Paired(orders: map<OrderId, Order>, outbox: Table, eventOf: map<OrderId, EventId>) {
    && eventOf.Keys == orders.Keys
    && (forall o :: o in orders ==>
          && eventOf[o] in outbox
          && outbox[eventOf[o]].orderId == o
          && outbox[eventOf[o]].payload == BuildPayload(o, orders[o]))
    && (forall id :: id in outbox ==> outbox[id].orderId in orders && eventOf[outbox[id].orderId] == id)
  }

  lemma PlaceKeepsPairs(db: Db, req: Request, eventOf: map<OrderId, EventId>)
    requires Paired(db.orders, db.outbox, eventOf)
    ensures var db' := Place(db, req);
            Paired(db'.orders, db'.outbox, if Saved(db, req) then eventOf[req.orderId := req.eventId] else eventOf)
  {
  }
}
