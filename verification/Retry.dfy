// What an ambiguous commit costs the customer. A client that believes "nothing
// was saved" and asks again until it is told 201 is charged once for each
// order that was saved.
module Retry {
  import opened Base
  import Orders
  import Outbox
  import R = RelayProtocol
  import C = Consumers
  import opened System
  import E = EndToEnd

  const NOTHING_SAVED: Orders.Db := Orders.Db(map[], map[])

  predicate NoWipes(steps: seq<Step>) { forall i :: 0 <= i < |steps| ==> !steps[i].Wipe? }

  ghost predicate Reached(cfg: Config, steps: seq<Step>, s: State) {
    Run(cfg, EMPTY, steps) && After(cfg, EMPTY, steps) == s && NoWipes(steps)
  }

  // The requests of a run, in order.
  function Requests(steps: seq<Step>): seq<Orders.Request>
    decreases |steps|
  {
    if steps == [] then []
    else
      var last := |steps| - 1;
      Requests(steps[..last]) + if steps[last].Place? then [steps[last].req] else []
  }

  lemma {:induction false} Extend(cfg: Config, s: State, steps: seq<Step>, step: Step)
    requires Run(cfg, s, steps) && Enabled(cfg, After(cfg, s, steps), step)
    ensures Run(cfg, s, steps + [step])
    ensures After(cfg, s, steps + [step]) == Apply(cfg, After(cfg, s, steps), step)
    decreases |steps|
  {
    if steps == [] {
      assert [] + [step] == [step] && [step][1..] == [];
      assert Run(cfg, Apply(cfg, s, step), []);
    } else {
      assert (steps + [step])[0] == steps[0] && (steps + [step])[1..] == steps[1..] + [step];
      Extend(cfg, Apply(cfg, s, steps[0]), steps[1..], step);
    }
  }

  lemma Do(cfg: Config, steps: seq<Step>, s: State, step: Step) returns (steps': seq<Step>, s': State)
    requires Reached(cfg, steps, s) && Enabled(cfg, s, step) && !step.Wipe?
    ensures steps' == steps + [step] && s' == Apply(cfg, s, step) && Reached(cfg, steps', s')
    ensures Requests(steps') == Requests(steps) + if step.Place? then [step.req] else []
  {
    Extend(cfg, EMPTY, steps, step);
    steps', s' := steps + [step], Apply(cfg, s, step);
    assert steps'[..|steps|] == steps;
  }

  // Relay 0 has nothing to do, and Billing has billed every order.
  ghost predicate Calm(s: State) {
    && R.PcOf(s.relay, 0).Idle? && s.relay.locks == map[]
    && (forall id :: id in s.relay.rows ==> s.relay.rows[id].published)
    && (forall o :: o in s.orders ==> UuidText(o) in SiteOf(s, Billing).store)
  }

  ghost predicate OnlyPending(s: State, id: EventId) {
    && R.PcOf(s.relay, 0).Idle? && s.relay.locks == map[]
    && id in s.relay.rows && Drainable(s.relay.rows[id])
    && (forall x :: x in s.relay.rows && x != id ==> s.relay.rows[x].published)
  }

  predicate Drainable(row: Row) { !row.published && !row.parked && row.attempts == 0 }

  // The same but for the relay's side of things.
  ghost predicate SameElsewhere(s: State, t: State) {
    t.orders == s.orders && t.eventOf == s.eventOf && t.history == s.history &&
    forall kind :: SiteOf(t, kind) == SiteOf(s, kind)
  }

  lemma ReadsOne(cfg: Config, s: State, id: EventId)
    requires cfg.relay.Valid() && OnlyPending(s, id)
    ensures R.Enabled(cfg.relay, R.CODE, s.relay, R.ReadBatch(0, [id]))
    ensures var t := R.Apply(cfg.relay, R.CODE, s.relay, R.ReadBatch(0, [id]));
            t.rows == s.relay.rows && t.locks == map[] && R.PcOf(t, 0) == R.Batch([id])
  {
    assert Outbox.PendingAnswer(cfg.relay, s.relay.rows, [id]);
  }

  lemma LocksOne(cfg: Config, r: R.State, id: EventId)
    requires R.PcOf(r, 0) == R.Batch([id]) && id in r.rows && !r.rows[id].published && r.locks == map[]
    ensures R.Enabled(cfg.relay, R.CODE, r, R.Lock(0))
    ensures var t := R.Apply(cfg.relay, R.CODE, r, R.Lock(0));
            t.rows == r.rows && t.locks == map[id := 0] && R.PcOf(t, 0) == R.Locked(id, [])
  {
    assert [id][1..] == [];
  }

  lemma SendsOne(cfg: Config, r: R.State, id: EventId)
    requires R.PcOf(r, 0) == R.Locked(id, [])
    ensures R.Enabled(cfg.relay, R.CODE, r, R.PublishOk(0, 1)) && R.Emits(r, R.PublishOk(0, 1)) == (id, 1)
    ensures var t := R.Apply(cfg.relay, R.CODE, r, R.PublishOk(0, 1));
            t.rows == r.rows && t.locks == r.locks && R.PcOf(t, 0) == R.Gap(id, [])
  {
  }

  lemma MarksOne(cfg: Config, r: R.State, id: EventId)
    requires R.PcOf(r, 0) == R.Gap(id, []) && id in r.rows && r.locks == map[id := 0]
    ensures R.Enabled(cfg.relay, R.CODE, r, R.Commit(0))
    ensures var t := R.Apply(cfg.relay, R.CODE, r, R.Commit(0));
            t.rows == r.rows[id := Outbox.Mark(r.rows[id])] && t.locks == map[] && R.PcOf(t, 0) == R.Batch([])
  {
    assert map[id := 0] - {id} == map[];
  }

  lemma EndsOne(cfg: Config, r: R.State)
    requires R.PcOf(r, 0) == R.Batch([])
    ensures R.Enabled(cfg.relay, R.CODE, r, R.EndBatch(0))
    ensures var t := R.Apply(cfg.relay, R.CODE, r, R.EndBatch(0));
            t.rows == r.rows && t.locks == r.locks && R.PcOf(t, 0) == R.Idle
  {
  }

  // A relay step that hands nothing to SNS.
  lemma Quiet(cfg: Config, s: State, local: R.Step)
    requires Enabled(cfg, s, Relay(local)) && (local.ReadBatch? || local.Lock? || local.Commit? || local.EndBatch?)
    ensures var s' := Apply(cfg, s, Relay(local));
            SameElsewhere(s, s') && s'.relay == R.Apply(cfg.relay, R.CODE, s.relay, local)
  {
    var s' := Apply(cfg, s, Relay(local));
    assert R.Emits(s.relay, local) == (0, 0);
    assert s.history + Repeat(0, 0) == s.history;
    forall kind ensures SiteOf(s', kind) == SiteOf(s, kind) { PublishedSite(s, 0, 0, kind); }
  }

  // Relay 0 has sent the one pending row, as message k.
  ghost predicate SentOne(s: State, t: State, id: EventId) {
    && id in s.relay.rows
    && t.orders == s.orders && t.eventOf == s.eventOf && t.history == s.history + [id]
    && forall kind :: SiteOf(t, kind) ==
         Enqueue(kind, SiteOf(s, kind), |s.history|, WireBody(|s.history|, id, s.relay.rows[id]))
  }

  lemma SendsToQueues(cfg: Config, s: State, id: EventId)
    requires R.PcOf(s.relay, 0) == R.Locked(id, []) && id in s.relay.rows
    ensures Enabled(cfg, s, Relay(R.PublishOk(0, 1)))
    ensures var t := Apply(cfg, s, Relay(R.PublishOk(0, 1)));
            SentOne(s, t, id) && t.relay == R.Apply(cfg.relay, R.CODE, s.relay, R.PublishOk(0, 1))
  {
    SendsOne(cfg, s.relay, id);
    var t := Apply(cfg, s, Relay(R.PublishOk(0, 1)));
    assert Repeat(id, 1) == [id];
    forall kind ensures SiteOf(t, kind) ==
        Enqueue(kind, SiteOf(s, kind), |s.history|, WireBody(|s.history|, id, s.relay.rows[id])) {
      PublishedSite(s, id, 1, kind);
      var bodies := Bodies(|s.history|, id, s.relay.rows[id], 1);
      BodyAt(|s.history|, id, s.relay.rows[id], 1, |s.history|);
      assert bodies == [bodies[0]] && bodies[1..] == [];
      DeliverOne(kind, SiteOf(s, kind), |s.history|, bodies);
    }
  }

  lemma DeliverOne(kind: Kind, site: C.Site, k: nat, bodies: seq<Text>)
    requires |bodies| == 1
    ensures Deliver(kind, site, k, bodies) == Enqueue(kind, site, k, bodies[0])
  {
    assert Deliver(kind, Enqueue(kind, site, k, bodies[0]), k + 1, bodies[1..]) == Enqueue(kind, site, k, bodies[0]);
  }

  // Locked, and the rest of the pipeline as it was.
  lemma TakesIt(cfg: Config, steps: seq<Step>, s: State, id: EventId) returns (steps': seq<Step>, t: State)
    requires cfg.relay.Valid() && Reached(cfg, steps, s) && OnlyPending(s, id)
    ensures Reached(cfg, steps', t) && Requests(steps') == Requests(steps) && SameElsewhere(s, t)
    ensures t.relay.rows == s.relay.rows && t.relay.locks == map[id := 0] && R.PcOf(t.relay, 0) == R.Locked(id, [])
  {
    ReadsOne(cfg, s, id);
    Quiet(cfg, s, R.ReadBatch(0, [id]));
    steps', t := Do(cfg, steps, s, Relay(R.ReadBatch(0, [id])));
    LocksOne(cfg, t.relay, id);
    Quiet(cfg, t, R.Lock(0));
    steps', t := Do(cfg, steps', t, Relay(R.Lock(0)));
  }

  lemma MarksIt(cfg: Config, steps: seq<Step>, s: State, id: EventId) returns (steps': seq<Step>, t: State)
    requires Reached(cfg, steps, s) && id in s.relay.rows
    requires s.relay.locks == map[id := 0] && R.PcOf(s.relay, 0) == R.Gap(id, [])
    ensures Reached(cfg, steps', t) && Requests(steps') == Requests(steps) && SameElsewhere(s, t)
    ensures t.relay.rows == s.relay.rows[id := Outbox.Mark(s.relay.rows[id])]
    ensures t.relay.locks == map[] && R.PcOf(t.relay, 0) == R.Idle
  {
    MarksOne(cfg, s.relay, id);
    Quiet(cfg, s, R.Commit(0));
    steps', t := Do(cfg, steps, s, Relay(R.Commit(0)));
    EndsOne(cfg, t.relay);
    Quiet(cfg, t, R.EndBatch(0));
    steps', t := Do(cfg, steps', t, Relay(R.EndBatch(0)));
  }

  lemma Relays(cfg: Config, steps: seq<Step>, s: State, id: EventId) returns (steps': seq<Step>, t: State)
    requires cfg.relay.Valid() && Reached(cfg, steps, s) && OnlyPending(s, id)
    ensures Reached(cfg, steps', t) && Requests(steps') == Requests(steps) && SentOne(s, t, id)
    ensures t.relay.rows == s.relay.rows[id := Outbox.Mark(s.relay.rows[id])]
    ensures t.relay.locks == map[] && R.PcOf(t.relay, 0) == R.Idle
  {
    var u, v;
    steps', u := TakesIt(cfg, steps, s, id);
    SendsToQueues(cfg, u, id);
    SendsOne(cfg, u.relay, id);
    steps', v := Do(cfg, steps', u, Relay(R.PublishOk(0, 1)));
    steps', t := MarksIt(cfg, steps', v, id);
    forall kind ensures SiteOf(t, kind) ==
        Enqueue(kind, SiteOf(s, kind), |s.history|, WireBody(|s.history|, id, s.relay.rows[id])) {
      assert SiteOf(u, kind) == SiteOf(s, kind) && SiteOf(t, kind) == SiteOf(v, kind);
    }
  }

  // ---- Billing -------------------------------------------------------------

  // Copy k is new at Billing, and is order o's.
  predicate Waiting(site: C.Site, k: C.CopyId, o: OrderId) {
    && k in site.copies && site.copies[k].place.Visible? && site.copies[k].receives == 0
    && site.copies[k].sentAt == site.now && site.copies[k].content.Readable?
    && site.copies[k].content.reading.BillOf? && site.copies[k].content.reading.orderId == o
  }

  lemma ReceivesIt(cfg: C.Config, site: C.Site, k: C.CopyId, o: OrderId)
    requires cfg.kind.Billing? && cfg.maxReceive >= 1 && cfg.retention >= 1 && Waiting(site, k, o)
    ensures C.Enabled(cfg, site, C.Receive(k))
    ensures var site' := C.Apply(cfg, site, C.Receive(k)); var d := C.Delivery(k, 1);
            && site'.store == site.store && C.CanInsert(cfg, site', d) && C.KeyAt(site', d) == UuidText(o)
  {
  }

  lemma InsertsIt(cfg: C.Config, site: C.Site, d: C.Delivery)
    requires C.CanInsert(cfg, site, d)
    ensures C.Enabled(cfg, site, C.Insert(d, 0))
    ensures var site' := C.Apply(cfg, site, C.Insert(d, 0));
            C.KeyAt(site, d) in site'.store && forall key :: key in site.store ==> key in site'.store
  {
  }

  lemma Bills(cfg: Config, steps: seq<Step>, s: State, k: C.CopyId, o: OrderId) returns (steps': seq<Step>, t: State)
    requires Reached(cfg, steps, s) && cfg.maxReceive >= 1 && cfg.retention >= 1 && Waiting(SiteOf(s, Billing), k, o)
    ensures Reached(cfg, steps', t) && Requests(steps') == Requests(steps)
    ensures t.orders == s.orders && t.relay == s.relay
    ensures UuidText(o) in SiteOf(t, Billing).store
    ensures forall key :: key in SiteOf(s, Billing).store ==> key in SiteOf(t, Billing).store
  {
    var local, d := cfg.For(Billing), C.Delivery(k, 1);
    ReceivesIt(local, SiteOf(s, Billing), k, o);
    steps', t := Do(cfg, steps, s, Consume(Billing, C.Receive(k)));
    assert SiteOf(t, Billing) == C.Apply(local, SiteOf(s, Billing), C.Receive(k));
    InsertsIt(local, SiteOf(t, Billing), d);
    var u := t;
    steps', t := Do(cfg, steps', t, Consume(Billing, C.Insert(d, 0)));
    assert SiteOf(t, Billing) == C.Apply(local, SiteOf(u, Billing), C.Insert(d, 0));
  }

  // ---- one request ---------------------------------------------------------

  lemma Arrives(s: State, t: State, id: EventId)
    requires SentOne(s, t, id)
    ensures Waiting(SiteOf(t, Billing), |s.history|, s.relay.rows[id].payload.orderId)
    ensures SiteOf(t, Billing).store == SiteOf(s, Billing).store
  {
    ReadWire(Billing, |s.history|, id, s.relay.rows[id]);
    assert SiteOf(t, Billing) ==
           Enqueue(Billing, SiteOf(s, Billing), |s.history|, WireBody(|s.history|, id, s.relay.rows[id]));
  }

  // An order just saved is relayed and billed.
  lemma RelaysAndBills(cfg: Config, steps: seq<Step>, s: State, id: EventId, o: OrderId)
    returns (steps': seq<Step>, t: State)
    requires cfg.relay.Valid() && cfg.maxReceive >= 1 && cfg.retention >= 1 && Reached(cfg, steps, s)
    requires OnlyPending(s, id) && s.relay.rows[id].payload.orderId == o
    requires forall x :: x in s.orders && x != o ==> UuidText(x) in SiteOf(s, Billing).store
    ensures Reached(cfg, steps', t) && Calm(t) && Requests(steps') == Requests(steps)
    ensures t.orders == s.orders && t.relay.rows.Keys == s.relay.rows.Keys
  {
    var v;
    steps', v := Relays(cfg, steps, s, id);
    Arrives(s, v, id);
    steps', t := Bills(cfg, steps', v, |s.history|, o);
  }

  // The request is served; if it saved an order, the order is relayed and
  // billed before the next.
  lemma ServesRequest(cfg: Config, steps: seq<Step>, s: State, req: Orders.Request)
    returns (steps': seq<Step>, t: State)
    requires cfg.relay.Valid() && cfg.maxReceive >= 1 && cfg.retention >= 1 && Reached(cfg, steps, s) && Calm(s)
    ensures Reached(cfg, steps', t) && Calm(t) && Requests(steps') == Requests(steps) + [req]
    ensures t.orders == Orders.Place(DbOf(s), req).orders && t.relay.rows.Keys == Orders.Place(DbOf(s), req).outbox.Keys
  {
    steps', t := Do(cfg, steps, s, Place(req));
    assert SiteOf(t, Billing) == SiteOf(s, Billing) && t.relay.relays == s.relay.relays;
    if Orders.Saved(DbOf(s), req) {
      steps', t := RelaysAndBills(cfg, steps', t, req.eventId, req.orderId);
    }
  }

  // The same requests are refused, and saved, whatever became of the rows.
  lemma SameAnswers(a: Orders.Db, b: Orders.Db, req: Orders.Request)
    requires a.orders == b.orders && a.outbox.Keys == b.outbox.Keys
    ensures Orders.Place(a, req).orders == Orders.Place(b, req).orders
    ensures Orders.Place(a, req).outbox.Keys == Orders.Place(b, req).outbox.Keys
  {
  }

  lemma {:induction false} ServesAll(cfg: Config, steps: seq<Step>, s: State, db: Orders.Db, reqs: seq<Orders.Request>)
    returns (steps': seq<Step>, t: State)
    requires cfg.relay.Valid() && cfg.maxReceive >= 1 && cfg.retention >= 1 && Reached(cfg, steps, s) && Calm(s)
    requires s.orders == db.orders && s.relay.rows.Keys == db.outbox.Keys
    ensures Reached(cfg, steps', t) && Calm(t) && Requests(steps') == Requests(steps) + reqs
    ensures t.orders == Orders.PlaceAll(db, reqs).orders
    decreases |reqs|
  {
    steps', t := steps, s;
    if reqs != [] {
      SameAnswers(DbOf(s), db, reqs[0]);
      steps', t := ServesRequest(cfg, steps, s, reqs[0]);
      steps', t := ServesAll(cfg, steps', t, Orders.Place(db, reqs[0]), reqs[1..]);
      OneThenRest(Requests(steps), reqs);
    }
  }

  lemma OneThenRest<T>(a: seq<T>, b: seq<T>)
    requires b != []
    ensures (a + [b[0]]) + b[1..] == a + b
  {
    assert b == [b[0]] + b[1..];
  }

  // Billing's rows are the orders, one for one.
  lemma AllBilled(cfg: Config, steps: seq<Step>, s: State)
    requires Reached(cfg, steps, s) && Calm(s)
    ensures E.View(s).billed.Keys == s.orders.Keys
    ensures forall o :: o in s.orders ==> E.View(s).billed[o] == (s.orders[o].customer, s.orders[o].amount)
  {
    forall o ensures o in E.View(s).billed <==> o in s.orders
             ensures o in s.orders ==> E.View(s).billed[o] == (s.orders[o].customer, s.orders[o].amount) {
      E.ChargedAsOrdered(cfg, steps, UuidText(o));
    }
  }

  // The customer who wanted one order is billed once for each lost commit
  // reply and once more: some run of the pipeline, all of it healthy but for
  // those replies, bills every order the client's one dialogue saved.
  lemma RetryIsBilled(cfg: Config, reqs: seq<Orders.Request>, customer: Text, item: Text, amount: int)
    returns (steps: seq<Step>, s: State)
    requires cfg.relay.Valid() && cfg.maxReceive >= 1 && cfg.retention >= 1
    requires Orders.Dialogue(NOTHING_SAVED, reqs) && Orders.Wishes(reqs, customer, item, amount)
    ensures Reached(cfg, steps, s) && Requests(steps) == reqs
    ensures var billed := E.View(s).billed;
            && |billed| == 1 + Orders.LostReplies(NOTHING_SAVED, reqs)
            && forall o :: o in billed ==> billed[o] == (customer, amount)
  {
    assert Reached(cfg, [], EMPTY) && Calm(EMPTY);
    steps, s := ServesAll(cfg, [], EMPTY, NOTHING_SAVED, reqs);
    assert Requests(steps) == reqs;
    Orders.RetrySaves(NOTHING_SAVED, reqs);
    var after := Orders.PlaceAll(NOTHING_SAVED, reqs);
    assert Orders.Added(NOTHING_SAVED, after) == after.orders.Keys == s.orders.Keys;
    AllBilled(cfg, steps, s);
    forall o | o in s.orders ensures Orders.AsWished(s.orders[o], customer, item, amount) {
      assert o in Orders.Added(NOTHING_SAVED, after);
      Orders.RetrySavesTheWish(NOTHING_SAVED, reqs, customer, item, amount, o);
    }
  }

  // There is no limit to it.
  lemma BilledAnyNumberOfTimes(cfg: Config, n: nat, customer: Text, item: Text, amount: int)
    returns (steps: seq<Step>, s: State)
    requires cfg.relay.Valid() && cfg.maxReceive >= 1 && cfg.retention >= 1
    ensures Reached(cfg, steps, s) && Orders.Dialogue(NOTHING_SAVED, Requests(steps))
    ensures var billed := E.View(s).billed;
            |billed| == 1 + n && forall o :: o in billed ==> billed[o] == (customer, amount)
  {
    var reqs := Orders.RepliesLostInARow(NOTHING_SAVED, n, customer, item, amount);
    steps, s := RetryIsBilled(cfg, reqs, customer, item, amount);
  }
}
