// What the pipeline as a whole promises: nothing is lost silently, each order
// is billed and shipped at most once from its own snapshot, and the consumers
// do not affect each other.
module EndToEnd {
  import opened Base
  import Messages
  import Orders
  import R = RelayProtocol
  import C = Consumers
  import opened System

  // ---- no silent loss ------------------------------------------------------

  // In every reachable state, for each saved order and each consumer: its row
  // is unpublished, or an undeleted message of it is on that consumer's side,
  // or that consumer has recorded it.
  lemma NoSilentLoss(cfg: Config, steps: seq<Step>, kind: Kind, o: OrderId)
    requires Run(cfg, EMPTY, steps) && Unwiped(steps, kind)
    requires o in After(cfg, EMPTY, steps).orders
    ensures var s := After(cfg, EMPTY, steps);
            && o in s.eventOf && s.eventOf[o] in s.relay.rows
            && (|| !s.relay.rows[s.eventOf[o]].published
                // Waiting, in flight, dead-lettered, or dropped by SQS for age.
                || (exists k :: 0 <= k < |s.history| && s.history[k] == s.eventOf[o]
                      && k in SiteOf(s, kind).copies && !SiteOf(s, kind).copies[k].place.Deleted?)
                || C.Recorded(cfg.For(kind), SiteOf(s, kind), UuidText(o)))
  {
    var s := After(cfg, EMPTY, steps);
    AlwaysFromEmpty(cfg, steps, kind);
    var id := s.eventOf[o];
    if s.relay.rows[id].published {
      assert R.Sent(s.relay, id) && HistoryOk(s, id);
      assert id in multiset(s.history);
      var k :| 0 <= k < |s.history| && s.history[k] == id;
      assert Carries(s, kind, SiteOf(s, kind).copies[k], k);
      assert C.CopyOk(cfg.For(kind), SiteOf(s, kind), k);
    }
  }

  // Fan-out conserves messages: every message SNS accepted is one copy of
  // each queue, carrying its row's event, and a queue holds nothing else but
  // strays; SNS accepted as many as the relays' accounts say.
  lemma FanOutExact(cfg: Config, steps: seq<Step>, kind: Kind, k: int)
    requires Run(cfg, EMPTY, steps) && Unwiped(steps, kind)
    ensures var s := After(cfg, EMPTY, steps);
            && (0 <= k < |s.history| <==> k in SiteOf(s, kind).copies && k >= 0)
            && (0 <= k < |s.history| ==>
                  && s.history[k] in s.relay.rows
                  && SiteOf(s, kind).copies[k].content ==
                       Messages.Readable(
                         Messages.ReadingOf(kind, BuildMessage(s.history[k], s.relay.rows[s.history[k]]))))
            && forall id :: multiset(s.history)[id] == R.TallyOf(s.relay, id).accepted
  {
    var s := After(cfg, EMPTY, steps);
    AlwaysFromEmpty(cfg, steps, kind);
    if 0 <= k < |s.history| { assert Carries(s, kind, SiteOf(s, kind).copies[k], k); }
    forall id ensures multiset(s.history)[id] == R.TallyOf(s.relay, id).accepted { assert HistoryOk(s, id); }
  }

  // Orders and outbox rows correspond one to one in every reachable state,
  // and each row still carries the snapshot staged with its order.
  lemma OrdersAndOutboxCorrespond(cfg: Config, steps: seq<Step>)
    requires Run(cfg, EMPTY, steps)
    ensures var s := After(cfg, EMPTY, steps); Orders.Paired(s.orders, s.relay.rows, s.eventOf)
  {
    UpstreamAlways(cfg, EMPTY, steps);
  }

  lemma {:induction false} UpstreamAlways(cfg: Config, s: State, steps: seq<Step>)
    requires Upstream(cfg, s) && Run(cfg, s, steps)
    ensures Upstream(cfg, After(cfg, s, steps))
    decreases |steps|
  {
    if steps != [] {
      UpstreamKept(cfg, s, steps[0]);
      UpstreamAlways(cfg, Apply(cfg, s, steps[0]), steps[1..]);
    }
  }

  // ---- the simple system ---------------------------------------------------

  // What a reader would want it to be: orders are saved, and each saved order
  // is billed once and shipped once, from what was saved.
  datatype Simple = Simple(
    saved: map<OrderId, Order>,
    billed: map<OrderId, (Text, int)>,
    shipped: map<OrderId, (Text, Text)>)

  const NOTHING_YET: Simple := Simple(map[], map[], map[])

  datatype Act = Save(o: OrderId, order: Order) | Bill(o: OrderId) | Ship(o: OrderId) | Stutter

  predicate Can(a: Simple, act: Act) {
    match act
    case Save(o, _) => o !in a.saved
    case Bill(o) => o in a.saved && o !in a.billed
    case Ship(o) => o in a.saved && o !in a.shipped
    case Stutter => true
  }

  function Do(a: Simple, act: Act): Simple
    requires Can(a, act)
  {
    match act
    case Save(o, order) => a.(saved := a.saved[o := order])
    case Bill(o) => a.(billed := a.billed[o := (a.saved[o].customer, a.saved[o].amount)])
    case Ship(o) => a.(shipped := a.shipped[o := (a.saved[o].customer, a.saved[o].item)])
    case Stutter => a
  }

  ghost predicate SimpleRun(a: Simple, acts: seq<Act>)
    decreases |acts|
  {
    acts == [] || (Can(a, acts[0]) && SimpleRun(Do(a, acts[0]), acts[1..]))
  }

  ghost function SimpleAfter(a: Simple, acts: seq<Act>): Simple
    requires SimpleRun(a, acts)
    decreases |acts|
  {
    if acts == [] then a else SimpleAfter(Do(a, acts[0]), acts[1..])
  }

  // The real system seen as the simple one.
  function Billed(store: map<C.Key, C.Effect>): map<OrderId, (Text, int)> {
    map key | key in store && key.UuidText? && store[key].Bill? :: key.id := (store[key].customer, store[key].amount)
  }

  function Shipped(store: map<C.Key, C.Effect>): map<OrderId, (Text, Text)> {
    map key | key in store && key.UuidText? && store[key].Shipment? :: key.id := (store[key].customer, store[key].item)
  }

  function View(s: State): Simple {
    Simple(s.orders, Billed(SiteOf(s, Billing).store), Shipped(SiteOf(s, Shipping).store))
  }

  // The act a step performs.
  ghost function ActOf(cfg: Config, s: State, step: Step): Act
    requires Enabled(cfg, s, step)
  {
    if step.Place? && Orders.Saved(DbOf(s), step.req) then Save(step.req.orderId, Orders.OrderOf(step.req))
    else if step.Consume? && step.kind.Billing? && NewRow(s, step).Some? then Bill(NewRow(s, step).value)
    else if step.Consume? && step.kind.Shipping? && NewRow(s, step).Some? then Ship(NewRow(s, step).value)
    else Stutter
  }

  // The order an insert adds a row for, if it is not a duplicate.
  function NewRow(s: State, step: Step): Option<OrderId>
    requires step.Consume?
  {
    var site := SiteOf(s, step.kind);
    if (step.local.Insert? || step.local.InsertReplyLost?) && C.Ready(site, step.local.d)
       && C.KeyAt(site, step.local.d) !in site.store && C.KeyAt(site, step.local.d).UuidText?
    then Some(C.KeyAt(site, step.local.d).id) else None
  }

  ghost predicate Good(cfg: Config, s: State) {
    Upstream(cfg, s) && Downstream(cfg, s, Billing) && Downstream(cfg, s, Shipping)
  }

  // The system's runs withhold no step of any of its parts: any request, any
  // step of any relay, any step of any consumer's workers and queue under the
  // shared settings, unparsable strays, and the loss of a store.
  lemma NothingIsWithheld(cfg: Config, s: State, req: Orders.Request, step: R.Step, kind: Kind,
                          local: C.Step, c: C.CopyId, body: Text)
    ensures Enabled(cfg, s, Place(req)) && Enabled(cfg, s, Wipe(kind))
    ensures !step.Insert? && R.Enabled(cfg.relay, R.CODE, s.relay, step) ==> Enabled(cfg, s, Relay(step))
    ensures !local.Arrive?
            && C.Enabled(C.Config(kind, cfg.maxReceive, cfg.ttl, cfg.retention), SiteOf(s, kind), local) ==>
              Enabled(cfg, s, Consume(kind, local))
    ensures c < 0 && c !in SiteOf(s, kind).copies && Messages.Poison(body) ==> Enabled(cfg, s, Stray(kind, c, body))
  {
  }

  // The row one step adds is the one the simple system would add.
  lemma InsertRefines(cfg: Config, s: State, step: Step)
    requires Good(cfg, s) && Enabled(cfg, s, step)
    requires step.Consume? && !step.kind.Notifications? && NewRow(s, step).Some?
    ensures var o, r := NewRow(s, step).value, C.ReadingAt(SiteOf(s, step.kind), step.local.d);
            && o in s.orders && o in s.eventOf
            && r == (if step.kind.Billing?
                     then Messages.BillOf(s.eventOf[o], o, s.orders[o].customer, s.orders[o].amount)
                     else Messages.ShipOf(s.eventOf[o], o, s.orders[o].customer, s.orders[o].item))
            && SiteOf(Apply(cfg, s, step), step.kind).store ==
                 SiteOf(s, step.kind).store[UuidText(o) := C.Project(r, step.local.tracking)]
  {
    C.StoreStep(cfg.For(step.kind), SiteOf(s, step.kind), step.local);
    CopyIsOrder(cfg, s, step.kind, step.local.d.copy);
  }

  lemma OtherwiseSameStore(cfg: Config, s: State, step: Step)
    requires Good(cfg, s) && Enabled(cfg, s, step)
    requires step.Consume? && !step.kind.Notifications? && NewRow(s, step).None?
    ensures SiteOf(Apply(cfg, s, step), step.kind).store == SiteOf(s, step.kind).store
  {
    C.StoreStep(cfg.For(step.kind), SiteOf(s, step.kind), step.local);
    if step.local.Insert? || step.local.InsertReplyLost? { CopyIsOrder(cfg, s, step.kind, step.local.d.copy); }
  }

  lemma StoresElsewhere(cfg: Config, s: State, step: Step, kind: Kind)
    requires Enabled(cfg, s, step) && step != Wipe(kind)
    requires step.Consume? ==> step.kind != kind
    ensures SiteOf(Apply(cfg, s, step), kind).store == SiteOf(s, kind).store
  {
    if step.Relay? {
      var (id, n) := R.Emits(s.relay, step.step);
      PublishedSite(s, id, n, kind);
      if id in s.relay.rows {
        DeliverCopies(kind, SiteOf(s, kind), |s.history|, Bodies(|s.history|, id, s.relay.rows[id], n));
      }
    }
  }

  lemma OneMoreBilled(store: map<C.Key, C.Effect>, o: OrderId, e: EventId, customer: Text, amount: int)
    ensures Billed(store[UuidText(o) := C.Bill(e, customer, amount)]) == Billed(store)[o := (customer, amount)]
  {
    var a, b := Billed(store[UuidText(o) := C.Bill(e, customer, amount)]), Billed(store)[o := (customer, amount)];
    forall x ensures x in a <==> x in b {
      assert x in a <==> UuidText(x) in store[UuidText(o) := C.Bill(e, customer, amount)]
                         && store[UuidText(o) := C.Bill(e, customer, amount)][UuidText(x)].Bill?;
      assert x in Billed(store) <==> UuidText(x) in store && store[UuidText(x)].Bill?;
    }
  }

  lemma OneMoreShipped(store: map<C.Key, C.Effect>, o: OrderId, e: EventId, customer: Text, item: Text, tracking: int)
    ensures Shipped(store[UuidText(o) := C.Shipment(e, customer, item, tracking)]) ==
            Shipped(store)[o := (customer, item)]
  {
    var a, b := Shipped(store[UuidText(o) := C.Shipment(e, customer, item, tracking)]),
                Shipped(store)[o := (customer, item)];
    forall x ensures x in a <==> x in b {
      assert x in a <==> UuidText(x) in store[UuidText(o) := C.Shipment(e, customer, item, tracking)]
                         && store[UuidText(o) := C.Shipment(e, customer, item, tracking)][UuidText(x)].Shipment?;
      assert x in Shipped(store) <==> UuidText(x) in store && store[UuidText(x)].Shipment?;
    }
  }

  lemma BillRefines(cfg: Config, s: State, step: Step)
    requires Good(cfg, s) && Enabled(cfg, s, step) && step.Consume? && step.kind.Billing?
    ensures Can(View(s), ActOf(cfg, s, step))
    ensures View(Apply(cfg, s, step)) == Do(View(s), ActOf(cfg, s, step))
  {
    StoresElsewhere(cfg, s, step, Shipping);
    if NewRow(s, step).Some? {
      InsertRefines(cfg, s, step);
      var o := NewRow(s, step).value;
      OneMoreBilled(SiteOf(s, Billing).store, o, s.eventOf[o], s.orders[o].customer, s.orders[o].amount);
      NotYet(SiteOf(s, Billing).store, o);
    } else {
      OtherwiseSameStore(cfg, s, step);
    }
  }

  lemma NotYet(store: map<C.Key, C.Effect>, o: OrderId)
    requires UuidText(o) !in store
    ensures o !in Billed(store) && o !in Shipped(store)
  {
  }

  lemma ShipRefines(cfg: Config, s: State, step: Step)
    requires Good(cfg, s) && Enabled(cfg, s, step) && step.Consume? && step.kind.Shipping?
    ensures Can(View(s), ActOf(cfg, s, step))
    ensures View(Apply(cfg, s, step)) == Do(View(s), ActOf(cfg, s, step))
  {
    StoresElsewhere(cfg, s, step, Billing);
    if NewRow(s, step).Some? {
      InsertRefines(cfg, s, step);
      var o := NewRow(s, step).value;
      OneMoreShipped(SiteOf(s, Shipping).store, o, s.eventOf[o], s.orders[o].customer, s.orders[o].item,
                     step.local.tracking);
      NotYet(SiteOf(s, Shipping).store, o);
    } else {
      OtherwiseSameStore(cfg, s, step);
    }
  }

  // Every step of the pipeline is an act of the simple system.
  lemma StepRefines(cfg: Config, s: State, step: Step)
    requires Good(cfg, s) && Enabled(cfg, s, step) && step != Wipe(Billing) && step != Wipe(Shipping)
    ensures Can(View(s), ActOf(cfg, s, step))
    ensures View(Apply(cfg, s, step)) == Do(View(s), ActOf(cfg, s, step))
  {
    if step.Consume? && step.kind.Billing? {
      BillRefines(cfg, s, step);
    } else if step.Consume? && step.kind.Shipping? {
      ShipRefines(cfg, s, step);
    } else {
      StoresElsewhere(cfg, s, step, Billing);
      StoresElsewhere(cfg, s, step, Shipping);
    }
  }

  lemma UnwipedRest(steps: seq<Step>, kind: Kind)
    requires steps != [] && Unwiped(steps, kind)
    ensures Unwiped(steps[1..], kind)
  {
    forall i | 0 <= i < |steps[1..]| ensures steps[1..][i] != Wipe(kind) { assert steps[1..][i] == steps[i + 1]; }
  }

  lemma GoodKept(cfg: Config, s: State, step: Step)
    requires Good(cfg, s) && Enabled(cfg, s, step) && step != Wipe(Billing) && step != Wipe(Shipping)
    ensures Good(cfg, Apply(cfg, s, step))
  {
    UpstreamKept(cfg, s, step);
    DownstreamKept(cfg, s, step, Billing);
    DownstreamKept(cfg, s, step, Shipping);
  }

  lemma FirstAct(a: Simple, act: Act, rest: seq<Act>)
    requires Can(a, act) && SimpleRun(Do(a, act), rest)
    ensures SimpleRun(a, [act] + rest) && SimpleAfter(a, [act] + rest) == SimpleAfter(Do(a, act), rest)
  {
    assert ([act] + rest)[1..] == rest;
  }

  // Exactly-once billing and shipping, end to end: every run of orders, any
  // number of relays, crashes, republishes, redeliveries and duplicates is,
  // seen from outside, a run of the simple system.
  lemma {:induction false} Refinement(cfg: Config, s: State, steps: seq<Step>) returns (acts: seq<Act>)
    requires Good(cfg, s) && Run(cfg, s, steps) && Unwiped(steps, Billing) && Unwiped(steps, Shipping)
    ensures |acts| == |steps| && SimpleRun(View(s), acts)
    ensures SimpleAfter(View(s), acts) == View(After(cfg, s, steps))
    decreases |steps|
  {
    acts := [];
    if steps != [] {
      assert steps[0] != Wipe(Billing) && steps[0] != Wipe(Shipping);
      UnwipedRest(steps, Billing);
      UnwipedRest(steps, Shipping);
      StepRefines(cfg, s, steps[0]);
      GoodKept(cfg, s, steps[0]);
      var rest := Refinement(cfg, Apply(cfg, s, steps[0]), steps[1..]);
      FirstAct(View(s), ActOf(cfg, s, steps[0]), rest);
      acts := [ActOf(cfg, s, steps[0])] + rest;
    }
  }

  // ... from the empty system on.
  lemma EveryRunIsSimple(cfg: Config, steps: seq<Step>) returns (acts: seq<Act>)
    requires Run(cfg, EMPTY, steps) && Unwiped(steps, Billing) && Unwiped(steps, Shipping)
    ensures |acts| == |steps| && SimpleRun(NOTHING_YET, acts)
    ensures SimpleAfter(NOTHING_YET, acts) == View(After(cfg, EMPTY, steps))
  {
    AlwaysFromEmpty(cfg, [], Billing);
    AlwaysFromEmpty(cfg, [], Shipping);
    assert View(EMPTY) == NOTHING_YET;
    acts := Refinement(cfg, EMPTY, steps);
  }

  // What that buys: in any reachable state all that is billed is a saved
  // order, with exactly its customer and amount, and likewise for shipping.
  lemma ChargedAsOrdered(cfg: Config, steps: seq<Step>, key: C.Key)
    requires Run(cfg, EMPTY, steps) && Unwiped(steps, Billing) && Unwiped(steps, Shipping)
    ensures var s := After(cfg, EMPTY, steps); var v := View(s);
            && (key in SiteOf(s, Billing).store ==>
                  && key.UuidText? && key.id in s.orders && key.id in s.eventOf && key.id in v.billed
                  && v.billed[key.id] == (s.orders[key.id].customer, s.orders[key.id].amount)
                  && SiteOf(s, Billing).store[key] ==
                       C.Bill(s.eventOf[key.id], s.orders[key.id].customer, s.orders[key.id].amount))
            && (key in SiteOf(s, Shipping).store ==>
                  && key.UuidText? && key.id in s.orders && key.id in s.eventOf && key.id in v.shipped
                  && v.shipped[key.id] == (s.orders[key.id].customer, s.orders[key.id].item)
                  && SiteOf(s, Shipping).store[key].Shipment?
                  && SiteOf(s, Shipping).store[key].eventId == s.eventOf[key.id])
  {
    AlwaysFromEmpty(cfg, steps, Billing);
    AlwaysFromEmpty(cfg, steps, Shipping);
    var s := After(cfg, EMPTY, steps);
    assert EffectExact(s, Billing, key) && EffectExact(s, Shipping, key);
  }

  // ... and once made, a charge or a shipment never changes.
  lemma {:induction false} NeverTwice(a: Simple, acts: seq<Act>, o: OrderId)
    requires SimpleRun(a, acts)
    ensures o in a.billed ==> o in SimpleAfter(a, acts).billed && SimpleAfter(a, acts).billed[o] == a.billed[o]
    ensures o in a.shipped ==> o in SimpleAfter(a, acts).shipped && SimpleAfter(a, acts).shipped[o] == a.shipped[o]
    ensures o in a.billed ==> forall i :: 0 <= i < |acts| ==> acts[i] != Bill(o)
    ensures o in a.shipped ==> forall i :: 0 <= i < |acts| ==> acts[i] != Ship(o)
    decreases |acts|
  {
    if acts != [] {
      NeverTwice(Do(a, acts[0]), acts[1..], o);
      forall i | 0 < i < |acts| ensures acts[i] == acts[1..][i - 1] { }
    }
  }

  // ---- consumer independence -----------------------------------------------

  predicate Concerns(step: Step, kind: Kind) {
    (step.Consume? || step.Stray? || step.Wipe?) && step.kind == kind
  }

  // A run without anything that happened at one consumer.
  function Erase(steps: seq<Step>, kind: Kind): seq<Step>
    decreases |steps|
  {
    if steps == [] then []
    else if Concerns(steps[0], kind) then Erase(steps[1..], kind)
    else [steps[0]] + Erase(steps[1..], kind)
  }

  // The same orders, outbox, relays, SNS history and other consumers.
  ghost predicate AgreeButFor(s: State, t: State, kind: Kind) {
    && s.orders == t.orders && s.eventOf == t.eventOf && s.relay == t.relay && s.history == t.history
    && forall k :: k != kind ==> SiteOf(s, k) == SiteOf(t, k)
  }

  lemma SharedStep(cfg: Config, s: State, t: State, step: Step, kind: Kind)
    requires AgreeButFor(s, t, kind) && Enabled(cfg, s, step) && !Concerns(step, kind)
    ensures Enabled(cfg, t, step) && AgreeButFor(Apply(cfg, s, step), Apply(cfg, t, step), kind)
  {
    if step.Consume? || step.Stray? || step.Wipe? { assert SiteOf(s, step.kind) == SiteOf(t, step.kind); }
    var s', t' := Apply(cfg, s, step), Apply(cfg, t, step);
    forall k | k != kind ensures SiteOf(s', k) == SiteOf(t', k) {
      assert SiteOf(s, k) == SiteOf(t, k);
      if step.Relay? {
        var (id, n) := R.Emits(s.relay, step.step);
        PublishedSite(s, id, n, k);
        PublishedSite(t, id, n, k);
      }
    }
  }

  lemma ErasedStep(cfg: Config, s: State, t: State, step: Step, kind: Kind)
    requires AgreeButFor(s, t, kind) && Enabled(cfg, s, step) && Concerns(step, kind)
    ensures AgreeButFor(Apply(cfg, s, step), t, kind)
  {
    var s' := Apply(cfg, s, step);
    forall k | k != kind ensures SiteOf(s', k) == SiteOf(t, k) { assert SiteOf(s, k) == SiteOf(t, k); }
  }

  lemma FirstStays(steps: seq<Step>, kind: Kind)
    requires steps != [] && !Concerns(steps[0], kind)
    ensures Erase(steps, kind) == [steps[0]] + Erase(steps[1..], kind)
    ensures Erase(steps, kind)[0] == steps[0] && Erase(steps, kind)[1..] == Erase(steps[1..], kind)
  {
  }

  // Erasing one consumer's steps, its outages, crashes, poison, even the
  // deletion of its dedup rows, from any run leaves a run with identical
  // orders, outbox, SNS history, and queues, DLQs and stores of the others.
  lemma {:induction false} ConsumersIndependent(cfg: Config, s: State, t: State, steps: seq<Step>, kind: Kind)
    requires AgreeButFor(s, t, kind) && Run(cfg, s, steps)
    ensures Run(cfg, t, Erase(steps, kind))
    ensures AgreeButFor(After(cfg, s, steps), After(cfg, t, Erase(steps, kind)), kind)
    decreases |steps|
  {
    if steps != [] {
      var s' := Apply(cfg, s, steps[0]);
      if Concerns(steps[0], kind) {
        ErasedStep(cfg, s, t, steps[0], kind);
        ConsumersIndependent(cfg, s', t, steps[1..], kind);
      } else {
        SharedStep(cfg, s, t, steps[0], kind);
        ConsumersIndependent(cfg, s', Apply(cfg, t, steps[0]), steps[1..], kind);
        FirstStays(steps, kind);
      }
    }
  }
}
