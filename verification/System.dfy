// The whole pipeline: orders committed with their outbox rows, any number of
// relays publishing them, SNS copying each accepted message into three queues,
// and each queue's consumer. One step of the system is one step of one part.
module System {
  import opened Base
  import Messages
  import Orders
  import R = RelayProtocol
  import C = Consumers

  datatype Config = Config(relay: RelayConfig, maxReceive: nat, ttl: nat, retention: nat) {
    function For(kind: Kind): C.Config { C.Config(kind, maxReceive, ttl, retention) }
  }

  // `history` lists the row of every message SNS ever accepted; message k is
  // copy k of every queue. `eventOf` remembers which outbox row an order was
  // saved with.
  datatype State = State(
    orders: map<OrderId, Order>,
    eventOf: map<OrderId, EventId>,
    relay: R.State,
    history: seq<EventId>,
    sites: map<Kind, C.Site>)

  const EMPTY: State := State(map[], map[], R.EMPTY, [], map[])

  // Besides the program's own steps: stray unparsable messages put straight
  // on a queue, and an operator emptying a consumer's dedup store.
  datatype Step =
    | Place(req: Orders.Request)
    | Relay(step: R.Step)
    | Consume(kind: Kind, local: C.Step)
    | Stray(kind: Kind, c: C.CopyId, body: Text)
    | Wipe(kind: Kind)

  function SiteOf(s: State, kind: Kind): C.Site { if kind in s.sites then s.sites[kind] else C.EMPTY }

  function DbOf(s: State): Orders.Db { Orders.Db(s.orders, s.relay.rows) }

  // The SQS body of message k: SNS mints a fresh MessageId for every publish.
  function WireBody(k: int, id: EventId, row: Row): Text {
    Messages.SnsBody(map["MessageId" := Number(k)], Messages.EncodeEvent(BuildMessage(id, row)))
  }

  function Enqueue(kind: Kind, site: C.Site, c: C.CopyId, body: Text): C.Site {
    site.(copies := site.copies[c := C.NewCopy(kind, site.now, body)])
  }

  // SNS puts messages on a queue, numbered from k.
  function Deliver(kind: Kind, site: C.Site, k: nat, bodies: seq<Text>): C.Site
    decreases |bodies|
  {
    if bodies == [] then site
    else Deliver(kind, Enqueue(kind, site, k, bodies[0]), k + 1, bodies[1..])
  }

  function Repeat(id: EventId, n: nat): seq<EventId> { seq(n, _ => id) }

  // The bodies of n messages of one row, numbered from k.
  function Bodies(k: nat, id: EventId, row: Row, n: nat): seq<Text> {
    seq(n, i => WireBody(k + i, id, row))
  }

  function Publish(s: State, id: EventId, n: nat): State {
    if id !in s.relay.rows then s
    else
      var k := |s.history|;
      var bodies := Bodies(k, id, s.relay.rows[id], n);
      s.(history := s.history + Repeat(id, n),
         sites := map[
           Billing := Deliver(Billing, SiteOf(s, Billing), k, bodies),
           Shipping := Deliver(Shipping, SiteOf(s, Shipping), k, bodies),
           Notifications := Deliver(Notifications, SiteOf(s, Notifications), k, bodies)])
  }

  ghost predicate Enabled(cfg: Config, s: State, step: Step) {
    match step
    case Place(_) => true
    case Relay(local) => !local.Insert? && R.Enabled(cfg.relay, R.CODE, s.relay, local)
    case Consume(kind, local) => !local.Arrive? && C.Enabled(cfg.For(kind), SiteOf(s, kind), local)
    case Stray(kind, c, body) => c < 0 && c !in SiteOf(s, kind).copies && Messages.Poison(body)
    case Wipe(_) => true
  }

  function Apply(cfg: Config, s: State, step: Step): State
    requires Enabled(cfg, s, step)
  {
    match step
    case Place(req) =>
      var db := Orders.Place(DbOf(s), req);
      s.(orders := db.orders,
         eventOf := if Orders.Saved(DbOf(s), req) then s.eventOf[req.orderId := req.eventId] else s.eventOf,
         relay := s.relay.(rows := db.outbox))
    case Relay(local) =>
      var (id, n) := R.Emits(s.relay, local);
      Publish(s, id, n).(relay := R.Apply(cfg.relay, R.CODE, s.relay, local))
    case Consume(kind, local) =>
      s.(sites := s.sites[kind := C.Apply(cfg.For(kind), SiteOf(s, kind), local)])
    case Stray(kind, c, body) => s.(sites := s.sites[kind := Enqueue(kind, SiteOf(s, kind), c, body)])
    case Wipe(kind) => s.(sites := s.sites[kind := SiteOf(s, kind).(store := map[])])
  }

  ghost predicate Run(cfg: Config, s: State, steps: seq<Step>)
    decreases |steps|
  {
    steps == [] || (Enabled(cfg, s, steps[0]) && Run(cfg, Apply(cfg, s, steps[0]), steps[1..]))
  }

  ghost function After(cfg: Config, s: State, steps: seq<Step>): State
    requires Run(cfg, s, steps)
    decreases |steps|
  {
    if steps == [] then s else After(cfg, Apply(cfg, s, steps[0]), steps[1..])
  }

  // ---- what a publish does -------------------------------------------------

  lemma {:induction false} DeliverCopies(kind: Kind, site: C.Site, k: nat, bodies: seq<Text>)
    ensures var site' := Deliver(kind, site, k, bodies);
            && site' == site.(copies := site'.copies)
            && (forall c :: c in site'.copies <==> c in site.copies || k <= c < k + |bodies|)
            && (forall c :: c in site.copies && !(k <= c < k + |bodies|) ==> site'.copies[c] == site.copies[c])
    decreases |bodies|
  {
    if bodies != [] { DeliverCopies(kind, Enqueue(kind, site, k, bodies[0]), k + 1, bodies[1..]); }
  }

  lemma {:induction false} DeliveredCopy(kind: Kind, site: C.Site, k: nat, bodies: seq<Text>, c: nat)
    requires k <= c < k + |bodies|
    ensures var site' := Deliver(kind, site, k, bodies);
            && c in site'.copies && site'.copies[c].body == bodies[c - k]
            && site'.copies[c].content == Messages.Classify(kind, bodies[c - k])
    decreases |bodies|
  {
    var next := Enqueue(kind, site, k, bodies[0]);
    if c == k {
      DeliverCopies(kind, next, k + 1, bodies[1..]);
    } else {
      DeliveredCopy(kind, next, k + 1, bodies[1..], c);
    }
  }

  // To the queue, SNS's delivery is an arrival.
  lemma EnqueueArrives(cfg: C.Config, site: C.Site, c: C.CopyId, body: Text)
    requires c !in site.copies
    ensures Enqueue(cfg.kind, site, c, body) == C.Apply(cfg, site, C.Arrive(c, body))
  {
  }

  lemma {:induction false} DeliverKeepsQueue(cfg: C.Config, site: C.Site, k: nat, bodies: seq<Text>)
    requires C.QueueOk(cfg, site) && forall c :: c in site.copies ==> c < k
    ensures C.QueueOk(cfg, Deliver(cfg.kind, site, k, bodies))
    decreases |bodies|
  {
    if bodies != [] {
      EnqueueArrives(cfg, site, k, bodies[0]);
      C.QueueKept(cfg, site, C.Arrive(k, bodies[0]));
      DeliverKeepsQueue(cfg, Enqueue(cfg.kind, site, k, bodies[0]), k + 1, bodies[1..]);
    }
  }

  // ---- invariants ----------------------------------------------------------

  // The body is message k of the history, and what the consumer reads of it
  // is its part of that row's snapshot.
  ghost predicate Carries(s: State, kind: Kind, copy: C.Copy, k: nat)
    requires k < |s.history|
  {
    var id := s.history[k];
    id in s.relay.rows && copy.body == WireBody(k, id, s.relay.rows[id])
    && copy.content == Messages.Readable(Messages.ReadingOf(kind, BuildMessage(id, s.relay.rows[id])))
  }

  // Every copy is message k of the history, carrying its row's snapshot, or a
  // stray; and every queue has a copy of every message.
  ghost predicate CopiesMatch(s: State, kind: Kind) {
    && (forall k :: 0 <= k < |s.history| ==> k in SiteOf(s, kind).copies)
    && (forall c :: c in SiteOf(s, kind).copies ==>
          && c < |s.history|
          && (c < 0 ==> SiteOf(s, kind).copies[c].content.Unparsable?)
          && (c >= 0 ==> Carries(s, kind, SiteOf(s, kind).copies[c], c)))
  }

  // Accepted publishes and history agree, row by row.
  ghost predicate HistoryOk(s: State, id: EventId) {
    multiset(s.history)[id] == R.TallyOf(s.relay, id).accepted
  }

  // The row a consumer holds under a key is the snapshot of an order, as saved.
  ghost predicate EffectExact(s: State, kind: Kind, key: C.Key) {
    key in SiteOf(s, kind).store && !kind.Notifications? ==>
      && key.UuidText? && key.id in s.orders && key.id in s.eventOf
      && var row := SiteOf(s, kind).store[key];
         if kind.Billing? then row == C.Bill(s.eventOf[key.id], s.orders[key.id].customer, s.orders[key.id].amount)
         else row.Shipment?
              && row == C.Shipment(s.eventOf[key.id], s.orders[key.id].customer, s.orders[key.id].item, row.tracking)
  }

  // The rows of the orders half: unaffected by anything downstream.
  ghost predicate Upstream(cfg: Config, s: State) {
    && Orders.Paired(s.orders, s.relay.rows, s.eventOf)
    && R.Ledger(s.relay)
    && (forall id :: R.Sent(s.relay, id))
    && (forall id :: HistoryOk(s, id))
  }

  ghost predicate Downstream(cfg: Config, s: State, kind: Kind) {
    && CopiesMatch(s, kind)
    && C.QueueOk(cfg.For(kind), SiteOf(s, kind))
    && (forall key :: EffectExact(s, kind, key))
  }

  // ---- upstream ------------------------------------------------------------

  lemma MultisetRepeat(history: seq<EventId>, id: EventId, n: nat, x: EventId)
    ensures multiset(history + Repeat(id, n))[x] == multiset(history)[x] + if x == id then n else 0
    decreases n
  {
    if n == 0 {
      assert history + Repeat(id, n) == history;
    } else {
      MultisetRepeat(history, id, n - 1, x);
      assert history + Repeat(id, n) == (history + Repeat(id, n - 1)) + [id];
    }
  }

  lemma PlaceKeepsUpstream(cfg: Config, s: State, req: Orders.Request)
    requires Upstream(cfg, s)
    ensures Upstream(cfg, Apply(cfg, s, Place(req)))
  {
    var s' := Apply(cfg, s, Place(req));
    Orders.PlaceKeepsPairs(DbOf(s), req, s.eventOf);
    if Orders.Saved(DbOf(s), req) {
      var insert := R.Insert(req.eventId, Orders.RowOf(req));
      assert s'.relay == R.Apply(cfg.relay, R.CODE, s.relay, insert);
      R.LedgerKept(cfg.relay, R.CODE, s.relay, insert);
      forall id ensures R.Sent(s'.relay, id) && HistoryOk(s', id) {
        R.SentKept(cfg.relay, R.CODE, s.relay, insert, id);
        assert HistoryOk(s, id);
      }
    } else {
      assert s'.relay == s.relay;
      forall id ensures HistoryOk(s', id) { assert HistoryOk(s, id); }
    }
  }

  // SNS's history grows by what the step emits, and so does the ledger.
  lemma HistoryKept(cfg: Config, s: State, local: R.Step, x: EventId)
    requires R.Ledger(s.relay) && Enabled(cfg, s, Relay(local)) && HistoryOk(s, x)
    ensures HistoryOk(Apply(cfg, s, Relay(local)), x)
  {
    var (id, n) := R.Emits(s.relay, local);
    R.EmitsCounted(cfg.relay, s.relay, local, x);
    if n > 0 { R.EmitsRow(cfg.relay, s.relay, local); }
    MultisetRepeat(s.history, id, n, x);
  }

  lemma RelayKeepsUpstream(cfg: Config, s: State, local: R.Step)
    requires Upstream(cfg, s) && Enabled(cfg, s, Relay(local))
    ensures Upstream(cfg, Apply(cfg, s, Relay(local)))
  {
    var s' := Apply(cfg, s, Relay(local));
    R.RowIdentity(cfg.relay, R.CODE, s.relay, local);
    R.LedgerKept(cfg.relay, R.CODE, s.relay, local);
    forall x ensures R.Sent(s'.relay, x) { R.SentKept(cfg.relay, R.CODE, s.relay, local, x); }
    forall x ensures HistoryOk(s', x) {
      assert HistoryOk(s, x);
      HistoryKept(cfg, s, local, x);
    }
    SameEventsPaired(s.orders, s.relay.rows, s'.relay.rows, s.eventOf);
  }

  lemma SameEventsPaired(orders: map<OrderId, Order>, a: Table, b: Table, eventOf: map<OrderId, EventId>)
    requires Orders.Paired(orders, a, eventOf) && SameEvents(a, b)
    ensures Orders.Paired(orders, b, eventOf)
  {
    forall x | x in a ensures b[x].orderId == a[x].orderId && b[x].payload == a[x].payload {
      assert BuildMessage(x, b[x]) == BuildMessage(x, a[x]);
    }
  }

  lemma UpstreamKept(cfg: Config, s: State, step: Step)
    requires Upstream(cfg, s) && Enabled(cfg, s, step)
    ensures Upstream(cfg, Apply(cfg, s, step))
  {
    match step {
      case Place(req) => PlaceKeepsUpstream(cfg, s, req);
      case Relay(local) => RelayKeepsUpstream(cfg, s, local);
      case _ =>
        var s' := Apply(cfg, s, step);
        forall id ensures HistoryOk(s', id) { assert HistoryOk(s, id); }
    }
  }

  // ---- downstream ----------------------------------------------------------

  // Each consumer reads exactly its part of the row a message came from.
  lemma ReadWire(kind: Kind, k: int, id: EventId, row: Row)
    ensures Messages.Classify(kind, WireBody(k, id, row)) ==
            Messages.Readable(Messages.ReadingOf(kind, BuildMessage(id, row)))
  {
    Messages.ReadUndoesPublish(kind, map["MessageId" := Number(k)], BuildMessage(id, row));
  }

  // Steps that leave the consumer's site alone keep its invariants.
  lemma PlaceKeepsDownstream(cfg: Config, s: State, req: Orders.Request, kind: Kind)
    requires Upstream(cfg, s) && Downstream(cfg, s, kind)
    ensures Downstream(cfg, Apply(cfg, s, Place(req)), kind)
  {
    var s' := Apply(cfg, s, Place(req));
    assert SiteOf(s', kind) == SiteOf(s, kind) && s'.history == s.history;
    forall c | c in SiteOf(s', kind).copies && c >= 0 ensures Carries(s', kind, SiteOf(s', kind).copies[c], c) {
      assert Carries(s, kind, SiteOf(s, kind).copies[c], c);
    }
    forall key ensures EffectExact(s', kind, key) { assert EffectExact(s, kind, key); }
  }

  lemma PublishedSite(s: State, id: EventId, n: nat, kind: Kind)
    ensures var s' := Publish(s, id, n);
            if id in s.relay.rows
            then SiteOf(s', kind) ==
                 Deliver(kind, SiteOf(s, kind), |s.history|, Bodies(|s.history|, id, s.relay.rows[id], n))
                 && s'.history == s.history + Repeat(id, n)
            else s' == s
  {
  }

  // Rows keep the events they stand for.
  ghost predicate SameEvents(a: Table, b: Table) {
    a.Keys == b.Keys && forall id :: id in a ==> BuildMessage(id, b[id]) == BuildMessage(id, a[id])
  }

  lemma PublishKeepsCopies(s: State, s': State, id: EventId, n: nat, kind: Kind)
    requires CopiesMatch(s, kind) && SameEvents(s.relay.rows, s'.relay.rows) && id in s.relay.rows
    requires s'.history == s.history + Repeat(id, n)
    requires SiteOf(s', kind) ==
             Deliver(kind, SiteOf(s, kind), |s.history|, Bodies(|s.history|, id, s.relay.rows[id], n))
    ensures CopiesMatch(s', kind)
  {
    var site, bodies := SiteOf(s, kind), Bodies(|s.history|, id, s.relay.rows[id], n);
    DeliverCopies(kind, site, |s.history|, bodies);
    forall c | c in SiteOf(s', kind).copies && c >= 0
      ensures c < |s'.history| && Carries(s', kind, SiteOf(s', kind).copies[c], c)
    {
      if c < |s.history| {
        StillCarries(s, s', kind, site.copies[c], c);
      } else {
        NewlyCarries(s, s', kind, id, n, site, c);
      }
    }
  }

  lemma BodyAt(k: nat, id: EventId, row: Row, n: nat, c: nat)
    requires k <= c < k + n
    ensures Bodies(k, id, row, n)[c - k] == WireBody(c, id, row)
  {
  }

  lemma StillCarries(s: State, s': State, kind: Kind, copy: C.Copy, k: nat)
    requires SameEvents(s.relay.rows, s'.relay.rows) && k < |s.history| && s.history <= s'.history
    requires Carries(s, kind, copy, k)
    ensures Carries(s', kind, copy, k)
  {
    SameWire(s.relay.rows, s'.relay.rows, s.history[k], k);
  }

  lemma NewlyCarries(s: State, s': State, kind: Kind, id: EventId, n: nat, site: C.Site, c: nat)
    requires SameEvents(s.relay.rows, s'.relay.rows) && id in s.relay.rows
    requires s'.history == s.history + Repeat(id, n) && |s.history| <= c < |s'.history|
    ensures var site' := Deliver(kind, site, |s.history|, Bodies(|s.history|, id, s.relay.rows[id], n));
            c in site'.copies && Carries(s', kind, site'.copies[c], c)
  {
    DeliveredCopy(kind, site, |s.history|, Bodies(|s.history|, id, s.relay.rows[id], n), c);
    BodyAt(|s.history|, id, s.relay.rows[id], n, c);
    ReadWire(kind, c, id, s.relay.rows[id]);
    SameWire(s.relay.rows, s'.relay.rows, id, c);
  }

  lemma SameWire(a: Table, b: Table, id: EventId, k: int)
    requires SameEvents(a, b) && id in a
    ensures BuildMessage(id, b[id]) == BuildMessage(id, a[id]) && WireBody(k, id, b[id]) == WireBody(k, id, a[id])
  {
  }

  lemma SameCopiesMatch(s: State, s': State, kind: Kind)
    requires CopiesMatch(s, kind) && SameEvents(s.relay.rows, s'.relay.rows) && s'.history == s.history
    requires SiteOf(s', kind).copies.Keys == SiteOf(s, kind).copies.Keys
    requires forall c :: c in SiteOf(s, kind).copies ==>
               && SiteOf(s', kind).copies[c].body == SiteOf(s, kind).copies[c].body
               && SiteOf(s', kind).copies[c].content == SiteOf(s, kind).copies[c].content
    ensures CopiesMatch(s', kind)
  {
    forall c | c in SiteOf(s', kind).copies && c >= 0 ensures Carries(s', kind, SiteOf(s', kind).copies[c], c) {
      assert Carries(s, kind, SiteOf(s, kind).copies[c], c);
      SameWire(s.relay.rows, s'.relay.rows, s.history[c], c);
    }
  }

  lemma SameEffects(s: State, s': State, kind: Kind)
    requires forall key :: EffectExact(s, kind, key)
    requires s'.orders == s.orders && s'.eventOf == s.eventOf && SiteOf(s', kind).store == SiteOf(s, kind).store
    ensures forall key :: EffectExact(s', kind, key)
  {
    forall key ensures EffectExact(s', kind, key) { assert EffectExact(s, kind, key); }
  }

  lemma PublishKeepsDownstream(cfg: Config, s: State, s': State, id: EventId, n: nat, kind: Kind)
    requires Downstream(cfg, s, kind) && SameEvents(s.relay.rows, s'.relay.rows) && id in s.relay.rows
    requires s'.orders == s.orders && s'.eventOf == s.eventOf && s'.history == s.history + Repeat(id, n)
    requires SiteOf(s', kind) ==
             Deliver(kind, SiteOf(s, kind), |s.history|, Bodies(|s.history|, id, s.relay.rows[id], n))
    ensures Downstream(cfg, s', kind)
  {
    var bodies := Bodies(|s.history|, id, s.relay.rows[id], n);
    PublishKeepsCopies(s, s', id, n, kind);
    DeliverCopies(kind, SiteOf(s, kind), |s.history|, bodies);
    DeliverKeepsQueue(cfg.For(kind), SiteOf(s, kind), |s.history|, bodies);
    SameEffects(s, s', kind);
  }

  lemma RelayKeepsDownstream(cfg: Config, s: State, local: R.Step, kind: Kind)
    requires Upstream(cfg, s) && Downstream(cfg, s, kind) && Enabled(cfg, s, Relay(local))
    ensures Downstream(cfg, Apply(cfg, s, Relay(local)), kind)
  {
    var s' := Apply(cfg, s, Relay(local));
    var (id, n) := R.Emits(s.relay, local);
    R.RowIdentity(cfg.relay, R.CODE, s.relay, local);
    PublishedSite(s, id, n, kind);
    if id in s.relay.rows {
      PublishKeepsDownstream(cfg, s, s', id, n, kind);
    } else {
      SameCopiesMatch(s, s', kind);
      SameEffects(s, s', kind);
    }
  }

  // What a consumer reads of a copy is its part of an order that was saved.
  lemma CopyIsOrder(cfg: Config, s: State, kind: Kind, c: C.CopyId)
    requires Upstream(cfg, s) && CopiesMatch(s, kind)
    requires c in SiteOf(s, kind).copies && SiteOf(s, kind).copies[c].content.Readable?
    ensures 0 <= c < |s.history| && s.history[c] in s.relay.rows
    ensures var id, row := s.history[c], s.relay.rows[s.history[c]];
            && row.orderId in s.orders && s.eventOf[row.orderId] == id
            && row.payload == Orders.BuildPayload(row.orderId, s.orders[row.orderId])
            && SiteOf(s, kind).copies[c].content.reading == Messages.ReadingOf(kind, BuildMessage(id, row))
  {
    assert c >= 0;
    assert Carries(s, kind, SiteOf(s, kind).copies[c], c);
  }

  lemma NewEffectExact(cfg: Config, s: State, local: C.Step, kind: Kind, key: C.Key)
    requires !kind.Notifications? && Upstream(cfg, s) && Downstream(cfg, s, kind) &&
             Enabled(cfg, s, Consume(kind, local))
    requires key in SiteOf(Apply(cfg, s, Consume(kind, local)), kind).store && key !in SiteOf(s, kind).store
    ensures EffectExact(Apply(cfg, s, Consume(kind, local)), kind, key)
  {
    C.StoreStep(cfg.For(kind), SiteOf(s, kind), local);
    CopyIsOrder(cfg, s, kind, local.d.copy);
  }

  lemma ConsumeKeepsEffects(cfg: Config, s: State, local: C.Step, kind: Kind, key: C.Key)
    requires Upstream(cfg, s) && Downstream(cfg, s, kind) && Enabled(cfg, s, Consume(kind, local))
    ensures EffectExact(Apply(cfg, s, Consume(kind, local)), kind, key)
  {
    assert EffectExact(s, kind, key);
    if !kind.Notifications? {
      var before, after := SiteOf(s, kind).store, SiteOf(Apply(cfg, s, Consume(kind, local)), kind).store;
      if key in before {
        C.StoreStep(cfg.For(kind), SiteOf(s, kind), local);
        assert after[key] == before[key];
      } else if key in after {
        NewEffectExact(cfg, s, local, kind, key);
      }
    }
  }

  lemma ConsumeKeepsDownstream(cfg: Config, s: State, local: C.Step, kind: Kind)
    requires Upstream(cfg, s) && Downstream(cfg, s, kind) && Enabled(cfg, s, Consume(kind, local))
    ensures Downstream(cfg, Apply(cfg, s, Consume(kind, local)), kind)
  {
    var s' := Apply(cfg, s, Consume(kind, local));
    C.QueueKept(cfg.For(kind), SiteOf(s, kind), local);
    C.CopiesStay(cfg.For(kind), SiteOf(s, kind), local);
    SameCopiesMatch(s, s', kind);
    forall key ensures EffectExact(s', kind, key) { ConsumeKeepsEffects(cfg, s, local, kind, key); }
  }

  lemma StrayKeepsDownstream(cfg: Config, s: State, c: C.CopyId, body: Text, kind: Kind)
    requires Upstream(cfg, s) && Downstream(cfg, s, kind) && Enabled(cfg, s, Stray(kind, c, body))
    ensures Downstream(cfg, Apply(cfg, s, Stray(kind, c, body)), kind)
  {
    var s' := Apply(cfg, s, Stray(kind, c, body));
    EnqueueArrives(cfg.For(kind), SiteOf(s, kind), c, body);
    C.QueueKept(cfg.For(kind), SiteOf(s, kind), C.Arrive(c, body));
    forall x | x in SiteOf(s', kind).copies && x >= 0 ensures Carries(s', kind, SiteOf(s', kind).copies[x], x) {
      assert Carries(s, kind, SiteOf(s, kind).copies[x], x);
    }
    forall key ensures EffectExact(s', kind, key) { assert EffectExact(s, kind, key); }
  }

  // Everything about one consumer survives every step but the loss of its own
  // store, whatever happens to the others.
  lemma DownstreamKept(cfg: Config, s: State, step: Step, kind: Kind)
    requires Upstream(cfg, s) && Downstream(cfg, s, kind) && Enabled(cfg, s, step) && step != Wipe(kind)
    ensures Downstream(cfg, Apply(cfg, s, step), kind)
  {
    match step {
      case Place(req) => PlaceKeepsDownstream(cfg, s, req, kind);
      case Relay(local) => RelayKeepsDownstream(cfg, s, local, kind);
      case Consume(k, local) =>
        if k == kind { ConsumeKeepsDownstream(cfg, s, local, kind); } else { OtherSite(cfg, s, step, kind); }
      case Stray(k, c, body) =>
        if k == kind { StrayKeepsDownstream(cfg, s, c, body, kind); } else { OtherSite(cfg, s, step, kind); }
      case Wipe(k) => OtherSite(cfg, s, step, kind);
    }
  }

  lemma OtherSite(cfg: Config, s: State, step: Step, kind: Kind)
    requires Downstream(cfg, s, kind) && Enabled(cfg, s, step)
    requires step.Consume? || step.Stray? || step.Wipe?
    requires step.kind != kind
    ensures Downstream(cfg, Apply(cfg, s, step), kind)
  {
    var s' := Apply(cfg, s, step);
    assert SiteOf(s', kind) == SiteOf(s, kind);
    SameCopiesMatch(s, s', kind);
    SameEffects(s, s', kind);
  }

  // ---- all runs ------------------------------------------------------------

  predicate Unwiped(steps: seq<Step>, kind: Kind) {
    forall i :: 0 <= i < |steps| ==> steps[i] != Wipe(kind)
  }

  lemma {:induction false} Always(cfg: Config, s: State, steps: seq<Step>, kind: Kind)
    requires Upstream(cfg, s) && Downstream(cfg, s, kind) && Run(cfg, s, steps) && Unwiped(steps, kind)
    ensures Upstream(cfg, After(cfg, s, steps)) && Downstream(cfg, After(cfg, s, steps), kind)
    decreases |steps|
  {
    if steps != [] {
      UpstreamKept(cfg, s, steps[0]);
      assert steps[0] != Wipe(kind);
      DownstreamKept(cfg, s, steps[0], kind);
      assert Unwiped(steps[1..], kind) by {
        forall i | 0 <= i < |steps[1..]| ensures steps[1..][i] != Wipe(kind) { assert steps[1..][i] == steps[i + 1]; }
      }
      Always(cfg, Apply(cfg, s, steps[0]), steps[1..], kind);
    }
  }

  lemma AlwaysFromEmpty(cfg: Config, steps: seq<Step>, kind: Kind)
    requires Run(cfg, EMPTY, steps) && Unwiped(steps, kind)
    ensures Upstream(cfg, After(cfg, EMPTY, steps)) && Downstream(cfg, After(cfg, EMPTY, steps), kind)
  {
    Always(cfg, EMPTY, steps, kind);
  }
}
