// shared/consumer.py and the three handlers as written: one worker process
// that updates its queue and its store in place. `proto` is the protocol
// state; every method is a run of the protocol in Consumers.
module ConsumerProcess {
  import opened Base
  import opened Messages
  import opened Consumers

  // How one call to a service ends: done; refused with nothing applied; or
  // applied with the reply lost, which also raises.
  datatype Reply = Fine | Refused | ReplyLost

  datatype SendResult = Sent | NotSent | SentButRaised

  // Everything the world decides about one message.
  datatype Luck = Luck(
    wait: nat,          // seconds since the last message, or the receive
    write: Reply,       // the INSERT's transaction, or the SET NX EX
    get: Reply,         // the GET behind the duplicate log line
    send: SendResult,
    release: Reply,     // the DEL of a failed send's key
    delete: Reply,      // sqs.delete_message
    tracking: int)      // the uuid behind this attempt's tracking number

  // What came of one message: an unparsable body, an exception out of the
  // handler, a failed delete, or handled and deleted.
  datatype Outcome = Poisoned | HandlerRaised | DeleteRaised | Done

  type Store = map<Key, Effect>

  // ---- specification -------------------------------------------------------

  // A Redis key past its expiry is absent.
  function Live(cfg: Config, now: int, store: Store, o: Key): Store {
    if cfg.kind.Notifications? && o in store && store[o].Claim? && now >= store[o].expiresAt then store - {o} else store
  }

  // A notification that lacks a part raises before anything is sent.
  function SendOf(r: Reading, luck: Luck): SendResult {
    if r.NoticeOf? && !r.complete then NotSent else luck.send
  }

  // What a handler call does: whether it returns without raising, the store
  // it leaves, and whether an email goes out.
  datatype Handling = Handling(clean: bool, store: Store, mailed: bool)

  // The handlers of Billing and Shipping.
  function InsertedBy(store: Store, r: Reading, luck: Luck): Handling
    requires !r.NoticeOf?
  {
    if luck.write.Refused? then Handling(false, store, false)
    else Handling(luck.write.Fine?, InsertOrIgnore(store, KeyOf(r), Project(r, luck.tracking)), false)
  }

  // The handler of Notifications.
  function NotifiedBy(cfg: Config, now: int, store: Store, r: Reading, luck: Luck): Handling
    requires r.NoticeOf?
  {
    var o := KeyOf(r);
    var live := Live(cfg, now, store, o);
    if luck.write.Refused? then Handling(false, store, false)
    else if o in live then Handling(luck.write.Fine? && luck.get.Fine?, live, false)
    else
      var claimed := live[o := Claim(r.first, now + cfg.ttl)];
      if luck.write.ReplyLost? then Handling(false, claimed, false)
      else if SendOf(r, luck).Sent? then Handling(true, claimed, true)
      else
        Handling(false, if luck.release.Refused? then claimed else claimed - {o}, SendOf(r, luck).SentButRaised?)
  }

  function Handled(cfg: Config, now: int, store: Store, r: Reading, luck: Luck): Handling {
    if r.NoticeOf? then NotifiedBy(cfg, now, store, r, luck) else InsertedBy(store, r, luck)
  }

  // The handler of Notifications, case by case.
  lemma NotifiedTable(cfg: Config, now: int, store: Store, r: Reading, luck: Luck)
    requires cfg.kind.Notifications? && r.NoticeOf? && (r.order in store ==> store[r.order].Claim?)
    ensures var h, held := NotifiedBy(cfg, now, store, r, luck), r.order in store && now < store[r.order].expiresAt;
            var claimed := store[r.order := Claim(r.first, now + cfg.ttl)];
            && (held ==> h == Handling(luck.write.Fine? && luck.get.Fine?, store, false))
            && (luck.write.Refused? ==> h == Handling(false, store, false))
            && (!held && luck.write.ReplyLost? ==> h == Handling(false, claimed, false))
            && (!held && luck.write.Fine? && r.complete && luck.send.Sent? ==> h == Handling(true, claimed, true))
            && (!held && luck.write.Fine? && !(r.complete && luck.send.Sent?) ==>
                  h == Handling(false, if luck.release.Refused? then claimed else store - {r.order},
                                r.complete && luck.send.SentButRaised?))
  {
  }

  // What comes of one message.
  datatype Service = Service(outcome: Outcome, store: Store, mailed: bool)

  function Serve(cfg: Config, now: int, store: Store, content: Content, luck: Luck): Service {
    if content.Unparsable? then Service(Poisoned, store, false)
    else if content.Unusable? then Service(HandlerRaised, store, false)
    else
      var h := Handled(cfg, now, store, content.reading, luck);
      Service(if !h.clean then HandlerRaised else if luck.delete.Fine? then Done else DeleteRaised, h.store, h.mailed)
  }

  // Every call the handler and the delete make is answered, and nothing the
  // handler needs is missing.
  predicate AllFine(r: Reading, luck: Luck) {
    luck.write.Fine? && luck.get.Fine? && luck.send.Sent? && luck.delete.Fine? && (r.NoticeOf? ==> r.complete)
  }

  datatype Message = Message(delivery: Delivery, body: Text)

  function MailOf(content: Content, d: Delivery, now: int, mailed: bool): seq<Email> {
    if mailed && content.Readable? then [Email(KeyOf(content.reading), d, now)] else []
  }

  datatype Served = Served(outcomes: seq<Outcome>, store: Store, now: int, mail: seq<Email>)

  // The loop over a batch, in order, as time passes.
  function ServeAll(cfg: Config, now: int, store: Store, mail: seq<Email>, batch: seq<Message>, lucks: seq<Luck>)
    : Served
    requires |batch| <= |lucks|
    decreases |batch|
  {
    if batch == [] then Served([], store, now, mail)
    else
      var last := |batch| - 1;
      var before := ServeAll(cfg, now, store, mail, batch[..last], lucks);
      ServedOneMore(cfg, before, batch[last], lucks[last])
  }

  function ServedOneMore(cfg: Config, before: Served, m: Message, luck: Luck): Served {
    var content, at := Classify(cfg.kind, m.body), before.now + luck.wait;
    var service := Serve(cfg, at, before.store, content, luck);
    Served(before.outcomes + [service.outcome], service.store, at,
           before.mail + MailOf(content, m.delivery, at, service.mailed))
  }

  // A delete whose reply was lost has removed the message all the same.
  predicate Removed(outcome: Outcome, luck: Luck) {
    outcome.Done? || (outcome.DeleteRaised? && luck.delete.ReplyLost?)
  }

  // Whether the batch's message for copy c, if any, was removed.
  predicate RemovedFrom(batch: seq<Message>, outcomes: seq<Outcome>, lucks: seq<Luck>, c: CopyId)
    requires |outcomes| <= |batch| && |outcomes| <= |lucks|
  {
    exists i :: 0 <= i < |outcomes| && batch[i].delivery.copy == c && Removed(outcomes[i], lucks[i])
  }

  // What a receive does to a message it touches.
  function Received(cfg: Config, copy: Copy): Copy {
    if copy.receives >= cfg.maxReceive then copy.(place := DeadLettered)
    else copy.(place := InFlight, receives := copy.receives + 1)
  }

  // Exactly the messages of `touched` have been received.
  ghost predicate ReceivedOnly(cfg: Config, before: map<CopyId, Copy>, after: map<CopyId, Copy>, touched: seq<CopyId>) {
    && after.Keys == before.Keys
    && forall c :: c in before ==> after[c] == if c in touched then Received(cfg, before[c]) else before[c]
  }

  lemma OneMoreReceived(cfg: Config, before: map<CopyId, Copy>, after: map<CopyId, Copy>, touched: seq<CopyId>,
                        c: CopyId)
    requires ReceivedOnly(cfg, before, after, touched) && c in before && c !in touched
    ensures ReceivedOnly(cfg, before, after[c := Received(cfg, after[c])], touched + [c])
  {
  }

  // The messages a receive returns.
  function Deliverable(cfg: Config, queue: map<CopyId, Copy>, offered: seq<CopyId>): seq<Message>
    requires forall i :: 0 <= i < |offered| ==> offered[i] in queue
    decreases |offered|
  {
    if offered == [] then []
    else
      var last := |offered| - 1;
      var copy := queue[offered[last]];
      Deliverable(cfg, queue, offered[..last])
        + if copy.receives >= cfg.maxReceive then []
          else [Message(Delivery(offered[last], copy.receives + 1), copy.body)]
  }

  lemma OneMoreDeliverable(cfg: Config, queue: map<CopyId, Copy>, taken: seq<CopyId>, c: CopyId)
    requires c in queue && forall i :: 0 <= i < |taken| ==> taken[i] in queue
    ensures Deliverable(cfg, queue, taken + [c]) ==
              Deliverable(cfg, queue, taken)
                + if queue[c].receives >= cfg.maxReceive then []
                  else [Message(Delivery(c, queue[c].receives + 1), queue[c].body)]
  {
    assert (taken + [c])[..|taken|] == taken;
  }

  predicate FromOffer(cfg: Config, queue: map<CopyId, Copy>, offered: seq<CopyId>, m: Message) {
    var c := m.delivery.copy;
    && c in offered && c in queue && queue[c].receives < cfg.maxReceive
    && m == Message(Delivery(c, queue[c].receives + 1), queue[c].body)
  }

  predicate DistinctCopies(batch: seq<Message>) {
    forall i, j :: 0 <= i < j < |batch| ==> batch[i].delivery.copy != batch[j].delivery.copy
  }

  lemma {:induction false} DeliverableFacts(cfg: Config, queue: map<CopyId, Copy>, offered: seq<CopyId>)
    requires forall i :: 0 <= i < |offered| ==> offered[i] in queue
    requires forall i, j :: 0 <= i < j < |offered| ==> offered[i] != offered[j]
    ensures forall m :: m in Deliverable(cfg, queue, offered) <==> FromOffer(cfg, queue, offered, m)
    ensures DistinctCopies(Deliverable(cfg, queue, offered))
    decreases |offered|
  {
    if offered != [] {
      var last := |offered| - 1;
      var earlier, batch := Deliverable(cfg, queue, offered[..last]), Deliverable(cfg, queue, offered);
      DeliverableFacts(cfg, queue, offered[..last]);
      forall m | m in earlier ensures FromOffer(cfg, queue, offered, m) && m.delivery.copy != offered[last] {
        assert FromOffer(cfg, queue, offered[..last], m);
      }
      forall m | FromOffer(cfg, queue, offered, m) && m.delivery.copy != offered[last] ensures m in earlier {
        assert FromOffer(cfg, queue, offered[..last], m);
      }
      var copy := queue[offered[last]];
      if copy.receives < cfg.maxReceive {
        assert batch == earlier + [Message(Delivery(offered[last], copy.receives + 1), copy.body)];
        assert forall i :: 0 <= i < |earlier| ==> earlier[i] in earlier;
      } else {
        assert batch == earlier;
      }
    }
  }

  lemma ReadingKind(kind: Kind, body: Text)
    requires Classify(kind, body).Readable?
    ensures Classify(kind, body).reading.NoticeOf? <==> kind.Notifications?
  {
  }

  // The batch is in hand, the handler called for none of it yet.
  ghost predicate FreshIn(hands: map<Delivery, Phase>, batch: seq<Message>) {
    forall i :: 0 <= i < |batch| ==> batch[i].delivery in hands && hands[batch[i].delivery].Fresh?
  }

  lemma OneMoreFresh(hands: map<Delivery, Phase>, batch: seq<Message>, m: Message, at: int)
    requires FreshIn(hands, batch)
    ensures FreshIn(hands[m.delivery := Fresh(at)], batch) && FreshIn(hands[m.delivery := Fresh(at)], batch + [m])
  {
  }

  // What nobody but SNS decides about a copy, and how often it was received.
  predicate Kept(a: Copy, b: Copy) {
    b.body == a.body && b.content == a.content && b.sentAt == a.sentAt && b.receives == a.receives
  }

  function Waits(lucks: seq<Luck>): nat {
    if lucks == [] then 0 else Waits(lucks[..|lucks| - 1]) + lucks[|lucks| - 1].wait
  }

  // ---- the process ---------------------------------------------------------

  class Worker {
    const cfg: Config
    var now: int
    var queue: map<CopyId, Copy>
    var store: Store
    var mail: seq<Email>

    // The protocol: what the worker found on starting, the steps taken since
    // and the state they led to.
    ghost const past: seq<Step>
    ghost var trace: seq<Step>
    ghost var proto: Site

    ghost predicate Traced()
      reads this
    {
      && Run(cfg, EMPTY, past) && Run(cfg, After(cfg, EMPTY, past), trace)
      && After(cfg, After(cfg, EMPTY, past), trace) == proto
    }

    ghost predicate Valid()
      reads this
    {
      Traced() && proto.now == now && proto.copies == queue && proto.store == store && proto.emails == mail
    }

    constructor (cfg: Config, ghost past: seq<Step>, now: int, queue: map<CopyId, Copy>, store: Store, mail: seq<Email>)
      requires Run(cfg, EMPTY, past)
      requires var s := After(cfg, EMPTY, past);
               s.now == now && s.copies == queue && s.store == store && s.emails == mail
      ensures Valid() && this.cfg == cfg && this.past == past && trace == [] && proto == After(cfg, EMPTY, past)
    {
      this.cfg, this.now, this.queue, this.store, this.mail := cfg, now, queue, store, mail;
      this.past, this.trace, this.proto := past, [], After(cfg, EMPTY, past);
    }

    ghost method Take(step: Step)
      requires Traced() && Enabled(cfg, proto, step)
      modifies `trace, `proto
      ensures Traced() && trace == old(trace) + [step] && proto == Apply(cfg, old(proto), step)
    {
      RunOne(cfg, proto, step);
      RunJoin(cfg, After(cfg, EMPTY, past), trace, [step]);
      trace, proto := trace + [step], Apply(cfg, proto, step);
    }

    // What holds in every run holds here.
    lemma Sound()
      requires Traced()
      ensures QueueOk(cfg, proto)
    {
      QueueAlways(cfg, EMPTY, past);
      QueueAlways(cfg, After(cfg, EMPTY, past), trace);
    }

    // Delivery d is fresh in this worker's hands.
    ghost predicate Holds(d: Delivery)
      reads this
    {
      d in proto.hands && proto.hands[d].Fresh? && d.copy in queue
    }

    // A message of the batch, its copy still hidden.
    ghost predicate InHand(m: Message)
      reads this
    {
      Holds(m.delivery) && queue[m.delivery.copy].body == m.body && queue[m.delivery.copy].place.InFlight?
    }

    // Only copy c may have changed, and only in place and in what was handled.
    twostate predicate OnlyCopy(c: CopyId)
      reads this
    {
      && queue.Keys == old(queue).Keys
      && (c in queue ==> Kept(old(queue)[c], queue[c]))
      && (forall x :: x in queue && x != c ==> queue[x] == old(queue)[x])
    }

    // The deliveries of other copies stay as they were.
    twostate predicate OnlyHand(d: Delivery)
      reads this
    {
      forall e :: e != d && e in old(proto).hands ==> e in proto.hands && proto.hands[e] == old(proto).hands[e]
    }

    // The handler of d returned, and the delete is to come.
    ghost predicate Handed(d: Delivery, o: Key)
      reads this
    {
      d in proto.hands && proto.hands[d] == Clean(o)
    }

    // One more message of the offer, after `taken`.
    method TakeOne(c: CopyId, batch: seq<Message>, ghost before: map<CopyId, Copy>, ghost taken: seq<CopyId>)
      returns (batch': seq<Message>)
      requires Valid() && c in before && before[c].place.Visible? && now < before[c].sentAt + cfg.retention
      requires c !in taken && ReceivedOnly(cfg, before, queue, taken)
      requires forall i :: 0 <= i < |taken| ==> taken[i] in before
      requires batch == Deliverable(cfg, before, taken) && FreshIn(proto.hands, batch)
      modifies `queue, `trace, `proto
      ensures Valid() && ReceivedOnly(cfg, before, queue, taken + [c])
      ensures batch' == Deliverable(cfg, before, taken + [c]) && FreshIn(proto.hands, batch')
    {
      var copy := queue[c];
      assert copy == before[c];
      OneMoreReceived(cfg, before, queue, taken, c);
      OneMoreDeliverable(cfg, before, taken, c);
      var m := Message(Delivery(c, copy.receives + 1), copy.body);
      OneMoreFresh(proto.hands, batch, m, now);
      batch' := if copy.receives >= cfg.maxReceive then batch else batch + [m];
      Accept(c);
    }

    // SQS hands a visible message over, or moves it to the DLQ instead if it
    // has used up its deliveries.
    method Accept(c: CopyId)
      requires Valid() && c in queue && queue[c].place.Visible? && now < queue[c].sentAt + cfg.retention
      modifies `queue, `trace, `proto
      ensures Valid() && queue == old(queue)[c := Received(cfg, old(queue)[c])]
      ensures proto.hands == if old(queue)[c].receives >= cfg.maxReceive then old(proto).hands
                             else old(proto).hands[Delivery(c, queue[c].receives) := Fresh(now)]
    {
      if queue[c].receives >= cfg.maxReceive { Take(Redrive(c)); } else { Take(Consumers.Step.Receive(c)); }
      queue := queue[c := Received(cfg, queue[c])];
    }

    // _receive: SQS hands over some visible messages.
    method Receive(offered: seq<CopyId>) returns (batch: seq<Message>)
      requires Valid() && forall i, j :: 0 <= i < j < |offered| ==> offered[i] != offered[j]
      requires forall i :: 0 <= i < |offered| ==>
                 offered[i] in queue && queue[offered[i]].place.Visible? &&
                 now < queue[offered[i]].sentAt + cfg.retention
      modifies `queue, `trace, `proto
      ensures Valid() && ReceivedOnly(cfg, old(queue), queue, offered)
      ensures batch == Deliverable(cfg, old(queue), offered) && FreshIn(proto.hands, batch)
      // Which is to say: those with deliveries to spare are in the batch, once
      // each, hidden and counted; the others are dead-lettered.
      ensures DistinctCopies(batch)
      ensures forall m :: m in batch <==>
                var c := m.delivery.copy;
                && c in offered && old(queue)[c].receives < cfg.maxReceive
                && m == Message(Delivery(c, old(queue)[c].receives + 1), old(queue)[c].body)
      ensures queue.Keys == old(queue).Keys
      ensures forall c :: c in queue ==>
                var was := old(queue)[c];
                queue[c] == if c !in offered then was
                            else if was.receives >= cfg.maxReceive then was.(place := DeadLettered)
                            else was.(place := InFlight, receives := was.receives + 1)
    {
      DeliverableFacts(cfg, queue, offered);
      batch := [];
      var n := 0;
      while n < |offered|
        invariant 0 <= n <= |offered| && Valid()
        invariant ReceivedOnly(cfg, old(queue), queue, offered[..n])
        invariant batch == Deliverable(cfg, old(queue), offered[..n]) && FreshIn(proto.hands, batch)
      {
        assert offered[..n + 1] == offered[..n] + [offered[n]];
        batch := TakeOne(offered[n], batch, old(queue), offered[..n]);
        n := n + 1;
      }
      assert offered[..n] == offered;
    }

    // The handler raises, with nothing done.
    method Raise(d: Delivery)
      requires Valid() && Holds(d) && !queue[d.copy].content.Unparsable?
      modifies `queue, `trace, `proto
      ensures Valid() && OnlyCopy(d.copy) && OnlyHand(d) && queue[d.copy].place == old(queue)[d.copy].place
    {
      queue := queue[d.copy := Called(queue[d.copy], d.n)];
      Take(HandlerRaises(d));
    }

    // billing/service.py and shipping/service.py: INSERT ... ON CONFLICT DO
    // NOTHING, committed on the way out.
    method HandleInsert(d: Delivery, r: Reading, luck: Luck) returns (clean: bool)
      requires Valid() && !cfg.kind.Notifications? && Holds(d) && queue[d.copy].content == Readable(r) && !r.NoticeOf?
      modifies `queue, `store, `trace, `proto
      ensures Valid() && OnlyCopy(d.copy) && OnlyHand(d)
      // It raises when the database does, and never for a duplicate.
      ensures clean <==> luck.write.Fine?
      ensures luck.write.Refused? || UuidText(r.orderId) in old(store) ==> store == old(store)
      ensures !luck.write.Refused? && UuidText(r.orderId) !in old(store) ==>
                store == old(store)[UuidText(r.orderId) :=
                  if r.BillOf? then Bill(r.eventId, r.customer, r.amount)
                  else Shipment(r.eventId, r.customer, r.item, luck.tracking)]
      ensures Handling(clean, store, false) == Handled(cfg, now, old(store), r, luck)
      ensures queue[d.copy].place == old(queue)[d.copy].place && (clean ==> Handed(d, KeyOf(r)))
    {
      if luck.write.Refused? {
        Raise(d);
        return false;
      }
      InsertRow(d, r, luck.tracking, luck.write.ReplyLost?);
      return luck.write.Fine?;
    }

    method InsertRow(d: Delivery, r: Reading, tracking: int, replyLost: bool)
      requires Valid() && !cfg.kind.Notifications? && Holds(d) && queue[d.copy].content == Readable(r) && !r.NoticeOf?
      modifies `queue, `store, `trace, `proto
      ensures Valid() && OnlyCopy(d.copy) && OnlyHand(d) && queue[d.copy].place == old(queue)[d.copy].place
      ensures store == InsertOrIgnore(old(store), KeyOf(r), Project(r, tracking)) &&
              (!replyLost ==> Handed(d, KeyOf(r)))
    {
      queue := queue[d.copy := Called(queue[d.copy], d.n)];
      if KeyOf(r) !in store { store := store[KeyOf(r) := Project(r, tracking)]; }
      if replyLost { Take(InsertReplyLost(d, tracking)); } else { Take(Insert(d, tracking)); }
    }

    // SET NX EX, then send, then DEL if it raised.
    method ClaimSendRelease(d: Delivery, r: Reading, luck: Luck) returns (clean: bool)
      requires Valid() && cfg.kind.Notifications? && Holds(d) && queue[d.copy].content == Readable(r) && r.NoticeOf?
      modifies `queue, `store, `mail, `trace, `proto
      ensures Valid() && OnlyCopy(d.copy) && OnlyHand(d)
      ensures queue[d.copy].place == old(queue)[d.copy].place && (clean ==> Handed(d, KeyOf(r)))
      ensures var h := Handled(cfg, now, old(store), r, luck);
              clean == h.clean && store == h.store && mail == old(mail) + MailOf(Readable(r), d, now, h.mailed)
    {
      if luck.write.Refused? {
        Raise(d);
        return false;
      }
      Evict(KeyOf(r));
      if KeyOf(r) in store { clean := Recognise(d, r, luck); } else { clean := ClaimAndSend(d, r, luck); }
    }

    // notifications/service.py.
    method HandleNotify(d: Delivery, r: Reading, luck: Luck) returns (clean: bool)
      requires Valid() && cfg.kind.Notifications? && Holds(d) && queue[d.copy].content == Readable(r) && r.NoticeOf?
      modifies `queue, `store, `mail, `trace, `proto
      ensures Valid() && OnlyCopy(d.copy) && OnlyHand(d)
      ensures queue[d.copy].place == old(queue)[d.copy].place && (clean ==> Handed(d, KeyOf(r)))
      ensures var was := old(store);
              var held := r.order in was && was[r.order].Claim? && now < was[r.order].expiresAt;
              var claimed, email := was[r.order := Claim(r.first, now + cfg.ttl)], Email(r.order, d, now);
              // A duplicate is a no-op, and raises only if Redis does.
              && (held ==> store == was && mail == old(mail) && clean == (luck.write.Fine? && luck.get.Fine?))
              && (luck.write.Refused? ==> !clean && store == was && mail == old(mail))
              && (!held && luck.write.ReplyLost? ==> !clean && store == claimed && mail == old(mail))
              // The first is mailed once and claimed for a TTL.
              && (!held && luck.write.Fine? && r.complete && luck.send.Sent? ==>
                    clean && store == claimed && mail == old(mail) + [email])
              // If the send raised, the claim goes, unless that fails too.
              && (!held && luck.write.Fine? && !(r.complete && luck.send.Sent?) ==>
                    && !clean && store == (if luck.release.Refused? then claimed else was - {r.order})
                    && mail == old(mail) + if r.complete && luck.send.SentButRaised? then [email] else [])
      ensures var h := Handled(cfg, now, old(store), r, luck);
              clean == h.clean && store == h.store && mail == old(mail) + MailOf(Readable(r), d, now, h.mailed)
    {
      Sound();
      assert StoreOk(cfg, proto, r.order);
      NotifiedTable(cfg, now, store, r, luck);
      clean := ClaimSendRelease(d, r, luck);
    }

    // Redis holds no key for o past its expiry.
    method Evict(o: Key)
      requires Valid() && cfg.kind.Notifications?
      modifies `store, `trace, `proto
      ensures Valid() && proto.hands == old(proto).hands && store == Live(cfg, now, old(store), o)
      ensures o in store ==> store[o].Claim? && now < store[o].expiresAt
    {
      Sound();
      assert StoreOk(cfg, proto, o);
      if o in store && now >= store[o].expiresAt {
        Take(ExpireKey(o));
        store := store - {o};
      }
    }

    // SET NX found the key. The GET is for the log line.
    method Recognise(d: Delivery, r: Reading, luck: Luck) returns (clean: bool)
      requires Valid() && cfg.kind.Notifications? && Holds(d) && queue[d.copy].content == Readable(r) && r.NoticeOf?
      requires KeyOf(r) in store && store[KeyOf(r)].Claim? && now < store[KeyOf(r)].expiresAt
      modifies `queue, `trace, `proto
      ensures Valid() && OnlyCopy(d.copy) && OnlyHand(d) && clean == (luck.write.Fine? && luck.get.Fine?)
      ensures queue[d.copy].place == old(queue)[d.copy].place && (clean ==> Handed(d, KeyOf(r)))
    {
      clean := luck.write.Fine? && luck.get.Fine?;
      if !clean {
        Raise(d);
        return;
      }
      queue := queue[d.copy := Called(queue[d.copy], d.n)];
      Take(Duplicate(d));
    }

    // SET NX set the key: this call has the claim.
    method ClaimAndSend(d: Delivery, r: Reading, luck: Luck) returns (clean: bool)
      requires Valid() && cfg.kind.Notifications? && Holds(d) && queue[d.copy].content == Readable(r) && r.NoticeOf?
      requires KeyOf(r) !in store && !luck.write.Refused?
      modifies `queue, `store, `mail, `trace, `proto
      ensures Valid() && OnlyCopy(d.copy) && OnlyHand(d)
      ensures var claimed := old(store)[KeyOf(r) := Claim(r.first, now + cfg.ttl)];
              && clean == (luck.write.Fine? && SendOf(r, luck).Sent?)
              && store == if luck.write.ReplyLost? || clean || luck.release.Refused? then claimed
                          else claimed - {KeyOf(r)}
      ensures queue[d.copy].place == old(queue)[d.copy].place && (clean ==> Handed(d, KeyOf(r)))
      ensures mail == old(mail) +
              if luck.write.ReplyLost? || SendOf(r, luck).NotSent? then [] else [Email(KeyOf(r), d, now)]
    {
      if luck.write.ReplyLost? {
        SetTheKeyUnheard(d, r);
        return false;
      }
      SetTheKey(d, r);
      clean := SendUnderClaim(d, KeyOf(r), SendOf(r, luck), luck.release);
    }

    method SetTheKey(d: Delivery, r: Reading)
      requires Valid() && cfg.kind.Notifications? && Holds(d) && queue[d.copy].content == Readable(r) && r.NoticeOf?
      requires KeyOf(r) !in store
      modifies `queue, `store, `trace, `proto
      ensures Valid() && OnlyCopy(d.copy) && OnlyHand(d)
      ensures store == old(store)[KeyOf(r) := Claim(r.first, now + cfg.ttl)]
      ensures queue[d.copy] == Called(old(queue)[d.copy], d.n)
      ensures In(proto, d) && proto.hands[d] == Sending(KeyOf(r), now)
    {
      store := store[KeyOf(r) := Claim(r.first, now + cfg.ttl)];
      queue := queue[d.copy := Called(queue[d.copy], d.n)];
      Take(SetKey(d));
    }

    // Set, and the reply lost: the handler raises.
    method SetTheKeyUnheard(d: Delivery, r: Reading)
      requires Valid() && cfg.kind.Notifications? && Holds(d) && queue[d.copy].content == Readable(r) && r.NoticeOf?
      requires KeyOf(r) !in store
      modifies `queue, `store, `trace, `proto
      ensures Valid() && OnlyCopy(d.copy) && OnlyHand(d)
      ensures store == old(store)[KeyOf(r) := Claim(r.first, now + cfg.ttl)]
      ensures queue[d.copy] == Called(old(queue)[d.copy], d.n)
    {
      store := store[KeyOf(r) := Claim(r.first, now + cfg.ttl)];
      queue := queue[d.copy := Called(queue[d.copy], d.n)];
      Take(SetReplyLost(d));
    }

    // The guarded send of the handler that holds the key.
    method SendUnderClaim(d: Delivery, o: Key, send: SendResult, release: Reply) returns (clean: bool)
      requires Valid() && cfg.kind.Notifications? && In(proto, d) && proto.hands[d] == Sending(o, now)
      requires !send.NotSent? ==> CanSend(proto, d)
      modifies `store, `mail, `trace, `proto
      ensures Valid() && OnlyHand(d) && clean == send.Sent?
      ensures store == if clean || release.Refused? then old(store) else old(store) - {o}
      ensures mail == old(mail) + if send.NotSent? then [] else [Email(o, d, now)]
      ensures clean ==> Handed(d, o)
    {
      if send.Sent? {
        mail := mail + [Email(o, d, now)];
        Take(SendOk(d));
        return true;
      }
      FailToSend(d, o, send.SentButRaised?);
      ReleaseKey(d, o, !release.Refused?);
      return false;
    }

    // The send raises, whether or not the email went out.
    method FailToSend(d: Delivery, o: Key, out: bool)
      requires Valid() && cfg.kind.Notifications? && In(proto, d) && proto.hands[d] == Sending(o, now)
      requires out ==> CanSend(proto, d)
      modifies `mail, `trace, `proto
      ensures Valid() && OnlyHand(d) && In(proto, d) && proto.hands[d] == Releasing(o)
      ensures mail == old(mail) + if out then [Email(o, d, now)] else []
    {
      if out { mail := mail + [Email(o, d, now)]; }
      Take(SendRaises(d, out));
    }

    method ReleaseKey(d: Delivery, o: Key, applied: bool)
      requires Valid() && cfg.kind.Notifications? && In(proto, d) && proto.hands[d] == Releasing(o)
      modifies `store, `trace, `proto
      ensures Valid() && OnlyHand(d) && store == if applied then old(store) - {o} else old(store)
    {
      Take(Release(d, applied));
      if applied { store := store - {o}; }
    }

    method Wait(seconds: nat)
      requires Valid()
      modifies `now, `trace, `proto
      ensures Valid() && now == old(now) + seconds && proto.hands == old(proto).hands
    {
      now := now + seconds;
      Take(Tick(seconds));
    }

    // _handle_one: parse, handle, and only then delete.
    method HandleOne(m: Message, luck: Luck) returns (outcome: Outcome)
      requires Valid() && InHand(m)
      modifies `now, `queue, `store, `mail, `trace, `proto
      ensures Valid() && OnlyCopy(m.delivery.copy) && OnlyHand(m.delivery) && now == old(now) + luck.wait
      ensures queue[m.delivery.copy].place == if Removed(outcome, luck) then Deleted else InFlight
      ensures var content := Classify(cfg.kind, m.body); var service := Serve(cfg, now, old(store), content, luck);
              && outcome == service.outcome && store == service.store
              && mail == old(mail) + MailOf(content, m.delivery, now, service.mailed)
              // What that means, case by case.
              && (content.Unparsable? ==> outcome == Poisoned && store == old(store) && mail == old(mail))
              && (content.Unusable? ==> outcome == HandlerRaised && store == old(store) && mail == old(mail))
              // A readable message is gone if every call is answered ...
              && (content.Readable? && AllFine(content.reading, luck) ==>
                    outcome == Done && queue[m.delivery.copy].place.Deleted?)
              // ... and a duplicate changes nothing.
              && (content.Readable? && !cfg.kind.Notifications? && KeyOf(content.reading) in old(store) ==>
                    store == old(store) && mail == old(mail))
    {
      Sound();
      assert CopyOk(cfg, proto, m.delivery.copy);
      Wait(luck.wait);
      var content := Classify(cfg.kind, m.body);
      if content.Readable? {
        outcome := HandleReadable(m.delivery, content.reading, luck);
      } else {
        PutDownUnread(m.delivery, content);
        return if content.Unparsable? then Poisoned else HandlerRaised;
      }
    }

    // A body that does not parse never reaches the handler; one the handler
    // cannot use does, and makes it raise.
    method PutDownUnread(d: Delivery, content: Content)
      requires Valid() && Holds(d) && queue[d.copy].content == content && !content.Readable?
      modifies `queue, `trace, `proto
      ensures Valid() && OnlyCopy(d.copy) && OnlyHand(d) && queue[d.copy].place == old(queue)[d.copy].place
    {
      if content.Unparsable? { Take(Drop(d)); } else { Raise(d); }
    }

    method HandleReadable(d: Delivery, r: Reading, luck: Luck) returns (outcome: Outcome)
      requires Valid() && Holds(d) && queue[d.copy].content == Readable(r) && queue[d.copy].place.InFlight?
      requires queue[d.copy].content == Classify(cfg.kind, queue[d.copy].body)
      modifies `queue, `store, `mail, `trace, `proto
      ensures Valid() && OnlyCopy(d.copy) && OnlyHand(d)
      ensures var service := Serve(cfg, now, old(store), Readable(r), luck);
              && outcome == service.outcome && store == service.store
              && mail == old(mail) + MailOf(Readable(r), d, now, service.mailed)
      ensures queue[d.copy].place == if Removed(outcome, luck) then Deleted else InFlight
    {
      ReadingKind(cfg.kind, queue[d.copy].body);
      var clean;
      if cfg.kind.Notifications? { clean := HandleNotify(d, r, luck); } else { clean := HandleInsert(d, r, luck); }
      if !clean { return HandlerRaised; }
      outcome := DeleteHandled(d, KeyOf(r), luck);
    }

    method DeleteHandled(d: Delivery, ghost o: Key, luck: Luck) returns (outcome: Outcome)
      requires Valid() && d.copy in queue && Handed(d, o) && queue[d.copy].place.InFlight?
      modifies `queue, `trace, `proto
      ensures Valid() && OnlyCopy(d.copy) && OnlyHand(d)
      ensures outcome == if luck.delete.Fine? then Done else DeleteRaised
      ensures queue[d.copy].place == if luck.delete.Refused? then InFlight else Deleted
    {
      Take(Delete(d, !luck.delete.Refused?));
      if !luck.delete.Refused? { queue := queue[d.copy := queue[d.copy].(place := Deleted)]; }
      return if luck.delete.Fine? then Done else DeleteRaised;
    }

    // What the loop has to show for the messages so far.
    function SoFar(outcomes: seq<Outcome>): Served
      reads this
    {
      Served(outcomes, store, now, mail)
    }

    // Everything gone from the queue by a consumer's hand has been recorded.
    ghost predicate AllRecorded()
      reads this
    {
      forall c :: c in queue && queue[c].place.Deleted? ==>
        queue[c].content.Readable? && Recorded(cfg, proto, KeyOf(queue[c].content.reading))
    }

    lemma DeletedAreRecorded()
      requires Valid()
      ensures AllRecorded()
    {
      Sound();
      forall c | c in queue && queue[c].place.Deleted?
        ensures queue[c].content.Readable? && Recorded(cfg, proto, KeyOf(queue[c].content.reading)) {
        assert CopyOk(cfg, proto, c);
      }
    }

    method ServeOne(m: Message, luck: Luck, ghost outcomes: seq<Outcome>) returns (outcome: Outcome)
      requires Valid() && InHand(m)
      modifies `now, `queue, `store, `mail, `trace, `proto
      ensures Valid() && OnlyCopy(m.delivery.copy) && OnlyHand(m.delivery) && now == old(now) + luck.wait
      ensures queue[m.delivery.copy].place == if Removed(outcome, luck) then Deleted else InFlight
      ensures SoFar(outcomes + [outcome]) == ServedOneMore(cfg, old(SoFar(outcomes)), m, luck)
    {
      outcome := HandleOne(m, luck);
    }

    // One turn of that loop; the rest of the batch stays in hand.
    method ServeNext(batch: seq<Message>, i: nat, luck: Luck, ghost outcomes: seq<Outcome>) returns (outcome: Outcome)
      requires Valid() && DistinctCopies(batch) && i < |batch| && forall k :: i <= k < |batch| ==> InHand(batch[k])
      modifies `now, `queue, `store, `mail, `trace, `proto
      ensures Valid() && OnlyCopy(batch[i].delivery.copy) && now == old(now) + luck.wait
      ensures SoFar(outcomes + [outcome]) == ServedOneMore(cfg, old(SoFar(outcomes)), batch[i], luck)
      ensures batch[i].delivery.copy in queue
      ensures queue[batch[i].delivery.copy].place == if Removed(outcome, luck) then Deleted else InFlight
      ensures forall k :: i < k < |batch| ==> InHand(batch[k])
    {
      outcome := ServeOne(batch[i], luck, outcomes);
      forall k | i < k < |batch| ensures InHand(batch[k]) {
        assert batch[k].delivery.copy != batch[i].delivery.copy;
        assert old(InHand(batch[k]));
      }
    }

    // ... and the queue, the store and the clock are one message further.
    method Advance(batch: seq<Message>, lucks: seq<Luck>, outcomes: seq<Outcome>,
                   ghost queue0: map<CopyId, Copy>, ghost store0: Store, ghost now0: int, ghost mail0: seq<Email>)
      returns (outcome: Outcome)
      requires Valid() && DistinctCopies(batch) && |outcomes| < |batch| == |lucks|
      requires forall k :: |outcomes| <= k < |batch| ==> InHand(batch[k])
      requires SoFar(outcomes) == ServeAll(cfg, now0, store0, mail0, batch[..|outcomes|], lucks)
      requires KeptAll(queue0, queue) && Places(queue0, queue, batch, outcomes, lucks)
      modifies `now, `queue, `store, `mail, `trace, `proto
      ensures Valid() && forall k :: |outcomes| < k < |batch| ==> InHand(batch[k])
      ensures SoFar(outcomes + [outcome]) == ServeAll(cfg, now0, store0, mail0, batch[..|outcomes| + 1], lucks)
      ensures KeptAll(queue0, queue) && Places(queue0, queue, batch, outcomes + [outcome], lucks)
    {
      var i := |outcomes|;
      ghost var places, before := queue, SoFar(outcomes);
      outcome := ServeNext(batch, i, lucks[i], outcomes);
      OneMoreServed(cfg, now0, store0, mail0, batch, lucks, i, before);
      OneMorePlace(queue0, places, queue, batch, outcomes, outcome, lucks);
    }

    // The for loop of run: every message of the batch up to the shutdown, each
    // failure contained. What is gone from the queue afterwards is exactly the
    // messages before the stop that were handled cleanly and whose delete went
    // through, each with its effect or claim recorded; every other message of
    // the queue, of this batch or not, is where it was.
    method ServeBatch(batch: seq<Message>, lucks: seq<Luck>, stop: nat) returns (outcomes: seq<Outcome>)
      requires Valid() && |lucks| == |batch| && stop <= |batch| && DistinctCopies(batch)
      requires forall i :: 0 <= i < |batch| ==> InHand(batch[i])
      modifies `now, `queue, `store, `mail, `trace, `proto
      ensures Valid() && SoFar(outcomes) == ServeAll(cfg, old(now), old(store), old(mail), batch[..stop], lucks)
      ensures |outcomes| == stop && KeptAll(old(queue), queue)
      ensures Places(old(queue), queue, batch, outcomes, lucks) && AllRecorded()
    {
      outcomes := [];
      while |outcomes| < stop
        invariant |outcomes| <= stop && Valid()
        invariant SoFar(outcomes) == ServeAll(cfg, old(now), old(store), old(mail), batch[..|outcomes|], lucks)
        invariant forall k :: |outcomes| <= k < |batch| ==> InHand(batch[k])
        invariant KeptAll(old(queue), queue) && Places(old(queue), queue, batch, outcomes, lucks)
      {
        var outcome := Advance(batch, lucks, outcomes, old(queue), old(store), old(now), old(mail));
        outcomes := outcomes + [outcome];
      }
      DeletedAreRecorded();
    }

    // One turn of the while loop in run: a poll, then the batch, stopping
    // after `stop` messages if a shutdown arrives.
    method PollOnce(offered: seq<CopyId>, lucks: seq<Luck>, stop: nat) returns (outcomes: seq<Outcome>)
      requires Valid() && forall i, j :: 0 <= i < j < |offered| ==> offered[i] != offered[j]
      requires forall i :: 0 <= i < |offered| ==>
                 offered[i] in queue && queue[offered[i]].place.Visible? &&
                 now < queue[offered[i]].sentAt + cfg.retention
      requires |lucks| == |Deliverable(cfg, queue, offered)| && stop <= |lucks|
      modifies `now, `queue, `store, `mail, `trace, `proto
      ensures Valid() && queue.Keys == old(queue).Keys && |outcomes| == stop
      ensures var batch := Deliverable(cfg, old(queue), offered);
              && SoFar(outcomes) == ServeAll(cfg, old(now), old(store), old(mail), batch[..stop], lucks)
              && forall c :: c in queue ==>
                   var was := if c in offered then Received(cfg, old(queue)[c]) else old(queue)[c];
                   && Kept(was, queue[c])
                   && queue[c].place == if RemovedFrom(batch, outcomes, lucks, c) then Deleted else was.place
    {
      DeliverableFacts(cfg, queue, offered);
      var batch := Receive(offered);
      forall i | 0 <= i < |batch| ensures InHand(batch[i]) {
        assert FromOffer(cfg, old(queue), offered, batch[i]);
      }
      outcomes := ServeBatch(batch, lucks, stop);
    }

    // The visibility timeout runs out: environment, not worker.
    method Reappear(c: CopyId)
      requires Valid() && c in queue && queue[c].place.InFlight?
      modifies `queue, `trace, `proto
      ensures Valid() && queue == old(queue)[c := old(queue)[c].(place := Visible)]
    {
      Take(Timeout(c));
      queue := queue[c := queue[c].(place := Visible)];
    }

    // One poll that is offered an unparsable message alone: it comes back as
    // it was, one delivery older, or is dead-lettered.
    method PollPoison(c: CopyId, luck: Luck)
      requires Valid() && c in queue && queue[c].place.Visible? && Poison(queue[c].body)
      requires now < queue[c].sentAt + cfg.retention
      modifies `now, `queue, `store, `mail, `trace, `proto
      ensures Valid() && queue.Keys == old(queue).Keys && store == old(store) && mail == old(mail)
      ensures var was := old(queue)[c];
              && Kept(Received(cfg, was), queue[c]) && queue[c].place == Received(cfg, was).place
              && now == old(now) + if was.receives >= cfg.maxReceive then 0 else luck.wait
      ensures forall x :: x in queue && x != c ==>
              Kept(old(queue)[x], queue[x]) && queue[x].place == old(queue)[x].place
    {
      ghost var batch := Deliverable(cfg, queue, [c]);
      assert [c][..0] == [];
      assert Deliverable(cfg, queue, []) == [];
      if queue[c].receives >= cfg.maxReceive {
        var none := PollOnce([c], [], 0);
      } else {
        var one := PollOnce([c], [luck], 1);
        assert batch[..1] == batch && batch[..0] == [] && [luck][..0] == [];
        assert SoFar(one) == ServeAll(cfg, old(now), old(store), old(mail), batch, [luck]);
        assert ServeAll(cfg, old(now), old(store), old(mail), batch[..0], [luck]) == old(SoFar([]));
      }
    }

    // An unparsable message that is offered once more than it can be
    // delivered, before it ages out, is in its own DLQ afterwards, unchanged,
    // never handled, and with nothing recorded for it.
    method Quarantine(c: CopyId, lucks: seq<Luck>)
      requires Valid() && c in queue && queue[c].place.Visible? && queue[c].receives == 0 && Poison(queue[c].body)
      requires |lucks| == cfg.maxReceive + 1 && now + Waits(lucks) < queue[c].sentAt + cfg.retention
      modifies `now, `queue, `store, `mail, `trace, `proto
      ensures Valid() && queue.Keys == old(queue).Keys && store == old(store) && mail == old(mail)
      ensures queue[c] == old(queue)[c].(place := DeadLettered, receives := cfg.maxReceive)
      ensures forall x :: x in queue && x != c ==>
              Kept(old(queue)[x], queue[x]) && queue[x].place == old(queue)[x].place
    {
      Sound();
      assert CopyOk(cfg, proto, c);
      var i := 0;
      while i < cfg.maxReceive
        invariant 0 <= i <= cfg.maxReceive && Valid() && queue.Keys == old(queue).Keys
        invariant store == old(store) && mail == old(mail)
        invariant Kept(old(queue)[c].(receives := i), queue[c])
        invariant queue[c].place.Visible? && queue[c].receives == i && now == old(now) + Waits(lucks[..i])
        invariant forall x :: x in queue && x != c ==>
                  Kept(old(queue)[x], queue[x]) && queue[x].place == old(queue)[x].place
      {
        WaitsGrow(lucks, i);
        PollPoison(c, lucks[i]);
        Reappear(c);
        i := i + 1;
      }
      WaitsGrow(lucks, i);
      PollPoison(c, lucks[i]);
      Sound();
      assert CopyOk(cfg, proto, c);
    }
  }

  lemma {:induction false} WaitsTake(lucks: seq<Luck>, i: nat)
    requires i <= |lucks|
    ensures Waits(lucks[..i]) <= Waits(lucks)
    decreases |lucks| - i
  {
    if i == |lucks| {
      assert lucks[..i] == lucks;
    } else {
      WaitsTake(lucks, i + 1);
      assert lucks[..i + 1][..i] == lucks[..i];
    }
  }

  lemma WaitsGrow(lucks: seq<Luck>, i: nat)
    requires i < |lucks|
    ensures Waits(lucks[..i + 1]) == Waits(lucks[..i]) + lucks[i].wait && Waits(lucks[..i]) <= Waits(lucks)
  {
    assert lucks[..i + 1][..i] == lucks[..i];
    WaitsTake(lucks, i);
  }

  lemma OneMoreServed(cfg: Config, now: int, store: Store, mail: seq<Email>, batch: seq<Message>, lucks: seq<Luck>,
                      i: nat, before: Served)
    requires |batch| == |lucks| && i < |batch| && before == ServeAll(cfg, now, store, mail, batch[..i], lucks)
    ensures ServeAll(cfg, now, store, mail, batch[..i + 1], lucks) == ServedOneMore(cfg, before, batch[i], lucks[i])
  {
    assert batch[..i + 1][..i] == batch[..i];
  }

  // A batch of readable messages, every call answered.
  ghost predicate AllWell(cfg: Config, batch: seq<Message>, lucks: seq<Luck>) {
    && |batch| <= |lucks|
    && forall i :: 0 <= i < |batch| ==>
         var content := Classify(cfg.kind, batch[i].body); content.Readable? && AllFine(content.reading, lucks[i])
  }

  // On a good day every message of a batch is done with, first or duplicate.
  lemma {:induction false} GoodDay(cfg: Config, now: int, store: Store, mail: seq<Email>, batch: seq<Message>,
                                   lucks: seq<Luck>)
    requires AllWell(cfg, batch, lucks)
    ensures var served := ServeAll(cfg, now, store, mail, batch, lucks);
            |served.outcomes| == |batch| && forall i :: 0 <= i < |batch| ==> served.outcomes[i] == Done
    decreases |batch|
  {
    if batch != [] { GoodDay(cfg, now, store, mail, batch[..|batch| - 1], lucks); }
  }

  lemma IsDelivered(cfg: Config, queue: map<CopyId, Copy>, offered: seq<CopyId>, c: CopyId)
    requires forall i :: 0 <= i < |offered| ==> offered[i] in queue
    requires forall i, j :: 0 <= i < j < |offered| ==> offered[i] != offered[j]
    requires c in offered && queue[c].receives < cfg.maxReceive
    ensures Message(Delivery(c, queue[c].receives + 1), queue[c].body) in Deliverable(cfg, queue, offered)
  {
    DeliverableFacts(cfg, queue, offered);
    assert FromOffer(cfg, queue, offered, Message(Delivery(c, queue[c].receives + 1), queue[c].body));
  }

  // ... so a poll that is offered it leaves none of them on the queue.
  lemma GoodPoll(cfg: Config, now: int, store: Store, mail: seq<Email>, queue: map<CopyId, Copy>,
                 offered: seq<CopyId>, lucks: seq<Luck>, c: CopyId)
    requires forall i :: 0 <= i < |offered| ==> offered[i] in queue
    requires forall i, j :: 0 <= i < j < |offered| ==> offered[i] != offered[j]
    requires AllWell(cfg, Deliverable(cfg, queue, offered), lucks)
    requires c in offered && queue[c].receives < cfg.maxReceive
    ensures var batch := Deliverable(cfg, queue, offered);
            var outcomes := ServeAll(cfg, now, store, mail, batch, lucks).outcomes;
            |outcomes| == |batch| && RemovedFrom(batch, outcomes, lucks, c)
  {
    var batch := Deliverable(cfg, queue, offered);
    IsDelivered(cfg, queue, offered, c);
    GoodDay(cfg, now, store, mail, batch, lucks);
    DoneIsRemoved(batch, ServeAll(cfg, now, store, mail, batch, lucks).outcomes, lucks,
                  Message(Delivery(c, queue[c].receives + 1), queue[c].body));
  }

  lemma DoneIsRemoved(batch: seq<Message>, outcomes: seq<Outcome>, lucks: seq<Luck>, m: Message)
    requires |outcomes| == |batch| <= |lucks| && m in batch
    requires forall i :: 0 <= i < |outcomes| ==> outcomes[i] == Done
    ensures RemovedFrom(batch, outcomes, lucks, m.delivery.copy)
  {
    var i :| 0 <= i < |batch| && batch[i] == m;
    assert Removed(outcomes[i], lucks[i]);
  }

  predicate KeptAll(a: map<CopyId, Copy>, b: map<CopyId, Copy>) {
    a.Keys == b.Keys && forall c :: c in a ==> Kept(a[c], b[c])
  }

  // Where the messages of the queue are after part of a batch.
  ghost predicate Places(before: map<CopyId, Copy>, now: map<CopyId, Copy>, batch: seq<Message>,
                         outcomes: seq<Outcome>, lucks: seq<Luck>)
    requires |outcomes| <= |batch| && |outcomes| <= |lucks| && before.Keys == now.Keys
  {
    forall c :: c in now ==>
      now[c].place == if RemovedFrom(batch, outcomes, lucks, c) then Deleted else before[c].place
  }

  lemma OneMorePlace(before: map<CopyId, Copy>, mid: map<CopyId, Copy>, now: map<CopyId, Copy>, batch: seq<Message>,
                     outcomes: seq<Outcome>, outcome: Outcome, lucks: seq<Luck>)
    requires |outcomes| < |batch| && |outcomes| < |lucks| && before.Keys == mid.Keys == now.Keys
    requires Places(before, mid, batch, outcomes, lucks)
    requires var c := batch[|outcomes|].delivery.copy;
             && c in mid && mid[c].place.InFlight?
             && now[c].place == (if Removed(outcome, lucks[|outcomes|]) then Deleted else InFlight)
             && forall x :: x in now && x != c ==> now[x] == mid[x]
    ensures Places(before, now, batch, outcomes + [outcome], lucks)
  {
    forall c | c in now
      ensures now[c].place == if RemovedFrom(batch, outcomes + [outcome], lucks, c) then Deleted else before[c].place {
      OneMoreRemoved(batch, outcomes, outcome, lucks, c);
    }
  }

  lemma OneMoreRemoved(batch: seq<Message>, outcomes: seq<Outcome>, outcome: Outcome, lucks: seq<Luck>, c: CopyId)
    requires |outcomes| < |batch| && |outcomes| < |lucks|
    ensures RemovedFrom(batch, outcomes + [outcome], lucks, c) <==>
              RemovedFrom(batch, outcomes, lucks, c) ||
              (batch[|outcomes|].delivery.copy == c && Removed(outcome, lucks[|outcomes|]))
  {
    var more := outcomes + [outcome];
    if RemovedFrom(batch, outcomes, lucks, c) {
      var i :| 0 <= i < |outcomes| && batch[i].delivery.copy == c && Removed(outcomes[i], lucks[i]);
      assert more[i] == outcomes[i];
    }
    if batch[|outcomes|].delivery.copy == c && Removed(outcome, lucks[|outcomes|]) {
      assert more[|outcomes|] == outcome;
    }
  }
}
