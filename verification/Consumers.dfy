// One consumer's half of the system, one atomic step at a time: its SQS queue
// with redrive, any number of worker processes running the receive, handle,
// delete loop, and its dedup store.
//
// Billing and Shipping insert a row that is both marker and effect. The
// Notifications handler claims a Redis key, sends, and releases the key if
// the send raised: three steps with gaps a process can die in.
module Consumers {
  import opened Base
  import opened Messages

  // maxReceive is SQS_MAX_RECEIVE_COUNT, ttl NOTIFY_DEDUP_TTL_SECONDS and
  // retention SQS_MESSAGE_RETENTION_SECONDS.
  datatype Config = Config(kind: Kind, maxReceive: nat, ttl: nat, retention: nat) {
    predicate Valid() { maxReceive >= 1 && ttl >= 1 }
  }

  type CopyId = int

  // The printed order id, which each store is keyed by.
  type Key = Text

  // Where a message is: waiting (or on its way from SNS), hidden by a
  // visibility timeout, deleted by a consumer, in the queue's own DLQ, or
  // dropped by SQS at the end of its retention.
  datatype Place = Visible | InFlight | Deleted | DeadLettered | Expired

  // `content` is what the handler reads of the body, on every delivery alike;
  // `handled` has the number of a delivery once for each call of the handler.
  datatype Copy = Copy(body: Text, content: Content, sentAt: int, place: Place, receives: nat, handled: multiset<nat>)

  // The n-th delivery of a copy; each is in the hands of one worker.
  datatype Delivery = Delivery(copy: CopyId, n: nat)

  datatype Phase =
    | Fresh(at: int)                 // received at `at`, handler not yet called
    | Sending(order: Key, at: int)   // key set at `at`, nothing sent yet
    | Releasing(order: Key)          // the send raised, key not yet released
    | Clean(order: Key)              // handler returned, delete to come

  datatype Effect =
    | Bill(eventId: EventId, customer: Text, amount: int)
    | Shipment(eventId: EventId, customer: Text, item: Text, tracking: int)
    | Claim(first: Json, expiresAt: int)

  datatype Email = Email(order: Key, delivery: Delivery, at: int)

  // Per order, what the Notifications consumer did and suffered.
  datatype Account = Account(
    claims: nat,          // SETs that told the handler it had the key
    emails: nat,          // sends that went out
    ambiguous: nat,       // those of them that raised all the same
    unsent: nat,          // sends that raised without going out
    expiries: nat,        // keys that expired
    releases: nat,        // keys removed by a release
    gapCrashes: nat,      // deaths between claim and send
    failedReleases: nat,  // releases that failed or never ran
    lostReplies: nat)     // SETs applied whose reply was lost

  const NOTHING: Account := Account(0, 0, 0, 0, 0, 0, 0, 0, 0)

  datatype Site = Site(
    now: int,
    copies: map<CopyId, Copy>,
    hands: map<Delivery, Phase>,
    store: map<Key, Effect>,
    accounts: map<Key, Account>,
    emails: seq<Email>)

  const EMPTY: Site := Site(0, map[], map[], map[], map[], [])

  datatype Step =
    | Arrive(c: CopyId, body: Text)
    | Tick(seconds: nat)
    | Receive(c: CopyId)
    | Redrive(c: CopyId)
    | Timeout(c: CopyId)
    | Age(c: CopyId)
    | Drop(d: Delivery)
    | HandlerRaises(d: Delivery)
    | Insert(d: Delivery, tracking: int)
    | InsertReplyLost(d: Delivery, tracking: int)
    | SetKey(d: Delivery)
    | SetReplyLost(d: Delivery)
    | Duplicate(d: Delivery)
    | ExpireKey(order: Key)
    | SendOk(d: Delivery)
    | SendRaises(d: Delivery, out: bool)
    | Release(d: Delivery, applied: bool)
    | Delete(d: Delivery, gone: bool)

  function AccountOf(s: Site, o: Key): Account { if o in s.accounts then s.accounts[o] else NOTHING }

  predicate In(s: Site, d: Delivery) { d in s.hands && d.copy in s.copies }

  // The delivery is fresh and the handler can work with its body.
  predicate Ready(s: Site, d: Delivery) { In(s, d) && s.hands[d].Fresh? && s.copies[d.copy].content.Readable? }

  function ReadingAt(s: Site, d: Delivery): Reading
    requires Ready(s, d)
  {
    s.copies[d.copy].content.reading
  }

  function KeyAt(s: Site, d: Delivery): Key
    requires Ready(s, d)
  {
    KeyOf(ReadingAt(s, d))
  }

  predicate CanInsert(cfg: Config, s: Site, d: Delivery) {
    !cfg.kind.Notifications? && Ready(s, d) && !ReadingAt(s, d).NoticeOf?
  }

  predicate CanClaim(cfg: Config, s: Site, d: Delivery) {
    cfg.kind.Notifications? && Ready(s, d) && ReadingAt(s, d).NoticeOf?
  }

  // A payload that lacks a part of the notification fails in the send.
  predicate CanSend(s: Site, d: Delivery) {
    d.copy in s.copies && s.copies[d.copy].content.Readable? &&
    (s.copies[d.copy].content.reading.NoticeOf? ==> s.copies[d.copy].content.reading.complete)
  }

  // What Billing and Shipping keep of an event: their own projection of the
  // snapshot.
  function Project(r: Reading, tracking: int): Effect
    requires !r.NoticeOf?
  {
    if r.BillOf? then Bill(r.eventId, r.customer, r.amount) else Shipment(r.eventId, r.customer, r.item, tracking)
  }

  // ---- guards --------------------------------------------------------------

  predicate Enabled(cfg: Config, s: Site, step: Step) {
    match step
    case Arrive(c, _) => c !in s.copies
    case Tick(_) => true
    case Receive(c) =>
      c in s.copies && s.copies[c].place.Visible? && s.copies[c].receives < cfg.maxReceive
      && s.now < s.copies[c].sentAt + cfg.retention
    case Redrive(c) => c in s.copies && s.copies[c].place.Visible? && s.copies[c].receives >= cfg.maxReceive
    case Timeout(c) => c in s.copies && s.copies[c].place.InFlight?
    case Age(c) =>
      c in s.copies && !s.copies[c].place.Deleted? && s.now >= s.copies[c].sentAt + cfg.retention
    case Drop(d) => In(s, d)
    case HandlerRaises(d) => In(s, d) && s.hands[d].Fresh? && !s.copies[d.copy].content.Unparsable?
    case Insert(d, _) => CanInsert(cfg, s, d)
    case InsertReplyLost(d, _) => CanInsert(cfg, s, d)
    case SetKey(d) => CanClaim(cfg, s, d) && KeyAt(s, d) !in s.store
    case SetReplyLost(d) => CanClaim(cfg, s, d) && KeyAt(s, d) !in s.store
    case Duplicate(d) =>
      && CanClaim(cfg, s, d) && KeyAt(s, d) in s.store
      && s.store[KeyAt(s, d)].Claim? && s.now < s.store[KeyAt(s, d)].expiresAt
    case ExpireKey(o) => cfg.kind.Notifications? && o in s.store && s.store[o].Claim? && s.now >= s.store[o].expiresAt
    case SendOk(d) => cfg.kind.Notifications? && In(s, d) && s.hands[d].Sending? && CanSend(s, d)
    case SendRaises(d, out) => cfg.kind.Notifications? && In(s, d) && s.hands[d].Sending? && (out ==> CanSend(s, d))
    case Release(d, _) => cfg.kind.Notifications? && In(s, d) && s.hands[d].Releasing?
    case Delete(d, gone) =>
      In(s, d) && s.hands[d].Clean? && (gone ==> s.copies[d.copy].place.Visible? || s.copies[d.copy].place.InFlight?)
  }

  // ---- effects -------------------------------------------------------------

  predicate Handles(step: Step) {
    step.HandlerRaises? || step.Insert? || step.InsertReplyLost? || step.SetKey? || step.SetReplyLost? ||
    step.Duplicate?
  }

  // How a step changes the deliveries in hand.
  datatype Change = Same | Put(d: Delivery, p: Phase) | Remove(d: Delivery)

  function ChangeOf(cfg: Config, s: Site, step: Step): Change
    requires Enabled(cfg, s, step)
  {
    match step
    case Receive(c) => Put(Delivery(c, s.copies[c].receives + 1), Fresh(s.now))
    // Poison, shutdown mid-batch, a failed delete, or the worker's death.
    case Drop(d) => Remove(d)
    case HandlerRaises(d) => Remove(d)
    case InsertReplyLost(d, _) => Remove(d)
    case SetReplyLost(d) => Remove(d)
    case Release(d, _) => Remove(d)
    case Delete(d, _) => Remove(d)
    case Insert(d, _) => Put(d, Clean(KeyAt(s, d)))
    case SetKey(d) => Put(d, Sending(KeyAt(s, d), s.now))
    case Duplicate(d) => Put(d, Clean(KeyAt(s, d)))
    case SendOk(d) => Put(d, Clean(s.hands[d].order))
    case SendRaises(d, _) => Put(d, Releasing(s.hands[d].order))
    case _ => Same
  }

  function Changed(hands: map<Delivery, Phase>, c: Change): map<Delivery, Phase> {
    match c
    case Same => hands
    case Put(d, p) => hands[d := p]
    case Remove(d) => hands - {d}
  }

  function NewCopy(kind: Kind, now: int, body: Text): Copy {
    Copy(body, Classify(kind, body), now, Visible, 0, multiset{})
  }

  function Called(copy: Copy, n: nat): Copy { copy.(handled := copy.handled + multiset{n}) }

  // At most one message is touched.
  function CopiesAfter(cfg: Config, s: Site, step: Step): map<CopyId, Copy>
    requires Enabled(cfg, s, step)
  {
    match step
    case Arrive(c, body) => s.copies[c := NewCopy(cfg.kind, s.now, body)]
    case Receive(c) => s.copies[c := s.copies[c].(place := InFlight, receives := s.copies[c].receives + 1)]
    case Redrive(c) => s.copies[c := s.copies[c].(place := DeadLettered)]
    case Timeout(c) => s.copies[c := s.copies[c].(place := Visible)]
    case Age(c) => s.copies[c := s.copies[c].(place := Expired)]
    case HandlerRaises(d) => s.copies[d.copy := Called(s.copies[d.copy], d.n)]
    case Insert(d, _) => s.copies[d.copy := Called(s.copies[d.copy], d.n)]
    case InsertReplyLost(d, _) => s.copies[d.copy := Called(s.copies[d.copy], d.n)]
    case SetKey(d) => s.copies[d.copy := Called(s.copies[d.copy], d.n)]
    case SetReplyLost(d) => s.copies[d.copy := Called(s.copies[d.copy], d.n)]
    case Duplicate(d) => s.copies[d.copy := Called(s.copies[d.copy], d.n)]
    case Delete(d, gone) => if gone then s.copies[d.copy := s.copies[d.copy].(place := Deleted)] else s.copies
    case _ => s.copies
  }

  // INSERT ... ON CONFLICT (order_id) DO NOTHING.
  function InsertOrIgnore(store: map<Key, Effect>, o: Key, row: Effect): map<Key, Effect> {
    if o in store then store else store[o := row]
  }

  function Inserted(s: Site, d: Delivery, tracking: int): map<Key, Effect>
    requires Ready(s, d) && !ReadingAt(s, d).NoticeOf?
  {
    InsertOrIgnore(s.store, KeyAt(s, d), Project(ReadingAt(s, d), tracking))
  }

  function StoreAfter(cfg: Config, s: Site, step: Step): map<Key, Effect>
    requires Enabled(cfg, s, step)
  {
    match step
    case Insert(d, tracking) => Inserted(s, d, tracking)
    case InsertReplyLost(d, tracking) => Inserted(s, d, tracking)
    case SetKey(d) => s.store[KeyAt(s, d) := Claim(ReadingAt(s, d).first, s.now + cfg.ttl)]
    case SetReplyLost(d) => s.store[KeyAt(s, d) := Claim(ReadingAt(s, d).first, s.now + cfg.ttl)]
    case ExpireKey(o) => s.store - {o}
    case Release(d, applied) => if applied then s.store - {s.hands[d].order} else s.store
    case _ => s.store
  }

  // The order whose account the step goes to, and what it adds there.
  function Payee(cfg: Config, s: Site, step: Step): Option<Key>
    requires Enabled(cfg, s, step)
  {
    match step
    case Drop(d) => if s.hands[d].Sending? || s.hands[d].Releasing? then Some(s.hands[d].order) else None
    case SetKey(d) => Some(KeyAt(s, d))
    case SetReplyLost(d) => Some(KeyAt(s, d))
    case ExpireKey(o) => Some(o)
    case SendOk(d) => Some(s.hands[d].order)
    case SendRaises(d, _) => Some(s.hands[d].order)
    case Release(d, _) => Some(s.hands[d].order)
    case _ => None
  }

  function Entry(cfg: Config, s: Site, step: Step, a: Account): Account
    requires Enabled(cfg, s, step)
  {
    match step
    case Drop(d) =>
      if s.hands[d].Sending? then a.(gapCrashes := a.gapCrashes + 1)
      else if s.hands[d].Releasing? then a.(failedReleases := a.failedReleases + 1)
      else a
    case SetKey(_) => a.(claims := a.claims + 1)
    case SetReplyLost(_) => a.(lostReplies := a.lostReplies + 1)
    case ExpireKey(_) => a.(expiries := a.expiries + 1)
    case SendOk(_) => a.(emails := a.emails + 1)
    case SendRaises(_, out) =>
      if out then a.(emails := a.emails + 1, ambiguous := a.ambiguous + 1) else a.(unsent := a.unsent + 1)
    case Release(d, applied) =>
      if !applied then a.(failedReleases := a.failedReleases + 1)
      else if s.hands[d].order in s.store then a.(releases := a.releases + 1)
      else a
    case _ => a
  }

  function AccountsAfter(cfg: Config, s: Site, step: Step): map<Key, Account>
    requires Enabled(cfg, s, step)
  {
    match Payee(cfg, s, step)
    case None => s.accounts
    case Some(o) => s.accounts[o := Entry(cfg, s, step, AccountOf(s, o))]
  }

  function EmailsAfter(cfg: Config, s: Site, step: Step): seq<Email>
    requires Enabled(cfg, s, step)
  {
    match step
    case SendOk(d) => s.emails + [Email(s.hands[d].order, d, s.hands[d].at)]
    case SendRaises(d, out) => if out then s.emails + [Email(s.hands[d].order, d, s.hands[d].at)] else s.emails
    case _ => s.emails
  }

  function Apply(cfg: Config, s: Site, step: Step): Site
    requires Enabled(cfg, s, step)
  {
    Site(
      if step.Tick? then s.now + step.seconds else s.now,
      CopiesAfter(cfg, s, step),
      Changed(s.hands, ChangeOf(cfg, s, step)),
      StoreAfter(cfg, s, step),
      AccountsAfter(cfg, s, step),
      EmailsAfter(cfg, s, step))
  }

  // ---- runs ----------------------------------------------------------------

  ghost predicate Run(cfg: Config, s: Site, steps: seq<Step>)
    decreases |steps|
  {
    steps == [] || (Enabled(cfg, s, steps[0]) && Run(cfg, Apply(cfg, s, steps[0]), steps[1..]))
  }

  ghost function After(cfg: Config, s: Site, steps: seq<Step>): Site
    requires Run(cfg, s, steps)
    decreases |steps|
  {
    if steps == [] then s else After(cfg, Apply(cfg, s, steps[0]), steps[1..])
  }

  lemma {:induction false} RunJoin(cfg: Config, s: Site, a: seq<Step>, b: seq<Step>)
    requires Run(cfg, s, a) && Run(cfg, After(cfg, s, a), b)
    ensures Run(cfg, s, a + b)
    ensures After(cfg, s, a + b) == After(cfg, After(cfg, s, a), b)
    decreases |a|
  {
    if a == [] {
      assert a + b == b;
    } else {
      assert (a + b)[0] == a[0] && (a + b)[1..] == a[1..] + b;
      RunJoin(cfg, Apply(cfg, s, a[0]), a[1..], b);
    }
  }

  lemma RunOne(cfg: Config, s: Site, step: Step)
    requires Enabled(cfg, s, step)
    ensures Run(cfg, s, [step]) && After(cfg, s, [step]) == Apply(cfg, s, step)
  {
    assert Run(cfg, Apply(cfg, s, step), []);
  }

  // ---- the queue -----------------------------------------------------------

  // The order is in the store, or for Notifications has been claimed once.
  predicate Recorded(cfg: Config, s: Site, o: Key) {
    if cfg.kind.Notifications? then AccountOf(s, o).claims + AccountOf(s, o).lostReplies >= 1 else o in s.store
  }

  ghost predicate CopyOk(cfg: Config, s: Site, c: CopyId) {
    c in s.copies ==>
      var copy := s.copies[c];
      && copy.sentAt <= s.now
      && copy.receives <= cfg.maxReceive
      && (forall n :: n in copy.handled ==> 1 <= n <= copy.receives && copy.handled[n] == 1)
      && (copy.place.DeadLettered? ==> copy.receives == cfg.maxReceive)
      && copy.content == Classify(cfg.kind, copy.body)
      && (copy.content.Unparsable? ==> copy.handled == multiset{})
      && (copy.place.Deleted? ==>
            copy.handled != multiset{} && copy.content.Readable? && Recorded(cfg, s, KeyOf(copy.content.reading)))
  }

  ghost predicate HandOk(cfg: Config, s: Site, d: Delivery) {
    d in s.hands ==>
      && d.copy in s.copies && 1 <= d.n <= s.copies[d.copy].receives
      && (s.hands[d].Fresh? ==> d.n !in s.copies[d.copy].handled)
      && (!s.hands[d].Fresh? ==>
            && d.n in s.copies[d.copy].handled
            && s.copies[d.copy].content.Readable?
            && KeyOf(s.copies[d.copy].content.reading) == s.hands[d].order
            && Recorded(cfg, s, s.hands[d].order))
  }

  ghost predicate StoreOk(cfg: Config, s: Site, o: Key) {
    o in s.store ==> Recorded(cfg, s, o) && (cfg.kind.Notifications? <==> s.store[o].Claim?)
  }

  ghost predicate QueueOk(cfg: Config, s: Site) {
    && (forall c :: CopyOk(cfg, s, c))
    && (forall d :: HandOk(cfg, s, d))
    && (forall o :: StoreOk(cfg, s, o))
  }

  // Recording is for ever: rows are never deleted, and a key's claim stays
  // on the account after the key has gone.
  lemma RecordedStays(cfg: Config, s: Site, step: Step, o: Key)
    requires Enabled(cfg, s, step) && Recorded(cfg, s, o)
    ensures Recorded(cfg, Apply(cfg, s, step), o)
  {
  }

  // The copy a step is about, if any.
  function Subject(step: Step): Option<CopyId> {
    match step
    case Arrive(c, _) => Some(c)
    case Receive(c) => Some(c)
    case Redrive(c) => Some(c)
    case Timeout(c) => Some(c)
    case Age(c) => Some(c)
    case Tick(_) => None
    case ExpireKey(_) => None
    case _ => Some(step.d.copy)
  }

  lemma CopyOkElsewhere(cfg: Config, s: Site, step: Step, c: CopyId)
    requires CopyOk(cfg, s, c) && Enabled(cfg, s, step) && Subject(step) != Some(c)
    ensures CopyOk(cfg, Apply(cfg, s, step), c)
  {
    assert c in s.copies ==> Apply(cfg, s, step).copies[c] == s.copies[c];
    if c in s.copies && s.copies[c].place.Deleted? {
      RecordedStays(cfg, s, step, KeyOf(s.copies[c].content.reading));
    }
  }

  lemma CopyOkKeptByHandler(cfg: Config, s: Site, step: Step)
    requires Enabled(cfg, s, step) && Handles(step) && CopyOk(cfg, s, step.d.copy) && HandOk(cfg, s, step.d)
    ensures CopyOk(cfg, Apply(cfg, s, step), step.d.copy)
  {
    var c := step.d.copy;
    assert Apply(cfg, s, step).copies[c] == Called(s.copies[c], step.d.n);
    if s.copies[c].place.Deleted? { RecordedStays(cfg, s, step, KeyOf(s.copies[c].content.reading)); }
  }

  lemma CopyOkKeptByQueue(cfg: Config, s: Site, step: Step, c: CopyId)
    requires Enabled(cfg, s, step) && !Handles(step) && CopyOk(cfg, s, c)
    requires step.Delete? ==> HandOk(cfg, s, step.d)
    ensures CopyOk(cfg, Apply(cfg, s, step), c)
  {
    if c in s.copies && s.copies[c].place.Deleted? {
      RecordedStays(cfg, s, step, KeyOf(s.copies[c].content.reading));
    }
    if step.Delete? { RecordedStays(cfg, s, step, s.hands[step.d].order); }
  }

  lemma CopyOkKept(cfg: Config, s: Site, step: Step, c: CopyId)
    requires QueueOk(cfg, s) && Enabled(cfg, s, step)
    ensures CopyOk(cfg, Apply(cfg, s, step), c)
  {
    assert CopyOk(cfg, s, c);
    if Subject(step) != Some(c) {
      CopyOkElsewhere(cfg, s, step, c);
    } else if Handles(step) {
      assert HandOk(cfg, s, step.d);
      CopyOkKeptByHandler(cfg, s, step);
    } else {
      if step.Delete? { assert HandOk(cfg, s, step.d); }
      CopyOkKeptByQueue(cfg, s, step, c);
    }
  }

  // A step never loses a copy or changes its body, and ends of life are final:
  // deleted stays deleted, and only retention takes a copy out of the DLQ.
  lemma CopyPersists(cfg: Config, s: Site, step: Step, c: CopyId)
    requires Enabled(cfg, s, step) && c in s.copies
    ensures var a, b := s.copies[c], Apply(cfg, s, step).copies;
            && c in b && b[c].body == a.body && b[c].content == a.content && b[c].sentAt == a.sentAt
            && a.receives <= b[c].receives && a.handled <= b[c].handled
            && (a.place.Deleted? ==> b[c].place.Deleted?)
            && (a.place.Expired? ==> b[c].place.Expired?)
            && (a.place.DeadLettered? ==> b[c].place.DeadLettered? || b[c].place.Expired?)
            && (b[c].place.DeadLettered? && !a.place.DeadLettered? ==> a.receives == b[c].receives >= cfg.maxReceive)
  {
  }

  // The handler is called for a delivery only with that delivery in hand.
  lemma CallsOf(cfg: Config, s: Site, step: Step, d: Delivery)
    requires Enabled(cfg, s, step) && d.copy in s.copies
    ensures var b := Apply(cfg, s, step).copies[d.copy];
            b.handled[d.n] == s.copies[d.copy].handled[d.n] + if Handles(step) && step.d == d then 1 else 0
  {
  }

  lemma HandOkKept(cfg: Config, s: Site, step: Step, d: Delivery)
    requires QueueOk(cfg, s) && Enabled(cfg, s, step)
    ensures HandOk(cfg, Apply(cfg, s, step), d)
  {
    assert HandOk(cfg, s, d);
    var change := ChangeOf(cfg, s, step);
    if d.copy in s.copies {
      CopyPersists(cfg, s, step, d.copy);
      CallsOf(cfg, s, step, d);
    }
    if d in s.hands && !s.hands[d].Fresh? { RecordedStays(cfg, s, step, s.hands[d].order); }
    if change.Put? && change.d == d { PutOk(cfg, s, step); }
  }

  // What is put in hand is new, or further on.
  lemma PutOk(cfg: Config, s: Site, step: Step)
    requires QueueOk(cfg, s) && Enabled(cfg, s, step) && ChangeOf(cfg, s, step).Put?
    ensures HandOk(cfg, Apply(cfg, s, step), ChangeOf(cfg, s, step).d)
  {
    var d := ChangeOf(cfg, s, step).d;
    assert HandOk(cfg, s, d) && CopyOk(cfg, s, d.copy);
    CallsOf(cfg, s, step, d);
    if step.Duplicate? { assert StoreOk(cfg, s, KeyAt(s, d)); RecordedStays(cfg, s, step, KeyAt(s, d)); }
    if d in s.hands && !s.hands[d].Fresh? { RecordedStays(cfg, s, step, s.hands[d].order); }
  }

  lemma StoreOkKept(cfg: Config, s: Site, step: Step, o: Key)
    requires QueueOk(cfg, s) && Enabled(cfg, s, step)
    ensures StoreOk(cfg, Apply(cfg, s, step), o)
  {
    assert StoreOk(cfg, s, o);
    if o in s.store { RecordedStays(cfg, s, step, o); }
  }

  lemma QueueKept(cfg: Config, s: Site, step: Step)
    requires QueueOk(cfg, s) && Enabled(cfg, s, step)
    ensures QueueOk(cfg, Apply(cfg, s, step))
  {
    forall c ensures CopyOk(cfg, Apply(cfg, s, step), c) { CopyOkKept(cfg, s, step, c); }
    forall d ensures HandOk(cfg, Apply(cfg, s, step), d) { HandOkKept(cfg, s, step, d); }
    forall o ensures StoreOk(cfg, Apply(cfg, s, step), o) { StoreOkKept(cfg, s, step, o); }
  }

  lemma {:induction false} QueueAlways(cfg: Config, s: Site, steps: seq<Step>)
    requires QueueOk(cfg, s) && Run(cfg, s, steps)
    ensures QueueOk(cfg, After(cfg, s, steps))
    decreases |steps|
  {
    if steps != [] {
      QueueKept(cfg, s, steps[0]);
      QueueAlways(cfg, Apply(cfg, s, steps[0]), steps[1..]);
    }
  }

  // ---- conservation and redrive --------------------------------------------

  lemma CopiesStay(cfg: Config, s: Site, step: Step)
    requires Enabled(cfg, s, step) && !step.Arrive?
    ensures Apply(cfg, s, step).copies.Keys == s.copies.Keys
    ensures forall c :: c in s.copies ==> Apply(cfg, s, step).copies[c].body == s.copies[c].body
                                          && Apply(cfg, s, step).copies[c].content == s.copies[c].content
  {
    forall c | c in s.copies
      ensures c in Apply(cfg, s, step).copies && Apply(cfg, s, step).copies[c].body == s.copies[c].body
      ensures Apply(cfg, s, step).copies[c].content == s.copies[c].content {
      CopyPersists(cfg, s, step, c);
    }
  }

  lemma {:induction false} BodyForever(cfg: Config, s: Site, steps: seq<Step>, c: CopyId)
    requires Run(cfg, s, steps) && c in s.copies
    ensures c in After(cfg, s, steps).copies && After(cfg, s, steps).copies[c].body == s.copies[c].body
    decreases |steps|
  {
    if steps != [] {
      CopyPersists(cfg, s, steps[0], c);
      BodyForever(cfg, Apply(cfg, s, steps[0]), steps[1..], c);
    }
  }

  lemma {:induction false} SetInRange(s: set<nat>, n: nat)
    requires forall x :: x in s ==> 1 <= x <= n
    ensures |s| <= n
    decreases n
  {
    if n == 0 {
      assert s == {};
    } else {
      SetInRange(s - {n}, n - 1);
      assert s <= (s - {n}) + {n};
      if n in s { assert s == (s - {n}) + {n}; } else { assert s == s - {n}; }
    }
  }

  lemma {:induction false} CallsInRange(calls: multiset<nat>, n: nat)
    requires forall x :: x in calls ==> 1 <= x <= n && calls[x] == 1
    ensures |calls| <= n
    decreases n
  {
    if n == 0 {
      assert calls == multiset{};
    } else {
      CallsInRange(calls[n := 0], n - 1);
      assert calls == calls[n := 0] + (if n in calls then multiset{n} else multiset{});
    }
  }

  // In every run: the handler is called at most once per delivery, deliveries
  // never exceed maxReceiveCount, a dead letter had exactly that many, and an
  // unparsable body is never handled and never deleted.
  lemma RedriveBounds(cfg: Config, steps: seq<Step>, c: CopyId)
    requires cfg.Valid() && Run(cfg, EMPTY, steps)
    ensures var s := After(cfg, EMPTY, steps);
            c in s.copies ==>
              var copy := s.copies[c];
              && |copy.handled| <= copy.receives <= cfg.maxReceive
              && (forall n :: copy.handled[n] <= 1)
              && (copy.place.DeadLettered? ==> copy.receives == cfg.maxReceive)
              && (copy.place.Deleted? ==> |copy.handled| >= 1)
              && (Poison(copy.body) ==> |copy.handled| == 0 && !copy.place.Deleted?)
  {
    QueueAlways(cfg, EMPTY, steps);
    var s := After(cfg, EMPTY, steps);
    assert CopyOk(cfg, s, c);
    if c in s.copies { CallsInRange(s.copies[c].handled, s.copies[c].receives); }
  }

  // Deleted means recorded: no message leaves a queue for good by a
  // consumer's hand before its effect, or its claim, is in the store.
  lemma DeletedMeansRecorded(cfg: Config, steps: seq<Step>, c: CopyId)
    requires Run(cfg, EMPTY, steps)
    ensures var s := After(cfg, EMPTY, steps);
            c in s.copies && s.copies[c].place.Deleted? ==>
              var content := Classify(cfg.kind, s.copies[c].body);
              content.Readable? && Recorded(cfg, s, KeyOf(content.reading))
  {
    QueueAlways(cfg, EMPTY, steps);
    assert CopyOk(cfg, After(cfg, EMPTY, steps), c);
  }

  // ---- deliveries count, not failures --------------------------------------

  ghost predicate Reached(cfg: Config, steps: seq<Step>, s: Site) {
    Run(cfg, EMPTY, steps) && After(cfg, EMPTY, steps) == s
  }

  lemma Do(cfg: Config, steps: seq<Step>, s: Site, step: Step) returns (steps': seq<Step>, s': Site)
    requires Reached(cfg, steps, s) && Enabled(cfg, s, step)
    ensures steps' == steps + [step] && s' == Apply(cfg, s, step) && Reached(cfg, steps', s')
  {
    RunOne(cfg, s, step);
    RunJoin(cfg, EMPTY, steps, [step]);
    steps', s' := steps + [step], Apply(cfg, s, step);
  }

  // The queue's own steps and workers that put a message down unhandled: the
  // rest of a batch at a shutdown, or of a worker that dies.
  predicate PutDown(step: Step) {
    step.Arrive? || step.Receive? || step.Timeout? || step.Redrive? || step.Drop?
  }

  predicate AllPutDown(steps: seq<Step>) { forall i :: 0 <= i < |steps| ==> PutDown(steps[i]) }

  // One copy, received k times and never handled.
  function Unhandled(cfg: Config, body: Text, place: Place, k: nat): Site {
    EMPTY.(copies := map[0 := NewCopy(cfg.kind, 0, body).(place := place, receives := k)])
  }

  lemma OneMoreUnhandled(cfg: Config, body: Text, steps: seq<Step>, k: nat) returns (steps': seq<Step>)
    requires k < cfg.maxReceive && cfg.retention >= 1
    requires Reached(cfg, steps, Unhandled(cfg, body, Visible, k)) && AllPutDown(steps)
    ensures Reached(cfg, steps', Unhandled(cfg, body, Visible, k + 1)) && AllPutDown(steps')
  {
    var d, s := Delivery(0, k + 1), Unhandled(cfg, body, Visible, k);
    steps', s := Do(cfg, steps, s, Receive(0));
    steps', s := Do(cfg, steps', s, Drop(d));
    steps', s := Do(cfg, steps', s, Timeout(0));
    assert s.hands == map[];
    assert s.copies == Unhandled(cfg, body, Visible, k + 1).copies;
  }

  lemma {:induction false} UnhandledDeliveries(cfg: Config, body: Text, k: nat) returns (steps: seq<Step>)
    requires k <= cfg.maxReceive && cfg.retention >= 1
    ensures Reached(cfg, steps, Unhandled(cfg, body, Visible, k)) && AllPutDown(steps)
    decreases k
  {
    if k == 0 {
      var s;
      steps, s := Do(cfg, [], EMPTY, Arrive(0, body));
      assert s == Unhandled(cfg, body, Visible, 0);
    } else {
      steps := UnhandledDeliveries(cfg, body, k - 1);
      steps := OneMoreUnhandled(cfg, body, steps, k - 1);
    }
  }

  // A healthy message can reach the DLQ without one handler call, through
  // workers that put it down alone.
  lemma DeadLetterWithoutHandling(cfg: Config, body: Text) returns (steps: seq<Step>)
    requires cfg.Valid() && cfg.retention >= 1
    ensures AllPutDown(steps) && Reached(cfg, steps, Unhandled(cfg, body, DeadLettered, cfg.maxReceive))
  {
    steps := UnhandledDeliveries(cfg, body, cfg.maxReceive);
    var s;
    steps, s := Do(cfg, steps, Unhandled(cfg, body, Visible, cfg.maxReceive), Redrive(0));
    assert s.copies == Unhandled(cfg, body, DeadLettered, cfg.maxReceive).copies;
  }

  // Only a handler that returned lets its delivery be deleted: whatever else
  // ends a call, a refusal, a lost reply, a send that raised, puts it down.
  lemma OnlyReturningDeletes(cfg: Config, s: Site, step: Step, d: Delivery)
    requires Enabled(cfg, s, step)
    ensures var hands := Apply(cfg, s, step).hands;
            && (d in hands && hands[d].Clean? ==>
                  || (d in s.hands && s.hands[d].Clean?)
                  || (step.Insert? && step.d == d) || step == Duplicate(d) || step == SendOk(d))
            && ((|| step == HandlerRaises(d) || step == SetReplyLost(d) || step == Drop(d)
                 || (step.InsertReplyLost? && step.d == d) || (step.Release? && step.d == d)) ==>
                  d !in hands)
  {
  }

  // The runs leave nothing out that can go wrong around a consumer: a hidden
  // message may reappear and an old one go at any moment; a worker may put
  // down or die over what it has in hand; a delete may fail; a key expires
  // when it is due.
  lemma AnythingCanGoWrong(cfg: Config, s: Site, c: CopyId, d: Delivery, o: Key)
    ensures c in s.copies && s.copies[c].place.InFlight? ==> Enabled(cfg, s, Timeout(c))
    ensures c in s.copies && !s.copies[c].place.Deleted? && s.now >= s.copies[c].sentAt + cfg.retention ==>
              Enabled(cfg, s, Age(c))
    ensures In(s, d) ==> Enabled(cfg, s, Drop(d))
    ensures In(s, d) && s.hands[d].Clean? ==>
              && Enabled(cfg, s, Delete(d, false))
              && (s.copies[d.copy].place.Visible? || s.copies[d.copy].place.InFlight? ==>
                    Enabled(cfg, s, Delete(d, true)))
    ensures cfg.kind.Notifications? && o in s.store && s.store[o].Claim? && s.now >= s.store[o].expiresAt ==>
              Enabled(cfg, s, ExpireKey(o))
  {
  }

  // ... and in a handler: a write may be refused, or applied and raise; a send
  // may raise, gone out or not; a release may fail.
  lemma AnyWriteCanFail(cfg: Config, s: Site, d: Delivery, tracking: int)
    ensures Ready(s, d) ==> Enabled(cfg, s, HandlerRaises(d))
    ensures CanInsert(cfg, s, d) ==>
              Enabled(cfg, s, Insert(d, tracking)) && Enabled(cfg, s, InsertReplyLost(d, tracking))
    ensures CanClaim(cfg, s, d) && KeyAt(s, d) !in s.store ==>
              Enabled(cfg, s, SetKey(d)) && Enabled(cfg, s, SetReplyLost(d))
    ensures cfg.kind.Notifications? && In(s, d) && s.hands[d].Sending? ==>
              && Enabled(cfg, s, SendRaises(d, false))
              && (CanSend(s, d) ==> Enabled(cfg, s, SendOk(d)) && Enabled(cfg, s, SendRaises(d, true)))
    ensures cfg.kind.Notifications? && In(s, d) && s.hands[d].Releasing? ==>
              Enabled(cfg, s, Release(d, true)) && Enabled(cfg, s, Release(d, false))
  {
  }

  // ---- one effect per order ------------------------------------------------

  // One step adds at most one row, from the event it handles, and never
  // touches a row already there, whichever copy arrives next.
  lemma StoreStep(cfg: Config, s: Site, step: Step)
    requires !cfg.kind.Notifications? && Enabled(cfg, s, step)
    ensures var s' := Apply(cfg, s, step);
            || s'.store == s.store
            || ((step.Insert? || step.InsertReplyLost?)
                && KeyAt(s, step.d) !in s.store
                && var r := ReadingAt(s, step.d);
                   s'.store == s.store[UuidText(r.orderId) :=
                     if r.BillOf? then Bill(r.eventId, r.customer, r.amount)
                     else Shipment(r.eventId, r.customer, r.item, step.tracking)])
  {
  }
}
