// The 48-hour key against the 4-day queue: with one worker and truthful
// sends, emails for an order are at least a TTL apart. A message received
// within its retention may be held by the worker for a while before its
// handler claims the key; it can be notified twice exactly when the TTL is
// shorter than the retention and that hold together.
module Expiry {
  import opened Arithmetic
  import opened Base
  import opened Messages
  import opened Consumers
  import opened Notify

  predicate Truthful(step: Step) { step.SendRaises? ==> !step.out }

  predicate AllTruthful(steps: seq<Step>) { forall i :: 0 <= i < |steps| ==> Truthful(steps[i]) }

  // ---- invariants ----------------------------------------------------------

  predicate Active(p: Phase) { p.Sending? || p.Releasing? }

  ghost predicate AtMostOneActive(s: Site) {
    forall d, e :: d in s.hands && e in s.hands && Active(s.hands[d]) && Active(s.hands[e]) ==> d == e
  }

  // The key covers time t of its order: while it is set it outlasts t + ttl,
  // and once it is gone t + ttl has passed.
  predicate Covered(cfg: Config, s: Site, o: Key, t: int) {
    if o in s.store then s.store[o].Claim? && s.store[o].expiresAt >= t + cfg.ttl else s.now >= t + cfg.ttl
  }

  ghost predicate MailOk(cfg: Config, s: Site, mail: Email) {
    && Covered(cfg, s, mail.order, mail.at)
    && (mail.delivery.copy in s.copies && mail.delivery.n in s.copies[mail.delivery.copy].handled)
    && (forall d :: d in s.hands && Active(s.hands[d]) ==> d != mail.delivery || s.hands[d].Releasing?)
    && (forall d :: d in s.hands && Active(s.hands[d]) && s.hands[d].order == mail.order ==>
          if s.hands[d].Sending? then s.hands[d].at >= mail.at + cfg.ttl else s.now >= mail.at + cfg.ttl)
  }

  ghost predicate ClaimTimed(cfg: Config, s: Site, d: Delivery) {
    d in s.hands && s.hands[d].Sending? ==> s.hands[d].at <= s.now && Covered(cfg, s, s.hands[d].order, s.hands[d].at)
  }

  ghost predicate Spaced(cfg: Config, emails: seq<Email>) {
    forall i, j :: 0 <= i < j < |emails| ==>
      && emails[i].delivery != emails[j].delivery
      && (emails[i].order == emails[j].order ==> emails[j].at >= emails[i].at + cfg.ttl)
  }

  ghost predicate TimeOk(cfg: Config, s: Site) {
    && AtMostOneActive(s)
    && (forall i :: 0 <= i < |s.emails| ==> MailOk(cfg, s, s.emails[i]))
    && (forall d :: ClaimTimed(cfg, s, d))
    && Spaced(cfg, s.emails)
  }

  lemma ActiveKept(cfg: Config, s: Site, step: Step)
    requires Enabled(cfg, s, step) && AtMostOneActive(s) && (Handles(step) ==> Quiet(s))
    ensures AtMostOneActive(Apply(cfg, s, step))
  {
  }

  lemma MailKeptByHandler(cfg: Config, s: Site, step: Step, mail: Email)
    requires cfg.Valid() && cfg.kind.Notifications? && Enabled(cfg, s, step) && Handles(step) && Quiet(s)
    requires MailOk(cfg, s, mail) && HandOk(cfg, s, step.d)
    ensures MailOk(cfg, Apply(cfg, s, step), mail)
  {
  }

  lemma MailKeptByRest(cfg: Config, s: Site, step: Step, mail: Email)
    requires cfg.kind.Notifications? && Enabled(cfg, s, step) && AtMostOneActive(s)
    requires !Handles(step) && Truthful(step) && MailOk(cfg, s, mail)
    requires step.SendRaises? ==> ClaimTimed(cfg, s, step.d)
    ensures MailOk(cfg, Apply(cfg, s, step), mail)
  {
  }

  lemma MailKept(cfg: Config, s: Site, step: Step, mail: Email)
    requires cfg.Valid() && cfg.kind.Notifications? && Enabled(cfg, s, step) && AtMostOneActive(s)
    requires (Handles(step) ==> Quiet(s) && HandOk(cfg, s, step.d)) && Truthful(step)
    requires step.SendRaises? ==> ClaimTimed(cfg, s, step.d)
    requires MailOk(cfg, s, mail)
    ensures MailOk(cfg, Apply(cfg, s, step), mail)
  {
    if Handles(step) { MailKeptByHandler(cfg, s, step, mail); } else { MailKeptByRest(cfg, s, step, mail); }
  }

  lemma ClaimTimedKept(cfg: Config, s: Site, step: Step, d: Delivery)
    requires cfg.kind.Notifications? && Enabled(cfg, s, step) && AtMostOneActive(s)
    requires Handles(step) ==> Quiet(s)
    requires ClaimTimed(cfg, s, d)
    ensures ClaimTimed(cfg, Apply(cfg, s, step), d)
  {
  }

  // The email a step sends is a TTL after every earlier one of its order.
  lemma NewMail(cfg: Config, s: Site, step: Step)
    requires cfg.Valid() && cfg.kind.Notifications? && Enabled(cfg, s, step) && TimeOk(cfg, s) && QueueOk(cfg, s)
    requires Truthful(step) && (Handles(step) ==> Quiet(s))
    ensures var b := Apply(cfg, s, step);
            if step.SendOk?
            then |b.emails| == |s.emails| + 1 && b.emails[..|s.emails|] == s.emails
                 && MailOk(cfg, b, b.emails[|s.emails|]) && Spaced(cfg, b.emails)
            else b.emails == s.emails
  {
    if step.SendOk? {
      assert ClaimTimed(cfg, s, step.d) && HandOk(cfg, s, step.d);
      forall i | 0 <= i < |s.emails|
        ensures s.emails[i].delivery != step.d
        ensures s.emails[i].order == s.hands[step.d].order ==> s.hands[step.d].at >= s.emails[i].at + cfg.ttl {
        assert MailOk(cfg, s, s.emails[i]);
      }
    }
  }

  lemma TimeKept(cfg: Config, s: Site, step: Step)
    requires cfg.Valid() && cfg.kind.Notifications? && Enabled(cfg, s, step) && TimeOk(cfg, s) && QueueOk(cfg, s)
    requires Truthful(step) && (Handles(step) ==> Quiet(s))
    ensures TimeOk(cfg, Apply(cfg, s, step))
  {
    var b := Apply(cfg, s, step);
    ActiveKept(cfg, s, step);
    NewMail(cfg, s, step);
    if Handles(step) { assert HandOk(cfg, s, step.d); }
    if step.SendRaises? { assert ClaimTimed(cfg, s, step.d); }
    forall i | 0 <= i < |b.emails| ensures MailOk(cfg, b, b.emails[i]) {
      if i < |s.emails| {
        assert b.emails[i] == s.emails[i];
        MailKept(cfg, s, step, s.emails[i]);
      }
    }
    forall d ensures ClaimTimed(cfg, b, d) {
      assert ClaimTimed(cfg, s, d);
      ClaimTimedKept(cfg, s, step, d);
    }
  }

  lemma {:induction false} TimeAlways(cfg: Config, s: Site, steps: seq<Step>)
    requires cfg.Valid() && cfg.kind.Notifications? && TimeOk(cfg, s) && QueueOk(cfg, s)
    requires Run(cfg, s, steps) && OneWorker(cfg, s, steps) && AllTruthful(steps)
    ensures TimeOk(cfg, After(cfg, s, steps))
    decreases |steps|
  {
    if steps != [] {
      assert Truthful(steps[0]);
      assert AllTruthful(steps[1..]) by {
        forall i | 0 <= i < |steps[1..]| ensures Truthful(steps[1..][i]) { assert steps[1..][i] == steps[i + 1]; }
      }
      TimeKept(cfg, s, steps[0]);
      QueueKept(cfg, s, steps[0]);
      TimeAlways(cfg, Apply(cfg, s, steps[0]), steps[1..]);
    }
  }

  // ---- emails in a window --------------------------------------------------

  // Emails of order o whose claim fell in [start, start + width).
  function InWindow(emails: seq<Email>, o: Key, start: int, width: nat): nat
    decreases |emails|
  {
    if emails == [] then 0
    else
      var last := emails[|emails| - 1];
      InWindow(emails[..|emails| - 1], o, start, width)
        + if last.order == o && start <= last.at < start + width then 1 else 0
  }

  lemma {:induction false} WindowSpread(cfg: Config, emails: seq<Email>, o: Key, start: int, width: nat)
    returns (i: nat)
    requires Spaced(cfg, emails) && InWindow(emails, o, start, width) >= 1
    ensures i < |emails| && emails[i].order == o && start <= emails[i].at < start + width
    ensures emails[i].at >= start + cfg.ttl * (InWindow(emails, o, start, width) - 1)
    decreases |emails|
  {
    var before, last := emails[..|emails| - 1], emails[|emails| - 1];
    var n := InWindow(before, o, start, width);
    i := |emails| - 1;
    if last.order == o && start <= last.at < start + width {
      if n >= 1 {
        var k := WindowSpread(cfg, before, o, start, width);
        assert emails[k] == before[k];
        assert cfg.ttl * n == cfg.ttl * (n - 1) + cfg.ttl;
      } else {
        assert cfg.ttl * 0 == 0;
      }
    } else {
      i := WindowSpread(cfg, before, o, start, width);
      assert emails[i] == before[i];
    }
  }

  // In any window, however many copies, crashes and redeliveries: no more
  // emails for an order than ceil(width / ttl).
  lemma EmailsPerWindow(cfg: Config, steps: seq<Step>, o: Key, start: int, width: nat)
    requires cfg.Valid() && cfg.kind.Notifications?
    requires Run(cfg, EMPTY, steps) && OneWorker(cfg, EMPTY, steps) && AllTruthful(steps)
    ensures InWindow(After(cfg, EMPTY, steps).emails, o, start, width) <= CeilDiv(width, cfg.ttl)
  {
    TimeAlways(cfg, EMPTY, steps);
    var emails := After(cfg, EMPTY, steps).emails;
    var n := InWindow(emails, o, start, width);
    if n >= 1 {
      var i := WindowSpread(cfg, emails, o, start, width);
      BelowCeil(width, cfg.ttl, n);
    }
  }

  // ---- emails of one copy --------------------------------------------------

  // No handler claims a key more than `hold` after its message was received:
  // the batch ahead of it took no longer.
  ghost predicate HeldAtMost(cfg: Config, hold: nat, s: Site, steps: seq<Step>)
    requires Run(cfg, s, steps)
    decreases |steps|
  {
    steps != [] ==>
      && Prompt(hold, s, steps[0])
      && HeldAtMost(cfg, hold, Apply(cfg, s, steps[0]), steps[1..])
  }

  predicate Prompt(hold: nat, s: Site, step: Step) {
    step.SetKey? && step.d in s.hands && s.hands[step.d].Fresh? ==> s.now <= s.hands[step.d].at + hold
  }

  // A claim falls between its message's arrival and the end of its retention
  // and the hold.
  predicate InLife(cfg: Config, hold: nat, copy: Copy, at: int) {
    cfg.retention >= 1 && copy.sentAt <= at < copy.sentAt + cfg.retention + hold
  }

  ghost predicate HandTimed(cfg: Config, hold: nat, s: Site, d: Delivery) {
    d in s.hands ==>
      && d.copy in s.copies
      && (s.hands[d].Fresh? ==>
            s.hands[d].at <= s.now &&
            s.copies[d.copy].sentAt <= s.hands[d].at < s.copies[d.copy].sentAt + cfg.retention)
      && (s.hands[d].Sending? ==> InLife(cfg, hold, s.copies[d.copy], s.hands[d].at))
  }

  // An email is about the order of the message whose delivery sent it, and
  // was claimed in that message's life.
  ghost predicate SourceOk(cfg: Config, hold: nat, s: Site, mail: Email) {
    && mail.delivery.copy in s.copies && s.copies[mail.delivery.copy].content.Readable?
    && KeyOf(s.copies[mail.delivery.copy].content.reading) == mail.order
    && mail.delivery.n in s.copies[mail.delivery.copy].handled
    && InLife(cfg, hold, s.copies[mail.delivery.copy], mail.at)
  }

  ghost predicate LifeOk(cfg: Config, hold: nat, s: Site) {
    && (forall d :: HandTimed(cfg, hold, s, d))
    && (forall i :: 0 <= i < |s.emails| ==> SourceOk(cfg, hold, s, s.emails[i]))
  }

  lemma HandTimedKept(cfg: Config, hold: nat, s: Site, step: Step, d: Delivery)
    requires Enabled(cfg, s, step) && HandTimed(cfg, hold, s, d) && Prompt(hold, s, step)
    requires step.Receive? ==> CopyOk(cfg, s, step.c)
    ensures HandTimed(cfg, hold, Apply(cfg, s, step), d)
  {
    if d.copy in s.copies { CopyPersists(cfg, s, step, d.copy); }
  }

  lemma LifeKept(cfg: Config, hold: nat, s: Site, step: Step)
    requires Enabled(cfg, s, step) && QueueOk(cfg, s) && LifeOk(cfg, hold, s) && Prompt(hold, s, step)
    ensures LifeOk(cfg, hold, Apply(cfg, s, step))
  {
    var b := Apply(cfg, s, step);
    if step.Receive? { assert CopyOk(cfg, s, step.c); }
    forall d ensures HandTimed(cfg, hold, b, d) {
      assert HandTimed(cfg, hold, s, d);
      HandTimedKept(cfg, hold, s, step, d);
    }
    if step.SendOk? || step.SendRaises? { assert HandOk(cfg, s, step.d) && HandTimed(cfg, hold, s, step.d); }
    forall i | 0 <= i < |b.emails| ensures SourceOk(cfg, hold, b, b.emails[i]) {
      if i < |s.emails| {
        assert b.emails[i] == s.emails[i] && SourceOk(cfg, hold, s, s.emails[i]);
        CopyPersists(cfg, s, step, s.emails[i].delivery.copy);
      }
    }
  }

  lemma {:induction false} LifeAlways(cfg: Config, hold: nat, s: Site, steps: seq<Step>)
    requires QueueOk(cfg, s) && LifeOk(cfg, hold, s) && Run(cfg, s, steps) && HeldAtMost(cfg, hold, s, steps)
    ensures LifeOk(cfg, hold, After(cfg, s, steps))
    decreases |steps|
  {
    if steps != [] {
      LifeKept(cfg, hold, s, steps[0]);
      QueueKept(cfg, s, steps[0]);
      LifeAlways(cfg, hold, Apply(cfg, s, steps[0]), steps[1..]);
    }
  }

  // All the emails copy c caused.
  function FromCopy(emails: seq<Email>, c: CopyId): nat
    decreases |emails|
  {
    if emails == [] then 0
    else FromCopy(emails[..|emails| - 1], c) + One(emails[|emails| - 1].delivery.copy == c)
  }

  lemma {:induction false} FromCopyInWindow(emails: seq<Email>, c: CopyId, o: Key, start: int, width: nat)
    requires forall i :: 0 <= i < |emails| && emails[i].delivery.copy == c ==>
               emails[i].order == o && start <= emails[i].at < start + width
    ensures FromCopy(emails, c) <= InWindow(emails, o, start, width)
    decreases |emails|
  {
    if emails != [] { FromCopyInWindow(emails[..|emails| - 1], c, o, start, width); }
  }

  // The deliveries those emails came from.
  function Numbers(emails: seq<Email>, c: CopyId): set<nat>
    decreases |emails|
  {
    if emails == [] then {}
    else
      var last := emails[|emails| - 1];
      Numbers(emails[..|emails| - 1], c) + if last.delivery.copy == c then {last.delivery.n} else {}
  }

  lemma {:induction false} NumbersAreDeliveries(emails: seq<Email>, c: CopyId, n: nat)
    requires n in Numbers(emails, c)
    ensures exists i :: 0 <= i < |emails| && emails[i].delivery == Delivery(c, n)
    decreases |emails|
  {
    var before, last := emails[..|emails| - 1], emails[|emails| - 1];
    if n in Numbers(before, c) {
      NumbersAreDeliveries(before, c, n);
      var i :| 0 <= i < |before| && before[i].delivery == Delivery(c, n);
      assert emails[i] == before[i];
    } else {
      assert last.delivery == Delivery(c, n);
    }
  }

  // Each delivery sends at most once, so there are as many of the one as of
  // the other.
  lemma {:induction false} OneEmailPerDelivery(cfg: Config, emails: seq<Email>, c: CopyId)
    requires Spaced(cfg, emails)
    ensures |Numbers(emails, c)| == FromCopy(emails, c)
    decreases |emails|
  {
    if emails != [] {
      var before, last := emails[..|emails| - 1], emails[|emails| - 1];
      OneEmailPerDelivery(cfg, before, c);
      if last.delivery.copy == c {
        if last.delivery.n in Numbers(before, c) {
          NumbersAreDeliveries(before, c, last.delivery.n);
          assert false;
        }
        SizeWith(Numbers(before, c), last.delivery.n);
      }
    }
  }

  // One worker, truthful sends, and a bound on how long it holds a message.
  ghost predicate Steady(cfg: Config, hold: nat, steps: seq<Step>) {
    Run(cfg, EMPTY, steps) && OneWorker(cfg, EMPTY, steps) && AllTruthful(steps) && HeldAtMost(cfg, hold, EMPTY, steps)
  }

  lemma CountFromCopy(cfg: Config, hold: nat, steps: seq<Step>, s: Site, c: CopyId)
    requires cfg.Valid() && cfg.kind.Notifications? && Steady(cfg, hold, steps) && s == After(cfg, EMPTY, steps)
    requires LifeOk(cfg, hold, s) && QueueOk(cfg, s) && Spaced(cfg, s.emails)
    requires c in s.copies && s.copies[c].content.Readable?
    ensures FromCopy(s.emails, c) <= cfg.maxReceive
    ensures FromCopy(s.emails, c) <= CeilDiv(cfg.retention + hold, cfg.ttl)
  {
    var o, start := KeyOf(s.copies[c].content.reading), s.copies[c].sentAt;
    forall i | 0 <= i < |s.emails| && s.emails[i].delivery.copy == c
      ensures s.emails[i].order == o && start <= s.emails[i].at < start + (cfg.retention + hold) {
      assert SourceOk(cfg, hold, s, s.emails[i]);
    }
    FromCopyInWindow(s.emails, c, o, start, cfg.retention + hold);
    EmailsPerWindow(cfg, steps, o, start, cfg.retention + hold);
    assert CopyOk(cfg, s, c);
    forall n | n in Numbers(s.emails, c) ensures 1 <= n <= cfg.maxReceive {
      NumbersAreDeliveries(s.emails, c, n);
      var i :| 0 <= i < |s.emails| && s.emails[i].delivery == Delivery(c, n);
      assert SourceOk(cfg, hold, s, s.emails[i]);
    }
    OneEmailPerDelivery(cfg, s.emails, c);
    SetInRange(Numbers(s.emails, c), cfg.maxReceive);
  }

  // An email of c exists, so c does, was readable and was received in time.
  lemma SourceOfEmail(cfg: Config, hold: nat, s: Site, c: CopyId)
    requires LifeOk(cfg, hold, s) && Spaced(cfg, s.emails) && FromCopy(s.emails, c) >= 1
    ensures c in s.copies && s.copies[c].content.Readable? && cfg.retention >= 1
  {
    OneEmailPerDelivery(cfg, s.emails, c);
    assert Numbers(s.emails, c) != {};
    var n :| n in Numbers(s.emails, c);
    NumbersAreDeliveries(s.emails, c, n);
    var i :| 0 <= i < |s.emails| && s.emails[i].delivery == Delivery(c, n);
    assert SourceOk(cfg, hold, s, s.emails[i]);
  }

  // One message causes, in all its life, at most as many emails as it can be
  // delivered and as keys can expire in its retention and the hold after it.
  lemma EmailsFromOneCopy(cfg: Config, hold: nat, steps: seq<Step>, c: CopyId)
    requires cfg.Valid() && cfg.kind.Notifications? && Steady(cfg, hold, steps)
    ensures var emails := After(cfg, EMPTY, steps).emails;
            && FromCopy(emails, c) <= Min(cfg.maxReceive, CeilDiv(cfg.retention + hold, cfg.ttl))
            && (FromCopy(emails, c) >= 1 ==> cfg.retention >= 1)
  {
    var s := After(cfg, EMPTY, steps);
    LifeAlways(cfg, hold, EMPTY, steps);
    QueueAlways(cfg, EMPTY, steps);
    TimeAlways(cfg, EMPTY, steps);
    if FromCopy(s.emails, c) >= 1 {
      SourceOfEmail(cfg, hold, s, c);
      CountFromCopy(cfg, hold, steps, s, c);
    }
  }

  // So one at most, if a key lives as long as both together.
  lemma OnceIfKeyOutlives(cfg: Config, hold: nat, steps: seq<Step>, c: CopyId)
    requires cfg.Valid() && cfg.kind.Notifications? && Steady(cfg, hold, steps) && cfg.ttl >= cfg.retention + hold
    ensures FromCopy(After(cfg, EMPTY, steps).emails, c) <= 1
  {
    EmailsFromOneCopy(cfg, hold, steps, c);
    CeilOfLess(cfg.retention + hold, cfg.ttl);
  }

  lemma CeilOfLess(n: nat, d: nat)
    requires d >= 1 && n <= d
    ensures CeilDiv(n, d) <= 1
  {
    var q := CeilDiv(n, d);
    assert d * q + (n + d - 1) % d == n + d - 1;
    if q >= 2 { MulMonotone(d, 2, q); }
  }

  // ---- one copy, two emails ------------------------------------------------

  ghost predicate SteadyTo(cfg: Config, hold: nat, steps: seq<Step>, s: Site) {
    Steady(cfg, hold, steps) && After(cfg, EMPTY, steps) == s
  }

  lemma {:induction false} SteadyJoin(cfg: Config, hold: nat, s: Site, a: seq<Step>, step: Step)
    requires Run(cfg, s, a) && OneWorker(cfg, s, a) && HeldAtMost(cfg, hold, s, a)
    requires Enabled(cfg, After(cfg, s, a), step) && Prompt(hold, After(cfg, s, a), step)
    requires Handles(step) ==> Quiet(After(cfg, s, a))
    ensures Run(cfg, s, a + [step]) && OneWorker(cfg, s, a + [step]) && HeldAtMost(cfg, hold, s, a + [step])
    decreases |a|
  {
    if a == [] {
      RunOne(cfg, s, step);
      assert a + [step] == [step] && [step][1..] == [];
      assert OneWorker(cfg, Apply(cfg, s, step), []) && HeldAtMost(cfg, hold, Apply(cfg, s, step), []);
    } else {
      assert (a + [step])[0] == a[0] && (a + [step])[1..] == a[1..] + [step];
      SteadyJoin(cfg, hold, Apply(cfg, s, a[0]), a[1..], step);
    }
  }

  lemma DoSteady(cfg: Config, hold: nat, steps: seq<Step>, s: Site, step: Step) returns (steps': seq<Step>, s': Site)
    requires SteadyTo(cfg, hold, steps, s) && Enabled(cfg, s, step) && Truthful(step) && Prompt(hold, s, step)
    requires Handles(step) ==> Quiet(s)
    ensures steps' == steps + [step] && s' == Apply(cfg, s, step) && SteadyTo(cfg, hold, steps', s')
  {
    SteadyJoin(cfg, hold, EMPTY, steps, step);
    steps', s' := Do(cfg, steps, s, step);
  }

  // Copy 0 is the sample's, received k times.
  predicate Sample(s: Site, k: nat, place: Place) {
    && 0 in s.copies && s.copies[0].content == Readable(NOTICE) && s.copies[0].sentAt == 0
    && s.copies[0].receives == k && s.copies[0].place == place
  }

  lemma QueuedSteady(cfg: Config, hold: nat) returns (steps: seq<Step>, s: Site)
    requires cfg.kind.Notifications?
    ensures SteadyTo(cfg, hold, steps, s) && Sample(s, 0, Visible)
    ensures s.now == 0 && s.hands == map[] && s.store == map[] && s.emails == [] && s.accounts == map[]
  {
    ReadUndoesPublish(Notifications, map[], SAMPLE);
    steps, s := DoSteady(cfg, hold, [], EMPTY, Arrive(0, SampleBody()));
  }

  lemma Receives(cfg: Config, hold: nat, steps: seq<Step>, s: Site, k: nat) returns (steps': seq<Step>, s': Site)
    requires SteadyTo(cfg, hold, steps, s) && Sample(s, k, Visible) && s.hands == map[]
    requires k < cfg.maxReceive && s.now < cfg.retention
    ensures SteadyTo(cfg, hold, steps', s') && Sample(s', k + 1, InFlight)
    ensures s' == s.(copies := s'.copies, hands := map[Delivery(0, k + 1) := Fresh(s.now)])
  {
    steps', s' := DoSteady(cfg, hold, steps, s, Receive(0));
    assert s'.hands == map[Delivery(0, k + 1) := Fresh(s.now)];
  }

  lemma Claims(cfg: Config, hold: nat, steps: seq<Step>, s: Site, k: nat, at: int) returns (steps': seq<Step>, s': Site)
    requires cfg.kind.Notifications? && SteadyTo(cfg, hold, steps, s) && Sample(s, k, InFlight) && s.store == map[]
    requires s.hands == map[Delivery(0, k) := Fresh(at)] && s.now <= at + hold
    ensures SteadyTo(cfg, hold, steps', s') && Sample(s', k, InFlight) && s'.now == s.now && s'.emails == s.emails
    ensures s'.hands == map[Delivery(0, k) := Sending(ORDER, s.now)] && s'.store == KeySet(cfg, s.now)
    ensures AccountOf(s', ORDER) == AccountOf(s, ORDER).(claims := AccountOf(s, ORDER).claims + 1)
  {
    steps', s' := DoSteady(cfg, hold, steps, s, SetKey(Delivery(0, k)));
    assert s'.hands == map[Delivery(0, k) := Sending(ORDER, s.now)];
  }

  lemma Mails(cfg: Config, hold: nat, steps: seq<Step>, s: Site, k: nat, at: int) returns (steps': seq<Step>, s': Site)
    requires cfg.kind.Notifications? && SteadyTo(cfg, hold, steps, s) && Sample(s, k, InFlight)
    requires s.hands == map[Delivery(0, k) := Sending(ORDER, at)]
    ensures SteadyTo(cfg, hold, steps', s') && Sample(s', k, InFlight) && s'.now == s.now && s'.store == s.store
    ensures s'.hands == map[Delivery(0, k) := Clean(ORDER)] &&
            s'.emails == s.emails + [Email(ORDER, Delivery(0, k), at)]
  {
    steps', s' := DoSteady(cfg, hold, steps, s, SendOk(Delivery(0, k)));
    assert s'.hands == map[Delivery(0, k) := Clean(ORDER)];
  }

  // The worker dies before its delete and the message comes back.
  lemma Returns(cfg: Config, hold: nat, steps: seq<Step>, s: Site, k: nat) returns (steps': seq<Step>, s': Site)
    requires SteadyTo(cfg, hold, steps, s) && Sample(s, k, InFlight) && s.hands == map[Delivery(0, k) := Clean(ORDER)]
    ensures SteadyTo(cfg, hold, steps', s') && Sample(s', k, Visible)
    ensures s'.hands == map[] && s'.now == s.now && s'.store == s.store && s'.emails == s.emails
  {
    steps', s' := DoSteady(cfg, hold, steps, s, Drop(Delivery(0, k)));
    assert s'.hands == map[];
    steps', s' := DoSteady(cfg, hold, steps', s', Timeout(0));
  }

  lemma Waits(cfg: Config, hold: nat, steps: seq<Step>, s: Site, seconds: nat) returns (steps': seq<Step>, s': Site)
    requires SteadyTo(cfg, hold, steps, s)
    ensures SteadyTo(cfg, hold, steps', s') && s' == s.(now := s.now + seconds)
  {
    steps', s' := DoSteady(cfg, hold, steps, s, Tick(seconds));
  }

  lemma Expires(cfg: Config, hold: nat, steps: seq<Step>, s: Site, at: int) returns (steps': seq<Step>, s': Site)
    requires cfg.kind.Notifications? && SteadyTo(cfg, hold, steps, s) && s.store == KeySet(cfg, at) &&
             s.now >= at + cfg.ttl
    ensures SteadyTo(cfg, hold, steps', s') && s' == s.(store := map[], accounts := s'.accounts)
  {
    steps', s' := DoSteady(cfg, hold, steps, s, ExpireKey(ORDER));
    assert s'.store == map[];
  }

  // Claimed at 0 and mailed; back in the queue.
  lemma MailedOnce(cfg: Config, hold: nat) returns (steps: seq<Step>, s: Site)
    requires cfg.Valid() && cfg.kind.Notifications? && cfg.retention >= 1
    ensures SteadyTo(cfg, hold, steps, s) && Sample(s, 1, Visible) && s.now == 0 && s.hands == map[]
    ensures s.store == KeySet(cfg, 0) && s.emails == [Email(ORDER, Delivery(0, 1), 0)]
  {
    steps, s := QueuedSteady(cfg, hold);
    steps, s := Receives(cfg, hold, steps, s, 0);
    steps, s := Claims(cfg, hold, steps, s, 1, 0);
    steps, s := Mails(cfg, hold, steps, s, 1, 0);
    steps, s := Returns(cfg, hold, steps, s, 1);
  }

  // The second delivery is received while the message is retained ...
  lemma HeldAgain(cfg: Config, hold: nat, received: nat) returns (steps: seq<Step>, s: Site)
    requires cfg.Valid() && cfg.kind.Notifications? && cfg.maxReceive >= 2 && received < cfg.retention
    ensures SteadyTo(cfg, hold, steps, s) && Sample(s, 2, InFlight) && s.now == received
    ensures s.hands == map[Delivery(0, 2) := Fresh(received)]
    ensures s.store == KeySet(cfg, 0) && s.emails == [Email(ORDER, Delivery(0, 1), 0)]
  {
    steps, s := MailedOnce(cfg, hold);
    steps, s := Waits(cfg, hold, steps, s, received);
    steps, s := Receives(cfg, hold, steps, s, 1);
  }

  // ... and held until the key has expired.
  lemma MailedTwice(cfg: Config, hold: nat) returns (steps: seq<Step>, s: Site)
    requires cfg.Valid() && cfg.kind.Notifications? && cfg.retention >= 1 && cfg.maxReceive >= 2
    requires cfg.ttl < cfg.retention + hold
    ensures SteadyTo(cfg, hold, steps, s)
    ensures s.emails == [Email(ORDER, Delivery(0, 1), 0), Email(ORDER, Delivery(0, 2), cfg.ttl)]
  {
    var received := Min(cfg.ttl, cfg.retention - 1);
    steps, s := HeldAgain(cfg, hold, received);
    steps, s := Waits(cfg, hold, steps, s, cfg.ttl - received);
    steps, s := Expires(cfg, hold, steps, s, 0);
    steps, s := Claims(cfg, hold, steps, s, 2, received);
    steps, s := Mails(cfg, hold, steps, s, 2, cfg.ttl);
  }

  // Some steady run mails twice for one message.
  ghost predicate TwicePossible(cfg: Config, hold: nat) {
    exists steps, c :: Steady(cfg, hold, steps) && Twice(After(cfg, EMPTY, steps), c)
  }

  predicate Twice(s: Site, c: CopyId) { FromCopy(s.emails, c) >= 2 }

  lemma TwoCounted(first: Email, second: Email)
    requires first.delivery.copy == 0 && second.delivery.copy == 0
    ensures FromCopy([first, second], 0) == 2
  {
    assert [first, second][..1] == [first] && [first][..0] == [];
    assert FromCopy([first], 0) == FromCopy([first][..0], 0) + 1;
  }

  // One message can be notified twice exactly when its key can expire while
  // it is retained or held, and it may be delivered again.
  lemma TwiceIffTtlShorterThanLife(cfg: Config, hold: nat)
    requires cfg.Valid() && cfg.kind.Notifications?
    ensures TwicePossible(cfg, hold) <==> cfg.ttl < cfg.retention + hold && cfg.maxReceive >= 2 && cfg.retention >= 1
  {
    if cfg.ttl < cfg.retention + hold && cfg.maxReceive >= 2 && cfg.retention >= 1 {
      var steps, s := MailedTwice(cfg, hold);
      TwoCounted(s.emails[0], s.emails[1]);
      assert Twice(After(cfg, EMPTY, steps), 0);
    }
    forall steps, c | Steady(cfg, hold, steps) && Twice(After(cfg, EMPTY, steps), c)
      ensures cfg.ttl < cfg.retention + hold && cfg.maxReceive >= 2 && cfg.retention >= 1 {
      EmailsFromOneCopy(cfg, hold, steps, c);
      if cfg.ttl >= cfg.retention + hold { OnceIfKeyOutlives(cfg, hold, steps, c); }
    }
  }

  // A key that lives as long as the queue keeps a message is not enough: held
  // for one second past its retention, the message is notified again.
  lemma TtlOfRetentionIsNotEnough(cfg: Config)
    requires cfg.Valid() && cfg.kind.Notifications? && cfg.maxReceive >= 2 && cfg.ttl == cfg.retention
    ensures !TwicePossible(cfg, 0) && TwicePossible(cfg, 1)
  {
    TwiceIffTtlShorterThanLife(cfg, 0);
    TwiceIffTtlShorterThanLife(cfg, 1);
  }

  // The shipped values: 48 hours against 4 days. Two emails for one message
  // are possible without any hold, three are not; with a hold of at most two
  // days, no more than three.
  lemma ShippedValues(cfg: Config, steps: seq<Step>, hold: nat, c: CopyId)
    requires cfg == Config(Notifications, 5, 172_800, 345_600) && Steady(cfg, hold, steps)
    ensures var n := FromCopy(After(cfg, EMPTY, steps).emails, c);
            n <= 5 && (hold == 0 ==> n <= 2) && (hold <= 172_800 ==> n <= 3)
    ensures TwicePossible(cfg, 0)
  {
    EmailsFromOneCopy(cfg, hold, steps, c);
    TwiceIffTtlShorterThanLife(cfg, 0);
  }
}
