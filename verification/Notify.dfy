// notifications/service.py: what a claim in Redis followed by a send that no
// transaction covers can and cannot promise.
module Notify {
  import opened Arithmetic
  import opened Base
  import opened Messages
  import opened Consumers

  // ---- deliveries in the gap -----------------------------------------------

  // Whether d is a delivery of order o between claim and send (or, with
  // `raised`, between a failed send and the release of its key).
  predicate InGap(hands: map<Delivery, Phase>, d: Delivery, o: Key, raised: bool) {
    d in hands && PhaseInGap(hands[d], o, raised)
  }

  predicate PhaseInGap(p: Phase, o: Key, raised: bool) {
    (if raised then p.Releasing? else p.Sending?) && p.order == o
  }

  ghost function GapOf(hands: map<Delivery, Phase>, o: Key, raised: bool): set<Delivery> {
    set d | d in hands && InGap(hands, d, o, raised)
  }

  lemma SizeWithout<T>(a: set<T>, x: T)
    ensures |a - {x}| == |a| - One(x in a)
  {
    if x in a { assert a == (a - {x}) + {x}; } else { assert a - {x} == a; }
  }

  lemma SizeWith<T>(a: set<T>, x: T)
    requires x !in a
    ensures |a + {x}| == |a| + 1
  {
  }

  lemma GapAfter(hands: map<Delivery, Phase>, c: Change, o: Key, raised: bool)
    requires !c.Same?
    ensures var before, after := GapOf(hands, o, raised), GapOf(Changed(hands, c), o, raised);
            after == (before - {c.d}) + if c.Put? && PhaseInGap(c.p, o, raised) then {c.d} else {}
  {
    forall d ensures InGap(Changed(hands, c), d, o, raised) <==>
                       (d != c.d && InGap(hands, d, o, raised)) || (d == c.d && c.Put? && PhaseInGap(c.p, o, raised)) {
    }
  }

  lemma CountGap(hands: map<Delivery, Phase>, c: Change, o: Key, raised: bool)
    requires !c.Same?
    ensures |GapOf(Changed(hands, c), o, raised)| ==
              |GapOf(hands, o, raised)| - One(InGap(hands, c.d, o, raised)) + One(c.Put? && PhaseInGap(c.p, o, raised))
  {
    var before := GapOf(hands, o, raised);
    GapAfter(hands, c, o, raised);
    SizeWithout(before, c.d);
    assert c.d in before <==> InGap(hands, c.d, o, raised);
    if c.Put? && PhaseInGap(c.p, o, raised) { SizeWith(before - {c.d}, c.d); }
  }

  // ---- the books of one order ----------------------------------------------

  // Every claim led to a send that went out, one that did not, or a death.
  ghost predicate ClaimsSpent(s: Site, o: Key) {
    var a := AccountOf(s, o);
    a.claims == a.emails + a.unsent + a.gapCrashes + |GapOf(s.hands, o, false)|
  }

  // Every key that was set is still there, has expired, or was released.
  ghost predicate KeysKept(s: Site, o: Key) {
    var a := AccountOf(s, o);
    a.claims + a.lostReplies == a.expiries + a.releases + One(o in s.store)
  }

  // Only a send that raised can release.
  ghost predicate ReleasesEarned(s: Site, o: Key) {
    var a := AccountOf(s, o);
    a.releases + |GapOf(s.hands, o, true)| <= a.ambiguous + a.unsent
  }

  ghost predicate AccountOk(s: Site, o: Key) {
    ClaimsSpent(s, o) && KeysKept(s, o) && ReleasesEarned(s, o)
  }

  lemma ReceiveIsNew(cfg: Config, s: Site, step: Step)
    requires Enabled(cfg, s, step) && QueueOk(cfg, s) && step.Receive?
    ensures Delivery(step.c, s.copies[step.c].receives + 1) !in s.hands
  {
    assert CopyOk(cfg, s, step.c) && HandOk(cfg, s, Delivery(step.c, s.copies[step.c].receives + 1));
  }

  lemma ClaimsSpentKept(cfg: Config, s: Site, step: Step, o: Key)
    requires cfg.kind.Notifications? && Enabled(cfg, s, step) && QueueOk(cfg, s) && ClaimsSpent(s, o)
    ensures ClaimsSpent(Apply(cfg, s, step), o)
  {
    var change := ChangeOf(cfg, s, step);
    if !change.Same? { CountGap(s.hands, change, o, false); }
    if step.Receive? { ReceiveIsNew(cfg, s, step); }
  }

  lemma ReleasesEarnedKept(cfg: Config, s: Site, step: Step, o: Key)
    requires cfg.kind.Notifications? && Enabled(cfg, s, step) && QueueOk(cfg, s) && ReleasesEarned(s, o)
    ensures ReleasesEarned(Apply(cfg, s, step), o)
  {
    var change := ChangeOf(cfg, s, step);
    if !change.Same? { CountGap(s.hands, change, o, true); }
    if step.Receive? { ReceiveIsNew(cfg, s, step); }
  }

  lemma KeysKeptKept(cfg: Config, s: Site, step: Step, o: Key)
    requires cfg.kind.Notifications? && Enabled(cfg, s, step) && KeysKept(s, o)
    ensures KeysKept(Apply(cfg, s, step), o)
  {
  }

  lemma AccountKept(cfg: Config, s: Site, step: Step, o: Key)
    requires cfg.kind.Notifications? && Enabled(cfg, s, step) && QueueOk(cfg, s)
    requires AccountOk(s, o)
    ensures AccountOk(Apply(cfg, s, step), o)
  {
    ClaimsSpentKept(cfg, s, step, o);
    KeysKeptKept(cfg, s, step, o);
    ReleasesEarnedKept(cfg, s, step, o);
  }

  lemma {:induction false} AccountsAlways(cfg: Config, s: Site, steps: seq<Step>)
    requires cfg.kind.Notifications? && QueueOk(cfg, s) && (forall o :: AccountOk(s, o)) && Run(cfg, s, steps)
    ensures forall o :: AccountOk(After(cfg, s, steps), o)
    decreases |steps|
  {
    if steps != [] {
      forall o ensures AccountOk(Apply(cfg, s, steps[0]), o) { AccountKept(cfg, s, steps[0], o); }
      QueueKept(cfg, s, steps[0]);
      AccountsAlways(cfg, Apply(cfg, s, steps[0]), steps[1..]);
    }
  }

  // The emails that went out for an order, the expiries of its key, and its
  // sends that went out yet raised.
  function EmailsTo(emails: seq<Email>, o: Key): nat {
    if emails == [] then 0
    else EmailsTo(emails[..|emails| - 1], o) + One(emails[|emails| - 1].order == o)
  }

  function Expiries(steps: seq<Step>, o: Key): nat {
    if steps == [] then 0 else One(steps[0] == ExpireKey(o)) + Expiries(steps[1..], o)
  }

  ghost function Ambiguous(cfg: Config, s: Site, steps: seq<Step>, o: Key): nat
    requires Run(cfg, s, steps)
    decreases |steps|
  {
    if steps == [] then 0
    else
      One(steps[0].SendRaises? && steps[0].out && s.hands[steps[0].d].order == o)
      + Ambiguous(cfg, Apply(cfg, s, steps[0]), steps[1..], o)
  }

  lemma BookkeptByStep(cfg: Config, s: Site, step: Step, o: Key)
    requires Enabled(cfg, s, step)
    ensures var s' := Apply(cfg, s, step); var a, a' := AccountOf(s, o), AccountOf(s', o);
            && EmailsTo(s'.emails, o) - EmailsTo(s.emails, o) == a'.emails - a.emails
            && a'.expiries == a.expiries + One(step == ExpireKey(o))
            && a'.ambiguous == a.ambiguous + One(step.SendRaises? && step.out && s.hands[step.d].order == o)
  {
    var s' := Apply(cfg, s, step);
    if s'.emails != s.emails { assert s'.emails[..|s'.emails| - 1] == s.emails; }
  }

  // The accounts are right.
  lemma {:induction false} Bookkept(cfg: Config, s: Site, steps: seq<Step>, o: Key)
    requires Run(cfg, s, steps)
    ensures var s' := After(cfg, s, steps); var a, a' := AccountOf(s, o), AccountOf(s', o);
            && EmailsTo(s'.emails, o) - EmailsTo(s.emails, o) == a'.emails - a.emails
            && a'.expiries == a.expiries + Expiries(steps, o)
            && a'.ambiguous == a.ambiguous + Ambiguous(cfg, s, steps, o)
    decreases |steps|
  {
    if steps != [] {
      BookkeptByStep(cfg, s, steps[0], o);
      Bookkept(cfg, Apply(cfg, s, steps[0]), steps[1..], o);
    }
  }

  // Over any interleaving of any number of workers, crashes and redeliveries:
  // at most one email per order, plus one for each expired key and each send
  // that went out yet raised.
  lemma EmailsAtMost(cfg: Config, steps: seq<Step>, o: Key)
    requires cfg.kind.Notifications? && Run(cfg, EMPTY, steps)
    ensures EmailsTo(After(cfg, EMPTY, steps).emails, o) <=
              1 + Expiries(steps, o) + Ambiguous(cfg, EMPTY, steps, o)
  {
    Bookkept(cfg, EMPTY, steps, o);
    forall x ensures AccountOk(EMPTY, x) {
      assert GapOf(EMPTY.hands, x, false) == {} && GapOf(EMPTY.hands, x, true) == {};
    }
    AccountsAlways(cfg, EMPTY, steps);
    assert AccountOk(After(cfg, EMPTY, steps), o);
  }

  // ---- when a notification is lost -----------------------------------------

  // One worker process: no handler starts while another is between its claim
  // and the end of its send.
  ghost predicate Quiet(s: Site) {
    forall d :: d in s.hands ==> !s.hands[d].Sending? && !s.hands[d].Releasing?
  }

  ghost predicate OneWorker(cfg: Config, s: Site, steps: seq<Step>)
    requires Run(cfg, s, steps)
    decreases |steps|
  {
    steps != [] ==>
      && (Handles(steps[0]) ==> Quiet(s))
      && OneWorker(cfg, Apply(cfg, s, steps[0]), steps[1..])
  }

  function Faults(s: Site, o: Key): nat {
    var a := AccountOf(s, o);
    a.gapCrashes + a.failedReleases + a.lostReplies
  }

  predicate Settled(s: Site, o: Key) { AccountOf(s, o).emails >= 1 || Faults(s, o) >= 1 }

  ghost predicate Busy(s: Site, o: Key) {
    exists d :: d in s.hands && (s.hands[d].Sending? || s.hands[d].Releasing?) && s.hands[d].order == o
  }

  // The key is set: an email went out, a fault happened, or the handler that
  // set it is still at work.
  ghost predicate KeyAccounted(s: Site, o: Key) { o in s.store ==> Settled(s, o) || Busy(s, o) }

  ghost predicate DoneAccounted(s: Site, d: Delivery) {
    d in s.hands && s.hands[d].Clean? ==> Settled(s, s.hands[d].order)
  }

  ghost predicate GoneAccounted(s: Site, c: CopyId) {
    c in s.copies && s.copies[c].place.Deleted? ==>
      s.copies[c].content.Readable? && Settled(s, KeyOf(s.copies[c].content.reading))
  }

  ghost predicate LossOk(s: Site) {
    && (forall o :: KeyAccounted(s, o))
    && (forall d :: DoneAccounted(s, d))
    && (forall c :: GoneAccounted(s, c))
  }

  lemma SettledStays(cfg: Config, s: Site, step: Step, o: Key)
    requires Enabled(cfg, s, step) && Settled(s, o)
    ensures Settled(Apply(cfg, s, step), o)
  {
  }

  lemma KeyAccountedKept(cfg: Config, s: Site, step: Step, o: Key)
    requires cfg.kind.Notifications? && Enabled(cfg, s, step) && QueueOk(cfg, s)
    requires KeyAccounted(s, o)
    ensures KeyAccounted(Apply(cfg, s, step), o)
  {
    var s' := Apply(cfg, s, step);
    if o in s'.store && !Settled(s', o) {
      if Settled(s, o) { SettledStays(cfg, s, step, o); }
      if step.SetKey? && KeyAt(s, step.d) == o {
        assert step.d in s'.hands;
      } else {
        var d :| d in s.hands && (s.hands[d].Sending? || s.hands[d].Releasing?) && s.hands[d].order == o;
        if step.Receive? { ReceiveIsNew(cfg, s, step); }
        assert d in s'.hands;
      }
    }
  }

  lemma DoneAccountedKept(cfg: Config, s: Site, step: Step, d: Delivery)
    requires cfg.kind.Notifications? && Enabled(cfg, s, step) && DoneAccounted(s, d)
    requires step.Duplicate? ==> Quiet(s) && KeyAccounted(s, KeyAt(s, step.d))
    ensures DoneAccounted(Apply(cfg, s, step), d)
  {
    if d in s.hands && s.hands[d].Clean? { SettledStays(cfg, s, step, s.hands[d].order); }
  }

  lemma GoneAccountedKept(cfg: Config, s: Site, step: Step, c: CopyId)
    requires Enabled(cfg, s, step) && GoneAccounted(s, c)
    requires step.Delete? ==> HandOk(cfg, s, step.d) && DoneAccounted(s, step.d)
    ensures GoneAccounted(Apply(cfg, s, step), c)
  {
    if c in s.copies && s.copies[c].place.Deleted? {
      SettledStays(cfg, s, step, KeyOf(s.copies[c].content.reading));
    }
    if step.Delete? { SettledStays(cfg, s, step, s.hands[step.d].order); }
  }

  lemma LossKept(cfg: Config, s: Site, step: Step)
    requires cfg.kind.Notifications? && Enabled(cfg, s, step) && QueueOk(cfg, s) && LossOk(s)
    requires Handles(step) ==> Quiet(s)
    ensures LossOk(Apply(cfg, s, step))
  {
    var s' := Apply(cfg, s, step);
    forall o ensures KeyAccounted(s', o) { assert KeyAccounted(s, o); KeyAccountedKept(cfg, s, step, o); }
    if step.Duplicate? { assert KeyAccounted(s, KeyAt(s, step.d)); }
    forall d ensures DoneAccounted(s', d) { assert DoneAccounted(s, d); DoneAccountedKept(cfg, s, step, d); }
    if step.Delete? { assert HandOk(cfg, s, step.d) && DoneAccounted(s, step.d); }
    forall c ensures GoneAccounted(s', c) { assert GoneAccounted(s, c); GoneAccountedKept(cfg, s, step, c); }
  }

  lemma {:induction false} LossAlways(cfg: Config, s: Site, steps: seq<Step>)
    requires cfg.kind.Notifications? && QueueOk(cfg, s) && LossOk(s)
    requires Run(cfg, s, steps) && OneWorker(cfg, s, steps)
    ensures LossOk(After(cfg, s, steps))
    decreases |steps|
  {
    if steps != [] {
      LossKept(cfg, s, steps[0]);
      QueueKept(cfg, s, steps[0]);
      LossAlways(cfg, Apply(cfg, s, steps[0]), steps[1..]);
    }
  }

  // A notification lost without cause: a message of the order was deleted, no
  // email went out, and nobody died in the gap, failed to release, or lost
  // the reply to a SET.
  ghost predicate LostWithoutFault(s: Site, c: CopyId) {
    && c in s.copies && s.copies[c].place.Deleted? && s.copies[c].content.Readable?
    && var o := KeyOf(s.copies[c].content.reading);
       AccountOf(s, o).emails == 0 && Faults(s, o) == 0
  }

  ghost predicate NeverLostWithoutFault(cfg: Config, oneWorker: bool) {
    forall steps, c :: Run(cfg, EMPTY, steps) && (oneWorker ==> OneWorker(cfg, EMPTY, steps)) ==>
      !LostWithoutFault(After(cfg, EMPTY, steps), c)
  }

  // ---- a second worker -----------------------------------------------------

  // The sample order's event, as Notifications reads it.
  const SAMPLE: Event := BuildMessage(1, SampleRow(1, 0))
  const NOTICE: Reading := ReadingOf(Notifications, SAMPLE)
  const ORDER: Key := UuidText(1)

  function SampleBody(): Text { SnsBody(map[], EncodeEvent(SAMPLE)) }

  // The key a handler set at `at`.
  function KeySet(cfg: Config, at: int): map<Key, Effect> { map[ORDER := Claim(NOTICE.first, at + cfg.ttl)] }

  // Copy 0 is the sample's, received k times and in flight.
  ghost predicate Holding(s: Site, k: nat, phases: map<Delivery, Phase>) {
    && 0 in s.copies && s.copies[0].content == Readable(NOTICE) && s.copies[0].sentAt == 0
    && s.copies[0].receives == k && s.copies[0].place.InFlight?
    && s.hands == phases
  }

  lemma Queued(cfg: Config) returns (steps: seq<Step>, s: Site)
    requires cfg.kind.Notifications?
    ensures Reached(cfg, steps, s) && steps == [Arrive(0, SampleBody())]
    ensures s == EMPTY.(copies := map[0 := Copy(SampleBody(), Readable(NOTICE), 0, Visible, 0, multiset{})])
  {
    ReadUndoesPublish(Notifications, map[], SAMPLE);
    steps, s := Do(cfg, [], EMPTY, Arrive(0, SampleBody()));
  }

  lemma FirstReceived(cfg: Config) returns (steps: seq<Step>, s: Site)
    requires cfg.Valid() && cfg.kind.Notifications? && cfg.retention >= 1
    ensures Reached(cfg, steps, s) && s.now == 0
    ensures Holding(s, 1, map[Delivery(0, 1) := Fresh(0)]) && s.store == map[] && s.accounts == map[]
  {
    steps, s := Queued(cfg);
    steps, s := Do(cfg, steps, s, Receive(0));
    assert s.hands == map[Delivery(0, 1) := Fresh(0)];
  }

  lemma FirstClaims(cfg: Config) returns (steps: seq<Step>, s: Site)
    requires cfg.Valid() && cfg.kind.Notifications? && cfg.retention >= 1
    ensures Reached(cfg, steps, s) && s.now == 0
    ensures Holding(s, 1, map[Delivery(0, 1) := Sending(ORDER, 0)])
    ensures s.store == KeySet(cfg, 0) && s.accounts == map[ORDER := NOTHING.(claims := 1)]
  {
    steps, s := FirstReceived(cfg);
    steps, s := Do(cfg, steps, s, SetKey(Delivery(0, 1)));
    assert s.hands == map[Delivery(0, 1) := Sending(ORDER, 0)];
  }

  lemma FirstOverruns(cfg: Config) returns (steps: seq<Step>, s: Site)
    requires cfg.Valid() && cfg.kind.Notifications? && cfg.maxReceive >= 2 && cfg.retention >= 1
    ensures Reached(cfg, steps, s) && s.now == 0
    ensures Holding(s, 2, map[Delivery(0, 1) := Sending(ORDER, 0), Delivery(0, 2) := Fresh(0)])
    ensures s.store == KeySet(cfg, 0) && s.accounts == map[ORDER := NOTHING.(claims := 1)]
  {
    steps, s := FirstClaims(cfg);
    steps, s := Do(cfg, steps, s, Timeout(0));
    steps, s := Do(cfg, steps, s, Receive(0));
    assert s.hands == map[Delivery(0, 1) := Sending(ORDER, 0), Delivery(0, 2) := Fresh(0)];
  }

  lemma SecondWorkerDeletes(cfg: Config, steps: seq<Step>, s: Site) returns (steps': seq<Step>, s': Site)
    requires cfg.Valid() && cfg.kind.Notifications? && Reached(cfg, steps, s) && s.now == 0
    requires Holding(s, 2, map[Delivery(0, 1) := Sending(ORDER, 0), Delivery(0, 2) := Fresh(0)])
    requires s.store == KeySet(cfg, 0)
    ensures Reached(cfg, steps', s')
    ensures s'.hands == map[Delivery(0, 1) := Sending(ORDER, 0)] && s'.accounts == s.accounts
    ensures 0 in s'.copies && s'.copies[0].content == Readable(NOTICE) && s'.copies[0].place.Deleted?
  {
    steps', s' := Do(cfg, steps, s, Duplicate(Delivery(0, 2)));
    steps', s' := Do(cfg, steps', s', Delete(Delivery(0, 2), true));
    assert s'.hands == map[Delivery(0, 1) := Sending(ORDER, 0)];
  }

  // The handler outlasts its visibility timeout; a second worker sees the
  // key, calls the message a duplicate and deletes it; then the first send
  // fails and its key is released. Nobody will send that email.
  lemma OverrunLoses(cfg: Config) returns (steps: seq<Step>)
    requires cfg.Valid() && cfg.kind.Notifications? && cfg.maxReceive >= 2 && cfg.retention >= 1
    ensures Run(cfg, EMPTY, steps) && LostWithoutFault(After(cfg, EMPTY, steps), 0)
  {
    var s;
    steps, s := FirstOverruns(cfg);
    steps, s := SecondWorkerDeletes(cfg, steps, s);
    steps, s := Do(cfg, steps, s, SendRaises(Delivery(0, 1), false));
    assert s.hands == map[Delivery(0, 1) := Releasing(ORDER)];
    steps, s := Do(cfg, steps, s, Release(Delivery(0, 1), true));
  }

  // With redelivery possible at all, loss needs one of the three faults in
  // every run exactly when only one worker process runs.
  lemma LossNeedsFaultIffOneWorker(cfg: Config, oneWorker: bool)
    requires cfg.Valid() && cfg.kind.Notifications? && cfg.maxReceive >= 2 && cfg.retention >= 1
    ensures NeverLostWithoutFault(cfg, oneWorker) <==> oneWorker
  {
    if oneWorker {
      forall steps, c | Run(cfg, EMPTY, steps) && OneWorker(cfg, EMPTY, steps)
        ensures !LostWithoutFault(After(cfg, EMPTY, steps), c) {
        LossAlways(cfg, EMPTY, steps);
        assert GoneAccounted(After(cfg, EMPTY, steps), c);
      }
    } else {
      var steps := OverrunLoses(cfg);
    }
  }
}
