// Which accidents can lose a notification. notifications/service.py says only
// a hard kill can; two others can too, with one worker and no process dying.
module Loss {
  import opened Messages
  import opened Consumers
  import opened Notify
  import opened Expiry

  // The accidents a run may contain: a death between claim and send, a
  // release that fails, a SET that is applied but whose reply is lost.
  datatype Accidents = Accidents(deaths: bool, releases: bool, replies: bool)

  predicate Within(may: Accidents, a: Account) {
    && (a.gapCrashes > 0 ==> may.deaths)
    && (a.failedReleases > 0 ==> may.releases)
    && (a.lostReplies > 0 ==> may.replies)
  }

  // One worker: whenever a message has been deleted, its order's email went
  // out, in every run with no other accidents than these.
  ghost predicate AlwaysNotifies(cfg: Config, may: Accidents) {
    forall steps, c :: Run(cfg, EMPTY, steps) && OneWorker(cfg, EMPTY, steps) ==>
      NotifiedOrNot(After(cfg, EMPTY, steps), may, c)
  }

  ghost predicate NotifiedOrNot(s: Site, may: Accidents, c: CopyId) {
    c in s.copies && s.copies[c].place.Deleted? && s.copies[c].content.Readable? ==>
      var a := AccountOf(s, KeyOf(s.copies[c].content.reading));
      Within(may, a) ==> a.emails >= 1
  }

  // The first delivery ended with the key set, nothing sent, and no worker on it.
  ghost predicate Abandoned(cfg: Config, may: Accidents, steps: seq<Step>, s: Site) {
    && SteadyTo(cfg, 0, steps, s) && s.now == 0
    && Sample(s, 1, InFlight) && s.hands == map[] && s.store == KeySet(cfg, 0)
    && AccountOf(s, ORDER).emails == 0 && Within(may, AccountOf(s, ORDER))
  }

  lemma ReceivedSteady(cfg: Config) returns (steps: seq<Step>, s: Site)
    requires cfg.Valid() && cfg.kind.Notifications? && cfg.retention >= 1
    ensures SteadyTo(cfg, 0, steps, s) && s.now == 0 && Sample(s, 1, InFlight) && s.store == map[] &&
            s.accounts == map[]
    ensures s.hands == map[Delivery(0, 1) := Fresh(0)] && s.emails == []
  {
    steps, s := QueuedSteady(cfg, 0);
    steps, s := Receives(cfg, 0, steps, s, 0);
  }

  lemma ReplyIsLost(cfg: Config, may: Accidents) returns (steps: seq<Step>, s: Site)
    requires cfg.Valid() && cfg.kind.Notifications? && cfg.retention >= 1 && may.replies
    ensures Abandoned(cfg, may, steps, s)
  {
    steps, s := ReceivedSteady(cfg);
    steps, s := DoSteady(cfg, 0, steps, s, SetReplyLost(Delivery(0, 1)));
    assert s.hands == map[];
  }

  lemma WorkerDies(cfg: Config, may: Accidents) returns (steps: seq<Step>, s: Site)
    requires cfg.Valid() && cfg.kind.Notifications? && cfg.retention >= 1 && may.deaths
    ensures Abandoned(cfg, may, steps, s)
  {
    steps, s := ReceivedSteady(cfg);
    steps, s := Claims(cfg, 0, steps, s, 1, 0);
    steps, s := DoSteady(cfg, 0, steps, s, Drop(Delivery(0, 1)));
    assert s.hands == map[];
  }

  lemma ReleaseFails(cfg: Config, may: Accidents) returns (steps: seq<Step>, s: Site)
    requires cfg.Valid() && cfg.kind.Notifications? && cfg.retention >= 1 && may.releases
    ensures Abandoned(cfg, may, steps, s)
  {
    var d := Delivery(0, 1);
    steps, s := ReceivedSteady(cfg);
    steps, s := Claims(cfg, 0, steps, s, 1, 0);
    steps, s := DoSteady(cfg, 0, steps, s, SendRaises(d, false));
    assert s.hands == map[d := Releasing(ORDER)];
    steps, s := DoSteady(cfg, 0, steps, s, Release(d, false));
    assert s.hands == map[];
  }

  lemma Redelivered(cfg: Config, may: Accidents, steps: seq<Step>, s: Site) returns (steps': seq<Step>, s': Site)
    requires cfg.Valid() && cfg.kind.Notifications? && cfg.retention >= 1 && cfg.maxReceive >= 2
    requires Abandoned(cfg, may, steps, s)
    ensures SteadyTo(cfg, 0, steps', s') && s'.accounts == s.accounts && s'.store == s.store && s'.now == 0
    ensures Sample(s', 2, InFlight) && s'.hands == map[Delivery(0, 2) := Fresh(0)]
  {
    steps', s' := DoSteady(cfg, 0, steps, s, Timeout(0));
    steps', s' := Receives(cfg, 0, steps', s', 1);
  }

  // The redelivery finds the key, is called a duplicate, and is deleted.
  lemma DeletedAsDuplicate(cfg: Config, may: Accidents, steps: seq<Step>, s: Site) returns (steps': seq<Step>, s': Site)
    requires cfg.Valid() && cfg.kind.Notifications? && cfg.retention >= 1 && cfg.maxReceive >= 2
    requires Abandoned(cfg, may, steps, s)
    ensures SteadyTo(cfg, 0, steps', s') && s'.accounts == s.accounts
    ensures 0 in s'.copies && s'.copies[0].place.Deleted? && s'.copies[0].content == Readable(NOTICE)
  {
    steps', s' := Redelivered(cfg, may, steps, s);
    steps', s' := DoSteady(cfg, 0, steps', s', Duplicate(Delivery(0, 2)));
    assert s'.hands == map[Delivery(0, 2) := Clean(ORDER)];
    steps', s' := DoSteady(cfg, 0, steps', s', Delete(Delivery(0, 2), true));
  }

  // Each of the three accidents is enough to lose a notification, and without
  // any of them none is lost.
  lemma NotifiesIffNoAccident(cfg: Config, may: Accidents)
    requires cfg.Valid() && cfg.kind.Notifications? && cfg.retention >= 1 && cfg.maxReceive >= 2
    ensures AlwaysNotifies(cfg, may) <==> !may.deaths && !may.releases && !may.replies
  {
    if may.deaths || may.releases || may.replies {
      var steps, s;
      if may.replies { steps, s := ReplyIsLost(cfg, may); }
      else if may.deaths { steps, s := WorkerDies(cfg, may); }
      else { steps, s := ReleaseFails(cfg, may); }
      steps, s := DeletedAsDuplicate(cfg, may, steps, s);
      assert !NotifiedOrNot(s, may, 0);
    } else {
      forall steps, c | Run(cfg, EMPTY, steps) && OneWorker(cfg, EMPTY, steps)
        ensures NotifiedOrNot(After(cfg, EMPTY, steps), may, c) {
        LossAlways(cfg, EMPTY, steps);
        assert GoneAccounted(After(cfg, EMPTY, steps), c);
      }
    }
  }
}
