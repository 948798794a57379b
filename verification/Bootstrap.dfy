// bootstrap/main.py: create the topic, the queues with their dead-letter
// queues, and the subscriptions; safe to cut off, to run again, and to run
// again after a setting was edited.
//
// The calls are as AWS answers them: create_queue refuses a queue that exists
// with other attributes than those it is given, set_queue_attributes merges
// into a queue that must exist, subscribe returns the subscription there is.
// Any call may also fail on the way, applied or not, and ends the run.
module Bootstrap {
  import opened Base

  type Name = string

  datatype Redrive = Redrive(dlq: Name, maxReceive: nat)

  // What a queue has, or what a call gives of it; `sendFrom` is the topic the
  // policy lets in.
  datatype Attributes = Attributes(
    visibility: Option<nat>,
    wait: Option<nat>,
    retention: Option<nat>,
    redrive: Option<Redrive>,
    sendFrom: Option<Name>)
  {
    function Merge(given: Attributes): Attributes {
      Attributes(Or(visibility, given.visibility), Or(wait, given.wait), Or(retention, given.retention),
                 Or(redrive, given.redrive), Or(sendFrom, given.sendFrom))
    }

    // Every attribute given is there with the value given.
    predicate Agrees(given: Attributes) {
      && (given.visibility.Some? ==> visibility == given.visibility)
      && (given.wait.Some? ==> wait == given.wait)
      && (given.retention.Some? ==> retention == given.retention)
      && (given.redrive.Some? ==> redrive == given.redrive)
      && (given.sendFrom.Some? ==> sendFrom == given.sendFrom)
    }

    // Every attribute given is one of these, whatever its value.
    predicate Covers(given: Attributes) {
      && (given.visibility.Some? ==> visibility.Some?)
      && (given.wait.Some? ==> wait.Some?)
      && (given.retention.Some? ==> retention.Some?)
      && (given.redrive.Some? ==> redrive.Some?)
      && (given.sendFrom.Some? ==> sendFrom.Some?)
    }
  }

  function Or<T>(was: Option<T>, given: Option<T>): Option<T> { if given.Some? then given else was }

  const BARE: Attributes := Attributes(None, None, None, None, None)

  // What a queue created with no attributes has.
  const DEFAULTS: Attributes := Attributes(Some(30), Some(0), Some(345_600), None, None)

  datatype Filter = NoFilter | EventTypes(types: seq<string>)

  datatype Sub = Sub(topic: Name, queue: Name)

  datatype Cloud = Cloud(topics: set<Name>, queues: map<Name, Attributes>, subs: map<Sub, Filter>)

  const NOTHING_YET: Cloud := Cloud({}, map[], map[])

  const ORDER_CREATED: Filter := EventTypes(["OrderCreated"])

  datatype Config = Config(
    topic: Name,
    queues: seq<Name>,
    dlqFor: map<Name, Name>,
    visibility: nat,
    wait: nat,
    retention: nat,
    maxReceive: nat)
  {
    predicate Valid() { forall i :: 0 <= i < |queues| ==> queues[i] in dlqFor }

    function Settings(): Attributes { Attributes(Some(visibility), Some(wait), Some(retention), None, None) }

    function Grant(): Attributes { BARE.(sendFrom := Some(topic)) }

    // Settings, and the redrive policy of a queue that is not a dead-letter one.
    function Wanted(dlq: Option<Name>): Attributes {
      Settings().(redrive := if dlq.Some? then Some(Redrive(dlq.value, maxReceive)) else None)
    }
  }

  // ---- AWS -----------------------------------------------------------------

  datatype Call =
    | CreateTopic(t: Name)
    | CreateQueue(q: Name, given: Attributes)
    | SetAttributes(q: Name, given: Attributes)
    | Subscribe(t: Name, q: Name)
    | SetFilter(t: Name, q: Name, filter: Filter)

  function AttributesOf(c: Cloud, q: Name): Attributes { if q in c.queues then c.queues[q] else DEFAULTS }

  // A redrive policy must name a queue there is.
  predicate Targets(c: Cloud, given: Attributes) { given.redrive.Some? ==> given.redrive.value.dlq in c.queues }

  predicate Accepts(c: Cloud, call: Call) {
    match call
    case CreateTopic(_) => true
    case CreateQueue(q, given) => Targets(c, given) && (q in c.queues ==> c.queues[q].Agrees(given))
    case SetAttributes(q, given) => q in c.queues && Targets(c, given)
    case Subscribe(t, _) => t in c.topics
    case SetFilter(t, q, _) => Sub(t, q) in c.subs
  }

  function Perform(c: Cloud, call: Call): Cloud
    requires Accepts(c, call)
  {
    match call
    case CreateTopic(t) => c.(topics := c.topics + {t})
    case CreateQueue(q, given) => if q in c.queues then c else c.(queues := c.queues[q := DEFAULTS.Merge(given)])
    case SetAttributes(q, given) => c.(queues := c.queues[q := c.queues[q].Merge(given)])
    case Subscribe(t, q) => if Sub(t, q) in c.subs then c else c.(subs := c.subs[Sub(t, q) := NoFilter])
    case SetFilter(t, q, filter) => c.(subs := c.subs[Sub(t, q) := filter])
  }

  // What becomes of a call AWS would accept: answered; lost on the way there,
  // which is also where a killed script stops; applied, with the answer lost.
  datatype Fate = Fine | Lost | ReplyLost

  datatype Done = Done(cloud: Cloud, raised: bool)

  // The calls in order, up to the first that raises. Where `luck` ends, every
  // call is answered.
  function Execute(c: Cloud, calls: seq<Call>, luck: seq<Fate>): Done
    decreases |calls|
  {
    if calls == [] then Done(c, false)
    else if !Accepts(c, calls[0]) || FateOf(luck).Lost? then Done(c, true)
    else if FateOf(luck).ReplyLost? then Done(Perform(c, calls[0]), true)
    else Execute(Perform(c, calls[0]), calls[1..], Later(luck, 1))
  }

  function FateOf(luck: seq<Fate>): Fate { if luck == [] then Fine else luck[0] }

  function Later(luck: seq<Fate>, n: nat): seq<Fate> { if n <= |luck| then luck[n..] else [] }

  // ---- the script ----------------------------------------------------------

  // `bare` is the source's decision to create a queue with no attributes and
  // set them afterwards; otherwise they are given to create_queue.
  function EnsureQueueCalls(bare: bool, cfg: Config, name: Name, dlq: Option<Name>): seq<Call> {
    if bare then [CreateQueue(name, BARE), SetAttributes(name, cfg.Wanted(dlq))]
    else [CreateQueue(name, cfg.Wanted(dlq))]
  }

  function EnsureSubscriptionCalls(cfg: Config, name: Name): seq<Call> {
    [SetAttributes(name, cfg.Grant()), Subscribe(cfg.topic, name), SetFilter(cfg.topic, name, ORDER_CREATED)]
  }

  function TurnCalls(bare: bool, cfg: Config, name: Name): seq<Call>
    requires name in cfg.dlqFor
  {
    EnsureQueueCalls(bare, cfg, cfg.dlqFor[name], None)
      + EnsureQueueCalls(bare, cfg, name, Some(cfg.dlqFor[name]))
      + EnsureSubscriptionCalls(cfg, name)
  }

  // The script up to the first n queues.
  function ScriptTo(bare: bool, cfg: Config, n: nat): seq<Call>
    requires cfg.Valid() && n <= |cfg.queues|
  {
    if n == 0 then [CreateTopic(cfg.topic)]
    else ScriptTo(bare, cfg, n - 1) + TurnCalls(bare, cfg, cfg.queues[n - 1])
  }

  function Script(bare: bool, cfg: Config): seq<Call>
    requires cfg.Valid()
  {
    ScriptTo(bare, cfg, |cfg.queues|)
  }

  // ---- where a full run ends -----------------------------------------------

  function Mains(cfg: Config, n: nat): set<Name>
    requires n <= |cfg.queues|
  {
    set i | 0 <= i < n :: cfg.queues[i]
  }

  function Dlqs(cfg: Config, n: nat): set<Name>
    requires cfg.Valid() && n <= |cfg.queues|
  {
    set i | 0 <= i < n :: cfg.dlqFor[cfg.queues[i]]
  }

  predicate Named(cfg: Config, n: nat, q: Name)
    requires cfg.Valid() && n <= |cfg.queues|
  {
    q in Mains(cfg, n) || q in Dlqs(cfg, n)
  }

  // What one turn imposes on the queue q: all of it, settings alone, nothing.
  function TurnImposes(cfg: Config, name: Name, q: Name): Attributes
    requires name in cfg.dlqFor
  {
    if q == name then cfg.Wanted(Some(cfg.dlqFor[name])).Merge(cfg.Grant())
    else if q == cfg.dlqFor[name] then cfg.Settings()
    else BARE
  }

  // What the first n turns impose on the queue q.
  function Imposed(cfg: Config, n: nat, q: Name): Attributes
    requires cfg.Valid() && n <= |cfg.queues|
  {
    if q in Mains(cfg, n) then cfg.Wanted(Some(cfg.dlqFor[q])).Merge(cfg.Grant())
    else if q in Dlqs(cfg, n) then cfg.Settings()
    else BARE
  }

  // The topology after the first n turns: every queue of the script has what
  // is imposed on it and otherwise what it had; all else is as it was.
  function Finish(cfg: Config, n: nat, c: Cloud): Cloud
    requires cfg.Valid() && n <= |cfg.queues|
  {
    Cloud(c.topics + {cfg.topic}, FinishQueues(cfg, n, c), FinishSubs(cfg, n, c))
  }

  function FinishQueues(cfg: Config, n: nat, c: Cloud): map<Name, Attributes>
    requires cfg.Valid() && n <= |cfg.queues|
  {
    map q | q in c.queues.Keys + Mains(cfg, n) + Dlqs(cfg, n) :: AttributesOf(c, q).Merge(Imposed(cfg, n, q))
  }

  function FinishSubs(cfg: Config, n: nat, c: Cloud): map<Sub, Filter>
    requires cfg.Valid() && n <= |cfg.queues|
  {
    map p | p in c.subs.Keys + (set q | q in Mains(cfg, n) :: Sub(cfg.topic, q)) ::
      if p.topic == cfg.topic && p.queue in Mains(cfg, n) then ORDER_CREATED else c.subs[p]
  }

  function Goal(cfg: Config, c: Cloud): Cloud
    requires cfg.Valid()
  {
    Finish(cfg, |cfg.queues|, c)
  }

  // A queue there is with these attributes and what else it had.
  function Configured(c: Cloud, q: Name, given: Attributes): Cloud {
    c.(queues := c.queues[q := AttributesOf(c, q).Merge(given)])
  }

  function Subscribed(cfg: Config, c: Cloud, q: Name): Cloud {
    Configured(c, q, cfg.Grant()).(subs := c.subs[Sub(cfg.topic, q) := ORDER_CREATED])
  }

  function Turned(cfg: Config, c: Cloud, name: Name): Cloud
    requires name in cfg.dlqFor
  {
    var dlq := cfg.dlqFor[name];
    Subscribed(cfg, Configured(Configured(c, dlq, cfg.Wanted(None)), name, cfg.Wanted(Some(dlq))), name)
  }

  lemma NamesNext(cfg: Config, n: nat)
    requires cfg.Valid() && n < |cfg.queues|
    ensures Mains(cfg, n + 1) == Mains(cfg, n) + {cfg.queues[n]}
    ensures Dlqs(cfg, n + 1) == Dlqs(cfg, n) + {cfg.dlqFor[cfg.queues[n]]}
  {
  }

  lemma ImposedNext(cfg: Config, n: nat, q: Name)
    requires cfg.Valid() && n < |cfg.queues|
    ensures Imposed(cfg, n, q).Merge(TurnImposes(cfg, cfg.queues[n], q)) == Imposed(cfg, n + 1, q)
  {
    NamesNext(cfg, n);
  }

  lemma MergeJoins(a: Attributes, b: Attributes, d: Attributes)
    ensures a.Merge(b).Merge(d) == a.Merge(b.Merge(d))
  {
  }

  lemma TurnedQueues(cfg: Config, c: Cloud, name: Name)
    requires name in cfg.dlqFor
    ensures var after := Turned(cfg, c, name).queues;
            && after.Keys == c.queues.Keys + {name, cfg.dlqFor[name]}
            && forall q :: q in after ==> after[q] == AttributesOf(c, q).Merge(TurnImposes(cfg, name, q))
  {
  }

  lemma FinishNext(cfg: Config, n: nat, c: Cloud)
    requires cfg.Valid() && n < |cfg.queues|
    ensures Turned(cfg, Finish(cfg, n, c), cfg.queues[n]) == Finish(cfg, n + 1, c)
  {
    FinishNextQueues(cfg, n, c);
    FinishNextSubs(cfg, n, c);
  }

  lemma FinishNextQueues(cfg: Config, n: nat, c: Cloud)
    requires cfg.Valid() && n < |cfg.queues|
    ensures Turned(cfg, Finish(cfg, n, c), cfg.queues[n]).queues == FinishQueues(cfg, n + 1, c)
  {
    var before, after := Finish(cfg, n, c), Turned(cfg, Finish(cfg, n, c), cfg.queues[n]).queues;
    NamesNext(cfg, n);
    TurnedQueues(cfg, before, cfg.queues[n]);
    assert after.Keys == FinishQueues(cfg, n + 1, c).Keys;
    forall q | q in after ensures after[q] == FinishQueues(cfg, n + 1, c)[q] {
      FinishedQueue(cfg, n, c, q);
      MergeJoins(AttributesOf(c, q), Imposed(cfg, n, q), TurnImposes(cfg, cfg.queues[n], q));
      ImposedNext(cfg, n, q);
    }
  }

  lemma FinishedQueue(cfg: Config, n: nat, c: Cloud, q: Name)
    requires cfg.Valid() && n <= |cfg.queues|
    ensures AttributesOf(Finish(cfg, n, c), q) == AttributesOf(c, q).Merge(Imposed(cfg, n, q))
  {
    if q !in Finish(cfg, n, c).queues { assert q !in c.queues && Imposed(cfg, n, q) == BARE; }
  }

  lemma FinishNextSubs(cfg: Config, n: nat, c: Cloud)
    requires cfg.Valid() && n < |cfg.queues|
    ensures FinishSubs(cfg, n, c)[Sub(cfg.topic, cfg.queues[n]) := ORDER_CREATED] == FinishSubs(cfg, n + 1, c)
  {
    NamesNext(cfg, n);
  }

  // ---- a full run ----------------------------------------------------------

  lemma {:induction false} ExecuteJoin(c: Cloud, a: seq<Call>, b: seq<Call>, luck: seq<Fate>)
    ensures var d := Execute(c, a, luck);
            Execute(c, a + b, luck) == if d.raised then d else Execute(d.cloud, b, Later(luck, |a|))
    decreases |a|
  {
    if a == [] {
      assert a + b == b && Later(luck, 0) == luck;
    } else {
      assert (a + b)[0] == a[0] && (a + b)[1..] == a[1..] + b;
      if Accepts(c, a[0]) {
        ExecuteJoin(Perform(c, a[0]), a[1..], b, Later(luck, 1));
        assert Later(Later(luck, 1), |a| - 1) == Later(luck, |a|);
      }
    }
  }

  lemma RunJoin(c: Cloud, middle: Cloud, end: Cloud, a: seq<Call>, b: seq<Call>)
    requires Execute(c, a, []) == Done(middle, false) && Execute(middle, b, []) == Done(end, false)
    ensures Execute(c, a + b, []) == Done(end, false)
  {
    ExecuteJoin(c, a, b, []);
  }

  // A redrive target that exists by the time it is named.
  predicate HasTarget(c: Cloud, name: Name, dlq: Option<Name>) {
    dlq.Some? ==> dlq.value in c.queues || dlq.value == name
  }

  lemma EnsuresQueue(cfg: Config, c: Cloud, name: Name, dlq: Option<Name>)
    ensures var d := Execute(c, EnsureQueueCalls(true, cfg, name, dlq), []);
            if HasTarget(c, name, dlq) then d == Done(Configured(c, name, cfg.Wanted(dlq)), false) else d.raised
  {
    var calls := EnsureQueueCalls(true, cfg, name, dlq);
    var made := Perform(c, calls[0]);
    assert calls[1..] == [calls[1]] && [calls[1]][1..] == [];
    assert Execute(c, calls, []) == Execute(made, [calls[1]], []);
    assert made.queues[name] == AttributesOf(c, name);
    if HasTarget(c, name, dlq) {
      assert Execute(made, [calls[1]], []) == Execute(Perform(made, calls[1]), [], []);
      assert Perform(made, calls[1]).queues == Configured(c, name, cfg.Wanted(dlq)).queues;
    }
  }

  lemma EnsuresSubscription(cfg: Config, c: Cloud, name: Name)
    ensures var d := Execute(c, EnsureSubscriptionCalls(cfg, name), []);
            if name in c.queues && cfg.topic in c.topics then d == Done(Subscribed(cfg, c, name), false) else d.raised
  {
    var calls := EnsureSubscriptionCalls(cfg, name);
    if name !in c.queues { return; }
    var granted := Perform(c, calls[0]);
    assert calls[1..] == [calls[1], calls[2]] && calls[1..][1..] == [calls[2]] && [calls[2]][1..] == [];
    assert Execute(c, calls, []) == Execute(granted, calls[1..], []);
    if cfg.topic !in c.topics { return; }
    var subscribed := Perform(granted, calls[1]);
    assert Execute(subscribed, [calls[2]], []) == Execute(Perform(subscribed, calls[2]), [], []);
    assert Execute(granted, calls[1..], []) == Execute(subscribed, [calls[2]], []);
  }

  lemma TurnEnds(cfg: Config, c: Cloud, name: Name)
    requires name in cfg.dlqFor && cfg.topic in c.topics
    ensures Execute(c, TurnCalls(true, cfg, name), []) == Done(Turned(cfg, c, name), false)
  {
    var dlq := cfg.dlqFor[name];
    var a, b := EnsureQueueCalls(true, cfg, dlq, None), EnsureQueueCalls(true, cfg, name, Some(dlq));
    EnsuresQueue(cfg, c, dlq, None);
    var c1 := Configured(c, dlq, cfg.Wanted(None));
    EnsuresQueue(cfg, c1, name, Some(dlq));
    var c2 := Configured(c1, name, cfg.Wanted(Some(dlq)));
    EnsuresSubscription(cfg, c2, name);
    RunJoin(c, c1, c2, a, b);
    RunJoin(c, c2, Turned(cfg, c, name), a + b, EnsureSubscriptionCalls(cfg, name));
  }

  lemma {:induction false} AnsweredIsFull(c: Cloud, calls: seq<Call>, luck: seq<Fate>)
    requires !Execute(c, calls, luck).raised
    ensures Execute(c, calls, []) == Execute(c, calls, luck)
    decreases |calls|
  {
    if calls != [] { AnsweredIsFull(Perform(c, calls[0]), calls[1..], Later(luck, 1)); }
  }

  lemma RunsToTopic(cfg: Config, c: Cloud)
    requires cfg.Valid()
    ensures Execute(c, ScriptTo(true, cfg, 0), []) == Done(Finish(cfg, 0, c), false)
  {
    var calls := ScriptTo(true, cfg, 0);
    assert calls[1..] == [];
    assert Execute(c, calls, []) == Execute(Perform(c, calls[0]), [], []);
    assert Mains(cfg, 0) == {} && Dlqs(cfg, 0) == {};
    assert FinishQueues(cfg, 0, c) == c.queues && FinishSubs(cfg, 0, c) == c.subs;
  }

  lemma RunsOn(cfg: Config, c: Cloud, n: nat)
    requires cfg.Valid() && n < |cfg.queues|
    requires Execute(c, ScriptTo(true, cfg, n), []) == Done(Finish(cfg, n, c), false)
    ensures Execute(c, ScriptTo(true, cfg, n + 1), []) == Done(Finish(cfg, n + 1, c), false)
  {
    var script, turn, name := ScriptTo(true, cfg, n), TurnCalls(true, cfg, cfg.queues[n]), cfg.queues[n];
    TurnEnds(cfg, Finish(cfg, n, c), name);
    FinishNext(cfg, n, c);
    RunJoin(c, Finish(cfg, n, c), Finish(cfg, n + 1, c), script, turn);
  }

  // From any topology, whatever settings its queues have, a run in which every
  // call is answered does not raise and ends at the goal.
  lemma {:induction false} RunsToGoal(cfg: Config, c: Cloud, n: nat)
    requires cfg.Valid() && n <= |cfg.queues|
    ensures Execute(c, ScriptTo(true, cfg, n), []) == Done(Finish(cfg, n, c), false)
  {
    if n == 0 {
      RunsToTopic(cfg, c);
    } else {
      RunsToGoal(cfg, c, n - 1);
      RunsOn(cfg, c, n - 1);
    }
  }

  // ---- interrupted runs and edited settings --------------------------------

  // The same resources, perhaps with other settings.
  predicate SameNames(a: Config, b: Config) { a.topic == b.topic && a.queues == b.queues && a.dlqFor == b.dlqFor }

  // A call that touches nothing a full run under `cfg` would not overwrite.
  predicate Overwritten(cfg: Config, call: Call)
    requires cfg.Valid()
  {
    var n := |cfg.queues|;
    match call
    case CreateTopic(t) => t == cfg.topic
    case CreateQueue(q, given) => given == BARE && Named(cfg, n, q)
    case SetAttributes(q, given) => Named(cfg, n, q) && Imposed(cfg, n, q).Covers(given)
    case Subscribe(t, q) => t == cfg.topic && q in Mains(cfg, n)
    case SetFilter(t, q, _) => t == cfg.topic && q in Mains(cfg, n)
  }

  // Such a call leaves the goal where it was, whatever came before it.
  lemma GoalStays(cfg: Config, c: Cloud, call: Call)
    requires cfg.Valid() && Overwritten(cfg, call) && Accepts(c, call)
    ensures Goal(cfg, Perform(c, call)) == Goal(cfg, c)
  {
    match call
    case CreateTopic(_) =>
    case CreateQueue(q, _) => QueuesStay(cfg, c, call);
    case SetAttributes(q, _) => QueuesStay(cfg, c, call);
    case Subscribe(_, _) => SubsStay(cfg, c, call);
    case SetFilter(_, _, _) => SubsStay(cfg, c, call);
  }

  lemma QueuesStay(cfg: Config, c: Cloud, call: Call)
    requires cfg.Valid() && (call.CreateQueue? || call.SetAttributes?)
    requires Overwritten(cfg, call) && Accepts(c, call)
    ensures FinishQueues(cfg, |cfg.queues|, Perform(c, call)) == FinishQueues(cfg, |cfg.queues|, c)
  {
    var c', n := Perform(c, call), |cfg.queues|;
    assert FinishQueues(cfg, n, c').Keys == FinishQueues(cfg, n, c).Keys;
    assert AttributesOf(c', call.q).Merge(Imposed(cfg, n, call.q)) ==
           AttributesOf(c, call.q).Merge(Imposed(cfg, n, call.q));
    forall q | q in FinishQueues(cfg, n, c) ensures FinishQueues(cfg, n, c')[q] == FinishQueues(cfg, n, c)[q] {
      if q != call.q { assert AttributesOf(c', q) == AttributesOf(c, q); }
    }
  }

  lemma SubsStay(cfg: Config, c: Cloud, call: Call)
    requires cfg.Valid() && (call.Subscribe? || call.SetFilter?) && Overwritten(cfg, call) && Accepts(c, call)
    ensures FinishSubs(cfg, |cfg.queues|, Perform(c, call)) == FinishSubs(cfg, |cfg.queues|, c)
  {
  }

  lemma {:induction false} ScriptOverwritten(cfg: Config, was: Config, n: nat)
    requires cfg.Valid() && SameNames(cfg, was) && n <= |cfg.queues|
    ensures forall call :: call in ScriptTo(true, was, n) ==> Overwritten(cfg, call)
  {
    if n > 0 {
      ScriptOverwritten(cfg, was, n - 1);
      var name := cfg.queues[n - 1];
      assert name in Mains(cfg, |cfg.queues|) && cfg.dlqFor[name] in Dlqs(cfg, |cfg.queues|);
      forall call | call in TurnCalls(true, was, name) ensures Overwritten(cfg, call) { }
    }
  }

  lemma {:induction false} GoalStaysThrough(cfg: Config, c: Cloud, calls: seq<Call>, luck: seq<Fate>)
    requires cfg.Valid() && forall call :: call in calls ==> Overwritten(cfg, call)
    ensures Goal(cfg, Execute(c, calls, luck).cloud) == Goal(cfg, c)
    decreases |calls|
  {
    if calls != [] && Accepts(c, calls[0]) {
      GoalStays(cfg, c, calls[0]);
      GoalStaysThrough(cfg, Perform(c, calls[0]), calls[1..], Later(luck, 1));
    }
  }

  // From any topology: a run cut off at any call, applied or not, under these
  // or earlier settings of the same resources, and then a full run, ends
  // exactly where one full run would have, and does not raise.
  lemma RerunConverges(cfg: Config, was: Config, c: Cloud, luck: seq<Fate>)
    requires cfg.Valid() && SameNames(cfg, was)
    ensures Execute(Execute(c, Script(true, was), luck).cloud, Script(true, cfg), []) ==
            Execute(c, Script(true, cfg), [])
    ensures Execute(c, Script(true, cfg), []) == Done(Goal(cfg, c), false)
  {
    ScriptOverwritten(cfg, was, |cfg.queues|);
    GoalStaysThrough(cfg, c, Script(true, was), luck);
    RunsToGoal(cfg, c, |cfg.queues|);
    RunsToGoal(cfg, Execute(c, Script(true, was), luck).cloud, |cfg.queues|);
  }

  // Where the goal is: every queue and dead-letter queue has today's settings,
  // every queue its grant, its subscription and its own dead-letter queue.
  lemma GoalIsProvisioned(cfg: Config, c: Cloud, i: nat)
    requires cfg.Valid() && i < |cfg.queues|
    ensures var goal, q := Goal(cfg, c), cfg.queues[i]; var dlq := cfg.dlqFor[q];
            && q in goal.queues && dlq in goal.queues && cfg.topic in goal.topics
            && goal.queues[q] == Attributes(Some(cfg.visibility), Some(cfg.wait), Some(cfg.retention),
                                            Some(Redrive(dlq, cfg.maxReceive)), Some(cfg.topic))
            && goal.queues[dlq].visibility == Some(cfg.visibility)
            && goal.queues[dlq].wait == Some(cfg.wait) && goal.queues[dlq].retention == Some(cfg.retention)
            && Sub(cfg.topic, q) in goal.subs && goal.subs[Sub(cfg.topic, q)] == EventTypes(["OrderCreated"])
            // A dead-letter queue that is no queue of its own is left alone
            // otherwise, and so is everything the script does not name.
            && (dlq !in cfg.queues && dlq in c.queues ==>
                  && goal.queues[dlq].redrive == c.queues[dlq].redrive
                  && goal.queues[dlq].sendFrom == c.queues[dlq].sendFrom)
            && (forall x :: x in c.queues && !Named(cfg, |cfg.queues|, x) ==>
                  x in goal.queues && goal.queues[x] == c.queues[x])
  {
    var n := |cfg.queues|;
    assert cfg.queues[i] in Mains(cfg, n) && cfg.dlqFor[cfg.queues[i]] in Dlqs(cfg, n);
  }

  // ---- why the queues are created bare -------------------------------------

  // However an earlier run under other settings went, a run in which every
  // call is answered gets through.
  ghost predicate Rerunnable(bare: bool, cfg: Config)
    requires cfg.Valid()
  {
    forall c, was, luck :: SameNames(cfg, was) ==>
      !Execute(Execute(c, Script(bare, was), luck).cloud, Script(bare, cfg), []).raised
  }

  predicate KeepsVisibility(call: Call, q: Name) {
    match call
    case SetAttributes(_, given) => given.visibility.None?
    case _ => true
  }

  lemma {:induction false} VisibilityStays(c: Cloud, calls: seq<Call>, luck: seq<Fate>, q: Name)
    requires q in c.queues
    requires forall call :: call in calls ==> KeepsVisibility(call, q)
    ensures var after := Execute(c, calls, luck).cloud;
            q in after.queues && after.queues[q].visibility == c.queues[q].visibility
    decreases |calls|
  {
    if calls != [] && Accepts(c, calls[0]) {
      assert KeepsVisibility(calls[0], q);
      VisibilityStays(Perform(c, calls[0]), calls[1..], Later(luck, 1), q);
    }
  }

  lemma {:induction false} OnlyGrants(cfg: Config, n: nat, q: Name)
    requires cfg.Valid() && n <= |cfg.queues|
    ensures forall call :: call in ScriptTo(false, cfg, n) ==> KeepsVisibility(call, q)
  {
    if n > 0 {
      OnlyGrants(cfg, n - 1, q);
      forall call | call in TurnCalls(false, cfg, cfg.queues[n - 1]) ensures KeepsVisibility(call, q) { }
    }
  }

  // Topic first, then the first queue's dead-letter queue.
  lemma {:induction false} ScriptStarts(cfg: Config, n: nat)
    requires cfg.Valid() && 1 <= n <= |cfg.queues|
    ensures var s := ScriptTo(false, cfg, n);
            |s| >= 2 && s[0] == CreateTopic(cfg.topic) &&
            s[1] == CreateQueue(cfg.dlqFor[cfg.queues[0]], cfg.Wanted(None))
  {
    if n > 1 {
      ScriptStarts(cfg, n - 1);
    } else {
      assert ScriptTo(false, cfg, 1) == ScriptTo(false, cfg, 0) + TurnCalls(false, cfg, cfg.queues[0]);
    }
  }

  // The first run creates the dead-letter queue with its visibility timeout,
  // which is the one it has when the second run comes.
  lemma FirstRun(was: Config)
    requires was.Valid() && was.queues != []
    ensures var dlq, after := was.dlqFor[was.queues[0]], Execute(NOTHING_YET, Script(false, was), []).cloud;
            dlq in after.queues && after.queues[dlq].visibility == Some(was.visibility)
  {
    var s, dlq := Script(false, was), was.dlqFor[was.queues[0]];
    ScriptStarts(was, |was.queues|);
    OnlyGrants(was, |was.queues|, dlq);
    var c1 := Perform(NOTHING_YET, s[0]);
    assert s[1..][0] == s[1] && s[1..][1..] == s[2..];
    var c2 := Perform(c1, s[1]);
    assert Execute(NOTHING_YET, s, []) == Execute(c2, s[2..], []);
    VisibilityStays(c2, s[2..], [], dlq);
  }

  lemma EditedRunRaises(cfg: Config, was: Config, c: Cloud)
    requires cfg.Valid() && cfg.queues != [] && SameNames(cfg, was) && was.visibility != cfg.visibility
    requires var dlq := cfg.dlqFor[cfg.queues[0]];
             dlq in c.queues && c.queues[dlq].visibility == Some(was.visibility)
    ensures Execute(c, Script(false, cfg), []).raised
  {
    var s := Script(false, cfg);
    ScriptStarts(cfg, |cfg.queues|);
    var c1 := Perform(c, s[0]);
    assert s[1..][0] == s[1];
    assert !Accepts(c1, s[1]);
  }

  // Creating queues bare is what makes the script survive an edited setting:
  // given to create_queue, the attributes of the second run are refused.
  lemma RerunnableIffBare(bare: bool, cfg: Config)
    requires cfg.Valid() && cfg.queues != []
    ensures Rerunnable(bare, cfg) <==> bare
  {
    if bare {
      forall c, was, luck | SameNames(cfg, was)
        ensures !Execute(Execute(c, Script(bare, was), luck).cloud, Script(bare, cfg), []).raised {
        RerunConverges(cfg, was, c, luck);
      }
    } else {
      var was := cfg.(visibility := cfg.visibility + 1);
      FirstRun(was);
      EditedRunRaises(cfg, was, Execute(NOTHING_YET, Script(false, was), []).cloud);
      assert SameNames(cfg, was);
    }
  }

  // ---- order of the calls --------------------------------------------------

  // No subscription drops messages for want of a grant, and no redrive policy
  // names a dead-letter queue that does not exist.
  ghost predicate Sound(c: Cloud) {
    && (forall p :: p in c.subs ==> p.queue in c.queues && c.queues[p.queue].sendFrom.Some?)
    && (forall q :: q in c.queues ==> Targets(c, c.queues[q]))
  }

  // A queue is subscribed only once it has its grant.
  predicate Careful(c: Cloud, call: Call) {
    call.Subscribe? || call.SetFilter? ==> call.q in c.queues && c.queues[call.q].sendFrom.Some?
  }

  lemma SoundKept(c: Cloud, call: Call)
    requires Sound(c) && Accepts(c, call) && Careful(c, call)
    ensures Sound(Perform(c, call))
  {
    var c' := Perform(c, call);
    forall q | q in c'.queues ensures Targets(c', c'.queues[q]) {
      if q in c.queues { assert Targets(c, c.queues[q]); }
    }
  }

  ghost predicate AllCareful(c: Cloud, calls: seq<Call>)
    decreases |calls|
  {
    calls == [] || (Accepts(c, calls[0]) ==> Careful(c, calls[0]) && AllCareful(Perform(c, calls[0]), calls[1..]))
  }

  lemma {:induction false} SoundThrough(c: Cloud, calls: seq<Call>, luck: seq<Fate>)
    requires Sound(c) && AllCareful(c, calls)
    ensures Sound(Execute(c, calls, luck).cloud)
    decreases |calls|
  {
    if calls != [] && Accepts(c, calls[0]) {
      SoundKept(c, calls[0]);
      SoundThrough(Perform(c, calls[0]), calls[1..], Later(luck, 1));
    }
  }

  lemma {:induction false} CarefulJoin(c: Cloud, a: seq<Call>, b: seq<Call>)
    requires AllCareful(c, a) && forall x :: AllCareful(x, b)
    ensures AllCareful(c, a + b)
    decreases |a|
  {
    if a == [] {
      assert a + b == b;
    } else {
      assert (a + b)[0] == a[0] && (a + b)[1..] == a[1..] + b;
      if Accepts(c, a[0]) { CarefulJoin(Perform(c, a[0]), a[1..], b); }
    }
  }

  lemma {:induction false} NoneSubscribes(c: Cloud, calls: seq<Call>)
    requires forall call :: call in calls ==> !call.Subscribe? && !call.SetFilter?
    ensures AllCareful(c, calls)
    decreases |calls|
  {
    if calls != [] && Accepts(c, calls[0]) {
      assert calls[0] in calls;
      NoneSubscribes(Perform(c, calls[0]), calls[1..]);
    }
  }

  lemma SubscriptionCareful(cfg: Config, c: Cloud, name: Name)
    ensures AllCareful(c, EnsureSubscriptionCalls(cfg, name))
  {
    var calls := EnsureSubscriptionCalls(cfg, name);
    if Accepts(c, calls[0]) {
      var granted := Perform(c, calls[0]);
      assert granted.queues[name].sendFrom.Some?;
      assert calls[1..][0] == calls[1] && calls[1..][1..] == [calls[2]];
      if Accepts(granted, calls[1]) {
        var subscribed := Perform(granted, calls[1]);
        assert [calls[2]][1..] == [];
        assert AllCareful(subscribed, [calls[2]]);
      }
      assert AllCareful(granted, calls[1..]);
    }
  }

  lemma TurnCareful(cfg: Config, c: Cloud, name: Name)
    requires name in cfg.dlqFor
    ensures AllCareful(c, TurnCalls(true, cfg, name))
  {
    var queues := EnsureQueueCalls(true, cfg, cfg.dlqFor[name], None) +
                  EnsureQueueCalls(true, cfg, name, Some(cfg.dlqFor[name]));
    NoneSubscribes(c, queues);
    forall x ensures AllCareful(x, EnsureSubscriptionCalls(cfg, name)) { SubscriptionCareful(cfg, x, name); }
    CarefulJoin(c, queues, EnsureSubscriptionCalls(cfg, name));
  }

  lemma {:induction false} ScriptCareful(cfg: Config, c: Cloud, n: nat)
    requires cfg.Valid() && n <= |cfg.queues|
    ensures AllCareful(c, ScriptTo(true, cfg, n))
  {
    if n == 0 {
      NoneSubscribes(c, ScriptTo(true, cfg, 0));
    } else {
      ScriptCareful(cfg, c, n - 1);
      var turn := TurnCalls(true, cfg, cfg.queues[n - 1]);
      forall x ensures AllCareful(x, turn) { TurnCareful(cfg, x, cfg.queues[n - 1]); }
      CarefulJoin(c, ScriptTo(true, cfg, n - 1), turn);
    }
  }

  // Wherever the script is cut off, what exists works: every subscribed queue
  // has its grant and every redrive its dead-letter queue.
  lemma SoundAtEveryCut(cfg: Config, c: Cloud, luck: seq<Fate>)
    requires cfg.Valid() && Sound(c)
    ensures Sound(Execute(c, Script(true, cfg), luck).cloud)
  {
    ScriptCareful(cfg, c, |cfg.queues|);
    SoundThrough(c, Script(true, cfg), luck);
  }

  // ---- verification --------------------------------------------------------

  // Every queue is subscribed and redrives to its own dead-letter queue.
  ghost predicate Wired(cfg: Config, c: Cloud)
    requires cfg.Valid()
  {
    forall i :: 0 <= i < |cfg.queues| ==> QueueWired(cfg, c, cfg.queues[i])
  }

  predicate QueueWired(cfg: Config, c: Cloud, q: Name)
    requires q in cfg.dlqFor
  {
    && q in c.queues && cfg.dlqFor[q] in c.queues && Sub(cfg.topic, q) in c.subs
    && c.queues[q].redrive.Some? && c.queues[q].redrive.value.dlq == cfg.dlqFor[q]
  }

  // An exit code, or an exception out of the script, which is no zero either.
  datatype Exit = Code(n: nat) | Raised

  // ---- the process ---------------------------------------------------------

  class Aws {
    const cfg: Config
    var cloud: Cloud
    var luck: seq<Fate>        // what the calls to come will meet

    constructor (cfg: Config, cloud: Cloud, luck: seq<Fate>)
      ensures this.cfg == cfg && this.cloud == cloud && this.luck == luck
    {
      this.cfg, this.cloud, this.luck := cfg, cloud, luck;
    }

    // Some calls have been made, and the first that raised ended them.
    twostate predicate Made(calls: seq<Call>, raised: bool)
      reads this
    {
      Execute(old(cloud), calls, old(luck)) == Done(cloud, raised) && (!raised ==> luck == Later(old(luck), |calls|))
    }

    method Make(call: Call) returns (raised: bool)
      modifies `cloud, `luck
      ensures Made([call], raised)
    {
      assert [call][1..] == [];
      var fate := FateOf(luck);
      raised := !Accepts(cloud, call) || !fate.Fine?;
      if Accepts(cloud, call) && !fate.Lost? { cloud := Perform(cloud, call); }
      luck := Later(luck, 1);
    }

    // The queue there is, or a new one, gets these settings and keeps what
    // else it had; no other queue changes, and no subscription. It can be
    // refused for want of the dead-letter queue only.
    method EnsureQueue(name: Name, dlq: Option<Name>) returns (raised: bool)
      modifies `cloud, `luck
      ensures Made(EnsureQueueCalls(true, cfg, name, dlq), raised)
      ensures !raised ==> cloud == Configured(old(cloud), name, cfg.Wanted(dlq))
      ensures !raised ==> name in cloud.queues && Configured(cloud, name, cfg.Wanted(dlq)) == cloud
      ensures !raised ==>
                var q, was := cloud.queues[name], old(cloud).queues;
                && q.visibility == Some(cfg.visibility)
                && q.wait == Some(cfg.wait)
                && q.retention == Some(cfg.retention)
                && (dlq.Some? ==> q.redrive == Some(Redrive(dlq.value, cfg.maxReceive)))
                && (dlq.None? ==> q.redrive == if name in was then was[name].redrive else None)
                && q.sendFrom == if name in was then was[name].sendFrom else None
      ensures !raised ==> cloud.topics == old(cloud).topics && cloud.subs == old(cloud).subs
      ensures !raised ==> cloud.queues.Keys == old(cloud).queues.Keys + {name}
      ensures !raised ==> forall x :: x in old(cloud).queues && x != name ==> cloud.queues[x] == old(cloud).queues[x]
      ensures old(luck) == [] ==> (raised <==> !HasTarget(old(cloud), name, dlq))
    {
      ghost var calls, c, l := EnsureQueueCalls(true, cfg, name, dlq), cloud, luck;
      EnsuresQueue(cfg, c, name, dlq);
      raised := Make(CreateQueue(name, BARE));
      ExecuteJoin(c, [calls[0]], [calls[1]], l);
      assert calls == [calls[0]] + [calls[1]];
      if !raised { raised := Make(SetAttributes(name, cfg.Wanted(dlq))); }
      if !raised {
        AnsweredIsFull(c, calls, l);
        assert Later(Later(l, 1), 1) == Later(l, 2);
      }
    }

    // The queue is granted, subscribed once, and filtered, whether or not it
    // was before; nothing else changes.
    method EnsureSubscription(name: Name) returns (raised: bool)
      modifies `cloud, `luck
      ensures Made(EnsureSubscriptionCalls(cfg, name), raised)
      ensures !raised ==> cloud == Subscribed(cfg, old(cloud), name)
      ensures !raised ==> name in cloud.queues && Subscribed(cfg, cloud, name) == cloud
      ensures !raised ==>
                && name in old(cloud).queues
                && cloud.queues == old(cloud).queues[name := old(cloud).queues[name].(sendFrom := Some(cfg.topic))]
                && cloud.subs == old(cloud).subs[Sub(cfg.topic, name) := EventTypes(["OrderCreated"])]
                && cloud.topics == old(cloud).topics
      ensures old(luck) == [] ==> (raised <==> name !in old(cloud).queues || cfg.topic !in old(cloud).topics)
    {
      ghost var calls, c, l := EnsureSubscriptionCalls(cfg, name), cloud, luck;
      EnsuresSubscription(cfg, c, name);
      raised := Make(SetAttributes(name, cfg.Grant()));
      ExecuteJoin(c, [calls[0]], calls[1..], l);
      assert calls == [calls[0]] + calls[1..];
      if !raised { raised := SubscribeAndFilter(name); }
      if !raised {
        AnsweredIsFull(c, calls, l);
        assert Later(Later(l, 1), 2) == Later(l, 3);
      }
    }

    method SubscribeAndFilter(name: Name) returns (raised: bool)
      modifies `cloud, `luck
      ensures Made(EnsureSubscriptionCalls(cfg, name)[1..], raised)
    {
      ghost var calls, c, l := EnsureSubscriptionCalls(cfg, name), cloud, luck;
      raised := Make(Subscribe(cfg.topic, name));
      ExecuteJoin(c, [calls[1]], [calls[2]], l);
      assert calls[1..] == [calls[1]] + [calls[2]];
      if !raised { raised := Make(SetFilter(cfg.topic, name, ORDER_CREATED)); }
      assert Later(Later(l, 1), 1) == Later(l, 2);
    }

    // One turn of the loop in main: the dead-letter queue comes first.
    method WireQueue(name: Name) returns (raised: bool)
      requires name in cfg.dlqFor
      modifies `cloud, `luck
      ensures Made(TurnCalls(true, cfg, name), raised)
    {
      var dlq := cfg.dlqFor[name];
      ghost var c, l := cloud, luck;
      ghost var a, b := EnsureQueueCalls(true, cfg, dlq, None), EnsureQueueCalls(true, cfg, name, Some(dlq));
      ghost var s := EnsureSubscriptionCalls(cfg, name);
      ExecuteJoin(c, a, b, l);
      ExecuteJoin(c, a + b, s, l);
      raised := EnsureQueue(dlq, None);
      if !raised { raised := EnsureQueue(name, Some(dlq)); }
      assert Later(Later(l, |a|), |b|) == Later(l, |a + b|);
      if !raised { raised := EnsureSubscription(name); }
      assert Later(Later(l, |a + b|), |s|) == Later(l, |a + b + s|);
    }

    // The i-th turn, after the script's calls up to there.
    method WireNext(i: nat, ghost c: Cloud, ghost l: seq<Fate>) returns (raised: bool)
      requires cfg.Valid() && i < |cfg.queues|
      requires Execute(c, ScriptTo(true, cfg, i), l) == Done(cloud, false)
      requires luck == Later(l, |ScriptTo(true, cfg, i)|)
      modifies `cloud, `luck
      ensures !raised ==> Execute(c, ScriptTo(true, cfg, i + 1), l) == Done(cloud, false)
      ensures !raised ==> luck == Later(l, |ScriptTo(true, cfg, i + 1)|)
      ensures raised ==> Execute(c, Script(true, cfg), l) == Done(cloud, true)
    {
      ghost var done, turn := ScriptTo(true, cfg, i), TurnCalls(true, cfg, cfg.queues[i]);
      raised := WireQueue(cfg.queues[i]);
      ExecuteJoin(c, done, turn, l);
      assert Later(Later(l, |done|), |turn|) == Later(l, |done + turn|);
      if raised { StopsThere(cfg, c, i + 1, l); }
    }

    // The part of main that makes changes.
    method Provision() returns (raised: bool)
      requires cfg.Valid()
      modifies `cloud, `luck
      ensures Made(Script(true, cfg), raised)
    {
      assert ScriptTo(true, cfg, 0) == [CreateTopic(cfg.topic)];
      raised := Make(CreateTopic(cfg.topic));
      if raised { StopsThere(cfg, old(cloud), 0, old(luck)); }
      var i := 0;
      while i < |cfg.queues| && !raised
        invariant 0 <= i <= |cfg.queues|
        invariant !raised ==> Made(ScriptTo(true, cfg, i), false)
        invariant raised ==> Made(Script(true, cfg), true)
        decreases |cfg.queues| - i
      {
        raised := WireNext(i, old(cloud), old(luck));
        i := i + 1;
      }
    }

    // The last lines of main: check what actually exists. Whatever happened
    // before, 0 means every queue is subscribed and redrives to its own
    // dead-letter queue; a queue that does not exist raises; and 1 is the rest.
    method Verify(readsFine: bool) returns (exit: Exit)
      requires cfg.Valid()
      ensures exit == Code(0) <==>
                readsFine && forall i :: 0 <= i < |cfg.queues| ==>
                  var q := cfg.queues[i]; var dlq := cfg.dlqFor[q];
                  && q in cloud.queues && dlq in cloud.queues && Sub(cfg.topic, q) in cloud.subs
                  && cloud.queues[q].redrive.Some? && cloud.queues[q].redrive.value.dlq == dlq
      ensures !readsFine || (exists i :: 0 <= i < |cfg.queues| && cfg.queues[i] !in cloud.queues) ==> exit == Raised
      ensures readsFine && (forall i :: 0 <= i < |cfg.queues| ==> Exists(cfg.queues[i])) ==> exit.Code? && exit.n <= 1
    {
      if !readsFine { return Raised; }
      var missing := false;
      var i := 0;
      while i < |cfg.queues|
        invariant 0 <= i <= |cfg.queues|
        invariant forall k :: 0 <= k < i ==> cfg.queues[k] in cloud.queues
        invariant missing <==> exists k :: 0 <= k < i && Sub(cfg.topic, cfg.queues[k]) !in cloud.subs
      {
        if cfg.queues[i] !in cloud.queues { return Raised; }
        if Sub(cfg.topic, cfg.queues[i]) !in cloud.subs { missing := true; }
        i := i + 1;
      }
      if missing { return Code(1); }
      i := 0;
      while i < |cfg.queues|
        invariant 0 <= i <= |cfg.queues|
        invariant forall k :: 0 <= k < i ==> QueueWired(cfg, cloud, cfg.queues[k])
      {
        var q := cfg.queues[i];
        var dlq, redrive := cfg.dlqFor[q], cloud.queues[q].redrive;
        if redrive.None? || dlq !in cloud.queues || redrive.value.dlq != dlq {
          assert !QueueWired(cfg, cloud, cfg.queues[i]);
          return if redrive.Some? && dlq !in cloud.queues then Raised else Code(1);
        }
        i := i + 1;
      }
      return Code(0);
    }

    // The queue and its dead-letter queue are there.
    predicate Exists(q: Name)
      requires q in cfg.dlqFor
      reads this
    {
      q in cloud.queues && cfg.dlqFor[q] in cloud.queues
    }

    // main. Whatever becomes of it, the calls made were a part of the script
    // from its start; 0 means all of it, ending at the goal; and a run in
    // which every call and check is answered returns 0 from any topology.
    method Bootstrap() returns (exit: Exit)
      requires cfg.Valid()
      modifies `cloud, `luck
      ensures cloud == Execute(old(cloud), Script(true, cfg), old(luck)).cloud
      ensures exit == Code(0) ==> cloud == Goal(cfg, old(cloud)) && Wired(cfg, cloud)
      ensures old(luck) == [] ==> exit == Code(0)
      ensures Execute(old(cloud), Script(true, cfg), old(luck)).raised ==> exit == Raised
    {
      ghost var c, l := cloud, luck;
      RunsToGoal(cfg, c, |cfg.queues|);
      var raised := Provision();
      if raised { return Raised; }
      AnsweredIsFull(c, Script(true, cfg), l);
      forall i | 0 <= i < |cfg.queues| ensures QueueWired(cfg, cloud, cfg.queues[i]) { GoalIsProvisioned(cfg, c, i); }
      exit := Verify(FateOf(luck).Fine?);
    }
  }

  // A run that has raised by the i-th queue makes no more calls.
  lemma {:induction false} StopsThere(cfg: Config, c: Cloud, i: nat, luck: seq<Fate>)
    requires cfg.Valid() && i <= |cfg.queues| && Execute(c, ScriptTo(true, cfg, i), luck).raised
    ensures Execute(c, Script(true, cfg), luck) == Execute(c, ScriptTo(true, cfg, i), luck)
    decreases |cfg.queues| - i
  {
    if i < |cfg.queues| {
      ExecuteJoin(c, ScriptTo(true, cfg, i), TurnCalls(true, cfg, cfg.queues[i]), luck);
      StopsThere(cfg, c, i + 1, luck);
    }
  }
}
