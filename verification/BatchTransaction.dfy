// The transaction relay_batch does not use: one that stays open over several
// rows and marks them all in one commit. The relay protocol is as it is but
// for where a transaction ends; `size` is how many rows one may hold, and 1 is
// the code.
module BatchTransaction {
  import opened Arithmetic
  import opened Base
  import opened Outbox
  import opened RelayProtocol

  // `open` lists the rows a relay has published in its open transaction and
  // gone on from; their locks are held and their marks are pending. Of the
  // accounts in `base`, only the accepted messages are kept up here.
  datatype Wide = Wide(base: State, open: map<RelayId, seq<EventId>>)

  const NONE_OPEN: Wide := Wide(EMPTY, map[])

  datatype WideStep =
    | Narrow(step: Step)
    | GoOn(r: RelayId)
    | CommitAll(r: RelayId)
    | Die(r: RelayId)

  function OpenOf(w: Wide, r: RelayId): seq<EventId> { if r in w.open then w.open[r] else [] }

  // What a relay does in the middle of its transaction.
  predicate Inside(step: Step) { step.Lock? || step.Skip? || step.PublishOk? }

  ghost predicate CanDo(cfg: RelayConfig, size: nat, w: Wide, ws: WideStep) {
    match ws
    case Narrow(step) =>
      Enabled(cfg, CODE, w.base, step) && (step.Insert? || Inside(step) || OpenOf(w, step.r) == [])
    case GoOn(r) => PcOf(w.base, r).Gap? && |OpenOf(w, r)| + 1 < size
    case CommitAll(r) =>
      PcOf(w.base, r).Gap? && forall id :: id in OpenOf(w, r) + [PcOf(w.base, r).id] ==> id in w.base.rows
    case Die(r) => PcOf(w.base, r).Gap?
  }

  function MarkAll(rows: Table, ids: seq<EventId>): Table {
    map id | id in rows :: if id in ids then Mark(rows[id]) else rows[id]
  }

  function Without(locks: map<EventId, RelayId>, ids: seq<EventId>): map<EventId, RelayId> {
    map id | id in locks && id !in ids :: locks[id]
  }

  function Next(cfg: RelayConfig, size: nat, w: Wide, ws: WideStep): Wide
    requires CanDo(cfg, size, w, ws)
  {
    match ws
    case Narrow(step) => w.(base := Apply(cfg, CODE, w.base, step))
    case GoOn(r) =>
      var pc := PcOf(w.base, r);
      Wide(w.base.(relays := w.base.relays[r := Batch(pc.rest)]), w.open[r := OpenOf(w, r) + [pc.id]])
    case CommitAll(r) =>
      var pc := PcOf(w.base, r);
      var ids := OpenOf(w, r) + [pc.id];
      Wide(State(MarkAll(w.base.rows, ids), Without(w.base.locks, ids),
                 w.base.relays[r := Batch(pc.rest)], w.base.tally),
           w.open[r := []])
    case Die(r) =>
      var ids := OpenOf(w, r) + [PcOf(w.base, r).id];
      Wide(State(w.base.rows, Without(w.base.locks, ids), w.base.relays[r := Idle], w.base.tally), w.open[r := []])
  }

  ghost predicate WideRun(cfg: RelayConfig, size: nat, w: Wide, steps: seq<WideStep>)
    decreases |steps|
  {
    steps == [] || (CanDo(cfg, size, w, steps[0]) && WideRun(cfg, size, Next(cfg, size, w, steps[0]), steps[1..]))
  }

  ghost function WideAfter(cfg: RelayConfig, size: nat, w: Wide, steps: seq<WideStep>): Wide
    requires WideRun(cfg, size, w, steps)
    decreases |steps|
  {
    if steps == [] then w else WideAfter(cfg, size, Next(cfg, size, w, steps[0]), steps[1..])
  }

  predicate Harmless(ws: WideStep) { ws.Narrow? ==> OnlyDies(ws.step) }

  predicate AllHarmless(steps: seq<WideStep>) { forall i :: 0 <= i < |steps| ==> Harmless(steps[i]) }

  predicate Death(ws: WideStep) { ws.Die? || (ws.Narrow? && ws.step.Crash?) }

  function Deaths(steps: seq<WideStep>): nat {
    if steps == [] then 0 else One(Death(steps[0])) + Deaths(steps[1..])
  }

  // With deaths the only fault, duplicates over all rows together are no more
  // than the deaths.
  ghost predicate OnePerDeath(cfg: RelayConfig, size: nat) {
    forall steps, ids :: WideRun(cfg, size, NONE_OPEN, steps) && AllHarmless(steps) ==>
      Sum(ExtraOf(WideAfter(cfg, size, NONE_OPEN, steps).base), ids) <= Deaths(steps)
  }

  // ---- one row a transaction: the code -------------------------------------

  function AsCode(ws: WideStep): Step {
    match ws
    case Narrow(step) => step
    case GoOn(r) => Commit(r)
    case CommitAll(r) => Commit(r)
    case Die(r) => Crash(r, 0)
  }

  function AllAsCode(steps: seq<WideStep>): seq<Step> {
    if steps == [] then [] else [AsCode(steps[0])] + AllAsCode(steps[1..])
  }

  ghost predicate Same(s: State, t: State) {
    && s.rows == t.rows && s.locks == t.locks && s.relays == t.relays
    && forall id :: TallyOf(s, id).accepted == TallyOf(t, id).accepted
  }

  ghost predicate NothingOpen(w: Wide) { forall r :: OpenOf(w, r) == [] }

  lemma StepIsCode(cfg: RelayConfig, w: Wide, s: State, ws: WideStep)
    requires CanDo(cfg, 1, w, ws) && Same(w.base, s) && NothingOpen(w)
    ensures Enabled(cfg, CODE, s, AsCode(ws)) && NothingOpen(Next(cfg, 1, w, ws))
    ensures Same(Next(cfg, 1, w, ws).base, Apply(cfg, CODE, s, AsCode(ws)))
  {
    var w' := Next(cfg, 1, w, ws);
    if ws.Narrow? {
      SameStep(cfg, w.base, s, ws.step);
      forall r ensures OpenOf(w', r) == [] { assert OpenOf(w, r) == []; }
    } else {
      EndIsCode(cfg, w, s, ws);
      forall r ensures OpenOf(w', r) == [] { assert OpenOf(w, r) == []; }
    }
  }

  lemma EndIsCode(cfg: RelayConfig, w: Wide, s: State, ws: WideStep)
    requires CanDo(cfg, 1, w, ws) && Same(w.base, s) && !ws.Narrow? && OpenOf(w, ws.r) == []
    ensures !ws.GoOn? && Enabled(cfg, CODE, s, AsCode(ws))
    ensures Same(Next(cfg, 1, w, ws).base, Apply(cfg, CODE, s, AsCode(ws)))
  {
    var s', w' := Apply(cfg, CODE, s, AsCode(ws)), Next(cfg, 1, w, ws);
    assert OpenOf(w, ws.r) + [PcOf(w.base, ws.r).id] == [PcOf(s, ws.r).id];
    assert w'.base.locks == s'.locks;
    assert w'.base.rows == s'.rows;
    forall id ensures TallyOf(s', id).accepted == TallyOf(w'.base, id).accepted {
      assert TallyOf(s, id).accepted == TallyOf(w.base, id).accepted;
    }
  }

  lemma SameStep(cfg: RelayConfig, s: State, t: State, step: Step)
    requires Same(s, t) && Enabled(cfg, CODE, s, step)
    ensures Enabled(cfg, CODE, t, step) && Same(Apply(cfg, CODE, s, step), Apply(cfg, CODE, t, step))
  {
    forall id
      ensures TallyOf(Apply(cfg, CODE, s, step), id).accepted == TallyOf(Apply(cfg, CODE, t, step), id).accepted
    {
      EmitsCounted(cfg, s, step, id);
      EmitsCounted(cfg, t, step, id);
      assert TallyOf(s, id).accepted == TallyOf(t, id).accepted;
    }
  }

  lemma {:induction false} SizeOneIsCode(cfg: RelayConfig, w: Wide, s: State, steps: seq<WideStep>)
    requires WideRun(cfg, 1, w, steps) && Same(w.base, s) && NothingOpen(w) && AllHarmless(steps)
    ensures Run(cfg, CODE, s, AllAsCode(steps)) && OnlyCrashes(AllAsCode(steps))
    ensures Same(WideAfter(cfg, 1, w, steps).base, After(cfg, CODE, s, AllAsCode(steps)))
    ensures Crashes(AllAsCode(steps)) == Deaths(steps)
    decreases |steps|
  {
    if steps != [] {
      var rest := steps[1..];
      StepIsCode(cfg, w, s, steps[0]);
      assert Harmless(steps[0]);
      assert AllHarmless(rest) by {
        forall i | 0 <= i < |rest| ensures Harmless(rest[i]) { assert rest[i] == steps[i + 1]; }
      }
      SizeOneIsCode(cfg, Next(cfg, 1, w, steps[0]), Apply(cfg, CODE, s, AsCode(steps[0])), rest);
      var code := AllAsCode(steps);
      assert code[1..] == AllAsCode(rest);
      forall i | 0 <= i < |code| ensures OnlyDies(code[i]) {
        if i > 0 { assert code[i] == AllAsCode(rest)[i - 1]; }
      }
    }
  }

  // ---- more rows a transaction ---------------------------------------------

  // n fresh rows, oldest first.
  function FreshRows(n: nat): Table { map id | 1 <= id <= n :: SampleRow(id, id) }

  function Ids(n: nat): seq<EventId> { seq(n, i requires 0 <= i < n => i + 1) }

  ghost predicate WideReached(cfg: RelayConfig, size: nat, steps: seq<WideStep>, w: Wide, deaths: nat) {
    WideRun(cfg, size, NONE_OPEN, steps) && WideAfter(cfg, size, NONE_OPEN, steps) == w
    && AllHarmless(steps) && Deaths(steps) == deaths
  }

  lemma {:induction false} Extend(cfg: RelayConfig, size: nat, w: Wide, steps: seq<WideStep>, ws: WideStep)
    requires WideRun(cfg, size, w, steps) && CanDo(cfg, size, WideAfter(cfg, size, w, steps), ws)
    ensures WideRun(cfg, size, w, steps + [ws])
    ensures WideAfter(cfg, size, w, steps + [ws]) == Next(cfg, size, WideAfter(cfg, size, w, steps), ws)
    ensures Deaths(steps + [ws]) == Deaths(steps) + One(Death(ws))
    decreases |steps|
  {
    if steps == [] {
      assert [] + [ws] == [ws] && [ws][1..] == [];
      assert WideRun(cfg, size, Next(cfg, size, w, ws), []);
    } else {
      assert (steps + [ws])[0] == steps[0] && (steps + [ws])[1..] == steps[1..] + [ws];
      Extend(cfg, size, Next(cfg, size, w, steps[0]), steps[1..], ws);
    }
  }

  lemma Do(cfg: RelayConfig, size: nat, steps: seq<WideStep>, w: Wide, deaths: nat, ws: WideStep)
    returns (steps': seq<WideStep>, w': Wide)
    requires WideReached(cfg, size, steps, w, deaths) && CanDo(cfg, size, w, ws) && Harmless(ws)
    ensures w' == Next(cfg, size, w, ws) && WideReached(cfg, size, steps', w', deaths + One(Death(ws)))
  {
    Extend(cfg, size, NONE_OPEN, steps, ws);
    steps', w' := steps + [ws], Next(cfg, size, w, ws);
  }

  // The first j rows have been accepted m + 1 times, the others m times.
  ghost predicate Rounds(s: State, n: nat, m: nat, j: nat) {
    forall id :: 1 <= id <= n ==> TallyOf(s, id).accepted == m + One(id <= j)
  }

  // Relay 0 has published the first j of n rows, each accepted m + 1 times by
  // now and the others m times, and is about to take the next.
  ghost predicate Midway(w: Wide, n: nat, m: nat, j: nat) {
    && j <= n && w.base.rows == FreshRows(n)
    && PcOf(w.base, 0) == Batch(Ids(n)[j..]) && OpenOf(w, 0) == Ids(n)[..j]
    && (forall id :: id in w.base.locks ==> 1 <= id <= j)
    && Rounds(w.base, n, m, j)
  }

  ghost predicate Ready(w: Wide, n: nat, m: nat) {
    && w.base.rows == FreshRows(n) && PcOf(w.base, 0) == Idle && OpenOf(w, 0) == [] && w.base.locks == map[]
    && Rounds(w.base, n, m, 0)
  }

  lemma {:induction false} Inserted(cfg: RelayConfig, size: nat, n: nat) returns (steps: seq<WideStep>, w: Wide)
    ensures WideReached(cfg, size, steps, w, 0) && w == NONE_OPEN.(base := EMPTY.(rows := FreshRows(n)))
  {
    steps, w := [], NONE_OPEN;
    if n == 0 {
      assert FreshRows(0) == map[];
    } else {
      steps, w := Inserted(cfg, size, n - 1);
      steps, w := Do(cfg, size, steps, w, 0, Narrow(Insert(n, SampleRow(n, n))));
      assert FreshRows(n) == FreshRows(n - 1)[n := SampleRow(n, n)];
    }
  }

  lemma ReadsAll(cfg: RelayConfig, n: nat)
    requires cfg.Valid() && n <= cfg.batchSize
    ensures PendingAnswer(cfg, FreshRows(n), Ids(n))
  {
    forall e | e in EligibleIds(cfg, FreshRows(n)) ensures e in Ids(n) { assert Ids(n)[e - 1] == e; }
  }

  lemma LocksNext(cfg: RelayConfig, s: State, id: EventId, rest: seq<EventId>)
    requires PcOf(s, 0) == Batch([id] + rest) && id in s.rows && !s.rows[id].published && id !in s.locks
    ensures Enabled(cfg, CODE, s, Lock(0))
    ensures var s' := Apply(cfg, CODE, s, Lock(0));
            && s'.rows == s.rows && s'.tally == s.tally && s'.locks == s.locks[id := 0]
            && PcOf(s', 0) == Locked(id, rest)
  {
    assert ([id] + rest)[1..] == rest;
  }

  lemma SendsNext(cfg: RelayConfig, s: State, id: EventId, rest: seq<EventId>)
    requires PcOf(s, 0) == Locked(id, rest)
    ensures Enabled(cfg, CODE, s, PublishOk(0, 1))
    ensures var s' := Apply(cfg, CODE, s, PublishOk(0, 1));
            && s'.rows == s.rows && s'.locks == s.locks && PcOf(s', 0) == Gap(id, rest)
            && forall x :: TallyOf(s', x).accepted == TallyOf(s, x).accepted + One(x == id)
  {
  }

  lemma SameRounds(s: State, t: State, n: nat, m: nat, j: nat)
    requires s.tally == t.tally && Rounds(s, n, m, j)
    ensures Rounds(t, n, m, j)
  {
    forall id | 1 <= id <= n ensures TallyOf(t, id).accepted == m + One(id <= j) {
      assert TallyOf(t, id) == TallyOf(s, id);
    }
  }

  lemma OneMoreRound(s: State, t: State, n: nat, m: nat, j: nat)
    requires Rounds(s, n, m, j) && j < n
    requires forall x :: TallyOf(t, x).accepted == TallyOf(s, x).accepted + One(x == j + 1)
    ensures Rounds(t, n, m, j + 1)
  {
  }

  // One more row published in the open transaction.
  lemma TakesNext(cfg: RelayConfig, size: nat, steps: seq<WideStep>, w: Wide, deaths: nat, n: nat, m: nat, j: nat)
    returns (steps': seq<WideStep>, w': Wide)
    requires WideReached(cfg, size, steps, w, deaths) && Midway(w, n, m, j) && j < n
    ensures WideReached(cfg, size, steps', w', deaths) && w'.base.rows == w.base.rows && w'.open == w.open
    ensures PcOf(w'.base, 0) == Gap(j + 1, Ids(n)[j + 1..])
    ensures forall id :: id in w'.base.locks ==> 1 <= id <= j + 1
    ensures Rounds(w'.base, n, m, j + 1)
  {
    assert Ids(n)[j..] == [j + 1] + Ids(n)[j + 1..];
    LocksNext(cfg, w.base, j + 1, Ids(n)[j + 1..]);
    steps', w' := Do(cfg, size, steps, w, deaths, Narrow(Lock(0)));
    SendsNext(cfg, w'.base, j + 1, Ids(n)[j + 1..]);
    SameRounds(w.base, w'.base, n, m, j);
    OneMoreRound(w'.base, Apply(cfg, CODE, w'.base, PublishOk(0, 1)), n, m, j);
    steps', w' := Do(cfg, size, steps', w', deaths, Narrow(PublishOk(0, 1)));
  }

  lemma ReadsBatch(cfg: RelayConfig, w: Wide, n: nat, m: nat)
    requires cfg.Valid() && 1 <= n <= cfg.batchSize && Ready(w, n, m)
    ensures Enabled(cfg, CODE, w.base, ReadBatch(0, Ids(n)))
    ensures Midway(w.(base := Apply(cfg, CODE, w.base, ReadBatch(0, Ids(n)))), n, m, 0)
  {
    ReadsAll(cfg, n);
    assert Ids(n)[0..] == Ids(n);
    var s' := Apply(cfg, CODE, w.base, ReadBatch(0, Ids(n)));
    SameRounds(w.base, s', n, m, 0);
  }

  lemma {:induction false} TakesUpTo(cfg: RelayConfig, size: nat, before: seq<WideStep>, w0: Wide, deaths: nat,
                                     n: nat, m: nat, j: nat)
    returns (steps: seq<WideStep>, w: Wide)
    requires cfg.Valid() && j < n <= cfg.batchSize && n <= size
    requires WideReached(cfg, size, before, w0, deaths) && Ready(w0, n, m)
    ensures WideReached(cfg, size, steps, w, deaths) && Midway(w, n, m, j)
    decreases j
  {
    if j == 0 {
      ReadsBatch(cfg, w0, n, m);
      steps, w := Do(cfg, size, before, w0, deaths, Narrow(ReadBatch(0, Ids(n))));
    } else {
      steps, w := TakesUpTo(cfg, size, before, w0, deaths, n, m, j - 1);
      steps, w := TakesNext(cfg, size, steps, w, deaths, n, m, j - 1);
      SameRounds(w.base, Next(cfg, size, w, GoOn(0)).base, n, m, j);
      steps, w := Do(cfg, size, steps, w, deaths, GoOn(0));
      assert Ids(n)[..j] == Ids(n)[..j - 1] + [j];
    }
  }

  lemma AllRounds(s: State, n: nat, m: nat)
    requires Rounds(s, n, m, n)
    ensures Rounds(s, n, m + 1, 0)
  {
  }

  // All n rows published in one transaction, which has not committed.
  lemma TakesAll(cfg: RelayConfig, size: nat, before: seq<WideStep>, w0: Wide, deaths: nat, n: nat, m: nat)
    returns (steps: seq<WideStep>, w: Wide)
    requires cfg.Valid() && 1 <= n <= cfg.batchSize && n <= size
    requires WideReached(cfg, size, before, w0, deaths) && Ready(w0, n, m)
    ensures WideReached(cfg, size, steps, w, deaths) && w.base.rows == FreshRows(n)
    ensures PcOf(w.base, 0) == Gap(n, []) && OpenOf(w, 0) + [n] == Ids(n)
    ensures forall id :: id in w.base.locks ==> 1 <= id <= n
    ensures Rounds(w.base, n, m + 1, 0)
  {
    steps, w := TakesUpTo(cfg, size, before, w0, deaths, n, m, n - 1);
    steps, w := TakesNext(cfg, size, steps, w, deaths, n, m, n - 1);
    assert Ids(n)[..n - 1] + [n] == Ids(n) && Ids(n)[n..] == [];
    AllRounds(w.base, n, m);
  }

  lemma DiesReady(cfg: RelayConfig, size: nat, w: Wide, n: nat, m: nat)
    requires PcOf(w.base, 0) == Gap(n, []) && OpenOf(w, 0) + [n] == Ids(n) && w.base.rows == FreshRows(n)
    requires forall id :: id in w.base.locks ==> 1 <= id <= n
    requires Rounds(w.base, n, m, 0)
    ensures CanDo(cfg, size, w, Die(0)) && Ready(Next(cfg, size, w, Die(0)), n, m)
  {
    var w' := Next(cfg, size, w, Die(0));
    forall id | id in w.base.locks ensures id in Ids(n) { assert Ids(n)[id - 1] == id; }
    assert w'.base.locks == map[];
    SameRounds(w.base, w'.base, n, m, 0);
  }

  // One death before the commit republishes the whole transaction: n rows.
  lemma DeathRepublishesAll(cfg: RelayConfig, size: nat, n: nat) returns (steps: seq<WideStep>, w: Wide)
    requires cfg.Valid() && 1 <= n <= cfg.batchSize && n <= size
    ensures WideReached(cfg, size, steps, w, 1)
    ensures Rounds(w.base, n, 2, 0)
  {
    steps, w := Inserted(cfg, size, n);
    assert Ready(w, n, 0);
    steps, w := TakesAll(cfg, size, steps, w, 0, n, 0);
    DiesReady(cfg, size, w, n, 1);
    steps, w := Do(cfg, size, steps, w, 0, Die(0));
    steps, w := TakesAll(cfg, size, steps, w, 1, n, 1);
  }

  lemma {:induction false} SumOfOnes(f: EventId -> nat, ids: set<EventId>)
    requires forall id :: id in ids ==> f(id) == 1
    ensures Sum(f, ids) == |ids|
    decreases |ids|
  {
    if ids != {} {
      var id := Pick(ids);
      SumOfOnes(f, ids - {id});
      assert |ids - {id}| == |ids| - 1;
    }
  }

  lemma {:induction false} FirstIds(n: nat) returns (ids: set<EventId>)
    ensures |ids| == n && forall id :: id in ids <==> 1 <= id <= n
  {
    if n == 0 { ids := {}; } else {
      ids := FirstIds(n - 1);
      ids := ids + {n};
    }
  }

  // A run in which one death costs n duplicates.
  ghost predicate OneDeathCosts(cfg: RelayConfig, size: nat, n: nat) {
    exists steps, ids :: CostsIn(cfg, size, n, steps, ids)
  }

  ghost predicate CostsIn(cfg: RelayConfig, size: nat, n: nat, steps: seq<WideStep>, ids: set<EventId>) {
    && WideRun(cfg, size, NONE_OPEN, steps) && AllHarmless(steps) && Deaths(steps) == 1
    && Sum(ExtraOf(WideAfter(cfg, size, NONE_OPEN, steps).base), ids) == n
  }

  lemma DeathCosts(cfg: RelayConfig, size: nat, n: nat)
    requires cfg.Valid() && 1 <= n <= cfg.batchSize && n <= size
    ensures OneDeathCosts(cfg, size, n)
  {
    var steps, w := DeathRepublishesAll(cfg, size, n);
    var ids := FirstIds(n);
    SumOfOnes(ExtraOf(w.base), ids);
    assert CostsIn(cfg, size, n, steps, ids);
  }

  lemma OneRowOneDuplicate(cfg: RelayConfig, steps: seq<WideStep>, ids: set<EventId>)
    requires WideRun(cfg, 1, NONE_OPEN, steps) && AllHarmless(steps)
    ensures Sum(ExtraOf(WideAfter(cfg, 1, NONE_OPEN, steps).base), ids) <= Deaths(steps)
  {
    SizeOneIsCode(cfg, NONE_OPEN, EMPTY, steps);
    OneDuplicatePerCrash(cfg, CODE, AllAsCode(steps), ids);
    var w, s := WideAfter(cfg, 1, NONE_OPEN, steps), After(cfg, CODE, EMPTY, AllAsCode(steps));
    forall id | id in ids ensures ExtraOf(w.base)(id) <= ExtraOf(s)(id) {
      assert TallyOf(w.base, id).accepted == TallyOf(s, id).accepted;
    }
    SumMonotone(ExtraOf(w.base), ExtraOf(s), ids);
  }

  // The blast radius is one duplicate per death if and only if a transaction
  // holds one row; with room for n rows, one death can cost n duplicates.
  lemma OnePerDeathIffPerRow(cfg: RelayConfig, size: nat)
    requires cfg.Valid() && cfg.batchSize >= 2 && size >= 1
    ensures OnePerDeath(cfg, size) <==> size == 1
    ensures forall n | 1 <= n <= Min(size, cfg.batchSize) :: OneDeathCosts(cfg, size, n)
  {
    forall n | 1 <= n <= Min(size, cfg.batchSize) ensures OneDeathCosts(cfg, size, n) { DeathCosts(cfg, size, n); }
    if size == 1 {
      forall steps, ids | WideRun(cfg, size, NONE_OPEN, steps) && AllHarmless(steps)
        ensures Sum(ExtraOf(WideAfter(cfg, size, NONE_OPEN, steps).base), ids) <= Deaths(steps) {
        OneRowOneDuplicate(cfg, steps, ids);
      }
    } else {
      assert OneDeathCosts(cfg, size, 2);
      var steps, ids :| CostsIn(cfg, size, 2, steps, ids);
    }
  }
}
