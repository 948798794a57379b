// A total SNS outage in closed form: which rows a run of k failing polls has
// parked, which one it is working on, and which it has not touched.
module Outage {
  import opened Base
  import opened Outbox
  import opened Drain

  // `queue` lists the eligible rows by strictly increasing created_at, none
  // of which has failed yet.
  ghost predicate FreshQueue(cfg: RelayConfig, rows: Table, queue: seq<EventId>) {
    && (forall id :: id in EligibleIds(cfg, rows) <==> id in queue)
    && (forall i :: 0 <= i < |queue| ==> queue[i] in rows && rows[queue[i]].attempts == 0)
    && (forall i, j :: 0 <= i < j < |queue| ==> rows[queue[i]].createdAt < rows[queue[j]].createdAt)
  }

  // Every publish fails, transiently, and nothing is marked.
  ghost predicate Refuses(c: Cycle) {
    forall id :: Transient(c.sns(id)) && !(c.sns(id).CommitRaised? && c.sns(id).applied)
  }

  // Row i of the queue when `full` rows have used up their attempts and the
  // next has failed `next` times.
  function OutageRow(cfg: RelayConfig, row: Row, i: nat, full: nat, next: nat): Row {
    if i < full then row.(attempts := cfg.maxAttempts, parked := true)
    else if i == full then row.(attempts := next)
    else row
  }

  // The whole table then: rows out of the queue are as they were.
  ghost predicate AfterFailures(cfg: RelayConfig, rows: Table, queue: seq<EventId>, full: nat, next: nat, now: Table)
    requires FreshQueue(cfg, rows, queue)
  {
    && next < cfg.maxAttempts
    && now.Keys == rows.Keys
    && (forall i :: 0 <= i < |queue| ==> now[queue[i]] == OutageRow(cfg, rows[queue[i]], i, full, next))
    && (forall id :: id in rows && id !in queue ==> now[id] == rows[id])
  }

  // The oldest row still eligible is tried first, and alone.
  lemma HeadAlone(cfg: RelayConfig, rows: Table, queue: seq<EventId>, full: nat, next: nat, now: Table, c: Cycle)
    requires cfg.Valid() && FreshQueue(cfg, rows, queue) && AfterFailures(cfg, rows, queue, full, next, now)
    requires TableSettled(cfg, now) && ValidCycle(cfg, now, c) && Refuses(c) && c.arrivals == map[]
    ensures After(cfg, now, c) ==
              if full < |queue| then now[queue[full] := RecordFailure(cfg, now[queue[full]], false)] else now
  {
    CycleShape(cfg, now, c);
    assert forall i :: 0 <= i < |c.ids| ==> c.ids[i] in EligibleIds(cfg, now);
    forall id | id in EligibleIds(cfg, now) ensures exists i :: full <= i < |queue| && queue[i] == id {
      if id in queue {
        var i :| 0 <= i < |queue| && queue[i] == id;
      }
    }
    if full < |queue| {
      var head := queue[full];
      assert head in queue;
      assert head in EligibleIds(cfg, now);
      assert c.ids != [];
      assert c.ids[0] in EligibleIds(cfg, now);
      var i :| full <= i < |queue| && queue[i] == c.ids[0];
      assert now[c.ids[0]].createdAt <= now[head].createdAt;
      assert i == full;
      assert |PollOf(cfg, now, c).attempted| == 1;
      assert PollOf(cfg, now, c).attempted == c.ids[..1] == [head];
    } else {
      assert c.ids == [];
    }
  }

  lemma OneMoreFailure(cfg: RelayConfig, rows: Table, queue: seq<EventId>, full: nat, next: nat, now: Table, c: Cycle)
    requires cfg.Valid() && FreshQueue(cfg, rows, queue) && AfterFailures(cfg, rows, queue, full, next, now)
    requires TableSettled(cfg, now) && ValidCycle(cfg, now, c) && Refuses(c) && c.arrivals == map[]
    ensures TableSettled(cfg, After(cfg, now, c))
    ensures if next + 1 < cfg.maxAttempts
            then AfterFailures(cfg, rows, queue, full, next + 1, After(cfg, now, c))
            else AfterFailures(cfg, rows, queue, full + 1, 0, After(cfg, now, c))
  {
    CycleShape(cfg, now, c);
    HeadAlone(cfg, rows, queue, full, next, now, c);
    var now' := After(cfg, now, c);
    forall i | 0 <= i < |queue|
      ensures if next + 1 < cfg.maxAttempts
              then now'[queue[i]] == OutageRow(cfg, rows[queue[i]], i, full, next + 1)
              else now'[queue[i]] == OutageRow(cfg, rows[queue[i]], i, full + 1, 0)
    {
      assert queue[i] in queue;
      if full < |queue| && i != full { assert queue[i] != queue[full]; }
    }
  }

  lemma {:induction false} OutageFrom(cfg: RelayConfig, rows: Table, queue: seq<EventId>, full: nat, next: nat,
                                      now: Table, cycles: seq<Cycle>) returns (full': nat, next': nat)
    requires cfg.Valid() && FreshQueue(cfg, rows, queue) && AfterFailures(cfg, rows, queue, full, next, now)
    requires TableSettled(cfg, now) && ValidRun(cfg, now, cycles) && NoArrivals(cycles)
    requires forall i :: 0 <= i < |cycles| ==> Refuses(cycles[i])
    ensures cfg.maxAttempts * full' + next' == cfg.maxAttempts * full + next + |cycles|
    ensures AfterFailures(cfg, rows, queue, full', next', Final(cfg, now, cycles))
    decreases |cycles|
  {
    full', next' := full, next;
    if cycles != [] {
      var c, rest := cycles[0], cycles[1..];
      OneMoreFailure(cfg, rows, queue, full, next, now, c);
      NoArrivalsRest(cycles);
      forall i | 0 <= i < |rest| ensures Refuses(rest[i]) { assert rest[i] == cycles[i + 1]; }
      if next + 1 < cfg.maxAttempts {
        full', next' := OutageFrom(cfg, rows, queue, full, next + 1, After(cfg, now, c), rest);
      } else {
        assert cfg.maxAttempts * (full + 1) == cfg.maxAttempts * full + cfg.maxAttempts;
        full', next' := OutageFrom(cfg, rows, queue, full + 1, 0, After(cfg, now, c), rest);
      }
    }
  }

  lemma NothingFailedYet(cfg: RelayConfig, rows: Table, queue: seq<EventId>)
    requires cfg.Valid() && FreshQueue(cfg, rows, queue)
    ensures AfterFailures(cfg, rows, queue, 0, 0, rows)
  {
    forall i | 0 <= i < |queue| ensures rows[queue[i]] == OutageRow(cfg, rows[queue[i]], i, 0, 0) {
      assert queue[i] in queue;
    }
  }

  // From fresh rows with distinct created_at, k consecutive polls in which
  // every publish fails transiently park exactly the min(N, k / maxAttempts)
  // oldest, leave k % maxAttempts attempts on the next, and change no other row.
  lemma OutageClosedForm(cfg: RelayConfig, rows: Table, queue: seq<EventId>, cycles: seq<Cycle>)
    requires cfg.Valid() && TableSettled(cfg, rows) && ValidRun(cfg, rows, cycles) && NoArrivals(cycles)
    requires FreshQueue(cfg, rows, queue)
    requires forall i :: 0 <= i < |cycles| ==> Refuses(cycles[i])
    ensures AfterFailures(cfg, rows, queue, |cycles| / cfg.maxAttempts, |cycles| % cfg.maxAttempts,
                          Final(cfg, rows, cycles))
  {
    NothingFailedYet(cfg, rows, queue);
    var full, next := OutageFrom(cfg, rows, queue, 0, 0, rows, cycles);
    Quotient(|cycles|, cfg.maxAttempts, full, next);
  }

  lemma Quotient(n: nat, d: nat, q: nat, r: nat)
    requires r < d && n == d * q + r
    ensures n / d == q && n % d == r
  {
    var q' := n / d;
    assert n == d * q' + n % d;
    if q' < q { Spread(d, q', q); }
    if q < q' { Spread(d, q, q'); }
  }

  lemma Spread(d: nat, low: nat, high: nat)
    requires low < high
    ensures d * low + d <= d * high
  {
    assert d * (low + 1) == d * low + d;
    assert d * high == d * (low + 1) + d * (high - low - 1);
  }
}
