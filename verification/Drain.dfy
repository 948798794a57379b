// How fast one relay on a healthy database empties the outbox: the drain
// bound and freedom from head-of-line blocking. SNS answers every attempt
// adversarially.
module Drain {
  import opened Arithmetic
  import opened Base
  import opened Outbox

  // ---- remaining attempts --------------------------------------------------

  function Weight(cfg: RelayConfig, rows: Table, id: EventId): nat {
    if id in rows && Eligible(cfg, rows[id]) then cfg.maxAttempts - rows[id].attempts else 0
  }

  ghost function WeightOf(cfg: RelayConfig, rows: Table): EventId -> nat { id => Weight(cfg, rows, id) }

  // Sum of (maxAttempts - attempts) over the eligible rows of `ids`.
  ghost function Budget(cfg: RelayConfig, rows: Table, ids: set<EventId>): nat {
    Sum(WeightOf(cfg, rows), ids)
  }

  // ---- runs of poll cycles -------------------------------------------------

  // One poll: the answer the query gave and how SNS treated each attempt.
  // `arrivals` are the rows committed after the poll and before the next.
  datatype Cycle = Cycle(ids: seq<EventId>, sns: Sns, arrivals: Table)

  function PollOf(cfg: RelayConfig, rows: Table, c: Cycle): Poll {
    RunBatch(cfg, rows, {}, c.ids, c.sns)
  }

  function After(cfg: RelayConfig, rows: Table, c: Cycle): Table {
    PollOf(cfg, rows, c).rows + c.arrivals
  }

  ghost predicate Fresh(row: Row) { !row.published && !row.parked && row.attempts == 0 }

  // A healthy cycle: a genuine answer, failures recorded, arrivals new.
  ghost predicate ValidCycle(cfg: RelayConfig, rows: Table, c: Cycle) {
    && PendingAnswer(cfg, rows, c.ids)
    && (forall i :: 0 <= i < |c.ids| ==> Recorded(c.sns(c.ids[i])))
    && c.arrivals.Keys !! rows.Keys
    && (forall id :: id in c.arrivals ==> Fresh(c.arrivals[id]))
  }

  ghost predicate ValidRun(cfg: RelayConfig, rows: Table, cycles: seq<Cycle>)
    decreases |cycles|
  {
    cycles == [] || (ValidCycle(cfg, rows, cycles[0]) && ValidRun(cfg, After(cfg, rows, cycles[0]), cycles[1..]))
  }

  function Final(cfg: RelayConfig, rows: Table, cycles: seq<Cycle>): Table
    decreases |cycles|
  {
    if cycles == [] then rows else Final(cfg, After(cfg, rows, cycles[0]), cycles[1..])
  }

  // Cycles cut short by a transient failure.
  function Transients(cfg: RelayConfig, rows: Table, cycles: seq<Cycle>): nat
    decreases |cycles|
  {
    if cycles == [] then 0
    else (if PollOf(cfg, rows, cycles[0]).abandoned then 1 else 0)
         + Transients(cfg, After(cfg, rows, cycles[0]), cycles[1..])
  }

  predicate NoArrivals(cycles: seq<Cycle>) {
    forall i :: 0 <= i < |cycles| ==> cycles[i].arrivals == map[]
  }

  lemma {:induction false} RunExtends(cfg: RelayConfig, rows: Table, cycles: seq<Cycle>, c: Cycle)
    requires ValidRun(cfg, rows, cycles) && ValidCycle(cfg, Final(cfg, rows, cycles), c)
    ensures ValidRun(cfg, rows, cycles + [c])
    ensures Final(cfg, rows, cycles + [c]) == After(cfg, Final(cfg, rows, cycles), c)
    decreases |cycles|
  {
    if cycles == [] {
      assert ValidRun(cfg, After(cfg, rows, c), []);
    } else {
      assert (cycles + [c])[0] == cycles[0] && (cycles + [c])[1..] == cycles[1..] + [c];
      RunExtends(cfg, After(cfg, rows, cycles[0]), cycles[1..], c);
    }
  }

  // ---- one cycle -----------------------------------------------------------

  lemma CycleShape(cfg: RelayConfig, rows: Table, c: Cycle)
    requires cfg.Valid() && TableSettled(cfg, rows) && ValidCycle(cfg, rows, c)
    ensures PollShape(cfg, rows, c.ids, c.sns, PollOf(cfg, rows, c))
    ensures TableSettled(cfg, After(cfg, rows, c))
    ensures After(cfg, rows, c).Keys == rows.Keys + c.arrivals.Keys
    ensures forall id :: id in rows ==> After(cfg, rows, c)[id] == PollOf(cfg, rows, c).rows[id]
    ensures forall id :: id in rows ==> Weight(cfg, After(cfg, rows, c), id) <= Weight(cfg, rows, id)
    ensures forall i :: 0 <= i < |PollOf(cfg, rows, c).attempted| ==>
              Weight(cfg, After(cfg, rows, c), c.ids[i]) < Weight(cfg, rows, c.ids[i])
  {
    ShapeOfPoll(cfg, rows, c.ids, c.sns);
    var poll := PollOf(cfg, rows, c);
    forall id | id in rows
      ensures Settled(cfg, poll.rows[id])
      ensures Weight(cfg, poll.rows, id) <= Weight(cfg, rows, id)
      ensures id in poll.attempted ==> Weight(cfg, poll.rows, id) < Weight(cfg, rows, id)
    {
      if id in poll.attempted {
        var i :| 0 <= i < |poll.attempted| && poll.attempted[i] == id;
        assert c.ids[i] == id;
        AttemptSettles(cfg, rows[id], c.sns(id));
      }
    }
  }

  // Without arrivals, a cycle not cut short takes a full batch, or everything
  // left, out of the eligible set for good.
  lemma CycleDrains(cfg: RelayConfig, rows: Table, c: Cycle)
    requires cfg.Valid() && TableSettled(cfg, rows) && ValidCycle(cfg, rows, c) && c.arrivals == map[]
    ensures EligibleIds(cfg, After(cfg, rows, c)) <= EligibleIds(cfg, rows)
    ensures !PollOf(cfg, rows, c).abandoned ==>
              || EligibleIds(cfg, After(cfg, rows, c)) == {}
              || |EligibleIds(cfg, After(cfg, rows, c))| <= |EligibleIds(cfg, rows)| - cfg.batchSize
  {
    CycleShape(cfg, rows, c);
    var poll, rows' := PollOf(cfg, rows, c), After(cfg, rows, c);
    var before, after := EligibleIds(cfg, rows), EligibleIds(cfg, rows');
    forall id | id in after ensures id in before {
      assert Weight(cfg, rows', id) <= Weight(cfg, rows, id);
    }
    if !poll.abandoned {
      var gone := set x | x in c.ids;
      forall id | id in gone ensures id !in after {
        var i :| 0 <= i < |c.ids| && c.ids[i] == id;
        AttemptSettles(cfg, rows[id], c.sns(id));
      }
      assert after <= before - gone;
      SetOfDistinct(c.ids);
      if |c.ids| < cfg.batchSize {
        forall id | id in before ensures id in gone { }
      } else {
        assert |before - gone| == |before| - |gone|;
        SubsetSize(after, before - gone);
      }
    }
  }

  // Each transient failure spends one unit of the budget of the rows there.
  lemma CycleSpends(cfg: RelayConfig, rows: Table, c: Cycle)
    requires cfg.Valid() && TableSettled(cfg, rows) && ValidCycle(cfg, rows, c)
    ensures var cut := if PollOf(cfg, rows, c).abandoned then 1 else 0;
            Budget(cfg, After(cfg, rows, c), rows.Keys) + cut <= Budget(cfg, rows, rows.Keys)
    ensures c.ids != [] ==> Budget(cfg, After(cfg, rows, c), rows.Keys) < Budget(cfg, rows, rows.Keys)
  {
    CycleShape(cfg, rows, c);
    if c.ids != [] {
      SumDrops(WeightOf(cfg, rows), WeightOf(cfg, After(cfg, rows, c)), rows.Keys, c.ids[0]);
    } else {
      SumMonotone(WeightOf(cfg, After(cfg, rows, c)), WeightOf(cfg, rows), rows.Keys);
    }
  }

  // ---- the drain bound -----------------------------------------------------

  lemma NoArrivalsRest(cycles: seq<Cycle>)
    requires NoArrivals(cycles) && cycles != []
    ensures NoArrivals(cycles[1..])
  {
    forall i | 0 <= i < |cycles[1..]| ensures cycles[1..][i].arrivals == map[] {
      assert cycles[1..][i] == cycles[i + 1];
    }
  }

  // T never exceeds the budget the run started with.
  lemma {:induction false} TransientsSpend(cfg: RelayConfig, rows: Table, cycles: seq<Cycle>)
    requires cfg.Valid() && TableSettled(cfg, rows) && ValidRun(cfg, rows, cycles) && NoArrivals(cycles)
    ensures var end := Final(cfg, rows, cycles);
            && end.Keys == rows.Keys && TableSettled(cfg, end)
            && Budget(cfg, end, rows.Keys) + Transients(cfg, rows, cycles) <= Budget(cfg, rows, rows.Keys)
    ensures Transients(cfg, rows, cycles) <= |cycles|
    decreases |cycles|
  {
    if cycles != [] {
      CycleShape(cfg, rows, cycles[0]);
      CycleSpends(cfg, rows, cycles[0]);
      NoArrivalsRest(cycles);
      TransientsSpend(cfg, After(cfg, rows, cycles[0]), cycles[1..]);
    }
  }

  // batchSize for each cycle that was not cut short.
  function Taken(cfg: RelayConfig, rows: Table, cycles: seq<Cycle>): nat
    decreases |cycles|
  {
    if cycles == [] then 0
    else (if PollOf(cfg, rows, cycles[0]).abandoned then 0 else cfg.batchSize)
         + Taken(cfg, After(cfg, rows, cycles[0]), cycles[1..])
  }

  lemma {:induction false} TakenIsProduct(cfg: RelayConfig, rows: Table, cycles: seq<Cycle>)
    ensures Taken(cfg, rows, cycles) == cfg.batchSize * (|cycles| - Transients(cfg, rows, cycles))
    decreases |cycles|
  {
    if cycles != [] {
      var rows' := After(cfg, rows, cycles[0]);
      TakenIsProduct(cfg, rows', cycles[1..]);
      OneMore(cfg.batchSize, |cycles[1..]| - Transients(cfg, rows', cycles[1..]));
    }
  }

  // Every other cycle removes a full batch, while anything is left.
  lemma {:induction false} FullBatchesLeave(cfg: RelayConfig, rows: Table, cycles: seq<Cycle>)
    requires cfg.Valid() && TableSettled(cfg, rows) && ValidRun(cfg, rows, cycles) && NoArrivals(cycles)
    ensures var left := EligibleIds(cfg, Final(cfg, rows, cycles));
            && left <= EligibleIds(cfg, rows)
            && (left == {} || |left| + Taken(cfg, rows, cycles) <= |EligibleIds(cfg, rows)|)
    decreases |cycles|
  {
    if cycles != [] {
      var c, rest := cycles[0], cycles[1..];
      var rows' := After(cfg, rows, c);
      CycleShape(cfg, rows, c);
      CycleDrains(cfg, rows, c);
      NoArrivalsRest(cycles);
      FullBatchesLeave(cfg, rows', rest);
      SubsetSize(EligibleIds(cfg, rows'), EligibleIds(cfg, rows));
    }
  }

  // With N eligible rows and T transient failures in the run, at most
  // N*maxAttempts of them, ceil(N/batchSize) + T cycles leave every row
  // published or parked, whatever SNS answered.
  lemma DrainBound(cfg: RelayConfig, rows: Table, cycles: seq<Cycle>)
    requires cfg.Valid() && TableSettled(cfg, rows) && ValidRun(cfg, rows, cycles) && NoArrivals(cycles)
    ensures var n, t := |EligibleIds(cfg, rows)|, Transients(cfg, rows, cycles);
            && t <= cfg.maxAttempts * n
            && (|cycles| >= CeilDiv(n, cfg.batchSize) + t ==>
                  var end := Final(cfg, rows, cycles);
                  end.Keys == rows.Keys && forall id :: id in end ==> end[id].published || end[id].parked)
  {
    var n, t := |EligibleIds(cfg, rows)|, Transients(cfg, rows, cycles);
    TransientsSpend(cfg, rows, cycles);
    SumBound(WeightOf(cfg, rows), rows.Keys, EligibleIds(cfg, rows), cfg.maxAttempts);
    assert rows.Keys * EligibleIds(cfg, rows) == EligibleIds(cfg, rows);
    if |cycles| >= CeilDiv(n, cfg.batchSize) + t {
      NothingLeft(cfg, rows, cycles);
      var end := Final(cfg, rows, cycles);
      forall id | id in end ensures end[id].published || end[id].parked {
        assert id !in EligibleIds(cfg, end);
      }
    }
  }

  lemma NothingLeft(cfg: RelayConfig, rows: Table, cycles: seq<Cycle>)
    requires cfg.Valid() && TableSettled(cfg, rows) && ValidRun(cfg, rows, cycles) && NoArrivals(cycles)
    requires |cycles| >= CeilDiv(|EligibleIds(cfg, rows)|, cfg.batchSize) + Transients(cfg, rows, cycles)
    ensures EligibleIds(cfg, Final(cfg, rows, cycles)) == {}
  {
    var n, full := |EligibleIds(cfg, rows)|, |cycles| - Transients(cfg, rows, cycles);
    var left := EligibleIds(cfg, Final(cfg, rows, cycles));
    FullBatchesLeave(cfg, rows, cycles);
    assert Taken(cfg, rows, cycles) >= n by {
      TakenIsProduct(cfg, rows, cycles);
      CeilDivCovers(n, cfg.batchSize, full);
    }
    assert |left| > 0 ==> left != {};
  }

  // ---- head-of-line freedom ------------------------------------------------

  // The other eligible rows at least as old as `target`.
  ghost function Ahead(cfg: RelayConfig, rows: Table, target: EventId): set<EventId>
    requires target in rows
  {
    set id | id in EligibleIds(cfg, rows) && id != target && rows[id].createdAt <= rows[target].createdAt
  }

  ghost predicate Attempted(cfg: RelayConfig, rows: Table, cycles: seq<Cycle>, target: EventId)
    decreases |cycles|
  {
    cycles != [] &&
    (target in PollOf(cfg, rows, cycles[0]).attempted ||
      Attempted(cfg, After(cfg, rows, cycles[0]), cycles[1..], target))
  }

  // Rows arriving during the run are younger than the target.
  predicate ArrivalsAfter(cycles: seq<Cycle>, t: int) {
    forall i, id :: 0 <= i < |cycles| && id in cycles[i].arrivals ==> t < cycles[i].arrivals[id].createdAt
  }

  // A cycle that does not reach the target works on a row ahead of it.
  lemma MissSpendsAhead(cfg: RelayConfig, rows: Table, c: Cycle, target: EventId, ahead: set<EventId>)
    requires cfg.Valid() && TableSettled(cfg, rows) && ValidCycle(cfg, rows, c)
    requires target in EligibleIds(cfg, rows) && Ahead(cfg, rows, target) <= ahead <= rows.Keys
    requires target !in PollOf(cfg, rows, c).attempted
    ensures Budget(cfg, After(cfg, rows, c), ahead) < Budget(cfg, rows, ahead)
  {
    CycleShape(cfg, rows, c);
    var first := c.ids[0];
    if target in c.ids {
      var i :| 0 <= i < |c.ids| && c.ids[i] == target;
      assert i >= |PollOf(cfg, rows, c).attempted| > 0;
    }
    assert rows[first].createdAt <= rows[target].createdAt;
    assert first in Ahead(cfg, rows, target);
    SumDrops(WeightOf(cfg, rows), WeightOf(cfg, After(cfg, rows, c)), ahead, first);
  }

  // ... and leaves the target as it was, with nobody new ahead of it.
  lemma MissKeepsAhead(cfg: RelayConfig, rows: Table, c: Cycle, target: EventId)
    requires cfg.Valid() && TableSettled(cfg, rows) && ValidCycle(cfg, rows, c)
    requires target in EligibleIds(cfg, rows) && target !in PollOf(cfg, rows, c).attempted
    requires forall id :: id in c.arrivals ==> rows[target].createdAt < c.arrivals[id].createdAt
    ensures target in EligibleIds(cfg, After(cfg, rows, c)) && After(cfg, rows, c)[target] == rows[target]
    ensures Ahead(cfg, After(cfg, rows, c), target) <= Ahead(cfg, rows, target)
  {
    CycleShape(cfg, rows, c);
    var poll, rows' := PollOf(cfg, rows, c), After(cfg, rows, c);
    forall id | id in Ahead(cfg, rows', target) ensures id in Ahead(cfg, rows, target) {
      assert id !in c.arrivals;
      assert Weight(cfg, rows', id) <= Weight(cfg, rows, id);
      if id in poll.attempted {
        var i :| 0 <= i < |poll.attempted| && poll.attempted[i] == id;
        assert c.ids[i] == id;
      }
    }
  }

  lemma ArrivalsAfterRest(cycles: seq<Cycle>, t: int)
    requires ArrivalsAfter(cycles, t) && cycles != []
    ensures ArrivalsAfter(cycles[1..], t)
  {
    forall i, id | 0 <= i < |cycles[1..]| && id in cycles[1..][i].arrivals
      ensures t < cycles[1..][i].arrivals[id].createdAt
    {
      assert cycles[1..][i] == cycles[i + 1];
    }
  }

  lemma {:induction false} AttemptedWithinBudget(cfg: RelayConfig, rows: Table, cycles: seq<Cycle>,
                                                 target: EventId, ahead: set<EventId>)
    requires cfg.Valid() && TableSettled(cfg, rows) && ValidRun(cfg, rows, cycles)
    requires target in EligibleIds(cfg, rows) && Ahead(cfg, rows, target) <= ahead <= rows.Keys
    requires ArrivalsAfter(cycles, rows[target].createdAt)
    requires |cycles| > Budget(cfg, rows, ahead)
    ensures Attempted(cfg, rows, cycles, target)
    decreases |cycles|
  {
    var c, rest := cycles[0], cycles[1..];
    if target !in PollOf(cfg, rows, c).attempted {
      CycleShape(cfg, rows, c);
      MissSpendsAhead(cfg, rows, c, target, ahead);
      MissKeepsAhead(cfg, rows, c, target);
      ArrivalsAfterRest(cycles, rows[target].createdAt);
      AttemptedWithinBudget(cfg, After(cfg, rows, c), rest, target, ahead);
    }
  }

  // A row with k eligible rows ahead of it is tried within k*maxAttempts + 1
  // cycles, while younger rows keep arriving and whatever the older rows do.
  lemma HeadOfLineFreedom(cfg: RelayConfig, rows: Table, cycles: seq<Cycle>, target: EventId)
    requires cfg.Valid() && TableSettled(cfg, rows) && ValidRun(cfg, rows, cycles)
    requires target in EligibleIds(cfg, rows)
    requires ArrivalsAfter(cycles, rows[target].createdAt)
    requires |cycles| >= cfg.maxAttempts * |Ahead(cfg, rows, target)| + 1
    ensures Attempted(cfg, rows, cycles, target)
  {
    var ahead := Ahead(cfg, rows, target);
    SumBound(WeightOf(cfg, rows), ahead, EligibleIds(cfg, rows), cfg.maxAttempts);
    assert ahead * EligibleIds(cfg, rows) == ahead;
    AttemptedWithinBudget(cfg, rows, cycles, target, ahead);
  }

  lemma CycleShows(cfg: RelayConfig, rows: Table, c: Cycle, target: EventId)
    requires cfg.Valid() && TableSettled(cfg, rows) && ValidCycle(cfg, rows, c) && target in rows
    ensures var rows' := After(cfg, rows, c);
            && target in rows' && TableSettled(cfg, rows')
            && (rows[target].published ==> rows'[target].published)
            && rows'[target].attempts >= rows[target].attempts
            && (target in PollOf(cfg, rows, c).attempted ==>
                  rows'[target].published || rows'[target].attempts > rows[target].attempts)
  {
    CycleShape(cfg, rows, c);
    var poll := PollOf(cfg, rows, c);
    if target in poll.attempted {
      var i :| 0 <= i < |poll.attempted| && poll.attempted[i] == target;
      assert c.ids[i] == target;
    }
  }

  // A row that was tried shows it, from then on: it is published or has an
  // attempt more.
  lemma {:induction false} AttemptedShows(cfg: RelayConfig, rows: Table, cycles: seq<Cycle>, target: EventId)
    requires cfg.Valid() && TableSettled(cfg, rows) && ValidRun(cfg, rows, cycles) && target in rows
    ensures var end := Final(cfg, rows, cycles);
            && target in end && (rows[target].published ==> end[target].published)
            && end[target].attempts >= rows[target].attempts
            && (Attempted(cfg, rows, cycles, target) ==>
                  end[target].published || end[target].attempts > rows[target].attempts)
    decreases |cycles|
  {
    if cycles != [] {
      CycleShows(cfg, rows, cycles[0], target);
      AttemptedShows(cfg, After(cfg, rows, cycles[0]), cycles[1..], target);
    }
  }
}
