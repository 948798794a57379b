// Head-of-line blocking and its two cures. The former loop had neither; the
// comment in relay/service.py says either alone stops the permanent stall.
// Counting attempts does, for any errors. Classification does for the errors
// it lists, and only for them.
module Stall {
  import opened Base
  import opened Outbox
  import opened Drain

  // `counter`: failures are counted and park at the limit. `classify`: a
  // listed error parks at once and the batch goes on.
  datatype Cure = Cure(counter: bool, classify: bool)

  const CODE: Cure := Cure(true, true)

  predicate Broken(cure: Cure, o: Outcome) { cure.classify && Permanent(o) }

  function Treat(cfg: RelayConfig, cure: Cure, row: Row, o: Outcome): Row {
    if o.Accepted? then Mark(row)
    else
      var left := if o.CommitRaised? && o.applied then Mark(row) else row;
      if o.record.Uncounted? then left
      else if cure.counter then RecordFailure(cfg, left, Broken(cure, o))
      else left.(parked := left.parked || Broken(cure, o))
  }

  function CuredBatch(cfg: RelayConfig, cure: Cure, rows: Table, ids: seq<EventId>, sns: Sns): Poll
    decreases |ids|
  {
    if ids == [] then Poll(rows, [], 0, false, false)
    else
      var id, o := ids[0], sns(ids[0]);
      if !Ours(rows, {}, id) && !o.LookupRaised? then CuredBatch(cfg, cure, rows, ids[1..], sns)
      else if id !in rows then Poll(rows, [id], 0, false, true)
      else
        var rows' := rows[id := Treat(cfg, cure, rows[id], o)];
        if !Recorded(o) then Poll(rows', [id], 0, false, true)
        else if !o.Accepted? && !Broken(cure, o) then Poll(rows', [id], 0, true, false)
        else
          var rest := CuredBatch(cfg, cure, rows', ids[1..], sns);
          rest.(attempted := [id] + rest.attempted,
                published := rest.published + if o.Accepted? then 1 else 0)
  }

  function CuredAfter(cfg: RelayConfig, cure: Cure, rows: Table, c: Cycle): Table {
    CuredBatch(cfg, cure, rows, c.ids, c.sns).rows + c.arrivals
  }

  ghost predicate CuredRun(cfg: RelayConfig, cure: Cure, rows: Table, cycles: seq<Cycle>)
    decreases |cycles|
  {
    cycles == [] ||
    (ValidCycle(cfg, rows, cycles[0]) && CuredRun(cfg, cure, CuredAfter(cfg, cure, rows, cycles[0]), cycles[1..]))
  }

  ghost predicate CuredAttempted(cfg: RelayConfig, cure: Cure, rows: Table, cycles: seq<Cycle>, target: EventId)
    decreases |cycles|
  {
    cycles != [] &&
    (|| target in CuredBatch(cfg, cure, rows, cycles[0].ids, cycles[0].sns).attempted
     || CuredAttempted(cfg, cure, CuredAfter(cfg, cure, rows, cycles[0]), cycles[1..], target))
  }

  // ---- counting is enough --------------------------------------------------

  // SNS as a relay that counts sees it: without classification, no error is
  // known to be permanent.
  function SeenOutcome(cure: Cure, o: Outcome): Outcome {
    if o.Refused? && !cure.classify then o.(exc := OtherError) else o
  }

  function Seen(cure: Cure, sns: Sns): Sns { (id: EventId) => SeenOutcome(cure, sns(id)) }

  function SeenCycle(cure: Cure, c: Cycle): Cycle { c.(sns := Seen(cure, c.sns)) }

  function SeenCycles(cure: Cure, cycles: seq<Cycle>): seq<Cycle>
    ensures |SeenCycles(cure, cycles)| == |cycles|
    ensures forall i :: 0 <= i < |cycles| ==> SeenCycles(cure, cycles)[i] == SeenCycle(cure, cycles[i])
  {
    seq(|cycles|, i requires 0 <= i < |cycles| => SeenCycle(cure, cycles[i]))
  }

  lemma {:induction false} CountingIsRunBatch(cfg: RelayConfig, cure: Cure, rows: Table, ids: seq<EventId>, sns: Sns)
    requires cure.counter
    ensures CuredBatch(cfg, cure, rows, ids, sns) == RunBatch(cfg, rows, {}, ids, Seen(cure, sns))
    decreases |ids|
  {
    if ids != [] {
      var id := ids[0];
      CountingIsRunBatch(cfg, cure, rows, ids[1..], sns);
      if id in rows {
        CountingIsRunBatch(cfg, cure, rows[id := Treat(cfg, cure, rows[id], sns(id))], ids[1..], sns);
      }
    }
  }

  lemma {:induction false} CountingRuns(cfg: RelayConfig, cure: Cure, rows: Table, cycles: seq<Cycle>, target: EventId)
    requires cure.counter && CuredRun(cfg, cure, rows, cycles)
    ensures ValidRun(cfg, rows, SeenCycles(cure, cycles))
    ensures Attempted(cfg, rows, SeenCycles(cure, cycles), target) ==> CuredAttempted(cfg, cure, rows, cycles, target)
    decreases |cycles|
  {
    if cycles != [] {
      var c := cycles[0];
      CountingIsRunBatch(cfg, cure, rows, c.ids, c.sns);
      assert SeenCycles(cure, cycles)[0] == SeenCycle(cure, c);
      assert SeenCycles(cure, cycles)[1..] == SeenCycles(cure, cycles[1..]);
      CountingRuns(cfg, cure, CuredAfter(cfg, cure, rows, c), cycles[1..], target);
    }
  }

  // ---- nothing else is -----------------------------------------------------

  // A refused publish that is not, or not known to be, permanent.
  predicate Unlisted(cure: Cure, o: Outcome) { o.Refused? && !Broken(cure, o) }

  // With one refused, unlisted row at the head, a relay that does not count
  // tries no other row in any number of cycles: each poll ends at the head and
  // leaves the table as it was, however many rows arrive behind it.
  lemma {:induction false} HeadStarvesRest(cfg: RelayConfig, cure: Cure, rows: Table, cycles: seq<Cycle>,
                                           head: EventId, target: EventId)
    requires cfg.Valid() && !cure.counter && CuredRun(cfg, cure, rows, cycles)
    requires head in EligibleIds(cfg, rows) && target != head
    requires forall id :: id in EligibleIds(cfg, rows) && id != head ==> rows[head].createdAt < rows[id].createdAt
    requires ArrivalsAfter(cycles, rows[head].createdAt)
    requires forall i :: 0 <= i < |cycles| ==> Unlisted(cure, cycles[i].sns(head))
    ensures !CuredAttempted(cfg, cure, rows, cycles, target)
    decreases |cycles|
  {
    if cycles != [] {
      var c, rest := cycles[0], cycles[1..];
      assert head in c.ids;
      assert c.ids[0] == head;
      assert CuredBatch(cfg, cure, rows, c.ids, c.sns).attempted == [head];
      var rows' := CuredAfter(cfg, cure, rows, c);
      assert rows' == rows + c.arrivals;
      forall i | 0 <= i < |rest| ensures Unlisted(cure, rest[i].sns(head)) {
        assert rest[i] == cycles[i + 1];
      }
      forall i, id | 0 <= i < |rest| && id in rest[i].arrivals
        ensures rows'[head].createdAt < rest[i].arrivals[id].createdAt
      {
        assert rest[i] == cycles[i + 1];
      }
      HeadStarvesRest(cfg, cure, rows', rest, head, target);
    }
  }

  const HEAD: Row := SampleRow(1, 0)
  const BEHIND: Row := SampleRow(2, 1)

  function Refusing(cfg: RelayConfig): Cycle {
    Cycle(if cfg.batchSize == 1 then [1] else [1, 2], (_: EventId) => Refused(OtherError, Counted), map[])
  }

  lemma {:induction false} RefusedForEver(cfg: RelayConfig, cure: Cure, n: nat) returns (cycles: seq<Cycle>)
    requires cfg.Valid() && !cure.counter
    ensures |cycles| == n && CuredRun(cfg, cure, map[1 := HEAD, 2 := BEHIND], cycles)
    ensures forall i :: 0 <= i < n ==> cycles[i] == Refusing(cfg)
  {
    cycles := [];
    if n > 0 {
      var rest := RefusedForEver(cfg, cure, n - 1);
      var c, rows := Refusing(cfg), map[1 := HEAD, 2 := BEHIND];
      assert ValidCycle(cfg, rows, c);
      assert CuredAfter(cfg, cure, rows, c) == rows;
      cycles := [c] + rest;
    }
  }

  // A row with k eligible rows ahead of it is tried within k*maxAttempts + 1
  // cycles, in every run.
  ghost predicate NeverStalls(cfg: RelayConfig, cure: Cure) {
    forall rows: Table, cycles: seq<Cycle>, target: EventId ::
      TableSettled(cfg, rows) && CuredRun(cfg, cure, rows, cycles) && target in EligibleIds(cfg, rows)
      && ArrivalsAfter(cycles, rows[target].createdAt) && |cycles| >= cfg.maxAttempts * |Ahead(cfg, rows, target)| + 1
      ==> CuredAttempted(cfg, cure, rows, cycles, target)
  }

  lemma NeverStallsIffCounting(cfg: RelayConfig, cure: Cure)
    requires cfg.Valid()
    ensures NeverStalls(cfg, cure) <==> cure.counter
  {
    if cure.counter {
      forall rows: Table, cycles: seq<Cycle>, target: EventId |
        TableSettled(cfg, rows) && CuredRun(cfg, cure, rows, cycles) && target in EligibleIds(cfg, rows)
        && ArrivalsAfter(cycles, rows[target].createdAt) && |cycles| >= cfg.maxAttempts * |Ahead(cfg, rows, target)| + 1
        ensures CuredAttempted(cfg, cure, rows, cycles, target) {
        CountingRuns(cfg, cure, rows, cycles, target);
        HeadOfLineFreedom(cfg, rows, SeenCycles(cure, cycles), target);
      }
    } else {
      var rows := map[1 := HEAD, 2 := BEHIND];
      assert 2 in EligibleIds(cfg, rows);
      var cycles := RefusedForEver(cfg, cure, cfg.maxAttempts * |Ahead(cfg, rows, 2)| + 1);
      HeadStarvesRest(cfg, cure, rows, cycles, 1, 2);
    }
  }

  lemma ListedErrorGoesOn(cfg: RelayConfig, cure: Cure, rows: Table, ids: seq<EventId>, sns: Sns)
    requires cure.classify && ids != [] && ids[0] in rows && !rows[ids[0]].published
    requires Recorded(sns(ids[0])) && !Transient(sns(ids[0]))
    ensures var row := Treat(cfg, cure, rows[ids[0]], sns(ids[0]));
            var poll, rest := CuredBatch(cfg, cure, rows, ids, sns),
                              CuredBatch(cfg, cure, rows[ids[0] := row], ids[1..], sns);
            && (row.published || row.parked) && poll.attempted == [ids[0]] + rest.attempted
            && poll.rows == rest.rows && poll.abandoned == rest.abandoned && poll.raised == rest.raised
  {
  }

  // Listed errors never cost the rows behind them anything: with
  // classification, and counting or not, the poll goes through its whole batch.
  lemma {:induction false} ListedErrorsNeverCut(cfg: RelayConfig, cure: Cure, rows: Table, ids: seq<EventId>, sns: Sns)
    requires cure.classify && Distinct(ids)
    requires forall i :: 0 <= i < |ids| ==> ids[i] in rows && !rows[ids[i]].published
    requires forall i :: 0 <= i < |ids| ==> Recorded(sns(ids[i])) && !Transient(sns(ids[i]))
    ensures var poll := CuredBatch(cfg, cure, rows, ids, sns);
            && poll.attempted == ids && !poll.abandoned && !poll.raised
            && poll.rows.Keys == rows.Keys
            && (forall id :: id in rows && id !in ids ==> poll.rows[id] == rows[id])
            && (forall i :: 0 <= i < |ids| ==> poll.rows[ids[i]].published || poll.rows[ids[i]].parked)
    decreases |ids|
  {
    if ids != [] {
      var id, rest := ids[0], ids[1..];
      ListedErrorGoesOn(cfg, cure, rows, ids, sns);
      var rows' := rows[id := Treat(cfg, cure, rows[id], sns(id))];
      forall i | 0 <= i < |rest|
        ensures rest[i] in rows' && !rows'[rest[i]].published && Recorded(sns(rest[i])) && !Transient(sns(rest[i]))
      {
        assert rest[i] == ids[i + 1] && ids[0] != ids[i + 1];
      }
      ListedErrorsNeverCut(cfg, cure, rows', rest, sns);
      assert id !in rest;
      ListedErrorsJoin(rows, rows', ids, CuredBatch(cfg, cure, rows', rest, sns).rows);
    }
  }

  // The rest of the batch, and then the first row too.
  lemma ListedErrorsJoin(rows: Table, rows': Table, ids: seq<EventId>, after: Table)
    requires ids != [] && ids[0] in rows && ids[0] !in ids[1..] && rows'.Keys == rows.Keys == after.Keys
    requires forall id :: id in rows && id != ids[0] ==> rows'[id] == rows[id]
    requires rows'[ids[0]].published || rows'[ids[0]].parked
    requires forall id :: id in rows' && id !in ids[1..] ==> after[id] == rows'[id]
    requires forall i :: 0 <= i < |ids[1..]| ==>
               ids[1..][i] in after && (after[ids[1..][i]].published || after[ids[1..][i]].parked)
    ensures forall id :: id in rows && id !in ids ==> after[id] == rows[id]
    ensures forall i :: 0 <= i < |ids| ==> ids[i] in after && (after[ids[i]].published || after[ids[i]].parked)
  {
    assert ids == [ids[0]] + ids[1..];
    forall i | 0 <= i < |ids| ensures ids[i] in after && (after[ids[i]].published || after[ids[i]].parked) {
      if i > 0 { assert ids[i] == ids[1..][i - 1]; }
    }
  }

  // The loop as it is, is this loop with both cures.
  lemma CodeHasBoth(cfg: RelayConfig, rows: Table, ids: seq<EventId>, sns: Sns)
    ensures CuredBatch(cfg, CODE, rows, ids, sns) == RunBatch(cfg, rows, {}, ids, sns)
  {
    CountingIsRunBatch(cfg, CODE, rows, ids, sns);
    SameAnswers(cfg, rows, ids, sns, Seen(CODE, sns));
  }

  lemma {:induction false} SameAnswers(cfg: RelayConfig, rows: Table, ids: seq<EventId>, a: Sns, b: Sns)
    requires forall id :: a(id) == b(id)
    ensures RunBatch(cfg, rows, {}, ids, a) == RunBatch(cfg, rows, {}, ids, b)
    decreases |ids|
  {
    if ids != [] {
      SameAnswers(cfg, rows, ids[1..], a, b);
      if ids[0] in rows { SameAnswers(cfg, rows[ids[0] := Attempt(cfg, rows[ids[0]], a(ids[0]))], ids[1..], a, b); }
    }
  }
}
