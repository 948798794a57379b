// Each documented decision of relay/service.py is necessary as well as
// sufficient: for every design, a guarantee holds over all runs exactly when
// the decision it rests on is made.
module RelayDesign {
  import opened Base
  import opened Outbox
  import opened RelayProtocol

  const ROW: Row := SampleRow(1, 0)

  ghost predicate Reached(cfg: RelayConfig, d: Design, steps: seq<Step>, s: State) {
    Run(cfg, d, EMPTY, steps) && After(cfg, d, EMPTY, steps) == s
  }

  lemma Do(cfg: RelayConfig, d: Design, steps: seq<Step>, s: State, step: Step) returns (steps': seq<Step>, s': State)
    requires Reached(cfg, d, steps, s) && Enabled(cfg, d, s, step)
    ensures steps' == steps + [step] && s' == Apply(cfg, d, s, step) && Reached(cfg, d, steps', s')
  {
    RunOne(cfg, d, s, step);
    RunJoin(cfg, d, EMPTY, steps, [step]);
    steps', s' := steps + [step], Apply(cfg, d, s, step);
  }

  // One fresh row, and relays 0 and 1 both holding the batch [1].
  lemma TwoReaders(cfg: RelayConfig, d: Design) returns (steps: seq<Step>, s: State)
    requires cfg.Valid()
    ensures Reached(cfg, d, steps, s) && steps == [Insert(1, ROW), ReadBatch(0, [1]), ReadBatch(1, [1])]
    ensures s == State(map[1 := ROW], map[], map[0 := Batch([1]), 1 := Batch([1])], map[])
  {
    steps, s := [], EMPTY;
    steps, s := Do(cfg, d, steps, s, Insert(1, ROW));
    assert PendingAnswer(cfg, s.rows, [1]);
    steps, s := Do(cfg, d, steps, s, ReadBatch(0, [1]));
    steps, s := Do(cfg, d, steps, s, ReadBatch(1, [1]));
  }

  // ---- lock and recheck ----------------------------------------------------

  ghost predicate AtMostOnce(cfg: RelayConfig, d: Design) {
    forall steps, id :: Run(cfg, d, EMPTY, steps) && AllFaultFree(steps) ==>
      TallyOf(After(cfg, d, EMPTY, steps), id).accepted <= 1
  }

  // Relay r, holding the batch [1], locks the row and publishes it.
  lemma Publishes(cfg: RelayConfig, d: Design, steps: seq<Step>, s: State, r: RelayId)
    returns (steps': seq<Step>, s': State)
    requires Reached(cfg, d, steps, s) && PcOf(s, r) == Batch([1]) && !d.markFirst
    requires 1 in s.rows && s.locks == map[] && Found(d, s, 1)
    ensures Reached(cfg, d, steps', s') && steps' == steps + [Lock(r), PublishOk(r, 1)]
    ensures s'.rows == s.rows && s'.locks == (if d.lock then map[1 := r] else map[])
    ensures PcOf(s', r) == Gap(1, []) && forall q :: q != r ==> PcOf(s', q) == PcOf(s, q)
    ensures TallyOf(s', 1).accepted == TallyOf(s, 1).accepted + 1
  {
    assert [1][1..] == [];
    steps', s' := Do(cfg, d, steps, s, Lock(r));
    steps', s' := Do(cfg, d, steps', s', PublishOk(r, 1));
  }

  // A stale batch: relay 1 locks the row relay 0 has already published.
  lemma StaleBatchDuplicates(cfg: RelayConfig, d: Design) returns (steps: seq<Step>)
    requires cfg.Valid() && !d.recheck && !d.markFirst
    ensures Run(cfg, d, EMPTY, steps) && AllFaultFree(steps)
    ensures TallyOf(After(cfg, d, EMPTY, steps), 1).accepted == 2
  {
    var s;
    steps, s := TwoReaders(cfg, d);
    steps, s := Publishes(cfg, d, steps, s, 0);
    assert PcOf(s, 1) == Batch([1]);
    steps, s := Do(cfg, d, steps, s, Commit(0));
    assert s.locks == map[] && PcOf(s, 1) == Batch([1]);
    steps, s := Publishes(cfg, d, steps, s, 1);
  }

  lemma BothLooked(cfg: RelayConfig, d: Design) returns (steps: seq<Step>, s: State)
    requires cfg.Valid() && !d.lock && !d.markFirst
    ensures Reached(cfg, d, steps, s) && AllFaultFree(steps) && TallyOf(s, 1) == ZERO
    ensures PcOf(s, 0) == Locked(1, []) && PcOf(s, 1) == Locked(1, [])
  {
    assert [1][1..] == [];
    steps, s := TwoReaders(cfg, d);
    steps, s := Do(cfg, d, steps, s, Lock(0));
    steps, s := Do(cfg, d, steps, s, Lock(1));
  }

  // A relay that has looked the row up publishes it.
  lemma Sends1(cfg: RelayConfig, d: Design, steps: seq<Step>, s: State, r: RelayId)
    returns (steps': seq<Step>, s': State)
    requires Reached(cfg, d, steps, s) && PcOf(s, r) == Locked(1, []) && !d.markFirst
    ensures Reached(cfg, d, steps', s') && steps' == steps + [PublishOk(r, 1)]
    ensures TallyOf(s', 1).accepted == TallyOf(s, 1).accepted + 1
    ensures forall q :: q != r ==> PcOf(s', q) == PcOf(s, q)
  {
    steps', s' := Do(cfg, d, steps, s, PublishOk(r, 1));
  }

  // Publishing outside the lock: both relays see the row unpublished.
  lemma NoLockDuplicates(cfg: RelayConfig, d: Design) returns (steps: seq<Step>)
    requires cfg.Valid() && !d.lock && !d.markFirst
    ensures Run(cfg, d, EMPTY, steps) && AllFaultFree(steps)
    ensures TallyOf(After(cfg, d, EMPTY, steps), 1).accepted == 2
  {
    var s;
    steps, s := BothLooked(cfg, d);
    steps, s := Sends1(cfg, d, steps, s, 0);
    steps, s := Sends1(cfg, d, steps, s, 1);
  }

  // Mutual exclusion needs both halves.
  lemma AtMostOnceIffLockAndRecheck(cfg: RelayConfig, d: Design)
    requires cfg.Valid() && !d.markFirst
    ensures AtMostOnce(cfg, d) <==> d.lock && d.recheck
  {
    if d.lock && d.recheck {
      forall steps, id | Run(cfg, d, EMPTY, steps) && AllFaultFree(steps)
        ensures TallyOf(After(cfg, d, EMPTY, steps), id).accepted <= 1 {
        AtMostOnceFaultFree(cfg, d, steps, id);
      }
    } else if !d.recheck {
      var steps := StaleBatchDuplicates(cfg, d);
    } else {
      var steps := NoLockDuplicates(cfg, d);
    }
  }

  // ---- publish before mark -------------------------------------------------

  ghost predicate MarkedMeansSent(cfg: RelayConfig, d: Design) {
    forall steps, id :: Run(cfg, d, EMPTY, steps) && id in After(cfg, d, EMPTY, steps).rows ==>
      var s := After(cfg, d, EMPTY, steps);
      s.rows[id].published ==> TallyOf(s, id).accepted >= 1
  }

  // A row that claims to be sent, was not, and has nobody working on it.
  ghost predicate Lost(s: State, id: EventId) {
    && id in s.rows && s.rows[id].published && TallyOf(s, id).accepted == 0
    && forall r :: NotWorkingOn(s, r, id)
  }

  lemma MarkedUnsent(cfg: RelayConfig, d: Design) returns (steps: seq<Step>, s: State)
    requires cfg.Valid() && d.markFirst
    ensures Reached(cfg, d, steps, s) && s.rows == map[1 := Mark(ROW)] && TallyOf(s, 1).accepted == 0
    ensures PcOf(s, 0) == Marked(1, []) && forall r :: r != 0 ==> !Sending(PcOf(s, r)) && !PcOf(s, r).Gap?
  {
    assert [1][1..] == [];
    steps, s := TwoReaders(cfg, d);
    steps, s := Do(cfg, d, steps, s, Lock(0));
    steps, s := Do(cfg, d, steps, s, MarkFirst(0));
  }

  lemma LossRun(cfg: RelayConfig, d: Design) returns (steps: seq<Step>)
    requires cfg.Valid() && d.markFirst
    ensures Run(cfg, d, EMPTY, steps) && Lost(After(cfg, d, EMPTY, steps), 1)
  {
    var before, s0 := MarkedUnsent(cfg, d);
    var s;
    steps, s := Do(cfg, d, before, s0, Crash(0, 0));
    forall r ensures NotWorkingOn(s, r, 1) {
      assert r != 0 ==> PcOf(s, r) == PcOf(s0, r);
    }
  }

  ghost predicate NotWorkingOn(s: State, r: RelayId, id: EventId) {
    Sending(PcOf(s, r)) || PcOf(s, r).Gap? ==> PcOf(s, r).id != id
  }

  lemma LostKept(cfg: RelayConfig, d: Design, s: State, step: Step, id: EventId)
    requires d.recheck && Lost(s, id) && Enabled(cfg, d, s, step)
    ensures Lost(Apply(cfg, d, s, step), id)
  {
    var s' := Apply(cfg, d, s, step);
    forall r ensures NotWorkingOn(s', r, id) { assert NotWorkingOn(s, r, id); }
    if !step.Insert? {
      assert NotWorkingOn(s, step.r, id);
      if AtWork(NextPc(cfg, d, s, step)) { NextId(cfg, d, s, step); }
    }
  }

  lemma {:induction false} LostForever(cfg: RelayConfig, d: Design, s: State, steps: seq<Step>, id: EventId)
    requires d.recheck && Lost(s, id) && Run(cfg, d, s, steps)
    ensures Lost(After(cfg, d, s, steps), id)
    decreases |steps|
  {
    if steps != [] {
      LostKept(cfg, d, s, steps[0], id);
      LostForever(cfg, d, Apply(cfg, d, s, steps[0]), steps[1..], id);
    }
  }

  // Publish-then-mark never claims a send that did not happen, in any run;
  // mark-then-publish has a run after which the event is never sent at all.
  lemma NoSilentLossIffPublishFirst(cfg: RelayConfig, d: Design)
    requires cfg.Valid()
    ensures MarkedMeansSent(cfg, d) <==> !d.markFirst
    ensures d.markFirst && d.recheck ==>
              exists steps :: Run(cfg, d, EMPTY, steps) &&
                forall more :: Run(cfg, d, After(cfg, d, EMPTY, steps), more) ==>
                  Lost(After(cfg, d, After(cfg, d, EMPTY, steps), more), 1)
  {
    if d.markFirst {
      var steps := LossRun(cfg, d);
      var s := After(cfg, d, EMPTY, steps);
      assert 1 in s.rows;
      if d.recheck {
        forall more | Run(cfg, d, s, more) ensures Lost(After(cfg, d, s, more), 1) {
          LostForever(cfg, d, s, more, 1);
        }
      }
    } else {
      forall steps, id | Run(cfg, d, EMPTY, steps) && id in After(cfg, d, EMPTY, steps).rows
        ensures var s := After(cfg, d, EMPTY, steps); s.rows[id].published ==> TallyOf(s, id).accepted >= 1 {
        SentAlways(cfg, d, EMPTY, steps);
        assert Sent(After(cfg, d, EMPTY, steps), id);
      }
    }
  }

  // ---- counting failures ---------------------------------------------------

  ghost predicate NoCountLost(cfg: RelayConfig, d: Design) {
    forall steps, id :: Run(cfg, d, EMPTY, steps) && id in After(cfg, d, EMPTY, steps).rows ==>
      var s := After(cfg, d, EMPTY, steps);
      s.rows[id].attempts == TallyOf(s, id).recorded
  }

  // Two relays have both failed on row 1 and not yet recorded it.
  lemma TwoFailures(cfg: RelayConfig, d: Design) returns (steps: seq<Step>, s: State)
    requires cfg.Valid() && !d.markFirst && !d.counting.FailedTransaction?
    ensures Reached(cfg, d, steps, s)
    ensures s.rows == map[1 := ROW] && s.locks == map[] && TallyOf(s, 1) == ZERO
    ensures PcOf(s, 0) == Failing(1, [], false) && PcOf(s, 1) == Failing(1, [], false)
  {
    steps, s := TwoReaders(cfg, d);
    steps, s := Do(cfg, d, steps, s, Lock(0));
    steps, s := Do(cfg, d, steps, s, PublishRaises(0, 0, false));
    assert s.locks == map[];
    steps, s := Do(cfg, d, steps, s, Lock(1));
    steps, s := Do(cfg, d, steps, s, PublishRaises(1, 0, false));
  }

  ghost predicate CountLost(cfg: RelayConfig, d: Design, steps: seq<Step>, s: State) {
    Reached(cfg, d, steps, s) && 1 in s.rows && s.rows[1].attempts < TallyOf(s, 1).recorded
  }

  lemma RecordCounts(cfg: RelayConfig, d: Design, s: State, r: RelayId)
    requires Enabled(cfg, d, s, Record(r, false))
    ensures var s', pc := Apply(cfg, d, s, Record(r, false)), PcOf(s, r);
            && TallyOf(s', pc.id).recorded == TallyOf(s, pc.id).recorded + 1
            && forall q :: q != r ==> PcOf(s', q) == PcOf(s, q)
  {
  }

  lemma WritesRead(cfg: RelayConfig, d: Design, s: State, r: RelayId)
    requires d.counting.ReadModifyWrite? && Enabled(cfg, d, s, Record(r, false))
    ensures var s', pc := Apply(cfg, d, s, Record(r, false)), PcOf(s, r);
            pc.id in s'.rows && s'.rows[pc.id].attempts == pc.read + 1 && s'.locks == s.locks
  {
  }

  // Both have read 0.
  lemma BothRead(cfg: RelayConfig, d: Design) returns (steps: seq<Step>, s: State)
    requires cfg.Valid() && !d.markFirst && d.counting.ReadModifyWrite?
    ensures Reached(cfg, d, steps, s) && s.rows == map[1 := ROW] && s.locks == map[] && TallyOf(s, 1) == ZERO
    ensures PcOf(s, 0) == Adding(1, [], false, 0) && PcOf(s, 1) == Adding(1, [], false, 0)
  {
    steps, s := TwoFailures(cfg, d);
    steps, s := Do(cfg, d, steps, s, ReadCount(0));
    steps, s := Do(cfg, d, steps, s, ReadCount(1));
  }

  // ... and both write 1.
  lemma ReadModifyWriteLoses(cfg: RelayConfig, d: Design) returns (steps: seq<Step>, s: State)
    requires cfg.Valid() && !d.markFirst && d.counting.ReadModifyWrite?
    ensures CountLost(cfg, d, steps, s)
  {
    steps, s := BothRead(cfg, d);
    RecordCounts(cfg, d, s, 0);
    WritesRead(cfg, d, s, 0);
    steps, s := Do(cfg, d, steps, s, Record(0, false));
    RecordCounts(cfg, d, s, 1);
    WritesRead(cfg, d, s, 1);
    steps, s := Do(cfg, d, steps, s, Record(1, false));
  }

  // Counting in the transaction the failure destroys: the increment is
  // written, under the row lock, and pending when the exception goes on and
  // the transaction rolls back. No run, however many failures it records,
  // moves a counter off zero or parks a row.
  ghost predicate Untouched(rows: Table) {
    forall id :: id in rows ==> rows[id].attempts == 0 && !rows[id].parked
  }

  lemma {:induction false} StuckAtZero(cfg: RelayConfig, d: Design, s: State, steps: seq<Step>)
    requires d.counting.FailedTransaction? && Untouched(s.rows) && Run(cfg, d, s, steps)
    ensures Untouched(After(cfg, d, s, steps).rows)
    decreases |steps|
  {
    if steps != [] { StuckAtZero(cfg, d, Apply(cfg, d, s, steps[0]), steps[1..]); }
  }

  // Relay 0's publish has failed; the transaction that locked the row is open.
  lemma FailsInTransaction(cfg: RelayConfig, d: Design) returns (steps: seq<Step>, s: State)
    requires cfg.Valid() && !d.markFirst && d.counting.FailedTransaction?
    ensures Reached(cfg, d, steps, s) && s.rows == map[1 := ROW]
    ensures PcOf(s, 0) == Open(1, [], false) && TallyOf(s, 1) == ZERO
  {
    assert [1][1..] == [];
    steps, s := TwoReaders(cfg, d);
    steps, s := Do(cfg, d, steps, s, Lock(0));
    steps, s := Do(cfg, d, steps, s, PublishRaises(0, 0, false));
  }

  // The count was pending, the account remembers it, the row does not.
  lemma AbortForgets(cfg: RelayConfig, d: Design, s: State, r: RelayId)
    requires Enabled(cfg, d, s, Abort(r)) && PcOf(s, r).Doomed?
    ensures Pending(PcOf(s, r)) == CountFailure(PcOf(s, r).permanent)
    ensures var s' := Apply(cfg, d, s, Abort(r));
            s'.rows == s.rows && TallyOf(s', PcOf(s, r).id) == TallyOf(s, PcOf(s, r).id)
  {
  }

  // The failure is counted, its count is pending, and the rollback comes.
  lemma CountsInDoomedTransaction(cfg: RelayConfig, d: Design) returns (steps: seq<Step>, s: State)
    requires cfg.Valid() && !d.markFirst && d.counting.FailedTransaction?
    ensures CountLost(cfg, d, steps, s)
  {
    steps, s := FailsInTransaction(cfg, d);
    RecordCounts(cfg, d, s, 0);
    steps, s := Do(cfg, d, steps, s, Record(0, false));
    AbortForgets(cfg, d, s, 0);
    steps, s := Do(cfg, d, steps, s, Abort(0));
    StuckAtZero(cfg, d, EMPTY, steps);
  }

  // Only a single UPDATE in a transaction of its own counts every failure.
  lemma CountsExactIffOwnUpdate(cfg: RelayConfig, d: Design)
    requires cfg.Valid() && !d.markFirst
    ensures NoCountLost(cfg, d) <==> d.counting.OwnTransaction?
  {
    if d.counting.OwnTransaction? {
      forall steps, id | Run(cfg, d, EMPTY, steps) && id in After(cfg, d, EMPTY, steps).rows
        ensures var s := After(cfg, d, EMPTY, steps); s.rows[id].attempts == TallyOf(s, id).recorded {
        BookkeepingExact(cfg, d, steps, id);
      }
    } else {
      var steps, s;
      if d.counting.ReadModifyWrite? { steps, s := ReadModifyWriteLoses(cfg, d); }
      else { steps, s := CountsInDoomedTransaction(cfg, d); }
      assert 1 in After(cfg, d, EMPTY, steps).rows;
    }
  }

  // ---- parked against published --------------------------------------------

  ghost predicate NeverBoth(cfg: RelayConfig, d: Design, g: Regime) {
    forall steps, id :: Run(cfg, d, EMPTY, steps) && Within(g, steps) && id in After(cfg, d, EMPTY, steps).rows ==>
      var row := After(cfg, d, EMPTY, steps).rows[id];
      !(row.parked && row.published)
  }

  ghost predicate BothAt1(cfg: RelayConfig, d: Design, steps: seq<Step>) {
    Run(cfg, d, EMPTY, steps) &&
    var s := After(cfg, d, EMPTY, steps);
    1 in s.rows && s.rows[1].parked && s.rows[1].published
  }

  // Relay r, holding the batch [1], is refused by SNS and lets go of the row.
  lemma LetsGo(cfg: RelayConfig, d: Design, steps: seq<Step>, s: State, r: RelayId, permanent: bool)
    returns (steps': seq<Step>, s': State)
    requires Shipped(d) && Reached(cfg, d, steps, s) && PcOf(s, r) == Batch([1])
    requires 1 in s.rows && !s.rows[1].published && !s.rows[1].parked && s.locks == map[]
    ensures Reached(cfg, d, steps', s') && steps' == steps + [Lock(r), PublishRaises(r, 0, permanent)]
    ensures s'.rows == s.rows && s'.locks == map[] && s'.relays == s.relays[r := Failing(1, [], permanent)]
  {
    assert [1][1..] == [];
    steps', s' := Do(cfg, d, steps, s, Lock(r));
    steps', s' := Do(cfg, d, steps', s', PublishRaises(r, 0, permanent));
    assert s'.locks == map[];
    assert s'.relays == s.relays[r := Failing(1, [], permanent)];
  }

  // ... and records it.
  lemma LetsGoAndRecords(cfg: RelayConfig, d: Design, steps: seq<Step>, s: State, r: RelayId, permanent: bool)
    returns (steps': seq<Step>, s': State)
    requires Shipped(d) && Reached(cfg, d, steps, s) && PcOf(s, r) == Batch([1])
    requires 1 in s.rows && !s.rows[1].published && !s.rows[1].parked && s.locks == map[]
    ensures Reached(cfg, d, steps', s')
    ensures steps' == steps + [Lock(r), PublishRaises(r, 0, permanent), Record(r, false)]
    ensures s'.rows == s.rows[1 := RecordFailure(cfg, s.rows[1], permanent)] && s'.locks == map[]
    ensures s'.relays == s.relays[r := if permanent then Batch([]) else Idle]
  {
    steps', s' := LetsGo(cfg, d, steps, s, r, permanent);
    steps', s' := Do(cfg, d, steps', s', Record(r, false));
    assert s'.relays == s.relays[r := if permanent then Batch([]) else Idle];
  }

  // Relay 0 parks the row; relay 1's stale batch still names it, and the
  // recheck under the lock looks at `published` only.
  lemma StaleBatchPublishesParked(cfg: RelayConfig) returns (steps: seq<Step>)
    requires cfg.Valid()
    ensures BothAt1(cfg, CODE, steps) && AllFaultFree(steps)
  {
    var s;
    steps, s := TwoReaders(cfg, CODE);
    steps, s := LetsGoAndRecords(cfg, CODE, steps, s, 0, true);
    assert s.rows[1].parked && PcOf(s, 1) == Batch([1]);
    steps, s := Publishes(cfg, CODE, steps, s, 1);
    steps, s := Do(cfg, CODE, steps, s, Commit(1));
  }

  // Relay 0 has let go of the row and not yet recorded why; relay 1 has
  // published it.
  lemma PublishedMeanwhile(cfg: RelayConfig, d: Design) returns (steps: seq<Step>, s: State)
    requires cfg.Valid() && Shipped(d)
    ensures Reached(cfg, d, steps, s) && AllFaultFree(steps)
    ensures s.rows == map[1 := Mark(ROW)] && s.locks == map[] && PcOf(s, 0) == Failing(1, [], true)
  {
    steps, s := TwoReaders(cfg, d);
    steps, s := LetsGo(cfg, d, steps, s, 0, true);
    assert PcOf(s, 1) == Batch([1]) && PcOf(s, 0) == Failing(1, [], true);
    steps, s := Publishes(cfg, d, steps, s, 1);
    steps, s := Do(cfg, d, steps, s, Commit(1));
    assert s.locks == map[];
  }

  // The late record_failure then parks it. Rechecking the parked flag under
  // the lock would not help: when relay 1 looked, it was not set.
  lemma LateRecordParksPublished(cfg: RelayConfig, d: Design) returns (steps: seq<Step>)
    requires cfg.Valid() && Shipped(d)
    ensures BothAt1(cfg, d, steps) && AllFaultFree(steps)
  {
    var s;
    steps, s := PublishedMeanwhile(cfg, d);
    steps, s := Do(cfg, d, steps, s, Record(0, false));
  }

  // Relay 0 polls the one row, which has failed k times.
  lemma PollRow(cfg: RelayConfig, d: Design, steps: seq<Step>, s: State, k: nat) returns (steps': seq<Step>, s': State)
    requires cfg.Valid() && Reached(cfg, d, steps, s) && k < cfg.maxAttempts
    requires s.rows == map[1 := ROW.(attempts := k)] && PcOf(s, 0) == Idle
    ensures Reached(cfg, d, steps', s') && steps' == steps + [ReadBatch(0, [1])]
    ensures s'.rows == s.rows && s'.locks == s.locks && s'.relays == s.relays[0 := Batch([1])]
  {
    assert PendingAnswer(cfg, s.rows, [1]);
    steps', s' := Do(cfg, d, steps, s, ReadBatch(0, [1]));
  }

  // One relay can bring a row to any number of attempts short of the limit.
  lemma {:induction false} FailTimes(cfg: RelayConfig, d: Design, k: nat) returns (steps: seq<Step>, s: State)
    requires cfg.Valid() && Shipped(d) && k < cfg.maxAttempts
    ensures Reached(cfg, d, steps, s) && Within(SOLO, steps)
    ensures s.rows == map[1 := ROW.(attempts := k)] && s.locks == map[] && PcOf(s, 0) == Idle
  {
    if k == 0 {
      steps, s := Do(cfg, d, [], EMPTY, Insert(1, ROW));
    } else {
      steps, s := FailTimes(cfg, d, k - 1);
      steps, s := PollRow(cfg, d, steps, s, k - 1);
      steps, s := LetsGoAndRecords(cfg, d, steps, s, 0, false);
      assert s.rows == map[1 := ROW.(attempts := k)];
    }
  }

  // Relay 0, holding the batch [1], publishes; the commit applies but raises.
  lemma SentButReplyLost(cfg: RelayConfig, d: Design, steps: seq<Step>, s: State) returns (steps': seq<Step>, s': State)
    requires Shipped(d) && Reached(cfg, d, steps, s) && PcOf(s, 0) == Batch([1])
    requires 1 in s.rows && !s.rows[1].published && !s.rows[1].parked && s.locks == map[]
    ensures Reached(cfg, d, steps', s')
    ensures steps' == steps + [Lock(0), PublishOk(0, 1)] + [CommitReplyLost(0)] + [Record(0, false)]
    ensures s'.rows == s.rows[1 := RecordFailure(cfg, Mark(s.rows[1]), false)]
  {
    steps', s' := Publishes(cfg, d, steps, s, 0);
    steps', s' := Do(cfg, d, steps', s', CommitReplyLost(0));
    assert s'.locks == map[];
    steps', s' := Do(cfg, d, steps', s', Record(0, false));
  }

  // The last permitted attempt is marked, but the commit's reply is lost:
  // record_failure then parks a published row.
  lemma LostCommitReplyParksPublished(cfg: RelayConfig, d: Design) returns (steps: seq<Step>)
    requires cfg.Valid() && Shipped(d)
    ensures BothAt1(cfg, d, steps) && Within(Regime(true, false), steps)
  {
    var before, s := FailTimes(cfg, d, cfg.maxAttempts - 1);
    var polled;
    polled, s := PollRow(cfg, d, before, s, cfg.maxAttempts - 1);
    steps, s := SentButReplyLost(cfg, d, polled, s);
    forall i | 0 <= i < |steps| ensures Permits(Regime(true, false), steps[i]) {
      if i < |before| { assert Permits(SOLO, before[i]); }
    }
  }

  // Parked and published exclude each other exactly under one relay whose
  // commits do not lie, whether or not the lock rechecks the parked flag.
  lemma NeverBothIffSoloAndAtomic(cfg: RelayConfig, d: Design, g: Regime)
    requires cfg.Valid() && Shipped(d)
    ensures NeverBoth(cfg, d, g) <==> g.oneRelay && g.atomicCommits
  {
    if g.oneRelay && g.atomicCommits {
      forall steps, id | Run(cfg, d, EMPTY, steps) && Within(g, steps) && id in After(cfg, d, EMPTY, steps).rows
        ensures var row := After(cfg, d, EMPTY, steps).rows[id]; !(row.parked && row.published) {
        assert g == SOLO;
        SoloParkedStaysParked(cfg, d, steps, id);
      }
    } else if !g.oneRelay {
      var steps := LateRecordParksPublished(cfg, d);
      forall i | 0 <= i < |steps| ensures Permits(g, steps[i]) { assert FaultFree(steps[i]); }
      assert 1 in After(cfg, d, EMPTY, steps).rows;
    } else {
      var steps := LostCommitReplyParksPublished(cfg, d);
      forall i | 0 <= i < |steps| ensures Permits(g, steps[i]) { assert Permits(Regime(true, false), steps[i]); }
      assert 1 in After(cfg, d, EMPTY, steps).rows;
    }
  }
}
