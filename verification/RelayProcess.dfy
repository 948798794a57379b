// relay/service.py and relay/main.py as written: a process that updates the
// outbox rows and their locks in place. `proto` is the protocol state the
// process is in; every method is shown to be a run of the protocol, so what
// holds of all its runs holds of this code.
module RelayProcess {
  import opened Arithmetic
  import opened Base
  import opened Outbox
  import opened RelayProtocol
  import Drain

  // What one poll meets: whether the read succeeded, how each attempt ended,
  // how many messages beyond the relay's own view SNS took, and the rows the
  // Order Service commits before the next poll.
  datatype World = World(readOk: bool, sns: Sns, extra: EventId -> nat, arrivals: Table)

  datatype Returned = Returned(ours: bool) | Raising(exc: Exc)

  // The return value of relay_batch, or the exception out of it.
  datatype Report = Report(published: nat, seen: nat, raised: bool)

  // The exception relay_one raises; a database error is no SNS error.
  function ExcOf(o: Outcome): Exc { if o.Refused? then o.exc else OtherError }

  // How many messages SNS accepts of one attempt: a call that returns has at
  // least one, and the client's retries may add more.
  function Delivered(w: World, id: EventId): nat {
    match w.sns(id)
    case Accepted => 1 + w.extra(id)
    case CommitRaised(_, _) => 1 + w.extra(id)
    case Refused(_, _) => w.extra(id)
    case LookupRaised(_) => 0
  }

  predicate Marks(o: Outcome) { o.Accepted? || (o.CommitRaised? && o.applied) }

  function Repeat<T>(x: T, n: nat): (s: seq<T>)
    ensures |s| == n && forall i :: 0 <= i < n ==> s[i] == x
  {
    seq(n, _ => x)
  }

  function Taken(s: State, step: Step, id: EventId): nat { if Emits(s, step).0 == id then Emits(s, step).1 else 0 }

  // The messages of one row among these.
  function Count(sent: seq<Event>, id: EventId): nat {
    if sent == [] then 0 else Count(sent[..|sent| - 1], id) + One(sent[|sent| - 1].eventId == id)
  }

  // What the rows tried leave at SNS, in order.
  function Mailed(rows: Table, w: World, ids: seq<EventId>): seq<Event>
    requires forall i :: 0 <= i < |ids| ==> ids[i] in rows
    decreases |ids|
  {
    if ids == [] then []
    else
      var last := |ids| - 1;
      Mailed(rows, w, ids[..last]) + Repeat(BuildMessage(ids[last], rows[ids[last]]), Delivered(w, ids[last]))
  }

  method AnyOf<T>(s: set<T>) returns (x: T)
    requires s != {}
    ensures x in s
  {
    x :| x in s;
  }

  // A relay's own steps, among rows arriving.
  predicate OwnSteps(trace: seq<Step>, me: RelayId) {
    forall i :: 0 <= i < |trace| ==> trace[i].Insert? || trace[i].r == me
  }

  // What the relay's messages can be judged by at one moment.
  datatype Snapshot = Snapshot(rows: Table, sent: seq<Event>, proto: State)

  // No row is gone or stands for another event.
  ghost predicate SameEvents(a: Table, b: Table) {
    forall id :: id in a ==> id in b && BuildMessage(id, b[id]) == BuildMessage(id, a[id])
  }

  predicate Own(rows: Table, m: Event) { m.eventId in rows && m == BuildMessage(m.eventId, rows[m.eventId]) }

  // Between the two moments the relay only added messages, each of a row of
  // the table, and row by row as many as the protocol's account grew by.
  ghost predicate Accounted(a: Snapshot, b: Snapshot) {
    && a.sent <= b.sent
    && SameEvents(a.rows, b.rows)
    && (forall i :: |a.sent| <= i < |b.sent| ==> Own(b.rows, b.sent[i]))
    && (forall id :: TallyOf(b.proto, id).accepted ==
                       TallyOf(a.proto, id).accepted + Count(b.sent[|a.sent|..], id))
  }

  // The row a turn tries, if it tries it.
  function Tried(rows: Table, busy: set<EventId>, id: EventId, o: Outcome): seq<EventId> {
    if Ours(rows, busy, id) || o.LookupRaised? then [id] else []
  }

  // Of a poll this much is done, leaving the table so, and unless the loop
  // has been left `tail` is to come.
  ghost predicate Leaves(poll: Poll, tail: Poll, rows: Table, tried: seq<EventId>,
                         published: nat, go: bool, raised: bool) {
    && poll.rows == (if go then tail.rows else rows)
    && poll.raised == (if go then tail.raised else raised)
    && poll.published == published + (if go then tail.published else 0)
    && poll.attempted == tried + (if go then tail.attempted else [])
    && (raised ==> !go)
  }

  // One turn of the loop in relay_batch did this to table and messages.
  ghost predicate TurnDone(cfg: RelayConfig, busy: set<EventId>, w: World, id: EventId, rest: seq<EventId>,
                           a: Snapshot, b: Snapshot, published: nat, go: bool, raised: bool)
    requires id in a.rows
  {
    var tried := Tried(a.rows, busy, id, w.sns(id));
    && b.sent == a.sent + (if tried == [] then [] else Repeat(BuildMessage(id, a.rows[id]), Delivered(w, id)))
    && Leaves(RunBatch(cfg, a.rows, busy, [id] + rest, w.sns), RunBatch(cfg, b.rows, busy, rest, w.sns),
              b.rows, tried, published, go, raised)
  }

  // The loop has come so far in the poll: the rows `tried` have been.
  ghost predicate Worked(cfg: RelayConfig, busy: set<EventId>, w: World, ids: seq<EventId>, i: nat,
                         a: Snapshot, b: Snapshot, tried: seq<EventId>, published: nat, go: bool, raised: bool)
    requires i <= |ids|
  {
    && (forall k :: 0 <= k < |tried| ==> tried[k] in a.rows)
    && b.sent == a.sent + Mailed(a.rows, w, tried)
    && Leaves(RunBatch(cfg, a.rows, busy, ids, w.sns), RunBatch(cfg, b.rows, busy, ids[i..], w.sns),
              b.rows, tried, published, go, raised)
  }

  // One poll: the ids it read, what it returned, and the table it and the
  // arrivals after it left.
  datatype Polled = Polled(ids: seq<EventId>, report: Report, after: Table)

  ghost predicate PolledFrom(cfg: RelayConfig, busy: set<EventId>, rows: Table, w: World, p: Polled) {
    if w.readOk then
      var poll := RunBatch(cfg, rows, busy, p.ids, w.sns);
      && PendingAnswer(cfg, rows, p.ids) && p.report == Report(poll.published, |p.ids|, poll.raised)
      && p.after == poll.rows + (w.arrivals - poll.rows.Keys)
    else p.report == Report(0, 0, true) && p.after == rows + (w.arrivals - rows.Keys)
  }

  // The table the polls left.
  function TableAfter(rows: Table, polls: seq<Polled>): Table {
    if polls == [] then rows else polls[|polls| - 1].after
  }

  // Each poll met its world, on the table the one before left.
  ghost predicate AllPolled(cfg: RelayConfig, busy: set<EventId>, rows: Table, worlds: seq<World>, polls: seq<Polled>)
    decreases |polls|
  {
    |polls| == |worlds| &&
    (polls == [] ||
     var last := |polls| - 1;
     && AllPolled(cfg, busy, rows, worlds[..last], polls[..last])
     && PolledFrom(cfg, busy, TableAfter(rows, polls[..last]), worlds[last], polls[last]))
  }

  lemma PolledMore(cfg: RelayConfig, busy: set<EventId>, rows: Table, worlds: seq<World>, polls: seq<Polled>, p: Polled)
    requires |polls| < |worlds| && AllPolled(cfg, busy, rows, worlds[..|polls|], polls)
    requires PolledFrom(cfg, busy, TableAfter(rows, polls), worlds[|polls|], p)
    ensures AllPolled(cfg, busy, rows, worlds[..|polls| + 1], polls + [p])
  {
    var n, more := |polls|, polls + [p];
    assert more[..n] == polls && worlds[..n + 1][..n] == worlds[..n] && worlds[..n + 1][n] == worlds[n];
  }

  // So far the query has chosen `ids`, and `left` are the eligible rows still
  // to choose from.
  ghost predicate Chosen(cfg: RelayConfig, rows: Table, ids: seq<EventId>, left: set<EventId>) {
    && Distinct(ids) && |ids| <= cfg.batchSize && left <= rows.Keys
    && (forall e :: e in EligibleIds(cfg, rows) <==> e in ids || e in left)
    && (forall i :: 0 <= i < |ids| ==> ids[i] !in left && ids[i] in rows && Eligible(cfg, rows[ids[i]]))
    && (forall i, j :: 0 <= i < j < |ids| ==> rows[ids[i]].createdAt <= rows[ids[j]].createdAt)
    && (forall i, e :: 0 <= i < |ids| && e in left ==> rows[ids[i]].createdAt <= rows[e].createdAt)
  }

  lemma ChosenMore(cfg: RelayConfig, rows: Table, ids: seq<EventId>, left: set<EventId>, oldest: EventId)
    requires Chosen(cfg, rows, ids, left) && |ids| < cfg.batchSize && oldest in left
    requires forall e :: e in left ==> rows[oldest].createdAt <= rows[e].createdAt
    ensures Chosen(cfg, rows, ids + [oldest], left - {oldest})
  {
    assert oldest in EligibleIds(cfg, rows);
  }

  lemma ChosenIsAnswer(cfg: RelayConfig, rows: Table, ids: seq<EventId>, left: set<EventId>)
    requires Chosen(cfg, rows, ids, left) && (left == {} || |ids| == cfg.batchSize)
    ensures PendingAnswer(cfg, rows, ids)
    ensures |ids| < cfg.batchSize ==> forall id :: id in rows && Eligible(cfg, rows[id]) ==> id in ids
  {
    forall id | id in rows && Eligible(cfg, rows[id]) ensures id in ids || id in left {
      assert id in EligibleIds(cfg, rows);
    }
  }

  class Relay {
    const cfg: RelayConfig
    const me: RelayId
    var rows: Table
    var locks: map<EventId, RelayId>
    var sent: seq<Event>            // every message SNS accepted, in order

    // The protocol: the run of all relays that the relay found on starting,
    // the steps taken since and the state they led to.
    ghost const past: seq<Step>
    ghost var trace: seq<Step>
    ghost var proto: State

    ghost predicate Traced()
      reads this
    {
      && cfg.Valid() && OwnSteps(trace, me)
      && Run(cfg, CODE, EMPTY, past) && Run(cfg, CODE, After(cfg, CODE, EMPTY, past), trace)
      && After(cfg, CODE, After(cfg, CODE, EMPTY, past), trace) == proto
    }

    // The rows and locks are those the protocol has reached.
    ghost predicate Valid()
      reads this
    {
      Traced() && proto.rows == rows && proto.locks == locks
    }

    ghost predicate At(pc: Pc)
      reads this
    {
      PcOf(proto, me) == pc
    }

    ghost function Now(): Snapshot
      reads this
    {
      Snapshot(rows, sent, proto)
    }

    // Nothing was handed to SNS.
    twostate predicate Silent()
      reads this
    {
      SameEvents(old(rows), rows) && forall id :: TallyOf(proto, id).accepted == TallyOf(old(proto), id).accepted
    }

    constructor (cfg: RelayConfig, me: RelayId, ghost past: seq<Step>, rows: Table, locks: map<EventId, RelayId>)
      requires cfg.Valid() && Run(cfg, CODE, EMPTY, past)
      requires After(cfg, CODE, EMPTY, past).rows == rows && After(cfg, CODE, EMPTY, past).locks == locks
      ensures Valid() && this.cfg == cfg && this.me == me && this.past == past && trace == [] && sent == []
      ensures this.rows == rows && this.locks == locks && proto == After(cfg, CODE, EMPTY, past)
    {
      this.cfg, this.me, this.rows, this.locks, this.sent := cfg, me, rows, locks, [];
      this.past, this.trace, this.proto := past, [], After(cfg, CODE, EMPTY, past);
    }

    ghost method Take(step: Step)
      requires Traced() && Enabled(cfg, CODE, proto, step) && (step.Insert? || step.r == me)
      modifies `trace, `proto
      ensures Traced() && proto == Apply(cfg, CODE, old(proto), step) && trace == old(trace) + [step]
      ensures forall id :: TallyOf(proto, id).accepted == TallyOf(old(proto), id).accepted + Taken(old(proto), step, id)
    {
      forall id
        ensures TallyOf(Apply(cfg, CODE, proto, step), id).accepted ==
                TallyOf(proto, id).accepted + Taken(proto, step, id)
      {
        EmitsCounted(cfg, proto, step, id);
      }
      RunOne(cfg, CODE, proto, step);
      RunJoin(cfg, CODE, After(cfg, CODE, EMPTY, past), trace, [step]);
      trace, proto := trace + [step], Apply(cfg, CODE, proto, step);
    }

    // The table is one some run of all the relays has led to.
    lemma Reachable() returns (run: seq<Step>)
      requires Valid()
      ensures Run(cfg, CODE, EMPTY, run) && After(cfg, CODE, EMPTY, run) == proto
    {
      RunJoin(cfg, CODE, EMPTY, past, trace);
      run := past + trace;
    }

    method Oldest(left: set<EventId>) returns (id: EventId)
      requires left != {} && left <= rows.Keys
      ensures id in left && forall e :: e in left ==> rows[id].createdAt <= rows[e].createdAt
    {
      id := AnyOf(left);
      var todo := left - {id};
      while todo != {}
        invariant id in left && todo <= left
        invariant forall e :: e in left - todo ==> rows[id].createdAt <= rows[e].createdAt
        decreases todo
      {
        var e := AnyOf(todo);
        if rows[e].createdAt < rows[id].createdAt { id := e; }
        todo := todo - {e};
      }
    }

    // pending_event_ids: filter, order by created_at, limit.
    method PendingEventIds() returns (ids: seq<EventId>)
      ensures PendingAnswer(cfg, rows, ids)
      // Rows neither published nor parked with attempts left, at most a batch,
      // and all of them if they are fewer.
      ensures |ids| <= cfg.batchSize
      ensures forall id :: id in ids ==>
                id in rows && !rows[id].published && !rows[id].parked && rows[id].attempts < cfg.maxAttempts
      ensures |ids| < cfg.batchSize ==>
                forall id | id in rows :: !rows[id].published && !rows[id].parked && rows[id].attempts < cfg.maxAttempts
                  ==> id in ids
    {
      ids := [];
      var left := set id | id in rows && Eligible(cfg, rows[id]);
      while left != {} && |ids| < cfg.batchSize
        invariant Chosen(cfg, rows, ids, left)
        decreases left
      {
        var oldest := Oldest(left);
        ChosenMore(cfg, rows, ids, left, oldest);
        ids := ids + [oldest];
        left := left - {oldest};
      }
      ChosenIsAnswer(cfg, rows, ids, left);
    }

    // SELECT ... WHERE published = false FOR UPDATE SKIP LOCKED.
    method Claim(id: EventId, ghost rest: seq<EventId>) returns (ours: bool)
      requires Valid() && At(Batch([id] + rest))
      modifies `locks, `proto, `trace
      ensures Valid() && Silent() && ours == Ours(rows, old(locks).Keys, id)
      ensures ours <==> id in rows && id !in old(locks) && !rows[id].published
      ensures if ours then locks == old(locks)[id := me] && At(Locked(id, rest))
              else locks == old(locks) && At(Batch(rest))
    {
      assert ([id] + rest)[1..] == rest;
      if id !in rows || id in locks || rows[id].published {
        Take(Skip(me));
        return false;
      }
      locks := locks[id := me];
      Take(Lock(me));
      return true;
    }

    // publisher.publish under the lock, then the mark and the commit; any
    // exception rolls the transaction back and releases the lock.
    method PublishAndMark(id: EventId, w: World, ghost rest: seq<EventId>) returns (result: Returned)
      requires Valid() && At(Locked(id, rest)) && id in rows && id in locks && !w.sns(id).LookupRaised?
      modifies `rows, `locks, `sent, `proto, `trace
      ensures Valid() && locks == old(locks) - {id} && Accounted(old(Now()), Now())
      ensures sent == old(sent) + Repeat(BuildMessage(id, old(rows)[id]), Delivered(w, id))
      ensures rows == if Marks(w.sns(id)) then old(rows)[id := Mark(old(rows)[id])] else old(rows)
      ensures if w.sns(id).Accepted? then result == Returned(true) && At(Batch(rest))
              else result == Raising(ExcOf(w.sns(id))) && At(Failing(id, rest, Permanent(w.sns(id))))
    {
      var o := w.sns(id);
      HandOver(id, w, rest);
      if o.Refused? {
        locks := locks - {id};
        return Raising(o.exc);
      }
      result := EndTransaction(id, o, rest);
    }

    // The publish call: what SNS takes of it, and whether it raises, which
    // rolls the transaction back.
    method HandOver(id: EventId, w: World, ghost rest: seq<EventId>)
      requires Valid() && At(Locked(id, rest)) && id in rows && id in locks && !w.sns(id).LookupRaised?
      modifies `sent, `proto, `trace
      ensures Traced() && proto.rows == rows && Accounted(old(Now()), Now())
      ensures sent == old(sent) + Repeat(BuildMessage(id, rows[id]), Delivered(w, id))
      ensures if w.sns(id).Refused? then proto.locks == locks - {id} && At(Failing(id, rest, Permanent(w.sns(id))))
              else proto.locks == locks && At(Gap(id, rest))
    {
      var o := w.sns(id);
      ghost var before, n := Now(), Delivered(w, id);
      ghost var step := if o.Refused? then PublishRaises(me, n, Permanent(o)) else PublishOk(me, n);
      sent := sent + Repeat(BuildMessage(id, rows[id]), Delivered(w, id));
      Take(step);
      HandedOver(before, Now(), id, n);
    }

    // session_scope around the accepted publish.
    method EndTransaction(id: EventId, o: Outcome, ghost rest: seq<EventId>) returns (result: Returned)
      requires Valid() && At(Gap(id, rest)) && id in rows && id in locks && (o.Accepted? || o.CommitRaised?)
      modifies `rows, `locks, `proto, `trace
      ensures Valid() && Silent() && locks == old(locks) - {id}
      ensures rows == if Marks(o) then old(rows)[id := Mark(old(rows)[id])] else old(rows)
      ensures if o.Accepted? then result == Returned(true) && At(Batch(rest))
              else result == Raising(OtherError) && At(Failing(id, rest, false))
    {
      ghost var step := if o.Accepted? then Commit(me) else if o.applied then CommitReplyLost(me) else CommitRaises(me);
      Take(step);
      assert forall e :: Taken(old(proto), step, e) == 0;
      if Marks(o) { rows := rows[id := rows[id].(published := true)]; }
      locks := locks - {id};
      return if o.Accepted? then Returned(true) else Raising(OtherError);
    }

    // relay_one.
    method RelayOne(id: EventId, w: World, ghost rest: seq<EventId>) returns (result: Returned)
      requires Valid() && At(Batch([id] + rest)) && id in rows
      modifies `rows, `locks, `sent, `proto, `trace
      ensures Valid() && locks == old(locks) && Accounted(old(Now()), Now())
      ensures
        var o, ours := w.sns(id), Ours(old(rows), locks.Keys, id);
        if o.LookupRaised? || ours then
          && sent == old(sent) + Repeat(BuildMessage(id, old(rows)[id]), Delivered(w, id))
          && rows == (if Marks(o) then old(rows)[id := Mark(old(rows)[id])] else old(rows))
          && if o.Accepted? then result == Returned(true) && At(Batch(rest))
             else result == Raising(ExcOf(o)) && At(Failing(id, rest, Permanent(o)))
        else result == Returned(false) && rows == old(rows) && sent == old(sent) && At(Batch(rest))
    {
      if w.sns(id).LookupRaised? {
        assert ([id] + rest)[1..] == rest;
        Take(LookupRaises(me));
        return Raising(OtherError);
      }
      var ours := Claim(id, rest);
      if !ours { return Returned(false); }
      result := PublishAndMark(id, w, rest);
    }

    // record_failure: one UPDATE of the counter, and the parking UPDATE.
    method RecordFailureOf(id: EventId, permanent: bool, record: Recording, ghost rest: seq<EventId>)
      requires Valid() && At(Failing(id, rest, permanent)) && id in rows && (!record.Uncounted? ==> id !in locks)
      modifies `rows, `proto, `trace
      ensures Valid() && Silent()
      ensures rows == if record.Uncounted? then old(rows)
                      else old(rows)[id := RecordFailure(cfg, old(rows)[id], permanent)]
      ensures !record.Uncounted? ==>
                var was, row := old(rows)[id], rows[id];
                && row.attempts == was.attempts + 1
                && row.parked == (was.parked || permanent || was.attempts + 1 >= cfg.maxAttempts)
                && row == was.(attempts := row.attempts, parked := row.parked)
      ensures At(Resume(permanent, !record.Counted?, rest))
    {
      if record.Uncounted? {
        Take(RecordLost(me));
        return;
      }
      CountAndPark(id, permanent);
      Take(Record(me, !record.Counted?));
    }

    // Its two UPDATEs.
    method CountAndPark(id: EventId, permanent: bool)
      requires id in rows
      modifies `rows
      ensures rows == old(rows)[id := RecordFailure(cfg, old(rows)[id], permanent)] && SameEvents(old(rows), rows)
    {
      var attempts := rows[id].attempts + 1;
      rows := rows[id := rows[id].(attempts := attempts)];
      if permanent || attempts >= cfg.maxAttempts {
        rows := rows[id := rows[id].(parked := true)];
      }
    }

    // The `except` of the loop in relay_batch.
    method Caught(id: EventId, permanent: bool, answer: Recording, ghost rest: seq<EventId>)
      returns (go: bool, raised: bool)
      requires Valid() && At(Failing(id, rest, permanent)) && id in rows
      modifies `rows, `proto, `trace
      ensures Valid() && Silent() && At(if go then Batch(rest) else Idle)
      ensures var record := if id in locks then Uncounted else answer;
              && raised == !record.Counted? && go == (permanent && !raised)
              && rows == if record.Uncounted? then old(rows)
                         else old(rows)[id := RecordFailure(cfg, old(rows)[id], permanent)]
    {
      // A recording that would have to wait for another relay's lock.
      var record := if id in locks then Uncounted else answer;
      RecordFailureOf(id, permanent, record, rest);
      return permanent && record.Counted?, !record.Counted?;
    }

    // The turn in which relay_one raised.
    method TurnFails(id: EventId, exc: Exc, w: World, ghost rest: seq<EventId>, ghost before: Snapshot)
      returns (go: bool, raised: bool)
      requires Valid() && id in rows && id in before.rows && !w.sns(id).Accepted? && exc == ExcOf(w.sns(id))
      requires At(Failing(id, rest, Permanent(w.sns(id)))) && Accounted(before, Now())
      requires w.sns(id).LookupRaised? || Ours(before.rows, locks.Keys, id)
      requires rows == if Marks(w.sns(id)) then before.rows[id := Mark(before.rows[id])] else before.rows
      requires sent == before.sent + Repeat(BuildMessage(id, before.rows[id]), Delivered(w, id))
      modifies `rows, `proto, `trace
      ensures Valid() && rows.Keys == old(rows).Keys && At(if go then Batch(rest) else Idle)
      ensures Accounted(before, Now())
      ensures TurnDone(cfg, locks.Keys, w, id, rest, before, Now(), 0, go, raised)
    {
      ghost var middle := Now();
      go, raised := Caught(id, IsPermanent(exc), w.sns(id).record, rest);
      TurnRaised(cfg, locks.Keys, w, id, rest, before, middle, Now(), go, raised);
    }

    // One turn of the loop in relay_batch. `go` is false for its `break` and
    // for an exception out of it.
    method Turn(id: EventId, w: World, ghost rest: seq<EventId>) returns (published: nat, go: bool, raised: bool)
      requires Valid() && At(Batch([id] + rest)) && id in rows
      modifies `rows, `locks, `sent, `proto, `trace
      ensures Valid() && locks == old(locks) && rows.Keys == old(rows).Keys && At(if go then Batch(rest) else Idle)
      ensures Accounted(old(Now()), Now())
      ensures TurnDone(cfg, locks.Keys, w, id, rest, old(Now()), Now(), published, go, raised)
    {
      ghost var before := Now();
      var result := RelayOne(id, w, rest);
      match result {
        case Returned(ours) =>
          TurnReturned(cfg, locks.Keys, w, id, rest, before, Now(), ours);
          return if ours then 1 else 0, true, false;
        case Raising(exc) =>
          go, raised := TurnFails(id, exc, w, rest, before);
          return 0, go, raised;
      }
    }

    // ... and the poll is one row further.
    method WorkOn(eventIds: seq<EventId>, i: nat, w: World, soFar: nat,
                  ghost before: Snapshot, ghost tried: seq<EventId>)
      returns (published: nat, go: bool, raised: bool, ghost tried': seq<EventId>)
      requires Valid() && i < |eventIds| && At(Batch(eventIds[i..]))
      requires eventIds[i] in rows && eventIds[i] in before.rows
      requires Accounted(before, Now())
      requires Worked(cfg, locks.Keys, w, eventIds, i, before, Now(), tried, soFar, true, false)
      modifies `rows, `locks, `sent, `proto, `trace
      ensures Valid() && locks == old(locks) && rows.Keys == old(rows).Keys
      ensures At(if go then Batch(eventIds[i + 1..]) else Idle) && Accounted(before, Now())
      ensures Worked(cfg, locks.Keys, w, eventIds, i + 1, before, Now(), tried', published, go, raised)
    {
      assert eventIds[i..] == [eventIds[i]] + eventIds[i + 1..];
      ghost var now := Now();
      tried' := tried + Tried(rows, locks.Keys, eventIds[i], w.sns(eventIds[i]));
      published, go, raised := Turn(eventIds[i], w, eventIds[i + 1..]);
      WorkedMore(cfg, locks.Keys, w, eventIds, i, before, now, Now(), tried, soFar, published, go, raised);
      AccountedJoins(before, now, Now());
      published := soFar + published;
    }

    // The loop of relay_batch over the ids it read.
    method WorkThrough(eventIds: seq<EventId>, w: World) returns (published: nat, go: bool, raised: bool)
      requires Valid() && At(Batch(eventIds)) && forall i :: 0 <= i < |eventIds| ==> eventIds[i] in rows
      modifies `rows, `locks, `sent, `proto, `trace
      ensures Valid() && locks == old(locks) && rows.Keys == old(rows).Keys && At(if go then Batch([]) else Idle)
      ensures var poll := RunBatch(cfg, old(rows), old(locks).Keys, eventIds, w.sns);
              && rows == poll.rows && raised == poll.raised && published == poll.published
              && (forall i :: 0 <= i < |poll.attempted| ==> poll.attempted[i] in old(rows))
              && sent == old(sent) + Mailed(old(rows), w, poll.attempted)
      ensures Accounted(old(Now()), Now())
    {
      published, go, raised := 0, true, false;
      ghost var before, tried := Now(), [];
      assert eventIds[0..] == eventIds;
      var i := 0;
      while go && i < |eventIds|
        invariant 0 <= i <= |eventIds| && locks == old(locks) && rows.Keys == old(rows).Keys
        invariant Valid() && At(if go then Batch(eventIds[i..]) else Idle) && Accounted(before, Now())
        invariant Worked(cfg, locks.Keys, w, eventIds, i, before, Now(), tried, published, go, raised)
        decreases |eventIds| - i
      {
        published, go, raised, tried := WorkOn(eventIds, i, w, published, before, tried);
        i := i + 1;
      }
      WorkedOut(cfg, locks.Keys, w, eventIds, i, before, Now(), tried, published, go, raised);
    }

    ghost method StartBatch(ids: seq<EventId>)
      requires Valid() && At(Idle) && PendingAnswer(cfg, rows, ids) && ids != []
      modifies `proto, `trace
      ensures Valid() && Silent() && At(Batch(ids))
    {
      Take(ReadBatch(me, ids));
    }

    ghost method FinishBatch()
      requires Valid() && At(Batch([]))
      modifies `proto, `trace
      ensures Valid() && Silent() && At(Idle)
    {
      Take(EndBatch(me));
    }

    // ... from the read to the end of the loop.
    method WorkBatch(eventIds: seq<EventId>, w: World) returns (published: nat, raised: bool)
      requires Valid() && At(Idle) && PendingAnswer(cfg, rows, eventIds) && eventIds != []
      modifies `rows, `locks, `sent, `proto, `trace
      ensures Valid() && At(Idle) && locks == old(locks) && Accounted(old(Now()), Now())
      ensures var poll := RunBatch(cfg, old(rows), old(locks).Keys, eventIds, w.sns);
              && rows == poll.rows && raised == poll.raised && published == poll.published
              && (forall i :: 0 <= i < |poll.attempted| ==> poll.attempted[i] in old(rows))
              && sent == old(sent) + Mailed(old(rows), w, poll.attempted)
    {
      StartBatch(eventIds);
      var go;
      published, go, raised := WorkThrough(eventIds, w);
      if go { FinishBatch(); }
    }

    // relay_batch: one poll cycle.
    method RelayBatch(w: World) returns (report: Report, ghost ids: seq<EventId>)
      requires Valid() && At(Idle)
      modifies `rows, `locks, `sent, `proto, `trace
      ensures Valid() && At(Idle) && locks == old(locks)
      ensures !w.readOk ==> report == Report(0, 0, true) && rows == old(rows) && sent == old(sent)
      ensures w.readOk ==>
                && PendingAnswer(cfg, old(rows), ids)
                && var poll := RunBatch(cfg, old(rows), old(locks).Keys, ids, w.sns);
                && rows == poll.rows && report == Report(poll.published, |ids|, poll.raised)
                // Exactly the messages of the rows tried, in that order.
                && (forall i :: 0 <= i < |poll.attempted| ==> poll.attempted[i] in old(rows))
                && sent == old(sent) + Mailed(old(rows), w, poll.attempted)
      // ... which are what this relay adds to the protocol's account.
      ensures Accounted(old(Now()), Now())
    {
      ids := [];
      if !w.readOk { return Report(0, 0, true), ids; }
      var eventIds := PendingEventIds();
      ids := eventIds;
      if eventIds == [] { return Report(0, 0, false), ids; }
      var published, raised := WorkBatch(eventIds, w);
      return Report(published, |eventIds|, raised), ids;
    }

    // The Order Service commits rows in the meantime; a key in use is refused.
    method Admit(arrivals: Table)
      requires Valid() && At(Idle) && forall id :: id in arrivals ==> Drain.Fresh(arrivals[id])
      modifies `rows, `proto, `trace
      ensures Valid() && Silent() && At(Idle) && rows == old(rows) + (arrivals - old(rows).Keys)
    {
      var todo := arrivals.Keys - rows.Keys;
      while todo != {}
        invariant Valid() && At(Idle) && todo <= arrivals.Keys - rows.Keys
        invariant rows == old(rows) + (arrivals - old(rows).Keys - todo) && Silent()
        decreases todo
      {
        var id := AnyOf(todo);
        Take(Insert(id, arrivals[id]));
        rows := rows[id := arrivals[id]];
        todo := todo - {id};
      }
    }

    // One turn of the loop in relay/main.py, and what comes in before the next.
    method Poll(w: World) returns (report: Report, ghost ids: seq<EventId>)
      requires Valid() && At(Idle) && forall id :: id in w.arrivals ==> Drain.Fresh(w.arrivals[id])
      modifies `rows, `locks, `sent, `proto, `trace
      ensures Valid() && At(Idle) && locks == old(locks) && Accounted(old(Now()), Now())
      ensures PolledFrom(cfg, locks.Keys, old(rows), w, Polled(ids, report, rows))
    {
      report, ids := RelayBatch(w);
      Admit(w.arrivals);
    }

    method PollNext(worlds: seq<World>, i: nat, ghost start: Snapshot, ghost polls: seq<Polled>)
      returns (report: Report, ghost polls': seq<Polled>)
      requires Valid() && At(Idle) && AllFresh(worlds) && i == |polls| < |worlds| && Accounted(start, Now())
      requires AllPolled(cfg, locks.Keys, start.rows, worlds[..|polls|], polls)
      requires rows == TableAfter(start.rows, polls)
      modifies `rows, `locks, `sent, `proto, `trace
      ensures Valid() && At(Idle) && locks == old(locks) && Accounted(start, Now())
      ensures |polls'| == |polls| + 1 && polls'[..|polls|] == polls && polls'[|polls|].report == report
      ensures AllPolled(cfg, locks.Keys, start.rows, worlds[..|polls'|], polls')
      ensures rows == TableAfter(start.rows, polls')
    {
      ghost var before, ids := Now(), [];
      report, ids := Poll(worlds[i]);
      AccountedJoins(start, before, Now());
      PolledMore(cfg, locks.Keys, start.rows, worlds, polls, Polled(ids, report, rows));
      polls' := polls + [Polled(ids, report, rows)];
    }

    // relay/main.py: poll until asked to stop, which is after the last of
    // `worlds`. Every poll is made, whatever the earlier ones raised, and
    // works on the table the one before left.
    method PollLoop(worlds: seq<World>) returns (reports: seq<Report>, ghost polls: seq<Polled>)
      requires Valid() && At(Idle) && AllFresh(worlds)
      modifies `rows, `locks, `sent, `proto, `trace
      ensures Valid() && At(Idle) && locks == old(locks) && |reports| == |worlds|
      ensures AllPolled(cfg, locks.Keys, old(rows), worlds, polls) && rows == TableAfter(old(rows), polls)
      ensures forall i :: 0 <= i < |reports| ==> reports[i] == polls[i].report
      // Over all polls, messages as the protocol accounts for them: no more.
      ensures Accounted(old(Now()), Now())
    {
      reports, polls := [], [];
      while |reports| < |worlds|
        invariant |reports| == |polls| <= |worlds|
        invariant Valid() && At(Idle) && locks == old(locks) && Accounted(old(Now()), Now())
        invariant AllPolled(cfg, locks.Keys, old(rows), worlds[..|reports|], polls)
        invariant rows == TableAfter(old(rows), polls)
        invariant forall i :: 0 <= i < |reports| ==> reports[i] == polls[i].report
      {
        var report;
        report, polls := PollNext(worlds, |reports|, old(Now()), polls);
        reports := reports + [report];
      }
      assert worlds[..|worlds|] == worlds;
    }

    // What the operator of a lone relay can rely on: after enough polls of a
    // healthy database, however SNS behaved, nothing is left to relay.
    method DrainOutbox(worlds: seq<World>) returns (reports: seq<Report>)
      requires Valid() && At(Idle) && locks == map[] && Healthy(worlds)
      requires forall i :: 0 <= i < |worlds| ==> worlds[i].arrivals == map[]
      requires var n := |EligibleIds(cfg, rows)|;
               |worlds| >= CeilDiv(n, cfg.batchSize) + cfg.maxAttempts * n
      modifies `rows, `locks, `sent, `proto, `trace
      ensures Valid() && rows.Keys == old(rows).Keys && Accounted(old(Now()), Now())
      ensures forall id :: id in rows ==> rows[id].published || rows[id].parked
    {
      ghost var run := Reachable();
      ReachableSettled(cfg, CODE, run);
      ghost var polls;
      reports, polls := PollLoop(worlds);
      assert locks.Keys == {};
      ghost var cycles := PolledTracks(cfg, old(rows), worlds, polls);
      Drain.DrainBound(cfg, old(rows), cycles);
    }

    // ... and while orders keep coming, a waiting row is tried in bounded
    // time, whatever happens to the rows ahead of it.
    method TryRow(worlds: seq<World>, target: EventId) returns (reports: seq<Report>)
      requires Valid() && At(Idle) && locks == map[] && Healthy(worlds) && AllFresh(worlds)
      requires target in EligibleIds(cfg, rows) && Younger(worlds, rows[target].createdAt)
      requires |worlds| >= cfg.maxAttempts * |Drain.Ahead(cfg, rows, target)| + 1
      modifies `rows, `locks, `sent, `proto, `trace
      ensures Valid() && target in rows && Accounted(old(Now()), Now())
      ensures rows[target].published || rows[target].attempts > old(rows)[target].attempts
    {
      ghost var run := Reachable();
      ReachableSettled(cfg, CODE, run);
      ghost var polls;
      reports, polls := PollLoop(worlds);
      assert locks.Keys == {};
      ghost var cycles := PolledTracks(cfg, old(rows), worlds, polls);
      assert Drain.ArrivalsAfter(cycles, old(rows)[target].createdAt) by {
        forall i, id | 0 <= i < |cycles| && id in cycles[i].arrivals
          ensures old(rows)[target].createdAt < cycles[i].arrivals[id].createdAt {
          assert Follows(worlds[i], cycles[i]);
        }
      }
      Drain.HeadOfLineFreedom(cfg, old(rows), cycles, target);
      Drain.AttemptedShows(cfg, old(rows), cycles, target);
    }
  }

  // ---- messages ------------------------------------------------------------

  lemma {:induction false} RepeatCounts(m: Event, n: nat)
    ensures forall id :: Count(Repeat(m, n), id) == if id == m.eventId then n else 0
    decreases n
  {
    if n > 0 {
      RepeatCounts(m, n - 1);
      assert Repeat(m, n)[..n - 1] == Repeat(m, n - 1);
    }
  }

  lemma {:induction false} CountJoins(a: seq<Event>, b: seq<Event>, id: EventId)
    ensures Count(a + b, id) == Count(a, id) + Count(b, id)
    decreases |b|
  {
    if b == [] {
      assert a + b == a;
    } else {
      var last := |b| - 1;
      assert (a + b)[..|a + b| - 1] == a + b[..last];
      CountJoins(a, b[..last], id);
    }
  }

  lemma AccountedJoins(a: Snapshot, b: Snapshot, c: Snapshot)
    requires Accounted(a, b) && Accounted(b, c)
    ensures Accounted(a, c)
  {
    assert c.sent[|a.sent|..] == b.sent[|a.sent|..] + c.sent[|b.sent|..];
    forall id ensures TallyOf(c.proto, id).accepted ==
                        TallyOf(a.proto, id).accepted + Count(c.sent[|a.sent|..], id) {
      CountJoins(b.sent[|a.sent|..], c.sent[|b.sent|..], id);
    }
  }

  lemma HandedOver(a: Snapshot, b: Snapshot, id: EventId, n: nat)
    requires id in a.rows && b.rows == a.rows && b.sent == a.sent + Repeat(BuildMessage(id, a.rows[id]), n)
    requires forall e :: TallyOf(b.proto, e).accepted == TallyOf(a.proto, e).accepted + if e == id then n else 0
    ensures Accounted(a, b)
  {
    RepeatCounts(BuildMessage(id, a.rows[id]), n);
    assert b.sent[|a.sent|..] == Repeat(BuildMessage(id, a.rows[id]), n);
  }

  lemma AccountedStill(a: Snapshot, b: Snapshot, c: Snapshot)
    requires Accounted(a, b) && c.sent == b.sent && SameEvents(b.rows, c.rows)
    requires forall id :: TallyOf(c.proto, id).accepted == TallyOf(b.proto, id).accepted
    ensures Accounted(a, c)
  {
  }

  lemma MailedOne(rows: Table, w: World, id: EventId)
    requires id in rows
    ensures Mailed(rows, w, []) == []
    ensures Mailed(rows, w, [id]) == Repeat(BuildMessage(id, rows[id]), Delivered(w, id))
  {
    assert [id][..0] == [];
  }

  // Trying a row later, when rows have been marked and counted, sends the same.
  lemma MailedMore(rows: Table, later: Table, w: World, ids: seq<EventId>, one: seq<EventId>)
    requires SameEvents(rows, later) && |one| <= 1
    requires forall i :: 0 <= i < |ids| ==> ids[i] in rows
    requires forall i :: 0 <= i < |one| ==> one[i] in rows
    ensures forall i :: 0 <= i < |one| ==> one[i] in later
    ensures Mailed(rows, w, ids + one) == Mailed(rows, w, ids) + Mailed(later, w, one)
  {
    if one == [] {
      assert ids + one == ids;
    } else {
      assert one == [one[0]] && (ids + one)[..|ids|] == ids;
      MailedOne(later, w, one[0]);
    }
  }

  lemma TurnReturned(cfg: RelayConfig, busy: set<EventId>, w: World, id: EventId, rest: seq<EventId>,
                     a: Snapshot, b: Snapshot, ours: bool)
    requires id in a.rows && !w.sns(id).LookupRaised?
    requires ours == Ours(a.rows, busy, id) && (ours ==> w.sns(id).Accepted?)
    requires b.rows == if ours then a.rows[id := Mark(a.rows[id])] else a.rows
    requires b.sent == a.sent + if ours then Repeat(BuildMessage(id, a.rows[id]), Delivered(w, id)) else []
    ensures TurnDone(cfg, busy, w, id, rest, a, b, if ours then 1 else 0, true, false)
  {
    assert ([id] + rest)[1..] == rest;
  }

  lemma TurnRaised(cfg: RelayConfig, busy: set<EventId>, w: World, id: EventId, rest: seq<EventId>,
                   a: Snapshot, m: Snapshot, b: Snapshot, go: bool, raised: bool)
    requires id in a.rows && (w.sns(id).LookupRaised? || Ours(a.rows, busy, id)) && !w.sns(id).Accepted?
    requires m.rows == if Marks(w.sns(id)) then a.rows[id := Mark(a.rows[id])] else a.rows
    requires b.sent == m.sent == a.sent + Repeat(BuildMessage(id, a.rows[id]), Delivered(w, id))
    requires var o := w.sns(id); var record := if id in busy then Uncounted else o.record;
             && raised == !record.Counted? && go == (Permanent(o) && !raised)
             && b.rows == if record.Uncounted? then m.rows
                          else m.rows[id := RecordFailure(cfg, m.rows[id], Permanent(o))]
    requires Accounted(a, m) && SameEvents(m.rows, b.rows)
    requires forall e :: TallyOf(b.proto, e).accepted == TallyOf(m.proto, e).accepted
    ensures TurnDone(cfg, busy, w, id, rest, a, b, 0, go, raised) && Accounted(a, b)
  {
    AccountedStill(a, m, b);
    assert ([id] + rest)[1..] == rest;
    assert w.sns(id).LookupRaised? ==> Repeat(BuildMessage(id, a.rows[id]), Delivered(w, id)) == [];
  }

  lemma WorkedMore(cfg: RelayConfig, busy: set<EventId>, w: World, ids: seq<EventId>, i: nat,
                   a: Snapshot, b: Snapshot, c: Snapshot, tried: seq<EventId>,
                   published: nat, more: nat, go: bool, raised: bool)
    requires i < |ids| && ids[i] in b.rows && ids[i] in a.rows && SameEvents(a.rows, b.rows)
    requires Worked(cfg, busy, w, ids, i, a, b, tried, published, true, false)
    requires TurnDone(cfg, busy, w, ids[i], ids[i + 1..], b, c, more, go, raised)
    ensures Worked(cfg, busy, w, ids, i + 1, a, c, tried + Tried(b.rows, busy, ids[i], w.sns(ids[i])),
                   published + more, go, raised)
  {
    assert ids[i..] == [ids[i]] + ids[i + 1..];
    var one := Tried(b.rows, busy, ids[i], w.sns(ids[i]));
    LeavesJoins(RunBatch(cfg, a.rows, busy, ids, w.sns), RunBatch(cfg, b.rows, busy, ids[i..], w.sns),
                RunBatch(cfg, c.rows, busy, ids[i + 1..], w.sns), b.rows, c.rows, tried, one,
                published, more, go, raised);
    SentJoins(a, b, c, w, tried, ids[i], one);
  }

  lemma LeavesJoins(p: Poll, q: Poll, r: Poll, b: Table, c: Table, tried: seq<EventId>, one: seq<EventId>,
                    published: nat, more: nat, go: bool, raised: bool)
    requires Leaves(p, q, b, tried, published, true, false) && Leaves(q, r, c, one, more, go, raised)
    ensures Leaves(p, r, c, tried + one, published + more, go, raised)
  {
    var left := if go then r.attempted else [];
    assert tried + (one + left) == (tried + one) + left;
  }

  lemma SentJoins(a: Snapshot, b: Snapshot, c: Snapshot, w: World, tried: seq<EventId>, id: EventId, one: seq<EventId>)
    requires SameEvents(a.rows, b.rows) && (forall k :: 0 <= k < |tried| ==> tried[k] in a.rows)
    requires id in a.rows && id in b.rows && (one == [] || one == [id])
    requires b.sent == a.sent + Mailed(a.rows, w, tried)
    requires c.sent == b.sent + (if one == [] then [] else Repeat(BuildMessage(id, b.rows[id]), Delivered(w, id)))
    ensures forall k :: 0 <= k < |tried + one| ==> (tried + one)[k] in a.rows
    ensures c.sent == a.sent + Mailed(a.rows, w, tried + one)
  {
    MailedMore(a.rows, b.rows, w, tried, one);
    MailedOne(b.rows, w, id);
    var more := Mailed(b.rows, w, one);
    assert (a.sent + Mailed(a.rows, w, tried)) + more == a.sent + (Mailed(a.rows, w, tried) + more);
  }

  lemma WorkedOut(cfg: RelayConfig, busy: set<EventId>, w: World, ids: seq<EventId>, i: nat,
                  a: Snapshot, b: Snapshot, tried: seq<EventId>, published: nat, go: bool, raised: bool)
    requires i <= |ids| && Worked(cfg, busy, w, ids, i, a, b, tried, published, go, raised) && (go ==> i == |ids|)
    ensures var poll := RunBatch(cfg, a.rows, busy, ids, w.sns);
            && b.rows == poll.rows && raised == poll.raised && published == poll.published
            && poll.attempted == tried
  {
  }

  // Where SNS answers truthfully and takes nothing twice, a poll leaves there
  // one message of each row it published and none of any other.
  lemma {:induction false} TruthfulPollSendsOnce(rows: Table, w: World, ids: seq<EventId>, id: EventId)
    requires Distinct(ids) && forall i :: 0 <= i < |ids| ==> ids[i] in rows
    requires forall i :: 0 <= i < |ids| ==> w.extra(ids[i]) == 0 && !w.sns(ids[i]).CommitRaised?
    ensures Count(Mailed(rows, w, ids), id) == One(id in ids && w.sns(id).Accepted?)
    decreases |ids|
  {
    if ids != [] {
      var last := |ids| - 1;
      TruthfulPollSendsOnce(rows, w, ids[..last], id);
      var m := BuildMessage(ids[last], rows[ids[last]]);
      CountJoins(Mailed(rows, w, ids[..last]), Repeat(m, Delivered(w, ids[last])), id);
      RepeatCounts(m, Delivered(w, ids[last]));
      assert id in ids <==> id in ids[..last] || id == ids[last];
      assert ids[last] !in ids[..last];
    }
  }

  // ---- the loop as poll cycles ---------------------------------------------

  ghost predicate HealthyWorld(w: World) { w.readOk && forall id :: Recorded(w.sns(id)) }

  ghost predicate Healthy(worlds: seq<World>) { forall i :: 0 <= i < |worlds| ==> HealthyWorld(worlds[i]) }

  ghost predicate AllFresh(worlds: seq<World>) {
    forall i, id :: 0 <= i < |worlds| && id in worlds[i].arrivals ==> Drain.Fresh(worlds[i].arrivals[id])
  }

  predicate Younger(worlds: seq<World>, t: int) {
    forall i, id :: 0 <= i < |worlds| && id in worlds[i].arrivals ==> t < worlds[i].arrivals[id].createdAt
  }

  // The cycle is the poll this world met, with those of its arrivals that
  // were not refused.
  ghost predicate Follows(w: World, c: Drain.Cycle) {
    c.sns == w.sns && c.arrivals.Keys <= w.arrivals.Keys &&
    forall id :: id in c.arrivals ==> c.arrivals[id] == w.arrivals[id]
  }

  ghost predicate Tracks(cfg: RelayConfig, rows: Table, worlds: seq<World>, cycles: seq<Drain.Cycle>, now: Table) {
    && |cycles| == |worlds|
    && (forall i :: 0 <= i < |worlds| ==> Follows(worlds[i], cycles[i]))
    && Drain.ValidRun(cfg, rows, cycles) && now == Drain.Final(cfg, rows, cycles)
  }

  // Alone and with a healthy database the loop is a run of full poll cycles,
  // so every bound proved of those holds of it.
  lemma {:induction false} PolledTracks(cfg: RelayConfig, rows: Table, worlds: seq<World>, polls: seq<Polled>)
    returns (cycles: seq<Drain.Cycle>)
    requires Healthy(worlds) && AllFresh(worlds) && AllPolled(cfg, {}, rows, worlds, polls)
    ensures Tracks(cfg, rows, worlds, cycles, TableAfter(rows, polls))
    decreases |worlds|
  {
    if worlds == [] {
      cycles := [];
    } else {
      var last := |worlds| - 1;
      cycles := PolledTracks(cfg, rows, worlds[..last], polls[..last]);
      cycles := TracksMore(cfg, rows, worlds, cycles, TableAfter(rows, polls[..last]), polls[last]);
    }
  }

  lemma TracksMore(cfg: RelayConfig, rows: Table, worlds: seq<World>, cycles: seq<Drain.Cycle>,
                   before: Table, p: Polled) returns (more: seq<Drain.Cycle>)
    requires worlds != [] && Healthy(worlds) && AllFresh(worlds)
    requires Tracks(cfg, rows, worlds[..|worlds| - 1], cycles, before)
    requires PolledFrom(cfg, {}, before, worlds[|worlds| - 1], p)
    ensures Tracks(cfg, rows, worlds, more, p.after)
  {
    var n := |worlds| - 1;
    assert HealthyWorld(worlds[n]);
    var polled := RunBatch(cfg, before, {}, p.ids, worlds[n].sns).rows;
    var c := Drain.Cycle(p.ids, worlds[n].sns, worlds[n].arrivals - polled.Keys);
    more := cycles + [c];
    KeysStay(cfg, before, {}, p.ids, worlds[n].sns);
    Drain.RunExtends(cfg, rows, cycles, c);
    forall i | 0 <= i < |more| ensures Follows(worlds[i], more[i]) {
      if i < n { assert worlds[i] == worlds[..n][i] && more[i] == cycles[i]; }
    }
  }

  lemma {:induction false} KeysStay(cfg: RelayConfig, rows: Table, busy: set<EventId>, ids: seq<EventId>, sns: Sns)
    ensures RunBatch(cfg, rows, busy, ids, sns).rows.Keys == rows.Keys
    decreases |ids|
  {
    if ids != [] {
      KeysStay(cfg, rows, busy, ids[1..], sns);
      if ids[0] in rows { KeysStay(cfg, rows[ids[0] := Attempt(cfg, rows[ids[0]], sns(ids[0]))], busy, ids[1..], sns); }
    }
  }
}
