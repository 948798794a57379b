// Any number of relays over one outbox table, one atomic step at a time.
//
// A relay reads a batch without locks, locks one row with SKIP LOCKED and the
// `published` recheck, publishes while holding the lock, marks and commits; or
// the exception rolls its transaction back and record_failure runs in another.
// It may die between any two steps. Each atomic step is one database
// statement or commit, or one SNS call; the database evaluates a WHERE clause
// and takes the row lock as one action.
//
// `Design` makes five decisions of the source explicit, so that each can be
// shown to be needed, or not to be enough; CODE is what the source does.
module RelayProtocol {
  import opened Arithmetic
  import opened Base
  import opened Outbox

  datatype Counting = OwnTransaction | FailedTransaction | ReadModifyWrite

  datatype Design = Design(recheck: bool, recheckParked: bool, lock: bool, markFirst: bool, counting: Counting)

  const CODE: Design := Design(true, false, true, false, OwnTransaction)

  // Where a relay is. Locked, Gap, Open and Doomed are inside the transaction
  // that holds the row lock; Gap is the interval after SNS accepted and before
  // the mark commits. Orphan is a relay whose connection, and with it the
  // lock, has gone without its noticing.
  datatype Pc =
    | Idle
    | Batch(ids: seq<EventId>)
    | Locked(id: EventId, rest: seq<EventId>)
    | Orphan(id: EventId, rest: seq<EventId>)
    | Gap(id: EventId, rest: seq<EventId>)
    | Failing(id: EventId, rest: seq<EventId>, permanent: bool)
    | Open(id: EventId, rest: seq<EventId>, permanent: bool)
    | Doomed(id: EventId, rest: seq<EventId>, permanent: bool)
    | Adding(id: EventId, rest: seq<EventId>, permanent: bool, read: nat)
    | Marked(id: EventId, rest: seq<EventId>)

  // Per row, what happened so far. `accepted` counts messages SNS took.
  datatype Tally = Tally(
    accepted: nat,
    marked: nat,       // commits that set published
    crashed: nat,      // deaths after an accepted publish, before its mark
    rolledBack: nat,   // transactions lost after, or under, an accepted publish
    misreported: nat,  // publish calls that raised although SNS had accepted
    retried: nat,      // extra messages from the client's own retries in a call
    recorded: nat,     // record_failure calls that went through
    permanents: nat)   // those of them for a permanent error

  const ZERO: Tally := Tally(0, 0, 0, 0, 0, 0, 0, 0)

  datatype State = State(
    rows: Table,
    locks: map<EventId, RelayId>,
    relays: map<RelayId, Pc>,
    tally: map<EventId, Tally>)

  const EMPTY: State := State(map[], map[], map[], map[])

  datatype Step =
    | Insert(newId: EventId, row: Row)
    | ReadBatch(r: RelayId, ids: seq<EventId>)
    | Lock(r: RelayId)
    | Skip(r: RelayId)
    | LookupRaises(r: RelayId)
    | EndBatch(r: RelayId)
    | ConnectionLost(r: RelayId)
    | PublishOk(r: RelayId, copies: nat)
    | PublishRaises(r: RelayId, copies: nat, permanent: bool)
    | Commit(r: RelayId)
    | CommitRaises(r: RelayId)
    | CommitReplyLost(r: RelayId)
    | ReadCount(r: RelayId)
    | Record(r: RelayId, raises: bool)
    | RecordLost(r: RelayId)
    | Abort(r: RelayId)
    | MarkFirst(r: RelayId)
    | Crash(r: RelayId, copies: nat)

  function PcOf(s: State, r: RelayId): Pc { if r in s.relays then s.relays[r] else Idle }

  function TallyOf(s: State, id: EventId): Tally { if id in s.tally then s.tally[id] else ZERO }

  predicate Holding(pc: Pc) { pc.Locked? || pc.Gap? || pc.Open? || pc.Doomed? }

  predicate Holds(pc: Pc, id: EventId) { Holding(pc) && pc.id == id }

  predicate Sending(pc: Pc) { pc.Locked? || pc.Orphan? || pc.Marked? }

  predicate AboutToPublish(d: Design, pc: Pc) { if d.markFirst then pc.Marked? else pc.Locked? || pc.Orphan? }

  // ---- transactions --------------------------------------------------------

  // What the open transaction has written and not committed.
  datatype Write = NoWrite | SetPublished | CountFailure(permanent: bool)

  function Pending(pc: Pc): Write {
    match pc
    case Gap(_, _) => SetPublished
    case Doomed(_, _, permanent) => CountFailure(permanent)
    case _ => NoWrite
  }

  function Written(cfg: RelayConfig, row: Row, w: Write): Row {
    match w
    case NoWrite => row
    case SetPublished => Mark(row)
    case CountFailure(permanent) => RecordFailure(cfg, row, permanent)
  }

  // ---- guards --------------------------------------------------------------

  // Whether the locked lookup finds the row.
  predicate Found(d: Design, s: State, id: EventId) {
    && id in s.rows && (d.lock ==> id !in s.locks)
    && (d.recheck ==> !s.rows[id].published) && (d.recheckParked ==> !s.rows[id].parked)
  }

  predicate AtRow(s: State, r: RelayId) { PcOf(s, r).Batch? && PcOf(s, r).ids != [] }

  ghost predicate Enabled(cfg: RelayConfig, d: Design, s: State, step: Step) {
    match step
    case Insert(id, row) => id !in s.rows && !row.published && !row.parked && row.attempts == 0
    case ReadBatch(r, ids) => PcOf(s, r).Idle? && PendingAnswer(cfg, s.rows, ids)
    case Lock(r) => AtRow(s, r) && Found(d, s, PcOf(s, r).ids[0])
    case Skip(r) => AtRow(s, r) && !Found(d, s, PcOf(s, r).ids[0])
    case LookupRaises(r) => AtRow(s, r) && PcOf(s, r).ids[0] in s.rows
    case EndBatch(r) => PcOf(s, r).Batch? && PcOf(s, r).ids == []
    case ConnectionLost(r) => PcOf(s, r).Locked?
    case PublishOk(r, copies) => AboutToPublish(d, PcOf(s, r)) && copies >= 1
    case PublishRaises(r, _, _) => AboutToPublish(d, PcOf(s, r))
    case Commit(r) => PcOf(s, r).Gap? && PcOf(s, r).id in s.rows
    case CommitRaises(r) => PcOf(s, r).Gap?
    case CommitReplyLost(r) => PcOf(s, r).Gap? && PcOf(s, r).id in s.rows
    case ReadCount(r) => d.counting.ReadModifyWrite? && PcOf(s, r).Failing? && PcOf(s, r).id in s.rows
    case Record(r, _) =>
      // A transaction of its own: the UPDATE waits for the row lock, so it is
      // enabled only without one.
      if d.counting.FailedTransaction? then PcOf(s, r).Open?
      else
        && (if d.counting.OwnTransaction? then PcOf(s, r).Failing? else PcOf(s, r).Adding?)
        && PcOf(s, r).id in s.rows && PcOf(s, r).id !in s.locks
    case RecordLost(r) => PcOf(s, r).Failing? || PcOf(s, r).Adding?
    case Abort(r) => PcOf(s, r).Open? || PcOf(s, r).Doomed?
    case MarkFirst(r) => d.markFirst && PcOf(s, r).Locked? && PcOf(s, r).id in s.rows
    case Crash(r, copies) => !PcOf(s, r).Idle? && (copies > 0 ==> AboutToPublish(d, PcOf(s, r)))
  }

  // ---- effects -------------------------------------------------------------

  // After the failure is dealt with: the batch goes on after a permanent one.
  function Resume(permanent: bool, raises: bool, rest: seq<EventId>): Pc {
    if permanent && !raises then Batch(rest) else Idle
  }

  // Where the relay goes.
  function NextPc(cfg: RelayConfig, d: Design, s: State, step: Step): Pc
    requires !step.Insert? && Enabled(cfg, d, s, step)
  {
    var pc := PcOf(s, step.r);
    match step
    case ReadBatch(_, ids) => if ids == [] then Idle else Batch(ids)
    case Lock(_) => Locked(pc.ids[0], pc.ids[1..])
    case Skip(_) => Batch(pc.ids[1..])
    case LookupRaises(_) => Failing(pc.ids[0], pc.ids[1..], false)
    case EndBatch(_) => Idle
    case ConnectionLost(_) => Orphan(pc.id, pc.rest)
    case PublishOk(_, _) =>
      if pc.Locked? then Gap(pc.id, pc.rest)
      else if pc.Marked? then Batch(pc.rest)
      else Failing(pc.id, pc.rest, false)  // its commit has no transaction left to commit
    case PublishRaises(_, _, permanent) =>
      if d.counting.FailedTransaction? && pc.Locked? then Open(pc.id, pc.rest, permanent)
      else Failing(pc.id, pc.rest, permanent)
    case Commit(_) => Batch(pc.rest)
    case CommitRaises(_) => Failing(pc.id, pc.rest, false)
    case CommitReplyLost(_) => Failing(pc.id, pc.rest, false)
    case ReadCount(_) => Adding(pc.id, pc.rest, pc.permanent, s.rows[pc.id].attempts)
    case Record(_, raises) =>
      if d.counting.FailedTransaction? then Doomed(pc.id, pc.rest, pc.permanent)
      else Resume(pc.permanent, raises, pc.rest)
    case RecordLost(_) => Idle
    case Abort(_) => Resume(pc.permanent, pc.Open?, pc.rest)
    case MarkFirst(_) => Marked(pc.id, pc.rest)
    case Crash(_, _) => Idle
  }

  // A lock lives as long as the transaction that took it.
  function LocksAfter(cfg: RelayConfig, d: Design, s: State, step: Step): map<EventId, RelayId>
    requires Enabled(cfg, d, s, step)
  {
    if step.Insert? then s.locks
    else
      var pc := PcOf(s, step.r);
      if step.Lock? then (if d.lock then s.locks[pc.ids[0] := step.r] else s.locks)
      else if Holding(pc) && !Holding(NextPc(cfg, d, s, step)) then s.locks - {pc.id}
      else s.locks
  }

  // Only a commit makes writes visible: those its transaction has pending, or
  // the one statement of a transaction that is over at once. Whatever else
  // ends a transaction discards what it had pending.
  function RowsAfter(cfg: RelayConfig, d: Design, s: State, step: Step): Table
    requires Enabled(cfg, d, s, step)
  {
    match step
    case Insert(id, row) => s.rows[id := row]
    case Commit(r) => WriteRow(cfg, s, PcOf(s, r).id, Pending(PcOf(s, r)))
    case CommitReplyLost(r) => WriteRow(cfg, s, PcOf(s, r).id, Pending(PcOf(s, r)))
    case MarkFirst(r) => WriteRow(cfg, s, PcOf(s, r).id, SetPublished)
    case Record(r, _) =>
      var pc := PcOf(s, r);
      if d.counting.OwnTransaction? then WriteRow(cfg, s, pc.id, CountFailure(pc.permanent))
      else if d.counting.FailedTransaction? then s.rows
      else s.rows[pc.id := RecordFailure(cfg, s.rows[pc.id].(attempts := pc.read), pc.permanent)]
    case _ => s.rows
  }

  function WriteRow(cfg: RelayConfig, s: State, id: EventId, w: Write): Table
    requires id in s.rows
  {
    s.rows[id := Written(cfg, s.rows[id], w)]
  }

  // SNS took `copies` messages in one call.
  function Took(t: Tally, copies: nat): Tally {
    if copies == 0 then t else t.(accepted := t.accepted + copies, retried := t.retried + copies - 1)
  }

  // What the step adds to the account of the row its relay is at.
  function Entry(t: Tally, pc: Pc, step: Step): Tally {
    match step
    case PublishOk(_, copies) =>
      var t' := Took(t, copies);
      if pc.Orphan? then t'.(rolledBack := t.rolledBack + 1) else t'
    case PublishRaises(_, copies, _) =>
      var t' := Took(t, copies);
      if copies > 0 then t'.(misreported := t.misreported + 1) else t'
    case Commit(_) => t.(marked := t.marked + 1)
    case CommitReplyLost(_) => t.(marked := t.marked + 1)
    case MarkFirst(_) => t.(marked := t.marked + 1)
    case CommitRaises(_) => t.(rolledBack := t.rolledBack + 1)
    case Record(_, _) =>
      t.(recorded := t.recorded + 1,
         permanents := t.permanents + One((pc.Failing? || pc.Open? || pc.Adding?) && pc.permanent))
    case Crash(_, copies) =>
      var t' := Took(t, if Sending(pc) then copies else 0);
      if pc.Gap? || (Sending(pc) && copies > 0) then t'.(crashed := t.crashed + 1) else t'
    case _ => t
  }

  predicate AtWork(pc: Pc) { !pc.Idle? && !pc.Batch? }

  function TallyAfter(s: State, step: Step): map<EventId, Tally> {
    if step.Insert? || !AtWork(PcOf(s, step.r)) then s.tally
    else var pc := PcOf(s, step.r); s.tally[pc.id := Entry(TallyOf(s, pc.id), pc, step)]
  }

  function Apply(cfg: RelayConfig, d: Design, s: State, step: Step): State
    requires Enabled(cfg, d, s, step)
  {
    State(
      RowsAfter(cfg, d, s, step),
      LocksAfter(cfg, d, s, step),
      if step.Insert? then s.relays else s.relays[step.r := NextPc(cfg, d, s, step)],
      TallyAfter(s, step))
  }

  // What a step hands to SNS: the row, and how many messages were accepted.
  function Emits(s: State, step: Step): (EventId, nat) {
    match step
    case PublishOk(r, copies) => if Sending(PcOf(s, r)) then (PcOf(s, r).id, copies) else (0, 0)
    case PublishRaises(r, copies, _) => if Sending(PcOf(s, r)) then (PcOf(s, r).id, copies) else (0, 0)
    case Crash(r, copies) => if Sending(PcOf(s, r)) then (PcOf(s, r).id, copies) else (0, 0)
    case _ => (0, 0)
  }

  // ---- runs ----------------------------------------------------------------

  ghost predicate Run(cfg: RelayConfig, d: Design, s: State, steps: seq<Step>)
    decreases |steps|
  {
    steps == [] || (Enabled(cfg, d, s, steps[0]) && Run(cfg, d, Apply(cfg, d, s, steps[0]), steps[1..]))
  }

  ghost function After(cfg: RelayConfig, d: Design, s: State, steps: seq<Step>): State
    requires Run(cfg, d, s, steps)
    decreases |steps|
  {
    if steps == [] then s else After(cfg, d, Apply(cfg, d, s, steps[0]), steps[1..])
  }

  // Runs compose.
  lemma {:induction false} RunJoin(cfg: RelayConfig, d: Design, s: State, a: seq<Step>, b: seq<Step>)
    requires Run(cfg, d, s, a) && Run(cfg, d, After(cfg, d, s, a), b)
    ensures Run(cfg, d, s, a + b)
    ensures After(cfg, d, s, a + b) == After(cfg, d, After(cfg, d, s, a), b)
    decreases |a|
  {
    if a == [] {
      assert a + b == b;
    } else {
      assert (a + b)[0] == a[0] && (a + b)[1..] == a[1..] + b;
      RunJoin(cfg, d, Apply(cfg, d, s, a[0]), a[1..], b);
    }
  }

  lemma RunOne(cfg: RelayConfig, d: Design, s: State, step: Step)
    requires Enabled(cfg, d, s, step)
    ensures Run(cfg, d, s, [step]) && After(cfg, d, s, [step]) == Apply(cfg, d, s, step)
  {
    assert Run(cfg, d, Apply(cfg, d, s, step), []);
  }

  // No death, no lost connection, no failed or ambiguous commit, and SNS
  // answers each call truthfully, with one message for a success and none for
  // a refusal. Lookups and recordings may fail.
  predicate FaultFree(step: Step) {
    match step
    case Crash(_, _) => false
    case CommitRaises(_) => false
    case CommitReplyLost(_) => false
    case ConnectionLost(_) => false
    case PublishOk(_, copies) => copies == 1
    case PublishRaises(_, copies, _) => copies == 0
    case _ => true
  }

  predicate AllFaultFree(steps: seq<Step>) { forall i :: 0 <= i < |steps| ==> FaultFree(steps[i]) }

  // Publish before mark, under a lock, with the recheck: the three decisions
  // duplicates depend on.
  predicate Exclusive(d: Design) { d.recheck && d.lock && !d.markFirst }

  // ---- rows exist ----------------------------------------------------------

  ghost predicate Grounded(s: State, id: EventId) {
    && (id in s.tally ==> id in s.rows)
    && forall r :: r in s.relays && AtWork(s.relays[r]) && s.relays[r].id == id ==> id in s.rows
  }

  lemma RowsStay(cfg: RelayConfig, d: Design, s: State, step: Step)
    requires Enabled(cfg, d, s, step)
    ensures s.rows.Keys <= RowsAfter(cfg, d, s, step).Keys
  {
  }

  // A relay that is at a row now was at it, or about to look it up.
  lemma NextId(cfg: RelayConfig, d: Design, s: State, step: Step)
    requires !step.Insert? && Enabled(cfg, d, s, step) && AtWork(NextPc(cfg, d, s, step))
    ensures var pc, next := PcOf(s, step.r), NextPc(cfg, d, s, step);
            if AtWork(pc) then next.id == pc.id && next.rest == pc.rest
            else AtRow(s, step.r) && next.id == pc.ids[0] && next.rest == pc.ids[1..] && next.id in s.rows
  {
  }

  lemma GroundedKept(cfg: RelayConfig, d: Design, s: State, step: Step, id: EventId)
    requires Enabled(cfg, d, s, step) && (forall x :: Grounded(s, x))
    ensures Grounded(Apply(cfg, d, s, step), id)
  {
    assert Grounded(s, id);
    RowsStay(cfg, d, s, step);
    if !step.Insert? {
      var pc := PcOf(s, step.r);
      if AtWork(pc) { assert step.r in s.relays && Grounded(s, pc.id); }
      if AtWork(NextPc(cfg, d, s, step)) { NextId(cfg, d, s, step); }
    }
  }

  // ---- locks ---------------------------------------------------------------

  // What holds of one relay: it holds the lock of the row it works on, which
  // is unpublished, and no other.
  ghost predicate RelayOk(s: State, r: RelayId) {
    var pc := PcOf(s, r);
    && !pc.Marked?
    && (Holding(pc) ==> pc.id in s.locks && s.locks[pc.id] == r && pc.id in s.rows && !s.rows[pc.id].published)
  }

  ghost predicate LockOk(s: State, id: EventId) {
    id in s.locks ==> Holds(PcOf(s, s.locks[id]), id)
  }

  function InGap(s: State, id: EventId): nat {
    if id in s.locks && PcOf(s, s.locks[id]).Gap? then 1 else 0
  }

  ghost predicate Balanced(s: State, id: EventId) {
    var t := TallyOf(s, id);
    && t.accepted == t.marked + t.crashed + t.rolledBack + t.misreported + t.retried + InGap(s, id)
    && t.marked == (if id in s.rows && s.rows[id].published then 1 else 0)
  }

  ghost predicate Ledger(s: State) {
    && (forall r :: RelayOk(s, r))
    && (forall id :: LockOk(s, id))
    && (forall id :: Balanced(s, id))
    && (forall id :: Grounded(s, id))
  }

  // A row one relay has locked is written and unlocked by nobody else.
  lemma OthersKept(cfg: RelayConfig, d: Design, s: State, step: Step, r: RelayId)
    requires Exclusive(d) && Enabled(cfg, d, s, step) && RelayOk(s, r)
    requires !step.Insert? ==> step.r != r && RelayOk(s, step.r)
    ensures RelayOk(Apply(cfg, d, s, step), r)
  {
    if !step.Insert? { assert PcOf(Apply(cfg, d, s, step), r) == PcOf(s, r); }
  }

  lemma OwnKept(cfg: RelayConfig, d: Design, s: State, step: Step)
    requires Exclusive(d) && Enabled(cfg, d, s, step) && !step.Insert? && RelayOk(s, step.r)
    ensures RelayOk(Apply(cfg, d, s, step), step.r)
  {
    var next := NextPc(cfg, d, s, step);
    assert PcOf(Apply(cfg, d, s, step), step.r) == next;
    if Holding(next) {
      NextId(cfg, d, s, step);
      assert RowsAfter(cfg, d, s, step) == s.rows;
    }
  }

  lemma RelayOkKept(cfg: RelayConfig, d: Design, s: State, step: Step, r: RelayId)
    requires Exclusive(d) && Ledger(s) && Enabled(cfg, d, s, step)
    ensures RelayOk(Apply(cfg, d, s, step), r)
  {
    assert RelayOk(s, r);
    if !step.Insert? { assert RelayOk(s, step.r); }
    if !step.Insert? && step.r == r { OwnKept(cfg, d, s, step); } else { OthersKept(cfg, d, s, step, r); }
  }

  lemma LockOkKept(cfg: RelayConfig, d: Design, s: State, step: Step, id: EventId)
    requires Exclusive(d) && Enabled(cfg, d, s, step) && LockOk(s, id)
    requires !step.Insert? ==> RelayOk(s, step.r)
    ensures LockOk(Apply(cfg, d, s, step), id)
  {
    if !step.Insert? && AtWork(NextPc(cfg, d, s, step)) { NextId(cfg, d, s, step); }
  }

  // Steps that may hand messages to SNS.
  predicate Sends(step: Step) { step.PublishOk? || step.PublishRaises? || step.Crash? }

  // Steps that end the transaction around an accepted publish.
  predicate Ends(step: Step) { step.Commit? || step.CommitRaises? || step.CommitReplyLost? }

  // The account of a row the step is not about stays, as does its gap.
  lemma ElsewhereBalanced(cfg: RelayConfig, d: Design, s: State, step: Step, id: EventId)
    requires Exclusive(d) && Enabled(cfg, d, s, step) && Balanced(s, id) && LockOk(s, id) && Grounded(s, id)
    requires !step.Insert? ==> RelayOk(s, step.r) && !(AtWork(PcOf(s, step.r)) && PcOf(s, step.r).id == id)
    ensures Balanced(Apply(cfg, d, s, step), id)
  {
    var s' := Apply(cfg, d, s, step);
    assert TallyOf(s', id) == TallyOf(s, id);
    assert InGap(s', id) == InGap(s, id);
    if step.Insert? && step.newId == id { assert TallyOf(s, id) == ZERO; }
  }

  // How many relays, 0 or 1, the step's relay adds to the gap of its row.
  lemma HereBalanced(cfg: RelayConfig, d: Design, s: State, step: Step)
    requires Exclusive(d) && Enabled(cfg, d, s, step) && !step.Insert? && AtWork(PcOf(s, step.r)) && RelayOk(s, step.r)
    requires Balanced(s, PcOf(s, step.r).id) && LockOk(s, PcOf(s, step.r).id)
    ensures Balanced(Apply(cfg, d, s, step), PcOf(s, step.r).id)
  {
    var pc, next, s' := PcOf(s, step.r), NextPc(cfg, d, s, step), Apply(cfg, d, s, step);
    var id := pc.id;
    HereGap(cfg, d, s, step);
    assert TallyOf(s', id) == Entry(TallyOf(s, id), pc, step);
  }

  lemma HereGap(cfg: RelayConfig, d: Design, s: State, step: Step)
    requires Exclusive(d) && Enabled(cfg, d, s, step) && !step.Insert? && AtWork(PcOf(s, step.r)) && RelayOk(s, step.r)
    requires LockOk(s, PcOf(s, step.r).id)
    ensures var pc, next := PcOf(s, step.r), NextPc(cfg, d, s, step);
            InGap(Apply(cfg, d, s, step), pc.id) ==
              if Holding(pc) then One(next.Gap?) else InGap(s, pc.id)
  {
    if AtWork(NextPc(cfg, d, s, step)) { NextId(cfg, d, s, step); }
  }

  lemma RowOkKept(cfg: RelayConfig, d: Design, s: State, step: Step, id: EventId)
    requires Exclusive(d) && Ledger(s) && Enabled(cfg, d, s, step)
    ensures LockOk(Apply(cfg, d, s, step), id)
    ensures Balanced(Apply(cfg, d, s, step), id)
  {
    assert LockOk(s, id) && Balanced(s, id) && Grounded(s, id);
    if !step.Insert? { assert RelayOk(s, step.r); }
    LockOkKept(cfg, d, s, step, id);
    if !step.Insert? && AtWork(PcOf(s, step.r)) && PcOf(s, step.r).id == id { HereBalanced(cfg, d, s, step); }
    else { ElsewhereBalanced(cfg, d, s, step, id); }
  }

  lemma LedgerKept(cfg: RelayConfig, d: Design, s: State, step: Step)
    requires Exclusive(d) && Ledger(s) && Enabled(cfg, d, s, step)
    ensures Ledger(Apply(cfg, d, s, step))
  {
    forall r ensures RelayOk(Apply(cfg, d, s, step), r) { RelayOkKept(cfg, d, s, step, r); }
    forall id ensures LockOk(Apply(cfg, d, s, step), id) && Balanced(Apply(cfg, d, s, step), id) {
      RowOkKept(cfg, d, s, step, id);
    }
    forall id ensures Grounded(Apply(cfg, d, s, step), id) { GroundedKept(cfg, d, s, step, id); }
  }

  lemma {:induction false} LedgerAlways(cfg: RelayConfig, d: Design, s: State, steps: seq<Step>)
    requires Exclusive(d) && Ledger(s) && Run(cfg, d, s, steps)
    ensures Ledger(After(cfg, d, s, steps))
    decreases |steps|
  {
    if steps != [] {
      LedgerKept(cfg, d, s, steps[0]);
      LedgerAlways(cfg, d, Apply(cfg, d, s, steps[0]), steps[1..]);
    }
  }

  // ---- conservation of publishes -------------------------------------------

  ghost function GapRelays(s: State, id: EventId): set<RelayId> {
    set r | r in s.relays && s.relays[r].Gap? && s.relays[r].id == id
  }

  // Over any interleaving of any number of relays, every message SNS accepted
  // for a row is accounted for by exactly one cause, and at most one relay is
  // between publish and mark.
  lemma ConservationOfPublishes(cfg: RelayConfig, steps: seq<Step>, id: EventId)
    requires Run(cfg, CODE, EMPTY, steps)
    ensures var s := After(cfg, CODE, EMPTY, steps); var t := TallyOf(s, id);
            && t.accepted == t.marked + t.crashed + t.rolledBack + t.misreported + t.retried + |GapRelays(s, id)|
            && t.marked == (if id in s.rows && s.rows[id].published then 1 else 0)
            && |GapRelays(s, id)| <= 1
            && t.marked + |GapRelays(s, id)| <= 1
  {
    LedgerAlways(cfg, CODE, EMPTY, steps);
    var s := After(cfg, CODE, EMPTY, steps);
    assert Balanced(s, id) && LockOk(s, id);
    forall r | r in GapRelays(s, id)
      ensures id in s.locks && r == s.locks[id] && id in s.rows && !s.rows[id].published
    {
      assert RelayOk(s, r);
    }
    if InGap(s, id) == 1 {
      assert GapRelays(s, id) == {s.locks[id]};
    } else {
      assert GapRelays(s, id) == {};
    }
  }

  // ---- at most once --------------------------------------------------------

  predicate SameFaults(t: Tally, t': Tally) {
    && t'.crashed == t.crashed && t'.rolledBack == t.rolledBack
    && t'.misreported == t.misreported && t'.retried == t.retried
  }

  // Nobody publishes under a lock it has lost.
  ghost predicate NoOrphans(s: State) { forall r :: !PcOf(s, r).Orphan? }

  lemma NoOrphansKept(cfg: RelayConfig, d: Design, s: State, step: Step)
    requires Enabled(cfg, d, s, step) && NoOrphans(s) && !step.ConnectionLost?
    ensures NoOrphans(Apply(cfg, d, s, step))
  {
    forall r ensures !PcOf(Apply(cfg, d, s, step), r).Orphan? { assert !PcOf(s, r).Orphan?; }
  }

  // One step adds faults to one row at most, and without a death to none.
  lemma FaultsOfStep(cfg: RelayConfig, d: Design, s: State, step: Step, id: EventId)
    requires Enabled(cfg, d, s, step) && OnlyDies(step) && NoOrphans(s)
    ensures var t, t' := TallyOf(s, id), TallyOf(Apply(cfg, d, s, step), id);
            && SameFaults(t, t'.(crashed := t.crashed))
            && (t'.crashed == t.crashed ||
                (step.Crash? && AtWork(PcOf(s, step.r)) && PcOf(s, step.r).id == id && t'.crashed == t.crashed + 1))
  {
    if !step.Insert? { assert !PcOf(s, step.r).Orphan?; }
  }

  function Crashes(steps: seq<Step>): nat {
    if steps == [] then 0 else One(steps[0].Crash?) + Crashes(steps[1..])
  }

  // No fault but process death, in which a call in progress may or may not
  // have reached SNS.
  predicate OnlyDies(step: Step) { FaultFree(step) || (step.Crash? && step.copies <= 1) }

  predicate OnlyCrashes(steps: seq<Step>) { forall i :: 0 <= i < |steps| ==> OnlyDies(steps[i]) }

  lemma OnlyCrashesRest(steps: seq<Step>)
    requires OnlyCrashes(steps) && steps != []
    ensures OnlyDies(steps[0]) && OnlyCrashes(steps[1..])
  {
    forall i | 0 <= i < |steps[1..]| ensures OnlyDies(steps[1..][i]) { assert steps[1..][i] == steps[i + 1]; }
  }

  ghost function CrashedOf(s: State): EventId -> nat { id => TallyOf(s, id).crashed }

  // Messages of a row beyond the first.
  ghost function ExtraOf(s: State): EventId -> nat {
    id => if TallyOf(s, id).accepted >= 1 then TallyOf(s, id).accepted - 1 else 0
  }

  // One death, wherever it falls, costs one row, however many are counted.
  lemma OneRowPerDeath(cfg: RelayConfig, d: Design, s: State, step: Step, ids: set<EventId>)
    requires Enabled(cfg, d, s, step) && OnlyDies(step) && NoOrphans(s)
    ensures var s' := Apply(cfg, d, s, step);
            && Sum(CrashedOf(s'), ids) <= Sum(CrashedOf(s), ids) + One(step.Crash?)
            && forall id :: SameFaults(TallyOf(s, id), TallyOf(s', id).(crashed := TallyOf(s, id).crashed))
  {
    var s' := Apply(cfg, d, s, step);
    var at := if step.Insert? || !AtWork(PcOf(s, step.r)) then 0 else PcOf(s, step.r).id;
    forall id ensures var t, t' := TallyOf(s, id), TallyOf(s', id);
                      && SameFaults(t, t'.(crashed := t.crashed))
                      && t'.crashed <= t.crashed + One(step.Crash? && id == at) {
      FaultsOfStep(cfg, d, s, step, id);
    }
    SumOneChange(CrashedOf(s), CrashedOf(s'), ids, at, One(step.Crash?));
  }

  ghost predicate OnlyCrashFaults(t: Tally) { t.rolledBack == 0 && t.misreported == 0 && t.retried == 0 }

  lemma {:induction false} CrashesCounted(cfg: RelayConfig, d: Design, s: State, steps: seq<Step>, ids: set<EventId>)
    requires Run(cfg, d, s, steps) && OnlyCrashes(steps) && NoOrphans(s)
    requires forall id :: OnlyCrashFaults(TallyOf(s, id))
    ensures var s' := After(cfg, d, s, steps);
            && Sum(CrashedOf(s'), ids) <= Sum(CrashedOf(s), ids) + Crashes(steps)
            && forall id :: OnlyCrashFaults(TallyOf(s', id))
    decreases |steps|
  {
    if steps != [] {
      OnlyCrashesRest(steps);
      OneRowPerDeath(cfg, d, s, steps[0], ids);
      NoOrphansKept(cfg, d, s, steps[0]);
      CrashesCounted(cfg, d, Apply(cfg, d, s, steps[0]), steps[1..], ids);
    }
  }

  lemma {:induction false} SumZero(s: State, ids: set<EventId>)
    requires forall id :: TallyOf(s, id).crashed == 0
    ensures Sum(CrashedOf(s), ids) == 0
    decreases |ids|
  {
    if ids != {} { SumZero(s, ids - {Pick(ids)}); }
  }

  // The blast radius of a crash is exactly one duplicate: over all rows
  // together, the messages beyond the first of each are no more than the
  // processes that died.
  lemma OneDuplicatePerCrash(cfg: RelayConfig, d: Design, steps: seq<Step>, ids: set<EventId>)
    requires Exclusive(d) && Run(cfg, d, EMPTY, steps) && OnlyCrashes(steps)
    ensures Sum(ExtraOf(After(cfg, d, EMPTY, steps)), ids) <= Crashes(steps)
  {
    LedgerAlways(cfg, d, EMPTY, steps);
    CrashesCounted(cfg, d, EMPTY, steps, ids);
    SumZero(EMPTY, ids);
    var s := After(cfg, d, EMPTY, steps);
    forall id | id in ids ensures ExtraOf(s)(id) <= CrashedOf(s)(id) {
      assert OnlyCrashFaults(TallyOf(s, id)) && Balanced(s, id) && LockOk(s, id);
      if id in s.locks { assert RelayOk(s, s.locks[id]); }
    }
    SumMonotone(ExtraOf(s), CrashedOf(s), ids);
  }

  lemma {:induction false} NoCrashes(steps: seq<Step>)
    requires AllFaultFree(steps)
    ensures Crashes(steps) == 0 && OnlyCrashes(steps)
    decreases |steps|
  {
    if steps != [] {
      assert FaultFree(steps[0]);
      assert AllFaultFree(steps[1..]) by {
        forall i | 0 <= i < |steps[1..]| ensures FaultFree(steps[1..][i]) { assert steps[1..][i] == steps[i + 1]; }
      }
      NoCrashes(steps[1..]);
    }
  }

  lemma AtMostOnceFaultFree(cfg: RelayConfig, d: Design, steps: seq<Step>, id: EventId)
    requires Exclusive(d) && Run(cfg, d, EMPTY, steps) && AllFaultFree(steps)
    ensures TallyOf(After(cfg, d, EMPTY, steps), id).accepted <= 1
  {
    NoCrashes(steps);
    OneDuplicatePerCrash(cfg, d, steps, {id});
    SumTake(ExtraOf(After(cfg, d, EMPTY, steps)), {id}, id);
  }

  // ---- failure bookkeeping -------------------------------------------------

  // The counter is the number of committed record_failure calls, and a row is
  // parked exactly for one of the two reasons.
  ghost predicate Counts(cfg: RelayConfig, s: State, id: EventId) {
    var t := TallyOf(s, id);
    id in s.rows ==>
      && s.rows[id].attempts == t.recorded
      && (s.rows[id].parked <==> t.recorded >= cfg.maxAttempts || t.permanents > 0)
  }

  lemma CountsKept(cfg: RelayConfig, d: Design, s: State, step: Step, id: EventId)
    requires cfg.Valid() && d.counting.OwnTransaction? && Enabled(cfg, d, s, step)
    requires Grounded(s, id) && Counts(cfg, s, id)
    ensures Counts(cfg, Apply(cfg, d, s, step), id)
  {
    if step.Insert? && step.newId == id { assert TallyOf(s, id) == ZERO; }
  }

  lemma {:induction false} CountsAlways(cfg: RelayConfig, d: Design, s: State, steps: seq<Step>)
    requires cfg.Valid() && d.counting.OwnTransaction? && Run(cfg, d, s, steps)
    requires forall id :: Grounded(s, id) && Counts(cfg, s, id)
    ensures forall id :: Grounded(After(cfg, d, s, steps), id) && Counts(cfg, After(cfg, d, s, steps), id)
    decreases |steps|
  {
    if steps != [] {
      forall id ensures Grounded(Apply(cfg, d, s, steps[0]), id) && Counts(cfg, Apply(cfg, d, s, steps[0]), id) {
        assert Grounded(s, id) && Counts(cfg, s, id);
        GroundedKept(cfg, d, s, steps[0], id);
        CountsKept(cfg, d, s, steps[0], id);
      }
      CountsAlways(cfg, d, Apply(cfg, d, s, steps[0]), steps[1..]);
    }
  }

  lemma BookkeepingExact(cfg: RelayConfig, d: Design, steps: seq<Step>, id: EventId)
    requires cfg.Valid() && d.counting.OwnTransaction? && Run(cfg, d, EMPTY, steps)
    ensures Counts(cfg, After(cfg, d, EMPTY, steps), id)
  {
    CountsAlways(cfg, d, EMPTY, steps);
  }

  // In every reachable table a row out of attempts is parked, so the query's
  // `attempts` filter adds nothing to its `failed_at` one.
  lemma ReachableSettled(cfg: RelayConfig, d: Design, steps: seq<Step>)
    requires cfg.Valid() && d.counting.OwnTransaction? && Run(cfg, d, EMPTY, steps)
    ensures var rows := After(cfg, d, EMPTY, steps).rows;
            && TableSettled(cfg, rows)
            && forall id :: id in rows ==> (Eligible(cfg, rows[id]) <==> !rows[id].published && !rows[id].parked)
  {
    var rows := After(cfg, d, EMPTY, steps).rows;
    forall id | id in rows ensures Settled(cfg, rows[id]) { BookkeepingExact(cfg, d, steps, id); }
    assert forall id :: id in rows ==> Settled(cfg, rows[id]);
  }

  // ---- published means sent ------------------------------------------------

  // Publish-then-mark: a row in the gap or published has reached SNS.
  ghost predicate Sent(s: State, id: EventId) {
    && (id in s.rows && s.rows[id].published ==> TallyOf(s, id).accepted >= 1)
    && (forall r :: r in s.relays && s.relays[r].Gap? && s.relays[r].id == id ==> TallyOf(s, id).accepted >= 1)
    && (forall r :: r in s.relays ==> !s.relays[r].Marked?)
  }

  lemma SentKept(cfg: RelayConfig, d: Design, s: State, step: Step, id: EventId)
    requires !d.markFirst && Enabled(cfg, d, s, step) && (forall x :: Sent(s, x))
    ensures Sent(Apply(cfg, d, s, step), id)
  {
    assert Sent(s, id);
    AcceptedGrows(s, step, id);
    if !step.Insert? && AtWork(NextPc(cfg, d, s, step)) { NextId(cfg, d, s, step); }
  }

  lemma AcceptedGrows(s: State, step: Step, id: EventId)
    ensures var t := if id in TallyAfter(s, step) then TallyAfter(s, step)[id] else ZERO;
            t.accepted >= TallyOf(s, id).accepted
  {
  }

  lemma {:induction false} SentAlways(cfg: RelayConfig, d: Design, s: State, steps: seq<Step>)
    requires !d.markFirst && Run(cfg, d, s, steps) && (forall id :: Sent(s, id))
    ensures forall id :: Sent(After(cfg, d, s, steps), id)
    decreases |steps|
  {
    if steps != [] {
      forall id ensures Sent(Apply(cfg, d, s, steps[0]), id) { SentKept(cfg, d, s, steps[0], id); }
      SentAlways(cfg, d, Apply(cfg, d, s, steps[0]), steps[1..]);
    }
  }

  // ---- what a step tells SNS, and what it leaves of a row -------------------

  // The account of accepted messages follows what steps emit, row by row, and
  // only existing rows are ever emitted.
  lemma EmitsCounted(cfg: RelayConfig, s: State, step: Step, id: EventId)
    requires Enabled(cfg, CODE, s, step)
    ensures TallyOf(Apply(cfg, CODE, s, step), id).accepted ==
              TallyOf(s, id).accepted + if Emits(s, step).0 == id then Emits(s, step).1 else 0
  {
  }

  // Cause by cause: what one step adds to a row's account.
  lemma CausesOfStep(cfg: RelayConfig, s: State, step: Step, id: EventId)
    requires Enabled(cfg, CODE, s, step) && !step.Insert?
    ensures var pc, t, t' := PcOf(s, step.r), TallyOf(s, id), TallyOf(Apply(cfg, CODE, s, step), id);
            var here := AtWork(pc) && pc.id == id;
            var calls := step.PublishOk? || step.PublishRaises? || (step.Crash? && Sending(pc));
            var copies := if calls then step.copies else 0;
            && t'.accepted == t.accepted + (if here then copies else 0)
            && t'.retried == t.retried + (if here && copies > 0 then copies - 1 else 0)
            && t'.marked == t.marked + One(here && (step.Commit? || step.CommitReplyLost?))
            && t'.crashed == t.crashed + One(here && step.Crash? && (pc.Gap? || copies > 0))
            && t'.rolledBack == t.rolledBack + One(here && (step.CommitRaises? || (step.PublishOk? && pc.Orphan?)))
            && t'.misreported == t.misreported + One(here && step.PublishRaises? && copies > 0)
            && t'.recorded == t.recorded + One(here && step.Record?)
            && t'.permanents == t.permanents + One(here && step.Record? && pc.permanent)
  {
    var pc, s' := PcOf(s, step.r), Apply(cfg, CODE, s, step);
    if AtWork(pc) && pc.id == id {
      assert TallyOf(s', id) == Entry(TallyOf(s, id), pc, step);
      CausesOfEntry(TallyOf(s, id), pc, step);
    } else {
      assert TallyOf(s', id) == TallyOf(s, id);
    }
  }

  lemma CausesOfEntry(t: Tally, pc: Pc, step: Step)
    requires !step.Insert? && (step.Record? ==> pc.Failing?)
    ensures var t', calls := Entry(t, pc, step), step.PublishOk? || step.PublishRaises? || (step.Crash? && Sending(pc));
            var copies := if calls then step.copies else 0;
            && t'.accepted == t.accepted + copies
            && t'.retried == t.retried + (if copies > 0 then copies - 1 else 0)
            && t'.marked == t.marked + One(step.Commit? || step.CommitReplyLost? || step.MarkFirst?)
            && t'.crashed == t.crashed + One(step.Crash? && (pc.Gap? || copies > 0))
            && t'.rolledBack == t.rolledBack + One(step.CommitRaises? || (step.PublishOk? && pc.Orphan?))
            && t'.misreported == t.misreported + One(step.PublishRaises? && copies > 0)
            && t'.recorded == t.recorded + One(step.Record?)
            && t'.permanents == t.permanents + One(step.Record? && pc.permanent)
  {
  }

  lemma EmitsRow(cfg: RelayConfig, s: State, step: Step)
    requires Enabled(cfg, CODE, s, step) && Ledger(s) && Emits(s, step).1 > 0
    ensures Emits(s, step).0 in s.rows
  {
    assert Grounded(s, Emits(s, step).0);
  }

  lemma RowKept(cfg: RelayConfig, d: Design, s: State, step: Step, id: EventId)
    requires Enabled(cfg, d, s, step) && !step.Insert?
    ensures var rows' := RowsAfter(cfg, d, s, step);
            && (id in rows' <==> id in s.rows)
            && (id in s.rows ==>
                  && BuildMessage(id, rows'[id]) == BuildMessage(id, s.rows[id])
                  && (s.rows[id].published ==> rows'[id].published))
  {
  }

  // The event a row stands for never changes, and rows are never removed.
  lemma RowIdentity(cfg: RelayConfig, d: Design, s: State, step: Step)
    requires Enabled(cfg, d, s, step) && !step.Insert?
    ensures Apply(cfg, d, s, step).rows.Keys == s.rows.Keys
    ensures forall id :: id in s.rows ==>
              && BuildMessage(id, Apply(cfg, d, s, step).rows[id]) == BuildMessage(id, s.rows[id])
              && (s.rows[id].published ==> Apply(cfg, d, s, step).rows[id].published)
  {
    forall id ensures id in Apply(cfg, d, s, step).rows <==> id in s.rows { RowKept(cfg, d, s, step, id); }
    forall id | id in s.rows
      ensures BuildMessage(id, Apply(cfg, d, s, step).rows[id]) == BuildMessage(id, s.rows[id])
      ensures s.rows[id].published ==> Apply(cfg, d, s, step).rows[id].published
    {
      RowKept(cfg, d, s, step, id);
    }
  }

  // The runs leave nothing out that can go wrong: under the lock the SNS call
  // may be taken any number of times and still raise, and relay and connection
  // may go; in the gap the commit may fail or lie, and the relay die; a lookup
  // may raise, and a recording fail.
  lemma AnythingCanGoWrong(cfg: RelayConfig, s: State, r: RelayId, copies: nat, permanent: bool)
    ensures PcOf(s, r).Locked? ==>
              && Enabled(cfg, CODE, s, PublishOk(r, copies + 1))
              && Enabled(cfg, CODE, s, PublishRaises(r, copies, permanent))
              && Enabled(cfg, CODE, s, ConnectionLost(r)) && Enabled(cfg, CODE, s, Crash(r, copies))
    ensures PcOf(s, r).Gap? && PcOf(s, r).id in s.rows ==>
              && Enabled(cfg, CODE, s, Commit(r)) && Enabled(cfg, CODE, s, CommitRaises(r))
              && Enabled(cfg, CODE, s, CommitReplyLost(r)) && Enabled(cfg, CODE, s, Crash(r, 0))
    ensures PcOf(s, r).Batch? && PcOf(s, r).ids != [] && PcOf(s, r).ids[0] in s.rows ==>
              && Enabled(cfg, CODE, s, LookupRaises(r)) && Enabled(cfg, CODE, s, Crash(r, 0))
              && (Enabled(cfg, CODE, s, Lock(r)) <==>
                    PcOf(s, r).ids[0] !in s.locks && !s.rows[PcOf(s, r).ids[0]].published)
    ensures PcOf(s, r).Failing? && PcOf(s, r).id in s.rows ==>
              && Enabled(cfg, CODE, s, RecordLost(r)) && Enabled(cfg, CODE, s, Crash(r, 0))
              && (Enabled(cfg, CODE, s, Record(r, false)) <==> PcOf(s, r).id !in s.locks)
              && (Enabled(cfg, CODE, s, Record(r, true)) <==> PcOf(s, r).id !in s.locks)
    ensures PcOf(s, r).Orphan? ==>
              && Enabled(cfg, CODE, s, PublishOk(r, copies + 1))
              && Enabled(cfg, CODE, s, PublishRaises(r, copies, permanent))
              && Enabled(cfg, CODE, s, Crash(r, copies))
  {
  }

  // ---- one relay -----------------------------------------------------------

  // Whether one relay process runs at a time, and whether a commit that raises
  // has always rolled back.
  datatype Regime = Regime(oneRelay: bool, atomicCommits: bool)

  predicate Permits(g: Regime, step: Step) {
    && (g.oneRelay ==> step.Insert? || step.r == 0)
    && (g.atomicCommits ==> !step.CommitReplyLost?)
  }

  predicate Within(g: Regime, steps: seq<Step>) { forall i :: 0 <= i < |steps| ==> Permits(g, steps[i]) }

  const SOLO: Regime := Regime(true, true)

  predicate Clean(s: State, id: EventId) { id in s.rows && !s.rows[id].published && !s.rows[id].parked }

  ghost predicate CleanAll(s: State, ids: seq<EventId>) {
    Distinct(ids) && forall i :: 0 <= i < |ids| ==> Clean(s, ids[i])
  }

  ghost predicate SoloInv(s: State) {
    && (forall id :: id in s.rows ==> !(s.rows[id].parked && s.rows[id].published))
    && (forall r :: r in s.relays ==> r == 0)
    && (match PcOf(s, 0)
        case Idle => true
        case Batch(ids) => CleanAll(s, ids)
        case Locked(id, rest) => CleanAll(s, rest) && id !in rest && Clean(s, id)
        case Orphan(id, rest) => CleanAll(s, rest) && id !in rest && Clean(s, id)
        case Gap(id, rest) => CleanAll(s, rest) && id !in rest && Clean(s, id)
        case Failing(id, rest, _) => CleanAll(s, rest) && id !in rest && Clean(s, id)
        case _ => false)
  }

  // The code, and the code with the parked flag rechecked under the lock too.
  predicate Shipped(d: Design) { Exclusive(d) && d.counting.OwnTransaction? }

  lemma CleanRest(s: State, ids: seq<EventId>)
    requires CleanAll(s, ids) && ids != []
    ensures CleanAll(s, ids[1..]) && ids[0] !in ids[1..] && Clean(s, ids[0])
  {
    forall i | 0 <= i < |ids[1..]| ensures ids[1..][i] != ids[0] && Clean(s, ids[1..][i]) {
      assert ids[1..][i] == ids[i + 1];
    }
  }

  lemma SoloKeptAtRow(cfg: RelayConfig, d: Design, s: State, step: Step)
    requires Shipped(d) && SoloInv(s) && Permits(SOLO, step) && Enabled(cfg, d, s, step)
    requires step.Lock? || step.Skip? || step.LookupRaises?
    ensures SoloInv(Apply(cfg, d, s, step))
  {
    CleanRest(s, PcOf(s, 0).ids);
  }

  // The only steps by which the one relay writes a row.
  predicate Writes(step: Step) { step.Commit? || step.Record? }

  lemma SoloKeptByWrite(cfg: RelayConfig, d: Design, s: State, step: Step)
    requires Shipped(d) && SoloInv(s) && Permits(SOLO, step) && Enabled(cfg, d, s, step) && Writes(step)
    ensures SoloInv(Apply(cfg, d, s, step))
  {
    var s', rest := Apply(cfg, d, s, step), PcOf(s, 0).rest;
    forall i | 0 <= i < |rest| ensures Clean(s', rest[i]) { assert rest[i] != PcOf(s, 0).id; }
  }

  lemma SoloKeptByRead(cfg: RelayConfig, d: Design, s: State, step: Step)
    requires Shipped(d) && SoloInv(s) && Permits(SOLO, step) && Enabled(cfg, d, s, step)
    requires step.Insert? || step.ReadBatch? || step.EndBatch?
    ensures SoloInv(Apply(cfg, d, s, step))
  {
    var s' := Apply(cfg, d, s, step);
    if step.ReadBatch? {
      forall i | 0 <= i < |step.ids| ensures Clean(s', step.ids[i]) { }
    }
  }

  lemma SoloKeptByRest(cfg: RelayConfig, d: Design, s: State, step: Step)
    requires Shipped(d) && SoloInv(s) && Permits(SOLO, step) && Enabled(cfg, d, s, step) && !Writes(step)
    requires !step.Lock? && !step.Skip? && !step.LookupRaises? && !step.Insert? && !step.ReadBatch? && !step.EndBatch?
    ensures SoloInv(Apply(cfg, d, s, step))
  {
    assert Apply(cfg, d, s, step).rows == s.rows;
  }

  lemma SoloKept(cfg: RelayConfig, d: Design, s: State, step: Step)
    requires Shipped(d) && SoloInv(s) && Permits(SOLO, step) && Enabled(cfg, d, s, step)
    ensures SoloInv(Apply(cfg, d, s, step))
  {
    if step.Lock? || step.Skip? || step.LookupRaises? { SoloKeptAtRow(cfg, d, s, step); }
    else if Writes(step) { SoloKeptByWrite(cfg, d, s, step); }
    else if step.Insert? || step.ReadBatch? || step.EndBatch? { SoloKeptByRead(cfg, d, s, step); }
    else { SoloKeptByRest(cfg, d, s, step); }
  }

  lemma {:induction false} SoloAlways(cfg: RelayConfig, d: Design, s: State, steps: seq<Step>)
    requires Shipped(d) && SoloInv(s) && Within(SOLO, steps) && Run(cfg, d, s, steps)
    ensures SoloInv(After(cfg, d, s, steps))
    decreases |steps|
  {
    if steps != [] {
      assert Permits(SOLO, steps[0]);
      assert Within(SOLO, steps[1..]) by {
        forall i | 0 <= i < |steps[1..]| ensures Permits(SOLO, steps[1..][i]) { assert steps[1..][i] == steps[i + 1]; }
      }
      SoloKept(cfg, d, s, steps[0]);
      SoloAlways(cfg, d, Apply(cfg, d, s, steps[0]), steps[1..]);
    }
  }

  // One relay and atomic commits: no row is both parked and published, and no
  // parked row is ever picked up again.
  lemma SoloParkedStaysParked(cfg: RelayConfig, d: Design, steps: seq<Step>, id: EventId)
    requires Shipped(d) && Run(cfg, d, EMPTY, steps) && Within(SOLO, steps)
    ensures var s := After(cfg, d, EMPTY, steps);
            id in s.rows && s.rows[id].parked ==> !s.rows[id].published && forall r :: !Holds(PcOf(s, r), id)
  {
    SoloAlways(cfg, d, EMPTY, steps);
  }
}
