// relay/service.py on the table: which rows a poll may pick, what one attempt
// does to a row, and what a whole batch does to the table.
module Outbox {
  import opened Arithmetic
  import opened Base

  // ---- classification ------------------------------------------------------

  datatype Exc = ClientError(code: string) | OtherError

  const PERMANENT_SNS_ERRORS: set<string> := {
    "InvalidParameter", "InvalidParameterValue", "ParameterValueInvalid", "EntityTooLarge",
    "AuthorizationError", "InvalidSecurity", "KMSAccessDenied", "KMSInvalidStateException" }

  predicate IsPermanent(exc: Exc) {
    exc.ClientError? && exc.code in PERMANENT_SNS_ERRORS
  }

  // What becomes of record_failure's own transaction: committed; committed but
  // raising all the same; or not committed, which raises.
  datatype Recording = Counted | CountedThenRaised | Uncounted

  // What the world does when the relay takes a row on: published and marked;
  // the publish call raised; the commit raised, applied or not; or the lookup
  // (or the commit of a lookup that found nothing) raised.
  datatype Outcome =
    | Accepted
    | Refused(exc: Exc, record: Recording)
    | CommitRaised(applied: bool, record: Recording)
    | LookupRaised(record: Recording)

  // Only the publish call raises an SNS error; a database error is transient.
  predicate Permanent(o: Outcome) { o.Refused? && IsPermanent(o.exc) }
  predicate Transient(o: Outcome) { !o.Accepted? && !Permanent(o) }
  predicate Recorded(o: Outcome) { o.Accepted? || o.record.Counted? }

  // One poll attempts each id at most once, so a function from ids is an
  // arbitrary adversary for that poll.
  type Sns = EventId -> Outcome

  // ---- one row -------------------------------------------------------------

  predicate Eligible(cfg: RelayConfig, row: Row) {
    !row.published && !row.parked && row.attempts < cfg.maxAttempts
  }

  function Mark(row: Row): Row { row.(published := true) }

  // The two UPDATEs of record_failure.
  function RecordFailure(cfg: RelayConfig, row: Row, permanent: bool): Row {
    var attempts := row.attempts + 1;
    row.(attempts := attempts, parked := row.parked || permanent || attempts >= cfg.maxAttempts)
  }

  function Attempt(cfg: RelayConfig, row: Row, o: Outcome): Row {
    if o.Accepted? then Mark(row)
    else
      var left := if o.CommitRaised? && o.applied then Mark(row) else row;
      if o.record.Uncounted? then left else RecordFailure(cfg, left, Permanent(o))
  }

  // attempts at the limit means parked: kept by every step of the relay, and
  // what makes the query's `attempts` filter follow from its `failed_at` one.
  predicate Settled(cfg: RelayConfig, row: Row) {
    row.attempts >= cfg.maxAttempts ==> row.parked
  }

  ghost predicate TableSettled(cfg: RelayConfig, rows: Table) {
    forall id :: id in rows ==> Settled(cfg, rows[id])
  }

  ghost function EligibleIds(cfg: RelayConfig, rows: Table): set<EventId> {
    set id | id in rows && Eligible(cfg, rows[id])
  }

  // ---- the poll query ------------------------------------------------------

  ghost predicate Distinct(ids: seq<EventId>) {
    forall i, j :: 0 <= i < j < |ids| ==> ids[i] != ids[j]
  }

  // `ids` is an answer of pending_event_ids: eligible rows, oldest first, at
  // most batchSize, none passed over for a younger one; ties in any order.
  ghost predicate PendingAnswer(cfg: RelayConfig, rows: Table, ids: seq<EventId>) {
    && Distinct(ids)
    && |ids| <= cfg.batchSize
    && (forall i :: 0 <= i < |ids| ==> ids[i] in rows && Eligible(cfg, rows[ids[i]]))
    && (forall i, j :: 0 <= i < j < |ids| ==> rows[ids[i]].createdAt <= rows[ids[j]].createdAt)
    && (forall e :: e in EligibleIds(cfg, rows) && e !in ids ==>
          && |ids| == cfg.batchSize
          && forall i :: 0 <= i < |ids| ==> rows[ids[i]].createdAt <= rows[e].createdAt)
  }

  // ---- one poll ------------------------------------------------------------

  // `attempted` lists the ids the relay took on, in order; `abandoned` is the
  // `break` after a transient failure; `raised` is an exception out of
  // relay_batch itself because the failure could not be recorded.
  datatype Poll = Poll(rows: Table, attempted: seq<EventId>, published: nat, abandoned: bool, raised: bool)

  // Whether the locked lookup finds the row. `busy` are the rows locked by
  // other relays, which SKIP LOCKED passes over.
  predicate Ours(rows: Table, busy: set<EventId>, id: EventId) {
    id in rows && id !in busy && !rows[id].published
  }

  // The loop of relay_batch over the ids it read.
  function RunBatch(cfg: RelayConfig, rows: Table, busy: set<EventId>, ids: seq<EventId>, sns: Sns): Poll
    decreases |ids|
  {
    if ids == [] then Poll(rows, [], 0, false, false)
    else
      var id, o := ids[0], sns(ids[0]);
      if !Ours(rows, busy, id) && !o.LookupRaised? then RunBatch(cfg, rows, busy, ids[1..], sns)
      else if id !in rows || id in busy then
        // A failed lookup of a row that cannot be counted on.
        Poll(rows, [id], 0, false, true)
      else
        var rows' := rows[id := Attempt(cfg, rows[id], o)];
        if !Recorded(o) then Poll(rows', [id], 0, false, true)
        else if Transient(o) then Poll(rows', [id], 0, true, false)
        else
          var rest := RunBatch(cfg, rows', busy, ids[1..], sns);
          rest.(attempted := [id] + rest.attempted,
                published := rest.published + if o.Accepted? then 1 else 0)
  }

  // ---- shape of a poll -----------------------------------------------------

  // Everything later arguments need about one poll by the only relay, stated
  // without recursion: the ids tried are a prefix of the batch, each such row
  // changed by exactly its own outcome, nothing else moved, and the poll
  // stopped early only at a transient failure.
  ghost predicate PollShape(cfg: RelayConfig, rows: Table, ids: seq<EventId>, sns: Sns, poll: Poll) {
    var n := |poll.attempted|;
    && !poll.raised
    && n <= |ids| && poll.attempted == ids[..n]
    && poll.rows.Keys == rows.Keys
    && (forall i :: 0 <= i < |ids| ==> ids[i] in rows)
    && (forall i :: 0 <= i < n ==> poll.rows[ids[i]] == Attempt(cfg, rows[ids[i]], sns(ids[i])))
    && (forall id :: id in rows && id !in poll.attempted ==> poll.rows[id] == rows[id])
    && (forall i :: 0 <= i < n ==> (Transient(sns(ids[i])) <==> poll.abandoned && i == n - 1))
    && (poll.abandoned ==> n > 0)
    && (!poll.abandoned ==> n == |ids|)
  }

  lemma {:induction false} ShapeOfPoll(cfg: RelayConfig, rows: Table, ids: seq<EventId>, sns: Sns)
    requires Distinct(ids)
    requires forall i :: 0 <= i < |ids| ==> ids[i] in rows && !rows[ids[i]].published
    requires forall i :: 0 <= i < |ids| ==> Recorded(sns(ids[i]))
    ensures PollShape(cfg, rows, ids, sns, RunBatch(cfg, rows, {}, ids, sns))
    decreases |ids|
  {
    if ids != [] {
      var id, rest := ids[0], ids[1..];
      var o := sns(id);
      var rows' := rows[id := Attempt(cfg, rows[id], o)];
      var poll := RunBatch(cfg, rows, {}, ids, sns);
      if Transient(o) {
        assert poll.attempted == ids[..1];
      } else {
        forall i | 0 <= i < |rest| ensures rest[i] in rows' && !rows'[rest[i]].published && Recorded(sns(rest[i])) {
          assert rest[i] == ids[i + 1] && ids[0] != ids[i + 1];
        }
        ShapeOfPoll(cfg, rows', rest, sns);
        var tail := RunBatch(cfg, rows', {}, rest, sns);
        var n := |poll.attempted|;
        assert poll.attempted == [id] + tail.attempted == ids[..n];
        forall i | 0 <= i < n
          ensures poll.rows[ids[i]] == Attempt(cfg, rows[ids[i]], sns(ids[i]))
          ensures Transient(sns(ids[i])) <==> poll.abandoned && i == n - 1
        {
          if i == 0 {
            assert id !in tail.attempted by {
              forall k | 0 <= k < |tail.attempted| ensures tail.attempted[k] != id {
                assert rest[k] == ids[k + 1];
              }
            }
          } else {
            assert ids[i] == rest[i - 1] && ids[0] != ids[i];
          }
        }
      }
    }
  }

  // A row that was tried is no longer eligible unless the failure was
  // transient and left it attempts to spare.
  lemma AttemptSettles(cfg: RelayConfig, row: Row, o: Outcome)
    requires Settled(cfg, row) && Recorded(o)
    ensures Settled(cfg, Attempt(cfg, row, o))
    ensures !Transient(o) ==> !Eligible(cfg, Attempt(cfg, row, o))
    ensures Transient(o) ==> Attempt(cfg, row, o).attempts == row.attempts + 1
    ensures Transient(o) && Eligible(cfg, row) && !(o.CommitRaised? && o.applied) ==>
              (Eligible(cfg, Attempt(cfg, row, o)) <==> row.attempts + 1 < cfg.maxAttempts)
  {
  }

  // Which SNS answers are worth retrying, code by code. A refused fresh row is
  // parked at once, and the poll goes on behind it, exactly for eight codes;
  // after any other answer it is retried, and the poll is abandoned.
  lemma ParkedAtOnceIffListed(cfg: RelayConfig, rows: Table, id: EventId, rest: seq<EventId>, sns: Sns, code: string)
    requires cfg.maxAttempts >= 2 && id in rows && Eligible(cfg, rows[id]) && rows[id].attempts == 0
    requires sns(id) == Refused(ClientError(code), Counted)
    ensures var listed :=
              || code == "InvalidParameter" || code == "InvalidParameterValue" || code == "ParameterValueInvalid"
              || code == "EntityTooLarge" || code == "AuthorizationError" || code == "InvalidSecurity"
              || code == "KMSAccessDenied" || code == "KMSInvalidStateException";
            var row, poll := Attempt(cfg, rows[id], sns(id)), RunBatch(cfg, rows, {}, [id] + rest, sns);
            && row == rows[id].(attempts := 1, parked := listed)
            && (listed ==>
                  var behind := RunBatch(cfg, rows[id := row], {}, rest, sns);
                  poll == behind.(attempted := [id] + behind.attempted))
            && (!listed ==> Eligible(cfg, row) && poll == Poll(rows[id := row], [id], 0, true, false))
  {
    assert ([id] + rest)[1..] == rest;
  }

  // Nor is any other exception out of the publish, or of the database, ever
  // taken for a permanent one.
  lemma OtherErrorsAreRetried(cfg: RelayConfig, rows: Table, id: EventId, rest: seq<EventId>, sns: Sns)
    requires cfg.maxAttempts >= 2 && id in rows && Eligible(cfg, rows[id]) && rows[id].attempts == 0
    requires || sns(id) == Refused(OtherError, Counted) || sns(id) == CommitRaised(false, Counted)
             || sns(id) == LookupRaised(Counted)
    ensures var row := rows[id].(attempts := 1);
            && Eligible(cfg, row)
            && RunBatch(cfg, rows, {}, [id] + rest, sns) == Poll(rows[id := row], [id], 0, true, false)
  {
    assert ([id] + rest)[1..] == rest;
  }

  // ---- rows of other relays ------------------------------------------------

  function Free(busy: set<EventId>, ids: seq<EventId>): seq<EventId> {
    if ids == [] then []
    else (if ids[0] in busy then [] else [ids[0]]) + Free(busy, ids[1..])
  }

  // SKIP LOCKED: rows locked by other relays are stepped over, as if they had
  // not been in the batch.
  lemma {:induction false} BusyRowsAreSteppedOver(cfg: RelayConfig, rows: Table, busy: set<EventId>,
                                                  ids: seq<EventId>, sns: Sns)
    requires forall i :: 0 <= i < |ids| && ids[i] in busy ==> !sns(ids[i]).LookupRaised?
    ensures RunBatch(cfg, rows, busy, ids, sns) == RunBatch(cfg, rows, {}, Free(busy, ids), sns)
    decreases |ids|
  {
    if ids != [] {
      var rest, o := ids[1..], sns(ids[0]);
      BusyRowsAreSteppedOver(cfg, rows, busy, rest, sns);
      if ids[0] in busy {
        assert Free(busy, ids) == Free(busy, rest);
      } else {
        assert Free(busy, ids)[1..] == Free(busy, rest);
        if ids[0] in rows {
          BusyRowsAreSteppedOver(cfg, rows[ids[0] := Attempt(cfg, rows[ids[0]], o)], busy, rest, sns);
        }
      }
    }
  }

  // Whatever goes wrong, a poll leaves the rows locked by others alone.
  lemma {:induction false} BusyRowsStay(cfg: RelayConfig, rows: Table, busy: set<EventId>, ids: seq<EventId>, sns: Sns,
                                        id: EventId)
    requires id in rows && (id in busy || id !in ids)
    ensures var poll := RunBatch(cfg, rows, busy, ids, sns); id in poll.rows && poll.rows[id] == rows[id]
    decreases |ids|
  {
    if ids != [] {
      BusyRowsStay(cfg, rows, busy, ids[1..], sns, id);
      if ids[0] in rows && ids[0] !in busy {
        BusyRowsStay(cfg, rows[ids[0] := Attempt(cfg, rows[ids[0]], sns(ids[0]))], busy, ids[1..], sns, id);
      }
    }
  }

  // The number reported is the number of rows the poll published, whoever
  // else holds what and whatever raises.
  function AcceptedAmong(ids: seq<EventId>, sns: Sns): nat {
    if ids == [] then 0 else One(sns(ids[0]).Accepted?) + AcceptedAmong(ids[1..], sns)
  }

  lemma {:induction false} ReportsThePublished(cfg: RelayConfig, rows: Table, busy: set<EventId>,
                                               ids: seq<EventId>, sns: Sns)
    ensures var poll := RunBatch(cfg, rows, busy, ids, sns); poll.published == AcceptedAmong(poll.attempted, sns)
    decreases |ids|
  {
    if ids != [] {
      var rest := ids[1..];
      ReportsThePublished(cfg, rows, busy, rest, sns);
      if ids[0] in rows {
        var rows' := rows[ids[0] := Attempt(cfg, rows[ids[0]], sns(ids[0]))];
        ReportsThePublished(cfg, rows', busy, rest, sns);
        var tail := RunBatch(cfg, rows', busy, rest, sns).attempted;
        assert ([ids[0]] + tail)[1..] == tail;
      }
    }
  }

  // ---- the operator's retry ------------------------------------------------

  function ClearFailedAt(row: Row): Row { row.(parked := false) }

  // Clearing failed_at puts a parked row back in the poll exactly when it was
  // parked early, by a permanent error. A row parked for exhausting its
  // attempts is in no answer ever again: the query also filters on attempts.
  lemma ClearingFailedAtRetriesIff(cfg: RelayConfig, rows: Table, id: EventId)
    requires id in rows && rows[id].parked && !rows[id].published
    ensures var rows' := rows[id := ClearFailedAt(rows[id])];
            if rows[id].attempts < cfg.maxAttempts
            then forall ids :: PendingAnswer(cfg.(batchSize := |rows|), rows', ids) ==> id in ids
            else forall ids, size :: PendingAnswer(cfg.(batchSize := size), rows', ids) ==> id !in ids
  {
    var rows' := rows[id := ClearFailedAt(rows[id])];
    var wide := cfg.(batchSize := |rows|);
    assert rows'.Keys == rows.Keys && |rows'.Keys| == |rows|;
    if rows[id].attempts < cfg.maxAttempts {
      forall ids | PendingAnswer(wide, rows', ids) ensures id in ids {
        assert id in EligibleIds(wide, rows');
        if id !in ids {
          var all := set x | x in ids;
          assert all <= rows'.Keys - {id};
          SetOfDistinct(ids);
          SubsetSize(all, rows'.Keys - {id});
        }
      }
    }
  }

  lemma {:induction false} SetOfDistinct(ids: seq<EventId>)
    requires Distinct(ids)
    ensures |set x | x in ids| == |ids|
    decreases |ids|
  {
    if ids != [] {
      SetOfDistinct(ids[1..]);
      assert (set x | x in ids) == {ids[0]} + set x | x in ids[1..];
      assert ids[0] !in ids[1..];
    }
  }
}
