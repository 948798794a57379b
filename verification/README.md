# Outbox fan-out: a verified model

An order is saved together with an outbox row. One or more relays poll the
outbox and publish each row to SNS. SNS copies every accepted message into
three queues, each with its own dead-letter queue. Three consumers handle the
copies: Billing and Shipping insert a row keyed by the order, Notifications
claims a Redis key and then sends an email. No transaction spans two of these
steps, so the model is about what every interleaving, crash, redelivery and
retry keeps.

| file | what it models |
|---|---|
| `Arithmetic.dfy` | rounded-up division and sums over finite sets |
| `Base.dfy`, `Messages.dfy`, `Wire.dfy` | rows, events, the wire format, what each consumer's handler reads of a body, and one order followed field by field across the services |
| `Outbox.dfy` | the poll query, one attempt, one batch, `record_failure` |
| `Drain.dfy`, `Outage.dfy`, `Stall.dfy` | arithmetic of poll cycles: drain bound, head-of-line bound, outage in closed form, the stall of the former loop |
| `RelayProtocol.dfy` | any number of relays, one atomic step at a time, with pending writes that a rollback discards |
| `RelayDesign.dfy`, `BatchTransaction.dfy` | which design decisions the guarantees need: lock, recheck, publish first, own transaction for the count, one transaction per row |
| `RelayProcess.dfy`, `Reachable.dfy` | the relay's code, updating rows and locks in place, shown to be a run of the protocol; the cycle bounds from every table a run can lead to |
| `Consumers.dfy` | one queue with redrive, any number of workers, the dedup store, one atomic step at a time |
| `Notify.dfy`, `Loss.dfy`, `Expiry.dfy` | what claim-then-send promises: duplicates, losses, TTL against retention |
| `ConsumerProcess.dfy` | the consumer loop and the three handlers as code, shown to be a run of the protocol |
| `Orders.dfy` | the order transaction, and a client that retries it |
| `System.dfy`, `EndToEnd.dfy`, `Retry.dfy` | the composition: no silent loss, refinement to exactly-once billing and shipping, independence of consumers, what a retrying client is billed |
| `Bootstrap.dfy`, `Publisher.dfy` | the re-runnable topology set-up, the cached topic ARN |

Two layers describe the same code. The protocol modules split it into atomic
steps that interleave freely. The process modules follow it statement by
statement; every method carries a ghost trace and proves that what it did is a
run of the protocol, so a theorem about all runs is a theorem about the code.

## Assumptions about the environment

- Each database statement, commit, SNS, SQS or Redis call is one atomic step
  with a nondeterministic outcome, including "applied but reported failed". A
  relay can die, or lose its database connection and with it its locks, between
  any two steps, also while its SNS call is under way.
- A row lock and the re-evaluation of the statement's WHERE clause are one step.
- A commit that raises has rolled back, except in the step `CommitReplyLost`.
- `RELAY_BATCH_SIZE >= 1`, `OUTBOX_MAX_ATTEMPTS >= 1`, `SQS_MAX_RECEIVE_COUNT >= 1`.
- End to end: the subscriptions exist and the broker is not wiped, a queue holds
  the relay's own messages and unparsable strays, and nobody edits the tables by
  hand, except where an edit is a named step or function (`Wipe`, `ClearFailedAt`).
  `Consumers` and `ConsumerProcess` take bodies of any kind.
- JSON text and the printed forms of UUIDs, decimals and timestamps parse back
  to what was printed. Amounts are integer cents, JSON numbers are whole. UUIDs
  may collide; the database then refuses the insert.
- AWS answers the set-up calls as the script's own comments say: create_queue
  refuses a queue that exists with other attributes than those given, setting
  attributes merges, subscribing again returns the subscription there is.

## Where the code and its documentation disagree

- The log line for a parked row, the comment at the end of `relay/service.py`
  and a comment in its tests say that clearing `failed_at` puts the row back in the poll. The query
  also filters on `attempts`, so this works exactly for rows parked before
  their attempts ran out (`Outbox.ClearingFailedAtRetriesIff`).
- `relay/service.py` says counting attempts and classifying errors would each
  alone stop the permanent stall. Counting does. Classification does for the
  errors it lists; an error it does not list stalls the relay for ever without
  the counter (`Stall.NeverStallsIffCounting`, `Stall.ListedErrorsNeverCut`).
- Every error response of `POST /orders` says nothing was saved. A client that
  believes it and asks again until it is told 201 gets one order, and one more
  for each commit that was applied and raised (`Orders.RetrySaves`), and is
  billed for all of them (`Retry.RetryIsBilled`).
- `notifications/service.py` says only a hard kill can drop a notification. A
  failed release and a SET whose reply is lost can too, with one worker
  (`Loss.NotifiesIffNoAccident`), and with two workers a handler that overruns
  its visibility timeout can without any fault (`Notify.OverrunLoses`).
- A parked row is not to be marked published. That needs one relay and commits
  that do not lie. With two relays, rechecking `failed_at` under the lock as well
  would not be enough (`RelayDesign.LateRecordParksPublished`,
  `RelayDesign.NeverBothIffSoloAndAtomic`).
- The configuration comments compare the Redis TTL with the queue's retention.
  A TTL as long as the retention is not enough: a worker may still hold a message
  it received in time. What has to be outlived is the retention and the longest
  hold together (`Expiry.TtlOfRetentionIsNotEnough`, `Expiry.TwiceIffTtlShorterThanLife`).

## Model

| member | source | states |
|---|---|---|
| Messages.UnwrapUndoesSns | shared/messages.py:21-30 | whatever metadata SNS adds, unwrapping its envelope returns the message it was given |
| Messages.UnwrapRawIffNotNotification | shared/messages.py:21-30 | an unwrapped body is accepted as it is, for exactly the messages that do not themselves look like an SNS notification |
| Messages.ReadUndoesPublish | relay/publisher.py:61-70 | the envelope the relay builds, wrapped by SNS or raw, is read back by every consumer as exactly its own part of the event, and is never poison |
| Messages.PoisonIff | shared/consumer.py:57-68 | a body is left for the DLQ without being handled if and only if it is not, wrapped or raw, a JSON object with an event_id |
| Messages.LeastBodies | billing/service.py:20-35 | the smallest bodies each consumer can handle, field by field, and what it reads of them |
| Messages.AmountsBilled | billing/service.py:32-35 | which amounts are billed and as how much: a decimal as it is, a whole number, a boolean as one or nothing; any other makes the handler raise |
| Messages.NoticesKeyed | notifications/service.py:62-86 | a notification is keyed by the order id as printed, whatever it is, and lacks its text exactly if a part of the payload is missing |
| Messages.ReadsNoMore | notifications/service.py:62-86 | what a consumer makes of a body depends on the fields its handler reads alone: any other may be missing or of any type |
| Wire.MessageOfAnOrder | relay/publisher.py:61-70 | the JSON the relay publishes for a request, field by field, from what the client sent and the Order Service generated |
| Wire.FilterPassesOrders | bootstrap/main.py:41-49 | the filter policy of the subscriptions lists the event type of every order's message |
| Wire.ReadFromAnOrder | order/service.py:20-33 | from that message, whatever SNS adds, each consumer reads the ids, customer, item and amount of the request |
| Wire.RowOfAnOrder | shipping/service.py:23-40 | and keeps them, under the printed order id, in its own projection with its own tracking number |
| Outbox.ShapeOfPoll | relay/service.py:248-277 | one poll by a lone relay, without recursion: the ids tried are a prefix of the batch, each changed by its own outcome only, no other row moved, and the poll stopped early exactly at a transient failure |
| Outbox.AttemptSettles | relay/service.py:93-100 | after an accepted publish or a permanent error the row is never eligible again; a transient one costs one attempt and leaves it eligible exactly if attempts are left; a row out of attempts is parked |
| Outbox.ParkedAtOnceIffListed | relay/service.py:41-67 | a refused fresh row is parked and the poll goes on behind it if and only if the SNS code is one of the eight, each written out; for any other code the row stays eligible with one attempt and the poll is abandoned |
| Outbox.OtherErrorsAreRetried | relay/service.py:57-67 | any other exception, out of the publish, the lookup or the commit, likewise costs one attempt and abandons the poll |
| Outbox.BusyRowsAreSteppedOver | relay/service.py:190-210 | rows locked by other relays are stepped over: the poll is the one over the batch without them |
| Outbox.BusyRowsStay | relay/service.py:190-210 | whatever SNS and the database do, a poll changes no row that another relay has locked or that is not in its batch |
| Outbox.ReportsThePublished | relay/service.py:245-277 | the number a poll returns is the number of rows tried that it published, whoever holds what and whatever raised |
| Outbox.ClearingFailedAtRetriesIff | relay/service.py:101-105 | clearing `failed_at` puts a parked row back in the poll if its attempts are below the limit; otherwise the row is in no answer of the query of any size |
| Drain.CycleDrains | relay/service.py:232-277 | without arrivals, a poll not cut short takes a whole batch, or everything left, out of the eligible rows for good |
| Drain.CycleSpends | relay/service.py:95-100 | the sum of remaining attempts over eligible rows strictly decreases with every poll that tries a row, by at least one for each transient failure |
| Drain.DrainBound | relay/service.py:232-277 | N eligible rows are all published or parked after ceil(N / batch size) + T polls, T being the transient failures of the run, and T is at most N times the attempt limit, whatever SNS answers |
| Drain.HeadOfLineFreedom | relay/service.py:131-137 | a row with k eligible rows at least as old is tried within k times the attempt limit plus one polls, while younger rows keep arriving and whatever happens to the older ones |
| Reachable.DrainsFromAnywhere | relay/service.py:232-277 | the drain bound from every table a run of any number of relays, with any crashes, can have led to |
| Reachable.TriedFromAnywhere | relay/service.py:131-137 | the head-of-line bound from every such table, while younger rows arrive |
| Stall.HeadStarvesRest | relay/service.py:280-292 | a relay that does not count attempts, faced with one refused unlisted row at the head, tries no other row in any number of polls |
| Stall.NeverStallsIffCounting | relay/service.py:294-302 | over the four designs with or without counting and classification, the head-of-line bound holds in every run if and only if attempts are counted |
| Stall.ListedErrorsNeverCut | relay/service.py:260-268 | with classification, a poll meeting only listed errors goes through its whole batch and leaves every row of it published or parked |
| Stall.CodeHasBoth | relay/service.py:248-277 | the shipped loop is the design with both cures, poll for poll |
| Outage.OutageClosedForm | relay/service.py:270-275 | from fresh rows with distinct created_at, k polls in which every publish fails transiently park exactly the k / limit oldest, leave k % limit attempts on the next, and change no other row |
| Reachable.OutageFromAnywhere | relay/service.py:270-275 | the same in every table a run of any number of relays can have led to |
| RelayProtocol.LedgerAlways | relay/service.py:190-229 | over any interleaving of any number of relays and crashes: a relay past its lock holds that row's lock and the row is unpublished, a lock has a holder at work, and every row's account of accepted messages balances |
| RelayProtocol.ConservationOfPublishes | relay/service.py:211-229 | accepted publishes of a row = marks + accepted before a death or a lost connection + rolled-back commits + accepted calls reported as failures + the client's own retries + relays now in the gap, of which there is at most one, and none once the row is marked |
| RelayProtocol.OneDuplicatePerCrash | relay/service.py:235-241 | when processes dying is the only fault, the messages beyond the first of each row, summed over any set of rows, are no more than the deaths: one death costs one duplicate of one row |
| BatchTransaction.OnePerDeathIffPerRow | relay/service.py:235-241 | with transactions of up to `size` rows, duplicates are bounded by deaths in every run if and only if a transaction holds one row; otherwise one death can cost any number up to the rows of a transaction |
| BatchTransaction.DeathRepublishesAll | relay/service.py:235-241 | the run: one death before the commit of n rows, and the next relay publishes all n of them a second time |
| RelayProtocol.AtMostOnceFaultFree | relay/service.py:191-210 | with the lock, the recheck and publish before mark, a fault-free run of any number of relays publishes each row at most once |
| RelayProtocol.BookkeepingExact | relay/service.py:81-100 | under any interleaving and rollback `attempts` is the number of committed `record_failure` calls, and the row is parked exactly when they reached the limit or one of them was for a permanent error |
| RelayProtocol.ReachableSettled | relay/service.py:134-135 | in every table any number of relays can lead to, a row out of attempts is parked, so the poll picks exactly from the rows neither published nor parked and the `attempts` filter adds nothing |
| RelayProtocol.SentAlways | relay/service.py:1-12 | in every run a published row, and one between publish and mark, has reached SNS |
| RelayProtocol.SoloParkedStaysParked | relay/service.py:131-137 | one relay, atomic commits: a parked row is unpublished and no relay is working on it |
| RelayProtocol.RowIdentity | relay/publisher.py:46-70 | no step of any relay changes the event a row stands for, removes a row, or unpublishes one |
| RelayProtocol.EmitsCounted | relay/publisher.py:73-102 | a row's account of accepted messages grows by exactly the messages each step hands to SNS for it |
| RelayProtocol.CausesOfStep | relay/service.py:211-229 | each entry of the account is its cause: which step of which relay, and nothing else, adds how much to it |
| RelayProtocol.AnythingCanGoWrong | relay/service.py:211-258 | the runs leave nothing out: at each point of a relay's work every way its calls, commits, connection and process can fail is a step |
| RelayDesign.StaleBatchDuplicates | relay/service.py:193-197 | without the recheck there is a fault-free two-relay run that publishes a row twice from a stale batch |
| RelayDesign.NoLockDuplicates | relay/service.py:176-180 | without the lock there is a fault-free two-relay run that publishes a row twice |
| RelayDesign.AtMostOnceIffLockAndRecheck | relay/service.py:191-210 | fault-free runs publish each row at most once if and only if the row is locked and `published` is rechecked under the lock |
| RelayDesign.LostForever | relay/service.py:3-6 | a row marked but never sent, with no relay on it, stays so in every continuation |
| RelayDesign.NoSilentLossIffPublishFirst | relay/service.py:1-12 | a mark always means a send if and only if the publish comes first; marking first has a run after which the event is never sent in any continuation |
| RelayDesign.StuckAtZero | relay/service.py:70-79 | a count written in the transaction that is about to roll back goes with it: no run, however many failures it meets, moves a counter off zero or parks a row |
| RelayDesign.CountsExactIffOwnUpdate | relay/service.py:70-91 | `attempts` equals the failures recorded in every run if and only if they are counted by one UPDATE in a transaction of its own; counting in the failed transaction or by read-modify-write has a run that loses one |
| RelayDesign.StaleBatchPublishesParked | relay/service.py:197-210 | with two relays a stale batch publishes a row the other relay has parked, without any fault |
| RelayDesign.LateRecordParksPublished | relay/service.py:253-258 | with two relays a late `record_failure` parks a row the other has published in the meantime, without any fault, and also if `failed_at` were rechecked under the lock |
| RelayDesign.LostCommitReplyParksPublished | relay/service.py:253-258 | with one relay, a mark whose commit applied but raised is followed by `record_failure` parking the published row |
| RelayDesign.NeverBothIffSoloAndAtomic | tests/test_outbox_head_of_line.py:77-81 | with or without a recheck of `failed_at`, no reachable row is both parked and published if and only if one relay runs and a raised commit has always rolled back |
| RelayProcess.Relay.PendingEventIds | relay/service.py:110-139 | the ids are eligible, oldest first, at most a batch, and no eligible row is passed over for a younger one |
| RelayProcess.Relay.Claim | relay/service.py:190-210 | the row is ours, and locked, exactly when it exists, nobody holds its lock and it is unpublished |
| RelayProcess.Relay.PublishAndMark | relay/service.py:212-229 | the row's own event is sent as often as SNS took it, be that none, once or more; the row is marked exactly if the commit was applied, raised or not; the lock is released either way; and the steps are a run of the protocol |
| RelayProcess.Relay.RelayOne | relay/service.py:167-229 | true, false or raising, with the exact new table, locks and messages for each, a lookup that raises and an applied commit that raises included |
| RelayProcess.Relay.RecordFailureOf | relay/service.py:70-107 | a committed recording, raised or not, bumps the counter and parks the row for a permanent error or at the limit; an uncommitted one changes nothing |
| RelayProcess.Relay.RelayBatch | relay/service.py:232-277 | the poll works through an answer of the query as `RunBatch` specifies, returns the number published and seen, and raises exactly when the read or a recording failed; SNS gets the messages of the rows tried, in that order, and no others, row by row as many as the protocol's account grows by; all its locks are released |
| RelayProcess.TruthfulPollSendsOnce | relay/service.py:246-253 | where SNS answers truthfully and takes nothing twice, those are one message for each row of the batch it accepted and none for any other |
| RelayProcess.Relay.PollLoop | relay/main.py:74-92 | every poll is made and reported, whatever the earlier ones raised, each on the table the one before and the arrivals left; over all of them SNS gets exactly the messages the protocol accounts for |
| RelayProcess.PolledTracks | relay/main.py:74-92 | alone and with a healthy database the loop is a run of full poll cycles, orders arriving between them |
| RelayProcess.Relay.DrainOutbox | relay/main.py:74-92 | from wherever earlier runs left the table, after ceil(N / batch size) + N times the limit polls of the real loop nothing is left that is neither published nor parked |
| RelayProcess.Relay.TryRow | relay/main.py:74-92 | while orders keep arriving, a waiting row with k rows ahead is published or has failed once more after k times the limit plus one polls of the real loop |
| Consumers.QueueAlways | shared/consumer.py:134-150 | over any interleaving of workers: delivery counts stay within the redrive limit, each delivery is handled at most once, unparsable copies are never handled, and whatever is deleted or about to be is recorded |
| Consumers.CopyPersists | bootstrap/main.py:76-99 | no step loses a copy or changes its body; deleted and expired are final, a dead letter leaves its DLQ only by age, and a copy enters the DLQ only after all its deliveries |
| Consumers.BodyForever | shared/consumer.py:57-68 | in every continuation a copy is still there in one of its five places, its body unchanged |
| Consumers.RedriveBounds | shared/consumer.py:57-68 | each delivery is handled at most once, handler calls <= deliveries <= maxReceiveCount, a dead letter had exactly that many, and an unparsable body is never handled and never deleted |
| Consumers.DeletedMeansRecorded | shared/consumer.py:73-80 | whatever bodies are on the queue, a deleted message had all that its consumer's handler reads, and its order's effect, or claim, is recorded |
| Consumers.RecordedStays | billing/service.py:36-42 | once an order is recorded at a consumer, no step takes that back |
| Consumers.DeadLetterWithoutHandling | shared/consumer.py:134-139 | any message can reach the DLQ without one handler call, in a run in which workers do nothing but put it down unhandled, as at a shutdown mid-batch |
| Consumers.StoreStep | billing/service.py:23-54 | one step adds at most one row, with the event's id, customer, and amount or item and tracking number, for an order that had none, and never touches a row already there |
| Consumers.OnlyReturningDeletes | shared/consumer.py:70-80 | a delivery can be deleted only after a handler that returned; a refusal, a lost reply, a send that raised or a death puts it down |
| Consumers.AnythingCanGoWrong | shared/consumer.py:134-150 | nor here: messages reappear and age, workers put down or die over what they hold, deletes fail and keys expire in any state in which they can |
| Consumers.AnyWriteCanFail | notifications/service.py:84-122 | and in any handler a write may be refused or applied and raise, a send raise whether or not it went out, and a release fail |
| ConsumerProcess.Worker.Receive | shared/consumer.py:35-50 | exactly the offered messages are received: those with deliveries to spare are in the batch, once each, hidden and counted; the others are dead-lettered; nothing else moves |
| ConsumerProcess.Worker.HandleInsert | shipping/service.py:20-56 | the handler raises exactly when the database does, never for a duplicate, which changes nothing; otherwise the order gets its row, field by field, also when the commit's reply is lost |
| ConsumerProcess.Worker.HandleNotify | notifications/service.py:62-122 | the first delivery is mailed once and claimed for a TTL; a duplicate mails nothing, changes nothing and returns; a send that raised gives the claim back unless that fails; and each refusal and lost reply in turn |
| ConsumerProcess.Worker.HandleOne | shared/consumer.py:53-80 | for any body: poison is left, a handler that cannot use it or fails leaves it, a readable message is deleted if every call is answered, a duplicate changes neither store nor mail, and outcome, store and mail are those of `Serve` |
| ConsumerProcess.GoodDay | shared/consumer.py:134-150 | if every call is answered, every readable message of a batch, first or duplicate, is handled and deleted |
| ConsumerProcess.GoodPoll | shared/consumer.py:113-150 | and a poll offered such messages leaves none with deliveries to spare on the queue |
| ConsumerProcess.Worker.ServeBatch | shared/consumer.py:134-150 | for any failures and any shutdown point the messages removed are exactly those before the stop handled cleanly whose delete went through, each recorded; every other message stays where it was |
| ConsumerProcess.Worker.PollOnce | shared/consumer.py:113-150 | a receive and the handling of its batch, each handler taking its time, over the whole queue, the store and the mail: a message not offered does not move; one that was is removed if its handling and delete went through before the stop, and otherwise hidden, or dead-lettered if its deliveries were used up |
| ConsumerProcess.Worker.Quarantine | shared/consumer.py:57-68 | an unparsable message offered once more than it can be delivered, in time, is in its DLQ with its body unchanged, never handled; nothing is recorded and no other message moves |
| Notify.EmailsAtMost | notifications/service.py:84-122 | over any interleaving, the emails sent for an order are at most one plus the expiries of its key and its sends that went out yet raised, each counted over the run |
| Notify.LossAlways | notifications/service.py:84-122 | with one worker, wherever a key is set, a handler has returned or a message is deleted, an email went out, a fault happened, or the claiming handler is still at work |
| Notify.OverrunLoses | notifications/service.py:107-122 | a run of two workers, without any fault, that deletes a message and never sends its email: the handler overruns, the redelivery is called a duplicate, then the send fails and releases the key |
| Notify.LossNeedsFaultIffOneWorker | notifications/service.py:62-122 | a deleted message without an email implies a death in the gap, a failed release or a lost SET reply, in every run, if and only if one worker runs |
| Loss.NotifiesIffNoAccident | notifications/service.py:27-28 | with one worker, for every choice of those three accidents: every deleted message was notified in all runs that contain no others, if and only if none is allowed |
| Expiry.TimeAlways | notifications/service.py:84-86 | with one worker and truthful sends, emails for one order are claimed at least a TTL apart, each by a delivery of its own, in every run |
| Expiry.EmailsPerWindow | shared/config.py:83-86 | no more than ceil(width / TTL) emails for an order in any window of time |
| Expiry.EmailsFromOneCopy | bootstrap/main.py:67-72 | with one worker and truthful sends, where no message is held longer than `hold` from receipt to claim, a message causes in all its life at most min(maxReceiveCount, ceil((retention + hold) / TTL)) emails |
| Expiry.OnceIfKeyOutlives | bootstrap/main.py:67-72 | at most one email per message if the TTL is at least the retention and the hold together |
| Expiry.TwiceIffTtlShorterThanLife | shared/config.py:171-175 | a message can cause two emails if and only if the TTL is shorter than the retention and the hold together, it may be delivered twice, and is retained at all |
| Expiry.TtlOfRetentionIsNotEnough | shared/config.py:171-175 | with a TTL equal to the retention one second of hold is enough for a second email, and without hold there is none |
| Expiry.ShippedValues | shared/config.py:83-86 | with 172800, 345600 and 5: at most two emails per message without hold, three with a hold of up to two days, five ever; and a run with two exists without any hold |
| Orders.Session.Commit | shared/db.py:52-60 | both staged rows become visible or neither does, and raising says nothing about which |
| Orders.Session.CreateOrder | order/service.py:36-73 | nothing is visible before the commit; on success the staged rows are, field by field, the request's order and its outbox row |
| Orders.Session.PostOrder | order/routes.py:28-61 | 201 with its id exactly for an order known to be saved, 422 for a refused insert, 503 for the rest; in the tables both rows, field by field, or nothing; and a clean session, for every failure at either insert, flush or commit |
| Orders.RetrySaves | order/routes.py:44-58 | a client that asks again until it is told 201, as an error that says nothing was saved invites, has saved one order and one more for each commit that was applied and raised |
| Orders.RetrySavesTheWish | order/routes.py:44-58 | every one of those orders is what the client wished for |
| Orders.RepliesLostInARow | order/routes.py:44-58 | such a client can meet any number of lost replies before it is told 201 |
| Orders.PlaceKeepsPairs | order/service.py:52-57 | orders and outbox rows stay paired one to one, each row with its order's snapshot |
| System.UpstreamKept | relay/publisher.py:56-59 | every step of the whole system keeps orders, rows and snapshots paired, the relays' ledger balanced, and SNS's history equal to the ledger |
| System.DownstreamKept | shared/consumer.py:57-80 | every step but the loss of its own store keeps a consumer's queue matched to SNS's history and each of its rows equal to its order, whatever happens elsewhere |
| System.CopyIsOrder | order/models.py:75-81 | every readable message on any queue carries the snapshot and the event id of an order that was saved |
| EndToEnd.NoSilentLoss | relay/service.py:1-12 | in every reachable state, for each saved order and each consumer: the row is unpublished, or an undeleted message of it is on that consumer's side, or that consumer has recorded it |
| EndToEnd.FanOutExact | bootstrap/main.py:24-30 | each message SNS accepted is exactly one copy on every queue, carrying its row's event; a queue holds nothing else but strays; SNS accepted as many as the ledger says |
| EndToEnd.NothingIsWithheld | shared/config.py:83-86 | the whole system can take every step any of its parts can, the consumers under the shared redrive count, TTL and retention |
| EndToEnd.OrdersAndOutboxCorrespond | order/service.py:36-73 | in every reachable state orders and outbox rows correspond one to one and each row still carries the snapshot staged with its order |
| EndToEnd.StepRefines | billing/service.py:20-54 | every step of the system is saving an order, billing it once, shipping it once, or nothing |
| EndToEnd.Refinement | shipping/service.py:23-44 | every run, with crashes, republishes, redeliveries and any number of relays and workers, is a run of the simple system that bills and ships each saved order at most once from what was saved |
| EndToEnd.EveryRunIsSimple | billing/service.py:20-54 | every run from the empty system on is, step for step, a run of the simple system from nothing saved, and ends in the same saved, billed and shipped orders |
| EndToEnd.ChargedAsOrdered | billing/service.py:26-35 | in every reachable state a billed order was saved, with exactly that customer, amount and event; a shipped one with that customer, item and event |
| EndToEnd.NeverTwice | billing/service.py:36-42 | in the simple system a charge or shipment once made is never made again and never changes |
| Retry.RetryIsBilled | order/routes.py:44-58 | for every such dialogue of a client that wanted one order there is a run of the pipeline, healthy but for the lost commit replies, at whose end it is billed 1 + their number times, each time for that customer and amount |
| Retry.BilledAnyNumberOfTimes | order/routes.py:44-58 | there is no bound: for every n some run bills one wish n + 1 times |
| EndToEnd.ConsumersIndependent | tests/test_scenario_c_consumer_offline.py:34-52 | erasing everything that happened at one consumer, even the loss of its store, from any run leaves a run with identical orders, outbox, SNS history, and queues, DLQs and stores of the others |
| Bootstrap.RunsToGoal | bootstrap/main.py:195-210 | from any topology, whatever attributes its queues have, a run in which every call is answered is not refused anywhere and ends at the goal: what it imposes on the script's own resources, and all else as it was |
| Bootstrap.GoalIsProvisioned | bootstrap/main.py:52-99 | at the goal, attribute by attribute: every queue and dead-letter queue has the configured timeout, wait and retention; every queue its grant, its filtered subscription and a redrive policy naming its own dead-letter queue and the configured count; what a dead-letter queue or a queue of others had besides is untouched |
| Bootstrap.RerunConverges | bootstrap/main.py:10-13 | from any topology: a run cut off at any call, applied or not, under these or other settings of the same resources, and then a full run, end exactly where the full run alone ends |
| Bootstrap.RerunnableIffBare | bootstrap/main.py:137-142 | a full run gets through after any earlier run under any settings if and only if queues are created bare; given their attributes, create_queue refuses the run after an edited timeout |
| Bootstrap.SoundAtEveryCut | bootstrap/main.py:202-210 | wherever the script is cut off, every subscribed queue has its grant and every redrive policy names a queue that exists, if that was so before |
| Bootstrap.Aws.EnsureQueue | bootstrap/main.py:134-155 | a queue that exists is never refused, whatever its attributes: it ends up with the configured timeout, wait and retention and, if asked for, the redrive policy, keeps its grant, and nothing else changes, and a second call would change nothing; only a missing dead-letter queue, or a call that fails, raises |
| Bootstrap.Aws.EnsureSubscription | bootstrap/main.py:158-192 | granted to the topic, subscribed once and filtered to OrderCreated, whether it was subscribed before or not, and nothing else changed; only a missing queue or topic, or a call that fails, raises |
| Bootstrap.Aws.Verify | bootstrap/main.py:212-249 | whatever happened before, the exit code is 0 if and only if every queue is subscribed and redrives to its own DLQ and the checks could be made; a check that cannot be made, or a missing queue, raises |
| Bootstrap.Aws.Bootstrap | bootstrap/main.py:195-255 | whatever fails, the calls made are a part of the script from its start; one that raises ends the script with an exception; 0 means the goal was reached and every queue is wired; and a run in which every call is answered returns 0 from any topology |
| Publisher.SnsPublisher.PublishRow | relay/publisher.py:73-102 | fails as not found exactly when the cached ARN is stale, forgetting it and sending nothing; otherwise sends the row's own event |
| Publisher.StaleOncePerRestart | relay/publisher.py:94-100 | however restarts and publishes interleave, each restart costs at most one failed publish |
| Publisher.StaleForEver | relay/publisher.py:19-23 | without forgetting, every publish after a restart fails |

## Left out

- EndToEnd.NoSilentLoss: a broker wipe is excluded by hypothesis, because a publish to a topic nobody is subscribed to is dropped. A message dropped by SQS at the end of its retention counts as undeleted.
- EndToEnd.EveryRunIsSimple: a message forged so that it parses and names an order nobody saved would be billed; the system's strays are unparsable. `Consumers.DeletedMeansRecorded` covers forged bodies at one consumer.
- RelayProcess.Relay.RelayBatch: other relays do not move while one relay's batch runs in this class; their interleaving is in `RelayProtocol`. A connection lost under the SNS call is a step there, not an outcome here.
- RelayProcess.Relay.RecordFailureOf: the text of `last_error` and the timestamps in `failed_at` and `published_at` are not modelled, only whether they are set. Waiting for another relay's row lock is modelled as a recording that does not go through.
- ConsumerProcess.Worker.PollOnce: the queue URL's cache and the error backoff around the receive are not modelled.
- ConsumerProcess.Worker.HandleOne: in a body that lacks what a handler reads, how far the handler gets before it raises is not modelled beyond its having written nothing.
- Publisher.SnsPublisher.PublishRow: SNS errors other than a stale topic are outcomes of an attempt in `Outbox`, not here.
- Orders.Session.PostOrder: an exception that is not the database's is not modelled.
- Bootstrap.Aws.Bootstrap: reading back ARNs and URLs between the calls is not modelled; a queue is its name. AWS's waiting time after a queue was deleted is not either.
- Wire.MessageOfAnOrder: the message attribute that repeats the event type beside the body, and the text of the email, are not modelled.
- HTTP routing, request validation, middleware and the inspection endpoints.
- The boto3, psycopg and redis clients, their timeouts and retries, beyond "several messages accepted in one call" and "applied but reported failed".
- JSON text and decimal printing, beyond being invertible.
- SQL planning, the partial index, and performance.
- Logging, correlation ids, configuration parsing, signal handlers and the Redis boot probe; a shutdown is a stop after any number of messages.
- Queue policies as access control, and routing by filter policy beyond the one event type.
- The delay between SNS accepting a message and its arrival on a queue, which is part of a copy waiting to be received; clocks that differ between consumers run separately.
- Wall-clock liveness: progress is stated in poll cycles and deliveries.
