// relay/publisher.py: the topic ARN is resolved once and cached, and dropped
// when SNS says the topic is gone.
module Publisher {
  import opened Base

  datatype Reply = Accepted | NotFound

  // `known`: the broker has the topic. `cached`: the relay holds its ARN.
  datatype Topic = Topic(known: bool, cached: bool)

  // A broker restart forgets every topic; a publish resolves, then sends.
  datatype Happening = Restart | Publish

  function Resolve(t: Topic): Topic { if t.cached then t else Topic(true, true) }

  function Next(t: Topic, h: Happening, forget: bool): (Topic, Option<Reply>) {
    match h
    case Restart => (t.(known := false), None)
    case Publish =>
      var r := Resolve(t);
      if r.known then (r, Some(Accepted)) else (r.(cached := !forget), Some(NotFound))
  }

  class SnsPublisher {
    var topic: Topic
    var sent: seq<Event>

    constructor ()
      ensures topic == Topic(false, false) && sent == []
    {
      topic, sent := Topic(false, false), [];
    }

    method TopicArn()
      modifies `topic
      ensures topic == Resolve(old(topic))
    {
      // create_topic creates the topic if it is absent.
      if !topic.cached { topic := Topic(true, true); }
    }

    method ForgetTopicArn()
      modifies `topic
      ensures topic == old(topic).(cached := false)
    {
      topic := topic.(cached := false);
    }

    // Raises NotFound, with nothing sent, exactly when the cached ARN is stale;
    // otherwise sends the row's own event, untouched.
    method PublishRow(id: EventId, row: Row) returns (reply: Reply)
      modifies `topic, `sent
      ensures (topic, Some(reply)) == Next(old(topic), Publish, true)
      ensures reply.NotFound? <==> old(topic).cached && !old(topic).known
      ensures sent == old(sent) + if reply.Accepted? then [BuildMessage(id, row)] else []
    {
      TopicArn();
      if !topic.known {
        ForgetTopicArn();
        return NotFound;
      }
      sent := sent + [BuildMessage(id, row)];
      return Accepted;
    }
  }

  function Failures(t: Topic, history: seq<Happening>, forget: bool): nat
    decreases |history|
  {
    if history == [] then 0
    else
      var (t', reply) := Next(t, history[0], forget);
      (if reply == Some(NotFound) then 1 else 0) + Failures(t', history[1..], forget)
  }

  function Restarts(history: seq<Happening>): nat {
    if history == [] then 0 else (if history[0].Restart? then 1 else 0) + Restarts(history[1..])
  }

  // However restarts and publishes interleave, each restart costs at most one
  // failed publish.
  lemma {:induction false} StaleOncePerRestart(t: Topic, history: seq<Happening>)
    ensures Failures(t, history, true) <= Restarts(history) + if t.cached && !t.known then 1 else 0
    decreases |history|
  {
    if history != [] { StaleOncePerRestart(Next(t, history[0], true).0, history[1..]); }
  }

  // Without forgetting, one restart after the first publish is the end: every
  // later publish fails.
  lemma {:induction false} StaleForEver(t: Topic, history: seq<Happening>)
    requires t.cached && !t.known && forall i :: 0 <= i < |history| ==> history[i].Publish?
    ensures Failures(t, history, false) == |history|
    decreases |history|
  {
    if history != [] { StaleForEver(Next(t, history[0], false).0, history[1..]); }
  }
}
