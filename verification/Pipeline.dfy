/** The Kafka bridge together with the transaction processor it feeds: what the first assumes of the second
    (internal/maidenlanekafka/kafkabridge.go: ConsumerMessagesLoop, msgContext.Reply;
    internal/maidenlanetx/txnprocessor.go: OnMessage). */
module Pipeline {
  import opened Wrappers
  import K = KafkaBridge
  import T = TxnReplies

  /** The i-th message of the processor came from the i-th of these Kafka messages. */
  datatype State = State(kafka: K.System, world: T.World, origin: seq<K.Message>)

  datatype Event =
    | Deliver(msg: K.Message)
    | Work(step: T.Event)
    | Confirm(msg: K.Message)

  datatype Outcome = Running(state: State) | AnsweredTwice | Panicked | Disabled

  const INIT := State(K.INIT, T.INIT_WORLD, [])

  /** A message that is not in flight yet goes to the processor; a reply of the processor goes to the producer.
      (A message whose headers do not parse is answered at once, like one that the processor rejects.) */
  ghost function Step(c: T.Config, max: nat, s: State, e: Event): Outcome {
    match e
    case Deliver(m) =>
      (match K.Step(max, s.kafka, K.Consume(m))
       case Running(kafka) =>
         if m in s.kafka.bridge.inFlight then Running(s)
         else Running(State(kafka, T.Step(c, s.world, T.Receive), s.origin + [m]))
       case Panicked => Panicked
       case Disabled => Disabled)
    case Work(step) =>
      if step.Receive? || !T.Enabled(c, s.world, step) || step.i >= |s.origin| then Disabled
      else if !T.SendsReply(step) then Running(s.(world := T.Step(c, s.world, step)))
      else
        (match K.Step(max, s.kafka, K.Reply(s.origin[step.i]))
         case Running(kafka) => Running(State(kafka, T.Step(c, s.world, step), s.origin))
         case _ => AnsweredTwice)
    case Confirm(m) =>
      (match K.Step(max, s.kafka, K.Confirmation(m))
       case Running(kafka) => Running(s.(kafka := kafka))
       case Panicked => Panicked
       case Disabled => Disabled)
  }

  ghost function Run(c: T.Config, max: nat, s: State, events: seq<Event>): Outcome
    decreases |events|
  {
    if events == [] then Running(s)
    else match Step(c, max, s, events[0])
      case Running(s') => Run(c, max, s', events[1..])
      case stop => stop
  }

  // ---------- Every owed reply is a message that was not answered ----------

  function Unanswered(origin: seq<K.Message>, msgs: seq<T.Message>): multiset<K.Message>
    requires |origin| == |msgs|
  {
    if origin == [] then multiset{}
    else
      var last := |origin| - 1;
      Unanswered(origin[..last], msgs[..last]) + if msgs[last].replies == 0 then multiset{origin[last]} else multiset{}
  }

  lemma {:induction false} UnansweredAfterReply(origin: seq<K.Message>, msgs: seq<T.Message>, i: nat, m: T.Message)
    requires |origin| == |msgs| && i < |msgs| && msgs[i].replies == 0 && m.replies > 0
    ensures Unanswered(origin, msgs) == Unanswered(origin, msgs[i := m]) + multiset{origin[i]}
  {
    var last := |origin| - 1;
    var msgs' := msgs[i := m];
    if i < last {
      UnansweredAfterReply(origin[..last], msgs[..last], i, m);
      assert msgs'[..last] == msgs[..last][i := m];
    } else {
      assert msgs'[..last] == msgs[..last];
    }
  }

  lemma {:induction false} UnansweredIgnoresPhase(origin: seq<K.Message>, msgs: seq<T.Message>, i: nat, m: T.Message)
    requires |origin| == |msgs| && i < |msgs| && m.replies == msgs[i].replies
    ensures Unanswered(origin, msgs[i := m]) == Unanswered(origin, msgs)
  {
    var last := |origin| - 1;
    var msgs' := msgs[i := m];
    if i < last {
      UnansweredIgnoresPhase(origin[..last], msgs[..last], i, m);
      assert msgs'[..last] == msgs[..last][i := m];
    } else {
      assert msgs'[..last] == msgs[..last];
    }
  }

  lemma {:induction false} UnansweredOfNone(origin: seq<K.Message>, msgs: seq<T.Message>)
    requires |origin| == |msgs| && forall i :: 0 <= i < |msgs| ==> msgs[i].replies > 0
    ensures Unanswered(origin, msgs) == multiset{}
  {
    if origin != [] {
      UnansweredOfNone(origin[..|origin|-1], msgs[..|origin|-1]);
    }
  }

  ghost predicate Inv(c: T.Config, max: nat, s: State) {
    && K.Inv(max, s.kafka)
    && T.Inv(c, s.world)
    && |s.origin| == |s.world.msgs|
    && s.kafka.awaiting == Unanswered(s.origin, s.world.msgs)
  }

  lemma DeliverKeepsInv(c: T.Config, max: nat, s: State, m: K.Message)
    requires Inv(c, max, s)
    ensures var r := Step(c, max, s, Deliver(m));
            (r.Running? ==> Inv(c, max, r.state)) && (r.Running? || r.Disabled?)
  {
    K.StepKeepsInv(max, s.kafka, K.Consume(m));
    T.StepKeepsInv(c, s.world, T.Receive);
    var origin, msgs := s.origin + [m], s.world.msgs + [T.Message(T.Arrived, 0)];
    assert origin[..|s.origin|] == s.origin && msgs[..|s.origin|] == s.world.msgs;
  }

  /** The processor answers only messages that are owed a reply. */
  lemma WorkKeepsInv(c: T.Config, max: nat, s: State, step: T.Event)
    requires Inv(c, max, s)
    ensures var r := Step(c, max, s, Work(step));
            (r.Running? ==> Inv(c, max, r.state)) && (r.Running? || r.Disabled?)
  {
    if !step.Receive? && T.Enabled(c, s.world, step) {
      T.StepKeepsInv(c, s.world, step);
      var world := T.Step(c, s.world, step);
      if T.SendsReply(step) {
        UnansweredAfterReply(s.origin, s.world.msgs, step.i, world.msgs[step.i]);
        assert s.origin[step.i] in s.kafka.awaiting;
        K.StepKeepsInv(max, s.kafka, K.Reply(s.origin[step.i]));
      } else {
        UnansweredIgnoresPhase(s.origin, s.world.msgs, step.i, world.msgs[step.i]);
      }
    }
  }

  lemma ConfirmKeepsInv(c: T.Config, max: nat, s: State, m: K.Message)
    requires Inv(c, max, s)
    ensures var r := Step(c, max, s, Confirm(m));
            (r.Running? ==> Inv(c, max, r.state)) && (r.Running? || r.Disabled?)
  {
    K.StepKeepsInv(max, s.kafka, K.Confirmation(m));
  }

  lemma {:induction false} RunKeepsInv(c: T.Config, max: nat, s: State, events: seq<Event>)
    requires Inv(c, max, s)
    ensures var r := Run(c, max, s, events);
            (r.Running? ==> Inv(c, max, r.state)) && (r.Running? || r.Disabled?)
    decreases |events|
  {
    if events != [] {
      match events[0] {
        case Deliver(m) => DeliverKeepsInv(c, max, s, m);
        case Work(step) => WorkKeepsInv(c, max, s, step);
        case Confirm(m) => ConfirmKeepsInv(c, max, s, m);
      }
      var r := Step(c, max, s, events[0]);
      if r.Running? {
        RunKeepsInv(c, max, r.state, events[1..]);
      }
    }
  }

  lemma InitInv(c: T.Config, max: nat)
    ensures Inv(c, max, INIT)
  {
    assert K.Incomplete(K.INIT.bridge.inFlight) == {};
  }

  /** The bridge relies on one reply for each message, and the processor gives it: in no run of the two is a
      message answered twice, or a reply confirmed that the bridge does not know. */
  lemma BridgeAndProcessorAreSafe(c: T.Config, max: nat, events: seq<Event>)
    ensures Run(c, max, INIT, events).Running? || Run(c, max, INIT, events).Disabled?
    ensures Run(c, max, INIT, events).Running? ==>
              var s := Run(c, max, INIT, events).state;
              && |s.kafka.bridge.inFlight| <= max
              && |s.origin| == |s.world.msgs|
              && s.kafka.awaiting == Unanswered(s.origin, s.world.msgs)
  {
    InitInv(c, max);
    RunKeepsInv(c, max, INIT, events);
  }

  // ---------- The runs of the two parts ----------

  ghost function KafkaEvents(c: T.Config, max: nat, s: State, events: seq<Event>): seq<K.Event>
    decreases |events|
  {
    if events == [] || !Step(c, max, s, events[0]).Running? then []
    else
      (match events[0]
       case Deliver(m) => [K.Consume(m)]
       case Work(step) => if T.SendsReply(step) then [K.Reply(s.origin[step.i])] else []
       case Confirm(m) => [K.Confirmation(m)])
      + KafkaEvents(c, max, Step(c, max, s, events[0]).state, events[1..])
  }

  ghost function ProcessorEvents(c: T.Config, max: nat, s: State, events: seq<Event>): seq<T.Event>
    decreases |events|
  {
    if events == [] || !Step(c, max, s, events[0]).Running? then []
    else
      (match events[0]
       case Deliver(m) => if m in s.kafka.bridge.inFlight then [] else [T.Receive]
       case Work(step) => [step]
       case Confirm(_) => [])
      + ProcessorEvents(c, max, Step(c, max, s, events[0]).state, events[1..])
  }

  lemma {:induction false} KafkaPart(c: T.Config, max: nat, s: State, events: seq<Event>)
    requires Run(c, max, s, events).Running?
    ensures K.Run(max, s.kafka, KafkaEvents(c, max, s, events)) == K.Running(Run(c, max, s, events).state.kafka)
    decreases |events|
  {
    if events != [] {
      var s' := Step(c, max, s, events[0]).state;
      var rest := KafkaEvents(c, max, s', events[1..]);
      KafkaPart(c, max, s', events[1..]);
      match events[0]
      case Deliver(m) => K.RunHead(max, s.kafka, K.Consume(m), rest);
      case Confirm(m) => K.RunHead(max, s.kafka, K.Confirmation(m), rest);
      case Work(step) =>
        if T.SendsReply(step) {
          K.RunHead(max, s.kafka, K.Reply(s.origin[step.i]), rest);
        } else {
          assert [] + rest == rest;
        }
    }
  }

  lemma ProcessorHead(c: T.Config, w: T.World, e: T.Event, rest: seq<T.Event>)
    requires T.Enabled(c, w, e) && T.Run(c, T.Step(c, w, e), rest)
    ensures T.Run(c, w, [e] + rest) && T.After(c, w, [e] + rest) == T.After(c, T.Step(c, w, e), rest)
  {
    assert ([e] + rest)[1..] == rest;
  }

  lemma {:induction false} ProcessorPart(c: T.Config, max: nat, s: State, events: seq<Event>)
    requires Run(c, max, s, events).Running?
    ensures T.Run(c, s.world, ProcessorEvents(c, max, s, events))
    ensures T.After(c, s.world, ProcessorEvents(c, max, s, events)) == Run(c, max, s, events).state.world
    decreases |events|
  {
    if events != [] {
      var s' := Step(c, max, s, events[0]).state;
      var rest := ProcessorEvents(c, max, s', events[1..]);
      ProcessorPart(c, max, s', events[1..]);
      if events[0].Work? {
        ProcessorHead(c, s.world, events[0].step, rest);
      } else if events[0].Deliver? && events[0].msg !in s.kafka.bridge.inFlight {
        ProcessorHead(c, s.world, T.Receive, rest);
      } else {
        assert [] + rest == rest;
      }
    }
  }

  // ---------- Everything delivered is marked ----------

  /** Where Kafka delivers in order and every supplied nonce parses: once the goroutines have come to their end
      and the producer has confirmed their replies, nothing is in flight, and every partition is marked at its
      last delivery, however all the steps were interleaved. */
  lemma EverythingDeliveredIsMarked(c: T.Config, max: nat, events: seq<Event>, partition: int)
    requires Run(c, max, INIT, events).Running?
    requires K.RunInOrder(max, K.INIT, KafkaEvents(c, max, INIT, events))
    requires T.NoncesParse(ProcessorEvents(c, max, INIT, events))
    requires var s := Run(c, max, INIT, events).state; T.Exhausted(c, s.world) && s.kafka.sent == multiset{}
    ensures var s := Run(c, max, INIT, events).state;
            var msgs := K.OfPartition(s.kafka.delivered, partition);
            && s.kafka.bridge.inFlight == map[]
            && K.LastMark(s.kafka.bridge.marks, partition) == if msgs == [] then None else Some(msgs[|msgs| - 1])
  {
    InitInv(c, max);
    RunKeepsInv(c, max, INIT, events);
    KafkaPart(c, max, INIT, events);
    ProcessorPart(c, max, INIT, events);
    T.GoroutinesEndWithOneReplyEach(c, ProcessorEvents(c, max, INIT, events));
    var s := Run(c, max, INIT, events).state;
    UnansweredOfNone(s.origin, s.world.msgs);
    NothingOwedMeansNothingInFlight(max, s.kafka);
    K.CommitRefinesLongestConfirmedPrefix(max, KafkaEvents(c, max, INIT, events));
    assert K.IsLongestConfirmedPrefix(s.kafka, partition);
    NothingInFlightMeansAllConfirmed(s.kafka, partition);
  }

  lemma NothingInFlightMeansAllConfirmed(s: K.System, partition: int)
    requires K.IsLongestConfirmedPrefix(s, partition) && s.bridge.inFlight == map[]
    ensures var msgs := K.OfPartition(s.delivered, partition);
            K.ConfirmedPrefix(msgs, s.confirmed) == |msgs|
  {
    var msgs := K.OfPartition(s.delivered, partition);
    var n := K.ConfirmedPrefix(msgs, s.confirmed);
    if n < |msgs| {
      FirstOfRest(msgs, n);
    }
    K.OfPartitionMembers(s.delivered, partition);
  }

  lemma FirstOfRest(msgs: seq<K.Message>, n: nat)
    requires n < |msgs|
    ensures msgs[n] in msgs[n..] && msgs[n] in msgs
  {
    assert msgs[n..][0] == msgs[n];
  }

  lemma NothingOwedMeansNothingInFlight(max: nat, s: K.System)
    requires K.Inv(max, s) && s.awaiting == multiset{} && s.sent == multiset{}
    ensures s.bridge.inFlight == map[]
  {
    forall m | m in s.bridge.inFlight ensures exists q :: q in K.Incomplete(s.bridge.inFlight) {
      assert K.HeldBack(s.bridge.inFlight, m);
      var q :| q in s.bridge.inFlight && !s.bridge.inFlight[q];
      assert q in K.Incomplete(s.bridge.inFlight);
    }
    assert forall q :: q in K.Incomplete(s.bridge.inFlight) ==> q in multiset(K.Incomplete(s.bridge.inFlight));
    assert K.Incomplete(s.bridge.inFlight) == {};
  }
}
