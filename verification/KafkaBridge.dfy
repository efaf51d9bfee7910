/** The offset-commit protocol of the Kafka bridge (internal/maidenlanekafka/kafkabridge.go).

    Messages of one input topic are consumed per partition, are answered in any order, and an offset is
    marked only once every message delivered before it in its partition has been answered.

    The first half defines the atomic steps as functions, the run of a whole bridge over them, and an
    independent specification: "the longest confirmed prefix". The class at the end is the bridge
    itself, whose loops are proved to compute those steps. */
module KafkaBridge {
  import opened Wrappers

  /** A consumed message. With one input topic, partition and offset are also its in-flight key. */
  datatype Message = Message(partition: int, offset: int)

  /** The in-flight map (with the `complete` flag of each context) and the calls made to MarkOffset. */
  datatype Bridge = Bridge(inFlight: map<Message, bool>, marks: seq<Message>)

  // ---------- Atomic steps ----------

  /** Some message at or below this one, in its partition, is still incomplete. */
  ghost predicate HeldBack(inFlight: map<Message, bool>, m: Message) {
    exists q :: q in inFlight && q.partition == m.partition && q.offset <= m.offset && !inFlight[q]
  }

  /** The in-flight messages of a partition that are complete, as is everything at or below them. */
  ghost function Ready(inFlight: map<Message, bool>, partition: int): set<Message> {
    set m {:trigger HeldBack(inFlight, m)} | m in inFlight && m.partition == partition && !HeldBack(inFlight, m)
  }

  ghost function Highest(s: set<Message>): (h: Message)
    requires s != {}
    ensures h in s && forall m :: m in s ==> m.offset <= h.offset
  {
    HighestExists(s);
    var h :| h in s && forall m :: m in s ==> m.offset <= h.offset;
    h
  }

  lemma HighestExists(s: set<Message>)
    requires s != {}
    ensures exists h :: h in s && forall m :: m in s ==> m.offset <= h.offset
  {
    var m :| m in s;
    if s != {m} {
      HighestExists(s - {m});
      var h :| h in s - {m} && forall o :: o in s - {m} ==> o.offset <= h.offset;
      var top := if m.offset <= h.offset then h else m;
      assert forall o :: o in s ==> o == m || o in s - {m};
      assert top in s;
    } else {
      assert m in s;
    }
  }

  /** The effect of a confirmed reply: flag it, then remove and mark what is now ready in its partition. */
  ghost function Complete(b: Bridge, msg: Message): Bridge
    requires msg in b.inFlight
  {
    var inFlight := b.inFlight[msg := true];
    var ready := Ready(inFlight, msg.partition);
    if ready == {} then b.(inFlight := inFlight)
    else Bridge(inFlight - ready, b.marks + [Highest(ready)])
  }

  // ---------- Runs ----------

  /** What happens to a bridge. A message that fails header parsing is consumed and replied to like any other. */
  datatype Event =
    | Consume(msg: Message)       // delivered by Kafka to the consumer loop
    | Reply(msg: Message)         // its context sends its one reply to the producer
    | Confirmation(msg: Message)  // the producer reports that reply as sent

  /** A bridge, the contexts that still owe a reply, the replies not yet confirmed, and the history. */
  datatype System = System(
    bridge: Bridge,
    awaiting: multiset<Message>,
    sent: multiset<Message>,
    delivered: seq<Message>,
    confirmed: set<Message>)

  datatype Outcome = Running(sys: System) | Panicked | Disabled

  const INIT := System(Bridge(map[], []), multiset{}, multiset{}, [], {})

  ghost function Step(maxInFlight: nat, s: System, e: Event): Outcome {
    match e
    case Consume(m) =>
      if |s.bridge.inFlight| >= maxInFlight then Disabled  // the loop waits on the condition variable
      else if m in s.bridge.inFlight then Running(s)       // a redelivery, ignored
      else Running(s.(bridge := s.bridge.(inFlight := s.bridge.inFlight[m := false]),
                      awaiting := s.awaiting + multiset{m},
                      delivered := s.delivered + [m]))
    case Reply(m) =>
      if m !in s.awaiting then Disabled
      else Running(s.(awaiting := s.awaiting - multiset{m}, sent := s.sent + multiset{m}))
    case Confirmation(m) =>
      if m !in s.sent then Disabled
      else if m !in s.bridge.inFlight then Panicked
      else Running(s.(bridge := Complete(s.bridge, m),
                      sent := s.sent - multiset{m},
                      confirmed := s.confirmed + {m}))
  }

  ghost function Run(maxInFlight: nat, s: System, events: seq<Event>): Outcome
    decreases |events|
  {
    if events == [] then Running(s)
    else match Step(maxInFlight, s, events[0])
      case Running(s') => Run(maxInFlight, s', events[1..])
      case stop => stop
  }

  // ---------- Safety of every run, in any delivery order and with any redelivery ----------

  ghost function Incomplete(inFlight: map<Message, bool>): set<Message> {
    set m | m in inFlight && !inFlight[m]
  }

  ghost predicate Inv(maxInFlight: nat, s: System) {
    && |s.bridge.inFlight| <= maxInFlight
    && s.awaiting + s.sent == multiset(Incomplete(s.bridge.inFlight))
    && NothingReady(s.bridge.inFlight)
  }

  ghost predicate NothingReady(inFlight: map<Message, bool>) {
    forall m {:trigger HeldBack(inFlight, m)} :: m in inFlight ==> HeldBack(inFlight, m)
  }

  lemma {:induction false} CompleteLeavesNothingReady(b: Bridge, msg: Message)
    requires msg in b.inFlight && NothingReady(b.inFlight)
    ensures NothingReady(Complete(b, msg).inFlight)
  {
    var inFlight := b.inFlight[msg := true];
    var after := Complete(b, msg).inFlight;
    forall m | m in after ensures HeldBack(after, m) {
      assert HeldBack(b.inFlight, m);
      assert m.partition == msg.partition ==> m !in Ready(inFlight, msg.partition);
      assert HeldBack(inFlight, m);
      var q :| q in inFlight && q.partition == m.partition && q.offset <= m.offset && !inFlight[q];
      assert HeldBack(inFlight, q);
    }
  }

  lemma {:induction false} CompleteKeepsIncomplete(b: Bridge, msg: Message)
    requires msg in b.inFlight
    ensures Incomplete(Complete(b, msg).inFlight) == Incomplete(b.inFlight) - {msg}
    ensures |Complete(b, msg).inFlight| <= |b.inFlight|
  {
    var inFlight := b.inFlight[msg := true];
    var after := Complete(b, msg).inFlight;
    forall m | m in inFlight && !inFlight[m] ensures m in after {
      assert HeldBack(inFlight, m);
    }
    assert inFlight.Keys == b.inFlight.Keys;
    SubsetSize(after.Keys, inFlight.Keys);
  }

  lemma SubsetSize<T>(a: set<T>, b: set<T>)
    requires a <= b
    ensures |a| <= |b|
  {
    if a != {} {
      var x :| x in a;
      SubsetSize(a - {x}, b - {x});
    }
  }

  lemma ConsumeLeavesNothingReady(inFlight: map<Message, bool>, m: Message)
    requires NothingReady(inFlight) && m !in inFlight
    ensures NothingReady(inFlight[m := false])
    ensures Incomplete(inFlight[m := false]) == Incomplete(inFlight) + {m}
  {
    var after := inFlight[m := false];
    forall o | o in after ensures HeldBack(after, o) {
      if o == m {
        assert m in after && !after[m];
      } else {
        assert HeldBack(inFlight, o);
        var q :| q in inFlight && q.partition == o.partition && q.offset <= o.offset && !inFlight[q];
        assert q in after && !after[q];
      }
    }
  }

  lemma ConsumptionKeepsInv(maxInFlight: nat, s: System, m: Message)
    requires Inv(maxInFlight, s) && m !in s.bridge.inFlight && |s.bridge.inFlight| < maxInFlight
    ensures Inv(maxInFlight, Step(maxInFlight, s, Consume(m)).sys)
  {
    var before, after := s.bridge.inFlight, s.bridge.inFlight[m := false];
    ConsumeLeavesNothingReady(before, m);
    assert after.Keys == before.Keys + {m};
    assert multiset(Incomplete(before) + {m}) == multiset(Incomplete(before)) + multiset{m};
    assert (s.awaiting + multiset{m}) + s.sent == (s.awaiting + s.sent) + multiset{m};
  }

  lemma ConfirmationKeepsInv(maxInFlight: nat, s: System, m: Message)
    requires Inv(maxInFlight, s) && m in s.sent
    ensures m in s.bridge.inFlight
    ensures Inv(maxInFlight, Step(maxInFlight, s, Confirmation(m)).sys)
  {
    var b := s.bridge;
    assert m in s.awaiting + s.sent;
    assert m in Incomplete(b.inFlight);
    CompleteLeavesNothingReady(b, m);
    CompleteKeepsIncomplete(b, m);
    assert s.awaiting + (s.sent - multiset{m}) == multiset(Incomplete(b.inFlight)) - multiset{m};
  }

  lemma StepKeepsInv(maxInFlight: nat, s: System, e: Event)
    requires Inv(maxInFlight, s)
    ensures !Step(maxInFlight, s, e).Panicked?
    ensures Step(maxInFlight, s, e).Running? ==> Inv(maxInFlight, Step(maxInFlight, s, e).sys)
  {
    match e
    case Consume(m) =>
      if m !in s.bridge.inFlight && |s.bridge.inFlight| < maxInFlight {
        ConsumptionKeepsInv(maxInFlight, s, m);
      }
    case Reply(m) =>
    case Confirmation(m) =>
      if m in s.sent {
        ConfirmationKeepsInv(maxInFlight, s, m);
      }
  }

  lemma {:induction false} RunKeepsInv(maxInFlight: nat, s: System, events: seq<Event>)
    requires Inv(maxInFlight, s)
    ensures !Run(maxInFlight, s, events).Panicked?
    ensures Run(maxInFlight, s, events).Running? ==> Inv(maxInFlight, Run(maxInFlight, s, events).sys)
    decreases |events|
  {
    if events != [] {
      StepKeepsInv(maxInFlight, s, events[0]);
      if Step(maxInFlight, s, events[0]).Running? {
        RunKeepsInv(maxInFlight, Step(maxInFlight, s, events[0]).sys, events[1..]);
      }
    }
  }

  lemma InitInv(maxInFlight: nat)
    ensures Inv(maxInFlight, INIT)
  {
    assert Incomplete(INIT.bridge.inFlight) == {};
  }

  /** The "confirmation for unknown message" panic is unreachable, the map never outgrows its limit, each
      in-flight message that is not complete owes exactly one reply, and a complete one is always held
      back by an incomplete one below it. */
  lemma EveryRunIsSafe(maxInFlight: nat, events: seq<Event>)
    ensures Run(maxInFlight, INIT, events) != Panicked
    ensures Run(maxInFlight, INIT, events).Running? ==>
              var s := Run(maxInFlight, INIT, events).sys;
              && |s.bridge.inFlight| <= maxInFlight
              && s.awaiting + s.sent == multiset(Incomplete(s.bridge.inFlight))
              && forall m :: m in s.bridge.inFlight && s.bridge.inFlight[m] ==>
                   exists q :: q in Incomplete(s.bridge.inFlight) && q.partition == m.partition && q.offset < m.offset
  {
    InitInv(maxInFlight);
    RunKeepsInv(maxInFlight, INIT, events);
    if Run(maxInFlight, INIT, events).Running? {
      var s := Run(maxInFlight, INIT, events).sys;
      forall m | m in s.bridge.inFlight && s.bridge.inFlight[m]
        ensures exists q :: q in Incomplete(s.bridge.inFlight) && q.partition == m.partition && q.offset < m.offset
      {
        assert HeldBack(s.bridge.inFlight, m);
        var q :| q in s.bridge.inFlight && q.partition == m.partition && q.offset <= m.offset && !s.bridge.inFlight[q];
        assert q in Incomplete(s.bridge.inFlight) && q != m;
        assert q.offset < m.offset;
      }
    }
  }

  /** A bridge never wedges: whatever has happened, replies and their confirmations alone can empty it. */
  lemma {:induction false} CanAlwaysDrain(maxInFlight: nat, s: System) returns (events: seq<Event>)
    requires Inv(maxInFlight, s)
    ensures forall e :: e in events ==> !e.Consume?
    ensures Run(maxInFlight, s, events).Running? && Run(maxInFlight, s, events).sys.bridge.inFlight == map[]
    decreases 2 * |s.awaiting| + |s.sent|
  {
    var e;
    if m :| m in s.awaiting {
      e := Reply(m);
      assert |s.awaiting - multiset{m}| == |s.awaiting| - 1;
    } else if m :| m in s.sent {
      e := Confirmation(m);
      assert m in s.awaiting + s.sent;
      assert m in Incomplete(s.bridge.inFlight);
      assert |s.sent - multiset{m}| == |s.sent| - 1;
    } else {
      events := [];
      assert s.awaiting + s.sent == multiset{};
      assert Incomplete(s.bridge.inFlight) == {} by {
        assert multiset(Incomplete(s.bridge.inFlight)) == multiset{};
        forall m ensures m !in Incomplete(s.bridge.inFlight) {
          assert m in Incomplete(s.bridge.inFlight) ==> m in multiset(Incomplete(s.bridge.inFlight));
        }
      }
      forall m | m in s.bridge.inFlight ensures exists q :: q in Incomplete(s.bridge.inFlight) {
        assert HeldBack(s.bridge.inFlight, m);
        var q :| q in s.bridge.inFlight && !s.bridge.inFlight[q];
        assert q in Incomplete(s.bridge.inFlight);
      }
      assert s.bridge.inFlight == map[];
      return;
    }
    StepKeepsInv(maxInFlight, s, e);
    var rest := CanAlwaysDrain(maxInFlight, Step(maxInFlight, s, e).sys);
    events := [e] + rest;
    assert events[1..] == rest;
  }

  // ---------- Refinement of "the longest confirmed prefix" ----------

  function OfPartition(msgs: seq<Message>, partition: int): seq<Message> {
    if msgs == [] then []
    else OfPartition(msgs[..|msgs|-1], partition)
         + if msgs[|msgs|-1].partition == partition then [msgs[|msgs|-1]] else []
  }

  function ConfirmedPrefix(msgs: seq<Message>, confirmed: set<Message>): (n: nat)
    ensures n <= |msgs|
    ensures forall i :: 0 <= i < n ==> msgs[i] in confirmed
    ensures n < |msgs| ==> msgs[n] !in confirmed
  {
    if msgs == [] || msgs[0] !in confirmed then 0 else 1 + ConfirmedPrefix(msgs[1..], confirmed)
  }

  function LastMark(marks: seq<Message>, partition: int): Option<Message> {
    if marks == [] then None
    else if marks[|marks|-1].partition == partition then Some(marks[|marks|-1])
    else LastMark(marks[..|marks|-1], partition)
  }

  /** Partition by partition: the mark is the last of the longest confirmed prefix of what was delivered,
      and what is in flight is exactly the rest, complete where confirmed. */
  ghost predicate IsLongestConfirmedPrefix(s: System, partition: int) {
    var msgs := OfPartition(s.delivered, partition);
    var n := ConfirmedPrefix(msgs, s.confirmed);
    && LastMark(s.bridge.marks, partition) == (if n == 0 then None else Some(msgs[n - 1]))
    && (forall m: Message :: m.partition == partition ==> (m in s.bridge.inFlight <==> m in msgs[n..]))
    && (forall m :: m in s.bridge.inFlight && m.partition == partition ==>
          (s.bridge.inFlight[m] <==> m in s.confirmed))
  }

  ghost predicate Refined(s: System) {
    forall p :: IsLongestConfirmedPrefix(s, p)
  }

  ghost predicate Increasing(msgs: seq<Message>) {
    forall i, j :: 0 <= i < j < |msgs| && msgs[i].partition == msgs[j].partition ==> msgs[i].offset < msgs[j].offset
  }

  /** What Kafka promises here: a message that is not in flight is new, and the highest of its partition. */
  ghost predicate InOrder(s: System, e: Event) {
    e.Consume? && e.msg !in s.bridge.inFlight ==>
      forall d :: d in s.delivered && d.partition == e.msg.partition ==> d.offset < e.msg.offset
  }

  ghost predicate RunInOrder(maxInFlight: nat, s: System, events: seq<Event>)
    decreases |events|
  {
    events != [] ==>
      && InOrder(s, events[0])
      && (Step(maxInFlight, s, events[0]).Running? ==>
            RunInOrder(maxInFlight, Step(maxInFlight, s, events[0]).sys, events[1..]))
  }

  // The proof works with an order-free form of the same thing, over the sets of delivered and confirmed
  // messages: a message is open while some message at or below it in its partition is unconfirmed.

  ghost predicate Open(delivered: set<Message>, confirmed: set<Message>, m: Message) {
    exists q :: q in delivered && q.partition == m.partition && q.offset <= m.offset && q !in confirmed
  }

  ghost predicate HoldsOpen(inFlight: map<Message, bool>, delivered: set<Message>, confirmed: set<Message>) {
    && confirmed <= delivered
    && (forall m {:trigger m in inFlight} ::
          m in inFlight <==> m in delivered && Open(delivered, confirmed, m))
    && forall m {:trigger inFlight[m]} :: m in inFlight ==> (inFlight[m] <==> m in confirmed)
  }

  ghost predicate IsTopClosed(mark: Option<Message>, delivered: set<Message>, confirmed: set<Message>, partition: int) {
    && (mark.Some? ==>
          mark.value in delivered && mark.value.partition == partition && !Open(delivered, confirmed, mark.value))
    && forall m {:trigger Open(delivered, confirmed, m)} ::
         m in delivered && m.partition == partition && !Open(delivered, confirmed, m) ==>
           mark.Some? && m.offset <= mark.value.offset
  }

  ghost function Members(msgs: seq<Message>): set<Message> {
    set m | m in msgs
  }

  ghost predicate Tracks(s: System) {
    && HoldsOpen(s.bridge.inFlight, Members(s.delivered), s.confirmed)
    && forall p {:trigger LastMark(s.bridge.marks, p)} ::
         IsTopClosed(LastMark(s.bridge.marks, p), Members(s.delivered), s.confirmed, p)
  }

  lemma {:induction false} OfPartitionHasMembers(msgs: seq<Message>, partition: int)
    ensures forall m :: m in OfPartition(msgs, partition) <==> m in msgs && m.partition == partition
  {
    if msgs != [] {
      var front, last := msgs[..|msgs|-1], msgs[|msgs|-1];
      assert msgs == front + [last];
      OfPartitionHasMembers(front, partition);
    }
  }

  lemma {:induction false} OfPartitionIsSorted(msgs: seq<Message>, partition: int)
    requires Increasing(msgs)
    ensures SortedByOffset(OfPartition(msgs, partition))
  {
    if msgs != [] {
      var front, last := msgs[..|msgs|-1], msgs[|msgs|-1];
      OfPartitionIsSorted(front, partition);
      OfPartitionHasMembers(front, partition);
      forall m | m in front && m.partition == last.partition ensures m.offset < last.offset {
        var i :| 0 <= i < |front| && front[i] == m;
        assert msgs[i] == m;
      }
    }
  }

  lemma OfPartitionMembers(msgs: seq<Message>, partition: int)
    ensures forall m :: m in OfPartition(msgs, partition) <==> m in msgs && m.partition == partition
    ensures Increasing(msgs) ==> SortedByOffset(OfPartition(msgs, partition))
  {
    OfPartitionHasMembers(msgs, partition);
    if Increasing(msgs) {
      OfPartitionIsSorted(msgs, partition);
    }
  }

  lemma {:induction false} PrefixIsUnique(msgs: seq<Message>, confirmed: set<Message>, n: nat)
    requires n <= |msgs| && (forall i :: 0 <= i < n ==> msgs[i] in confirmed)
    requires n < |msgs| ==> msgs[n] !in confirmed
    ensures ConfirmedPrefix(msgs, confirmed) == n
  {
    var k := ConfirmedPrefix(msgs, confirmed);
    assert forall i :: 0 <= i < n ==> msgs[i] in confirmed;
    assert forall i :: 0 <= i < k ==> msgs[i] in confirmed;
  }

  lemma {:induction false} LastMarkIsGreatest(marks: seq<Message>, partition: int)
    requires Increasing(marks)
    ensures forall m :: m in marks && m.partition == partition ==>
              LastMark(marks, partition).Some? && m.offset <= LastMark(marks, partition).value.offset
  {
    if marks != [] && marks[|marks|-1].partition != partition {
      LastMarkIsGreatest(marks[..|marks|-1], partition);
    }
  }

  lemma ConsumeHoldsOpen(inFlight: map<Message, bool>, delivered: set<Message>, confirmed: set<Message>, m: Message)
    requires HoldsOpen(inFlight, delivered, confirmed)
    requires forall d :: d in delivered && d.partition == m.partition ==> d.offset < m.offset
    ensures HoldsOpen(inFlight[m := false], delivered + {m}, confirmed)
    ensures forall mark, p :: IsTopClosed(mark, delivered, confirmed, p) ==>
              IsTopClosed(mark, delivered + {m}, confirmed, p)
  {
    assert m !in delivered;
    assert Open(delivered + {m}, confirmed, m);
    forall q {:trigger Open(delivered + {m}, confirmed, q)} | q in delivered
      ensures Open(delivered + {m}, confirmed, q) <==> Open(delivered, confirmed, q) {}
  }

  /** A confirmation closes exactly the ready messages. */
  lemma ConfirmationCloses(inFlight: map<Message, bool>, delivered: set<Message>, confirmed: set<Message>, m: Message)
    requires HoldsOpen(inFlight, delivered, confirmed) && m in inFlight
    ensures forall q: Message {:trigger Open(delivered, confirmed + {m}, q)}
                              {:trigger q in Ready(inFlight[m := true], m.partition)} ::
              q in Ready(inFlight[m := true], m.partition) <==>
              && q in delivered && q.partition == m.partition
              && Open(delivered, confirmed, q) && !Open(delivered, confirmed + {m}, q)
    ensures forall q: Message {:trigger Open(delivered, confirmed + {m}, q)} ::
              Open(delivered, confirmed + {m}, q) ==> Open(delivered, confirmed, q)
    ensures forall q: Message {:trigger Open(delivered, confirmed + {m}, q)} :: q.partition != m.partition ==>
              (Open(delivered, confirmed + {m}, q) <==> Open(delivered, confirmed, q))
  {
    var after := inFlight[m := true];
    forall q: Message {:trigger HeldBack(after, q)} {:trigger Open(delivered, confirmed + {m}, q)} | q in inFlight
      ensures HeldBack(after, q) <==> Open(delivered, confirmed + {m}, q)
    {
      if Open(delivered, confirmed + {m}, q) {
        var r :| r in delivered && r.partition == q.partition && r.offset <= q.offset && r !in confirmed + {m};
        assert Open(delivered, confirmed, r);
        assert r in after;
      }
    }
  }

  /** The highest ready message is above everything closed before it. */
  lemma ReadyIsTopClosed(inFlight: map<Message, bool>, delivered: set<Message>, confirmed: set<Message>, m: Message,
      mark: Option<Message>)
    requires HoldsOpen(inFlight, delivered, confirmed) && m in inFlight
    requires IsTopClosed(mark, delivered, confirmed, m.partition)
    requires Ready(inFlight[m := true], m.partition) != {}
    ensures var h := Highest(Ready(inFlight[m := true], m.partition));
            && IsTopClosed(Some(h), delivered, confirmed + {m}, m.partition)
            && h.partition == m.partition
            && (mark.Some? ==> mark.value.offset < h.offset)
  {
    ConfirmationCloses(inFlight, delivered, confirmed, m);
    var h := Highest(Ready(inFlight[m := true], m.partition));
    var q :| q in delivered && q.partition == h.partition && q.offset <= h.offset && q !in confirmed;
    forall c {:trigger Open(delivered, confirmed, c)}
      | c in delivered && c.partition == m.partition && !Open(delivered, confirmed, c)
      ensures c.offset < h.offset
    {
      assert !(q.offset <= c.offset);
    }
  }

  lemma ConfirmationHoldsOpen(b: Bridge, delivered: set<Message>, confirmed: set<Message>, m: Message)
    requires HoldsOpen(b.inFlight, delivered, confirmed) && m in b.inFlight
    ensures HoldsOpen(Complete(b, m).inFlight, delivered, confirmed + {m})
  {
    var after := b.inFlight[m := true];
    ConfirmationCloses(b.inFlight, delivered, confirmed, m);
    assert Complete(b, m).inFlight == after - Ready(after, m.partition);
  }

  lemma LastMarkOfAppend(marks: seq<Message>, m: Message, partition: int)
    ensures LastMark(marks + [m], partition) ==
            if m.partition == partition then Some(m) else LastMark(marks, partition)
  {
    assert (marks + [m])[..|marks|] == marks;
  }

  lemma {:induction false} ConfirmationMovesMark(b: Bridge, delivered: set<Message>, confirmed: set<Message>,
      m: Message, partition: int)
    requires HoldsOpen(b.inFlight, delivered, confirmed) && m in b.inFlight
    requires IsTopClosed(LastMark(b.marks, partition), delivered, confirmed, partition)
    ensures IsTopClosed(LastMark(Complete(b, m).marks, partition), delivered, confirmed + {m}, partition)
  {
    var ready := Ready(b.inFlight[m := true], m.partition);
    ConfirmationCloses(b.inFlight, delivered, confirmed, m);
    if ready != {} {
      LastMarkOfAppend(b.marks, Highest(ready), partition);
      if partition == m.partition {
        ReadyIsTopClosed(b.inFlight, delivered, confirmed, m, LastMark(b.marks, partition));
      }
    }
  }

  lemma {:induction false} ConfirmationKeepsMarksIncreasing(s: System, m: Message)
    requires Tracks(s) && m in s.bridge.inFlight && Increasing(s.bridge.marks)
    ensures Increasing(Complete(s.bridge, m).marks)
  {
    if Ready(s.bridge.inFlight[m := true], m.partition) != {} {
      var mark := LastMark(s.bridge.marks, m.partition);
      ReadyIsTopClosed(s.bridge.inFlight, Members(s.delivered), s.confirmed, m, mark);
      LastMarkIsGreatest(s.bridge.marks, m.partition);
    }
  }

  lemma {:induction false} ConfirmationTracks(s: System, m: Message, s': System)
    requires Tracks(s) && m in s.bridge.inFlight
    requires s'.bridge == Complete(s.bridge, m) && s'.delivered == s.delivered && s'.confirmed == s.confirmed + {m}
    ensures Tracks(s')
  {
    ConfirmationHoldsOpen(s.bridge, Members(s.delivered), s.confirmed, m);
    forall p ensures IsTopClosed(LastMark(s'.bridge.marks, p), Members(s'.delivered), s'.confirmed, p) {
      ConfirmationMovesMark(s.bridge, Members(s.delivered), s.confirmed, m, p);
    }
  }

  lemma AppendKeepsIncreasing(msgs: seq<Message>, m: Message)
    requires Increasing(msgs)
    requires forall d :: d in msgs && d.partition == m.partition ==> d.offset < m.offset
    ensures Increasing(msgs + [m])
  {
    assert forall i :: 0 <= i < |msgs| ==> msgs[i] in msgs;
  }

  lemma {:induction false} ConsumptionTracks(s: System, m: Message, s': System)
    requires Tracks(s) && m !in s.bridge.inFlight && InOrder(s, Consume(m))
    requires s'.bridge == s.bridge.(inFlight := s.bridge.inFlight[m := false])
    requires s'.delivered == s.delivered + [m] && s'.confirmed == s.confirmed
    ensures Tracks(s')
    ensures Increasing(s.delivered) ==> Increasing(s'.delivered)
  {
    assert Members(s'.delivered) == Members(s.delivered) + {m};
    ConsumeHoldsOpen(s.bridge.inFlight, Members(s.delivered), s.confirmed, m);
    forall p ensures IsTopClosed(LastMark(s'.bridge.marks, p), Members(s'.delivered), s'.confirmed, p) {
      assert IsTopClosed(LastMark(s.bridge.marks, p), Members(s.delivered), s.confirmed, p);
    }
    if Increasing(s.delivered) { AppendKeepsIncreasing(s.delivered, m); }
  }

  lemma {:induction false} StepTracks(maxInFlight: nat, s: System, e: Event)
    requires Tracks(s) && InOrder(s, e) && Step(maxInFlight, s, e).Running?
    ensures Tracks(Step(maxInFlight, s, e).sys)
    ensures Increasing(s.delivered) ==> Increasing(Step(maxInFlight, s, e).sys.delivered)
    ensures Increasing(s.bridge.marks) ==> Increasing(Step(maxInFlight, s, e).sys.bridge.marks)
  {
    var s' := Step(maxInFlight, s, e).sys;
    match e
    case Consume(m) =>
      if m !in s.bridge.inFlight { ConsumptionTracks(s, m, s'); }
    case Reply(m) =>
    case Confirmation(m) =>
      ConfirmationTracks(s, m, s');
      if Increasing(s.bridge.marks) { ConfirmationKeepsMarksIncreasing(s, m); }
  }

  lemma {:induction false} RunTracks(maxInFlight: nat, s: System, events: seq<Event>)
    requires Tracks(s) && Increasing(s.delivered) && Increasing(s.bridge.marks)
    requires RunInOrder(maxInFlight, s, events) && Run(maxInFlight, s, events).Running?
    ensures var s' := Run(maxInFlight, s, events).sys;
            Tracks(s') && Increasing(s'.delivered) && Increasing(s'.bridge.marks)
    decreases |events|
  {
    if events != [] {
      StepTracks(maxInFlight, s, events[0]);
      RunTracks(maxInFlight, Step(maxInFlight, s, events[0]).sys, events[1..]);
    }
  }

  /** In a sorted partition, the open messages are those after the confirmed prefix. */
  lemma {:induction false} OpenIsAfterPrefix(s: System, partition: int, i: nat)
    requires Increasing(s.delivered)
    requires i < |OfPartition(s.delivered, partition)|
    ensures var msgs := OfPartition(s.delivered, partition);
            && msgs[i] in s.delivered && msgs[i].partition == partition
            && (Open(Members(s.delivered), s.confirmed, msgs[i]) <==> ConfirmedPrefix(msgs, s.confirmed) <= i)
  {
    var msgs := OfPartition(s.delivered, partition);
    var n := ConfirmedPrefix(msgs, s.confirmed);
    OfPartitionMembers(s.delivered, partition);
    assert msgs[i] in msgs;
    if n <= i {
      assert msgs[n] in msgs;
    } else {
      forall q | q in s.delivered && q.partition == partition && q.offset <= msgs[i].offset ensures q in s.confirmed {
        assert q in msgs;
        var j :| 0 <= j < |msgs| && msgs[j] == q;
        assert j <= i;
      }
    }
  }

  lemma InTail(msgs: seq<Message>, n: nat, i: nat)
    requires SortedByOffset(msgs) && n <= |msgs| && i < |msgs|
    ensures msgs[i] in msgs[n..] <==> n <= i
  {
    var rest := msgs[n..];
    if n <= i {
      assert rest[i - n] == msgs[i];
    } else {
      assert forall j :: 0 <= j < |rest| ==> msgs[i].offset < rest[j].offset;
    }
  }

  lemma {:induction false} InFlightIsAfterPrefix(s: System, m: Message)
    requires HoldsOpen(s.bridge.inFlight, Members(s.delivered), s.confirmed) && Increasing(s.delivered)
    ensures var msgs := OfPartition(s.delivered, m.partition);
            m in s.bridge.inFlight <==> m in msgs[ConfirmedPrefix(msgs, s.confirmed)..]
  {
    var msgs := OfPartition(s.delivered, m.partition);
    var n := ConfirmedPrefix(msgs, s.confirmed);
    OfPartitionMembers(s.delivered, m.partition);
    if m in msgs {
      var i :| 0 <= i < |msgs| && msgs[i] == m;
      OpenIsAfterPrefix(s, m.partition, i);
      InTail(msgs, n, i);
    } else {
      assert m !in msgs[n..];
    }
  }

  lemma {:induction false} MarkIsEndOfPrefix(s: System, partition: int)
    requires Tracks(s) && Increasing(s.delivered)
    ensures var msgs := OfPartition(s.delivered, partition);
            var n := ConfirmedPrefix(msgs, s.confirmed);
            LastMark(s.bridge.marks, partition) == (if n == 0 then None else Some(msgs[n - 1]))
  {
    var msgs := OfPartition(s.delivered, partition);
    var n := ConfirmedPrefix(msgs, s.confirmed);
    var mark := LastMark(s.bridge.marks, partition);
    assert IsTopClosed(mark, Members(s.delivered), s.confirmed, partition);
    OfPartitionMembers(s.delivered, partition);
    if n > 0 {
      OpenIsAfterPrefix(s, partition, n - 1);
    }
    if mark.Some? {
      assert mark.value in msgs;
      var i :| 0 <= i < |msgs| && msgs[i] == mark.value;
      OpenIsAfterPrefix(s, partition, i);
    }
  }

  lemma {:induction false} TrackingIsRefinement(s: System, partition: int)
    requires Tracks(s) && Increasing(s.delivered)
    ensures IsLongestConfirmedPrefix(s, partition)
  {
    MarkIsEndOfPrefix(s, partition);
    forall m: Message {:trigger m in s.bridge.inFlight} | m.partition == partition
      ensures var msgs := OfPartition(s.delivered, partition);
              m in s.bridge.inFlight <==> m in msgs[ConfirmedPrefix(msgs, s.confirmed)..]
    {
      InFlightIsAfterPrefix(s, m);
    }
  }

  /** The offset-commit protocol refines "the longest confirmed prefix", and the marks of a partition
      only ever increase. */
  lemma CommitRefinesLongestConfirmedPrefix(maxInFlight: nat, events: seq<Event>)
    requires RunInOrder(maxInFlight, INIT, events) && Run(maxInFlight, INIT, events).Running?
    ensures Refined(Run(maxInFlight, INIT, events).sys)
    ensures Increasing(Run(maxInFlight, INIT, events).sys.bridge.marks)
  {
    RunTracks(maxInFlight, INIT, events);
    forall p ensures IsLongestConfirmedPrefix(Run(maxInFlight, INIT, events).sys, p) {
      TrackingIsRefinement(Run(maxInFlight, INIT, events).sys, p);
    }
  }

  /** Two runs that delivered the same messages in each partition and confirmed the same ones end in the
      same place, whatever the interleavings and whatever the limits. */
  lemma RunsAreConfluent(max1: nat, events1: seq<Event>, max2: nat, events2: seq<Event>)
    requires RunInOrder(max1, INIT, events1) && Run(max1, INIT, events1).Running?
    requires RunInOrder(max2, INIT, events2) && Run(max2, INIT, events2).Running?
    requires var s1, s2 := Run(max1, INIT, events1).sys, Run(max2, INIT, events2).sys;
             && s1.confirmed == s2.confirmed
             && forall p :: OfPartition(s1.delivered, p) == OfPartition(s2.delivered, p)
    ensures var s1, s2 := Run(max1, INIT, events1).sys, Run(max2, INIT, events2).sys;
            && s1.bridge.inFlight == s2.bridge.inFlight
            && forall p :: LastMark(s1.bridge.marks, p) == LastMark(s2.bridge.marks, p)
  {
    CommitRefinesLongestConfirmedPrefix(max1, events1);
    CommitRefinesLongestConfirmedPrefix(max2, events2);
    var s1, s2 := Run(max1, INIT, events1).sys, Run(max2, INIT, events2).sys;
    forall p ensures LastMark(s1.bridge.marks, p) == LastMark(s2.bridge.marks, p) {
      assert IsLongestConfirmedPrefix(s1, p) && IsLongestConfirmedPrefix(s2, p);
    }
    forall m: Message ensures m in s1.bridge.inFlight <==> m in s2.bridge.inFlight {
      assert IsLongestConfirmedPrefix(s1, m.partition) && IsLongestConfirmedPrefix(s2, m.partition);
    }
    forall m | m in s1.bridge.inFlight ensures s1.bridge.inFlight[m] == s2.bridge.inFlight[m] {
      assert IsLongestConfirmedPrefix(s1, m.partition) && IsLongestConfirmedPrefix(s2, m.partition);
    }
  }

  /** Once everything delivered has been confirmed, nothing is in flight and each partition is marked at
      its last delivery. */
  lemma AllConfirmedMeansAllMarked(maxInFlight: nat, events: seq<Event>, partition: int)
    requires RunInOrder(maxInFlight, INIT, events) && Run(maxInFlight, INIT, events).Running?
    requires var s := Run(maxInFlight, INIT, events).sys; forall m :: m in s.delivered ==> m in s.confirmed
    ensures var s := Run(maxInFlight, INIT, events).sys;
            var msgs := OfPartition(s.delivered, partition);
            && s.bridge.inFlight == map[]
            && LastMark(s.bridge.marks, partition) == if msgs == [] then None else Some(msgs[|msgs| - 1])
  {
    CommitRefinesLongestConfirmedPrefix(maxInFlight, events);
    var s := Run(maxInFlight, INIT, events).sys;
    forall p ensures ConfirmedPrefix(OfPartition(s.delivered, p), s.confirmed) == |OfPartition(s.delivered, p)| {
      OfPartitionMembers(s.delivered, p);
      PrefixIsUnique(OfPartition(s.delivered, p), s.confirmed, |OfPartition(s.delivered, p)|);
    }
    assert IsLongestConfirmedPrefix(s, partition);
    forall m: Message ensures m !in s.bridge.inFlight {
      assert IsLongestConfirmedPrefix(s, m.partition);
    }
  }

  const A := Message(0, 5)
  const B := Message(0, 6)

  lemma {:induction false} RunTwoMessages() returns (s: System)
    ensures Run(10, INIT, Answered(A) + Answered(B)) == Running(s) && IsIdle(s) && s.bridge.marks == [A, B]
  {
    RunSoleMessage(10, INIT, A, Answered(B));
    s := AfterSoleMessage(INIT, A);
    assert Answered(B) + [] == Answered(B);
    RunSoleMessage(10, s, B, []);
    s := AfterSoleMessage(s, B);
    assert [] + [A] + [B] == [A, B];
  }

  /** Why the delivery order matters: a redelivery of a message that is already marked is taken for a new
      one, and its confirmation moves the mark backwards. */
  lemma RedeliveryOfMarkedMovesMarkBack()
    ensures exists events ::
              && Run(10, INIT, events).Running?
              && !Increasing(Run(10, INIT, events).sys.bridge.marks)
  {
    var s := RunTwoMessages();
    RunConcat(10, INIT, Answered(A) + Answered(B), Answered(A));
    assert Answered(A) + [] == Answered(A);
    RunSoleMessage(10, s, A, []);
    var last := AfterSoleMessage(s, A);
    assert Run(10, INIT, Answered(A) + Answered(B) + Answered(A)) == Running(last);
    assert last.bridge.marks[1].offset > last.bridge.marks[2].offset;
  }

  function Answered(m: Message): seq<Event> {
    [Consume(m), Reply(m), Confirmation(m)]
  }

  function AfterSoleMessage(s: System, m: Message): System {
    s.(bridge := Bridge(map[], s.bridge.marks + [m]), delivered := s.delivered + [m], confirmed := s.confirmed + {m})
  }

  predicate IsIdle(s: System) {
    s.bridge.inFlight == map[] && s.awaiting == multiset{} && s.sent == multiset{}
  }

  lemma StepsOfSoleMessage(maxInFlight: nat, s: System, m: Message) returns (s1: System, s2: System)
    requires maxInFlight > 0 && IsIdle(s)
    ensures Step(maxInFlight, s, Consume(m)) == Running(s1)
    ensures Step(maxInFlight, s1, Reply(m)) == Running(s2)
    ensures Step(maxInFlight, s2, Confirmation(m)) == Running(AfterSoleMessage(s, m))
  {
    s1 := s.(bridge := Bridge(map[m := false], s.bridge.marks), awaiting := multiset{m},
             delivered := s.delivered + [m]);
    s2 := s1.(awaiting := multiset{}, sent := multiset{m});
    SoleMessageIsMarked(s2.bridge, m);
  }

  /** A message consumed, answered and confirmed on its own is marked at once. */
  lemma {:induction false} RunSoleMessage(maxInFlight: nat, s: System, m: Message, rest: seq<Event>)
    requires maxInFlight > 0 && IsIdle(s)
    ensures Run(maxInFlight, s, Answered(m) + rest) == Run(maxInFlight, AfterSoleMessage(s, m), rest)
  {
    var s1, s2 := StepsOfSoleMessage(maxInFlight, s, m);
    var third := [Confirmation(m)] + rest;
    var second := [Reply(m)] + third;
    RunHead(maxInFlight, s, Consume(m), second);
    RunHead(maxInFlight, s1, Reply(m), third);
    RunHead(maxInFlight, s2, Confirmation(m), rest);
    assert Answered(m) + rest == [Consume(m)] + second;
  }

  lemma {:induction false} RunHead(maxInFlight: nat, s: System, e: Event, rest: seq<Event>)
    requires Step(maxInFlight, s, e).Running?
    ensures Run(maxInFlight, s, [e] + rest) == Run(maxInFlight, Step(maxInFlight, s, e).sys, rest)
  {
    assert ([e] + rest)[1..] == rest;
  }

  lemma SoleMessageIsMarked(b: Bridge, m: Message)
    requires b.inFlight == map[m := false]
    ensures Complete(b, m) == Bridge(map[], b.marks + [m])
  {
    var inFlight := b.inFlight[m := true];
    assert !HeldBack(inFlight, m);
    assert Ready(inFlight, m.partition) == {m};
  }

  // ---------- Exactly when marks increase ----------

  /** A message lies above everything marked in its partition. */
  ghost predicate AboveMarks(marks: seq<Message>, m: Message) {
    forall i :: 0 <= i < |marks| && marks[i].partition == m.partition ==> marks[i].offset < m.offset
  }

  ghost predicate AllAbove(b: Bridge) {
    forall m {:trigger AboveMarks(b.marks, m)} :: m in b.inFlight ==> AboveMarks(b.marks, m)
  }

  /** A message that is not in flight is delivered above the marks. */
  ghost predicate Advances(s: System, e: Event) {
    e.Consume? && e.msg !in s.bridge.inFlight ==> AboveMarks(s.bridge.marks, e.msg)
  }

  ghost predicate RunAdvances(maxInFlight: nat, s: System, events: seq<Event>)
    decreases |events|
  {
    events != [] ==>
      && Advances(s, events[0])
      && (Step(maxInFlight, s, events[0]).Running? ==>
            RunAdvances(maxInFlight, Step(maxInFlight, s, events[0]).sys, events[1..]))
  }

  ghost predicate KnowsDelivered(s: System) {
    && (forall m :: m in s.bridge.inFlight ==> m in s.delivered)
    && (forall m :: m in s.bridge.marks ==> m in s.delivered)
  }

  lemma StepKeepsDelivered(maxInFlight: nat, s: System, e: Event)
    requires KnowsDelivered(s) && Step(maxInFlight, s, e).Running?
    ensures KnowsDelivered(Step(maxInFlight, s, e).sys)
  {
  }

  /** Delivery in order is one way to get this. */
  lemma {:induction false} InOrderAdvances(maxInFlight: nat, s: System, events: seq<Event>)
    requires KnowsDelivered(s) && RunInOrder(maxInFlight, s, events)
    ensures RunAdvances(maxInFlight, s, events)
    decreases |events|
  {
    if events != [] {
      assert Advances(s, events[0]) by {
        assert forall i :: 0 <= i < |s.bridge.marks| ==> s.bridge.marks[i] in s.bridge.marks;
      }
      if Step(maxInFlight, s, events[0]).Running? {
        StepKeepsDelivered(maxInFlight, s, events[0]);
        InOrderAdvances(maxInFlight, Step(maxInFlight, s, events[0]).sys, events[1..]);
      }
    }
  }

  lemma AppendIncreasesIff(marks: seq<Message>, m: Message)
    requires Increasing(marks)
    ensures Increasing(marks + [m]) <==> AboveMarks(marks, m)
  {
    var all := marks + [m];
    if Increasing(all) {
      forall i | 0 <= i < |marks| && marks[i].partition == m.partition ensures marks[i].offset < m.offset {
        assert all[i] == marks[i] && all[|marks|] == m;
      }
    }
  }

  /** What stays in flight lies above the mark that a completion makes. */
  lemma RestIsAboveReady(inFlight: map<Message, bool>, h: Message, m: Message)
    requires h in Ready(inFlight, h.partition) && m in inFlight && m !in Ready(inFlight, h.partition)
    requires m.partition == h.partition
    ensures h.offset < m.offset
  {
    assert HeldBack(inFlight, m);
    var q :| q in inFlight && q.partition == m.partition && q.offset <= m.offset && !inFlight[q];
    assert !HeldBack(inFlight, h);
    assert q.offset <= h.offset ==> HeldBack(inFlight, h);
  }

  lemma CompleteKeepsAbove(b: Bridge, msg: Message)
    requires msg in b.inFlight && AllAbove(b) && Increasing(b.marks)
    ensures AllAbove(Complete(b, msg)) && Increasing(Complete(b, msg).marks)
  {
    var inFlight := b.inFlight[msg := true];
    var ready := Ready(inFlight, msg.partition);
    if ready != {} {
      var h := Highest(ready);
      assert AboveMarks(b.marks, h);
      AppendIncreasesIff(b.marks, h);
      forall m | m in inFlight - ready ensures AboveMarks(b.marks + [h], m) {
        assert AboveMarks(b.marks, m);
        if m.partition == h.partition { RestIsAboveReady(inFlight, h, m); }
      }
    } else {
      assert forall m :: m in inFlight ==> AboveMarks(b.marks, m);
    }
  }

  lemma StepKeepsAbove(maxInFlight: nat, s: System, e: Event)
    requires AllAbove(s.bridge) && Increasing(s.bridge.marks) && Advances(s, e)
    requires Step(maxInFlight, s, e).Running?
    ensures AllAbove(Step(maxInFlight, s, e).sys.bridge) && Increasing(Step(maxInFlight, s, e).sys.bridge.marks)
  {
    if e.Confirmation? {
      CompleteKeepsAbove(s.bridge, e.msg);
    }
  }

  /** Where whatever is newly consumed lies above the marks, marks only increase, in whatever order else it was
      delivered, and whatever is in flight lies above them. */
  lemma {:induction false} AdvancingRunsIncreaseMarks(maxInFlight: nat, s: System, events: seq<Event>)
    requires AllAbove(s.bridge) && Increasing(s.bridge.marks)
    requires RunAdvances(maxInFlight, s, events) && Run(maxInFlight, s, events).Running?
    ensures var b := Run(maxInFlight, s, events).sys.bridge; AllAbove(b) && Increasing(b.marks)
    decreases |events|
  {
    if events != [] {
      StepKeepsAbove(maxInFlight, s, events[0]);
      AdvancingRunsIncreaseMarks(maxInFlight, Step(maxInFlight, s, events[0]).sys, events[1..]);
    }
  }

  /** A straggler, at or below a mark, is marked at once when it is confirmed first. */
  lemma StragglerIsMarkedAlone(b: Bridge, m: Message)
    requires NothingReady(b.inFlight) && AllAbove(b) && m !in b.inFlight && !AboveMarks(b.marks, m)
    ensures Complete(b.(inFlight := b.inFlight[m := false]), m).marks == b.marks + [m]
  {
    var inFlight := b.inFlight[m := false][m := true];
    var k :| 0 <= k < |b.marks| && b.marks[k].partition == m.partition && b.marks[k].offset >= m.offset;
    forall q | q in b.inFlight && q.partition == m.partition ensures m.offset < q.offset {
      assert AboveMarks(b.marks, q);
    }
    assert !HeldBack(inFlight, m);
    forall o | o in b.inFlight ensures HeldBack(inFlight, o) {
      assert HeldBack(b.inFlight, o);
      var q :| q in b.inFlight && q.partition == o.partition && q.offset <= o.offset && !b.inFlight[q];
      assert q in inFlight && !inFlight[q];
    }
    assert Ready(inFlight, m.partition) == {m};
  }

  lemma StepsOfAnswered(maxInFlight: nat, s: System, m: Message) returns (s1: System, s2: System, s3: System)
    requires Inv(maxInFlight, s) && |s.bridge.inFlight| < maxInFlight && m !in s.bridge.inFlight
    ensures Step(maxInFlight, s, Consume(m)) == Running(s1) && Step(maxInFlight, s1, Reply(m)) == Running(s2)
    ensures Step(maxInFlight, s2, Confirmation(m)) == Running(s3)
    ensures s1.bridge == s.bridge.(inFlight := s.bridge.inFlight[m := false]) == s2.bridge
    ensures s3.bridge == Complete(s1.bridge, m)
  {
    s1 := Step(maxInFlight, s, Consume(m)).sys;
    s2 := Step(maxInFlight, s1, Reply(m)).sys;
    s3 := Step(maxInFlight, s2, Confirmation(m)).sys;
  }

  lemma RunAnswered(maxInFlight: nat, s: System, m: Message, s1: System, s2: System, s3: System)
    requires Step(maxInFlight, s, Consume(m)) == Running(s1) && Step(maxInFlight, s1, Reply(m)) == Running(s2)
    requires Step(maxInFlight, s2, Confirmation(m)) == Running(s3)
    ensures Run(maxInFlight, s, Answered(m)) == Running(s3)
  {
    var third := [Confirmation(m)] + [];
    var second := [Reply(m)] + third;
    RunHead(maxInFlight, s, Consume(m), second);
    RunHead(maxInFlight, s1, Reply(m), third);
    RunHead(maxInFlight, s2, Confirmation(m), []);
    assert Answered(m) == [Consume(m)] + second;
  }

  lemma {:induction false} RunConcat(maxInFlight: nat, s: System, events: seq<Event>, more: seq<Event>)
    requires Run(maxInFlight, s, events).Running?
    ensures Run(maxInFlight, s, events + more) == Run(maxInFlight, Run(maxInFlight, s, events).sys, more)
    decreases |events|
  {
    if events == [] {
      assert events + more == more;
    } else {
      assert (events + more)[1..] == events[1..] + more;
      RunConcat(maxInFlight, Step(maxInFlight, s, events[0]).sys, events[1..], more);
    }
  }

  /** And that is exactly what it takes. In any run so far, with anything in flight, the next new message keeps
      marks increasing, when it is consumed and confirmed first, if and only if it lies above the marks. */
  lemma MarksIncreaseIffAdvancing(maxInFlight: nat, events: seq<Event>, m: Message)
    requires RunAdvances(maxInFlight, INIT, events) && Run(maxInFlight, INIT, events).Running?
    requires var b := Run(maxInFlight, INIT, events).sys.bridge; |b.inFlight| < maxInFlight && m !in b.inFlight
    ensures Run(maxInFlight, INIT, events + Answered(m)).Running?
    ensures Increasing(Run(maxInFlight, INIT, events + Answered(m)).sys.bridge.marks) <==>
              AboveMarks(Run(maxInFlight, INIT, events).sys.bridge.marks, m)
  {
    var s := Run(maxInFlight, INIT, events).sys;
    InitInv(maxInFlight);
    RunKeepsInv(maxInFlight, INIT, events);
    AdvancingRunsIncreaseMarks(maxInFlight, INIT, events);
    var s1, s2, s3 := StepsOfAnswered(maxInFlight, s, m);
    RunAnswered(maxInFlight, s, m, s1, s2, s3);
    RunConcat(maxInFlight, INIT, events, Answered(m));
    if AboveMarks(s.bridge.marks, m) {
      StepKeepsAbove(maxInFlight, s, Consume(m));
      CompleteKeepsAbove(s1.bridge, m);
    } else {
      StragglerIsMarkedAlone(s.bridge, m);
      AppendIncreasesIff(s.bridge.marks, m);
    }
  }

  // ---------- The bridge itself ----------

  ghost predicate SortedByOffset(msgs: seq<Message>) {
    forall i, j :: 0 <= i < j < |msgs| ==> msgs[i].offset < msgs[j].offset
  }

  /** The leading complete messages of a partition's sorted in-flight list are its ready ones. */
  lemma SortedPrefixIsReady(inFlight: map<Message, bool>, partition: int, sorted: seq<Message>, n: nat)
    requires SortedByOffset(sorted) && n <= |sorted|
    requires forall m: Message :: m in sorted <==> m in inFlight && m.partition == partition
    requires forall i :: 0 <= i < n ==> inFlight[sorted[i]]
    requires n < |sorted| ==> !inFlight[sorted[n]]
    ensures Ready(inFlight, partition) == set m | m in sorted[..n]
  {
    forall m: Message ensures m in Ready(inFlight, partition) <==> m in sorted[..n] {
      if m in inFlight && m.partition == partition {
        var i :| 0 <= i < |sorted| && sorted[i] == m;
        if n <= i {
          assert sorted[n] in inFlight;
          assert HeldBack(inFlight, m);
          assert forall k :: 0 <= k < n ==> sorted[k].offset < m.offset;
        } else {
          assert sorted[..n][i] == m;
          forall q | q in inFlight && q.partition == m.partition && q.offset <= m.offset ensures inFlight[q] {
            var j :| 0 <= j < |sorted| && sorted[j] == q;
            assert j <= i;
          }
        }
      } else {
        assert m in sorted[..n] ==> m in sorted;
      }
    }
  }

  /** Sorts in-flight messages of one partition by offset. */
  method SortByOffset(msgs: seq<Message>) returns (sorted: seq<Message>)
    requires forall i, j :: 0 <= i < j < |msgs| ==> msgs[i].offset != msgs[j].offset
    ensures SortedByOffset(sorted)
    ensures forall m :: m in sorted <==> m in msgs
  {
    sorted := [];
    for k := 0 to |msgs|
      invariant SortedByOffset(sorted)
      invariant forall m :: m in sorted <==> m in msgs[..k]
    {
      var at := |sorted|;
      while at > 0 && msgs[k].offset < sorted[at - 1].offset
        invariant 0 <= at <= |sorted|
        invariant forall i :: at <= i < |sorted| ==> msgs[k].offset < sorted[i].offset
      {
        at := at - 1;
      }
      assert at > 0 ==> sorted[at - 1].offset < msgs[k].offset by {
        if at > 0 {
          assert sorted[at - 1] in msgs[..k];
          var i :| 0 <= i < k && msgs[i] == sorted[at - 1];
        }
      }
      assert msgs[..k + 1] == msgs[..k] + [msgs[k]];
      assert forall m :: m in sorted <==> m in sorted[..at] || m in sorted[at..];
      sorted := sorted[..at] + [msgs[k]] + sorted[at..];
    }
    assert msgs[..|msgs|] == msgs;
  }

  lemma HighestOfPrefix(sorted: seq<Message>, n: nat)
    requires SortedByOffset(sorted) && 0 < n <= |sorted|
    ensures var s := set m | m in sorted[..n]; s != {} && Highest(s) == sorted[n - 1]
  {
    var s := set m | m in sorted[..n];
    assert sorted[..n][n - 1] == sorted[n - 1] && sorted[n - 1] in s;
    var h := Highest(s);
    var j :| 0 <= j < n && sorted[..n][j] == h;
    assert sorted[n - 1].offset <= h.offset && sorted[j] == h;
  }

  class KafkaBridge {
    const maxInFlight: nat
    var inFlight: map<Message, bool>
    var marks: seq<Message>  // the offsets passed to the consumer's MarkOffset, in order

    ghost function View(): Bridge
      reads this
    {
      Bridge(inFlight, marks)
    }

    constructor (maxInFlight: nat)
      ensures this.maxInFlight == maxInFlight && View() == INIT.bridge
    {
      this.maxInFlight := maxInFlight;
      inFlight := map[];
      marks := [];
    }

    /** The consumer loop, once it has found room: a message already in flight is a duplicate. */
    method AddInflightMsg(msg: Message) returns (added: bool)
      requires |inFlight| < maxInFlight
      modifies this
      ensures added == (msg !in old(inFlight))
      ensures View() == old(View()).(inFlight := if added then old(inFlight)[msg := false] else old(inFlight))
    {
      if msg in inFlight {
        return false;
      }
      inFlight := inFlight[msg := false];
      return true;
    }

    /** The in-flight messages of a partition, in offset order. */
    method InPartition(partition: int) returns (sorted: seq<Message>)
      ensures SortedByOffset(sorted)
      ensures forall m :: m in sorted <==> m in inFlight && m.partition == partition
    {
      var found := [];
      var unseen := inFlight.Keys;
      while unseen != {}
        invariant unseen <= inFlight.Keys
        invariant forall m :: m in found <==> m in inFlight && m !in unseen && m.partition == partition
        invariant forall i, j :: 0 <= i < j < |found| ==> found[i].offset != found[j].offset
        decreases unseen
      {
        var m :| m in unseen;
        if m.partition == partition {
          assert forall i :: 0 <= i < |found| ==> found[i] in found && found[i] != m;
          found := found + [m];
        }
        unseen := unseen - {m};
      }
      sorted := SortByOffset(found);
    }

    /** Deletes acknowledged messages from the in-flight map. */
    method Remove(acked: seq<Message>)
      modifies this
      ensures inFlight == old(inFlight) - (set m | m in acked)
      ensures marks == old(marks)
    {
      for i := 0 to |acked|
        invariant inFlight == old(inFlight) - (set m | m in acked[..i])
        invariant marks == old(marks)
      {
        assert acked[..i + 1] == acked[..i] + [acked[i]];
        inFlight := inFlight - {acked[i]};
      }
      assert acked[..|acked|] == acked;
    }

    /** Flags a message as complete and works out whether its partition's offset can move forwards. */
    method SetInFlightComplete(msg: Message)
      requires msg in inFlight
      modifies this
      ensures View() == Complete(old(View()), msg)
    {
      inFlight := inFlight[msg := true];
      var samePartition := InPartition(msg.partition);
      var ready := 0;
      while ready < |samePartition| && inFlight[samePartition[ready]]
        invariant 0 <= ready <= |samePartition|
        invariant forall i :: 0 <= i < ready ==> inFlight[samePartition[i]]
      {
        ready := ready + 1;
      }
      SortedPrefixIsReady(inFlight, msg.partition, samePartition, ready);
      if ready > 0 {
        HighestOfPrefix(samePartition, ready);
        Remove(samePartition[..ready]);
        marks := marks + [samePartition[ready - 1]];
      }
    }

    /** A reply reported as sent. `false` is the panic for a confirmation of an unknown message. */
    method ProducerSuccess(msg: Message) returns (known: bool)
      modifies this
      ensures known == (msg in old(inFlight))
      ensures View() == if known then Complete(old(View()), msg) else old(View())
    {
      known := msg in inFlight;
      if known {
        SetInFlightComplete(msg);
      }
    }
  }
}
