/** Sends that wait for the producer's acknowledgement (internal/maidenlanerest/webhookskafka.go). */
module WebhooksKafka {
  import opened Wrappers

  type ID = string

  /** Where the message was stored, or why it was not. */
  datatype Outcome = Stored(partition: int, offset: int) | Failed(error: string)

  /** The three maps under the condition's lock. */
  datatype Maps = Maps(pending: set<ID>, success: map<ID, Outcome>, failed: map<ID, Outcome>)

  const EMPTY := Maps({}, map[], map[])

  function SetPending(m: Maps, id: ID): Maps {
    m.(pending := m.pending + {id})
  }

  /** A confirmation counts only for a pending message; it wakes all waiters then. */
  function Confirm(m: Maps, id: ID, o: Outcome): Maps {
    if id !in m.pending then m
    else if o.Failed? then Maps(m.pending - {id}, m.success, m.failed[id := o])
    else Maps(m.pending - {id}, m.success[id := o], m.failed)
  }

  /** One turn of the waiter's loop: it takes its outcome, or waits for the next wake-up. */
  function Taken(m: Maps, id: ID): Option<Outcome> {
    if id in m.failed then Some(m.failed[id])
    else if id in m.success then Some(m.success[id])
    else None
  }

  function Take(m: Maps, id: ID): Maps {
    if id in m.failed then m.(failed := m.failed - {id})
    else if id in m.success then m.(success := m.success - {id})
    else m
  }

  // ---------- Sends and confirmations in any order ----------

  /** A send is marked as pending if it is to be acknowledged, then handed to the producer; then it returns at
      once, or waits. */
  datatype Send = Send(ack: bool, handed: bool, asleep: bool, result: Option<Outcome>)

  /** `confirmed` is what the producer has reported: once for each message it was handed. */
  datatype World = World(maps: Maps, sends: map<ID, Send>, confirmed: map<ID, Outcome>)

  datatype Event =
    | Begin(id: ID, ack: bool)
    | Hand(id: ID)
    | Report(id: ID, o: Outcome)
    | Check(id: ID)

  const START := World(EMPTY, map[], map[])

  /** Message ids are never used twice: each send gets a fresh unique identifier. */
  predicate Enabled(w: World, e: Event) {
    match e
    case Begin(id, _) => id !in w.sends
    case Hand(id) => id in w.sends && !w.sends[id].handed
    case Report(id, _) => id in w.sends && w.sends[id].handed && id !in w.confirmed
    case Check(id) => id in w.sends && Waiting(w.sends[id]) && !w.sends[id].asleep
  }

  predicate Waiting(s: Send) {
    s.ack && s.handed && s.result.None?
  }

  function WakeAll(sends: map<ID, Send>): map<ID, Send> {
    map id | id in sends :: sends[id].(asleep := false)
  }

  function Step(w: World, e: Event): World
    requires Enabled(w, e)
  {
    match e
    case Begin(id, ack) =>
      World(if ack then SetPending(w.maps, id) else w.maps, w.sends[id := Send(ack, false, false, None)], w.confirmed)
    case Hand(id) => w.(sends := w.sends[id := w.sends[id].(handed := true)])
    case Report(id, o) =>
      World(Confirm(w.maps, id, o), if id in w.maps.pending then WakeAll(w.sends) else w.sends, w.confirmed[id := o])
    case Check(id) =>
      var o := Taken(w.maps, id);
      w.(maps := Take(w.maps, id), sends := w.sends[id := w.sends[id].(asleep := o.None?, result := o)])
  }

  ghost predicate Run(w: World, events: seq<Event>)
    decreases |events|
  {
    events != [] ==> Enabled(w, events[0]) && Run(Step(w, events[0]), events[1..])
  }

  function After(w: World, events: seq<Event>): World
    requires Run(w, events)
    decreases |events|
  {
    if events == [] then w else After(Step(w, events[0]), events[1..])
  }

  // ---------- What every step keeps ----------

  /** Where a message is, as its own send and its own confirmation alone determine it. */
  predicate Placed(w: World, id: ID) {
    var acked := id in w.sends && w.sends[id].ack;
    var taken := acked && w.sends[id].result.Some?;
    && (id in w.maps.pending <==> acked && id !in w.confirmed)
    && (id in w.maps.failed <==> acked && !taken && id in w.confirmed && w.confirmed[id].Failed?)
    && (id in w.maps.success <==> acked && !taken && id in w.confirmed && w.confirmed[id].Stored?)
    && (id in w.maps.failed ==> w.maps.failed[id] == w.confirmed[id])
    && (id in w.maps.success ==> w.maps.success[id] == w.confirmed[id])
  }

  /** A result is the confirmed outcome, and a sleeper has none to miss. */
  predicate Answered(w: World, id: ID) {
    && (id in w.confirmed ==> id in w.sends && w.sends[id].handed)
    && (id in w.sends ==>
          && (w.sends[id].result.Some? ==>
                w.sends[id].ack && id in w.confirmed && w.sends[id].result == Some(w.confirmed[id]))
          && (w.sends[id].asleep ==> id in w.maps.pending))
  }

  ghost predicate Inv(w: World) {
    forall id: ID {:trigger Placed(w, id)} :: Placed(w, id) && Answered(w, id)
  }

  lemma StepKeepsPlace(w: World, e: Event, id: ID)
    requires Enabled(w, e) && Placed(w, id) && Answered(w, id)
    ensures Placed(Step(w, e), id) && Answered(Step(w, e), id)
  {
  }

  lemma {:induction false} RunKeepsInv(w: World, events: seq<Event>)
    requires Inv(w) && Run(w, events)
    ensures Inv(After(w, events))
    decreases |events|
  {
    if events != [] {
      var w' := Step(w, events[0]);
      forall id: ID ensures Placed(w', id) && Answered(w', id) {
        assert Placed(w, id);
        StepKeepsPlace(w, events[0], id);
      }
      RunKeepsInv(w', events[1..]);
    }
  }

  function Unconfirmed(w: World): set<ID> {
    set id | id in w.sends && w.sends[id].ack && id !in w.confirmed
  }

  function Untaken(w: World): set<ID> {
    set id | id in w.sends && w.sends[id].ack && id in w.confirmed && w.sends[id].result.None?
  }

  lemma MapsHold(w: World)
    requires Inv(w)
    ensures w.maps.pending == Unconfirmed(w)
    ensures w.maps.success.Keys == set id | id in Untaken(w) && w.confirmed[id].Stored?
    ensures w.maps.failed.Keys == set id | id in Untaken(w) && w.confirmed[id].Failed?
    ensures forall id :: id in w.sends && w.sends[id].result.Some? ==>
              id in w.confirmed && w.sends[id].result == Some(w.confirmed[id])
  {
    forall id: ID ensures id in w.maps.pending <==> id in Unconfirmed(w) { assert Placed(w, id); }
    forall id: ID ensures id in w.maps.success <==> id in Untaken(w) && w.confirmed[id].Stored? {
      assert Placed(w, id);
    }
    forall id: ID ensures id in w.maps.failed <==> id in Untaken(w) && w.confirmed[id].Failed? {
      assert Placed(w, id);
    }
    forall id | id in w.sends && w.sends[id].result.Some?
      ensures id in w.confirmed && w.sends[id].result == Some(w.confirmed[id])
    {
      assert Placed(w, id);
    }
  }

  lemma StartKeepsInv()
    ensures Inv(START)
  {
    forall id: ID ensures Placed(START, id) && Answered(START, id) {
    }
  }

  /** Whatever the interleaving of sends and confirmations: the maps are disjoint and hold exactly the
      acknowledged sends that still need them, and a send that returned got its own outcome. */
  lemma EachSendGetsItsOwnOutcome(events: seq<Event>)
    requires Run(START, events)
    ensures var w := After(START, events);
            && w.maps.pending !! w.maps.success.Keys && w.maps.pending !! w.maps.failed.Keys
            && w.maps.success.Keys !! w.maps.failed.Keys
            && (forall id :: id in w.sends && w.sends[id].result.Some? ==>
                  id in w.confirmed && w.sends[id].result == Some(w.confirmed[id]))
            && (forall id :: id in w.maps.pending + w.maps.success.Keys + w.maps.failed.Keys <==>
                  id in w.sends && w.sends[id].ack && w.sends[id].result.None?)
  {
    StartKeepsInv();
    RunKeepsInv(START, events);
    MapsHold(After(START, events));
  }

  /** The maps are empty exactly when every send that waits for an acknowledgement has returned. */
  lemma MapsEmptyIffAllReturned(events: seq<Event>)
    requires Run(START, events)
    ensures var w := After(START, events);
            w.maps == EMPTY <==> forall id :: id in w.sends && w.sends[id].ack ==> w.sends[id].result.Some?
  {
    StartKeepsInv();
    RunKeepsInv(START, events);
    var w := After(START, events);
    MapsHold(w);
    var open := Unconfirmed(w) + Untaken(w);
    assert open == w.maps.pending + w.maps.success.Keys + w.maps.failed.Keys;
    assert w.maps == EMPTY <==> open == {} by {
      assert w.maps.success.Keys == {} <==> w.maps.success == map[];
      assert w.maps.failed.Keys == {} <==> w.maps.failed == map[];
    }
    assert forall id :: id in open <==> id in w.sends && w.sends[id].ack && w.sends[id].result.None?;
  }

  /** No wake-up is lost: a confirmed send that waits is awake, and its next turn takes its outcome. */
  lemma ConfirmedSendReturns(events: seq<Event>, id: ID)
    requires Run(START, events)
    requires var w := After(START, events);
             id in w.sends && Waiting(w.sends[id]) && id in w.confirmed
    ensures var w := After(START, events);
            && Enabled(w, Check(id))
            && Step(w, Check(id)).sends[id].result == Some(w.confirmed[id])
            && Step(w, Check(id)).confirmed == w.confirmed
  {
    StartKeepsInv();
    RunKeepsInv(START, events);
    assert Placed(After(START, events), id);
  }

  /** Confirmations of sends that did not ask for an acknowledgement change none of the maps. */
  lemma UnackedConfirmationChangesNothing(events: seq<Event>, id: ID, o: Outcome)
    requires Run(START, events) && Enabled(After(START, events), Report(id, o))
    requires !After(START, events).sends[id].ack
    ensures var w := After(START, events);
            Step(w, Report(id, o)).maps == w.maps && Step(w, Report(id, o)).sends == w.sends
  {
    StartKeepsInv();
    RunKeepsInv(START, events);
    assert Placed(After(START, events), id);
  }

  // ---------- The sections under the lock ----------

  class WebhooksKafka {
    var pendingMsgs: set<ID>
    var successMsgs: map<ID, Outcome>
    var failedMsgs: map<ID, Outcome>

    ghost function View(): Maps
      reads this
    {
      Maps(pendingMsgs, successMsgs, failedMsgs)
    }

    constructor ()
      ensures View() == EMPTY
    {
      pendingMsgs, successMsgs, failedMsgs := {}, map[], map[];
    }

    method SetMsgPending(id: ID)
      modifies this
      ensures View() == SetPending(old(View()), id)
    {
      pendingMsgs := pendingMsgs + {id};
    }

    /** One turn of the loop of waitForSend, from one wake-up to the next. */
    method CheckForSend(id: ID) returns (r: Option<Outcome>)
      modifies this
      ensures r == Taken(old(View()), id) && View() == Take(old(View()), id)
    {
      if id in failedMsgs {
        r := Some(failedMsgs[id]);
        failedMsgs := failedMsgs - {id};
      } else if id in successMsgs {
        r := Some(successMsgs[id]);
        successMsgs := successMsgs - {id};
      } else {
        r := None;
      }
    }

    method ProducerError(id: ID, error: string) returns (wakes: bool)
      modifies this
      ensures View() == Confirm(old(View()), id, Failed(error)) && wakes == (id in old(pendingMsgs))
    {
      wakes := id in pendingMsgs;
      if wakes {
        pendingMsgs := pendingMsgs - {id};
        failedMsgs := failedMsgs[id := Failed(error)];
      }
    }

    method ProducerSuccess(id: ID, partition: int, offset: int) returns (wakes: bool)
      modifies this
      ensures View() == Confirm(old(View()), id, Stored(partition, offset)) && wakes == (id in old(pendingMsgs))
    {
      wakes := id in pendingMsgs;
      if wakes {
        pendingMsgs := pendingMsgs - {id};
        successMsgs := successMsgs[id := Stored(partition, offset)];
      }
    }
  }
}
