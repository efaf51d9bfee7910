/** Filters, high-water marks and checkpoints: how a stream finds its place again after a crash
    (internal/maidenlaneevents/subscription.go, logprocessor.go, and the poller of eventstream.go).

    The system below puts the stream of module EventStream between the chain and the checkpoint store.
    The poller hands the logs of each subscription to the stream, records the high-water marks that
    completed batches have reached, and stores them; a crash keeps only what was stored. */
module Subscription {
  import opened Wrappers
  import ES = EventStream

  type SubID = string

  datatype FromBlock = Latest | Explicit(height: nat)

  /** A log that can be decoded: the index-th that the chain holds for a subscription. */
  datatype Log = Log(sub: SubID, index: nat)

  /** A subscription's runtime. `ready` says that its high-water mark was initialised since the last start. */
  datatype Sub = Sub(from: FromBlock, hwm: nat, ready: bool, stale: bool, filterFrom: nat, next: nat)

  datatype System = System(
    head: nat,                      // the chain's latest block
    logs: map<SubID, seq<nat>>,     // the block number of each log of a subscription, oldest first
    subs: map<SubID, Sub>,
    stream: ES.Stream<Log>,
    loaded: map<SubID, nat>,        // the poller's copy of the checkpoint
    stored: map<SubID, nat>,        // the checkpoint in the key-value store
    handed: set<Log>,               // every log ever handed to the stream
    completed: set<Log>)            // every log of an acknowledged batch

  datatype Action =
    | Mine(counts: map<SubID, nat>)              // the next block, with so many logs for each subscription
    | StartFilter(sub: SubID, created: bool)     // the poller finds a stale filter and sets it up again
    | LoseFilter(sub: SubID)                     // "filter not found"
    | Hand(sub: SubID)                           // the filter's next log
    | Repeat(sub: SubID, index: nat)             // the node reports logs again
    | Record(sub: SubID) | Store                 // end of a polling cycle
    | Stream(step: ES.Action<Log>)               // the stream's own goroutines and controls
    | Crash                                      // and restart

  // ---------- Steps ----------

  function Checkpoint(m: map<SubID, nat>, s: SubID): nat {
    if s in m then m[s] else 0
  }

  function Block(w: System, l: Log): nat {
    if l.sub in w.logs && l.index < |w.logs[l.sub]| then w.logs[l.sub][l.index] else 0
  }

  /** Where a filter starts: the checkpoint if it is positive, else what the subscription asked for. */
  function StartHeight(from: FromBlock, checkpoint: nat, head: nat): nat {
    if checkpoint > 0 then checkpoint
    else match from
      case Explicit(height) => height
      case Latest => head
  }

  /** An explicit first block does not touch the high-water mark. */
  function Started(sub: Sub, checkpoint: nat, head: nat, created: bool): Sub {
    sub.(hwm := if checkpoint > 0 then checkpoint else if sub.from.Latest? then head else sub.hwm,
         ready := true, stale := !created, filterFrom := StartHeight(sub.from, checkpoint, head), next := 0)
  }

  /** The subscription's last log in a batch: the only one its callback sees. */
  function LastOf(batch: seq<Log>, s: SubID): Option<Log> {
    if batch == [] then None
    else if batch[|batch|-1].sub == s then Some(batch[|batch|-1])
    else LastOf(batch[..|batch|-1], s)
  }

  function Raise(hwm: nat, block: nat): nat {
    if block + 1 > hwm then block + 1 else hwm
  }

  function AfterBatch(w: System, batch: seq<Log>, s: SubID): Sub
    requires s in w.subs
  {
    match LastOf(batch, s)
    case None => w.subs[s]
    case Some(l) => w.subs[s].(hwm := Raise(w.subs[s].hwm, Block(w, l)))
  }

  /** The effect of a batch's callbacks, but for the stream itself. */
  predicate AckedTo(w: System, batch: seq<Log>, w': System) {
    w' == w.(stream := w'.stream, completed := w.completed + Elems(batch),
             subs := map s | s in w.subs :: AfterBatch(w, batch, s))
  }

  function Elems(batch: seq<Log>): set<Log> {
    set l | l in batch
  }

  function Restarted(sub: Sub): Sub {
    Sub(sub.from, 0, false, true, 0, 0)
  }

  /** The steps in which the stream's goroutines have no part. */
  function PlainStep(w: System, a: Action): Option<System> {
    match a
    case Mine(counts) =>
      Some(w.(head := w.head + 1,
              logs := map s | s in w.logs :: w.logs[s] + seq(Checkpoint(counts, s), _ => w.head + 1)))
    case StartFilter(s, created) =>
      if s !in w.subs || !w.subs[s].stale then None
      else Some(w.(subs := w.subs[s := Started(w.subs[s], Checkpoint(w.loaded, s), w.head, created)]))
    case LoseFilter(s) =>
      if s !in w.subs || w.subs[s].stale then None else Some(w.(subs := w.subs[s := w.subs[s].(stale := true)]))
    case Repeat(s, index) =>
      if s !in w.subs || w.subs[s].stale || w.subs[s].next < index then None
      else Some(w.(subs := w.subs[s := w.subs[s].(next := index)]))
    case Record(s) =>
      if s !in w.subs then None else Some(w.(loaded := w.loaded[s := w.subs[s].hwm]))
    case Store => Some(w.(stored := w.loaded))
    case Crash =>
      Some(w.(stream := ES.Init(false), loaded := w.stored, subs := map s | s in w.subs :: Restarted(w.subs[s])))
    case _ => None
  }

  predicate HasNext(w: System, s: SubID) {
    s in w.subs && !w.subs[s].stale && s in w.logs && w.subs[s].next < |w.logs[s]|
  }

  function NextLog(w: System, s: SubID): Log
    requires s in w.subs
  {
    Log(s, w.subs[s].next)
  }

  /** The filter's position moves past its next log. */
  function Skipped(w: System, s: SubID): System
    requires s in w.subs
  {
    w.(subs := w.subs[s := w.subs[s].(next := w.subs[s].next + 1)])
  }

  function Step(c: ES.Config, w: System, a: Action): Option<System> {
    match a
    case Hand(s) =>
      if !HasNext(w, s) then None
      else if Block(w, NextLog(w, s)) < w.subs[s].filterFrom then Some(Skipped(w, s))  // below the filter's first block
      else (match ES.Step(c, w.stream, ES.Accept(NextLog(w, s)))
            case None => None
            case Some(stream) => Some(Skipped(w, s).(stream := stream, handed := w.handed + {NextLog(w, s)})))
    case Stream(step) =>
      if step.Accept? then None
      else (match ES.Step(c, w.stream, step)
            case None => None
            case Some(stream) =>
              if step.Callbacks? then
                var batch := w.stream.processor.batch;
                Some(w.(stream := stream, completed := w.completed + Elems(batch),
                        subs := map s | s in w.subs :: AfterBatch(w, batch, s)))
              else Some(w.(stream := stream)))
    case _ => PlainStep(w, a)
  }

  function Run(c: ES.Config, w: System, actions: seq<Action>): Option<System>
    decreases |actions|
  {
    if actions == [] then Some(w)
    else match Step(c, w, actions[0])
      case None => None
      case Some(w') => Run(c, w', actions[1..])
  }

  /** A first start, with what the chain already holds. */
  function Init(head: nat, logs: map<SubID, seq<nat>>, from: map<SubID, FromBlock>): System {
    System(head, logs, map s | s in from :: Restarted(Sub(from[s], 0, false, true, 0, 0)),
           ES.Init(false), map[], map[], {}, {})
  }

  // ---------- What the guarantee asks of a run ----------

  /** A log that a filter has handed over, or will if it is kept. */
  ghost predicate InScope(w: System, l: Log) {
    l in w.handed || (l.sub in w.subs && w.subs[l.sub].ready && Block(w, l) >= w.subs[l.sub].filterFrom)
  }

  ghost predicate Exists(w: System, l: Log) {
    l.sub in w.logs && l.index < |w.logs[l.sub]|
  }

  /** A log that the subscription asked for: whatever is in scope, and from an explicit first block on, all. */
  ghost predicate Wanted(w: System, l: Log) {
    InScope(w, l) || (l.sub in w.subs && w.subs[l.sub].from.Explicit? && Block(w, l) >= w.subs[l.sub].from.height)
  }

  // What follows concerns one subscription t. Whatever happens to the others is not restricted.

  /** The subscription's last block in the batch is not split: its logs are all in it or completed. */
  ghost predicate EndsOnWholeBlocks(w: System, batch: seq<Log>, t: SubID) {
    forall l: Log {:trigger l in w.completed} ::
      (l.sub == t && Exists(w, l) && InScope(w, l) && LastOf(batch, t).Some?
       && Block(w, l) == Block(w, LastOf(batch, t).value))
      ==> l in w.completed || l in batch
  }

  /** No suspension or resumption; and a subscription from "latest" is set up without a positive checkpoint only
      if what was handed over of it is completed or in the newest block. */
  ghost predicate Steady(w: System, a: Action, t: SubID) {
    && !(a.Stream? && (a.step.Suspend? || a.step.Resume?))
    && (a.StartFilter? && a.sub == t && t in w.subs && w.subs[t].from.Latest? && Checkpoint(w.loaded, t) == 0 ==>
          forall l :: l in w.handed && l.sub == t ==> l in w.completed || Block(w, l) == w.head)
  }

  /** No positive checkpoint is overwritten before use. */
  ghost predicate Keeps(w: System, a: Action, t: SubID) {
    a.Record? && a.sub == t && t in w.subs && !w.subs[t].ready ==> Checkpoint(w.loaded, t) == 0
  }

  ghost predicate Whole(w: System, a: Action, t: SubID) {
    a.Stream? && a.step.Callbacks? && w.stream.processor.Calling? ==>
      EndsOnWholeBlocks(w, w.stream.processor.batch, t)
  }

  ghost predicate SteadyRun(c: ES.Config, w: System, actions: seq<Action>, t: SubID)
    decreases |actions|
  {
    actions != [] ==>
      && Steady(w, actions[0], t)
      && (Step(c, w, actions[0]).Some? ==> SteadyRun(c, Step(c, w, actions[0]).value, actions[1..], t))
  }

  ghost predicate KeepsRun(c: ES.Config, w: System, actions: seq<Action>, t: SubID)
    decreases |actions|
  {
    actions != [] ==>
      && Keeps(w, actions[0], t)
      && (Step(c, w, actions[0]).Some? ==> KeepsRun(c, Step(c, w, actions[0]).value, actions[1..], t))
  }

  ghost predicate WholeRun(c: ES.Config, w: System, actions: seq<Action>, t: SubID)
    decreases |actions|
  {
    actions != [] ==>
      && Whole(w, actions[0], t)
      && (Step(c, w, actions[0]).Some? ==> WholeRun(c, Step(c, w, actions[0]).value, actions[1..], t))
  }

  // ---------- Invariants ----------

  ghost predicate Sorted(blocks: seq<nat>) {
    forall i, j :: 0 <= i <= j < |blocks| ==> blocks[i] <= blocks[j]
  }

  // The invariants take the stream's pending logs (ES.Pending) as an argument of their own.

  ghost predicate WellFormed(w: System, pending: seq<Log>) {
    && w.logs.Keys == w.subs.Keys
    && (forall s :: s in w.logs ==> Sorted(w.logs[s]))
    && (forall l :: Exists(w, l) ==> Block(w, l) <= w.head)
    && (forall l :: l in w.handed ==> Exists(w, l))
    && (forall l :: l in pending ==> l in w.handed && w.subs[l.sub].ready)
    && (forall s :: s in w.subs && !w.subs[s].ready ==> w.subs[s].stale && w.subs[s].hwm == 0)
    && (forall s :: s in w.subs ==> w.subs[s].next <= |w.logs[s]|)
    && !w.stream.fields.suspended
  }

  /** How the heights of one subscription relate. */
  ghost predicate HeightsOf(sub: Sub, loaded: nat, stored: nat, head: nat) {
    && stored <= head + 1 && loaded <= head + 1 && sub.hwm <= head + 1
    && (!sub.ready && loaded > 0 ==> stored <= loaded)
    && (sub.ready ==>
          && loaded <= sub.hwm
          && (sub.filterFrom <= sub.hwm || (sub.hwm == 0 && sub.from == Explicit(sub.filterFrom)))
          && (sub.filterFrom <= loaded
              || (loaded == 0
                  && (sub.from == Explicit(sub.filterFrom) || (sub.from.Latest? && sub.filterFrom <= head)))))
    && (sub.from.Explicit? ==>
          && (sub.ready ==> sub.from.height <= sub.filterFrom)
          && (sub.hwm > 0 ==> sub.from.height <= sub.hwm)
          && (loaded > 0 ==> sub.from.height <= loaded)
          && (stored > 0 ==> sub.from.height <= stored))
  }

  ghost predicate Heights(w: System) {
    && (forall s :: s in w.subs ==>
          HeightsOf(w.subs[s], Checkpoint(w.loaded, s), Checkpoint(w.stored, s), w.head))
    && forall l :: l in w.handed && l.sub in w.subs && w.subs[l.sub].from.Explicit? ==>
         w.subs[l.sub].from.height <= Block(w, l)
  }

  /** What is completed or among the first k pending logs. */
  ghost function Got(completed: set<Log>, pending: seq<Log>, k: nat): set<Log>
    requires k <= |pending|
  {
    completed + Elems(pending[..k])
  }

  /** Every log below l, from the filter's first block on, is in `got`. */
  ghost predicate Covers(blocks: seq<nat>, from: nat, l: Log, got: set<Log>) {
    forall i {:trigger Log(l.sub, i)} :: 0 <= i < l.index && i < |blocks| && blocks[i] >= from ==> Log(l.sub, i) in got
  }

  /** Logs are handed over without gaps, and out of order only when they were already handed over before. */
  ghost predicate InOrder(logs: map<SubID, seq<nat>>, subs: map<SubID, Sub>, pending: seq<Log>, completed: set<Log>) {
    && PendingCovered(logs, subs, pending, completed)
    && OnlyRepeatsGoBack(pending, completed)
    && NextCovered(logs, subs, Got(completed, pending, |pending|))
  }

  ghost predicate PendingCovered(logs: map<SubID, seq<nat>>, subs: map<SubID, Sub>, pending: seq<Log>,
      completed: set<Log>)
  {
    forall k {:trigger pending[k]} :: 0 <= k < |pending| ==>
      && pending[k].sub in subs && pending[k].sub in logs
      && Covers(logs[pending[k].sub], subs[pending[k].sub].filterFrom, pending[k], Got(completed, pending, k))
  }

  ghost predicate OnlyRepeatsGoBack(pending: seq<Log>, completed: set<Log>) {
    forall k, m {:trigger pending[k], pending[m]} ::
      (0 <= k < m < |pending| && pending[k].sub == pending[m].sub && pending[m].index < pending[k].index)
      ==> pending[m] in Got(completed, pending, k)
  }

  ghost predicate NextCovered(logs: map<SubID, seq<nat>>, subs: map<SubID, Sub>, got: set<Log>) {
    forall s {:trigger subs[s]} :: s in subs && s in logs && !subs[s].stale ==>
      Covers(logs[s], subs[s].filterFrom, Log(s, subs[s].next), got)
  }

  /** After a stop, the processor will acknowledge nothing more. */
  ghost predicate Finished(w: System) {
    w.stream.fields.stopped && (w.stream.processor.Idle? || w.stream.processor.Leaving? || w.stream.processor.Gone?)
  }

  ghost predicate Ordered(w: System, pending: seq<Log>) {
    Finished(w) || InOrder(w.logs, w.subs, pending, w.completed)
  }

  /** Whatever is pending or still to be read lies at most one block below the high-water mark. */
  ghost predicate Near(w: System, pending: seq<Log>, t: SubID) {
    forall l: Log {:trigger l in w.completed} ::
      (l.sub == t && Exists(w, l) && t in w.subs && w.subs[t].ready
       && (l in pending || Block(w, l) >= w.subs[t].filterFrom))
      ==> l in w.completed || Block(w, l) + 1 >= w.subs[t].hwm
  }

  /** Whatever is wanted is completed or at or above every height a restart could use. */
  ghost predicate Safe(w: System, t: SubID) {
    forall l: Log {:trigger l in w.completed} :: l.sub == t && Exists(w, l) && Wanted(w, l) && t in w.subs ==>
      l in w.completed || (&& Block(w, l) >= w.subs[t].hwm
                           && Block(w, l) >= Checkpoint(w.loaded, t)
                           && Block(w, l) >= Checkpoint(w.stored, t))
  }

  /** A subscription from "latest" has a mark or a checkpoint above the newest block. */
  predicate Peaks(w: System, t: SubID) {
    && t in w.subs && w.subs[t].from.Latest?
    && (w.subs[t].hwm == w.head + 1 || Checkpoint(w.loaded, t) == w.head + 1 || Checkpoint(w.stored, t) == w.head + 1)
  }

  /** It has one only if that block is completed. */
  ghost predicate NewestDone(w: System, t: SubID) {
    Peaks(w, t) ==>
      forall l: Log {:trigger l in w.completed} ::
        l.sub == t && Exists(w, l) && Block(w, l) == w.head ==> l in w.completed
  }

  ghost predicate InvFor(w: System, pending: seq<Log>, t: SubID) {
    WellFormed(w, pending) && Heights(w) && Ordered(w, pending) && Near(w, pending, t)
  }

  ghost predicate Inv(w: System, t: SubID) {
    InvFor(w, ES.Pending(w.stream), t)
  }

  // ---------- Steps of the chain and of the poller ----------

  lemma MineKeepsBlocks(w: System, counts: map<SubID, nat>)
    ensures var w' := PlainStep(w, Mine(counts)).value;
            && (forall l {:trigger Exists(w', l)} {:trigger Block(w', l)} ::
                  Exists(w', l) ==> Block(w', l) == if Exists(w, l) then Block(w, l) else w'.head)
            && (forall l {:trigger Exists(w, l)} :: Exists(w, l) ==> Exists(w', l))
  {
  }

  lemma MineKeepsOrder(w: System, counts: map<SubID, nat>, pending: seq<Log>)
    requires WellFormed(w, pending) && InOrder(w.logs, w.subs, pending, w.completed)
    ensures InOrder(PlainStep(w, Mine(counts)).value.logs, w.subs, pending, w.completed)
  {
    var w' := PlainStep(w, Mine(counts)).value;
    forall k | 0 <= k < |pending|
      ensures Covers(w'.logs[pending[k].sub], w.subs[pending[k].sub].filterFrom, pending[k],
                     Got(w.completed, pending, k))
    {
      assert Exists(w, pending[k]) by { assert pending[k] in pending; }
    }
  }

  lemma MineKeepsShape(w: System, counts: map<SubID, nat>, pending: seq<Log>)
    requires WellFormed(w, pending)
    ensures WellFormed(PlainStep(w, Mine(counts)).value, pending)
  {
    var w' := PlainStep(w, Mine(counts)).value;
    MineKeepsBlocks(w, counts);
    forall s | s in w.logs ensures Sorted(w'.logs[s]) {
      forall i | 0 <= i < |w.logs[s]| ensures w.logs[s][i] <= w.head {
        assert Exists(w, Log(s, i));
      }
    }
    forall l | Exists(w', l) ensures Block(w', l) <= w'.head {
      assert Exists(w, l) ==> Block(w, l) <= w.head;
    }
  }

  lemma MineKeepsHeights(w: System, counts: map<SubID, nat>, pending: seq<Log>, t: SubID)
    requires InvFor(w, pending, t)
    ensures Heights(PlainStep(w, Mine(counts)).value)
  {
    MineKeepsBlocks(w, counts);
  }

  lemma MineKeepsNear(w: System, counts: map<SubID, nat>, pending: seq<Log>, t: SubID)
    requires InvFor(w, pending, t)
    ensures Near(PlainStep(w, Mine(counts)).value, pending, t)
  {
    MineKeepsBlocks(w, counts);
  }

  lemma MineKeepsInv(w: System, counts: map<SubID, nat>, pending: seq<Log>, t: SubID)
    requires InvFor(w, pending, t)
    ensures InvFor(PlainStep(w, Mine(counts)).value, pending, t)
  {
    MineKeepsShape(w, counts, pending);
    MineKeepsHeights(w, counts, pending, t);
    MineKeepsNear(w, counts, pending, t);
    if !Finished(w) {
      MineKeepsOrder(w, counts, pending);
    }
  }

  lemma MineKeepsSafe(w: System, counts: map<SubID, nat>, pending: seq<Log>, t: SubID)
    requires InvFor(w, pending, t) && Safe(w, t)
    ensures Safe(PlainStep(w, Mine(counts)).value, t)
  {
    MineKeepsBlocks(w, counts);
  }

  lemma StartKeepsWellFormed(w: System, s: SubID, created: bool, pending: seq<Log>)
    requires WellFormed(w, pending) && PlainStep(w, StartFilter(s, created)).Some?
    ensures WellFormed(PlainStep(w, StartFilter(s, created)).value, pending)
  {
    var w' := PlainStep(w, StartFilter(s, created)).value;
    assert forall l {:trigger Block(w', l)} :: Block(w', l) == Block(w, l);
  }

  lemma StartKeepsHeights(w: System, s: SubID, created: bool)
    requires Heights(w) && PlainStep(w, StartFilter(s, created)).Some?
    ensures Heights(PlainStep(w, StartFilter(s, created)).value)
  {
    var w' := PlainStep(w, StartFilter(s, created)).value;
    assert forall l {:trigger Block(w', l)} :: Block(w', l) == Block(w, l);
    assert HeightsOf(w.subs[s], Checkpoint(w.loaded, s), Checkpoint(w.stored, s), w.head);
  }

  /** Since the last crash, a filter never starts below where it started before. */
  lemma StartRaisesFilter(w: System, s: SubID, created: bool)
    requires Heights(w) && PlainStep(w, StartFilter(s, created)).Some?
    ensures w.subs[s].ready ==> w.subs[s].filterFrom <= PlainStep(w, StartFilter(s, created)).value.subs[s].filterFrom
  {
    assert HeightsOf(w.subs[s], Checkpoint(w.loaded, s), Checkpoint(w.stored, s), w.head);
  }

  lemma RaisedFilterKeepsOrder(logs: map<SubID, seq<nat>>, subs: map<SubID, Sub>, s: SubID, sub: Sub,
      pending: seq<Log>, completed: set<Log>)
    requires InOrder(logs, subs, pending, completed) && s in subs && sub.next == 0
    requires forall k :: 0 <= k < |pending| && pending[k].sub == s ==> subs[s].filterFrom <= sub.filterFrom
    ensures InOrder(logs, subs[s := sub], pending, completed)
  {
  }

  lemma StartKeepsOrder(w: System, s: SubID, created: bool, pending: seq<Log>, t: SubID)
    requires InvFor(w, pending, t) && PlainStep(w, StartFilter(s, created)).Some?
    ensures Ordered(PlainStep(w, StartFilter(s, created)).value, pending)
  {
    StartRaisesFilter(w, s, created);
    if !Finished(w) {
      forall k | 0 <= k < |pending| ensures pending[k].sub == s ==> w.subs[s].ready {
        assert pending[k] in pending;
      }
      var sub := Started(w.subs[s], Checkpoint(w.loaded, s), w.head, created);
      RaisedFilterKeepsOrder(w.logs, w.subs, s, sub, pending, w.completed);
    }
  }

  lemma StartKeepsNear(w: System, s: SubID, created: bool, pending: seq<Log>, t: SubID)
    requires InvFor(w, pending, t) && Steady(w, StartFilter(s, created), t)
    requires PlainStep(w, StartFilter(s, created)).Some?
    ensures Near(PlainStep(w, StartFilter(s, created)).value, pending, t)
  {
    var w' := PlainStep(w, StartFilter(s, created)).value;
    assert forall l {:trigger Block(w', l)} :: Block(w', l) == Block(w, l);
    StartRaisesFilter(w, s, created);
    assert HeightsOf(w.subs[s], Checkpoint(w.loaded, s), Checkpoint(w.stored, s), w.head);
  }

  lemma StartKeepsInv(w: System, s: SubID, created: bool, pending: seq<Log>, t: SubID)
    requires InvFor(w, pending, t) && Steady(w, StartFilter(s, created), t)
    requires PlainStep(w, StartFilter(s, created)).Some?
    ensures InvFor(PlainStep(w, StartFilter(s, created)).value, pending, t)
  {
    StartKeepsWellFormed(w, s, created, pending);
    StartKeepsHeights(w, s, created);
    StartKeepsOrder(w, s, created, pending, t);
    StartKeepsNear(w, s, created, pending, t);
  }

  /** What a filter takes into scope, an explicit first block wanted before; and from "latest" it lies at or
      above the checkpoint, or at the head. */
  lemma StartKeepsSafeAt(w: System, s: SubID, created: bool, w': System, l: Log)
    requires Heights(w) && Safe(w, s) && NewestDone(w, s) && Steady(w, StartFilter(s, created), s)
    requires PlainStep(w, StartFilter(s, created)) == Some(w') && Block(w, l) <= w.head
    requires Exists(w, l) && Wanted(w', l) && l.sub == s && l !in w.completed
    ensures Block(w, l) >= w'.subs[s].hwm
    ensures Block(w, l) >= Checkpoint(w.loaded, s) && Block(w, l) >= Checkpoint(w.stored, s)
  {
    assert Block(w', l) == Block(w, l);
    var loaded := Checkpoint(w.loaded, s);
    assert HeightsOf(w.subs[s], loaded, Checkpoint(w.stored, s), w.head);
    if w.subs[s].from.Explicit? {
      assert loaded > 0 ==> w.subs[s].from.height <= loaded;
      assert Wanted(w, l);
    } else if l in w.handed || w.subs[s].ready {
      assert Wanted(w, l);
    } else {
      assert Block(w, l) >= w'.subs[s].filterFrom;
    }
  }

  lemma StartKeepsSafe(w: System, s: SubID, created: bool, pending: seq<Log>, t: SubID)
    requires InvFor(w, pending, t) && Safe(w, t) && NewestDone(w, t)
    requires Steady(w, StartFilter(s, created), t) && PlainStep(w, StartFilter(s, created)).Some?
    ensures Safe(PlainStep(w, StartFilter(s, created)).value, t)
  {
    var w' := PlainStep(w, StartFilter(s, created)).value;
    assert forall l {:trigger Block(w', l)} :: Block(w', l) == Block(w, l);
    if s == t {
      forall l: Log {:trigger l in w'.completed}
        | l.sub == t && Exists(w', l) && Wanted(w', l) && l !in w'.completed
        ensures Block(w, l) >= w'.subs[t].hwm
        ensures Block(w, l) >= Checkpoint(w.loaded, t) && Block(w, l) >= Checkpoint(w.stored, t)
      {
        assert Exists(w, l);
        StartKeepsSafeAt(w, t, created, w', l);
      }
    }
  }

  predicate IsBookkeeping(a: Action) {
    a.LoseFilter? || a.Repeat? || a.Record? || a.Store?
  }

  lemma CheckpointStepKeepsWellFormed(w: System, a: Action, pending: seq<Log>)
    requires WellFormed(w, pending) && PlainStep(w, a).Some? && (a.Record? || a.Store?)
    ensures WellFormed(PlainStep(w, a).value, pending)
  {
    var w' := PlainStep(w, a).value;
    assert forall l {:trigger Block(w', l)} :: Block(w', l) == Block(w, l);
  }

  lemma CheckpointStepKeepsHeights(w: System, a: Action)
    requires Heights(w) && PlainStep(w, a).Some? && (a.Record? || a.Store?)
    requires forall s :: s in w.subs && !w.subs[s].ready ==> w.subs[s].hwm == 0
    ensures Heights(PlainStep(w, a).value)
  {
    var w' := PlainStep(w, a).value;
    assert forall l {:trigger Block(w', l)} :: Block(w', l) == Block(w, l);
    forall s | s in w'.subs
      ensures HeightsOf(w'.subs[s], Checkpoint(w'.loaded, s), Checkpoint(w'.stored, s), w'.head)
    {
      assert HeightsOf(w.subs[s], Checkpoint(w.loaded, s), Checkpoint(w.stored, s), w.head);
    }
  }

  /** The filter's position has no part in the heights. */
  lemma HeightsIgnorePosition(w: System, w': System)
    requires Heights(w) && w'.subs.Keys == w.subs.Keys && w'.logs == w.logs && w'.head == w.head
    requires w'.loaded == w.loaded && w'.stored == w.stored
    requires forall s {:trigger w'.subs[s]} :: s in w.subs ==>
               w'.subs[s] == w.subs[s].(stale := w'.subs[s].stale, next := w'.subs[s].next)
    requires forall l {:trigger l in w'.handed} :: l in w'.handed && l !in w.handed ==>
               l.sub in w.subs && w.subs[l.sub].ready && Block(w, l) >= w.subs[l.sub].filterFrom
    ensures Heights(w')
  {
    forall s | s in w'.subs
      ensures HeightsOf(w'.subs[s], Checkpoint(w'.loaded, s), Checkpoint(w'.stored, s), w'.head)
    {
      assert HeightsOf(w.subs[s], Checkpoint(w.loaded, s), Checkpoint(w.stored, s), w.head);
    }
    forall l | l in w'.handed && l.sub in w'.subs && w'.subs[l.sub].from.Explicit?
      ensures w'.subs[l.sub].from.height <= Block(w', l)
    {
      assert Block(w', l) == Block(w, l);
      assert HeightsOf(w.subs[l.sub], Checkpoint(w.loaded, l.sub), Checkpoint(w.stored, l.sub), w.head);
    }
  }

  lemma FilterStepKeepsHeights(w: System, a: Action)
    requires Heights(w) && PlainStep(w, a).Some? && (a.LoseFilter? || a.Repeat?)
    ensures Heights(PlainStep(w, a).value)
  {
    HeightsIgnorePosition(w, PlainStep(w, a).value);
  }

  lemma FilterStepKeepsWellFormed(w: System, a: Action, pending: seq<Log>)
    requires WellFormed(w, pending) && PlainStep(w, a).Some? && (a.LoseFilter? || a.Repeat?)
    ensures WellFormed(PlainStep(w, a).value, pending)
  {
    var w' := PlainStep(w, a).value;
    assert forall l {:trigger Block(w', l)} :: Block(w', l) == Block(w, l);
  }

  lemma BookkeepingKeepsOrder(w: System, a: Action, pending: seq<Log>)
    requires WellFormed(w, pending) && Ordered(w, pending) && PlainStep(w, a).Some? && IsBookkeeping(a)
    ensures Ordered(PlainStep(w, a).value, pending)
  {
  }

  lemma BookkeepingKeepsNear(w: System, a: Action, pending: seq<Log>, t: SubID)
    requires Near(w, pending, t) && PlainStep(w, a).Some? && IsBookkeeping(a)
    ensures Near(PlainStep(w, a).value, pending, t)
  {
    var w' := PlainStep(w, a).value;
    assert forall l {:trigger Block(w', l)} :: Block(w', l) == Block(w, l);
  }

  lemma BookkeepingKeepsSafe(w: System, a: Action, t: SubID)
    requires Safe(w, t) && PlainStep(w, a).Some?
    requires IsBookkeeping(a)
    ensures Safe(PlainStep(w, a).value, t)
  {
    var w' := PlainStep(w, a).value;
    assert forall l {:trigger Block(w', l)} :: Block(w', l) == Block(w, l);
  }

  lemma CrashKeepsInv(w: System, pending: seq<Log>, t: SubID)
    requires InvFor(w, pending, t)
    ensures InvFor(PlainStep(w, Crash).value, [], t)
  {
    var w' := PlainStep(w, Crash).value;
    assert forall l {:trigger Block(w', l)} :: Block(w', l) == Block(w, l);
  }

  lemma CrashKeepsSafe(w: System, t: SubID)
    requires Safe(w, t)
    ensures Safe(PlainStep(w, Crash).value, t)
  {
    var w' := PlainStep(w, Crash).value;
    assert forall l {:trigger Block(w', l)} :: Block(w', l) == Block(w, l);
  }

  // ---------- Handing a log to the stream ----------

  lemma GotBeforeAppend(completed: set<Log>, pending: seq<Log>, l: Log)
    ensures forall k :: 0 <= k <= |pending| ==> Got(completed, pending + [l], k) == Got(completed, pending, k)
    ensures Got(completed, pending + [l], |pending| + 1) == Got(completed, pending, |pending|) + {l}
  {
    forall k | 0 <= k <= |pending| ensures (pending + [l])[..k] == pending[..k] {}
    assert (pending + [l])[..|pending| + 1] == pending[..|pending|] + [l];
  }

  lemma HandKeepsCovered(logs: map<SubID, seq<nat>>, subs: map<SubID, Sub>, subs': map<SubID, Sub>, pending: seq<Log>,
      completed: set<Log>, l: Log)
    requires PendingCovered(logs, subs, pending, completed) && l.sub in subs && l.sub in logs
    requires Covers(logs[l.sub], subs[l.sub].filterFrom, l, Got(completed, pending, |pending|))
    requires subs'.Keys == subs.Keys
    requires forall s {:trigger subs'[s]} :: s in subs ==> subs'[s].filterFrom == subs[s].filterFrom
    ensures PendingCovered(logs, subs', pending + [l], completed)
  {
    GotBeforeAppend(completed, pending, l);
  }

  lemma HandKeepsRepeats(logs: map<SubID, seq<nat>>, subs: map<SubID, Sub>, pending: seq<Log>,
      completed: set<Log>, l: Log)
    requires PendingCovered(logs, subs, pending, completed) && OnlyRepeatsGoBack(pending, completed)
    requires l.sub in subs && l.sub in logs && l.index < |logs[l.sub]| && logs[l.sub][l.index] >= subs[l.sub].filterFrom
    ensures OnlyRepeatsGoBack(pending + [l], completed)
  {
    GotBeforeAppend(completed, pending, l);
    var pending' := pending + [l];
    forall k | 0 <= k < |pending| && pending[k].sub == l.sub && l.index < pending[k].index
      ensures l in Got(completed, pending, k)
    {
      assert Covers(logs[l.sub], subs[l.sub].filterFrom, pending[k], Got(completed, pending, k));
      assert Log(pending[k].sub, l.index) == l;
    }
  }

  lemma HandKeepsNext(logs: map<SubID, seq<nat>>, subs: map<SubID, Sub>, got: set<Log>, l: Log)
    requires NextCovered(logs, subs, got)
    requires l.sub in subs && l.sub in logs && !subs[l.sub].stale && subs[l.sub].next == l.index
    ensures NextCovered(logs, subs[l.sub := subs[l.sub].(next := l.index + 1)], got + {l})
  {
    var subs' := subs[l.sub := subs[l.sub].(next := l.index + 1)];
    forall t | t in subs' && t in logs && !subs'[t].stale
      ensures Covers(logs[t], subs'[t].filterFrom, Log(t, subs'[t].next), got + {l})
    {
      assert Covers(logs[t], subs[t].filterFrom, Log(t, subs[t].next), got);
    }
  }

  lemma HandKeepsOrder(logs: map<SubID, seq<nat>>, subs: map<SubID, Sub>, pending: seq<Log>,
      completed: set<Log>, s: SubID)
    requires InOrder(logs, subs, pending, completed)
    requires s in subs && s in logs && !subs[s].stale && subs[s].next < |logs[s]|
    requires logs[s][subs[s].next] >= subs[s].filterFrom
    ensures InOrder(logs, subs[s := subs[s].(next := subs[s].next + 1)], pending + [Log(s, subs[s].next)], completed)
  {
    var l := Log(s, subs[s].next);
    var subs' := subs[s := subs[s].(next := l.index + 1)];
    assert PendingCovered(logs, subs', pending + [l], completed) by {
      HandKeepsCovered(logs, subs, subs', pending, completed, l);
    }
    assert OnlyRepeatsGoBack(pending + [l], completed) by { HandKeepsRepeats(logs, subs, pending, completed, l); }
    assert NextCovered(logs, subs', Got(completed, pending + [l], |pending| + 1)) by {
      GotBeforeAppend(completed, pending, l);
      HandKeepsNext(logs, subs, Got(completed, pending, |pending|), l);
    }
  }

  lemma SkipKeepsOrder(logs: map<SubID, seq<nat>>, subs: map<SubID, Sub>, pending: seq<Log>,
      completed: set<Log>, s: SubID)
    requires InOrder(logs, subs, pending, completed)
    requires s in subs && s in logs && !subs[s].stale && subs[s].next < |logs[s]|
    requires logs[s][subs[s].next] < subs[s].filterFrom
    ensures InOrder(logs, subs[s := subs[s].(next := subs[s].next + 1)], pending, completed)
  {
  }

  /** The effect of handing over a log, but for the stream itself. */
  predicate HandedTo(w: System, s: SubID, w': System) {
    HasNext(w, s) && w' == Skipped(w, s).(stream := w'.stream, handed := w.handed + {NextLog(w, s)})
  }

  lemma SkipKeepsWellFormed(w: System, s: SubID, pending: seq<Log>)
    requires WellFormed(w, pending) && HasNext(w, s)
    ensures WellFormed(Skipped(w, s), pending)
  {
    assert forall l {:trigger Block(Skipped(w, s), l)} :: Block(Skipped(w, s), l) == Block(w, l);
  }

  lemma HandKeepsWellFormed(w: System, s: SubID, w': System, pending: seq<Log>)
    requires WellFormed(w, pending) && HandedTo(w, s, w') && !w'.stream.fields.suspended
    ensures WellFormed(w', pending + [NextLog(w, s)])
  {
    assert forall l {:trigger Block(w', l)} :: Block(w', l) == Block(w, l);
    assert Exists(w, NextLog(w, s));
  }

  lemma HandKeepsNear(w: System, s: SubID, w': System, pending: seq<Log>, t: SubID)
    requires Near(w, pending, t) && HandedTo(w, s, w') && Block(w, NextLog(w, s)) >= w.subs[s].filterFrom
    ensures Near(w', pending + [NextLog(w, s)], t)
  {
    assert forall l {:trigger Block(w', l)} :: Block(w', l) == Block(w, l);
  }

  /** What handing over a log does, with the stream's own step reduced to its pending logs. */
  lemma HandedOver(c: ES.Config, w: System, s: SubID, w': System)
    requires Step(c, w, Hand(s)) == Some(w') && Block(w, NextLog(w, s)) >= w.subs[s].filterFrom
    ensures HandedTo(w, s, w') && ES.Pending(w'.stream) == ES.Pending(w.stream) + [NextLog(w, s)]
    ensures !Finished(w) && w'.stream.fields.suspended == w.stream.fields.suspended
  {
    ES.PendingIsAQueue(c, w.stream, ES.Accept(NextLog(w, s)));
  }

  lemma HandKeepsHeights(w: System, s: SubID, w': System)
    requires Heights(w) && HandedTo(w, s, w') && w.subs[s].ready
    requires Block(w, NextLog(w, s)) >= w.subs[s].filterFrom
    ensures Heights(w')
  {
    HeightsIgnorePosition(w, w');
  }

  lemma HandKeepsOrdered(w: System, w': System, s: SubID, pending: seq<Log>)
    requires Ordered(w, pending) && !Finished(w) && HasNext(w, s)
    requires w.logs[s][w.subs[s].next] >= w.subs[s].filterFrom
    requires w'.logs == w.logs && w'.completed == w.completed
    requires w'.subs == w.subs[s := w.subs[s].(next := w.subs[s].next + 1)]
    ensures InOrder(w'.logs, w'.subs, pending + [Log(s, w.subs[s].next)], w'.completed)
  {
    HandKeepsOrder(w.logs, w.subs, pending, w.completed, s);
  }

  lemma HandedFields(w: System, s: SubID, w': System)
    requires HandedTo(w, s, w')
    ensures w'.logs == w.logs && w'.completed == w.completed && NextLog(w, s) == Log(s, w.subs[s].next)
    ensures w'.subs == w.subs[s := w.subs[s].(next := w.subs[s].next + 1)]
  {
  }

  lemma HandKeepsInOrder(w: System, s: SubID, w': System, pending: seq<Log>)
    requires Ordered(w, pending) && !Finished(w) && HandedTo(w, s, w')
    requires Block(w, NextLog(w, s)) >= w.subs[s].filterFrom
    ensures Ordered(w', pending + [NextLog(w, s)])
  {
    HandedFields(w, s, w');
    HandKeepsOrdered(w, w', s, pending);
  }

  lemma HandKeepsInv(w: System, s: SubID, w': System, pending: seq<Log>, t: SubID)
    requires InvFor(w, pending, t) && HandedTo(w, s, w') && !Finished(w) && !w'.stream.fields.suspended
    requires Block(w, NextLog(w, s)) >= w.subs[s].filterFrom
    ensures InvFor(w', pending + [NextLog(w, s)], t)
  {
    HandKeepsWellFormed(w, s, w', pending);
    HandKeepsHeights(w, s, w');
    HandKeepsInOrder(w, s, w', pending);
    HandKeepsNear(w, s, w', pending, t);
  }

  lemma SkipKeepsOrdered(w: System, s: SubID, pending: seq<Log>, t: SubID)
    requires Ordered(w, pending) && Near(w, pending, t) && HasNext(w, s)
    requires Block(w, NextLog(w, s)) < w.subs[s].filterFrom
    ensures Ordered(Skipped(w, s), pending) && Near(Skipped(w, s), pending, t)
  {
    var w' := Skipped(w, s);
    assert forall l {:trigger Block(w', l)} :: Block(w', l) == Block(w, l);
    if !Finished(w) { SkipKeepsOrder(w.logs, w.subs, pending, w.completed, s); }
  }

  lemma SkipKeepsInv(w: System, s: SubID, pending: seq<Log>, t: SubID)
    requires InvFor(w, pending, t) && HasNext(w, s) && Block(w, NextLog(w, s)) < w.subs[s].filterFrom
    ensures InvFor(Skipped(w, s), pending, t)
  {
    SkipKeepsWellFormed(w, s, pending);
    HeightsIgnorePosition(w, Skipped(w, s));
    SkipKeepsOrdered(w, s, pending, t);
  }

  lemma PositionKeepsSafe(w: System, w': System, s: SubID, t: SubID)
    requires Safe(w, t) && HasNext(w, s) && w.subs[s].ready
    requires w' == Skipped(w, s)
             || (HandedTo(w, s, w') && Block(w, NextLog(w, s)) >= w.subs[s].filterFrom)
    ensures Safe(w', t)
  {
    assert forall k {:trigger Block(w', k)} :: Block(w', k) == Block(w, k);
    forall k: Log {:trigger k in w'.completed} | Exists(w', k) && Wanted(w', k) && k.sub in w'.subs
      ensures Wanted(w, k)
    {
    }
  }

  lemma HandKeepsSafe(c: ES.Config, w: System, s: SubID, w': System, t: SubID)
    requires Inv(w, t) && Safe(w, t) && Step(c, w, Hand(s)) == Some(w')
    ensures Safe(w', t)
  {
    if Block(w, NextLog(w, s)) >= w.subs[s].filterFrom { HandedOver(c, w, s, w'); }
    PositionKeepsSafe(w, w', s, t);
  }

  // ---------- Acknowledging a batch ----------

  lemma {:induction false} LastOfIsLast(batch: seq<Log>, s: SubID)
    ensures LastOf(batch, s).None? ==> forall l :: l in batch ==> l.sub != s
    ensures LastOf(batch, s).Some? ==>
              exists k :: 0 <= k < |batch| && batch[k] == LastOf(batch, s).value && batch[k].sub == s
  {
    if batch != [] && batch[|batch|-1].sub != s {
      LastOfIsLast(batch[..|batch|-1], s);
    }
  }

  lemma ReleaseKeepsOrder(logs: map<SubID, seq<nat>>, subs: map<SubID, Sub>, subs': map<SubID, Sub>,
      batch: seq<Log>, rest: seq<Log>, completed: set<Log>)
    requires InOrder(logs, subs, batch + rest, completed)
    requires subs'.Keys == subs.Keys
    requires forall s :: s in subs ==> subs'[s] == subs[s].(hwm := subs'[s].hwm)
    ensures InOrder(logs, subs', rest, completed + Elems(batch))
  {
    var pending, completed' := batch + rest, completed + Elems(batch);
    forall k | 0 <= k <= |rest| ensures Got(completed', rest, k) == Got(completed, pending, |batch| + k) {
      assert pending[..|batch| + k] == batch + rest[..k];
    }
    assert forall k :: 0 <= k < |rest| ==> rest[k] == pending[|batch| + k];
  }

  /** Of what lies below a subscription's last log in the batch, whatever is still wanted is done with. */
  lemma BelowLastIsDone(logs: map<SubID, seq<nat>>, subs: map<SubID, Sub>, batch: seq<Log>, rest: seq<Log>,
      completed: set<Log>, l: Log, last: Log)
    requires InOrder(logs, subs, batch + rest, completed)
    requires LastOf(batch, l.sub) == Some(last) && l.index < last.index
    requires l.sub in logs && l.sub in subs && l.index < |logs[l.sub]|
    requires l in batch + rest || logs[l.sub][l.index] >= subs[l.sub].filterFrom
    ensures l in completed + Elems(batch)
  {
    var pending := batch + rest;
    LastOfIsLast(batch, l.sub);
    var k :| 0 <= k < |batch| && batch[k] == last && batch[k].sub == l.sub;
    assert pending[k] == last;
    assert pending[..k] == batch[..k];
    assert Elems(batch[..k]) <= Elems(batch);
    if l in batch {
    } else if l in rest {
      var m :| 0 <= m < |rest| && rest[m] == l;
      assert pending[|batch| + m] == l;
    } else {
      assert Log(l.sub, l.index) == l;
    }
  }

  lemma AckKeepsNear(w: System, batch: seq<Log>, rest: seq<Log>, w': System, t: SubID)
    requires InvFor(w, batch + rest, t) && InOrder(w.logs, w.subs, batch + rest, w.completed)
    requires AckedTo(w, batch, w')
    ensures Near(w', rest, t)
  {
    forall l: Log {:trigger l in w'.completed} | l.sub == t && Exists(w', l) && t in w'.subs && w'.subs[t].ready
        && (l in rest || Block(w', l) >= w'.subs[l.sub].filterFrom) && l !in w'.completed
      ensures Block(w', l) + 1 >= w'.subs[l.sub].hwm
    {
      assert l in batch + rest || Block(w, l) >= w.subs[l.sub].filterFrom;
      assert l !in w.completed;
      if LastOf(batch, l.sub).Some? {
        var last := LastOf(batch, l.sub).value;
        if l.index < last.index {
          BelowLastIsDone(w.logs, w.subs, batch, rest, w.completed, l, last);
        }
        LastOfIsLast(batch, l.sub);
        assert last in batch + rest;
        assert Exists(w, last) && last.sub == l.sub;
      }
    }
  }

  lemma AckKeepsWellFormed(w: System, batch: seq<Log>, rest: seq<Log>, w': System)
    requires WellFormed(w, batch + rest) && !w'.stream.fields.suspended
    requires AckedTo(w, batch, w')
    ensures WellFormed(w', rest)
  {
    assert forall l {:trigger Block(w', l)} :: Block(w', l) == Block(w, l);
    assert forall l :: l in rest ==> l in batch + rest;
    forall s | s in w'.subs && !w'.subs[s].ready ensures w'.subs[s].hwm == 0 {
      LastOfIsLast(batch, s);
      assert forall l :: l in batch ==> l in batch + rest;
    }
  }

  lemma AckKeepsHeights(w: System, batch: seq<Log>, rest: seq<Log>, w': System)
    requires WellFormed(w, batch + rest) && Heights(w)
    requires AckedTo(w, batch, w')
    ensures Heights(w')
  {
    assert forall l {:trigger Block(w', l)} :: Block(w', l) == Block(w, l);
    forall s | s in w'.subs
      ensures HeightsOf(w'.subs[s], Checkpoint(w'.loaded, s), Checkpoint(w'.stored, s), w'.head)
    {
      assert HeightsOf(w.subs[s], Checkpoint(w.loaded, s), Checkpoint(w.stored, s), w.head);
      LastOfIsLast(batch, s);
      if LastOf(batch, s).Some? {
        var last := LastOf(batch, s).value;
        assert last in batch + rest && last.sub == s;
        assert Exists(w, last);
      }
    }
  }

  lemma SafeAt(w: System, l: Log)
    requires Safe(w, l.sub) && Exists(w, l) && Wanted(w, l) && l.sub in w.subs
    ensures l in w.completed || Block(w, l) >= w.subs[l.sub].hwm
  {
  }

  lemma WholeBlocksKeepSafe(w: System, batch: seq<Log>, rest: seq<Log>, w': System, t: SubID)
    requires InvFor(w, batch + rest, t) && InOrder(w.logs, w.subs, batch + rest, w.completed) && Safe(w, t)
    requires AckedTo(w, batch, w') && EndsOnWholeBlocks(w, batch, t)
    ensures Safe(w', t)
  {
    assert forall l {:trigger Block(w', l)} :: Block(w', l) == Block(w, l);
    forall l: Log {:trigger l in w'.completed}
      | l.sub == t && Exists(w', l) && Wanted(w', l) && t in w'.subs && l !in w'.completed
      ensures Block(w', l) >= w'.subs[t].hwm
    {
      assert l !in w.completed && Wanted(w, l);
      StaysAboveLast(w, batch, rest, l);
    }
  }

  lemma SafeMeansWholeBlocks(w: System, batch: seq<Log>, w': System, t: SubID)
    requires AckedTo(w, batch, w') && Safe(w', t)
    requires forall l :: l in batch ==> Exists(w, l) && l.sub in w.subs
    ensures EndsOnWholeBlocks(w, batch, t)
  {
    assert forall l {:trigger Block(w', l)} :: Block(w', l) == Block(w, l);
    LastOfIsLast(batch, t);
    forall l: Log {:trigger l in w.completed} | l.sub == t && Exists(w, l) && InScope(w, l) && LastOf(batch, t).Some?
        && Block(w, l) == Block(w, LastOf(batch, t).value)
      ensures l in w.completed || l in batch
    {
      SafeAt(w', l);
    }
  }

  /** The heart of at-least-once delivery: acknowledging a batch keeps everything of a subscription recoverable
      exactly when the batch ends on whole blocks of it. */
  lemma AckIsSafeIffBlocksAreWhole(w: System, batch: seq<Log>, rest: seq<Log>, w': System, t: SubID)
    requires InvFor(w, batch + rest, t) && InOrder(w.logs, w.subs, batch + rest, w.completed) && Safe(w, t)
    requires AckedTo(w, batch, w')
    ensures Safe(w', t) <==> EndsOnWholeBlocks(w, batch, t)
  {
    if EndsOnWholeBlocks(w, batch, t) {
      WholeBlocksKeepSafe(w, batch, rest, w', t);
    }
    if Safe(w', t) {
      assert forall l :: l in batch ==> l in batch + rest;
      SafeMeansWholeBlocks(w, batch, w', t);
    }
  }

  lemma StaysAboveLast(w: System, batch: seq<Log>, rest: seq<Log>, l: Log)
    requires InvFor(w, batch + rest, l.sub) && InOrder(w.logs, w.subs, batch + rest, w.completed) && Safe(w, l.sub)
    requires EndsOnWholeBlocks(w, batch, l.sub)
    requires Exists(w, l) && Wanted(w, l) && l.sub in w.subs && l !in w.completed && l !in batch
    ensures LastOf(batch, l.sub).Some? ==> Block(w, l) > Block(w, LastOf(batch, l.sub).value)
    ensures Block(w, l) >= w.subs[l.sub].hwm
  {
    assert HeightsOf(w.subs[l.sub], Checkpoint(w.loaded, l.sub), Checkpoint(w.stored, l.sub), w.head);
    if LastOf(batch, l.sub).Some? {
      var last := LastOf(batch, l.sub).value;
      LastOfIsLast(batch, l.sub);
      assert last in batch + rest && last.sub == l.sub && w.subs[l.sub].ready;
      assert Block(w, l) >= w.subs[l.sub].filterFrom;
      assert Elems(batch) == set b | b in batch;
      if l.index < last.index {
        BelowLastIsDone(w.logs, w.subs, batch, rest, w.completed, l, last);
      }
      assert Exists(w, last);
    }
  }

  lemma AckKeepsNewestDone(w: System, batch: seq<Log>, rest: seq<Log>, w': System, t: SubID)
    requires InvFor(w, batch + rest, t) && NewestDone(w, t) && EndsOnWholeBlocks(w, batch, t) && AckedTo(w, batch, w')
    ensures NewestDone(w', t)
  {
    assert forall l {:trigger Block(w', l)} :: Block(w', l) == Block(w, l);
    if t in w.subs && w.subs[t].from.Latest? && w'.subs[t].hwm == w.head + 1 && w.subs[t].hwm != w.head + 1 {
      assert HeightsOf(w.subs[t], Checkpoint(w.loaded, t), Checkpoint(w.stored, t), w.head);
      LastOfIsLast(batch, t);
      var last := LastOf(batch, t).value;
      assert last in batch + rest && last.sub == t && Exists(w, last);
      forall l: Log {:trigger l in w'.completed} | l.sub == t && Exists(w', l) && Block(w', l) == w.head
        ensures l in w'.completed
      {
        assert InScope(w, l);
        assert l in w.completed || l in batch;
      }
    }
  }

  /** What acknowledging the held batch does. */
  lemma Acknowledged(c: ES.Config, w: System)
    requires Step(c, w, Stream(ES.Callbacks)).Some?
    ensures var w', batch := Step(c, w, Stream(ES.Callbacks)).value, w.stream.processor.batch;
            && AckedTo(w, batch, w')
            && ES.Pending(w.stream) == batch + ES.Pending(w'.stream)
            && !Finished(w) && w'.stream.fields == w.stream.fields
  {
    ES.PendingIsAQueue(c, w.stream, ES.Callbacks);
  }

  lemma AckKeepsOrder(w: System, batch: seq<Log>, rest: seq<Log>, w': System)
    requires InOrder(w.logs, w.subs, batch + rest, w.completed)
    requires AckedTo(w, batch, w')
    ensures Ordered(w', rest)
  {
    ReleaseKeepsOrder(w.logs, w.subs, w'.subs, batch, rest, w.completed);
  }

  lemma AckKeepsInv(w: System, batch: seq<Log>, rest: seq<Log>, w': System, t: SubID)
    requires InvFor(w, batch + rest, t) && !Finished(w) && !w'.stream.fields.suspended
    requires AckedTo(w, batch, w')
    ensures InvFor(w', rest, t)
  {
    AckKeepsWellFormed(w, batch, rest, w');
    AckKeepsHeights(w, batch, rest, w');
    AckKeepsOrder(w, batch, rest, w');
    AckKeepsNear(w, batch, rest, w', t);
  }

  // ---------- Other steps of the stream ----------

  /** What any other step of the stream does: nothing, or drop the held batch because of a stop. */
  lemma StreamMoved(c: ES.Config, w: System, step: ES.Action<Log>)
    requires Step(c, w, Stream(step)).Some? && !step.Callbacks? && !step.Suspend? && !step.Resume?
    requires !w.stream.fields.suspended
    ensures var w' := Step(c, w, Stream(step)).value;
            && w' == w.(stream := w'.stream) && !w'.stream.fields.suspended
            && (ES.Pending(w'.stream) == ES.Pending(w.stream)
                || (Finished(w') && ES.Held(w.stream.processor) != []
                    && ES.Pending(w.stream) == w.stream.processor.batch + ES.Pending(w'.stream)))
            && (Finished(w) ==> Finished(w'))
  {
    ES.PendingIsAQueue(c, w.stream, step);
  }

  lemma MovedKeepsInv(w: System, pending: seq<Log>, w': System, t: SubID)
    requires InvFor(w, pending, t) && w' == w.(stream := w'.stream) && !w'.stream.fields.suspended
    requires Finished(w) ==> Finished(w')
    ensures InvFor(w', pending, t)
  {
    assert forall l {:trigger Block(w', l)} :: Block(w', l) == Block(w, l);
  }

  lemma DropKeepsInv(w: System, batch: seq<Log>, rest: seq<Log>, w': System, t: SubID)
    requires InvFor(w, batch + rest, t) && w' == w.(stream := w'.stream) && !w'.stream.fields.suspended && Finished(w')
    ensures InvFor(w', rest, t)
  {
    assert forall l {:trigger Block(w', l)} :: Block(w', l) == Block(w, l);
    assert forall l :: l in rest ==> l in batch + rest;
  }

  lemma StreamKeepsSafe(c: ES.Config, w: System, step: ES.Action<Log>, t: SubID)
    requires Safe(w, t) && Step(c, w, Stream(step)).Some? && !step.Callbacks?
    ensures Safe(Step(c, w, Stream(step)).value, t)
  {
    var w' := Step(c, w, Stream(step)).value;
    assert forall l {:trigger Block(w', l)} :: Block(w', l) == Block(w, l);
  }

  // ---------- Runs ----------

  lemma BatchIsFirst(c: ES.Config, w: System, batch: seq<Log>, rest: seq<Log>, w': System, t: SubID)
    requires Inv(w, t) && Step(c, w, Stream(ES.Callbacks)) == Some(w')
    requires batch == w.stream.processor.batch && rest == ES.Pending(w'.stream)
    ensures AckedTo(w, batch, w') && InvFor(w, batch + rest, t) && InOrder(w.logs, w.subs, batch + rest, w.completed)
    ensures !Finished(w) && !w'.stream.fields.suspended
  {
    Acknowledged(c, w);
    assert ES.Pending(w.stream) == batch + rest;
    assert InvFor(w, batch + rest, t);
  }

  lemma AckStepKeepsInv(c: ES.Config, w: System, w': System, t: SubID)
    requires Inv(w, t) && Step(c, w, Stream(ES.Callbacks)) == Some(w')
    ensures Inv(w', t)
  {
    BatchIsFirst(c, w, w.stream.processor.batch, ES.Pending(w'.stream), w', t);
    AckKeepsInv(w, w.stream.processor.batch, ES.Pending(w'.stream), w', t);
  }

  lemma MoveStepKeepsInv(w: System, w': System, t: SubID)
    requires Inv(w, t) && w' == w.(stream := w'.stream) && !w'.stream.fields.suspended
    requires ES.Pending(w'.stream) == ES.Pending(w.stream)
             || (Finished(w') && ES.Held(w.stream.processor) != []
                 && ES.Pending(w.stream) == w.stream.processor.batch + ES.Pending(w'.stream))
    requires Finished(w) ==> Finished(w')
    ensures Inv(w', t)
  {
    if ES.Pending(w'.stream) == ES.Pending(w.stream) {
      MovedKeepsInv(w, ES.Pending(w.stream), w', t);
    } else {
      DropKeepsInv(w, w.stream.processor.batch, ES.Pending(w'.stream), w', t);
    }
  }

  lemma StreamKeepsInv(c: ES.Config, w: System, step: ES.Action<Log>, t: SubID)
    requires Inv(w, t) && Steady(w, Stream(step), t) && Step(c, w, Stream(step)).Some?
    ensures Inv(Step(c, w, Stream(step)).value, t)
  {
    if step.Callbacks? {
      AckStepKeepsInv(c, w, Step(c, w, Stream(step)).value, t);
    } else {
      StreamMoved(c, w, step);
      MoveStepKeepsInv(w, Step(c, w, Stream(step)).value, t);
    }
  }

  lemma HandStepKeepsInv(c: ES.Config, w: System, s: SubID, w': System, t: SubID)
    requires Inv(w, t) && Step(c, w, Hand(s)) == Some(w')
    ensures Inv(w', t)
  {
    if Block(w, NextLog(w, s)) < w.subs[s].filterFrom {
      SkipKeepsInv(w, s, ES.Pending(w.stream), t);
    } else {
      HandedOver(c, w, s, w');
      HandKeepsInv(w, s, w', ES.Pending(w.stream), t);
    }
  }

  lemma BookkeepingKeepsInv(w: System, a: Action, t: SubID)
    requires Inv(w, t) && Steady(w, a, t) && PlainStep(w, a).Some? && IsBookkeeping(a)
    ensures Inv(PlainStep(w, a).value, t)
  {
    BookkeepingKeepsOrder(w, a, ES.Pending(w.stream));
    BookkeepingKeepsNear(w, a, ES.Pending(w.stream), t);
    if a.LoseFilter? || a.Repeat? {
      FilterStepKeepsHeights(w, a);
      FilterStepKeepsWellFormed(w, a, ES.Pending(w.stream));
    } else {
      CheckpointStepKeepsWellFormed(w, a, ES.Pending(w.stream));
      CheckpointStepKeepsHeights(w, a);
    }
  }

  lemma StepKeepsInv(c: ES.Config, w: System, a: Action, t: SubID)
    requires Inv(w, t) && Steady(w, a, t) && Step(c, w, a).Some?
    ensures Inv(Step(c, w, a).value, t)
  {
    match a {
      case Mine(counts) => MineKeepsInv(w, counts, ES.Pending(w.stream), t);
      case StartFilter(s, created) => StartKeepsInv(w, s, created, ES.Pending(w.stream), t);
      case Hand(s) => HandStepKeepsInv(c, w, s, Step(c, w, a).value, t);
      case Stream(step) => StreamKeepsInv(c, w, step, t);
      case Crash => CrashKeepsInv(w, ES.Pending(w.stream), t);
      case _ => BookkeepingKeepsInv(w, a, t);
    }
  }

  lemma NoNewPeakKeepsNewestDone(w: System, w': System, t: SubID)
    requires NewestDone(w, t) && w'.logs == w.logs && w'.head == w.head && w.completed <= w'.completed
    requires Peaks(w', t) ==> Peaks(w, t)
    ensures NewestDone(w', t)
  {
    assert forall l {:trigger Block(w', l)} :: Block(w', l) == Block(w, l);
  }

  lemma StreamStepKeepsNewestDone(c: ES.Config, w: System, step: ES.Action<Log>, w': System, t: SubID)
    requires Inv(w, t) && NewestDone(w, t) && Whole(w, Stream(step), t) && Step(c, w, Stream(step)) == Some(w')
    ensures NewestDone(w', t)
  {
    if step.Callbacks? {
      BatchIsFirst(c, w, w.stream.processor.batch, ES.Pending(w'.stream), w', t);
      AckKeepsNewestDone(w, w.stream.processor.batch, ES.Pending(w'.stream), w', t);
    } else {
      NoNewPeakKeepsNewestDone(w, w', t);
    }
  }

  lemma MineKeepsNewestDone(w: System, counts: map<SubID, nat>, t: SubID)
    requires Heights(w)
    ensures NewestDone(PlainStep(w, Mine(counts)).value, t)
  {
    if t in w.subs {
      assert HeightsOf(w.subs[t], Checkpoint(w.loaded, t), Checkpoint(w.stored, t), w.head);
    }
  }

  lemma PollerKeepsNewestDone(w: System, a: Action, w': System, t: SubID)
    requires NewestDone(w, t) && PlainStep(w, a) == Some(w') && !a.Mine? && !a.Stream?
    ensures NewestDone(w', t)
  {
    NoNewPeakKeepsNewestDone(w, w', t);
  }

  lemma HandKeepsNewestDone(c: ES.Config, w: System, s: SubID, w': System, t: SubID)
    requires NewestDone(w, t) && Step(c, w, Hand(s)) == Some(w')
    ensures NewestDone(w', t)
  {
    NoNewPeakKeepsNewestDone(w, w', t);
  }

  lemma StepKeepsNewestDone(c: ES.Config, w: System, a: Action, w': System, t: SubID)
    requires Inv(w, t) && NewestDone(w, t) && Whole(w, a, t) && Step(c, w, a) == Some(w')
    ensures NewestDone(w', t)
  {
    match a
    case Mine(counts) => MineKeepsNewestDone(w, counts, t);
    case Stream(step) => StreamStepKeepsNewestDone(c, w, step, w', t);
    case Hand(s) => HandKeepsNewestDone(c, w, s, w', t);
    case _ => PollerKeepsNewestDone(w, a, w', t);
  }

  lemma AckStepKeepsSafe(c: ES.Config, w: System, w': System, t: SubID)
    requires Inv(w, t) && Safe(w, t) && Step(c, w, Stream(ES.Callbacks)) == Some(w')
    requires EndsOnWholeBlocks(w, w.stream.processor.batch, t)
    ensures Safe(w', t)
  {
    BatchIsFirst(c, w, w.stream.processor.batch, ES.Pending(w'.stream), w', t);
    AckIsSafeIffBlocksAreWhole(w, w.stream.processor.batch, ES.Pending(w'.stream), w', t);
  }

  lemma StreamStepKeepsSafe(c: ES.Config, w: System, step: ES.Action<Log>, w': System, t: SubID)
    requires Inv(w, t) && Safe(w, t) && Whole(w, Stream(step), t) && Step(c, w, Stream(step)) == Some(w')
    ensures Safe(w', t)
  {
    if step.Callbacks? {
      assert w.stream.processor.Calling?;
      AckStepKeepsSafe(c, w, w', t);
    } else {
      StreamKeepsSafe(c, w, step, t);
    }
  }

  lemma StepKeepsSafe(c: ES.Config, w: System, a: Action, t: SubID)
    requires Inv(w, t) && Safe(w, t) && NewestDone(w, t)
    requires Steady(w, a, t) && Whole(w, a, t) && Step(c, w, a).Some?
    ensures Safe(Step(c, w, a).value, t)
  {
    match a {
      case Mine(counts) => MineKeepsSafe(w, counts, ES.Pending(w.stream), t);
      case StartFilter(s, created) => StartKeepsSafe(w, s, created, ES.Pending(w.stream), t);
      case Hand(s) => HandKeepsSafe(c, w, s, Step(c, w, a).value, t);
      case Stream(step) => StreamStepKeepsSafe(c, w, step, Step(c, w, a).value, t);
      case Crash => CrashKeepsSafe(w, t);
      case _ => BookkeepingKeepsSafe(w, a, t);
    }
  }

  lemma {:induction false} RunKeepsInv(c: ES.Config, w: System, actions: seq<Action>, t: SubID)
    requires Inv(w, t) && SteadyRun(c, w, actions, t) && Run(c, w, actions).Some?
    ensures Inv(Run(c, w, actions).value, t)
    decreases |actions|
  {
    if actions != [] {
      StepKeepsInv(c, w, actions[0], t);
      RunKeepsInv(c, Step(c, w, actions[0]).value, actions[1..], t);
    }
  }

  lemma {:induction false} RunKeepsSafe(c: ES.Config, w: System, actions: seq<Action>, t: SubID)
    requires Inv(w, t) && Safe(w, t) && NewestDone(w, t)
    requires SteadyRun(c, w, actions, t) && WholeRun(c, w, actions, t) && Run(c, w, actions).Some?
    ensures var w' := Run(c, w, actions).value; Inv(w', t) && Safe(w', t) && NewestDone(w', t)
    decreases |actions|
  {
    if actions != [] {
      StepKeepsInv(c, w, actions[0], t);
      StepKeepsSafe(c, w, actions[0], t);
      StepKeepsNewestDone(c, w, actions[0], Step(c, w, actions[0]).value, t);
      RunKeepsSafe(c, Step(c, w, actions[0]).value, actions[1..], t);
    }
  }

  ghost predicate ValidChain(head: nat, logs: map<SubID, seq<nat>>, from: map<SubID, FromBlock>) {
    && logs.Keys == from.Keys
    && forall s :: s in logs ==> Sorted(logs[s]) && forall b :: b in logs[s] ==> b <= head
  }

  lemma InitInv(head: nat, logs: map<SubID, seq<nat>>, from: map<SubID, FromBlock>, t: SubID)
    requires ValidChain(head, logs, from)
    ensures var w := Init(head, logs, from); Inv(w, t) && Safe(w, t) && NewestDone(w, t)
  {
    var w := Init(head, logs, from);
    assert ES.Pending(ES.Init<Log>(false)) == [];
    forall l | Exists(w, l) ensures Block(w, l) <= w.head {
      assert Block(w, l) in logs[l.sub];
    }
  }

  /** At least once, over any number of crashes: in a run that is steady for its subscription and whose batches
      end on whole blocks of it, a log that was handed to the stream is in a completed batch, or lies at or above
      the stored checkpoint. The other subscriptions may split blocks, restart and lose what they like. */
  lemma HandedLogsAreCompletedOrRecoverable(c: ES.Config, head: nat, logs: map<SubID, seq<nat>>,
      from: map<SubID, FromBlock>, actions: seq<Action>, l: Log)
    requires ValidChain(head, logs, from)
    requires SteadyRun(c, Init(head, logs, from), actions, l.sub) && WholeRun(c, Init(head, logs, from), actions, l.sub)
    requires Run(c, Init(head, logs, from), actions).Some?
    requires l in Run(c, Init(head, logs, from), actions).value.handed
    ensures var w := Run(c, Init(head, logs, from), actions).value;
            l in w.completed || Block(w, l) >= Checkpoint(w.stored, l.sub)
  {
    InitInv(head, logs, from, l.sub);
    RunKeepsSafe(c, Init(head, logs, from), actions, l.sub);
  }

  lemma SafeLogIsReadAgain(w: System, l: Log)
    requires WellFormed(w, ES.Pending(w.stream)) && Heights(w) && Safe(w, l.sub) && l in w.handed && l !in w.completed
    requires Checkpoint(w.stored, l.sub) > 0 || (l.sub in w.subs && w.subs[l.sub].from.Explicit?)
    ensures var crashed := PlainStep(w, Crash).value;
            && PlainStep(crashed, StartFilter(l.sub, true)).Some?
            && var sub := PlainStep(crashed, StartFilter(l.sub, true)).value.subs[l.sub];
               !sub.stale && sub.next <= l.index && sub.filterFrom <= Block(w, l)
  {
    assert Exists(w, l) && InScope(w, l);
    assert PlainStep(w, Crash).value.subs[l.sub] == Restarted(w.subs[l.sub]);
  }

  /** So when the process restarts, the filter set up again reads it again: it starts at or below the log's
      block, from its first log. */
  lemma RestartReadsAgain(c: ES.Config, head: nat, logs: map<SubID, seq<nat>>,
      from: map<SubID, FromBlock>, actions: seq<Action>, l: Log)
    requires ValidChain(head, logs, from)
    requires SteadyRun(c, Init(head, logs, from), actions, l.sub) && WholeRun(c, Init(head, logs, from), actions, l.sub)
    requires Run(c, Init(head, logs, from), actions).Some?
    requires var w := Run(c, Init(head, logs, from), actions).value;
             && l in w.handed && l !in w.completed
             && (Checkpoint(w.stored, l.sub) > 0 || (l.sub in w.subs && w.subs[l.sub].from.Explicit?))
    ensures var w := Run(c, Init(head, logs, from), actions).value;
            var crashed := PlainStep(w, Crash).value;
            && PlainStep(crashed, StartFilter(l.sub, true)).Some?
            && var sub := PlainStep(crashed, StartFilter(l.sub, true)).value.subs[l.sub];
               !sub.stale && sub.next <= l.index && sub.filterFrom <= Block(w, l)
  {
    InitInv(head, logs, from, l.sub);
    RunKeepsSafe(c, Init(head, logs, from), actions, l.sub);
    SafeLogIsReadAgain(Run(c, Init(head, logs, from), actions).value, l);
  }

  lemma PassedLogIsOnItsWay(w: System, l: Log)
    requires Inv(w, l.sub) && Safe(w, l.sub) && !Finished(w) && l in w.handed && l !in w.completed
    requires l.sub in w.subs && !w.subs[l.sub].stale && l.index < w.subs[l.sub].next
    ensures l in ES.Pending(w.stream)
  {
    var pending := ES.Pending(w.stream);
    assert HeightsOf(w.subs[l.sub], Checkpoint(w.loaded, l.sub), Checkpoint(w.stored, l.sub), w.head);
    assert Exists(w, l) && Wanted(w, l);
    assert Covers(w.logs[l.sub], w.subs[l.sub].filterFrom, Log(l.sub, w.subs[l.sub].next),
                  Got(w.completed, pending, |pending|));
    assert Log(l.sub, l.index) == l && pending[..|pending|] == pending;
  }

  lemma {:induction false} HandedGrows(c: ES.Config, w: System, actions: seq<Action>)
    requires Run(c, w, actions).Some?
    ensures w.handed <= Run(c, w, actions).value.handed
    decreases |actions|
  {
    if actions != [] {
      HandedGrows(c, Step(c, w, actions[0]).value, actions[1..]);
    }
  }

  /** And when it has been read past again, it has been handed to the stream again: a crash leaves nothing
      pending, yet whatever follows, short of a stop, an uncompleted log that the filter has passed is pending. */
  lemma PassedLogIsHandedAgain(c: ES.Config, head: nat, logs: map<SubID, seq<nat>>, from: map<SubID, FromBlock>,
      before: seq<Action>, w: System, crashed: System, later: seq<Action>, w': System, l: Log)
    requires ValidChain(head, logs, from)
    requires SteadyRun(c, Init(head, logs, from), before, l.sub) && WholeRun(c, Init(head, logs, from), before, l.sub)
    requires Run(c, Init(head, logs, from), before) == Some(w) && PlainStep(w, Crash) == Some(crashed)
    requires SteadyRun(c, crashed, later, l.sub) && WholeRun(c, crashed, later, l.sub)
    requires Run(c, crashed, later) == Some(w')
    requires l in w.handed && l !in w'.completed && !Finished(w')
    requires l.sub in w'.subs && !w'.subs[l.sub].stale && l.index < w'.subs[l.sub].next
    ensures ES.Pending(crashed.stream) == [] && l in ES.Pending(w'.stream)
  {
    InitInv(head, logs, from, l.sub);
    RunKeepsSafe(c, Init(head, logs, from), before, l.sub);
    SafeAfterCrash(c, w, crashed, later, w', l.sub);
    PassedLogIsOnItsWay(w', l);
  }

  lemma CrashKeepsAll(w: System, crashed: System, t: SubID)
    requires Inv(w, t) && Safe(w, t) && NewestDone(w, t) && PlainStep(w, Crash) == Some(crashed)
    ensures Inv(crashed, t) && Safe(crashed, t) && NewestDone(crashed, t)
    ensures ES.Pending(crashed.stream) == [] && crashed.handed == w.handed
  {
    CrashKeepsInv(w, ES.Pending(w.stream), t);
    CrashKeepsSafe(w, t);
    NoNewPeakKeepsNewestDone(w, crashed, t);
    assert ES.Pending(crashed.stream) == [];
  }

  lemma SafeAfterCrash(c: ES.Config, w: System, crashed: System, later: seq<Action>, w': System, t: SubID)
    requires Inv(w, t) && Safe(w, t) && NewestDone(w, t) && PlainStep(w, Crash) == Some(crashed)
    requires SteadyRun(c, crashed, later, t) && WholeRun(c, crashed, later, t) && Run(c, crashed, later) == Some(w')
    ensures Inv(w', t) && Safe(w', t) && w.handed <= w'.handed && ES.Pending(crashed.stream) == []
  {
    CrashKeepsAll(w, crashed, t);
    RunKeepsSafe(c, crashed, later, t);
    HandedGrows(c, crashed, later);
  }

  // ---------- What is not recovered ----------

  /** Not completed, not on its way, and below the poller's checkpoint and the filter's first block. */
  ghost predicate Passed(w: System, l: Log) {
    && Exists(w, l) && l.sub in w.subs
    && l !in w.completed && l !in ES.Pending(w.stream)
    && Block(w, l) < Checkpoint(w.loaded, l.sub)
    && (w.subs[l.sub].ready ==> Block(w, l) < w.subs[l.sub].filterFrom)
  }

  /** And below the stored checkpoint: every height a filter is or will be started from. */
  ghost predicate Lost(w: System, l: Log) {
    Passed(w, l) && Block(w, l) < Checkpoint(w.stored, l.sub)
  }

  lemma MineKeepsLost(w: System, counts: map<SubID, nat>, l: Log)
    requires Lost(w, l)
    ensures Lost(PlainStep(w, Mine(counts)).value, l)
  {
    MineKeepsBlocks(w, counts);
  }

  lemma CrashKeepsLost(w: System, l: Log)
    requires Lost(w, l)
    ensures Lost(PlainStep(w, Crash).value, l)
  {
    assert ES.Pending(PlainStep(w, Crash).value.stream) == [];
    assert Block(PlainStep(w, Crash).value, l) == Block(w, l);
  }

  lemma CheckpointStepKeepsLost(w: System, a: Action, l: Log)
    requires Heights(w) && Keeps(w, a, l.sub) && PlainStep(w, a).Some? && Lost(w, l) && (a.Record? || a.Store?)
    ensures Lost(PlainStep(w, a).value, l)
  {
    assert HeightsOf(w.subs[l.sub], Checkpoint(w.loaded, l.sub), Checkpoint(w.stored, l.sub), w.head);
    assert Block(PlainStep(w, a).value, l) == Block(w, l);
  }

  lemma FilterStepKeepsLost(w: System, a: Action, l: Log)
    requires PlainStep(w, a).Some? && Lost(w, l) && (a.StartFilter? || a.LoseFilter? || a.Repeat?)
    ensures Lost(PlainStep(w, a).value, l)
  {
    assert Block(PlainStep(w, a).value, l) == Block(w, l);
  }

  lemma PollerStepKeepsLost(w: System, a: Action, l: Log)
    requires Heights(w) && Keeps(w, a, l.sub) && PlainStep(w, a).Some?
    requires Lost(w, l) && !a.Hand? && !a.Stream?
    ensures Lost(PlainStep(w, a).value, l)
  {
    match a
    case Mine(counts) => MineKeepsLost(w, counts, l);
    case Crash => CrashKeepsLost(w, l);
    case Record(_) => CheckpointStepKeepsLost(w, a, l);
    case Store => CheckpointStepKeepsLost(w, a, l);
    case _ => FilterStepKeepsLost(w, a, l);
  }

  lemma HandKeepsLost(c: ES.Config, w: System, s: SubID, w': System, l: Log)
    requires Lost(w, l) && Step(c, w, Hand(s)) == Some(w')
    requires s in w.subs ==> w.subs[s].ready || w.subs[s].stale
    ensures Lost(w', l)
  {
    if Block(w, NextLog(w, s)) >= w.subs[s].filterFrom {
      HandedOver(c, w, s, w');
    }
    assert Block(w', l) == Block(w, l);
  }

  lemma StreamKeepsLost(c: ES.Config, w: System, step: ES.Action<Log>, l: Log)
    requires Inv(w, l.sub) && Steady(w, Stream(step), l.sub) && Step(c, w, Stream(step)).Some? && Lost(w, l)
    ensures Lost(Step(c, w, Stream(step)).value, l)
  {
    if step.Callbacks? {
      Acknowledged(c, w);
    } else {
      StreamMoved(c, w, step);
    }
  }

  lemma {:induction false} LostForever(c: ES.Config, w: System, actions: seq<Action>, l: Log)
    requires Inv(w, l.sub) && Lost(w, l) && Run(c, w, actions).Some?
    requires SteadyRun(c, w, actions, l.sub) && KeepsRun(c, w, actions, l.sub)
    ensures Lost(Run(c, w, actions).value, l)
    decreases |actions|
  {
    if actions != [] {
      var a := actions[0];
      StepKeepsInv(c, w, a, l.sub);
      if a.Hand? {
        HandKeepsLost(c, w, a.sub, Step(c, w, a).value, l);
      } else if a.Stream? {
        StreamKeepsLost(c, w, a.step, l);
      } else {
        PollerStepKeepsLost(w, a, l);
      }
      LostForever(c, Step(c, w, a).value, actions[1..], l);
    }
  }

  /** A crash loses exactly those uncompleted logs that lie below the stored checkpoint, and for good. */
  lemma CrashLosesWhatIsBelowCheckpoint(w: System, l: Log)
    requires WellFormed(w, ES.Pending(w.stream)) && l in w.handed && l !in w.completed && l.sub in w.subs
    ensures Lost(PlainStep(w, Crash).value, l) <==> Block(w, l) < Checkpoint(w.stored, l.sub)
  {
    assert ES.Pending(PlainStep(w, Crash).value.stream) == [];
  }

  // ---------- Where batches split blocks ----------

  /** The checkpoint in the store is not ahead of the poller's copy. */
  predicate Kept(w: System, t: SubID) {
    Checkpoint(w.stored, t) <= Checkpoint(w.loaded, t)
  }

  lemma StepKeepsKept(c: ES.Config, w: System, a: Action, t: SubID)
    requires Heights(w) && Kept(w, t) && Keeps(w, a, t) && Step(c, w, a).Some?
    ensures Kept(Step(c, w, a).value, t)
  {
    match a
    case Record(s) => assert HeightsOf(w.subs[s], Checkpoint(w.loaded, s), Checkpoint(w.stored, s), w.head);
    case Stream(_) =>
    case Hand(_) =>
    case _ =>
  }

  lemma {:induction false} RunKeepsKept(c: ES.Config, w: System, actions: seq<Action>, t: SubID)
    requires Inv(w, t) && Kept(w, t) && Run(c, w, actions).Some?
    requires SteadyRun(c, w, actions, t) && KeepsRun(c, w, actions, t)
    ensures Kept(Run(c, w, actions).value, t)
    decreases |actions|
  {
    if actions != [] {
      StepKeepsInv(c, w, actions[0], t);
      StepKeepsKept(c, w, actions[0], t);
      RunKeepsKept(c, Step(c, w, actions[0]).value, actions[1..], t);
    }
  }

  lemma NearOrPassed(w: System, l: Log)
    requires Inv(w, l.sub) && l in w.handed && l !in w.completed
    ensures Block(w, l) + 1 >= Checkpoint(w.loaded, l.sub) || Passed(w, l)
  {
    assert Exists(w, l) && l.sub in w.subs;
    assert HeightsOf(w.subs[l.sub], Checkpoint(w.loaded, l.sub), Checkpoint(w.stored, l.sub), w.head);
  }

  /** Even where batches split blocks: a log that was handed over is completed, or lies at most one block below
      the poller's checkpoint, or has been passed. If no positive checkpoint of its subscription was overwritten,
      the same holds for the stored checkpoint, and then what has been passed is lost for good. */
  lemma HandedLogsAreNearOrLost(c: ES.Config, head: nat, logs: map<SubID, seq<nat>>,
      from: map<SubID, FromBlock>, actions: seq<Action>, l: Log)
    requires ValidChain(head, logs, from) && Run(c, Init(head, logs, from), actions).Some?
    requires SteadyRun(c, Init(head, logs, from), actions, l.sub)
    requires l in Run(c, Init(head, logs, from), actions).value.handed
    ensures var w := Run(c, Init(head, logs, from), actions).value;
            l in w.completed || Block(w, l) + 1 >= Checkpoint(w.loaded, l.sub) || Passed(w, l)
    ensures var w := Run(c, Init(head, logs, from), actions).value;
            KeepsRun(c, Init(head, logs, from), actions, l.sub) ==>
              l in w.completed || Block(w, l) + 1 >= Checkpoint(w.stored, l.sub) || Lost(w, l)
  {
    InitInv(head, logs, from, l.sub);
    RunKeepsInv(c, Init(head, logs, from), actions, l.sub);
    var w := Run(c, Init(head, logs, from), actions).value;
    if l !in w.completed {
      NearOrPassed(w, l);
      if KeepsRun(c, Init(head, logs, from), actions, l.sub) {
        RunKeepsKept(c, Init(head, logs, from), actions, l.sub);
      }
    }
  }

  lemma PendingIsNearLoaded(w: System, l: Log)
    requires Inv(w, l.sub) && l in ES.Pending(w.stream) && l !in w.completed
    ensures Block(w, l) + 1 >= Checkpoint(w.loaded, l.sub)
    ensures l in w.handed && !Lost(w, l)
  {
    assert Exists(w, l);
    assert HeightsOf(w.subs[l.sub], Checkpoint(w.loaded, l.sub), Checkpoint(w.stored, l.sub), w.head);
  }

  /** A pending log lies at most one block below the poller's checkpoint, and below the stored one as well if no
      positive checkpoint was overwritten. */
  lemma PendingLogsAreNearCheckpoint(c: ES.Config, head: nat, logs: map<SubID, seq<nat>>,
      from: map<SubID, FromBlock>, actions: seq<Action>, l: Log)
    requires ValidChain(head, logs, from)
    requires SteadyRun(c, Init(head, logs, from), actions, l.sub) && Run(c, Init(head, logs, from), actions).Some?
    requires l in ES.Pending(Run(c, Init(head, logs, from), actions).value.stream)
    ensures var w := Run(c, Init(head, logs, from), actions).value;
            && (l in w.completed || Block(w, l) + 1 >= Checkpoint(w.loaded, l.sub))
            && (KeepsRun(c, Init(head, logs, from), actions, l.sub) ==>
                  l in w.completed || Block(w, l) + 1 >= Checkpoint(w.stored, l.sub))
  {
    InitInv(head, logs, from, l.sub);
    RunKeepsInv(c, Init(head, logs, from), actions, l.sub);
    var w := Run(c, Init(head, logs, from), actions).value;
    if l !in w.completed {
      PendingIsNearLoaded(w, l);
      if KeepsRun(c, Init(head, logs, from), actions, l.sub) {
        HandedLogsAreNearOrLost(c, head, logs, from, actions, l);
      }
    }
  }

  // ---------- A checkpoint that is overwritten ----------

  /** A subscription that is recovered while its stream is blocked is recorded with mark zero before its filter
      is set up. The filter then still reads again what was handed over before if the first block is explicit;
      from "latest" it misses all but the logs of the newest block. */
  lemma OverwrittenCheckpointReadsAgainIff(w: System, l: Log)
    requires Inv(w, l.sub) && l in w.handed && l.sub in w.subs && !w.subs[l.sub].ready
    ensures var recorded := PlainStep(w, Record(l.sub)).value;
            && Checkpoint(recorded.loaded, l.sub) == 0
            && PlainStep(recorded, StartFilter(l.sub, true)).Some?
            && var sub := PlainStep(recorded, StartFilter(l.sub, true)).value.subs[l.sub];
               sub.filterFrom <= Block(w, l) <==> sub.from.Explicit? || Block(w, l) == w.head
  {
    assert Exists(w, l);
  }

  /** A crash, and then a blocked stream until after the first checkpoint. */
  function Overwriting(s: SubID): seq<Action> {
    [Crash, Record(s), Store, StartFilter(s, true), Record(s), Store]
  }

  lemma {:induction false} RunSix(c: ES.Config, w: System, a: seq<Action>, w1: System, w2: System, w3: System,
      w4: System, w5: System, w6: System)
    requires |a| == 6 && Step(c, w, a[0]) == Some(w1) && Step(c, w1, a[1]) == Some(w2) && Step(c, w2, a[2]) == Some(w3)
    requires Step(c, w3, a[3]) == Some(w4) && Step(c, w4, a[4]) == Some(w5) && Step(c, w5, a[5]) == Some(w6)
    ensures Run(c, w, a) == Some(w6)
  {
    assert Run(c, w5, a[5..]) == Some(w6) by { assert a[5..][1..] == []; }
    assert Run(c, w4, a[4..]) == Some(w6) by { assert a[4..][1..] == a[5..]; }
    assert Run(c, w3, a[3..]) == Some(w6) by { assert a[3..][1..] == a[4..]; }
    assert Run(c, w2, a[2..]) == Some(w6) by { assert a[2..][1..] == a[3..]; }
    assert Run(c, w1, a[1..]) == Some(w6) by { assert a[1..][1..] == a[2..]; }
  }

  /** Its first half: the old checkpoint is gone. */
  lemma OverwriteAfterCrash(w: System, s: SubID) returns (w1: System, w2: System, w3: System)
    requires s in w.subs
    ensures PlainStep(w, Crash) == Some(w1) && PlainStep(w1, Record(s)) == Some(w2) && PlainStep(w2, Store) == Some(w3)
    ensures w3.head == w.head && w3.logs == w.logs && w3.completed == w.completed && w3.stream == ES.Init(false)
    ensures s in w3.subs && w3.subs[s] == Restarted(w.subs[s]) && Checkpoint(w3.loaded, s) == 0
  {
    w1 := PlainStep(w, Crash).value;
    w2 := PlainStep(w1, Record(s)).value;
    w3 := PlainStep(w2, Store).value;
  }

  /** Its second half: the mark of the new filter becomes the checkpoint. */
  lemma StartAndRecord(w: System, s: SubID) returns (w1: System, w2: System, w3: System)
    requires s in w.subs && w.subs[s].stale && !w.subs[s].ready && w.subs[s].hwm == 0 && Checkpoint(w.loaded, s) == 0
    ensures PlainStep(w, StartFilter(s, true)) == Some(w1)
    ensures PlainStep(w1, Record(s)) == Some(w2) && PlainStep(w2, Store) == Some(w3)
    ensures w3.logs == w.logs && w3.completed == w.completed && w3.stream == w.stream
    ensures var height := if w.subs[s].from.Latest? then w.head else 0;
            && s in w3.subs && w3.subs[s].ready && Checkpoint(w3.loaded, s) == Checkpoint(w3.stored, s) == height
            && (w.subs[s].from.Latest? ==> w3.subs[s].filterFrom == height)
  {
    w1 := PlainStep(w, StartFilter(s, true)).value;
    w2 := PlainStep(w1, Record(s)).value;
    w3 := PlainStep(w2, Store).value;
  }

  /** Where it ends. */
  lemma OverwritingEnds(c: ES.Config, w: System, s: SubID) returns (w': System)
    requires s in w.subs
    ensures Run(c, w, Overwriting(s)) == Some(w')
    ensures w'.logs == w.logs && w'.completed == w.completed && ES.Pending(w'.stream) == []
    ensures var height := if w.subs[s].from.Latest? then w.head else 0;
            && s in w'.subs && w'.subs[s].ready && Checkpoint(w'.loaded, s) == Checkpoint(w'.stored, s) == height
            && (w.subs[s].from.Latest? ==> w'.subs[s].filterFrom == height)
  {
    var w1, w2, w3 := OverwriteAfterCrash(w, s);
    var w4, w5, w6 := StartAndRecord(w3, s);
    RunSix(c, w, Overwriting(s), w1, w2, w3, w4, w5, w6);
    assert ES.Pending(ES.Init<Log>(false)) == [];
    w' := w6;
  }

  /** So such a crash loses an uncompleted log exactly if its subscription is from "latest" and the log is not in
      the newest block, whatever the checkpoint was. */
  lemma OverwritingLosesIff(c: ES.Config, w: System, l: Log)
    requires WellFormed(w, ES.Pending(w.stream)) && l in w.handed && l !in w.completed && l.sub in w.subs
    ensures Run(c, w, Overwriting(l.sub)).Some?
    ensures Lost(Run(c, w, Overwriting(l.sub)).value, l) <==> w.subs[l.sub].from.Latest? && Block(w, l) < w.head
  {
    var w' := OverwritingEnds(c, w, l.sub);
    assert Exists(w, l) && Block(w', l) == Block(w, l);
  }

  lemma {:induction false} RunAppend(c: ES.Config, w: System, actions: seq<Action>, a: Action, t: SubID)
    requires Run(c, w, actions).Some?
    ensures Run(c, w, actions + [a]) == Step(c, Run(c, w, actions).value, a)
    ensures SteadyRun(c, w, actions, t) && Steady(Run(c, w, actions).value, a, t) ==> SteadyRun(c, w, actions + [a], t)
    ensures KeepsRun(c, w, actions, t) && Keeps(Run(c, w, actions).value, a, t) ==> KeepsRun(c, w, actions + [a], t)
    decreases |actions|
  {
    if actions == [] {
      assert [a][1..] == [];
    } else {
      assert (actions + [a])[1..] == actions[1..] + [a];
      RunAppend(c, Step(c, w, actions[0]).value, actions[1..], a, t);
    }
  }

  lemma AckPassesRest(c: ES.Config, w: System, l: Log, acked: System)
    requires WellFormed(w, ES.Pending(w.stream)) && Step(c, w, Stream(ES.Callbacks)) == Some(acked)
    requires w.stream.processor.Calling?
    requires var batch := w.stream.processor.batch;
             && Exists(w, l) && l.sub in w.subs && LastOf(batch, l.sub).Some?
             && Block(w, l) == Block(w, LastOf(batch, l.sub).value) && l !in w.completed && l !in batch
    ensures l !in acked.completed && Exists(acked, l) && Block(acked, l) == Block(w, l)
    ensures l.sub in acked.subs && acked.subs[l.sub].ready && Block(w, l) < acked.subs[l.sub].hwm
  {
    Acknowledged(c, w);
    LastOfIsLast(w.stream.processor.batch, l.sub);
    assert LastOf(w.stream.processor.batch, l.sub).value in ES.Pending(w.stream);
  }

  lemma CrashLosesWhatIsPassed(w: System, l: Log)
    requires Exists(w, l) && l !in w.completed && l.sub in w.subs && w.subs[l.sub].ready
    requires Block(w, l) < w.subs[l.sub].hwm
    ensures var recorded := PlainStep(w, Record(l.sub)).value;
            var saved := PlainStep(recorded, Store).value;
            Steady(w, Record(l.sub), l.sub) && Lost(PlainStep(saved, Crash).value, l)
  {
    var recorded := PlainStep(w, Record(l.sub)).value;
    var saved := PlainStep(recorded, Store).value;
    assert ES.Pending(PlainStep(saved, Crash).value.stream) == [];
  }

  /** If an acknowledged batch does not end on whole blocks, storing the checkpoint and crashing then loses
      the rest of the block. */
  lemma SplitBlockLosesRest(c: ES.Config, w: System, l: Log, acked: System)
    requires WellFormed(w, ES.Pending(w.stream)) && Step(c, w, Stream(ES.Callbacks)) == Some(acked)
    requires w.stream.processor.Calling?
    requires var batch := w.stream.processor.batch;
             && Exists(w, l) && l.sub in w.subs && LastOf(batch, l.sub).Some?
             && Block(w, l) == Block(w, LastOf(batch, l.sub).value) && l !in w.completed && l !in batch
    ensures l.sub in acked.subs && Steady(acked, Record(l.sub), l.sub)
    ensures var recorded := PlainStep(acked, Record(l.sub)).value;
            var saved := PlainStep(recorded, Store).value;
            Lost(PlainStep(saved, Crash).value, l)
  {
    AckPassesRest(c, w, l, acked);
    CrashLosesWhatIsPassed(acked, l);
  }

  // ---------- Runs that get there ----------

  const ONE := ES.Config(1, ES.Block)

  /** A run of a stream with batch size one, steady and without overwritten checkpoints. */
  ghost predicate Reaches(start: System, done: seq<Action>, w: System) {
    Run(ONE, start, done) == Some(w) && SteadyRun(ONE, start, done, "s") && KeepsRun(ONE, start, done, "s")
  }

  lemma {:induction false} ReachNext(start: System, done: seq<Action>, w: System, a: Action, w': System)
    requires Reaches(start, done, w) && Step(ONE, w, a) == Some(w') && Steady(w, a, "s") && Keeps(w, a, "s")
    ensures Reaches(start, done + [a], w')
  {
    RunAppend(ONE, start, done, a, "s");
  }

  /** A step of the stream alone. */
  lemma {:induction false} StreamNext(start: System, done: seq<Action>, w: System, step: ES.Action<Log>,
      stream': ES.Stream<Log>) returns (done': seq<Action>, w': System)
    requires Reaches(start, done, w) && ES.Step(ONE, w.stream, step) == Some(stream')
    requires !step.Accept? && !step.Callbacks? && !step.Suspend? && !step.Resume?
    ensures w' == w.(stream := stream') && Reaches(start, done', w')
  {
    done', w' := done + [Stream(step)], w.(stream := stream');
    ReachNext(start, done, w, Stream(step), w');
  }

  /** The first log of a stream, at four points of its way: accepted, sent, about to be acknowledged, done. */
  function Accepted(l: Log): ES.Stream<Log> {
    ES.Stream(ES.Fields(false, false, false, false, 0, [], 0), ES.Received([l]), ES.Idle, true,
              ES.History([l], [], {}, {}, {}, {}, []))
  }

  function Sent(l: Log): ES.Stream<Log> {
    ES.Stream(ES.Fields(false, false, false, false, 1, [], 1), ES.Selecting([]), ES.Acting(1, [l], true, false), true,
              ES.History([l], [[l]], {1}, {1}, {}, {}, []))
  }

  function Acking(l: Log): ES.Stream<Log> {
    ES.Stream(ES.Fields(false, false, false, false, 0, [], 1), ES.Selecting([]), ES.Calling(1, [l]), true,
              ES.History([l], [[l]], {1}, {1}, {}, {1}, []))
  }

  function Acked(l: Log): ES.Stream<Log> {
    Acking(l).(processor := ES.Idle, history := Acking(l).history.(acked := [1]))
  }

  /** On the way: dequeued, and after the attempt that succeeded. */
  function Dequeued(l: Log): ES.Stream<Log> {
    Sent(l).(processor := ES.Deciding(1, [l], false), history := ES.History([l], [[l]], {}, {}, {}, {}, []))
  }

  function Processed(l: Log): ES.Stream<Log> {
    Sent(l).(processor := ES.Adjusting(1, [l], true))
  }

  lemma {:induction false} DequeueFirst(start: System, done: seq<Action>, w: System, l: Log)
      returns (done': seq<Action>, w': System)
    requires Reaches(start, done, w) && w.stream == Accepted(l)
    ensures w' == w.(stream := Dequeued(l)) && Reaches(start, done', w')
  {
    var s := Accepted(l);
    assert [] + [[l]] == [[l]] && [[l]][1..] == [];
    done', w' := StreamNext(start, done, w, ES.Count,
                            s.(fields := s.fields.(inFlight := 1, queue := [[l]]), dispatcher := ES.Selecting([])));
    done', w' := StreamNext(start, done', w', ES.Take, Dequeued(l));
  }

  lemma {:induction false} SendFirst(start: System, done: seq<Action>, w: System, l: Log)
      returns (done': seq<Action>, w': System)
    requires Reaches(start, done, w) && w.stream == Dequeued(l)
    ensures w' == w.(stream := Sent(l)) && Reaches(start, done', w')
  {
    var s := Dequeued(l);
    done', w' := StreamNext(start, done, w, ES.Decide, s.(processor := ES.Acting(1, [l], false, false)));
    done', w' := StreamNext(start, done', w', ES.Act, s.(processor := ES.Attempting(1, [l])));
    assert {} + {1} == {1 as nat};
    done', w' := StreamNext(start, done', w', ES.Attempt(true, false), Sent(l));
  }

  lemma {:induction false} ProcessFirst(start: System, done: seq<Action>, w: System, l: Log)
      returns (done': seq<Action>, w': System)
    requires Reaches(start, done, w) && w.stream == Sent(l)
    ensures w' == w.(stream := Processed(l)) && Reaches(start, done', w')
  {
    done', w' := StreamNext(start, done, w, ES.Act, Sent(l).(processor := ES.Deciding(1, [l], true)));
    done', w' := StreamNext(start, done', w', ES.Decide, Processed(l));
  }

  lemma {:induction false} FinishFirst(start: System, done: seq<Action>, w: System, l: Log)
      returns (done': seq<Action>, w': System)
    requires Reaches(start, done, w) && w.stream == Processed(l)
    ensures w' == w.(stream := Acking(l)) && Reaches(start, done', w')
  {
    assert {} + {1} == {1 as nat};
    done', w' := StreamNext(start, done, w, ES.Adjust, Acking(l).(processor := ES.Checking(1, [l])));
    done', w' := StreamNext(start, done', w', ES.Check, Acking(l));
  }

  /** The filter's next log is handed to the stream. */
  lemma {:induction false} HandNext(start: System, done: seq<Action>, w: System, l: Log)
      returns (done': seq<Action>, w': System)
    requires Reaches(start, done, w) && w.stream.dispatcher.Selecting? && !w.stream.fields.stopped
    requires l.sub in w.subs && !w.subs[l.sub].stale && w.subs[l.sub].next == l.index && Exists(w, l)
    requires Block(w, l) >= w.subs[l.sub].filterFrom
    ensures Reaches(start, done', w')
    ensures w' == w.(stream := ES.Step(ONE, w.stream, ES.Accept(l)).value, handed := w.handed + {l},
                     subs := w.subs[l.sub := w.subs[l.sub].(next := l.index + 1)])
  {
    done', w' := done + [Hand(l.sub)], Step(ONE, w, Hand(l.sub)).value;
    ReachNext(start, done, w, Hand(l.sub), w');
  }

  /** An idle new stream delivers the filter's next log and acknowledges it. */
  lemma {:induction false} DeliverFirst(start: System, done: seq<Action>, w: System, l: Log)
      returns (done': seq<Action>, w': System)
    requires Reaches(start, done, w) && w.stream == ES.Init(false)
    requires l.sub in w.subs && !w.subs[l.sub].stale && w.subs[l.sub].next == l.index && Exists(w, l)
    requires Block(w, l) >= w.subs[l.sub].filterFrom
    ensures Reaches(start, done', w')
    ensures w' == w.(stream := Acked(l), handed := w.handed + {l}, completed := w.completed + {l},
                     subs := w.subs[l.sub := w.subs[l.sub].(next := l.index + 1,
                                                            hwm := Raise(w.subs[l.sub].hwm, Block(w, l)))])
  {
    done', w' := HandNext(start, done, w, l);
    assert [] + [l] == [l];
    assert w'.stream == Accepted(l);
    done', w' := SendAndFinish(start, done', w', l);
    done', w' := AckNext(start, done', w', l);
  }

  lemma {:induction false} AckNext(start: System, done: seq<Action>, w: System, l: Log)
      returns (done': seq<Action>, w': System)
    requires Reaches(start, done, w) && w.stream == Acking(l) && l.sub in w.subs
    ensures Reaches(start, done', w')
    ensures w' == w.(stream := Acked(l), completed := w.completed + {l},
                     subs := w.subs[l.sub := w.subs[l.sub].(hwm := Raise(w.subs[l.sub].hwm, Block(w, l)))])
  {
    w' := Step(ONE, w, Stream(ES.Callbacks)).value;
    AckFirst(w, w', l);
    ReachNext(start, done, w, Stream(ES.Callbacks), w');
    done' := done + [Stream(ES.Callbacks)];
  }

  lemma {:induction false} SendAndFinish(start: System, done: seq<Action>, w: System, l: Log)
      returns (done': seq<Action>, w': System)
    requires Reaches(start, done, w) && w.stream == Accepted(l)
    ensures w' == w.(stream := Acking(l)) && Reaches(start, done', w')
  {
    done', w' := DequeueFirst(start, done, w, l);
    done', w' := SendFirst(start, done', w', l);
    done', w' := ProcessFirst(start, done', w', l);
    done', w' := FinishFirst(start, done', w', l);
  }

  lemma AckFirst(w: System, w': System, l: Log)
    requires w.stream == Acking(l) && l.sub in w.subs && Step(ONE, w, Stream(ES.Callbacks)) == Some(w')
    ensures w' == w.(stream := Acked(l), completed := w.completed + {l},
                     subs := w.subs[l.sub := w.subs[l.sub].(hwm := Raise(w.subs[l.sub].hwm, Block(w, l)))])
  {
    assert Elems([l]) == {l} && [] + [1] == [1];
    assert LastOf([l][..0], l.sub) == None;
    forall s | s in w.subs ensures LastOf([l], s) == if s == l.sub then Some(l) else None {
      assert [l][..0] == [];
    }
  }

  // Two logs in block 6, of a subscription with an explicit first block.

  const START := Init(6, map["s" := [6, 6]], map["s" := Explicit(1)])
  const FIRST := Log("s", 0)
  const SECOND := Log("s", 1)
  const THIRD := Log("s", 2)

  /** The first log is acknowledged and the second on its way. */
  lemma {:induction false} ReachSplit() returns (done: seq<Action>, w: System)
    ensures Reaches(START, done, w)
    ensures w.head == 6 && w.logs == map["s" := [6, 6]] && w.subs == map["s" := Sub(Explicit(1), 7, true, false, 1, 2)]
    ensures w.handed == {FIRST, SECOND} && w.completed == {FIRST}
  {
    var w0 := START.(subs := map["s" := Sub(Explicit(1), 0, true, false, 1, 0)]);
    assert w0.subs == START.subs["s" := Started(START.subs["s"], 0, 6, true)];
    assert Reaches(START, [], START);
    ReachNext(START, [], START, StartFilter("s", true), w0);
    done, w := DeliverFirst(START, [] + [StartFilter("s", true)], w0, FIRST);
    done, w := HandNext(START, done, w, SECOND);
  }

  /** The checkpoint is stored, and the process crashes. */
  lemma {:induction false} ReachCrash() returns (done: seq<Action>, w: System)
    ensures Reaches(START, done, w) && Lost(w, SECOND)
    ensures w.logs == map["s" := [6, 6]] && w.subs == map["s" := Sub(Explicit(1), 0, false, true, 0, 0)]
    ensures w.head == 6 && w.handed == {FIRST, SECOND} && w.completed == {FIRST}
    ensures w.stream == ES.Init(false) && w.loaded == w.stored && Checkpoint(w.stored, "s") == 7
  {
    done, w := ReachSplit();
    CrashLosesWhatIsPassed(w, SECOND);
    var recorded := Step(ONE, w, Record("s")).value;
    var saved := Step(ONE, recorded, Store).value;
    ReachNext(START, done, w, Record("s"), recorded);
    ReachNext(START, done + [Record("s")], recorded, Store, saved);
    w := Step(ONE, saved, Crash).value;
    ReachNext(START, done + [Record("s")] + [Store], saved, Crash, w);
    done := done + [Record("s")] + [Store] + [Crash];
  }

  /** It happens: with batch size one, two logs in one block, and a crash between their batches, the second
      log is lost. */
  lemma {:induction false} SplitBlockIsLost()
    ensures exists done, w :: Reaches(START, done, w) && Lost(w, SECOND)
  {
    var done, w := ReachCrash();
  }

  /** A new block, where "s" is the only subscription. */
  lemma MineSole(w: System, before: seq<nat>, counts: map<SubID, nat>, blocks: seq<nat>)
    requires w.logs == map["s" := before] && |blocks| == Checkpoint(counts, "s")
    requires forall i :: 0 <= i < |blocks| ==> blocks[i] == w.head + 1
    ensures Step(ONE, w, Mine(counts)) == Some(w.(head := w.head + 1, logs := map["s" := before + blocks]))
  {
    assert seq(Checkpoint(counts, "s"), _ => w.head + 1) == blocks;
    assert Step(ONE, w, Mine(counts)).value.logs == map["s" := before + blocks];
  }

  /** The filter is set up again, and the next block has a log. */
  lemma {:induction false} ReachMined() returns (done: seq<Action>, w: System)
    ensures Reaches(START, done, w)
    ensures w.logs == map["s" := [6, 6, 7]] && w.subs == map["s" := Sub(Explicit(1), 7, true, false, 7, 0)]
    ensures w.handed == {FIRST, SECOND} && w.completed == {FIRST} && w.stream == ES.Init(false)
  {
    var w0, w1;
    done, w0 := ReachCrash();
    w1 := Step(ONE, w0, StartFilter("s", true)).value;
    ReachNext(START, done, w0, StartFilter("s", true), w1);
    w := Step(ONE, w1, Mine(map["s" := 1])).value;
    MineSole(w1, [6, 6], map["s" := 1], [7]);
    assert [6, 6] + [7] == [6, 6, 7];
    ReachNext(START, done + [StartFilter("s", true)], w1, Mine(map["s" := 1]), w);
    done := done + [StartFilter("s", true)] + [Mine(map["s" := 1])];
  }

  /** The filter passes the two logs below its first block. */
  lemma {:induction false} ReachNextBlock() returns (done: seq<Action>, w: System)
    ensures Reaches(START, done, w)
    ensures w.logs == map["s" := [6, 6, 7]] && w.subs == map["s" := Sub(Explicit(1), 7, true, false, 7, 2)]
    ensures w.handed == {FIRST, SECOND} && w.completed == {FIRST} && w.stream == ES.Init(false)
  {
    var w0, w1;
    done, w0 := ReachMined();
    w1 := w0.(subs := map["s" := Sub(Explicit(1), 7, true, false, 7, 1)]);
    assert w1.subs == w0.subs["s" := w0.subs["s"].(next := 1)] && Block(w0, FIRST) == 6;
    ReachNext(START, done, w0, Hand("s"), w1);
    w := w0.(subs := map["s" := Sub(Explicit(1), 7, true, false, 7, 2)]);
    assert w.subs == w1.subs["s" := w1.subs["s"].(next := 2)] && Block(w1, SECOND) == 6;
    ReachNext(START, done + [Hand("s")], w1, Hand("s"), w);
    done := done + [Hand("s")] + [Hand("s")];
  }

  /** The next block is acknowledged. */
  lemma {:induction false} ReachThird() returns (done: seq<Action>, w: System)
    ensures Reaches(START, done, w) && SECOND in w.handed && SECOND !in w.completed && Block(w, SECOND) == 6
    ensures w.subs == map["s" := Sub(Explicit(1), 8, true, false, 7, 3)]
  {
    done, w := ReachNextBlock();
    assert Block(w, THIRD) == 7;
    done, w := DeliverFirst(START, done, w, THIRD);
  }

  /** And once that is recorded, a log that was handed over lies two blocks below the stored checkpoint. */
  lemma {:induction false} HandedLogFallsBehind()
    ensures exists done, w ::
              && Reaches(START, done, w) && SECOND in w.handed && SECOND !in w.completed
              && Block(w, SECOND) + 1 < Checkpoint(w.stored, "s")
  {
    var done, w := ReachThird();
    var recorded := Step(ONE, w, Record("s")).value;
    ReachNext(START, done, w, Record("s"), recorded);
    var saved := Step(ONE, recorded, Store).value;
    ReachNext(START, done + [Record("s")], recorded, Store, saved);
    assert Reaches(START, done + [Record("s")] + [Store], saved);
  }

  // A subscription from "latest", of which a log was handed over above a positive checkpoint.

  const LATEST := Init(6, map["s" := []], map["s" := Latest])

  lemma {:induction false} ReachLatest() returns (done: seq<Action>, w: System)
    ensures Reaches(LATEST, done, w)
    ensures w.head == 7 && w.logs == map["s" := [7]] && w.subs == map["s" := Sub(Latest, 6, true, false, 6, 0)]
    ensures w.handed == w.completed == {} && w.stream == ES.Init(false) && w.stored == map["s" := 6]
  {
    var w0, w1, w2;
    assert Reaches(LATEST, [], LATEST);
    w0 := Step(ONE, LATEST, StartFilter("s", true)).value;
    ReachNext(LATEST, [], LATEST, StartFilter("s", true), w0);
    done := [] + [StartFilter("s", true)];
    w1 := Step(ONE, w0, Record("s")).value;
    ReachNext(LATEST, done, w0, Record("s"), w1);
    w2 := Step(ONE, w1, Store).value;
    ReachNext(LATEST, done + [Record("s")], w1, Store, w2);
    done := done + [Record("s")] + [Store];
    assert w2.subs == map["s" := Sub(Latest, 6, true, false, 6, 0)];
    w := Step(ONE, w2, Mine(map["s" := 1])).value;
    MineSole(w2, [], map["s" := 1], [7]);
    assert [] + [7] == [7] && w2.stored == map["s" := 6];
    ReachNext(LATEST, done, w2, Mine(map["s" := 1]), w);
    done := done + [Mine(map["s" := 1])];
  }

  lemma {:induction false} ReachLatestHanded() returns (done: seq<Action>, w: System)
    ensures Reaches(LATEST, done, w)
    ensures FIRST in w.handed && FIRST !in w.completed && "s" in w.subs && w.subs["s"].from.Latest?
    ensures Block(w, FIRST) == 7 && w.head == 8 && Checkpoint(w.stored, "s") == 6
  {
    var w0;
    done, w0 := ReachLatest();
    done, w0 := HandNext(LATEST, done, w0, FIRST);
    w := Step(ONE, w0, Mine(map[])).value;
    ReachNext(LATEST, done, w0, Mine(map[]), w);
    done := done + [Mine(map[])];
    MineSole(w0, [7], map[], []);
    assert [7] + [] == [7];
  }

  /** It happens: a positive checkpoint is stored below a log that was handed over, and yet a crash and a zero
      written over the checkpoint lose the log. */
  lemma {:induction false} OverwrittenCheckpointLosesLog()
    ensures exists done, w ::
              && Reaches(LATEST, done, w) && FIRST in w.handed && 0 < Checkpoint(w.stored, "s") <= Block(w, FIRST)
              && Run(ONE, w, Overwriting("s")).Some? && Lost(Run(ONE, w, Overwriting("s")).value, FIRST)
  {
    var done, w := ReachLatestHanded();
    assert Inv(w, "s") by {
      InitInv(6, map["s" := []], map["s" := Latest], "s");
      RunKeepsInv(ONE, LATEST, done, "s");
    }
    OverwritingLosesIff(ONE, w, FIRST);
    assert Reaches(LATEST, done, w);
  }

  /** Before any checkpoint is stored, a block with a log follows the first. */
  lemma {:induction false} ReachUnstoredBlock() returns (done: seq<Action>, w: System)
    ensures Reaches(LATEST, done, w)
    ensures w.head == 7 && w.logs == map["s" := [7]] && w.subs == map["s" := Sub(Latest, 6, true, false, 6, 0)]
    ensures w.handed == w.completed == {} && w.stored == map[] && w.stream == ES.Init(false)
  {
    assert Reaches(LATEST, [], LATEST);
    var w0 := Step(ONE, LATEST, StartFilter("s", true)).value;
    ReachNext(LATEST, [], LATEST, StartFilter("s", true), w0);
    w := Step(ONE, w0, Mine(map["s" := 1])).value;
    MineSole(w0, [], map["s" := 1], [7]);
    assert [] + [7] == [7];
    ReachNext(LATEST, [] + [StartFilter("s", true)], w0, Mine(map["s" := 1]), w);
    done := [] + [StartFilter("s", true)] + [Mine(map["s" := 1])];
  }

  /** The log is handed over, and the next block follows. */
  lemma {:induction false} ReachUnstored() returns (done: seq<Action>, w: System)
    ensures Reaches(LATEST, done, w)
    ensures w.head == 8 && w.logs == map["s" := [7]] && w.handed == {FIRST} && w.completed == {} && w.stored == map[]
    ensures w.subs == map["s" := Sub(Latest, 6, true, false, 6, 1)]
  {
    var w0;
    done, w0 := ReachUnstoredBlock();
    done, w0 := HandNext(LATEST, done, w0, FIRST);
    w := Step(ONE, w0, Mine(map[])).value;
    MineSole(w0, [7], map[], []);
    assert [7] + [] == [7];
    ReachNext(LATEST, done, w0, Mine(map[]), w);
    done := done + [Mine(map[])];
  }

  /** It happens: after a crash, the new filter of a subscription from "latest" misses a log that was handed over. */
  lemma {:induction false} LatestMissesLog()
    ensures exists done, w ::
              && Reaches(LATEST, done, w) && FIRST in w.handed && FIRST !in w.completed && ES.Pending(w.stream) == []
              && Checkpoint(w.stored, "s") == 0 && Step(ONE, w, StartFilter("s", true)).Some?
              && Block(w, FIRST) < Step(ONE, w, StartFilter("s", true)).value.subs["s"].filterFrom
  {
    var done, w := ReachUnstored();
    var crashed := Step(ONE, w, Crash).value;
    ReachNext(LATEST, done, w, Crash, crashed);
    assert Block(crashed, FIRST) == 7 && ES.Pending(crashed.stream) == [];
    assert Reaches(LATEST, done + [Crash], crashed);
  }

  /** A subscription from "latest" that crashes before its first positive checkpoint is stored starts again
      at the new head: of what it had been handed, it reads again only the logs of that very block. */
  lemma LatestWithoutCheckpointStartsAtHead(w: System, l: Log)
    requires WellFormed(w, ES.Pending(w.stream)) && l in w.handed && l.sub in w.subs
    requires w.subs[l.sub].from.Latest? && Checkpoint(w.stored, l.sub) == 0
    ensures var crashed := PlainStep(w, Crash).value;
            && PlainStep(crashed, StartFilter(l.sub, true)).Some?
            && var sub := PlainStep(crashed, StartFilter(l.sub, true)).value.subs[l.sub];
               sub.filterFrom <= Block(w, l) <==> Block(w, l) == w.head
  {
    assert Exists(w, l);
    assert PlainStep(w, Crash).value.subs[l.sub] == Restarted(w.subs[l.sub]);
  }

  // ---------- Reset ----------

  /** What a reset leaves for the next polling cycle: a stale filter, a new first block and no checkpoint. */
  function Reset(w: System, s: SubID, from: FromBlock): System
    requires s in w.subs
  {
    w.(subs := w.subs[s := w.subs[s].(from := from, stale := true)], loaded := w.loaded - {s})
  }

  /** A reset to an explicit block does not lower the high-water mark, so the checkpoint recorded next is
      the old one. A crash then undoes the reset, unless there was no mark or it was at that very block. */
  lemma ResetToBlockSurvivesCrashIff(w: System, s: SubID, height: nat)
    requires s in w.subs && w.subs[s].ready
    ensures var w1 := PlainStep(Reset(w, s, Explicit(height)), StartFilter(s, true)).value;
            w1.subs[s].filterFrom == height
            && var saved := PlainStep(PlainStep(w1, Record(s)).value, Store).value;
               var w2 := PlainStep(PlainStep(saved, Crash).value, StartFilter(s, true)).value;
               && (w2.subs[s].filterFrom == height <==> w.subs[s].hwm == 0 || w.subs[s].hwm == height)
               && (w.subs[s].hwm > 0 ==> w2.subs[s].filterFrom == w.subs[s].hwm)
  {
    var w1 := PlainStep(Reset(w, s, Explicit(height)), StartFilter(s, true)).value;
    var saved := PlainStep(PlainStep(w1, Record(s)).value, Store).value;
    assert Checkpoint(saved.stored, s) == w.subs[s].hwm;
    assert PlainStep(saved, Crash).value.subs[s].stale;
  }

  // ---------- The objects ----------

  /** The high-water mark of a subscription, in the log processor. */
  class LogProcessor {
    var blockHWM: nat

    constructor ()
      ensures blockHWM == 0
    {
      blockHWM := 0;
    }

    /** Called with the subscription's last log of an acknowledged batch. */
    method BatchComplete(block: nat)
      modifies this
      ensures blockHWM == Raise(old(blockHWM), block)
    {
      var next := block + 1;  // restart from the next block
      if next > blockHWM {
        blockHWM := next;
      }
    }

    method InitBlockHWM(height: nat)
      modifies this
      ensures blockHWM == height
    {
      blockHWM := height;
    }
  }

  class Runtime {
    var from: FromBlock
    const lp: LogProcessor
    var filterStale: bool
    var filteredOnce: bool
    var deleting: bool
    var resetRequested: bool
    var filterFrom: nat

    constructor (from: FromBlock)
      ensures fresh(lp) && lp.blockHWM == 0
      ensures this.from == from && filterStale && !filteredOnce && !deleting && !resetRequested
    {
      this.from := from;
      lp := new LogProcessor();
      filterStale, filteredOnce, deleting, resetRequested, filterFrom := true, false, false, false, 0;
    }

    /** The first block to filter from; `head` is the node's answer, if it gives one. */
    method SetInitialBlockHeight(head: Option<nat>) returns (height: Option<nat>)
      modifies lp
      ensures from.Explicit? ==> height == Some(from.height) && lp.blockHWM == old(lp.blockHWM)
      ensures from.Latest? ==> height == head
      ensures from.Latest? ==> lp.blockHWM == if head.Some? then head.value else old(lp.blockHWM)
    {
      match from {
        case Explicit(h) =>
          height := Some(h);
        case Latest =>
          height := head;
          if head.Some? {
            lp.InitBlockHWM(head.value);
          }
      }
    }

    method RestartFilter(since: nat, created: bool)
      modifies this
      ensures filterStale == (if created then false else old(filterStale))
      ensures filterFrom == (if created then since else old(filterFrom))
      ensures from == old(from) && deleting == old(deleting) && resetRequested == old(resetRequested)
    {
      if created {
        filteredOnce := false;
        filterStale := false;
        filterFrom := since;
      }
    }

    /** The poller's handling of a stale filter. It comes to nothing when the node does not tell its head. */
    method Refresh(checkpoint: nat, head: Option<nat>, created: bool) returns (known: bool)
      requires filterStale && !deleting
      modifies this, lp
      ensures known == (checkpoint > 0 || from.Explicit? || head.Some?)
      ensures from == old(from)
      ensures known ==>
                var sub := Started(Sub(old(from), old(lp.blockHWM), true, true, old(filterFrom), 0), checkpoint,
                                   if head.Some? then head.value else 0, created);
                && lp.blockHWM == sub.hwm && filterStale == sub.stale
                && (created ==> filterFrom == sub.filterFrom)
      ensures !known ==> lp.blockHWM == old(lp.blockHWM) && filterStale
    {
      var height: Option<nat>;
      if checkpoint <= 0 {
        height := SetInitialBlockHeight(head);
      } else {
        lp.InitBlockHWM(checkpoint);
        height := Some(checkpoint);
      }
      known := height.Some?;
      if known {
        RestartFilter(height.value, created);
      }
    }

    /** A failed call for new events; `notFound` says that the node no longer knows the filter. */
    method PollFailed(notFound: bool)
      modifies this
      ensures filterStale == (old(filterStale) || notFound)
      ensures from == old(from) && filterFrom == old(filterFrom) && deleting == old(deleting)
    {
      if notFound {
        filterStale := true;
      }
    }

    method Unsubscribe(forDelete: bool)
      modifies this
      ensures filterStale && !resetRequested && deleting == forDelete
      ensures from == old(from) && filterFrom == old(filterFrom) && filteredOnce == old(filteredOnce)
    {
      deleting := forDelete;
      resetRequested := false;
      if !filterStale {
        filterStale := true;
      }
    }

    /** Picked up by the next polling cycle. */
    method RequestReset(from: FromBlock)
      modifies this
      ensures this.from == from && resetRequested
      ensures filterStale == old(filterStale) && filterFrom == old(filterFrom) && deleting == old(deleting)
    {
      this.from := from;
      resetRequested := true;
    }
  }

  /** The end of a polling cycle: every high-water mark goes into the checkpoint, which is stored only if
      that changed anything. */
  method RecordCheckpoint(checkpoint: map<SubID, nat>, subs: seq<SubID>, hwm: map<SubID, nat>)
      returns (updated: map<SubID, nat>, changed: bool)
    requires forall s :: s in subs ==> s in hwm
    ensures forall s :: s in subs ==> s in updated && updated[s] == hwm[s]
    ensures forall s :: s !in subs ==>
              (s in updated <==> s in checkpoint) && (s in updated ==> updated[s] == checkpoint[s])
    ensures changed <==> updated != checkpoint
  {
    updated, changed := checkpoint, false;
    for i := 0 to |subs|
      invariant forall s :: s in subs[..i] ==> s in updated && updated[s] == hwm[s]
      invariant forall s :: s !in subs[..i] ==>
                  (s in updated <==> s in checkpoint) && (s in updated ==> updated[s] == checkpoint[s])
      invariant changed <==> exists s :: s in subs[..i] && (s !in checkpoint || checkpoint[s] != hwm[s])
    {
      var s := subs[i];
      assert subs[..i + 1] == subs[..i] + [s];
      changed := changed || s !in updated || updated[s] != hwm[s];
      updated := updated[s := hwm[s]];
    }
    assert subs[..|subs|] == subs;
  }
}
