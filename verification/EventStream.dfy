/** Batching, acknowledgement, suspend and resume of one event stream
    (internal/maidenlaneevents/eventstream.go).

    Three goroutines share the stream: the poller, the dispatcher that forms batches, and the processor
    that performs the webhook action for each batch. Each step below is one lock-protected section or one
    read of the shared flags, so suspend, stop and resume can fall between any two of them. */
module EventStream {
  import opened Wrappers

  datatype ErrorHandling = Block | Skip

  datatype Config = Config(batchSize: nat, errorHandling: ErrorHandling)

  ghost predicate ValidConfig(c: Config) {
    c.batchSize >= 1  // normalisation of the specification guarantees this
  }

  // ---------- State ----------

  /** The fields of the stream that its goroutines share. */
  datatype Fields<E> = Fields(
    stopped: bool,
    suspended: bool,
    processorDone: bool,
    pollerDone: bool,
    inFlight: int,
    queue: seq<seq<E>>,
    batchCount: nat)

  /** Where the dispatcher is, with its partial batch. */
  datatype Dispatcher<E> =
    | Selecting(current: seq<E>)  // waiting for an event, the batch timeout or the end of the channel
    | Received(current: seq<E>)   // an event was appended, and is not yet counted
    | TimedOut(current: seq<E>)   // the batch timeout fired
    | Closed(current: seq<E>)     // the channel was closed

  /** Where the processor is. `num` is the batch number. */
  datatype Processor<E> =
    | Idle                                                              // waiting for a batch
    | Deciding(num: nat, batch: seq<E>, processed: bool)                // loop condition of processBatch
    | Acting(num: nat, batch: seq<E>, complete: bool, failed: bool)     // loop condition of performActionWithRetry
    | Attempting(num: nat, batch: seq<E>)                               // during a webhook attempt
    | Adjusting(num: nat, batch: seq<E>, processed: bool)               // about to adjust the in-flight count
    | Checking(num: nat, batch: seq<E>)                                 // about to check for suspension
    | Calling(num: nat, batch: seq<E>)                                  // running the batchComplete callbacks
    | Leaving                                                           // returning, flag not yet set
    | Gone

  /** What has happened so far. Batch number k is dequeued[k - 1]. */
  datatype History<E> = History(
    accepted: seq<E>,
    dequeued: seq<seq<E>>,
    attempted: set<nat>,   // batches with a webhook attempt
    succeeded: set<nat>,   // batches with a successful webhook attempt
    expired: set<nat>,     // batches with a failed webhook attempt that left no time for another
    processed: set<nat>,   // batches subtracted from the in-flight count
    acked: seq<nat>)       // batches whose callbacks have run, in order

  datatype Stream<E> = Stream(
    fields: Fields<E>, dispatcher: Dispatcher<E>, processor: Processor<E>, polling: bool, history: History<E>)

  function Init<E>(suspended: bool): Stream<E> {
    Stream(Fields(false, suspended, false, false, 0, [], 0), Selecting([]), Idle, true,
           History([], [], {}, {}, {}, {}, []))
  }

  // ---------- Lock-protected sections ----------

  predicate Stalled<E>(f: Fields<E>) {
    f.suspended || f.stopped
  }

  predicate Blocked<E>(c: Config, f: Fields<E>) {
    f.inFlight >= c.batchSize
  }

  function CountEvent<E>(c: Config, f: Fields<E>, current: seq<E>): Fields<E> {
    if |current| == c.batchSize then f.(inFlight := f.inFlight + 1, queue := f.queue + [current])
    else f.(inFlight := f.inFlight + 1)
  }

  function PushBatch<E>(f: Fields<E>, current: seq<E>): Fields<E> {
    f.(queue := f.queue + [current])
  }

  function TakeBatch<E>(f: Fields<E>): Fields<E>
    requires f.queue != []
  {
    f.(queue := f.queue[1..], batchCount := f.batchCount + 1)
  }

  /** The count is an unsigned 64-bit number, so subtracting too much would wrap around. */
  function FinishBatch<E>(f: Fields<E>, size: nat): Fields<E> {
    f.(inFlight := if size <= f.inFlight then f.inFlight - size else f.inFlight - size + 0x1_0000_0000_0000_0000)
  }

  predicate CanResume<E>(f: Fields<E>) {
    f.processorDone && f.pollerDone
  }

  function Resumed<E>(f: Fields<E>): Fields<E> {
    f.(suspended := false, processorDone := false, pollerDone := false)
  }

  // ---------- Steps ----------

  datatype Action<E> =
    | Accept(event: E) | Count | Timeout | Flush | SeeClosed          // dispatcher
    | Take | Decide | Act | Attempt(ok: bool, outOfTime: bool)        // processor
    | Adjust | Check | Callbacks | Leave
    | PollerLeave                                                     // poller
    | Suspend | Resume | Stop                                         // control

  /** One step, or None when it is not possible in this state. */
  function Step<E>(c: Config, s: Stream<E>, a: Action<E>): Option<Stream<E>> {
    var f, h := s.fields, s.history;
    match a
    case Accept(e) =>
      if s.dispatcher.Selecting? && !f.stopped then
        Some(s.(dispatcher := Received(s.dispatcher.current + [e]), history := h.(accepted := h.accepted + [e])))
      else None
    case Count =>
      if s.dispatcher.Received? then
        var current := s.dispatcher.current;
        Some(s.(fields := CountEvent(c, f, current),
                dispatcher := Selecting(if |current| == c.batchSize then [] else current)))
      else None
    case Timeout =>
      if s.dispatcher.Selecting? && s.dispatcher.current != [] then
        Some(s.(dispatcher := TimedOut(s.dispatcher.current)))
      else None
    case Flush =>
      if s.dispatcher.TimedOut? then
        Some(s.(fields := PushBatch(f, s.dispatcher.current), dispatcher := Selecting([])))
      else None
    case SeeClosed =>
      if s.dispatcher.Selecting? && f.stopped then Some(s.(dispatcher := Closed(s.dispatcher.current))) else None
    case Take =>
      if !s.processor.Idle? then None
      else if Stalled(f) then Some(s.(processor := Leaving))
      else if f.queue == [] then None
      else
        var batch := f.queue[0];
        Some(s.(fields := TakeBatch(f),
                processor := if batch == [] then Idle else Deciding(f.batchCount + 1, batch, false),
                history := h.(dequeued := h.dequeued + [batch])))
    case Decide =>
      (match s.processor
       case Deciding(num, batch, processed) =>
         Some(s.(processor := if !Stalled(f) && !processed then Acting(num, batch, false, false)
                              else Adjusting(num, batch, processed)))
       case _ => None)
    case Act =>
      (match s.processor
       case Acting(num, batch, complete, failed) =>
         Some(s.(processor := if !Stalled(f) && !complete then Attempting(num, batch)
                              else Deciding(num, batch, !failed || c.errorHandling == Skip)))
       case _ => None)
    case Attempt(ok, outOfTime) =>
      (match s.processor
       case Attempting(num, batch) =>
         Some(s.(processor := Acting(num, batch, ok || outOfTime, !ok),
                 history := h.(attempted := h.attempted + {num},
                               succeeded := if ok then h.succeeded + {num} else h.succeeded,
                               expired := if !ok && outOfTime then h.expired + {num} else h.expired)))
       case _ => None)
    case Adjust =>
      (match s.processor
       case Adjusting(num, batch, processed) =>
         Some(s.(fields := if processed then FinishBatch(f, |batch|) else f,
                 processor := Checking(num, batch),
                 history := if processed then h.(processed := h.processed + {num}) else h))
       case _ => None)
    case Check =>
      (match s.processor
       case Checking(num, batch) => Some(s.(processor := if Stalled(f) then Idle else Calling(num, batch)))
       case _ => None)
    case Callbacks =>
      (match s.processor
       case Calling(num, batch) => Some(s.(processor := Idle, history := h.(acked := h.acked + [num])))
       case _ => None)
    case Leave =>
      if s.processor.Leaving? then Some(s.(fields := f.(processorDone := true), processor := Gone)) else None
    case PollerLeave =>
      if s.polling && Stalled(f) then Some(s.(fields := f.(pollerDone := true), polling := false)) else None
    case Suspend => Some(s.(fields := f.(suspended := true)))
    case Stop => if f.stopped then None else Some(s.(fields := f.(stopped := true)))
    case Resume =>
      if CanResume(f) then Some(s.(fields := Resumed(f), processor := Idle, polling := true))
      else Some(s)  // refused with an error
  }

  function Run<E>(c: Config, s: Stream<E>, actions: seq<Action<E>>): Option<Stream<E>>
    decreases |actions|
  {
    if actions == [] then Some(s)
    else match Step(c, s, actions[0])
      case None => None
      case Some(s') => Run(c, s', actions[1..])
  }

  // ---------- Conservation of events ----------

  function Flatten<E>(batches: seq<seq<E>>): seq<E> {
    if batches == [] then [] else batches[0] + Flatten(batches[1..])
  }

  lemma {:induction false} FlattenAppend<E>(batches: seq<seq<E>>, batch: seq<E>)
    ensures Flatten(batches + [batch]) == Flatten(batches) + batch
  {
    if batches == [] {
      assert [batch][1..] == [];
    } else {
      assert (batches + [batch])[1..] == batches[1..] + [batch];
      FlattenAppend(batches[1..], batch);
    }
  }

  /** The events of the batches whose numbers are not in `done`. */
  function Outstanding<E>(batches: seq<seq<E>>, done: set<nat>): nat {
    if batches == [] then 0
    else Outstanding(batches[..|batches|-1], done) + if |batches| in done then 0 else |batches[|batches|-1]|
  }

  lemma {:induction false} OutstandingIgnoresLater<E>(batches: seq<seq<E>>, done: set<nat>, num: nat)
    requires num > |batches|
    ensures Outstanding(batches, done + {num}) == Outstanding(batches, done)
  {
    if batches != [] {
      OutstandingIgnoresLater(batches[..|batches|-1], done, num);
    }
  }

  lemma OutstandingAppend<E>(batches: seq<seq<E>>, batch: seq<E>, done: set<nat>)
    ensures Outstanding(batches + [batch], done) ==
            Outstanding(batches, done) + if |batches| + 1 in done then 0 else |batch|
  {
    assert (batches + [batch])[..|batches|] == batches;
  }

  /** The batch the processor is working on, if any. */
  function Held<E>(p: Processor<E>): seq<seq<E>> {
    match p
    case Deciding(_, batch, _) => [batch]
    case Acting(_, batch, _, _) => [batch]
    case Attempting(_, batch) => [batch]
    case Adjusting(_, batch, _) => [batch]
    case Checking(_, batch) => [batch]
    case Calling(_, batch) => [batch]
    case _ => []
  }

  predicate Unadjusted<E>(p: Processor<E>) {
    p.Deciding? || p.Acting? || p.Attempting? || p.Adjusting?
  }

  /** The events of batches that were dequeued and dropped without being subtracted. */
  function Abandoned<E>(s: Stream<E>): nat {
    var d := s.history.dequeued;
    Outstanding(if Unadjusted(s.processor) && d != [] then d[..|d|-1] else d, s.history.processed)
  }

  /** How many events a step drops: those of a batch that leaves the retry loop without having been processed. */
  function Drop<E>(s: Stream<E>, a: Action<E>): nat {
    if a.Adjust? && s.processor.Adjusting? && !s.processor.processed then |s.processor.batch| else 0
  }

  /** And all the steps of a run. */
  function Dropped<E>(c: Config, s: Stream<E>, actions: seq<Action<E>>): nat
    requires Run(c, s, actions).Some?
    decreases |actions|
  {
    if actions == [] then 0
    else Drop(s, actions[0]) + Dropped(c, Step(c, s, actions[0]).value, actions[1..])
  }

  ghost predicate GoodBatch<E>(c: Config, batch: seq<E>) {
    1 <= |batch| <= c.batchSize
  }

  /** Every accepted event is in exactly one place, in order, and is counted until its batch is processed. */
  ghost predicate Accounted<E>(c: Config, accepted: seq<E>, dequeued: seq<seq<E>>, processed: set<nat>,
      queue: seq<seq<E>>, d: Dispatcher<E>, inFlight: int)
  {
    && accepted == Flatten(dequeued) + Flatten(queue) + d.current
    && (forall b :: b in dequeued ==> GoodBatch(c, b))
    && (forall b :: b in queue ==> GoodBatch(c, b))
    && (d.Received? || d.TimedOut? ==> GoodBatch(c, d.current))
    && (!d.Received? ==> |d.current| < c.batchSize)
    && inFlight == Outstanding(dequeued, processed) + |Flatten(queue)| + |d.current| - if d.Received? then 1 else 0
  }

  /** The processor works on the batch dequeued last. */
  ghost predicate HoldsLatest<E>(p: Processor<E>, dequeued: seq<seq<E>>, processed: set<nat>) {
    && (forall k :: k in processed ==> 1 <= k <= |dequeued|)
    && (Held(p) != [] ==>
          && p.num == |dequeued| >= 1
          && p.batch == dequeued[|dequeued|-1]
          && (Unadjusted(p) ==> p.num !in processed))
  }

  ghost predicate Conserved<E>(c: Config, s: Stream<E>) {
    var f, h := s.fields, s.history;
    && Accounted(c, h.accepted, h.dequeued, h.processed, f.queue, s.dispatcher, f.inFlight)
    && HoldsLatest(s.processor, h.dequeued, h.processed)
    && f.batchCount == |h.dequeued|
  }

  lemma {:induction false} CountConserves<E>(c: Config, s: Stream<E>)
    requires ValidConfig(c) && Conserved(c, s) && Step(c, s, Count).Some?
    ensures Conserved(c, Step(c, s, Count).value)
    ensures Abandoned(Step(c, s, Count).value) == Abandoned(s)
  {
    var current := s.dispatcher.current;
    if |current| == c.batchSize {
      FlattenAppend(s.fields.queue, current);
      Reassociate(Flatten(s.history.dequeued), Flatten(s.fields.queue), current);
    }
  }

  lemma Reassociate<E>(a: seq<E>, b: seq<E>, d: seq<E>)
    ensures a + b + d == a + (b + d) + []
  {
  }

  lemma {:induction false} FlushConserves<E>(c: Config, s: Stream<E>)
    requires ValidConfig(c) && Conserved(c, s) && Step(c, s, Flush).Some?
    ensures Conserved(c, Step(c, s, Flush).value)
    ensures Abandoned(Step(c, s, Flush).value) == Abandoned(s)
  {
    var current := s.dispatcher.current;
    FlattenAppend(s.fields.queue, current);
    Reassociate(Flatten(s.history.dequeued), Flatten(s.fields.queue), current);
  }

  /** Steps that move the processor, but no event. */
  lemma {:induction false} ProcessorMoveConserves<E>(c: Config, s: Stream<E>, a: Action<E>)
    requires ValidConfig(c) && Conserved(c, s) && Step(c, s, a).Some?
    requires a.Decide? || a.Act? || a.Attempt? || a.Check? || a.Callbacks? || a.Leave?
    ensures Conserved(c, Step(c, s, a).value)
    ensures Abandoned(Step(c, s, a).value) == Abandoned(s)
  {
    var s' := Step(c, s, a).value;
    assert s'.history.dequeued == s.history.dequeued && s'.history.processed == s.history.processed;
  }

  /** Steps that move the dispatcher, the poller or a flag, but no event. */
  lemma {:induction false} DispatcherMoveConserves<E>(c: Config, s: Stream<E>, a: Action<E>)
    requires ValidConfig(c) && Conserved(c, s) && Step(c, s, a).Some? && (a.Timeout? || a.SeeClosed?)
    ensures Conserved(c, Step(c, s, a).value)
    ensures Abandoned(Step(c, s, a).value) == Abandoned(s)
  {
  }

  lemma {:induction false} FlagMoveConserves<E>(c: Config, s: Stream<E>, a: Action<E>)
    requires ValidConfig(c) && Conserved(c, s) && Step(c, s, a).Some? && (a.PollerLeave? || a.Suspend? || a.Stop?)
    ensures Conserved(c, Step(c, s, a).value)
    ensures Abandoned(Step(c, s, a).value) == Abandoned(s)
  {
  }

  lemma {:induction false} ResumeConserves<E>(c: Config, s: Stream<E>)
    requires ValidConfig(c) && Conserved(c, s) && Step(c, s, Resume).Some?
    ensures Conserved(c, Step(c, s, Resume).value)
    ensures Abandoned(s) <= Abandoned(Step(c, s, Resume).value)
    ensures s.processor.Gone? ==> Abandoned(Step(c, s, Resume).value) == Abandoned(s)
  {
  }

  lemma {:induction false} AcceptConserves<E>(c: Config, s: Stream<E>, e: E)
    requires ValidConfig(c) && Conserved(c, s) && Step(c, s, Accept(e)).Some?
    ensures Conserved(c, Step(c, s, Accept(e)).value)
    ensures Abandoned(Step(c, s, Accept(e)).value) == Abandoned(s)
  {
  }

  lemma MoveBatch<E>(dequeued: seq<seq<E>>, queue: seq<seq<E>>)
    requires queue != []
    ensures Flatten(dequeued + [queue[0]]) + Flatten(queue[1..]) == Flatten(dequeued) + Flatten(queue)
  {
    FlattenAppend(dequeued, queue[0]);
  }

  lemma {:induction false} TakeConserves<E>(c: Config, s: Stream<E>)
    requires ValidConfig(c) && Conserved(c, s) && Step(c, s, Take).Some?
    ensures Conserved(c, Step(c, s, Take).value)
    ensures Abandoned(Step(c, s, Take).value) == Abandoned(s)
  {
    var f, h := s.fields, s.history;
    if !Stalled(f) {
      var batch := f.queue[0];
      assert batch in f.queue;
      OutstandingAppend(h.dequeued, batch, h.processed);
      assert (h.dequeued + [batch])[..|h.dequeued|] == h.dequeued;
      MoveBatch(h.dequeued, f.queue);
    }
  }

  lemma {:induction false} AdjustConserves<E>(c: Config, s: Stream<E>)
    requires Conserved(c, s) && Step(c, s, Adjust).Some?
    ensures Conserved(c, Step(c, s, Adjust).value)
    ensures Abandoned(Step(c, s, Adjust).value) == Abandoned(s) + Drop(s, Adjust)
  {
    var d := s.history.dequeued;
    OutstandingIgnoresLater(d[..|d|-1], s.history.processed, |d|);
    assert Outstanding(d, s.history.processed) == Outstanding(d[..|d|-1], s.history.processed) + |s.processor.batch|;
    assert Outstanding(d, s.history.processed + {|d|}) == Outstanding(d[..|d|-1], s.history.processed);
  }

  lemma {:induction false} StepConserves<E>(c: Config, s: Stream<E>, a: Action<E>)
    requires ValidConfig(c) && Conserved(c, s) && Step(c, s, a).Some?
    ensures Conserved(c, Step(c, s, a).value)
    ensures Abandoned(s) <= Abandoned(Step(c, s, a).value)
    ensures !a.Resume? || s.processor.Gone? ==> Abandoned(Step(c, s, a).value) == Abandoned(s) + Drop(s, a)
  {
    match a {
      case Accept(e) => AcceptConserves(c, s, e);
      case Count => CountConserves(c, s);
      case Flush => FlushConserves(c, s);
      case Take => TakeConserves(c, s);
      case Adjust => AdjustConserves(c, s);
      case Timeout => DispatcherMoveConserves(c, s, a);
      case SeeClosed => DispatcherMoveConserves(c, s, a);
      case PollerLeave => FlagMoveConserves(c, s, a);
      case Suspend => FlagMoveConserves(c, s, a);
      case Stop => FlagMoveConserves(c, s, a);
      case Resume => ResumeConserves(c, s);
      case _ => ProcessorMoveConserves(c, s, a);
    }
  }

  lemma {:induction false} RunConserves<E>(c: Config, s: Stream<E>, actions: seq<Action<E>>)
    requires ValidConfig(c) && Conserved(c, s) && Run(c, s, actions).Some?
    ensures Conserved(c, Run(c, s, actions).value)
    ensures Abandoned(s) <= Abandoned(Run(c, s, actions).value)
    decreases |actions|
  {
    if actions != [] {
      StepConserves(c, s, actions[0]);
      RunConserves(c, Step(c, s, actions[0]).value, actions[1..]);
    }
  }

  lemma InitConserved<E>(c: Config, suspended: bool)
    requires ValidConfig(c)
    ensures Conserved(c, Init<E>(suspended))
  {
  }

  /** Nothing is lost, duplicated or reordered between the channel and the processor; every batch has
      between one and batchSize events; and the in-flight count is exactly what was accepted and counted,
      less the batches processed, so it never wraps below zero. */
  lemma EventsAreConserved<E>(c: Config, suspended: bool, actions: seq<Action<E>>)
    requires ValidConfig(c) && Run(c, Init<E>(suspended), actions).Some?
    ensures var s := Run(c, Init<E>(suspended), actions).value;
            var h := s.history;
            && h.accepted == Flatten(h.dequeued) + Flatten(s.fields.queue) + s.dispatcher.current
            && (forall b :: b in h.dequeued || b in s.fields.queue ==> 1 <= |b| <= c.batchSize)
            && 0 <= s.fields.inFlight
            && s.fields.inFlight == |h.accepted| - (if s.dispatcher.Received? then 1 else 0)
                                    - (|Flatten(h.dequeued)| - Outstanding(h.dequeued, h.processed))
  {
    InitConserved<E>(c, suspended);
    RunConserves(c, Init<E>(suspended), actions);
  }

  // ---------- What is still to be acknowledged ----------

  /** The events accepted but not yet acknowledged or dropped, oldest first. */
  function Pending<E>(s: Stream<E>): seq<E> {
    Flatten(Held(s.processor)) + Flatten(s.fields.queue) + s.dispatcher.current
  }

  /** The batch leaves the processor: acknowledged, or dropped because the stream is stalled. */
  predicate Releases<E>(s: Stream<E>, a: Action<E>) {
    a.Callbacks? || (a.Check? && Stalled(s.fields))
  }

  lemma {:induction false} TakeKeepsPending<E>(c: Config, s: Stream<E>)
    requires Step(c, s, Take).Some?
    ensures Pending(Step(c, s, Take).value) == Pending(s)
  {
    if !Stalled(s.fields) {
      var batch, rest := s.fields.queue[0], Flatten(s.fields.queue[1..]);
      FlattenOne(batch);
      assert Pending(s) == [] + (batch + rest) + s.dispatcher.current;
      InFrontOfQueue(batch, rest, s.dispatcher.current);
    }
  }

  lemma InFrontOfQueue<E>(batch: seq<E>, rest: seq<E>, current: seq<E>)
    ensures [] + (batch + rest) + current == batch + rest + current
  {
  }

  lemma {:induction false} DispatchKeepsPending<E>(c: Config, s: Stream<E>, a: Action<E>)
    requires Step(c, s, a).Some? && (a.Count? || a.Flush?)
    ensures Pending(Step(c, s, a).value) == Pending(s)
  {
    var held, queue, current := Flatten(Held(s.processor)), s.fields.queue, s.dispatcher.current;
    FlattenAppend(queue, current);
    Reassociate(held, Flatten(queue), current);
  }

  lemma {:induction false} ReleasePending<E>(c: Config, s: Stream<E>, a: Action<E>)
    requires Step(c, s, a).Some? && Releases(s, a)
    ensures Pending(s) == s.processor.batch + Pending(Step(c, s, a).value)
  {
    FlattenOne(s.processor.batch);
    assert Pending(s) == s.processor.batch + (Flatten([]) + Flatten(s.fields.queue) + s.dispatcher.current);
  }

  /** The pending events form one queue: events join it at the end, and leave it at the front with their
      batch. (Only a processor that has gone can be replaced by a resumption.) */
  lemma {:induction false} PendingIsAQueue<E>(c: Config, s: Stream<E>, a: Action<E>)
    requires Step(c, s, a).Some? && (a.Resume? ==> AcksAreSafe(c, s))
    ensures a.Accept? ==> Pending(Step(c, s, a).value) == Pending(s) + [a.event]
    ensures Releases(s, a) ==> Pending(s) == s.processor.batch + Pending(Step(c, s, a).value)
    ensures !a.Accept? && !Releases(s, a) ==> Pending(Step(c, s, a).value) == Pending(s)
  {
    if a.Take? {
      TakeKeepsPending(c, s);
    } else if a.Count? || a.Flush? {
      DispatchKeepsPending(c, s, a);
    } else if Releases(s, a) {
      ReleasePending(c, s, a);
    }
  }

  lemma FlattenOne<E>(batch: seq<E>)
    ensures Flatten([batch]) == batch
  {
    assert [batch][1..] == [];
  }

  // ---------- Acknowledgement ----------

  /** A batch may be acknowledged once an attempt succeeded or, in skip mode, once one failed with no time left. */
  ghost predicate Justified<E>(c: Config, h: History<E>, num: nat) {
    num in h.succeeded || (c.errorHandling == Skip && num in h.expired)
  }

  ghost predicate AcksAreSafe<E>(c: Config, s: Stream<E>) {
    var f, h, p := s.fields, s.history, s.processor;
    && (f.processorDone <==> p.Gone?)
    && (p.Acting? && p.complete ==> p.num in if p.failed then h.expired else h.succeeded)
    && (p.Deciding? && p.processed ==> Justified(c, h, p.num) || Stalled(f))
    && (p.Adjusting? || p.Checking? ==> Justified(c, h, p.num) || Stalled(f))
    && (p.Adjusting? && !p.processed ==> Stalled(f))
    && (p.Calling? ==> Justified(c, h, p.num))
    && forall k :: k in h.acked ==> Justified(c, h, k)
  }

  predicate IsProcessorStep<E>(a: Action<E>) {
    a.Take? || a.Decide? || a.Act? || a.Attempt? || a.Adjust? || a.Check? || a.Callbacks? || a.Leave?
  }

  lemma RetryStepKeepsAcksSafe<E>(c: Config, s: Stream<E>, a: Action<E>)
    requires AcksAreSafe(c, s) && Step(c, s, a).Some? && (a.Take? || a.Decide? || a.Act? || a.Attempt?)
    ensures AcksAreSafe(c, Step(c, s, a).value)
  {
    var h, h' := s.history, Step(c, s, a).value.history;
    assert forall k :: Justified(c, h, k) ==> Justified(c, h', k);
  }

  lemma FinishStepKeepsAcksSafe<E>(c: Config, s: Stream<E>, a: Action<E>)
    requires AcksAreSafe(c, s) && Step(c, s, a).Some? && (a.Adjust? || a.Check? || a.Callbacks? || a.Leave?)
    ensures AcksAreSafe(c, Step(c, s, a).value)
  {
    var h, h' := s.history, Step(c, s, a).value.history;
    assert forall k :: Justified(c, h, k) <==> Justified(c, h', k);
  }

  lemma OtherStepKeepsAcksSafe<E>(c: Config, s: Stream<E>, a: Action<E>)
    requires AcksAreSafe(c, s) && Step(c, s, a).Some? && !IsProcessorStep(a)
    ensures AcksAreSafe(c, Step(c, s, a).value)
  {
    var h, h' := s.history, Step(c, s, a).value.history;
    assert forall k :: Justified(c, h, k) <==> Justified(c, h', k);
  }

  lemma StepKeepsAcksSafe<E>(c: Config, s: Stream<E>, a: Action<E>)
    requires AcksAreSafe(c, s) && Step(c, s, a).Some?
    ensures AcksAreSafe(c, Step(c, s, a).value)
  {
    if a.Take? || a.Decide? || a.Act? || a.Attempt? {
      RetryStepKeepsAcksSafe(c, s, a);
    } else if IsProcessorStep(a) {
      FinishStepKeepsAcksSafe(c, s, a);
    } else {
      OtherStepKeepsAcksSafe(c, s, a);
    }
  }

  lemma {:induction false} RunKeepsAcksSafe<E>(c: Config, s: Stream<E>, actions: seq<Action<E>>)
    requires AcksAreSafe(c, s) && Run(c, s, actions).Some?
    ensures AcksAreSafe(c, Run(c, s, actions).value)
    decreases |actions|
  {
    if actions != [] {
      StepKeepsAcksSafe(c, s, actions[0]);
      RunKeepsAcksSafe(c, Step(c, s, actions[0]).value, actions[1..]);
    }
  }

  /** In block mode a batch is acknowledged only if a webhook attempt for it succeeded, and in skip mode only if
      one succeeded or the time for retries ran out, with suspend, resume and stop at any moment. The retry
      function also reports success when it made no attempt at all; that is harmless because the flag that
      stopped it stays set for as long as the processor lives. */
  lemma AckedBatchesWereSent<E>(c: Config, suspended: bool, actions: seq<Action<E>>, num: nat)
    requires Run(c, Init<E>(suspended), actions).Some?
    requires num in Run(c, Init<E>(suspended), actions).value.history.acked
    ensures var h := Run(c, Init<E>(suspended), actions).value.history;
            && (c.errorHandling == Block ==> num in h.succeeded)
            && (c.errorHandling == Skip ==> num in h.succeeded || num in h.expired)
  {
    RunKeepsAcksSafe(c, Init<E>(suspended), actions);
  }

  // ---------- Suspending and resuming ----------

  /** The flags say which goroutines have gone, and those have seen the stream suspended or stopped. */
  ghost predicate FlagsTellGone<E>(s: Stream<E>) {
    && (s.fields.processorDone <==> s.processor.Gone?)
    && (s.fields.pollerDone <==> !s.polling)
    && (s.processor.Leaving? || s.processor.Gone? || !s.polling ==> Stalled(s.fields))
    && (s.dispatcher.Closed? ==> s.fields.stopped)
  }

  lemma StepTellsGone<E>(c: Config, s: Stream<E>, a: Action<E>)
    requires FlagsTellGone(s) && Step(c, s, a).Some?
    ensures FlagsTellGone(Step(c, s, a).value)
  {
  }

  lemma {:induction false} RunTellsGone<E>(c: Config, s: Stream<E>, actions: seq<Action<E>>)
    requires FlagsTellGone(s) && Run(c, s, actions).Some?
    ensures FlagsTellGone(Run(c, s, actions).value)
    decreases |actions|
  {
    if actions != [] {
      StepTellsGone(c, s, actions[0]);
      RunTellsGone(c, Step(c, s, actions[0]).value, actions[1..]);
    }
  }

  /** There is never more than one poller and one processor: in every run they go only from a stream that is
      suspended or stopped, and a resumption takes effect only when both have gone. Otherwise it changes nothing. */
  lemma OnePollerOneProcessor<E>(c: Config, suspended: bool, actions: seq<Action<E>>)
    requires Run(c, Init<E>(suspended), actions).Some?
    ensures var s := Run(c, Init<E>(suspended), actions).value;
            && (s.processor.Gone? || !s.polling ==> Stalled(s.fields))
            && Step(c, s, Resume) == Some(if s.processor.Gone? && !s.polling then
                 s.(processor := Idle, polling := true,
                    fields := s.fields.(suspended := false, processorDone := false, pollerDone := false))
               else s)
  {
    RunTellsGone(c, Init<E>(suspended), actions);
  }

  // ---------- Retries ----------

  /** A failed batch is to be attempted again, at once or by a new round of attempts. */
  ghost predicate AwaitsRetry<E>(c: Config, s: Stream<E>, num: nat, batch: seq<E>) {
    !Stalled(s.fields) &&
    match s.processor
    case Attempting(n, b) => n == num && b == batch
    case Acting(n, b, complete, failed) =>
      n == num && b == batch && (complete ==> failed && c.errorHandling == Block)
    case Deciding(n, b, processed) => n == num && b == batch && !processed
    case _ => false
  }

  /** The stream is not suspended or stopped in a run. */
  ghost predicate KeepsGoing<E>(actions: seq<Action<E>>) {
    Suspend !in actions && Stop !in actions
  }

  ghost predicate NoAttempt<E>(actions: seq<Action<E>>) {
    forall k :: 0 <= k < |actions| ==> !actions[k].Attempt?
  }

  ghost predicate NoTake<E>(actions: seq<Action<E>>) {
    forall k :: 0 <= k < |actions| ==> !actions[k].Take?
  }

  lemma StepWaitsForRetry<E>(c: Config, s: Stream<E>, a: Action<E>, num: nat, batch: seq<E>)
    requires AwaitsRetry(c, s, num, batch) && AcksAreSafe(c, s)
    requires Step(c, s, a).Some? && a != Suspend && a != Stop && !a.Attempt?
    ensures var s' := Step(c, s, a).value;
            && AwaitsRetry(c, s', num, batch)
            && s'.history.processed == s.history.processed && s'.history.acked == s.history.acked
  {
  }

  lemma {:induction false} WaitsForRetry<E>(c: Config, s: Stream<E>, actions: seq<Action<E>>, num: nat,
      batch: seq<E>)
    requires AwaitsRetry(c, s, num, batch) && AcksAreSafe(c, s)
    requires Run(c, s, actions).Some? && KeepsGoing(actions) && NoAttempt(actions)
    ensures var s' := Run(c, s, actions).value;
            && AwaitsRetry(c, s', num, batch)
            && s'.history.processed == s.history.processed && s'.history.acked == s.history.acked
    decreases |actions|
  {
    if actions != [] {
      StepWaitsForRetry(c, s, actions[0], num, batch);
      StepKeepsAcksSafe(c, s, actions[0]);
      WaitsForRetry(c, Step(c, s, actions[0]).value, actions[1..], num, batch);
    }
  }

  /** While the stream is not suspended or stopped, an attempt that fails with time left, or at any time in block
      mode, is followed by another attempt for the same batch before the batch is subtracted or acknowledged:
      the processor stays with the batch until then, ... */
  lemma {:induction false} FailedAttemptIsRetried<E>(c: Config, s: Stream<E>, outOfTime: bool,
      actions: seq<Action<E>>)
    requires AcksAreSafe(c, s) && !Stalled(s.fields) && s.processor.Attempting?
    requires c.errorHandling == Block || !outOfTime
    requires var s1 := Step(c, s, Attempt(false, outOfTime)).value;
             Run(c, s1, actions).Some? && KeepsGoing(actions) && NoAttempt(actions)
    ensures var s' := Run(c, Step(c, s, Attempt(false, outOfTime)).value, actions).value;
            && AwaitsRetry(c, s', s.processor.num, s.processor.batch)
            && s'.history.processed == s.history.processed && s'.history.acked == s.history.acked
  {
    StepKeepsAcksSafe(c, s, Attempt(false, outOfTime));
    WaitsForRetry(c, Step(c, s, Attempt(false, outOfTime)).value, actions, s.processor.num, s.processor.batch);
  }

  /** ... and three of its steps at most lead to that attempt. */
  lemma {:induction false} RetryComes<E>(c: Config, s: Stream<E>, num: nat, batch: seq<E>)
      returns (actions: seq<Action<E>>)
    requires AwaitsRetry(c, s, num, batch)
    ensures |actions| <= 3 && forall a :: a in actions ==> a == Act || a == Decide
    ensures Run(c, s, actions) == Some(s.(processor := Attempting(num, batch)))
  {
    match s.processor
    case Attempting(_, _) => actions := [];
    case Acting(_, _, complete, _) =>
      if complete {
        actions := [Act, Decide, Act];
        assert actions[1..] == [Decide, Act] && actions[1..][1..] == [Act] && actions[1..][1..][1..] == [];
      } else {
        actions := [Act];
        assert actions[1..] == [];
      }
    case Deciding(_, _, _) =>
      actions := [Decide, Act];
      assert actions[1..] == [Act] && actions[1..][1..] == [];
  }

  /** The fate of a batch is decided: it will be subtracted, and not be attempted again. */
  ghost predicate Settled<E>(c: Config, s: Stream<E>, num: nat) {
    match s.processor
    case Acting(n, _, complete, failed) => n == num && complete && (failed ==> c.errorHandling == Skip)
    case Deciding(n, _, processed) => n == num && processed
    case Adjusting(n, _, processed) => n == num && processed
    case Checking(n, _) => n == num && num in s.history.processed
    case Calling(n, _) => n == num && num in s.history.processed
    case Idle => num in s.history.processed
    case _ => false
  }

  lemma StepStaysSettled<E>(c: Config, s: Stream<E>, a: Action<E>, num: nat)
    requires Settled(c, s, num) && AcksAreSafe(c, s) && Step(c, s, a).Some? && !a.Take?
    ensures Settled(c, Step(c, s, a).value, num) && !a.Attempt?
  {
  }

  lemma {:induction false} StaysSettled<E>(c: Config, s: Stream<E>, actions: seq<Action<E>>, num: nat)
    requires Settled(c, s, num) && AcksAreSafe(c, s)
    requires Run(c, s, actions).Some? && NoTake(actions)
    ensures Settled(c, Run(c, s, actions).value, num)
    ensures NoAttempt(actions)
    decreases |actions|
  {
    if actions != [] {
      StepKeepsAcksSafe(c, s, actions[0]);
      StepStaysSettled(c, s, actions[0], num);
      StaysSettled(c, Step(c, s, actions[0]).value, actions[1..], num);
      assert actions == [actions[0]] + actions[1..];
    }
  }

  /** A successful attempt, and in skip mode a failed one with no time left, is the last one: whatever happens, the
      batch is subtracted before the next is taken, and not attempted again. */
  lemma {:induction false} LastAttemptIsFinal<E>(c: Config, s: Stream<E>, ok: bool, outOfTime: bool,
      actions: seq<Action<E>>)
    requires AcksAreSafe(c, s) && s.processor.Attempting?
    requires ok || (outOfTime && c.errorHandling == Skip)
    requires var s1 := Step(c, s, Attempt(ok, outOfTime)).value;
             Run(c, s1, actions).Some? && NoTake(actions)
    ensures NoAttempt(actions)
    ensures var s' := Run(c, Step(c, s, Attempt(ok, outOfTime)).value, actions).value;
            s'.processor.Idle? ==> s.processor.num in s'.history.processed
  {
    StepKeepsAcksSafe(c, s, Attempt(ok, outOfTime));
    StaysSettled(c, Step(c, s, Attempt(ok, outOfTime)).value, actions, s.processor.num);
  }

  /** The steps of a batch whose first attempt succeeds. */
  function Sending<E>(): seq<Action<E>> {
    [Take, Decide, Act, Attempt(true, false)]
  }

  function Finishing<E>(): seq<Action<E>> {
    [Act, Decide, Adjust, Check, Callbacks]
  }

  lemma {:induction false} SendsNext<E>(c: Config, s: Stream<E>)
    requires !Stalled(s.fields) && s.processor.Idle? && s.fields.queue != [] && s.fields.queue[0] != []
    ensures Run(c, s, Sending()).Some?
    ensures var s' := Run(c, s, Sending()).value;
            && s'.fields == TakeBatch(s.fields) && s'.dispatcher == s.dispatcher && s'.polling == s.polling
            && s'.processor == Acting(s.fields.batchCount + 1, s.fields.queue[0], true, false)
            && s'.history.acked == s.history.acked && s'.history.dequeued == s.history.dequeued + [s.fields.queue[0]]
  {
    var rest := [Decide, Act, Attempt(true, false)];
    assert Sending<E>()[1..] == rest && rest[1..] == [Act, Attempt(true, false)];
    assert rest[1..][1..] == [Attempt(true, false)] && rest[1..][1..][1..] == [];
  }

  lemma {:induction false} FinishesBatch<E>(c: Config, s: Stream<E>)
    requires !Stalled(s.fields) && s.processor.Acting? && s.processor.complete && !s.processor.failed
    ensures Run(c, s, Finishing()).Some?
    ensures var s' := Run(c, s, Finishing()).value;
            && s'.fields == FinishBatch(s.fields, |s.processor.batch|)
            && s'.processor == Idle && s'.dispatcher == s.dispatcher && s'.polling == s.polling
            && s'.history.acked == s.history.acked + [s.processor.num]
            && s'.history.dequeued == s.history.dequeued
  {
    var rest := [Decide, Adjust, Check, Callbacks];
    assert Finishing<E>()[1..] == rest && rest[1..] == [Adjust, Check, Callbacks];
    assert rest[1..][1..] == [Check, Callbacks];
    assert rest[1..][1..][1..] == [Callbacks] && rest[1..][1..][1..][1..] == [];
  }

  lemma FirstBatchIsCounted<E>(c: Config, s: Stream<E>)
    requires Conserved(c, s) && s.processor.Idle? && s.fields.queue != []
    ensures 1 <= |s.fields.queue[0]| <= s.fields.inFlight && s.fields.batchCount == |s.history.dequeued|
  {
    assert s.fields.queue[0] in s.fields.queue;
    assert |Flatten(s.fields.queue)| == |s.fields.queue[0]| + |Flatten(s.fields.queue[1..])|;
  }

  /** A waiting batch can always be delivered: an idle processor of a stream that is not suspended or stopped takes
      it, sends it, subtracts it from the in-flight count and acknowledges it. */
  lemma {:induction false} NextBatchIsDelivered<E>(c: Config, s: Stream<E>)
    requires ValidConfig(c) && Conserved(c, s)
    requires !Stalled(s.fields) && s.processor.Idle? && s.fields.queue != []
    ensures var batch, f := s.fields.queue[0], s.fields;
            && Run(c, s, Sending()).Some? && Run(c, Run(c, s, Sending()).value, Finishing()).Some?
            && var s' := Run(c, Run(c, s, Sending()).value, Finishing()).value;
               && s'.fields == f.(queue := f.queue[1..], batchCount := f.batchCount + 1,
                                  inFlight := f.inFlight - |batch|)
               && s'.history.dequeued == s.history.dequeued + [batch]
               && s'.history.acked == s.history.acked + [|s'.history.dequeued|]
               && s'.processor.Idle?
  {
    FirstBatchIsCounted(c, s);
    SendsNext(c, s);
    FinishesBatch(c, Run(c, s, Sending()).value);
  }

  // ---------- What suspension leaves behind ----------

  /** Once a full batch's worth of events has been dropped by suspensions, the stream is blocked from
      polling for good, whatever happens next. */
  lemma AbandonedBatchesBlockForever<E>(c: Config, s: Stream<E>, actions: seq<Action<E>>)
    requires ValidConfig(c) && Conserved(c, s) && Run(c, s, actions).Some?
    requires Abandoned(s) >= c.batchSize
    ensures Blocked(c, Run(c, s, actions).value.fields)
  {
    RunConserves(c, s, actions);
    InFlightCoversAbandoned(c, Run(c, s, actions).value);
  }

  lemma InFlightCoversAbandoned<E>(c: Config, s: Stream<E>)
    requires Conserved(c, s)
    ensures s.fields.inFlight >= Abandoned(s)
    ensures s.fields.queue == [] && s.dispatcher.current == [] && !Unadjusted(s.processor) ==>
              s.fields.inFlight == Abandoned(s)
  {
  }

  /** Only a suspended or stopped stream drops a batch. */
  lemma OnlyStalledStreamsDrop<E>(c: Config, suspended: bool, actions: seq<Action<E>>, a: Action<E>)
    requires Run(c, Init<E>(suspended), actions).Some?
    requires Step(c, Run(c, Init<E>(suspended), actions).value, a).Some?
    ensures var s := Run(c, Init<E>(suspended), actions).value;
            Drop(s, a) > 0 ==> Stalled(s.fields)
  {
    RunKeepsAcksSafe(c, Init<E>(suspended), actions);
  }

  lemma {:induction false} AbandonedIsDropped<E>(c: Config, s: Stream<E>, actions: seq<Action<E>>)
    requires ValidConfig(c) && Conserved(c, s) && AcksAreSafe(c, s) && Run(c, s, actions).Some?
    ensures Abandoned(Run(c, s, actions).value) == Abandoned(s) + Dropped(c, s, actions)
    decreases |actions|
  {
    if actions != [] {
      StepConserves(c, s, actions[0]);
      StepKeepsAcksSafe(c, s, actions[0]);
      if actions[0].Resume? && !CanResume(s.fields) {
        assert Step(c, s, actions[0]) == Some(s);
      }
      AbandonedIsDropped(c, Step(c, s, actions[0]).value, actions[1..]);
    }
  }

  /** With nothing queued, gathered or being processed, a stream is blocked exactly when the batches dropped
      since it began add up to a full batch. */
  lemma IdleStreamIsBlockedIff<E>(c: Config, suspended: bool, actions: seq<Action<E>>)
    requires ValidConfig(c) && Run(c, Init<E>(suspended), actions).Some?
    requires var s := Run(c, Init<E>(suspended), actions).value;
             s.fields.queue == [] && s.dispatcher.current == [] && !Unadjusted(s.processor)
    ensures var s := Run(c, Init<E>(suspended), actions).value;
            && s.fields.inFlight == Dropped(c, Init<E>(suspended), actions)
            && (Blocked(c, s.fields) <==> Dropped(c, Init<E>(suspended), actions) >= c.batchSize)
  {
    InitConserved<E>(c, suspended);
    RunConserves(c, Init<E>(suspended), actions);
    AbandonedIsDropped(c, Init<E>(suspended), actions);
    InFlightCoversAbandoned(c, Run(c, Init<E>(suspended), actions).value);
  }

  const BLOCKING := Config(1, Block)

  /** A stream of batch size 1 whose only batch has been dequeued and is being sent. */
  lemma {:induction false} SendFirst<E>(e: E) returns (s: Stream<E>, done: seq<Action<E>>)
    ensures Run(BLOCKING, Init<E>(false), done) == Some(s)
    ensures s == Stream(Fields(false, false, false, false, 1, [], 1), Selecting([]), Attempting(1, [e]), true,
                        History([e], [[e]], {}, {}, {}, {}, []))
  {
    s, done := Init<E>(false), [];
    s, done := Extend(BLOCKING, s, done, Accept(e));
    s, done := Extend(BLOCKING, s, done, Count);
    assert [] + [e] == [e] && [] + [[e]] == [[e]];
    assert s == Stream(Fields(false, false, false, false, 1, [[e]], 0), Selecting([]), Idle, true,
                       History([e], [], {}, {}, {}, {}, []));
    s, done := Extend(BLOCKING, s, done, Take);
    s, done := Extend(BLOCKING, s, done, Decide);
    s, done := Extend(BLOCKING, s, done, Act);
  }

  /** The attempt fails and the stream is suspended before the next one: the batch is dropped. */
  lemma {:induction false} DropOnSuspend<E>(e: E) returns (s: Stream<E>, done: seq<Action<E>>)
    ensures Run(BLOCKING, Init<E>(false), done) == Some(s)
    ensures s == Stream(Fields(false, true, false, false, 1, [], 1), Selecting([]), Idle, true,
                        History([e], [[e]], {1}, {}, {}, {}, []))
  {
    s, done := SendFirst(e);
    s, done := Extend(BLOCKING, s, done, Attempt(false, false));
    s, done := Extend(BLOCKING, s, done, Suspend);
    s, done := Extend(BLOCKING, s, done, Act);
    assert s == Stream(Fields(false, true, false, false, 1, [], 1), Selecting([]), Deciding(1, [e], false), true,
                       History([e], [[e]], {1}, {}, {}, {}, []));
    s, done := Extend(BLOCKING, s, done, Decide);
    s, done := Extend(BLOCKING, s, done, Adjust);
    s, done := Extend(BLOCKING, s, done, Check);
  }

  /** A blocked stream can be reached: suspended while a full batch is being retried, then resumed. */
  lemma {:induction false} SuspendAndResumeCanWedge<E>(e: E)
    ensures exists actions: seq<Action<E>> ::
              && Run(BLOCKING, Init<E>(false), actions).Some?
              && var s := Run(BLOCKING, Init<E>(false), actions).value;
                 && !Stalled(s.fields) && s.processor.Idle? && s.polling
                 && s.fields.queue == [] && s.dispatcher.current == []
                 && Abandoned(s) >= BLOCKING.batchSize && Blocked(BLOCKING, s.fields)
  {
    var s, done := DropOnSuspend(e);
    s, done := Extend(BLOCKING, s, done, Take);
    s, done := Extend(BLOCKING, s, done, Leave);
    s, done := Extend(BLOCKING, s, done, PollerLeave);
    s, done := Extend(BLOCKING, s, done, Resume);
    assert s == Stream(Fields(false, false, false, false, 1, [], 1), Selecting([]), Idle, true,
                       History([e], [[e]], {1}, {}, {}, {}, []));
    OutstandingAppend([], [e], {});
    assert [] + [[e]] == [[e]];
    assert Abandoned(s) == 1;
  }

  /** A possible step extends a run. */
  lemma {:induction false} Extend<E>(c: Config, s: Stream<E>, done: seq<Action<E>>, a: Action<E>)
      returns (s': Stream<E>, done': seq<Action<E>>)
    requires Run(c, Init<E>(false), done) == Some(s) && Step(c, s, a).Some?
    ensures s' == Step(c, s, a).value && done' == done + [a]
    ensures Run(c, Init<E>(false), done') == Some(s')
  {
    s', done' := Step(c, s, a).value, done + [a];
    RunAppend(c, Init<E>(false), done, a);
  }

  lemma {:induction false} RunAppend<E>(c: Config, s: Stream<E>, actions: seq<Action<E>>, a: Action<E>)
    requires Run(c, s, actions).Some?
    ensures Run(c, s, actions + [a]) == Step(c, Run(c, s, actions).value, a)
    decreases |actions|
  {
    if actions == [] {
      assert [a][1..] == [];
    } else {
      assert (actions + [a])[1..] == actions[1..] + [a];
      RunAppend(c, Step(c, s, actions[0]).value, actions[1..], a);
    }
  }

  // ---------- The shared fields and their lock-protected sections ----------

  class EventStream<E> {
    const config: Config
    var stopped: bool
    var suspended: bool
    var processorDone: bool
    var pollerDone: bool
    var inFlight: int
    var batchQueue: seq<seq<E>>
    var batchCount: nat

    ghost function View(): Fields<E>
      reads this
    {
      Fields(stopped, suspended, processorDone, pollerDone, inFlight, batchQueue, batchCount)
    }

    constructor (config: Config, suspended: bool)
      ensures this.config == config && View() == Init<E>(suspended).fields
    {
      this.config := config;
      this.suspended := suspended;
      stopped, processorDone, pollerDone := false, false, false;
      inFlight, batchQueue, batchCount := 0, [], 0;
    }

    predicate SuspendOrStop()
      reads this
    {
      suspended || stopped
    }

    method IsBlocked() returns (blocked: bool)
      ensures blocked == Blocked(config, View())
    {
      blocked := inFlight >= config.batchSize;
    }

    /** The dispatcher's section after receiving an event or timing out; returns the batch to go on with. */
    method Dispatch(currentBatch: seq<E>, timeout: bool) returns (next: seq<E>)
      modifies this
      ensures View() == if timeout then PushBatch(old(View()), currentBatch)
                        else CountEvent(config, old(View()), currentBatch)
      ensures next == if timeout || |currentBatch| == config.batchSize then [] else currentBatch
    {
      if timeout || |currentBatch| == config.batchSize {
        if !timeout {
          inFlight := inFlight + 1;
        }
        batchQueue := batchQueue + [currentBatch];
        next := [];
      } else {
        inFlight := inFlight + 1;
        next := currentBatch;
      }
    }

    /** The processor's section that takes the next batch, when there is one and the stream runs. */
    method TakeNext() returns (num: nat, batch: seq<E>)
      requires !SuspendOrStop() && batchQueue != []
      modifies this
      ensures batch == old(batchQueue)[0] && num == old(batchCount) + 1
      ensures View() == TakeBatch(old(View()))
    {
      batch := batchQueue[0];
      batchCount := batchCount + 1;
      num := batchCount;
      batchQueue := batchQueue[1..];
    }

    /** The processor's section after a batch. */
    method AdjustInFlight(size: nat, processed: bool)
      modifies this
      ensures View() == if processed then FinishBatch(old(View()), size) else old(View())
    {
      if processed {
        inFlight := inFlight - size + if size <= inFlight then 0 else 0x1_0000_0000_0000_0000;
      }
    }

    method Suspend()
      modifies this
      ensures View() == old(View()).(suspended := true)
    {
      suspended := true;
    }

    method Stop()
      modifies this
      ensures View() == old(View()).(stopped := true)
    {
      stopped := true;
    }

    /** Refused while the poller or the processor of the previous round is still there. */
    method Resume() returns (ok: bool)
      modifies this
      ensures ok == CanResume(old(View()))
      ensures View() == if ok then Resumed(old(View())) else old(View())
    {
      if !processorDone || !pollerDone {
        return false;
      }
      suspended, processorDone, pollerDone := false, false, false;
      return true;
    }
  }
}
