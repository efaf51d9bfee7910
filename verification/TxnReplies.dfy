/** One reply for each message, over every path of the transaction processor
    (internal/maidenlanetx/txnprocessor.go): messages are handled by concurrent goroutines that share the list
    of transactions in flight, the lock and the slots for sending. */
module TxnReplies {
  import opened Wrappers
  import opened TxnProcessor

  /** Where the goroutine of a message is. Names with a transaction: it is on the list of its address. */
  datatype Phase =
    | Arrived
    | Building(txn: Inflight)
    | BuildFailed(txn: Inflight)
    | Queued(txn: Inflight)
    | Sending(txn: Inflight)
    | SendFailed(txn: Inflight)
    | Sleeping(txn: Inflight, polls: nat)
    | NotMined(txn: Inflight, polls: nat)
    | Mined(txn: Inflight)
    | Closing(txn: Inflight)
    | OwesReply
    | Done

  datatype Message = Message(phase: Phase, replies: nat)

  /** `maxPolls` bounds the receipts asked for by one goroutine: see TxnDelayTracker.WaitForCompletion. */
  datatype Config = Config(concurrency: int, maxPolls: nat)

  /** `owner` says which message each transaction belongs to. */
  datatype World = World(proc: State, msgs: seq<Message>, slots: nat, owner: map<int, nat>)

  /** The steps between two uses of shared state. `Reject` stands for an unknown type, a message that does not
      unmarshal, and an address that does not resolve. */
  datatype Event =
    | Receive
    | Reject(i: nat)
    | Enter(i: nat, req: Request, counts: Counts)
    | Build(i: nat, ok: bool)
    | CancelUnbuilt(i: nat)
    | StartSend(i: nat)
    | EndSend(i: nat, ok: bool)
    | CancelUnsent(i: nat)
    | PollReceipt(i: nat, mined: bool)
    | TimeOut(i: nat)
    | NextDelay(i: nat)
    | ReportMined(i: nat)
    | ReplyError(i: nat)
    | Close(i: nat)

  const INIT_WORLD := World(INIT, [], 0, map[])

  predicate NeedsLock(e: Event) {
    e.Enter? || e.CancelUnbuilt? || e.CancelUnsent? || e.NextDelay? || e.ReportMined? || e.Close?
  }

  predicate HasTxn(p: Phase) {
    !p.Arrived? && !p.OwesReply? && !p.Done?
  }

  predicate CanStartSend(c: Config, w: World) {
    c.concurrency > 1 ==> w.slots < c.concurrency
  }

  /** Whether the goroutine of a message is at the point where the event happens. */
  predicate AtPoint(c: Config, p: Phase, e: Event) {
    match e
    case Receive => false
    case Reject(_) => p.Arrived?
    case Enter(_, _, _) => p.Arrived?
    case Build(_, _) => p.Building?
    case CancelUnbuilt(_) => p.BuildFailed?
    case StartSend(_) => p.Queued?
    case EndSend(_, _) => p.Sending?
    case CancelUnsent(_) => p.SendFailed?
    case PollReceipt(_, mined) => p.Sleeping? && (mined || p.polls < c.maxPolls)
    case TimeOut(_) => p.Sleeping?
    case NextDelay(_) => p.NotMined?
    case ReportMined(_) => p.Mined?
    case ReplyError(_) => p.OwesReply?
    case Close(_) => p.Closing?
  }

  predicate Enabled(c: Config, w: World, e: Event) {
    if e.Receive? then true
    else
      && e.i < |w.msgs|
      && AtPoint(c, w.msgs[e.i].phase, e)
      && (NeedsLock(e) ==> !w.proc.lockHeld)
      && (e.StartSend? ==> CanStartSend(c, w))
  }

  function NextPhase(c: Config, s: State, p: Phase, e: Event): Phase
    requires AtPoint(c, p, e)
  {
    match e
    case Reject(_) => Done
    case Enter(_, req, counts) =>
      (match Choose(s, req, counts)
       case Ok(added) => Building(added.txn)
       case Err(_) => OwesReply)
    case Build(_, ok) => if ok then Queued(p.txn) else BuildFailed(p.txn)
    case CancelUnbuilt(_) => OwesReply
    case StartSend(_) => Sending(p.txn)
    case EndSend(_, ok) => if ok then Sleeping(p.txn, 0) else SendFailed(p.txn)
    case CancelUnsent(_) => OwesReply
    case PollReceipt(_, mined) => if mined then Mined(p.txn) else NotMined(p.txn, p.polls)
    case TimeOut(_) => Closing(p.txn)
    case NextDelay(_) => Sleeping(p.txn, p.polls + 1)
    case ReportMined(_) => Closing(p.txn)
    case ReplyError(_) => Done
    case Close(_) => Done
  }

  predicate SendsReply(e: Event) {
    e.Reject? || e.TimeOut? || e.ReportMined? || e.ReplyError?
  }

  function NextState(c: Config, s: State, p: Phase, e: Event): State
    requires AtPoint(c, p, e)
  {
    match e
    case Enter(_, req, counts) => Add(s, req, counts)
    case CancelUnbuilt(_) => Cancel(s, p.txn)
    case CancelUnsent(_) => Cancel(s, p.txn)
    case Close(_) => Cancel(s, p.txn)
    case _ => s
  }

  function Step(c: Config, w: World, e: Event): World
    requires Enabled(c, w, e)
  {
    if e.Receive? then w.(msgs := w.msgs + [Message(Arrived, 0)])
    else
      var m := w.msgs[e.i];
      var p' := NextPhase(c, w.proc, m.phase, e);
      World(
        NextState(c, w.proc, m.phase, e),
        w.msgs[e.i := Message(p', if SendsReply(e) then m.replies + 1 else m.replies)],
        if c.concurrency <= 1 then w.slots
        else if e.StartSend? then w.slots + 1
        else if e.EndSend? && w.slots > 0 then w.slots - 1
        else w.slots,
        if e.Enter? && p'.Building? then w.owner[p'.txn.id := e.i] else w.owner)
  }

  ghost predicate Run(c: Config, w: World, events: seq<Event>)
    decreases |events|
  {
    events != [] ==> Enabled(c, w, events[0]) && Run(c, Step(c, w, events[0]), events[1..])
  }

  function After(c: Config, w: World, events: seq<Event>): World
    requires Run(c, w, events)
    decreases |events|
  {
    if events == [] then w else After(c, Step(c, w, events[0]), events[1..])
  }

  // ---------- What every step keeps ----------

  function RepliesDue(p: Phase): nat {
    if p.Closing? || p.Done? then 1 else 0
  }

  ghost predicate OneReplyEach(w: World) {
    forall i :: 0 <= i < |w.msgs| ==> w.msgs[i].replies == RepliesDue(w.msgs[i].phase)
  }

  /** Every message with a transaction has it listed, ... */
  ghost predicate ActiveAreListed(w: World) {
    forall i :: 0 <= i < |w.msgs| && HasTxn(w.msgs[i].phase) ==>
      && Listed(w.proc, w.msgs[i].phase.txn)
      && w.msgs[i].phase.txn.id in w.owner && w.owner[w.msgs[i].phase.txn.id] == i
  }

  predicate OwnedBy(w: World, t: Inflight, i: nat) {
    i < |w.msgs| && HasTxn(w.msgs[i].phase) && w.msgs[i].phase.txn == t
  }

  /** ... and every listed transaction belongs to a message that still works on it. */
  ghost predicate ListedAreActive(w: World) {
    forall t :: Listed(w.proc, t) ==> t.id in w.owner && OwnedBy(w, t, w.owner[t.id])
  }

  function CountSending(msgs: seq<Message>): nat {
    if msgs == [] then 0
    else (if msgs[|msgs|-1].phase.Sending? then 1 else 0) + CountSending(msgs[..|msgs|-1])
  }

  ghost predicate SlotsAreSends(c: Config, w: World) {
    if c.concurrency > 1 then w.slots == CountSending(w.msgs) <= c.concurrency else w.slots == 0
  }

  ghost predicate Inv(c: Config, w: World) {
    && Valid(w.proc)
    && OneReplyEach(w)
    && ActiveAreListed(w)
    && ListedAreActive(w)
    && SlotsAreSends(c, w)
  }

  lemma CountSendingOfUpdate(msgs: seq<Message>, i: nat, m: Message)
    requires i < |msgs|
    ensures CountSending(msgs[i := m])
         == CountSending(msgs) - (if msgs[i].phase.Sending? then 1 else 0) + (if m.phase.Sending? then 1 else 0)
  {
    var msgs' := msgs[i := m];
    if i == |msgs| - 1 {
      assert msgs'[..i] == msgs[..i];
    } else {
      CountSendingOfUpdate(msgs[..|msgs|-1], i, m);
      assert msgs'[..|msgs|-1] == msgs[..|msgs|-1][i := m];
    }
  }

  lemma AddLists(s: State, req: Request, counts: Counts)
    requires Valid(s)
    ensures var s' := Add(s, req, counts);
            var r := Choose(s, req, counts);
            && Valid(s')
            && (r.Ok? ==> r.value.txn.id == s.nextID && r.value.txn.from == req.from)
            && forall t :: Listed(s', t) <==> Listed(s, t) || (r.Ok? && t == r.value.txn)
  {
    AddKeepsValid(s, req, counts);
  }

  lemma CancelUnlists(s: State, txn: Inflight)
    requires Valid(s) && Listed(s, txn)
    ensures var s' := Cancel(s, txn);
            && Valid(s')
            && forall t :: Listed(s', t) <==> Listed(s, t) && t != txn
  {
    CancelLists(s, txn);
    forall t | Listed(s, t) && t.from == txn.from && t.id == txn.id ensures t == txn {
      var txns := s.inflight[txn.from].txns;
      var i, j :| 0 <= i < |txns| && 0 <= j < |txns| && txns[i] == t && txns[j] == txn;
      assert i == j;
    }
  }

  lemma StepKeepsReplies(c: Config, w: World, e: Event)
    requires Enabled(c, w, e) && OneReplyEach(w)
    ensures OneReplyEach(Step(c, w, e))
  {
  }

  lemma StepKeepsSlots(c: Config, w: World, e: Event)
    requires Enabled(c, w, e) && SlotsAreSends(c, w)
    ensures SlotsAreSends(c, Step(c, w, e))
  {
    var w' := Step(c, w, e);
    if e.Receive? {
      assert w'.msgs[..|w.msgs|] == w.msgs;
    } else {
      CountSendingOfUpdate(w.msgs, e.i, w'.msgs[e.i]);
    }
  }

  /** What it takes for the list and the messages to go on agreeing when message i moves from one phase to
      another: its transaction enters or leaves the list with it. */
  ghost predicate MovesTogether(w: World, w': World, i: nat, m: Message) {
    && i < |w.msgs| && w'.msgs == w.msgs[i := m]
    && var p := w.msgs[i].phase;
      && (forall t :: Listed(w'.proc, t) <==>
            (Listed(w.proc, t) && !(HasTxn(p) && t == p.txn)) || (HasTxn(m.phase) && t == m.phase.txn))
      && (HasTxn(p) && HasTxn(m.phase) ==> m.phase.txn == p.txn)
      && (HasTxn(m.phase) && !HasTxn(p) ==> forall t :: Listed(w.proc, t) ==> t.id != m.phase.txn.id)
      && w'.owner == if HasTxn(m.phase) && !HasTxn(p) then w.owner[m.phase.txn.id := i] else w.owner
  }

  lemma MovingKeepsActive(w: World, w': World, i: nat, m: Message)
    requires ActiveAreListed(w) && ListedAreActive(w) && MovesTogether(w, w', i, m)
    ensures ActiveAreListed(w')
  {
    forall j | 0 <= j < |w'.msgs| && HasTxn(w'.msgs[j].phase)
      ensures Listed(w'.proc, w'.msgs[j].phase.txn)
      ensures w'.msgs[j].phase.txn.id in w'.owner && w'.owner[w'.msgs[j].phase.txn.id] == j
    {
      if j != i {
        var t := w.msgs[j].phase.txn;
        assert Listed(w.proc, t) && t.id in w.owner && w.owner[t.id] == j;
      }
    }
  }

  lemma MovingKeepsListed(w: World, w': World, i: nat, m: Message)
    requires ActiveAreListed(w) && ListedAreActive(w) && MovesTogether(w, w', i, m)
    ensures ListedAreActive(w')
  {
    forall t | Listed(w'.proc, t) ensures t.id in w'.owner && OwnedBy(w', t, w'.owner[t.id]) {
      if HasTxn(m.phase) && t == m.phase.txn {
      } else {
        assert Listed(w.proc, t) && OwnedBy(w, t, w.owner[t.id]);
      }
    }
  }

  lemma EnteringMovesTogether(c: Config, w: World, e: Event)
    requires Enabled(c, w, e) && Inv(c, w) && e.Enter?
    ensures Valid(Step(c, w, e).proc)
    ensures MovesTogether(w, Step(c, w, e), e.i, Step(c, w, e).msgs[e.i])
  {
    AddLists(w.proc, e.req, e.counts);
    assert forall t :: Listed(w.proc, t) ==> t.id < w.proc.nextID;
  }

  lemma CancellingMovesTogether(c: Config, w: World, e: Event)
    requires Enabled(c, w, e) && Inv(c, w) && (e.CancelUnbuilt? || e.CancelUnsent? || e.Close?)
    ensures Valid(Step(c, w, e).proc)
    ensures MovesTogether(w, Step(c, w, e), e.i, Step(c, w, e).msgs[e.i])
  {
    CancelUnlists(w.proc, w.msgs[e.i].phase.txn);
  }

  lemma OthersMoveTogether(c: Config, w: World, e: Event)
    requires Enabled(c, w, e) && Inv(c, w) && !e.Receive? && !e.Enter?
    requires !(e.CancelUnbuilt? || e.CancelUnsent? || e.Close?)
    ensures Step(c, w, e).proc == w.proc
    ensures MovesTogether(w, Step(c, w, e), e.i, Step(c, w, e).msgs[e.i])
  {
    var p := w.msgs[e.i].phase;
    assert HasTxn(p) ==> Listed(w.proc, p.txn);
  }

  lemma StepLists(c: Config, w: World, e: Event)
    requires Enabled(c, w, e) && Inv(c, w)
    ensures var w' := Step(c, w, e);
            && Valid(w'.proc) && ActiveAreListed(w') && ListedAreActive(w')
  {
    var w' := Step(c, w, e);
    if e.Receive? {
      forall t | Listed(w.proc, t) ensures t.id in w'.owner && OwnedBy(w', t, w'.owner[t.id]) {
        assert OwnedBy(w, t, w.owner[t.id]);
      }
    } else {
      if e.Enter? {
        EnteringMovesTogether(c, w, e);
      } else if e.CancelUnbuilt? || e.CancelUnsent? || e.Close? {
        CancellingMovesTogether(c, w, e);
      } else {
        OthersMoveTogether(c, w, e);
      }
      MovingKeepsActive(w, w', e.i, w'.msgs[e.i]);
      MovingKeepsListed(w, w', e.i, w'.msgs[e.i]);
    }
  }

  lemma StepKeepsInv(c: Config, w: World, e: Event)
    requires Enabled(c, w, e) && Inv(c, w)
    ensures Inv(c, Step(c, w, e))
  {
    StepKeepsReplies(c, w, e);
    StepKeepsSlots(c, w, e);
    StepLists(c, w, e);
  }

  lemma {:induction false} RunKeepsInv(c: Config, w: World, events: seq<Event>)
    requires Run(c, w, events) && Inv(c, w)
    ensures Inv(c, After(c, w, events))
    decreases |events|
  {
    if events != [] {
      StepKeepsInv(c, w, events[0]);
      RunKeepsInv(c, Step(c, w, events[0]), events[1..]);
    }
  }

  /** In every run, whatever fails: a message is never answered twice, a finished one was answered exactly
      once, and an unanswered one still has its goroutine; exactly the transactions of unfinished messages are
      listed; and with concurrent sending the slots taken are the sends under way. */
  lemma EveryRunRepliesOnce(c: Config, events: seq<Event>)
    requires Run(c, INIT_WORLD, events)
    ensures var w := After(c, INIT_WORLD, events);
            && (forall i :: 0 <= i < |w.msgs| ==>
                  w.msgs[i].replies <= 1 && (w.msgs[i].phase.Done? ==> w.msgs[i].replies == 1))
            && (forall t :: Listed(w.proc, t) <==> exists i :: OwnedBy(w, t, i))
            && (forall t, i, j :: OwnedBy(w, t, i) && OwnedBy(w, t, j) ==> i == j)
            && (c.concurrency > 1 ==> w.slots == CountSending(w.msgs) <= c.concurrency)
  {
    RunKeepsInv(c, INIT_WORLD, events);
    var w := After(c, INIT_WORLD, events);
    forall t ensures Listed(w.proc, t) <==> exists i :: OwnedBy(w, t, i) {
      if Listed(w.proc, t) {
        assert OwnedBy(w, t, w.owner[t.id]);
      }
    }
  }

  // ---------- The path of each message ----------

  /** How often each event has happened, and how often a message was entered with a lookup that found a nonce, or
      that failed. */
  datatype Tally = Tally(past: multiset<Event>, found: nat, refused: nat)

  function Noted(w: World, e: Event, i: nat, t: Tally): Tally {
    var enters := e.Enter? && e.i == i;
    Tally(t.past + multiset{e},
          t.found + At(enters && !LookupFails(w.proc, e.req, e.counts)),
          t.refused + At(enters && LookupFails(w.proc, e.req, e.counts)))
  }

  function Tallied(c: Config, w: World, events: seq<Event>, i: nat, t: Tally): Tally
    requires Run(c, w, events)
    decreases |events|
  {
    if events == [] then t else Tallied(c, Step(c, w, events[0]), events[1..], i, Noted(w, events[0], i, t))
  }

  const NONE_YET := Tally(multiset{}, 0, 0)

  function PhaseOf(w: World, i: nat): Phase {
    if i < |w.msgs| then w.msgs[i].phase else Arrived
  }

  function At(b: bool): nat {
    if b then 1 else 0
  }

  /** Each place of a goroutine has been left as often as it was reached, but for where it is now. */
  ghost predicate BuildFlows(p: Phase, i: nat, t: Tally) {
    var m := t.past;
    && t.found + t.refused + m[Reject(i)] + At(p.Arrived?) == 1
    && t.found == m[Build(i, true)] + m[Build(i, false)] + At(p.Building?)
    && m[Build(i, false)] == m[CancelUnbuilt(i)] + At(p.BuildFailed?)
  }

  ghost predicate SendFlows(p: Phase, i: nat, t: Tally) {
    var m := t.past;
    && m[Build(i, true)] == m[StartSend(i)] + At(p.Queued?)
    && m[StartSend(i)] == m[EndSend(i, true)] + m[EndSend(i, false)] + At(p.Sending?)
    && m[EndSend(i, false)] == m[CancelUnsent(i)] + At(p.SendFailed?)
  }

  ghost predicate PollFlows(p: Phase, i: nat, t: Tally) {
    var m := t.past;
    && m[EndSend(i, true)] == m[TimeOut(i)] + m[ReportMined(i)] + At(p.Sleeping? || p.NotMined? || p.Mined?)
    && m[PollReceipt(i, true)] == m[ReportMined(i)] + At(p.Mined?)
    && m[PollReceipt(i, false)] == m[NextDelay(i)] + At(p.NotMined?)
  }

  ghost predicate EndFlows(p: Phase, i: nat, t: Tally) {
    var m := t.past;
    && m[TimeOut(i)] + m[ReportMined(i)] == m[Close(i)] + At(p.Closing?)
    && t.refused + m[CancelUnbuilt(i)] + m[CancelUnsent(i)] == m[ReplyError(i)] + At(p.OwesReply?)
    && m[Reject(i)] + m[Close(i)] + m[ReplyError(i)] == At(p.Done?)
  }

  ghost predicate Flows(p: Phase, i: nat, t: Tally) {
    BuildFlows(p, i, t) && SendFlows(p, i, t) && PollFlows(p, i, t) && EndFlows(p, i, t)
  }

  lemma OthersFlow(w: World, p: Phase, e: Event, i: nat, t: Tally)
    requires (e.Receive? || e.i != i) && Flows(p, i, t)
    ensures Flows(p, i, Noted(w, e, i, t))
  {
  }

  lemma OwnBuildFlows(c: Config, w: World, p: Phase, e: Event, t: Tally)
    requires !e.Receive? && AtPoint(c, p, e) && Valid(w.proc) && Flows(p, e.i, t)
    ensures BuildFlows(NextPhase(c, w.proc, p, e), e.i, Noted(w, e, e.i, t))
  {
  }

  lemma OwnSendFlows(c: Config, w: World, p: Phase, e: Event, t: Tally)
    requires !e.Receive? && AtPoint(c, p, e) && Flows(p, e.i, t)
    ensures SendFlows(NextPhase(c, w.proc, p, e), e.i, Noted(w, e, e.i, t))
  {
  }

  lemma OwnPollFlows(c: Config, w: World, p: Phase, e: Event, t: Tally)
    requires !e.Receive? && AtPoint(c, p, e) && Flows(p, e.i, t)
    ensures PollFlows(NextPhase(c, w.proc, p, e), e.i, Noted(w, e, e.i, t))
  {
  }

  lemma OwnEndFlows(c: Config, w: World, p: Phase, e: Event, t: Tally)
    requires !e.Receive? && AtPoint(c, p, e) && Valid(w.proc) && Flows(p, e.i, t)
    ensures EndFlows(NextPhase(c, w.proc, p, e), e.i, Noted(w, e, e.i, t))
  {
  }

  lemma OwnFlows(c: Config, w: World, p: Phase, e: Event, t: Tally)
    requires !e.Receive? && AtPoint(c, p, e) && Valid(w.proc) && Flows(p, e.i, t)
    ensures Flows(NextPhase(c, w.proc, p, e), e.i, Noted(w, e, e.i, t))
  {
    OwnBuildFlows(c, w, p, e, t);
    OwnSendFlows(c, w, p, e, t);
    OwnPollFlows(c, w, p, e, t);
    OwnEndFlows(c, w, p, e, t);
  }

  lemma StepFlows(c: Config, w: World, e: Event, i: nat, t: Tally)
    requires Enabled(c, w, e) && Inv(c, w) && Flows(PhaseOf(w, i), i, t)
    ensures Flows(PhaseOf(Step(c, w, e), i), i, Noted(w, e, i, t))
  {
    if e.Receive? || e.i != i {
      assert PhaseOf(Step(c, w, e), i) == PhaseOf(w, i);
      OthersFlow(w, PhaseOf(w, i), e, i, t);
    } else {
      OwnFlows(c, w, PhaseOf(w, i), e, t);
    }
  }

  lemma {:induction false} RunFlows(c: Config, w: World, events: seq<Event>, i: nat, t: Tally)
    requires Run(c, w, events) && Inv(c, w) && Flows(PhaseOf(w, i), i, t)
    ensures Flows(PhaseOf(After(c, w, events), i), i, Tallied(c, w, events, i, t))
    decreases |events|
  {
    if events != [] {
      StepKeepsInv(c, w, events[0]);
      StepFlows(c, w, events[0], i, t);
      RunFlows(c, Step(c, w, events[0]), events[1..], i, Noted(w, events[0], i, t));
    }
  }

  lemma {:induction false} TallyCounts(c: Config, w: World, events: seq<Event>, i: nat, t: Tally)
    requires Run(c, w, events)
    ensures Tallied(c, w, events, i, t).past == t.past + multiset(events)
    decreases |events|
  {
    if events != [] {
      TallyCounts(c, Step(c, w, events[0]), events[1..], i, Noted(w, events[0], i, t));
      assert events == [events[0]] + events[1..];
    }
  }

  /** The flows of a message after a run from the start. */
  lemma MessageFlows(c: Config, events: seq<Event>, i: nat) returns (t: Tally)
    requires Run(c, INIT_WORLD, events)
    ensures t == Tallied(c, INIT_WORLD, events, i, NONE_YET) && t.past == multiset(events)
    ensures Flows(PhaseOf(After(c, INIT_WORLD, events), i), i, t)
  {
    t := Tallied(c, INIT_WORLD, events, i, NONE_YET);
    RunFlows(c, INIT_WORLD, events, i, NONE_YET);
    TallyCounts(c, INIT_WORLD, events, i, NONE_YET);
  }

  /** Over every run, each step follows what has happened to its message: a build follows a lookup that found a
      nonce, a send follows a build that succeeded, polling, timing out and reporting follow a send that
      succeeded, and a transaction is cancelled as not built or not sent only where its build or send failed.
      But for polls, no step happens twice to a message. */
  lemma EachStepFollows(c: Config, events: seq<Event>, e: Event)
    requires Run(c, INIT_WORLD, events) && Enabled(c, After(c, INIT_WORLD, events), e) && !e.Receive?
    ensures var t := Tallied(c, INIT_WORLD, events, e.i, NONE_YET);
            (e.Enter? || e.Reject? ==> t.found + t.refused == 0) && (e.Build? ==> t.found == 1 && t.refused == 0)
    ensures e.CancelUnbuilt? ==> Build(e.i, false) in events && Build(e.i, true) !in events
    ensures e.StartSend? || e.EndSend? ==> Build(e.i, true) in events && Build(e.i, false) !in events
    ensures e.EndSend? ==> StartSend(e.i) in events
    ensures e.CancelUnsent? ==> EndSend(e.i, false) in events && EndSend(e.i, true) !in events
    ensures e.PollReceipt? || e.TimeOut? || e.NextDelay? || e.ReportMined? || e.Close? ==>
              EndSend(e.i, true) in events && EndSend(e.i, false) !in events
    ensures e.NextDelay? ==> PollReceipt(e.i, false) in events
    ensures e.ReportMined? ==> PollReceipt(e.i, true) in events
    ensures e.Close? ==> TimeOut(e.i) in events || ReportMined(e.i) in events
    ensures e.Build? || e.StartSend? || e.EndSend? || e.ReplyError? || e.Close? ==> e !in events
  {
    var t := MessageFlows(c, events, e.i);
  }

  /** How a finished message was answered: as rejected if it was never entered, with an error exactly if its
      lookup, its build or its send failed, and with its receipt or as timed out exactly if its send succeeded. */
  lemma FinishedMessageWasAnswered(c: Config, events: seq<Event>, i: nat)
    requires Run(c, INIT_WORLD, events) && i < |After(c, INIT_WORLD, events).msgs|
    requires After(c, INIT_WORLD, events).msgs[i].phase.Done?
    ensures var t := Tallied(c, INIT_WORLD, events, i, NONE_YET);
            && (Reject(i) in events <==> t.found == 0 && t.refused == 0)
            && (ReplyError(i) in events <==>
                  t.refused > 0 || Build(i, false) in events || EndSend(i, false) in events)
    ensures TimeOut(i) in events || ReportMined(i) in events <==> EndSend(i, true) in events
    ensures ReportMined(i) in events <==> PollReceipt(i, true) in events
  {
    var t := MessageFlows(c, events, i);
  }

  // ---------- No dead ends ----------

  function PhaseRank(c: Config, p: Phase): nat {
    var polling := 2 * c.maxPolls;
    match p
    case Arrived => polling + 9
    case Building(_) => polling + 8
    case Queued(_) => polling + 7
    case Sending(_) => polling + 6
    case Sleeping(_, polls) => (if polls <= c.maxPolls then 2 * (c.maxPolls - polls) else 0) + 4
    case NotMined(_, polls) => if polls < c.maxPolls then 2 * (c.maxPolls - polls) + 3 else 5
    case Mined(_) => 2
    case BuildFailed(_) => 2
    case SendFailed(_) => 2
    case Closing(_) => 1
    case OwesReply => 1
    case Done => 0
  }

  function Rank(c: Config, msgs: seq<Message>): nat {
    if msgs == [] then 0 else PhaseRank(c, msgs[|msgs|-1].phase) + Rank(c, msgs[..|msgs|-1])
  }

  lemma RankOfUpdate(c: Config, msgs: seq<Message>, i: nat, m: Message)
    requires i < |msgs|
    ensures Rank(c, msgs[i := m]) == Rank(c, msgs) - PhaseRank(c, msgs[i].phase) + PhaseRank(c, m.phase)
    ensures Rank(c, msgs) >= PhaseRank(c, msgs[i].phase)
  {
    var msgs' := msgs[i := m];
    if i == |msgs| - 1 {
      assert msgs'[..i] == msgs[..i];
    } else {
      RankOfUpdate(c, msgs[..|msgs|-1], i, m);
      assert msgs'[..|msgs|-1] == msgs[..|msgs|-1][i := m];
    }
  }

  /** Every step of a goroutine brings its message nearer to the end. */
  lemma StepLowersRank(c: Config, w: World, e: Event)
    requires Enabled(c, w, e) && !e.Receive?
    ensures Rank(c, Step(c, w, e).msgs) < Rank(c, w.msgs)
  {
    RankOfUpdate(c, w.msgs, e.i, Step(c, w, e).msgs[e.i]);
  }

  lemma SomeoneSends(msgs: seq<Message>) returns (i: nat)
    requires CountSending(msgs) > 0
    ensures i < |msgs| && msgs[i].phase.Sending?
  {
    i := |msgs| - 1;
    if !msgs[i].phase.Sending? {
      i := SomeoneSends(msgs[..|msgs|-1]);
    }
  }

  /** While the lock is free, a message that is not finished is never stuck for good: some goroutine can go on,
      whatever the node answers. */
  lemma NeverStuck(c: Config, w: World, i: nat) returns (e: Event)
    requires Inv(c, w) && !w.proc.lockHeld && i < |w.msgs| && !w.msgs[i].phase.Done?
    ensures !e.Receive? && !e.Enter? && Enabled(c, w, e)
    ensures e.i == i || (w.msgs[i].phase.Queued? && !CanStartSend(c, w) && w.msgs[e.i].phase.Sending?)
  {
    match w.msgs[i].phase
    case Arrived => e := Reject(i);
    case Building(_) => e := Build(i, true);
    case BuildFailed(_) => e := CancelUnbuilt(i);
    case Queued(_) =>
      if CanStartSend(c, w) {
        e := StartSend(i);
      } else {
        var j := SomeoneSends(w.msgs);
        e := EndSend(j, true);
      }
    case Sending(_) => e := EndSend(i, true);
    case SendFailed(_) => e := CancelUnsent(i);
    case Sleeping(_, _) => e := TimeOut(i);
    case NotMined(_, _) => e := NextDelay(i);
    case Mined(_) => e := ReportMined(i);
    case Closing(_) => e := Close(i);
    case OwesReply => e := ReplyError(i);
  }

  ghost predicate Finished(w: World) {
    forall i :: 0 <= i < |w.msgs| ==> w.msgs[i].phase.Done?
  }

  /** No request in the run carries a nonce that does not parse. */
  ghost predicate NoncesParse(events: seq<Event>) {
    forall k :: 0 <= k < |events| && events[k].Enter? ==> !events[k].req.supplied.Unparsable?
  }

  /** A run of the goroutines alone that cannot go on. */
  ghost predicate Exhausted(c: Config, w: World) {
    forall e :: Enabled(c, w, e) ==> e.Receive? || e.Enter?
  }

  /** The lock is kept exactly by a request whose nonce does not parse. */
  lemma {:induction false} LockIsKeptIffNonceBad(c: Config, w: World, events: seq<Event>)
    requires Run(c, w, events)
    ensures After(c, w, events).proc.lockHeld <==> w.proc.lockHeld || !NoncesParse(events)
    decreases |events|
  {
    if events != [] {
      var w' := Step(c, w, events[0]);
      LockIsKeptIffNonceBad(c, w', events[1..]);
      assert NoncesParse(events) <==>
        (events[0].Enter? ==> !events[0].req.supplied.Unparsable?) && NoncesParse(events[1..])
      by {
        assert events == [events[0]] + events[1..];
      }
    }
  }

  /** Where every supplied nonce parses, a run that cannot go on has answered every message exactly once, and
      has no transaction listed and no slot taken. By StepLowersRank every run gets there. */
  lemma GoroutinesEndWithOneReplyEach(c: Config, events: seq<Event>)
    requires Run(c, INIT_WORLD, events) && NoncesParse(events)
    ensures var w := After(c, INIT_WORLD, events);
            Exhausted(c, w) ==>
              && Finished(w)
              && (forall i :: 0 <= i < |w.msgs| ==> w.msgs[i].replies == 1)
              && (forall t :: !Listed(w.proc, t))
              && w.slots == 0
  {
    var w := After(c, INIT_WORLD, events);
    RunKeepsInv(c, INIT_WORLD, events);
    LockIsKeptIffNonceBad(c, INIT_WORLD, events);
    if Exhausted(c, w) {
      forall i | 0 <= i < |w.msgs| ensures w.msgs[i].phase.Done? {
        if !w.msgs[i].phase.Done? {
          var e := NeverStuck(c, w, i);
        }
      }
      if CountSending(w.msgs) > 0 {
        var i := SomeoneSends(w.msgs);
      }
    }
  }

  // ---------- After a nonce that does not parse ----------

  /** Once the lock is kept, no message whose transaction is listed ever finishes: at most it is told, by one
      last poll, that it timed out. Nothing is added or removed any more. */
  lemma {:induction false} KeptLockStopsEveryTransaction(c: Config, w: World, events: seq<Event>, i: nat)
    requires w.proc.lockHeld && Run(c, w, events) && i < |w.msgs|
    ensures var w' := After(c, w, events);
            && i < |w'.msgs| && w'.proc == w.proc
            && (HasTxn(w.msgs[i].phase) ==>
                  HasTxn(w'.msgs[i].phase) && w'.msgs[i].phase.txn == w.msgs[i].phase.txn)
            && (HasTxn(w.msgs[i].phase) && !w.msgs[i].phase.Closing? && w'.msgs[i].phase.Closing? ==>
                  TimeOut(i) in events)
    decreases |events|
  {
    if events != [] {
      KeptLockStopsEveryTransaction(c, Step(c, w, events[0]), events[1..], i);
    }
  }
}
