/** The transaction processor (internal/maidenlanetx/txnprocessor.go): nonces, the list of transactions in
    flight for each address, gap filling, and one reply for each message. */
module TxnProcessor {
  import opened Wrappers

  type Address = string

  datatype Inflight = Inflight(id: int, from: Address, nodeAssignNonce: bool, nonce: int)

  datatype AddressState = AddressState(txns: seq<Inflight>, highestNonce: int)

  /** What the lock protects, and whether someone returned without releasing it. */
  datatype State = State(inflight: map<Address, AddressState>, nextID: int, lockHeld: bool)

  datatype Supplied = NoNonce | Nonce(nonce: int) | Unparsable

  /** A request whose address was resolved. `managed` says that the processor must choose the nonce:
      it signs the transaction itself, or is configured to manage every nonce. */
  datatype Request = Request(from: Address, managed: bool, supplied: Supplied, isPrivate: bool)

  /** What the node answers when it is asked for a transaction count. */
  datatype Counts = Counts(privateCount: Option<int>, publicCount: Option<int>)

  datatype Source = FromUser | FromPrivateCount | FromMemory | FromNode | LeftToNode

  datatype Added = Added(txn: Inflight, source: Source)

  datatype AddError = BadNonce | PrivateCountFailed | PublicCountFailed

  const INIT := State(map[], 1_000_000, false)

  // ---------- Adding a transaction ----------

  function EntryOf(s: State, a: Address): AddressState {
    if a in s.inflight then s.inflight[a] else AddressState([], 0)
  }

  /** Whether a request is served from memory: a managed one without a nonce, for an address known already. */
  predicate UsesMemory(s: State, req: Request) {
    req.supplied.NoNonce? && !req.isPrivate && req.managed && req.from in s.inflight
    && s.inflight[req.from].highestNonce >= 0
  }

  /** Whether the public transaction count is read from the node. */
  predicate ReadsNode(s: State, req: Request) {
    req.supplied.NoNonce? && !req.isPrivate && req.managed && !UsesMemory(s, req)
  }

  function Choose(s: State, req: Request, counts: Counts): Result<Added, AddError> {
    var txn := Inflight(s.nextID, req.from, false, 0);
    match req.supplied
    case Nonce(n) => Ok(Added(txn.(nonce := n), FromUser))
    case Unparsable => Err(BadNonce)
    case NoNonce =>
      if req.isPrivate then
        (match counts.privateCount
         case None => Err(PrivateCountFailed)
         case Some(n) => Ok(Added(txn.(nonce := n), FromPrivateCount)))
      else if UsesMemory(s, req) then Ok(Added(txn.(nonce := s.inflight[req.from].highestNonce + 1), FromMemory))
      else if !req.managed then Ok(Added(txn.(nodeAssignNonce := true), LeftToNode))
      else (match counts.publicCount
            case None => Err(PublicCountFailed)
            case Some(n) => Ok(Added(txn.(nonce := n), FromNode)))
  }

  /** The address gets an entry even if no nonce is found. A nonce from memory is stored; a nonce read from
      the node is not, while a failed read stores zero. An unparsable nonce returns with the lock held. */
  function Add(s: State, req: Request, counts: Counts): State {
    var entry := EntryOf(s, req.from);
    var entry' :=
      match Choose(s, req, counts)
      case Ok(added) =>
        AddressState(entry.txns + [added.txn], if added.source.FromMemory? then added.txn.nonce else entry.highestNonce)
      case Err(PublicCountFailed) => entry.(highestNonce := 0)
      case Err(_) => entry;
    State(s.inflight[req.from := entry'], s.nextID + 1, s.lockHeld || req.supplied.Unparsable?)
  }

  // ---------- Cancelling a transaction ----------

  function RemoveId(txns: seq<Inflight>, id: int): seq<Inflight> {
    if txns == [] then []
    else if txns[0].id == id then txns[1..]
    else [txns[0]] + RemoveId(txns[1..], id)
  }

  /** The highest nonce above the given one, or -1. */
  function HigherNonce(txns: seq<Inflight>, nonce: int): int {
    if txns == [] then -1
    else
      var higher, last := HigherNonce(txns[..|txns|-1], nonce), txns[|txns|-1].nonce;
      if last > nonce && last > higher then last else higher
  }

  /** The list of an address is replaced; an empty one takes the address with it. */
  function PutList(s: State, a: Address, txns: seq<Inflight>): State
    requires a in s.inflight
  {
    s.(inflight := if txns == [] then s.inflight - {a} else s.inflight[a := s.inflight[a].(txns := txns)])
  }

  function Cancel(s: State, txn: Inflight): State {
    if txn.from !in s.inflight then s
    else PutList(s, txn.from, RemoveId(s.inflight[txn.from].txns, txn.id))
  }

  /** Whether cancelling leaves a gap that needs a filler transaction. */
  function LeavesGap(s: State, txn: Inflight, gapPotential: bool): bool {
    txn.from in s.inflight && gapPotential && !txn.nodeAssignNonce
    && HigherNonce(RemoveId(s.inflight[txn.from].txns, txn.id), txn.nonce) > 0
  }

  lemma {:induction false} RemoveIdKeepsRest(txns: seq<Inflight>, k: nat)
    requires k < |txns| && forall j :: 0 <= j < k ==> txns[j].id != txns[k].id
    ensures RemoveId(txns, txns[k].id) == txns[..k] + txns[k + 1..]
  {
    if k > 0 {
      assert txns[1..][k - 1] == txns[k];
      RemoveIdKeepsRest(txns[1..], k - 1);
      assert txns[..k] == [txns[0]] + txns[1..][..k - 1];
      assert txns[k + 1..] == txns[1..][k..];
    }
  }

  lemma {:induction false} RemoveIdOfStranger(txns: seq<Inflight>, id: int)
    requires forall t :: t in txns ==> t.id != id
    ensures RemoveId(txns, id) == txns
  {
    if txns != [] {
      assert txns[0] in txns;
      RemoveIdOfStranger(txns[1..], id);
    }
  }

  lemma {:induction false} HigherNonceIsMaximum(txns: seq<Inflight>, nonce: int)
    ensures HigherNonce(txns, nonce) >= -1
    ensures forall t :: t in txns && t.nonce > nonce ==> t.nonce <= HigherNonce(txns, nonce)
    ensures HigherNonce(txns, nonce) > -1 ==>
              exists t :: t in txns && t.nonce > nonce && t.nonce == HigherNonce(txns, nonce)
  {
    if txns != [] {
      HigherNonceIsMaximum(txns[..|txns|-1], nonce);
      assert txns == txns[..|txns|-1] + [txns[|txns|-1]];
    }
  }

  // ---------- What the state keeps ----------

  ghost predicate DistinctIds(txns: seq<Inflight>) {
    forall i, j :: 0 <= i < j < |txns| ==> txns[i].id != txns[j].id
  }

  ghost predicate Valid(s: State) {
    forall a :: a in s.inflight ==>
      && s.inflight[a].highestNonce >= 0
      && DistinctIds(s.inflight[a].txns)
      && forall t :: t in s.inflight[a].txns ==> t.from == a && t.id < s.nextID
  }

  lemma AddKeepsValid(s: State, req: Request, counts: Counts)
    requires Valid(s)
    ensures Valid(Add(s, req, counts))
    ensures var s' := Add(s, req, counts);
            forall a :: a in s.inflight ==>
              a in s'.inflight && s.inflight[a].highestNonce <= s'.inflight[a].highestNonce
  {
  }

  lemma PutListKeepsValid(s: State, a: Address, txns: seq<Inflight>)
    requires Valid(s) && a in s.inflight && DistinctIds(txns)
    requires forall t :: t in txns ==> t in s.inflight[a].txns
    ensures Valid(PutList(s, a, txns))
  {
  }

  lemma WithoutOneKeepsDistinct(txns: seq<Inflight>, k: nat)
    requires DistinctIds(txns) && k < |txns|
    ensures DistinctIds(txns[..k] + txns[k + 1..])
    ensures forall t :: t in txns[..k] + txns[k + 1..] ==> t in txns
  {
  }

  /** Cancelling removes exactly the given transaction, keeps the order of the others and everything else,
      and drops the address when its last transaction leaves. */
  lemma CancelRemovesExactly(s: State, a: Address, k: nat)
    requires Valid(s) && a in s.inflight && k < |s.inflight[a].txns|
    ensures var txns := s.inflight[a].txns;
            var s' := Cancel(s, txns[k]);
            && Valid(s')
            && s'.inflight - {a} == s.inflight - {a}
            && (|txns| == 1 <==> a !in s'.inflight)
            && (|txns| > 1 ==> s'.inflight[a] == AddressState(txns[..k] + txns[k + 1..], s.inflight[a].highestNonce))
  {
    var txns := s.inflight[a].txns;
    assert txns[k] in txns;
    var rest := txns[..k] + txns[k + 1..];
    assert Cancel(s, txns[k]) == PutList(s, a, rest) by {
      RemoveIdKeepsRest(txns, k);
    }
    WithoutOneKeepsDistinct(txns, k);
    PutListKeepsValid(s, a, rest);
    assert |rest| == |txns| - 1;
  }

  lemma WithoutOneHasOthers(txns: seq<Inflight>, k: nat, rest: seq<Inflight>)
    requires k < |txns| && rest == txns[..k] + txns[k + 1..]
    ensures forall j :: 0 <= j < |txns| && j != k ==> txns[j] in rest
    ensures forall t :: t in rest ==> exists j :: 0 <= j < |txns| && j != k && txns[j] == t
  {
    forall j | 0 <= j < |txns| && j != k ensures txns[j] in rest {
      assert rest[if j < k then j else j - 1] == txns[j];
    }
    forall t | t in rest ensures exists j :: 0 <= j < |txns| && j != k && txns[j] == t {
      var i :| 0 <= i < |rest| && rest[i] == t;
      assert txns[if i < k then i else i + 1] == t;
    }
  }

  /** A gap is filled exactly when that is possible and a remaining transaction of the address has a higher
      nonce; nonces below one never count as higher, which matters only for negative nonces. */
  lemma GapIffHigherNonceRemains(s: State, a: Address, k: nat, gapPotential: bool)
    requires Valid(s) && a in s.inflight && k < |s.inflight[a].txns|
    ensures var txns := s.inflight[a].txns;
            LeavesGap(s, txns[k], gapPotential) <==>
              && gapPotential && !txns[k].nodeAssignNonce
              && exists j :: 0 <= j < |txns| && j != k && txns[j].nonce > txns[k].nonce && txns[j].nonce > 0
  {
    var txns := s.inflight[a].txns;
    assert txns[k] in txns;
    var rest := txns[..k] + txns[k + 1..];
    assert RemoveId(txns, txns[k].id) == rest by { RemoveIdKeepsRest(txns, k); }
    HigherNonceIsMaximum(rest, txns[k].nonce);
    WithoutOneHasOthers(txns, k, rest);
  }

  // ---------- Nonces over a run ----------

  datatype Op = AddOp(req: Request, counts: Counts) | CancelOp(txn: Inflight)

  function Apply(s: State, op: Op): State {
    match op
    case AddOp(req, counts) => Add(s, req, counts)
    case CancelOp(txn) => Cancel(s, txn)
  }

  /** The address has an entry now and after each operation. */
  predicate Stays(s: State, ops: seq<Op>, a: Address)
    decreases |ops|
  {
    a in s.inflight && (ops != [] ==> Stays(Apply(s, ops[0]), ops[1..], a))
  }

  function Final(s: State, ops: seq<Op>): State
    decreases |ops|
  {
    if ops == [] then s else Final(Apply(s, ops[0]), ops[1..])
  }

  // ---------- What a transaction carries ----------

  /** No nonce can be found for a request: it does not parse, or the count that is needed cannot be read. */
  predicate LookupFails(s: State, req: Request, counts: Counts) {
    || req.supplied.Unparsable?
    || (req.supplied.NoNonce? && req.isPrivate && counts.privateCount.None?)
    || (req.supplied.NoNonce? && !req.isPrivate && req.managed && req.from !in s.inflight && counts.publicCount.None?)
  }

  /** A transaction is what a request asks for in a state: with the nonce that was supplied, else with the private
      count, else without one if the node is to choose it, else one above the highest of a known address, else with
      the public count. */
  predicate Carries(s: State, req: Request, counts: Counts, t: Inflight) {
    && t.id == s.nextID && t.from == req.from
    && t.nodeAssignNonce == (req.supplied.NoNonce? && !req.isPrivate && !req.managed)
    && match req.supplied
       case Nonce(n) => t.nonce == n
       case Unparsable => false
       case NoNonce =>
         if req.isPrivate then counts.privateCount == Some(t.nonce)
         else if !req.managed then t.nonce == 0
         else if req.from in s.inflight then t.nonce == s.inflight[req.from].highestNonce + 1
         else counts.publicCount == Some(t.nonce)
  }

  /** A request adds such a transaction at the end of the list of its address, or none if its lookup fails, and
      leaves everything else; only a nonce from memory becomes the highest. */
  lemma AddMeaning(s: State, req: Request, counts: Counts)
    requires Valid(s)
    ensures var s' := Add(s, req, counts);
            && s'.nextID == s.nextID + 1 && s'.lockHeld == (s.lockHeld || req.supplied.Unparsable?)
            && s'.inflight - {req.from} == s.inflight - {req.from} && req.from in s'.inflight
    ensures var known, entry' := req.from in s.inflight, Add(s, req, counts).inflight[req.from];
            var entry := if known then s.inflight[req.from] else AddressState([], 0);
            if LookupFails(s, req, counts) then entry' == entry
            else
              && |entry'.txns| == |entry.txns| + 1 && entry'.txns[..|entry.txns|] == entry.txns
              && var t := entry'.txns[|entry.txns|];
                 && Carries(s, req, counts, t)
                 && entry'.highestNonce
                    == if req.supplied.NoNonce? && !req.isPrivate && req.managed && known then t.nonce
                       else entry.highestNonce
  {
  }

  predicate Listed(s: State, t: Inflight) {
    t.from in s.inflight && t in s.inflight[t.from].txns
  }

  /** The k-th operation added a transaction. */
  predicate AddedBy(ops: seq<Op>, k: nat, t: Inflight) {
    && k < |ops| && ops[k].AddOp?
    && !LookupFails(Final(INIT, ops[..k]), ops[k].req, ops[k].counts)
    && Carries(Final(INIT, ops[..k]), ops[k].req, ops[k].counts, t)
  }

  lemma {:induction false} FinalOfMore(s: State, ops: seq<Op>, op: Op)
    ensures Final(s, ops + [op]) == Apply(Final(s, ops), op)
    decreases |ops|
  {
    if ops == [] {
      assert [op][1..] == [];
    } else {
      assert (ops + [op])[1..] == ops[1..] + [op];
      FinalOfMore(Apply(s, ops[0]), ops[1..], op);
    }
  }

  lemma {:induction false} RestIsFromList(txns: seq<Inflight>, id: int)
    requires DistinctIds(txns)
    ensures DistinctIds(RemoveId(txns, id))
    ensures forall t :: t in RemoveId(txns, id) <==> t in txns && t.id != id
  {
    if txns != [] {
      assert txns == [txns[0]] + txns[1..];
      assert forall t :: t in txns[1..] ==> t.id != txns[0].id;
      RestIsFromList(txns[1..], id);
      if txns[0].id != id {
        var rest := RemoveId(txns[1..], id);
        assert forall j :: 0 <= j < |rest| ==> rest[j] in rest;
      }
    }
  }

  /** Cancelling takes exactly the transaction with its id off the list of its address. */
  lemma CancelLists(s: State, txn: Inflight)
    requires Valid(s)
    ensures Valid(Cancel(s, txn))
    ensures forall t :: Listed(Cancel(s, txn), t) <==> Listed(s, t) && !(t.from == txn.from && t.id == txn.id)
  {
    if txn.from in s.inflight {
      var txns := s.inflight[txn.from].txns;
      RestIsFromList(txns, txn.id);
      PutListKeepsValid(s, txn.from, RemoveId(txns, txn.id));
    }
  }

  lemma AddListsOne(s: State, req: Request, counts: Counts, t: Inflight)
    requires Valid(s)
    ensures Listed(s, t) ==> Listed(Add(s, req, counts), t)
    ensures Listed(Add(s, req, counts), t) && !Listed(s, t) ==>
              !LookupFails(s, req, counts) && Carries(s, req, counts, t)
  {
    var s' := Add(s, req, counts);
    if t.from == req.from {
      AddMeaning(s, req, counts);
    } else {
      assert t.from in s'.inflight <==> t.from in s.inflight;
    }
  }

  lemma AddedByFront(ops: seq<Op>, op: Op, k: nat, t: Inflight)
    requires AddedBy(ops, k, t)
    ensures AddedBy(ops + [op], k, t)
  {
    assert (ops + [op])[..k] == ops[..k];
  }

  lemma AddedByLast(ops: seq<Op>, op: Op, t: Inflight)
    requires op.AddOp? && !LookupFails(Final(INIT, ops), op.req, op.counts)
    requires Carries(Final(INIT, ops), op.req, op.counts, t)
    ensures AddedBy(ops + [op], |ops|, t)
  {
    assert (ops + [op])[..|ops|] == ops;
  }

  lemma ApplyLists(s: State, op: Op, t: Inflight)
    requires Valid(s)
    ensures Valid(Apply(s, op))
    ensures Listed(Apply(s, op), t) && !Listed(s, t) ==>
              op.AddOp? && !LookupFails(s, op.req, op.counts) && Carries(s, op.req, op.counts, t)
    ensures Listed(s, t) && !(op.CancelOp? && op.txn.from == t.from && op.txn.id == t.id) ==> Listed(Apply(s, op), t)
  {
    match op
    case AddOp(req, counts) =>
      AddKeepsValid(s, req, counts);
      AddListsOne(s, req, counts, t);
    case CancelOp(txn) => CancelLists(s, txn);
  }

  lemma {:induction false} ListedWasAdded(ops: seq<Op>, t: Inflight)
    ensures Valid(Final(INIT, ops))
    ensures Listed(Final(INIT, ops), t) ==> exists k: nat :: AddedBy(ops, k, t)
    decreases |ops|
  {
    if ops != [] {
      var front, op := ops[..|ops|-1], ops[|ops|-1];
      ListedWasAdded(front, t);
      assert ops == front + [op];
      FinalOfMore(INIT, front, op);
      ApplyLists(Final(INIT, front), op, t);
      if Listed(Final(INIT, front), t) {
        var k: nat :| AddedBy(front, k, t);
        AddedByFront(front, op, k, t);
      } else if Listed(Final(INIT, ops), t) {
        AddedByLast(front, op, t);
      }
    }
  }

  /** In every run, whatever is listed was added by a request whose nonce it carries, as it was then asked for and
      as the address then was. */
  lemma ListedCarriesItsRequest(ops: seq<Op>, t: Inflight)
    requires Listed(Final(INIT, ops), t)
    ensures exists k: nat :: AddedBy(ops, k, t)
  {
    ListedWasAdded(ops, t);
  }

  /** And it stays listed until it is cancelled. */
  lemma {:induction false} ListedUntilCancelled(s: State, ops: seq<Op>, t: Inflight)
    requires Valid(s) && Listed(s, t)
    requires forall k :: 0 <= k < |ops| && ops[k].CancelOp? ==> !(ops[k].txn.from == t.from && ops[k].txn.id == t.id)
    ensures Listed(Final(s, ops), t)
    decreases |ops|
  {
    if ops != [] {
      ApplyLists(s, ops[0], t);
      ListedUntilCancelled(Apply(s, ops[0]), ops[1..], t);
    }
  }

  // ---------- Nonces from memory ----------

  /** The nonces handed out from memory for an address, in order. */
  function MemoryNonces(s: State, ops: seq<Op>, a: Address): seq<int>
    decreases |ops|
  {
    if ops == [] then []
    else
      (match ops[0]
       case AddOp(req, counts) =>
         if req.from == a && UsesMemory(s, req) then [Choose(s, req, counts).value.txn.nonce] else []
       case CancelOp(_) => [])
      + MemoryNonces(Apply(s, ops[0]), ops[1..], a)
  }

  /** How often the node's public transaction count is read for an address. */
  function NodeReads(s: State, ops: seq<Op>, a: Address): nat
    decreases |ops|
  {
    if ops == [] then 0
    else (if ops[0].AddOp? && ops[0].req.from == a && ReadsNode(s, ops[0].req) then 1 else 0)
         + NodeReads(Apply(s, ops[0]), ops[1..], a)
  }

  /** What one operation hands out from memory for an address. */
  lemma OneOperation(s: State, op: Op, a: Address)
    requires a in s.inflight && s.inflight[a].highestNonce >= 0 && a in Apply(s, op).inflight
    ensures var h := s.inflight[a].highestNonce;
            && (MemoryNonces(s, [op], a) == [] || MemoryNonces(s, [op], a) == [h + 1])
            && Apply(s, op).inflight[a].highestNonce == h + |MemoryNonces(s, [op], a)|
    ensures NodeReads(s, [op], a) == 0
  {
    assert MemoryNonces(Apply(s, op), [op][1..], a) == [];
    assert NodeReads(Apply(s, op), [op][1..], a) == 0;
  }

  /** For as long as an address keeps its entry, the nonces from memory are consecutive, so none repeats, and
      the node is not read again, whatever supplied, private and node-assigned transactions come between. */
  lemma {:induction false} MemoryNoncesAreConsecutive(s: State, ops: seq<Op>, a: Address)
    requires a in s.inflight && s.inflight[a].highestNonce >= 0 && Stays(s, ops, a)
    ensures var h, nonces := s.inflight[a].highestNonce, MemoryNonces(s, ops, a);
            && (forall i :: 0 <= i < |nonces| ==> nonces[i] == h + 1 + i)
            && a in Final(s, ops).inflight && Final(s, ops).inflight[a].highestNonce == h + |nonces|
    ensures NodeReads(s, ops, a) == 0
    decreases |ops|
  {
    if ops != [] {
      var s' := Apply(s, ops[0]);
      OneOperation(s, ops[0], a);
      MemoryNoncesAreConsecutive(s', ops[1..], a);
      assert MemoryNonces(s, ops, a) == MemoryNonces(s, [ops[0]], a) + MemoryNonces(s', ops[1..], a);
    }
  }

  /** The nonce after one read from the node comes from memory, where the read was not stored: it is 1. So it
      follows the node's nonce exactly when that was 0. */
  lemma NonceAfterNodeReadFollowsIffZero(s: State, a: Address, n: int, counts: Counts, ops: seq<Op>)
    requires a !in s.inflight
    requires Stays(Add(s, Request(a, true, NoNonce, false), Counts(counts.privateCount, Some(n))), ops, a)
    requires MemoryNonces(Add(s, Request(a, true, NoNonce, false), Counts(counts.privateCount, Some(n))), ops, a) != []
    ensures var read := Counts(counts.privateCount, Some(n));
            var first := Choose(s, Request(a, true, NoNonce, false), read);
            var nonces := MemoryNonces(Add(s, Request(a, true, NoNonce, false), read), ops, a);
            && first.Ok? && first.value.txn.nonce == n && first.value.source == FromNode
            && nonces[0] == 1
            && (nonces[0] == n + 1 <==> n == 0)
  {
    var s' := Add(s, Request(a, true, NoNonce, false), Counts(counts.privateCount, Some(n)));
    MemoryNoncesAreConsecutive(s', ops, a);
  }

  /** A request for a new address leaves an empty entry behind exactly if it fails, whether its nonce does not
      parse or one of the node's two counts cannot be read. */
  lemma EmptyEntryIffFailed(s: State, req: Request, counts: Counts)
    requires req.from !in s.inflight
    ensures Add(s, req, counts).inflight[req.from] == AddressState([], 0) <==>
              || req.supplied.Unparsable?
              || (req.supplied.NoNonce? && req.isPrivate && counts.privateCount.None?)
              || (req.supplied.NoNonce? && !req.isPrivate && req.managed && counts.publicCount.None?)
    ensures Add(s, req, counts).inflight[req.from] == AddressState([], 0) <==> Choose(s, req, counts).Err?
  {
    if Choose(s, req, counts).Ok? {
      assert |Add(s, req, counts).inflight[req.from].txns| == 1;
    }
  }

  /** Either way, the address counts as known from then on: for as long as its entry stays, the node is not asked,
      and the first nonce from memory is 1, whatever nonce was supplied, read or left to the node before. */
  lemma FirstMemoryNonceIsOne(s: State, req: Request, counts: Counts, ops: seq<Op>)
    requires req.from !in s.inflight && Stays(Add(s, req, counts), ops, req.from)
    ensures NodeReads(Add(s, req, counts), ops, req.from) == 0
    ensures var nonces := MemoryNonces(Add(s, req, counts), ops, req.from);
            nonces != [] ==> nonces[0] == 1
  {
    MemoryNoncesAreConsecutive(Add(s, req, counts), ops, req.from);
  }

  /** In particular for the very next managed request. */
  lemma NextManagedNonceIsOne(s: State, req: Request, counts: Counts, next: Counts)
    requires req.from !in s.inflight
    ensures var s', managed := Add(s, req, counts), Request(req.from, true, NoNonce, false);
            && !ReadsNode(s', managed)
            && Choose(s', managed, next) == Ok(Added(Inflight(s'.nextID, req.from, false, 1), FromMemory))
  {
  }

  // ---------- The processor's methods ----------

  /** The first loop of cancelInFlight: removes the first transaction with the given id. */
  method Without(txns: seq<Inflight>, id: int) returns (rest: seq<Inflight>)
    ensures rest == RemoveId(txns, id)
  {
    var idx := 0;
    while idx < |txns| && txns[idx].id != id
      invariant 0 <= idx <= |txns|
      invariant forall j :: 0 <= j < idx ==> txns[j].id != id
    {
      idx := idx + 1;
    }
    if idx < |txns| {
      RemoveIdKeepsRest(txns, idx);
      rest := txns[..idx] + txns[idx + 1..];
    } else {
      RemoveIdOfStranger(txns, id);
      rest := txns;
    }
  }

  /** Its second loop: the highest nonce above the given one. */
  method HighestAbove(txns: seq<Inflight>, nonce: int) returns (higher: int)
    ensures higher == HigherNonce(txns, nonce)
  {
    higher := -1;
    for i := 0 to |txns|
      invariant higher == HigherNonce(txns[..i], nonce)
    {
      assert txns[..i + 1][..i] == txns[..i];
      if txns[i].nonce > nonce && txns[i].nonce > higher {
        higher := txns[i].nonce;
      }
    }
    assert txns[..|txns|] == txns;
  }

  class Processor {
    const attemptGapFill: bool
    var inflightTxns: map<Address, AddressState>
    var highestID: int
    var lockHeld: bool

    ghost function View(): State
      reads this
    {
      State(inflightTxns, highestID, lockHeld)
    }

    constructor (attemptGapFill: bool)
      ensures this.attemptGapFill == attemptGapFill && View() == INIT
    {
      this.attemptGapFill := attemptGapFill;
      inflightTxns, highestID, lockHeld := map[], 1_000_000, false;
    }

    /** Chooses the nonce and adds the transaction to the list of its address. */
    method AddInflightWrapper(req: Request, counts: Counts) returns (r: Result<Inflight, AddError>)
      requires !lockHeld
      modifies this
      ensures View() == Add(old(View()), req, counts)
      ensures match Choose(old(View()), req, counts)
              case Ok(added) => r == Ok(added.txn)
              case Err(e) => r == Err(e)
      ensures lockHeld == req.supplied.Unparsable?
      ensures Valid(old(View())) ==>
                && (r.Ok? <==> !LookupFails(old(View()), req, counts))
                && (r.Ok? ==> Carries(old(View()), req, counts, r.value))
                && (r == Err(BadNonce) <==> req.supplied.Unparsable?)
                && (r == Err(PrivateCountFailed) <==>
                      req.supplied.NoNonce? && req.isPrivate && counts.privateCount.None?)
    {
      lockHeld := true;
      var txn := Inflight(highestID, req.from, false, 0);
      highestID := highestID + 1;
      var highestNonce := -1;
      var known := req.from in inflightTxns;
      if !known {
        inflightTxns := inflightTxns[req.from := AddressState([], 0)];
      }
      if req.managed && req.supplied.NoNonce? && known {
        highestNonce := inflightTxns[req.from].highestNonce;
      }
      if req.supplied.Nonce? {
        txn := txn.(nonce := req.supplied.nonce);
      } else if req.supplied.Unparsable? {
        return Err(BadNonce);  // without releasing the lock
      } else if req.isPrivate {
        if counts.privateCount.None? {
          lockHeld := false;
          return Err(PrivateCountFailed);
        }
        txn := txn.(nonce := counts.privateCount.value);
      } else if highestNonce >= 0 {
        txn := txn.(nonce := highestNonce + 1);
        inflightTxns := inflightTxns[req.from := inflightTxns[req.from].(highestNonce := txn.nonce)];
      } else if !req.managed {
        txn := txn.(nodeAssignNonce := true);
      } else {
        if counts.publicCount.None? {
          inflightTxns := inflightTxns[req.from := inflightTxns[req.from].(highestNonce := 0)];
          lockHeld := false;
          return Err(PublicCountFailed);
        }
        txn := txn.(nonce := counts.publicCount.value);
      }
      var entry := inflightTxns[req.from];
      inflightTxns := inflightTxns[req.from := entry.(txns := entry.txns + [txn])];
      lockHeld := false;
      return Ok(txn);
    }

    /** Removes a transaction from the list of its address; says whether a gap-filling transaction with its
        nonce is attempted. */
    method CancelInFlight(txn: Inflight, gapPotential: bool) returns (filled: bool)
      requires !lockHeld
      modifies this
      ensures View() == Cancel(old(View()), txn)
      ensures filled == (attemptGapFill && LeavesGap(old(View()), txn, gapPotential))
    {
      var higherNonce := -1;
      if txn.from in inflightTxns {
        var txns := Without(inflightTxns[txn.from].txns, txn.id);
        inflightTxns := inflightTxns[txn.from := inflightTxns[txn.from].(txns := txns)];
        if |txns| == 0 {
          inflightTxns := inflightTxns - {txn.from};
        }
        assert inflightTxns == PutList(old(View()), txn.from, txns).inflight;
        if gapPotential && !txn.nodeAssignNonce {
          higherNonce := HighestAbove(txns, txn.nonce);
        }
      }
      filled := higherNonce > 0 && attemptGapFill;
    }
  }
}
