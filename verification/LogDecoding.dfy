/** Decoding of event logs (internal/maidenlaneevents/logprocessor.go: processLogEntry, topicToValue;
    internal/maidenlaneeth/txn.go: ProcessRLPBytes). */
module LogDecoding {
  import opened Wrappers
  import opened Text
  import opened AbiTyping

  type Topic = b: seq<Byte> | |b| == 32 witness seq(32, _ => 0)

  datatype Input = Input(name: string, ty: AbiType, indexed: bool)

  datatype Event = Event(inputs: seq<Input>, anonymous: bool)

  /** A topic may be missing from its place. */
  datatype Entry = Entry(topics: seq<Option<Topic>>, data: string)

  datatype Value =
    | Null
    | Written(s: string)
    | Flag(b: bool)
    | AddressOf(bytes: seq<Byte>)
    | FromData(v: Json)
    | RawValues(vals: Option<seq<GoVal>>)
    | ErrorText

  datatype LogError = BadData | InsufficientTopics(input: nat)

  /** The libraries that are called: hexadecimal data to bytes, and bytes to values of the given types. */
  datatype Libraries = Libraries(
    hexDecode: string -> Option<seq<Byte>>,
    unpack: (seq<AbiType>, seq<Byte>) -> Option<seq<GoVal>>)

  // ---------- Numbers of 256 bits ----------

  const TWO_64: int := 0x1_0000_0000_0000_0000
  const TWO_255: int := 0x8000_0000_0000_0000_0000_0000_0000_0000_0000_0000_0000_0000_0000_0000_0000_0000
  const TWO_256: int := 2 * TWO_255

  /** Big-endian. */
  function Number(bytes: seq<Byte>): nat {
    if bytes == [] then 0 else 256 * Number(bytes[..|bytes|-1]) + bytes[|bytes|-1]
  }

  function NumberBytes(n: nat, length: nat): (bytes: seq<Byte>)
    ensures |bytes| == length
  {
    if length == 0 then [] else NumberBytes(n / 256, length - 1) + [n % 256]
  }

  function Power256(k: nat): nat {
    if k == 0 then 1 else 256 * Power256(k - 1)
  }

  lemma {:induction false} NumberIsSmall(bytes: seq<Byte>)
    ensures Number(bytes) < Power256(|bytes|)
  {
    if bytes != [] {
      NumberIsSmall(bytes[..|bytes|-1]);
    }
  }

  lemma {:induction false} NumberOfBytes(n: nat, length: nat)
    requires n < Power256(length)
    ensures Number(NumberBytes(n, length)) == n
  {
    if length > 0 {
      NumberOfBytes(n / 256, length - 1);
      assert NumberBytes(n, length)[..length - 1] == NumberBytes(n / 256, length - 1);
    }
  }

  lemma {:induction false} BytesOfNumber(bytes: seq<Byte>)
    ensures NumberBytes(Number(bytes), |bytes|) == bytes
  {
    if bytes != [] {
      var front := bytes[..|bytes|-1];
      BytesOfNumber(front);
      assert Number(bytes) / 256 == Number(front) && Number(bytes) % 256 == bytes[|bytes|-1];
      assert bytes == front + [bytes[|bytes|-1]];
    }
  }

  lemma Power256Of32()
    ensures Power256(32) == TWO_256
  {
    assert Power256(2) == 0x1_0000;
    assert Power256(4) == 0x1_0000_0000;
    assert Power256(6) == 0x1_0000_0000_0000;
    assert Power256(8) == 0x1_0000_0000_0000_0000;
    assert Power256(10) == 0x1_0000_0000_0000_0000_0000;
    assert Power256(12) == 0x1_0000_0000_0000_0000_0000_0000;
    assert Power256(14) == 0x1_0000_0000_0000_0000_0000_0000_0000;
    assert Power256(16) == 0x1_0000_0000_0000_0000_0000_0000_0000_0000;
    assert Power256(18) == 0x1_0000_0000_0000_0000_0000_0000_0000_0000_0000;
    assert Power256(20) == 0x1_0000_0000_0000_0000_0000_0000_0000_0000_0000_0000;
    assert Power256(22) == 0x1_0000_0000_0000_0000_0000_0000_0000_0000_0000_0000_0000;
    assert Power256(24) == 0x1_0000_0000_0000_0000_0000_0000_0000_0000_0000_0000_0000_0000;
    assert Power256(26) == 0x1_0000_0000_0000_0000_0000_0000_0000_0000_0000_0000_0000_0000_0000;
    assert Power256(28) == 0x1_0000_0000_0000_0000_0000_0000_0000_0000_0000_0000_0000_0000_0000_0000;
    assert Power256(30) == 0x1_0000_0000_0000_0000_0000_0000_0000_0000_0000_0000_0000_0000_0000_0000_0000;
    assert Power256(32) == 0x1_0000_0000_0000_0000_0000_0000_0000_0000_0000_0000_0000_0000_0000_0000_0000_0000;
  }

  lemma TopicNumber(topic: Topic)
    ensures Number(topic) < TWO_256
  {
    NumberIsSmall(topic);
    Power256Of32();
  }

  /** The two's-complement reading of a 256-bit number. */
  function Signed256(x: int): int {
    if x < TWO_255 then x else x - TWO_256
  }

  /** It is the one number in range that is congruent. */
  lemma SignedIsUnique(topic: Topic, n: int)
    requires -TWO_255 <= n < TWO_255
    ensures n == Signed256(Number(topic)) <==> (n - Number(topic)) % TWO_256 == 0
    ensures -TWO_255 <= Signed256(Number(topic)) < TWO_255
  {
    TopicNumber(topic);
  }

  // ---------- Topics ----------

  function TopicToValue(topic: Topic, ty: AbiType): Value {
    match ty
    case IntTy(_) => Written(Dec(Signed256(Number(topic))))
    case UintTy(_) => Written(Dec(Number(topic)))
    case BoolTy => Flag(Number(topic) % TWO_64 != 0)
    case AddressTy => AddressOf(topic[12..])
    case _ => Written(ToHex(topic))
  }

  function ValueAt(topic: Option<Topic>, ty: AbiType): Value {
    if topic.Some? then TopicToValue(topic.value, ty) else Null
  }

  /** What a contract emits, for the types that fit a topic; for the others it emits a hash. */
  datatype Emitted = ENumber(n: int) | EBool(b: bool) | EAddress(bytes: seq<Byte>) | EHash(hash: Topic)

  predicate Emits(ty: AbiType, e: Emitted) {
    match ty
    case IntTy(_) => e.ENumber? && -TWO_255 <= e.n < TWO_255
    case UintTy(_) => e.ENumber? && 0 <= e.n < TWO_256
    case BoolTy => e.EBool?
    case AddressTy => e.EAddress? && |e.bytes| == 20
    case _ => e.EHash?
  }

  /** "Events" and "Formal Specification of the Encoding" of the Solidity Contract ABI Specification. */
  function EncodeTopic(ty: AbiType, e: Emitted): Topic
    requires Emits(ty, e)
  {
    match e
    case ENumber(n) => NumberBytes(if n < 0 then n + TWO_256 else n, 32)
    case EBool(b) => NumberBytes(if b then 1 else 0, 32)
    case EAddress(bytes) => seq(12, _ => 0) + bytes
    case EHash(hash) => hash
  }

  function Shown(e: Emitted): Value {
    match e
    case ENumber(n) => Written(Dec(n))
    case EBool(b) => Flag(b)
    case EAddress(bytes) => AddressOf(bytes)
    case EHash(hash) => Written(ToHex(hash))
  }

  /** Every value that a contract can emit is decoded to itself. */
  lemma TopicDecodes(ty: AbiType, e: Emitted)
    requires Emits(ty, e)
    ensures TopicToValue(EncodeTopic(ty, e), ty) == Shown(e)
  {
    Power256Of32();
    match e
    case ENumber(n) => NumberOfBytes(if n < 0 then n + TWO_256 else n, 32);
    case EBool(b) => NumberOfBytes(if b then 1 else 0, 32);
    case EAddress(bytes) => assert EncodeTopic(ty, e)[12..] == bytes;
    case EHash(_) =>
  }

  /** And the text of a decoded number determines its topic. */
  lemma NumberTopicsAreDistinguished(topic: Topic, ty: AbiType)
    requires ty.IntTy? || ty.UintTy?
    ensures TopicToValue(topic, ty).Written?
    ensures var n := ParseSigned(TopicToValue(topic, ty).s);
            n.Some? && Emits(ty, ENumber(n.value)) && EncodeTopic(ty, ENumber(n.value)) == topic
  {
    var n := if ty.IntTy? then Signed256(Number(topic)) else Number(topic);
    TopicNumber(topic);
    DecParses(n);
    BytesOfNumber(topic);
  }

  // ---------- Which topic belongs to which input ----------

  function IndexedBefore(inputs: seq<Input>, k: nat): (n: nat)
    requires k <= |inputs|
    ensures n <= k
  {
    if k == 0 then 0 else IndexedBefore(inputs, k - 1) + if inputs[k - 1].indexed then 1 else 0
  }

  /** The first topic is the hash of the event's declaration, unless it is anonymous. */
  function TopicIndex(event: Event, k: nat): nat
    requires k <= |event.inputs|
  {
    IndexedBefore(event.inputs, k) + if event.anonymous then 0 else 1
  }

  predicate LacksTopic(event: Event, topics: seq<Option<Topic>>, k: nat)
    requires k < |event.inputs|
  {
    event.inputs[k].indexed && TopicIndex(event, k) >= |topics|
  }

  predicate HasTopics(event: Event, topics: seq<Option<Topic>>, k: nat)
    requires k <= |event.inputs|
  {
    forall i :: 0 <= i < k ==> !LacksTopic(event, topics, i)
  }

  function DataInputs(inputs: seq<Input>, k: nat): seq<Input>
    requires k <= |inputs|
  {
    if k == 0 then []
    else if inputs[k - 1].indexed then DataInputs(inputs, k - 1)
    else DataInputs(inputs, k - 1) + [inputs[k - 1]]
  }

  lemma {:induction false} IndexedBeforeGrows(inputs: seq<Input>, j: nat, k: nat)
    requires j <= k <= |inputs|
    ensures IndexedBefore(inputs, j) <= IndexedBefore(inputs, k) <= IndexedBefore(inputs, j) + (k - j)
    ensures j < k && inputs[j].indexed ==> IndexedBefore(inputs, j) < IndexedBefore(inputs, k)
  {
    if j < k {
      IndexedBeforeGrows(inputs, j, k - 1);
    }
  }

  lemma {:induction false} LastIndexedExists(inputs: seq<Input>, k: nat)
    requires k <= |inputs| && IndexedBefore(inputs, k) > 0
    ensures exists i :: 0 <= i < k && inputs[i].indexed && IndexedBefore(inputs, k) == IndexedBefore(inputs, i) + 1
  {
    if inputs[k - 1].indexed {
      assert IndexedBefore(inputs, k) == IndexedBefore(inputs, k - 1) + 1;
    } else {
      LastIndexedExists(inputs, k - 1);
    }
  }

  /** Topics run out exactly if there are fewer than the indexed inputs need; if none is indexed, none is
      needed. */
  lemma TopicsSufficeIff(event: Event, topics: seq<Option<Topic>>)
    ensures HasTopics(event, topics, |event.inputs|) <==>
              (IndexedBefore(event.inputs, |event.inputs|) > 0 ==> TopicIndex(event, |event.inputs|) <= |topics|)
  {
    var n := |event.inputs|;
    if IndexedBefore(event.inputs, n) > 0 {
      LastIndexedExists(event.inputs, n);
      var i :| 0 <= i < n && event.inputs[i].indexed
               && IndexedBefore(event.inputs, n) == IndexedBefore(event.inputs, i) + 1;
      if TopicIndex(event, n) > |topics| {
        assert LacksTopic(event, topics, i);
      }
    }
    forall i | 0 <= i < n && event.inputs[i].indexed ensures TopicIndex(event, i) < TopicIndex(event, n) {
      IndexedBeforeGrows(event.inputs, i, n);
    }
  }

  /** Different indexed inputs get different topics, in their order. */
  lemma TopicsInOrder(event: Event, j: nat, k: nat)
    requires j < k < |event.inputs| && event.inputs[j].indexed
    ensures TopicIndex(event, j) < TopicIndex(event, k)
  {
    IndexedBeforeGrows(event.inputs, j, k);
  }

  /** The k-th input, if it is not indexed, is at its place among the inputs for the data decoder. */
  lemma {:induction false} DataInputsInOrder(inputs: seq<Input>, i: nat, k: nat)
    requires i < k <= |inputs|
    ensures |DataInputs(inputs, k)| == k - IndexedBefore(inputs, k)
    ensures !inputs[i].indexed ==>
              i - IndexedBefore(inputs, i) < |DataInputs(inputs, k)|
              && DataInputs(inputs, k)[i - IndexedBefore(inputs, i)] == inputs[i]
  {
    if i < k - 1 {
      DataInputsInOrder(inputs, i, k - 1);
    } else if k > 1 {
      DataInputsInOrder(inputs, 0, k - 1);
    }
  }

  // ---------- The data ----------

  function OutputName(args: seq<Input>, j: nat): string
    requires j < |args|
  {
    if args[j].name != "" then args[j].name else "output" + if j == 0 then "" else Dec(j)
  }

  /** Outputs without a name are kept apart. */
  lemma UnnamedOutputsDiffer(args: seq<Input>, i: nat, j: nat)
    requires i < j < |args| && args[i].name == args[j].name == ""
    ensures OutputName(args, i) != OutputName(args, j)
  {
    DecParses(i);
    DecParses(j);
    assert OutputName(args, j)[6..] == Dec(j);
    assert i > 0 ==> OutputName(args, i)[6..] == Dec(i);
    assert i == 0 ==> OutputName(args, i)[6..] == "" && Dec(j) != "";
  }

  function Types(inputs: seq<Input>): seq<AbiType> {
    seq(|inputs|, i requires 0 <= i < |inputs| => inputs[i].ty)
  }

  predicate Maps(args: seq<Input>, raw: seq<GoVal>, j: nat)
    requires j < |args| == |raw|
  {
    MapOutput(args[j].ty, raw[j]).Ok?
  }

  predicate AllMap(args: seq<Input>, raw: seq<GoVal>, n: nat)
    requires n <= |args| == |raw|
  {
    forall j :: 0 <= j < n ==> Maps(args, raw, j)
  }

  predicate LastOutput(args: seq<Input>, n: nat, j: nat)
    requires j < n <= |args|
  {
    forall i :: j < i < n ==> OutputName(args, i) != OutputName(args, j)
  }

  predicate HasOwnOutput(args: seq<Input>, raw: seq<GoVal>, j: nat, values: map<string, Value>)
    requires j < |args| == |raw|
  {
    && OutputName(args, j) in values
    && values[OutputName(args, j)]
       == if Maps(args, raw, j) then FromData(MapOutput(args[j].ty, raw[j]).value) else Null
  }

  /** Exactly the first outputs are there, each under its name with its own value, or null if that cannot be mapped,
      unless a later one has the same name. */
  ghost predicate HasOutputs(args: seq<Input>, raw: seq<GoVal>, n: nat, values: map<string, Value>)
    requires n <= |args| == |raw|
  {
    && (forall name :: name in values <==> exists j :: 0 <= j < n && OutputName(args, j) == name)
    && (forall j :: 0 <= j < n && LastOutput(args, n, j) ==> HasOwnOutput(args, raw, j, values))
  }

  /** Errors are not raised but put into the result. */
  function WithError(values: map<string, Value>, raw: Option<seq<GoVal>>, bytes: seq<Byte>): map<string, Value> {
    values["rlp" := Written(EncodeHex(bytes))]["raw" := RawValues(raw)]["error" := ErrorText]
  }

  /** What the data comes to: one output for each value that was unpacked; an error is added, in place of the
      outputs or to those up to the first that cannot be mapped. */
  ghost predicate DataMeans(args: seq<Input>, raw: Option<seq<GoVal>>, bytes: seq<Byte>, values: map<string, Value>) {
    if raw.None? || |raw.value| != |args| then values == WithError(map[], raw, bytes)
    else if AllMap(args, raw.value, |args|) then HasOutputs(args, raw.value, |args|, values)
    else exists n, outputs :: FailsAfter(args, raw.value, n, outputs) && values == WithError(outputs, raw, bytes)
  }

  ghost predicate FailsAfter(args: seq<Input>, raw: seq<GoVal>, n: int, outputs: map<string, Value>) {
    && 0 <= n < |args| == |raw|
    && AllMap(args, raw, n) && !Maps(args, raw, n) && HasOutputs(args, raw, n + 1, outputs)
  }

  /** An output that no later one overrides keeps its value. */
  lemma OwnOutputStays(args: seq<Input>, raw: seq<GoVal>, n: nat, j: nat, values: map<string, Value>, v: Value)
    requires j < n < |args| == |raw| && LastOutput(args, n + 1, j) && HasOwnOutput(args, raw, j, values)
    ensures HasOwnOutput(args, raw, j, values[OutputName(args, n) := v])
  {
  }

  lemma NextOutputName(args: seq<Input>, n: nat, values: map<string, Value>, values': map<string, Value>)
    requires n < |args|
    requires forall name :: name in values <==> exists j :: 0 <= j < n && OutputName(args, j) == name
    requires values'.Keys == values.Keys + {OutputName(args, n)}
    ensures forall name :: name in values' <==> exists j :: 0 <= j < n + 1 && OutputName(args, j) == name
  {
    forall name ensures name in values' <==> exists j :: 0 <= j < n + 1 && OutputName(args, j) == name {
      assert name in values' <==> name in values || OutputName(args, n) == name;
    }
  }

  lemma NextOutput(args: seq<Input>, raw: seq<GoVal>, n: nat, values: map<string, Value>, v: Value)
    requires n < |args| == |raw| && HasOutputs(args, raw, n, values)
    requires v == if Maps(args, raw, n) then FromData(MapOutput(args[n].ty, raw[n]).value) else Null
    ensures HasOutputs(args, raw, n + 1, values[OutputName(args, n) := v])
  {
    var values' := values[OutputName(args, n) := v];
    NextOutputName(args, n, values, values');
    forall j | 0 <= j < n && LastOutput(args, n + 1, j) ensures HasOwnOutput(args, raw, j, values') {
      LastOutputBefore(args, n, j);
      OwnOutputStays(args, raw, n, j, values, v);
    }
    assert HasOwnOutput(args, raw, n, values');
  }

  lemma LastOutputBefore(args: seq<Input>, n: nat, j: nat)
    requires j < n < |args| && LastOutput(args, n + 1, j)
    ensures LastOutput(args, n, j)
  {
  }

  method ProcessRLPBytes(libs: Libraries, args: seq<Input>, bytes: seq<Byte>) returns (values: map<string, Value>)
    ensures DataMeans(args, libs.unpack(Types(args), bytes), bytes, values)
  {
    var raw := libs.unpack(Types(args), bytes);
    values := map[];
    if raw.None? || |raw.value| != |args| {
      return WithError(values, raw, bytes);
    }
    for idx := 0 to |args|
      invariant AllMap(args, raw.value, idx) && HasOutputs(args, raw.value, idx, values)
    {
      var argName := args[idx].name;
      if argName == "" {
        argName := "output";
        if idx != 0 {
          argName := argName + Dec(idx);
        }
      }
      assert argName == OutputName(args, idx);
      var value := MapOutput(args[idx].ty, raw.value[idx]);
      NextOutput(args, raw.value, idx, values, if value.Ok? then FromData(value.value) else Null);
      values := values[argName := if value.Ok? then FromData(value.value) else Null];
      if !value.Ok? {
        assert FailsAfter(args, raw.value, idx, values);
        return WithError(values, raw, bytes);
      }
    }
  }

  lemma {:induction false} LastOutputExists(args: seq<Input>, n: nat, i: nat)
    requires i < n <= |args|
    ensures exists j :: i <= j < n && LastOutput(args, n, j) && OutputName(args, j) == OutputName(args, i)
    decreases n - i
  {
    if !LastOutput(args, n, i) {
      var j :| i < j < n && OutputName(args, j) == OutputName(args, i);
      LastOutputExists(args, n, j);
    }
  }

  lemma OutputsAreDetermined(args: seq<Input>, raw: seq<GoVal>, n: nat,
      values: map<string, Value>, values': map<string, Value>)
    requires n <= |args| == |raw| && HasOutputs(args, raw, n, values) && HasOutputs(args, raw, n, values')
    ensures values == values'
  {
    forall name | name in values ensures name in values' && values[name] == values'[name] {
      var i :| 0 <= i < n && OutputName(args, i) == name;
      LastOutputExists(args, n, i);
      var j :| i <= j < n && LastOutput(args, n, j) && OutputName(args, j) == name;
      assert HasOwnOutput(args, raw, j, values) && HasOwnOutput(args, raw, j, values');
    }
    assert forall name :: name in values' ==> name in values;
  }

  lemma FailureIsDetermined(args: seq<Input>, raw: seq<GoVal>, n: int, outputs: map<string, Value>,
      n': int, outputs': map<string, Value>)
    requires FailsAfter(args, raw, n, outputs) && FailsAfter(args, raw, n', outputs')
    ensures outputs == outputs'
  {
    assert n <= n' && n' <= n;
    OutputsAreDetermined(args, raw, n + 1, outputs, outputs');
  }

  lemma DataIsDetermined(args: seq<Input>, raw: Option<seq<GoVal>>, bytes: seq<Byte>,
      values: map<string, Value>, values': map<string, Value>)
    requires DataMeans(args, raw, bytes, values) && DataMeans(args, raw, bytes, values')
    ensures values == values'
  {
    if raw.Some? && |raw.value| == |args| {
      if AllMap(args, raw.value, |args|) {
        OutputsAreDetermined(args, raw.value, |args|, values, values');
      } else {
        var n, outputs :| FailsAfter(args, raw.value, n, outputs) && values == WithError(outputs, raw, bytes);
        var n', outputs' :| FailsAfter(args, raw.value, n', outputs') && values' == WithError(outputs', raw, bytes);
        FailureIsDetermined(args, raw.value, n, outputs, n', outputs');
      }
    }
  }

  // ---------- A log entry ----------

  predicate StartsWithPrefix(s: string) {
    |s| >= 2 && s[..2] == "0x"
  }

  function DataBytes(libs: Libraries, data: string): Option<seq<Byte>> {
    if StartsWithPrefix(data) then libs.hexDecode(data) else Some([])
  }

  /** Data is decoded if it starts with a zero and a small x; otherwise there is none. */
  lemma DataNeedsPrefix(libs: Libraries, rest: string, data: string)
    ensures DataBytes(libs, "0x" + rest) == libs.hexDecode("0x" + rest)
    ensures data == "" || data[0] != '0' || data[1..] == "" || data[1] != 'x' ==> DataBytes(libs, data) == Some([])
  {
    assert ("0x" + rest)[..2] == "0x";
    assert StartsWithPrefix(data) ==> data[..2][0] == '0' && data[..2][1] == 'x';
  }

  /** No later indexed input has the name of this one. */
  predicate LastOfName(inputs: seq<Input>, k: nat, i: nat)
    requires i < k <= |inputs|
  {
    inputs[i].indexed && forall j :: i < j < k && inputs[j].indexed ==> inputs[j].name != inputs[i].name
  }

  ghost predicate NamesIndexed(inputs: seq<Input>, k: nat, values: map<string, Value>)
    requires k <= |inputs|
  {
    forall name :: name in values <==> exists i :: 0 <= i < k && inputs[i].indexed && inputs[i].name == name
  }

  /** Input i has the value of its own topic. */
  predicate HasOwnTopic(event: Event, topics: seq<Option<Topic>>, i: nat, values: map<string, Value>)
    requires i < |event.inputs| && event.inputs[i].indexed
  {
    && TopicIndex(event, i) < |topics|
    && event.inputs[i].name in values
    && values[event.inputs[i].name] == ValueAt(topics[TopicIndex(event, i)], event.inputs[i].ty)
  }

  ghost predicate FromTopics(event: Event, topics: seq<Option<Topic>>, k: nat, values: map<string, Value>)
    requires k <= |event.inputs|
  {
    && NamesIndexed(event.inputs, k, values)
    && (forall i :: 0 <= i < k && LastOfName(event.inputs, k, i) ==> HasOwnTopic(event, topics, i, values))
  }

  /** What the inputs that are not indexed come to. */
  ghost predicate FromDataField(libs: Libraries, event: Event, bytes: seq<Byte>, values: map<string, Value>) {
    var args := DataInputs(event.inputs, |event.inputs|);
    if args == [] then values == map[] else DataMeans(args, libs.unpack(Types(args), bytes), bytes, values)
  }

  /** What decoding one entry comes to. The data is decoded first. Then it fails exactly at the first indexed
      input that lacks a topic. Otherwise each indexed input has the value of its own topic, unless a later one
      has the same name, and the other inputs reach the data decoder in their order, whose results prevail. */
  ghost predicate DecodesTo(libs: Libraries, event: Event, entry: Entry, r: Result<map<string, Value>, LogError>) {
    match r
    case Err(BadData) => DataBytes(libs, entry.data).None?
    case Err(InsufficientTopics(i)) =>
      && DataBytes(libs, entry.data).Some?
      && i < |event.inputs| && HasTopics(event, entry.topics, i) && LacksTopic(event, entry.topics, i)
    case Ok(values) =>
      && DataBytes(libs, entry.data).Some? && HasTopics(event, entry.topics, |event.inputs|)
      && exists indexed, data ::
           && FromTopics(event, entry.topics, |event.inputs|, indexed)
           && FromDataField(libs, event, DataBytes(libs, entry.data).value, data)
           && values == indexed + data
  }

  method ProcessLogEntry(libs: Libraries, event: Event, entry: Entry) returns (r: Result<map<string, Value>, LogError>)
    ensures DecodesTo(libs, event, entry, r)
  {
    var data := [];
    if StartsWithPrefix(entry.data) {
      var decoded := libs.hexDecode(entry.data);
      if decoded.None? {
        return Result.Err(BadData);
      }
      data := decoded.value;
    }
    var values: map<string, Value> := map[];
    var topicIdx := 0;
    if !event.anonymous {
      topicIdx := topicIdx + 1;
    }
    var dataArgs: seq<Input> := [];
    for idx := 0 to |event.inputs|
      invariant topicIdx == TopicIndex(event, idx)
      invariant dataArgs == DataInputs(event.inputs, idx)
      invariant HasTopics(event, entry.topics, idx)
      invariant FromTopics(event, entry.topics, idx, values)
    {
      var input := event.inputs[idx];
      ghost var before := values;
      if input.indexed {
        if topicIdx >= |entry.topics| {
          assert LacksTopic(event, entry.topics, idx);
          return Result.Err(InsufficientTopics(idx));
        }
        var topic := entry.topics[topicIdx];
        topicIdx := topicIdx + 1;
        values := values[input.name := ValueAt(topic, input.ty)];
      } else {
        dataArgs := dataArgs + [input];
      }
      NextFromTopics(event, entry.topics, idx, before, values);
    }
    var dataMap: map<string, Value> := map[];
    if |dataArgs| > 0 {
      dataMap := ProcessRLPBytes(libs, dataArgs, data);
    }
    assert FromDataField(libs, event, data, dataMap);
    return Result.Ok(values + dataMap);
  }

  lemma NextName(inputs: seq<Input>, k: nat, values: map<string, Value>, v: Value)
    requires k < |inputs| && NamesIndexed(inputs, k, values)
    ensures NamesIndexed(inputs, k + 1, if inputs[k].indexed then values[inputs[k].name := v] else values)
  {
    var values' := if inputs[k].indexed then values[inputs[k].name := v] else values;
    forall name ensures name in values' <==> exists i :: 0 <= i < k + 1 && inputs[i].indexed && inputs[i].name == name {
      assert name in values' <==> name in values || (inputs[k].indexed && inputs[k].name == name);
    }
  }

  /** An input that no later one overrides keeps its value. */
  lemma OwnTopicStays(event: Event, topics: seq<Option<Topic>>, k: nat, i: nat, values: map<string, Value>, v: Value)
    requires i < k < |event.inputs| && LastOfName(event.inputs, k + 1, i) && HasOwnTopic(event, topics, i, values)
    ensures HasOwnTopic(event, topics, i,
                        if event.inputs[k].indexed then values[event.inputs[k].name := v] else values)
  {
  }

  lemma NextFromTopics(event: Event, topics: seq<Option<Topic>>, k: nat,
      values: map<string, Value>, values': map<string, Value>)
    requires k < |event.inputs| && HasTopics(event, topics, k) && !LacksTopic(event, topics, k)
    requires FromTopics(event, topics, k, values)
    requires var input := event.inputs[k];
             values' == if input.indexed then values[input.name := ValueAt(topics[TopicIndex(event, k)], input.ty)]
                        else values
    ensures HasTopics(event, topics, k + 1) && FromTopics(event, topics, k + 1, values')
  {
    var v := if event.inputs[k].indexed then ValueAt(topics[TopicIndex(event, k)], event.inputs[k].ty) else Null;
    NextName(event.inputs, k, values, v);
    forall i | 0 <= i < k && LastOfName(event.inputs, k + 1, i) ensures HasOwnTopic(event, topics, i, values') {
      assert LastOfName(event.inputs, k, i);
      OwnTopicStays(event, topics, k, i, values, v);
    }
  }

  // ---------- What a contract emits is what is read ----------

  /** The topics that a contract emits for its indexed inputs. */
  function EmitTopics(event: Event, emitted: seq<Emitted>, k: nat): seq<Option<Topic>>
    requires k <= |event.inputs| == |emitted|
    requires forall i :: 0 <= i < |emitted| ==> Emits(event.inputs[i].ty, emitted[i])
  {
    if k == 0 then []
    else EmitTopics(event, emitted, k - 1)
         + if event.inputs[k - 1].indexed then [Some(EncodeTopic(event.inputs[k - 1].ty, emitted[k - 1]))] else []
  }

  lemma {:induction false} EmittedAt(event: Event, emitted: seq<Emitted>, k: nat, i: nat)
    requires i < k <= |event.inputs| == |emitted|
    requires forall j :: 0 <= j < |emitted| ==> Emits(event.inputs[j].ty, emitted[j])
    ensures |EmitTopics(event, emitted, k)| == IndexedBefore(event.inputs, k)
    ensures event.inputs[i].indexed ==>
              && IndexedBefore(event.inputs, i) < IndexedBefore(event.inputs, k)
              && EmitTopics(event, emitted, k)[IndexedBefore(event.inputs, i)]
                 == Some(EncodeTopic(event.inputs[i].ty, emitted[i]))
  {
    if k > 1 {
      EmittedAt(event, emitted, k - 1, if i < k - 1 then i else 0);
    }
  }

  lemma {:induction false} LastOfNameExists(inputs: seq<Input>, k: nat, i: nat)
    requires i < k <= |inputs| && inputs[i].indexed
    ensures exists j :: i <= j < k && LastOfName(inputs, k, j) && inputs[j].name == inputs[i].name
    decreases k - i
  {
    if !LastOfName(inputs, k, i) {
      var j :| i < j < k && inputs[j].indexed && inputs[j].name == inputs[i].name;
      LastOfNameExists(inputs, k, j);
    }
  }

  lemma TopicValuesAreDetermined(event: Event, topics: seq<Option<Topic>>,
      values: map<string, Value>, values': map<string, Value>)
    requires FromTopics(event, topics, |event.inputs|, values) && FromTopics(event, topics, |event.inputs|, values')
    ensures values == values'
  {
    var inputs := event.inputs;
    forall name | name in values ensures name in values' && values[name] == values'[name] {
      var i :| 0 <= i < |inputs| && inputs[i].indexed && inputs[i].name == name;
      LastOfNameExists(inputs, |inputs|, i);
      var j :| i <= j < |inputs| && LastOfName(inputs, |inputs|, j) && inputs[j].name == name;
      assert HasOwnTopic(event, topics, j, values) && HasOwnTopic(event, topics, j, values');
    }
    assert forall name :: name in values' ==> name in values;
  }

  /** There is only one thing that decoding can come to. */
  lemma DecodingIsDetermined(libs: Libraries, event: Event, entry: Entry,
                             r: Result<map<string, Value>, LogError>, r': Result<map<string, Value>, LogError>)
    requires DecodesTo(libs, event, entry, r) && DecodesTo(libs, event, entry, r')
    ensures r == r'
  {
    if r.Ok? && r'.Ok? {
      var args, bytes := DataInputs(event.inputs, |event.inputs|), DataBytes(libs, entry.data).value;
      var indexed, data :| FromTopics(event, entry.topics, |event.inputs|, indexed)
                           && FromDataField(libs, event, bytes, data) && r.value == indexed + data;
      var indexed', data' :| FromTopics(event, entry.topics, |event.inputs|, indexed')
                             && FromDataField(libs, event, bytes, data') && r'.value == indexed' + data';
      TopicValuesAreDetermined(event, entry.topics, indexed, indexed');
      if args != [] {
        DataIsDetermined(args, libs.unpack(Types(args), bytes), bytes, data, data');
      }
    } else if r.Err? && r'.Err? && r.error.InsufficientTopics? && r'.error.InsufficientTopics? {
      var i, i' := r.error.input, r'.error.input;
      assert LacksTopic(event, entry.topics, i) && LacksTopic(event, entry.topics, i');
    }
  }

  lemma EmittedTopicAt(event: Event, signature: Topic, emitted: seq<Emitted>, topics: seq<Option<Topic>>, i: nat)
    requires i < |event.inputs| == |emitted| && event.inputs[i].indexed
    requires forall j :: 0 <= j < |emitted| ==> Emits(event.inputs[j].ty, emitted[j])
    requires topics == (if event.anonymous then [] else [Some(signature)]) + EmitTopics(event, emitted, |emitted|)
    ensures TopicIndex(event, i) < |topics|
    ensures topics[TopicIndex(event, i)] == Some(EncodeTopic(event.inputs[i].ty, emitted[i]))
  {
    EmittedAt(event, emitted, |emitted|, i);
  }

  lemma EmittedHasTopics(event: Event, signature: Topic, emitted: seq<Emitted>, topics: seq<Option<Topic>>)
    requires |event.inputs| == |emitted|
    requires forall i :: 0 <= i < |emitted| ==> Emits(event.inputs[i].ty, emitted[i])
    requires topics == (if event.anonymous then [] else [Some(signature)]) + EmitTopics(event, emitted, |emitted|)
    ensures HasTopics(event, topics, |event.inputs|)
  {
    forall i | 0 <= i < |emitted| && event.inputs[i].indexed ensures TopicIndex(event, i) < |topics| {
      EmittedTopicAt(event, signature, emitted, topics, i);
    }
  }

  /** A log that was emitted for an event, and whose data field decodes, is decoded without an error: every
      indexed input has the value that was emitted for it, unless another input gives its name another value. */
  lemma EmittedLogDecodes(libs: Libraries, event: Event, signature: Topic, emitted: seq<Emitted>, entry: Entry,
                          r: Result<map<string, Value>, LogError>) returns (data: map<string, Value>)
    requires |event.inputs| == |emitted|
    requires forall i :: 0 <= i < |emitted| ==> Emits(event.inputs[i].ty, emitted[i])
    requires entry.topics == (if event.anonymous then [] else [Some(signature)]) + EmitTopics(event, emitted, |emitted|)
    requires DataBytes(libs, entry.data).Some? && DecodesTo(libs, event, entry, r)
    ensures r.Ok?
    ensures FromDataField(libs, event, DataBytes(libs, entry.data).value, data)
    ensures forall name :: name in data ==> name in r.value && r.value[name] == data[name]
    ensures forall i :: 0 <= i < |emitted| && LastOfName(event.inputs, |emitted|, i)
                        && event.inputs[i].name !in data ==>
              event.inputs[i].name in r.value && r.value[event.inputs[i].name] == Shown(emitted[i])
  {
    EmittedHasTopics(event, signature, emitted, entry.topics);
    assert r.Ok?;
    var indexed;
    indexed, data :| FromTopics(event, entry.topics, |event.inputs|, indexed)
                     && FromDataField(libs, event, DataBytes(libs, entry.data).value, data)
                     && r.value == indexed + data;
    forall i | 0 <= i < |emitted| && LastOfName(event.inputs, |emitted|, i) && event.inputs[i].name !in data
      ensures event.inputs[i].name in r.value && r.value[event.inputs[i].name] == Shown(emitted[i])
    {
      assert HasOwnTopic(event, entry.topics, i, indexed);
      EmittedTopicAt(event, signature, emitted, entry.topics, i);
      TopicDecodes(event.inputs[i].ty, emitted[i]);
    }
  }

  /** Where the data is unpacked to one value for each input that is not indexed, and each can be mapped, every
      such input has its own value under its name, unless a later one has that name; the error keys are not added. */
  lemma DataDecodes(libs: Libraries, event: Event, entry: Entry, r: Result<map<string, Value>, LogError>,
                    raw: seq<GoVal>)
    requires DecodesTo(libs, event, entry, r) && r.Ok?
    requires var args := DataInputs(event.inputs, |event.inputs|);
             && libs.unpack(Types(args), DataBytes(libs, entry.data).value) == Some(raw)
             && |raw| == |args| && forall j :: 0 <= j < |args| ==> MapOutput(args[j].ty, raw[j]).Ok?
    ensures var args := DataInputs(event.inputs, |event.inputs|);
            && (forall j :: 0 <= j < |args| && LastOutput(args, |args|, j) ==>
                  && OutputName(args, j) in r.value
                  && r.value[OutputName(args, j)] == FromData(MapOutput(args[j].ty, raw[j]).value))
            && (forall name :: name in r.value ==>
                  || (exists i :: 0 <= i < |event.inputs| && event.inputs[i].indexed && event.inputs[i].name == name)
                  || (exists j :: 0 <= j < |args| && OutputName(args, j) == name))
  {
    var args, bytes := DataInputs(event.inputs, |event.inputs|), DataBytes(libs, entry.data).value;
    var indexed, data :| FromTopics(event, entry.topics, |event.inputs|, indexed)
                         && FromDataField(libs, event, bytes, data) && r.value == indexed + data;
    if args != [] {
      assert AllMap(args, raw, |args|) && HasOutputs(args, raw, |args|, data);
      forall j | 0 <= j < |args| && LastOutput(args, |args|, j)
        ensures OutputName(args, j) in r.value
        ensures r.value[OutputName(args, j)] == FromData(MapOutput(args[j].ty, raw[j]).value)
      {
        assert HasOwnOutput(args, raw, j, data);
      }
    }
  }

  const ERROR_KEYS := {"rlp", "raw", "error"}

  /** JSON in canonical form that was typed and put into the data of a log is what its decoding shows. */
  lemma CanonicalDataIsShown(libs: Libraries, event: Event, entry: Entry, r: Result<map<string, Value>, LogError>,
                             raw: seq<GoVal>, m: Machine, sent: seq<Json>)
    requires DecodesTo(libs, event, entry, r) && r.Ok?
    requires var args := DataInputs(event.inputs, |event.inputs|);
             && libs.unpack(Types(args), DataBytes(libs, entry.data).value) == Some(raw)
             && |raw| == |args| == |sent|
             && forall j :: 0 <= j < |args| ==>
                  WellFormed(args[j].ty) && Canonical(args[j].ty, sent[j]) && Generate(m, args[j].ty, sent[j]).Ok?
                  && raw[j] == Generate(m, args[j].ty, sent[j]).value
    ensures var args := DataInputs(event.inputs, |event.inputs|);
            forall j :: 0 <= j < |args| && LastOutput(args, |args|, j) ==>
              OutputName(args, j) in r.value && r.value[OutputName(args, j)] == FromData(sent[j])
  {
    var args := DataInputs(event.inputs, |event.inputs|);
    forall j | 0 <= j < |args| ensures MapOutput(args[j].ty, raw[j]) == AbiTyping.Ok(sent[j]) {
      RoundTripIffCanonical(m, args[j].ty, sent[j]);
    }
    DataDecodes(libs, event, entry, r, raw);
  }

  /** The error keys are there whenever the data is not unpacked to one value for each of these inputs, or one of
      the values cannot be mapped, ... */
  lemma DataErrorIsShown(libs: Libraries, event: Event, entry: Entry, r: Result<map<string, Value>, LogError>,
                         args: seq<Input>, raw: Option<seq<GoVal>>)
    requires DecodesTo(libs, event, entry, r) && r.Ok?
    requires args == DataInputs(event.inputs, |event.inputs|) != []
    requires raw == libs.unpack(Types(args), DataBytes(libs, entry.data).value)
    requires raw.None? || |raw.value| != |args| || !AllMap(args, raw.value, |args|)
    ensures "rlp" in r.value && r.value["rlp"] == Written(EncodeHex(DataBytes(libs, entry.data).value))
    ensures "raw" in r.value && r.value["raw"] == RawValues(raw)
    ensures "error" in r.value && r.value["error"] == ErrorText
  {
  }

  /** ... and then the values before the first that cannot be mapped keep their entries, and it has a null. */
  lemma ValuesBeforeErrorStay(args: seq<Input>, raw: seq<GoVal>, bytes: seq<Byte>, data: map<string, Value>,
      n: nat, j: nat)
    requires DataMeans(args, Some(raw), bytes, data)
    requires j <= n < |args| == |raw| && AllMap(args, raw, n) && !Maps(args, raw, n)
    requires LastOutput(args, n + 1, j) && OutputName(args, j) !in ERROR_KEYS
    ensures OutputName(args, j) in data
    ensures data[OutputName(args, j)] == if j == n then Null else FromData(MapOutput(args[j].ty, raw[j]).value)
  {
    assert !AllMap(args, raw, |args|);
    var m, outputs :| FailsAfter(args, raw, m, outputs) && data == WithError(outputs, Some(raw), bytes);
    assert m == n;
    assert HasOwnOutput(args, raw, j, outputs);
  }

  // ---------- What a topic means ----------

  lemma {:induction false} NumberOfParts(a: seq<Byte>, b: seq<Byte>)
    ensures Number(a + b) == Number(a) * Power256(|b|) + Number(b)
  {
    if b == [] {
      assert a + b == a;
    } else {
      var front := b[..|b|-1];
      NumberOfParts(a, front);
      assert (a + b)[..|a + b|-1] == a + front;
      Distribute(Number(a), Power256(|front|), Number(front), b[|b|-1]);
    }
  }

  lemma Distribute(a: int, p: int, n: int, d: int)
    ensures 256 * (a * p + n) + d == a * (256 * p) + (256 * n + d)
  {
  }

  lemma {:induction false} NumberIsZeroIff(bytes: seq<Byte>)
    ensures Number(bytes) == 0 <==> forall k :: 0 <= k < |bytes| ==> bytes[k] == 0
  {
    if bytes != [] {
      NumberIsZeroIff(bytes[..|bytes|-1]);
    }
  }

  /** A truth value is that of the last eight bytes, an address is the last twenty, and what is only a hash is written
      as it is; a missing topic is null. */
  lemma TopicMeaning(topic: Topic, ty: AbiType)
    ensures ty.BoolTy? ==> ValueAt(Some(topic), ty) == Flag(exists k :: 24 <= k < 32 && topic[k] != 0)
    ensures ty.AddressTy? ==> ValueAt(Some(topic), ty) == AddressOf(topic[12..32])
    ensures !ty.IntTy? && !ty.UintTy? && !ty.BoolTy? && !ty.AddressTy? ==>
              ValueAt(Some(topic), ty) == Written("0x" + EncodeHex(topic))
    ensures ValueAt(None, ty) == Null
  {
    var low := topic[24..];
    assert topic == topic[..24] + low;
    NumberOfParts(topic[..24], low);
    NumberIsSmall(low);
    assert Power256(8) == TWO_64 by {
      assert Power256(4) == 0x1_0000_0000;
    }
    LowPart(Number(topic[..24]), Number(low));
    NumberIsZeroIff(low);
    if Number(low) != 0 {
      var k :| 0 <= k < |low| && low[k] != 0;
      assert topic[24 + k] != 0;
    } else {
      assert forall k :: 24 <= k < 32 ==> topic[k] == low[k - 24];
    }
  }

  lemma LowPart(high: nat, low: nat)
    requires low < TWO_64
    ensures (high * TWO_64 + low) % TWO_64 == low
  {
  }
}
