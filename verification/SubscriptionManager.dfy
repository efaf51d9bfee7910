/** Streams and subscriptions in memory and in the key/value store, and their recovery
    (internal/maidenlaneevents/submanager.go; eventstream.go: newEventStream, update;
    subscription.go: newSubscription, restoreSubscription). */
module SubscriptionManager {
  import opened Wrappers
  import Text

  type ID = string

  // ---------- Entities ----------

  datatype Webhook = Webhook(url: string, headers: map<string, string>, skipVerify: bool, requestTimeoutSec: nat)

  datatype StreamInfo = StreamInfo(
    id: ID, created: string, name: string, path: string, suspended: bool, kind: string, batchSize: nat,
    batchTimeoutMS: nat, errorHandling: string, retryTimeoutSec: nat, blockedRetryDelaySec: nat,
    webhook: Option<Webhook>, timestamps: bool)

  /** The declaration of an event, as supplied. */
  datatype EventAbi = EventAbi(text: string)

  datatype ParsedEvent = ParsedEvent(name: string, signature: string, topic: string)

  datatype SubInfo = SubInfo(
    id: ID, created: string, path: string, summary: string, name: string, stream: ID,
    addresses: seq<string>, topics: seq<string>, event: EventAbi, fromBlock: string)

  /** What the store holds under a key; values that do not parse are skipped when streams are recovered. */
  datatype Record = StreamRecord(stream: StreamInfo) | SubRecord(sub: SubInfo) | CheckpointRecord(blocks: map<ID, int>)
                  | Unreadable

  /** Library functions: lower-casing, URLs, event declarations, and numbers in any base. */
  datatype Libraries = Libraries(
    lower: string -> string,
    urlParses: string -> bool,
    parseEvent: EventAbi -> Option<ParsedEvent>,
    parseBlock: string -> Option<int>)

  ghost predicate LowerCaseStays(libs: Libraries) {
    libs.lower("webhook") == "webhook" && libs.lower("block") == "block" && libs.lower("skip") == "skip"
  }

  datatype Error = NoID | NoURL | InvalidURL | InvalidType | NotFound | BadBlock | BadEvent | NoEventName
                 | StoreFailed | StillActive

  datatype State = State(streams: map<ID, StreamInfo>, subs: map<ID, SubInfo>, db: map<string, Record>)

  const EMPTY := State(map[], map[], map[])
  const MAX_BATCH := 1000

  predicate IsStreamKey(k: string) {
    |k| >= 3 && k[0] == 'e' && k[1] == 's' && k[2] == '-'
  }

  predicate IsSubKey(k: string) {
    |k| >= 3 && k[0] == 's' && k[1] == 'b' && k[2] == '-'
  }

  function StreamKey(uuid: string): ID {
    "es-" + uuid
  }

  function SubKey(uuid: string): ID {
    "sb-" + uuid
  }

  function CheckpointKey(stream: ID): string {
    "cp-" + stream
  }

  // ---------- Stream specifications ----------

  function CheckWebhook(libs: Libraries, webhook: Option<Webhook>): Result<Webhook, Error> {
    if webhook.None? || webhook.value.url == "" then Err(NoURL)
    else if !libs.urlParses(webhook.value.url) then Err(InvalidURL)
    else if webhook.value.requestTimeoutSec == 0 then Ok(webhook.value.(requestTimeoutSec := 30000))
    else Ok(webhook.value)
  }

  function ErrorHandling(libs: Libraries, s: string): string {
    if libs.lower(s) == "block" then "block" else "skip"
  }

  function Normalize(libs: Libraries, spec: StreamInfo): Result<StreamInfo, Error> {
    if spec.id == "" then Err(NoID)
    else if libs.lower(spec.kind) != "webhook" then Err(InvalidType)
    else
      match CheckWebhook(libs, spec.webhook)
      case Err(e) => Err(e)
      case Ok(webhook) =>
        Ok(spec.(
          batchSize := if spec.batchSize == 0 then 1
                       else if spec.batchSize > MAX_BATCH then MAX_BATCH
                       else spec.batchSize,
          batchTimeoutMS := if spec.batchTimeoutMS == 0 then 5000 else spec.batchTimeoutMS,
          blockedRetryDelaySec := if spec.blockedRetryDelaySec == 0 then 30 else spec.blockedRetryDelaySec,
          kind := "webhook",
          errorHandling := ErrorHandling(libs, spec.errorHandling),
          webhook := Some(webhook)))
  }

  predicate IsNormal(libs: Libraries, spec: StreamInfo) {
    Normalize(libs, spec) == Ok(spec)
  }

  /** A stream keeps a specification that a restart would not change. */
  lemma NormalizeIsIdempotent(libs: Libraries, spec: StreamInfo)
    requires LowerCaseStays(libs) && Normalize(libs, spec).Ok?
    ensures IsNormal(libs, Normalize(libs, spec).value)
  {
  }

  /** And it is normal exactly if its fields are in range. */
  lemma NormalIff(libs: Libraries, spec: StreamInfo)
    requires LowerCaseStays(libs)
    ensures IsNormal(libs, spec) <==>
              && spec.id != "" && spec.kind == "webhook"
              && (spec.errorHandling == "block" || spec.errorHandling == "skip")
              && 1 <= spec.batchSize <= MAX_BATCH && spec.batchTimeoutMS > 0 && spec.blockedRetryDelaySec > 0
              && spec.webhook.Some? && spec.webhook.value.url != "" && libs.urlParses(spec.webhook.value.url)
              && spec.webhook.value.requestTimeoutSec > 0
  {
  }

  ghost predicate GoodWebhook(libs: Libraries, webhook: Option<Webhook>) {
    webhook.Some? && webhook.value.url != "" && libs.urlParses(webhook.value.url)
  }

  /** A webhook is taken as it is wanted, with a request timeout of 30000 seconds if none is given. */
  predicate IsWebhookFor(webhook: Option<Webhook>, wanted: Webhook) {
    && webhook.Some? && webhook.value.url == wanted.url && webhook.value.headers == wanted.headers
    && webhook.value.skipVerify == wanted.skipVerify
    && (wanted.requestTimeoutSec > 0 ==> webhook.value.requestTimeoutSec == wanted.requestTimeoutSec)
    && (wanted.requestTimeoutSec == 0 ==> webhook.value.requestTimeoutSec == 30_000)
  }

  function Distance(a: nat, b: nat): nat {
    if a <= b then b - a else a - b
  }

  /** A specification is accepted exactly with an identifier, the one type and a webhook whose URL parses. Its batch
      size becomes the nearest that is allowed, times that are left out get their defaults, errors block only if it
      says so, and the rest stays. */
  lemma NormalizeMeaning(libs: Libraries, spec: StreamInfo)
    ensures var r := Normalize(libs, spec);
            && (r.Ok? <==> spec.id != "" && libs.lower(spec.kind) == "webhook" && GoodWebhook(libs, spec.webhook))
            && (r == Err(NoID) <==> spec.id == "")
            && (r == Err(InvalidType) <==> spec.id != "" && libs.lower(spec.kind) != "webhook")
    ensures Normalize(libs, spec).Ok? ==>
              var n := Normalize(libs, spec).value;
              && n.id == spec.id && n.created == spec.created && n.name == spec.name && n.path == spec.path
              && n.suspended == spec.suspended && n.timestamps == spec.timestamps
              && n.retryTimeoutSec == spec.retryTimeoutSec && n.kind == "webhook"
              && IsWebhookFor(n.webhook, spec.webhook.value)
              && n.errorHandling == (if libs.lower(spec.errorHandling) == "block" then "block" else "skip")
              && n.batchTimeoutMS == (if spec.batchTimeoutMS > 0 then spec.batchTimeoutMS else 5000)
              && n.blockedRetryDelaySec == if spec.blockedRetryDelaySec > 0 then spec.blockedRetryDelaySec else 30
    ensures Normalize(libs, spec).Ok? ==>
              var size := Normalize(libs, spec).value.batchSize;
              && 1 <= size <= 1000
              && forall n :: 1 <= n <= 1000 ==> Distance(size, spec.batchSize) <= Distance(n, spec.batchSize)
  {
  }

  /** The fields that an update sets before it looks at the webhook. A batch size equal to the maximum is
      ignored. */
  function UpdateFields(libs: Libraries, spec: StreamInfo, wanted: StreamInfo): StreamInfo {
    spec.(
      batchSize := if wanted.batchSize != 0 && wanted.batchSize < MAX_BATCH then wanted.batchSize else spec.batchSize,
      batchTimeoutMS := if wanted.batchTimeoutMS != 0 then wanted.batchTimeoutMS else spec.batchTimeoutMS,
      blockedRetryDelaySec := if wanted.blockedRetryDelaySec != 0 then wanted.blockedRetryDelaySec
                              else spec.blockedRetryDelaySec,
      errorHandling := ErrorHandling(libs, wanted.errorHandling),
      name := wanted.name,
      timestamps := wanted.timestamps)
  }

  predicate UpdateIsRefused(libs: Libraries, wanted: StreamInfo) {
    wanted.webhook.Some? && CheckWebhook(libs, wanted.webhook).Err?
  }

  function Update(libs: Libraries, spec: StreamInfo, wanted: StreamInfo): StreamInfo {
    var fields := UpdateFields(libs, spec, wanted);
    if wanted.webhook.None? || UpdateIsRefused(libs, wanted) then fields
    else fields.(webhook := Some(CheckWebhook(libs, wanted.webhook).value))
  }

  /** Which field an update changes: a number only if one is wanted, and a batch size only below the maximum; the
      way of handling errors, the name and the timestamps always; the webhook only if one with a URL that parses is
      wanted. */
  lemma UpdateMeaning(libs: Libraries, spec: StreamInfo, wanted: StreamInfo)
    ensures var n := Update(libs, spec, wanted);
            && n.id == spec.id && n.created == spec.created && n.path == spec.path && n.suspended == spec.suspended
            && n.kind == spec.kind && n.retryTimeoutSec == spec.retryTimeoutSec
            && n.name == wanted.name && n.timestamps == wanted.timestamps
            && n.errorHandling == (if libs.lower(wanted.errorHandling) == "block" then "block" else "skip")
            && n.batchSize == (if 1 <= wanted.batchSize <= 999 then wanted.batchSize else spec.batchSize)
            && n.batchTimeoutMS == (if wanted.batchTimeoutMS > 0 then wanted.batchTimeoutMS else spec.batchTimeoutMS)
            && n.blockedRetryDelaySec
               == if wanted.blockedRetryDelaySec > 0 then wanted.blockedRetryDelaySec else spec.blockedRetryDelaySec
    ensures UpdateIsRefused(libs, wanted) <==> wanted.webhook.Some? && !GoodWebhook(libs, wanted.webhook)
    ensures if GoodWebhook(libs, wanted.webhook)
            then IsWebhookFor(Update(libs, spec, wanted).webhook, wanted.webhook.value)
            else Update(libs, spec, wanted).webhook == spec.webhook
  {
  }

  lemma UpdateKeepsNormal(libs: Libraries, spec: StreamInfo, wanted: StreamInfo)
    requires LowerCaseStays(libs) && IsNormal(libs, spec)
    ensures IsNormal(libs, Update(libs, spec, wanted))
    ensures Update(libs, spec, wanted).id == spec.id
  {
  }

  // ---------- Subscriptions ----------

  function InitialBlock(libs: Libraries, initialBlock: string): Result<string, Error> {
    if initialBlock == "" || initialBlock == "latest" then Ok("latest")
    else
      match libs.parseBlock(initialBlock)
      case Some(n) => Ok(Text.Dec(n))
      case None => Err(BadBlock)
  }

  /** The block that is stored is the block from which the subscription starts later: it is read in base 10. */
  lemma StoredBlockIsReadBack(libs: Libraries, initialBlock: string)
    requires InitialBlock(libs, initialBlock).Ok?
    ensures var stored := InitialBlock(libs, initialBlock).value;
            if initialBlock == "" || initialBlock == "latest" then stored == "latest"
            else stored != "latest" && stored != "" && Text.ParseSigned(stored) == libs.parseBlock(initialBlock)
  {
    if initialBlock != "" && initialBlock != "latest" {
      Text.DecParses(libs.parseBlock(initialBlock).value);
      assert Text.ParseSigned("latest").None? by {
        assert !Text.IsDigit("latest"[0]);
      }
    }
  }

  datatype SubRequest = SubRequest(
    uuid: string, created: string, address: Option<string>, event: EventAbi, stream: ID, initialBlock: string,
    name: string)

  function NewSubscription(libs: Libraries, streams: map<ID, StreamInfo>, req: SubRequest): Result<SubInfo, Error> {
    match InitialBlock(libs, req.initialBlock)
    case Err(e) => Err(e)
    case Ok(fromBlock) =>
      if req.stream !in streams then Err(NotFound)
      else
        match libs.parseEvent(req.event)
        case None => Err(BadEvent)
        case Some(event) =>
          var id := SubKey(req.uuid);
          var summary := (if req.address.Some? then req.address.value else "*") + ":" + event.signature;
          if event.name == "" then Err(NoEventName)
          else Ok(SubInfo(
            id, req.created, "/subscriptions/" + id, summary, if req.name != "" then req.name else summary, req.stream,
            if req.address.Some? then [req.address.value] else [], [event.topic], req.event, fromBlock))
  }

  /** The summary is not stored. */
  function Stored(sub: SubInfo): SubInfo {
    sub.(summary := "")
  }

  // ---------- Operations ----------

  /** The operations, and a checkpoint that the poller of a stream stores whenever it likes, even after the
      stream was deleted. `idle` says that the goroutines of a suspended stream are done. */
  datatype Op =
    | AddStream(uuid: string, created: string, spec: StreamInfo)
    | UpdateStream(id: ID, wanted: StreamInfo)
    | SuspendStream(id: ID)
    | ResumeStream(id: ID, idle: bool)
    | DeleteStream(id: ID)
    | AddSubscription(req: SubRequest)
    | ResetSubscription(id: ID, initialBlock: string)
    | DeleteSubscription(id: ID)
    | StoreCheckpoint(id: ID, blocks: map<ID, int>)

  function WithIdentity(spec: StreamInfo, uuid: string, created: string): StreamInfo {
    var id := StreamKey(uuid);
    spec.(id := id, created := created, path := "/eventstreams/" + id)
  }

  function PutStream(s: State, info: StreamInfo, failing: set<string>): State {
    s.(streams := s.streams[info.id := info],
       db := if info.id in failing then s.db else s.db[info.id := StreamRecord(info)])
  }

  function PutSub(s: State, info: SubInfo, failing: set<string>): State {
    s.(subs := s.subs[info.id := info],
       db := if info.id in failing then s.db else s.db[info.id := SubRecord(Stored(info))])
  }

  function SubsOf(s: State, stream: ID): set<ID> {
    set id | id in s.subs && s.subs[id].stream == stream
  }

  /** What deleting a stream leaves in the store: each subscription's record is deleted on its own, failures
      ignored; the checkpoint is deleted only after the stream's record was. */
  function DeleteRecords(db: map<string, Record>, subs: set<ID>, id: ID, failing: set<string>): map<string, Record> {
    var rest := db - (subs - failing);
    if id in failing then rest else rest - {id} - ({CheckpointKey(id)} - failing)
  }

  /** The state after an operation; `failing` holds the keys for which the store fails to write or delete. */
  function Apply(libs: Libraries, s: State, op: Op, failing: set<string>): State {
    match op
    case AddStream(uuid, created, spec) =>
      (match Normalize(libs, WithIdentity(spec, uuid, created))
       case Ok(info) => PutStream(s, info, failing)
       case Err(_) => s)
    case UpdateStream(id, wanted) =>
      if id !in s.streams then s
      else if UpdateIsRefused(libs, wanted) then
        s.(streams := s.streams[id := Update(libs, s.streams[id], wanted)])
      else PutStream(s, Update(libs, s.streams[id], wanted), failing)
    case SuspendStream(id) =>
      if id !in s.streams then s else PutStream(s, s.streams[id].(suspended := true), failing)
    case ResumeStream(id, idle) =>
      if id !in s.streams || !idle then s else PutStream(s, s.streams[id].(suspended := false), failing)
    case DeleteStream(id) =>
      if id !in s.streams then s
      else
        State(s.streams - {id}, s.subs - SubsOf(s, id),
              DeleteRecords(s.db, SubsOf(s, id), id, failing))
    case AddSubscription(req) =>
      (match NewSubscription(libs, s.streams, req)
       case Ok(info) => PutSub(s, info, failing)
       case Err(_) => s)
    case ResetSubscription(id, initialBlock) =>
      if id !in s.subs || InitialBlock(libs, initialBlock).Err? then s
      else PutSub(s, s.subs[id].(fromBlock := InitialBlock(libs, initialBlock).value), failing)
    case DeleteSubscription(id) =>
      if id !in s.subs then s
      else s.(subs := s.subs - {id}, db := if id in failing then s.db else s.db - {id})
    case StoreCheckpoint(id, blocks) =>
      s.(db := if CheckpointKey(id) in failing then s.db else s.db[CheckpointKey(id) := CheckpointRecord(blocks)])
  }

  /** Identifiers are unique, and no update is refused for its webhook. */
  predicate Admissible(libs: Libraries, s: State, op: Op) {
    match op
    case AddStream(uuid, _, _) => StreamKey(uuid) !in s.streams
    case AddSubscription(req) => SubKey(req.uuid) !in s.subs
    case UpdateStream(id, wanted) => id in s.streams ==> !UpdateIsRefused(libs, wanted)
    case _ => true
  }

  // ---------- Recovery ----------

  predicate RecoversStream(libs: Libraries, db: map<string, Record>, k: string) {
    k in db && IsStreamKey(k) && db[k].StreamRecord? && Normalize(libs, db[k].stream).Ok?
  }

  function StreamsUnder(libs: Libraries, db: map<string, Record>, keys: set<string>): map<ID, StreamInfo> {
    map k | k in keys && RecoversStream(libs, db, k) :: Normalize(libs, db[k].stream).value
  }

  function SubsUnder(libs: Libraries, db: map<string, Record>, streams: map<ID, StreamInfo>, keys: set<string>)
    : map<ID, SubInfo>
  {
    map k | k in keys && RecoversSub(libs, db, streams, k) :: db[k].sub
  }

  function RecoveredStreams(libs: Libraries, db: map<string, Record>): map<ID, StreamInfo> {
    StreamsUnder(libs, db, db.Keys)
  }

  predicate RecoversSub(libs: Libraries, db: map<string, Record>, streams: map<ID, StreamInfo>, k: string) {
    k in db && IsSubKey(k) && db[k].SubRecord? && db[k].sub.id != ""
    && db[k].sub.stream in streams && libs.parseEvent(db[k].sub.event).Some?
  }

  function RecoveredSubs(libs: Libraries, db: map<string, Record>, streams: map<ID, StreamInfo>): map<ID, SubInfo> {
    SubsUnder(libs, db, streams, db.Keys)
  }

  /** What a new manager on the same store holds. */
  function Recover(libs: Libraries, db: map<string, Record>): State {
    var streams := RecoveredStreams(libs, db);
    State(streams, RecoveredSubs(libs, db, streams), db)
  }

  /** The state as it can be recovered: without summaries. */
  function WithoutSummaries(s: State): State {
    s.(subs := map id | id in s.subs :: Stored(s.subs[id]))
  }

  // ---------- What every operation keeps ----------

  /** The stream in memory under a key, if any, is the one that is stored under it. */
  predicate StreamAgrees(libs: Libraries, s: State, k: string) {
    && (k in s.streams ==>
          && IsStreamKey(k) && s.streams[k].id == k && IsNormal(libs, s.streams[k])
          && k in s.db && s.db[k] == StreamRecord(s.streams[k]))
    && (k in s.db && IsStreamKey(k) ==> k in s.streams)
  }

  /** So is the subscription, apart from its summary; and it names a live stream. */
  predicate SubAgrees(libs: Libraries, s: State, k: string) {
    && (k in s.subs ==>
          && IsSubKey(k) && s.subs[k].id == k && libs.parseEvent(s.subs[k].event).Some?
          && s.subs[k].stream in s.streams
          && k in s.db && s.db[k] == SubRecord(Stored(s.subs[k])))
    && (k in s.db && IsSubKey(k) ==> k in s.subs)
  }

  predicate Agrees(libs: Libraries, s: State, k: string) {
    StreamAgrees(libs, s, k) && SubAgrees(libs, s, k)
  }

  ghost predicate Inv(libs: Libraries, s: State) {
    forall k: string {:trigger Agrees(libs, s, k)} :: Agrees(libs, s, k)
  }

  lemma KeysDiffer(id: string)
    ensures !IsStreamKey(CheckpointKey(id)) && !IsSubKey(CheckpointKey(id))
    ensures IsStreamKey(StreamKey(id)) && IsSubKey(SubKey(id))
  {
    assert CheckpointKey(id)[0] == 'c';
  }

  lemma PutStreamAgrees(libs: Libraries, s: State, info: StreamInfo, k: string)
    requires Agrees(libs, s, k) && IsStreamKey(info.id) && IsNormal(libs, info)
    ensures Agrees(libs, PutStream(s, info, {}), k)
  {
    assert !IsSubKey(info.id);
  }

  lemma PutSubAgrees(libs: Libraries, s: State, info: SubInfo, k: string)
    requires Agrees(libs, s, k) && IsSubKey(info.id)
    requires libs.parseEvent(info.event).Some? && info.stream in s.streams
    ensures Agrees(libs, PutSub(s, info, {}), k)
  {
    assert !IsStreamKey(info.id);
  }

  lemma DeleteStreamAgrees(libs: Libraries, s: State, id: ID, k: string)
    requires Agrees(libs, s, k) && Agrees(libs, s, id) && id in s.streams
    ensures Agrees(libs, Apply(libs, s, DeleteStream(id), {}), k)
  {
    KeysDiffer(id);
    var s' := Apply(libs, s, DeleteStream(id), {});
    assert k in s'.db <==> k in s.db && k !in SubsOf(s, id) && k != id && k != CheckpointKey(id);
    assert k in SubsOf(s, id) ==> IsSubKey(k);
  }

  lemma DeleteSubAgrees(libs: Libraries, s: State, id: ID, k: string)
    requires Agrees(libs, s, k) && Agrees(libs, s, id) && id in s.subs
    ensures Agrees(libs, Apply(libs, s, DeleteSubscription(id), {}), k)
  {
    assert IsSubKey(id) && !IsStreamKey(id);
  }

  lemma StoreCheckpointAgrees(libs: Libraries, s: State, id: ID, blocks: map<ID, int>, k: string)
    requires Agrees(libs, s, k)
    ensures Agrees(libs, Apply(libs, s, StoreCheckpoint(id, blocks), {}), k)
  {
    KeysDiffer(id);
  }

  lemma StreamOpAgrees(libs: Libraries, s: State, op: Op, k: string)
    requires LowerCaseStays(libs) && Inv(libs, s) && Admissible(libs, s, op)
    requires op.AddStream? || op.UpdateStream? || op.SuspendStream? || op.ResumeStream?
    ensures Agrees(libs, Apply(libs, s, op, {}), k)
  {
    assert Agrees(libs, s, k);
    if op.AddStream? {
      var spec := WithIdentity(op.spec, op.uuid, op.created);
      if Normalize(libs, spec).Ok? {
        NormalizeIsIdempotent(libs, spec);
        KeysDiffer(op.uuid);
        PutStreamAgrees(libs, s, Normalize(libs, spec).value, k);
      }
    } else if op.id in s.streams {
      assert Agrees(libs, s, op.id);
      if op.UpdateStream? {
        UpdateKeepsNormal(libs, s.streams[op.id], op.wanted);
        PutStreamAgrees(libs, s, Update(libs, s.streams[op.id], op.wanted), k);
      } else {
        PutStreamAgrees(libs, s, s.streams[op.id].(suspended := op.SuspendStream?), k);
      }
    }
  }

  /** When a subscription is added, and what is in memory and in the store afterwards. */
  lemma AddedSubscription(libs: Libraries, s: State, req: SubRequest, failing: set<string>)
    ensures var s' := Apply(libs, s, AddSubscription(req), failing);
            var id := "sb-" + req.uuid;
            if (req.initialBlock in {"", "latest"} || libs.parseBlock(req.initialBlock).Some?)
               && req.stream in s.streams && libs.parseEvent(req.event).Some?
               && libs.parseEvent(req.event).value.name != ""
            then
              var event := libs.parseEvent(req.event).value;
              && s'.streams == s.streams && s'.subs.Keys == s.subs.Keys + {id} && s'.subs - {id} == s.subs - {id}
              && var info := s'.subs[id];
                 && info.id == id && info.created == req.created && info.stream == req.stream
                 && info.path == "/subscriptions/sb-" + req.uuid
                 && info.event == req.event && info.topics == [event.topic]
                 && (req.address.None? ==> info.addresses == [] && info.summary == "*:" + event.signature)
                 && (req.address.Some? ==>
                       info.addresses == [req.address.value]
                       && info.summary == req.address.value + ":" + event.signature)
                 && info.name == (if req.name != "" then req.name else info.summary)
                 && (req.initialBlock in {"", "latest"} ==> info.fromBlock == "latest")
                 && (req.initialBlock !in {"", "latest"} ==>
                       Text.ParseSigned(info.fromBlock) == libs.parseBlock(req.initialBlock))
                 && s'.db == if id in failing then s.db else s.db[id := SubRecord(info.(summary := ""))]
            else s' == s && NewSubscription(libs, s.streams, req).Err?
  {
    if req.initialBlock !in {"", "latest"} && libs.parseBlock(req.initialBlock).Some? {
      StoredBlockIsReadBack(libs, req.initialBlock);
    }
  }

  lemma OpAgrees(libs: Libraries, s: State, op: Op, k: string)
    requires LowerCaseStays(libs) && Inv(libs, s) && Admissible(libs, s, op)
    ensures Agrees(libs, Apply(libs, s, op, {}), k)
  {
    assert Agrees(libs, s, k);
    match op
    case DeleteStream(id) =>
      assert Agrees(libs, s, id);
      if id in s.streams { DeleteStreamAgrees(libs, s, id, k); }
    case DeleteSubscription(id) =>
      assert Agrees(libs, s, id);
      if id in s.subs { DeleteSubAgrees(libs, s, id, k); }
    case StoreCheckpoint(id, blocks) => StoreCheckpointAgrees(libs, s, id, blocks, k);
    case AddSubscription(req) =>
      if NewSubscription(libs, s.streams, req).Ok? {
        KeysDiffer(req.uuid);
        PutSubAgrees(libs, s, NewSubscription(libs, s.streams, req).value, k);
      }
    case ResetSubscription(id, initialBlock) =>
      if id in s.subs && InitialBlock(libs, initialBlock).Ok? {
        assert Agrees(libs, s, id);
        PutSubAgrees(libs, s, s.subs[id].(fromBlock := InitialBlock(libs, initialBlock).value), k);
      }
    case _ => StreamOpAgrees(libs, s, op, k);
  }

  lemma OpKeepsInv(libs: Libraries, s: State, op: Op)
    requires LowerCaseStays(libs) && Inv(libs, s) && Admissible(libs, s, op)
    ensures Inv(libs, Apply(libs, s, op, {}))
  {
    forall k: string ensures Agrees(libs, Apply(libs, s, op, {}), k) {
      OpAgrees(libs, s, op, k);
    }
  }

  ghost predicate Run(libs: Libraries, s: State, ops: seq<Op>)
    decreases |ops|
  {
    ops != [] ==> Admissible(libs, s, ops[0]) && Run(libs, Apply(libs, s, ops[0], {}), ops[1..])
  }

  function After(libs: Libraries, s: State, ops: seq<Op>): State
    decreases |ops|
  {
    if ops == [] then s else After(libs, Apply(libs, s, ops[0], {}), ops[1..])
  }

  lemma {:induction false} RunKeepsInv(libs: Libraries, s: State, ops: seq<Op>)
    requires LowerCaseStays(libs) && Inv(libs, s) && Run(libs, s, ops)
    ensures Inv(libs, After(libs, s, ops))
    decreases |ops|
  {
    if ops != [] {
      OpKeepsInv(libs, s, ops[0]);
      RunKeepsInv(libs, Apply(libs, s, ops[0], {}), ops[1..]);
    }
  }

  lemma KeyRecovers(libs: Libraries, s: State, k: string)
    requires Agrees(libs, s, k)
    ensures RecoversStream(libs, s.db, k) <==> k in s.streams
    ensures k in s.streams ==> Normalize(libs, s.db[k].stream) == Ok(s.streams[k])
    ensures RecoversSub(libs, s.db, s.streams, k) <==> k in s.subs
    ensures k in s.subs ==> s.db[k].sub == Stored(s.subs[k])
  {
  }

  lemma StreamsRecover(libs: Libraries, s: State)
    requires Inv(libs, s)
    ensures RecoveredStreams(libs, s.db) == s.streams
  {
    var streams := RecoveredStreams(libs, s.db);
    forall k: string ensures (k in streams <==> k in s.streams) && (k in streams ==> streams[k] == s.streams[k]) {
      assert Agrees(libs, s, k);
      KeyRecovers(libs, s, k);
    }
  }

  lemma SubsRecover(libs: Libraries, s: State)
    requires Inv(libs, s)
    ensures RecoveredSubs(libs, s.db, s.streams) == WithoutSummaries(s).subs
  {
    var subs := RecoveredSubs(libs, s.db, s.streams);
    forall k: string ensures (k in subs <==> k in s.subs) && (k in subs ==> subs[k] == Stored(s.subs[k])) {
      assert Agrees(libs, s, k);
      KeyRecovers(libs, s, k);
    }
  }

  lemma SubsNameLiveStreams(libs: Libraries, s: State)
    requires Inv(libs, s)
    ensures SubsAreLive(s)
  {
    forall id | id in s.subs ensures s.subs[id].stream in s.streams {
      assert Agrees(libs, s, id);
    }
  }

  ghost predicate SubsAreLive(s: State) {
    forall id :: id in s.subs ==> s.subs[id].stream in s.streams
  }

  /** After any operations whose writes succeed, a new manager on the same store holds exactly the streams and
      subscriptions in memory, apart from the summaries, and every subscription names a live stream. */
  lemma RecoveryEqualsMemory(libs: Libraries, ops: seq<Op>)
    requires LowerCaseStays(libs) && Run(libs, EMPTY, ops)
    ensures var s := After(libs, EMPTY, ops);
            Recover(libs, s.db) == WithoutSummaries(s) && SubsAreLive(s)
  {
    RunKeepsInv(libs, EMPTY, ops);
    var s := After(libs, EMPTY, ops);
    InvRecovers(libs, s);
    SubsNameLiveStreams(libs, s);
  }

  /** The one key that an operation writes or deletes, if it does; deleting a stream concerns several. */
  function KeyOf(op: Op): string {
    match op
    case AddStream(uuid, _, _) => StreamKey(uuid)
    case AddSubscription(req) => SubKey(req.uuid)
    case StoreCheckpoint(id, _) => CheckpointKey(id)
    case _ => op.id
  }

  lemma OneKeyWritten(libs: Libraries, s: State, op: Op, failing: set<string>)
    requires Inv(libs, s) && !op.DeleteStream?
    ensures KeyOf(op) in failing ==> Apply(libs, s, op, failing).db == s.db
    ensures KeyOf(op) !in failing ==> Apply(libs, s, op, failing) == Apply(libs, s, op, {})
  {
    if op.UpdateStream? || op.SuspendStream? || op.ResumeStream? || op.ResetSubscription? {
      assert Agrees(libs, s, op.id);
    }
  }

  lemma InvRecovers(libs: Libraries, s: State)
    requires Inv(libs, s)
    ensures Recover(libs, s.db) == WithoutSummaries(s)
  {
    StreamsRecover(libs, s);
    SubsRecover(libs, s);
  }

  /** Every operation but the deletion of a stream is all or nothing for a restart: what is recovered is the
      memory before it exactly if its write failed, else the memory after it. */
  lemma SingleWriteIsAllOrNothing(libs: Libraries, ops: seq<Op>, op: Op, failing: set<string>)
    requires LowerCaseStays(libs) && Run(libs, EMPTY, ops) && Admissible(libs, After(libs, EMPTY, ops), op)
    requires !op.DeleteStream?
    ensures var s := After(libs, EMPTY, ops);
            var s' := Apply(libs, s, op, failing);
            Recover(libs, s'.db) == WithoutSummaries(if KeyOf(op) in failing then s else s')
  {
    var s := After(libs, EMPTY, ops);
    RunKeepsInv(libs, EMPTY, ops);
    OneKeyWritten(libs, s, op, failing);
    InvRecovers(libs, s);
    OpKeepsInv(libs, s, op);
    InvRecovers(libs, Apply(libs, s, op, {}));
  }

  /** The keys that deleting a stream leaves. */
  lemma DeletedRecords(db: map<string, Record>, subs: set<ID>, id: ID, failing: set<string>, k: string)
    ensures var db' := DeleteRecords(db, subs, id, failing);
            && (k in db' <==> && k in db && (k in subs ==> k in failing)
                              && (id in failing || (k != id && (k == CheckpointKey(id) ==> k in failing))))
            && (k in db' ==> db'[k] == db[k])
  {
  }

  lemma DeletedStreamsRecover(libs: Libraries, s: State, id: ID, failing: set<string>)
    requires Inv(libs, s) && id in s.streams
    ensures RecoveredStreams(libs, DeleteRecords(s.db, SubsOf(s, id), id, failing))
         == if id in failing then s.streams else s.streams - {id}
  {
    var db' := DeleteRecords(s.db, SubsOf(s, id), id, failing);
    var streams := RecoveredStreams(libs, db');
    KeysDiffer(id);
    forall k: string
      ensures k in streams <==> k in s.streams && (id in failing || k != id)
      ensures k in streams ==> streams[k] == s.streams[k]
    {
      assert Agrees(libs, s, k);
      KeyRecovers(libs, s, k);
      DeletedRecords(s.db, SubsOf(s, id), id, failing, k);
    }
  }

  lemma DeletedSubsRecover(libs: Libraries, s: State, id: ID, failing: set<string>, streams: map<ID, StreamInfo>)
    requires Inv(libs, s) && id in s.streams
    requires streams == if id in failing then s.streams else s.streams - {id}
    ensures RecoveredSubs(libs, DeleteRecords(s.db, SubsOf(s, id), id, failing), streams)
         == WithoutSummaries(s).subs - (if id in failing then SubsOf(s, id) - failing else SubsOf(s, id))
  {
    var db' := DeleteRecords(s.db, SubsOf(s, id), id, failing);
    var subs := RecoveredSubs(libs, db', streams);
    KeysDiffer(id);
    assert Agrees(libs, s, id);
    forall k: string
      ensures k in subs <==> k in s.subs && k !in (if id in failing then SubsOf(s, id) - failing else SubsOf(s, id))
      ensures k in subs ==> subs[k] == Stored(s.subs[k])
    {
      assert Agrees(libs, s, k);
      KeyRecovers(libs, s, k);
      DeletedRecords(s.db, SubsOf(s, id), id, failing, k);
    }
  }

  /** What a restart recovers after the deletion of a stream, for every combination of failures: the stream if its
      own delete failed, and then those of its subscriptions whose deletes failed; other subscriptions always. */
  lemma DeletedStreamRecovers(libs: Libraries, ops: seq<Op>, id: ID, failing: set<string>)
    requires LowerCaseStays(libs) && Run(libs, EMPTY, ops) && id in After(libs, EMPTY, ops).streams
    ensures var s := After(libs, EMPTY, ops);
            var r := Recover(libs, Apply(libs, s, DeleteStream(id), failing).db);
            && r.streams == (if id in failing then s.streams else s.streams - {id})
            && r.subs == WithoutSummaries(s).subs
                         - (if id in failing then SubsOf(s, id) - failing else SubsOf(s, id))
  {
    RunKeepsInv(libs, EMPTY, ops);
    var s := After(libs, EMPTY, ops);
    DeletedStreamsRecover(libs, s, id, failing);
    DeletedSubsRecover(libs, s, id, failing, if id in failing then s.streams else s.streams - {id});
  }

  /** So the memory before is recovered exactly if no delete of the stream or of a subscription took effect, and
      the memory after exactly if the stream's own delete did, whatever became of the others. */
  lemma DeletedStreamIsForgottenIff(libs: Libraries, ops: seq<Op>, id: ID, failing: set<string>)
    requires LowerCaseStays(libs) && Run(libs, EMPTY, ops) && id in After(libs, EMPTY, ops).streams
    ensures var s := After(libs, EMPTY, ops);
            var s' := Apply(libs, s, DeleteStream(id), failing);
            var r, before, after := Recover(libs, s'.db), WithoutSummaries(s), WithoutSummaries(s');
            && (r.streams == before.streams && r.subs == before.subs <==> id in failing && SubsOf(s, id) <= failing)
            && (r.streams == after.streams && r.subs == after.subs <==> id !in failing)
  {
    DeletedStreamRecovers(libs, ops, id, failing);
    var s := After(libs, EMPTY, ops);
    var r := Recover(libs, Apply(libs, s, DeleteStream(id), failing).db);
    SummariesAfterDelete(libs, s, id, failing);
    ForgottenIff(s.streams, WithoutSummaries(s).subs, id, SubsOf(s, id), failing, r.streams, r.subs);
  }

  lemma SummariesAfterDelete(libs: Libraries, s: State, id: ID, failing: set<string>)
    requires id in s.streams
    ensures WithoutSummaries(Apply(libs, s, DeleteStream(id), failing)).subs == WithoutSummaries(s).subs - SubsOf(s, id)
    ensures SubsOf(s, id) <= WithoutSummaries(s).subs.Keys
  {
  }

  lemma ForgottenIff(streams: map<ID, StreamInfo>, subs: map<ID, SubInfo>, id: ID, gone: set<ID>, failing: set<string>,
                     streams': map<ID, StreamInfo>, subs': map<ID, SubInfo>)
    requires id in streams && gone <= subs.Keys
    requires streams' == if id in failing then streams else streams - {id}
    requires subs' == subs - (if id in failing then gone - failing else gone)
    ensures streams' == streams && subs' == subs <==> id in failing && gone <= failing
    ensures streams' == streams - {id} && subs' == subs - gone <==> id !in failing
  {
    assert id !in streams - {id};
    assert subs'.Keys == subs.Keys - (if id in failing then gone - failing else gone);
    if gone <= failing {
      assert subs - (gone - failing) == subs;
    }
  }

  /** An update that is refused for its webhook has changed the other fields already, in memory only: memory
      and store agree afterwards exactly if those fields were the same. */
  lemma RefusedUpdateIsKeptIff(libs: Libraries, ops: seq<Op>, id: ID, wanted: StreamInfo)
    requires LowerCaseStays(libs) && Run(libs, EMPTY, ops)
    requires id in After(libs, EMPTY, ops).streams && UpdateIsRefused(libs, wanted)
    ensures var s := After(libs, EMPTY, ops);
            var s' := Apply(libs, s, UpdateStream(id, wanted), {});
            Recover(libs, s'.db) == WithoutSummaries(s') <==>
              UpdateFields(libs, s.streams[id], wanted) == s.streams[id]
  {
    RecoveryEqualsMemory(libs, ops);
    var s := After(libs, EMPTY, ops);
    var s' := Apply(libs, s, UpdateStream(id, wanted), {});
    assert s'.streams[id] == UpdateFields(libs, s.streams[id], wanted);
    if UpdateFields(libs, s.streams[id], wanted) == s.streams[id] {
      assert s'.streams == s.streams;
    }
  }

  lemma CheckpointKeysDiffer(id: ID, other: ID)
    ensures CheckpointKey(id) == CheckpointKey(other) <==> id == other
  {
    assert CheckpointKey(other)[3..] == other && CheckpointKey(id)[3..] == id;
  }

  /** A checkpoint is read back until it is stored again or its stream is deleted, whatever else happens. */
  lemma CheckpointStays(libs: Libraries, s: State, id: ID, op: Op)
    requires Inv(libs, s) && Admissible(libs, s, op) && CheckpointKey(id) in s.db
    requires op != DeleteStream(id) && !(op.StoreCheckpoint? && op.id == id)
    ensures var db := Apply(libs, s, op, {}).db;
            CheckpointKey(id) in db && db[CheckpointKey(id)] == s.db[CheckpointKey(id)]
  {
    var k := CheckpointKey(id);
    KeysDiffer(id);
    assert Agrees(libs, s, k);
    match op
    case AddStream(uuid, _, _) => KeysDiffer(uuid);
    case AddSubscription(req) => KeysDiffer(req.uuid);
    case DeleteStream(other) =>
      assert Agrees(libs, s, other);
      CheckpointKeysDiffer(id, other);
    case StoreCheckpoint(other, _) => CheckpointKeysDiffer(id, other);
    case DeleteSubscription(other) => assert Agrees(libs, s, other);
    case ResetSubscription(other, _) => assert Agrees(libs, s, other);
    case _ => assert Agrees(libs, s, op.id);
  }

  // ---------- Any operations, any failures ----------

  /** What an operation does to the store under one key, if the store does not fail for that key. */
  datatype Effect = Untouched | Written(record: Record) | Deleted

  function EffectOn(libs: Libraries, s: State, op: Op, failing: set<string>, k: string): Effect {
    if k in failing then Untouched
    else
      match op
      case AddStream(uuid, created, spec) =>
        var info := Normalize(libs, WithIdentity(spec, uuid, created));
        if k == StreamKey(uuid) && info.Ok? then Written(StreamRecord(info.value)) else Untouched
      case UpdateStream(id, wanted) =>
        if k == id && id in s.streams && !UpdateIsRefused(libs, wanted)
        then Written(StreamRecord(Update(libs, s.streams[id], wanted))) else Untouched
      case SuspendStream(id) =>
        if k == id && id in s.streams then Written(StreamRecord(s.streams[id].(suspended := true))) else Untouched
      case ResumeStream(id, idle) =>
        if k == id && id in s.streams && idle then Written(StreamRecord(s.streams[id].(suspended := false)))
        else Untouched
      case DeleteStream(id) =>
        if id in s.streams && (k == id || k in SubsOf(s, id) || (k == CheckpointKey(id) && id !in failing)) then Deleted
        else Untouched
      case AddSubscription(req) =>
        var info := NewSubscription(libs, s.streams, req);
        if k == SubKey(req.uuid) && info.Ok? then Written(SubRecord(Stored(info.value))) else Untouched
      case ResetSubscription(id, initialBlock) =>
        var block := InitialBlock(libs, initialBlock);
        if k == id && id in s.subs && block.Ok? then Written(SubRecord(Stored(s.subs[id].(fromBlock := block.value))))
        else Untouched
      case DeleteSubscription(id) => if k == id && id in s.subs then Deleted else Untouched
      case StoreCheckpoint(id, blocks) =>
        if k == CheckpointKey(id) then Written(CheckpointRecord(blocks)) else Untouched
  }

  predicate IsSound(libs: Libraries, k: string, r: Record) {
    match r
    case StreamRecord(info) => IsStreamKey(k) && info.id == k && IsNormal(libs, info)
    case SubRecord(info) => IsSubKey(k) && info.id == k && libs.parseEvent(info.event).Some?
    case CheckpointRecord(_) => !IsStreamKey(k) && !IsSubKey(k)
    case Unreadable => false
  }

  /** What is in memory under a key could be stored under it. */
  predicate MemoryIsSound(libs: Libraries, s: State, k: string) {
    && (k in s.streams ==> IsSound(libs, k, StreamRecord(s.streams[k])))
    && (k in s.subs ==> IsSound(libs, k, SubRecord(s.subs[k])))
  }

  ghost predicate SoundMemory(libs: Libraries, s: State) {
    forall k: string {:trigger MemoryIsSound(libs, s, k)} :: MemoryIsSound(libs, s, k)
  }

  lemma EffectIsSound(libs: Libraries, s: State, op: Op, failing: set<string>, k: string)
    requires LowerCaseStays(libs) && MemoryIsSound(libs, s, k) && EffectOn(libs, s, op, failing, k).Written?
    ensures IsSound(libs, k, EffectOn(libs, s, op, failing, k).record)
  {
    match op
    case AddStream(uuid, created, spec) =>
      KeysDiffer(uuid);
      NormalizeIsIdempotent(libs, WithIdentity(spec, uuid, created));
    case UpdateStream(id, wanted) => UpdateKeepsNormal(libs, s.streams[id], wanted);
    case AddSubscription(req) => KeysDiffer(req.uuid);
    case StoreCheckpoint(id, _) => KeysDiffer(id);
    case _ =>
  }

  lemma PutStreamStaysSound(libs: Libraries, s: State, info: StreamInfo, failing: set<string>, k: string)
    requires MemoryIsSound(libs, s, k) && IsStreamKey(info.id) && IsNormal(libs, info)
    ensures MemoryIsSound(libs, PutStream(s, info, failing), k)
  {
  }

  lemma StreamOpStaysSound(libs: Libraries, s: State, op: Op, failing: set<string>, k: string)
    requires LowerCaseStays(libs) && MemoryIsSound(libs, s, k) && SoundMemory(libs, s)
    requires op.AddStream? || op.UpdateStream? || op.SuspendStream? || op.ResumeStream?
    ensures MemoryIsSound(libs, Apply(libs, s, op, failing), k)
  {
    if op.AddStream? {
      var spec := WithIdentity(op.spec, op.uuid, op.created);
      KeysDiffer(op.uuid);
      if Normalize(libs, spec).Ok? {
        NormalizeIsIdempotent(libs, spec);
        PutStreamStaysSound(libs, s, Normalize(libs, spec).value, failing, k);
      }
    } else if op.id in s.streams {
      assert MemoryIsSound(libs, s, op.id);
      if op.UpdateStream? {
        UpdateKeepsNormal(libs, s.streams[op.id], op.wanted);
        PutStreamStaysSound(libs, s, Update(libs, s.streams[op.id], op.wanted), failing, k);
      } else {
        PutStreamStaysSound(libs, s, s.streams[op.id].(suspended := op.SuspendStream?), failing, k);
      }
    }
  }

  lemma MemoryStaysSound(libs: Libraries, s: State, op: Op, failing: set<string>, k: string)
    requires LowerCaseStays(libs) && MemoryIsSound(libs, s, k) && SoundMemory(libs, s)
    ensures MemoryIsSound(libs, Apply(libs, s, op, failing), k)
  {
    match op
    case AddSubscription(req) => KeysDiffer(req.uuid);
    case ResetSubscription(id, _) => assert MemoryIsSound(libs, s, id);
    case DeleteStream(_) =>
    case DeleteSubscription(_) =>
    case StoreCheckpoint(_, _) =>
    case _ => StreamOpStaysSound(libs, s, op, failing, k);
  }

  predicate HasEffect(effect: Effect, db: map<string, Record>, db': map<string, Record>, k: string) {
    match effect
    case Untouched => (k in db' <==> k in db) && (k in db' ==> db'[k] == db[k])
    case Written(r) => k in db' && db'[k] == r
    case Deleted => k !in db'
  }

  lemma StreamOpHasEffect(libs: Libraries, s: State, op: Op, failing: set<string>, k: string)
    requires SoundMemory(libs, s)
    requires op.AddStream? || op.UpdateStream? || op.SuspendStream? || op.ResumeStream?
    ensures HasEffect(EffectOn(libs, s, op, failing, k), s.db, Apply(libs, s, op, failing).db, k)
  {
    if !op.AddStream? {
      assert MemoryIsSound(libs, s, op.id);
    }
  }

  lemma SubOpHasEffect(libs: Libraries, s: State, op: Op, failing: set<string>, k: string)
    requires SoundMemory(libs, s)
    requires op.AddSubscription? || op.ResetSubscription? || op.DeleteSubscription? || op.StoreCheckpoint?
    ensures HasEffect(EffectOn(libs, s, op, failing, k), s.db, Apply(libs, s, op, failing).db, k)
  {
    if op.ResetSubscription? {
      assert MemoryIsSound(libs, s, op.id);
    }
  }

  lemma DeleteStreamHasEffect(libs: Libraries, s: State, id: ID, failing: set<string>, k: string)
    ensures var op := DeleteStream(id);
            HasEffect(EffectOn(libs, s, op, failing, k), s.db, Apply(libs, s, op, failing).db, k)
  {
    if id in s.streams {
      DeletedRecords(s.db, SubsOf(s, id), id, failing, k);
    }
  }

  lemma ApplyHasEffect(libs: Libraries, s: State, op: Op, failing: set<string>, k: string)
    requires SoundMemory(libs, s)
    ensures HasEffect(EffectOn(libs, s, op, failing, k), s.db, Apply(libs, s, op, failing).db, k)
  {
    if op.DeleteStream? {
      DeleteStreamHasEffect(libs, s, op.id, failing, k);
    } else if op.AddStream? || op.UpdateStream? || op.SuspendStream? || op.ResumeStream? {
      StreamOpHasEffect(libs, s, op, failing, k);
    } else {
      SubOpHasEffect(libs, s, op, failing, k);
    }
  }

  /** An operation, and the keys for which the store fails while it runs. */
  datatype Attempt = Attempt(op: Op, failing: set<string>)

  function AfterAttempts(libs: Libraries, s: State, attempts: seq<Attempt>): State
    decreases |attempts|
  {
    if attempts == [] then s
    else AfterAttempts(libs, Apply(libs, s, attempts[0].op, attempts[0].failing), attempts[1..])
  }

  /** The last effect that took place under a key. */
  function LastEffect(libs: Libraries, s: State, attempts: seq<Attempt>, k: string): Effect
    decreases |attempts|
  {
    if attempts == [] then Untouched
    else
      var first := attempts[0];
      var later := LastEffect(libs, Apply(libs, s, first.op, first.failing), attempts[1..], k);
      if later.Untouched? then EffectOn(libs, s, first.op, first.failing, k) else later
  }

  lemma {:induction false} StoreHoldsLastEffect(libs: Libraries, s: State, attempts: seq<Attempt>, k: string)
    requires LowerCaseStays(libs) && SoundMemory(libs, s)
    ensures var last := LastEffect(libs, s, attempts, k);
            && HasEffect(last, s.db, AfterAttempts(libs, s, attempts).db, k)
            && (last.Written? ==> IsSound(libs, k, last.record))
    decreases |attempts|
  {
    if attempts != [] {
      var first := attempts[0];
      var s' := Apply(libs, s, first.op, first.failing);
      forall k': string ensures MemoryIsSound(libs, s', k') {
        assert MemoryIsSound(libs, s, k');
        MemoryStaysSound(libs, s, first.op, first.failing, k');
      }
      StoreHoldsLastEffect(libs, s', attempts[1..], k);
      ApplyHasEffect(libs, s, first.op, first.failing, k);
      assert MemoryIsSound(libs, s, k);
      if EffectOn(libs, s, first.op, first.failing, k).Written? {
        EffectIsSound(libs, s, first.op, first.failing, k);
      }
    }
  }

  /** After any operations, refused or not, with any failures of the store, a restart recovers key by key what was
      last written and not deleted since: each stream, and each subscription whose stream is recovered. */
  lemma RestartRecoversLastWritten(libs: Libraries, attempts: seq<Attempt>, k: string)
    requires LowerCaseStays(libs)
    ensures var r, last := Recover(libs, AfterAttempts(libs, EMPTY, attempts).db), LastEffect(libs, EMPTY, attempts, k);
            && (k in r.streams <==> IsStreamKey(k) && last.Written?)
            && (k in r.streams ==> last.record == StreamRecord(r.streams[k]))
            && (k in r.subs <==>
                  IsSubKey(k) && last.Written? && last.record.SubRecord? && last.record.sub.stream in r.streams)
            && (k in r.subs ==> last.record == SubRecord(r.subs[k]))
  {
    forall k': string ensures MemoryIsSound(libs, EMPTY, k') {
    }
    StoreHoldsLastEffect(libs, EMPTY, attempts, k);
  }

  // ---------- The manager's methods ----------

  /** Every record is stored under its own identifier. */
  ghost predicate KeysAreIds(db: map<string, Record>) {
    && (forall k :: k in db && IsStreamKey(k) && db[k].StreamRecord? ==> db[k].stream.id == k)
    && (forall k :: k in db && IsSubKey(k) && db[k].SubRecord? ==> db[k].sub.id == k)
  }

  lemma StoredKeysAreIds(libs: Libraries, s: State)
    requires Inv(libs, s)
    ensures KeysAreIds(s.db)
  {
    forall k | k in s.db ensures IsStreamKey(k) && s.db[k].StreamRecord? ==> s.db[k].stream.id == k {
      assert Agrees(libs, s, k);
    }
    forall k | k in s.db ensures IsSubKey(k) && s.db[k].SubRecord? ==> s.db[k].sub.id == k {
      assert Agrees(libs, s, k);
    }
  }

  lemma StreamsUnderOneMore(libs: Libraries, db: map<string, Record>, keys: set<string>, k: string)
    ensures StreamsUnder(libs, db, keys + {k})
         == if RecoversStream(libs, db, k) then StreamsUnder(libs, db, keys)[k := Normalize(libs, db[k].stream).value]
            else StreamsUnder(libs, db, keys)
  {
  }

  lemma SubsUnderOneMore(libs: Libraries, db: map<string, Record>, streams: map<ID, StreamInfo>, keys: set<string>,
      k: string)
    ensures SubsUnder(libs, db, streams, keys + {k})
         == if RecoversSub(libs, db, streams, k) then SubsUnder(libs, db, streams, keys)[k := db[k].sub]
            else SubsUnder(libs, db, streams, keys)
  {
  }

  lemma RemoveOneMore<V>(m: map<ID, V>, gone: set<ID>, id: ID)
    ensures m - gone - {id} == m - (gone + {id})
  {
  }

  lemma RemoveOneMoreUnlessFailing(db: map<string, Record>, gone: set<ID>, failing: set<string>, id: ID)
    ensures db - (gone + {id} - failing)
         == if id in failing then db - (gone - failing) else db - (gone - failing) - {id}
  {
    if id in failing {
      assert gone + {id} - failing == gone - failing;
    } else {
      assert gone + {id} - failing == gone - failing + {id};
    }
  }

  class SubscriptionManager {
    const libs: Libraries
    var subscriptions: map<ID, SubInfo>
    var streams: map<ID, StreamInfo>
    var db: map<string, Record>

    ghost function View(): State
      reads this
    {
      State(streams, subscriptions, db)
    }

    constructor (libs: Libraries, db: map<string, Record>)
      ensures this.libs == libs && View() == State(map[], map[], db)
    {
      this.libs, this.db := libs, db;
      streams, subscriptions := map[], map[];
    }

    method StoreStream(info: StreamInfo, failing: set<string>) returns (r: Result<StreamInfo, Error>)
      modifies this`db
      ensures db == if info.id in failing then old(db) else old(db)[info.id := StreamRecord(info)]
      ensures r == if info.id in failing then Err(StoreFailed) else Ok(info)
    {
      if info.id in failing {
        return Err(StoreFailed);
      }
      db := db[info.id := StreamRecord(info)];
      return Ok(info);
    }

    method StoreSubscription(info: SubInfo, failing: set<string>) returns (r: Result<SubInfo, Error>)
      modifies this`db
      ensures db == if info.id in failing then old(db) else old(db)[info.id := SubRecord(Stored(info))]
      ensures r == if info.id in failing then Err(StoreFailed) else Ok(info)
    {
      if info.id in failing {
        return Err(StoreFailed);
      }
      db := db[info.id := SubRecord(info.(summary := ""))];
      return Ok(info);
    }

    method AddStream(uuid: string, created: string, spec: StreamInfo, failing: set<string>)
      returns (r: Result<StreamInfo, Error>)
      modifies this
      ensures View() == Apply(libs, old(View()), Op.AddStream(uuid, created, spec), failing)
      ensures var n := Normalize(libs, WithIdentity(spec, uuid, created));
              r == if n.Ok? && n.value.id in failing then Err(StoreFailed) else n
    {
      r := Normalize(libs, WithIdentity(spec, uuid, created));
      if r.Ok? {
        streams := streams[r.value.id := r.value];
        r := StoreStream(r.value, failing);
      }
    }

    /** Also marks the given stream as suspended, or as resumed. */
    method SetSuspended(id: ID, suspended: bool, failing: set<string>) returns (r: Result<StreamInfo, Error>)
      requires id in streams && streams[id].id == id
      modifies this
      ensures View() == PutStream(old(View()), old(streams)[id].(suspended := suspended), failing)
      ensures r.Ok? <==> id !in failing
    {
      streams := streams[id := streams[id].(suspended := suspended)];
      r := StoreStream(streams[id], failing);
    }

    method SuspendStream(id: ID, failing: set<string>) returns (r: Result<StreamInfo, Error>)
      requires id in streams ==> streams[id].id == id
      modifies this
      ensures View() == Apply(libs, old(View()), Op.SuspendStream(id), failing)
      ensures r.Ok? <==> id in old(streams) && id !in failing
    {
      if id !in streams {
        return Err(NotFound);
      }
      r := SetSuspended(id, true, failing);
    }

    method ResumeStream(id: ID, idle: bool, failing: set<string>) returns (r: Result<StreamInfo, Error>)
      requires id in streams ==> streams[id].id == id
      modifies this
      ensures View() == Apply(libs, old(View()), Op.ResumeStream(id, idle), failing)
      ensures r.Ok? <==> id in old(streams) && idle && id !in failing
    {
      if id !in streams {
        return Err(NotFound);
      }
      if !idle {
        return Err(StillActive);
      }
      r := SetSuspended(id, false, failing);
    }

    method UpdateStream(id: ID, wanted: StreamInfo, failing: set<string>) returns (r: Result<StreamInfo, Error>)
      requires id in streams ==> streams[id].id == id
      modifies this
      ensures View() == Apply(libs, old(View()), Op.UpdateStream(id, wanted), failing)
      ensures r.Ok? <==> id in old(streams) && !UpdateIsRefused(libs, wanted) && id !in failing
    {
      if id !in streams {
        return Err(NotFound);
      }
      streams := streams[id := UpdateFields(libs, streams[id], wanted)];
      if wanted.webhook.Some? {
        var webhook := CheckWebhook(libs, wanted.webhook);
        if webhook.Err? {
          return Err(webhook.error);
        }
        streams := streams[id := streams[id].(webhook := Some(webhook.value))];
      }
      r := StoreStream(streams[id], failing);
    }

    method AddSubscription(req: SubRequest, failing: set<string>) returns (r: Result<SubInfo, Error>)
      modifies this
      ensures View() == Apply(libs, old(View()), Op.AddSubscription(req), failing)
      ensures var n := NewSubscription(libs, old(streams), req);
              r == if n.Ok? && n.value.id in failing then Err(StoreFailed) else n
    {
      r := NewSubscription(libs, streams, req);
      if r.Ok? {
        subscriptions := subscriptions[r.value.id := r.value];
        r := StoreSubscription(r.value, failing);
      }
    }

    method ResetSubscription(id: ID, initialBlock: string, failing: set<string>) returns (r: Result<SubInfo, Error>)
      requires id in subscriptions ==> subscriptions[id].id == id
      modifies this
      ensures View() == Apply(libs, old(View()), Op.ResetSubscription(id, initialBlock), failing)
      ensures r.Ok? <==> id in old(subscriptions) && InitialBlock(libs, initialBlock).Ok? && id !in failing
    {
      if id !in subscriptions {
        return Err(NotFound);
      }
      var block := InitialBlock(libs, initialBlock);
      if block.Err? {
        return Err(block.error);
      }
      subscriptions := subscriptions[id := subscriptions[id].(fromBlock := block.value)];
      r := StoreSubscription(subscriptions[id], failing);
    }

    method DeleteSubscription(id: ID, failing: set<string>) returns (deleted: bool)
      modifies this
      ensures View() == Apply(libs, old(View()), Op.DeleteSubscription(id), failing)
      ensures deleted == (id in old(subscriptions) && id !in failing)
    {
      deleted := id in subscriptions && id !in failing;
      if id in subscriptions {
        RemoveSubscription(id, failing);
      }
    }

    method RemoveSubscription(id: ID, failing: set<string>)
      modifies this`subscriptions, this`db
      ensures subscriptions == old(subscriptions) - {id}
      ensures db == if id in failing then old(db) else old(db) - {id}
    {
      subscriptions := subscriptions - {id};
      if id !in failing {
        db := db - {id};
      }
    }

    /** Deletes the subscriptions of a stream one by one, then the stream, then its checkpoint. */
    method DeleteStream(id: ID, failing: set<string>) returns (deleted: bool)
      modifies this
      ensures View() == Apply(libs, old(View()), Op.DeleteStream(id), failing)
      ensures deleted == (id in old(streams) && id !in failing)
    {
      if id !in streams {
        return false;
      }
      DeleteSubscriptionsOf(id, failing);
      streams := streams - {id};
      if id in failing {
        return false;
      }
      db := db - {id};
      if CheckpointKey(id) !in failing {
        db := db - {CheckpointKey(id)};
      }
      deleted := true;
    }

    method DeleteSubscriptionsOf(id: ID, failing: set<string>)
      modifies this`subscriptions, this`db
      ensures subscriptions == old(subscriptions) - SubsOf(old(View()), id)
      ensures db == old(db) - (SubsOf(old(View()), id) - failing)
    {
      ghost var subs := SubsOf(View(), id);
      ghost var gone: set<ID> := {};
      ghost var subscriptions0, db0 := subscriptions, db;
      var todo := subscriptions.Keys;
      while todo != {}
        invariant todo <= subscriptions.Keys && gone <= subs <= gone + todo
        invariant subscriptions == subscriptions0 - gone
        invariant db == db0 - (gone - failing)
        decreases |todo|
      {
        var sub :| sub in todo;
        todo := todo - {sub};
        if subscriptions[sub].stream == id {
          RemoveSubscription(sub, failing);
          RemoveOneMore(subscriptions0, gone, sub);
          RemoveOneMoreUnlessFailing(db0, gone, failing, sub);
          gone := gone + {sub};
        }
      }
      assert gone == subs;
    }

    method StoreCheckpoint(id: ID, blocks: map<ID, int>, failing: set<string>)
      modifies this
      ensures View() == Apply(libs, old(View()), Op.StoreCheckpoint(id, blocks), failing)
    {
      if CheckpointKey(id) !in failing {
        db := db[CheckpointKey(id) := CheckpointRecord(blocks)];
      }
    }

    /** A checkpoint that was never stored is empty; one that cannot be read is an error. */
    method LoadCheckpoint(id: ID) returns (r: Option<map<ID, int>>)
      ensures CheckpointKey(id) !in db ==> r == Some(map[])
      ensures CheckpointKey(id) in db ==>
                r == if db[CheckpointKey(id)].CheckpointRecord? then Some(db[CheckpointKey(id)].blocks) else None
    {
      if CheckpointKey(id) !in db {
        return Some(map[]);
      }
      match db[CheckpointKey(id)]
      case CheckpointRecord(blocks) => return Some(blocks);
      case _ => return None;
    }

    method RecoverStreams(keys: seq<string>)
      requires forall k :: k in keys <==> k in db
      requires KeysAreIds(db) && streams == map[]
      modifies this`streams
      ensures streams == RecoveredStreams(libs, db)
    {
      ghost var seen: set<string> := {};
      for i := 0 to |keys|
        invariant forall j :: 0 <= j < i ==> keys[j] in seen
        invariant seen <= db.Keys && streams == StreamsUnder(libs, db, seen)
      {
        var k := keys[i];
        StreamsUnderOneMore(libs, db, seen, k);
        if IsStreamKey(k) && db[k].StreamRecord? {
          var stream := Normalize(libs, db[k].stream);
          if stream.Ok? {
            streams := streams[db[k].stream.id := stream.value];
          }
        }
        seen := seen + {k};
      }
      assert seen == db.Keys;
    }

    method RecoverSubscriptions(keys: seq<string>)
      requires forall k :: k in keys <==> k in db
      requires KeysAreIds(db) && subscriptions == map[]
      modifies this`subscriptions
      ensures subscriptions == RecoveredSubs(libs, db, streams)
    {
      ghost var seen: set<string> := {};
      for i := 0 to |keys|
        invariant forall j :: 0 <= j < i ==> keys[j] in seen
        invariant seen <= db.Keys && subscriptions == SubsUnder(libs, db, streams, seen)
      {
        var k := keys[i];
        SubsUnderOneMore(libs, db, streams, seen, k);
        if IsSubKey(k) && db[k].SubRecord? {
          var info := db[k].sub;
          if info.id != "" && info.stream in streams && libs.parseEvent(info.event).Some? {
            subscriptions := subscriptions[info.id := info];
          }
        }
        seen := seen + {k};
      }
      assert seen == db.Keys;
    }

    /** Recovers streams first, then subscriptions, each while iterating over all keys of the store. */
    method Init(keys: seq<string>)
      requires forall k :: k in keys <==> k in db
      requires KeysAreIds(db) && View() == State(map[], map[], db)
      modifies this
      ensures View() == Recover(libs, old(db))
    {
      RecoverStreams(keys);
      RecoverSubscriptions(keys);
    }
  }
}
