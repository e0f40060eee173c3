/** Protocol envelopes: the object form, its strict reader, and the JSON text form. */
module Envelopes {
  import opened Common
  import opened Json
  import Utf8

  const PROTOCOL_VERSION := 1
  const MAX_PAYLOAD_BYTES := 128 * 1024
  const MAX_STAMP := 0x7FFF_FFFF_FFFF_FFFF

  const ENVELOPE_FIELDS: set<string> := {
    "v", "k", "t", "id", "at", "inst", "epoch", "device",
    "sid", "tid", "iid", "rid", "rev", "reply", "hist", "data"
  }

  const ACTION_KINDS: set<string> := {
    "sync.request", "workspace.list.request", "session.list.request", "history.request",
    "action.status.request", "diagnostics.request", "session.create", "session.close",
    "session.attach", "session.detach", "session.rename", "session.fork", "session.archive",
    "session.unarchive", "settings.update", "turn.prompt", "turn.steer", "turn.cancel",
    "queue.edit", "queue.move", "queue.delete", "queue.clear", "request.respond", "request.skip"
  }

  const EVENT_KINDS: set<string> := {
    "agent.hello", "channel.snapshot", "binding.changed", "session.snapshot", "session.status",
    "workspace.page", "session.page", "history.begin", "history.chunk", "history.end",
    "action.accepted", "action.succeeded", "action.failed", "action.uncertain", "action.status",
    "diagnostics.snapshot", "queue.snapshot", "queue.item.added", "queue.item.updated",
    "queue.item.moved", "queue.item.removed", "user.prompt", "turn.started", "turn.completed",
    "turn.failed", "assistant.delta", "assistant.completed", "plan.updated", "tool.started",
    "tool.updated", "tool.completed", "usage.updated", "subagent.updated", "request.opened",
    "request.resolved", "approval.review.started", "approval.review.completed"
  }

  datatype MessageType = Action | Event

  function TypeName(t: MessageType): string {
    if t.Action? then "action" else "event"
  }

  function TypeNamed(s: string): Option<MessageType> {
    if s == "action" then Some(Action) else if s == "event" then Some(Event) else None
  }

  predicate KindAllowed(kind: string, t: MessageType) {
    if t.Action? then kind in ACTION_KINDS else kind in EVENT_KINDS
  }

  datatype Envelope = Envelope(
    kind: string,
    messageType: MessageType,
    id: string,
    at: int,
    inst: string,
    epoch: Option<string>,
    device: Option<string>,
    sessionId: Option<string>,
    turnId: Option<string>,
    itemId: Option<string>,
    requestId: Option<string>,
    revision: Option<int>,
    reply: Option<string>,
    history: bool,
    data: Object)

  datatype ProtocolError =
    | InvalidJson
    | NotAnObject
    | UnsupportedFields
    | UnsupportedVersion
    | NotANonEmptyString
    | BadMessageType
    | UnsupportedKind
    | NotAUuid
    | BadTimestamp
    | MissingDevice
    | DataNotAnObject
    | MissingReply
    | BadKindData
    | BadRevision
    | BadHistoryFlag
    | PayloadTooLarge
    | TagBudgetTooSmall
    | TooManyFragments
    | FragmentExceedsBudget
    | UnsupportedEncoding
    | BadFragmentCount
    | BadFragmentIndex
    | BadByteCount
    | TooManyInFlight
    | MemoryBudget
    | InconsistentMetadata
    | ConflictingDuplicate
    | BadBase64
    | BadCompression
    | ChecksumMismatch
    | NotUtf8
    | MetadataMismatch

  /** What stopping at a byte limit leaves behind: output, end of stream seen, input left over. */
  datatype Inflated = Inflated(payload: seq<byte>, eof: bool, leftover: bool)

  /**
   The functions the protocol is built on. Nothing is assumed of them here; each theorem
   says which of their values it relies on.
   */
  datatype Codec = Codec(
    dumps: Object -> string,
    loads: string -> Option<Json>,
    compress: seq<byte> -> seq<byte>,
    inflate: (seq<byte>, nat) -> Option<Inflated>,
    sha256: seq<byte> -> string,
    isUuid: string -> bool,
    kindDataOk: (string, MessageType, Object) -> bool)

  // ----- To and from objects -----

  function OptStr(s: Option<string>): Option<Json> {
    if s.Some? then Some(Str(s.value)) else None
  }

  /** The value to_dict stores under a key, if any. */
  function FieldOf(e: Envelope, key: string): Option<Json> {
    if key == "v" then Some(Int(PROTOCOL_VERSION))
    else if key == "k" then Some(Str(e.kind))
    else if key == "t" then Some(Str(TypeName(e.messageType)))
    else if key == "id" then Some(Str(e.id))
    else if key == "at" then Some(Int(e.at))
    else if key == "inst" then Some(Str(e.inst))
    else if key == "epoch" then OptStr(e.epoch)
    else if key == "device" then OptStr(e.device)
    else if key == "sid" then OptStr(e.sessionId)
    else if key == "tid" then OptStr(e.turnId)
    else if key == "iid" then OptStr(e.itemId)
    else if key == "rid" then OptStr(e.requestId)
    else if key == "rev" then (if e.revision.Some? then Some(Int(e.revision.value)) else None)
    else if key == "reply" then OptStr(e.reply)
    else if key == "hist" then (if e.history then Some(Bool(true)) else None)
    else if key == "data" then (if e.data != map[] then Some(Obj(e.data)) else None)
    else None
  }

  function ToDict(e: Envelope): Object {
    map key | key in ENVELOPE_FIELDS && FieldOf(e, key).Some? :: FieldOf(e, key).value
  }

  function RequiredString(o: Object, key: string): Result<string, ProtocolError> {
    match Get(o, key)
    case Some(Str(s)) => if s == "" then Err(NotANonEmptyString) else Ok(s)
    case _ => Err(NotANonEmptyString)
  }

  function OptionalString(o: Object, key: string): Result<Option<string>, ProtocolError> {
    match Get(o, key)
    case None => Ok(None)
    case Some(Str(s)) => if s == "" then Err(NotANonEmptyString) else Ok(Some(s))
    case Some(_) => Err(NotANonEmptyString)
  }

  function Check(ok: bool, error: ProtocolError): Result<(), ProtocolError> {
    if ok then Ok(()) else Err(error)
  }

  function DataOf(o: Object): Result<Object, ProtocolError> {
    match Get(o, "data")
    case None => Ok(map[])
    case Some(Obj(fields)) => Ok(fields)
    case Some(_) => Err(DataNotAnObject)
  }

  function HistoryOf(o: Object): Result<bool, ProtocolError> {
    match Get(o, "hist")
    case None => Ok(false)
    case Some(Bool(b)) => Ok(b)
    case Some(_) => Err(BadHistoryFlag)
  }

  function IsStr(v: Option<Json>): bool {
    v.Some? && v.value.Str?
  }

  predicate NeedsReply(kind: string, t: MessageType) {
    t.Event? && (kind == "action.status" || kind == "diagnostics.snapshot")
  }

  predicate IsStamp(v: Option<int>) {
    v.Some? && 0 <= v.value <= MAX_STAMP
  }

  /** The required part of an envelope, its kind and data checked. */
  function ReadHead(c: Codec, o: Object): Result<Envelope, ProtocolError> {
    var _ :- Check(o.Keys <= ENVELOPE_FIELDS, UnsupportedFields);
    var _ :- Check(WireInteger(Get(o, "v")) == Some(PROTOCOL_VERSION), UnsupportedVersion);
    var kind :- RequiredString(o, "k");
    var typeName :- RequiredString(o, "t");
    var _ :- Check(TypeNamed(typeName).Some?, BadMessageType);
    var t := TypeNamed(typeName).value;
    var _ :- Check(KindAllowed(kind, t), UnsupportedKind);
    var id :- RequiredString(o, "id");
    var _ :- Check(c.isUuid(id), NotAUuid);
    var at := WireInteger(Get(o, "at"));
    var _ :- Check(IsStamp(at), BadTimestamp);
    var inst :- RequiredString(o, "inst");
    var _ :- Check(t.Action? ==> "device" in o, MissingDevice);
    var data :- DataOf(o);
    var _ :- Check(NeedsReply(kind, t) ==> IsStr(Get(o, "reply")), MissingReply);
    var _ :- Check(c.kindDataOk(kind, t, data), BadKindData);
    Ok(Envelope(kind, t, id, at.value, inst, None, None, None, None, None, None, None, None, false, data))
  }

  /** The optional part. */
  function ReadOptions(o: Object, head: Envelope): Result<Envelope, ProtocolError> {
    var revision := WireInteger(Get(o, "rev"));
    var _ :- Check("rev" in o ==> IsStamp(revision), BadRevision);
    var history :- HistoryOf(o);
    var epoch :- OptionalString(o, "epoch");
    var device :- OptionalString(o, "device");
    var sessionId :- OptionalString(o, "sid");
    var turnId :- OptionalString(o, "tid");
    var itemId :- OptionalString(o, "iid");
    var requestId :- OptionalString(o, "rid");
    var reply :- OptionalString(o, "reply");
    Ok(head.(epoch := epoch, device := device, sessionId := sessionId, turnId := turnId, itemId := itemId,
             requestId := requestId, revision := revision, reply := reply, history := history))
  }

  function FromDict(c: Codec, o: Object): Result<Envelope, ProtocolError> {
    var head :- ReadHead(c, o);
    ReadOptions(o, head)
  }

  predicate NonEmptyIfSome(s: Option<string>) {
    s != Some("")
  }

  /** The envelopes a strict reader takes. */
  predicate Acceptable(c: Codec, e: Envelope) {
    AcceptableHead(c, e) && AcceptableOptions(e)
  }

  /** `o` holds the envelope's required fields and data, and no unknown field. */
  ghost predicate HoldsHead(o: Object, e: Envelope) {
    && o.Keys <= ENVELOPE_FIELDS
    && Get(o, "v") == Some(Int(PROTOCOL_VERSION))
    && Get(o, "k") == Some(Str(e.kind))
    && Get(o, "t") == Some(Str(TypeName(e.messageType)))
    && Get(o, "id") == Some(Str(e.id))
    && Get(o, "at") == Some(Int(e.at))
    && Get(o, "inst") == Some(Str(e.inst))
    && Get(o, "device") == OptStr(e.device)
    && Get(o, "reply") == OptStr(e.reply)
    && Get(o, "data") == (if e.data != map[] then Some(Obj(e.data)) else None)
  }

  ghost predicate HoldsOptions(o: Object, e: Envelope) {
    && Get(o, "epoch") == OptStr(e.epoch)
    && Get(o, "device") == OptStr(e.device)
    && Get(o, "sid") == OptStr(e.sessionId)
    && Get(o, "tid") == OptStr(e.turnId)
    && Get(o, "iid") == OptStr(e.itemId)
    && Get(o, "rid") == OptStr(e.requestId)
    && Get(o, "rev") == (if e.revision.Some? then Some(Int(e.revision.value)) else None)
    && Get(o, "reply") == OptStr(e.reply)
    && Get(o, "hist") == (if e.history then Some(Bool(true)) else None)
  }

  lemma DictHoldsHead(e: Envelope)
    ensures HoldsHead(ToDict(e), e)
  {
  }

  lemma DictHoldsOptions(e: Envelope)
    ensures HoldsOptions(ToDict(e), e)
  {
    forall key | key in ENVELOPE_FIELDS ensures Get(ToDict(e), key) == FieldOf(e, key) {
    }
  }

  function HeadOf(e: Envelope): Envelope {
    Envelope(e.kind, e.messageType, e.id, e.at, e.inst, None, None, None, None, None, None, None, None, false, e.data)
  }

  predicate AcceptableHead(c: Codec, e: Envelope) {
    && e.kind != "" && KindAllowed(e.kind, e.messageType)
    && e.id != "" && c.isUuid(e.id)
    && 0 <= e.at <= MAX_STAMP
    && e.inst != ""
    && (e.messageType.Action? ==> e.device.Some?)
    && (NeedsReply(e.kind, e.messageType) ==> e.reply.Some?)
    && c.kindDataOk(e.kind, e.messageType, e.data)
  }

  predicate AcceptableOptions(e: Envelope) {
    && (e.revision.Some? ==> 0 <= e.revision.value <= MAX_STAMP)
    && NonEmptyIfSome(e.epoch) && NonEmptyIfSome(e.device) && NonEmptyIfSome(e.sessionId)
    && NonEmptyIfSome(e.turnId) && NonEmptyIfSome(e.itemId) && NonEmptyIfSome(e.requestId)
    && NonEmptyIfSome(e.reply)
  }

  lemma HeadReadsBack(c: Codec, o: Object, e: Envelope)
    requires HoldsHead(o, e)
    ensures ReadHead(c, o).Ok? <==> AcceptableHead(c, e)
    ensures AcceptableHead(c, e) ==> ReadHead(c, o) == Ok(HeadOf(e))
  {
  }

  lemma OptionsReadBack(o: Object, e: Envelope)
    requires HoldsOptions(o, e)
    ensures ReadOptions(o, HeadOf(e)).Ok? <==> AcceptableOptions(e)
    ensures AcceptableOptions(e) ==> ReadOptions(o, HeadOf(e)) == Ok(e)
  {
  }

  /** What to_dict writes reads back as the same envelope, exactly when the envelope is acceptable. */
  lemma DictRoundTrip(c: Codec, e: Envelope)
    ensures FromDict(c, ToDict(e)).Ok? <==> Acceptable(c, e)
    ensures Acceptable(c, e) ==> FromDict(c, ToDict(e)) == Ok(e)
  {
    DictHoldsHead(e);
    DictHoldsOptions(e);
    HeadReadsBack(c, ToDict(e), e);
    OptionsReadBack(ToDict(e), e);
  }

  // ----- What the strict reader takes, of any object -----

  /** The object's required fields and data are the envelope's; an integer may be written as a whole float. */
  ghost predicate TellsHead(o: Object, e: Envelope) {
    && o.Keys <= ENVELOPE_FIELDS
    && WireInteger(Get(o, "v")) == Some(PROTOCOL_VERSION)
    && Get(o, "k") == Some(Str(e.kind))
    && Get(o, "t") == Some(Str(TypeName(e.messageType)))
    && Get(o, "id") == Some(Str(e.id))
    && WireInteger(Get(o, "at")) == Some(e.at)
    && Get(o, "inst") == Some(Str(e.inst))
    && Get(o, "data") == (if "data" in o then Some(Obj(e.data)) else None)
    && ("data" !in o ==> e.data == map[])
  }

  /** And so are its optional fields, none of which may be null. */
  ghost predicate TellsOptions(o: Object, e: Envelope) {
    && Get(o, "epoch") == OptStr(e.epoch) && Get(o, "device") == OptStr(e.device)
    && Get(o, "sid") == OptStr(e.sessionId) && Get(o, "tid") == OptStr(e.turnId)
    && Get(o, "iid") == OptStr(e.itemId) && Get(o, "rid") == OptStr(e.requestId)
    && Get(o, "reply") == OptStr(e.reply)
    && WireInteger(Get(o, "rev")) == e.revision && ("rev" in o ==> e.revision.Some?)
    && Get(o, "hist") == (if "hist" in o then Some(Bool(e.history)) else None)
    && ("hist" !in o ==> !e.history)
  }

  lemma HeadReads(c: Codec, o: Object, e: Envelope)
    requires Get(o, "device") == OptStr(e.device) && Get(o, "reply") == OptStr(e.reply)
    requires TellsHead(o, e) && AcceptableHead(c, e)
    ensures ReadHead(c, o) == Ok(HeadOf(e))
  {
  }

  lemma HeadTells(c: Codec, o: Object, e: Envelope)
    requires ReadHead(c, o) == Ok(HeadOf(e))
    ensures TellsHead(o, e)
  {
  }

  lemma HeadAccepts(c: Codec, o: Object, e: Envelope)
    requires Get(o, "device") == OptStr(e.device) && Get(o, "reply") == OptStr(e.reply)
    requires ReadHead(c, o) == Ok(HeadOf(e))
    ensures AcceptableHead(c, e)
  {
  }

  lemma OptionsRead(o: Object, e: Envelope)
    requires TellsOptions(o, e) && AcceptableOptions(e)
    ensures ReadOptions(o, HeadOf(e)) == Ok(e)
  {
  }

  lemma OptionsTell(o: Object, e: Envelope)
    requires ReadOptions(o, HeadOf(e)) == Ok(e)
    ensures TellsOptions(o, e) && AcceptableOptions(e)
  {
  }

  lemma HeadIsHead(c: Codec, o: Object, e: Envelope)
    requires FromDict(c, o) == Ok(e)
    ensures ReadHead(c, o) == Ok(HeadOf(e))
  {
  }

  /**
   An object is read as an envelope exactly when it has no unknown field, tells the envelope, and that is
   acceptable.
   */
  lemma FromDictIff(c: Codec, o: Object, e: Envelope)
    ensures FromDict(c, o) == Ok(e) <==> TellsHead(o, e) && TellsOptions(o, e) && Acceptable(c, e)
  {
    if FromDict(c, o) == Ok(e) {
      ReadTells(c, o, e);
    } else if TellsHead(o, e) && TellsOptions(o, e) && Acceptable(c, e) {
      HeadReads(c, o, e);
      OptionsRead(o, e);
    }
  }

  lemma ReadTells(c: Codec, o: Object, e: Envelope)
    requires FromDict(c, o) == Ok(e)
    ensures TellsHead(o, e) && TellsOptions(o, e) && Acceptable(c, e)
  {
    HeadIsHead(c, o, e);
    OptionsTell(o, e);
    HeadTells(c, o, e);
    HeadAccepts(c, o, e);
  }

  // ----- To and from text -----

  function Encode(c: Codec, e: Envelope): Result<string, ProtocolError> {
    var text := c.dumps(ToDict(e));
    if Utf8.Size(text) > MAX_PAYLOAD_BYTES then Err(PayloadTooLarge) else Ok(text)
  }

  function Decode(c: Codec, text: string): Result<Envelope, ProtocolError> {
    var _ :- Check(Utf8.Size(text) <= MAX_PAYLOAD_BYTES, PayloadTooLarge);
    match c.loads(text)
    case None => Err(InvalidJson)
    case Some(Obj(o)) => FromDict(c, o)
    case Some(_) => Err(NotAnObject)
  }

  /** Text is read as an envelope exactly when it is not too long and parses to an object that is. */
  lemma DecodeIff(c: Codec, text: string, e: Envelope)
    ensures Decode(c, text) == Ok(e) <==>
      && Utf8.Size(text) <= 131072 && c.loads(text).Some? && c.loads(text).value.Obj?
      && var o := c.loads(text).value.fields; TellsHead(o, e) && TellsOptions(o, e) && Acceptable(c, e)
  {
    if c.loads(text).Some? && c.loads(text).value.Obj? {
      FromDictIff(c, c.loads(text).value.fields, e);
    }
  }

  /** JSON text carries this envelope's object: the one fact about JSON a round trip needs. */
  ghost predicate JsonCarries(c: Codec, e: Envelope) {
    c.loads(c.dumps(ToDict(e))) == Some(Obj(ToDict(e)))
  }

  lemma TextRoundTrip(c: Codec, e: Envelope, text: string)
    requires Encode(c, e) == Ok(text) && JsonCarries(c, e)
    ensures Acceptable(c, e) ==> Decode(c, text) == Ok(e)
    ensures Decode(c, text).Ok? <==> Acceptable(c, e)
  {
    DictRoundTrip(c, e);
  }
}
