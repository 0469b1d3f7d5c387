/**
 * The enumerations and records of the API schema: session statuses, message
 * roles, update kinds, the update record every service emits, and the
 * validated request that creates a message.
 */
module Schemas {
  import opened Common

  /** A session identifier: opaque text supplied by the persistence layer. */
  type SessionId = string

  /** A point in time, carried as its ISO-8601 rendering. */
  type Timestamp = string

  datatype SessionStatus = Active | Processing | Idle | Terminated
  {
    function Wire(): string {
      match this
      case Active => "active"
      case Processing => "processing"
      case Idle => "idle"
      case Terminated => "terminated"
    }
  }

  datatype MessageRole = User | Assistant | Tool
  {
    function Wire(): string {
      match this
      case User => "user"
      case Assistant => "assistant"
      case Tool => "tool"
    }
  }

  datatype UpdateType = Thinking | ToolUse | ToolResult | Screenshot | Error | Complete
  {
    function Wire(): string {
      match this
      case Thinking => "thinking"
      case ToolUse => "tool_use"
      case ToolResult => "tool_result"
      case Screenshot => "screenshot"
      case Error => "error"
      case Complete => "complete"
    }
  }

  /**
   * Roles are user, assistant and tool and statuses active, processing,
   * idle and terminated: distinct kinds have distinct wire values.
   */
  lemma RoleAndStatusWireValues()
    ensures forall a: MessageRole, b: MessageRole :: a != b ==> a.Wire() != b.Wire()
    ensures forall a: SessionStatus, b: SessionStatus :: a != b ==> a.Wire() != b.Wire()
    ensures forall r: MessageRole :: r.Wire() in {"user", "assistant", "tool"}
    ensures forall s: SessionStatus :: s.Wire() in {"active", "processing", "idle", "terminated"}
  {
  }

  const AllUpdateTypes: seq<UpdateType> := [Thinking, ToolUse, ToolResult, Screenshot, Error, Complete]

  /** Reads an update kind back from its wire value. */
  function ParseUpdateType(s: string): (r: Option<UpdateType>)
    ensures r.Some? ==> r.value.Wire() == s
    ensures r.None? ==> forall k: UpdateType :: k.Wire() != s
  {
    if s == "thinking" then Some(Thinking)
    else if s == "tool_use" then Some(ToolUse)
    else if s == "tool_result" then Some(ToolResult)
    else if s == "screenshot" then Some(Screenshot)
    else if s == "error" then Some(Error)
    else if s == "complete" then Some(Complete)
    else None
  }

  /** There are exactly six update kinds, with pairwise distinct wire values. */
  lemma UpdateTypesAreSix()
    ensures |AllUpdateTypes| == 6
    ensures forall k: UpdateType :: k in AllUpdateTypes
    ensures forall i, j :: 0 <= i < j < 6 ==> AllUpdateTypes[i].Wire() != AllUpdateTypes[j].Wire()
  {
    forall k: UpdateType ensures k in AllUpdateTypes {
      match k
      case Thinking => assert AllUpdateTypes[0] == k;
      case ToolUse => assert AllUpdateTypes[1] == k;
      case ToolResult => assert AllUpdateTypes[2] == k;
      case Screenshot => assert AllUpdateTypes[3] == k;
      case Error => assert AllUpdateTypes[4] == k;
      case Complete => assert AllUpdateTypes[5] == k;
    }
  }

  /** Every update kind survives the trip through its wire value. */
  lemma UpdateTypeRoundTrip(k: UpdateType)
    ensures ParseUpdateType(k.Wire()) == Some(k)
  {
  }

  /** A JSON-like metadata value. */
  datatype Value =
    | VStr(s: string)
    | VBool(b: bool)
    | VInt(i: int)
    | VNull
    | VList(items: seq<Value>)
    | VObj(fields: map<string, Value>)

  type Metadata = map<string, Value>

  /** `d.get(key, default)` on a metadata dict. */
  function Lookup(d: map<string, Value>, key: string, default: Value): (v: Value)
    ensures key in d ==> v == d[key]
    ensures key !in d ==> v == default
  {
    if key in d then d[key] else default
  }

  /** The metadata every service update starts from: the session it belongs to. */
  function SessionMetadata(sid: SessionId): (m: Metadata)
    ensures m.Keys == {"session_id"} && m["session_id"] == VStr(sid)
  {
    map["session_id" := VStr(sid)]
  }

  /** One increment of a worker's progress; immutable once built. */
  datatype AgentUpdate = AgentUpdate(updateType: UpdateType, content: string, timestamp: Timestamp, metadata: Metadata)

  /** A field of a request that the caller may leave out. */
  datatype Field<T> = Omitted | Given(value: T)

  /** A message role argument; left out, it is the user's. */
  function RoleOrDefault(role: Field<MessageRole>): (r: MessageRole)
    ensures role.Omitted? ==> r == User
    ensures role.Given? ==> r == role.value
  {
    if role.Given? then role.value else User
  }

  /**
   * The update the code actually builds when it passes `metadata=` to the
   * record, whose field is named `update_metadata`: the unknown keyword is
   * ignored and the field keeps its default, so everything but the metadata
   * is kept.
   */
  function AsBuilt(u: AgentUpdate): (b: AgentUpdate)
    ensures b == NewAgentUpdate(u.updateType, u.content, u.timestamp, Omitted)
  {
    AgentUpdate(u.updateType, u.content, u.timestamp, map[])
  }

  /** As built, an update carrying metadata loses all of it and so differs from the update meant. */
  lemma AsBuiltDropsMetadata(u: AgentUpdate)
    ensures AsBuilt(u).metadata == map[]
    ensures u.metadata != map[] <==> AsBuilt(u) != u
  {
  }

  /** Builds an update; metadata left out defaults to the empty map. */
  function NewAgentUpdate(kind: UpdateType, content: string, timestamp: Timestamp, metadata: Field<Metadata>): (u: AgentUpdate)
    ensures u.updateType == kind && u.content == content && u.timestamp == timestamp
    ensures metadata.Omitted? ==> u.metadata == map[]
    ensures metadata.Given? ==> u.metadata == metadata.value
  {
    AgentUpdate(kind, content, timestamp, if metadata.Given? then metadata.value else map[])
  }

  /** The number of updates of kind `k` in `us`. */
  function CountKind(us: seq<AgentUpdate>, k: UpdateType): (n: nat)
    ensures n <= |us|
    ensures n == 0 <==> forall i :: 0 <= i < |us| ==> us[i].updateType != k
  {
    if us == [] then 0
    else (if us[0].updateType == k then 1 else 0) + CountKind(us[1..], k)
  }

  lemma {:induction false} CountKindAppend(a: seq<AgentUpdate>, b: seq<AgentUpdate>, k: UpdateType)
    ensures CountKind(a + b, k) == CountKind(a, k) + CountKind(b, k)
  {
    if a == [] {
      assert a + b == b;
    } else {
      assert (a + b)[1..] == a[1..] + b;
      CountKindAppend(a[1..], b, k);
    }
  }

  /** The largest message body a request may carry (1 MiB of characters). */
  const MAX_CONTENT_LENGTH: nat := 1024 * 1024

  datatype MessageCreate = MessageCreate(content: string, role: MessageRole, metadata: Option<Metadata>)

  /**
   * Validates a message-creation request: the content is bounded, the role
   * defaults to User and the metadata to the empty map.
   */
  function NewMessageCreate(content: string, role: Field<MessageRole>, metadata: Field<Option<Metadata>>)
    : (r: Result<MessageCreate, string>)
    ensures r.Ok? <==> |content| <= MAX_CONTENT_LENGTH
    ensures r.Ok? ==> r.value.content == content
    ensures r.Ok? && role.Omitted? ==> r.value.role == User
    ensures r.Ok? && role.Given? ==> r.value.role == role.value
    ensures r.Ok? && metadata.Omitted? ==> r.value.metadata == Some(map[])
    ensures r.Ok? && metadata.Given? ==> r.value.metadata == metadata.value
  {
    if |content| > MAX_CONTENT_LENGTH then Err("String should have at most 1048576 characters")
    else
      Ok(MessageCreate(content,
                       if role.Given? then role.value else User,
                       if metadata.Given? then metadata.value else Some(map[])))
  }
}
