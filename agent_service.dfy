/**
 * The adapter around the delegate engine: how content blocks and tool
 * results become updates, and how one submission drains the engine's two
 * queues (primary content first, then tool results, once per polling turn)
 * into a single ordered stream that ends with a completion update.
 */
module AgentServices {
  import opened Common
  import opened Text
  import opened Schemas

  /** A content block handed to the output callback: a dict, or any other object. */
  datatype ContentBlock = Dict(fields: map<string, Value>) | NotDict

  /** `content_block.get("type")`; a non-dict has no type. */
  function BlockType(b: ContentBlock): Value {
    if b.Dict? then Lookup(b.fields, "type", VNull) else VNull
  }

  function DigitChar(d: nat): char
    requires d < 10
  {
    "0123456789"[d]
  }

  function Digits(n: nat): string
    decreases n
  {
    if n < 10 then [DigitChar(n)] else Digits(n / 10) + [DigitChar(n % 10)]
  }

  /**
   * `str(v)` as an f-string renders a scalar value; lists and dicts are
   * rendered by a fixed placeholder.
   */
  function Render(v: Value): string {
    match v
    case VStr(s) => s
    case VBool(b) => if b then "True" else "False"
    case VInt(i) => if i < 0 then "-" + Digits(-i) else Digits(i)
    case VNull => "None"
    case VList(_) => "[...]"
    case VObj(_) => "{...}"
  }

  /**
   * Translates one content block. Text and thinking blocks become Thinking
   * updates (a thinking block is flagged `is_thinking`), a tool-use block
   * becomes a ToolUse update naming the tool; every other block, and a block
   * whose text is not a string (the update would fail validation), yields
   * nothing.
   */
  function ContentBlockToUpdate(sid: SessionId, block: ContentBlock, now: Timestamp): (r: Option<AgentUpdate>)
    ensures r.Some? ==> block.Dict? && r.value.timestamp == now
    ensures r.Some? ==> Lookup(r.value.metadata, "session_id", VNull) == VStr(sid)
    ensures r.Some? ==> r.value.updateType == Thinking || r.value.updateType == ToolUse
    ensures BlockType(block) == VStr("text") ==>
              (r.Some? <==> Lookup(block.fields, "text", VStr("")).VStr?) &&
              (r.Some? ==> r.value.updateType == Thinking
                           && r.value.content == Lookup(block.fields, "text", VStr("")).s
                           && "is_thinking" !in r.value.metadata)
    ensures BlockType(block) == VStr("thinking") ==>
              (r.Some? <==> Lookup(block.fields, "thinking", VStr("")).VStr?) &&
              (r.Some? ==> r.value.updateType == Thinking
                           && r.value.content == Lookup(block.fields, "thinking", VStr("")).s
                           && Lookup(r.value.metadata, "is_thinking", VNull) == VBool(true))
    ensures BlockType(block) == VStr("tool_use") ==>
              r.Some? && r.value.updateType == ToolUse
              && r.value.content == "Using tool: " + Render(Lookup(block.fields, "name", VStr("unknown")))
              && Lookup(r.value.metadata, "tool_name", VNull) == Lookup(block.fields, "name", VStr("unknown"))
              && Lookup(r.value.metadata, "tool_input", VNull) == Lookup(block.fields, "input", VObj(map[]))
    ensures (BlockType(block) != VStr("text") && BlockType(block) != VStr("thinking")
             && BlockType(block) != VStr("tool_use")) ==> r.None?
  {
    match block
    case NotDict => None
    case Dict(f) =>
      var kind := Lookup(f, "type", VNull);
      if kind == VStr("text") then
        var text := Lookup(f, "text", VStr(""));
        if text.VStr? then Some(AgentUpdate(Thinking, text.s, now, SessionMetadata(sid))) else None
      else if kind == VStr("thinking") then
        var thought := Lookup(f, "thinking", VStr(""));
        if thought.VStr? then
          Some(AgentUpdate(Thinking, thought.s, now, SessionMetadata(sid)["is_thinking" := VBool(true)]))
        else None
      else if kind == VStr("tool_use") then
        var name := Lookup(f, "name", VStr("unknown"));
        var input := Lookup(f, "input", VObj(map[]));
        Some(AgentUpdate(ToolUse, "Using tool: " + Render(name), now,
                         SessionMetadata(sid)["tool_name" := name]["tool_input" := input]))
      else None
  }

  /** Which kind of block an update was translated from, read off the update alone. */
  function SourceBlockType(u: AgentUpdate): string {
    if u.updateType == ToolUse then "tool_use"
    else if "is_thinking" in u.metadata then "thinking"
    else "text"
  }

  /** The translation keeps enough to tell which kind of block produced an update. */
  lemma BlockTypeRecoverable(sid: SessionId, block: ContentBlock, now: Timestamp)
    requires ContentBlockToUpdate(sid, block, now).Some?
    ensures BlockType(block) == VStr(SourceBlockType(ContentBlockToUpdate(sid, block, now).value))
  {
  }

  /**
   * As built, a text block and a thinking block with the same text give the
   * same update, since the `is_thinking` flag is dropped with the rest of
   * the metadata; the updates meant for them differ.
   */
  lemma AsBuiltBlockKindLost(sid: SessionId, text: string, now: Timestamp)
    ensures var textBlock := Dict(map["type" := VStr("text"), "text" := VStr(text)]);
            var thinkingBlock := Dict(map["type" := VStr("thinking"), "thinking" := VStr(text)]);
            && ContentBlockToUpdate(sid, textBlock, now).Some?
            && ContentBlockToUpdate(sid, thinkingBlock, now).Some?
            && AsBuilt(ContentBlockToUpdate(sid, textBlock, now).value)
               == AsBuilt(ContentBlockToUpdate(sid, thinkingBlock, now).value)
            && SourceBlockType(ContentBlockToUpdate(sid, textBlock, now).value)
               != SourceBlockType(ContentBlockToUpdate(sid, thinkingBlock, now).value)
  {
    var textBlock := Dict(map["type" := VStr("text"), "text" := VStr(text)]);
    var thinkingBlock := Dict(map["type" := VStr("thinking"), "thinking" := VStr(text)]);
    assert BlockType(textBlock) == VStr("text") && Lookup(textBlock.fields, "text", VStr("")) == VStr(text);
    assert BlockType(thinkingBlock) == VStr("thinking") && Lookup(thinkingBlock.fields, "thinking", VStr("")) == VStr(text);
  }

  /** What a tool run reported: each field may be missing or empty. */
  datatype ToolOutcome = ToolOutcome(output: Option<string>, error: Option<string>, base64Image: Option<string>)

  /** Python truthiness of an optional string. */
  predicate Truthy(o: Option<string>) {
    o.Some? && o.value != ""
  }

  /** How many characters of tool output an update shows. */
  const OUTPUT_PREVIEW_LENGTH: nat := 200

  const SCREENSHOT_NOTE: string := " (Screenshot captured)"

  /** `s[:n]`. */
  function Truncate(s: string, n: nat): (r: string)
    ensures |r| == (if |s| <= n then |s| else n)
    ensures IsPrefix(r, s)
  {
    if |s| <= n then s else s[..n]
  }

  /** The text of a tool-result update before any screenshot note. */
  function ToolResultText(result: ToolOutcome): string {
    if Truthy(result.error) then "Tool error: " + result.error.value
    else if Truthy(result.output) then "Tool output: " + Truncate(result.output.value, OUTPUT_PREVIEW_LENGTH) + "..."
    else ""
  }

  /**
   * Translates one tool result: an error wins over output, output is cut to
   * 200 characters, and an attached image adds a note and a flag.
   */
  function ToolResultToUpdate(sid: SessionId, result: ToolOutcome, toolId: string, now: Timestamp): (u: AgentUpdate)
    ensures u.updateType == ToolResult && u.timestamp == now
    ensures Lookup(u.metadata, "session_id", VNull) == VStr(sid)
    ensures Lookup(u.metadata, "tool_id", VNull) == VStr(toolId)
    ensures u.metadata.Keys <= {"session_id", "tool_id", "error", "has_output", "has_screenshot"}
    ensures Truthy(result.error) ==>
              IsPrefix("Tool error: " + result.error.value, u.content)
              && Lookup(u.metadata, "error", VNull) == VStr(result.error.value)
              && "has_output" !in u.metadata
    ensures !Truthy(result.error) && Truthy(result.output) ==>
              IsPrefix("Tool output: " + Truncate(result.output.value, OUTPUT_PREVIEW_LENGTH) + "...", u.content)
              && Lookup(u.metadata, "has_output", VNull) == VBool(true)
              && "error" !in u.metadata
    ensures !Truthy(result.error) && !Truthy(result.output) ==>
              u.content == (if Truthy(result.base64Image) then SCREENSHOT_NOTE else "")
              && "error" !in u.metadata && "has_output" !in u.metadata
    ensures ("has_screenshot" in u.metadata) == Truthy(result.base64Image)
    ensures Truthy(result.base64Image) ==>
              && u.content == ToolResultText(result) + SCREENSHOT_NOTE
              && IsSuffix(SCREENSHOT_NOTE, u.content) && u.metadata["has_screenshot"] == VBool(true)
    ensures !Truthy(result.base64Image) ==> u.content == ToolResultText(result)
  {
    var base := map["session_id" := VStr(sid), "tool_id" := VStr(toolId)];
    var described :=
      if Truthy(result.error) then base["error" := VStr(result.error.value)]
      else if Truthy(result.output) then base["has_output" := VBool(true)]
      else base;
    var flagged := if Truthy(result.base64Image) then described["has_screenshot" := VBool(true)] else described;
    AgentUpdate(ToolResult, ToolResultText(result) + (if Truthy(result.base64Image) then SCREENSHOT_NOTE else ""),
                now, flagged)
  }

  /** Without an error, a tool-result update is short however long the output: 13 + 200 + 3 + 22 characters at most. */
  lemma ToolResultContentBounded(sid: SessionId, result: ToolOutcome, toolId: string, now: Timestamp)
    requires !Truthy(result.error)
    ensures |ToolResultToUpdate(sid, result, toolId, now).content| <= 238
  {
  }

  /** The first 200 characters of the output can be read back from the update. */
  lemma ToolOutputPreviewRecoverable(sid: SessionId, result: ToolOutcome, toolId: string, now: Timestamp)
    requires !Truthy(result.error) && Truthy(result.output)
    ensures var u := ToolResultToUpdate(sid, result, toolId, now);
            var n := if |result.output.value| <= 200 then |result.output.value| else 200;
            |u.content| >= 13 + n && u.content[13..13 + n] == result.output.value[..n]
  {
    var u := ToolResultToUpdate(sid, result, toolId, now);
    var t := Truncate(result.output.value, OUTPUT_PREVIEW_LENGTH);
    assert IsPrefix("Tool output: " + t + "...", u.content);
    assert u.content[13..13 + |t|] == ("Tool output: " + t + "...")[13..13 + |t|];
  }

  // ---------------------------------------------------------------------------
  // The two-queue polling loop of one submission
  // ---------------------------------------------------------------------------

  /** One entry of the engine's conversation history. */
  datatype HistoryEntry = HistoryEntry(role: string, content: seq<ContentBlock>)

  /**
   * An item on the primary queue: the end-of-run sentinel (`None`, queued
   * after the engine stored the history it returned) or a content block. The
   * engine's failure marker is the block `{"error": e}`.
   */
  datatype PrimaryItem = Sentinel(history: seq<HistoryEntry>) | Item(block: ContentBlock)

  datatype ToolItem = ToolItem(result: ToolOutcome, toolId: string)

  /**
   * One turn of the polling loop: what each queue delivered within its
   * bounded wait (None when the wait timed out), and the clock readings
   * taken when the block's update and the tool result's update are built.
   */
  datatype Tick = Tick(blockAt: Timestamp, toolAt: Timestamp, primary: Option<PrimaryItem>, tool: Option<ToolItem>)

  /** Why draining ended: the sentinel, the engine's failure marker, or the schedule ran out while still polling. */
  datatype LoopEnd = Finished(history: seq<HistoryEntry>) | AgentFailed | StillPolling

  datatype Drained = Drained(updates: seq<AgentUpdate>, end: LoopEnd)

  /** A dict carrying the key "error" is read as the engine's failure marker. */
  predicate IsErrorMarker(b: ContentBlock) {
    b.Dict? && "error" in b.fields
  }

  /** A turn whose primary item ends the loop. */
  predicate StopsLoop(t: Tick) {
    t.primary.Some? && (t.primary.value.Sentinel? || IsErrorMarker(t.primary.value.block))
  }

  function AgentErrorUpdate(sid: SessionId, err: Value, at: Timestamp): AgentUpdate {
    AgentUpdate(Error, "Agent error: " + Render(err), at, SessionMetadata(sid))
  }

  function OptionToSeq<T>(o: Option<T>): seq<T> {
    if o.Some? then [o.value] else []
  }

  /** The updates of a turn that does not stop the loop: the primary block's first, then the tool result's. */
  function TickUpdates(sid: SessionId, t: Tick): (us: seq<AgentUpdate>)
    ensures |us| <= 2
    ensures forall i :: 0 <= i < |us| - (if t.tool.Some? then 1 else 0) ==> us[i].timestamp == t.blockAt
    ensures t.tool.Some? ==>
              |us| >= 1 && us[|us| - 1] == ToolResultToUpdate(sid, t.tool.value.result, t.tool.value.toolId, t.toolAt)
    ensures t.tool.None? ==> |us| <= 1
  {
    (if t.primary.Some? && t.primary.value.Item? then OptionToSeq(ContentBlockToUpdate(sid, t.primary.value.block, t.blockAt)) else [])
    + (if t.tool.Some? then [ToolResultToUpdate(sid, t.tool.value.result, t.tool.value.toolId, t.toolAt)] else [])
  }

  /** The updates of consecutive turns none of which stops the loop. */
  function AllTickUpdates(sid: SessionId, ticks: seq<Tick>): seq<AgentUpdate> {
    if ticks == [] then [] else TickUpdates(sid, ticks[0]) + AllTickUpdates(sid, ticks[1..])
  }

  /**
   * The polling loop over a finite schedule of turns, as one function. It
   * is still polling only when no turn stopped it, and each turn adds at
   * most two updates.
   */
  function Drain(sid: SessionId, ticks: seq<Tick>): (r: Drained)
    ensures r.end.StillPolling? ==> forall j :: 0 <= j < |ticks| ==> !StopsLoop(ticks[j])
    ensures |r.updates| <= 2 * |ticks|
  {
    if ticks == [] then Drained([], StillPolling)
    else
      var t := ticks[0];
      if t.primary.Some? && t.primary.value.Sentinel? then
        Drained([], Finished(t.primary.value.history))
      else if t.primary.Some? && IsErrorMarker(t.primary.value.block) then
        Drained([AgentErrorUpdate(sid, t.primary.value.block.fields["error"], t.blockAt)], AgentFailed)
      else
        var rest := Drain(sid, ticks[1..]);
        Drained(TickUpdates(sid, t) + rest.updates, rest.end)
  }

  /**
   * Draining stops at the first turn whose primary item is the sentinel or
   * the failure marker: everything before it is emitted in order, that
   * turn's tool item and every later turn are never read, and a failure adds
   * exactly one error update.
   */
  lemma {:induction false} DrainStopsAtFirstStop(sid: SessionId, ticks: seq<Tick>, i: nat)
    requires i <= |ticks|
    requires forall j :: 0 <= j < i ==> !StopsLoop(ticks[j])
    requires i < |ticks| ==> StopsLoop(ticks[i])
    ensures i == |ticks| ==> Drain(sid, ticks) == Drained(AllTickUpdates(sid, ticks), StillPolling)
    ensures i < |ticks| && ticks[i].primary.value.Sentinel? ==>
              Drain(sid, ticks) == Drained(AllTickUpdates(sid, ticks[..i]), Finished(ticks[i].primary.value.history))
    ensures i < |ticks| && ticks[i].primary.value.Item? ==>
              Drain(sid, ticks) == Drained(AllTickUpdates(sid, ticks[..i])
                                           + [AgentErrorUpdate(sid, ticks[i].primary.value.block.fields["error"], ticks[i].blockAt)],
                                           AgentFailed)
  {
    if i == 0 {
      assert ticks[..0] == [];
    } else {
      DrainStopsAtFirstStop(sid, ticks[1..], i - 1);
      assert ticks[..i][1..] == ticks[1..][..i - 1];
      assert i == |ticks| ==> ticks[1..][..i - 1] == ticks[1..];
    }
  }

  /** A turn that does not stop the loop yields neither errors nor completions. */
  lemma TickUpdatesKinds(sid: SessionId, t: Tick)
    ensures CountKind(TickUpdates(sid, t), Error) == 0
    ensures CountKind(TickUpdates(sid, t), Complete) == 0
  {
  }

  /** The drained stream holds an error update only as its last element, and only when the engine failed. */
  lemma {:induction false} DrainErrors(sid: SessionId, ticks: seq<Tick>)
    ensures CountKind(Drain(sid, ticks).updates, Error) == (if Drain(sid, ticks).end.AgentFailed? then 1 else 0)
    ensures CountKind(Drain(sid, ticks).updates, Complete) == 0
    ensures Drain(sid, ticks).end.AgentFailed? ==>
              |Drain(sid, ticks).updates| > 0 && Drain(sid, ticks).updates[|Drain(sid, ticks).updates| - 1].updateType == Error
  {
    if ticks != [] && !StopsLoop(ticks[0]) {
      var rest := Drain(sid, ticks[1..]);
      DrainErrors(sid, ticks[1..]);
      TickUpdatesKinds(sid, ticks[0]);
      CountKindAppend(TickUpdates(sid, ticks[0]), rest.updates, Error);
      CountKindAppend(TickUpdates(sid, ticks[0]), rest.updates, Complete);
    }
  }

  /** One turn of the loop, read off the remaining schedule. */
  lemma DrainStep(sid: SessionId, ticks: seq<Tick>, i: nat)
    requires i < |ticks|
    ensures var t := ticks[i];
            var d := Drain(sid, ticks[i..]);
            if t.primary.Some? && t.primary.value.Sentinel? then d == Drained([], Finished(t.primary.value.history))
            else if t.primary.Some? && IsErrorMarker(t.primary.value.block) then
              d == Drained([AgentErrorUpdate(sid, t.primary.value.block.fields["error"], t.blockAt)], AgentFailed)
            else d == Drained(TickUpdates(sid, t) + Drain(sid, ticks[i + 1..]).updates, Drain(sid, ticks[i + 1..]).end)
  {
    assert ticks[i..][0] == ticks[i] && ticks[i..][1..] == ticks[i + 1..];
  }

  lemma AppendAssociates<T>(a: seq<T>, b: seq<T>, c: seq<T>)
    ensures a + (b + c) == (a + b) + c
  {
  }

  /**
   * One turn of the polling loop: the primary item is read first; the
   * sentinel and the failure marker end the loop before the tool item is
   * read; otherwise the block's update, if any, precedes the tool result's.
   */
  method PollTurn(sid: SessionId, t: Tick) returns (turn: seq<AgentUpdate>, end: LoopEnd)
    ensures t.primary.Some? && t.primary.value.Sentinel? ==>
              turn == [] && end == Finished(t.primary.value.history)
    ensures t.primary.Some? && t.primary.value.Item? && IsErrorMarker(t.primary.value.block) ==>
              turn == [AgentErrorUpdate(sid, t.primary.value.block.fields["error"], t.blockAt)] && end == AgentFailed
    ensures !StopsLoop(t) ==> turn == TickUpdates(sid, t) && end == StillPolling
  {
    turn := [];
    if t.primary.Some? {
      var item := t.primary.value;
      if item.Sentinel? {
        return [], Finished(item.history);
      }
      if IsErrorMarker(item.block) {
        return [AgentErrorUpdate(sid, item.block.fields["error"], t.blockAt)], AgentFailed;
      }
      var u := ContentBlockToUpdate(sid, item.block, t.blockAt);
      if u.Some? {
        turn := turn + [u.value];
      }
    }
    if t.tool.Some? {
      turn := turn + [ToolResultToUpdate(sid, t.tool.value.result, t.tool.value.toolId, t.toolAt)];
    }
    end := StillPolling;
  }

  function StartUpdate(sid: SessionId, at: Timestamp): AgentUpdate {
    AgentUpdate(Thinking, "Starting to process your request with Computer Use Agent...", at, SessionMetadata(sid))
  }

  function CompleteUpdate(sid: SessionId, at: Timestamp): AgentUpdate {
    AgentUpdate(Complete, "Agent processing completed", at, SessionMetadata(sid)["completed" := VBool(true)])
  }

  /** Every update one submission yields: the start notice, the drained stream, and a completion once the loop has stopped. */
  function RunUpdates(sid: SessionId, startedAt: Timestamp, ticks: seq<Tick>, finishedAt: Timestamp): (us: seq<AgentUpdate>)
    ensures |us| >= 1 && us[0] == StartUpdate(sid, startedAt)
  {
    var d := Drain(sid, ticks);
    [StartUpdate(sid, startedAt)] + d.updates + (if d.end.StillPolling? then [] else [CompleteUpdate(sid, finishedAt)])
  }

  /**
   * A submission carries exactly one Complete update once the loop has
   * stopped and none while it is still polling, and exactly one Error
   * update when the engine failed and none otherwise.
   */
  lemma RunCounts(sid: SessionId, startedAt: Timestamp, ticks: seq<Tick>, finishedAt: Timestamp)
    ensures var us := RunUpdates(sid, startedAt, ticks, finishedAt);
            var end := Drain(sid, ticks).end;
            && CountKind(us, Error) == (if end.AgentFailed? then 1 else 0)
            && CountKind(us, Complete) == (if end.StillPolling? then 0 else 1)
  {
    var d := Drain(sid, ticks);
    DrainErrors(sid, ticks);
    var head := [StartUpdate(sid, startedAt)];
    var tail := if d.end.StillPolling? then [] else [CompleteUpdate(sid, finishedAt)];
    assert RunUpdates(sid, startedAt, ticks, finishedAt) == head + d.updates + tail;
    CountKindAppend(head, d.updates, Error);
    CountKindAppend(head + d.updates, tail, Error);
    CountKindAppend(head, d.updates, Complete);
    CountKindAppend(head + d.updates, tail, Complete);
  }

  /**
   * A submission opens with a Thinking update; once the loop has stopped it
   * closes with the Complete update flagged `completed`, and after a failure
   * the error update comes just before it.
   */
  lemma RunEnds(sid: SessionId, startedAt: Timestamp, ticks: seq<Tick>, finishedAt: Timestamp)
    ensures var us := RunUpdates(sid, startedAt, ticks, finishedAt);
            var end := Drain(sid, ticks).end;
            && us[0].updateType == Thinking
            && (!end.StillPolling? ==>
                  us[|us| - 1] == CompleteUpdate(sid, finishedAt)
                  && Lookup(us[|us| - 1].metadata, "completed", VNull) == VBool(true))
            && (end.AgentFailed? ==> |us| >= 3 && us[|us| - 2].updateType == Error)
  {
    var d := Drain(sid, ticks);
    DrainErrors(sid, ticks);
    var us := RunUpdates(sid, startedAt, ticks, finishedAt);
    if !d.end.StillPolling? {
      assert us == [StartUpdate(sid, startedAt)] + d.updates + [CompleteUpdate(sid, finishedAt)];
      assert us[|us| - 1] == CompleteUpdate(sid, finishedAt);
      if d.end.AgentFailed? {
        assert us[|us| - 2] == d.updates[|d.updates| - 1];
      }
    }
  }

  /** The history entry a submission appends: the message as a single text block. */
  function UserEntry(message: string, role: MessageRole): HistoryEntry {
    HistoryEntry(role.Wire(), [Dict(map["type" := VStr("text"), "text" := VStr(message)])])
  }

  /**
   * The polling loop: turn after turn until the sentinel or the failure
   * marker stops it or the schedule runs out, collecting what each turn
   * yields.
   */
  method PollAll(sid: SessionId, ticks: seq<Tick>) returns (emitted: seq<AgentUpdate>, end: LoopEnd)
    ensures Drained(emitted, end) == Drain(sid, ticks)
  {
    emitted, end := [], StillPolling;
    var i := 0;
    while i < |ticks|
      invariant 0 <= i <= |ticks|
      invariant Drain(sid, ticks).updates == emitted + Drain(sid, ticks[i..]).updates
      invariant Drain(sid, ticks).end == Drain(sid, ticks[i..]).end
    {
      var t := ticks[i];
      DrainStep(sid, ticks, i);
      var turn, turnEnd := PollTurn(sid, t);
      if turnEnd.Finished? {
        end := turnEnd;
        return;
      }
      if turnEnd.AgentFailed? {
        emitted, end := emitted + turn, turnEnd;
        return;
      }
      AppendAssociates(emitted, turn, Drain(sid, ticks[i + 1..]).updates);
      emitted := emitted + turn;
      i := i + 1;
    }
  }

  /** The per-session adapter; `messages` is the conversation history handed to the engine. */
  class AgentService {
    const sessionId: SessionId
    var messages: seq<HistoryEntry>

    constructor (sessionId: SessionId)
      ensures this.sessionId == sessionId && messages == []
    {
      this.sessionId := sessionId;
      messages := [];
    }

    /**
     * Runs one submission against a schedule of polling turns: appends the
     * message to the history, then yields the start notice, the drained
     * stream and, once the loop stops, the completion. The sentinel installs
     * the history the engine returned.
     */
    method ProcessMessage(message: string, role: Field<MessageRole>, startedAt: Timestamp, ticks: seq<Tick>, finishedAt: Timestamp)
      returns (updates: seq<AgentUpdate>)
      modifies this
      ensures updates == RunUpdates(sessionId, startedAt, ticks, finishedAt)
      ensures Drain(sessionId, ticks).end.Finished? ==> messages == Drain(sessionId, ticks).end.history
      ensures !Drain(sessionId, ticks).end.Finished? ==> messages == old(messages) + [UserEntry(message, RoleOrDefault(role))]
    {
      messages := messages + [UserEntry(message, RoleOrDefault(role))];
      var emitted, end := PollAll(sessionId, ticks);
      if end.Finished? {
        messages := end.history;
      }
      updates := [StartUpdate(sessionId, startedAt)] + emitted;
      if !end.StillPolling? {
        updates := updates + [CompleteUpdate(sessionId, finishedAt)];
      }
    }

    /** Forgets the conversation. */
    method ClearHistory()
      modifies this
      ensures messages == []
    {
      messages := [];
    }
  }
}
