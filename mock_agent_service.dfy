/**
 * The stand-in delegate used when no engine credentials are configured: a
 * keyword classifier that picks at most one simulated tool and a canned
 * reply, and emits a fixed-shape stream of updates.
 */
module MockAgent {
  import opened Common
  import opened Text
  import opened Schemas

  const CALCULATOR_WORDS: seq<string> := ["calculate", "math", "+", "-", "*", "/", "="]
  const FILE_WORDS: seq<string> := ["file", "list", "directory", "ls"]
  const WEATHER_WORDS: seq<string> := ["weather", "temperature"]
  const ARITHMETIC_WORDS: seq<string> := ["+", "-", "*", "/", "calculate"]
  const MULTIPLY_WORDS: seq<string> := ["*", "times", "multiply"]
  const GREETING_WORDS: seq<string> := ["hello", "hi", "hey"]

  /** The simulated tools, in the order their keywords are tried. */
  datatype MockTool = Calculator | Bash | WebSearch

  function Priority(t: MockTool): nat {
    match t
    case Calculator => 0
    case Bash => 1
    case WebSearch => 2
  }

  function Keywords(t: MockTool): seq<string> {
    match t
    case Calculator => CALCULATOR_WORDS
    case Bash => FILE_WORDS
    case WebSearch => WEATHER_WORDS
  }

  function ToolName(t: MockTool): string {
    match t
    case Calculator => "calculator"
    case Bash => "bash"
    case WebSearch => "web_search"
  }

  /** The tool branch a message triggers: the first tool whose keywords occur in the lower-cased message. */
  function SelectTool(message: string): (r: Option<MockTool>)
    ensures r.Some? ==> ContainsAny(Lower(message), Keywords(r.value))
    ensures r.None? <==> forall t: MockTool :: !ContainsAny(Lower(message), Keywords(t))
  {
    var low := Lower(message);
    if ContainsAny(low, CALCULATOR_WORDS) then Some(Calculator)
    else if ContainsAny(low, FILE_WORDS) then Some(Bash)
    else if ContainsAny(low, WEATHER_WORDS) then Some(WebSearch)
    else None
  }

  /**
   * At most one tool branch fires: the first tool, in priority order, one
   * of whose keywords occurs in the lower-cased message; none fires when
   * no keyword occurs.
   */
  lemma SelectToolFirstMatch(message: string)
    ensures SelectTool(message).None? <==> forall t: MockTool :: !ContainsAny(Lower(message), Keywords(t))
    ensures SelectTool(message).Some? ==> ContainsAny(Lower(message), Keywords(SelectTool(message).value))
    ensures SelectTool(message).Some? ==>
              forall t: MockTool :: Priority(t) < Priority(SelectTool(message).value) ==> !ContainsAny(Lower(message), Keywords(t))
  {
    assert Keywords(Calculator) == CALCULATOR_WORDS && Keywords(Bash) == FILE_WORDS && Keywords(WebSearch) == WEATHER_WORDS;
  }

  const ANALYZING: string := "Analyzing your request..."

  /** The canned replies; `Default` quotes the message it answers. */
  datatype Reply =
    | AnswerFour
    | AnswerHundred
    | CalculationDone
    | WeatherDubai
    | WeatherGeneric
    | FileListing
    | Greeting
    | Default(message: string)
  {
    function Text(): string {
      match this
      case AnswerFour => ANSWER_FOUR
      case AnswerHundred => ANSWER_HUNDRED
      case CalculationDone => CALCULATION_DONE
      case WeatherDubai => WEATHER_DUBAI
      case WeatherGeneric => WEATHER_GENERIC
      case FileListing => FILE_LISTING
      case Greeting => GREETING
      case Default(m) => DEFAULT_OPENING + ("'" + m + "'") + DEFAULT_CLOSING
    }
  }

  const ANSWER_FOUR: string := "The answer is 4. I calculated this using basic arithmetic."
  const ANSWER_HUNDRED: string := "25 times 4 equals 100."
  const CALCULATION_DONE: string := "I've performed the calculation and the result is ready."
  const WEATHER_DUBAI: string := "The weather in Dubai is currently sunny with a temperature of 28°C (82°F). It's a typical warm day with clear skies and low humidity."
  const WEATHER_GENERIC: string := "I can check the weather for you. The current conditions show clear skies with moderate temperatures."
  const FILE_LISTING: string := "Here are the files in the current directory:\n- computer_use_backend/\n- computer_use_demo/\n- docker-compose.yml\n- README.md\n- requirements.txt\n\nTotal: 15 files and 5 directories."
  const GREETING: string := "Hello! I'm the Computer Use Agent. I can help you with calculations, file operations, web searches, and more. What would you like me to do?"
  const DEFAULT_OPENING: string := "I've processed your request about "
  const DEFAULT_CLOSING: string := ". The task has been completed successfully."

  predicate AsksTwoPlusTwo(low: string) {
    Contains(low, "2+2") || Contains(low, "2 + 2")
  }

  predicate AsksTwentyFiveTimesFour(low: string) {
    Contains(low, "25") && Contains(low, "4") && ContainsAny(low, MULTIPLY_WORDS)
  }

  /** True when no keyword rule of the reply generator applies. */
  predicate NoReplyRule(low: string) {
    !AsksTwoPlusTwo(low) && !AsksTwentyFiveTimesFour(low) && !ContainsAny(low, ARITHMETIC_WORDS)
    && !Contains(low, "weather") && !ContainsAny(low, FILE_WORDS) && !ContainsAny(low, GREETING_WORDS)
  }

  /** The canned reply: the first keyword rule that applies to the lower-cased message. */
  function GenerateResponse(message: string): (r: Reply)
    ensures r.Default? <==> NoReplyRule(Lower(message))
    ensures r.Default? ==> r.message == message
    ensures r == WeatherDubai ==> Contains(Lower(message), "weather") && Contains(Lower(message), "dubai")
  {
    var low := Lower(message);
    if AsksTwoPlusTwo(low) then AnswerFour
    else if AsksTwentyFiveTimesFour(low) then AnswerHundred
    else if ContainsAny(low, ARITHMETIC_WORDS) then CalculationDone
    else if Contains(low, "weather") then (if Contains(low, "dubai") then WeatherDubai else WeatherGeneric)
    else if ContainsAny(low, FILE_WORDS) then FileListing
    else if ContainsAny(low, GREETING_WORDS) then Greeting
    else Default(message)
  }

  /** "2+2" (or "2 + 2") anywhere in the message decides the reply, ahead of every other rule, and nothing else yields it. */
  lemma TwoPlusTwoAnswer(message: string)
    ensures GenerateResponse(message) == AnswerFour <==> AsksTwoPlusTwo(Lower(message))
  {
  }

  /** "25", "4" and a multiplication word give the product, unless the 2+2 rule fired; nothing else yields it. */
  lemma TwentyFiveTimesFourAnswer(message: string)
    ensures GenerateResponse(message) == AnswerHundred
            <==> !AsksTwoPlusTwo(Lower(message)) && AsksTwentyFiveTimesFour(Lower(message))
  {
  }

  /** A weather question about Dubai gets the Dubai report unless an arithmetic rule came first. */
  lemma DubaiWeather(message: string)
    ensures GenerateResponse(message) == WeatherDubai
            <==> (!AsksTwoPlusTwo(Lower(message)) && !AsksTwentyFiveTimesFour(Lower(message))
                  && !ContainsAny(Lower(message), ARITHMETIC_WORDS)
                  && Contains(Lower(message), "weather") && Contains(Lower(message), "dubai"))
  {
  }

  /** Without any keyword the reply quotes the original, not lower-cased, message. */
  lemma DefaultReplyQuotesMessage(message: string)
    requires NoReplyRule(Lower(message))
    ensures GenerateResponse(message) == Default(message)
    ensures Contains(GenerateResponse(message).Text(), "'" + message + "'")
  {
    ContainsMiddle(DEFAULT_OPENING, "'" + message + "'", DEFAULT_CLOSING);
  }

  /** A message asking for 2+2 runs the calculator branch and gets the arithmetic answer. */
  lemma TwoPlusTwoUsesCalculator(message: string)
    requires Contains(Lower(message), "2+2")
    ensures SelectTool(message) == Some(Calculator)
    ensures GenerateResponse(message) == AnswerFour
  {
    var low := Lower(message);
    var i :| 0 <= i <= |low| && IsPrefix("2+2", low[i..]);
    assert low[i + 1] == low[i..][..3][1] == '+';
    assert IsPrefix("+", low[i + 1..]);
    assert Contains(low, "+");
    assert "+" in CALCULATOR_WORDS;
  }

  /** The two updates of a tool branch: the tool call and its result. */
  function ToolUpdates(sid: SessionId, message: string, tool: MockTool, clock: nat -> Timestamp): (us: seq<AgentUpdate>)
    ensures |us| == 2 && us[0].updateType == ToolUse && us[1].updateType == ToolResult
    ensures Lookup(us[0].metadata, "tool_name", VNull) == VStr(ToolName(tool))
    ensures us[0].timestamp == clock(1) && us[1].timestamp == clock(2)
    ensures forall i :: 0 <= i < 2 ==> Lookup(us[i].metadata, "session_id", VNull) == VStr(sid)
    ensures tool == Calculator ==>
              us[0].content == "Using calculator tool" && us[1].content == "Calculation completed successfully"
    ensures tool == Bash ==>
              us[0].content == "Using bash tool" && us[1].content == "Command executed: Found 15 files in directory"
    ensures tool == WebSearch ==>
              us[0].content == "Using web search tool" && us[1].content == "Retrieved weather data successfully"
  {
    match tool
    case Calculator =>
      [AgentUpdate(ToolUse, "Using calculator tool", clock(1),
                   SessionMetadata(sid)["tool_name" := VStr("calculator")]["tool_input" := VObj(map["expression" := VStr(message)])]),
       AgentUpdate(ToolResult, "Calculation completed successfully", clock(2), SessionMetadata(sid))]
    case Bash =>
      [AgentUpdate(ToolUse, "Using bash tool", clock(1),
                   SessionMetadata(sid)["tool_name" := VStr("bash")]["tool_input" := VObj(map["command" := VStr("ls -la")])]),
       AgentUpdate(ToolResult, "Command executed: Found 15 files in directory", clock(2), SessionMetadata(sid))]
    case WebSearch =>
      [AgentUpdate(ToolUse, "Using web search tool", clock(1),
                   SessionMetadata(sid)["tool_name" := VStr("web_search")]["tool_input" := VObj(map["query" := VStr(message)])]),
       AgentUpdate(ToolResult, "Retrieved weather data successfully", clock(2),
                   SessionMetadata(sid)["has_screenshot" := VBool(true)])]
  }

  /** The stream for one message given its tool branch and reply, the i-th update stamped `clock(i)`. */
  function MockStream(sid: SessionId, message: string, tool: Option<MockTool>, reply: string, clock: nat -> Timestamp)
    : (us: seq<AgentUpdate>)
    ensures |us| == (if tool.Some? then 5 else 3)
  {
    var tools := if tool.Some? then ToolUpdates(sid, message, tool.value, clock) else [];
    [AgentUpdate(Thinking, ANALYZING, clock(0), SessionMetadata(sid))]
    + tools
    + [AgentUpdate(Thinking, reply, clock(1 + |tools|), SessionMetadata(sid)),
       AgentUpdate(Complete, "Processing completed successfully", clock(2 + |tools|),
                   SessionMetadata(sid)["completed" := VBool(true)])]
  }

  /**
   * The stream one message produces: five updates when a tool branch fires
   * and three otherwise, the canned reply second to last.
   */
  function MockUpdates(sid: SessionId, message: string, clock: nat -> Timestamp): (us: seq<AgentUpdate>)
    ensures |us| == (if SelectTool(message).Some? then 5 else 3)
    ensures us[|us| - 2].content == GenerateResponse(message).Text()
    ensures us[|us| - 1].updateType == Complete
  {
    var tool, reply := SelectTool(message), GenerateResponse(message).Text();
    MockStreamEnds(sid, message, tool, reply, clock);
    MockStream(sid, message, tool, reply, clock)
  }

  /**
   * Every run opens with "Analyzing your request...", has five updates
   * when a tool branch fires and three otherwise, and closes with the
   * reply followed by the completion flagged `completed`.
   */
  lemma MockStreamEnds(sid: SessionId, message: string, tool: Option<MockTool>, reply: string, clock: nat -> Timestamp)
    ensures var us := MockStream(sid, message, tool, reply, clock);
            && us[0] == AgentUpdate(Thinking, ANALYZING, clock(0), SessionMetadata(sid))
            && us[|us| - 2].updateType == Thinking && us[|us| - 2].content == reply
            && us[|us| - 1].updateType == Complete && Lookup(us[|us| - 1].metadata, "completed", VNull) == VBool(true)
  {
    var us := MockStream(sid, message, tool, reply, clock);
    assert us[|us| - 1].metadata == SessionMetadata(sid)["completed" := VBool(true)];
  }

  /**
   * When a tool branch fires, the second and third updates are the call of
   * that tool, named in the metadata, and its result.
   */
  lemma MockStreamTool(sid: SessionId, message: string, tool: Option<MockTool>, reply: string, clock: nat -> Timestamp)
    requires tool.Some?
    ensures var us := MockStream(sid, message, tool, reply, clock);
            && us[1].updateType == ToolUse && us[2].updateType == ToolResult
            && Lookup(us[1].metadata, "tool_name", VNull) == VStr(ToolName(tool.value))
            && Lookup(us[1].metadata, "session_id", VNull) == VStr(sid)
  {
    var us := MockStream(sid, message, tool, reply, clock);
    var tools := ToolUpdates(sid, message, tool.value, clock);
    assert us[1] == tools[0] && us[2] == tools[1];
  }

  /** The i-th update of a run is stamped `clock(i)`. */
  lemma MockStreamStamps(sid: SessionId, message: string, tool: Option<MockTool>, reply: string, clock: nat -> Timestamp)
    ensures var us := MockStream(sid, message, tool, reply, clock);
            forall i :: 0 <= i < |us| ==> us[i].timestamp == clock(i)
  {
  }

  /** The tool call and its result are neither errors nor completions. */
  lemma ToolUpdatesCounts(sid: SessionId, message: string, tool: MockTool, clock: nat -> Timestamp)
    ensures CountKind(ToolUpdates(sid, message, tool, clock), Error) == 0
    ensures CountKind(ToolUpdates(sid, message, tool, clock), Complete) == 0
  {
    var ts := ToolUpdates(sid, message, tool, clock);
    assert forall i :: 0 <= i < |ts| ==> ts[i].updateType == ToolUse || ts[i].updateType == ToolResult;
  }

  /** A run holds no error and exactly one completion, its last update. */
  lemma MockStreamCounts(sid: SessionId, message: string, tool: Option<MockTool>, reply: string, clock: nat -> Timestamp)
    ensures var us := MockStream(sid, message, tool, reply, clock);
            && CountKind(us, Error) == 0
            && CountKind(us, Complete) == 1
  {
    var us := MockStream(sid, message, tool, reply, clock);
    var tools := if tool.Some? then ToolUpdates(sid, message, tool.value, clock) else [];
    if tool.Some? {
      ToolUpdatesCounts(sid, message, tool.value, clock);
    }
    var opening := [us[0]];
    var said, done := [us[|us| - 2]], [us[|us| - 1]];
    assert us == opening + tools + said + done;
    assert us[0].updateType == Thinking && us[|us| - 2].updateType == Thinking && us[|us| - 1].updateType == Complete;
    assert CountKind(done[1..], Complete) == 0;
    CountKindAppend(opening + tools + said, done, Error);
    CountKindAppend(opening + tools + said, done, Complete);
    CountKindAppend(opening + tools, said, Error);
    CountKindAppend(opening + tools, said, Complete);
    CountKindAppend(opening, tools, Error);
    CountKindAppend(opening, tools, Complete);
  }

  /**
   * Yields the opening update, the tool call and result when a tool
   * branch fires, the reply and the completion, one after another.
   */
  method EmitStream(sid: SessionId, message: string, tool: Option<MockTool>, reply: string, clock: nat -> Timestamp)
    returns (updates: seq<AgentUpdate>)
    ensures updates == MockStream(sid, message, tool, reply, clock)
  {
    updates := [AgentUpdate(Thinking, ANALYZING, clock(0), SessionMetadata(sid))];
    if tool.Some? {
      updates := updates + ToolUpdates(sid, message, tool.value, clock);
    }
    updates := updates + [AgentUpdate(Thinking, reply, clock(|updates|), SessionMetadata(sid)),
                          AgentUpdate(Complete, "Processing completed successfully", clock(|updates| + 1),
                                      SessionMetadata(sid)["completed" := VBool(true)])];
  }

  /** A message as the mock stores it. */
  datatype StoredEntry = StoredEntry(role: string, content: string)

  class MockAgentService {
    const sessionId: SessionId
    var messages: seq<StoredEntry>

    constructor (sessionId: SessionId)
      ensures this.sessionId == sessionId && messages == []
    {
      this.sessionId := sessionId;
      messages := [];
    }

    /** Stores the message and yields the mock stream for it. */
    method ProcessMessage(message: string, role: Field<MessageRole>, clock: nat -> Timestamp) returns (updates: seq<AgentUpdate>)
      modifies this
      ensures messages == old(messages) + [StoredEntry(RoleOrDefault(role).Wire(), message)]
      ensures updates == MockUpdates(sessionId, message, clock)
    {
      messages := messages + [StoredEntry(RoleOrDefault(role).Wire(), message)];
      updates := EmitStream(sessionId, message, SelectTool(message), GenerateResponse(message).Text(), clock);
    }

    /** Forgets the stored messages. */
    method ClearHistory()
      modifies this
      ensures messages == []
    {
      messages := [];
    }
  }
}
