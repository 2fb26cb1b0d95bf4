/**
  The Bedrock stream machine: provider events change a list of content blocks and emit bracketed
  stream events, with tool calls held back until the whole set is final.
*/
module BedrockStream {
  import opened Options

  /** A parsed JSON document. */
  datatype Json = Json(text: string)

  /** A content block with its streaming scratch fields. */
  datatype Block =
    | Text(text: string, index: Option<int>)
    | Thinking(thinking: string, signature: string, redacted: bool, index: Option<int>)
    | ToolCall(id: string, name: string, arguments: Json, partialJson: Option<string>, index: Option<int>)

  datatype Event =
    | MessageStarted
    | TextStart(at: nat)
    | TextDelta(at: nat, delta: string)
    | TextEnd(at: nat, content: string)
    | ThinkingStart(at: nat)
    | ThinkingDelta(at: nat, delta: string)
    | ThinkingEnd(at: nat, content: string)
    | ToolStart(at: nat)
    | ToolDelta(at: nat, delta: string)
    | ToolEnd(at: nat, toolCall: Block)

  datatype ToolUse = ToolUse(id: string, name: string, input: Json)

  /** A reasoning delta; an empty text or signature stands for an absent one. */
  datatype Reasoning = Reasoning(text: string, signature: string, redacted: Option<seq<nat>>)

  /** A block delta; `preview` is the parse the preview schedule asked for, if it did. */
  datatype Delta = Delta(
    text: Option<string>, toolUse: Option<string>, reasoning: Option<Reasoning>, preview: Option<Json>)

  datatype Item =
    | MessageStart(assistant: bool)
    | BlockStart(index: Option<int>, tool: Option<ToolUse>)
    | BlockDelta(index: Option<int>, delta: Delta)
    | BlockStop(index: Option<int>)
    | MessageStop(failed: bool)
    | Metadata
    | Exception

  /** What the authoritative argument parse of a tool call reads. */
  datatype Source = Raw(text: string) | Given(document: Json)

  /** Platform and library code: base64, and the finalisation that accepts or rejects a whole list. */
  datatype Env = Env(encode: seq<nat> -> string, finalize: seq<Source> -> Option<seq<Json>>)

  /** A finalisation that accepts a list returns one document per tool call. */
  ghost predicate FinalizesAll(env: Env) {
    forall sources :: env.finalize(sources).Some? ==> |env.finalize(sources).value| == |sources|
  }

  datatype State = State(
    blocks: seq<Block>,
    pending: seq<nat>,
    redactedChunks: map<Option<int>, seq<seq<nat>>>,
    events: seq<Event>,
    sawMessageStop: bool,
    stopFailed: bool)

  const Initially := State([], [], map[], [], false, false)

  // ---- Handlers -----------------------------------------------------------------------------

  /** `blocks.findIndex((b) => b.index === index)`; the length when there is none. */
  function Find(blocks: seq<Block>, index: Option<int>): (i: nat)
    ensures i <= |blocks| && (i < |blocks| ==> blocks[i].index == index)
    ensures forall k :: 0 <= k < i ==> blocks[k].index != index
  {
    if blocks == [] || blocks[0].index == index then 0
    else
      var i := 1 + Find(blocks[1..], index);
      assert forall k :: 1 <= k < i ==> blocks[k] == blocks[1..][k - 1];
      i
  }

  function Push(s: State, e: Event): State {
    s.(events := s.events + [e])
  }

  function SetBlock(s: State, i: nat, b: Block): State
    requires i < |s.blocks|
  {
    s.(blocks := s.blocks[i := b])
  }

  function HandleStart(s: State, index: Option<int>, tool: Option<ToolUse>): State {
    if tool.None? then s
    else
      var b := ToolCall(tool.value.id, tool.value.name, tool.value.input, Some(""), index);
      Push(s.(blocks := s.blocks + [b]), ToolStart(|s.blocks|))
  }

  /** Opens a text block for the index unless some block already carries it. */
  function OpenText(s: State, index: Option<int>): State {
    if Find(s.blocks, index) < |s.blocks| then s
    else Push(s.(blocks := s.blocks + [Text("", index)]), TextStart(|s.blocks|))
  }

  function OpenThinking(s: State, index: Option<int>): State {
    if Find(s.blocks, index) < |s.blocks| then s
    else Push(s.(blocks := s.blocks + [Thinking("", "", false, index)]), ThinkingStart(|s.blocks|))
  }

  function AppendText(s: State, i: nat, text: string): State
    requires i < |s.blocks|
  {
    var b := s.blocks[i];
    if !b.Text? then s else Push(SetBlock(s, i, b.(text := b.text + text)), TextDelta(i, text))
  }

  function AppendTool(s: State, i: nat, input: string, preview: Option<Json>): State
    requires i < |s.blocks| && s.blocks[i].ToolCall?
  {
    var b := s.blocks[i];
    var json := (if b.partialJson.Some? then b.partialJson.value else "") + input;
    var args := if preview.Some? then preview.value else b.arguments;
    Push(SetBlock(s, i, b.(partialJson := Some(json), arguments := args)), ToolDelta(i, input))
  }

  const REDACTED := "[Reasoning redacted]"

  function AppendReasoningText(s: State, i: nat, text: string): State
    requires i < |s.blocks| && s.blocks[i].Thinking?
  {
    var b := s.blocks[i];
    if text == "" then s
    else Push(SetBlock(s, i, b.(thinking := b.thinking + text)), ThinkingDelta(i, text))
  }

  function Redact(s: State, i: nat, index: Option<int>, bytes: seq<nat>): State
    requires i < |s.blocks| && s.blocks[i].Thinking?
  {
    var earlier := if index in s.redactedChunks then s.redactedChunks[index] else [];
    SetBlock(s, i, s.blocks[i].(thinking := REDACTED, redacted := true))
      .(redactedChunks := s.redactedChunks[index := earlier + [bytes]])
  }

  function AppendReasoning(s: State, i: nat, index: Option<int>, r: Reasoning): State
    requires i < |s.blocks|
  {
    if !s.blocks[i].Thinking? then s
    else
      var s1 := AppendReasoningText(s, i, r.text);
      var s2 := SetBlock(s1, i, s1.blocks[i].(signature := s1.blocks[i].signature + r.signature));
      if r.redacted.Some? then Redact(s2, i, index, r.redacted.value) else s2
  }

  function HandleDelta(s: State, index: Option<int>, d: Delta): State {
    var i := Find(s.blocks, index);
    if d.text.Some? then AppendText(OpenText(s, index), i, d.text.value)
    else if d.toolUse.Some? && i < |s.blocks| && s.blocks[i].ToolCall? then
      AppendTool(s, i, d.toolUse.value, d.preview)
    else if d.reasoning.Some? then AppendReasoning(OpenThinking(s, index), i, index, d.reasoning.value)
    else s
  }

  function Flatten(chunks: seq<seq<nat>>): seq<nat> {
    if chunks == [] then [] else chunks[0] + Flatten(chunks[1..])
  }

  /** `delete block.index`. */
  function Closed(b: Block): (r: Block)
    ensures r.index.None? && (r.ToolCall? <==> b.ToolCall?)
  {
    match b
    case Text(text, _) => Text(text, None)
    case Thinking(thinking, signature, redacted, _) => Thinking(thinking, signature, redacted, None)
    case ToolCall(id, name, arguments, partialJson, _) => ToolCall(id, name, arguments, partialJson, None)
  }

  function HandleStop(env: Env, s: State, index: Option<int>): State {
    var i := Find(s.blocks, index);
    if i == |s.blocks| then s
    else
      var b := s.blocks[i];
      match b
      case Text(text, _) => Push(SetBlock(s, i, Closed(b)), TextEnd(i, text))
      case Thinking(thinking, _, redacted, _) =>
        if redacted && index in s.redactedChunks then
          var signature := env.encode(Flatten(s.redactedChunks[index]));
          Push(SetBlock(s, i, Thinking(thinking, signature, redacted, None))
                 .(redactedChunks := s.redactedChunks - {index}),
               ThinkingEnd(i, thinking))
        else Push(SetBlock(s, i, Closed(b)), ThinkingEnd(i, thinking))
      case ToolCall(_, _, _, _, _) => SetBlock(s, i, Closed(b)).(pending := s.pending + [i])
  }

  // ---- The end of the stream ----------------------------------------------------------------

  /** The loop that stops blocks whose stop event never came, from position `c` on. */
  function CloseFrom(env: Env, s: State, c: nat): (t: State)
    requires c <= |s.blocks|
    ensures |t.blocks| == |s.blocks|
    decreases |s.blocks| - c
  {
    if c == |s.blocks| then s
    else
      var b := s.blocks[c];
      CloseFrom(env, if b.index.Some? && !b.ToolCall? then HandleStop(env, s, b.index) else s, c + 1)
  }

  function SourceOf(b: Block): Source {
    if !b.ToolCall? then Raw("")
    else if b.partialJson.Some? && b.partialJson.value != "" then Raw(b.partialJson.value)
    else Given(b.arguments)
  }

  function Sources(blocks: seq<Block>, pending: seq<nat>): (r: seq<Source>)
    requires forall k :: 0 <= k < |pending| ==> pending[k] < |blocks|
    ensures |r| == |pending|
  {
    seq(|pending|, k requires 0 <= k < |pending| => SourceOf(blocks[pending[k]]))
  }

  /** Ends the pending tool calls with their final arguments. */
  function EndTools(s: State, pending: seq<nat>, args: seq<Json>): State
    requires |args| == |pending|
    requires forall k :: 0 <= k < |pending| ==> pending[k] < |s.blocks| && s.blocks[pending[k]].ToolCall?
    decreases |pending|
  {
    if pending == [] then s
    else
      var b := s.blocks[pending[0]].(arguments := args[0], partialJson := None);
      EndTools(Push(SetBlock(s, pending[0], b), ToolEnd(pending[0], b)), pending[1..], args[1..])
  }

  predicate PendingInRange(s: State) {
    forall k :: 0 <= k < |s.pending| ==> s.pending[k] < |s.blocks| && s.blocks[s.pending[k]].ToolCall?
  }

  /** `flushPendingBedrockToolCalls`: the tool calls end together or not at all. */
  function Flush(env: Env, s: State): Option<State>
    requires PendingInRange(s) && FinalizesAll(env)
  {
    if exists b :: b in s.blocks && b.ToolCall? && b.index.Some? then None
    else
      match env.finalize(Sources(s.blocks, s.pending))
      case None => None
      case Some(args) => Some(EndTools(s, s.pending, args))
  }

  // ---- Whole runs ---------------------------------------------------------------------------

  predicate Throws(item: Item) {
    item.Exception? || (item.MessageStart? && !item.assistant)
  }

  function Receive(env: Env, s: State, item: Item): State
    requires !Throws(item)
  {
    match item
    case MessageStart(_) => Push(s, MessageStarted)
    case BlockStart(index, tool) => HandleStart(s, index, tool)
    case BlockDelta(index, d) => HandleDelta(s, index, d)
    case BlockStop(index) => HandleStop(env, s, index)
    case MessageStop(failed) => s.(sawMessageStop := true, stopFailed := failed)
    case Metadata => s
  }

  /** The state after the items, up to the first that throws. */
  function ReceiveAll(env: Env, s: State, items: seq<Item>): (State, bool)
    decreases |items|
  {
    if items == [] then (s, true)
    else if Throws(items[0]) then (s, false)
    else ReceiveAll(env, Receive(env, s, items[0]), items[1..])
  }

  datatype Result =
    | Done(content: seq<Block>, events: seq<Event>)
    | Failed(content: seq<Block>, events: seq<Event>)

  function Stripped(b: Block): Block {
    if b.ToolCall? then ToolCall(b.id, b.name, b.arguments, None, None) else Closed(b)
  }

  /** The clean-up of a failed stream: no tool call and no scratch field survives. */
  function Surviving(blocks: seq<Block>): seq<Block> {
    if blocks == [] then []
    else (if blocks[0].ToolCall? then [] else [Stripped(blocks[0])]) + Surviving(blocks[1..])
  }

  /** A deferred event buffer hides everything that a failing stream emitted. */
  function Fail(s: State, buffered: bool): Result {
    if buffered then Failed([], []) else Failed(Surviving(s.blocks), s.events)
  }

  /** The stop reason and abort checks, the closing loop and the flush. */
  function Conclude(env: Env, s: State, completed: bool, aborted: bool, buffered: bool): Result
    requires PendingInRange(s) && FinalizesAll(env)
  {
    if !completed || !s.sawMessageStop || aborted || s.stopFailed then Fail(s, buffered)
    else
      CloseKeepsRange(env, s, 0);
      var t := CloseFrom(env, s, 0);
      match Flush(env, t)
      case None => Fail(t, buffered)
      case Some(end) => Done(end.blocks, end.events)
  }

  lemma StopKeepsRange(env: Env, s: State, index: Option<int>)
    requires PendingInRange(s)
    ensures PendingInRange(HandleStop(env, s, index))
  {
    hide Find;
  }

  lemma {:induction false} CloseKeepsRange(env: Env, s: State, c: nat)
    requires PendingInRange(s) && c <= |s.blocks|
    ensures PendingInRange(CloseFrom(env, s, c))
    decreases |s.blocks| - c
  {
    if c < |s.blocks| {
      var b := s.blocks[c];
      StopKeepsRange(env, s, b.index);
      CloseKeepsRange(env, if b.index.Some? && !b.ToolCall? then HandleStop(env, s, b.index) else s, c + 1);
    }
  }

  lemma {:induction false} ReceiveKeepsRange(env: Env, s: State, item: Item)
    requires PendingInRange(s) && !Throws(item)
    ensures PendingInRange(Receive(env, s, item))
  {
    match item
    case BlockStop(index) => StopKeepsRange(env, s, index);
    case BlockDelta(index, d) => DeltaKeepsRange(s, index, d);
    case _ =>
  }

  lemma {:induction false} DeltaKeepsRange(s: State, index: Option<int>, d: Delta)
    requires PendingInRange(s)
    ensures PendingInRange(HandleDelta(s, index, d))
  {
    var i := Find(s.blocks, index);
    if d.text.Some? {
      assert PendingInRange(OpenText(s, index));
    } else if d.toolUse.Some? && i < |s.blocks| && s.blocks[i].ToolCall? {
    } else if d.reasoning.Some? {
      var s1 := OpenThinking(s, index);
      assert PendingInRange(s1);
      ReasoningKeepsRange(s1, i, index, d.reasoning.value);
    }
  }

  lemma ReasoningKeepsRange(s: State, i: nat, index: Option<int>, r: Reasoning)
    requires PendingInRange(s) && i < |s.blocks|
    ensures PendingInRange(AppendReasoning(s, i, index, r))
  {
    if s.blocks[i].Thinking? {
      assert PendingInRange(AppendReasoningText(s, i, r.text));
    }
  }

  lemma {:induction false} ReceiveAllKeepsRange(env: Env, s: State, items: seq<Item>)
    requires PendingInRange(s)
    ensures PendingInRange(ReceiveAll(env, s, items).0)
    decreases |items|
  {
    if items != [] && !Throws(items[0]) {
      ReceiveKeepsRange(env, s, items[0]);
      ReceiveAllKeepsRange(env, Receive(env, s, items[0]), items[1..]);
    }
  }

  /** A whole stream: the items, then its end. */
  function Stream(env: Env, items: seq<Item>, aborted: bool, buffered: bool): Result
    requires FinalizesAll(env)
  {
    var (s, completed) := ReceiveAll(env, Initially, items);
    ReceiveAllKeepsRange(env, Initially, items);
    Conclude(env, s, completed, aborted, buffered)
  }
}
