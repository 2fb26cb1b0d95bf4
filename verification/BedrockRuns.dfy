/** Bracketing of the emitted events and the all-or-nothing rule for tool calls, over every run. */
module BedrockRuns {
  import opened Options
  import opened BedrockStream

  // ---- The events of one content index ------------------------------------------------------

  predicate Concerns(e: Event, c: nat) {
    !e.MessageStarted? && e.at == c
  }

  function Project(events: seq<Event>, c: nat): seq<Event> {
    if events == [] then []
    else
      var e := events[|events| - 1];
      Project(events[..|events| - 1], c) + (if Concerns(e, c) then [e] else [])
  }

  /** The concatenation of the deltas among some events. */
  function DeltaText(events: seq<Event>): string {
    if events == [] then ""
    else
      var e := events[|events| - 1];
      DeltaText(events[..|events| - 1]) +
      (if e.TextDelta? || e.ThinkingDelta? || e.ToolDelta? then e.delta else "")
  }

  function StartOf(b: Block, c: nat): Event {
    match b
    case Text(_, _) => TextStart(c)
    case Thinking(_, _, _, _) => ThinkingStart(c)
    case ToolCall(_, _, _, _, _) => ToolStart(c)
  }

  function EndOf(b: Block, c: nat): Event {
    match b
    case Text(text, _) => TextEnd(c, text)
    case Thinking(thinking, _, _, _) => ThinkingEnd(c, thinking)
    case ToolCall(_, _, _, _, _) => ToolEnd(c, b)
  }

  predicate IsDelta(e: Event, b: Block, c: nat) {
    match b
    case Text(_, _) => e.TextDelta? && e.at == c
    case Thinking(_, _, _, _) => e.ThinkingDelta? && e.at == c
    case ToolCall(_, _, _, _, _) => e.ToolDelta? && e.at == c
  }

  /** What the deltas of a block add up to, unless reasoning was redacted; for a tool call, its scratch buffer. */
  predicate SaysItsDeltas(b: Block, events: seq<Event>) {
    match b
    case Text(text, _) => text == DeltaText(events)
    case Thinking(thinking, _, redacted, _) => redacted || thinking == DeltaText(events)
    case ToolCall(_, _, _, partialJson, _) => partialJson.Some? ==> partialJson.value == DeltaText(events)
  }

  /** A start followed by deltas of its kind. */
  predicate Opened(b: Block, c: nat, events: seq<Event>) {
    && |events| >= 1 && events[0] == StartOf(b, c)
    && (forall k :: 1 <= k < |events| ==> IsDelta(events[k], b, c))
    && SaysItsDeltas(b, events)
  }

  /** A start, deltas of its kind, and exactly one end that carries the content. */
  predicate Bracketed(b: Block, c: nat, events: seq<Event>) {
    && |events| >= 2
    && Opened(b, c, events[..|events| - 1])
    && events[|events| - 1] == EndOf(b, c)
  }

  // ---- The invariant ------------------------------------------------------------------------

  predicate Traced(b: Block, c: nat, events: seq<Event>) {
    if b.ToolCall? then b.partialJson.Some? && Opened(b, c, events)
    else if b.index.Some? then Opened(b, c, events)
    else Bracketed(b, c, events)
  }

  ghost predicate AllTraced(s: State) {
    && (forall c :: 0 <= c < |s.blocks| ==> Traced(s.blocks[c], c, Project(s.events, c)))
    && (forall c :: c >= |s.blocks| ==> Project(s.events, c) == [])
  }

  /** No earlier block carries the provider index of an open text or thinking block. */
  predicate Unshadowed(s: State) {
    forall q, c :: 0 <= q < c < |s.blocks| && s.blocks[c].index.Some? && !s.blocks[c].ToolCall?
      ==> s.blocks[q].index != s.blocks[c].index
  }

  /** The pending list holds each stopped tool call exactly once. */
  predicate PendingExact(s: State) {
    && PendingInRange(s)
    && (forall k :: 0 <= k < |s.pending| ==> s.blocks[s.pending[k]].index.None?)
    && (forall k, l :: 0 <= k < l < |s.pending| ==> s.pending[k] != s.pending[l])
    && (forall c :: 0 <= c < |s.blocks| && s.blocks[c].ToolCall? && s.blocks[c].index.None? ==> c in s.pending)
  }

  predicate NoToolEnd(events: seq<Event>) {
    forall k :: 0 <= k < |events| ==> !events[k].ToolEnd?
  }

  ghost predicate Inv(s: State) {
    AllTraced(s) && Unshadowed(s) && PendingExact(s) && NoToolEnd(s.events)
  }

  // ---- Preservation, one primitive at a time ------------------------------------------------

  lemma ProjectPush(events: seq<Event>, e: Event, c: nat)
    ensures Project(events + [e], c) == Project(events, c) + (if Concerns(e, c) then [e] else [])
  {
    assert (events + [e])[..|events|] == events;
  }

  lemma DeltaTextPush(events: seq<Event>, e: Event)
    ensures DeltaText(events + [e]) ==
      DeltaText(events) + (if e.TextDelta? || e.ThinkingDelta? || e.ToolDelta? then e.delta else "")
  {
    assert (events + [e])[..|events|] == events;
  }

  function Emitted(emit: Option<Event>): seq<Event> {
    if emit.Some? then [emit.value] else []
  }

  /** Only the block at `i` changed, and at most one event about it was emitted. */
  lemma TracesKept(s: State, t: State, i: nat, emit: Option<Event>)
    requires AllTraced(s) && i < |t.blocks|
    requires |t.blocks| == |s.blocks| || (|t.blocks| == |s.blocks| + 1 && i == |s.blocks|)
    requires forall c :: 0 <= c < |s.blocks| && c != i ==> t.blocks[c] == s.blocks[c]
    requires t.events == s.events + Emitted(emit)
    requires emit.Some? ==> Concerns(emit.value, i)
    requires Traced(t.blocks[i], i, Project(s.events, i) + Emitted(emit))
    ensures AllTraced(t)
  {
    hide Project, Traced;
    forall c: nat ensures Project(t.events, c) == Project(s.events, c) + (if c == i then Emitted(emit) else []) {
      if emit.Some? {
        ProjectPush(s.events, emit.value, c);
      } else {
        assert t.events == s.events;
      }
    }
    forall c | 0 <= c < |t.blocks| ensures Traced(t.blocks[c], c, Project(t.events, c)) {
      if c != i {
        assert Traced(s.blocks[c], c, Project(s.events, c));
        assert Project(s.events, c) + [] == Project(s.events, c);
      }
    }
  }

  /** A block appended with its start event. */
  lemma {:induction false} AppendBlockKeeps(s: State, b: Block)
    requires Inv(s) && b.index.Some?
    requires b.Text? ==> b.text == ""
    requires b.Thinking? ==> b.thinking == "" && !b.redacted
    requires b.ToolCall? ==> b.partialJson == Some("")
    requires !b.ToolCall? ==> forall q :: 0 <= q < |s.blocks| ==> s.blocks[q].index != b.index
    ensures Inv(Push(s.(blocks := s.blocks + [b]), StartOf(b, |s.blocks|)))
  {
    var n := |s.blocks|;
    var e := StartOf(b, n);
    var t := Push(s.(blocks := s.blocks + [b]), e);
    assert Project(s.events, n) + [e] == [e];
    FreshTraced(b, n);
    TracesKept(s, t, n, Some(e));
    AppendShape(s, t, b);
  }

  lemma AppendShape(s: State, t: State, b: Block)
    requires Unshadowed(s) && PendingExact(s) && b.index.Some?
    requires t.blocks == s.blocks + [b] && t.pending == s.pending
    requires !b.ToolCall? ==> forall q :: 0 <= q < |s.blocks| ==> s.blocks[q].index != b.index
    ensures Unshadowed(t) && PendingExact(t)
  {
  }

  lemma FreshTraced(b: Block, n: nat)
    requires b.index.Some? && (b.Text? ==> b.text == "") && (b.Thinking? ==> b.thinking == "")
    requires b.ToolCall? ==> b.partialJson == Some("")
    ensures Traced(b, n, [StartOf(b, n)])
  {
    DeltaTextPush([], StartOf(b, n));
    assert [] + [StartOf(b, n)] == [StartOf(b, n)];
  }

  /** A block replaced by one of the same kind and index, with or without a delta event. */
  lemma ReplaceKeeps(s: State, i: nat, b: Block, emit: Option<Event>)
    requires Inv(s) && i < |s.blocks| && b.index == s.blocks[i].index
    requires if b.ToolCall? then b.partialJson.Some? else b.index.Some?
    requires StartOf(b, i) == StartOf(s.blocks[i], i)
    requires emit.Some? ==> IsDelta(emit.value, b, i)
    requires SaysItsDeltas(b, Project(s.events, i) + Emitted(emit))
    ensures Inv(SetBlock(s, i, b).(events := s.events + Emitted(emit)))
  {
    var t := SetBlock(s, i, b).(events := s.events + Emitted(emit));
    assert Traced(s.blocks[i], i, Project(s.events, i));
    ReplaceTraced(s.blocks[i], b, i, Project(s.events, i), emit);
    TracesKept(s, t, i, emit);
    assert PendingExact(t);
  }

  lemma ReplaceTraced(before: Block, b: Block, i: nat, events: seq<Event>, emit: Option<Event>)
    requires Opened(before, i, events) && StartOf(b, i) == StartOf(before, i)
    requires emit.Some? ==> IsDelta(emit.value, b, i)
    requires SaysItsDeltas(b, events + Emitted(emit))
    ensures Opened(b, i, events + Emitted(emit))
  {
    hide DeltaText;
    assert events + [] == events;
  }

  /** A text or thinking block closed with its end event. */
  lemma CloseKeeps(s: State, i: nat, b: Block)
    requires Inv(s) && i < |s.blocks| && s.blocks[i].index.Some? && !s.blocks[i].ToolCall?
    requires b.index.None? && StartOf(b, i) == StartOf(s.blocks[i], i) && EndOf(b, i) == EndOf(s.blocks[i], i)
    requires b.Thinking? ==> b.redacted == s.blocks[i].redacted
    ensures Inv(Push(SetBlock(s, i, b), EndOf(b, i)))
  {
    hide Project, DeltaText, SaysItsDeltas;
    var t := Push(SetBlock(s, i, b), EndOf(b, i));
    var events := Project(s.events, i);
    assert Traced(s.blocks[i], i, events);
    CloseTraced(s.blocks[i], b, i, events);
    TracesKept(s, t, i, Some(EndOf(b, i)));
    assert PendingExact(t);
  }

  lemma CloseTraced(before: Block, b: Block, i: nat, events: seq<Event>)
    requires Opened(before, i, events) && !before.ToolCall? && b.index.None?
    requires StartOf(b, i) == StartOf(before, i) && EndOf(b, i) == EndOf(before, i)
    requires b.Thinking? ==> b.redacted == before.redacted
    ensures Traced(b, i, events + [EndOf(b, i)])
  {
    hide DeltaText;
    assert (events + [EndOf(b, i)])[..|events|] == events;
    assert Opened(b, i, events);
  }

  /** A tool call closed and queued. */
  lemma QueueKeeps(s: State, i: nat)
    requires Inv(s) && i < |s.blocks| && s.blocks[i].index.Some? && s.blocks[i].ToolCall?
    ensures Inv(SetBlock(s, i, Closed(s.blocks[i])).(pending := s.pending + [i]))
  {
    var t := SetBlock(s, i, Closed(s.blocks[i])).(pending := s.pending + [i]);
    assert Traced(s.blocks[i], i, Project(s.events, i));
    assert Project(s.events, i) + Emitted(None) == Project(s.events, i);
    ReplaceTraced(s.blocks[i], Closed(s.blocks[i]), i, Project(s.events, i), None);
    assert s.events + Emitted(None) == s.events;
    TracesKept(s, t, i, None);
    assert PendingExact(t) by {
      forall c | 0 <= c < |t.blocks| && t.blocks[c].ToolCall? && t.blocks[c].index.None? ensures c in t.pending {
        assert c != i ==> c in s.pending;
      }
    }
  }

  /** The invariant reads the blocks, the pending list and the events only. */
  lemma InvReads(s: State, t: State)
    requires Inv(s) && t.blocks == s.blocks && t.pending == s.pending && t.events == s.events
    ensures Inv(t)
  {
    hide Project, Traced;
  }

  // ---- Preservation by the handlers ---------------------------------------------------------

  lemma StartKeeps(s: State, index: Option<int>, tool: Option<ToolUse>)
    requires Inv(s) && index.Some?
    ensures Inv(HandleStart(s, index, tool))
  {
    if tool.Some? {
      AppendBlockKeeps(s, ToolCall(tool.value.id, tool.value.name, tool.value.input, Some(""), index));
    }
  }

  lemma {:induction false} OpenTextKeeps(s: State, index: Option<int>)
    requires Inv(s) && index.Some?
    ensures var t := OpenText(s, index); var i := Find(s.blocks, index);
      Inv(t) && i < |t.blocks| && t.blocks[i].index == index
  {
    if Find(s.blocks, index) == |s.blocks| {
      AppendBlockKeeps(s, Text("", index));
    }
  }

  lemma {:induction false} OpenThinkingKeeps(s: State, index: Option<int>)
    requires Inv(s) && index.Some?
    ensures var t := OpenThinking(s, index); var i := Find(s.blocks, index);
      Inv(t) && i < |t.blocks| && t.blocks[i].index == index
  {
    if Find(s.blocks, index) == |s.blocks| {
      AppendBlockKeeps(s, Thinking("", "", false, index));
    }
  }

  lemma {:induction false} AppendTextKeeps(s: State, i: nat, text: string)
    requires Inv(s) && i < |s.blocks| && s.blocks[i].index.Some?
    ensures Inv(AppendText(s, i, text))
  {
    var b := s.blocks[i];
    if b.Text? {
      assert Traced(b, i, Project(s.events, i));
      DeltaTextPush(Project(s.events, i), TextDelta(i, text));
      ReplaceKeeps(s, i, b.(text := b.text + text), Some(TextDelta(i, text)));
    }
  }

  lemma AppendToolKeeps(s: State, i: nat, input: string, preview: Option<Json>)
    requires Inv(s) && i < |s.blocks| && s.blocks[i].ToolCall?
    ensures Inv(AppendTool(s, i, input, preview))
  {
    assert Traced(s.blocks[i], i, Project(s.events, i));
    DeltaTextPush(Project(s.events, i), ToolDelta(i, input));
    ReplaceKeeps(s, i, AppendTool(s, i, input, preview).blocks[i], Some(ToolDelta(i, input)));
  }

  lemma {:induction false} ReasoningTextKeeps(s: State, i: nat, text: string)
    requires Inv(s) && i < |s.blocks| && s.blocks[i].Thinking? && s.blocks[i].index.Some?
    ensures Inv(AppendReasoningText(s, i, text))
  {
    if text != "" {
      var b := s.blocks[i];
      assert Traced(b, i, Project(s.events, i));
      DeltaTextPush(Project(s.events, i), ThinkingDelta(i, text));
      ReplaceKeeps(s, i, b.(thinking := b.thinking + text), Some(ThinkingDelta(i, text)));
    }
  }

  /** A silent change of a thinking block that keeps or redacts its text. */
  lemma SilentKeeps(s: State, i: nat, b: Block)
    requires Inv(s) && i < |s.blocks| && s.blocks[i].Thinking? && s.blocks[i].index.Some?
    requires b.Thinking? && b.index == s.blocks[i].index
    requires b.redacted || (b.thinking == s.blocks[i].thinking && b.redacted == s.blocks[i].redacted)
    ensures Inv(SetBlock(s, i, b))
  {
    assert Traced(s.blocks[i], i, Project(s.events, i));
    assert Project(s.events, i) + Emitted(None) == Project(s.events, i);
    ReplaceKeeps(s, i, b, None);
    assert s.events + Emitted(None) == s.events;
  }

  lemma {:induction false} ReasoningKeeps(s: State, i: nat, index: Option<int>, r: Reasoning)
    requires Inv(s) && i < |s.blocks| && s.blocks[i].index.Some?
    ensures Inv(AppendReasoning(s, i, index, r))
  {
    if s.blocks[i].Thinking? {
      ReasoningTextKeeps(s, i, r.text);
      var s1 := AppendReasoningText(s, i, r.text);
      var b := s1.blocks[i].(signature := s1.blocks[i].signature + r.signature);
      SilentKeeps(s1, i, b);
      var s2 := SetBlock(s1, i, b);
      if r.redacted.Some? {
        SilentKeeps(s2, i, s2.blocks[i].(thinking := REDACTED, redacted := true));
        InvReads(SetBlock(s2, i, s2.blocks[i].(thinking := REDACTED, redacted := true)),
                 Redact(s2, i, index, r.redacted.value));
      }
    }
  }

  lemma {:induction false} DeltaKeeps(s: State, index: Option<int>, d: Delta)
    requires Inv(s) && index.Some?
    ensures Inv(HandleDelta(s, index, d))
  {
    var i := Find(s.blocks, index);
    if d.text.Some? {
      OpenTextKeeps(s, index);
      AppendTextKeeps(OpenText(s, index), i, d.text.value);
    } else if d.toolUse.Some? && i < |s.blocks| && s.blocks[i].ToolCall? {
      AppendToolKeeps(s, i, d.toolUse.value, d.preview);
    } else if d.reasoning.Some? {
      OpenThinkingKeeps(s, index);
      ReasoningKeeps(OpenThinking(s, index), i, index, d.reasoning.value);
    }
  }

  lemma {:induction false} StopKeeps(env: Env, s: State, index: Option<int>)
    requires Inv(s) && index.Some?
    ensures Inv(HandleStop(env, s, index))
  {
    var i := Find(s.blocks, index);
    if i < |s.blocks| {
      var b := s.blocks[i];
      var t := HandleStop(env, s, index);
      if b.ToolCall? {
        QueueKeeps(s, i);
      } else {
        CloseKeeps(s, i, t.blocks[i]);
        InvReads(Push(SetBlock(s, i, t.blocks[i]), EndOf(b, i)), t);
      }
    }
  }

  predicate UpdateIndexed(item: Item) {
    item.BlockDelta? || item.BlockStop? ==> item.index.Some?
  }

  predicate ToolIndexed(item: Item) {
    item.BlockStart? && item.tool.Some? ==> item.index.Some?
  }

  /** Block events name their block; a start that announces nothing need not. */
  predicate Indexed(item: Item) {
    UpdateIndexed(item) && ToolIndexed(item)
  }

  lemma {:induction false} ReceiveKeeps(env: Env, s: State, item: Item)
    requires Inv(s) && Indexed(item) && !Throws(item)
    ensures Inv(Receive(env, s, item))
  {
    match item
    case MessageStart(_) => StartedKeeps(s);
    case BlockStart(index, tool) =>
      if tool.Some? {
        StartKeeps(s, index, tool);
      }
    case BlockDelta(index, d) => DeltaKeeps(s, index, d);
    case BlockStop(index) => StopKeeps(env, s, index);
    case MessageStop(_) => InvReads(s, Receive(env, s, item));
    case Metadata =>
  }

  lemma StartedKeeps(s: State)
    requires Inv(s)
    ensures Inv(Push(s, MessageStarted))
  {
    hide Project, Traced;
    var t := Push(s, MessageStarted);
    forall c: nat ensures Project(t.events, c) == Project(s.events, c) {
      ProjectPush(s.events, MessageStarted, c);
      assert Project(s.events, c) + [] == Project(s.events, c);
    }
    assert AllTraced(t) && PendingExact(t);
  }

  lemma {:induction false} ReceiveAllKeeps(env: Env, s: State, items: seq<Item>)
    requires Inv(s) && forall i :: 0 <= i < |items| ==> Indexed(items[i])
    ensures Inv(ReceiveAll(env, s, items).0)
    decreases |items|
  {
    if items != [] && !Throws(items[0]) {
      ReceiveKeeps(env, s, items[0]);
      ReceiveAllKeeps(env, Receive(env, s, items[0]), items[1..]);
    }
  }

  // ---- The closing loop ---------------------------------------------------------------------

  predicate ClosedUpTo(s: State, c: nat) {
    c <= |s.blocks| && forall k :: 0 <= k < c && !s.blocks[k].ToolCall? ==> s.blocks[k].index.None?
  }

  /** Because no earlier block shadows an open text or thinking block, stopping its index stops that
      very block. */
  lemma StopHitsItsBlock(env: Env, s: State, c: nat)
    requires Inv(s) && ClosedUpTo(s, c) && c < |s.blocks|
    requires s.blocks[c].index.Some? && !s.blocks[c].ToolCall?
    ensures Find(s.blocks, s.blocks[c].index) == c
    ensures var t := HandleStop(env, s, s.blocks[c].index);
      ClosedUpTo(t, c + 1) && |t.blocks| == |s.blocks| && t.pending == s.pending
  {
  }

  lemma {:induction false} CloseFromKeeps(env: Env, s: State, c: nat)
    requires Inv(s) && ClosedUpTo(s, c)
    ensures var t := CloseFrom(env, s, c);
      Inv(t) && ClosedUpTo(t, |t.blocks|) && t.pending == s.pending
    decreases |s.blocks| - c
  {
    hide Traced, Project, HandleStop;
    if c < |s.blocks| {
      var b := s.blocks[c];
      if b.index.Some? && !b.ToolCall? {
        StopHitsItsBlock(env, s, c);
        StopKeeps(env, s, b.index);
        CloseFromKeeps(env, HandleStop(env, s, b.index), c + 1);
      } else {
        CloseFromKeeps(env, s, c + 1);
      }
    }
  }

  // ---- The flush ----------------------------------------------------------------------------

  predicate Distinct(xs: seq<nat>) {
    forall k, l :: 0 <= k < l < |xs| ==> xs[k] != xs[l]
  }

  /** One end event per listed tool call, carrying the finished block. */
  function Ends(blocks: seq<Block>, order: seq<nat>): seq<Event>
    requires forall k :: 0 <= k < |order| ==> order[k] < |blocks|
  {
    seq(|order|, k requires 0 <= k < |order| => ToolEnd(order[k], blocks[order[k]]))
  }

  lemma EndsCons(blocks: seq<Block>, order: seq<nat>)
    requires order != [] && forall k :: 0 <= k < |order| ==> order[k] < |blocks|
    ensures Ends(blocks, order) == [ToolEnd(order[0], blocks[order[0]])] + Ends(blocks, order[1..])
  {
  }

  lemma EndsSnoc(blocks: seq<Block>, order: seq<nat>)
    requires order != [] && forall k :: 0 <= k < |order| ==> order[k] < |blocks|
    ensures var last := order[|order| - 1];
      Ends(blocks, order) == Ends(blocks, order[..|order| - 1]) + [ToolEnd(last, blocks[last])]
  {
  }

  function Finished(b: Block, args: Json): Block
    requires b.ToolCall?
  {
    b.(arguments := args, partialJson := None)
  }

  lemma {:induction false} EndToolsResult(s: State, order: seq<nat>, args: seq<Json>)
    requires |args| == |order| && Distinct(order)
    requires forall k :: 0 <= k < |order| ==> order[k] < |s.blocks| && s.blocks[order[k]].ToolCall?
    ensures var t := EndTools(s, order, args);
      && |t.blocks| == |s.blocks|
      && (forall c :: 0 <= c < |s.blocks| && c !in order ==> t.blocks[c] == s.blocks[c])
      && (forall k :: 0 <= k < |order| ==> t.blocks[order[k]] == Finished(s.blocks[order[k]], args[k]))
      && t.events == s.events + Ends(t.blocks, order)
    decreases |order|
  {
    if order == [] {
      assert Ends(s.blocks, []) == [];
    } else {
      var i := order[0];
      var b := Finished(s.blocks[i], args[0]);
      var s1 := Push(SetBlock(s, i, b), ToolEnd(i, b));
      hide Ends;
      EndToolsResult(s1, order[1..], args[1..]);
      var t := EndTools(s1, order[1..], args[1..]);
      assert i !in order[1..];
      forall k | 0 <= k < |order| ensures t.blocks[order[k]] == Finished(s.blocks[order[k]], args[k]) {
        if k > 0 {
          assert order[1..][k - 1] == order[k] && args[1..][k - 1] == args[k];
        }
      }
      EndsCons(t.blocks, order);
    }
  }

  /** The end events of distinct tool calls project to one event each. */
  lemma {:induction false} ProjectEnds(events: seq<Event>, blocks: seq<Block>, order: seq<nat>, c: nat)
    requires Distinct(order) && c < |blocks| && forall k :: 0 <= k < |order| ==> order[k] < |blocks|
    ensures Project(events + Ends(blocks, order), c) ==
      Project(events, c) + (if c in order then [ToolEnd(c, blocks[c])] else [])
    decreases |order|
  {
    if order == [] {
      assert events + Ends(blocks, order) == events;
    } else {
      var init, last := order[..|order| - 1], order[|order| - 1];
      hide Ends;
      ProjectEnds(events, blocks, init, c);
      EndsSnoc(blocks, order);
      assert events + Ends(blocks, order) == events + Ends(blocks, init) + [ToolEnd(last, blocks[last])];
      ProjectPush(events + Ends(blocks, init), ToolEnd(last, blocks[last]), c);
      assert c in order <==> c in init || c == last;
    }
  }

  /** The state in which a successful stream is flushed, and the documents it was given. */
  lemma {:induction false} DoneState(env: Env, items: seq<Item>, aborted: bool, buffered: bool)
    returns (t: State, args: seq<Json>)
    requires FinalizesAll(env) && forall i :: 0 <= i < |items| ==> Indexed(items[i])
    requires Stream(env, items, aborted, buffered).Done?
    ensures Inv(t) && ClosedUpTo(t, |t.blocks|)
    ensures forall c :: 0 <= c < |t.blocks| && t.blocks[c].ToolCall? ==> t.blocks[c].index.None?
    ensures env.finalize(Sources(t.blocks, t.pending)) == Some(args) && |args| == |t.pending|
    ensures var end := EndTools(t, t.pending, args);
      Stream(env, items, aborted, buffered) == Done(end.blocks, end.events)
  {
    var s := ReceiveAll(env, Initially, items).0;
    assert Inv(Initially);
    ReceiveAllKeeps(env, Initially, items);
    CloseFromKeeps(env, s, 0);
    t := CloseFrom(env, s, 0);
    args := env.finalize(Sources(t.blocks, t.pending)).value;
    forall c | 0 <= c < |t.blocks| && t.blocks[c].ToolCall? ensures t.blocks[c].index.None? {
      assert t.blocks[c] in t.blocks;
    }
  }

  // ---- The theorems -------------------------------------------------------------------------

  /** In every stream whose block events carry an index and that ends in `done`, the events of each
      content index are one start, deltas of its kind and one end, in this order; the end carries
      the block's content, which is the concatenation of the deltas unless it was redacted. No event
      names a content index without a block. */
  lemma DoneStreamsAreBracketed(env: Env, items: seq<Item>, aborted: bool, buffered: bool, c: nat)
    requires FinalizesAll(env) && forall i :: 0 <= i < |items| ==> Indexed(items[i])
    requires Stream(env, items, aborted, buffered).Done?
    ensures var r := Stream(env, items, aborted, buffered);
      if c < |r.content| then Bracketed(r.content[c], c, Project(r.events, c))
      else Project(r.events, c) == []
  {
    var t, args := DoneState(env, items, aborted, buffered);
    var end := EndTools(t, t.pending, args);
    EndToolsResult(t, t.pending, args);
    if c < |end.blocks| {
      ProjectEnds(t.events, end.blocks, t.pending, c);
      BracketAtEnd(t, end, args, c);
    } else {
      ProjectBeyond(t.events, end.blocks, t.pending, c);
    }
  }

  lemma {:induction false} ProjectBeyond(events: seq<Event>, blocks: seq<Block>, order: seq<nat>, c: nat)
    requires c >= |blocks| && forall k :: 0 <= k < |order| ==> order[k] < |blocks|
    ensures Project(events + Ends(blocks, order), c) == Project(events, c)
    decreases |order|
  {
    if order == [] {
      assert events + Ends(blocks, order) == events;
    } else {
      var init, last := order[..|order| - 1], order[|order| - 1];
      hide Ends;
      ProjectBeyond(events, blocks, init, c);
      EndsSnoc(blocks, order);
      assert events + Ends(blocks, order) == events + Ends(blocks, init) + [ToolEnd(last, blocks[last])];
      ProjectPush(events + Ends(blocks, init), ToolEnd(last, blocks[last]), c);
    }
  }

  lemma BracketAtEnd(t: State, end: State, args: seq<Json>, c: nat)
    requires Inv(t) && ClosedUpTo(t, |t.blocks|) && c < |t.blocks| && |end.blocks| == |t.blocks|
    requires t.blocks[c].ToolCall? ==> t.blocks[c].index.None?
    requires |args| == |t.pending|
    requires c !in t.pending ==> end.blocks[c] == t.blocks[c]
    requires forall k :: 0 <= k < |t.pending| ==> end.blocks[t.pending[k]] == Finished(t.blocks[t.pending[k]], args[k])
    requires Project(end.events, c) ==
      Project(t.events, c) + (if c in t.pending then [ToolEnd(c, end.blocks[c])] else [])
    ensures Bracketed(end.blocks[c], c, Project(end.events, c))
  {
    hide DeltaText, Project;
    var events := Project(t.events, c);
    assert Traced(t.blocks[c], c, events);
    if c in t.pending {
      assert Project(end.events, c)[..|events|] == events;
    } else {
      assert Project(end.events, c) == events;
    }
  }

  /** What is finalised for a tool call: the text of its deltas, or its document where they said nothing. */
  predicate SourceFor(source: Source, json: string) {
    if json != "" then source == Raw(json) else source.Given?
  }

  lemma {:induction false} SourceOfTraced(b: Block, c: nat, events: seq<Event>)
    requires b.ToolCall? && Traced(b, c, events)
    ensures SourceFor(SourceOf(b), DeltaText(events))
  {
    hide DeltaText;
  }

  /** Tool calls end together or not at all: a successful stream ends every tool call exactly once,
      after every other event and with the arguments the whole set was finalised to, which was given the
      concatenated deltas of every tool call. */
  lemma ToolCallsEndTogether(env: Env, items: seq<Item>, aborted: bool, buffered: bool)
    returns (before: seq<Event>, order: seq<nat>, sources: seq<Source>)
    requires FinalizesAll(env) && forall i :: 0 <= i < |items| ==> Indexed(items[i])
    requires Stream(env, items, aborted, buffered).Done?
    ensures var r := Stream(env, items, aborted, buffered);
      && NoToolEnd(before) && Distinct(order)
      && (forall c: nat :: c in order <==> c < |r.content| && r.content[c].ToolCall?)
      && (forall k :: 0 <= k < |order| ==> order[k] < |r.content|)
      && r.events == before + Ends(r.content, order)
      && |sources| == |order| && env.finalize(sources).Some? && |env.finalize(sources).value| == |order|
      && (forall k :: 0 <= k < |order| ==> SourceFor(sources[k], DeltaText(Project(before, order[k]))))
      && (forall k :: 0 <= k < |order| ==>
            r.content[order[k]].ToolCall? && r.content[order[k]].arguments == env.finalize(sources).value[k])
  {
    var t, args := DoneState(env, items, aborted, buffered);
    EndToolsResult(t, t.pending, args);
    before, order, sources := t.events, t.pending, Sources(t.blocks, t.pending);
    forall k | 0 <= k < |order| ensures SourceFor(sources[k], DeltaText(Project(before, order[k]))) {
      assert Traced(t.blocks[order[k]], order[k], Project(t.events, order[k]));
      SourceOfTraced(t.blocks[order[k]], order[k], Project(t.events, order[k]));
    }
    var end := EndTools(t, t.pending, args);
    forall c: nat ensures c in order <==> c < |end.blocks| && end.blocks[c].ToolCall? {
      if c in order {
        var k :| 0 <= k < |order| && order[k] == c;
        assert end.blocks[order[k]] == Finished(t.blocks[order[k]], args[k]);
      }
    }
  }

  /** Whatever the provider sends, a stream that fails has emitted no tool-call end and keeps no tool
      call and no scratch field. */
  lemma FailedStreamsKeepNoToolCall(env: Env, items: seq<Item>, aborted: bool, buffered: bool)
    requires FinalizesAll(env) && Stream(env, items, aborted, buffered).Failed?
    ensures var r := Stream(env, items, aborted, buffered);
      && NoToolEnd(r.events)
      && forall i :: 0 <= i < |r.content| ==> !r.content[i].ToolCall? && r.content[i].index.None?
  {
    var s := ReceiveAll(env, Initially, items).0;
    ReceiveAllEndsNoTool(env, Initially, items);
    CloseEndsNoTool(env, s, 0);
    SurvivingClean(s.blocks);
    SurvivingClean(CloseFrom(env, s, 0).blocks);
  }

  lemma {:induction false} SurvivingClean(blocks: seq<Block>)
    ensures forall i :: 0 <= i < |Surviving(blocks)| ==>
      !Surviving(blocks)[i].ToolCall? && Surviving(blocks)[i].index.None?
  {
    if blocks != [] {
      SurvivingClean(blocks[1..]);
    }
  }

  lemma {:induction false} CloseEndsNoTool(env: Env, s: State, c: nat)
    requires NoToolEnd(s.events) && c <= |s.blocks|
    ensures NoToolEnd(CloseFrom(env, s, c).events)
    decreases |s.blocks| - c
  {
    if c < |s.blocks| {
      var b := s.blocks[c];
      CloseEndsNoTool(env, if b.index.Some? && !b.ToolCall? then HandleStop(env, s, b.index) else s, c + 1);
    }
  }

  lemma {:induction false} ReceiveAllEndsNoTool(env: Env, s: State, items: seq<Item>)
    requires NoToolEnd(s.events)
    ensures NoToolEnd(ReceiveAll(env, s, items).0.events)
    decreases |items|
  {
    if items != [] && !Throws(items[0]) {
      ReceiveEndsNoTool(env, s, items[0]);
      ReceiveAllEndsNoTool(env, Receive(env, s, items[0]), items[1..]);
    }
  }

  lemma {:induction false} ReceiveEndsNoTool(env: Env, s: State, item: Item)
    requires NoToolEnd(s.events) && !Throws(item)
    ensures NoToolEnd(Receive(env, s, item).events)
  {
    match item
    case BlockDelta(index, d) => DeltaEndsNoTool(s, index, d);
    case BlockStop(index) => StopEndsNoTool(env, s, index);
    case _ =>
  }

  lemma StopEndsNoTool(env: Env, s: State, index: Option<int>)
    requires NoToolEnd(s.events)
    ensures NoToolEnd(HandleStop(env, s, index).events)
  {
    hide Find;
  }

  lemma {:induction false} DeltaEndsNoTool(s: State, index: Option<int>, d: Delta)
    requires NoToolEnd(s.events)
    ensures NoToolEnd(HandleDelta(s, index, d).events)
  {
    hide Find;
    if d.text.Some? {
      assert NoToolEnd(OpenText(s, index).events);
    } else if d.reasoning.Some? {
      assert NoToolEnd(OpenThinking(s, index).events);
      ReasoningEndsNoTool(OpenThinking(s, index), Find(s.blocks, index), index, d.reasoning.value);
    }
  }

  lemma ReasoningEndsNoTool(s: State, i: nat, index: Option<int>, r: Reasoning)
    requires NoToolEnd(s.events) && i < |s.blocks|
    ensures NoToolEnd(AppendReasoning(s, i, index, r).events)
  {
    if s.blocks[i].Thinking? {
      assert NoToolEnd(AppendReasoningText(s, i, r.text).events);
    }
  }

  /** A finished message carries no scratch field. */
  lemma DoneMessagesAreClean(env: Env, items: seq<Item>, aborted: bool, buffered: bool)
    requires FinalizesAll(env) && forall i :: 0 <= i < |items| ==> Indexed(items[i])
    requires Stream(env, items, aborted, buffered).Done?
    ensures var r := Stream(env, items, aborted, buffered);
      forall c :: 0 <= c < |r.content| ==>
        r.content[c].index.None? && (r.content[c].ToolCall? ==> r.content[c].partialJson.None?)
  {
    var t, args := DoneState(env, items, aborted, buffered);
    EndToolsResult(t, t.pending, args);
    var end := EndTools(t, t.pending, args);
    forall c | 0 <= c < |end.blocks|
      ensures end.blocks[c].index.None? && (end.blocks[c].ToolCall? ==> end.blocks[c].partialJson.None?)
    {
      if c in t.pending {
        var k :| 0 <= k < |t.pending| && t.pending[k] == c;
        assert end.blocks[t.pending[k]] == Finished(t.blocks[t.pending[k]], args[k]);
      }
    }
  }

  // ---- Streams that fail ----------------------------------------------------------------------

  /** The events of a stream that fails and did not hold them back are those of some blocks, of which the
      text and thinking blocks survive: for each, one start, deltas of its kind and at most one end. */
  lemma {:induction false} FailedStreamsAreBracketed(env: Env, items: seq<Item>, aborted: bool)
    returns (blocks: seq<Block>)
    requires FinalizesAll(env) && forall i :: 0 <= i < |items| ==> Indexed(items[i])
    requires Stream(env, items, aborted, false).Failed?
    ensures var r := Stream(env, items, aborted, false);
      && r.content == Surviving(blocks)
      && (forall c :: 0 <= c < |blocks| ==> Traced(blocks[c], c, Project(r.events, c)))
      && (forall c :: c >= |blocks| ==> Project(r.events, c) == [])
  {
    var s := ReceiveAll(env, Initially, items).0;
    assert Inv(Initially);
    ReceiveAllKeeps(env, Initially, items);
    CloseFromKeeps(env, s, 0);
    var completed := ReceiveAll(env, Initially, items).1;
    blocks := if !completed || !s.sawMessageStop || aborted || s.stopFailed then s.blocks else CloseFrom(env, s, 0).blocks;
  }

  // ---- Exactly when tool calls end ----------------------------------------------------------

  predicate IsEndOf(e: Event, c: nat) {
    e.ToolEnd? && e.at == c
  }

  /** Exactly one event ends the tool call at `c`. */
  predicate EndsOnce(events: seq<Event>, c: nat) {
    exists k :: 0 <= k < |events| && IsEndOf(events[k], c) &&
      forall l :: 0 <= l < |events| && IsEndOf(events[l], c) ==> l == k
  }

  /** A finished message without scratch fields, whose tool calls were each ended once. */
  predicate Whole(content: seq<Block>, events: seq<Event>) {
    forall c :: 0 <= c < |content| ==>
      && content[c].index.None?
      && (content[c].ToolCall? ==> content[c].partialJson.None? && EndsOnce(events, c))
  }

  lemma EndsOnceAt(before: seq<Event>, blocks: seq<Block>, order: seq<nat>, c: nat)
    requires NoToolEnd(before) && Distinct(order) && c in order
    requires forall i :: 0 <= i < |order| ==> order[i] < |blocks|
    ensures EndsOnce(before + Ends(blocks, order), c)
  {
    var events := before + Ends(blocks, order);
    var k :| 0 <= k < |order| && order[k] == c;
    assert events[|before| + k] == Ends(blocks, order)[k];
    forall l | 0 <= l < |events| && IsEndOf(events[l], c) ensures l == |before| + k {
      if l >= |before| {
        assert events[l] == Ends(blocks, order)[l - |before|];
      }
    }
  }

  /** A tool call that no indexed event can reach. */
  predicate Leaks(s: State, c: nat) {
    && c < |s.blocks| && s.blocks[c].ToolCall? && s.blocks[c].index.None? && s.blocks[c].partialJson.Some?
    && c !in s.pending
  }

  lemma StopSparesLeak(env: Env, s: State, index: Option<int>, c: nat)
    requires Leaks(s, c) && index.Some?
    ensures Leaks(HandleStop(env, s, index), c)
  {
    hide Find;
  }

  lemma ReasoningSparesLeak(s: State, i: nat, index: Option<int>, r: Reasoning, c: nat)
    requires Leaks(s, c) && i < |s.blocks| && i != c
    ensures Leaks(AppendReasoning(s, i, index, r), c)
  {
  }

  lemma {:induction false} DeltaSparesLeak(s: State, index: Option<int>, d: Delta, c: nat)
    requires Leaks(s, c) && index.Some?
    ensures Leaks(HandleDelta(s, index, d), c)
  {
    hide Find;
    if d.text.Some? {
      assert Leaks(OpenText(s, index), c);
    } else if d.reasoning.Some? {
      assert Leaks(OpenThinking(s, index), c);
      ReasoningSparesLeak(OpenThinking(s, index), Find(s.blocks, index), index, d.reasoning.value, c);
    }
  }

  lemma {:induction false} ReceiveSparesLeak(env: Env, s: State, item: Item, c: nat)
    requires Leaks(s, c) && UpdateIndexed(item) && !Throws(item)
    ensures Leaks(Receive(env, s, item), c)
  {
    match item
    case BlockDelta(index, d) => DeltaSparesLeak(s, index, d, c);
    case BlockStop(index) => StopSparesLeak(env, s, index, c);
    case _ =>
  }

  lemma {:induction false} ReceiveAllSparesLeak(env: Env, s: State, items: seq<Item>, c: nat)
    requires Leaks(s, c) && forall i :: 0 <= i < |items| ==> UpdateIndexed(items[i])
    ensures Leaks(ReceiveAll(env, s, items).0, c)
    decreases |items|
  {
    if items != [] && !Throws(items[0]) {
      ReceiveSparesLeak(env, s, items[0], c);
      ReceiveAllSparesLeak(env, Receive(env, s, items[0]), items[1..], c);
    }
  }

  /** The first tool announced without an index leaks. */
  lemma {:induction false} UnindexedLeaks(env: Env, s: State, items: seq<Item>, j: nat) returns (c: nat)
    requires PendingInRange(s) && j < |items| && !ToolIndexed(items[j]) && ReceiveAll(env, s, items).1
    requires forall i :: 0 <= i < |items| ==> UpdateIndexed(items[i])
    ensures Leaks(ReceiveAll(env, s, items).0, c)
    decreases |items|
  {
    var next := Receive(env, s, items[0]);
    if j == 0 {
      c := |s.blocks|;
      ReceiveAllSparesLeak(env, next, items[1..], c);
    } else {
      ReceiveKeepsRange(env, s, items[0]);
      c := UnindexedLeaks(env, next, items[1..], j - 1);
    }
  }

  lemma {:induction false} CloseSparesLeak(env: Env, s: State, from_: nat, c: nat)
    requires Leaks(s, c) && from_ <= |s.blocks|
    ensures Leaks(CloseFrom(env, s, from_), c)
    decreases |s.blocks| - from_
  {
    if from_ < |s.blocks| {
      var b := s.blocks[from_];
      if b.index.Some? && !b.ToolCall? {
        StopSparesLeak(env, s, b.index, c);
        CloseSparesLeak(env, HandleStop(env, s, b.index), from_ + 1, c);
      } else {
        CloseSparesLeak(env, s, from_ + 1, c);
      }
    }
  }

  /** The event ends a tool call with these arguments and no scratch buffer. */
  predicate EndsWith(e: Event, args: Json) {
    e.ToolEnd? && e.toolCall.ToolCall? && e.toolCall.arguments == args && e.toolCall.partialJson.None?
  }

  /** The state in which a stream that passed its checks is flushed. */
  function BeforeFlush(env: Env, items: seq<Item>): State {
    CloseFrom(env, ReceiveAll(env, Initially, items).0, 0)
  }

  /** Ending the queued tool calls adds one end event for each, in order, and touches no other block. */
  lemma {:induction false} EndToolsFrame(s: State, order: seq<nat>, args: seq<Json>)
    requires |args| == |order|
    requires forall k :: 0 <= k < |order| ==> order[k] < |s.blocks| && s.blocks[order[k]].ToolCall?
    ensures var t := EndTools(s, order, args);
      && |t.blocks| == |s.blocks| && |t.events| == |s.events| + |order| && s.events <= t.events
      && (forall k :: 0 <= k < |order| ==>
            IsEndOf(t.events[|s.events| + k], order[k]) && EndsWith(t.events[|s.events| + k], args[k]))
      && (forall c :: 0 <= c < |s.blocks| && c !in order ==> t.blocks[c] == s.blocks[c])
      && (forall c :: 0 <= c < |s.blocks| ==>
            t.blocks[c].index == s.blocks[c].index && (t.blocks[c].ToolCall? <==> s.blocks[c].ToolCall?))
    decreases |order|
  {
    if order != [] {
      var b := s.blocks[order[0]].(arguments := args[0], partialJson := None);
      var s1 := Push(SetBlock(s, order[0], b), ToolEnd(order[0], b));
      EndToolsFrame(s1, order[1..], args[1..]);
      assert order == [order[0]] + order[1..];
      var t := EndTools(s, order, args);
      forall k | 0 <= k < |order|
        ensures IsEndOf(t.events[|s.events| + k], order[k]) && EndsWith(t.events[|s.events| + k], args[k])
      {
        if k == 0 {
          assert t.events[|s.events|] == s1.events[|s.events|];
        } else {
          assert order[k] == order[1..][k - 1] && args[k] == args[1..][k - 1];
          assert IsEndOf(t.events[|s1.events| + (k - 1)], order[1..][k - 1]);
        }
      }
    }
  }

  /** In any stream that ends in `done`, whatever its events carry, tool calls end after all other events,
      one event for each queued stop, with the arguments that the finalisation of the whole queue gave, and
      none is left open. */
  lemma {:induction false} ToolEndsComeLast(env: Env, items: seq<Item>, aborted: bool, buffered: bool)
    requires FinalizesAll(env) && Stream(env, items, aborted, buffered).Done?
    ensures var r, t := Stream(env, items, aborted, buffered), BeforeFlush(env, items);
      && PendingInRange(t) && NoToolEnd(t.events)
      && t.events <= r.events && |r.events| == |t.events| + |t.pending| && |r.content| == |t.blocks|
      && var args := env.finalize(Sources(t.blocks, t.pending));
      && args.Some? && |args.value| == |t.pending|
      && (forall k :: 0 <= k < |t.pending| ==>
            && IsEndOf(r.events[|t.events| + k], t.pending[k])
            && EndsWith(r.events[|t.events| + k], args.value[k])
            && r.content[t.pending[k]].ToolCall?)
      && (forall c :: 0 <= c < |r.content| && r.content[c].ToolCall? ==> r.content[c].index.None?)
  {
    var s := ReceiveAll(env, Initially, items).0;
    ReceiveAllKeepsRange(env, Initially, items);
    ReceiveAllEndsNoTool(env, Initially, items);
    CloseKeepsRange(env, s, 0);
    CloseEndsNoTool(env, s, 0);
    var t := BeforeFlush(env, items);
    EndToolsFrame(t, t.pending, env.finalize(Sources(t.blocks, t.pending)).value);
    var r := Stream(env, items, aborted, buffered);
    forall c | 0 <= c < |r.content| && r.content[c].ToolCall? ensures r.content[c].index.None? {
      assert t.blocks[c] in t.blocks;
    }
  }

  /** Where deltas and stops carry an index, a stream that ends in `done` leaves no scratch field and ends
      every tool call exactly once if and only if every announced tool call carries an index. */
  lemma WholeIffToolsIndexed(env: Env, items: seq<Item>, aborted: bool, buffered: bool)
    requires FinalizesAll(env) && forall i :: 0 <= i < |items| ==> UpdateIndexed(items[i])
    requires Stream(env, items, aborted, buffered).Done?
    ensures var r := Stream(env, items, aborted, buffered);
      Whole(r.content, r.events) <==> forall i :: 0 <= i < |items| ==> ToolIndexed(items[i])
  {
    var r := Stream(env, items, aborted, buffered);
    if forall i :: 0 <= i < |items| ==> ToolIndexed(items[i]) {
      DoneMessagesAreClean(env, items, aborted, buffered);
      var before, order, sources := ToolCallsEndTogether(env, items, aborted, buffered);
      forall c | 0 <= c < |r.content| && r.content[c].ToolCall? ensures EndsOnce(r.events, c) {
        EndsOnceAt(before, r.content, order, c);
      }
    } else {
      var j :| 0 <= j < |items| && !ToolIndexed(items[j]);
      LeakStays(env, items, aborted, buffered, j);
    }
  }

  lemma LeakStays(env: Env, items: seq<Item>, aborted: bool, buffered: bool, j: nat)
    requires FinalizesAll(env) && forall i :: 0 <= i < |items| ==> UpdateIndexed(items[i])
    requires Stream(env, items, aborted, buffered).Done? && j < |items| && !ToolIndexed(items[j])
    ensures var r := Stream(env, items, aborted, buffered);
      exists c :: 0 <= c < |r.content| && r.content[c].ToolCall? && r.content[c].partialJson.Some?
  {
    var s := ReceiveAll(env, Initially, items).0;
    var c := UnindexedLeaks(env, Initially, items, j);
    ReceiveAllKeepsRange(env, Initially, items);
    CloseKeepsRange(env, s, 0);
    CloseSparesLeak(env, s, 0, c);
    var t := CloseFrom(env, s, 0);
    EndToolsFrame(t, t.pending, env.finalize(Sources(t.blocks, t.pending)).value);
    assert Stream(env, items, aborted, buffered).content[c] == t.blocks[c];
  }

  /** Without an index: a tool call that nothing stops stays in the finished message with its scratch
      buffer and no end event. */
  lemma UnindexedToolCallLeaks(env: Env, tool: ToolUse)
    requires FinalizesAll(env) && env.finalize([]).Some?
    ensures var r := Stream(env, [BlockStart(None, Some(tool)), MessageStop(false)], false, false);
      && r.Done? && |r.content| == 1 && r.content[0].ToolCall? && r.content[0].partialJson == Some("")
      && NoToolEnd(r.events)
  {
    var items := [BlockStart(None, Some(tool)), MessageStop(false)];
    assert items[1..] == [MessageStop(false)];
    var s1 := Receive(env, Initially, items[0]);
    var s := Receive(env, s1, items[1]);
    assert items[1..][1..] == [];
    assert ReceiveAll(env, s, []) == (s, true);
    assert ReceiveAll(env, s1, items[1..]) == (s, true);
    assert ReceiveAll(env, Initially, items) == (s, true);
    assert CloseFrom(env, s, 1) == s;
    assert CloseFrom(env, s, 0) == s;
    assert Sources(s.blocks, s.pending) == [];
  }

  /** The other way round: a stop without an index finds a tool call without one, and ends it. */
  lemma UnindexedStopEnds(env: Env, tool: ToolUse)
    requires FinalizesAll(env) && env.finalize([Given(tool.input)]).Some?
    ensures var r := Stream(env, [BlockStart(None, Some(tool)), BlockStop(None), MessageStop(false)], false, false);
      r.Done? && |r.content| == 1 && r.content[0].ToolCall? && Whole(r.content, r.events)
  {
    var items := [BlockStart(None, Some(tool)), BlockStop(None), MessageStop(false)];
    var s1 := Receive(env, Initially, items[0]);
    var s2 := Receive(env, s1, items[1]);
    var s := Receive(env, s2, items[2]);
    assert items[1..] == [BlockStop(None), MessageStop(false)];
    assert items[1..][1..] == [MessageStop(false)] && items[1..][1..][1..] == [];
    assert ReceiveAll(env, s, []) == (s, true);
    assert ReceiveAll(env, s2, items[1..][1..]) == (s, true);
    assert ReceiveAll(env, s1, items[1..]) == (s, true);
    assert ReceiveAll(env, Initially, items) == (s, true);
    assert CloseFrom(env, s, 1) == s;
    assert CloseFrom(env, s, 0) == s;
    assert s.pending == [0] && Sources(s.blocks, s.pending) == [Given(tool.input)];
    var args := env.finalize([Given(tool.input)]).value;
    EndToolsResult(s, [0], args);
    var t := EndTools(s, [0], args);
    EndsOnceAt(s.events, t.blocks, [0], 0);
  }
}
