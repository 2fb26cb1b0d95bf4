/**
  The mutable side of `streamBedrock`: the block list, the pending tool calls and the event sink that
  the handlers update in place, and the loops around them.
*/
module BedrockMachine {
  import opened Options
  import opened BedrockStream

  class Machine {
    const env: Env
    var blocks: seq<Block>
    var pendingToolCallEnds: seq<nat>
    var redactedReasoningChunks: map<Option<int>, seq<seq<nat>>>
    var events: seq<Event>
    var sawMessageStop: bool
    var stopFailed: bool

    ghost function View(): State
      reads this
    {
      State(blocks, pendingToolCallEnds, redactedReasoningChunks, events, sawMessageStop, stopFailed)
    }

    constructor (env: Env)
      ensures this.env == env && View() == Initially
    {
      this.env := env;
      blocks, pendingToolCallEnds, redactedReasoningChunks, events := [], [], map[], [];
      sawMessageStop, stopFailed := false, false;
    }

    method Emit(e: Event)
      modifies this`events
      ensures View() == Push(old(View()), e)
    {
      events := events + [e];
    }

    method FindBlock(index: Option<int>) returns (i: nat)
      ensures i == Find(blocks, index)
    {
      i := 0;
      while i < |blocks| && blocks[i].index != index
        invariant i <= |blocks|
        invariant forall k :: 0 <= k < i ==> blocks[k].index != index
      {
        i := i + 1;
      }
    }

    method OnContentBlockStart(index: Option<int>, tool: Option<ToolUse>)
      modifies this
      ensures View() == HandleStart(old(View()), index, tool)
    {
      if tool.Some? {
        blocks := blocks + [ToolCall(tool.value.id, tool.value.name, tool.value.input, Some(""), index)];
        Emit(ToolStart(|blocks| - 1));
      }
    }

    method OnContentBlockDelta(index: Option<int>, d: Delta)
      modifies this
      ensures View() == HandleDelta(old(View()), index, d)
    {
      hide Find;
      var i := FindBlock(index);
      if d.text.Some? {
        if i == |blocks| {
          blocks := blocks + [Text("", index)];
          Emit(TextStart(i));
        }
        AddText(i, d.text.value);
      } else if d.toolUse.Some? && i < |blocks| && blocks[i].ToolCall? {
        var b := blocks[i];
        var json := (if b.partialJson.Some? then b.partialJson.value else "") + d.toolUse.value;
        var args := if d.preview.Some? then d.preview.value else b.arguments;
        blocks := blocks[i := b.(partialJson := Some(json), arguments := args)];
        Emit(ToolDelta(i, d.toolUse.value));
      } else if d.reasoning.Some? {
        if i == |blocks| {
          blocks := blocks + [Thinking("", "", false, index)];
          Emit(ThinkingStart(i));
        }
        AddReasoning(i, index, d.reasoning.value);
      }
    }

    method AddText(i: nat, text: string)
      requires i < |blocks|
      modifies this
      ensures View() == AppendText(old(View()), i, text)
    {
      if blocks[i].Text? {
        blocks := blocks[i := blocks[i].(text := blocks[i].text + text)];
        Emit(TextDelta(i, text));
      }
    }

    method AddReasoning(i: nat, index: Option<int>, r: Reasoning)
      requires i < |blocks|
      modifies this
      ensures View() == AppendReasoning(old(View()), i, index, r)
    {
      if blocks[i].Thinking? {
        if r.text != "" {
          blocks := blocks[i := blocks[i].(thinking := blocks[i].thinking + r.text)];
          Emit(ThinkingDelta(i, r.text));
        }
        blocks := blocks[i := blocks[i].(signature := blocks[i].signature + r.signature)];
        if r.redacted.Some? {
          var chunks := if index in redactedReasoningChunks then redactedReasoningChunks[index] else [];
          redactedReasoningChunks := redactedReasoningChunks[index := chunks + [r.redacted.value]];
          blocks := blocks[i := blocks[i].(thinking := REDACTED, redacted := true)];
        }
      }
    }

    method OnContentBlockStop(index: Option<int>)
      modifies this
      ensures View() == HandleStop(env, old(View()), index)
    {
      hide Find;
      var i := FindBlock(index);
      if i == |blocks| {
        return;
      }
      var b := blocks[i];
      match b {
        case Text(text, _) =>
          blocks := blocks[i := Closed(b)];
          Emit(TextEnd(i, text));
        case Thinking(thinking, signature, redacted, _) =>
          var sealed := signature;
          if redacted && index in redactedReasoningChunks {
            sealed := env.encode(Flatten(redactedReasoningChunks[index]));
            redactedReasoningChunks := redactedReasoningChunks - {index};
          }
          blocks := blocks[i := Thinking(thinking, sealed, redacted, None)];
          Emit(ThinkingEnd(i, thinking));
        case ToolCall(_, _, _, _, _) =>
          blocks := blocks[i := Closed(b)];
          pendingToolCallEnds := pendingToolCallEnds + [i];
      }
    }

    /** Stops the text and thinking blocks whose stop event never came. */
    method CloseOpenBlocks()
      modifies this
      ensures View() == CloseFrom(env, old(View()), 0)
    {
      hide HandleStop;
      var c := 0;
      while c < |blocks|
        invariant c <= |blocks| && |blocks| == |old(blocks)|
        invariant CloseFrom(env, View(), c) == CloseFrom(env, old(View()), 0)
        decreases |old(blocks)| - c
      {
        var b := blocks[c];
        StopKeepsLength(env, View(), b.index);
        if b.index.Some? && !b.ToolCall? {
          OnContentBlockStop(b.index);
        }
        c := c + 1;
      }
    }

    /** `flushPendingBedrockToolCalls`: reports whether it went through. */
    method FlushPendingToolCalls() returns (ok: bool)
      requires PendingInRange(View()) && FinalizesAll(env)
      modifies this
      ensures ok == Flush(env, old(View())).Some?
      ensures ok ==> View() == Flush(env, old(View())).value
      ensures !ok ==> View() == old(View())
    {
      if exists b :: b in blocks && b.ToolCall? && b.index.Some? {
        return false;
      }
      var args := env.finalize(Sources(blocks, pendingToolCallEnds));
      if args.None? {
        return false;
      }
      var k := 0;
      ghost var target := EndTools(View(), pendingToolCallEnds, args.value);
      while k < |pendingToolCallEnds|
        invariant k <= |pendingToolCallEnds| == |args.value| && pendingToolCallEnds == old(pendingToolCallEnds)
        invariant PendingInRange(View())
        invariant EndTools(View(), pendingToolCallEnds[k..], args.value[k..]) == target
      {
        var i := pendingToolCallEnds[k];
        assert pendingToolCallEnds[k..][1..] == pendingToolCallEnds[k + 1..];
        assert args.value[k..][1..] == args.value[k + 1..];
        blocks := blocks[i := blocks[i].(arguments := args.value[k], partialJson := None)];
        Emit(ToolEnd(i, blocks[i]));
        k := k + 1;
      }
      return true;
    }

    /** The event loop, the checks after it and the clean-up of a failure. */
    method Process(items: seq<Item>, aborted: bool, buffered: bool) returns (r: Result)
      requires View() == Initially && FinalizesAll(env)
      modifies this
      ensures r == Stream(env, items, aborted, buffered)
    {
      hide Receive, CloseFrom, Flush;
      var n := 0;
      while n < |items|
        invariant n <= |items| && PendingInRange(View())
        invariant ReceiveAll(env, View(), items[n..]) == ReceiveAll(env, Initially, items)
      {
        var item := items[n];
        assert items[n..][0] == item && items[n..][1..] == items[n + 1..];
        if Throws(item) {
          r := CleanUpFailure(buffered);
          return;
        }
        ReceiveKeepsRange(env, View(), item);
        ReceiveItem(item);
        n := n + 1;
      }
      if !sawMessageStop || aborted || stopFailed {
        r := CleanUpFailure(buffered);
        return;
      }
      CloseKeepsRange(env, View(), 0);
      CloseOpenBlocks();
      var ok := FlushPendingToolCalls();
      if ok {
        return Done(blocks, events);
      }
      r := CleanUpFailure(buffered);
    }

    /** Drops the tool calls and the scratch fields of what survives a failure. */
    method CleanUpFailure(buffered: bool) returns (r: Result)
      ensures r == Fail(View(), buffered)
    {
      if buffered {
        return Failed([], []);
      }
      var content: seq<Block> := [];
      var k := 0;
      while k < |blocks|
        invariant k <= |blocks|
        invariant content + Surviving(blocks[k..]) == Surviving(blocks)
      {
        assert blocks[k..][0] == blocks[k] && blocks[k..][1..] == blocks[k + 1..];
        if !blocks[k].ToolCall? {
          content := content + [Stripped(blocks[k])];
        }
        k := k + 1;
      }
      assert blocks[k..] == [];
      return Failed(content, events);
    }

    method ReceiveItem(item: Item)
      requires !Throws(item)
      modifies this
      ensures View() == Receive(env, old(View()), item)
    {
      match item {
        case MessageStart(_) => Emit(MessageStarted);
        case BlockStart(index, tool) => OnContentBlockStart(index, tool);
        case BlockDelta(index, d) => OnContentBlockDelta(index, d);
        case BlockStop(index) => OnContentBlockStop(index);
        case MessageStop(failed) => sawMessageStop, stopFailed := true, failed;
        case Metadata =>
      }
    }
  }

  lemma StopKeepsLength(env: Env, s: State, index: Option<int>)
    ensures |HandleStop(env, s, index).blocks| == |s.blocks|
  {
  }
}
