/**
  What a stream was told, read off the received items alone: which items open a block, and what each block
  hears from its opening to its stop. The machine's content is exactly that.
*/
module BedrockHeard {
  import opened Options
  import opened BedrockStream
  import opened BedrockRuns

  // ---- Openings -------------------------------------------------------------------------------

  predicate StartsTool(item: Item, i: int) {
    item.BlockStart? && item.tool.Some? && item.index == Some(i)
  }

  predicate Tells(item: Item, i: int) {
    item.BlockDelta? && item.index == Some(i) && (item.delta.text.Some? || item.delta.reasoning.Some?)
  }

  predicate Stops(item: Item, i: int) {
    item.BlockStop? && item.index == Some(i)
  }

  /** How many blocks with provider index `i` are open after the first `n` items. */
  function OpenCount(items: seq<Item>, i: int, n: nat): nat
    requires n <= |items|
    decreases n
  {
    if n == 0 then 0
    else
      var before, item := OpenCount(items, i, n - 1), items[n - 1];
      if StartsTool(item, i) then before + 1
      else if Tells(item, i) && before == 0 then 1
      else if Stops(item, i) && before > 0 then before - 1
      else before
  }

  /** The provider index of an item that names one. */
  function IndexOf(item: Item): int {
    if (item.BlockStart? || item.BlockDelta? || item.BlockStop?) && item.index.Some? then item.index.value else 0
  }

  /** The item opens a block: it starts a tool call, or tells something where nothing is open. */
  predicate Opens(items: seq<Item>, k: nat) {
    && k < |items|
    && var i := IndexOf(items[k]);
    StartsTool(items[k], i) || (Tells(items[k], i) && OpenCount(items, i, k) == 0)
  }

  // ---- What is heard --------------------------------------------------------------------------

  /** `ahead` counts the earlier blocks with the same index that are still open. */
  datatype Heard = Heard(
    text: string, thinking: string, signature: string, redacted: bool, bytes: seq<nat>,
    json: string, preview: Option<Json>, ahead: nat, stopped: bool)

  function Waiting(ahead: nat): Heard {
    Heard("", "", "", false, [], "", None, ahead, false)
  }

  const Nothing := Waiting(0)

  function HearReasoning(h: Heard, r: Reasoning): Heard {
    h.(thinking := if r.redacted.Some? then "[Reasoning redacted]" else h.thinking + r.text,
       signature := h.signature + r.signature,
       redacted := h.redacted || r.redacted.Some?,
       bytes := if r.redacted.Some? then h.bytes + r.redacted.value else h.bytes)
  }

  /** One delta: its text or, without text, its tool input and its reasoning. */
  function Hear(h: Heard, d: Delta): Heard {
    if d.text.Some? then h.(text := h.text + d.text.value)
    else
      var h1 :=
        if d.toolUse.Some?
        then h.(json := h.json + d.toolUse.value, preview := if d.preview.Some? then d.preview else h.preview)
        else h;
      if d.reasoning.Some? then HearReasoning(h1, d.reasoning.value) else h1
  }

  /** What the block opened by item `o` has heard after the first `n` items: every delta with its provider
      index, from the opening itself up to the first stop with that index. A tool call started while other
      blocks with its index are open waits until that many stops have closed them. */
  function HeardBy(items: seq<Item>, o: nat, n: nat): Heard
    requires o < n <= |items|
    decreases n
  {
    var item, i := items[n - 1], IndexOf(items[o]);
    if n == o + 1 then
      var h := Waiting(OpenCount(items, i, o));
      if item.BlockDelta? then Hear(h, item.delta) else h
    else
      var before := HeardBy(items, o, n - 1);
      if before.stopped then before
      else if Stops(item, i) then
        if before.ahead > 0 then before.(ahead := before.ahead - 1) else before.(stopped := true)
      else if item.BlockDelta? && item.index == Some(i) && before.ahead == 0 then Hear(before, item.delta)
      else before
  }

  // ---- Blocks and what they heard ---------------------------------------------------------------

  type Chunks = map<Option<int>, seq<seq<nat>>>

  /** An open block of reasoning keeps its redacted chunks aside until it is stopped. */
  predicate KeepsChunks(h: Heard, i: int, chunks: Chunks) {
    if h.redacted then Some(i) in chunks && Flatten(chunks[Some(i)]) == h.bytes else Some(i) !in chunks
  }

  predicate TextSays(b: Block, item: Item, h: Heard) {
    b.Text? && item.BlockDelta? && item.delta.text.Some? && b.text == h.text && h.ahead == 0
  }

  predicate ThinkingSays(env: Env, b: Block, item: Item, h: Heard) {
    && b.Thinking? && item.BlockDelta? && item.delta.text.None? && item.delta.reasoning.Some?
    && b.thinking == h.thinking && b.redacted == h.redacted && h.ahead == 0
    && b.signature == if h.stopped && h.redacted then env.encode(h.bytes) else h.signature
  }

  predicate ToolSays(b: Block, item: Item, h: Heard) {
    && b.ToolCall? && item.BlockStart? && item.tool.Some?
    && b.id == item.tool.value.id && b.name == item.tool.value.name
    && b.partialJson == Some(h.json)
    && b.arguments == if h.preview.Some? then h.preview.value else item.tool.value.input
  }

  /** The block is what it heard since item `o` opened it. */
  predicate Says(env: Env, items: seq<Item>, n: nat, b: Block, o: nat, chunks: Chunks)
    requires o < n <= |items|
  {
    var i, h := IndexOf(items[o]), HeardBy(items, o, n);
    && b.index == (if h.stopped then None else Some(i))
    && (|| TextSays(b, items[o], h)
        || (ThinkingSays(env, b, items[o], h) && (!h.stopped ==> KeepsChunks(h, i, chunks)))
        || ToolSays(b, items[o], h))
  }

  function Count(blocks: seq<Block>, i: int): nat {
    if blocks == [] then 0 else (if blocks[0].index == Some(i) then 1 else 0) + Count(blocks[1..], i)
  }

  /** The openings among the first `n` items, in order. */
  ghost predicate Openings(items: seq<Item>, n: nat, op: seq<nat>) {
    && n <= |items|
    && (forall c :: 0 <= c < |op| ==> op[c] < n && Opens(items, op[c]))
    && (forall b, c :: 0 <= b < c < |op| ==> op[b] < op[c])
    && (forall k :: 0 <= k < n && Opens(items, k) ==> k in op)
  }

  /** An open block waits for the earlier open blocks with its index. */
  predicate Queued(items: seq<Item>, n: nat, blocks: seq<Block>, op: seq<nat>)
    requires n <= |items| && |op| == |blocks| && forall c :: 0 <= c < |op| ==> op[c] < n
  {
    forall c :: 0 <= c < |blocks| && blocks[c].index.Some? ==>
      HeardBy(items, op[c], n).ahead == Count(blocks[..c], blocks[c].index.value)
  }

  predicate Owned(blocks: seq<Block>, key: Option<int>) {
    exists c :: 0 <= c < |blocks| && blocks[c].Thinking? && blocks[c].redacted && blocks[c].index == key
  }

  /** Redacted chunks are kept for open blocks of redacted reasoning only. */
  predicate ChunksOwned(s: State) {
    forall key :: key in s.redactedChunks ==>
      key.Some? && Owned(s.blocks, key)
  }

  ghost predicate Linked(env: Env, items: seq<Item>, n: nat, s: State, op: seq<nat>) {
    && Openings(items, n, op) && |op| == |s.blocks|
    && (forall c :: 0 <= c < |op| ==> Says(env, items, n, s.blocks[c], op[c], s.redactedChunks))
    && (forall i :: Count(s.blocks, i) == OpenCount(items, i, n))
    && Queued(items, n, s.blocks, op)
    && ChunksOwned(s)
  }

  // ---- Counting -------------------------------------------------------------------------------

  lemma {:induction false} CountAppend(blocks: seq<Block>, b: Block, i: int)
    ensures Count(blocks + [b], i) == Count(blocks, i) + if b.index == Some(i) then 1 else 0
  {
    if blocks == [] {
      assert [] + [b] == [b] && [b][1..] == [];
    } else {
      CountAppend(blocks[1..], b, i);
      assert (blocks + [b])[1..] == blocks[1..] + [b];
    }
  }

  lemma {:induction false} CountUpdate(blocks: seq<Block>, c: nat, b: Block, i: int)
    requires c < |blocks|
    ensures Count(blocks[c := b], i) + (if blocks[c].index == Some(i) then 1 else 0)
         == Count(blocks, i) + if b.index == Some(i) then 1 else 0
  {
    if c == 0 {
      assert blocks[0 := b][1..] == blocks[1..];
    } else {
      CountUpdate(blocks[1..], c - 1, b, i);
      assert blocks[c := b][1..] == blocks[1..][c - 1 := b];
    }
  }

  lemma {:induction false} FindCounts(blocks: seq<Block>, i: int)
    ensures Find(blocks, Some(i)) == |blocks| <==> Count(blocks, i) == 0
  {
    if blocks != [] {
      FindCounts(blocks[1..], i);
    }
  }

  lemma {:induction false} CountBefore(blocks: seq<Block>, c: nat, i: int)
    requires c <= |blocks|
    ensures Count(blocks[..c], i) == 0 <==> c <= Find(blocks, Some(i))
  {
    if c > 0 {
      CountBefore(blocks[1..], c - 1, i);
      assert blocks[..c][1..] == blocks[1..][..c - 1];
    }
  }

  // ---- What one more item tells -----------------------------------------------------------------

  /** An item that is not for the open block `b` opened by `o` tells it nothing; a stop for a block ahead of it
      moves it up. */
  ghost predicate Spared(items: seq<Item>, n: nat, b: Block, o: nat) {
    && o < n < |items|
    && var h, next := HeardBy(items, o, n), HeardBy(items, o, n + 1);
    if items[n].BlockStop? && b.index.Some? && b.index == items[n].index then h.ahead > 0 && next == h.(ahead := h.ahead - 1)
    else next == h
  }

  /** A block keeps saying what it heard when an item concerns others, and the chunks of its index stay. */
  lemma {:induction false} SaysElsewhere(
    env: Env, items: seq<Item>, n: nat, b: Block, o: nat, chunks: Chunks, chunks': Chunks)
    requires o < n < |items| && Says(env, items, n, b, o, chunks) && Spared(items, n, b, o)
    requires var key := Some(IndexOf(items[o]));
      b.index.Some? && b.Thinking? ==>
        (key in chunks <==> key in chunks') && (key in chunks ==> chunks[key] == chunks'[key])
    ensures Says(env, items, n + 1, b, o, chunks')
  {
    hide HeardBy, OpenCount;
  }

  /** A block other than the one that the item finds hears nothing new. */
  lemma {:induction false} OthersHearNothing(env: Env, items: seq<Item>, n: nat, s: State, op: seq<nat>, c: nat)
    requires Linked(env, items, n, s, op) && n < |items| && c < |op|
    requires items[n].BlockStop? || items[n].BlockDelta? ==> items[n].index.Some? && c != Find(s.blocks, items[n].index)
    ensures Spared(items, n, s.blocks[c], op[c])
  {
    hide OpenCount, Count, ChunksOwned, Opens, TextSays, ThinkingSays, ToolSays, KeepsChunks, Find;
    assert Says(env, items, n, s.blocks[c], op[c], s.redactedChunks);
    if items[n].BlockStop? || items[n].BlockDelta? {
      CountBefore(s.blocks, c, items[n].index.value);
    }
  }

  /** The item changes no block. */
  lemma {:induction false} LinkSilent(env: Env, items: seq<Item>, n: nat, s: State, s': State, op: seq<nat>)
    requires Linked(env, items, n, s, op) && n < |items| && !Opens(items, n)
    requires s'.blocks == s.blocks && s'.redactedChunks == s.redactedChunks
    requires forall c :: 0 <= c < |op| ==> Spared(items, n, s.blocks[c], op[c])
    requires items[n].BlockStop? ==> items[n].index.Some? && Find(s.blocks, items[n].index) == |s.blocks|
    requires forall i :: OpenCount(items, i, n + 1) == OpenCount(items, i, n)
    ensures Linked(env, items, n + 1, s', op)
  {
    hide OpenCount, HeardBy, Count, Opens, Says, Find;
    forall c | 0 <= c < |op| ensures Says(env, items, n + 1, s'.blocks[c], op[c], s'.redactedChunks) {
      SaysElsewhere(env, items, n, s.blocks[c], op[c], s.redactedChunks, s'.redactedChunks);
    }
  }

  /** The item changes the block at `f`, the first with the index of the item: a stop takes its index away. */
  ghost predicate Updates(items: seq<Item>, n: nat, s: State, s': State, f: nat) {
    && n < |items| && (items[n].BlockStop? || items[n].BlockDelta?) && items[n].index.Some?
    && f == Find(s.blocks, items[n].index) < |s.blocks| == |s'.blocks|
    && s'.blocks == s.blocks[f := s'.blocks[f]]
    && s'.blocks[f].index == (if items[n].BlockStop? then None else items[n].index)
    && (forall key :: key != items[n].index ==>
          (key in s.redactedChunks <==> key in s'.redactedChunks)
          && (key in s.redactedChunks ==> s.redactedChunks[key] == s'.redactedChunks[key]))
  }

  lemma {:induction false} LinkUpdate(
    env: Env, items: seq<Item>, n: nat, s: State, s': State, op: seq<nat>, f: nat)
    requires Linked(env, items, n, s, op) && !Opens(items, n) && Updates(items, n, s, s', f)
    requires forall c :: 0 <= c < |op| && c != f ==> Spared(items, n, s.blocks[c], op[c])
    requires op[f] < n && Says(env, items, n + 1, s'.blocks[f], op[f], s'.redactedChunks)
    requires HeardBy(items, op[f], n + 1).ahead == HeardBy(items, op[f], n).ahead
    requires forall i :: OpenCount(items, i, n + 1) + (if s.blocks[f].index == Some(i) then 1 else 0)
                      == OpenCount(items, i, n) + (if s'.blocks[f].index == Some(i) then 1 else 0)
    requires ChunksOwned(s')
    ensures Linked(env, items, n + 1, s', op)
  {
    hide OpenCount, HeardBy, Count, Opens, TextSays, ThinkingSays, ToolSays, ChunksOwned, Spared, Find;
    forall c | 0 <= c < |op| ensures Says(env, items, n + 1, s'.blocks[c], op[c], s'.redactedChunks) {
      if c != f {
        UpdateSparesOther(env, items, n, s, s', op, f, c);
      }
    }
    forall i ensures Count(s'.blocks, i) == OpenCount(items, i, n + 1) {
      CountUpdate(s.blocks, f, s'.blocks[f], i);
    }
    assert Queued(items, n + 1, s'.blocks, op) by {
      hide Says;
      forall c | 0 <= c < |op| && s'.blocks[c].index.Some?
        ensures HeardBy(items, op[c], n + 1).ahead == Count(s'.blocks[..c], s'.blocks[c].index.value)
      {
        UpdateMovesUp(items, n, s, s', op, f, c);
      }
    }
  }

  lemma {:induction false} UpdateMovesUp(
    items: seq<Item>, n: nat, s: State, s': State, op: seq<nat>, f: nat, c: nat)
    requires Updates(items, n, s, s', f) && c < |op| == |s.blocks| && (forall b :: 0 <= b < |op| ==> op[b] < n)
    requires Queued(items, n, s.blocks, op) && s'.blocks[c].index.Some?
    requires if c == f then HeardBy(items, op[c], n + 1).ahead == HeardBy(items, op[c], n).ahead
             else Spared(items, n, s.blocks[c], op[c])
    ensures HeardBy(items, op[c], n + 1).ahead == Count(s'.blocks[..c], s'.blocks[c].index.value)
  {
    hide HeardBy, Count, Find;
    var i := s'.blocks[c].index.value;
    if c <= f {
      assert s'.blocks[..c] == s.blocks[..c];
    } else {
      assert s'.blocks[..c] == s.blocks[..c][f := s'.blocks[f]];
      CountUpdate(s.blocks[..c], f, s'.blocks[f], i);
    }
  }

  lemma {:induction false} UpdateSparesOther(
    env: Env, items: seq<Item>, n: nat, s: State, s': State, op: seq<nat>, f: nat, c: nat)
    requires Linked(env, items, n, s, op) && c < |op| && c != f && Updates(items, n, s, s', f)
    requires Spared(items, n, s.blocks[c], op[c])
    ensures Says(env, items, n + 1, s.blocks[c], op[c], s'.redactedChunks)
  {
    hide OpenCount, HeardBy, Count, Opens, TextSays, ToolSays, ChunksOwned, Spared, Find;
    assert Says(env, items, n, s.blocks[c], op[c], s.redactedChunks);
    CountBefore(s.blocks, c, items[n].index.value);
    SaysKinds(env, s.blocks[c], items[op[c]], HeardBy(items, op[c], n));
    SaysElsewhere(env, items, n, s.blocks[c], op[c], s.redactedChunks, s'.redactedChunks);
  }

  /** The item opens a block. */
  lemma {:induction false} LinkAppend(env: Env, items: seq<Item>, n: nat, s: State, s': State, op: seq<nat>)
    requires Linked(env, items, n, s, op) && n < |items| && Opens(items, n) && !items[n].BlockStop?
    requires |s'.blocks| == |s.blocks| + 1 && s'.blocks[..|s.blocks|] == s.blocks
    requires s'.blocks[|s.blocks|].index == Some(IndexOf(items[n]))
    requires forall c :: 0 <= c < |op| ==> Spared(items, n, s.blocks[c], op[c])
    requires Says(env, items, n + 1, s'.blocks[|s.blocks|], n, s'.redactedChunks)
    requires HeardBy(items, n, n + 1).ahead == OpenCount(items, IndexOf(items[n]), n)
    requires forall key :: key in s.redactedChunks ==>
      key in s'.redactedChunks && s'.redactedChunks[key] == s.redactedChunks[key]
    requires forall key :: key in s'.redactedChunks && key !in s.redactedChunks ==>
      OpenCount(items, IndexOf(items[n]), n) == 0 && key == Some(IndexOf(items[n]))
    requires forall i :: OpenCount(items, i, n + 1) == OpenCount(items, i, n) + (if i == IndexOf(items[n]) then 1 else 0)
    requires ChunksOwned(s')
    ensures Linked(env, items, n + 1, s', op + [n])
  {
    hide OpenCount, HeardBy, Count, Opens, TextSays, ThinkingSays, ToolSays, ChunksOwned, Find, Spared;
    var i0, b := IndexOf(items[n]), s'.blocks[|s.blocks|];
    var op' := op + [n];
    assert s'.blocks == s.blocks + [b];
    forall i ensures Count(s'.blocks, i) == OpenCount(items, i, n + 1) {
      CountAppend(s.blocks, b, i);
    }
    FindCounts(s.blocks, i0);
    forall c | 0 <= c < |op'| ensures Says(env, items, n + 1, s'.blocks[c], op'[c], s'.redactedChunks) {
      if c < |op| {
        assert Says(env, items, n, s.blocks[c], op[c], s.redactedChunks);
        SaysElsewhere(env, items, n, s.blocks[c], op[c], s.redactedChunks, s'.redactedChunks);
      }
    }
    assert Queued(items, n + 1, s'.blocks, op') by {
      hide Says;
      AppendQueues(items, n, s, s', op);
    }
  }

  lemma {:induction false} AppendQueues(items: seq<Item>, n: nat, s: State, s': State, op: seq<nat>)
    requires n < |items| && |op| == |s.blocks| && (forall c :: 0 <= c < |op| ==> op[c] < n)
    requires Queued(items, n, s.blocks, op) && !items[n].BlockStop?
    requires |s'.blocks| == |s.blocks| + 1 && s'.blocks[..|s.blocks|] == s.blocks
    requires s'.blocks[|s.blocks|].index == Some(IndexOf(items[n]))
    requires forall c :: 0 <= c < |op| ==> Spared(items, n, s.blocks[c], op[c])
    requires HeardBy(items, n, n + 1).ahead == Count(s.blocks, IndexOf(items[n]))
    ensures Queued(items, n + 1, s'.blocks, op + [n])
  {
    hide HeardBy, Count;
    var op' := op + [n];
    forall c | 0 <= c < |op'| && s'.blocks[c].index.Some?
      ensures HeardBy(items, op'[c], n + 1).ahead == Count(s'.blocks[..c], s'.blocks[c].index.value)
    {
      if c < |op| {
        assert s'.blocks[c] == s.blocks[c] && s'.blocks[..c] == s.blocks[..c];
        assert Spared(items, n, s.blocks[c], op[c]);
      }
    }
  }

  // ---- One item -------------------------------------------------------------------------------

  /** Every block but the one that the item finds, if it finds one, hears nothing new. */
  lemma {:induction false} AllOthers(env: Env, items: seq<Item>, n: nat, s: State, op: seq<nat>, f: nat)
    requires Linked(env, items, n, s, op) && n < |items|
    requires items[n].BlockStop? || items[n].BlockDelta? ==> items[n].index.Some? && f == Find(s.blocks, items[n].index)
    ensures forall c :: 0 <= c < |op| && c != f ==> Spared(items, n, s.blocks[c], op[c])
  {
    forall c | 0 <= c < |op| && c != f ensures Spared(items, n, s.blocks[c], op[c]) {
      OthersHearNothing(env, items, n, s, op, c);
    }
  }

  predicate Named(item: Item) {
    item.BlockStart? || item.BlockDelta? || item.BlockStop?
  }

  /** An item that names no block changes none. */
  lemma {:induction false} LinkUnnamed(env: Env, items: seq<Item>, n: nat, s: State, op: seq<nat>)
    requires Linked(env, items, n, s, op) && n < |items| && !Throws(items[n])
    requires !Named(items[n]) || (items[n].BlockStart? && items[n].tool.None?)
    ensures Linked(env, items, n + 1, Receive(env, s, items[n]), op)
  {
    hide Says, HeardBy, Linked, Spared;
    LinkedBasics(env, items, n, s, op);
    AllOthers(env, items, n, s, op, |op|);
    LinkSilent(env, items, n, s, Receive(env, s, items[n]), op);
  }

  lemma LinkedBasics(env: Env, items: seq<Item>, n: nat, s: State, op: seq<nat>)
    requires Linked(env, items, n, s, op)
    ensures |op| == |s.blocks| && ChunksOwned(s) && Openings(items, n, op)
    ensures forall i :: Count(s.blocks, i) == OpenCount(items, i, n)
  {
    hide Says, Openings, Count, OpenCount, ChunksOwned, Queued;
  }

  lemma {:induction false} LinkTool(env: Env, items: seq<Item>, n: nat, s: State, op: seq<nat>)
    requires Linked(env, items, n, s, op) && n < |items|
    requires items[n].BlockStart? && items[n].tool.Some? && items[n].index.Some?
    ensures Linked(env, items, n + 1, Receive(env, s, items[n]), op + [n])
  {
    hide Says, Linked, Spared;
    LinkedBasics(env, items, n, s, op);
    AllOthers(env, items, n, s, op, |op|);
    var s' := Receive(env, s, items[n]);
    var b := s'.blocks[|s.blocks|];
    assert HeardBy(items, n, n + 1) == Waiting(OpenCount(items, IndexOf(items[n]), n));
    ToolSaysNothing(env, items, n, b, s'.redactedChunks);
    ChunksStay(s, s');
    LinkAppend(env, items, n, s, s', op);
  }

  lemma {:induction false} ToolSaysNothing(
    env: Env, items: seq<Item>, n: nat, b: Block, chunks: Chunks)
    requires n < |items| && items[n].BlockStart? && items[n].tool.Some? && items[n].index.Some?
    requires var u := items[n].tool.value; b == ToolCall(u.id, u.name, u.input, Some(""), items[n].index)
    ensures Says(env, items, n + 1, b, n, chunks)
  {
    hide OpenCount;
    assert HeardBy(items, n, n + 1) == Waiting(OpenCount(items, IndexOf(items[n]), n));
  }

  /** Blocks that stay and may be followed by another keep their chunks owned. */
  lemma {:induction false} ChunksStay(s: State, s': State)
    requires ChunksOwned(s) && s.blocks <= s'.blocks && s'.redactedChunks == s.redactedChunks
    ensures ChunksOwned(s')
  {
    forall key | key in s'.redactedChunks
      ensures key.Some? && Owned(s'.blocks, key)
    {
      var c :| 0 <= c < |s.blocks| && s.blocks[c].Thinking? && s.blocks[c].redacted && s.blocks[c].index == key;
      assert s'.blocks[c] == s.blocks[c];
    }
  }

  /** Where nothing is open with an index, no chunks are kept for it. */
  lemma {:induction false} NothingOpenNoChunks(s: State, i: int)
    requires ChunksOwned(s) && Find(s.blocks, Some(i)) == |s.blocks|
    ensures Some(i) !in s.redactedChunks
  {
    hide Find;
  }

  // ---- Stops ----------------------------------------------------------------------------------

  lemma {:induction false} LinkStop(env: Env, items: seq<Item>, n: nat, s: State, op: seq<nat>)
    requires Linked(env, items, n, s, op) && n < |items| && items[n].BlockStop? && items[n].index.Some?
    ensures Linked(env, items, n + 1, Receive(env, s, items[n]), op)
  {
    hide Says, HeardBy, Linked, Find, ChunksOwned, HandleStop, Spared;
    LinkedBasics(env, items, n, s, op);
    var i := items[n].index.value;
    var f := Find(s.blocks, Some(i));
    var s' := HandleStop(env, s, Some(i));
    AllOthers(env, items, n, s, op, f);
    FindCounts(s.blocks, i);
    if f == |s.blocks| {
      StopNothing(env, s, Some(i));
      LinkSilent(env, items, n, s, s', op);
    } else {
      StoppedBlock(env, s, i, f);
      StoppedSays(env, items, n, s, op, f, s'.redactedChunks);
      FoundOwnsChunks(env, items, n, s, op, i, f);
      StopKeepsChunks(env, s, i, f);
      LinkUpdate(env, items, n, s, s', op, f);
    }
  }

  lemma StopNothing(env: Env, s: State, index: Option<int>)
    requires Find(s.blocks, index) == |s.blocks|
    ensures HandleStop(env, s, index) == s
  {
  }

  /** What a stop leaves of the block that it finds. */
  function Sealed(env: Env, b: Block, chunks: Chunks): Block {
    match b
    case Text(text, _) => Text(text, None)
    case Thinking(thinking, signature, redacted, index) =>
      var sealed := if redacted && index in chunks then env.encode(Flatten(chunks[index])) else signature;
      Thinking(thinking, sealed, redacted, None)
    case ToolCall(id, name, arguments, partialJson, _) => ToolCall(id, name, arguments, partialJson, None)
  }

  lemma {:induction false} StoppedBlock(env: Env, s: State, i: int, f: nat)
    requires f == Find(s.blocks, Some(i)) < |s.blocks|
    ensures var s' := HandleStop(env, s, Some(i));
      && s.blocks[f].index == Some(i)
      && s'.blocks == s.blocks[f := Sealed(env, s.blocks[f], s.redactedChunks)]
      && (s'.redactedChunks == if s.blocks[f].Thinking? && s.blocks[f].redacted && Some(i) in s.redactedChunks
                               then s.redactedChunks - {Some(i)} else s.redactedChunks)
  {
    hide Find;
  }

  lemma {:induction false} StoppedSays(
    env: Env, items: seq<Item>, n: nat, s: State, op: seq<nat>, f: nat, chunks: Chunks)
    requires Linked(env, items, n, s, op) && n < |items| && f < |op| && items[n].BlockStop?
    requires s.blocks[f].index.Some? && items[n].index == s.blocks[f].index
    requires f == Find(s.blocks, items[n].index)
    ensures op[f] < n && HeardBy(items, op[f], n + 1).ahead == HeardBy(items, op[f], n).ahead
    ensures Says(env, items, n + 1, Sealed(env, s.blocks[f], s.redactedChunks), op[f], chunks)
  {
    assert Says(env, items, n, s.blocks[f], op[f], s.redactedChunks);
    FoundIsFirst(env, items, n, s, op, f);
    hide Linked, OpenCount, Find;
    var h := HeardBy(items, op[f], n);
    assert !h.stopped && items[n].index == Some(IndexOf(items[op[f]]));
    assert HeardBy(items, op[f], n + 1) == h.(stopped := true);
    hide HeardBy;
  }

  /** The block that an index finds waits for no other. */
  lemma {:induction false} FoundIsFirst(env: Env, items: seq<Item>, n: nat, s: State, op: seq<nat>, f: nat)
    requires Linked(env, items, n, s, op) && f < |s.blocks| && s.blocks[f].index.Some?
    requires f == Find(s.blocks, s.blocks[f].index)
    ensures op[f] < n && HeardBy(items, op[f], n).ahead == 0
  {
    hide HeardBy, OpenCount, Count, Says, Find, ChunksOwned;
    CountBefore(s.blocks, f, s.blocks[f].index.value);
  }

  /** Chunks are kept for the block that a stop or a delta finds, or for none. */
  lemma {:induction false} FoundOwnsChunks(env: Env, items: seq<Item>, n: nat, s: State, op: seq<nat>, i: int, f: nat)
    requires Linked(env, items, n, s, op) && f == Find(s.blocks, Some(i)) < |s.blocks|
    ensures Some(i) in s.redactedChunks ==> s.blocks[f].Thinking? && s.blocks[f].redacted
  {
    hide HeardBy, OpenCount, Count, Opens, KeepsChunks, Find;
    if Some(i) in s.redactedChunks {
      var c :| 0 <= c < |s.blocks| && s.blocks[c].Thinking? && s.blocks[c].redacted && s.blocks[c].index == Some(i);
      assert Says(env, items, n, s.blocks[c], op[c], s.redactedChunks);
      CountBefore(s.blocks, c, i);
      assert c == f;
    }
  }

  lemma {:induction false} StopKeepsChunks(env: Env, s: State, i: int, f: nat)
    requires ChunksOwned(s) && f == Find(s.blocks, Some(i)) < |s.blocks|
    requires !(s.blocks[f].Thinking? && s.blocks[f].redacted) ==> Some(i) !in s.redactedChunks
    ensures ChunksOwned(HandleStop(env, s, Some(i)))
  {
    StoppedBlock(env, s, i, f);
    hide HandleStop, Find;
    var s' := HandleStop(env, s, Some(i));
    forall key | key in s'.redactedChunks
      ensures key.Some? && Owned(s'.blocks, key)
    {
      var c :| 0 <= c < |s.blocks| && s.blocks[c].Thinking? && s.blocks[c].redacted && s.blocks[c].index == key;
      assert c != f ==> s'.blocks[c] == s.blocks[c];
    }
  }

  // ---- Deltas ---------------------------------------------------------------------------------

  /** What a delta makes of the block that it finds. */
  function Told(b: Block, d: Delta): Block {
    match b
    case Text(text, index) => if d.text.Some? then Text(text + d.text.value, index) else b
    case Thinking(thinking, signature, redacted, index) =>
      if d.text.Some? || d.reasoning.None? then b
      else
        var r := d.reasoning.value;
        Thinking(if r.redacted.Some? then REDACTED else thinking + r.text, signature + r.signature,
                 redacted || r.redacted.Some?, index)
    case ToolCall(id, name, arguments, partialJson, index) =>
      if d.text.Some? || d.toolUse.None? then b
      else
        var json := if partialJson.Some? then partialJson.value else "";
        ToolCall(id, name, if d.preview.Some? then d.preview.value else arguments, Some(json + d.toolUse.value), index)
  }

  function ToldChunks(b: Block, d: Delta, index: Option<int>, chunks: Chunks): Chunks {
    if b.Thinking? && d.text.None? && d.reasoning.Some? && d.reasoning.value.redacted.Some?
    then chunks[index := (if index in chunks then chunks[index] else []) + [d.reasoning.value.redacted.value]]
    else chunks
  }

  /** A delta changes the block that it finds and no other. */
  lemma {:induction false} ToldBlock(s: State, i: int, d: Delta, f: nat)
    requires f == Find(s.blocks, Some(i)) < |s.blocks|
    ensures var s' := HandleDelta(s, Some(i), d);
      && s'.blocks == s.blocks[f := Told(s.blocks[f], d)]
      && s'.redactedChunks == ToldChunks(s.blocks[f], d, Some(i), s.redactedChunks)
  {
    hide Find;
    var b := s.blocks[f];
    if d.text.Some? {
    } else if d.toolUse.Some? && b.ToolCall? {
    } else if d.reasoning.Some? {
      ToldReasoning(s, f, Some(i), d.reasoning.value, d);
    }
  }

  lemma {:induction false} ToldReasoning(s: State, f: nat, index: Option<int>, r: Reasoning, d: Delta)
    requires f < |s.blocks| && d.text.None? && d.reasoning == Some(r)
    requires s.blocks[f].ToolCall? ==> d.toolUse.None?
    ensures var s' := AppendReasoning(s, f, index, r);
      && s'.blocks == s.blocks[f := Told(s.blocks[f], d)]
      && s'.redactedChunks == ToldChunks(s.blocks[f], d, index, s.redactedChunks)
  {
    if s.blocks[f].Thinking? {
      ReasoningTold(s, f, index, r);
    }
    hide AppendReasoningText, Redact;
  }

  lemma {:induction false} ReasoningTold(s: State, f: nat, index: Option<int>, r: Reasoning)
    requires f < |s.blocks| && s.blocks[f].Thinking?
    ensures var s', b := AppendReasoning(s, f, index, r), s.blocks[f];
      && s'.blocks == s.blocks[f := Thinking(if r.redacted.Some? then REDACTED else b.thinking + r.text,
                                             b.signature + r.signature, b.redacted || r.redacted.Some?, b.index)]
      && s'.redactedChunks ==
           if r.redacted.None? then s.redactedChunks
           else
             var earlier := if index in s.redactedChunks then s.redactedChunks[index] else [];
             s.redactedChunks[index := earlier + [r.redacted.value]]
  {
    var b := s.blocks[f];
    var s1 := AppendReasoningText(s, f, r.text);
    assert s1.blocks == s.blocks[f := b.(thinking := b.thinking + r.text)] && s1.redactedChunks == s.redactedChunks by {
      assert b.thinking + "" == b.thinking;
    }
    hide AppendReasoningText;
  }

  /** A delta that finds no block opens one if it tells something. */
  lemma {:induction false} ToldNew(s: State, i: int, d: Delta)
    requires Find(s.blocks, Some(i)) == |s.blocks|
    ensures var s' := HandleDelta(s, Some(i), d);
      if d.text.Some? then
        s'.blocks == s.blocks + [Told(Text("", Some(i)), d)] && s'.redactedChunks == s.redactedChunks
      else if d.reasoning.Some? then
        && s'.blocks == s.blocks + [Told(Thinking("", "", false, Some(i)), d)]
        && s'.redactedChunks == ToldChunks(Thinking("", "", false, Some(i)), d, Some(i), s.redactedChunks)
      else s' == s
  {
    hide Find;
    if d.text.None? && d.reasoning.Some? {
      var t := OpenThinking(s, Some(i));
      ToldReasoning(t, |s.blocks|, Some(i), d.reasoning.value, d);
      assert t.blocks[|s.blocks| := Told(t.blocks[|s.blocks|], d)] == s.blocks + [Told(Thinking("", "", false, Some(i)), d)];
    }
  }

  lemma {:induction false} FlattenSnoc(chunks: seq<seq<nat>>, bytes: seq<nat>)
    ensures Flatten(chunks + [bytes]) == Flatten(chunks) + bytes
  {
    if chunks == [] {
      assert [] + [bytes] == [bytes] && [bytes][1..] == [];
      assert bytes + [] == bytes;
    } else {
      FlattenSnoc(chunks[1..], bytes);
      assert (chunks + [bytes])[1..] == chunks[1..] + [bytes];
      assert chunks[0] + (Flatten(chunks[1..]) + bytes) == chunks[0] + Flatten(chunks[1..]) + bytes;
    }
  }

  /** Chunks grow as the bytes that were heard. */
  lemma {:induction false} ChunksHeard(h: Heard, i: int, chunks: Chunks, b: Block, d: Delta)
    requires b.Thinking? && KeepsChunks(h, i, chunks)
    requires !h.redacted ==> h.bytes == []
    ensures KeepsChunks(Hear(h, d), i, ToldChunks(b, d, Some(i), chunks))
  {
    if d.text.None? && d.reasoning.Some? && d.reasoning.value.redacted.Some? {
      var bytes := d.reasoning.value.redacted.value;
      FlattenSnoc(if Some(i) in chunks then chunks[Some(i)] else [], bytes);
    }
  }

  lemma {:induction false} OnlyRedactedBytes(items: seq<Item>, o: nat, n: nat)
    requires o < n <= |items|
    ensures !HeardBy(items, o, n).redacted ==> HeardBy(items, o, n).bytes == []
    decreases n
  {
    if n > o + 1 {
      OnlyRedactedBytes(items, o, n - 1);
    }
  }

  /** The block that a delta finds says what it has heard now. */
  lemma {:induction false} ToldSays(env: Env, items: seq<Item>, n: nat, s: State, op: seq<nat>, i: int, f: nat)
    requires Linked(env, items, n, s, op) && n < |items| && items[n].BlockDelta? && items[n].index == Some(i)
    requires f == Find(s.blocks, Some(i)) < |s.blocks|
    ensures op[f] < n && HeardBy(items, op[f], n + 1).ahead == HeardBy(items, op[f], n).ahead
    ensures Says(env, items, n + 1, Told(s.blocks[f], items[n].delta), op[f],
                 ToldChunks(s.blocks[f], items[n].delta, Some(i), s.redactedChunks))
  {
    assert Says(env, items, n, s.blocks[f], op[f], s.redactedChunks);
    FoundIsFirst(env, items, n, s, op, f);
    hide Linked, OpenCount, Find;
    var d, o, b := items[n].delta, op[f], s.blocks[f];
    assert b.index == Some(i) && IndexOf(items[o]) == i;
    var h := HeardBy(items, o, n);
    assert HeardBy(items, o, n + 1) == Hear(h, d);
    OnlyRedactedBytes(items, o, n);
    HeardIsSaid(env, items[o], b, h, d);
    if b.Thinking? {
      ChunksHeard(h, i, s.redactedChunks, b, d);
    }
    hide HeardBy, Hear, Told, ToldChunks, KeepsChunks, ToolSays, TextSays, ThinkingSays;
    HearingStays(h, d);
    ToldKind(b, d);
    SaysKinds(env, b, items[o], h);
  }

  lemma HearingStays(h: Heard, d: Delta)
    ensures Hear(h, d).stopped == h.stopped && Hear(h, d).ahead == h.ahead
  {
  }

  lemma ToldKind(b: Block, d: Delta)
    ensures Told(b, d).index == b.index && (Told(b, d).Thinking? <==> b.Thinking?)
  {
  }

  lemma SaysKinds(env: Env, b: Block, item: Item, h: Heard)
    ensures ThinkingSays(env, b, item, h) ==> b.Thinking? && h.ahead == 0
    ensures TextSays(b, item, h) || ToolSays(b, item, h) ==> !b.Thinking?
  {
  }

  /** Telling an open block a delta is hearing it. */
  lemma {:induction false} HeardIsSaid(env: Env, item: Item, b: Block, h: Heard, d: Delta)
    requires !h.stopped
    ensures TextSays(b, item, h) ==> TextSays(Told(b, d), item, Hear(h, d))
    ensures ThinkingSays(env, b, item, h) ==> ThinkingSays(env, Told(b, d), item, Hear(h, d))
    ensures ToolSays(b, item, h) ==> ToolSays(Told(b, d), item, Hear(h, d))
  {
  }

  /** The block that a delta opens says what the delta tells. */
  lemma {:induction false} NewSays(env: Env, items: seq<Item>, n: nat, i: int, chunks: Chunks)
    requires n < |items| && items[n].BlockDelta? && items[n].index == Some(i) && Tells(items[n], i)
    requires Some(i) !in chunks && OpenCount(items, i, n) == 0
    ensures HeardBy(items, n, n + 1).ahead == 0
    ensures var d := items[n].delta;
      var b := if d.text.Some? then Text("", Some(i)) else Thinking("", "", false, Some(i));
      Says(env, items, n + 1, Told(b, d), n, if d.text.Some? then chunks else ToldChunks(b, d, Some(i), chunks))
  {
    hide OpenCount;
    var d := items[n].delta;
    assert HeardBy(items, n, n + 1) == Hear(Nothing, d);
    if d.text.Some? {
      HeardIsSaid(env, items[n], Text("", Some(i)), Nothing, d);
      SaysFirstText(d, i);
    } else {
      var b := Thinking("", "", false, Some(i));
      ChunksHeard(Nothing, i, chunks, b, d);
      HeardIsSaid(env, items[n], b, Nothing, d);
    }
  }

  lemma SaysFirstText(d: Delta, i: int)
    requires d.text.Some?
    ensures Told(Text("", Some(i)), d) == Text(Hear(Nothing, d).text, Some(i)) && !Hear(Nothing, d).stopped
  {
  }

  lemma {:induction false} NewOwned(s: State, s': State, b: Block, d: Delta)
    requires ChunksOwned(s) && s'.blocks == s.blocks + [Told(b, d)] && b.index.Some?
    requires s'.redactedChunks == ToldChunks(b, d, b.index, s.redactedChunks)
    ensures ChunksOwned(s')
  {
    forall key | key in s'.redactedChunks
      ensures key.Some? && Owned(s'.blocks, key)
    {
      if key in s.redactedChunks {
        var c :| 0 <= c < |s.blocks| && s.blocks[c].Thinking? && s.blocks[c].redacted && s.blocks[c].index == key;
        assert s'.blocks[c] == s.blocks[c];
      } else {
        assert s'.blocks[|s.blocks|].index == key;
      }
    }
  }

  lemma {:induction false} FoundOwned(s: State, s': State, f: nat, d: Delta)
    requires ChunksOwned(s) && f < |s.blocks| && s'.blocks == s.blocks[f := Told(s.blocks[f], d)]
    requires s.blocks[f].index.Some?
    requires s'.redactedChunks == ToldChunks(s.blocks[f], d, s.blocks[f].index, s.redactedChunks)
    ensures ChunksOwned(s')
  {
    forall key | key in s'.redactedChunks
      ensures key.Some? && Owned(s'.blocks, key)
    {
      if key in s.redactedChunks {
        var c :| 0 <= c < |s.blocks| && s.blocks[c].Thinking? && s.blocks[c].redacted && s.blocks[c].index == key;
        assert s'.blocks[c].Thinking? && s'.blocks[c].redacted && s'.blocks[c].index == key;
      } else {
        assert s'.blocks[f].index == key;
      }
    }
  }

  lemma ToldChunksElsewhere(b: Block, d: Delta, index: Option<int>, chunks: Chunks)
    ensures var now := ToldChunks(b, d, index, chunks);
      forall key :: key != index ==> (key in chunks <==> key in now) && (key in chunks ==> chunks[key] == now[key])
    ensures b.ToolCall? ==> ToldChunks(b, d, index, chunks) == chunks
    ensures d.text.Some? ==> ToldChunks(b, d, index, chunks) == chunks
  {
  }

  lemma {:induction false} LinkDelta(env: Env, items: seq<Item>, n: nat, s: State, op: seq<nat>) returns (op': seq<nat>)
    requires Linked(env, items, n, s, op) && n < |items| && items[n].BlockDelta? && items[n].index.Some?
    ensures op <= op' && Linked(env, items, n + 1, Receive(env, s, items[n]), op')
  {
    hide Says, HeardBy, Linked, Find, ChunksOwned, HandleDelta, Told, ToldChunks, Queued, Openings, Spared;
    LinkedBasics(env, items, n, s, op);
    var i, d := items[n].index.value, items[n].delta;
    var f := Find(s.blocks, Some(i));
    var s' := HandleDelta(s, Some(i), d);
    AllOthers(env, items, n, s, op, f);
    FindCounts(s.blocks, i);
    op' := op;
    if f < |s.blocks| {
      ToldBlock(s, i, d, f);
      ToldSays(env, items, n, s, op, i, f);
      FoundOwnsChunks(env, items, n, s, op, i, f);
      FoundOwned(s, s', f, d);
      ToldKind(s.blocks[f], d);
      ToldChunksElsewhere(s.blocks[f], d, Some(i), s.redactedChunks);
      LinkUpdate(env, items, n, s, s', op, f);
    } else {
      ToldNew(s, i, d);
      if Tells(items[n], i) {
        var b := if d.text.Some? then Text("", Some(i)) else Thinking("", "", false, Some(i));
        NothingOpenNoChunks(s, i);
        NewSays(env, items, n, i, s.redactedChunks);
        ToldKind(b, d);
        ToldChunksElsewhere(b, d, Some(i), s.redactedChunks);
        NewOwned(s, s', b, d);
        LinkAppend(env, items, n, s, s', op);
        op' := op + [n];
      } else {
        LinkSilent(env, items, n, s, s', op);
      }
    }
  }

  lemma {:induction false} LinkReceive(env: Env, items: seq<Item>, n: nat, s: State, op: seq<nat>) returns (op': seq<nat>)
    requires Linked(env, items, n, s, op) && n < |items| && Indexed(items[n]) && !Throws(items[n])
    ensures op <= op' && Linked(env, items, n + 1, Receive(env, s, items[n]), op')
    ensures items[n].BlockStop? ==> op' == op
  {
    hide Linked, HandleStop, HandleDelta, HandleStart;
    op' := op;
    match items[n]
    case BlockStart(_, tool) =>
      if tool.Some? {
        LinkTool(env, items, n, s, op);
        op' := op + [n];
      } else {
        LinkUnnamed(env, items, n, s, op);
      }
    case BlockDelta(_, _) => op' := LinkDelta(env, items, n, s, op);
    case BlockStop(_) => LinkStop(env, items, n, s, op);
    case _ => LinkUnnamed(env, items, n, s, op);
  }

  // ---- The order of the stops -----------------------------------------------------------------

  /** The block opened by `a` is stopped while the one opened by `b` is not. */
  ghost predicate StopsFirst(items: seq<Item>, n: nat, a: nat, b: nat)
    requires n <= |items|
  {
    exists m :: a < m <= n && HeardBy(items, a, m).stopped && (b < m ==> !HeardBy(items, b, m).stopped)
  }

  /** The blocks that a list names were stopped in its order. */
  ghost predicate InStopOrder(items: seq<Item>, n: nat, op: seq<nat>, order: seq<nat>)
    requires n <= |items| && forall k :: 0 <= k < |order| ==> order[k] < |op|
  {
    forall j, k :: 0 <= j < k < |order| ==> StopsFirst(items, n, op[order[j]], op[order[k]])
  }

  lemma {:induction false} OrderStays(items: seq<Item>, n: nat, op: seq<nat>, op': seq<nat>, order: seq<nat>)
    requires n < |items| && op <= op' && (forall k :: 0 <= k < |order| ==> order[k] < |op|)
    requires InStopOrder(items, n, op, order)
    ensures InStopOrder(items, n + 1, op', order)
  {
    hide HeardBy;
    forall j, k | 0 <= j < k < |order| ensures StopsFirst(items, n + 1, op'[order[j]], op'[order[k]]) {
      assert StopsFirst(items, n, op[order[j]], op[order[k]]);
    }
  }

  lemma {:induction false} OrderGrows(items: seq<Item>, n: nat, op: seq<nat>, order: seq<nat>, i: nat)
    requires n < |items| && i < |op| && (forall k :: 0 <= k < |order| ==> order[k] < |op|)
    requires InStopOrder(items, n, op, order)
    requires forall k :: 0 <= k < |order| ==> op[order[k]] < n && HeardBy(items, op[order[k]], n).stopped
    requires op[i] < n && !HeardBy(items, op[i], n).stopped
    ensures InStopOrder(items, n + 1, op, order + [i])
  {
    hide HeardBy;
    OrderStays(items, n, op, op, order);
    forall j, k | 0 <= j < k < |order + [i]| ensures StopsFirst(items, n + 1, op[(order + [i])[j]], op[(order + [i])[k]]) {
      if k < |order| {
        assert StopsFirst(items, n + 1, op[order[j]], op[order[k]]);
      }
    }
  }

  lemma PendingAfterStop(env: Env, s: State, index: Option<int>)
    ensures var f := Find(s.blocks, index);
      HandleStop(env, s, index).pending ==
        if f < |s.blocks| && s.blocks[f].ToolCall? then s.pending + [f] else s.pending
  {
    hide Find;
  }

  lemma PendingAfterDelta(s: State, index: Option<int>, d: Delta)
    ensures HandleDelta(s, index, d).pending == s.pending
  {
    hide Find;
    if d.text.None? && d.reasoning.Some? {
      PendingAfterReasoning(OpenThinking(s, index), Find(s.blocks, index), index, d.reasoning.value);
    }
    hide AppendReasoning;
  }

  lemma PendingAfterReasoning(s: State, i: nat, index: Option<int>, r: Reasoning)
    requires i < |s.blocks|
    ensures AppendReasoning(s, i, index, r).pending == s.pending
  {
  }

  lemma {:induction false} SaysIndex(env: Env, items: seq<Item>, n: nat, s: State, op: seq<nat>, c: nat)
    requires Linked(env, items, n, s, op) && c < |op|
    ensures op[c] < n && (HeardBy(items, op[c], n).stopped <==> s.blocks[c].index.None?)
    ensures StartsTool(items[op[c]], IndexOf(items[op[c]])) <==> s.blocks[c].ToolCall?
  {
    hide HeardBy, OpenCount, Count, ChunksOwned, Find;
    assert Says(env, items, n, s.blocks[c], op[c], s.redactedChunks);
  }

  // ---- All items ------------------------------------------------------------------------------

  /** The state is what the first `n` items told, its queue in the order of their stops. */
  ghost predicate Follows(env: Env, items: seq<Item>, n: nat, s: State, op: seq<nat>) {
    Inv(s) && Linked(env, items, n, s, op) && InStopOrder(items, n, op, s.pending)
  }

  lemma {:induction false} FollowReceive(env: Env, items: seq<Item>, n: nat, s: State, op: seq<nat>) returns (op': seq<nat>)
    requires Follows(env, items, n, s, op) && n < |items| && Indexed(items[n]) && !Throws(items[n])
    ensures Follows(env, items, n + 1, Receive(env, s, items[n]), op')
  {
    op' := LinkReceive(env, items, n, s, op);
    ReceiveKeeps(env, s, items[n]);
    hide Linked, Receive, Inv;
    ReceiveQueues(env, items, n, s, op, op');
  }

  lemma {:induction false} ReceiveQueues(env: Env, items: seq<Item>, n: nat, s: State, op: seq<nat>, op': seq<nat>)
    requires Follows(env, items, n, s, op) && n < |items| && Indexed(items[n]) && !Throws(items[n])
    requires op <= op' && (items[n].BlockStop? ==> op' == op)
    requires Inv(Receive(env, s, items[n])) && Linked(env, items, n + 1, Receive(env, s, items[n]), op')
    ensures InStopOrder(items, n + 1, op', Receive(env, s, items[n]).pending)
  {
    var s' := Receive(env, s, items[n]);
    QueueIsStopped(env, items, n, s, op);
    PendingAfter(env, s, items[n]);
    hide Linked, Receive, StopsFirst, Inv, Find, HeardBy;
    if s'.pending == s.pending {
      OrderStays(items, n, op, op', s.pending);
    } else {
      var f := Find(s.blocks, items[n].index);
      SaysIndex(env, items, n, s, op, f);
      OrderGrows(items, n, op, s.pending, f);
    }
  }

  lemma {:induction false} QueueIsStopped(env: Env, items: seq<Item>, n: nat, s: State, op: seq<nat>)
    requires Inv(s) && Linked(env, items, n, s, op)
    ensures |op| == |s.blocks| && forall k :: 0 <= k < |s.pending| ==>
      s.pending[k] < |op| && op[s.pending[k]] < n && HeardBy(items, op[s.pending[k]], n).stopped
  {
    LinkedBasics(env, items, n, s, op);
    forall k | 0 <= k < |s.pending|
      ensures s.pending[k] < |op| && op[s.pending[k]] < n && HeardBy(items, op[s.pending[k]], n).stopped
    {
      hide Linked, HeardBy;
      SaysIndex(env, items, n, s, op, s.pending[k]);
    }
  }

  lemma PendingAfter(env: Env, s: State, item: Item)
    requires !Throws(item)
    ensures var f := if item.BlockStop? then Find(s.blocks, item.index) else |s.blocks|;
      var pending := Receive(env, s, item).pending;
      if f < |s.blocks| && s.blocks[f].ToolCall? then
        pending == s.pending + [f] && s.blocks[f].index == item.index
      else pending == s.pending
  {
    hide HandleStop, HandleDelta;
    if item.BlockStop? {
      PendingAfterStop(env, s, item.index);
    } else if item.BlockDelta? {
      PendingAfterDelta(s, item.index, item.delta);
    }
  }

  /** Items are received up to the first that throws. */
  lemma {:induction false} FollowAll(env: Env, items: seq<Item>, n: nat, s: State, op: seq<nat>)
    returns (m: nat, op': seq<nat>)
    requires Follows(env, items, n, s, op) && n <= |items| && forall i :: 0 <= i < |items| ==> Indexed(items[i])
    ensures n <= m <= |items|
    ensures var (t, completed) := ReceiveAll(env, s, items[n..]);
      Follows(env, items, m, t, op') && (completed <==> m == |items|)
    ensures (forall k :: n <= k < m ==> !Throws(items[k])) && (m < |items| ==> Throws(items[m]))
    decreases |items| - n
  {
    hide Follows, Receive;
    if n == |items| || Throws(items[n]) {
      m, op' := n, op;
    } else {
      var next := FollowReceive(env, items, n, s, op);
      m, op' := FollowAll(env, items, n + 1, Receive(env, s, items[n]), next);
      assert items[n..][1..] == items[n + 1..];
    }
  }

  lemma NothingHeard(env: Env, items: seq<Item>)
    ensures Follows(env, items, 0, Initially, [])
  {
  }

  // ---- The end of the stream --------------------------------------------------------------------

  /** The last stop of the message is no failure. */
  predicate Finishes(items: seq<Item>) {
    exists k :: 0 <= k < |items| && items[k] == MessageStop(false) && NoStopAfter(items, k)
  }

  predicate NoStopAfter(items: seq<Item>, k: nat) {
    forall l :: k < l < |items| ==> !items[l].MessageStop?
  }

  predicate NoMessageStop(items: seq<Item>) {
    forall l :: 0 <= l < |items| ==> !items[l].MessageStop?
  }

  predicate Fine(s: State) {
    s.sawMessageStop && !s.stopFailed
  }

  lemma ReceiveFine(env: Env, s: State, item: Item)
    requires !Throws(item)
    ensures Fine(Receive(env, s, item)) <==> if item.MessageStop? then !item.failed else Fine(s)
  {
    hide Find;
  }

  lemma {:induction false} FinishesIff(env: Env, s: State, items: seq<Item>)
    requires forall k :: 0 <= k < |items| ==> !Throws(items[k])
    ensures Fine(ReceiveAll(env, s, items).0) <==> Finishes(items) || (NoMessageStop(items) && Fine(s))
    decreases |items|
  {
    if items != [] {
      var item, rest := items[0], items[1..];
      ReceiveFine(env, s, item);
      FinishesIff(env, Receive(env, s, item), rest);
      hide Receive, Fine;
      assert NoMessageStop(items) <==> !item.MessageStop? && NoMessageStop(rest);
      FinishesCons(items);
    }
  }

  lemma {:induction false} FinishesCons(items: seq<Item>)
    requires items != []
    ensures Finishes(items) <==> Finishes(items[1..]) || (items[0] == MessageStop(false) && NoMessageStop(items[1..]))
  {
    var rest := items[1..];
    if Finishes(items) {
      var k :| 0 <= k < |items| && items[k] == MessageStop(false) && NoStopAfter(items, k);
      if k > 0 {
        assert rest[k - 1] == MessageStop(false) && NoStopAfter(rest, k - 1);
      }
    }
    if Finishes(rest) {
      var k :| 0 <= k < |rest| && rest[k] == MessageStop(false) && NoStopAfter(rest, k);
      assert items[k + 1] == MessageStop(false);
      assert NoStopAfter(items, k + 1) by {
        forall l | k + 1 < l < |items| ensures !items[l].MessageStop? {
          assert items[l] == rest[l - 1];
        }
      }
    } else if items[0] == MessageStop(false) && NoMessageStop(rest) {
      assert NoStopAfter(items, 0);
    }
  }

  /** What the closing loop leaves: open text and thinking blocks are sealed, all else stays. */
  lemma {:induction false} CloseSeals(env: Env, s: State, c: nat)
    requires Inv(s) && ClosedUpTo(s, c)
    ensures var t := CloseFrom(env, s, c);
      && |t.blocks| == |s.blocks|
      && forall k :: 0 <= k < |s.blocks| ==>
           t.blocks[k] == if k >= c && s.blocks[k].index.Some? && !s.blocks[k].ToolCall?
                          then Sealed(env, s.blocks[k], s.redactedChunks) else s.blocks[k]
    decreases |s.blocks| - c
  {
    hide HandleStop, Inv, Sealed;
    if c < |s.blocks| {
      var b := s.blocks[c];
      if b.index.Some? && !b.ToolCall? {
        StopSeals(env, s, c);
        CloseSeals(env, HandleStop(env, s, b.index), c + 1);
      } else {
        CloseSeals(env, s, c + 1);
      }
    }
  }

  lemma {:induction false} StopSeals(env: Env, s: State, c: nat)
    requires Inv(s) && ClosedUpTo(s, c) && c < |s.blocks| && s.blocks[c].index.Some? && !s.blocks[c].ToolCall?
    ensures var t := HandleStop(env, s, s.blocks[c].index);
      && Inv(t) && ClosedUpTo(t, c + 1)
      && t.blocks == s.blocks[c := Sealed(env, s.blocks[c], s.redactedChunks)]
      && forall k :: c < k < |s.blocks| && s.blocks[k].index.Some? && !s.blocks[k].ToolCall? ==>
           Sealed(env, s.blocks[k], t.redactedChunks) == Sealed(env, s.blocks[k], s.redactedChunks)
  {
    var b := s.blocks[c];
    StopHitsItsBlock(env, s, c);
    StopKeeps(env, s, b.index);
    StoppedBlock(env, s, b.index.value, c);
    hide HandleStop, Find, AllTraced, PendingExact, NoToolEnd;
    forall k | c < k < |s.blocks| && s.blocks[k].index.Some? && !s.blocks[k].ToolCall?
      ensures Sealed(env, s.blocks[k], HandleStop(env, s, b.index).redactedChunks)
           == Sealed(env, s.blocks[k], s.redactedChunks)
    {
      assert s.blocks[c].index != s.blocks[k].index;
    }
  }

  // ---- The theorems -----------------------------------------------------------------------------

  predicate IsTool(item: Item) {
    item.BlockStart? && item.tool.Some?
  }

  /** The text or reasoning block of an opening; the signature of redacted reasoning is sealed by its end. */
  function HeardBlock(env: Env, item: Item, h: Heard, ended: bool): Block {
    if item.BlockDelta? && item.delta.text.Some? then Text(h.text, None)
    else Thinking(h.thinking, if ended && h.redacted then env.encode(h.bytes) else h.signature, h.redacted, None)
  }

  /** What is finalised for the tool call opened by item `o`: its JSON as it was told or, where nothing was,
      its last preview or the input it was announced with. */
  function FinalSource(items: seq<Item>, o: nat): Source
    requires o < |items| && IsTool(items[o])
  {
    var h := HeardBy(items, o, |items|);
    if h.json != "" then Raw(h.json)
    else Given(if h.preview.Some? then h.preview.value else items[o].tool.value.input)
  }

  predicate NamesTools(items: seq<Item>, op: seq<nat>, order: seq<nat>) {
    forall k :: 0 <= k < |order| ==> order[k] < |op| && op[order[k]] < |items| && IsTool(items[op[order[k]]])
  }

  function FinalSources(items: seq<Item>, op: seq<nat>, order: seq<nat>): seq<Source>
    requires NamesTools(items, op, order)
  {
    seq(|order|, k requires 0 <= k < |order| => FinalSource(items, op[order[k]]))
  }

  /** The stopped tool calls, once each, in the order of their stops. */
  ghost predicate QueueOf(items: seq<Item>, op: seq<nat>, order: seq<nat>) {
    && NamesTools(items, op, order) && Distinct(order) && InStopOrder(items, |items|, op, order)
    && forall c :: 0 <= c < |op| && op[c] < |items| && IsTool(items[op[c]]) ==>
         (HeardBy(items, op[c], |items|).stopped <==> c in order)
  }

  predicate AllStopped(items: seq<Item>, op: seq<nat>) {
    forall c :: 0 <= c < |op| && op[c] < |items| && IsTool(items[op[c]]) ==> HeardBy(items, op[c], |items|).stopped
  }

  /** The block is its opening as heard; `arguments` of tool calls are given by the finalisation. */
  ghost predicate AsHeard(env: Env, items: seq<Item>, n: nat, b: Block, o: nat, ended: bool)
    requires o < n <= |items|
  {
    var item, h := items[o], HeardBy(items, o, n);
    if IsTool(item) then
      b.ToolCall? && b.id == item.tool.value.id && b.name == item.tool.value.name
    else Closed(b) == HeardBlock(env, item, h, ended || h.stopped)
  }

  lemma {:induction false} OpenBlockTells(env: Env, items: seq<Item>, n: nat, s: State, op: seq<nat>, c: nat)
    requires Linked(env, items, n, s, op) && c < |op|
    ensures op[c] < n && AsHeard(env, items, n, s.blocks[c], op[c], false)
    ensures !s.blocks[c].ToolCall? && s.blocks[c].index.Some? ==>
      AsHeard(env, items, n, Sealed(env, s.blocks[c], s.redactedChunks), op[c], true)
    ensures !s.blocks[c].ToolCall? && s.blocks[c].index.None? ==> AsHeard(env, items, n, s.blocks[c], op[c], true)
  {
    hide HeardBy, OpenCount, Count, ChunksOwned, Find, Opens;
    assert Says(env, items, n, s.blocks[c], op[c], s.redactedChunks);
  }

  lemma {:induction false} OpenToolSource(env: Env, items: seq<Item>, s: State, op: seq<nat>, c: nat)
    requires Linked(env, items, |items|, s, op) && c < |op| && s.blocks[c].ToolCall?
    ensures op[c] < |items| && IsTool(items[op[c]]) && SourceOf(s.blocks[c]) == FinalSource(items, op[c])
  {
    hide HeardBy, OpenCount, Count, ChunksOwned, Find, Opens;
    assert Says(env, items, |items|, s.blocks[c], op[c], s.redactedChunks);
  }

  ghost predicate AllAsHeard(env: Env, items: seq<Item>, n: nat, blocks: seq<Block>, op: seq<nat>, ended: bool) {
    && n <= |items| && |blocks| == |op|
    && forall c :: 0 <= c < |op| ==> op[c] < n && AsHeard(env, items, n, blocks[c], op[c], ended)
  }

  /** The closing loop ends every text and reasoning block as it was heard. */
  lemma {:induction false} ClosedAsHeard(env: Env, items: seq<Item>, s: State, op: seq<nat>)
    requires Follows(env, items, |items|, s, op)
    ensures var t := CloseFrom(env, s, 0);
      && Inv(t) && t.pending == s.pending
      && AllAsHeard(env, items, |items|, t.blocks, op, true)
      && forall c :: 0 <= c < |op| && s.blocks[c].ToolCall? ==> t.blocks[c] == s.blocks[c]
  {
    CloseFromKeeps(env, s, 0);
    CloseSeals(env, s, 0);
    var t := CloseFrom(env, s, 0);
    LinkedBasics(env, items, |items|, s, op);
    hide CloseFrom, Inv, Linked, AsHeard, Sealed;
    forall c | 0 <= c < |op| ensures op[c] < |items| && AsHeard(env, items, |items|, t.blocks[c], op[c], true) {
      OpenBlockTells(env, items, |items|, s, op, c);
      if s.blocks[c].ToolCall? {
        ToolEndsAlike(env, items, |items|, s.blocks[c], op[c]);
      }
    }
  }

  lemma ToolEndsAlike(env: Env, items: seq<Item>, n: nat, b: Block, o: nat)
    requires o < n <= |items| && b.ToolCall? && AsHeard(env, items, n, b, o, false)
    ensures AsHeard(env, items, n, b, o, true)
  {
    hide HeardBy;
  }

  /** The queue at the end of the items and what is finalised for it. */
  lemma {:induction false} QueueIsHeard(env: Env, items: seq<Item>, s: State, t: State, op: seq<nat>)
    requires Follows(env, items, |items|, s, op) && |t.blocks| == |s.blocks| && t.pending == s.pending && PendingInRange(t)
    requires forall c :: 0 <= c < |s.blocks| && s.blocks[c].ToolCall? ==> t.blocks[c] == s.blocks[c]
    ensures QueueOf(items, op, t.pending) && Sources(t.blocks, t.pending) == FinalSources(items, op, t.pending)
  {
    LinkedBasics(env, items, |items|, s, op);
    QueueIsStopped(env, items, |items|, s, op);
    hide Linked, HeardBy, AllTraced, StopsFirst, FinalSource, SourceOf, InStopOrder;
    var order := s.pending;
    forall k | 0 <= k < |order|
      ensures op[order[k]] < |items| && IsTool(items[op[order[k]]])
      ensures SourceOf(t.blocks[order[k]]) == FinalSource(items, op[order[k]])
    {
      OpenToolSource(env, items, s, op, order[k]);
    }
    forall c | 0 <= c < |op| && op[c] < |items| && IsTool(items[op[c]])
      ensures HeardBy(items, op[c], |items|).stopped <==> c in order
    {
      SaysIndex(env, items, |items|, s, op, c);
    }
  }

  lemma {:induction false} StoppedIffNoneOpen(env: Env, items: seq<Item>, s: State, t: State, op: seq<nat>)
    requires Linked(env, items, |items|, s, op) && |t.blocks| == |s.blocks|
    requires forall c :: 0 <= c < |s.blocks| ==>
      if s.blocks[c].ToolCall? then t.blocks[c] == s.blocks[c] else !t.blocks[c].ToolCall?
    ensures AllStopped(items, op) <==> !exists b :: b in t.blocks && b.ToolCall? && b.index.Some?
  {
    LinkedBasics(env, items, |items|, s, op);
    hide HeardBy, Linked, OpenCount, ChunksOwned, Count;
    forall c | 0 <= c < |op|
      ensures op[c] < |items| && (IsTool(items[op[c]]) <==> s.blocks[c].ToolCall?)
      ensures HeardBy(items, op[c], |items|).stopped <==> s.blocks[c].index.None?
    {
      SaysIndex(env, items, |items|, s, op, c);
    }
    hide Openings, IsTool;
    if c :| 0 <= c < |op| && op[c] < |items| && IsTool(items[op[c]]) && !HeardBy(items, op[c], |items|).stopped {
      assert t.blocks[c] in t.blocks;
    }
    if b :| b in t.blocks && b.ToolCall? && b.index.Some? {
      var c :| 0 <= c < |t.blocks| && t.blocks[c] == b;
      assert IsTool(items[op[c]]) && !HeardBy(items, op[c], |items|).stopped;
    }
  }

  /** The openings of text and reasoning as they were heard. */
  function Kept(env: Env, items: seq<Item>, n: nat, op: seq<nat>, ended: bool): seq<Block>
    requires n <= |items| && forall c :: 0 <= c < |op| ==> op[c] < n
  {
    if op == [] then []
    else
      var h := HeardBy(items, op[0], n);
      (if IsTool(items[op[0]]) then [] else [HeardBlock(env, items[op[0]], h, ended || h.stopped)])
      + Kept(env, items, n, op[1..], ended)
  }

  lemma {:induction false} SurvivingIsKept(
    env: Env, items: seq<Item>, n: nat, blocks: seq<Block>, op: seq<nat>, ended: bool)
    requires AllAsHeard(env, items, n, blocks, op, ended)
    ensures forall c :: 0 <= c < |op| ==> op[c] < n
    ensures Surviving(blocks) == Kept(env, items, n, op, ended)
  {
    hide HeardBy;
    if op != [] {
      forall c | 0 <= c < |op[1..]| ensures op[1..][c] < n && AsHeard(env, items, n, blocks[1..][c], op[1..][c], ended) {
        assert op[c + 1] < n && AsHeard(env, items, n, blocks[c + 1], op[c + 1], ended);
      }
      SurvivingIsKept(env, items, n, blocks[1..], op[1..], ended);
      assert AsHeard(env, items, n, blocks[0], op[0], ended);
    }
  }

  lemma {:induction false} ReceivedAsHeard(env: Env, items: seq<Item>, n: nat, s: State, op: seq<nat>)
    requires Linked(env, items, n, s, op)
    ensures AllAsHeard(env, items, n, s.blocks, op, false)
  {
    LinkedBasics(env, items, n, s, op);
    hide Linked, AsHeard;
    forall c | 0 <= c < |op| ensures op[c] < n && AsHeard(env, items, n, s.blocks[c], op[c], false) {
      OpenBlockTells(env, items, n, s, op, c);
    }
  }

  /** The checks that come before the tool calls are ended. */
  predicate Passes(items: seq<Item>, received: nat, aborted: bool) {
    received == |items| && Finishes(items) && !aborted
  }

  /** How many items a stream receives: all before the first that throws. */
  predicate Receives(items: seq<Item>, n: nat) {
    && n <= |items| && (forall k :: 0 <= k < n ==> !Throws(items[k]))
    && (n < |items| ==> Throws(items[n]))
  }

  /** Where the received items lead: the openings among them, the checks, and what is finalised. */
  lemma {:induction false} StreamFollows(env: Env, items: seq<Item>, aborted: bool, buffered: bool)
    returns (n: nat, op: seq<nat>, s: State)
    requires FinalizesAll(env) && forall i :: 0 <= i < |items| ==> Indexed(items[i])
    ensures Receives(items, n) && Follows(env, items, n, s, op) && PendingInRange(s)
    ensures Stream(env, items, aborted, buffered) ==
      Conclude(env, s, n == |items|, aborted, buffered)
    ensures n == |items| ==> (Fine(s) <==> Finishes(items))
  {
    NothingHeard(env, items);
    n, op := FollowAll(env, items, 0, Initially, []);
    assert items[0..] == items;
    s := ReceiveAll(env, Initially, items).0;
    ReceiveAllKeepsRange(env, Initially, items);
    hide Follows, ReceiveAll, Conclude;
    if n == |items| {
      FinishesIff(env, Initially, items);
    }
  }

  /** One block for each opening, in order: the text, the reasoning and the signature that were told from its
      opening to its stop; a tool call has the id and the name it was announced with and the arguments of its
      own JSON. The last events end the tool calls in the order of their stops. */
  ghost predicate AsTold(env: Env, items: seq<Item>, op: seq<nat>, order: seq<nat>, r: Result) {
    && r.Done? && |r.content| == |op| && QueueOf(items, op, order)
    && (forall c :: 0 <= c < |op| ==> op[c] < |items|)
    && (forall c :: 0 <= c < |op| && !IsTool(items[op[c]]) ==>
          r.content[c] == HeardBlock(env, items[op[c]], HeardBy(items, op[c], |items|), true))
    && var args := env.finalize(FinalSources(items, op, order));
    && args.Some? && |args.value| == |order|
    && (forall k :: 0 <= k < |order| ==> AnnouncedAs(r.content[order[k]], items[op[order[k]]], args.value[k]))
    && |order| <= |r.events|
    && r.events[|r.events| - |order|..] == Ends(r.content, order)
  }

  predicate AnnouncedAs(b: Block, item: Item, args: Json)
    requires IsTool(item)
  {
    b == ToolCall(item.tool.value.id, item.tool.value.name, args, None, None)
  }

  lemma {:induction false} FlushedAsTold(env: Env, items: seq<Item>, t: State, op: seq<nat>, args: seq<Json>)
    requires AllAsHeard(env, items, |items|, t.blocks, op, true) && PendingExact(t)
    requires forall c :: 0 <= c < |t.blocks| ==> t.blocks[c].index.None?
    requires QueueOf(items, op, t.pending) && Sources(t.blocks, t.pending) == FinalSources(items, op, t.pending)
    requires env.finalize(FinalSources(items, op, t.pending)) == Some(args) && |args| == |t.pending|
    ensures var end := EndTools(t, t.pending, args);
      AsTold(env, items, op, t.pending, Done(end.blocks, end.events))
  {
    EndToolsResult(t, t.pending, args);
    hide EndTools, Sources, FinalSources, HeardBy, InStopOrder, HeardBlock;
    var end := EndTools(t, t.pending, args);
    forall c | 0 <= c < |op| && !IsTool(items[op[c]])
      ensures end.blocks[c] == HeardBlock(env, items[op[c]], HeardBy(items, op[c], |items|), true)
    {
      assert AsHeard(env, items, |items|, t.blocks[c], op[c], true);
      assert c !in t.pending;
      ClosedAlready(t.blocks[c]);
    }
    forall k | 0 <= k < |t.pending|
      ensures AnnouncedAs(end.blocks[t.pending[k]], items[op[t.pending[k]]], args[k])
    {
      assert AsHeard(env, items, |items|, t.blocks[t.pending[k]], op[t.pending[k]], true);
    }
  }

  lemma ClosedAlready(b: Block)
    requires b.index.None?
    ensures Closed(b) == b
  {
  }

  /** A stream of indexed items ends in `done` exactly when no item throws, its last message stop is no
      failure, it was not aborted, every tool call that was started was stopped, and what they were told can be
      finalised. Then the message is what was told. */
  lemma {:induction false} DoneIsHeard(env: Env, items: seq<Item>, aborted: bool, buffered: bool)
    returns (n: nat, op: seq<nat>, order: seq<nat>)
    requires FinalizesAll(env) && forall i :: 0 <= i < |items| ==> Indexed(items[i])
    ensures Receives(items, n) && Openings(items, n, op)
    ensures Passes(items, n, aborted) ==> QueueOf(items, op, order)
    ensures var r := Stream(env, items, aborted, buffered);
      && (r.Done? <==> Passes(items, n, aborted) && AllStopped(items, op)
                       && env.finalize(FinalSources(items, op, order)).Some?)
      && (r.Done? ==> AsTold(env, items, op, order, r))
  {
    var s;
    n, op, s := StreamFollows(env, items, aborted, buffered);
    order := s.pending;
    LinkedBasics(env, items, n, s, op);
    if Passes(items, n, aborted) {
      DoneFromHere(env, items, s, op, buffered);
    } else {
      hide Follows, Openings, AsTold, CloseFrom, Flush;
    }
  }

  lemma {:induction false} DoneFromHere(env: Env, items: seq<Item>, s: State, op: seq<nat>, buffered: bool)
    requires FinalizesAll(env) && Follows(env, items, |items|, s, op) && PendingInRange(s) && Fine(s)
    ensures QueueOf(items, op, s.pending)
    ensures var r := Conclude(env, s, true, false, buffered);
      && (r.Done? <==> AllStopped(items, op) && env.finalize(FinalSources(items, op, s.pending)).Some?)
      && (r.Done? ==> AsTold(env, items, op, s.pending, r))
  {
    ClosedAsTold(env, items, s, op);
    var t := CloseFrom(env, s, 0);
    ConcludeFine(env, s, buffered);
    hide Follows, AsTold, QueueOf, AllStopped, AllAsHeard, CloseFrom, FinalSources, Sources, Inv, EndTools, Conclude, Fail;
    var args := env.finalize(FinalSources(items, op, s.pending));
    if AllStopped(items, op) && args.Some? {
      NothingLeftOpen(t);
      FlushedAsTold(env, items, t, op, args.value);
    }
  }

  lemma ConcludeFine(env: Env, s: State, buffered: bool)
    requires FinalizesAll(env) && PendingInRange(s) && PendingInRange(CloseFrom(env, s, 0)) && Fine(s)
    ensures var t := CloseFrom(env, s, 0);
      var r, args := Conclude(env, s, true, false, buffered), env.finalize(Sources(t.blocks, t.pending));
      if (exists b :: b in t.blocks && b.ToolCall? && b.index.Some?) || args.None? then r == Fail(t, buffered)
      else r == Done(EndTools(t, t.pending, args.value).blocks, EndTools(t, t.pending, args.value).events)
  {
  }

  /** The state in which the tool calls are ended. */
  lemma {:induction false} ClosedAsTold(env: Env, items: seq<Item>, s: State, op: seq<nat>)
    requires Follows(env, items, |items|, s, op) && PendingInRange(s)
    ensures var t := CloseFrom(env, s, 0);
      && PendingExact(t) && t.pending == s.pending && ClosedUpTo(t, |t.blocks|)
      && AllAsHeard(env, items, |items|, t.blocks, op, true) && QueueOf(items, op, t.pending)
      && Sources(t.blocks, t.pending) == FinalSources(items, op, t.pending)
      && (AllStopped(items, op) <==> !exists b :: b in t.blocks && b.ToolCall? && b.index.Some?)
  {
    var t := CloseFrom(env, s, 0);
    ClosedAsHeard(env, items, s, op);
    CloseFromKeeps(env, s, 0);
    hide CloseFrom, AllAsHeard, QueueOf, FinalSources, Sources, AllTraced, AllStopped;
    LinkedBasics(env, items, |items|, s, op);
    QueueIsHeard(env, items, s, t, op);
    ClosedKinds(env, items, s, t, op);
    StoppedIffNoneOpen(env, items, s, t, op);
  }

  lemma {:induction false} NothingLeftOpen(t: State)
    requires ClosedUpTo(t, |t.blocks|) && !exists b :: b in t.blocks && b.ToolCall? && b.index.Some?
    ensures forall c :: 0 <= c < |t.blocks| ==> t.blocks[c].index.None?
  {
    forall c | 0 <= c < |t.blocks| ensures t.blocks[c].index.None? {
      assert t.blocks[c] in t.blocks;
    }
  }

  lemma {:induction false} ClosedKinds(env: Env, items: seq<Item>, s: State, t: State, op: seq<nat>)
    requires Linked(env, items, |items|, s, op) && AllAsHeard(env, items, |items|, t.blocks, op, true)
    requires forall c :: 0 <= c < |op| && s.blocks[c].ToolCall? ==> t.blocks[c] == s.blocks[c]
    ensures |t.blocks| == |s.blocks| && forall c :: 0 <= c < |s.blocks| ==>
      if s.blocks[c].ToolCall? then t.blocks[c] == s.blocks[c] else !t.blocks[c].ToolCall?
  {
    LinkedBasics(env, items, |items|, s, op);
    hide Linked, HeardBy;
    forall c | 0 <= c < |s.blocks| && !s.blocks[c].ToolCall? ensures !t.blocks[c].ToolCall? {
      SaysIndex(env, items, |items|, s, op, c);
      assert AsHeard(env, items, |items|, t.blocks[c], op[c], true);
    }
  }

  /** A stream that fails and did not hold its events back keeps the text and the reasoning that were told
      before the failure; redacted reasoning is sealed where it was stopped or all checks had passed. */
  lemma {:induction false} FailedIsHeard(env: Env, items: seq<Item>, aborted: bool, buffered: bool)
    returns (n: nat, op: seq<nat>)
    requires FinalizesAll(env) && forall i :: 0 <= i < |items| ==> Indexed(items[i])
    ensures Receives(items, n) && Openings(items, n, op)
    ensures var r := Stream(env, items, aborted, buffered);
      r.Failed? ==>
        && r.content == (if buffered then [] else Kept(env, items, n, op, Passes(items, n, aborted)))
        && (buffered ==> r.events == [])
  {
    var s;
    n, op, s := StreamFollows(env, items, aborted, buffered);
    LinkedBasics(env, items, n, s, op);
    if Passes(items, n, aborted) {
      CloseKeepsRange(env, s, 0);
      ClosedAsHeard(env, items, s, op);
      SurvivingIsKept(env, items, n, CloseFrom(env, s, 0).blocks, op, true);
    } else {
      ReceivedAsHeard(env, items, n, s, op);
      SurvivingIsKept(env, items, n, s.blocks, op, false);
    }
    hide Follows, CloseFrom, Flush, Kept, Surviving;
  }
}
