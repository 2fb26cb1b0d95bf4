/** The converting loop, and what the conversion guarantees for every transcript. */
module BedrockConvertProofs {
  import opened Options
  import opened JsText
  import opened BedrockConvert

  // ---- The index-jumping loop ---------------------------------------------------------------

  lemma Assoc<T>(a: seq<T>, b: seq<T>, c: seq<T>)
    ensures a + (b + c) == (a + b) + c
  {
  }

  lemma BothAssoc<T>(a: Option<seq<T>>, b: Option<seq<T>>, c: Option<seq<T>>)
    ensures Both(Both(a, b), c) == Both(a, Both(b, c))
  {
    if a.Some? && b.Some? && c.Some? {
      assert a.value + b.value + c.value == a.value + (b.value + c.value);
    }
  }

  lemma BothEmpty<T>(a: Option<seq<T>>)
    ensures Both(Some([]), a) == a && Both(a, Some([])) == a
  {
    if a.Some? {
      assert [] + a.value == a.value && a.value + [] == a.value;
    }
  }

  /** The conversion of what is left of the transcript from `i` on. */
  function Rest(env: Env, model: Model, ms: seq<Message>): Option<seq<Tagged>> {
    SegmentsPartition(ms);
    ConvertSegments(env, model, Segments(ms))
  }

  lemma RestRun(env: Env, model: Model, ms: seq<Message>, n: nat)
    requires ms != [] && ms[0].ToolResult? && n == RunLength(ms)
    ensures 0 < n && GoodSegment(Run(ms[..n]))
    ensures Rest(env, model, ms) == Both(ConvertSegment(env, model, Run(ms[..n])), Rest(env, model, ms[n..]))
  {
    SegmentsPartition(ms);
    SegmentsPartition(ms[n..]);
    assert Segments(ms)[1..] == Segments(ms[n..]);
  }

  lemma RestSingle(env: Env, model: Model, ms: seq<Message>)
    requires ms != [] && !ms[0].ToolResult?
    ensures Rest(env, model, ms) ==
      Both(ConvertSegment(env, model, Single(ms[0])), Rest(env, model, ms[1..]))
  {
    SegmentsPartition(ms);
    SegmentsPartition(ms[1..]);
    assert Segments(ms)[1..] == Segments(ms[1..]);
  }

  function Maybe<T>(r: Option<T>): Option<seq<T>> {
    if r.None? then None else Some([r.value])
  }

  /** Collects the run of tool results that starts at `i`. */
  method CollectRun(env: Env, ms: seq<Message>, i: nat) returns (j: nat, results: Option<seq<Content>>)
    requires i < |ms| && ms[i].ToolResult?
    ensures i < j <= |ms| && j - i == RunLength(ms[i..])
    ensures AllToolResults(ms[i..j]) && results == CreateAll(env, ms[i..j])
  {
    hide CreateAll, CreateToolResult, RunLength, Both, Maybe;
    results := Maybe(CreateToolResult(env, ms[i]));
    j := i + 1;
    FirstOfRun(env, ms, i);
    while j < |ms| && ms[j].ToolResult?
      invariant i < j <= |ms| && AllToolResults(ms[i..j])
      invariant results == CreateAll(env, ms[i..j])
    {
      NextOfRun(env, ms, i, j);
      results := Both(results, Maybe(CreateToolResult(env, ms[j])));
      j := j + 1;
    }
    EndOfRun(ms, i, j);
  }

  lemma FirstOfRun(env: Env, ms: seq<Message>, i: nat)
    requires i < |ms| && ms[i].ToolResult?
    ensures AllToolResults(ms[i..i + 1])
    ensures CreateAll(env, ms[i..i + 1]) == Maybe(CreateToolResult(env, ms[i]))
  {
    CreateOne(env, ms[i]);
    assert ms[i..i + 1] == [ms[i]];
  }

  lemma NextOfRun(env: Env, ms: seq<Message>, i: nat, j: nat)
    requires i < j < |ms| && AllToolResults(ms[i..j]) && ms[j].ToolResult?
    ensures AllToolResults(ms[i..j + 1])
    ensures CreateAll(env, ms[i..j + 1]) == Both(CreateAll(env, ms[i..j]), Maybe(CreateToolResult(env, ms[j])))
  {
    hide CreateAll, CreateToolResult, Both, Maybe;
    CreateSnoc(env, ms[i..j], ms[j]);
    assert ms[i..j] + [ms[j]] == ms[i..j + 1];
  }

  lemma EndOfRun(ms: seq<Message>, i: nat, j: nat)
    requires i < j <= |ms| && AllToolResults(ms[i..j]) && (j < |ms| ==> !ms[j].ToolResult?)
    ensures RunLength(ms[i..]) == j - i
  {
    assert ms[i..][..j - i] == ms[i..j];
    RunLengthIs(ms[i..], j - i);
  }

  lemma CreateOne(env: Env, m: Message)
    requires m.ToolResult?
    ensures CreateAll(env, [m]) == Maybe(CreateToolResult(env, m))
  {
    assert [m][1..] == [];
    BothEmpty(Maybe(CreateToolResult(env, m)));
  }

  lemma {:induction false} CreateSnoc(env: Env, ms: seq<Message>, m: Message)
    requires AllToolResults(ms) && m.ToolResult?
    ensures AllToolResults(ms + [m])
    ensures CreateAll(env, ms + [m]) == Both(CreateAll(env, ms), Maybe(CreateToolResult(env, m)))
  {
    CreateOne(env, m);
    if ms == [] {
      assert ms + [m] == [m];
      BothEmpty(CreateAll(env, [m]));
    } else {
      CreateSnoc(env, ms[1..], m);
      assert (ms + [m])[1..] == ms[1..] + [m];
      BothAssoc(Maybe(CreateToolResult(env, ms[0])), CreateAll(env, ms[1..]), Maybe(CreateToolResult(env, m)));
    }
  }

  lemma {:induction false} RunLengthIs(ms: seq<Message>, n: nat)
    requires n <= |ms| && AllToolResults(ms[..n]) && (n < |ms| ==> !ms[n].ToolResult?)
    ensures RunLength(ms) == n
  {
    if n > 0 {
      assert ms[0] == ms[..n][0];
      assert ms[1..][..n - 1] == ms[..n][1..];
      RunLengthIs(ms[1..], n - 1);
    }
  }

  /** The state of the loop: the messages so far and the index of the first volatile one. */
  predicate Accumulated(ts: seq<Tagged>, result: seq<Out>, firstVolatile: Option<nat>) {
    && result == Outs(ts)
    && (firstVolatile.Some? ==>
        firstVolatile.value < |ts| && ts[firstVolatile.value].transient
        && forall k :: 0 <= k < firstVolatile.value ==> !ts[k].transient)
    && (firstVolatile.None? ==> forall k :: 0 <= k < |ts| ==> !ts[k].transient)
  }

  lemma OutsAppend(ts: seq<Tagged>, us: seq<Tagged>)
    ensures Outs(ts + us) == Outs(ts) + Outs(us)
  {
    hide Outs;
    var l, r := Outs(ts + us), Outs(ts) + Outs(us);
    assert forall k :: 0 <= k < |l| ==> l[k] == r[k];
  }

  /** One message of the loop: the tagged message it adds, if any. */
  method ConvertOne(env: Env, model: Model, m: Message) returns (added: Option<seq<Tagged>>)
    requires !m.ToolResult?
    ensures added == ConvertSegment(env, model, Single(m))
    ensures added.Some? ==> |added.value| <= 1
  {
    match m {
      case User(content, carrier) =>
        var c := ConvertUser(env, content);
        if c.None? {
          return None;
        }
        if c.value == [] {
          return Some([]);
        }
        return Some([Tagged(Out(UserRole, c.value), carrier && !model.bindsThinkingPrefix)]);
      case Assistant(parts) =>
        var c := ConvertAssistant(env, model, parts);
        if c.None? {
          return None;
        }
        if c.value == [] {
          return Some([]);
        }
        return Some([Tagged(Out(AssistantRole, c.value), false)]);
      case UnknownRole =>
        return Some([]);
    }
  }

  /** One turn of the loop: a message, or a whole run of tool results. */
  method ConvertNext(env: Env, model: Model, ms: seq<Message>, i: nat) returns (next: nat, added: Option<seq<Tagged>>)
    requires i < |ms|
    ensures i < next <= |ms| && (added.Some? ==> |added.value| <= 1)
    ensures Rest(env, model, ms[i..]) == Both(added, Rest(env, model, ms[next..]))
  {
    hide Rest, ConvertSegment, RunLength, Both, CreateAll;
    ghost var here := ms[i..];
    if ms[i].ToolResult? {
      var results;
      next, results := CollectRun(env, ms, i);
      RestRun(env, model, here, next - i);
      assert here[next - i..] == ms[next..] && here[..next - i] == ms[i..next];
      added := AddRun(env, model, ms[i..next], results);
    } else {
      RestSingle(env, model, here);
      assert here[1..] == ms[i + 1..];
      added := ConvertOne(env, model, ms[i]);
      next := i + 1;
    }
  }

  lemma ConvertIsRest(env: Env, model: Model, ms: seq<Message>, cachePoint: bool)
    ensures Convert(env, model, ms, cachePoint) ==
      match Rest(env, model, ms)
      case None => None
      case Some(ts) => Some(if cachePoint then PlaceCachePoint(ts) else Outs(ts))
  {
  }

  lemma BothFails<T>(a: Option<seq<T>>, b: Option<seq<T>>)
    ensures Both(None, b) == None && Both(a, None) == None
  {
  }

  lemma NothingAccumulated()
    ensures Accumulated([], [], None)
  {
  }

  lemma AccumulatedOuts(ts: seq<Tagged>, result: seq<Out>, firstVolatile: Option<nat>)
    requires Accumulated(ts, result, firstVolatile)
    ensures result == Outs(ts)
  {
  }

  lemma BothSome<T>(a: seq<T>, b: seq<T>)
    ensures Both(Some(a), Some(b)) == Some(a + b)
  {
  }

  /** `convertMessages`: the loop that jumps over runs, then the cache point. */
  method ConvertMessages(env: Env, model: Model, ms: seq<Message>, cachePoint: bool)
    returns (r: Option<seq<Out>>)
    ensures r == Convert(env, model, ms, cachePoint)
  {
    hide Rest, Both, Convert, Accumulated, Outs, PlaceCachePoint;
    var result: seq<Out> := [];
    var firstVolatile: Option<nat> := None;
    ghost var ts: seq<Tagged> := [];
    var i := 0;
    assert ms[0..] == ms;
    ConvertIsRest(env, model, ms, cachePoint);
    BothEmpty(Rest(env, model, ms));
    NothingAccumulated();
    while i < |ms|
      invariant i <= |ms| && Accumulated(ts, result, firstVolatile)
      invariant Rest(env, model, ms) == Both(Some(ts), Rest(env, model, ms[i..]))
    {
      var next, added := ConvertNext(env, model, ms, i);
      BothAssoc(Some(ts), added, Rest(env, model, ms[next..]));
      BothFails(Some(ts), Rest(env, model, ms[next..]));
      if added.None? {
        return None;
      }
      BothSome(ts, added.value);
      result, firstVolatile := Append(ts, result, firstVolatile, added.value);
      ts := ts + added.value;
      i := next;
    }
    assert ms[i..] == [];
    RestEmpty(env, model);
    BothEmpty(Some(ts));
    AccumulatedOuts(ts, result, firstVolatile);
    if cachePoint {
      result := AddCachePoint(ts, result, firstVolatile);
    }
    return Some(result);
  }

  method Append(ghost ts: seq<Tagged>, result0: seq<Out>, firstVolatile0: Option<nat>, added: seq<Tagged>)
    returns (result: seq<Out>, firstVolatile: Option<nat>)
    requires Accumulated(ts, result0, firstVolatile0) && |added| <= 1
    ensures Accumulated(ts + added, result, firstVolatile)
  {
    result, firstVolatile := result0, firstVolatile0;
    if added != [] {
      if added[0].transient && firstVolatile.None? {
        firstVolatile := Some(|result|);
      }
      OutsAppend(ts, added);
      assert added == [added[0]] && Outs(added) == [added[0].out];
      result := result + [added[0].out];
    } else {
      assert ts + added == ts;
    }
  }

  lemma AnchorSteps(ts: seq<Tagged>)
    ensures forall n :: 0 <= n <= |ts| ==>
      Anchor(ts, n) == if n == 0 then None else if Eligible(ts, n - 1) then Some(n - 1) else Anchor(ts, n - 1)
  {
    hide Eligible;
  }

  /** The cache point goes to the last user message before the first volatile one. */
  method AddCachePoint(ghost ts: seq<Tagged>, result0: seq<Out>, firstVolatile: Option<nat>)
    returns (result: seq<Out>)
    requires Accumulated(ts, result0, firstVolatile)
    ensures result == PlaceCachePoint(ts)
  {
    hide Anchor, Outs;
    AnchorSteps(ts);
    result := result0;
    if result != [] && result[|result| - 1].role == UserRole {
      var n := |result|;
      while n > 0
        invariant 0 <= n <= |result| == |ts| && Anchor(ts, n) == Anchor(ts, |ts|)
      {
        if result[n - 1].role == UserRole && (firstVolatile.None? || n - 1 < firstVolatile.value) {
          assert Eligible(ts, n - 1);
          result := result[n - 1 := Mark(result[n - 1])];
          return;
        }
        assert !Eligible(ts, n - 1);
        n := n - 1;
      }
    }
  }

  lemma RestEmpty(env: Env, model: Model)
    ensures Rest(env, model, []) == Some([])
  {
  }

  /** The user message that a run of tool results becomes. */
  method AddRun(env: Env, model: Model, run: seq<Message>, results: Option<seq<Content>>)
    returns (added: Option<seq<Tagged>>)
    requires GoodSegment(Run(run)) && results == CreateAll(env, run)
    ensures added == ConvertSegment(env, model, Run(run))
    ensures added.Some? ==> |added.value| <= 1
  {
    if results.None? {
      return None;
    }
    var userContent := results.value;
    if model.hoistsImages {
      var kept, attached := HoistImages(results.value);
      userContent := kept + attached;
    }
    return Some([Tagged(Out(UserRole, userContent), false)]);
  }

  /** Moves the images of tool results behind them. */
  method HoistImages(rs: seq<Content>) returns (kept: seq<Content>, attached: seq<Content>)
    requires AreToolResults(rs)
    ensures kept == RemainingAll(rs) && attached == AttachedAll(rs)
  {
    hide RemainingAll, AttachedAll, Remaining, Attached;
    kept, attached := [], [];
    var k := 0;
    assert rs[0..] == rs;
    while k < |rs|
      invariant k <= |rs|
      invariant kept + RemainingAll(rs[k..]) == RemainingAll(rs)
      invariant attached + AttachedAll(rs[k..]) == AttachedAll(rs)
    {
      HoistStep(rs, k);
      kept := kept + [Remaining(rs[k])];
      attached := attached + Attached(rs[k]);
      k := k + 1;
    }
    assert rs[k..] == [];
    HoistNothing();
  }

  lemma HoistStep(rs: seq<Content>, k: nat)
    requires AreToolResults(rs) && k < |rs|
    ensures RemainingAll(rs[k..]) == [Remaining(rs[k])] + RemainingAll(rs[k + 1..])
    ensures AttachedAll(rs[k..]) == Attached(rs[k]) + AttachedAll(rs[k + 1..])
  {
    assert rs[k..][1..] == rs[k + 1..];
  }

  lemma HoistNothing()
    ensures RemainingAll([]) == [] && AttachedAll([]) == []
  {
  }

  // ---- Every message has content ------------------------------------------------------------

  predicate AllFilled(ts: seq<Tagged>) {
    forall k :: 0 <= k < |ts| ==> ts[k].out.content != []
  }

  lemma SegmentFilled(env: Env, model: Model, g: Segment)
    requires GoodSegment(g) && ConvertSegment(env, model, g).Some?
    ensures AllFilled(ConvertSegment(env, model, g).value)
  {
    if g.Run? {
      RunShape(env, model, g.results);
    }
  }

  lemma {:induction false} SegmentsFilled(env: Env, model: Model, gs: seq<Segment>)
    requires GoodSegments(gs) && ConvertSegments(env, model, gs).Some?
    ensures AllFilled(ConvertSegments(env, model, gs).value)
  {
    if gs != [] {
      SegmentFilled(env, model, gs[0]);
      SegmentsFilled(env, model, gs[1..]);
    }
  }

  /** No message of a conversion is empty, with or without a cache point. */
  lemma ConvertedMessagesNonEmpty(env: Env, model: Model, ms: seq<Message>, cachePoint: bool)
    requires Convert(env, model, ms, cachePoint).Some?
    ensures forall k :: 0 <= k < |Convert(env, model, ms, cachePoint).value| ==>
      Convert(env, model, ms, cachePoint).value[k].content != []
  {
    SegmentsPartition(ms);
    SegmentsFilled(env, model, Segments(ms));
  }

  // ---- Runs of tool results -----------------------------------------------------------------

  lemma {:induction false} RemainingAt(rs: seq<Content>)
    requires AreToolResults(rs)
    ensures |RemainingAll(rs)| == |rs|
    ensures forall k :: 0 <= k < |rs| ==> RemainingAll(rs)[k] == Remaining(rs[k])
  {
    if rs != [] {
      RemainingAt(rs[1..]);
    }
  }

  lemma {:induction false} CreatedAt(env: Env, ms: seq<Message>)
    requires AllToolResults(ms) && CreateAll(env, ms).Some?
    ensures forall k :: 0 <= k < |ms| ==> Some(CreateAll(env, ms).value[k]) == CreateToolResult(env, ms[k])
  {
    hide CreateToolResult;
    if ms != [] {
      CreatedAt(env, ms[1..]);
    }
  }

  predicate NoToolResult(content: seq<Content>) {
    forall k :: 0 <= k < |content| ==> !content[k].CToolResult?
  }

  lemma {:induction false} ImagesAreNoResults(pictures: seq<Picture>)
    ensures NoToolResult(AsContent(pictures))
  {
    if pictures != [] {
      ImagesAreNoResults(pictures[1..]);
    }
  }

  lemma {:induction false} AttachedAreNoResults(rs: seq<Content>)
    requires AreToolResults(rs)
    ensures NoToolResult(AttachedAll(rs))
  {
    if rs != [] {
      ImagesAreNoResults(ImagesOf(rs[0].parts));
      AttachedAreNoResults(rs[1..]);
    }
  }

  /** A run of tool results becomes one user message: first one tool result per message, in order
      and with its id and status, then nothing that is a tool result. */
  lemma {:induction false} RunShape(env: Env, model: Model, rs: seq<Message>)
    requires GoodSegment(Run(rs)) && CreateAll(env, rs).Some?
    ensures ConvertSegment(env, model, Run(rs)).Some? && |ConvertSegment(env, model, Run(rs)).value| == 1
    ensures var o := ConvertSegment(env, model, Run(rs)).value[0].out;
      && o.role == UserRole && |rs| <= |o.content|
      && (forall k :: 0 <= k < |rs| ==>
            o.content[k].CToolResult? && o.content[k].id == rs[k].callId && o.content[k].isError == rs[k].isError)
      && (!model.hoistsImages ==> forall k :: 0 <= k < |rs| ==> Some(o.content[k]) == CreateToolResult(env, rs[k]))
      && NoToolResult(o.content[|rs|..])
  {
    var c := CreateAll(env, rs).value;
    CreatedAt(env, rs);
    RemainingAt(c);
    AttachedAreNoResults(c);
    var content := RunContent(model, c);
    if model.hoistsImages {
      assert content[|rs|..] == AttachedAll(c);
      assert forall k :: 0 <= k < |rs| ==> content[k] == Remaining(c[k]);
    }
  }

  function TextsIn(parts: seq<ResultPart>): seq<string> {
    if parts == [] then []
    else (if parts[0].ResultText? then [parts[0].text] else []) + TextsIn(parts[1..])
  }

  function SanitizedTexts(env: Env, parts: seq<Part>): seq<string> {
    if parts == [] then []
    else (if parts[0].TextPart? then [env.sanitize(parts[0].text)] else []) + SanitizedTexts(env, parts[1..])
  }

  /** A tool result shows every text of its message, sanitised and in order. */
  lemma {:induction false} ResultKeepsTexts(env: Env, parts: seq<Part>)
    requires ResultParts(env, parts).Some?
    ensures TextsIn(ResultParts(env, parts).value) == SanitizedTexts(env, parts)
  {
    if parts != [] {
      ResultKeepsTexts(env, parts[1..]);
      var rest := ResultParts(env, parts[1..]).value;
      var all := ResultParts(env, parts).value;
      assert all == rest || all[1..] == rest;
    }
  }

  /** The images that a message shows: those that have a placeholder, as they are converted. */
  function ShownImages(env: Env, parts: seq<Part>): seq<Picture> {
    if parts == [] then []
    else (if parts[0].ImagePart? && Truthy(env.placeholder([parts[0]])) && env.image(parts[0].mimeType, parts[0].data).Some?
          then [env.image(parts[0].mimeType, parts[0].data).value] else [])
         + ShownImages(env, parts[1..])
  }

  /** A tool result holds exactly the images that its message shows, in order. */
  lemma {:induction false} ResultKeepsImages(env: Env, parts: seq<Part>)
    requires ResultParts(env, parts).Some?
    ensures ImagesOf(ResultParts(env, parts).value) == ShownImages(env, parts)
  {
    if parts != [] {
      ResultKeepsImages(env, parts[1..]);
      var rest := ResultParts(env, parts[1..]).value;
      var all := ResultParts(env, parts).value;
      assert all == rest || all[1..] == rest;
    }
  }

  // ---- Hoisted images -----------------------------------------------------------------------

  function PicturesIn(content: seq<Content>): seq<Picture> {
    if content == [] then []
    else (if content[0].CImage? then [content[0].picture] else []) + PicturesIn(content[1..])
  }

  function AllImages(rs: seq<Content>): seq<Picture>
    requires AreToolResults(rs)
  {
    if rs == [] then [] else ImagesOf(rs[0].parts) + AllImages(rs[1..])
  }

  lemma {:induction false} PicturesAppend(xs: seq<Content>, ys: seq<Content>)
    ensures PicturesIn(xs + ys) == PicturesIn(xs) + PicturesIn(ys)
  {
    if xs == [] {
      assert xs + ys == ys;
    } else {
      PicturesAppend(xs[1..], ys);
      var head := if xs[0].CImage? then [xs[0].picture] else [];
      assert (xs + ys)[0] == xs[0] && (xs + ys)[1..] == xs[1..] + ys;
      assert PicturesIn(xs + ys) == head + PicturesIn(xs[1..] + ys);
      Assoc(head, PicturesIn(xs[1..]), PicturesIn(ys));
    }
  }

  lemma {:induction false} PicturesOfImages(pictures: seq<Picture>)
    ensures PicturesIn(AsContent(pictures)) == pictures
  {
    if pictures != [] {
      PicturesOfImages(pictures[1..]);
      assert AsContent(pictures)[1..] == AsContent(pictures[1..]);
      assert [pictures[0]] + pictures[1..] == pictures;
    }
  }

  lemma {:induction false} AttachedPictures(rs: seq<Content>)
    requires AreToolResults(rs)
    ensures PicturesIn(AttachedAll(rs)) == AllImages(rs)
  {
    if rs != [] {
      hide PicturesIn, Attached;
      AttachedPictures(rs[1..]);
      PicturesAppend(Attached(rs[0]), AttachedAll(rs[1..]));
      AttachedPicturesOne(rs[0]);
    } else {
      assert AttachedAll(rs) == [];
    }
  }

  lemma AttachedPicturesOne(r: Content)
    requires r.CToolResult?
    ensures PicturesIn(Attached(r)) == ImagesOf(r.parts)
  {
    var images := ImagesOf(r.parts);
    PicturesOfImages(images);
    if images != [] {
      assert Attached(r)[1..] == AsContent(images);
    }
  }

  lemma {:induction false} WithoutImagesHasNone(parts: seq<ResultPart>)
    ensures ImagesOf(WithoutImages(parts)) == []
    ensures ImagesOf(parts) == [] ==> WithoutImages(parts) == parts
  {
    if parts != [] {
      WithoutImagesHasNone(parts[1..]);
      if parts[0].ResultImage? {
        assert WithoutImages(parts) == WithoutImages(parts[1..]);
      } else {
        assert WithoutImages(parts)[1..] == WithoutImages(parts[1..]);
        assert [parts[0]] + parts[1..] == parts;
      }
    }
  }

  lemma {:induction false} ImagesAppend(xs: seq<ResultPart>, ys: seq<ResultPart>)
    ensures ImagesOf(xs + ys) == ImagesOf(xs) + ImagesOf(ys)
  {
    if xs == [] {
      assert xs + ys == ys;
    } else {
      ImagesAppend(xs[1..], ys);
      var head := if xs[0].ResultImage? then [xs[0].picture] else [];
      assert (xs + ys)[0] == xs[0] && (xs + ys)[1..] == xs[1..] + ys;
      assert ImagesOf(xs + ys) == head + ImagesOf(xs[1..] + ys);
      Assoc(head, ImagesOf(xs[1..]), ImagesOf(ys));
    }
  }

  lemma RemainingHasNoImage(r: Content)
    requires r.CToolResult?
    ensures ImagesOf(Remaining(r).parts) == [] && WithoutImages(r.parts) <= Remaining(r).parts
  {
    WithoutImagesHasNone(r.parts);
    if ImagesOf(r.parts) != [] {
      var note := ResultText("(see attached images labeled \"" + Label(r.id) + "\")");
      ImagesAppend(WithoutImages(r.parts), [note]);
      assert [note][1..] == [];
    }
  }

  /** Under a hoisting model no tool result holds an image, every tool result keeps its other parts
      in order, all of them precede the hoisted blocks, and the hoisted images are exactly those of
      the original results, in order. */
  lemma HoistingIsExact(model: Model, rs: seq<Content>)
    requires model.hoistsImages && AreToolResults(rs)
    ensures var content := RunContent(model, rs);
      && |rs| <= |content|
      && (forall k :: 0 <= k < |rs| ==>
            content[k].CToolResult? && ImagesOf(content[k].parts) == [] && WithoutImages(rs[k].parts) <= content[k].parts)
      && NoToolResult(content[|rs|..])
      && PicturesIn(content[|rs|..]) == AllImages(rs)
  {
    RemainingAt(rs);
    AttachedAreNoResults(rs);
    AttachedPictures(rs);
    var content := RunContent(model, rs);
    assert content[|rs|..] == AttachedAll(rs);
    forall k | 0 <= k < |rs|
      ensures content[k].CToolResult? && ImagesOf(content[k].parts) == [] && WithoutImages(rs[k].parts) <= content[k].parts
    {
      assert content[k] == Remaining(rs[k]);
      RemainingHasNoImage(rs[k]);
    }
  }

  /** The images that the messages of a run show. */
  function RunImages(env: Env, ms: seq<Message>): seq<Picture>
    requires AllToolResults(ms)
  {
    if ms == [] then [] else ShownImages(env, ms[0].results) + RunImages(env, ms[1..])
  }

  lemma {:induction false} CreatedImages(env: Env, m: Message)
    requires m.ToolResult? && CreateToolResult(env, m).Some?
    ensures ImagesOf(CreateToolResult(env, m).value.parts) == ShownImages(env, m.results)
  {
    ResultKeepsImages(env, m.results);
    var parts := ResultParts(env, m.results).value;
    if parts == [] {
      var shown := CreateToolResult(env, m).value.parts;
      assert |shown| == 1 && shown[0].ResultText? && shown[1..] == [];
    }
  }

  lemma {:induction false} AllCreatedImages(env: Env, ms: seq<Message>)
    requires AllToolResults(ms) && CreateAll(env, ms).Some?
    ensures AllImages(CreateAll(env, ms).value) == RunImages(env, ms)
  {
    if ms != [] {
      hide CreateToolResult, ShownImages, ImagesOf;
      CreatedImages(env, ms[0]);
      AllCreatedImages(env, ms[1..]);
      assert CreateAll(env, ms).value[1..] == CreateAll(env, ms[1..]).value;
    }
  }

  /** Under a hoisting model the message of a run carries behind its tool results exactly the images that the
      messages of the run show, in order, and none inside them. */
  lemma {:induction false} RunImagesHoisted(env: Env, model: Model, rs: seq<Message>)
    requires model.hoistsImages && GoodSegment(Run(rs)) && CreateAll(env, rs).Some?
    ensures ConvertSegment(env, model, Run(rs)).Some? && |ConvertSegment(env, model, Run(rs)).value| == 1
    ensures var o := ConvertSegment(env, model, Run(rs)).value[0].out;
      && |rs| <= |o.content|
      && (forall k :: 0 <= k < |rs| ==> o.content[k].CToolResult? && ImagesOf(o.content[k].parts) == [])
      && PicturesIn(o.content[|rs|..]) == RunImages(env, rs)
  {
    HoistingIsExact(model, CreateAll(env, rs).value);
    AllCreatedImages(env, rs);
  }

  // ---- No tool result is lost or repeated ---------------------------------------------------

  function ResultIds(content: seq<Content>): seq<string> {
    if content == [] then []
    else (if content[0].CToolResult? then [content[0].id] else []) + ResultIds(content[1..])
  }

  function AllResultIds(ts: seq<Tagged>): seq<string> {
    if ts == [] then [] else ResultIds(ts[0].out.content) + AllResultIds(ts[1..])
  }

  function CallIds(ms: seq<Message>): seq<string> {
    if ms == [] then [] else (if ms[0].ToolResult? then [ms[0].callId] else []) + CallIds(ms[1..])
  }

  lemma {:induction false} CallIdsAppend(xs: seq<Message>, ys: seq<Message>)
    ensures CallIds(xs + ys) == CallIds(xs) + CallIds(ys)
  {
    if xs == [] {
      assert xs + ys == ys;
    } else {
      CallIdsAppend(xs[1..], ys);
      var head := if xs[0].ToolResult? then [xs[0].callId] else [];
      assert (xs + ys)[0] == xs[0] && (xs + ys)[1..] == xs[1..] + ys;
      assert CallIds(xs + ys) == head + CallIds(xs[1..] + ys);
      Assoc(head, CallIds(xs[1..]), CallIds(ys));
    }
  }

  lemma {:induction false} AllResultIdsAppend(xs: seq<Tagged>, ys: seq<Tagged>)
    ensures AllResultIds(xs + ys) == AllResultIds(xs) + AllResultIds(ys)
  {
    if xs == [] {
      assert xs + ys == ys;
    } else {
      AllResultIdsAppend(xs[1..], ys);
      var head := ResultIds(xs[0].out.content);
      assert (xs + ys)[0] == xs[0] && (xs + ys)[1..] == xs[1..] + ys;
      assert AllResultIds(xs + ys) == head + AllResultIds(xs[1..] + ys);
      Assoc(head, AllResultIds(xs[1..]), AllResultIds(ys));
    }
  }

  lemma {:induction false} NoResultNoId(content: seq<Content>)
    requires NoToolResult(content)
    ensures ResultIds(content) == []
  {
    if content != [] {
      NoResultNoId(content[1..]);
    }
  }

  lemma {:induction false} RunIds(content: seq<Content>, rs: seq<Message>)
    requires |rs| <= |content| && AllToolResults(rs) && NoToolResult(content[|rs|..])
    requires forall k :: 0 <= k < |rs| ==> content[k].CToolResult? && content[k].id == rs[k].callId
    ensures ResultIds(content) == CallIds(rs)
    decreases |rs|
  {
    if rs == [] {
      assert content[0..] == content;
      NoResultNoId(content);
    } else {
      assert content[1..][|rs| - 1..] == content[|rs|..];
      RunIds(content[1..], rs[1..]);
    }
  }

  lemma {:induction false} PartsHaveNoResult(env: Env, parts: seq<Part>)
    requires ConvertParts(env, parts).Some?
    ensures NoToolResult(ConvertParts(env, parts).value)
  {
    if parts != [] {
      PartsHaveNoResult(env, parts[1..]);
    }
  }

  lemma {:induction false} AssistantHasNoResult(env: Env, model: Model, parts: seq<AssistantPart>)
    requires ConvertAssistant(env, model, parts).Some?
    ensures NoToolResult(ConvertAssistant(env, model, parts).value)
  {
    if parts != [] {
      AssistantHasNoResult(env, model, parts[1..]);
    }
  }

  lemma SegmentIds(env: Env, model: Model, g: Segment)
    requires GoodSegment(g) && ConvertSegment(env, model, g).Some?
    ensures AllResultIds(ConvertSegment(env, model, g).value) == CallIds(Unfold([g]))
  {
    var ts := ConvertSegment(env, model, g).value;
    assert [g][1..] == [];
    match g
    case Run(rs) =>
      RunShape(env, model, rs);
      RunIds(ts[0].out.content, rs);
      assert Unfold([g]) == rs + [] == rs;
      assert ts[1..] == [];
    case Single(m) =>
      assert Unfold([g]) == [m];
      assert [m][1..] == [];
      match m
      case User(Parts(parts), _) =>
        PartsHaveNoResult(env, parts);
        if ts != [] { NoResultNoId(ts[0].out.content); assert ts[1..] == []; }
      case User(Plain(_), _) => if ts != [] { NoResultNoId(ts[0].out.content); assert ts[1..] == []; }
      case Assistant(parts) =>
        AssistantHasNoResult(env, model, parts);
        if ts != [] { NoResultNoId(ts[0].out.content); assert ts[1..] == []; }
      case UnknownRole =>
  }

  lemma {:induction false} SegmentsIds(env: Env, model: Model, gs: seq<Segment>)
    requires GoodSegments(gs) && ConvertSegments(env, model, gs).Some?
    ensures AllResultIds(ConvertSegments(env, model, gs).value) == CallIds(Unfold(gs))
  {
    if gs != [] {
      hide ConvertSegment, Unfold, AllResultIds, CallIds;
      SegmentIds(env, model, gs[0]);
      SegmentsIds(env, model, gs[1..]);
      AllResultIdsAppend(ConvertSegment(env, model, gs[0]).value, ConvertSegments(env, model, gs[1..]).value);
      UnfoldCons(gs);
      CallIdsAppend(Unfold([gs[0]]), Unfold(gs[1..]));
    }
  }

  lemma UnfoldCons(gs: seq<Segment>)
    requires gs != []
    ensures Unfold(gs) == Unfold([gs[0]]) + Unfold(gs[1..])
  {
    assert [gs[0]][1..] == [];
  }

  lemma TaggedResultsConserved(env: Env, model: Model, ms: seq<Message>)
    requires Rest(env, model, ms).Some?
    ensures AllResultIds(Rest(env, model, ms).value) == CallIds(ms)
  {
    SegmentsPartition(ms);
    SegmentsIds(env, model, Segments(ms));
  }

  // ---- The cache point ----------------------------------------------------------------------

  predicate NoPoint(content: seq<Content>) {
    forall k :: 0 <= k < |content| ==> !content[k].CCachePoint?
  }

  /** A message with its cache points erased. */
  function Erase(content: seq<Content>): seq<Content> {
    if content == [] then []
    else (if content[0].CCachePoint? then [] else [content[0]]) + Erase(content[1..])
  }

  lemma {:induction false} EraseNothing(content: seq<Content>)
    requires NoPoint(content)
    ensures Erase(content) == content
  {
    if content != [] {
      EraseNothing(content[1..]);
      assert [content[0]] + content[1..] == content;
    }
  }

  lemma {:induction false} EraseMark(content: seq<Content>)
    requires NoPoint(content)
    ensures Erase(content + [CCachePoint]) == content
  {
    if content == [] {
      assert [CCachePoint][1..] == [];
    } else {
      EraseMark(content[1..]);
      assert (content + [CCachePoint])[1..] == content[1..] + [CCachePoint];
      assert [content[0]] + content[1..] == content;
    }
  }

  lemma {:induction false} PartsHaveNoPoint(env: Env, parts: seq<Part>)
    requires ConvertParts(env, parts).Some?
    ensures NoPoint(ConvertParts(env, parts).value)
  {
    if parts != [] {
      PartsHaveNoPoint(env, parts[1..]);
    }
  }

  lemma {:induction false} AssistantHasNoPoint(env: Env, model: Model, parts: seq<AssistantPart>)
    requires ConvertAssistant(env, model, parts).Some?
    ensures NoPoint(ConvertAssistant(env, model, parts).value)
  {
    if parts != [] {
      AssistantHasNoPoint(env, model, parts[1..]);
    }
  }

  lemma {:induction false} ImagesHaveNoPoint(pictures: seq<Picture>)
    ensures NoPoint(AsContent(pictures))
  {
    if pictures != [] {
      ImagesHaveNoPoint(pictures[1..]);
    }
  }

  lemma {:induction false} AttachedHaveNoPoint(rs: seq<Content>)
    requires AreToolResults(rs)
    ensures NoPoint(AttachedAll(rs))
  {
    if rs != [] {
      ImagesHaveNoPoint(ImagesOf(rs[0].parts));
      AttachedHaveNoPoint(rs[1..]);
    }
  }

  lemma SegmentHasNoPoint(env: Env, model: Model, g: Segment)
    requires GoodSegment(g) && ConvertSegment(env, model, g).Some?
    ensures forall k :: 0 <= k < |ConvertSegment(env, model, g).value| ==>
      NoPoint(ConvertSegment(env, model, g).value[k].out.content)
  {
    match g
    case Run(rs) =>
      var c := CreateAll(env, rs).value;
      RemainingAt(c);
      AttachedHaveNoPoint(c);
    case Single(User(Parts(parts), _)) => PartsHaveNoPoint(env, parts);
    case Single(Assistant(parts)) => AssistantHasNoPoint(env, model, parts);
    case _ =>
  }

  lemma {:induction false} SegmentsHaveNoPoint(env: Env, model: Model, gs: seq<Segment>)
    requires GoodSegments(gs) && ConvertSegments(env, model, gs).Some?
    ensures forall k :: 0 <= k < |ConvertSegments(env, model, gs).value| ==>
      NoPoint(ConvertSegments(env, model, gs).value[k].out.content)
  {
    if gs != [] {
      hide ConvertSegment;
      SegmentHasNoPoint(env, model, gs[0]);
      SegmentsHaveNoPoint(env, model, gs[1..]);
    }
  }

  predicate HasPoint(o: Out) {
    CCachePoint in o.content
  }

  /** A user message before all transient context. */
  predicate Cacheable(ts: seq<Tagged>, a: nat) {
    && a < |ts| && ts[a].out.role == UserRole
    && forall k :: 0 <= k < |ts| && ts[k].transient ==> a < k
  }

  lemma CacheableIsEligible(ts: seq<Tagged>)
    ensures forall a :: Eligible(ts, a) <==> Cacheable(ts, a)
  {
  }

  /** What one output message is, given the message without a cache point. */
  ghost predicate PlacedAt(ts: seq<Tagged>, k: nat, plain: Out, cached: Out)
    requires k < |ts|
  {
    && cached.role == plain.role && Erase(cached.content) == plain.content
    && (HasPoint(cached) ==>
        && ts[|ts| - 1].out.role == UserRole && Cacheable(ts, k) && (forall j :: k < j < |ts| ==> !Cacheable(ts, j))
        && cached.content == plain.content + [CCachePoint])
  }

  /** For every transcript: erasing cache points gives exactly the conversion without one; a cache
      point is the last block of the latest user message that precedes every volatile carrier; it is
      present exactly when the conversation ends with a user message and such a message exists, and
      then only once. */
  lemma CachePointPlacement(env: Env, model: Model, ms: seq<Message>)
    requires Rest(env, model, ms).Some?
    ensures Convert(env, model, ms, true).Some? && Convert(env, model, ms, false).Some?
    ensures var ts := Rest(env, model, ms).value;
      var plain, cached := Convert(env, model, ms, false).value, Convert(env, model, ms, true).value;
      && |cached| == |plain| == |ts|
      && (forall k :: 0 <= k < |ts| ==> PlacedAt(ts, k, plain[k], cached[k]))
      && (forall k, l :: 0 <= k < |ts| && 0 <= l < |ts| && HasPoint(cached[k]) && HasPoint(cached[l]) ==> k == l)
      && ((exists k :: 0 <= k < |ts| && HasPoint(cached[k])) <==>
          |plain| > 0 && plain[|plain| - 1].role == UserRole && exists a :: 0 <= a < |ts| && Cacheable(ts, a))
  {
    hide ConvertSegments, Segments;
    SegmentsPartition(ms);
    SegmentsHaveNoPoint(env, model, Segments(ms));
    PlacementIsExact(Rest(env, model, ms).value);
  }

  lemma PlacementIsExact(ts: seq<Tagged>)
    requires forall k :: 0 <= k < |ts| ==> NoPoint(ts[k].out.content)
    ensures var cached := PlaceCachePoint(ts);
      && |cached| == |ts|
      && (forall k :: 0 <= k < |ts| ==> PlacedAt(ts, k, ts[k].out, cached[k]))
      && (forall k, l :: 0 <= k < |ts| && 0 <= l < |ts| && HasPoint(cached[k]) && HasPoint(cached[l]) ==> k == l)
      && ((exists k :: 0 <= k < |ts| && HasPoint(cached[k])) <==>
          |ts| > 0 && ts[|ts| - 1].out.role == UserRole && exists a :: 0 <= a < |ts| && Cacheable(ts, a))
  {
    CacheableIsEligible(ts);
    hide Outs, Anchor, Eligible, Cacheable;
    var cached := PlaceCachePoint(ts);
    forall k | 0 <= k < |ts| ensures PlacedAt(ts, k, ts[k].out, cached[k]) {
      EraseNothing(ts[k].out.content);
      EraseMark(ts[k].out.content);
    }
    var anchor := Anchor(ts, |ts|);
    if EndsWithUser(Outs(ts)) && anchor.Some? {
      var content := cached[anchor.value].content;
      assert content[|content| - 1] == CCachePoint;
      assert HasPoint(cached[anchor.value]);
    }
  }

  // ---- The tool results of a conversion -------------------------------------------------------

  /** The call ids that the messages answer, in order. */
  function AnsweredIds(outs: seq<Out>): seq<string> {
    if outs == [] then [] else ResultIds(outs[0].content) + AnsweredIds(outs[1..])
  }

  lemma {:induction false} AnsweredByTagged(ts: seq<Tagged>, outs: seq<Out>)
    requires |outs| == |ts| && forall k :: 0 <= k < |ts| ==> ResultIds(outs[k].content) == ResultIds(ts[k].out.content)
    ensures AnsweredIds(outs) == AllResultIds(ts)
  {
    if ts != [] {
      AnsweredByTagged(ts[1..], outs[1..]);
    }
  }

  lemma {:induction false} MarkAnswersNothing(content: seq<Content>)
    ensures ResultIds(content + [CCachePoint]) == ResultIds(content)
  {
    if content == [] {
      assert [CCachePoint][1..] == [];
    } else {
      MarkAnswersNothing(content[1..]);
      assert (content + [CCachePoint])[1..] == content[1..] + [CCachePoint];
    }
  }

  lemma PlacingKeepsAnswers(ts: seq<Tagged>, k: nat)
    requires k < |ts|
    ensures |PlaceCachePoint(ts)| == |ts|
    ensures ResultIds(PlaceCachePoint(ts)[k].content) == ResultIds(ts[k].out.content)
  {
    hide ResultIds;
    MarkAnswersNothing(ts[k].out.content);
  }

  /** The tool results of the conversion answer exactly the tool-result messages of the transcript, in
      order: none is lost, repeated or moved, with or without a cache point. */
  lemma ToolResultsConserved(env: Env, model: Model, ms: seq<Message>, cachePoint: bool)
    requires Convert(env, model, ms, cachePoint).Some?
    ensures AnsweredIds(Convert(env, model, ms, cachePoint).value) == CallIds(ms)
  {
    ConvertIsRest(env, model, ms, cachePoint);
    hide Convert, Rest, PlaceCachePoint, Outs;
    var ts := Rest(env, model, ms).value;
    TaggedResultsConserved(env, model, ms);
    forall k | 0 <= k < |ts|
      ensures |PlaceCachePoint(ts)| == |ts| && ResultIds(PlaceCachePoint(ts)[k].content) == ResultIds(ts[k].out.content)
    {
      PlacingKeepsAnswers(ts, k);
    }
    PlacingKeepsLength(ts);
    AnsweredByTagged(ts, Convert(env, model, ms, cachePoint).value);
  }

  lemma PlacingKeepsLength(ts: seq<Tagged>)
    ensures |PlaceCachePoint(ts)| == |ts|
  {
  }
}
