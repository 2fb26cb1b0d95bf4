/**
  What a conversion keeps of its transcript, read off the messages alone: the tool calls, the texts, the
  reasoning, the images and what the tool results say, in order and under the right role.
*/
module BedrockConserved {
  import opened Options
  import opened JsText
  import opened BedrockConvert
  import opened BedrockConvertProofs

  // ---- Views ----------------------------------------------------------------------------------

  type View<!T> = (Role, Content) -> seq<T>

  function Flat<S, T>(each: S -> seq<T>, xs: seq<S>): seq<T> {
    if xs == [] then [] else each(xs[0]) + Flat(each, xs[1..])
  }

  /** What a view sees of the content of one message, in order. */
  function Seen<T>(view: View<T>, role: Role, content: seq<Content>): seq<T> {
    if content == [] then [] else view(role, content[0]) + Seen(view, role, content[1..])
  }

  function SeenIn<T>(view: View<T>, outs: seq<Out>): seq<T> {
    if outs == [] then [] else Seen(view, outs[0].role, outs[0].content) + SeenIn(view, outs[1..])
  }

  lemma {:induction false} FlatAppend<S, T>(each: S -> seq<T>, xs: seq<S>, ys: seq<S>)
    ensures Flat(each, xs + ys) == Flat(each, xs) + Flat(each, ys)
  {
    if xs == [] {
      assert xs + ys == ys;
    } else {
      FlatAppend(each, xs[1..], ys);
      assert (xs + ys)[0] == xs[0] && (xs + ys)[1..] == xs[1..] + ys;
      Assoc(each(xs[0]), Flat(each, xs[1..]), Flat(each, ys));
    }
  }

  lemma {:induction false} SeenAppend<T>(view: View<T>, role: Role, xs: seq<Content>, ys: seq<Content>)
    ensures Seen(view, role, xs + ys) == Seen(view, role, xs) + Seen(view, role, ys)
  {
    if xs == [] {
      assert xs + ys == ys;
    } else {
      SeenAppend(view, role, xs[1..], ys);
      assert (xs + ys)[0] == xs[0] && (xs + ys)[1..] == xs[1..] + ys;
      Assoc(view(role, xs[0]), Seen(view, role, xs[1..]), Seen(view, role, ys));
    }
  }

  lemma {:induction false} SeenInAppend<T>(view: View<T>, xs: seq<Out>, ys: seq<Out>)
    ensures SeenIn(view, xs + ys) == SeenIn(view, xs) + SeenIn(view, ys)
  {
    if xs == [] {
      assert xs + ys == ys;
    } else {
      SeenInAppend(view, xs[1..], ys);
      assert (xs + ys)[0] == xs[0] && (xs + ys)[1..] == xs[1..] + ys;
      Assoc(Seen(view, xs[0].role, xs[0].content), SeenIn(view, xs[1..]), SeenIn(view, ys));
    }
  }

  lemma SeenOne<T>(view: View<T>, role: Role, c: Content)
    ensures Seen(view, role, [c]) == view(role, c)
  {
    assert [c][1..] == [];
    assert view(role, c) + [] == view(role, c);
  }

  // ---- Reading the transcript -------------------------------------------------------------------

  /** What each kind of part holds, and each tool result. */
  datatype Reading<!T> = Reading(
    part: Part -> seq<T>, spoken: AssistantPart -> seq<T>, result: (string, seq<Part>, bool) -> seq<T>)

  /** What a message holds: a plain text reads as one text part. */
  function Of<T>(read: Reading<T>, m: Message): seq<T> {
    match m
    case User(Plain(text), _) => read.part(TextPart(text))
    case User(Parts(parts), _) => Flat(read.part, parts)
    case Assistant(parts) => Flat(read.spoken, parts)
    case ToolResult(id, results, isError) => read.result(id, results, isError)
    case UnknownRole => []
  }

  function Held<T>(read: Reading<T>, ms: seq<Message>): seq<T> {
    if ms == [] then [] else Of(read, ms[0]) + Held(read, ms[1..])
  }

  lemma {:induction false} HeldAppend<T>(read: Reading<T>, xs: seq<Message>, ys: seq<Message>)
    ensures Held(read, xs + ys) == Held(read, xs) + Held(read, ys)
  {
    hide Of;
    if xs == [] {
      assert xs + ys == ys;
    } else {
      HeldAppend(read, xs[1..], ys);
      assert (xs + ys)[0] == xs[0] && (xs + ys)[1..] == xs[1..] + ys;
      Assoc(Of(read, xs[0]), Held(read, xs[1..]), Held(read, ys));
    }
  }

  // ---- What has to be kept part by part ---------------------------------------------------------

  /** A view sees no cache point, and of each part on its own what is read from it. */
  ghost predicate KeepsParts<T>(env: Env, model: Model, view: View<T>, read: Reading<T>) {
    && (forall role :: view(role, CCachePoint) == [])
    && (forall p :: ConvertParts(env, [p]).Some? ==>
          Seen(view, UserRole, ConvertParts(env, [p]).value) == read.part(p))
    && (forall p :: ConvertAssistant(env, model, [p]).Some? ==>
          Seen(view, AssistantRole, ConvertAssistant(env, model, [p]).value) == read.spoken(p))
  }

  /** Of a run of tool results the view sees what is read from them. */
  ghost predicate KeepsRuns<T>(env: Env, model: Model, view: View<T>, read: Reading<T>) {
    forall rs {:trigger CreateAll(env, rs)} :: AllToolResults(rs) && CreateAll(env, rs).Some? ==>
      Seen(view, UserRole, RunContent(model, CreateAll(env, rs).value)) == Held(read, rs)
  }

  lemma BothWhole<T>(a: Option<seq<T>>)
    ensures Both(a, Some([])) == a
  {
    if a.Some? {
      assert a.value + [] == a.value;
    }
  }

  lemma {:induction false} PartsKept<T>(env: Env, model: Model, view: View<T>, read: Reading<T>, parts: seq<Part>)
    requires KeepsParts(env, model, view, read) && ConvertParts(env, parts).Some?
    ensures Seen(view, UserRole, ConvertParts(env, parts).value) == Flat(read.part, parts)
  {
    if parts != [] {
      assert [parts[0]][1..] == [];
      PartsCons(env, parts);
      hide ConvertParts;
      PartsKept(env, model, view, read, parts[1..]);
      SeenAppend(view, UserRole, ConvertParts(env, [parts[0]]).value, ConvertParts(env, parts[1..]).value);
    }
  }

  lemma PartsCons(env: Env, parts: seq<Part>)
    requires parts != []
    ensures ConvertParts(env, parts) == Both(ConvertParts(env, [parts[0]]), ConvertParts(env, parts[1..]))
  {
    assert [parts[0]][1..] == [];
    assert ConvertParts(env, []) == Some([]);
    assert forall xs: seq<Content> :: xs + [] == xs;
  }

  lemma {:induction false} SpokenKept<T>(
    env: Env, model: Model, view: View<T>, read: Reading<T>, parts: seq<AssistantPart>)
    requires KeepsParts(env, model, view, read) && ConvertAssistant(env, model, parts).Some?
    ensures Seen(view, AssistantRole, ConvertAssistant(env, model, parts).value) == Flat(read.spoken, parts)
  {
    if parts != [] {
      SpokenCons(env, model, parts);
      hide ConvertAssistant;
      SpokenKept(env, model, view, read, parts[1..]);
      SeenAppend(view, AssistantRole, ConvertAssistant(env, model, [parts[0]]).value,
                 ConvertAssistant(env, model, parts[1..]).value);
    }
  }

  lemma SpokenCons(env: Env, model: Model, parts: seq<AssistantPart>)
    requires parts != []
    ensures ConvertAssistant(env, model, parts) ==
      Both(ConvertAssistant(env, model, [parts[0]]), ConvertAssistant(env, model, parts[1..]))
  {
    hide ConvertThought;
    assert [parts[0]][1..] == [];
    assert ConvertAssistant(env, model, []) == Some([]);
    assert forall xs: seq<Content> :: xs + [] == xs;
  }

  lemma {:induction false} SegmentKept<T>(env: Env, model: Model, view: View<T>, read: Reading<T>, g: Segment)
    requires KeepsParts(env, model, view, read) && KeepsRuns(env, model, view, read)
    requires GoodSegment(g) && ConvertSegment(env, model, g).Some?
    ensures SeenIn(view, Outs(ConvertSegment(env, model, g).value)) == Held(read, Unfold([g]))
  {
    var ts := ConvertSegment(env, model, g).value;
    assert [g][1..] == [];
    assert ts == [] || ts[1..] == [];
    match g
    case Run(rs) => assert Unfold([g]) == rs + [] == rs;
    case Single(m) =>
      assert Unfold([g]) == [m] && [m][1..] == [];
      assert Held(read, [m]) == Of(read, m) + [] == Of(read, m);
      match m
      case User(Plain(text), _) => PlainKept(env, model, view, read, text);
      case User(Parts(parts), _) => PartsKept(env, model, view, read, parts);
      case Assistant(parts) => SpokenKept(env, model, view, read, parts);
      case UnknownRole =>
  }

  lemma PlainKept<T>(env: Env, model: Model, view: View<T>, read: Reading<T>, text: string)
    requires KeepsParts(env, model, view, read)
    ensures Seen(view, UserRole, [CText(env.sanitize(text))]) == read.part(TextPart(text))
  {
    assert [TextPart(text)][1..] == [];
    assert ConvertParts(env, [TextPart(text)]) == Some([CText(env.sanitize(text))] + []);
    assert [CText(env.sanitize(text))] + [] == [CText(env.sanitize(text))];
  }

  lemma {:induction false} SegmentsKept<T>(env: Env, model: Model, view: View<T>, read: Reading<T>, gs: seq<Segment>)
    requires KeepsParts(env, model, view, read) && KeepsRuns(env, model, view, read)
    requires GoodSegments(gs) && ConvertSegments(env, model, gs).Some?
    ensures SeenIn(view, Outs(ConvertSegments(env, model, gs).value)) == Held(read, Unfold(gs))
  {
    if gs != [] {
      hide ConvertSegment, Unfold, KeepsParts, KeepsRuns, Outs, SeenIn, Held;
      var first, rest := ConvertSegment(env, model, gs[0]).value, ConvertSegments(env, model, gs[1..]).value;
      SegmentKept(env, model, view, read, gs[0]);
      SegmentsKept(env, model, view, read, gs[1..]);
      OutsAppend(first, rest);
      SeenInAppend(view, Outs(first), Outs(rest));
      UnfoldCons(gs);
      HeldAppend(read, Unfold([gs[0]]), Unfold(gs[1..]));
    }
  }

  lemma {:induction false} MarkUnseen<T>(view: View<T>, outs: seq<Out>, k: nat)
    requires k < |outs| && forall role :: view(role, CCachePoint) == []
    ensures SeenIn(view, outs[k := Mark(outs[k])]) == SeenIn(view, outs)
  {
    if k == 0 {
      SeenAppend(view, outs[0].role, outs[0].content, [CCachePoint]);
      SeenOne(view, outs[0].role, CCachePoint);
      assert outs[0 := Mark(outs[0])][1..] == outs[1..];
    } else {
      MarkUnseen(view, outs[1..], k - 1);
      assert outs[k := Mark(outs[k])][1..] == outs[1..][k - 1 := Mark(outs[1..][k - 1])];
    }
  }

  /** What is kept part by part is kept by the whole conversion, in order, with or without a cache point. */
  lemma {:induction false} ViewKept<T>(
    env: Env, model: Model, view: View<T>, read: Reading<T>, ms: seq<Message>, cachePoint: bool)
    requires KeepsParts(env, model, view, read) && KeepsRuns(env, model, view, read)
    requires Convert(env, model, ms, cachePoint).Some?
    ensures SeenIn(view, Convert(env, model, ms, cachePoint).value) == Held(read, ms)
  {
    ConvertIsRest(env, model, ms, cachePoint);
    SegmentsPartition(ms);
    var ts := Rest(env, model, ms).value;
    SegmentsKept(env, model, view, read, Segments(ms));
    hide Convert, Segments, ConvertSegments, SeenIn, Held, KeepsRuns;
    var anchor := Anchor(ts, |ts|);
    if cachePoint && EndsWithUser(Outs(ts)) && anchor.Some? {
      MarkUnseen(view, Outs(ts), anchor.value);
    }
  }

  // ---- Runs of tool results ---------------------------------------------------------------------

  /** Of a converted tool result the view sees what is read from its message. A hoisting model splits a result;
      then only the part that stays, or only what is attached, is seen. */
  ghost predicate KeepsResults<T>(env: Env, model: Model, view: View<T>, read: Reading<T>, attached: bool) {
    forall m: Message {:trigger CreateToolResult(env, m)} :: m.ToolResult? && CreateToolResult(env, m).Some? ==>
      var c, own := CreateToolResult(env, m).value, read.result(m.callId, m.results, m.isError);
      if !model.hoistsImages then view(UserRole, c) == own
      else if attached then view(UserRole, Remaining(c)) == [] && Seen(view, UserRole, Attached(c)) == own
      else view(UserRole, Remaining(c)) == own && Seen(view, UserRole, Attached(c)) == []
  }

  lemma {:induction false} ResultsKept<T>(
    env: Env, model: Model, view: View<T>, read: Reading<T>, attached: bool, rs: seq<Message>)
    requires KeepsResults(env, model, view, read, attached) && AllToolResults(rs) && CreateAll(env, rs).Some?
    ensures var cs := CreateAll(env, rs).value;
      if !model.hoistsImages then Seen(view, UserRole, cs) == Held(read, rs)
      else if attached then
        Seen(view, UserRole, RemainingAll(cs)) == [] && Seen(view, UserRole, AttachedAll(cs)) == Held(read, rs)
      else
        Seen(view, UserRole, RemainingAll(cs)) == Held(read, rs) && Seen(view, UserRole, AttachedAll(cs)) == []
  {
    hide Remaining, Attached;
    if rs != [] {
      var first, rest := CreateToolResult(env, rs[0]).value, CreateAll(env, rs[1..]).value;
      var cs := CreateAll(env, rs).value;
      assert cs == [first] + rest && cs[0] == first && cs[1..] == rest;
      hide CreateToolResult;
      ResultsKept(env, model, view, read, attached, rs[1..]);
      assert Of(read, rs[0]) == read.result(rs[0].callId, rs[0].results, rs[0].isError);
      assert RemainingAll(cs)[1..] == RemainingAll(rest);
      SeenAppend(view, UserRole, Attached(first), AttachedAll(rest));
    }
  }

  lemma {:induction false} RunsKept<T>(env: Env, model: Model, view: View<T>, read: Reading<T>, attached: bool)
    requires KeepsResults(env, model, view, read, attached)
    ensures KeepsRuns(env, model, view, read)
  {
    hide KeepsResults, CreateAll, RemainingAll, AttachedAll, Held;
    forall rs {:trigger CreateAll(env, rs)} | AllToolResults(rs) && CreateAll(env, rs).Some?
      ensures Seen(view, UserRole, RunContent(model, CreateAll(env, rs).value)) == Held(read, rs)
    {
      var cs := CreateAll(env, rs).value;
      ResultsKept(env, model, view, read, attached, rs);
      if model.hoistsImages {
        SeenAppend(view, UserRole, RemainingAll(cs), AttachedAll(cs));
      }
    }
  }

  // ---- Single parts -----------------------------------------------------------------------------

  lemma OnePart(env: Env, p: Part)
    ensures ConvertParts(env, [p]) ==
      if p.TextPart? then Some([CText(env.sanitize(p.text))])
      else if p.OtherPart? then Some([])
      else if env.image(p.mimeType, p.data).Some? then Some([CImage(env.image(p.mimeType, p.data).value)])
      else None
  {
    assert [p][1..] == [];
    assert ConvertParts(env, []) == Some([]);
    assert forall xs: seq<Content> :: xs + [] == xs;
  }

  lemma OneSpoken(env: Env, model: Model, p: AssistantPart)
    ensures ConvertAssistant(env, model, [p]) ==
      if p.Said? then (if Trim(p.text) == "" then Some([]) else Some([CText(env.sanitize(p.text))]))
      else if p.Called? then Some([CToolUse(p.id, p.name, p.arguments)])
      else if p.Thought? then ConvertThought(env, model, p.thinking, p.signature, p.redacted)
      else Some([])
  {
    hide ConvertThought, Trim;
    assert [p][1..] == [];
    assert ConvertAssistant(env, model, []) == Some([]);
    assert forall xs: seq<Content> :: xs + [] == xs;
  }

  lemma {:induction false} SeenNothing<T>(view: View<T>, role: Role, content: seq<Content>)
    requires forall k :: 0 <= k < |content| ==> view(role, content[k]) == []
    ensures Seen(view, role, content) == []
  {
    if content != [] {
      SeenNothing(view, role, content[1..]);
    }
  }

  lemma SeenAtMostOne<T>(view: View<T>, role: Role, content: seq<Content>)
    ensures content == [] ==> Seen(view, role, content) == []
    ensures |content| == 1 ==> Seen(view, role, content) == view(role, content[0])
  {
    if |content| == 1 {
      SeenOne(view, role, content[0]);
      assert content == [content[0]];
    }
  }

  lemma ThoughtIsOne(env: Env, model: Model, thinking: string, signature: Option<string>, redacted: bool)
    ensures var r := ConvertThought(env, model, thinking, signature, redacted); r.Some? ==> |r.value| <= 1
  {
    hide Trim;
  }

  lemma {:induction false} PicturesAreContent(pictures: seq<Picture>)
    ensures |AsContent(pictures)| == |pictures|
    ensures forall k :: 0 <= k < |pictures| ==> AsContent(pictures)[k] == CImage(pictures[k])
  {
    if pictures != [] {
      PicturesAreContent(pictures[1..]);
    }
  }

  lemma AttachedSeen<T>(view: View<T>, c: Content)
    requires c.CToolResult?
    ensures Seen(view, UserRole, Attached(c)) ==
      if ImagesOf(c.parts) == [] then []
      else view(UserRole, CText("Images from tool result " + c.id + ":"))
             + Seen(view, UserRole, AsContent(ImagesOf(c.parts)))
  {
    if ImagesOf(c.parts) != [] {
      assert Attached(c)[1..] == AsContent(ImagesOf(c.parts));
    }
  }

  // ---- Tool calls -------------------------------------------------------------------------------

  function CallsView(): View<(Role, Content)> {
    (role, c: Content) => if c.CToolUse? then [(role, c)] else []
  }

  function CallsRead(): Reading<(Role, Content)> {
    Reading(_ => [],
            (p: AssistantPart) => if p.Called? then [(AssistantRole, CToolUse(p.id, p.name, p.arguments))] else [],
            (_, _, _) => [])
  }

  /** Every tool call of the transcript is sent once, in order, with its id, name and arguments, by an assistant
      message, and no other. */
  lemma {:induction false} ToolCallsConserved(env: Env, model: Model, ms: seq<Message>, cachePoint: bool)
    requires Convert(env, model, ms, cachePoint).Some?
    ensures SeenIn(CallsView(), Convert(env, model, ms, cachePoint).value) == Held(CallsRead(), ms)
  {
    var view, read := CallsView(), CallsRead();
    forall p | ConvertParts(env, [p]).Some?
      ensures Seen(view, UserRole, ConvertParts(env, [p]).value) == read.part(p)
    {
      OnePart(env, p);
      SeenAtMostOne(view, UserRole, ConvertParts(env, [p]).value);
    }
    forall p | ConvertAssistant(env, model, [p]).Some?
      ensures Seen(view, AssistantRole, ConvertAssistant(env, model, [p]).value) == read.spoken(p)
    {
      OneSpoken(env, model, p);
      hide Trim;
      SeenAtMostOne(view, AssistantRole, ConvertAssistant(env, model, [p]).value);
      if p.Thought? {
        ThoughtIsOne(env, model, p.thinking, p.signature, p.redacted);
      }
    }
    SilentResults(env, model, view, read);
    RunsKept(env, model, view, read, false);
    ViewKept(env, model, view, read, ms, cachePoint);
  }

  /** A view that sees neither tool results nor texts nor images reads nothing of results. */
  lemma {:induction false} SilentResults<T>(env: Env, model: Model, view: View<T>, read: Reading<T>)
    requires forall c: Content {:trigger view(UserRole, c)} ::
      c.CToolResult? || c.CText? || c.CImage? ==> view(UserRole, c) == []
    requires forall id, results, isError {:trigger read.result(id, results, isError)} ::
      read.result(id, results, isError) == []
    ensures KeepsResults(env, model, view, read, false)
  {
    hide CreateToolResult, Remaining;
    forall m: Message {:trigger CreateToolResult(env, m)} | m.ToolResult? && CreateToolResult(env, m).Some?
      ensures Seen(view, UserRole, Attached(CreateToolResult(env, m).value)) == []
    {
      var c := CreateToolResult(env, m).value;
      PicturesAreContent(ImagesOf(c.parts));
      SeenNothing(view, UserRole, Attached(c));
    }
  }

  // ---- Reasoning --------------------------------------------------------------------------------

  function ReasoningView(): View<(Role, Content)> {
    (role, c: Content) => if c.CReasoning? || c.CRedacted? then [(role, c)] else []
  }

  /** Only Claude takes reasoning back: redacted reasoning as its bytes, other reasoning with a signature that is
      neither blank nor the placeholder. */
  function ReasoningRead(env: Env, model: Model): Reading<(Role, Content)> {
    Reading(_ => [],
            (p: AssistantPart) =>
              if !p.Thought? || !model.claude || p.signature.None? then []
              else if p.redacted then
                var bytes := env.decode(p.signature.value);
                if bytes.Some? then [(AssistantRole, CRedacted(bytes.value))] else []
              else if Trim(p.signature.value) != "" && Trim(p.signature.value) != "reasoning_content" then
                [(AssistantRole, CReasoning(p.thinking, p.signature.value))]
              else [],
            (_, _, _) => [])
  }

  lemma {:induction false} ReasoningConserved(env: Env, model: Model, ms: seq<Message>, cachePoint: bool)
    requires Convert(env, model, ms, cachePoint).Some?
    ensures SeenIn(ReasoningView(), Convert(env, model, ms, cachePoint).value) == Held(ReasoningRead(env, model), ms)
  {
    hide Trim;
    var view, read := ReasoningView(), ReasoningRead(env, model);
    forall p | ConvertParts(env, [p]).Some?
      ensures Seen(view, UserRole, ConvertParts(env, [p]).value) == read.part(p)
    {
      OnePart(env, p);
      SeenAtMostOne(view, UserRole, ConvertParts(env, [p]).value);
    }
    forall p | ConvertAssistant(env, model, [p]).Some?
      ensures Seen(view, AssistantRole, ConvertAssistant(env, model, [p]).value) == read.spoken(p)
    {
      OneSpoken(env, model, p);
      SeenAtMostOne(view, AssistantRole, ConvertAssistant(env, model, [p]).value);
    }
    SilentResults(env, model, view, read);
    RunsKept(env, model, view, read, false);
    ViewKept(env, model, view, read, ms, cachePoint);
  }

  // ---- Texts ------------------------------------------------------------------------------------

  function TextsView(): View<(Role, string)> {
    (role, c: Content) => if c.CText? then [(role, c.text)] else []
  }

  /** Texts are sanitised; blank texts of the assistant are dropped, and so is reasoning that cannot be signed
      only because its signature is the placeholder. A tool result whose images are hoisted is labelled. */
  function TextsRead(env: Env, model: Model): Reading<(Role, string)> {
    Reading((p: Part) => if p.TextPart? then [(UserRole, env.sanitize(p.text))] else [],
            (p: AssistantPart) =>
              if p.Said? then (if Trim(p.text) == "" then [] else [(AssistantRole, env.sanitize(p.text))])
              else if !p.Thought? || p.redacted || Trim(p.thinking) == "" then []
              else if model.claude && p.signature.Some? && Trim(p.signature.value) != "" then []
              else [(AssistantRole, env.sanitize(p.thinking))],
            (id: string, results: seq<Part>, _) =>
              if model.hoistsImages && ShownImages(env, results) != []
              then [(UserRole, "Images from tool result " + id + ":")] else [])
  }

  lemma {:induction false} TextsConserved(env: Env, model: Model, ms: seq<Message>, cachePoint: bool)
    requires Convert(env, model, ms, cachePoint).Some?
    ensures SeenIn(TextsView(), Convert(env, model, ms, cachePoint).value) == Held(TextsRead(env, model), ms)
  {
    hide Trim;
    var view, read := TextsView(), TextsRead(env, model);
    forall p | ConvertParts(env, [p]).Some?
      ensures Seen(view, UserRole, ConvertParts(env, [p]).value) == read.part(p)
    {
      OnePart(env, p);
      SeenAtMostOne(view, UserRole, ConvertParts(env, [p]).value);
    }
    forall p | ConvertAssistant(env, model, [p]).Some?
      ensures Seen(view, AssistantRole, ConvertAssistant(env, model, [p]).value) == read.spoken(p)
    {
      OneSpoken(env, model, p);
      SeenAtMostOne(view, AssistantRole, ConvertAssistant(env, model, [p]).value);
    }
    forall m: Message {:trigger CreateToolResult(env, m)} | m.ToolResult? && CreateToolResult(env, m).Some?
      ensures var c, own := CreateToolResult(env, m).value, read.result(m.callId, m.results, m.isError);
        if model.hoistsImages then Seen(view, UserRole, Attached(c)) == own else own == []
    {
      var c := CreateToolResult(env, m).value;
      CreatedImages(env, m);
      hide CreateToolResult, Attached;
      AttachedSeen(view, c);
      PicturesAreContent(ImagesOf(c.parts));
      SeenNothing(view, UserRole, AsContent(ImagesOf(c.parts)));
    }
    assert KeepsResults(env, model, view, read, true) by {
      hide CreateToolResult, Attached, Remaining;
    }
    RunsKept(env, model, view, read, true);
    ViewKept(env, model, view, read, ms, cachePoint);
  }

  // ---- Images -----------------------------------------------------------------------------------

  function ImagesView(): View<Picture> {
    (_, c: Content) => if c.CImage? then [c.picture] else if c.CToolResult? then ImagesOf(c.parts) else []
  }

  function ImagesRead(env: Env): Reading<Picture> {
    Reading((p: Part) =>
              if p.ImagePart? && env.image(p.mimeType, p.data).Some? then [env.image(p.mimeType, p.data).value] else [],
            _ => [],
            (_, results: seq<Part>, _) => ShownImages(env, results))
  }

  /** No image is lost or moved, whether or not the model has the images of tool results hoisted. */
  lemma {:induction false} ImagesConserved(env: Env, model: Model, ms: seq<Message>, cachePoint: bool)
    requires Convert(env, model, ms, cachePoint).Some?
    ensures SeenIn(ImagesView(), Convert(env, model, ms, cachePoint).value) == Held(ImagesRead(env), ms)
  {
    var view, read := ImagesView(), ImagesRead(env);
    forall p | ConvertParts(env, [p]).Some?
      ensures Seen(view, UserRole, ConvertParts(env, [p]).value) == read.part(p)
    {
      OnePart(env, p);
      SeenAtMostOne(view, UserRole, ConvertParts(env, [p]).value);
    }
    forall p | ConvertAssistant(env, model, [p]).Some?
      ensures Seen(view, AssistantRole, ConvertAssistant(env, model, [p]).value) == read.spoken(p)
    {
      OneSpoken(env, model, p);
      SeenAtMostOne(view, AssistantRole, ConvertAssistant(env, model, [p]).value);
      if p.Thought? {
        ThoughtIsOne(env, model, p.thinking, p.signature, p.redacted);
      }
      hide Trim;
    }
    forall m: Message {:trigger CreateToolResult(env, m)} | m.ToolResult? && CreateToolResult(env, m).Some?
      ensures var c, own := CreateToolResult(env, m).value, read.result(m.callId, m.results, m.isError);
        if model.hoistsImages then view(UserRole, Remaining(c)) == [] && Seen(view, UserRole, Attached(c)) == own
        else view(UserRole, c) == own
    {
      var c := CreateToolResult(env, m).value;
      CreatedImages(env, m);
      hide CreateToolResult, Attached;
      RemainingHasNoImage(c);
      AttachedSeen(view, c);
      ImagesSeen(ImagesOf(c.parts));
    }
    assert KeepsResults(env, model, view, read, true) by {
      hide CreateToolResult, Attached, Remaining;
    }
    RunsKept(env, model, view, read, true);
    ViewKept(env, model, view, read, ms, cachePoint);
  }

  lemma {:induction false} ImagesSeen(pictures: seq<Picture>)
    ensures Seen(ImagesView(), UserRole, AsContent(pictures)) == pictures
  {
    if pictures != [] {
      ImagesSeen(pictures[1..]);
      assert AsContent(pictures)[1..] == AsContent(pictures[1..]);
      assert [pictures[0]] + pictures[1..] == pictures;
    }
  }

  // ---- What tool results say ----------------------------------------------------------------------

  datatype Shown = Shown(id: string, texts: seq<string>, isError: bool)

  function ResultsView(): View<Shown> {
    (_, c: Content) => if c.CToolResult? then [Shown(c.id, TextsIn(c.parts), c.isError)] else []
  }

  /** The texts of a tool result, or its placeholder where it shows nothing; a hoisting model refers to the
      labelled images. */
  function SaysOf(env: Env, model: Model, id: string, results: seq<Part>): seq<string> {
    var texts, images := SanitizedTexts(env, results), ShownImages(env, results);
    if images == [] then
      if texts != [] then texts
      else [if env.placeholder(results).Some? then env.placeholder(results).value else "(no output)"]
    else if model.hoistsImages then texts + ["(see attached images labeled \"" + ("Images from tool result " + id) + "\")"]
    else texts
  }

  function ResultsRead(env: Env, model: Model): Reading<Shown> {
    Reading(_ => [], _ => [],
            (id: string, results: seq<Part>, isError: bool) => [Shown(id, SaysOf(env, model, id, results), isError)])
  }

  lemma {:induction false} ResultTextsConserved(env: Env, model: Model, ms: seq<Message>, cachePoint: bool)
    requires Convert(env, model, ms, cachePoint).Some?
    ensures SeenIn(ResultsView(), Convert(env, model, ms, cachePoint).value) == Held(ResultsRead(env, model), ms)
  {
    var view, read := ResultsView(), ResultsRead(env, model);
    forall p | ConvertParts(env, [p]).Some?
      ensures Seen(view, UserRole, ConvertParts(env, [p]).value) == read.part(p)
    {
      OnePart(env, p);
      SeenAtMostOne(view, UserRole, ConvertParts(env, [p]).value);
    }
    forall p | ConvertAssistant(env, model, [p]).Some?
      ensures Seen(view, AssistantRole, ConvertAssistant(env, model, [p]).value) == read.spoken(p)
    {
      OneSpoken(env, model, p);
      SeenAtMostOne(view, AssistantRole, ConvertAssistant(env, model, [p]).value);
      if p.Thought? {
        ThoughtIsOne(env, model, p.thinking, p.signature, p.redacted);
      }
      hide Trim;
    }
    forall m: Message {:trigger CreateToolResult(env, m)} | m.ToolResult? && CreateToolResult(env, m).Some?
      ensures var c, own := CreateToolResult(env, m).value, read.result(m.callId, m.results, m.isError);
        if model.hoistsImages then view(UserRole, Remaining(c)) == own && Seen(view, UserRole, Attached(c)) == []
        else view(UserRole, c) == own
    {
      ResultShown(env, model, m);
    }
    hide ResultsView, ResultsRead;
    assert KeepsResults(env, model, view, read, false) by {
      hide CreateToolResult, Attached, Remaining;
    }
    RunsKept(env, model, view, read, false);
    ViewKept(env, model, view, read, ms, cachePoint);
  }

  lemma {:induction false} ResultShown(env: Env, model: Model, m: Message)
    requires m.ToolResult? && CreateToolResult(env, m).Some?
    ensures var view, read := ResultsView(), ResultsRead(env, model);
      var c, own := CreateToolResult(env, m).value, read.result(m.callId, m.results, m.isError);
      && Seen(view, UserRole, Attached(c)) == []
      && if model.hoistsImages then view(UserRole, Remaining(c)) == own else view(UserRole, c) == own
  {
    var c := CreateToolResult(env, m).value;
    CreatedSays(env, m);
    RemainingSays(c);
    PicturesAreContent(ImagesOf(c.parts));
    SeenNothing(ResultsView(), UserRole, Attached(c));
    hide CreateToolResult, Attached, Remaining, ImagesOf, TextsIn, SanitizedTexts, ShownImages;
  }

  lemma {:induction false} NothingShown(parts: seq<ResultPart>)
    ensures parts == [] <==> TextsIn(parts) == [] && ImagesOf(parts) == []
  {
  }

  lemma CreatedSays(env: Env, m: Message)
    requires m.ToolResult? && CreateToolResult(env, m).Some?
    ensures var c, p := CreateToolResult(env, m).value, env.placeholder(m.results);
      var texts, images := SanitizedTexts(env, m.results), ShownImages(env, m.results);
      && c.id == m.callId && c.isError == m.isError && ImagesOf(c.parts) == images
      && (texts != [] || images != [] ==> TextsIn(c.parts) == texts)
      && (texts == [] && images == [] ==>
            TextsIn(c.parts) == [if p.Some? then p.value else "(no output)"])
  {
    CreatedImages(env, m);
    ResultKeepsTexts(env, m.results);
    ResultKeepsImages(env, m.results);
    var parts := ResultParts(env, m.results).value;
    NothingShown(parts);
    if parts == [] {
      var shown := CreateToolResult(env, m).value.parts;
      assert shown[1..] == [];
    }
  }

  lemma {:induction false} TextsAppend(xs: seq<ResultPart>, ys: seq<ResultPart>)
    ensures TextsIn(xs + ys) == TextsIn(xs) + TextsIn(ys)
  {
    if xs == [] {
      assert xs + ys == ys;
    } else {
      TextsAppend(xs[1..], ys);
      var head := if xs[0].ResultText? then [xs[0].text] else [];
      assert (xs + ys)[0] == xs[0] && (xs + ys)[1..] == xs[1..] + ys;
      assert TextsIn(xs + ys) == head + TextsIn(xs[1..] + ys);
      Assoc(head, TextsIn(xs[1..]), TextsIn(ys));
    }
  }

  lemma {:induction false} WithoutImagesSays(parts: seq<ResultPart>)
    ensures TextsIn(WithoutImages(parts)) == TextsIn(parts)
  {
    if parts != [] {
      WithoutImagesSays(parts[1..]);
      TextsAppend(if parts[0].ResultImage? then [] else [parts[0]], WithoutImages(parts[1..]));
      assert [parts[0]][1..] == [];
    }
  }

  lemma RemainingSays(c: Content)
    requires c.CToolResult?
    ensures TextsIn(Remaining(c).parts) ==
      if ImagesOf(c.parts) == [] then TextsIn(c.parts)
      else TextsIn(c.parts) + ["(see attached images labeled \"" + ("Images from tool result " + c.id) + "\")"]
  {
    if ImagesOf(c.parts) != [] {
      var note := ResultText("(see attached images labeled \"" + Label(c.id) + "\")");
      TextsAppend(WithoutImages(c.parts), [note]);
      WithoutImagesSays(c.parts);
      assert [note][1..] == [];
    }
  }

  // ---- When the conversion throws -----------------------------------------------------------------

  predicate BadPart(env: Env, p: Part) {
    p.ImagePart? && env.image(p.mimeType, p.data).None?
  }

  /** Redacted reasoning without a signature, or with one that is no base64. */
  predicate BadSpoken(env: Env, model: Model, p: AssistantPart) {
    && p.Thought? && p.redacted && model.claude
    && (p.signature.None? || p.signature.value == "" || env.decode(p.signature.value).None?)
  }

  predicate BadMessage(env: Env, model: Model, m: Message) {
    match m
    case User(Plain(_), _) => false
    case User(Parts(parts), _) => exists k :: 0 <= k < |parts| && BadPart(env, parts[k])
    case Assistant(parts) => exists k :: 0 <= k < |parts| && BadSpoken(env, model, parts[k])
    case ToolResult(_, results, _) =>
      exists k :: 0 <= k < |results| && BadPart(env, results[k]) && Truthy(env.placeholder([results[k]]))
    case UnknownRole => false
  }

  predicate AnyBad(env: Env, model: Model, ms: seq<Message>) {
    exists k :: 0 <= k < |ms| && BadMessage(env, model, ms[k])
  }

  lemma {:induction false} PartsThrowIff(env: Env, parts: seq<Part>)
    ensures ConvertParts(env, parts).None? <==> exists k :: 0 <= k < |parts| && BadPart(env, parts[k])
  {
    if parts != [] {
      PartsThrowIff(env, parts[1..]);
      assert forall k :: 1 <= k < |parts| ==> parts[k] == parts[1..][k - 1];
      if k :| 0 <= k < |parts[1..]| && BadPart(env, parts[1..][k]) {
        assert BadPart(env, parts[k + 1]);
      }
    }
  }

  lemma {:induction false} SpokenThrowsIff(env: Env, model: Model, parts: seq<AssistantPart>)
    ensures ConvertAssistant(env, model, parts).None? <==> exists k :: 0 <= k < |parts| && BadSpoken(env, model, parts[k])
  {
    hide Trim;
    if parts != [] {
      SpokenThrowsIff(env, model, parts[1..]);
      assert forall k :: 1 <= k < |parts| ==> parts[k] == parts[1..][k - 1];
      if k :| 0 <= k < |parts[1..]| && BadSpoken(env, model, parts[1..][k]) {
        assert BadSpoken(env, model, parts[k + 1]);
      }
    }
  }

  lemma {:induction false} ResultThrowsIff(env: Env, parts: seq<Part>)
    ensures ResultParts(env, parts).None? <==>
      exists k :: 0 <= k < |parts| && BadPart(env, parts[k]) && Truthy(env.placeholder([parts[k]]))
  {
    if parts != [] {
      ResultThrowsIff(env, parts[1..]);
      assert forall k :: 1 <= k < |parts| ==> parts[k] == parts[1..][k - 1];
      if k :| 0 <= k < |parts[1..]| && BadPart(env, parts[1..][k]) && Truthy(env.placeholder([parts[1..][k]])) {
        assert BadPart(env, parts[k + 1]) && Truthy(env.placeholder([parts[k + 1]]));
      }
    }
  }

  lemma {:induction false} AnyBadCons(env: Env, model: Model, ms: seq<Message>)
    requires ms != []
    ensures AnyBad(env, model, ms) <==> BadMessage(env, model, ms[0]) || AnyBad(env, model, ms[1..])
  {
    hide BadMessage;
    if k :| 0 <= k < |ms[1..]| && BadMessage(env, model, ms[1..][k]) {
      assert BadMessage(env, model, ms[k + 1]);
    }
    if k :| 0 <= k < |ms| && BadMessage(env, model, ms[k]) && k > 0 {
      assert BadMessage(env, model, ms[1..][k - 1]);
    }
  }

  lemma {:induction false} AnyBadAppend(env: Env, model: Model, xs: seq<Message>, ys: seq<Message>)
    ensures AnyBad(env, model, xs + ys) <==> AnyBad(env, model, xs) || AnyBad(env, model, ys)
  {
    hide AnyBad, BadMessage;
    if xs == [] {
      assert xs + ys == ys;
      NoneBad(env, model);
    } else {
      AnyBadAppend(env, model, xs[1..], ys);
      AnyBadCons(env, model, xs);
      AnyBadCons(env, model, xs + ys);
      assert (xs + ys)[1..] == xs[1..] + ys;
    }
  }

  lemma NoneBad(env: Env, model: Model)
    ensures !AnyBad(env, model, [])
  {
  }

  lemma {:induction false} CreateAllThrowsIff(env: Env, model: Model, rs: seq<Message>)
    requires AllToolResults(rs)
    ensures CreateAll(env, rs).None? <==> AnyBad(env, model, rs)
  {
    if rs != [] {
      CreateAllThrowsIff(env, model, rs[1..]);
      AnyBadCons(env, model, rs);
      ResultThrowsIff(env, rs[0].results);
      hide AnyBad, ResultParts;
    }
  }

  lemma {:induction false} SegmentThrowsIff(env: Env, model: Model, g: Segment)
    requires GoodSegment(g)
    ensures ConvertSegment(env, model, g).None? <==> AnyBad(env, model, Unfold([g]))
  {
    hide ConvertParts, ConvertAssistant, CreateAll, RunContent;
    assert [g][1..] == [];
    match g
    case Run(rs) =>
      assert Unfold([g]) == rs + [] == rs;
      CreateAllThrowsIff(env, model, rs);
    case Single(m) =>
      assert Unfold([g]) == [m] && [m][1..] == [];
      AnyBadCons(env, model, [m]);
      NoneBad(env, model);
      match m
      case User(Plain(_), _) =>
      case User(Parts(parts), _) => PartsThrowIff(env, parts);
      case Assistant(parts) => SpokenThrowsIff(env, model, parts);
      case UnknownRole =>
  }

  lemma {:induction false} SegmentsThrowIff(env: Env, model: Model, gs: seq<Segment>)
    requires GoodSegments(gs)
    ensures ConvertSegments(env, model, gs).None? <==> AnyBad(env, model, Unfold(gs))
  {
    if gs == [] {
      NoneBad(env, model);
    } else {
      hide ConvertSegment, Unfold, AnyBad;
      SegmentThrowsIff(env, model, gs[0]);
      SegmentsThrowIff(env, model, gs[1..]);
      UnfoldCons(gs);
      AnyBadAppend(env, model, Unfold([gs[0]]), Unfold(gs[1..]));
    }
  }

  /** The conversion throws exactly when some message holds an image that cannot be read, or redacted reasoning
      for Claude whose signature is missing or malformed; images without a placeholder are not looked at in tool
      results. */
  lemma {:induction false} ThrowsIff(env: Env, model: Model, ms: seq<Message>, cachePoint: bool)
    ensures Convert(env, model, ms, cachePoint).None? <==> AnyBad(env, model, ms)
  {
    ConvertIsRest(env, model, ms, cachePoint);
    SegmentsPartition(ms);
    SegmentsThrowIff(env, model, Segments(ms));
  }

  // ---- Transient context --------------------------------------------------------------------------

  function TransientOf(ts: seq<Tagged>): seq<seq<Content>> {
    if ts == [] then []
    else (if ts[0].transient then [ts[0].out.content] else []) + TransientOf(ts[1..])
  }

  /** The carriers of transient context that have content, unless the model binds its thinking to the prefix. */
  function CarriersOf(env: Env, model: Model, ms: seq<Message>): seq<seq<Content>> {
    if ms == [] then []
    else
      var m := ms[0];
      (if m.User? && m.carrier && !model.bindsThinkingPrefix
          && ConvertUser(env, m.content).Some? && ConvertUser(env, m.content).value != []
       then [ConvertUser(env, m.content).value] else [])
      + CarriersOf(env, model, ms[1..])
  }

  lemma {:induction false} TransientAppend(xs: seq<Tagged>, ys: seq<Tagged>)
    ensures TransientOf(xs + ys) == TransientOf(xs) + TransientOf(ys)
  {
    if xs == [] {
      assert xs + ys == ys;
    } else {
      TransientAppend(xs[1..], ys);
      var head := if xs[0].transient then [xs[0].out.content] else [];
      assert (xs + ys)[0] == xs[0] && (xs + ys)[1..] == xs[1..] + ys;
      Assoc(head, TransientOf(xs[1..]), TransientOf(ys));
    }
  }

  lemma {:induction false} CarriersAppend(env: Env, model: Model, xs: seq<Message>, ys: seq<Message>)
    ensures CarriersOf(env, model, xs + ys) == CarriersOf(env, model, xs) + CarriersOf(env, model, ys)
  {
    if xs == [] {
      assert xs + ys == ys;
    } else {
      hide ConvertUser;
      CarriersAppend(env, model, xs[1..], ys);
      assert (xs + ys)[0] == xs[0] && (xs + ys)[1..] == xs[1..] + ys;
      Assoc(CarriersOf(env, model, [xs[0]]), CarriersOf(env, model, xs[1..]), CarriersOf(env, model, ys));
      CarriersCons(env, model, xs);
      CarriersCons(env, model, xs + ys);
    }
  }

  lemma CarriersCons(env: Env, model: Model, ms: seq<Message>)
    requires ms != []
    ensures CarriersOf(env, model, ms) == CarriersOf(env, model, [ms[0]]) + CarriersOf(env, model, ms[1..])
  {
    assert [ms[0]][1..] == [];
    assert forall xs: seq<seq<Content>> :: xs + [] == xs;
  }

  lemma {:induction false} RunHasNoCarrier(env: Env, model: Model, rs: seq<Message>)
    requires AllToolResults(rs)
    ensures CarriersOf(env, model, rs) == []
  {
    if rs != [] {
      RunHasNoCarrier(env, model, rs[1..]);
    }
  }

  lemma SegmentTransient(env: Env, model: Model, g: Segment)
    requires GoodSegment(g) && ConvertSegment(env, model, g).Some?
    ensures TransientOf(ConvertSegment(env, model, g).value) == CarriersOf(env, model, Unfold([g]))
  {
    hide ConvertUser, ConvertAssistant, CreateAll, RunContent;
    var ts := ConvertSegment(env, model, g).value;
    assert [g][1..] == [];
    assert ts == [] || ts[1..] == [];
    match g
    case Run(rs) =>
      assert Unfold([g]) == rs + [] == rs;
      RunHasNoCarrier(env, model, rs);
    case Single(m) => assert Unfold([g]) == [m] && [m][1..] == [];
  }

  lemma {:induction false} SegmentsTransient(env: Env, model: Model, gs: seq<Segment>)
    requires GoodSegments(gs) && ConvertSegments(env, model, gs).Some?
    ensures TransientOf(ConvertSegments(env, model, gs).value) == CarriersOf(env, model, Unfold(gs))
  {
    if gs != [] {
      hide ConvertSegment, Unfold, TransientOf, CarriersOf;
      SegmentTransient(env, model, gs[0]);
      SegmentsTransient(env, model, gs[1..]);
      TransientAppend(ConvertSegment(env, model, gs[0]).value, ConvertSegments(env, model, gs[1..]).value);
      UnfoldCons(gs);
      CarriersAppend(env, model, Unfold([gs[0]]), Unfold(gs[1..]));
    }
  }

  /** The messages behind which no cache point is placed are exactly the carriers of transient context. */
  lemma {:induction false} TransientAreCarriers(env: Env, model: Model, ms: seq<Message>)
    requires Rest(env, model, ms).Some?
    ensures TransientOf(Rest(env, model, ms).value) == CarriersOf(env, model, ms)
  {
    SegmentsPartition(ms);
    SegmentsTransient(env, model, Segments(ms));
  }
}
