/**
  Conversion of a transcript to Bedrock messages: runs of tool results become one user message, images
  may be hoisted out of tool results, and one cache point is placed before the volatile context.
*/
module BedrockConvert {
  import opened Options
  import opened JsText

  type Picture = nat

  /** A part of a user message or of a tool result. */
  datatype Part = TextPart(text: string) | ImagePart(mimeType: string, data: string) | OtherPart

  datatype UserContent = Plain(text: string) | Parts(parts: seq<Part>)

  datatype AssistantPart =
    | Said(text: string)
    | Called(id: string, name: string, arguments: string)
    | Thought(thinking: string, signature: Option<string>, redacted: bool)
    | Unsupported

  /** A message after `transformMessages`. */
  datatype Message =
    | User(content: UserContent, carrier: bool)
    | Assistant(parts: seq<AssistantPart>)
    | ToolResult(callId: string, results: seq<Part>, isError: bool)
    | UnknownRole

  datatype ResultPart = ResultText(text: string) | ResultImage(picture: Picture)

  datatype Content =
    | CText(text: string)
    | CImage(picture: Picture)
    | CToolUse(id: string, name: string, arguments: string)
    | CReasoning(text: string, signature: string)
    | CRedacted(bytes: Picture)
    | CToolResult(id: string, parts: seq<ResultPart>, isError: bool)
    | CCachePoint

  datatype Role = UserRole | AssistantRole

  datatype Out = Out(role: Role, content: seq<Content>)

  /** Platform and library code; `None` stands for a thrown error. */
  datatype Env = Env(
    sanitize: string -> string,
    image: (string, string) -> Option<Picture>,
    decode: string -> Option<Picture>,
    placeholder: seq<Part> -> Option<string>)

  datatype Model = Model(claude: bool, hoistsImages: bool, bindsThinkingPrefix: bool)

  // ---- One message --------------------------------------------------------------------------

  function ConvertParts(env: Env, parts: seq<Part>): Option<seq<Content>> {
    if parts == [] then Some([])
    else
      var first :=
        match parts[0]
        case TextPart(text) => Some([CText(env.sanitize(text))])
        case ImagePart(mimeType, data) =>
          (match env.image(mimeType, data)
           case None => None
           case Some(p) => Some([CImage(p)]))
        case OtherPart => Some([]);
      Both(first, ConvertParts(env, parts[1..]))
  }

  /** Both conversions, unless one throws. */
  function Both<T>(first: Option<seq<T>>, rest: Option<seq<T>>): Option<seq<T>> {
    if first.None? || rest.None? then None else Some(first.value + rest.value)
  }

  function ConvertUser(env: Env, content: UserContent): Option<seq<Content>> {
    match content
    case Plain(text) => Some([CText(env.sanitize(text))])
    case Parts(parts) => ConvertParts(env, parts)
  }

  function ConvertThought(env: Env, model: Model, thinking: string, signature: Option<string>, redacted: bool)
    : Option<seq<Content>>
  {
    if redacted then
      if !model.claude then Some([])
      else if signature.None? || signature.value == "" then None
      else
        match env.decode(signature.value)
        case None => None
        case Some(bytes) => Some([CRedacted(bytes)])
    else
      var normalized := if signature.Some? then Trim(signature.value) else "";
      var native := model.claude && normalized != "" && normalized != "reasoning_content";
      if Trim(thinking) == "" && !native then Some([])
      else if model.claude && normalized == "reasoning_content" then Some([])
      else if native then Some([CReasoning(thinking, signature.value)])
      else Some([CText(env.sanitize(thinking))])
  }

  function ConvertAssistant(env: Env, model: Model, parts: seq<AssistantPart>): Option<seq<Content>> {
    if parts == [] then Some([])
    else
      var first :=
        match parts[0]
        case Said(text) => if Trim(text) == "" then Some([]) else Some([CText(env.sanitize(text))])
        case Called(id, name, arguments) => Some([CToolUse(id, name, arguments)])
        case Thought(thinking, signature, redacted) => ConvertThought(env, model, thinking, signature, redacted)
        case Unsupported => Some([]);
      Both(first, ConvertAssistant(env, model, parts[1..]))
  }

  // ---- Tool results -------------------------------------------------------------------------

  predicate Truthy(s: Option<string>) {
    s.Some? && s.value != ""
  }

  function ResultParts(env: Env, parts: seq<Part>): Option<seq<ResultPart>> {
    if parts == [] then Some([])
    else
      var first :=
        match parts[0]
        case TextPart(text) => Some([ResultText(env.sanitize(text))])
        case ImagePart(mimeType, data) =>
          (if Truthy(env.placeholder([parts[0]])) then
             match env.image(mimeType, data)
             case None => None
             case Some(p) => Some([ResultImage(p)])
           else Some([]))
        case OtherPart => Some([]);
      Both(first, ResultParts(env, parts[1..]))
  }

  /** `createBedrockToolResult`. */
  function CreateToolResult(env: Env, m: Message): (r: Option<Content>)
    requires m.ToolResult?
    ensures r.Some? ==> r.value.CToolResult? && r.value.id == m.callId && r.value.parts != []
  {
    match ResultParts(env, m.results)
    case None => None
    case Some(parts) =>
      var p := env.placeholder(m.results);
      var shown := if parts != [] then parts else [ResultText(if p.Some? then p.value else "(no output)")];
      Some(CToolResult(m.callId, shown, m.isError))
  }

  predicate AllToolResults(ms: seq<Message>) {
    forall k :: 0 <= k < |ms| ==> ms[k].ToolResult?
  }

  predicate AreToolResults(rs: seq<Content>) {
    forall k :: 0 <= k < |rs| ==> rs[k].CToolResult?
  }

  function CreateAll(env: Env, ms: seq<Message>): (r: Option<seq<Content>>)
    requires AllToolResults(ms)
    ensures r.Some? ==> |r.value| == |ms| && AreToolResults(r.value)
  {
    if ms == [] then Some([])
    else
      var first := CreateToolResult(env, ms[0]);
      Both(if first.None? then None else Some([first.value]), CreateAll(env, ms[1..]))
  }

  function Label(id: string): string {
    "Images from tool result " + id
  }

  function ImagesOf(parts: seq<ResultPart>): seq<Picture> {
    if parts == [] then []
    else (if parts[0].ResultImage? then [parts[0].picture] else []) + ImagesOf(parts[1..])
  }

  function WithoutImages(parts: seq<ResultPart>): seq<ResultPart> {
    if parts == [] then []
    else (if parts[0].ResultImage? then [] else [parts[0]]) + WithoutImages(parts[1..])
  }

  function AsContent(pictures: seq<Picture>): seq<Content> {
    if pictures == [] then [] else [CImage(pictures[0])] + AsContent(pictures[1..])
  }

  /** The tool result that stays behind, with a note if images left it. */
  function Remaining(r: Content): (s: Content)
    requires r.CToolResult?
    ensures s.CToolResult? && s.id == r.id && s.isError == r.isError
  {
    if ImagesOf(r.parts) == [] then r
    else
      CToolResult(r.id,
        WithoutImages(r.parts) + [ResultText("(see attached images labeled \"" + Label(r.id) + "\")")],
        r.isError)
  }

  /** The labelled images that leave a tool result. */
  function Attached(r: Content): seq<Content>
    requires r.CToolResult?
  {
    if ImagesOf(r.parts) == [] then [] else [CText(Label(r.id) + ":")] + AsContent(ImagesOf(r.parts))
  }

  function RemainingAll(rs: seq<Content>): seq<Content>
    requires AreToolResults(rs)
  {
    if rs == [] then [] else [Remaining(rs[0])] + RemainingAll(rs[1..])
  }

  function AttachedAll(rs: seq<Content>): seq<Content>
    requires AreToolResults(rs)
  {
    if rs == [] then [] else Attached(rs[0]) + AttachedAll(rs[1..])
  }

  /** The content of the user message a run of tool results becomes. */
  function RunContent(model: Model, rs: seq<Content>): seq<Content>
    requires AreToolResults(rs)
  {
    if model.hoistsImages then RemainingAll(rs) + AttachedAll(rs) else rs
  }

  // ---- Segments -----------------------------------------------------------------------------

  /** A stretch of the transcript that becomes at most one message. */
  datatype Segment = Single(message: Message) | Run(results: seq<Message>)

  function RunLength(ms: seq<Message>): (n: nat)
    ensures n <= |ms| && AllToolResults(ms[..n]) && (n < |ms| ==> !ms[n].ToolResult?)
  {
    if ms == [] || !ms[0].ToolResult? then 0
    else
      var n := 1 + RunLength(ms[1..]);
      assert ms[..n] == [ms[0]] + ms[1..][..n - 1];
      assert n < |ms| ==> ms[n] == ms[1..][n - 1];
      n
  }

  function Segments(ms: seq<Message>): seq<Segment>
    decreases |ms|
  {
    if ms == [] then []
    else if ms[0].ToolResult? then [Run(ms[..RunLength(ms)])] + Segments(ms[RunLength(ms)..])
    else [Single(ms[0])] + Segments(ms[1..])
  }

  predicate GoodSegment(g: Segment) {
    match g
    case Single(m) => !m.ToolResult?
    case Run(rs) => rs != [] && AllToolResults(rs)
  }

  /** An output message and whether it carries transient runtime context. */
  datatype Tagged = Tagged(out: Out, transient: bool)

  function ConvertSegment(env: Env, model: Model, g: Segment): Option<seq<Tagged>>
    requires GoodSegment(g)
  {
    match g
    case Single(User(content, carrier)) =>
      (match ConvertUser(env, content)
       case None => None
       case Some(c) =>
         Some(if c == [] then [] else [Tagged(Out(UserRole, c), carrier && !model.bindsThinkingPrefix)]))
    case Single(Assistant(parts)) =>
      (match ConvertAssistant(env, model, parts)
       case None => None
       case Some(c) => Some(if c == [] then [] else [Tagged(Out(AssistantRole, c), false)]))
    case Single(_) => Some([])
    case Run(rs) =>
      (match CreateAll(env, rs)
       case None => None
       case Some(c) => Some([Tagged(Out(UserRole, RunContent(model, c)), false)]))
  }

  predicate GoodSegments(gs: seq<Segment>) {
    forall k :: 0 <= k < |gs| ==> GoodSegment(gs[k])
  }

  function ConvertSegments(env: Env, model: Model, gs: seq<Segment>): Option<seq<Tagged>>
    requires GoodSegments(gs)
  {
    if gs == [] then Some([])
    else Both(ConvertSegment(env, model, gs[0]), ConvertSegments(env, model, gs[1..]))
  }

  /** The segments partition the transcript, in order; each run is maximal. */
  lemma {:induction false} SegmentsPartition(ms: seq<Message>)
    ensures GoodSegments(Segments(ms)) && Unfold(Segments(ms)) == ms
    ensures forall k :: 0 <= k < |Segments(ms)| - 1 && Segments(ms)[k].Run? ==> Segments(ms)[k + 1].Single?
    ensures ms != [] && !ms[0].ToolResult? ==> |Segments(ms)| > 0 && Segments(ms)[0].Single?
    decreases |ms|
  {
    if ms == [] {
    } else if ms[0].ToolResult? {
      var n := RunLength(ms);
      SegmentsPartition(ms[n..]);
      assert ms[..n] + ms[n..] == ms;
      assert Segments(ms)[1..] == Segments(ms[n..]);
    } else {
      SegmentsPartition(ms[1..]);
      assert Segments(ms)[1..] == Segments(ms[1..]);
    }
  }

  function Unfold(gs: seq<Segment>): seq<Message> {
    if gs == [] then []
    else (match gs[0] case Single(m) => [m] case Run(rs) => rs) + Unfold(gs[1..])
  }

  // ---- The cache point ----------------------------------------------------------------------

  function Outs(ts: seq<Tagged>): (r: seq<Out>)
    ensures |r| == |ts| && forall k :: 0 <= k < |ts| ==> r[k] == ts[k].out
  {
    if ts == [] then [] else [ts[0].out] + Outs(ts[1..])
  }

  /** A message that may hold the cache point: a user message before every volatile one. */
  predicate Eligible(ts: seq<Tagged>, a: nat) {
    && a < |ts| && ts[a].out.role == UserRole
    && forall k :: 0 <= k <= a ==> !ts[k].transient
  }

  /** The latest eligible message of the first `n`. */
  function Anchor(ts: seq<Tagged>, n: nat): (r: Option<nat>)
    requires n <= |ts|
    ensures r.Some? ==> r.value < n && Eligible(ts, r.value)
    ensures r.Some? ==> forall k :: r.value < k < n ==> !Eligible(ts, k)
    ensures r.None? ==> forall k :: 0 <= k < n ==> !Eligible(ts, k)
  {
    if n == 0 then None else if Eligible(ts, n - 1) then Some(n - 1) else Anchor(ts, n - 1)
  }

  predicate EndsWithUser(outs: seq<Out>) {
    outs != [] && outs[|outs| - 1].role == UserRole
  }

  function Mark(o: Out): Out {
    o.(content := o.content + [CCachePoint])
  }

  function PlaceCachePoint(ts: seq<Tagged>): seq<Out> {
    var anchor := Anchor(ts, |ts|);
    if EndsWithUser(Outs(ts)) && anchor.Some? then Outs(ts)[anchor.value := Mark(ts[anchor.value].out)]
    else Outs(ts)
  }

  /** `convertMessages` on an already transformed transcript. */
  function Convert(env: Env, model: Model, ms: seq<Message>, cachePoint: bool): Option<seq<Out>> {
    SegmentsPartition(ms);
    match ConvertSegments(env, model, Segments(ms))
    case None => None
    case Some(ts) => Some(if cachePoint then PlaceCachePoint(ts) else Outs(ts))
  }
}
