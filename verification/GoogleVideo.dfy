/**
  Video slots of a Google request: the in-place rewrite that leaves only trusted video in the request
  tree, and the serialisation that sheds trusted slots, last first, until the body fits.

  Objects are references into a heap, so that one object may occur in several places of the tree.
*/
module GoogleVideo {
  import opened Options
  import opened JsText

  type Ref = nat

  datatype Value = Str(text: string) | Other(literal: string) | Arr(items: seq<Value>) | Obj(ref: Ref)

  datatype Field = Field(key: string, value: Value)

  /** An object: its fields in insertion order. */
  type Record = seq<Field>

  type Heap = map<Ref, Record>

  datatype Video = Video(mimeType: string, data: string)

  const SLOT_OMISSION := "(video omitted: native video slot unavailable)"
  const MIME_OMISSION := "(video omitted: unsupported Google video MIME type)"
  const REQUEST_BYTES_EXCLUSIVE := 20_000_000

  const NATIVE_VIDEO: set<string> := {
    "video/mp4", "video/mpeg", "video/quicktime", "video/avi", "video/x-flv", "video/mpg",
    "video/webm", "video/wmv", "video/3gpp"}

  function Get(r: Record, key: string): Option<Value> {
    if r == [] then None else if r[0].key == key then Some(r[0].value) else Get(r[1..], key)
  }

  function TextPart(text: string): Record {
    [Field("text", Str(text))]
  }

  function Media(video: Video): Record {
    [Field("mimeType", Str(video.mimeType)), Field("data", Str(video.data))]
  }

  function SlotPart(media: Ref): Record {
    [Field("inlineData", Obj(media))]
  }

  // ---- References ---------------------------------------------------------------------------

  function RefsOf(v: Value): set<Ref> {
    match v
    case Obj(r) => {r}
    case Arr(items) => RefsOfAll(items)
    case _ => {}
  }

  function RefsOfAll(vs: seq<Value>): set<Ref> {
    if vs == [] then {} else RefsOf(vs[0]) + RefsOfAll(vs[1..])
  }

  function Refs(r: Record): set<Ref> {
    if r == [] then {} else RefsOf(r[0].value) + Refs(r[1..])
  }

  lemma {:induction false} ItemRefs(vs: seq<Value>, k: nat)
    requires k < |vs|
    ensures RefsOf(vs[k]) <= RefsOfAll(vs)
  {
    if k > 0 {
      ItemRefs(vs[1..], k - 1);
    }
  }

  lemma {:induction false} FieldRefs(r: Record, k: nat)
    requires k < |r|
    ensures RefsOf(r[k].value) <= Refs(r)
  {
    if k > 0 {
      FieldRefs(r[1..], k - 1);
    }
  }

  lemma {:induction false} PartRefs(text: string, media: Ref, video: Video)
    ensures Refs(TextPart(text)) == {} && Refs(Media(video)) == {} && Refs(SlotPart(media)) == {media}
    ensures Get(TextPart(text), "inlineData").None? && Get(TextPart(text), "mimeType").None?
    ensures Get(SlotPart(media), "mimeType").None? && Get(Media(video), "inlineData").None?
    ensures Get(SlotPart(media), "inlineData") == Some(Obj(media))
  {
    assert TextPart(text)[1..] == [] && SlotPart(media)[1..] == [];
    assert Media(video)[1..] == [Field("data", Str(video.data))];
    assert Media(video)[1..][1..] == [];
  }

  // ---- Video parts --------------------------------------------------------------------------

  /** `inlineData` is a record whose MIME type, normalised, starts with `video/`. */
  predicate VideoPart(h: Heap, normalize: string -> string, r: Ref) {
    && r in h
    && var d := Get(h[r], "inlineData");
    && d.Some? && d.value.Obj? && d.value.ref in h
    && var m := Get(h[d.value.ref], "mimeType");
    && m.Some? && m.value.Str? && StartsWith(normalize(m.value.text), "video/")
  }

  /** Ranks of the objects that exist before the rewrite; objects made by it have rank 0. */
  function RankOf(rank: map<Ref, nat>, r: Ref): nat {
    if r in rank then rank[r] + 1 else 0
  }

  ghost predicate Acyclic(h: Heap, rank: map<Ref, nat>) {
    forall r, o :: r in h && o in Refs(h[r]) ==> o in h && RankOf(rank, o) < RankOf(rank, r)
  }

  ghost predicate Below(h: Heap, rank: map<Ref, nat>, s: set<Ref>, bound: nat) {
    forall o :: o in s ==> o in h && RankOf(rank, o) < bound
  }

  /** A set of objects, closed under references, in which only trusted parts carry video. */
  ghost predicate Clean(h: Heap, normalize: string -> string, trusted: seq<Ref>, s: set<Ref>) {
    forall r :: r in s ==> r in h && Refs(h[r]) <= s && (VideoPart(h, normalize, r) ==> r in trusted)
  }

  /** A trusted part holds exactly the video of its slot. */
  predicate HoldsSlot(h: Heap, slots: map<Ref, Video>, r: Ref) {
    && r in slots && slots[r].mimeType in NATIVE_VIDEO && r in h
    && var d := Get(h[r], "inlineData");
    && d.Some? && d.value.Obj? && h[r] == SlotPart(d.value.ref)
    && d.value.ref in h && h[d.value.ref] == Media(slots[r])
  }

  /** The object's only field is `inlineData`, an object of the MIME type and the data of the video. */
  predicate CarriesVideo(h: Heap, r: Ref, video: Video) {
    && r in h && |h[r]| == 1 && h[r][0].key == "inlineData" && h[r][0].value.Obj?
    && var media := h[r][0].value.ref;
    && media in h && |h[media]| == 2
    && Get(h[media], "mimeType") == Some(Str(video.mimeType))
    && Get(h[media], "data") == Some(Str(video.data))
  }

  /** The object's only field is this text. */
  predicate HoldsText(h: Heap, r: Ref, text: string) {
    r in h && |h[r]| == 1 && h[r][0] == Field("text", Str(text))
  }

  lemma {:induction false} HeldIsCarried(h: Heap, slots: map<Ref, Video>, r: Ref)
    requires HoldsSlot(h, slots, r)
    ensures CarriesVideo(h, r, slots[r])
  {
    var media := Get(h[r], "inlineData").value.ref;
    assert h[media][1..] == [Field("data", Str(slots[r].data))];
  }

  /** Reachability: some object of `s` leads to `r` in at most `n` steps. */
  ghost predicate Reaches(h: Heap, s: set<Ref>, r: Ref, n: nat)
    decreases n
  {
    r in s || (n > 0 && exists o :: o in s && o in h && Reaches(h, Refs(h[o]), r, n - 1))
  }

  /** A closed set contains whatever is reachable from it. */
  lemma {:induction false} ClosedHoldsReachable(
    h: Heap, normalize: string -> string, trusted: seq<Ref>, s: set<Ref>, from_: set<Ref>, r: Ref, n: nat)
    requires Clean(h, normalize, trusted, s) && from_ <= s && Reaches(h, from_, r, n)
    ensures r in s
    decreases n
  {
    if r !in from_ {
      var o :| o in from_ && o in h && Reaches(h, Refs(h[o]), r, n - 1);
      ClosedHoldsReachable(h, normalize, trusted, s, Refs(h[o]), r, n - 1);
    }
  }

  /** Replacing a part by one without `mimeType` makes no other part a video part. */
  lemma {:induction false} ReplaceKeepsOthers(h: Heap, normalize: string -> string, r: Ref, rec: Record, p: Ref)
    requires r in h && p in h && p != r && Get(rec, "mimeType").None?
    ensures VideoPart(h[r := rec], normalize, p) ==> VideoPart(h, normalize, p)
  {
  }

  // ---- The JSON tree that is sent -----------------------------------------------------------

  datatype Json = JStr(text: string) | JLit(literal: string) | JArr(items: seq<Json>) | JObj(fields: seq<Member>)

  datatype Member = Member(key: string, json: Json)

  function Unfold(h: Heap, ghost rank: map<Ref, nat>, v: Value, ghost bound: nat): Json
    requires Acyclic(h, rank) && Below(h, rank, RefsOf(v), bound)
    decreases bound, v, 1
  {
    match v
    case Str(text) => JStr(text)
    case Other(literal) => JLit(literal)
    case Arr(items) => JArr(UnfoldAll(h, rank, items, bound))
    case Obj(r) => JObj(UnfoldFields(h, rank, h[r], RankOf(rank, r)))
  }

  function UnfoldAll(h: Heap, ghost rank: map<Ref, nat>, vs: seq<Value>, ghost bound: nat): seq<Json>
    requires Acyclic(h, rank) && Below(h, rank, RefsOfAll(vs), bound)
    decreases bound, vs, 0
  {
    if vs == [] then [] else [Unfold(h, rank, vs[0], bound)] + UnfoldAll(h, rank, vs[1..], bound)
  }

  function UnfoldFields(h: Heap, ghost rank: map<Ref, nat>, r: Record, ghost bound: nat): seq<Member>
    requires Acyclic(h, rank) && Below(h, rank, Refs(r), bound)
    decreases bound, r, 0
  {
    if r == [] then []
    else [Member(r[0].key, Unfold(h, rank, r[0].value, bound))] + UnfoldFields(h, rank, r[1..], bound)
  }

  function Lookup(fields: seq<Member>, key: string): Option<Json> {
    if fields == [] then None else if fields[0].key == key then Some(fields[0].json) else Lookup(fields[1..], key)
  }

  /** A JSON object that a server would read as inline video. */
  predicate VideoObject(normalize: string -> string, fields: seq<Member>) {
    var d := Lookup(fields, "inlineData");
    && d.Some? && d.value.JObj?
    && var m := Lookup(d.value.fields, "mimeType");
    && m.Some? && m.value.JStr? && StartsWith(normalize(m.value.text), "video/")
  }

  predicate NoVideo(normalize: string -> string, j: Json)
    decreases j, 1
  {
    match j
    case JArr(items) => NoVideoIn(normalize, items)
    case JObj(fields) => !VideoObject(normalize, fields) && NoVideoFields(normalize, fields)
    case _ => true
  }

  predicate NoVideoIn(normalize: string -> string, js: seq<Json>)
    decreases js, 0
  {
    js == [] || (NoVideo(normalize, js[0]) && NoVideoIn(normalize, js[1..]))
  }

  predicate NoVideoFields(normalize: string -> string, fields: seq<Member>)
    decreases fields, 0
  {
    fields == [] || (NoVideo(normalize, fields[0].json) && NoVideoFields(normalize, fields[1..]))
  }

  lemma {:induction false} LookupUnfolds(h: Heap, rank: map<Ref, nat>, r: Record, bound: nat, key: string)
    requires Acyclic(h, rank) && Below(h, rank, Refs(r), bound)
    ensures var v := Get(r, key);
      && (v.Some? ==> RefsOf(v.value) <= Refs(r))
      && Lookup(UnfoldFields(h, rank, r, bound), key) ==
         if v.Some? then Some(Unfold(h, rank, v.value, bound)) else None
  {
    if r != [] {
      LookupUnfolds(h, rank, r[1..], bound, key);
      assert UnfoldFields(h, rank, r, bound)[1..] == UnfoldFields(h, rank, r[1..], bound);
    }
  }

  /** The tree shows a video object exactly where the heap has a video part. */
  lemma {:induction false} VideoUnfolds(h: Heap, rank: map<Ref, nat>, normalize: string -> string, r: Ref)
    requires Acyclic(h, rank) && r in h
    ensures VideoObject(normalize, UnfoldFields(h, rank, h[r], RankOf(rank, r))) <==> VideoPart(h, normalize, r)
  {
    LookupUnfolds(h, rank, h[r], RankOf(rank, r), "inlineData");
    var d := Get(h[r], "inlineData");
    if d.Some? && d.value.Obj? {
      LookupUnfolds(h, rank, h[d.value.ref], RankOf(rank, d.value.ref), "mimeType");
    }
  }

  /** The JSON of a slot that holds its video. */
  lemma {:induction false} SlotIsSent(h: Heap, rank: map<Ref, nat>, slots: map<Ref, Video>, r: Ref, bound: nat)
    requires Acyclic(h, rank) && HoldsSlot(h, slots, r) && RankOf(rank, r) < bound
    ensures Below(h, rank, {r}, bound)
    ensures Unfold(h, rank, Obj(r), bound) ==
      JObj([Member("inlineData",
                   JObj([Member("mimeType", JStr(slots[r].mimeType)), Member("data", JStr(slots[r].data))]))])
  {
    var media := Get(h[r], "inlineData").value.ref;
    PartRefs("", media, slots[r]);
    var inner := RankOf(rank, media);
    assert h[media][1..] == [Field("data", Str(slots[r].data))] && h[media][1..][1..] == [];
    assert UnfoldFields(h, rank, h[media][1..][1..], inner) == [];
    assert UnfoldFields(h, rank, h[media][1..], inner) == [Member("data", JStr(slots[r].data))];
    assert UnfoldFields(h, rank, h[media], inner) ==
      [Member("mimeType", JStr(slots[r].mimeType)), Member("data", JStr(slots[r].data))];
    assert h[r][1..] == [];
    assert UnfoldFields(h, rank, h[r], RankOf(rank, r)) ==
      [Member("inlineData", Unfold(h, rank, Obj(media), RankOf(rank, r)))];
  }

  /** The JSON of an omission. */
  lemma {:induction false} TextIsSent(h: Heap, rank: map<Ref, nat>, r: Ref, text: string, bound: nat)
    requires Acyclic(h, rank) && HoldsText(h, r, text) && RankOf(rank, r) < bound
    ensures Below(h, rank, {r}, bound)
    ensures Unfold(h, rank, Obj(r), bound) == JObj([Member("text", JStr(text))])
  {
    assert h[r][1..] == [];
    assert UnfoldFields(h, rank, h[r][1..], RankOf(rank, r)) == [];
    assert UnfoldFields(h, rank, h[r], RankOf(rank, r)) == [Member("text", JStr(text))];
  }

  /** When no trusted part is left, the tree that is sent holds no video at all. */
  lemma {:induction false} CleanTreeHasNoVideo(
    h: Heap, rank: map<Ref, nat>, normalize: string -> string, s: set<Ref>, v: Value, bound: nat)
    requires Acyclic(h, rank) && Below(h, rank, RefsOf(v), bound)
    requires Clean(h, normalize, [], s) && RefsOf(v) <= s
    ensures NoVideo(normalize, Unfold(h, rank, v, bound))
    decreases bound, v, 1
  {
    match v
    case Arr(items) => CleanItemsHaveNoVideo(h, rank, normalize, s, items, bound);
    case Obj(r) =>
      VideoUnfolds(h, rank, normalize, r);
      CleanFieldsHaveNoVideo(h, rank, normalize, s, h[r], RankOf(rank, r));
    case _ =>
  }

  lemma {:induction false} CleanItemsHaveNoVideo(
    h: Heap, rank: map<Ref, nat>, normalize: string -> string, s: set<Ref>, vs: seq<Value>, bound: nat)
    requires Acyclic(h, rank) && Below(h, rank, RefsOfAll(vs), bound)
    requires Clean(h, normalize, [], s) && RefsOfAll(vs) <= s
    ensures NoVideoIn(normalize, UnfoldAll(h, rank, vs, bound))
    decreases bound, vs, 0
  {
    if vs != [] {
      CleanTreeHasNoVideo(h, rank, normalize, s, vs[0], bound);
      CleanItemsHaveNoVideo(h, rank, normalize, s, vs[1..], bound);
      assert UnfoldAll(h, rank, vs, bound)[1..] == UnfoldAll(h, rank, vs[1..], bound);
    }
  }

  lemma {:induction false} CleanFieldsHaveNoVideo(
    h: Heap, rank: map<Ref, nat>, normalize: string -> string, s: set<Ref>, r: Record, bound: nat)
    requires Acyclic(h, rank) && Below(h, rank, Refs(r), bound)
    requires Clean(h, normalize, [], s) && Refs(r) <= s
    ensures NoVideoFields(normalize, UnfoldFields(h, rank, r, bound))
    decreases bound, r, 0
  {
    if r != [] {
      CleanTreeHasNoVideo(h, rank, normalize, s, r[0].value, bound);
      CleanFieldsHaveNoVideo(h, rank, normalize, s, r[1..], bound);
      assert UnfoldFields(h, rank, r, bound)[1..] == UnfoldFields(h, rank, r[1..], bound);
    }
  }
}
