/**
  The request as it is edited in place: `Materialize` walks it once, `Serialize` sheds trusted slots.
*/
module GoogleVideoRequest {
  import opened Options
  import opened JsText
  import opened GoogleVideo

  /** What does not change while a request is walked. `rank` witnesses that the request is acyclic. */
  datatype Setting = Setting(initial: Heap, rank: map<Ref, nat>, slots: map<Ref, Video>, normalize: string -> string)

  ghost predicate WellFormed(c: Setting) {
    c.rank.Keys == c.initial.Keys && c.slots.Keys <= c.initial.Keys && Acyclic(c.initial, c.rank)
  }

  predicate Native(c: Setting, r: Ref) {
    r in c.slots && c.slots[r].mimeType in NATIVE_VIDEO
  }

  /** An original object is untouched, a visited slot, or an untrusted video part turned into text. */
  ghost predicate Framed(c: Setting, h: Heap, done: set<Ref>) {
    forall p :: p in c.initial ==>
      && p in h
      && (|| h[p] == c.initial[p]
          || (p in c.slots && p in done)
          || (VideoPart(c.initial, c.normalize, p) && h[p] == TextPart(SLOT_OMISSION)))
  }

  /** Objects made by the walk are media objects: no references and no `inlineData`. */
  ghost predicate MadeAreMedia(c: Setting, h: Heap) {
    forall p :: p in h && p !in c.initial ==> Refs(h[p]) == {} && Get(h[p], "inlineData").None?
  }

  /** A visited slot holds its video and is trusted, or is the MIME omission text. */
  ghost predicate Served(c: Setting, h: Heap, trusted: seq<Ref>, r: Ref) {
    if Native(c, r) then r in trusted && HoldsSlot(h, c.slots, r) && Get(h[r], "inlineData").value.ref !in c.initial
    else r in h && h[r] == TextPart(MIME_OMISSION)
  }

  ghost predicate SlotsServed(c: Setting, h: Heap, trusted: seq<Ref>, done: set<Ref>) {
    && (forall r :: r in done && r in c.slots ==> Served(c, h, trusted, r))
    && (forall r :: r in trusted ==> r in done && Native(c, r))
  }

  ghost predicate Inv(c: Setting, h: Heap, trusted: seq<Ref>, done: set<Ref>) {
    && WellFormed(c)
    && Acyclic(h, c.rank)
    && Framed(c, h, done)
    && MadeAreMedia(c, h)
    && SlotsServed(c, h, trusted, done)
    && Clean(h, c.normalize, trusted, done)
  }

  // ---- The three ways of finishing an object -------------------------------------------------

  /** The text that takes the place of an object, if any: for a slot, or for an untrusted video part. */
  ghost predicate Omits(c: Setting, r: Ref, text: string) {
    if r in c.slots then !Native(c, r) && text == MIME_OMISSION
    else VideoPart(c.initial, c.normalize, r) && text == SLOT_OMISSION
  }

  lemma {:induction false} ServedAfterOmission(c: Setting, h: Heap, trusted: seq<Ref>, done: set<Ref>, r: Ref, text: string)
    requires Inv(c, h, trusted, done) && r in h && r in c.initial && Omits(c, r, text)
    ensures SlotsServed(c, h[r := TextPart(text)], trusted, done + {r})
  {
    hide TextPart, Media, SlotPart, Get, Refs, VideoPart, Acyclic, Clean, Framed, MadeAreMedia;
    forall p | p in done + {r} && p in c.slots ensures Served(c, h[r := TextPart(text)], trusted, p) {
      assert p != r ==> Served(c, h, trusted, p);
    }
  }

  lemma {:induction false} InvAfterOmission(c: Setting, h: Heap, trusted: seq<Ref>, done: set<Ref>, r: Ref, text: string)
    requires Inv(c, h, trusted, done) && r in h && r in c.initial && Omits(c, r, text)
    ensures Inv(c, h[r := TextPart(text)], trusted, done + {r})
  {
    hide TextPart, Media, SlotPart, Get, Refs, VideoPart, SlotsServed, RankOf;
    var h2 := h[r := TextPart(text)];
    PartRefs(text, 0, Video("", ""));
    forall p | p in h ensures VideoPart(h2, c.normalize, p) ==> p != r && VideoPart(h, c.normalize, p) {
      OmittedIsNoVideo(h, c.normalize, r, text, p);
    }
    ServedAfterOmission(c, h, trusted, done, r, text);
  }

  lemma OmittedIsNoVideo(h: Heap, normalize: string -> string, r: Ref, text: string, p: Ref)
    requires r in h && p in h
    ensures VideoPart(h[r := TextPart(text)], normalize, p) ==> p != r && VideoPart(h, normalize, p)
  {
    PartRefs(text, 0, Video("", ""));
    if p != r {
      ReplaceKeepsOthers(h, normalize, r, TextPart(text), p);
    }
  }

  lemma {:induction false} ServedAfterMedia(c: Setting, h: Heap, trusted: seq<Ref>, done: set<Ref>, r: Ref, media: Ref)
    requires Inv(c, h, trusted, done) && r in h && Native(c, r) && media !in h
    ensures SlotsServed(c, h[media := Media(c.slots[r])][r := SlotPart(media)], trusted + [r], done + {r, media})
  {
    hide TextPart, Media, SlotPart, Get, Refs, VideoPart, Acyclic, Clean, MadeAreMedia;
    var h2 := h[media := Media(c.slots[r])][r := SlotPart(media)];
    PartRefs("", media, c.slots[r]);
    forall p | p in done + {r, media} && p in c.slots ensures Served(c, h2, trusted + [r], p) {
      assert p != r ==> Served(c, h, trusted, p);
    }
  }

  lemma MediaIsNoVideo(h: Heap, normalize: string -> string, r: Ref, media: Ref, video: Video, p: Ref)
    requires r in h && media !in h && p in h && p != r && Refs(h[p]) <= h.Keys
    ensures VideoPart(h[media := Media(video)][r := SlotPart(media)], normalize, p) ==> VideoPart(h, normalize, p)
  {
    hide Media, SlotPart, Get, Refs;
    PartRefs("", media, video);
    GetRefs(h[p], "inlineData");
  }

  lemma {:induction false} InvAfterMedia(c: Setting, h: Heap, trusted: seq<Ref>, done: set<Ref>, r: Ref, media: Ref)
    requires Inv(c, h, trusted, done) && r in h && Native(c, r) && media !in h
    ensures Inv(c, h[media := Media(c.slots[r])][r := SlotPart(media)], trusted + [r], done + {r, media})
  {
    hide TextPart, Media, SlotPart, Get, Refs, VideoPart, SlotsServed;
    var h2 := h[media := Media(c.slots[r])][r := SlotPart(media)];
    PartRefs("", media, c.slots[r]);
    ServedAfterMedia(c, h, trusted, done, r, media);
    forall p | p in done && p != r ensures VideoPart(h2, c.normalize, p) ==> VideoPart(h, c.normalize, p) {
      MediaIsNoVideo(h, c.normalize, r, media, c.slots[r], p);
    }
    assert !VideoPart(h2, c.normalize, media) by {
      hide Inv;
      MediaIsMedia(h2, c.normalize, media, c.slots[r]);
    }
  }

  lemma MediaIsMedia(h: Heap, normalize: string -> string, media: Ref, video: Video)
    requires media in h && h[media] == Media(video)
    ensures !VideoPart(h, normalize, media)
  {
    PartRefs("", media, video);
  }

  /** A filled slot is an object of its MIME type and its data. */
  lemma FilledCarries(h: Heap, slots: map<Ref, Video>, r: Ref, media: Ref)
    requires r in h && r in slots && slots[r].mimeType in NATIVE_VIDEO && media != r
    ensures CarriesVideo(h[media := Media(slots[r])][r := SlotPart(media)], r, slots[r])
  {
    PartRefs("", media, slots[r]);
    HeldIsCarried(h[media := Media(slots[r])][r := SlotPart(media)], slots, r);
  }

  /** A finished object that still carries video, or is about to be replaced, is a slot. */
  lemma FinishedIsSlot(c: Setting, h: Heap, trusted: seq<Ref>, done: set<Ref>, r: Ref)
    requires Inv(c, h, trusted, done)
    ensures done <= h.Keys
    ensures r in done && VideoPart(h, c.normalize, r) ==> r in c.slots
  {
    hide VideoPart, Framed, MadeAreMedia, Acyclic, Served;
  }

  lemma MediaAdvances(c: Setting, h: Heap, trusted: seq<Ref>, done: set<Ref>, r: Ref, media: Ref, bound: nat)
    requires Inv(c, h, trusted, done) && r in h && Native(c, r) && media !in h && RankOf(c.rank, r) < bound
    ensures Advanced(c, h, trusted, done,
                     h[media := Media(c.slots[r])][r := SlotPart(media)], trusted + [r], done + {r, media}, bound)
  {
    hide Media, SlotPart, VideoPart, RankOf, SlotsServed, Clean, Framed, MadeAreMedia, Get, Refs;
    FinishedIsSlot(c, h, trusted, done, r);
    InvAfterMedia(c, h, trusted, done, r, media);
    forall p | p in h && p !in c.slots
      ensures VideoPart(h[media := Media(c.slots[r])][r := SlotPart(media)], c.normalize, p) ==>
                VideoPart(h, c.normalize, p)
    {
      MediaIsNoVideo(h, c.normalize, r, media, c.slots[r], p);
    }
  }

  lemma {:induction false} OmissionAdvances(c: Setting, h: Heap, trusted: seq<Ref>, done: set<Ref>, r: Ref, text: string, bound: nat)
    requires Inv(c, h, trusted, done) && r in h && r in c.initial && Omits(c, r, text) && RankOf(c.rank, r) < bound
    requires r in c.slots || VideoPart(h, c.normalize, r)
    ensures Advanced(c, h, trusted, done, h[r := TextPart(text)], trusted, done + {r}, bound)
  {
    hide Inv, TextPart, VideoPart, Omits, RankOf;
    FinishedIsSlot(c, h, trusted, done, r);
    InvAfterOmission(c, h, trusted, done, r, text);
    forall p | p in h ensures VideoPart(h[r := TextPart(text)], c.normalize, p) ==> VideoPart(h, c.normalize, p) {
      OmittedIsNoVideo(h, c.normalize, r, text, p);
    }
  }

  lemma InvAfterFields(c: Setting, h: Heap, trusted: seq<Ref>, done: set<Ref>, r: Ref)
    requires Inv(c, h, trusted, done) && r in h && r !in c.slots && Refs(h[r]) <= done
    requires !VideoPart(h, c.normalize, r)
    ensures Inv(c, h, trusted, done + {r})
  {
  }

  lemma {:induction false} GetRefs(r: Record, key: string)
    ensures Get(r, key).Some? ==> RefsOf(Get(r, key).value) <= Refs(r)
  {
    if r != [] && r[0].key != key {
      GetRefs(r[1..], key);
    }
  }

  /** An untouched object that is a video part now was one from the start. */
  lemma VideoFromTheStart(c: Setting, h: Heap, trusted: seq<Ref>, done: set<Ref>, r: Ref)
    requires Inv(c, h, trusted, done) && r in h && r !in c.slots && VideoPart(h, c.normalize, r)
    ensures r in c.initial && VideoPart(c.initial, c.normalize, r)
  {
    hide TextPart, Media, SlotPart, Get, Refs, Clean, RankOf;
    PartRefs(SLOT_OMISSION, 0, Video("", ""));
    GetRefs(h[r], "inlineData");
    var q := Get(h[r], "inlineData").value.ref;
    if q in c.slots && q in done {
      ServedHasNoMime(c, h, trusted, q);
    }
  }

  lemma ServedHasNoMime(c: Setting, h: Heap, trusted: seq<Ref>, r: Ref)
    requires r in h && r in c.slots && Served(c, h, trusted, r)
    ensures Get(h[r], "mimeType").None?
  {
    hide TextPart, Media, SlotPart, Get, Refs;
    var d := Get(h[r], "inlineData");
    PartRefs(MIME_OMISSION, if d.Some? && d.value.Obj? then d.value.ref else 0, Video("", ""));
  }

  lemma ServedCarries(c: Setting, h: Heap, trusted: seq<Ref>, r: Ref)
    requires r in c.slots && Served(c, h, trusted, r)
    ensures if c.slots[r].mimeType in NATIVE_VIDEO then r in trusted && CarriesVideo(h, r, c.slots[r])
            else HoldsText(h, r, "(video omitted: unsupported Google video MIME type)")
  {
    hide Media, SlotPart, Get, CarriesVideo;
    if Native(c, r) {
      HeldIsCarried(h, c.slots, r);
    }
  }

  // ---- The order of trusted slots ------------------------------------------------------------

  /** The slots with a native MIME type, in the order in which a reader of the tree meets them. */
  ghost function Reading(c: Setting, h: Heap, v: Value, bound: nat): seq<Ref>
    requires Acyclic(h, c.rank) && Below(h, c.rank, RefsOf(v), bound)
    decreases bound, v, 1
  {
    match v
    case Arr(items) => ReadingAll(c, h, items, bound)
    case Obj(r) =>
      if r in c.slots then (if Native(c, r) then [r] else []) else ReadingFields(c, h, h[r], RankOf(c.rank, r))
    case _ => []
  }

  ghost function ReadingAll(c: Setting, h: Heap, vs: seq<Value>, bound: nat): seq<Ref>
    requires Acyclic(h, c.rank) && Below(h, c.rank, RefsOfAll(vs), bound)
    decreases bound, vs, 0
  {
    if vs == [] then [] else Reading(c, h, vs[0], bound) + ReadingAll(c, h, vs[1..], bound)
  }

  ghost function ReadingFields(c: Setting, h: Heap, r: Record, bound: nat): seq<Ref>
    requires Acyclic(h, c.rank) && Below(h, c.rank, Refs(r), bound)
    decreases bound, r, 0
  {
    if r == [] then [] else Reading(c, h, r[0].value, bound) + ReadingFields(c, h, r[1..], bound)
  }

  /** `h2` holds the objects of `s` as `h` does, slots aside, and `s` is closed under references. */
  ghost predicate SameOn(c: Setting, h: Heap, h2: Heap, s: set<Ref>) {
    && Acyclic(h, c.rank) && Acyclic(h2, c.rank)
    && forall p :: p in s ==> p in h && p in h2 && Refs(h[p]) <= s && (p !in c.slots ==> h2[p] == h[p])
  }

  lemma {:induction false} ReadingStable(c: Setting, h: Heap, h2: Heap, s: set<Ref>, v: Value, bound: nat)
    requires SameOn(c, h, h2, s) && RefsOf(v) <= s
    requires Below(h, c.rank, RefsOf(v), bound)
    ensures Below(h2, c.rank, RefsOf(v), bound) && Reading(c, h2, v, bound) == Reading(c, h, v, bound)
    decreases bound, v, 1
  {
    match v
    case Arr(items) => ReadingAllStable(c, h, h2, s, items, bound);
    case Obj(r) =>
      if r !in c.slots {
        ReadingFieldsStable(c, h, h2, s, h[r], RankOf(c.rank, r));
      }
    case _ =>
  }

  lemma {:induction false} ReadingAllStable(c: Setting, h: Heap, h2: Heap, s: set<Ref>, vs: seq<Value>, bound: nat)
    requires SameOn(c, h, h2, s) && RefsOfAll(vs) <= s
    requires Below(h, c.rank, RefsOfAll(vs), bound)
    ensures Below(h2, c.rank, RefsOfAll(vs), bound) && ReadingAll(c, h2, vs, bound) == ReadingAll(c, h, vs, bound)
    decreases bound, vs, 0
  {
    if vs != [] {
      ReadingStable(c, h, h2, s, vs[0], bound);
      ReadingAllStable(c, h, h2, s, vs[1..], bound);
    }
  }

  lemma {:induction false} ReadingFieldsStable(c: Setting, h: Heap, h2: Heap, s: set<Ref>, r: Record, bound: nat)
    requires SameOn(c, h, h2, s) && Refs(r) <= s
    requires Below(h, c.rank, Refs(r), bound)
    ensures Below(h2, c.rank, Refs(r), bound) && ReadingFields(c, h2, r, bound) == ReadingFields(c, h, r, bound)
    decreases bound, r, 0
  {
    if r != [] {
      ReadingStable(c, h, h2, s, r[0].value, bound);
      ReadingFieldsStable(c, h, h2, s, r[1..], bound);
    }
  }

  lemma {:induction false} RefsOfAllSnoc(vs: seq<Value>, v: Value)
    ensures RefsOfAll(vs + [v]) == RefsOfAll(vs) + RefsOf(v)
  {
    if vs == [] {
      assert [] + [v] == [v] && [v][1..] == [];
    } else {
      RefsOfAllSnoc(vs[1..], v);
      assert (vs + [v])[1..] == vs[1..] + [v];
    }
  }

  lemma {:induction false} RefsSnoc(r: Record, f: Field)
    ensures Refs(r + [f]) == Refs(r) + RefsOf(f.value)
  {
    if r == [] {
      assert [] + [f] == [f] && [f][1..] == [];
    } else {
      RefsSnoc(r[1..], f);
      assert (r + [f])[1..] == r[1..] + [f];
    }
  }

  lemma {:induction false} ReadingAllSnoc(c: Setting, h: Heap, vs: seq<Value>, v: Value, bound: nat)
    requires Acyclic(h, c.rank) && Below(h, c.rank, RefsOfAll(vs), bound) && Below(h, c.rank, RefsOf(v), bound)
    ensures Below(h, c.rank, RefsOfAll(vs + [v]), bound)
    ensures ReadingAll(c, h, vs + [v], bound) == ReadingAll(c, h, vs, bound) + Reading(c, h, v, bound)
  {
    hide Acyclic, Reading, RefsOf;
    RefsOfAllSnoc(vs, v);
    var all := vs + [v];
    if vs == [] {
      assert all == [v] && [v][1..] == [];
    } else {
      ReadingAllSnoc(c, h, vs[1..], v, bound);
      assert all[0] == vs[0] && all[1..] == vs[1..] + [v];
    }
  }

  lemma {:induction false} ReadingFieldsSnoc(c: Setting, h: Heap, r: Record, f: Field, bound: nat)
    requires Acyclic(h, c.rank) && Below(h, c.rank, Refs(r), bound) && Below(h, c.rank, RefsOf(f.value), bound)
    ensures Below(h, c.rank, Refs(r + [f]), bound)
    ensures ReadingFields(c, h, r + [f], bound) == ReadingFields(c, h, r, bound) + Reading(c, h, f.value, bound)
  {
    hide Acyclic, Reading, RefsOf;
    RefsSnoc(r, f);
    var all := r + [f];
    if r == [] {
      assert all == [f] && [f][1..] == [];
    } else {
      ReadingFieldsSnoc(c, h, r[1..], f, bound);
      assert all[0] == r[0] && all[1..] == r[1..] + [f];
    }
  }

  lemma ReadingText(c: Setting, h: Heap, text: string, bound: nat)
    requires Acyclic(h, c.rank)
    ensures Refs(TextPart(text)) == {} && ReadingFields(c, h, TextPart(text), bound) == []
  {
    PartRefs(text, 0, Video("", ""));
    assert TextPart(text)[1..] == [];
  }

  /** What is left to visit in an object that is not a slot lies in the original request. */
  lemma EnteredIsOriginal(c: Setting, h: Heap, trusted: seq<Ref>, done: set<Ref>, r: Ref)
    requires Inv(c, h, trusted, done) && r in c.initial && r !in c.slots
    ensures r in h && Below(c.initial, c.rank, Refs(h[r]), RankOf(c.rank, r))
  {
    PartRefs(SLOT_OMISSION, 0, Video("", ""));
  }

  // ---- The walk ------------------------------------------------------------------------------

  lemma InvKeepsOriginals(c: Setting, h: Heap, trusted: seq<Ref>, done: set<Ref>)
    requires Inv(c, h, trusted, done)
    ensures c.initial.Keys <= h.Keys
  {
  }

  /** What one step of the walk guarantees to the steps around it. */
  ghost predicate Advanced(c: Setting, h: Heap, trusted: seq<Ref>, done: set<Ref>,
                           h2: Heap, trusted2: seq<Ref>, done2: set<Ref>, bound: nat) {
    && Inv(c, h2, trusted2, done2)
    && h.Keys <= h2.Keys && done <= done2 && trusted <= trusted2
    && (forall p :: p in h && RankOf(c.rank, p) >= bound ==> h2[p] == h[p])
    && (forall p :: p in h && p !in c.slots && VideoPart(h2, c.normalize, p) ==> VideoPart(h, c.normalize, p))
    && (forall p :: p in done && p !in c.slots ==> p in h && h2[p] == h[p])
  }

  /** Finished objects read the same after any step of the walk. */
  lemma AdvancedSameOn(c: Setting, h: Heap, trusted: seq<Ref>, done: set<Ref>,
                       h2: Heap, trusted2: seq<Ref>, done2: set<Ref>, bound: nat)
    requires Inv(c, h, trusted, done) && Advanced(c, h, trusted, done, h2, trusted2, done2, bound)
    ensures SameOn(c, h, h2, done)
  {
    hide VideoPart, SlotsServed, Framed, MadeAreMedia, RankOf, Refs;
  }

  lemma InvAcyclic(c: Setting, h: Heap, trusted: seq<Ref>, done: set<Ref>)
    requires Inv(c, h, trusted, done)
    ensures Acyclic(h, c.rank) && (forall s, bound :: Below(c.initial, c.rank, s, bound) ==> Below(h, c.rank, s, bound))
  {
    hide VideoPart, SlotsServed, MadeAreMedia, RankOf, Refs, Clean;
  }

  lemma AdvancedRefl(c: Setting, h: Heap, trusted: seq<Ref>, done: set<Ref>, bound: nat)
    requires Inv(c, h, trusted, done)
    ensures Advanced(c, h, trusted, done, h, trusted, done, bound)
  {
    hide Inv, VideoPart, RankOf;
    FinishedIsSlot(c, h, trusted, done, 0);
  }

  /** One more item: the finished ones read as before, and its slots are appended. */
  lemma {:induction false} ItemVisited(c: Setting, h1: Heap, t1: seq<Ref>, d1: set<Ref>, h2: Heap, t2: seq<Ref>, d2: set<Ref>,
                    t0: seq<Ref>, items: seq<Value>, k: nat, bound: nat)
    requires Inv(c, h1, t1, d1) && Advanced(c, h1, t1, d1, h2, t2, d2, bound) && k < |items|
    requires Acyclic(h1, c.rank) && Below(h1, c.rank, RefsOfAll(items[..k]), bound) && RefsOfAll(items[..k]) <= d1
    requires Acyclic(h2, c.rank) && Below(h2, c.rank, RefsOf(items[k]), bound) && RefsOf(items[k]) <= d2
    requires t1 == t0 + ReadingAll(c, h1, items[..k], bound) && t2 == t1 + Reading(c, h2, items[k], bound)
    ensures Below(h2, c.rank, RefsOfAll(items[..k + 1]), bound) && RefsOfAll(items[..k + 1]) <= d2
    ensures t2 == t0 + ReadingAll(c, h2, items[..k + 1], bound)
  {
    assert d1 <= d2;
    hide Inv, Advanced, Acyclic, Below, SameOn, RefsOfAll, RefsOf, ReadingAll, Reading;
    AdvancedSameOn(c, h1, t1, d1, h2, t2, d2, bound);
    ReadingAllStable(c, h1, h2, d1, items[..k], bound);
    RefsOfAllSnoc(items[..k], items[k]);
    ReadingAllSnoc(c, h2, items[..k], items[k], bound);
    assert items[..k + 1] == items[..k] + [items[k]];
  }

  lemma {:induction false} FieldVisited(c: Setting, h1: Heap, t1: seq<Ref>, d1: set<Ref>, h2: Heap, t2: seq<Ref>, d2: set<Ref>,
                     t0: seq<Ref>, r: Record, k: nat, bound: nat)
    requires Inv(c, h1, t1, d1) && Advanced(c, h1, t1, d1, h2, t2, d2, bound) && k < |r|
    requires Acyclic(h1, c.rank) && Below(h1, c.rank, Refs(r[..k]), bound) && Refs(r[..k]) <= d1
    requires Acyclic(h2, c.rank) && Below(h2, c.rank, RefsOf(r[k].value), bound) && RefsOf(r[k].value) <= d2
    requires t1 == t0 + ReadingFields(c, h1, r[..k], bound) && t2 == t1 + Reading(c, h2, r[k].value, bound)
    ensures Below(h2, c.rank, Refs(r[..k + 1]), bound) && Refs(r[..k + 1]) <= d2
    ensures t2 == t0 + ReadingFields(c, h2, r[..k + 1], bound)
  {
    assert d1 <= d2;
    hide Inv, Advanced, Acyclic, Below, SameOn, Refs, RefsOf, ReadingFields, Reading;
    AdvancedSameOn(c, h1, t1, d1, h2, t2, d2, bound);
    ReadingFieldsStable(c, h1, h2, d1, r[..k], bound);
    RefsSnoc(r[..k], r[k]);
    ReadingFieldsSnoc(c, h2, r[..k], r[k], bound);
    assert r[..k + 1] == r[..k] + [r[k]];
  }

  /** An object whose fields have been visited is finished. */
  lemma {:induction false} EnteredAdvances(c: Setting, h: Heap, trusted: seq<Ref>, done: set<Ref>,
                        h2: Heap, trusted2: seq<Ref>, done2: set<Ref>, r: Ref, bound: nat)
    requires r in h && RankOf(c.rank, r) < bound && r !in c.slots && !VideoPart(h, c.normalize, r)
    requires Advanced(c, h, trusted, done, h2, trusted2, done2, RankOf(c.rank, r)) && Refs(h[r]) <= done2
    ensures Inv(c, h2, trusted2, done2 + {r}) && r in h2 && h2[r] == h[r]
    ensures Advanced(c, h, trusted, done, h2, trusted2, done2 + {r}, bound)
  {
    hide Inv, VideoPart, RankOf, Refs;
    InvAfterFields(c, h2, trusted2, done2, r);
  }

  lemma AdvancedTrans(c: Setting, h0: Heap, t0: seq<Ref>, d0: set<Ref>, h1: Heap, t1: seq<Ref>, d1: set<Ref>,
                      h2: Heap, t2: seq<Ref>, d2: set<Ref>, bound: nat)
    requires Advanced(c, h0, t0, d0, h1, t1, d1, bound) && Advanced(c, h1, t1, d1, h2, t2, d2, bound)
    ensures Advanced(c, h0, t0, d0, h2, t2, d2, bound)
  {
    hide Inv, VideoPart, RankOf;
  }

  // ---- Shedding ------------------------------------------------------------------------------

  /** A shed slot. */
  function Omission(): (r: Record)
    ensures Refs(r) == {} && Get(r, "inlineData").None? && Get(r, "mimeType").None?
  {
    PartRefs(SLOT_OMISSION, 0, Video("", ""));
    TextPart(SLOT_OMISSION)
  }

  /** The slots of a list turned into the omission text. */
  function Shed(h: Heap, slots: seq<Ref>): (r: Heap)
    requires forall s :: s in slots ==> s in h
    ensures r.Keys == h.Keys
    ensures forall p :: p in h ==> r[p] == if p in slots then Omission() else h[p]
  {
    hide Omission;
    if slots == [] then h else Shed(h, slots[1..])[slots[0] := Omission()]
  }

  lemma ShedKeepsAcyclic(h: Heap, rank: map<Ref, nat>, slots: seq<Ref>)
    requires Acyclic(h, rank) && forall s :: s in slots ==> s in h
    ensures Acyclic(Shed(h, slots), rank)
  {
    hide Omission, RankOf, Refs, Shed;
  }

  /** How a heap becomes a body: `JSON.stringify` and the UTF-8 length are parameters. */
  datatype Sender = Sender(root: Value, trusted: seq<Ref>, stringify: Json -> string, byteLength: string -> nat)

  ghost predicate Sendable(e: Sender, h: Heap, rank: map<Ref, nat>, bound: nat) {
    && Acyclic(h, rank)
    && Below(h, rank, RefsOf(e.root), bound)
    && (forall s :: s in e.trusted ==> s in h)
  }

  function Body(e: Sender, h: Heap, ghost rank: map<Ref, nat>, ghost bound: nat): string
    requires Sendable(e, h, rank, bound)
  {
    e.stringify(Unfold(h, rank, e.root, bound))
  }

  predicate Fits(e: Sender, h: Heap, ghost rank: map<Ref, nat>, ghost bound: nat)
    requires Sendable(e, h, rank, bound)
  {
    Small(e, Body(e, h, rank, bound))
  }

  predicate Small(e: Sender, body: string) {
    e.byteLength(body) < REQUEST_BYTES_EXCLUSIVE
  }

  /** The heap with the last `k` slots shed. */
  function ShedLast(e: Sender, h: Heap, ghost rank: map<Ref, nat>, ghost bound: nat, k: nat): (r: Heap)
    requires Sendable(e, h, rank, bound) && k <= |e.trusted|
    ensures Sendable(e, r, rank, bound) && r.Keys == h.Keys
  {
    hide Omission, RankOf, Refs, RefsOf, Shed;
    ShedKeepsAcyclic(h, rank, e.trusted[|e.trusted| - k..]);
    Shed(h, e.trusted[|e.trusted| - k..])
  }

  /** How many slots are shed: the fewest, starting from `k`, that make the body fit, or else all. */
  ghost function SheddingFrom(e: Sender, h: Heap, rank: map<Ref, nat>, bound: nat, k: nat): (n: nat)
    requires Sendable(e, h, rank, bound) && k <= |e.trusted|
    ensures k <= n <= |e.trusted|
    decreases |e.trusted| - k
  {
    hide Sendable, ShedLast, Fits;
    if k == |e.trusted| || Fits(e, ShedLast(e, h, rank, bound, k), rank, bound) then k
    else SheddingFrom(e, h, rank, bound, k + 1)
  }

  lemma {:induction false} SheddingIsLeast(e: Sender, h: Heap, rank: map<Ref, nat>, bound: nat, k: nat)
    requires Sendable(e, h, rank, bound) && k <= |e.trusted|
    ensures var n := SheddingFrom(e, h, rank, bound, k);
      && (n < |e.trusted| ==> Fits(e, ShedLast(e, h, rank, bound, n), rank, bound))
      && (forall j :: k <= j < n ==> !Fits(e, ShedLast(e, h, rank, bound, j), rank, bound))
    decreases |e.trusted| - k
  {
    hide Sendable, ShedLast, Fits;
    if k < |e.trusted| && !Fits(e, ShedLast(e, h, rank, bound, k), rank, bound) {
      SheddingIsLeast(e, h, rank, bound, k + 1);
    }
  }

  lemma ShedNothing(e: Sender, h: Heap, rank: map<Ref, nat>, bound: nat)
    requires Sendable(e, h, rank, bound)
    ensures ShedLast(e, h, rank, bound, 0) == h
  {
  }

  /** Once every slot is shed, shedding changes nothing. */
  lemma ShedAgain(e: Sender, h: Heap, rank: map<Ref, nat>, bound: nat, m: nat)
    requires Sendable(e, h, rank, bound) && m <= |e.trusted|
    ensures var all := ShedLast(e, h, rank, bound, |e.trusted|); ShedLast(e, all, rank, bound, m) == all
  {
    hide Omission, Acyclic, Below;
    assert e.trusted[0..] == e.trusted;
  }

  lemma SheddingStep(e: Sender, h: Heap, rank: map<Ref, nat>, bound: nat, k: nat)
    requires Sendable(e, h, rank, bound) && k <= |e.trusted|
    ensures SheddingFrom(e, h, rank, bound, k) ==
      if k == |e.trusted| || Fits(e, ShedLast(e, h, rank, bound, k), rank, bound) then k
      else SheddingFrom(e, h, rank, bound, k + 1)
  {
  }

  /** Shedding one more slot. */
  lemma ShedOneMore(e: Sender, h: Heap, rank: map<Ref, nat>, bound: nat, k: nat)
    requires Sendable(e, h, rank, bound) && k < |e.trusted|
    ensures var slot := e.trusted[|e.trusted| - 1 - k];
      ShedLast(e, h, rank, bound, k)[slot := Omission()] == ShedLast(e, h, rank, bound, k + 1)
  {
    var slot, later := e.trusted[|e.trusted| - 1 - k], e.trusted[|e.trusted| - k..];
    SuffixCons(e.trusted, |e.trusted| - 1 - k);
    TrustedInHeap(e, h, rank, bound);
    hide Omission, Sendable, Shed;
    ShedFirst(h, slot, later);
  }

  lemma SuffixCons(s: seq<Ref>, n: nat)
    requires n < |s|
    ensures s[n..] == [s[n]] + s[n + 1..]
  {
  }

  lemma TrustedInHeap(e: Sender, h: Heap, rank: map<Ref, nat>, bound: nat)
    requires Sendable(e, h, rank, bound)
    ensures forall k :: 0 <= k < |e.trusted| ==> e.trusted[k] in h
  {
  }

  lemma ShedFirst(h: Heap, slot: Ref, later: seq<Ref>)
    requires slot in h && forall s :: s in later ==> s in h
    ensures Shed(h, [slot] + later) == Shed(h, later)[slot := Omission()]
  {
    hide Omission;
    assert ([slot] + later)[1..] == later;
  }

  /** The heap that serialisation leaves behind. */
  ghost function Settled(e: Sender, h: Heap, rank: map<Ref, nat>, bound: nat): (r: Heap)
    requires Sendable(e, h, rank, bound)
    ensures Sendable(e, r, rank, bound)
  {
    ShedLast(e, h, rank, bound, SheddingFrom(e, h, rank, bound, 0))
  }

  /** Exactly the shortest sufficient suffix is shed; failure means that even shedding all is not enough. */
  lemma {:induction false} ShedsTheShortestSuffix(e: Sender, h: Heap, rank: map<Ref, nat>, bound: nat, k: nat)
    requires Sendable(e, h, rank, bound) && k <= |e.trusted|
    ensures Fits(e, ShedLast(e, h, rank, bound, k), rank, bound) ==>
      && SheddingFrom(e, h, rank, bound, 0) <= k
      && Fits(e, Settled(e, h, rank, bound), rank, bound)
  {
    hide Sendable, Fits, ShedLast;
    SheddingIsLeast(e, h, rank, bound, 0);
    var n := SheddingFrom(e, h, rank, bound, 0);
    if Fits(e, ShedLast(e, h, rank, bound, k), rank, bound) && n == |e.trusted| {
      assert k == n;
    }
  }

  /** Serialising a serialised request sheds nothing more. */
  lemma {:induction false} SettlingTwice(e: Sender, h: Heap, rank: map<Ref, nat>, bound: nat)
    requires Sendable(e, h, rank, bound)
    ensures var s := Settled(e, h, rank, bound);
      && Settled(e, s, rank, bound) == s
      && (Fits(e, s, rank, bound) ==> SheddingFrom(e, s, rank, bound, 0) == 0)
  {
    SheddingIsLeast(e, h, rank, bound, 0);
    hide Sendable, Fits, ShedLast;
    var s := Settled(e, h, rank, bound);
    ShedNothing(e, s, rank, bound);
    if !Fits(e, s, rank, bound) {
      ShedAgain(e, h, rank, bound, SheddingFrom(e, s, rank, bound, 0));
    }
  }

  lemma ShedLastAt(e: Sender, h: Heap, rank: map<Ref, nat>, bound: nat, k: nat, p: Ref)
    requires Sendable(e, h, rank, bound) && k <= |e.trusted| && p in h
    ensures p in ShedLast(e, h, rank, bound, k)
    ensures ShedLast(e, h, rank, bound, k)[p] == if p in e.trusted[|e.trusted| - k..] then Omission() else h[p]
  {
    hide Omission, Acyclic, Below;
  }

  /** Omitting parts makes no other part a video part. */
  lemma OmittingAddsNoVideo(h: Heap, h2: Heap, normalize: string -> string, r: Ref)
    requires h2.Keys == h.Keys && forall p :: p in h ==> h2[p] == h[p] || h2[p] == Omission()
    ensures VideoPart(h2, normalize, r) ==> h2[r] == h[r] && h2[r] != Omission() && VideoPart(h, normalize, r)
  {
    hide Omission, Get;
  }

  /** What is left after shedding the last `k` slots is trusted by the rest of the list alone. */
  lemma ShedStaysClean(
    e: Sender, h: Heap, rank: map<Ref, nat>, bound: nat, normalize: string -> string, s: set<Ref>, k: nat)
    requires Sendable(e, h, rank, bound) && Clean(h, normalize, e.trusted, s) && k <= |e.trusted|
    ensures Clean(ShedLast(e, h, rank, bound, k), normalize, e.trusted[..|e.trusted| - k], s)
  {
    hide Omission, Sendable, Get, Refs, VideoPart, ShedLast;
    var n := |e.trusted| - k;
    var h2 := ShedLast(e, h, rank, bound, k);
    forall p | p in h ensures p in h2 && h2[p] == if p in e.trusted[n..] then Omission() else h[p] {
      ShedLastAt(e, h, rank, bound, k, p);
    }
    assert e.trusted == e.trusted[..n] + e.trusted[n..];
    forall r | r in s
      ensures Refs(h2[r]) <= s && (VideoPart(h2, normalize, r) ==> r in e.trusted[..n])
    {
      OmittingAddsNoVideo(h, h2, normalize, r);
    }
  }

  /** Every video that can be reached from `root` belongs to one of `slots`. */
  ghost predicate CarriesOnly(h: Heap, normalize: string -> string, root: Value, slots: seq<Ref>) {
    forall p, n :: Reaches(h, RefsOf(root), p, n) && VideoPart(h, normalize, p) ==> p in slots
  }

  /** What serialisation leaves is clean for the slots that it kept; it keeps none when it fails. */
  lemma {:induction false} SettledIsClean(
    e: Sender, h: Heap, rank: map<Ref, nat>, bound: nat, normalize: string -> string, s: set<Ref>)
    requires Sendable(e, h, rank, bound) && Clean(h, normalize, e.trusted, s)
    ensures var shed, h2 := SheddingFrom(e, h, rank, bound, 0), Settled(e, h, rank, bound);
      && Clean(h2, normalize, e.trusted[..|e.trusted| - shed], s)
      && (!Fits(e, h2, rank, bound) ==> shed == |e.trusted|)
  {
    hide Sendable, Acyclic, Below, ShedLast, Fits, VideoPart, Clean, SheddingFrom;
    ShedStaysClean(e, h, rank, bound, normalize, s, SheddingFrom(e, h, rank, bound, 0));
    SheddingIsLeast(e, h, rank, bound, 0);
  }

  /** A clean tree carries video of the trusted slots only, and none when nothing is trusted. */
  lemma {:induction false} CleanCarriesTrusted(h: Heap, rank: map<Ref, nat>, bound: nat, normalize: string -> string,
                                               trusted: seq<Ref>, s: set<Ref>, root: Value)
    requires Acyclic(h, rank) && Below(h, rank, RefsOf(root), bound)
    requires Clean(h, normalize, trusted, s) && RefsOf(root) <= s
    ensures CarriesOnly(h, normalize, root, trusted)
    ensures trusted == [] ==> NoVideo(normalize, Unfold(h, rank, root, bound))
  {
    hide Acyclic, Below, VideoPart, Clean, Reaches, NoVideo, Unfold, CarriesOnly;
    CleanCarriesOnly(h, normalize, trusted, s, root);
    if trusted == [] {
      CleanTreeHasNoVideo(h, rank, normalize, s, root, bound);
    }
  }

  lemma CleanCarriesOnly(h: Heap, normalize: string -> string, trusted: seq<Ref>, s: set<Ref>, root: Value)
    requires Clean(h, normalize, trusted, s) && RefsOf(root) <= s
    ensures CarriesOnly(h, normalize, root, trusted)
  {
    hide VideoPart, Reaches;
    forall p, n | Reaches(h, RefsOf(root), p, n)
      ensures p in s
    {
      ClosedHoldsReachable(h, normalize, trusted, s, RefsOf(root), p, n);
    }
  }

  lemma SendableIsAcyclic(e: Sender, h: Heap, rank: map<Ref, nat>, bound: nat)
    requires Sendable(e, h, rank, bound)
    ensures Acyclic(h, rank) && Below(h, rank, RefsOf(e.root), bound)
  {
  }

  lemma BodyIsSent(e: Sender, h: Heap, rank: map<Ref, nat>, bound: nat)
    requires Sendable(e, h, rank, bound)
    ensures Acyclic(h, rank) && Below(h, rank, RefsOf(e.root), bound)
    ensures Body(e, h, rank, bound) == e.stringify(Unfold(h, rank, e.root, bound))
    ensures Small(e, Body(e, h, rank, bound)) <==> e.byteLength(e.stringify(Unfold(h, rank, e.root, bound))) < 20_000_000
  {
  }

  /** A materialised request can be serialised. */
  lemma MaterializedIsSendable(c: Setting, e: Sender, h: Heap, done: set<Ref>, bound: nat)
    requires Inv(c, h, e.trusted, done) && RefsOf(e.root) <= done && Below(c.initial, c.rank, RefsOf(e.root), bound)
    ensures Sendable(e, h, c.rank, bound) && Clean(h, c.normalize, e.trusted, done)
  {
  }

  /** The JSON that is sent for an object. */
  function SentAs(h: Heap, ghost rank: map<Ref, nat>, r: Ref): Json
    requires Acyclic(h, rank) && r in h
  {
    Unfold(h, rank, Obj(r), RankOf(rank, r) + 1)
  }

  /** A shed slot holds the omission text; any other trusted slot still holds its video. */
  lemma {:induction false} ShedSlots(c: Setting, e: Sender, h: Heap, done: set<Ref>, bound: nat, k: nat, p: Ref)
    requires Inv(c, h, e.trusted, done) && Sendable(e, h, c.rank, bound) && k <= |e.trusted| && p in e.trusted
    ensures var h2 := ShedLast(e, h, c.rank, bound, k);
      && p in c.slots
      && if p in e.trusted[|e.trusted| - k..] then HoldsText(h2, p, "(video omitted: native video slot unavailable)")
         else HoldsSlot(h2, c.slots, p)
  {
    hide Sendable, Acyclic, ShedLast, Clean, Framed, MadeAreMedia, Get, SlotPart, Media;
    ShedLastAt(e, h, c.rank, bound, k, p);
    OmissionText();
    assert Served(c, h, e.trusted, p);
    if p !in e.trusted[|e.trusted| - k..] {
      var media := Get(h[p], "inlineData").value.ref;
      assert media !in e.trusted;
      assert forall s :: s in e.trusted[|e.trusted| - k..] ==> s in e.trusted;
      ShedLastAt(e, h, c.rank, bound, k, media);
    }
  }

  lemma OmissionText()
    ensures Omission() == [Field("text", Str("(video omitted: native video slot unavailable)"))]
  {
  }

  /** The omission text is sent for the object. */
  ghost predicate SentAsText(h: Heap, rank: map<Ref, nat>, r: Ref)
    requires Acyclic(h, rank)
  {
    && r in h
    && SentAs(h, rank, r) == JObj([Member("text", JStr("(video omitted: native video slot unavailable)"))])
  }

  /** The MIME type and the data of the video are sent for the object. */
  ghost predicate SentAsVideo(h: Heap, rank: map<Ref, nat>, r: Ref, video: Video)
    requires Acyclic(h, rank)
  {
    && r in h
    && SentAs(h, rank, r) ==
         JObj([Member("inlineData", JObj([Member("mimeType", JStr(video.mimeType)), Member("data", JStr(video.data))]))])
  }

  /** What is sent for slots that were kept or shed; an object may be listed twice. */
  ghost predicate SentSlots(h: Heap, rank: map<Ref, nat>, slots: map<Ref, Video>, kept: seq<Ref>, shed: seq<Ref>)
    requires Acyclic(h, rank)
  {
    && (forall p :: p in shed ==> SentAsText(h, rank, p))
    && (forall p :: p in kept && p !in shed ==> p in slots && SentAsVideo(h, rank, p, slots[p]))
  }

  lemma {:induction false} SlotsAreSent(h: Heap, rank: map<Ref, nat>, slots: map<Ref, Video>, kept: seq<Ref>, shed: seq<Ref>)
    requires Acyclic(h, rank)
    requires forall p :: p in shed ==> HoldsText(h, p, "(video omitted: native video slot unavailable)")
    requires forall p :: p in kept && p !in shed ==> HoldsSlot(h, slots, p)
    ensures SentSlots(h, rank, slots, kept, shed)
  {
    hide Acyclic, Unfold, RankOf, Media, SlotPart, Get;
    forall p | p in shed ensures SentAsText(h, rank, p) {
      TextIsSent(h, rank, p, "(video omitted: native video slot unavailable)", RankOf(rank, p) + 1);
    }
    forall p | p in kept && p !in shed ensures p in slots && SentAsVideo(h, rank, p, slots[p]) {
      SlotIsSent(h, rank, slots, p, RankOf(rank, p) + 1);
    }
  }

  lemma {:induction false} SettledIsSent(c: Setting, e: Sender, h: Heap, done: set<Ref>, bound: nat)
    requires Inv(c, h, e.trusted, done) && Sendable(e, h, c.rank, bound)
    ensures var h2, n := Settled(e, h, c.rank, bound), |e.trusted| - SheddingFrom(e, h, c.rank, bound, 0);
      Acyclic(h2, c.rank) && SentSlots(h2, c.rank, c.slots, e.trusted[..n], e.trusted[n..])
  {
    hide Inv, Sendable, Acyclic, ShedLast, SentSlots, HoldsText, HoldsSlot, SheddingFrom;
    var k := SheddingFrom(e, h, c.rank, bound, 0);
    var h2, n := ShedLast(e, h, c.rank, bound, k), |e.trusted| - k;
    SendableIsAcyclic(e, h2, c.rank, bound);
    forall p | p in e.trusted
      ensures if p in e.trusted[n..] then HoldsText(h2, p, "(video omitted: native video slot unavailable)")
              else HoldsSlot(h2, c.slots, p)
    {
      ShedSlots(c, e, h, done, bound, k, p);
    }
    SlotsAreSent(h2, c.rank, c.slots, e.trusted[..n], e.trusted[n..]);
  }

  class Request {
    var heap: Heap
    var next: Ref
    var trusted: seq<Ref>
    ghost var done: set<Ref>
    const root: Value
    const slots: map<Ref, Video>
    const normalize: string -> string
    ghost const initial: Heap
    ghost const rank: map<Ref, nat>
    ghost const bound: nat

    ghost function Context(): Setting {
      Setting(initial, rank, slots, normalize)
    }

    ghost predicate Valid()
      reads this
    {
      && (forall r :: r in heap ==> r < next)
      && WellFormed(Context()) && Inv(Context(), heap, trusted, done)
    }

    constructor (heap: Heap, next: Ref, root: Value, slots: map<Ref, Video>, normalize: string -> string,
                 ghost rank: map<Ref, nat>, ghost bound: nat)
      requires forall r :: r in heap ==> r < next
      requires WellFormed(Setting(heap, rank, slots, normalize)) && Below(heap, rank, RefsOf(root), bound)
      ensures Valid() && this.heap == initial == heap && trusted == [] && done == {}
      ensures this.root == root && this.slots == slots && this.normalize == normalize
      ensures this.rank == rank && this.bound == bound
    {
      this.heap, this.next, this.root, this.slots, this.normalize := heap, next, root, slots, normalize;
      this.trusted, this.done, this.initial, this.rank, this.bound := [], {}, heap, rank, bound;
    }

    /** `visit` in `materializeGoogleVideoSlots`. */
    method Visit(value: Value, ghost bound: nat)
      requires Valid() && Below(initial, rank, RefsOf(value), bound)
      modifies this
      ensures Valid() && RefsOf(value) <= done && old(done) <= done
      ensures Advanced(Context(), old(heap), old(trusted), old(done), heap, trusted, done, bound)
      ensures Acyclic(heap, rank) && Below(heap, rank, RefsOf(value), bound)
      ensures trusted == old(trusted) + Reading(Context(), heap, value, bound)
      decreases bound, value, 1
    {
      hide Inv, Advanced, WellFormed, Acyclic, VideoPart, RankOf, Native;
      AdvancedRefl(Context(), heap, trusted, done, bound);
      InvAcyclic(Context(), heap, trusted, done);
      match value {
        case Str(_) =>
        case Other(_) =>
        case Arr(items) => VisitItems(items, bound);
        case Obj(r) => VisitObject(r, bound);
      }
    }

    method VisitItems(items: seq<Value>, ghost bound: nat)
      requires Valid() && Below(initial, rank, RefsOfAll(items), bound)
      modifies this
      ensures Valid() && RefsOfAll(items) <= done && old(done) <= done
      ensures Advanced(Context(), old(heap), old(trusted), old(done), heap, trusted, done, bound)
      ensures Acyclic(heap, rank) && Below(heap, rank, RefsOfAll(items), bound)
      ensures trusted == old(trusted) + ReadingAll(Context(), heap, items, bound)
      decreases bound, items, 0
    {
      hide Inv, Advanced, WellFormed, Acyclic, VideoPart, RankOf, Native, RefsOf, Reading, SameOn;
      AdvancedRefl(Context(), heap, trusted, done, bound);
      InvAcyclic(Context(), heap, trusted, done);
      var k := 0;
      while k < |items|
        invariant 0 <= k <= |items| && Valid() && old(done) <= done
        invariant RefsOfAll(items[..k]) <= done
        invariant Advanced(Context(), old(heap), old(trusted), old(done), heap, trusted, done, bound)
        invariant Acyclic(heap, rank) && Below(heap, rank, RefsOfAll(items[..k]), bound)
        invariant trusted == old(trusted) + ReadingAll(Context(), heap, items[..k], bound)
      {
        hide ReadingAll, RefsOfAll;
        ItemRefs(items, k);
        label Before:
        Visit(items[k], bound);
        AdvancedTrans(Context(), old(heap), old(trusted), old(done), old@Before(heap), old@Before(trusted),
                      old@Before(done), heap, trusted, done, bound);
        ItemVisited(Context(), old@Before(heap), old@Before(trusted), old@Before(done), heap, trusted, done,
                    old(trusted), items, k, bound);
        k := k + 1;
      }
      assert items[..k] == items;
    }

    method VisitFields(r: Record, ghost bound: nat)
      requires Valid() && Below(initial, rank, Refs(r), bound)
      modifies this
      ensures Valid() && Refs(r) <= done && old(done) <= done
      ensures Advanced(Context(), old(heap), old(trusted), old(done), heap, trusted, done, bound)
      ensures Acyclic(heap, rank) && Below(heap, rank, Refs(r), bound)
      ensures trusted == old(trusted) + ReadingFields(Context(), heap, r, bound)
      decreases bound, r, 0
    {
      hide Inv, Advanced, WellFormed, Acyclic, VideoPart, RankOf, Native, RefsOf, Reading, SameOn;
      AdvancedRefl(Context(), heap, trusted, done, bound);
      InvAcyclic(Context(), heap, trusted, done);
      var k := 0;
      while k < |r|
        invariant 0 <= k <= |r| && Valid() && old(done) <= done
        invariant Refs(r[..k]) <= done
        invariant Advanced(Context(), old(heap), old(trusted), old(done), heap, trusted, done, bound)
        invariant Acyclic(heap, rank) && Below(heap, rank, Refs(r[..k]), bound)
        invariant trusted == old(trusted) + ReadingFields(Context(), heap, r[..k], bound)
      {
        hide ReadingFields, Refs;
        FieldRefs(r, k);
        label Before:
        Visit(r[k].value, bound);
        AdvancedTrans(Context(), old(heap), old(trusted), old(done), old@Before(heap), old@Before(trusted),
                      old@Before(done), heap, trusted, done, bound);
        FieldVisited(Context(), old@Before(heap), old@Before(trusted), old@Before(done), heap, trusted, done,
                     old(trusted), r, k, bound);
        k := k + 1;
      }
      assert r[..k] == r;
    }

    /** A slot becomes its video or an omission, an untrusted video part becomes text, others are entered. */
    method VisitObject(r: Ref, ghost bound: nat)
      requires Valid() && r in initial && RankOf(rank, r) < bound
      modifies this
      ensures Valid() && r in done && old(done) <= done
      ensures Advanced(Context(), old(heap), old(trusted), old(done), heap, trusted, done, bound)
      ensures Acyclic(heap, rank) && Below(heap, rank, {r}, bound)
      ensures trusted == old(trusted) + Reading(Context(), heap, Obj(r), bound)
      decreases bound, Obj(r), 0
    {
      hide Inv, Advanced, WellFormed, Acyclic, RankOf, Refs, ReadingFields;
      InvKeepsOriginals(Context(), heap, trusted, done);
      if r in slots {
        if slots[r].mimeType !in NATIVE_VIDEO {
          Omit(r, MIME_OMISSION, bound);
        } else {
          Fill(r, bound);
        }
        InvAcyclic(Context(), heap, trusted, done);
        return;
      }
      if VideoPart(heap, normalize, r) {
        VideoFromTheStart(Context(), heap, trusted, done, r);
        Omit(r, SLOT_OMISSION, bound);
        InvAcyclic(Context(), heap, trusted, done);
        ReadingText(Context(), heap, SLOT_OMISSION, RankOf(rank, r));
        return;
      }
      hide VideoPart;
      EnteredIsOriginal(Context(), heap, trusted, done, r);
      VisitFields(heap[r], RankOf(rank, r));
      EnteredAdvances(Context(), old(heap), old(trusted), old(done), heap, trusted, done, r, bound);
      done := done + {r};
    }

    /** `replaceGooglePartWithText` on an object that is not trusted. */
    method Omit(r: Ref, text: string, ghost bound: nat)
      requires Valid() && r in initial && RankOf(rank, r) < bound && Omits(Context(), r, text)
      requires r in slots || VideoPart(heap, normalize, r)
      modifies this
      ensures Valid() && r in done && old(done) <= done
      ensures heap == old(heap)[r := TextPart(text)] && trusted == old(trusted)
      ensures Advanced(Context(), old(heap), old(trusted), old(done), heap, trusted, done, bound)
    {
      hide Acyclic, WellFormed, SlotsServed, Clean, TextPart, VideoPart, Omits, RankOf;
      OmissionAdvances(Context(), heap, trusted, done, r, text, bound);
      heap := heap[r := TextPart(text)];
      done := done + {r};
    }

    method Fill(r: Ref, ghost bound: nat)
      requires Valid() && r in initial && RankOf(rank, r) < bound && Native(Context(), r)
      modifies this
      ensures Valid() && r in done && old(done) <= done && trusted == old(trusted) + [r]
      ensures CarriesVideo(heap, r, slots[r])
      ensures heap.Keys == old(heap).Keys + {old(next)} && forall p :: p in old(heap) && p != r ==> heap[p] == old(heap)[p]
      ensures Advanced(Context(), old(heap), old(trusted), old(done), heap, trusted, done, bound)
    {
      hide Acyclic, WellFormed, MadeAreMedia, SlotsServed, Clean, SlotPart, Media, VideoPart, RankOf;
      MediaAdvances(Context(), heap, trusted, done, r, next, bound);
      FilledCarries(heap, slots, r, next);
      heap := heap[next := Media(slots[r])][r := SlotPart(next)];
      trusted := trusted + [r];
      done := done + {r, next};
      next := next + 1;
    }

    /**
      `materializeGoogleVideoSlots`: afterwards only trusted slots carry video anywhere in the request,
      every slot reached holds its own video or the MIME omission, and nothing else was touched except
      untrusted video parts.
    */
    method Materialize()
      requires Valid() && heap == initial && trusted == [] && done == {} && Below(initial, rank, RefsOf(root), bound)
      modifies this
      ensures Valid() && RefsOf(root) <= done
      ensures forall p, n :: Reaches(heap, RefsOf(root), p, n) && VideoPart(heap, normalize, p) ==>
        p in trusted && p in slots && CarriesVideo(heap, p, slots[p])
      ensures forall p, n :: Reaches(heap, RefsOf(root), p, n) && p in slots ==>
        if slots[p].mimeType in NATIVE_VIDEO then p in trusted && CarriesVideo(heap, p, slots[p])
        else HoldsText(heap, p, "(video omitted: unsupported Google video MIME type)")
      ensures forall p :: p in initial && p !in slots ==>
        || heap[p] == initial[p]
        || (VideoPart(initial, normalize, p) && HoldsText(heap, p, "(video omitted: native video slot unavailable)"))
      ensures Acyclic(heap, rank) && Below(heap, rank, RefsOf(root), bound)
      ensures trusted == Reading(Context(), heap, root, bound)
    {
      Visit(root, bound);
      forall p, n | Reaches(heap, RefsOf(root), p, n)
        ensures p in done
      {
        ClosedHoldsReachable(heap, normalize, trusted, done, RefsOf(root), p, n);
      }
      forall p | p in done && p in slots
        ensures if slots[p].mimeType in NATIVE_VIDEO then p in trusted && CarriesVideo(heap, p, slots[p])
                else HoldsText(heap, p, "(video omitted: unsupported Google video MIME type)")
      {
        ServedCarries(Context(), heap, trusted, p);
      }
      assert forall p :: p in trusted ==> p in done;
    }

    /** `serializeGoogleRequest`: the body, or `None` where it throws. */
    method Serialize(stringify: Json -> string, byteLength: string -> nat) returns (result: Option<string>)
      requires Sendable(Sender(root, trusted, stringify, byteLength), heap, rank, bound)
      modifies this`heap
      ensures Sendable(Sender(root, trusted, stringify, byteLength), heap, rank, bound)
      ensures heap == Settled(Sender(root, trusted, stringify, byteLength), old(heap), rank, bound)
      ensures var e := Sender(root, trusted, stringify, byteLength);
        result == if Fits(e, heap, rank, bound) then Some(Body(e, heap, rank, bound)) else None
      ensures Acyclic(heap, rank) && Below(heap, rank, RefsOf(root), bound)
      ensures var body := stringify(Unfold(heap, rank, root, bound));
        result == if byteLength(body) < 20_000_000 then Some(body) else None
    {
      ShedNothing(Sender(root, trusted, stringify, byteLength), heap, rank, bound);
      hide Sendable, Omission, Body, ShedLast, SheddingFrom, Small;
      var e := Sender(root, trusted, stringify, byteLength);
      ghost var before := heap;
      var body := Body(e, heap, rank, bound);
      var k := 0;
      while k < |trusted| && !Small(e, body)
        invariant 0 <= k <= |trusted|
        invariant Sendable(e, heap, rank, bound) && heap == ShedLast(e, before, rank, bound, k)
        invariant body == Body(e, heap, rank, bound)
        invariant SheddingFrom(e, before, rank, bound, 0) == SheddingFrom(e, before, rank, bound, k)
      {
        ShedOneMore(e, before, rank, bound, k);
        SheddingStep(e, before, rank, bound, k);
        heap := heap[trusted[|trusted| - 1 - k] := Omission()];
        k := k + 1;
        body := Body(e, heap, rank, bound);
      }
      SheddingStep(e, before, rank, bound, k);
      BodyIsSent(e, heap, rank, bound);
      if !Small(e, body) {
        result := None;
      } else {
        result := Some(body);
      }
    }

    /**
      A request that is materialised once and serialised twice: both bodies are the same, and every video
      that can be reached from the request belongs to a slot that was not shed.
    */
    method SerializeTwice(stringify: Json -> string, byteLength: string -> nat)
      returns (first: Option<string>, second: Option<string>, ghost kept: nat)
      requires Valid() && heap == initial && trusted == [] && done == {} && Below(initial, rank, RefsOf(root), bound)
      modifies this
      ensures first == second && kept <= |trusted|
      ensures Acyclic(heap, rank) && Below(heap, rank, RefsOf(root), bound)
      ensures CarriesOnly(heap, normalize, root, trusted[..kept])
      ensures SentSlots(heap, rank, slots, trusted[..kept], trusted[kept..])
      ensures kept == 0 ==> NoVideo(normalize, Unfold(heap, rank, root, bound))
      ensures first.None? ==> kept == 0
    {
      hide Inv, Acyclic, Sendable, Settled, Fits, VideoPart, Body, Served, Reading, Reaches, Below, CarriesOnly;
      hide NoVideo, Clean, SheddingFrom, CarriesVideo, HoldsText, SentSlots, Unfold;
      Materialize();
      ghost var e := Sender(root, trusted, stringify, byteLength);
      MaterializedIsSendable(Context(), e, heap, done, bound);
      SettledIsClean(e, heap, rank, bound, normalize, done);
      SettlingTwice(e, heap, rank, bound);
      kept := |trusted| - SheddingFrom(e, heap, rank, bound, 0);
      SettledIsSent(Context(), e, heap, done, bound);
      first := Serialize(stringify, byteLength);
      second := Serialize(stringify, byteLength);
      SendableIsAcyclic(e, heap, rank, bound);
      CleanCarriesTrusted(heap, rank, bound, normalize, trusted[..kept], done, root);
    }
  }
}
