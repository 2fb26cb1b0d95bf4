/**
  The inventory of native strings: candidates found in the sources are gathered by identity and by site,
  and then listed in a canonical order.
*/
module NativeInventory {
  import opened Options
  import opened Sorting
  import opened JsText
  import opened NativeLiteral

  /** A string found in a source file; `context` is the excerpt around it. */
  datatype Candidate =
    Candidate(surface: Surface, source: string, path: string, kind: string, context: Option<string>)

  /** The string that an entry is about. */
  datatype Owner = Owner(surface: Surface, source: string)

  /** `sites` are pairs of a path and a kind. */
  datatype Entry = Entry(id: string, owner: Owner, sites: seq<Pair>, context: Option<string>)

  function SurfaceName(surface: Surface): string {
    if surface.Apple? then "apple" else "android"
  }

  function OwnerOf(c: Candidate): Owner {
    Owner(c.surface, c.source)
  }

  function Identity(owner: Owner): string {
    SurfaceName(owner.surface) + " " + owner.source
  }

  function SiteOf(c: Candidate): Pair {
    Pair(c.path, c.kind)
  }

  function SiteKey(site: Pair): string {
    site.major + ['\0'] + site.minor
  }

  function OwnerKey(owner: Owner): Pair {
    Pair(SurfaceName(owner.surface), owner.source)
  }

  function EntryKey(e: Entry): Pair {
    OwnerKey(e.owner)
  }

  /** No two surfaces or sources share an identity. */
  lemma IdentityInjective(a: Owner, b: Owner)
    ensures Identity(a) == Identity(b) <==> a == b
    ensures OwnerKey(a) == OwnerKey(b) <==> a == b
  {
    var x, y := Identity(a), Identity(b);
    assert x[1] == (if a.surface.Apple? then 'p' else 'n');
    assert y[1] == (if b.surface.Apple? then 'p' else 'n');
    if x == y {
      var n := |SurfaceName(a.surface)| + 1;
      assert x[n..] == a.source && y[n..] == b.source;
    }
  }

  // ---- Insertion-ordered maps -----------------------------------------------------------------

  datatype Slot<T> = Slot(key: string, value: T)

  /** `map.set`: an existing key keeps its place. */
  function Put<T>(m: seq<Slot<T>>, key: string, value: T): seq<Slot<T>> {
    if m == [] then [Slot(key, value)]
    else if m[0].key == key then [Slot(key, value)] + m[1..]
    else [m[0]] + Put(m[1..], key, value)
  }

  function Find<T>(m: seq<Slot<T>>, key: string): Option<T> {
    if m == [] then None else if m[0].key == key then Some(m[0].value) else Find(m[1..], key)
  }

  predicate KeysDistinct<T(!new)>(m: seq<Slot<T>>) {
    forall i, j :: 0 <= i < j < |m| ==> m[i].key != m[j].key
  }

  lemma {:induction false} FindPut<T>(m: seq<Slot<T>>, key: string, value: T, other: string)
    ensures Find(Put(m, key, value), other) == if other == key then Some(value) else Find(m, other)
  {
    if m != [] && m[0].key != key {
      FindPut(m[1..], key, value, other);
    }
  }

  lemma {:induction false} PutDistinct<T(!new)>(m: seq<Slot<T>>, key: string, value: T)
    requires KeysDistinct(m)
    ensures KeysDistinct(Put(m, key, value))
    ensures forall i :: 0 <= i < |Put(m, key, value)| ==>
      Put(m, key, value)[i] in m || Put(m, key, value)[i] == Slot(key, value)
  {
    if m != [] && m[0].key != key {
      PutDistinct(m[1..], key, value);
    }
  }

  lemma {:induction false} FindAt<T(!new)>(m: seq<Slot<T>>, i: nat)
    requires KeysDistinct(m) && i < |m|
    ensures Find(m, m[i].key) == Some(m[i].value)
  {
    if i > 0 {
      FindAt(m[1..], i - 1);
    }
  }

  lemma {:induction false} FoundAt<T>(m: seq<Slot<T>>, key: string) returns (i: nat)
    requires Find(m, key).Some?
    ensures i < |m| && m[i] == Slot(key, Find(m, key).value)
  {
    if m[0].key == key {
      i := 0;
    } else {
      i := FoundAt(m[1..], key);
      i := i + 1;
    }
  }

  // ---- Gathering ------------------------------------------------------------------------------

  type Sites = seq<Slot<Candidate>>

  datatype Tables = Tables(sites: seq<Slot<Sites>>, owners: seq<Slot<Owner>>)

  function SitesAt(t: Tables, identity: string): Sites {
    var s := Find(t.sites, identity);
    if s.Some? then s.value else []
  }

  function Gather(t: Tables, c: Candidate): Tables {
    var identity := Identity(OwnerOf(c));
    Tables(Put(t.sites, identity, Put(SitesAt(t, identity), SiteKey(SiteOf(c)), c)), Put(t.owners, identity, OwnerOf(c)))
  }

  function Gathered(cs: seq<Candidate>): Tables {
    if cs == [] then Tables([], []) else Gather(Gathered(cs[..|cs| - 1]), cs[|cs| - 1])
  }

  predicate At(c: Candidate, identity: string, key: string) {
    Identity(OwnerOf(c)) == identity && SiteKey(SiteOf(c)) == key
  }

  /** The last candidate of a site. */
  function Last(cs: seq<Candidate>, identity: string, key: string): (r: Option<Candidate>)
    ensures r.Some? ==> At(r.value, identity, key) && r.value in cs
    ensures r.None? ==> forall c :: c in cs ==> !At(c, identity, key)
  {
    if cs == [] then None
    else if At(cs[|cs| - 1], identity, key) then Some(cs[|cs| - 1])
    else
      assert cs == cs[..|cs| - 1] + [cs[|cs| - 1]];
      Last(cs[..|cs| - 1], identity, key)
  }

  lemma {:induction false} GatheredSites(cs: seq<Candidate>, identity: string)
    ensures KeysDistinct(SitesAt(Gathered(cs), identity))
    ensures forall key :: Find(SitesAt(Gathered(cs), identity), key) == Last(cs, identity, key)
  {
    if cs != [] {
      var n := |cs| - 1;
      var c, t := cs[n], Gathered(cs[..n]);
      var own := Identity(OwnerOf(c));
      GatheredSites(cs[..n], identity);
      FindPut(t.sites, own, Put(SitesAt(t, own), SiteKey(SiteOf(c)), c), identity);
      if own == identity {
        PutDistinct(SitesAt(t, own), SiteKey(SiteOf(c)), c);
        forall key ensures Find(SitesAt(Gathered(cs), identity), key) == Last(cs, identity, key) {
          FindPut(SitesAt(t, own), SiteKey(SiteOf(c)), c, key);
        }
      }
    }
  }

  lemma {:induction false} GatheredOwners(cs: seq<Candidate>)
    ensures KeysDistinct(Gathered(cs).owners)
    ensures forall i :: 0 <= i < |Gathered(cs).owners| ==>
      Gathered(cs).owners[i].key == Identity(Gathered(cs).owners[i].value)
    ensures forall o :: Find(Gathered(cs).owners, Identity(o)) == if Owned(cs, o) then Some(o) else None
  {
    if cs != [] {
      var n := |cs| - 1;
      var c, t := cs[n], Gathered(cs[..n]);
      GatheredOwners(cs[..n]);
      PutDistinct(t.owners, Identity(OwnerOf(c)), OwnerOf(c));
      assert cs == cs[..n] + [c];
      forall o ensures Find(Gathered(cs).owners, Identity(o)) == if Owned(cs, o) then Some(o) else None {
        FindPut(t.owners, Identity(OwnerOf(c)), OwnerOf(c), Identity(o));
        IdentityInjective(o, OwnerOf(c));
      }
    }
  }

  /** Some candidate is about this string. */
  predicate Owned(cs: seq<Candidate>, o: Owner) {
    exists c :: c in cs && OwnerOf(c) == o
  }

  // ---- The inventory --------------------------------------------------------------------------

  function Values<T>(m: seq<Slot<T>>): (r: seq<T>)
    ensures |r| == |m| && forall i :: 0 <= i < |m| ==> r[i] == m[i].value
  {
    seq(|m|, i requires 0 <= i < |m| => m[i].value)
  }

  function SortedSites(t: Tables, identity: string): seq<Candidate> {
    Sort(Values(SitesAt(t, identity)), SiteOf)
  }

  function EntryFor(t: Tables, hash: string -> string, owner: Owner): Entry {
    var sites := SortedSites(t, Identity(owner));
    Entry("native." + SurfaceName(owner.surface) + "." + hash(Identity(owner)), owner, Keys(sites, SiteOf),
          if sites == [] then None else sites[0].context)
  }

  function Entries(t: Tables, hash: string -> string, owners: seq<Owner>): (r: seq<Entry>)
    ensures |r| == |owners| && forall i :: 0 <= i < |owners| ==> r[i] == EntryFor(t, hash, owners[i])
  {
    seq(|owners|, i requires 0 <= i < |owners| => EntryFor(t, hash, owners[i]))
  }

  function Inventory(cs: seq<Candidate>, hash: string -> string): seq<Entry> {
    var t := Gathered(cs);
    Sort(Entries(t, hash, Values(t.owners)), EntryKey)
  }

  /** `assignNativeI18nIds`; `hash` is the shortened SHA-256. */
  method AssignNativeI18nIds(cs: seq<Candidate>, hash: string -> string) returns (r: seq<Entry>)
    ensures r == Inventory(cs, hash)
  {
    var sitesByIdentity: seq<Slot<Sites>>, entryByIdentity: seq<Slot<Owner>> := [], [];
    var i := 0;
    while i < |cs|
      invariant 0 <= i <= |cs|
      invariant Tables(sitesByIdentity, entryByIdentity) == Gathered(cs[..i])
    {
      var candidate := cs[i];
      assert cs[..i + 1][..i] == cs[..i];
      var identity := Identity(OwnerOf(candidate));
      entryByIdentity := Put(entryByIdentity, identity, OwnerOf(candidate));
      var known := Find(sitesByIdentity, identity);
      var sites := if known.Some? then known.value else [];
      sites := Put(sites, SiteKey(SiteOf(candidate)), candidate);
      sitesByIdentity := Put(sitesByIdentity, identity, sites);
      i := i + 1;
    }
    assert cs[..|cs|] == cs;
    r := Sort(Entries(Tables(sitesByIdentity, entryByIdentity), hash, Values(entryByIdentity)), EntryKey);
  }

  // ---- What the inventory lists ----------------------------------------------------------------

  /** The sites listed for a string: in strictly ascending order, each with its own key. */
  lemma {:induction false} SitesListed(cs: seq<Candidate>, hash: string -> string, owner: Owner)
    ensures var sites := EntryFor(Gathered(cs), hash, owner).sites;
      && Ascending(sites)
      && (forall x :: x in sites <==>
           var c := Last(cs, Identity(owner), SiteKey(x)); c.Some? && SiteOf(c.value) == x)
  {
    hide Gathered, SitesAt, Sort, Identity, SiteKey;
    var identity := Identity(owner);
    var m := SitesAt(Gathered(cs), identity);
    var sorted := SortedSites(Gathered(cs), identity);
    var sites := Keys(sorted, SiteOf);
    GatheredSites(cs, identity);
    forall i | 0 <= i < |m| ensures Last(cs, identity, m[i].key) == Some(m[i].value) {
      FindAt(m, i);
    }
    SortAscends(Values(m), SiteOf);
    forall x ensures x in sites <==> var c := Last(cs, identity, SiteKey(x)); c.Some? && SiteOf(c.value) == x {
      if x in sites {
        var k :| 0 <= k < |sites| && sites[k] == x;
        SameElements(Values(m), SiteOf, sorted[k]);
        var i :| 0 <= i < |m| && Values(m)[i] == sorted[k];
      }
      var c := Last(cs, identity, SiteKey(x));
      if c.Some? && SiteOf(c.value) == x {
        var i := FoundAt(m, SiteKey(x));
        assert Values(m)[i] == c.value;
        SameElements(Values(m), SiteOf, c.value);
        var k :| 0 <= k < |sorted| && sorted[k] == c.value;
        assert sites[k] == x;
      }
    }
  }

  /** One entry for each distinct string, in strictly ascending order. */
  lemma {:induction false} EntriesListed(cs: seq<Candidate>, hash: string -> string)
    ensures Ascending(Keys(Inventory(cs, hash), EntryKey))
    ensures forall e :: e in Inventory(cs, hash) <==>
      Owned(cs, e.owner) && e == EntryFor(Gathered(cs), hash, e.owner)
  {
    hide Gathered, SortedSites, Sort, Identity, OwnerKey, Owned;
    var t := Gathered(cs);
    var owners := Values(t.owners);
    var entries := Entries(t, hash, owners);
    GatheredOwners(cs);
    forall i, j | 0 <= i < j < |entries| ensures EntryKey(entries[i]) != EntryKey(entries[j]) {
      IdentityInjective(owners[i], owners[j]);
    }
    SortAscends(entries, EntryKey);
    forall e ensures e in Inventory(cs, hash) <==> Owned(cs, e.owner) && e == EntryFor(t, hash, e.owner) {
      SameElements(entries, EntryKey, e);
      if e in entries {
        var i :| 0 <= i < |entries| && entries[i] == e;
        FindAt(t.owners, i);
        assert Find(t.owners, Identity(e.owner)) == Some(owners[i]);
      }
      if Owned(cs, e.owner) && e == EntryFor(t, hash, e.owner) {
        var i := FoundAt(t.owners, Identity(e.owner));
        assert entries[i] == e;
      }
    }
  }

  // ---- When the inventory is canonical ---------------------------------------------------------

  /** Two sites of one string share a key although they differ: possible only with a NUL in a path. */
  predicate Collide(a: Candidate, b: Candidate) {
    OwnerOf(a) == OwnerOf(b) && SiteOf(a) != SiteOf(b) && SiteKey(SiteOf(a)) == SiteKey(SiteOf(b))
  }

  predicate Collisionless(cs: seq<Candidate>) {
    forall a, b :: a in cs && b in cs ==> !Collide(a, b)
  }

  lemma NoNulNoCollision(cs: seq<Candidate>)
    requires forall c :: c in cs ==> '\0' !in c.path
    ensures Collisionless(cs)
  {
    forall a, b | a in cs && b in cs ensures !Collide(a, b) {
      SplitPart(a.path, a.kind, '\0');
      SplitPart(b.path, b.kind, '\0');
      var x, y := SiteKey(SiteOf(a)), SiteKey(SiteOf(b));
      if x == y {
        assert a.path == Split(x, '\0')[0] == b.path;
        assert x[|a.path| + 1..] == a.kind && y[|b.path| + 1..] == b.kind;
      }
    }
  }

  /** Some candidate is at this site of this string. */
  predicate Sited(cs: seq<Candidate>, o: Owner, site: Pair) {
    exists c :: c in cs && OwnerOf(c) == o && SiteOf(c) == site
  }

  /** A listed site has a candidate; without collisions the converse holds too. */
  lemma SitesAreCandidates(cs: seq<Candidate>, hash: string -> string, o: Owner, site: Pair)
    ensures site in EntryFor(Gathered(cs), hash, o).sites ==> Sited(cs, o, site)
    ensures Collisionless(cs) && Sited(cs, o, site) ==> site in EntryFor(Gathered(cs), hash, o).sites
  {
    hide EntryFor, Gathered;
    SitesListed(cs, hash, o);
    var last := Last(cs, Identity(o), SiteKey(site));
    if last.Some? {
      IdentityInjective(o, OwnerOf(last.value));
    }
    if Collisionless(cs) && Sited(cs, o, site) {
      var c :| c in cs && OwnerOf(c) == o && SiteOf(c) == site;
      assert At(c, Identity(o), SiteKey(site));
      assert !Collide(c, last.value);
    }
  }

  /** Everything of an entry but its context. */
  function Visible(e: Entry): Entry {
    e.(context := None)
  }

  function VisibleAll(es: seq<Entry>): (r: seq<Entry>)
    ensures |r| == |es| && forall i :: 0 <= i < |es| ==> r[i] == Visible(es[i])
  {
    seq(|es|, i requires 0 <= i < |es| => Visible(es[i]))
  }

  /** The same strings at the same sites, in any order and any number. */
  ghost predicate SameSites(a: seq<Candidate>, b: seq<Candidate>) {
    forall o, site :: Sited(a, o, site) <==> Sited(b, o, site)
  }

  lemma SameSitesSameOwners(a: seq<Candidate>, b: seq<Candidate>, o: Owner)
    requires SameSites(a, b)
    ensures Owned(a, o) <==> Owned(b, o)
  {
    if Owned(a, o) {
      var c :| c in a && OwnerOf(c) == o;
      assert Sited(a, o, SiteOf(c));
    }
    if Owned(b, o) {
      var c :| c in b && OwnerOf(c) == o;
      assert Sited(b, o, SiteOf(c));
    }
  }

  lemma {:induction false} SameEntry(a: seq<Candidate>, b: seq<Candidate>, hash: string -> string, o: Owner)
    requires SameSites(a, b) && Collisionless(a) && Collisionless(b)
    ensures Visible(EntryFor(Gathered(a), hash, o)) == Visible(EntryFor(Gathered(b), hash, o))
  {
    hide Gathered, SortedSites, Collisionless, Sited;
    var x, y := EntryFor(Gathered(a), hash, o), EntryFor(Gathered(b), hash, o);
    SitesListed(a, hash, o);
    SitesListed(b, hash, o);
    forall site ensures site in x.sites <==> site in y.sites {
      SitesAreCandidates(a, hash, o, site);
      SitesAreCandidates(b, hash, o, site);
    }
    AscendingUnique(x.sites, y.sites);
  }

  lemma SameKeys(a: seq<Candidate>, b: seq<Candidate>, hash: string -> string)
    requires SameSites(a, b)
    ensures Keys(Inventory(a, hash), EntryKey) == Keys(Inventory(b, hash), EntryKey)
  {
    KeysListed(a, hash);
    KeysListed(b, hash);
    hide Inventory, SameSites, Owned;
    var ka, kb := Keys(Inventory(a, hash), EntryKey), Keys(Inventory(b, hash), EntryKey);
    forall k ensures k in ka <==> k in kb {
      if o :| OwnerKey(o) == k && (Owned(a, o) || Owned(b, o)) {
        SameSitesSameOwners(a, b, o);
      }
    }
    AscendingUnique(ka, kb);
  }

  /** The keys of the inventory are those of the strings found, in order. */
  lemma {:induction false} KeysListed(cs: seq<Candidate>, hash: string -> string)
    ensures var keys := Keys(Inventory(cs, hash), EntryKey);
      Ascending(keys) && (forall k :: k in keys <==> exists o :: OwnerKey(o) == k && Owned(cs, o))
  {
    hide Inventory, Owned, EntryFor, Gathered;
    EntriesListed(cs, hash);
    var r := Inventory(cs, hash);
    var keys := Keys(r, EntryKey);
    forall k ensures k in keys <==> exists o :: OwnerKey(o) == k && Owned(cs, o) {
      if k in keys {
        var i :| 0 <= i < |keys| && keys[i] == k;
        assert r[i] in r;
        assert OwnerKey(r[i].owner) == k;
      }
      if o :| OwnerKey(o) == k && Owned(cs, o) {
        var e := EntryFor(Gathered(cs), hash, o);
        EntryOwner(Gathered(cs), hash, o);
        assert e in r;
        var i :| 0 <= i < |r| && r[i] == e;
        assert keys[i] == k;
      }
    }
  }

  lemma EntryOwner(t: Tables, hash: string -> string, o: Owner)
    ensures EntryFor(t, hash, o).owner == o
  {
  }

  /** Shuffling or repeating candidates changes nothing but, possibly, contexts. */
  lemma InventoryIsCanonical(a: seq<Candidate>, b: seq<Candidate>, hash: string -> string)
    requires SameSites(a, b) && Collisionless(a) && Collisionless(b)
    ensures VisibleAll(Inventory(a, hash)) == VisibleAll(Inventory(b, hash))
  {
    SameKeys(a, b, hash);
    hide Inventory, SameSites, Collisionless, Owned, EntryFor, Gathered;
    var x, y := Inventory(a, hash), Inventory(b, hash);
    assert |x| == |Keys(x, EntryKey)| == |Keys(y, EntryKey)| == |y|;
    EntriesListed(a, hash);
    EntriesListed(b, hash);
    forall i | 0 <= i < |x| ensures Visible(x[i]) == Visible(y[i]) {
      assert Keys(x, EntryKey)[i] == Keys(y, EntryKey)[i];
      assert x[i] in x && y[i] in y;
      IdentityInjective(x[i].owner, y[i].owner);
      SameEntry(a, b, hash, x[i].owner);
    }
  }

  /** Every site is listed exactly when no two sites of one string share a key. */
  lemma {:induction false} AllSitesListedIff(cs: seq<Candidate>, hash: string -> string)
    ensures (forall c :: c in cs ==> SiteOf(c) in EntryFor(Gathered(cs), hash, OwnerOf(c)).sites) <==> Collisionless(cs)
  {
    hide EntryFor, Gathered;
    if Collisionless(cs) {
      forall c | c in cs ensures SiteOf(c) in EntryFor(Gathered(cs), hash, OwnerOf(c)).sites {
        assert Sited(cs, OwnerOf(c), SiteOf(c));
        SitesAreCandidates(cs, hash, OwnerOf(c), SiteOf(c));
      }
    } else {
      var a, b :| a in cs && b in cs && Collide(a, b);
      SitesListed(cs, hash, OwnerOf(a));
    }
  }

  /** The context comes from the last candidate at the first site. */
  lemma ContextOfEntry(cs: seq<Candidate>, hash: string -> string, o: Owner)
    requires Owned(cs, o)
    ensures var e := EntryFor(Gathered(cs), hash, o);
      && e.sites != []
      && var c := Last(cs, Identity(o), SiteKey(e.sites[0]));
      c.Some? && e.context == c.value.context
  {
    var identity := Identity(o);
    var m := SitesAt(Gathered(cs), identity);
    var c :| c in cs && OwnerOf(c) == o;
    GatheredSites(cs, identity);
    assert At(c, identity, SiteKey(SiteOf(c)));
    var i := FoundAt(m, SiteKey(SiteOf(c)));
    SameElements(Values(m), SiteOf, Values(m)[i]);
    var sorted := SortedSites(Gathered(cs), identity);
    assert sorted[0] in sorted;
    SameElements(Values(m), SiteOf, sorted[0]);
    var k :| 0 <= k < |m| && Values(m)[k] == sorted[0];
    FindAt(m, k);
  }

  // ---- Only then ------------------------------------------------------------------------------

  lemma LastSiteIsListed(cs: seq<Candidate>, c: Candidate, hash: string -> string)
    ensures SiteOf(c) in EntryFor(Gathered(cs + [c]), hash, OwnerOf(c)).sites
  {
    hide EntryFor, Gathered;
    SitesListed(cs + [c], hash, OwnerOf(c));
  }

  lemma {:induction false} SameVisibleSameEntry(a: seq<Candidate>, b: seq<Candidate>, hash: string -> string, o: Owner)
    requires VisibleAll(Inventory(a, hash)) == VisibleAll(Inventory(b, hash)) && Owned(a, o)
    ensures EntryFor(Gathered(a), hash, o).sites == EntryFor(Gathered(b), hash, o).sites
  {
    hide Inventory, Owned, EntryFor, Gathered;
    EntriesListed(a, hash);
    EntriesListed(b, hash);
    EntryOwner(Gathered(a), hash, o);
    var x, y := Inventory(a, hash), Inventory(b, hash);
    var i :| 0 <= i < |x| && x[i] == EntryFor(Gathered(a), hash, o);
    assert VisibleAll(x)[i] == VisibleAll(y)[i];
    assert |VisibleAll(x)| == |VisibleAll(y)| && y[i] in y;
  }

  /** Two colliding candidates cannot both come last and leave the inventory the same. */
  lemma {:induction false} OrderShows(a: seq<Candidate>, x: Candidate, b: seq<Candidate>, y: Candidate, hash: string -> string)
    requires Collide(x, y)
    ensures VisibleAll(Inventory(a + [x], hash)) != VisibleAll(Inventory(b + [y], hash))
  {
    hide Inventory, EntryFor, Gathered;
    var p, q := a + [x], b + [y];
    if VisibleAll(Inventory(p, hash)) == VisibleAll(Inventory(q, hash)) {
      assert x in p && Owned(p, OwnerOf(x));
      LastSiteIsListed(a, x, hash);
      LastSiteIsListed(b, y, hash);
      SameVisibleSameEntry(p, q, hash, OwnerOf(x));
      SitesListed(p, hash, OwnerOf(x));
      assert false;
    }
  }

  lemma MoveLast(cs: seq<Candidate>, c: Candidate) returns (others: seq<Candidate>)
    requires c in cs
    ensures multiset(others + [c]) == multiset(cs)
  {
    var i :| 0 <= i < |cs| && cs[i] == c;
    others := cs[..i] + cs[i + 1..];
    assert cs == cs[..i] + [c] + cs[i + 1..];
  }

  lemma ShuffledSites(a: seq<Candidate>, b: seq<Candidate>)
    requires multiset(a) == multiset(b)
    ensures SameSites(a, b) && (Collisionless(a) <==> Collisionless(b))
  {
    assert forall c :: c in a <==> c in multiset(a);
    assert forall c :: c in b <==> c in multiset(b);
    assert forall c :: c in a <==> c in b;
  }

  ghost predicate Canonical(cs: seq<Candidate>, hash: string -> string) {
    forall other :: multiset(other) == multiset(cs) ==> VisibleAll(Inventory(other, hash)) == VisibleAll(Inventory(cs, hash))
  }

  /** The order of the candidates never shows, apart from contexts, exactly when no two sites collide. */
  lemma CanonicalIff(cs: seq<Candidate>, hash: string -> string)
    ensures Canonical(cs, hash) <==> Collisionless(cs)
  {
    hide Inventory, SameSites;
    if Collisionless(cs) {
      forall other | multiset(other) == multiset(cs)
        ensures VisibleAll(Inventory(other, hash)) == VisibleAll(Inventory(cs, hash))
      {
        ShuffledSites(other, cs);
        InventoryIsCanonical(other, cs, hash);
      }
    } else {
      var x, y :| x in cs && y in cs && Collide(x, y);
      var a := MoveLast(cs, x);
      var b := MoveLast(cs, y);
      OrderShows(a, x, b, y, hash);
    }
  }

  /** With a NUL in a path one site hides another, and the order decides which. */
  lemma NulPathsHideSites(hash: string -> string)
    ensures var a := Candidate(Apple, "Hi", "x", ['y', '\0', 'z'], None);
      var b := Candidate(Apple, "Hi", ['x', '\0', 'y'], "z", None);
      VisibleAll(Inventory([b, a], hash)) != VisibleAll(Inventory([a, b], hash))
  {
    var a := Candidate(Apple, "Hi", "x", ['y', '\0', 'z'], None);
    var b := Candidate(Apple, "Hi", ['x', '\0', 'y'], "z", None);
    assert SiteKey(SiteOf(a)) == SiteKey(SiteOf(b));
    assert |a.path| != |b.path|;
    hide Inventory;
    OrderShows([b], a, [a], b, hash);
    assert [b] + [a] == [b, a] && [a] + [b] == [a, b];
  }

  // ---- The inventory read off the candidates ----------------------------------------------------

  function NameOf(surface: Surface): string {
    match surface
    case Apple => "apple"
    case Android => "android"
  }

  predicate SameString(c: Candidate, e: Entry) {
    c.surface == e.owner.surface && c.source == e.owner.source
  }

  /** The entry is named after its string, and its sites are paths and kinds of candidates with that string. */
  predicate Describes(cs: seq<Candidate>, hash: string -> string, e: Entry) {
    && e.id == "native." + NameOf(e.owner.surface) + "." + hash(NameOf(e.owner.surface) + " " + e.owner.source)
    && (exists c :: c in cs && SameString(c, e))
    && forall s :: s in e.sites ==> exists c :: c in cs && SameString(c, e) && c.path == s.major && c.kind == s.minor
  }

  /** Paths joined to kinds by a NUL tell the sites of one string apart. */
  predicate ApartBySite(cs: seq<Candidate>) {
    forall a, b :: a in cs && b in cs && a.surface == b.surface && a.source == b.source ==>
      a.path + "\0" + a.kind == b.path + "\0" + b.kind ==> a.path == b.path && a.kind == b.kind
  }

  /** Some entry is about the candidate's string, and lists its site where sites can be told apart. */
  predicate Described(cs: seq<Candidate>, hash: string -> string, c: Candidate) {
    exists e :: e in Inventory(cs, hash) && SameString(c, e) && (ApartBySite(cs) ==> Pair(c.path, c.kind) in e.sites)
  }

  /** Every entry describes candidates and every string found has one entry, with all its sites where they can be
      told apart. */
  lemma {:induction false} InventoryDescribes(cs: seq<Candidate>, hash: string -> string)
    ensures forall e :: e in Inventory(cs, hash) ==> Describes(cs, hash, e)
    ensures forall c :: c in cs ==> Described(cs, hash, c)
    ensures var r := Inventory(cs, hash);
      forall i, j :: 0 <= i < |r| && 0 <= j < |r| && r[i].owner == r[j].owner ==> i == j
  {
    EntriesListed(cs, hash);
    var r := Inventory(cs, hash);
    forall e | e in r ensures Describes(cs, hash, e) {
      EntryDescribes(cs, hash, e);
    }
    forall c | c in cs ensures Described(cs, hash, c) {
      CandidateDescribed(cs, hash, c);
    }
    hide Inventory, Describes, Described, PairLess;
    forall i, j | 0 <= i < |r| && 0 <= j < |r| && r[i].owner == r[j].owner ensures i == j {
      assert Keys(r, EntryKey)[i] == Keys(r, EntryKey)[j];
      PairTotal(Keys(r, EntryKey)[i], Keys(r, EntryKey)[j]);
    }
  }

  lemma {:induction false} EntryDescribes(cs: seq<Candidate>, hash: string -> string, e: Entry)
    requires e in Inventory(cs, hash)
    ensures Describes(cs, hash, e)
  {
    EntriesListed(cs, hash);
    EntryNamed(Gathered(cs), hash, e.owner);
    hide Inventory, EntryFor, Gathered;
    var c :| c in cs && OwnerOf(c) == e.owner;
    assert SameString(c, e);
    forall s | s in e.sites ensures exists c :: c in cs && SameString(c, e) && c.path == s.major && c.kind == s.minor {
      SitesAreCandidates(cs, hash, e.owner, s);
      var d :| d in cs && OwnerOf(d) == e.owner && SiteOf(d) == s;
      assert SameString(d, e) && d.path == s.major && d.kind == s.minor;
    }
  }

  lemma EntryNamed(t: Tables, hash: string -> string, o: Owner)
    ensures EntryFor(t, hash, o).id ==
      "native." + NameOf(o.surface) + "." + hash(NameOf(o.surface) + " " + o.source)
  {
    hide SortedSites;
  }

  lemma {:induction false} CandidateDescribed(cs: seq<Candidate>, hash: string -> string, c: Candidate)
    requires c in cs
    ensures Described(cs, hash, c)
  {
    EntriesListed(cs, hash);
    EntryOwner(Gathered(cs), hash, OwnerOf(c));
    if ApartBySite(cs) {
      ApartIsCollisionless(cs);
      assert Sited(cs, OwnerOf(c), SiteOf(c));
      SitesAreCandidates(cs, hash, OwnerOf(c), SiteOf(c));
    }
    hide Inventory, EntryFor, Gathered;
    assert Owned(cs, OwnerOf(c));
    assert SameString(c, EntryFor(Gathered(cs), hash, OwnerOf(c)));
  }

  lemma ApartIsCollisionless(cs: seq<Candidate>)
    requires ApartBySite(cs)
    ensures Collisionless(cs)
  {
    assert "\0" == ['\0'];
    forall a, b | a in cs && b in cs ensures !Collide(a, b) {
    }
  }
}
