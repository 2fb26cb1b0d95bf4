/**
  Module preloading of the control UI: the static import graph of a chunk, and the list of modules worth
  fetching ahead of a lazy import.
*/
module ModulePreload {
  import opened Options
  import opened OrderedSets

  type Graph = map<string, seq<string>>

  function Imports(g: Graph, m: string): seq<string> {
    if m in g then g[m] else []
  }

  /** Every module that something imports. */
  function Imported(g: Graph): set<string> {
    set k, m | k in g && m in g[k] :: m
  }

  ghost predicate Known(g: Graph, ms: seq<string>) {
    forall m :: m in ms ==> m in Imported(g)
  }

  lemma ImportsKnown(g: Graph, m: string)
    ensures Known(g, Imports(g, m))
  {
  }

  // ---- Reachability ---------------------------------------------------------------------------

  /** `to` is reached from `start` by exactly `n + 1` static imports. */
  ghost predicate ReachesIn(g: Graph, start: string, to: string, n: nat)
    decreases n
  {
    start in g
    && if n == 0 then to in g[start] else exists mid :: mid in g[start] && ReachesIn(g, mid, to, n - 1)
  }

  ghost predicate Reachable(g: Graph, start: string, to: string) {
    exists n: nat :: ReachesIn(g, start, to, n)
  }

  lemma {:induction false} ReachesMore(g: Graph, start: string, mid: string, to: string, n: nat)
    requires ReachesIn(g, start, mid, n) && to in Imports(g, mid)
    ensures ReachesIn(g, start, to, n + 1)
    decreases n
  {
    if n == 0 {
      assert ReachesIn(g, mid, to, 0);
    } else {
      var next :| next in g[start] && ReachesIn(g, next, mid, n - 1);
      ReachesMore(g, next, mid, to, n - 1);
    }
  }

  /** A set that holds a module's imports and is closed under imports holds all it reaches. */
  lemma {:induction false} ClosedHolds(g: Graph, s: seq<string>, start: string, to: string, n: nat)
    requires forall m, d :: m in s && d in Imports(g, m) ==> d in s
    requires (forall d :: d in Imports(g, start) ==> d in s) && ReachesIn(g, start, to, n)
    ensures to in s
    decreases n
  {
    if n > 0 {
      var mid :| mid in g[start] && ReachesIn(g, mid, to, n - 1);
      ClosedHolds(g, s, mid, to, n - 1);
    }
  }

  // ---- The worklist ---------------------------------------------------------------------------

  function Unloaded(g: Graph, loaded: seq<string>): set<string> {
    set m | m in Imported(g) && m !in loaded
  }

  lemma LoadShrinks(g: Graph, loaded: seq<string>, m: string)
    requires m in Imported(g) && m !in loaded
    ensures Unloaded(g, loaded + [m]) < Unloaded(g, loaded)
  {
    assert m in Unloaded(g, loaded);
  }

  /** What is loaded once the queue, which grows by the imports of every new module, is exhausted. */
  function Work(g: Graph, queue: seq<string>, loaded: seq<string>): seq<string>
    requires Known(g, queue) && Known(g, loaded)
    decreases Unloaded(g, loaded), |queue|
  {
    if queue == [] then loaded
    else if queue[0] in loaded then Work(g, queue[1..], loaded)
    else
      ImportsKnown(g, queue[0]);
      LoadShrinks(g, loaded, queue[0]);
      Work(g, queue[1..] + Imports(g, queue[0]), loaded + [queue[0]])
  }

  function StaticImports(g: Graph, entry: string): seq<string> {
    ImportsKnown(g, entry);
    Work(g, Imports(g, entry), [])
  }

  /** `collectStaticImports`: the array is extended while it is walked. */
  method CollectStaticImports(g: Graph, entry: string) returns (loaded: seq<string>)
    ensures loaded == StaticImports(g, entry)
  {
    hide Unloaded, Imported, Imports;
    loaded := [];
    var imports := Imports(g, entry);
    ImportsKnown(g, entry);
    var i := 0;
    while i < |imports|
      invariant 0 <= i <= |imports|
      invariant Known(g, imports) && Known(g, loaded)
      invariant Work(g, imports[i..], loaded) == StaticImports(g, entry)
      decreases Unloaded(g, loaded), |imports| - i
    {
      var dependency := imports[i];
      assert dependency in imports;
      assert imports[i..][1..] == imports[i + 1..];
      if dependency !in loaded {
        ImportsKnown(g, dependency);
        LoadShrinks(g, loaded, dependency);
        loaded := loaded + [dependency];
        assert (imports + Imports(g, dependency))[i + 1..] == imports[i + 1..] + Imports(g, dependency);
        imports := imports + Imports(g, dependency);
      }
      i := i + 1;
    }
  }

  /** The imports of everything loaded are loaded or queued. */
  ghost predicate Pending(g: Graph, queue: seq<string>, loaded: seq<string>) {
    forall m, d :: m in loaded && d in Imports(g, m) ==> d in loaded || d in queue
  }

  lemma {:induction false} WorkIsClosed(g: Graph, queue: seq<string>, loaded: seq<string>)
    requires Known(g, queue) && Known(g, loaded) && Pending(g, queue, loaded) && NoDuplicates(loaded)
    ensures var r := Work(g, queue, loaded);
      && NoDuplicates(r) && Pending(g, [], r)
      && (forall m :: m in queue || m in loaded ==> m in r)
    decreases Unloaded(g, loaded), |queue|
  {
    if queue != [] {
      assert queue == [queue[0]] + queue[1..];
      if queue[0] in loaded {
        WorkIsClosed(g, queue[1..], loaded);
      } else {
        ImportsKnown(g, queue[0]);
        LoadShrinks(g, loaded, queue[0]);
        WorkIsClosed(g, queue[1..] + Imports(g, queue[0]), loaded + [queue[0]]);
      }
    }
  }

  lemma {:induction false} WorkIsReachable(g: Graph, entry: string, queue: seq<string>, loaded: seq<string>)
    requires Known(g, queue) && Known(g, loaded)
    requires forall m :: m in queue || m in loaded ==> Reachable(g, entry, m)
    ensures forall m :: m in Work(g, queue, loaded) ==> Reachable(g, entry, m)
    decreases Unloaded(g, loaded), |queue|
  {
    hide Reachable;
    if queue != [] {
      assert queue == [queue[0]] + queue[1..];
      if queue[0] in loaded {
        WorkIsReachable(g, entry, queue[1..], loaded);
      } else {
        ImportsKnown(g, queue[0]);
        forall d | d in Imports(g, queue[0]) ensures Reachable(g, entry, d) {
          ReachableMore(g, entry, queue[0], d);
        }
        LoadShrinks(g, loaded, queue[0]);
        WorkIsReachable(g, entry, queue[1..] + Imports(g, queue[0]), loaded + [queue[0]]);
      }
    }
  }

  lemma ReachableMore(g: Graph, start: string, mid: string, to: string)
    requires Reachable(g, start, mid) && to in Imports(g, mid)
    ensures Reachable(g, start, to)
  {
    var n: nat :| ReachesIn(g, start, mid, n);
    ReachesMore(g, start, mid, to, n);
  }

  /** Exactly the modules reachable by one or more static imports are collected, each once. */
  lemma CollectsReachable(g: Graph, entry: string)
    ensures NoDuplicates(StaticImports(g, entry))
    ensures forall m :: m in StaticImports(g, entry) <==> Reachable(g, entry, m)
  {
    var r := StaticImports(g, entry);
    ImportsKnown(g, entry);
    WorkIsClosed(g, Imports(g, entry), []);
    forall m | m in Imports(g, entry) ensures Reachable(g, entry, m) {
      assert ReachesIn(g, entry, m, 0);
    }
    WorkIsReachable(g, entry, Imports(g, entry), []);
    forall m | Reachable(g, entry, m) ensures m in r {
      var n: nat :| ReachesIn(g, entry, m, n);
      ClosedHolds(g, r, entry, m, n);
    }
  }

  // ---- The preload list -----------------------------------------------------------------------

  /** What the bundle hook records. */
  datatype Bundle = Bundle(
    staticImports: Graph, styled: set<string>, parallelTargets: set<string>, menu: Option<string>, subview: Option<string>)

  datatype Host = Html | Js(id: string)

  function Without(s: seq<string>, gone: seq<string>, target: string): seq<string> {
    if s == [] then []
    else (if s[0] !in gone && s[0] != target then [s[0]] else []) + Without(s[1..], gone, target)
  }

  predicate HasSubview(b: Bundle, filename: string) {
    b.menu == Some(filename) && b.subview.Some? && b.subview.value != ""
  }

  predicate WaitsForStyles(b: Bundle, filename: string) {
    && filename in b.parallelTargets
    && (filename in b.styled || exists d :: d in StaticImports(b.staticImports, filename) && d in b.styled)
  }

  function Candidates(b: Bundle, filename: string, deps: seq<string>): seq<string> {
    if HasSubview(b, filename)
    then AddAll(Add(Dedupe(deps), b.subview.value), StaticImports(b.staticImports, b.subview.value))
    else Dedupe(deps)
  }

  /** `resolveModulePreloadDependencies`. */
  function Preloads(b: Bundle, filename: string, deps: seq<string>, host: Host): seq<string> {
    if host.Html? then deps
    else
      var loaded := StaticImports(b.staticImports, host.id);
      var dependencies := Without(Candidates(b, filename, deps), loaded, filename);
      if WaitsForStyles(b, filename) && filename !in loaded then [filename] + dependencies else dependencies
  }

  method ResolveModulePreloadDependencies(b: Bundle, filename: string, deps: seq<string>, host: Host)
    returns (r: seq<string>)
    ensures r == Preloads(b, filename, deps, host)
  {
    if host.Html? {
      return deps;
    }
    var loaded := CollectStaticImports(b.staticImports, host.id);
    var own := CollectStaticImports(b.staticImports, filename);
    var waitsForStyles := filename in b.parallelTargets
      && (filename in b.styled || exists d :: d in own && d in b.styled);
    var candidates := Dedupe(deps);
    if b.menu == Some(filename) && b.subview.Some? && b.subview.value != "" {
      candidates := Add(candidates, b.subview.value);
      var more := CollectStaticImports(b.staticImports, b.subview.value);
      ghost var before := candidates;
      var i := 0;
      while i < |more|
        invariant 0 <= i <= |more| && AddAll(candidates, more[i..]) == AddAll(before, more)
      {
        assert more[i..][1..] == more[i + 1..];
        candidates := Add(candidates, more[i]);
        i := i + 1;
      }
    }
    var dependencies := Without(candidates, loaded, filename);
    r := if waitsForStyles && filename !in loaded then [filename] + dependencies else dependencies;
  }

  lemma {:induction false} WithoutEntries(s: seq<string>, gone: seq<string>, target: string)
    requires NoDuplicates(s)
    ensures NoDuplicates(Without(s, gone, target))
    ensures forall x :: x in Without(s, gone, target) <==> x in s && x !in gone && x != target
  {
    if s != [] {
      WithoutEntries(s[1..], gone, target);
      assert s == [s[0]] + s[1..];
    }
  }

  lemma CandidateEntries(b: Bundle, filename: string, deps: seq<string>)
    ensures NoDuplicates(Candidates(b, filename, deps)) && Dedupe(deps) <= Candidates(b, filename, deps)
    ensures forall x :: x in Candidates(b, filename, deps) <==>
      || x in deps
      || (HasSubview(b, filename) && (x == b.subview.value || Reachable(b.staticImports, b.subview.value, x)))
  {
    AddAllEntries([], deps);
    if HasSubview(b, filename) {
      CollectsReachable(b.staticImports, b.subview.value);
      hide StaticImports, Reachable;
      AddAllEntries(Add(Dedupe(deps), b.subview.value), StaticImports(b.staticImports, b.subview.value));
    }
  }

  /** The target is fetched ahead of its own stylesheets: it or something that it imports has styles. */
  ghost predicate Styled(b: Bundle, filename: string) {
    && filename in b.parallelTargets
    && (filename in b.styled || exists d :: d in b.styled && Reachable(b.staticImports, filename, d))
  }

  /** Worth fetching: requested or, for the file with the menu, part of the subview that the menu opens. */
  ghost predicate Wanted(b: Bundle, filename: string, deps: seq<string>, x: string) {
    || x in deps
    || (b.menu.Some? && b.menu.value == filename && b.subview.Some? && b.subview.value != ""
        && (x == b.subview.value || Reachable(b.staticImports, b.subview.value, x)))
  }

  /**
    For a script host the list has no duplicates, holds nothing that the host has loaded, and holds every
    other wanted module except the target, which comes first if and only if it waits for styles.
  */
  lemma PreloadsExactly(b: Bundle, filename: string, deps: seq<string>, hostId: string)
    ensures var r := Preloads(b, filename, deps, Js(hostId));
      && NoDuplicates(r)
      && (forall x :: x in r ==> !Reachable(b.staticImports, hostId, x))
      && (forall x :: x != filename ==>
           (x in r <==> Wanted(b, filename, deps, x) && !Reachable(b.staticImports, hostId, x)))
      && (filename in r <==> Styled(b, filename) && !Reachable(b.staticImports, hostId, filename))
      && (filename in r ==> r[0] == filename)
  {
    var g := b.staticImports;
    CollectsReachable(g, hostId);
    CollectsReachable(g, filename);
    CandidateEntries(b, filename, deps);
    hide StaticImports, Reachable, Candidates;
    WithoutEntries(Candidates(b, filename, deps), StaticImports(g, hostId), filename);
  }

  lemma {:induction false} WithoutAppend(a: seq<string>, b: seq<string>, gone: seq<string>, target: string)
    ensures Without(a + b, gone, target) == Without(a, gone, target) + Without(b, gone, target)
  {
    if a == [] {
      assert a + b == b;
    } else {
      WithoutAppend(a[1..], b, gone, target);
      assert (a + b)[0] == a[0] && (a + b)[1..] == a[1..] + b;
      var head := if a[0] !in gone && a[0] != target then [a[0]] else [];
      var x, y := Without(a[1..], gone, target), Without(b, gone, target);
      assert Without(a + b, gone, target) == head + (x + y);
      assert head + (x + y) == head + x + y;
    }
  }

  /** Requested modules keep their order and come before the deep menu. */
  lemma RequestedComeFirst(b: Bundle, filename: string, deps: seq<string>, hostId: string)
    ensures var r := Preloads(b, filename, deps, Js(hostId));
      var requested := Without(Dedupe(deps), StaticImports(b.staticImports, hostId), filename);
      requested <= r || [filename] + requested <= r
  {
    CandidateEntries(b, filename, deps);
    hide StaticImports, Reachable, Candidates, Dedupe;
    var c, d := Candidates(b, filename, deps), Dedupe(deps);
    assert c == d + c[|d|..];
    WithoutAppend(d, c[|d|..], StaticImports(b.staticImports, hostId), filename);
  }

  // ---- The order of requested modules -----------------------------------------------------------

  lemma {:induction false} AddAllAppend(s: seq<string>, xs: seq<string>, ys: seq<string>)
    ensures AddAll(s, xs + ys) == AddAll(AddAll(s, xs), ys)
    decreases |xs|
  {
    if xs == [] {
      assert xs + ys == ys;
    } else {
      assert (xs + ys)[0] == xs[0] && (xs + ys)[1..] == xs[1..] + ys;
      AddAllAppend(Add(s, xs[0]), xs[1..], ys);
    }
  }

  /** A module that occurs first at `j` is appended to what precedes it, and nothing comes in between later. */
  lemma FirstOccurrence(deps: seq<string>, j: nat)
    requires j < |deps| && deps[j] !in deps[..j]
    ensures Dedupe(deps[..j]) + [deps[j]] <= Dedupe(deps)
    ensures forall x :: x in Dedupe(deps[..j]) <==> x in deps[..j]
  {
    AddAllEntries([], deps[..j]);
    AddAllAppend([], deps[..j], [deps[j]]);
    AddAllAppend([], deps[..j] + [deps[j]], deps[j + 1..]);
    assert deps == deps[..j] + [deps[j]] + deps[j + 1..];
    assert AddAll(Dedupe(deps[..j]), [deps[j]]) == Dedupe(deps[..j]) + [deps[j]];
    AddAllEntries(Dedupe(deps[..j]) + [deps[j]], deps[j + 1..]);
  }

  lemma {:induction false} KeptInFront(first: seq<string>, x: string, all: seq<string>, gone: seq<string>, target: string)
    requires first + [x] <= all && x !in gone && x != target
    ensures Without(first, gone, target) + [x] <= Without(all, gone, target)
  {
    assert all == first + [x] + all[|first| + 1..];
    WithoutAppend(first + [x], all[|first| + 1..], gone, target);
    WithoutAppend(first, [x], gone, target);
    assert [x][1..] == [];
  }

  /** One module is listed before the other. */
  predicate Before(r: seq<string>, x: string, y: string) {
    exists k, l :: 0 <= k < l < |r| && r[k] == x && r[l] == y
  }

  lemma BeforeIn(front: seq<string>, y: string, requested: seq<string>, x: string, r: seq<string>, target: string)
    requires front + [y] <= requested && x in front && (requested <= r || [target] + requested <= r)
    ensures Before(r, x, y)
  {
    var k :| 0 <= k < |front| && front[k] == x;
    assert requested[k] == (front + [y])[k] && requested[|front|] == (front + [y])[|front|];
    if requested <= r {
      assert r[k] == x && r[|front|] == y;
    } else {
      assert r[k + 1] == ([target] + requested)[k + 1] && r[|front| + 1] == ([target] + requested)[|front| + 1];
    }
  }

  /** Of two requested modules that are listed, the one that was requested first comes first. */
  lemma {:induction false} RequestedInOrder(b: Bundle, filename: string, deps: seq<string>, hostId: string, i: nat, j: nat)
    requires i < j < |deps| && deps[j] !in deps[..j] && deps[i] != filename && deps[j] != filename
    requires !Reachable(b.staticImports, hostId, deps[i]) && !Reachable(b.staticImports, hostId, deps[j])
    ensures Before(Preloads(b, filename, deps, Js(hostId)), deps[i], deps[j])
  {
    var loaded := StaticImports(b.staticImports, hostId);
    CollectsReachable(b.staticImports, hostId);
    FirstOccurrence(deps, j);
    RequestedComeFirst(b, filename, deps, hostId);
    AddAllEntries([], deps[..j]);
    hide Preloads, StaticImports, Reachable, Without, AddAll, Before;
    var first := Dedupe(deps[..j]);
    assert deps[i] in deps[..j];
    KeptInFront(first, deps[j], Dedupe(deps), loaded, filename);
    WithoutEntries(first, loaded, filename);
    BeforeIn(Without(first, loaded, filename), deps[j], Without(Dedupe(deps), loaded, filename), deps[i],
             Preloads(b, filename, deps, Js(hostId)), filename);
  }
}
