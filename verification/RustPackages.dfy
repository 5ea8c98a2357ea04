/**
 The packages a desktop build reaches through normal dependencies, over all target platforms.
 Source: reachable_rust_packages in desktop/release/build-release-materials.py. Cargo's metadata is the input.
 */
module RustPackages {
  import opened Common
  import Ordering

  type Id = string

  const DESKTOP_PACKAGE := "garive-desktop"

  datatype Package = Package(id: Id, name: string, version: string)

  /** A dependency edge; a kind of None is a normal dependency. */
  datatype Dependency = Dependency(pkg: Id, kinds: seq<Option<string>>)

  datatype Metadata = Metadata(packages: seq<Package>, nodes: map<Id, seq<Dependency>>)

  datatype Error = NoDesktopPackage | MissingKey

  predicate Normal(d: Dependency)
  {
    exists k :: 0 <= k < |d.kinds| && d.kinds[k] == None
  }

  /** `{package["id"]: package}`: the last package of an id wins. */
  function Index(packages: seq<Package>): (m: map<Id, Package>)
    ensures forall x :: x in m ==> m[x].id == x && m[x] in packages
  {
    if packages == [] then map[]
    else Index(packages[..|packages| - 1])[packages[|packages| - 1].id := packages[|packages| - 1]]
  }

  /** The first package with the desktop name. */
  function Root(packages: seq<Package>): (r: Option<Id>)
  {
    if packages == [] then None
    else if packages[0].name == DESKTOP_PACKAGE then Some(packages[0].id) else Root(packages[1..])
  }

  /** The desktop package is the first of its name. */
  ghost predicate FirstDesktop(packages: seq<Package>, k: nat)
  {
    && k < |packages| && packages[k].name == "garive-desktop"
    && forall j :: 0 <= j < k ==> packages[j].name != "garive-desktop"
  }

  /** The root is the id of the first package of the desktop's name, and there is none exactly without such a package. */
  lemma {:induction false} RootIsFirst(packages: seq<Package>)
    ensures if Root(packages).Some? then exists k: nat :: FirstDesktop(packages, k) && packages[k].id == Root(packages).value
            else forall p :: p in packages ==> p.name != "garive-desktop"
    decreases |packages|
  {
    if packages == [] {
    } else if packages[0].name == "garive-desktop" {
      assert FirstDesktop(packages, 0);
    } else {
      RootIsFirst(packages[1..]);
      if Root(packages[1..]).Some? {
        var k: nat :| FirstDesktop(packages[1..], k) && packages[1..][k].id == Root(packages[1..]).value;
        assert forall j :: 0 < j < k + 1 ==> packages[j] == packages[1..][j - 1];
        assert FirstDesktop(packages, k + 1) && packages[k + 1].id == Root(packages).value;
      }
    }
  }

  /** Every package's id is indexed, with the last package of that id. */
  lemma {:induction false} IndexIsLast(packages: seq<Package>, k: nat)
    requires k < |packages|
    ensures packages[k].id in Index(packages)
    ensures (forall j :: k < j < |packages| ==> packages[j].id != packages[k].id) ==> Index(packages)[packages[k].id] == packages[k]
    decreases |packages|
  {
    if k == |packages| - 1 {
    } else {
      IndexIsLast(packages[..|packages| - 1], k);
    }
  }

  // ---- Reachability ----

  ghost predicate Edge(m: Metadata, x: Id, y: Id)
  {
    x in m.nodes && exists d :: d in m.nodes[x] && None in d.kinds && d.pkg == y
  }

  ghost predicate Path(m: Metadata, path: seq<Id>)
  {
    path != [] && forall k :: 0 <= k < |path| - 1 ==> Edge(m, path[k], path[k + 1])
  }

  ghost predicate Reaches(m: Metadata, root: Id, x: Id)
  {
    exists path :: Path(m, path) && path[0] == root && path[|path| - 1] == x
  }

  lemma ReachesSelf(m: Metadata, root: Id)
    ensures Reaches(m, root, root)
  {
    assert Path(m, [root]);
  }

  lemma ReachesNext(m: Metadata, root: Id, x: Id, y: Id)
    requires Reaches(m, root, x) && Edge(m, x, y)
    ensures Reaches(m, root, y)
  {
    var path :| Path(m, path) && path[0] == root && path[|path| - 1] == x;
    assert Path(m, path + [y]);
  }

  ghost predicate Closed(m: Metadata, ids: set<Id>)
  {
    forall x, y :: x in ids && Edge(m, x, y) ==> y in ids
  }

  lemma {:induction false} ClosedHoldsPaths(m: Metadata, ids: set<Id>, path: seq<Id>)
    requires Closed(m, ids) && Path(m, path) && path[0] in ids
    ensures path[|path| - 1] in ids
    decreases |path|
  {
    if |path| == 1 {
    } else {
      assert Edge(m, path[0], path[1]);
      forall k | 0 <= k < |path[1..]| - 1
        ensures Edge(m, path[1..][k], path[1..][k + 1])
      {
        assert Edge(m, path[k + 1], path[k + 2]);
      }
      ClosedHoldsPaths(m, ids, path[1..]);
    }
  }

  /** A known id: both lookups of the loop succeed. */
  predicate Known(m: Metadata, x: Id) { x in Index(m.packages) && x in m.nodes }

  // ---- The worklist ----

  /** What the worklist keeps: it holds reachable ids, and every edge from a seen id leads to a seen or pending one. */
  ghost predicate Progress(m: Metadata, root: Id, seen: set<Id>, pending: seq<Id>)
  {
    && (root in seen || root in pending)
    && (forall x :: x in seen || x in pending ==> Reaches(m, root, x))
    && (forall x :: x in seen ==> Known(m, x))
    && forall x, y :: x in seen && Edge(m, x, y) ==> y in seen || y in pending
  }

  /** Appends the targets of normal dependencies. */
  method PushDependencies(pending: seq<Id>, deps: seq<Dependency>) returns (r: seq<Id>)
    ensures forall y :: y in r <==> y in pending || exists d :: d in deps && Normal(d) && d.pkg == y
  {
    r := pending;
    for k := 0 to |deps|
      invariant forall y :: y in r <==> y in pending || exists d :: d in deps[..k] && Normal(d) && d.pkg == y
    {
      assert deps[..k + 1] == deps[..k] + [deps[k]];
      if exists j :: 0 <= j < |deps[k].kinds| && deps[k].kinds[j] == None {
        assert Normal(deps[k]);
        r := r + [deps[k].pkg];
      }
    }
    assert deps[..|deps|] == deps;
  }

  /** One platform: selects exactly the reachable ids, or fails exactly when one of them is unknown. */
  method ReachableFrom(m: Metadata, root: Id) returns (r: Result<set<Id>, Error>)
    ensures r.Ok? ==> forall x :: x in r.value <==> Reaches(m, root, x)
    ensures r.Ok? <==> forall x :: Reaches(m, root, x) ==> Known(m, x)
    ensures r.Err? ==> r.error == MissingKey
  {
    var index := Index(m.packages);
    var pending, seen := [root], {};
    ReachesSelf(m, root);
    while pending != []
      invariant Progress(m, root, seen, pending)
      decreases m.nodes.Keys - seen, |pending|
    {
      var x := pending[|pending| - 1];
      ghost var before := pending;
      pending := pending[..|pending| - 1];
      assert before == pending + [x];
      if x in seen {
        continue;
      }
      if x !in index || x !in m.nodes {
        assert Reaches(m, root, x);
        return Err(MissingKey);
      }
      seen := seen + {x};
      pending := PushDependencies(pending, m.nodes[x]);
      forall y | Edge(m, x, y)
        ensures Reaches(m, root, y)
      {
        ReachesNext(m, root, x, y);
      }
    }
    forall x | Reaches(m, root, x)
      ensures x in seen
    {
      var path :| Path(m, path) && path[0] == root && path[|path| - 1] == x;
      ClosedHoldsPaths(m, seen, path);
    }
    return Ok(seen);
  }

  /** Whether a platform's desktop package reaches `x`. */
  ghost predicate Selects(m: Metadata, x: Id)
  {
    Root(m.packages).Some? && Reaches(m, Root(m.packages).value, x)
  }

  /** A platform with a desktop package whose reachable ids are all known. */
  ghost predicate Complete(m: Metadata)
  {
    Root(m.packages).Some? && forall x :: Reaches(m, Root(m.packages).value, x) ==> Known(m, x)
  }

  /** What one platform contributes: exactly the packages its desktop package reaches, as its own metadata has them. */
  ghost predicate Contributes(m: Metadata, selected: map<Id, Package>)
  {
    && (forall x :: x in selected <==> Selects(m, x))
    && (forall x :: x in selected ==> x in Index(m.packages) && selected[x] == Index(m.packages)[x])
  }

  method SelectPlatform(m: Metadata) returns (r: Result<map<Id, Package>, Error>)
    ensures r.Ok? <==> Complete(m)
    ensures r.Ok? ==> Contributes(m, r.value)
    ensures r.Err? ==> r.error == if Root(m.packages).None? then NoDesktopPackage else MissingKey
  {
    var root := Root(m.packages);
    if root.None? {
      return Err(NoDesktopPackage);
    }
    var reached := ReachableFrom(m, root.value);
    if reached.Err? {
      return Err(reached.error);
    }
    var index := Index(m.packages);
    return Ok(map x | x in reached.value :: index[x]);
  }

  // ---- All platforms ----

  /** The union of maps, later ones winning. */
  function Merge(each: seq<map<Id, Package>>): (all: map<Id, Package>)
  {
    if each == [] then map[] else Merge(each[..|each| - 1]) + each[|each| - 1]
  }

  /** A merged package is the one of the last map that has its id; an id in any map is merged. */
  lemma {:induction false} MergeIsLatest(each: seq<map<Id, Package>>, k: nat, x: Id)
    requires k < |each| && x in each[k] && forall j :: k < j < |each| ==> x !in each[j]
    ensures x in Merge(each) && Merge(each)[x] == each[k][x]
    decreases |each|
  {
    if k == |each| - 1 {
    } else {
      MergeIsLatest(each[..|each| - 1], k, x);
    }
  }

  /** Nothing is merged that is in no map. */
  lemma {:induction false} MergeIsUnion(each: seq<map<Id, Package>>, x: Id)
    ensures x in Merge(each) <==> exists k :: 0 <= k < |each| && x in each[k]
    decreases |each|
  {
    if each == [] {
    } else {
      var init := each[..|each| - 1];
      MergeIsUnion(init, x);
      if x in Merge(init) {
        var k :| 0 <= k < |init| && x in init[k];
        assert x in each[k];
      }
      if k :| 0 <= k < |each| && x in each[k] {
        assert k < |init| ==> x in init[k];
      }
    }
  }

  ghost predicate AllComplete(platforms: seq<Metadata>) { forall k :: 0 <= k < |platforms| ==> Complete(platforms[k]) }

  ghost predicate Pairwise<A(!new), B(!new)>(p: (A, B) -> bool, xs: seq<A>, ys: seq<B>)
  {
    |xs| == |ys| && forall k :: 0 <= k < |xs| ==> p(xs[k], ys[k])
  }

  lemma PairwiseStep<A(!new), B(!new)>(p: (A, B) -> bool, xs: seq<A>, n: nat, ys: seq<B>, y: B)
    requires n < |xs| && Pairwise(p, xs[..n], ys) && p(xs[n], y)
    ensures Pairwise(p, xs[..n + 1], ys + [y])
  {
    assert xs[..n + 1] == xs[..n] + [xs[n]];
  }

  // ---- The list of packages ----

  function SortKey(p: Package): (k: (string, string, string)) { (p.name, p.version, p.id) }

  /** Every package is filed under its own id. */
  predicate FiledById(selected: map<Id, Package>) { forall x :: x in selected ==> selected[x].id == x }

  lemma {:induction false} MergeFiled(platforms: seq<Metadata>, each: seq<map<Id, Package>>)
    requires Pairwise(Contributes, platforms, each)
    ensures FiledById(Merge(each))
    decreases |each|
  {
    if each == [] {
    } else {
      var n := |each| - 1;
      MergeFiled(platforms[..n], each[..n]);
      assert Contributes(platforms[n], each[n]);
    }
  }

  ghost predicate SortedList(packages: seq<Package>)
  {
    forall j, k :: 0 <= j < k < |packages| ==>
                     Ordering.TripleAtMost(SortKey(packages[j]), SortKey(packages[k])) && SortKey(packages[j]) != SortKey(packages[k])
  }

  /** The selected packages ordered by name, version and id. */
  method ListPackages(selected: map<Id, Package>) returns (packages: seq<Package>)
    requires FiledById(selected)
    ensures SortedList(packages) && forall p: Package :: p in packages <==> p.id in selected && selected[p.id] == p
  {
    Ordering.TripleOrder();
    var keys := set x | x in selected :: SortKey(selected[x]);
    var order := Ordering.Sorted(Ordering.TripleAtMost, keys);
    packages := [];
    for n := 0 to |order|
      invariant |packages| == n
      invariant forall j :: 0 <= j < n ==> packages[j].id in selected && selected[packages[j].id] == packages[j] && SortKey(packages[j]) == order[j]
    {
      assert order[n] in keys;
      packages := packages + [selected[order[n].2]];
    }
    forall p: Package | p.id in selected && selected[p.id] == p ensures p in packages {
      assert SortKey(p) in keys && SortKey(p) in order;
      var j :| 0 <= j < |order| && order[j] == SortKey(p);
      assert packages[j] == p;
    }
  }

  ghost predicate Lists(packages: seq<Package>, x: Id) { exists p :: p in packages && p.id == x }

  ghost predicate SelectedSomewhere(platforms: seq<Metadata>, x: Id) { exists k :: 0 <= k < |platforms| && Selects(platforms[k], x) }

  /** The first platform that is not complete, and every one before it is. */
  ghost predicate FirstIncomplete(platforms: seq<Metadata>, n: nat)
  {
    n < |platforms| && AllComplete(platforms[..n]) && !Complete(platforms[n])
  }

  lemma MergeSelects(platforms: seq<Metadata>, each: seq<map<Id, Package>>, x: Id)
    requires Pairwise(Contributes, platforms, each)
    ensures x in Merge(each) <==> SelectedSomewhere(platforms, x)
  {
    MergeIsUnion(each, x);
    if x in Merge(each) {
      var k :| 0 <= k < |each| && x in each[k];
      assert Contributes(platforms[k], each[k]);
    }
    if k :| 0 <= k < |platforms| && Selects(platforms[k], x) {
      assert Contributes(platforms[k], each[k]);
    }
  }

  /** Platform `k` is the last whose desktop package reaches this package's id, and its metadata has exactly this package. */
  ghost predicate LatestHas(platforms: seq<Metadata>, k: nat, p: Package)
  {
    && k < |platforms| && Selects(platforms[k], p.id) && (forall j :: k < j < |platforms| ==> !Selects(platforms[j], p.id))
    && p.id in Index(platforms[k].packages) && Index(platforms[k].packages)[p.id] == p
  }

  lemma {:induction false} LastWith(each: seq<map<Id, Package>>, n: nat, x: Id) returns (k: nat)
    requires n <= |each| && exists j :: 0 <= j < n && x in each[j]
    ensures k < n && x in each[k] && forall j :: k < j < n ==> x !in each[j]
  {
    if x in each[n - 1] {
      k := n - 1;
    } else {
      k := LastWith(each, n - 1, x);
    }
  }

  /** The merged package of an id is the one the last platform that selects it has. */
  lemma MergeHasLatest(platforms: seq<Metadata>, each: seq<map<Id, Package>>, p: Package)
    requires Pairwise(Contributes, platforms, each)
    ensures p.id in Merge(each) && Merge(each)[p.id] == p <==> exists k: nat :: LatestHas(platforms, k, p)
  {
    assert forall k :: 0 <= k < |each| ==> Contributes(platforms[k], each[k]);
    if p.id in Merge(each) {
      MergeIsUnion(each, p.id);
      var k := LastWith(each, |each|, p.id);
      MergeIsLatest(each, k, p.id);
      assert Merge(each)[p.id] == p ==> LatestHas(platforms, k, p);
    }
    if k: nat :| LatestHas(platforms, k, p) {
      MergeIsLatest(each, k, p.id);
    }
  }

  /** What the platforms contribute one after the other, or the first platform's error. */
  method SelectAll(platforms: seq<Metadata>) returns (r: Result<map<Id, Package>, Error>, ghost each: seq<map<Id, Package>>)
    ensures r.Ok? <==> AllComplete(platforms)
    ensures r.Ok? ==> Pairwise(Contributes, platforms, each) && r.value == Merge(each)
    ensures r.Err? ==> exists n: nat :: FirstIncomplete(platforms, n)
                                       && r.error == if Root(platforms[n].packages).None? then NoDesktopPackage else MissingKey
  {
    var selected: map<Id, Package> := map[];
    each := [];
    for n := 0 to |platforms|
      invariant AllComplete(platforms[..n]) && Pairwise(Contributes, platforms[..n], each)
      invariant selected == Merge(each)
    {
      var more := SelectPlatform(platforms[n]);
      if more.Err? {
        assert FirstIncomplete(platforms, n);
        return Err(more.error), each;
      }
      selected := selected + more.value;
      PairwiseStep(Contributes, platforms, n, each, more.value);
      assert platforms[..n + 1] == platforms[..n] + [platforms[n]];
      assert (each + [more.value])[..n] == each;
      each := each + [more.value];
    }
    assert platforms[..|platforms|] == platforms;
    return Ok(selected), each;
  }

  /**
   All platforms: exactly the packages some platform's desktop package reaches, each as the last such platform has it, sorted; or
   the first incomplete platform's error.
   */
  method ReachableRustPackages(platforms: seq<Metadata>) returns (r: Result<seq<Package>, Error>)
    ensures r.Ok? <==> AllComplete(platforms)
    ensures r.Ok? ==> SortedList(r.value) && forall x :: Lists(r.value, x) <==> SelectedSomewhere(platforms, x)
    ensures r.Ok? ==> forall p: Package :: p in r.value <==> exists k: nat :: LatestHas(platforms, k, p)
    ensures r.Err? ==> exists n: nat :: FirstIncomplete(platforms, n)
                                       && r.error == if Root(platforms[n].packages).None? then NoDesktopPackage else MissingKey
  {
    var selected;
    ghost var each;
    selected, each := SelectAll(platforms);
    if selected.Err? {
      return Err(selected.error);
    }
    MergeFiled(platforms, each);
    var packages := ListPackages(selected.value);
    forall x ensures Lists(packages, x) <==> SelectedSomewhere(platforms, x) {
      MergeSelects(platforms, each, x);
      assert x in selected.value ==> selected.value[x] in packages;
    }
    forall p: Package ensures p in packages <==> exists k: nat :: LatestHas(platforms, k, p) {
      MergeHasLatest(platforms, each, p);
    }
    return Ok(packages);
  }
}
