/** Services in topological layers, and the `up` and `down` loops over them. */
module Topo {
  import opened Prelude

  /** Each configured service and what it depends on. */
  type Graph = map<string, set<string>>

  function Deps(g: Graph, n: string): set<string> { if n in g then g[n] else {} }

  /** Configured services, and services only named as a dependency. */
  function Nodes(g: Graph): set<string> { g.Keys + set n, d | n in g && d in g[n] :: d }

  // ---------- cycles ----------

  predicate Stalled(g: Graph, s: set<string>) { s != {} && forall n :: n in s ==> Deps(g, n) * s != {} }

  ghost predicate Cyclic(g: Graph) { exists s: set<string> :: Stalled(g, s) }

  /** Each next service is a dependency of the one before it. */
  predicate Chain(g: Graph, c: seq<string>) {
    c != [] && forall i :: 0 <= i < |c| - 1 ==> c[i + 1] in Deps(g, c[i])
  }

  /** A chain that comes back to where it began. */
  predicate Cycle(g: Graph, c: seq<string>) { Chain(g, c) && |c| > 1 && c[0] == c[|c| - 1] }

  lemma CycleStalls(g: Graph, c: seq<string>)
    requires Cycle(g, c)
    ensures Cyclic(g)
  {
    var s := set i | 0 <= i < |c| :: c[i];
    assert c[0] in s;
    forall n | n in s ensures Deps(g, n) * s != {} {
      var i :| 0 <= i < |c| && c[i] == n;
      var j := if i == |c| - 1 then 0 else i;
      assert c[j + 1] in Deps(g, n) * s;
    }
    assert Stalled(g, s);
  }

  lemma DepInside(g: Graph, s: set<string>, n: string) returns (d: string)
    requires Stalled(g, s) && n in s
    ensures d in Deps(g, n) && d in s
  {
    d :| d in Deps(g, n) * s;
  }

  lemma {:induction false} WalkInside(g: Graph, s: set<string>, k: nat) returns (c: seq<string>)
    requires Stalled(g, s)
    ensures |c| == k + 1 && Chain(g, c) && forall i :: 0 <= i < |c| ==> c[i] in s
  {
    if k == 0 {
      var n :| n in s;
      c := [n];
    } else {
      c := WalkInside(g, s, k - 1);
      var d := DepInside(g, s, c[k - 1]);
      c := c + [d];
    }
  }

  /** A sequence longer than the set it is drawn from repeats itself. */
  lemma {:induction false} Repeats(c: seq<string>, s: set<string>) returns (i: nat, j: nat)
    requires |c| > |s| && forall k :: 0 <= k < |c| ==> c[k] in s
    ensures i < j < |c| && c[i] == c[j]
    decreases |c|
  {
    var last := c[|c| - 1];
    if k :| 0 <= k < |c| - 1 && c[k] == last {
      return k, |c| - 1;
    }
    i, j := Repeats(c[..|c| - 1], s - {last});
  }

  lemma StallHasCycle(g: Graph, s: set<string>) returns (c: seq<string>)
    requires Stalled(g, s)
    ensures Cycle(g, c)
  {
    hide Deps, Stalled;
    var walk := WalkInside(g, s, |s|);
    var i, j := Repeats(walk, s);
    c := walk[i..j + 1];
  }

  /** Stalling is having a cycle. */
  lemma CyclicMeansCycle(g: Graph)
    ensures Cyclic(g) <==> exists c :: Cycle(g, c)
  {
    hide Cycle, Stalled;
    if Cyclic(g) {
      var s :| Stalled(g, s);
      var c := StallHasCycle(g, s);
    } else {
      forall c | Cycle(g, c) ensures false { CycleStalls(g, c); }
    }
  }

  // ---------- layers ----------

  function Union(layers: seq<set<string>>): set<string> {
    if layers == [] then {} else Union(layers[..|layers| - 1]) + layers[|layers| - 1]
  }

  /** A layer that can come after `before`, and could not have come any earlier. */
  ghost predicate Next(g: Graph, before: seq<set<string>>, layer: set<string>) {
    && layer != {}
    && layer !! Union(before)
    && (forall n :: n in layer ==> Deps(g, n) <= Union(before))
    && (before != [] ==> forall n :: n in layer ==> Deps(g, n) * before[|before| - 1] != {})
  }

  ghost predicate Layered(g: Graph, layers: seq<set<string>>) {
    forall k :: 0 <= k < |layers| ==> Next(g, layers[..k], layers[k])
  }

  lemma {:induction false} InUnion(layers: seq<set<string>>, n: string)
    ensures n in Union(layers) <==> exists k :: 0 <= k < |layers| && n in layers[k]
  {
    if layers != [] {
      var rest := layers[..|layers| - 1];
      InUnion(rest, n);
      if k :| 0 <= k < |layers| && n in layers[k] { assert k < |rest| ==> n in rest[k]; }
    }
  }

  lemma InPrefix(layers: seq<set<string>>, j: nat, k: nat, n: string)
    requires j < k <= |layers| && n in layers[j]
    ensures n in Union(layers[..k])
  {
    InUnion(layers[..k], n);
    assert layers[..k][j] == layers[j];
  }

  /** Each service is in one layer only. */
  lemma OneLayerEach(g: Graph, layers: seq<set<string>>, j: nat, k: nat, n: string)
    requires Layered(g, layers) && j < |layers| && k < |layers| && n in layers[j] && n in layers[k]
    ensures j == k
  {
    hide Union;
    if j < k {
      assert Next(g, layers[..k], layers[k]);
      InPrefix(layers, j, k, n);
    } else if k < j {
      assert Next(g, layers[..j], layers[j]);
      InPrefix(layers, k, j, n);
    }
  }

  lemma DepIsEarlier(g: Graph, layers: seq<set<string>>, k: nat, n: string, d: string) returns (j: nat)
    requires Layered(g, layers) && k < |layers| && n in layers[k] && d in Deps(g, n)
    ensures j < k && d in layers[j]
  {
    assert Next(g, layers[..k], layers[k]);
    InUnion(layers[..k], d);
    j :| 0 <= j < k && d in layers[..k][j];
  }

  /** No chain of dependencies from layer `k` is longer than `k + 1`. */
  lemma {:induction false} ChainsAreShort(g: Graph, layers: seq<set<string>>, k: nat, c: seq<string>)
    requires Layered(g, layers) && k < |layers| && Chain(g, c) && c[0] in layers[k]
    ensures |c| <= k + 1
    decreases k
  {
    if |c| > 1 {
      assert c[1] in Deps(g, c[0]);
      var j := DepIsEarlier(g, layers, k, c[0], c[1]);
      assert Chain(g, c[1..]);
      ChainsAreShort(g, layers, j, c[1..]);
    }
  }

  /** And one is just that long. */
  lemma {:induction false} LongestChain(g: Graph, layers: seq<set<string>>, k: nat, n: string) returns (c: seq<string>)
    requires Layered(g, layers) && k < |layers| && n in layers[k]
    ensures Chain(g, c) && c[0] == n && |c| == k + 1
    decreases k
  {
    if k == 0 {
      c := [n];
    } else {
      assert Next(g, layers[..k], layers[k]) && layers[..k][k - 1] == layers[k - 1];
      var d :| d in Deps(g, n) * layers[k - 1];
      var rest := LongestChain(g, layers, k - 1, d);
      c := [n] + rest;
      assert forall i :: 0 < i < |c| ==> c[i] == rest[i - 1];
    }
  }

  /** A service's layer is the length of its longest dependency chain. */
  lemma LayerIsDepth(g: Graph, layers: seq<set<string>>, k: nat, n: string)
    requires Layered(g, layers) && k < |layers| && n in layers[k]
    ensures exists c :: Chain(g, c) && c[0] == n && |c| == k + 1
    ensures forall c :: Chain(g, c) && c[0] == n ==> |c| <= k + 1
  {
    var c := LongestChain(g, layers, k, n);
    forall c | Chain(g, c) && c[0] == n ensures |c| <= k + 1 { ChainsAreShort(g, layers, k, c); }
  }

  /** Any order that puts dependencies first. */
  ghost predicate DepsFirst(g: Graph, layers: seq<set<string>>) {
    forall k, n :: 0 <= k < |layers| && n in layers[k] ==> Deps(g, n) <= Union(layers[..k])
  }

  lemma {:induction false} ChainNeedsLayers(g: Graph, layers: seq<set<string>>, k: nat, c: seq<string>)
    requires DepsFirst(g, layers) && k < |layers| && Chain(g, c) && c[0] in layers[k]
    ensures |c| <= k + 1
    decreases k
  {
    if |c| > 1 {
      assert c[1] in Deps(g, c[0]);
      InUnion(layers[..k], c[1]);
      var j :| 0 <= j < k && c[1] in layers[..k][j];
      assert Chain(g, c[1..]);
      ChainNeedsLayers(g, layers, j, c[1..]);
    }
  }

  /** No way of layering the services with dependencies first needs fewer layers. */
  lemma FewestLayers(g: Graph, layers: seq<set<string>>, others: seq<set<string>>)
    requires Layered(g, layers) && DepsFirst(g, others) && Union(layers) <= Union(others)
    ensures |layers| <= |others|
  {
    if layers != [] {
      var k := |layers| - 1;
      assert Next(g, layers[..k], layers[k]);
      var n :| n in layers[k];
      var c := LongestChain(g, layers, k, n);
      InUnion(layers, n);
      InUnion(others, n);
      var j :| 0 <= j < |others| && n in others[j];
      ChainNeedsLayers(g, others, j, c);
    }
  }

  // ---------- said on the services themselves ----------

  /** A configured service, or one that is only named as a dependency. */
  ghost predicate Named(g: Graph, n: string) { n in g || exists m :: m in g && n in g[m] }

  ghost predicate InSome(layers: seq<set<string>>, n: string) { exists k :: 0 <= k < |layers| && n in layers[k] }

  predicate Names(g: Graph, n: string, d: string) { n in g && d in g[n] }

  /** Services each of which names the next one, the last one being the first again. */
  ghost predicate Circle(g: Graph, c: seq<string>) {
    |c| > 1 && c[0] == c[|c| - 1] && forall i :: 0 <= i < |c| - 1 ==> Names(g, c[i], c[i + 1])
  }

  /** Every named service is in one layer, behind everything it names. */
  ghost predicate Sorted(g: Graph, layers: seq<set<string>>) {
    && (forall n :: InSome(layers, n) <==> Named(g, n))
    && (forall j, k :: 0 <= j < k < |layers| ==> layers[j] !! layers[k])
    && (forall k, n, d :: 0 <= k < |layers| && n in layers[k] && n in g && d in g[n] ==> InSome(layers[..k], d))
  }

  lemma CircleIsCycle(g: Graph)
    ensures Cyclic(g) <==> exists c :: Circle(g, c)
  {
    CyclicMeansCycle(g);
    forall c { SameCircle(g, c); }
    hide Cyclic, Cycle, Circle;
  }

  lemma SameCircle(g: Graph, c: seq<string>)
    ensures Cycle(g, c) <==> Circle(g, c)
  {
    forall i | 0 <= i < |c| - 1 ensures c[i + 1] in Deps(g, c[i]) <==> Names(g, c[i], c[i + 1]) {}
    hide Deps, Names;
    if Circle(g, c) {
      forall i | 0 <= i < |c| - 1 ensures c[i + 1] in Deps(g, c[i]) { assert Names(g, c[i], c[i + 1]); }
    }
    if Cycle(g, c) {
      forall i | 0 <= i < |c| - 1 ensures Names(g, c[i], c[i + 1]) { assert c[i + 1] in Deps(g, c[i]); }
    }
  }

  lemma InSomeIsUnion(layers: seq<set<string>>, n: string)
    ensures n in Union(layers) <==> InSome(layers, n)
  {
    InUnion(layers, n);
    hide Union;
  }

  lemma LayersAreSorted(g: Graph, layers: seq<set<string>>)
    requires Layered(g, layers) && Union(layers) == Nodes(g)
    ensures Sorted(g, layers)
  {
    hide Union, InSome;
    forall n ensures InSome(layers, n) <==> Named(g, n) { InSomeIsUnion(layers, n); }
    forall j, k | 0 <= j < k < |layers| ensures layers[j] !! layers[k] {
      forall n | n in layers[j] ensures n !in layers[k] { if n in layers[k] { OneLayerEach(g, layers, j, k, n); } }
    }
    forall k, n, d | 0 <= k < |layers| && n in layers[k] && n in g && d in g[n] ensures InSome(layers[..k], d) {
      assert Next(g, layers[..k], layers[k]);
      InSomeIsUnion(layers[..k], d);
    }
  }

  // ---------- the sorter ----------

  /** Not handed out yet, and all dependencies done. */
  function ReadyNow(g: Graph, out: set<string>, finished: set<string>): set<string> {
    set n | n in Nodes(g) && n !in out && Deps(g, n) <= finished
  }

  /** `graphlib.TopologicalSorter`: which services were handed out, and which of them are done. */
  class Sorter {
    const graph: Graph
    var out: set<string>
    var finished: set<string>

    constructor (graph: Graph)
      ensures this.graph == graph && out == {} && finished == {}
    {
      this.graph := graph;
      out := {};
      finished := {};
    }

    function Ready(): set<string>
      reads this
    {
      ReadyNow(graph, out, finished)
    }

    /** Fails on a cycle: takes away, again and again, what depends on nothing left. */
    method Prepare() returns (ok: bool)
      ensures ok <==> !Cyclic(graph)
    {
      var left := Nodes(graph);
      while exists n :: n in left && Deps(graph, n) * left == {}
        invariant left <= Nodes(graph)
        invariant forall s: set<string> :: Stalled(graph, s) && s <= Nodes(graph) ==> s <= left
        decreases left
      {
        var n :| n in left && Deps(graph, n) * left == {};
        forall s: set<string> | Stalled(graph, s) && s <= Nodes(graph) ensures s <= left - {n} {
          StallStays(graph, s, left, n);
        }
        left := left - {n};
      }
      ok := left == {};
      if ok {
        forall s: set<string> ensures !Stalled(graph, s) { StalledAmongNodes(graph, s); }
      } else {
        assert Stalled(graph, left);
      }
    }

    method GetReady() returns (layer: set<string>)
      modifies this
      ensures layer == old(Ready()) && out == old(out) + layer && finished == old(finished)
    {
      layer := Ready();
      out := out + layer;
    }

    method Done(n: string)
      modifies this
      ensures finished == old(finished) + {n} && out == old(out)
    {
      finished := finished + {n};
    }

    predicate IsActive()
      reads this
    {
      finished != out || Ready() != {}
    }
  }

  lemma StallStays(g: Graph, s: set<string>, left: set<string>, n: string)
    requires Stalled(g, s) && s <= left && Deps(g, n) * left == {}
    ensures s <= left - {n}
  {
    hide Deps;
    assert Deps(g, n) * s <= Deps(g, n) * left;
  }

  lemma StalledAmongNodes(g: Graph, s: set<string>)
    ensures Stalled(g, s) ==> s <= Nodes(g)
  {
  }

  /** What has no layer yet was not ready for the last one. */
  ghost predicate TookAllReady(g: Graph, layers: seq<set<string>>) {
    layers != [] ==> forall n :: n in Nodes(g) && n !in Union(layers) ==> !(Deps(g, n) <= Union(layers[..|layers| - 1]))
  }

  function ReadyAfter(g: Graph, layers: seq<set<string>>): set<string> {
    ReadyNow(g, Union(layers), Union(layers))
  }

  lemma NextIsReady(g: Graph, layers: seq<set<string>>, layer: set<string>)
    requires layer != {} && layer == ReadyAfter(g, layers) && TookAllReady(g, layers)
    ensures Next(g, layers, layer) && TookAllReady(g, layers + [layer])
    ensures Union(layers + [layer]) == Union(layers) + layer
  {
    hide Nodes, Deps;
    var more := layers + [layer];
    assert more[..|layers|] == layers;
    if layers != [] {
      forall n | n in layer ensures Deps(g, n) * layers[|layers| - 1] != {} {
        var d :| d in Deps(g, n) && d !in Union(layers[..|layers| - 1]);
        assert d in Union(layers);
        assert d in Deps(g, n) * layers[|layers| - 1];
      }
    }
  }

  lemma NothingLayered(g: Graph)
    ensures Union([]) == {} && Layered(g, []) && TookAllReady(g, [])
  {
  }

  lemma LeftoverStalls(g: Graph, layers: seq<set<string>>)
    requires ReadyAfter(g, layers) == {} && Union(layers) <= Nodes(g) && !Cyclic(g)
    ensures Union(layers) == Nodes(g)
  {
    var rest := Nodes(g) - Union(layers);
    forall n | n in rest ensures Deps(g, n) * rest != {} {
      assert n !in ReadyAfter(g, layers);
      var d :| d in Deps(g, n) && d !in Union(layers);
      assert d in Deps(g, n) * rest;
    }
    assert !Stalled(g, rest);
    assert rest == {};
    assert forall n :: n in Nodes(g) ==> n !in rest;
  }

  /** `topo_sort`: fails on a cycle, and otherwise puts every service in the earliest layer it can be in. */
  method TopoSort(g: Graph) returns (r: Result<seq<set<string>>, string>)
    ensures r.Ok? <==> !Cyclic(g)
    ensures r.Ok? ==> Layered(g, r.value) && Union(r.value) == Nodes(g)
    ensures r.Err? <==> exists c :: Circle(g, c)
    ensures r.Ok? ==> Sorted(g, r.value)
  {
    CircleIsCycle(g);
    hide Circle, Sorted, Union, Nodes, Deps, Cyclic, Layered, TookAllReady, Next;
    NothingLayered(g);
    var sorter := new Sorter(g);
    var ok := sorter.Prepare();
    if !ok { return Err("cycle"); }
    var layers: seq<set<string>> := [];
    while sorter.IsActive()
      invariant sorter.graph == g && sorter.out == sorter.finished == Union(layers) <= Nodes(g)
      invariant Layered(g, layers)
      invariant TookAllReady(g, layers)
      decreases Nodes(g) - sorter.finished
    {
      ghost var before := sorter.finished;
      var layer := sorter.GetReady();
      if layer == {} { break; }
      var todo := layer;
      while todo != {}
        invariant todo <= layer && sorter.finished == before + (layer - todo)
        invariant sorter.graph == g && sorter.out == before + layer
        decreases todo
      {
        var name :| name in todo;
        sorter.Done(name);
        todo := todo - {name};
      }
      NextIsReady(g, layers, layer);
      Extends(g, layers, layer);
      layers := layers + [layer];
    }
    assert ReadyAfter(g, layers) == {};
    LeftoverStalls(g, layers);
    LayersAreSorted(g, layers);
    return Ok(layers);
  }

  lemma Extends(g: Graph, layers: seq<set<string>>, layer: set<string>)
    requires Layered(g, layers) && Next(g, layers, layer)
    ensures Layered(g, layers + [layer])
  {
    hide Next;
    var more := layers + [layer];
    forall k | 0 <= k < |more| ensures Next(g, more[..k], more[k]) {
      assert more[..k] == layers[..k];
      assert k == |layers| ==> layers[..k] == layers;
    }
  }
}
