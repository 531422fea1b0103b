/** The `up` and `down` loops over the topological layers, under any selection of services. */
module TopoRun {
  import opened Prelude
  import opened Topo

  datatype Outcome = Changed | Unchanged | Raised

  predicate Selected(only: Option<set<string>>, n: string) { only.None? || n in only.value }

  function Targets(layer: set<string>, only: Option<set<string>>): set<string> {
    set n | n in layer && Selected(only, n)
  }

  /** The selected part of each of the first `n` layers that has one. */
  function Batches(layers: seq<set<string>>, n: nat, only: Option<set<string>>): seq<set<string>>
    requires n <= |layers|
  {
    if n == 0 then [] else
      var last := Targets(layers[n - 1], only);
      Batches(layers, n - 1, only) + (if last == {} then [] else [last])
  }

  // ---------- order ----------

  /** A batch of services not handled before, all selected services they wait for handled. */
  ghost predicate Due(g: Graph, before: seq<set<string>>, batch: set<string>, only: Option<set<string>>) {
    batch !! Union(before) && forall n :: n in batch ==> Targets(Deps(g, n), only) <= Union(before)
  }

  ghost predicate InOrder(g: Graph, batches: seq<set<string>>, only: Option<set<string>>) {
    forall k :: 0 <= k < |batches| ==> Due(g, batches[..k], batches[k], only)
  }

  lemma OrderGrows(g: Graph, done: seq<set<string>>, batch: set<string>, only: Option<set<string>>)
    requires InOrder(g, done, only) && Due(g, done, batch, only)
    ensures InOrder(g, done + [batch], only)
  {
    hide Due;
    var more := done + [batch];
    forall k | 0 <= k < |more| ensures Due(g, more[..k], more[k], only) {
      assert more[..k] == done[..k];
      assert k == |done| ==> done[..k] == done;
    }
  }

  lemma UnionGrows(layers: seq<set<string>>, layer: set<string>)
    ensures Union(layers + [layer]) == Union(layers) + layer
  {
    assert (layers + [layer])[..|layers|] == layers;
  }

  lemma UnionNext(layers: seq<set<string>>, n: nat)
    requires n < |layers|
    ensures Union(layers[..n + 1]) == Union(layers[..n]) + layers[n]
  {
    assert layers[..n + 1] == layers[..n] + [layers[n]];
    UnionGrows(layers[..n], layers[n]);
  }

  lemma SelectedIsDue(g: Graph, before: seq<set<string>>, layer: set<string>, done: seq<set<string>>, only: Option<set<string>>)
    requires Due(g, before, layer, None) && Union(done) == Targets(Union(before), only)
    ensures Due(g, done, Targets(layer, only), only)
  {
    hide Union, Deps;
    assert forall n :: Targets(Deps(g, n), None) == Deps(g, n);
  }

  lemma DueAt(g: Graph, layers: seq<set<string>>, k: nat, only: Option<set<string>>)
    requires InOrder(g, layers, only) && k < |layers|
    ensures Due(g, layers[..k], layers[k], only)
  {
  }

  lemma NothingYet(g: Graph, layers: seq<set<string>>, only: Option<set<string>>)
    ensures InOrder(g, [], only) && Batches(layers, 0, only) == []
    ensures Union([]) == Targets(Union(layers[..0]), only) == {} && layers[..0] == []
  {
  }

  /** Selecting keeps the order, and keeps the services apart. */
  lemma {:induction false} OrderSurvives(g: Graph, layers: seq<set<string>>, n: nat, only: Option<set<string>>)
    requires InOrder(g, layers, None) && n <= |layers|
    ensures InOrder(g, Batches(layers, n, only), only)
    ensures Union(Batches(layers, n, only)) == Targets(Union(layers[..n]), only)
  {
    hide Union, Due, InOrder;
    if n == 0 {
      NothingYet(g, layers, only);
    } else {
      OrderSurvives(g, layers, n - 1, only);
      var done, targets := Batches(layers, n - 1, only), Targets(layers[n - 1], only);
      DueAt(g, layers, n - 1, None);
      SelectedIsDue(g, layers[..n - 1], layers[n - 1], done, only);
      UnionNext(layers, n - 1);
      OrderGrows(g, done, targets, only);
      UnionGrows(done, targets);
      assert done + [] == done;
      TargetsOfBoth(Union(layers[..n - 1]), layers[n - 1], only);
    }
  }

  lemma TargetsOfBoth(a: set<string>, b: set<string>, only: Option<set<string>>)
    ensures Targets(a + b, only) == Targets(a, only) + Targets(b, only)
  {
  }

  lemma LayersInOrder(g: Graph, layers: seq<set<string>>)
    requires Layered(g, layers)
    ensures InOrder(g, layers, None)
  {
    hide Union, Deps;
    forall k | 0 <= k < |layers| ensures Due(g, layers[..k], layers[k], None) {
      assert Next(g, layers[..k], layers[k]);
      assert forall n :: Targets(Deps(g, n), None) == Deps(g, n);
    }
  }

  /** Who waits for whom when going down: a service for the services that depend on it. */
  function Transposed(g: Graph): Graph { map n | n in Nodes(g) :: set m | m in Nodes(g) && n in Deps(g, m) }

  function Reversed(layers: seq<set<string>>): seq<set<string>> {
    if layers == [] then [] else Reversed(layers[1..]) + [layers[0]]
  }

  lemma {:induction false} ReversedAt(layers: seq<set<string>>)
    ensures |Reversed(layers)| == |layers|
    ensures forall k :: 0 <= k < |layers| ==> Reversed(layers)[k] == layers[|layers| - 1 - k]
  {
    if layers != [] { ReversedAt(layers[1..]); }
  }

  lemma LayerOf(layers: seq<set<string>>, n: string) returns (k: nat)
    requires n in Union(layers)
    ensures k < |layers| && n in layers[k]
  {
    InUnion(layers, n);
    k :| 0 <= k < |layers| && n in layers[k];
  }

  lemma DependentsComeFirst(g: Graph, layers: seq<set<string>>, k: nat, n: string, m: string)
    requires Layered(g, layers) && Union(layers) == Nodes(g)
    requires k < |layers| == |Reversed(layers)| && n in Reversed(layers)[k] && m in Nodes(g) && n in Deps(g, m)
    ensures m in Union(Reversed(layers)[..k])
  {
    ReversedAt(layers);
    hide Reversed, Union, Nodes, Deps, Layered;
    var j := LayerOf(layers, m);
    var i := DepIsEarlier(g, layers, j, m, n);
    OneLayerEach(g, layers, i, |layers| - 1 - k, n);
    InPrefix(Reversed(layers), |layers| - 1 - j, k, m);
  }

  lemma ReversedApart(g: Graph, layers: seq<set<string>>, k: nat, n: string)
    requires Layered(g, layers) && k < |layers| == |Reversed(layers)| && n in Reversed(layers)[k]
    ensures n !in Union(Reversed(layers)[..k])
  {
    ReversedAt(layers);
    hide Reversed, Union, Layered;
    if n in Union(Reversed(layers)[..k]) {
      var i := LayerOf(Reversed(layers)[..k], n);
      OneLayerEach(g, layers, |layers| - 1 - i, |layers| - 1 - k, n);
    }
  }

  lemma {:induction false} ReversedUnion(layers: seq<set<string>>)
    ensures Union(Reversed(layers)) == Union(layers)
  {
    if layers != [] {
      ReversedUnion(layers[1..]);
      UnionGrows(Reversed(layers[1..]), layers[0]);
      hide Union;
      forall n ensures n in Union(layers) <==> n in layers[0] || n in Union(layers[1..]) {
        InUnion(layers, n);
        InUnion(layers[1..], n);
        if k :| 0 <= k < |layers[1..]| && n in layers[1..][k] { assert n in layers[k + 1]; }
        if k :| 0 <= k < |layers| && n in layers[k] { assert k > 0 ==> n in layers[1..][k - 1]; }
      }
    }
  }

  lemma ReversedInOrder(g: Graph, layers: seq<set<string>>)
    requires Layered(g, layers) && Union(layers) == Nodes(g)
    ensures InOrder(Transposed(g), Reversed(layers), None) && Union(Reversed(layers)) == Nodes(g)
  {
    ReversedUnion(layers);
    ReversedAt(layers);
    var back := Reversed(layers);
    hide Reversed, Union, Layered, Nodes;
    assert back[..|layers|] == back;
    forall k | 0 <= k < |back| ensures Due(Transposed(g), back[..k], back[k], None) {
      forall n | n in back[k] ensures n !in Union(back[..k]) { ReversedApart(g, layers, k, n); }
      forall n, m | n in back[k] && m in Deps(Transposed(g), n) ensures m in Union(back[..k]) {
        DependentsComeFirst(g, layers, k, n, m);
      }
    }
  }

  // ---------- said on the services themselves ----------

  ghost predicate Chosen(g: Graph, only: Option<set<string>>, n: string) { Named(g, n) && (only.None? || n in only.value) }

  /** Chosen services only, and each one behind the chosen services it names. */
  ghost predicate Started(g: Graph, batches: seq<set<string>>, only: Option<set<string>>) {
    && (forall n :: InSome(batches, n) ==> Chosen(g, only, n))
    && (forall b, n, d :: 0 <= b < |batches| && n in batches[b] && n in g && d in g[n] && Chosen(g, only, d) ==>
          InSome(batches[..b], d))
  }

  /** Chosen services only, and each one behind the chosen services that name it. */
  ghost predicate Halted(g: Graph, batches: seq<set<string>>, only: Option<set<string>>) {
    && (forall n :: InSome(batches, n) ==> Chosen(g, only, n))
    && (forall b, n, m :: 0 <= b < |batches| && n in batches[b] && m in g && n in g[m] && Chosen(g, only, m) ==>
          InSome(batches[..b], m))
  }

  lemma TargetsAreChosen(g: Graph, only: Option<set<string>>, n: string)
    ensures n in Targets(Nodes(g), only) <==> Chosen(g, only, n)
  {
  }

  lemma InOrderStarts(g: Graph, batches: seq<set<string>>, only: Option<set<string>>)
    requires InOrder(g, batches, only) && Union(batches) <= Targets(Nodes(g), only)
    ensures Started(g, batches, only)
  {
    hide Union, InSome, Nodes, Named;
    forall n | InSome(batches, n) ensures Chosen(g, only, n) {
      InSomeIsUnion(batches, n);
      TargetsAreChosen(g, only, n);
    }
    forall b, n, d | 0 <= b < |batches| && n in batches[b] && n in g && d in g[n] && Chosen(g, only, d)
      ensures InSome(batches[..b], d)
    {
      assert Due(g, batches[..b], batches[b], only);
      InSomeIsUnion(batches[..b], d);
    }
  }

  lemma InOrderHalts(g: Graph, batches: seq<set<string>>, only: Option<set<string>>)
    requires InOrder(Transposed(g), batches, only) && Union(batches) <= Targets(Nodes(g), only)
    ensures Halted(g, batches, only)
  {
    hide Union, InSome;
    forall n | InSome(batches, n) ensures Chosen(g, only, n) {
      InSomeIsUnion(batches, n);
      TargetsAreChosen(g, only, n);
    }
    forall b, n, m | 0 <= b < |batches| && n in batches[b] && m in g && n in g[m] && Chosen(g, only, m)
      ensures InSome(batches[..b], m)
    {
      assert Due(Transposed(g), batches[..b], batches[b], only);
      assert m in Deps(Transposed(g), n);
      InSomeIsUnion(batches[..b], m);
    }
  }

  lemma AllChosen(g: Graph, batches: seq<set<string>>, only: Option<set<string>>)
    requires Union(batches) == Targets(Nodes(g), only)
    ensures forall n :: Chosen(g, only, n) ==> InSome(batches, n)
  {
    hide Union, InSome, Nodes, Named;
    forall n | Chosen(g, only, n) ensures InSome(batches, n) {
      InSomeIsUnion(batches, n);
      TargetsAreChosen(g, only, n);
    }
  }

  // ---------- the program ----------

  /** The batches of services started or stopped together, in order. */
  class Runtime {
    var batches: seq<set<string>>

    constructor ()
      ensures batches == []
    {
      batches := [];
    }

    method Gather(names: set<string>)
      modifies this
      ensures batches == old(batches) + [names]
    {
      batches := batches + [names];
    }
  }

  /** Some service is not configured, or does not start. */
  predicate StartFails(g: Graph, names: set<string>, outcome: string -> Outcome) {
    exists n :: n in names && (n !in g || outcome(n).Raised?)
  }

  predicate SomeChange(names: set<string>, outcome: string -> Outcome) {
    exists n :: n in names && outcome(n).Changed?
  }

  /** The first `n` layers have been started: in order, and nothing but selected services. */
  lemma StartedSoFar(g: Graph, layers: seq<set<string>>, n: nat, only: Option<set<string>>)
    requires Layered(g, layers) && n <= |layers|
    ensures InOrder(g, Batches(layers, n, only), only)
    ensures Union(Batches(layers, n, only)) == Targets(Union(layers[..n]), only)
    ensures Union(layers[..n]) <= Union(layers) && Targets(Union(layers[..n]), only) <= Targets(Union(layers), only)
  {
    LayersInOrder(g, layers);
    OrderSurvives(g, layers, n, only);
    hide Union, Layered, InOrder, Batches;
    forall m | m in Union(layers[..n]) ensures m in Union(layers) {
      var k := LayerOf(layers[..n], m);
      assert layers[k] == layers[..n][k];
      InUnion(layers, m);
    }
  }

  lemma NoneRaised(g: Graph, batches: seq<set<string>>, outcome: string -> Outcome)
    requires !StartFails(g, Union(batches), outcome)
    ensures forall b, n :: 0 <= b < |batches| && n in batches[b] ==> !outcome(n).Raised?
  {
    hide Union;
    forall b, n | 0 <= b < |batches| && n in batches[b] ensures !outcome(n).Raised? { InUnion(batches, n); }
  }

  lemma FailsOrChangesWithMore(g: Graph, a: set<string>, b: set<string>, outcome: string -> Outcome)
    ensures StartFails(g, a + b, outcome) <==> StartFails(g, a, outcome) || StartFails(g, b, outcome)
    ensures SomeChange(a + b, outcome) <==> SomeChange(a, outcome) || SomeChange(b, outcome)
  {
  }

  /** What starting layer `n` adds to having started the layers before it. */
  lemma LayerAdds(g: Graph, layers: seq<set<string>>, n: nat, only: Option<set<string>>, outcome: string -> Outcome)
    requires n < |layers|
    ensures var before, now, targets := Targets(Union(layers[..n]), only), Targets(Union(layers[..n + 1]), only), Targets(layers[n], only);
      && now == before + targets
      && (StartFails(g, now, outcome) <==> StartFails(g, before, outcome) || StartFails(g, targets, outcome))
      && (SomeChange(now, outcome) <==> SomeChange(before, outcome) || SomeChange(targets, outcome))
  {
    hide Union, StartFails, SomeChange, Targets;
    UnionNext(layers, n);
    TargetsOfBoth(Union(layers[..n]), layers[n], only);
    FailsOrChangesWithMore(g, Targets(Union(layers[..n]), only), Targets(layers[n], only), outcome);
  }

  lemma FailsInAll(g: Graph, some: set<string>, all: set<string>, only: Option<set<string>>, outcome: string -> Outcome)
    requires some <= all && StartFails(g, Targets(some, only), outcome)
    ensures StartFails(g, Targets(all, only), outcome)
  {
  }

  /**
   `up`: starts the selected services, dependencies first, and stops at the first batch that
   fails; reports whether any service changed.
   */
  method Up(g: Graph, only: Option<set<string>>, outcome: string -> Outcome, runtime: Runtime)
    returns (changed: Result<bool, string>)
    requires runtime.batches == []
    modifies runtime
    ensures InOrder(g, runtime.batches, only) && Union(runtime.batches) <= Targets(Nodes(g), only)
    ensures forall b, n :: 0 <= b < |runtime.batches| - 1 && n in runtime.batches[b] ==> !outcome(n).Raised?
    ensures changed.Ok? <==> !Cyclic(g) && !StartFails(g, Targets(Nodes(g), only), outcome)
    ensures changed.Ok? ==>
      && Union(runtime.batches) == Targets(Nodes(g), only)
      && changed.value == SomeChange(Targets(Nodes(g), only), outcome)
    ensures Cyclic(g) ==> runtime.batches == []
    ensures Started(g, runtime.batches, only)
    ensures changed.Err? <==>
      (exists c :: Circle(g, c)) || exists n :: Chosen(g, only, n) && (n !in g || outcome(n).Raised?)
    ensures changed.Ok? ==>
      && (forall n :: Chosen(g, only, n) ==> InSome(runtime.batches, n))
      && (changed.value <==> exists n :: Chosen(g, only, n) && outcome(n).Changed?)
  {
    changed := StartLayers(g, only, outcome, runtime);
    InOrderStarts(g, runtime.batches, only);
    CircleIsCycle(g);
    FailsSaid(g, only, outcome);
    if changed.Ok? { AllChosen(g, runtime.batches, only); }
  }

  /** The loop of `up`. */
  method StartLayers(g: Graph, only: Option<set<string>>, outcome: string -> Outcome, runtime: Runtime)
    returns (changed: Result<bool, string>)
    requires runtime.batches == []
    modifies runtime
    ensures InOrder(g, runtime.batches, only) && Union(runtime.batches) <= Targets(Nodes(g), only)
    ensures forall b, n :: 0 <= b < |runtime.batches| - 1 && n in runtime.batches[b] ==> !outcome(n).Raised?
    ensures changed.Ok? <==> !Cyclic(g) && !StartFails(g, Targets(Nodes(g), only), outcome)
    ensures changed.Ok? ==>
      && Union(runtime.batches) == Targets(Nodes(g), only)
      && changed.value == SomeChange(Targets(Nodes(g), only), outcome)
    ensures Cyclic(g) ==> runtime.batches == []
  {
    hide Cyclic, Layered, Nodes, Deps, Union, InOrder, StartFails, SomeChange, Targets, Batches;
    var sorted := TopoSort(g);
    NothingYet(g, [], only);
    if sorted.Err? { return Err(sorted.error); }
    var layers := sorted.value;
    NothingYet(g, layers, only);
    NothingFails(g, outcome);
    changed := Ok(false);
    var i := 0;
    while i < |layers|
      invariant 0 <= i <= |layers| && changed.Ok?
      invariant runtime.batches == Batches(layers, i, only)
      invariant !StartFails(g, Targets(Union(layers[..i]), only), outcome)
      invariant changed.value == SomeChange(Targets(Union(layers[..i]), only), outcome)
    {
      var targets := Targets(layers[i], only);
      StartedSoFar(g, layers, i, only);
      StartedSoFar(g, layers, i + 1, only);
      NoneRaised(g, Batches(layers, i, only), outcome);
      LayerAdds(g, layers, i, only, outcome);
      BatchesNext(layers, i, only);
      if StartFails(g, targets, outcome) { FailsInAll(g, Union(layers[..i + 1]), Nodes(g), only, outcome); }
      if targets != {} {
        if exists n :: n in targets && n !in g {
          FailsBecause(g, targets, outcome);
          return Err("no such service");
        }
        runtime.Gather(targets);
        if exists n :: n in targets && outcome(n).Raised? {
          FailsBecause(g, targets, outcome);
          return Err("a service failed to start");
        }
        if SomeChange(targets, outcome) { changed := Ok(true); }
      }
      FailsBecause(g, targets, outcome);
      i := i + 1;
    }
    assert layers[..i] == layers;
    StartedSoFar(g, layers, i, only);
    NoneRaised(g, Batches(layers, i, only), outcome);
  }

  lemma FailsSaid(g: Graph, only: Option<set<string>>, outcome: string -> Outcome)
    ensures StartFails(g, Targets(Nodes(g), only), outcome) <==>
      exists n :: Chosen(g, only, n) && (n !in g || outcome(n).Raised?)
    ensures SomeChange(Targets(Nodes(g), only), outcome) <==> exists n :: Chosen(g, only, n) && outcome(n).Changed?
  {
    hide Nodes, Named;
    forall n { TargetsAreChosen(g, only, n); }
  }

  lemma NothingFails(g: Graph, outcome: string -> Outcome)
    ensures !StartFails(g, {}, outcome) && !SomeChange({}, outcome)
  {
  }

  lemma FailsBecause(g: Graph, names: set<string>, outcome: string -> Outcome)
    ensures StartFails(g, names, outcome) <==>
      (exists n :: n in names && n !in g) || (exists n :: n in names && outcome(n).Raised?)
    ensures names == {} ==> !SomeChange(names, outcome)
  {
  }

  lemma BatchesNext(layers: seq<set<string>>, n: nat, only: Option<set<string>>)
    requires n < |layers|
    ensures var targets := Targets(layers[n], only);
      Batches(layers, n + 1, only) == if targets == {} then Batches(layers, n, only) else Batches(layers, n, only) + [targets]
  {
    assert Batches(layers, n, only) + [] == Batches(layers, n, only);
  }

  /** `down`: stops the selected services, dependents first. */
  method Down(g: Graph, only: Option<set<string>>, runtime: Runtime) returns (stopped: Result<(), string>)
    requires runtime.batches == []
    modifies runtime
    ensures stopped.Ok? <==> !Cyclic(g)
    ensures InOrder(Transposed(g), runtime.batches, only)
    ensures stopped.Ok? ==> Union(runtime.batches) == Targets(Nodes(g), only)
    ensures stopped.Err? ==> runtime.batches == []
    ensures stopped.Err? <==> exists c :: Circle(g, c)
    ensures Halted(g, runtime.batches, only)
    ensures stopped.Ok? ==> forall n :: Chosen(g, only, n) ==> InSome(runtime.batches, n)
  {
    stopped := StopLayers(g, only, runtime);
    assert runtime.batches == [] ==> Union(runtime.batches) == {};
    InOrderHalts(g, runtime.batches, only);
    CircleIsCycle(g);
    if stopped.Ok? { AllChosen(g, runtime.batches, only); }
  }

  /** The loop of `down`. */
  method StopLayers(g: Graph, only: Option<set<string>>, runtime: Runtime) returns (stopped: Result<(), string>)
    requires runtime.batches == []
    modifies runtime
    ensures stopped.Ok? <==> !Cyclic(g)
    ensures InOrder(Transposed(g), runtime.batches, only)
    ensures stopped.Ok? ==> Union(runtime.batches) == Targets(Nodes(g), only)
    ensures stopped.Err? ==> runtime.batches == []
  {
    assert InOrder(Transposed(g), [], only);
    hide Cyclic, Layered, Nodes, Deps, Union, InOrder, Transposed, Reversed;
    var sorted := TopoSort(g);
    if sorted.Err? { return Err(sorted.error); }
    var layers := Reversed(sorted.value);
    ReversedInOrder(g, sorted.value);
    var i := 0;
    while i < |layers|
      invariant 0 <= i <= |layers| && runtime.batches == Batches(layers, i, only)
    {
      var targets := Targets(layers[i], only);
      if targets != {} { runtime.Gather(targets); }
      i := i + 1;
    }
    assert layers[..i] == layers;
    OrderSurvives(Transposed(g), layers, i, only);
    return Ok(());
  }
}
