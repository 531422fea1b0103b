/** The runtime boundary: a managed policy that holds at most five versions, one of them the default. */
module PolicyVersions {
  import opened Prelude

  const LIMIT: nat := 5

  datatype Version = Version(id: nat, created: int, isDefault: bool, document: string)

  /** A policy's versions, and the id its next version will have. */
  datatype Policy = Policy(versions: seq<Version>, next: nat)

  /** A request is answered, or fails with or without having been carried out. */
  datatype Fate = Answered | Lost(landed: bool)

  /** One run: the rendered document, the time, and what becomes of its requests. */
  datatype Attempt = Attempt(document: string, now: int, found: bool, listed: bool, fates: nat -> Fate)

  // ---------- the service ----------

  function Demoted(vs: seq<Version>): seq<Version> {
    if vs == [] then [] else [vs[0].(isDefault := false)] + Demoted(vs[1..])
  }

  function Without(vs: seq<Version>, id: nat): seq<Version> {
    if vs == [] then [] else (if vs[0].id == id then [] else [vs[0]]) + Without(vs[1..], id)
  }

  predicate Lands(fate: Fate) { fate.Answered? || fate.landed }

  /** `create-policy`, for a policy that is not there. */
  function NewPolicy(a: Attempt): Policy { Policy([Version(1, a.now, true, a.document)], 2) }

  predicate Deletable(p: Policy, id: nat) { exists v :: v in p.versions && v.id == id && !v.isDefault }

  function Deleted(p: Policy, id: nat): Policy { p.(versions := Without(p.versions, id)) }

  /** `create-policy-version --set-as-default`. */
  function Added(p: Policy, a: Attempt): Policy {
    Policy(Demoted(p.versions) + [Version(p.next, a.now, true, a.document)], p.next + 1)
  }

  // ---------- what the program prunes ----------

  function InsertByAge(v: Version, vs: seq<Version>): seq<Version> {
    if vs == [] || v.created <= vs[0].created then [v] + vs else [vs[0]] + InsertByAge(v, vs[1..])
  }

  /** The versions that are not the default, oldest first. */
  function Disposable(vs: seq<Version>): seq<Version> {
    if vs == [] then []
    else if vs[0].isDefault then Disposable(vs[1..])
    else InsertByAge(vs[0], Disposable(vs[1..]))
  }

  function Overflow(count: nat): nat { if count >= LIMIT then count - LIMIT + 1 else 0 }

  /** The outcome of deleting `doomed` one by one, up to the first failure. */
  function Pruned(p: Policy, doomed: seq<Version>, fates: nat -> Fate, n: nat): (Policy, bool)
    decreases |doomed|
  {
    if doomed == [] then (p, true)
    else
      var legal := Deletable(p, doomed[0].id);
      var after := if legal && Lands(fates(n)) then Deleted(p, doomed[0].id) else p;
      if legal && fates(n).Answered? then Pruned(after, doomed[1..], fates, n + 1) else (after, false)
  }

  function Doomed(p: Policy): seq<Version> {
    var disposable, overflow := Disposable(p.versions), Overflow(|p.versions|);
    disposable[..if overflow <= |disposable| then overflow else |disposable|]
  }

  /** One run of `ensureRuntimeBoundary`: the policy afterwards, and whether the run completed. */
  function Run(p: Option<Policy>, a: Attempt): (Option<Policy>, bool) {
    if p.None? || !a.found then
      (if p.None? && Lands(a.fates(0)) then Some(NewPolicy(a)) else p, p.None? && a.fates(0).Answered?)
    else if !a.listed then (p, false)
    else
      var doomed := Doomed(p.value);
      var (pruned, ok) := Pruned(p.value, doomed, a.fates, 0);
      if !ok then (Some(pruned), false)
      else
        var legal := |pruned.versions| < LIMIT;
        (Some(if legal && Lands(a.fates(|doomed|)) then Added(pruned, a) else pruned),
         legal && a.fates(|doomed|).Answered?)
  }

  function Runs(p: Option<Policy>, attempts: seq<Attempt>): Option<Policy> {
    if attempts == [] then p else Run(Runs(p, attempts[..|attempts| - 1]), attempts[|attempts| - 1]).0
  }

  // ---------- what every run keeps ----------

  predicate Distinct(vs: seq<Version>) { forall i, j :: 0 <= i < j < |vs| ==> vs[i].id != vs[j].id }

  predicate OneDefault(vs: seq<Version>) {
    && (exists v :: v in vs && v.isDefault)
    && forall v, w :: v in vs && w in vs && v.isDefault && w.isDefault ==> v == w
  }

  /** At most five versions, told apart by their ids, exactly one of them the default. */
  predicate Good(p: Policy) {
    && |p.versions| <= LIMIT && Distinct(p.versions) && OneDefault(p.versions)
    && forall v :: v in p.versions ==> v.id < p.next
  }

  predicate AllGood(p: Option<Policy>) { p.Some? ==> Good(p.value) }

  lemma IdsTell(vs: seq<Version>, v: Version, w: Version)
    requires Distinct(vs) && v in vs && w in vs && v.id == w.id
    ensures v == w
  {
    var i :| 0 <= i < |vs| && vs[i] == v;
    var j :| 0 <= j < |vs| && vs[j] == w;
  }

  lemma Uncons<T>(s: seq<T>)
    requires s != []
    ensures forall x :: x in s <==> x == s[0] || x in s[1..]
  {
    assert s == [s[0]] + s[1..];
  }

  lemma {:induction false} WithoutKeeps(vs: seq<Version>, id: nat)
    requires Distinct(vs)
    ensures Distinct(Without(vs, id))
    ensures forall v :: v in Without(vs, id) <==> v in vs && v.id != id
    ensures |Without(vs, id)| == |vs| - (if exists v :: v in vs && v.id == id then 1 else 0)
  {
    if vs != [] {
      Uncons(vs);
      WithoutKeeps(vs[1..], id);
      var rest := Without(vs[1..], id);
      forall i | 0 <= i < |rest| ensures rest[i].id != vs[0].id { assert rest[i] in vs[1..]; }
      forall v | v in vs[1..] ensures v.id != vs[0].id {}
    }
  }

  lemma {:induction false} DemotedHas(vs: seq<Version>)
    ensures |Demoted(vs)| == |vs|
    ensures forall i :: 0 <= i < |vs| ==> Demoted(vs)[i] == vs[i].(isDefault := false)
  {
    if vs != [] { DemotedHas(vs[1..]); }
  }

  // ---------- the oldest go first ----------

  predicate OldestFirst(vs: seq<Version>) { forall i, j :: 0 <= i < j < |vs| ==> vs[i].created <= vs[j].created }

  lemma {:induction false} InsertKeeps(v: Version, vs: seq<Version>)
    requires OldestFirst(vs) && Distinct(vs) && forall w :: w in vs ==> w.id != v.id
    ensures OldestFirst(InsertByAge(v, vs)) && Distinct(InsertByAge(v, vs))
    ensures forall w :: w in InsertByAge(v, vs) <==> w == v || w in vs
    ensures |InsertByAge(v, vs)| == |vs| + 1
  {
    if vs != [] && v.created > vs[0].created {
      Uncons(vs);
      InsertKeeps(v, vs[1..]);
      var rest := InsertByAge(v, vs[1..]);
      forall i | 0 <= i < |rest| ensures vs[0].created <= rest[i].created && rest[i].id != vs[0].id {
        assert rest[i] == v || rest[i] in vs[1..];
      }
    }
  }

  lemma {:induction false} DisposableIs(vs: seq<Version>)
    requires Distinct(vs)
    ensures OldestFirst(Disposable(vs)) && Distinct(Disposable(vs))
    ensures forall v :: v in Disposable(vs) <==> v in vs && !v.isDefault
    ensures (forall v :: v in vs ==> !v.isDefault) ==> |Disposable(vs)| == |vs|
    ensures (forall v, w :: v in vs && w in vs && v.isDefault && w.isDefault ==> v == w) ==> |Disposable(vs)| >= |vs| - 1
  {
    if vs != [] {
      Uncons(vs);
      DisposableIs(vs[1..]);
      forall v | v in vs[1..] ensures v.id != vs[0].id {}
      if !vs[0].isDefault { InsertKeeps(vs[0], Disposable(vs[1..])); }
    }
  }

  lemma DoomedIs(p: Policy)
    requires Good(p)
    ensures |Doomed(p)| == Overflow(|p.versions|) && Doomed(p) <= Disposable(p.versions)
    ensures Distinct(Doomed(p)) && forall v :: v in Doomed(p) ==> v in p.versions && !v.isDefault
  {
    DisposableIs(p.versions);
    var d := Disposable(p.versions);
    assert forall i :: 0 <= i < |Doomed(p)| ==> Doomed(p)[i] == d[i] && d[i] in d;
  }

  /** What pruning leaves: everything but some first part of the doomed, all of it if it succeeded. */
  ghost predicate Left(p: Policy, doomed: seq<Version>, m: nat, left: Policy) {
    && m <= |doomed| && left.next == p.next && |left.versions| == |p.versions| - m
    && forall v :: v in left.versions <==> v in p.versions && v !in doomed[..m]
  }

  lemma DeletedIsGood(p: Policy, v: Version)
    requires Good(p) && v in p.versions && !v.isDefault
    ensures Deletable(p, v.id) && Good(Deleted(p, v.id))
    ensures |Deleted(p, v.id).versions| == |p.versions| - 1
    ensures forall w :: w in Deleted(p, v.id).versions <==> w in p.versions && w != v
  {
    WithoutKeeps(p.versions, v.id);
    forall w | w in p.versions && w.id == v.id ensures w == v { IdsTell(p.versions, w, v); }
    var d :| d in p.versions && d.isDefault;
    assert d in Without(p.versions, v.id);
  }

  lemma LeftStep(p: Policy, after: Policy, doomed: seq<Version>, k: nat, left: Policy)
    requires doomed != [] && Left(after, doomed[1..], k, left)
    requires after.next == p.next && |after.versions| == |p.versions| - 1
    requires forall w :: w in after.versions <==> w in p.versions && w != doomed[0]
    ensures Left(p, doomed, k + 1, left)
  {
    assert doomed[..k + 1] == [doomed[0]] + doomed[1..][..k];
  }

  lemma NothingLeft(p: Policy, doomed: seq<Version>)
    ensures Left(p, doomed, 0, p)
  {
  }

  lemma OneLeft(p: Policy, v: Version, doomed: seq<Version>, left: Policy)
    requires doomed != [] && doomed[0] == v && left.next == p.next && |left.versions| == |p.versions| - 1
    requires forall w :: w in left.versions <==> w in p.versions && w != v
    ensures Left(p, doomed, 1, left)
  {
    assert doomed[..1] == [v];
  }

  lemma DoomedAfter(p: Policy, doomed: seq<Version>, after: Policy)
    requires doomed != [] && Distinct(doomed) && forall v :: v in doomed ==> v in p.versions && !v.isDefault
    requires forall w :: w in after.versions <==> w in p.versions && w != doomed[0]
    ensures Distinct(doomed[1..]) && forall v :: v in doomed[1..] ==> v in after.versions && !v.isDefault
  {
    forall i | 0 <= i < |doomed[1..]| ensures doomed[1..][i] in after.versions && !doomed[1..][i].isDefault {
      assert doomed[1..][i] == doomed[i + 1] && doomed[i + 1] in doomed;
    }
  }

  lemma {:induction false} PruningLeaves(p: Policy, doomed: seq<Version>, fates: nat -> Fate, n: nat) returns (m: nat)
    requires Good(p) && Distinct(doomed) && forall v :: v in doomed ==> v in p.versions && !v.isDefault
    ensures var (left, ok) := Pruned(p, doomed, fates, n);
      && Good(left) && Left(p, doomed, m, left) && (ok ==> m == |doomed|)
      && (ok <==> forall k :: n <= k < n + |doomed| ==> fates(k).Answered?)
    decreases |doomed|
  {
    hide Good, Deletable, Left, Deleted, Distinct;
    m := 0;
    NothingLeft(p, doomed);
    if doomed != [] {
      var v := doomed[0];
      assert v in doomed;
      DeletedIsGood(p, v);
      var after := Deleted(p, v.id);
      assert after.next == p.next by { DeletedNext(p, v.id); }
      if fates(n).Answered? {
        DoomedAfter(p, doomed, after);
        var k := PruningLeaves(after, doomed[1..], fates, n + 1);
        m := k + 1;
        LeftStep(p, after, doomed, k, Pruned(after, doomed[1..], fates, n + 1).0);
      } else if Lands(fates(n)) {
        m := 1;
        OneLeft(p, v, doomed, after);
      }
    }
  }

  lemma DeletedNext(p: Policy, id: nat)
    ensures Deleted(p, id).next == p.next
  {
  }

  lemma AddedIsGood(p: Policy, a: Attempt)
    requires Good(p) && |p.versions| < LIMIT
    ensures Good(Added(p, a))
  {
    var q, added := Added(p, a), Version(p.next, a.now, true, a.document);
    DemotedHas(p.versions);
    assert q.versions[|p.versions|] == added;
    forall i, j | 0 <= i < j < |q.versions| ensures q.versions[i].id != q.versions[j].id {
      assert p.versions[i] in p.versions;
    }
    forall v | v in q.versions ensures v.id < q.next && (v.isDefault ==> v == added) {
      var i :| 0 <= i < |q.versions| && q.versions[i] == v;
      if i < |p.versions| { assert p.versions[i] in p.versions; }
    }
  }

  /** The same version, default or not. */
  predicate SameVersion(v: Version, w: Version) { v.(isDefault := false) == w.(isDefault := false) }

  predicate Kept(v: Version, p: Policy) { exists w :: w in p.versions && SameVersion(v, w) }

  lemma AddingKeeps(p: Policy, a: Attempt)
    requires Good(p)
    ensures forall v :: v in p.versions ==> Kept(v, Added(p, a))
    ensures forall v :: Kept(v, Added(p, a)) && v.id < p.next ==> Kept(v, p)
  {
    DemotedHas(p.versions);
    var q := Added(p, a);
    forall v | v in p.versions ensures Kept(v, q) {
      var i :| 0 <= i < |p.versions| && p.versions[i] == v;
      assert SameVersion(v, q.versions[i]);
    }
    forall v | Kept(v, q) && v.id < p.next ensures Kept(v, p) {
      var w :| w in q.versions && SameVersion(v, w);
      var i :| 0 <= i < |q.versions| && q.versions[i] == w;
      assert SameVersion(v, p.versions[i]);
    }
  }

  // ---------- the results ----------

  /** The run gets to its creating request, and that one is carried out, answered or not. */
  predicate CreateLands(p: Option<Policy>, a: Attempt) {
    match p
    case None => Lands(a.fates(0))
    case Some(policy) =>
      var overflow := Overflow(|policy.versions|);
      a.found && a.listed && (forall k :: 0 <= k < overflow ==> a.fates(k).Answered?) && Lands(a.fates(overflow))
  }

  /** The policy a run that is not the first one leaves, and how many versions it pruned. */
  lemma RunLeaves(p: Policy, a: Attempt) returns (left: Policy, m: nat)
    requires Good(p) && a.found && a.listed
    ensures Good(left) && Left(p, Doomed(p), m, left) && (CreateLands(Some(p), a) ==> |left.versions| < LIMIT)
    ensures Run(Some(p), a).1 <==> forall k :: 0 <= k <= |Doomed(p)| ==> a.fates(k).Answered?
    ensures Run(Some(p), a).1 ==> CreateLands(Some(p), a)
    ensures Run(Some(p), a).0 == Some(if CreateLands(Some(p), a) then Added(left, a) else left)
  {
    hide Good, Pruned, Doomed, Left, Added;
    DoomedIs(p);
    var doomed := Doomed(p);
    m := PruningLeaves(p, doomed, a.fates, 0);
    left := Pruned(p, doomed, a.fates, 0).0;
    LeftCount(p, doomed, m, left);
  }

  lemma LeftCount(p: Policy, doomed: seq<Version>, m: nat, left: Policy)
    requires Good(p) && Left(p, doomed, m, left) && |doomed| == Overflow(|p.versions|)
    ensures m == |doomed| ==> |left.versions| < LIMIT
  {
  }

  /** Every run, stopped anywhere, leaves at most five versions and exactly one default. */
  lemma RunKeepsGood(p: Option<Policy>, a: Attempt)
    requires AllGood(p)
    ensures AllGood(Run(p, a).0)
  {
    if p.Some? && a.found && a.listed {
      var left, m := RunLeaves(p.value, a);
      hide Run, Good, CreateLands;
      if CreateLands(p, a) { AddedIsGood(left, a); }
    }
  }

  lemma {:induction false} RunsKeepGood(p: Option<Policy>, attempts: seq<Attempt>)
    requires AllGood(p)
    ensures AllGood(Runs(p, attempts))
    decreases |attempts|
  {
    hide Run, AllGood;
    if attempts != [] {
      RunsKeepGood(p, attempts[..|attempts| - 1]);
      RunKeepsGood(Runs(p, attempts[..|attempts| - 1]), attempts[|attempts| - 1]);
    }
  }

  predicate DefaultKept(p: Policy, after: Policy) {
    forall v :: v in p.versions && v.isDefault ==> Kept(v, after)
  }

  /** Nothing deleted is younger than a version that could have been deleted instead. */
  predicate OldestGone(p: Policy, after: Policy) {
    forall v, w :: v in p.versions && w in p.versions && !Kept(v, after) && Kept(w, after) && !w.isDefault ==>
      v.created <= w.created
  }

  /**
   A run deletes no default version, no version younger than another it could have deleted,
   and no more than it takes to make room for one.
   */
  lemma PrunesOnlyOldest(p: Policy, a: Attempt)
    requires Good(p)
    ensures Run(Some(p), a).0.Some?
    ensures var after := Run(Some(p), a).0.value;
      DefaultKept(p, after) && OldestGone(p, after) && |after.versions| + Overflow(|p.versions|) >= |p.versions|
  {
    if a.found && a.listed {
      var left, m := RunLeaves(p, a);
      var after := Run(Some(p), a).0.value;
      DoomedIs(p);
      hide Run, DefaultKept, OldestGone;
      RunAdds(left, a, after);
      DefaultIsKept(p, m, left, a, after);
      OldestAreGone(p, m, left, a, after);
    } else {
      forall v | v in p.versions ensures Kept(v, p) { assert SameVersion(v, v); }
    }
  }

  lemma DefaultIsKept(p: Policy, m: nat, left: Policy, a: Attempt, after: Policy)
    requires Good(p) && Good(left) && Left(p, Doomed(p), m, left) && (after == left || after == Added(left, a))
    ensures DefaultKept(p, after)
  {
    DoomedIs(p);
    hide Doomed, Kept, Added, Good;
    forall v | v in p.versions && v.isDefault ensures Kept(v, after) {
      assert forall i :: 0 <= i < m ==> Doomed(p)[..m][i] == Doomed(p)[i] && Doomed(p)[i] in Doomed(p);
      KeptMeansLeft(p, m, left, a, after, v);
    }
  }

  lemma OldestAreGone(p: Policy, m: nat, left: Policy, a: Attempt, after: Policy)
    requires Good(p) && Good(left) && Left(p, Doomed(p), m, left) && (after == left || after == Added(left, a))
    ensures OldestGone(p, after)
  {
    hide Doomed, Kept, Added, Good, Left;
    forall v, w | v in p.versions && w in p.versions && !Kept(v, after) && Kept(w, after) && !w.isDefault
      ensures v.created <= w.created {
      KeptMeansLeft(p, m, left, a, after, v);
      KeptMeansLeft(p, m, left, a, after, w);
      GoneIsOlder(p, m, left, v, w);
    }
  }

  lemma RunAdds(left: Policy, a: Attempt, after: Policy)
    requires after == left || after == Added(left, a)
    ensures |after.versions| >= |left.versions|
  {
    DemotedHas(left.versions);
  }

  lemma KeptMeansLeft(p: Policy, m: nat, left: Policy, a: Attempt, after: Policy, v: Version)
    requires Good(p) && Good(left) && Left(p, Doomed(p), m, left) && v in p.versions
    requires after == left || after == Added(left, a)
    ensures Kept(v, after) <==> v in left.versions
  {
    AddingKeeps(left, a);
    hide Added, Doomed;
    if v in left.versions { assert SameVersion(v, v) && Kept(v, left); }
    if Kept(v, left) {
      var w :| w in left.versions && SameVersion(v, w);
      IdsTell(p.versions, v, w);
    }
  }

  lemma GoneIsOlder(p: Policy, m: nat, left: Policy, v: Version, w: Version)
    requires Good(p) && Left(p, Doomed(p), m, left)
    requires v in p.versions && w in p.versions && v !in left.versions && w in left.versions && !w.isDefault
    ensures v.created <= w.created
  {
    DoomedIs(p);
    DisposableIs(p.versions);
    var d, gone := Disposable(p.versions), Doomed(p)[..m];
    var i :| 0 <= i < m && gone[i] == v;
    var j :| 0 <= j < |d| && d[j] == w;
    assert forall k :: 0 <= k < m ==> gone[k] == d[k] && gone[k] in gone;
  }

  /** Nothing of the policy is gone. */
  predicate AllKept(p: Policy, after: Policy) { forall v :: v in p.versions ==> Kept(v, after) }

  lemma AllStay(p: Policy, m: nat, left: Policy, a: Attempt, after: Policy)
    requires Good(p) && Good(left) && Left(p, Doomed(p), m, left) && m == 0 && (after == left || after == Added(left, a))
    ensures AllKept(p, after)
  {
    hide Doomed, Kept, Added, Good;
    forall v | v in p.versions ensures Kept(v, after) { KeptMeansLeft(p, m, left, a, after, v); }
  }

  /**
   Below five versions a run deletes nothing; at five it deletes one at most, and exactly one if
   it completes, which leaves five again.
   */
  lemma PrunesInNumbers(p: Policy, a: Attempt)
    requires Good(p)
    ensures |p.versions| <= 5 && Run(Some(p), a).0.Some?
    ensures var after := Run(Some(p), a).0.value;
      && |after.versions| <= 5
      && (|p.versions| < 5 ==> AllKept(p, after) && |p.versions| <= |after.versions| <= |p.versions| + 1)
      && (|p.versions| == 5 ==> |after.versions| >= 4)
      && (Run(Some(p), a).1 ==> |after.versions| == if |p.versions| < 5 then |p.versions| + 1 else 5)
  {
    RunKeepsGood(Some(p), a);
    if a.found && a.listed {
      var left, m := RunLeaves(p, a);
      LeftInNumbers(p, m, left);
      var after := Run(Some(p), a).0.value;
      hide Run, AllKept, Doomed, Left, Added, CreateLands;
      AddedCount(left, a);
      if m == 0 { AllStay(p, m, left, a, after); }
    } else {
      forall v | v in p.versions ensures Kept(v, p) { assert SameVersion(v, v); }
    }
  }

  lemma LeftInNumbers(p: Policy, m: nat, left: Policy)
    requires Good(p) && Left(p, Doomed(p), m, left)
    ensures |Doomed(p)| == (if |p.versions| < 5 then 0 else 1) && |left.versions| == |p.versions| - m && m <= |Doomed(p)|
  {
    DoomedIs(p);
    hide Doomed;
  }

  lemma AddedCount(p: Policy, a: Attempt)
    ensures |Added(p, a).versions| == |p.versions| + 1
  {
    DemotedHas(p.versions);
  }

  /** A run completes exactly when its requests are answered: one below five versions, two at five. */
  lemma CompletesInNumbers(p: Policy, a: Attempt)
    requires Good(p)
    ensures Run(Some(p), a).1 <==>
      a.found && a.listed && a.fates(0).Answered? && (|p.versions| == 5 ==> a.fates(1).Answered?)
  {
    CompletesUnlessARequestFails(Some(p), a);
    hide Run;
    assert Overflow(|p.versions|) == if |p.versions| == 5 then 1 else 0;
  }

  predicate DefaultIs(p: Policy, document: string) {
    forall v :: v in p.versions && v.isDefault ==> v.document == document
  }

  lemma AddedIsDefault(p: Policy, a: Attempt)
    ensures DefaultIs(Added(p, a), a.document)
  {
    DemotedHas(p.versions);
    var q := Added(p, a);
    forall v | v in q.versions && v.isDefault ensures v.document == a.document {
      var i :| 0 <= i < |q.versions| && q.versions[i] == v;
    }
  }

  lemma LeftKeepsDefault(p: Policy, m: nat, left: Policy, document: string)
    requires Good(p) && Left(p, Doomed(p), m, left) && DefaultIs(p, document)
    ensures DefaultIs(left, document)
  {
    hide Doomed;
  }

  /** A run whose creation landed leaves its document as the default, and any other run leaves the default alone. */
  lemma RunDefault(p: Option<Policy>, a: Attempt, document: string)
    requires AllGood(p) && (p.Some? ==> DefaultIs(p.value, document))
    ensures CreateLands(p, a) ==> Run(p, a).0.Some? && DefaultIs(Run(p, a).0.value, a.document)
    ensures !CreateLands(p, a) ==> (Run(p, a).0.Some? <==> p.Some?)
    ensures !CreateLands(p, a) && p.Some? ==> DefaultIs(Run(p, a).0.value, document)
  {
    if p.Some? && a.found && a.listed {
      var left, m := RunLeaves(p.value, a);
      hide Run, CreateLands, DefaultIs, Good;
      AddedIsDefault(left, a);
      LeftKeepsDefault(p.value, m, left, document);
    }
  }

  /** The document of the last attempt whose creation landed, or else the one before all of them. */
  function LastLanded(p: Option<Policy>, attempts: seq<Attempt>, before: Option<string>): Option<string>
    decreases |attempts|
  {
    if attempts == [] then before else
      var rest, last := attempts[..|attempts| - 1], attempts[|attempts| - 1];
      if CreateLands(Runs(p, rest), last) then Some(last.document) else LastLanded(p, rest, before)
  }

  /**
   Over any runs, completed or stopped anywhere: the default is the document of the last one
   whose creation landed, and the first one's default if none did.
   */
  lemma {:induction false} LastLandedIsDefault(p: Option<Policy>, attempts: seq<Attempt>, before: Option<string>)
    requires AllGood(p) && (p.Some? <==> before.Some?) && (p.Some? ==> DefaultIs(p.value, before.value))
    ensures var after, last := Runs(p, attempts), LastLanded(p, attempts, before);
      (after.Some? <==> last.Some?) && (after.Some? ==> DefaultIs(after.value, last.value))
    decreases |attempts|
  {
    hide Run, AllGood, DefaultIs, CreateLands;
    if attempts != [] {
      var rest, last := attempts[..|attempts| - 1], attempts[|attempts| - 1];
      LastLandedIsDefault(p, rest, before);
      RunsKeepGood(p, rest);
      var was := LastLanded(p, rest, before);
      RunDefault(Runs(p, rest), last, if was.Some? then was.value else "");
    }
  }

  /** A completed run's creation landed. */
  lemma CompletedRunLands(p: Option<Policy>, a: Attempt)
    requires AllGood(p) && Run(p, a).1
    ensures CreateLands(p, a)
  {
    if p.Some? { var left, m := RunLeaves(p.value, a); }
  }

  /** Only a failed request stops a run: pruning always makes the room the limit asks for. */
  lemma CompletesUnlessARequestFails(p: Option<Policy>, a: Attempt)
    requires AllGood(p)
    ensures Run(p, a).1 <==>
      if p.None? then a.fates(0).Answered?
      else a.found && a.listed && forall k :: 0 <= k <= Overflow(|p.value.versions|) ==> a.fates(k).Answered?
  {
    if p.Some? && a.found && a.listed {
      var left, m := RunLeaves(p.value, a);
      DoomedIs(p.value);
    }
  }

  lemma SomeDefault(p: Policy) returns (document: string)
    requires Good(p)
    ensures DefaultIs(p, document)
  {
    var v :| v in p.versions && v.isDefault;
    document := v.document;
  }

  /** In particular, when the last of any runs completed, its document is the default. */
  lemma LastCompletedRunWins(p: Option<Policy>, attempts: seq<Attempt>, last: Attempt)
    requires AllGood(p) && Run(Runs(p, attempts), last).1
    ensures Runs(p, attempts + [last]).Some? && Good(Runs(p, attempts + [last]).value)
    ensures DefaultIs(Runs(p, attempts + [last]).value, last.document)
  {
    hide Run, Good, DefaultIs, CreateLands;
    var runs := attempts + [last];
    assert runs[..|runs| - 1] == attempts;
    RunsKeepGood(p, attempts);
    RunsKeepGood(p, runs);
    CompletedRunLands(Runs(p, attempts), last);
    var before: Option<string> := None;
    if p.Some? {
      var document := SomeDefault(p.value);
      before := Some(document);
    }
    LastLandedIsDefault(p, runs, before);
  }

  // ---------- the program ----------

  /** The service, as far as one policy goes. */
  class Iam {
    var policy: Option<Policy>

    method CreatePolicy(a: Attempt) returns (ok: bool)
      modifies this
      ensures policy == (if old(policy).None? && Lands(a.fates(0)) then Some(NewPolicy(a)) else old(policy))
      ensures ok == (old(policy).None? && a.fates(0).Answered?)
    {
      ok := policy.None? && a.fates(0).Answered?;
      if policy.None? && Lands(a.fates(0)) { policy := Some(NewPolicy(a)); }
    }

    method DeleteVersion(id: nat, fate: Fate) returns (ok: bool)
      requires policy.Some?
      modifies this
      ensures var p := old(policy).value;
        policy == Some(if Deletable(p, id) && Lands(fate) then Deleted(p, id) else p)
        && ok == (Deletable(p, id) && fate.Answered?)
    {
      var legal := Deletable(policy.value, id);
      if legal && Lands(fate) { policy := Some(Deleted(policy.value, id)); }
      ok := legal && fate.Answered?;
    }

    method CreateVersion(a: Attempt, fate: Fate) returns (ok: bool)
      requires policy.Some?
      modifies this
      ensures var p := old(policy).value;
        policy == Some(if |p.versions| < LIMIT && Lands(fate) then Added(p, a) else p)
        && ok == (|p.versions| < LIMIT && fate.Answered?)
    {
      var legal := |policy.value.versions| < LIMIT;
      if legal && Lands(fate) { policy := Some(Added(policy.value, a)); }
      ok := legal && fate.Answered?;
    }
  }

  method EnsureRuntimeBoundary(iam: Iam, a: Attempt) returns (ok: bool)
    modifies iam
    ensures (iam.policy, ok) == Run(old(iam.policy), a)
  {
    if iam.policy.None? || !a.found {
      ok := iam.CreatePolicy(a);
      return;
    }
    if !a.listed { return false; }
    ghost var before := iam.policy.value;
    var disposable, overflow := Disposable(iam.policy.value.versions), Overflow(|iam.policy.value.versions|);
    var doomed := disposable[..if overflow <= |disposable| then overflow else |disposable|];
    hide Deletable, Deleted, Added, Disposable;
    var n := 0;
    assert doomed[0..] == doomed;
    while n < |doomed|
      invariant 0 <= n <= |doomed| && iam.policy.Some?
      invariant Pruned(iam.policy.value, doomed[n..], a.fates, n) == Pruned(before, doomed, a.fates, 0)
    {
      assert doomed[n..][1..] == doomed[n + 1..];
      ok := iam.DeleteVersion(doomed[n].id, a.fates(n));
      if !ok { return; }
      n := n + 1;
    }
    ok := iam.CreateVersion(a, a.fates(n));
  }
}
