/**
 Write-once publication of a Runner artifact: any number of builders list a bucket and then
 put an archive and its checksum, each put refused when its key is taken.
 */
module RunnerArtifact {

  type Objects = map<string, string>

  datatype Phase = Listing | Uploading(next: nat) | Published | PartlyThere | Failed

  /** What one build of a commit gave; another build of the commit gives other bytes. */
  datatype Build = Build(ref: string, version: string, archive: string, checksum: string)

  /** One run of the program and how far it is. */
  datatype Builder = Builder(build: Build, phase: Phase)

  datatype State = State(objects: Objects, builders: seq<Builder>)

  /** A put is answered, or its answer is lost with or without the object landing. */
  datatype Fate = Answered | Lost(landed: bool)

  datatype Op =
    | Join(build: Build)
    | List(i: nat)
    | Send(i: nat, fate: Fate)
    | Crash(i: nat)

  const SUFFIX := ".sha256"

  function ArchiveName(version: string, ref: string): string {
    "boxlite-runner-v" + version + "-" + ref + "-linux-amd64.tar.gz"
  }

  function ArchiveKey(b: Build): string { "runner/" + b.ref + "/" + ArchiveName(b.version, b.ref) }

  function Key(b: Build, n: nat): string { if n == 0 then ArchiveKey(b) else ArchiveKey(b) + SUFFIX }

  function Body(b: Build, n: nat): string { if n == 0 then b.archive else b.checksum }

  function PutIfAbsent(objects: Objects, key: string, body: string): Objects {
    if key in objects then objects else objects[key := body]
  }

  function Listed(objects: Objects, b: Build): Phase {
    if Key(b, 0) in objects && Key(b, 1) in objects then Published
    else if Key(b, 0) in objects || Key(b, 1) in objects then PartlyThere
    else Uploading(0)
  }

  function WithPhase(s: State, i: nat, phase: Phase): State
    requires i < |s.builders|
  {
    s.(builders := s.builders[i := s.builders[i].(phase := phase)])
  }

  /** One step; a step that is not possible changes nothing. */
  function Step(s: State, op: Op): State {
    match op
    case Join(build) => s.(builders := s.builders + [Builder(build, Listing)])
    case List(i) =>
      if i < |s.builders| && s.builders[i].phase.Listing?
      then WithPhase(s, i, Listed(s.objects, s.builders[i].build)) else s
    case Send(i, fate) =>
      if i < |s.builders| && s.builders[i].phase.Uploading? then Sent(s, i, fate) else s
    case Crash(i) => if i < |s.builders| && !s.builders[i].phase.Published? then WithPhase(s, i, Failed) else s
  }

  function Sent(s: State, i: nat, fate: Fate): State
    requires i < |s.builders| && s.builders[i].phase.Uploading?
  {
    var b := s.builders[i].build;
    var n := s.builders[i].phase.next;
    var after := if fate.Answered? || fate.landed then PutIfAbsent(s.objects, Key(b, n), Body(b, n)) else s.objects;
    var phase :=
      if fate.Answered? && Key(b, n) !in s.objects then (if n == 0 then Uploading(1) else Published) else Failed;
    WithPhase(s, i, phase).(objects := after)
  }

  function Run(s: State, ops: seq<Op>): State
    decreases |ops|
  {
    if ops == [] then s else Run(Step(s, ops[0]), ops[1..])
  }

  lemma {:induction false} RunConcat(s: State, a: seq<Op>, b: seq<Op>)
    ensures Run(s, a + b) == Run(Run(s, a), b)
    decreases |a|
  {
    hide Step;
    if a == [] {
      assert a + b == b;
    } else {
      RunConcat(Step(s, a[0]), a[1..], b);
      assert a + b == [a[0]] + (a[1..] + b);
    }
  }

  // ---------- keys ----------

  predicate IsChecksumKey(key: string) { |key| >= |SUFFIX| && key[|key| - |SUFFIX|..] == SUFFIX }

  function ArchiveOf(key: string): string
    requires IsChecksumKey(key)
  {
    key[..|key| - |SUFFIX|]
  }

  lemma KeysTellKindsApart(b: Build)
    ensures !IsChecksumKey(Key(b, 0))
    ensures IsChecksumKey(Key(b, 1)) && ArchiveOf(Key(b, 1)) == Key(b, 0)
  {
    var k := ArchiveKey(b);
    assert k[|k| - 1] == 'z';
    assert SUFFIX[6] == '6' && |SUFFIX| == 7;
    assert |k| >= 7 ==> k[|k| - 7..][6] == k[|k| - 1];
    hide ArchiveKey;
    assert (k + SUFFIX)[|k|..] == SUFFIX && (k + SUFFIX)[..|k|] == k;
  }

  lemma KeysDiffer(b: Build, c: Build)
    ensures Key(b, 0) != Key(c, 1) && Key(b, 1) != Key(c, 0)
    ensures Key(b, 1) == Key(c, 1) <==> Key(b, 0) == Key(c, 0)
  {
    KeysTellKindsApart(b);
    KeysTellKindsApart(c);
    hide ArchiveKey;
  }

  /** The key tells which version of which commit an object belongs to. */
  lemma KeysTellBuildsApart(b: Build, c: Build)
    requires '/' !in b.ref && '/' !in c.ref && Key(b, 0) == Key(c, 0)
    ensures b.ref == c.ref && b.version == c.version
  {
    var u, v := ArchiveName(b.version, b.ref), ArchiveName(c.version, c.ref);
    KeyPath(b);
    KeyPath(c);
    hide Key, ArchiveKey, ArchiveName;
    SameUpToSlash(b.ref, c.ref, u, v);
    SameNameSameVersion(b.version, c.version, b.ref, u);
  }

  lemma KeyPath(b: Build)
    ensures Key(b, 0)[|"runner/"|..] == b.ref + "/" + ArchiveName(b.version, b.ref)
  {
    assert Key(b, 0) == "runner/" + (b.ref + "/" + ArchiveName(b.version, b.ref));
  }

  lemma SameUpToSlash(x: string, y: string, u: string, v: string)
    requires '/' !in x && '/' !in y && x + "/" + u == y + "/" + v
    ensures x == y && u == v
  {
    var k := x + "/" + u;
    assert k[|x|] == '/' && k[|y|] == '/';
    assert forall i :: 0 <= i < |x| ==> k[i] == x[i];
    assert forall i :: 0 <= i < |y| ==> k[i] == y[i];
    assert |x| == |y|;
    assert x == k[..|x|] && y == k[..|y|];
    assert u == k[|x| + 1..] && v == k[|y| + 1..];
  }

  lemma SameNameSameVersion(v: string, w: string, ref: string, name: string)
    requires name == ArchiveName(v, ref) == ArchiveName(w, ref)
    ensures v == w
  {
    var head, tail := "boxlite-runner-v", "-" + ref + "-linux-amd64.tar.gz";
    assert name == head + v + tail == head + w + tail;
    assert |v| == |w|;
    assert v == name[|head|..|head| + |v|] && w == name[|head|..|head| + |w|];
  }

  // ---------- what every step keeps ----------

  /** Both objects are there and came out of one build. */
  ghost predicate OneBuild(s: State, key: string)
    requires IsChecksumKey(key) && key in s.objects
  {
    ArchiveOf(key) in s.objects && exists j :: 0 <= j < |s.builders| && Made(s, key, s.builders[j].build)
  }

  predicate Made(s: State, key: string, b: Build)
    requires IsChecksumKey(key) && key in s.objects && ArchiveOf(key) in s.objects
  {
    key == Key(b, 1) && s.objects[ArchiveOf(key)] == b.archive && s.objects[key] == b.checksum
  }

  ghost predicate ChecksumsPaired(s: State) {
    forall key :: key in s.objects && IsChecksumKey(key) ==> OneBuild(s, key)
  }

  predicate Halfway(b: Builder) { b.phase.Uploading? && b.phase.next == 1 }

  /** A builder between its two puts stored the archive that is there. */
  predicate Owns(objects: Objects, b: Builder) {
    && (b.phase.Uploading? ==> b.phase.next < 2)
    && (Halfway(b) ==>
      Key(b.build, 0) in objects && objects[Key(b.build, 0)] == b.build.archive && Key(b.build, 1) !in objects)
    && (b.phase.Published? ==> Key(b.build, 0) in objects && Key(b.build, 1) in objects)
  }

  predicate Rivals(b: Builder, c: Builder) { Halfway(b) && Halfway(c) && Key(b.build, 0) == Key(c.build, 0) }

  ghost predicate Inv(s: State) {
    && ChecksumsPaired(s)
    && (forall i :: 0 <= i < |s.builders| ==> Owns(s.objects, s.builders[i]))
    && forall i, j :: 0 <= i < j < |s.builders| ==> !Rivals(s.builders[i], s.builders[j])
  }

  predicate Grows(before: Objects, after: Objects) {
    forall key :: key in before ==> key in after && after[key] == before[key]
  }

  /** A bucket in which nothing has been published yet, though archives may lie around. */
  predicate Unpublished(s: State) {
    s.builders == [] && forall key :: key in s.objects ==> !IsChecksumKey(key)
  }

  lemma PairedAfter(s: State, t: State)
    requires ChecksumsPaired(s) && Grows(s.objects, t.objects)
    requires |s.builders| <= |t.builders|
    requires forall j :: 0 <= j < |s.builders| ==> t.builders[j].build == s.builders[j].build
    requires forall key :: key in t.objects && key !in s.objects && IsChecksumKey(key) ==> OneBuild(t, key)
    ensures ChecksumsPaired(t)
  {
    hide ArchiveKey, IsChecksumKey, Key;
    forall key | key in t.objects && IsChecksumKey(key) ensures OneBuild(t, key) {
      if key in s.objects {
        assert OneBuild(s, key);
        var j :| 0 <= j < |s.builders| && Made(s, key, s.builders[j].build);
        assert Made(t, key, t.builders[j].build);
      }
    }
  }

  /** A put of a builder that has not begun, or is half way, keeps checksums paired. */
  lemma SentKeepsPairs(s: State, i: nat, fate: Fate)
    requires Inv(s) && i < |s.builders| && s.builders[i].phase.Uploading?
    ensures ChecksumsPaired(Sent(s, i, fate)) && Grows(s.objects, Sent(s, i, fate).objects)
  {
    hide ArchiveKey, IsChecksumKey, ChecksumsPaired, Key;
    var t, b := Sent(s, i, fate), s.builders[i].build;
    assert Owns(s.objects, s.builders[i]);
    KeysTellKindsApart(b);
    forall key | key in t.objects && key !in s.objects && IsChecksumKey(key) ensures OneBuild(t, key) {
      assert Made(t, key, t.builders[i].build);
    }
    PairedAfter(s, t);
  }

  lemma ChecksumHasArchive(s: State, b: Build)
    requires ChecksumsPaired(s)
    ensures Key(b, 1) in s.objects ==> Key(b, 0) in s.objects
  {
    hide ArchiveKey, IsChecksumKey;
    KeysTellKindsApart(b);
    assert Key(b, 1) in s.objects ==> OneBuild(s, Key(b, 1));
  }

  lemma SentKeepsOthers(s: State, i: nat, fate: Fate, j: nat)
    requires Inv(s) && i < |s.builders| && s.builders[i].phase.Uploading? && j < |s.builders|
    ensures var t := Sent(s, i, fate);
      Owns(t.objects, t.builders[j]) && (i != j ==> !Rivals(t.builders[i], t.builders[j]))
  {
    hide ArchiveKey, IsChecksumKey, ChecksumsPaired, Key;
    var b, c := s.builders[i], s.builders[j];
    assert Owns(s.objects, b) && Owns(s.objects, c);
    KeysDiffer(b.build, c.build);
    ChecksumHasArchive(s, b.build);
    assert i != j ==> !Rivals(b, c) && !Rivals(c, b);
  }

  lemma SentKeeps(s: State, i: nat, fate: Fate)
    requires Inv(s) && i < |s.builders| && s.builders[i].phase.Uploading?
    ensures Inv(Sent(s, i, fate)) && Grows(s.objects, Sent(s, i, fate).objects)
  {
    SentKeepsPairs(s, i, fate);
    var t := Sent(s, i, fate);
    hide ChecksumsPaired, Key, Owns, Grows, Halfway;
    forall j | 0 <= j < |t.builders| ensures Owns(t.objects, t.builders[j]) { SentKeepsOthers(s, i, fate, j); }
    forall j, k | 0 <= j < k < |t.builders| ensures !Rivals(t.builders[j], t.builders[k]) {
      SentKeepsOthers(s, i, fate, j);
      SentKeepsOthers(s, i, fate, k);
      assert !Rivals(s.builders[j], s.builders[k]);
    }
  }

  /** Every step keeps the invariant and changes no stored byte. */
  lemma StepKeeps(s: State, op: Op)
    requires Inv(s)
    ensures Inv(Step(s, op)) && Grows(s.objects, Step(s, op).objects)
  {
    hide ArchiveKey, IsChecksumKey, Key;
    var t := Step(s, op);
    match op
    case Send(i, fate) => if i < |s.builders| && s.builders[i].phase.Uploading? { hide Sent; SentKeeps(s, i, fate); }
    case Join(_) => PhasesKeep(s, t, |s.builders|);
    case List(i) => if i < |s.builders| { PhasesKeep(s, t, i); }
    case Crash(i) => if i < |s.builders| { PhasesKeep(s, t, i); }
  }

  /** A step that stores nothing and only moves one builder, not to the middle of its puts. */
  lemma PhasesKeep(s: State, t: State, i: nat)
    requires Inv(s) && t.objects == s.objects && |s.builders| <= |t.builders| && i < |t.builders|
    requires |t.builders| == |s.builders| || |t.builders| == i + 1 == |s.builders| + 1
    requires forall j :: 0 <= j < |s.builders| ==> t.builders[j].build == s.builders[j].build
    requires forall j :: 0 <= j < |s.builders| && j != i ==> t.builders[j] == s.builders[j]
    requires t != s ==> Owns(t.objects, t.builders[i]) && !Halfway(t.builders[i])
    ensures Inv(t)
  {
    hide Key, Halfway, Owns;
    if t != s {
      PairedAfter(s, t);
    }
  }

  lemma {:induction false} RunKeeps(s: State, ops: seq<Op>)
    requires Inv(s)
    ensures Inv(Run(s, ops)) && Grows(s.objects, Run(s, ops).objects)
    decreases |ops|
  {
    hide Step, Inv;
    if ops != [] {
      StepKeeps(s, ops[0]);
      RunKeeps(Step(s, ops[0]), ops[1..]);
    }
  }

  // ---------- the results ----------

  /** No run of any number of builders ever changes or removes a stored object. */
  lemma StoredBytesNeverChange(s: State, first: seq<Op>, more: seq<Op>)
    requires Unpublished(s)
    ensures Grows(Run(s, first).objects, Run(s, first + more).objects)
  {
    hide Step;
    assert Inv(s);
    RunKeeps(s, first);
    RunConcat(s, first, more);
    RunKeeps(Run(s, first), more);
  }

  /** Whenever a checksum is there, its archive is there too, and one build made both. */
  lemma ChecksumMeansOneBuild(s: State, ops: seq<Op>, key: string)
    requires Unpublished(s) && IsChecksumKey(key) && key in Run(s, ops).objects
    ensures OneBuild(Run(s, ops), key)
  {
    hide Step;
    assert Inv(s);
    RunKeeps(s, ops);
  }

  /** So, when every build's checksum is that of its archive, whatever is published verifies. */
  lemma PublishedVerifies(s: State, ops: seq<Op>, key: string, sha256: string -> string)
    requires Unpublished(s) && IsChecksumKey(key) && key in Run(s, ops).objects
    requires forall j :: 0 <= j < |Run(s, ops).builders| ==>
      Run(s, ops).builders[j].build.checksum == sha256(Run(s, ops).builders[j].build.archive)
    ensures ArchiveOf(key) in Run(s, ops).objects
    ensures Run(s, ops).objects[key] == sha256(Run(s, ops).objects[ArchiveOf(key)])
  {
    ChecksumMeansOneBuild(s, ops, key);
  }

  /** A builder that reports success left, or found, both objects. */
  lemma SuccessMeansPublished(s: State, ops: seq<Op>, i: nat)
    requires Unpublished(s) && i < |Run(s, ops).builders| && Run(s, ops).builders[i].phase.Published?
    ensures var b, objects := Run(s, ops).builders[i].build, Run(s, ops).objects;
      Key(b, 0) in objects && Key(b, 1) in objects
  {
    hide Step, Key;
    assert Inv(s);
    RunKeeps(s, ops);
    assert Owns(Run(s, ops).objects, Run(s, ops).builders[i]);
  }

  /** An archive with no checksum and no builder still on its way to it. */
  predicate Stuck(s: State, b: Build) {
    && Key(b, 0) in s.objects && Key(b, 1) !in s.objects
    && forall i :: 0 <= i < |s.builders| && Halfway(s.builders[i]) ==> Key(s.builders[i].build, 0) != Key(b, 0)
  }

  lemma StepStaysStuck(s: State, b: Build, op: Op)
    requires Inv(s) && Stuck(s, b)
    ensures Stuck(Step(s, op), b)
  {
    hide ArchiveKey, IsChecksumKey, ChecksumsPaired;
    match op
    case Send(i, _) =>
      if i < |s.builders| && s.builders[i].phase.Uploading? {
        assert Owns(s.objects, s.builders[i]);
        KeysDiffer(b, s.builders[i].build);
      }
    case _ =>
  }

  /** A partial publication is never completed by a later build. */
  lemma {:induction false} PartialStaysPartial(s: State, b: Build, ops: seq<Op>)
    requires Inv(s) && Stuck(s, b)
    ensures Stuck(Run(s, ops), b)
    decreases |ops|
  {
    hide Step, Inv, Stuck;
    if ops != [] {
      StepStaysStuck(s, b, ops[0]);
      StepKeeps(s, ops[0]);
      PartialStaysPartial(Step(s, ops[0]), b, ops[1..]);
    }
  }

  // ---------- the program ----------

  /** No other builder acts and every put is answered. */
  ghost predicate Undisturbed(others: nat -> seq<Op>, fates: nat -> Fate) {
    forall n :: others(n) == [] && fates(n).Answered?
  }

  /** The bucket, and the other builders whose requests may come between this one's. */
  class Bucket {
    var state: State

    /** Other builders' steps. */
    method Interleave(ops: seq<Op>, me: nat)
      requires me < |state.builders| && forall k :: 0 <= k < |ops| ==> ops[k].Join? || ops[k].i != me
      modifies this
      ensures state == Run(old(state), ops) && me < |state.builders| && state.builders[me] == old(state.builders[me])
    {
      OthersLeave(state, ops, me);
      state := Run(state, ops);
    }

    method PutObject(me: nat, name: nat, fate: Fate) returns (ok: bool)
      requires me < |state.builders| && state.builders[me].phase == Uploading(name) && name < 2
      modifies this
      ensures state == Step(old(state), Send(me, fate))
      ensures ok == (fate.Answered? && Key(old(state.builders[me].build), name) !in old(state.objects))
      ensures me < |state.builders| && state.builders[me].build == old(state.builders[me].build)
      ensures ok ==> state.objects == old(state.objects)[Key(state.builders[me].build, name) := Body(state.builders[me].build, name)]
      ensures ok ==> state.builders[me].phase == (if name == 0 then Uploading(1) else Published)
      ensures !ok ==> state.builders[me].phase.Failed?
    {
      var b := state.builders[me].build;
      var key := Key(b, name);
      ok := fate.Answered? && key !in state.objects;
      var objects := state.objects;
      if (fate.Answered? || fate.landed) && key !in objects { objects := objects[key := Body(b, name)]; }
      var phase := if !ok then Failed else if name == 0 then Uploading(1) else Published;
      state := State(objects, state.builders[me := Builder(b, phase)]);
    }

    /**
     `stage`: list, then either leave a complete publication alone, refuse a partial one, or
     put both objects. `trace` is the run it amounts to, other builders' steps included.
     */
    method Stage(me: nat, others: nat -> seq<Op>, fates: nat -> Fate) returns (end: Phase, ghost trace: seq<Op>)
      requires me < |state.builders| && state.builders[me].phase.Listing?
      requires forall n, k :: 0 <= n && 0 <= k < |others(n)| ==> others(n)[k].Join? || others(n)[k].i != me
      modifies this
      ensures state == Run(old(state), trace) && me < |state.builders| && state.builders[me].phase == end
      ensures end in {Published, PartlyThere, Failed}
      ensures Undisturbed(others, fates) ==>
        var b, was := old(state.builders[me].build), old(state.objects);
        && (Key(b, 0) in was && Key(b, 1) in was ==> end == Published && state.objects == was)
        && ((Key(b, 0) in was) != (Key(b, 1) in was) ==> end == PartlyThere && state.objects == was)
        && (Key(b, 0) !in was && Key(b, 1) !in was ==>
              end == Published && state.objects == was[Key(b, 0) := b.archive][Key(b, 1) := b.checksum])
    {
      hide ArchiveKey;
      KeysDiffer(state.builders[me].build, state.builders[me].build);
      trace := others(0);
      Interleave(others(0), me);
      var names := [0, 1];
      var present := 0;
      var b := state.builders[me].build;
      if Key(b, 0) in state.objects { present := present + 1; }
      if Key(b, 1) in state.objects { present := present + 1; }
      end := Listed(state.objects, b);
      RunConcat(old(state), trace, [List(me)]);
      state := State(state.objects, state.builders[me := Builder(b, end)]);
      trace := trace + [List(me)];
      if present > 0 { return; }
      var n := 0;
      while n < |names|
        invariant 0 <= n <= 2 && state == Run(old(state), trace) && me < |state.builders|
        invariant state.builders[me].build == b && present == 0
        invariant Undisturbed(others, fates) ==>
          && Listed(old(state.objects), b).Uploading?
          && state.objects == (if n == 0 then old(state.objects) else if n == 1 then old(state.objects)[Key(b, 0) := b.archive]
                               else old(state.objects)[Key(b, 0) := b.archive][Key(b, 1) := b.checksum])
        invariant state.builders[me].phase == (if n < 2 then Uploading(n) else Published)
      {
        RunConcat(old(state), trace, others(n + 1));
        trace := trace + others(n + 1);
        Interleave(others(n + 1), me);
        RunConcat(old(state), trace, [Send(me, fates(n))]);
        trace := trace + [Send(me, fates(n))];
        var ok := PutObject(me, n, fates(n));
        if !ok { return Failed, trace; }
        n := n + 1;
      }
      end := Published;
    }
  }

  lemma {:induction false} OthersLeave(s: State, ops: seq<Op>, me: nat)
    requires me < |s.builders| && forall k :: 0 <= k < |ops| ==> ops[k].Join? || ops[k].i != me
    ensures me < |Run(s, ops).builders| && Run(s, ops).builders[me] == s.builders[me]
    decreases |ops|
  {
    if ops != [] { OthersLeave(Step(s, ops[0]), ops[1..], me); }
  }
}
