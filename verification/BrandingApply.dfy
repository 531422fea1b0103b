/** `prepare` and `apply` of Universal Login branding, with an Auth0 side that can fail at every request. */
module BrandingApply {
  import opened Prelude
  import opened JsonTree
  import opened JsonCanonical
  import opened JsonDigest
  import opened Branding
  import opened BrandingPreview

  /** The branding files: their contents as hashed, and what they load to. */
  datatype Source = Source(parts: seq<string>, loaded: Loaded)

  datatype Prepared = Prepared(changes: seq<Change>, sourceDigest: string, remoteDigest: string)

  function PreparedFrom(source: Source, r: Remote): Prepared
    requires ThemeId(r.theme).Ok?
  {
    Prepared(Changes(r, source.loaded), DigestInput(source.parts), RemoteDigest(r, source.loaded))
  }

  /**
   What befalls one change: the run is aborted before it; or the write is sent, answered or
   refused, and leaves the resource alone or with `stored`; then the readback answers or not.
   */
  datatype Attempt = Attempt(aborted: bool, refused: bool, stored: Option<Fields>, readable: bool)

  datatype Outcome =
    | Refused(why: string)
    | Finished(applied: seq<string>)
    | Stopped(applied: seq<string>, unknown: seq<string>, pending: seq<string>)

  function Put(r: Remote, c: Change, stored: Fields): Remote {
    match c
    case ThemeChange(_, _, _) => r.(theme := Some(stored))
    case TenantChange(_, _) => r.(tenant := stored)
    case PromptChange(p, l, _, _) => r.(prompts := r.prompts[PromptKey(p, l) := stored])
  }

  function After(r: Remote, c: Change, a: Attempt): Remote {
    match a.stored
    case None => r
    case Some(stored) => Put(r, c, stored)
  }

  function Names(cs: seq<Change>): seq<string> { seq(|cs|, i requires 0 <= i < |cs| => Resource(cs[i])) }

  predicate SameResource(c: Change, e: Change) {
    || (c.ThemeChange? && e.ThemeChange?)
    || (c.TenantChange? && e.TenantChange?)
    || (c.PromptChange? && e.PromptChange? && PromptKey(c.prompt, c.language) == PromptKey(e.prompt, e.language))
  }

  lemma PutElsewhere(r: Remote, c: Change, stored: Fields, e: Change)
    ensures Current(Put(r, c, stored), c) == Some(stored)
    ensures !SameResource(c, e) ==> Current(Put(r, c, stored), e) == Current(r, e)
  {
  }

  predicate AllApart(cs: seq<Change>) { forall i, j :: 0 <= i < j < |cs| ==> !SameResource(cs[i], cs[j]) }

  lemma {:induction false} PromptChangesApart(r: Remote, d: Loaded, n: nat)
    requires LoadedOk(d) && n <= |d.prompts|
    ensures var cs := PromptChanges(r, d, n);
      && AllApart(cs)
      && forall i :: 0 <= i < |cs| ==>
        cs[i].PromptChange? && exists k :: 0 <= k < n && cs[i].prompt == d.prompts[k].prompt && cs[i].language == d.prompts[k].language
  {
    hide PromptKey, DeepEqual, Document;
    if n > 0 {
      PromptChangesApart(r, d, n - 1);
      var cs, p := PromptChanges(r, d, n - 1), d.prompts[n - 1];
      forall i | 0 <= i < |cs| ensures PromptKey(cs[i].prompt, cs[i].language) != PromptKey(p.prompt, p.language) {
        if PromptKey(cs[i].prompt, cs[i].language) == PromptKey(p.prompt, p.language) {
          var k :| 0 <= k < n - 1 && cs[i].prompt == d.prompts[k].prompt && cs[i].language == d.prompts[k].language;
          KeysApart(cs[i].prompt, cs[i].language, p.prompt, p.language);
        }
      }
      assert PromptChanges(r, d, n) == cs + PromptStep(r, p);
    }
  }

  lemma ChangesApart(r: Remote, d: Loaded)
    requires LoadedOk(d) && ThemeId(r.theme).Ok?
    ensures AllApart(Changes(r, d))
  {
    hide DeepEqual, Project, PromptChanges, PromptKey, ThemeId, LoadedOk;
    PromptChangesApart(r, d, |d.prompts|);
  }

  // ---------- the report ----------

  /**
   The report names every planned resource once, in order; what it calls applied holds the
   desired managed state, what it calls pending holds the state it had, and at most one
   resource is unknown.
   */
  ghost predicate Truthful(o: Outcome, cs: seq<Change>, now: Remote)
    requires !o.Refused?
  {
    match o
    case Finished(applied) =>
      applied == Names(cs) && forall i :: 0 <= i < |cs| ==> Matches(cs[i], Current(now, cs[i]))
    case Stopped(applied, unknown, pending) =>
      && applied + unknown + pending == Names(cs) && |unknown| <= 1
      && |applied| + |unknown| + |pending| == |cs|
      && (forall i :: 0 <= i < |applied| ==> Matches(cs[i], Current(now, cs[i])))
      && (forall i :: |applied| + |unknown| <= i < |cs| ==> MatchesBefore(cs[i], Current(now, cs[i])))
  }

  /** No resource outside the plan is touched. */
  ghost predicate OnlyPlanned(cs: seq<Change>, before: Remote, now: Remote) {
    forall e: Change :: (forall i :: 0 <= i < |cs| ==> !SameResource(cs[i], e)) ==> Current(now, e) == Current(before, e)
  }

  /** What the report calls applied is held by the remote itself. */
  lemma AppliedIsHeld(now: Remote, d: Loaded, c: Change)
    ensures c.ThemeChange? && c.after == d.theme ==> (Matches(c, Current(now, c)) <==> ThemeHeld(now.theme, d))
    ensures c.TenantChange? && c.after == d.tenant ==> (Matches(c, Current(now, c)) <==> TenantHeld(now.tenant, d))
    ensures forall k :: 0 <= k < |d.prompts| && WritesPrompt(c, d.prompts[k]) ==>
      (Matches(c, Current(now, c)) <==> PromptHeld(now.prompts, d.prompts[k]))
  {
    hide DeepEqual, Project;
  }

  /** The report's names tell resources apart. */
  lemma NamesTell(c: Change, e: Change)
    requires c.PromptChange? ==> PromptPart(c.prompt)
    requires e.PromptChange? ==> PromptPart(e.prompt)
    ensures Resource(c) == Resource(e) <==>
      || (c.ThemeChange? && e.ThemeChange?) || (c.TenantChange? && e.TenantChange?)
      || (c.PromptChange? && e.PromptChange? && c.prompt == e.prompt && c.language == e.language)
  {
    hide PromptPart;
    if c.PromptChange? {
      var n := Resource(c);
      assert n[..7] == "prompt:" && n[7..] == PromptKey(c.prompt, c.language) && n[0] == 'p';
    }
    if e.PromptChange? {
      var n := Resource(e);
      assert n[..7] == "prompt:" && n[7..] == PromptKey(e.prompt, e.language) && n[0] == 'p';
    }
    if c.PromptChange? && e.PromptChange? && Resource(c) == Resource(e) {
      KeysApart(c.prompt, c.language, e.prompt, e.language);
    }
  }

  // ---------- after a finished run ----------

  lemma {:induction false} StepIsPlanned(r: Remote, d: Loaded, n: nat, k: nat)
    requires k < n <= |d.prompts|
    ensures forall c :: c in PromptStep(r, d.prompts[k]) ==> c in PromptChanges(r, d, n)
  {
    hide DeepEqual;
    if k < n - 1 { StepIsPlanned(r, d, n - 1, k); }
  }

  lemma PromptSettled(before: Remote, now: Remote, d: Loaded, k: nat)
    requires LoadedOk(d) && RemoteOk(before) && k < |d.prompts| && ThemeId(before.theme).Ok?
    requires OnlyPlanned(Changes(before, d), before, now)
    requires forall i :: 0 <= i < |Changes(before, d)| ==> Matches(Changes(before, d)[i], Current(now, Changes(before, d)[i]))
    ensures PromptStep(now, d.prompts[k]) == []
  {
    hide DeepEqual, Document, Project, ThemeId;
    var cs, p := Changes(before, d), d.prompts[k];
    var text := PromptText(before, p);
    var e := PromptChange(p.prompt, p.language, text, p.text);
    StepIsPlanned(before, d, |d.prompts|, k);
    if PromptStep(before, p) != [] {
      assert e in PromptStep(before, p);
      assert e in cs;
    } else {
      OtherPrompts(before, d, |d.prompts|, k);
      assert forall i :: 0 <= i < |cs| && cs[i].PromptChange? ==> cs[i] in PromptChanges(before, d, |d.prompts|);
      assert forall i :: 0 <= i < |cs| ==> !SameResource(cs[i], e);
      assert Current(now, e) == Current(before, e);
    }
  }

  /** The change is about another prompt than `p`. */
  predicate Elsewhere(c: Change, p: Prompt) {
    c.PromptChange? ==> PromptKey(c.prompt, c.language) != PromptKey(p.prompt, p.language)
  }

  lemma PromptsDiffer(r: Remote, d: Loaded, n: nat, k: nat)
    requires LoadedOk(d) && n < |d.prompts| && k < |d.prompts| && PromptStep(r, d.prompts[k]) == []
    ensures forall c :: c in PromptStep(r, d.prompts[n]) ==> Elsewhere(c, d.prompts[k])
  {
    hide DeepEqual, Document, PromptKey;
    var p, q := d.prompts[k], d.prompts[n];
    if k != n && PromptKey(p.prompt, p.language) == PromptKey(q.prompt, q.language) {
      KeysApart(p.prompt, p.language, q.prompt, q.language);
      assert false;
    }
  }

  /** A prompt the plan leaves out is not some other change's resource. */
  lemma {:induction false} OtherPrompts(r: Remote, d: Loaded, n: nat, k: nat)
    requires LoadedOk(d) && n <= |d.prompts| && k < |d.prompts|
    requires PromptStep(r, d.prompts[k]) == []
    ensures forall c :: c in PromptChanges(r, d, n) ==> Elsewhere(c, d.prompts[k])
  {
    hide PromptStep, Elsewhere, LoadedOk;
    if n > 0 {
      OtherPrompts(r, d, n - 1, k);
      PromptsDiffer(r, d, n - 1, k);
    }
  }

  lemma HeldIsNoStep(r: Remote, p: Prompt)
    ensures PromptStep(r, p) == [] <==> PromptHeld(r.prompts, p)
  {
    hide DeepEqual;
  }

  /** After a finished run everything is as the files say, and nothing is left to change. */
  lemma FinishedRunSettles(before: Remote, now: Remote, d: Loaded)
    requires LoadedOk(d) && RemoteOk(before) && ThemeId(before.theme).Ok?
    requires OnlyPlanned(Changes(before, d), before, now)
    requires forall i :: 0 <= i < |Changes(before, d)| ==> Matches(Changes(before, d)[i], Current(now, Changes(before, d)[i]))
    ensures InState(now, d)
    ensures ThemeId(now.theme).Ok? ==> Changes(now, d) == []
  {
    hide DeepEqual, Document, Project, ThemeId, PromptChanges, PromptText, PromptStep, PromptKey, PromptHeld;
    var cs := Changes(before, d);
    forall k | 0 <= k < |d.prompts| ensures PromptHeld(now.prompts, d.prompts[k]) {
      PromptSettled(before, now, d, k);
      HeldIsNoStep(now, d.prompts[k]);
    }
    PromptChangesApart(before, d, |d.prompts|);
    var theme, tenant := ThemeChanges(before, d), TenantChanges(before, d);
    if theme == [] {
      assert Current(now, ThemeChange(None, None, d.theme)) == before.theme;
    } else {
      assert theme[0] == cs[0];
    }
    if tenant == [] {
      assert Current(now, TenantChange([], d.tenant)) == Some(before.tenant);
    } else {
      assert tenant[0] == cs[|theme|];
    }
    if ThemeId(now.theme).Ok? { NoChangesExactly(now, d); }
  }

  // ---------- what is written is what was previewed ----------

  /** Between preview and apply nothing relevant changed, so `apply` sends the previewed writes. */
  lemma AppliesThePreview(shown: Source, seen: Remote, source: Source, r: Remote)
    requires Accepted(seen) && Accepted(r) && LoadedOk(source.loaded) && !Exposed(source.loaded)
    requires AllNulFree(shown.parts) && AllNulFree(source.parts)
    requires shown.parts == source.parts ==> shown.loaded == source.loaded
    requires PreparedFrom(shown, seen).sourceDigest == PreparedFrom(source, r).sourceDigest
    requires PreparedFrom(shown, seen).remoteDigest == PreparedFrom(source, r).remoteDigest
    ensures Writes(PreparedFrom(shown, seen).changes) == Writes(PreparedFrom(source, r).changes)
  {
    hide RemoteDigest, Changes, Writes, LoadedOk, Exposed, ThemeId;
    DigestTells(shown.parts, source.parts);
    PreviewHolds(seen, r, source.loaded);
  }

  // ---------- a server that takes what it is sent ----------

  ghost predicate Honoured(c: Change, held: Option<Fields>, a: Attempt) {
    && !a.aborted && !a.refused && a.readable && a.stored.Some?
    && exists how :: a.stored.value == Merge(how, if held.Some? then held.value else [], c.after)
                     && (c.PromptChange? ==> how.Replacing?)
  }

  lemma HonouredMatches(c: Change, held: Option<Fields>, a: Attempt)
    requires Honoured(c, held, a) && Document(c.after)
    ensures Matches(c, a.stored)
  {
    var remote := if held.Some? then held.value else [];
    var how :| a.stored.value == Merge(how, remote, c.after) && (c.PromptChange? ==> how.Replacing?);
    hide DeepEqual, Project, DeepMerge;
    ProjectRecoversDesired(how, remote, c.after);
    SelfAlike(c.after);
  }

  // ---------- midway through a run ----------

  /** Before change `n`: resources not yet written are as they were. */
  ghost predicate Midway(cs: seq<Change>, before: Remote, now: Remote, n: nat) {
    && OnlyPlanned(cs, before, now)
    && forall i :: n <= i < |cs| ==> Current(now, cs[i]) == Current(before, cs[i])
  }

  lemma WriteKeeps(cs: seq<Change>, before: Remote, start: Remote, n: nat, a: Attempt)
    requires n < |cs| && AllApart(cs) && Midway(cs, before, start, n)
    ensures var now := After(start, cs[n], a);
      && Midway(cs, before, now, n + 1)
      && (forall i :: 0 <= i < n ==> Current(now, cs[i]) == Current(start, cs[i]))
      && (a.stored.Some? ==> Current(now, cs[n]) == a.stored)
  {
    var now := After(start, cs[n], a);
    hide Current, SameResource, Put;
    if a.stored.Some? {
      forall e { PutElsewhere(start, cs[n], a.stored.value, e); }
      forall i | 0 <= i < |cs| && i != n ensures !SameResource(cs[n], cs[i]) { SameEitherWay(cs[n], cs[i]); }
    }
  }

  lemma SameEitherWay(c: Change, e: Change)
    ensures SameResource(c, e) <==> SameResource(e, c)
  {
  }

  lemma StillBefore(cs: seq<Change>, before: Remote, now: Remote, n: nat)
    requires Midway(cs, before, now, n) && forall i :: 0 <= i < |cs| ==> Needed(before, cs[i])
    ensures forall i :: n <= i < |cs| ==> MatchesBefore(cs[i], Current(now, cs[i]))
  {
    hide MatchesBefore, Matches, Current, OnlyPlanned, Document;
  }

  lemma NamesInParts(cs: seq<Change>, n: nat)
    requires n < |cs|
    ensures Names(cs) == Names(cs[..n]) + ([Resource(cs[n])] + Names(cs[n + 1..]))
    ensures Names(cs) == (Names(cs[..n]) + [Resource(cs[n])]) + Names(cs[n + 1..])
    ensures Names(cs[..n + 1]) == Names(cs[..n]) + [Resource(cs[n])]
    ensures |Names(cs[..n])| == n && |Names(cs[n + 1..])| == |cs| - n - 1
  {
    hide Resource;
  }

  /** The first `n` changes are in place and the rest of the run has not begun. */
  ghost predicate Reached(cs: seq<Change>, before: Remote, now: Remote, n: nat) {
    && n <= |cs| && AllApart(cs) && Midway(cs, before, now, n)
    && (forall i :: 0 <= i < |cs| ==> Needed(before, cs[i]))
    && forall i :: 0 <= i < n ==> Matches(cs[i], Current(now, cs[i]))
  }

  lemma RunBegins(cs: seq<Change>, before: Remote)
    requires AllApart(cs) && forall i :: 0 <= i < |cs| ==> Needed(before, cs[i])
    ensures Names(cs[..0]) == [] && Reached(cs, before, before, 0)
  {
  }

  lemma StopsBeforeWrite(cs: seq<Change>, before: Remote, now: Remote, n: nat)
    requires n < |cs| && Reached(cs, before, now, n)
    ensures Truthful(Stopped(Names(cs[..n]), [], [Resource(cs[n])] + Names(cs[n + 1..])), cs, now)
    ensures OnlyPlanned(cs, before, now)
  {
    hide MatchesBefore, Matches, Current, OnlyPlanned, Needed, Resource, Names, AllApart;
    StillBefore(cs, before, now, n);
    NamesInParts(cs, n);
  }

  /** The report of a run that stopped on change `n`, once it has been written. */
  function StoppedOn(cs: seq<Change>, n: nat, landed: bool, untouched: bool): Outcome
    requires n < |cs|
  {
    Stopped(Names(cs[..n]) + (if landed then [Resource(cs[n])] else []),
            if landed || untouched then [] else [Resource(cs[n])],
            (if untouched then [Resource(cs[n])] else []) + Names(cs[n + 1..]))
  }

  lemma StopsAfterWrite(
    cs: seq<Change>, before: Remote, start: Remote, n: nat, a: Attempt, landed: bool, untouched: bool)
    requires n < |cs| && Reached(cs, before, start, n) && !(landed && untouched)
    requires landed ==> Matches(cs[n], Current(After(start, cs[n], a), cs[n]))
    requires untouched ==> MatchesBefore(cs[n], Current(After(start, cs[n], a), cs[n]))
    ensures var now := After(start, cs[n], a);
      Truthful(StoppedOn(cs, n, landed, untouched), cs, now) && OnlyPlanned(cs, before, now)
  {
    hide MatchesBefore, Matches, Current, OnlyPlanned, Needed, Resource, Names, After;
    WriteKeeps(cs, before, start, n, a);
    StillBefore(cs, before, After(start, cs[n], a), n + 1);
    NamesInParts(cs, n);
  }

  lemma RunGoesOn(cs: seq<Change>, before: Remote, start: Remote, n: nat, a: Attempt)
    requires n < |cs| && Reached(cs, before, start, n)
    requires Matches(cs[n], Current(After(start, cs[n], a), cs[n]))
    ensures Reached(cs, before, After(start, cs[n], a), n + 1)
    ensures Names(cs[..n + 1]) == Names(cs[..n]) + [Resource(cs[n])]
  {
    hide MatchesBefore, Matches, Current, OnlyPlanned, Needed, Resource, Names, After, AllApart;
    WriteKeeps(cs, before, start, n, a);
    NamesInParts(cs, n);
  }

  lemma HonouredRunGoesOn(cs: seq<Change>, before: Remote, start: Remote, n: nat, a: Attempt)
    requires n < |cs| && Reached(cs, before, start, n) && Honoured(cs[n], Current(before, cs[n]), a)
    ensures Matches(cs[n], Current(After(start, cs[n], a), cs[n]))
  {
    hide Matches, Document, MatchesBefore, Honoured, OnlyPlanned, SameResource;
    assert a.stored.Some? by { StoredWhenHonoured(cs[n], Current(before, cs[n]), a); }
    HonouredMatches(cs[n], Current(before, cs[n]), a);
    PutElsewhere(start, cs[n], a.stored.value, cs[n]);
  }

  lemma StoredWhenHonoured(c: Change, held: Option<Fields>, a: Attempt)
    requires Honoured(c, held, a)
    ensures !a.aborted && !a.refused && a.readable && a.stored.Some?
  {
  }

  lemma RunEnds(before: Remote, now: Remote, d: Loaded)
    requires LoadedOk(d) && RemoteOk(before) && ThemeId(before.theme).Ok?
    requires var cs := Changes(before, d); Reached(cs, before, now, |cs|)
    ensures var cs := Changes(before, d); Truthful(Finished(Names(cs[..|cs|])), cs, now) && OnlyPlanned(cs, before, now)
    ensures InState(now, d)
  {
    hide Changes, MatchesBefore, Matches, Current, OnlyPlanned, Needed, ThemeId, LoadedOk, RemoteOk, Names, InState;
    var cs := Changes(before, d);
    assert cs[..|cs|] == cs;
    FinishedRunSettles(before, now, d);
  }

  // ---------- the program ----------

  class Gateway {
    var theme: Option<Fields>
    var tenant: Fields
    var prompts: map<string, Fields>

    function State(): Remote
      reads this
    {
      Remote(theme, tenant, prompts)
    }

    method Write(c: Change, a: Attempt) returns (accepted: bool)
      modifies this
      ensures accepted == !a.refused && State() == After(old(State()), c, a)
    {
      if a.stored.Some? {
        match c {
          case ThemeChange(_, _, _) => theme := a.stored;
          case TenantChange(_, _) => tenant := a.stored.value;
          case PromptChange(p, l, _, _) => prompts := prompts[PromptKey(p, l) := a.stored.value];
        }
      }
      accepted := !a.refused;
    }

    method Read(c: Change, a: Attempt) returns (readback: Result<Option<Fields>, string>)
      ensures readback == if a.readable then Ok(Current(State(), c)) else Err("the readback failed")
    {
      if !a.readable { return Err("the readback failed"); }
      match c {
        case ThemeChange(_, _, _) => readback := Ok(theme);
        case TenantChange(_, _) => readback := Ok(Some(tenant));
        case PromptChange(p, l, _, _) =>
          var key := PromptKey(p, l);
          readback := Ok(Some(if key in prompts then prompts[key] else []));
      }
    }
  }

  /** The loop of `changesFor` over the prompts. */
  method PromptChangesFor(r: Remote, d: Loaded) returns (changes: seq<Change>)
    ensures changes == PromptChanges(r, d, |d.prompts|)
  {
    hide DeepEqual, PromptText, PromptChanges;
    NoPromptsYet(r, d);
    changes := [];
    var n := 0;
    while n < |d.prompts|
      invariant 0 <= n <= |d.prompts| && changes == PromptChanges(r, d, n)
    {
      var p := d.prompts[n];
      var before := PromptText(r, p);
      PromptsNext(r, d, n);
      if !DeepEqual(Obj(before), Obj(p.text)) {
        changes := changes + [PromptChange(p.prompt, p.language, before, p.text)];
      }
      n := n + 1;
    }
  }

  lemma NoPromptsYet(r: Remote, d: Loaded)
    ensures PromptChanges(r, d, 0) == []
  {
  }

  /** `changesFor`: the theme, then the tenant, then each prompt in order. */
  method ChangesFor(r: Remote, d: Loaded) returns (changes: seq<Change>)
    requires ThemeId(r.theme).Ok?
    ensures changes == Changes(r, d)
    ensures LoadedOk(d) ==> Complete(changes, r, d)
  {
    hide DeepEqual, Project, ThemeId, LoadedOk, Complete, PromptChanges;
    changes := [];
    var managedTheme := ManagedTheme(r.theme, d.theme);
    if managedTheme.None? || !DeepEqual(Obj(managedTheme.value), Obj(d.theme)) {
      changes := changes + [ThemeChange(ThemeId(r.theme).value, managedTheme, d.theme)];
    }
    assert changes == ThemeChanges(r, d);
    var managedTenant := Project(r.tenant, d.tenant);
    if !DeepEqual(Obj(managedTenant), Obj(d.tenant)) {
      changes := changes + [TenantChange(managedTenant, d.tenant)];
    }
    assert changes == ThemeChanges(r, d) + TenantChanges(r, d);
    var prompts := PromptChangesFor(r, d);
    changes := changes + prompts;
    if LoadedOk(d) { ChangesAreComplete(r, d); }
  }

  lemma PromptsNext(r: Remote, d: Loaded, n: nat)
    requires n < |d.prompts|
    ensures PromptChanges(r, d, n + 1) == PromptChanges(r, d, n) + PromptStep(r, d.prompts[n])
  {
  }

  class UniversalLogin {
    const gateway: Gateway

    constructor (gateway: Gateway)
      ensures this.gateway == gateway
    {
      this.gateway := gateway;
    }

    method Prepare(source: Source) returns (prepared: Result<Prepared, string>)
      ensures prepared.Ok? <==> ThemeId(gateway.theme).Ok?
      ensures prepared.Ok? ==> prepared.value == PreparedFrom(source, gateway.State())
    {
      var remote := gateway.State();
      match ThemeId(remote.theme) {
        case Err(why) => return Err(why);
        case Ok(_) =>
          var changes := ChangesFor(remote, source.loaded);
          return Ok(Prepared(changes, DigestInput(source.parts), RemoteDigest(remote, source.loaded)));
      }
    }

    /** What a refused write did to its resource, as far as a readback shows. */
    method ClassifyAfterFailedWrite(c: Change, a: Attempt) returns (applied: bool, pending: bool)
      ensures applied ==> Matches(c, Current(gateway.State(), c))
      ensures pending ==> MatchesBefore(c, Current(gateway.State(), c))
      ensures !(applied && pending)
      ensures !applied && !pending ==>
        !a.readable || !(Matches(c, Current(gateway.State(), c)) || MatchesBefore(c, Current(gateway.State(), c)))
    {
      var readback := gateway.Read(c, a);
      match readback {
        case Err(_) => return false, false;
        case Ok(held) =>
          if Matches(c, held) { return true, false; }
          return false, MatchesBefore(c, held);
      }
    }

    method Apply(source: Source, prepared: Prepared, attempts: nat -> Attempt) returns (o: Outcome)
      requires RemoteOk(gateway.State()) && LoadedOk(source.loaded)
      modifies gateway
      ensures o.Refused? <==>
        (ThemeId(old(gateway.theme)).Err?
         || prepared.sourceDigest != DigestInput(source.parts)
         || prepared.remoteDigest != RemoteDigest(old(gateway.State()), source.loaded))
      ensures o.Refused? ==> gateway.State() == old(gateway.State())
      ensures !o.Refused? ==>
        var cs := Changes(old(gateway.State()), source.loaded);
        && Truthful(o, cs, gateway.State())
        && OnlyPlanned(cs, old(gateway.State()), gateway.State())
        && (o.Finished? ==> InState(gateway.State(), source.loaded))
        && ((forall i :: 0 <= i < |cs| ==> Honoured(cs[i], Current(old(gateway.State()), cs[i]), attempts(i)))
            ==> o.Finished?)
    {
      hide Changes, RemoteDigest, ThemeId, LoadedOk, RemoteOk, Matches, MatchesBefore, Current, Names, Reached, Truthful,
        OnlyPlanned, Honoured, After, AllApart, InState;
      ghost var before := gateway.State();
      var current := Prepare(source);
      if current.Err? { return Refused(current.error); }
      if current.value.sourceDigest != prepared.sourceDigest {
        return Refused("local branding files changed since preview; preview again before applying");
      }
      if current.value.remoteDigest != prepared.remoteDigest {
        return Refused("Auth0 state changed since preview; preview again before applying");
      }
      var cs := current.value.changes;
      ChangesAreNeeded(before, source.loaded);
      ChangesApart(before, source.loaded);
      RunBegins(cs, before);
      var applied := [];
      var index := 0;
      while index < |cs|
        invariant 0 <= index <= |cs| && applied == Names(cs[..index])
        invariant Reached(cs, before, gateway.State(), index)
      {
        var change, a := cs[index], attempts(index);
        var later := Names(cs[index + 1..]);
        ghost var start := gateway.State();
        if Honoured(change, Current(before, change), a) {
          StoredWhenHonoured(change, Current(before, change), a);
          HonouredRunGoesOn(cs, before, start, index, a);
        }
        if a.aborted {
          StopsBeforeWrite(cs, before, start, index);
          return Stopped(applied, [], [Resource(change)] + later);
        }
        var accepted := gateway.Write(change, a);
        if !accepted {
          var landed, untouched := ClassifyAfterFailedWrite(change, a);
          StopsAfterWrite(cs, before, start, index, a, landed, untouched);
          assert applied + [] == applied && [] + later == later;
          if landed { applied := applied + [Resource(change)]; }
          return Stopped(applied, if !landed && !untouched then [Resource(change)] else [],
                         if untouched then [Resource(change)] + later else later);
        }
        var readback := gateway.Read(change, a);
        if readback.Err? || !Matches(change, readback.value) {
          StopsAfterWrite(cs, before, start, index, a, false, false);
          assert applied + [] == applied && [] + later == later;
          return Stopped(applied, [Resource(change)], later);
        }
        RunGoesOn(cs, before, start, index, a);
        applied := applied + [Resource(change)];
        index := index + 1;
      }
      RunEnds(before, gateway.State(), source.loaded);
      o := Finished(applied);
    }
  }
}
