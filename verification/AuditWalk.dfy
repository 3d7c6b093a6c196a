/** The walk over the commit chain, frame by frame, and what it amounts to. */
module AuditWalk {
  import opened Leases
  import opened LeaseFrames
  import opened AuditFrames
  import opened AuditChain

  /** The walk's variables; `ok` turns false where the original raises. */
  datatype Walk = Walk(ok: bool, doubts: set<Doubt>, versions: map<string, int>, ids: set<string>)

  function Larger(x: int, y: int): int { if x >= y then x else y }

  /** The versions dictionary after a frame's recorded versions are taken in. */
  function Merge(versions: map<string, int>, recorded: map<string, int>): map<string, int> {
    map ref | ref in versions.Keys + recorded.Keys ::
      if ref in recorded then Larger(recorded[ref], if ref in versions then versions[ref] else 0) else versions[ref]
  }

  predicate Regresses(versions: map<string, int>, recorded: map<string, int>) {
    exists ref :: ref in recorded && ref in versions && recorded[ref] < versions[ref]
  }

  method MergeVersions(versions: map<string, int>, recorded: map<string, int>)
    returns (regressed: bool, versions': map<string, int>)
    ensures regressed <==> Regresses(versions, recorded)
    ensures versions' == Merge(versions, recorded)
  {
    regressed, versions' := false, versions;
    var unread := recorded.Keys;
    while unread != {}
      invariant unread <= recorded.Keys
      invariant regressed <==> exists ref :: ref in recorded.Keys - unread && ref in versions && recorded[ref] < versions[ref]
      invariant versions'.Keys == versions.Keys + (recorded.Keys - unread)
      invariant forall ref :: ref in versions' ==>
                  versions'[ref] == if ref in recorded && ref !in unread then Merge(versions, recorded)[ref] else versions[ref]
    {
      var ref :| ref in unread;
      if ref in versions' && recorded[ref] < versions'[ref] {
        regressed := true;
      }
      versions' := versions'[ref := Larger(recorded[ref], if ref in versions' then versions'[ref] else 0)];
      unread := unread - {ref};
    }
  }

  /** What raises at once: a foreign journal, or a frame that does not succeed the one before. */
  predicate Orderly(before: Chain, f: AuditFrame, journal: string) {
    f.contract.journal == journal && (before != [] ==> Succeeds(before[|before| - 1], f))
  }

  /** The doubts one frame raises by itself and next to its predecessor. */
  function FrameDoubts(before: Chain, f: AuditFrame, counted: bool, s: Scope): set<Doubt> {
    (if f.contract.atomic && f.body.state.complete && !(counted && Bounded(f.body)) then {} else {NonAtomicOrBoundary})
    + (if before != [] && before[|before| - 1].body.session != f.body.session then {SessionBoundary} else {})
    + (if before != [] && !Projected(s) && !Chained(before[|before| - 1], f) then {BrokenUnfilteredChain} else {})
  }

  function ReadVersions(versions: map<string, int>, f: AuditFrame, counted: bool): map<string, int> {
    if counted then AfterEvents(versions, f.events) else versions
  }

  /** The doubts its events and recorded versions raise. */
  function VersionDoubts(versions: map<string, int>, f: AuditFrame, counted: bool): set<Doubt> {
    (if counted && !ContinuesSoFar(f.events, versions) then {NonContinuousLeaseVersion} else {})
    + (if Regresses(ReadVersions(versions, f, counted), f.contract.versions) then {RegressedLeaseVersion} else {})
  }

  /** One frame of the walk. */
  function Visit(was: Walk, before: Chain, f: AuditFrame, counted: bool, journal: string, s: Scope): Walk {
    Walk(was.ok && Orderly(before, f, journal) && (counted ==> FreshSoFar(f.events, was.ids)),
         was.doubts + FrameDoubts(before, f, counted, s) + VersionDoubts(was.versions, f, counted),
         Merge(ReadVersions(was.versions, f, counted), f.contract.versions),
         if counted then was.ids + IdsOf(f.events) else was.ids)
  }

  function Walked(chain: Chain, anchored: bool, start: map<string, int>, journal: string, s: Scope): Walk {
    if chain == [] then Walk(true, {}, start, {})
    else
      var init, f := chain[..|chain| - 1], chain[|chain| - 1];
      Visit(Walked(init, anchored, start, journal, s), init, f, Counted(chain, anchored, |chain| - 1), journal, s)
  }

  lemma {:induction false} FailureStays(chain: Chain, anchored: bool, start: map<string, int>, journal: string, s: Scope, k: nat)
    requires k <= |chain| && !Walked(chain[..k], anchored, start, journal, s).ok
    ensures !Walked(chain, anchored, start, journal, s).ok
    decreases |chain|
  {
    if k < |chain| {
      assert chain[..|chain| - 1][..k] == chain[..k];
      FailureStays(chain[..|chain| - 1], anchored, start, journal, s, k);
    } else {
      assert chain[..k] == chain;
    }
  }

  lemma FrameVisited(chain: Chain, k: nat, anchored: bool, start: map<string, int>, journal: string, s: Scope)
    requires k < |chain|
    ensures Walked(chain[..k + 1], anchored, start, journal, s)
         == Visit(Walked(chain[..k], anchored, start, journal, s), chain[..k], chain[k], k == 0 ==> !anchored, journal, s)
  {
    assert chain[..k + 1][..k] == chain[..k];
  }

  method FindFrameDoubts(before: Chain, f: AuditFrame, counted: bool, s: Scope) returns (doubts: set<Doubt>)
    ensures doubts == FrameDoubts(before, f, counted, s)
  {
    doubts := {};
    if !f.contract.atomic || !f.body.state.complete || (counted && Bounded(f.body)) {
      doubts := doubts + {NonAtomicOrBoundary};
    }
    if before != [] {
      var previous := before[|before| - 1];
      if previous.body.session != f.body.session {
        doubts := doubts + {SessionBoundary};
      }
      if !Projected(s) && (f.contract.commit != previous.contract.commit + 1 || f.body.before != previous.body.after) {
        doubts := doubts + {BrokenUnfilteredChain};
      }
    }
  }

  method ReadVersioned(f: AuditFrame, counted: bool, versions: map<string, int>, ids: set<string>)
    returns (ok: bool, doubts: set<Doubt>, versions': map<string, int>, ids': set<string>)
    ensures ok <==> (counted ==> FreshSoFar(f.events, ids))
    ensures ok ==> doubts == VersionDoubts(versions, f, counted)
    ensures ok ==> versions' == Merge(ReadVersions(versions, f, counted), f.contract.versions)
    ensures ok ==> ids' == if counted then ids + IdsOf(f.events) else ids
  {
    ok, doubts, versions', ids' := true, {}, versions, ids;
    if counted {
      var continuous;
      ok, continuous, versions', ids' := ReadEvents(f.events, versions', ids');
      if !ok {
        return;
      }
      if !continuous {
        doubts := doubts + {NonContinuousLeaseVersion};
      }
    }
    var regressed;
    regressed, versions' := MergeVersions(versions', f.contract.versions);
    if regressed {
      doubts := doubts + {RegressedLeaseVersion};
    }
  }

  method VisitFrame(was: Walk, before: Chain, f: AuditFrame, counted: bool, journal: string, s: Scope) returns (now: Walk)
    requires was.ok
    ensures now.ok <==> Visit(was, before, f, counted, journal, s).ok
    ensures now.ok ==> now == Visit(was, before, f, counted, journal, s)
  {
    if !Orderly(before, f, journal) {
      return was.(ok := false);
    }
    var doubts := FindFrameDoubts(before, f, counted, s);
    var ok, more, versions, ids := ReadVersioned(f, counted, was.versions, was.ids);
    now := Walk(ok, was.doubts + doubts + more, versions, ids);
  }

  method WalkChain(chain: Chain, anchored: bool, start: map<string, int>, journal: string, s: Scope) returns (walk: Walk)
    ensures walk.ok <==> Walked(chain, anchored, start, journal, s).ok
    ensures walk.ok ==> walk == Walked(chain, anchored, start, journal, s)
  {
    walk := Walk(true, {}, start, {});
    var k := 0;
    while k < |chain|
      invariant 0 <= k <= |chain|
      invariant walk.ok && walk == Walked(chain[..k], anchored, start, journal, s)
    {
      FrameVisited(chain, k, anchored, start, journal, s);
      walk := VisitFrame(walk, chain[..k], chain[k], k == 0 ==> !anchored, journal, s);
      if !walk.ok {
        FailureStays(chain, anchored, start, journal, s, k + 1);
        return;
      }
      k := k + 1;
    }
    assert chain[..k] == chain;
  }

  // ------------------------------------------------------ what the walk means

  /** Each event carries the version its frame records, and recorded versions are positive. */
  predicate Sane(f: AuditFrame) {
    && Versioned(f.events, f.contract.versions)
    && forall ref :: ref in f.contract.versions ==> f.contract.versions[ref] > 0
  }

  lemma EventsMeanContinue(before: Chain, f: AuditFrame, versions: map<string, int>)
    requires Tracks(versions, before) && Sane(f)
    ensures ContinuesSoFar(f.events, versions) <==> EventsContinue(before, f)
  {
    ContinuesIff(f.events, versions, f.contract.versions);
    assert forall i :: 0 <= i < |f.events| ==>
             Latest(before, RefOf(f.events[i])) == if RefOf(f.events[i]) in versions then Some(versions[RefOf(f.events[i])]) else None;
  }

  /** Where the events continue, reading them changes nothing the recorded versions do not say again. */
  lemma ReadTracks(before: Chain, f: AuditFrame, counted: bool, versions: map<string, int>, ref: string)
    requires Tracks(versions, before) && Sane(f) && (counted ==> EventsContinue(before, f))
    ensures var read := ReadVersions(versions, f, counted);
            && (ref in read && ref !in f.contract.versions ==> Latest(before, ref) == Some(read[ref]))
            && (ref !in read ==> Latest(before, ref).None?)
            && (ref in f.contract.versions && ref in read && f.contract.versions[ref] < read[ref] <==>
                ref in f.contract.versions && Latest(before, ref).Some? && f.contract.versions[ref] < Latest(before, ref).value)
  {
    assert Latest(before, ref) == if ref in versions then Some(versions[ref]) else None;
    if counted {
      AfterEventsHas(versions, f.events, ref);
    }
  }

  lemma VersionsTracked(before: Chain, f: AuditFrame, counted: bool, versions: map<string, int>)
    requires Tracks(versions, before) && Sane(f)
    ensures VersionDoubts(versions, f, counted) == {} <==> (counted ==> EventsContinue(before, f)) && NoRegress(before, f)
    ensures VersionDoubts(versions, f, counted) == {} ==>
              Tracks(Merge(ReadVersions(versions, f, counted), f.contract.versions), before + [f])
  {
    EventsMeanContinue(before, f, versions);
    if counted ==> EventsContinue(before, f) {
      var read := ReadVersions(versions, f, counted);
      forall ref
        ensures ref in f.contract.versions && ref in read && f.contract.versions[ref] < read[ref] <==>
                ref in f.contract.versions && Latest(before, ref).Some? && f.contract.versions[ref] < Latest(before, ref).value
      {
        ReadTracks(before, f, counted, versions, ref);
      }
      assert Regresses(read, f.contract.versions) <==> !NoRegress(before, f);
      if !Regresses(read, f.contract.versions) {
        var merged := Merge(read, f.contract.versions);
        assert (before + [f])[..|before|] == before;
        forall ref ensures Latest(before + [f], ref) == if ref in merged then Some(merged[ref]) else None {
          ReadTracks(before, f, counted, versions, ref);
        }
      }
    }
  }

  lemma SmoothNext(chain: Chain, anchored: bool)
    requires chain != []
    ensures Smooth(chain, anchored) <==> Smooth(chain[..|chain| - 1], anchored) && SmoothAt(chain, anchored, |chain| - 1)
  {
    var init := chain[..|chain| - 1];
    forall k | 0 <= k < |init| ensures SmoothAt(init, anchored, k) <==> SmoothAt(chain, anchored, k) {
      assert init[..k] == chain[..k] && init[k] == chain[k];
    }
  }

  function StartVersions(chain: Chain, anchored: bool): map<string, int> {
    if anchored && chain != [] then chain[0].contract.versions else map[]
  }

  predicate VersionsTrusted(doubts: set<Doubt>) {
    NonContinuousLeaseVersion !in doubts && RegressedLeaseVersion !in doubts
  }

  lemma TrustedNext(was: Walk, before: Chain, f: AuditFrame, counted: bool, journal: string, s: Scope)
    ensures VersionsTrusted(Visit(was, before, f, counted, journal, s).doubts) <==>
            VersionsTrusted(was.doubts) && VersionDoubts(was.versions, f, counted) == {}
  {
  }

  lemma VersionsStep(chain: Chain, anchored: bool, was: Walk, journal: string, s: Scope)
    requires chain != [] && Sane(chain[|chain| - 1])
    requires VersionsTrusted(was.doubts) <==> Smooth(chain[..|chain| - 1], anchored)
    requires Smooth(chain[..|chain| - 1], anchored) ==> Tracks(was.versions, chain[..|chain| - 1])
    ensures var last := |chain| - 1;
            var w := Visit(was, chain[..last], chain[last], Counted(chain, anchored, last), journal, s);
            && (VersionsTrusted(w.doubts) <==> Smooth(chain, anchored))
            && (Smooth(chain, anchored) ==> Tracks(w.versions, chain))
  {
    var init, f := chain[..|chain| - 1], chain[|chain| - 1];
    var counted := Counted(chain, anchored, |chain| - 1);
    SmoothNext(chain, anchored);
    TrustedNext(was, init, f, counted, journal, s);
    assert chain == init + [f];
    if Smooth(init, anchored) { VersionsTracked(init, f, counted, was.versions); }
  }

  /** No version was doubted if and only if versions are smooth, and then the dictionary tracks the chain. */
  lemma {:induction false} VersionsMean(chain: Chain, anchored: bool, start: map<string, int>, journal: string, s: Scope)
    requires chain != [] && start == StartVersions(chain, anchored)
    requires forall k :: 0 <= k < |chain| ==> Sane(chain[k])
    ensures var w := Walked(chain, anchored, start, journal, s);
            && (VersionsTrusted(w.doubts) <==> Smooth(chain, anchored))
            && (Smooth(chain, anchored) ==> Tracks(w.versions, chain))
    decreases |chain|
  {
    var init := chain[..|chain| - 1];
    if init == [] && anchored {
      FirstFrame(chain, start, journal, s);
    } else {
      if init != [] { VersionsMean(init, anchored, start, journal, s); }
      VersionsStep(chain, anchored, Walked(init, anchored, start, journal, s), journal, s);
    }
  }

  /** The anchor is the start of every version history. */
  lemma FirstFrame(chain: Chain, start: map<string, int>, journal: string, s: Scope)
    requires |chain| == 1 && start == chain[0].contract.versions && Sane(chain[0])
    ensures var w := Walked(chain, true, start, journal, s);
            Smooth(chain, true) && VersionsTrusted(w.doubts) && Tracks(w.versions, chain)
  {
    assert chain[..0] == [];
    assert Merge(start, start) == start && !Regresses(start, start);
    assert Tracks(start, chain);
    assert SmoothAt(chain, true, 0);
  }

  lemma CountedInit(chain: Chain, anchored: bool)
    requires chain != []
    ensures var init := chain[..|chain| - 1];
            forall k :: 0 <= k < |init| ==> init[k] == chain[k] && (Counted(init, anchored, k) <==> Counted(chain, anchored, k))
  {
  }

  ghost predicate CountedIn(chain: Chain, anchored: bool, id: string) {
    exists k :: Counted(chain, anchored, k) && id in IdsOf(chain[k].events)
  }

  lemma CountedInNext(chain: Chain, anchored: bool, id: string)
    requires chain != []
    ensures var last := |chain| - 1;
            CountedIn(chain, anchored, id) <==>
            CountedIn(chain[..last], anchored, id) || (Counted(chain, anchored, last) && id in IdsOf(chain[last].events))
  {
    var last := |chain| - 1;
    CountedInit(chain, anchored);
    if k :| Counted(chain[..last], anchored, k) && id in IdsOf(chain[..last][k].events) {
      assert Counted(chain, anchored, k) && id in IdsOf(chain[k].events);
    }
    if k :| Counted(chain, anchored, k) && id in IdsOf(chain[k].events) && k < last {
      assert Counted(chain[..last], anchored, k) && id in IdsOf(chain[..last][k].events);
    }
  }

  lemma {:induction false} IdsMean(chain: Chain, anchored: bool, start: map<string, int>, journal: string, s: Scope, id: string)
    ensures id in Walked(chain, anchored, start, journal, s).ids <==> CountedIn(chain, anchored, id)
  {
    if chain != [] {
      IdsMean(chain[..|chain| - 1], anchored, start, journal, s, id);
      CountedInNext(chain, anchored, id);
    }
  }

  lemma IdsApart(chain: Chain, anchored: bool, start: map<string, int>, journal: string, s: Scope, ids: set<string>)
    ensures ids !! Walked(chain, anchored, start, journal, s).ids <==>
            forall k :: Counted(chain, anchored, k) ==> IdsOf(chain[k].events) !! ids
  {
    var known := Walked(chain, anchored, start, journal, s).ids;
    forall id ensures id in known <==> exists k :: Counted(chain, anchored, k) && id in IdsOf(chain[k].events) {
      IdsMean(chain, anchored, start, journal, s, id);
    }
    if ids !! known {
      forall k | Counted(chain, anchored, k) ensures IdsOf(chain[k].events) !! ids {
        assert forall id :: id in IdsOf(chain[k].events) ==> id in known;
      }
    } else {
      var id :| id in ids && id in known;
      var k :| Counted(chain, anchored, k) && id in IdsOf(chain[k].events);
    }
  }

  lemma {:induction false} OrderMeans(chain: Chain, anchored: bool, start: map<string, int>, journal: string, s: Scope)
    ensures Walked(chain, anchored, start, journal, s).ok <==> Ordered(chain, journal) && DistinctEvents(chain, anchored)
  {
    if chain != [] {
      var last := |chain| - 1;
      var init, f := chain[..last], chain[last];
      var was := Walked(init, anchored, start, journal, s);
      OrderMeans(init, anchored, start, journal, s);
      OrderedNext(chain, journal);
      DistinctNext(chain, anchored);
      FreshIff(f.events, was.ids);
      IdsApart(init, anchored, start, journal, s, IdsOf(f.events));
    }
  }

  lemma OrderedNext(chain: Chain, journal: string)
    requires chain != []
    ensures Ordered(chain, journal) <==>
            Ordered(chain[..|chain| - 1], journal) && Orderly(chain[..|chain| - 1], chain[|chain| - 1], journal)
  {
    var init := chain[..|chain| - 1];
    assert forall k :: 0 <= k < |init| ==> init[k] == chain[k];
    if |chain| > 1 && Ordered(chain, journal) {
      assert Succeeds(chain[|chain| - 2], chain[|chain| - 1]);
    }
  }

  /** The frame after `init` brings no event id twice, and none that a counted frame of `init` has. */
  ghost predicate BringsNew(chain: Chain, anchored: bool)
    requires chain != []
  {
    var last := |chain| - 1;
    Counted(chain, anchored, last) ==>
      && DistinctIds(chain[last].events)
      && forall k :: Counted(chain[..last], anchored, k) ==> IdsOf(chain[k].events) !! IdsOf(chain[last].events)
  }

  lemma DistinctSplits(chain: Chain, anchored: bool)
    requires chain != [] && DistinctEvents(chain, anchored)
    ensures DistinctEvents(chain[..|chain| - 1], anchored) && BringsNew(chain, anchored)
  {
    var init := chain[..|chain| - 1];
    forall k | Counted(init, anchored, k) ensures init[k] == chain[k] && Counted(chain, anchored, k) {}
  }

  lemma DistinctJoins(chain: Chain, anchored: bool)
    requires chain != [] && DistinctEvents(chain[..|chain| - 1], anchored) && BringsNew(chain, anchored)
    ensures DistinctEvents(chain, anchored)
  {
    var last := |chain| - 1;
    forall k | Counted(chain, anchored, k) && k != last
      ensures chain[..last][k] == chain[k] && Counted(chain[..last], anchored, k) {}
  }

  lemma DistinctNext(chain: Chain, anchored: bool)
    requires chain != []
    ensures DistinctEvents(chain, anchored) <==>
              DistinctEvents(chain[..|chain| - 1], anchored) && BringsNew(chain, anchored)
  {
    if DistinctEvents(chain, anchored) { DistinctSplits(chain, anchored); }
    if DistinctEvents(chain[..|chain| - 1], anchored) && BringsNew(chain, anchored) { DistinctJoins(chain, anchored); }
  }

  lemma WholeNext(chain: Chain, anchored: bool, s: Scope)
    requires chain != []
    ensures var last := |chain| - 1;
            var init := chain[..last];
            AllWhole(chain, anchored) <==>
              && AllWhole(init, anchored)
              && NonAtomicOrBoundary !in FrameDoubts(init, chain[last], Counted(chain, anchored, last), s)
  {
    var last := |chain| - 1;
    var init := chain[..last];
    CountedInit(chain, anchored);
    assert forall k :: 0 <= k < last ==> (Whole(init, anchored, k) <==> Whole(chain, anchored, k));
    assert Whole(chain, anchored, last) <==>
           NonAtomicOrBoundary !in FrameDoubts(init, chain[last], Counted(chain, anchored, last), s);
  }

  lemma SessionNext(chain: Chain, counted: bool, s: Scope)
    requires chain != []
    ensures var last := |chain| - 1;
            SameSession(chain) <==>
              SameSession(chain[..last]) && SessionBoundary !in FrameDoubts(chain[..last], chain[last], counted, s)
  {
    var last := |chain| - 1;
    assert forall k :: 0 <= k < last ==> chain[..last][k] == chain[k];
    if SameSession(chain) && last > 0 {
      assert chain[last - 1].body.session == chain[last].body.session;
    }
  }

  lemma UnbrokenNext(chain: Chain, counted: bool, s: Scope)
    requires chain != []
    ensures var last := |chain| - 1;
            Unbroken(chain, s) <==>
              Unbroken(chain[..last], s) && BrokenUnfilteredChain !in FrameDoubts(chain[..last], chain[last], counted, s)
  {
    var last := |chain| - 1;
    assert forall k :: 0 <= k < last ==> chain[..last][k] == chain[k];
    if Unbroken(chain, s) && !Projected(s) && last > 0 {
      assert Chained(chain[last - 1], chain[last]);
    }
  }

  lemma {:induction false} WholeMeans(chain: Chain, anchored: bool, start: map<string, int>, journal: string, s: Scope)
    ensures NonAtomicOrBoundary !in Walked(chain, anchored, start, journal, s).doubts <==> AllWhole(chain, anchored)
  {
    if chain != [] {
      WholeMeans(chain[..|chain| - 1], anchored, start, journal, s);
      WholeNext(chain, anchored, s);
    }
  }

  lemma {:induction false} SessionMeans(chain: Chain, anchored: bool, start: map<string, int>, journal: string, s: Scope)
    ensures SessionBoundary !in Walked(chain, anchored, start, journal, s).doubts <==> SameSession(chain)
  {
    if chain != [] {
      SessionMeans(chain[..|chain| - 1], anchored, start, journal, s);
      SessionNext(chain, Counted(chain, anchored, |chain| - 1), s);
    }
  }

  lemma {:induction false} UnbrokenMeans(chain: Chain, anchored: bool, start: map<string, int>, journal: string, s: Scope)
    ensures BrokenUnfilteredChain !in Walked(chain, anchored, start, journal, s).doubts <==> Unbroken(chain, s)
  {
    if chain != [] {
      UnbrokenMeans(chain[..|chain| - 1], anchored, start, journal, s);
      UnbrokenNext(chain, Counted(chain, anchored, |chain| - 1), s);
    }
  }

  /** What the versions dictionary knows after these frames. */
  function Known(chain: Chain, anchored: bool, start: map<string, int>): map<string, int> {
    if chain == [] then start
    else
      var init, f := chain[..|chain| - 1], chain[|chain| - 1];
      Merge(ReadVersions(Known(init, anchored, start), f, Counted(chain, anchored, |chain| - 1)), f.contract.versions)
  }

  lemma {:induction false} KnownIsWalked(chain: Chain, anchored: bool, start: map<string, int>, journal: string, s: Scope)
    ensures Walked(chain, anchored, start, journal, s).versions == Known(chain, anchored, start)
  {
    if chain != [] { KnownIsWalked(chain[..|chain| - 1], anchored, start, journal, s); }
  }

  /** The events of frame `k` skip or repeat a version. */
  predicate SkipsAt(chain: Chain, anchored: bool, start: map<string, int>, k: nat)
    requires k < |chain|
  {
    Counted(chain, anchored, k) && !ContinuesSoFar(chain[k].events, Known(chain[..k], anchored, start))
  }

  /** Frame `k` records a version below the one known by then. */
  predicate FallsAt(chain: Chain, anchored: bool, start: map<string, int>, k: nat)
    requires k < |chain|
  {
    Regresses(ReadVersions(Known(chain[..k], anchored, start), chain[k], Counted(chain, anchored, k)), chain[k].contract.versions)
  }

  predicate Skips(chain: Chain, anchored: bool, start: map<string, int>) {
    exists k :: 0 <= k < |chain| && SkipsAt(chain, anchored, start, k)
  }

  predicate Falls(chain: Chain, anchored: bool, start: map<string, int>) {
    exists k :: 0 <= k < |chain| && FallsAt(chain, anchored, start, k)
  }

  lemma SkipsNext(chain: Chain, anchored: bool, start: map<string, int>)
    requires chain != []
    ensures var last := |chain| - 1;
            Skips(chain, anchored, start) <==> Skips(chain[..last], anchored, start) || SkipsAt(chain, anchored, start, last)
  {
    var init := chain[..|chain| - 1];
    CountedInit(chain, anchored);
    forall k | 0 <= k < |init| ensures SkipsAt(init, anchored, start, k) <==> SkipsAt(chain, anchored, start, k) {
      assert init[..k] == chain[..k];
    }
  }

  lemma FallsNext(chain: Chain, anchored: bool, start: map<string, int>)
    requires chain != []
    ensures var last := |chain| - 1;
            Falls(chain, anchored, start) <==> Falls(chain[..last], anchored, start) || FallsAt(chain, anchored, start, last)
  {
    var init := chain[..|chain| - 1];
    CountedInit(chain, anchored);
    forall k | 0 <= k < |init| ensures FallsAt(init, anchored, start, k) <==> FallsAt(chain, anchored, start, k) {
      assert init[..k] == chain[..k];
    }
  }

  /** What one frame adds to the two version doubts. */
  lemma VersionDoubtsNext(was: Walk, before: Chain, f: AuditFrame, counted: bool, journal: string, s: Scope)
    ensures var w := Visit(was, before, f, counted, journal, s);
            && (NonContinuousLeaseVersion in w.doubts <==>
                NonContinuousLeaseVersion in was.doubts || (counted && !ContinuesSoFar(f.events, was.versions)))
            && (RegressedLeaseVersion in w.doubts <==>
                RegressedLeaseVersion in was.doubts || Regresses(ReadVersions(was.versions, f, counted), f.contract.versions))
  {
  }

  /** The two version doubts, each exactly. */
  lemma {:induction false} VersionDoubtsMean(chain: Chain, anchored: bool, start: map<string, int>, journal: string, s: Scope)
    ensures NonContinuousLeaseVersion in Walked(chain, anchored, start, journal, s).doubts <==> Skips(chain, anchored, start)
    ensures RegressedLeaseVersion in Walked(chain, anchored, start, journal, s).doubts <==> Falls(chain, anchored, start)
  {
    if chain != [] {
      var last := |chain| - 1;
      var init, counted := chain[..last], Counted(chain, anchored, last);
      VersionDoubtsMean(init, anchored, start, journal, s);
      KnownIsWalked(init, anchored, start, journal, s);
      SkipsNext(chain, anchored, start);
      FallsNext(chain, anchored, start);
      VersionDoubtsNext(Walked(init, anchored, start, journal, s), init, chain[last], counted, journal, s);
    }
  }

  predicate AllWhole(chain: Chain, anchored: bool) {
    forall k :: 0 <= k < |chain| ==> Whole(chain, anchored, k)
  }

  lemma SameDoubts(a: set<Doubt>, b: set<Doubt>)
    requires NonAtomicOrBoundary in a <==> NonAtomicOrBoundary in b
    requires SessionBoundary in a <==> SessionBoundary in b
    requires BrokenUnfilteredChain in a <==> BrokenUnfilteredChain in b
    requires NonContinuousLeaseVersion in a <==> NonContinuousLeaseVersion in b
    requires RegressedLeaseVersion in a <==> RegressedLeaseVersion in b
    ensures a == b
  {
    forall d: Doubt ensures d in a <==> d in b {
      assert d.NonAtomicOrBoundary? || d.SessionBoundary? || d.BrokenUnfilteredChain? || d.NonContinuousLeaseVersion?
             || d.RegressedLeaseVersion?;
    }
  }

  /** Five conditions as one set of doubts. */
  ghost function Doubting(whole: bool, session: bool, unbroken: bool, skips: bool, falls: bool): set<Doubt> {
    (if whole then {} else {NonAtomicOrBoundary}) + (if session then {} else {SessionBoundary})
    + (if unbroken then {} else {BrokenUnfilteredChain}) + (if skips then {NonContinuousLeaseVersion} else {})
    + (if falls then {RegressedLeaseVersion} else {})
  }

  /** The doubts a chain deserves, one condition each. */
  ghost function DoubtsOf(chain: Chain, anchored: bool, start: map<string, int>, s: Scope): set<Doubt> {
    Doubting(AllWhole(chain, anchored), SameSession(chain), Unbroken(chain, s), Skips(chain, anchored, start),
             Falls(chain, anchored, start))
  }

  /** The walk raises exactly those doubts. */
  lemma DoubtsMean(chain: Chain, anchored: bool, start: map<string, int>, journal: string, s: Scope)
    ensures Walked(chain, anchored, start, journal, s).doubts == DoubtsOf(chain, anchored, start, s)
  {
    WholeMeans(chain, anchored, start, journal, s);
    SessionMeans(chain, anchored, start, journal, s);
    UnbrokenMeans(chain, anchored, start, journal, s);
    VersionDoubtsMean(chain, anchored, start, journal, s);
    SameDoubts(Walked(chain, anchored, start, journal, s).doubts,
               Doubting(AllWhole(chain, anchored), SameSession(chain), Unbroken(chain, s), Skips(chain, anchored, start),
                        Falls(chain, anchored, start)));
  }

  lemma NoDoubt(doubts: set<Doubt>)
    ensures doubts == {} <==>
            && NonAtomicOrBoundary !in doubts && SessionBoundary !in doubts && BrokenUnfilteredChain !in doubts
            && NonContinuousLeaseVersion !in doubts && RegressedLeaseVersion !in doubts
  {
    if doubts != {} {
      var d :| d in doubts;
      assert d.NonAtomicOrBoundary? || d.SessionBoundary? || d.BrokenUnfilteredChain? || d.NonContinuousLeaseVersion?
             || d.RegressedLeaseVersion?;
    }
  }

  /**
   * The walk accepts a chain if and only if it is one ordered journal with distinct events, and raises no
   * doubt if and only if its frames are whole, of one session, smooth in their versions, and unbroken.
   */
  lemma WalkIff(chain: Chain, anchored: bool, journal: string, s: Scope)
    requires chain != [] && forall k :: 0 <= k < |chain| ==> Sane(chain[k])
    ensures var w := Walked(chain, anchored, StartVersions(chain, anchored), journal, s);
            && (w.ok <==> Ordered(chain, journal) && DistinctEvents(chain, anchored))
            && (w.doubts == {} <==> Undoubted(chain, anchored, s))
  {
    var start := StartVersions(chain, anchored);
    OrderMeans(chain, anchored, start, journal, s);
    VersionsMean(chain, anchored, start, journal, s);
    WholeMeans(chain, anchored, start, journal, s);
    SessionMeans(chain, anchored, start, journal, s);
    UnbrokenMeans(chain, anchored, start, journal, s);
    NoDoubt(Walked(chain, anchored, start, journal, s).doubts);
  }
}
