/** The version 2 commit chain: what the walk over it requires and what it doubts. */
module AuditChain {
  import opened Leases
  import opened LeaseFrames
  import opened AuditFrames

  type Chain = seq<AuditFrame>

  datatype Doubt = NonAtomicOrBoundary | NonContinuousLeaseVersion | RegressedLeaseVersion | SessionBoundary
                 | BrokenUnfilteredChain

  // --------------------------------------------------- what must hold outright

  /** The events whose identities count: those of every frame after the anchor. */
  predicate Counted(chain: Chain, anchored: bool, k: int) { 0 <= k < |chain| && (k == 0 ==> !anchored) }

  predicate DistinctIds(events: seq<Event>) {
    forall i, j :: 0 <= i < j < |events| ==> events[i].id != events[j].id
  }

  function IdsOf(events: seq<Event>): set<string> {
    if events == [] then {} else IdsOf(events[..|events| - 1]) + {events[|events| - 1].id}
  }

  ghost predicate DistinctEvents(chain: Chain, anchored: bool) {
    && (forall k :: Counted(chain, anchored, k) ==> DistinctIds(chain[k].events))
    && (forall k, l :: Counted(chain, anchored, k) && Counted(chain, anchored, l) && k != l
                       ==> IdsOf(chain[k].events) !! IdsOf(chain[l].events))
  }

  predicate Succeeds(f: AuditFrame, g: AuditFrame) {
    f.contract.commit < g.contract.commit && f.body.timestamp <= g.body.timestamp
  }

  /** One journal, commits strictly ahead, time never back. */
  predicate Ordered(chain: Chain, journal: string) {
    && (forall k :: 0 <= k < |chain| ==> chain[k].contract.journal == journal)
    && (forall k :: 0 < k < |chain| ==> Succeeds(chain[k - 1], chain[k]))
  }

  // ----------------------------------------------------------- what is doubted

  predicate Whole(chain: Chain, anchored: bool, k: nat)
    requires k < |chain|
  {
    && chain[k].contract.atomic && chain[k].body.state.complete
    && (Counted(chain, anchored, k) ==> !Bounded(chain[k].body))
  }

  /** The version last recorded for `ref` along the chain. */
  function Latest(chain: Chain, ref: string): Option<int> {
    if chain == [] then None
    else
      var last := chain[|chain| - 1];
      if ref in last.contract.versions then Some(last.contract.versions[ref]) else Latest(chain[..|chain| - 1], ref)
  }

  predicate DistinctSubjects(events: seq<Event>) {
    forall i, j :: 0 <= i < j < |events| ==> RefOf(events[i]) != RefOf(events[j])
  }

  /** Each event is the only one of its reference in its frame and moves the reference on by one version. */
  predicate EventsContinue(before: Chain, f: AuditFrame) {
    && DistinctSubjects(f.events)
    && (forall i :: 0 <= i < |f.events| && Latest(before, RefOf(f.events[i])).Some?
                    ==> f.events[i].version == Latest(before, RefOf(f.events[i])).value + 1)
  }

  predicate NoRegress(before: Chain, f: AuditFrame) {
    forall ref :: ref in f.contract.versions && Latest(before, ref).Some? ==> Latest(before, ref).value <= f.contract.versions[ref]
  }

  /** Versions are continuous up to here. */
  predicate Smooth(chain: Chain, anchored: bool) {
    forall k :: 0 <= k < |chain| ==> SmoothAt(chain, anchored, k)
  }

  predicate SmoothAt(chain: Chain, anchored: bool, k: nat)
    requires k < |chain|
  {
    && (Counted(chain, anchored, k) ==> EventsContinue(chain[..k], chain[k]))
    && NoRegress(chain[..k], chain[k])
  }

  predicate SameSession(chain: Chain) {
    forall k :: 0 < k < |chain| ==> chain[k - 1].body.session == chain[k].body.session
  }

  predicate Chained(f: AuditFrame, g: AuditFrame) {
    g.contract.commit == f.contract.commit + 1 && g.body.before == f.body.after
  }

  /** An unfiltered export's frames are consecutive commits, linked by digest. */
  predicate Unbroken(chain: Chain, s: Scope) {
    Projected(s) || forall k :: 0 < k < |chain| ==> Chained(chain[k - 1], chain[k])
  }

  predicate Undoubted(chain: Chain, anchored: bool, s: Scope) {
    && (forall k :: 0 <= k < |chain| ==> Whole(chain, anchored, k))
    && Smooth(chain, anchored) && SameSession(chain) && Unbroken(chain, s)
  }

  // --------------------------------------------------------- version histories

  /** Along a smooth chain the versions of a reference never go back. */
  lemma {:induction false} VersionsNeverRegress(chain: Chain, anchored: bool, i: nat, k: nat, ref: string)
    requires Smooth(chain, anchored) && i <= k < |chain|
    requires ref in chain[i].contract.versions && ref in chain[k].contract.versions
    ensures chain[i].contract.versions[ref] <= chain[k].contract.versions[ref]
  {
    if i < k {
      LatestAtLeast(chain, anchored, i, k, ref);
      assert SmoothAt(chain, anchored, k);
    }
  }

  lemma {:induction false} LatestAtLeast(chain: Chain, anchored: bool, i: nat, k: nat, ref: string)
    requires Smooth(chain, anchored) && i < k <= |chain| && ref in chain[i].contract.versions
    ensures Latest(chain[..k], ref).Some? && chain[i].contract.versions[ref] <= Latest(chain[..k], ref).value
    decreases k
  {
    assert chain[..k][..k - 1] == chain[..k - 1];
    if i < k - 1 {
      LatestAtLeast(chain, anchored, i, k - 1, ref);
      assert SmoothAt(chain, anchored, k - 1);
    }
  }

  // -------------------------------------------------------------------- the walk

  /** What the dictionary of versions says, once the chain so far is smooth. */
  ghost predicate Tracks(versions: map<string, int>, chain: Chain) {
    forall ref :: Latest(chain, ref) == if ref in versions then Some(versions[ref]) else None
  }

  /** What the dictionary holds while the events of `f` are read. */
  function AfterEvents(versions: map<string, int>, events: seq<Event>): map<string, int> {
    if events == [] then versions
    else
      var e := events[|events| - 1];
      AfterEvents(versions, events[..|events| - 1])[RefOf(e) := e.version]
  }

  lemma {:induction false} AfterEventsHas(versions: map<string, int>, events: seq<Event>, ref: string)
    requires DistinctSubjects(events)
    ensures ref in AfterEvents(versions, events) <==> ref in versions || exists i :: 0 <= i < |events| && RefOf(events[i]) == ref
    ensures forall i :: 0 <= i < |events| && RefOf(events[i]) == ref ==> AfterEvents(versions, events)[ref] == events[i].version
    ensures ref in versions && (forall i :: 0 <= i < |events| ==> RefOf(events[i]) != ref)
            ==> AfterEvents(versions, events)[ref] == versions[ref]
  {
    if events != [] {
      AfterEventsHas(versions, events[..|events| - 1], ref);
    }
  }

  predicate Continues(events: seq<Event>, versions: map<string, int>) {
    && DistinctSubjects(events)
    && forall i :: 0 <= i < |events| && RefOf(events[i]) in versions ==> events[i].version == versions[RefOf(events[i])] + 1
  }

  /** Every event carries the version its frame records for the reference. */
  predicate Versioned(events: seq<Event>, recorded: map<string, int>) {
    forall i :: 0 <= i < |events| ==> RefOf(events[i]) in recorded && events[i].version == recorded[RefOf(events[i])]
  }

  /** Comparing with the dictionary finds both a skipped version and a second event of the same reference. */
  lemma ContinuesNext(events: seq<Event>, e: Event, versions: map<string, int>, recorded: map<string, int>)
    requires Versioned(events + [e], recorded) && DistinctSubjects(events)
    ensures var known := AfterEvents(versions, events);
            Continues(events + [e], versions) <==>
            Continues(events, versions) && (RefOf(e) in known ==> e.version == known[RefOf(e)] + 1)
  {
    var all := events + [e];
    AfterEventsHas(versions, events, RefOf(e));
    assert all[|events|] == e && forall i :: 0 <= i < |events| ==> all[i] == events[i];
    if i :| 0 <= i < |events| && RefOf(events[i]) == RefOf(e) {
      assert all[i].version == e.version;
      assert !DistinctSubjects(all);
    }
  }

  // ------------------------------------------------------ one frame's events

  /** What reading the events checks of their identities, one by one. */
  predicate FreshSoFar(events: seq<Event>, ids: set<string>) {
    events == []
    || (var init := events[..|events| - 1];
        FreshSoFar(init, ids) && events[|events| - 1].id !in ids + IdsOf(init))
  }

  /** What it checks of their versions. */
  predicate ContinuesSoFar(events: seq<Event>, versions: map<string, int>) {
    events == []
    || (var init, e := events[..|events| - 1], events[|events| - 1];
        var known := AfterEvents(versions, init);
        ContinuesSoFar(init, versions) && (RefOf(e) in known ==> e.version == known[RefOf(e)] + 1))
  }

  lemma {:induction false} FreshIff(events: seq<Event>, ids: set<string>)
    ensures FreshSoFar(events, ids) <==> DistinctIds(events) && IdsOf(events) !! ids
  {
    if events != [] {
      var init, e := events[..|events| - 1], events[|events| - 1];
      assert events == init + [e];
      FreshIff(init, ids);
      IdsNext(init, e);
    }
  }

  lemma {:induction false} ContinuesIff(events: seq<Event>, versions: map<string, int>, recorded: map<string, int>)
    requires Versioned(events, recorded)
    ensures ContinuesSoFar(events, versions) <==> Continues(events, versions)
  {
    if events != [] {
      var init, e := events[..|events| - 1], events[|events| - 1];
      assert events == init + [e];
      ContinuesIff(init, versions, recorded);
      if DistinctSubjects(init) {
        ContinuesNext(init, e, versions, recorded);
      } else if Continues(events, versions) {
        ContinuesPrefix(init, e, versions);
      }
    }
  }

  lemma {:induction false} FreshPrefix(events: seq<Event>, ids: set<string>, n: nat)
    requires n <= |events|
    ensures FreshSoFar(events, ids) ==> FreshSoFar(events[..n], ids)
    decreases |events|
  {
    if n < |events| {
      FreshPrefix(events[..|events| - 1], ids, n);
      assert events[..|events| - 1][..n] == events[..n];
    } else {
      assert events[..n] == events;
    }
  }

  lemma EventRead(events: seq<Event>, n: nat, versions: map<string, int>, ids: set<string>)
    requires n < |events|
    ensures var before, now, e := events[..n], events[..n + 1], events[n];
            && IdsOf(now) == IdsOf(before) + {e.id}
            && AfterEvents(versions, now) == AfterEvents(versions, before)[RefOf(e) := e.version]
            && (FreshSoFar(now, ids) <==> FreshSoFar(before, ids) && e.id !in ids + IdsOf(before))
            && (ContinuesSoFar(now, versions) <==>
                ContinuesSoFar(before, versions)
                && (RefOf(e) in AfterEvents(versions, before) ==> e.version == AfterEvents(versions, before)[RefOf(e)] + 1))
  {
    assert events[..n + 1][..n] == events[..n];
  }

  /** Reads the events of one frame against the versions known before it. */
  method ReadEvents(events: seq<Event>, versions: map<string, int>, ids: set<string>)
    returns (ok: bool, continuous: bool, versions': map<string, int>, ids': set<string>)
    ensures ok <==> FreshSoFar(events, ids)
    ensures ok ==> ids' == ids + IdsOf(events)
    ensures ok ==> versions' == AfterEvents(versions, events)
    ensures ok ==> (continuous <==> ContinuesSoFar(events, versions))
  {
    ok, continuous, versions', ids' := true, true, versions, ids;
    var n := 0;
    while n < |events|
      invariant 0 <= n <= |events|
      invariant FreshSoFar(events[..n], ids)
      invariant ids' == ids + IdsOf(events[..n])
      invariant versions' == AfterEvents(versions, events[..n])
      invariant continuous <==> ContinuesSoFar(events[..n], versions)
    {
      var e := events[n];
      EventRead(events, n, versions, ids);
      if e.id in ids' {
        FreshPrefix(events, ids, n + 1);
        ok := false;
        return;
      }
      if RefOf(e) in versions' && e.version != versions'[RefOf(e)] + 1 {
        continuous := false;
      }
      ids' := ids' + {e.id};
      versions' := versions'[RefOf(e) := e.version];
      n := n + 1;
    }
    assert events[..n] == events;
  }

  lemma {:induction false} InIds(events: seq<Event>, id: string)
    ensures id in IdsOf(events) <==> exists i :: 0 <= i < |events| && events[i].id == id
  {
    if events != [] { InIds(events[..|events| - 1], id); }
  }

  lemma IdsNext(events: seq<Event>, e: Event)
    ensures DistinctIds(events + [e]) <==> DistinctIds(events) && e.id !in IdsOf(events)
  {
    var all := events + [e];
    assert all[|events|] == e && forall i :: 0 <= i < |events| ==> all[i] == events[i];
    InIds(events, e.id);
    if i :| 0 <= i < |events| && events[i].id == e.id {
      assert all[i].id == all[|events|].id;
    }
    if DistinctIds(all) {
      assert forall i, j :: 0 <= i < j < |events| ==> all[i].id != all[j].id;
    }
  }

  lemma ContinuesPrefix(events: seq<Event>, e: Event, versions: map<string, int>)
    requires Continues(events + [e], versions)
    ensures Continues(events, versions)
  {
    var all := events + [e];
    assert forall i :: 0 <= i < |events| ==> all[i] == events[i];
  }
}
