/** The version 2 report: reasons for doubt, or seconds that add up. */
module AuditReport {
  import opened Leases
  import opened LeaseFrames
  import opened Sequences
  import opened ReportScan
  import opened ReportCoverage
  import opened ReportTotals
  import opened AuditFrames
  import opened AuditChain
  import opened AuditWalk
  import opened AuditPages
  import opened AuditTotals

  datatype Export = Export(schema: int, scope: Scope, pages: seq<Page>, exhausted: bool)

  datatype Reason = InChain(doubt: Doubt) | UnsupportedHistoryClaim | PartialCollection | ServerCoverageUnknown
                  | MissingConsistentCheckpoint | MissingStartAnchor | UnsettledOrShortCheckpoint
                  | MissingCheckpointOrChain

  /** The report; totals are withheld while there is any reason for doubt. */
  datatype Report = Report(reasons: set<Reason>, totals: Option<map<Measure, int>>, subjects: map<Subject, int>,
                           repeats: nat)

  datatype Verdict = Invalid | Reported(report: Report)

  function WindowOf(s: Scope): Window { Window(s.start, s.end) }

  function Anchor(e: Export): Option<AuditFrame>
    requires e.pages != []
  {
    e.pages[|e.pages| - 1].coverage.anchor
  }

  predicate AnchorOk(anchor: Option<AuditFrame>, s: Scope, d: Digests) {
    anchor.Some? ==> ValidAuditFrame(anchor.value, s, d) && anchor.value.body.timestamp <= s.start
  }

  /** What is required before any frame is put in order. */
  predicate ExportOk(e: Export, d: Digests) {
    && e.schema == 2 && ValidScope(e.scope) && 1 <= |e.pages| <= MAX_PAGES
    && PagesOk(e.pages, e.scope, d) && AnchorOk(Anchor(e), e.scope, d)
  }

  /** The anchor, if there is one, and then the frames by commit. */
  ghost predicate IsChain(chain: Chain, e: Export)
    requires e.pages != []
  {
    if Anchor(e).None? then Sorts(chain, AllItems(e.pages))
    else chain != [] && chain[0] == Anchor(e).value && Sorts(chain[1..], AllItems(e.pages))
  }

  /** The live checkpoint belongs to the journal and does not precede its last frame. */
  predicate CheckpointFits(cp: Option<LiveCheckpoint>, chain: Chain) {
    chain != [] && cp.Some? ==>
      var c, last := cp.value, chain[|chain| - 1];
      && c.journal == chain[0].contract.journal
      && c.version == 2 && c.commit > 0 && Number(c.timestamp) && Hex(c.after, 64)
      && c.commit >= last.contract.commit
      && (c.commit == last.contract.commit ==> c.after == last.body.after)
  }

  ghost predicate ChainOk(chain: Chain, anchored: bool, cp: Option<LiveCheckpoint>) {
    && (chain != [] ==> Ordered(chain, chain[0].contract.journal) && DistinctEvents(chain, anchored))
    && CheckpointFits(cp, chain)
  }

  function CoverageReasons(e: Export): set<Reason>
    requires e.pages != []
  {
    var final, cp := e.pages[|e.pages| - 1], e.pages[0].checkpoint;
    (if final.coverage.completeHistory == Some(false) then {} else {UnsupportedHistoryClaim})
    + (if e.exhausted && final.next.None? then {} else {PartialCollection})
    + (if final.coverage.completeWindow == Some(true) && final.coverage.status == "verified" && final.coverage.boundaries == []
       then {} else {ServerCoverageUnknown})
    + (if cp.Some? && cp.value.consistent == Some(true) && cp.value.integrityBoundary.None? then {}
       else {MissingConsistentCheckpoint})
    + (if Anchor(e).Some? then {} else {MissingStartAnchor})
  }

  predicate Settled(cp: LiveCheckpoint, s: Scope, asOf: int) {
    s.end <= cp.timestamp <= asOf && cp.pending == Some(0)
  }

  function CheckpointReasons(e: Export, chain: Chain): set<Reason>
    requires e.pages != []
  {
    var cp := e.pages[0].checkpoint;
    if chain == [] || cp.None? then {MissingCheckpointOrChain}
    else if Settled(cp.value, e.scope, e.pages[0].asOf) then {}
    else {UnsettledOrShortCheckpoint}
  }

  function ChainReasons(doubts: set<Doubt>): set<Reason> { set d | d in doubts :: InChain(d) }

  /** No reason for doubt, in terms of the evidence. */
  predicate Certain(e: Export, chain: Chain)
    requires e.pages != []
  {
    && CoverageReasons(e) == {} && CheckpointReasons(e, chain) == {} && Undoubted(chain, true, e.scope)
  }

  /** Every reason that applies, and no other. */
  ghost function ReasonsFor(e: Export, chain: Chain): set<Reason>
    requires e.pages != []
  {
    CoverageReasons(e) + CheckpointReasons(e, chain) + ChainReasons(ChainDoubts(e, chain))
  }

  ghost function ChainDoubts(e: Export, chain: Chain): set<Doubt>
    requires e.pages != []
  {
    if chain == [] then {} else DoubtsOf(chain, Anchor(e).Some?, StartVersions(chain, Anchor(e).Some?), e.scope)
  }

  /** What the report says of a chain. */
  ghost predicate Reports(e: Export, chain: Chain, r: Report)
    requires e.pages != []
  {
    && r.reasons == ReasonsFor(e, chain) && (r.reasons == {} <==> Certain(e, chain))
    && (r.totals.Some? <==> r.reasons == {})
    && (r.totals.Some? ==> Tallied(r.totals.value, r.subjects, Granted(chain, WindowOf(e.scope)), AllLeases(chain, WindowOf(e.scope))))
    && (r.totals.None? ==> r.subjects == map[])
    && |AllItems(e.pages)| == |set f | f in AllItems(e.pages) :: IdOf(f)| + r.repeats
  }

  lemma {:induction false} ValidIsSane(f: AuditFrame, s: Scope, d: Digests)
    requires ValidAuditFrame(f, s, d)
    ensures Sane(f)
  {
    forall i | 0 <= i < |f.events|
      ensures RefOf(f.events[i]) in f.contract.versions && f.events[i].version == f.contract.versions[RefOf(f.events[i])]
    {
      assert ValidEvent(f, i, f.events[i], s, d);
    }
  }

  lemma SortedIsSelected(frames: seq<AuditFrame>, items: seq<AuditFrame>, selected: AuditFrame -> bool)
    requires Sorts(frames, items) && All(items, selected)
    ensures forall k :: 0 <= k < |frames| ==> selected(frames[k])
  {
    forall k | 0 <= k < |frames| ensures selected(frames[k]) {
      assert frames[k] in frames && frames[k] in items;
    }
  }

  lemma ChainIsValid(chain: Chain, e: Export, d: Digests)
    requires e.pages != [] && IsChain(chain, e)
    requires All(AllItems(e.pages), SelectedBy(e.scope, d)) && AnchorOk(Anchor(e), e.scope, d)
    ensures forall k :: 0 <= k < |chain| ==> ValidAuditFrame(chain[k], e.scope, d)
    ensures forall k :: 0 <= k < |chain| && (k > 0 || Anchor(e).None?) ==> e.scope.start < Stamp(chain, k) <= e.scope.end
  {
    var frames := if Anchor(e).None? then chain else chain[1..];
    SortedIsSelected(frames, AllItems(e.pages), SelectedBy(e.scope, d));
    forall k | 0 <= k < |chain|
      ensures ValidAuditFrame(chain[k], e.scope, d)
      ensures k > 0 || Anchor(e).None? ==> e.scope.start < Stamp(chain, k) <= e.scope.end
    {
      if k > 0 || Anchor(e).None? {
        assert chain[k] == frames[if Anchor(e).None? then k else k - 1];
        assert Selected(chain[k], e.scope, d);
      }
    }
  }

  method CheckAnchor(anchor: Option<AuditFrame>, s: Scope, d: Digests) returns (ok: bool)
    ensures ok <==> AnchorOk(anchor, s, d)
  {
    ok := true;
    if anchor.Some? {
      ok := CheckAuditFrame(anchor.value, s, d);
      ok := ok && anchor.value.body.timestamp <= s.start;
    }
  }

  /** Reads the pages into a chain. */
  method Assemble(e: Export, d: Digests) returns (ok: bool, chain: Chain, repeats: nat)
    ensures ok <==> ExportOk(e, d)
    ensures ok ==> IsChain(chain, e)
    ensures ok ==> |AllItems(e.pages)| == |set f | f in AllItems(e.pages) :: IdOf(f)| + repeats
  {
    chain, repeats := [], 0;
    if e.schema != 2 || !ValidScope(e.scope) || !(1 <= |e.pages| <= MAX_PAGES) {
      return false, chain, repeats;
    }
    var unique;
    ok, unique, repeats := ReadPages(e.pages, e.scope, d);
    if !ok {
      return;
    }
    ok := CheckAnchor(Anchor(e), e.scope, d);
    if !ok {
      return;
    }
    chain, repeats := ChainFrom(e, d, unique, repeats);
  }

  method ChainFrom(e: Export, ghost d: Digests, unique: map<string, AuditFrame>, repeats: nat) returns (chain: Chain, repeats': nat)
    requires e.pages != [] && Read(AllItems(e.pages), SelectedBy(e.scope, d), unique, repeats)
    ensures IsChain(chain, e)
    ensures |AllItems(e.pages)| == |set f | f in AllItems(e.pages) :: IdOf(f)| + repeats'
  {
    repeats' := repeats;
    var frames := SortFrames(unique);
    SortedUnique(frames, AllItems(e.pages), unique);
    chain := frames;
    if Anchor(e).Some? {
      chain := [Anchor(e).value] + frames;
      assert chain[1..] == frames;
    }
  }

  lemma ReasonsMean(e: Export, chain: Chain, doubts: set<Doubt>)
    requires e.pages != []
    requires chain != [] ==> (doubts == {} <==> Undoubted(chain, Anchor(e).Some?, e.scope))
    ensures CoverageReasons(e) + CheckpointReasons(e, chain) + ChainReasons(doubts) == {} <==> Certain(e, chain)
  {
    if doubts != {} {
      var d :| d in doubts;
      assert InChain(d) in ChainReasons(doubts);
    }
    assert CoverageReasons(e) == {} ==> MissingStartAnchor !in CoverageReasons(e);
    assert CheckpointReasons(e, chain) == {} ==> MissingCheckpointOrChain !in CheckpointReasons(e, chain);
  }

  /** Walks the chain, if there is one. */
  method WalkFrom(e: Export, ghost d: Digests, frames: Chain) returns (walk: Walk)
    requires ExportOk(e, d) && IsChain(frames, e)
    ensures walk.ok <==> (frames != [] ==> Ordered(frames, frames[0].contract.journal) && DistinctEvents(frames, Anchor(e).Some?))
    ensures walk.ok ==> walk.doubts == ChainDoubts(e, frames)
    ensures walk.ok && frames != [] ==> (walk.doubts == {} <==> Undoubted(frames, Anchor(e).Some?, e.scope))
  {
    walk := Walk(true, {}, map[], {});
    if frames != [] {
      var anchored, journal := Anchor(e).Some?, frames[0].contract.journal;
      ChainIsValid(frames, e, d);
      forall k | 0 <= k < |frames| ensures Sane(frames[k]) { ValidIsSane(frames[k], e.scope, d); }
      WalkIff(frames, anchored, journal, e.scope);
      DoubtsMean(frames, anchored, StartVersions(frames, anchored), journal, e.scope);
      walk := WalkChain(frames, anchored, StartVersions(frames, anchored), journal, e.scope);
    }
  }

  method Analyze(e: Export, d: Digests) returns (v: Verdict, ghost chain: Chain)
    ensures v.Reported? ==> ExportOk(e, d)
    ensures ExportOk(e, d) ==> IsChain(chain, e) && (v.Reported? <==> ChainOk(chain, Anchor(e).Some?, e.pages[0].checkpoint))
    ensures v.Reported? ==> Reports(e, chain, v.report)
    ensures v.Reported? && v.report.reasons == {} ==> Accounted(e, chain, v.report)
  {
    var ok, frames, repeats := Assemble(e, d);
    chain := frames;
    if !ok {
      return Invalid, chain;
    }
    var anchored, cp := Anchor(e).Some?, e.pages[0].checkpoint;
    var walk := WalkFrom(e, d, frames);
    if !walk.ok || !CheckpointFits(cp, frames) {
      return Invalid, chain;
    }
    var reasons := CoverageReasons(e) + CheckpointReasons(e, frames) + ChainReasons(walk.doubts);
    ReasonsMean(e, chain, walk.doubts);
    var totals, subjects := None, map[];
    if reasons == {} {
      var t;
      t, subjects := TallyChain(frames, WindowOf(e.scope));
      totals := Some(t);
    }
    v := Reported(Report(reasons, totals, subjects, repeats));
    if reasons == {} { CertainReport(e, d, chain, v.report); }
  }

  // ------------------------------------------------------------- main result

  lemma {:induction false} StampsAscend(chain: Chain, journal: string, i: nat, k: nat)
    requires Ordered(chain, journal) && i <= k < |chain|
    ensures Stamp(chain, i) <= Stamp(chain, k)
    ensures i < k ==> chain[i].contract.commit < chain[k].contract.commit
    decreases k
  {
    if i < k {
      StampsAscend(chain, journal, i, k - 1);
      assert Succeeds(chain[k - 1], chain[k]);
    }
  }

  /** One event per reference in each frame after the anchor. */
  predicate OneEventEach(chain: Chain) {
    forall k :: 0 < k < |chain| ==> DistinctSubjects(chain[k].events)
  }

  /** The recorded versions of a reference never regress along the chain. */
  predicate NeverRegresses(chain: Chain, ref: string) {
    forall i, k :: 0 <= i <= k < |chain| && ref in chain[i].contract.versions && ref in chain[k].contract.versions
                   ==> chain[i].contract.versions[ref] <= chain[k].contract.versions[ref]
  }

  lemma SmoothNeverRegresses(chain: Chain, anchored: bool)
    requires Smooth(chain, anchored)
    ensures forall ref :: NeverRegresses(chain, ref)
  {
    forall ref, i, k | 0 <= i <= k < |chain| && ref in chain[i].contract.versions && ref in chain[k].contract.versions
      ensures chain[i].contract.versions[ref] <= chain[k].contract.versions[ref]
    {
      VersionsNeverRegress(chain, anchored, i, k, ref);
    }
  }

  /** What a report without reasons for doubt vouches for. */
  ghost predicate Accounted(e: Export, chain: Chain, r: Report) {
    && Tiling(chain, WindowOf(e.scope)) && OneEventEach(chain)
    && (forall i, k :: 0 <= i < k < |chain| ==> chain[i].contract.commit < chain[k].contract.commit)
    && (!Projected(e.scope) ==> forall k :: 0 < k < |chain| ==> Chained(chain[k - 1], chain[k]))
    && (forall ref :: NeverRegresses(chain, ref))
    && r.totals.Some? && MeasuresAlong(chain, WindowOf(e.scope), r.totals.value)
    && SubjectsAlong(chain, WindowOf(e.scope), r.subjects)
    && forall ref :: Seconds(Granted(chain, WindowOf(e.scope)), ByRef(ref)) <= e.scope.end - e.scope.start
  }

  lemma CertainTiles(e: Export, d: Digests, chain: Chain)
    requires ExportOk(e, d) && IsChain(chain, e) && Certain(e, chain) && ChainOk(chain, true, e.pages[0].checkpoint)
    ensures Tiling(chain, WindowOf(e.scope)) && OneEventEach(chain)
    ensures forall k :: 0 <= k < |chain| ==> ValidState(chain[k].body.state)
  {
    assert Anchor(e).Some? by { assert CoverageReasons(e) == {} ==> MissingStartAnchor !in CoverageReasons(e); }
    ChainIsValid(chain, e, d);
    forall i, k | 0 <= i < k < |chain| ensures Stamp(chain, i) <= Stamp(chain, k) {
      StampsAscend(chain, chain[0].contract.journal, i, k);
    }
    forall k | 0 < k < |chain| ensures DistinctSubjects(chain[k].events) {
      assert SmoothAt(chain, true, k);
    }
  }

  /**
   * A report without reasons for doubt rests on an anchor and frames that tile the window: timestamps never
   * fall, commits strictly rise (and are consecutive and linked by digest when the export is unfiltered), no
   * reference has two events in a frame, and recorded versions never regress. Its totals, by kind and mode and
   * for each subject, are the leases live in the governing frame summed over instants, and one lease never exceeds
   * the window.
   */
  lemma CertainReport(e: Export, d: Digests, chain: Chain, r: Report)
    requires ExportOk(e, d) && IsChain(chain, e) && ChainOk(chain, Anchor(e).Some?, e.pages[0].checkpoint)
    requires Reports(e, chain, r) && r.reasons == {}
    ensures Accounted(e, chain, r)
  {
    assert Anchor(e).Some? by { assert CoverageReasons(e) == {} ==> MissingStartAnchor !in CoverageReasons(e); }
    CertainTiles(e, d, chain);
    forall i, k | 0 <= i < k < |chain| ensures chain[i].contract.commit < chain[k].contract.commit {
      StampsAscend(chain, chain[0].contract.journal, i, k);
    }
    SmoothNeverRegresses(chain, true);
    TalliesAlong(chain, WindowOf(e.scope), r.totals.value, r.subjects);
    forall ref ensures Seconds(Granted(chain, WindowOf(e.scope)), ByRef(ref)) <= e.scope.end - e.scope.start {
      GrantedAtMostWindow(chain, WindowOf(e.scope), ref);
    }
  }
}
