/** What gaps and covered pairs say about each instant of the window. */
module ReportCoverage {
  import opened Leases
  import opened LeaseFrames
  import opened Sequences
  import opened ReportRuns
  import opened ReportScan

  predicate Within(w: Window, t: int) { w.since <= t < w.until }

  /** The pair's first frame governs this instant. */
  predicate Spans(p: Pair, t: int) { Start(p) <= t < End(p) }

  predicate Inside(g: Gap, t: int) { g.start <= t < g.end }

  predicate InInterval(x: Interval, t: int) { x.start <= t < x.end }

  /** No gap with length contains this instant. */
  predicate Clear(gaps: seq<Gap>, t: int) { forall g :: g in gaps ==> !Inside(g, t) }

  predicate NonEmpty(runs: seq<Run>) { forall run :: run in runs ==> run != [] }

  function CoveredBy(runs: seq<Run>, w: Window): seq<Interval> {
    Sort(FlatMap(Pairs(runs), PairCovered(w)), IntervalStart)
  }

  function ScopeGaps(w: Window, oneBot: bool): seq<Gap> {
    if oneBot then [] else [Gap(w.since, w.until, MixedBotScope)]
  }

  /** All gaps of a report, in the order they are found. */
  function AllGaps(runs: seq<Run>, w: Window, oneBot: bool): seq<Gap> {
    var covered := CoveredBy(runs, w);
    FlatMap(Seams(runs), SeamGaps(w)) + FlatMap(Pairs(runs), PairGaps(w))
    + Unobserved(covered, w.since) + TailGaps(covered, w) + ScopeGaps(w, oneBot)
  }

  lemma GapSources(runs: seq<Run>, w: Window, oneBot: bool)
    ensures var gaps := AllGaps(runs, w, oneBot);
            && (forall s, g :: s in Seams(runs) && g in SeamGaps(w)(s) ==> g in gaps)
            && (forall p, g :: p in Pairs(runs) && g in PairGaps(w)(p) ==> g in gaps)
            && (forall g :: g in Unobserved(CoveredBy(runs, w), w.since) ==> g in gaps)
            && (forall g :: g in TailGaps(CoveredBy(runs, w), w) ==> g in gaps)
            && (forall g :: g in ScopeGaps(w, oneBot) ==> g in gaps)
  {
    forall s, g | s in Seams(runs) && g in SeamGaps(w)(s) ensures g in AllGaps(runs, w, oneBot) {
      InFlatMap(Seams(runs), SeamGaps(w), g);
    }
    forall p, g | p in Pairs(runs) && g in PairGaps(w)(p) ensures g in AllGaps(runs, w, oneBot) {
      InFlatMap(Pairs(runs), PairGaps(w), g);
    }
  }

  // ------------------------------------------------------- time never falls back

  /** Once observed time has passed `t` it stays past it, within each run and across every seam. */
  ghost predicate NoFallback(runs: seq<Run>, t: int) {
    && (forall run, p :: run in runs && p in PairsOf(run) ==> !(End(p) <= t < Start(p)))
    && (forall s :: s in Seams(runs) ==> (s.left <= t <==> s.right <= t))
  }

  lemma ReversalIsGap(p: Pair, w: Window, t: int) returns (g: Gap)
    requires Within(w, t) && End(p) <= t < Start(p)
    ensures g in PairGap(p, w) && Inside(g, t)
  {
    g := Gap(Max(w.since, End(p)), Min(w.until, Start(p)), ClockReversal);
    assert g in ReversalGaps(p, w);
  }

  lemma SeamIsGap(s: Seam, w: Window, t: int) returns (g: Gap)
    requires Within(w, t) && Min(s.left, s.right) <= t < Max(s.left, s.right)
    ensures g in SeamGap(s, w) && Inside(g, t)
  {
    g := Gap(Max(w.since, Min(s.left, s.right)), Min(w.until, Max(s.left, s.right)), SessionBoundary);
  }

  lemma ClearHasNoFallback(runs: seq<Run>, w: Window, oneBot: bool, t: int)
    requires Within(w, t) && Clear(AllGaps(runs, w, oneBot), t)
    ensures NoFallback(runs, t)
  {
    forall run, p | run in runs && p in PairsOf(run) ensures !(End(p) <= t < Start(p)) {
      if End(p) <= t < Start(p) {
        var g := ReversalIsGap(p, w, t);
        InFlatMap(runs, PairsOf, p);
        InFlatMap(Pairs(runs), PairGaps(w), g);
      }
    }
    forall s | s in Seams(runs) ensures s.left <= t <==> s.right <= t {
      if Min(s.left, s.right) <= t < Max(s.left, s.right) {
        var g := SeamIsGap(s, w, t);
        InFlatMap(Seams(runs), SeamGaps(w), g);
      }
    }
  }

  lemma {:induction false} RunStaysLate(run: Run, t: int, a: nat, b: nat)
    requires forall p :: p in PairsOf(run) ==> !(End(p) <= t < Start(p))
    requires a <= b < |run| && run[a].timestamp > t
    ensures run[b].timestamp > t
    decreases b
  {
    if a < b {
      RunStaysLate(run, t, a, b - 1);
      assert PairsOf(run)[b - 1] in PairsOf(run);
    }
  }

  lemma RunSpannedOnce(run: Run, t: int, a: nat, b: nat)
    requires forall p :: p in PairsOf(run) ==> !(End(p) <= t < Start(p))
    requires a < b < |PairsOf(run)| && Spans(PairsOf(run)[a], t)
    ensures !Spans(PairsOf(run)[b], t)
  {
    RunStaysLate(run, t, a + 1, b);
  }

  lemma RunEndsLate(run: Run, t: int, a: nat)
    requires forall p :: p in PairsOf(run) ==> !(End(p) <= t < Start(p))
    requires a < |PairsOf(run)| && Spans(PairsOf(run)[a], t)
    ensures FirstInstant(run) <= t < LastInstant(run)
  {
    RunStaysLate(run, t, a + 1, |run| - 1);
    if run[0].timestamp > t { RunStaysLate(run, t, 0, a); }
  }

  lemma SeamsInit(runs: seq<Run>)
    requires runs != []
    ensures forall s :: s in Seams(runs[..|runs| - 1]) ==> s in Seams(runs)
  {
    var init := runs[..|runs| - 1];
    forall s | s in Seams(init) ensures s in Seams(runs) {
      var i :| 0 <= i < |Seams(init)| && Seams(init)[i] == s;
      assert Seams(runs)[i] == s;
    }
  }

  lemma NoFallbackInit(runs: seq<Run>, t: int)
    requires runs != [] && NoFallback(runs, t)
    ensures NoFallback(runs[..|runs| - 1], t)
  {
    SeamsInit(runs);
    assert forall run :: run in runs[..|runs| - 1] ==> run in runs;
  }

  /** The last run ends after every instant some pair spans. */
  lemma {:induction false} LastRunEndsLate(runs: seq<Run>, t: int, c: nat)
    requires NonEmpty(runs) && NoFallback(runs, t)
    requires c < |Pairs(runs)| && Spans(Pairs(runs)[c], t)
    ensures runs != [] && LastInstant(runs[|runs| - 1]) > t
    decreases |runs|
  {
    var init, run := runs[..|runs| - 1], runs[|runs| - 1];
    var n := |Pairs(init)|;
    assert Pairs(runs) == Pairs(init) + PairsOf(run);
    assert forall r :: r in init ==> r in runs;
    assert run in runs && NonEmpty(init);
    if c < n {
      NoFallbackInit(runs, t);
      LastRunEndsLate(init, t, c);
      SeamCarriesOn(runs, t);
      RunStaysLate(run, t, 0, |run| - 1);
    } else {
      RunEndsLate(run, t, c - n);
    }
  }

  /** Two pairs never span the same instant: the later one's run has moved past it. */
  lemma {:induction false} SpannedOnce(runs: seq<Run>, t: int, c: nat, d: nat)
    requires NonEmpty(runs) && NoFallback(runs, t)
    requires c < |Pairs(runs)| && Spans(Pairs(runs)[c], t)
    ensures runs != [] && LastInstant(runs[|runs| - 1]) > t
    ensures c < d < |Pairs(runs)| ==> !Spans(Pairs(runs)[d], t)
    decreases |runs|
  {
    LastRunEndsLate(runs, t, c);
    var init, run := runs[..|runs| - 1], runs[|runs| - 1];
    var n := |Pairs(init)|;
    assert Pairs(runs) == Pairs(init) + PairsOf(run);
    assert forall r :: r in init ==> r in runs;
    assert run in runs && NonEmpty(init);
    if c < n {
      NoFallbackInit(runs, t);
      SpannedOnce(init, t, c, d);
      SeamCarriesOn(runs, t);
      if n <= d < |Pairs(runs)| { RunStaysLate(run, t, 0, d - n); }
    } else if c < d < |Pairs(runs)| {
      RunSpannedOnce(run, t, c - n, d - n);
    }
  }

  lemma SeamCarriesOn(runs: seq<Run>, t: int)
    requires |runs| > 1 && NonEmpty(runs) && NoFallback(runs, t)
    ensures LastInstant(runs[|runs| - 2]) <= t <==> FirstInstant(runs[|runs| - 1]) <= t
  {
    assert Seams(runs)[|runs| - 2] in Seams(runs);
  }

  // ---------------------------------------------------------- the coverage sweep

  predicate Seen(covered: seq<Interval>, t: int) {
    exists x :: x in covered && InInterval(x, t)
  }

  lemma SortedInit(sorted: seq<Interval>)
    requires SortedBy(sorted, IntervalStart) && |sorted| > 1
    ensures sorted[|sorted| - 2].start <= sorted[|sorted| - 1].start
  {
    assert IntervalStart(sorted[|sorted| - 2]) <= IntervalStart(sorted[|sorted| - 1]);
  }

  lemma {:induction false} HorizonCovers(covered: seq<Interval>, since: int)
    ensures since <= Horizon(covered, since)
    ensures forall x :: x in covered ==> x.end <= Horizon(covered, since)
  {
    if covered != [] {
      assert covered == covered[..|covered| - 1] + [covered[|covered| - 1]];
      HorizonCovers(covered[..|covered| - 1], since);
    }
  }

  lemma {:induction false} HorizonBounds(sorted: seq<Interval>, since: int)
    requires SortedBy(sorted, IntervalStart) && forall x :: x in sorted ==> since <= x.start < x.end
    ensures since <= Horizon(sorted, since)
    ensures forall x :: x in sorted ==> x.end <= Horizon(sorted, since)
    ensures forall g :: g in Unobserved(sorted, since) ==> sorted != [] && g.end <= sorted[|sorted| - 1].start
  {
    HorizonCovers(sorted, since);
    if sorted != [] {
      var init, x := sorted[..|sorted| - 1], sorted[|sorted| - 1];
      assert forall y :: y in init ==> y in sorted;
      HorizonBounds(init, since);
      if |sorted| > 1 { SortedInit(sorted); }
    }
  }

  lemma SeenNext(init: seq<Interval>, x: Interval, t: int)
    ensures Seen(init + [x], t) <==> Seen(init, t) || InInterval(x, t)
  {
    if Seen(init, t) {
      var y :| y in init && InInterval(y, t);
      assert y in init + [x];
    }
    assert x in init + [x];
  }

  lemma ClearConcat(gaps: seq<Gap>, more: seq<Gap>, t: int)
    ensures Clear(gaps + more, t) <==> Clear(gaps, t) && Clear(more, t)
  {
    assert forall g :: g in gaps + more <==> g in gaps || g in more;
  }

  /** One more interval adds at most the gap from the horizon to its start. */
  lemma GapNext(init: seq<Interval>, x: Interval, since: int, t: int)
    ensures Clear(Unobserved(init + [x], since), t) <==>
            Clear(Unobserved(init, since), t) && !(Horizon(init, since) <= t < x.start)
    ensures Horizon(init + [x], since) == Max(Horizon(init, since), x.end)
  {
    assert (init + [x])[..|init|] == init;
    var h := Horizon(init, since);
    ClearConcat(Unobserved(init, since), if x.start > h then [Gap(h, x.start, UnobservedWindow)] else [], t);
    assert Clear([Gap(h, x.start, UnobservedWindow)], t) <==> !(h <= t < x.start) by {
      assert Gap(h, x.start, UnobservedWindow) in [Gap(h, x.start, UnobservedWindow)];
    }
  }

  /** No gap so far reaches past the start of the last interval. */
  lemma LateIsClear(sorted: seq<Interval>, since: int, t: int)
    requires SortedBy(sorted, IntervalStart) && forall x :: x in sorted ==> since <= x.start < x.end
    requires sorted == [] || sorted[|sorted| - 1].start <= t
    ensures Clear(Unobserved(sorted, since), t)
  {
    HorizonBounds(sorted, since);
  }

  lemma PastHorizon(sorted: seq<Interval>, since: int, t: int)
    requires SortedBy(sorted, IntervalStart) && forall x :: x in sorted ==> since <= x.start < x.end
    requires Horizon(sorted, since) <= t
    ensures !Seen(sorted, t) && Clear(Unobserved(sorted, since), t)
  {
    HorizonBounds(sorted, since);
    if sorted != [] { assert sorted[|sorted| - 1] in sorted; }
    LateIsClear(sorted, since, t);
  }

  lemma InitSound(sorted: seq<Interval>, since: int)
    requires SortedBy(sorted, IntervalStart) && forall x :: x in sorted ==> since <= x.start < x.end
    requires sorted != []
    ensures var init, x := sorted[..|sorted| - 1], sorted[|sorted| - 1];
            && sorted == init + [x] && SortedBy(init, IntervalStart) && since <= x.start < x.end
            && (forall y :: y in init ==> since <= y.start < y.end)
  {
    var init, x := sorted[..|sorted| - 1], sorted[|sorted| - 1];
    assert sorted == init + [x] && x in sorted;
    forall y | y in init ensures since <= y.start < y.end { assert y in sorted; }
  }

  /** Instants before the horizon are in an unobserved gap exactly when no interval holds them. */
  lemma {:induction false} SweepExact(sorted: seq<Interval>, since: int, t: int)
    requires SortedBy(sorted, IntervalStart) && forall x :: x in sorted ==> since <= x.start < x.end
    requires since <= t < Horizon(sorted, since)
    ensures Clear(Unobserved(sorted, since), t) <==> Seen(sorted, t)
  {
    if sorted != [] {
      var init, x := sorted[..|sorted| - 1], sorted[|sorted| - 1];
      InitSound(sorted, since);
      SeenNext(init, x, t);
      GapNext(init, x, since, t);
      if t < Horizon(init, since) {
        SweepExact(init, since, t);
        if x.start <= t {
          if init != [] { SortedInit(sorted); }
          LateIsClear(init, since, t);
        }
      } else {
        PastHorizon(init, since, t);
      }
    }
  }

  lemma CoveredIn(runs: seq<Run>, w: Window)
    ensures SortedBy(CoveredBy(runs, w), IntervalStart)
    ensures forall x :: x in CoveredBy(runs, w) <==>
              exists p :: p in Pairs(runs) && Covers(p, w) && x == Interval(Left(p, w), Right(p, w))
  {
    var list := FlatMap(Pairs(runs), PairCovered(w));
    SortSorts(list, IntervalStart);
    forall x ensures x in list <==> exists p :: p in Pairs(runs) && Covers(p, w) && x == Interval(Left(p, w), Right(p, w)) {
      InFlatMap(Pairs(runs), PairCovered(w), x);
    }
  }

  /** Some linked pair spans this instant. */
  ghost predicate Observed(runs: seq<Run>, t: int) {
    exists p :: p in Pairs(runs) && Linked(p) && Spans(p, t)
  }

  /**
   * The sweep is exact: an instant of the window lies in an unobserved gap if and only if no linked pair
   * spans it. In particular covered intervals and gaps together always fill the window.
   */
  lemma UnobservedIff(runs: seq<Run>, w: Window, t: int)
    requires Within(w, t)
    ensures var covered := CoveredBy(runs, w);
            Clear(Unobserved(covered, w.since) + TailGaps(covered, w), t) <==> Observed(runs, t)
  {
    var covered := CoveredBy(runs, w);
    CoveredIn(runs, w);
    HorizonBounds(covered, w.since);
    SeenIffObserved(runs, w, t);
    ClearConcat(Unobserved(covered, w.since), TailGaps(covered, w), t);
    if t < Horizon(covered, w.since) {
      SweepExact(covered, w.since, t);
    } else {
      assert Gap(Horizon(covered, w.since), w.until, UnobservedWindow) in TailGaps(covered, w);
    }
  }

  lemma SeenIffObserved(runs: seq<Run>, w: Window, t: int)
    requires Within(w, t)
    ensures Seen(CoveredBy(runs, w), t) <==> Observed(runs, t)
  {
    CoveredIn(runs, w);
    if Observed(runs, t) {
      var p :| p in Pairs(runs) && Linked(p) && Spans(p, t);
      assert Covers(p, w) && InInterval(Interval(Left(p, w), Right(p, w)), t);
    }
    if Seen(CoveredBy(runs, w), t) {
      var x :| x in CoveredBy(runs, w) && InInterval(x, t);
      var p :| p in Pairs(runs) && Covers(p, w) && x == Interval(Left(p, w), Right(p, w));
      assert Spans(p, t);
    }
  }

  // ------------------------------------------------------------- one instant

  /** The pair at this position spans `t` and continues the chain. */
  predicate GovernsAt(runs: seq<Run>, t: int, c: nat) {
    c < |Pairs(runs)| && Linked(Pairs(runs)[c]) && Spans(Pairs(runs)[c], t)
  }

  /**
   * Clear of gaps, an instant is governed by exactly one of the consecutive pairs, and that one is linked;
   * this holds of every report, complete or not, whatever reversals and sessions lie around the instant.
   */
  lemma GovernedOnce(runs: seq<Run>, w: Window, oneBot: bool, t: int) returns (c: nat)
    requires NonEmpty(runs) && Within(w, t) && Clear(AllGaps(runs, w, oneBot), t)
    ensures GovernsAt(runs, t, c)
    ensures forall d :: 0 <= d < |Pairs(runs)| && Spans(Pairs(runs)[d], t) ==> d == c
  {
    GapSources(runs, w, oneBot);
    var covered := CoveredBy(runs, w);
    assert Clear(Unobserved(covered, w.since) + TailGaps(covered, w), t);
    UnobservedIff(runs, w, t);
    var p :| p in Pairs(runs) && Linked(p) && Spans(p, t);
    c :| 0 <= c < |Pairs(runs)| && Pairs(runs)[c] == p;
    ClearHasNoFallback(runs, w, oneBot, t);
    forall d | 0 <= d < |Pairs(runs)| && Spans(Pairs(runs)[d], t) ensures d == c {
      SpannedOnce(runs, t, c, d);
      SpannedOnce(runs, t, d, c);
    }
  }
}
