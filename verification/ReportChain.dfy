/** A report without gaps is one session's unbroken tiling of the window. */
module ReportChain {
  import opened Leases
  import opened LeaseFrames
  import opened Sequences
  import opened ReportRuns
  import opened ReportScan
  import opened ReportCoverage

  /** The seam between two runs lies outside the window. */
  predicate Apart(s: Seam, w: Window) { Min(s.left, s.right) >= w.until || Max(s.left, s.right) <= w.since }

  /** The pair breaks nothing inside the window. */
  predicate Benign(p: Pair, w: Window) {
    && !(End(p) < Start(p) && End(p) < w.until && Start(p) > w.since)
    && !(Bounded(p.current) && Start(p) == End(p) && w.since < Start(p) < w.until)
    && (Left(p, w) < Right(p, w) ==> Linked(p))
  }

  lemma {:induction false} FlatMapEmpty<A, B>(xs: seq<A>, f: A -> seq<B>)
    ensures FlatMap(xs, f) == [] <==> forall x :: x in xs ==> f(x) == []
  {
    if xs != [] {
      var init, x := xs[..|xs| - 1], xs[|xs| - 1];
      assert xs == init + [x];
      FlatMapEmpty(init, f);
    }
  }

  /**
   * Nothing is uncertain if and only if all frames came from one bot, no seam, reversal, boundary or
   * unlinked pair touches the window, and a linked pair spans each of its instants.
   */
  lemma GapFreeIff(runs: seq<Run>, w: Window, oneBot: bool)
    requires w.since < w.until
    ensures AllGaps(runs, w, oneBot) == [] <==>
            && oneBot
            && (forall s :: s in Seams(runs) ==> Apart(s, w))
            && (forall p :: p in Pairs(runs) ==> Benign(p, w))
            && (forall t :: Within(w, t) ==> Observed(runs, t))
  {
    SeamsEmptyIff(runs, w);
    PairsEmptyIff(runs, w);
    SweepEmptyIff(runs, w);
  }

  lemma SeamsEmptyIff(runs: seq<Run>, w: Window)
    ensures FlatMap(Seams(runs), SeamGaps(w)) == [] <==> forall s :: s in Seams(runs) ==> Apart(s, w)
  {
    FlatMapEmpty(Seams(runs), SeamGaps(w));
    assert forall s :: SeamGaps(w)(s) == [] <==> Apart(s, w);
  }

  lemma PairsEmptyIff(runs: seq<Run>, w: Window)
    ensures FlatMap(Pairs(runs), PairGaps(w)) == [] <==> forall p :: p in Pairs(runs) ==> Benign(p, w)
  {
    FlatMapEmpty(Pairs(runs), PairGaps(w));
    assert forall p :: PairGaps(w)(p) == [] <==> Benign(p, w);
  }

  lemma SweepEmptyIff(runs: seq<Run>, w: Window)
    requires w.since < w.until
    ensures var covered := CoveredBy(runs, w);
            Unobserved(covered, w.since) + TailGaps(covered, w) == [] <==> forall t :: Within(w, t) ==> Observed(runs, t)
  {
    var covered := CoveredBy(runs, w);
    var gaps := Unobserved(covered, w.since) + TailGaps(covered, w);
    if gaps == [] {
      forall t | Within(w, t) ensures Observed(runs, t) {
        UnobservedIff(runs, w, t);
      }
    } else {
      CoveredIn(runs, w);
      HorizonBounds(covered, w.since);
      UnobservedHasLength(covered, w.since);
      var g := gaps[0];
      assert g in gaps;
      assert g in Unobserved(covered, w.since) || g in TailGaps(covered, w);
      if g in Unobserved(covered, w.since) {
        var x := covered[|covered| - 1];
        assert x in covered;
      }
      assert Within(w, g.start) && Inside(g, g.start);
      UnobservedIff(runs, w, g.start);
    }
  }

  lemma {:induction false} UnobservedHasLength(sorted: seq<Interval>, since: int)
    requires SortedBy(sorted, IntervalStart) && forall x :: x in sorted ==> since <= x.start < x.end
    ensures forall g :: g in Unobserved(sorted, since) ==> since <= g.start < g.end
  {
    if sorted != [] {
      var init, x := sorted[..|sorted| - 1], sorted[|sorted| - 1];
      assert sorted == init + [x];
      UnobservedHasLength(init, since);
      HorizonBounds(init, since);
    }
  }

  // -------------------------------------------------------------- one session

  ghost predicate Sound(runs: seq<Run>, w: Window) {
    && NonEmpty(runs)
    && (forall s :: s in Seams(runs) ==> Apart(s, w))
    && (forall run, p :: run in runs && p in PairsOf(run) ==> Benign(p, w))
  }

  lemma SoundHasNoFallback(runs: seq<Run>, w: Window, t: int)
    requires Sound(runs, w) && Within(w, t)
    ensures NoFallback(runs, t)
  {
    forall run, p | run in runs && p in PairsOf(run) ensures !(End(p) <= t < Start(p)) {
      assert Benign(p, w);
    }
  }

  lemma SoundInit(runs: seq<Run>, w: Window)
    requires runs != [] && Sound(runs, w)
    ensures Sound(runs[..|runs| - 1], w)
  {
    SeamsInit(runs);
    var init := runs[..|runs| - 1];
    forall run | run in init ensures run in runs && run != [] {}
    forall run, p | run in init && p in PairsOf(run) ensures Benign(p, w) { assert run in runs; }
  }

  /** After a run has governed an instant of the window, no later run governs any instant of it. */
  lemma LaterRunIsLate(runs: seq<Run>, w: Window, t: int, c: nat, u: int, d: nat)
    requires runs != [] && Sound(runs, w) && Within(w, t) && Within(w, u)
    requires c < |Pairs(runs[..|runs| - 1])| && Spans(Pairs(runs[..|runs| - 1])[c], t)
    requires d < |PairsOf(runs[|runs| - 1])|
    ensures !Spans(PairsOf(runs[|runs| - 1])[d], u)
  {
    var init, run := runs[..|runs| - 1], runs[|runs| - 1];
    SoundInit(runs, w);
    SoundHasNoFallback(init, w, t);
    SoundHasNoFallback(runs, w, u);
    SpannedOnce(init, t, c, c);
    var s := Seams(runs)[|runs| - 2];
    assert s in Seams(runs) && Apart(s, w);
    assert run in runs;
    RunStaysLate(run, u, 0, d);
  }

  /** Which run a position in the list of all pairs belongs to, and where in it. */
  function Locate(runs: seq<Run>, c: nat): (at: (nat, nat))
    requires c < |Pairs(runs)|
    ensures at.0 < |runs| && at.1 < |PairsOf(runs[at.0])|
    ensures PairsOf(runs[at.0])[at.1] == Pairs(runs)[c]
  {
    var last := |runs| - 1;
    assert Pairs(runs) == Pairs(runs[..last]) + PairsOf(runs[last]);
    var n := |Pairs(runs[..last])|;
    if c < n then Locate(runs[..last], c) else (last, c - n)
  }

  /** All instants of the window are governed inside one run. */
  lemma {:induction false} OneRun(runs: seq<Run>, w: Window, t: int, c: nat, u: int, d: nat)
    requires Sound(runs, w) && Within(w, t) && Within(w, u)
    requires c < |Pairs(runs)| && Spans(Pairs(runs)[c], t) && d < |Pairs(runs)| && Spans(Pairs(runs)[d], u)
    ensures Locate(runs, c).0 == Locate(runs, d).0
    decreases |runs|
  {
    var last := |runs| - 1;
    var n := |Pairs(runs[..last])|;
    assert Pairs(runs) == Pairs(runs[..last]) + PairsOf(runs[last]);
    SoundInit(runs, w);
    if c < n && d < n {
      OneRun(runs[..last], w, t, c, u, d);
    } else {
      if c < n { LaterRunIsLate(runs, w, t, c, u, d - n); }
      if d < n { LaterRunIsLate(runs, w, u, d, t, c - n); }
    }
  }

  /** The pair moves time on along the chain, or stays at one instant without a boundary. */
  predicate Follows(p: Pair) {
    (Start(p) < End(p) && Linked(p)) || (Start(p) == End(p) && !Bounded(p.current))
  }

  lemma ChainBetween(run: Run, w: Window, t: int, a: nat, u: int, b: nat)
    requires forall p :: p in PairsOf(run) ==> Benign(p, w)
    requires Within(w, t) && Within(w, u) && t <= u
    requires a < |PairsOf(run)| && Spans(PairsOf(run)[a], t) && b < |PairsOf(run)| && Spans(PairsOf(run)[b], u)
    ensures a <= b
    ensures forall c :: a <= c <= b ==> Follows(PairsOf(run)[c])
  {
    if b < a { RunStaysLate(run, u, b + 1, a); }
    forall c | a <= c <= b ensures Follows(PairsOf(run)[c]) { FollowsAt(run, w, t, a, u, b, c); }
  }

  lemma FollowsAt(run: Run, w: Window, t: int, a: nat, u: int, b: nat, c: nat)
    requires forall p :: p in PairsOf(run) ==> Benign(p, w)
    requires Within(w, t) && Within(w, u) && t <= u
    requires a < |PairsOf(run)| && Spans(PairsOf(run)[a], t) && b < |PairsOf(run)| && Spans(PairsOf(run)[b], u)
    requires a <= c <= b
    ensures Follows(PairsOf(run)[c])
  {
    assert PairsOf(run)[c] in PairsOf(run);
    if a < c { RunStaysLate(run, t, a + 1, c); }
    if c < b && run[c + 1].timestamp > u { RunStaysLate(run, u, c + 1, b); }
    if a < c { RunStaysLate(run, t, a + 1, c + 1); }
    if a < c && run[c].timestamp > u { RunStaysLate(run, u, c, b); }
  }

  // ------------------------------------------------------------------ tiling

  /** From `lo` to `hi` the consecutive pairs of this run reach across the window, each following the last. */
  ghost predicate Tiles(run: Run, w: Window, lo: nat, hi: nat) {
    var ps := PairsOf(run);
    && lo <= hi < |ps|
    && Start(ps[lo]) <= w.since < End(ps[lo]) && Start(ps[hi]) < w.until <= End(ps[hi])
    && forall a :: lo <= a <= hi ==> Follows(ps[a])
  }

  /** Between `lo` and `hi` a linked pair of this run spans the instant. */
  predicate Governed(run: Run, lo: nat, hi: nat, t: int) {
    exists a :: lo <= a <= hi && a < |PairsOf(run)| && Linked(PairsOf(run)[a]) && Spans(PairsOf(run)[a], t)
  }

  /** Not a single gap. */
  ghost predicate GapFree(runs: seq<Run>, w: Window, oneBot: bool) {
    forall g :: g !in AllGaps(runs, w, oneBot)
  }

  lemma EmptyOrNot(gaps: seq<Gap>)
    ensures gaps == [] || exists g :: g in gaps
  {
    if gaps != [] { assert gaps[0] in gaps; }
  }

  lemma GapFreeIsSound(runs: seq<Run>, w: Window, oneBot: bool)
    requires w.since < w.until && NonEmpty(runs) && GapFree(runs, w, oneBot)
    ensures Sound(runs, w)
  {
    EmptyOrNot(AllGaps(runs, w, oneBot));
    GapFreeIff(runs, w, oneBot);
    forall run, p | run in runs && p in PairsOf(run) ensures Benign(p, w) { InFlatMap(runs, PairsOf, p); }
  }

  /**
   * A gap-free report is governed by one run, hence one session: its consecutive pairs from `lo` to `hi`
   * tile the window. No other pair of the report spans any of its instants, by `GovernedOnce`.
   */
  lemma GapFreeTiles(runs: seq<Run>, w: Window, oneBot: bool) returns (i: nat, lo: nat, hi: nat)
    requires w.since < w.until && NonEmpty(runs) && GapFree(runs, w, oneBot)
    ensures i < |runs| && Tiles(runs[i], w, lo, hi)
    ensures forall t :: Within(w, t) ==> Governed(runs[i], lo, hi, t)
  {
    GapFreeIsSound(runs, w, oneBot);
    var first := GovernedOnce(runs, w, oneBot, w.since);
    var last := GovernedOnce(runs, w, oneBot, w.until - 1);
    OneRun(runs, w, w.since, first, w.until - 1, last);
    i, lo, hi := Locate(runs, first).0, Locate(runs, first).1, Locate(runs, last).1;
    assert runs[i] in runs;
    ChainBetween(runs[i], w, w.since, lo, w.until - 1, hi);
    forall t | Within(w, t) ensures Governed(runs[i], lo, hi, t) {
      GovernedBetween(runs, w, oneBot, first, last, t);
    }
  }

  lemma GovernedBetween(runs: seq<Run>, w: Window, oneBot: bool, first: nat, last: nat, t: int)
    requires Sound(runs, w) && GapFree(runs, w, oneBot) && Within(w, t)
    requires GovernsAt(runs, w.since, first) && GovernsAt(runs, w.until - 1, last)
    ensures Locate(runs, first).0 == Locate(runs, last).0
    ensures Governed(runs[Locate(runs, first).0], Locate(runs, first).1, Locate(runs, last).1, t)
  {
    OneRun(runs, w, w.since, first, w.until - 1, last);
    var c := GovernedOnce(runs, w, oneBot, t);
    OneRun(runs, w, w.since, first, t, c);
    var run, a := runs[Locate(runs, first).0], Locate(runs, c).1;
    assert run in runs;
    ChainBetween(run, w, w.since, Locate(runs, first).1, t, a);
    ChainBetween(run, w, t, a, w.until - 1, Locate(runs, last).1);
  }

  // --------------------------------------------------- frames of one instant

  /**
   * Along such a chain every frame follows from the one before (consecutive, linked by digest, complete) if and only
   * if that holds between frames that carry the same timestamp: those pairs have no length, and the report never
   * compares them. Of the sequence numbers alone: none is missing if and only if none is missing there.
   */
  lemma NothingMissingIff(run: Run, w: Window, lo: nat, hi: nat)
    requires RunOk(run) && Tiles(run, w, lo, hi)
    ensures run[hi + 1].sequence == run[lo].sequence + (hi + 1 - lo) <==>
            forall a :: lo <= a <= hi && Start(PairsOf(run)[a]) == End(PairsOf(run)[a])
                        ==> PairsOf(run)[a].current.sequence == PairsOf(run)[a].previous.sequence + 1
    ensures (forall a :: lo <= a <= hi ==> Linked(PairsOf(run)[a])) <==>
            forall a :: lo <= a <= hi && Start(PairsOf(run)[a]) == End(PairsOf(run)[a])
                        ==> && PairsOf(run)[a].current.sequence == PairsOf(run)[a].previous.sequence + 1
                            && PairsOf(run)[a].current.before == PairsOf(run)[a].previous.after
                            && PairsOf(run)[a].previous.state.complete && PairsOf(run)[a].current.state.complete
  {
    SequenceIff(run, w, lo, hi);
  }

  lemma SequenceIff(run: Run, w: Window, lo: nat, hi: nat)
    requires RunOk(run) && Tiles(run, w, lo, hi)
    ensures run[hi + 1].sequence == run[lo].sequence + (hi + 1 - lo) <==>
            forall a :: lo <= a <= hi && Start(PairsOf(run)[a]) == End(PairsOf(run)[a])
                        ==> PairsOf(run)[a].current.sequence == PairsOf(run)[a].previous.sequence + 1
  {
    var ps := PairsOf(run);
    if a :| lo <= a <= hi && ps[a].current.sequence != ps[a].previous.sequence + 1 {
      SequencesAdvance(run, lo, a);
      SequencesAdvance(run, a + 1, hi + 1);
      assert Follows(ps[a]);
    } else {
      SequencesConsecutive(run, lo, hi + 1);
    }
  }

  lemma {:induction false} SequencesAdvance(run: Run, a: nat, b: nat)
    requires RunOk(run) && a <= b < |run|
    ensures run[b].sequence >= run[a].sequence + (b - a)
    decreases b
  {
    if a < b { SequencesAdvance(run, a, b - 1); }
  }

  lemma {:induction false} SequencesConsecutive(run: Run, a: nat, b: nat)
    requires a <= b < |run|
    requires forall c :: a <= c < b ==> PairsOf(run)[c].current.sequence == PairsOf(run)[c].previous.sequence + 1
    ensures run[b].sequence == run[a].sequence + (b - a)
    decreases b
  {
    if a < b {
      SequencesConsecutive(run, a, b - 1);
      assert PairsOf(run)[b - 1] == Pair(run[b - 1], run[b]);
    }
  }

  /** Between two frames of one instant the report compares nothing: any later, complete frame `x` may stand there. */
  lemma NothingComparedAtOneInstant(f: Frame, x: Frame)
    requires f.state.complete && f.before == f.after && f.boundary.None?
    requires x.session == f.session && x.timestamp == 5 && x.sequence > 2 && x.state.complete && x.boundary.None?
    ensures var run := OneInstant(f, x);
            && RunOk(run) && AllGaps([run], Window(0, 10), true) == []
            && (Linked(PairsOf(run)[1]) <==> x.sequence == 3 && x.before == f.after)
  {
    var run := OneInstant(f, x);
    var w, ps := Window(0, 10), PairsOf(run);
    LinksAround(f, x);
    assert Seams([run]) == [];
    assert [run][..0] == [] && Pairs([run]) == Pairs([]) + ps;
    forall t | Within(w, t) ensures Observed([run], t) {
      var p := if t < 5 then ps[0] else ps[2];
      assert p in Pairs([run]) && Linked(p) && Spans(p, t);
    }
    GapFreeIff([run], w, true);
  }

  lemma LinksAround(f: Frame, x: Frame)
    requires f.state.complete && f.before == f.after && f.boundary.None?
    requires x.session == f.session && x.timestamp == 5 && x.sequence > 2 && x.state.complete && x.boundary.None?
    ensures var ps, w := PairsOf(OneInstant(f, x)), Window(0, 10);
            && Linked(ps[0]) && Linked(ps[2]) && (Linked(ps[1]) <==> x.sequence == 3 && x.before == f.after)
            && Start(ps[0]) == 0 && End(ps[0]) == 5 == Start(ps[2]) && End(ps[2]) == 10
            && forall p :: p in ps ==> Benign(p, w)
  {
    var ps := PairsOf(OneInstant(f, x));
    assert ps == [ps[0], ps[1], ps[2]];
  }

  /** `x` right after a frame of its own instant, followed by a frame that continues from `x`. */
  function OneInstant(f: Frame, x: Frame): Run {
    [f.(sequence := 1, timestamp := 0), f.(sequence := 2, timestamp := 5), x,
     f.(sequence := x.sequence + 1, timestamp := 10, before := x.after)]
  }

  /** So a missing sequence number goes unnoticed there, and so does a state that does not continue the last one. */
  lemma MissingFrameGoesUnnoticed(f: Frame, d: Digest)
    requires f.state.complete && f.before == f.after && f.boundary.None? && d != f.after
    ensures AllGaps([OneInstant(f, f.(sequence := 4, timestamp := 5))], Window(0, 10), true) == []
    ensures AllGaps([OneInstant(f, f.(sequence := 3, timestamp := 5, before := d))], Window(0, 10), true) == []
    ensures !Linked(PairsOf(OneInstant(f, f.(sequence := 4, timestamp := 5)))[1])
    ensures !Linked(PairsOf(OneInstant(f, f.(sequence := 3, timestamp := 5, before := d)))[1])
  {
    NothingComparedAtOneInstant(f, f.(sequence := 4, timestamp := 5));
    NothingComparedAtOneInstant(f, f.(sequence := 3, timestamp := 5, before := d));
  }
}
