/** Why an instant of the window is uncertain, in terms of the frames: every gap has its cause, and every cause its gap. */
module ReportGaps {
  import opened Leases
  import opened LeaseFrames
  import opened Sequences
  import opened ReportRuns
  import opened ReportScan
  import opened ReportCoverage

  /** The second frame carries on where the first one stopped. */
  predicate CarriesOn(p: Pair) {
    && p.current.sequence == p.previous.sequence + 1 && p.current.before == p.previous.after
    && (p.current.boundary == None || p.current.boundary == Some(""))
    && p.previous.state.complete && p.current.state.complete
  }

  /** The instant passes between the last frame of run `i` and the first of the next, in whichever order they come. */
  predicate BetweenRuns(runs: seq<Run>, i: nat, t: int)
    requires i + 1 < |runs|
  {
    && runs[i] != [] && runs[i + 1] != []
    && var left, right := runs[i][|runs[i]| - 1].timestamp, runs[i + 1][0].timestamp;
       left <= t < right || right <= t < left
  }

  /** The cause behind each reason. */
  predicate Uncertain(runs: seq<Run>, oneBot: bool, t: int, why: Reason) {
    match why
    case SessionBoundary => exists i: nat :: i + 1 < |runs| && BetweenRuns(runs, i, t)
    case ClockReversal => exists p :: p in Pairs(runs) && p.current.timestamp <= t < p.previous.timestamp
    case Boundary(text) =>
      exists p :: p in Pairs(runs) && Spans(p, t) && text != "" && p.current.boundary == Some(text)
    case SequenceOrDigestGap =>
      exists p :: p in Pairs(runs) && Spans(p, t) && !CarriesOn(p) && !Bounded(p.current)
    case UnobservedWindow => forall p :: p in Pairs(runs) && Spans(p, t) ==> !CarriesOn(p)
    case MixedBotScope => !oneBot
  }

  predicate GapAt(gaps: seq<Gap>, t: int, why: Reason) {
    exists g :: g in gaps && g.reason == why && Inside(g, t)
  }

  lemma GapAtConcat(a: seq<Gap>, b: seq<Gap>, t: int, why: Reason)
    ensures GapAt(a + b, t, why) <==> GapAt(a, t, why) || GapAt(b, t, why)
  {
  }

  lemma GapAtAny<A>(xs: seq<A>, f: A -> seq<Gap>, t: int, why: Reason)
    ensures GapAt(FlatMap(xs, f), t, why) <==> exists i :: 0 <= i < |xs| && GapAt(f(xs[i]), t, why)
  {
    if g :| g in FlatMap(xs, f) && g.reason == why && Inside(g, t) {
      InFlatMap(xs, f, g);
      var i :| 0 <= i < |xs| && g in f(xs[i]);
      assert GapAt(f(xs[i]), t, why);
    }
    if i :| 0 <= i < |xs| && GapAt(f(xs[i]), t, why) {
      var g :| g in f(xs[i]) && g.reason == why && Inside(g, t);
      InFlatMap(xs, f, g);
    }
  }

  lemma SeamGapAt(s: Seam, w: Window, t: int, why: Reason)
    requires Within(w, t)
    ensures GapAt(SeamGap(s, w), t, why) <==> why == SessionBoundary && (s.left <= t < s.right || s.right <= t < s.left)
  {
    if s.left <= t < s.right || s.right <= t < s.left {
      var g := SeamIsGap(s, w, t);
      assert g in SeamGap(s, w) && g.reason == SessionBoundary;
    }
  }

  lemma SeamsAt(runs: seq<Run>, w: Window, t: int, why: Reason)
    requires NonEmpty(runs) && Within(w, t)
    ensures GapAt(FlatMap(Seams(runs), SeamGaps(w)), t, why) <==>
            why == SessionBoundary && exists i: nat :: i + 1 < |runs| && BetweenRuns(runs, i, t)
  {
    var ss := Seams(runs);
    GapAtAny(ss, SeamGaps(w), t, why);
    forall i | 0 <= i < |ss|
      ensures GapAt(SeamGaps(w)(ss[i]), t, why) <==> why == SessionBoundary && BetweenRuns(runs, i, t)
    {
      assert runs[i] in runs && runs[i + 1] in runs;
      SeamGapAt(ss[i], w, t, why);
    }
    if why == SessionBoundary && exists i: nat :: i + 1 < |runs| && BetweenRuns(runs, i, t) {
      var i: nat :| i + 1 < |runs| && BetweenRuns(runs, i, t);
      assert GapAt(SeamGaps(w)(ss[i]), t, why);
    }
  }

  lemma CarriesOnIs(p: Pair)
    ensures CarriesOn(p) <==> Linked(p)
  {
  }

  lemma UnlinkedAt(p: Pair, w: Window, t: int, why: Reason)
    requires Within(w, t)
    ensures GapAt(UnlinkedGaps(p, w), t, why) <==>
            && Spans(p, t) && !CarriesOn(p)
            && why == if Bounded(p.current) then Boundary(p.current.boundary.value) else SequenceOrDigestGap
  {
    CarriesOnIs(p);
    if Spans(p, t) && !CarriesOn(p) {
      assert UnlinkedGaps(p, w)[0] in UnlinkedGaps(p, w);
    }
  }

  lemma ReversalAt(p: Pair, w: Window, t: int, why: Reason)
    requires Within(w, t)
    ensures GapAt(ReversalGaps(p, w), t, why) <==> why == ClockReversal && End(p) <= t < Start(p)
  {
    if End(p) <= t < Start(p) { assert ReversalGaps(p, w)[0] in ReversalGaps(p, w); }
  }

  /** What a pair of frames gives cause for. */
  predicate FromPair(p: Pair, t: int, why: Reason) {
    || (why == ClockReversal && End(p) <= t < Start(p))
    || (&& Spans(p, t) && !CarriesOn(p)
        && why == if Bounded(p.current) then Boundary(p.current.boundary.value) else SequenceOrDigestGap)
  }

  lemma PairGapAt(p: Pair, w: Window, t: int, why: Reason)
    requires Within(w, t)
    ensures GapAt(PairGap(p, w), t, why) <==> FromPair(p, t, why)
  {
    ReversalAt(p, w, t, why);
    UnlinkedAt(p, w, t, why);
    GapAtConcat(ReversalGaps(p, w), InstantGaps(p, w), t, why);
    GapAtConcat(ReversalGaps(p, w) + InstantGaps(p, w), UnlinkedGaps(p, w), t, why);
    assert !GapAt(InstantGaps(p, w), t, why);
  }

  lemma PairsAt(runs: seq<Run>, w: Window, t: int, why: Reason)
    requires Within(w, t)
    ensures GapAt(FlatMap(Pairs(runs), PairGaps(w)), t, why) <==> exists p :: p in Pairs(runs) && FromPair(p, t, why)
  {
    var ps := Pairs(runs);
    GapAtAny(ps, PairGaps(w), t, why);
    forall i | 0 <= i < |ps| ensures GapAt(PairGaps(w)(ps[i]), t, why) <==> FromPair(ps[i], t, why) {
      PairGapAt(ps[i], w, t, why);
    }
    if p :| p in ps && FromPair(p, t, why) {
      var i :| 0 <= i < |ps| && ps[i] == p;
      assert GapAt(PairGaps(w)(ps[i]), t, why);
    }
  }

  lemma {:induction false} UnobservedReasons(covered: seq<Interval>, since: int)
    ensures forall g :: g in Unobserved(covered, since) ==> g.reason == UnobservedWindow
  {
    if covered != [] { UnobservedReasons(covered[..|covered| - 1], since); }
  }

  lemma UnobservedAt(runs: seq<Run>, w: Window, t: int, why: Reason)
    requires Within(w, t)
    ensures var covered := CoveredBy(runs, w);
            GapAt(Unobserved(covered, w.since) + TailGaps(covered, w), t, why) <==>
              why == UnobservedWindow && forall p :: p in Pairs(runs) && Spans(p, t) ==> !CarriesOn(p)
  {
    var covered := CoveredBy(runs, w);
    UnobservedReasons(covered, w.since);
    UnobservedIff(runs, w, t);
    forall p | p in Pairs(runs) ensures CarriesOn(p) <==> Linked(p) { CarriesOnIs(p); }
  }

  lemma ScopeAt(w: Window, oneBot: bool, t: int, why: Reason)
    requires Within(w, t)
    ensures GapAt(ScopeGaps(w, oneBot), t, why) <==> why == MixedBotScope && !oneBot
  {
    if !oneBot { assert ScopeGaps(w, oneBot)[0] in ScopeGaps(w, oneBot); }
  }

  lemma AllAt(runs: seq<Run>, w: Window, oneBot: bool, t: int, why: Reason)
    ensures var covered := CoveredBy(runs, w);
            GapAt(AllGaps(runs, w, oneBot), t, why) <==>
              || GapAt(FlatMap(Seams(runs), SeamGaps(w)), t, why)
              || GapAt(FlatMap(Pairs(runs), PairGaps(w)), t, why)
              || GapAt(Unobserved(covered, w.since) + TailGaps(covered, w), t, why)
              || GapAt(ScopeGaps(w, oneBot), t, why)
  {
    var covered := CoveredBy(runs, w);
    var a, b := FlatMap(Seams(runs), SeamGaps(w)), FlatMap(Pairs(runs), PairGaps(w));
    var c, d := Unobserved(covered, w.since), TailGaps(covered, w);
    GapAtConcat(a, b, t, why);
    GapAtConcat(a + b, c, t, why);
    GapAtConcat(a + b + c, d, t, why);
    GapAtConcat(c, d, t, why);
    GapAtConcat(a + b + c + d, ScopeGaps(w, oneBot), t, why);
  }

  lemma CausesArePairs(runs: seq<Run>, oneBot: bool, t: int, why: Reason)
    requires why.ClockReversal? || why.Boundary? || why.SequenceOrDigestGap?
    ensures Uncertain(runs, oneBot, t, why) <==> exists p :: p in Pairs(runs) && FromPair(p, t, why)
  {
    if p :| p in Pairs(runs) && FromPair(p, t, why) { assert Uncertain(runs, oneBot, t, why); }
    if Uncertain(runs, oneBot, t, why) {
      if why.Boundary? {
        var p :| p in Pairs(runs) && Spans(p, t) && why.text != "" && p.current.boundary == Some(why.text);
        assert FromPair(p, t, why);
      } else if why.ClockReversal? {
        var p :| p in Pairs(runs) && p.current.timestamp <= t < p.previous.timestamp;
        assert FromPair(p, t, why);
      } else {
        var p :| p in Pairs(runs) && Spans(p, t) && !CarriesOn(p) && !Bounded(p.current);
        assert FromPair(p, t, why);
      }
    }
  }

  lemma OtherCauses(runs: seq<Run>, t: int, why: Reason)
    requires why.SessionBoundary? || why.UnobservedWindow? || why.MixedBotScope?
    ensures !exists p :: p in Pairs(runs) && FromPair(p, t, why)
  {
  }

  /** An instant of the window lies in a gap of some reason if and only if the frames give that cause there. */
  lemma GapIff(runs: seq<Run>, w: Window, oneBot: bool, t: int, why: Reason)
    requires NonEmpty(runs) && Within(w, t)
    ensures GapAt(AllGaps(runs, w, oneBot), t, why) <==> Uncertain(runs, oneBot, t, why)
  {
    AllAt(runs, w, oneBot, t, why);
    SeamsAt(runs, w, t, why);
    PairsAt(runs, w, t, why);
    UnobservedAt(runs, w, t, why);
    ScopeAt(w, oneBot, t, why);
    if why.ClockReversal? || why.Boundary? || why.SequenceOrDigestGap? {
      CausesArePairs(runs, oneBot, t, why);
    } else {
      OtherCauses(runs, t, why);
    }
  }

  /** The checkpoint repeats the last frame of this run: same session and sequence, same state, no earlier. */
  predicate Repeats(c: Checkpoint, run: Run) {
    && run != []
    && var last := run[|run| - 1];
       c.session == last.session && c.sequence == last.sequence && c.state == last.state && c.after == last.after
       && last.timestamp <= c.timestamp
  }

  /**
   * What a checkpoint is good for: the run whose last frame it repeats gains one pair, which carries that frame's state on
   * to the checkpoint's instant; every other run is left alone.
   */
  lemma SealExtends(run: Run, c: Checkpoint)
    requires run != []
    ensures !Repeats(c, run) ==> MaybeSealed(run, c) == run
    ensures Repeats(c, run) ==>
              var last, ps, sealed := run[|run| - 1], PairsOf(run), PairsOf(MaybeSealed(run, c));
              && |sealed| == |ps| + 1 && sealed[..|ps|] == ps
              && sealed[|ps|].previous == last && sealed[|ps|].current.timestamp == c.timestamp
              && (CarriesOn(sealed[|ps|]) <==> last.state.complete)
  {
    if Repeats(c, run) {
      var ps, sealed := PairsOf(run), PairsOf(MaybeSealed(run, c));
      forall a | 0 <= a < |ps| ensures sealed[a] == ps[a] {}
      assert sealed[..|ps|] == ps;
    }
  }

  /** So an instant is certain exactly when no cause is there. */
  lemma ClearIff(runs: seq<Run>, w: Window, oneBot: bool, t: int)
    requires NonEmpty(runs) && Within(w, t)
    ensures Clear(AllGaps(runs, w, oneBot), t) <==> forall why :: !Uncertain(runs, oneBot, t, why)
  {
    forall why ensures GapAt(AllGaps(runs, w, oneBot), t, why) <==> Uncertain(runs, oneBot, t, why) {
      GapIff(runs, w, oneBot, t, why);
    }
    if g :| g in AllGaps(runs, w, oneBot) && Inside(g, t) {
      assert GapAt(AllGaps(runs, w, oneBot), t, g.reason);
    }
  }
}
