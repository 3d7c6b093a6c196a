/** Verified seconds are sums over instants: exact subtraction, no double counting, totals that add up. */
module ReportTotals {
  import opened Leases
  import opened LeaseFrames
  import opened Sequences
  import opened ReportRuns
  import opened ReportScan
  import opened ReportCoverage

  type Pick = Grant -> bool

  predicate Counts(s: Segment, pick: Pick, t: int) { pick(s.grant) && s.start <= t < s.end }

  /** How many of the picked segments hold the instant `t`. */
  function CountAt(segments: seq<Segment>, pick: Pick, t: int): nat {
    if segments == [] then 0
    else CountAt(segments[..|segments| - 1], pick, t) + (if Counts(segments[|segments| - 1], pick, t) then 1 else 0)
  }

  function CountEach(segments: seq<Segment>, pick: Pick): int -> int { (t: int) => CountAt(segments, pick, t) }

  function Seconds(segments: seq<Segment>, pick: Pick): int {
    if segments == [] then 0
    else
      var s := segments[|segments| - 1];
      Seconds(segments[..|segments| - 1], pick) + (if pick(s.grant) then s.seconds else 0)
  }

  lemma {:induction false} CountConcat(xs: seq<Segment>, ys: seq<Segment>, pick: Pick, t: int)
    ensures CountAt(xs + ys, pick, t) == CountAt(xs, pick, t) + CountAt(ys, pick, t)
  {
    if ys == [] {
      assert xs + ys == xs;
    } else {
      assert (xs + ys)[..|xs + ys| - 1] == xs + ys[..|ys| - 1];
      CountConcat(xs, ys[..|ys| - 1], pick, t);
    }
  }

  // ------------------------------------------------------- interval subtraction

  function PieceCount(pieces: seq<Interval>, t: int): nat {
    if pieces == [] then 0
    else PieceCount(pieces[..|pieces| - 1], t) + (if InInterval(pieces[|pieces| - 1], t) then 1 else 0)
  }

  function TotalLength(pieces: seq<Interval>): int {
    if pieces == [] then 0
    else TotalLength(pieces[..|pieces| - 1]) + (pieces[|pieces| - 1].end - pieces[|pieces| - 1].start)
  }

  lemma CutCount(gap: Gap, p: Interval, pieces: seq<Interval>, t: int)
    requires gap.start < gap.end
    ensures PieceCount(pieces + Cut(gap)(p), t)
         == PieceCount(pieces, t) + (if InInterval(p, t) && !Inside(gap, t) then 1 else 0)
  {
    var cut := Cut(gap)(p);
    assert pieces + cut == if |cut| == 0 then pieces else (pieces + cut)[..|pieces + cut| - 1] + [cut[|cut| - 1]];
    if |cut| == 1 {
      assert (pieces + cut)[..|pieces|] == pieces;
    } else if |cut| == 2 {
      assert (pieces + cut)[..|pieces| + 1][..|pieces|] == pieces;
    }
  }

  lemma {:induction false} CutAllCount(gap: Gap, pieces: seq<Interval>, t: int)
    requires gap.start < gap.end
    ensures PieceCount(FlatMap(pieces, Cut(gap)), t) == if Inside(gap, t) then 0 else PieceCount(pieces, t)
  {
    if pieces != [] {
      var init, p := pieces[..|pieces| - 1], pieces[|pieces| - 1];
      CutAllCount(gap, init, t);
      CutCount(gap, p, FlatMap(init, Cut(gap)), t);
    }
  }

  /** Subtraction is exact: an instant survives, in exactly one piece, if and only if no gap contains it. */
  lemma {:induction false} SubtractionExact(piece: Interval, gaps: seq<Gap>, t: int)
    ensures PieceCount(Pieces(piece, gaps), t) == if InInterval(piece, t) && Clear(gaps, t) then 1 else 0
  {
    if gaps == [] {
      assert [piece][..0] == [];
    } else {
      var init, gap := gaps[..|gaps| - 1], gaps[|gaps| - 1];
      assert gaps == init + [gap];
      SubtractionExact(piece, init, t);
      ClearConcat(init, [gap], t);
      if gap.start < gap.end { CutAllCount(gap, Pieces(piece, init), t); }
    }
  }

  lemma {:induction false} PiecesWithin(piece: Interval, gaps: seq<Gap>)
    requires piece.start < piece.end
    ensures forall p :: p in Pieces(piece, gaps) ==> piece.start <= p.start < p.end <= piece.end
  {
    if gaps != [] {
      var init, gap := gaps[..|gaps| - 1], gaps[|gaps| - 1];
      PiecesWithin(piece, init);
      forall p | p in Pieces(piece, gaps) ensures piece.start <= p.start < p.end <= piece.end {
        InFlatMap(Pieces(piece, init), Cut(gap), p);
      }
    }
  }

  lemma {:induction false} TwoPiecesCount(pieces: seq<Interval>, i: nat, j: nat, t: int)
    requires i < j < |pieces| && InInterval(pieces[i], t) && InInterval(pieces[j], t)
    ensures PieceCount(pieces, t) >= 2
    decreases |pieces|
  {
    var init := pieces[..|pieces| - 1];
    if j < |init| { TwoPiecesCount(init, i, j, t); } else { OnePieceCounts(init, i, t); }
  }

  lemma {:induction false} OnePieceCounts(pieces: seq<Interval>, i: nat, t: int)
    requires i < |pieces| && InInterval(pieces[i], t)
    ensures PieceCount(pieces, t) >= 1
    decreases |pieces|
  {
    if i < |pieces| - 1 { OnePieceCounts(pieces[..|pieces| - 1], i, t); }
  }

  function PieceCountEach(pieces: seq<Interval>): int -> int { (t: int) => PieceCount(pieces, t) }

  lemma {:induction false} LengthsAreInstants(pieces: seq<Interval>, lo: int, hi: int)
    requires forall p :: p in pieces ==> lo <= p.start <= p.end <= hi
    requires lo <= hi
    ensures TotalLength(pieces) == Sum(lo, hi, PieceCountEach(pieces))
  {
    if pieces == [] {
      SumNothing(lo, hi, PieceCountEach(pieces));
    } else {
      var init, p := pieces[..|pieces| - 1], pieces[|pieces| - 1];
      assert forall q :: q in init ==> q in pieces;
      LengthsAreInstants(init, lo, hi);
      var here := (t: int) => if InInterval(p, t) then 1 else 0;
      SumLength(lo, hi, here, p.start, p.end);
      SumPlus(lo, hi, PieceCountEach(pieces), PieceCountEach(init), here);
    }
  }

  lemma {:induction false} SumNothing(lo: int, hi: int, f: int -> int)
    requires forall t :: lo <= t < hi ==> f(t) == 0
    ensures Sum(lo, hi, f) == 0
    decreases hi - lo
  {
    if lo < hi { SumNothing(lo, hi - 1, f); }
  }

  /** An instant of `[start, end)` that no gap contains. */
  function ClearEach(gaps: seq<Gap>): int -> int { (t: int) => if Clear(gaps, t) then 1 else 0 }

  /** The pieces are pairwise disjoint and together as long as the piece has instants outside every gap. */
  lemma PiecesDisjointAndExact(piece: Interval, gaps: seq<Gap>)
    requires piece.start < piece.end
    ensures var pieces := Pieces(piece, gaps);
            forall i, j, t :: 0 <= i < j < |pieces| ==> !(InInterval(pieces[i], t) && InInterval(pieces[j], t))
    ensures TotalLength(Pieces(piece, gaps)) == Sum(piece.start, piece.end, ClearEach(gaps))
  {
    var pieces := Pieces(piece, gaps);
    forall i, j, t | 0 <= i < j < |pieces| ensures !(InInterval(pieces[i], t) && InInterval(pieces[j], t)) {
      SubtractionExact(piece, gaps, t);
      if InInterval(pieces[i], t) && InInterval(pieces[j], t) { TwoPiecesCount(pieces, i, j, t); }
    }
    PiecesWithin(piece, gaps);
    LengthsAreInstants(pieces, piece.start, piece.end);
    forall t | piece.start <= t < piece.end ensures PieceCountEach(pieces)(t) == ClearEach(gaps)(t) {
      SubtractionExact(piece, gaps, t);
    }
    SumSame(piece.start, piece.end, PieceCountEach(pieces), ClearEach(gaps));
  }

  // ----------------------------------------------------------- clipped segments

  lemma {:induction false} ClippingCount(s: Segment, pieces: seq<Interval>, pick: Pick, t: int)
    ensures CountAt(FlatMap(pieces, Clipping(s)), pick, t) == if pick(s.grant) then PieceCount(pieces, t) else 0
  {
    if pieces != [] {
      var init, p := pieces[..|pieces| - 1], pieces[|pieces| - 1];
      ClippingCount(s, init, pick, t);
      CountConcat(FlatMap(init, Clipping(s)), Clipping(s)(p), pick, t);
      var one := Clipping(s)(p);
      assert one[..0] == [] && CountAt(one, pick, t) == if Counts(one[0], pick, t) then 1 else 0;
    }
  }

  lemma {:induction false} ClipCount(segments: seq<Segment>, gaps: seq<Gap>, pick: Pick, t: int)
    ensures CountAt(Clip(segments, gaps), pick, t) == if Clear(gaps, t) then CountAt(segments, pick, t) else 0
  {
    if segments != [] {
      var init, s := segments[..|segments| - 1], segments[|segments| - 1];
      ClipCount(init, gaps, pick, t);
      var whole := Interval(s.start, s.end);
      CountConcat(Clip(init, gaps), ClipOne(gaps)(s), pick, t);
      ClippingCount(s, Pieces(whole, gaps), pick, t);
      SubtractionExact(whole, gaps, t);
    }
  }

  predicate Measured(s: Segment, w: Window) {
    w.since <= s.start <= s.end <= w.until && s.seconds == s.end - s.start
  }

  lemma {:induction false} SecondsAreInstants(segments: seq<Segment>, pick: Pick, w: Window)
    requires forall s :: s in segments ==> Measured(s, w)
    requires w.since <= w.until
    ensures Seconds(segments, pick) == Sum(w.since, w.until, CountEach(segments, pick))
  {
    if segments == [] {
      SumNothing(w.since, w.until, CountEach(segments, pick));
    } else {
      var init, s := segments[..|segments| - 1], segments[|segments| - 1];
      assert s in segments && forall x :: x in init ==> x in segments;
      SecondsAreInstants(init, pick, w);
      var here := (t: int) => if Counts(s, pick, t) then 1 else 0;
      if pick(s.grant) {
        SumLength(w.since, w.until, here, s.start, s.end);
      } else {
        SumNothing(w.since, w.until, here);
      }
      SumPlus(w.since, w.until, CountEach(segments, pick), CountEach(init, pick), here);
    }
  }

  function Scanned(runs: seq<Run>, w: Window): seq<Segment> { FlatMap(Pairs(runs), PairSegments(w)) }

  lemma ItemMeasured(p: Pair, w: Window, s: Segment)
    requires Covers(p, w) && s in PairSegments(w)(p)
    ensures Measured(s, w) && s.start < s.end
  {
    var items := p.previous.state.allocations;
    InFlatMap(items, ItemSegments(Left(p, w), Right(p, w)), s);
    var i :| 0 <= i < |items| && s in ItemSegments(Left(p, w), Right(p, w))(items[i]);
    assert w.since <= Left(p, w) && Right(p, w) <= w.until;
  }

  lemma ScannedMeasured(runs: seq<Run>, w: Window)
    ensures forall s :: s in Scanned(runs, w) ==> Measured(s, w) && s.start < s.end
  {
    forall s | s in Scanned(runs, w) ensures Measured(s, w) && s.start < s.end {
      InFlatMap(Pairs(runs), PairSegments(w), s);
      var i :| 0 <= i < |Pairs(runs)| && s in PairSegments(w)(Pairs(runs)[i]);
      ItemMeasured(Pairs(runs)[i], w, s);
    }
  }

  lemma OneClippedMeasured(whole: Segment, w: Window, gaps: seq<Gap>)
    requires Measured(whole, w) && whole.start < whole.end
    ensures forall s :: s in ClipOne(gaps)(whole) ==> Measured(s, w)
  {
    var pieces := Pieces(Interval(whole.start, whole.end), gaps);
    PiecesWithin(Interval(whole.start, whole.end), gaps);
    forall s | s in ClipOne(gaps)(whole) ensures Measured(s, w) {
      InFlatMap(pieces, Clipping(whole), s);
    }
  }

  lemma ClippedMeasured(runs: seq<Run>, w: Window, gaps: seq<Gap>)
    ensures forall s :: s in Clip(Scanned(runs, w), gaps) ==> Measured(s, w)
  {
    ScannedMeasured(runs, w);
    forall s | s in Clip(Scanned(runs, w), gaps) ensures Measured(s, w) {
      InFlatMap(Scanned(runs, w), ClipOne(gaps), s);
      var whole :| whole in Scanned(runs, w) && s in ClipOne(gaps)(whole);
      OneClippedMeasured(whole, w, gaps);
    }
  }

  // ------------------------------------------------------ live allocations

  predicate LiveItem(x: Item, pick: Pick, t: int) {
    pick(GrantOf(x)) && x.deadline.Some? && x.start <= t < x.deadline.value
  }

  /** How many of the picked allocations are live at `t`. */
  function Live(items: seq<Item>, pick: Pick, t: int): nat {
    if items == [] then 0
    else Live(items[..|items| - 1], pick, t) + (if LiveItem(items[|items| - 1], pick, t) then 1 else 0)
  }

  lemma OneItemCount(x: Item, left: int, right: int, pick: Pick, t: int)
    ensures CountAt(ItemSegment(x, left, right), pick, t) == if left <= t < right && LiveItem(x, pick, t) then 1 else 0
  {
    var one := ItemSegment(x, left, right);
    if one != [] { assert one[..0] == []; }
  }

  lemma {:induction false} ItemsCount(items: seq<Item>, left: int, right: int, pick: Pick, t: int)
    ensures CountAt(FlatMap(items, ItemSegments(left, right)), pick, t)
         == if left <= t < right then Live(items, pick, t) else 0
  {
    if items != [] {
      var init, x := items[..|items| - 1], items[|items| - 1];
      ItemsCount(init, left, right, pick, t);
      OneItemCount(x, left, right, pick, t);
      CountConcat(FlatMap(init, ItemSegments(left, right)), ItemSegment(x, left, right), pick, t);
    }
  }

  lemma PairCount(p: Pair, w: Window, pick: Pick, t: int)
    requires Within(w, t)
    ensures CountAt(PairSegments(w)(p), pick, t)
         == if Linked(p) && Spans(p, t) then Live(p.previous.state.allocations, pick, t) else 0
  {
    ItemsCount(p.previous.state.allocations, Left(p, w), Right(p, w), pick, t);
  }

  /** When only the source at `c` yields segments holding `t`, all that hold it come from there. */
  lemma {:induction false} OnlyOneCounts<A>(xs: seq<A>, f: A -> seq<Segment>, pick: Pick, t: int, c: nat)
    requires c < |xs|
    requires forall d :: 0 <= d < |xs| && d != c ==> CountAt(f(xs[d]), pick, t) == 0
    ensures CountAt(FlatMap(xs, f), pick, t) == CountAt(f(xs[c]), pick, t)
    decreases |xs|
  {
    var last := |xs| - 1;
    CountConcat(FlatMap(xs[..last], f), f(xs[last]), pick, t);
    if c < last {
      OnlyOneCounts(xs[..last], f, pick, t, c);
    } else {
      NoneCounts(xs[..last], f, pick, t);
    }
  }

  lemma {:induction false} NoneCounts<A>(xs: seq<A>, f: A -> seq<Segment>, pick: Pick, t: int)
    requires forall d :: 0 <= d < |xs| ==> CountAt(f(xs[d]), pick, t) == 0
    ensures CountAt(FlatMap(xs, f), pick, t) == 0
  {
    if xs != [] {
      var last := |xs| - 1;
      CountConcat(FlatMap(xs[..last], f), f(xs[last]), pick, t);
      NoneCounts(xs[..last], f, pick, t);
    }
  }

  // --------------------------------------------------------------- theorems

  /** The allocations of the frame governing an instant, if the instant is certain. */
  ghost function InForce(runs: seq<Run>, w: Window, oneBot: bool, t: int): seq<Item> {
    if Clear(AllGaps(runs, w, oneBot), t) && exists c: nat :: GovernsAt(runs, t, c) then
      var c: nat :| GovernsAt(runs, t, c);
      Pairs(runs)[c].previous.state.allocations
    else []
  }

  /** What a report counts at an instant: the live ones among them. */
  ghost function LiveCount(runs: seq<Run>, w: Window, oneBot: bool, pick: Pick, t: int): nat {
    Live(InForce(runs, w, oneBot, t), pick, t)
  }

  ghost function LiveEach(runs: seq<Run>, w: Window, oneBot: bool, pick: Pick): int -> int {
    (t: int) => LiveCount(runs, w, oneBot, pick, t)
  }

  function Verified(runs: seq<Run>, w: Window, oneBot: bool): seq<Segment> {
    Clip(Scanned(runs, w), AllGaps(runs, w, oneBot))
  }

  lemma LiveCountIs(runs: seq<Run>, w: Window, oneBot: bool, pick: Pick, t: int) returns (c: nat)
    requires NonEmpty(runs) && Within(w, t) && Clear(AllGaps(runs, w, oneBot), t)
    ensures GovernsAt(runs, t, c)
    ensures forall d :: 0 <= d < |Pairs(runs)| && Spans(Pairs(runs)[d], t) ==> d == c
    ensures InForce(runs, w, oneBot, t) == Pairs(runs)[c].previous.state.allocations
    ensures LiveCount(runs, w, oneBot, pick, t) == Live(Pairs(runs)[c].previous.state.allocations, pick, t)
  {
    c := GovernedOnce(runs, w, oneBot, t);
  }

  lemma CountIsLive(runs: seq<Run>, w: Window, oneBot: bool, pick: Pick, t: int)
    requires NonEmpty(runs) && Within(w, t)
    ensures CountAt(Verified(runs, w, oneBot), pick, t) == LiveCount(runs, w, oneBot, pick, t)
  {
    ClipCount(Scanned(runs, w), AllGaps(runs, w, oneBot), pick, t);
    if Clear(AllGaps(runs, w, oneBot), t) {
      var c := LiveCountIs(runs, w, oneBot, pick, t);
      forall d | 0 <= d < |Pairs(runs)|
        ensures d != c ==> CountAt(PairSegments(w)(Pairs(runs)[d]), pick, t) == 0
      {
        PairCount(Pairs(runs)[d], w, pick, t);
      }
      OnlyOneCounts(Pairs(runs), PairSegments(w), pick, t, c);
      PairCount(Pairs(runs)[c], w, pick, t);
    }
  }

  /**
   * For any choice of grants, the verified seconds of a report, complete or not, are the number of those
   * grants live at each certain instant, by the start and deadline its governing frame had recorded,
   * summed over the window.
   */
  lemma VerifiedSecondsAreLiveInstants(runs: seq<Run>, w: Window, oneBot: bool, pick: Pick)
    requires NonEmpty(runs) && w.since < w.until
    ensures Seconds(Verified(runs, w, oneBot), pick) == Sum(w.since, w.until, LiveEach(runs, w, oneBot, pick))
  {
    var segments := Verified(runs, w, oneBot);
    ClippedMeasured(runs, w, AllGaps(runs, w, oneBot));
    SecondsAreInstants(segments, pick, w);
    forall t | w.since <= t < w.until ensures CountEach(segments, pick)(t) == LiveEach(runs, w, oneBot, pick)(t) {
      CountIsLive(runs, w, oneBot, pick, t);
    }
    SumSame(w.since, w.until, CountEach(segments, pick), LiveEach(runs, w, oneBot, pick));
  }

  function ByRef(ref: string): Pick { (g: Grant) => g.ref == ref }

  lemma {:induction false} OneLivePerRef(items: seq<Item>, ref: string, t: int)
    requires DistinctRefs(items)
    ensures Live(items, ByRef(ref), t) <= 1
    ensures (forall x :: x in items ==> x.ref != ref) ==> Live(items, ByRef(ref), t) == 0
  {
    if items != [] {
      var init, x := items[..|items| - 1], items[|items| - 1];
      assert items == init + [x];
      OneLivePerRef(init, ref, t);
      if x.ref == ref { assert forall y :: y in init ==> y.ref != ref; }
    }
  }

  lemma CountedOnce(runs: seq<Run>, w: Window, oneBot: bool, ref: string, t: int)
    requires NonEmpty(runs) && Within(w, t)
    requires forall run, f :: run in runs && f in run ==> ValidState(f.state)
    ensures CountAt(Verified(runs, w, oneBot), ByRef(ref), t) <= 1
  {
    CountIsLive(runs, w, oneBot, ByRef(ref), t);
    if Clear(AllGaps(runs, w, oneBot), t) {
      var c := LiveCountIs(runs, w, oneBot, ByRef(ref), t);
      var f := PreviousOf(runs, c);
      AllocationsDistinct(f.state);
      OneLivePerRef(f.state.allocations, ref, t);
    }
  }

  /** The earlier frame of a pair is a frame of some run. */
  lemma PreviousOf(runs: seq<Run>, c: nat) returns (f: Frame)
    requires c < |Pairs(runs)|
    ensures f == Pairs(runs)[c].previous && exists run :: run in runs && f in run
  {
    var p := Pairs(runs)[c];
    f := p.previous;
    InFlatMap(runs, PairsOf, p);
    var i :| 0 <= i < |runs| && p in PairsOf(runs[i]);
    var a :| 0 <= a < |PairsOf(runs[i])| && PairsOf(runs[i])[a] == p;
    assert runs[i][a] == f && runs[i] in runs;
  }

  /** No lease instant is counted twice: one lease never exceeds the window, however uncertain the report. */
  lemma NoDoubleCounting(runs: seq<Run>, w: Window, oneBot: bool, ref: string)
    requires NonEmpty(runs) && w.since < w.until
    requires forall run, f :: run in runs && f in run ==> ValidState(f.state)
    ensures forall t :: Within(w, t) ==> CountAt(Verified(runs, w, oneBot), ByRef(ref), t) <= 1
    ensures Seconds(Verified(runs, w, oneBot), ByRef(ref)) <= w.until - w.since
  {
    var segments := Verified(runs, w, oneBot);
    forall t | Within(w, t) ensures CountAt(segments, ByRef(ref), t) <= 1 { CountedOnce(runs, w, oneBot, ref, t); }
    ClippedMeasured(runs, w, AllGaps(runs, w, oneBot));
    SecondsAreInstants(segments, ByRef(ref), w);
    SumBound(w.since, w.until, CountEach(segments, ByRef(ref)), 1);
  }

  lemma AllocationsDistinct(s: Snapshot)
    requires ValidState(s)
    ensures DistinctRefs(s.allocations)
  {
    var all := s.allocations + s.bookings;
    forall i, j | 0 <= i < j < |s.allocations| ensures s.allocations[i].ref != s.allocations[j].ref {
      assert all[i] == s.allocations[i] && all[j] == s.allocations[j];
    }
  }

  // ------------------------------------------------------------ the totals

  datatype Measure = Measure(kind: string, mode: string)

  datatype Subject = Subject(platform: string, external: string, measure: Measure)

  function MeasureOf(g: Grant): Measure { Measure(g.kind, g.mode) }

  function SubjectOf(g: Grant): Subject { Subject(g.platform, g.external, MeasureOf(g)) }

  function ByMeasure(m: Measure): Pick { (g: Grant) => MeasureOf(g) == m }

  function BySubject(s: Subject): Pick { (g: Grant) => SubjectOf(g) == s }

  function AddTo<K>(m: map<K, int>, k: K, more: int): map<K, int> {
    m[k := (if k in m then m[k] else 0) + more]
  }

  /** Both dictionaries hold the seconds of the segments so far. */
  ghost predicate TalliedSeconds(totals: map<Measure, int>, subjects: map<Subject, int>, done: seq<Segment>) {
    && (forall m :: (if m in totals then totals[m] else 0) == Seconds(done, ByMeasure(m)))
    && (forall k :: (if k in subjects then subjects[k] else 0) == Seconds(done, BySubject(k)))
  }

  function MeasuresIn(done: seq<Segment>): set<Measure> { set s | s in done :: MeasureOf(s.grant) }

  function SubjectsIn(done: seq<Segment>): set<Subject> { set s | s in done :: SubjectOf(s.grant) }

  lemma SecondsNext(done: seq<Segment>, s: Segment, pick: Pick)
    ensures Seconds(done + [s], pick) == Seconds(done, pick) + (if pick(s.grant) then s.seconds else 0)
  {
    assert (done + [s])[..|done|] == done;
  }

  lemma TalliedOneMore(totals: map<Measure, int>, subjects: map<Subject, int>, done: seq<Segment>, s: Segment)
    requires TalliedSeconds(totals, subjects, done)
    ensures TalliedSeconds(AddTo(totals, MeasureOf(s.grant), s.seconds), AddTo(subjects, SubjectOf(s.grant), s.seconds), done + [s])
  {
    forall m ensures Seconds(done + [s], ByMeasure(m)) == Seconds(done, ByMeasure(m)) + (if MeasureOf(s.grant) == m then s.seconds else 0) {
      SecondsNext(done, s, ByMeasure(m));
    }
    forall k ensures Seconds(done + [s], BySubject(k)) == Seconds(done, BySubject(k)) + (if SubjectOf(s.grant) == k then s.seconds else 0) {
      SecondsNext(done, s, BySubject(k));
    }
  }

  lemma KeysOneMore(done: seq<Segment>, s: Segment)
    ensures MeasuresIn(done + [s]) == MeasuresIn(done) + {MeasureOf(s.grant)}
    ensures SubjectsIn(done + [s]) == SubjectsIn(done) + {SubjectOf(s.grant)}
  {
  }

  method Tally(segments: seq<Segment>) returns (totals: map<Measure, int>, subjects: map<Subject, int>)
    ensures totals.Keys == MeasuresIn(segments) && subjects.Keys == SubjectsIn(segments)
    ensures TalliedSeconds(totals, subjects, segments)
  {
    totals, subjects := map[], map[];
    var i := 0;
    while i < |segments|
      invariant 0 <= i <= |segments|
      invariant totals.Keys == MeasuresIn(segments[..i]) && subjects.Keys == SubjectsIn(segments[..i])
      invariant TalliedSeconds(totals, subjects, segments[..i])
    {
      var s := segments[i];
      assert segments[..i + 1] == segments[..i] + [s];
      KeysOneMore(segments[..i], s);
      TalliedOneMore(totals, subjects, segments[..i], s);
      totals := AddTo(totals, MeasureOf(s.grant), s.seconds);
      subjects := AddTo(subjects, SubjectOf(s.grant), s.seconds);
      i := i + 1;
    }
    assert segments[..i] == segments;
  }

  /** The seconds of these subjects under one measure. */
  ghost function SubjectSum(keys: set<Subject>, m: Measure, segments: seq<Segment>): int {
    if keys == {} then 0
    else
      var k :| k in keys;
      SubjectSum(keys - {k}, m, segments) + (if k.measure == m then Seconds(segments, BySubject(k)) else 0)
  }

  lemma {:induction false} SubjectSumNext(keys: set<Subject>, m: Measure, segments: seq<Segment>)
    requires segments != []
    ensures var s := segments[|segments| - 1];
            SubjectSum(keys, m, segments) == SubjectSum(keys, m, segments[..|segments| - 1])
              + (if SubjectOf(s.grant) in keys && MeasureOf(s.grant) == m then s.seconds else 0)
    decreases keys
  {
    if keys != {} {
      var k :| k in keys && SubjectSum(keys, m, segments)
               == SubjectSum(keys - {k}, m, segments) + (if k.measure == m then Seconds(segments, BySubject(k)) else 0);
      var init, s := segments[..|segments| - 1], segments[|segments| - 1];
      SubjectSumAny(keys, m, init, k);
      SubjectSumNext(keys - {k}, m, segments);
      assert Seconds(segments, BySubject(k)) == Seconds(init, BySubject(k)) + (if SubjectOf(s.grant) == k then s.seconds else 0);
    }
  }

  lemma {:induction false} SubjectSumAny(keys: set<Subject>, m: Measure, segments: seq<Segment>, x: Subject)
    requires x in keys
    ensures SubjectSum(keys, m, segments)
         == SubjectSum(keys - {x}, m, segments) + (if x.measure == m then Seconds(segments, BySubject(x)) else 0)
    decreases keys
  {
    var k :| k in keys && SubjectSum(keys, m, segments)
             == SubjectSum(keys - {k}, m, segments) + (if k.measure == m then Seconds(segments, BySubject(k)) else 0);
    if k != x {
      SubjectSumAny(keys - {k}, m, segments, x);
      SubjectSumAny(keys - {x}, m, segments, k);
      assert keys - {k} - {x} == keys - {x} - {k};
    }
  }

  /** The subject totals of a measure sum back to the measure's total. */
  lemma {:induction false} SubjectsSumToMeasure(keys: set<Subject>, m: Measure, segments: seq<Segment>)
    requires forall s :: s in segments ==> SubjectOf(s.grant) in keys
    ensures SubjectSum(keys, m, segments) == Seconds(segments, ByMeasure(m))
    decreases |segments|
  {
    if segments == [] {
      NoSegmentsNoSum(keys, m);
    } else {
      var init, s := segments[..|segments| - 1], segments[|segments| - 1];
      assert s in segments && forall x :: x in init ==> x in segments;
      SubjectsSumToMeasure(keys, m, init);
      SubjectSumNext(keys, m, segments);
    }
  }

  lemma {:induction false} NoSegmentsNoSum(keys: set<Subject>, m: Measure)
    ensures SubjectSum(keys, m, []) == 0
    decreases keys
  {
    if keys != {} {
      var k :| k in keys && SubjectSum(keys, m, [])
               == SubjectSum(keys - {k}, m, []) + (if k.measure == m then Seconds([], BySubject(k)) else 0);
      NoSegmentsNoSum(keys - {k}, m);
      assert Seconds([], BySubject(k)) == 0;
    }
  }
}
