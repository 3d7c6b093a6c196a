/** What the report scans out of the session runs: uncertain gaps, covered intervals and grant segments. */
module ReportScan {
  import opened Leases
  import opened LeaseFrames
  import opened Sequences
  import opened ReportRuns

  /** The report's window, from `since` up to `until`. */
  datatype Window = Window(since: int, until: int)

  datatype Reason = SessionBoundary | ClockReversal | Boundary(text: string) | SequenceOrDigestGap
                  | UnobservedWindow | MixedBotScope

  datatype Gap = Gap(start: int, end: int, reason: Reason)

  datatype Interval = Interval(start: int, end: int)

  /** Who holds what, and how: the identity a segment is counted under. */
  datatype Grant = Grant(ref: string, resource: string, platform: string, external: string, kind: string, mode: string)

  datatype Segment = Segment(grant: Grant, start: int, end: int, seconds: int)

  /** Two consecutive frames of one run: the first governs the time up to the second. */
  datatype Pair = Pair(previous: Frame, current: Frame)

  /** Two consecutive runs, by the last instant of the one and the first of the other. */
  datatype Seam = Seam(left: int, right: int)

  function Max(x: int, y: int): int { if x >= y then x else y }
  function Min(x: int, y: int): int { if x <= y then x else y }

  /** The pair continues the commit chain with complete states and no boundary in between. */
  predicate Linked(p: Pair) {
    && p.current.sequence == p.previous.sequence + 1
    && !Bounded(p.current)
    && p.current.before == p.previous.after
    && p.previous.state.complete && p.current.state.complete
  }

  function Start(p: Pair): int { p.previous.timestamp }
  function End(p: Pair): int { p.current.timestamp }

  function PairsOf(run: Run): (ps: seq<Pair>)
    ensures |ps| == if run == [] then 0 else |run| - 1
    ensures forall a :: 0 <= a < |ps| ==> ps[a] == Pair(run[a], run[a + 1])
  {
    if run == [] then []
    else seq(|run| - 1, a requires 0 <= a < |run| - 1 => Pair(run[a], run[a + 1]))
  }

  function Pairs(runs: seq<Run>): seq<Pair> { FlatMap(runs, PairsOf) }

  function Seams(runs: seq<Run>): (ss: seq<Seam>)
    ensures |ss| == if runs == [] then 0 else |runs| - 1
    ensures forall i :: 0 <= i < |ss| ==> ss[i] == Seam(LastInstant(runs[i]), FirstInstant(runs[i + 1]))
  {
    if runs == [] then []
    else seq(|runs| - 1, i requires 0 <= i < |runs| - 1 => Seam(LastInstant(runs[i]), FirstInstant(runs[i + 1])))
  }

  // ---------------------------------------------------------- what each piece yields

  function SeamGap(s: Seam, w: Window): seq<Gap> {
    if Min(s.left, s.right) < w.until && Max(s.left, s.right) > w.since then
      [Gap(Max(w.since, Min(s.left, s.right)), Min(w.until, Max(s.left, s.right)), SessionBoundary)]
    else []
  }

  function SeamGaps(w: Window): Seam -> seq<Gap> { (s: Seam) => SeamGap(s, w) }

  /** The part of the window between the two frames of a pair. */
  function Left(p: Pair, w: Window): int { Max(Start(p), w.since) }
  function Right(p: Pair, w: Window): int { Min(End(p), w.until) }

  function ReversalGaps(p: Pair, w: Window): seq<Gap> {
    if End(p) < Start(p) && End(p) < w.until && Start(p) > w.since then
      [Gap(Max(w.since, End(p)), Min(w.until, Start(p)), ClockReversal)]
    else []
  }

  function InstantGaps(p: Pair, w: Window): seq<Gap> {
    if Bounded(p.current) && Start(p) == End(p) && w.since < Start(p) < w.until then
      [Gap(Start(p), End(p), Boundary(p.current.boundary.value))]
    else []
  }

  function UnlinkedGaps(p: Pair, w: Window): seq<Gap> {
    if Left(p, w) < Right(p, w) && !Linked(p) then
      [Gap(Left(p, w), Right(p, w),
           if Bounded(p.current) then Boundary(p.current.boundary.value) else SequenceOrDigestGap)]
    else []
  }

  function PairGap(p: Pair, w: Window): seq<Gap> { ReversalGaps(p, w) + InstantGaps(p, w) + UnlinkedGaps(p, w) }

  function PairGaps(w: Window): Pair -> seq<Gap> { (p: Pair) => PairGap(p, w) }

  predicate Covers(p: Pair, w: Window) { Left(p, w) < Right(p, w) && Linked(p) }

  function PairCover(p: Pair, w: Window): seq<Interval> {
    if Covers(p, w) then [Interval(Left(p, w), Right(p, w))] else []
  }

  function PairCovered(w: Window): Pair -> seq<Interval> { (p: Pair) => PairCover(p, w) }

  function GrantOf(x: Item): Grant { Grant(x.ref, x.resource, x.platform, x.external, x.kind, x.mode) }

  /** The allocation's time inside `[left, right)`; its deadline in the earlier frame wins. */
  function ItemSegment(x: Item, left: int, right: int): seq<Segment> {
    if x.deadline.None? then []
    else
      var start, stop := Max(left, x.start), Min(right, x.deadline.value);
      if stop <= start then [] else [Segment(GrantOf(x), start, stop, stop - start)]
  }

  function ItemSegments(left: int, right: int): Item -> seq<Segment> { (x: Item) => ItemSegment(x, left, right) }

  function PairSegment(p: Pair, w: Window): seq<Segment> {
    if Covers(p, w) then FlatMap(p.previous.state.allocations, ItemSegments(Left(p, w), Right(p, w))) else []
  }

  function PairSegments(w: Window): Pair -> seq<Segment> { (p: Pair) => PairSegment(p, w) }

  // ------------------------------------------------------------------ the loops

  method SeamScan(runs: seq<Run>, w: Window) returns (gaps: seq<Gap>)
    requires forall run :: run in runs ==> run != []
    ensures gaps == FlatMap(Seams(runs), SeamGaps(w))
  {
    gaps := [];
    if |runs| > 1 {
      var i := 0;
      while i < |runs| - 1
        invariant 0 <= i <= |runs| - 1
        invariant gaps == FlatMap(Seams(runs)[..i], SeamGaps(w))
      {
        assert runs[i] in runs && runs[i + 1] in runs;
        var left, right := runs[i][|runs[i]| - 1].timestamp, runs[i + 1][0].timestamp;
        FlatMapNext(Seams(runs), i, SeamGaps(w));
        if Min(left, right) < w.until && Max(left, right) > w.since {
          gaps := gaps + [Gap(Max(w.since, Min(left, right)), Min(w.until, Max(left, right)), SessionBoundary)];
        }
        i := i + 1;
      }
      assert Seams(runs)[..i] == Seams(runs);
    }
  }

  /** One consecutive pair of frames. */
  method ScanPair(p: Pair, w: Window) returns (gaps: seq<Gap>, covered: seq<Interval>, segments: seq<Segment>)
    ensures gaps == PairGaps(w)(p) && covered == PairCovered(w)(p) && segments == PairSegments(w)(p)
  {
    gaps, covered, segments := [], [], [];
    var start, end := p.previous.timestamp, p.current.timestamp;
    var left, right := Max(start, w.since), Min(end, w.until);
    if end < start && Min(start, end) < w.until && Max(start, end) > w.since {
      gaps := gaps + [Gap(Max(w.since, end), Min(w.until, start), ClockReversal)];
    }
    if Bounded(p.current) && start == end && w.since < start < w.until {
      gaps := gaps + [Gap(start, end, Boundary(p.current.boundary.value))];
    }
    if right <= left {
      return;
    }
    if !Linked(p) {
      gaps := gaps + [Gap(left, right, if Bounded(p.current) then Boundary(p.current.boundary.value)
                                       else SequenceOrDigestGap)];
      return;
    }
    covered := [Interval(left, right)];
    var items := p.previous.state.allocations;
    var i := 0;
    while i < |items|
      invariant 0 <= i <= |items|
      invariant segments == FlatMap(items[..i], ItemSegments(left, right))
    {
      FlatMapNext(items, i, ItemSegments(left, right));
      if items[i].deadline.Some? {
        var grantStart, stop := Max(left, items[i].start), Min(right, items[i].deadline.value);
        if stop > grantStart {
          segments := segments + [Segment(GrantOf(items[i]), grantStart, stop, stop - grantStart)];
        }
      }
      i := i + 1;
    }
    assert items[..i] == items;
  }

  method ScanRun(run: Run, w: Window) returns (gaps: seq<Gap>, covered: seq<Interval>, segments: seq<Segment>)
    ensures gaps == FlatMap(PairsOf(run), PairGaps(w))
    ensures covered == FlatMap(PairsOf(run), PairCovered(w))
    ensures segments == FlatMap(PairsOf(run), PairSegments(w))
  {
    gaps, covered, segments := [], [], [];
    var ps := PairsOf(run);
    var a := 0;
    while a + 1 < |run|
      invariant 0 <= a <= |ps|
      invariant gaps == FlatMap(ps[..a], PairGaps(w))
      invariant covered == FlatMap(ps[..a], PairCovered(w))
      invariant segments == FlatMap(ps[..a], PairSegments(w))
    {
      FlatMapNext(ps, a, PairGaps(w));
      FlatMapNext(ps, a, PairCovered(w));
      FlatMapNext(ps, a, PairSegments(w));
      var g, c, s := ScanPair(Pair(run[a], run[a + 1]), w);
      gaps, covered, segments := gaps + g, covered + c, segments + s;
      a := a + 1;
    }
    assert ps[..a] == ps;
  }

  method ScanRuns(runs: seq<Run>, w: Window) returns (gaps: seq<Gap>, covered: seq<Interval>, segments: seq<Segment>)
    ensures gaps == FlatMap(Pairs(runs), PairGaps(w))
    ensures covered == FlatMap(Pairs(runs), PairCovered(w))
    ensures segments == FlatMap(Pairs(runs), PairSegments(w))
  {
    gaps, covered, segments := [], [], [];
    var i := 0;
    while i < |runs|
      invariant 0 <= i <= |runs|
      invariant gaps == FlatMap(Pairs(runs[..i]), PairGaps(w))
      invariant covered == FlatMap(Pairs(runs[..i]), PairCovered(w))
      invariant segments == FlatMap(Pairs(runs[..i]), PairSegments(w))
    {
      PairsNext(runs, i);
      FlatMapConcat(Pairs(runs[..i]), PairsOf(runs[i]), PairGaps(w));
      FlatMapConcat(Pairs(runs[..i]), PairsOf(runs[i]), PairCovered(w));
      FlatMapConcat(Pairs(runs[..i]), PairsOf(runs[i]), PairSegments(w));
      var g, c, s := ScanRun(runs[i], w);
      gaps, covered, segments := gaps + g, covered + c, segments + s;
      i := i + 1;
    }
    assert runs[..i] == runs;
  }

  lemma PairsNext(runs: seq<Run>, i: nat)
    requires i < |runs|
    ensures Pairs(runs[..i + 1]) == Pairs(runs[..i]) + PairsOf(runs[i])
  {
    FlatMapNext(runs, i, PairsOf);
  }

  // ---------------------------------------------------------- the coverage sweep

  function IntervalStart(x: Interval): int { x.start }

  /** How far the window is observed once these intervals are read. */
  function Horizon(covered: seq<Interval>, since: int): int {
    if covered == [] then since
    else Max(Horizon(covered[..|covered| - 1], since), covered[|covered| - 1].end)
  }

  function Unobserved(covered: seq<Interval>, since: int): seq<Gap> {
    if covered == [] then []
    else
      var init, x := covered[..|covered| - 1], covered[|covered| - 1];
      var horizon := Horizon(init, since);
      Unobserved(init, since) + (if x.start > horizon then [Gap(horizon, x.start, UnobservedWindow)] else [])
  }

  function TailGaps(covered: seq<Interval>, w: Window): seq<Gap> {
    var horizon := Horizon(covered, w.since);
    if horizon < w.until then [Gap(horizon, w.until, UnobservedWindow)] else []
  }

  method Sweep(sorted: seq<Interval>, w: Window) returns (gaps: seq<Gap>)
    ensures gaps == Unobserved(sorted, w.since) + TailGaps(sorted, w)
  {
    gaps := [];
    var horizon := w.since;
    var i := 0;
    while i < |sorted|
      invariant 0 <= i <= |sorted|
      invariant horizon == Horizon(sorted[..i], w.since)
      invariant gaps == Unobserved(sorted[..i], w.since)
    {
      assert sorted[..i + 1][..i] == sorted[..i];
      if sorted[i].start > horizon {
        gaps := gaps + [Gap(horizon, sorted[i].start, UnobservedWindow)];
      }
      horizon := Max(horizon, sorted[i].end);
      i := i + 1;
    }
    assert sorted[..i] == sorted;
    if horizon < w.until {
      gaps := gaps + [Gap(horizon, w.until, UnobservedWindow)];
    }
  }

  // ------------------------------------------------------- interval subtraction

  /** What is left of a piece once a gap is taken out; a gap without length takes nothing. */
  function CutPiece(gap: Gap, p: Interval): seq<Interval> {
    if gap.end <= p.start || gap.start >= p.end then [p]
    else (if p.start < gap.start then [Interval(p.start, gap.start)] else [])
         + (if p.end > gap.end then [Interval(gap.end, p.end)] else [])
  }

  function Cut(gap: Gap): Interval -> seq<Interval> { (p: Interval) => CutPiece(gap, p) }

  function Pieces(piece: Interval, gaps: seq<Gap>): seq<Interval> {
    if gaps == [] then [piece]
    else
      var pieces, gap := Pieces(piece, gaps[..|gaps| - 1]), gaps[|gaps| - 1];
      if gap.end <= gap.start then pieces else FlatMap(pieces, Cut(gap))
  }

  function ClipTo(segment: Segment, p: Interval): seq<Segment> {
    [segment.(start := p.start, end := p.end, seconds := p.end - p.start)]
  }

  function Clipping(segment: Segment): Interval -> seq<Segment> { (p: Interval) => ClipTo(segment, p) }

  function ClipSegment(segment: Segment, gaps: seq<Gap>): seq<Segment> {
    FlatMap(Pieces(Interval(segment.start, segment.end), gaps), Clipping(segment))
  }

  function ClipOne(gaps: seq<Gap>): Segment -> seq<Segment> { (s: Segment) => ClipSegment(s, gaps) }

  function Clip(segments: seq<Segment>, gaps: seq<Gap>): seq<Segment> {
    FlatMap(segments, ClipOne(gaps))
  }

  method SubtractFrom(next: seq<Interval>, left: int, right: int, gap: Gap) returns (next': seq<Interval>)
    ensures next' == next + CutPiece(gap, Interval(left, right))
  {
    next' := next;
    if gap.end <= left || gap.start >= right {
      next' := next' + [Interval(left, right)];
    } else {
      if left < gap.start {
        next' := next' + [Interval(left, gap.start)];
      }
      if right > gap.end {
        next' := next' + [Interval(gap.end, right)];
      }
    }
  }

  method SubtractGap(pieces: seq<Interval>, gap: Gap) returns (next: seq<Interval>)
    ensures next == FlatMap(pieces, Cut(gap))
  {
    next := [];
    var i := 0;
    while i < |pieces|
      invariant 0 <= i <= |pieces|
      invariant next == FlatMap(pieces[..i], Cut(gap))
    {
      FlatMapNext(pieces, i, Cut(gap));
      next := SubtractFrom(next, pieces[i].start, pieces[i].end, gap);
      i := i + 1;
    }
    assert pieces[..i] == pieces;
  }

  method SubtractGaps(segment: Segment, gaps: seq<Gap>) returns (pieces: seq<Interval>)
    ensures pieces == Pieces(Interval(segment.start, segment.end), gaps)
  {
    ghost var whole := Interval(segment.start, segment.end);
    pieces := [Interval(segment.start, segment.end)];
    var i := 0;
    while i < |gaps|
      invariant 0 <= i <= |gaps|
      invariant pieces == Pieces(whole, gaps[..i])
    {
      assert gaps[..i + 1][..i] == gaps[..i];
      if gaps[i].end > gaps[i].start {
        pieces := SubtractGap(pieces, gaps[i]);
      }
      i := i + 1;
    }
    assert gaps[..i] == gaps;
  }

  method ClipPieces(segment: Segment, pieces: seq<Interval>) returns (clipped: seq<Segment>)
    ensures clipped == FlatMap(pieces, Clipping(segment))
  {
    clipped := [];
    var j := 0;
    while j < |pieces|
      invariant 0 <= j <= |pieces|
      invariant clipped == FlatMap(pieces[..j], Clipping(segment))
    {
      FlatMapNext(pieces, j, Clipping(segment));
      var left, right := pieces[j].start, pieces[j].end;
      clipped := clipped + [segment.(start := left, end := right, seconds := right - left)];
      j := j + 1;
    }
    assert pieces[..j] == pieces;
  }

  method ClipSegments(segments: seq<Segment>, gaps: seq<Gap>) returns (clipped: seq<Segment>)
    ensures clipped == Clip(segments, gaps)
  {
    clipped := [];
    var i := 0;
    while i < |segments|
      invariant 0 <= i <= |segments|
      invariant clipped == FlatMap(segments[..i], ClipOne(gaps))
    {
      FlatMapNext(segments, i, ClipOne(gaps));
      var pieces := SubtractGaps(segments[i], gaps);
      var more := ClipPieces(segments[i], pieces);
      clipped := clipped + more;
      i := i + 1;
    }
    assert segments[..i] == segments;
  }
}
