/** The lease report: frames in, verified seconds and explicit gaps out. */
module ReportAnalysis {
  import opened Leases
  import opened LeaseFrames
  import opened Sequences
  import opened ReportDedup
  import opened ReportOrder
  import opened ReportRuns
  import opened ReportScan
  import opened ReportCoverage
  import opened ReportChain
  import opened ReportTotals
  import opened ReportLeases
  import opened ReportGaps

  /** The report; `verified` is withheld unless coverage is complete. */
  datatype Report = Report(bot: Option<int>, complete: bool, verified: Option<map<Measure, int>>,
                           segments: seq<Segment>, gaps: seq<Gap>, malformed: nat, subjects: map<Subject, int>)

  datatype Outcome = Rejected | Reported(report: Report)

  function Validity(hash: Snapshot -> Digest): Frame -> bool { (f: Frame) => ValidFrame(f, hash) }

  predicate Matched(built: seq<Run>, c: Checkpoint, hash: Snapshot -> Digest) {
    ValidCheckpoint(c, hash) && exists run :: run in built && Seals(c, run)
  }

  /** A checkpoint that seals nothing counts as malformed, unless it says itself that it is inconsistent. */
  function Penalty(built: seq<Run>, checkpoint: Option<Checkpoint>, hash: Snapshot -> Digest): nat {
    if checkpoint.None? || Matched(built, checkpoint.value, hash) || checkpoint.value.consistent == Some(false) then 0
    else 1
  }

  predicate SealedRuns(built: seq<Run>, checkpoint: Option<Checkpoint>, hash: Snapshot -> Digest, runs: seq<Run>) {
    if checkpoint.Some? && ValidCheckpoint(checkpoint.value, hash) then IsSealing(built, checkpoint.value, runs)
    else runs == built
  }

  /** The runs, bots and malformed count a report starts from. */
  ghost predicate Evidence(frames: seq<Frame>, checkpoint: Option<Checkpoint>, hash: Snapshot -> Digest,
                           runs: seq<Run>, bots: set<int>, malformed: nat) {
    exists kept, built ::
      && Keeps(frames, Validity(hash), kept) && Stitched(built) && Holds(kept, built)
      && SealedRuns(built, checkpoint, hash, runs)
      && malformed == Invalid(frames, Validity(hash)) + |ConflictKeys(frames, Validity(hash))|
                      + Penalty(built, checkpoint, hash)
      && bots == BotsAfter(frames, Validity(hash))
  }

  /** What the report says of that evidence. */
  ghost predicate Reports(w: Window, runs: seq<Run>, bots: set<int>, malformed: nat, r: Report) {
    && r.malformed == malformed
    && (r.bot.Some? <==> |bots| == 1) && (r.bot.Some? ==> r.bot.value in bots)
    && r.gaps == AllGaps(runs, w, |bots| == 1)
    && r.segments == Verified(runs, w, |bots| == 1)
    && (r.complete <==> r.gaps == [] && malformed == 0)
    && (r.verified.Some? <==> r.complete)
    && (r.verified.Some? ==>
          r.verified.value.Keys == MeasuresIn(r.segments) && TalliedSeconds(r.verified.value, r.subjects, r.segments))
    && r.subjects.Keys == SubjectsIn(r.segments)
    && (forall k :: k in r.subjects ==> r.subjects[k] == Seconds(r.segments, BySubject(k)))
  }

  method Gather(frames: seq<Frame>, checkpoint: Option<Checkpoint>, hash: Snapshot -> Digest)
    returns (runs: seq<Run>, bots: set<int>, malformed: nat)
    ensures Stitched(runs) && Evidence(frames, checkpoint, hash, runs, bots, malformed)
  {
    var kept;
    kept, malformed, bots := Dedup(frames, Validity(hash));
    var built := BuildRuns(kept);
    runs := built;
    if checkpoint.Some? {
      var c, matched := checkpoint.value, false;
      if ValidCheckpoint(c, hash) {
        runs, matched := Seal(built, c);
      }
      if !matched && c.consistent != Some(false) {
        malformed := malformed + 1;
      }
    }
    assert SealedRuns(built, checkpoint, hash, runs);
  }

  method AllGapsOf(runs: seq<Run>, w: Window, oneBot: bool) returns (gaps: seq<Gap>, segments: seq<Segment>)
    requires NonEmpty(runs)
    ensures gaps == AllGaps(runs, w, oneBot) && segments == Scanned(runs, w)
  {
    var seams := SeamScan(runs, w);
    var found, covered;
    found, covered, segments := ScanRuns(runs, w);
    covered := Sort(covered, IntervalStart);
    var unobserved := Sweep(covered, w);
    gaps := seams + found + unobserved;
    GapsTogether(seams, found, Unobserved(covered, w.since), TailGaps(covered, w), ScopeGaps(w, oneBot));
    if !oneBot {
      gaps := gaps + [Gap(w.since, w.until, MixedBotScope)];
    }
  }

  lemma GapsTogether(a: seq<Gap>, b: seq<Gap>, c: seq<Gap>, d: seq<Gap>, e: seq<Gap>)
    ensures a + b + (c + d) + e == a + b + c + d + e
    ensures e == [] ==> a + b + (c + d) == a + b + c + d + e
  {
    assert a + b + (c + d) == a + b + c + d;
  }

  lemma EmptyIff(bots: set<int>)
    ensures bots == {} <==> forall b :: b !in bots
  {
    if forall b :: b !in bots { assert bots == {}; }
  }

  /** The bot of the report, when there is just one. */
  method TheOnly(bots: set<int>) returns (bot: Option<int>)
    ensures (bot.Some? <==> |bots| == 1) && (bot.Some? ==> bot.value in bots)
  {
    bot := None;
    if |bots| == 1 {
      EmptyIff(bots);
      var b :| b in bots;
      bot := Some(b);
    }
  }

  method Analyze(frames: seq<Frame>, since: int, until: int, checkpoint: Option<Checkpoint>, hash: Snapshot -> Digest)
    returns (out: Outcome, ghost runs: seq<Run>, ghost bots: set<int>, ghost malformed: nat)
    ensures out.Rejected? <==> since >= until
    ensures out.Reported? ==> Stitched(runs) && Evidence(frames, checkpoint, hash, runs, bots, malformed)
    ensures out.Reported? ==> Reports(Window(since, until), runs, bots, malformed, out.report)
    ensures out.Reported? && out.report.complete ==> Accounted(frames, checkpoint, hash, Window(since, until), runs, out.report)
    ensures out.Reported? ==> forall ref :: CountsOnce(Window(since, until), out.report, ref)
    ensures out.Reported? ==> forall m :: SubjectsAddUp(out.report, m)
    ensures out.Reported? ==> ShowsLeases(Window(since, until), runs, |bots| == 1, out.report)
  {
    if since >= until {
      out, runs, bots, malformed := Rejected, [], {}, 0;
      return;
    }
    var w := Window(since, until);
    var rs, bs, bad := Gather(frames, checkpoint, hash);
    var gaps, segments := AllGapsOf(rs, w, |bs| == 1);
    segments := ClipSegments(segments, gaps);
    var complete := gaps == [] && bad == 0;
    var totals, subjects := Tally(segments);
    var bot := TheOnly(bs);
    out := Reported(Report(bot, complete, if complete then Some(totals) else None, segments, gaps, bad, subjects));
    runs, bots, malformed := rs, bs, bad;
    EveryReport(frames, checkpoint, hash, w, runs, bots, malformed, out.report);
    if complete { CompleteReport(frames, checkpoint, hash, w, runs, bots, malformed, out.report); }
  }

  // ------------------------------------------------------- what a report means

  /** One session of these runs tiles the window. */
  ghost predicate OneSession(runs: seq<Run>, w: Window) {
    exists i, lo, hi ::
      0 <= i < |runs| && Tiles(runs[i], w, lo, hi) && forall t :: Within(w, t) ==> Governed(runs[i], lo, hi, t)
  }

  /** A checkpoint, if given, disowns itself or is valid and ends one of the runs: its last frame but one is repeated. */
  ghost predicate Honoured(checkpoint: Option<Checkpoint>, hash: Snapshot -> Digest, runs: seq<Run>) {
    checkpoint.Some? ==>
      var c := checkpoint.value;
      || c.consistent == Some(false)
      || (ValidCheckpoint(c, hash) && exists run :: run in runs && EndedBy(run, c))
  }

  predicate EndedBy(run: Run, c: Checkpoint) {
    |run| > 1 && Repeats(c, run[..|run| - 1]) && run[|run| - 1].timestamp == c.timestamp
  }

  lemma CheckpointHonoured(frames: seq<Frame>, checkpoint: Option<Checkpoint>, hash: Snapshot -> Digest,
                           runs: seq<Run>, bots: set<int>, malformed: nat)
    requires Evidence(frames, checkpoint, hash, runs, bots, malformed) && malformed == 0
    ensures Honoured(checkpoint, hash, runs)
  {
    var kept, built: seq<Run> :|
      && Keeps(frames, Validity(hash), kept) && Stitched(built) && Holds(kept, built)
      && SealedRuns(built, checkpoint, hash, runs)
      && malformed == Invalid(frames, Validity(hash)) + |ConflictKeys(frames, Validity(hash))| + Penalty(built, checkpoint, hash);
    if checkpoint.Some? && checkpoint.value.consistent != Some(false) {
      var c := checkpoint.value;
      assert Matched(built, c, hash);
      var run :| run in built && Seals(c, run);
      var i :| 0 <= i < |built| && built[i] == run;
      assert runs[i] == Sealed(run, c) && runs[i][..|runs[i]| - 1] == run;
      assert EndedBy(runs[i], c) && runs[i] in runs;
    }
  }

  /** What a complete report vouches for. */
  ghost predicate Accounted(frames: seq<Frame>, checkpoint: Option<Checkpoint>, hash: Snapshot -> Digest, w: Window,
                            runs: seq<Run>, r: Report) {
    && Honoured(checkpoint, hash, runs)
    && Invalid(frames, Validity(hash)) == 0 && ConflictKeys(frames, Validity(hash)) == {}
    && r.bot.Some? && BotsOf(frames, Validity(hash)) == {r.bot.value}
    && OneSession(runs, w)
    && r.verified.Some? && MeasuresOwed(runs, w, true, r.verified.value)
  }

  /** What any report shows of the leases: each subject's seconds, and the segments of each lease. */
  ghost predicate ShowsLeases(w: Window, runs: seq<Run>, oneBot: bool, r: Report) {
    SubjectsOwed(runs, w, oneBot, r.subjects) && SegmentsOwed(runs, w, oneBot, r.segments)
  }

  /** No instant of the lease counts twice. */
  ghost predicate CountsOnce(w: Window, r: Report, ref: string) {
    && Seconds(r.segments, ByRef(ref)) <= w.until - w.since
    && forall t :: Within(w, t) ==> CountAt(r.segments, ByRef(ref), t) <= 1
  }

  /** The subject totals of a measure sum to its seconds. */
  ghost predicate SubjectsAddUp(r: Report, m: Measure) {
    SubjectSum(r.subjects.Keys, m, r.segments) == Seconds(r.segments, ByMeasure(m))
  }

  // ------------------------------------------------------------- main results

  lemma KeptIsValid(frames: seq<Frame>, valid: Frame -> bool, kept: map<FrameKey, Frame>, built: seq<Run>, run: Run, f: Frame)
    requires Keeps(frames, valid, kept) && Holds(kept, built) && run in built && f in run
    ensures valid(f)
  {
    assert Among(f, built) && IsKept(f, kept);
    assert Offers(frames, valid, kept[KeyOf(f)], KeyOf(f));
  }

  /** Sealing adds no state the run did not have. */
  lemma SealKeepsStates(run: Run, c: Checkpoint, f: Frame) returns (g: Frame)
    requires run != [] && f in MaybeSealed(run, c)
    ensures g in run && g.state == f.state
  {
    g := if f in run then f else run[|run| - 1];
  }

  lemma RunsAreValid(valid: Frame -> bool, frames: seq<Frame>, kept: map<FrameKey, Frame>, built: seq<Run>, runs: seq<Run>,
                     checkpoint: Option<Checkpoint>, hash: Snapshot -> Digest, i: nat, f: Frame) returns (g: Frame)
    requires Keeps(frames, valid, kept) && Stitched(built) && Holds(kept, built) && SealedRuns(built, checkpoint, hash, runs)
    requires i < |runs| && f in runs[i]
    ensures valid(g) && g.state == f.state
  {
    assert built[i] in built;
    g := f;
    if checkpoint.Some? && ValidCheckpoint(checkpoint.value, hash) {
      g := SealKeepsStates(built[i], checkpoint.value, f);
    }
    KeptIsValid(frames, valid, kept, built, built[i], g);
  }

  lemma EvidenceIsValid(frames: seq<Frame>, checkpoint: Option<Checkpoint>, hash: Snapshot -> Digest,
                        runs: seq<Run>, bots: set<int>, malformed: nat)
    requires Evidence(frames, checkpoint, hash, runs, bots, malformed)
    ensures forall run, f :: run in runs && f in run ==> ValidState(f.state)
  {
    var kept, built: seq<Run> :|
      && Keeps(frames, Validity(hash), kept) && Stitched(built) && Holds(kept, built)
      && SealedRuns(built, checkpoint, hash, runs);
    forall run: Run, f | run in runs && f in run ensures ValidState(f.state) {
      var i :| 0 <= i < |runs| && runs[i] == run;
      var g := RunsAreValid(Validity(hash), frames, kept, built, runs, checkpoint, hash, i, f);
    }
  }

  /**
   * A complete report rests on well-formed, agreeing frames of one bot, whose one session tiles the window;
   * its total for each kind and mode is the sum over instants of the allocations of that kind and mode that
   * are live in the frame governing the instant.
   */
  lemma CompleteReport(frames: seq<Frame>, checkpoint: Option<Checkpoint>, hash: Snapshot -> Digest, w: Window,
                       runs: seq<Run>, bots: set<int>, malformed: nat, r: Report)
    requires w.since < w.until && Stitched(runs) && Evidence(frames, checkpoint, hash, runs, bots, malformed)
    requires Reports(w, runs, bots, malformed, r) && r.complete
    ensures Accounted(frames, checkpoint, hash, w, runs, r)
  {
    CheckpointHonoured(frames, checkpoint, hash, runs, bots, malformed);
    var oneBot := |bots| == 1;
    assert GapFree(runs, w, oneBot);
    var i, lo, hi := GapFreeTiles(runs, w, oneBot);
    assert OneSession(runs, w);
    GapFreeIff(runs, w, oneBot);
    assert |ConflictKeys(frames, Validity(hash))| == 0;
    BotsWithoutConflict(frames, Validity(hash));
    OnlyMember(bots, r.bot.value);
    TotalsOwed(runs, w, oneBot, r.verified.value, r.subjects);
  }

  lemma OnlyMember(s: set<int>, x: int)
    requires |s| == 1 && x in s
    ensures s == {x}
  {
    assert |s - {x}| == 0;
  }

  /**
   * Complete or not, no report gives one lease more seconds than the window has; its subject totals sum to the
   * seconds of each measure, and are the live instants of the subject's own leases, as its segments are of each lease.
   */
  lemma EveryReport(frames: seq<Frame>, checkpoint: Option<Checkpoint>, hash: Snapshot -> Digest, w: Window,
                    runs: seq<Run>, bots: set<int>, malformed: nat, r: Report)
    requires w.since < w.until && Stitched(runs) && Evidence(frames, checkpoint, hash, runs, bots, malformed)
    requires Reports(w, runs, bots, malformed, r)
    ensures forall ref :: CountsOnce(w, r, ref)
    ensures forall m :: SubjectsAddUp(r, m)
    ensures ShowsLeases(w, runs, |bots| == 1, r)
  {
    forall k ensures Total(r.subjects, k) == Seconds(r.segments, BySubject(k)) {
      if k !in r.subjects { NoSegmentNoSeconds(r.segments, k); }
    }
    SubjectTotalsOwed(runs, w, |bots| == 1, r.subjects);
    SegmentSecondsOwed(runs, w, |bots| == 1);
    EvidenceIsValid(frames, checkpoint, hash, runs, bots, malformed);
    forall ref ensures CountsOnce(w, r, ref) { NoDoubleCounting(runs, w, |bots| == 1, ref); }
    forall m ensures SubjectsAddUp(r, m) { SubjectsSumToMeasure(r.subjects.Keys, m, r.segments); }
  }
}
