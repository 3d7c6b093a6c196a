/** Seconds granted along a commit chain: each frame governs until the next, the last until the window ends. */
module AuditTotals {
  import opened Leases
  import opened LeaseFrames
  import opened Sequences
  import opened ReportScan
  import opened ReportCoverage
  import opened ReportTotals
  import opened ReportLeases
  import opened AuditFrames
  import opened AuditChain

  /** The allocations in force from `left` up to `right`. */
  datatype Stretch = Stretch(left: int, right: int, items: seq<Item>)

  function Stamp(chain: Chain, k: nat): int
    requires k < |chain|
  {
    chain[k].body.timestamp
  }

  function StretchAt(chain: Chain, w: Window, k: nat): Stretch
    requires k < |chain|
  {
    Stretch(Max(w.since, Stamp(chain, k)), Min(w.until, if k + 1 < |chain| then Stamp(chain, k + 1) else w.until),
            chain[k].body.state.allocations)
  }

  function Stretches(chain: Chain, w: Window): (ss: seq<Stretch>)
    ensures |ss| == |chain| && forall k :: 0 <= k < |chain| ==> ss[k] == StretchAt(chain, w, k)
  {
    seq(|chain|, k requires 0 <= k < |chain| => StretchAt(chain, w, k))
  }

  function StretchSegments(x: Stretch): seq<Segment> { FlatMap(x.items, ItemSegments(x.left, x.right)) }

  /** All grants of the chain, cut to the window. */
  function Granted(chain: Chain, w: Window): seq<Segment> { FlatMap(Stretches(chain, w), StretchSegments) }

  function ItemSeconds(x: Item, left: int, right: int): int {
    if x.deadline.None? then 0 else Max(0, Min(right, x.deadline.value) - Max(left, x.start))
  }

  // ---------------------------------------------------------------- the loops

  function MeasuresOf(leases: seq<Item>): set<Measure> {
    if leases == [] then {} else MeasuresOf(leases[..|leases| - 1]) + {MeasureOf(GrantOf(leases[|leases| - 1]))}
  }

  function SubjectsOf(leases: seq<Item>): set<Subject> {
    if leases == [] then {} else SubjectsOf(leases[..|leases| - 1]) + {SubjectOf(GrantOf(leases[|leases| - 1]))}
  }

  /** The tallies over the segments `done`; a lease that ran no time inside the window still names its keys. */
  ghost predicate Tallied(totals: map<Measure, int>, subjects: map<Subject, int>, done: seq<Segment>, leases: seq<Item>) {
    && totals.Keys == MeasuresOf(leases) && subjects.Keys == SubjectsOf(leases)
    && TalliedSeconds(totals, subjects, done)
  }

  /** A lease that runs no time inside the stretch adds nothing but its keys. */
  lemma NoTime(totals: map<Measure, int>, subjects: map<Subject, int>, done: seq<Segment>, x: Item)
    requires TalliedSeconds(totals, subjects, done)
    ensures TalliedSeconds(AddTo(totals, MeasureOf(GrantOf(x)), 0), AddTo(subjects, SubjectOf(GrantOf(x)), 0), done)
  {
  }

  /** Adding one lease's seconds to its two keys. */
  lemma TalliedItem(totals: map<Measure, int>, subjects: map<Subject, int>, done: seq<Segment>, x: Item, left: int, right: int)
    requires TalliedSeconds(totals, subjects, done)
    ensures var more := ItemSeconds(x, left, right);
            TalliedSeconds(AddTo(totals, MeasureOf(GrantOf(x)), more), AddTo(subjects, SubjectOf(GrantOf(x)), more),
                           done + ItemSegment(x, left, right))
  {
    var one := ItemSegment(x, left, right);
    if one == [] {
      NoTime(totals, subjects, done, x);
      assert done + one == done;
    } else {
      TalliedOneMore(totals, subjects, done, one[0]);
      assert one == [one[0]];
    }
  }

  lemma LeaseTallied(totals: map<Measure, int>, subjects: map<Subject, int>, x: Stretch, j: nat, done: seq<Segment>)
    requires j < |x.items|
    requires TalliedSeconds(totals, subjects, done + FlatMap(x.items[..j], ItemSegments(x.left, x.right)))
    ensures var lease := x.items[j];
            var seconds := ItemSeconds(lease, x.left, x.right);
            TalliedSeconds(AddTo(totals, MeasureOf(GrantOf(lease)), seconds), AddTo(subjects, SubjectOf(GrantOf(lease)), seconds),
                           done + FlatMap(x.items[..j + 1], ItemSegments(x.left, x.right)))
  {
    var read, lease := done + FlatMap(x.items[..j], ItemSegments(x.left, x.right)), x.items[j];
    FlatMapNext(x.items, j, ItemSegments(x.left, x.right));
    TalliedItem(totals, subjects, read, lease, x.left, x.right);
    assert read + ItemSegment(lease, x.left, x.right) == done + FlatMap(x.items[..j + 1], ItemSegments(x.left, x.right));
  }

  lemma LeaseKeys(leases: seq<Item>, items: seq<Item>, j: nat)
    requires j < |items|
    ensures MeasuresOf(leases + items[..j + 1]) == MeasuresOf(leases + items[..j]) + {MeasureOf(GrantOf(items[j]))}
    ensures SubjectsOf(leases + items[..j + 1]) == SubjectsOf(leases + items[..j]) + {SubjectOf(GrantOf(items[j]))}
  {
    var now := leases + items[..j + 1];
    assert now[..|now| - 1] == leases + items[..j];
  }

  method TallyStretch(totals: map<Measure, int>, subjects: map<Subject, int>, x: Stretch, ghost done: seq<Segment>, ghost leases: seq<Item>)
    returns (totals': map<Measure, int>, subjects': map<Subject, int>)
    requires Tallied(totals, subjects, done, leases)
    ensures Tallied(totals', subjects', done + StretchSegments(x), leases + x.items)
  {
    totals', subjects' := totals, subjects;
    var j := 0;
    assert leases + x.items[..0] == leases && done + FlatMap(x.items[..0], ItemSegments(x.left, x.right)) == done;
    while j < |x.items|
      invariant 0 <= j <= |x.items|
      invariant Tallied(totals', subjects', done + FlatMap(x.items[..j], ItemSegments(x.left, x.right)), leases + x.items[..j])
    {
      LeaseTallied(totals', subjects', x, j, done);
      LeaseKeys(leases, x.items, j);
      var lease := x.items[j];
      var seconds := ItemSeconds(lease, x.left, x.right);
      totals' := AddTo(totals', MeasureOf(GrantOf(lease)), seconds);
      subjects' := AddTo(subjects', SubjectOf(GrantOf(lease)), seconds);
      j := j + 1;
    }
    assert x.items[..j] == x.items;
  }

  function ItemsOf(x: Stretch): seq<Item> { x.items }

  /** Every lease of every frame. */
  function AllLeases(chain: Chain, w: Window): seq<Item> { FlatMap(Stretches(chain, w), ItemsOf) }

  method TallyChain(chain: Chain, w: Window) returns (totals: map<Measure, int>, subjects: map<Subject, int>)
    ensures Tallied(totals, subjects, Granted(chain, w), AllLeases(chain, w))
  {
    totals, subjects := map[], map[];
    ghost var ss := Stretches(chain, w);
    var k := 0;
    while k < |chain|
      invariant 0 <= k <= |chain|
      invariant Tallied(totals, subjects, FlatMap(ss[..k], StretchSegments), FlatMap(ss[..k], ItemsOf))
    {
      FlatMapNext(ss, k, StretchSegments);
      FlatMapNext(ss, k, ItemsOf);
      totals, subjects := TallyStretch(totals, subjects, StretchAt(chain, w, k),
                                       FlatMap(ss[..k], StretchSegments), FlatMap(ss[..k], ItemsOf));
      k := k + 1;
    }
    assert ss[..k] == ss;
  }

  // ------------------------------------------------------------ the governor

  /** The chain starts no later than the window, stays within it, and never goes back in time. */
  ghost predicate Tiling(chain: Chain, w: Window) {
    && chain != [] && Stamp(chain, 0) <= w.since < w.until
    && (forall k :: 0 < k < |chain| ==> w.since < Stamp(chain, k) <= w.until)
    && (forall i, k :: 0 <= i < k < |chain| ==> Stamp(chain, i) <= Stamp(chain, k))
  }

  /** The last frame committed by `t`. */
  function Governor(chain: Chain, t: int): (k: nat)
    requires chain != []
    ensures k < |chain| && (forall i :: k < i < |chain| ==> Stamp(chain, i) > t)
    ensures Stamp(chain, 0) <= t ==> Stamp(chain, k) <= t
  {
    if |chain| == 1 || chain[|chain| - 1].body.timestamp <= t then |chain| - 1
    else
      assert forall i :: 0 <= i < |chain| - 1 ==> chain[..|chain| - 1][i] == chain[i];
      var k := Governor(chain[..|chain| - 1], t);
      assert forall i :: k < i < |chain| - 1 ==> Stamp(chain[..|chain| - 1], i) == Stamp(chain, i);
      k
  }

  /** The stretches tile the window: an instant lies in the one of its governing frame and in no other. */
  lemma StretchesTile(chain: Chain, w: Window, t: int, k: nat)
    requires Tiling(chain, w) && Within(w, t) && k < |chain|
    ensures StretchAt(chain, w, k).left <= t < StretchAt(chain, w, k).right <==> k == Governor(chain, t)
  {
    var g := Governor(chain, t);
    if k < g {
      assert Stamp(chain, k + 1) <= Stamp(chain, g) by { assert k + 1 == g || Stamp(chain, k + 1) <= Stamp(chain, g); }
    }
  }

  lemma GrantedCount(chain: Chain, w: Window, pick: Pick, t: int)
    requires Tiling(chain, w) && Within(w, t)
    ensures CountAt(Granted(chain, w), pick, t) == Live(chain[Governor(chain, t)].body.state.allocations, pick, t)
  {
    var ss, g := Stretches(chain, w), Governor(chain, t);
    forall k | 0 <= k < |ss|
      ensures CountAt(StretchSegments(ss[k]), pick, t) ==
              if k == g then Live(chain[g].body.state.allocations, pick, t) else 0
    {
      StretchesTile(chain, w, t, k);
      ItemsCount(ss[k].items, ss[k].left, ss[k].right, pick, t);
    }
    OnlyOneCounts(ss, StretchSegments, pick, t, g);
  }

  lemma StretchMeasured(x: Stretch, w: Window, s: Segment)
    requires w.since <= x.left && x.right <= w.until && s in StretchSegments(x)
    ensures Measured(s, w)
  {
    InFlatMap(x.items, ItemSegments(x.left, x.right), s);
    var j :| 0 <= j < |x.items| && s in ItemSegments(x.left, x.right)(x.items[j]);
  }

  lemma GrantedMeasured(chain: Chain, w: Window)
    ensures forall s :: s in Granted(chain, w) ==> Measured(s, w)
  {
    var ss := Stretches(chain, w);
    forall s | s in Granted(chain, w) ensures Measured(s, w) {
      InFlatMap(ss, StretchSegments, s);
      var k :| 0 <= k < |ss| && s in StretchSegments(ss[k]);
      StretchMeasured(StretchAt(chain, w, k), w, s);
    }
  }

  function LiveAlong(chain: Chain, pick: Pick): int -> int
    requires chain != []
  {
    (t: int) => Live(chain[Governor(chain, t)].body.state.allocations, pick, t)
  }

  /** The seconds of any choice of grants are the grants live in the governing frame, summed over instants. */
  lemma GrantedSecondsAreLiveInstants(chain: Chain, w: Window, pick: Pick)
    requires Tiling(chain, w)
    ensures Seconds(Granted(chain, w), pick) == Sum(w.since, w.until, LiveAlong(chain, pick))
  {
    var segments := Granted(chain, w);
    GrantedMeasured(chain, w);
    SecondsAreInstants(segments, pick, w);
    forall t | w.since <= t < w.until ensures CountEach(segments, pick)(t) == LiveAlong(chain, pick)(t) {
      GrantedCount(chain, w, pick, t);
    }
    SumSame(w.since, w.until, CountEach(segments, pick), LiveAlong(chain, pick));
  }

  // --------------------------------------------------- in terms of the leases

  /** How many leases of the governing frame have the property, at each instant. */
  ghost function CountedAlong(chain: Chain, p: When): int -> int
    requires chain != []
  {
    (t: int) => HowMany(chain[Governor(chain, t)].body.state.allocations, p, t)
  }

  ghost function OwedAlong(chain: Chain, w: Window, p: When): int
    requires chain != []
  {
    Sum(w.since, w.until, CountedAlong(chain, p))
  }

  lemma GrantedIsOwed(chain: Chain, w: Window, pick: Pick, p: When)
    requires Tiling(chain, w) && Means(pick, p)
    ensures Seconds(Granted(chain, w), pick) == OwedAlong(chain, w, p)
  {
    GrantedSecondsAreLiveInstants(chain, w, pick);
    forall t | w.since <= t < w.until ensures LiveAlong(chain, pick)(t) == CountedAlong(chain, p)(t) {
      LiveIsHowMany(chain[Governor(chain, t)].body.state.allocations, pick, p, t);
    }
    SumSame(w.since, w.until, LiveAlong(chain, pick), CountedAlong(chain, p));
  }

  /** The totals under `kind` and `mode` are the seconds of the leases of that kind and mode. */
  ghost predicate MeasuresAlong(chain: Chain, w: Window, totals: map<Measure, int>)
    requires chain != []
  {
    forall kind, mode :: Total(totals, Measure(kind, mode)) == OwedAlong(chain, w, OfMeasure(kind, mode))
  }

  /** A subject's totals are the seconds of its own leases of that kind and mode. */
  ghost predicate SubjectsAlong(chain: Chain, w: Window, totals: map<Subject, int>)
    requires chain != []
  {
    forall platform, external, kind, mode ::
      Total(totals, Subject(platform, external, Measure(kind, mode)))
      == OwedAlong(chain, w, OfSubject(platform, external, kind, mode))
  }

  /** Both tallies of a chain that tiles the window are the live instants of the leases themselves. */
  lemma TalliesAlong(chain: Chain, w: Window, totals: map<Measure, int>, subjects: map<Subject, int>)
    requires Tiling(chain, w) && TalliedSeconds(totals, subjects, Granted(chain, w))
    ensures MeasuresAlong(chain, w, totals) && SubjectsAlong(chain, w, subjects)
  {
    forall kind, mode ensures Total(totals, Measure(kind, mode)) == OwedAlong(chain, w, OfMeasure(kind, mode)) {
      PicksMean(kind, mode, "", "", Grant("", "", "", "", "", ""));
      GrantedIsOwed(chain, w, ByMeasure(Measure(kind, mode)), OfMeasure(kind, mode));
    }
    forall platform, external, kind, mode
      ensures Total(subjects, Subject(platform, external, Measure(kind, mode)))
              == OwedAlong(chain, w, OfSubject(platform, external, kind, mode))
    {
      PicksMean(kind, mode, platform, external, Grant("", "", "", "", "", ""));
      GrantedIsOwed(chain, w, BySubject(Subject(platform, external, Measure(kind, mode))),
                    OfSubject(platform, external, kind, mode));
    }
  }

  /** One lease contributes at most the length of the window. */
  lemma GrantedAtMostWindow(chain: Chain, w: Window, ref: string)
    requires Tiling(chain, w) && forall k :: 0 <= k < |chain| ==> ValidState(chain[k].body.state)
    ensures Seconds(Granted(chain, w), ByRef(ref)) <= w.until - w.since
  {
    GrantedSecondsAreLiveInstants(chain, w, ByRef(ref));
    forall t | w.since <= t < w.until ensures LiveAlong(chain, ByRef(ref))(t) <= 1 {
      var state := chain[Governor(chain, t)].body.state;
      AllocationsDistinct(state);
      OneLivePerRef(state.allocations, ref, t);
    }
    SumBound(w.since, w.until, LiveAlong(chain, ByRef(ref)), 1);
  }
}
