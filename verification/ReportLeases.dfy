/** The totals in terms of the leases themselves: how many were live, instant by instant. */
module ReportLeases {
  import opened Leases
  import opened LeaseFrames
  import opened Sequences
  import opened ReportRuns
  import opened ReportScan
  import opened ReportCoverage
  import opened ReportTotals

  /** A property of a lease at an instant. */
  type When = (Item, int) -> bool

  /** The lease runs at `t`: from its start up to its deadline. */
  predicate Running(x: Item, t: int) {
    x.deadline.Some? && x.start <= t < x.deadline.value
  }

  function OfMeasure(kind: string, mode: string): When {
    (x: Item, t: int) => x.kind == kind && x.mode == mode && Running(x, t)
  }

  function OfSubject(platform: string, external: string, kind: string, mode: string): When {
    (x: Item, t: int) => x.platform == platform && x.external == external && x.kind == kind && x.mode == mode && Running(x, t)
  }

  function OfLease(g: Grant): When {
    (x: Item, t: int) => && x.ref == g.ref && x.resource == g.resource && x.platform == g.platform
                         && x.external == g.external && x.kind == g.kind && x.mode == g.mode && Running(x, t)
  }

  /** How many of these leases have the property at `t`. */
  ghost function HowMany(items: seq<Item>, p: When, t: int): nat {
    |set i | 0 <= i < |items| && p(items[i], t)|
  }

  lemma HowManyNext(items: seq<Item>, p: When, t: int)
    requires items != []
    ensures HowMany(items, p, t) == HowMany(items[..|items| - 1], p, t) + (if p(items[|items| - 1], t) then 1 else 0)
  {
    var last := |items| - 1;
    var all := set i | 0 <= i < |items| && p(items[i], t);
    var init := set i | 0 <= i < last && p(items[..last][i], t);
    assert all == init + (if p(items[last], t) then {last} else {});
  }

  lemma NobodyCounted(items: seq<Item>, p: When, t: int)
    requires forall i :: 0 <= i < |items| ==> !p(items[i], t)
    ensures HowMany(items, p, t) == 0
  {
    assert (set i | 0 <= i < |items| && p(items[i], t)) == {};
  }

  /** The property is that of being picked and live. */
  ghost predicate Means(pick: Pick, p: When) {
    forall x, t :: p(x, t) <==> LiveItem(x, pick, t)
  }

  lemma {:induction false} LiveIsHowMany(items: seq<Item>, pick: Pick, p: When, t: int)
    requires Means(pick, p)
    ensures Live(items, pick, t) == HowMany(items, p, t)
  {
    if items == [] {
      NobodyCounted(items, p, t);
    } else {
      LiveIsHowMany(items[..|items| - 1], pick, p, t);
      HowManyNext(items, p, t);
      assert p(items[|items| - 1], t) <==> LiveItem(items[|items| - 1], pick, t);
    }
  }

  /** A grant is the lease it was cut from. */
  lemma PicksMean(kind: string, mode: string, platform: string, external: string, g: Grant)
    ensures Means(ByMeasure(Measure(kind, mode)), OfMeasure(kind, mode))
    ensures Means(BySubject(Subject(platform, external, Measure(kind, mode))), OfSubject(platform, external, kind, mode))
    ensures Means(ByGrant(g), OfLease(g))
  {
  }

  function ByGrant(g: Grant): Pick { (h: Grant) => h == g }

  // ------------------------------------------------------- over the window

  /** How many of the leases in force have the property, at each instant. */
  ghost function CountedAt(runs: seq<Run>, w: Window, oneBot: bool, p: When): int -> int {
    (t: int) => HowMany(InForce(runs, w, oneBot, t), p, t)
  }

  /** The same, summed over the instants of the window: the seconds a report owes. */
  ghost function Owed(runs: seq<Run>, w: Window, oneBot: bool, p: When): int {
    Sum(w.since, w.until, CountedAt(runs, w, oneBot, p))
  }

  lemma VerifiedIsOwed(runs: seq<Run>, w: Window, oneBot: bool, pick: Pick, p: When)
    requires NonEmpty(runs) && w.since < w.until && Means(pick, p)
    ensures Seconds(Verified(runs, w, oneBot), pick) == Owed(runs, w, oneBot, p)
  {
    VerifiedSecondsAreLiveInstants(runs, w, oneBot, pick);
    forall t | w.since <= t < w.until ensures LiveEach(runs, w, oneBot, pick)(t) == CountedAt(runs, w, oneBot, p)(t) {
      LiveIsHowMany(InForce(runs, w, oneBot, t), pick, p, t);
    }
    SumSame(w.since, w.until, LiveEach(runs, w, oneBot, pick), CountedAt(runs, w, oneBot, p));
  }

  function Total<K>(m: map<K, int>, k: K): int { if k in m then m[k] else 0 }

  /** The totals under `kind` and `mode` are the seconds of the leases of that kind and mode. */
  ghost predicate MeasuresOwed(runs: seq<Run>, w: Window, oneBot: bool, totals: map<Measure, int>) {
    forall kind, mode :: Total(totals, Measure(kind, mode)) == Owed(runs, w, oneBot, OfMeasure(kind, mode))
  }

  /** A subject's totals are the seconds of its own leases of that kind and mode. */
  ghost predicate SubjectsOwed(runs: seq<Run>, w: Window, oneBot: bool, totals: map<Subject, int>) {
    forall platform, external, kind, mode ::
      Total(totals, Subject(platform, external, Measure(kind, mode)))
      == Owed(runs, w, oneBot, OfSubject(platform, external, kind, mode))
  }

  /** The segments under one identity hold an instant exactly when the lease of that identity is live then. */
  ghost predicate SegmentsOwed(runs: seq<Run>, w: Window, oneBot: bool, segments: seq<Segment>) {
    && (forall g, t :: Within(w, t) ==> CountAt(segments, ByGrant(g), t) == HowMany(InForce(runs, w, oneBot, t), OfLease(g), t))
    && forall g :: Seconds(segments, ByGrant(g)) == Owed(runs, w, oneBot, OfLease(g))
  }

  lemma TotalsOwed(runs: seq<Run>, w: Window, oneBot: bool, totals: map<Measure, int>, subjects: map<Subject, int>)
    requires NonEmpty(runs) && w.since < w.until && TalliedSeconds(totals, subjects, Verified(runs, w, oneBot))
    ensures MeasuresOwed(runs, w, oneBot, totals)
  {
    forall kind, mode ensures Total(totals, Measure(kind, mode)) == Owed(runs, w, oneBot, OfMeasure(kind, mode)) {
      PicksMean(kind, mode, "", "", Grant("", "", "", "", "", ""));
      VerifiedIsOwed(runs, w, oneBot, ByMeasure(Measure(kind, mode)), OfMeasure(kind, mode));
    }
  }

  lemma SubjectTotalsOwed(runs: seq<Run>, w: Window, oneBot: bool, subjects: map<Subject, int>)
    requires NonEmpty(runs) && w.since < w.until
    requires forall k :: Total(subjects, k) == Seconds(Verified(runs, w, oneBot), BySubject(k))
    ensures SubjectsOwed(runs, w, oneBot, subjects)
  {
    forall platform, external, kind, mode
      ensures Total(subjects, Subject(platform, external, Measure(kind, mode)))
              == Owed(runs, w, oneBot, OfSubject(platform, external, kind, mode))
    {
      PicksMean(kind, mode, platform, external, Grant("", "", "", "", "", ""));
      VerifiedIsOwed(runs, w, oneBot, BySubject(Subject(platform, external, Measure(kind, mode))),
                     OfSubject(platform, external, kind, mode));
    }
  }

  lemma SegmentSecondsOwed(runs: seq<Run>, w: Window, oneBot: bool)
    requires NonEmpty(runs) && w.since < w.until
    ensures SegmentsOwed(runs, w, oneBot, Verified(runs, w, oneBot))
  {
    forall g, t | Within(w, t)
      ensures CountAt(Verified(runs, w, oneBot), ByGrant(g), t) == HowMany(InForce(runs, w, oneBot, t), OfLease(g), t)
    {
      PicksMean("", "", "", "", g);
      CountIsLive(runs, w, oneBot, ByGrant(g), t);
      LiveIsHowMany(InForce(runs, w, oneBot, t), ByGrant(g), OfLease(g), t);
    }
    forall g ensures Seconds(Verified(runs, w, oneBot), ByGrant(g)) == Owed(runs, w, oneBot, OfLease(g)) {
      PicksMean("", "", "", "", g);
      VerifiedIsOwed(runs, w, oneBot, ByGrant(g), OfLease(g));
    }
  }

  /** Keys without a segment have no seconds. */
  lemma {:induction false} NoSegmentNoSeconds(segments: seq<Segment>, k: Subject)
    requires k !in SubjectsIn(segments)
    ensures Seconds(segments, BySubject(k)) == 0
  {
    if segments != [] {
      var last := |segments| - 1;
      assert segments[last] in segments;
      assert SubjectOf(segments[last].grant) != k;
      assert forall s :: s in segments[..last] ==> s in segments;
      NoSegmentNoSeconds(segments[..last], k);
    }
  }
}
