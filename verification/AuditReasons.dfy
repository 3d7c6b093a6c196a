/** What each reason for doubt of the version 2 report stands for, in terms of the export alone. */
module AuditReasons {
  import opened Leases
  import opened LeaseFrames
  import opened AuditFrames
  import opened AuditChain
  import opened AuditWalk
  import opened AuditPages
  import opened AuditReport

  /** The server vouches for the window: complete, verified, without a boundary. */
  predicate Vouched(e: Export)
    requires e.pages != []
  {
    var c := e.pages[|e.pages| - 1].coverage;
    c.completeWindow == Some(true) && c.status == "verified" && c.boundaries == []
  }

  /** Frame `k` is not atomic, not complete, or, unless it is the anchor, marks a boundary. */
  predicate Flawed(e: Export, chain: Chain, k: nat)
    requires e.pages != [] && k < |chain|
  {
    var f := chain[k];
    !f.contract.atomic || !f.body.state.complete || (Bounded(f.body) && (k > 0 || e.pages[|e.pages| - 1].coverage.anchor.None?))
  }

  /** Frame `k` does not carry on from the one before: another commit lies between, or another state. */
  predicate Broken(chain: Chain, k: nat)
    requires 0 < k < |chain|
  {
    chain[k].contract.commit != chain[k - 1].contract.commit + 1 || chain[k].body.before != chain[k - 1].body.after
  }

  /** The cause behind each reason. */
  predicate Cause(e: Export, chain: Chain, why: Reason)
    requires e.pages != []
  {
    var last, cp, start := e.pages[|e.pages| - 1], e.pages[0].checkpoint, StartVersions(chain, Anchor(e).Some?);
    match why
    case UnsupportedHistoryClaim => last.coverage.completeHistory != Some(false)
    case PartialCollection => !e.exhausted || last.next.Some?
    case ServerCoverageUnknown => !Vouched(e)
    case MissingConsistentCheckpoint => cp.None? || cp.value.consistent != Some(true) || cp.value.integrityBoundary.Some?
    case MissingStartAnchor => last.coverage.anchor.None?
    case MissingCheckpointOrChain => chain == [] || cp.None?
    case UnsettledOrShortCheckpoint =>
      && chain != [] && cp.Some?
      && (cp.value.timestamp < e.scope.end || cp.value.timestamp > e.pages[0].asOf || cp.value.pending != Some(0))
    case InChain(NonAtomicOrBoundary) => exists k :: 0 <= k < |chain| && Flawed(e, chain, k)
    case InChain(SessionBoundary) => exists k :: 0 < k < |chain| && chain[k - 1].body.session != chain[k].body.session
    case InChain(BrokenUnfilteredChain) => e.scope.resource == "" && exists k :: 0 < k < |chain| && Broken(chain, k)
    case InChain(NonContinuousLeaseVersion) => chain != [] && Skips(chain, Anchor(e).Some?, start)
    case InChain(RegressedLeaseVersion) => chain != [] && Falls(chain, Anchor(e).Some?, start)
  }

  lemma CoverageHas(e: Export, chain: Chain, why: Reason)
    requires e.pages != []
    ensures why in CoverageReasons(e) <==>
            && (why.UnsupportedHistoryClaim? || why.PartialCollection? || why.ServerCoverageUnknown?
                || why.MissingConsistentCheckpoint? || why.MissingStartAnchor?)
            && Cause(e, chain, why)
  {
  }

  lemma CheckpointHas(e: Export, chain: Chain, why: Reason)
    requires e.pages != []
    ensures why in CheckpointReasons(e, chain) <==>
            (why.MissingCheckpointOrChain? || why.UnsettledOrShortCheckpoint?) && Cause(e, chain, why)
  {
  }

  lemma ChainHas(e: Export, chain: Chain, why: Reason)
    requires e.pages != []
    ensures why in ChainReasons(ChainDoubts(e, chain)) <==> why.InChain? && Cause(e, chain, why)
  {
    assert why in ChainReasons(ChainDoubts(e, chain)) <==> why.InChain? && why.doubt in ChainDoubts(e, chain);
    if chain != [] && why.InChain? { DoubtHas(e, chain, why.doubt); }
  }

  lemma DoubtingHas(whole: bool, session: bool, unbroken: bool, skips: bool, falls: bool, d: Doubt)
    ensures d in Doubting(whole, session, unbroken, skips, falls) <==>
            match d
            case NonAtomicOrBoundary => !whole
            case SessionBoundary => !session
            case BrokenUnfilteredChain => !unbroken
            case NonContinuousLeaseVersion => skips
            case RegressedLeaseVersion => falls
  {
  }

  lemma FlawedIs(e: Export, chain: Chain)
    requires e.pages != []
    ensures AllWhole(chain, Anchor(e).Some?) <==> forall k :: 0 <= k < |chain| ==> !Flawed(e, chain, k)
  {
    forall k | 0 <= k < |chain| ensures Flawed(e, chain, k) <==> !Whole(chain, Anchor(e).Some?, k) {}
  }

  lemma BrokenIs(chain: Chain, s: Scope)
    ensures Unbroken(chain, s) <==> s.resource != "" || forall k :: 0 < k < |chain| ==> !Broken(chain, k)
  {
    forall k | 0 < k < |chain| ensures Broken(chain, k) <==> !Chained(chain[k - 1], chain[k]) {}
  }

  lemma DoubtHas(e: Export, chain: Chain, d: Doubt)
    requires e.pages != [] && chain != []
    ensures d in ChainDoubts(e, chain) <==> Cause(e, chain, InChain(d))
  {
    var anchored := Anchor(e).Some?;
    var start := StartVersions(chain, anchored);
    DoubtingHas(AllWhole(chain, anchored), SameSession(chain), Unbroken(chain, e.scope), Skips(chain, anchored, start),
                Falls(chain, anchored, start), d);
    FlawedIs(e, chain);
    BrokenIs(chain, e.scope);
  }

  /** A report lists a reason if and only if the export gives that cause. */
  lemma ReasonIff(e: Export, chain: Chain, why: Reason)
    requires e.pages != []
    ensures why in ReasonsFor(e, chain) <==> Cause(e, chain, why)
  {
    CoverageHas(e, chain, why);
    CheckpointHas(e, chain, why);
    ChainHas(e, chain, why);
    SomeKind(why);
  }

  lemma SomeKind(why: Reason)
    ensures || why.UnsupportedHistoryClaim? || why.PartialCollection? || why.ServerCoverageUnknown?
            || why.MissingConsistentCheckpoint? || why.MissingStartAnchor? || why.MissingCheckpointOrChain?
            || why.UnsettledOrShortCheckpoint? || why.InChain?
  {
  }

  /**
   * When the report counts: the export is complete and vouched for, anchored and settled, and its chain is whole, of one
   * session, unbroken and smooth in its versions.
   */
  lemma NoReasonIff(e: Export, chain: Chain)
    requires e.pages != []
    ensures var last, cp := e.pages[|e.pages| - 1], e.pages[0].checkpoint;
            Certain(e, chain) <==>
              && last.coverage.completeHistory == Some(false) && e.exhausted && last.next.None? && Vouched(e)
              && last.coverage.anchor.Some? && chain != []
              && cp.Some? && cp.value.consistent == Some(true) && cp.value.integrityBoundary.None?
              && e.scope.end <= cp.value.timestamp <= e.pages[0].asOf && cp.value.pending == Some(0)
              && (forall k :: 0 <= k < |chain| ==> !Flawed(e, chain, k))
              && (forall k :: 0 < k < |chain| ==> chain[k - 1].body.session == chain[k].body.session)
              && (e.scope.resource == "" ==> forall k :: 0 < k < |chain| ==> !Broken(chain, k))
              && Smooth(chain, true)
  {
    NothingMissing(e);
    if Anchor(e).Some? {
      forall k | 0 <= k < |chain| ensures Flawed(e, chain, k) <==> !Whole(chain, true, k) {}
      forall k | 0 < k < |chain| ensures Broken(chain, k) <==> !Chained(chain[k - 1], chain[k]) {}
    }
  }

  lemma NothingMissing(e: Export)
    requires e.pages != []
    ensures var last, cp := e.pages[|e.pages| - 1], e.pages[0].checkpoint;
            CoverageReasons(e) == {} <==>
              && last.coverage.completeHistory == Some(false) && e.exhausted && last.next.None? && Vouched(e)
              && last.coverage.anchor.Some?
              && cp.Some? && cp.value.consistent == Some(true) && cp.value.integrityBoundary.None?
  {
    var rs := CoverageReasons(e);
    assert rs == {} ==> UnsupportedHistoryClaim !in rs && PartialCollection !in rs && ServerCoverageUnknown !in rs
                        && MissingConsistentCheckpoint !in rs && MissingStartAnchor !in rs;
  }
}
