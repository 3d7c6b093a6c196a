/** Deduplication of frames: agreeing repeats collapse, conflicting ones void their key. */
module ReportDedup {
  import opened Leases
  import opened LeaseFrames

  datatype FrameKey = FrameKey(session: string, sequence: int)

  function KeyOf(f: Frame): FrameKey { FrameKey(f.session, f.sequence) }

  /** The five fields two frames of one key must share. */
  predicate Agree(f: Frame, g: Frame) {
    && f.timestamp == g.timestamp && f.before == g.before && f.after == g.after
    && f.boundary == g.boundary && f.state == g.state
  }

  /** A valid frame of key `k`; validity is a parameter so that nothing here depends on its details. */
  predicate Offers(frames: seq<Frame>, valid: Frame -> bool, f: Frame, k: FrameKey) {
    f in frames && valid(f) && KeyOf(f) == k
  }

  ghost predicate Present(frames: seq<Frame>, valid: Frame -> bool, k: FrameKey) {
    exists f :: Offers(frames, valid, f, k)
  }

  /** All valid frames of this key agree. */
  ghost predicate Consistent(frames: seq<Frame>, valid: Frame -> bool, k: FrameKey) {
    forall f, g :: Offers(frames, valid, f, k) && Offers(frames, valid, g, k) ==> Agree(f, g)
  }

  // ------------------------------------------------- one key, frame by frame

  datatype Standing = Absent | Kept(frame: Frame) | Voided

  function Absorb(was: Standing, x: Frame): Standing {
    match was
    case Absent => Kept(x)
    case Kept(g) => if Agree(g, x) then Kept(x) else Voided
    case Voided => Voided
  }

  /** What the dictionaries say about `k` after reading `frames`. */
  function StandingOf(frames: seq<Frame>, valid: Frame -> bool, k: FrameKey): Standing {
    if frames == [] then Absent
    else
      var last := |frames| - 1;
      var was := StandingOf(frames[..last], valid, k);
      if valid(frames[last]) && KeyOf(frames[last]) == k then Absorb(was, frames[last]) else was
  }

  /**
   * A key ends up absent, kept or voided exactly as its valid frames are none, all in agreement, or in
   * conflict; a kept frame is one of them.
   */
  lemma {:induction false} StandingIff(frames: seq<Frame>, valid: Frame -> bool, k: FrameKey)
    ensures var st := StandingOf(frames, valid, k);
            && (st.Absent? <==> !Present(frames, valid, k))
            && (st.Voided? <==> Present(frames, valid, k) && !Consistent(frames, valid, k))
            && (st.Kept? ==> Offers(frames, valid, st.frame, k))
  {
    if frames != [] {
      var last := |frames| - 1;
      var init, x := frames[..last], frames[last];
      assert forall f :: f in frames <==> f in init || f == x;
      StandingIff(init, valid, k);
      var was := StandingOf(init, valid, k);
      if valid(x) && KeyOf(x) == k {
        assert Offers(frames, valid, x, k);
        if was.Kept? {
          assert Offers(init, valid, was.frame, k) && Offers(frames, valid, was.frame, k);
          if Agree(was.frame, x) {
            forall f, g | Offers(frames, valid, f, k) && Offers(frames, valid, g, k) ensures Agree(f, g) {
              assert Agree(was.frame, f) by { if f != x { assert Offers(init, valid, f, k); } }
              assert Agree(was.frame, g) by { if g != x { assert Offers(init, valid, g, k); } }
            }
          }
        } else if was.Voided? {
          var f, g :| Offers(init, valid, f, k) && Offers(init, valid, g, k) && !Agree(f, g);
          assert Offers(frames, valid, f, k) && Offers(frames, valid, g, k);
        } else {
          forall f | Offers(frames, valid, f, k) ensures f == x { assert f in init ==> Offers(init, valid, f, k); }
        }
      } else {
        assert forall f :: Offers(frames, valid, f, k) <==> Offers(init, valid, f, k);
      }
    }
  }

  // ------------------------------------------------------------ whole report

  function KeysOf(frames: seq<Frame>): set<FrameKey> {
    set f | f in frames :: KeyOf(f)
  }

  function ConflictKeys(frames: seq<Frame>, valid: Frame -> bool): set<FrameKey> {
    set k | k in KeysOf(frames) && StandingOf(frames, valid, k).Voided?
  }

  function Invalid(frames: seq<Frame>, valid: Frame -> bool): nat {
    if frames == [] then 0
    else Invalid(frames[..|frames| - 1], valid) + (if valid(frames[|frames| - 1]) then 0 else 1)
  }

  /** The frames kept: one per present and consistent key, agreeing with every valid frame of that key. */
  ghost predicate Keeps(frames: seq<Frame>, valid: Frame -> bool, kept: map<FrameKey, Frame>) {
    && (forall k :: k in kept <==> Present(frames, valid, k) && Consistent(frames, valid, k))
    && (forall k :: k in kept ==> Offers(frames, valid, kept[k], k))
  }

  function BotsOf(frames: seq<Frame>, valid: Frame -> bool): set<int> {
    set f | f in frames && valid(f) :: f.bot
  }

  /** A frame names its bot unless its key is voided, before it or by it. */
  predicate Adds(before: seq<Frame>, valid: Frame -> bool, x: Frame) {
    var was := StandingOf(before, valid, KeyOf(x));
    valid(x) && (was.Absent? || (was.Kept? && Agree(was.frame, x)))
  }

  /** The bots the loop has collected after `frames`, in this very order. */
  function BotsAfter(frames: seq<Frame>, valid: Frame -> bool): set<int> {
    if frames == [] then {}
    else
      var last := |frames| - 1;
      BotsAfter(frames[..last], valid) + (if Adds(frames[..last], valid, frames[last]) then {frames[last].bot} else {})
  }

  /** The dictionaries after the frames `done`. */
  ghost predicate Recorded(done: seq<Frame>, valid: Frame -> bool, kept: map<FrameKey, Frame>, conflicts: set<FrameKey>) {
    forall k :: StandingOf(done, valid, k) ==
                if k in conflicts then Voided else if k in kept then Kept(kept[k]) else Absent
  }

  lemma CountsGrow(done: seq<Frame>, valid: Frame -> bool, f: Frame)
    ensures Invalid(done + [f], valid) == Invalid(done, valid) + (if valid(f) then 0 else 1)
    ensures BotsAfter(done + [f], valid) == BotsAfter(done, valid) + (if Adds(done, valid, f) then {f.bot} else {})
  {
    assert (done + [f])[..|done|] == done;
  }

  lemma RecordedGrows(done: seq<Frame>, valid: Frame -> bool, f: Frame)
    ensures forall k :: StandingOf(done + [f], valid, k) ==
                        if valid(f) && KeyOf(f) == k then Absorb(StandingOf(done, valid, k), f)
                        else StandingOf(done, valid, k)
  {
    assert (done + [f])[..|done|] == done;
  }

  lemma RecordedSame(done: seq<Frame>, valid: Frame -> bool, f: Frame, kept: map<FrameKey, Frame>, conflicts: set<FrameKey>)
    requires Recorded(done, valid, kept, conflicts) && (valid(f) ==> KeyOf(f) in conflicts)
    ensures Recorded(done + [f], valid, kept, conflicts)
  {
    RecordedGrows(done, valid, f);
  }

  lemma RecordedVoids(done: seq<Frame>, valid: Frame -> bool, f: Frame, kept: map<FrameKey, Frame>, conflicts: set<FrameKey>)
    requires Recorded(done, valid, kept, conflicts) && valid(f) && KeyOf(f) !in conflicts
    requires KeyOf(f) in kept && !Agree(kept[KeyOf(f)], f)
    ensures Recorded(done + [f], valid, kept - {KeyOf(f)}, conflicts + {KeyOf(f)})
  {
    RecordedGrows(done, valid, f);
    assert StandingOf(done, valid, KeyOf(f)) == Kept(kept[KeyOf(f)]);
  }

  lemma RecordedKeeps(done: seq<Frame>, valid: Frame -> bool, f: Frame, kept: map<FrameKey, Frame>, conflicts: set<FrameKey>)
    requires Recorded(done, valid, kept, conflicts) && valid(f) && KeyOf(f) !in conflicts
    requires KeyOf(f) in kept ==> Agree(kept[KeyOf(f)], f)
    ensures Recorded(done + [f], valid, kept[KeyOf(f) := f], conflicts)
  {
    RecordedGrows(done, valid, f);
    var was := StandingOf(done, valid, KeyOf(f));
    assert was == if KeyOf(f) in kept then Kept(kept[KeyOf(f)]) else Absent;
  }

  method Dedup(frames: seq<Frame>, valid: Frame -> bool)
    returns (kept: map<FrameKey, Frame>, malformed: nat, bots: set<int>)
    ensures Keeps(frames, valid, kept)
    ensures malformed == Invalid(frames, valid) + |ConflictKeys(frames, valid)|
    ensures bots == BotsAfter(frames, valid)
  {
    kept, malformed, bots := map[], 0, {};
    var conflicts: set<FrameKey> := {};
    var i := 0;
    while i < |frames|
      invariant 0 <= i <= |frames|
      invariant Recorded(frames[..i], valid, kept, conflicts) && conflicts !! kept.Keys
      invariant malformed == Invalid(frames[..i], valid) + |conflicts|
      invariant bots == BotsAfter(frames[..i], valid)
    {
      var f := frames[i];
      assert frames[..i + 1] == frames[..i] + [f];
      CountsGrow(frames[..i], valid, f);
      var k := KeyOf(f);
      if !valid(f) {
        RecordedSame(frames[..i], valid, f, kept, conflicts);
        malformed := malformed + 1;
      } else if k in conflicts {
        RecordedSame(frames[..i], valid, f, kept, conflicts);
      } else if k in kept && !Agree(kept[k], f) {
        RecordedVoids(frames[..i], valid, f, kept, conflicts);
        malformed := malformed + 1;
        conflicts := conflicts + {k};
        kept := kept - {k};
      } else {
        RecordedKeeps(frames[..i], valid, f, kept, conflicts);
        bots := bots + {f.bot};
        kept := kept[k := f];
      }
      i := i + 1;
    }
    assert frames[..i] == frames;
    DedupOutcome(frames, valid, kept, conflicts);
  }

  lemma DedupOutcome(frames: seq<Frame>, valid: Frame -> bool, kept: map<FrameKey, Frame>, conflicts: set<FrameKey>)
    requires Recorded(frames, valid, kept, conflicts) && conflicts !! kept.Keys
    ensures Keeps(frames, valid, kept) && conflicts == ConflictKeys(frames, valid)
  {
    forall k
      ensures k in kept <==> Present(frames, valid, k) && Consistent(frames, valid, k)
      ensures k in kept ==> Offers(frames, valid, kept[k], k)
      ensures k in conflicts <==> k in ConflictKeys(frames, valid)
    {
      StandingIff(frames, valid, k);
      if k in conflicts {
        var f :| Offers(frames, valid, f, k);
        assert KeyOf(f) in KeysOf(frames);
      }
    }
  }

  // ---------------------------------------------------- order does not matter

  /** How many frames of a multiset are invalid. */
  ghost function InvalidIn(m: multiset<Frame>, valid: Frame -> bool): nat {
    if m == multiset{} then 0
    else
      var f :| f in m;
      InvalidIn(m - multiset{f}, valid) + (if valid(f) then 0 else 1)
  }

  lemma {:induction false} InvalidInAny(m: multiset<Frame>, valid: Frame -> bool, x: Frame)
    requires x in m
    ensures InvalidIn(m, valid) == InvalidIn(m - multiset{x}, valid) + (if valid(x) then 0 else 1)
  {
    var f :| f in m && InvalidIn(m, valid) == InvalidIn(m - multiset{f}, valid) + (if valid(f) then 0 else 1);
    if f != x {
      InvalidInAny(m - multiset{f}, valid, x);
      InvalidInAny(m - multiset{x}, valid, f);
      assert m - multiset{f} - multiset{x} == m - multiset{x} - multiset{f};
    }
  }

  lemma {:induction false} InvalidByMultiset(frames: seq<Frame>, valid: Frame -> bool)
    ensures Invalid(frames, valid) == InvalidIn(multiset(frames), valid)
  {
    if frames != [] {
      var last := |frames| - 1;
      assert frames == frames[..last] + [frames[last]];
      InvalidByMultiset(frames[..last], valid);
      InvalidInAny(multiset(frames), valid, frames[last]);
      assert multiset(frames) - multiset{frames[last]} == multiset(frames[..last]);
    }
  }

  lemma SameFramesSameStanding(frames: seq<Frame>, frames': seq<Frame>, valid: Frame -> bool, k: FrameKey)
    requires multiset(frames) == multiset(frames')
    ensures Present(frames, valid, k) <==> Present(frames', valid, k)
    ensures Consistent(frames, valid, k) <==> Consistent(frames', valid, k)
    ensures k in ConflictKeys(frames, valid) <==> k in ConflictKeys(frames', valid)
  {
    assert forall f :: f in frames <==> f in multiset(frames);
    assert forall f :: f in frames' <==> f in multiset(frames');
    assert forall f :: Offers(frames, valid, f, k) <==> Offers(frames', valid, f, k);
    assert k in KeysOf(frames) <==> k in KeysOf(frames');
    StandingIff(frames, valid, k);
    StandingIff(frames', valid, k);
  }

  /**
   * Reading the same frames in another order keeps the same keys, with agreeing frames, and counts the
   * same number of malformed records.
   */
  lemma OrderDoesNotMatter(frames: seq<Frame>, frames': seq<Frame>, valid: Frame -> bool,
                           kept: map<FrameKey, Frame>, kept': map<FrameKey, Frame>)
    requires multiset(frames) == multiset(frames')
    requires Keeps(frames, valid, kept) && Keeps(frames', valid, kept')
    ensures kept.Keys == kept'.Keys && forall k :: k in kept ==> Agree(kept[k], kept'[k])
    ensures Invalid(frames, valid) + |ConflictKeys(frames, valid)| == Invalid(frames', valid) + |ConflictKeys(frames', valid)|
  {
    InvalidByMultiset(frames, valid);
    InvalidByMultiset(frames', valid);
    forall k
      ensures k in kept <==> k in kept'
      ensures k in ConflictKeys(frames, valid) <==> k in ConflictKeys(frames', valid)
    {
      SameFramesSameStanding(frames, frames', valid, k);
    }
    assert ConflictKeys(frames, valid) == ConflictKeys(frames', valid);
    forall k | k in kept ensures Agree(kept[k], kept'[k]) {
      assert Offers(frames, valid, kept[k], k) && Offers(frames', valid, kept'[k], k);
      assert kept'[k] in multiset(frames);
      assert Offers(frames, valid, kept'[k], k);
    }
  }
}
