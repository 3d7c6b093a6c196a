/** Which bots the report collects, and when that depends on the order its frames are read in. */
module ReportOrder {
  import opened Leases
  import opened LeaseFrames
  import opened ReportDedup

  /** A frame counts for its bot exactly when all frames of its key so far agree. */
  lemma AddsIff(before: seq<Frame>, valid: Frame -> bool, x: Frame)
    ensures Adds(before, valid, x) <==> valid(x) && Consistent(before + [x], valid, KeyOf(x))
  {
    if valid(x) {
      var now := before + [x];
      assert now[..|before|] == before;
      StandingIff(now, valid, KeyOf(x));
      assert Offers(now, valid, x, KeyOf(x));
    }
  }

  /** The frame at `i` counts for its bot. */
  ghost predicate CountsAt(frames: seq<Frame>, valid: Frame -> bool, i: nat)
    requires i < |frames|
  {
    valid(frames[i]) && Consistent(frames[..i + 1], valid, KeyOf(frames[i]))
  }

  lemma {:induction false} BotsAfterIff(frames: seq<Frame>, valid: Frame -> bool, b: int)
    ensures b in BotsAfter(frames, valid) <==> exists i :: 0 <= i < |frames| && frames[i].bot == b && CountsAt(frames, valid, i)
  {
    if frames != [] {
      var last := |frames| - 1;
      var init := frames[..last];
      BotsAfterIff(init, valid, b);
      AddsIff(init, valid, frames[last]);
      assert init + [frames[last]] == frames[..last + 1] == frames;
      forall i | 0 <= i < last ensures CountsAt(init, valid, i) <==> CountsAt(frames, valid, i) {
        assert init[..i + 1] == frames[..i + 1];
      }
    }
  }

  /** Some key keeps `b` whatever the order: all its frames agree, or all are of this bot. */
  ghost predicate Anchored(frames: seq<Frame>, valid: Frame -> bool, b: int) {
    exists f :: AnchoredBy(frames, valid, b, f)
  }

  ghost predicate AnchoredBy(frames: seq<Frame>, valid: Frame -> bool, b: int, f: Frame) {
    && Offers(frames, valid, f, KeyOf(f)) && f.bot == b
    && (Consistent(frames, valid, KeyOf(f)) || OnlyBot(frames, valid, KeyOf(f), b))
  }

  ghost predicate OnlyBot(frames: seq<Frame>, valid: Frame -> bool, k: FrameKey, b: int) {
    forall g :: Offers(frames, valid, g, k) ==> g.bot == b
  }

  lemma ConsistentPrefix(frames: seq<Frame>, valid: Frame -> bool, n: nat, k: FrameKey)
    requires n <= |frames| && Consistent(frames, valid, k)
    ensures Consistent(frames[..n], valid, k)
  {
    forall f, g | Offers(frames[..n], valid, f, k) && Offers(frames[..n], valid, g, k) ensures Agree(f, g) {
      assert Offers(frames, valid, f, k) && Offers(frames, valid, g, k);
    }
  }

  /** The first valid frame of a key. */
  lemma FirstOf(frames: seq<Frame>, valid: Frame -> bool, k: FrameKey) returns (i: nat)
    requires Present(frames, valid, k)
    ensures i < |frames| && Offers(frames, valid, frames[i], k)
    ensures forall j :: 0 <= j < i ==> !(valid(frames[j]) && KeyOf(frames[j]) == k)
  {
    var f :| Offers(frames, valid, f, k);
    i := 0;
    while !(valid(frames[i]) && KeyOf(frames[i]) == k)
      invariant i < |frames| && f in frames[i..]
      invariant forall j :: 0 <= j < i ==> !(valid(frames[j]) && KeyOf(frames[j]) == k)
      decreases |frames| - i
    {
      assert frames[i..] == [frames[i]] + frames[i + 1..];
      i := i + 1;
    }
  }

  lemma AnchoredCounts(frames: seq<Frame>, valid: Frame -> bool, b: int)
    requires Anchored(frames, valid, b)
    ensures b in BotsAfter(frames, valid)
  {
    var f :| AnchoredBy(frames, valid, b, f);
    if Consistent(frames, valid, KeyOf(f)) {
      var i :| 0 <= i < |frames| && frames[i] == f;
      ConsistentPrefix(frames, valid, i + 1, KeyOf(f));
      assert CountsAt(frames, valid, i);
    } else {
      var i := FirstOf(frames, valid, KeyOf(f));
      var early := frames[..i + 1];
      assert forall g :: Offers(early, valid, g, KeyOf(f)) ==> g == frames[i];
      assert CountsAt(frames, valid, i);
    }
    BotsAfterIff(frames, valid, b);
  }

  /** The elements of `xs` for which `p` holds, in order. */
  ghost function Part(xs: seq<Frame>, p: Frame -> bool): seq<Frame> {
    if xs == [] then [] else Part(xs[..|xs| - 1], p) + (if p(xs[|xs| - 1]) then [xs[|xs| - 1]] else [])
  }

  ghost function Not(p: Frame -> bool): Frame -> bool { (f: Frame) => !p(f) }

  lemma {:induction false} PartIff(xs: seq<Frame>, p: Frame -> bool, x: Frame)
    ensures x in Part(xs, p) <==> x in xs && p(x)
  {
    if xs != [] {
      assert xs == xs[..|xs| - 1] + [xs[|xs| - 1]];
      PartIff(xs[..|xs| - 1], p, x);
    }
  }

  /** Moving the elements of one kind to the front only reorders. */
  lemma {:induction false} PartsTogether(xs: seq<Frame>, p: Frame -> bool)
    ensures multiset(Part(xs, p) + Part(xs, Not(p))) == multiset(xs)
  {
    if xs != [] {
      assert xs == xs[..|xs| - 1] + [xs[|xs| - 1]];
      PartsTogether(xs[..|xs| - 1], p);
    }
  }

  ghost function Foreign(b: int): Frame -> bool { (f: Frame) => f.bot != b }

  /** Some valid frame of another bot contradicts `f`. */
  ghost predicate Contradicted(frames: seq<Frame>, valid: Frame -> bool, b: int, f: Frame) {
    exists g :: Offers(frames, valid, g, KeyOf(f)) && g.bot != b && !Agree(g, f)
  }

  ghost function Contradicting(frames: seq<Frame>, valid: Frame -> bool, b: int): Frame -> bool {
    (f: Frame) => Contradicted(frames, valid, b, f)
  }

  /** The order that drops `b` if any does: first the others, then the frames of `b` they contradict, then the rest. */
  ghost function Against(frames: seq<Frame>, valid: Frame -> bool, b: int): seq<Frame> {
    var mine := Part(frames, Not(Foreign(b)));
    var p := Contradicting(frames, valid, b);
    Part(frames, Foreign(b)) + (Part(mine, p) + Part(mine, Not(p)))
  }

  lemma AgainstReorders(frames: seq<Frame>, valid: Frame -> bool, b: int)
    ensures multiset(Against(frames, valid, b)) == multiset(frames)
  {
    PartsTogether(frames, Foreign(b));
    PartsTogether(Part(frames, Not(Foreign(b))), Contradicting(frames, valid, b));
  }

  lemma EarlierParts(a: seq<Frame>, b: seq<Frame>, c: seq<Frame>, i: nat)
    requires i < |a + (b + c)|
    ensures i >= |a| ==> forall x :: x in a ==> x in (a + (b + c))[..i + 1]
    ensures i >= |a| + |b| ==> forall x :: x in b ==> x in (a + (b + c))[..i + 1]
    ensures (a + (b + c))[i] in if i < |a| then a else if i < |a| + |b| then b else c
  {
    var all := a + (b + c);
    forall x | x in a && i >= |a| ensures x in all[..i + 1] {
      var j :| 0 <= j < |a| && a[j] == x;
      assert all[..i + 1][j] == x;
    }
    forall x | x in b && i >= |a| + |b| ensures x in all[..i + 1] {
      var j :| 0 <= j < |b| && b[j] == x;
      assert all[..i + 1][|a| + j] == x;
    }
  }

  /** Without an anchor, every frame of `b` comes too late in that order. */
  lemma TooLate(frames: seq<Frame>, valid: Frame -> bool, b: int, others: seq<Frame>, first: seq<Frame>, rest: seq<Frame>, i: nat)
    requires !Anchored(frames, valid, b)
    requires forall g :: g in others <==> g in frames && g.bot != b
    requires forall g :: g in first <==> g in frames && g.bot == b && Contradicted(frames, valid, b, g)
    requires forall g :: g in rest ==> g in frames && g.bot == b && !Contradicted(frames, valid, b, g)
    requires i < |others + (first + rest)|
    requires var f := (others + (first + rest))[i]; f.bot == b && valid(f)
    ensures !Consistent((others + (first + rest))[..i + 1], valid, KeyOf((others + (first + rest))[i]))
  {
    var order := others + (first + rest);
    var f, early := order[i], order[..i + 1];
    var k := KeyOf(f);
    EarlierParts(others, first, rest, i);
    assert early[i] == f;
    assert Offers(early, valid, f, k);
    if Contradicted(frames, valid, b, f) {
      var g :| Offers(frames, valid, g, k) && g.bot != b && !Agree(g, f);
      assert Offers(early, valid, g, k);
    } else {
      var f1, f2 := Disagreement(frames, valid, b, f);
      assert Offers(early, valid, f1, k) && Offers(early, valid, f2, k);
    }
  }

  /**
   * Two disagreeing frames of the key of `f`: the second of another bot, and the first `f` itself, of another bot,
   * or a frame of `b` that another bot contradicts.
   */
  lemma Disagreement(frames: seq<Frame>, valid: Frame -> bool, b: int, f: Frame) returns (f1: Frame, f2: Frame)
    requires !Anchored(frames, valid, b) && f in frames && valid(f) && f.bot == b
    ensures Offers(frames, valid, f1, KeyOf(f)) && Offers(frames, valid, f2, KeyOf(f)) && !Agree(f1, f2) && f2.bot != b
    ensures f1.bot == b ==> Contradicted(frames, valid, b, f1)
  {
    var k := KeyOf(f);
    assert !AnchoredBy(frames, valid, b, f) && Offers(frames, valid, f, k);
    var x :| Offers(frames, valid, x, k) && x.bot != b;
    var y, z :| Offers(frames, valid, y, k) && Offers(frames, valid, z, k) && !Agree(y, z);
    f1, f2 := if Agree(x, y) then z else y, x;
  }

  /** Whatever the order of the same frames, the loop collects the same bots. */
  ghost predicate OrderFree(frames: seq<Frame>, valid: Frame -> bool) {
    forall frames' :: multiset(frames') == multiset(frames) ==> BotsAfter(frames', valid) == BotsAfter(frames, valid)
  }

  lemma SameFramesSameAnchors(frames: seq<Frame>, frames': seq<Frame>, valid: Frame -> bool, b: int)
    requires multiset(frames) == multiset(frames')
    ensures Anchored(frames, valid, b) ==> Anchored(frames', valid, b)
    ensures BotsOf(frames, valid) == BotsOf(frames', valid)
  {
    assert forall f :: f in frames <==> f in multiset(frames);
    assert forall f :: f in frames' <==> f in multiset(frames');
    assert forall f, k :: Offers(frames, valid, f, k) <==> Offers(frames', valid, f, k);
    if Anchored(frames, valid, b) {
      var f :| AnchoredBy(frames, valid, b, f);
      assert AnchoredBy(frames', valid, b, f);
    }
  }

  lemma AfterIsOf(frames: seq<Frame>, valid: Frame -> bool)
    ensures BotsAfter(frames, valid) <= BotsOf(frames, valid)
  {
    forall b | b in BotsAfter(frames, valid) ensures b in BotsOf(frames, valid) {
      BotsAfterIff(frames, valid, b);
      var i :| 0 <= i < |frames| && frames[i].bot == b && CountsAt(frames, valid, i);
      assert frames[i] in frames;
    }
  }

  /**
   * The set of bots is independent of the order if and only if every bot with a valid frame has a key that no order
   * can take from it; then the set is that of all bots with valid frames.
   */
  lemma OrderFreeIff(frames: seq<Frame>, valid: Frame -> bool)
    ensures OrderFree(frames, valid) <==> forall b :: b in BotsOf(frames, valid) ==> Anchored(frames, valid, b)
    ensures OrderFree(frames, valid) ==> BotsAfter(frames, valid) == BotsOf(frames, valid)
  {
    if forall b :: b in BotsOf(frames, valid) ==> Anchored(frames, valid, b) {
      forall frames' | multiset(frames') == multiset(frames) ensures BotsAfter(frames', valid) == BotsOf(frames, valid) {
        AllAnchored(frames, frames', valid);
      }
      assert BotsAfter(frames, valid) == BotsOf(frames, valid) by { AllAnchored(frames, frames, valid); }
    } else {
      var b :| b in BotsOf(frames, valid) && !Anchored(frames, valid, b);
      var order := CollectedFirst(frames, valid, b);
      AgainstReorders(frames, valid, b);
      DroppedAgainst(frames, valid, b);
    }
  }

  lemma AllAnchored(frames: seq<Frame>, frames': seq<Frame>, valid: Frame -> bool)
    requires multiset(frames') == multiset(frames)
    requires forall b :: b in BotsOf(frames, valid) ==> Anchored(frames, valid, b)
    ensures BotsAfter(frames', valid) == BotsOf(frames, valid)
  {
    AfterIsOf(frames', valid);
    SameFramesSameAnchors(frames, frames', valid, 0);
    forall b | b in BotsOf(frames, valid) ensures b in BotsAfter(frames', valid) {
      SameFramesSameAnchors(frames, frames', valid, b);
      AnchoredCounts(frames', valid, b);
    }
  }

  /** The order that reads a frame of `b` first collects it. */
  lemma CollectedFirst(frames: seq<Frame>, valid: Frame -> bool, b: int) returns (order: seq<Frame>)
    requires b in BotsOf(frames, valid)
    ensures multiset(order) == multiset(frames) && b in BotsAfter(order, valid)
  {
    var f :| f in frames && valid(f) && f.bot == b;
    var i :| 0 <= i < |frames| && frames[i] == f;
    order := [f] + (frames[..i] + frames[i + 1..]);
    assert frames == frames[..i] + [f] + frames[i + 1..];
    assert order[..1] == [f] && CountsAt(order, valid, 0);
    BotsAfterIff(order, valid, b);
  }

  /** The other one drops it. */
  lemma DroppedAgainst(frames: seq<Frame>, valid: Frame -> bool, b: int)
    requires !Anchored(frames, valid, b)
    ensures b !in BotsAfter(Against(frames, valid, b), valid)
  {
    var order := Against(frames, valid, b);
    var mine, p := Part(frames, Not(Foreign(b))), Contradicting(frames, valid, b);
    var others, first, rest := Part(frames, Foreign(b)), Part(mine, p), Part(mine, Not(p));
    forall g
      ensures g in others <==> g in frames && g.bot != b
      ensures g in first <==> g in frames && g.bot == b && Contradicted(frames, valid, b, g)
      ensures g in rest ==> g in frames && g.bot == b && !Contradicted(frames, valid, b, g)
    {
      PartIff(frames, Foreign(b), g);
      PartIff(frames, Not(Foreign(b)), g);
      PartIff(mine, p, g);
      PartIff(mine, Not(p), g);
    }
    BotsAfterIff(order, valid, b);
    forall j | 0 <= j < |order| && order[j].bot == b ensures !CountsAt(order, valid, j) {
      if valid(order[j]) { TooLate(frames, valid, b, others, first, rest, j); }
    }
  }

  /** Without conflicts the set is that of all bots with valid frames, in any order. */
  lemma BotsWithoutConflict(frames: seq<Frame>, valid: Frame -> bool)
    requires ConflictKeys(frames, valid) == {}
    ensures BotsAfter(frames, valid) == BotsOf(frames, valid)
  {
    forall b | b in BotsOf(frames, valid) ensures Anchored(frames, valid, b) {
      var f :| f in frames && valid(f) && f.bot == b;
      StandingIff(frames, valid, KeyOf(f));
      assert Offers(frames, valid, f, KeyOf(f)) && KeyOf(f) in KeysOf(frames) && KeyOf(f) !in ConflictKeys(frames, valid);
      assert AnchoredBy(frames, valid, b, f);
    }
    AllAnchored(frames, frames, valid);
  }

  /** Two frames of two bots that conflict on one key: the bot read first is the one collected. */
  lemma BotsDependOnOrder(f: Frame, g: Frame, valid: Frame -> bool)
    requires valid(f) && valid(g) && KeyOf(f) == KeyOf(g) && !Agree(f, g) && f.bot != g.bot
    ensures BotsAfter([f, g], valid) == {f.bot} && BotsAfter([g, f], valid) == {g.bot}
  {
    NextBots([], f, valid);
    NextBots([], g, valid);
    NextBots([f], g, valid);
    NextBots([g], f, valid);
    assert [] + [f] == [f] && [f] + [g] == [f, g] && [] + [g] == [g] && [g] + [f] == [g, f];
    assert StandingOf([f], valid, KeyOf(f)) == Kept(f) && StandingOf([g], valid, KeyOf(f)) == Kept(g);
  }

  lemma NextBots(done: seq<Frame>, f: Frame, valid: Frame -> bool)
    ensures BotsAfter(done + [f], valid) == BotsAfter(done, valid) + (if Adds(done, valid, f) then {f.bot} else {})
  {
    CountsGrow(done, valid, f);
  }
}
