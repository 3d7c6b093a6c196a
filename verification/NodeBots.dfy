/** The node bot over a flat map of resources, and the device bot over nested card lists. */
module NodeBots {
  import opened Leases
  import opened Expiry
  import opened Slots
  import opened CardKeys
  import opened NodeRules
  import Engine = QueueEngine
  import Rules = QueueRules
  import opened QueueBots

  type Verdict = Rules.Verdict

  // -------------------------------------------------------------- node bot

  method CheckDuration(cfg: Config, slot: Slot, u: UserId, duration: int, now: int) returns (tooMuch: bool)
    requires Started(slot.Value(), now)
    ensures tooMuch <==> NodeTooMuch(cfg, slot.Value(), u, duration, now)
  {
    var total, start := duration, now;
    var mine := Find(slot.holders, u);
    if mine.Some? {
      total := total + mine.value.duration;
      start := mine.value.start;
    }
    tooMuch := RemainingChecked(Stake(u, start, total, false), now) > cfg.maxDuration;
  }

  method AnyTooMuch(cfg: Config, slots: map<Key, Slot>, u: UserId, targets: seq<Key>, duration: int, now: int)
    returns (found: bool)
    requires Engine.Targets(slots, targets) && StartedState(Engine.View(slots), now)
    ensures found <==> SomeTooLong(cfg, Engine.View(slots), u, ToSet(targets), duration, now)
  {
    var i := 0;
    while i < |targets|
      invariant 0 <= i <= |targets|
      invariant forall j :: 0 <= j < i ==> !NodeTooMuch(cfg, slots[targets[j]].Value(), u, duration, now)
    {
      assert Started(Engine.View(slots)[targets[i]], now);
      found := CheckDuration(cfg, slots[targets[i]], u, duration, now);
      if found {
        assert targets[i] in ToSet(targets);
        assert NodeTooMuch(cfg, Engine.View(slots)[targets[i]], u, duration, now);
        return;
      }
      i := i + 1;
    }
    found := false;
  }

  /** The availability check of each mode, over every resource named. */
  method CheckMode(slots: map<Key, Slot>, shared: bool, u: UserId, targets: seq<Key>) returns (ok: bool)
    requires Engine.Targets(slots, targets)
    ensures ok <==> if shared then !SomeExclusive(Engine.View(slots), ToSet(targets))
                    else !SomeHeldByOthers(Engine.View(slots), u, ToSet(targets))
  {
    if shared {
      ok := forall k | k in targets :: slots[k].status != Exclusive;
    } else {
      ok := forall k | k in targets :: MayTakeOver(slots[k].Value(), u);
    }
    if !ok {
      ghost var k :| k in targets && if shared then slots[k].status == Exclusive else !MayTakeOver(slots[k].Value(), u);
      assert k in ToSet(targets) && Engine.View(slots)[k] == slots[k].Value();
    }
  }

  /** The verdict on an acquisition, check by check. */
  lemma JudgeOfRequest(cfg: Config, s: State, shared: bool, u: UserId, targets: set<Key>, duration: int, now: int)
    requires targets <= s.Keys
    ensures var p := Rules.Policy(cfg, s, u, targets, None, now);
            Judge(cfg, s, Request(shared, u, targets, duration), now) ==
            if p.Refused? then p
            else if shared && SomeExclusive(s, targets) then Rules.Refused(Rules.ExclusiveMode)
            else if !shared && SomeHeldByOthers(s, u, targets) then Rules.Refused(Rules.InUseOrShared)
            else if Rules.Capped(cfg, u) && SomeTooLong(cfg, s, u, targets, duration, now) then Rules.Refused(Rules.TooLong)
            else Rules.Accepted
  {
  }

  /** All of the checks of `lock` (or `slock`), in their order, before anything is changed. */
  method CheckNode(cfg: Config, slots: map<Key, Slot>, shared: bool, u: UserId, targets: seq<Key>, duration: int,
                   now: int)
    returns (v: Verdict)
    requires Engine.Targets(slots, targets) && StartedState(Engine.View(slots), now)
    ensures v == Judge(cfg, Engine.View(slots), Request(shared, u, ToSet(targets), duration), now)
  {
    JudgeOfRequest(cfg, Engine.View(slots), shared, u, ToSet(targets), duration, now);
    var renewal;
    v, renewal := Engine.CheckPolicy(cfg, slots, u, targets, None, now);
    if v.Refused? {
      return;
    }
    var ok := CheckMode(slots, shared, u, targets);
    if !ok {
      return Rules.Refused(if shared then Rules.ExclusiveMode else Rules.InUseOrShared);
    }
    if cfg.maxDuration > 0 && u !in cfg.whitelist {
      var tooLong := AnyTooMuch(cfg, slots, u, targets, duration, now);
      if tooLong {
        return Rules.Refused(Rules.TooLong);
      }
    }
  }

  function Request(shared: bool, u: UserId, targets: set<Key>, duration: int): (c: NodeCommand)
    ensures Acquires(c) && c.user == u && c.targets == targets
  {
    if shared then NodeCommand.Slock(u, targets, duration) else NodeCommand.Lock(u, targets, duration)
  }

  /** Acquires one resource in the mode of the request. */
  method AcquireSlot(ghost f: Resource -> Resource, ghost cfg: Config, slot: Slot, shared: bool, u: UserId, ghost targets: set<Key>,
                     duration: int, now: int)
    requires Performs(f, cfg, Request(shared, u, targets, duration), now)
    modifies slot
    ensures slot.Value() == f(old(slot.Value()))
  {
    ghost var r := slot.Value();
    if shared {
      slot.Slock(u, duration, now);
    } else {
      slot.NodeLock(u, duration, now);
    }
    assert slot.Value() == EffectOn(cfg, Request(shared, u, targets, duration), r, now);
  }

  method AcquireAt(ghost f: Resource -> Resource, ghost cfg: Config, slots: map<Key, Slot>, k: Key, shared: bool, u: UserId,
                   duration: int, now: int, ghost c: NodeCommand)
    requires Engine.Separate(slots) && k in slots && Acquires(c) && c == Request(shared, u, c.targets, duration)
    requires Performs(f, cfg, c, now)
    modifies slots[k]
    ensures Engine.View(slots) == old(Engine.View(slots))[k := f(old(Engine.View(slots))[k])]
  {
    ghost var was := Engine.View(slots);
    AcquireSlot(f, cfg, slots[k], shared, u, c.targets, duration, now);
    Engine.ViewAt(slots, was, k);
  }

  method AcquireAll(ghost f: Resource -> Resource, ghost cfg: Config, slots: map<Key, Slot>, shared: bool, u: UserId,
                    targets: seq<Key>, duration: int, now: int, ghost c: NodeCommand)
    requires Engine.Separate(slots) && Engine.Targets(slots, targets)
    requires Acquires(c) && c == Request(shared, u, c.targets, duration) && Performs(f, cfg, c, now)
    modifies Engine.Objects(slots)
    ensures Engine.View(slots) == old(Engine.Served(Engine.View(slots), targets, f))
  {
    ghost var before := Engine.View(slots);
    Engine.NoneServed(before, targets, f);
    var i := 0;
    while i < |targets|
      invariant 0 <= i <= |targets| && Engine.View(slots) == Engine.Served(before, targets[..i], f)
    {
      Engine.ServedNext(before, targets, i, f);
      AcquireAt(f, cfg, slots, targets[i], shared, u, duration, now, c);
      i := i + 1;
    }
    assert targets[..i] == targets;
  }

  /** A release does to nodes what it does to queued resources. */
  lemma ReleasesAgree(cfg: Config, s: State, now: int, c: NodeCommand, q: Rules.Command)
    requires Parsed(s, c) && Rules.Parsed(s, q)
    requires || (c.Unlock? && q == Rules.Command.Unlock(c.user, c.targets))
             || (c.UnlockAny? && q == Rules.Command.UnlockAny(c.user))
             || (c.Kickout? && q == Rules.Command.Kickout(c.targets))
             || (c.Opkick? && q == Rules.Command.Opkick(c.user, c.only))
    ensures Judge(cfg, s, c, now) == Rules.Judge(cfg, s, q, now)
    ensures Step(cfg, s, c, now) == Rules.Step(cfg, s, q, now)
  {
    forall k | k in s ensures Step(cfg, s, c, now)[k] == Rules.Step(cfg, s, q, now)[k] {
    }
  }

  class NodeBot {
    const cfg: Config
    const order: seq<Key>
    const slots: map<Key, Slot>

    predicate Valid() {
      Engine.Separate(slots) && Engine.Targets(slots, order) && ToSet(order) == slots.Keys
    }

    function Now(): State
      reads slots.Values
    {
      Engine.View(slots)
    }

    constructor (cfg: Config, order: seq<Key>, slots: map<Key, Slot>)
      requires Engine.Separate(slots) && Engine.Targets(slots, order) && ToSet(order) == slots.Keys
      ensures Valid() && this.cfg == cfg && this.order == order && this.slots == slots
    {
      this.cfg, this.order, this.slots := cfg, order, slots;
    }

    method Acquire(shared: bool, u: UserId, targets: seq<Key>, duration: int, limit: Option<int>, now: int) returns (v: Verdict)
      requires Valid() && Engine.Targets(slots, targets) && StartedState(Now(), now)
      modifies Engine.Objects(slots)
      ensures v == old(NodeBudgeted(cfg, Now(), Itself, Request(shared, u, ToSet(targets), duration), limit, now))
      ensures Now() == old(NodeBudgetedStep(cfg, Now(), Itself, Request(shared, u, ToSet(targets), duration), limit, now))
    {
      var exceeded := CheckAcquisition(slots, Itself, u, targets, limit);
      if exceeded {
        return Rules.Refused(Rules.AcquisitionLimit);
      }
      v := CheckNode(cfg, slots, shared, u, targets, duration, now);
      if v.Accepted? {
        ghost var c := Request(shared, u, ToSet(targets), duration);
        EffectPerforms(cfg, c, now);
        AcquireAll(Effect(cfg, c, now), cfg, slots, shared, u, targets, duration, now, c);
      }
    }

    method Lock(u: UserId, targets: seq<Key>, duration: int, limit: Option<int>, now: int) returns (v: Verdict)
      requires Valid() && Engine.Targets(slots, targets) && StartedState(Now(), now)
      modifies Engine.Objects(slots)
      ensures v == old(NodeBudgeted(cfg, Now(), Itself, NodeCommand.Lock(u, ToSet(targets), duration), limit, now))
      ensures Now() == old(NodeBudgetedStep(cfg, Now(), Itself, NodeCommand.Lock(u, ToSet(targets), duration), limit, now))
    {
      v := Acquire(false, u, targets, duration, limit, now);
    }

    method Slock(u: UserId, targets: seq<Key>, duration: int, limit: Option<int>, now: int) returns (v: Verdict)
      requires Valid() && Engine.Targets(slots, targets) && StartedState(Now(), now)
      modifies Engine.Objects(slots)
      ensures v == old(NodeBudgeted(cfg, Now(), Itself, NodeCommand.Slock(u, ToSet(targets), duration), limit, now))
      ensures Now() == old(NodeBudgetedStep(cfg, Now(), Itself, NodeCommand.Slock(u, ToSet(targets), duration), limit, now))
    {
      v := Acquire(true, u, targets, duration, limit, now);
    }

    method Unlock(u: UserId, targets: seq<Key>, now: int) returns (v: Verdict)
      requires Valid() && Engine.Targets(slots, targets)
      modifies Engine.Objects(slots)
      ensures v == old(Judge(cfg, Now(), NodeCommand.Unlock(u, ToSet(targets)), now))
      ensures Now() == old(Step(cfg, Now(), NodeCommand.Unlock(u, ToSet(targets)), now))
    {
      ReleasesAgree(cfg, Now(), now, NodeCommand.Unlock(u, ToSet(targets)), Rules.Command.Unlock(u, ToSet(targets)));
      v := Engine.Unlock(cfg, slots, u, targets, now);
    }

    method UnlockAny(u: UserId, now: int) returns (v: Verdict)
      requires Valid()
      modifies Engine.Objects(slots)
      ensures v.Accepted? && Now() == old(Step(cfg, Now(), NodeCommand.UnlockAny(u), now))
    {
      ReleasesAgree(cfg, Now(), now, NodeCommand.UnlockAny(u), Rules.Command.UnlockAny(u));
      v := Engine.UnlockAny(cfg, slots, order, u, now);
    }

    method Kickout(targets: seq<Key>, now: int) returns (v: Verdict)
      requires Valid() && Engine.Targets(slots, targets)
      modifies Engine.Objects(slots)
      ensures v.Accepted? && Now() == old(Step(cfg, Now(), NodeCommand.Kickout(ToSet(targets)), now))
    {
      ReleasesAgree(cfg, Now(), now, NodeCommand.Kickout(ToSet(targets)), Rules.Command.Kickout(ToSet(targets)));
      v := Engine.Kickout(cfg, slots, targets, now);
    }

    method Opkick(u: UserId, only: Option<Key>, now: int) returns (v: Verdict, freed: seq<Key>)
      requires Valid()
      modifies Engine.Objects(slots)
      ensures v == old(Judge(cfg, Now(), NodeCommand.Opkick(u, only), now))
      ensures Now() == old(Step(cfg, Now(), NodeCommand.Opkick(u, only), now))
      ensures ToSet(freed) == old(Rules.KickTargets(Now(), u, only))
    {
      ReleasesAgree(cfg, Now(), now, NodeCommand.Opkick(u, only), Rules.Command.Opkick(u, only));
      v, freed := Engine.Opkick(cfg, slots, order, u, only, now);
    }

    /** One timer check: expires and warns, and announces the next change exactly. */
    method CheckAndNotify(now: int) returns (changed: bool, notices: seq<Notice>, delay: Option<int>)
      requires Valid() && WellFormedState(Now(), now)
      modifies Engine.Objects(slots)
      ensures Now() == old(Step(cfg, Now(), NodeCommand.Sweep, now))
      ensures Now() == old(ExpireAll(cfg, Now(), now))
      ensures notices == old(AllNotices(cfg, Now(), order, now))
      ensures changed <==> Now() != old(Now())
      ensures Earliest(HolderCandidates(cfg, Now(), now), delay)
    {
      changed, notices, delay := NodeCheck(cfg, slots, order, now);
    }
  }

  // ----------------------------------------------------------------- sweep

  function ExpireReport(cfg: Config, now: int): (Key, Resource) -> seq<Notice> {
    (k: Key, r: Resource) => ExpireNotices(cfg, k, r, now)
  }

  /** Everything a sweep reports, resource by resource in the stored order. */
  function AllNotices(cfg: Config, s: State, order: seq<Key>, now: int): seq<Notice> {
    Rules.Collected(s, order, ExpireReport(cfg, now))
  }

  predicate Altered(cfg: Config, r: Resource, now: int) { ExpireOne(cfg, r, now) != r }

  function ExpireAlters(cfg: Config, now: int): Resource -> bool { (r: Resource) => Altered(cfg, r, now) }

  /** The three functions are those of a sweep; the triggers keep its definition folded where only they are at work. */
  ghost predicate Sweeps(f: Resource -> Resource, alters: Resource -> bool, report: (Key, Resource) -> seq<Notice>, cfg: Config,
                         now: int) {
    && (forall r {:trigger ExpireOne(cfg, r, now)} :: f(r) == ExpireOne(cfg, r, now))
    && (forall r {:trigger Altered(cfg, r, now)} :: alters(r) == Altered(cfg, r, now))
    && (forall k, r {:trigger ExpireNotices(cfg, k, r, now)} :: report(k, r) == ExpireNotices(cfg, k, r, now))
  }

  lemma ItSweeps(cfg: Config, now: int)
    ensures Sweeps(Effect(cfg, NodeCommand.Sweep, now), ExpireAlters(cfg, now), ExpireReport(cfg, now), cfg, now)
  {
    forall r ensures Effect(cfg, NodeCommand.Sweep, now)(r) == ExpireOne(cfg, r, now) {
      assert EffectOn(cfg, NodeCommand.Sweep, r, now) == ExpireOne(cfg, r, now);
    }
  }

  method ExpireSlot(ghost f: Resource -> Resource, ghost alters: Resource -> bool, ghost report: (Key, Resource) -> seq<Notice>,
                    cfg: Config, slot: Slot, key: Key, now: int)
    returns (expired: bool, reported: seq<Notice>)
    requires WellFormed(slot.Value(), now) && Sweeps(f, alters, report, cfg, now)
    modifies slot
    ensures slot.Value() == f(old(slot.Value()))
    ensures reported == report(key, old(slot.Value())) && (expired <==> alters(old(slot.Value())))
  {
    ghost var r := slot.Value();
    expired, reported := slot.Expire(cfg, key, now);
    assert slot.Value() == ExpireOne(cfg, r, now) && reported == ExpireNotices(cfg, key, r, now);
    assert expired == Altered(cfg, r, now);
  }

  method ExpireLoop(ghost f: Resource -> Resource, ghost alters: Resource -> bool, ghost report: (Key, Resource) -> seq<Notice>,
                    cfg: Config, slots: map<Key, Slot>, order: seq<Key>, now: int)
    returns (changed: bool, notices: seq<Notice>)
    requires Engine.Separate(slots) && Engine.Targets(slots, order) && WellFormedState(Engine.View(slots), now)
    requires Sweeps(f, alters, report, cfg, now)
    modifies Engine.Objects(slots)
    ensures Engine.View(slots) == old(Engine.Served(Engine.View(slots), order, f))
    ensures notices == old(Rules.Collected(Engine.View(slots), order, report))
    ensures changed <==> old(Engine.Among(Engine.View(slots), order, alters)) != []
  {
    changed, notices := false, [];
    ghost var before := Engine.View(slots);
    Engine.NoneServed(before, order, f);
    var i := 0;
    while i < |order|
      invariant 0 <= i <= |order| && Engine.View(slots) == Engine.Served(before, order[..i], f)
      invariant notices == Rules.Collected(before, order[..i], report)
      invariant changed <==> Engine.Among(before, order[..i], alters) != []
    {
      ghost var was := Engine.View(slots);
      Engine.ServedNext(before, order, i, f);
      Engine.ListNext(before, order, i, alters, report);
      assert WellFormed(before[order[i]], now);
      var expired, reported := ExpireSlot(f, alters, report, cfg, slots[order[i]], order[i], now);
      Engine.ViewAt(slots, was, order[i]);
      changed, notices, i := changed || expired, notices + reported, i + 1;
    }
    assert order[..i] == order;
  }

  lemma ExpireServed(cfg: Config, s: State, order: seq<Key>, now: int)
    requires s.Keys == ToSet(order)
    ensures Engine.Served(s, order, Effect(cfg, NodeCommand.Sweep, now)) == ExpireAll(cfg, s, now)
    ensures ExpireAll(cfg, s, now) == Step(cfg, s, NodeCommand.Sweep, now)
  {
  }

  lemma SomethingExpires(cfg: Config, s: State, order: seq<Key>, now: int)
    requires s.Keys == ToSet(order)
    ensures Engine.Among(s, order, ExpireAlters(cfg, now)) != [] <==> ExpireAll(cfg, s, now) != s
  {
    var f := Effect(cfg, NodeCommand.Sweep, now);
    assert forall r :: ExpireAlters(cfg, now)(r) <==> f(r) != r;
    Engine.SomethingChanges(s, order, f, ExpireAlters(cfg, now));
    ExpireServed(cfg, s, order, now);
  }

  predicate IdleIsFree(s: State) {
    forall k :: k in s ==> s[k].status == Idle ==> s[k].holders == []
  }

  lemma ExpiredStarted(cfg: Config, s: State, now: int)
    requires WellFormedState(s, now)
    ensures var s' := ExpireAll(cfg, s, now);
            StartedState(s', now) && IdleIsFree(s')
  {
    var s' := ExpireAll(cfg, s, now);
    forall k | k in s ensures WellFormed(s'[k], now) {
      ExpireKeepsWellFormed(cfg, s[k], now, now);
    }
    WellFormedIsStarted(s', now);
  }

  method HolderDelays(cfg: Config, slots: map<Key, Slot>, order: seq<Key>, now: int) returns (delay: Option<int>)
    requires Engine.Targets(slots, order) && ToSet(order) == slots.Keys && StartedState(Engine.View(slots), now)
    requires IdleIsFree(Engine.View(slots))
    ensures Earliest(HolderCandidates(cfg, Engine.View(slots), now), delay)
  {
    var best: Option<int> := None;
    var i := 0;
    while i < |order|
      invariant 0 <= i <= |order|
      invariant best.Some? ==> exists k :: k in slots && HolderCandidate(cfg, slots[k].Value(), now, best.value)
      invariant forall j, x :: 0 <= j < i && HolderCandidate(cfg, slots[order[j]].Value(), now, x) ==>
                  best.Some? && best.value <= x
    {
      assert Started(Engine.View(slots)[order[i]], now);
      var mine := slots[order[i]].HolderDelay(cfg, now);
      if mine.Some? && (best.None? || mine.value < best.value) {
        best := mine;
      }
      i := i + 1;
    }
    delay := if best.None? then None else Some(AtLeastOne(best.value));
    LeastOfAll(cfg, Engine.View(slots), order, now, best);
  }

  lemma LeastOfAll(cfg: Config, s: State, order: seq<Key>, now: int, best: Option<int>)
    requires s.Keys == ToSet(order)
    requires best.Some? ==> exists k :: k in s && HolderCandidate(cfg, s[k], now, best.value)
    requires forall j, x :: 0 <= j < |order| && HolderCandidate(cfg, s[order[j]], now, x) ==> best.Some? && best.value <= x
    ensures Earliest(HolderCandidates(cfg, s, now), if best.None? then None else Some(AtLeastOne(best.value)))
  {
    forall k, x | k in s && HolderCandidate(cfg, s[k], now, x) ensures best.Some? && best.value <= x {
      assert k in ToSet(order);
      var j :| 0 <= j < |order| && order[j] == k;
    }
    if best.Some? {
      assert best.value in HolderCandidates(cfg, s, now);
    }
  }

  /** The timer check both bots run: expiry and warnings in stored order, then the next wake-up. */
  method NodeCheck(cfg: Config, slots: map<Key, Slot>, order: seq<Key>, now: int)
    returns (changed: bool, notices: seq<Notice>, delay: Option<int>)
    requires Engine.Separate(slots) && Engine.Targets(slots, order) && ToSet(order) == slots.Keys
    requires WellFormedState(Engine.View(slots), now)
    modifies Engine.Objects(slots)
    ensures Engine.View(slots) == old(Step(cfg, Engine.View(slots), NodeCommand.Sweep, now))
    ensures Engine.View(slots) == old(ExpireAll(cfg, Engine.View(slots), now))
    ensures notices == old(AllNotices(cfg, Engine.View(slots), order, now))
    ensures changed <==> Engine.View(slots) != old(Engine.View(slots))
    ensures Earliest(HolderCandidates(cfg, Engine.View(slots), now), delay)
  {
    ghost var before := Engine.View(slots);
    ItSweeps(cfg, now);
    changed, notices := ExpireLoop(Effect(cfg, NodeCommand.Sweep, now), ExpireAlters(cfg, now), ExpireReport(cfg, now), cfg,
                                   slots, order, now);
    ExpireServed(cfg, before, order, now);
    SomethingExpires(cfg, before, order, now);
    ExpiredStarted(cfg, before, now);
    delay := HolderDelays(cfg, slots, order, now);
  }
}
