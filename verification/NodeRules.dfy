/** The node and device bots: exclusive and shared leases without a queue. */
module NodeRules {
  import opened Leases
  import opened Runs
  import opened Expiry
  import opened QueueRules
  import opened QueueInvariants
  import opened QueueFairness

  datatype NodeCommand =
    | Lock(user: UserId, targets: set<Key>, duration: int)
    | Slock(user: UserId, targets: set<Key>, duration: int)
    | Unlock(user: UserId, targets: set<Key>)
    | UnlockAny(user: UserId)
    | Kickout(targets: set<Key>)
    | Opkick(user: UserId, only: Option<Key>)
    | Sweep

  predicate MayTakeOver(r: Resource, u: UserId) {
    r.status == Idle || (Has(r.holders, u) && r.status == Exclusive)
  }

  function NodeLockOne(r: Resource, u: UserId, duration: int, now: int): Resource {
    Resource(Exclusive, [Extended(r, u, duration, now)], r.bookings)
  }

  /** Lengthens the lease of `u` where it stands in the list. */
  function Lengthen(hs: seq<Stake>, u: UserId, duration: int): seq<Stake> {
    if hs == [] then []
    else if hs[0].user == u then [hs[0].(duration := hs[0].duration + duration, notified := false)] + hs[1..]
    else [hs[0]] + Lengthen(hs[1..], u, duration)
  }

  function SlockOne(r: Resource, u: UserId, duration: int, now: int): Resource {
    Resource(Shared,
             if Has(r.holders, u) then Lengthen(r.holders, u, duration)
             else r.holders + [Stake(u, now, duration, false)],
             r.bookings)
  }

  function Named(c: NodeCommand): set<Key> {
    match c
    case Lock(_, targets, _) => targets
    case Slock(_, targets, _) => targets
    case Unlock(_, targets) => targets
    case Kickout(targets) => targets
    case _ => {}
  }

  predicate Parsed(s: State, c: NodeCommand) {
    Named(c) <= s.Keys
  }

  predicate NodeTooMuch(cfg: Config, r: Resource, u: UserId, duration: int, now: int) {
    Remaining(Extended(r, u, duration, now), now) > cfg.maxDuration
  }

  predicate SomeHeldByOthers(s: State, u: UserId, targets: set<Key>)
    requires targets <= s.Keys
  {
    exists k :: k in targets && !MayTakeOver(s[k], u)
  }

  predicate SomeExclusive(s: State, targets: set<Key>)
    requires targets <= s.Keys
  {
    exists k :: k in targets && s[k].status == Exclusive
  }

  predicate SomeTooLong(cfg: Config, s: State, u: UserId, targets: set<Key>, duration: int, now: int)
    requires targets <= s.Keys
  {
    exists k :: k in targets && NodeTooMuch(cfg, s[k], u, duration, now)
  }

  function Judge(cfg: Config, s: State, c: NodeCommand, now: int): Verdict
    requires Parsed(s, c)
  {
    match c
    case Lock(u, targets, duration) =>
      var p := Policy(cfg, s, u, targets, None, now);
      if p.Refused? then p
      else if SomeHeldByOthers(s, u, targets) then Refused(InUseOrShared)
      else if Capped(cfg, u) && SomeTooLong(cfg, s, u, targets, duration, now) then Refused(TooLong)
      else Accepted
    case Slock(u, targets, duration) =>
      var p := Policy(cfg, s, u, targets, None, now);
      if p.Refused? then p
      else if SomeExclusive(s, targets) then Refused(ExclusiveMode)
      else if Capped(cfg, u) && SomeTooLong(cfg, s, u, targets, duration, now) then Refused(TooLong)
      else Accepted
    case Unlock(u, targets) =>
      if exists k :: k in targets && !Has(s[k].holders, u) && !Has(s[k].bookings, u)
      then Refused(NotRequested) else Accepted
    case Opkick(u, only) => if KickTargets(s, u, only) == {} then Refused(NoActiveLock) else Accepted
    case _ => Accepted
  }

  function Scope(s: State, c: NodeCommand): set<Key> {
    match c
    case Lock(_, targets, _) => targets
    case Slock(_, targets, _) => targets
    case Unlock(_, targets) => targets
    case Kickout(targets) => targets
    case Opkick(u, only) => KickTargets(s, u, only)
    case _ => s.Keys
  }

  function EffectOn(cfg: Config, c: NodeCommand, r: Resource, now: int): Resource {
    match c
    case Lock(u, _, duration) => NodeLockOne(r, u, duration, now)
    case Slock(u, _, duration) => SlockOne(r, u, duration, now)
    case Unlock(u, _) => UnlockOne(r, u)
    case UnlockAny(u) => UnlockAnyOne(r, u)
    case Kickout(_) => KickoutOne(r)
    case Opkick(u, _) => OpkickOne(r, u)
    case Sweep => ExpireOne(cfg, r, now)
  }

  function Effect(cfg: Config, c: NodeCommand, now: int): Resource -> Resource {
    (r: Resource) => EffectOn(cfg, c, r, now)
  }

  /** `f` performs the command; the trigger keeps the command's definition folded where only `f` is at work. */
  ghost predicate Performs(f: Resource -> Resource, cfg: Config, c: NodeCommand, now: int) {
    forall r {:trigger EffectOn(cfg, c, r, now)} :: f(r) == EffectOn(cfg, c, r, now)
  }

  lemma EffectPerforms(cfg: Config, c: NodeCommand, now: int)
    ensures Performs(Effect(cfg, c, now), cfg, c, now)
  {
  }

  function Step(cfg: Config, s: State, c: NodeCommand, now: int): State
    requires Parsed(s, c)
  {
    if Judge(cfg, s, c, now).Refused? then s
    else ApplyTo(s, Scope(s, c), Effect(cfg, c, now))
  }

  /** One resource across one command: untouched, or transformed under what acceptance checked. */
  predicate Transition(cfg: Config, c: NodeCommand, r: Resource, now: int, r': Resource) {
    || r' == r
    || (&& r' == EffectOn(cfg, c, r, now)
        && (c.Lock? ==> MayTakeOver(r, c.user))
        && (c.Slock? ==> r.status != Exclusive)
        && ((c.Lock? || c.Slock?) && Capped(cfg, c.user) ==> !NodeTooMuch(cfg, r, c.user, c.duration, now))
        && ((c.Lock? || c.Slock?) && cfg.forbidRelock ==> !Has(r.holders, c.user)))
  }

  lemma StepTransition(cfg: Config, s: State, c: NodeCommand, now: int, k: Key)
    requires Parsed(s, c) && k in s
    ensures Transition(cfg, c, s[k], now, Step(cfg, s, c, now)[k])
    ensures Step(cfg, s, c, now)[k] != s[k] ==> k in Scope(s, c)
  {
  }

  // ------------------------------------------------------------ invariants

  lemma {:induction false} LengthenShape(hs: seq<Stake>, u: UserId, duration: int)
    requires Distinct(hs)
    ensures |Lengthen(hs, u, duration)| == |hs|
    ensures forall i :: 0 <= i < |hs| ==>
              Lengthen(hs, u, duration)[i] ==
              if hs[i].user == u then hs[i].(duration := hs[i].duration + duration, notified := false) else hs[i]
  {
    if hs != [] {
      assert Distinct(hs[1..]);
      LengthenShape(hs[1..], u, duration);
    }
  }

  lemma LengthenKeeps(hs: seq<Stake>, u: UserId, duration: int, now: int)
    requires Distinct(hs) && forall h :: h in hs ==> h.start <= now
    ensures Distinct(Lengthen(hs, u, duration)) && forall h :: h in Lengthen(hs, u, duration) ==> h.start <= now
  {
    LengthenShape(hs, u, duration);
    var r := Lengthen(hs, u, duration);
    assert forall i :: 0 <= i < |hs| ==> r[i].user == hs[i].user && r[i].start == hs[i].start;
  }

  lemma SlockKeeps(r: Resource, u: UserId, duration: int, now: int)
    requires WellFormed(r, now) && r.status != Exclusive && r.bookings == []
    ensures WellFormed(SlockOne(r, u, duration, now), now)
  {
    assert r.holders + r.bookings == r.holders;
    var r' := SlockOne(r, u, duration, now);
    assert r'.holders + r'.bookings == r'.holders;
    if Has(r.holders, u) {
      LengthenShape(r.holders, u, duration);
      LengthenKeeps(r.holders, u, duration, now);
    } else {
      DistinctParts(r.holders, [Stake(u, now, duration, false)]);
    }
  }

  /** Node and device resources carry no queue, and every command keeps them well-formed. */
  lemma TransitionKeepsWellFormed(cfg: Config, c: NodeCommand, r: Resource, t: int, now: int, r': Resource)
    requires WellFormed(r, t) && r.bookings == [] && t <= now && Transition(cfg, c, r, now, r')
    ensures WellFormed(r', now) && r'.bookings == []
  {
    LaterWellFormed(r, t, now);
    if r' != r {
      match c
      case Lock(u, _, duration) => assert r'.holders + r'.bookings == r'.holders;
      case Slock(u, _, duration) => SlockKeeps(r, u, duration, now);
      case Unlock(u, _) => ReleaseKeeps(r, u, now);
      case UnlockAny(u) => ReleaseKeeps(r, u, now);
      case Kickout(_) =>
      case Opkick(u, _) => ReleaseKeeps(r, u, now);
      case Sweep => ExpireKeepsWellFormed(cfg, r, t, now);
    }
  }

  /** Only the first record of `u` is lengthened, in any list. */
  lemma {:induction false} LengthenedIs(hs: seq<Stake>, u: UserId, duration: int, h: Stake)
    requires h in Lengthen(hs, u, duration) && h !in hs
    ensures Find(hs, u).Some?
    ensures var f := Find(hs, u).value; h == f.(duration := f.duration + duration, notified := false)
  {
    if hs[0].user != u {
      LengthenedIs(hs[1..], u, duration, h);
    }
  }

  /** The duration cap survives every command, renewals of a shared lease included. */
  lemma TransitionKeepsCap(cfg: Config, c: NodeCommand, r: Resource, t: int, now: int, r': Resource)
    requires t <= now && Transition(cfg, c, r, now, r') && WithinCap(cfg, r, t)
    ensures WithinCap(cfg, r', now)
  {
    assert WithinCap(cfg, r, now);
    if r' != r {
      forall h | h in r'.holders && Capped(cfg, h.user) && h !in r.holders ensures Remaining(h, now) <= cfg.maxDuration {
        if c.Slock? && Has(r.holders, c.user) {
          LengthenedIs(r.holders, c.user, c.duration, h);
        } else if c.Sweep? && r.status != Idle {
          SurvivorsIff(cfg, r.holders, now, h);
        }
      }
    }
  }

  /** Lock and slock never touch anybody else's lease. */
  lemma AcquisitionSparesOthers(cfg: Config, c: NodeCommand, r: Resource, t: int, now: int, r': Resource, h: Stake)
    requires c.Lock? || c.Slock?
    requires WellFormed(r, t) && t <= now && Transition(cfg, c, r, now, r') && h.user != c.user
    ensures h in r'.holders <==> h in r.holders
  {
    DistinctParts(r.holders, r.bookings);
    if r' != r && c.Slock? && Has(r.holders, c.user) {
      LengthenShape(r.holders, c.user, c.duration);
      forall i | 0 <= i < |r.holders| ensures r.holders[i] == h <==> r'.holders[i] == h {}
    }
  }

  // ---------------------------------------------------------------- runs

  predicate Next(cfg: Config, s: State, e: Timed<NodeCommand>, s': State) {
    Parsed(s, e.cmd) && s' == Step(cfg, s, e.cmd, e.at)
  }

  predicate IsRun(cfg: Config, from: int, states: seq<State>, run: seq<Timed<NodeCommand>>) {
    && |states| == |run| + 1
    && (forall i :: 0 <= i < |run| ==> Next(cfg, states[i], run[i], states[i + 1]))
    && Clocked(from, run)
  }

  ghost function Effects(cfg: Config): (NodeCommand, Resource, int, Resource) -> bool {
    (c: NodeCommand, r: Resource, now: int, r': Resource) => Transition(cfg, c, r, now, r')
  }

  lemma RunTracks(cfg: Config, from: int, states: seq<State>, run: seq<Timed<NodeCommand>>, k: Key)
    requires IsRun(cfg, from, states, run) && k in states[0]
    ensures forall i :: 0 <= i < |states| ==> k in states[i]
    ensures Tracks(Along(states, k), from, run, Effects(cfg))
  {
    forall i | 0 <= i < |run| && k in states[i]
      ensures k in states[i + 1] && TimeAt(from, run, i) <= run[i].at
      ensures Effects(cfg)(run[i].cmd, states[i][k], run[i].at, states[i + 1][k])
    {
      assert Next(cfg, states[i], run[i], states[i + 1]);
      StepTransition(cfg, states[i], run[i].cmd, run[i].at, k);
    }
    StatesTrack(from, states, run, k, Effects(cfg));
  }

  predicate Unqueued(r: Resource, now: int) { WellFormed(r, now) && r.bookings == [] }

  function Capping(cfg: Config): (Resource, int) -> bool {
    (r: Resource, t: int) => WithinCap(cfg, r, t)
  }

  lemma UnqueuedPreserved(cfg: Config)
    ensures Preserves(Unqueued, Effects(cfg))
  {
    forall c, r, t, now, r' | Unqueued(r, t) && t <= now && Effects(cfg)(c, r, now, r') ensures Unqueued(r', now) {
      TransitionKeepsWellFormed(cfg, c, r, t, now, r');
    }
  }

  lemma CapPreserved(cfg: Config)
    ensures Preserves(Capping(cfg), Effects(cfg))
  {
    forall c, r, t, now, r' | Capping(cfg)(r, t) && t <= now && Effects(cfg)(c, r, now, r') ensures Capping(cfg)(r', now) {
      TransitionKeepsCap(cfg, c, r, t, now, r');
    }
  }

  /** Every state a node or device bot reaches is well formed and has no queue. */
  lemma RunKeepsUnqueued(cfg: Config, from: int, states: seq<State>, run: seq<Timed<NodeCommand>>, n: nat, k: Key)
    requires IsRun(cfg, from, states, run) && n <= |run| && k in states[0] && Unqueued(states[0][k], from)
    ensures k in states[n] && Unqueued(states[n][k], TimeAt(from, run, n))
  {
    UnqueuedPreserved(cfg);
    RunTracks(cfg, from, states, run, k);
    KeptAlong(Along(states, k), from, run, n, Unqueued, Effects(cfg));
  }

  /** And in every one of them no capped holder has more than the maximum left, however often it renewed. */
  lemma RunKeepsNodeCap(cfg: Config, from: int, states: seq<State>, run: seq<Timed<NodeCommand>>, n: nat, k: Key)
    requires IsRun(cfg, from, states, run) && n <= |run| && k in states[0] && WithinCap(cfg, states[0][k], from)
    ensures k in states[n] && WithinCap(cfg, states[n][k], TimeAt(from, run, n))
  {
    CapPreserved(cfg);
    RunTracks(cfg, from, states, run, k);
    KeptAlong(Along(states, k), from, run, n, Capping(cfg), Effects(cfg));
  }

  // -------------------------------------------------------- per-user limits

  predicate Acquires(c: NodeCommand) { c.Lock? || c.Slock? }

  /** Lock and slock leave the actor's claimed set within the old one plus the targets, and within the cap. */
  lemma NodeCapPerCommand(cfg: Config, s: State, c: NodeCommand, now: int)
    requires Parsed(s, c) && Acquires(c) && Judge(cfg, s, c, now).Accepted?
    ensures var was, claimed := Claimed(s, c.user, now), Claimed(Step(cfg, s, c, now), c.user, now);
            && claimed <= was + c.targets
            && (cfg.cap != -1 ==> |claimed| <= |was| || |claimed| <= cfg.cap)
  {
    var s', was := Step(cfg, s, c, now), Claimed(s, c.user, now);
    forall k | k in Claimed(s', c.user, now) && k !in c.targets ensures k in was {
      StepTransition(cfg, s, c, now, k);
      assert s'[k] == s[k];
    }
    if cfg.cap != -1 {
      assert c.targets - was == {} || |was + c.targets| <= cfg.cap;
      UnionWithin(was, c.targets, Claimed(s', c.user, now), cfg.cap);
    }
  }

  /** The verdict a request gets when it also carries a machine budget, checked before everything else. */
  function NodeBudgeted(cfg: Config, s: State, unit: Key -> Key, c: NodeCommand, limit: Option<int>, now: int): Verdict
    requires Parsed(s, c) && Acquires(c)
  {
    if limit.Some? && Exceeds(s, unit, c.user, c.targets, limit.value) then Refused(AcquisitionLimit)
    else Judge(cfg, s, c, now)
  }

  function NodeBudgetedStep(cfg: Config, s: State, unit: Key -> Key, c: NodeCommand, limit: Option<int>, now: int): State
    requires Parsed(s, c) && Acquires(c)
  {
    if NodeBudgeted(cfg, s, unit, c, limit, now).Refused? then s else Step(cfg, s, c, now)
  }

  /** A budgeted request leaves the user on at most as many machines as before, or as the budget allows. */
  lemma NodeBudgetPerCommand(cfg: Config, s: State, unit: Key -> Key, c: NodeCommand, now: int, limit: int)
    requires Parsed(s, c) && Acquires(c)
    ensures var s' := NodeBudgetedStep(cfg, s, unit, c, Some(limit), now);
            var was, held := HeldUnits(s, unit, c.user), HeldUnits(s', unit, c.user);
            |held| <= |was| || |held| <= limit
  {
    var s', u := NodeBudgetedStep(cfg, s, unit, c, Some(limit), now), c.user;
    if !Exceeds(s, unit, u, c.targets, limit) {
      forall x | x in HeldUnits(s', unit, u) ensures x in HeldUnits(s, unit, u) + UnitsOf(c.targets, unit) {
        var k :| k in s' && HasStake(s'[k], u) && unit(k) == x;
        StepTransition(cfg, s, c, now, k);
      }
      UnionWithin(HeldUnits(s, unit, u), UnitsOf(c.targets, unit), HeldUnits(s', unit, u), limit);
    }
  }

  // ------------------------------------------------------ sweep absorption

  lemma {:induction false} SurvivorsAbsorb(cfg: Config, hs: seq<Stake>, t1: int, t2: int)
    requires t1 <= t2
    ensures Survivors(cfg, Survivors(cfg, hs, t1), t2) == Survivors(cfg, hs, t2)
  {
    if hs != [] {
      SurvivorsAbsorb(cfg, hs[1..], t1, t2);
      var rest := Survivors(cfg, hs[1..], t1);
      if Remaining(hs[0], t1) > 0 {
        assert Survivors(cfg, hs, t1) == [Mark(cfg, hs[0], t1)] + rest;
        assert ([Mark(cfg, hs[0], t1)] + rest)[1..] == rest;
      } else {
        assert Survivors(cfg, hs, t1) == rest;
      }
    }
  }

  /** A later sweep makes an earlier one irrelevant. */
  lemma SweepAbsorbs(cfg: Config, r: Resource, t1: int, t2: int)
    requires t1 <= t2
    ensures ExpireOne(cfg, ExpireOne(cfg, r, t1), t2) == ExpireOne(cfg, r, t2)
  {
    SurvivorsAbsorb(cfg, r.holders, t1, t2);
  }

  /** The users a sweep at `now` alerts about this resource, with multiplicity. */
  function Alerted(cfg: Config, hs: seq<Stake>, now: int): multiset<UserId> {
    if hs == [] then multiset{}
    else (if Alerts(cfg, hs[0], now) then multiset{hs[0].user} else multiset{}) + Alerted(cfg, hs[1..], now)
  }

  /** Everybody named in a report. */
  function Told(notices: seq<Notice>): multiset<UserId> {
    if notices == [] then multiset{} else multiset{notices[0].user} + Told(notices[1..])
  }

  lemma {:induction false} AlertedIsReported(cfg: Config, key: Key, mode: Status, hs: seq<Stake>, now: int)
    ensures Told(HolderNotices(cfg, key, mode, hs, now)) == Alerted(cfg, hs, now)
  {
    if hs != [] {
      AlertedIsReported(cfg, key, mode, hs[1..], now);
      var tail := HolderNotices(cfg, key, mode, hs[1..], now);
      if Alerts(cfg, hs[0], now) {
        var n := Expiring(key, hs[0].user, mode, Remaining(hs[0], now));
        assert HolderNotices(cfg, key, mode, hs, now) == [n] + tail && ([n] + tail)[1..] == tail;
      } else {
        assert HolderNotices(cfg, key, mode, hs, now) == [] + tail == tail;
      }
    }
  }

  function AlertOf(cfg: Config, h: Stake, now: int): multiset<UserId> {
    if Alerts(cfg, h, now) then multiset{h.user} else multiset{}
  }

  lemma AlertedCons(cfg: Config, h: Stake, rest: seq<Stake>, now: int)
    ensures Alerted(cfg, [h] + rest, now) == AlertOf(cfg, h, now) + Alerted(cfg, rest, now)
  {
    assert ([h] + rest)[1..] == rest;
  }

  /** Two sweeps alert what the later one alone would. */
  lemma {:induction false} AlertsAbsorb(cfg: Config, hs: seq<Stake>, t1: int, t2: int)
    requires t1 <= t2
    ensures Alerted(cfg, hs, t1) + Alerted(cfg, Survivors(cfg, hs, t1), t2) == Alerted(cfg, hs, t2)
  {
    if hs != [] {
      var h, rest := hs[0], Survivors(cfg, hs[1..], t1);
      AlertsAbsorb(cfg, hs[1..], t1, t2);
      if Remaining(h, t1) > 0 {
        assert Survivors(cfg, hs, t1) == [Mark(cfg, h, t1)] + rest;
        AlertedCons(cfg, Mark(cfg, h, t1), rest, t2);
        assert AlertOf(cfg, h, t1) + AlertOf(cfg, Mark(cfg, h, t1), t2) == AlertOf(cfg, h, t2);
      } else {
        assert Survivors(cfg, hs, t1) == [] + rest == rest;
        assert AlertOf(cfg, h, t1) == AlertOf(cfg, h, t2);
      }
    }
  }

  predicate Ascending(times: seq<int>) {
    forall i, j :: 0 <= i < j < |times| ==> times[i] <= times[j]
  }

  function SweepAt(cfg: Config, r: Resource, times: seq<int>): Resource
    decreases |times|
  {
    if times == [] then r else SweepAt(cfg, ExpireOne(cfg, r, times[0]), times[1..])
  }

  function AlertedOver(cfg: Config, r: Resource, times: seq<int>): multiset<UserId>
    decreases |times|
  {
    if times == [] then multiset{}
    else (if r.status == Idle then multiset{} else Alerted(cfg, r.holders, times[0]))
         + AlertedOver(cfg, ExpireOne(cfg, r, times[0]), times[1..])
  }

  /** Any sweeps in any rhythm leave the state, and raise the alerts, of the last one alone. */
  lemma {:induction false} OnlyTheLastSweepMatters(cfg: Config, r: Resource, times: seq<int>)
    requires Ascending(times) && times != [] && (r.status == Idle ==> r.holders == [])
    ensures SweepAt(cfg, r, times) == ExpireOne(cfg, r, times[|times| - 1])
    ensures AlertedOver(cfg, r, times) == Alerted(cfg, r.holders, times[|times| - 1])
    decreases |times|
  {
    var last := times[|times| - 1];
    var r1 := ExpireOne(cfg, r, times[0]);
    if |times| == 1 {
      assert times[1..] == [];
    } else {
      assert Ascending(times[1..]);
      OnlyTheLastSweepMatters(cfg, r1, times[1..]);
      SweepAbsorbs(cfg, r, times[0], last);
      AlertsAbsorb(cfg, r.holders, times[0], last);
    }
  }

  lemma {:induction false} AlertedCount(cfg: Config, hs: seq<Stake>, now: int, h: Stake)
    requires Distinct(hs) && h in hs
    ensures Alerted(cfg, hs, now)[h.user] == if Alerts(cfg, h, now) then 1 else 0
  {
    assert Distinct(hs[1..]);
    if h == hs[0] {
      AlertedOnlyHolders(cfg, hs[1..], now, h.user);
    } else {
      assert h in hs[1..];
      AlertedCount(cfg, hs[1..], now, h);
      var i :| 0 <= i < |hs[1..]| && hs[1..][i] == h;
      assert hs[i + 1] == h;
    }
  }

  lemma {:induction false} AlertedOnlyHolders(cfg: Config, hs: seq<Stake>, now: int, u: UserId)
    requires forall i :: 0 <= i < |hs| ==> hs[i].user != u
    ensures Alerted(cfg, hs, now)[u] == 0
  {
    if hs != [] { AlertedOnlyHolders(cfg, hs[1..], now, u); }
  }

  /**
   * Every lease not renewed meanwhile is alerted exactly once over any ascending sequence of sweeps:
   * once if the last sweep finds it expired or inside the warning lead (and it had not been warned
   * before), never otherwise.
   */
  lemma AlertedExactlyOnce(cfg: Config, r: Resource, t: int, times: seq<int>, h: Stake)
    requires WellFormed(r, t) && Ascending(times) && times != [] && h in r.holders
    ensures AlertedOver(cfg, r, times)[h.user] == if Alerts(cfg, h, times[|times| - 1]) then 1 else 0
  {
    DistinctParts(r.holders, r.bookings);
    OnlyTheLastSweepMatters(cfg, r, times);
    AlertedCount(cfg, r.holders, times[|times| - 1], h);
  }

  // -------------------------------------------------------------- wake-up

  function ExpireAll(cfg: Config, s: State, now: int): (r: State)
    ensures r.Keys == s.Keys
    ensures forall k :: k in s ==> r[k] == ExpireOne(cfg, s[k], now)
  {
    map k | k in s :: ExpireOne(cfg, s[k], now)
  }

  lemma ExpiredIsSettled(cfg: Config, r: Resource, from: int, now: int)
    requires WellFormed(r, from) && from <= now
    ensures HoldersSettled(cfg, ExpireOne(cfg, r, now).holders, now) && WellFormed(ExpireOne(cfg, r, now), now)
  {
    ExpireKeepsWellFormed(cfg, r, from, now);
    SurvivorsSettled(cfg, r.holders, now);
  }

  /** Before the announced time a node or device sweep changes nothing and reports nothing. */
  lemma NodeSweepMissesNothing(cfg: Config, s: State, from: int, now: int, d: Option<int>, t: int, k: Key)
    requires SaneLead(cfg) && WellFormedState(s, from) && from <= now <= t
    requires Earliest(HolderCandidates(cfg, ExpireAll(cfg, s, now), now), d)
    requires d.Some? ==> t < now + d.value
    requires k in s
    ensures var r := ExpireOne(cfg, s[k], now); ExpireOne(cfg, r, t) == r && ExpireNotices(cfg, k, r, t) == []
  {
    var s' := ExpireAll(cfg, s, now);
    var r := s'[k];
    assert WellFormed(s[k], from);
    ExpiredIsSettled(cfg, s[k], from, now);
    forall h | h in r.holders ensures t < now + HolderWake(cfg, h, now) {
      UnsettledAt(cfg, r.holders, now, h);
      assert HolderCandidate(cfg, r, now, HolderWake(cfg, h, now));
      assert HolderWake(cfg, h, now) in HolderCandidates(cfg, s', now);
    }
    SettledUntil(cfg, r.holders, now, t);
    SettledFixpoint(cfg, k, r.status, r.holders, t);
  }

  lemma HolderAnnouncer(cfg: Config, s: State, now: int, d: int) returns (k: Key, h: Stake)
    requires Earliest(HolderCandidates(cfg, s, now), Some(d))
    ensures k in s && s[k].status != Idle && h in s[k].holders && d == AtLeastOne(HolderWake(cfg, h, now))
  {
    var x :| x in HolderCandidates(cfg, s, now) && d == AtLeastOne(x);
    k :| k in s && HolderCandidate(cfg, s[k], now, x);
    h :| h in s[k].holders && Remaining(h, now) > 0 && x == HolderWake(cfg, h, now);
  }

  /** At a holder's wake-up the settled resource is due for a change. */
  lemma WakeChanges(cfg: Config, r: Resource, now: int, h: Stake)
    requires SaneLead(cfg) && HoldersSettled(cfg, r.holders, now) && r.status != Idle && h in r.holders
    ensures ExpireOne(cfg, r, now + AtLeastOne(HolderWake(cfg, h, now))) != r
  {
    var t := now + HolderWake(cfg, h, now);
    UnsettledAt(cfg, r.holders, now, h);
    if ExpireOne(cfg, r, t) == r { FixpointSettled(cfg, r.holders, t); }
  }

  /** And at the announced time it does change something: the announcement is exact. */
  lemma NodeSweepWakesForAChange(cfg: Config, s: State, from: int, now: int, d: int) returns (k: Key)
    requires SaneLead(cfg) && WellFormedState(s, from) && from <= now
    requires Earliest(HolderCandidates(cfg, ExpireAll(cfg, s, now), now), Some(d))
    ensures k in s
    ensures var r := ExpireOne(cfg, s[k], now); ExpireOne(cfg, r, now + d) != r
  {
    var h: Stake;
    k, h := HolderAnnouncer(cfg, ExpireAll(cfg, s, now), now, d);
    assert WellFormed(s[k], from);
    ExpiredIsSettled(cfg, s[k], from, now);
    WakeChanges(cfg, ExpireOne(cfg, s[k], now), now, h);
  }
}
