/** Fairness of the queue bot: lineages never gain time, queue order, per-user caps. */
module QueueFairness {
  import opened Leases
  import opened Runs
  import opened Sequences
  import opened Expiry
  import opened QueueRules
  import opened QueueInvariants

  // ------------------------------------------- lineages under FORBID_RELOCK

  predicate HasStake(r: Resource, u: UserId) {
    Has(r.holders, u) || Has(r.bookings, u)
  }

  /** Seconds `u` can still spend holding `r`: what is left of its lease, or what its booking would grant. */
  function Potential(r: Resource, u: UserId, now: int): int {
    var h, b := Find(r.holders, u), Find(r.bookings, u);
    if h.Some? then Remaining(h.value, now)
    else if b.Some? && b.value.duration > 0 then b.value.duration
    else 0
  }

  /** Seconds of `[t1, t2)` during which `u`'s lease on `r` is live. */
  function LiveSeconds(r: Resource, u: UserId, t1: int, t2: int): int {
    var h := Find(r.holders, u);
    if h.None? then 0
    else
      var lo := if h.value.start > t1 then h.value.start else t1;
      var hi := if h.value.start + h.value.duration < t2 then h.value.start + h.value.duration else t2;
      if lo < hi then hi - lo else 0
  }

  lemma HolderPotential(r: Resource, s: Stake, now: int)
    requires Distinct(r.holders) && s in r.holders
    ensures Potential(r, s.user, now) == Remaining(s, now)
  {
    FindMember(r.holders, s);
  }

  lemma BookingPotential(r: Resource, s: Stake, now: int)
    requires Distinct(r.holders + r.bookings) && s in r.bookings
    ensures Potential(r, s.user, now) == if s.duration > 0 then s.duration else 0
  {
    DistinctParts(r.holders, r.bookings);
    FindMember(r.bookings, s);
  }

  lemma TakenOrigin(r: Resource, u: UserId, duration: int, now: int, s': Stake)
    requires s' in TakeOne(r, u, duration, now).bookings
    ensures || (exists s :: s in r.bookings && s.user == s'.user && s.duration == s'.duration)
            || (exists h :: h in r.holders && h.user == s'.user && s'.duration == Remaining(h, now))
  {
    var q := Requeued(r.holders, u, now) + Remove(r.bookings, u);
    var i :| 0 <= i < |q| && Unprompted(q)[i] == s';
    if q[i] in Requeued(r.holders, u, now) {
      RequeuedIff(r.holders, u, now, q[i]);
    } else {
      assert q[i] in r.bookings;
    }
  }

  /** Where a queue entry after a command comes from. */
  lemma BookingOrigin(cfg: Config, c: Command, r: Resource, now: int, r': Resource, s': Stake)
    requires WellFormed(r, now) && Transition(cfg, c, r, now, r') && s' in r'.bookings
    ensures || (exists s :: s in r.bookings && s.user == s'.user && s.duration == s'.duration)
            || (exists h :: h in r.holders && h.user == s'.user && s'.duration == Remaining(h, now))
            || (c.Book? && s'.user == c.user && !HasStake(r, s'.user))
  {
    if s' !in r.bookings {
      if c.Take? {
        TakenOrigin(r, c.user, c.duration, now, s');
      } else if c.Sweep? {
        assert r'.bookings == ExpireOne(cfg, r, now).bookings || s'.duration == s'.duration;
      }
    }
  }

  lemma HolderOrigin(cfg: Config, c: Command, r: Resource, now: int, r': Resource, s': Stake)
    requires WellFormed(r, now) && Transition(cfg, c, r, now, r') && s' in r'.holders
    requires cfg.forbidRelock
    ensures || (exists h :: h in r.holders && h.user == s'.user && h.start == s'.start && h.duration == s'.duration)
            || (exists b :: b in r.bookings && b.user == s'.user && s'.start == now && s'.duration <= b.duration)
            || !HasStake(r, s'.user)
  {
    if r' != r && c.Sweep? && r.status != Idle { SurvivorsIff(cfg, r.holders, now, s'); }
  }

  lemma HolderGainsNothing(cfg: Config, c: Command, r: Resource, now: int, r': Resource, s': Stake)
    requires WellFormed(r, now) && Transition(cfg, c, r, now, r') && cfg.forbidRelock
    requires s' in r'.holders && HasStake(r, s'.user)
    ensures Remaining(s', now) <= Potential(r, s'.user, now)
  {
    DistinctParts(r.holders, r.bookings);
    HolderOrigin(cfg, c, r, now, r', s');
    if h :| h in r.holders && h.user == s'.user && h.start == s'.start && h.duration == s'.duration {
      HolderPotential(r, h, now);
    } else {
      var b :| b in r.bookings && b.user == s'.user && s'.start == now && s'.duration <= b.duration;
      BookingPotential(r, b, now);
    }
  }

  lemma BookerGainsNothing(cfg: Config, c: Command, r: Resource, now: int, r': Resource, s': Stake)
    requires WellFormed(r, now) && Transition(cfg, c, r, now, r')
    requires s' in r'.bookings && HasStake(r, s'.user)
    ensures s'.duration <= Potential(r, s'.user, now)
  {
    DistinctParts(r.holders, r.bookings);
    BookingOrigin(cfg, c, r, now, r', s');
    if s :| s in r.bookings && s.user == s'.user && s.duration == s'.duration {
      BookingPotential(r, s, now);
    } else {
      var h :| h in r.holders && h.user == s'.user && s'.duration == Remaining(h, now);
      HolderPotential(r, h, now);
    }
  }

  /** With renewals forbidden, no command gives a user who already has a stake any more time. */
  lemma TransitionPotential(cfg: Config, c: Command, r: Resource, t: int, now: int, r': Resource, u: UserId)
    requires WellFormed(r, t) && t <= now && Transition(cfg, c, r, now, r')
    requires cfg.forbidRelock && HasStake(r, u) && HasStake(r', u)
    ensures Potential(r', u, now) <= Potential(r, u, now)
  {
    LaterWellFormed(r, t, now);
    if Has(r'.holders, u) {
      HolderGainsNothing(cfg, c, r, now, r', Find(r'.holders, u).value);
    } else {
      BookerGainsNothing(cfg, c, r, now, r', Find(r'.bookings, u).value);
    }
  }

  /** Waiting costs a lease exactly the seconds it was live, and a booking nothing. */
  lemma PassingTime(r: Resource, u: UserId, t1: int, t2: int)
    requires WellFormed(r, t1) && t1 <= t2
    ensures Potential(r, u, t2) + LiveSeconds(r, u, t1, t2) == Potential(r, u, t1)
  {
  }

  /** The states of a lineage: `u` has some stake in `k` in every state from `j` to `n`. */
  predicate Lineage(states: seq<State>, j: nat, n: nat, k: Key, u: UserId) {
    j <= n < |states| && forall m :: j <= m <= n ==> k in states[m] && HasStake(states[m][k], u)
  }

  /** Live seconds `u` spends on `k` between state `m` and the next command. */
  function HeldAfter(from: int, states: seq<State>, run: seq<Timed<Command>>, k: Key, u: UserId): int -> int {
    (m: int) => if 0 <= m < |run| && m < |states| && k in states[m]
                then LiveSeconds(states[m][k], u, TimeAt(from, run, m), run[m].at) else 0
  }

  /** What `u` can still spend on `k` in state `m`. */
  function LeftIn(from: int, states: seq<State>, run: seq<Timed<Command>>, k: Key, u: UserId): int -> int {
    (m: int) => if 0 <= m <= |run| && m < |states| && k in states[m]
                then Potential(states[m][k], u, TimeAt(from, run, m)) else 0
  }

  lemma {:induction false} Drains(j: int, n: int, spent: int -> int, left: int -> int)
    requires j <= n && forall m :: j <= m < n ==> spent(m) + left(m + 1) <= left(m)
    ensures Sum(j, n, spent) + left(n) <= left(j)
    decreases n - j
  {
    if j < n {
      Drains(j, n - 1, spent, left);
      assert spent(n - 1) + left((n - 1) + 1) <= left(n - 1);
    }
  }

  lemma LineageStep(cfg: Config, from: int, states: seq<State>, run: seq<Timed<Command>>, n: nat, k: Key, u: UserId)
    requires IsRun(cfg, from, states, run) && n < |run|
    requires k in states[0] && WellFormed(states[0][k], from) && cfg.forbidRelock
    requires k in states[n] && HasStake(states[n][k], u)
    requires k in states[n + 1] && HasStake(states[n + 1][k], u)
    ensures LiveSeconds(states[n][k], u, TimeAt(from, run, n), run[n].at)
            + Potential(states[n + 1][k], u, run[n].at) <= Potential(states[n][k], u, TimeAt(from, run, n))
  {
    RunKeepsWellFormed(cfg, from, states, run, n, k);
    RunTransition(cfg, from, states, run, n, k);
    var r, r', t, now := states[n][k], states[n + 1][k], TimeAt(from, run, n), run[n].at;
    PassingTime(r, u, t, now);
    TransitionPotential(cfg, run[n].cmd, r, t, now, r', u);
  }

  lemma LineageDrops(cfg: Config, from: int, states: seq<State>, run: seq<Timed<Command>>, j: nat, n: nat, k: Key, u: UserId)
    requires IsRun(cfg, from, states, run) && cfg.forbidRelock
    requires k in states[0] && WellFormed(states[0][k], from)
    requires Lineage(states, j, n, k, u)
    ensures forall m :: j <= m < n ==>
              HeldAfter(from, states, run, k, u)(m) + LeftIn(from, states, run, k, u)(m + 1) <= LeftIn(from, states, run, k, u)(m)
  {
    forall m | j <= m < n
      ensures HeldAfter(from, states, run, k, u)(m) + LeftIn(from, states, run, k, u)(m + 1) <= LeftIn(from, states, run, k, u)(m)
    {
      LineageStep(cfg, from, states, run, m, k, u);
    }
  }

  /**
   * A lineage: as long as a user keeps some stake in a resource (holding, booked, preempted and
   * re-queued, reclaimed), the live seconds it spends holding plus what it has left never exceed
   * what it had at the start of the lineage.
   */
  lemma LineageNeverGains(cfg: Config, from: int, states: seq<State>, run: seq<Timed<Command>>, j: nat, n: nat, k: Key, u: UserId)
    requires IsRun(cfg, from, states, run) && cfg.forbidRelock
    requires k in states[0] && WellFormed(states[0][k], from)
    requires Lineage(states, j, n, k, u)
    ensures Sum(j, n, HeldAfter(from, states, run, k, u)) + Potential(states[n][k], u, TimeAt(from, run, n))
            <= Potential(states[j][k], u, TimeAt(from, run, j))
  {
    LineageDrops(cfg, from, states, run, j, n, k, u);
    Drains(j, n, HeldAfter(from, states, run, k, u), LeftIn(from, states, run, k, u));
  }

  // ------------------------------------------------------- order of service

  /** The users of `list`, in order, without `u`. */
  function Others(list: seq<Stake>, u: UserId): seq<UserId> {
    if list == [] then []
    else (if list[0].user == u then [] else [list[0].user]) + Others(list[1..], u)
  }

  function LiveOnly(hs: seq<Stake>, now: int): seq<Stake> {
    if hs == [] then [] else (if Remaining(hs[0], now) > 0 then [hs[0]] else []) + LiveOnly(hs[1..], now)
  }

  lemma {:induction false} OthersConcat(a: seq<Stake>, b: seq<Stake>, u: UserId)
    ensures Others(a + b, u) == Others(a, u) + Others(b, u)
  {
    if a == [] {
      assert a + b == b;
    } else {
      OthersConcat(a[1..], b, u);
      assert (a + b)[1..] == a[1..] + b;
      var h := if a[0].user == u then [] else [a[0].user];
      assert Others(a + b, u) == h + Others(a[1..] + b, u);
      assert h + (Others(a[1..], u) + Others(b, u)) == (h + Others(a[1..], u)) + Others(b, u);
    }
  }

  lemma {:induction false} OthersRemove(list: seq<Stake>, u: UserId)
    ensures Others(Remove(list, u), u) == Others(list, u)
  {
    if list != [] && list[0].user != u {
      OthersRemove(list[1..], u);
      assert Remove(list, u)[1..] == Remove(list[1..], u);
    }
  }

  lemma {:induction false} OthersUnprompted(list: seq<Stake>, u: UserId)
    ensures Others(Unprompted(list), u) == Others(list, u)
  {
    if list != [] {
      OthersUnprompted(list[1..], u);
      assert Unprompted(list)[1..] == Unprompted(list[1..]);
    }
  }

  lemma {:induction false} OthersRequeued(hs: seq<Stake>, u: UserId, now: int)
    ensures Others(Requeued(hs, u, now), u) == Others(LiveOnly(hs, now), u)
  {
    if hs != [] {
      OthersRequeued(hs[1..], u, now);
      OthersConcat(if hs[0].user != u && Remaining(hs[0], now) > 0
                   then [Stake(hs[0].user, now, Remaining(hs[0], now), false)] else [],
                   Requeued(hs[1..], u, now), u);
      OthersConcat(if Remaining(hs[0], now) > 0 then [hs[0]] else [], LiveOnly(hs[1..], now), u);
    }
  }

  /** Everybody served or waiting on `r`, in order of service, the actor left out. */
  function Line(r: Resource, u: UserId, now: int): seq<UserId> {
    Others(LiveOnly(r.holders, now), u) + Others(r.bookings, u)
  }

  lemma SoleHolder(hs: seq<Stake>, u: UserId, now: int)
    requires hs == [] || (|hs| == 1 && hs[0].user == u)
    ensures Others(LiveOnly(hs, now), u) == []
  {
    assert LiveOnly(hs, now) == [] || LiveOnly(hs, now) == hs;
  }

  /** Whoever may lock an unshared resource has it to itself. */
  lemma LockerAlone(r: Resource, u: UserId)
    requires (r.status == Idle ==> r.holders == []) && (r.status == Exclusive ==> |r.holders| == 1)
    requires MayLock(r, u) && r.status != Shared
    ensures r.holders == [] || (|r.holders| == 1 && r.holders[0].user == u)
  {
    if r.status == Exclusive {
      var i :| 0 <= i < |r.holders| && r.holders[i].user == u;
    }
  }

  lemma LockLine(r: Resource, u: UserId, duration: int, explicit: bool, now: int)
    requires WellFormed(r, now) && MayLock(r, u) && r.status != Shared
    ensures Line(LockOne(r, u, duration, explicit, now), u, now) == Line(r, u, now)
  {
    OthersRemove(r.bookings, u);
    LockerAlone(r, u);
    SoleHolder(r.holders, u, now);
    SoleHolder(LockOne(r, u, duration, explicit, now).holders, u, now);
  }

  lemma TakeLine(r: Resource, u: UserId, duration: int, now: int)
    requires !Has(r.holders, u)
    ensures Line(TakeOne(r, u, duration, now), u, now) == Line(r, u, now)
  {
    var q, b := Requeued(r.holders, u, now), Remove(r.bookings, u);
    OthersUnprompted(q + b, u);
    OthersConcat(q, b, u);
    OthersRemove(r.bookings, u);
    OthersRequeued(r.holders, u, now);
    SoleHolder(TakeOne(r, u, duration, now).holders, u, now);
    assert [] + Others(q + b, u) == Others(q + b, u);
  }

  /** What another user can still spend is looked up in the same place after a lock or a booking. */
  lemma {:induction false} FindOther(list: seq<Stake>, u: UserId, v: UserId)
    requires v != u
    ensures Find(Remove(list, u), v) == Find(list, v)
  {
    if list != [] && list[0].user != u { FindOther(list[1..], u, v); }
  }

  lemma {:induction false} FindAppended(a: seq<Stake>, b: seq<Stake>, v: UserId)
    ensures Find(a + b, v) == if Find(a, v).Some? then Find(a, v) else Find(b, v)
  {
    if a == [] {
      assert a + b == b;
    } else if a[0].user != v {
      FindAppended(a[1..], b, v);
      assert (a + b)[1..] == a[1..] + b;
    }
  }

  lemma {:induction false} FindUnprompted(list: seq<Stake>, v: UserId)
    ensures Find(Unprompted(list), v) == if Find(list, v).Some? then Some(Find(list, v).value.(notified := false)) else None
  {
    if list != [] && list[0].user != v {
      assert Unprompted(list)[1..] == Unprompted(list[1..]);
      FindUnprompted(list[1..], v);
    }
  }

  /** A preempted holder's place in the queue is worth exactly what its lease was. */
  lemma {:induction false} FindRequeued(hs: seq<Stake>, u: UserId, now: int, v: UserId)
    requires v != u && Distinct(hs)
    ensures var h, q := Find(hs, v), Find(Requeued(hs, u, now), v);
            if h.Some? && Remaining(h.value, now) > 0 then q == Some(Stake(v, now, Remaining(h.value, now), false)) else q.None?
  {
    if hs != [] {
      assert Distinct(hs[1..]);
      FindRequeued(hs[1..], u, now, v);
      FindAppended(if hs[0].user != u && Remaining(hs[0], now) > 0
                   then [Stake(hs[0].user, now, Remaining(hs[0], now), false)] else [], Requeued(hs[1..], u, now), v);
      assert hs == [hs[0]] + hs[1..];
      OnOneSide([hs[0]], hs[1..], v);
      assert [hs[0]][0].user == hs[0].user;
    }
  }

  lemma TakeKeepsTime(r: Resource, u: UserId, duration: int, now: int, v: UserId)
    requires WellFormed(r, now) && v != u
    ensures Potential(TakeOne(r, u, duration, now), v, now) == Potential(r, v, now)
  {
    DistinctParts(r.holders, r.bookings);
    var q, b := Requeued(r.holders, u, now), Remove(r.bookings, u);
    FindRequeued(r.holders, u, now, v);
    FindOther(r.bookings, u, v);
    FindAppended(q, b, v);
    FindUnprompted(q + b, v);
    OnOneSide(r.holders, r.bookings, v);
  }

  lemma LockKeepsTime(r: Resource, u: UserId, duration: int, explicit: bool, now: int, v: UserId)
    requires WellFormed(r, now) && MayLock(r, u) && r.status != Shared && v != u
    ensures Potential(LockOne(r, u, duration, explicit, now), v, now) == Potential(r, v, now)
  {
    FindOther(r.bookings, u, v);
    LockerAlone(r, u);
    SoleIsNot(r.holders, u, v);
    SoleIsNot(LockOne(r, u, duration, explicit, now).holders, u, v);
  }

  lemma SoleIsNot(hs: seq<Stake>, u: UserId, v: UserId)
    requires (hs == [] || (|hs| == 1 && hs[0].user == u)) && v != u
    ensures Find(hs, v).None?
  {
  }

  /**
   * Lock, book and take keep every other user with a live lease or a booking, in the same order of
   * service, and with the same time to spend. (A lock on a resource in shared mode, which the queue bot
   * never creates, is the exception: see `SharedLockDropsOthers`.)
   */
  lemma AcquisitionKeepsTheLine(cfg: Config, c: Command, r: Resource, t: int, now: int, r': Resource)
    requires c.Lock? || c.Book? || c.Take?
    requires WellFormed(r, t) && t <= now && Transition(cfg, c, r, now, r') && (c.Lock? ==> r.status != Shared)
    ensures Line(r', c.user, now) == Line(r, c.user, now)
    ensures forall v :: v != c.user ==> Potential(r', v, now) == Potential(r, v, now)
  {
    LaterWellFormed(r, t, now);
    if r' != r {
      match c
      case Lock(u, _, duration, explicit) =>
        LockLine(r, u, duration, explicit, now);
        forall v | v != u ensures Potential(r', v, now) == Potential(r, v, now) {
          LockKeepsTime(r, u, duration, explicit, now, v);
        }
      case Book(u, _, duration) =>
        OthersConcat(r.bookings, [Stake(u, now, duration, false)], u);
        forall v | v != u ensures Potential(r', v, now) == Potential(r, v, now) {
          FindAppended(r.bookings, [Stake(u, now, duration, false)], v);
        }
      case Take(u, _, duration) =>
        TakeLine(r, u, duration, now);
        forall v | v != u ensures Potential(r', v, now) == Potential(r, v, now) {
          TakeKeepsTime(r, u, duration, now, v);
        }
    }
  }

  /**
   * A take puts every preempted live holder at the very front of the queue, in the order they held, each with
   * exactly what it had left; the old queue follows, and the taker alone holds.
   */
  lemma PreemptedGoesFirst(cfg: Config, c: Command, r: Resource, t: int, now: int, r': Resource)
    requires c.Take? && WellFormed(r, t) && t <= now && Transition(cfg, c, r, now, r') && r' != r
    ensures var first, live := Requeued(r.holders, c.user, now), LiveOnly(r.holders, now);
            && r'.bookings == first + Unprompted(Remove(r.bookings, c.user))
            && |first| == |live|
            && forall i :: 0 <= i < |live| ==> first[i] == Stake(live[i].user, now, Remaining(live[i], now), false)
    ensures r'.holders == [Stake(c.user, now, c.duration, false)]
  {
    assert Find(r.holders, c.user).None?;
    RequeuedInOrder(r.holders, c.user, now);
    var first, rest := Requeued(r.holders, c.user, now), Remove(r.bookings, c.user);
    assert forall i :: 0 <= i < |first| ==> !first[i].notified;
    assert Unprompted(first + rest) == first + Unprompted(rest);
  }

  lemma {:induction false} RequeuedInOrder(hs: seq<Stake>, u: UserId, now: int)
    requires !Has(hs, u)
    ensures var first, live := Requeued(hs, u, now), LiveOnly(hs, now);
            && |first| == |live|
            && forall i :: 0 <= i < |live| ==> first[i] == Stake(live[i].user, now, Remaining(live[i], now), false)
  {
    if hs != [] {
      HasTail(hs, u);
      RequeuedInOrder(hs[1..], u, now);
    }
  }

  lemma {:induction false} OthersEmpty(list: seq<Stake>, u: UserId)
    ensures Others(list, u) == [] <==> forall s :: s in list ==> s.user == u
  {
    if list != [] {
      OthersEmpty(list[1..], u);
      assert forall s :: s in list <==> s == list[0] || s in list[1..];
    }
  }

  lemma {:induction false} LiveOnlyIff(hs: seq<Stake>, now: int, s: Stake)
    ensures s in LiveOnly(hs, now) <==> s in hs && Remaining(s, now) > 0
  {
    if hs != [] { LiveOnlyIff(hs[1..], now, s); }
  }

  /**
   * A resource loaded in shared mode: a lock by one sharer replaces the whole holder list. The others
   * keep their place exactly when none of them is still live.
   */
  lemma SharedLockDropsOthers(r: Resource, u: UserId, duration: int, explicit: bool, now: int)
    requires WellFormed(r, now) && r.status == Shared && MayLock(r, u)
    ensures Line(LockOne(r, u, duration, explicit, now), u, now) == Line(r, u, now) <==>
            forall h :: h in r.holders && h.user != u ==> Remaining(h, now) == 0
  {
    var live := Others(LiveOnly(r.holders, now), u);
    LockedLine(r, u, duration, explicit, now);
    assert |Line(r, u, now)| == |live| + |Others(r.bookings, u)|;
    assert live == [] ==> Line(r, u, now) == Others(r.bookings, u);
    OthersEmpty(LiveOnly(r.holders, now), u);
    forall h ensures h in LiveOnly(r.holders, now) <==> h in r.holders && Remaining(h, now) > 0 {
      LiveOnlyIff(r.holders, now, h);
    }
  }

  /** After a lock the actor alone holds, so the line is the queue. */
  lemma LockedLine(r: Resource, u: UserId, duration: int, explicit: bool, now: int)
    requires WellFormed(r, now) && MayLock(r, u)
    ensures Line(LockOne(r, u, duration, explicit, now), u, now) == Others(r.bookings, u)
  {
    var r' := LockOne(r, u, duration, explicit, now);
    OthersRemove(r.bookings, u);
    SoleHolder(r'.holders, u, now);
    assert [] + Others(r.bookings, u) == Others(r.bookings, u);
  }

  /** Two users sharing a loaded resource: the first one's lock silently ends the second one's lease. */
  lemma SharedLockExample()
    ensures var r := Resource(Shared, [Stake("a", 0, 100, false), Stake("b", 0, 100, false)], []);
            WellFormed(r, 10) && MayLock(r, "a") && !Has(LockOne(r, "a", 5, true, 10).holders, "b")
  {
    var r := Resource(Shared, [Stake("a", 0, 100, false), Stake("b", 0, 100, false)], []);
    assert "a" != "b" by { assert "a"[0] != "b"[0]; }
    assert r.holders[0].user == "a";
    assert r.holders + r.bookings == r.holders;
  }

  // -------------------------------------------------------- per-user limits

  lemma ClaimsOnlyInTargets(cfg: Config, s: State, c: Command, now: int, u: UserId)
    requires Parsed(s, c) && (c.Lock? || c.Book? || c.Take?)
    ensures Claimed(Step(cfg, s, c, now), u, now) <= Claimed(s, u, now) + c.targets
  {
    var s' := Step(cfg, s, c, now);
    forall k | k in Claimed(s', u, now) && k !in c.targets ensures k in Claimed(s, u, now) {
      StepTransition(cfg, s, c, now, k);
      assert s'[k] == s[k];
    }
  }

  /** Acquiring commands leave the actor's claimed set within the old one plus the targets, and within the cap. */
  lemma CapPerCommand(cfg: Config, s: State, c: Command, now: int)
    requires Parsed(s, c) && (c.Lock? || c.Book? || c.Take?) && Judge(cfg, s, c, now).Accepted?
    ensures var was, claimed := Claimed(s, c.user, now), Claimed(Step(cfg, s, c, now), c.user, now);
            && claimed <= was + c.targets
            && (cfg.cap != -1 ==> |claimed| <= |was| || |claimed| <= cfg.cap)
  {
    ClaimsOnlyInTargets(cfg, s, c, now, c.user);
    var was := Claimed(s, c.user, now);
    if cfg.cap != -1 {
      assert c.targets - was == {} || |was + c.targets| <= cfg.cap;
      UnionWithin(was, c.targets, Claimed(Step(cfg, s, c, now), c.user, now), cfg.cap);
    }
  }

  lemma {:induction false} SubsetSize<T>(a: set<T>, b: set<T>)
    requires a <= b
    ensures |a| <= |b|
  {
    if a != {} {
      var x :| x in a;
      SubsetSize(a - {x}, b - {x});
    }
  }

  /** A take un-prompts the queue, so a booking whose window had lapsed counts against its user again. */
  predicate Revives(r: Resource, v: UserId, now: int) {
    && (exists b :: b in r.bookings && b.user == v)
    && (forall b :: b in r.bookings && b.user == v ==> !CountsAsBooked(b, now))
    && !(exists h :: h in r.holders && h.user == v && h.start + h.duration > now)
  }

  /** An entry of the queue after a take, seen before it: a live holder or the same booking. */
  lemma TakenFrom(r: Resource, u: UserId, now: int, duration: int, s': Stake)
    requires s' in TakeOne(r, u, duration, now).bookings
    ensures || (exists h :: h in r.holders && h.user == s'.user && Remaining(h, now) > 0)
            || (exists b :: b in r.bookings && b.user == s'.user)
  {
    var q := Requeued(r.holders, u, now) + Remove(r.bookings, u);
    var i :| 0 <= i < |q| && Unprompted(q)[i] == s';
    if q[i] in Requeued(r.holders, u, now) {
      RequeuedIff(r.holders, u, now, q[i]);
    } else {
      assert q[i] in Remove(r.bookings, u);
      assert q[i] in r.bookings;
    }
  }

  lemma StillQueued(r: Resource, u: UserId, now: int, duration: int, v: UserId)
    requires v != u
    requires || (exists h :: h in r.holders && h.user == v && Remaining(h, now) > 0)
             || (exists b :: b in r.bookings && b.user == v)
    ensures exists s :: s in TakeOne(r, u, duration, now).bookings && s.user == v && !s.notified
  {
    var q, b := Requeued(r.holders, u, now), Remove(r.bookings, u);
    if h :| h in r.holders && h.user == v && Remaining(h, now) > 0 {
      var s := Stake(v, now, Remaining(h, now), false);
      RequeuedIff(r.holders, u, now, s);
      InUnprompted(q + b, s);
    } else {
      var s :| s in r.bookings && s.user == v;
      assert s in q + b;
      InUnprompted(q + b, s);
    }
  }

  /**
   * What a take does to somebody else's claimed set: it stays the same except for the targets where
   * a lapsed, not yet swept booking is revived. So the cap binds the actor of a command, not every run.
   */
  lemma TakeOnOthersClaims(cfg: Config, c: Command, r: Resource, t: int, now: int, r': Resource, v: UserId)
    requires c.Take? && WellFormed(r, t) && t <= now && Transition(cfg, c, r, now, r') && r' != r && v != c.user
    ensures Claims(r', v, now) <==> Claims(r, v, now) || Revives(r, v, now)
  {
    if Claims(r', v, now) {
      var s' :| s' in r'.bookings && s'.user == v && CountsAsBooked(s', now);
      TakenFrom(r, c.user, now, c.duration, s');
      if !Claims(r, v, now) { assert Revives(r, v, now); }
    }
    if Claims(r, v, now) || Revives(r, v, now) {
      StillQueued(r, c.user, now, c.duration, v);
    }
  }

  lemma InUnprompted(list: seq<Stake>, s: Stake)
    requires s in list
    ensures s.(notified := false) in Unprompted(list)
  {
    var i :| 0 <= i < |list| && list[i] == s;
    assert Unprompted(list)[i] == s.(notified := false);
  }

  // ------------------------------------------------- acquisition budgets

  /** The machines on which `u` holds or has booked something; `unit` maps a resource to its machine. */
  function HeldUnits(s: State, unit: Key -> Key, u: UserId): set<Key> {
    set k | k in s && HasStake(s[k], u) :: unit(k)
  }

  function UnitsOf(targets: set<Key>, unit: Key -> Key): set<Key> {
    set k | k in targets :: unit(k)
  }

  predicate Exceeds(s: State, unit: Key -> Key, u: UserId, targets: set<Key>, limit: int) {
    var held := HeldUnits(s, unit, u);
    UnitsOf(targets, unit) - held != {} && |held + UnitsOf(targets, unit)| > limit
  }

  lemma StakesOnlyInTargets(cfg: Config, s: State, c: Command, now: int, k: Key)
    requires Parsed(s, c) && (c.Lock? || c.Book?) && k in s
    ensures k in c.targets || Step(cfg, s, c, now)[k] == s[k]
  {
    StepTransition(cfg, s, c, now, k);
  }

  lemma UnionWithin(was: set<Key>, wanted: set<Key>, held: set<Key>, limit: int)
    requires held <= was + wanted && !(wanted - was != {} && |was + wanted| > limit)
    ensures |held| <= |was| || |held| <= limit
  {
    SubsetSize(held, was + wanted);
    if wanted - was == {} {
      assert forall x :: x in wanted ==> x in wanted - was || x in was;
      assert was + wanted == was;
    }
  }

  /** A request within its budget leaves the user on at most as many machines as before, or as the budget allows. */
  lemma BudgetPerCommand(cfg: Config, s: State, unit: Key -> Key, c: Command, now: int, limit: int)
    requires Parsed(s, c) && (c.Lock? || c.Book?) && !Exceeds(s, unit, c.user, c.targets, limit)
    ensures var was, held := HeldUnits(s, unit, c.user), HeldUnits(Step(cfg, s, c, now), unit, c.user);
            |held| <= |was| || |held| <= limit
  {
    var s', u := Step(cfg, s, c, now), c.user;
    forall x | x in HeldUnits(s', unit, u) ensures x in HeldUnits(s, unit, u) + UnitsOf(c.targets, unit) {
      var k :| k in s' && HasStake(s'[k], u) && unit(k) == x;
      StakesOnlyInTargets(cfg, s, c, now, k);
    }
    UnionWithin(HeldUnits(s, unit, u), UnitsOf(c.targets, unit), HeldUnits(s', unit, u), limit);
  }
}
