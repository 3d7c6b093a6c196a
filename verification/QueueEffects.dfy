/** What an accepted command of the queue bot does, record by record. */
module QueueEffects {
  import opened Leases
  import opened Expiry
  import opened QueueRules
  import opened QueueInvariants
  import opened QueueFairness
  import opened QueueMessages

  /** When a lease runs out. */
  function EndOf(s: Stake): int { s.start + s.duration }

  /** The list without the records of `u`, in the same order. */
  function Without(list: seq<Stake>, u: UserId): (r: seq<Stake>)
    ensures forall s :: s in r <==> s in list && s.user != u
  {
    if list == [] then []
    else
      assert list == [list[0]] + list[1..];
      (if list[0].user == u then [] else [list[0]]) + Without(list[1..], u)
  }

  lemma {:induction false} WithoutNobody(list: seq<Stake>, u: UserId)
    requires !Has(list, u)
    ensures Without(list, u) == list
  {
    if list != [] {
      HasTail(list, u);
      WithoutNobody(list[1..], u);
    }
  }

  lemma {:induction false} RemoveIsWithout(list: seq<Stake>, u: UserId)
    requires Distinct(list)
    ensures Remove(list, u) == Without(list, u)
  {
    if list != [] {
      if list[0].user == u {
        assert !Has(list[1..], u);
        WithoutNobody(list[1..], u);
      } else {
        RemoveIsWithout(list[1..], u);
      }
    }
  }

  lemma FindPrepended(first: seq<Stake>, rest: seq<Stake>, v: UserId)
    requires |first| <= 1
    ensures Find(first + rest, v) == if first != [] && first[0].user == v then Some(first[0]) else Find(rest, v)
  {
    if first == [] { assert first + rest == rest; } else { assert (first + rest)[1..] == rest; }
  }

  /** Everybody else keeps the same record. */
  lemma {:induction false} FindWithout(list: seq<Stake>, u: UserId, v: UserId)
    requires v != u
    ensures Find(Without(list, u), v) == Find(list, v)
  {
    if list != [] {
      FindWithout(list[1..], u, v);
      FindPrepended(if list[0].user == u then [] else [list[0]], Without(list[1..], u), v);
    }
  }

  lemma NotWithin(list: seq<Stake>, u: UserId)
    ensures !Has(Without(list, u), u)
  {
    HasMember(Without(list, u), u);
  }

  /** The resources outside `keys` are as they were. */
  predicate OnlyThese(s: State, s': State, keys: set<Key>) {
    s'.Keys == s.Keys && forall k :: k in s && k !in keys ==> s'[k] == s[k]
  }

  lemma RefusedDoesNothing(cfg: Config, s: State, c: Command, now: int)
    requires Parsed(s, c) && Judge(cfg, s, c, now).Refused?
    ensures Step(cfg, s, c, now) == s
  {
  }

  lemma PartsOf(s: State, t: int, k: Key)
    requires WellFormedState(s, t) && k in s
    ensures Distinct(s[k].holders) && Distinct(s[k].bookings)
    ensures s[k].status == Idle <==> s[k].holders == []
  {
    assert WellFormed(s[k], t);
    DistinctParts(s[k].holders, s[k].bookings);
  }

  // ------------------------------------------------------------ acquisition

  /** Seconds a lock is asked for: what was booked, unless the user says otherwise. */
  function Asked(r: Resource, c: Command): int
    requires c.Lock?
  {
    if !c.explicit && Find(r.bookings, c.user).Some? then Find(r.bookings, c.user).value.duration else c.duration
  }

  /** `x` is the lease `u` has once `seconds` are added to what it had. */
  predicate Lengthened(x: Stake, u: UserId, had: Option<Stake>, seconds: int, now: int) {
    && x.user == u && !x.notified
    && (had.None? ==> x.start == now && EndOf(x) == now + seconds)
    && (had.Some? ==> x.start == had.value.start && EndOf(x) == EndOf(had.value) + seconds)
  }

  /** On top of what is left of a lease that has not run out, exactly the seconds asked for. */
  lemma LengthenedLeaves(x: Stake, u: UserId, had: Option<Stake>, seconds: int, now: int)
    requires Lengthened(x, u, had, seconds, now) && seconds >= 0
    ensures had.None? ==> Remaining(x, now) == seconds
    ensures had.Some? && EndOf(had.value) >= now ==> Remaining(x, now) == Remaining(had.value, now) + seconds
  {
  }

  /** `u` alone holds the resource, for `seconds` more than it had, and its booking is gone; the others keep theirs. */
  predicate Locked(r: Resource, r': Resource, u: UserId, seconds: int, now: int) {
    && r'.status == Exclusive && r'.bookings == Without(r.bookings, u)
    && |r'.holders| == 1 && Lengthened(r'.holders[0], u, Find(r.holders, u), seconds, now)
  }

  lemma LockedOne(r: Resource, c: Command, now: int)
    requires Distinct(r.bookings) && c.Lock?
    ensures Locked(r, LockOne(r, c.user, c.duration, c.explicit, now), c.user, Asked(r, c), now)
  {
    RemoveIsWithout(r.bookings, c.user);
  }

  /** A lock leaves the actor the only holder, with its booking gone and every other booking where it was. */
  lemma LockEffect(cfg: Config, s: State, c: Command, t: int, now: int)
    requires Parsed(s, c) && WellFormedState(s, t) && c.Lock? && Judge(cfg, s, c, now).Accepted?
    ensures var s' := Step(cfg, s, c, now);
            OnlyThese(s, s', c.targets) && forall k :: k in c.targets ==> Locked(s[k], s'[k], c.user, Asked(s[k], c), now)
  {
    forall k | k in c.targets ensures Locked(s[k], Step(cfg, s, c, now)[k], c.user, Asked(s[k], c), now) {
      PartsOf(s, t, k);
      LockedOne(s[k], c, now);
    }
  }

  /** A booking goes to the end of the queue, unprompted, for the time asked. */
  lemma BookEffect(cfg: Config, s: State, c: Command, now: int)
    requires Parsed(s, c) && c.Book? && Judge(cfg, s, c, now).Accepted?
    ensures var s' := Step(cfg, s, c, now);
            && OnlyThese(s, s', c.targets)
            && forall k :: k in c.targets ==>
                 && !HasStake(s[k], c.user)
                 && s'[k] == s[k].(bookings := s[k].bookings + [Stake(c.user, now, c.duration, false)])
  {
  }

  /** The bookings `list'` are those of `list`, in the same order, with the prompts taken back. */
  predicate TakenBack(list: seq<Stake>, list': seq<Stake>) {
    |list'| == |list| && forall i :: 0 <= i < |list| ==> list'[i] == list[i].(notified := false)
  }

  /** The queue `q` begins with the live holders `live`, in their order, each for exactly what it had left. */
  predicate Preempted(live: seq<Stake>, q: seq<Stake>, now: int) {
    |live| <= |q| && forall i :: 0 <= i < |live| ==> q[i] == Stake(live[i].user, now, Remaining(live[i], now), false)
  }

  lemma TakeEffect(cfg: Config, s: State, c: Command, t: int, now: int)
    requires Parsed(s, c) && WellFormedState(s, t) && t <= now && c.Take? && Judge(cfg, s, c, now).Accepted?
    ensures var s' := Step(cfg, s, c, now);
            && OnlyThese(s, s', c.targets)
            && forall k :: k in c.targets ==>
                 var live, q := LiveOnly(s[k].holders, now), s'[k].bookings;
                 && !Has(s[k].holders, c.user)
                 && s'[k].status == Exclusive && s'[k].holders == [Stake(c.user, now, c.duration, false)]
                 && Preempted(live, q, now) && TakenBack(Without(s[k].bookings, c.user), q[|live|..])
  {
    forall k | k in c.targets
      ensures var live, q := LiveOnly(s[k].holders, now), Step(cfg, s, c, now)[k].bookings;
              Preempted(live, q, now) && TakenBack(Without(s[k].bookings, c.user), q[|live|..])
      ensures Step(cfg, s, c, now)[k].holders == [Stake(c.user, now, c.duration, false)]
    {
      TakenQueue(s[k], c.user, c.duration, t, now);
    }
  }

  lemma TakenQueue(r: Resource, u: UserId, duration: int, t: int, now: int)
    requires WellFormed(r, t) && t <= now && !Has(r.holders, u)
    ensures var live, q := LiveOnly(r.holders, now), TakeOne(r, u, duration, now).bookings;
            Preempted(live, q, now) && TakenBack(Without(r.bookings, u), q[|live|..])
    ensures TakeOne(r, u, duration, now).holders == [Stake(u, now, duration, false)]
  {
    DistinctParts(r.holders, r.bookings);
    RequeuedInOrder(r.holders, u, now);
    RemoveIsWithout(r.bookings, u);
    var first, rest := Requeued(r.holders, u, now), Remove(r.bookings, u);
    assert forall i :: 0 <= i < |first| ==> (first + rest)[i] == first[i];
    assert forall i :: 0 <= i < |rest| ==> (first + rest)[|first| + i] == rest[i];
  }

  // ---------------------------------------------------------------- release

  /** `u` is off the resource; everybody else is where it was, and it is free once nobody holds it. */
  predicate Released(r: Resource, r': Resource, u: UserId) {
    && r'.holders == Without(r.holders, u) && r'.bookings == Without(r.bookings, u)
    && r'.status == if r'.holders == [] then Idle else r.status
  }

  lemma UnlockedIs(r: Resource, t: int, u: UserId)
    requires WellFormed(r, t)
    ensures Released(r, UnlockOne(r, u), u) && Released(r, UnlockAnyOne(r, u), u)
  {
    DistinctParts(r.holders, r.bookings);
    RemoveIsWithout(r.holders, u);
    RemoveIsWithout(r.bookings, u);
  }

  /** What that means for each user. */
  lemma ReleasedMeans(r: Resource, r': Resource, u: UserId, t: int)
    requires WellFormed(r, t) && Released(r, r', u)
    ensures !Has(r'.holders, u) && !Has(r'.bookings, u)
    ensures forall v :: v != u ==> Find(r'.holders, v) == Find(r.holders, v) && Find(r'.bookings, v) == Find(r.bookings, v)
    ensures r'.status == Idle <==> forall h :: h in r.holders ==> h.user == u
  {
    NotWithin(r.holders, u);
    NotWithin(r.bookings, u);
    forall v | v != u ensures Find(r'.holders, v) == Find(r.holders, v) && Find(r'.bookings, v) == Find(r.bookings, v) {
      FindWithout(r.holders, u, v);
      FindWithout(r.bookings, u, v);
    }
    if forall h :: h in r.holders ==> h.user == u {
      assert forall h :: h !in r'.holders;
    }
    if r'.holders != [] { assert r'.holders[0] in r.holders; }
  }

  /** Unlocking is accepted exactly for users with something on every target, and takes exactly that away. */
  lemma UnlockEffect(cfg: Config, s: State, c: Command, t: int, now: int)
    requires Parsed(s, c) && WellFormedState(s, t) && c.Unlock?
    ensures Judge(cfg, s, c, now).Accepted? <==> forall k :: k in c.targets ==> HasStake(s[k], c.user)
    ensures var s' := Step(cfg, s, c, now);
            Judge(cfg, s, c, now).Accepted? ==>
              OnlyThese(s, s', c.targets) && forall k :: k in c.targets ==> Released(s[k], s'[k], c.user)
  {
    forall k | k in c.targets ensures Released(s[k], UnlockOne(s[k], c.user), c.user) { UnlockedIs(s[k], t, c.user); }
  }

  /** The bare unlock is always accepted and does the same everywhere. */
  lemma UnlockAnyEffect(cfg: Config, s: State, c: Command, t: int, now: int)
    requires WellFormedState(s, t) && c.UnlockAny?
    ensures Judge(cfg, s, c, now).Accepted? && Step(cfg, s, c, now).Keys == s.Keys
    ensures forall k :: k in s ==> Released(s[k], Step(cfg, s, c, now)[k], c.user)
  {
    forall k | k in s ensures Released(s[k], UnlockAnyOne(s[k], c.user), c.user) { UnlockedIs(s[k], t, c.user); }
  }

  // ------------------------------------------------------------------ kicks

  /** Kicklock ends every lease on known targets and leaves the queues as they are. */
  lemma KicklockEffect(cfg: Config, s: State, c: Command, now: int)
    requires c.Kicklock?
    ensures Judge(cfg, s, c, now).Accepted? <==> forall k :: k in c.targets ==> k in s
    ensures var s' := Step(cfg, s, c, now);
            Judge(cfg, s, c, now).Accepted? ==>
              OnlyThese(s, s', c.targets) && forall k :: k in c.targets ==> s'[k] == Resource(Idle, [], s[k].bookings)
  {
  }

  /** Kickout empties its targets, queues included. */
  lemma KickoutEffect(cfg: Config, s: State, c: Command, now: int)
    requires Parsed(s, c) && c.Kickout?
    ensures Judge(cfg, s, c, now).Accepted?
    ensures var s' := Step(cfg, s, c, now);
            OnlyThese(s, s', c.targets) && forall k :: k in c.targets ==> s'[k] == Resource(Idle, [], [])
  {
  }

  /** The operator's kick of `u` reaches this resource. */
  predicate Reached(k: Key, only: Option<Key>) { only == None || only == Some(k) }

  lemma OpkickIff(cfg: Config, s: State, c: Command, now: int)
    requires c.Opkick?
    ensures Judge(cfg, s, c, now).Accepted? <==> exists k :: k in s && Has(s[k].holders, c.user) && Reached(k, c.only)
  {
    var kicked := KickTargets(s, c.user, c.only);
    if k :| k in s && Has(s[k].holders, c.user) && Reached(k, c.only) { assert k in kicked; }
    if Judge(cfg, s, c, now).Accepted? { var k :| k in kicked; }
  }

  /** `u` no longer holds the resource, the other holders and the whole queue are as they were. */
  predicate Evicted(r: Resource, r': Resource, u: UserId) {
    && r'.holders == Without(r.holders, u) && r'.bookings == r.bookings
    && r'.status == if r'.holders == [] then Idle else r.status
  }

  lemma EvictedOne(r: Resource, t: int, u: UserId)
    requires WellFormed(r, t)
    ensures Evicted(r, OpkickOne(r, u), u)
    ensures !Has(r.holders, u) ==> Evicted(r, r, u)
  {
    DistinctParts(r.holders, r.bookings);
    RemoveIsWithout(r.holders, u);
    if !Has(r.holders, u) { WithoutNobody(r.holders, u); }
  }

  /** An operator's kick ends the leases of one user, on one resource or on all, and touches no booking. */
  lemma OpkickEffect(cfg: Config, s: State, c: Command, t: int, now: int, k: Key)
    requires WellFormedState(s, t) && c.Opkick? && k in s
    ensures var s' := Step(cfg, s, c, now);
            k in s' && if Reached(k, c.only) then Evicted(s[k], s'[k], c.user) else s'[k] == s[k]
  {
    assert WellFormed(s[k], t);
    EvictedOne(s[k], t, c.user);
    OpkickIff(cfg, s, c, now);
  }

  /** Whatever was saved or imported, neither kind of operator's command touches a queue, but for a kickout. */
  lemma QueuesSpared(cfg: Config, s: State, c: Command, now: int, k: Key)
    requires (c.Opkick? || c.Kicklock?) && k in s
    ensures Step(cfg, s, c, now)[k].bookings == s[k].bookings
  {
  }

  // ------------------------------------------------------------------ sweep

  /** The lease after a sweep that finds it live: a warning that is due marks it. */
  function Warned(cfg: Config, h: Stake, now: int): Stake {
    if cfg.earlyNotify && Remaining(h, now) <= cfg.timeAlert then h.(notified := true) else h
  }

  /** What a sweep makes of the holders: the live ones stay, in order. */
  predicate HoldersSwept(cfg: Config, r: Resource, r': Resource, now: int) {
    var live := LiveOnly(r.holders, now);
    && |r'.holders| == |live| && (forall i :: 0 <= i < |live| ==> r'.holders[i] == Warned(cfg, live[i], now))
    && r'.status == if live == [] then Idle else r.status
  }

  /** The booking at the head of an idle queue, prompted now. */
  function PromptedNow(b: Stake, now: int): Stake { b.(notified := true, start := now) }

  /** What a sweep makes of the queue `q`, given who still holds the resource; whom it prompts, and whom it drops. */
  predicate QueueSwept(key: Key, q: seq<Stake>, r': Resource, told: seq<Notice>, dropped: seq<Notice>, now: int) {
    var q' := r'.bookings;
    if r'.holders != [] || q == [] then q' == q && told == [] && dropped == []
    else if !q[0].notified then
      q' == [PromptedNow(q[0], now)] + q[1..] && told == [ClaimReady(key, q[0].user)] && dropped == []
    else if now < q[0].start + 300 then q' == q && told == [] && dropped == []
    else
      && dropped == [ClaimTimedOut(key, q[0].user)]
      && if |q| == 1 then q' == [] && told == []
         else q' == [PromptedNow(q[1], now)] + q[2..] && told == [ClaimReady(key, q[1].user)]
  }

  lemma {:induction false} SurvivorsAre(cfg: Config, hs: seq<Stake>, now: int)
    ensures var live, left := LiveOnly(hs, now), Survivors(cfg, hs, now);
            |left| == |live| && forall i :: 0 <= i < |live| ==> left[i] == Warned(cfg, live[i], now)
  {
    if hs != [] { SurvivorsAre(cfg, hs[1..], now); }
  }

  lemma {:induction false} PartsConcat(a: seq<Notice>, b: seq<Notice>)
    ensures Prompting(a + b) == Prompting(a) + Prompting(b)
    ensures Cancelling(a + b) == Cancelling(a) + Cancelling(b)
  {
    if b == [] {
      assert a + b == a;
    } else {
      var last := |b| - 1;
      assert (a + b)[..|a| + last] == a + b[..last];
      PartsConcat(a, b[..last]);
    }
  }

  lemma {:induction false} NoPrompts(notices: seq<Notice>)
    requires forall n :: n in notices ==> n.Expiring?
    ensures Prompting(notices) == [] && Cancelling(notices) == []
  {
    if notices != [] {
      assert notices[|notices| - 1] in notices;
      NoPrompts(notices[..|notices| - 1]);
    }
  }

  lemma PartsOfOne(n: Notice)
    ensures Prompting([n]) == if n.ClaimReady? then [n] else []
    ensures Cancelling([n]) == if n.ClaimTimedOut? then [n] else []
  {
    assert [n][..0] == [];
  }

  lemma PartsOfTwo(a: Notice, b: Notice)
    requires a.ClaimTimedOut? && b.ClaimReady?
    ensures Prompting([a, b]) == [b] && Cancelling([a, b]) == [a]
  {
    PartsConcat([a], [b]);
    PartsOfOne(a);
    PartsOfOne(b);
    assert [a, b] == [a] + [b];
  }

  lemma PromptRest(q: seq<Stake>, now: int)
    requires |q| > 1
    ensures Prompt(q[1..], now) == [PromptedNow(q[1], now)] + q[2..]
  {
    assert q[1..][0] == q[1] && q[1..][1..] == q[2..];
  }

  lemma DroppedHead(key: Key, e: Resource, now: int)
    requires e.status == Idle && e.holders == [] && e.bookings != [] && TimedOut(e.bookings[0], now)
    ensures var ns := PromptNotices(key, e, now);
            QueueSwept(key, e.bookings, PromptOne(e, now), Prompting(ns), Cancelling(ns), now)
  {
    var q := e.bookings;
    if |q| == 1 {
      PartsOfOne(ClaimTimedOut(key, q[0].user));
    } else {
      PartsOfTwo(ClaimTimedOut(key, q[0].user), ClaimReady(key, q[1].user));
      PromptRest(q, now);
    }
  }

  lemma PromptedQueue(key: Key, e: Resource, now: int)
    requires e.status == Idle <==> e.holders == []
    ensures var ns := PromptNotices(key, e, now);
            QueueSwept(key, e.bookings, PromptOne(e, now), Prompting(ns), Cancelling(ns), now)
  {
    if e.status == Idle && e.bookings != [] {
      if TimedOut(e.bookings[0], now) {
        DroppedHead(key, e, now);
      } else if !e.bookings[0].notified {
        PartsOfOne(ClaimReady(key, e.bookings[0].user));
      }
    }
  }

  lemma SweptHolders(cfg: Config, r: Resource, t: int, now: int)
    requires WellFormed(r, t) && t <= now
    ensures var e := ExpireOne(cfg, r, now);
            HoldersSwept(cfg, r, e, now) && e.bookings == r.bookings && (e.status == Idle <==> e.holders == [])
  {
    SurvivorsAre(cfg, r.holders, now);
  }

  lemma SweepTells(cfg: Config, key: Key, r: Resource, now: int)
    ensures var e, ns := ExpireOne(cfg, r, now), SweepOneNotices(cfg, key, r, now);
            && Prompting(ns) == Prompting(PromptNotices(key, e, now))
            && Cancelling(ns) == Cancelling(PromptNotices(key, e, now))
  {
    OnlyAlerts(cfg, key, r.status, r.holders, now);
    NoPrompts(ExpireNotices(cfg, key, r, now));
    PartsConcat(ExpireNotices(cfg, key, r, now), PromptNotices(key, ExpireOne(cfg, r, now), now));
  }

  /** One resource across a sweep. */
  lemma SweptOne(cfg: Config, key: Key, r: Resource, t: int, now: int)
    requires WellFormed(r, t) && t <= now
    ensures HoldersSwept(cfg, r, SweepOne(cfg, r, now), now)
    ensures var ns := SweepOneNotices(cfg, key, r, now);
            QueueSwept(key, r.bookings, SweepOne(cfg, r, now), Prompting(ns), Cancelling(ns), now)
  {
    SweptHolders(cfg, r, t, now);
    SweepTells(cfg, key, r, now);
    PromptedQueue(key, ExpireOne(cfg, r, now), now);
    var e := ExpireOne(cfg, r, now);
    assert PromptOne(e, now).holders == e.holders && PromptOne(e, now).status == e.status;
  }

  /**
   * A sweep lets every live lease stand, frees what nobody holds any more, and then goes to the head of each free
   * resource's queue: it is prompted, or, when its window is over, dropped for the next one. Nobody else moves.
   */
  lemma SweepEffect(cfg: Config, s: State, t: int, now: int, k: Key)
    requires WellFormedState(s, t) && t <= now && k in s
    ensures var s' := Step(cfg, s, Command.Sweep, now);
            && k in s' && HoldersSwept(cfg, s[k], s'[k], now)
            && var ns := SweepOneNotices(cfg, k, s[k], now);
               QueueSwept(k, s[k].bookings, s'[k], Prompting(ns), Cancelling(ns), now)
  {
    assert Step(cfg, s, Command.Sweep, now)[k] == SweepOne(cfg, s[k], now);
    SweptOne(cfg, k, s[k], t, now);
  }

  /** A sweep warns or dismisses exactly the unwarned holders whose time has come, and tells them what is left. */
  lemma {:induction false} ExpiringIff(cfg: Config, key: Key, mode: Status, hs: seq<Stake>, now: int, u: UserId, left: int)
    ensures Expiring(key, u, mode, left) in HolderNotices(cfg, key, mode, hs, now) <==>
            exists h :: h in hs && h.user == u && left == Remaining(h, now) && !h.notified
                        && (left == 0 || (cfg.earlyNotify && left <= cfg.timeAlert))
    ensures forall n :: n in HolderNotices(cfg, key, mode, hs, now) ==> n.Expiring? && n.key == key && n.mode == mode
  {
    if hs != [] {
      ExpiringIff(cfg, key, mode, hs[1..], now, u, left);
      assert forall h :: h in hs <==> h == hs[0] || h in hs[1..];
    }
  }
}
