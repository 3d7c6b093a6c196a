/** Node and device bots in terms of who holds what: every verdict, and what an accepted command does. */
module NodeEffects {
  import opened Leases
  import opened Expiry
  import opened NodeRules
  import opened QueueEffects
  import opened QueueVerdicts
  import Rules = QueueRules
  import Fair = QueueFairness

  /** Free, or exclusively held by `u` itself. */
  predicate MineOrFree(r: Resource, u: UserId) {
    r.holders == [] || (r.status == Exclusive && exists h :: h in r.holders && h.user == u)
  }

  /** What a lease grows by under lock and slock. */
  predicate AffordableAll(cfg: Config, s: State, u: UserId, targets: set<Key>, duration: int, now: int)
    requires targets <= s.Keys
  {
    forall k :: k in targets ==> Affordable(cfg, u, Until(s[k], u, duration, now))
  }

  lemma AffordableIs(cfg: Config, s: State, u: UserId, targets: set<Key>, duration: int, now: int)
    requires targets <= s.Keys
    ensures AffordableAll(cfg, s, u, targets, duration, now) <==>
            !(Rules.Capped(cfg, u) && SomeTooLong(cfg, s, u, targets, duration, now))
  {
    if Rules.Capped(cfg, u) {
      forall k | k in targets
        ensures NodeTooMuch(cfg, s[k], u, duration, now) <==> !Affordable(cfg, u, Until(s[k], u, duration, now)) {}
    }
  }

  predicate OpenEverywhere(s: State, u: UserId, targets: set<Key>)
    requires targets <= s.Keys
  {
    forall k :: k in targets ==> MineOrFree(s[k], u)
  }

  lemma OpenIs(s: State, t: int, u: UserId, targets: set<Key>)
    requires WellFormedState(s, t) && targets <= s.Keys
    ensures OpenEverywhere(s, u, targets) <==> !SomeHeldByOthers(s, u, targets)
  {
    forall k | k in targets ensures MineOrFree(s[k], u) <==> MayTakeOver(s[k], u) {
      PartsOf(s, t, k);
      HasMember(s[k].holders, u);
    }
  }

  lemma HeldIs(cfg: Config, s: State, u: UserId, targets: set<Key>)
    requires targets <= s.Keys
    ensures NoneRenewed(cfg, s, u, targets, None) <==> cfg.forbidRelock ==> HeldNowhere(s, u, targets)
  {
    if !HeldNowhere(s, u, targets) && cfg.forbidRelock {
      var k, h :| k in targets && h in s[k].holders && h.user == u;
      assert !NoRenewal(cfg, s[k], u, None);
    }
  }

  /** An exclusive lock: every target is free or the user's own already, and every lease stays within the maximum. */
  lemma LockVerdictIs(cfg: Config, s: State, c: NodeCommand, t: int, now: int)
    requires Parsed(s, c) && WellFormedState(s, t) && c.Lock?
    ensures Judge(cfg, s, c, now) ==
            if !RoomFor(cfg, s, c.user, c.targets, now) then Rules.Refused(Rules.ResourceCap)
            else if cfg.forbidRelock && !HeldNowhere(s, c.user, c.targets) then Rules.Refused(Rules.RelockForbidden)
            else if !OpenEverywhere(s, c.user, c.targets) then Rules.Refused(Rules.InUseOrShared)
            else if !AffordableAll(cfg, s, c.user, c.targets, c.duration, now) then Rules.Refused(Rules.TooLong)
            else Rules.Accepted
  {
    PolicyIs(cfg, s, c.user, c.targets, None, t, now);
    HeldIs(cfg, s, c.user, c.targets);
    OpenIs(s, t, c.user, c.targets);
    AffordableIs(cfg, s, c.user, c.targets, c.duration, now);
  }

  predicate NotExclusive(s: State, targets: set<Key>)
    requires targets <= s.Keys
  {
    forall k :: k in targets ==> s[k].status != Exclusive
  }

  /** A shared lock: no target is in exclusive use, and every lease stays within the maximum. */
  lemma SlockVerdictIs(cfg: Config, s: State, c: NodeCommand, t: int, now: int)
    requires Parsed(s, c) && WellFormedState(s, t) && c.Slock?
    ensures Judge(cfg, s, c, now) ==
            if !RoomFor(cfg, s, c.user, c.targets, now) then Rules.Refused(Rules.ResourceCap)
            else if cfg.forbidRelock && !HeldNowhere(s, c.user, c.targets) then Rules.Refused(Rules.RelockForbidden)
            else if !NotExclusive(s, c.targets) then Rules.Refused(Rules.ExclusiveMode)
            else if !AffordableAll(cfg, s, c.user, c.targets, c.duration, now) then Rules.Refused(Rules.TooLong)
            else Rules.Accepted
  {
    PolicyIs(cfg, s, c.user, c.targets, None, t, now);
    HeldIs(cfg, s, c.user, c.targets);
    AffordableIs(cfg, s, c.user, c.targets, c.duration, now);
  }

  // ------------------------------------------------------------------ effects

  /** `u` alone holds the resource exclusively, for `seconds` more than it had. */
  predicate LockedBy(r: Resource, r': Resource, u: UserId, seconds: int, now: int) {
    && r'.status == Exclusive && r'.bookings == r.bookings
    && |r'.holders| == 1 && Lengthened(r'.holders[0], u, Find(r.holders, u), seconds, now)
  }

  lemma LockEffect(cfg: Config, s: State, c: NodeCommand, now: int)
    requires Parsed(s, c) && c.Lock? && Judge(cfg, s, c, now).Accepted?
    ensures var s' := Step(cfg, s, c, now);
            OnlyThese(s, s', c.targets) && forall k :: k in c.targets ==> LockedBy(s[k], s'[k], c.user, c.duration, now)
  {
  }

  /** `u` shares the resource: a sharer's lease grows where it stands, a newcomer's comes last; the others keep theirs. */
  predicate SharedBy(r: Resource, r': Resource, u: UserId, seconds: int, now: int) {
    var hs, hs', had := r.holders, r'.holders, Find(r.holders, u);
    && r'.status == Shared && r'.bookings == r.bookings
    && |hs'| == (if had.Some? then |hs| else |hs| + 1)
    && (forall i :: 0 <= i < |hs| ==> if hs[i].user == u then Lengthened(hs'[i], u, had, seconds, now) else hs'[i] == hs[i])
    && (had.None? ==> Lengthened(hs'[|hs|], u, had, seconds, now))
  }

  lemma SlockedOne(r: Resource, u: UserId, seconds: int, t: int, now: int)
    requires WellFormed(r, t)
    ensures SharedBy(r, SlockOne(r, u, seconds, now), u, seconds, now)
  {
    DistinctParts(r.holders, r.bookings);
    if Has(r.holders, u) {
      LengthenShape(r.holders, u, seconds);
      forall i | 0 <= i < |r.holders| && r.holders[i].user == u ensures Find(r.holders, u) == Some(r.holders[i]) {
        FindMember(r.holders, r.holders[i]);
      }
    }
  }

  lemma SlockEffect(cfg: Config, s: State, c: NodeCommand, t: int, now: int)
    requires Parsed(s, c) && WellFormedState(s, t) && c.Slock? && Judge(cfg, s, c, now).Accepted?
    ensures var s' := Step(cfg, s, c, now);
            OnlyThese(s, s', c.targets) && forall k :: k in c.targets ==> SharedBy(s[k], s'[k], c.user, c.duration, now)
  {
    forall k | k in c.targets ensures SharedBy(s[k], Step(cfg, s, c, now)[k], c.user, c.duration, now) {
      assert WellFormed(s[k], t);
      SlockedOne(s[k], c.user, c.duration, t, now);
    }
  }

  /** Unlocking is accepted exactly for users with something on every target, and takes exactly that away. */
  lemma UnlockEffect(cfg: Config, s: State, c: NodeCommand, t: int, now: int)
    requires Parsed(s, c) && WellFormedState(s, t) && c.Unlock?
    ensures Judge(cfg, s, c, now).Accepted? <==> forall k :: k in c.targets ==> Fair.HasStake(s[k], c.user)
    ensures var s' := Step(cfg, s, c, now);
            if Judge(cfg, s, c, now).Refused? then s' == s
            else OnlyThese(s, s', c.targets) && forall k :: k in c.targets ==> Released(s[k], s'[k], c.user)
  {
    forall k | k in c.targets ensures Released(s[k], Rules.UnlockOne(s[k], c.user), c.user) { UnlockedIs(s[k], t, c.user); }
  }

  /** The bare unlock is always accepted and does the same everywhere. */
  lemma UnlockAnyEffect(cfg: Config, s: State, c: NodeCommand, t: int, now: int, k: Key)
    requires WellFormedState(s, t) && c.UnlockAny? && k in s
    ensures Judge(cfg, s, c, now).Accepted?
    ensures k in Step(cfg, s, c, now) && Released(s[k], Step(cfg, s, c, now)[k], c.user)
  {
    assert WellFormed(s[k], t);
    UnlockedIs(s[k], t, c.user);
  }

  /** Kickout empties its targets. */
  lemma KickoutEffect(cfg: Config, s: State, c: NodeCommand, now: int)
    requires Parsed(s, c) && c.Kickout?
    ensures Judge(cfg, s, c, now).Accepted?
    ensures var s' := Step(cfg, s, c, now);
            OnlyThese(s, s', c.targets) && forall k :: k in c.targets ==> s'[k] == Resource(Idle, [], [])
  {
  }

  lemma OpkickIff(cfg: Config, s: State, c: NodeCommand, now: int)
    requires c.Opkick?
    ensures Judge(cfg, s, c, now).Accepted? <==> exists k :: k in s && Has(s[k].holders, c.user) && Reached(k, c.only)
  {
    var kicked := Rules.KickTargets(s, c.user, c.only);
    if k :| k in s && Has(s[k].holders, c.user) && Reached(k, c.only) { assert k in kicked; }
    if Judge(cfg, s, c, now).Accepted? { var k :| k in kicked; }
  }

  /** An operator's kick ends the leases of one user, on one resource or on all. */
  lemma OpkickEffect(cfg: Config, s: State, c: NodeCommand, t: int, now: int, k: Key)
    requires WellFormedState(s, t) && c.Opkick? && k in s
    ensures var s' := Step(cfg, s, c, now);
            k in s' && if Reached(k, c.only) then Evicted(s[k], s'[k], c.user) else s'[k] == s[k]
  {
    assert WellFormed(s[k], t);
    EvictedOne(s[k], t, c.user);
    OpkickIff(cfg, s, c, now);
  }

  /** A sweep lets every live lease stand, in order, warned if it is time, and frees what nobody holds any more. */
  lemma SweepEffect(cfg: Config, s: State, t: int, now: int, k: Key)
    requires WellFormedState(s, t) && t <= now && k in s
    ensures var s' := Step(cfg, s, NodeCommand.Sweep, now);
            k in s' && HoldersSwept(cfg, s[k], s'[k], now) && s'[k].bookings == s[k].bookings
  {
    assert WellFormed(s[k], t);
    SweptHolders(cfg, s[k], t, now);
  }
}
