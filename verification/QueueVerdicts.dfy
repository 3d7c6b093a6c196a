/** When the queue bot says yes: every verdict in terms of who holds, who waits, and how long. */
module QueueVerdicts {
  import opened Leases
  import opened QueueRules
  import opened QueueInvariants
  import opened QueueFairness
  import opened QueueEffects

  // ------------------------------------------------------------- the policy

  /** A resource counts for `u` while it holds a live lease there, or a booking it may still claim. */
  lemma ClaimedIff(s: State, u: UserId, now: int, k: Key)
    ensures k in Claimed(s, u, now) <==>
            && k in s
            && ((exists h :: h in s[k].holders && h.user == u && now < EndOf(h))
                || (exists b :: b in s[k].bookings && b.user == u && (b.notified ==> now < b.start + 300)))
  {
    if k in s {
      if b :| b in s[k].bookings && b.user == u && (b.notified ==> now < b.start + 300) { assert CountsAsBooked(b, now); }
    }
  }

  /** The cap allows these targets: none is set, nothing new is asked for, or there is room for all. */
  predicate RoomFor(cfg: Config, s: State, u: UserId, targets: set<Key>, now: int) {
    cfg.cap == -1 || targets <= Claimed(s, u, now) || |Claimed(s, u, now) + targets| <= cfg.cap
  }

  /** Where renewals are forbidden: `u` does not hold the resource, and claims no more than it booked. */
  predicate NoRenewal(cfg: Config, r: Resource, u: UserId, stated: Option<int>) {
    cfg.forbidRelock ==>
      && (forall h :: h in r.holders ==> h.user != u)
      && (stated.Some? ==> forall b :: b in r.bookings && b.user == u ==> stated.value <= b.duration)
  }

  lemma RenewsIff(cfg: Config, r: Resource, u: UserId, stated: Option<int>)
    requires Distinct(r.bookings)
    ensures NoRenewal(cfg, r, u, stated) <==> cfg.forbidRelock ==> !Renews(r, u, stated)
  {
    HasMember(r.holders, u);
    HasMember(r.bookings, u);
    if b :| b in r.bookings && b.user == u { FindMember(r.bookings, b); }
  }

  predicate NoneRenewed(cfg: Config, s: State, u: UserId, targets: set<Key>, stated: Option<int>)
    requires targets <= s.Keys
  {
    forall k :: k in targets ==> NoRenewal(cfg, s[k], u, stated)
  }

  lemma PolicyIs(cfg: Config, s: State, u: UserId, targets: set<Key>, stated: Option<int>, t: int, now: int)
    requires targets <= s.Keys && WellFormedState(s, t)
    ensures Policy(cfg, s, u, targets, stated, now) ==
            if !RoomFor(cfg, s, u, targets, now) then Refused(ResourceCap)
            else if !NoneRenewed(cfg, s, u, targets, stated) then Refused(RelockForbidden)
            else Accepted
  {
    var held := Claimed(s, u, now);
    assert targets - held == {} <==> targets <= held by {
      if targets - held == {} { assert forall k :: k in targets ==> k in held || k in targets - held; }
    }
    forall k | k in targets ensures NoRenewal(cfg, s[k], u, stated) <==> cfg.forbidRelock ==> !Renews(s[k], u, stated) {
      PartsOf(s, t, k);
      RenewsIff(cfg, s[k], u, stated);
    }
  }

  /** The maximum lets `u` hold for `seconds` from now. */
  predicate Affordable(cfg: Config, u: UserId, seconds: int) {
    cfg.maxDuration > 0 && u !in cfg.whitelist ==> seconds <= cfg.maxDuration
  }

  /** Seconds from now to the end of what `u` would hold. */
  function Until(r: Resource, u: UserId, seconds: int, now: int): int {
    seconds + (if Find(r.holders, u).Some? then EndOf(Find(r.holders, u).value) - now else 0)
  }

  // -------------------------------------------------------------- the verdicts

  /** `u` holds the resource already, or it is free with nobody but `u` at the head of its queue. */
  predicate MyTurn(r: Resource, u: UserId) {
    || (exists h :: h in r.holders && h.user == u)
    || (r.holders == [] && (r.bookings == [] || r.bookings[0].user == u))
  }

  lemma TurnIs(s: State, t: int, u: UserId, k: Key)
    requires WellFormedState(s, t) && k in s
    ensures MyTurn(s[k], u) <==> MayLock(s[k], u)
  {
    PartsOf(s, t, k);
    HasMember(s[k].holders, u);
  }

  function Stated(c: Command): Option<int>
    requires c.Lock?
  {
    if c.explicit then Some(c.duration) else None
  }

  lemma TooMuchIs(cfg: Config, r: Resource, c: Command, now: int)
    requires c.Lock? && Capped(cfg, c.user)
    ensures TooMuch(cfg, r, c.user, c.duration, c.explicit, now) <==> !Affordable(cfg, c.user, Until(r, c.user, Asked(r, c), now))
  {
  }

  predicate TurnEverywhere(s: State, u: UserId, targets: set<Key>)
    requires targets <= s.Keys
  {
    forall k :: k in targets ==> MyTurn(s[k], u)
  }

  predicate AffordableEverywhere(cfg: Config, s: State, c: Command, now: int)
    requires c.Lock? && c.targets <= s.Keys
  {
    forall k :: k in c.targets ==> Affordable(cfg, c.user, Until(s[k], c.user, Asked(s[k], c), now))
  }

  lemma TurnsAre(s: State, t: int, u: UserId, targets: set<Key>)
    requires WellFormedState(s, t) && targets <= s.Keys
    ensures TurnEverywhere(s, u, targets) <==> !OutOfTurn(s, u, targets)
  {
    forall k | k in targets ensures MyTurn(s[k], u) <==> MayLock(s[k], u) { TurnIs(s, t, u, k); }
  }

  lemma TooLongIs(cfg: Config, s: State, c: Command, now: int)
    requires c.Lock? && c.targets <= s.Keys
    ensures AffordableEverywhere(cfg, s, c, now) <==>
            !(Capped(cfg, c.user) && AnyTooLong(cfg, s, c.user, c.targets, c.duration, c.explicit, now))
  {
    if Capped(cfg, c.user) {
      forall k | k in c.targets
        ensures TooMuch(cfg, s[k], c.user, c.duration, c.explicit, now) <==>
                !Affordable(cfg, c.user, Until(s[k], c.user, Asked(s[k], c), now))
      {
        TooMuchIs(cfg, s[k], c, now);
      }
    }
  }

  /**
   * A lock is accepted exactly when there is room, nothing is renewed against the rules, it is the user's turn everywhere,
   * and every lease would stay within the maximum; otherwise the first of these that fails, in this order, is the reason.
   */
  lemma LockVerdictIs(cfg: Config, s: State, c: Command, t: int, now: int)
    requires Parsed(s, c) && WellFormedState(s, t) && c.Lock?
    ensures Judge(cfg, s, c, now) ==
            if !RoomFor(cfg, s, c.user, c.targets, now) then Refused(ResourceCap)
            else if !NoneRenewed(cfg, s, c.user, c.targets, Stated(c)) then Refused(RelockForbidden)
            else if !TurnEverywhere(s, c.user, c.targets) then Refused(NotYourTurn)
            else if !AffordableEverywhere(cfg, s, c, now) then Refused(TooLong)
            else Accepted
  {
    PolicyIs(cfg, s, c.user, c.targets, Stated(c), t, now);
    TurnsAre(s, t, c.user, c.targets);
    TooLongIs(cfg, s, c, now);
  }

  predicate StakedNowhere(s: State, u: UserId, targets: set<Key>)
    requires targets <= s.Keys
  {
    forall k :: k in targets ==> !HasStake(s[k], u)
  }

  predicate HeldNowhere(s: State, u: UserId, targets: set<Key>)
    requires targets <= s.Keys
  {
    forall k, h :: k in targets && h in s[k].holders ==> h.user != u
  }

  /** A booking is accepted exactly from users with nothing on any target yet, for no more than the maximum. */
  lemma BookVerdictIs(cfg: Config, s: State, c: Command, t: int, now: int)
    requires Parsed(s, c) && WellFormedState(s, t) && c.Book?
    ensures Judge(cfg, s, c, now) ==
            if !RoomFor(cfg, s, c.user, c.targets, now) then Refused(ResourceCap)
            else if cfg.forbidRelock && !HeldNowhere(s, c.user, c.targets) then Refused(RelockForbidden)
            else if !StakedNowhere(s, c.user, c.targets) then Refused(AlreadyQueued)
            else if !Affordable(cfg, c.user, c.duration) then Refused(TooLong)
            else Accepted
  {
    PolicyIs(cfg, s, c.user, c.targets, None, t, now);
    assert NoneRenewed(cfg, s, c.user, c.targets, None) <==> cfg.forbidRelock ==> HeldNowhere(s, c.user, c.targets) by {
      if !HeldNowhere(s, c.user, c.targets) && cfg.forbidRelock {
        var k, h :| k in c.targets && h in s[k].holders && h.user == c.user;
        assert !NoRenewal(cfg, s[k], c.user, None);
      }
    }
  }

  /** A take is accepted exactly from users who hold no target, for no more than the maximum or, renewals forbidden, the booking. */
  lemma TakeVerdictIs(cfg: Config, s: State, c: Command, t: int, now: int)
    requires Parsed(s, c) && WellFormedState(s, t) && c.Take?
    ensures Judge(cfg, s, c, now) ==
            if !RoomFor(cfg, s, c.user, c.targets, now) then Refused(ResourceCap)
            else if !NoneRenewed(cfg, s, c.user, c.targets, Some(c.duration)) then Refused(RelockForbidden)
            else if !HeldNowhere(s, c.user, c.targets) then Refused(HoldersCannotTake)
            else if !Affordable(cfg, c.user, c.duration) then Refused(TooLong)
            else Accepted
  {
    PolicyIs(cfg, s, c.user, c.targets, Some(c.duration), t, now);
    assert HeldNowhere(s, c.user, c.targets) <==> forall k :: k in c.targets ==> !Has(s[k].holders, c.user) by {
      forall k | k in c.targets ensures Has(s[k].holders, c.user) <==> exists h :: h in s[k].holders && h.user == c.user {
        HasMember(s[k].holders, c.user);
      }
    }
  }

  // --------------------------------------------------- the promise of a prompt

  lemma WindowCounts(s: State, k: Key, b: Stake, now: int)
    requires k in s && Waiting(s[k], b) && now < b.start + 300
    ensures k in Claimed(s, b.user, now)
  {
    assert s[k].bookings[0] == b && b in s[k].bookings;
    ClaimedIff(s, b.user, now, k);
  }

  /**
   * The converse of the exclusive window: whoever is prompted can claim. While the window is open neither the cap nor the
   * no-renewal rule stands in the way of a lock for the booked time, or for less; only the maximum duration can. The
   * claim leaves that user the only holder, from now and for exactly that time, with its booking gone and nothing else
   * changed.
   */
  lemma PromptedMayClaim(cfg: Config, s: State, k: Key, b: Stake, c: Command, t: int, now: int)
    requires WellFormedState(s, t) && t <= now && k in s && Waiting(s[k], b)
    requires c.Lock? && c.user == b.user && c.targets == {k}
    requires now < b.start + 300 || RoomFor(cfg, s, b.user, {k}, now)
    requires cfg.forbidRelock && c.explicit ==> c.duration <= b.duration
    requires Affordable(cfg, b.user, if c.explicit then c.duration else b.duration)
    ensures Parsed(s, c) && Judge(cfg, s, c, now).Accepted?
    ensures Step(cfg, s, c, now)[k] ==
            Resource(Exclusive, [Stake(b.user, now, if c.explicit then c.duration else b.duration, false)], s[k].bookings[1..])
    ensures OnlyThese(s, Step(cfg, s, c, now), {k})
  {
    if now < b.start + 300 { WindowCounts(s, k, b, now); }
    PartsOf(s, t, k);
    WaitingBooking(s[k], b);
    LockVerdictIs(cfg, s, c, t, now);
    LockEffect(cfg, s, c, t, now);
  }

  /** The record of a waiting user, and the queue without it. */
  lemma WaitingBooking(r: Resource, b: Stake)
    requires Waiting(r, b) && Distinct(r.bookings) && r.holders == []
    ensures Find(r.bookings, b.user) == Some(b) && Find(r.holders, b.user).None?
    ensures Without(r.bookings, b.user) == r.bookings[1..]
    ensures forall x :: x in r.bookings && x.user == b.user ==> x == b
  {
    FindMember(r.bookings, b);
    RemoveIsWithout(r.bookings, b.user);
    forall x | x in r.bookings && x.user == b.user ensures x == b { FindMember(r.bookings, x); }
  }

  // ------------------------------------------------------------- the budget

  /** A request is over its budget exactly when it names a new machine and the machines would then be too many. */
  lemma ExceedsIff(s: State, unit: Key -> Key, u: UserId, targets: set<Key>, limit: int)
    requires targets <= s.Keys
    ensures Exceeds(s, unit, u, targets, limit) <==>
            && (exists k :: k in targets && forall q :: q in s && unit(q) == unit(k) ==> !HasStake(s[q], u))
            && |set k | k in s && (HasStake(s[k], u) || k in targets) :: unit(k)| > limit
  {
    var held, wanted := HeldUnits(s, unit, u), UnitsOf(targets, unit);
    assert held + wanted == set k | k in s && (HasStake(s[k], u) || k in targets) :: unit(k);
    if wanted - held != {} {
      var x :| x in wanted - held;
      var k :| k in targets && unit(k) == x;
      assert forall q :: q in s && unit(q) == unit(k) ==> !HasStake(s[q], u);
    }
    if k :| k in targets && forall q :: q in s && unit(q) == unit(k) ==> !HasStake(s[q], u) {
      assert unit(k) in wanted - held;
    }
  }
}
