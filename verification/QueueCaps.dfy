/** The per-user resource cap over whole runs: when it holds, and the one way past it. */
module QueueCaps {
  import opened Leases
  import opened Runs
  import opened Expiry
  import opened QueueRules
  import opened QueueInvariants
  import opened QueueFairness

  /** Passing time only ends claims. */
  lemma TimeNeverAdds(r: Resource, v: UserId, t: int, now: int)
    requires t <= now && Claims(r, v, now)
    ensures Claims(r, v, t)
  {
    if s :| s in r.holders && s.user == v && s.start + s.duration > now {
      assert s.start + s.duration > t;
    } else {
      var s :| s in r.bookings && s.user == v && CountsAsBooked(s, now);
      assert CountsAsBooked(s, t);
    }
  }

  /** The step takes this resource for somebody else and revives a lapsed booking of `v` there. */
  predicate TakeRevives(c: Command, r: Resource, now: int, v: UserId) {
    c.Take? && c.user != v && Revives(r, v, now)
  }

  predicate ActsFor(c: Command, v: UserId) {
    (c.Lock? || c.Book? || c.Take?) && c.user == v
  }

  /** Where a queue entry that counts after prompting comes from. */
  lemma PromptedClaims(e: Resource, now: int, s: Stake) returns (b: Stake)
    requires forall i :: 0 < i < |e.bookings| ==> !e.bookings[i].notified
    requires s in PromptOne(e, now).bookings && CountsAsBooked(s, now)
    ensures b in e.bookings && b.user == s.user && CountsAsBooked(b, now)
  {
    var p := PromptOne(e, now).bookings;
    var i :| 0 <= i < |p| && p[i] == s;
    if |p| == |e.bookings| {
      b := e.bookings[i];
    } else {
      b := e.bookings[i + 1];
      assert !b.notified;
    }
  }

  lemma SweptClaims(cfg: Config, r: Resource, now: int, v: UserId)
    requires ClaimOrder(r) && Claims(SweepOne(cfg, r, now), v, now)
    ensures Claims(r, v, now)
  {
    var e := ExpireOne(cfg, r, now);
    assert e.bookings == r.bookings && PromptOne(e, now).holders == e.holders;
    if s :| s in e.holders && s.user == v && s.start + s.duration > now {
      if r.status != Idle { SurvivorsIff(cfg, r.holders, now, s); }
    } else {
      var s :| s in PromptOne(e, now).bookings && s.user == v && CountsAsBooked(s, now);
      var b := PromptedClaims(e, now, s);
    }
  }

  /** Apart from such a take, no command of anybody gives `v` a claim it did not ask for. */
  lemma NobodyElseAdds(cfg: Config, c: Command, r: Resource, t: int, now: int, r': Resource, v: UserId)
    requires WellFormed(r, t) && t <= now && Transition(cfg, c, r, now, r') && ClaimOrder(r)
    requires !ActsFor(c, v) && !TakeRevives(c, r, now, v) && Claims(r', v, now)
    ensures Claims(r, v, now)
  {
    if r' != r {
      if c.Sweep? {
        SweptClaims(cfg, r, now, v);
      } else if c.Take? {
        TakeOnOthersClaims(cfg, c, r, t, now, r', v);
      }
    }
  }

  predicate Orderly(s: State, t: int) {
    forall k :: k in s ==> WellFormed(s[k], t) && ClaimOrder(s[k])
  }

  /** The resources on which a take for these targets revives a claim of `v`. */
  function Revived(s: State, targets: set<Key>, v: UserId, now: int): set<Key> {
    set k | k in targets && k in s && Revives(s[k], v, now)
  }

  lemma TakeChanges(cfg: Config, s: State, c: Command, now: int, k: Key)
    requires Parsed(s, c) && c.Take? && Judge(cfg, s, c, now).Accepted? && k in c.targets
    ensures Step(cfg, s, c, now)[k] != s[k]
  {
    assert Step(cfg, s, c, now)[k].holders[0].user == c.user && !Has(s[k].holders, c.user);
  }

  /** An accepted take adds to another user's claims exactly those it revives. */
  lemma TakeAdds(cfg: Config, s: State, c: Command, t: int, now: int, v: UserId)
    requires Parsed(s, c) && Orderly(s, t) && t <= now && c.Take? && c.user != v && Judge(cfg, s, c, now).Accepted?
    ensures Claimed(Step(cfg, s, c, now), v, now) == Claimed(s, v, now) + Revived(s, c.targets, v, now)
  {
    var s' := Step(cfg, s, c, now);
    forall k | k in s ensures Claims(s'[k], v, now) <==> Claims(s[k], v, now) || k in Revived(s, c.targets, v, now) {
      StepTransition(cfg, s, c, now, k);
      if k in c.targets {
        TakeChanges(cfg, s, c, now, k);
        TakeOnOthersClaims(cfg, c, s[k], t, now, s'[k], v);
      }
    }
  }

  lemma StepClaims(cfg: Config, s: State, c: Command, t: int, now: int, v: UserId)
    requires Parsed(s, c) && Orderly(s, t) && t <= now && !ActsFor(c, v) && !c.Take?
    ensures Claimed(Step(cfg, s, c, now), v, now) <= Claimed(s, v, now)
  {
    var s' := Step(cfg, s, c, now);
    forall k | k in Claimed(s', v, now) ensures k in Claimed(s, v, now) {
      StepTransition(cfg, s, c, now, k);
      if s'[k] != s[k] { NobodyElseAdds(cfg, c, s[k], t, now, s'[k], v); }
    }
  }

  function Most(x: int, y: int): int { if x >= y then x else y }

  /** An accepted take for somebody else, on resources where `v` has claims to revive, too many with those it has. */
  predicate Lifts(cfg: Config, s: State, e: Timed<Command>, v: UserId, limit: int)
    requires Parsed(s, e.cmd)
  {
    && e.cmd.Take? && e.cmd.user != v && Judge(cfg, s, e.cmd, e.at).Accepted?
    && |Claimed(s, v, e.at) + Revived(s, e.cmd.targets, v, e.at)| > limit
  }

  /** One step: only such a take brings `v`'s claims above a limit no lower than the cap. */
  lemma StepKeepsCap(cfg: Config, s: State, e: Timed<Command>, t: int, v: UserId, limit: int)
    requires Parsed(s, e.cmd) && Orderly(s, t) && t <= e.at && cfg.cap != -1
    requires |Claimed(s, v, t)| <= limit && cfg.cap <= limit && !Lifts(cfg, s, e, v, limit)
    ensures |Claimed(Step(cfg, s, e.cmd, e.at), v, e.at)| <= limit
  {
    var c, now := e.cmd, e.at;
    assert |Claimed(s, v, now)| <= limit by {
      forall k | k in Claimed(s, v, now) ensures k in Claimed(s, v, t) { TimeNeverAdds(s[k], v, t, now); }
      SubsetSize(Claimed(s, v, now), Claimed(s, v, t));
    }
    if Judge(cfg, s, c, now).Accepted? {
      if ActsFor(c, v) {
        CapPerCommand(cfg, s, c, now);
      } else if c.Take? {
        TakeAdds(cfg, s, c, t, now, v);
      } else {
        StepClaims(cfg, s, c, t, now, v);
        SubsetSize(Claimed(Step(cfg, s, c, now), v, now), Claimed(s, v, now));
      }
    }
  }

  lemma RunKeepsOrderly(cfg: Config, from: int, states: seq<State>, run: seq<Timed<Command>>, n: nat)
    requires IsRun(cfg, from, states, run) && n <= |run| && Orderly(states[0], from)
    ensures Orderly(states[n], TimeAt(from, run, n))
  {
    forall k | k in states[n] ensures WellFormed(states[n][k], TimeAt(from, run, n)) && ClaimOrder(states[n][k]) {
      KeysStay(cfg, from, states, run, n);
      RunKeepsClaimOrder(cfg, from, states, run, n, k);
    }
  }

  lemma {:induction false} KeysStay(cfg: Config, from: int, states: seq<State>, run: seq<Timed<Command>>, n: nat)
    requires IsRun(cfg, from, states, run) && n <= |run|
    ensures states[n].Keys == states[0].Keys
  {
    if n > 0 {
      KeysStay(cfg, from, states, run, n - 1);
      assert Next(cfg, states[n - 1], run[n - 1], states[n]);
    }
  }

  /** `v`'s claims stay within `limit` in every state up to the `n`-th. */
  predicate StaysWithin(from: int, states: seq<State>, run: seq<Timed<Command>>, n: nat, v: UserId, limit: int)
    requires n <= |run| && n < |states|
  {
    forall m :: 0 <= m <= n ==> |Claimed(states[m], v, TimeAt(from, run, m))| <= limit
  }

  /** None of the first `n` steps lifts `v` above `limit`. */
  predicate NothingLifts(cfg: Config, states: seq<State>, run: seq<Timed<Command>>, n: nat, v: UserId, limit: int)
    requires n <= |run| && n <= |states|
  {
    forall m :: 0 <= m < n ==> Parsed(states[m], run[m].cmd) && !Lifts(cfg, states[m], run[m], v, limit)
  }

  lemma LiftedAt(cfg: Config, from: int, states: seq<State>, run: seq<Timed<Command>>, m: nat, v: UserId, limit: int)
    requires IsRun(cfg, from, states, run) && m < |run| && Orderly(states[0], from)
    requires Parsed(states[m], run[m].cmd) && Lifts(cfg, states[m], run[m], v, limit)
    ensures |Claimed(states[m + 1], v, TimeAt(from, run, m + 1))| > limit
  {
    RunKeepsOrderly(cfg, from, states, run, m);
    assert Next(cfg, states[m], run[m], states[m + 1]);
    ClockAdvances(from, run, m);
    TakeAdds(cfg, states[m], run[m].cmd, TimeAt(from, run, m), run[m].at, v);
  }

  lemma {:induction false} NothingLiftsStays(cfg: Config, from: int, states: seq<State>, run: seq<Timed<Command>>, n: nat,
                                             v: UserId, limit: int)
    requires IsRun(cfg, from, states, run) && n <= |run| && Orderly(states[0], from) && cfg.cap != -1
    requires |Claimed(states[0], v, from)| <= limit && cfg.cap <= limit && NothingLifts(cfg, states, run, n, v, limit)
    ensures StaysWithin(from, states, run, n, v, limit)
  {
    if n > 0 {
      NothingLiftsStays(cfg, from, states, run, n - 1, v, limit);
      RunKeepsOrderly(cfg, from, states, run, n - 1);
      assert Next(cfg, states[n - 1], run[n - 1], states[n]);
      ClockAdvances(from, run, n - 1);
      StepKeepsCap(cfg, states[n - 1], run[n - 1], TimeAt(from, run, n - 1), v, limit);
    }
  }

  /**
   * The cap over whole runs: a user's claims stay within the cap, or within what it claimed at the start when that was
   * more, if and only if no accepted take by somebody else meets lapsed, not yet swept bookings of it that are too many.
   */
  lemma CapOverRunsIff(cfg: Config, from: int, states: seq<State>, run: seq<Timed<Command>>, n: nat, v: UserId)
    requires IsRun(cfg, from, states, run) && n <= |run| && Orderly(states[0], from) && cfg.cap != -1
    ensures var limit := Most(|Claimed(states[0], v, from)|, cfg.cap);
            StaysWithin(from, states, run, n, v, limit) <==> NothingLifts(cfg, states, run, n, v, limit)
  {
    var limit := Most(|Claimed(states[0], v, from)|, cfg.cap);
    if NothingLifts(cfg, states, run, n, v, limit) {
      NothingLiftsStays(cfg, from, states, run, n, v, limit);
    } else {
      forall i | 0 <= i < n ensures Parsed(states[i], run[i].cmd) { assert Next(cfg, states[i], run[i], states[i + 1]); }
      var m :| 0 <= m < n && Lifts(cfg, states[m], run[m], v, limit);
      LiftedAt(cfg, from, states, run, m, v, limit);
    }
  }

  lemma ClockAdvances(from: int, run: seq<Timed<Command>>, n: nat)
    requires Clocked(from, run) && n < |run|
    ensures TimeAt(from, run, n) <= run[n].at == TimeAt(from, run, n + 1)
  {
  }

  // ------------------------------------------------------- the way past it

  const ONE_EACH: Config := Config(-1, {}, false, 1, false, 300)

  function Two(a: Resource, b: Resource): (s: State)
    ensures s.Keys == {"a", "b"} && s["a"] == a && s["b"] == b
  {
    assert "a" != "b" by { assert "a"[0] != "b"[0]; }
    map["a" := a, "b" := b]
  }

  const FREE: Resource := Resource(Idle, [], [])
  const QUEUED: Resource := Resource(Idle, [], [Stake("v", 0, 100, false)])
  const PROMPTED: Resource := Resource(Idle, [], [Stake("v", 0, 100, true)])
  const LOCKED: Resource := Resource(Exclusive, [Stake("v", 400, 100, false)], [])
  const TAKEN: Resource := Resource(Exclusive, [Stake("w", 400, 100, false)], [Stake("v", 0, 100, false)])

  /** Booked, prompted, locked elsewhere, taken by another. */
  const PAST: seq<Timed<Command>> :=
    [Timed(0, Command.Book("v", {"a"}, 100)), Timed(0, Command.Sweep), Timed(400, Command.Lock("v", {"b"}, 100, true)),
     Timed(400, Command.Take("w", {"a"}, 100))]

  const STATES: seq<State> :=
    [Two(FREE, FREE), Two(QUEUED, FREE), Two(PROMPTED, FREE), Two(PROMPTED, LOCKED), Two(TAKEN, LOCKED)]

  lemma ClaimsOf(s: State, v: UserId, now: int, a: bool, b: bool)
    requires s.Keys == {"a", "b"} && (Claims(s["a"], v, now) <==> a) && (Claims(s["b"], v, now) <==> b)
    ensures Claimed(s, v, now) == (if a then {"a"} else {}) + (if b then {"b"} else {})
  {
  }

  lemma IsTwo(s: State, a: Resource, b: Resource)
    requires s.Keys == {"a", "b"} && s["a"] == a && s["b"] == b
    ensures s == Two(a, b)
  {
  }

  lemma Names()
    ensures "a" != "b" && "v" != "w"
  {
    assert "a"[0] != "b"[0] && "v"[0] != "w"[0];
  }

  lemma Booked()
    ensures Next(ONE_EACH, Two(FREE, FREE), PAST[0], Two(QUEUED, FREE))
  {
    ClaimsOf(Two(FREE, FREE), "v", 0, false, false);
    assert BookOne(FREE, "v", 100, 0) == QUEUED;
    assert Step(ONE_EACH, Two(FREE, FREE), PAST[0].cmd, 0) == Two(QUEUED, FREE);
  }

  lemma SweptOnce()
    ensures Next(ONE_EACH, Two(QUEUED, FREE), PAST[1], Two(PROMPTED, FREE))
  {
    assert SweepOne(ONE_EACH, QUEUED, 0) == PROMPTED && SweepOne(ONE_EACH, FREE, 0) == FREE;
    assert Step(ONE_EACH, Two(QUEUED, FREE), Command.Sweep, 0) == Two(PROMPTED, FREE);
  }

  lemma LockedElsewhere()
    ensures Next(ONE_EACH, Two(PROMPTED, FREE), PAST[2], Two(PROMPTED, LOCKED))
  {
    ClaimsOf(Two(PROMPTED, FREE), "v", 400, false, false);
    assert LockOne(FREE, "v", 100, true, 400) == LOCKED;
    assert Step(ONE_EACH, Two(PROMPTED, FREE), PAST[2].cmd, 400) == Two(PROMPTED, LOCKED);
  }

  lemma TakenByAnother()
    ensures TakeVerdict(ONE_EACH, Two(PROMPTED, LOCKED), "w", {"a"}, 100, 400).Accepted?
    ensures TakeOne(PROMPTED, "w", 100, 400) == TAKEN
  {
    Names();
    ClaimsOf(Two(PROMPTED, LOCKED), "w", 400, false, false);
    assert Remove(PROMPTED.bookings, "w") == PROMPTED.bookings;
  }

  lemma TakenThen()
    ensures Next(ONE_EACH, Two(PROMPTED, LOCKED), PAST[3], Two(TAKEN, LOCKED))
  {
    TakenByAnother();
    Names();
    IsTwo(Step(ONE_EACH, Two(PROMPTED, LOCKED), PAST[3].cmd, 400), TAKEN, LOCKED);
  }

  lemma EachStep(i: nat)
    requires i < 4
    ensures Next(ONE_EACH, STATES[i], PAST[i], STATES[i + 1])
  {
    if i == 0 {
      Booked();
    } else if i == 1 {
      SweptOnce();
    } else if i == 2 {
      LockedElsewhere();
    } else {
      TakenThen();
    }
  }

  lemma ItIsARun()
    ensures IsRun(ONE_EACH, 0, STATES, PAST)
  {
    forall i | 0 <= i < |PAST| ensures Next(ONE_EACH, STATES[i], PAST[i], STATES[i + 1]) { EachStep(i); }
  }

  lemma StartsFree()
    ensures Orderly(Two(FREE, FREE), 0) && Claimed(Two(FREE, FREE), "v", 0) == {}
  {
    assert WellFormed(FREE, 0) && ClaimOrder(FREE);
    ClaimsOf(Two(FREE, FREE), "v", 0, false, false);
  }

  lemma TwoClaims()
    ensures Claimed(Two(TAKEN, LOCKED), "v", 400) == {"a", "b"} && |{"a", "b"}| == 2
  {
    Names();
    assert TAKEN.bookings[0] in TAKEN.bookings && LOCKED.holders[0] in LOCKED.holders;
    ClaimsOf(Two(TAKEN, LOCKED), "v", 400, true, true);
  }

  /**
   * From a fresh bot with a cap of one: "v" books one resource, lets its window lapse unswept, and locks another; then
   * "w" takes the first, and "v" has claims on two.
   */
  lemma CapExceeded()
    ensures IsRun(ONE_EACH, 0, STATES, PAST) && ONE_EACH.cap == 1
    ensures Orderly(STATES[0], 0) && Claimed(STATES[0], "v", 0) == {} && |Claimed(STATES[4], "v", 400)| == 2
  {
    ItIsARun();
    StartsFree();
    TwoClaims();
  }
}
