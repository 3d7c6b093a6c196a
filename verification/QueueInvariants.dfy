/** What every run of the queue bot keeps: well-formed resources, the duration cap, claim windows. */
module QueueInvariants {
  import opened Leases
  import opened Runs
  import opened Expiry
  import opened QueueRules

  // ------------------------------------------------------ well-formedness

  lemma LaterWellFormed(r: Resource, t: int, now: int)
    requires WellFormed(r, t) && t <= now
    ensures WellFormed(r, now)
  {
  }

  lemma {:induction false} RequeuedIff(hs: seq<Stake>, u: UserId, now: int, s: Stake)
    ensures s in Requeued(hs, u, now) <==>
            exists h :: h in hs && h.user != u && Remaining(h, now) > 0
                        && s == Stake(h.user, now, Remaining(h, now), false)
  {
    if hs != [] {
      RequeuedIff(hs[1..], u, now, s);
      assert forall h :: h in hs <==> h == hs[0] || h in hs[1..];
    }
  }

  lemma {:induction false} RequeuedDistinct(hs: seq<Stake>, u: UserId, now: int)
    requires Distinct(hs)
    ensures Distinct(Requeued(hs, u, now))
  {
    if hs != [] {
      assert hs == [hs[0]] + hs[1..];
      DistinctParts([hs[0]], hs[1..]);
      RequeuedDistinct(hs[1..], u, now);
      var rest := Requeued(hs[1..], u, now);
      forall s | s in rest ensures s.user != hs[0].user { RequeuedIff(hs[1..], u, now, s); }
      DistinctParts(Requeued([hs[0]], u, now), rest);
      assert Requeued(hs, u, now) == Requeued([hs[0]], u, now) + rest;
    }
  }

  /** Same users in the same places: distinctness does not look at anything else. */
  lemma UnpromptedDistinct(list: seq<Stake>)
    requires Distinct(list)
    ensures Distinct(Unprompted(list))
  {
  }

  lemma LockKeeps(r: Resource, u: UserId, duration: int, explicit: bool, now: int)
    requires WellFormed(r, now)
    ensures WellFormed(LockOne(r, u, duration, explicit, now), now)
  {
    DistinctParts(r.holders, r.bookings);
    RemoveDistinct(r.bookings, u);
    var r' := LockOne(r, u, duration, explicit, now);
    assert forall y :: y in r'.bookings ==> y.user != u;
    DistinctParts(r'.holders, r'.bookings);
  }

  lemma BookKeeps(r: Resource, u: UserId, duration: int, now: int)
    requires WellFormed(r, now) && !Has(r.holders, u) && !Has(r.bookings, u)
    ensures WellFormed(BookOne(r, u, duration, now), now)
  {
    var b := [Stake(u, now, duration, false)];
    DistinctParts(r.holders, r.bookings);
    DistinctParts(r.bookings, b);
    DistinctParts(r.holders, r.bookings + b);
  }

  /** The queue a take leaves behind: preempted holders first, then the old queue without the taker. */
  lemma TakeQueue(r: Resource, u: UserId, now: int)
    requires WellFormed(r, now)
    ensures var q := Requeued(r.holders, u, now) + Remove(r.bookings, u);
            Distinct(q) && forall y :: y in q ==> y.user != u && y.start <= now
  {
    DistinctParts(r.holders, r.bookings);
    RemoveDistinct(r.bookings, u);
    RequeuedDistinct(r.holders, u, now);
    var q, b := Requeued(r.holders, u, now), Remove(r.bookings, u);
    forall s | s in q ensures s.user != u && s.start <= now && exists h :: h in r.holders && h.user == s.user {
      RequeuedIff(r.holders, u, now, s);
    }
    forall y | y in b ensures y.user != u && y in r.bookings {
      var i :| 0 <= i < |b| && b[i] == y;
    }
    DistinctParts(q, b);
  }

  lemma TakeKeeps(r: Resource, u: UserId, duration: int, now: int)
    requires WellFormed(r, now)
    ensures WellFormed(TakeOne(r, u, duration, now), now)
  {
    TakeQueue(r, u, now);
    var q := Requeued(r.holders, u, now) + Remove(r.bookings, u);
    UnpromptedDistinct(q);
    var r' := TakeOne(r, u, duration, now);
    forall y | y in r'.bookings ensures y.user != u && y.start <= now {
      var i :| 0 <= i < |r'.bookings| && r'.bookings[i] == y;
      assert q[i] in q;
    }
    DistinctParts(r'.holders, r'.bookings);
  }

  lemma ReleaseKeeps(r: Resource, u: UserId, now: int)
    requires WellFormed(r, now)
    ensures WellFormed(UnlockOne(r, u), now)
    ensures WellFormed(UnlockAnyOne(r, u), now)
    ensures WellFormed(OpkickOne(r, u), now)
  {
    DistinctParts(r.holders, r.bookings);
    RemoveDistinct(r.holders, u);
    RemoveDistinct(r.bookings, u);
    var hs, bs := Remove(r.holders, u), Remove(r.bookings, u);
    DistinctParts(hs, bs);
    DistinctParts(hs, r.bookings);
    DistinctParts(r.holders, bs);
    if |r.holders| == 1 {
      assert |hs| <= 1;
    }
  }

  lemma PromptDistinct(list: seq<Stake>, now: int)
    requires Distinct(list)
    ensures Distinct(Prompt(list, now))
  {
    assert forall i :: 0 <= i < |list| ==> Prompt(list, now)[i].user == list[i].user;
  }

  /** What is left of a queue without holders, prompted, is still well formed. */
  lemma PromptedSuffix(r: Resource, now: int, from: nat)
    requires WellFormed(r, now) && r.status == Idle && from < |r.bookings|
    ensures WellFormed(r.(bookings := Prompt(r.bookings[from..], now)), now)
  {
    var list := r.bookings[from..];
    var p := Prompt(list, now);
    assert r.holders + r.bookings == r.bookings && r.holders + p == p;
    assert Distinct(list) by { assert r.bookings == r.bookings[..from] + list; DistinctParts(r.bookings[..from], list); }
    PromptDistinct(list, now);
    forall y | y in p ensures y.start <= now {
      if y.start != now { assert y in list[1..] && y in r.bookings; }
    }
  }

  lemma PromptKeeps(r: Resource, now: int)
    requires WellFormed(r, now)
    ensures WellFormed(PromptOne(r, now), now)
  {
    if r.status == Idle && r.bookings != [] {
      if !r.bookings[0].notified {
        PromptedSuffix(r, now, 0);
        assert r.bookings[0..] == r.bookings;
      } else if TimedOut(r.bookings[0], now) {
        if |r.bookings| > 1 {
          PromptedSuffix(r, now, 1);
        } else {
          assert r.holders + [] == [];
        }
      }
    }
  }

  lemma SweepKeeps(cfg: Config, r: Resource, t: int, now: int)
    requires WellFormed(r, t) && t <= now
    ensures WellFormed(SweepOne(cfg, r, now), now)
  {
    ExpireKeepsWellFormed(cfg, r, t, now);
    PromptKeeps(ExpireOne(cfg, r, now), now);
  }

  lemma CommandKeeps(cfg: Config, c: Command, r: Resource, now: int)
    requires WellFormed(r, now) && Guarded(cfg, c, r, now) && !c.Sweep?
    ensures WellFormed(EffectOn(cfg, c, r, now), now)
  {
    if c.Lock? {
      LockKeeps(r, c.user, c.duration, c.explicit, now);
    } else if c.Book? {
      BookKeeps(r, c.user, c.duration, now);
    } else if c.Take? {
      TakeKeeps(r, c.user, c.duration, now);
    } else if c.Unlock? || c.UnlockAny? || c.Opkick? {
      ReleaseKeeps(r, c.user, now);
    } else if c.Kicklock? {
      DistinctParts(r.holders, r.bookings);
      assert [] + r.bookings == r.bookings;
    }
  }

  /** Idle means nobody holds, exclusive means one holder, users are distinct, no start lies ahead. */
  lemma TransitionKeepsWellFormed(cfg: Config, c: Command, r: Resource, t: int, now: int, r': Resource)
    requires WellFormed(r, t) && t <= now && Transition(cfg, c, r, now, r')
    ensures WellFormed(r', now)
  {
    LaterWellFormed(r, t, now);
    if r' != r {
      if c.Sweep? {
        SweepKeeps(cfg, r, t, now);
      } else {
        CommandKeeps(cfg, c, r, now);
      }
    }
  }

  lemma WellFormedPreserved(cfg: Config)
    ensures Preserves(WellFormed, Effects(cfg))
  {
    forall c, r, t, now, r' | WellFormed(r, t) && t <= now && Effects(cfg)(c, r, now, r') ensures WellFormed(r', now) {
      TransitionKeepsWellFormed(cfg, c, r, t, now, r');
    }
  }

  lemma RunKeepsWellFormed(cfg: Config, from: int, states: seq<State>, run: seq<Timed<Command>>, n: nat, k: Key)
    requires IsRun(cfg, from, states, run) && n <= |run| && k in states[0] && WellFormed(states[0][k], from)
    ensures k in states[n] && WellFormed(states[n][k], TimeAt(from, run, n))
  {
    WellFormedPreserved(cfg);
    RunTracks(cfg, from, states, run, k);
    KeptAlong(Along(states, k), from, run, n, WellFormed, Effects(cfg));
  }

  // --------------------------------------------------------- duration cap

  /** No capped holder has more than the maximum left. */
  predicate WithinCap(cfg: Config, r: Resource, now: int) {
    forall h :: h in r.holders && Capped(cfg, h.user) ==> Remaining(h, now) <= cfg.maxDuration
  }

  lemma TransitionKeepsCap(cfg: Config, c: Command, r: Resource, t: int, now: int, r': Resource)
    requires t <= now && Transition(cfg, c, r, now, r') && WithinCap(cfg, r, t)
    ensures WithinCap(cfg, r', now)
  {
    assert WithinCap(cfg, r, now);
    if r' != r && c.Sweep? {
      forall h | h in r'.holders && Capped(cfg, h.user) ensures Remaining(h, now) <= cfg.maxDuration {
        if r.status != Idle { SurvivorsIff(cfg, r.holders, now, h); }
      }
    }
  }

  function Capping(cfg: Config): (Resource, int) -> bool {
    (r: Resource, t: int) => WithinCap(cfg, r, t)
  }

  lemma CapPreserved(cfg: Config)
    ensures Preserves(Capping(cfg), Effects(cfg))
  {
    forall c, r, t, now, r' | Capping(cfg)(r, t) && t <= now && Effects(cfg)(c, r, now, r') ensures Capping(cfg)(r', now) {
      TransitionKeepsCap(cfg, c, r, t, now, r');
    }
  }

  /** Whatever is renewed, claimed, preempted or swept, the cap holds throughout every run. */
  lemma RunKeepsCap(cfg: Config, from: int, states: seq<State>, run: seq<Timed<Command>>, n: nat, k: Key)
    requires IsRun(cfg, from, states, run) && n <= |run| && k in states[0] && WithinCap(cfg, states[0][k], from)
    ensures k in states[n] && WithinCap(cfg, states[n][k], TimeAt(from, run, n))
  {
    CapPreserved(cfg);
    RunTracks(cfg, from, states, run, k);
    KeptAlong(Along(states, k), from, run, n, Capping(cfg), Effects(cfg));
  }

  // --------------------------------------------------------- claim windows

  /** Only the head of an idle resource's queue is ever prompted. */
  predicate ClaimOrder(r: Resource) {
    forall i :: 0 <= i < |r.bookings| && r.bookings[i].notified ==> i == 0 && r.status == Idle
  }

  lemma {:induction false} RemoveKeepsPromptedHead(list: seq<Stake>, u: UserId)
    requires forall i :: 1 <= i < |list| ==> !list[i].notified
    ensures forall i :: 1 <= i < |Remove(list, u)| ==> !Remove(list, u)[i].notified
    ensures Remove(list, u) != [] && Remove(list, u)[0].notified ==>
              Remove(list, u)[0] == list[0] && list[0].user != u
    ensures list != [] && list[0].user == u ==> Remove(list, u) == list[1..]
  {
    if list != [] && list[0].user != u {
      RemoveKeepsPromptedHead(list[1..], u);
      var r := Remove(list, u);
      forall i | 1 <= i < |r| ensures !r[i].notified {
        assert r[i] in Remove(list[1..], u);
        assert r[i] in list[1..];
      }
    }
  }

  lemma TransitionKeepsClaimOrder(cfg: Config, c: Command, r: Resource, t: int, now: int, r': Resource)
    requires WellFormed(r, t) && t <= now && Transition(cfg, c, r, now, r')
    requires ClaimOrder(r)
    ensures ClaimOrder(r')
  {
    if r' != r {
      match c
      case Lock(u, _, _, _) => RemoveKeepsPromptedHead(r.bookings, u);
      case Unlock(u, _) => RemoveKeepsPromptedHead(r.bookings, u);
      case UnlockAny(u) => RemoveKeepsPromptedHead(r.bookings, u);
      case _ =>
    }
  }

  function Claiming(): (Resource, int) -> bool {
    (r: Resource, t: int) => WellFormed(r, t) && ClaimOrder(r)
  }

  lemma ClaimOrderPreserved(cfg: Config)
    ensures Preserves(Claiming(), Effects(cfg))
  {
    forall c, r, t, now, r' | Claiming()(r, t) && t <= now && Effects(cfg)(c, r, now, r') ensures Claiming()(r', now) {
      TransitionKeepsWellFormed(cfg, c, r, t, now, r');
      TransitionKeepsClaimOrder(cfg, c, r, t, now, r');
    }
  }

  lemma RunKeepsClaimOrder(cfg: Config, from: int, states: seq<State>, run: seq<Timed<Command>>, n: nat, k: Key)
    requires IsRun(cfg, from, states, run) && n <= |run| && k in states[0] && WellFormed(states[0][k], from)
    requires ClaimOrder(states[0][k])
    ensures k in states[n] && WellFormed(states[n][k], TimeAt(from, run, n)) && ClaimOrder(states[n][k])
  {
    ClaimOrderPreserved(cfg);
    RunTracks(cfg, from, states, run, k);
    KeptAlong(Along(states, k), from, run, n, Claiming(), Effects(cfg));
  }

  /** `b` waits, prompted, at the head of an idle resource. */
  predicate Waiting(r: Resource, b: Stake) {
    r.status == Idle && r.bookings != [] && r.bookings[0] == b && b.notified
  }

  /** A prompted head was either already waiting, unchanged, or has just been prompted by this very sweep. */
  lemma PromptOrigin(cfg: Config, c: Command, r: Resource, t: int, now: int, r': Resource, b: Stake)
    requires WellFormed(r, t) && t <= now && Transition(cfg, c, r, now, r')
    requires ClaimOrder(r) && Waiting(r', b)
    ensures Waiting(r, b) || (c.Sweep? && b.start == now)
  {
    if r' != r {
      match c
      case Unlock(u, _) => RemoveKeepsPromptedHead(r.bookings, u);
      case UnlockAny(u) => RemoveKeepsPromptedHead(r.bookings, u);
      case _ =>
    }
  }

  function WaitingFor(b: Stake): Resource -> bool { (r: Resource) => Waiting(r, b) }

  function PromptedAt(b: Stake): (Command, int) -> bool { (c: Command, now: int) => c.Sweep? && b.start == now }

  lemma WaitingOriginates(cfg: Config, b: Stake)
    ensures Originates(Claiming(), Effects(cfg), WaitingFor(b), PromptedAt(b))
  {
    forall c, r, t, now, r' | Claiming()(r, t) && t <= now && Effects(cfg)(c, r, now, r') && WaitingFor(b)(r')
      ensures WaitingFor(b)(r) || PromptedAt(b)(c, now)
    {
      PromptOrigin(cfg, c, r, t, now, r', b);
    }
  }

  /**
   * A claim window over a whole run: a head that is prompted after `n` steps has been waiting, the same
   * record on an idle resource, in every state since step `j`, and step `j` is the start of the run or
   * the sweep that prompted it, at exactly its start time.
   */
  lemma ClaimWindowHistory(cfg: Config, from: int, states: seq<State>, run: seq<Timed<Command>>, n: nat, k: Key, b: Stake)
    returns (j: nat)
    requires IsRun(cfg, from, states, run) && n <= |run| && k in states[0] && WellFormed(states[0][k], from)
    requires ClaimOrder(states[0][k])
    requires k in states[n] && Waiting(states[n][k], b)
    ensures j <= n
    ensures forall m :: j <= m <= n ==> k in states[m] && Waiting(states[m][k], b)
    ensures j > 0 ==> run[j - 1].cmd.Sweep? && run[j - 1].at == b.start
  {
    ClaimOrderPreserved(cfg);
    WaitingOriginates(cfg, b);
    RunTracks(cfg, from, states, run, k);
    j := HeldSince(Along(states, k), from, run, n, Claiming(), Effects(cfg), WaitingFor(b), PromptedAt(b));
    forall m | j <= m <= n ensures k in states[m] && Waiting(states[m][k], b) {
      assert WaitingFor(b)(Along(states, k)[m]);
    }
  }

  /** While a head waits, nobody but its user (or a preempting take) gets the resource. */
  lemma WindowIsExclusive(cfg: Config, c: Command, r: Resource, t: int, now: int, r': Resource, b: Stake)
    requires WellFormed(r, t) && t <= now && Transition(cfg, c, r, now, r')
    requires Waiting(r, b) && r'.holders != []
    ensures (c.Lock? && c.user == b.user) || c.Take?
  {
    if c.Lock? {
      assert !Has(r.holders, c.user);
    }
  }

  /**
   * A sweep takes the prompted head away exactly when its window is over; the next booker, if any,
   * is then prompted with a full window, and nobody else is touched.
   */
  lemma WindowTimesOut(cfg: Config, r: Resource, t: int, now: int, b: Stake)
    requires WellFormed(r, t) && t <= now && Waiting(r, b)
    ensures now - b.start < CLAIM_WINDOW <==> SweepOne(cfg, r, now) == r
    ensures now - b.start >= CLAIM_WINDOW <==> !Has(SweepOne(cfg, r, now).bookings, b.user)
    ensures now - b.start >= CLAIM_WINDOW ==>
              var q := SweepOne(cfg, r, now).bookings;
              && |q| == |r.bookings| - 1
              && (|q| > 0 ==> q[0] == r.bookings[1].(notified := true, start := now)
                              && !TimedOut(q[0], now + CLAIM_WINDOW - 1) && q[1..] == r.bookings[2..])
  {
    DistinctParts(r.holders, r.bookings);
    var q := SweepOne(cfg, r, now).bookings;
    if now - b.start >= CLAIM_WINDOW {
      forall i | 0 <= i < |q| ensures q[i].user != b.user {
        assert q[i].user == r.bookings[i + 1].user;
      }
    } else {
      assert r.bookings[0].user == b.user;
      assert Has(r.bookings, b.user);
    }
  }
}
