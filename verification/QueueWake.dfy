/** The delay a queue sweep returns: it misses nothing, and it is exact. */
module QueueWake {
  import opened Leases
  import opened Expiry
  import opened QueueRules
  import opened QueueInvariants

  /** Seconds to the timeout of a prompted head; an unprompted one is polled every second. */
  function BookingWake(b: Stake, now: int): int {
    if b.notified && b.start != 0 then
      if CLAIM_WINDOW - (now - b.start) > 0 then CLAIM_WINDOW - (now - b.start) else 0
    else 1
  }

  predicate Candidate(cfg: Config, r: Resource, now: int, x: int) {
    HolderCandidate(cfg, r, now, x) || (r.bookings != [] && x == BookingWake(r.bookings[0], now))
  }

  ghost function Candidates(cfg: Config, s: State, now: int): iset<int> {
    iset k, x | k in s && Candidate(cfg, s[k], now, x) :: x
  }

  /** A sweep at `now` would change nothing and say nothing. */
  predicate Settled(cfg: Config, r: Resource, now: int) {
    && HoldersSettled(cfg, r.holders, now)
    && (r.status == Idle <==> r.holders == [])
    && (r.status == Idle && r.bookings != [] ==> r.bookings[0].notified && !TimedOut(r.bookings[0], now))
  }

  lemma SettledIff(cfg: Config, key: Key, r: Resource, t: int, now: int)
    requires WellFormed(r, t)
    ensures Settled(cfg, r, now) <==> SweepOne(cfg, r, now) == r
    ensures Settled(cfg, r, now) ==> SweepOneNotices(cfg, key, r, now) == []
  {
    var e := ExpireOne(cfg, r, now);
    if HoldersSettled(cfg, r.holders, now) {
      SettledFixpoint(cfg, key, r.status, r.holders, now);
    }
    if SweepOne(cfg, r, now) == r {
      assert e.holders == r.holders;
      if r.status != Idle { FixpointSettled(cfg, r.holders, now); }
    }
  }

  lemma SweptIsSettled(cfg: Config, r: Resource, t: int, now: int)
    requires WellFormed(r, t) && t <= now
    ensures Settled(cfg, SweepOne(cfg, r, now), now)
  {
    if r.status != Idle { SurvivorsSettled(cfg, r.holders, now); }
  }

  /** A settled resource stays settled until its earliest candidate. */
  lemma QuietUntil(cfg: Config, r: Resource, now: int, t: int)
    requires SaneLead(cfg) && Settled(cfg, r, now) && now <= t
    requires forall x :: Candidate(cfg, r, now, x) ==> t < now + AtLeastOne(x)
    ensures Settled(cfg, r, t)
  {
    forall h | h in r.holders ensures t < now + HolderWake(cfg, h, now) {
      UnsettledAt(cfg, r.holders, now, h);
      assert Candidate(cfg, r, now, HolderWake(cfg, h, now));
    }
    SettledUntil(cfg, r.holders, now, t);
    if r.bookings != [] { assert Candidate(cfg, r, now, BookingWake(r.bookings[0], now)); }
  }

  /**
   * Nothing is missed: after a sweep at `now` that announces `d`, every sweep strictly before
   * `now + d` (at any later time, if it announces nothing) changes no resource and reports nothing.
   */
  lemma SweepMissesNothing(cfg: Config, s: State, from: int, now: int, d: Option<int>, t: int, k: Key)
    requires SaneLead(cfg) && WellFormedState(s, from) && from <= now <= t
    requires var s' := SweepAll(cfg, s, now); Earliest(Candidates(cfg, s', now), d)
    requires d.Some? ==> t < now + d.value
    requires k in s
    ensures var s' := SweepAll(cfg, s, now);
            SweepOne(cfg, s'[k], t) == s'[k] && SweepOneNotices(cfg, k, s'[k], t) == []
  {
    var s' := SweepAll(cfg, s, now);
    var r := s'[k];
    assert WellFormed(s[k], from);
    SweptIsSettled(cfg, s[k], from, now);
    SweepKeeps(cfg, s[k], from, now);
    forall x | Candidate(cfg, r, now, x) ensures t < now + AtLeastOne(x) {
      assert x in Candidates(cfg, s', now);
    }
    QuietUntil(cfg, r, now, t);
    SettledIff(cfg, k, r, now, t);
  }

  /** At a candidate later than the poll, something does change. */
  lemma CandidateIsAChange(cfg: Config, r: Resource, now: int, d: int)
    requires SaneLead(cfg) && Settled(cfg, r, now) && ClaimOrder(r)
    requires Candidate(cfg, r, now, d) && d >= 2
    ensures !Settled(cfg, r, now + d)
  {
    if HolderCandidate(cfg, r, now, d) {
      var h :| h in r.holders && Remaining(h, now) > 0 && d == HolderWake(cfg, h, now);
      UnsettledAt(cfg, r.holders, now, h);
    }
  }

  lemma Announcer(cfg: Config, s: State, now: int, d: int) returns (k: Key)
    requires d >= 2 && Earliest(Candidates(cfg, s, now), Some(d))
    ensures k in s && Candidate(cfg, s[k], now, d)
  {
    assert d in Candidates(cfg, s, now);
    k :| k in s && Candidate(cfg, s[k], now, d);
  }

  lemma SweptCandidateIsAChange(cfg: Config, r: Resource, from: int, now: int, d: int)
    requires SaneLead(cfg) && WellFormed(r, from) && from <= now && d >= 2 && ClaimOrder(r)
    requires Candidate(cfg, SweepOne(cfg, r, now), now, d)
    ensures SweepOne(cfg, SweepOne(cfg, r, now), now + d) != SweepOne(cfg, r, now)
  {
    SweptIsSettled(cfg, r, from, now);
    SweepKeeps(cfg, r, from, now);
    TransitionKeepsClaimOrder(cfg, Sweep, r, from, now, SweepOne(cfg, r, now));
    SettledCandidateIsAChange(cfg, SweepOne(cfg, r, now), now, d);
  }

  lemma SettledCandidateIsAChange(cfg: Config, r: Resource, now: int, d: int)
    requires SaneLead(cfg) && WellFormed(r, now) && d >= 2 && ClaimOrder(r) && Settled(cfg, r, now)
    requires Candidate(cfg, r, now, d)
    ensures SweepOne(cfg, r, now + d) != r
  {
    CandidateIsAChange(cfg, r, now, d);
    SettledIff(cfg, "", r, now, now + d);
  }

  /** And the announcement is exact: a delay above the one-second poll is the time of a real change. */
  lemma SweepWakesForAChange(cfg: Config, s: State, from: int, now: int, d: int) returns (k: Key)
    requires SaneLead(cfg) && WellFormedState(s, from) && from <= now && d >= 2
    requires forall q :: q in s ==> ClaimOrder(s[q])
    requires Earliest(Candidates(cfg, SweepAll(cfg, s, now), now), Some(d))
    ensures k in s
    ensures SweepOne(cfg, SweepOne(cfg, s[k], now), now + d) != SweepOne(cfg, s[k], now)
  {
    k := Announcer(cfg, SweepAll(cfg, s, now), now, d);
    assert WellFormed(s[k], from) && ClaimOrder(s[k]);
    SweptCandidateIsAChange(cfg, s[k], from, now, d);
  }

  /** While an unprompted booking heads some queue the bot looks again every second. */
  lemma PollsEverySecond(cfg: Config, s: State, now: int, k: Key, d: Option<int>)
    requires k in s && s[k].bookings != [] && !s[k].bookings[0].notified
    requires Earliest(Candidates(cfg, s, now), d)
    ensures d == Some(1)
  {
    assert Candidate(cfg, s[k], now, 1);
    assert 1 in Candidates(cfg, s, now);
  }

  /** It does not look again at all exactly when nobody holds anything that can run out and nobody waits. */
  lemma RestsIff(cfg: Config, s: State, now: int, d: Option<int>)
    requires Earliest(Candidates(cfg, s, now), d)
    ensures d == None <==>
            forall k :: k in s ==>
              s[k].bookings == [] && (s[k].status != Idle ==> forall h :: h in s[k].holders ==> Remaining(h, now) == 0)
  {
    var all := Candidates(cfg, s, now);
    if k :| k in s && s[k].bookings != [] {
      assert Candidate(cfg, s[k], now, BookingWake(s[k].bookings[0], now));
      assert BookingWake(s[k].bookings[0], now) in all;
    } else if k, h :| k in s && s[k].status != Idle && h in s[k].holders && Remaining(h, now) > 0 {
      assert Candidate(cfg, s[k], now, HolderWake(cfg, h, now));
      assert HolderWake(cfg, h, now) in all;
    } else {
      assert all == iset{};
    }
  }

  // -------------------------------------------------- the lead must be sane

  /** Settled resources stay settled before their earliest candidate, whatever the clock. */
  ghost predicate NeverOversleeps(cfg: Config) {
    forall r, now, t :: Settled(cfg, r, now) && now <= t
                        && (forall x :: Candidate(cfg, r, now, x) ==> t < now + AtLeastOne(x))
                        ==> Settled(cfg, r, t)
  }

  /**
   * A bot's own configuration takes any warning lead, and with a negative one a lease outlives its sweep. (The web
   * service's request schema only takes 30 to 3600 seconds; a bot built straight from a configuration does not.)
   */
  lemma OversleepsIffNegativeLead(cfg: Config)
    ensures NeverOversleeps(cfg) <==> SaneLead(cfg)
  {
    if SaneLead(cfg) {
      forall r, now, t | Settled(cfg, r, now) && now <= t
                         && forall x :: Candidate(cfg, r, now, x) ==> t < now + AtLeastOne(x)
        ensures Settled(cfg, r, t)
      {
        QuietUntil(cfg, r, now, t);
      }
    } else {
      var h := Stake("u", 0, 10, false);
      var r := Resource(Exclusive, [h], []);
      assert Settled(cfg, r, 0);
      assert h in r.holders && Remaining(h, 10) == 0;
      assert !Settled(cfg, r, 10);
    }
  }
}
