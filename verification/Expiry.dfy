/** Timed expiry of holdings: the part of a sweep all four bots share, and its wake-up time. */
module Expiry {
  import opened Leases

  /** What one sweep tells people, in the order it meets it. */
  datatype Notice =
    | Expiring(key: Key, user: UserId, mode: Status, remaining: int)
    | ClaimReady(key: Key, user: UserId)
    | ClaimTimedOut(key: Key, user: UserId)

  predicate EarlyDue(cfg: Config, h: Stake, now: int) {
    cfg.earlyNotify && !h.notified && 0 < Remaining(h, now) <= cfg.timeAlert
  }

  predicate Alerts(cfg: Config, h: Stake, now: int) {
    !h.notified && (Remaining(h, now) == 0 || EarlyDue(cfg, h, now))
  }

  function Mark(cfg: Config, h: Stake, now: int): Stake {
    if EarlyDue(cfg, h, now) then h.(notified := true) else h
  }

  function MarkAll(cfg: Config, hs: seq<Stake>, now: int): (r: seq<Stake>)
    ensures |r| == |hs|
    ensures forall i :: 0 <= i < |hs| ==> r[i] == Mark(cfg, hs[i], now)
  {
    seq(|hs|, i requires 0 <= i < |hs| => Mark(cfg, hs[i], now))
  }

  /** The surviving holders, early-warned ones marked. */
  function Survivors(cfg: Config, hs: seq<Stake>, now: int): (r: seq<Stake>) {
    if hs == [] then []
    else (if Remaining(hs[0], now) == 0 then [] else [Mark(cfg, hs[0], now)]) + Survivors(cfg, hs[1..], now)
  }

  function HolderNotices(cfg: Config, key: Key, mode: Status, hs: seq<Stake>, now: int): seq<Notice> {
    if hs == [] then []
    else (if Alerts(cfg, hs[0], now) then [Expiring(key, hs[0].user, mode, Remaining(hs[0], now))] else [])
         + HolderNotices(cfg, key, mode, hs[1..], now)
  }

  function ExpireOne(cfg: Config, r: Resource, now: int): Resource {
    if r.status == Idle then r
    else
      var hs := Survivors(cfg, r.holders, now);
      Resource(if hs == [] then Idle else r.status, hs, r.bookings)
  }

  function ExpireNotices(cfg: Config, key: Key, r: Resource, now: int): seq<Notice> {
    if r.status == Idle then [] else HolderNotices(cfg, key, r.status, r.holders, now)
  }

  // ------------------------------------------------------------ next wake-up

  function HolderWake(cfg: Config, h: Stake, now: int): int {
    if cfg.earlyNotify && !h.notified then Remaining(h, now) - cfg.timeAlert else Remaining(h, now)
  }

  /** `x` is a wake-up candidate some holder of `r` contributes. */
  predicate HolderCandidate(cfg: Config, r: Resource, now: int, x: int) {
    r.status != Idle && exists h :: h in r.holders && Remaining(h, now) > 0 && x == HolderWake(cfg, h, now)
  }

  /** The warning lead must not be negative, or a sweep can announce a wake-up after the expiry. */
  predicate SaneLead(cfg: Config) {
    cfg.earlyNotify ==> cfg.timeAlert >= 0
  }

  // ------------------------------------------------------------------- facts

  lemma {:induction false} SurvivorsIff(cfg: Config, hs: seq<Stake>, now: int, s: Stake)
    ensures s in Survivors(cfg, hs, now) <==>
            exists h :: h in hs && Remaining(h, now) > 0 && s == Mark(cfg, h, now)
  {
    if hs != [] {
      SurvivorsIff(cfg, hs[1..], now, s);
      assert forall h :: h in hs <==> h == hs[0] || h in hs[1..];
    }
  }

  /** Expiry keeps the surviving users in their order, each with its own lease. */
  lemma {:induction false} SurvivorsDistinct(cfg: Config, hs: seq<Stake>, now: int)
    requires Distinct(hs)
    ensures Distinct(Survivors(cfg, hs, now))
  {
    if hs != [] {
      assert Distinct(hs[1..]);
      SurvivorsDistinct(cfg, hs[1..], now);
      var rest := Survivors(cfg, hs[1..], now);
      forall s | s in rest ensures s.user != hs[0].user {
        SurvivorsIff(cfg, hs[1..], now, s);
        var h :| h in hs[1..] && s == Mark(cfg, h, now);
        var i :| 0 <= i < |hs[1..]| && hs[1..][i] == h;
        assert hs[i + 1] == h;
      }
      DistinctParts(if Remaining(hs[0], now) == 0 then [] else [Mark(cfg, hs[0], now)], rest);
    }
  }

  /** Survivors of a distinct holder list: at most as many, none when the list is empty. */
  lemma {:induction false} SurvivorsLength(cfg: Config, hs: seq<Stake>, now: int)
    ensures |Survivors(cfg, hs, now)| <= |hs|
  {
    if hs != [] { SurvivorsLength(cfg, hs[1..], now); }
  }

  lemma ExpireKeepsWellFormed(cfg: Config, r: Resource, t: int, now: int)
    requires WellFormed(r, t) && t <= now
    ensures WellFormed(ExpireOne(cfg, r, now), now)
  {
    if r.status != Idle {
      var hs := Survivors(cfg, r.holders, now);
      DistinctParts(r.holders, r.bookings);
      SurvivorsDistinct(cfg, r.holders, now);
      SurvivorsLength(cfg, r.holders, now);
      forall s | s in hs ensures s.start <= now && exists h :: h in r.holders && h.user == s.user {
        SurvivorsIff(cfg, r.holders, now, s);
      }
      DistinctParts(hs, r.bookings);
    }
  }

  /** Nothing left to do at `now`: every holder is live and every due warning has been given. */
  predicate HoldersSettled(cfg: Config, hs: seq<Stake>, now: int) {
    forall h :: h in hs ==> Remaining(h, now) > 0 && !EarlyDue(cfg, h, now)
  }

  lemma {:induction false} SettledFixpoint(cfg: Config, key: Key, mode: Status, hs: seq<Stake>, now: int)
    requires HoldersSettled(cfg, hs, now)
    ensures Survivors(cfg, hs, now) == hs && HolderNotices(cfg, key, mode, hs, now) == []
  {
    if hs != [] {
      SettledFixpoint(cfg, key, mode, hs[1..], now);
      assert hs[0] in hs;
      assert hs == [hs[0]] + hs[1..];
    }
  }

  /** A fixpoint of expiry is settled: the converse of `SettledFixpoint`. */
  lemma {:induction false} FixpointSettled(cfg: Config, hs: seq<Stake>, now: int)
    requires Survivors(cfg, hs, now) == hs
    ensures HoldersSettled(cfg, hs, now)
  {
    forall h | h in hs ensures Remaining(h, now) > 0 && !EarlyDue(cfg, h, now) {
      SurvivorsIff(cfg, hs, now, h);
    }
  }

  lemma SurvivorsSettled(cfg: Config, hs: seq<Stake>, now: int)
    ensures HoldersSettled(cfg, Survivors(cfg, hs, now), now)
  {
    forall s | s in Survivors(cfg, hs, now) ensures Remaining(s, now) > 0 && !EarlyDue(cfg, s, now) {
      SurvivorsIff(cfg, hs, now, s);
    }
  }

  /**
   * A settled holder list stays settled strictly before its earliest wake-up candidate;
   * at the earliest candidate it no longer is.
   */
  lemma SettledUntil(cfg: Config, hs: seq<Stake>, now: int, t: int)
    requires SaneLead(cfg) && HoldersSettled(cfg, hs, now) && now <= t
    requires forall h :: h in hs ==> t < now + HolderWake(cfg, h, now)
    ensures HoldersSettled(cfg, hs, t)
  {
  }

  lemma UnsettledAt(cfg: Config, hs: seq<Stake>, now: int, h: Stake)
    requires SaneLead(cfg) && HoldersSettled(cfg, hs, now) && h in hs
    ensures HolderWake(cfg, h, now) >= 1
    ensures !HoldersSettled(cfg, hs, now + HolderWake(cfg, h, now))
  {
  }

  // ------------------------------------------------- the announced delay

  function AtLeastOne(x: int): int { if x < 1 then 1 else x }

  /** `d` announces the least candidate, never sooner than a second ahead; None when there is none. */
  ghost predicate Earliest(candidates: iset<int>, d: Option<int>) {
    match d
    case None => candidates == iset{}
    case Some(v) => exists x :: x in candidates && v == AtLeastOne(x) && forall y :: y in candidates ==> x <= y
  }

  ghost function HolderCandidates(cfg: Config, s: State, now: int): iset<int> {
    iset k, x | k in s && HolderCandidate(cfg, s[k], now, x) :: x
  }
}
