/** The stored resources as mutable objects, and the loops that read and write a single one. */
module Slots {
  import opened Leases
  import opened Expiry
  import opened QueueRules
  import opened QueueWake
  import Node = NodeRules

  /** One resource record of the bot state; views share these objects, they never copy them. */
  class Slot {
    var status: Status
    var holders: seq<Stake>
    var bookings: seq<Stake>

    constructor (status: Status, holders: seq<Stake>, bookings: seq<Stake>)
      ensures Value() == Resource(status, holders, bookings)
    {
      this.status, this.holders, this.bookings := status, holders, bookings;
    }

    function Value(): Resource
      reads this
    {
      Resource(status, holders, bookings)
    }

    // ------------------------------------------------- queue bot commands

    method Lock(u: UserId, duration: int, explicit: bool, now: int)
      modifies this
      ensures Value() == LockOne(old(Value()), u, duration, explicit, now)
    {
      status := Exclusive;
      var booking := Find(bookings, u);
      bookings := Remove(bookings, u);
      var total := if !explicit && booking.Some? then booking.value.duration else duration;
      var mine := Find(holders, u);
      var lease: Stake;
      if mine.None? {
        lease := Stake(u, now, total, false);
      } else {
        lease := mine.value;
        total := total + lease.duration;
      }
      lease := lease.(duration := total, notified := false);
      holders := [lease];
    }

    method Book(u: UserId, duration: int, now: int)
      modifies this`bookings
      ensures Value() == BookOne(old(Value()), u, duration, now)
    {
      bookings := bookings + [Stake(u, now, duration, false)];
    }

    /** Preempted holders go to the front of the queue one by one, last holder first. */
    method Requeue(u: UserId, now: int)
      requires Started(Value(), now)
      modifies this`bookings
      ensures bookings == Requeued(holders, u, now) + old(bookings)
    {
      var i := |holders|;
      while i > 0
        invariant 0 <= i <= |holders|
        invariant bookings == Requeued(holders[i..], u, now) + old(bookings)
      {
        i := i - 1;
        assert holders[i..][0] == holders[i] && holders[i..][1..] == holders[i + 1..];
        if holders[i].user != u {
          var left := RemainingChecked(holders[i], now);
          if left > 0 {
            bookings := [Stake(holders[i].user, now, left, false)] + bookings;
          }
        }
      }
    }

    method Unprompt()
      modifies this`bookings
      ensures bookings == Unprompted(old(bookings))
    {
      var i := 0;
      while i < |bookings|
        invariant 0 <= i <= |bookings| == |old(bookings)|
        invariant forall j :: 0 <= j < i ==> bookings[j] == old(bookings)[j].(notified := false)
        invariant forall j :: i <= j < |bookings| ==> bookings[j] == old(bookings)[j]
      {
        bookings := bookings[i := bookings[i].(notified := false)];
        i := i + 1;
      }
    }

    /** The queue a take leaves: preempted holders first, then the waiting, all un-prompted. */
    method RequeueAll(u: UserId, now: int)
      requires Started(Value(), now)
      modifies this`bookings
      ensures bookings == Unprompted(Requeued(holders, u, now) + Remove(old(bookings), u))
    {
      bookings := Remove(bookings, u);
      Requeue(u, now);
      Unprompt();
    }

    method Take(u: UserId, duration: int, now: int)
      requires Started(Value(), now)
      modifies this
      ensures Value() == TakeOne(old(Value()), u, duration, now)
    {
      status := Exclusive;
      var total := duration;
      var mine := Find(holders, u);
      var lease := Stake(u, now, total, false);
      if mine.Some? {
        lease := mine.value;
        total := total + lease.duration;
      }
      lease := lease.(duration := total, notified := false);
      assert lease == Extended(old(Value()), u, duration, now);
      RequeueAll(u, now);
      holders := [lease];
    }

    method Clear()
      modifies this
      ensures Value() == ClearOne(old(Value()))
    {
      status := Idle;
      holders := [];
    }

    method Kickout()
      modifies this
      ensures Value() == KickoutOne(old(Value()))
    {
      status := Idle;
      holders := [];
      bookings := [];
    }

    method Unlock(u: UserId)
      modifies this
      ensures Value() == UnlockOne(old(Value()), u)
    {
      holders := Remove(holders, u);
      bookings := Remove(bookings, u);
      if |holders| == 0 {
        status := Idle;
      }
    }

    method UnlockAny(u: UserId)
      modifies this
      ensures Value() == UnlockAnyOne(old(Value()), u)
    {
      bookings := Remove(bookings, u);
      if status != Idle {
        holders := Remove(holders, u);
        if |holders| == 0 {
          status := Idle;
        }
      }
    }

    method Opkick(u: UserId) returns (freed: bool)
      modifies this
      ensures Value() == OpkickOne(old(Value()), u)
      ensures freed <==> Has(old(holders), u)
    {
      freed := Find(holders, u).Some?;
      if freed {
        holders := Remove(holders, u);
        if |holders| == 0 {
          status := Idle;
        }
      }
    }

    // -------------------------------------------------- node bot commands

    method NodeLock(u: UserId, duration: int, now: int)
      modifies this
      ensures Value() == Node.NodeLockOne(old(Value()), u, duration, now)
    {
      status := Exclusive;
      var total := duration;
      var mine := Find(holders, u);
      var lease := Stake(u, now, total, false);
      if mine.Some? {
        lease := mine.value;
        total := total + lease.duration;
      }
      lease := lease.(duration := total, notified := false);
      holders := [lease];
    }

    /** Renews the sharer where it stands, or adds it at the end. */
    method Slock(u: UserId, duration: int, now: int)
      modifies this
      ensures Value() == Node.SlockOne(old(Value()), u, duration, now)
    {
      status := Shared;
      var i := 0;
      while i < |holders| && holders[i].user != u
        invariant 0 <= i <= |holders|
        invariant forall j :: 0 <= j < i ==> holders[j].user != u
      {
        i := i + 1;
      }
      if i == |holders| {
        holders := holders + [Stake(u, now, duration, false)];
      } else {
        LengthenAt(holders, u, duration, i);
        holders := holders[i := holders[i].(duration := holders[i].duration + duration, notified := false)];
      }
    }

    // -------------------------------------------------------------- sweep

    /** First pass: marks early warnings, reports, and collects the lapsed users. */
    method MarkHolders(cfg: Config, key: Key, now: int)
      returns (changed: bool, notices: seq<Notice>, lapsed: seq<UserId>)
      requires forall h :: h in holders ==> h.start <= now
      modifies this`holders
      ensures holders == MarkAll(cfg, old(holders), now)
      ensures lapsed == Lapsed(old(holders), now)
      ensures notices == HolderNotices(cfg, key, status, old(holders), now)
      ensures changed <==> AnyDue(cfg, old(holders), now)
    {
      changed, notices, lapsed := false, [], [];
      ghost var hs := holders;
      var i := 0;
      while i < |holders|
        invariant 0 <= i <= |hs| == |holders|
        invariant holders == MarkedUpTo(cfg, hs, i, now)
        invariant lapsed == Lapsed(hs[..i], now)
        invariant notices == HolderNotices(cfg, key, status, hs[..i], now)
        invariant changed <==> AnyDue(cfg, hs[..i], now)
      {
        MarkedNext(cfg, hs, i, now);
        ReportNext(cfg, key, status, hs, i, now);
        var h, gone, said := Inspect(cfg, key, status, holders[i], now);
        if gone {
          lapsed := lapsed + [h.user];
        }
        if gone || h != holders[i] {
          changed := true;
        }
        notices := notices + said;
        holders := holders[i := h];
        i := i + 1;
      }
      assert hs[..|hs|] == hs;
    }

    /** Second pass: removes each listed user by name. */
    method RemoveUsers(users: seq<UserId>)
      modifies this`holders
      ensures holders == RemoveEach(old(holders), users)
    {
      var i := 0;
      while i < |users|
        invariant 0 <= i <= |users|
        invariant RemoveEach(holders, users[i..]) == RemoveEach(old(holders), users)
      {
        assert users[i..][0] == users[i] && users[i..][1..] == users[i + 1..];
        holders := Remove(holders, users[i]);
        i := i + 1;
      }
    }

    /** Releases lapsed holders and warns early ones; reports what it did. */
    method Expire(cfg: Config, key: Key, now: int) returns (changed: bool, notices: seq<Notice>)
      requires Started(Value(), now)
      modifies this
      ensures Value() == ExpireByName(cfg, old(Value()), now)
      ensures notices == ExpireNotices(cfg, key, old(Value()), now)
      ensures changed <==> old(status) != Idle && AnyDue(cfg, old(holders), now)
      ensures old(WellFormed(Value(), now)) ==>
                Value() == ExpireOne(cfg, old(Value()), now) && (changed <==> Value() != old(Value()))
    {
      changed, notices := false, [];
      ghost var r := Value();
      if WellFormed(r, now) { NamesAreRecords(cfg, r, now); }
      if status == Idle {
        return;
      }
      var lapsed: seq<UserId>;
      changed, notices, lapsed := MarkHolders(cfg, key, now);
      RemoveUsers(lapsed);
      if |holders| == 0 {
        status := Idle;
      }
    }

    /** Prompts the first booker of an idle resource, or replaces one whose window is over. */
    method Prompt(key: Key, now: int) returns (changed: bool, notices: seq<Notice>)
      requires Distinct(bookings)
      modifies this`bookings
      ensures Value() == PromptOne(old(Value()), now)
      ensures notices == PromptNotices(key, old(Value()), now)
      ensures changed <==> Value() != old(Value())
    {
      changed, notices := false, [];
      if status == Idle && bookings != [] {
        var first := bookings[0];
        if !first.notified {
          bookings := [first.(notified := true, start := now)] + bookings[1..];
          changed, notices := true, [ClaimReady(key, first.user)];
          assert bookings[0].notified;
        } else if now - first.start >= CLAIM_WINDOW {
          bookings := Remove(bookings, first.user);
          changed, notices := true, [ClaimTimedOut(key, first.user)];
          if bookings != [] {
            first := bookings[0];
            bookings := [first.(notified := true, start := now)] + bookings[1..];
            notices := notices + [ClaimReady(key, first.user)];
          }
        }
      }
    }

    /** The least wake-up any holder asks for. */
    method HolderDelay(cfg: Config, now: int) returns (best: Option<int>)
      requires Started(Value(), now) && (status == Idle ==> holders == [])
      ensures best.None? ==> forall x :: !HolderCandidate(cfg, Value(), now, x)
      ensures best.Some? ==> HolderCandidate(cfg, Value(), now, best.value)
      ensures best.Some? ==> forall x :: HolderCandidate(cfg, Value(), now, x) ==> best.value <= x
    {
      best := None;
      if status == Idle {
        return;
      }
      var i := 0;
      while i < |holders|
        invariant 0 <= i <= |holders|
        invariant best.Some? ==> HolderCandidate(cfg, Value(), now, best.value)
        invariant forall j :: 0 <= j < i && Remaining(holders[j], now) > 0 ==>
                    best.Some? && best.value <= HolderWake(cfg, holders[j], now)
      {
        var h := holders[i];
        var left := RemainingChecked(h, now);
        if left > 0 {
          var next := if cfg.earlyNotify && !h.notified then left - cfg.timeAlert else left;
          if best.None? || next < best.value {
            best := Some(next);
          }
        }
        i := i + 1;
      }
    }

    /** The least wake-up this resource asks for, its queue included. */
    method Delay(cfg: Config, now: int) returns (best: Option<int>)
      requires Started(Value(), now) && (status == Idle ==> holders == [])
      ensures best.None? ==> forall x :: !Candidate(cfg, Value(), now, x)
      ensures best.Some? ==> Candidate(cfg, Value(), now, best.value)
      ensures best.Some? ==> forall x :: Candidate(cfg, Value(), now, x) ==> best.value <= x
    {
      best := HolderDelay(cfg, now);
      if bookings != [] {
        var first := bookings[0];
        var next := 1;
        if first.notified && first.start != 0 {
          var left := CLAIM_WINDOW - (now - first.start);
          next := if left > 0 then left else 0;
        }
        assert Candidate(cfg, Value(), now, next);
        if best.None? || next < best.value {
          best := Some(next);
        }
      }
    }
  }

  lemma {:induction false} LengthenAt(hs: seq<Stake>, u: UserId, duration: int, i: nat)
    requires i < |hs| && hs[i].user == u && forall j :: 0 <= j < i ==> hs[j].user != u
    ensures Node.Lengthen(hs, u, duration) ==
            hs[i := hs[i].(duration := hs[i].duration + duration, notified := false)]
  {
    if i > 0 {
      assert hs[0].user != u;
      LengthenAt(hs[1..], u, duration, i - 1);
      assert hs == [hs[0]] + hs[1..];
    }
  }

  /** Expiry as the sweep performs it: everybody due is marked, and then each lapsed user is removed by name. */
  function ExpireByName(cfg: Config, r: Resource, now: int): Resource {
    if r.status == Idle then r
    else
      var hs := RemoveEach(MarkAll(cfg, r.holders, now), Lapsed(r.holders, now));
      Resource(if hs == [] then Idle else r.status, hs, r.bookings)
  }

  /** Where every user has one record, that is the expiry of the lapsed records, and it changes something when one is due. */
  lemma NamesAreRecords(cfg: Config, r: Resource, now: int)
    requires WellFormed(r, now)
    ensures ExpireByName(cfg, r, now) == ExpireOne(cfg, r, now)
    ensures r.status != Idle && AnyDue(cfg, r.holders, now) <==> ExpireOne(cfg, r, now) != r
  {
    DistinctParts(r.holders, r.bookings);
    RemoveLapsed(cfg, r.holders, now);
    if r.status != Idle { ExpireChanges(cfg, r, now); }
  }

  /** Expiry changes a resource in use exactly when something is due. */
  lemma ExpireChanges(cfg: Config, r: Resource, now: int)
    requires WellFormed(r, now) && r.status != Idle
    ensures AnyDue(cfg, r.holders, now) <==> ExpireOne(cfg, r, now) != r
  {
    AnyDueIff(cfg, r.holders, now);
    if HoldersSettled(cfg, r.holders, now) { SettledFixpoint(cfg, "", r.status, r.holders, now); }
    if ExpireOne(cfg, r, now) == r { FixpointSettled(cfg, r.holders, now); }
  }

  /** What a sweep does about one holder: release it, warn it, or leave it. */
  method Inspect(cfg: Config, key: Key, mode: Status, h: Stake, now: int)
    returns (h': Stake, gone: bool, said: seq<Notice>)
    requires h.start <= now
    ensures h' == Mark(cfg, h, now) && (h' != h <==> EarlyDue(cfg, h, now))
    ensures gone <==> Remaining(h, now) == 0
    ensures said == if Alerts(cfg, h, now) then [Expiring(key, h.user, mode, Remaining(h, now))] else []
  {
    h', gone, said := h, false, [];
    var left := RemainingChecked(h, now);
    if left <= 0 {
      gone := true;
      if !h.notified {
        said := [Expiring(key, h.user, mode, left)];
      }
    }
    if cfg.earlyNotify && !h.notified && 0 < left <= cfg.timeAlert {
      h' := h.(notified := true);
      said := said + [Expiring(key, h.user, mode, left)];
    }
  }

  /** Remaining seconds; the original asserts that no lease starts in the future. */
  function RemainingChecked(s: Stake, now: int): (r: int)
    requires s.start <= now
    ensures r == Remaining(s, now) && 0 <= r
  {
    var elapsed := now - s.start;
    if s.duration - elapsed > 0 then s.duration - elapsed else 0
  }

  /** The users a sweep releases, in holder order. */
  function Lapsed(hs: seq<Stake>, now: int): seq<UserId> {
    if hs == [] then []
    else (if Remaining(hs[0], now) == 0 then [hs[0].user] else []) + Lapsed(hs[1..], now)
  }

  /** Some holder is to be released or warned. */
  predicate AnyDue(cfg: Config, hs: seq<Stake>, now: int) {
    hs != [] && (Remaining(hs[0], now) == 0 || EarlyDue(cfg, hs[0], now) || AnyDue(cfg, hs[1..], now))
  }

  lemma {:induction false} AnyDueIff(cfg: Config, hs: seq<Stake>, now: int)
    ensures AnyDue(cfg, hs, now) <==> !HoldersSettled(cfg, hs, now)
  {
    if hs != [] {
      AnyDueIff(cfg, hs[1..], now);
      assert forall h :: h in hs <==> h == hs[0] || h in hs[1..];
    }
  }

  /** Both reports grow by what the next holder adds. */
  lemma {:induction false} ReportGrows(cfg: Config, key: Key, mode: Status, hs: seq<Stake>, h: Stake, now: int)
    ensures Lapsed(hs + [h], now) == Lapsed(hs, now) + (if Remaining(h, now) == 0 then [h.user] else [])
    ensures HolderNotices(cfg, key, mode, hs + [h], now) ==
            HolderNotices(cfg, key, mode, hs, now)
            + (if Alerts(cfg, h, now) then [Expiring(key, h.user, mode, Remaining(h, now))] else [])
    ensures AnyDue(cfg, hs + [h], now) <==> AnyDue(cfg, hs, now) || Remaining(h, now) == 0 || EarlyDue(cfg, h, now)
  {
    if hs == [] {
      assert [] + [h] == [h];
    } else {
      assert (hs + [h])[1..] == hs[1..] + [h];
      ReportGrows(cfg, key, mode, hs[1..], h, now);
    }
  }

  /** The holder list once its first `i` records are marked. */
  function MarkedUpTo(cfg: Config, hs: seq<Stake>, i: nat, now: int): seq<Stake>
    requires i <= |hs|
  {
    MarkAll(cfg, hs[..i], now) + hs[i..]
  }

  lemma MarkedNext(cfg: Config, hs: seq<Stake>, i: nat, now: int)
    requires i < |hs|
    ensures MarkedUpTo(cfg, hs, i, now)[i] == hs[i]
    ensures MarkedUpTo(cfg, hs, i, now)[i := Mark(cfg, hs[i], now)] == MarkedUpTo(cfg, hs, i + 1, now)
  {
  }

  /** What reading one more holder adds to the report. */
  lemma ReportNext(cfg: Config, key: Key, mode: Status, hs: seq<Stake>, i: nat, now: int)
    requires i < |hs|
    ensures Lapsed(hs[..i + 1], now) == Lapsed(hs[..i], now) + (if Remaining(hs[i], now) == 0 then [hs[i].user] else [])
    ensures HolderNotices(cfg, key, mode, hs[..i + 1], now) ==
            HolderNotices(cfg, key, mode, hs[..i], now)
            + (if Alerts(cfg, hs[i], now) then [Expiring(key, hs[i].user, mode, Remaining(hs[i], now))] else [])
    ensures AnyDue(cfg, hs[..i + 1], now) <==>
            AnyDue(cfg, hs[..i], now) || Remaining(hs[i], now) == 0 || EarlyDue(cfg, hs[i], now)
  {
    assert hs[..i + 1] == hs[..i] + [hs[i]];
    ReportGrows(cfg, key, mode, hs[..i], hs[i], now);
  }

  function RemoveEach(list: seq<Stake>, users: seq<UserId>): seq<Stake>
    decreases |users|
  {
    if users == [] then list else RemoveEach(Remove(list, users[0]), users[1..])
  }

  /** Removing by name only drops records. */
  lemma {:induction false} RemoveEachWithin(list: seq<Stake>, users: seq<UserId>, h: Stake)
    requires h in RemoveEach(list, users)
    ensures h in list
    decreases |users|
  {
    if users != [] {
      RemoveEachWithin(Remove(list, users[0]), users[1..], h);
      RemovedWithin(list, users[0], h);
    }
  }

  lemma {:induction false} RemovedWithin(list: seq<Stake>, u: UserId, h: Stake)
    requires h in Remove(list, u)
    ensures h in list
  {
    if list != [] && list[0].user != u && h != list[0] { RemovedWithin(list[1..], u, h); }
  }

  lemma {:induction false} RemoveEachKeepsHead(s: Stake, rest: seq<Stake>, users: seq<UserId>)
    requires s.user !in users
    ensures RemoveEach([s] + rest, users) == [s] + RemoveEach(rest, users)
    decreases |users|
  {
    if users != [] {
      assert Remove([s] + rest, users[0]) == [s] + Remove(rest, users[0]) by {
        assert ([s] + rest)[1..] == rest;
      }
      RemoveEachKeepsHead(s, Remove(rest, users[0]), users[1..]);
    }
  }

  lemma {:induction false} LapsedUsers(hs: seq<Stake>, now: int, u: UserId)
    requires u in Lapsed(hs, now)
    ensures Has(hs, u)
  {
    if Remaining(hs[0], now) == 0 && hs[0].user == u {
    } else {
      LapsedUsers(hs[1..], now, u);
      var i :| 0 <= i < |hs[1..]| && hs[1..][i].user == u;
      assert hs[i + 1].user == u;
    }
  }

  lemma HeadNotLapsedLater(hs: seq<Stake>, now: int)
    requires hs != [] && Distinct(hs)
    ensures hs[0].user !in Lapsed(hs[1..], now)
  {
    if hs[0].user in Lapsed(hs[1..], now) {
      LapsedUsers(hs[1..], now, hs[0].user);
      assert false;
    }
  }

  /** Removing the lapsed users by name, one after the other, leaves exactly the survivors. */
  lemma {:induction false} RemoveLapsed(cfg: Config, hs: seq<Stake>, now: int)
    requires Distinct(hs)
    ensures RemoveEach(MarkAll(cfg, hs, now), Lapsed(hs, now)) == Survivors(cfg, hs, now)
  {
    if hs != [] {
      assert Distinct(hs[1..]);
      RemoveLapsed(cfg, hs[1..], now);
      var m, rest, tail := Mark(cfg, hs[0], now), MarkAll(cfg, hs[1..], now), Lapsed(hs[1..], now);
      assert MarkAll(cfg, hs, now) == [m] + rest;
      if Remaining(hs[0], now) == 0 {
        assert ([hs[0].user] + tail)[1..] == tail;
        assert Remove([m] + rest, hs[0].user) == rest;
      } else {
        HeadNotLapsedLater(hs, now);
        RemoveEachKeepsHead(m, rest, tail);
        assert [] + tail == tail;
      }
    }
  }
}
