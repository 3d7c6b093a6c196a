/** Loading persisted state: merged into the configured cluster, holders clamped to the current maximum. */
module Loading {
  import opened Leases
  import opened Runs
  import opened QueueInvariants
  import Node = NodeRules
  import opened QueueRules
  import opened Expiry
  import Slots

  /** A persisted record; files written before booking existed have no booking list. */
  datatype Saved = Saved(status: Status, holders: seq<Stake>, bookings: Option<seq<Stake>>)

  function Clamp(cfg: Config, h: Stake, now: int): Stake {
    var left := Remaining(h, now);
    if Capped(cfg, h.user) && left > cfg.maxDuration then h.(duration := h.duration - left + cfg.maxDuration) else h
  }

  /** A clamped lease has exactly the maximum left; nobody else's lease changes. */
  lemma ClampExact(cfg: Config, h: Stake, now: int)
    ensures Capped(cfg, h.user) && Remaining(h, now) > cfg.maxDuration ==>
              Remaining(Clamp(cfg, h, now), now) == cfg.maxDuration
    ensures Clamp(cfg, h, now) == h <==> !(Capped(cfg, h.user) && Remaining(h, now) > cfg.maxDuration)
    ensures Clamp(cfg, h, now).(duration := h.duration) == h
  {
  }

  /** Clamping shortens some lease of `u` in this list. */
  predicate Shortened(cfg: Config, list: seq<Stake>, u: UserId, now: int) {
    exists i :: 0 <= i < |list| && list[i].user == u && Clamp(cfg, list[i], now) != list[i]
  }

  /** Clamps every record in place; returns whom it shortened. */
  method ApplyMaxDuration(cfg: Config, list: seq<Stake>, now: int) returns (r: seq<Stake>, clamped: seq<UserId>)
    requires forall i :: 0 <= i < |list| ==> list[i].start <= now
    ensures |r| == |list| && forall i :: 0 <= i < |list| ==> r[i] == Clamp(cfg, list[i], now)
    ensures forall u :: u in clamped <==> Shortened(cfg, list, u, now)
  {
    r, clamped := list, [];
    var i := 0;
    while i < |r|
      invariant 0 <= i <= |r| == |list|
      invariant forall j :: 0 <= j < i ==> r[j] == Clamp(cfg, list[j], now)
      invariant forall j :: i <= j < |list| ==> r[j] == list[j]
      invariant forall u :: u in clamped <==>
                  exists j :: 0 <= j < i && list[j].user == u && Clamp(cfg, list[j], now) != list[j]
    {
      var h := r[i];
      ClampExact(cfg, h, now);
      if h.user !in cfg.whitelist {
        var elapsed := now - h.start;
        var left := if h.duration - elapsed > 0 then h.duration - elapsed else 0;
        if cfg.maxDuration > 0 && left > cfg.maxDuration {
          r := r[i := h.(duration := h.duration - left + cfg.maxDuration)];
          clamped := clamped + [h.user];
        }
      }
      i := i + 1;
    }
  }

  /** What a load makes of one configured resource. */
  function Restored(cfg: Config, saved: map<Key, Saved>, k: Key, now: int): Resource {
    if k !in saved then Resource(Idle, [], [])
    else
      var was := saved[k];
      Resource(was.status, seq(|was.holders|, i requires 0 <= i < |was.holders| => Clamp(cfg, was.holders[i], now)),
               was.bookings.GetOr([]))
  }

  /** `h'` is the saved lease `h`, with what it has left, or the maximum if that is less for this user. */
  predicate LeaseKept(cfg: Config, h: Stake, h': Stake, now: int) {
    && h'.user == h.user && h'.start == h.start && h'.notified == h.notified
    && if cfg.maxDuration > 0 && h.user !in cfg.whitelist && Remaining(h, now) > cfg.maxDuration
       then Remaining(h', now) == cfg.maxDuration else h' == h
  }

  /** `r` is the saved record: its status, its leases in order, its queue. */
  predicate KeptAs(cfg: Config, was: Saved, r: Resource, now: int) {
    && r.status == was.status && r.bookings == (if was.bookings.Some? then was.bookings.value else [])
    && |r.holders| == |was.holders| && forall i :: 0 <= i < |r.holders| ==> LeaseKept(cfg, was.holders[i], r.holders[i], now)
  }

  /** A load keeps every saved lease and every saved booking; what was not saved starts free. */
  lemma RestoredIs(cfg: Config, saved: map<Key, Saved>, k: Key, now: int)
    ensures var r := Restored(cfg, saved, k, now);
            if k in saved then KeptAs(cfg, saved[k], r, now) else r == Resource(Idle, [], [])
  {
    if k in saved {
      forall i | 0 <= i < |saved[k].holders|
        ensures LeaseKept(cfg, saved[k].holders[i], Restored(cfg, saved, k, now).holders[i], now)
      {
        ClampExact(cfg, saved[k].holders[i], now);
      }
    }
  }

  /** One configured resource from its saved record. */
  method LoadNode(cfg: Config, saved: map<Key, Saved>, k: Key, now: int) returns (r: Resource, shortened: set<UserId>)
    requires k in saved && forall i :: 0 <= i < |saved[k].holders| ==> saved[k].holders[i].start <= now
    ensures r == Restored(cfg, saved, k, now) && KeptAs(cfg, saved[k], r, now)
    ensures forall u :: u in shortened <==> Shortened(cfg, saved[k].holders, u, now)
  {
    RestoredIs(cfg, saved, k, now);
    var holders, clamped := ApplyMaxDuration(cfg, saved[k].holders, now);
    shortened := set u | u in clamped;
    r := Resource(saved[k].status, holders, if saved[k].bookings.Some? then saved[k].bookings.value else []);
  }

  /** The saved state merged into the configured resources, one saved record at a time. */
  method LoadNodes(cfg: Config, configured: set<Key>, saved: map<Key, Saved>, now: int)
    returns (s: State, clamped: set<UserId>)
    requires forall k, i :: k in saved && 0 <= i < |saved[k].holders| ==> saved[k].holders[i].start <= now
    ensures s == map k | k in configured :: Restored(cfg, saved, k, now)
    ensures forall k :: k in configured ==> if k in saved then KeptAs(cfg, saved[k], s[k], now) else s[k] == Resource(Idle, [], [])
    ensures forall u :: u in clamped <==> exists k :: k in configured && k in saved && Shortened(cfg, saved[k].holders, u, now)
  {
    s, clamped := map k | k in configured :: Resource(Idle, [], []), {};
    var rest := saved.Keys;
    while rest != {}
      invariant rest <= saved.Keys && s.Keys == configured
      invariant forall k :: k in configured ==>
                  s[k] == if k in saved && k !in rest then Restored(cfg, saved, k, now) else Resource(Idle, [], [])
      invariant forall u :: u in clamped <==>
                  exists k :: k in configured && k in saved.Keys - rest && Shortened(cfg, saved[k].holders, u, now)
    {
      var k :| k in rest;
      if k in configured {
        var r, shortened := LoadNode(cfg, saved, k, now);
        clamped := clamped + shortened;
        s := s[k := r];
      }
      rest := rest - {k};
    }
    forall k | k in configured
      ensures if k in saved then KeptAs(cfg, saved[k], s[k], now) else s[k] == Resource(Idle, [], [])
    {
      RestoredIs(cfg, saved, k, now);
    }
  }

  /** What saving a state writes. */
  function SavedOf(s: State): map<Key, Saved> {
    map k | k in s :: Saved(s[k].status, s[k].holders, Some(s[k].bookings))
  }

  lemma ReloadedIs(cfg: Config, s: State, k: Key, now: int)
    requires k in s
    ensures Restored(cfg, SavedOf(s), k, now) == s[k] <==> WithinCap(cfg, s[k], now)
  {
    var r := Restored(cfg, SavedOf(s), k, now);
    forall i | 0 <= i < |s[k].holders|
      ensures r.holders[i] == s[k].holders[i] <==>
              !(Capped(cfg, s[k].holders[i].user) && Remaining(s[k].holders[i], now) > cfg.maxDuration)
    {
      ClampExact(cfg, s[k].holders[i], now);
    }
    if h :| h in s[k].holders && Capped(cfg, h.user) && Remaining(h, now) > cfg.maxDuration {
      var i :| 0 <= i < |s[k].holders| && s[k].holders[i] == h;
      assert r.holders[i] != s[k].holders[i];
    } else {
      assert r.holders == s[k].holders;
    }
  }

  /** A restart loses nothing: what was saved is loaded back, exactly, if and only if no lease exceeds the maximum. */
  lemma RestartIff(cfg: Config, s: State, now: int)
    ensures (map k | k in s.Keys :: Restored(cfg, SavedOf(s), k, now)) == s <==> forall k :: k in s ==> WithinCap(cfg, s[k], now)
  {
    var again := map k | k in s.Keys :: Restored(cfg, SavedOf(s), k, now);
    forall k | k in s ensures again[k] == s[k] <==> WithinCap(cfg, s[k], now) { ReloadedIs(cfg, s, k, now); }
  }

  /**
   * Every loaded state starts inside the duration cap, whatever was saved; queued reservations are kept
   * as they were saved, even above the cap (claiming one is what checks it).
   */
  lemma LoadEstablishesCap(cfg: Config, saved: map<Key, Saved>, k: Key, now: int)
    ensures WithinCap(cfg, Restored(cfg, saved, k, now), now)
    ensures k in saved && saved[k].bookings.Some? ==> Restored(cfg, saved, k, now).bookings == saved[k].bookings.value
  {
    if k in saved {
      var r := Restored(cfg, saved, k, now);
      forall h | h in r.holders && Capped(cfg, h.user) ensures Remaining(h, now) <= cfg.maxDuration {
        var i :| 0 <= i < |r.holders| && r.holders[i] == h;
        ClampExact(cfg, saved[k].holders[i], now);
      }
    }
  }

  /**
   * A record may also be loaded with one user twice. A sweep then removes by name, and may keep a lapsed record and
   * drop a live one; the cap holds all the same.
   */
  lemma ByNameKeepsCap(cfg: Config, r: Resource, t: int, now: int)
    requires WithinCap(cfg, r, t) && t <= now
    ensures WithinCap(cfg, Slots.ExpireByName(cfg, r, now), now)
  {
    if r.status != Idle {
      var marked := MarkAll(cfg, r.holders, now);
      forall h | h in Slots.ExpireByName(cfg, r, now).holders && Capped(cfg, h.user)
        ensures Remaining(h, now) <= cfg.maxDuration
      {
        Slots.RemoveEachWithin(marked, Slots.Lapsed(r.holders, now), h);
        var i :| 0 <= i < |marked| && marked[i] == h;
        assert r.holders[i] in r.holders;
      }
    } else {
      assert forall h :: h in r.holders ==> Remaining(h, now) <= Remaining(h, t);
    }
  }

  /** Two records of one user, the live one first: the sweep drops that one and keeps the lapsed one. */
  lemma ByNameExample(cfg: Config)
    requires !cfg.earlyNotify
    ensures var live, lapsed := Stake("u", 5, 10, false), Stake("u", 0, 5, false);
            && Slots.ExpireByName(cfg, Resource(Shared, [live, lapsed], []), 10).holders == [lapsed]
            && ExpireOne(cfg, Resource(Shared, [live, lapsed], []), 10).holders == [live]
  {
    var live, lapsed := Stake("u", 5, 10, false), Stake("u", 0, 5, false);
    var hs := [live, lapsed];
    assert hs[1..] == [lapsed] && [lapsed][1..] == [];
    assert MarkAll(cfg, hs, 10) == hs;
    assert Slots.Lapsed([lapsed], 10) == ["u"] && Slots.Lapsed(hs, 10) == [] + ["u"] == ["u"];
    assert Remove(hs, "u") == [lapsed] && ["u"][1..] == [];
    assert Slots.RemoveEach(hs, ["u"]) == Slots.RemoveEach([lapsed], []) == [lapsed];
    assert Survivors(cfg, [lapsed], 10) == [];
    assert Survivors(cfg, hs, 10) == [live] + [] == [live];
  }

  /** Loading keeps a well-formed record well formed: clamping changes durations only. */
  lemma LoadKeepsWellFormed(cfg: Config, saved: map<Key, Saved>, k: Key, now: int)
    requires k in saved ==>
               WellFormed(Resource(saved[k].status, saved[k].holders, saved[k].bookings.GetOr([])), now)
    ensures WellFormed(Restored(cfg, saved, k, now), now)
  {
    if k in saved {
      var was, r := Resource(saved[k].status, saved[k].holders, saved[k].bookings.GetOr([])), Restored(cfg, saved, k, now);
      var list, list' := was.holders + was.bookings, r.holders + r.bookings;
      assert |list'| == |list|;
      forall i | 0 <= i < |list| ensures list'[i].user == list[i].user && list'[i].start == list[i].start {
        if i < |was.holders| { ClampExact(cfg, was.holders[i], now); }
      }
    }
  }

  /** So from any load on, no capped holder ever has more than the maximum left. */
  lemma CapFromLoadOn(cfg: Config, saved: map<Key, Saved>, from: int, states: seq<State>, run: seq<Timed<Command>>, n: nat, k: Key)
    requires IsRun(cfg, from, states, run) && n <= |run| && k in states[0]
    requires states[0][k] == Restored(cfg, saved, k, from)
    ensures k in states[n] && WithinCap(cfg, states[n][k], TimeAt(from, run, n))
  {
    LoadEstablishesCap(cfg, saved, k, from);
    RunKeepsCap(cfg, from, states, run, n, k);
  }

  /** The same for node and device bots, whose lists carry no queue. */
  lemma NodeCapFromLoadOn(cfg: Config, saved: map<Key, Saved>, from: int, states: seq<State>, run: seq<Timed<Node.NodeCommand>>,
                          n: nat, k: Key)
    requires Node.IsRun(cfg, from, states, run) && n <= |run| && k in states[0]
    requires states[0][k] == Restored(cfg, saved, k, from)
    ensures k in states[n] && WithinCap(cfg, states[n][k], TimeAt(from, run, n))
  {
    LoadEstablishesCap(cfg, saved, k, from);
    Node.RunKeepsNodeCap(cfg, from, states, run, n, k);
  }
}
