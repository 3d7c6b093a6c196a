/** Lease records, resources and the small list helpers every bot shares. */
module Leases {

  type UserId = string
  type Key = string

  datatype Option<+T> = None | Some(value: T) {
    function GetOr(other: T): T { if Some? then value else other }
  }

  datatype Status = Idle | Exclusive | Shared

  /** One user record: a holding when it sits in `holders`, a reservation when in `bookings`. */
  datatype Stake = Stake(user: UserId, start: int, duration: int, notified: bool)

  datatype Resource = Resource(status: Status, holders: seq<Stake>, bookings: seq<Stake>)

  type State = map<Key, Resource>

  /** The configuration values the allocator reads; `cap == -1` means no resource cap. */
  datatype Config = Config(maxDuration: int, whitelist: set<UserId>, forbidRelock: bool, cap: int,
                           earlyNotify: bool, timeAlert: int)

  /** Seconds a notified booking keeps its claim window. */
  const CLAIM_WINDOW: int := 300

  predicate Has(list: seq<Stake>, u: UserId) {
    exists i :: 0 <= i < |list| && list[i].user == u
  }

  function Find(list: seq<Stake>, u: UserId): (r: Option<Stake>)
    ensures r.Some? <==> Has(list, u)
    ensures r.Some? ==> r.value in list && r.value.user == u
  {
    if list == [] then None
    else if list[0].user == u then Some(list[0])
    else
      assert Has(list[1..], u) <==> Has(list, u) by {
        if Has(list, u) {
          var i :| 0 <= i < |list| && list[i].user == u;
          assert list[1..][i - 1].user == u;
        }
      }
      Find(list[1..], u)
  }

  /** Drops the first record of `u`, if any; the others keep their order. */
  function Remove(list: seq<Stake>, u: UserId): (r: seq<Stake>)
    ensures forall s :: s in r ==> s in list
    ensures forall s :: s in list && s.user != u ==> s in r
    ensures !Has(list, u) ==> r == list
  {
    if list == [] then []
    else if list[0].user == u then list[1..]
    else
      assert list == [list[0]] + list[1..];
      assert Has(list[1..], u) ==> Has(list, u);
      [list[0]] + Remove(list[1..], u)
  }

  predicate Distinct(list: seq<Stake>) {
    forall i, j :: 0 <= i < j < |list| ==> list[i].user != list[j].user
  }

  function Remaining(s: Stake, now: int): int {
    if s.duration - (now - s.start) > 0 then s.duration - (now - s.start) else 0
  }

  /** What every stored resource keeps, read at time `now`. */
  predicate WellFormed(r: Resource, now: int) {
    && (r.status == Idle <==> r.holders == [])
    && (r.status == Exclusive ==> |r.holders| == 1)
    && Distinct(r.holders + r.bookings)
    && (forall s :: s in r.holders + r.bookings ==> s.start <= now)
  }

  /** No holder's lease lies ahead of the clock: what `remaining_duration` asserts. */
  predicate Started(r: Resource, now: int) {
    forall h :: h in r.holders ==> h.start <= now
  }

  predicate StartedState(s: State, now: int) {
    forall k :: k in s ==> Started(s[k], now)
  }

  lemma WellFormedIsStarted(s: State, now: int)
    requires WellFormedState(s, now)
    ensures StartedState(s, now)
  {
    forall k, h | k in s && h in s[k].holders ensures h.start <= now {
      assert WellFormed(s[k], now) && h in s[k].holders + s[k].bookings;
    }
  }

  predicate WellFormedState(s: State, now: int) {
    forall k :: k in s ==> WellFormed(s[k], now)
  }

  /** Applies one resource transition to every target key and to nothing else. */
  function ApplyTo(s: State, targets: set<Key>, f: Resource -> Resource): (r: State)
    ensures r.Keys == s.Keys
    ensures forall k :: k in s ==> r[k] == if k in targets then f(s[k]) else s[k]
  {
    map k | k in s :: if k in targets then f(s[k]) else s[k]
  }

  function ToSet(keys: seq<Key>): set<Key> {
    set k | k in keys
  }

  // ---------------------------------------------------------------- list facts

  /** Distinctness of a concatenation, taken apart. */
  lemma DistinctParts(a: seq<Stake>, b: seq<Stake>)
    ensures Distinct(a + b) <==>
            Distinct(a) && Distinct(b) && (forall x, y :: x in a && y in b ==> x.user != y.user)
  {
    if Distinct(a + b) {
      assert forall i :: 0 <= i < |a| ==> (a + b)[i] == a[i];
      assert forall i :: 0 <= i < |b| ==> (a + b)[|a| + i] == b[i];
      forall x, y | x in a && y in b ensures x.user != y.user {
        var i :| 0 <= i < |a| && a[i] == x;
        var j :| 0 <= j < |b| && b[j] == y;
        assert (a + b)[i] == x && (a + b)[|a| + j] == y;
      }
    }
  }

  lemma HasMember(list: seq<Stake>, u: UserId)
    ensures Has(list, u) <==> exists s :: s in list && s.user == u
  {
    if s :| s in list && s.user == u {
      var i :| 0 <= i < |list| && list[i] == s;
    }
  }

  lemma HasTail(list: seq<Stake>, u: UserId)
    requires list != []
    ensures Has(list, u) <==> list[0].user == u || Has(list[1..], u)
  {
    HasMember(list, u);
    HasMember(list[1..], u);
    assert forall s :: s in list <==> s == list[0] || s in list[1..];
  }

  /** In a distinct concatenation no user is on both sides. */
  lemma OnOneSide(a: seq<Stake>, b: seq<Stake>, u: UserId)
    requires Distinct(a + b)
    ensures !(Has(a, u) && Has(b, u))
  {
    DistinctParts(a, b);
    HasMember(a, u);
    HasMember(b, u);
  }

  lemma {:induction false} RemoveDistinct(list: seq<Stake>, u: UserId)
    requires Distinct(list)
    ensures Distinct(Remove(list, u)) && !Has(Remove(list, u), u)
  {
    if list != [] {
      var first, rest := [list[0]], list[1..];
      assert list == first + rest;
      DistinctParts(first, rest);
      if list[0].user == u {
        HasMember(rest, u);
      } else {
        RemoveDistinct(rest, u);
        DistinctParts(first, Remove(rest, u));
        HasMember(Remove(rest, u), u);
        HasMember(first + Remove(rest, u), u);
      }
    }
  }

  lemma FindMember(list: seq<Stake>, s: Stake)
    requires Distinct(list) && s in list
    ensures Find(list, s.user) == Some(s)
  {
    var i :| 0 <= i < |list| && list[i] == s;
    assert Has(list, s.user);
    var f := Find(list, s.user).value;
    var j :| 0 <= j < |list| && list[j] == f;
    assert i == j;
  }
}
