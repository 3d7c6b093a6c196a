/** First come, first served: who enters a queue where, who leaves it, and that nobody overtakes, over whole runs. */
module QueueOrder {
  import opened Leases
  import opened Runs
  import opened Expiry
  import opened QueueRules
  import opened QueueInvariants
  import opened QueueFairness
  import opened QueueEffects
  import opened QueueMessages

  /** `u` stands before `v` in the queue. */
  predicate Ahead(q: seq<Stake>, u: UserId, v: UserId) {
    exists i, j :: 0 <= i < j < |q| && q[i].user == u && q[j].user == v
  }

  /** The same users at the same places. */
  predicate SameUsers(q: seq<Stake>, q': seq<Stake>) {
    |q'| == |q| && forall i :: 0 <= i < |q| ==> q'[i].user == q[i].user
  }

  lemma HasSame(q: seq<Stake>, q': seq<Stake>, u: UserId)
    requires SameUsers(q, q')
    ensures Has(q', u) <==> Has(q, u)
  {
    if i :| 0 <= i < |q| && q[i].user == u { assert q'[i].user == u; }
  }

  lemma HasConcat(a: seq<Stake>, b: seq<Stake>, v: UserId)
    ensures Has(a + b, v) <==> Has(a, v) || Has(b, v)
  {
    HasMember(a, v);
    HasMember(b, v);
    HasMember(a + b, v);
  }

  lemma HasRemoved(q: seq<Stake>, w: UserId, v: UserId)
    requires Distinct(q)
    ensures Has(Remove(q, w), v) <==> v != w && Has(q, v)
  {
    RemoveIsWithout(q, w);
    HasMember(q, v);
    HasMember(Without(q, w), v);
  }

  lemma AheadConcat(a: seq<Stake>, b: seq<Stake>, u: UserId, v: UserId)
    ensures Ahead(a, u, v) || Ahead(b, u, v) || (Has(a, u) && Has(b, v)) ==> Ahead(a + b, u, v)
  {
    var q := a + b;
    if i, j :| 0 <= i < j < |a| && a[i].user == u && a[j].user == v {
      assert q[i].user == u && q[j].user == v;
    } else if i, j :| 0 <= i < j < |b| && b[i].user == u && b[j].user == v {
      assert q[|a| + i].user == u && q[|a| + j].user == v;
    } else if Has(a, u) && Has(b, v) {
      var i :| 0 <= i < |a| && a[i].user == u;
      var j :| 0 <= j < |b| && b[j].user == v;
      assert q[i].user == u && q[|a| + j].user == v;
    }
  }

  lemma AheadSame(q: seq<Stake>, q': seq<Stake>, u: UserId, v: UserId)
    requires SameUsers(q, q') && Ahead(q, u, v)
    ensures Ahead(q', u, v)
  {
    var i, j :| 0 <= i < j < |q| && q[i].user == u && q[j].user == v;
    assert q'[i].user == u && q'[j].user == v;
  }

  lemma AheadTail(q: seq<Stake>, u: UserId, v: UserId)
    requires q != [] && Ahead(q, u, v)
    ensures q[0].user == u || Ahead(q[1..], u, v)
    ensures Has(q[1..], v)
  {
    var i, j :| 0 <= i < j < |q| && q[i].user == u && q[j].user == v;
    assert q[1..][j - 1].user == v;
    if i > 0 { assert q[1..][i - 1].user == u; }
  }

  lemma {:induction false} AheadWithout(q: seq<Stake>, w: UserId, u: UserId, v: UserId)
    requires Ahead(q, u, v) && w != u && w != v
    ensures Ahead(Without(q, w), u, v)
  {
    var first, rest := if q[0].user == w then [] else [q[0]], Without(q[1..], w);
    AheadTail(q, u, v);
    if q[0].user == u {
      HasMember(q[1..], v);
      HasMember(rest, v);
      assert first[0].user == u;
    } else {
      AheadWithout(q[1..], w, u, v);
    }
    AheadConcat(first, rest, u, v);
  }

  // --------------------------------------------------------- what each step does

  /** The sweep finds `v` at the head of a free resource's queue, prompted, with its window over. */
  predicate Dismissed(r: Resource, now: int, v: UserId) {
    && LiveOnly(r.holders, now) == [] && r.bookings != []
    && r.bookings[0].user == v && r.bookings[0].notified && r.bookings[0].start + 300 <= now
  }

  lemma QueueSweptUsers(q: seq<Stake>, r': Resource, told: seq<Notice>, dropped: seq<Notice>, now: int)
    requires QueueSwept("", q, r', told, dropped, now)
    ensures || SameUsers(q, r'.bookings)
            || (r'.holders == [] && q != [] && q[0].notified && q[0].start + 300 <= now && SameUsers(q[1..], r'.bookings))
  {
    if q != [] && q[0].notified && r'.bookings != q { PromptedTail(q, r'.bookings, now); }
  }

  lemma PromptedTail(q: seq<Stake>, q': seq<Stake>, now: int)
    requires q != [] && q' == if |q| == 1 then [] else [PromptedNow(q[1], now)] + q[2..]
    ensures SameUsers(q[1..], q')
  {
  }

  /** A sweep keeps everybody in place, or dismisses the head. */
  lemma SweptUsers(cfg: Config, r: Resource, t: int, now: int)
    requires WellFormed(r, t) && t <= now
    ensures var q, q' := r.bookings, SweepOne(cfg, r, now).bookings;
            SameUsers(q, q') || (q != [] && Dismissed(r, now, q[0].user) && SameUsers(q[1..], q'))
  {
    var r', ns := SweepOne(cfg, r, now), SweepOneNotices(cfg, "", r, now);
    SweptOne(cfg, "", r, t, now);
    QueueSweptUsers(r.bookings, r', Prompting(ns), Cancelling(ns), now);
    assert r'.holders == [] ==> LiveOnly(r.holders, now) == [];
  }

  lemma SplitTaken(q: seq<Stake>, live: seq<Stake>, others: seq<Stake>, now: int)
    requires Preempted(live, q, now) && TakenBack(others, q[|live|..])
    ensures q == q[..|live|] + q[|live|..] && SameUsers(live, q[..|live|]) && SameUsers(others, q[|live|..])
  {
  }

  /** A take puts live holders in front of the others in the queue. */
  lemma TakenUsers(r: Resource, c: Command, t: int, now: int) returns (front: seq<Stake>, back: seq<Stake>)
    requires WellFormed(r, t) && t <= now && c.Take? && !Has(r.holders, c.user)
    ensures TakeOne(r, c.user, c.duration, now).bookings == front + back
    ensures SameUsers(LiveOnly(r.holders, now), front) && SameUsers(Without(r.bookings, c.user), back)
  {
    TakenQueue(r, c.user, c.duration, t, now);
    var live, q := LiveOnly(r.holders, now), TakeOne(r, c.user, c.duration, now).bookings;
    SplitTaken(q, live, Without(r.bookings, c.user), now);
    front, back := q[..|live|], q[|live|..];
  }

  /** So whoever is queued after a take held the resource with time left, or was queued, and is not the taker. */
  lemma TakenHas(r: Resource, c: Command, t: int, now: int, v: UserId)
    requires WellFormed(r, t) && t <= now && c.Take? && !Has(r.holders, c.user)
    ensures Has(TakeOne(r, c.user, c.duration, now).bookings, v) <==>
            v != c.user && (Has(r.bookings, v) || exists h :: h in r.holders && h.user == v && Remaining(h, now) > 0)
  {
    var front, back := TakenUsers(r, c, t, now);
    HasConcat(front, back, v);
    HasSame(LiveOnly(r.holders, now), front, v);
    HasSame(Without(r.bookings, c.user), back, v);
    HasMember(LiveOnly(r.holders, now), v);
    HasMember(r.bookings, v);
    HasMember(Without(r.bookings, c.user), v);
    HasMember(r.holders, c.user);
    forall h ensures h in LiveOnly(r.holders, now) <==> h in r.holders && Remaining(h, now) > 0 {
      LiveOnlyIff(r.holders, now, h);
    }
  }

  // ------------------------------------------------------------- no overtaking

  lemma RemovedKeepsAhead(q: seq<Stake>, w: UserId, u: UserId, v: UserId)
    requires Distinct(q) && Ahead(q, u, v) && Has(Remove(q, w), u) && Has(Remove(q, w), v)
    ensures Ahead(Remove(q, w), u, v)
  {
    RemoveIsWithout(q, w);
    NotWithin(q, w);
    AheadWithout(q, w, u, v);
  }

  lemma TakeKeepsAhead(r: Resource, c: Command, t: int, now: int, u: UserId, v: UserId)
    requires WellFormed(r, t) && t <= now && c.Take? && !Has(r.holders, c.user)
    requires Ahead(r.bookings, u, v) && c.user != u && c.user != v
    ensures Ahead(TakeOne(r, c.user, c.duration, now).bookings, u, v)
  {
    var front, back := TakenUsers(r, c, t, now);
    AheadWithout(r.bookings, c.user, u, v);
    AheadSame(Without(r.bookings, c.user), back, u, v);
    AheadConcat(front, back, u, v);
  }

  lemma DistinctHead(q: seq<Stake>, u: UserId)
    requires q != [] && Distinct(q) && Has(q[1..], u)
    ensures q[0].user != u
  {
    var i :| 0 <= i < |q[1..]| && q[1..][i].user == u;
    assert q[i + 1].user == u;
  }

  lemma SweepKeepsAhead(cfg: Config, r: Resource, t: int, now: int, u: UserId, v: UserId)
    requires WellFormed(r, t) && t <= now && Ahead(r.bookings, u, v) && Has(SweepOne(cfg, r, now).bookings, u)
    ensures Ahead(SweepOne(cfg, r, now).bookings, u, v)
  {
    var q, q' := r.bookings, SweepOne(cfg, r, now).bookings;
    SweptUsers(cfg, r, t, now);
    DistinctParts(r.holders, q);
    if SameUsers(q, q') {
      AheadSame(q, q', u, v);
    } else {
      HasSame(q[1..], q', u);
      DistinctHead(q, u);
      AheadTail(q, u, v);
      AheadSame(q[1..], q', u, v);
    }
  }

  /** No command and no sweep lets `v` pass `u` while both are queued. */
  lemma StaysAhead(cfg: Config, c: Command, r: Resource, t: int, now: int, r': Resource, u: UserId, v: UserId)
    requires WellFormed(r, t) && t <= now && Transition(cfg, c, r, now, r')
    requires Ahead(r.bookings, u, v) && Has(r'.bookings, u) && Has(r'.bookings, v)
    ensures Ahead(r'.bookings, u, v)
  {
    DistinctParts(r.holders, r.bookings);
    if r' != r {
      match c
      case Lock(w, _, _, _) => RemovedKeepsAhead(r.bookings, w, u, v);
      case Book(w, _, duration) => AheadConcat(r.bookings, [Stake(w, now, duration, false)], u, v);
      case Take(w, _, _) =>
        TakenHas(r, c, t, now, u);
        TakenHas(r, c, t, now, v);
        TakeKeepsAhead(r, c, t, now, u, v);
      case Unlock(w, _) => RemovedKeepsAhead(r.bookings, w, u, v);
      case UnlockAny(w) => RemovedKeepsAhead(r.bookings, w, u, v);
      case Kicklock(_) =>
      case Kickout(_) =>
      case Opkick(_, _) =>
      case Sweep => SweepKeepsAhead(cfg, r, t, now, u, v);
    }
  }

  /** In the queue all the way from state `m` to state `n`. */
  predicate QueuedThrough(states: seq<State>, m: nat, n: nat, k: Key, u: UserId)
    requires m <= n < |states|
  {
    forall i :: m <= i <= n ==> k in states[i] && Has(states[i][k].bookings, u)
  }

  lemma StepStaysAhead(cfg: Config, from: int, states: seq<State>, run: seq<Timed<Command>>, n: nat, k: Key, u: UserId, v: UserId)
    requires IsRun(cfg, from, states, run) && n < |run| && k in states[0] && WellFormed(states[0][k], from)
    requires k in states[n] && Ahead(states[n][k].bookings, u, v)
    requires k in states[n + 1] && Has(states[n + 1][k].bookings, u) && Has(states[n + 1][k].bookings, v)
    ensures Ahead(states[n + 1][k].bookings, u, v)
  {
    RunKeepsWellFormed(cfg, from, states, run, n, k);
    RunTransition(cfg, from, states, run, n, k);
    StaysAhead(cfg, run[n].cmd, states[n][k], TimeAt(from, run, n), run[n].at, states[n + 1][k], u, v);
  }

  /** First come, first served, over whole runs: as long as both stay queued, who is ahead stays ahead. */
  lemma {:induction false} NeverOvertaken(cfg: Config, from: int, states: seq<State>, run: seq<Timed<Command>>, m: nat, n: nat,
                                          k: Key, u: UserId, v: UserId)
    requires IsRun(cfg, from, states, run) && m <= n <= |run| && k in states[0] && WellFormed(states[0][k], from)
    requires QueuedThrough(states, m, n, k, u) && QueuedThrough(states, m, n, k, v) && Ahead(states[m][k].bookings, u, v)
    ensures Ahead(states[n][k].bookings, u, v)
    decreases n
  {
    if m < n {
      NeverOvertaken(cfg, from, states, run, m, n - 1, k, u, v);
      StepStaysAhead(cfg, from, states, run, n - 1, k, u, v);
    }
  }

  // ------------------------------------------------------- coming and going

  lemma SweptHas(cfg: Config, r: Resource, t: int, now: int, v: UserId)
    requires WellFormed(r, t) && t <= now
    ensures Has(SweepOne(cfg, r, now).bookings, v) <==> Has(r.bookings, v) && !Dismissed(r, now, v)
  {
    var q, q' := r.bookings, SweepOne(cfg, r, now).bookings;
    SweptUsers(cfg, r, t, now);
    DistinctParts(r.holders, q);
    if q != [] {
      HasTail(q, v);
      if Has(q[1..], v) { DistinctHead(q, v); }
    }
    if SameUsers(q, q') {
      HasSame(q, q', v);
      if Dismissed(r, now, v) { NotDismissed(cfg, r, t, now, v); }
    } else {
      HasSame(q[1..], q', v);
    }
  }

  lemma NotDismissed(cfg: Config, r: Resource, t: int, now: int, v: UserId)
    requires WellFormed(r, t) && t <= now && Dismissed(r, now, v)
    ensures |SweepOne(cfg, r, now).bookings| < |r.bookings|
  {
    SweptOne(cfg, "", r, t, now);
  }

  /** Who is in the queue after a step: exactly those who stay, the newcomer of a booking, and preempted holders. */
  lemma QueuedIff(cfg: Config, c: Command, r: Resource, t: int, now: int, r': Resource, v: UserId)
    requires WellFormed(r, t) && t <= now && Transition(cfg, c, r, now, r') && r' != r
    ensures Has(r'.bookings, v) <==>
            match c
            case Lock(u, _, _, _) => Has(r.bookings, v) && v != u
            case Book(u, _, _) => Has(r.bookings, v) || v == u
            case Take(u, _, _) =>
              v != u && (Has(r.bookings, v) || exists h :: h in r.holders && h.user == v && Remaining(h, now) > 0)
            case Unlock(u, _) => Has(r.bookings, v) && v != u
            case UnlockAny(u) => Has(r.bookings, v) && v != u
            case Kickout(_) => false
            case Sweep => Has(r.bookings, v) && !Dismissed(r, now, v)
            case _ => Has(r.bookings, v)
  {
    DistinctParts(r.holders, r.bookings);
    match c
    case Lock(u, _, _, _) => HasRemoved(r.bookings, u, v);
    case Book(u, _, duration) => BookedHas(r.bookings, Stake(u, now, duration, false), v);
    case Take(u, _, _) => TakenHas(r, c, t, now, v);
    case Unlock(u, _) => HasRemoved(r.bookings, u, v);
    case UnlockAny(u) => HasRemoved(r.bookings, u, v);
    case Sweep => SweptHas(cfg, r, t, now, v);
    case _ =>
  }

  lemma BookedHas(q: seq<Stake>, b: Stake, v: UserId)
    ensures Has(q + [b], v) <==> Has(q, v) || v == b.user
  {
    HasConcat(q, [b], v);
    assert [b][0] == b;
  }

  /** A newcomer stands behind everybody. */
  lemma NewcomerIsLast(cfg: Config, c: Command, r: Resource, now: int, r': Resource, u: UserId)
    requires c.Book? && Transition(cfg, c, r, now, r') && r' != r && Has(r.bookings, u)
    ensures Ahead(r'.bookings, u, c.user)
  {
    var b := Stake(c.user, now, c.duration, false);
    assert [b][0].user == c.user;
    AheadConcat(r.bookings, [b], u, c.user);
  }

  /** Preempted holders stand before everybody who was queued already. */
  lemma PreemptedAreFirst(cfg: Config, c: Command, r: Resource, t: int, now: int, r': Resource, h: Stake, v: UserId)
    requires c.Take? && WellFormed(r, t) && t <= now && Transition(cfg, c, r, now, r') && r' != r
    requires h in r.holders && Remaining(h, now) > 0 && Has(r.bookings, v) && v != c.user
    ensures Ahead(r'.bookings, h.user, v)
  {
    var front, back := TakenUsers(r, c, t, now);
    LiveOnlyIff(r.holders, now, h);
    HasMember(LiveOnly(r.holders, now), h.user);
    HasSame(LiveOnly(r.holders, now), front, h.user);
    HasMember(r.bookings, v);
    HasMember(Without(r.bookings, c.user), v);
    HasSame(Without(r.bookings, c.user), back, v);
    AheadConcat(front, back, h.user, v);
  }
}
