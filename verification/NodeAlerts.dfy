/** Alerts over whole runs of a node or device bot: once per lease, whoever else is busy meanwhile. */
module NodeAlerts {
  import opened Leases
  import opened Runs
  import opened Expiry
  import opened NodeRules
  import Fair = QueueFairness

  /** What is left of a lease after a sweep. */
  function LeaseAfter(cfg: Config, h: Stake, now: int): Option<Stake> {
    if Remaining(h, now) == 0 then None else Some(Mark(cfg, h, now))
  }

  function AlertsFor(cfg: Config, lease: Option<Stake>, now: int): nat {
    if lease.Some? && Alerts(cfg, lease.value, now) then 1 else 0
  }

  lemma {:induction false} FindSurvivor(cfg: Config, hs: seq<Stake>, now: int, u: UserId)
    requires Distinct(hs)
    ensures var h := Find(hs, u);
            Find(Survivors(cfg, hs, now), u) == if h.Some? then LeaseAfter(cfg, h.value, now) else None
  {
    if hs != [] {
      var head, rest := if Remaining(hs[0], now) == 0 then [] else [Mark(cfg, hs[0], now)], Survivors(cfg, hs[1..], now);
      assert hs == [hs[0]] + hs[1..];
      OnOneSide([hs[0]], hs[1..], u);
      assert [hs[0]][0].user == hs[0].user;
      FindSurvivor(cfg, hs[1..], now, u);
      assert head + rest == Survivors(cfg, hs, now);
      if head != [] { assert (head + rest)[1..] == rest; } else { assert head + rest == rest; }
    }
  }

  /** A sweep raises as many alerts for `u` on this resource as its lease there is due for. */
  lemma AlertsOfUser(cfg: Config, hs: seq<Stake>, now: int, u: UserId)
    requires Distinct(hs)
    ensures Alerted(cfg, hs, now)[u] == AlertsFor(cfg, Find(hs, u), now)
  {
    var h := Find(hs, u);
    if h.Some? {
      AlertedCount(cfg, hs, now, h.value);
    } else {
      AlertedOnlyHolders(cfg, hs, now, u);
    }
  }

  /** Alerts raised for `u` about resource `k` by the sweeps among the first `n` steps. */
  function AlertsOver(cfg: Config, states: seq<State>, run: seq<Timed<NodeCommand>>, n: nat, k: Key, u: UserId): nat
    requires n <= |run| && n <= |states|
  {
    if n == 0 then 0
    else
      AlertsOver(cfg, states, run, n - 1, k, u)
      + (if run[n - 1].cmd.Sweep? && k in states[n - 1] then Told(ExpireNotices(cfg, k, states[n - 1][k], run[n - 1].at))[u] else 0)
  }

  /** When the last sweep among the first `n` steps took place. */
  function LastSweep(run: seq<Timed<NodeCommand>>, n: nat): Option<int>
    requires n <= |run|
  {
    if n == 0 then None else if run[n - 1].cmd.Sweep? then Some(run[n - 1].at) else LastSweep(run, n - 1)
  }

  /** The lease of `u` on `k` in a state. */
  function LeaseIn(s: State, k: Key, u: UserId): Option<Stake> {
    if k in s then Find(s[k].holders, u) else None
  }

  /** Nothing but sweeps touches the lease of `u`: it is not renewed, released or taken away. */
  predicate LeftAlone(states: seq<State>, run: seq<Timed<NodeCommand>>, n: nat, k: Key, u: UserId)
    requires n <= |run| && n < |states|
  {
    forall i :: 0 <= i < n && !run[i].cmd.Sweep? ==> LeaseIn(states[i + 1], k, u) == LeaseIn(states[i], k, u)
  }

  lemma {:induction false} LengthenOther(hs: seq<Stake>, u: UserId, duration: int, v: UserId)
    requires v != u
    ensures Find(Lengthen(hs, u, duration), v) == Find(hs, v)
  {
    if hs != [] && hs[0].user != u { LengthenOther(hs[1..], u, duration, v); }
  }

  /** Whose doing a command is. */
  predicate DoneBy(c: NodeCommand, v: UserId) {
    match c
    case Lock(u, _, _) => u == v
    case Slock(u, _, _) => u == v
    case Unlock(u, _) => u == v
    case UnlockAny(u) => u == v
    case Opkick(u, _) => u == v
    case _ => false
  }

  /** Everything other users do leaves the lease alone; only a kickout is nobody's and spares nobody. */
  lemma OthersLeaveItAlone(cfg: Config, c: NodeCommand, r: Resource, t: int, now: int, r': Resource, v: UserId)
    requires WellFormed(r, t) && t <= now && Transition(cfg, c, r, now, r')
    requires !c.Sweep? && !c.Kickout? && !DoneBy(c, v)
    ensures Find(r'.holders, v) == Find(r.holders, v)
  {
    if r' != r {
      match c
      case Lock(u, _, _) => assert Find(r.holders, v).None?;
      case Slock(u, _, duration) =>
        if Has(r.holders, u) {
          LengthenOther(r.holders, u, duration, v);
        } else {
          Fair.FindAppended(r.holders, [Stake(u, now, duration, false)], v);
        }
      case Unlock(u, _) => Fair.FindOther(r.holders, u, v);
      case UnlockAny(u) => Fair.FindOther(r.holders, u, v);
      case Opkick(u, _) => Fair.FindOther(r.holders, u, v);
    }
  }

  /** A step of somebody else is such a step. */
  lemma OtherStepsLeaveItAlone(cfg: Config, s: State, c: NodeCommand, t: int, now: int, k: Key, v: UserId)
    requires Parsed(s, c) && k in s && WellFormed(s[k], t) && t <= now
    requires !c.Sweep? && !c.Kickout? && !DoneBy(c, v)
    ensures LeaseIn(Step(cfg, s, c, now), k, v) == LeaseIn(s, k, v)
  {
    StepTransition(cfg, s, c, now, k);
    OthersLeaveItAlone(cfg, c, s[k], t, now, Step(cfg, s, c, now)[k], v);
  }

  lemma SweepExpires(cfg: Config, s: State, now: int, k: Key)
    requires k in s
    ensures Step(cfg, s, NodeCommand.Sweep, now)[k] == ExpireOne(cfg, s[k], now)
  {
  }

  /** One sweep: what it makes of what is left of the lease, and the alert it raises. */
  lemma SweptLease(cfg: Config, k: Key, r: Resource, t: int, now: int, h: Stake, last: Option<int>)
    requires Unqueued(r, t) && t <= now && (last.Some? ==> last.value <= now)
    requires Find(r.holders, h.user) == if last.Some? then LeaseAfter(cfg, h, last.value) else Some(h)
    ensures Find(ExpireOne(cfg, r, now).holders, h.user) == LeaseAfter(cfg, h, now)
    ensures (if last.Some? && Alerts(cfg, h, last.value) then 1 else 0) + Told(ExpireNotices(cfg, k, r, now))[h.user]
         == if Alerts(cfg, h, now) then 1 else 0
  {
    assert Distinct(r.holders) by { DistinctParts(r.holders, r.bookings); }
    FindSurvivor(cfg, r.holders, now, h.user);
    AlertsOfUser(cfg, r.holders, now, h.user);
    AlertedIsReported(cfg, k, r.status, r.holders, now);
  }

  /** The lease and the alerts raised so far, after `n` steps that leave it alone. */
  lemma {:induction false} LeaseAlong(cfg: Config, from: int, states: seq<State>, run: seq<Timed<NodeCommand>>, n: nat, k: Key, h: Stake)
    requires IsRun(cfg, from, states, run) && n <= |run| && k in states[0] && Unqueued(states[0][k], from)
    requires Find(states[0][k].holders, h.user) == Some(h) && LeftAlone(states, run, n, k, h.user)
    ensures var last := LastSweep(run, n);
            && (last.Some? ==> last.value <= TimeAt(from, run, n))
            && LeaseIn(states[n], k, h.user) == (if last.Some? then LeaseAfter(cfg, h, last.value) else Some(h))
            && AlertsOver(cfg, states, run, n, k, h.user) == if last.Some? && Alerts(cfg, h, last.value) then 1 else 0
  {
    if n > 0 {
      LeaseAlong(cfg, from, states, run, n - 1, k, h);
      RunKeepsUnqueued(cfg, from, states, run, n - 1, k);
      RunKeepsUnqueued(cfg, from, states, run, n, k);
      assert Next(cfg, states[n - 1], run[n - 1], states[n]);
      if run[n - 1].cmd.Sweep? {
        SweepExpires(cfg, states[n - 1], run[n - 1].at, k);
        SweptLease(cfg, k, states[n - 1][k], TimeAt(from, run, n - 1), run[n - 1].at, h, LastSweep(run, n - 1));
      }
    }
  }

  /**
   * Over any run, whatever other users do on this or other resources in between, a lease that is neither renewed nor
   * released is alerted exactly once if the last sweep finds it expired or inside the warning lead (and it had not
   * been warned at the start), and otherwise never.
   */
  lemma AlertedOnceOverRuns(cfg: Config, from: int, states: seq<State>, run: seq<Timed<NodeCommand>>, n: nat, k: Key, h: Stake)
    requires IsRun(cfg, from, states, run) && n <= |run| && k in states[0] && Unqueued(states[0][k], from)
    requires Find(states[0][k].holders, h.user) == Some(h)
    requires forall i :: 0 <= i < n ==> !DoneBy(run[i].cmd, h.user) && !(run[i].cmd.Kickout? && k in run[i].cmd.targets)
    ensures AlertsOver(cfg, states, run, n, k, h.user)
         == if LastSweep(run, n).Some? && Alerts(cfg, h, LastSweep(run, n).value) then 1 else 0
  {
    forall i | 0 <= i < n && !run[i].cmd.Sweep? ensures LeaseIn(states[i + 1], k, h.user) == LeaseIn(states[i], k, h.user) {
      RunKeepsUnqueued(cfg, from, states, run, i, k);
      assert Next(cfg, states[i], run[i], states[i + 1]);
      if run[i].cmd.Kickout? {
        StepTransition(cfg, states[i], run[i].cmd, run[i].at, k);
      } else {
        OtherStepsLeaveItAlone(cfg, states[i], run[i].cmd, TimeAt(from, run, i), run[i].at, k, h.user);
      }
    }
    LeaseAlong(cfg, from, states, run, n, k, h);
  }
}
