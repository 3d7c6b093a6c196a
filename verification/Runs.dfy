/** Runs of timed commands, and what carries over from each step to the whole run. */
module Runs {
  import opened Leases

  /** A command together with the clock reading it acts on. */
  datatype Timed<C> = Timed(at: int, cmd: C)

  /** The clock after the first `n` commands of a run that starts at `from`. */
  function TimeAt<C>(from: int, run: seq<Timed<C>>, n: nat): int
    requires n <= |run|
  {
    if n == 0 then from else run[n - 1].at
  }

  /** The clock never runs back. */
  predicate Clocked<C>(from: int, run: seq<Timed<C>>) {
    && (forall i :: 0 <= i < |run| ==> from <= run[i].at)
    && (forall i, j :: 0 <= i < j < |run| ==> run[i].at <= run[j].at)
  }

  /** One resource along a run: each command relates it to the next state. */
  ghost predicate Tracks<C>(rs: seq<Resource>, from: int, run: seq<Timed<C>>, step: (C, Resource, int, Resource) -> bool) {
    && |rs| == |run| + 1
    && forall i :: 0 <= i < |run| ==> step(run[i].cmd, rs[i], run[i].at, rs[i + 1]) && TimeAt(from, run, i) <= run[i].at
  }

  ghost predicate Preserves<C(!new)>(inv: (Resource, int) -> bool, step: (C, Resource, int, Resource) -> bool) {
    forall c, r, t, now, r' :: inv(r, t) && t <= now && step(c, r, now, r') ==> inv(r', now)
  }

  /** What every step keeps, every run keeps. */
  lemma {:induction false} KeptAlong<C(!new)>(rs: seq<Resource>, from: int, run: seq<Timed<C>>, n: nat,
                                              inv: (Resource, int) -> bool, step: (C, Resource, int, Resource) -> bool)
    requires Tracks(rs, from, run, step) && Preserves(inv, step) && n <= |run| && inv(rs[0], from)
    ensures inv(rs[n], TimeAt(from, run, n))
  {
    if n > 0 {
      KeptAlong(rs, from, run, n - 1, inv, step);
      assert step(run[n - 1].cmd, rs[n - 1], run[n - 1].at, rs[n]);
    }
  }

  ghost predicate Originates<C(!new)>(inv: (Resource, int) -> bool, step: (C, Resource, int, Resource) -> bool,
                                      holds: Resource -> bool, begins: (C, int) -> bool) {
    forall c, r, t, now, r' ::
      inv(r, t) && t <= now && step(c, r, now, r') && holds(r') ==> holds(r) || begins(c, now)
  }

  /** Counting back from state `n`: since when something has held without a break, and which step began it. */
  lemma {:induction false} HeldSince<C(!new)>(rs: seq<Resource>, from: int, run: seq<Timed<C>>, n: nat,
                                              inv: (Resource, int) -> bool, step: (C, Resource, int, Resource) -> bool,
                                              holds: Resource -> bool, begins: (C, int) -> bool)
    returns (j: nat)
    requires Tracks(rs, from, run, step) && Preserves(inv, step) && Originates(inv, step, holds, begins)
    requires n <= |run| && inv(rs[0], from) && holds(rs[n])
    ensures j <= n && (forall m :: j <= m <= n ==> holds(rs[m])) && (j > 0 ==> begins(run[j - 1].cmd, run[j - 1].at))
  {
    j := n;
    if n > 0 {
      KeptAlong(rs, from, run, n - 1, inv, step);
      assert step(run[n - 1].cmd, rs[n - 1], run[n - 1].at, rs[n]);
      if holds(rs[n - 1]) {
        j := HeldSince(rs, from, run, n - 1, inv, step, holds, begins);
      }
    }
  }

  /** The values of one resource in the states of a run. */
  function Along(states: seq<State>, k: Key): seq<Resource>
    requires forall i :: 0 <= i < |states| ==> k in states[i]
  {
    seq(|states|, i requires 0 <= i < |states| => states[i][k])
  }

  ghost predicate StepsTrack<C>(from: int, states: seq<State>, run: seq<Timed<C>>, k: Key,
                                step: (C, Resource, int, Resource) -> bool) {
    && |states| == |run| + 1
    && forall i :: 0 <= i < |run| && k in states[i] ==>
         && k in states[i + 1] && TimeAt(from, run, i) <= run[i].at
         && step(run[i].cmd, states[i][k], run[i].at, states[i + 1][k])
  }

  lemma {:induction false} StaysPresent<C>(from: int, states: seq<State>, run: seq<Timed<C>>, k: Key,
                                           step: (C, Resource, int, Resource) -> bool, n: nat)
    requires StepsTrack(from, states, run, k, step) && k in states[0] && n <= |run|
    ensures k in states[n]
  {
    if n > 0 { StaysPresent(from, states, run, k, step, n - 1); }
  }

  lemma StatesTrack<C>(from: int, states: seq<State>, run: seq<Timed<C>>, k: Key, step: (C, Resource, int, Resource) -> bool)
    requires StepsTrack(from, states, run, k, step) && k in states[0]
    ensures forall i :: 0 <= i < |states| ==> k in states[i]
    ensures Tracks(Along(states, k), from, run, step)
  {
    forall i | 0 <= i < |states| ensures k in states[i] { StaysPresent(from, states, run, k, step, i); }
  }
}
