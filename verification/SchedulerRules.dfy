/** The scheduler's critical sections as transitions on its shared tables. */
module SchedulerRules {
  import opened Leases

  type Bot = int

  /** A bot object the manager published under a manager generation. */
  datatype Instance = Instance(id: nat, generation: int)

  datatype Entry = Entry(at: real, gen: int, bot: Bot)

  /** A popped entry, with the registration captured under the lock. */
  datatype Due = Due(bot: Bot, gen: int, mgr: int, instance: Option<Instance>)

  /** The tables every method reads and writes under one lock. */
  datatype Tables = Tables(
    instances: map<Bot, Instance>, heap: multiset<Entry>, gens: map<Bot, int>, failures: map<Bot, int>,
    admissions: set<Bot>, mgrGens: map<Bot, int>)

  const MIN_INTERVAL: real := 1.0
  const IDLE_INTERVAL: real := 60.0
  const BACKOFF: real := 30.0
  const MAX_FAILURES: int := 5

  function Get(m: map<Bot, int>, b: Bot): int {
    if b in m then m[b] else 0
  }

  predicate Live(s: Tables, e: Entry) {
    e.gen == Get(s.gens, e.bot)
  }

  function Push(s: Tables, e: Entry): Tables {
    s.(heap := s.heap + multiset{e})
  }

  predicate Accepts(s: Tables, b: Bot, generation: int) {
    generation >= Get(s.mgrGens, b)
  }

  /** `add`: an older manager generation than any seen is ignored. */
  function Add(s: Tables, b: Bot, i: Instance, admission: bool, at: real): Tables {
    if !Accepts(s, b, i.generation) then s
    else
      Push(s.(instances := s.instances[b := i], failures := s.failures[b := 0],
              admissions := s.admissions + (if admission then {b} else {}),
              mgrGens := s.mgrGens[b := i.generation]),
           Entry(at, Get(s.gens, b), b))
  }

  predicate Removes(s: Tables, b: Bot, expected: Option<int>) {
    expected.Some? ==> Get(s.mgrGens, b) == expected.value
  }

  /** `remove`, unconditional or scoped by `remove_expecting`. */
  function Unregister(s: Tables, b: Bot, expected: Option<int>): Tables {
    if !Removes(s, b, expected) then s
    else s.(gens := s.gens[b := Get(s.gens, b) + 1], instances := s.instances - {b}, failures := s.failures - {b},
            admissions := s.admissions - {b})
  }

  function Soon(s: Tables, b: Bot, at: real): Tables {
    if b !in s.instances then s else Push(s, Entry(at, Get(s.gens, b), b))
  }

  /** A finished sweep may only touch the registration it was captured from. */
  predicate Current(s: Tables, d: Due) {
    Get(s.gens, d.bot) == d.gen
  }

  function Succeeded(s: Tables, d: Due): Tables {
    if Current(s, d) then s.(failures := s.failures[d.bot := 0]) else s
  }

  function Failed(s: Tables, d: Due): Tables {
    if Current(s, d) then s.(failures := s.failures[d.bot := Get(s.failures, d.bot) + 1]) else s
  }

  function Repush(s: Tables, d: Due, at: real): Tables {
    if Current(s, d) then Push(s, Entry(at, d.gen, d.bot)) else s
  }

  function Capture(s: Tables, e: Entry): Due {
    Due(e.bot, e.gen, Get(s.mgrGens, e.bot), if e.bot in s.instances then Some(s.instances[e.bot]) else None)
  }

  // ---------------------------------------------------- heap-scanning sections

  /** Heap order: fire time, then generation, then bot. */
  predicate Before(e: Entry, f: Entry) {
    e.at < f.at || (e.at == f.at && (e.gen < f.gen || (e.gen == f.gen && e.bot <= f.bot)))
  }

  predicate Top(heap: multiset<Entry>, e: Entry) {
    e in heap && forall f :: f in heap ==> Before(e, f)
  }

  lemma {:induction false} HasTop(heap: multiset<Entry>) returns (e: Entry)
    requires |heap| > 0
    ensures Top(heap, e)
  {
    var x :| x in heap;
    var rest := heap - multiset{x};
    if |rest| == 0 {
      e := x;
      assert heap == multiset{x} + rest;
    } else {
      var y := HasTop(rest);
      e := if Before(x, y) then x else y;
      forall f | f in heap ensures Before(e, f) {
        if f != x { assert f in rest; }
      }
    }
  }

  /** What `_next_sleep` may do to the tables and must answer at time `now`. */
  ghost predicate NextSleep(s: Tables, now: real, s': Tables, delay: real) {
    && s' == s.(heap := s'.heap)
    && (forall e :: s'.heap[e] <= s.heap[e])
    && (forall e :: Live(s, e) ==> s'.heap[e] == s.heap[e])
    && (forall e :: e in s'.heap && Live(s, e) ==> delay <= 0.0 || now + delay <= e.at)
    && delay >= 0.0
    && ((exists e :: e in s.heap && Live(s, e) && delay == (if e.at > now then e.at - now else 0.0))
        || ((forall e :: e in s.heap ==> !Live(s, e)) && delay == IDLE_INTERVAL && s'.heap == multiset{}))
  }

  /** The live ones among popped entries, captured. */
  function Captures(s: Tables, popped: seq<Entry>): seq<Due> {
    if popped == [] then []
    else
      var last := |popped| - 1;
      Captures(s, popped[..last]) + (if Live(s, popped[last]) then [Capture(s, popped[last])] else [])
  }

  lemma {:induction false} CapturesIff(s: Tables, popped: seq<Entry>, d: Due)
    ensures d in Captures(s, popped) <==> exists e :: e in popped && Live(s, e) && d == Capture(s, e)
  {
    if popped != [] {
      var last := |popped| - 1;
      CapturesIff(s, popped[..last], d);
      assert forall e :: e in popped <==> e in popped[..last] || e == popped[last];
    }
  }

  /** Exactly the due entries, each as often as the heap holds it, in heap order. */
  ghost predicate Popped(heap: multiset<Entry>, now: real, popped: seq<Entry>) {
    && (forall e :: multiset(popped)[e] == if e.at <= now then heap[e] else 0)
    && (forall i, j :: 0 <= i < j < |popped| ==> Before(popped[i], popped[j]))
  }

  /** What the draining section of `_fire_due` does: every due entry leaves, the live ones are captured in heap order. */
  ghost predicate Drains(s: Tables, now: real, s': Tables, due: seq<Due>) {
    exists popped :: Popped(s.heap, now, popped) && s' == s.(heap := s.heap - multiset(popped)) && due == Captures(s, popped)
  }

  /** The popped entries are the due ones. */
  lemma PoppedIff(heap: multiset<Entry>, now: real, popped: seq<Entry>, e: Entry)
    requires Popped(heap, now, popped)
    ensures e in popped <==> e in heap && e.at <= now
    ensures (heap - multiset(popped))[e] == if e.at <= now then 0 else heap[e]
  {
    assert e in popped <==> e in multiset(popped);
  }

  /** Nothing else changes, nothing due stays, and nothing is captured that was not due and live. */
  lemma DrainFacts(s: Tables, now: real, s': Tables, due: seq<Due>)
    requires Drains(s, now, s', due)
    ensures s' == s.(heap := s'.heap) && forall e :: s'.heap[e] == if e.at <= now then 0 else s.heap[e]
    ensures forall d :: d in due <==> exists e :: e in s.heap && e.at <= now && Live(s, e) && d == Capture(s, e)
  {
    var popped :| Popped(s.heap, now, popped) && s' == s.(heap := s.heap - multiset(popped)) && due == Captures(s, popped);
    forall e
      ensures e in popped <==> e in s.heap && e.at <= now
      ensures s'.heap[e] == if e.at <= now then 0 else s.heap[e]
    {
      PoppedIff(s.heap, now, popped, e);
    }
    forall d ensures d in due <==> exists e :: e in s.heap && e.at <= now && Live(s, e) && d == Capture(s, e) {
      CapturesIff(s, popped, d);
    }
  }
}
