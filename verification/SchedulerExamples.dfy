/** Two runs in which registering without removing first costs the new registration what the old one did. */
module SchedulerExamples {
  import opened Leases
  import opened SchedulerRules
  import opened SchedulerRuns

  /** One bot, registered as `i` and never removed, with `n` failures counted. */
  function Holding(i: Instance, heap: multiset<Entry>, n: int): Tables {
    Tables(map[1 := i], heap, map[], map[1 := n], {1}, map[1 := i.generation])
  }

  function ItemOf(i: Instance): Due { Due(1, 0, i.generation, Some(i)) }

  function Items(i: Instance, n: nat): (due: seq<Due>)
    ensures |due| == n && forall d :: d in due ==> d == ItemOf(i)
    ensures n > 0 ==> due[0] == ItemOf(i) && due[1..] == Items(i, n - 1)
  {
    if n == 0 then [] else [ItemOf(i)] + Items(i, n - 1)
  }

  const NOW: Entry := Entry(0.0, 0, 1)
  const SOON: Entry := Entry(1.0, 0, 1)

  /** The bot's first check is due at once, and `n` callers have asked for another soon. */
  function Asked(i: Instance, n: nat): multiset<Entry> {
    if n == 0 then multiset{NOW} else Asked(i, n - 1) + multiset{SOON}
  }

  /** A thread about to clear its flag. */
  function Awake(t: Tables, clock: real, setters: nat): System { System(t, Clearing, clock, false, setters) }

  lemma {:induction false} AskedIsReachable(i: Instance, n: nat)
    requires i.generation >= 0
    ensures Reachable(Awake(Holding(i, Asked(i, n), 0), 0.0, n + 1))
  {
    if n == 0 {
      InitialIsReachable();
      NextIsReachable(Initial(), AddBot(1, i, true, 0.0), Awake(Holding(i, multiset{NOW}, 0), 0.0, 1));
    } else {
      AskedIsReachable(i, n - 1);
      NextIsReachable(Awake(Holding(i, Asked(i, n - 1), 0), 0.0, n), Reschedule(1), Awake(Holding(i, Asked(i, n), 0), 0.0, n + 1));
    }
  }

  lemma {:induction false} AskedHas(i: Instance, n: nat)
    ensures Asked(i, n) == multiset{NOW}[SOON := n]
  {
    if n > 0 { AskedHas(i, n - 1); }
  }

  /** The entries in heap order. */
  function Order(n: nat): (popped: seq<Entry>)
    ensures |popped| == n + 1 && popped[0] == NOW && forall j :: 0 < j <= n ==> popped[j] == SOON
  {
    if n == 0 then [NOW] else Order(n - 1) + [SOON]
  }

  lemma {:induction false} OrderIsAsked(i: Instance, n: nat)
    ensures multiset(Order(n)) == Asked(i, n)
    ensures Captures(Holding(i, Asked(i, n), 0), Order(n)) == Items(i, n + 1)
  {
    AllCaptured(Holding(i, Asked(i, n), 0), i, n);
    OrderCounts(i, n);
  }

  lemma {:induction false} OrderCounts(i: Instance, n: nat)
    ensures multiset(Order(n)) == Asked(i, n)
  {
    if n > 0 { OrderCounts(i, n - 1); }
  }

  lemma {:induction false} AllCaptured(t: Tables, i: Instance, n: nat)
    requires t == Holding(i, t.heap, 0)
    ensures Captures(t, Order(n)) == Items(i, n + 1)
  {
    var last := |Order(n)| - 1;
    if n > 0 {
      assert Order(n)[..last] == Order(n - 1);
      AllCaptured(t, i, n - 1);
      ItemsSnoc(i, n);
    } else {
      assert Order(0)[..last] == [] && Items(i, 1) == [ItemOf(i)];
    }
  }

  lemma {:induction false} ItemsSnoc(i: Instance, n: nat)
    ensures Items(i, n) + [ItemOf(i)] == Items(i, n + 1)
  {
    if n > 0 {
      ItemsSnoc(i, n - 1);
      assert Items(i, n) + [ItemOf(i)] == [ItemOf(i)] + (Items(i, n - 1) + [ItemOf(i)]);
    }
  }

  function Batch(i: Instance, heap: multiset<Entry>, failures: int, n: nat, stage: Stage, wake: bool, setters: nat): System {
    System(Holding(i, heap, failures), Sweeping(Items(i, n), stage), 1.0, wake, setters)
  }

  /** The thread comes round, finds the entries due, and takes its time for nothing. */
  lemma SleepIsReachable(i: Instance, n: nat)
    requires i.generation >= 0
    ensures Reachable(System(Holding(i, Asked(i, n), 0), Sleeping(1.0, 0.0), 1.0, false, n + 1))
  {
    var t := Holding(i, Asked(i, n), 0);
    AskedIsReachable(i, n);
    AskedHas(i, n);
    NextIsReachable(Awake(t, 0.0, n + 1), Tick(1.0), Awake(t, 1.0, n + 1));
    var s := System(t, Choosing, 1.0, false, n + 1);
    NextIsReachable(Awake(t, 1.0, n + 1), Clear, s);
    assert NOW in t.heap && Live(t, NOW);
    assert NextSleep(t, 1.0, t, 0.0);
    NextIsReachable(s, Choose, s.(worker := Waiting(0.0, 1.0)));
    NextIsReachable(s.(worker := Waiting(0.0, 1.0)), Wait, s.(worker := Sleeping(1.0, 0.0)));
  }

  lemma AllDrained(i: Instance, n: nat)
    ensures Drains(Holding(i, Asked(i, n), 0), 1.0, Holding(i, multiset{}, 0), Items(i, n + 1))
  {
    OrderIsAsked(i, n);
    OrderIsPopped(i, n);
    assert Asked(i, n) - multiset(Order(n)) == multiset{};
  }

  lemma OrderIsPopped(i: Instance, n: nat)
    ensures Popped(Asked(i, n), 1.0, Order(n))
  {
    AskedHas(i, n);
    OrderCounts(i, n);
    forall a, b | 0 <= a < b < |Order(n)| ensures Before(Order(n)[a], Order(n)[b]) {}
    forall e ensures multiset(Order(n))[e] == if e.at <= 1.0 then Asked(i, n)[e] else 0 {}
  }

  /** A batch of `n + 1` items of one registration. */
  lemma BatchIsReachable(i: Instance, n: nat)
    requires i.generation >= 0
    ensures Reachable(Batch(i, multiset{}, 0, n + 1, Fresh, false, n + 1))
  {
    SleepIsReachable(i, n);
    AllDrained(i, n);
    NextIsReachable(System(Holding(i, Asked(i, n), 0), Sleeping(1.0, 0.0), 1.0, false, n + 1), Drain,
                    Batch(i, multiset{}, 0, n + 1, Fresh, false, n + 1));
  }

  lemma BeginStep(i: Instance, heap: multiset<Entry>, failures: int, n: nat, wake: bool, setters: nat)
    requires Reachable(Batch(i, heap, failures, n + 1, Fresh, wake, setters))
    ensures Reachable(Batch(i, heap, failures, n + 1, Running, wake, setters))
  {
    var s := Batch(i, heap, failures, n + 1, Fresh, wake, setters);
    assert Head(s) == ItemOf(i) && MayRun(s.tables, ItemOf(i));
    NextIsReachable(s, Begin, Batch(i, heap, failures, n + 1, Running, wake, setters));
  }

  /** One failure more; the fifth is fatal. */
  lemma FailStep(i: Instance, heap: multiset<Entry>, failures: int, n: nat, wake: bool, setters: nat)
    requires Reachable(Batch(i, heap, failures, n + 1, Running, wake, setters))
    ensures Reachable(Batch(i, heap, failures + 1, n + 1, if failures + 1 >= 5 then Retiring else Pushing(BACKOFF), wake, setters))
  {
    var s := Batch(i, heap, failures, n + 1, Running, wake, setters);
    assert Head(s) == ItemOf(i) && Current(s.tables, ItemOf(i));
    assert s.tables.failures[1 := failures + 1] == map[1 := failures + 1];
    NextIsReachable(s, Fail, Batch(i, heap, failures + 1, n + 1, if failures + 1 >= 5 then Retiring else Pushing(BACKOFF), wake, setters));
  }

  /** One item of the batch is swept, fails, and is put back. */
  lemma OneFails(i: Instance, heap: multiset<Entry>, failures: int, n: nat, wake: bool, setters: nat) returns (heap': multiset<Entry>)
    requires 0 <= failures < 4 && Reachable(Batch(i, heap, failures, n + 1, Fresh, wake, setters))
    ensures Reachable(Batch(i, heap', failures + 1, n, Fresh, true, setters))
  {
    heap' := heap + multiset{Entry(31.0, 0, 1)};
    BeginStep(i, heap, failures, n, wake, setters);
    FailStep(i, heap, failures, n, wake, setters);
    var s := Batch(i, heap, failures + 1, n + 1, Pushing(BACKOFF), wake, setters);
    assert Head(s) == ItemOf(i);
    NextIsReachable(s, PushBack, Batch(i, heap', failures + 1, n, Fresh, true, setters));
  }

  /** What registering `j` over `i` makes of a state of this kind. */
  function Over(s: System, j: Instance): System {
    System(Holding(j, s.tables.heap + multiset{Entry(s.clock + IDLE_INTERVAL, 0, 1)}, 0), s.worker, s.clock, s.wake, s.setters + 1)
  }

  lemma OverStep(i: Instance, j: Instance, heap: multiset<Entry>, failures: int, stage: Stage, wake: bool, setters: nat)
    requires i.generation <= j.generation
    ensures var s := Batch(i, heap, failures, 1, stage, wake, setters); Next(s, AddBot(1, j, true, IDLE_INTERVAL), Over(s, j))
  {
    var s := Batch(i, heap, failures, 1, stage, wake, setters);
    assert s.tables.instances[1 := j] == map[1 := j] && s.tables.failures[1 := 0] == map[1 := 0];
    assert s.tables.mgrGens[1 := j.generation] == map[1 := j.generation] && s.tables.admissions + {1} == {1};
  }

  /** `j` is registered over `i` while `i` is being swept: the failure of that sweep is the first one counted for `j`. */
  lemma ReplacedInPlaceIsCharged(i: Instance, j: Instance) returns (s: System, s1: System, s2: System)
    requires 0 <= i.generation <= j.generation && i != j
    ensures Reachable(s) && At(s, Running) && Head(s).instance == Some(i)
    ensures Next(s, AddBot(1, j, true, IDLE_INTERVAL), s1) && Next(s1, Fail, s2)
    ensures 1 in s2.tables.instances && s2.tables.instances[1] == j
    ensures Get(s1.tables.failures, 1) == 0 && Get(s2.tables.failures, 1) == 1
  {
    BatchIsReachable(i, 0);
    BeginStep(i, multiset{}, 0, 0, false, 1);
    OverStep(i, j, multiset{}, 0, Running, false, 1);
    s := Batch(i, multiset{}, 0, 1, Running, false, 1);
    s1 := Over(s, j);
    s2 := s1.(tables := Failed(s1.tables, ItemOf(i)), worker := Sweeping(Items(i, 1), Pushing(BACKOFF)));
    assert Head(s1) == ItemOf(i) && Current(s1.tables, ItemOf(i));
  }

  /** Five failures in a row, of five items of one batch. */
  lemma FatalIsReachable(i: Instance) returns (heap: multiset<Entry>)
    requires i.generation >= 0
    ensures Reachable(Batch(i, heap, 5, 1, Retiring, true, 5))
  {
    BatchIsReachable(i, 4);
    heap := OneFails(i, multiset{}, 0, 4, false, 5);
    heap := OneFails(i, heap, 1, 3, true, 5);
    heap := OneFails(i, heap, 2, 2, true, 5);
    heap := OneFails(i, heap, 3, 1, true, 5);
    BeginStep(i, heap, 4, 0, true, 5);
    FailStep(i, heap, 4, 0, true, 5);
  }

  /** After the fifth failure of `i`, `j` is registered under the same generation, and is retired with a clean record. */
  lemma SameGenerationIsRetired(i: Instance, j: Instance) returns (s: System, s1: System, s2: System)
    requires 0 <= i.generation == j.generation && i != j
    ensures Reachable(s) && At(s, Retiring) && Head(s).instance == Some(i)
    ensures Next(s, AddBot(1, j, true, IDLE_INTERVAL), s1) && Next(s1, Retire, s2)
    ensures 1 in s1.tables.instances && s1.tables.instances[1] == j && Get(s1.tables.failures, 1) == 0
    ensures 1 !in s2.tables.instances
  {
    var heap := FatalIsReachable(i);
    OverStep(i, j, heap, 5, Retiring, true, 5);
    s := Batch(i, heap, 5, 1, Retiring, true, 5);
    s1 := Over(s, j);
    s2 := s1.(tables := Unregister(s1.tables, 1, Some(i.generation)), worker := Sweeping([], Fresh));
    assert Head(s1) == ItemOf(i) && s1.worker.due[1..] == [];
  }
}
