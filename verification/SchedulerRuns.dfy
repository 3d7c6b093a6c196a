/** The scheduler thread interleaved, section by section, with callers that add, remove and reschedule bots. */
module SchedulerRuns {
  import opened Leases
  import opened SchedulerRules

  /** Where the thread is with the first due item of its batch. */
  datatype Stage = Fresh | Running | Refusing | Pushing(delay: real) | Retiring

  /**
   * The thread clears its flag, works out a delay, begins to wait for it, and sweeps. `chosen` is the clock reading the
   * delay was worked out at; `slack` is how much later the wait began.
   */
  datatype Worker =
    | Clearing
    | Choosing
    | Waiting(delay: real, chosen: real)
    | Sleeping(until: real, slack: real)
    | Sweeping(due: seq<Due>, stage: Stage)

  /** `setters` counts the callers that have pushed an entry but not yet set the wake flag. */
  datatype System = System(tables: Tables, worker: Worker, clock: real, wake: bool, setters: nat)

  datatype Event =
    // callers on other threads
    | AddBot(bot: Bot, instance: Instance, admission: bool, delay: real)
    | RemoveBot(bot: Bot, expected: Option<int>)
    | Reschedule(bot: Bot)
    | SetWake
    | Tick(to: real)
    // the scheduler thread
    | Clear | Choose | Wait | Drain | Rest
    | Skip | Begin | Refuse | Decline | Succeed(next: Option<real>) | Fail | PushBack | Retire

  function Initial(): System {
    System(Tables(map[], multiset{}, map[], map[], {}, map[]), Clearing, 0.0, false, 0)
  }

  predicate At(s: System, stage: Stage) {
    s.worker.Sweeping? && s.worker.due != [] && s.worker.stage == stage
  }

  function Head(s: System): Due
    requires s.worker.Sweeping? && s.worker.due != []
  {
    s.worker.due[0]
  }

  function NextItem(s: System): Worker
    requires s.worker.Sweeping? && s.worker.due != []
  {
    Sweeping(s.worker.due[1..], Fresh)
  }

  function Delay(next: Option<real>): real {
    match next
    case None => IDLE_INTERVAL
    case Some(x) => if x < MIN_INTERVAL then MIN_INTERVAL else x
  }

  /** The captured instance is still the registered one, and it still has an admission. */
  predicate MayRun(t: Tables, d: Due) {
    d.bot in t.admissions && d.bot in t.instances && d.instance == Some(t.instances[d.bot])
  }

  ghost predicate Next(s: System, e: Event, s': System) {
    var t, t' := s.tables, s'.tables;
    match e
    case AddBot(b, i, admission, delay) =>
      && t' == Add(t, b, i, admission, s.clock + delay)
      && s' == s.(tables := t', setters := if Accepts(t, b, i.generation) then s.setters + 1 else s.setters)
    case RemoveBot(b, expected) => s' == s.(tables := Unregister(t, b, expected))
    case Reschedule(b) =>
      && t' == Soon(t, b, s.clock + MIN_INTERVAL)
      && s' == s.(tables := t', setters := if b in t.instances then s.setters + 1 else s.setters)
    case SetWake => s.setters > 0 && s' == s.(setters := s.setters - 1, wake := true)
    case Tick(to) => to >= s.clock && s' == s.(clock := to)
    case Clear => s.worker.Clearing? && s' == s.(worker := Choosing, wake := false)
    case Choose =>
      && s.worker.Choosing? && s'.worker.Waiting? && s'.worker.chosen == s.clock
      && NextSleep(t, s.clock, t', s'.worker.delay)
      && s' == s.(tables := t', worker := s'.worker)
    case Wait =>
      && s.worker.Waiting?
      && s' == s.(worker := Sleeping(s.clock + s.worker.delay, s.clock - s.worker.chosen))
    case Drain =>
      && s.worker.Sleeping? && (s.wake || s.clock >= s.worker.until)
      && s'.worker.Sweeping? && s'.worker.stage == Fresh && Drains(t, s.clock, t', s'.worker.due)
      && s' == s.(tables := t', worker := s'.worker)
    case Rest => s.worker.Sweeping? && s.worker.due == [] && s' == s.(worker := Clearing)
    case Skip => At(s, Fresh) && Head(s).instance.None? && s' == s.(worker := NextItem(s))
    case Begin =>
      && At(s, Fresh) && Head(s).instance.Some?
      && s' == s.(worker := s.worker.(stage := if MayRun(t, Head(s)) then Running else Refusing))
    case Refuse => At(s, Running) && s' == s.(worker := s.worker.(stage := Refusing))
    case Decline =>
      && At(s, Refusing)
      && s' == s.(tables := Repush(t, Head(s), s.clock + IDLE_INTERVAL), worker := NextItem(s), wake := true)
    case Succeed(next) =>
      && At(s, Running)
      && s' == s.(tables := Succeeded(t, Head(s)), worker := s.worker.(stage := Pushing(Delay(next))))
    case Fail =>
      && At(s, Running) && t' == Failed(t, Head(s))
      && s' == s.(tables := t',
                  worker := if !Current(t, Head(s)) then NextItem(s)
                            else if Get(t'.failures, Head(s).bot) >= MAX_FAILURES then s.worker.(stage := Retiring)
                            else s.worker.(stage := Pushing(BACKOFF)))
    case PushBack =>
      && s.worker.Sweeping? && s.worker.due != [] && s.worker.stage.Pushing?
      && s' == s.(tables := Repush(t, Head(s), s.clock + s.worker.stage.delay), worker := NextItem(s), wake := true)
    case Retire =>
      && At(s, Retiring)
      && s' == s.(tables := Unregister(t, Head(s).bot, Some(Head(s).mgr)), worker := NextItem(s))
  }

  ghost predicate StepAt(states: seq<System>, events: seq<Event>, i: nat) {
    i < |events| && i + 1 < |states| && Next(states[i], events[i], states[i + 1])
  }

  /** Any interleaving whatsoever, from an empty scheduler. */
  ghost predicate IsRun(states: seq<System>, events: seq<Event>) {
    |states| == |events| + 1 && states[0] == Initial() && forall i :: 0 <= i < |events| ==> StepAt(states, events, i)
  }

  ghost predicate Reachable(s: System) {
    exists states, events :: IsRun(states, events) && states[|events|] == s
  }

  lemma InitialIsReachable()
    ensures Reachable(Initial())
  {
    assert IsRun([Initial()], []);
  }

  lemma NextIsReachable(s: System, e: Event, s': System)
    requires Reachable(s) && Next(s, e, s')
    ensures Reachable(s')
  {
    var states, events :| IsRun(states, events) && states[|events|] == s;
    var states', events' := states + [s'], events + [e];
    forall i | 0 <= i < |events'| ensures StepAt(states', events', i) {
      if i < |events| { assert StepAt(states, events, i); }
    }
    assert IsRun(states', events') && states'[|events'|] == s';
  }

  // ------------------------------------------------------------- invariant

  function Unfinished(s: System): seq<Due> {
    if s.worker.Sweeping? then s.worker.due else []
  }

  predicate HeapLive(t: Tables, b: Bot) {
    exists e :: e in t.heap && e.bot == b && Live(t, e)
  }

  predicate DueLive(t: Tables, due: seq<Due>, b: Bot) {
    exists d :: d in due && d.bot == b && Current(t, d)
  }

  /** Entries never come from the future, and live ones belong to registered bots. */
  predicate HeapSound(t: Tables) {
    forall e :: e in t.heap ==> e.gen <= Get(t.gens, e.bot) && (Live(t, e) ==> e.bot in t.instances)
  }

  /** The same for captured items; a replaced registration that is still live has an entry of its own. */
  predicate DueSound(t: Tables, d: Due) {
    && d.gen <= Get(t.gens, d.bot) && d.mgr <= Get(t.mgrGens, d.bot)
    && (Current(t, d) ==> d.bot in t.instances && d.instance.Some?
                          && (Get(t.mgrGens, d.bot) == d.mgr || HeapLive(t, d.bot)))
  }

  predicate Scheduled(t: Tables, due: seq<Due>, b: Bot) {
    HeapLive(t, b) || DueLive(t, due, b)
  }

  predicate Inv(t: Tables, due: seq<Due>) {
    && HeapSound(t)
    && (forall d :: d in due ==> DueSound(t, d))
    && (forall b :: b in t.instances ==> Scheduled(t, due, b))
    && (forall b :: b in t.instances ==> t.instances[b].generation == Get(t.mgrGens, b))
  }

  lemma PushKeeps(t: Tables, due: seq<Due>, e: Entry)
    requires Inv(t, due) && Live(t, e) && e.bot in t.instances
    ensures Inv(Push(t, e), due) && HeapLive(Push(t, e), e.bot)
  {
    var t' := Push(t, e);
    assert e in t'.heap;
    assert forall f :: f in t.heap ==> f in t'.heap;
    assert forall f :: f in t'.heap ==> f in t.heap || f == e;
    forall b | HeapLive(t, b) ensures HeapLive(t', b) {}
    forall b | DueLive(t, due, b) ensures DueLive(t', due, b) {}
  }

  lemma AddKeeps(t: Tables, due: seq<Due>, b: Bot, i: Instance, admission: bool, at: real)
    requires Inv(t, due)
    ensures Inv(Add(t, b, i, admission, at), due)
  {
    if Accepts(t, b, i.generation) {
      var t' := Add(t, b, i, admission, at);
      var e := Entry(at, Get(t.gens, b), b);
      assert e in t'.heap && HeapLive(t', b);
      assert forall f :: f in t.heap ==> f in t'.heap;
      assert forall f :: f in t'.heap ==> f in t.heap || f == e;
      forall c | HeapLive(t, c) ensures HeapLive(t', c) {}
      forall c | DueLive(t, due, c) ensures DueLive(t', due, c) {}
    }
  }

  lemma SoonKeeps(t: Tables, due: seq<Due>, b: Bot, at: real)
    requires Inv(t, due)
    ensures Inv(Soon(t, b, at), due)
  {
    if b in t.instances { PushKeeps(t, due, Entry(at, Get(t.gens, b), b)); }
  }

  lemma RemoveKeeps(t: Tables, due: seq<Due>, b: Bot, expected: Option<int>)
    requires Inv(t, due)
    ensures Inv(Unregister(t, b, expected), due)
  {
    var t' := Unregister(t, b, expected);
    if Removes(t, b, expected) {
      forall c | c != b && HeapLive(t, c) ensures HeapLive(t', c) {
        var e :| e in t.heap && e.bot == c && Live(t, e);
        assert Live(t', e);
      }
      forall c | c != b && DueLive(t, due, c) ensures DueLive(t', due, c) {
        var d :| d in due && d.bot == c && Current(t, d);
        assert Current(t', d);
      }
    }
  }

  /** Failure accounting touches nothing the invariant reads. */
  lemma FailuresIrrelevant(t: Tables, due: seq<Due>, failures: map<Bot, int>)
    requires Inv(t, due)
    ensures Inv(t.(failures := failures), due)
  {
    var t' := t.(failures := failures);
    assert forall b :: HeapLive(t', b) <==> HeapLive(t, b);
    assert forall b :: DueLive(t', due, b) <==> DueLive(t, due, b);
  }

  /** An item may leave the batch once its bot is unregistered, stale, or covered by a heap entry. */
  lemma DropKeeps(t: Tables, due: seq<Due>)
    requires Inv(t, due) && due != []
    requires Current(t, due[0]) ==> due[0].bot !in t.instances || HeapLive(t, due[0].bot)
    ensures Inv(t, due[1..])
  {
    forall b | b in t.instances ensures Scheduled(t, due[1..], b) {
      if !HeapLive(t, b) {
        var d :| d in due && d.bot == b && Current(t, d);
        assert d in due[1..];
      }
    }
  }

  lemma RepushDropKeeps(t: Tables, due: seq<Due>, at: real)
    requires Inv(t, due) && due != []
    ensures Inv(Repush(t, due[0], at), due[1..])
  {
    var d := due[0];
    assert d in due && DueSound(t, d);
    if Current(t, d) {
      PushKeeps(t, due, Entry(at, d.gen, d.bot));
    }
    DropKeeps(Repush(t, d, at), due);
  }

  lemma RetireKeeps(t: Tables, due: seq<Due>)
    requires Inv(t, due) && due != []
    ensures Inv(Unregister(t, due[0].bot, Some(due[0].mgr)), due[1..])
  {
    assert due[0] in due && DueSound(t, due[0]);
    RemoveKeeps(t, due, due[0].bot, Some(due[0].mgr));
    DropKeeps(Unregister(t, due[0].bot, Some(due[0].mgr)), due);
  }

  lemma SleepKeeps(t: Tables, now: real, t': Tables, delay: real)
    requires Inv(t, []) && NextSleep(t, now, t', delay)
    ensures Inv(t', [])
  {
    assert forall e :: e in t'.heap ==> e in t.heap;
    forall b | b in t'.instances ensures Scheduled(t', [], b) {
      assert HeapLive(t, b);
      var e :| e in t.heap && e.bot == b && Live(t, e);
      assert e in t'.heap && Live(t', e);
    }
  }

  lemma DrainKeeps(t: Tables, now: real, t': Tables, due: seq<Due>)
    requires Inv(t, []) && Drains(t, now, t', due)
    ensures Inv(t', due)
  {
    DrainFacts(t, now, t', due);
    assert forall e :: e in t'.heap ==> e in t.heap;
    forall b | b in t'.instances ensures Scheduled(t', due, b) {
      assert HeapLive(t, b);
      var e :| e in t.heap && e.bot == b && Live(t, e);
      if e.at <= now {
        assert Capture(t, e) in due && Current(t', Capture(t, e));
      } else {
        assert e in t'.heap && Live(t', e);
      }
    }
    forall d | d in due ensures DueSound(t', d) {
      var e :| e in t.heap && e.at <= now && Live(t, e) && d == Capture(t, e);
    }
  }

  predicate ByCaller(e: Event) {
    e.AddBot? || e.RemoveBot? || e.Reschedule? || e.SetWake? || e.Tick?
  }

  lemma CallerKeepsInv(s: System, e: Event, s': System)
    requires Inv(s.tables, Unfinished(s)) && Next(s, e, s') && ByCaller(e)
    ensures Inv(s'.tables, Unfinished(s'))
  {
    var t, due := s.tables, Unfinished(s);
    if e.AddBot? {
      AddKeeps(t, due, e.bot, e.instance, e.admission, s.clock + e.delay);
    } else if e.RemoveBot? {
      RemoveKeeps(t, due, e.bot, e.expected);
    } else if e.Reschedule? {
      SoonKeeps(t, due, e.bot, s.clock + MIN_INTERVAL);
    }
  }

  /** The sections that take an item off the batch. */
  predicate Finishes(e: Event) {
    e.Skip? || e.Decline? || e.Fail? || e.PushBack? || e.Retire?
  }

  lemma FailKeepsInv(s: System, s': System)
    requires Inv(s.tables, Unfinished(s)) && Next(s, Fail, s')
    ensures Inv(s'.tables, Unfinished(s'))
  {
    var t, due := s.tables, Unfinished(s);
    FailuresIrrelevant(t, due, s'.tables.failures);
    if !Current(t, due[0]) { DropKeeps(t, due); }
  }

  lemma FinishKeepsInv(s: System, e: Event, s': System)
    requires Inv(s.tables, Unfinished(s)) && Next(s, e, s') && Finishes(e)
    ensures Inv(s'.tables, Unfinished(s'))
  {
    var t, due := s.tables, Unfinished(s);
    if e.Skip? {
      assert due[0] in due && DueSound(t, due[0]);
      DropKeeps(t, due);
    } else if e.Decline? {
      RepushDropKeeps(t, due, s.clock + IDLE_INTERVAL);
    } else if e.Fail? {
      FailKeepsInv(s, s');
    } else if e.PushBack? {
      RepushDropKeeps(t, due, s.clock + s.worker.stage.delay);
    } else {
      RetireKeeps(t, due);
    }
  }

  lemma NextKeepsInv(s: System, e: Event, s': System)
    requires Inv(s.tables, Unfinished(s)) && Next(s, e, s')
    ensures Inv(s'.tables, Unfinished(s'))
  {
    if ByCaller(e) {
      CallerKeepsInv(s, e, s');
    } else if Finishes(e) {
      FinishKeepsInv(s, e, s');
    } else if e.Choose? {
      SleepKeeps(s.tables, s.clock, s'.tables, s'.worker.delay);
    } else if e.Drain? {
      DrainKeeps(s.tables, s.clock, s'.tables, s'.worker.due);
    } else if e.Succeed? {
      FailuresIrrelevant(s.tables, Unfinished(s), s'.tables.failures);
    }
  }

  lemma {:induction false} RunKeepsInv(states: seq<System>, events: seq<Event>, n: nat)
    requires IsRun(states, events) && n <= |events|
    ensures Inv(states[n].tables, Unfinished(states[n]))
  {
    if n > 0 {
      RunKeepsInv(states, events, n - 1);
      assert StepAt(states, events, n - 1);
      NextKeepsInv(states[n - 1], events[n - 1], states[n]);
    }
  }

  /**
   * No wake-up is ever lost and no removed bot is ever checked: under every interleaving a bot is
   * registered exactly when some entry of its current generation is in the heap or in the unfinished batch.
   */
  lemma RegisteredIffScheduled(states: seq<System>, events: seq<Event>, n: nat, b: Bot)
    requires IsRun(states, events) && n <= |events|
    ensures b in states[n].tables.instances <==> Scheduled(states[n].tables, Unfinished(states[n]), b)
  {
    RunKeepsInv(states, events, n);
  }
}
