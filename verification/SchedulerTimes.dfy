/** When a bot is checked next, when a failing bot is given up, and which captured items are swept at all. */
module SchedulerTimes {
  import opened Leases
  import opened SchedulerRules
  import opened SchedulerRuns
  import opened SchedulerGuarantees

  /** One further entry for `b`, `ahead` seconds from now, that counts until `b` is next unregistered; else nothing new. */
  predicate Put(s: System, s': System, b: Bot, ahead: real) {
    var e := Entry(s.clock + ahead, Get(s.tables.gens, b), b);
    s'.tables.heap == s.tables.heap + multiset{e} && e in s'.tables.heap && Live(s'.tables, e)
  }

  /** A registration is due after the delay it names; a superseded one changes nothing. */
  lemma AddSchedules(s: System, b: Bot, i: Instance, admission: bool, delay: real, s': System)
    requires Next(s, AddBot(b, i, admission, delay), s')
    ensures i.generation >= Get(s.tables.mgrGens, b) ==> Put(s, s', b, delay) && b in s'.tables.instances && s'.tables.instances[b] == i
    ensures i.generation < Get(s.tables.mgrGens, b) ==> s' == s
  {
  }

  /** A request for an early check puts one in a second ahead, for registered bots only. */
  lemma RescheduleSchedules(s: System, b: Bot, s': System)
    requires Next(s, Reschedule(b), s')
    ensures b in s.tables.instances ==> Put(s, s', b, 1.0)
    ensures b !in s.tables.instances ==> s' == s
  {
  }

  /** A captured item that may not run comes back after a minute, if its registration still stands. */
  lemma DeclineSchedules(s: System, s': System)
    requires Next(s, Decline, s')
    ensures Current(s.tables, Head(s)) ==> Put(s, s', Head(s).bot, 60.0)
    ensures !Current(s.tables, Head(s)) ==> s'.tables == s.tables
    ensures s'.wake && s'.worker == Sweeping(s.worker.due[1..], Fresh)
  {
  }

  /** How far ahead the next check goes after each outcome of a sweep. */
  predicate Ahead(e: Event, gap: real) {
    match e
    case Succeed(None) => gap == 60.0
    case Succeed(Some(x)) => gap >= x && gap >= 1.0 && (gap == x || gap == 1.0)
    case Fail => gap == 30.0
    case _ => false
  }

  /** The outcome that the thread is about to act on. */
  lemma {:induction false} OutcomeOf(states: seq<System>, events: seq<Event>, n: nat) returns (i: nat)
    requires IsRun(states, events) && n <= |events|
    requires states[n].worker.Sweeping? && states[n].worker.due != [] && states[n].worker.stage.Pushing?
    ensures i < n && At(states[i], Running) && Head(states[i]) == Head(states[n]) && Ahead(events[i], states[n].worker.stage.delay)
    ensures forall m :: i < m <= n ==> states[m].worker == states[n].worker
  {
    assert n > 0 && StepAt(states, events, n - 1);
    i := n - 1;
    if !events[n - 1].Succeed? && !events[n - 1].Fail? { i := OutcomeOf(states, events, n - 1); }
  }

  /**
   * After a sweep its bot is checked again exactly when the sweep asked for it, no sooner than in a second; after a
   * minute when it asked for nothing, and after half a minute when it failed. If the registration was overtaken meanwhile,
   * nothing is scheduled for it.
   */
  lemma PushedAfterSweep(states: seq<System>, events: seq<Event>, n: nat) returns (i: nat, gap: real)
    requires IsRun(states, events) && n < |events| && events[n].PushBack?
    ensures i < n && At(states[i], Running) && At(states[n], Pushing(gap)) && Head(states[i]) == Head(states[n]) && Ahead(events[i], gap)
    ensures forall m :: i < m <= n ==> states[m].worker == states[n].worker
    ensures Current(states[n].tables, Head(states[n])) ==> Put(states[n], states[n + 1], Head(states[n]).bot, gap)
    ensures !Current(states[n].tables, Head(states[n])) ==> states[n + 1].tables == states[n].tables
    ensures states[n + 1].wake
  {
    assert StepAt(states, events, n);
    gap := states[n].worker.stage.delay;
    i := OutcomeOf(states, events, n);
  }

  /** A failing sweep is fatal if and only if it is at least the fifth failure of its registration in a row. */
  lemma FifthIsFatal(states: seq<System>, events: seq<Event>, n: nat)
    requires IsRun(states, events) && n < |events| && events[n].Fail? && At(states[n], Running)
    requires Current(states[n].tables, Head(states[n]))
    ensures At(states[n + 1], Retiring) <==> Streak(states, events, n + 1, Head(states[n]).bot) >= 5
    ensures At(states[n + 1], Retiring) || At(states[n + 1], Pushing(30.0))
  {
    assert StepAt(states, events, n);
    CounterIsStreak(states, events, n + 1, Head(states[n]).bot);
  }

  // ---------------------------------------------------------- what is swept

  /** `b` was registered with an admission at step `i`, and nothing has unregistered it since. */
  predicate AdmittedSince(states: seq<System>, events: seq<Event>, i: nat, n: nat, b: Bot)
    requires n <= |events| && n <= |states|
  {
    i < n && Registers(states[i], events[i], b) && events[i].admission && Undisturbed(states, events, i + 1, n, b)
  }

  lemma NextAdmissions(s: System, e: Event, s': System, b: Bot)
    requires Next(s, e, s')
    ensures b in s'.tables.admissions <==>
            (b in s.tables.admissions && !Unregisters(s, e, b)) || (Registers(s, e, b) && e.admission)
    ensures Registers(s, e, b) ==> !Unregisters(s, e, b)
  {
    if e.Drain? { DrainFacts(s.tables, s.clock, s'.tables, s'.worker.due); }
  }

  /** A bot holds an admission exactly from a registration that brought one until it is unregistered. */
  lemma {:induction false} AdmittedIff(states: seq<System>, events: seq<Event>, n: nat, b: Bot)
    requires IsRun(states, events) && n <= |events|
    ensures b in states[n].tables.admissions <==> exists i: nat :: AdmittedSince(states, events, i, n, b)
  {
    if n > 0 {
      var last := n - 1;
      AdmittedIff(states, events, last, b);
      assert StepAt(states, events, last);
      NextAdmissions(states[last], events[last], states[n], b);
      if Registers(states[last], events[last], b) && events[last].admission { assert AdmittedSince(states, events, last, n, b); }
      forall i: nat | i < last
        ensures AdmittedSince(states, events, i, n, b) <==>
                AdmittedSince(states, events, i, last, b) && !Unregisters(states[last], events[last], b) {}
    }
  }

  /** `x` was registered for `b` at step `i`, and nothing has registered or unregistered `b` since. */
  predicate RegisteredSince(states: seq<System>, events: seq<Event>, i: nat, n: nat, b: Bot, x: Instance)
    requires n <= |events| && n <= |states|
  {
    && i < n && Registers(states[i], events[i], b) && events[i].instance == x
    && forall m :: i < m < n ==> !Registers(states[m], events[m], b) && !Unregisters(states[m], events[m], b)
  }

  lemma NextRegistered(s: System, e: Event, s': System, b: Bot)
    requires Next(s, e, s')
    ensures Registers(s, e, b) ==> b in s'.tables.instances && s'.tables.instances[b] == e.instance
    ensures Unregisters(s, e, b) ==> b !in s'.tables.instances && !Registers(s, e, b)
    ensures !Registers(s, e, b) && !Unregisters(s, e, b) ==>
              && (b in s'.tables.instances <==> b in s.tables.instances)
              && (b in s.tables.instances ==> s'.tables.instances[b] == s.tables.instances[b])
  {
    if !Unregisters(s, e, b) { NextInstance(s, e, s', b); }
  }

  /** The instance registered for a bot is the one registered last, unless the bot has been unregistered since. */
  lemma {:induction false} RegisteredIff(states: seq<System>, events: seq<Event>, n: nat, b: Bot, x: Instance)
    requires IsRun(states, events) && n <= |events|
    ensures b in states[n].tables.instances && states[n].tables.instances[b] == x <==>
            exists i: nat :: RegisteredSince(states, events, i, n, b, x)
  {
    if n > 0 {
      var last := n - 1;
      RegisteredIff(states, events, last, b, x);
      assert StepAt(states, events, last);
      NextRegistered(states[last], events[last], states[n], b);
      if Registers(states[last], events[last], b) && events[last].instance == x {
        assert RegisteredSince(states, events, last, n, b, x);
      }
      forall i: nat | i < last
        ensures RegisteredSince(states, events, i, n, b, x) <==>
                && RegisteredSince(states, events, i, last, b, x)
                && !Registers(states[last], events[last], b) && !Unregisters(states[last], events[last], b) {}
    }
  }

  /**
   * Which captured items are swept: exactly those whose instance is still the registered one, of a bot that still holds an
   * admission. So no replaced or removed instance is ever swept.
   */
  lemma RunsIff(states: seq<System>, events: seq<Event>, n: nat)
    requires IsRun(states, events) && n < |events| && events[n].Begin? && At(states[n], Fresh) && Head(states[n]).instance.Some?
    ensures var d := Head(states[n]);
            At(states[n + 1], Running) <==>
              && (exists i: nat :: RegisteredSince(states, events, i, n, d.bot, d.instance.value))
              && (exists i: nat :: AdmittedSince(states, events, i, n, d.bot))
    ensures At(states[n + 1], Running) || At(states[n + 1], Refusing)
  {
    assert StepAt(states, events, n);
    RegisteredIff(states, events, n, Head(states[n]).bot, Head(states[n]).instance.value);
    AdmittedIff(states, events, n, Head(states[n]).bot);
  }
}
