/** What every interleaving of the scheduler guarantees: sleep, generations, failure accounting. */
module SchedulerGuarantees {
  import opened Leases
  import opened SchedulerRules
  import opened SchedulerRuns

  // ------------------------------------------------------------------ sleep

  /**
   * A thread that nobody has woken, or is about to wake, sleeps no longer than any live entry allows, but for the
   * slack: it is due no later than the slack after the entry's time, or due already.
   */
  predicate SleepSound(s: System) {
    !s.wake && s.setters == 0 ==>
      forall e :: e in s.tables.heap && Live(s.tables, e) ==>
        && (s.worker.Waiting? ==> s.worker.delay <= 0.0 || s.worker.chosen + s.worker.delay <= e.at)
        && (s.worker.Sleeping? ==> s.worker.until <= e.at + s.worker.slack || s.worker.until <= s.clock)
  }

  lemma NextKeepsSleep(s: System, e: Event, s': System)
    requires Inv(s.tables, Unfinished(s)) && SleepSound(s) && Next(s, e, s')
    ensures SleepSound(s')
  {
    if e.Choose? {
      forall x | x in s'.tables.heap && Live(s'.tables, x) ensures Live(s.tables, x) {}
    } else if (s'.worker.Waiting? || s'.worker.Sleeping?) && e.RemoveBot? {
      forall x | x in s'.tables.heap && Live(s'.tables, x) ensures Live(s.tables, x) {}
    }
  }

  /** The slack of a sleep is the time between working out its delay and beginning to wait. */
  lemma {:induction false} SlackIs(states: seq<System>, events: seq<Event>, n: nat) returns (i: nat, j: nat)
    requires IsRun(states, events) && n <= |events| && (states[n].worker.Waiting? || states[n].worker.Sleeping?)
    ensures i < n && events[i].Choose?
    ensures states[n].worker.Waiting? ==> states[n].worker.chosen == states[i].clock
    ensures states[n].worker.Sleeping? ==> i < j < n && events[j].Wait? && states[n].worker.slack == states[j].clock - states[i].clock
  {
    assert n > 0 && StepAt(states, events, n - 1);
    i, j := n - 1, n - 1;
    if !events[n - 1].Choose? {
      var j';
      i, j' := SlackIs(states, events, n - 1);
      if !events[n - 1].Wait? { j := j'; }
    }
  }

  /** Under every interleaving the thread oversleeps no live entry by more than its slack. */
  lemma {:induction false} NeverOversleeps(states: seq<System>, events: seq<Event>, n: nat)
    requires IsRun(states, events) && n <= |events|
    ensures SleepSound(states[n])
  {
    if n > 0 {
      NeverOversleeps(states, events, n - 1);
      RunKeepsInv(states, events, n - 1);
      assert StepAt(states, events, n - 1);
      NextKeepsSleep(states[n - 1], events[n - 1], states[n]);
    }
  }

  // ------------------------------------------------------------ generations

  lemma NextKeepsMarks(s: System, e: Event, s': System, b: Bot)
    requires Next(s, e, s')
    ensures Get(s.tables.mgrGens, b) <= Get(s'.tables.mgrGens, b)
    ensures Get(s.tables.gens, b) <= Get(s'.tables.gens, b)
    ensures e.AddBot? && e.bot == b ==> e.instance.generation <= Get(s'.tables.mgrGens, b)
  {
  }

  /** The registered instance is at least as new as every instance ever offered for its bot. */
  lemma {:induction false} NewestWins(states: seq<System>, events: seq<Event>, n: nat, b: Bot, i: nat)
    requires IsRun(states, events) && i < n <= |events|
    requires events[i].AddBot? && events[i].bot == b && b in states[n].tables.instances
    ensures events[i].instance.generation <= states[n].tables.instances[b].generation
  {
    RunKeepsInv(states, events, n);
    assert StepAt(states, events, i);
    NextKeepsMarks(states[i], events[i], states[i + 1], b);
    MarksGrow(states, events, i + 1, n, b);
  }

  lemma {:induction false} MarksGrow(states: seq<System>, events: seq<Event>, i: nat, n: nat, b: Bot)
    requires IsRun(states, events) && i <= n <= |events|
    ensures Get(states[i].tables.mgrGens, b) <= Get(states[n].tables.mgrGens, b)
    ensures Get(states[i].tables.gens, b) <= Get(states[n].tables.gens, b)
  {
    if i < n {
      MarksGrow(states, events, i, n - 1, b);
      assert StepAt(states, events, n - 1);
      NextKeepsMarks(states[n - 1], events[n - 1], states[n], b);
    }
  }

  /** A scoped remove unregisters exactly the generation it names; any other registration is untouched. */
  lemma ScopedRemoveIsExact(states: seq<System>, events: seq<Event>, n: nat, b: Bot, g: int)
    requires IsRun(states, events) && n < |events| && b in states[n].tables.instances
    requires events[n] == RemoveBot(b, Some(g))
    ensures b !in states[n + 1].tables.instances <==> states[n].tables.instances[b].generation == g
    ensures b in states[n + 1].tables.instances ==> states[n + 1] == states[n]
  {
    RunKeepsInv(states, events, n);
    assert StepAt(states, events, n);
  }

  /** The fatal path never unregisters an instance newer than the one whose sweeps failed. */
  lemma FatalPathSparesNewer(states: seq<System>, events: seq<Event>, n: nat)
    requires IsRun(states, events) && n < |events| && events[n].Retire?
    requires At(states[n], Retiring) && Head(states[n]).bot in states[n].tables.instances
    requires states[n].tables.instances[Head(states[n]).bot].generation > Head(states[n]).mgr
    ensures states[n + 1].tables == states[n].tables
  {
    RunKeepsInv(states, events, n);
    assert StepAt(states, events, n);
  }

  // ------------------------------------------------------ overtaken sweeps

  /** The step unregisters `b`. */
  predicate Unregisters(s: System, e: Event, b: Bot) {
    || (e.RemoveBot? && e.bot == b && Removes(s.tables, b, e.expected))
    || (e.Retire? && At(s, Retiring) && Head(s).bot == b && Removes(s.tables, b, Some(Head(s).mgr)))
  }

  lemma NextGens(s: System, e: Event, s': System, b: Bot)
    requires Next(s, e, s')
    ensures Get(s'.tables.gens, b) == Get(s.tables.gens, b) + (if Unregisters(s, e, b) then 1 else 0)
  {
    if e.Drain? { DrainFacts(s.tables, s.clock, s'.tables, s'.worker.due); }
  }

  /** A drained item is current when it is captured, with the registration of that moment. */
  lemma CapturedIsCurrent(s: System, s': System, d: Due)
    requires Next(s, Drain, s') && d in Unfinished(s')
    ensures Current(s'.tables, d) && d.mgr == Get(s'.tables.mgrGens, d.bot)
    ensures d.instance == if d.bot in s'.tables.instances then Some(s'.tables.instances[d.bot]) else None
  {
    DrainFacts(s.tables, s.clock, s'.tables, s'.worker.due);
  }

  lemma GensNext(states: seq<System>, events: seq<Event>, n: nat, b: Bot)
    requires IsRun(states, events) && n < |events|
    ensures Get(states[n + 1].tables.gens, b)
         == Get(states[n].tables.gens, b) + (if Unregisters(states[n], events[n], b) then 1 else 0)
  {
    assert StepAt(states, events, n);
    NextGens(states[n], events[n], states[n + 1], b);
  }

  /** Nothing unregisters `b` in the steps `[i, n)`. */
  predicate Undisturbed(states: seq<System>, events: seq<Event>, i: nat, n: nat, b: Bot)
    requires n <= |events| && n <= |states|
  {
    forall m :: i <= m < n ==> !Unregisters(states[m], events[m], b)
  }

  lemma {:induction false} GensSame(states: seq<System>, events: seq<Event>, i: nat, n: nat, b: Bot)
    requires IsRun(states, events) && i <= n <= |events|
    ensures Get(states[i].tables.gens, b) <= Get(states[n].tables.gens, b)
    ensures Get(states[i].tables.gens, b) == Get(states[n].tables.gens, b) <==> Undisturbed(states, events, i, n, b)
    decreases n
  {
    if i < n {
      GensSame(states, events, i, n - 1, b);
      assert Undisturbed(states, events, i, n, b) <==>
             Undisturbed(states, events, i, n - 1, b) && !Unregisters(states[n - 1], events[n - 1], b);
      GensNext(states, events, n - 1, b);
    }
  }

  /** An item that is current at some time stays so exactly as long as nothing unregisters its bot, and never again after. */
  lemma OvertakenIff(states: seq<System>, events: seq<Event>, i: nat, n: nat, d: Due)
    requires IsRun(states, events) && i <= n <= |events| && Current(states[i].tables, d)
    ensures Current(states[n].tables, d) <==> Undisturbed(states, events, i, n, d.bot)
  {
    GensSame(states, events, i, n, d.bot);
  }

  /** And an item that is not current leaves no trace in the tables, whatever its sweep did. */
  lemma OvertakenLeavesNoTrace(s: System, e: Event, s': System)
    requires Next(s, e, s') && (e.Succeed? || e.Fail? || e.PushBack? || e.Decline?)
    requires !Current(s.tables, Head(s))
    ensures s'.tables == s.tables
  {
  }

  /** The step registers an instance for `b`. */
  predicate Registers(s: System, e: Event, b: Bot) {
    e.AddBot? && e.bot == b && Accepts(s.tables, b, e.instance.generation)
  }

  /** The last step in `[i, n)` that registers an instance for `b`, if there is one. */
  function LastRegistration(states: seq<System>, events: seq<Event>, i: nat, n: nat, b: Bot): (m: Option<nat>)
    requires |states| == |events| + 1 && i <= n <= |events|
    ensures m.Some? ==> i <= m.value < n && Registers(states[m.value], events[m.value], b)
    ensures m.None? <==> forall k :: i <= k < n ==> !Registers(states[k], events[k], b)
    ensures m.Some? ==> forall k :: m.value < k < n ==> !Registers(states[k], events[k], b)
    decreases n
  {
    if i == n then None
    else if Registers(states[n - 1], events[n - 1], b) then Some((n - 1) as nat)
    else LastRegistration(states, events, i, n - 1, b)
  }

  lemma NextInstance(s: System, e: Event, s': System, b: Bot)
    requires Next(s, e, s') && !Unregisters(s, e, b)
    ensures Registers(s, e, b) ==> b in s'.tables.instances && s'.tables.instances[b] == e.instance
    ensures !Registers(s, e, b) ==> (b in s'.tables.instances <==> b in s.tables.instances)
    ensures !Registers(s, e, b) && b in s.tables.instances ==> s'.tables.instances[b] == s.tables.instances[b]
  {
    if e.Drain? { DrainFacts(s.tables, s.clock, s'.tables, s'.worker.due); }
  }

  /** While nothing unregisters a bot, its instance is the last one registered. */
  lemma {:induction false} InstanceIs(states: seq<System>, events: seq<Event>, i: nat, n: nat, b: Bot)
    requires IsRun(states, events) && i <= n <= |events| && b in states[i].tables.instances
    requires Undisturbed(states, events, i, n, b)
    ensures var last := LastRegistration(states, events, i, n, b);
            && b in states[n].tables.instances
            && states[n].tables.instances[b] == if last.Some? then events[last.value].instance else states[i].tables.instances[b]
    decreases n
  {
    if i < n {
      assert StepAt(states, events, n - 1) && !Unregisters(states[n - 1], events[n - 1], b);
      NextInstance(states[n - 1], events[n - 1], states[n], b);
      if !Registers(states[n - 1], events[n - 1], b) {
        assert Undisturbed(states, events, i, n - 1, b);
        InstanceIs(states, events, i, n - 1, b);
      }
    }
  }

  /**
   * Whom a failing sweep is charged to. An item drained at step `i` whose sweep fails at step `n` is charged to its bot
   * if and only if nothing unregistered the bot in between; and then the registration charged is the captured one if
   * and only if no other instance was registered over it since: adding without removing keeps the generation.
   */
  lemma ChargedIff(states: seq<System>, events: seq<Event>, i: nat, n: nat, d: Due)
    requires IsRun(states, events) && i < n < |events|
    requires events[i].Drain? && d in Unfinished(states[i + 1])
    requires events[n].Fail? && At(states[n], Running) && Head(states[n]) == d
    ensures Fails(states[n], events[n], d.bot) <==> Undisturbed(states, events, i + 1, n, d.bot)
    ensures Fails(states[n], events[n], d.bot) ==>
              var last := LastRegistration(states, events, i + 1, n, d.bot);
              && d.bot in states[n].tables.instances
              && (Some(states[n].tables.instances[d.bot]) == d.instance <==>
                  last.None? || Some(events[last.value].instance) == d.instance)
  {
    CapturedIsRegistered(states, events, i, d);
    OvertakenIff(states, events, i + 1, n, d);
    if Fails(states[n], events[n], d.bot) {
      InstanceIs(states, events, i + 1, n, d.bot);
    }
  }

  lemma CapturedIsRegistered(states: seq<System>, events: seq<Event>, i: nat, d: Due)
    requires IsRun(states, events) && i < |events| && events[i].Drain? && d in Unfinished(states[i + 1])
    ensures var t := states[i + 1].tables;
            Current(t, d) && d.bot in t.instances && d.instance == Some(t.instances[d.bot])
  {
    assert StepAt(states, events, i);
    CapturedIsCurrent(states[i], states[i + 1], d);
    RunKeepsInv(states, events, i + 1);
    assert DueSound(states[i + 1].tables, d);
  }

  // --------------------------------------------------------- failure streaks

  /** The event ends `b`'s streak: registered anew, unregistered, or a successful sweep accounted to it. */
  predicate Resets(s: System, e: Event, b: Bot) {
    || Registers(s, e, b) || Unregisters(s, e, b)
    || (e.Succeed? && At(s, Running) && Head(s).bot == b && Current(s.tables, Head(s)))
  }

  predicate Fails(s: System, e: Event, b: Bot) {
    e.Fail? && At(s, Running) && Head(s).bot == b && Current(s.tables, Head(s))
  }

  /** Failures counted since the last reset, over the first `n` steps. */
  function SinceReset(n: nat, resets: nat -> bool, fails: nat -> bool): nat {
    if n == 0 || resets(n - 1) then 0 else SinceReset(n - 1, resets, fails) + (if fails(n - 1) then 1 else 0)
  }

  lemma {:induction false} CounterCounts(n: nat, resets: nat -> bool, fails: nat -> bool, counter: nat -> int)
    requires counter(0) == 0
    requires forall i: nat :: i < n ==> counter(i + 1) == if resets(i) then 0 else counter(i) + (if fails(i) then 1 else 0)
    ensures counter(n) == SinceReset(n, resets, fails)
  {
    if n > 0 {
      CounterCounts(n - 1, resets, fails, counter);
      assert counter((n - 1) + 1) == if resets(n - 1) then 0 else counter(n - 1) + (if fails(n - 1) then 1 else 0);
    }
  }

  function ResetsAt(states: seq<System>, events: seq<Event>, b: Bot): nat -> bool {
    (i: nat) => i < |events| && i < |states| && Resets(states[i], events[i], b)
  }

  function FailsAt(states: seq<System>, events: seq<Event>, b: Bot): nat -> bool {
    (i: nat) => i < |events| && i < |states| && Fails(states[i], events[i], b)
  }

  /** Failures accounted to `b` since its streak was last reset, read off the history alone. */
  function Streak(states: seq<System>, events: seq<Event>, n: nat, b: Bot): nat {
    SinceReset(n, ResetsAt(states, events, b), FailsAt(states, events, b))
  }

  function CounterAt(states: seq<System>, b: Bot): nat -> int {
    (i: nat) => if i < |states| then Get(states[i].tables.failures, b) else 0
  }

  lemma NextCounts(s: System, e: Event, s': System, b: Bot)
    requires Next(s, e, s')
    ensures Get(s'.tables.failures, b) ==
            if Resets(s, e, b) then 0 else Get(s.tables.failures, b) + (if Fails(s, e, b) then 1 else 0)
  {
  }

  /** The counter is exactly the streak. */
  lemma CounterIsStreak(states: seq<System>, events: seq<Event>, n: nat, b: Bot)
    requires IsRun(states, events) && n <= |events|
    ensures Get(states[n].tables.failures, b) == Streak(states, events, n, b)
  {
    var resets, fails, counter := ResetsAt(states, events, b), FailsAt(states, events, b), CounterAt(states, b);
    forall i: nat | i < n ensures counter(i + 1) == if resets(i) then 0 else counter(i) + (if fails(i) then 1 else 0) {
      assert StepAt(states, events, i);
      NextCounts(states[i], events[i], states[i + 1], b);
    }
    CounterCounts(n, resets, fails, counter);
  }

  /** How the thread came to retire the head of its batch: a failing sweep of that very item brought the counter to five. */
  lemma {:induction false} FatalFailure(states: seq<System>, events: seq<Event>, n: nat) returns (f: nat)
    requires IsRun(states, events) && n <= |events| && At(states[n], Retiring)
    ensures f < n && Fails(states[f], events[f], Head(states[n]).bot) && Head(states[f]) == Head(states[n])
    ensures forall m :: f < m <= n ==> At(states[m], Retiring) && Head(states[m]) == Head(states[n])
    ensures Get(states[f + 1].tables.failures, Head(states[n]).bot) >= MAX_FAILURES
    ensures Current(states[f + 1].tables, Head(states[n]))
  {
    assert n > 0 && StepAt(states, events, n - 1);
    f := n - 1;
    if !events[n - 1].Fail? { f := FatalFailure(states, events, n - 1); }
  }

  /** While the thread is about to retire a bot its counter only changes when somebody registers or unregisters it. */
  lemma {:induction false} CounterWaits(states: seq<System>, events: seq<Event>, f: nat, n: nat, b: Bot)
    requires IsRun(states, events) && f <= n <= |events| && b in states[n].tables.instances
    requires forall m :: f <= m <= n ==> At(states[m], Retiring)
    requires forall m :: f <= m < n ==> !events[m].Retire?
    ensures if exists m :: f <= m < n && Registers(states[m], events[m], b) then Get(states[n].tables.failures, b) == 0
            else Get(states[n].tables.failures, b) == Get(states[f].tables.failures, b)
    decreases n
  {
    if f < n {
      assert StepAt(states, events, n - 1);
      NextCounts(states[n - 1], events[n - 1], states[n], b);
      if !Registers(states[n - 1], events[n - 1], b) {
        assert !Unregisters(states[n - 1], events[n - 1], b);
        NextInstance(states[n - 1], events[n - 1], states[n], b);
        CounterWaits(states, events, f, n - 1, b);
      }
    }
  }

  /**
   * When the scheduler itself unregisters a bot, five failures in a row were accounted to that registration, with no
   * success, removal or registration in between, if and only if nobody registered the bot again between the fatal
   * failure (step `f`) and the retirement.
   */
  lemma RetiredAfterFiveIff(states: seq<System>, events: seq<Event>, n: nat) returns (f: nat)
    requires IsRun(states, events) && n < |events|
    requires events[n].Retire? && At(states[n], Retiring) && Head(states[n]).bot in states[n].tables.instances
    requires Head(states[n]).bot !in states[n + 1].tables.instances
    ensures f < n && Fails(states[f], events[f], Head(states[n]).bot) && Head(states[f]) == Head(states[n])
    ensures forall m :: f < m <= n ==> At(states[m], Retiring) && Head(states[m]) == Head(states[n])
    ensures Streak(states, events, n, Head(states[n]).bot) >= 5 <==>
            forall m :: f < m < n ==> !Registers(states[m], events[m], Head(states[n]).bot)
  {
    var b := Head(states[n]).bot;
    f := FatalFailure(states, events, n);
    forall m | f < m < n ensures !events[m].Retire? {
      assert StepAt(states, events, m) && At(states[m + 1], Retiring);
    }
    CounterWaits(states, events, f + 1, n, b);
    CounterIsStreak(states, events, n, b);
  }

  /** The manager's promise: every accepted registration of a bot carries a new, higher generation. */
  predicate FreshGenerations(states: seq<System>, events: seq<Event>) {
    |states| == |events| + 1 &&
    forall i :: 0 <= i < |events| && events[i].AddBot? && Accepts(states[i].tables, events[i].bot, events[i].instance.generation)
      ==> events[i].instance.generation > Get(states[i].tables.mgrGens, events[i].bot)
  }

  /** With fresh generations nobody can have done so, and the five failures are certain. */
  lemma RetiredOnlyAfterFive(states: seq<System>, events: seq<Event>, n: nat)
    requires IsRun(states, events) && FreshGenerations(states, events) && n < |events|
    requires events[n].Retire? && At(states[n], Retiring) && Head(states[n]).bot in states[n].tables.instances
    requires Head(states[n]).bot !in states[n + 1].tables.instances
    ensures Streak(states, events, n, Head(states[n]).bot) >= 5
  {
    var b, d := Head(states[n]).bot, Head(states[n]);
    var f := RetiredAfterFiveIff(states, events, n);
    assert StepAt(states, events, n);
    assert Get(states[n].tables.mgrGens, b) == d.mgr;
    forall m | f < m < n ensures !Registers(states[m], events[m], b) {
      RunKeepsInv(states, events, m);
      assert d in Unfinished(states[m]) && DueSound(states[m].tables, d);
      assert StepAt(states, events, m);
      MarksGrow(states, events, m + 1, n, b);
    }
  }
}
