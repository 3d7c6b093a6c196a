/** The scheduler object: each method is one critical section on its tables. */
module Scheduler {
  import opened Leases
  import opened SchedulerRules
  import Rules = SchedulerRules

  class BotScheduler {
    var instances: map<Bot, Instance>
    var heap: multiset<Entry>
    var gens: map<Bot, int>
    var failures: map<Bot, int>
    var admissions: set<Bot>
    var mgrGens: map<Bot, int>

    function State(): Tables
      reads this
    {
      Tables(instances, heap, gens, failures, admissions, mgrGens)
    }

    constructor ()
      ensures State() == Tables(map[], multiset{}, map[], map[], {}, map[])
    {
      instances, heap, gens, failures, admissions, mgrGens := map[], multiset{}, map[], map[], {}, map[];
    }

    /** Registers an instance and schedules its first check `delay` seconds from now. */
    method Add(b: Bot, i: Instance, admission: bool, delay: real, now: real)
      modifies this
      ensures State() == Rules.Add(old(State()), b, i, admission, now + delay)
    {
      if i.generation < Get(mgrGens, b) {
        return;
      }
      mgrGens := mgrGens[b := i.generation];
      instances := instances[b := i];
      failures := failures[b := 0];
      if admission {
        admissions := admissions + {b};
      }
      heap := heap + multiset{Entry(now + delay, Get(gens, b), b)};
    }

    method Remove(b: Bot, expected: Option<int>)
      modifies this
      ensures State() == Unregister(old(State()), b, expected)
    {
      if expected.Some? && Get(mgrGens, b) != expected.value {
        return;
      }
      gens := gens[b := Get(gens, b) + 1];
      instances := instances - {b};
      failures := failures - {b};
      admissions := admissions - {b};
    }

    method RescheduleSoon(b: Bot, now: real)
      modifies this`heap
      ensures State() == Soon(old(State()), b, now + MIN_INTERVAL)
    {
      if b !in instances {
        return;
      }
      heap := heap + multiset{Entry(now + MIN_INTERVAL, Get(gens, b), b)};
    }

    /** Seconds until the next live entry; stale entries at the top are discarded on the way. */
    method NextSleep(now: real) returns (delay: real)
      modifies this`heap
      ensures Rules.NextSleep(old(State()), now, State(), delay)
    {
      ghost var s := State();
      while |heap| > 0
        invariant State() == s.(heap := heap)
        invariant forall e :: heap[e] <= s.heap[e]
        invariant forall e :: Live(s, e) ==> heap[e] == s.heap[e]
        decreases |heap|
      {
        ghost var top := HasTop(heap);
        var e :| e in heap && forall f | f in heap :: Before(e, f);
        if e.gen != Get(gens, e.bot) {
          heap := heap - multiset{e};
        } else {
          assert s.heap[e] > 0;
          assert forall f :: f in heap ==> Before(e, f) && e.at <= f.at;
          delay := if e.at > now then e.at - now else 0.0;
          return;
        }
      }
      assert heap == multiset{};
      delay := IDLE_INTERVAL;
    }

    /** Pops every due entry, earliest first, up to the first one still ahead. */
    method PopDue(now: real) returns (popped: seq<Entry>)
      modifies this`heap
      ensures Popped(old(heap), now, popped) && heap == old(heap) - multiset(popped)
    {
      popped := [];
      while |heap| > 0
        invariant old(heap) == heap + multiset(popped) && PoppedFirst(heap, now, popped)
        decreases |heap|
      {
        ghost var top := HasTop(heap);
        var e :| e in heap && forall f | f in heap :: Before(e, f);
        if e.at > now {
          assert forall f :: f in heap ==> Before(e, f) && e.at <= f.at;
          assert forall f :: f in heap ==> f.at > now;
          PoppedAll(old(heap), heap, now, popped);
          return;
        }
        PoppedNext(heap, now, popped, e);
        heap := heap - multiset{e};
        popped := popped + [e];
      }
      PoppedAll(old(heap), heap, now, popped);
    }

    /** Pops everything that is due; live entries are captured together with their registration. */
    method DrainDue(now: real) returns (due: seq<Due>)
      modifies this`heap
      ensures Drains(old(State()), now, State(), due)
    {
      ghost var s := State();
      var popped := PopDue(now);
      due := [];
      var i := 0;
      while i < |popped|
        invariant 0 <= i <= |popped|
        invariant due == Captures(s, popped[..i])
      {
        var e := popped[i];
        assert popped[..i + 1][..i] == popped[..i] && popped[..i + 1][i] == e;
        if e.gen == Get(gens, e.bot) {
          due := due + [Due(e.bot, e.gen, Get(mgrGens, e.bot),
                            if e.bot in instances then Some(instances[e.bot]) else None)];
        }
        i := i + 1;
      }
      assert popped[..i] == popped;
    }

    method AccountSuccess(d: Due)
      modifies this`failures
      ensures State() == Succeeded(old(State()), d)
    {
      if Get(gens, d.bot) == d.gen {
        failures := failures[d.bot := 0];
      }
    }

    /** Charges a failure to the registration that ran; `fatal` asks for its removal. */
    method AccountFailure(d: Due) returns (charged: bool, fatal: bool)
      modifies this`failures
      ensures State() == Failed(old(State()), d)
      ensures charged <==> old(Current(State(), d))
      ensures fatal <==> charged && Get(failures, d.bot) >= MAX_FAILURES
    {
      charged, fatal := false, false;
      if Get(gens, d.bot) != d.gen {
        return;
      }
      failures := failures[d.bot := Get(failures, d.bot) + 1];
      charged, fatal := true, failures[d.bot] >= MAX_FAILURES;
    }

    method PushAgain(d: Due, delay: real, now: real)
      modifies this`heap
      ensures State() == Repush(old(State()), d, now + delay)
    {
      if Get(gens, d.bot) == d.gen {
        heap := heap + multiset{Entry(now + delay, d.gen, d.bot)};
      }
    }
  }

  /** Entries popped so far: due, in order, and before everything left. */
  ghost predicate PoppedFirst(rest: multiset<Entry>, now: real, popped: seq<Entry>) {
    && (forall e :: e in popped ==> e.at <= now && forall f :: f in rest ==> Before(e, f))
    && (forall i, j :: 0 <= i < j < |popped| ==> Before(popped[i], popped[j]))
  }

  lemma PoppedNext(rest: multiset<Entry>, now: real, popped: seq<Entry>, e: Entry)
    requires PoppedFirst(rest, now, popped) && Top(rest, e) && e.at <= now
    ensures PoppedFirst(rest - multiset{e}, now, popped + [e])
  {
    assert forall f :: f in rest - multiset{e} ==> f in rest;
  }

  /** Once nothing due is left, exactly the due entries have been popped. */
  lemma PoppedAll(heap: multiset<Entry>, rest: multiset<Entry>, now: real, popped: seq<Entry>)
    requires heap == rest + multiset(popped) && PoppedFirst(rest, now, popped)
    requires forall e :: e in rest ==> e.at > now
    ensures Popped(heap, now, popped) && rest == heap - multiset(popped)
  {
    assert forall e :: e in popped <==> e in multiset(popped);
    forall e ensures multiset(popped)[e] == if e.at <= now then heap[e] else 0 {
      assert heap[e] == rest[e] + multiset(popped)[e];
    }
  }
}
