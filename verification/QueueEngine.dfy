/** The queue bot's commands, run over a map of shared resource objects. */
module QueueEngine {
  import opened Leases
  import opened Expiry
  import opened QueueRules
  import opened QueueInvariants
  import opened QueueWake
  import opened QueueMessages
  import opened Slots

  /** Different keys name different objects. */
  predicate Separate(slots: map<Key, Slot>) {
    forall j, k :: j in slots && k in slots && j != k ==> slots[j] != slots[k]
  }

  function View(slots: map<Key, Slot>): (s: State)
    reads slots.Values
    ensures s.Keys == slots.Keys
    ensures forall k :: k in slots ==> s[k] == slots[k].Value()
  {
    map k | k in slots :: slots[k].Value()
  }

  /** When only the slot of `k` has changed since `was`, so has only its entry. */
  lemma ViewAt(slots: map<Key, Slot>, was: State, k: Key)
    requires was.Keys == slots.Keys && k in slots
    requires forall j :: j in slots && j != k ==> slots[j].Value() == was[j]
    ensures View(slots) == was[k := slots[k].Value()]
  {
  }

  function Objects(slots: map<Key, Slot>): set<Slot> {
    set k | k in slots :: slots[k]
  }

  predicate NoRepeats(keys: seq<Key>) {
    forall i, j :: 0 <= i < j < |keys| ==> keys[i] != keys[j]
  }

  /** The target list the parser hands over: known resources, each once. */
  predicate Targets(slots: map<Key, Slot>, keys: seq<Key>) {
    NoRepeats(keys) && forall k :: k in keys ==> k in slots
  }

  // -------------------------------------------------------------- policy

  method ClaimedKeys(slots: map<Key, Slot>, u: UserId, now: int) returns (claimed: set<Key>)
    ensures claimed == Claimed(View(slots), u, now)
  {
    claimed := {};
    var rest := slots.Keys;
    while rest != {}
      invariant rest <= slots.Keys
      invariant claimed == set k | k in slots.Keys - rest && Claims(slots[k].Value(), u, now)
    {
      var k :| k in rest;
      if Claims(slots[k].Value(), u, now) {
        claimed := claimed + {k};
      }
      rest := rest - {k};
    }
  }

  /** What a forbidden renewal is called: holding the resource already, or claiming it for longer than booked. */
  datatype Renewal = Relock | LongerClaim

  predicate IsRenewal(kind: Renewal, r: Resource, u: UserId, claim: Option<int>) {
    match kind
    case Relock => Has(r.holders, u)
    case LongerClaim => !Has(r.holders, u) && Renews(r, u, claim)
  }

  /** Looks at the targets in some order; whichever offends first gives the refusal its name. */
  method FindRenewal(slots: map<Key, Slot>, u: UserId, targets: seq<Key>, claim: Option<int>) returns (found: Option<Renewal>)
    requires Targets(slots, targets)
    ensures found.None? <==> forall k :: k in targets ==> !Renews(View(slots)[k], u, claim)
    ensures found.Some? ==> exists k :: k in targets && IsRenewal(found.value, View(slots)[k], u, claim)
  {
    var i := 0;
    while i < |targets|
      invariant 0 <= i <= |targets|
      invariant forall j :: 0 <= j < i ==> !Renews(slots[targets[j]].Value(), u, claim)
    {
      var slot := slots[targets[i]];
      ghost var r := View(slots)[targets[i]];
      if Find(slot.holders, u).Some? {
        assert IsRenewal(Relock, r, u, claim);
        return Some(Relock);
      }
      var booked := Find(slot.bookings, u);
      if claim.Some? && booked.Some? && claim.value > booked.value.duration {
        assert IsRenewal(LongerClaim, r, u, claim);
        return Some(LongerClaim);
      }
      i := i + 1;
    }
    found := None;
  }

  method CheckPolicy(cfg: Config, slots: map<Key, Slot>, u: UserId, targets: seq<Key>, claim: Option<int>, now: int)
    returns (v: Verdict, renewal: Option<Renewal>)
    requires Targets(slots, targets)
    ensures v == Policy(cfg, View(slots), u, ToSet(targets), claim, now)
    ensures renewal.Some? <==> v == Refused(RelockForbidden)
    ensures renewal.Some? ==> exists k :: k in targets && IsRenewal(renewal.value, View(slots)[k], u, claim)
  {
    renewal := None;
    if !cfg.forbidRelock && cfg.cap == -1 {
      return Accepted, None;
    }
    var wanted := ToSet(targets);
    var held := ClaimedKeys(slots, u, now);
    if cfg.cap != -1 && wanted - held != {} && |held + wanted| > cfg.cap {
      return Refused(ResourceCap), None;
    }
    if cfg.forbidRelock {
      renewal := FindRenewal(slots, u, targets, claim);
    }
    v := if renewal.Some? then Refused(RelockForbidden) else Accepted;
  }

  // ------------------------------------------------------------ commands

  /** `f` performs the command; the trigger keeps the command's definition folded where only `f` is at work. */
  ghost predicate Performs(f: Resource -> Resource, cfg: Config, c: Command, now: int) {
    forall r {:trigger EffectOn(cfg, c, r, now)} :: f(r) == EffectOn(cfg, c, r, now)
  }

  lemma EffectPerforms(cfg: Config, c: Command, now: int)
    ensures Performs(Effect(cfg, c, now), cfg, c, now)
  {
  }

  /** The state once the resources of a list are transformed. */
  function Served(s: State, done: seq<Key>, f: Resource -> Resource): State { ApplyTo(s, ToSet(done), f) }

  lemma NoneServed(s: State, keys: seq<Key>, f: Resource -> Resource)
    ensures Served(s, keys[..0], f) == s
  {
  }

  /** Each listed resource is served once, from its original value. */
  lemma ServedNext(s: State, keys: seq<Key>, i: nat, f: Resource -> Resource)
    requires NoRepeats(keys) && i < |keys| && keys[i] in s
    ensures Served(s, keys[..i], f)[keys[i]] == s[keys[i]]
    ensures Served(s, keys[..i + 1], f) == Served(s, keys[..i], f)[keys[i] := f(s[keys[i]])]
  {
    assert keys[i] !in ToSet(keys[..i]);
    assert ToSet(keys[..i + 1]) == ToSet(keys[..i]) + {keys[i]};
  }

  /** Of these keys, those whose resource is of the kind asked for. */
  function Among(s: State, keys: seq<Key>, kind: Resource -> bool): seq<Key> {
    if keys == [] then []
    else
      var k := keys[|keys| - 1];
      Among(s, keys[..|keys| - 1], kind) + (if k in s && kind(s[k]) then [k] else [])
  }

  lemma {:induction false} AmongIff(s: State, keys: seq<Key>, kind: Resource -> bool, k: Key)
    ensures k in Among(s, keys, kind) <==> k in keys && k in s && kind(s[k])
  {
    if keys != [] {
      assert keys == keys[..|keys| - 1] + [keys[|keys| - 1]];
      AmongIff(s, keys[..|keys| - 1], kind, k);
    }
  }

  lemma AmongNext(s: State, keys: seq<Key>, i: nat, kind: Resource -> bool)
    requires i < |keys|
    ensures Among(s, keys[..i + 1], kind)
         == Among(s, keys[..i], kind) + (if keys[i] in s && kind(s[keys[i]]) then [keys[i]] else [])
  {
    assert keys[..i + 1][..i] == keys[..i];
  }

  /** Serving every resource changes the state exactly when some resource is altered. */
  lemma SomethingChanges(s: State, order: seq<Key>, f: Resource -> Resource, alters: Resource -> bool)
    requires s.Keys == ToSet(order) && forall r :: alters(r) <==> f(r) != r
    ensures Among(s, order, alters) != [] <==> Served(s, order, f) != s
  {
    var s', listed := Served(s, order, f), Among(s, order, alters);
    if s' != s {
      var k :| k in s && s'[k] != s[k];
      assert k in ToSet(order);
      AmongIff(s, order, alters, k);
    }
    if listed != [] { AmongIff(s, order, alters, listed[0]); }
  }

  /** What reading one more resource adds to a list and to a report. */
  lemma ListNext(s: State, keys: seq<Key>, i: nat, kind: Resource -> bool, report: (Key, Resource) -> seq<Notice>)
    requires i < |keys| && keys[i] in s
    ensures Among(s, keys[..i + 1], kind) == Among(s, keys[..i], kind) + (if kind(s[keys[i]]) then [keys[i]] else [])
    ensures Collected(s, keys[..i + 1], report) == Collected(s, keys[..i], report) + report(keys[i], s[keys[i]])
  {
    assert keys[..i + 1][..i] == keys[..i];
  }

  /** Keys that name no resource are skipped. */
  lemma ServedSkip(s: State, keys: seq<Key>, i: nat, f: Resource -> Resource)
    requires i < |keys| && keys[i] !in s
    ensures Served(s, keys[..i + 1], f) == Served(s, keys[..i], f)
  {
    assert ToSet(keys[..i + 1]) == ToSet(keys[..i]) + {keys[i]};
  }

  /** What a command does to each resource it names. */
  datatype Action =
    | Locking(user: UserId, duration: int, explicit: bool)
    | Queueing(user: UserId, duration: int)
    | Taking(user: UserId, duration: int)
    | Releasing(user: UserId)
    | ReleasingAny(user: UserId)
    | Clearing
    | Emptying

  function CommandOf(act: Action, targets: set<Key>): Command {
    match act
    case Locking(u, duration, explicit) => Command.Lock(u, targets, duration, explicit)
    case Queueing(u, duration) => Command.Book(u, targets, duration)
    case Taking(u, duration) => Command.Take(u, targets, duration)
    case Releasing(u) => Command.Unlock(u, targets)
    case ReleasingAny(u) => Command.UnlockAny(u)
    case Clearing => Command.Kicklock(targets)
    case Emptying => Command.Kickout(targets)
  }

  method MutateSlot(ghost f: Resource -> Resource, ghost cfg: Config, slot: Slot, act: Action, ghost targets: set<Key>, now: int)
    requires Performs(f, cfg, CommandOf(act, targets), now) && (act.Taking? ==> Started(slot.Value(), now))
    modifies slot
    ensures slot.Value() == f(old(slot.Value()))
  {
    ghost var r := slot.Value();
    match act {
      case Locking(u, duration, explicit) => slot.Lock(u, duration, explicit, now);
      case Queueing(u, duration) => slot.Book(u, duration, now);
      case Taking(u, duration) => slot.Take(u, duration, now);
      case Releasing(u) => slot.Unlock(u);
      case ReleasingAny(u) => slot.UnlockAny(u);
      case Clearing => slot.Clear();
      case Emptying => slot.Kickout();
    }
    assert slot.Value() == EffectOn(cfg, CommandOf(act, targets), r, now);
  }

  /** One listed key: its resource is transformed, and no other. */
  method MutateAt(ghost f: Resource -> Resource, ghost cfg: Config, slots: map<Key, Slot>, k: Key, act: Action,
                  ghost targets: set<Key>, now: int)
    requires Separate(slots) && k in slots && Performs(f, cfg, CommandOf(act, targets), now)
    requires act.Taking? ==> Started(View(slots)[k], now)
    modifies slots[k]
    ensures View(slots) == old(View(slots))[k := f(old(View(slots))[k])]
  {
    ghost var was := View(slots);
    MutateSlot(f, cfg, slots[k], act, targets, now);
    ViewAt(slots, was, k);
  }

  /** The mutate pass every accepted command makes over its targets, one after the other. */
  method MutateAll(ghost f: Resource -> Resource, ghost cfg: Config, slots: map<Key, Slot>, keys: seq<Key>, act: Action,
                   ghost targets: set<Key>, now: int)
    requires Separate(slots) && Targets(slots, keys) && Performs(f, cfg, CommandOf(act, targets), now)
    requires act.Taking? ==> StartedState(View(slots), now)
    modifies Objects(slots)
    ensures View(slots) == old(Served(View(slots), keys, f))
  {
    ghost var before := View(slots);
    NoneServed(before, keys, f);
    var i := 0;
    while i < |keys|
      invariant 0 <= i <= |keys| && View(slots) == Served(before, keys[..i], f)
    {
      ServedNext(before, keys, i, f);
      assert act.Taking? ==> Started(before[keys[i]], now);
      MutateAt(f, cfg, slots, keys[i], act, targets, now);
      i := i + 1;
    }
    assert keys[..i] == keys;
  }

  /** Whose turn it is, for every resource a lock names. */
  method CheckTurn(slots: map<Key, Slot>, u: UserId, targets: seq<Key>) returns (ok: bool)
    requires Targets(slots, targets)
    ensures ok <==> !OutOfTurn(View(slots), u, ToSet(targets))
  {
    var i := 0;
    while i < |targets|
      invariant 0 <= i <= |targets|
      invariant forall k :: k in targets[..i] ==> MayLock(slots[k].Value(), u)
    {
      if !MayLock(slots[targets[i]].Value(), u) {
        assert targets[i] in ToSet(targets) && !MayLock(View(slots)[targets[i]], u);
        return false;
      }
      i := i + 1;
    }
    assert targets[..i] == targets;
    return true;
  }

  /** Every check of `lock`, in its order, before anything is changed. */
  method CheckLock(cfg: Config, slots: map<Key, Slot>, u: UserId, targets: seq<Key>, duration: int, explicit: bool,
                   now: int)
    returns (v: Verdict)
    requires Targets(slots, targets) && StartedState(View(slots), now)
    ensures v == LockVerdict(cfg, View(slots), u, ToSet(targets), duration, explicit, now)
  {
    var renewal;
    v, renewal := CheckPolicy(cfg, slots, u, targets, if explicit then Some(duration) else None, now);
    if v.Refused? {
      return;
    }
    var turn := CheckTurn(slots, u, targets);
    if !turn {
      return Refused(NotYourTurn);
    }
    if cfg.maxDuration > 0 && u !in cfg.whitelist {
      var tooLong := AnyTooMuch(cfg, slots, u, targets, duration, explicit, now);
      if tooLong {
        return Refused(TooLong);
      }
    }
  }

  method AnyTooMuch(cfg: Config, slots: map<Key, Slot>, u: UserId, targets: seq<Key>, duration: int, explicit: bool,
                    now: int)
    returns (found: bool)
    requires Targets(slots, targets) && StartedState(View(slots), now)
    ensures found <==> AnyTooLong(cfg, View(slots), u, ToSet(targets), duration, explicit, now)
  {
    var i := 0;
    while i < |targets|
      invariant 0 <= i <= |targets|
      invariant forall j :: 0 <= j < i ==> !TooMuch(cfg, slots[targets[j]].Value(), u, duration, explicit, now)
    {
      assert Started(View(slots)[targets[i]], now);
      found := CheckDuration(cfg, slots[targets[i]], u, duration, explicit, now);
      if found {
        assert targets[i] in ToSet(targets);
        assert TooMuch(cfg, View(slots)[targets[i]], u, duration, explicit, now);
        return;
      }
      i := i + 1;
    }
    found := false;
  }

  method CheckDuration(cfg: Config, slot: Slot, u: UserId, duration: int, explicit: bool, now: int)
    returns (tooMuch: bool)
    requires Started(slot.Value(), now)
    ensures tooMuch <==> TooMuch(cfg, slot.Value(), u, duration, explicit, now)
  {
    var booking := Find(slot.bookings, u);
    var check := if !explicit && booking.Some? then booking.value.duration else duration;
    var start := now;
    var mine := Find(slot.holders, u);
    if mine.Some? {
      check := check + mine.value.duration;
      start := mine.value.start;
    }
    tooMuch := RemainingChecked(Stake(u, start, check, false), now) > cfg.maxDuration;
  }

  method Lock(cfg: Config, slots: map<Key, Slot>, u: UserId, targets: seq<Key>, duration: int, explicit: bool, now: int)
    returns (v: Verdict)
    requires Separate(slots) && Targets(slots, targets) && StartedState(View(slots), now)
    modifies Objects(slots)
    ensures v == old(Judge(cfg, View(slots), Command.Lock(u, ToSet(targets), duration, explicit), now))
    ensures View(slots) == old(Step(cfg, View(slots), Command.Lock(u, ToSet(targets), duration, explicit), now))
  {
    ghost var s, c := View(slots), Command.Lock(u, ToSet(targets), duration, explicit);
    v := CheckLock(cfg, slots, u, targets, duration, explicit, now);
    if v.Accepted? {
      EffectPerforms(cfg, c, now);
      MutateAll(Effect(cfg, c, now), cfg, slots, targets, Locking(u, duration, explicit), ToSet(targets), now);
    }
  }

  method CheckBook(cfg: Config, slots: map<Key, Slot>, u: UserId, targets: seq<Key>, duration: int, now: int)
    returns (v: Verdict)
    requires Targets(slots, targets)
    ensures v == BookVerdict(cfg, View(slots), u, ToSet(targets), duration, now)
  {
    var renewal;
    v, renewal := CheckPolicy(cfg, slots, u, targets, None, now);
    if v.Refused? {
      return;
    }
    if exists k | k in targets :: Has(slots[k].holders, u) || Has(slots[k].bookings, u) {
      return Refused(AlreadyQueued);
    }
    if cfg.maxDuration > 0 && u !in cfg.whitelist && duration > cfg.maxDuration {
      return Refused(TooLong);
    }
  }

  method Book(cfg: Config, slots: map<Key, Slot>, u: UserId, targets: seq<Key>, duration: int, now: int)
    returns (v: Verdict)
    requires Separate(slots) && Targets(slots, targets)
    modifies Objects(slots)
    ensures v == old(Judge(cfg, View(slots), Command.Book(u, ToSet(targets), duration), now))
    ensures View(slots) == old(Step(cfg, View(slots), Command.Book(u, ToSet(targets), duration), now))
  {
    ghost var s, c := View(slots), Command.Book(u, ToSet(targets), duration);
    v := CheckBook(cfg, slots, u, targets, duration, now);
    if v.Accepted? {
      EffectPerforms(cfg, c, now);
      MutateAll(Effect(cfg, c, now), cfg, slots, targets, Queueing(u, duration), ToSet(targets), now);
    }
  }

  method CheckTake(cfg: Config, slots: map<Key, Slot>, u: UserId, targets: seq<Key>, duration: int, now: int)
    returns (v: Verdict)
    requires Targets(slots, targets)
    ensures v == TakeVerdict(cfg, View(slots), u, ToSet(targets), duration, now)
  {
    var renewal;
    v, renewal := CheckPolicy(cfg, slots, u, targets, Some(duration), now);
    if v.Refused? {
      return;
    }
    if exists k | k in targets :: Has(slots[k].holders, u) {
      return Refused(HoldersCannotTake);
    }
    if cfg.maxDuration > 0 && u !in cfg.whitelist
       && RemainingChecked(Stake(u, now, duration, false), now) > cfg.maxDuration {
      return Refused(TooLong);
    }
  }

  method Take(cfg: Config, slots: map<Key, Slot>, u: UserId, targets: seq<Key>, duration: int, now: int)
    returns (v: Verdict)
    requires Separate(slots) && Targets(slots, targets) && StartedState(View(slots), now)
    modifies Objects(slots)
    ensures v == old(Judge(cfg, View(slots), Command.Take(u, ToSet(targets), duration), now))
    ensures View(slots) == old(Step(cfg, View(slots), Command.Take(u, ToSet(targets), duration), now))
  {
    ghost var s, c := View(slots), Command.Take(u, ToSet(targets), duration);
    v := CheckTake(cfg, slots, u, targets, duration, now);
    if v.Accepted? {
      EffectPerforms(cfg, c, now);
      MutateAll(Effect(cfg, c, now), cfg, slots, targets, Taking(u, duration), ToSet(targets), now);
    }
  }

  method Unlock(cfg: Config, slots: map<Key, Slot>, u: UserId, targets: seq<Key>, now: int) returns (v: Verdict)
    requires Separate(slots) && Targets(slots, targets)
    modifies Objects(slots)
    ensures v == old(Judge(cfg, View(slots), Command.Unlock(u, ToSet(targets)), now))
    ensures View(slots) == old(Step(cfg, View(slots), Command.Unlock(u, ToSet(targets)), now))
  {
    ghost var s, c := View(slots), Command.Unlock(u, ToSet(targets));
    if !(forall k | k in targets :: Has(slots[k].holders, u) || Has(slots[k].bookings, u)) {
      return Refused(NotRequested);
    }
    v := Accepted;
    assert v == Judge(cfg, s, c, now);
    EffectPerforms(cfg, c, now);
    MutateAll(Effect(cfg, c, now), cfg, slots, targets, Releasing(u), ToSet(targets), now);
  }

  method UnlockAny(cfg: Config, slots: map<Key, Slot>, order: seq<Key>, u: UserId, now: int) returns (v: Verdict)
    requires Separate(slots) && Targets(slots, order) && ToSet(order) == slots.Keys
    modifies Objects(slots)
    ensures v == old(Judge(cfg, View(slots), Command.UnlockAny(u), now))
    ensures View(slots) == old(Step(cfg, View(slots), Command.UnlockAny(u), now))
  {
    EffectPerforms(cfg, Command.UnlockAny(u), now);
    MutateAll(Effect(cfg, Command.UnlockAny(u), now), cfg, slots, order, ReleasingAny(u), {}, now);
    v := Accepted;
  }

  /** Operators may name a resource that does not exist; then nothing happens at all. */
  method Kicklock(cfg: Config, slots: map<Key, Slot>, targets: seq<Key>, now: int)
    returns (v: Verdict, freed: seq<Key>)
    requires Separate(slots) && NoRepeats(targets)
    modifies Objects(slots)
    ensures v == old(Judge(cfg, View(slots), Command.Kicklock(ToSet(targets)), now))
    ensures View(slots) == old(Step(cfg, View(slots), Command.Kicklock(ToSet(targets)), now))
    ensures v.Accepted? ==> forall k :: k in freed <==> k in targets && old(slots[k].holders) != []
  {
    freed := [];
    if exists k | k in targets :: k !in slots {
      return Refused(UnknownResource), [];
    }
    ghost var before, c := View(slots), Command.Kicklock(ToSet(targets));
    v := Accepted;
    assert v == Judge(cfg, before, c, now);
    EffectPerforms(cfg, c, now);
    freed := ClearAll(Effect(cfg, c, now), cfg, slots, targets, now);
  }

  method ClearAll(ghost f: Resource -> Resource, ghost cfg: Config, slots: map<Key, Slot>, targets: seq<Key>, now: int)
    returns (freed: seq<Key>)
    requires Separate(slots) && Targets(slots, targets) && Performs(f, cfg, CommandOf(Clearing, ToSet(targets)), now)
    modifies Objects(slots)
    ensures View(slots) == old(Served(View(slots), targets, f))
    ensures forall k :: k in freed <==> k in targets && old(slots[k].holders) != []
  {
    freed := [];
    ghost var before := View(slots);
    NoneServed(before, targets, f);
    var i := 0;
    while i < |targets|
      invariant 0 <= i <= |targets| && View(slots) == Served(before, targets[..i], f)
      invariant forall k :: k in freed <==> k in targets[..i] && before[k].holders != []
    {
      ServedNext(before, targets, i, f);
      if slots[targets[i]].holders != [] {
        freed := freed + [targets[i]];
      }
      MutateAt(f, cfg, slots, targets[i], Clearing, ToSet(targets), now);
      i := i + 1;
    }
    assert targets[..i] == targets;
  }

  method Kickout(cfg: Config, slots: map<Key, Slot>, targets: seq<Key>, now: int) returns (v: Verdict)
    requires Separate(slots) && Targets(slots, targets)
    modifies Objects(slots)
    ensures v == old(Judge(cfg, View(slots), Command.Kickout(ToSet(targets)), now))
    ensures View(slots) == old(Step(cfg, View(slots), Command.Kickout(ToSet(targets)), now))
  {
    ghost var c := Command.Kickout(ToSet(targets));
    EffectPerforms(cfg, c, now);
    MutateAll(Effect(cfg, c, now), cfg, slots, targets, Emptying, ToSet(targets), now);
    v := Accepted;
  }

  function HeldBy(u: UserId): Resource -> bool { (r: Resource) => Has(r.holders, u) }

  method KickSlot(ghost f: Resource -> Resource, ghost held: Resource -> bool, ghost cfg: Config, slot: Slot, u: UserId,
                  ghost only: Option<Key>, ghost now: int)
    returns (kicked: bool)
    requires Performs(f, cfg, Command.Opkick(u, only), now) && held == HeldBy(u)
    modifies slot
    ensures slot.Value() == f(old(slot.Value()))
    ensures kicked <==> held(old(slot.Value()))
  {
    kicked := slot.Opkick(u);
    assert slot.Value() == EffectOn(cfg, Command.Opkick(u, only), old(slot.Value()), now);
  }

  /** One listed key: its resource, if it exists, loses the user. */
  method KickAt(ghost f: Resource -> Resource, ghost held: Resource -> bool, ghost cfg: Config, slots: map<Key, Slot>, k: Key,
                u: UserId, ghost only: Option<Key>, ghost now: int)
    returns (kicked: bool)
    requires Separate(slots) && Performs(f, cfg, Command.Opkick(u, only), now) && held == HeldBy(u)
    modifies if k in slots then {slots[k]} else {}
    ensures k in slots ==> View(slots) == old(View(slots))[k := f(old(View(slots))[k])]
    ensures k !in slots ==> View(slots) == old(View(slots))
    ensures kicked <==> k in slots && held(old(View(slots))[k])
  {
    kicked := false;
    if k in slots {
      ghost var was := View(slots);
      kicked := KickSlot(f, held, cfg, slots[k], u, only, now);
      ViewAt(slots, was, k);
    }
  }

  method KickFrom(ghost f: Resource -> Resource, ghost held: Resource -> bool, ghost cfg: Config, slots: map<Key, Slot>,
                  targets: seq<Key>, u: UserId, ghost only: Option<Key>, ghost now: int)
    returns (freed: seq<Key>)
    requires Separate(slots) && NoRepeats(targets) && Performs(f, cfg, Command.Opkick(u, only), now) && held == HeldBy(u)
    modifies Objects(slots)
    ensures freed == old(Among(View(slots), targets, held))
    ensures View(slots) == old(Served(View(slots), targets, f))
  {
    freed := [];
    ghost var before := View(slots);
    NoneServed(before, targets, f);
    var i := 0;
    while i < |targets|
      invariant 0 <= i <= |targets| && View(slots) == Served(before, targets[..i], f)
      invariant freed == Among(before, targets[..i], held)
    {
      AmongNext(before, targets, i, held);
      if targets[i] in slots {
        ServedNext(before, targets, i, f);
      } else {
        ServedSkip(before, targets, i, f);
      }
      var kicked := KickAt(f, held, cfg, slots, targets[i], u, only, now);
      if kicked {
        freed := freed + [targets[i]];
      }
      i := i + 1;
    }
    assert targets[..i] == targets;
  }

  method Opkick(cfg: Config, slots: map<Key, Slot>, order: seq<Key>, u: UserId, only: Option<Key>, now: int)
    returns (v: Verdict, freed: seq<Key>)
    requires Separate(slots) && Targets(slots, order) && ToSet(order) == slots.Keys
    modifies Objects(slots)
    ensures v == old(Judge(cfg, View(slots), Command.Opkick(u, only), now))
    ensures View(slots) == old(Step(cfg, View(slots), Command.Opkick(u, only), now))
    ensures ToSet(freed) == old(KickTargets(View(slots), u, only))
  {
    ghost var s, c := View(slots), Command.Opkick(u, only);
    var targets := if only.Some? then [only.value] else order;
    EffectPerforms(cfg, c, now);
    freed := KickFrom(Effect(cfg, c, now), HeldBy(u), cfg, slots, targets, u, only, now);
    v := if freed == [] then Refused(NoActiveLock) else Accepted;
    KickedAre(s, order, targets, u, only, freed);
    KickedOnly(cfg, s, order, targets, u, only, now);
  }

  /** The holders kicked are exactly those of the command's scope. */
  lemma KickedAre(s: State, order: seq<Key>, targets: seq<Key>, u: UserId, only: Option<Key>, freed: seq<Key>)
    requires s.Keys == ToSet(order) && targets == if only.Some? then [only.value] else order
    requires freed == Among(s, targets, HeldBy(u))
    ensures ToSet(freed) == KickTargets(s, u, only) && (freed == [] <==> ToSet(freed) == {})
  {
    forall k ensures k in freed <==> k in targets && k in s && Has(s[k].holders, u) {
      AmongIff(s, targets, HeldBy(u), k);
    }
    forall k | k in s ensures k in order { assert k in ToSet(order); }
    assert freed != [] ==> freed[0] in ToSet(freed);
  }

  /** Kicking a user who does not hold a resource changes nothing about it. */
  lemma KickedOnly(cfg: Config, s: State, order: seq<Key>, targets: seq<Key>, u: UserId, only: Option<Key>, now: int)
    requires s.Keys == ToSet(order) && targets == if only.Some? then [only.value] else order
    ensures Served(s, targets, Effect(cfg, Command.Opkick(u, only), now))
         == ApplyTo(s, KickTargets(s, u, only), Effect(cfg, Command.Opkick(u, only), now))
    ensures KickTargets(s, u, only) == {} ==> Served(s, targets, Effect(cfg, Command.Opkick(u, only), now)) == s
  {
    var f := Effect(cfg, Command.Opkick(u, only), now);
    forall k | k in s ensures k in KickTargets(s, u, only) || (k in ToSet(targets) ==> f(s[k]) == s[k]) {
      if k in ToSet(targets) && !Has(s[k].holders, u) { assert f(s[k]) == OpkickOne(s[k], u) == s[k]; }
    }
    forall k | k in KickTargets(s, u, only) ensures k in ToSet(targets) { assert k in ToSet(order); }
  }

  // --------------------------------------------------------------- sweep

  predicate Altered(cfg: Config, r: Resource, now: int) { SweepOne(cfg, r, now) != r }

  function SweepAlters(cfg: Config, now: int): Resource -> bool { (r: Resource) => Altered(cfg, r, now) }

  /** The three functions are those of a sweep; the triggers keep its definition folded where only they are at work. */
  ghost predicate Sweeps(f: Resource -> Resource, alters: Resource -> bool, report: (Key, Resource) -> seq<Notice>, cfg: Config,
                         now: int) {
    && (forall r {:trigger SweepOne(cfg, r, now)} :: f(r) == SweepOne(cfg, r, now))
    && (forall r {:trigger Altered(cfg, r, now)} :: alters(r) == Altered(cfg, r, now))
    && (forall k, r {:trigger SweepOneNotices(cfg, k, r, now)} :: report(k, r) == SweepOneNotices(cfg, k, r, now))
  }

  lemma ItSweeps(cfg: Config, now: int)
    ensures Sweeps(Effect(cfg, Command.Sweep, now), SweepAlters(cfg, now), SweepReport(cfg, now), cfg, now)
  {
    forall r ensures Effect(cfg, Command.Sweep, now)(r) == SweepOne(cfg, r, now) {
      assert EffectOn(cfg, Command.Sweep, r, now) == SweepOne(cfg, r, now);
    }
  }

  method SweepSlot(ghost f: Resource -> Resource, ghost alters: Resource -> bool, ghost report: (Key, Resource) -> seq<Notice>,
                   cfg: Config, slot: Slot, key: Key, now: int)
    returns (changed: bool, notices: seq<Notice>)
    requires WellFormed(slot.Value(), now) && Sweeps(f, alters, report, cfg, now)
    modifies slot
    ensures slot.Value() == f(old(slot.Value()))
    ensures notices == report(key, old(slot.Value())) && (changed <==> alters(old(slot.Value())))
  {
    ghost var r := slot.Value();
    var expired, reported := slot.Expire(cfg, key, now);
    ExpireKeepsWellFormed(cfg, r, now, now);
    DistinctParts(slot.holders, slot.bookings);
    var prompted, prompts := slot.Prompt(key, now);
    SweepChange(cfg, r, now);
    changed, notices := expired || prompted, reported + prompts;
    assert slot.Value() == SweepOne(cfg, r, now) && notices == SweepOneNotices(cfg, key, r, now);
    assert changed == Altered(cfg, r, now);
  }

  method SweepLoop(ghost f: Resource -> Resource, ghost alters: Resource -> bool, ghost report: (Key, Resource) -> seq<Notice>,
                   cfg: Config, slots: map<Key, Slot>, order: seq<Key>, now: int)
    returns (changed: bool, notices: seq<Notice>)
    requires Separate(slots) && Targets(slots, order) && WellFormedState(View(slots), now)
    requires Sweeps(f, alters, report, cfg, now)
    modifies Objects(slots)
    ensures View(slots) == old(Served(View(slots), order, f))
    ensures notices == old(Collected(View(slots), order, report))
    ensures changed <==> old(Among(View(slots), order, alters)) != []
  {
    changed, notices := false, [];
    ghost var before := View(slots);
    NoneServed(before, order, f);
    var i := 0;
    while i < |order|
      invariant 0 <= i <= |order| && View(slots) == Served(before, order[..i], f)
      invariant notices == Collected(before, order[..i], report)
      invariant changed <==> Among(before, order[..i], alters) != []
    {
      ghost var was := View(slots);
      ServedNext(before, order, i, f);
      ListNext(before, order, i, alters, report);
      assert WellFormed(before[order[i]], now);
      var swept, reported := SweepSlot(f, alters, report, cfg, slots[order[i]], order[i], now);
      ViewAt(slots, was, order[i]);
      changed, notices, i := changed || swept, notices + reported, i + 1;
    }
    assert order[..i] == order;
  }

  /** Expiry, claim prompts and claim timeouts for every resource, in stored order. */
  method SweepSlots(cfg: Config, slots: map<Key, Slot>, order: seq<Key>, now: int)
    returns (changed: bool, notices: seq<Notice>)
    requires Separate(slots) && Targets(slots, order) && ToSet(order) == slots.Keys
    requires WellFormedState(View(slots), now)
    modifies Objects(slots)
    ensures View(slots) == old(SweepAll(cfg, View(slots), now))
    ensures notices == old(SweepNotices(cfg, View(slots), order, now))
    ensures changed <==> View(slots) != old(View(slots))
  {
    ghost var before := View(slots);
    ItSweeps(cfg, now);
    changed, notices := SweepLoop(Effect(cfg, Command.Sweep, now), SweepAlters(cfg, now), SweepReport(cfg, now), cfg, slots, order, now);
    SweepOutcome(cfg, before, order, now);
  }

  lemma SweepOutcome(cfg: Config, s: State, order: seq<Key>, now: int)
    requires s.Keys == ToSet(order)
    ensures Served(s, order, Effect(cfg, Command.Sweep, now)) == SweepAll(cfg, s, now)
    ensures Among(s, order, SweepAlters(cfg, now)) != [] <==> SweepAll(cfg, s, now) != s
  {
    var f := Effect(cfg, Command.Sweep, now);
    assert forall r :: SweepAlters(cfg, now)(r) <==> f(r) != r;
    SomethingChanges(s, order, f, SweepAlters(cfg, now));
    ServedSweep(cfg, s, order, now);
  }

  lemma ServedSweep(cfg: Config, s: State, order: seq<Key>, now: int)
    requires s.Keys == ToSet(order)
    ensures Served(s, order, Effect(cfg, Command.Sweep, now)) == SweepAll(cfg, s, now)
  {
    var s' := Served(s, order, Effect(cfg, Command.Sweep, now));
    forall k | k in s ensures s'[k] == SweepOne(cfg, s[k], now) {
      assert EffectOn(cfg, Command.Sweep, s[k], now) == SweepOne(cfg, s[k], now);
    }
  }

  /** A sweep's two halves never undo each other. */
  lemma SweepChange(cfg: Config, r: Resource, now: int)
    requires WellFormed(r, now)
    ensures var e := ExpireOne(cfg, r, now);
            SweepOne(cfg, r, now) != r <==> e != r || PromptOne(e, now) != e
  {
    var e := ExpireOne(cfg, r, now);
    if SweepOne(cfg, r, now) == r && r.status != Idle {
      assert PromptOne(e, now).holders == e.holders;
      FixpointSettled(cfg, r.holders, now);
      SettledFixpoint(cfg, "", r.status, r.holders, now);
    }
  }

  method NextDelay(cfg: Config, slots: map<Key, Slot>, order: seq<Key>, now: int) returns (delay: Option<int>)
    requires Targets(slots, order) && ToSet(order) == slots.Keys && WellFormedState(View(slots), now)
    ensures Earliest(Candidates(cfg, View(slots), now), delay)
  {
    var best: Option<int> := None;
    var i := 0;
    while i < |order|
      invariant 0 <= i <= |order|
      invariant best.Some? ==> exists k :: k in slots && Candidate(cfg, slots[k].Value(), now, best.value)
      invariant forall j, x :: 0 <= j < i && Candidate(cfg, slots[order[j]].Value(), now, x) ==>
                  best.Some? && best.value <= x
    {
      assert WellFormed(View(slots)[order[i]], now);
      var mine := slots[order[i]].Delay(cfg, now);
      if mine.Some? && (best.None? || mine.value < best.value) {
        best := mine;
      }
      i := i + 1;
    }
    delay := if best.None? then None else Some(AtLeastOne(best.value));
    forall k, x | k in View(slots) && Candidate(cfg, View(slots)[k], now, x) ensures best.Some? && best.value <= x {
      assert k in ToSet(order);
      var j :| 0 <= j < |order| && order[j] == k;
    }
    if best.Some? {
      assert best.value in Candidates(cfg, View(slots), now);
    }
  }

  /** One timer check: what it changed and found, the message that goes out, and when to look again. */
  method CheckAndNotify(cfg: Config, slots: map<Key, Slot>, order: seq<Key>, now: int)
    returns (changed: bool, notices: seq<Notice>, message: Option<Message>, delay: Option<int>)
    requires Separate(slots) && Targets(slots, order) && ToSet(order) == slots.Keys
    requires WellFormedState(View(slots), now)
    modifies Objects(slots)
    ensures View(slots) == old(SweepAll(cfg, View(slots), now))
    ensures notices == old(SweepNotices(cfg, View(slots), order, now))
    ensures changed <==> View(slots) != old(View(slots))
    ensures message == MessageOf(notices)
    ensures Earliest(Candidates(cfg, View(slots), now), delay)
  {
    ghost var before := View(slots);
    changed, notices := SweepSlots(cfg, slots, order, now);
    forall k | k in slots ensures WellFormed(View(slots)[k], now) {
      SweepKeeps(cfg, before[k], now, now);
    }
    delay := NextDelay(cfg, slots, order, now);
    message := Assemble(notices);
  }
}
