/** The queue bot over nodes, and the queue bot over single cards that shares its engine. */
module QueueBots {
  import opened Leases
  import opened Expiry
  import opened QueueRules
  import opened QueueWake
  import opened QueueMessages
  import opened QueueFairness
  import opened Slots
  import opened CardKeys
  import Engine = QueueEngine

  /** The per-request machine budget: everything the user holds or has booked counts, one per machine. */
  method CheckAcquisition(slots: map<Key, Slot>, unit: Key -> Key, u: UserId, targets: seq<Key>, limit: Option<int>)
    returns (exceeded: bool)
    ensures exceeded <==> limit.Some? && Exceeds(Engine.View(slots), unit, u, ToSet(targets), limit.value)
  {
    if limit.None? {
      return false;
    }
    var held: set<Key> := {};
    var rest := slots.Keys;
    while rest != {}
      invariant rest <= slots.Keys
      invariant held == set k | k in slots.Keys - rest && HasStake(slots[k].Value(), u) :: unit(k)
    {
      var k :| k in rest;
      if Has(slots[k].holders, u) || Has(slots[k].bookings, u) {
        held := held + {unit(k)};
      }
      rest := rest - {k};
    }
    assert held == HeldUnits(Engine.View(slots), unit, u);
    var units := set k | k in targets :: unit(k);
    assert units == UnitsOf(ToSet(targets), unit) by {
      forall x | x in units ensures x in UnitsOf(ToSet(targets), unit) {
        var k :| k in targets && unit(k) == x;
        assert k in ToSet(targets);
      }
    }
    exceeded := units - held != {} && |held + units| > limit.value;
  }

  function Itself(k: Key): Key { k }

  /** The verdict a request gets when it also carries a machine budget. */
  function Budgeted(cfg: Config, s: State, unit: Key -> Key, c: Command, limit: Option<int>, now: int): Verdict
    requires Parsed(s, c) && (c.Lock? || c.Book?)
  {
    if limit.Some? && Exceeds(s, unit, c.user, c.targets, limit.value) then Refused(AcquisitionLimit)
    else Judge(cfg, s, c, now)
  }

  function BudgetedStep(cfg: Config, s: State, unit: Key -> Key, c: Command, limit: Option<int>, now: int): State
    requires Parsed(s, c) && (c.Lock? || c.Book?)
  {
    if Budgeted(cfg, s, unit, c, limit, now).Refused? then s else Step(cfg, s, c, now)
  }

  /** `lock` with its budget: the shared body of both bots. */
  method BudgetedLock(cfg: Config, slots: map<Key, Slot>, unit: Key -> Key, u: UserId, targets: seq<Key>,
                      duration: int, explicit: bool, limit: Option<int>, now: int)
    returns (v: Verdict)
    requires Engine.Separate(slots) && Engine.Targets(slots, targets) && StartedState(Engine.View(slots), now)
    modifies Engine.Objects(slots)
    ensures var c := Command.Lock(u, ToSet(targets), duration, explicit);
            && v == old(Budgeted(cfg, Engine.View(slots), unit, c, limit, now))
            && Engine.View(slots) == old(BudgetedStep(cfg, Engine.View(slots), unit, c, limit, now))
  {
    var exceeded := CheckAcquisition(slots, unit, u, targets, limit);
    if exceeded {
      return Refused(AcquisitionLimit);
    }
    v := Engine.Lock(cfg, slots, u, targets, duration, explicit, now);
  }

  method BudgetedBook(cfg: Config, slots: map<Key, Slot>, unit: Key -> Key, u: UserId, targets: seq<Key>,
                      duration: int, limit: Option<int>, now: int)
    returns (v: Verdict)
    requires Engine.Separate(slots) && Engine.Targets(slots, targets)
    modifies Engine.Objects(slots)
    ensures var c := Command.Book(u, ToSet(targets), duration);
            && v == old(Budgeted(cfg, Engine.View(slots), unit, c, limit, now))
            && Engine.View(slots) == old(BudgetedStep(cfg, Engine.View(slots), unit, c, limit, now))
  {
    var exceeded := CheckAcquisition(slots, unit, u, targets, limit);
    if exceeded {
      return Refused(AcquisitionLimit);
    }
    v := Engine.Book(cfg, slots, u, targets, duration, now);
  }

  // ------------------------------------------------------------- queue bot

  class QueueBot {
    const cfg: Config
    const order: seq<Key>
    const slots: map<Key, Slot>

    predicate Valid() {
      Engine.Separate(slots) && Engine.Targets(slots, order) && ToSet(order) == slots.Keys
    }

    function Now(): State
      reads slots.Values
    {
      Engine.View(slots)
    }

    /** A fresh bot: every configured resource idle. */
    constructor (cfg: Config, order: seq<Key>)
      requires Engine.NoRepeats(order)
      ensures Valid() && this.cfg == cfg && this.order == order
      ensures Now() == map k | k in order :: Resource(Idle, [], [])
      ensures fresh(slots.Values)
    {
      var made: map<Key, Slot> := map[];
      var i := 0;
      while i < |order|
        invariant 0 <= i <= |order| && made.Keys == ToSet(order[..i])
        invariant Engine.Separate(made)
        invariant forall k :: k in made ==> fresh(made[k]) && made[k].Value() == Resource(Idle, [], [])
      {
        var slot := new Slot(Idle, [], []);
        made := made[order[i] := slot];
        i := i + 1;
      }
      assert order[..i] == order;
      this.cfg, this.order, this.slots := cfg, order, made;
    }

    method Lock(u: UserId, targets: seq<Key>, duration: int, explicit: bool, limit: Option<int>, now: int)
      returns (v: Verdict)
      requires Valid() && Engine.Targets(slots, targets) && StartedState(Now(), now)
      modifies Engine.Objects(slots)
      ensures var c := Command.Lock(u, ToSet(targets), duration, explicit);
              && v == old(Budgeted(cfg, Now(), Itself, c, limit, now))
              && Now() == old(BudgetedStep(cfg, Now(), Itself, c, limit, now))
    {
      v := BudgetedLock(cfg, slots, Itself, u, targets, duration, explicit, limit, now);
    }

    method Book(u: UserId, targets: seq<Key>, duration: int, limit: Option<int>, now: int) returns (v: Verdict)
      requires Valid() && Engine.Targets(slots, targets)
      modifies Engine.Objects(slots)
      ensures var c := Command.Book(u, ToSet(targets), duration);
              && v == old(Budgeted(cfg, Now(), Itself, c, limit, now))
              && Now() == old(BudgetedStep(cfg, Now(), Itself, c, limit, now))
    {
      v := BudgetedBook(cfg, slots, Itself, u, targets, duration, limit, now);
    }

    method Take(u: UserId, targets: seq<Key>, duration: int, now: int) returns (v: Verdict)
      requires Valid() && Engine.Targets(slots, targets) && StartedState(Now(), now)
      modifies Engine.Objects(slots)
      ensures v == old(Judge(cfg, Now(), Command.Take(u, ToSet(targets), duration), now))
      ensures Now() == old(Step(cfg, Now(), Command.Take(u, ToSet(targets), duration), now))
    {
      v := Engine.Take(cfg, slots, u, targets, duration, now);
    }

    method Unlock(u: UserId, targets: seq<Key>, now: int) returns (v: Verdict)
      requires Valid() && Engine.Targets(slots, targets)
      modifies Engine.Objects(slots)
      ensures v == old(Judge(cfg, Now(), Command.Unlock(u, ToSet(targets)), now))
      ensures Now() == old(Step(cfg, Now(), Command.Unlock(u, ToSet(targets)), now))
    {
      v := Engine.Unlock(cfg, slots, u, targets, now);
    }

    method Kicklock(targets: seq<Key>, now: int) returns (v: Verdict, freed: seq<Key>)
      requires Valid() && Engine.NoRepeats(targets)
      modifies Engine.Objects(slots)
      ensures v == old(Judge(cfg, Now(), Command.Kicklock(ToSet(targets)), now))
      ensures Now() == old(Step(cfg, Now(), Command.Kicklock(ToSet(targets)), now))
      ensures v.Accepted? ==> forall k :: k in freed <==> k in targets && old(slots[k].holders) != []
    {
      v, freed := Engine.Kicklock(cfg, slots, targets, now);
    }

    method Kickout(targets: seq<Key>, now: int) returns (v: Verdict)
      requires Valid() && Engine.Targets(slots, targets)
      modifies Engine.Objects(slots)
      ensures v == old(Judge(cfg, Now(), Command.Kickout(ToSet(targets)), now))
      ensures Now() == old(Step(cfg, Now(), Command.Kickout(ToSet(targets)), now))
    {
      v := Engine.Kickout(cfg, slots, targets, now);
    }

    method UnlockAny(u: UserId, now: int) returns (v: Verdict)
      requires Valid()
      modifies Engine.Objects(slots)
      ensures v == old(Judge(cfg, Now(), Command.UnlockAny(u), now))
      ensures Now() == old(Step(cfg, Now(), Command.UnlockAny(u), now))
    {
      v := Engine.UnlockAny(cfg, slots, order, u, now);
    }

    method Opkick(u: UserId, only: Option<Key>, now: int) returns (v: Verdict, freed: seq<Key>)
      requires Valid()
      modifies Engine.Objects(slots)
      ensures v == old(Judge(cfg, Now(), Command.Opkick(u, only), now))
      ensures Now() == old(Step(cfg, Now(), Command.Opkick(u, only), now))
      ensures ToSet(freed) == old(KickTargets(Now(), u, only))
    {
      v, freed := Engine.Opkick(cfg, slots, order, u, only, now);
    }

    method CheckAndNotify(now: int) returns (changed: bool, notices: seq<Notice>, message: Option<Message>, delay: Option<int>)
      requires Valid() && WellFormedState(Now(), now)
      modifies Engine.Objects(slots)
      ensures Now() == old(Step(cfg, Now(), Command.Sweep, now))
      ensures notices == old(SweepNotices(cfg, Now(), order, now))
      ensures changed <==> Now() != old(Now())
      ensures message == MessageOf(notices)
      ensures Earliest(Candidates(cfg, Now(), now), delay)
    {
      SweepIsStep(cfg, Now(), now);
      changed, notices, message, delay := Engine.CheckAndNotify(cfg, slots, order, now);
    }
  }

  // -------------------------------------------------------- queue device bot

  type Cluster = map<string, seq<Slot>>

  predicate IsCard(cluster: map<string, seq<Slot>>, n: string, i: int) {
    n in cluster && 0 <= i < |cluster[n]|
  }

  /** Every card is an object of its own. */
  ghost predicate Unshared(cluster: Cluster) {
    forall n, i, m, j :: IsCard(cluster, n, i) && IsCard(cluster, m, j) && cluster[n][i] == cluster[m][j] ==>
      n == m && i == j
  }

  function AllCards(cluster: Cluster): set<Slot> {
    set n, i | n in cluster && 0 <= i < |cluster[n]| :: cluster[n][i]
  }

  function FlatKeys(cluster: Cluster): (keys: set<Key>)
    ensures forall n, i: nat :: IsCard(cluster, n, i) ==> KeyOf(n, i) in keys
    ensures forall k :: k in keys ==> exists n, i: nat :: IsCard(cluster, n, i) && k == KeyOf(n, i)
  {
    set n, i: nat | n in cluster && i < |cluster[n]| :: KeyOf(n, i)
  }

  lemma FlatKeysDecode(cluster: Cluster)
    ensures forall k :: k in FlatKeys(cluster) ==> IsCard(cluster, NodeOf(k), DevOf(k))
    ensures forall n, i: nat :: IsCard(cluster, n, i) ==> NodeOf(KeyOf(n, i)) == n && DevOf(KeyOf(n, i)) == i
  {
    forall n, i: nat | IsCard(cluster, n, i) ensures NodeOf(KeyOf(n, i)) == n && DevOf(KeyOf(n, i)) == i {
      KeyRoundTrip(n, i);
    }
  }

  /** The flat view the queue engine works on: the very same objects under "node:devN" keys. */
  function Flat(cluster: Cluster): (slots: map<Key, Slot>)
    ensures forall n, i: nat :: IsCard(cluster, n, i) ==> KeyOf(n, i) in slots && slots[KeyOf(n, i)] == cluster[n][i]
    ensures forall k :: k in slots ==> exists n, i: nat :: IsCard(cluster, n, i) && k == KeyOf(n, i)
    ensures slots.Values == AllCards(cluster)
  {
    FlatKeysDecode(cluster);
    map k | k in FlatKeys(cluster) :: cluster[NodeOf(k)][DevOf(k)]
  }

  lemma FlatSeparate(cluster: Cluster)
    requires Unshared(cluster)
    ensures Engine.Separate(Flat(cluster))
  {
    var slots := Flat(cluster);
    forall j, k | j in slots && k in slots && j != k ensures slots[j] != slots[k] {
      var n, a: nat :| IsCard(cluster, n, a) && j == KeyOf(n, a);
      var m, b: nat :| IsCard(cluster, m, b) && k == KeyOf(m, b);
    }
  }

  // -------------------------------------------------- parsed card targets

  function NodeKeys(node: string, devs: seq<nat>): (keys: seq<Key>)
    ensures |keys| == |devs| && forall b :: 0 <= b < |devs| ==> keys[b] == KeyOf(node, devs[b])
  {
    seq(|devs|, b requires 0 <= b < |devs| => KeyOf(node, devs[b]))
  }

  /** One key per node and listed card, in the order they were named. */
  function TargetKeys(nodes: seq<string>, devs: seq<seq<nat>>): (keys: seq<Key>)
    requires |nodes| == |devs|
  {
    if nodes == [] then []
    else TargetKeys(nodes[..|nodes| - 1], devs[..|nodes| - 1]) + NodeKeys(nodes[|nodes| - 1], devs[|nodes| - 1])
  }

  predicate DistinctNames(names: seq<string>) {
    forall i, j :: 0 <= i < j < |names| ==> names[i] != names[j]
  }

  predicate DistinctDevs(devs: seq<nat>) {
    forall i, j :: 0 <= i < j < |devs| ==> devs[i] != devs[j]
  }

  /** What the device parser guarantees: distinct nodes, distinct cards per node, all of them configured. */
  predicate ParsedCards(cluster: Cluster, nodes: seq<string>, devs: seq<seq<nat>>) {
    && |nodes| == |devs| && DistinctNames(nodes)
    && (forall a :: 0 <= a < |nodes| ==> DistinctDevs(devs[a]))
    && (forall a, b :: 0 <= a < |nodes| && 0 <= b < |devs[a]| ==> IsCard(cluster, nodes[a], devs[a][b]))
  }

  lemma {:induction false} TargetKeysIff(nodes: seq<string>, devs: seq<seq<nat>>, k: Key)
    requires |nodes| == |devs|
    ensures k in TargetKeys(nodes, devs) <==>
            exists a, b :: 0 <= a < |nodes| && 0 <= b < |devs[a]| && k == KeyOf(nodes[a], devs[a][b])
  {
    if nodes != [] {
      var last := |nodes| - 1;
      TargetKeysIff(nodes[..last], devs[..last], k);
      var lasts := NodeKeys(nodes[last], devs[last]);
      if k in lasts {
        var b :| 0 <= b < |lasts| && lasts[b] == k;
        assert k == KeyOf(nodes[last], devs[last][b]);
      }
      if a, b :| 0 <= a < |nodes| && 0 <= b < |devs[a]| && k == KeyOf(nodes[a], devs[a][b]) {
        if a == last { assert lasts[b] == k; } else { assert nodes[..last][a] == nodes[a] && devs[..last][a] == devs[a]; }
      }
    }
  }

  /** Deduplicated nodes and cards give deduplicated keys: the same card is never named twice. */
  lemma {:induction false} TargetKeysDistinct(cluster: Cluster, nodes: seq<string>, devs: seq<seq<nat>>)
    requires ParsedCards(cluster, nodes, devs)
    ensures Engine.NoRepeats(TargetKeys(nodes, devs))
    ensures forall k :: k in TargetKeys(nodes, devs) ==> k in Flat(cluster)
  {
    forall k | k in TargetKeys(nodes, devs) ensures k in Flat(cluster) {
      TargetKeysIff(nodes, devs, k);
    }
    if nodes != [] {
      var last := |nodes| - 1;
      assert ParsedCards(cluster, nodes[..last], devs[..last]);
      TargetKeysDistinct(cluster, nodes[..last], devs[..last]);
      KeysInjective();
      var firsts, lasts := TargetKeys(nodes[..last], devs[..last]), NodeKeys(nodes[last], devs[last]);
      forall k | k in firsts ensures k !in lasts {
        TargetKeysIff(nodes[..last], devs[..last], k);
      }
      assert forall i :: 0 <= i < |firsts| ==> firsts[i] in firsts;
      assert forall i :: 0 <= i < |lasts| ==> lasts[i] in lasts;
    }
  }

  /** All cards of the cluster, node by node. */
  function EveryCard(cluster: Cluster, nodes: seq<string>): (devs: seq<seq<nat>>)
    requires forall n :: n in nodes ==> n in cluster
    ensures |devs| == |nodes|
    ensures forall a :: 0 <= a < |nodes| ==> |devs[a]| == |cluster[nodes[a]]|
    ensures forall a, b :: 0 <= a < |nodes| && 0 <= b < |devs[a]| ==> devs[a][b] == b
  {
    seq(|nodes|, a requires 0 <= a < |nodes| => seq(|cluster[nodes[a]]|, b requires 0 <= b < |cluster[nodes[a]]| => b as nat))
  }

  /** The flat keys in stored order. */
  function CardOrder(cluster: Cluster, nodes: seq<string>): seq<Key>
    requires forall n :: n in nodes ==> n in cluster
  {
    TargetKeys(nodes, EveryCard(cluster, nodes))
  }

  /** Every card of the cluster has its place in the order, and only one. */
  lemma OrderedOnce(cluster: Cluster, nodes: seq<string>)
    requires DistinctNames(nodes) && forall n :: n in nodes <==> n in cluster
    ensures Engine.Targets(Flat(cluster), CardOrder(cluster, nodes))
    ensures ToSet(CardOrder(cluster, nodes)) == Flat(cluster).Keys
    ensures ParsedCards(cluster, nodes, EveryCard(cluster, nodes))
  {
    TargetKeysDistinct(cluster, nodes, EveryCard(cluster, nodes));
    forall k | k in Flat(cluster) ensures k in CardOrder(cluster, nodes) {
      var n, i: nat :| IsCard(cluster, n, i) && k == KeyOf(n, i);
      var a :| 0 <= a < |nodes| && nodes[a] == n;
      assert EveryCard(cluster, nodes)[a][i] == i;
      TargetKeysIff(nodes, EveryCard(cluster, nodes), k);
    }
  }

  lemma SweepIsStep(cfg: Config, s: State, now: int)
    ensures Step(cfg, s, Command.Sweep, now) == SweepAll(cfg, s, now)
  {
  }

  class QueueDeviceBot {
    const cfg: Config
    const nodes: seq<string>
    const cluster: Cluster

    ghost predicate Valid() {
      Unshared(cluster) && DistinctNames(nodes) && forall n :: n in nodes <==> n in cluster
    }

    /** The state the abstract queue rules speak about. */
    function Flattened(): State
      reads AllCards(cluster)
    {
      Engine.View(Flat(cluster))
    }

    constructor (cfg: Config, nodes: seq<string>, cluster: Cluster)
      requires Unshared(cluster) && DistinctNames(nodes) && forall n :: n in nodes <==> n in cluster
      ensures Valid() && this.cfg == cfg && this.nodes == nodes && this.cluster == cluster
    {
      this.cfg, this.nodes, this.cluster := cfg, nodes, cluster;
    }

    method Lock(u: UserId, on: seq<string>, devs: seq<seq<nat>>, duration: int, explicit: bool, limit: Option<int>,
                now: int)
      returns (v: Verdict)
      requires Valid() && ParsedCards(cluster, on, devs) && StartedState(Flattened(), now)
      modifies AllCards(cluster)
      ensures var c := Command.Lock(u, ToSet(TargetKeys(on, devs)), duration, explicit);
              && Parsed(old(Flattened()), c)
              && v == old(Budgeted(cfg, Flattened(), NodeOf, c, limit, now))
              && Flattened() == old(BudgetedStep(cfg, Flattened(), NodeOf, c, limit, now))
    {
      FlatSeparate(cluster);
      TargetKeysDistinct(cluster, on, devs);
      v := BudgetedLock(cfg, Flat(cluster), NodeOf, u, TargetKeys(on, devs), duration, explicit, limit, now);
    }

    method Book(u: UserId, on: seq<string>, devs: seq<seq<nat>>, duration: int, limit: Option<int>, now: int)
      returns (v: Verdict)
      requires Valid() && ParsedCards(cluster, on, devs)
      modifies AllCards(cluster)
      ensures var c := Command.Book(u, ToSet(TargetKeys(on, devs)), duration);
              && Parsed(old(Flattened()), c)
              && v == old(Budgeted(cfg, Flattened(), NodeOf, c, limit, now))
              && Flattened() == old(BudgetedStep(cfg, Flattened(), NodeOf, c, limit, now))
    {
      FlatSeparate(cluster);
      TargetKeysDistinct(cluster, on, devs);
      v := BudgetedBook(cfg, Flat(cluster), NodeOf, u, TargetKeys(on, devs), duration, limit, now);
    }

    method Take(u: UserId, on: seq<string>, devs: seq<seq<nat>>, duration: int, now: int) returns (v: Verdict)
      requires Valid() && ParsedCards(cluster, on, devs) && StartedState(Flattened(), now)
      modifies AllCards(cluster)
      ensures var c := Command.Take(u, ToSet(TargetKeys(on, devs)), duration);
              && Parsed(old(Flattened()), c)
              && v == old(Judge(cfg, Flattened(), c, now))
              && Flattened() == old(Step(cfg, Flattened(), c, now))
    {
      FlatSeparate(cluster);
      TargetKeysDistinct(cluster, on, devs);
      v := Engine.Take(cfg, Flat(cluster), u, TargetKeys(on, devs), duration, now);
    }

    method Unlock(u: UserId, on: seq<string>, devs: seq<seq<nat>>, now: int) returns (v: Verdict)
      requires Valid() && ParsedCards(cluster, on, devs)
      modifies AllCards(cluster)
      ensures var c := Command.Unlock(u, ToSet(TargetKeys(on, devs)));
              && Parsed(old(Flattened()), c)
              && v == old(Judge(cfg, Flattened(), c, now))
              && Flattened() == old(Step(cfg, Flattened(), c, now))
    {
      FlatSeparate(cluster);
      TargetKeysDistinct(cluster, on, devs);
      v := Engine.Unlock(cfg, Flat(cluster), u, TargetKeys(on, devs), now);
    }

    method UnlockAny(u: UserId, now: int) returns (v: Verdict)
      requires Valid()
      modifies AllCards(cluster)
      ensures v == old(Judge(cfg, Flattened(), Command.UnlockAny(u), now))
      ensures Flattened() == old(Step(cfg, Flattened(), Command.UnlockAny(u), now))
    {
      FlatSeparate(cluster);
      OrderedOnce(cluster, nodes);
      v := Engine.UnlockAny(cfg, Flat(cluster), CardOrder(cluster, nodes), u, now);
    }

    method Kickout(on: seq<string>, devs: seq<seq<nat>>, now: int) returns (v: Verdict)
      requires Valid() && ParsedCards(cluster, on, devs)
      modifies AllCards(cluster)
      ensures var c := Command.Kickout(ToSet(TargetKeys(on, devs)));
              && Parsed(old(Flattened()), c)
              && v == old(Judge(cfg, Flattened(), c, now))
              && Flattened() == old(Step(cfg, Flattened(), c, now))
    {
      FlatSeparate(cluster);
      TargetKeysDistinct(cluster, on, devs);
      v := Engine.Kickout(cfg, Flat(cluster), TargetKeys(on, devs), now);
    }

    method Kicklock(on: seq<string>, devs: seq<seq<nat>>, now: int) returns (v: Verdict)
      requires Valid() && ParsedCards(cluster, on, devs)
      modifies AllCards(cluster)
      ensures var c := Command.Kicklock(ToSet(TargetKeys(on, devs)));
              && Parsed(old(Flattened()), c)
              && v == old(Judge(cfg, Flattened(), c, now))
              && Flattened() == old(Step(cfg, Flattened(), c, now))
    {
      FlatSeparate(cluster);
      TargetKeysDistinct(cluster, on, devs);
      var freed;
      v, freed := Engine.Kicklock(cfg, Flat(cluster), TargetKeys(on, devs), now);
    }

    method CheckAndNotify(now: int) returns (changed: bool, notices: seq<Notice>, message: Option<Message>, delay: Option<int>)
      requires Valid() && WellFormedState(Flattened(), now)
      modifies AllCards(cluster)
      ensures Flattened() == old(Step(cfg, Flattened(), Command.Sweep, now))
      ensures notices == old(SweepNotices(cfg, Flattened(), CardOrder(cluster, nodes), now))
      ensures changed <==> Flattened() != old(Flattened())
      ensures message == MessageOf(notices)
      ensures Earliest(Candidates(cfg, Flattened(), now), delay)
    {
      FlatSeparate(cluster);
      OrderedOnce(cluster, nodes);
      SweepIsStep(cfg, Flattened(), now);
      changed, notices, message, delay := Engine.CheckAndNotify(cfg, Flat(cluster), CardOrder(cluster, nodes), now);
    }
  }

  /** Cards a command does not name keep their stored value; the nesting itself never changes. */
  lemma UntargetedCardsUntouched(cfg: Config, s: State, c: Command, now: int, cluster: Cluster,
                                 on: seq<string>, devs: seq<seq<nat>>, n: string, i: nat)
    requires ParsedCards(cluster, on, devs) && KeyOf(n, i) in s
    requires Parsed(s, c) && Scope(s, c) <= ToSet(TargetKeys(on, devs))
    requires !exists a, b :: 0 <= a < |on| && 0 <= b < |devs[a]| && on[a] == n && devs[a][b] == i
    ensures Step(cfg, s, c, now)[KeyOf(n, i)] == s[KeyOf(n, i)]
  {
    var k := KeyOf(n, i);
    StepTransition(cfg, s, c, now, k);
    if k in TargetKeys(on, devs) {
      TargetKeysIff(on, devs, k);
      KeysInjective();
    }
  }
}
