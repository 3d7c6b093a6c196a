/** The device bot: the node rules card by card, with nested validate and mutate loops over card lists. */
module DeviceBots {
  import opened Leases
  import opened Expiry
  import opened Slots
  import opened CardKeys
  import opened NodeRules
  import opened NodeBots
  import opened QueueBots
  import Engine = QueueEngine
  import Rules = QueueRules
  import Fairness = QueueFairness

  predicate MayAcquire(shared: bool, r: Resource, u: UserId) {
    if shared then r.status != Exclusive else MayTakeOver(r, u)
  }

  /** Acquirable by the device rules: free for this mode, and within the duration cap. */
  predicate CardAllows(cfg: Config, shared: bool, r: Resource, u: UserId, duration: int, now: int) {
    MayAcquire(shared, r, u) && (Rules.Capped(cfg, u) ==> !NodeTooMuch(cfg, r, u, duration, now))
  }

  predicate AllAllowed(cfg: Config, shared: bool, s: State, keys: seq<Key>, u: UserId, duration: int, now: int) {
    forall k :: k in keys ==> k in s && CardAllows(cfg, shared, s[k], u, duration, now)
  }

  /** Why one node's cards are refused: the availability of all of them is looked at before any duration. */
  function ReasonAt(s: State, shared: bool, u: UserId, keys: seq<Key>): Rules.Refusal {
    if forall k :: k in keys ==> k in s && MayAcquire(shared, s[k], u) then Rules.TooLong
    else if shared then Rules.ExclusiveMode
    else Rules.InUseOrShared
  }

  /** The nodes are looked at in the order named, and the first with a card that is not allowed gives the reason. */
  ghost predicate RefusedFirst(cfg: Config, shared: bool, s: State, groups: seq<seq<Key>>, u: UserId, duration: int, now: int,
                               why: Rules.Refusal)
  {
    exists a :: 0 <= a < |groups| && AllAllowed(cfg, shared, s, Join(groups[..a]), u, duration, now)
                && !AllAllowed(cfg, shared, s, groups[a], u, duration, now) && why == ReasonAt(s, shared, u, groups[a])
  }

  /** Why a whole request is refused: the machine budget first, then the policy, then the cards. */
  ghost predicate RefusedFor(cfg: Config, shared: bool, s: State, groups: seq<seq<Key>>, u: UserId, duration: int,
                             limit: Option<int>, now: int, why: Rules.Refusal)
    requires ToSet(Join(groups)) <= s.Keys
  {
    var keys := ToSet(Join(groups));
    var p := Rules.Policy(cfg, s, u, keys, None, now);
    if limit.Some? && Fairness.Exceeds(s, NodeOf, u, keys, limit.value) then why == Rules.AcquisitionLimit
    else if p.Refused? then why == p.why
    else RefusedFirst(cfg, shared, s, groups, u, duration, now, why)
  }

  class DeviceBot {
    const cfg: Config
    const nodes: seq<string>
    const cluster: Cluster

    ghost predicate Valid() {
      Unshared(cluster) && DistinctNames(nodes) && forall n :: n in nodes <==> n in cluster
    }

    function Flattened(): State
      reads AllCards(cluster)
    {
      Engine.View(Flat(cluster))
    }

    constructor (cfg: Config, nodes: seq<string>, cluster: Cluster)
      requires Unshared(cluster) && DistinctNames(nodes) && forall n :: n in nodes <==> n in cluster
      ensures Valid() && this.cfg == cfg && this.nodes == nodes && this.cluster == cluster
    {
      this.cfg, this.nodes, this.cluster := cfg, nodes, cluster;
    }

    /** The card objects of one node, in the order they were named. */
    function Devices(node: string, devs: seq<nat>): (devices: seq<Slot>)
      requires forall b :: 0 <= b < |devs| ==> IsCard(cluster, node, devs[b])
      ensures Serves(Flat(cluster), NodeKeys(node, devs), devices)
    {
      seq(|devs|, b requires 0 <= b < |devs| && IsCard(cluster, node, devs[b]) => cluster[node][devs[b]])
    }

    function DeviceLists(on: seq<string>, devs: seq<seq<nat>>): (devices: seq<seq<Slot>>)
      requires ParsedCards(cluster, on, devs)
      ensures |devices| == |on|
      ensures forall a :: 0 <= a < |on| ==> Serves(Flat(cluster), NodeKeys(on[a], devs[a]), devices[a])
    {
      seq(|on|, a requires 0 <= a < |on| && NamesCards(cluster, on[a], devs[a]) => Devices(on[a], devs[a]))
    }

    method AcquireAcross(shared: bool, u: UserId, on: seq<string>, devs: seq<seq<nat>>, duration: int, limit: Option<int>, now: int)
      returns (v: Verdict)
      requires Valid() && ParsedCards(cluster, on, devs) && StartedState(Flattened(), now)
      modifies AllCards(cluster)
      ensures Budgets(cfg, Request(shared, u, ToSet(TargetKeys(on, devs)), duration), old(Flattened()), limit, now, v, Flattened())
      ensures ToSet(Join(Groups(on, devs))) <= old(Flattened()).Keys
      ensures v.Refused? ==> old(RefusedFor(cfg, shared, Flattened(), Groups(on, devs), u, duration, limit, now, v.why))
    {
      FlatSeparate(cluster);
      TargetKeysDistinct(cluster, on, devs);
      GroupsJoin(on, devs);
      v := BudgetedGroups(cfg, Flat(cluster), Groups(on, devs), DeviceLists(on, devs), shared, u, duration, limit, now);
    }

    /** Releases the named cards, all of which the user must hold. */
    method Unlock(u: UserId, on: seq<string>, devs: seq<seq<nat>>, now: int) returns (v: Verdict)
      requires Valid() && ParsedCards(cluster, on, devs)
      requires forall k :: k in Flattened() ==> Flattened()[k].bookings == []
      modifies AllCards(cluster)
      ensures Answered(cfg, NodeCommand.Unlock(u, ToSet(TargetKeys(on, devs))), old(Flattened()), now, v, Flattened())
    {
      FlatSeparate(cluster);
      TargetKeysDistinct(cluster, on, devs);
      GroupsJoin(on, devs);
      assert forall k :: k in Flat(cluster) ==> Flat(cluster)[k].bookings == Flattened()[k].bookings;
      v := ReleaseGroups(cfg, Flat(cluster), Groups(on, devs), DeviceLists(on, devs), u, now);
    }

    /** Empties the named cards, whoever holds them. */
    method Kickout(on: seq<string>, devs: seq<seq<nat>>, now: int) returns (v: Verdict)
      requires Valid() && ParsedCards(cluster, on, devs)
      modifies AllCards(cluster)
      ensures Answered(cfg, NodeCommand.Kickout(ToSet(TargetKeys(on, devs))), old(Flattened()), now, v, Flattened())
    {
      FlatSeparate(cluster);
      TargetKeysDistinct(cluster, on, devs);
      GroupsJoin(on, devs);
      v := EmptyGroups(cfg, Flat(cluster), Groups(on, devs), DeviceLists(on, devs), now);
    }

    /** One timer check over every card: expires and warns, and announces the next change exactly. */
    method CheckAndNotify(now: int) returns (changed: bool, notices: seq<Notice>, delay: Option<int>)
      requires Valid() && WellFormedState(Flattened(), now)
      modifies AllCards(cluster)
      ensures Flattened() == old(Step(cfg, Flattened(), NodeCommand.Sweep, now))
      ensures Flattened() == old(ExpireAll(cfg, Flattened(), now))
      ensures notices == old(AllNotices(cfg, Flattened(), CardOrder(cluster, nodes), now))
      ensures changed <==> Flattened() != old(Flattened())
      ensures Earliest(HolderCandidates(cfg, Flattened(), now), delay)
    {
      FlatSeparate(cluster);
      var every := EveryCard(cluster, nodes);
      OrderedOnce(cluster, nodes);
      GroupsJoin(nodes, every);
      changed, notices, delay := SweepGroups(cfg, Flat(cluster), Groups(nodes, every), DeviceLists(nodes, every), now);
    }
  }

  predicate NamesCards(cluster: Cluster, node: string, devs: seq<nat>) {
    forall b :: 0 <= b < |devs| ==> IsCard(cluster, node, devs[b])
  }

  /** The keys of each named node. */
  function Groups(on: seq<string>, devs: seq<seq<nat>>): (groups: seq<seq<Key>>)
    requires |on| == |devs|
    ensures |groups| == |on| && forall a :: 0 <= a < |on| ==> groups[a] == NodeKeys(on[a], devs[a])
  {
    seq(|on|, a requires 0 <= a < |on| => NodeKeys(on[a], devs[a]))
  }

  function Join(groups: seq<seq<Key>>): seq<Key> {
    if groups == [] then [] else Join(groups[..|groups| - 1]) + groups[|groups| - 1]
  }

  lemma {:induction false} GroupsJoin(on: seq<string>, devs: seq<seq<nat>>)
    requires |on| == |devs|
    ensures Join(Groups(on, devs)) == TargetKeys(on, devs)
  {
    if on != [] {
      var last := |on| - 1;
      GroupsJoin(on[..last], devs[..last]);
      assert Groups(on, devs)[..last] == Groups(on[..last], devs[..last]);
    }
  }

  lemma {:induction false} JoinPrefix(groups: seq<seq<Key>>, a: nat)
    requires a <= |groups| && Engine.NoRepeats(Join(groups))
    ensures Engine.NoRepeats(Join(groups[..a])) && forall k :: k in Join(groups[..a]) ==> k in Join(groups)
  {
    if a == |groups| {
      assert groups[..a] == groups;
    } else {
      var init := groups[..|groups| - 1];
      assert forall i :: 0 <= i < |Join(init)| ==> Join(groups)[i] == Join(init)[i];
      JoinPrefix(init, a);
      assert init[..a] == groups[..a];
    }
  }

  lemma JoinOneMore(groups: seq<seq<Key>>, a: nat)
    requires a < |groups|
    ensures Join(groups[..a + 1]) == Join(groups[..a]) + groups[a]
  {
    assert groups[..a + 1][..a] == groups[..a];
  }

  lemma JoinNext(groups: seq<seq<Key>>, a: nat)
    requires a < |groups| && Engine.NoRepeats(Join(groups))
    ensures Join(groups[..a + 1]) == Join(groups[..a]) + groups[a]
    ensures Engine.NoRepeats(Join(groups[..a]) + groups[a])
    ensures forall k :: k in groups[a] ==> k in Join(groups)
  {
    JoinPrefix(groups, a + 1);
    JoinOneMore(groups, a);
    forall k | k in groups[a] ensures k in Join(groups) { assert k in Join(groups[..a]) + groups[a]; }
  }

  method CheckEachGroup(cfg: Config, slots: map<Key, Slot>, groups: seq<seq<Key>>, devices: seq<seq<Slot>>,
                        shared: bool, u: UserId, duration: int, now: int)
    returns (v: Verdict)
    requires |groups| == |devices| && forall a :: 0 <= a < |groups| ==> Serves(slots, groups[a], devices[a])
    requires Engine.Targets(slots, Join(groups)) && StartedState(Engine.View(slots), now)
    ensures v.Accepted? <==> AllAllowed(cfg, shared, Engine.View(slots), Join(groups), u, duration, now)
    ensures v.Refused? ==> RefusedFirst(cfg, shared, Engine.View(slots), groups, u, duration, now, v.why)
  {
    v := Rules.Accepted;
    var a := 0;
    while a < |groups|
      invariant 0 <= a <= |groups| && v.Accepted?
      invariant AllAllowed(cfg, shared, Engine.View(slots), Join(groups[..a]), u, duration, now)
    {
      JoinNext(groups, a);
      v := CheckDevices(cfg, slots, groups[a], devices[a], shared, u, duration, now);
      if v.Refused? {
        return;
      }
      a := a + 1;
    }
    assert groups[..a] == groups;
  }

  /** The whole validate pass: policy, then node by node; nothing is changed. */
  method CheckGroups(cfg: Config, slots: map<Key, Slot>, groups: seq<seq<Key>>, devices: seq<seq<Slot>>, shared: bool,
                     u: UserId, duration: int, now: int)
    returns (v: Verdict)
    requires |groups| == |devices| && forall a :: 0 <= a < |groups| ==> Serves(slots, groups[a], devices[a])
    requires Engine.Targets(slots, Join(groups)) && StartedState(Engine.View(slots), now)
    ensures v.Accepted? <==>
            Judge(cfg, Engine.View(slots), Request(shared, u, ToSet(Join(groups)), duration), now).Accepted?
    ensures v.Refused? ==> RefusedFor(cfg, shared, Engine.View(slots), groups, u, duration, None, now, v.why)
  {
    ghost var s, targets := Engine.View(slots), Join(groups);
    var renewal;
    v, renewal := Engine.CheckPolicy(cfg, slots, u, Join(groups), None, now);
    if v.Refused? {
      return;
    }
    v := CheckEachGroup(cfg, slots, groups, devices, shared, u, duration, now);
    if v.Accepted? {
      AllowedByCards(cfg, s, shared, u, targets, duration, now);
    } else {
      RefusedByCard(cfg, s, shared, u, targets, targets, duration, now);
    }
  }

  /** The whole mutate pass, node by node and card by card. */
  method MutateGroups(ghost f: Resource -> Resource, ghost cfg: Config, slots: map<Key, Slot>, groups: seq<seq<Key>>,
                      devices: seq<seq<Slot>>, act: CardAction, ghost targets: set<Key>, now: int)
    requires |groups| == |devices| && forall a :: 0 <= a < |groups| ==> Serves(slots, groups[a], devices[a])
    requires Engine.Separate(slots) && Engine.Targets(slots, Join(groups)) && Performs(f, cfg, CommandOf(act, targets), now)
    modifies Engine.Objects(slots)
    ensures Engine.View(slots) == old(Engine.Served(Engine.View(slots), Join(groups), f))
  {
    ghost var before := Engine.View(slots);
    Engine.NoneServed(before, Join(groups), f);
    var a := 0;
    while a < |groups|
      invariant 0 <= a <= |groups|
      invariant Engine.View(slots) == Engine.Served(before, Join(groups[..a]), f)
    {
      JoinNext(groups, a);
      MutateDevices(f, cfg, slots, before, Join(groups[..a]), groups[a], devices[a], act, targets, now);
      a := a + 1;
    }
    assert groups[..a] == groups;
  }

  /** One node's cards are changed; the cards of the nodes before it stay changed. */
  method MutateDevices(ghost f: Resource -> Resource, ghost cfg: Config, slots: map<Key, Slot>, ghost before: State,
                       ghost done: seq<Key>, keys: seq<Key>, devices: seq<Slot>, act: CardAction, ghost targets: set<Key>, now: int)
    requires Engine.Separate(slots) && Serves(slots, keys, devices) && Engine.NoRepeats(done + keys)
    requires Performs(f, cfg, CommandOf(act, targets), now)
    requires before.Keys == slots.Keys && Engine.View(slots) == Engine.Served(before, done, f)
    modifies Engine.Objects(slots)
    ensures Engine.View(slots) == Engine.Served(before, done + keys, f)
  {
    var b := 0;
    assert done + keys[..0] == done;
    while b < |devices|
      invariant 0 <= b <= |devices|
      invariant Engine.View(slots) == Engine.Served(before, done + keys[..b], f)
    {
      ghost var was := Engine.View(slots);
      ServedNextIn(before, done, keys, b, f);
      MutateCard(f, cfg, devices[b], act, targets, now);
      Engine.ViewAt(slots, was, keys[b]);
      b := b + 1;
    }
    assert keys[..b] == keys;
  }

  lemma ServedNextIn(s: State, done: seq<Key>, keys: seq<Key>, b: nat, f: Resource -> Resource)
    requires Engine.NoRepeats(done + keys) && b < |keys| && keys[b] in s
    ensures Engine.Served(s, done + keys[..b], f)[keys[b]] == s[keys[b]]
    ensures Engine.Served(s, done + keys[..b + 1], f) == Engine.Served(s, done + keys[..b], f)[keys[b] := f(s[keys[b]])]
  {
    var all := done + keys;
    assert all[..|done| + b] == done + keys[..b] && all[..|done| + b + 1] == done + keys[..b + 1] && all[|done| + b] == keys[b];
    Engine.ServedNext(s, all, |done| + b, f);
  }

  // --------------------------------------------------------------- sweep

  lemma ListNextIn(s: State, done: seq<Key>, keys: seq<Key>, b: nat, kind: Resource -> bool, report: (Key, Resource) -> seq<Notice>)
    requires b < |keys| && keys[b] in s
    ensures Engine.Among(s, done + keys[..b + 1], kind)
         == Engine.Among(s, done + keys[..b], kind) + (if kind(s[keys[b]]) then [keys[b]] else [])
    ensures Rules.Collected(s, done + keys[..b + 1], report)
         == Rules.Collected(s, done + keys[..b], report) + report(keys[b], s[keys[b]])
  {
    var all := done + keys;
    assert all[..|done| + b] == done + keys[..b] && all[..|done| + b + 1] == done + keys[..b + 1] && all[|done| + b] == keys[b];
    Engine.ListNext(s, all, |done| + b, kind, report);
  }

  /** How far a sweep has come: the state, whether anything was altered, and the report. */
  datatype Progress = Progress(cards: State, changed: bool, notices: seq<Notice>)

  /** The cards of `done` are expired. */
  function SweptBy(before: State, done: seq<Key>, f: Resource -> Resource, alters: Resource -> bool,
                   report: (Key, Resource) -> seq<Notice>): Progress
  {
    Progress(Engine.Served(before, done, f), Engine.Among(before, done, alters) != [], Rules.Collected(before, done, report))
  }

  /** One more card is expired, from its original value. */
  lemma SweptNext(before: State, done: seq<Key>, keys: seq<Key>, b: nat, f: Resource -> Resource, alters: Resource -> bool,
                  report: (Key, Resource) -> seq<Notice>)
    requires Engine.NoRepeats(done + keys) && b < |keys| && keys[b] in before
    ensures var p, r := SweptBy(before, done + keys[..b], f, alters, report), before[keys[b]];
            && keys[b] in p.cards && p.cards[keys[b]] == r
            && SweptBy(before, done + keys[..b + 1], f, alters, report)
               == Progress(p.cards[keys[b] := f(r)], p.changed || alters(r), p.notices + report(keys[b], r))
  {
    ServedNextIn(before, done, keys, b, f);
    ListNextIn(before, done, keys, b, alters, report);
  }

  /** The card of one key is expired, and no other. */
  method ExpireAt(ghost f: Resource -> Resource, ghost alters: Resource -> bool, ghost report: (Key, Resource) -> seq<Notice>,
                  cfg: Config, ghost slots: map<Key, Slot>, key: Key, device: Slot, now: int)
    returns (expired: bool, reported: seq<Notice>)
    requires Engine.Separate(slots) && key in slots && slots[key] == device
    requires WellFormed(Engine.View(slots)[key], now) && Sweeps(f, alters, report, cfg, now)
    modifies device
    ensures var r := old(Engine.View(slots)[key]);
            && Engine.View(slots) == old(Engine.View(slots))[key := f(r)]
            && reported == report(key, r) && (expired <==> alters(r))
  {
    ghost var was := Engine.View(slots);
    expired, reported := ExpireSlot(f, alters, report, cfg, device, key, now);
    Engine.ViewAt(slots, was, key);
  }

  /** The sweep of one node's cards, continuing the report of the nodes before it. */
  method ExpireDevices(ghost f: Resource -> Resource, ghost alters: Resource -> bool, ghost report: (Key, Resource) -> seq<Notice>,
                       cfg: Config, slots: map<Key, Slot>, ghost before: State, ghost done: seq<Key>, keys: seq<Key>,
                       devices: seq<Slot>, now: int, altered: bool, sofar: seq<Notice>)
    returns (changed: bool, notices: seq<Notice>)
    requires Engine.Separate(slots) && Serves(slots, keys, devices) && Engine.NoRepeats(done + keys)
    requires before.Keys == slots.Keys && WellFormedState(before, now) && Sweeps(f, alters, report, cfg, now)
    requires Progress(Engine.View(slots), altered, sofar) == SweptBy(before, done, f, alters, report)
    modifies Engine.Objects(slots)
    ensures Progress(Engine.View(slots), changed, notices) == SweptBy(before, done + keys, f, alters, report)
  {
    changed, notices := altered, sofar;
    var b := 0;
    assert done + keys[..0] == done;
    while b < |devices|
      invariant 0 <= b <= |devices|
      invariant Progress(Engine.View(slots), changed, notices) == SweptBy(before, done + keys[..b], f, alters, report)
    {
      SweptNext(before, done, keys, b, f, alters, report);
      var expired, reported := ExpireAt(f, alters, report, cfg, slots, keys[b], devices[b], now);
      changed, notices, b := changed || expired, notices + reported, b + 1;
    }
    assert keys[..b] == keys;
  }

  /** The sweep over all nodes, and over the cards of each. */
  method ExpireGroups(ghost f: Resource -> Resource, ghost alters: Resource -> bool, ghost report: (Key, Resource) -> seq<Notice>,
                      cfg: Config, slots: map<Key, Slot>, groups: seq<seq<Key>>, devices: seq<seq<Slot>>, now: int)
    returns (changed: bool, notices: seq<Notice>)
    requires |groups| == |devices| && forall a :: 0 <= a < |groups| ==> Serves(slots, groups[a], devices[a])
    requires Engine.Separate(slots) && Engine.Targets(slots, Join(groups)) && WellFormedState(Engine.View(slots), now)
    requires Sweeps(f, alters, report, cfg, now)
    modifies Engine.Objects(slots)
    ensures Progress(Engine.View(slots), changed, notices) == SweptBy(old(Engine.View(slots)), Join(groups), f, alters, report)
  {
    changed, notices := false, [];
    ghost var before := Engine.View(slots);
    Engine.NoneServed(before, Join(groups), f);
    var a := 0;
    while a < |groups|
      invariant 0 <= a <= |groups|
      invariant Progress(Engine.View(slots), changed, notices) == SweptBy(before, Join(groups[..a]), f, alters, report)
    {
      JoinNext(groups, a);
      changed, notices := ExpireDevices(f, alters, report, cfg, slots, before, Join(groups[..a]), groups[a], devices[a], now,
                                        changed, notices);
      a := a + 1;
    }
    assert groups[..a] == groups;
  }

  /** `best` is the least wake-up the cards of `done` ask for. */
  ghost predicate LeastAmong(cfg: Config, s: State, done: seq<Key>, now: int, best: Option<int>) {
    && (best.Some? ==> exists k :: k in s && HolderCandidate(cfg, s[k], now, best.value))
    && (forall k, x :: k in done && k in s && HolderCandidate(cfg, s[k], now, x) ==> best.Some? && best.value <= x)
  }

  /** One more card's wake-up counts. */
  lemma LeastNext(cfg: Config, s: State, done: seq<Key>, k: Key, now: int, best: Option<int>, mine: Option<int>)
    requires LeastAmong(cfg, s, done, now, best) && k in s
    requires mine.None? ==> forall x :: !HolderCandidate(cfg, s[k], now, x)
    requires mine.Some? ==> HolderCandidate(cfg, s[k], now, mine.value)
    requires mine.Some? ==> forall x :: HolderCandidate(cfg, s[k], now, x) ==> mine.value <= x
    ensures LeastAmong(cfg, s, done + [k], now, if mine.Some? && (best.None? || mine.value < best.value) then mine else best)
  {
  }

  method DelayDevices(cfg: Config, slots: map<Key, Slot>, ghost done: seq<Key>, keys: seq<Key>, devices: seq<Slot>, now: int,
                      sofar: Option<int>)
    returns (best: Option<int>)
    requires Serves(slots, keys, devices) && LeastAmong(cfg, Engine.View(slots), done, now, sofar)
    requires StartedState(Engine.View(slots), now) && IdleIsFree(Engine.View(slots))
    ensures LeastAmong(cfg, Engine.View(slots), done + keys, now, best)
  {
    best := sofar;
    ghost var s := Engine.View(slots);
    var b := 0;
    assert done + keys[..0] == done;
    while b < |devices|
      invariant 0 <= b <= |devices| && LeastAmong(cfg, s, done + keys[..b], now, best)
    {
      assert Started(s[keys[b]], now);
      var mine := devices[b].HolderDelay(cfg, now);
      assert s[keys[b]] == devices[b].Value();
      LeastNext(cfg, s, done + keys[..b], keys[b], now, best, mine);
      assert done + keys[..b] + [keys[b]] == done + keys[..b + 1];
      if mine.Some? && (best.None? || mine.value < best.value) {
        best := mine;
      }
      b := b + 1;
    }
    assert keys[..b] == keys;
  }

  /** The next wake-up over all nodes, and over the cards of each. */
  method DelayGroups(cfg: Config, slots: map<Key, Slot>, groups: seq<seq<Key>>, devices: seq<seq<Slot>>, now: int)
    returns (delay: Option<int>)
    requires |groups| == |devices| && forall a :: 0 <= a < |groups| ==> Serves(slots, groups[a], devices[a])
    requires Engine.Targets(slots, Join(groups)) && ToSet(Join(groups)) == slots.Keys
    requires StartedState(Engine.View(slots), now) && IdleIsFree(Engine.View(slots))
    ensures Earliest(HolderCandidates(cfg, Engine.View(slots), now), delay)
  {
    var best: Option<int> := None;
    ghost var s := Engine.View(slots);
    var a := 0;
    while a < |groups|
      invariant 0 <= a <= |groups| && LeastAmong(cfg, s, Join(groups[..a]), now, best)
    {
      JoinNext(groups, a);
      best := DelayDevices(cfg, slots, Join(groups[..a]), groups[a], devices[a], now, best);
      a := a + 1;
    }
    assert groups[..a] == groups;
    delay := if best.None? then None else Some(AtLeastOne(best.value));
    LeastIsEarliest(cfg, s, Join(groups), now, best);
  }

  method SweepGroups(cfg: Config, slots: map<Key, Slot>, groups: seq<seq<Key>>, devices: seq<seq<Slot>>, now: int)
    returns (changed: bool, notices: seq<Notice>, delay: Option<int>)
    requires |groups| == |devices| && forall a :: 0 <= a < |groups| ==> Serves(slots, groups[a], devices[a])
    requires Engine.Separate(slots) && Engine.Targets(slots, Join(groups)) && ToSet(Join(groups)) == slots.Keys
    requires WellFormedState(Engine.View(slots), now)
    modifies Engine.Objects(slots)
    ensures Engine.View(slots) == old(Step(cfg, Engine.View(slots), NodeCommand.Sweep, now))
    ensures Engine.View(slots) == old(ExpireAll(cfg, Engine.View(slots), now))
    ensures notices == old(AllNotices(cfg, Engine.View(slots), Join(groups), now))
    ensures changed <==> Engine.View(slots) != old(Engine.View(slots))
    ensures Earliest(HolderCandidates(cfg, Engine.View(slots), now), delay)
  {
    ghost var before := Engine.View(slots);
    ItSweeps(cfg, now);
    changed, notices := ExpireGroups(Effect(cfg, NodeCommand.Sweep, now), ExpireAlters(cfg, now), ExpireReport(cfg, now), cfg,
                                     slots, groups, devices, now);
    ExpireServed(cfg, before, Join(groups), now);
    SomethingExpires(cfg, before, Join(groups), now);
    ExpiredStarted(cfg, before, now);
    delay := DelayGroups(cfg, slots, groups, devices, now);
  }

  lemma LeastIsEarliest(cfg: Config, s: State, keys: seq<Key>, now: int, best: Option<int>)
    requires s.Keys == ToSet(keys) && LeastAmong(cfg, s, keys, now, best)
    ensures Earliest(HolderCandidates(cfg, s, now), if best.None? then None else Some(AtLeastOne(best.value)))
  {
    forall k | k in s ensures k in keys { assert k in ToSet(keys); }
    if best.Some? { assert best.value in HolderCandidates(cfg, s, now); }
  }

  // ------------------------------------------------------------ mutation

  /** What a multi-card request does to each card it names. */
  datatype CardAction = Acquiring(shared: bool, user: UserId, duration: int) | Releasing(user: UserId) | Emptying

  function CommandOf(act: CardAction, targets: set<Key>): NodeCommand {
    match act
    case Acquiring(shared, u, duration) => Request(shared, u, targets, duration)
    case Releasing(u) => NodeCommand.Unlock(u, targets)
    case Emptying => NodeCommand.Kickout(targets)
  }

  method MutateCard(ghost f: Resource -> Resource, ghost cfg: Config, device: Slot, act: CardAction, ghost targets: set<Key>, now: int)
    requires Performs(f, cfg, CommandOf(act, targets), now)
    modifies device
    ensures device.Value() == f(old(device.Value()))
  {
    ghost var r := device.Value();
    match act {
      case Acquiring(shared, u, duration) =>
        if shared {
          device.Slock(u, duration, now);
        } else {
          device.NodeLock(u, duration, now);
        }
      case Releasing(u) =>
        device.Unlock(u);
      case Emptying =>
        device.Kickout();
    }
    assert device.Value() == EffectOn(cfg, CommandOf(act, targets), r, now);
  }

  method AcquireGroups(cfg: Config, slots: map<Key, Slot>, groups: seq<seq<Key>>, devices: seq<seq<Slot>>,
                       shared: bool, u: UserId, duration: int, now: int)
    returns (v: Verdict)
    requires |groups| == |devices| && forall a :: 0 <= a < |groups| ==> Serves(slots, groups[a], devices[a])
    requires Engine.Separate(slots) && Engine.Targets(slots, Join(groups)) && StartedState(Engine.View(slots), now)
    modifies Engine.Objects(slots)
    ensures var c := Request(shared, u, ToSet(Join(groups)), duration);
            && (v.Accepted? <==> old(Judge(cfg, Engine.View(slots), c, now)).Accepted?)
            && (v.Refused? ==> old(RefusedFor(cfg, shared, Engine.View(slots), groups, u, duration, None, now, v.why)))
            && Engine.View(slots) == old(Step(cfg, Engine.View(slots), c, now))
  {
    ghost var c := Request(shared, u, ToSet(Join(groups)), duration);
    v := CheckGroups(cfg, slots, groups, devices, shared, u, duration, now);
    if v.Accepted? {
      EffectPerforms(cfg, c, now);
      MutateGroups(Effect(cfg, c, now), cfg, slots, groups, devices, Acquiring(shared, u, duration), ToSet(Join(groups)), now);
    }
  }

  /** The command's verdict and its whole step. */
  ghost predicate Answered(cfg: Config, c: NodeCommand, s: State, now: int, v: Verdict, s': State) {
    Parsed(s, c) && v == Judge(cfg, s, c, now) && s' == Step(cfg, s, c, now)
  }

  /** Acceptance and the whole step of a request with a machine budget; all cards of a machine count once. */
  ghost predicate Budgets(cfg: Config, c: NodeCommand, s: State, limit: Option<int>, now: int, v: Verdict, s': State) {
    && Parsed(s, c) && Acquires(c)
    && (v.Accepted? <==> NodeBudgeted(cfg, s, NodeOf, c, limit, now).Accepted?)
    && s' == NodeBudgetedStep(cfg, s, NodeOf, c, limit, now)
  }

  method BudgetedGroups(cfg: Config, slots: map<Key, Slot>, groups: seq<seq<Key>>, devices: seq<seq<Slot>>,
                        shared: bool, u: UserId, duration: int, limit: Option<int>, now: int)
    returns (v: Verdict)
    requires |groups| == |devices| && forall a :: 0 <= a < |groups| ==> Serves(slots, groups[a], devices[a])
    requires Engine.Separate(slots) && Engine.Targets(slots, Join(groups)) && StartedState(Engine.View(slots), now)
    modifies Engine.Objects(slots)
    ensures Budgets(cfg, Request(shared, u, ToSet(Join(groups)), duration), old(Engine.View(slots)), limit, now, v, Engine.View(slots))
    ensures v.Refused? ==> old(RefusedFor(cfg, shared, Engine.View(slots), groups, u, duration, limit, now, v.why))
  {
    var exceeded := CheckAcquisition(slots, NodeOf, u, Join(groups), limit);
    if exceeded {
      return Rules.Refused(Rules.AcquisitionLimit);
    }
    v := AcquireGroups(cfg, slots, groups, devices, shared, u, duration, now);
  }

  method EmptyGroups(cfg: Config, slots: map<Key, Slot>, groups: seq<seq<Key>>, devices: seq<seq<Slot>>, now: int)
    returns (v: Verdict)
    requires |groups| == |devices| && forall a :: 0 <= a < |groups| ==> Serves(slots, groups[a], devices[a])
    requires Engine.Separate(slots) && Engine.Targets(slots, Join(groups))
    modifies Engine.Objects(slots)
    ensures Answered(cfg, NodeCommand.Kickout(ToSet(Join(groups))), old(Engine.View(slots)), now, v, Engine.View(slots))
  {
    ghost var c := NodeCommand.Kickout(ToSet(Join(groups)));
    EffectPerforms(cfg, c, now);
    v := Rules.Accepted;
    MutateGroups(Effect(cfg, c, now), cfg, slots, groups, devices, Emptying, ToSet(Join(groups)), now);
  }

  /** Every named card must be held; then all of them are released. */
  method ReleaseGroups(cfg: Config, slots: map<Key, Slot>, groups: seq<seq<Key>>, devices: seq<seq<Slot>>, u: UserId, now: int)
    returns (v: Verdict)
    requires |groups| == |devices| && forall a :: 0 <= a < |groups| ==> Serves(slots, groups[a], devices[a])
    requires Engine.Separate(slots) && Engine.Targets(slots, Join(groups))
    requires forall k :: k in slots ==> slots[k].bookings == []
    modifies Engine.Objects(slots)
    ensures Answered(cfg, NodeCommand.Unlock(u, ToSet(Join(groups))), old(Engine.View(slots)), now, v, Engine.View(slots))
  {
    ghost var s, c := Engine.View(slots), NodeCommand.Unlock(u, ToSet(Join(groups)));
    var held := AllHeld(slots, groups, devices, u);
    if !held {
      NotHeldRefused(cfg, s, Join(groups), u, now);
      return Rules.Refused(Rules.NotRequested);
    }
    v := Rules.Accepted;
    assert v == Judge(cfg, s, c, now);
    EffectPerforms(cfg, c, now);
    MutateGroups(Effect(cfg, c, now), cfg, slots, groups, devices, Releasing(u), ToSet(Join(groups)), now);
  }

  lemma NotHeldRefused(cfg: Config, s: State, keys: seq<Key>, u: UserId, now: int)
    requires ToSet(keys) <= s.Keys && exists k :: k in keys && k in s && !Has(s[k].holders, u) && s[k].bookings == []
    ensures Judge(cfg, s, NodeCommand.Unlock(u, ToSet(keys)), now) == Rules.Refused(Rules.NotRequested)
  {
    var k :| k in keys && k in s && !Has(s[k].holders, u) && s[k].bookings == [];
    assert k in ToSet(keys) && !Has(s[k].bookings, u);
  }

  /** Node by node, whether the user holds every card named. */
  method AllHeld(slots: map<Key, Slot>, groups: seq<seq<Key>>, devices: seq<seq<Slot>>, u: UserId) returns (held: bool)
    requires |groups| == |devices| && forall a :: 0 <= a < |groups| ==> Serves(slots, groups[a], devices[a])
    requires Engine.Targets(slots, Join(groups))
    ensures held <==> forall k :: k in Join(groups) ==> Has(Engine.View(slots)[k].holders, u)
  {
    var a := 0;
    while a < |groups|
      invariant 0 <= a <= |groups|
      invariant forall k :: k in Join(groups[..a]) ==> k in slots && Has(slots[k].holders, u)
    {
      JoinNext(groups, a);
      held := forall device | device in devices[a] :: Has(device.holders, u);
      if !held {
        ghost var b :| 0 <= b < |devices[a]| && !Has(devices[a][b].holders, u);
        assert groups[a][b] in Join(groups) && !Has(Engine.View(slots)[groups[a][b]].holders, u);
        return;
      }
      forall k | k in groups[a] ensures k in slots && Has(slots[k].holders, u) {
        var b :| 0 <= b < |groups[a]| && groups[a][b] == k;
        assert devices[a][b] in devices[a];
      }
      a := a + 1;
    }
    assert groups[..a] == groups;
    held := true;
  }

  /** `devices` are the objects stored under `keys`. */
  predicate Serves(slots: map<Key, Slot>, keys: seq<Key>, devices: seq<Slot>) {
    |keys| == |devices| && forall b :: 0 <= b < |keys| ==> keys[b] in slots && slots[keys[b]] == devices[b]
  }

  /** One node's cards: availability of all of them first, then their durations. */
  method CheckDevices(cfg: Config, slots: map<Key, Slot>, keys: seq<Key>, devices: seq<Slot>, shared: bool, u: UserId,
                      duration: int, now: int)
    returns (v: Verdict)
    requires Serves(slots, keys, devices) && StartedState(Engine.View(slots), now)
    ensures v.Accepted? <==> AllAllowed(cfg, shared, Engine.View(slots), keys, u, duration, now)
    ensures v.Refused? ==> v.why == ReasonAt(Engine.View(slots), shared, u, keys)
  {
    if !(forall device | device in devices :: MayAcquire(shared, device.Value(), u)) {
      ghost var b :| 0 <= b < |devices| && !MayAcquire(shared, devices[b].Value(), u);
      assert !MayAcquire(shared, Engine.View(slots)[keys[b]], u);
      return Rules.Refused(if shared then Rules.ExclusiveMode else Rules.InUseOrShared);
    }
    forall k | k in keys ensures MayAcquire(shared, Engine.View(slots)[k], u) {
      var b :| 0 <= b < |keys| && keys[b] == k;
      assert devices[b] in devices;
    }
    if cfg.maxDuration > 0 && u !in cfg.whitelist {
      var b := 0;
      while b < |devices|
        invariant 0 <= b <= |devices|
        invariant forall j :: 0 <= j < b ==> !NodeTooMuch(cfg, devices[j].Value(), u, duration, now)
      {
        assert Started(Engine.View(slots)[keys[b]], now);
        var tooMuch := NodeBots.CheckDuration(cfg, devices[b], u, duration, now);
        if tooMuch {
          assert !CardAllows(cfg, shared, Engine.View(slots)[keys[b]], u, duration, now);
          return Rules.Refused(Rules.TooLong);
        }
        b := b + 1;
      }
    }
    v := Rules.Accepted;
  }

  lemma RefusedByCard(cfg: Config, s: State, shared: bool, u: UserId, targets: seq<Key>, keys: seq<Key>, duration: int,
                      now: int)
    requires ToSet(targets) <= s.Keys && forall k :: k in keys ==> k in targets && k in s
    requires !AllAllowed(cfg, shared, s, keys, u, duration, now)
    ensures Judge(cfg, s, Request(shared, u, ToSet(targets), duration), now).Refused?
  {
    var k :| k in keys && !CardAllows(cfg, shared, s[k], u, duration, now);
    assert k in ToSet(targets);
  }

  lemma AllowedByCards(cfg: Config, s: State, shared: bool, u: UserId, targets: seq<Key>, duration: int, now: int)
    requires ToSet(targets) <= s.Keys && Rules.Policy(cfg, s, u, ToSet(targets), None, now).Accepted?
    requires AllAllowed(cfg, shared, s, targets, u, duration, now)
    ensures Judge(cfg, s, Request(shared, u, ToSet(targets), duration), now).Accepted?
  {
  }
}
