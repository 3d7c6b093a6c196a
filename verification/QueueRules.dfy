/** The queue bot as a transition system: policy, verdicts, and the effect of every command. */
module QueueRules {
  import opened Leases
  import opened Runs
  import opened Expiry

  datatype Refusal =
    | AcquisitionLimit | ResourceCap | RelockForbidden
    | NotYourTurn | TooLong | AlreadyQueued | HoldersCannotTake
    | NotRequested | NoActiveLock | UnknownResource
    | InUseOrShared | ExclusiveMode

  datatype Verdict = Accepted | Refused(why: Refusal)

  // -------------------------------------------------------------- policy

  /** A reservation counts while it is unprompted or its claim window is still open. */
  predicate CountsAsBooked(b: Stake, now: int) {
    !b.notified || b.start + CLAIM_WINDOW > now
  }

  predicate Claims(r: Resource, u: UserId, now: int) {
    || (exists s :: s in r.holders && s.user == u && s.start + s.duration > now)
    || (exists s :: s in r.bookings && s.user == u && CountsAsBooked(s, now))
  }

  function Claimed(s: State, u: UserId, now: int): set<Key> {
    set k | k in s && Claims(s[k], u, now)
  }

  /** The claim on one target that the no-renewal rule forbids. */
  predicate Renews(r: Resource, u: UserId, claim: Option<int>) {
    || Has(r.holders, u)
    || (claim.Some? && Find(r.bookings, u).Some? && claim.value > Find(r.bookings, u).value.duration)
  }

  function Policy(cfg: Config, s: State, u: UserId, targets: set<Key>, claim: Option<int>, now: int): Verdict
    requires targets <= s.Keys
  {
    var held := Claimed(s, u, now);
    if cfg.cap != -1 && targets - held != {} && |held + targets| > cfg.cap then Refused(ResourceCap)
    else if cfg.forbidRelock && exists k :: k in targets && Renews(s[k], u, claim) then Refused(RelockForbidden)
    else Accepted
  }

  predicate Capped(cfg: Config, u: UserId) {
    cfg.maxDuration > 0 && u !in cfg.whitelist
  }

  // ------------------------------------------------- one resource at a time

  predicate MayLock(r: Resource, u: UserId) {
    || (r.status == Idle && (r.bookings == [] || r.bookings[0].user == u))
    || Has(r.holders, u)
  }

  /** Seconds a lock grants on top of what the user already holds. */
  function Grant(r: Resource, u: UserId, duration: int, explicit: bool): int {
    var b := Find(r.bookings, u);
    if !explicit && b.Some? then b.value.duration else duration
  }

  function Extended(r: Resource, u: UserId, grant: int, now: int): Stake {
    var h := Find(r.holders, u);
    if h.Some? then Stake(u, h.value.start, grant + h.value.duration, false)
    else Stake(u, now, grant, false)
  }

  predicate TooMuch(cfg: Config, r: Resource, u: UserId, duration: int, explicit: bool, now: int) {
    Remaining(Extended(r, u, Grant(r, u, duration, explicit), now), now) > cfg.maxDuration
  }

  function LockOne(r: Resource, u: UserId, duration: int, explicit: bool, now: int): Resource {
    Resource(Exclusive, [Extended(r, u, Grant(r, u, duration, explicit), now)], Remove(r.bookings, u))
  }

  function BookOne(r: Resource, u: UserId, duration: int, now: int): Resource {
    Resource(r.status, r.holders, r.bookings + [Stake(u, now, duration, false)])
  }

  /** Preempted holders, in order, each with exactly its remaining time; expired ones vanish. */
  function Requeued(hs: seq<Stake>, u: UserId, now: int): seq<Stake> {
    if hs == [] then []
    else (if hs[0].user != u && Remaining(hs[0], now) > 0
          then [Stake(hs[0].user, now, Remaining(hs[0], now), false)] else [])
         + Requeued(hs[1..], u, now)
  }

  function Unprompted(list: seq<Stake>): (r: seq<Stake>)
    ensures |r| == |list|
    ensures forall i :: 0 <= i < |list| ==> r[i] == list[i].(notified := false)
  {
    seq(|list|, i requires 0 <= i < |list| => list[i].(notified := false))
  }

  function TakeOne(r: Resource, u: UserId, duration: int, now: int): Resource {
    Resource(Exclusive, [Extended(r, u, duration, now)],
             Unprompted(Requeued(r.holders, u, now) + Remove(r.bookings, u)))
  }

  function ClearOne(r: Resource): Resource { Resource(Idle, [], r.bookings) }

  function KickoutOne(r: Resource): Resource { Resource(Idle, [], []) }

  function UnlockOne(r: Resource, u: UserId): Resource {
    var hs := Remove(r.holders, u);
    Resource(if hs == [] then Idle else r.status, hs, Remove(r.bookings, u))
  }

  /** The bare `unlock` leaves an idle resource's holder list alone. */
  function UnlockAnyOne(r: Resource, u: UserId): Resource {
    if r.status == Idle then r.(bookings := Remove(r.bookings, u)) else UnlockOne(r, u)
  }

  function OpkickOne(r: Resource, u: UserId): Resource {
    if !Has(r.holders, u) then r
    else
      var hs := Remove(r.holders, u);
      Resource(if hs == [] then Idle else r.status, hs, r.bookings)
  }

  // --------------------------------------------------------------- sweep

  function Prompt(list: seq<Stake>, now: int): seq<Stake> {
    if list == [] then [] else [list[0].(notified := true, start := now)] + list[1..]
  }

  predicate TimedOut(b: Stake, now: int) {
    b.notified && now - b.start >= CLAIM_WINDOW
  }

  /** An idle resource prompts its first booker, or drops one whose window ran out and prompts the next. */
  function PromptOne(r: Resource, now: int): Resource {
    if r.status != Idle || r.bookings == [] then r
    else if !r.bookings[0].notified then r.(bookings := Prompt(r.bookings, now))
    else if TimedOut(r.bookings[0], now) then r.(bookings := Prompt(r.bookings[1..], now))
    else r
  }

  function PromptNotices(key: Key, r: Resource, now: int): seq<Notice> {
    if r.status != Idle || r.bookings == [] then []
    else if !r.bookings[0].notified then [ClaimReady(key, r.bookings[0].user)]
    else if TimedOut(r.bookings[0], now) then
      [ClaimTimedOut(key, r.bookings[0].user)]
      + (if |r.bookings| > 1 then [ClaimReady(key, r.bookings[1].user)] else [])
    else []
  }

  function SweepOne(cfg: Config, r: Resource, now: int): Resource {
    PromptOne(ExpireOne(cfg, r, now), now)
  }

  function SweepOneNotices(cfg: Config, key: Key, r: Resource, now: int): seq<Notice> {
    ExpireNotices(cfg, key, r, now) + PromptNotices(key, ExpireOne(cfg, r, now), now)
  }

  function SweepAll(cfg: Config, s: State, now: int): (r: State)
    ensures r.Keys == s.Keys
    ensures forall k :: k in s ==> r[k] == SweepOne(cfg, s[k], now)
  {
    map k | k in s :: SweepOne(cfg, s[k], now)
  }

  /** What is reported about the resources of a list, one after the other. */
  function Collected(s: State, keys: seq<Key>, report: (Key, Resource) -> seq<Notice>): seq<Notice> {
    if keys == [] then []
    else
      var k := keys[|keys| - 1];
      Collected(s, keys[..|keys| - 1], report) + (if k in s then report(k, s[k]) else [])
  }

  function SweepReport(cfg: Config, now: int): (Key, Resource) -> seq<Notice> {
    (k: Key, r: Resource) => SweepOneNotices(cfg, k, r, now)
  }

  /** Everything a sweep reports, resource by resource in the stored order. */
  function SweepNotices(cfg: Config, s: State, order: seq<Key>, now: int): seq<Notice> {
    Collected(s, order, SweepReport(cfg, now))
  }

  // ------------------------------------------------------------ commands

  datatype Command =
    | Lock(user: UserId, targets: set<Key>, duration: int, explicit: bool)
    | Book(user: UserId, targets: set<Key>, duration: int)
    | Take(user: UserId, targets: set<Key>, duration: int)
    | Unlock(user: UserId, targets: set<Key>)
    | UnlockAny(user: UserId)
    | Kicklock(targets: set<Key>)
    | Kickout(targets: set<Key>)
    | Opkick(user: UserId, only: Option<Key>)
    | Sweep

  /** The resources a command names; the bulk commands and operator requests name none. */
  function Named(c: Command): set<Key> {
    match c
    case Lock(_, targets, _, _) => targets
    case Book(_, targets, _) => targets
    case Take(_, targets, _) => targets
    case Unlock(_, targets) => targets
    case Kickout(targets) => targets
    case _ => {}
  }

  /** The parser lets through configured resources only. */
  predicate Parsed(s: State, c: Command) {
    Named(c) <= s.Keys
  }

  predicate OutOfTurn(s: State, u: UserId, targets: set<Key>)
    requires targets <= s.Keys
  {
    exists k :: k in targets && !MayLock(s[k], u)
  }

  predicate AnyTooLong(cfg: Config, s: State, u: UserId, targets: set<Key>, duration: int, explicit: bool, now: int)
    requires targets <= s.Keys
  {
    exists k :: k in targets && TooMuch(cfg, s[k], u, duration, explicit, now)
  }

  function LockVerdict(cfg: Config, s: State, u: UserId, targets: set<Key>, duration: int, explicit: bool,
                       now: int): Verdict
    requires targets <= s.Keys
  {
    var p := Policy(cfg, s, u, targets, if explicit then Some(duration) else None, now);
    if p.Refused? then p
    else if OutOfTurn(s, u, targets) then Refused(NotYourTurn)
    else if Capped(cfg, u) && AnyTooLong(cfg, s, u, targets, duration, explicit, now) then Refused(TooLong)
    else Accepted
  }

  function BookVerdict(cfg: Config, s: State, u: UserId, targets: set<Key>, duration: int, now: int): Verdict
    requires targets <= s.Keys
  {
    var p := Policy(cfg, s, u, targets, None, now);
    if p.Refused? then p
    else if exists k :: k in targets && (Has(s[k].holders, u) || Has(s[k].bookings, u)) then Refused(AlreadyQueued)
    else if Capped(cfg, u) && duration > cfg.maxDuration then Refused(TooLong)
    else Accepted
  }

  function TakeVerdict(cfg: Config, s: State, u: UserId, targets: set<Key>, duration: int, now: int): Verdict
    requires targets <= s.Keys
  {
    var p := Policy(cfg, s, u, targets, Some(duration), now);
    if p.Refused? then p
    else if exists k :: k in targets && Has(s[k].holders, u) then Refused(HoldersCannotTake)
    else if Capped(cfg, u) && Remaining(Stake(u, now, duration, false), now) > cfg.maxDuration then Refused(TooLong)
    else Accepted
  }

  /** The resources an operator kick may touch. */
  function KickTargets(s: State, u: UserId, only: Option<Key>): set<Key> {
    set k | k in s && (only.Some? ==> k == only.value) && Has(s[k].holders, u)
  }

  function Judge(cfg: Config, s: State, c: Command, now: int): Verdict
    requires Parsed(s, c)
  {
    match c
    case Lock(u, targets, duration, explicit) => LockVerdict(cfg, s, u, targets, duration, explicit, now)
    case Book(u, targets, duration) => BookVerdict(cfg, s, u, targets, duration, now)
    case Take(u, targets, duration) => TakeVerdict(cfg, s, u, targets, duration, now)
    case Unlock(u, targets) =>
      if exists k :: k in targets && !Has(s[k].holders, u) && !Has(s[k].bookings, u)
      then Refused(NotRequested) else Accepted
    case Kicklock(targets) => if targets <= s.Keys then Accepted else Refused(UnknownResource)
    case Opkick(u, only) => if KickTargets(s, u, only) == {} then Refused(NoActiveLock) else Accepted
    case _ => Accepted
  }

  /** The transition an accepted command applies to each resource in `Scope`. */
  function EffectOn(cfg: Config, c: Command, r: Resource, now: int): Resource {
    match c
    case Lock(u, _, duration, explicit) => LockOne(r, u, duration, explicit, now)
    case Book(u, _, duration) => BookOne(r, u, duration, now)
    case Take(u, _, duration) => TakeOne(r, u, duration, now)
    case Unlock(u, _) => UnlockOne(r, u)
    case UnlockAny(u) => UnlockAnyOne(r, u)
    case Kicklock(_) => ClearOne(r)
    case Kickout(_) => KickoutOne(r)
    case Opkick(u, _) => OpkickOne(r, u)
    case Sweep => SweepOne(cfg, r, now)
  }

  function Scope(s: State, c: Command): set<Key> {
    match c
    case Lock(_, targets, _, _) => targets
    case Book(_, targets, _) => targets
    case Take(_, targets, _) => targets
    case Unlock(_, targets) => targets
    case UnlockAny(_) => s.Keys
    case Kicklock(targets) => targets
    case Kickout(targets) => targets
    case Opkick(u, only) => KickTargets(s, u, only)
    case Sweep => s.Keys
  }

  function Effect(cfg: Config, c: Command, now: int): Resource -> Resource {
    (r: Resource) => EffectOn(cfg, c, r, now)
  }

  /** One whole command: refused leaves everything alone, accepted transforms exactly its scope. */
  function Step(cfg: Config, s: State, c: Command, now: int): State
    requires Parsed(s, c)
  {
    if Judge(cfg, s, c, now).Refused? then s
    else ApplyTo(s, Scope(s, c), Effect(cfg, c, now))
  }

  /** What acceptance of `c` guarantees about each resource it changes. */
  predicate Guarded(cfg: Config, c: Command, r: Resource, now: int) {
    match c
    case Lock(u, _, duration, explicit) =>
      && MayLock(r, u)
      && (Capped(cfg, u) ==> !TooMuch(cfg, r, u, duration, explicit, now))
      && (cfg.forbidRelock ==> !Renews(r, u, if explicit then Some(duration) else None))
    case Book(u, _, duration) =>
      !Has(r.holders, u) && !Has(r.bookings, u)
    case Take(u, _, duration) =>
      && !Has(r.holders, u)
      && (Capped(cfg, u) ==> Remaining(Stake(u, now, duration, false), now) <= cfg.maxDuration)
      && (cfg.forbidRelock ==> !Renews(r, u, Some(duration)))
    case _ => true
  }

  /** One resource across one command: untouched, or transformed under its guard. */
  predicate Transition(cfg: Config, c: Command, r: Resource, now: int, r': Resource) {
    r' == r || (Guarded(cfg, c, r, now) && r' == EffectOn(cfg, c, r, now))
  }

  lemma StepTransition(cfg: Config, s: State, c: Command, now: int, k: Key)
    requires Parsed(s, c) && k in s
    ensures Transition(cfg, c, s[k], now, Step(cfg, s, c, now)[k])
    ensures Step(cfg, s, c, now)[k] != s[k] ==> k in Scope(s, c)
  {
  }

  // ---------------------------------------------------------------- runs

  predicate Next(cfg: Config, s: State, e: Timed<Command>, s': State) {
    Parsed(s, e.cmd) && s' == Step(cfg, s, e.cmd, e.at)
  }

  /** `states` are the states a run passes through from time `from` on, one more than it has commands. */
  predicate IsRun(cfg: Config, from: int, states: seq<State>, run: seq<Timed<Command>>) {
    && |states| == |run| + 1
    && (forall i :: 0 <= i < |run| ==> Next(cfg, states[i], run[i], states[i + 1]))
    && Clocked(from, run)
  }

  /** The relation between one resource before and after a command. */
  ghost function Effects(cfg: Config): (Command, Resource, int, Resource) -> bool {
    (c: Command, r: Resource, now: int, r': Resource) => Transition(cfg, c, r, now, r')
  }

  lemma RunTransition(cfg: Config, from: int, states: seq<State>, run: seq<Timed<Command>>, n: nat, k: Key)
    requires IsRun(cfg, from, states, run) && n < |run| && k in states[n]
    ensures k in states[n + 1]
    ensures Transition(cfg, run[n].cmd, states[n][k], run[n].at, states[n + 1][k])
    ensures TimeAt(from, run, n) <= run[n].at
  {
    assert Next(cfg, states[n], run[n], states[n + 1]);
    StepTransition(cfg, states[n], run[n].cmd, run[n].at, k);
  }

  lemma RunTracks(cfg: Config, from: int, states: seq<State>, run: seq<Timed<Command>>, k: Key)
    requires IsRun(cfg, from, states, run) && k in states[0]
    ensures forall i :: 0 <= i < |states| ==> k in states[i]
    ensures Tracks(Along(states, k), from, run, Effects(cfg))
  {
    forall i | 0 <= i < |run| && k in states[i]
      ensures k in states[i + 1] && TimeAt(from, run, i) <= run[i].at
      ensures Effects(cfg)(run[i].cmd, states[i][k], run[i].at, states[i + 1][k])
    {
      RunTransition(cfg, from, states, run, i, k);
    }
    StatesTrack(from, states, run, k, Effects(cfg));
  }
}
