/** Version 2 frames: a snapshot with its commit contract and the events that led to it. */
module AuditFrames {
  import opened Leases
  import opened LeaseFrames

  datatype EventKind = Acquired | Renewed | Released | Expired | Booked | ClaimReady | Claimed | ClaimTimeout
                     | BookingRemoved | ModeChanged

  datatype Event = Event(kind: EventKind, id: string, resource: string, outcome: string, occurredAt: int,
                         recordedAt: int, leaseRef: Option<string>, bookingRef: Option<string>, version: int)

  datatype Initiator = System | Unknown | PlatformUser(platform: string, external: string)
                     | ManagementUser(user: int) | Operator(bot: int)

  datatype Contract = Contract(version: int, commit: int, journal: string, frameId: string, correlation: string,
                               atomic: bool, versions: map<string, int>, initiator: Initiator)

  datatype AuditFrame = AuditFrame(body: Frame, digestScope: Option<string>, contract: Contract, events: seq<Event>)

  /** The export's scope; an empty resource means the whole bot. */
  datatype Scope = Scope(bot: int, start: int, end: int, resource: string, pageSize: int)

  /** The two digests of the format, left uninterpreted. */
  datatype Digests = Digests(state: Snapshot -> Digest, event: (string, int) -> string)

  const MAX_EVENTS: int := 4096
  const MAX_VERSIONS: int := 4096
  const WHOLE_BOT: string := "whole_bot_before_resource_projection"
  const BOUNDARIES: set<string> := {"session_start", "state_persist_failed", "journal_write_failed", "invalid_state",
                                    "clock_reversal", "unconfirmed_mutation", "outbox_overflow"}

  predicate ValidScope(s: Scope) {
    && s.bot > 0 && Number(s.start) && Number(s.end) && 0 < s.end - s.start <= 7 * 86400
    && |s.resource| <= 160 && 1 <= s.pageSize <= 100
  }

  predicate Projected(s: Scope) { s.resource != "" }

  predicate ValidInitiator(x: Initiator, bot: int) {
    match x
    case System => true
    case Unknown => true
    case PlatformUser(p, e) => (p == "infoflow" || p == "feishu") && 0 < |e| <= 256
    case ManagementUser(u) => u > 0
    case Operator(b) => b == bot
  }

  predicate LeaseEvent(k: EventKind) {
    k.Acquired? || k.Renewed? || k.Released? || k.Expired? || k.Claimed? || k.ModeChanged?
  }

  /** The reference an event is about: its lease if it names one, else its booking. */
  function RefOf(e: Event): string {
    if e.leaseRef.Some? && e.leaseRef.value != "" then e.leaseRef.value
    else if e.bookingRef.Some? then e.bookingRef.value else ""
  }

  predicate ValidBody(f: AuditFrame, s: Scope, d: Digests) {
    && f.body.schema == "lockbot.resource-lifecycle" && f.body.version == 1 && f.body.bot == s.bot
    && Hex(f.body.session, 32) && f.body.sequence > 0 && Number(f.body.timestamp)
    && ValidState(f.body.state) && Hex(f.body.before, 64) && Hex(f.body.after, 64)
    && (f.body.boundary.Some? ==> f.body.boundary.value in BOUNDARIES)
    && (if Projected(s) then f.digestScope == Some(WHOLE_BOT)
        else f.digestScope.None? && d.state(f.body.state) == f.body.after)
  }

  predicate ValidContract(f: AuditFrame, s: Scope) {
    var c := f.contract;
    && c.version == 2 && c.commit > 0 && Hex(c.journal, 32) && Hex(c.frameId, 32) && Hex(c.correlation, 32)
    && |c.versions| <= MAX_VERSIONS
    && (forall ref :: ref in c.versions ==> Hex(ref, 64) && c.versions[ref] > 0)
    && ValidInitiator(c.initiator, s.bot)
    && |f.events| <= MAX_EVENTS
  }

  /** Every item's reference is versioned, and a filtered export holds only its resource. */
  predicate ValidItems(items: seq<Item>, f: AuditFrame, s: Scope) {
    forall x :: x in items ==> x.ref in f.contract.versions && (Projected(s) ==> x.resource == s.resource)
  }

  predicate ValidEvent(f: AuditFrame, index: int, e: Event, s: Scope, d: Digests) {
    && Hex(e.id, 64) && 0 < |e.resource| <= 160 && e.outcome == "committed"
    && Number(e.occurredAt) && e.occurredAt <= f.body.timestamp
    && Number(e.recordedAt) && e.recordedAt == f.body.timestamp
    && (if LeaseEvent(e.kind) then e.leaseRef.Some? else e.bookingRef.Some?)
    && (e.leaseRef.Some? ==> Hex(e.leaseRef.value, 64))
    && (e.bookingRef.Some? ==> Hex(e.bookingRef.value, 64))
    && Hex(RefOf(e), 64) && e.version > 0
    && RefOf(e) in f.contract.versions && e.version == f.contract.versions[RefOf(e)]
    && (if Projected(s) then e.resource == s.resource else e.id == d.event(f.contract.frameId, index))
  }

  predicate ValidAuditFrame(f: AuditFrame, s: Scope, d: Digests) {
    && ValidBody(f, s, d) && ValidContract(f, s)
    && ValidItems(f.body.state.allocations, f, s) && ValidItems(f.body.state.bookings, f, s)
    && forall i :: 0 <= i < |f.events| ==> ValidEvent(f, i, f.events[i], s, d)
  }

  method CheckVersioned(items: seq<Item>, f: AuditFrame, s: Scope) returns (ok: bool)
    ensures ok <==> ValidItems(items, f, s)
  {
    var i := 0;
    while i < |items|
      invariant 0 <= i <= |items|
      invariant ValidItems(items[..i], f, s)
    {
      if items[i].ref !in f.contract.versions || (Projected(s) && items[i].resource != s.resource) {
        assert items[i] in items;
        return false;
      }
      i := i + 1;
    }
    return true;
  }

  method CheckAuditFrame(f: AuditFrame, s: Scope, d: Digests) returns (ok: bool)
    ensures ok <==> ValidAuditFrame(f, s, d)
  {
    if !ValidBody(f, s, d) || !ValidContract(f, s) {
      return false;
    }
    ok := CheckVersioned(f.body.state.allocations, f, s);
    if !ok {
      return;
    }
    ok := CheckVersioned(f.body.state.bookings, f, s);
    if !ok {
      return;
    }
    var i := 0;
    while i < |f.events|
      invariant 0 <= i <= |f.events|
      invariant forall k :: 0 <= k < i ==> ValidEvent(f, k, f.events[k], s, d)
    {
      if !ValidEvent(f, i, f.events[i], s, d) {
        return false;
      }
      i := i + 1;
    }
  }
}
