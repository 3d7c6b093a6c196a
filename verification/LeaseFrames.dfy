/** Allocator snapshot frames as the lease reports read them. */
module LeaseFrames {
  import opened Leases

  type Digest = string

  /** One allocation or booking of a snapshot; bookings carry `notified`, and may lack a deadline. */
  datatype Item = Item(ref: string, resource: string, platform: string, external: string, kind: string, mode: string,
                       start: int, deadline: Option<int>, origin: string, notified: Option<bool>)

  datatype Snapshot = Snapshot(allocations: seq<Item>, bookings: seq<Item>, complete: bool)

  datatype Frame = Frame(schema: string, version: int, bot: int, session: string, sequence: int, timestamp: int,
                         before: Digest, after: Digest, boundary: Option<string>, state: Snapshot)

  const MAX_INSTANT: int := 253402300799
  const MAX_ITEMS: int := 2048

  predicate Number(x: int) { 0 <= x <= MAX_INSTANT }

  predicate HexDigit(c: char) { ('a' <= c <= 'f') || ('0' <= c <= '9') }

  predicate Hex(s: string, n: nat) { |s| == n && forall i :: 0 <= i < n ==> HexDigit(s[i]) }

  /** A non-empty boundary marks a frame that does not continue its predecessor. */
  predicate Bounded(f: Frame) { f.boundary.Some? && f.boundary.value != "" }

  predicate ValidItem(x: Item, booking: bool) {
    && Hex(x.ref, 64)
    && (x.origin == "chat" || x.origin == "api" || x.origin == "service_key" || x.origin == "unknown")
    && x.notified.Some? == booking
    && 0 < |x.platform| <= 256 && 0 < |x.external| <= 256
    && 0 < |x.resource| <= 160
    && (x.kind == "node" || x.kind == "device")
    && (x.mode == "shared" || x.mode == "exclusive")
    && Number(x.start)
    && (!booking ==> x.deadline.Some?)
    && (x.deadline.Some? ==> Number(x.deadline.value) && x.start <= x.deadline.value)
  }

  predicate DistinctRefs(items: seq<Item>) {
    forall i, j :: 0 <= i < j < |items| ==> items[i].ref != items[j].ref
  }

  predicate ValidState(s: Snapshot) {
    && |s.allocations| <= MAX_ITEMS && |s.bookings| <= MAX_ITEMS
    && (forall x :: x in s.allocations ==> ValidItem(x, false))
    && (forall x :: x in s.bookings ==> ValidItem(x, true))
    && DistinctRefs(s.allocations + s.bookings)
  }

  /** Reads one list, refusing malformed items and references already seen. */
  method CheckItems(items: seq<Item>, booking: bool, ghost earlier: seq<Item>, seen: set<string>)
    returns (ok: bool, seen': set<string>)
    requires DistinctRefs(earlier) && seen == set x | x in earlier :: x.ref
    ensures ok <==> |items| <= MAX_ITEMS && (forall x :: x in items ==> ValidItem(x, booking))
                    && DistinctRefs(earlier + items)
    ensures ok ==> seen' == set x | x in earlier + items :: x.ref
  {
    seen' := seen;
    if |items| > MAX_ITEMS {
      return false, seen';
    }
    var i := 0;
    while i < |items|
      invariant 0 <= i <= |items|
      invariant forall x :: x in items[..i] ==> ValidItem(x, booking)
      invariant DistinctRefs(earlier + items[..i])
      invariant seen' == set x | x in earlier + items[..i] :: x.ref
    {
      var x := items[i];
      ghost var before := earlier + items[..i];
      assert earlier + items[..i + 1] == before + [x];
      if !ValidItem(x, booking) {
        assert x in items;
        return false, seen';
      }
      if x.ref in seen' {
        RepeatedRef(earlier, items, i);
        return false, seen';
      }
      assert forall y :: y in before ==> y.ref in seen';
      seen' := seen' + {x.ref};
      i := i + 1;
    }
    assert items[..i] == items;
    ok := true;
  }

  lemma RepeatedRef(earlier: seq<Item>, items: seq<Item>, i: nat)
    requires i < |items| && exists x :: x in earlier + items[..i] && x.ref == items[i].ref
    ensures !DistinctRefs(earlier + items)
  {
    var x :| x in earlier + items[..i] && x.ref == items[i].ref;
    var j :| 0 <= j < |earlier + items[..i]| && (earlier + items[..i])[j] == x;
    assert (earlier + items)[j] == x && (earlier + items)[|earlier| + i] == items[i];
  }

  method CheckState(s: Snapshot) returns (ok: bool)
    ensures ok <==> ValidState(s)
  {
    assert [] + s.allocations == s.allocations;
    var seen;
    ok, seen := CheckItems(s.allocations, false, [], {});
    if !ok {
      if DistinctRefs(s.allocations + s.bookings) {
        assert forall i :: 0 <= i < |s.allocations| ==> (s.allocations + s.bookings)[i] == s.allocations[i];
      }
      return;
    }
    ok, seen := CheckItems(s.bookings, true, s.allocations, seen);
  }

  predicate ValidFrame(f: Frame, hash: Snapshot -> Digest) {
    && f.schema == "lockbot.resource-lifecycle" && f.version == 1 && f.bot > 0
    && Hex(f.session, 32) && f.sequence >= 1 && Number(f.timestamp)
    && ValidState(f.state) && hash(f.state) == f.after
  }
}
