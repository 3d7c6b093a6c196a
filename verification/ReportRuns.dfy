/** Session runs: ordered within a session by sequence, stitched by first timestamp, sealed by a checkpoint. */
module ReportRuns {
  import opened Leases
  import opened LeaseFrames
  import opened ReportDedup
  import opened Sequences

  type Run = seq<Frame>

  predicate RunOk(run: Run) {
    && run != []
    && (forall f :: f in run ==> f.session == run[0].session)
    && (forall a, b :: 0 <= a < b < |run| ==> run[a].sequence < run[b].sequence)
  }

  function SequenceOf(f: Frame): int { f.sequence }

  function FirstInstant(run: Run): int { if run == [] then 0 else run[0].timestamp }

  function LastInstant(run: Run): int { if run == [] then 0 else run[|run| - 1].timestamp }

  function SessionOf(run: Run): string { if run == [] then "" else run[0].session }

  predicate DistinctSessions(runs: seq<Run>) {
    forall i, k :: 0 <= i < k < |runs| ==> SessionOf(runs[i]) != SessionOf(runs[k])
  }

  predicate Stitched(runs: seq<Run>) {
    && (forall run :: run in runs ==> RunOk(run))
    && DistinctSessions(runs)
    && SortedBy(runs, FirstInstant)
  }

  predicate Among(f: Frame, runs: seq<Run>) {
    exists run :: run in runs && f in run
  }

  predicate IsKept(f: Frame, kept: map<FrameKey, Frame>) {
    KeyOf(f) in kept && kept[KeyOf(f)] == f
  }

  ghost predicate Holds(kept: map<FrameKey, Frame>, runs: seq<Run>) {
    forall f :: Among(f, runs) <==> IsKept(f, kept)
  }

  predicate DistinctSequences(run: Run) {
    forall a, b :: 0 <= a < b < |run| ==> run[a].sequence != run[b].sequence
  }

  lemma InsertNext(run: Run, f: Frame)
    requires SortedBy(run, SequenceOf) && DistinctSequences(run)
    requires forall g :: g in run ==> g.sequence != f.sequence
    ensures var next := Insert(run, f, SequenceOf);
            && SortedBy(next, SequenceOf) && DistinctSequences(next)
            && forall g :: g in next <==> g in run || g == f
  {
    InsertSorts(run, f, SequenceOf);
    forall g ensures g in Insert(run, f, SequenceOf) <==> g in run || g == f {
      InsertMembers(run, f, SequenceOf, g);
    }
    DistinctNext(run, f);
  }

  lemma DistinctNext(run: Run, f: Frame)
    requires DistinctSequences(run) && forall g :: g in run ==> g.sequence != f.sequence
    ensures DistinctSequences(Insert(run, f, SequenceOf))
  {
    var p, next := Place(run, f, SequenceOf), Insert(run, f, SequenceOf);
    Inserted(run, f, SequenceOf);
    forall a, b | 0 <= a < b < |next| ensures next[a].sequence != next[b].sequence {
      if a == p {
        assert next[b] == run[b - 1];
      } else if b == p {
        assert next[a] == run[a];
      } else {
        assert next[a] == run[if a < p then a else a - 1] && next[b] == run[if b < p then b else b - 1];
      }
    }
  }

  /** The frames of one session in sequence order. */
  method SessionRun(kept: map<FrameKey, Frame>, session: string) returns (run: Run)
    requires forall k :: k in kept ==> KeyOf(kept[k]) == k
    requires exists k :: k in kept && k.session == session
    ensures RunOk(run) && SessionOf(run) == session
    ensures forall f :: f in run <==> f.session == session && IsKept(f, kept)
  {
    run := [];
    var all := set k | k in kept && k.session == session;
    var unread := all;
    while unread != {}
      invariant unread <= all
      invariant SortedBy(run, SequenceOf)
      invariant forall f :: f in run <==> KeyOf(f) in all - unread && kept[KeyOf(f)] == f
      invariant DistinctSequences(run)
    {
      var k :| k in unread;
      unread := unread - {k};
      assert forall f :: f in run ==> f.sequence != kept[k].sequence;
      InsertNext(run, kept[k]);
      run := Insert(run, kept[k], SequenceOf);
    }
    ghost var k :| k in kept && k.session == session;
    assert k in all;
    assert kept[k] in run && run[0] in run;
    assert forall a, b :: 0 <= a < b < |run| ==> SequenceOf(run[a]) <= SequenceOf(run[b]);
  }

  /** One run per session, ordered by first timestamp. */
  method BuildRuns(kept: map<FrameKey, Frame>) returns (runs: seq<Run>)
    requires forall k :: k in kept ==> KeyOf(kept[k]) == k
    ensures Stitched(runs) && Holds(kept, runs)
  {
    runs := [];
    var all := set k | k in kept :: k.session;
    var unread := all;
    while unread != {}
      invariant unread <= all
      invariant Stitched(runs)
      invariant forall run :: run in runs ==> SessionOf(run) in all - unread
      invariant forall f :: Among(f, runs) <==> f.session in all - unread && IsKept(f, kept)
    {
      var session :| session in unread;
      var run := SessionRun(kept, session);
      StitchNext(runs, run);
      AmongNext(runs, run);
      runs := Insert(runs, run, FirstInstant);
      unread := unread - {session};
    }
  }

  lemma StitchNext(runs: seq<Run>, run: Run)
    requires Stitched(runs) && RunOk(run)
    requires forall r :: r in runs ==> SessionOf(r) != SessionOf(run)
    ensures Stitched(Insert(runs, run, FirstInstant))
  {
    AmongNext(runs, run);
    InsertSorts(runs, run, FirstInstant);
    Inserted(runs, run, FirstInstant);
    var p, ys := Place(runs, run, FirstInstant), Insert(runs, run, FirstInstant);
    forall i, k | 0 <= i < k < |ys| ensures SessionOf(ys[i]) != SessionOf(ys[k]) {
      if i == p {
        assert ys[k] == runs[k - 1];
      } else if k == p {
        assert ys[i] == runs[i];
      } else {
        assert ys[i] == runs[if i < p then i else i - 1] && ys[k] == runs[if k < p then k else k - 1];
      }
    }
  }

  lemma AmongNext(runs: seq<Run>, run: Run)
    ensures forall r :: r in Insert(runs, run, FirstInstant) <==> r in runs || r == run
    ensures forall f :: Among(f, Insert(runs, run, FirstInstant)) <==> Among(f, runs) || f in run
  {
    forall r ensures r in Insert(runs, run, FirstInstant) <==> r in runs || r == run {
      InsertMembers(runs, run, FirstInstant, r);
    }
  }

  // ------------------------------------------------------------- checkpoints

  /** A live checkpoint; `consistent` is absent when it is missing or not a boolean. */
  datatype Checkpoint = Checkpoint(consistent: Option<bool>, integrityBoundary: Option<string>, session: string,
                                   sequence: int, timestamp: int, after: Digest, state: Snapshot)

  predicate ValidCheckpoint(c: Checkpoint, hash: Snapshot -> Digest) {
    && c.consistent == Some(true) && c.integrityBoundary.None?
    && Hex(c.session, 32) && c.sequence >= 1 && Number(c.timestamp) && Hex(c.after, 64)
    && ValidState(c.state) && c.state.complete && hash(c.state) == c.after
  }

  /** The checkpoint repeats the last committed frame of this run, no earlier than it. */
  predicate Seals(c: Checkpoint, run: Run) {
    && run != []
    && var last := run[|run| - 1];
       c.session == last.session && c.sequence == last.sequence && c.after == last.after
       && c.state == last.state && c.timestamp >= last.timestamp
  }

  /** The frame that carries the last state up to the checkpoint's instant. */
  function Sealed(run: Run, c: Checkpoint): Run
    requires run != []
  {
    var last := run[|run| - 1];
    run + [last.(sequence := last.sequence + 1, timestamp := c.timestamp, before := last.after, boundary := None)]
  }

  /** Appends a sealing frame to the run the checkpoint matches, of which there is at most one. */
  method Seal(runs: seq<Run>, c: Checkpoint) returns (sealed: seq<Run>, matched: bool)
    requires Stitched(runs)
    ensures Stitched(sealed) && IsSealing(runs, c, sealed)
    ensures matched <==> exists run :: run in runs && Seals(c, run)
  {
    sealed, matched := runs, false;
    var i := 0;
    while i < |runs|
      invariant 0 <= i <= |runs| == |sealed|
      invariant forall k :: 0 <= k < i ==> sealed[k] == MaybeSealed(runs[k], c)
      invariant forall k :: i <= k < |runs| ==> sealed[k] == runs[k]
      invariant matched <==> exists k :: 0 <= k < i && Seals(c, runs[k])
    {
      if Seals(c, runs[i]) {
        matched := true;
        sealed := sealed[i := Sealed(runs[i], c)];
      }
      i := i + 1;
    }
    SealKeepsStitched(runs, c, sealed);
  }

  function MaybeSealed(run: Run, c: Checkpoint): Run {
    if Seals(c, run) then Sealed(run, c) else run
  }

  predicate IsSealing(runs: seq<Run>, c: Checkpoint, sealed: seq<Run>) {
    && |sealed| == |runs|
    && forall i :: 0 <= i < |runs| ==> sealed[i] == MaybeSealed(runs[i], c)
  }

  lemma SealKeepsRun(run: Run, c: Checkpoint)
    requires RunOk(run)
    ensures var sealed := MaybeSealed(run, c);
            RunOk(sealed) && SessionOf(sealed) == SessionOf(run) && FirstInstant(sealed) == FirstInstant(run)
  {
    if Seals(c, run) {
      assert run[|run| - 1] in run;
      assert MaybeSealed(run, c)[..|run|] == run;
    }
  }

  lemma SealKeepsStitched(runs: seq<Run>, c: Checkpoint, sealed: seq<Run>)
    requires Stitched(runs) && IsSealing(runs, c, sealed)
    ensures Stitched(sealed)
  {
    forall i | 0 <= i < |runs|
      ensures RunOk(sealed[i]) && SessionOf(sealed[i]) == SessionOf(runs[i])
      ensures FirstInstant(sealed[i]) == FirstInstant(runs[i])
    {
      assert runs[i] in runs;
      SealKeepsRun(runs[i], c);
    }
  }

  /** Sessions are distinct, so a checkpoint never seals two runs. */
  lemma SealsOnce(runs: seq<Run>, c: Checkpoint, i: nat, k: nat)
    requires Stitched(runs) && i < |runs| && k < |runs| && Seals(c, runs[i]) && Seals(c, runs[k])
    ensures i == k
  {
    assert runs[i] in runs && runs[k] in runs;
    assert runs[i][|runs[i]| - 1] in runs[i] && runs[k][|runs[k]| - 1] in runs[k];
  }
}
