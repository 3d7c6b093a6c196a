/** Splitting a long reply into messages by complete rows. */
module Chunking {

  /** Bytes of rows one message may hold, and messages one reply may take. */
  const CHUNK_BYTES: int := 16000
  const MAX_CHUNKS: int := 10

  function Bytes<Row>(rows: seq<Row>, size: Row -> nat): nat {
    if rows == [] then 0 else Bytes(rows[..|rows| - 1], size) + size(rows[|rows| - 1])
  }

  function Joined<Row>(chunks: seq<seq<Row>>): seq<Row> {
    if chunks == [] then [] else Joined(chunks[..|chunks| - 1]) + chunks[|chunks| - 1]
  }

  /** An order-preserving split of the rows in which every chunk fits. */
  ghost predicate Legal<Row>(chunks: seq<seq<Row>>, rows: seq<Row>, size: Row -> nat) {
    Joined(chunks) == rows && forall chunk :: chunk in chunks ==> Bytes(chunk, size) <= CHUNK_BYTES
  }

  datatype Outcome<Row> = Refused | Sent(chunks: seq<seq<Row>>)

  /** The loop's variables: full chunks, and the one being filled. */
  datatype Filling<Row> = Filling(chunks: seq<seq<Row>>, current: seq<Row>, bytes: nat)

  function AddRow<Row>(was: Filling<Row>, row: Row, size: Row -> nat): Filling<Row> {
    if was.current != [] && was.bytes + size(row) > CHUNK_BYTES then
      Filling(was.chunks + [was.current], [row], size(row))
    else
      Filling(was.chunks, was.current + [row], was.bytes + size(row))
  }

  function Fill<Row>(rows: seq<Row>, size: Row -> nat): Filling<Row> {
    if rows == [] then Filling([], [], 0)
    else AddRow(Fill(rows[..|rows| - 1], size), rows[|rows| - 1], size)
  }

  lemma FillNext<Row>(rows: seq<Row>, i: nat, size: Row -> nat)
    requires i < |rows|
    ensures Fill(rows[..i + 1], size) == AddRow(Fill(rows[..i], size), rows[i], size)
    ensures RowsFit(rows[..i + 1], size) <==> RowsFit(rows[..i], size) && size(rows[i]) <= CHUNK_BYTES
  {
    assert rows[..i + 1][..i] == rows[..i] && rows[..i + 1] == rows[..i] + [rows[i]];
  }

  ghost predicate RowsFit<Row>(rows: seq<Row>, size: Row -> nat) {
    forall row :: row in rows ==> size(row) <= CHUNK_BYTES
  }

  lemma JoinedNext<Row>(chunks: seq<seq<Row>>, chunk: seq<Row>)
    ensures Joined(chunks + [chunk]) == Joined(chunks) + chunk
  {
    assert (chunks + [chunk])[..|chunks|] == chunks;
  }

  lemma BytesNext<Row>(rows: seq<Row>, row: Row, size: Row -> nat)
    ensures Bytes(rows + [row], size) == Bytes(rows, size) + size(row)
  {
    assert (rows + [row])[..|rows|] == rows;
  }

  /** The chunks are full but not overfull, and none is empty. */
  ghost predicate Fits<Row>(chunks: seq<seq<Row>>, size: Row -> nat) {
    forall chunk :: chunk in chunks ==> chunk != [] && Bytes(chunk, size) <= CHUNK_BYTES
  }

  /** What the loop keeps: full chunks that fit, the current one counted, and no row lost. */
  ghost predicate Filled<Row>(f: Filling<Row>, rows: seq<Row>, size: Row -> nat) {
    && f.bytes == Bytes(f.current, size) <= CHUNK_BYTES
    && Fits(f.chunks, size)
    && Joined(f.chunks) + f.current == rows
  }

  lemma FitsNext<Row>(chunks: seq<seq<Row>>, chunk: seq<Row>, size: Row -> nat)
    requires Fits(chunks, size) && chunk != [] && Bytes(chunk, size) <= CHUNK_BYTES
    ensures Fits(chunks + [chunk], size)
  {
  }

  lemma RowAdded<Row>(was: Filling<Row>, rows: seq<Row>, row: Row, size: Row -> nat)
    requires Filled(was, rows, size) && size(row) <= CHUNK_BYTES
    ensures Filled(AddRow(was, row, size), rows + [row], size)
  {
    if was.current != [] && was.bytes + size(row) > CHUNK_BYTES {
      JoinedNext(was.chunks, was.current);
      FitsNext(was.chunks, was.current, size);
      BytesNext([], row, size);
      assert [] + [row] == [row];
    } else {
      BytesNext(was.current, row, size);
      assert Joined(was.chunks) + (was.current + [row]) == (Joined(was.chunks) + was.current) + [row];
    }
  }

  /** What is filled so far is a legal split, with no chunk empty. */
  lemma {:induction false} FillIsLegal<Row>(rows: seq<Row>, size: Row -> nat)
    requires RowsFit(rows, size)
    ensures Filled(Fill(rows, size), rows, size)
    ensures (Fill(rows, size).current == [] <==> rows == []) && (rows == [] ==> Fill(rows, size).chunks == [])
  {
    if rows != [] {
      var init, row := rows[..|rows| - 1], rows[|rows| - 1];
      assert row in rows && rows == init + [row];
      FillIsLegal(init, size);
      RowAdded(Fill(init, size), init, row, size);
    }
  }

  /** Taking the last row off a legal split whose last chunk holds more than that row. */
  lemma ShorterChunk<Row>(rows: seq<Row>, row: Row, size: Row -> nat, most: seq<seq<Row>>, rest: seq<Row>)
    requires Legal(most + [rest + [row]], rows + [row], size)
    ensures Legal(most + [rest], rows, size)
    ensures Bytes(rest + [row], size) == Bytes(rest, size) + size(row) <= CHUNK_BYTES
  {
    BytesNext(rest, row, size);
    JoinedNext(most, rest);
    JoinedNext(most, rest + [row]);
    assert rest + [row] in most + [rest + [row]];
    assert (Joined(most) + rest) + [row] == rows + [row];
    assert Joined(most) + rest == ((Joined(most) + rest) + [row])[..|rows|] == rows;
    forall chunk | chunk in most + [rest] ensures Bytes(chunk, size) <= CHUNK_BYTES {
      if chunk in most { assert chunk in most + [rest + [row]]; }
    }
  }

  /** Taking the last row off a legal split whose last chunk is only that row. */
  lemma OneChunkLess<Row>(rows: seq<Row>, row: Row, size: Row -> nat, most: seq<seq<Row>>)
    requires Legal(most + [[row]], rows + [row], size)
    ensures Legal(most, rows, size) && Bytes([row], size) == size(row)
  {
    JoinedNext(most, [row]);
    BytesNext([], row, size);
    assert [] + [row] == [row];
    assert Joined(most) == (Joined(most) + [row])[..|rows|] == rows;
    forall chunk | chunk in most ensures Bytes(chunk, size) <= CHUNK_BYTES { assert chunk in most + [[row]]; }
  }

  /** A split no worse than the filling: more chunks, or as many with no less in the last. */
  predicate NoBetter<Row>(other: seq<seq<Row>>, f: Filling<Row>, size: Row -> nat) {
    && |other| >= |f.chunks| + 1
    && (|other| == |f.chunks| + 1 ==> Bytes(other[|other| - 1], size) >= f.bytes)
  }

  /** A row that joins a chunk of the other split. */
  lemma TogetherAhead<Row>(f: Filling<Row>, row: Row, size: Row -> nat, most: seq<seq<Row>>, rest: seq<Row>)
    requires NoBetter(most + [rest], f, size) && f.current != []
    requires Bytes(rest + [row], size) == Bytes(rest, size) + size(row) <= CHUNK_BYTES
    ensures NoBetter(most + [rest + [row]], AddRow(f, row, size), size)
  {
  }

  /** A row that starts a chunk of the other split. */
  lemma AloneAhead<Row>(f: Filling<Row>, row: Row, size: Row -> nat, most: seq<seq<Row>>)
    requires if f.current == [] then f.chunks == [] && f.bytes == 0 else NoBetter(most, f, size)
    requires Bytes([row], size) == size(row)
    ensures NoBetter(most + [[row]], AddRow(f, row, size), size)
  {
  }

  /** A non-empty last chunk ends with the last row. */
  lemma LastOfLast<Row>(rows: seq<Row>, most: seq<seq<Row>>, last: seq<Row>)
    requires rows != [] && last != [] && Joined(most + [last]) == rows
    ensures last == last[..|last| - 1] + [rows[|rows| - 1]]
  {
    JoinedNext(most, last);
  }

  /** No legal split needs fewer chunks, and one that needs as many leaves no less in its last. */
  lemma {:induction false} FillIsAhead<Row>(rows: seq<Row>, size: Row -> nat, other: seq<seq<Row>>)
    requires rows != [] && RowsFit(rows, size) && Legal(other, rows, size)
    ensures NoBetter(other, Fill(rows, size), size)
    decreases |rows|, |other|
  {
    var most, last := other[..|other| - 1], other[|other| - 1];
    var init, row := rows[..|rows| - 1], rows[|rows| - 1];
    assert other == most + [last] && rows == init + [row];
    if last == [] {
      EmptyChunk(rows, size, most);
      FillIsAhead(rows, size, most);
    } else {
      var rest := last[..|last| - 1];
      LastOfLast(rows, most, last);
      FillIsLegal(init, size);
      if rest == [] {
        assert last == [row];
        OneChunkLess(init, row, size, most);
        if init != [] { FillIsAhead(init, size, most); }
        AloneAhead(Fill(init, size), row, size, most);
      } else {
        ShorterChunk(init, row, size, most, rest);
        JoinedNext(most, rest);
        assert |init| == |Joined(most)| + |rest|;
        FillIsAhead(init, size, most + [rest]);
        TogetherAhead(Fill(init, size), row, size, most, rest);
      }
    }
  }

  lemma EmptyChunk<Row>(rows: seq<Row>, size: Row -> nat, most: seq<seq<Row>>)
    requires Legal(most + [[]], rows, size)
    ensures Legal(most, rows, size)
  {
    JoinedNext(most, []);
    assert Joined(most) + [] == Joined(most);
    forall chunk | chunk in most ensures Bytes(chunk, size) <= CHUNK_BYTES { assert chunk in most + [[]]; }
  }

  function Finished<Row>(f: Filling<Row>): seq<seq<Row>> {
    if f.current == [] then f.chunks else f.chunks + [f.current]
  }

  /** The finished split is legal, and no legal split has fewer chunks. */
  lemma FinishedIsBest<Row>(rows: seq<Row>, size: Row -> nat)
    requires RowsFit(rows, size)
    ensures var chunks := Finished(Fill(rows, size));
            && Legal(chunks, rows, size) && Fits(chunks, size)
            && forall other :: Legal(other, rows, size) ==> |chunks| <= |other|
  {
    FillIsLegal(rows, size);
    JoinedNext(Fill(rows, size).chunks, Fill(rows, size).current);
    forall other | Legal(other, rows, size) ensures |Finished(Fill(rows, size))| <= |other| {
      if rows != [] { FillIsAhead(rows, size, other); }
    }
  }

  /** Fills chunks row by row, stopping at a row that fits no chunk. */
  method FillRows<Row>(rows: seq<Row>, size: Row -> nat) returns (ok: bool, f: Filling<Row>)
    ensures ok <==> RowsFit(rows, size)
    ensures ok ==> f == Fill(rows, size)
  {
    var chunks: seq<seq<Row>>, current: seq<Row>, bytes: nat := [], [], 0;
    var i := 0;
    while i < |rows|
      invariant 0 <= i <= |rows| && RowsFit(rows[..i], size)
      invariant Filling(chunks, current, bytes) == Fill(rows[..i], size)
    {
      var row := rows[i];
      if size(row) > CHUNK_BYTES {
        assert row in rows;
        return false, Filling(chunks, current, bytes);
      }
      FillNext(rows, i, size);
      if current != [] && bytes + size(row) > CHUNK_BYTES {
        chunks := chunks + [current];
        current, bytes := [], 0;
      }
      current, bytes := current + [row], bytes + size(row);
      i := i + 1;
    }
    assert rows[..i] == rows;
    return true, Filling(chunks, current, bytes);
  }

  /** The fewest messages that carry the rows in order; refused exactly when no legal split is small enough. */
  method Chunk<Row>(rows: seq<Row>, size: Row -> nat) returns (out: Outcome<Row>)
    ensures out.Sent? ==> Legal(out.chunks, rows, size) && |out.chunks| <= MAX_CHUNKS && Fits(out.chunks, size)
    ensures out.Sent? ==> forall other :: Legal(other, rows, size) ==> |out.chunks| <= |other|
    ensures out.Refused? <==> !exists chunks :: Legal(chunks, rows, size) && |chunks| <= MAX_CHUNKS
  {
    var ok, f := FillRows(rows, size);
    if !ok {
      NothingLegal(rows, size);
      return Refused;
    }
    var chunks := f.chunks;
    if f.current != [] {
      chunks := chunks + [f.current];
    }
    FinishedIsBest(rows, size);
    assert chunks == Finished(Fill(rows, size));
    if |chunks| > MAX_CHUNKS {
      return Refused;
    }
    return Sent(chunks);
  }

  lemma NothingLegal<Row>(rows: seq<Row>, size: Row -> nat)
    requires !RowsFit(rows, size)
    ensures forall other :: !Legal(other, rows, size)
  {
    var row :| row in rows && size(row) > CHUNK_BYTES;
    forall other ensures !Legal(other, rows, size) {
      if Legal(other, rows, size) { WideRow(other, rows, size, row); }
    }
  }

  /** A row too wide for a chunk is too wide for every split. */
  lemma {:induction false} WideRow<Row>(chunks: seq<seq<Row>>, rows: seq<Row>, size: Row -> nat, row: Row)
    requires Joined(chunks) == rows && row in rows && size(row) > CHUNK_BYTES
    ensures exists chunk :: chunk in chunks && Bytes(chunk, size) > CHUNK_BYTES
  {
    var most, last := chunks[..|chunks| - 1], chunks[|chunks| - 1];
    assert last in chunks && rows == Joined(most) + last;
    if row in last {
      WideChunk(last, size, row);
    } else {
      WideRow(most, Joined(most), size, row);
      var chunk :| chunk in most && Bytes(chunk, size) > CHUNK_BYTES;
      assert chunk in chunks;
    }
  }

  lemma {:induction false} WideChunk<Row>(chunk: seq<Row>, size: Row -> nat, row: Row)
    requires row in chunk
    ensures Bytes(chunk, size) >= size(row)
  {
    var init, last := chunk[..|chunk| - 1], chunk[|chunk| - 1];
    assert chunk == init + [last];
    if row != last { WideChunk(init, size, row); }
  }
}
