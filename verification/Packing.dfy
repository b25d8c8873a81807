/** Packing normalised vectors into chunks by counting down bytes, and the separate loop that reads them back. */
module Packing {
  import opened Wrappers
  import opened DotProducts
  import opened Multiples

  const FLOAT_BYTES: nat := 4

  class Chunk {
    const index: nat
    const vectors: nat
    const dimensions: nat
    const data: array<real>

    constructor (index: nat, vectors: nat, dimensions: nat)
      ensures this.index == index && this.vectors == vectors && this.dimensions == dimensions
      ensures fresh(data) && data.Length == Times(vectors, dimensions)
    {
      this.index, this.vectors, this.dimensions := index, vectors, dimensions;
      TimesIsProduct(vectors, dimensions);
      data := new real[vectors * dimensions];
    }
  }

  class ChunkManager {
    var chunks: seq<Chunk>
    var nextIndex: nat

    // A chunk's index is its position, and no two chunks share a buffer.
    ghost predicate Valid()
      reads this
    {
      && nextIndex == |chunks|
      && (forall i | 0 <= i < |chunks| :: chunks[i].index == i)
      && (forall i, j | 0 <= i < j < |chunks| :: chunks[i].data != chunks[j].data)
    }

    constructor ()
      ensures Valid() && chunks == []
    {
      chunks, nextIndex := [], 0;
    }

    method Allocate(vectors: nat, dimensions: nat) returns (chunk: Chunk)
      requires Valid()
      modifies this
      ensures Valid() && fresh(chunk) && fresh(chunk.data) && chunks == old(chunks) + [chunk]
      ensures chunk.vectors == vectors && chunk.dimensions == dimensions
      ensures chunk.data.Length == Times(vectors, dimensions)
    {
      chunk := new Chunk(nextIndex, vectors, dimensions);
      nextIndex := nextIndex + 1;
      chunks := chunks + [chunk];
    }

    // The source throws where the model returns None.
    method GetRo(n: nat) returns (chunk: Option<Chunk>)
      requires Valid()
      ensures chunk.Some? <==> n < |chunks|
      ensures chunk.Some? ==> chunk.value == chunks[n] && chunk.value.index == n
    {
      return if n < |chunks| then Some(chunks[n]) else None;
    }

    method Size() returns (size: nat)
      ensures size == |chunks|
    {
      return |chunks|;
    }
  }

  // The first n vectors of a buffer.
  function Slots(data: seq<real>, D: nat, n: nat): (r: seq<seq<real>>)
    requires Times(n, D) <= |data|
    ensures |r| == n
  {
    if n == 0 then [] else Slots(data, D, n - 1) + [data[Times(n - 1, D)..Times(n, D)]]
  }

  lemma {:induction false} SlotAt(data: seq<real>, D: nat, n: nat, r: nat)
    requires Times(n, D) <= |data| && r < n
    ensures Times(r, D) + D == Times(r + 1, D) <= |data|
    ensures Slots(data, D, n)[r] == data[Times(r, D)..Times(r, D) + D]
  {
    TimesGrows(r + 1, n, D);
    if r < n - 1 { SlotAt(data, D, n - 1, r); }
  }

  function Written(data: seq<real>, offset: nat, v: seq<real>): (r: seq<real>)
    requires offset + |v| <= |data|
    ensures |r| == |data|
  {
    data[..offset] + v + data[offset + |v|..]
  }

  lemma WrittenBefore(data: seq<real>, offset: nat, v: seq<real>, a: nat, b: nat)
    requires offset + |v| <= |data| && a <= b <= |data| && (b <= offset || offset + |v| <= a)
    ensures Written(data, offset, v)[a..b] == data[a..b]
  {
    var after := Written(data, offset, v);
    assert forall k | a <= k < b :: after[k] == data[k];
  }

  // Writing a vector at the offset of slot r changes this slot and no other.
  lemma {:induction false} SlotWritten(data: seq<real>, D: nat, n: nat, r: nat, v: seq<real>)
    requires Times(n, D) <= |data| && r < n && |v| == D && Times(r, D) + D <= |data|
    ensures Slots(Written(data, Times(r, D), v), D, n) == Slots(data, D, n)[r := v]
  {
    var after := Written(data, Times(r, D), v);
    if r < n - 1 {
      SlotWritten(data, D, n - 1, r, v);
      TimesGrows(r + 1, n - 1, D);
      WrittenBefore(data, Times(r, D), v, Times(n - 1, D), Times(n, D));
    } else {
      WrittenBefore(data, Times(r, D), v, 0, Times(r, D));
      assert after[..Times(r, D)] == after[0..Times(r, D)] && data[..Times(r, D)] == data[0..Times(r, D)];
      SlotsBelow(data, after, D, r);
      assert after[Times(r, D)..Times(r + 1, D)] == v;
    }
  }

  lemma {:induction false} SlotsBelow(data: seq<real>, after: seq<real>, D: nat, n: nat)
    requires Times(n, D) <= |data| == |after| && after[..Times(n, D)] == data[..Times(n, D)]
    ensures Slots(after, D, n) == Slots(data, D, n)
  {
    if n > 0 {
      assert data[..Times(n - 1, D)] == data[..Times(n, D)][..Times(n - 1, D)];
      assert after[..Times(n - 1, D)] == after[..Times(n, D)][..Times(n - 1, D)];
      assert data[Times(n - 1, D)..Times(n, D)] == data[..Times(n, D)][Times(n - 1, D)..];
      assert after[Times(n - 1, D)..Times(n, D)] == after[..Times(n, D)][Times(n - 1, D)..];
      SlotsBelow(data, after, D, n - 1);
    }
  }

  // What a chunk holds.
  datatype Buffer = Buffer(vectors: nat, data: seq<real>)

  predicate Sized(buffers: seq<Buffer>, D: nat) {
    forall i | 0 <= i < |buffers| :: |buffers[i].data| == Times(buffers[i].vectors, D)
  }

  // All slots of all buffers, in order.
  function AllSlots(buffers: seq<Buffer>, D: nat): seq<seq<real>>
    requires Sized(buffers, D)
  {
    if buffers == [] then []
    else
      var last := buffers[|buffers| - 1];
      AllSlots(buffers[..|buffers| - 1], D) + Slots(last.data, D, last.vectors)
  }

  lemma {:induction false} AllSlotsAt(buffers: seq<Buffer>, D: nat, q: nat, r: nat)
    requires Sized(buffers, D) && q < |buffers| && r < buffers[q].vectors
    ensures |AllSlots(buffers[..q], D)| + r < |AllSlots(buffers, D)|
    ensures AllSlots(buffers, D)[|AllSlots(buffers[..q], D)| + r] == Slots(buffers[q].data, D, buffers[q].vectors)[r]
    decreases |buffers|
  {
    var front := buffers[..|buffers| - 1];
    if q < |buffers| - 1 {
      assert front[..q] == buffers[..q];
      AllSlotsAt(front, D, q, r);
    }
  }

  lemma Appended(buffers: seq<Buffer>, D: nat, buffer: Buffer)
    requires Sized(buffers, D) && |buffer.data| == Times(buffer.vectors, D)
    ensures Sized(buffers + [buffer], D)
    ensures AllSlots(buffers + [buffer], D) == AllSlots(buffers, D) + Slots(buffer.data, D, buffer.vectors)
  {
    assert (buffers + [buffer])[..|buffers|] == buffers;
  }

  // Writing to slot r of the last buffer.
  lemma LastWritten(front: seq<Buffer>, D: nat, last: Buffer, r: nat, v: seq<real>, after: Buffer)
    requires Sized(front, D) && |last.data| == Times(last.vectors, D) && r < last.vectors && |v| == D
    requires Times(r, D) + D <= |last.data| && after == last.(data := Written(last.data, Times(r, D), v))
    ensures Sized(front + [last], D) && Sized(front + [after], D)
    ensures |AllSlots(front, D)| + r < |AllSlots(front + [last], D)|
    ensures AllSlots(front + [after], D) == AllSlots(front + [last], D)[|AllSlots(front, D)| + r := v]
  {
    SlotWritten(last.data, D, last.vectors, r, v);
    Appended(front, D, last);
    Appended(front, D, after);
    var all, slots := AllSlots(front, D), Slots(last.data, D, last.vectors);
    assert (all + slots)[|all| + r := v] == all + slots[r := v];
  }

  predicate Uniform(buffers: seq<Buffer>, V: nat) {
    forall i | 0 <= i < |buffers| :: buffers[i].vectors == V
  }

  lemma {:induction false} UniformSize(buffers: seq<Buffer>, V: nat, D: nat)
    requires Sized(buffers, D) && Uniform(buffers, V)
    ensures |AllSlots(buffers, D)| == Times(|buffers|, V)
  {
    if buffers != [] { UniformSize(buffers[..|buffers| - 1], V, D); }
  }

  // As few chunks of V vectors as hold all vectors, which come one after the other.
  ghost predicate IsPacked(buffers: seq<Buffer>, V: nat, D: nat, vs: seq<seq<real>>) {
    && 0 < V && Sized(buffers, D) && Uniform(buffers, V)
    && |buffers| == (|vs| + V - 1) / V
    && vs <= AllSlots(buffers, D)
  }

  lemma DivisionIsUnique(x: nat, k: nat, V: nat, r: nat)
    requires r < V && x == Times(k, V) + r
    ensures x / V == k
  {
    var q := x / V;
    Quotient(x, V);
    if q < k { TimesGrows(q + 1, k, V); } else if k < q { TimesGrows(k + 1, q, V); }
  }

  lemma LeastChunks(n: nat, k: nat, V: nat, left: nat)
    requires left < V && Times(k, V) == n + left
    ensures (n + V - 1) / V == k
  {
    DivisionIsUnique(n + V - 1, k, V, V - 1 - left);
  }

  /** Vector j is in chunk j / V, from float (j % V) * D on, inside the chunk. */
  lemma PackedAt(buffers: seq<Buffer>, V: nat, D: nat, vs: seq<seq<real>>, j: nat)
    requires IsPacked(buffers, V, D, vs) && j < |vs|
    ensures j / V < |buffers|
    ensures 0 <= j % V * D <= j % V * D + D <= |buffers[j / V].data|
    ensures buffers[j / V].data[j % V * D..j % V * D + D] == vs[j]
  {
    var q, r := j / V, j % V;
    UniformSize(buffers, V, D);
    Quotient(j, V);
    if q >= |buffers| { TimesGrows(|buffers|, q, V); }
    assert Sized(buffers[..q], D) && Uniform(buffers[..q], V);
    UniformSize(buffers[..q], V, D);
    AllSlotsAt(buffers, D, q, r);
    SlotAt(buffers[q].data, D, V, r);
    TimesIsProduct(r, D);
    assert AllSlots(buffers, D)[j] == vs[j];
  }

  ghost function Contents(chunks: seq<Chunk>): (r: seq<Buffer>)
    reads set i | 0 <= i < |chunks| :: chunks[i].data
    ensures |r| == |chunks|
  {
    seq(|chunks|, i requires 0 <= i < |chunks| reads set i | 0 <= i < |chunks| :: chunks[i].data =>
      Buffer(chunks[i].vectors, chunks[i].data[..]))
  }

  lemma WrittenMore(data: seq<real>, offset: nat, v: seq<real>, i: nat)
    requires offset + |v| <= |data| && i < |v|
    ensures Written(data, offset, v[..i])[offset + i := v[i]] == Written(data, offset, v[..i + 1])
  {
  }

  method StoreVector(chunk: Chunk, floatOffset: nat, v: seq<real>)
    requires floatOffset + |v| <= chunk.data.Length
    modifies chunk.data
    ensures chunk.data[..] == Written(old(chunk.data[..]), floatOffset, v)
  {
    ghost var before := chunk.data[..];
    for i := 0 to |v|
      invariant chunk.data[..] == Written(before, floatOffset, v[..i])
    {
      WrittenMore(before, floatOffset, v, i);
      ghost var now := chunk.data[..];
      chunk.data[floatOffset + i] := v[i];
      assert chunk.data[..] == now[floatOffset + i := v[i]];
    }
    assert v[..|v|] == v;
  }

  // The vectors so far are in place, and the last chunk has room for some more.
  ghost predicate Filling(buffers: seq<Buffer>, V: nat, D: nat, left: nat, vs: seq<seq<real>>) {
    && Sized(buffers, D) && Uniform(buffers, V)
    && left <= V && Times(|buffers|, V) == |vs| + left
    && vs <= AllSlots(buffers, D)
  }

  lemma RoomForMore(buffers: seq<Buffer>, V: nat, D: nat, vs: seq<seq<real>>, buffer: Buffer)
    requires Filling(buffers, V, D, 0, vs) && buffer.vectors == V && |buffer.data| == Times(V, D)
    ensures Filling(buffers + [buffer], V, D, V, vs)
  {
    Appended(buffers, D, buffer);
    UniformSize(buffers, V, D);
  }

  lemma FillSlot(front: seq<Buffer>, V: nat, D: nat, left: nat, vs: seq<seq<real>>, last: Buffer, v: seq<real>)
    requires Filling(front + [last], V, D, left, vs) && 0 < left && |v| == D
    ensures last.vectors == V && Times(V - left, D) + D <= |last.data|
    ensures Filling(front + [last.(data := Written(last.data, Times(V - left, D), v))], V, D, left - 1, vs + [v])
  {
    var before := front + [last];
    assert last == before[|front|];
    assert forall i | 0 <= i < |front| :: front[i] == before[i];
    UniformSize(front, V, D);
    TimesGrows(V - left + 1, V, D);
    LastWritten(front, D, last, V - left, v, last.(data := Written(last.data, Times(V - left, D), v)));
    var all := AllSlots(before, D);
    assert all[|vs| := v][..|vs| + 1] == all[..|vs|] + [v];
  }

  method StoreNext(chunks: seq<Chunk>, V: nat, D: nat, ghost left: nat, floatOffset: nat, v: seq<real>,
                   ghost vs: seq<seq<real>>)
    requires |chunks| > 0 && |v| == D && 0 < left <= V && floatOffset == Times(V - left, D)
    requires forall i, j | 0 <= i < j < |chunks| :: chunks[i].data != chunks[j].data
    requires Filling(Contents(chunks), V, D, left, vs)
    modifies chunks[|chunks| - 1].data
    ensures Filling(Contents(chunks), V, D, left - 1, vs + [v])
  {
    var chunk := chunks[|chunks| - 1];
    ghost var front := Contents(chunks)[..|chunks| - 1];
    ghost var last := Buffer(chunk.vectors, chunk.data[..]);
    assert Contents(chunks) == front + [last];
    FillSlot(front, V, D, left, vs, last, v);
    StoreVector(chunk, floatOffset, v);
    assert Contents(chunks) == front + [last.(data := Written(last.data, floatOffset, v))];
  }

  method AllocateNext(manager: ChunkManager, V: nat, D: nat, ghost vs: seq<seq<real>>) returns (chunk: Chunk)
    requires manager.Valid() && Filling(Contents(manager.chunks), V, D, 0, vs)
    modifies manager
    ensures manager.Valid() && fresh(chunk.data) && manager.chunks == old(manager.chunks) + [chunk]
    ensures Filling(Contents(manager.chunks), V, D, V, vs)
  {
    ghost var buffers := Contents(manager.chunks);
    chunk := manager.Allocate(V, D);
    RoomForMore(buffers, V, D, vs, Buffer(V, chunk.data[..]));
    assert Contents(manager.chunks) == buffers + [Buffer(V, chunk.data[..])];
  }

  // The place of vector j: its chunk, and the float at which it begins.
  function Place(V: nat, D: nat, j: nat): (nat, nat)
    requires 0 < V
  {
    (j / V, j % V * D)
  }

  lemma PlaceIs(V: nat, D: nat, j: nat, q: nat, r: nat)
    requires r < V && j == Times(q, V) + r
    ensures (q, Times(r, D)) == Place(V, D, j)
  {
    DivisionIsUnique(j, q, V, r);
    Quotient(j, V);
    TimesIsProduct(r, D);
  }

  // The counters of the writing loop: bytes left in the chunk, and the float at which the next vector begins.
  ghost predicate Countdown(remainingChunkSize: nat, floatOffset: nat, V: nat, D: nat, left: nat) {
    && remainingChunkSize == Times(left, FLOAT_BYTES * D) && (left < V || left == V == 0)
    && (left > 0 ==> floatOffset == Times(V - left, D))
  }

  lemma NextPlace(buffers: seq<Buffer>, V: nat, D: nat, left: nat, vs: seq<seq<real>>)
    requires Filling(buffers, V, D, left, vs) && 0 < left <= V
    ensures |buffers| > 0 && (|buffers| - 1, Times(V - left, D)) == Place(V, D, |vs|)
  {
    PlaceIs(V, D, |vs|, |buffers| - 1, V - left);
  }

  // Whether a vector still fits is whether one is left to count down.
  lemma BytesLeft(remainingChunkSize: nat, D: nat, left: nat)
    requires 0 < D && remainingChunkSize == Times(left, FLOAT_BYTES * D)
    ensures remainingChunkSize == 0 <==> left == 0
    ensures remainingChunkSize < FLOAT_BYTES * D <==> left == 0
  {
    if left > 0 { TimesGrows(1, left, FLOAT_BYTES * D); assert Times(1, FLOAT_BYTES * D) == Times(0, FLOAT_BYTES * D) + FLOAT_BYTES * D; }
  }

  lemma CountedDown(remainingChunkSize: nat, floatOffset: nat, V: nat, D: nat, left: nat)
    requires remainingChunkSize == Times(left, FLOAT_BYTES * D) && 0 < left <= V && floatOffset == Times(V - left, D)
    ensures remainingChunkSize >= FLOAT_BYTES * D
    ensures Countdown(remainingChunkSize - FLOAT_BYTES * D, floatOffset + D, V, D, left - 1)
  {
    assert Times(V - left + 1, D) == Times(V - left, D) + D;
  }

  // A new chunk is allocated when the countdown of the last one has reached zero.
  method MakeRoom(manager: ChunkManager, targetChunkSize: nat, V: nat, D: nat, remainingBefore: nat, offsetBefore: nat,
                  ghost leftBefore: nat, ghost vs: seq<seq<real>>)
    returns (remainingChunkSize: nat, floatOffset: nat, ghost left: nat)
    requires manager.Valid() && 0 < D && targetChunkSize == Times(V, FLOAT_BYTES * D)
    requires Countdown(remainingBefore, offsetBefore, V, D, leftBefore)
    requires Filling(Contents(manager.chunks), V, D, leftBefore, vs)
    modifies manager
    ensures manager.Valid() && OldOrFresh(manager, old(manager.chunks))
    ensures remainingChunkSize == Times(left, FLOAT_BYTES * D) && (left == 0 <==> V == 0)
    ensures left <= V && floatOffset == Times(V - left, D) && Filling(Contents(manager.chunks), V, D, left, vs)
  {
    remainingChunkSize, floatOffset, left := remainingBefore, offsetBefore, leftBefore;
    BytesLeft(remainingChunkSize, D, left);
    if remainingChunkSize == 0 {
      var chunk := AllocateNext(manager, V, D, vs);
      remainingChunkSize, floatOffset, left := targetChunkSize, 0, V;
    }
  }

  twostate predicate OldOrFresh(manager: ChunkManager, before: seq<Chunk>)
    reads manager
  {
    forall i | 0 <= i < |manager.chunks| :: fresh(manager.chunks[i].data) || (i < |before| && manager.chunks[i] == before[i])
  }

  // The body of the writing loop: it stops at its assertion if a chunk has no room for a vector.
  method PackNext(manager: ChunkManager, targetChunkSize: nat, V: nat, D: nat, remainingBefore: nat, offsetBefore: nat,
                  v: seq<real>, ghost leftBefore: nat, ghost vs: seq<seq<real>>)
    returns (ok: bool, remainingChunkSize: nat, floatOffset: nat, ghost left: nat, ghost place: (nat, nat))
    requires manager.Valid() && |v| == D && 0 < D && targetChunkSize == Times(V, FLOAT_BYTES * D)
    requires Countdown(remainingBefore, offsetBefore, V, D, leftBefore)
    requires Filling(Contents(manager.chunks), V, D, leftBefore, vs)
    modifies manager, set i | 0 <= i < |manager.chunks| :: manager.chunks[i].data
    ensures manager.Valid() && OldOrFresh(manager, old(manager.chunks))
    ensures ok <==> V > 0
    ensures ok ==>
              && Countdown(remainingChunkSize, floatOffset, V, D, left)
              && Filling(Contents(manager.chunks), V, D, left, vs + [v]) && place == Place(V, D, |vs|)
  {
    place := (0, 0);
    remainingChunkSize, floatOffset, left := MakeRoom(manager, targetChunkSize, V, D, remainingBefore, offsetBefore, leftBefore, vs);
    BytesLeft(remainingChunkSize, D, left);
    if remainingChunkSize < FLOAT_BYTES * D { return false, remainingChunkSize, floatOffset, left, place; }
    NextPlace(Contents(manager.chunks), V, D, left, vs);
    place := (|manager.chunks| - 1, floatOffset);
    CountedDown(remainingChunkSize, floatOffset, V, D, left);
    StoreNext(manager.chunks, V, D, left, floatOffset, v, vs);
    remainingChunkSize, floatOffset, left := remainingChunkSize - FLOAT_BYTES * D, floatOffset + D, left - 1;
    ok := true;
  }

  // Refused is the error message for a bad chunk size, Aborted a failed assertion.
  datatype PackResult = Packed | Refused | Aborted

  ghost predicate AllPlaced(V: nat, D: nat, places: seq<(nat, nat)>)
    requires 0 < V
  {
    forall j | 0 <= j < |places| :: places[j] == Place(V, D, j)
  }

  /** A chunk size that is no multiple of the vector size is refused before anything is allocated. A chunk size of zero
      passes this check and fails the assertion before the first write. */
  method Pack(manager: ChunkManager, targetChunkSize: nat, D: nat, vectors: seq<seq<real>>)
    returns (result: PackResult, ghost places: seq<(nat, nat)>)
    requires manager.Valid() && manager.chunks == [] && 0 < D
    requires forall j | 0 <= j < |vectors| :: |vectors[j]| == D
    modifies manager
    ensures manager.Valid()
    ensures result == if targetChunkSize % (4 * D) != 0 then Refused
                      else if targetChunkSize == 0 && vectors != [] then Aborted else Packed
    ensures result.Refused? || vectors == [] ==> manager.chunks == []
    ensures result.Packed? && targetChunkSize > 0 ==>
              && 0 < targetChunkSize / (D * FLOAT_BYTES)
              && IsPacked(Contents(manager.chunks), targetChunkSize / (D * FLOAT_BYTES), D, vectors)
              && |places| == |vectors| && AllPlaced(targetChunkSize / (D * FLOAT_BYTES), D, places)
  {
    places := [];
    if targetChunkSize % (FLOAT_BYTES * D) != 0 { return Refused, places; }
    var numVectorsPerChunk := targetChunkSize / (D * FLOAT_BYTES);
    Quotient(targetChunkSize, FLOAT_BYTES * D);
    var remainingChunkSize: nat, floatOffset: nat := 0, 0;
    ghost var left: nat := 0;
    for j := 0 to |vectors|
      invariant manager.Valid() && forall i | 0 <= i < |manager.chunks| :: fresh(manager.chunks[i].data)
      invariant Countdown(remainingChunkSize, floatOffset, numVectorsPerChunk, D, left)
      invariant Filling(Contents(manager.chunks), numVectorsPerChunk, D, left, vectors[..j])
      invariant j > 0 ==> numVectorsPerChunk > 0
      invariant numVectorsPerChunk > 0 ==> |places| == j && AllPlaced(numVectorsPerChunk, D, places)
      invariant j == 0 ==> manager.chunks == []
    {
      assert vectors[..j] + [vectors[j]] == vectors[..j + 1];
      var ok;
      ghost var place;
      ok, remainingChunkSize, floatOffset, left, place := PackNext(
        manager, targetChunkSize, numVectorsPerChunk, D, remainingChunkSize, floatOffset, vectors[j], left, vectors[..j]);
      if !ok { return Aborted, places; }
      places := places + [place];
    }
    assert vectors[..|vectors|] == vectors;
    if numVectorsPerChunk > 0 { LeastChunks(|vectors|, |manager.chunks|, numVectorsPerChunk, left); }
    return Packed, places;
  }

  ghost predicate Scored(all: seq<seq<real>>, query: seq<real>, products: seq<real>) {
    && |products| <= |all|
    && forall j | 0 <= j < |products| :: |all[j]| == |query| && products[j] == Dot(all[j], query)
  }

  // Where the reader is: the chunk, and how many vectors of it are left.
  ghost predicate ReadingAt(buffers: seq<Buffer>, D: nat, q: nat, remaining: nat, floatOffset: nat, idx: nat) {
    && Sized(buffers, D) && q < |buffers| && remaining <= buffers[q].vectors
    && floatOffset == Times(buffers[q].vectors - remaining, D)
    && idx == |AllSlots(buffers[..q], D)| + (buffers[q].vectors - remaining)
  }

  // The place is that of slot j.
  ghost predicate IsPlace(buffers: seq<Buffer>, D: nat, j: nat, place: (nat, nat)) {
    && Sized(buffers, D) && place.0 < |buffers|
    && exists r :: 0 <= r < buffers[place.0].vectors && place.1 == Times(r, D) && j == |AllSlots(buffers[..place.0], D)| + r
  }

  ghost predicate AllVisited(buffers: seq<Buffer>, D: nat, visited: seq<(nat, nat)>) {
    forall j | 0 <= j < |visited| :: IsPlace(buffers, D, j, visited[j])
  }

  lemma ReadHere(buffers: seq<Buffer>, D: nat, q: nat, remaining: nat, floatOffset: nat, idx: nat)
    requires ReadingAt(buffers, D, q, remaining, floatOffset, idx) && 0 < remaining
    ensures floatOffset + D <= |buffers[q].data| && idx < |AllSlots(buffers, D)|
    ensures AllSlots(buffers, D)[idx] == buffers[q].data[floatOffset..floatOffset + D]
    ensures IsPlace(buffers, D, idx, (q, floatOffset))
    ensures ReadingAt(buffers, D, q, remaining - 1, floatOffset + D, idx + 1)
  {
    var r := buffers[q].vectors - remaining;
    AllSlotsAt(buffers, D, q, r);
    SlotAt(buffers[q].data, D, buffers[q].vectors, r);
  }

  lemma ReadOn(buffers: seq<Buffer>, D: nat, q: nat, floatOffset: nat, idx: nat)
    requires ReadingAt(buffers, D, q, 0, floatOffset, idx)
    ensures q + 1 < |buffers| ==> ReadingAt(buffers, D, q + 1, buffers[q + 1].vectors, 0, idx)
    ensures q + 1 == |buffers| ==> idx == |AllSlots(buffers, D)|
  {
    assert Sized(buffers[..q], D) && buffers[..q + 1][..q] == buffers[..q];
    assert buffers[..|buffers|] == buffers;
  }

  // A chunk without vectors that is not the first, and that the reader gets to before it has read n slots.
  ghost predicate EmptyChunkIn(buffers: seq<Buffer>, D: nat, n: nat)
    requires Sized(buffers, D)
  {
    exists q :: 0 < q < |buffers| && buffers[q].vectors == 0 && |AllSlots(buffers[..q], D)| < n
  }

  ghost predicate NoEmptyUpTo(buffers: seq<Buffer>, q: nat) {
    q < |buffers| && forall i | 0 < i <= q :: buffers[i].vectors > 0
  }

  lemma {:induction false} PrefixIsShorter(buffers: seq<Buffer>, D: nat, a: nat, b: nat)
    requires Sized(buffers, D) && a <= b <= |buffers|
    ensures |AllSlots(buffers[..a], D)| <= |AllSlots(buffers[..b], D)| <= |AllSlots(buffers, D)|
    decreases |buffers|
  {
    assert buffers[..|buffers|] == buffers;
    if a < |buffers| {
      var front := buffers[..|buffers| - 1];
      assert front[..a] == buffers[..a] && (b < |buffers| ==> front[..b] == buffers[..b]);
      PrefixIsShorter(front, D, a, if b < |buffers| then b else |front|);
    }
  }

  // Nothing in the way: the reader passed no empty chunk, and those beyond lie behind the last slot it reads.
  lemma NoEmptyMet(buffers: seq<Buffer>, D: nat, q: nat, remaining: nat, floatOffset: nat, n: nat)
    requires ReadingAt(buffers, D, q, remaining, floatOffset, n) && NoEmptyUpTo(buffers, q)
    ensures !EmptyChunkIn(buffers, D, n) && n <= |AllSlots(buffers, D)|
  {
    assert buffers[..q + 1][..q] == buffers[..q];
    assert |AllSlots(buffers[..q + 1], D)| == |AllSlots(buffers[..q], D)| + buffers[q].vectors;
    PrefixIsShorter(buffers, D, q + 1, |buffers|);
    forall i | 0 < i < |buffers| && buffers[i].vectors == 0 ensures |AllSlots(buffers[..i], D)| >= n {
      if i > q { PrefixIsShorter(buffers, D, q + 1, i); }
    }
  }

  // Thrown is the exception for a chunk that is not there, Overrun a count of vectors below zero.
  datatype ReadResult<T> = Read(value: T) | Thrown | Overrun

  // The body of the reading loop.
  method ReadNext(manager: ChunkManager, D: nat, query: seq<real>, currentBefore: nat, remainingBefore: nat,
                  offsetBefore: nat, ghost idx: nat, ghost buffers: seq<Buffer>)
    returns (product: ReadResult<real>, currentChunk: nat, remaining: nat, floatOffset: nat, ghost place: (nat, nat))
    requires manager.Valid() && |query| == D && buffers == Contents(manager.chunks)
    requires ReadingAt(buffers, D, currentBefore, remainingBefore, offsetBefore, idx) && NoEmptyUpTo(buffers, currentBefore)
    ensures product.Thrown? ==> idx == |AllSlots(buffers, D)| && NoEmptyUpTo(buffers, |buffers| - 1)
    ensures product.Overrun? ==> EmptyChunkIn(buffers, D, idx + 1)
    ensures product.Read? ==>
              && ReadingAt(buffers, D, currentChunk, remaining, floatOffset, idx + 1) && NoEmptyUpTo(buffers, currentChunk)
              && IsPlace(buffers, D, idx, place)
              && idx < |AllSlots(buffers, D)| && |AllSlots(buffers, D)[idx]| == D
              && product.value == Dot(AllSlots(buffers, D)[idx], query)
  {
    currentChunk, remaining, floatOffset, place := currentBefore, remainingBefore, offsetBefore, (0, 0);
    if remaining == 0 {
      ReadOn(buffers, D, currentChunk, floatOffset, idx);
      currentChunk := currentChunk + 1;
      var next := manager.GetRo(currentChunk);
      if next.None? { return Thrown, currentChunk, remaining, floatOffset, place; }
      remaining, floatOffset := next.value.vectors, 0;
      if remaining == 0 { return Overrun, currentChunk, remaining, floatOffset, place; }
    }
    ReadHere(buffers, D, currentChunk, remaining, floatOffset, idx);
    place := (currentChunk, floatOffset);
    var value := ScoreAt(manager.chunks[currentChunk], floatOffset, query);
    return Read(value), currentChunk, remaining - 1, floatOffset + D, place;
  }

  // What the reader has found in the first n slots.
  ghost predicate Reached(buffers: seq<Buffer>, D: nat, query: seq<real>, n: nat, products: seq<real>, visited: seq<(nat, nat)>) {
    && Sized(buffers, D) && |products| == |visited| == n
    && Scored(AllSlots(buffers, D), query, products) && AllVisited(buffers, D, visited)
  }

  lemma ReachedNext(buffers: seq<Buffer>, D: nat, query: seq<real>, n: nat, products: seq<real>, visited: seq<(nat, nat)>,
                    product: real, place: (nat, nat))
    requires Reached(buffers, D, query, n, products, visited) && IsPlace(buffers, D, n, place)
    requires n < |AllSlots(buffers, D)| && |AllSlots(buffers, D)[n]| == |query| && product == Dot(AllSlots(buffers, D)[n], query)
    ensures Reached(buffers, D, query, n + 1, products + [product], visited + [place])
  {
    var more := visited + [place];
    assert forall j | 0 <= j < n :: more[j] == visited[j];
  }

  // How the reader ends on n vectors. It throws exactly if there is no chunk at all or there are fewer slots than asked for,
  // and its count underflows exactly if it gets to an empty chunk other than the first.
  ghost predicate ReadsTo(buffers: seq<Buffer>, D: nat, query: seq<real>, n: nat, result: ReadResult<seq<real>>,
                          visited: seq<(nat, nat)>)
    requires Sized(buffers, D)
  {
    && (result.Overrun? <==> EmptyChunkIn(buffers, D, n))
    && (result.Thrown? <==> !EmptyChunkIn(buffers, D, n) && (buffers == [] || n > |AllSlots(buffers, D)|))
    && (result.Read? ==> Reached(buffers, D, query, n, result.value, visited))
  }

  lemma ReadToEnd(buffers: seq<Buffer>, D: nat, query: seq<real>, q: nat, remaining: nat, floatOffset: nat, n: nat,
                  products: seq<real>, visited: seq<(nat, nat)>)
    requires ReadingAt(buffers, D, q, remaining, floatOffset, n) && NoEmptyUpTo(buffers, q)
    requires Reached(buffers, D, query, n, products, visited)
    ensures ReadsTo(buffers, D, query, n, Read(products), visited)
  {
    NoEmptyMet(buffers, D, q, remaining, floatOffset, n);
  }

  lemma ThrownAt(buffers: seq<Buffer>, D: nat, query: seq<real>, idx: nat, n: nat, visited: seq<(nat, nat)>)
    requires Sized(buffers, D) && buffers != [] && idx < n && idx == |AllSlots(buffers, D)| && NoEmptyUpTo(buffers, |buffers| - 1)
    ensures ReadsTo(buffers, D, query, n, Thrown, visited)
  {
  }

  lemma OverrunAt(buffers: seq<Buffer>, D: nat, query: seq<real>, m: nat, n: nat, visited: seq<(nat, nat)>)
    requires Sized(buffers, D) && m <= n && EmptyChunkIn(buffers, D, m)
    ensures ReadsTo(buffers, D, query, n, Overrun, visited)
  {
    var q :| 0 < q < |buffers| && buffers[q].vectors == 0 && |AllSlots(buffers[..q], D)| < m;
    assert |AllSlots(buffers[..q], D)| < n;
  }

  /** The benchmark's reader, which counts vectors per chunk instead of bytes: it visits the first n slots in order. */
  method ReadAll(manager: ChunkManager, D: nat, query: seq<real>, n: nat)
    returns (result: ReadResult<seq<real>>, ghost visited: seq<(nat, nat)>)
    requires manager.Valid() && |query| == D && Sized(Contents(manager.chunks), D)
    ensures ReadsTo(Contents(manager.chunks), D, query, n, result, visited)
  {
    ghost var buffers := Contents(manager.chunks);
    visited := [];
    var currentChunk: nat := 0;
    var first := manager.GetRo(currentChunk);
    if first.None? { return Thrown, visited; }
    var remaining: nat, floatOffset: nat := first.value.vectors, 0;
    var products: seq<real> := [];
    for idx := 0 to n
      invariant ReadingAt(buffers, D, currentChunk, remaining, floatOffset, idx) && NoEmptyUpTo(buffers, currentChunk)
      invariant Reached(buffers, D, query, idx, products, visited)
    {
      var product;
      ghost var place;
      product, currentChunk, remaining, floatOffset, place :=
        ReadNext(manager, D, query, currentChunk, remaining, floatOffset, idx, buffers);
      if product.Thrown? {
        ThrownAt(buffers, D, query, idx, n, visited);
        assert Contents(manager.chunks) == buffers;
        return Thrown, visited;
      }
      if product.Overrun? {
        OverrunAt(buffers, D, query, idx + 1, n, visited);
        assert Contents(manager.chunks) == buffers;
        return Overrun, visited;
      }
      ReachedNext(buffers, D, query, idx, products, visited, product.value, place);
      products, visited := products + [product.value], visited + [place];
    }
    ReadToEnd(buffers, D, query, currentChunk, remaining, floatOffset, n, products, visited);
    assert Contents(manager.chunks) == buffers;
    return Read(products), visited;
  }

  method ScoreAt(chunk: Chunk, floatOffset: nat, query: seq<real>) returns (product: real)
    requires floatOffset + |query| <= chunk.data.Length
    ensures product == Dot(chunk.data[..][floatOffset..floatOffset + |query|], query)
  {
    var refVector := chunk.data[floatOffset..floatOffset + |query|];
    assert refVector == chunk.data[..][floatOffset..floatOffset + |query|];
    return Dot(refVector, query);
  }

  lemma PlaceWhenUniform(buffers: seq<Buffer>, V: nat, D: nat, j: nat, place: (nat, nat))
    requires 0 < V && Uniform(buffers, V) && IsPlace(buffers, D, j, place)
    ensures place == Place(V, D, j)
  {
    var r :| 0 <= r < buffers[place.0].vectors && place.1 == Times(r, D) && j == |AllSlots(buffers[..place.0], D)| + r;
    assert Sized(buffers[..place.0], D) && Uniform(buffers[..place.0], V);
    UniformSize(buffers[..place.0], V, D);
    PlaceIs(V, D, j, place.0, r);
  }

  /** Reading what was packed succeeds, returns the score of every vector in order, and visits for each the place at which
      it was written: the reader's count of vectors and the writer's count of bytes agree. */
  lemma ReadingWhatWasPacked(buffers: seq<Buffer>, V: nat, D: nat, vs: seq<seq<real>>, query: seq<real>)
    requires IsPacked(buffers, V, D, vs) && |query| == D
    ensures !EmptyChunkIn(buffers, D, |vs|) && |vs| <= |AllSlots(buffers, D)| && (buffers == [] <==> vs == [])
    ensures forall products | |products| == |vs| && Scored(AllSlots(buffers, D), query, products) :: Scored(vs, query, products)
    ensures forall visited | AllVisited(buffers, D, visited) :: AllPlaced(V, D, visited)
  {
    if vs == [] { DivisionIsUnique(V - 1, 0, V, V - 1); } else { PackedAt(buffers, V, D, vs, 0); }
    forall visited | AllVisited(buffers, D, visited) ensures AllPlaced(V, D, visited) {
      forall j | 0 <= j < |visited| ensures visited[j] == Place(V, D, j) { PlaceWhenUniform(buffers, V, D, j, visited[j]); }
    }
  }

  // Both loops, one after the other: every vector is read from the place at which it was written.
  method PackThenRead(targetChunkSize: nat, D: nat, vectors: seq<seq<real>>, query: seq<real>)
    returns (result: ReadResult<seq<real>>, ghost written: seq<(nat, nat)>, ghost visited: seq<(nat, nat)>)
    requires 0 < D && 0 < targetChunkSize && targetChunkSize % (4 * D) == 0
    requires |query| == D && forall j | 0 <= j < |vectors| :: |vectors[j]| == D
    ensures vectors == [] ==> result.Thrown?
    ensures vectors != [] ==>
              && result.Read? && |result.value| == |vectors| && Scored(vectors, query, result.value)
              && written == visited && |visited| == |vectors|
    ensures result.Read? ==> forall j | 0 <= j < |vectors| && j < |result.value| && j < |visited| ::
              result.value[j] == Dot(vectors[j], query)
              && visited[j] == (j / (targetChunkSize / (D * 4)), j % (targetChunkSize / (D * 4)) * D)
  {
    var manager := new ChunkManager();
    var packed;
    packed, written := Pack(manager, targetChunkSize, D, vectors);
    ghost var V, buffers := targetChunkSize / (D * FLOAT_BYTES), Contents(manager.chunks);
    ReadingWhatWasPacked(buffers, V, D, vectors, query);
    result, visited := ReadAll(manager, D, query, |vectors|);
    if vectors != [] { assert written == visited; }
  }
}
