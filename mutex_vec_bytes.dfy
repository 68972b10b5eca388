/**
 * The chunked progressive-download buffer (src/reader/mutex_vec_bytes.rs).
 * The writer re-chunks arbitrary appended slices into chunks of exactly
 * `chunkSize` bytes, keeping one partial `currentChunk` that `Complete`
 * flushes; the reader finds a byte by chunk index and offset.
 */
module MutexVecBytes {
  import opened Common
  import opened Reader
  import opened MutexVecU8

  /**
   * The layout the stored chunks always have: every chunk is non-empty and at
   * most `size` bytes; every chunk but the last is exactly `size` bytes; and
   * before completion the last one is full as well.
   */
  predicate StoreShape(chunks: seq<seq<u8>>, size: nat, completed: bool)
  {
    && size > 0
    && (forall i :: 0 <= i < |chunks| ==> 0 < |chunks[i]| <= size)
    && (forall i :: 0 <= i < |chunks| - 1 ==> |chunks[i]| == size)
    && (!completed ==> AllFull(chunks, size))
  }

  /** Number of bytes stored in the chunks. */
  function Stored(chunks: seq<seq<u8>>): nat
  {
    |Concat(chunks)|
  }

  /**
   * Where chunk `k` starts in the data when every chunk before it holds
   * `size` bytes; it is `k * size` (`ChunkStartIsProduct`).
   */
  function ChunkStart(k: nat, size: nat): nat
  {
    if k == 0 then 0 else ChunkStart(k - 1, size) + size
  }

  lemma {:induction false} ChunkStartIsProduct(k: nat, size: nat)
    ensures ChunkStart(k, size) == k * size
  {
    if k > 0 {
      ChunkStartIsProduct(k - 1, size);
    }
  }

  lemma {:induction false} ChunkStartMonotone(a: nat, b: nat, size: nat)
    requires a <= b
    ensures ChunkStart(a, size) <= ChunkStart(b, size)
    decreases b
  {
    if a < b {
      ChunkStartMonotone(a, b - 1, size);
    }
  }

  /** `k` full chunks hold `ChunkStart(k, size)` bytes. */
  lemma {:induction false} FullLength(chunks: seq<seq<u8>>, size: nat)
    requires AllFull(chunks, size)
    ensures Stored(chunks) == ChunkStart(|chunks|, size)
  {
    if chunks != [] {
      FullLength(chunks[..|chunks| - 1], size);
    }
  }

  /**
   * The first `k` chunks, when they all precede the last one, hold exactly
   * `k * size` bytes; all chunks together hold at most `|chunks| * size`,
   * exactly that many before completion, and more than `(|chunks| - 1) * size`.
   */
  lemma ShapeLengths(chunks: seq<seq<u8>>, size: nat, completed: bool, k: nat)
    requires StoreShape(chunks, size, completed) && k < |chunks|
    ensures Stored(chunks[..k]) == ChunkStart(k, size)
    ensures ChunkStart(|chunks| - 1, size) < Stored(chunks) <= ChunkStart(|chunks|, size)
    ensures !completed ==> Stored(chunks) == ChunkStart(|chunks|, size)
  {
    var n := |chunks|;
    assert AllFull(chunks[..k], size);
    FullLength(chunks[..k], size);
    assert AllFull(chunks[..n - 1], size);
    FullLength(chunks[..n - 1], size);
    ConcatTakeNext(chunks, n - 1);
    assert chunks[..n] == chunks;
    if !completed {
      FullLength(chunks, size);
    }
  }

  /** Pushing full chunks keeps the layout of an uncompleted store. */
  lemma PushFullKeepsShape(chunks: seq<seq<u8>>, more: seq<seq<u8>>, size: nat)
    requires StoreShape(chunks, size, false) && AllFull(more, size)
    ensures StoreShape(chunks + more, size, false)
  {
    assert forall i :: 0 <= i < |more| ==> (chunks + more)[|chunks| + i] == more[i];
  }

  /** The chunks after `complete` has pushed the partial chunk, if any. */
  function Flushed(chunks: seq<seq<u8>>, current: seq<u8>): seq<seq<u8>>
  {
    if current != [] then chunks + [current] else chunks
  }

  /**
   * Flushing the partial chunk of a valid wrapper leaves a completed layout
   * holding every appended byte.
   */
  lemma FlushKeepsShape(chunks: seq<seq<u8>>, current: seq<u8>, size: nat, completed: bool)
    requires StoreShape(chunks, size, completed) && |current| < size
    requires completed ==> current == []
    ensures StoreShape(Flushed(chunks, current), size, true)
    ensures Concat(Flushed(chunks, current)) == Concat(chunks) + current
  {
    if current != [] {
      assert (chunks + [current])[|chunks|] == current;
      ConcatPush(chunks, current);
    }
  }

  /**
   * The reference re-chunking of `append_data`: `bytes` cut from the front
   * into whole chunks of `size` bytes, and the short rest.
   */
  function Rechunk(bytes: seq<u8>, size: nat): (seq<seq<u8>>, seq<u8>)
    requires size > 0
    decreases |bytes|
  {
    if |bytes| < size then ([], bytes)
    else
      var r := Rechunk(bytes[size..], size);
      ([bytes[..size]] + r.0, r.1)
  }

  /** The re-chunking loses and reorders nothing: whole chunks, a short rest, the same bytes. */
  lemma {:induction false} RechunkSound(bytes: seq<u8>, size: nat)
    requires size > 0
    ensures AllFull(Rechunk(bytes, size).0, size)
    ensures |Rechunk(bytes, size).1| < size
    ensures Concat(Rechunk(bytes, size).0) + Rechunk(bytes, size).1 == bytes
    decreases |bytes|
  {
    if |bytes| >= size {
      var head := bytes[..size];
      var r := Rechunk(bytes[size..], size);
      RechunkSound(bytes[size..], size);
      ConsChunk(head, r.0, size);
      assert bytes == head + bytes[size..];
    }
  }

  /** Putting one full chunk in front of full chunks. */
  lemma ConsChunk(head: seq<u8>, rest: seq<seq<u8>>, size: nat)
    requires |head| == size && AllFull(rest, size)
    ensures AllFull([head] + rest, size)
    ensures Concat([head] + rest) == head + Concat(rest)
  {
    ConcatAppend([head], rest);
    ConcatPush([], head);
    assert [] + [head] == [head];
    assert forall i :: 1 <= i < |[head] + rest| ==> ([head] + rest)[i] == rest[i - 1];
  }

  /**
   * The re-chunking is the only way to write `bytes` as whole chunks followed
   * by a short rest.
   */
  lemma {:induction false} RechunkUnique(bytes: seq<u8>, size: nat, full: seq<seq<u8>>, rest: seq<u8>)
    requires size > 0 && AllFull(full, size) && |rest| < size && Concat(full) + rest == bytes
    ensures Rechunk(bytes, size) == (full, rest)
    decreases |full|
  {
    if full == [] {
      assert rest == bytes;
    } else {
      var tail := full[1..];
      assert full == [full[0]] + tail;
      ConcatAppend([full[0]], tail);
      ConcatPush([], full[0]);
      assert [] + [full[0]] == [full[0]];
      assert bytes == full[0] + (Concat(tail) + rest);
      ConcatFullLengthAtLeast(full, size);
      assert bytes[..size] == full[0] && bytes[size..] == Concat(tail) + rest;
      RechunkUnique(bytes[size..], size, tail, rest);
    }
  }

  /** Full chunks, at least one, hold at least one chunk's worth of bytes. */
  lemma ConcatFullLengthAtLeast(full: seq<seq<u8>>, size: nat)
    requires AllFull(full, size) && full != []
    ensures |Concat(full)| >= size
  {
    FullLength(full, size);
  }

  /**
   * What appending to an uncompleted store does to the layout: the pushed
   * chunks keep it, and the stored bytes plus the partial chunk grow by the slice.
   */
  lemma AppendKeepsShape(chunks: seq<seq<u8>>, current: seq<u8>, slice: seq<u8>, size: nat)
    requires StoreShape(chunks, size, false)
    ensures StoreShape(chunks + Rechunk(current + slice, size).0, size, false)
    ensures |Rechunk(current + slice, size).1| < size
    ensures Concat(chunks + Rechunk(current + slice, size).0) + Rechunk(current + slice, size).1
      == Concat(chunks) + current + slice
  {
    var r := Rechunk(current + slice, size);
    RechunkSound(current + slice, size);
    PushFullKeepsShape(chunks, r.0, size);
    AppendConcat(chunks, r.0, r.1, current + slice);
  }

  lemma AppendConcat(chunks: seq<seq<u8>>, more: seq<seq<u8>>, rest: seq<u8>, bytes: seq<u8>)
    requires Concat(more) + rest == bytes
    ensures Concat(chunks + more) + rest == Concat(chunks) + bytes
  {
    ConcatAppend(chunks, more);
  }

  /** The state the wrapper shares with its readers: `Arc<Mutex<Vec<Bytes>>>` and `Arc<AtomicBool>`. */
  class ChunkStore {
    var chunks: seq<seq<u8>>
    var completed: bool

    constructor ()
      ensures chunks == [] && !completed
    {
      chunks := [];
      completed := false;
    }
  }

  /** Outcome of `set_capacity`: the reservation made, or the subtraction underflow panic. */
  datatype CapacityResult = Reserved(additional: nat) | CapacityPanic

  /** `MVecBytesWrapper`: the writing side. */
  class MVecBytesWrapper {
    const store: ChunkStore
    const chunkSize: nat
    var currentChunk: seq<u8>
    /** Every byte `AppendData` has accepted, in order. */
    ghost var appended: seq<u8>

    /**
     * Stored chunks plus the partial chunk are exactly what was appended; the
     * partial chunk is never full; after completion it is empty.
     */
    ghost predicate Valid()
      reads this, store
    {
      && StoreShape(store.chunks, chunkSize, store.completed)
      && |currentChunk| < chunkSize
      && (store.completed ==> currentChunk == [])
      && Concat(store.chunks) + currentChunk == appended
    }

    /**
     * `new`. The source accepts any size; with 0 the first non-empty append
     * never ends (its splitting loop makes no progress), so the model asks for
     * a positive one.
     */
    constructor (chunkSize: nat)
      requires chunkSize > 0
      ensures Valid() && fresh(store)
      ensures this.chunkSize == chunkSize && appended == [] && currentChunk == []
      ensures store.chunks == [] && !store.completed
    {
      this.chunkSize := chunkSize;
      store := new ChunkStore();
      currentChunk := [];
      appended := [];
    }

    /**
     * `append_data`: ignored once completed; otherwise the partial chunk and
     * the slice together are cut into whole chunks, which are pushed in
     * order, and a short rest, which becomes the partial chunk.
     */
    method AppendData(slice: seq<u8>)
      requires Valid()
      modifies this, store
      ensures Valid()
      ensures store.completed == old(store.completed)
      ensures old(store.completed) ==>
        store.chunks == old(store.chunks) && currentChunk == old(currentChunk) && appended == old(appended)
      ensures !old(store.completed) ==>
        && appended == old(appended) + slice
        && store.chunks == old(store.chunks) + Rechunk(old(currentChunk) + slice, chunkSize).0
        && currentChunk == Rechunk(old(currentChunk) + slice, chunkSize).1
    {
      if !store.completed {
        AppendKeepsShape(store.chunks, currentChunk, slice, chunkSize);
        if |currentChunk| + |slice| <= chunkSize {
          AppendWithinChunk(slice);
        } else {
          AppendAcrossChunks(slice);
        }
        appended := appended + slice;
      }
    }

    /** Case 1 of `append_data`: the slice fits in the partial chunk, which is pushed if it fills up. */
    method AppendWithinChunk(slice: seq<u8>)
      requires chunkSize > 0 && |currentChunk| + |slice| <= chunkSize
      modifies this, store
      ensures store.chunks == old(store.chunks) + Rechunk(old(currentChunk) + slice, chunkSize).0
      ensures currentChunk == Rechunk(old(currentChunk) + slice, chunkSize).1
      ensures store.completed == old(store.completed) && appended == old(appended)
    {
      currentChunk := currentChunk + slice;
      if |currentChunk| == chunkSize {
        assert currentChunk[..chunkSize] == currentChunk && currentChunk[chunkSize..] == [];
        store.chunks := store.chunks + [currentChunk];
        currentChunk := [];
      }
    }

    /**
     * Case 2 of `append_data`: the partial chunk is topped up from the slice
     * and pushed, the rest of the slice is cut into whole chunks, and what is
     * left becomes the new partial chunk.
     */
    method AppendAcrossChunks(slice: seq<u8>)
      requires chunkSize > 0 && |currentChunk| < chunkSize < |currentChunk| + |slice|
      modifies this, store
      ensures store.chunks == old(store.chunks) + Rechunk(old(currentChunk) + slice, chunkSize).0
      ensures currentChunk == Rechunk(old(currentChunk) + slice, chunkSize).1
      ensures store.completed == old(store.completed) && appended == old(appended)
    {
      ghost var bytes := currentChunk + slice;
      var pending: seq<seq<u8>> := [];
      var offset := 0;
      if |currentChunk| != 0 {
        var firstLen := chunkSize - |currentChunk|;
        currentChunk := currentChunk + slice[..firstLen];
        assert currentChunk == bytes[..chunkSize] && slice[firstLen..] == bytes[chunkSize..];
        pending := pending + [currentChunk];
        offset := offset + firstLen;
        currentChunk := [];
      } else {
        assert slice[0..] == bytes;
      }
      var full;
      full, offset := SplitFull(slice, offset, chunkSize);
      pending := pending + full;
      if offset < |slice| {
        currentChunk := currentChunk + slice[offset..];
      } else {
        currentChunk := [];
      }
      store.chunks := store.chunks + pending;
    }

    /** `complete`: flushes a non-empty partial chunk as the final chunk, then sets `completed`. */
    method Complete()
      requires Valid()
      modifies this, store
      ensures Valid()
      ensures store.completed && currentChunk == [] && appended == old(appended)
      ensures store.chunks == Flushed(old(store.chunks), old(currentChunk))
      ensures Concat(store.chunks) == appended
    {
      if |currentChunk| > 0 {
        FlushKeepsShape(store.chunks, currentChunk, chunkSize, store.completed);
        store.chunks := store.chunks + [currentChunk];
        currentChunk := [];
      }
      store.completed := true;
    }

    /**
     * `set_capacity`: reserves room for `(capacity - chunks) / chunkSize + 1`
     * more chunks; when `capacity` is below the number of stored chunks the
     * `usize` subtraction underflows. Reserving changes no stored byte.
     */
    method SetCapacity(capacity: nat) returns (r: CapacityResult)
      requires Valid()
      ensures r == CapacityPanic <==> capacity < |store.chunks|
      ensures r.Reserved? ==> r.additional * chunkSize <= capacity - |store.chunks| + chunkSize
      ensures r.Reserved? ==> r.additional * chunkSize > capacity - |store.chunks|
    {
      var len := |store.chunks|;
      if capacity < len {
        return CapacityPanic;
      }
      r := Reserved((capacity - len) / chunkSize + 1);
    }
  }

  /**
   * The splitting loop of `append_data`: from `from` on, cuts `slice` into
   * whole chunks of `size` bytes while one still fits, and returns them with
   * the offset of the leftover tail.
   */
  method SplitFull(slice: seq<u8>, from: nat, size: nat) returns (full: seq<seq<u8>>, offset: nat)
    requires size > 0 && from <= |slice|
    ensures from <= offset <= |slice|
    ensures (full, slice[offset..]) == Rechunk(slice[from..], size)
  {
    full := [];
    offset := from;
    assert [] + Rechunk(slice[from..], size).0 == Rechunk(slice[from..], size).0;
    while offset + size <= |slice|
      invariant from <= offset <= |slice|
      invariant Rechunk(slice[from..], size)
        == (full + Rechunk(slice[offset..], size).0, Rechunk(slice[offset..], size).1)
    {
      assert slice[offset..][..size] == slice[offset..offset + size];
      assert slice[offset..][size..] == slice[offset + size..];
      ghost var rest := Rechunk(slice[offset + size..], size);
      assert Rechunk(slice[offset..], size) == ([slice[offset..offset + size]] + rest.0, rest.1);
      assert full + ([slice[offset..offset + size]] + rest.0) == full + [slice[offset..offset + size]] + rest.0;
      full := full + [slice[offset..offset + size]];
      offset := offset + size;
    }
    assert full + [] == full;
  }

  /** `MVecBytesReader`: the reading side, positioned by `pos` (a `u64`). */
  class MVecBytesReader {
    const store: ChunkStore
    const chunkSize: nat
    const condvar: Condvar
    var pos: nat
    const token: CancellationToken

    constructor (wrapper: MVecBytesWrapper, condvar: Condvar)
      ensures store == wrapper.store && chunkSize == wrapper.chunkSize && this.condvar == condvar
      ensures pos == 0 && fresh(token) && !token.cancelled
    {
      store := wrapper.store;
      chunkSize := wrapper.chunkSize;
      this.condvar := condvar;
      pos := 0;
      token := new CancellationToken();
    }

    ghost predicate Valid()
      reads this, store
    {
      StoreShape(store.chunks, chunkSize, store.completed)
    }

    /**
     * `read` as written. It waits while `pos >= chunks * chunkSize`, which
     * assumes every chunk is full. It answers what the flat reader answers
     * on the concatenated chunks, except when `pos` lies beyond the stored
     * bytes inside a short final chunk: the offset subtraction then
     * underflows.
     */
    method Read(buf: array<u8>) returns (r: ReadResult)
      requires Valid()
      modifies this, buf
      ensures r == (if Stored(store.chunks) < old(pos) < |store.chunks| * chunkSize then Panic
                    else ReadOutcome(Concat(store.chunks), old(pos), buf.Length, store.completed, token.cancelled))
      ensures old(pos) < Stored(store.chunks) ==>
        && pos == old(pos) + r.n
        && buf[..] == Overwrite(old(buf[..]), 0, Concat(store.chunks)[old(pos)..old(pos) + r.n])
      ensures old(pos) >= Stored(store.chunks) ==> pos == old(pos) && buf[..] == old(buf[..])
    {
      if pos >= |store.chunks| * chunkSize {
        BoundCoversStored(store.chunks, chunkSize, store.completed);
        if store.completed || token.cancelled {
          r := ReadOk(0);
        } else {
          r := WouldBlock;
        }
      } else {
        r := CopyFromChunks(buf);
        PartialOnlyWhenCompleted(store.chunks, chunkSize, store.completed);
      }
    }

    /**
     * The corrected `read`: it waits while `pos` is at or past the bytes
     * actually stored, so the chunk arithmetic never underflows, and it
     * answers exactly what the flat reader answers on the concatenated chunks.
     */
    method ReadWithinStored(buf: array<u8>) returns (r: ReadResult)
      requires Valid()
      modifies this, buf
      ensures r == ReadOutcome(Concat(store.chunks), old(pos), buf.Length, store.completed, token.cancelled)
      ensures old(pos) < Stored(store.chunks) ==>
        && pos == old(pos) + r.n
        && buf[..] == Overwrite(old(buf[..]), 0, Concat(store.chunks)[old(pos)..old(pos) + r.n])
      ensures old(pos) >= Stored(store.chunks) ==> pos == old(pos) && buf[..] == old(buf[..])
    {
      var n := |store.chunks|;
      var stored := if n == 0 then 0 else (n - 1) * chunkSize + |store.chunks[n - 1]|;
      StoredByLastChunk(store.chunks, chunkSize, store.completed);
      if pos >= stored {
        if store.completed || token.cancelled {
          r := ReadOk(0);
        } else {
          r := WouldBlock;
        }
      } else {
        BoundCoversStored(store.chunks, chunkSize, store.completed);
        r := CopyFromChunks(buf);
      }
    }

    /** `seek`: the same position arithmetic as the flat reader. */
    method Seek(from: SeekFrom) returns (r: SeekResult)
      requires pos < U64_MODULUS && from.InRange()
      modifies this
      ensures r == SeekPosition(old(pos), from)
      ensures pos == (if r.SeekOk? then r.pos else old(pos))
    {
      r := SeekPosition(pos, from);
      if r.SeekOk? {
        pos := r.pos;
      }
    }

    /**
     * The part of `read` after the wait: locate the start and end chunks by
     * division, take them out under the lock, copy them, and advance `pos`
     * by the bytes copied.
     */
    method CopyFromChunks(buf: array<u8>) returns (r: ReadResult)
      requires Valid() && pos < |store.chunks| * chunkSize
      modifies this, buf
      ensures r == (if Stored(store.chunks) < old(pos) then Panic
                    else ReadOk(Min(buf.Length, Stored(store.chunks) - old(pos))))
      ensures r.ReadOk? ==>
        && pos == old(pos) + r.n
        && buf[..] == Overwrite(old(buf[..]), 0, Concat(store.chunks)[old(pos)..old(pos) + r.n])
      ensures r.Panic? ==> pos == old(pos) && buf[..] == old(buf[..])
    {
      var chunks := store.chunks;
      var w := ReadWindow(pos, buf.Length, |chunks|, chunkSize);
      var startChunk := chunks[w.startIdx];
      var middle := MiddleOf(chunks, w);
      var endChunk := EndOf(chunks, w);
      WindowIsData(chunks, chunkSize, store.completed, pos, buf.Length, w);
      ghost var copied := Copied(w, startChunk, middle, endChunk);
      r := CopyWindow(buf, w, startChunk, middle, endChunk);
      if r.ReadOk? {
        assert copied.value == Concat(chunks)[pos..pos + r.n];
        pos := pos + r.n;
      }
    }
  }

  /** The chunks strictly between the start and end chunks, when there are any. */
  function MiddleOf(chunks: seq<seq<u8>>, w: Window): (m: Option<seq<seq<u8>>>)
    requires w.startIdx <= w.endIdx <= |chunks|
    ensures m.Some? <==> w.endIdx - w.startIdx > 1
    ensures w.startIdx < w.endIdx ==> MiddleBytes(m) == Concat(chunks[w.startIdx + 1..w.endIdx])
  {
    if w.endIdx - w.startIdx > 1 then Some(chunks[w.startIdx + 1..w.endIdx]) else None
  }

  /** The end chunk, when the read ends inside a chunk after the start chunk. */
  function EndOf(chunks: seq<seq<u8>>, w: Window): (c: Option<seq<u8>>)
    requires w.startIdx <= w.endIdx <= |chunks| && (w.endIdx == |chunks| ==> w.endOff == 0)
    ensures c.Some? <==> w.endIdx > w.startIdx && w.endOff > 0
    ensures c.Some? ==> c.value == chunks[w.endIdx]
  {
    if w.endIdx > w.startIdx && w.endOff > 0 then Some(chunks[w.endIdx]) else None
  }

  /**
   * The bytes the copy half of `read` delivers from the chunks taken out
   * under the lock, or `None` where a length subtraction underflows.
   */
  function Copied(w: Window, startChunk: seq<u8>, middle: Option<seq<seq<u8>>>,
                  endChunk: Option<seq<u8>>): Option<seq<u8>>
  {
    if w.startIdx == w.endIdx then
      if Min(w.endOff, |startChunk|) < w.startOff then None
      else Some(startChunk[w.startOff..Min(w.endOff, |startChunk|)])
    else if |startChunk| < w.startOff then None
    else Some(startChunk[w.startOff..] + MiddleBytes(middle) + EndBytes(endChunk, w.endOff))
  }

  /**
   * For chunks in the store layout, what the copy delivers is the data from
   * `p` on, `min(L, stored - p)` bytes of it, and it underflows exactly when
   * `p` lies past the stored bytes.
   */
  lemma WindowIsData(chunks: seq<seq<u8>>, cs: nat, completed: bool, p: nat, L: nat, w: Window)
    requires StoreShape(chunks, cs, completed) && Locates(w, p, L, |chunks|, cs)
    ensures Copied(w, chunks[w.startIdx], MiddleOf(chunks, w), EndOf(chunks, w)).None? <==> Stored(chunks) < p
    ensures p <= Stored(chunks) ==>
      Copied(w, chunks[w.startIdx], MiddleOf(chunks, w), EndOf(chunks, w))
        == Some(Concat(chunks)[p..p + Min(L, Stored(chunks) - p)])
    ensures p <= Stored(chunks) ==>
      |Copied(w, chunks[w.startIdx], MiddleOf(chunks, w), EndOf(chunks, w)).value| == Min(L, Stored(chunks) - p)
  {
    ShortTailGap(chunks, cs, completed, w.startIdx, w.startOff);
    if Stored(chunks) < p {
    } else if w.startIdx == w.endIdx {
      SingleWindow(chunks, cs, completed, p, L, w);
    } else {
      SpanWindow(chunks, cs, completed, p, L, w);
    }
  }

  lemma SingleWindow(chunks: seq<seq<u8>>, cs: nat, completed: bool, p: nat, L: nat, w: Window)
    requires StoreShape(chunks, cs, completed) && Locates(w, p, L, |chunks|, cs)
    requires w.startIdx == w.endIdx && p <= Stored(chunks)
    ensures Copied(w, chunks[w.startIdx], MiddleOf(chunks, w), EndOf(chunks, w))
      == Some(Concat(chunks)[p..p + Min(L, Stored(chunks) - p)])
  {
    var k, o, e := w.startIdx, w.startOff, w.endOff;
    ShortTailGap(chunks, cs, completed, k, o);
    SingleChunkCount(chunks, cs, completed, p, L, k, o, e);
  }

  lemma SpanWindow(chunks: seq<seq<u8>>, cs: nat, completed: bool, p: nat, L: nat, w: Window)
    requires StoreShape(chunks, cs, completed) && Locates(w, p, L, |chunks|, cs)
    requires w.startIdx < w.endIdx && w.startOff <= |chunks[w.startIdx]|
    ensures p <= Stored(chunks)
    ensures Copied(w, chunks[w.startIdx], MiddleOf(chunks, w), EndOf(chunks, w))
      == Some(Concat(chunks)[p..p + Min(L, Stored(chunks) - p)])
  {
    SpanParts(chunks, cs, completed, p, L, w);
    SpanJoin(chunks, w, p, Concat(chunks)[p..p + Min(L, Stored(chunks) - p)]);
  }

  /** The two halves of a spanning read: up to the end chunk, and the end chunk's head. */
  lemma SpanParts(chunks: seq<seq<u8>>, cs: nat, completed: bool, p: nat, L: nat, w: Window)
    requires StoreShape(chunks, cs, completed) && Locates(w, p, L, |chunks|, cs)
    requires w.startIdx < w.endIdx && w.startOff <= |chunks[w.startIdx]|
    ensures p <= |Concat(chunks[..w.endIdx])| && p <= Stored(chunks)
    ensures Concat(chunks[..w.endIdx])[p..] == chunks[w.startIdx][w.startOff..] + Concat(chunks[w.startIdx + 1..w.endIdx])
    ensures Concat(chunks[..w.endIdx])[p..] + EndBytes(EndOf(chunks, w), w.endOff)
      == Concat(chunks)[p..p + Min(L, Stored(chunks) - p)]
  {
    SpanHead(chunks, cs, completed, p, w.startIdx, w.startOff, w.endIdx);
    SpanTail(chunks, cs, completed, p, L, w);
  }

  /** A spanning copy joins the tail of the start chunk, the middle chunks and the end chunk's head. */
  lemma SpanJoin(chunks: seq<seq<u8>>, w: Window, p: nat, want: seq<u8>)
    requires w.startIdx < w.endIdx <= |chunks| && w.startOff <= |chunks[w.startIdx]|
    requires w.endIdx == |chunks| ==> w.endOff == 0
    requires p <= |Concat(chunks[..w.endIdx])|
    requires Concat(chunks[..w.endIdx])[p..] == chunks[w.startIdx][w.startOff..] + Concat(chunks[w.startIdx + 1..w.endIdx])
    requires Concat(chunks[..w.endIdx])[p..] + EndBytes(EndOf(chunks, w), w.endOff) == want
    ensures Copied(w, chunks[w.startIdx], MiddleOf(chunks, w), EndOf(chunks, w)) == Some(want)
  {
  }

  /**
   * The data from `p` up to the end chunk, followed by the head of the end
   * chunk that the read takes, is the next `min(L, stored - p)` bytes.
   */
  lemma SpanTail(chunks: seq<seq<u8>>, cs: nat, completed: bool, p: nat, L: nat, w: Window)
    requires StoreShape(chunks, cs, completed) && Locates(w, p, L, |chunks|, cs)
    requires w.startIdx < w.endIdx && p <= Stored(chunks[..w.endIdx])
    ensures p <= Stored(chunks)
    ensures Concat(chunks[..w.endIdx])[p..] + EndBytes(EndOf(chunks, w), w.endOff)
      == Concat(chunks)[p..p + Min(L, Stored(chunks) - p)]
  {
    if w.endIdx < |chunks| {
      EndCount(chunks, cs, completed, p, L, w.endIdx, w.endOff);
      EndBytesOf(chunks, w);
    } else {
      SpanTailPast(chunks, cs, completed, p, L, w);
    }
  }

  /** The end chunk's head, when the read ends inside the chunk grid. */
  lemma EndBytesOf(chunks: seq<seq<u8>>, w: Window)
    requires w.startIdx < w.endIdx < |chunks|
    ensures EndBytes(EndOf(chunks, w), w.endOff) == chunks[w.endIdx][..Min(w.endOff, |chunks[w.endIdx]|)]
  {
    if w.endOff == 0 {
      assert chunks[w.endIdx][..0] == [];
    }
  }

  /** A read that ends past the chunk grid takes all the data from `p` on. */
  lemma SpanTailPast(chunks: seq<seq<u8>>, cs: nat, completed: bool, p: nat, L: nat, w: Window)
    requires StoreShape(chunks, cs, completed) && Locates(w, p, L, |chunks|, cs)
    requires w.startIdx < w.endIdx == |chunks| && p <= Stored(chunks[..w.endIdx])
    ensures p <= Stored(chunks)
    ensures Concat(chunks[..w.endIdx])[p..] + EndBytes(EndOf(chunks, w), w.endOff)
      == Concat(chunks)[p..p + Min(L, Stored(chunks) - p)]
  {
    assert chunks[..w.endIdx] == chunks;
    ShapeLengths(chunks, cs, completed, 0);
  }

  /** The data from `p`, in chunk `k` at offset `o`, up to chunk `j`: the tail of chunk `k` and the chunks between. */
  lemma SpanHead(chunks: seq<seq<u8>>, cs: nat, completed: bool, p: nat, k: nat, o: nat, j: nat)
    requires StoreShape(chunks, cs, completed) && k < j <= |chunks|
    requires o <= |chunks[k]| && p == ChunkStart(k, cs) + o
    ensures p <= Stored(chunks[..j])
    ensures Concat(chunks[..j])[p..] == chunks[k][o..] + Concat(chunks[k + 1..j])
  {
    ConcatMiddle(chunks, k, j);
    ShapeLengths(chunks, cs, completed, k);
    SliceFromMiddle(Concat(chunks[..k]), chunks[k], Concat(chunks[k + 1..j]), o);
  }

  /**
   * The copy half of `read`: one chunk, or the tail of the start chunk, the
   * middle chunks and the head of the end chunk, written to the front of `buf`.
   */
  method CopyWindow(buf: array<u8>, w: Window, startChunk: seq<u8>, middle: Option<seq<seq<u8>>>,
                    endChunk: Option<seq<u8>>) returns (r: ReadResult)
    requires Copied(w, startChunk, middle, endChunk).Some? ==>
      |Copied(w, startChunk, middle, endChunk).value| <= buf.Length
    modifies buf
    ensures Copied(w, startChunk, middle, endChunk).None? ==> r == Panic && buf[..] == old(buf[..])
    ensures Copied(w, startChunk, middle, endChunk).Some? ==>
      && r == ReadOk(|Copied(w, startChunk, middle, endChunk).value|)
      && buf[..] == Overwrite(old(buf[..]), 0, Copied(w, startChunk, middle, endChunk).value)
  {
    if w.startIdx == w.endIdx {
      // One chunk holds the whole request.
      var avail := Min(w.endOff, |startChunk|);
      if avail < w.startOff {
        r := Panic;
      } else {
        var len := avail - w.startOff;
        CopyInto(buf, 0, startChunk[w.startOff..w.startOff + len]);
        r := ReadOk(len);
      }
    } else if |startChunk| < w.startOff {
      r := Panic;
    } else {
      var offset := CopySpan(buf, startChunk[w.startOff..], middle, endChunk, w.endOff);
      r := ReadOk(offset);
    }
  }

  /** Where a read of `len` bytes from `pos` starts and ends in a grid of `n` chunks of `cs` bytes. */
  datatype Window = Window(startIdx: nat, startOff: nat, endIdx: nat, endOff: nat)

  /**
   * `w` places a read of `len` bytes from `pos` in the grid: `pos` is at
   * offset `startOff` of chunk `startIdx`, and `pos + len` at offset `endOff`
   * of chunk `endIdx`, or past the last chunk with `endIdx` the chunk count
   * and `endOff` 0.
   */
  predicate Locates(w: Window, pos: nat, len: nat, n: nat, cs: nat)
  {
    && w.startIdx < n && w.startOff < cs && pos == ChunkStart(w.startIdx, cs) + w.startOff
    && w.startIdx <= w.endIdx <= n
    && (w.endIdx < n ==> w.endOff < cs && pos + len == ChunkStart(w.endIdx, cs) + w.endOff)
    && (w.endIdx == n ==> w.endOff == 0 && ChunkStart(n, cs) <= pos + len)
  }

  /**
   * The index arithmetic of `read`: the start chunk and offset of `pos`, and
   * those of `pos + len`, clamped to the chunk count (offset 0) when the end
   * lies past the last chunk.
   */
  function ReadWindow(pos: nat, len: nat, n: nat, cs: nat): (w: Window)
    requires cs > 0 && pos < n * cs
    ensures Locates(w, pos, len, n, cs)
  {
    Locate(pos, cs);
    Locate(pos + len, cs);
    LocateBelow(pos, cs, n);
    LocateMonotone(pos, pos + len, cs);
    var endIdx := (pos + len) / cs;
    if endIdx >= n then
      ChunkStartMonotone(n, endIdx, cs);
      Window(pos / cs, pos % cs, n, 0)
    else
      Window(pos / cs, pos % cs, endIdx, (pos + len) % cs)
  }

  /** The grid bound `n * cs` is never below the bytes stored. */
  lemma BoundCoversStored(chunks: seq<seq<u8>>, cs: nat, completed: bool)
    requires StoreShape(chunks, cs, completed)
    ensures Stored(chunks) <= |chunks| * cs
  {
    ChunkStartIsProduct(|chunks|, cs);
    if |chunks| > 0 {
      ShapeLengths(chunks, cs, completed, 0);
    }
  }

  /** Below the grid bound but not below the stored bytes only happens after completion. */
  lemma PartialOnlyWhenCompleted(chunks: seq<seq<u8>>, cs: nat, completed: bool)
    requires StoreShape(chunks, cs, completed)
    ensures Stored(chunks) < |chunks| * cs ==> completed
  {
    ChunkStartIsProduct(|chunks|, cs);
    if |chunks| > 0 {
      ShapeLengths(chunks, cs, completed, 0);
    }
  }

  /** The stored byte count is the full chunks before the last plus the last one. */
  lemma StoredByLastChunk(chunks: seq<seq<u8>>, cs: nat, completed: bool)
    requires StoreShape(chunks, cs, completed)
    ensures Stored(chunks) == if |chunks| == 0 then 0 else (|chunks| - 1) * cs + |chunks[|chunks| - 1]|
  {
    if |chunks| > 0 {
      ChunkAt(chunks, cs, completed, |chunks| - 1);
      ChunkStartIsProduct(|chunks| - 1, cs);
    }
  }

  /** The bytes of the middle chunks, if any. */
  function MiddleBytes(middle: Option<seq<seq<u8>>>): seq<u8>
  {
    if middle.Some? then Concat(middle.value) else []
  }

  /** The head of the end chunk that a read takes, if any. */
  function EndBytes(endChunk: Option<seq<u8>>, endOff: nat): seq<u8>
  {
    if endChunk.Some? then endChunk.value[..Min(endOff, |endChunk.value|)] else []
  }

  /**
   * The copy of a read spanning several chunks: the tail of the start chunk,
   * every middle chunk whole, then the head of the end chunk, laid out one
   * after the other from the front of `buf`.
   */
  method CopySpan(buf: array<u8>, head: seq<u8>, middle: Option<seq<seq<u8>>>,
                  endChunk: Option<seq<u8>>, endOff: nat) returns (offset: nat)
    requires |head + MiddleBytes(middle) + EndBytes(endChunk, endOff)| <= buf.Length
    modifies buf
    ensures offset == |head + MiddleBytes(middle) + EndBytes(endChunk, endOff)|
    ensures buf[..] == Overwrite(old(buf[..]), 0, head + MiddleBytes(middle) + EndBytes(endChunk, endOff))
  {
    ghost var b0 := buf[..];
    var tail := EndBytes(endChunk, endOff);
    var mid := MiddleBytes(middle);
    CopyInto(buf, 0, head);
    offset := |head|;
    if middle.Some? {
      offset := CopyChunks(buf, offset, middle.value);
    }
    OverwriteTwice(b0, 0, head, mid);
    CopyInto(buf, offset, tail);
    offset := offset + |tail|;
    OverwriteTwice(b0, 0, head + mid, tail);
  }

  /** Copies every chunk of `chunks` whole into `buf` from `at` on, one after the other. */
  method CopyChunks(buf: array<u8>, at: nat, chunks: seq<seq<u8>>) returns (offset: nat)
    requires at + |Concat(chunks)| <= buf.Length
    modifies buf
    ensures offset == at + |Concat(chunks)|
    ensures buf[..] == Overwrite(old(buf[..]), at, Concat(chunks))
  {
    offset := at;
    ghost var b0 := buf[..];
    assert chunks[..0] == [];
    assert Overwrite(b0, at, []) == b0;
    for i := 0 to |chunks|
      invariant Concat(chunks[..i]) <= Concat(chunks)
      invariant offset == at + |Concat(chunks[..i])|
      invariant buf[..] == Overwrite(b0, at, Concat(chunks[..i]))
    {
      ConcatTakeNext(chunks, i);
      ConcatPrefix(chunks, i + 1);
      OverwriteTwice(b0, at, Concat(chunks[..i]), chunks[i]);
      CopyInto(buf, offset, chunks[i]);
      offset := offset + |chunks[i]|;
    }
    assert chunks[..|chunks|] == chunks;
  }

  /** Where the read position lies in the chunk grid: chunk `p / cs`, offset `p % cs`. */
  lemma Locate(p: nat, cs: nat)
    requires cs > 0
    ensures p == ChunkStart(p / cs, cs) + p % cs && p % cs < cs
  {
    ChunkStartIsProduct(p / cs, cs);
  }

  /** A position below the grid bound `n * cs` lies in one of the `n` chunks. */
  lemma LocateBelow(p: nat, cs: nat, n: nat)
    requires cs > 0 && p < n * cs
    ensures p / cs < n
  {
    if p / cs >= n {
      ChunkStartIsProduct(n, cs);
      Locate(p, cs);
      ChunkStartMonotone(n, p / cs, cs);
    }
  }

  /** The chunk of a later position is not before the chunk of an earlier one. */
  lemma LocateMonotone(a: nat, b: nat, cs: nat)
    requires cs > 0 && a <= b
    ensures a / cs <= b / cs
  {
    if a / cs > b / cs {
      Locate(a, cs);
      Locate(b, cs);
      ChunkStartMonotone(b / cs + 1, a / cs, cs);
    }
  }

  /**
   * What the layout says about chunk `k`: the chunks before it hold
   * `ChunkStart(k, cs)` bytes, it is full unless it is the last, and the last
   * one ends the data.
   */
  lemma ChunkAt(chunks: seq<seq<u8>>, cs: nat, completed: bool, k: nat)
    requires StoreShape(chunks, cs, completed) && k < |chunks|
    ensures Stored(chunks[..k]) == ChunkStart(k, cs)
    ensures Concat(chunks[..k + 1]) == Concat(chunks[..k]) + chunks[k]
    ensures Concat(chunks[..k + 1]) <= Concat(chunks)
    ensures k < |chunks| - 1 ==> |chunks[k]| == cs && ChunkStart(k + 1, cs) <= Stored(chunks)
    ensures k == |chunks| - 1 ==> Stored(chunks) == ChunkStart(k, cs) + |chunks[k]|
  {
    ShapeLengths(chunks, cs, completed, k);
    ConcatTakeNext(chunks, k);
    ConcatPrefix(chunks, k + 1);
    if k == |chunks| - 1 {
      assert chunks[..k + 1] == chunks;
    }
  }

  /** A position `ChunkStart(k, cs) + o` lies past the stored bytes exactly when chunk `k` is shorter than `o`. */
  lemma ShortTailGap(chunks: seq<seq<u8>>, cs: nat, completed: bool, k: nat, o: nat)
    requires StoreShape(chunks, cs, completed) && k < |chunks| && o < cs
    ensures |chunks[k]| < o <==> Stored(chunks) < ChunkStart(k, cs) + o
  {
    ChunkAt(chunks, cs, completed, k);
  }

  /**
   * When the request `[p, p + L)` lies in chunk `k` (from offset `o` to offset
   * `e`), the copy `chunk[o..min(e, |chunk|)]` is the next `min(L, stored - p)`
   * bytes of the data.
   */
  lemma SingleChunkCount(chunks: seq<seq<u8>>, cs: nat, completed: bool, p: nat, L: nat, k: nat, o: nat, e: nat)
    requires StoreShape(chunks, cs, completed) && k < |chunks|
    requires p == ChunkStart(k, cs) + o && p + L == ChunkStart(k, cs) + e
    requires e < cs && o <= Min(e, |chunks[k]|)
    ensures p <= Stored(chunks)
    ensures Min(e, |chunks[k]|) - o == Min(L, Stored(chunks) - p)
    ensures chunks[k][o..Min(e, |chunks[k]|)] == Concat(chunks)[p..p + Min(L, Stored(chunks) - p)]
  {
    ChunkAt(chunks, cs, completed, k);
    var pre := Concat(chunks[..k]);
    var m := Min(e, |chunks[k]|);
    assert m - o == Min(L, Stored(chunks) - p) by {
      CountInChunk(ChunkStart(k, cs), o, e, L, |chunks[k]|, Stored(chunks), cs, k == |chunks| - 1);
    }
    SliceInPart(pre, chunks[k], Concat(chunks), o, m, p, Min(L, Stored(chunks) - p));
  }

  /** Where `pre + c` is a prefix of `whole`, a slice inside `c` is the matching slice of `whole`. */
  lemma SliceInPart(pre: seq<u8>, c: seq<u8>, whole: seq<u8>, o: nat, m: nat, p: nat, n: nat)
    requires pre + c <= whole && o <= m <= |c| && p == |pre| + o && n == m - o
    ensures c[o..m] == whole[p..p + n]
  {
    SliceOfPrefix(pre + c, whole, p, |pre| + m);
    SliceOfSecond(pre, c, o, m);
  }

  /**
   * The count arithmetic of a read inside one chunk that starts at `start`
   * and holds `len` bytes: a chunk that is not the last is full and followed
   * by more data; the last one ends the data.
   */
  lemma CountInChunk(start: nat, o: nat, e: nat, L: nat, len: nat, stored: nat, cs: nat, last: bool)
    requires e < cs && o <= Min(e, len) && start + o + L == start + e
    requires !last ==> len == cs && start + cs <= stored
    requires last ==> stored == start + len
    ensures start + o <= stored
    ensures Min(e, len) - o == Min(L, stored - (start + o))
  {
  }

  /** The chunks before `j` are those before `k`, chunk `k`, and the ones strictly between. */
  lemma ConcatMiddle(chunks: seq<seq<u8>>, k: nat, j: nat)
    requires k < j <= |chunks|
    ensures Concat(chunks[..j]) == Concat(chunks[..k]) + chunks[k] + Concat(chunks[k + 1..j])
  {
    assert chunks[..j] == chunks[..k + 1] + chunks[k + 1..j];
    ConcatAppend(chunks[..k + 1], chunks[k + 1..j]);
    ConcatTakeNext(chunks, k);
  }

  /**
   * When the request ends in chunk `j` at offset `e` below the chunk count,
   * the data from `p` to the start of chunk `j` plus the first `min(e, |chunk|)`
   * bytes of it are the next `min(L, stored - p)` bytes of the data.
   */
  lemma EndCount(chunks: seq<seq<u8>>, cs: nat, completed: bool, p: nat, L: nat, j: nat, e: nat)
    requires StoreShape(chunks, cs, completed) && j < |chunks| && e < cs
    requires p + L == ChunkStart(j, cs) + e && p <= Stored(chunks[..j])
    ensures p <= Stored(chunks)
    ensures Concat(chunks[..j])[p..] + chunks[j][..Min(e, |chunks[j]|)]
      == Concat(chunks)[p..p + Min(L, Stored(chunks) - p)]
  {
    ChunkAt(chunks, cs, completed, j);
    var pre := Concat(chunks[..j]);
    var m := Min(e, |chunks[j]|);
    SliceOfPrefix(pre + chunks[j], Concat(chunks), p, |pre| + m);
    SliceAcross(pre, chunks[j], p, m);
  }

  /**
   * The underflow of `read`, on concrete input: chunks of 4 bytes, five bytes
   * appended, the download completed, the reader moved to position 6 and one
   * byte asked for. The stored bytes end at 5 but the grid bound is 8, so
   * `read` does not wait and the in-chunk offset 2 exceeds the final chunk's
   * length 1.
   */
  method ShortTailCounterexample() returns (r: ReadResult)
    ensures r == Panic
  {
    var wrapper := new MVecBytesWrapper(4);
    var bytes: seq<u8> := [1, 2, 3, 4, 5];
    var first: seq<u8> := [1, 2, 3, 4];
    wrapper.AppendData(bytes);
    assert Rechunk([] + bytes, 4) == ([first], [5]) by {
      assert [] + bytes == bytes && bytes[..4] == first && bytes[4..] == [5];
      assert Rechunk([5], 4) == ([], [5]);
      assert Rechunk(bytes, 4) == ([first] + [], [5]);
      assert [first] + [] == [first];
    }
    wrapper.Complete();
    var condvar := new Condvar();
    var reader := new MVecBytesReader(wrapper, condvar);
    var s := reader.Seek(Start(6));
    var buf := new u8[1];
    assert Concat(reader.store.chunks) == bytes by {
      ConcatPush([first], [5]);
      ConcatPush([], first);
      assert [] + [first] == [first];
    }
    r := reader.Read(buf);
  }
}
