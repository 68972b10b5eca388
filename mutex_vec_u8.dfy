/**
 * The flat progressive-download buffer (src/reader/mutex_vec_u8.rs): a writer
 * that appends downloaded bytes to one growing vector, and a `Read + Seek`
 * reader that pulls them back out by absolute position. It is also the
 * reference against which the chunked buffer is stated.
 */
module MutexVecU8 {
  import opened Common
  import opened Reader

  /**
   * The state the wrapper shares with its readers: the `Arc<Mutex<Vec<u8>>>`
   * and the `Arc<AtomicBool>` completion flag.
   */
  class FlatStore {
    var data: seq<u8>
    var completed: bool

    constructor ()
      ensures data == [] && !completed
    {
      data := [];
      completed := false;
    }
  }

  /** Number of bytes a read of `bufLen` bytes at `pos` returns, for `pos < |data|`. */
  function ReadCount(data: seq<u8>, pos: nat, bufLen: nat): (n: nat)
    requires pos < |data|
    ensures n <= bufLen && pos + n <= |data|
    ensures bufLen > 0 ==> n > 0
    ensures n == bufLen || pos + n == |data|
  {
    Min(|data| - pos, bufLen)
  }

  /**
   * The bytes that successive reads with a `bufLen`-byte buffer deliver from
   * `pos` on, once the download has completed (each read returns
   * `ReadCount` bytes; the first read at or past the end returns 0).
   */
  function ReadsFrom(data: seq<u8>, pos: nat, bufLen: nat): seq<u8>
    requires bufLen > 0
    decreases |data| - pos
  {
    if pos >= |data| then []
    else
      var n := ReadCount(data, pos, bufLen);
      data[pos..pos + n] + ReadsFrom(data, pos + n, bufLen)
  }

  /** Reading a completed buffer from `pos` to the end reproduces exactly `data[pos..]`. */
  lemma {:induction false} ReadsFromReproduces(data: seq<u8>, pos: nat, bufLen: nat)
    requires bufLen > 0 && pos <= |data|
    ensures ReadsFrom(data, pos, bufLen) == data[pos..]
    decreases |data| - pos
  {
    if pos < |data| {
      var n := ReadCount(data, pos, bufLen);
      ReadsFromReproduces(data, pos + n, bufLen);
      assert data[pos..] == data[pos..pos + n] + data[pos + n..];
    }
  }

  /** Reading a completed buffer from position 0 until `read` returns 0 yields the whole buffer. */
  lemma ReadAllFromStart(data: seq<u8>, bufLen: nat)
    requires bufLen > 0
    ensures ReadsFrom(data, 0, bufLen) == data
  {
    ReadsFromReproduces(data, 0, bufLen);
  }

  /**
   * What `read` returns at `pos` over `data`: past the end, 0 once the
   * download is completed or the read cancelled and otherwise a wait; before
   * the end, the `ReadCount` next bytes.
   */
  function ReadOutcome(data: seq<u8>, pos: nat, bufLen: nat, completed: bool, cancelled: bool): (r: ReadResult)
    ensures r != Panic
    ensures r == WouldBlock <==> pos >= |data| && !completed && !cancelled
    ensures r == ReadOk(0) <==> (pos >= |data| && (completed || cancelled)) || (pos < |data| && bufLen == 0)
    ensures pos < |data| ==> r.ReadOk? && r.n == Min(bufLen, |data| - pos)
  {
    if pos >= |data| then
      if completed || cancelled then ReadOk(0) else WouldBlock
    else
      ReadOk(ReadCount(data, pos, bufLen))
  }

  /** `MVecU8Wrapper`: the writing side. */
  class MVecU8Wrapper {
    const store: FlatStore

    constructor ()
      ensures fresh(store) && store.data == [] && !store.completed
    {
      store := new FlatStore();
    }

    /** Appends `slice` in order. Unlike the chunked wrapper it does not look at `completed`. */
    method AppendData(slice: seq<u8>)
      modifies store
      ensures store.data == old(store.data) + slice
      ensures store.completed == old(store.completed)
    {
      store.data := store.data + slice;
    }

    /** Marks the download complete; the bytes are untouched. */
    method Complete()
      modifies store
      ensures store.completed
      ensures store.data == old(store.data)
    {
      store.completed := true;
    }
  }

  /** `MVecU8Reader`: the reading side, positioned by `pos` (a `u64`). */
  class MVecU8Reader {
    const store: FlatStore
    const condvar: Condvar
    var pos: nat
    const token: CancellationToken

    constructor (wrapper: MVecU8Wrapper, condvar: Condvar)
      ensures store == wrapper.store && this.condvar == condvar
      ensures pos == 0 && fresh(token) && !token.cancelled
    {
      store := wrapper.store;
      this.condvar := condvar;
      pos := 0;
      token := new CancellationToken();
    }

    /**
     * `read`: past the end it returns 0 when the download is completed or the
     * token cancelled and otherwise waits; before the end it copies the next
     * `min(available, buf.len())` bytes to the front of `buf` and advances
     * `pos` by as many.
     */
    method Read(buf: array<u8>) returns (r: ReadResult)
      modifies this, buf
      ensures r == ReadOutcome(store.data, old(pos), buf.Length, store.completed, token.cancelled)
      ensures old(pos) < |store.data| ==>
        && pos == old(pos) + r.n
        && buf[..] == Overwrite(old(buf[..]), 0, store.data[old(pos)..old(pos) + r.n])
      ensures old(pos) >= |store.data| ==> pos == old(pos) && buf[..] == old(buf[..])
    {
      if pos >= |store.data| {
        if store.completed || token.cancelled {
          r := ReadOk(0);
        } else {
          r := WouldBlock;
        }
      } else {
        var available := store.data[pos..];
        var len := Min(|available|, buf.Length);
        CopyInto(buf, 0, available[..len]);
        pos := pos + len;
        r := ReadOk(len);
      }
    }

    /** `seek`: moves `pos` as `SeekPosition` says; `End` fails and leaves `pos` alone. */
    method Seek(from: SeekFrom) returns (r: SeekResult)
      requires pos < U64_MODULUS && from.InRange()
      modifies this
      ensures r == SeekPosition(old(pos), from)
      ensures pos == (if r.SeekOk? then r.pos else old(pos))
    {
      r := SeekPosition(pos, from);
      if r.SeekOk? {
        pos := r.pos;
      }
    }
  }
}
