/**
 * Shared vocabulary of the model: bytes, optional values, the flattening of a
 * sequence of chunks, and the single-slot listener registration used by both
 * the player and the downloader.
 */
module Common {

  /** One byte (Rust `u8`). */
  newtype u8 = x: int | 0 <= x < 256

  /** 2^64: the modulus of `u64` and, on the 64-bit targets modelled here, of `usize`. */
  const U64_MODULUS: int := 0x1_0000_0000_0000_0000

  /** `usize::MAX` on a 64-bit target. */
  const USIZE_MAX: nat := U64_MODULUS - 1

  datatype Option<T> = None | Some(value: T)

  /** `std::time::Duration`, as a whole number of nanoseconds. */
  type Duration = nat

  /** Identity of a registered callback closure. */
  type ListenerId = nat

  /** One invocation of a registered callback: which closure received which event. */
  datatype Delivery<E> = Delivery(listener: ListenerId, event: E)

  /**
   * What `if let Some(ref cb) = *callback.lock().unwrap() { cb(e) }` adds to the
   * log of deliveries: the event goes to the registered closure, or nowhere.
   */
  function Notify<E>(callback: Option<ListenerId>, e: E): seq<Delivery<E>>
  {
    match callback
    case None => []
    case Some(id) => [Delivery(id, e)]
  }

  function Min(a: int, b: int): int
  {
    if a <= b then a else b
  }

  /** The in-order concatenation of a sequence of chunks. */
  function Concat<T>(chunks: seq<seq<T>>): seq<T>
  {
    if chunks == [] then [] else Concat(chunks[..|chunks| - 1]) + chunks[|chunks| - 1]
  }

  /** Every chunk holds exactly `size` elements. */
  predicate AllFull<T>(chunks: seq<seq<T>>, size: nat)
  {
    forall i :: 0 <= i < |chunks| ==> |chunks[i]| == size
  }

  lemma {:induction false} ConcatAppend<T>(a: seq<seq<T>>, b: seq<seq<T>>)
    ensures Concat(a + b) == Concat(a) + Concat(b)
  {
    if b == [] {
      assert a + b == a;
    } else {
      var b' := b[..|b| - 1];
      ConcatAppend(a, b');
      assert (a + b)[..|a + b| - 1] == a + b';
    }
  }

  lemma ConcatPush<T>(a: seq<seq<T>>, c: seq<T>)
    ensures Concat(a + [c]) == Concat(a) + c
  {
    assert (a + [c])[..|a|] == a;
  }

  /** Splitting the chunk list at `k` splits the concatenation at the end of the first `k` chunks. */
  lemma ConcatSplit<T>(chunks: seq<seq<T>>, k: nat)
    requires k <= |chunks|
    ensures Concat(chunks) == Concat(chunks[..k]) + Concat(chunks[k..])
  {
    assert chunks == chunks[..k] + chunks[k..];
    ConcatAppend(chunks[..k], chunks[k..]);
  }

  /** Taking one more chunk extends the concatenation by that chunk. */
  lemma ConcatTakeNext<T>(chunks: seq<seq<T>>, k: nat)
    requires k < |chunks|
    ensures Concat(chunks[..k + 1]) == Concat(chunks[..k]) + chunks[k]
  {
    assert chunks[..k + 1] == chunks[..k] + [chunks[k]];
    ConcatPush(chunks[..k], chunks[k]);
  }

  /** The concatenation of a prefix of the chunks is a prefix of the whole concatenation. */
  lemma ConcatPrefix<T>(chunks: seq<seq<T>>, k: nat)
    requires k <= |chunks|
    ensures Concat(chunks[..k]) <= Concat(chunks)
  {
    ConcatSplit(chunks, k);
  }

  /** A slice that lies inside a prefix is the same slice of the prefix. */
  lemma SliceOfPrefix<T>(a: seq<T>, b: seq<T>, i: nat, j: nat)
    requires a <= b && i <= j <= |a|
    ensures b[i..j] == a[i..j]
  {
  }

  /** A slice of `pre + c` that lies inside `c`. */
  lemma SliceOfSecond<T>(pre: seq<T>, c: seq<T>, i: nat, j: nat)
    requires i <= j <= |c|
    ensures (pre + c)[|pre| + i..|pre| + j] == c[i..j]
  {
  }

  /** A slice of `pre + c` that starts in `pre` and ends in `c`. */
  lemma SliceAcross<T>(pre: seq<T>, c: seq<T>, i: nat, m: nat)
    requires i <= |pre| && m <= |c|
    ensures (pre + c)[i..|pre| + m] == pre[i..] + c[..m]
  {
  }

  /** A suffix of `pre + c + d` that starts inside `c`. */
  lemma SliceFromMiddle<T>(pre: seq<T>, c: seq<T>, d: seq<T>, o: nat)
    requires o <= |c|
    ensures (pre + c + d)[|pre| + o..] == c[o..] + d
  {
  }
}
