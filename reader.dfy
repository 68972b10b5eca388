/**
 * What the two progressive-download readers share (src/reader/mod.rs and the
 * `Read`/`Seek` contracts they implement): the seek arithmetic, the outcome of
 * a read, the cancellation token and condition variable they hold, and the
 * byte copy into the caller's buffer.
 */
module Reader {
  import opened Common

  const I64_HALF: int := 0x8000_0000_0000_0000

  /** `std::io::SeekFrom`: `Start` carries a `u64`, `End` and `Current` an `i64`. */
  datatype SeekFrom = Start(p: nat) | End(delta: int) | Current(delta: int)
  {
    predicate InRange()
    {
      match this
      case Start(p) => p < U64_MODULUS
      case End(d) => -I64_HALF <= d < I64_HALF
      case Current(d) => -I64_HALF <= d < I64_HALF
    }
  }

  /** The only `io::ErrorKind` the readers produce. */
  datatype IoErrorKind = Unsupported

  datatype SeekResult = SeekOk(pos: nat) | SeekErr(kind: IoErrorKind)

  /**
   * Outcome of `read`: `ReadOk(n)` is `Ok(n)`; `WouldBlock` stands for the
   * condition-variable wait (the reader would sleep until the writer makes
   * progress); `Panic` is an arithmetic or slice-bounds panic.
   */
  datatype ReadResult = ReadOk(n: nat) | WouldBlock | Panic

  /** `x as i64` for a `u64` value: two's-complement reinterpretation. */
  function AsI64(x: nat): (r: int)
    requires x < U64_MODULUS
    ensures -I64_HALF <= r < I64_HALF
  {
    if x < I64_HALF then x else x - U64_MODULUS
  }

  /** An `i64` addition result with wrap-around (the release-build behaviour). */
  function WrapI64(x: int): (r: int)
    ensures -I64_HALF <= r < I64_HALF
  {
    (x + I64_HALF) % U64_MODULUS - I64_HALF
  }

  /** `x as u64` for an `i64` value. */
  function AsU64(x: int): (r: nat)
    requires -I64_HALF <= x < I64_HALF
    ensures r < U64_MODULUS
  {
    if x >= 0 then x else x + U64_MODULUS
  }

  /** Wrapping an `i64` sum and reading it back as `u64` gives the sum modulo 2^64. */
  lemma WrapToU64(x: int)
    ensures AsU64(WrapI64(x)) == x % U64_MODULUS
  {
    var w := (x + I64_HALF) % U64_MODULUS;
    var q := (x + I64_HALF) / U64_MODULUS;
    assert x + I64_HALF == q * U64_MODULUS + w;
    if w >= I64_HALF {
      assert x == q * U64_MODULUS + (w - I64_HALF);
    } else {
      assert x == (q - 1) * U64_MODULUS + (w + I64_HALF);
    }
  }

  /** Adding a multiple of 2^64 does not change a value modulo 2^64. */
  lemma ShiftByModulus(x: int, k: int)
    ensures (x + k * U64_MODULUS) % U64_MODULUS == x % U64_MODULUS
  {
  }

  /**
   * The position `seek` moves to, shared by both readers: `Start(p)` goes to
   * `p`; `Current(off)` to `(pos as i64 + off) as u64`, which is `pos + off`
   * modulo 2^64; `End` is refused with `Unsupported`.
   */
  function SeekPosition(pos: nat, from: SeekFrom): (r: SeekResult)
    requires pos < U64_MODULUS && from.InRange()
    ensures r.SeekErr? <==> from.End?
    ensures r.SeekErr? ==> r.kind == Unsupported
    ensures from.Start? ==> r == SeekOk(from.p)
    ensures from.Current? ==> r.SeekOk? && r.pos == (pos + from.delta) % U64_MODULUS
    ensures from.Current? && 0 <= pos + from.delta < U64_MODULUS ==> r == SeekOk(pos + from.delta)
  {
    match from
    case Start(p) => SeekOk(p)
    case Current(off) =>
      var sum := AsI64(pos) + off;
      WrapToU64(sum);
      ShiftByModulus(pos + off, if pos < I64_HALF then 0 else -1);
      SeekOk(AsU64(WrapI64(sum)))
    case End(_) => SeekErr(Unsupported)
  }

  /** `tokio_util::sync::CancellationToken`: shared between a reader and the player. */
  class CancellationToken {
    var cancelled: bool

    constructor ()
      ensures !cancelled
    {
      cancelled := false;
    }

    method Cancel()
      modifies this
      ensures cancelled
    {
      cancelled := true;
    }
  }

  /**
   * `std::sync::Condvar`, shared between the downloader and a reader. Waking is
   * concurrency and is not modelled; the model counts `notify_all` calls.
   */
  class Condvar {
    var notifications: nat

    constructor ()
      ensures notifications == 0
    {
      notifications := 0;
    }

    method NotifyAll()
      modifies this
      ensures notifications == old(notifications) + 1
    {
      notifications := notifications + 1;
    }
  }

  /** A call made through the `AppendableDataWrapper` trait. */
  datatype WrapperCall = AppendCall(slice: seq<u8>) | CompleteCall | SetCapacityCall(capacity: nat)

  /**
   * A boxed `AppendableDataWrapper` as its holder sees it: a trait object
   * whose implementation is hidden, observed through the calls made on it,
   * in order.
   */
  class BoxedWrapper {
    var calls: seq<WrapperCall>

    constructor ()
      ensures calls == []
    {
      calls := [];
    }

    method AppendData(slice: seq<u8>)
      modifies this
      ensures calls == old(calls) + [AppendCall(slice)]
    {
      calls := calls + [AppendCall(slice)];
    }

    method Complete()
      modifies this
      ensures calls == old(calls) + [CompleteCall]
    {
      calls := calls + [CompleteCall];
    }

    method SetCapacity(capacity: nat)
      modifies this
      ensures calls == old(calls) + [SetCapacityCall(capacity)]
    {
      calls := calls + [SetCapacityCall(capacity)];
    }
  }

  /** The bytes handed to `append_data` by a sequence of calls, in order. */
  function AppendedBytes(calls: seq<WrapperCall>): seq<u8>
  {
    if calls == [] then []
    else
      var last := calls[|calls| - 1];
      AppendedBytes(calls[..|calls| - 1]) + (if last.AppendCall? then last.slice else [])
  }

  /** The contents of `b` after `src` is written over it from index `at` on. */
  function Overwrite(b: seq<u8>, at: nat, src: seq<u8>): (r: seq<u8>)
    requires at + |src| <= |b|
    ensures |r| == |b|
    ensures r[..at] == b[..at] && r[at..at + |src|] == src && r[at + |src|..] == b[at + |src|..]
  {
    b[..at] + src + b[at + |src|..]
  }

  /** Two adjacent writes are one write of the two sources joined. */
  lemma OverwriteTwice(b: seq<u8>, at: nat, s1: seq<u8>, s2: seq<u8>)
    requires at + |s1| + |s2| <= |b|
    ensures Overwrite(Overwrite(b, at, s1), at + |s1|, s2) == Overwrite(b, at, s1 + s2)
  {
    var r := Overwrite(Overwrite(b, at, s1), at + |s1|, s2);
    assert r[..at] == b[..at];
    assert r[at..at + |s1| + |s2|] == s1 + s2;
    assert r == r[..at] + r[at..at + |s1| + |s2|] + r[at + |s1| + |s2|..];
  }

  /** `buf[at..at + src.len()].copy_from_slice(src)`. */
  method CopyInto(buf: array<u8>, at: nat, src: seq<u8>)
    requires at + |src| <= buf.Length
    modifies buf
    ensures buf[..] == Overwrite(old(buf[..]), at, src)
  {
    for i := 0 to |src|
      invariant forall j :: 0 <= j < buf.Length ==>
        buf[j] == (if at <= j < at + i then src[j - at] else old(buf[j]))
    {
      buf[at + i] := src[i];
    }
    assert buf[..] == Overwrite(old(buf[..]), at, src);
  }
}
