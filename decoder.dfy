/**
 * The decoder front ends (src/decoder/mod.rs): `Decoder`, which forwards
 * every call to the symphonia decoder it wraps, and `LoopedDecoder`, which
 * restarts the stream from byte 0 when it runs dry and stops for good once a
 * restart fails.
 */
module Decoding {
  import opened Common
  import opened Symphonia

  /** `Decoder`: a `DecoderImpl::Symphonia`, the only variant that can be built. */
  class Decoder {
    const inner: SymphoniaDecoder

    constructor (inner: SymphoniaDecoder)
      ensures this.inner == inner
    {
      this.inner := inner;
    }

    /** `next`, forwarded: the head of what remains, and `None` exactly when nothing does. */
    method Next() returns (r: Option<Sample>)
      modifies inner
      ensures r.None? <==> old(inner.Remaining()) == []
      ensures r.Some? ==> old(inner.Remaining()) == [r.value] + inner.Remaining()
    {
      r := inner.Next();
    }

    function SizeHint(): (nat, Option<nat>)
    {
      inner.SizeHint()
    }

    function CurrentSpanLen(): Option<nat>
      reads inner
    {
      inner.CurrentSpanLen()
    }

    function Channels(): nat
      reads inner
    {
      inner.Channels()
    }

    function SampleRate(): nat
      reads inner
    {
      inner.SampleRate()
    }

    function TotalDuration(): Option<Duration>
      reads inner
    {
      inner.TotalDuration()
    }

    /** `try_seek`, forwarded: the symphonia decoder's verdict and resulting stream. */
    method TrySeek(pos: Duration, demux: DemuxSeek, rawSkip: nat) returns (r: SeekOutcome)
      modifies inner
      ensures r == SeekVerdict(inner.seekMode, inner.hasTimeBase, old(inner.spec.channels), demux)
      ensures r.SeekOk? ==>
        var start := Pending(old(inner.buffer), USIZE_MAX) + Audio(demux.packets);
        var skip := SeekSkip(inner.seekMode, rawSkip, old(inner.offset), old(inner.spec.channels));
        skip <= |start| ==> inner.Remaining() == start[skip..]
      ensures !r.SeekOk? ==> inner.Remaining() == old(inner.Remaining())
      ensures inner.resets == old(inner.resets) + (if r.SeekOk? then 1 else 0)
    {
      r := inner.TrySeek(pos, demux, rawSkip);
    }
  }

  /** `LoopedDecoder`: the current decoder, if any, and the `coarse_seek` setting used to rebuild it. */
  class LoopedDecoder {
    var inner: Option<SymphoniaDecoder>
    const coarseSeek: bool

    constructor (inner: SymphoniaDecoder, coarseSeek: bool)
      ensures this.inner == Some(inner) && this.coarseSeek == coarseSeek
    {
      this.inner := Some(inner);
      this.coarseSeek := coarseSeek;
    }

    /** The decoder currently held. */
    function Held(): set<object>
      reads this
    {
      if inner.Some? then {inner.value} else {}
    }

    /**
     * `next`. Without a decoder: `None`, for good. While the decoder has
     * samples: the next one, unchanged. When it is exhausted: the reader is
     * rewound to byte 0 (`rewound` says whether that succeeded) and a new
     * decoder is built from `media` with the same settings; its first sample
     * is returned and it becomes the current decoder. A failed rewind or
     * rebuild leaves no decoder.
     */
    method Next(rewound: bool, media: Media) returns (r: Option<Sample>)
      requires !InitPanics(media, coarseSeek)
      modifies this, Held()
      ensures old(inner).None? ==> r == None && inner == None
      ensures old(inner).Some? && old(inner.value.Remaining()) != [] ==>
        && inner == old(inner)
        && r == Some(old(inner.value.Remaining())[0])
        && inner.value.Remaining() == old(inner.value.Remaining())[1..]
      ensures old(inner).Some? && old(inner.value.Remaining()) == [] && (!rewound || !InitSpec(media, coarseSeek).InitOk?) ==>
        r == None && inner == None
      ensures old(inner).Some? && old(inner.value.Remaining()) == [] && rewound && InitSpec(media, coarseSeek).InitOk? ==>
        var stream := InitialStream(InitSpec(media, coarseSeek));
        && inner.Some? && fresh(inner.value)
        && r == (if stream == [] then None else Some(stream[0]))
        && (stream != [] ==> inner.value.Remaining() == stream[1..])
    {
      if inner.Some? {
        var sample := inner.value.Next();
        if sample.Some? {
          r := sample;
        } else {
          inner := None;
          if rewound {
            var rebuilt := New(media, coarseSeek);
            if rebuilt.NewOk? {
              var d := rebuilt.decoder;
              r := d.Next();
              inner := Some(d);
            } else {
              r := None;
            }
          } else {
            r := None;
          }
        }
      } else {
        r := None;
      }
    }

    /** `size_hint`: no upper bound ever, since the stream loops; a lower bound of 0 without a decoder. */
    function SizeHint(): (r: (nat, Option<nat>))
      reads this
      ensures r.1 == None
      ensures inner.None? ==> r.0 == 0
    {
      (if inner.Some? then inner.value.SizeHint().0 else 0, None)
    }

    /** `current_span_len`: the current decoder's, or `None` without one. */
    function CurrentSpanLen(): (r: Option<nat>)
      reads this, Held()
      ensures inner.None? ==> r == None
      ensures inner.Some? ==> r == Some(|inner.value.buffer|)
    {
      if inner.Some? then inner.value.CurrentSpanLen() else None
    }

    /** `channels`: the current decoder's, or the default 0 without one. */
    function Channels(): (r: nat)
      reads this, Held()
      ensures inner.None? ==> r == 0
      ensures inner.Some? ==> r == inner.value.spec.channels
    {
      if inner.Some? then inner.value.Channels() else 0
    }

    /** `sample_rate`: the current decoder's, or the default 0 without one. */
    function SampleRate(): (r: nat)
      reads this, Held()
      ensures inner.None? ==> r == 0
      ensures inner.Some? ==> r == inner.value.spec.rate
    {
      if inner.Some? then inner.value.SampleRate() else 0
    }

    /** `total_duration`: a looping stream has none, whatever the decoder knows. */
    function TotalDuration(): (r: Option<Duration>)
      ensures r == None
    {
      None
    }

    /** `try_seek`: an `Other` I/O error without a decoder; otherwise the decoder's own seek. */
    method TrySeek(pos: Duration, demux: DemuxSeek, rawSkip: nat) returns (r: SeekOutcome)
      modifies Held()
      ensures inner == old(inner)
      ensures inner.None? ==> r == SeekFailed(OtherSeek(IoError))
      ensures inner.Some? ==> r == SeekVerdict(inner.value.seekMode, inner.value.hasTimeBase, old(inner.value.spec.channels), demux)
      ensures inner.Some? && r.SeekOk? ==>
        var start := Pending(old(inner.value.buffer), USIZE_MAX) + Audio(demux.packets);
        var skip := SeekSkip(inner.value.seekMode, rawSkip, old(inner.value.offset), old(inner.value.spec.channels));
        skip <= |start| ==> inner.value.Remaining() == start[skip..]
      ensures inner.Some? && !r.SeekOk? ==> inner.value.Remaining() == old(inner.value.Remaining())
      ensures inner.Some? ==> inner.value.resets == old(inner.value.resets) + (if r.SeekOk? then 1 else 0)
    {
      if inner.Some? {
        r := inner.value.TrySeek(pos, demux, rawSkip);
      } else {
        r := SeekFailed(OtherSeek(IoError));
      }
    }
  }

  /** Once a looped decoder has lost its decoder, every later `next` returns `None`, whatever the inputs. */
  method NoneForever(l: LoopedDecoder, rewinds: seq<bool>, media: seq<Media>) returns (out: seq<Option<Sample>>)
    requires l.inner == None && |rewinds| == |media|
    requires forall i :: 0 <= i < |media| ==> !InitPanics(media[i], l.coarseSeek)
    modifies l
    ensures |out| == |media| && forall i :: 0 <= i < |out| ==> out[i] == None
    ensures l.inner == None
  {
    out := [];
    for i := 0 to |media|
      invariant l.inner == None && |out| == i
      invariant forall j :: 0 <= j < i ==> out[j] == None
    {
      var r := l.Next(rewinds[i], media[i]);
      out := out + [r];
    }
  }
}
