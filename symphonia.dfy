/**
 * The symphonia-backed decoder (src/decoder/symphonia.rs). The container
 * (`FormatReader`) is modelled as the sequence of packet reads it will
 * produce, each packet carrying what the codec makes of it; probing, codec
 * construction and sample interleaving happen outside the model and arrive
 * as inputs (`Media`). Samples are the interleaved values of the decoded
 * buffers.
 */
module Symphonia {
  import opened Common

  /** One interleaved sample (rodio's `f32` `Sample`). */
  type Sample = real

  type Positive = n: nat | n > 0 witness 1

  /** symphonia's `SeekErrorKind`. */
  datatype SeekErrorKind = Unseekable | ForwardOnly | OutOfRange | InvalidTimestamp

  /** symphonia's `Error`, without its messages. */
  datatype SymError =
    | IoErr
    | DecodeErr
    | SeekErr(kind: SeekErrorKind)
    | UnsupportedErr
    | LimitErr
    | ResetRequiredErr

  /** rodio's `DecoderError`, without its messages. */
  datatype DecoderError = IoError | DecodeError | UnrecognizedFormat | LimitError | ResetRequired | NoStreams

  /** Channel count and sample rate of a decoded buffer. */
  datatype SignalSpec = SignalSpec(rate: nat, channels: nat)

  /** A rational time base `numer / denom` seconds per tick; symphonia refuses a zero in either. */
  datatype TimeBase = TimeBase(numer: Positive, denom: Positive)

  datatype CodecParams = CodecParams(codecNull: bool, timeBase: Option<TimeBase>, nFrames: Option<nat>, spec: SignalSpec)

  datatype Track = Track(id: nat, params: CodecParams)

  /** What the codec makes of one packet. */
  datatype DecodeResult =
    | Decoded(spec: SignalSpec, frames: nat, samples: seq<Sample>)
    | DecodeFailed(err: SymError)

  /** One call of `next_packet`: a packet of some track, or a read error. */
  datatype PacketRead = Packet(track: nat, decode: DecodeResult) | ReadErr(err: SymError)

  /** The outcome of probing the stream. */
  datatype Probe =
    | ProbeFailed(err: SymError)
    | Probed(defaultTrack: Option<Track>, tracks: seq<Track>, packets: seq<PacketRead>)

  /** Everything `init` learns from outside the model: the probe, and whether making the codec fails. */
  datatype Media = Media(probe: Probe, makeError: Option<SymError>)

  datatype SeekMode = Coarse | Accurate

  /** rodio's symphonia `SeekError`. */
  datatype SymphoniaSeekError = AccurateSeekNotSupported | RandomAccessNotSupported | Demuxer(err: SymError)

  /** rodio's `source::SeekError`, for the variants this code produces. */
  datatype SourceSeekError = SymphoniaSeek(cause: SymphoniaSeekError) | OtherSeek(error: DecoderError)

  /** What `try_seek` ends in: `Ok`, an error, or the panic of a `%` by zero channels. */
  datatype SeekOutcome = SeekOk | SeekFailed(err: SourceSeekError) | SeekPanic

  /** The demuxer's answer to `format.seek`: the packet reads from the new position on, or an error. */
  datatype DemuxSeek = DemuxDone(packets: seq<PacketRead>) | DemuxFailed(err: SymError)

  const NANOS_PER_SEC: nat := 1_000_000_000

  // ---------------------------------------------------------------- errors

  /** The symphonia error a `DecoderError` was made from by `new`; `NoStreams` comes from none. */
  function ErrorSource(d: DecoderError): Option<SymError>
  {
    match d
    case IoError => Some(IoErr)
    case DecodeError => Some(DecodeErr)
    case UnrecognizedFormat => Some(UnsupportedErr)
    case LimitError => Some(LimitErr)
    case ResetRequired => Some(ResetRequiredErr)
    case NoStreams => None
  }

  /**
   * `new`'s mapping of an `init` error. A seek error is declared impossible
   * there (`unreachable!`), so it is not in the domain. Each error kind maps
   * to its own `DecoderError` variant (`ErrorSource` recovers the kind), and
   * `NoStreams` is kept for a stream without a track. Error messages are not
   * modelled.
   */
  function MapInitError(e: SymError): (r: DecoderError)
    requires !e.SeekErr?
    ensures ErrorSource(r) == Some(e)
    ensures r != NoStreams
  {
    match e
    case IoErr => IoError
    case DecodeErr => DecodeError
    case UnsupportedErr => UnrecognizedFormat
    case LimitErr => LimitError
    case ResetRequiredErr => ResetRequired
  }

  // ------------------------------------------------------------ durations

  /**
   * `TimeBase::calc_time` converted to a `Duration`: `ts` ticks of
   * `numer / denom` seconds, rounded down to a whole nanosecond.
   */
  function CalcTime(base: TimeBase, ts: nat): (r: Duration)
    ensures r * base.denom <= ts * base.numer * NANOS_PER_SEC < (r + 1) * base.denom
  {
    (ts * base.numer * NANOS_PER_SEC) / base.denom
  }

  /** The total duration read from a track's codec parameters: known only when both the time base and the frame count are. */
  function TotalDuration(params: CodecParams): (r: Option<Duration>)
    ensures r.Some? <==> params.timeBase.Some? && params.nFrames.Some?
    ensures r.Some? ==> r.value == CalcTime(params.timeBase.value, params.nFrames.value)
  {
    if params.timeBase.Some? && params.nFrames.Some? then
      Some(CalcTime(params.timeBase.value, params.nFrames.value))
    else
      None
  }

  // -------------------------------------------------------------- tracks

  /** The index of the first track whose codec is not the null codec. */
  function FirstSupported(tracks: seq<Track>): (r: Option<nat>)
    ensures r.Some? ==> r.value < |tracks| && !tracks[r.value].params.codecNull
    ensures r.Some? ==> forall j :: 0 <= j < r.value ==> tracks[j].params.codecNull
    ensures r.None? ==> forall j :: 0 <= j < |tracks| ==> tracks[j].params.codecNull
  {
    if tracks == [] then None
    else if !tracks[0].params.codecNull then Some(0)
    else
      match FirstSupported(tracks[1..])
      case None => None
      case Some(i) => Some(i + 1)
  }

  /** The index of the first track with identifier `id`. */
  function FirstWithId(tracks: seq<Track>, id: nat): (r: Option<nat>)
    ensures r.Some? ==> r.value < |tracks| && tracks[r.value].id == id
    ensures r.Some? ==> forall j :: 0 <= j < r.value ==> tracks[j].id != id
    ensures r.None? ==> forall j :: 0 <= j < |tracks| ==> tracks[j].id != id
  {
    if tracks == [] then None
    else if tracks[0].id == id then Some(0)
    else
      match FirstWithId(tracks[1..], id)
      case None => None
      case Some(i) => Some(i + 1)
  }

  // ------------------------------------------------------------ init scan

  /** The first decoded buffer `init` accepts, with the packet reads after it, or the error that ends `init`. */
  datatype ScanResult = ScanFound(spec: SignalSpec, samples: seq<Sample>, rest: seq<PacketRead>) | ScanFailed(err: SymError)

  /**
   * `init`'s packet loop for track `trackId`: packets of other tracks and
   * packets failing with a decode error are skipped; the first packet of the
   * track that decodes is taken even with no frames; an I/O error on reading
   * (the end of the stream included) yields the codec's last, empty, buffer
   * with spec `initial`; any other error ends `init`.
   */
  function FirstDecoded(packets: seq<PacketRead>, trackId: nat, initial: SignalSpec): ScanResult
    decreases |packets|
  {
    if packets == [] then ScanFound(initial, [], [])
    else
      match packets[0]
      case ReadErr(e) => if e == IoErr then ScanFound(initial, [], packets) else ScanFailed(e)
      case Packet(t, d) =>
        if t != trackId then FirstDecoded(packets[1..], trackId, initial)
        else
          match d
          case Decoded(spec, _, samples) => ScanFound(spec, samples, packets[1..])
          case DecodeFailed(e) => if e == DecodeErr then FirstDecoded(packets[1..], trackId, initial) else ScanFailed(e)
  }

  /** A packet `init` passes over while looking for track `trackId`. */
  predicate Skippable(p: PacketRead, trackId: nat)
  {
    p.Packet? && (p.track != trackId || p.decode == DecodeFailed(DecodeErr))
  }

  /** Packets of other tracks and undecodable packets in front of the stream do not change what `init` finds. */
  lemma {:induction false} ScanSkipsOtherTracks(skipped: seq<PacketRead>, packets: seq<PacketRead>, trackId: nat, initial: SignalSpec)
    requires forall i :: 0 <= i < |skipped| ==> Skippable(skipped[i], trackId)
    ensures FirstDecoded(skipped + packets, trackId, initial) == FirstDecoded(packets, trackId, initial)
  {
    if skipped != [] {
      assert (skipped + packets)[1..] == skipped[1..] + packets;
      ScanSkipsOtherTracks(skipped[1..], packets, trackId, initial);
    } else {
      assert skipped + packets == packets;
    }
  }

  /** The result of `init`: the new decoder's state, no usable track, or an error. */
  datatype InitOutcome =
    | InitOk(buffer: seq<Sample>, spec: SignalSpec, packets: seq<PacketRead>,
             totalDuration: Option<Duration>, hasTimeBase: bool, seekMode: SeekMode)
    | InitNone
    | InitErr(err: SymError)

  /**
   * `init`: a failed probe is its error; no default track means no stream; no
   * supported track is `Unsupported`; the track used is the first with the
   * supported track's identifier; a failure to make the codec is its error;
   * then the packet loop. The total duration comes from the default track,
   * the time base used for seeking from the selected one.
   */
  function InitSpec(media: Media, coarseSeek: bool): InitOutcome
  {
    match media.probe
    case ProbeFailed(e) => InitErr(e)
    case Probed(defaultTrack, tracks, packets) =>
      if defaultTrack.None? then InitNone
      else
        match FirstSupported(tracks)
        case None => InitErr(UnsupportedErr)
        case Some(s) =>
          match FirstWithId(tracks, tracks[s].id)
          case None => InitNone
          case Some(k) =>
            if media.makeError.Some? then InitErr(media.makeError.value)
            else
              match FirstDecoded(packets, tracks[s].id, tracks[k].params.spec)
              case ScanFailed(e) => InitErr(e)
              case ScanFound(spec, samples, rest) =>
                InitOk(samples, spec, rest, TotalDuration(defaultTrack.value.params),
                       tracks[k].params.timeBase.Some?, if coarseSeek then Coarse else Accurate)
  }

  /** An `init` that ends in a seek error, which `new` treats as unreachable. */
  predicate InitPanics(media: Media, coarseSeek: bool)
  {
    var o := InitSpec(media, coarseSeek);
    o.InitErr? && o.err.SeekErr?
  }

  /** `init` never reports a read error that ends the stream: the end of the stream is a (possibly empty) first buffer. */
  lemma InitEndOfStreamIsNotAnError(media: Media, coarseSeek: bool)
    requires media.probe.Probed? && media.probe.defaultTrack.Some? && media.makeError.None?
    requires FirstSupported(media.probe.tracks).Some?
    requires forall i :: 0 <= i < |media.probe.packets| ==> Skippable(media.probe.packets[i], media.probe.tracks[FirstSupported(media.probe.tracks).value].id)
    ensures InitSpec(media, coarseSeek).InitOk?
    ensures InitSpec(media, coarseSeek).buffer == []
  {
    var tracks := media.probe.tracks;
    var s := FirstSupported(tracks).value;
    var k := FirstWithId(tracks, tracks[s].id).value;
    var packets := media.probe.packets;
    ScanSkipsOtherTracks(packets, [], tracks[s].id, tracks[k].params.spec);
    assert packets + [] == packets;
  }

  // ---------------------------------------------------------------- refill

  /** What the refill in `next` ends with, and the packet reads left after it. */
  datatype Refilled = Filled(spec: SignalSpec, samples: seq<Sample>, rest: seq<PacketRead>) | Stopped(rest: seq<PacketRead>)

  /**
   * The refill loop of `next`: decode errors and packets without frames are
   * skipped; the first packet with frames replaces the buffer. A failed read
   * (the end of the stream included) stops it and stays in place; any other
   * decode error stops it, its packet consumed.
   */
  function Refill(packets: seq<PacketRead>): (r: Refilled)
    ensures |r.rest| <= |packets|
    ensures r.Filled? ==> |r.rest| < |packets|
    decreases |packets|
  {
    if packets == [] then Stopped([])
    else
      match packets[0]
      case ReadErr(_) => Stopped(packets)
      case Packet(_, d) =>
        match d
        case DecodeFailed(e) => if e == DecodeErr then Refill(packets[1..]) else Stopped(packets[1..])
        case Decoded(spec, frames, samples) => if frames > 0 then Filled(spec, samples, packets[1..]) else Refill(packets[1..])
  }

  /**
   * The samples a decoder delivers from these packet reads up to its first
   * `None`: the decoded buffers with frames, in order, skipping decode errors
   * and empty packets; it ends at a failed read, at any other decode error,
   * and at a buffer that has frames but no samples.
   */
  function Audio(packets: seq<PacketRead>): seq<Sample>
    decreases |packets|
  {
    if packets == [] then []
    else
      match packets[0]
      case ReadErr(_) => []
      case Packet(_, d) =>
        match d
        case DecodeFailed(e) => if e == DecodeErr then Audio(packets[1..]) else []
        case Decoded(_, frames, samples) =>
          if frames == 0 then Audio(packets[1..])
          else if samples == [] then []
          else samples + Audio(packets[1..])
  }

  /** One refill takes exactly the next buffer of `Audio`, or ends it. */
  lemma {:induction false} RefillAudio(packets: seq<PacketRead>)
    ensures Refill(packets).Stopped? ==> Audio(packets) == []
    ensures Refill(packets).Filled? ==>
      Audio(packets) == (if Refill(packets).samples == [] then [] else Refill(packets).samples + Audio(Refill(packets).rest))
    decreases |packets|
  {
    if packets != [] && packets[0].Packet? {
      match packets[0].decode
      case DecodeFailed(e) =>
        if e == DecodeErr {
          RefillAudio(packets[1..]);
        }
      case Decoded(_, frames, _) =>
        if frames == 0 {
          RefillAudio(packets[1..]);
        }
    }
  }

  /** The part of the current buffer not yet delivered; an offset past its end leaves nothing. */
  function Pending(buffer: seq<Sample>, offset: nat): seq<Sample>
  {
    if offset < |buffer| then buffer[offset..] else []
  }

  // ------------------------------------------------------------------ seek

  /** The saturating seek target: `pos`, or the total duration when `pos` lies beyond it. */
  function Clamp(pos: Duration, total: Option<Duration>): (r: Duration)
    ensures r <= pos
    ensures total.Some? ==> r <= total.value
    ensures r == pos || (total.Some? && r == total.value)
  {
    if total.Some? && pos > total.value then total.value else pos
  }

  /** `refine_position`'s re-alignment: `n` rounded down to a multiple of `channels`. */
  function Align(n: nat, channels: Positive): (r: nat)
    ensures r <= n && n - r < channels
    ensures r == (n / channels) * channels
  {
    n - n % channels
  }

  /** How `try_seek` maps a demuxer error. */
  function DemuxFailure(e: SymError): (r: SymphoniaSeekError)
    ensures r == RandomAccessNotSupported <==> e == SeekErr(ForwardOnly)
    ensures r != AccurateSeekNotSupported
    ensures r.Demuxer? ==> r.err == e
  {
    if e == SeekErr(ForwardOnly) then RandomAccessNotSupported else Demuxer(e)
  }

  /**
   * The result of `try_seek`, decided in a fixed order: accurate mode without
   * a time base fails first; then zero channels panics (the `%` for the
   * active channel); then the demuxer's answer decides.
   */
  function SeekVerdict(mode: SeekMode, hasTimeBase: bool, channels: nat, demux: DemuxSeek): (r: SeekOutcome)
    ensures r == SeekFailed(SymphoniaSeek(AccurateSeekNotSupported)) <==> mode == Accurate && !hasTimeBase
    ensures r == SeekPanic <==> !(mode == Accurate && !hasTimeBase) && channels == 0
    ensures r == SeekOk <==> !(mode == Accurate && !hasTimeBase) && channels > 0 && demux.DemuxDone?
    ensures r == SeekFailed(SymphoniaSeek(RandomAccessNotSupported)) <==>
      !(mode == Accurate && !hasTimeBase) && channels > 0 && demux == DemuxFailed(SeekErr(ForwardOnly))
  {
    if mode == Accurate && !hasTimeBase then SeekFailed(SymphoniaSeek(AccurateSeekNotSupported))
    else if channels == 0 then SeekPanic
    else
      match demux
      case DemuxFailed(e) => SeekFailed(SymphoniaSeek(DemuxFailure(e)))
      case DemuxDone(_) => SeekOk
  }

  /** The samples a successful seek skips before the first one delivered: the refinement, then the channel. */
  function SeekSkip(mode: SeekMode, rawSkip: nat, offset: nat, channels: Positive): nat
  {
    (if mode == Accurate then Align(rawSkip, channels) else 0) + offset % channels
  }

  // --------------------------------------------------------------- decoder

  class SymphoniaDecoder {
    /** The current decoded buffer, interleaved. */
    var buffer: seq<Sample>
    /** `current_span_offset` (a `usize`): the next sample's index in `buffer`. */
    var offset: nat
    var spec: SignalSpec
    /** The packet reads the format reader will produce. */
    var packets: seq<PacketRead>
    const totalDuration: Option<Duration>
    /** Whether the codec parameters carry a time base. */
    const hasTimeBase: bool
    const seekMode: SeekMode
    /** Number of `reset` calls on the codec. */
    var resets: nat
    /** The targets passed to the format reader's `seek`, in order. */
    var seekTargets: seq<Duration>

    constructor (buffer: seq<Sample>, spec: SignalSpec, packets: seq<PacketRead>,
                 totalDuration: Option<Duration>, hasTimeBase: bool, seekMode: SeekMode)
      ensures this.buffer == buffer && this.spec == spec && this.packets == packets && offset == 0
      ensures this.totalDuration == totalDuration && this.hasTimeBase == hasTimeBase && this.seekMode == seekMode
      ensures resets == 0 && seekTargets == []
    {
      this.buffer := buffer;
      this.spec := spec;
      this.packets := packets;
      offset := 0;
      this.totalDuration := totalDuration;
      this.hasTimeBase := hasTimeBase;
      this.seekMode := seekMode;
      resets := 0;
      seekTargets := [];
    }

    /** The samples still to come before the first `None`. */
    ghost function Remaining(): seq<Sample>
      reads this
    {
      Pending(buffer, offset) + Audio(packets)
    }

    /** The calls made to the codec and the format reader for seeking. */
    ghost function Log(): (nat, seq<Duration>)
      reads this
    {
      (resets, seekTargets)
    }

    /** `current_span_len`: the whole current buffer, the part delivered and the part pending. */
    function CurrentSpanLen(): (r: Option<nat>)
      reads this
      ensures r.Some?
      ensures offset <= |buffer| ==> r.value == offset + |Pending(buffer, offset)|
    {
      Some(|buffer|)
    }

    function Channels(): nat
      reads this
    {
      spec.channels
    }

    function SampleRate(): nat
      reads this
    {
      spec.rate
    }

    function TotalDuration(): Option<Duration>
      reads this
    {
      totalDuration
    }

    /** The iterator's default size hint: nothing known. */
    function SizeHint(): (nat, Option<nat>)
    {
      (0, None)
    }

    /** The refill loop of `next`: the first decoded buffer with frames, or `None` when it stops. */
    method ReadDecoded() returns (d: Option<(SignalSpec, seq<Sample>)>)
      modifies this
      ensures packets == Refill(old(packets)).rest
      ensures d.None? <==> Refill(old(packets)).Stopped?
      ensures d.Some? ==> d.value == (Refill(old(packets)).spec, Refill(old(packets)).samples)
      ensures buffer == old(buffer) && offset == old(offset) && spec == old(spec) && Log() == old(Log())
    {
      d := None;
      var searching := true;
      while searching
        invariant searching ==> Refill(packets) == Refill(old(packets)) && d.None?
        invariant !searching ==> packets == Refill(old(packets)).rest && (d.None? <==> Refill(old(packets)).Stopped?)
        invariant !searching && d.Some? ==> d.value == (Refill(old(packets)).spec, Refill(old(packets)).samples)
        invariant buffer == old(buffer) && offset == old(offset) && spec == old(spec) && Log() == old(Log())
        decreases |packets|, searching
      {
        if packets == [] {
          searching := false;
        } else {
          match packets[0]
          case ReadErr(_) =>
            searching := false;
          case Packet(_, dec) =>
            match dec
            case DecodeFailed(e) =>
              packets := packets[1..];
              if e != DecodeErr {
                searching := false;
              }
            case Decoded(sp, frames, samples) =>
              packets := packets[1..];
              if frames > 0 {
                d := Some((sp, samples));
                searching := false;
              }
        }
      }
    }

    /**
     * `next`: the next sample of the current buffer; past its end, a refill
     * replaces buffer and spec and delivers the new buffer's first sample.
     * What it delivers is the head of `Remaining`, and it returns `None`
     * exactly when nothing remains.
     */
    method Next() returns (r: Option<Sample>)
      modifies this
      ensures Log() == old(Log())
      ensures old(offset) < |old(buffer)| ==>
        && r == Some(old(buffer)[old(offset)]) && offset == old(offset) + 1
        && buffer == old(buffer) && spec == old(spec) && packets == old(packets)
      ensures old(offset) >= |old(buffer)| && Refill(old(packets)).Stopped? ==>
        && r == None && packets == Refill(old(packets)).rest
        && buffer == old(buffer) && offset == old(offset) && spec == old(spec)
      ensures old(offset) >= |old(buffer)| && Refill(old(packets)).Filled? ==>
        && packets == Refill(old(packets)).rest
        && buffer == Refill(old(packets)).samples && spec == Refill(old(packets)).spec
        && r == (if buffer == [] then None else Some(buffer[0]))
        && offset == (if buffer == [] then 0 else 1)
      ensures r.None? <==> old(Remaining()) == []
      ensures r.Some? ==> old(Remaining()) == [r.value] + Remaining()
    {
      if offset < |buffer| {
        r := Some(buffer[offset]);
        offset := offset + 1;
        assert buffer[offset - 1..] == [buffer[offset - 1]] + buffer[offset..];
      } else {
        RefillAudio(packets);
        var d := ReadDecoded();
        if d.Some? {
          spec := d.value.0;
          buffer := d.value.1;
          offset := 0;
          if buffer != [] {
            r := Some(buffer[0]);
            offset := 1;
          } else {
            r := None;
          }
        } else {
          r := None;
        }
      }
    }

    /** Calls `next` `k` times; when at least `k` samples remain, exactly the first `k` are consumed. */
    method Skip(k: nat)
      modifies this
      ensures Log() == old(Log())
      ensures k <= |old(Remaining())| ==> Remaining() == old(Remaining())[k..]
    {
      for i := 0 to k
        invariant Log() == old(Log())
        invariant k <= |old(Remaining())| ==> Remaining() == old(Remaining())[i..]
      {
        var sample := Next();
      }
    }

    /** `refine_position`: skips the precomputed sample count rounded down to a whole frame. */
    method RefinePosition(rawSkip: nat)
      requires spec.channels > 0 && hasTimeBase
      modifies this
      ensures Log() == old(Log())
      ensures Align(rawSkip, old(spec.channels)) <= |old(Remaining())| ==>
        Remaining() == old(Remaining())[Align(rawSkip, old(spec.channels))..]
    {
      var skip := Align(rawSkip, spec.channels);
      Skip(skip);
    }

    /**
     * `try_seek` to `pos`, the demuxer answering `demux` and the refinement
     * asking to skip `rawSkip` samples before alignment. The result is
     * `SeekVerdict`; a failure changes nothing but the seek log. On success
     * the codec is reset, the stream restarts at the demuxer's new position
     * with the old buffer spent, and the refinement and the previous active
     * channel are skipped.
     */
    method TrySeek(pos: Duration, demux: DemuxSeek, rawSkip: nat) returns (r: SeekOutcome)
      modifies this
      ensures r == SeekVerdict(seekMode, hasTimeBase, old(spec.channels), demux)
      ensures seekTargets == old(seekTargets) +
        (if r == SeekPanic || r == SeekFailed(SymphoniaSeek(AccurateSeekNotSupported)) then [] else [Clamp(pos, totalDuration)])
      ensures !r.SeekOk? ==>
        buffer == old(buffer) && offset == old(offset) && spec == old(spec) && packets == old(packets) && resets == old(resets)
      ensures r.SeekOk? ==> resets == old(resets) + 1
      ensures r.SeekOk? ==>
        var start := Pending(old(buffer), USIZE_MAX) + Audio(demux.packets);
        var skip := SeekSkip(seekMode, rawSkip, old(offset), old(spec.channels));
        skip <= |start| ==> Remaining() == start[skip..]
    {
      if seekMode == Accurate && !hasTimeBase {
        r := SeekFailed(SymphoniaSeek(AccurateSeekNotSupported));
      } else if spec.channels == 0 {
        r := SeekPanic;
      } else {
        var target := Clamp(pos, totalDuration);
        var activeChannel := offset % spec.channels;
        seekTargets := seekTargets + [target];
        match demux
        case DemuxFailed(e) =>
          r := SeekFailed(SymphoniaSeek(DemuxFailure(e)));
        case DemuxDone(after) =>
          ghost var channels: Positive := spec.channels;
          ghost var oldOffset := offset;
          resets := resets + 1;
          packets := after;
          offset := USIZE_MAX;
          ghost var start := Remaining();
          ghost var refined := if seekMode == Accurate then Align(rawSkip, channels) else 0;
          if seekMode == Accurate {
            RefinePosition(rawSkip);
          }
          assert refined <= |start| ==> Remaining() == start[refined..];
          Skip(activeChannel);
          assert refined + activeChannel <= |start| ==> start[refined..][activeChannel..] == start[refined + activeChannel..];
          r := SeekOk;
      }
    }
  }

  /** `init`: the pure decisions of `InitSpec`, with the packet loop run step by step. */
  method Init(media: Media, coarseSeek: bool) returns (o: InitOutcome)
    ensures o == InitSpec(media, coarseSeek)
  {
    match media.probe
    case ProbeFailed(e) =>
      o := InitErr(e);
    case Probed(defaultTrack, tracks, packets) =>
      if defaultTrack.None? {
        o := InitNone;
      } else {
        var supported := FirstSupported(tracks);
        if supported.None? {
          o := InitErr(UnsupportedErr);
        } else {
          var trackId := tracks[supported.value].id;
          var found := FirstWithId(tracks, trackId);
          if found.None? {
            o := InitNone;
          } else if media.makeError.Some? {
            o := InitErr(media.makeError.value);
          } else {
            var track := tracks[found.value];
            var scan := ScanFirst(packets, trackId, track.params.spec);
            match scan
            case ScanFailed(e) =>
              o := InitErr(e);
            case ScanFound(spec, samples, rest) =>
              o := InitOk(samples, spec, rest, TotalDuration(defaultTrack.value.params),
                          track.params.timeBase.Some?, if coarseSeek then Coarse else Accurate);
          }
        }
      }
  }

  /** `init`'s packet loop, run read by read. */
  method ScanFirst(packets: seq<PacketRead>, trackId: nat, initial: SignalSpec) returns (r: ScanResult)
    ensures r == FirstDecoded(packets, trackId, initial)
  {
    var rest := packets;
    var scanning := true;
    r := ScanFound(initial, [], []);
    while scanning
      invariant scanning ==> FirstDecoded(rest, trackId, initial) == FirstDecoded(packets, trackId, initial)
      invariant !scanning ==> r == FirstDecoded(packets, trackId, initial)
      decreases |rest|, scanning
    {
      if rest == [] {
        r := ScanFound(initial, [], []);
        scanning := false;
      } else {
        match rest[0]
        case ReadErr(e) =>
          r := if e == IoErr then ScanFound(initial, [], rest) else ScanFailed(e);
          scanning := false;
        case Packet(t, d) =>
          if t != trackId {
            rest := rest[1..];
          } else {
            match d
            case Decoded(spec, _, samples) =>
              r := ScanFound(spec, samples, rest[1..]);
              scanning := false;
            case DecodeFailed(e) =>
              if e == DecodeErr {
                rest := rest[1..];
              } else {
                r := ScanFailed(e);
                scanning := false;
              }
          }
      }
    }
  }

  /** What `new` returns: a decoder, a `DecoderError`, or the panic of its `unreachable!`. */
  datatype NewResult = NewOk(decoder: SymphoniaDecoder) | NewErr(error: DecoderError) | NewPanic

  /** The samples a decoder fresh from `init` delivers before its first `None`. */
  function InitialStream(o: InitOutcome): seq<Sample>
    requires o.InitOk?
  {
    o.buffer + Audio(o.packets)
  }

  /**
   * `new`: errors are mapped by `MapInitError`, a seek error panics, a stream
   * without a usable track is `NoStreams`; otherwise a fresh decoder at offset
   * 0 that will deliver `InitialStream`.
   */
  method New(media: Media, coarseSeek: bool) returns (r: NewResult)
    ensures InitSpec(media, coarseSeek).InitErr? && InitSpec(media, coarseSeek).err.SeekErr? ==> r == NewPanic
    ensures InitSpec(media, coarseSeek).InitErr? && !InitSpec(media, coarseSeek).err.SeekErr? ==>
      r == NewErr(MapInitError(InitSpec(media, coarseSeek).err))
    ensures InitSpec(media, coarseSeek).InitNone? ==> r == NewErr(NoStreams)
    ensures InitSpec(media, coarseSeek).InitOk? ==>
      var o := InitSpec(media, coarseSeek);
      && r.NewOk? && fresh(r.decoder)
      && r.decoder.buffer == o.buffer && r.decoder.spec == o.spec && r.decoder.packets == o.packets
      && r.decoder.offset == 0 && r.decoder.totalDuration == o.totalDuration
      && r.decoder.hasTimeBase == o.hasTimeBase && r.decoder.seekMode == o.seekMode
      && r.decoder.resets == 0 && r.decoder.seekTargets == []
      && r.decoder.Remaining() == InitialStream(o)
  {
    var o := Init(media, coarseSeek);
    match o
    case InitErr(e) =>
      if e.SeekErr? {
        r := NewPanic;
      } else {
        r := NewErr(MapInitError(e));
      }
    case InitNone =>
      r := NewErr(NoStreams);
    case InitOk(buffer, spec, packets, totalDuration, hasTimeBase, seekMode) =>
      var d := new SymphoniaDecoder(buffer, spec, packets, totalDuration, hasTimeBase, seekMode);
      assert Pending(buffer, 0) == buffer;
      r := NewOk(d);
  }
}
