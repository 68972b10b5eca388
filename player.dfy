/**
 * The player (src/player.rs): forwards controls to an audio sink, reports
 * each action to its single registered callback, and on every load resets
 * the sink, the reported duration and the bindings of the previous download.
 * The rodio sink is opaque: it is observed through the commands it receives,
 * and its answer to a seek is an input. The audio source being loaded is
 * observed through its identity and its total duration, and whether decoding
 * it succeeds is an input.
 */
module Player {
  import opened Common
  import opened Reader
  import opened MutexVecBytes
  import opened Downloader
  import opened Events

  /** A `Source` handed to the player. */
  datatype AudioSource = AudioSource(id: nat, totalDuration: Option<Duration>)

  /** rodio's `SeekError`, kept opaque. */
  datatype SeekAnswer = SeekDone | SeekRefused(reason: nat)

  /** The commands a sink receives. Volumes are passed on as given. */
  datatype SinkCommand =
    | SinkPlay
    | SinkPause
    | SinkTrySeek(position: Duration)
    | SinkSetVolume(volume: real)
    | SinkStop
    | SinkAppend(source: AudioSource)

  /**
   * rodio's `Sink`, observed through the commands it receives and the two
   * settings it reports back: whether it is paused and its volume. A sink is
   * created playing, at volume 1.
   */
  class Sink {
    var commands: seq<SinkCommand>
    var paused: bool
    var volume: real

    constructor ()
      ensures commands == [] && !paused && volume == 1.0
    {
      commands := [];
      paused := false;
      volume := 1.0;
    }

    method Play()
      modifies this
      ensures commands == old(commands) + [SinkPlay] && !paused && volume == old(volume)
    {
      commands := commands + [SinkPlay];
      paused := false;
    }

    method Pause()
      modifies this
      ensures commands == old(commands) + [SinkPause] && paused && volume == old(volume)
    {
      commands := commands + [SinkPause];
      paused := true;
    }

    method SetVolume(v: real)
      modifies this
      ensures commands == old(commands) + [SinkSetVolume(v)] && paused == old(paused) && volume == v
    {
      commands := commands + [SinkSetVolume(v)];
      volume := v;
    }

    method Stop()
      modifies this
      ensures commands == old(commands) + [SinkStop] && paused == old(paused) && volume == old(volume)
    {
      commands := commands + [SinkStop];
    }

    method Append(source: AudioSource)
      modifies this
      ensures commands == old(commands) + [SinkAppend(source)] && paused == old(paused) && volume == old(volume)
    {
      commands := commands + [SinkAppend(source)];
    }

    /** `try_seek`: recorded; the answer is the sink's own. */
    method TrySeek(position: Duration, answer: SeekAnswer) returns (r: SeekAnswer)
      modifies this
      ensures r == answer
      ensures commands == old(commands) + [SinkTrySeek(position)] && paused == old(paused) && volume == old(volume)
    {
      commands := commands + [SinkTrySeek(position)];
      r := answer;
    }
  }

  /**
   * `PlayerControl`: the sink and the duration reported for the loaded
   * source. Its controls are the sink's own; `duration` is the stored value.
   */
  class PlayerControl {
    var sink: Sink
    var duration: Option<Duration>

    constructor (sink: Sink)
      ensures this.sink == sink && duration == None
    {
      this.sink := sink;
      duration := None;
    }

    method Play()
      modifies sink
      ensures sink.commands == old(sink.commands) + [SinkPlay] && !sink.paused && sink.volume == old(sink.volume)
    {
      sink.Play();
    }

    method Pause()
      modifies sink
      ensures sink.commands == old(sink.commands) + [SinkPause] && sink.paused && sink.volume == old(sink.volume)
    {
      sink.Pause();
    }

    method Seek(position: Duration, answer: SeekAnswer) returns (r: SeekAnswer)
      modifies sink
      ensures r == answer
      ensures sink.commands == old(sink.commands) + [SinkTrySeek(position)]
      ensures sink.paused == old(sink.paused) && sink.volume == old(sink.volume)
    {
      r := sink.TrySeek(position, answer);
    }

    method SetVolume(v: real)
      modifies sink
      ensures sink.commands == old(sink.commands) + [SinkSetVolume(v)]
      ensures sink.paused == old(sink.paused) && sink.volume == v
    {
      sink.SetVolume(v);
    }

    method Stop()
      modifies sink
      ensures sink.commands == old(sink.commands) + [SinkStop]
      ensures sink.paused == old(sink.paused) && sink.volume == old(sink.volume)
    {
      sink.Stop();
    }

    method Paused() returns (p: bool)
      ensures p == sink.paused
    {
      p := sink.paused;
    }

    method Volume() returns (v: real)
      ensures v == sink.volume
    {
      v := sink.volume;
    }

    method Duration() returns (d: Option<Duration>)
      ensures d == duration
    {
      d := duration;
    }
  }

  /** The outcome of `load_url`: `Ok`, `Err`, or the panic of its `unwrap` on a failed decode. */
  datatype LoadResult = LoadOk | LoadErr | LoadPanic

  /** The chunk size `load_url` gives its download buffer: 256 KiB. */
  const URL_CHUNK_SIZE: nat := 256 * 1024

  class Player {
    /** The `Arc<RwLock<PlayerControl>>`: one cell whose contents `clear` overwrites. */
    const control: PlayerControl
    var condvar: Option<Condvar>
    var cancellationToken: Option<CancellationToken>
    var downloader: Option<Downloader>
    var callback: Option<ListenerId>
    /** Every callback invocation so far, in order. */
    var events: seq<Delivery<PlayerEvent>>

    /** The objects the player holds bindings to and signals when it lets them go. */
    function Bound(): set<object>
      reads this
    {
      (if cancellationToken.Some? then {cancellationToken.value} else {})
      + (if condvar.Some? then {condvar.value} else {})
      + (if downloader.Some? then {downloader.value} else {})
    }

    /** `new`: a fresh sink, no duration, no bindings, no callback. */
    constructor ()
      ensures fresh(control) && fresh(control.sink) && control.sink.commands == [] && control.duration == None
      ensures !control.sink.paused && control.sink.volume == 1.0
      ensures condvar == None && cancellationToken == None && downloader == None
      ensures callback == None && events == []
    {
      var sink := new Sink();
      control := new PlayerControl(sink);
      condvar := None;
      cancellationToken := None;
      downloader := None;
      callback := None;
      events := [];
    }

    /** `emit`: delivered to the registered callback, if any. */
    method Emit(e: PlayerEvent)
      modifies this
      ensures events == old(events) + Notify(callback, e)
      ensures callback == old(callback) && condvar == old(condvar)
      ensures cancellationToken == old(cancellationToken) && downloader == old(downloader)
    {
      events := events + Notify(callback, e);
    }

    /** `handle_message`: the new callback replaces any previous one. */
    method HandleMessage(id: ListenerId)
      modifies this
      ensures callback == Some(id) && events == old(events)
      ensures condvar == old(condvar) && cancellationToken == old(cancellationToken) && downloader == old(downloader)
    {
      callback := Some(id);
    }

    /** `play`: forwarded to the sink, then `Play` emitted, whatever the state. */
    method Play()
      modifies this, control.sink
      ensures control.sink.commands == old(control.sink.commands) + [SinkPlay]
      ensures !control.sink.paused && control.sink.volume == old(control.sink.volume)
      ensures events == old(events) + Notify(callback, PlayerEvent.Play)
      ensures callback == old(callback) && condvar == old(condvar)
      ensures cancellationToken == old(cancellationToken) && downloader == old(downloader)
    {
      control.Play();
      Emit(PlayerEvent.Play);
    }

    /** `pause`: forwarded to the sink, then `Pause` emitted, whatever the state. */
    method Pause()
      modifies this, control.sink
      ensures control.sink.commands == old(control.sink.commands) + [SinkPause]
      ensures control.sink.paused && control.sink.volume == old(control.sink.volume)
      ensures events == old(events) + Notify(callback, PlayerEvent.Pause)
      ensures callback == old(callback) && condvar == old(condvar)
      ensures cancellationToken == old(cancellationToken) && downloader == old(downloader)
    {
      control.Pause();
      Emit(PlayerEvent.Pause);
    }

    /**
     * `seek`: `Seeking` is emitted before the sink is asked; a refusal is
     * returned with no further event, a success emits `Seeked`.
     */
    method Seek(position: Duration, answer: SeekAnswer) returns (r: SeekAnswer)
      modifies this, control.sink
      ensures r == answer
      ensures control.sink.commands == old(control.sink.commands) + [SinkTrySeek(position)]
      ensures control.sink.paused == old(control.sink.paused) && control.sink.volume == old(control.sink.volume)
      ensures events == old(events) + Notify(callback, PlayerEvent.Seeking)
        + (if answer.SeekDone? then Notify(callback, PlayerEvent.Seeked) else [])
      ensures callback == old(callback) && condvar == old(condvar)
      ensures cancellationToken == old(cancellationToken) && downloader == old(downloader)
    {
      Emit(PlayerEvent.Seeking);
      r := control.Seek(position, answer);
      if r.SeekDone? {
        Emit(PlayerEvent.Seeked);
      }
    }

    /** `set_volume`: the value goes to the sink unchanged and `VolumeChange` is emitted on every call. */
    method SetVolume(volume: real)
      modifies this, control.sink
      ensures control.sink.commands == old(control.sink.commands) + [SinkSetVolume(volume)]
      ensures control.sink.paused == old(control.sink.paused) && control.sink.volume == volume
      ensures events == old(events) + Notify(callback, PlayerEvent.VolumeChange)
      ensures callback == old(callback) && condvar == old(condvar)
      ensures cancellationToken == old(cancellationToken) && downloader == old(downloader)
    {
      control.SetVolume(volume);
      Emit(PlayerEvent.VolumeChange);
    }

    /** `duration`, read through the control. */
    method Duration() returns (d: Option<Duration>)
      ensures d == control.duration
    {
      d := control.Duration();
    }

    /** `paused`, read through the control from the sink. */
    method Paused() returns (p: bool)
      ensures p == control.sink.paused
    {
      p := control.Paused();
    }

    /** `volume`, read through the control from the sink. */
    method Volume() returns (v: real)
      ensures v == control.sink.volume
    {
      v := control.Volume();
    }

    /**
     * `clear`: the control is overwritten with a fresh sink and no duration;
     * a held downloader is dropped, which aborts it; a held cancellation token
     * is cancelled and a held condition variable notified; all three bindings
     * are emptied.
     */
    method Clear()
      modifies this, control, Bound()
      ensures fresh(control.sink) && control.sink.commands == [] && control.duration == None
      ensures !control.sink.paused && control.sink.volume == 1.0
      ensures downloader == None && cancellationToken == None && condvar == None
      ensures old(downloader).Some? ==>
        old(downloader).value.status == DownloadStatus.Aborted && old(downloader).value.shouldAbort
      ensures old(cancellationToken).Some? ==> old(cancellationToken).value.cancelled
      ensures old(condvar).Some? ==>
        old(condvar).value.notifications == old(condvar.value.notifications) + 1
      ensures callback == old(callback) && events == old(events)
    {
      var sink := new Sink();
      control.sink := sink;
      control.duration := None;
      if downloader.Some? {
        downloader.value.Drop();
      }
      downloader := None;
      if cancellationToken.Some? {
        cancellationToken.value.Cancel();
      }
      cancellationToken := None;
      if condvar.Some? {
        condvar.value.NotifyAll();
      }
      condvar := None;
    }

    /** `stop`: the sink is stopped, the player cleared, and one `DurationChange` emitted. */
    method Stop()
      modifies this, control, control.sink, Bound()
      ensures old(control.sink).commands == old(control.sink.commands) + [SinkStop]
      ensures fresh(control.sink) && control.sink.commands == [] && control.duration == None
      ensures !control.sink.paused && control.sink.volume == 1.0
      ensures downloader == None && cancellationToken == None && condvar == None
      ensures old(cancellationToken).Some? ==> old(cancellationToken).value.cancelled
      ensures old(downloader).Some? ==>
        old(downloader).value.status == DownloadStatus.Aborted && old(downloader).value.shouldAbort
      ensures old(condvar).Some? ==>
        old(condvar).value.notifications == old(condvar.value.notifications) + 1
      ensures events == old(events) + Notify(callback, PlayerEvent.DurationChange)
      ensures callback == old(callback)
    {
      control.Stop();
      Clear();
      Emit(PlayerEvent.DurationChange);
    }

    /** `drop`: the sink is stopped and the player cleared; nothing is emitted. */
    method Drop()
      modifies this, control, control.sink, Bound()
      ensures old(control.sink).commands == old(control.sink.commands) + [SinkStop]
      ensures fresh(control.sink) && control.sink.commands == [] && control.duration == None
      ensures !control.sink.paused && control.sink.volume == 1.0
      ensures downloader == None && cancellationToken == None && condvar == None
      ensures old(cancellationToken).Some? ==> old(cancellationToken).value.cancelled
      ensures old(downloader).Some? ==>
        old(downloader).value.status == DownloadStatus.Aborted && old(downloader).value.shouldAbort
      ensures old(condvar).Some? ==>
        old(condvar).value.notifications == old(condvar.value.notifications) + 1
      ensures events == old(events) && callback == old(callback)
    {
      control.Stop();
      Clear();
    }

    /**
     * `load_source`: the old sink is stopped and the player cleared; the
     * duration becomes the source's total duration, one `DurationChange` is
     * emitted after the reset, and the source is appended to the new sink.
     */
    method LoadSource(source: AudioSource)
      modifies this, control, control.sink, Bound()
      ensures old(control.sink).commands == old(control.sink.commands) + [SinkStop]
      ensures fresh(control.sink) && control.sink.commands == [SinkAppend(source)]
      ensures !control.sink.paused && control.sink.volume == 1.0
      ensures control.duration == source.totalDuration
      ensures downloader == None && cancellationToken == None && condvar == None
      ensures old(cancellationToken).Some? ==> old(cancellationToken).value.cancelled
      ensures old(downloader).Some? ==>
        old(downloader).value.status == DownloadStatus.Aborted && old(downloader).value.shouldAbort
      ensures old(condvar).Some? ==>
        old(condvar).value.notifications == old(condvar.value.notifications) + 1
      ensures events == old(events) + Notify(callback, PlayerEvent.DurationChange)
      ensures callback == old(callback)
    {
      control.Stop();
      Clear();
      control.duration := source.totalDuration;
      Emit(PlayerEvent.DurationChange);
      control.sink.Append(source);
    }

    /** `load`: decoding the reader fails with nothing changed, or the decoded source is loaded. */
    method Load(decoded: Option<AudioSource>) returns (ok: bool)
      modifies this, control, control.sink, Bound()
      ensures ok <==> decoded.Some?
      ensures !ok ==>
        && control.sink == old(control.sink) && control.sink.commands == old(control.sink.commands)
        && control.duration == old(control.duration) && events == old(events)
        && downloader == old(downloader) && cancellationToken == old(cancellationToken) && condvar == old(condvar)
      ensures ok ==>
        && fresh(control.sink) && control.sink.commands == [SinkAppend(decoded.value)]
        && control.duration == decoded.value.totalDuration
        && downloader == None && cancellationToken == None && condvar == None
        && events == old(events) + Notify(callback, PlayerEvent.DurationChange)
      ensures ok ==> old(control.sink).commands == old(control.sink.commands) + [SinkStop]
      ensures ok && old(cancellationToken).Some? ==> old(cancellationToken).value.cancelled
      ensures ok && old(downloader).Some? ==>
        old(downloader).value.status == DownloadStatus.Aborted && old(downloader).value.shouldAbort
      ensures ok && old(condvar).Some? ==>
        old(condvar).value.notifications == old(condvar.value.notifications) + 1
      ensures callback == old(callback)
    {
      if decoded.Some? {
        LoadSource(decoded.value);
        ok := true;
      } else {
        ok := false;
      }
    }

    /**
     * `load_url`: a 256 KiB-chunk buffer and a downloader are made and the
     * download started; its failure is returned with the player untouched.
     * Otherwise a reader is made on the buffer, the stream loaded (a failed
     * decode panics on `unwrap`), and only then are the condition variable,
     * the downloader and the reader's cancellation token bound, so the reset
     * inside `load` does not erase them.
     */
    method LoadUrl(response: Response, decoded: Option<AudioSource>) returns (r: LoadResult)
      modifies this, control, control.sink, Bound()
      ensures response.RequestFailed? ==>
        && r == LoadErr
        && control.sink == old(control.sink) && control.sink.commands == old(control.sink.commands)
        && control.duration == old(control.duration) && events == old(events)
        && downloader == old(downloader) && cancellationToken == old(cancellationToken) && condvar == old(condvar)
      ensures response.Responded? && decoded.None? ==> r == LoadPanic
      ensures response.Responded? && decoded.Some? ==>
        && r == LoadOk
        && control.duration == decoded.value.totalDuration
        && control.sink.commands == [SinkAppend(decoded.value)]
        && events == old(events) + Notify(callback, PlayerEvent.DurationChange)
        && downloader.Some? && fresh(downloader.value)
        && downloader.value.status == Downloading && downloader.value.task == Running
        && condvar == Some(downloader.value.condvar)
        && cancellationToken.Some? && fresh(cancellationToken.value) && !cancellationToken.value.cancelled
      ensures response.Responded? && decoded.Some? ==>
        old(control.sink).commands == old(control.sink.commands) + [SinkStop]
      ensures response.Responded? && decoded.Some? && old(cancellationToken).Some? ==>
        old(cancellationToken).value.cancelled
      ensures response.Responded? && decoded.Some? && old(downloader).Some? ==>
        old(downloader).value.status == DownloadStatus.Aborted && old(downloader).value.shouldAbort
      ensures response.Responded? && decoded.Some? && old(condvar).Some? ==>
        old(condvar).value.notifications == old(condvar.value.notifications) + 1
      ensures callback == old(callback)
    {
      var wrapper, d, started := StartDownload(response);
      if started == DownloadErr {
        r := LoadErr;
      } else {
        var reader := new MVecBytesReader(wrapper, d.condvar);
        var token := reader.token;
        var ok := Load(decoded);
        if !ok {
          r := LoadPanic;
        } else {
          condvar := Some(d.condvar);
          downloader := Some(d);
          cancellationToken := Some(token);
          r := LoadOk;
        }
      }
    }
  }

  /**
   * The first steps of `load_url`: a 256 KiB-chunk buffer, a downloader
   * whose writes are logged apart from that buffer, and the download
   * started. Nothing that existed before is touched.
   */
  method StartDownload(response: Response) returns (wrapper: MVecBytesWrapper, d: Downloader, started: DownloadResult)
    ensures fresh(wrapper) && fresh(d)
    ensures started == DownloadErr <==> response.RequestFailed?
    ensures response.Responded? ==> d.status == Downloading && d.task == Running
  {
    wrapper := new MVecBytesWrapper(URL_CHUNK_SIZE);
    var boxed := new BoxedWrapper();
    d := new Downloader(boxed);
    started := d.Download(response);
  }

  /** After `load_source`, the player reports the loaded source's total duration. */
  method DurationAfterLoad(p: Player, source: AudioSource) returns (d: Option<Duration>)
    modifies p, p.control, p.control.sink, p.Bound()
    ensures d == source.totalDuration
  {
    p.LoadSource(source);
    d := p.Duration();
  }

  /** After `pause`, the player reports itself paused; after `play`, not. */
  method PausedAfterPause(p: Player) returns (before: bool, after: bool)
    modifies p, p.control.sink
    ensures before && !after
  {
    p.Pause();
    before := p.Paused();
    p.Play();
    after := p.Paused();
  }

  /** The volume reported is the last one set, and a new load resets it to 1. */
  method VolumeAfterLoad(p: Player, v: real, source: AudioSource) returns (current: real, reloaded: real)
    modifies p, p.control, p.control.sink, p.Bound()
    ensures current == v && reloaded == 1.0
  {
    p.SetVolume(v);
    current := p.Volume();
    p.LoadSource(source);
    reloaded := p.Volume();
  }

  /** After `stop`, the player reports no duration. */
  method DurationAfterStop(p: Player) returns (d: Option<Duration>)
    modifies p, p.control, p.control.sink, p.Bound()
    ensures d == None
  {
    p.Stop();
    d := p.Duration();
  }
}
