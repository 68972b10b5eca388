/**
 * The progressive downloader (src/loader/downloader.rs): a status machine
 * NotStarted -> Downloading -> Completed or Aborted, a one-shot `download`,
 * the Content-Length header, and the streaming task that feeds the boxed
 * `AppendableDataWrapper`. The HTTP exchange is an input: the request either fails or
 * answers with an optional Content-Length value, and the body is a sequence
 * of chunk results.
 */
module Downloader {
  import opened Common
  import opened Reader

  datatype DownloadStatus = NotStarted | Downloading | Completed | Aborted

  /** What the registered callback receives. */
  datatype DownloadEvent = HeaderReceived | Completed | Aborted

  /** The answer to the HTTP request: a send failure, or a response with its Content-Length value. */
  datatype Response = RequestFailed | Responded(contentLength: Option<string>)

  /** One item of the response body stream. */
  datatype ChunkResult = ChunkOk(bytes: seq<u8>) | ChunkErr

  /** `download`'s `Result<(), ()>`, plus the panic of a second call. */
  datatype DownloadResult = DownloadOk | DownloadErr | DownloadPanic

  /** `abort`'s `Result<(), DownloadStatus>`. */
  datatype AbortResult = AbortOk | AbortErr(status: DownloadStatus)

  /** The spawned streaming task: not yet spawned, running, or finished with `Ok` or `Err`. */
  datatype TaskState = NotSpawned | Running | Finished(ok: bool)

  predicate IsDigit(c: char)
  {
    '0' <= c <= '9'
  }

  predicate AllDigits(s: string)
  {
    forall i :: 0 <= i < |s| ==> IsDigit(s[i])
  }

  /** The value of a string of decimal digits. */
  function DecimalValue(ds: string): nat
    requires AllDigits(ds)
  {
    if ds == [] then 0
    else DecimalValue(ds[..|ds| - 1]) * 10 + ((ds[|ds| - 1] as int) - ('0' as int))
  }

  /**
   * `str::parse::<u64>`: an optional leading `+`, then at least one decimal
   * digit and nothing else, with a value that fits in 64 bits.
   */
  function ParseU64(s: string): (r: Option<nat>)
    ensures r.Some? ==> r.value < U64_MODULUS
    ensures r.Some? ==> |s| > 0 && (IsDigit(s[0]) || s[0] == '+')
  {
    var digits := if |s| > 0 && s[0] == '+' then s[1..] else s;
    if digits == [] || !AllDigits(digits) then None
    else if DecimalValue(digits) < U64_MODULUS then Some(DecimalValue(digits))
    else None
  }

  /** `total_bytes` after the headers arrive: the parsed Content-Length, 0 when absent or unparseable. */
  function ContentLength(header: Option<string>): (n: nat)
    ensures n < U64_MODULUS
    ensures header.None? ==> n == 0
    ensures header.Some? && ParseU64(header.value).None? ==> n == 0
  {
    match header
    case None => 0
    case Some(s) =>
      match ParseU64(s)
      case Some(v) => v
      case None => 0
  }

  /** The decimal rendering of `n`, as a server writes Content-Length. */
  function Decimal(n: nat): (s: string)
    ensures |s| > 0 && AllDigits(s)
  {
    if n < 10 then [('0' as int + n) as char]
    else Decimal(n / 10) + [('0' as int + n % 10) as char]
  }

  lemma {:induction false} DecimalValueOfDecimal(n: nat)
    ensures DecimalValue(Decimal(n)) == n
  {
    if n >= 10 {
      var s := Decimal(n);
      assert s[..|s| - 1] == Decimal(n / 10);
      DecimalValueOfDecimal(n / 10);
    }
  }

  /** A Content-Length written in decimal, with or without `+`, is read back as the same number. */
  lemma ContentLengthRoundTrip(n: nat)
    requires n < U64_MODULUS
    ensures ContentLength(Some(Decimal(n))) == n
    ensures ContentLength(Some("+" + Decimal(n))) == n
  {
    DecimalValueOfDecimal(n);
    assert ("+" + Decimal(n))[1..] == Decimal(n);
  }

  /** A negative or empty Content-Length counts as absent. */
  lemma ContentLengthRejectsSign(s: string)
    ensures ContentLength(Some("-" + s)) == 0
    ensures ContentLength(Some("")) == 0
    ensures ContentLength(Some("+")) == 0
  {
  }

  /** Number of leading `Ok` chunks: the stream items the streaming task appends before stopping on an error. */
  function OkRun(stream: seq<ChunkResult>): (k: nat)
    ensures k <= |stream|
    ensures forall j :: 0 <= j < k ==> stream[j].ChunkOk?
    ensures k < |stream| ==> stream[k].ChunkErr?
  {
    if stream == [] || stream[0].ChunkErr? then 0 else 1 + OkRun(stream[1..])
  }

  /** The bytes carried by the `Ok` items, in order. */
  function Payloads(items: seq<ChunkResult>): seq<u8>
  {
    if items == [] then []
    else
      var last := items[|items| - 1];
      Payloads(items[..|items| - 1]) + (if last.ChunkOk? then last.bytes else [])
  }

  /** The `append_data` calls the streaming task makes for the `Ok` items, in order. */
  function AppendCalls(items: seq<ChunkResult>): seq<WrapperCall>
  {
    if items == [] then []
    else
      var last := items[|items| - 1];
      AppendCalls(items[..|items| - 1]) + (if last.ChunkOk? then [AppendCall(last.bytes)] else [])
  }

  /** The wrapper is handed exactly the bytes of the `Ok` items, in order. */
  lemma {:induction false} AppendCallsCarryPayloads(items: seq<ChunkResult>)
    ensures AppendedBytes(AppendCalls(items)) == Payloads(items)
  {
    if items != [] {
      var init := items[..|items| - 1];
      var last := items[|items| - 1];
      AppendCallsCarryPayloads(init);
      var calls := AppendCalls(init) + (if last.ChunkOk? then [AppendCall(last.bytes)] else []);
      if last.ChunkOk? {
        assert calls[..|calls| - 1] == AppendCalls(init);
      } else {
        assert calls == AppendCalls(init);
      }
    }
  }

  /** How many stream items the streaming task consumes as chunks: none when aborting, else the leading `Ok` ones. */
  function Taken(stream: seq<ChunkResult>, abort: bool): (k: nat)
    ensures k <= OkRun(stream)
  {
    if abort then 0 else OkRun(stream)
  }

  /**
   * One more `Ok` item, taken while not aborting, is still among the items
   * the streaming task consumes, and extends the payload and the append calls by its
   * bytes.
   */
  lemma OkStep(stream: seq<ChunkResult>, i: nat, abort: bool, got: seq<u8>, calls: seq<WrapperCall>)
    requires i < |stream| && stream[i].ChunkOk? && !abort && i <= Taken(stream, abort)
    ensures i + 1 <= Taken(stream, abort)
    ensures got + Payloads(stream[..i]) + stream[i].bytes == got + Payloads(stream[..i + 1])
    ensures calls + AppendCalls(stream[..i]) + [AppendCall(stream[i].bytes)] == calls + AppendCalls(stream[..i + 1])
  {
    assert stream[..i + 1][..i] == stream[..i];
  }

  /** Where the streaming loop stops, in terms of the stream: after the leading `Ok` chunks, or at once when aborting. */
  lemma LoopExit(stream: seq<ChunkResult>, i: nat, stopped: bool, abort: bool)
    requires i <= Taken(stream, abort)
    requires stopped ==> i < |stream| && (abort || stream[i].ChunkErr?)
    requires !stopped ==> i >= |stream|
    ensures i == Taken(stream, abort)
    ensures !stopped <==> OkRun(stream) == |stream| && (abort ==> stream == [])
  {
  }

  /** Adding to a counter kept modulo 2^64. */
  lemma WrapAdd(a: nat, b: nat)
    ensures (a % U64_MODULUS + b) % U64_MODULUS == (a + b) % U64_MODULUS
  {
  }

  /** `Downloader`: the shared fields of the source, the streaming task's state and the callback log. */
  class Downloader {
    const data: BoxedWrapper
    const condvar: Condvar
    var status: DownloadStatus
    var totalBytes: nat
    var downloadedBytes: nat
    var downloadCalled: bool
    var shouldAbort: bool
    var downloadCompleted: bool
    /** Whether `thread_handle` holds the streaming task's handle. */
    var handle: bool
    var task: TaskState
    var callback: Option<ListenerId>
    /** Every callback invocation so far, in order. */
    var deliveries: seq<Delivery<DownloadEvent>>
    /** Every byte of every `Ok` chunk the streaming task has received. */
    ghost var received: seq<u8>

    ghost predicate Valid()
      reads this
    {
      && totalBytes < U64_MODULUS
      && downloadedBytes == |received| % U64_MODULUS
    }

    /** The fields the streaming task never writes: callback, abort flag, total, once-flag and task handle. */
    ghost function Untouched(): (Option<ListenerId>, bool, nat, bool, bool)
      reads this
    {
      (callback, shouldAbort, totalBytes, downloadCalled, handle)
    }

    /** `new`: nothing started, counters zero, flags clear, no callback. */
    constructor (data: BoxedWrapper)
      ensures Valid() && this.data == data && fresh(condvar) && condvar.notifications == 0
      ensures status == NotStarted && totalBytes == 0 && downloadedBytes == 0
      ensures !downloadCalled && !shouldAbort && !downloadCompleted && !handle
      ensures task == NotSpawned && callback == None && deliveries == [] && received == []
    {
      this.data := data;
      condvar := new Condvar();
      status := NotStarted;
      totalBytes := 0;
      downloadedBytes := 0;
      downloadCalled := false;
      shouldAbort := false;
      downloadCompleted := false;
      handle := false;
      task := NotSpawned;
      callback := None;
      deliveries := [];
      received := [];
    }

    /** `handle_message`: the new callback replaces any previous one. */
    method HandleMessage(id: ListenerId)
      modifies this
      ensures callback == Some(id)
      ensures status == old(status) && deliveries == old(deliveries) && task == old(task)
      ensures totalBytes == old(totalBytes) && downloadedBytes == old(downloadedBytes) && received == old(received)
      ensures downloadCalled == old(downloadCalled) && shouldAbort == old(shouldAbort)
      ensures downloadCompleted == old(downloadCompleted) && handle == old(handle)
    {
      callback := Some(id);
    }

    /**
     * `download`: a second call panics. The first moves to `Downloading`; a
     * failed request then aborts with an `Aborted` event and `Err`; otherwise
     * the Content-Length is stored and passed to `set_capacity`,
     * `HeaderReceived` fired and the streaming task spawned.
     */
    method Download(response: Response) returns (r: DownloadResult)
      requires Valid()
      modifies this, data
      ensures Valid() && downloadCalled
      ensures callback == old(callback) && shouldAbort == old(shouldAbort) && downloadCompleted == old(downloadCompleted)
      ensures downloadedBytes == old(downloadedBytes) && received == old(received)
      ensures old(downloadCalled) ==>
        && r == DownloadPanic && status == old(status) && totalBytes == old(totalBytes)
        && deliveries == old(deliveries) && task == old(task) && handle == old(handle)
        && data.calls == old(data.calls)
      ensures !old(downloadCalled) && response.RequestFailed? ==>
        && r == DownloadErr && status == DownloadStatus.Aborted && totalBytes == old(totalBytes)
        && deliveries == old(deliveries) + Notify(callback, DownloadEvent.Aborted)
        && task == old(task) && handle == old(handle) && data.calls == old(data.calls)
      ensures !old(downloadCalled) && response.Responded? ==>
        && r == DownloadOk && status == Downloading && task == Running && handle
        && totalBytes == ContentLength(response.contentLength)
        && data.calls == old(data.calls) + [SetCapacityCall(totalBytes)]
        && deliveries == old(deliveries) + Notify(callback, DownloadEvent.HeaderReceived)
    {
      if downloadCalled {
        r := DownloadPanic;
      } else {
        downloadCalled := true;
        status := Downloading;
        match response
        case RequestFailed =>
          status := DownloadStatus.Aborted;
          deliveries := deliveries + Notify(callback, DownloadEvent.Aborted);
          r := DownloadErr;
        case Responded(header) =>
          totalBytes := ContentLength(header);
          data.SetCapacity(totalBytes);
          deliveries := deliveries + Notify(callback, DownloadEvent.HeaderReceived);
          task := Running;
          handle := true;
          r := DownloadOk;
      }
    }

    /**
     * The spawned task, run over the whole body stream. Before each item it
     * checks `should_abort`; each `Ok` chunk is appended to the buffer, wakes
     * the readers and is counted (with `u64` wrap-around); an error chunk or
     * the abort flag ends the streaming task with `Aborted`. At the end of the stream
     * the buffer is completed, the status becomes `Completed`, the readers
     * are woken and `Completed` is fired.
     */
    method RunTask(stream: seq<ChunkResult>) returns (ok: bool)
      requires Valid() && task == Running
      modifies this, data, condvar
      ensures Valid() && task == Finished(ok)
      ensures Untouched() == old(Untouched())
      ensures ok <==> OkRun(stream) == |stream| && (shouldAbort ==> stream == [])
      ensures var taken := Taken(stream, shouldAbort);
        && received == old(received) + Payloads(stream[..taken])
        && downloadedBytes == (old(downloadedBytes) + |Payloads(stream[..taken])|) % U64_MODULUS
        && data.calls == old(data.calls) + AppendCalls(stream[..taken]) + (if ok then [CompleteCall] else [])
        && condvar.notifications == old(condvar.notifications) + taken + (if ok then 1 else 0)
      ensures ok ==>
        && status == DownloadStatus.Completed && downloadCompleted
        && deliveries == old(deliveries) + Notify(callback, DownloadEvent.Completed)
      ensures !ok ==>
        && status == DownloadStatus.Aborted && downloadCompleted == old(downloadCompleted)
        && deliveries == old(deliveries) + Notify(callback, DownloadEvent.Aborted)
    {
      var stopped := StreamLoop(stream);
      if !stopped {
        FinishCompleted();
      }
      ok := !stopped;
      task := Finished(ok);
    }

    /** The streaming task's `while let` loop over the body stream, up to the first abort or error exit. */
    method StreamLoop(stream: seq<ChunkResult>) returns (stopped: bool)
      requires Valid()
      modifies this, data, condvar
      ensures Valid() && task == old(task)
      ensures Untouched() == old(Untouched())
      ensures downloadCompleted == old(downloadCompleted)
      ensures !stopped <==> OkRun(stream) == |stream| && (shouldAbort ==> stream == [])
      ensures var taken := Taken(stream, shouldAbort);
        && received == old(received) + Payloads(stream[..taken])
        && downloadedBytes == (old(downloadedBytes) + |Payloads(stream[..taken])|) % U64_MODULUS
        && data.calls == old(data.calls) + AppendCalls(stream[..taken])
        && condvar.notifications == old(condvar.notifications) + taken
      ensures !stopped ==> status == old(status) && deliveries == old(deliveries)
      ensures stopped ==>
        status == DownloadStatus.Aborted && deliveries == old(deliveries) + Notify(callback, DownloadEvent.Aborted)
    {
      var i := ReceiveOkRun(stream);
      stopped := i < |stream|;
      LoopExit(stream, i, stopped, shouldAbort);
      ghost var payload := Payloads(stream[..i]);
      WrapAdd(|old(received)|, |payload|);
      if stopped {
        StopAborted();
      }
    }

    /**
     * The iterations of that loop that take an `Ok` chunk: it runs while the
     * abort flag is clear and the next item is `Ok`, and returns how many
     * items it consumed.
     */
    method ReceiveOkRun(stream: seq<ChunkResult>) returns (i: nat)
      requires Valid()
      modifies this, data, condvar
      ensures i == Taken(stream, shouldAbort)
      ensures Valid() && task == old(task)
      ensures Untouched() == old(Untouched())
      ensures downloadCompleted == old(downloadCompleted)
      ensures received == old(received) + Payloads(stream[..i])
      ensures data.calls == old(data.calls) + AppendCalls(stream[..i])
      ensures condvar.notifications == old(condvar.notifications) + i
      ensures status == old(status) && deliveries == old(deliveries)
    {
      i := 0;
      while i < |stream| && !shouldAbort && stream[i].ChunkOk?
        invariant i <= Taken(stream, shouldAbort)
        invariant Valid() && task == old(task)
        invariant Untouched() == old(Untouched())
        invariant downloadCompleted == old(downloadCompleted)
        invariant received == old(received) + Payloads(stream[..i])
        invariant data.calls == old(data.calls) + AppendCalls(stream[..i])
        invariant condvar.notifications == old(condvar.notifications) + i
        invariant status == old(status) && deliveries == old(deliveries)
      {
        ReceiveChunk(stream[i].bytes);
        OkStep(stream, i, shouldAbort, old(received), old(data.calls));
        i := i + 1;
      }
    }

    /** One `Ok` chunk: appended to the buffer, readers woken, the counter advanced with wrap-around. */
    method ReceiveChunk(bytes: seq<u8>)
      requires Valid()
      modifies this, data, condvar
      ensures Valid()
      ensures received == old(received) + bytes
      ensures downloadedBytes == (old(downloadedBytes) + |bytes|) % U64_MODULUS
      ensures data.calls == old(data.calls) + [AppendCall(bytes)]
      ensures condvar.notifications == old(condvar.notifications) + 1
      ensures status == old(status) && deliveries == old(deliveries) && task == old(task)
      ensures Untouched() == old(Untouched()) && downloadCompleted == old(downloadCompleted)
    {
      data.AppendData(bytes);
      condvar.NotifyAll();
      downloadedBytes := (downloadedBytes + |bytes|) % U64_MODULUS;
      received := received + bytes;
    }

    /** The streaming task's abort exit: status `Aborted` and an `Aborted` event. */
    method StopAborted()
      modifies this
      ensures status == DownloadStatus.Aborted
      ensures deliveries == old(deliveries) + Notify(callback, DownloadEvent.Aborted)
      ensures received == old(received) && downloadedBytes == old(downloadedBytes) && task == old(task)
      ensures Untouched() == old(Untouched()) && downloadCompleted == old(downloadCompleted)
    {
      status := DownloadStatus.Aborted;
      deliveries := deliveries + Notify(callback, DownloadEvent.Aborted);
    }

    /** The streaming task's end of stream: buffer completed, `Completed` status and flag, readers woken, `Completed` event. */
    method FinishCompleted()
      requires Valid()
      modifies this, data, condvar
      ensures Valid()
      ensures status == DownloadStatus.Completed && downloadCompleted
      ensures data.calls == old(data.calls) + [CompleteCall]
      ensures condvar.notifications == old(condvar.notifications) + 1
      ensures deliveries == old(deliveries) + Notify(callback, DownloadEvent.Completed)
      ensures received == old(received) && downloadedBytes == old(downloadedBytes) && task == old(task)
      ensures Untouched() == old(Untouched())
    {
      data.Complete();
      status := DownloadStatus.Completed;
      downloadCompleted := true;
      condvar.NotifyAll();
      deliveries := deliveries + Notify(callback, DownloadEvent.Completed);
    }

    /**
     * `abort`: refused with the current status unless downloading; otherwise
     * raises the abort flag, takes and cancels the streaming task handle and moves to
     * `Aborted`.
     */
    method Abort() returns (r: AbortResult)
      modifies this
      ensures old(status) != Downloading ==>
        && r == AbortErr(old(status)) && status == old(status)
        && shouldAbort == old(shouldAbort) && handle == old(handle)
      ensures old(status) == Downloading ==>
        r == AbortOk && status == DownloadStatus.Aborted && shouldAbort && !handle
      ensures callback == old(callback) && deliveries == old(deliveries) && task == old(task)
      ensures totalBytes == old(totalBytes) && downloadedBytes == old(downloadedBytes) && received == old(received)
      ensures downloadCalled == old(downloadCalled) && downloadCompleted == old(downloadCompleted)
    {
      if status != Downloading {
        r := AbortErr(status);
      } else {
        shouldAbort := true;
        handle := false;
        status := DownloadStatus.Aborted;
        r := AbortOk;
      }
    }

    /** `drop`: whatever the status, raises the abort flag, cancels the streaming task and moves to `Aborted`. */
    method Drop()
      modifies this
      ensures status == DownloadStatus.Aborted && shouldAbort && !handle
      ensures callback == old(callback) && deliveries == old(deliveries) && task == old(task)
      ensures totalBytes == old(totalBytes) && downloadedBytes == old(downloadedBytes) && received == old(received)
      ensures downloadCalled == old(downloadCalled) && downloadCompleted == old(downloadCompleted)
    {
      shouldAbort := true;
      handle := false;
      status := DownloadStatus.Aborted;
    }
  }

  /**
   * `download` runs at most once: on a fresh downloader the first call
   * returns normally, whatever the response, and the second call panics.
   */
  method DownloadTwice(d: Downloader, response: Response, again: Response) returns (first: DownloadResult, second: DownloadResult)
    requires d.Valid()
    modifies d, d.data
    ensures first == DownloadPanic <==> old(d.downloadCalled)
    ensures second == DownloadPanic
  {
    first := d.Download(response);
    second := d.Download(again);
  }
}
