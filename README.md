# remu-audio core, modelled in Dafny

This project models the playback core of remu-audio, a Rust audio player that
plays local sources and progressively downloaded URLs:

- **Download buffers.** A flat buffer (`MVecU8Wrapper`/`MVecU8Reader`) and a
  chunked one (`MVecBytesWrapper`/`MVecBytesReader`). The downloader appends
  bytes to them while a decoder reads them back through `Read + Seek`.
- **The downloader.** A one-shot `download` whose streaming task feeds a boxed
  `AppendableDataWrapper` and reports `HeaderReceived`, `Completed` or
  `Aborted` to a single registered callback.
- **The player.** It forwards controls to an audio sink, reports every action to
  its callback, and resets the sink and the bindings of the previous download
  on each load.
- **The decoders.** The symphonia-backed decoder (`init`, `next`, `try_seek`,
  `refine_position`), its `Decoder` front end, and the `LoopedDecoder`, which
  restarts the stream from byte 0 when it runs dry.

One Dafny module stands for each source file:

| Module | Source | Contents |
|---|---|---|
| `Common` | shared | Bytes, `Option`, the flattening of chunk lists (`Concat`) and callback deliveries. |
| `Reader` | `src/reader/mod.rs` | Seek arithmetic, read outcomes, the cancellation token, the condition variable, and the boxed wrapper seen as a call log. |
| `MutexVecU8` | `src/reader/mutex_vec_u8.rs` | The flat buffer. |
| `MutexVecBytes` | `src/reader/mutex_vec_bytes.rs` | The chunked buffer. |
| `Downloader` | `src/loader/downloader.rs` | The downloader. |
| `Player` | `src/player.rs` | The player. |
| `Symphonia` | `src/decoder/symphonia.rs` | The symphonia-backed decoder. |
| `Decoding` | `src/decoder/mod.rs` | The `Decoder` and `LoopedDecoder` front ends. |
| `Events` | `src/events.rs`, `src/loader/mod.rs` | Event enums. |

Shared objects become shared class instances, so the aliasing between a
wrapper and its reader is explicit. These are the `Arc<Mutex<..>>` store, the
`Arc<Condvar>` and the cancellation token.

Some behaviour has no value of its own in the model:

- A condition-variable wait inside `read` is the result `WouldBlock`.
- A Rust panic is an explicit `Panic`/`DownloadPanic`/`LoadPanic`/`SeekPanic`
  outcome.
- `u64` and `i64` wrap-around is written out modulo 2^64.

What the code cannot see becomes a parameter:

- the HTTP response and its body stream;
- the container's packet reads after probing, and the codec's decode results;
- the demuxer's answer to a seek;
- the sink's answer to a seek;
- the sample count computed in floating point by `refine_position`.

The chunked buffer is specified against the flat one. Its `read` is proved to
answer what the flat reader answers over the concatenation of the chunks,
except for one input class where the code as written panics (see Findings).

## Model

| member | source | states |
|---|---|---|
| Reader.SeekPosition | src/reader/mutex_vec_u8.rs:98-112 | `Start(p)` moves to `p`. `Current(off)` moves to `pos + off` modulo 2^64, which is exactly `pos + off` whenever that lies in `u64` range. `End` fails, and only `End` fails, with `Unsupported`. |
| Reader.WrapToU64 | src/reader/mutex_vec_u8.rs:101 | Casting to `i64`, adding with wrap-around and casting back to `u64` is addition modulo 2^64. |
| Reader.Overwrite | src/reader/mutex_vec_u8.rs:91 | Writing `src` into `buf` at `at` changes exactly the `|src|` cells from `at` on and keeps the length. |
| Reader.OverwriteTwice | src/reader/mutex_vec_bytes.rs:205-233 | Two adjacent copies into the buffer equal one copy of the two sources joined, which is how the multi-chunk read assembles its output. |
| Reader.CopyInto | src/reader/mutex_vec_bytes.rs:202 | `copy_from_slice` into an array leaves it equal to `Overwrite` of its old contents. |
| Reader.CancellationToken.Cancel | src/player.rs:257-260 | After `cancel` the token is cancelled. |
| Reader.Condvar.NotifyAll | src/loader/downloader.rs:230 | Every `notify_all` is counted. |
| Reader.BoxedWrapper.AppendData | src/reader/mod.rs:9 | A call through the trait object is recorded, in order. |
| Reader.BoxedWrapper.Complete | src/reader/mod.rs:11 | Same as `AppendData`. |
| Reader.BoxedWrapper.SetCapacity | src/reader/mod.rs:13 | Same as `AppendData`. |
| MutexVecU8.ReadCount | src/reader/mutex_vec_u8.rs:86-93 | A read before the end returns `min(len, available)` bytes. That is never more than asked or available, is positive for a non-empty buffer, and either fills the buffer or reaches the end. |
| MutexVecU8.ReadOutcome | src/reader/mutex_vec_u8.rs:66-94 | `read` never panics. It waits exactly when it is at the end and the download is neither completed nor cancelled. It returns 0 exactly when at the end and completed or cancelled, or when the buffer is empty. |
| MutexVecU8.ReadsFromReproduces | src/reader/mutex_vec_u8.rs:66-94 | Once the download is complete, repeated reads from `pos` until 0 deliver exactly the bytes from `pos` on, whatever the buffer size. |
| MutexVecU8.ReadAllFromStart | src/reader/mutex_vec_u8.rs:50-58 | A new reader starts at 0, so reading a completed buffer to the end yields all of it. |
| MutexVecU8.MVecU8Wrapper.constructor | src/reader/mutex_vec_u8.rs:15-20 | The new store is empty and not completed. |
| MutexVecU8.MVecU8Wrapper.AppendData | src/reader/mutex_vec_u8.rs:31-35 | The slice is appended in order, even after completion. |
| MutexVecU8.MVecU8Wrapper.Complete | src/reader/mutex_vec_u8.rs:36-38 | Sets `completed` and leaves the bytes alone. |
| MutexVecU8.MVecU8Reader.constructor | src/reader/mutex_vec_u8.rs:50-58 | The reader shares the wrapper's store, starts at 0 and holds a fresh, uncancelled token. |
| MutexVecU8.MVecU8Reader.Read | src/reader/mutex_vec_u8.rs:66-94 | The result is `ReadOutcome`. A read before the end copies exactly the next `n` bytes of data to the front of `buf` and advances `pos` by `n`. Otherwise nothing changes. |
| MutexVecU8.MVecU8Reader.Seek | src/reader/mutex_vec_u8.rs:98-112 | The result is `SeekPosition`, and the position moves only on success. |
| MutexVecBytes.ChunkStartIsProduct | src/reader/mutex_vec_bytes.rs:164-165 | The start of chunk `k` in a store of full chunks is `k * chunk_size`, which the read's division arithmetic relies on. |
| MutexVecBytes.FullLength | src/reader/mutex_vec_bytes.rs:148 | `k` full chunks hold `k * chunk_size` bytes. |
| MutexVecBytes.ShapeLengths | src/reader/mutex_vec_bytes.rs:148 | In the store's layout, all chunks hold more than `(n - 1) * chunk_size` and at most `n * chunk_size` bytes, exactly `n * chunk_size` before completion. |
| MutexVecBytes.FlushKeepsShape | src/reader/mutex_vec_bytes.rs:99-108 | Flushing the partial chunk gives a valid completed layout that holds every byte appended. |
| MutexVecBytes.RechunkSound | src/reader/mutex_vec_bytes.rs:60-97 | Re-chunking yields only full chunks and a rest shorter than a chunk, and together they are the input bytes in order. |
| MutexVecBytes.RechunkUnique | src/reader/mutex_vec_bytes.rs:60-97 | Any split of the bytes into full chunks and a short rest is the re-chunking, so `append_data`'s result is determined. |
| MutexVecBytes.AppendKeepsShape | src/reader/mutex_vec_bytes.rs:39-98 | Appending keeps the uncompleted layout and grows stored bytes plus partial chunk by exactly the slice. |
| MutexVecBytes.MVecBytesWrapper.constructor | src/reader/mutex_vec_bytes.rs:18-25 | An empty, uncompleted store with an empty partial chunk. |
| MutexVecBytes.MVecBytesWrapper.AppendData | src/reader/mutex_vec_bytes.rs:39-98 | Ignored once completed. Otherwise the partial chunk plus the slice are re-chunked: full chunks are pushed and the rest becomes the partial chunk. The appended bytes always equal the stored chunks plus the partial chunk. |
| MutexVecBytes.MVecBytesWrapper.AppendWithinChunk | src/reader/mutex_vec_bytes.rs:46-58 | Case 1 (the slice fits) agrees with the re-chunking. |
| MutexVecBytes.MVecBytesWrapper.AppendAcrossChunks | src/reader/mutex_vec_bytes.rs:60-97 | Case 2 (fill, push, split, keep the tail) agrees with the re-chunking. |
| MutexVecBytes.SplitFull | src/reader/mutex_vec_bytes.rs:79-84 | The splitting loop yields the full chunks and the offset of the tail that the re-chunking of the remaining slice yields. |
| MutexVecBytes.MVecBytesWrapper.Complete | src/reader/mutex_vec_bytes.rs:99-108 | A non-empty partial chunk is pushed and `completed` set. Afterwards the chunks concatenate to everything appended. |
| MutexVecBytes.MVecBytesWrapper.SetCapacity | src/reader/mutex_vec_bytes.rs:109-113 | Panics exactly when `capacity` is below the chunk count. Otherwise it reserves `(capacity - chunks) / chunk_size + 1` chunks, the fewest whose bytes exceed `capacity - chunks`. |
| MutexVecBytes.MVecBytesReader.constructor | src/reader/mutex_vec_bytes.rs:126-135 | The reader shares the wrapper's store and chunk size and starts at 0 with an uncancelled token. |
| MutexVecBytes.MVecBytesReader.Read | src/reader/mutex_vec_bytes.rs:143-236 | As written: it panics exactly when `stored < pos < chunks * chunk_size`. Otherwise it gives the flat reader's `ReadOutcome` on the concatenated chunks, with the same buffer contents and position. |
| MutexVecBytes.MVecBytesReader.ReadWithinStored | src/reader/mutex_vec_bytes.rs:143-236 | Corrected read: it always gives the flat reader's answer on the concatenated chunks. |
| MutexVecBytes.MVecBytesReader.Seek | src/reader/mutex_vec_bytes.rs:240-254 | Same seek arithmetic as the flat reader. |
| MutexVecBytes.MVecBytesReader.CopyFromChunks | src/reader/mutex_vec_bytes.rs:164-235 | Below the chunk grid bound it panics exactly past the stored bytes. Otherwise it copies the next `min(len, stored - pos)` data bytes and advances `pos` by as many. |
| MutexVecBytes.ReadWindow | src/reader/mutex_vec_bytes.rs:164-173 | The index arithmetic places the start and the end of the request in the grid, with the end clamped to the chunk count. |
| MutexVecBytes.MiddleOf | src/reader/mutex_vec_bytes.rs:179-183 | There are middle chunks exactly when the end chunk lies more than one after the start chunk. Their bytes are the chunks in between. |
| MutexVecBytes.EndOf | src/reader/mutex_vec_bytes.rs:186-190 | An end chunk is taken exactly when the read spans chunks and ends inside one. |
| MutexVecBytes.WindowIsData | src/reader/mutex_vec_bytes.rs:175-233 | The single-chunk or spanning copy underflows exactly when `pos` is past the stored bytes. Otherwise it is the next `min(len, stored - pos)` bytes of the concatenation. |
| MutexVecBytes.CopyWindow | src/reader/mutex_vec_bytes.rs:196-233 | The copy panics where a length subtraction underflows. Otherwise it writes exactly the copied bytes to the front of `buf` and returns their count. |
| MutexVecBytes.CopySpan | src/reader/mutex_vec_bytes.rs:205-233 | A spanning copy writes the start chunk's tail, the middle chunks and the end chunk's head, one after the other from index 0. |
| MutexVecBytes.CopyChunks | src/reader/mutex_vec_bytes.rs:217-224 | The middle-chunk loop writes the chunks' concatenation from `at` on. |
| MutexVecBytes.BoundCoversStored | src/reader/mutex_vec_bytes.rs:148 | The wait bound `chunks * chunk_size` is never below the stored bytes. |
| MutexVecBytes.PartialOnlyWhenCompleted | src/reader/mutex_vec_bytes.rs:99-108 | Only completion can leave fewer stored bytes than the grid bound. |
| MutexVecBytes.ShortTailGap | src/reader/mutex_vec_bytes.rs:196-211 | A position is past the stored bytes exactly when its in-chunk offset exceeds that chunk's length. |
| MutexVecBytes.ShortTailCounterexample | src/reader/mutex_vec_bytes.rs:148-211 | The concrete input in Findings makes `read` panic. |
| Downloader.ParseU64 | src/loader/downloader.rs:194 | A parse succeeds only on a non-empty string starting with a digit or `+`, with a value below 2^64. |
| Downloader.ContentLength | src/loader/downloader.rs:190-197 | `total_bytes` is a `u64`. It is 0 when the header is absent or does not parse. |
| Downloader.DecimalValueOfDecimal | src/loader/downloader.rs:194 | The decimal rendering of `n` parses back to `n`. |
| Downloader.ContentLengthRoundTrip | src/loader/downloader.rs:190-197 | A `u64` Content-Length written in decimal, with or without `+`, is read back as itself. |
| Downloader.ContentLengthRejectsSign | src/loader/downloader.rs:190-197 | A negative, empty or sign-only value counts as 0. |
| Downloader.OkRun | src/loader/downloader.rs:212-244 | The leading run of `Ok` chunks: all `Ok`, followed by an error or the end of the stream. |
| Downloader.AppendCallsCarryPayloads | src/loader/downloader.rs:224-233 | The wrapper receives exactly the bytes of the consumed `Ok` chunks, in order. |
| Downloader.Taken | src/loader/downloader.rs:212-244 | The streaming task never consumes past the leading `Ok` run. |
| Downloader.LoopExit | src/loader/downloader.rs:212-245 | The loop stops after the leading `Ok` chunks, or at once when aborting. It runs to the end exactly when every chunk is `Ok` and, if aborting, the stream is empty. |
| Downloader.Downloader.constructor | src/loader/downloader.rs:60-73 | Status `NotStarted`, zero counters, clear flags, no callback, no task. |
| Downloader.Downloader.HandleMessage | src/loader/downloader.rs:112-118 | The new callback replaces the old one, and nothing else changes. |
| Downloader.Downloader.Download | src/loader/downloader.rs:132-268 | A second call panics and changes nothing. A failed request yields `Aborted`, one `Aborted` event and `Err`. A response stores Content-Length in `total_bytes`, passes it to `set_capacity`, fires `HeaderReceived`, spawns the streaming task and returns `Ok`. |
| Downloader.Downloader.RunTask | src/loader/downloader.rs:208-263 | The streaming task succeeds exactly when all chunks are `Ok` and no abort preceded the first. The wrapper gets exactly the consumed payloads (then `complete` on success), readers are woken once per chunk and once at the end, and `downloaded_bytes` grows by the payload length modulo 2^64. It ends `Completed` with the flag set and a `Completed` event, or `Aborted` with an `Aborted` event. |
| Downloader.Downloader.StreamLoop | src/loader/downloader.rs:212-244 | The loop consumes exactly `Taken` items with their effects, and reports `Aborted` exactly when it stops early. |
| Downloader.Downloader.ReceiveOkRun | src/loader/downloader.rs:212-233 | The `Ok` iterations consume exactly `Taken` items, appending their payloads and waking readers once each, and change neither status nor events. |
| Downloader.Downloader.ReceiveChunk | src/loader/downloader.rs:224-233 | One chunk is appended, the readers woken, and the counter advanced modulo 2^64. |
| Downloader.Downloader.StopAborted | src/loader/downloader.rs:214-221 | Status `Aborted` and one `Aborted` event. |
| Downloader.Downloader.FinishCompleted | src/loader/downloader.rs:246-262 | `complete` is called on the wrapper, the status and flag become completed, the readers are woken and `Completed` is fired. |
| Downloader.Downloader.Abort | src/loader/downloader.rs:271-286 | Unless downloading, it fails with the current status and changes nothing. Otherwise it raises the abort flag, cancels the streaming task handle and moves to `Aborted`. |
| Downloader.Downloader.Drop | src/loader/downloader.rs:289-302 | Whatever the status: abort flag raised, handle cancelled, status `Aborted`. |
| Downloader.DownloadTwice | src/loader/downloader.rs:137-140 | `download` runs at most once: the first call panics only if `download` was already called, and a second call always panics. |
| Player.PlayerControl.Play | src/player.rs:48-50 | Forwarded to the sink, which then plays. |
| Player.PlayerControl.Pause | src/player.rs:52-54 | Forwarded to the sink, which is then paused. |
| Player.PlayerControl.Seek | src/player.rs:56-58 | Forwarded to the sink, and its answer is returned. |
| Player.PlayerControl.SetVolume | src/player.rs:60-62 | Forwarded to the sink, whose volume becomes the value. |
| Player.PlayerControl.Stop | src/player.rs:42-44 | Forwarded to the sink. |
| Player.PlayerControl.Paused | src/player.rs:64-66 | Reports the sink's paused flag. |
| Player.PlayerControl.Volume | src/player.rs:72-74 | Reports the sink's volume. |
| Player.PlayerControl.Duration | src/player.rs:76-78 | Reports the stored duration. |
| Player.Player.constructor | src/player.rs:135-152 | A fresh playing sink at volume 1, no duration, no bindings, no callback. |
| Player.Player.Emit | src/player.rs:233-237 | The event goes to the registered callback, or nowhere. |
| Player.Player.HandleMessage | src/player.rs:225-231 | The new callback replaces the old one. |
| Player.Player.Play | src/player.rs:92-95 | The sink plays, then `Play` is emitted. |
| Player.Player.Pause | src/player.rs:97-100 | The sink pauses, then `Pause` is emitted. |
| Player.Player.Seek | src/player.rs:102-110 | `Seeking` is emitted before asking the sink. `Seeked` follows only on success, and the sink's answer is returned. |
| Player.Player.SetVolume | src/player.rs:112-115 | The sink's volume becomes the value, and `VolumeChange` is emitted. |
| Player.Player.Paused | src/player.rs:117-119 | The sink's paused flag. |
| Player.Player.Volume | src/player.rs:125-127 | The sink's volume. |
| Player.Player.Duration | src/player.rs:129-131 | The stored duration. |
| Player.Player.Clear | src/player.rs:245-268 | A fresh sink and no duration. A held downloader is dropped (and so aborted), a held token cancelled and a held condvar notified. All three bindings are emptied, and nothing is emitted. |
| Player.Player.Stop | src/player.rs:239-243 | The old sink is stopped and the player cleared: a fresh sink, no duration, a held downloader aborted, a held token cancelled, a held condvar notified, all bindings emptied. Then exactly one `DurationChange` is emitted. |
| Player.Player.Drop | src/player.rs:271-276 | The old sink is stopped and the player cleared (held downloader aborted, token cancelled, condvar notified, bindings emptied), with no event. |
| Player.Player.LoadSource | src/player.rs:155-176 | The old sink is stopped and the player cleared (held downloader aborted, token cancelled, condvar notified, bindings emptied). The duration becomes the source's, one `DurationChange` is emitted, and the new sink holds exactly that source. |
| Player.Player.Load | src/player.rs:210-216 | A decode failure returns an error with nothing changed. Otherwise `load_source` runs: the old sink is stopped, a held downloader aborted, a held token cancelled and a held condvar notified, and the new sink holds the decoded source with its duration and one `DurationChange`. |
| Player.Player.LoadUrl | src/player.rs:190-207 | A failed download returns `Err` with the player untouched. A failed decode panics. Otherwise the load releases the previous binding (old sink stopped, old downloader aborted, old token cancelled, old condvar notified), and the new downloader (still downloading), its condvar and the reader's live token are bound after that reset, so they survive it. |
| Player.StartDownload | src/player.rs:191-195 | A fresh 256 KiB-chunk buffer and a fresh downloader, whose writes are logged apart from that buffer. The start fails exactly when the request fails, and otherwise the streaming task is running. |
| Player.DurationAfterLoad | src/player.rs:155-176 | After `load_source` the player reports the source's total duration. |
| Player.PausedAfterPause | src/player.rs:92-100 | `pause` makes `paused` report true, and `play` makes it report false. |
| Player.VolumeAfterLoad | src/player.rs:112-115 | The reported volume is the last one set, and a later load resets it to 1. |
| Player.DurationAfterStop | src/player.rs:239-243 | After `stop` the player reports no duration. |
| Symphonia.MapInitError | src/decoder/symphonia.rs:33-48 | Each symphonia error kind maps to its own `DecoderError` variant, so the kind can be recovered from the result, and `NoStreams` is never produced by it. |
| Symphonia.CalcTime | src/decoder/symphonia.rs:112-116 | Ticks times the time base, in whole nanoseconds rounded down. |
| Symphonia.TotalDuration | src/decoder/symphonia.rs:112-116 | A total duration exists exactly when the default track has both a time base and a frame count, and it is their product in time. |
| Symphonia.FirstSupported | src/decoder/symphonia.rs:90-98 | The first track whose codec is not the null codec, or none when all are null. |
| Symphonia.FirstWithId | src/decoder/symphonia.rs:100-108 | The first track with the identifier, or none when no track has it. |
| Symphonia.ScanSkipsOtherTracks | src/decoder/symphonia.rs:118-142 | `init`'s packet loop ignores leading packets of other tracks and undecodable packets. |
| Symphonia.InitEndOfStreamIsNotAnError | src/decoder/symphonia.rs:118-142 | A stream that ends before any packet of the track decodes still initialises, with an empty first buffer. |
| Symphonia.Refill | src/decoder/symphonia.rs:279-300 | The refill consumes packet reads, at least one when it fills the buffer. |
| Symphonia.RefillAudio | src/decoder/symphonia.rs:277-311 | A refill delivers exactly the next buffer of the decoder's sample stream, or ends it. |
| Symphonia.Clamp | src/decoder/symphonia.rs:195-202 | The seek target is `pos`, saturated at the total duration when that is known. |
| Symphonia.Align | src/decoder/symphonia.rs:262-263 | The skip count rounded down to a whole frame: at most the count and less than one frame below it. |
| Symphonia.DemuxFailure | src/decoder/symphonia.rs:207-220 | A forward-only demuxer means random access is not supported. Any other demuxer error is passed on unchanged. |
| Symphonia.SeekVerdict | src/decoder/symphonia.rs:186-243 | Accurate mode without a time base fails first. Then zero channels panic in the `%`. Then the demuxer's answer decides. Each outcome holds exactly under its condition. |
| Symphonia.SymphoniaDecoder.constructor | src/decoder/symphonia.rs:143-153 | The decoder starts at offset 0 on `init`'s buffer and packets, with no reset and no seek yet. |
| Symphonia.SymphoniaDecoder.CurrentSpanLen | src/decoder/symphonia.rs:167-169 | The span length is always known, and it is the delivered samples plus the pending ones. |
| Symphonia.SymphoniaDecoder.ReadDecoded | src/decoder/symphonia.rs:279-300 | The refill loop's result and the packets it leaves agree with `Refill`. |
| Symphonia.SymphoniaDecoder.Next | src/decoder/symphonia.rs:277-311 | Each call delivers the head of the remaining sample stream and returns `None` exactly when nothing remains. The buffer, offset and spec move as the source does. |
| Symphonia.SymphoniaDecoder.Skip | src/decoder/symphonia.rs:266-268 | Skipping `k` samples drops exactly the first `k` remaining ones. |
| Symphonia.SymphoniaDecoder.RefinePosition | src/decoder/symphonia.rs:248-271 | Skips the precomputed count rounded down to a whole frame. |
| Symphonia.SymphoniaDecoder.TrySeek | src/decoder/symphonia.rs:186-243 | The result is `SeekVerdict`, and the demuxer is asked for the clamped target unless the seek failed or panicked first. A failure changes no stream state. A success resets the codec once and restarts the stream at the demuxer's position, skipping the refinement and the old active channel. |
| Symphonia.Init | src/decoder/symphonia.rs:55-154 | Running `init`'s packet loop read by read gives `InitSpec`: a failed probe is its error, no default track or no track with the chosen identifier gives no stream, and no supported track is `Unsupported`. |
| Symphonia.ScanFirst | src/decoder/symphonia.rs:118-142 | The loop agrees with `FirstDecoded`. |
| Symphonia.New | src/decoder/symphonia.rs:33-48 | A seek error panics. Other errors are mapped, and no stream is `NoStreams`. Otherwise a fresh decoder delivers `init`'s first buffer followed by the rest of the stream. |
| Decoding.Decoder.Next | src/decoder/mod.rs:470-485 | Forwarded: the head of the remaining stream, and `None` exactly when nothing remains. |
| Decoding.Decoder.TrySeek | src/decoder/mod.rs:510-513 | Forwarded: the symphonia decoder's verdict, the stream after a success, an unchanged stream after a failure, and one codec reset exactly on success. |
| Decoding.LoopedDecoder.Next | src/decoder/mod.rs:527-550 | Without a decoder: `None`. With samples left: the next one. When exhausted, a successful rewind and rebuild installs a fresh decoder and returns its first sample. Otherwise the decoder is dropped for good. |
| Decoding.LoopedDecoder.SizeHint | src/decoder/mod.rs:564-569 | There is never an upper bound, and the lower bound is 0 without a decoder. |
| Decoding.LoopedDecoder.CurrentSpanLen | src/decoder/mod.rs:580-582 | The decoder's span length, or `None` without a decoder. |
| Decoding.LoopedDecoder.Channels | src/decoder/mod.rs:588-592 | The decoder's channel count, or the default 0. |
| Decoding.LoopedDecoder.SampleRate | src/decoder/mod.rs:598-602 | The decoder's sample rate, or the default 0. |
| Decoding.LoopedDecoder.TotalDuration | src/decoder/mod.rs:610-612 | Always `None`. |
| Decoding.LoopedDecoder.TrySeek | src/decoder/mod.rs:629-636 | Without a decoder, an `Other` I/O error. Otherwise the decoder's own seek: its verdict, the stream after a success, an unchanged stream after a failure, one codec reset exactly on success. The decoder held is unchanged. |
| Decoding.NoneForever | src/decoder/mod.rs:527-550 | Once the looped decoder has lost its decoder, every later `next` returns `None`. |

## Left out

- Concurrency: mutex locking, the condition-variable wait and the tokio task are left out. The read's wait is the result `WouldBlock`, the streaming task runs to completion over a given body stream, and cancellation at an `.await` point is not modelled beyond the `should_abort` check.
- HTTP: request building, headers and the 30-second timeout (reqwest). The response is an input.
- The downloader's buffer is modelled as a log of calls through the boxed `AppendableDataWrapper`, not linked to the chunked store. So the `set_capacity` underflow of the chunked wrapper is proved in `MVecBytesWrapper.SetCapacity` but is not shown reachable from `Download`.
- The rodio `Sink`, `OutputStream` and `Mixer` are reduced to a log of received commands with a paused flag and a volume. `position` (`get_pos`) and the audio output are not modelled.
- Symphonia probing, codec construction and sample interleaving are inputs (`Media`, `DecodeResult`). Format hints, metadata tags and the decoder builder are not modelled.
- Symphonia.SymphoniaDecoder.RefinePosition: the `f32` computation of the skip count is not modelled and arrives as `rawSkip`. The contract says nothing when fewer samples remain than are skipped.
- Symphonia.SymphoniaDecoder.Skip: no claim when fewer than `k` samples remain.
- Symphonia.SymphoniaDecoder.TrySeek: no claim about the stream when fewer samples remain than the seek skips.
- Symphonia.SymphoniaDecoder.Next: it delivers the stream up to its first `None`. The model does not describe what later calls return.
- Symphonia.CalcTime: symphonia's float rounding of the fractional part is replaced by exact rounding down to a nanosecond.
- Decoding.LoopedDecoder.Next: requires that rebuilding never hits `new`'s `unreachable!` for a seek error during `init`.
- The `DecoderImpl::None` variant is uninhabited and is not modelled.
- Error payloads are not modelled: symphonia's `Error` and rodio's `DecoderError` are kinds only. `new` itself discards the message of `Unsupported` (including `init`'s own "No track with supported codec") and keeps only the text of an `IoError`, not its `io::ErrorKind`.
- Player.Player.constructor: cannot fail. `Player::new` returns `Err` when `OutputStreamBuilder::open_default_stream` fails (src/player.rs:137); the audio output is outside the model, so that error path is dropped.
- `Decoder`'s channel, sample-rate, duration and size-hint forwarders are modelled as plain functions.
- Volumes are `f32` in the source and `real` here. Samples are `real`.
- `load_file`, `read_seek_source`, `src/main.rs`, the examples and all console output are not part of this model.
- `SeekFrom::Current` in a debug build panics on `i64` overflow. The model follows the release build, which wraps.
- `MVecU8Wrapper` has no `set_capacity`, so it cannot be boxed as an `AppendableDataWrapper`.
- The `usize` overflow of `pos + buf.len()` in the chunked read is not modelled: positions and lengths are unbounded.
- MutexVecBytes.MVecBytesWrapper.constructor: requires a positive chunk size. With 0 the source's first non-empty append never terminates.

## Findings

| source | as written | input that shows it | evidently intended | confidence | as-written member | corrected member |
|---|---|---|---|---|---|---|
| src/reader/mutex_vec_bytes.rs:148-211 | `read` waits only while `pos >= chunks * chunk_size`, which assumes every chunk is full. After `complete` flushes a short final chunk, a position past the stored bytes but inside that chunk's grid cell passes the wait. Then `end - start_offset` (or `len - start_offset`) underflows and panics. | chunk size 4; append bytes 1,2,3,4,5; `complete`; `seek(Start(6))`; read into a 1-byte buffer. The stored bytes end at 5, the grid bound is 8, and the in-chunk offset 2 exceeds the final chunk's length 1. | Compare against the bytes actually stored, so a read past the end returns 0 after completion like the flat reader. | high (not executed; proved on the model) | MutexVecBytes.MVecBytesReader.Read, MutexVecBytes.ShortTailCounterexample | MutexVecBytes.MVecBytesReader.ReadWithinStored |
