# siptunes in Dafny

siptunes is a SIP service that answers calls and plays audio chosen from the
caller's keypad. The audio is organised in *themes*. Each theme has a JSON map
from keypad keys to tracks, plus a `default` track that plays on entering the
theme. `*` and `#` step backwards and forwards through the themes and wrap
around. Any other mapped key plays its track.

Each call runs a small pipeline:
- A *supplier* worker (FFmpegStreamer) decodes the current track with an
  ffmpeg child process. It copies the output, one fixed-size chunk at a time,
  into a bounded audio queue.
- A *dispatcher* worker (FFmpegStreamManager) takes track requests off the song
  queue. It resolves each one to a file path or a remote URL and restarts the
  supplier on it.
- The media port hands one chunk to the transport on every tick. It sends a
  silent frame when the audio queue is empty.
- A registry maps every session id to its stop event. Shutdown sets all of them.

The project models this core as follows:
- `const.dfy`: the configuration constants, the chunk-size arithmetic and the
  parsing of the THEMES setting.
- `themes.dfy`: the catalog of themes and key maps.
- `sync.dfy`: sequential stand-ins for the queues, events, shared theme cell
  and registry.
- `audio.dfy`: the two workers, as classes whose methods are single loop
  iterations or whole loops with a bound on the iterations.
- `call.dfy`: the media port, the keypad menu (a pure transition function
  `Navigate`, with lemmas about cycling through the themes) and the call object.
- `switchboard.dfy`: loading the theme maps, the refusal to start without any
  theme, the shutdown broadcast and the codec-selection rule.
- `strings.dfy`, `wrappers.dfy`: the Python string built-ins used by the core
  (`split`, `join`, `in`, `startswith`, ASCII `lower`) and `Option`.

Three behaviours of the code are easy to misread; the model follows the code:
- `stop_stream` (app/audio.py:90-98) does not force-release the process when
  `wait(timeout=1)` times out. The exception leaves before `self.process = None`
  and `clear_queue()`. So `Audio.Supplier.StopStream` keeps the handle and the
  queued audio in that case and reports `completed == false`. A `start_stream`
  that meets this timeout launches nothing (`StopTimedOut`).
- The silent frame of the media port is `frame_size` bytes, and `frame_size` is
  one second of audio, not one 20 ms chunk (app/call.py:34, 47-48).
- At end of stream, `stream_audio` calls `stop_stream` (app/audio.py:77-79),
  and that runs `clear_queue` (app/audio.py:98, 103-107). So the chunks still
  buffered for the media port, up to `bufferSize` (50 chunks, about one second),
  are thrown away unplayed. `Audio.Supplier.PumpStep` and
  `Audio.Supplier.StreamAudio` state an empty audio queue in that case.

## Model

| member | source | states |
|---|---|---|
| Strings.Split | app/const.py:14 | `str.split(sep)` always gives at least one piece |
| Strings.SplitLength | app/const.py:14 | splitting gives one piece more than there are separators |
| Strings.SplitPiecesHaveNoSeparator | app/const.py:14 | no piece contains the separator |
| Strings.JoinSplit | app/const.py:14 | joining the pieces with the separator gives the string back |
| Strings.SplitJoin | app/const.py:14 | splitting the join of separator-free pieces gives the pieces back |
| Strings.ContainsIff | app/audio.py:146 | `sub in s` holds exactly when `sub` occurs at some position of `s` |
| Strings.LowerCharacterised | app/switchboard.py:64 | `lower()` keeps the length, leaves no ASCII capital, turns each capital into its small letter and keeps every other character |
| Const.Truncate | app/const.py:21 | `int()` of a float truncates toward zero: floor for non-negative values, ceiling for negative ones |
| Const.FrameDurationIsTwentyMilliseconds | app/const.py:19-20 | a 20000 µs frame time is 0.02 s |
| Const.ChunkSizeFormula | app/const.py:17-21 | `Const.ChunkSize`, CHUNKSIZE for mono 16-bit 20 ms frames is `SAMPLERATE * 4 / 100`, rounded down |
| Const.ChunkSizeExamples | app/const.py:21 | 640 bytes at 16 kHz, 320 at 8 kHz, 1920 at 48 kHz |
| Const.ThemesListEmptyIff | app/const.py:14 | the theme list `Const.ThemesList` is empty exactly when THEMES is unset or empty |
| Const.ThemesListSplit | app/const.py:14 | a non-empty THEMES gives one name more than it has commas, none containing a comma, and they join back to THEMES |
| Const.ThemesListExamples | app/const.py:14 | "a,b" gives two names, "menu" one, and "a,,b" keeps the empty name |
| Sync.Event.constructor | app/call.py:65 | a new stop event is clear |
| Sync.Event.Set | app/call.py:108 | setting an event leaves it set |
| Sync.SharedTheme.constructor | app/call.py:70-71 | the shared theme cell starts at the given theme |
| Sync.Queue.constructor | app/call.py:63-64 | a new song or audio queue is empty |
| Sync.Queue.Put | app/audio.py:83 | `put` appends the item at the back |
| Sync.Queue.GetNoWait | app/audio.py:103-107 | `get_nowait` (and `get` once its wait ends, app/audio.py:144) removes and returns the front item, or reports `queue.Empty` and changes nothing |
| Sync.Registry.constructor | app/switchboard.py:114-116 | the registry starts holding only the parent's stop event |
| Sync.Registry.Register | app/call.py:67 | registering binds the id to the event and changes no other entry |
| Sync.Registry.Remove | app/call.py:109 | `del` removes exactly that id, and reports KeyError when it is absent |
| Audio.FlattenAppend | app/audio.py:83 | queuing a chunk appends its bytes to the queued audio |
| Audio.ReadLength | app/audio.py:76-77 | a pipe read returns at most the bytes still to come, and nothing exactly when none was asked for or the stream has ended |
| Audio.Decoder.constructor | app/audio.py:48-60 | a launched process has its whole output still to write and is not killed |
| Audio.Decoder.Read | app/audio.py:76 | `read(n)` returns the next bytes of the output and consumes exactly those |
| Audio.Decoder.Kill | app/audio.py:95 | `kill()` marks the process killed and leaves its output alone |
| Audio.ResolveRemote | app/audio.py:146-147 | under `Audio.Resolve`, a request containing `://` and not starting with `file://` passes through unchanged |
| Audio.ResolveLocal | app/audio.py:148-149 | any other request, `file://` URLs included, becomes `./sound/<theme>/<request>` |
| Audio.NoColonIsLocal | app/audio.py:146-149 | a request without a colon is always a local file |
| Audio.ResolveStreamExample | app/audio.py:146-147 | an `http://` URL passes through |
| Audio.ResolveFileExample | app/audio.py:149 | `a.raw` under theme `menu1` becomes `./sound/menu1/a.raw` |
| Audio.FileUrlIsLocal | app/audio.py:146-149 | every `file://` URL is a local path: it is prefixed with the sound directory and theme, scheme and all |
| Audio.Supplier.constructor | app/audio.py:19-39 | given an empty audio queue that is a different object from the song queue, the supplier starts valid, with no process, the stop flag clear, and the given queues, sizes, maps, theme cell and end event |
| Audio.Supplier.ClearQueue | app/audio.py:100-108 | draining leaves the audio queue empty |
| Audio.Supplier.StopStream | app/audio.py:90-98 | with no process nothing changes; otherwise the flag is set and the process killed, and exactly when the wait returns the handle is dropped and the queue cleared |
| Audio.Supplier.StartStream | app/audio.py:41-65 | any running process is stopped first; on a successful launch the new process runs on an empty queue with the flag cleared; a launch error leaves no process; a stop timeout launches nothing |
| Audio.Supplier.PumpStep | app/audio.py:71-88 | each outcome of one loop iteration: halt, backpressure, one chunk read and queued at the back, end of stream with the default track requested, or a caught exception, each with its exact new state |
| Audio.Supplier.StreamAudio | app/audio.py:67-88 | while the same process runs, the queued bytes followed by the undecoded output are preserved (decode order, nothing repeated); at end of stream the audio queue is emptied, so chunks still buffered are never played; the song queue changes only by the fallback default track |
| Audio.Supplier.Run | app/audio.py:110-121 | the loop is left exactly when the end event is set, and its `finally` then kills any remaining process; the song queue is untouched then |
| Audio.Dispatcher.constructor | app/audio.py:125-137 | the dispatcher shares the given theme cell, song queue, end event and supplier |
| Audio.Dispatcher.Step | app/audio.py:142-154 | an empty queue changes nothing; otherwise the front request is removed, the supplier is started once on its resolved address and any old process is killed; a stop that times out keeps the old process, a start leaves a fresh unkilled process, a clear stop flag and an empty audio queue, a failed launch leaves no process and an empty audio queue |
| Audio.Dispatcher.Run | app/audio.py:139-160 | the requests served are a prefix of the song queue, the supplier was started on each one's resolution in order, and a set end event serves nothing |
| Call.FrameSizeIsOneSecond | app/call.py:34 | `frame_size` (`Call.FrameSize`) for mono 16-bit audio is two bytes per sample for a whole second, fifty chunks |
| Call.DefaultFrameSizes | app/call.py:19-21 | at the default 16 kHz the silent frame is 32000 bytes and a chunk 640 |
| Call.Silence | app/call.py:48 | `[0] * n` is `n` zero bytes |
| Call.Frame.constructor | app/call.py:36-38 | a frame starts without audio type and with an empty buffer |
| Call.MediaPort.constructor | app/call.py:28-34 | the port keeps its parameters and `frame_size` is computed from them |
| Call.MediaPort.OnFrameRequested | app/call.py:36-48 | with audio queued the frame gets the front chunk, which is removed; otherwise it gets `frame_size` zero bytes and the queue stays empty |
| Call.IndexOf | app/call.py:120 | `index` finds the first position of the theme |
| Call.EnterTheme | app/call.py:122-123 | switching lands in the target theme |
| Call.Navigate | app/call.py:113-142 | a keypad event always leaves the call in a theme of the catalog |
| Call.PressAll | app/call.py:113-142 | any sequence of keypad events stays within the catalog |
| Call.IndexOfDistinct | app/call.py:120 | without repeated names a theme's index is its position |
| Call.StarSelectsPrevious | app/call.py:118-124 | `*` enters the previous theme, and from the first theme the last one |
| Call.HashSelectsNext | app/call.py:126-132 | `#` enters the next theme, and from the last theme the first one |
| Call.EnterThemeRequestsDefault | app/call.py:131-142 | entering a theme requests exactly its non-empty default track |
| Call.NextThenPreviousRestores | app/call.py:118-132 | without repeated names `#` then `*`, or `*` then `#`, returns to the starting theme |
| Call.StepIndex | app/call.py:118-130 | one `*` or `#` leads to a position inside the catalog |
| Call.PressIndex | app/call.py:118-132 | a run of presses leads to a position inside the catalog |
| Call.PressAllIndex | app/call.py:118-132 | without repeated names a run of `*` and `#` walks the catalog one position per press, wrapping at both ends |
| Call.PressIndexMod | app/call.py:118-130 | the position reached is `(i + #'s - *'s) mod n`, Python's `%` on a positive modulus |
| Call.PressesCycle | app/call.py:118-132 | any run of `*` and `#` from position `i` ends at position `(i + #'s - *'s) mod n` |
| Call.MappedDigitPlaysTrack | app/call.py:134-142 | a mapped key playing a non-empty track requests exactly that track and keeps the theme |
| Call.UnmappedDigitIgnored | app/call.py:134-142 | an unmapped key, or one mapped to an empty name, requests nothing and keeps the theme |
| Call.MenuScenario | app/call.py:113-142 | a two-theme walkthrough: `#` switches and plays the intro, `2` plays its track, `9` does nothing |
| Call.SessionCall.constructor | app/call.py:54-78 | fresh queues and stop event, the stop event registered under the call's id with no other entry touched, the first theme current, no process |
| Call.SessionCall.OnDtmfDigit | app/call.py:113-142 | the current theme becomes the navigated one and the request, if any, joins the back of the song queue; a missing default is reported as KeyError |
| Call.SessionCall.OnConfirmed | app/call.py:154-155 | on CONFIRMED the current theme's default track is requested once, or KeyError is reported |
| Call.SessionCall.Cleanup | app/call.py:106-111 | the stop event is set, exactly this call's id is removed, and after both joins any remaining process is killed with the stop flag set |
| Switchboard.MapFileName | app/switchboard.py:94 | the file name is `dtmf_map_` + theme + `.json` |
| Switchboard.PathJoin | app/switchboard.py:94 | `os.path.join` gives the name alone for an empty directory, directory + name when it ends in `/`, and directory + `/` + name otherwise |
| Switchboard.MapPathUnder | app/switchboard.py:94 | under a directory not ending in a separator a theme reads `<dir>/dtmf_map_<theme>.json` |
| Switchboard.MapPathExample | app/switchboard.py:94 | under `./sound` the "jazz" theme reads `./sound/dtmf_map_jazz.json` |
| Switchboard.MapPathInjective | app/switchboard.py:94 | distinct themes read distinct files |
| Switchboard.Loaded | app/switchboard.py:93-103 | the themes whose files load, in order, are no more than the themes asked for |
| Switchboard.LoadDtmfMaps | app/switchboard.py:89-105 | the loop builds the catalog that the left fold over the themes, `Switchboard.LoadCatalog`, defines |
| Switchboard.LoadKeysMatch | app/switchboard.py:120 | the key list names each loaded theme exactly once |
| Switchboard.LoadMembership | app/switchboard.py:93-103 | a theme is loaded exactly when it was asked for and its file exists and parses; failures are dropped |
| Switchboard.LoadContent | app/switchboard.py:96-97 | a loaded theme's map is its own file's parsed content |
| Switchboard.LoadOrder | app/switchboard.py:93-97 | without repeated names the key order is the input order of the themes that loaded |
| Switchboard.Dedup | app/switchboard.py:97 | the key order a dict keeps under repeated assignment: the first occurrences of the names, in order, repeat-free and with the same members |
| Switchboard.LoadedMembership | app/switchboard.py:93-103 | a theme is among the loaded ones exactly when it was asked for and its file loads |
| Switchboard.LoadOrderFirstOccurrence | app/switchboard.py:93-105 | for any theme list, repeats included, the key order is the first-occurrence order of the themes whose files load |
| Switchboard.RepeatedThemeLoadsOnce | app/switchboard.py:93-105 | THEMES `a,a` with a good file loads the single key `a` |
| Switchboard.BootstrapOutcome | app/switchboard.py:119-125 | for `Switchboard.Bootstrap`, exit status 1 exactly when no theme loaded; otherwise the catalog is navigable, has no repeats, and holds exactly the loaded themes |
| Switchboard.JazzLoads | app/switchboard.py:94-97 | in the example layout the "jazz" file loads with its content |
| Switchboard.RockMissing | app/switchboard.py:100-101 | in the example layout the "rock" file is missing, so the theme is not loaded |
| Switchboard.PopMalformed | app/switchboard.py:102-103 | in the example layout the "pop" file is malformed, so the theme is not loaded |
| Switchboard.BootstrapExample | app/switchboard.py:119-125 | with one good, one missing and one broken file, only the good theme is served |
| Switchboard.StartUp | app/switchboard.py:108-125 | the parent's stop event is clear and the only registry entry, and the outcome is the one loading defines |
| Switchboard.SignalHandler | app/switchboard.py:50-56 | every registered stop event is set, the registry itself is unchanged, and the exit status is 0 |
| Switchboard.StartThenShutdown | app/switchboard.py:50-54 | after start-up a shutdown sets the parent stop event that ends the main loop |
| Switchboard.CodecPriority | app/switchboard.py:58-72 | each id gets its priority in order, and `codec_found` holds exactly when some id matched |
| Switchboard.LowerIdempotent | app/switchboard.py:64 | lowercasing twice is lowercasing once |
| Switchboard.MatchesIgnoresCase | app/switchboard.py:64 | matching ignores the case of both the id and the codec name |
| Switchboard.EmptyCodecMatchesAll | app/switchboard.py:64 | an empty codec name enables every codec |
| Switchboard.PriorityExample | app/switchboard.py:64-65 | "OPUS" enables `opus/48000/2` |

## Left out

- pjsua2 is not modelled: SIP signalling, account registration, transport, `_create_media_state` and media-port wiring, `answer`, and the library lifecycle. These are foreign-library calls with no visible logic.
- MyAccount (`onIncomingCall`, `onRegState`) and `acc.calls.remove` are left out. They are list bookkeeping around pjsua2.
- The ffmpeg command line and filter graph are left out. A launch is a parameter giving the bytes the decoder will write and whether it exits within the wait after a kill. That outcome is fixed for the process: once one stop of a process times out, every later stop of the same process times out too, whereas a real killed process is normally reaped by a later wait.
- Threads, `multiprocessing` queues and `Manager().Value` are sequential objects in the model. Each loop iteration is one atomic step, so interleavings between the workers are not modelled. One example is a chunk read before a restart and queued after it.
- `time.sleep`, queue-wait timeouts, KeyboardInterrupt and `join` are left out. Joins are modelled as running each worker's exit path.
- Audio.Supplier.StreamAudio, Audio.Supplier.Run, Audio.Dispatcher.Run: the endless worker loops are bounded by explicit iteration counts (`fuel`, `rounds`, the list of launch outcomes). Nothing is stated about runs longer than the bound.
- Audio.Supplier.PumpStep: any exception other than a missing process, a stop timeout or a missing default track is not modelled. The model does not cover broken pipes or a missing `ffmpeg` binary.
- Sync.Queue.GetNoWait: on the song queue it stands for `get(timeout=0.1)`; the wait itself is not modelled, only its empty outcome.
- Real file reading and JSON parsing are left out. A theme's file is given as missing, malformed or parsed into a key map. JSON that parses to something other than an object of strings, and errors other than FileNotFoundError and JSONDecodeError (e.g. PermissionError), are not modelled.
- Strings.LowerCharacterised: case folding is ASCII only. Python's Unicode `lower()` is not modelled.
- Switchboard.CodecPriority: the codec table is a list of ids. The `codecSetPriority` calls are modelled as the list of priorities they set. An unset CODEC, which would make `CODEC.lower()` raise, is not modelled.
- Const.Truncate: the float products in CHUNKSIZE and FRMAEDURATION are computed exactly, as reals. Rounding of binary floating point is not modelled.
- dotenv and environment reads are parameters (THEMES, SAMPLERATE) or left out (the SIP credentials, LOGS_DIR). `SipConfig` and `configure_sip_account` are left out as string plumbing.
- Logging, `ep.libDestroy()` and the process exit are left out. Only the exit status is modelled.
- `uuid.uuid4()` is left out. Session ids are parameters, so the model does not assume they are unique.
- Call.SessionCall.Cleanup: it does not state that the supplier is idle after a stop timeout. As written, the timed-out process stays the supplier's process.
