/**
 * The per-call audio pipeline (app/audio.py).
 *
 * `Supplier` is the FFmpegStreamer worker: it owns at most one decoder
 * process, copies fixed-size chunks of its output into the audio queue while
 * the queue is below capacity, and on end of stream stops itself and asks
 * for the current theme's default track. `Dispatcher` is the
 * FFmpegStreamManager worker: it takes track requests off the song queue,
 * resolves each to a source address and restarts the supplier on it.
 *
 * The ffmpeg child process is abstract (`Decoder`): the bytes it will write
 * to stdout, and whether it exits within the one-second wait after a kill.
 * Each loop iteration of a worker is one atomic step; the loops are bounded
 * by an explicit number of iterations, since nothing else runs between them.
 */
module Audio {
  import opened Wrappers
  import opened Strings
  import opened Const
  import opened Themes
  import opened Sync

  /** The bytes of a sequence of chunks, in order. */
  function Flatten(cs: seq<Chunk>): seq<Byte>
  {
    if cs == [] then [] else cs[0] + Flatten(cs[1..])
  }

  /** Appending a chunk to the queue appends its bytes to the queued audio. */
  lemma {:induction false} FlattenAppend(cs: seq<Chunk>, c: Chunk)
    ensures Flatten(cs + [c]) == Flatten(cs) + c
    decreases |cs|
  {
    if cs == [] {
      assert [] + [c] == [c];
      assert Flatten([c]) == c + Flatten([]);
    } else {
      assert (cs + [c])[1..] == cs[1..] + [c];
      FlattenAppend(cs[1..], c);
    }
  }

  /**
   * How many bytes `read(n)` on a pipe returns when `avail` bytes are still to
   * come: `n` of them, or all that remain once the writer ends; a negative `n`
   * reads to the end.
   */
  function ReadLength(n: int, avail: nat): (k: nat)
    ensures k <= avail
    ensures k == 0 <==> n == 0 || avail == 0
  {
    if n < 0 || n > avail then avail else n
  }

  /** The decoder child process, seen through its stdout pipe. */
  class Decoder {
    /** Bytes the process has still to write. */
    var stdout: seq<Byte>
    var killed: bool
    /**
     * Whether `wait(timeout=1)` returns after `kill()` (otherwise it raises
     * TimeoutExpired). It is fixed for the process: every wait on it has this
     * outcome.
     */
    const exitsOnKill: bool

    constructor(output: seq<Byte>, exitsOnKill: bool)
      ensures stdout == output && !killed && this.exitsOnKill == exitsOnKill
    {
      stdout := output;
      killed := false;
      this.exitsOnKill := exitsOnKill;
    }

    /** `stdout.read(n)`; an empty result means the stream has ended. */
    method Read(n: int) returns (data: Chunk)
      modifies this
      ensures data == old(stdout)[..ReadLength(n, |old(stdout)|)]
      ensures stdout == old(stdout)[ReadLength(n, |old(stdout)|)..]
      ensures killed == old(killed)
    {
      var k := ReadLength(n, |stdout|);
      data := stdout[..k];
      stdout := stdout[k..];
    }

    /** `kill()`. */
    method Kill()
      modifies this
      ensures killed && stdout == old(stdout)
    {
      killed := true;
    }
  }

  /** What launching ffmpeg on a source gives: a running process, or `ffmpeg.Error`. */
  datatype Launch = Launched(output: seq<Byte>, exitsOnKill: bool) | LaunchError

  /** How `start_stream` ended: a new process, a launch error, or the stop of the old process timing out. */
  datatype StartResult = Started | LaunchFailed | StopTimedOut

  /** How one iteration of the `stream_audio` loop ended. */
  datatype PumpResult =
    | Halted        // the stop flag was set: the loop condition fails
    | Backpressure  // the audio queue was full: sleep and retry
    | Pushed        // one chunk was read and queued
    | EndOfStream   // an empty read: stopped, default track requested, loop left
    | Crashed       // an exception was caught: loop left
  {
    predicate LeavesLoop()
    {
      !(Backpressure? || Pushed?)
    }
  }

  /** A request is a remote address when it has a scheme separator and is not a `file://` URL. */
  predicate IsRemote(song: string)
  {
    Contains(song, "://") && !StartsWith(song, "file://")
  }

  /** The source address a track request is streamed from, under the theme current at dequeue time. */
  function Resolve(song: string, theme: Theme): string
  {
    if IsRemote(song) then song else SOUND_DIR + "/" + theme + "/" + song
  }

  /** Every request of `songs`, resolved under `theme`. */
  function ResolveAll(songs: seq<string>, theme: Theme): (urls: seq<string>)
    ensures |urls| == |songs|
    ensures forall k :: 0 <= k < |songs| ==> urls[k] == Resolve(songs[k], theme)
  {
    seq(|songs|, k requires 0 <= k < |songs| => Resolve(songs[k], theme))
  }

  /** A remote address passes through unchanged. */
  lemma ResolveRemote(song: string, theme: Theme)
    requires exists i :: OccursAt(song, "://", i)
    requires !StartsWith(song, "file://")
    ensures Resolve(song, theme) == song
  {
    ContainsIff(song, "://");
  }

  /**
   * Anything else, `file://` URLs included, becomes a path under the sound
   * directory and the current theme, ending in the request itself.
   */
  lemma ResolveLocal(song: string, theme: Theme)
    requires !(exists i :: OccursAt(song, "://", i)) || StartsWith(song, "file://")
    ensures Resolve(song, theme) == SOUND_DIR + "/" + theme + "/" + song
    ensures StartsWith(Resolve(song, theme), SOUND_DIR + "/" + theme + "/")
  {
    ContainsIff(song, "://");
    var prefix := SOUND_DIR + "/" + theme + "/";
    assert Resolve(song, theme) == prefix + song;
    assert (prefix + song)[..|prefix|] == prefix;
  }

  /** A request without a colon cannot name a scheme, so it is always a local file. */
  lemma {:induction false} NoColonIsLocal(song: string, theme: Theme)
    requires ':' !in song
    ensures Resolve(song, theme) == SOUND_DIR + "/" + theme + "/" + song
  {
    ContainsIff(song, "://");
    forall i ensures !OccursAt(song, "://", i) {
      if 0 <= i && i + 3 <= |song| {
        assert song[i..i + 3][0] == song[i];
      }
    }
  }

  /** A stream URL passes through unchanged. */
  lemma ResolveStreamExample()
    ensures Resolve("http://radio/live", "menu1") == "http://radio/live"
  {
    var u := "http://radio/live";
    assert OccursAt(u, "://", 4) by { assert u[4..7] == "://"; }
    assert !StartsWith(u, "file://") by { assert u[..7][0] == 'h'; }
    ResolveRemote(u, "menu1");
  }

  /** A plain file name goes under the theme's directory. */
  lemma ResolveFileExample()
    ensures Resolve("a.raw", "menu1") == "./sound/menu1/a.raw"
  {
    NoColonIsLocal("a.raw", "menu1");
  }

  /** So does every `file://` URL, scheme and all. */
  lemma FileUrlIsLocal(name: string, theme: Theme)
    ensures Resolve("file://" + name, theme) == SOUND_DIR + "/" + theme + "/file://" + name
  {
    var f := "file://" + name;
    assert StartsWith(f, "file://") by { assert f[..7] == "file://"; }
    ResolveLocal(f, theme);
    assert SOUND_DIR + "/" + theme + "/" + f == SOUND_DIR + "/" + theme + "/file://" + name;
  }

  /** The FFmpegStreamer worker of one call. */
  class Supplier {
    const audioQueue: FrameQueue
    const songQueue: RequestQueue
    const chunkSize: int
    const bufferSize: nat
    /** The streamer's own `stop_event`. */
    var stopEvent: bool
    const dtmfMaps: map<Theme, ThemeMap>
    const curTheme: SharedTheme
    const endEvent: Event
    var process: Decoder?
    /** Every source address `start_stream` was called with, in order. */
    ghost var requested: seq<string>

    /**
     * The single-producer invariant: the audio queue never holds more than
     * `bufferSize` chunks, and it is empty whenever no decoder is running, so a
     * new stream always starts on an empty queue. The audio and song queues are
     * two distinct objects.
     */
    ghost predicate Valid()
      reads this, audioQueue
    {
      audioQueue as object != songQueue &&
      |audioQueue.items| <= bufferSize && (process == null ==> audioQueue.items == [])
    }

    constructor(audioQueue: FrameQueue, songQueue: RequestQueue, chunkSize: int, bufferSize: nat,
                dtmfMaps: map<Theme, ThemeMap>, curTheme: SharedTheme, endEvent: Event)
      requires audioQueue as object != songQueue && audioQueue.items == []
      ensures Valid()
      ensures this.audioQueue == audioQueue && this.songQueue == songQueue
      ensures this.chunkSize == chunkSize && this.bufferSize == bufferSize
      ensures this.dtmfMaps == dtmfMaps && this.curTheme == curTheme && this.endEvent == endEvent
      ensures process == null && !stopEvent && requested == []
    {
      this.audioQueue := audioQueue;
      this.songQueue := songQueue;
      this.chunkSize := chunkSize;
      this.bufferSize := bufferSize;
      this.dtmfMaps := dtmfMaps;
      this.curTheme := curTheme;
      this.endEvent := endEvent;
      stopEvent := false;
      process := null;
      requested := [];
    }

    /** `clear_queue`: drain the audio queue one chunk at a time. */
    method ClearQueue()
      modifies audioQueue
      ensures audioQueue.items == []
    {
      while audioQueue.items != []
        decreases |audioQueue.items|
      {
        var c := audioQueue.GetNoWait();
        if c.None? {
          break;
        }
      }
    }

    /**
     * `stop_stream`: with no process, nothing happens. Otherwise the stop flag
     * is set and the process killed; when the wait returns the handle is
     * dropped and the queue cleared, and when it times out (`completed` false,
     * TimeoutExpired raised) the handle and the queue stay as they were.
     */
    method StopStream() returns (completed: bool)
      requires Valid()
      modifies this, audioQueue, process
      ensures Valid()
      ensures requested == old(requested)
      ensures old(process) == null ==>
        completed && process == null && stopEvent == old(stopEvent) && audioQueue.items == old(audioQueue.items)
      ensures old(process) != null ==>
        stopEvent && old(process).killed && old(process).stdout == old(process.stdout) &&
        completed == old(process).exitsOnKill
      ensures old(process) != null && completed ==> process == null && audioQueue.items == []
      ensures old(process) != null && !completed ==>
        process == old(process) && audioQueue.items == old(audioQueue.items)
    {
      completed := true;
      if process != null {
        stopEvent := true;
        process.Kill();
        if !process.exitsOnKill {
          completed := false;
          return;
        }
        process := null;
        ClearQueue();
      }
    }

    /**
     * `start_stream(url)`: stop any running process first, then launch a new
     * one. On success the new process is stored and the stop flag cleared; a
     * launch error leaves no process. If stopping the old process times out,
     * the exception leaves before anything is launched.
     */
    method StartStream(url: string, launch: Launch) returns (r: StartResult)
      requires Valid()
      modifies this, audioQueue, process
      ensures Valid()
      ensures requested == old(requested) + [url]
      ensures r == StopTimedOut <==> old(process) != null && !old(process).exitsOnKill
      ensures old(process) != null ==> old(process).killed
      ensures old(process) != null && r != Started ==> stopEvent
      ensures r == StopTimedOut ==> process == old(process) && audioQueue.items == old(audioQueue.items)
      ensures r == Started <==> r != StopTimedOut && launch.Launched?
      ensures r == Started ==>
        fresh(process) && process.stdout == launch.output && !process.killed &&
        process.exitsOnKill == launch.exitsOnKill && !stopEvent && audioQueue.items == []
      ensures r == LaunchFailed ==>
        process == null && audioQueue.items == [] && stopEvent == (old(process) != null || old(stopEvent))
    {
      requested := requested + [url];
      if process != null {
        var stopped := StopStream();
        if !stopped {
          return StopTimedOut;
        }
      }
      match launch
      case Launched(output, exits) =>
        process := new Decoder(output, exits);
        stopEvent := false;
        r := Started;
      case LaunchError =>
        r := LaunchFailed;
    }

    /**
     * One iteration of the `stream_audio` loop. With the stop flag set the loop
     * ends; with a full queue nothing happens; otherwise one chunk of at most
     * `chunkSize` bytes is read and, when non-empty, queued at the back. An empty
     * read stops the stream and requests the current theme's default track.
     * Exceptions (no process, a stop that times out, a theme without a default
     * track) are caught and end the loop as `Crashed`.
     */
    method PumpStep() returns (r: PumpResult)
      requires Valid()
      modifies this, audioQueue, songQueue, process
      ensures Valid()
      ensures requested == old(requested)
      ensures r == Halted <==> old(stopEvent)
      ensures r == Backpressure <==> !old(stopEvent) && |old(audioQueue.items)| >= bufferSize
      ensures r == Halted || r == Backpressure || old(process) == null ==>
        process == old(process) && stopEvent == old(stopEvent) &&
        audioQueue.items == old(audioQueue.items) && songQueue.items == old(songQueue.items)
      ensures r == Halted || r == Backpressure ==>
        process == null || (process.stdout == old(process.stdout) && process.killed == old(process.killed))
      ensures old(process) == null && !old(stopEvent) && |old(audioQueue.items)| < bufferSize ==> r == Crashed
      ensures r == Pushed <==>
        !old(stopEvent) && |old(audioQueue.items)| < bufferSize && old(process) != null &&
        ReadLength(chunkSize, |old(process.stdout)|) > 0
      ensures r == Pushed ==>
        var k := ReadLength(chunkSize, |old(process.stdout)|);
        process == old(process) && stopEvent == old(stopEvent) &&
        process.stdout == old(process.stdout)[k..] && process.killed == old(process.killed) &&
        audioQueue.items == old(audioQueue.items) + [old(process.stdout)[..k]] &&
        songQueue.items == old(songQueue.items)
      ensures r == EndOfStream || (r == Crashed && old(process) != null) ==>
        !old(stopEvent) && |old(audioQueue.items)| < bufferSize &&
        ReadLength(chunkSize, |old(process.stdout)|) == 0 &&
        stopEvent && old(process).killed && old(process).stdout == old(process.stdout)
      ensures r == EndOfStream ==>
        old(process).exitsOnKill && process == null && audioQueue.items == [] &&
        DefaultTrack(dtmfMaps, curTheme.value).Some? &&
        songQueue.items == old(songQueue.items) + [DefaultTrack(dtmfMaps, curTheme.value).value]
      ensures r == Crashed && old(process) != null ==>
        songQueue.items == old(songQueue.items) &&
        (old(process).exitsOnKill ==> process == null && audioQueue.items == [] &&
                                      DefaultTrack(dtmfMaps, curTheme.value).None?) &&
        (!old(process).exitsOnKill ==> process == old(process) && audioQueue.items == old(audioQueue.items))
    {
      if stopEvent {
        return Halted;
      }
      if audioQueue.Size() >= bufferSize {
        return Backpressure;
      }
      if process == null {
        return Crashed;
      }
      var data := process.Read(chunkSize);
      if |data| == 0 {
        var stopped := StopStream();
        if !stopped {
          return Crashed;
        }
        var fallback := DefaultTrack(dtmfMaps, curTheme.value);
        if fallback.None? {
          return Crashed;
        }
        songQueue.Put(fallback.value);
        return EndOfStream;
      }
      audioQueue.Put(data);
      r := Pushed;
    }

    /**
     * `stream_audio`, for at most `fuel` iterations of its loop. While the
     * process is the one the call started with, the queued bytes followed by
     * what the process has still to write are exactly what they were before:
     * chunks are queued in decode order, none lost, none repeated.
     */
    method StreamAudio(fuel: nat) returns (last: PumpResult, steps: nat)
      requires Valid()
      modifies this, audioQueue, songQueue, process
      ensures Valid()
      ensures requested == old(requested)
      ensures steps <= fuel && (steps < fuel ==> last.LeavesLoop())
      ensures process == null || process == old(process)
      ensures old(process) != null && process == old(process) ==>
        Flatten(audioQueue.items) + process.stdout == Flatten(old(audioQueue.items)) + old(process.stdout)
      ensures last != EndOfStream ==> songQueue.items == old(songQueue.items)
      ensures last == EndOfStream ==>
        process == null && audioQueue.items == [] && DefaultTrack(dtmfMaps, curTheme.value).Some? &&
        songQueue.items == old(songQueue.items) + [DefaultTrack(dtmfMaps, curTheme.value).value]
    {
      steps := 0;
      last := Backpressure;
      while steps < fuel && !last.LeavesLoop()
        invariant Valid()
        invariant requested == old(requested)
        invariant steps <= fuel
        invariant process == null || process == old(process)
        invariant old(process) != null && process == old(process) ==>
          Flatten(audioQueue.items) + process.stdout == Flatten(old(audioQueue.items)) + old(process.stdout)
        invariant last != EndOfStream ==> songQueue.items == old(songQueue.items)
        invariant last == EndOfStream ==>
          process == null && audioQueue.items == [] && DefaultTrack(dtmfMaps, curTheme.value).Some? &&
          songQueue.items == old(songQueue.items) + [DefaultTrack(dtmfMaps, curTheme.value).value]
        decreases fuel - steps
      {
        ghost var before := audioQueue.items;
        ghost var pending := if process == null then [] else process.stdout;
        last := PumpStep();
        if last == Pushed {
          var k := ReadLength(chunkSize, |pending|);
          FlattenAppend(before, pending[..k]);
          assert pending[..k] + pending[k..] == pending;
        }
        steps := steps + 1;
      }
    }

    /**
     * `run`, for at most `rounds` turns of its loop, each streaming for at most
     * `fuel` iterations while a process is present. Once the call's end event
     * is set the loop is left and the `finally` clause stops the stream.
     */
    method Run(rounds: nat, fuel: nat) returns (exited: bool)
      requires Valid()
      modifies this, audioQueue, songQueue, process
      ensures Valid()
      ensures requested == old(requested)
      ensures exited == endEvent.isSet
      ensures process == null || process == old(process)
      ensures exited ==> process == null || (process.killed && stopEvent)
      ensures exited ==> songQueue.items == old(songQueue.items)
    {
      var i := 0;
      while i < rounds && !endEvent.isSet
        invariant Valid()
        invariant requested == old(requested)
        invariant process == null || process == old(process)
        invariant endEvent.isSet ==> songQueue.items == old(songQueue.items)
      {
        if process != null {
          var _, _ := StreamAudio(fuel);
        }
        i := i + 1;
      }
      exited := endEvent.isSet;
      if exited {
        var _ := StopStream();
      }
    }
  }

  /** The FFmpegStreamManager worker of one call. */
  class Dispatcher {
    const curTheme: SharedTheme
    const songQueue: RequestQueue
    const endEvent: Event
    const streamer: Supplier

    constructor(curTheme: SharedTheme, songQueue: RequestQueue, endEvent: Event, streamer: Supplier)
      ensures this.curTheme == curTheme && this.songQueue == songQueue
      ensures this.endEvent == endEvent && this.streamer == streamer
    {
      this.curTheme := curTheme;
      this.songQueue := songQueue;
      this.endEvent := endEvent;
      this.streamer := streamer;
    }

    /**
     * One iteration of the `run` loop: take the next request, if any, resolve
     * it under the current theme and restart the supplier on it, exactly once.
     */
    method Step(launch: Launch) returns (r: Option<StartResult>)
      requires songQueue as object != streamer.audioQueue && streamer.Valid()
      modifies songQueue, streamer, streamer.audioQueue, streamer.process
      ensures streamer.Valid()
      ensures old(songQueue.items) == [] ==>
        r.None? && songQueue.items == [] && streamer.requested == old(streamer.requested) &&
        streamer.process == old(streamer.process) && streamer.stopEvent == old(streamer.stopEvent) &&
        streamer.audioQueue.items == old(streamer.audioQueue.items)
      ensures old(songQueue.items) != [] ==>
        r.Some? && songQueue.items == old(songQueue.items)[1..] &&
        streamer.requested == old(streamer.requested) + [Resolve(old(songQueue.items)[0], curTheme.value)]
      ensures r == Some(StopTimedOut) <==>
        old(songQueue.items) != [] && old(streamer.process) != null && !old(streamer.process).exitsOnKill
      ensures r == Some(StopTimedOut) ==> streamer.process == old(streamer.process)
      ensures r == Some(Started) ==>
        launch.Launched? && fresh(streamer.process) && streamer.process.stdout == launch.output &&
        !streamer.process.killed && streamer.process.exitsOnKill == launch.exitsOnKill &&
        !streamer.stopEvent && streamer.audioQueue.items == []
      ensures r == Some(LaunchFailed) ==>
        launch.LaunchError? && streamer.process == null && streamer.audioQueue.items == [] &&
        streamer.stopEvent == (old(streamer.process) != null || old(streamer.stopEvent))
      ensures old(songQueue.items) != [] && old(streamer.process) != null ==> old(streamer.process).killed
      ensures streamer.process == null || streamer.process == old(streamer.process) || fresh(streamer.process)
    {
      var song := songQueue.GetNoWait();
      if song.None? {
        return None;
      }
      var url := Resolve(song.value, curTheme.value);
      var started := streamer.StartStream(url, launch);
      r := Some(started);
    }

    /**
     * `run`, for at most `|launches|` iterations, the i-th using `launches[i]`
     * as the outcome of launching ffmpeg. The requests dequeued are a prefix of
     * the song queue, and the supplier was started once on each of them, in
     * order. A stop that times out escapes the loop; on leaving it (end event
     * set, or that exception) the `finally` clause stops the stream.
     */
    method Run(launches: seq<Launch>) returns (served: nat, exited: bool)
      requires songQueue as object != streamer.audioQueue && streamer.Valid()
      modifies songQueue, streamer, streamer.audioQueue, streamer.process
      ensures streamer.Valid()
      ensures served <= |old(songQueue.items)| && served <= |launches|
      ensures songQueue.items == old(songQueue.items)[served..]
      ensures streamer.requested ==
        old(streamer.requested) + ResolveAll(old(songQueue.items)[..served], curTheme.value)
      ensures !exited ==> served == (if |launches| < |old(songQueue.items)| then |launches| else |old(songQueue.items)|)
      ensures endEvent.isSet ==> exited && served == 0
      ensures exited ==> streamer.process == null || (streamer.process.killed && streamer.stopEvent)
    {
      ghost var songs := songQueue.items;
      served := 0;
      exited := false;
      var i := 0;
      if endEvent.isSet {
        exited := true;
      }
      while i < |launches| && !exited
        invariant streamer.Valid()
        invariant i <= |launches|
        invariant served <= |songs| && served <= i
        invariant songQueue.items == songs[served..]
        invariant streamer.requested == old(streamer.requested) + ResolveAll(songs[..served], curTheme.value)
        invariant !exited ==> served == (if i < |songs| then i else |songs|)
        invariant endEvent.isSet ==> exited && served == 0
        invariant streamer.process == null || streamer.process == old(streamer.process) || fresh(streamer.process)
      {
        var r := Step(launches[i]);
        if r.Some? {
          assert songs[..served + 1] == songs[..served] + [songs[served]];
          assert ResolveAll(songs[..served + 1], curTheme.value) ==
            ResolveAll(songs[..served], curTheme.value) + [Resolve(songs[served], curTheme.value)];
          served := served + 1;
        }
        if r == Some(StopTimedOut) {
          exited := true;
        }
        i := i + 1;
      }
      if exited {
        var _ := streamer.StopStream();
      }
    }
  }
}
