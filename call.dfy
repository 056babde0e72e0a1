/**
 * One call (app/call.py): the media port that hands audio frames to the
 * transport, the keypad menu, and the call object that owns the queues,
 * the current-theme cell, the stop event and the two workers.
 * Signalling, media wiring and the transport itself are external.
 */
module Call {
  import opened Wrappers
  import opened Const
  import opened Themes
  import opened Sync
  import opened Audio

  const DEFAULT_SAMPLE_RATE: int := 16000
  const DEFAULT_CHANNELS: int := 1
  const DEFAULT_BIT_DEPTH: int := 16

  /**
   * `frame_size`: bytes of `sampleRate * channels` samples of `bitDepth` bits.
   * (Python's `//` floors; so does Dafny's `/` by the positive 8.)
   */
  function FrameSize(sampleRate: int, channels: int, bitDepth: int): int
  {
    (sampleRate * channels * bitDepth) / 8
  }

  /**
   * The silent frame is one second of mono 16-bit audio, fifty times the
   * 20 ms chunk the decoder delivers whenever the rate is a multiple of 25 Hz.
   */
  lemma FrameSizeIsOneSecond(sampleRate: nat)
    ensures FrameSize(sampleRate, CHANNELCOUNT, BITPERSAMPLE) == 2 * sampleRate
    ensures sampleRate % 25 == 0 ==> FrameSize(sampleRate, CHANNELCOUNT, BITPERSAMPLE) == 50 * ChunkSize(sampleRate)
  {
    ChunkSizeFormula(sampleRate);
    if sampleRate % 25 == 0 {
      var m := sampleRate / 25;
      assert sampleRate == 25 * m;
      assert sampleRate * 4 == 100 * m;
    }
  }

  /** At the default 16 kHz the silent frame has 32000 bytes against a 640-byte chunk. */
  lemma DefaultFrameSizes()
    ensures FrameSize(DEFAULT_SAMPLE_RATE, DEFAULT_CHANNELS, DEFAULT_BIT_DEPTH) == 32000
    ensures ChunkSize(DEFAULT_SAMPLE_RATE) == 640
  {
    ChunkSizeExamples();
  }

  /** `[0] * n`: `n` zero bytes (none for a negative `n`). */
  function Silence(n: int): (z: Chunk)
    ensures |z| == (if n < 0 then 0 else n)
    ensures forall k :: 0 <= k < |z| ==> z[k] == 0
  {
    if n <= 0 then [] else Silence(n - 1) + [0]
  }

  /** The frame object the transport passes in. */
  class Frame {
    var isAudio: bool
    var buf: seq<Byte>

    constructor()
      ensures !isAudio && buf == []
    {
      isAudio := false;
      buf := [];
    }
  }

  /** MyAudioMediaPort: pulls one chunk per transport tick, or plays silence. */
  class MediaPort {
    const audioQueue: FrameQueue
    const sampleRate: int
    const channels: int
    const bitDepth: int
    const frameSize: int

    constructor(audioQueue: FrameQueue, sampleRate: int, channels: int, bitDepth: int)
      ensures this.audioQueue == audioQueue && this.sampleRate == sampleRate
      ensures this.channels == channels && this.bitDepth == bitDepth
      ensures frameSize == FrameSize(sampleRate, channels, bitDepth)
    {
      this.audioQueue := audioQueue;
      this.sampleRate := sampleRate;
      this.channels := channels;
      this.bitDepth := bitDepth;
      this.frameSize := FrameSize(sampleRate, channels, bitDepth);
    }

    /**
     * `onFrameRequested`: never waits. With audio queued the frame is the front
     * chunk, removed from the queue; otherwise it is `frameSize` zero bytes and
     * the queue stays empty.
     */
    method OnFrameRequested(frame: Frame)
      modifies frame, audioQueue
      ensures frame.isAudio
      ensures old(audioQueue.items) != [] ==>
        frame.buf == old(audioQueue.items)[0] && audioQueue.items == old(audioQueue.items)[1..]
      ensures old(audioQueue.items) == [] ==> frame.buf == Silence(frameSize) && audioQueue.items == []
    {
      frame.isAudio := true;
      var data := audioQueue.GetNoWait();
      match data
      case Some(c) =>
        frame.buf := c;
      case None =>
        frame.buf := Silence(frameSize);
    }
  }

  /** `themes.index(x)`: the first position of `x`. */
  function IndexOf(s: seq<Theme>, x: Theme): (i: nat)
    requires x in s
    ensures i < |s| && s[i] == x
    ensures forall j :: 0 <= j < i ==> s[j] != x
  {
    if s[0] == x then 0 else 1 + IndexOf(s[1..], x)
  }

  /** Python truthiness of a track name: the empty name is never played. */
  function Truthy(t: Track): Option<Track>
  {
    if t == "" then None else Some(t)
  }

  /**
   * What one keypad event does: the theme the call is in afterwards, and the
   * request it enqueues, if any. `MissingDefault` is the KeyError raised after
   * switching to a theme whose mapping has no "default" key.
   */
  datatype DigitOutcome = Handled(theme: Theme, request: Option<Track>) | MissingDefault(theme: Theme)

  /** The requests an outcome puts on the song queue. */
  function Requests(o: DigitOutcome): seq<Track>
  {
    if o.Handled? then AsSeq(o.request) else []
  }

  /** Switching to theme `t`: its default track is requested. */
  function EnterTheme(maps: map<Theme, ThemeMap>, t: Theme): (o: DigitOutcome)
    ensures o.theme == t
  {
    match DefaultTrack(maps, t)
    case None => MissingDefault(t)
    case Some(track) => Handled(t, Truthy(track))
  }

  /**
   * `onDtmfDigit` as a transition from the current theme. `*` and `#` step
   * backwards and forwards in catalog order, wrapping around (Python's `%`
   * and Dafny's agree for a positive modulus); a mapped key plays its track;
   * anything else does nothing. The theme stays in the catalog.
   */
  function Navigate(cat: Catalog, cur: Theme, digit: string): (o: DigitOutcome)
    requires cat.Navigable() && cur in cat.themes
    ensures o.theme in cat.themes
  {
    var n := |cat.themes|;
    if digit == "*" then EnterTheme(cat.maps, cat.themes[(IndexOf(cat.themes, cur) - 1) % n])
    else if digit == "#" then EnterTheme(cat.maps, cat.themes[(IndexOf(cat.themes, cur) + 1) % n])
    else if digit in cat.maps[cur] then Handled(cur, Truthy(cat.maps[cur][digit]))
    else Handled(cur, None)
  }

  /** The theme reached by pressing `digits` in turn from `cur`. */
  function PressAll(cat: Catalog, cur: Theme, digits: seq<string>): (t: Theme)
    requires cat.Navigable() && cur in cat.themes
    ensures t in cat.themes
    decreases |digits|
  {
    if digits == [] then cur else PressAll(cat, Navigate(cat, cur, digits[0]).theme, digits[1..])
  }

  /** The net number of forward steps in a run of `*` and `#` presses. */
  function Net(digits: seq<string>): int
  {
    if digits == [] then 0 else (if digits[0] == "#" then 1 else -1) + Net(digits[1..])
  }

  /** In a catalog without repeats, a theme's first position is its position. */
  lemma IndexOfDistinct(s: seq<Theme>, i: nat)
    requires Distinct(s) && i < |s|
    ensures IndexOf(s, s[i]) == i
  {
  }

  /** A positive multiple of `n` is at least `n`. */
  lemma MulAtLeast(d: int, n: int)
    requires n > 0 && d >= 1
    ensures d * n >= n
  {
    assert d * n == (d - 1) * n + n;
    assert (d - 1) * n >= 0;
  }

  /** Euclidean remainders are unique. */
  lemma ModUnique(y: int, m: int, n: int, r: int)
    requires n > 0 && 0 <= r < n && y == m * n + r
    ensures y % n == r
  {
    var q := y / n;
    assert y == q * n + y % n;
    assert (m - q) * n == y % n - r;
    if m - q >= 1 {
      MulAtLeast(m - q, n);
    } else if q - m >= 1 {
      MulAtLeast(q - m, n);
    }
  }

  /** Reducing modulo `n` before adding gives the same remainder. */
  lemma ModAdd(a: int, b: int, n: int)
    requires n > 0
    ensures (a % n + b) % n == (a + b) % n
  {
    var x := a % n + b;
    assert a == (a / n) * n + a % n;
    assert x == (x / n) * n + x % n;
    assert a + b == (x / n + a / n) * n + x % n by {
      assert (x / n + a / n) * n == (x / n) * n + (a / n) * n;
    }
    ModUnique(a + b, x / n + a / n, n, x % n);
  }

  /** `*` from the theme at position `i` enters the theme before it, the last one from the first. */
  lemma StarSelectsPrevious(cat: Catalog, i: nat)
    requires cat.Navigable() && Distinct(cat.themes) && i < |cat.themes|
    ensures Navigate(cat, cat.themes[i], "*") ==
      EnterTheme(cat.maps, cat.themes[if i == 0 then |cat.themes| - 1 else i - 1])
  {
    IndexOfDistinct(cat.themes, i);
    var n := |cat.themes|;
    if i == 0 {
      ModUnique(-1, -1, n, n - 1);
    } else {
      ModUnique(i - 1, 0, n, i - 1);
    }
  }

  /** `#` from the theme at position `i` enters the theme after it, the first one from the last. */
  lemma HashSelectsNext(cat: Catalog, i: nat)
    requires cat.Navigable() && Distinct(cat.themes) && i < |cat.themes|
    ensures Navigate(cat, cat.themes[i], "#") ==
      EnterTheme(cat.maps, cat.themes[if i == |cat.themes| - 1 then 0 else i + 1])
  {
    IndexOfDistinct(cat.themes, i);
    var n := |cat.themes|;
    if i == n - 1 {
      ModUnique(n, 1, n, 0);
    } else {
      ModUnique(i + 1, 0, n, i + 1);
    }
  }

  /** Entering a theme requests exactly its default track, when that is non-empty. */
  lemma EnterThemeRequestsDefault(cat: Catalog, t: Theme)
    requires t in cat.maps && DEFAULT_KEY in cat.maps[t] && cat.maps[t][DEFAULT_KEY] != ""
    ensures Requests(EnterTheme(cat.maps, t)) == [cat.maps[t][DEFAULT_KEY]]
    ensures EnterTheme(cat.maps, t).theme == t
  {
  }

  /** Without repeated names, `#` then `*` comes back to the starting theme, and so does `*` then `#`. */
  lemma NextThenPreviousRestores(cat: Catalog, cur: Theme)
    requires cat.Navigable() && Distinct(cat.themes) && cur in cat.themes
    ensures Navigate(cat, Navigate(cat, cur, "#").theme, "*").theme == cur
    ensures Navigate(cat, Navigate(cat, cur, "*").theme, "#").theme == cur
  {
    var n := |cat.themes|;
    var i := IndexOf(cat.themes, cur);
    HashSelectsNext(cat, i);
    var j := if i == n - 1 then 0 else i + 1;
    assert Navigate(cat, cur, "#").theme == cat.themes[j];
    StarSelectsPrevious(cat, j);
    assert Navigate(cat, cat.themes[j], "*").theme == cat.themes[i];
    StarSelectsPrevious(cat, i);
    var k := if i == 0 then n - 1 else i - 1;
    assert Navigate(cat, cur, "*").theme == cat.themes[k];
    HashSelectsNext(cat, k);
    assert Navigate(cat, cat.themes[k], "#").theme == cat.themes[i];
  }

  /** The position one `#` (forwards) or `*` (backwards) press leads to, wrapping around. */
  function StepIndex(i: nat, d: string, n: nat): (j: nat)
    requires i < n
    ensures j < n
  {
    if d == "#" then (if i == n - 1 then 0 else i + 1) else (if i == 0 then n - 1 else i - 1)
  }

  /** The position a run of `*` and `#` presses leads to. */
  function PressIndex(i: nat, digits: seq<string>, n: nat): (j: nat)
    requires i < n
    ensures j < n
    decreases |digits|
  {
    if digits == [] then i else PressIndex(StepIndex(i, digits[0], n), digits[1..], n)
  }

  /** Pressing a run of `*` and `#` moves through the catalog position by position. */
  lemma {:induction false} PressAllIndex(cat: Catalog, i: nat, digits: seq<string>)
    requires cat.Navigable() && Distinct(cat.themes) && i < |cat.themes|
    requires forall k :: 0 <= k < |digits| ==> digits[k] == "*" || digits[k] == "#"
    ensures PressAll(cat, cat.themes[i], digits) == cat.themes[PressIndex(i, digits, |cat.themes|)]
    decreases |digits|
  {
    if digits != [] {
      var n := |cat.themes|;
      if digits[0] == "#" {
        HashSelectsNext(cat, i);
      } else {
        StarSelectsPrevious(cat, i);
      }
      PressAllIndex(cat, StepIndex(i, digits[0], n), digits[1..]);
    }
  }

  /** The position reached is the start plus the net number of forward steps, modulo `n`. */
  lemma {:induction false} PressIndexMod(i: nat, digits: seq<string>, n: nat)
    requires i < n
    ensures PressIndex(i, digits, n) == (i + Net(digits)) % n
    decreases |digits|
  {
    if digits == [] {
      ModUnique(i, 0, n, i);
    } else {
      var step := if digits[0] == "#" then 1 else -1;
      var j := StepIndex(i, digits[0], n);
      if digits[0] == "#" {
        ModUnique(i + 1, if i == n - 1 then 1 else 0, n, j);
      } else {
        ModUnique(i - 1, if i == 0 then -1 else 0, n, j);
      }
      PressIndexMod(j, digits[1..], n);
      ModAdd(i + step, Net(digits[1..]), n);
    }
  }

  /**
   * Any run of `*` and `#` presses from the theme at position `i` ends at
   * position `(i + #'s - *'s) mod n`: the menu cycles through the catalog.
   */
  lemma PressesCycle(cat: Catalog, i: nat, digits: seq<string>)
    requires cat.Navigable() && Distinct(cat.themes) && i < |cat.themes|
    requires forall k :: 0 <= k < |digits| ==> digits[k] == "*" || digits[k] == "#"
    ensures PressAll(cat, cat.themes[i], digits) == cat.themes[(i + Net(digits)) % |cat.themes|]
  {
    PressAllIndex(cat, i, digits);
    PressIndexMod(i, digits, |cat.themes|);
  }

  /** A mapped key other than `*` and `#` plays exactly its track and keeps the theme. */
  lemma MappedDigitPlaysTrack(cat: Catalog, cur: Theme, digit: string)
    requires cat.Navigable() && cur in cat.themes
    requires digit != "*" && digit != "#"
    requires digit in cat.maps[cur] && cat.maps[cur][digit] != ""
    ensures Navigate(cat, cur, digit) == Handled(cur, Some(cat.maps[cur][digit]))
    ensures Requests(Navigate(cat, cur, digit)) == [cat.maps[cur][digit]]
  {
  }

  /** An unmapped key, or one mapped to an empty name, requests nothing and keeps the theme. */
  lemma UnmappedDigitIgnored(cat: Catalog, cur: Theme, digit: string)
    requires cat.Navigable() && cur in cat.themes
    requires digit != "*" && digit != "#"
    requires digit !in cat.maps[cur] || cat.maps[cur][digit] == ""
    ensures Navigate(cat, cur, digit) == Handled(cur, None)
    ensures Requests(Navigate(cat, cur, digit)) == []
  {
  }

  /** A two-theme menu: start, `#`, `2`, `9`. */
  lemma MenuScenario()
    ensures
      var menu1 := map["1" := "a.raw", "default" := "welcome.raw"];
      var menu2 := map["2" := "b.raw", "default" := "intro.raw"];
      var cat := Catalog(["menu1", "menu2"], map["menu1" := menu1, "menu2" := menu2]);
      cat.Navigable() &&
      DefaultTrack(cat.maps, "menu1") == Some("welcome.raw") &&
      Navigate(cat, "menu1", "#") == Handled("menu2", Some("intro.raw")) &&
      Navigate(cat, "menu2", "2") == Handled("menu2", Some("b.raw")) &&
      Navigate(cat, "menu2", "9") == Handled("menu2", None) &&
      Navigate(cat, "menu2", "#").theme == "menu1" &&
      Navigate(cat, "menu1", "*").theme == "menu2"
  {
    var menu1 := map["1" := "a.raw", "default" := "welcome.raw"];
    var menu2 := map["2" := "b.raw", "default" := "intro.raw"];
    var cat := Catalog(["menu1", "menu2"], map["menu1" := menu1, "menu2" := menu2]);
    assert Distinct(cat.themes);
    HashSelectsNext(cat, 0);
    HashSelectsNext(cat, 1);
    StarSelectsPrevious(cat, 0);
    assert "1" != "2" && "9" != "2" && "9" != "default";
  }

  /** MyCall: one answered call and its pipeline. */
  class SessionCall {
    const catalog: Catalog
    const registry: Registry
    const songQueue: RequestQueue
    const audioQueue: FrameQueue
    const endEvent: Event
    const id: SessionId
    const curTheme: SharedTheme
    const streamer: Supplier
    const manager: Dispatcher

    /** The wiring of the call's objects, the current theme in the catalog, and the supplier's invariant. */
    ghost predicate Valid()
      reads this, curTheme, streamer, audioQueue
    {
      catalog.Navigable() && curTheme.value in catalog.themes &&
      streamer.audioQueue == audioQueue && streamer.songQueue == songQueue &&
      streamer.curTheme == curTheme && streamer.endEvent == endEvent &&
      streamer.dtmfMaps == catalog.maps && streamer.bufferSize == BUFFERSIZE &&
      manager.streamer == streamer && manager.curTheme == curTheme &&
      manager.songQueue == songQueue && manager.endEvent == endEvent &&
      streamer.Valid()
    }

    /**
     * `__init__`: fresh queues and stop event, the stop event registered under
     * the call's id (and nothing else in the registry touched), the first theme
     * current, and both workers built on the shared objects.
     */
    constructor(registry: Registry, catalog: Catalog, id: SessionId, sampleRate: int)
      requires catalog.Navigable()
      modifies registry
      ensures Valid()
      ensures this.registry == registry && this.catalog == catalog && this.id == id
      ensures registry.events == old(registry.events)[id := endEvent]
      ensures fresh(endEvent) && !endEvent.isSet
      ensures fresh(songQueue) && songQueue.items == [] && fresh(audioQueue) && audioQueue.items == []
      ensures fresh(curTheme) && curTheme.value == catalog.themes[0]
      ensures fresh(streamer) && streamer.process == null && streamer.chunkSize == ChunkSize(sampleRate)
    {
      var sq := new Queue<string>();
      var aq := new Queue<Chunk>();
      var ev := new Event();
      var cell := new SharedTheme(catalog.themes[0]);
      var st := new Supplier(aq, sq, ChunkSize(sampleRate), BUFFERSIZE, catalog.maps, cell, ev);
      var mg := new Dispatcher(cell, sq, ev, st);
      this.catalog := catalog;
      this.registry := registry;
      this.songQueue := sq;
      this.audioQueue := aq;
      this.endEvent := ev;
      this.id := id;
      this.curTheme := cell;
      this.streamer := st;
      this.manager := mg;
      new;
      registry.Register(id, ev);
    }

    /**
     * `onDtmfDigit`: the current theme becomes the navigated one and its
     * request, if any, joins the back of the song queue. `raised` reports the
     * KeyError of a theme without a default track.
     */
    method OnDtmfDigit(digit: string) returns (raised: bool)
      requires Valid()
      modifies curTheme, songQueue
      ensures Valid()
      ensures curTheme.value == Navigate(catalog, old(curTheme.value), digit).theme
      ensures songQueue.items == old(songQueue.items) + Requests(Navigate(catalog, old(curTheme.value), digit))
      ensures raised == Navigate(catalog, old(curTheme.value), digit).MissingDefault?
    {
      var o := Navigate(catalog, curTheme.value, digit);
      curTheme.value := o.theme;
      raised := o.MissingDefault?;
      if o.Handled? && o.request.Some? {
        songQueue.Put(o.request.value);
      }
    }

    /**
     * `onCallState` for CONFIRMED: the current theme's default track is
     * requested once (an empty one too: this path has no truthiness test).
     * `raised` reports the KeyError of a theme without one.
     */
    method OnConfirmed() returns (raised: bool)
      requires Valid()
      modifies songQueue
      ensures Valid()
      ensures songQueue.items == old(songQueue.items) + AsSeq(DefaultTrack(catalog.maps, curTheme.value))
      ensures raised == DefaultTrack(catalog.maps, curTheme.value).None?
    {
      var track := DefaultTrack(catalog.maps, curTheme.value);
      raised := track.None?;
      if track.Some? {
        songQueue.Put(track.value);
      }
    }

    /**
     * `_cleanup_resources` (on DISCONNECTED): set the stop event, remove this
     * call's id and no other from the registry, then join both workers: each
     * sees the event, leaves its loop and stops the stream in its `finally`.
     * A missing id raises KeyError before the joins (`removed` false).
     */
    method Cleanup() returns (removed: bool)
      requires Valid()
      modifies endEvent, registry, songQueue, streamer, audioQueue, streamer.process
      ensures Valid()
      ensures endEvent.isSet
      ensures removed == (id in old(registry.events))
      ensures registry.events == old(registry.events) - {id}
      ensures songQueue.items == old(songQueue.items)
      ensures removed ==> streamer.process == null || (streamer.process.killed && streamer.stopEvent)
    {
      endEvent.Set();
      removed := registry.Remove(id);
      if !removed {
        return;
      }
      var _ := streamer.Run(0, 0);
      var _, _ := manager.Run([]);
      assert old(songQueue.items)[0..] == old(songQueue.items);
    }
  }
}
