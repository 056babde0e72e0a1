/**
 * Configuration constants of the service (app/const.py): the audio format,
 * the size of one transport chunk, the frame-queue capacity, the sound
 * directory, and the list of theme names read from the THEMES setting.
 * The values read from the environment (SAMPLERATE, THEMES) are parameters.
 */
module Const {
  import opened Wrappers
  import opened Strings

  /** Mono audio. */
  const CHANNELCOUNT: int := 1
  /** Signed 16-bit samples. */
  const BITPERSAMPLE: int := 16
  /** One transport frame lasts this many microseconds. */
  const FRAMETIME: int := 20000
  /** The frame time in seconds, computed exactly (the source uses a float). */
  const FRAMEDURATION: real := FRAMETIME as real / 1000000.0
  /** Frames kept ahead of the transport. */
  const BUFFERSIZE: nat := 50
  /** Root of the local sound files. */
  const SOUND_DIR: string := "./sound"

  /** Python's `int(x)` on a float: truncation toward zero. */
  function Truncate(x: real): (n: int)
    ensures x >= 0.0 ==> n as real <= x < n as real + 1.0
    ensures x < 0.0 ==> n as real - 1.0 < x <= n as real
  {
    if x >= 0.0 then x.Floor else -((-x).Floor)
  }

  /** CHUNKSIZE: bytes in one frame of audio at `sampleRate`, truncated as `int(...)` does. */
  function ChunkSize(sampleRate: int): int
  {
    Truncate(sampleRate as real * FRAMEDURATION * CHANNELCOUNT as real * (BITPERSAMPLE as real / 8.0))
  }

  /** A 20000 microsecond frame lasts 0.02 seconds. */
  lemma FrameDurationIsTwentyMilliseconds()
    ensures FRAMEDURATION == 0.02
  {
  }

  /** With mono 16-bit frames of 20 ms, a chunk holds `sampleRate * 4 / 100` bytes (rounded down). */
  lemma ChunkSizeFormula(sampleRate: nat)
    ensures ChunkSize(sampleRate) == sampleRate * 4 / 100
  {
    var q, r := sampleRate * 4 / 100, sampleRate * 4 % 100;
    assert sampleRate * 4 == 100 * q + r && 0 <= r < 100;
    var x := sampleRate as real * FRAMEDURATION * CHANNELCOUNT as real * (BITPERSAMPLE as real / 8.0);
    assert x == (sampleRate * 4) as real / 100.0;
    assert x == q as real + r as real / 100.0;
    assert q as real <= x < q as real + 1.0;
  }

  /** The usual wide-band rates. */
  lemma ChunkSizeExamples()
    ensures ChunkSize(16000) == 640
    ensures ChunkSize(8000) == 320
    ensures ChunkSize(48000) == 1920
  {
    ChunkSizeFormula(16000);
    ChunkSizeFormula(8000);
    ChunkSizeFormula(48000);
  }

  /** `themes_list`: the THEMES setting split at commas, or no themes when it is unset or empty. */
  function ThemesList(themes: Option<string>): seq<string>
  {
    if themes.None? || themes.value == "" then [] else Split(themes.value, ',')
  }

  /** Unset or empty THEMES gives no themes; any other value gives at least one. */
  lemma ThemesListEmptyIff(themes: Option<string>)
    ensures ThemesList(themes) == [] <==> themes.None? || themes.value == ""
  {
  }

  /**
   * A non-empty THEMES is split into one name more than it has commas, none of
   * them containing a comma, and joining them with commas gives THEMES back.
   */
  lemma ThemesListSplit(themes: string)
    requires themes != ""
    ensures |ThemesList(Some(themes))| == Count(themes, ',') + 1
    ensures forall k :: 0 <= k < |ThemesList(Some(themes))| ==> ',' !in ThemesList(Some(themes))[k]
    ensures Join(ThemesList(Some(themes)), ',') == themes
  {
    SplitLength(themes, ',');
    SplitPiecesHaveNoSeparator(themes, ',');
    JoinSplit(themes, ',');
  }

  /** Example settings: "a,b" names two themes, "menu" one, and "a,,b" keeps the empty name between the commas. */
  lemma ThemesListExamples()
    ensures ThemesList(Some("a,b")) == ["a", "b"]
    ensures ThemesList(Some("menu")) == ["menu"]
    ensures ThemesList(Some("a,,b")) == ["a", "", "b"]
  {
    SplitJoin(["a", "b"], ',');
    assert Join(["a", "b"], ',') == "a,b";
    SplitJoin(["menu"], ',');
    SplitJoin(["a", "", "b"], ',');
    assert Join(["", "b"], ',') == ",b";
    assert Join(["a", "", "b"], ',') == "a,,b";
  }
}
