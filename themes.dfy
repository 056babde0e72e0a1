/**
 * The theme catalog shared by every call: the ordered list of theme names
 * and, for each, the key-to-track mapping loaded from its JSON file
 * (single keypad characters plus the key "default").
 */
module Themes {
  import opened Wrappers

  type Theme = string
  type Track = string

  /** One theme's mapping, from keys ("1", "#", "default", ...) to track names. */
  type ThemeMap = map<string, Track>

  /** The key every theme file is expected to carry: the track played on entering the theme. */
  const DEFAULT_KEY: string := "default"

  /** `themes` in navigation order, and `maps` (the `dtmf_maps` dictionary) from theme to mapping. */
  datatype Catalog = Catalog(themes: seq<Theme>, maps: map<Theme, ThemeMap>)
  {
    /** What a call relies on: at least one theme, and a mapping for each theme. */
    predicate Navigable()
    {
      |themes| > 0 && forall k :: 0 <= k < |themes| ==> themes[k] in maps
    }
  }

  /** No name occurs twice. */
  predicate Distinct(s: seq<Theme>)
  {
    forall i, j :: 0 <= i < j < |s| ==> s[i] != s[j]
  }

  /** `dtmf_maps[theme]['default']`, or None where that lookup raises KeyError. */
  function DefaultTrack(maps: map<Theme, ThemeMap>, theme: Theme): (t: Option<Track>)
    ensures t.Some? <==> theme in maps && DEFAULT_KEY in maps[theme]
    ensures t.Some? ==> t.value == maps[theme][DEFAULT_KEY]
  {
    if theme in maps && DEFAULT_KEY in maps[theme] then Some(maps[theme][DEFAULT_KEY]) else None
  }
}
