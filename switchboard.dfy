/**
 * Start-up and shutdown of the service (app/switchboard.py): loading the
 * per-theme key maps into the catalog, the refusal to start without any
 * theme, the shutdown broadcast to every session's stop event, and the
 * rule that enables only the configured codec. The file system, the JSON
 * parser and the codec table of the SIP library are given as values.
 */
module Switchboard {
  import opened Wrappers
  import opened Strings
  import opened Themes
  import opened Sync

  // ---------------------------------------------------------------------
  // Map files
  // ---------------------------------------------------------------------

  /** What opening and parsing one map file gives: its mapping, or a JSON decoding error. */
  datatype FileState = Parsed(m: ThemeMap) | Malformed

  /** The files under the sound directory by path; a path that is absent raises FileNotFoundError. */
  type Files = map<string, FileState>

  /** `dtmf_map_<theme>.json`. */
  function MapFileName(theme: Theme): (name: string)
    ensures |name| == |theme| + 14
    ensures name[..9] == "dtmf_map_" && name[9..9 + |theme|] == theme
    ensures name[9 + |theme|..] == ".json"
  {
    "dtmf_map_" + theme + ".json"
  }

  /** `os.path.join(dir, name)` for a relative `name`: a separator is added unless `dir` is empty or ends in one. */
  function PathJoin(dir: string, name: string): (p: string)
    ensures |dir| <= |p| && p[..|dir|] == dir
    ensures |name| <= |p| && p[|p| - |name|..] == name
    ensures dir == "" ==> p == name
    ensures dir != "" && dir[|dir| - 1] == '/' ==> p == dir + name
    ensures dir != "" && dir[|dir| - 1] != '/' ==> p == dir + "/" + name
  {
    if dir == "" then name
    else if dir[|dir| - 1] == '/' then dir + name
    else dir + "/" + name
  }

  /** The path of a theme's map file. */
  function MapPath(dir: string, theme: Theme): string
  {
    PathJoin(dir, MapFileName(theme))
  }

  /** Under a directory not ending in a separator, a theme reads `<dir>/dtmf_map_<theme>.json`. */
  lemma MapPathUnder(dir: string, theme: Theme)
    requires dir != "" && dir[|dir| - 1] != '/'
    ensures MapPath(dir, theme) == dir + "/dtmf_map_" + theme + ".json"
  {
    assert dir + "/" + ("dtmf_map_" + theme + ".json") == dir + "/dtmf_map_" + theme + ".json";
  }

  /** Under the default sound directory the "jazz" theme reads `./sound/dtmf_map_jazz.json`. */
  lemma MapPathExample()
    ensures MapPath("./sound", "jazz") == "./sound/dtmf_map_jazz.json"
  {
    var dir := "./sound";
    assert dir[|dir| - 1] == 'd';
    MapPathUnder(dir, "jazz");
  }

  /** Distinct themes read distinct files. */
  lemma MapPathInjective(dir: string, t1: Theme, t2: Theme)
    requires MapPath(dir, t1) == MapPath(dir, t2)
    ensures t1 == t2
  {
    var n1, n2 := MapFileName(t1), MapFileName(t2);
    var p := MapPath(dir, t1);
    assert |n1| == |n2| by {
      if dir == "" {
      } else if dir[|dir| - 1] == '/' {
        assert p == dir + n1 && p == dir + n2;
      } else {
        assert p == dir + "/" + n1 && p == dir + "/" + n2;
      }
    }
    assert n1 == p[|p| - |n1|..] == n2;
    assert t1 == n1[9..9 + |t1|] == n2[9..9 + |t2|] == t2;
  }

  // ---------------------------------------------------------------------
  // Loading the catalog
  // ---------------------------------------------------------------------

  /** The theme's file exists and parses. */
  predicate Loads(dir: string, files: Files, t: Theme)
  {
    MapPath(dir, t) in files && files[MapPath(dir, t)].Parsed?
  }

  /** `dtmf_maps[t] = m`: a new key goes last in the key order, an existing key keeps its place. */
  function Insert(cat: Catalog, t: Theme, m: ThemeMap): Catalog
  {
    Catalog(if t in cat.maps then cat.themes else cat.themes + [t], cat.maps[t := m])
  }

  /** One iteration of the loading loop: a missing or malformed file leaves the dictionary as it is. */
  function LoadOne(cat: Catalog, dir: string, files: Files, t: Theme): Catalog
  {
    if Loads(dir, files, t) then Insert(cat, t, files[MapPath(dir, t)].m) else cat
  }

  /** `load_dtmf_maps` with `list(dtmf_maps.keys())`: the themes taken in order. */
  function LoadCatalog(themes: seq<Theme>, dir: string, files: Files): Catalog
    decreases |themes|
  {
    if themes == [] then Catalog([], map[])
    else LoadOne(LoadCatalog(themes[..|themes| - 1], dir, files), dir, files, themes[|themes| - 1])
  }

  /** The key list lists each key of the dictionary exactly once. */
  predicate KeysMatch(cat: Catalog)
  {
    Distinct(cat.themes)
    && (forall k :: 0 <= k < |cat.themes| ==> cat.themes[k] in cat.maps)
    && (forall t :: t in cat.maps ==> t in cat.themes)
  }

  /** The themes of `themes`, in order, whose files load. */
  function Loaded(themes: seq<Theme>, dir: string, files: Files): (r: seq<Theme>)
    ensures |r| <= |themes|
    decreases |themes|
  {
    if themes == [] then []
    else
      var init := Loaded(themes[..|themes| - 1], dir, files);
      var t := themes[|themes| - 1];
      if Loads(dir, files, t) then init + [t] else init
  }

  /** `load_dtmf_maps` as its loop runs, over an explicit dictionary. */
  method LoadDtmfMaps(themes: seq<Theme>, dir: string, files: Files) returns (cat: Catalog)
    ensures cat == LoadCatalog(themes, dir, files)
  {
    var keys: seq<Theme> := [];
    var maps: map<Theme, ThemeMap> := map[];
    for i := 0 to |themes|
      invariant Catalog(keys, maps) == LoadCatalog(themes[..i], dir, files)
    {
      assert themes[..i + 1][..i] == themes[..i];
      var t := themes[i];
      var path := MapPath(dir, t);
      if path in files && files[path].Parsed? {
        if t !in maps {
          keys := keys + [t];
        }
        maps := maps[t := files[path].m];
      }
    }
    assert themes[..|themes|] == themes;
    cat := Catalog(keys, maps);
  }

  /** Loading keeps the key list and the dictionary in step. */
  lemma {:induction false} LoadKeysMatch(themes: seq<Theme>, dir: string, files: Files)
    ensures KeysMatch(LoadCatalog(themes, dir, files))
    decreases |themes|
  {
    if themes != [] {
      var init := themes[..|themes| - 1];
      LoadKeysMatch(init, dir, files);
      var c := LoadCatalog(init, dir, files);
      var t := themes[|themes| - 1];
      if Loads(dir, files, t) && t !in c.maps {
        var r := LoadCatalog(themes, dir, files);
        assert r.themes == c.themes + [t];
        forall i, j | 0 <= i < j < |r.themes| ensures r.themes[i] != r.themes[j] {
          if j == |c.themes| {
            assert r.themes[i] == c.themes[i] && c.themes[i] in c.maps;
          }
        }
      }
    }
  }

  /** A theme is a key of the dictionary exactly when it was asked for and its file loaded. */
  lemma {:induction false} LoadMembership(themes: seq<Theme>, dir: string, files: Files, t: Theme)
    ensures t in LoadCatalog(themes, dir, files).maps <==> t in themes && Loads(dir, files, t)
    decreases |themes|
  {
    if themes != [] {
      var init := themes[..|themes| - 1];
      LoadMembership(init, dir, files, t);
      assert themes == init + [themes[|themes| - 1]];
    }
  }

  /** A loaded theme's mapping is the parsed content of its own file. */
  lemma {:induction false} LoadContent(themes: seq<Theme>, dir: string, files: Files, t: Theme)
    requires t in LoadCatalog(themes, dir, files).maps
    ensures Loads(dir, files, t)
    ensures LoadCatalog(themes, dir, files).maps[t] == files[MapPath(dir, t)].m
    decreases |themes|
  {
    var init := themes[..|themes| - 1];
    var last := themes[|themes| - 1];
    if t != last || !Loads(dir, files, t) {
      LoadContent(init, dir, files, t);
    }
  }

  /** With no theme named twice, the key order is the order of the themes whose files load. */
  lemma {:induction false} LoadOrder(themes: seq<Theme>, dir: string, files: Files)
    requires Distinct(themes)
    ensures LoadCatalog(themes, dir, files).themes == Loaded(themes, dir, files)
    decreases |themes|
  {
    if themes != [] {
      var init := themes[..|themes| - 1];
      var t := themes[|themes| - 1];
      LoadOrder(init, dir, files);
      LoadMembership(init, dir, files, t);
      assert t !in init by {
        forall i | 0 <= i < |init| ensures init[i] != t {
          assert init[i] == themes[i];
        }
      }
    }
  }

  /** The names of `s` in order of first occurrence, each kept once. */
  function Dedup(s: seq<Theme>): (r: seq<Theme>)
    ensures Distinct(r)
    ensures forall t :: t in r <==> t in s
    decreases |s|
  {
    if s == [] then []
    else
      var d := Dedup(s[..|s| - 1]);
      var t := s[|s| - 1];
      assert forall x :: x in s <==> x in s[..|s| - 1] || x == t by {
        assert s == s[..|s| - 1] + [t];
      }
      if t in d then d else d + [t]
  }

  /** A theme is among the loaded ones exactly when it was asked for and its file loads. */
  lemma {:induction false} LoadedMembership(themes: seq<Theme>, dir: string, files: Files, t: Theme)
    ensures t in Loaded(themes, dir, files) <==> t in themes && Loads(dir, files, t)
    decreases |themes|
  {
    if themes != [] {
      var init := themes[..|themes| - 1];
      LoadedMembership(init, dir, files, t);
      assert themes == init + [themes[|themes| - 1]];
    }
  }

  /**
   * For any theme list, repeats included, the key order is the order in which
   * the loading themes first occur: a repeated name keeps its first position
   * (a dictionary assignment to an existing key does not move it).
   */
  lemma {:induction false} LoadOrderFirstOccurrence(themes: seq<Theme>, dir: string, files: Files)
    ensures LoadCatalog(themes, dir, files).themes == Dedup(Loaded(themes, dir, files))
    decreases |themes|
  {
    if themes != [] {
      var init := themes[..|themes| - 1];
      var t := themes[|themes| - 1];
      LoadOrderFirstOccurrence(init, dir, files);
      if Loads(dir, files, t) {
        var l := Loaded(init, dir, files);
        assert (l + [t])[..|l + [t]| - 1] == l;
        LoadMembership(init, dir, files, t);
        LoadedMembership(init, dir, files, t);
      }
    }
  }

  /** Repeated names: "a" twice loads one key. */
  lemma RepeatedThemeLoadsOnce(m: ThemeMap)
    ensures LoadCatalog(["a", "a"], ".", map[MapPath(".", "a") := Parsed(m)]).themes == ["a"]
  {
    LoadOrderFirstOccurrence(["a", "a"], ".", map[MapPath(".", "a") := Parsed(m)]);
    assert ["a", "a"][..1] == ["a"];
    assert ["a"][..0] == [];
  }

  // ---------------------------------------------------------------------
  // Start-up
  // ---------------------------------------------------------------------

  /** How `main` proceeds after loading: it exits with a status, or serves calls over the catalog. */
  datatype Startup = Exit(status: int) | Serve(catalog: Catalog)

  /** The emptiness check in `main` after `load_dtmf_maps(themes_list, SOUND_DIR)`. */
  function Bootstrap(themes: seq<Theme>, dir: string, files: Files): Startup
  {
    var cat := LoadCatalog(themes, dir, files);
    if cat.themes == [] then Exit(1) else Serve(cat)
  }

  /**
   * The service exits with status 1 exactly when no theme's file loaded;
   * otherwise it serves a catalog a call can navigate, without repeated
   * names, whose themes are the loaded keys.
   */
  lemma BootstrapOutcome(themes: seq<Theme>, dir: string, files: Files)
    ensures Bootstrap(themes, dir, files).Exit? <==>
      forall k :: 0 <= k < |themes| ==> !Loads(dir, files, themes[k])
    ensures Bootstrap(themes, dir, files).Exit? ==> Bootstrap(themes, dir, files).status == 1
    ensures Bootstrap(themes, dir, files).Serve? ==>
      var cat := Bootstrap(themes, dir, files).catalog;
      cat.Navigable() && Distinct(cat.themes)
      && (forall t :: t in cat.maps <==> t in themes && Loads(dir, files, t))
  {
    var cat := LoadCatalog(themes, dir, files);
    LoadKeysMatch(themes, dir, files);
    forall t ensures t in cat.maps <==> t in themes && Loads(dir, files, t) {
      LoadMembership(themes, dir, files, t);
    }
    if cat.themes == [] {
      forall k | 0 <= k < |themes| ensures !Loads(dir, files, themes[k]) {
        assert themes[k] !in cat.maps;
      }
    } else {
      assert cat.themes[0] in cat.maps;
    }
  }

  /** The file layout of the example below: "jazz" parses, "pop" is broken, "rock" is missing. */
  function ExampleFiles(jazz: ThemeMap): Files
  {
    map["./sound/dtmf_map_jazz.json" := Parsed(jazz), "./sound/dtmf_map_pop.json" := Malformed]
  }

  /** In that layout the "jazz" file loads, with the given content. */
  lemma JazzLoads(jazz: ThemeMap)
    ensures Loads("./sound", ExampleFiles(jazz), "jazz")
    ensures ExampleFiles(jazz)[MapPath("./sound", "jazz")].m == jazz
  {
    MapPathExample();
  }

  /** The "rock" file is missing. */
  lemma RockMissing(jazz: ThemeMap)
    ensures !Loads("./sound", ExampleFiles(jazz), "rock")
  {
    var dir := "./sound";
    assert dir[|dir| - 1] == 'd';
    MapPathExample();
    MapPathUnder(dir, "pop");
    if MapPath(dir, "rock") == MapPath(dir, "jazz") {
      MapPathInjective(dir, "rock", "jazz");
    }
    if MapPath(dir, "rock") == MapPath(dir, "pop") {
      MapPathInjective(dir, "rock", "pop");
    }
  }

  /** The "pop" file does not parse. */
  lemma PopMalformed(jazz: ThemeMap)
    ensures !Loads("./sound", ExampleFiles(jazz), "pop")
  {
    assert MapPath("./sound", "pop") == "./sound/dtmf_map_pop.json";
  }

  /** Of three themes, only the one whose file parses is served. */
  lemma BootstrapExample(jazz: ThemeMap)
    ensures Bootstrap(["jazz", "rock", "pop"], "./sound", ExampleFiles(jazz))
      == Serve(Catalog(["jazz"], map["jazz" := jazz]))
  {
    var files := ExampleFiles(jazz);
    var themes := ["jazz", "rock", "pop"];
    JazzLoads(jazz);
    RockMissing(jazz);
    PopMalformed(jazz);
    var c1 := Catalog(["jazz"], map["jazz" := jazz]);
    assert themes[..2][..1] == ["jazz"] && themes[..2] == ["jazz", "rock"];
    assert ["jazz"][..0] == [];
    assert LoadCatalog(["jazz"], "./sound", files) == c1;
    assert LoadCatalog(["jazz", "rock"], "./sound", files) == c1;
    assert LoadCatalog(themes, "./sound", files) == c1;
  }

  /**
   * `main` up to the emptiness check: the parent stop event, the session
   * registry holding only it, and the catalog loaded from the sound directory.
   */
  method StartUp(parentId: SessionId, themes: seq<Theme>, dir: string, files: Files)
    returns (registry: Registry, stop: Event, outcome: Startup)
    ensures fresh(registry) && fresh(stop)
    ensures registry.events == map[parentId := stop] && !stop.isSet
    ensures outcome == Bootstrap(themes, dir, files)
  {
    stop := new Event();
    registry := new Registry(parentId, stop);
    var cat := LoadDtmfMaps(themes, dir, files);
    if cat.themes == [] {
      outcome := Exit(1);
    } else {
      outcome := Serve(cat);
    }
  }

  // ---------------------------------------------------------------------
  // Shutdown
  // ---------------------------------------------------------------------

  /**
   * `signal_handler`: sets the stop event of every registered session,
   * the parent's included, and ends the process with status 0.
   */
  method SignalHandler(registry: Registry) returns (status: int)
    modifies registry.events.Values
    ensures registry.events == old(registry.events)
    ensures forall id :: id in registry.events ==> registry.events[id].isSet
    ensures status == 0
  {
    var remaining := registry.events.Keys;
    while remaining != {}
      invariant remaining <= registry.events.Keys
      invariant registry.events == old(registry.events)
      invariant forall id :: id in registry.events && id !in remaining ==> registry.events[id].isSet
      decreases remaining
    {
      var id :| id in remaining;
      registry.events[id].Set();
      remaining := remaining - {id};
    }
    status := 0;
  }

  /** After start-up, a shutdown stops the main loop: the parent's stop event is set. */
  method StartThenShutdown(parentId: SessionId, themes: seq<Theme>, dir: string, files: Files)
    returns (stopped: bool)
    ensures stopped
  {
    var registry, stop, _ := StartUp(parentId, themes, dir, files);
    var _ := SignalHandler(registry);
    assert parentId in registry.events;
    stopped := stop.isSet;
  }

  // ---------------------------------------------------------------------
  // Codec selection
  // ---------------------------------------------------------------------

  /** The configured codec's name occurs in the codec id, ignoring ASCII case. */
  predicate Matches(id: string, codec: string)
  {
    Contains(Lower(id), Lower(codec))
  }

  /** The priority `codec_priority` gives one codec: 255 when it matches, 0 otherwise. */
  function Priority(id: string, codec: string): (p: int)
    ensures p == 255 || p == 0
    ensures p == 255 <==> Matches(id, codec)
  {
    if Matches(id, codec) then 255 else 0
  }

  /**
   * `codec_priority` over the ids of `ep.codecEnum2()`, in order: the
   * priority set for each id, and whether any id matched.
   */
  method CodecPriority(ids: seq<string>, codec: string) returns (priorities: seq<int>, found: bool)
    ensures |priorities| == |ids|
    ensures forall k :: 0 <= k < |ids| ==> priorities[k] == Priority(ids[k], codec)
    ensures found <==> exists k :: 0 <= k < |ids| && Matches(ids[k], codec)
  {
    priorities := [];
    found := false;
    var lowered := Lower(codec);
    for i := 0 to |ids|
      invariant |priorities| == i
      invariant forall k :: 0 <= k < i ==> priorities[k] == Priority(ids[k], codec)
      invariant found <==> exists k :: 0 <= k < i && Matches(ids[k], codec)
    {
      if Contains(Lower(ids[i]), lowered) {
        priorities := priorities + [255];
        found := true;
      } else {
        priorities := priorities + [0];
      }
    }
  }

  /** Lowercasing twice is lowercasing once. */
  lemma LowerIdempotent(s: string)
    ensures Lower(Lower(s)) == Lower(s)
  {
  }

  /** Matching ignores case on both sides. */
  lemma MatchesIgnoresCase(id: string, codec: string)
    ensures Matches(Lower(id), codec) == Matches(id, codec)
    ensures Matches(id, Lower(codec)) == Matches(id, codec)
  {
    LowerIdempotent(id);
    LowerIdempotent(codec);
  }

  /** An empty codec name occurs in every id, so every codec is enabled. */
  lemma {:induction false} EmptyCodecMatchesAll(id: string)
    ensures Matches(id, "")
  {
    assert StartsWith(Lower(id), "");
  }

  /** The configured "OPUS" enables the codec `opus/48000/2`. */
  lemma PriorityExample()
    ensures Priority("opus/48000/2", "OPUS") == 255
  {
    assert Lower("OPUS") == "opus";
    assert StartsWith(Lower("opus/48000/2"), "opus");
  }
}
