/** The media-player entity: its power and playing state, the shared
    device-state table, volume scaling, source and sound-mode selection,
    and the processing of polled player data. */
module MediaPlayer {
  import opened Wrappers
  import opened JsonValue
  import opened Wire
  import opened PyAccess
  import opened Device
  import opened Capabilities
  import opened Registry
  import opened ApiSpec
  import opened Client
  import opened Util
  import opened Sorting
  import Entity

  /** Home Assistant's media-player states. */
  const StateOn: Json := JStr("on")
  const StatePlaying: Json := JStr("playing")
  const StatePaused: Json := JStr("paused")
  const StateStandby: Json := JStr("standby")
  const StateIdle: Json := JStr("idle")

  /** The device's own state names as the module is loaded. */
  const InitialStates: map<string, Json> :=
    map["playing" := StatePlaying, "paused" := StatePaused, "stopped" := StateIdle, "online" := StateOn]

  /** What `networkStandby` means on a client of `family`: standby only when
      the client can put the soundbar in standby. */
  function NetworkStandbyState(family: Family): (r: Json)
    ensures r == StateStandby <==> HasCapability(family, Standby)
    ensures r == StateIdle <==> !HasCapability(family, Standby)
  {
    if HasCapability(family, Standby) then StateStandby else StateIdle
  }

  /** `STATE_DICT.get(key, default)`: only a string can be a key of the
      table; a dict or list key is unhashable and raises TypeError. */
  function TableGet(table: map<string, Json>, key: Json, default: Json): (r: Result<Json, Error>)
    ensures key.JObj? || key.JArr? <==> r.Err?
    ensures r.Err? ==> r.error == TypeError
    ensures key.JStr? && key.s in table ==> r == Ok(table[key.s])
    ensures !key.JObj? && !key.JArr? && !(key.JStr? && key.s in table) ==> r == Ok(default)
  {
    match key
    case JObj(_) => Err(TypeError)
    case JArr(_) => Err(TypeError)
    case JStr(s) => Ok(if s in table then table[s] else default)
    case _ => Ok(default)
  }

  /** The `update_state` transform: known device states are mapped, anything
      else passes through unchanged. */
  function MapPowerState(table: map<string, Json>, state: Json): (r: Result<Json, Error>)
    ensures state.JStr? && state.s in table ==> r == Ok(table[state.s])
    ensures !(state.JStr? && state.s in table) && !state.JObj? && !state.JArr? ==> r == Ok(state)
    ensures r.Err? <==> state.JObj? || state.JArr?
  {
    TableGet(table, state, state)
  }

  /** With the table as a player of `family` leaves it, a polled
      `networkStandby` shows as standby exactly on a client with standby,
      the device's playing states map to the entity's, and unknown states
      pass through. */
  lemma PowerStateMapping(family: Family, prior: map<string, Json>, state: string)
    ensures var t := prior["networkStandby" := NetworkStandbyState(family)];
            MapPowerState(t, JStr("networkStandby")) == Ok(StateStandby) <==> family == Espresso
    ensures var t := InitialStates["networkStandby" := NetworkStandbyState(family)];
            state !in t ==> MapPowerState(t, JStr(state)) == Ok(JStr(state))
    ensures var t := InitialStates["networkStandby" := NetworkStandbyState(family)];
            MapPowerState(t, JStr("stopped")) == Ok(StateIdle)
            && MapPowerState(t, JStr("online")) == Ok(StateOn)
  {
    StandbyOnlyOnEspresso(family);
  }

  /** The entity's `state`: the playing state while powered on, otherwise
      the power state. */
  function ShownState(power: Json, playing: Json): (r: Json)
    ensures power == StateOn ==> r == playing
    ensures power != StateOn ==> r == power
  {
    if power == StateOn then playing else power
  }

  /** `_should_debounce`: a stop report is held back while the player is
      neither in standby nor already idle. */
  predicate ShouldDebounce(playerState: Json, power: Json, playing: Json)
    ensures ShouldDebounce(playerState, power, playing) ==> playerState == JStr("stopped")
    ensures power == StateStandby || playing == StateIdle ==> !ShouldDebounce(playerState, power, playing)
  {
    playerState == JStr("stopped") && power != StateStandby && playing != StateIdle
  }

  /** The volume sent for a level in [0, 1]: `volume * 100`. */
  function DeviceVolume(level: real): real
  {
    level * 100.0
  }

  /** The `update_volume` transform `volume / 100` on what the device
      reported; booleans count as 0 and 1, other values raise TypeError. */
  function LevelOf(x: Json): (r: Result<real, Error>)
    ensures r.Ok? <==> x.JInt? || x.JReal? || x.JBool?
    ensures x.JInt? ==> r == Ok(x.i as real / 100.0)
    ensures x.JReal? ==> r == Ok(x.r / 100.0)
    ensures !(x.JInt? || x.JReal? || x.JBool?) ==> r == Err(TypeError)
  {
    match x
    case JInt(i) => Ok(i as real / 100.0)
    case JReal(v) => Ok(v / 100.0)
    case JBool(b) => Ok(if b then 0.01 else 0.0)
    case _ => Err(TypeError)
  }

  /** Scaling up and back down gives the level back. */
  lemma LevelRoundTrip(level: real)
    ensures LevelOf(JReal(DeviceVolume(level))) == Ok(level)
  {
  }

  /** A level set on a reachable device is the level the next poll reports. */
  lemma SetLevelThenPoll(family: Family, level: real, e: string, c: int, c': int, s: State)
    requires s.online
    ensures var t := SetSpec(family, Feature.Volume, JReal(DeviceVolume(level)), e, c, s).state;
            var polled := GetSpec(family, Feature.Volume, e, c', t).result;
            polled.Ok? && LevelOf(polled.value) == Ok(level)
  {
    SharedAccessors(family, Feature.Volume);
    SetThenGet(family, Feature.Volume, JReal(DeviceVolume(level)), e, c, c', s);
    LevelRoundTrip(level);
  }

  /** Does `needle` occur in `s`? (`needle in s` on strings.) */
  predicate Contains(s: string, needle: string)
  {
    needle <= s || (s != [] && Contains(s[1..], needle))
  }

  /** `entry["title"] ... if "title" in entry` for one entry: a dict yields
      its title when it has one; a string or list that contains "title"
      passes the test and then cannot be subscripted by a string; one that
      does not is skipped; anything else cannot be searched. */
  function TitleOf(entry: Json): (r: Result<Option<Json>, Error>)
    ensures entry.JObj? ==> r == Ok(if "title" in entry.fields then Some(entry.fields["title"]) else None)
    ensures r.Err? ==> r.error == TypeError
  {
    match entry
    case JObj(m) => Ok(if "title" in m then Some(m["title"]) else None)
    case JStr(s) => if Contains(s, "title") then Err(TypeError) else Ok(None)
    case JArr(a) => if JStr("title") in a then Err(TypeError) else Ok(None)
    case _ => Err(TypeError)
  }

  /** The comprehension's titles, in list order. */
  function Titles(entries: seq<Json>): (r: Result<seq<Json>, Error>)
    ensures r.Err? ==> r.error == TypeError
    ensures r.Ok? ==> |r.value| <= |entries|
    decreases |entries|
  {
    if entries == [] then Ok([])
    else
      match Titles(entries[..|entries| - 1])
      case Err(e) => Err(e)
      case Ok(ts) =>
        match TitleOf(entries[|entries| - 1])
        case Err(e) => Err(e)
        case Ok(t) => Ok(if t.Some? then ts + [t.value] else ts)
  }

  /** The titles of the entries of a list of dicts that have one, in order. */
  function DictTitles(entries: seq<Json>): seq<Json>
    decreases |entries|
  {
    if entries == [] then []
    else
      var last := entries[|entries| - 1];
      DictTitles(entries[..|entries| - 1])
      + (if last.JObj? && "title" in last.fields then [last.fields["title"]] else [])
  }

  lemma {:induction false} TitlesOfDicts(entries: seq<Json>)
    requires forall i :: 0 <= i < |entries| ==> entries[i].JObj?
    ensures Titles(entries) == Ok(DictTitles(entries))
    decreases |entries|
  {
    if entries != [] {
      var init := entries[..|entries| - 1];
      assert forall i :: 0 <= i < |init| ==> init[i] == entries[i];
      TitlesOfDicts(init);
      var last := entries[|entries| - 1];
      assert DictTitles(init) + [] == DictTitles(init);
    }
  }

  function Strings(ts: seq<Json>): (r: seq<string>)
    requires forall i :: 0 <= i < |ts| ==> ts[i].JStr?
    ensures |r| == |ts| && forall i :: 0 <= i < |ts| ==> r[i] == ts[i].s
  {
    if ts == [] then [] else [ts[0].s] + Strings(ts[1..])
  }

  function Wrap(ss: seq<string>): (r: seq<Json>)
    ensures |r| == |ss| && forall i :: 0 <= i < |ss| ==> r[i] == JStr(ss[i])
  {
    if ss == [] then [] else [JStr(ss[0])] + Wrap(ss[1..])
  }

  /** The one-character strings a `for` loop visits in a string. */
  function Chars(s: string): (r: seq<Json>)
    ensures |r| == |s| && forall i :: 0 <= i < |s| ==> r[i] == JStr([s[i]])
  {
    seq(|s|, i requires 0 <= i < |s| => JStr([s[i]]))
  }

  /** The titles `[entry["title"] for entry in list if "title" in entry]`
      collects: a list visits its items, a string its characters and a dict
      its keys, each tested with `in` before it is subscripted. A key that
      contains "title" passes the test and then cannot be subscripted; every
      such failure is the same TypeError, so the order of the keys does not
      matter. None, booleans and numbers are not iterable. */
  function ListTitles(list: Json): (r: Result<seq<Json>, Error>)
    ensures r.Err? ==> r.error == TypeError
    ensures r.Ok? ==> list.JArr? || list.JStr? || list.JObj?
    ensures r.Ok? && list.JArr? ==> |r.value| <= |list.items|
    ensures list.JObj? ==> (r.Err? <==> exists k :: k in list.fields && Contains(k, "title"))
  {
    match list
    case JArr(a) => Titles(a)
    case JStr(s) => Titles(Chars(s))
    case JObj(m) => if exists k :: k in m && Contains(k, "title") then Err(TypeError) else Ok([])
    case _ => Err(TypeError)
  }

  /** `source_list` / `sound_mode_list`: the titles, sorted. Titles that are
      all strings are sorted; a lone title is returned as is; any other mix
      is refused as TypeError. */
  function TitleList(list: Json): (r: Result<seq<Json>, Error>)
    ensures r.Err? ==> r.error == TypeError
    ensures list.JObj? ==> (r.Err? <==> exists k :: k in list.fields && Contains(k, "title"))
    ensures list.JObj? && r.Ok? ==> r.value == []
  {
    match ListTitles(list)
    case Err(e) => Err(e)
    case Ok(ts) =>
      if forall i :: 0 <= i < |ts| ==> ts[i].JStr? then Ok(Wrap(Sort(Strings(ts))))
      else if |ts| == 1 then Ok(ts)
      else Err(TypeError)
  }

  /** No one-character string contains "title". */
  lemma CharHasNoTitle(c: char)
    ensures !Contains([c], "title")
  {
    assert !("title" <= [c]);
    assert [c][1..] == [];
  }

  /** A string is iterated by characters, none of which passes the test:
      its title list is empty. */
  lemma {:induction false} StringTitles(s: string)
    ensures ListTitles(JStr(s)) == Ok([])
    ensures TitleList(JStr(s)) == Ok([])
    decreases |s|
  {
    if s != [] {
      var n := |s| - 1;
      StringTitles(s[..n]);
      assert Chars(s)[..n] == Chars(s[..n]);
      CharHasNoTitle(s[n]);
    }
  }

  /** A dict is iterated by keys: the title list is empty unless some key
      contains "title", which then raises TypeError. */
  lemma DictTitleList(m: map<string, Json>)
    ensures TitleList(JObj(m)) == if exists k :: k in m && Contains(k, "title") then Err(TypeError) else Ok([])
    ensures TitleList(JObj(map["a" := JInt(1)])) == Ok([])
  {
    assert !Contains("a", "title") by { CharHasNoTitle('a'); }
  }

  /** For a list of dicts with string titles, the shown list holds exactly
      the titles of the entries that have one, each as often as it occurs,
      in ascending order. */
  lemma TitleListSorted(entries: seq<Json>)
    requires forall i :: 0 <= i < |entries| ==> entries[i].JObj?
    requires forall i :: 0 <= i < |entries| && "title" in entries[i].fields ==> entries[i].fields["title"].JStr?
    ensures TitleList(JArr(entries)).Ok?
    ensures multiset(TitleList(JArr(entries)).value) == multiset(DictTitles(entries))
    ensures forall i :: 0 <= i < |TitleList(JArr(entries)).value| - 1 ==>
              StrLe(TitleList(JArr(entries)).value[i].s, TitleList(JArr(entries)).value[i + 1].s)
  {
    TitlesOfDicts(entries);
    DictTitlesStrings(entries);
    var ts := DictTitles(entries);
    var sorted := Sort(Strings(ts));
    assert TitleList(JArr(entries)) == Ok(Wrap(sorted));
    SameWrap(sorted, Strings(ts));
    WrapStrings(ts);
  }

  /** The titles of dicts whose titles are strings are strings. */
  lemma {:induction false} DictTitlesStrings(entries: seq<Json>)
    requires forall i :: 0 <= i < |entries| && entries[i].JObj? && "title" in entries[i].fields ==> entries[i].fields["title"].JStr?
    ensures forall i :: 0 <= i < |DictTitles(entries)| ==> DictTitles(entries)[i].JStr?
    decreases |entries|
  {
    if entries != [] {
      var init := entries[..|entries| - 1];
      assert forall i :: 0 <= i < |init| ==> init[i] == entries[i];
      DictTitlesStrings(init);
    }
  }

  /** Permuted strings wrap to permuted values. */
  lemma SameWrap(a: seq<string>, b: seq<string>)
    requires multiset(a) == multiset(b)
    ensures multiset(Wrap(a)) == multiset(Wrap(b))
  {
    forall j: Json ensures multiset(Wrap(a))[j] == multiset(Wrap(b))[j] {
      if j.JStr? {
        WrapCount(a, j.s);
        WrapCount(b, j.s);
      } else {
        WrapOnlyStrings(a, j);
        WrapOnlyStrings(b, j);
      }
    }
  }

  lemma WrapStrings(ts: seq<Json>)
    requires forall i :: 0 <= i < |ts| ==> ts[i].JStr?
    ensures Wrap(Strings(ts)) == ts
  {
  }

  /** Wrapping is injective: each string occurs as often as its wrapped value. */
  lemma {:induction false} WrapCount(ss: seq<string>, x: string)
    ensures multiset(Wrap(ss))[JStr(x)] == multiset(ss)[x]
  {
    if ss != [] {
      var rest := ss[1..];
      WrapCount(rest, x);
      assert ss == [ss[0]] + rest;
      assert multiset(ss)[x] == multiset{ss[0]}[x] + multiset(rest)[x];
      assert multiset(Wrap(ss))[JStr(x)] == multiset{JStr(ss[0])}[JStr(x)] + multiset(Wrap(rest))[JStr(x)];
      assert multiset{JStr(ss[0])}[JStr(x)] == multiset{ss[0]}[x];
    }
  }

  /** Wrapping produces nothing but strings. */
  lemma {:induction false} WrapOnlyStrings(ss: seq<string>, j: Json)
    requires !j.JStr?
    ensures multiset(Wrap(ss))[j] == 0
  {
    if ss != [] {
      WrapOnlyStrings(ss[1..], j);
      assert Wrap(ss) == [JStr(ss[0])] + Wrap(ss[1..]);
    }
  }

  /** The outcome of `async_select_source` / `async_select_sound_mode`
      before the client call: the id to select, or None when the choice is
      None or no entry has that title. */
  function SelectTarget(choice: Json, list: Json): (r: Result<Option<Json>, Error>)
    ensures choice == JNull ==> r == Ok(None)
    ensures r.Ok? && r.value.Some? ==>
      r.value.value != JNull && list.JArr? && HasEntry(list.items, "title", choice, "id", r.value.value)
  {
    if choice == JNull then Ok(None)
    else match FindIdByTitle(choice, list)
      case Err(e) => Err(e)
      case Ok(id) => Ok(if id == JNull then None else Some(id))
  }

  /** Selecting a title present in a list of dicts with unique ids finds an
      id (when every entry of that title has one), and the next poll that reports that id shows the title chosen. */
  lemma SelectThenPoll(choice: Json, entries: seq<Json>)
    requires choice != JNull
    requires forall i :: 0 <= i < |entries| ==> entries[i].JObj?
    requires forall i, j :: 0 <= i < j < |entries| ==> Field(entries[i], "id") != Field(entries[j], "id")
    requires exists k :: 0 <= k < |entries| && Field(entries[k], "title") == choice
    requires forall k :: 0 <= k < |entries| && Field(entries[k], "title") == choice ==> Field(entries[k], "id") != JNull
    ensures SelectTarget(choice, JArr(entries)).Ok?
    ensures SelectTarget(choice, JArr(entries)).value.Some?
    ensures FindTitleById(SelectTarget(choice, JArr(entries)).value.value, JArr(entries)) == Ok(choice)
  {
    var i := FindSome("title", choice, "id", entries);
    FindFirst("id", Field(entries[i], "id"), "title", entries, i);
  }

  /** A title no entry has selects nothing. */
  lemma SelectMissing(choice: Json, entries: seq<Json>)
    requires forall i :: 0 <= i < |entries| ==> entries[i].JObj?
    requires forall i :: 0 <= i < |entries| ==> Field(entries[i], "title") != choice
    ensures SelectTarget(choice, JArr(entries)) == Ok(None)
  {
    FindNone("title", choice, "id", entries);
  }

  /** The fields `_process_player_data` writes. */
  datatype Media = Media(playing: Json, title: Json, image: Json, artist: Json, album: Json)

  /** The fields after `_process_player_data`, and the exception that cut it
      short, if any: the fields set before the exception keep their new
      values. */
  datatype Processed = Processed(media: Media, error: Option<Error>)

  /** The playing state reported in `data`, mapped; unknown states become idle. */
  function ProcessState(m: Media, data: Json, table: map<string, Json>): Processed
  {
    match GetOr(data, "state", JNull)
    case Err(e) => Processed(m, Some(e))
    case Ok(state) =>
      if state == JNull then Processed(m, None)
      else match TableGet(table, state, StateIdle)
        case Err(e) => Processed(m, Some(e))
        case Ok(p) => Processed(m.(playing := p), None)
  }

  /** The track fields of `trackRoles`. */
  function ProcessTrack(m: Media, data: Json): Processed
  {
    match GetOr(data, "trackRoles", JObj(map[]))
    case Err(e) => Processed(m, Some(e))
    case Ok(roles) =>
      match GetOr(roles, "title", JNull)
      case Err(e) => Processed(m, Some(e))
      case Ok(title) =>
        var m1 := m.(title := title, image := GetOr(roles, "icon", JNull).value);
        match GetOr(GetOr(roles, "mediaData", JObj(map[])).value, "metaData", JObj(map[]))
        case Err(e) => Processed(m1, Some(e))
        case Ok(meta) =>
          match GetOr(meta, "artist", JNull)
          case Err(e) => Processed(m1, Some(e))
          case Ok(artist) => Processed(m1.(artist := artist, album := GetOr(meta, "album", JNull).value), None)
  }

  /** `_process_player_data`. */
  function ProcessSpec(m: Media, data: Json, table: map<string, Json>): (p: Processed)
    ensures !data.JObj? ==> p == Processed(m, Some(AttributeError))
    ensures p.error.Some? ==> p.error.value == AttributeError || p.error.value == TypeError
  {
    var p := ProcessState(m, data, table);
    if p.error.Some? then p else ProcessTrack(p.media, data)
  }

  /** Player data without a state keeps the playing state; a state string
      the table does not know shows as idle. */
  lemma ProcessPlayingState(m: Media, data: Json, table: map<string, Json>)
    requires data.JObj?
    ensures "state" !in data.fields || data.fields["state"] == JNull ==>
              ProcessSpec(m, data, table).media.playing == m.playing
    ensures "state" in data.fields && data.fields["state"].JStr? && data.fields["state"].s !in table ==>
              ProcessSpec(m, data, table).media.playing == StateIdle
    ensures "state" in data.fields && data.fields["state"].JStr? && data.fields["state"].s in table ==>
              ProcessSpec(m, data, table).media.playing == table[data.fields["state"].s]
  {
  }

  /** Well-nested player data is processed completely: title and icon from
      `trackRoles`, artist and album from `trackRoles.mediaData.metaData`,
      each None when absent. */
  lemma ProcessWellNested(m: Media, data: Json, table: map<string, Json>)
    requires data.JObj?
    requires !("state" in data.fields && (data.fields["state"].JObj? || data.fields["state"].JArr?))
    requires "trackRoles" in data.fields ==> data.fields["trackRoles"].JObj?
    requires var roles := Field(data, "trackRoles");
             roles.JObj? && "mediaData" in roles.fields ==> roles.fields["mediaData"].JObj?
    requires var media := Field(Field(data, "trackRoles"), "mediaData");
             media.JObj? && "metaData" in media.fields ==> media.fields["metaData"].JObj?
    ensures ProcessSpec(m, data, table).error == None
    ensures var r := ProcessSpec(m, data, table).media;
            var roles := Field(data, "trackRoles");
            var meta := Field(Field(roles, "mediaData"), "metaData");
            r.title == Field(roles, "title") && r.image == Field(roles, "icon")
            && r.artist == Field(meta, "artist") && r.album == Field(meta, "album")
  {
  }

  /** A `trackRoles` that is present but null stops processing with
      AttributeError after the playing state was already updated. */
  lemma ProcessNullRoles(m: Media, data: Json, table: map<string, Json>)
    requires data.JObj? && "trackRoles" in data.fields && data.fields["trackRoles"] == JNull
    requires !("state" in data.fields && (data.fields["state"].JObj? || data.fields["state"].JArr?))
    ensures ProcessSpec(m, data, table).error == Some(AttributeError)
    ensures ProcessSpec(m, data, table).media == ProcessState(m, data, table).media
  {
  }

  /** The module-level `STATE_DICT`, shared by every player. */
  class StateTable {
    var entries: map<string, Json>

    constructor ()
      ensures entries == InitialStates
    {
      entries := InitialStates;
    }
  }

  /** The suffixes the player passes to the base entity. */
  const PlayerSuffix: string := "Player"
  const PlayerIdSuffix: string := "player"

  class AmbeoMediaPlayer {
    const entity: Entity.BaseEntity
    const api: AmbeoApi
    const table: StateTable
    const sources: Json
    const presets: Json
    const maxVolume: real
    const volumeStep: Option<real>
    /** The configured debounce cooldown, in seconds. */
    const cooldown: real
    var power: Json
    var playing: Json
    var title: Json
    var image: Json
    var artist: Json
    var album: Json
    var currentSource: Json
    var currentPreset: Json
    var volume: real
    var muted: Json

    function Fields(): Media
      reads this
    {
      Media(playing, title, image, artist, album)
    }

    /** `state`: the power state, unless the player is on. */
    function State(): (r: Json)
      reads this
      ensures r == power || (power == StateOn && r == playing)
    {
      ShownState(power, playing)
    }

    /** `debounce_mode_activated`. */
    predicate DebounceModeActivated()
      reads this
      ensures DebounceModeActivated() ==> api.family == Espresso && cooldown > 0.0
      ensures cooldown <= 0.0 ==> !DebounceModeActivated()
    {
      SupportsDebounce(api.family) && cooldown > 0.0
    }

    /** `source_id`. */
    function SourceId(): (r: Result<Json, Error>)
      reads this
      ensures r.Ok? && r.value != JNull ==>
        sources.JArr? && HasEntry(sources.items, "title", currentSource, "id", r.value)
    {
      FindIdByTitle(currentSource, sources)
    }

    /** The constructor also records, in the shared table, what
        `networkStandby` means for this player's client. */
    constructor (device: Entity.AmbeoDevice, api: AmbeoApi, sources: Json, presets: Json, cooldown: real, table: StateTable)
      modifies table
      ensures this.api == api && this.table == table && this.sources == sources && this.presets == presets
      ensures this.cooldown == cooldown && entity == Entity.NewBaseEntity(device, PlayerSuffix, PlayerIdSuffix)
      ensures power == StateOn && playing == StateIdle && State() == StateIdle
      ensures title == JStr("") && image == JStr("") && artist == JNull && album == JNull
      ensures currentSource == JNull && currentPreset == JNull
      ensures volume == 0.0 && maxVolume == 100.0 && muted == JBool(false)
      ensures volumeStep == VolumeStep(api.family)
      ensures table.entries == old(table.entries)["networkStandby" := NetworkStandbyState(api.family)]
    {
      entity := Entity.NewBaseEntity(device, PlayerSuffix, PlayerIdSuffix);
      this.api := api;
      this.table := table;
      this.sources := sources;
      this.presets := presets;
      this.cooldown := cooldown;
      power := StateOn;
      playing := StateIdle;
      currentSource := JNull;
      title := JStr("");
      artist := JNull;
      album := JNull;
      image := JStr("");
      volume := 0.0;
      muted := JBool(false);
      maxVolume := 100.0;
      currentPreset := JNull;
      volumeStep := VolumeStep(api.family);
      table.entries := table.entries["networkStandby" := NetworkStandbyState(api.family)];
    }

    /** `async_set_volume_level`: the level is stored only once the client
        call returned. */
    method SetVolumeLevel(level: real) returns (r: Result<Json, Error>)
      requires maxVolume == 100.0
      modifies this`volume, api`sent, api.device
      ensures api.Performed(SetSpec(api.family, Feature.Volume, JReal(DeviceVolume(level)), api.endpoint, api.clock, old(api.device.Current())), r)
      ensures volume == if r.Ok? then level else old(volume)
    {
      assert level * maxVolume == DeviceVolume(level);
      r := api.Set(Feature.Volume, JReal(level * maxVolume));
      if r.Ok? {
        volume := level;
      }
    }

    method MuteVolume(mute: bool) returns (r: Result<Json, Error>)
      modifies this`muted, api`sent, api.device
      ensures api.Performed(SetSpec(api.family, Feature.Mute, JBool(mute), api.endpoint, api.clock, old(api.device.Current())), r)
      ensures muted == if r.Ok? then JBool(mute) else old(muted)
    {
      r := api.Set(Feature.Mute, JBool(mute));
      if r.Ok? {
        muted := JBool(mute);
      }
    }

    method TurnOn() returns (r: Result<Json, Error>)
      modifies this`power, api`sent, api.device
      ensures api.Performed(PowerRequestSpec(api.family, true, api.endpoint, api.clock, old(api.device.Current())), r)
      ensures power == if r.Ok? then StateOn else old(power)
    {
      r := api.Wake();
      if r.Ok? {
        power := StateOn;
      }
    }

    method TurnOff() returns (r: Result<Json, Error>)
      modifies this`power, api`sent, api.device
      ensures api.Performed(PowerRequestSpec(api.family, false, api.endpoint, api.clock, old(api.device.Current())), r)
      ensures power == if r.Ok? then StateStandby else old(power)
    {
      r := api.StandBy();
      if r.Ok? {
        power := StateStandby;
      }
    }

    method MediaPlay() returns (r: Result<Json, Error>)
      modifies this`playing, api`sent, api.device
      ensures api.Performed(CommandSpec(api.endpoint, api.clock, old(api.device.Current()), ButtonPath, BoolTrue), r)
      ensures playing == if r.Ok? then StatePlaying else old(playing)
    {
      r := api.Play();
      if r.Ok? {
        playing := StatePlaying;
      }
    }

    method MediaPause() returns (r: Result<Json, Error>)
      modifies this`playing, api`sent, api.device
      ensures api.Performed(CommandSpec(api.endpoint, api.clock, old(api.device.Current()), ButtonPath, BoolTrue), r)
      ensures playing == if r.Ok? then StatePaused else old(playing)
    {
      r := api.Pause();
      if r.Ok? {
        playing := StatePaused;
      }
    }

    /** `async_select_source`: nothing is sent and nothing changes unless
        the title is found; then the client selects its id and the title
        becomes the current source. */
    method SelectSource(choice: Json) returns (r: Result<Json, Error>)
      modifies this`currentSource, api`sent, api.device
      ensures match SelectTarget(choice, sources)
              case Err(e) => r == Err(e) && unchanged(api, api.device) && currentSource == old(currentSource)
              case Ok(None) => r == Ok(JNull) && unchanged(api, api.device) && currentSource == old(currentSource)
              case Ok(Some(id)) =>
                api.Performed(SetSourceSpec(api.family, id, api.endpoint, api.clock, old(api.device.Current())), r)
                && currentSource == if r.Ok? then choice else old(currentSource)
    {
      var target := SelectTarget(choice, sources);
      if target.Err? {
        return Err(target.error);
      }
      if target.value.None? {
        return Ok(JNull);
      }
      r := api.SetSource(target.value.value);
      if r.Ok? {
        currentSource := choice;
      }
    }

    /** `async_select_sound_mode`, the same over the presets. */
    method SelectSoundMode(choice: Json) returns (r: Result<Json, Error>)
      modifies this`currentPreset, api`sent, api.device
      ensures match SelectTarget(choice, presets)
              case Err(e) => r == Err(e) && unchanged(api, api.device) && currentPreset == old(currentPreset)
              case Ok(None) => r == Ok(JNull) && unchanged(api, api.device) && currentPreset == old(currentPreset)
              case Ok(Some(id)) =>
                api.Performed(SetSpec(api.family, Feature.CurrentPreset, id, api.endpoint, api.clock, old(api.device.Current())), r)
                && currentPreset == if r.Ok? then choice else old(currentPreset)
    {
      var target := SelectTarget(choice, presets);
      if target.Err? {
        return Err(target.error);
      }
      if target.value.None? {
        return Ok(JNull);
      }
      r := api.Set(Feature.CurrentPreset, target.value.value);
      if r.Ok? {
        currentPreset := choice;
      }
    }

    /** `update_state`: a failure of the call or of the mapping is logged
        and the power state is kept. */
    method UpdateState() returns (polled: Result<Json, Error>)
      modifies this`power, api`sent, api.device
      ensures api.Performed(PowerStateSpec(api.endpoint, api.clock, old(api.device.Current())), polled)
      ensures power == if polled.Ok? && MapPowerState(table.entries, polled.value).Ok?
                       then MapPowerState(table.entries, polled.value).value else old(power)
    {
      polled := api.GetState();
      if polled.Ok? {
        var mapped := MapPowerState(table.entries, polled.value);
        if mapped.Ok? {
          power := mapped.value;
        }
      }
    }

    /** `update_preset`: the polled preset id shown by its title. */
    method UpdatePreset() returns (polled: Result<Json, Error>)
      modifies this`currentPreset, api`sent, api.device
      ensures api.Performed(GetSpec(api.family, Feature.CurrentPreset, api.endpoint, api.clock, old(api.device.Current())), polled)
      ensures currentPreset == if polled.Ok? && FindTitleById(polled.value, presets).Ok?
                               then FindTitleById(polled.value, presets).value else old(currentPreset)
    {
      polled := api.Get(Feature.CurrentPreset);
      if polled.Ok? {
        var shown := FindTitleById(polled.value, presets);
        if shown.Ok? {
          currentPreset := shown.value;
        }
      }
    }

    /** `update_source`: the polled source id shown by its title. */
    method UpdateSource() returns (polled: Result<Json, Error>)
      modifies this`currentSource, api`sent, api.device
      ensures api.Performed(GetSpec(api.family, Feature.CurrentSource, api.endpoint, api.clock, old(api.device.Current())), polled)
      ensures currentSource == if polled.Ok? && FindTitleById(polled.value, sources).Ok?
                               then FindTitleById(polled.value, sources).value else old(currentSource)
    {
      polled := api.Get(Feature.CurrentSource);
      if polled.Ok? {
        var shown := FindTitleById(polled.value, sources);
        if shown.Ok? {
          currentSource := shown.value;
        }
      }
    }

    method UpdateMute() returns (polled: Result<Json, Error>)
      modifies this`muted, api`sent, api.device
      ensures api.Performed(GetSpec(api.family, Feature.Mute, api.endpoint, api.clock, old(api.device.Current())), polled)
      ensures muted == if polled.Ok? then polled.value else old(muted)
    {
      polled := api.Get(Feature.Mute);
      if polled.Ok? {
        muted := polled.value;
      }
    }

    /** `update_volume`: the polled volume divided by 100. */
    method UpdateVolume() returns (polled: Result<Json, Error>)
      requires maxVolume == 100.0
      modifies this`volume, api`sent, api.device
      ensures api.Performed(GetSpec(api.family, Feature.Volume, api.endpoint, api.clock, old(api.device.Current())), polled)
      ensures volume == if polled.Ok? && LevelOf(polled.value).Ok? then LevelOf(polled.value).value else old(volume)
    {
      polled := api.Get(Feature.Volume);
      if polled.Ok? {
        var level := LevelOf(polled.value);
        if level.Ok? {
          volume := level.value;
        }
      }
    }

    /** `_process_player_data`: the fields are written one after another,
        so an exception part-way leaves the earlier ones written. */
    method ProcessPlayerData(data: Json) returns (error: Option<Error>)
      modifies this`playing, this`title, this`image, this`artist, this`album
      ensures Fields() == ProcessSpec(old(Fields()), data, table.entries).media
      ensures error == ProcessSpec(old(Fields()), data, table.entries).error
    {
      var state := GetOr(data, "state", JNull);
      if state.Err? {
        return Some(state.error);
      }
      if state.value != JNull {
        var p := TableGet(table.entries, state.value, StateIdle);
        if p.Err? {
          return Some(p.error);
        }
        playing := p.value;
      }
      var roles := GetOr(data, "trackRoles", JObj(map[]));
      var t := GetOr(roles.value, "title", JNull);
      if t.Err? {
        return Some(t.error);
      }
      title := t.value;
      image := GetOr(roles.value, "icon", JNull).value;
      var mediaData := GetOr(roles.value, "mediaData", JObj(map[]));
      var meta := GetOr(mediaData.value, "metaData", JObj(map[]));
      if meta.Err? {
        return Some(meta.error);
      }
      var a := GetOr(meta.value, "artist", JNull);
      if a.Err? {
        return Some(a.error);
      }
      artist := a.value;
      album := GetOr(meta.value, "album", JNull).value;
      error := None;
    }

    /** The synchronous part of `update_player_data`. A failed poll, data
        without `.get`, or a `transitioning` report changes nothing. With
        debounce off every other report is processed at once; with it on, a
        report `_should_debounce` holds back changes nothing now (the
        deferred processing is not modelled), and any other is processed
        at once. */
    method UpdatePlayerData() returns (polled: Result<Json, Error>)
      modifies this`playing, this`title, this`image, this`artist, this`album, api`sent, api.device
      ensures api.Performed(PlayerDataSpec(api.endpoint, api.clock, old(api.device.Current())), polled)
      ensures var skip := polled.Err? || !polled.value.JObj?
                          || Field(polled.value, "state") == JStr("transitioning")
                          || (DebounceModeActivated() && ShouldDebounce(Field(polled.value, "state"), power, old(playing)));
              Fields() == if skip then old(Fields()) else ProcessSpec(old(Fields()), polled.value, table.entries).media
    {
      polled := api.PlayerData();
      if polled.Err? {
        return;
      }
      var state := GetOr(polled.value, "state", JNull);
      if state.Err? || state.value == JStr("transitioning") {
        return;
      }
      if DebounceModeActivated() && ShouldDebounce(state.value, power, playing) {
        return;
      }
      var _ := ProcessPlayerData(polled.value);
    }
  }
}
