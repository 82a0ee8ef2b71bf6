# Ambeo soundbar client, modelled in Dafny

This project models the device-facing core of the Home Assistant integration
for Sennheiser AMBEO soundbars:

- the HTTP API clients: the generic base client, the Max ("Espresso") client,
  the Plus/Mini ("Popcorn") client, the Plus client and the older
  single-class client;
- the factory that probes the product name and picks a client;
- the lookup helpers `find_title_by_id` / `find_id_by_title`;
- the entity identity shared by every entity;
- the media-player entity's state handling.

The soundbar on the other end of the HTTP session is a small store of JSON
bodies keyed by path (`Device.Soundbar`). The store can be marked offline,
and then every request fails in transport. A client method sends its requests
to that object and is proved against a pure function of `ApiSpec`. That
function gives the Python return value or exception, the device's new state
and the requests sent, in order. The properties of the clients are lemmas
about those functions. Examples:

- a value written reads back;
- a setter touches only its own path;
- the subwoofer probe is cached;
- the Max's source list joins two row lists by title, and every id it
  returns indexes an input row;
- the factory accepts exactly the three known product names.

The modules, in dependency order:

| module | file | what it holds |
|---|---|---|
| `Wrappers` | wrappers.dfy | `Option`, `Result` |
| `JsonValue` | json_value.dfy | decoded JSON values and truthiness; `str.lower()`; `str(n)` |
| `Wire` | wire.dfy | the request record; the ordered query `execute_request` builds; the value envelope; both `fetch_data` variants |
| `PyAccess` | py_access.dfy | subscripts, `.get` and `len`; `extract_data` and its loop |
| `Device` | device.dfy | the stand-in soundbar (a class with the request handler) |
| `Capabilities` | capabilities.dfy | client families, capability lists, `support_debounce_mode` |
| `Registry` | registry.dfy | for each simple getter/setter pair: which path and typed tag each family uses, or that the method is a stub or missing |
| `Sources` | sources.dfy | the source and preset lists, including the Max's join loop |
| `ApiSpec` | api_spec.dfy | the behaviour of every client operation, as functions and lemmas |
| `Client` | client.dfy | the client class, with one method per operation |
| `LegacyClient` | legacy_api.dfy | the single-class client of `api.py` |
| `Factory` | factory.dfy | `create_api` |
| `Util` | util.dfy | `find_title_by_id`, `find_id_by_title` |
| `Entity` | entity.dfy | entity names, unique ids, device identifiers; light and switch initial state |
| `Sorting` | sorting.dfy | `sorted` on strings |
| `MediaPlayer` | media_player.dfy | the shared state table and the media-player entity (a class) |

Some behaviour of the code that a reader might not expect, which the model
keeps:

- The Max's `get_all_sources` lowercases each name's title to test it
  against the excluded inputs, but looks it up in the index map **as given**
  (`input_index_map[name["title"]]`), while the keys of that map are
  lowercased. A name whose title has an upper-case letter therefore raises
  KeyError, unless its lowercase is an excluded input, which is skipped
  before the lookup (`Sources.JoinDropsAes`). `Sources.JoinEntryLooksUpAsGiven` states this.
- The Max client caches `False` when the probe gets no answer. The Plus/Mini
  client caches nothing in that case and probes again next time
  (`ApiSpec.MemoAsymmetry`).
- `plus_api.py` imports `AMBEO_PLUS_VOLUME_STEP`, and `generic_api.py`
  imports `TIMEOUT`, from the package's `const.py`. The repository's `const.py`
  defines neither (`TIMEOUT` is defined only in the older `api.py`), so it
  is older than the clients, and the Plus client's step is not known. The
  model gives that client no step (`VolumeStep(Plus)` is None) rather than
  invent a value.

## Model

| member | source | states |
|---|---|---|
| `Wire.EnvelopeOpens` | custom_components/ambeo_soundbar/api/impl/generic_api.py:97-99 | the `{"type": tag, tag: value}` envelope names its tag under "type"; reading that tag back out of the envelope yields the written value |
| `Wire.BuildQuery` | custom_components/ambeo_soundbar/api/impl/generic_api.py:76-88 | the query meets the request promise. The path comes first. Roles appear only when truthy. Value, from and to appear only when given, in that order. The nocache stamp comes last |
| `Wire.QueryOfEncodes` | custom_components/ambeo_soundbar/api/impl/generic_api.py:76-88 | the written-out query keeps that promise |
| `Wire.EncodesUnique` | custom_components/ambeo_soundbar/api/impl/generic_api.py:76-88 | the promise fixes the query: any query that keeps it is the written-out one |
| `Wire.OrderedUnique` | custom_components/ambeo_soundbar/api/impl/generic_api.py:78-87 | two ordered parameter lists that agree on every name are the same list |
| `Wire.Lookup` | custom_components/ambeo_soundbar/api/impl/generic_api.py:78-87 | a parameter is found exactly when some element of the list carries its name |
| `Wire.Fetch` | custom_components/ambeo_soundbar/api/impl/generic_api.py:31-57 | it raises exactly when the transport fails, or when a 200 answer does not decode, and the error carries the full URL. A 200 answer yields its body. Any other status yields None |
| `Wire.LegacyFetch` | custom_components/ambeo_soundbar/api.py:18-29 | any answer yields its body, whatever the status; every failure yields None |
| `Wire.FetchesAgree` | custom_components/ambeo_soundbar/api.py:18-29 | the legacy fetch never raises. A non-None legacy result comes from an actual answer |
| `PyAccess.Index` | custom_components/ambeo_soundbar/api/impl/generic_api.py:63 | `value[key]` succeeds exactly on a dict holding the key. A dict without it raises KeyError; anything else raises TypeError |
| `PyAccess.GetOr` | custom_components/ambeo_soundbar/util.py:4 | `.get` succeeds exactly on a dict, giving the value or the default; anything else raises AttributeError |
| `PyAccess.Elements` | custom_components/ambeo_soundbar/api/impl/espresso_api.py:67-72 | iterating a value and subscripting each element by a string key: a list yields its items; a non-empty result comes only from a list; every failure is TypeError, which is what a non-empty string or dict gives, since its elements are strings |
| `PyAccess.StrLower` | custom_components/ambeo_soundbar/api/impl/espresso_api.py:68 | `.lower()` works on strings only (AttributeError otherwise) |
| `PyAccess.ExtractData` | custom_components/ambeo_soundbar/api/impl/generic_api.py:59-70 | the loop's result is the key-path walk `Extract` |
| `PyAccess.ExtractConcat` | custom_components/ambeo_soundbar/api/impl/generic_api.py:59-70 | walking `p + q` is walking `p` and then `q`; a miss anywhere gives None |
| `PyAccess.ExtractTwo` | custom_components/ambeo_soundbar/api/impl/generic_api.py:59-70 | a two-key walk reaches the nested value through two dicts, and gives None otherwise |
| `Device.WriteTyped` | custom_components/ambeo_soundbar/api/impl/generic_api.py:90-99 | the body kept after a typed write answers that value under `value.tag` |
| `Capabilities.GenericHasNone` | custom_components/ambeo_soundbar/api/impl/generic_api.py:16 | the base client declares no capability |
| `Capabilities.HasCapability` | custom_components/ambeo_soundbar/api/impl/generic_api.py:103-104 | the base client declares nothing, and standby is declared exactly by the Max |
| `Capabilities.SupportsDebounce` | custom_components/ambeo_soundbar/api/impl/espresso_api.py:19-20 | every client but the Max answers no (generic_api.py:106-107, popcorn_api.py:27-28), and a client with debounce also declares standby |
| `Capabilities.EspressoCapabilities` | custom_components/ambeo_soundbar/api/impl/espresso_api.py:7-20 | the Max declares standby and subwoofer but no LED, logo or Bluetooth tags, and it supports debounce |
| `Capabilities.PopcornCapabilities` | custom_components/ambeo_soundbar/api/impl/popcorn_api.py:16-28 | the Plus/Mini client declares subwoofer, eco mode and Bluetooth pairing, but not standby, and has no debounce |
| `Capabilities.PlusCapabilities` | custom_components/ambeo_soundbar/api/impl/plus_api.py:8-15 | the Plus client declares exactly its five tags |
| `Capabilities.StandbyOnlyOnEspresso` | custom_components/ambeo_soundbar/api/impl/espresso_api.py:7-17 | the standby tag is declared exactly by the Max |
| `Registry.WritableIsReadable` | custom_components/ambeo_soundbar/api/impl/popcorn_api.py:42-64 | every setter that writes a slot writes where the matching getter reads |
| `Registry.ReadAccess` | custom_components/ambeo_soundbar/api/impl/generic_api.py:113-240 | the base client runs the base class's getter for every feature |
| `Registry.WriteAccess` | custom_components/ambeo_soundbar/api/impl/generic_api.py:113-240 | the base client runs the base class's setter for every feature |
| `Registry.OverridesOnlyAdd` | custom_components/ambeo_soundbar/api/impl/popcorn_api.py:42-140 | the client classes only add methods: a getter or setter a family lacks is one the base class lacks too |
| `Registry.SharedAccessors` | custom_components/ambeo_soundbar/api/impl/generic_api.py:113-141 | volume, mute and the identity getters are the base class's, for every family |
| `Registry.PlusIsPopcornWithoutEco` | custom_components/ambeo_soundbar/api/impl/plus_api.py:29-51 | the Plus paths are the Plus/Mini paths, except that the Plus has no eco-mode getter |
| `Registry.CapabilitiesHaveAccessors` | custom_components/ambeo_soundbar/api/impl/popcorn_api.py:16-22 | a declared capability that governs getter/setter pairs has a working getter for each, and a setter too unless it is eco mode. The standby, subwoofer, Bluetooth pairing and reset tags govern no such pair; the four `ApiSpec.*TagOperations` rows cover them |
| `Sources.LowerTitle` | custom_components/ambeo_soundbar/api/impl/espresso_api.py:68 | `input["title"].lower()` succeeds exactly on a dict with a string title, and yields that title lowercased |
| `Sources.IndexMapDefined` | custom_components/ambeo_soundbar/api/impl/espresso_api.py:67-70 | the index map is built exactly when every input row has a string title |
| `Sources.IndexMapSound` | custom_components/ambeo_soundbar/api/impl/espresso_api.py:67-70 | each key points at a row carrying that lowered title, and no later row carries it (the last one wins) |
| `Sources.IndexMapComplete` | custom_components/ambeo_soundbar/api/impl/espresso_api.py:67-70 | every row's lowered title is a key |
| `Sources.JoinSources` | custom_components/ambeo_soundbar/api/impl/espresso_api.py:71-77 | the formatting loop returns what the join specification gives |
| `Sources.JoinEntryLooksUpAsGiven` | custom_components/ambeo_soundbar/api/impl/espresso_api.py:73-76 | a kept name's id is looked up with the title as given; a title missing from the map raises KeyError |
| `Sources.JoinShape` | custom_components/ambeo_soundbar/api/impl/espresso_api.py:71-77 | no more entries than names, each a two-field `{id, title}` dict whose id comes from the map |
| `Sources.JoinContents` | custom_components/ambeo_soundbar/api/impl/espresso_api.py:71-77 | the join has exactly one entry per name that is not excluded, in name order. Each entry's id is the map's index for that name's title as given, and its title is the name's `value.string_` |
| `Sources.JoinDropsAes` | custom_components/ambeo_soundbar/api/impl/espresso_api.py:73 | a name titled "AES" is dropped, even though "AES" is not a key of the map |
| `Sources.JoinEntry` | custom_components/ambeo_soundbar/api/impl/espresso_api.py:72-76 | an excluded name gives no entry; an entry given is for a name that is not excluded and is the one formatted for it |
| `Sources.JoinSpec` | custom_components/ambeo_soundbar/api/impl/espresso_api.py:71-77 | the output never outgrows the names, and a failure comes from some name whose entry fails |
| `Sources.IndexMap` | custom_components/ambeo_soundbar/api/impl/espresso_api.py:67-70 | every index in the map is a position in the row list |
| `Sources.EspressoSources` | custom_components/ambeo_soundbar/api/impl/espresso_api.py:61-78 | a result is a list, no longer than the names list, which iterated without error; rows that cannot be iterated raise TypeError |
| `Sources.EspressoSourceIds` | custom_components/ambeo_soundbar/api/impl/espresso_api.py:61-78 | the list has one entry per name that is not excluded, in order. Its title is that name's display string, and its id is the position of the last input row whose lowered title equals the name's title |
| `Sources.WithAdditionalInputs` | custom_components/ambeo_soundbar/api/impl/popcorn_api.py:73 | only a list can be extended (AttributeError otherwise); the result is the rows followed by the two streaming inputs |
| `Sources.PresetListSpec` | custom_components/ambeo_soundbar/api/impl/popcorn_api.py:86-93 | the comprehension succeeds exactly when every row does. Then it keeps one `{title, id}` entry per row, in order |
| `Sources.PresetList` | custom_components/ambeo_soundbar/api/impl/popcorn_api.py:90-91 | a result has one entry per row |
| `Sources.PopcornPresets` | custom_components/ambeo_soundbar/api/impl/popcorn_api.py:88-92 | a result is a list; a reply without rows raises TypeError, as iterating None does |
| `Sources.FixedPresetsNumbered` | custom_components/ambeo_soundbar/api/impl/espresso_api.py:89-96 | the five Max presets are numbered by position and have distinct titles |
| `ApiSpec.EndpointFor` | custom_components/ambeo_soundbar/api/impl/generic_api.py:27-29 | the endpoint is `http://…/api` |
| `ApiSpec.EndpointHost` | custom_components/ambeo_soundbar/api/impl/generic_api.py:27-29 | the host can be read back from the endpoint, so two hosts give two endpoints |
| `ApiSpec.Send` | custom_components/ambeo_soundbar/api/impl/generic_api.py:76-88 | one request is sent and applied to the device; offline, it raises a connection error naming the URL |
| `ApiSpec.GetValueSpec` | custom_components/ambeo_soundbar/api/impl/generic_api.py:90-95 | one read of the path, the device unchanged; it raises exactly when the device is unreachable |
| `ApiSpec.SetValueSpec` | custom_components/ambeo_soundbar/api/impl/generic_api.py:97-99 | one typed write of the path; it returns None exactly when the device is reachable, and an unreachable device is left as it was |
| `ApiSpec.CommandSpec` | custom_components/ambeo_soundbar/api/impl/generic_api.py:242-252 | one activate request, the device unchanged; it returns None exactly when the device is reachable |
| `ApiSpec.FieldOfValue` | custom_components/ambeo_soundbar/api/impl/popcorn_api.py:33-37 | one read, the device unchanged; on a reachable device a failure is TypeError or KeyError from subscripting the reading |
| `ApiSpec.BrightnessGetSpec` | custom_components/ambeo_soundbar/api/impl/espresso_api.py:98-102 | one read of the brightness record, the device unchanged |
| `ApiSpec.BrightnessSetSpec` | custom_components/ambeo_soundbar/api/impl/espresso_api.py:104-118 | it first reads the brightness record and then, at most, writes it once; an unreachable device gets only the read and raises |
| `ApiSpec.PlayerDataSpec` | custom_components/ambeo_soundbar/api/impl/generic_api.py:254-258 | one read of the player data, the device unchanged; it raises exactly when the device is unreachable |
| `ApiSpec.PowerStateSpec` | custom_components/ambeo_soundbar/api/impl/generic_api.py:272-276 | one read of the power target, the device unchanged |
| `ApiSpec.PowerRequestSpec` | custom_components/ambeo_soundbar/api/impl/espresso_api.py:34-38 | only the Max sends anything: one write to the online or the standby flag, as asked; the others return None with no request |
| `ApiSpec.BluetoothGetSpec` | custom_components/ambeo_soundbar/api/impl/popcorn_api.py:33-37 | the device is unchanged; a request is sent exactly on the Plus/Mini and Plus clients, and the others return None |
| `ApiSpec.BluetoothSetSpec` | custom_components/ambeo_soundbar/api/impl/popcorn_api.py:39-40 | the device is unchanged; a request is sent exactly on the Plus/Mini and Plus clients, and the others return None |
| `ApiSpec.ResetSpec` | custom_components/ambeo_soundbar/api/impl/espresso_api.py:150-151 | the device is unchanged; the Max sends one request, returning None exactly when reachable; the others raise AttributeError with no request |
| `ApiSpec.SetSourceSpec` | custom_components/ambeo_soundbar/api/impl/popcorn_api.py:77-78 | the base client does nothing; the Max writes the id to the input selector; the Plus/Mini clients send one request to `ui:/inputs/` followed by the id as text, leaving the device unchanged |
| `ApiSpec.AllSourcesSpec` | custom_components/ambeo_soundbar/api/impl/espresso_api.py:61-78 | the device is unchanged. The base client sends nothing; the Max sends two row requests, or one when the first fails in transport; the others send one. A Max result other than None is a list |
| `ApiSpec.AllPresetsSpec` | custom_components/ambeo_soundbar/api/impl/popcorn_api.py:86-93 | the device is unchanged; only the Plus/Mini and Plus clients send a request, one; a result other than None is a list |
| `ApiSpec.LevelEnabled` | custom_components/ambeo_soundbar/api/impl/espresso_api.py:159-160 | a dict answers whether it holds `disabled` with the value False; anything else raises AttributeError |
| `ApiSpec.LevelProbe` | custom_components/ambeo_soundbar/api/impl/espresso_api.py:156-162 | one read of the subwoofer level, the device unchanged; a result is a bool |
| `ApiSpec.ListProbe` | custom_components/ambeo_soundbar/api/impl/popcorn_api.py:121-123 | one read of the subwoofer list, the device unchanged; a result is a bool or None |
| `ApiSpec.SubwooferStatusSpec` | custom_components/ambeo_soundbar/api/impl/espresso_api.py:171-176 | the device is unchanged; a request is sent exactly on the Max and the Plus/Mini |
| `ApiSpec.SetSubwooferStatusSpec` | custom_components/ambeo_soundbar/api/impl/espresso_api.py:178-181 | a request is sent exactly on the Plus/Mini; the Max does nothing and returns None; the base and Plus clients raise TypeError, because the base method takes no argument |
| `ApiSpec.SubwooferVolumeSpec` | custom_components/ambeo_soundbar/api/impl/popcorn_api.py:132-133 | the device is unchanged; a request is sent exactly on the Max and the Plus/Mini |
| `ApiSpec.SetSubwooferVolumeSpec` | custom_components/ambeo_soundbar/api/impl/espresso_api.py:168-169 | the Max writes the volume truncated to an integer as `i16_`; the Plus/Mini write it unchanged as `double_`; the base and Plus clients raise TypeError |
| `ApiSpec.GetSpec` | custom_components/ambeo_soundbar/api/impl/generic_api.py:90-95 | a getter never changes the device. It sends nothing exactly when it is a stub or missing. A missing one raises AttributeError. Offline, a real one raises a connection error |
| `ApiSpec.SetSpec` | custom_components/ambeo_soundbar/api/impl/generic_api.py:97-99 | a setter sends nothing exactly when it is a stub or missing, and then, or when offline, leaves the device as it was. A missing one raises AttributeError |
| `ApiSpec.WriteThenRead` | custom_components/ambeo_soundbar/api/impl/generic_api.py:90-99 | `get_value` after `set_value` on the same path and tag yields the value written |
| `ApiSpec.SetThenGet` | custom_components/ambeo_soundbar/api/impl/popcorn_api.py:42-64 | for every family and slot-backed feature, setting and then getting yields the value set |
| `ApiSpec.SlotTags` | custom_components/ambeo_soundbar/api/impl/espresso_api.py:40-59 | every slot's tag is one of the typed tags, never "type" |
| `ApiSpec.BrightnessRoundTrip` | custom_components/ambeo_soundbar/api/impl/espresso_api.py:98-124 | a Max brightness setter writes the field asked for and keeps the other field's earlier reading |
| `ApiSpec.SetLeavesOthers` | custom_components/ambeo_soundbar/api/impl/popcorn_api.py:42-117 | setting one feature leaves the reading of a feature on another path unchanged |
| `ApiSpec.ListingsReadOnly` | custom_components/ambeo_soundbar/api/impl/espresso_api.py:61-96 | listing sources or presets never changes the device, sends at most two row requests for sources and at most one for presets |
| `ApiSpec.PopcornSourcesExtend` | custom_components/ambeo_soundbar/api/impl/popcorn_api.py:69-75 | the Plus/Mini list is the Plus list followed by the two streaming inputs |
| `ApiSpec.EspressoPresetsLocal` | custom_components/ambeo_soundbar/api/impl/espresso_api.py:89-96 | the Max presets are the fixed list and no request is sent |
| `ApiSpec.HasSubwooferSpec` | custom_components/ambeo_soundbar/api/impl/espresso_api.py:154-163 | an answer already cached is kept |
| `ApiSpec.HasSubwooferMemo` | custom_components/ambeo_soundbar/api/impl/popcorn_api.py:119-124 | once cached, every later probe returns the cached answer without a request, whatever the device now holds |
| `ApiSpec.MemoAsymmetry` | custom_components/ambeo_soundbar/api/impl/espresso_api.py:154-163 | with no answer at the probed path the Max caches False, while the Plus/Mini returns None and caches nothing |
| `ApiSpec.StatusAgreesWithProbe` | custom_components/ambeo_soundbar/api/impl/espresso_api.py:171-176 | on the Max, the subwoofer status is the first probe's answer, request for request |
| `ApiSpec.Truncate` | custom_components/ambeo_soundbar/api/impl/espresso_api.py:169 | `int(x)` truncates toward zero: it is the integer between 0 and x closest to x |
| `ApiSpec.SubwooferVolumeRoundTrip` | custom_components/ambeo_soundbar/api/impl/espresso_api.py:165-169 | a volume set on the Max reads back truncated toward zero; on the Plus/Mini it reads back unchanged |
| `ApiSpec.SubwooferRange` | custom_components/ambeo_soundbar/api/impl/espresso_api.py:28-32 | only the Max has a subwoofer range, and it is symmetric around zero |
| `ApiSpec.VolumeStep` | custom_components/ambeo_soundbar/api/impl/plus_api.py:17-18 | the volume step is positive and at most 0.02. It is left unknown exactly for the Plus client, whose constant is not in the repository's `const.py` |
| `ApiSpec.StandbyTagOperations` | custom_components/ambeo_soundbar/api/impl/espresso_api.py:7 | the standby tag governs no getter/setter pair; a client declares it exactly when its `stand_by`/`wake` send a request |
| `ApiSpec.SubwooferTagOperations` | custom_components/ambeo_soundbar/api/impl/popcorn_api.py:21 | the subwoofer tag governs no getter/setter pair; a client declares it exactly when its subwoofer status and volume getters send a request |
| `ApiSpec.BluetoothTagOperations` | custom_components/ambeo_soundbar/api/impl/popcorn_api.py:20 | the Bluetooth pairing tag governs no getter/setter pair; a client declares it exactly when its pairing-state methods send a request |
| `ApiSpec.ResetTagOperations` | custom_components/ambeo_soundbar/api/impl/espresso_api.py:14 | the reset tag governs no getter/setter pair; a client declares it exactly when its `reset_expert_settings` sends a request |
| `Client.AmbeoApi.constructor` | custom_components/ambeo_soundbar/api/impl/generic_api.py:18-23 | the new client targets `http://ip:port/api`, has sent nothing and has no cached subwoofer answer |
| `Client.AmbeoApi.SetEndpoint` | custom_components/ambeo_soundbar/api/impl/generic_api.py:27-29 | the ip and endpoint are re-pointed to the host and the port is kept |
| `Client.AmbeoApi.ExecuteRequest` | custom_components/ambeo_soundbar/api/impl/generic_api.py:76-88 | behaves as `ApiSpec.Send` |
| `Client.AmbeoApi.GetValue` | custom_components/ambeo_soundbar/api/impl/generic_api.py:90-95 | behaves as `ApiSpec.GetValueSpec` |
| `Client.AmbeoApi.SetValue` | custom_components/ambeo_soundbar/api/impl/generic_api.py:97-99 | behaves as `ApiSpec.SetValueSpec` |
| `Client.AmbeoApi.Command` | custom_components/ambeo_soundbar/api/impl/generic_api.py:242-252 | behaves as `ApiSpec.CommandSpec`: one activate request, its answer discarded |
| `Client.AmbeoApi.FieldOf` | custom_components/ambeo_soundbar/api/impl/popcorn_api.py:33-37 | behaves as `ApiSpec.FieldOfValue`: one key of a dict-valued reading, or None |
| `Client.AmbeoApi.Get` | custom_components/ambeo_soundbar/api/impl/generic_api.py:113-240 | behaves as `ApiSpec.GetSpec` for the client's family |
| `Client.AmbeoApi.Set` | custom_components/ambeo_soundbar/api/impl/generic_api.py:113-240 | behaves as `ApiSpec.SetSpec` for the client's family |
| `Client.AmbeoApi.SetBrightness` | custom_components/ambeo_soundbar/api/impl/espresso_api.py:104-118 | behaves as `ApiSpec.BrightnessSetSpec`: read the other field, then write both |
| `Client.AmbeoApi.Play` | custom_components/ambeo_soundbar/api/impl/generic_api.py:242-243 | presses the multi-purpose button |
| `Client.AmbeoApi.Pause` | custom_components/ambeo_soundbar/api/impl/generic_api.py:245-246 | presses the same button as play |
| `Client.AmbeoApi.Next` | custom_components/ambeo_soundbar/api/impl/generic_api.py:248-249 | sends the "next" player control |
| `Client.AmbeoApi.Previous` | custom_components/ambeo_soundbar/api/impl/generic_api.py:251-252 | sends the "previous" player control |
| `Client.AmbeoApi.Reboot` | custom_components/ambeo_soundbar/api/impl/generic_api.py:269-270 | activates the restart path |
| `Client.AmbeoApi.PlayerData` | custom_components/ambeo_soundbar/api/impl/generic_api.py:254-258 | behaves as `ApiSpec.PlayerDataSpec`: the play-logic record of a truthy answer, else None |
| `Client.AmbeoApi.GetState` | custom_components/ambeo_soundbar/api/impl/generic_api.py:272-276 | behaves as `ApiSpec.PowerStateSpec`: the power target's `target` |
| `Client.AmbeoApi.StandBy` | custom_components/ambeo_soundbar/api/impl/espresso_api.py:34-35 | only the Max writes its standby request; the others do nothing |
| `Client.AmbeoApi.Wake` | custom_components/ambeo_soundbar/api/impl/espresso_api.py:37-38 | only the Max writes its online request; the others do nothing |
| `Client.AmbeoApi.GetBluetoothPairingState` | custom_components/ambeo_soundbar/api/impl/popcorn_api.py:33-37 | behaves as `ApiSpec.BluetoothGetSpec`: the `pairable` key on the Plus/Mini clients, nothing on the others |
| `Client.AmbeoApi.SetBluetoothPairingState` | custom_components/ambeo_soundbar/api/impl/popcorn_api.py:39-40 | behaves as `ApiSpec.BluetoothSetSpec`: activates discoverability with the state as a bool envelope |
| `Client.AmbeoApi.ResetExpertSettings` | custom_components/ambeo_soundbar/api/impl/espresso_api.py:150-151 | on the Max it activates the reset; on the other clients the method is missing |
| `Client.AmbeoApi.SetSource` | custom_components/ambeo_soundbar/api/impl/popcorn_api.py:77-78 | the Max writes the input id; the Plus/Mini activate `ui:/inputs/<id>` |
| `Client.AmbeoApi.GetAllSources` | custom_components/ambeo_soundbar/api/impl/popcorn_api.py:69-75 | behaves as `ApiSpec.AllSourcesSpec` for the client's family |
| `Client.AmbeoApi.EspressoAllSources` | custom_components/ambeo_soundbar/api/impl/espresso_api.py:61-78 | the Max's two row requests, then the join loop, as `ApiSpec.AllSourcesSpec` |
| `Client.AmbeoApi.PopcornAllSources` | custom_components/ambeo_soundbar/api/impl/popcorn_api.py:69-75 | the Plus/Mini rows, extended on the Plus/Mini client, as `ApiSpec.AllSourcesSpec` |
| `Client.AmbeoApi.GetAllPresets` | custom_components/ambeo_soundbar/api/impl/popcorn_api.py:86-93 | behaves as `ApiSpec.AllPresetsSpec` for the client's family |
| `Client.AmbeoApi.ProbeLevel` | custom_components/ambeo_soundbar/api/impl/espresso_api.py:156-162 | the Max's probe: `disabled is False` on an answer, False without one |
| `Client.AmbeoApi.ProbeList` | custom_components/ambeo_soundbar/api/impl/popcorn_api.py:121-123 | the Plus/Mini probe: a non-empty subwoofer list |
| `Client.AmbeoApi.HasSubwoofer` | custom_components/ambeo_soundbar/api/impl/espresso_api.py:154-163 | behaves as `ApiSpec.HasSubwooferSpec`, including the update of the cache |
| `Client.AmbeoApi.GetSubwooferStatus` | custom_components/ambeo_soundbar/api/impl/espresso_api.py:171-176 | behaves as `ApiSpec.SubwooferStatusSpec` |
| `Client.AmbeoApi.SetSubwooferStatus` | custom_components/ambeo_soundbar/api/impl/espresso_api.py:178-181 | a no-op on the Max; a write on the Plus/Mini |
| `Client.AmbeoApi.GetSubwooferVolume` | custom_components/ambeo_soundbar/api/impl/popcorn_api.py:132-133 | behaves as `ApiSpec.SubwooferVolumeSpec` |
| `Client.AmbeoApi.SetSubwooferVolume` | custom_components/ambeo_soundbar/api/impl/espresso_api.py:168-169 | behaves as `ApiSpec.SetSubwooferVolumeSpec`: the Max truncates the value |
| `LegacyClient.LegacySend` | custom_components/ambeo_soundbar/api.py:48-60 | never raises; sends one request; an unreachable device gives None |
| `LegacyClient.LegacyAgreesOnline` | custom_components/ambeo_soundbar/api.py:62-71 | on a reachable stand-in device, which answers a miss with 404 and no body, the legacy `get_value`/`set_value` equal the current client's |
| `LegacyClient.LegacyOffline` | custom_components/ambeo_soundbar/api.py:18-29 | on an unreachable device the legacy client answers None where the current one raises |
| `LegacyClient.LegacyListingsAsPlus` | custom_components/ambeo_soundbar/api.py:162-184 | on a reachable stand-in device, which answers a miss with 404 and no body, the legacy source and preset lists are the Plus client's |
| `LegacyClient.LegacyDivergesOnErrorBody` | custom_components/ambeo_soundbar/api.py:18-29 | an error status with a body parts the clients: the current fetch gives None, the legacy one the body, whose preset listing then raises TypeError |
| `LegacyClient.LegacyWriteThenRead` | custom_components/ambeo_soundbar/api.py:62-71 | a value written through the legacy client reads back |
| `LegacyClient.LegacyAmbeoApi.constructor` | custom_components/ambeo_soundbar/api.py:10-16 | the endpoint is fixed to `http://ip:port/api` |
| `LegacyClient.LegacyAmbeoApi.ExecuteRequest` | custom_components/ambeo_soundbar/api.py:48-60 | behaves as `LegacySend` |
| `LegacyClient.LegacyAmbeoApi.GetValue` | custom_components/ambeo_soundbar/api.py:62-67 | behaves as `LegacyGetValueSpec` |
| `LegacyClient.LegacyAmbeoApi.SetValue` | custom_components/ambeo_soundbar/api.py:69-71 | behaves as `LegacySetValueSpec` |
| `LegacyClient.LegacyAmbeoApi.GetAllSources` | custom_components/ambeo_soundbar/api.py:162-167 | behaves as `LegacySourcesSpec` |
| `LegacyClient.LegacyAmbeoApi.GetAllPresets` | custom_components/ambeo_soundbar/api.py:178-184 | behaves as `LegacyPresetsSpec` |
| `Factory.Dispatch` | custom_components/ambeo_soundbar/api/factory.py:18-25 | a Plus or Mini name gives the Plus/Mini client and the Max name gives the Max client. Any other string raises ValueError naming the model. A non-string model raises TypeError in the log line. The Plus-only client is never chosen |
| `Factory.ProbeIsOneRead` | custom_components/ambeo_soundbar/api/factory.py:17-18 | the probe is one read of the product name and changes nothing |
| `Factory.FactoryChoices` | custom_components/ambeo_soundbar/api/factory.py:16-25 | a client is built exactly when the probed name is one of the three known names, and its family is the Plus/Mini or the Max |
| `Factory.CreateSpec` | custom_components/ambeo_soundbar/api/factory.py:16-25 | the probe's error is passed on; a client is chosen exactly when the probe read one of the three known names, and it is the Plus/Mini or the Max client |
| `Factory.CreateApi` | custom_components/ambeo_soundbar/api/factory.py:16-25 | the method probes once, then returns a fresh client of the chosen family at that ip and port, or the probe's or dispatch's error |
| `Util.FindFirst` | custom_components/ambeo_soundbar/util.py:1-13 | the search answers from the first entry whose key matches, whatever follows |
| `Util.FindNone` | custom_components/ambeo_soundbar/util.py:1-13 | with no match among dicts the search yields None |
| `Util.FindBlocked` | custom_components/ambeo_soundbar/util.py:1-13 | a non-dict entry reached before any match raises AttributeError |
| `Util.FindSome` | custom_components/ambeo_soundbar/util.py:1-13 | with some match among dicts, the answer comes from the first match |
| `Util.TitleIdRoundTrip` | custom_components/ambeo_soundbar/util.py:1-13 | with unique ids, the title found for the id of a present title is that title |
| `Util.NoneMatchesMissing` | custom_components/ambeo_soundbar/util.py:1-13 | searching for None finds the first entry lacking the key |
| `Util.Entries` | custom_components/ambeo_soundbar/util.py:3 | a list yields its items; only a list yields any entry |
| `Util.FindTitleById` | custom_components/ambeo_soundbar/util.py:1-6 | a title found comes from an entry of the list whose id is the one asked for |
| `Util.FindIdByTitle` | custom_components/ambeo_soundbar/util.py:8-13 | an id found comes from an entry of the list whose title is the one asked for |
| `Util.FindBy` | custom_components/ambeo_soundbar/util.py:3-6 | the loop shared by both lookups: a failure is AttributeError, and a result other than None comes from an entry whose key equals the value sought |
| `Entity.NewBaseEntity` | custom_components/ambeo_soundbar/entity.py:15-20 | the entity keeps its device. The name is one character longer than the device name and suffix together, and so is the unique id than the serial and id suffix |
| `Entity.NamingScheme` | custom_components/ambeo_soundbar/entity.py:17-19 | the name is the device name, a space and the suffix. The unique id is the serial, `_` and the normalised suffix |
| `Entity.Identifiers` | custom_components/ambeo_soundbar/entity.py:23-27 | one identifier: the domain with the serial |
| `Entity.ReplaceChar` | custom_components/ambeo_soundbar/entity.py:19 | `replace` maps each occurrence of the character and keeps the others |
| `Entity.IdSuffixNormal` | custom_components/ambeo_soundbar/entity.py:19 | the id suffix has no space and no upper-case ASCII letter |
| `Entity.UniqueIdCollapses` | custom_components/ambeo_soundbar/entity.py:19 | suffixes differing only in case or in space versus underscore give the same unique id |
| `Entity.NamesDistinguishSuffixes` | custom_components/ambeo_soundbar/entity.py:17 | different name suffixes give different names |
| `Entity.NewLight` | custom_components/ambeo_soundbar/entity.py:40-46 | a new light has brightness 0 and is off |
| `Entity.NewSwitch` | custom_components/ambeo_soundbar/entity.py:64-71 | a new switch uses its feature name for both suffixes and is on |
| `Sorting.StrLeTotal` | custom_components/ambeo_soundbar/media_player.py:175 | any two strings are ordered |
| `Sorting.StrLeAntisymmetric` | custom_components/ambeo_soundbar/media_player.py:175 | only equal strings are ordered both ways |
| `Sorting.Insert` | custom_components/ambeo_soundbar/media_player.py:175 | insertion keeps the list sorted and adds exactly the element |
| `Sorting.Sort` | custom_components/ambeo_soundbar/media_player.py:175 | the result is sorted and a permutation of the input |
| `MediaPlayer.NetworkStandbyState` | custom_components/ambeo_soundbar/media_player.py:73-76 | "networkStandby" shows as standby exactly when the client declares standby, and as idle otherwise |
| `MediaPlayer.TableGet` | custom_components/ambeo_soundbar/media_player.py:252 | `dict.get` raises TypeError exactly for an unhashable key; otherwise it gives the entry or the default |
| `MediaPlayer.MapPowerState` | custom_components/ambeo_soundbar/media_player.py:252 | a known state string maps to its table entry; any other hashable state passes through; it raises exactly for a dict or list state |
| `MediaPlayer.PowerStateMapping` | custom_components/ambeo_soundbar/media_player.py:249-255 | the device's power target maps to the table's state, "networkStandby" to standby exactly on the Max, and unknown states pass through |
| `MediaPlayer.ShownState` | custom_components/ambeo_soundbar/media_player.py:110-114 | when powered on, the playing state is shown; otherwise the power state |
| `MediaPlayer.AmbeoMediaPlayer.State` | custom_components/ambeo_soundbar/media_player.py:110-114 | the entity shows its power state, or its playing state when the power state is on |
| `MediaPlayer.AmbeoMediaPlayer.DebounceModeActivated` | custom_components/ambeo_soundbar/media_player.py:78-80 | debounce is active only for the Max client with a positive cooldown; a cooldown of zero or less turns it off |
| `MediaPlayer.AmbeoMediaPlayer.SourceId` | custom_components/ambeo_soundbar/media_player.py:166-169 | an id found comes from a source entry whose title is the current source |
| `MediaPlayer.ShouldDebounce` | custom_components/ambeo_soundbar/media_player.py:289-293 | only a "stopped" report is held back, and never while the player is in standby or already idle |
| `MediaPlayer.LevelOf` | custom_components/ambeo_soundbar/media_player.py:281-287 | a numeric reading becomes a level in hundredths; anything else raises TypeError |
| `MediaPlayer.LevelRoundTrip` | custom_components/ambeo_soundbar/media_player.py:136-139 | a level sent to the device reads back as that level |
| `MediaPlayer.SetLevelThenPoll` | custom_components/ambeo_soundbar/media_player.py:136-139 | setting a level then polling the volume yields the same level, on every family |
| `MediaPlayer.TitleOf` | custom_components/ambeo_soundbar/media_player.py:174 | a dict gives its title or None; a failure is TypeError |
| `MediaPlayer.TitlesOfDicts` | custom_components/ambeo_soundbar/media_player.py:172-175 | over dicts the titles are collected in order, skipping entries without one |
| `MediaPlayer.TitleListSorted` | custom_components/ambeo_soundbar/media_player.py:171-175 | over dicts with string titles, the source list is those titles, sorted |
| `MediaPlayer.TitleList` | custom_components/ambeo_soundbar/media_player.py:171-175 | a failure is TypeError; over a dict it fails exactly when some key contains "title", and otherwise the list is empty |
| `MediaPlayer.ListTitles` | custom_components/ambeo_soundbar/media_player.py:174 | the comprehension: a failure is TypeError; only a list, a string or a dict can succeed; a list gives at most one title per entry; a dict fails exactly when a key contains "title" |
| `MediaPlayer.StringTitles` | custom_components/ambeo_soundbar/media_player.py:174 | a string source list yields no titles, since no one-character string contains "title" |
| `MediaPlayer.DictTitleList` | custom_components/ambeo_soundbar/media_player.py:174 | iterating a dict visits its keys: a key containing "title" is subscripted by a string and raises TypeError; otherwise nothing is kept |
| `MediaPlayer.SelectThenPoll` | custom_components/ambeo_soundbar/media_player.py:177-183 | selecting a present title sends an id whose title is that title |
| `MediaPlayer.SelectMissing` | custom_components/ambeo_soundbar/media_player.py:177-183 | selecting an absent title sends nothing |
| `MediaPlayer.SelectTarget` | custom_components/ambeo_soundbar/media_player.py:177-183 | a None choice selects nothing; an id selected is not None and comes from an entry of the list titled with the choice |
| `MediaPlayer.ProcessPlayingState` | custom_components/ambeo_soundbar/media_player.py:366-371 | a missing or null state keeps the playing state; a state string the table knows maps through it, and an unknown one gives idle |
| `MediaPlayer.ProcessWellNested` | custom_components/ambeo_soundbar/media_player.py:366-378 | well-nested data raises nothing and sets the title, image, artist and album from the track roles |
| `MediaPlayer.ProcessNullRoles` | custom_components/ambeo_soundbar/media_player.py:366-378 | null track roles raise AttributeError after the playing state is set |
| `MediaPlayer.ProcessSpec` | custom_components/ambeo_soundbar/media_player.py:366-378 | data that is not a dict raises AttributeError at once and changes nothing; any failure is AttributeError or TypeError |
| `MediaPlayer.StateTable.constructor` | custom_components/ambeo_soundbar/media_player.py:19-24 | the table starts with the four device states |
| `MediaPlayer.AmbeoMediaPlayer.constructor` | custom_components/ambeo_soundbar/media_player.py:52-76 | the initial attributes, the volume step of the client and the shared table's "networkStandby" entry |
| `MediaPlayer.AmbeoMediaPlayer.SetVolumeLevel` | custom_components/ambeo_soundbar/media_player.py:136-140 | writes the level scaled by the maximum volume and records the level only when the write succeeded |
| `MediaPlayer.AmbeoMediaPlayer.MuteVolume` | custom_components/ambeo_soundbar/media_player.py:146-149 | writes the mute flag and records it only when the write succeeded |
| `MediaPlayer.AmbeoMediaPlayer.TurnOn` | custom_components/ambeo_soundbar/media_player.py:151-154 | wakes the device and then shows on |
| `MediaPlayer.AmbeoMediaPlayer.TurnOff` | custom_components/ambeo_soundbar/media_player.py:156-159 | puts the device in standby and then shows standby |
| `MediaPlayer.AmbeoMediaPlayer.MediaPlay` | custom_components/ambeo_soundbar/media_player.py:208-211 | presses play and then shows playing |
| `MediaPlayer.AmbeoMediaPlayer.MediaPause` | custom_components/ambeo_soundbar/media_player.py:213-216 | presses pause and then shows paused |
| `MediaPlayer.AmbeoMediaPlayer.SelectSource` | custom_components/ambeo_soundbar/media_player.py:177-183 | selects the id found for the title and records the title; an unknown title changes nothing |
| `MediaPlayer.AmbeoMediaPlayer.SelectSoundMode` | custom_components/ambeo_soundbar/media_player.py:200-206 | the same for presets |
| `MediaPlayer.AmbeoMediaPlayer.UpdateState` | custom_components/ambeo_soundbar/media_player.py:249-255 | polls the power target and records its mapping; a failure keeps the previous value |
| `MediaPlayer.AmbeoMediaPlayer.UpdatePreset` | custom_components/ambeo_soundbar/media_player.py:257-263 | polls the preset id and records its title; a failure keeps the previous value |
| `MediaPlayer.AmbeoMediaPlayer.UpdateSource` | custom_components/ambeo_soundbar/media_player.py:265-271 | polls the source id and records its title; a failure keeps the previous value |
| `MediaPlayer.AmbeoMediaPlayer.UpdateMute` | custom_components/ambeo_soundbar/media_player.py:273-279 | polls and records the mute flag |
| `MediaPlayer.AmbeoMediaPlayer.UpdateVolume` | custom_components/ambeo_soundbar/media_player.py:281-287 | polls the volume and records it in hundredths; a failure keeps the previous value |
| `MediaPlayer.AmbeoMediaPlayer.ProcessPlayerData` | custom_components/ambeo_soundbar/media_player.py:366-378 | updates the media fields as `ProcessSpec` does, stopping at the first raise |
| `MediaPlayer.AmbeoMediaPlayer.UpdatePlayerData` | custom_components/ambeo_soundbar/media_player.py:310-341 | polls the player data, then processes it. It skips processing when the poll fails, when the data is not a dict, when the player data's own state is "transitioning", and while the debounce hold is on |

## Left out

- Home Assistant glue: config flow, coordinator, platform setup and the entity platforms beyond the base entity, light and switch. The button, number and binary-sensor entities are only thin forwarders to the client methods modelled here.
- The HTTP session, its timeout and the event loop are left out: a request is one call on the device object. The time stamp behind `_nocache` is a constant of each client (`clock`).
- Debounce tasks, their cancellation and sleeping (`_debounced_update`, `_cancel_existing_debounce`) are left out: asynchronous timing is out of scope. The debounce hold is a flag read at the time of the poll.
- `update_debounce_mode` and the config-entry listener are left out: the cooldown is a constructor argument.
- The player's next/previous track, `supported_features`, `available` and the remaining read-only properties are left out: they only forward to the client or read a field.
- The light entity's conversion to Home Assistant's brightness scale (`value_to_brightness`) is left out: it is a library call.
- `async_update`'s concurrent gather is left out: each update method is modelled on its own, in sequence.
- The per-feature getters and setters of the legacy client are not modelled separately: they use the Plus/Mini paths, which `LegacyAgreesOnline` covers through `get_value`/`set_value`. That agreement holds on the stand-in device, which answers a miss with 404 and no body; `LegacyDivergesOnErrorBody` shows where a device that sends a body with an error status parts them.
- The Max's brightness setters read one field and then write both. Another write between those two steps is not modelled: the model is sequential.
- The dicts in the Plus/Mini `additional_inputs` are shared with every returned list. That aliasing is not modelled, because lists are values here.
- JSON text: payloads are kept as structured values, so `json.dumps` spacing and the literal `'{"type":"bool_","bool_":true}'` of `reset_expert_settings` are both the same bool envelope.
- Python's cross-type equality (`1 == True`, `1 == 1.0`) is not modelled: values of different kinds compare unequal.
- `JsonValue.Lower`: only ASCII letters are lowercased, where `str.lower()` also folds other scripts.
- `JsonValue.PyStr`: it renders only the scalar values a source id can be; lists, dicts and floats render as the empty string.
- `MediaPlayer.TitleList`: when two or more titles are not all strings, this model raises TypeError. Python would sort a list of mutually comparable numbers.
- `ApiSpec.VolumeStep`: the Plus client's step is left unknown, because the constant it returns is not defined in the repository's `const.py`.
- `MediaPlayer.AmbeoMediaPlayer.SetVolumeLevel`: the volume is a real number, so float rounding of `volume * 100` is not modelled.
- `ApiSpec.SetLeavesOthers`: it requires the two paths to differ rather than deriving that from the registry's string literals.
- The shared `STATE_DICT` is a `StateTable` object handed to every player, so the last player built decides the "networkStandby" entry for all. Import-time creation of that table is the table's constructor.
- The capability tags `ECO_MODE`, `VOICE_ENHANCEMENT_TOGGLE`, the level tags and `RESET_EXPERT_SETTINGS`, and the constant `AMBEO_PLUS_VOLUME_STEP`, are used by the clients but are not defined in `const.py`. They are modelled as the tags the clients list, and the Plus step as unknown.
