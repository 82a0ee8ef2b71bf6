/** What each client operation does, as a function of the device's state
    before the call: the value it returns or the exception it raises, the
    device's state after it, and the requests it sent. The client class
    proves each of its methods against these. */
module ApiSpec {
  import opened Wrappers
  import opened JsonValue
  import opened Wire
  import opened PyAccess
  import opened Device
  import opened Capabilities
  import opened Registry
  import opened Sources

  /** `f"http://{host}:{port}/api"`. */
  function EndpointFor(host: string, port: nat): (e: string)
    ensures |e| >= 12 && e[..7] == "http://" && e[|e| - 4..] == "/api"
  {
    "http://" + host + ":" + NatToString(port) + "/api"
  }

  /** The host a given endpoint was built from, for a known port. */
  function HostOf(endpoint: string, port: nat): string
  {
    var tail := |":" + NatToString(port) + "/api"|;
    if 7 + tail <= |endpoint| then endpoint[7..|endpoint| - tail] else ""
  }

  /** The endpoint names its host: two hosts give two endpoints. */
  lemma EndpointHost(host: string, port: nat)
    ensures HostOf(EndpointFor(host, port), port) == host
  {
    var e := EndpointFor(host, port);
    var suffix := ":" + NatToString(port) + "/api";
    assert e == "http://" + host + suffix;
    assert e[7..|e| - |suffix|] == host;
  }

  /** `get_value` always asks for role "@all". */
  function ReadRequest(path: string): Request
  {
    Request("getData", path, Some("@all"), None, None, None)
  }

  /** `set_value`: role "value" carrying the typed envelope. */
  function WriteRequest(path: string, tag: string, v: Json): Request
  {
    Request("setData", path, Some("value"), Some(Envelope(tag, v)), None, None)
  }

  /** A command: role "activate" with a payload. */
  function ActivateRequest(path: string, payload: Json): Request
  {
    Request("setData", path, Some("activate"), Some(payload), None, None)
  }

  /** A row listing from index 0 up to `to`. */
  function RowsRequest(path: string, to: int): Request
  {
    Request("getRows", path, Some("@all"), None, Some(0), Some(to))
  }

  /** The payload `{"type": "bool_", "bool_": True}` of the button commands. */
  const BoolTrue: Json := Envelope("bool_", JBool(true))

  /** The outcome of an operation: the Python return value (`JNull` for
      None) or the exception, the device afterwards, the requests sent. */
  datatype Step = Step(result: Result<Json, Error>, state: State, sent: seq<Request>)

  /** No request: the device is untouched. */
  function Local(s: State, result: Result<Json, Error>): Step
  {
    Step(result, s, [])
  }

  /** `execute_request`: one request, its reply through `fetch_data`. */
  function Send(endpoint: string, nocache: int, s: State, req: Request): (st: Step)
    ensures st.sent == [req] && st.state == Apply(s, req)
    ensures !s.online ==> st.result == Err(ConnectionError(Url(endpoint, QueryOf(req, nocache))))
  {
    Step(Fetch(Url(endpoint, QueryOf(req, nocache)), Respond(s, req)), Apply(s, req), [req])
  }

  /** `get_value`: the typed field `value.tag` of the answer, None when the
      answer is None or lacks it. */
  function GetValueSpec(endpoint: string, nocache: int, s: State, path: string, tag: string): (st: Step)
    ensures st.sent == [ReadRequest(path)] && st.state == s
    ensures !s.online <==> st.result.Err?
  {
    var st := Send(endpoint, nocache, s, ReadRequest(path));
    match st.result
    case Err(e) => st
    case Ok(v) => Step(Ok(if v == JNull then JNull else Extract(v, ["value", tag])), st.state, st.sent)
  }

  /** `set_value`: returns None once the request went through. */
  function SetValueSpec(endpoint: string, nocache: int, s: State, path: string, tag: string, v: Json): (st: Step)
    ensures st.sent == [WriteRequest(path, tag, v)]
    ensures s.online <==> st.result == Ok(JNull)
    ensures !s.online ==> st.state == s
  {
    var st := Send(endpoint, nocache, s, WriteRequest(path, tag, v));
    if st.result.Err? then st else Step(Ok(JNull), st.state, st.sent)
  }

  /** A command whose answer is discarded. */
  function CommandSpec(endpoint: string, nocache: int, s: State, path: string, payload: Json): (st: Step)
    ensures st.sent == [ActivateRequest(path, payload)] && st.state == s
    ensures s.online <==> st.result == Ok(JNull)
  {
    var st := Send(endpoint, nocache, s, ActivateRequest(path, payload));
    if st.result.Err? then st else Step(Ok(JNull), st.state, st.sent)
  }

  /** A getter that reads a dict-valued field and then one key of it:
      `v = get_value(path, tag); return v[key] if v else None`. */
  function FieldOfValue(endpoint: string, nocache: int, s: State, path: string, tag: string, key: string): (st: Step)
    ensures st.sent == [ReadRequest(path)] && st.state == s
    ensures st.result.Err? && s.online ==> st.result.error == TypeError || st.result.error.KeyError?
  {
    var st := GetValueSpec(endpoint, nocache, s, path, tag);
    match st.result
    case Err(e) => st
    case Ok(v) => Step(if Truthy(v) then Index(v, key) else Ok(JNull), st.state, st.sent)
  }

  /** The Max's shared brightness record. */
  const SensorPath := "settings:/espresso/brightnessSensor"
  const SensorTag := "espressoBrightness"

  /** The other field of the brightness record. */
  function OtherField(field: string): string
  {
    if field == "display" then "ambeologo" else "display"
  }

  /** `get_display_brightness` (field "display") and `get_logo_brightness`
      (field "ambeologo") of the Max client. */
  function BrightnessGetSpec(endpoint: string, nocache: int, s: State, field: string): (st: Step)
    ensures st.sent == [ReadRequest(SensorPath)] && st.state == s
  {
    FieldOfValue(endpoint, nocache, s, SensorPath, SensorTag, field)
  }

  /** The matching setters: read the other field, then write both. */
  function BrightnessSetSpec(endpoint: string, nocache: int, s: State, field: string, v: Json): (st: Step)
    ensures 1 <= |st.sent| <= 2 && st.sent[0] == ReadRequest(SensorPath)
    ensures |st.sent| == 2 ==> st.sent[1].func == "setData" && st.sent[1].path == SensorPath
    ensures !s.online ==> st.sent == [ReadRequest(SensorPath)] && st.state == s && st.result.Err?
  {
    var other := OtherField(field);
    var rd := BrightnessGetSpec(endpoint, nocache, s, other);
    match rd.result
    case Err(e) => rd
    case Ok(kept) =>
      var wr := SetValueSpec(endpoint, nocache, rd.state, SensorPath, SensorTag, JObj(map[field := v, other := kept]));
      Step(wr.result, wr.state, rd.sent + wr.sent)
  }

  function BrightnessField(f: Feature): string
  {
    if f == DisplayBrightness then "display" else "ambeologo"
  }

  /** The getter of a registry feature on a client of `family`. */
  function GetSpec(family: Family, f: Feature, endpoint: string, nocache: int, s: State): (st: Step)
    ensures st.state == s
    ensures st.sent == [] <==> ReadAccess(family, f).Missing? || ReadAccess(family, f).Stub?
    ensures ReadAccess(family, f).Missing? ==> st.result == Err(AttributeError)
    ensures !s.online && st.sent != [] ==> st.result.Err? && st.result.error.ConnectionError?
  {
    match ReadAccess(family, f)
    case Missing => Local(s, Err(AttributeError))
    case Stub => Local(s, Ok(JNull))
    case At(slot) => GetValueSpec(endpoint, nocache, s, slot.path, slot.tag)
    case Custom => BrightnessGetSpec(endpoint, nocache, s, BrightnessField(f))
  }

  /** The setter of a registry feature on a client of `family`. */
  function SetSpec(family: Family, f: Feature, v: Json, endpoint: string, nocache: int, s: State): (st: Step)
    ensures st.sent == [] <==> WriteAccess(family, f).Missing? || WriteAccess(family, f).Stub?
    ensures st.sent == [] ==> st.state == s
    ensures !s.online ==> st.state == s
    ensures WriteAccess(family, f).Missing? ==> st.result == Err(AttributeError)
  {
    match WriteAccess(family, f)
    case Missing => Local(s, Err(AttributeError))
    case Stub => Local(s, Ok(JNull))
    case At(slot) => SetValueSpec(endpoint, nocache, s, slot.path, slot.tag, v)
    case Custom => BrightnessSetSpec(endpoint, nocache, s, BrightnessField(f), v)
  }

  /** A plain write reaches the store, and the next read of that slot
      returns the written value. */
  lemma WriteThenRead(e: string, c: int, c': int, s: State, path: string, tag: string, v: Json)
    requires s.online && tag != "type"
    ensures GetValueSpec(e, c', SetValueSpec(e, c, s, path, tag, v).state, path, tag).result == Ok(v)
  {
    var t := SetValueSpec(e, c, s, path, tag, v).state;
    EnvelopeOpens(tag, v);
    assert path in t.store && t.store[path].JObj?;
  }

  /** Setting a feature and reading it back on a reachable device yields the
      value written, for every family and every feature with a setter. */
  lemma SetThenGet(family: Family, f: Feature, v: Json, e: string, c: int, c': int, s: State)
    requires s.online && WriteAccess(family, f).At?
    ensures GetSpec(family, f, e, c', SetSpec(family, f, v, e, c, s).state).result == Ok(v)
  {
    WritableIsReadable(family, f);
    var slot := WriteAccess(family, f).slot;
    assert slot.tag != "type" by { SlotTags(family, f); }
    WriteThenRead(e, c, c', s, slot.path, slot.tag, v);
  }

  /** Every slot's tag is one of the typed tags, never the key "type". */
  lemma SlotTags(family: Family, f: Feature)
    requires WriteAccess(family, f).At?
    ensures WriteAccess(family, f).slot.tag in {"i32_", "i16_", "bool_", "string_", "popcornAudioPreset"}
  {
  }

  /** The Max's brightness setters write the field asked for and keep the
      other one: after a successful set, the field reads back as written and
      the other field reads as it did before. */
  lemma BrightnessRoundTrip(e: string, c: int, c': int, s: State, field: string, v: Json)
    requires field == "display" || field == "ambeologo"
    requires BrightnessSetSpec(e, c, s, field, v).result.Ok?
    ensures BrightnessGetSpec(e, c', BrightnessSetSpec(e, c, s, field, v).state, field).result == Ok(v)
    ensures BrightnessGetSpec(e, c', BrightnessSetSpec(e, c, s, field, v).state, OtherField(field)).result
         == BrightnessGetSpec(e, c, s, OtherField(field)).result
  {
    var other := OtherField(field);
    var rd := BrightnessGetSpec(e, c, s, other);
    var kept := rd.result.value;
    var record := JObj(map[field := v, other := kept]);
    assert rd.state == s;
    WriteThenRead(e, c, c', s, SensorPath, SensorTag, record);
    var t := SetValueSpec(e, c, s, SensorPath, SensorTag, record).state;
    assert Truthy(record) by { assert field in record.fields; }
  }

  /** Setting one feature leaves the reading of every feature kept at
      another path as it was. */
  lemma SetLeavesOthers(family: Family, f: Feature, g: Feature, v: Json, e: string, c: int, c': int, s: State)
    requires WriteAccess(family, f).At? && ReadAccess(family, g).At?
    requires WriteAccess(family, f).slot.path != ReadAccess(family, g).slot.path
    ensures GetSpec(family, g, e, c', SetSpec(family, f, v, e, c, s).state).result
         == GetSpec(family, g, e, c', s).result
  {
    var w := WriteAccess(family, f).slot;
    var rd := ReadAccess(family, g).slot;
    var t := SetValueSpec(e, c, s, w.path, w.tag, v).state;
    assert SetSpec(family, f, v, e, c, s).state == t;
    ReadElsewhere(e, c', s, t, rd.path, rd.tag);
  }

  /** A read sees only the online flag and its own path. */
  lemma ReadElsewhere(e: string, c: int, s: State, t: State, path: string, tag: string)
    requires t.online == s.online && (path in t.store <==> path in s.store)
    requires path in s.store ==> t.store[path] == s.store[path]
    ensures GetValueSpec(e, c, t, path, tag).result == GetValueSpec(e, c, s, path, tag).result
  {
    assert Respond(t, ReadRequest(path)) == Respond(s, ReadRequest(path));
  }

  /** `play` and `pause` both press the multi-purpose button. */
  const ButtonPath := "popcorn:multiPurposeButtonActivate"
  const ControlPath := "player:player/control"

  function ControlPayload(command: string): Json
  {
    JObj(map["control" := JStr(command)])
  }

  /** `player_data`: the play-logic record of the player, None when the
      answer is falsy. */
  function PlayerDataSpec(e: string, c: int, s: State): (st: Step)
    ensures st.sent == [ReadRequest("player:player/data/value")] && st.state == s
    ensures !s.online <==> st.result.Err?
  {
    var st := Send(e, c, s, ReadRequest("player:player/data/value"));
    match st.result
    case Err(_) => st
    case Ok(data) => Step(Ok(if Truthy(data) then Extract(data, ["value", "playLogicData"]) else JNull), st.state, st.sent)
  }

  /** `get_state`: the power target's `target` key. */
  function PowerStateSpec(e: string, c: int, s: State): (st: Step)
    ensures st.sent == [ReadRequest("powermanager:target")] && st.state == s
  {
    FieldOfValue(e, c, s, "powermanager:target", "powerTarget", "target")
  }

  /** `stand_by` (`online == false`) and `wake`: only the Max writes its
      request flag; the others keep the base's `pass`. */
  function PowerRequestSpec(family: Family, online: bool, e: string, c: int, s: State): (st: Step)
    ensures family != Espresso ==> st == Local(s, Ok(JNull))
    ensures family == Espresso ==>
      |st.sent| == 1 && st.sent[0].func == "setData"
      && st.sent[0].path == (if online then "espresso:appRequestedOnline" else "espresso:appRequestedStandby")
  {
    if family == Espresso
    then SetValueSpec(e, c, s, if online then "espresso:appRequestedOnline" else "espresso:appRequestedStandby", "bool_", JBool(true))
    else Local(s, Ok(JNull))
  }

  /** Bluetooth pairing on the Plus/Mini clients. */
  predicate HasBluetoothMethods(family: Family)
  {
    family == Popcorn || family == Plus
  }

  function BluetoothGetSpec(family: Family, e: string, c: int, s: State): (st: Step)
    ensures st.state == s
    ensures st.sent != [] <==> HasBluetoothMethods(family)
    ensures !HasBluetoothMethods(family) ==> st.result == Ok(JNull)
  {
    if HasBluetoothMethods(family) then FieldOfValue(e, c, s, "bluetooth:state", "bluetoothState", "pairable")
    else Local(s, Ok(JNull))
  }

  function BluetoothSetSpec(family: Family, state: Json, e: string, c: int, s: State): (st: Step)
    ensures st.state == s
    ensures st.sent != [] <==> HasBluetoothMethods(family)
    ensures !HasBluetoothMethods(family) ==> st.result == Ok(JNull)
  {
    if HasBluetoothMethods(family)
    then CommandSpec(e, c, s, "bluetooth:deviceList/discoverable", Envelope("bool_", state))
    else Local(s, Ok(JNull))
  }

  /** `reset_expert_settings` exists on the Max client only. */
  function ResetSpec(family: Family, e: string, c: int, s: State): (st: Step)
    ensures st.state == s
    ensures family != Espresso ==> st.sent == [] && st.result == Err(AttributeError)
    ensures family == Espresso ==> |st.sent| == 1 && (s.online <==> st.result == Ok(JNull))
  {
    if family == Espresso then CommandSpec(e, c, s, "ui:/settings/audio/resetExpertSettings", BoolTrue)
    else Local(s, Err(AttributeError))
  }

  /** `set_source`: the Max writes the input id; the Plus/Mini activate the
      input's own path, named by `str(source_id)`. */
  function SetSourceSpec(family: Family, id: Json, e: string, c: int, s: State): (st: Step)
    ensures family == Generic ==> st == Local(s, Ok(JNull))
    ensures family == Espresso ==> st.sent == [WriteRequest("espresso:audioInputID", "i32_", id)]
    ensures family == Popcorn || family == Plus ==>
      st.state == s && |st.sent| == 1 && st.sent[0].path == "ui:/inputs/" + PyStr(id)
  {
    match family
    case Generic => Local(s, Ok(JNull))
    case Espresso => SetValueSpec(e, c, s, "espresso:audioInputID", "i32_", id)
    case _ => CommandSpec(e, c, s, "ui:/inputs/" + PyStr(id), BoolTrue)
  }

  const InputNamesPath := "settings:/espresso/inputNames"
  const InputsPath := "espresso:"

  /** `get_all_sources` of each client. */
  function AllSourcesSpec(family: Family, e: string, c: int, s: State): (st: Step)
    ensures st.state == s
    ensures |st.sent| == (match family case Generic => 0 case Espresso => if s.online then 2 else 1 case _ => 1)
    ensures family == Espresso && st.result.Ok? && st.result.value != JNull ==> st.result.value.JArr?
  {
    match family
    case Generic => Local(s, Ok(JNull))
    case Espresso =>
      var names := Send(e, c, s, RowsRequest(InputNamesPath, 20));
      if names.result.Err? then names
      else
        var inputs := Send(e, c, names.state, RowsRequest(InputsPath, 20));
        var sent := names.sent + inputs.sent;
        if inputs.result.Err? then Step(inputs.result, inputs.state, sent)
        else if names.result.value != JNull && inputs.result.value != JNull
        then Step(EspressoSources(names.result.value, inputs.result.value), inputs.state, sent)
        else Step(Ok(JNull), inputs.state, sent)
    case _ =>
      var st := Send(e, c, s, RowsRequest("ui:/inputs", 10));
      match st.result
      case Err(_) => st
      case Ok(data) =>
        if !Truthy(data) then Step(Ok(JNull), st.state, st.sent)
        else if family == Popcorn then Step(WithAdditionalInputs(Extract(data, ["rows"])), st.state, st.sent)
        else Step(Ok(Extract(data, ["rows"])), st.state, st.sent)
  }

  /** `get_all_presets` of each client. */
  function AllPresetsSpec(family: Family, e: string, c: int, s: State): (st: Step)
    ensures st.state == s
    ensures |st.sent| == (if family == Popcorn || family == Plus then 1 else 0)
    ensures st.result.Ok? && st.result.value != JNull ==> st.result.value.JArr?
  {
    match family
    case Generic => Local(s, Ok(JNull))
    case Espresso => Local(s, Ok(JArr(FixedPresets)))
    case _ =>
      var st := Send(e, c, s, RowsRequest("settings:/popcorn/audio/audioPresetValues", 10));
      match st.result
      case Err(_) => st
      case Ok(data) => Step(if Truthy(data) then PopcornPresets(data) else Ok(JNull), st.state, st.sent)
  }

  /** Listing sources and presets never changes the device. */
  lemma ListingsReadOnly(family: Family, e: string, c: int, s: State)
    ensures AllSourcesSpec(family, e, c, s).state == s
    ensures AllPresetsSpec(family, e, c, s).state == s
    ensures |AllSourcesSpec(family, e, c, s).sent| <= 2 && |AllPresetsSpec(family, e, c, s).sent| <= 1
  {
  }

  /** The Plus/Mini source list is the device's rows followed by the two
      streaming inputs; the older Plus client returns the rows alone. */
  lemma PopcornSourcesExtend(e: string, c: int, s: State)
    requires AllSourcesSpec(Popcorn, e, c, s).result.Ok?
    requires AllSourcesSpec(Popcorn, e, c, s).result.value != JNull
    ensures AllSourcesSpec(Plus, e, c, s).result.Ok? && AllSourcesSpec(Plus, e, c, s).result.value.JArr?
    ensures AllSourcesSpec(Popcorn, e, c, s).result.value.items
         == AllSourcesSpec(Plus, e, c, s).result.value.items + AdditionalInputs
  {
  }

  /** The Max ships its presets without asking the device. */
  lemma EspressoPresetsLocal(e: string, c: int, s: State)
    ensures AllPresetsSpec(Espresso, e, c, s).sent == []
    ensures AllPresetsSpec(Espresso, e, c, s).result == Ok(JArr(FixedPresets))
  {
  }

  const SubwooferLevelPath := "ui:/settings/audio/subWooferLevel"
  const SubwooferListPath := "settings:/popcorn/subwoofer/list"

  /** The outcome of `has_subwoofer`, with the client's cached answer after it. */
  datatype Probe = Probe(step: Step, memo: Option<bool>)

  function MemoValue(memo: Option<bool>): Json
  {
    if memo.Some? then JBool(memo.value) else JNull
  }

  /** `data.get("disabled") is False` on the level control's answer. */
  function LevelEnabled(data: Json): (r: Result<bool, Error>)
    ensures !data.JObj? ==> r == Err(AttributeError)
    ensures data.JObj? ==> r == Ok("disabled" in data.fields && data.fields["disabled"] == JBool(false))
  {
    match GetOr(data, "disabled", JNull)
    case Err(e) => Err(e)
    case Ok(d) => Ok(d == JBool(false))
  }

  /** The Max's reading of the level control: no answer means no
      subwoofer; otherwise present exactly when `disabled` is False. */
  function LevelProbe(e: string, c: int, s: State): (st: Step)
    ensures st.sent == [ReadRequest(SubwooferLevelPath)] && st.state == s
    ensures st.result.Ok? ==> st.result.value.JBool?
  {
    var st := Send(e, c, s, ReadRequest(SubwooferLevelPath));
    match st.result
    case Err(_) => st
    case Ok(data) =>
      if data == JNull then Step(Ok(JBool(false)), st.state, st.sent)
      else match LevelEnabled(data)
        case Err(err) => Step(Err(err), st.state, st.sent)
        case Ok(b) => Step(Ok(JBool(b)), st.state, st.sent)
  }

  /** The Plus/Mini reading of the subwoofer list: present when non-empty,
      None when the device does not answer. */
  function ListProbe(e: string, c: int, s: State): (st: Step)
    ensures st.sent == [ReadRequest(SubwooferListPath)] && st.state == s
    ensures st.result.Ok? ==> st.result.value.JBool? || st.result.value == JNull
  {
    var st := GetValueSpec(e, c, s, SubwooferListPath, "popcornSubwooferList");
    match st.result
    case Err(_) => st
    case Ok(list) =>
      if list == JNull then Step(Ok(JNull), st.state, st.sent)
      else match Len(list)
        case Err(err) => Step(Err(err), st.state, st.sent)
        case Ok(n) => Step(Ok(JBool(n > 0)), st.state, st.sent)
  }

  /** The cache after a probe: a boolean answer is kept, anything else is not. */
  function Cached(st: Step, memo: Option<bool>): Option<bool>
  {
    if st.result.Ok? && st.result.value.JBool? then Some(st.result.value.b) else memo
  }

  /** `has_subwoofer`: a cached answer is returned without a request. The
      Max caches False when the device answers None; the Plus/Mini cache
      nothing then. */
  function HasSubwooferSpec(family: Family, memo: Option<bool>, e: string, c: int, s: State): (p: Probe)
    ensures memo.Some? ==> p.memo == memo
  {
    if family != Espresso && family != Popcorn then Probe(Local(s, Ok(JNull)), memo)
    else if memo.Some? then Probe(Local(s, Ok(MemoValue(memo))), memo)
    else
      var st := if family == Espresso then LevelProbe(e, c, s) else ListProbe(e, c, s);
      Probe(st, Cached(st, memo))
  }

  /** Once an answer is cached, every later probe returns it and sends nothing. */
  lemma HasSubwooferMemo(family: Family, memo: Option<bool>, e: string, c: int, c': int, s: State, s': State)
    requires family == Espresso || family == Popcorn
    ensures var p := HasSubwooferSpec(family, memo, e, c, s);
      p.memo.Some? ==>
        var q := HasSubwooferSpec(family, p.memo, e, c', s');
        q.step.sent == [] && q.memo == p.memo && q.step.result == Ok(JBool(p.memo.value))
    ensures var p := HasSubwooferSpec(family, memo, e, c, s);
      p.memo.Some? && p.step.result.Ok? ==> p.step.result == Ok(JBool(p.memo.value))
  {
  }

  /** On a device without the probed path the two clients part ways: the
      Max caches False for good, the Plus/Mini answer None and probe again
      on the next call. */
  lemma MemoAsymmetry(e: string, c: int, s: State)
    requires s.online && SubwooferLevelPath !in s.store && SubwooferListPath !in s.store
    ensures HasSubwooferSpec(Espresso, None, e, c, s) == Probe(Step(Ok(JBool(false)), s, [ReadRequest(SubwooferLevelPath)]), Some(false))
    ensures HasSubwooferSpec(Popcorn, None, e, c, s).memo == None
    ensures HasSubwooferSpec(Popcorn, None, e, c, s).step.result == Ok(JNull)
  {
  }

  /** `get_subwoofer_status`. */
  function SubwooferStatusSpec(family: Family, e: string, c: int, s: State): (st: Step)
    ensures st.state == s
    ensures st.sent != [] <==> family == Espresso || family == Popcorn
  {
    match family
    case Espresso => LevelProbe(e, c, s)
    case Popcorn => GetValueSpec(e, c, s, "ui:/settings/subwoofer/enabled", "bool_")
    case _ => Local(s, Ok(JNull))
  }

  /** On the Max, status and presence are the same test of the same answer. */
  lemma StatusAgreesWithProbe(e: string, c: int, s: State)
    ensures HasSubwooferSpec(Espresso, None, e, c, s).step == SubwooferStatusSpec(Espresso, e, c, s)
  {
  }

  /** `set_subwoofer_status(status)`: a no-op on the Max; the base method
      takes no argument, so the call raises TypeError there. */
  function SetSubwooferStatusSpec(family: Family, status: Json, e: string, c: int, s: State): (st: Step)
    ensures st.sent != [] <==> family == Popcorn
    ensures family == Espresso ==> st == Local(s, Ok(JNull))
    ensures family == Generic || family == Plus ==> st == Local(s, Err(TypeError))
  {
    match family
    case Espresso => Local(s, Ok(JNull))
    case Popcorn => SetValueSpec(e, c, s, "ui:/settings/subwoofer/enabled", "bool_", status)
    case _ => Local(s, Err(TypeError))
  }

  /** `get_subwoofer_volume`. */
  function SubwooferVolumeSpec(family: Family, e: string, c: int, s: State): (st: Step)
    ensures st.state == s
    ensures st.sent != [] <==> family == Espresso || family == Popcorn
  {
    match family
    case Espresso => GetValueSpec(e, c, s, SubwooferLevelPath, "i16_")
    case Popcorn => GetValueSpec(e, c, s, "ui:/settings/subwoofer/volume", "double_")
    case _ => Local(s, Ok(JNull))
  }

  /** Python's `int(x)` on a float: truncation toward zero. */
  function Truncate(x: real): (n: int)
    ensures x >= 0.0 ==> 0.0 <= n as real <= x < n as real + 1.0
    ensures x < 0.0 ==> n as real - 1.0 < x <= n as real <= 0.0
  {
    if x >= 0.0 then x.Floor else -((-x).Floor)
  }

  /** `set_subwoofer_volume(volume)` with the float the number entity passes:
      the Max sends `int(volume)`, the Plus/Mini the float itself. */
  function SetSubwooferVolumeSpec(family: Family, volume: real, e: string, c: int, s: State): (st: Step)
    ensures family == Espresso ==> st.sent == [WriteRequest(SubwooferLevelPath, "i16_", JInt(Truncate(volume)))]
    ensures family == Popcorn ==> st.sent == [WriteRequest("ui:/settings/subwoofer/volume", "double_", JReal(volume))]
    ensures family == Generic || family == Plus ==> st == Local(s, Err(TypeError))
  {
    match family
    case Espresso => SetValueSpec(e, c, s, SubwooferLevelPath, "i16_", JInt(Truncate(volume)))
    case Popcorn => SetValueSpec(e, c, s, "ui:/settings/subwoofer/volume", "double_", JReal(volume))
    case _ => Local(s, Err(TypeError))
  }

  /** A volume set on the Max reads back truncated toward zero; on the
      Plus/Mini it reads back exactly. */
  lemma SubwooferVolumeRoundTrip(volume: real, e: string, c: int, c': int, s: State)
    requires s.online
    ensures SubwooferVolumeSpec(Espresso, e, c', SetSubwooferVolumeSpec(Espresso, volume, e, c, s).state).result
         == Ok(JInt(Truncate(volume)))
    ensures SubwooferVolumeSpec(Popcorn, e, c', SetSubwooferVolumeSpec(Popcorn, volume, e, c, s).state).result
         == Ok(JReal(volume))
  {
    WriteThenRead(e, c, c', s, SubwooferLevelPath, "i16_", JInt(Truncate(volume)));
    WriteThenRead(e, c, c', s, "ui:/settings/subwoofer/volume", "double_", JReal(volume));
  }

  /** The Max's subwoofer level range; the other clients have no such method. */
  function SubwooferRange(family: Family): (r: Result<(int, int), Error>)
    ensures r.Ok? <==> family == Espresso
    ensures r.Ok? ==> r.value.0 == -r.value.1 && r.value.0 < 0
  {
    if family == Espresso then Ok((-12, 12)) else Err(AttributeError)
  }

  /** The four capability tags that govern no getter/setter pair stand for
      operations of their own: a client declares the tag exactly when that
      operation reaches the device. Standby stands for `stand_by`/`wake`. */
  lemma StandbyTagOperations(family: Family, online: bool, e: string, c: int, s: State)
    ensures Governs(Standby) == []
    ensures HasCapability(family, Standby) <==> PowerRequestSpec(family, online, e, c, s).sent != []
  {
  }

  /** The subwoofer tag stands for the subwoofer status and volume getters. */
  lemma SubwooferTagOperations(family: Family, e: string, c: int, s: State)
    ensures Governs(Capability.Subwoofer) == []
    ensures HasCapability(family, Capability.Subwoofer) <==> SubwooferStatusSpec(family, e, c, s).sent != []
    ensures HasCapability(family, Capability.Subwoofer) <==> SubwooferVolumeSpec(family, e, c, s).sent != []
  {
  }

  /** The Bluetooth pairing tag stands for both pairing-state methods. */
  lemma BluetoothTagOperations(family: Family, e: string, c: int, s: State)
    ensures Governs(BluetoothPairing) == []
    ensures HasCapability(family, BluetoothPairing) <==> BluetoothGetSpec(family, e, c, s).sent != []
    ensures HasCapability(family, BluetoothPairing) <==> BluetoothSetSpec(family, JBool(true), e, c, s).sent != []
  {
  }

  /** The reset tag stands for `reset_expert_settings`. */
  lemma ResetTagOperations(family: Family, e: string, c: int, s: State)
    ensures Governs(Capability.ResetExpertSettings) == []
    ensures HasCapability(family, Capability.ResetExpertSettings) <==> ResetSpec(family, e, c, s).sent != []
  {
  }

  /** `get_volume_step`. The constant the Plus client returns is not among
      the constants this model knows, so that client is given no step. */
  function VolumeStep(family: Family): (r: Option<real>)
    ensures r.Some? ==> 0.0 < r.value <= 0.02
    ensures r.None? <==> family == Plus
  {
    match family
    case Generic => Some(0.01)
    case Popcorn => Some(0.01)
    case Espresso => Some(0.02)
    case Plus => None
  }
}
