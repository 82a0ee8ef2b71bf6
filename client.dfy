/** The device client: one class for the base client and its three
    model-specific subclasses, told apart by `family`. Every method sends
    its requests through `ExecuteRequest` to the device object and is
    proved against the matching function of `ApiSpec`. */
module Client {
  import opened Wrappers
  import opened JsonValue
  import opened Wire
  import opened PyAccess
  import opened Device
  import opened Capabilities
  import opened Registry
  import opened Sources
  import opened ApiSpec

  class AmbeoApi {
    /** Which client class this object is. */
    const family: Family
    const port: nat
    /** The soundbar at the other end of the HTTP session. */
    const device: Soundbar
    /** The millisecond clock behind the `_nocache` parameter, frozen. */
    const clock: int
    var ip: string
    var endpoint: string
    /** The per-instance `_has_subwoofer` cache of the Max and Plus/Mini
        clients (declared on the class, assigned on the instance). */
    var subwooferMemo: Option<bool>
    /** The requests sent so far, oldest first. */
    ghost var sent: seq<Request>

    /** The call returned `r`, left the device in `st.state`, and sent
        exactly `st.sent`. */
    twostate predicate Performed(new st: Step, new r: Result<Json, Error>)
      reads this, device
    {
      r == st.result && device.Current() == st.state && sent == old(sent) + st.sent
    }

    constructor (family: Family, ip: string, port: nat, device: Soundbar, clock: int)
      ensures this.family == family && this.port == port && this.device == device && this.clock == clock
      ensures this.ip == ip && endpoint == EndpointFor(ip, port)
      ensures subwooferMemo == None && sent == []
    {
      this.family := family;
      this.port := port;
      this.device := device;
      this.clock := clock;
      subwooferMemo := None;
      sent := [];
      this.ip := ip;
      endpoint := EndpointFor(ip, port);
    }

    /** `set_endpoint`: the new host replaces the old one in the endpoint. */
    method SetEndpoint(host: string)
      modifies this`ip, this`endpoint
      ensures ip == host && endpoint == EndpointFor(host, port)
      ensures HostOf(endpoint, port) == host
    {
      ip := host;
      endpoint := "http://" + host + ":" + NatToString(port) + "/api";
      EndpointHost(host, port);
    }

    /** `execute_request` followed by `fetch_data`: the query is built
        parameter by parameter, it encodes exactly this request, and the
        device's reply is turned into a value or a connection error. */
    method ExecuteRequest(req: Request) returns (r: Result<Json, Error>)
      modifies this`sent, device
      ensures Performed(Send(endpoint, clock, old(device.Current()), req), r)
    {
      var q := BuildQuery(req, clock);
      EncodesUnique(q, req, clock);
      var reply := device.Handle(req);
      r := Fetch(Url(endpoint, q), reply);
      sent := sent + [req];
    }

    /** `get_value`: the role argument is accepted and ignored. */
    method GetValue(path: string, tag: string, role: string) returns (r: Result<Json, Error>)
      modifies this`sent, device
      ensures Performed(GetValueSpec(endpoint, clock, old(device.Current()), path, tag), r)
    {
      var value := ExecuteRequest(ReadRequest(path));
      if value.Err? {
        return value;
      }
      if value.value != JNull {
        var x := ExtractData(value.value, ["value", tag]);
        r := Ok(x);
      } else {
        r := Ok(JNull);
      }
    }

    /** `set_value`. */
    method SetValue(path: string, tag: string, v: Json) returns (r: Result<Json, Error>)
      modifies this`sent, device
      ensures Performed(SetValueSpec(endpoint, clock, old(device.Current()), path, tag, v), r)
    {
      r := ExecuteRequest(WriteRequest(path, tag, v));
      if r.Ok? {
        r := Ok(JNull);
      }
    }

    /** A command request whose answer is dropped. */
    method Command(path: string, payload: Json) returns (r: Result<Json, Error>)
      modifies this`sent, device
      ensures Performed(CommandSpec(endpoint, clock, old(device.Current()), path, payload), r)
    {
      r := ExecuteRequest(ActivateRequest(path, payload));
      if r.Ok? {
        r := Ok(JNull);
      }
    }

    /** A dict-valued field read, then one of its keys when it is truthy. */
    method FieldOf(path: string, tag: string, key: string) returns (r: Result<Json, Error>)
      modifies this`sent, device
      ensures Performed(FieldOfValue(endpoint, clock, old(device.Current()), path, tag, key), r)
    {
      var v := GetValue(path, tag, "@all");
      if v.Ok? {
        r := if Truthy(v.value) then Index(v.value, key) else Ok(JNull);
      } else {
        r := v;
      }
    }

    /** The getter of a registry feature (`get_volume`, `is_mute`,
        `get_night_mode`, ..., `get_display_brightness`). */
    method Get(f: Feature) returns (r: Result<Json, Error>)
      modifies this`sent, device
      ensures Performed(GetSpec(family, f, endpoint, clock, old(device.Current())), r)
    {
      match ReadAccess(family, f)
      case Missing => r := Err(AttributeError);
      case Stub => r := Ok(JNull);
      case At(slot) => r := GetValue(slot.path, slot.tag, "@all");
      case Custom => r := FieldOf(SensorPath, SensorTag, BrightnessField(f));
    }

    /** The setter of a registry feature (`set_volume`, `set_mute`, ...,
        `set_display_brightness`). */
    method Set(f: Feature, v: Json) returns (r: Result<Json, Error>)
      modifies this`sent, device
      ensures Performed(SetSpec(family, f, v, endpoint, clock, old(device.Current())), r)
    {
      match WriteAccess(family, f)
      case Missing => r := Err(AttributeError);
      case Stub => r := Ok(JNull);
      case At(slot) => r := SetValue(slot.path, slot.tag, v);
      case Custom => r := SetBrightness(BrightnessField(f), v);
    }

    /** The Max's brightness setters: read the other field, write both. */
    method SetBrightness(field: string, v: Json) returns (r: Result<Json, Error>)
      modifies this`sent, device
      ensures Performed(BrightnessSetSpec(endpoint, clock, old(device.Current()), field, v), r)
    {
      var other := OtherField(field);
      var kept := FieldOf(SensorPath, SensorTag, other);
      if kept.Err? {
        return kept;
      }
      r := SetValue(SensorPath, SensorTag, JObj(map[field := v, other := kept.value]));
    }

    method Play() returns (r: Result<Json, Error>)
      modifies this`sent, device
      ensures Performed(CommandSpec(endpoint, clock, old(device.Current()), ButtonPath, BoolTrue), r)
    {
      r := Command(ButtonPath, BoolTrue);
    }

    method Pause() returns (r: Result<Json, Error>)
      modifies this`sent, device
      ensures Performed(CommandSpec(endpoint, clock, old(device.Current()), ButtonPath, BoolTrue), r)
    {
      r := Command(ButtonPath, BoolTrue);
    }

    method Next() returns (r: Result<Json, Error>)
      modifies this`sent, device
      ensures Performed(CommandSpec(endpoint, clock, old(device.Current()), ControlPath, ControlPayload("next")), r)
    {
      r := Command(ControlPath, ControlPayload("next"));
    }

    method Previous() returns (r: Result<Json, Error>)
      modifies this`sent, device
      ensures Performed(CommandSpec(endpoint, clock, old(device.Current()), ControlPath, ControlPayload("previous")), r)
    {
      r := Command(ControlPath, ControlPayload("previous"));
    }

    method Reboot() returns (r: Result<Json, Error>)
      modifies this`sent, device
      ensures Performed(CommandSpec(endpoint, clock, old(device.Current()), "ui:/settings/system/restart", BoolTrue), r)
    {
      r := Command("ui:/settings/system/restart", BoolTrue);
    }

    method PlayerData() returns (r: Result<Json, Error>)
      modifies this`sent, device
      ensures Performed(PlayerDataSpec(endpoint, clock, old(device.Current())), r)
    {
      var data := ExecuteRequest(ReadRequest("player:player/data/value"));
      if data.Err? {
        return data;
      }
      if Truthy(data.value) {
        var x := ExtractData(data.value, ["value", "playLogicData"]);
        r := Ok(x);
      } else {
        r := Ok(JNull);
      }
    }

    method GetState() returns (r: Result<Json, Error>)
      modifies this`sent, device
      ensures Performed(PowerStateSpec(endpoint, clock, old(device.Current())), r)
    {
      r := FieldOf("powermanager:target", "powerTarget", "target");
    }

    method StandBy() returns (r: Result<Json, Error>)
      modifies this`sent, device
      ensures Performed(PowerRequestSpec(family, false, endpoint, clock, old(device.Current())), r)
    {
      if family == Espresso {
        r := SetValue("espresso:appRequestedStandby", "bool_", JBool(true));
      } else {
        r := Ok(JNull);
      }
    }

    method Wake() returns (r: Result<Json, Error>)
      modifies this`sent, device
      ensures Performed(PowerRequestSpec(family, true, endpoint, clock, old(device.Current())), r)
    {
      if family == Espresso {
        r := SetValue("espresso:appRequestedOnline", "bool_", JBool(true));
      } else {
        r := Ok(JNull);
      }
    }

    method GetBluetoothPairingState() returns (r: Result<Json, Error>)
      modifies this`sent, device
      ensures Performed(BluetoothGetSpec(family, endpoint, clock, old(device.Current())), r)
    {
      if HasBluetoothMethods(family) {
        r := FieldOf("bluetooth:state", "bluetoothState", "pairable");
      } else {
        r := Ok(JNull);
      }
    }

    method SetBluetoothPairingState(state: Json) returns (r: Result<Json, Error>)
      modifies this`sent, device
      ensures Performed(BluetoothSetSpec(family, state, endpoint, clock, old(device.Current())), r)
    {
      if HasBluetoothMethods(family) {
        r := Command("bluetooth:deviceList/discoverable", Envelope("bool_", state));
      } else {
        r := Ok(JNull);
      }
    }

    method ResetExpertSettings() returns (r: Result<Json, Error>)
      modifies this`sent, device
      ensures Performed(ResetSpec(family, endpoint, clock, old(device.Current())), r)
    {
      if family == Espresso {
        r := Command("ui:/settings/audio/resetExpertSettings", BoolTrue);
      } else {
        r := Err(AttributeError);
      }
    }

    method SetSource(id: Json) returns (r: Result<Json, Error>)
      modifies this`sent, device
      ensures Performed(SetSourceSpec(family, id, endpoint, clock, old(device.Current())), r)
    {
      match family
      case Generic => r := Ok(JNull);
      case Espresso => r := SetValue("espresso:audioInputID", "i32_", id);
      case Popcorn => r := Command("ui:/inputs/" + PyStr(id), BoolTrue);
      case Plus => r := Command("ui:/inputs/" + PyStr(id), BoolTrue);
    }

    method GetAllSources() returns (r: Result<Json, Error>)
      modifies this`sent, device
      ensures Performed(AllSourcesSpec(family, endpoint, clock, old(device.Current())), r)
    {
      match family
      case Generic => r := Ok(JNull);
      case Espresso => r := EspressoAllSources();
      case Popcorn => r := PopcornAllSources();
      case Plus => r := PopcornAllSources();
    }

    /** The Max's two listings joined by title. */
    method EspressoAllSources() returns (r: Result<Json, Error>)
      requires family == Espresso
      modifies this`sent, device
      ensures Performed(AllSourcesSpec(family, endpoint, clock, old(device.Current())), r)
    {
      var namesRes := ExecuteRequest(RowsRequest(InputNamesPath, 20));
      if namesRes.Err? {
        return namesRes;
      }
      var inputsRes := ExecuteRequest(RowsRequest(InputsPath, 20));
      if inputsRes.Err? {
        return inputsRes;
      }
      if namesRes.value == JNull || inputsRes.value == JNull {
        return Ok(JNull);
      }
      var names := ExtractData(namesRes.value, ["rows"]);
      var inputs := ExtractData(inputsRes.value, ["rows"]);
      var rows := Elements(inputs);
      if rows.Err? {
        return Err(rows.error);
      }
      var index := IndexMap(rows.value);
      if index.Err? {
        return Err(index.error);
      }
      var ns := Elements(names);
      if ns.Err? {
        return Err(ns.error);
      }
      var out := JoinSources(ns.value, index.value);
      if out.Err? {
        return Err(out.error);
      }
      r := Ok(JArr(out.value));
    }

    /** The Plus/Mini listing (with the streaming inputs on the Popcorn
        client, as is on the older Plus client). */
    method PopcornAllSources() returns (r: Result<Json, Error>)
      requires family == Popcorn || family == Plus
      modifies this`sent, device
      ensures Performed(AllSourcesSpec(family, endpoint, clock, old(device.Current())), r)
    {
      var data := ExecuteRequest(RowsRequest("ui:/inputs", 10));
      if data.Err? {
        return data;
      }
      if !Truthy(data.value) {
        return Ok(JNull);
      }
      var rows := ExtractData(data.value, ["rows"]);
      if family == Popcorn {
        r := WithAdditionalInputs(rows);
      } else {
        r := Ok(rows);
      }
    }

    method GetAllPresets() returns (r: Result<Json, Error>)
      modifies this`sent, device
      ensures Performed(AllPresetsSpec(family, endpoint, clock, old(device.Current())), r)
    {
      if family == Generic {
        return Ok(JNull);
      }
      if family == Espresso {
        return Ok(JArr(FixedPresets));
      }
      var data := ExecuteRequest(RowsRequest("settings:/popcorn/audio/audioPresetValues", 10));
      if data.Err? {
        return data;
      }
      r := if Truthy(data.value) then PopcornPresets(data.value) else Ok(JNull);
    }

    /** The Max's reading of the subwoofer level control. */
    method ProbeLevel() returns (r: Result<Json, Error>)
      modifies this`sent, device
      ensures Performed(LevelProbe(endpoint, clock, old(device.Current())), r)
    {
      var data := ExecuteRequest(ReadRequest(SubwooferLevelPath));
      if data.Err? {
        return data;
      }
      if data.value == JNull {
        return Ok(JBool(false));
      }
      var enabled := LevelEnabled(data.value);
      r := if enabled.Err? then Err(enabled.error) else Ok(JBool(enabled.value));
    }

    /** The Plus/Mini reading of the subwoofer list. */
    method ProbeList() returns (r: Result<Json, Error>)
      modifies this`sent, device
      ensures Performed(ListProbe(endpoint, clock, old(device.Current())), r)
    {
      var list := GetValue(SubwooferListPath, "popcornSubwooferList", "@all");
      if list.Err? || list.value == JNull {
        return list;
      }
      var n := Len(list.value);
      r := if n.Err? then Err(n.error) else Ok(JBool(n.value > 0));
    }

    /** `has_subwoofer`, with its cache. */
    method HasSubwoofer() returns (r: Result<Json, Error>)
      modifies this`sent, this`subwooferMemo, device
      ensures var p := HasSubwooferSpec(family, old(subwooferMemo), endpoint, clock, old(device.Current()));
              Performed(p.step, r) && subwooferMemo == p.memo
    {
      if family != Espresso && family != Popcorn {
        return Ok(JNull);
      }
      if subwooferMemo.Some? {
        return Ok(MemoValue(subwooferMemo));
      }
      if family == Espresso {
        r := ProbeLevel();
      } else {
        r := ProbeList();
      }
      if r.Ok? && r.value.JBool? {
        subwooferMemo := Some(r.value.b);
      }
    }

    method GetSubwooferStatus() returns (r: Result<Json, Error>)
      modifies this`sent, device
      ensures Performed(SubwooferStatusSpec(family, endpoint, clock, old(device.Current())), r)
    {
      match family
      case Espresso => r := ProbeLevel();
      case Popcorn => r := GetValue("ui:/settings/subwoofer/enabled", "bool_", "@all");
      case Generic => r := Ok(JNull);
      case Plus => r := Ok(JNull);
    }

    method SetSubwooferStatus(status: Json) returns (r: Result<Json, Error>)
      modifies this`sent, device
      ensures Performed(SetSubwooferStatusSpec(family, status, endpoint, clock, old(device.Current())), r)
    {
      match family
      case Espresso => r := Ok(JNull);
      case Popcorn => r := SetValue("ui:/settings/subwoofer/enabled", "bool_", status);
      case Generic => r := Err(TypeError);
      case Plus => r := Err(TypeError);
    }

    method GetSubwooferVolume() returns (r: Result<Json, Error>)
      modifies this`sent, device
      ensures Performed(SubwooferVolumeSpec(family, endpoint, clock, old(device.Current())), r)
    {
      match family
      case Espresso => r := GetValue(SubwooferLevelPath, "i16_", "@all");
      case Popcorn => r := GetValue("ui:/settings/subwoofer/volume", "double_", "@all");
      case Generic => r := Ok(JNull);
      case Plus => r := Ok(JNull);
    }

    method SetSubwooferVolume(volume: real) returns (r: Result<Json, Error>)
      modifies this`sent, device
      ensures Performed(SetSubwooferVolumeSpec(family, volume, endpoint, clock, old(device.Current())), r)
    {
      match family
      case Espresso => r := SetValue(SubwooferLevelPath, "i16_", JInt(Truncate(volume)));
      case Popcorn => r := SetValue("ui:/settings/subwoofer/volume", "double_", JReal(volume));
      case Generic => r := Err(TypeError);
      case Plus => r := Err(TypeError);
    }
  }
}
