/** The older single-class client of `api.py`: its endpoint is fixed when
    it is built, and its `fetch_data` swallows every failure into None
    instead of raising. Its paths are those of the Plus/Mini. */
module LegacyClient {
  import opened Wrappers
  import opened JsonValue
  import opened Wire
  import opened PyAccess
  import opened Device
  import opened Capabilities
  import opened Sources
  import opened ApiSpec

  /** `execute_request` then `fetch_data`: one request, and the answer's
      body, or None for any failure. Nothing is raised. */
  function LegacySend(s: State, req: Request): (st: Step)
    ensures st.result.Ok? && st.sent == [req] && st.state == Apply(s, req)
    ensures !s.online ==> st.result == Ok(JNull)
  {
    Step(Ok(LegacyFetch(Respond(s, req))), Apply(s, req), [req])
  }

  function LegacyGetValueSpec(s: State, path: string, tag: string): Step
  {
    var st := LegacySend(s, ReadRequest(path));
    var v := st.result.value;
    Step(Ok(if v == JNull then JNull else Extract(v, ["value", tag])), st.state, st.sent)
  }

  function LegacySetValueSpec(s: State, path: string, tag: string, v: Json): Step
  {
    var st := LegacySend(s, WriteRequest(path, tag, v));
    Step(Ok(JNull), st.state, st.sent)
  }

  /** `get_all_sources`: the `rows` of a truthy answer, unchanged. */
  function LegacySourcesSpec(s: State): Step
  {
    var st := LegacySend(s, RowsRequest("ui:/inputs", 10));
    var data := st.result.value;
    Step(Ok(if Truthy(data) then Extract(data, ["rows"]) else JNull), st.state, st.sent)
  }

  /** `get_all_presets`: the rows simplified to title and preset id. The
      comprehension's subscripts are outside the try, so a malformed row
      raises. */
  function LegacyPresetsSpec(s: State): Step
  {
    var st := LegacySend(s, RowsRequest("settings:/popcorn/audio/audioPresetValues", 10));
    var data := st.result.value;
    Step(if Truthy(data) then PopcornPresets(data) else Ok(JNull), st.state, st.sent)
  }

  /** On a reachable stand-in device, which answers a miss with 404 and no
      body, the two clients read and write alike: their one difference is
      what a failed transport turns into. */
  lemma LegacyAgreesOnline(e: string, c: int, s: State, path: string, tag: string, v: Json)
    requires s.online
    ensures LegacyGetValueSpec(s, path, tag) == GetValueSpec(e, c, s, path, tag)
    ensures LegacySetValueSpec(s, path, tag, v) == SetValueSpec(e, c, s, path, tag, v)
  {
  }

  /** On an unreachable device the legacy client answers None where the
      current one raises a connection error. */
  lemma LegacyOffline(e: string, c: int, s: State, path: string, tag: string, v: Json)
    requires !s.online
    ensures LegacyGetValueSpec(s, path, tag).result == Ok(JNull)
    ensures LegacySetValueSpec(s, path, tag, v).result == Ok(JNull)
    ensures GetValueSpec(e, c, s, path, tag).result.Err?
    ensures SetValueSpec(e, c, s, path, tag, v).result.Err?
  {
  }

  /** On a reachable stand-in device, which answers a miss with 404 and no
      body, the legacy listings are those of the Plus client. */
  lemma LegacyListingsAsPlus(e: string, c: int, s: State)
    requires s.online
    ensures LegacySourcesSpec(s) == AllSourcesSpec(Plus, e, c, s)
    ensures LegacyPresetsSpec(s) == AllPresetsSpec(Plus, e, c, s)
  {
  }

  /** The agreement above rests on the stand-in device, which answers a miss
      with 404 and no body. An error status that carries a body parts the
      clients: the current one drops the body as None, the legacy one returns
      it, and its preset listing, finding no rows in it, raises TypeError
      where the Plus client answers None. */
  lemma LegacyDivergesOnErrorBody(url: Url)
    ensures var reply := Answer(500, JObj(map["error" := JStr("x")]));
            Fetch(url, reply) == Ok(JNull) && LegacyFetch(reply) == reply.body
            && Truthy(reply.body) && PopcornPresets(reply.body) == Err(TypeError)
  {
    var body := JObj(map["error" := JStr("x")]);
    assert "error" in body.fields && "rows" !in body.fields;
    assert Extract(body, ["rows"]) == JNull;
  }

  /** A value written through the legacy client reads back. */
  lemma LegacyWriteThenRead(s: State, path: string, tag: string, v: Json)
    requires s.online && tag != "type"
    ensures LegacyGetValueSpec(LegacySetValueSpec(s, path, tag, v).state, path, tag).result == Ok(v)
  {
    LegacyAgreesOnline("", 0, s, path, tag, v);
    var t := LegacySetValueSpec(s, path, tag, v).state;
    LegacyAgreesOnline("", 0, t, path, tag, v);
    WriteThenRead("", 0, 0, s, path, tag, v);
  }

  class LegacyAmbeoApi {
    const ip: string
    const port: nat
    /** Set once by the constructor; there is no way to re-point it. */
    const endpoint: string
    const device: Soundbar
    /** The millisecond clock behind `_nocache`, frozen. */
    const clock: int
    ghost var sent: seq<Request>

    twostate predicate Performed(new st: Step, new r: Result<Json, Error>)
      reads this, device
    {
      r == st.result && device.Current() == st.state && sent == old(sent) + st.sent
    }

    constructor (ip: string, port: nat, device: Soundbar, clock: int)
      ensures this.ip == ip && this.port == port && this.device == device && this.clock == clock
      ensures endpoint == EndpointFor(ip, port) && sent == []
    {
      this.ip := ip;
      this.port := port;
      this.device := device;
      this.clock := clock;
      endpoint := "http://" + ip + ":" + NatToString(port) + "/api";
      sent := [];
    }

    /** `execute_request`: the query is built as the current client builds
        it, but the legacy fetch only logs the URL, so the model does not
        keep it; every failure of the fetch becomes None. */
    method ExecuteRequest(req: Request) returns (r: Json)
      modifies this`sent, device
      ensures Performed(LegacySend(old(device.Current()), req), Ok(r))
    {
      var reply := device.Handle(req);
      r := LegacyFetch(reply);
      sent := sent + [req];
    }

    method GetValue(path: string, tag: string) returns (r: Json)
      modifies this`sent, device
      ensures Performed(LegacyGetValueSpec(old(device.Current()), path, tag), Ok(r))
    {
      var value := ExecuteRequest(ReadRequest(path));
      if value != JNull {
        r := ExtractData(value, ["value", tag]);
      } else {
        r := JNull;
      }
    }

    method SetValue(path: string, tag: string, v: Json)
      modifies this`sent, device
      ensures Performed(LegacySetValueSpec(old(device.Current()), path, tag, v), Ok(JNull))
    {
      var _ := ExecuteRequest(WriteRequest(path, tag, v));
    }

    method GetAllSources() returns (r: Json)
      modifies this`sent, device
      ensures Performed(LegacySourcesSpec(old(device.Current())), Ok(r))
    {
      var data := ExecuteRequest(RowsRequest("ui:/inputs", 10));
      if Truthy(data) {
        r := ExtractData(data, ["rows"]);
      } else {
        r := JNull;
      }
    }

    method GetAllPresets() returns (r: Result<Json, Error>)
      modifies this`sent, device
      ensures Performed(LegacyPresetsSpec(old(device.Current())), r)
    {
      var data := ExecuteRequest(RowsRequest("settings:/popcorn/audio/audioPresetValues", 10));
      r := if Truthy(data) then PopcornPresets(data) else Ok(JNull);
    }
  }
}
