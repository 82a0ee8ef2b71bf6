/** A stand-in for the soundbar on the other end of the HTTP session: it
    answers each request from a store of response bodies, one per path, and
    applies writes to that store. Its reachability is a flag. */
module Device {
  import opened Wrappers
  import opened JsonValue
  import opened Wire
  import opened PyAccess

  /** `online == false` makes every request fail in transport. `store[p]` is
      the JSON body the device answers for path `p`. */
  datatype State = State(online: bool, store: map<string, Json>)

  /** The body kept for a path after a write of `v` under `tag`: the typed
      field `value.tag` is replaced and every other field is kept. */
  function WriteTyped(body: Option<Json>, tag: string, v: Json): (r: Json)
    ensures Extract(r, ["value", tag]) == v
  {
    var outer := if body.Some? && body.value.JObj? then body.value.fields else map[];
    var inner := if "value" in outer && outer["value"].JObj? then outer["value"].fields else map[];
    var r := JObj(outer["value" := JObj(inner[tag := v])]);
    ExtractTwo(r, "value", tag);
    r
  }

  /** The device's answer to a request. Reads (`getData`, `getRows`) answer
      the stored body, or status 404 for an unknown path; writes answer 200. */
  function Respond(s: State, req: Request): (reply: Reply)
    ensures !s.online <==> reply.Failed?
  {
    if !s.online then Failed(ClientFault)
    else if req.func == "setData" then Answer(200, JObj(map[]))
    else if (req.func == "getData" || req.func == "getRows") && req.path in s.store
    then Answer(200, s.store[req.path])
    else Answer(404, JNull)
  }

  /** The device's state after a request: only an online `setData` with role
      `value` and a readable envelope changes anything, and only its path. */
  function Apply(s: State, req: Request): (t: State)
    ensures t.online == s.online
    ensures forall p :: p != req.path ==> (p in t.store <==> p in s.store)
    ensures forall p :: p != req.path && p in s.store ==> t.store[p] == s.store[p]
    ensures req.func != "setData" ==> t == s
  {
    if s.online && req.func == "setData" && req.role == Some("value")
       && req.value.Some? && OpenEnvelope(req.value.value).Some?
    then
      var (tag, v) := OpenEnvelope(req.value.value).value;
      var body := if req.path in s.store then Some(s.store[req.path]) else None;
      State(s.online, s.store[req.path := WriteTyped(body, tag, v)])
    else s
  }

  class Soundbar {
    var online: bool
    var store: map<string, Json>

    function Current(): State
      reads this
    {
      State(online, store)
    }

    constructor (online: bool, store: map<string, Json>)
      ensures Current() == State(online, store)
    {
      this.online := online;
      this.store := store;
    }

    /** Serve one request. */
    method Handle(req: Request) returns (reply: Reply)
      modifies this
      ensures reply == Respond(old(Current()), req)
      ensures Current() == Apply(old(Current()), req)
    {
      reply := Respond(Current(), req);
      var next := Apply(Current(), req);
      online, store := next.online, next.store;
    }
  }
}
