/** The device's request protocol: the call record a client sends, the query
    string it is rendered to, the device's answer, and how `fetch_data`
    (current and legacy client) turns that answer into a value or an error. */
module Wire {
  import opened Wrappers
  import opened JsonValue

  /** One call of `execute_request(function, path, role, value, from_idx, to_idx)`.
      `value` is the structured payload (the source passes it through `json.dumps`). */
  datatype Request = Request(
    func: string,
    path: string,
    role: Option<string>,
    value: Option<Json>,
    from: Option<int>,
    to: Option<int>)

  /** The value of one query parameter. */
  datatype Arg = Text(text: string) | Number(n: int) | Payload(payload: Json)

  datatype Param = Param(key: Key, arg: Arg)

  /** `function?key=arg&key=arg...`, kept structured. */
  datatype Query = Query(func: string, params: seq<Param>)

  /** `{endpoint}/{query}` as `fetch_data` assembles it. */
  datatype Url = Url(endpoint: string, query: Query)

  /** What can go wrong below HTTP: aiohttp's ClientError, a timeout, anything else. */
  datatype Fault = ClientFault | Timeout | Unexpected

  /** The device's answer: an HTTP status with a decoded body, a body that
      is not JSON, or a transport fault. */
  datatype Reply = Answer(status: int, body: Json) | Undecodable(status: int) | Failed(fault: Fault)

  /** The exceptions that can leave a client operation. */
  datatype Error =
    | ConnectionError(url: Url)
    | KeyError(key: Json)
    | TypeError
    | AttributeError
    | ValueError(message: string)

  /** The value envelope of a write, `{"type": tag, tag: value}`. As in the
      Python dict literal, a tag spelled "type" overwrites the first key. */
  function Envelope(tag: string, v: Json): (e: Json)
    ensures e.JObj? && "type" in e.fields && tag in e.fields && e.fields[tag] == v
    ensures tag != "type" ==> e.fields.Keys == {"type", tag} && e.fields["type"] == JStr(tag)
  {
    JObj(map["type" := JStr(tag)][tag := v])
  }

  /** What a receiver reads out of an envelope: the tag named by "type" and
      the payload stored under that tag. */
  function OpenEnvelope(e: Json): Option<(string, Json)>
  {
    if e.JObj? && "type" in e.fields && e.fields["type"].JStr? && e.fields["type"].s in e.fields
    then Some((e.fields["type"].s, e.fields[e.fields["type"].s]))
    else None
  }

  /** The tag appears twice, once as the discriminator and once as the field
      name, so the payload can be read back. */
  lemma EnvelopeOpens(tag: string, v: Json)
    requires tag != "type"
    ensures OpenEnvelope(Envelope(tag, v)) == Some((tag, v))
  {
  }

  /** The query parameters the client writes, in the order it writes them. */
  datatype Key = PathKey | RolesKey | ValueKey | FromKey | ToKey | NoCacheKey
  {
    /** The parameter's name in the query string. */
    function Name(): string
    {
      match this
      case PathKey => "path"
      case RolesKey => "roles"
      case ValueKey => "value"
      case FromKey => "from"
      case ToKey => "to"
      case NoCacheKey => "_nocache"
    }

    function Rank(): nat
    {
      match this
      case PathKey => 0
      case RolesKey => 1
      case ValueKey => 2
      case FromKey => 3
      case ToKey => 4
      case NoCacheKey => 5
    }
  }

  /** The argument of the first parameter called `name`. */
  function Lookup(ps: seq<Param>, k: Key): (r: Option<Arg>)
    ensures r.Some? <==> exists i :: 0 <= i < |ps| && ps[i].key == k
  {
    if ps == [] then None
    else if ps[0].key == k then Some(ps[0].arg)
    else Lookup(ps[1..], k)
  }

  /** Parameters appear in the fixed order path, roles, value, from, to,
      _nocache, each at most once. */
  ghost predicate Ordered(ps: seq<Param>)
  {
    forall i, j :: 0 <= i < j < |ps| ==> ps[i].key.Rank() < ps[j].key.Rank()
  }

  /** `role` counts only when truthy (`if role:`): None and "" are left out. */
  function RoleArg(role: Option<string>): Option<Arg>
  {
    if role.Some? && role.value != "" then Some(Text(role.value)) else None
  }

  function IntArg(x: Option<int>): Option<Arg>
  {
    if x.Some? then Some(Number(x.value)) else None
  }

  function PayloadArg(x: Option<Json>): Option<Arg>
  {
    if x.Some? then Some(Payload(x.value)) else None
  }

  /** What `execute_request` promises of the query it builds for `req`:
      the fixed parameter order, `path` and `_nocache` always, `roles` only
      for a truthy role, `value`, `from` and `to` only when not None. */
  ghost predicate Encodes(q: Query, req: Request, nocache: int)
  {
    && q.func == req.func
    && Ordered(q.params)
    && Lookup(q.params, PathKey) == Some(Text(req.path))
    && Lookup(q.params, RolesKey) == RoleArg(req.role)
    && Lookup(q.params, ValueKey) == PayloadArg(req.value)
    && Lookup(q.params, FromKey) == IntArg(req.from)
    && Lookup(q.params, ToKey) == IntArg(req.to)
    && Lookup(q.params, NoCacheKey) == Some(Number(nocache))
  }

  function Opt(k: Key, a: Option<Arg>): seq<Param>
  {
    if a.Some? then [Param(k, a.value)] else []
  }

  /** The query, written out. */
  function QueryOf(req: Request, nocache: int): Query
  {
    Query(req.func,
      [Param(PathKey, Text(req.path))]
      + Opt(RolesKey, RoleArg(req.role))
      + Opt(ValueKey, PayloadArg(req.value))
      + Opt(FromKey, IntArg(req.from))
      + Opt(ToKey, IntArg(req.to))
      + Opt(NoCacheKey, Some(Number(nocache))))
  }

  /** Appending an optional parameter whose rank is above every present one
      keeps the order and changes only that name's lookup. */
  lemma ExtendOpt(ps: seq<Param>, k: Key, a: Option<Arg>)
    requires Ordered(ps)
    requires forall i :: 0 <= i < |ps| ==> ps[i].key.Rank() < k.Rank()
    ensures Ordered(ps + Opt(k, a))
    ensures forall i :: 0 <= i < |ps + Opt(k, a)| ==> (ps + Opt(k, a))[i].key.Rank() <= k.Rank()
    ensures Lookup(ps + Opt(k, a), k) == a
    ensures forall n :: n != k ==> Lookup(ps + Opt(k, a), n) == Lookup(ps, n)
  {
    forall n ensures Lookup(ps + Opt(k, a), n) == if n == k then a else Lookup(ps, n) {
      LookupSnoc(ps, Opt(k, a), n);
    }
  }

  lemma {:induction false} LookupSnoc(ps: seq<Param>, qs: seq<Param>, n: Key)
    requires |qs| <= 1
    requires Lookup(ps, n).Some? ==> qs == [] || qs[0].key != n
    ensures Lookup(ps + qs, n) == if Lookup(ps, n).Some? then Lookup(ps, n) else Lookup(qs, n)
  {
    if ps == [] {
      assert ps + qs == qs;
    } else {
      assert (ps + qs)[0] == ps[0];
      assert (ps + qs)[1..] == ps[1..] + qs;
      if ps[0].key != n {
        LookupSnoc(ps[1..], qs, n);
      }
    }
  }

  /** The written-out query meets the promise. */
  lemma QueryOfEncodes(req: Request, nocache: int)
    ensures Encodes(QueryOf(req, nocache), req, nocache)
  {
    var path := Some(Text(req.path));
    var p0 := [Param(PathKey, Text(req.path))];
    assert Lookup(p0, PathKey) == path;
    var p1 := p0 + Opt(RolesKey, RoleArg(req.role));
    ExtendOpt(p0, RolesKey, RoleArg(req.role));
    assert Lookup(p1, PathKey) == path;
    var p2 := p1 + Opt(ValueKey, PayloadArg(req.value));
    ExtendOpt(p1, ValueKey, PayloadArg(req.value));
    assert Lookup(p2, PathKey) == path && Lookup(p2, RolesKey) == RoleArg(req.role);
    var p3 := p2 + Opt(FromKey, IntArg(req.from));
    ExtendOpt(p2, FromKey, IntArg(req.from));
    assert Lookup(p3, PathKey) == path && Lookup(p3, RolesKey) == RoleArg(req.role)
      && Lookup(p3, ValueKey) == PayloadArg(req.value);
    var p4 := p3 + Opt(ToKey, IntArg(req.to));
    ExtendOpt(p3, ToKey, IntArg(req.to));
    assert Lookup(p4, PathKey) == path && Lookup(p4, RolesKey) == RoleArg(req.role)
      && Lookup(p4, ValueKey) == PayloadArg(req.value) && Lookup(p4, FromKey) == IntArg(req.from);
    var p5 := p4 + Opt(NoCacheKey, Some(Number(nocache)));
    ExtendOpt(p4, NoCacheKey, Some(Number(nocache)));
    assert QueryOf(req, nocache).params == p5;
  }

  /** The first parameter of an ordered list has the least rank. */
  lemma FirstIsLeast(ps: seq<Param>, x: Key)
    requires Ordered(ps) && Lookup(ps, x).Some?
    ensures ps[0].key.Rank() <= x.Rank()
  {
    var i :| 0 <= i < |ps| && ps[i].key == x;
    assert i == 0 || ps[0].key.Rank() < ps[i].key.Rank();
  }

  /** Two ordered parameter lists that agree on every name are equal. */
  lemma {:induction false} OrderedUnique(ps: seq<Param>, qs: seq<Param>)
    requires Ordered(ps) && Ordered(qs)
    requires forall k :: Lookup(ps, k) == Lookup(qs, k)
    ensures ps == qs
  {
    if ps != [] {
      assert Lookup(ps, ps[0].key).Some?;
    }
    if qs != [] {
      assert Lookup(qs, qs[0].key).Some?;
    }
    if ps != [] && qs != [] {
      var n, m := ps[0].key, qs[0].key;
      assert Lookup(ps, n).Some? && Lookup(qs, m).Some?;
      FirstIsLeast(qs, n);
      FirstIsLeast(ps, m);
      assert ps[0] == qs[0];
      NoLaterName(ps);
      NoLaterName(qs);
      forall k ensures Lookup(ps[1..], k) == Lookup(qs[1..], k) {
        if k != n {
          assert Lookup(ps, k) == Lookup(ps[1..], k);
          assert Lookup(qs, k) == Lookup(qs[1..], k);
        }
      }
      OrderedUnique(ps[1..], qs[1..]);
    }
  }

  lemma NoLaterName(ps: seq<Param>)
    requires Ordered(ps) && ps != []
    ensures Lookup(ps[1..], ps[0].key) == None
  {
    forall i | 0 <= i < |ps[1..]| ensures ps[1..][i].key != ps[0].key {
      assert ps[0].key.Rank() < ps[i + 1].key.Rank();
    }
  }

  /** `execute_request`'s promise fixes the query completely. */
  lemma {:induction false} EncodesUnique(q: Query, req: Request, nocache: int)
    requires Encodes(q, req, nocache)
    ensures q == QueryOf(req, nocache)
  {
    QueryOfEncodes(req, nocache);
    var p := QueryOf(req, nocache);
    forall k ensures Lookup(q.params, k) == Lookup(p.params, k) {
      match k
      case PathKey =>
      case RolesKey =>
      case ValueKey =>
      case FromKey =>
      case ToKey =>
      case NoCacheKey =>
    }
    OrderedUnique(q.params, p.params);
  }

  /** `execute_request`'s string building: start with the path and append
      each optional parameter that is present, then the cache-buster. */
  method BuildQuery(req: Request, nocache: int) returns (q: Query)
    ensures Encodes(q, req, nocache)
  {
    var params := [Param(PathKey, Text(req.path))];
    ghost var prefix := params;
    if req.role.Some? && req.role.value != "" {
      params := params + [Param(RolesKey, Text(req.role.value))];
    }
    assert params == prefix + Opt(RolesKey, RoleArg(req.role));
    prefix := params;
    if req.value.Some? {
      params := params + [Param(ValueKey, Payload(req.value.value))];
    }
    assert params == prefix + Opt(ValueKey, PayloadArg(req.value));
    prefix := params;
    if req.from.Some? {
      params := params + [Param(FromKey, Number(req.from.value))];
    }
    assert params == prefix + Opt(FromKey, IntArg(req.from));
    prefix := params;
    if req.to.Some? {
      params := params + [Param(ToKey, Number(req.to.value))];
    }
    assert params == prefix + Opt(ToKey, IntArg(req.to));
    params := params + [Param(NoCacheKey, Number(nocache))];
    q := Query(req.func, params);
    assert q == QueryOf(req, nocache);
    QueryOfEncodes(req, nocache);
  }

  /** `fetch_data` of the current client: a transport fault, or a body that
      does not decode on a 200, raises AmbeoConnectionError naming the URL;
      any other status yields None. */
  function Fetch(url: Url, reply: Reply): (r: Result<Json, Error>)
    ensures r.Err? <==> reply.Failed? || (reply.Undecodable? && reply.status == 200)
    ensures r.Err? ==> r.error == ConnectionError(url)
    ensures reply.Answer? && reply.status == 200 ==> r == Ok(reply.body)
    ensures !reply.Failed? && reply.status != 200 ==> r == Ok(JNull)
  {
    match reply
    case Failed(_) => Err(ConnectionError(url))
    case Undecodable(status) => if status != 200 then Ok(JNull) else Err(ConnectionError(url))
    case Answer(status, body) => if status != 200 then Ok(JNull) else Ok(body)
  }

  /** `fetch_data` of the legacy client: every exception becomes None and the
      status is never looked at. */
  function LegacyFetch(reply: Reply): (r: Json)
    ensures reply.Answer? ==> r == reply.body
    ensures !reply.Answer? ==> r == JNull
  {
    if reply.Answer? then reply.body else JNull
  }

  /** The two clients read a successful answer alike; they differ exactly
      where the current one raises or drops a non-200 body. */
  lemma FetchesAgree(url: Url, reply: Reply)
    ensures Fetch(url, reply).Ok? && (reply.Answer? ==> reply.status == 200 || reply.body == JNull)
            ==> Fetch(url, reply).value == LegacyFetch(reply)
    ensures LegacyFetch(reply) != JNull ==> reply.Answer?
  {
  }
}
