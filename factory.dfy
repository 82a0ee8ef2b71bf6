/** `AmbeoAPIFactory.create_api`: ask a base client for the product name,
    then build the client of the matching family on the same host. */
module Factory {
  import opened Wrappers
  import opened JsonValue
  import opened Wire
  import opened Device
  import opened Capabilities
  import opened Registry
  import opened ApiSpec
  import opened Client

  const PlusSoundbar := "AMBEO Soundbar Plus"
  const MiniSoundbar := "AMBEO Soundbar Mini"
  const MaxSoundbar := "AMBEO Soundbar Max"

  /** The product names served by the Plus/Mini client. */
  const PopcornModels: seq<string> := [PlusSoundbar, MiniSoundbar]
  /** The product names served by the Max client. */
  const EspressoModels: seq<string> := [MaxSoundbar]

  /** The family chosen for a reported product name. The name is first
      concatenated to a log message, so anything but a string (None
      included) raises TypeError before any comparison. */
  function Dispatch(model: Json): (r: Result<Family, Error>)
    ensures !model.JStr? ==> r == Err(TypeError)
    ensures model.JStr? && model.s in PopcornModels ==> r == Ok(Popcorn)
    ensures model.JStr? && model.s in EspressoModels ==> r == Ok(Espresso)
    ensures model.JStr? && model.s !in PopcornModels && model.s !in EspressoModels
            ==> r == Err(ValueError("Unsupported model : " + model.s))
    ensures r.Ok? ==> r.value != Plus && r.value != Generic
  {
    if !model.JStr? then Err(TypeError)
    else if model.s in PopcornModels then Ok(Popcorn)
    else if model.s in EspressoModels then Ok(Espresso)
    else Err(ValueError("Unsupported model : " + model.s))
  }

  /** The product-name probe, made by a base client on the target host. */
  function ModelProbe(ip: string, port: nat, clock: int, s: State): Step
  {
    GetSpec(Generic, Feature.Model, EndpointFor(ip, port), clock, s)
  }

  /** The outcome of the factory: the probe's own error, or the dispatch of
      the name it returned. */
  function CreateSpec(probe: Step): (r: Result<Family, Error>)
    ensures probe.result.Err? ==> r == Err(probe.result.error)
    ensures r.Ok? ==> r.value == Popcorn || r.value == Espresso
    ensures r.Ok? <==> probe.result.Ok? && probe.result.value in {JStr(PlusSoundbar), JStr(MiniSoundbar), JStr(MaxSoundbar)}
  {
    match probe.result
    case Err(e) => Err(e)
    case Ok(model) => Dispatch(model)
  }

  /** The probe is a single `getData` of the product name, and it changes
      nothing on the device. */
  lemma ProbeIsOneRead(ip: string, port: nat, clock: int, s: State)
    ensures ModelProbe(ip, port, clock, s).sent == [ReadRequest("settings:/system/productName")]
    ensures ModelProbe(ip, port, clock, s).state == s
  {
  }

  /** Only the three known names yield a client, and the Plus client and the
      base client are never chosen. */
  lemma FactoryChoices(ip: string, port: nat, clock: int, s: State)
    ensures var r := CreateSpec(ModelProbe(ip, port, clock, s));
            r.Ok? ==> (r.value == Popcorn || r.value == Espresso)
    ensures var p := ModelProbe(ip, port, clock, s);
            CreateSpec(p).Ok? <==>
              p.result.Ok? && p.result.value in {JStr(PlusSoundbar), JStr(MiniSoundbar), JStr(MaxSoundbar)}
  {
  }

  /** `create_api`: one probe through a throw-away base client, then a new
      client of the chosen family with the same host, port, session and
      clock. `probe` records what the probe did. */
  method CreateApi(ip: string, port: nat, device: Soundbar, clock: int)
    returns (r: Result<AmbeoApi, Error>, ghost probe: Step)
    modifies device
    ensures probe == ModelProbe(ip, port, clock, old(device.Current()))
    ensures device.Current() == probe.state
    ensures r.Ok? <==> CreateSpec(probe).Ok?
    ensures r.Err? ==> r.error == CreateSpec(probe).error
    ensures r.Ok? ==> fresh(r.value) && r.value.family == CreateSpec(probe).value
    ensures r.Ok? ==> r.value.ip == ip && r.value.port == port && r.value.device == device
                      && r.value.clock == clock && r.value.endpoint == EndpointFor(ip, port)
    ensures r.Ok? ==> r.value.sent == [] && r.value.subwooferMemo == None
  {
    var base := new AmbeoApi(Generic, ip, port, device, clock);
    probe := ModelProbe(ip, port, clock, device.Current());
    var model := base.Get(Feature.Model);
    if model.Err? {
      return Err(model.error), probe;
    }
    var family := Dispatch(model.value);
    if family.Err? {
      return Err(family.error), probe;
    }
    var api := new AmbeoApi(family.value, ip, port, device, clock);
    r := Ok(api);
  }
}
