/** The identity every soundbar entity derives from its device (display
    name, unique id, device registry identifiers) and the initial state of
    the light and switch entities. The fields are set once, so entities are
    values here. */
module Entity {
  import opened JsonValue

  const Domain := "ambeo_soundbar"

  /** What an entity reads from the discovered soundbar. */
  datatype AmbeoDevice = AmbeoDevice(name: string, serial: string)

  datatype BaseEntity = BaseEntity(device: AmbeoDevice, name: string, uniqueId: string)

  /** `s.replace(from, to)` for single characters. */
  function ReplaceChar(s: string, from: char, to: char): (r: string)
    ensures |r| == |s|
    ensures forall i :: 0 <= i < |s| ==> r[i] == (if s[i] == from then to else s[i])
  {
    if s == [] then [] else [if s[0] == from then to else s[0]] + ReplaceChar(s[1..], from, to)
  }

  /** The suffix part of a unique id: lower case, spaces turned into
      underscores. */
  function IdSuffix(suffix: string): (r: string)
    ensures |r| == |suffix|
  {
    ReplaceChar(Lower(suffix), ' ', '_')
  }

  function NewBaseEntity(device: AmbeoDevice, nameSuffix: string, uniqueIdSuffix: string): (e: BaseEntity)
    ensures e.device == device
    ensures |e.name| == |device.name| + 1 + |nameSuffix|
    ensures |e.uniqueId| == |device.serial| + 1 + |uniqueIdSuffix|
  {
    BaseEntity(device, device.name + " " + nameSuffix, device.serial + "_" + IdSuffix(uniqueIdSuffix))
  }

  /** The name is the device's name, a space and the suffix; the unique id
      is the serial, an underscore and the normalised id suffix. */
  lemma NamingScheme(device: AmbeoDevice, nameSuffix: string, uniqueIdSuffix: string)
    ensures var e := NewBaseEntity(device, nameSuffix, uniqueIdSuffix);
      && e.name[..|device.name|] == device.name && e.name[|device.name|] == ' '
      && e.name[|device.name| + 1..] == nameSuffix
      && e.uniqueId[..|device.serial|] == device.serial && e.uniqueId[|device.serial|] == '_'
      && e.uniqueId[|device.serial| + 1..] == IdSuffix(uniqueIdSuffix)
  {
  }

  /** `device_info["identifiers"]`: the entity belongs to the device
      registered under the integration's domain and the serial. */
  function Identifiers(e: BaseEntity): (ids: set<(string, string)>)
    ensures |ids| == 1 && (Domain, e.device.serial) in ids
  {
    {(Domain, e.device.serial)}
  }

  /** The suffix part of a unique id has no spaces and no upper-case ASCII
      letters, and keeps the suffix's length. */
  lemma IdSuffixNormal(suffix: string)
    ensures |IdSuffix(suffix)| == |suffix|
    ensures forall i :: 0 <= i < |suffix| ==> IdSuffix(suffix)[i] != ' ' && !('A' <= IdSuffix(suffix)[i] <= 'Z')
  {
  }

  /** Suffixes that differ only in case, or in space versus underscore,
      give the same unique id: the id cannot tell them apart. */
  lemma {:induction false} UniqueIdCollapses(device: AmbeoDevice, a: string, b: string)
    requires |a| == |b|
    requires forall i :: 0 <= i < |a| ==> IdSuffix([a[i]]) == IdSuffix([b[i]])
    ensures NewBaseEntity(device, a, a).uniqueId == NewBaseEntity(device, b, b).uniqueId
  {
    forall i | 0 <= i < |a| ensures IdSuffix(a)[i] == IdSuffix(b)[i] {
      assert IdSuffix([a[i]])[0] == IdSuffix(a)[i];
      assert IdSuffix([b[i]])[0] == IdSuffix(b)[i];
    }
    assert IdSuffix(a) == IdSuffix(b);
  }

  /** Two entities of one device with different name suffixes have
      different names. */
  lemma NamesDistinguishSuffixes(device: AmbeoDevice, a: string, b: string, ua: string, ub: string)
    requires a != b
    ensures NewBaseEntity(device, a, ua).name != NewBaseEntity(device, b, ub).name
  {
    NamingScheme(device, a, ua);
    NamingScheme(device, b, ub);
  }

  /** A light entity, with its brightness on the device's 0..100 scale. */
  datatype Light = Light(base: BaseEntity, brightness: int)

  predicate LightIsOn(l: Light)
  {
    l.brightness > 0
  }

  function NewLight(device: AmbeoDevice, nameSuffix: string, uniqueIdSuffix: string): (l: Light)
    ensures l.base == NewBaseEntity(device, nameSuffix, uniqueIdSuffix)
    ensures l.brightness == 0 && !LightIsOn(l)
  {
    Light(NewBaseEntity(device, nameSuffix, uniqueIdSuffix), 0)
  }

  /** A switch entity; `is_on` answers the stored flag. */
  datatype Switch = Switch(base: BaseEntity, isOn: bool)

  /** A switch uses its feature name as both suffixes and starts on. */
  function NewSwitch(device: AmbeoDevice, featureName: string): (w: Switch)
    ensures w.base == NewBaseEntity(device, featureName, featureName)
    ensures w.isOn
  {
    Switch(NewBaseEntity(device, featureName, featureName), true)
  }
}
