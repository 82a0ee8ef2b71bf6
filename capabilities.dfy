/** Model families and the capability tags each client class declares. */
module Capabilities {

  /** The client classes: the generic base (used by the factory to probe),
      Popcorn (Plus/Mini), Espresso (Max) and the older Plus client. */
  datatype Family = Generic | Popcorn | Espresso | Plus

  /** Capability tags. Those after `MaxDisplay` are used by the client
      classes without being defined in the constants module. */
  datatype Capability =
    | AmbeoLogo | LedBar | CodecLed | VoiceEnhancement | BluetoothPairing
    | Subwoofer | Standby | MaxLogo | MaxDisplay
    | VoiceEnhancementToggle | VoiceEnhancementLevel | CenterSpeakerLevel
    | SideFiringLevel | UpFiringLevel | ResetExpertSettings | EcoMode

  /** The class-level `capabilities` list of each client. */
  function CapabilityList(f: Family): seq<Capability>
  {
    match f
    case Generic => []
    case Espresso =>
      [Standby, MaxLogo, MaxDisplay, VoiceEnhancementLevel, CenterSpeakerLevel,
       SideFiringLevel, UpFiringLevel, ResetExpertSettings, Subwoofer]
    case Popcorn =>
      [AmbeoLogo, LedBar, CodecLed, VoiceEnhancementToggle, BluetoothPairing, Subwoofer, EcoMode]
    case Plus =>
      [AmbeoLogo, LedBar, CodecLed, VoiceEnhancement, BluetoothPairing]
  }

  /** `has_capability`: membership in the class list; no I/O. */
  predicate HasCapability(f: Family, c: Capability)
    ensures HasCapability(f, c) ==> f != Generic
    ensures c == Standby ==> (HasCapability(f, c) <==> f == Espresso)
  {
    c in CapabilityList(f)
  }

  /** `support_debounce_mode`: only the Espresso client overrides the base's False. */
  predicate SupportsDebounce(f: Family)
    ensures f != Espresso ==> !SupportsDebounce(f)
    ensures SupportsDebounce(f) ==> HasCapability(f, Standby)
  {
    f == Espresso
  }

  /** The base client answers no for every tag. */
  lemma GenericHasNone(c: Capability)
    ensures !HasCapability(Generic, c)
  {
  }

  lemma EspressoCapabilities()
    ensures HasCapability(Espresso, Standby) && HasCapability(Espresso, Subwoofer)
    ensures !HasCapability(Espresso, AmbeoLogo) && !HasCapability(Espresso, LedBar)
    ensures !HasCapability(Espresso, BluetoothPairing)
    ensures SupportsDebounce(Espresso)
  {
  }

  lemma PopcornCapabilities()
    ensures HasCapability(Popcorn, Subwoofer) && HasCapability(Popcorn, EcoMode)
    ensures HasCapability(Popcorn, BluetoothPairing)
    ensures !HasCapability(Popcorn, Standby) && !SupportsDebounce(Popcorn)
  {
  }

  /** The Plus client declares exactly these five tags. */
  lemma PlusCapabilities(c: Capability)
    ensures HasCapability(Plus, c) <==> c in {AmbeoLogo, LedBar, CodecLed, VoiceEnhancement, BluetoothPairing}
  {
  }

  /** Only the Max soundbar can be put in standby and woken. */
  lemma StandbyOnlyOnEspresso(f: Family)
    ensures HasCapability(f, Standby) <==> f == Espresso
  {
  }
}
