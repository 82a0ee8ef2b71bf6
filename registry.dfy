/** The path registry: for every simple get/set pair, which device path and
    value tag each client class uses, or whether the call is the base class's
    `pass` stub or no method at all. */
module Registry {
  import opened Capabilities

  /** Logical properties read with `get_value` and written with `set_value`
      on one path. */
  datatype Feature =
    | Volume | Mute | Name | Serial | Version | Model
    | NightMode | VoiceEnhancement | AmbeoMode | SoundFeedback
    | CurrentSource | CurrentPreset | CodecLedBrightness | LogoState | LogoBrightness
    | DisplayBrightness | LedBarBrightness
    | EcoMode | VoiceEnhancementLevel | CenterSpeakerLevel | SideFiringLevel | UpFiringLevel

  datatype Slot = Slot(path: string, tag: string)

  /** `Missing`: the class has no such method (AttributeError). `Stub`: the
      base class's `pass` body (None, no request). `At`: `get_value` or
      `set_value` on that slot. `Custom`: a method of its own that does
      more than one plain read or write (modelled in the client class). */
  datatype Access = Missing | Stub | At(slot: Slot) | Custom

  /** Getters of the base class. */
  function BaseRead(f: Feature): Access
  {
    match f
    case Volume => At(Slot("player:volume", "i32_"))
    case Mute => At(Slot("settings:/mediaPlayer/mute", "bool_"))
    case Name => At(Slot("systemmanager:/deviceName", "string_"))
    case Serial => At(Slot("settings:/system/serialNumber", "string_"))
    case Version => At(Slot("ui:settings/firmwareUpdate/currentVersion", "string_"))
    case Model => At(Slot("settings:/system/productName", "string_"))
    case EcoMode | VoiceEnhancementLevel | CenterSpeakerLevel | SideFiringLevel | UpFiringLevel => Missing
    case _ => Stub
  }

  /** Setters of the base class. */
  function BaseWrite(f: Feature): Access
  {
    match f
    case Volume => At(Slot("player:volume", "i32_"))
    case Mute => At(Slot("settings:/mediaPlayer/mute", "bool_"))
    case NightMode | VoiceEnhancement | AmbeoMode | SoundFeedback | CurrentPreset
       | CodecLedBrightness | LogoState | LogoBrightness | DisplayBrightness | LedBarBrightness => Stub
    case _ => Missing
  }

  /** The Popcorn client's overrides (both directions use the same slot). */
  function PopcornSlot(f: Feature): Access
  {
    match f
    case NightMode => At(Slot("settings:/popcorn/audio/nightModeStatus", "bool_"))
    case VoiceEnhancement => At(Slot("settings:/popcorn/audio/voiceEnhancement", "bool_"))
    case AmbeoMode => At(Slot("settings:/popcorn/audio/ambeoModeStatus", "bool_"))
    case SoundFeedback => At(Slot("settings:/popcorn/ux/soundFeedbackStatus", "bool_"))
    case CurrentPreset => At(Slot("settings:/popcorn/audio/audioPresets/audioPreset", "popcornAudioPreset"))
    case CodecLedBrightness => At(Slot("ui:/settings/interface/codecLedBrightness", "i32_"))
    case LogoState => At(Slot("settings:/popcorn/ui/ledStatus", "bool_"))
    case LogoBrightness => At(Slot("ui:/settings/interface/ambeoSection/brightness", "i32_"))
    case LedBarBrightness => At(Slot("ui:/settings/interface/ledBrightness", "i32_"))
    case _ => Missing
  }

  /** The Plus client's overrides. */
  function PlusSlot(f: Feature): Access
  {
    match f
    case NightMode => At(Slot("settings:/popcorn/audio/nightModeStatus", "bool_"))
    case VoiceEnhancement => At(Slot("settings:/popcorn/audio/voiceEnhancement", "bool_"))
    case AmbeoMode => At(Slot("settings:/popcorn/audio/ambeoModeStatus", "bool_"))
    case SoundFeedback => At(Slot("settings:/popcorn/ux/soundFeedbackStatus", "bool_"))
    case CurrentPreset => At(Slot("settings:/popcorn/audio/audioPresets/audioPreset", "popcornAudioPreset"))
    case CodecLedBrightness => At(Slot("ui:/settings/interface/codecLedBrightness", "i32_"))
    case LogoState => At(Slot("settings:/popcorn/ui/ledStatus", "bool_"))
    case LogoBrightness => At(Slot("ui:/settings/interface/ambeoSection/brightness", "i32_"))
    case LedBarBrightness => At(Slot("ui:/settings/interface/ledBrightness", "i32_"))
    case _ => Missing
  }

  /** The Espresso client's overrides. */
  function EspressoSlot(f: Feature): Access
  {
    match f
    case NightMode => At(Slot("espresso:nightModeUi", "bool_"))
    case AmbeoMode => At(Slot("espresso:ambeoModeUi", "bool_"))
    case SoundFeedback => At(Slot("settings:/espresso/soundFeedback", "bool_"))
    case CurrentPreset => At(Slot("settings:/espresso/equalizerPreset", "i32_"))
    case VoiceEnhancementLevel => At(Slot("ui:/mydevice/voiceEnhanceLevel", "i16_"))
    case CenterSpeakerLevel => At(Slot("ui:/settings/audio/centerSettings", "i16_"))
    case SideFiringLevel => At(Slot("ui:/settings/audio/widthSettings", "i16_"))
    case UpFiringLevel => At(Slot("ui:/settings/audio/heightSettings", "i16_"))
    case LogoBrightness | DisplayBrightness => Custom
    case _ => Missing
  }

  /** Getters that exist only on one side of a pair. */
  function ReadOnlySlot(family: Family, f: Feature): Access
  {
    match (family, f)
    case (Popcorn, CurrentSource) => At(Slot("popcorn:inputChange/selected", "popcornInputId"))
    case (Plus, CurrentSource) => At(Slot("popcorn:inputChange/selected", "popcornInputId"))
    case (Espresso, CurrentSource) => At(Slot("espresso:audioInputID", "i32_"))
    case (Popcorn, EcoMode) => At(Slot("uipopcorn:ecoModeState", "bool_"))
    case _ => Missing
  }

  function Override(family: Family, f: Feature): Access
  {
    match family
    case Generic => Missing
    case Popcorn => PopcornSlot(f)
    case Espresso => EspressoSlot(f)
    case Plus => PlusSlot(f)
  }

  /** The getter a client of `family` runs for `f`: its own override, else
      the inherited base method. */
  function ReadAccess(family: Family, f: Feature): (a: Access)
    ensures family == Generic ==> a == BaseRead(f)
  {
    if !Override(family, f).Missing? then Override(family, f)
    else if ReadOnlySlot(family, f).At? then ReadOnlySlot(family, f)
    else BaseRead(f)
  }

  /** The setter a client of `family` runs for `f`. */
  function WriteAccess(family: Family, f: Feature): (a: Access)
    ensures family == Generic ==> a == BaseWrite(f)
  {
    if !Override(family, f).Missing? then Override(family, f) else BaseWrite(f)
  }

  /** Every setter writes where the matching getter reads, so a write can be
      read back. */
  lemma WritableIsReadable(family: Family, f: Feature)
    ensures WriteAccess(family, f).At? ==> ReadAccess(family, f) == WriteAccess(family, f)
    ensures WriteAccess(family, f).Custom? <==> ReadAccess(family, f).Custom?
  {
    match family
    case Generic =>
    case Popcorn => PopcornSharesSlots(f);
    case Espresso => EspressoSharesSlots(f);
    case Plus => PlusSharesSlots(f);
  }

  /** The Popcorn setters against its getters. */
  lemma PopcornSharesSlots(f: Feature)
    ensures WriteAccess(Popcorn, f).At? ==> ReadAccess(Popcorn, f) == WriteAccess(Popcorn, f)
    ensures WriteAccess(Popcorn, f).Custom? <==> ReadAccess(Popcorn, f).Custom?
  {
  }

  /** The Espresso setters against its getters. */
  lemma EspressoSharesSlots(f: Feature)
    ensures WriteAccess(Espresso, f).At? ==> ReadAccess(Espresso, f) == WriteAccess(Espresso, f)
    ensures WriteAccess(Espresso, f).Custom? <==> ReadAccess(Espresso, f).Custom?
  {
  }

  /** The Plus setters against its getters. */
  lemma PlusSharesSlots(f: Feature)
    ensures WriteAccess(Plus, f).At? ==> ReadAccess(Plus, f) == WriteAccess(Plus, f)
    ensures WriteAccess(Plus, f).Custom? <==> ReadAccess(Plus, f).Custom?
  {
  }

  /** A client class only adds to the base class: a method a family lacks
      is one the base class lacks too. */
  lemma OverridesOnlyAdd(family: Family, f: Feature)
    ensures ReadAccess(family, f).Missing? ==> BaseRead(f).Missing?
    ensures WriteAccess(family, f).Missing? ==> BaseWrite(f).Missing?
  {
  }

  /** Identity, volume and mute are shared: no family changes them. */
  lemma SharedAccessors(family: Family, f: Feature)
    requires f in {Volume, Mute, Name, Serial, Version, Model}
    ensures ReadAccess(family, f) == BaseRead(f) && BaseRead(f).At?
    ensures WriteAccess(family, f) == BaseWrite(f)
  {
  }

  /** The Plus client is the Popcorn client without eco mode. */
  lemma PlusIsPopcornWithoutEco(f: Feature)
    ensures f != Feature.EcoMode ==> ReadAccess(Plus, f) == ReadAccess(Popcorn, f)
    ensures WriteAccess(Plus, f) == WriteAccess(Popcorn, f)
    ensures ReadAccess(Plus, Feature.EcoMode) == Missing
  {
  }

  /** The accessors a capability tag promises to the entity layer. */
  function Governs(c: Capability): (fs: seq<Feature>)
  {
    match c
    case EcoMode => [Feature.EcoMode]
    case VoiceEnhancementLevel => [Feature.VoiceEnhancementLevel]
    case CenterSpeakerLevel => [Feature.CenterSpeakerLevel]
    case SideFiringLevel => [Feature.SideFiringLevel]
    case UpFiringLevel => [Feature.UpFiringLevel]
    case LedBar => [LedBarBrightness]
    case CodecLed => [CodecLedBrightness]
    case AmbeoLogo => [LogoState, LogoBrightness]
    case MaxLogo => [LogoBrightness]
    case MaxDisplay => [DisplayBrightness]
    case VoiceEnhancement => [Feature.VoiceEnhancement]
    case VoiceEnhancementToggle => [Feature.VoiceEnhancement]
    case _ => []
  }

  /** A declared capability comes with a working getter and, except for the
      read-only eco mode, a working setter. */
  lemma CapabilitiesHaveAccessors(family: Family, c: Capability, f: Feature)
    requires HasCapability(family, c) && f in Governs(c)
    ensures ReadAccess(family, f).At? || ReadAccess(family, f).Custom?
    ensures f != Feature.EcoMode ==> WriteAccess(family, f).At? || WriteAccess(family, f).Custom?
  {
    match family
    case Generic => assert false;
    case Espresso =>
      if c == MaxLogo || c == MaxDisplay {
        EspressoDisplays(c, f);
      } else {
        EspressoHasGetters(c, f);
        EspressoHasSetters(c, f);
      }
    case Popcorn =>
      PopcornHasGetters(c, f);
      if f != Feature.EcoMode { PopcornHasSetters(c, f); }
    case Plus =>
      PlusHasGetters(c, f);
      if f != Feature.EcoMode { PlusHasSetters(c, f); }
  }

  /** The Max's logo and display brightness have methods of their own in
      both directions. */
  lemma EspressoDisplays(c: Capability, f: Feature)
    requires (c == MaxLogo || c == MaxDisplay) && f in Governs(c)
    ensures ReadAccess(Espresso, f).Custom? && WriteAccess(Espresso, f).Custom?
  {
    if c == MaxLogo {
      assert f == LogoBrightness;
    } else {
      assert f == DisplayBrightness;
    }
  }

  /** The Max client's level getters, tag by tag. */
  lemma EspressoHasGetters(c: Capability, f: Feature)
    requires HasCapability(Espresso, c) && c != MaxLogo && c != MaxDisplay && f in Governs(c)
    ensures ReadAccess(Espresso, f).At? || ReadAccess(Espresso, f).Custom?
  {
    match c
    case VoiceEnhancementLevel =>
      assert f == Feature.VoiceEnhancementLevel;
    case CenterSpeakerLevel =>
      assert f == Feature.CenterSpeakerLevel;
    case SideFiringLevel =>
      assert f == Feature.SideFiringLevel;
    case UpFiringLevel =>
      assert f == Feature.UpFiringLevel;
    case _ =>
  }

  /** The Max client's level setters, tag by tag. */
  lemma EspressoHasSetters(c: Capability, f: Feature)
    requires HasCapability(Espresso, c) && c != MaxLogo && c != MaxDisplay && f in Governs(c)
    ensures WriteAccess(Espresso, f).At? || WriteAccess(Espresso, f).Custom?
  {
    match c
    case VoiceEnhancementLevel =>
      assert f == Feature.VoiceEnhancementLevel;
    case CenterSpeakerLevel =>
      assert f == Feature.CenterSpeakerLevel;
    case SideFiringLevel =>
      assert f == Feature.SideFiringLevel;
    case UpFiringLevel =>
      assert f == Feature.UpFiringLevel;
    case _ =>
  }

  /** The Plus/Mini client's getters, tag by tag. */
  lemma PopcornHasGetters(c: Capability, f: Feature)
    requires HasCapability(Popcorn, c) && f in Governs(c)
    ensures ReadAccess(Popcorn, f).At? || ReadAccess(Popcorn, f).Custom?
  {
    match c
    case AmbeoLogo =>
      assert f == LogoState || f == LogoBrightness;
    case LedBar =>
      assert f == LedBarBrightness;
    case CodecLed =>
      assert f == CodecLedBrightness;
    case VoiceEnhancementToggle =>
      assert f == Feature.VoiceEnhancement;
    case EcoMode =>
      assert f == Feature.EcoMode;
    case _ =>
  }

  /** The Plus/Mini client's setters, tag by tag. */
  lemma PopcornHasSetters(c: Capability, f: Feature)
    requires HasCapability(Popcorn, c) && f in Governs(c) && f != Feature.EcoMode
    ensures WriteAccess(Popcorn, f).At? || WriteAccess(Popcorn, f).Custom?
  {
    match c
    case AmbeoLogo =>
      assert f == LogoState || f == LogoBrightness;
    case LedBar =>
      assert f == LedBarBrightness;
    case CodecLed =>
      assert f == CodecLedBrightness;
    case VoiceEnhancementToggle =>
      assert f == Feature.VoiceEnhancement;
    case _ =>
  }

  /** The Plus client's getters, tag by tag. */
  lemma PlusHasGetters(c: Capability, f: Feature)
    requires HasCapability(Plus, c) && f in Governs(c)
    ensures ReadAccess(Plus, f).At? || ReadAccess(Plus, f).Custom?
  {
    match c
    case AmbeoLogo =>
      assert f == LogoState || f == LogoBrightness;
    case LedBar =>
      assert f == LedBarBrightness;
    case CodecLed =>
      assert f == CodecLedBrightness;
    case VoiceEnhancement =>
      assert f == Feature.VoiceEnhancement;
    case _ =>
  }

  /** The Plus client's setters, tag by tag. */
  lemma PlusHasSetters(c: Capability, f: Feature)
    requires HasCapability(Plus, c) && f in Governs(c) && f != Feature.EcoMode
    ensures WriteAccess(Plus, f).At? || WriteAccess(Plus, f).Custom?
  {
    match c
    case AmbeoLogo =>
      assert f == LogoState || f == LogoBrightness;
    case LedBar =>
      assert f == LedBarBrightness;
    case CodecLed =>
      assert f == CodecLedBrightness;
    case VoiceEnhancement =>
      assert f == Feature.VoiceEnhancement;
    case _ =>
  }
}
