/**
 * The closed option sets the settings schema draws from: the audio
 * language, the Whisper model size, the processing device and the numeric
 * precision. Each member carries the string value the host stores and
 * shows; parsing maps a stored string back to its member, by exact value.
 */
module Options {
  import opened Wrappers

  /**
   * A language code. The set of codes is derived from an external ISO 639
   * table at start-up; the model takes that table as a parameter (the set
   * of lower-case two-letter values) rather than fixing it.
   */
  datatype LanguageCode = LanguageCode(code: string)

  /** The default language, English. */
  const EN := LanguageCode("en")

  /** Accepts exactly the values present in the language table. */
  function ParseLanguage(s: string, languages: set<string>): (r: Option<LanguageCode>)
    ensures r.Some? <==> s in languages
    ensures r.Some? ==> r.value.code == s
  {
    if s in languages then Some(LanguageCode(s)) else None
  }

  /** Size of the Whisper model; Other selects a custom path or model id. */
  datatype ModelSize =
    | Tiny | TinyEn | Base | BaseEn | Small | SmallEn | Medium | MediumEn
    | LargeV1 | LargeV2 | LargeV3 | Large | Other
  {
    function Value(): string {
      match this
      case Tiny => "tiny"
      case TinyEn => "tiny.en"
      case Base => "base"
      case BaseEn => "base.en"
      case Small => "small"
      case SmallEn => "small.en"
      case Medium => "medium"
      case MediumEn => "medium.en"
      case LargeV1 => "large-v1"
      case LargeV2 => "large-v2"
      case LargeV3 => "large-v3"
      case Large => "large"
      case Other => "Other"
    }
  }

  /** The model size whose value is exactly `s`, if any. */
  function ParseModelSize(s: string): (r: Option<ModelSize>)
    ensures r.Some? ==> r.value.Value() == s
  {
    if s == "tiny" then Some(Tiny)
    else if s == "tiny.en" then Some(TinyEn)
    else if s == "base" then Some(Base)
    else if s == "base.en" then Some(BaseEn)
    else if s == "small" then Some(Small)
    else if s == "small.en" then Some(SmallEn)
    else if s == "medium" then Some(Medium)
    else if s == "medium.en" then Some(MediumEn)
    else if s == "large-v1" then Some(LargeV1)
    else if s == "large-v2" then Some(LargeV2)
    else if s == "large-v3" then Some(LargeV3)
    else if s == "large" then Some(Large)
    else if s == "Other" then Some(Other)
    else None
  }

  lemma ModelSizeRoundTrip(m: ModelSize)
    ensures ParseModelSize(m.Value()) == Some(m)
  {
    match m
    case Tiny =>
    case TinyEn =>
    case Base =>
    case BaseEn =>
    case Small =>
    case SmallEn =>
    case Medium =>
    case MediumEn =>
    case LargeV1 =>
    case LargeV2 =>
    case LargeV3 =>
    case Large =>
    case Other =>
  }

  /** The values are pairwise distinct, so a value names one model size. */
  lemma ModelSizeValuesDistinct(a: ModelSize, b: ModelSize)
    ensures a.Value() == b.Value() <==> a == b
  {
    ModelSizeRoundTrip(a);
    ModelSizeRoundTrip(b);
  }

  /** Parsing fails exactly on strings that are no model size's value. */
  lemma ModelSizeParseComplete(s: string)
    ensures ParseModelSize(s).None? <==> forall m: ModelSize :: m.Value() != s
  {
    forall m: ModelSize ensures ParseModelSize(m.Value()) == Some(m) {
      ModelSizeRoundTrip(m);
    }
  }

  /** Only the value "Other" (with that capitalisation) selects Other. */
  lemma OtherOnlyFromItsValue(s: string)
    ensures ParseModelSize(s) == Some(Other) <==> s == "Other"
  {
    ModelSizeRoundTrip(Other);
  }

  /** Compute device for the local model. */
  datatype Device = Cpu | Cuda | Auto {
    function Value(): string {
      match this
      case Cpu => "cpu"
      case Cuda => "cuda"
      case Auto => "auto"
    }
  }

  function ParseDevice(s: string): (r: Option<Device>)
    ensures r.Some? ==> r.value.Value() == s
  {
    if s == "cpu" then Some(Cpu)
    else if s == "cuda" then Some(Cuda)
    else if s == "auto" then Some(Auto)
    else None
  }

  lemma DeviceRoundTrip(d: Device)
    ensures ParseDevice(d.Value()) == Some(d)
  {
    match d
    case Cpu =>
    case Cuda =>
    case Auto =>
  }

  lemma DeviceValuesDistinct(a: Device, b: Device)
    ensures a.Value() == b.Value() <==> a == b
  {
    DeviceRoundTrip(a);
    DeviceRoundTrip(b);
  }

  lemma DeviceParseComplete(s: string)
    ensures ParseDevice(s).None? <==> forall d: Device :: d.Value() != s
  {
    forall d: Device ensures ParseDevice(d.Value()) == Some(d) {
      DeviceRoundTrip(d);
    }
  }

  /** Numeric precision of the local model. */
  datatype ComputeType =
    | Int8 | Int8Float32 | Int8Float16 | Int8BFloat16 | Int16 | Float16 | BFloat16 | Float32
  {
    function Value(): string {
      match this
      case Int8 => "int8"
      case Int8Float32 => "int8_float32"
      case Int8Float16 => "int8_float16"
      case Int8BFloat16 => "int8_bfloat16"
      case Int16 => "int16"
      case Float16 => "float16"
      case BFloat16 => "bfloat16"
      case Float32 => "float32"
    }
  }

  function ParseComputeType(s: string): (r: Option<ComputeType>)
    ensures r.Some? ==> r.value.Value() == s
  {
    if s == "int8" then Some(Int8)
    else if s == "int8_float32" then Some(Int8Float32)
    else if s == "int8_float16" then Some(Int8Float16)
    else if s == "int8_bfloat16" then Some(Int8BFloat16)
    else if s == "int16" then Some(Int16)
    else if s == "float16" then Some(Float16)
    else if s == "bfloat16" then Some(BFloat16)
    else if s == "float32" then Some(Float32)
    else None
  }

  lemma ComputeTypeRoundTrip(c: ComputeType)
    ensures ParseComputeType(c.Value()) == Some(c)
  {
    match c
    case Int8 =>
    case Int8Float32 =>
    case Int8Float16 =>
    case Int8BFloat16 =>
    case Int16 =>
    case Float16 =>
    case BFloat16 =>
    case Float32 =>
  }

  lemma ComputeTypeValuesDistinct(a: ComputeType, b: ComputeType)
    ensures a.Value() == b.Value() <==> a == b
  {
    ComputeTypeRoundTrip(a);
    ComputeTypeRoundTrip(b);
  }

  lemma ComputeTypeParseComplete(s: string)
    ensures ParseComputeType(s).None? <==> forall c: ComputeType :: c.Value() != s
  {
    forall c: ComputeType ensures ParseComputeType(c.Value()) == Some(c) {
      ComputeTypeRoundTrip(c);
    }
  }
}
