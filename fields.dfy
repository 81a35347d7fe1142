/** The values held by the quote form and the names of the fields the smart import fills. */
module Fields {
  import opened Wrappers

  /** A form value: the text of an input, a number (the price), or `null` (the logo before one is chosen). */
  datatype Value = Str(s: string) | Num(n: int) | Null

  /** The fields the smart import can fill. */
  datatype Field =
    | Price | Year | Vin | Mileage | EngineShort | EngineFull
    | TransmissionShort | TransmissionFull | SuspensionShort | SuspensionFull
    | TowingCapacity | Model | Brand

  /** The form key of each field. */
  function Name(f: Field): string {
    match f
    case Price => "price"
    case Year => "year"
    case Vin => "vin"
    case Mileage => "mileage"
    case EngineShort => "engineShort"
    case EngineFull => "engineFull"
    case TransmissionShort => "transmissionShort"
    case TransmissionFull => "transmissionFull"
    case SuspensionShort => "suspensionShort"
    case SuspensionFull => "suspensionFull"
    case TowingCapacity => "towingCapacity"
    case Model => "model"
    case Brand => "brand"
  }

  /** Every key the smart import can write. */
  const Vocabulary: set<string> := {
    "price", "year", "vin", "mileage", "engineShort", "engineFull",
    "transmissionShort", "transmissionFull", "suspensionShort", "suspensionFull",
    "towingCapacity", "model", "brand"
  }

  /** The field a form key names, if any. */
  function FieldNamed(k: string): (r: Option<Field>)
    ensures r.Some? ==> Name(r.value) == k
  {
    if k == "price" then Some(Price)
    else if k == "year" then Some(Year)
    else if k == "vin" then Some(Vin)
    else if k == "mileage" then Some(Mileage)
    else if k == "engineShort" then Some(EngineShort)
    else if k == "engineFull" then Some(EngineFull)
    else if k == "transmissionShort" then Some(TransmissionShort)
    else if k == "transmissionFull" then Some(TransmissionFull)
    else if k == "suspensionShort" then Some(SuspensionShort)
    else if k == "suspensionFull" then Some(SuspensionFull)
    else if k == "towingCapacity" then Some(TowingCapacity)
    else if k == "model" then Some(Model)
    else if k == "brand" then Some(Brand)
    else None
  }

  /** Names and field lookup are inverse: distinct fields have distinct keys, and the keys are exactly the vocabulary. */
  lemma NamesAreTheVocabulary()
    ensures forall f :: FieldNamed(Name(f)) == Some(f)
    ensures forall f, g :: Name(f) == Name(g) ==> f == g
    ensures forall k :: k in Vocabulary <==> FieldNamed(k).Some?
  {
    forall f ensures FieldNamed(Name(f)) == Some(f) {
      match f
      case Price =>
      case Year =>
      case Vin =>
      case Mileage =>
      case EngineShort =>
      case EngineFull =>
      case TransmissionShort =>
      case TransmissionFull =>
      case SuspensionShort =>
      case SuspensionFull =>
      case TowingCapacity =>
      case Model =>
      case Brand =>
    }
  }
}
