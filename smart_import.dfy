/**
 * `parseTextToData`: the ten extractors run over one text, each turning the
 * first match of its pattern into at most its own keys, all of them folded into
 * one field-name to value map.
 */
module SmartImport {
  import opened Wrappers
  import opened TextScan
  import opened Patterns
  import opened Fields

  /** A price is kept only above this amount. */
  const PriceThreshold: nat := 1000
  /** A transmission or suspension run is kept only when longer than this. */
  const RunGate: nat := 3
  /** Length of the short transmission and suspension texts, `substring(0, 15)`. */
  const ShortLength: nat := 15

  /** The extractors, in the order `parseTextToData` runs them. */
  const Extractors: seq<Pattern> := [
    PricePattern, YearPattern, VinPattern, MileagePattern, EnginePattern,
    TransmissionPattern, SuspensionPattern, TowingPattern, ModelPattern, BrandPattern
  ]

  /** `s.substring(0, n)`. */
  function Prefix(s: string, n: nat): (r: string)
    ensures |r| == if |s| < n then |s| else n
    ensures r <= s
  {
    s[..if |s| < n then |s| else n]
  }

  /**
   * `parseFloat` on the strings it is given here, which hold only digits: the
   * value of the leading digits, or `None` for `NaN` when there is none.
   */
  function ParseDigits(s: string): (r: Option<nat>)
    ensures r.None? <==> (s == [] || !IsDigit(s[0]))
  {
    var n := LeadingDigits(s);
    if n == 0 then None else Some(DigitsValue(s[..n]))
  }

  /** The number of digits `s` starts with. */
  function LeadingDigits(s: string): (n: nat)
    ensures n <= |s|
    ensures forall i :: 0 <= i < n ==> IsDigit(s[i])
    ensures n == |s| || !IsDigit(s[n])
  {
    if s != [] && IsDigit(s[0]) then 1 + LeadingDigits(s[1..]) else 0
  }

  /** The price an accepted match yields: group 2 without commas, parsed, above the threshold. */
  function PriceOf(m: Match, t: string): (r: Option<nat>)
    requires Within(m, t)
    ensures r.Some? ==> r.value > PriceThreshold
  {
    match ParseDigits(StripCommas(Group(m, t)))
    case None => None
    case Some(v) => if v > PriceThreshold then Some(v) else None
  }

  /** The keys extractor `pat` may write. */
  function KeysOf(pat: Pattern): set<Field> {
    match pat
    case PricePattern => {Price}
    case YearPattern => {Year}
    case VinPattern => {Vin}
    case MileagePattern => {Mileage}
    case EnginePattern => {EngineShort, EngineFull}
    case TransmissionPattern => {TransmissionShort, TransmissionFull}
    case SuspensionPattern => {SuspensionShort, SuspensionFull}
    case TowingPattern => {TowingCapacity}
    case ModelPattern => {Model}
    case BrandPattern => {Brand}
  }

  /** The extractor of `pat`: what it adds to the updates object for a given text. */
  function ExtractorOf(pat: Pattern): string -> map<Field, Value> {
    match pat
    case PricePattern => PriceUpdate
    case YearPattern => YearUpdate
    case VinPattern => VinUpdate
    case MileagePattern => MileageUpdate
    case EnginePattern => EngineUpdate
    case TransmissionPattern => TransmissionUpdate
    case SuspensionPattern => SuspensionUpdate
    case TowingPattern => TowingUpdate
    case ModelPattern => ModelUpdate
    case BrandPattern => BrandUpdate
  }

  /** What extractor `pat` adds to the updates object for text `t`: only its own keys. */
  function Contribution(pat: Pattern, t: string): (r: map<Field, Value>)
    ensures r.Keys <= KeysOf(pat)
  {
    ExtractorOf(pat)(t)
  }

  /** `updates.price = rawPrice` when the first price match parses above the threshold. */
  function PriceUpdate(t: string): map<Field, Value> {
    match MatchIn(PriceAt, t)
    case None => map[]
    case Some(m) =>
      match PriceOf(m, t)
      case None => map[]
      case Some(v) => map[Price := Num(v)]
  }

  function YearUpdate(t: string): map<Field, Value> {
    match MatchIn(YearAt, t)
    case None => map[]
    case Some(m) => map[Year := Str(Group(m, t))]
  }

  function VinUpdate(t: string): map<Field, Value> {
    match MatchIn(VinAt, t)
    case None => map[]
    case Some(m) => map[Vin := Str(Upper(Whole(m, t)))]
  }

  function MileageUpdate(t: string): map<Field, Value> {
    match MatchIn(MileageAt, t)
    case None => map[]
    case Some(m) => map[Mileage := Str(Whole(m, t))]
  }

  function EngineUpdate(t: string): map<Field, Value> {
    match MatchIn(EngineAt, t)
    case None => map[]
    case Some(m) => map[EngineShort := Str(Group(m, t)), EngineFull := Str(Whole(m, t))]
  }

  function TransmissionUpdate(t: string): map<Field, Value> {
    match MatchIn(TransmissionAt, t)
    case None => map[]
    case Some(m) =>
      var run := Group(m, t);
      if |run| > RunGate
      then map[TransmissionShort := Str(Prefix(run, ShortLength)), TransmissionFull := Str(Whole(m, t))]
      else map[]
  }

  function SuspensionUpdate(t: string): map<Field, Value> {
    match MatchIn(SuspensionAt, t)
    case None => map[]
    case Some(m) =>
      var run := Group(m, t);
      if |run| > RunGate
      then map[SuspensionShort := Str(Prefix(run, ShortLength)), SuspensionFull := Str(run)]
      else map[]
  }

  function TowingUpdate(t: string): map<Field, Value> {
    match MatchIn(TowingAt, t)
    case None => map[]
    case Some(m) => map[TowingCapacity := Str(Group(m, t))]
  }

  function ModelUpdate(t: string): map<Field, Value> {
    match MatchIn(ModelAt, t)
    case None => map[]
    case Some(m) => map[Model := Str(Whole(m, t))]
  }

  function BrandUpdate(t: string): map<Field, Value> {
    match MatchIn(BrandAt, t)
    case None => map[]
    case Some(m) => map[Brand := Str(Whole(m, t))]
  }

  /** The updates object after the extractors `pats` have run, in order, over `t`. */
  function Merged(pats: seq<Pattern>, t: string): map<Field, Value>
    decreases |pats|
  {
    if pats == [] then map[]
    else Merged(pats[..|pats| - 1], t) + Contribution(pats[|pats| - 1], t)
  }

  /** Every field the smart import can fill. */
  const AllFields: set<Field> := {
    Price, Year, Vin, Mileage, EngineShort, EngineFull, TransmissionShort, TransmissionFull,
    SuspensionShort, SuspensionFull, TowingCapacity, Model, Brand
  }

  /**
   * The updates object `parseTextToData(t)` is meant to return, field by field:
   * each field holds what its own extractor gives, if anything.
   */
  function Updates(t: string): map<Field, Value> {
    map f | f in AllFields && f in Contribution(Owner(f), t) :: Contribution(Owner(f), t)[f]
  }

  /** The extractor that writes field `f`. */
  function Owner(f: Field): (pat: Pattern)
    ensures f in KeysOf(pat)
  {
    match f
    case Price => PricePattern
    case Year => YearPattern
    case Vin => VinPattern
    case Mileage => MileagePattern
    case EngineShort | EngineFull => EnginePattern
    case TransmissionShort | TransmissionFull => TransmissionPattern
    case SuspensionShort | SuspensionFull => SuspensionPattern
    case TowingCapacity => TowingPattern
    case Model => ModelPattern
    case Brand => BrandPattern
  }

  /** A key belongs to one extractor only. */
  lemma KeysOfOwner(f: Field, pat: Pattern)
    ensures f in KeysOf(pat) <==> pat == Owner(f)
  {
  }

  /** Every extractor takes part in `parseTextToData`. */
  lemma AllExtractorsRun(pat: Pattern)
    ensures pat in Extractors
  {
    match pat
    case PricePattern => assert Extractors[0] == pat;
    case YearPattern => assert Extractors[1] == pat;
    case VinPattern => assert Extractors[2] == pat;
    case MileagePattern => assert Extractors[3] == pat;
    case EnginePattern => assert Extractors[4] == pat;
    case TransmissionPattern => assert Extractors[5] == pat;
    case SuspensionPattern => assert Extractors[6] == pat;
    case TowingPattern => assert Extractors[7] == pat;
    case ModelPattern => assert Extractors[8] == pat;
    case BrandPattern => assert Extractors[9] == pat;
  }

  /**
   * After any run of extractors, a field holds what its own extractor gave,
   * if that extractor ran: no assignment overwrites another extractor's key.
   */
  lemma {:induction false} MergedByOwner(pats: seq<Pattern>, t: string, f: Field)
    ensures f in Merged(pats, t) <==> Owner(f) in pats && f in Contribution(Owner(f), t)
    ensures f in Merged(pats, t) ==> Merged(pats, t)[f] == Contribution(Owner(f), t)[f]
    decreases |pats|
  {
    if pats != [] {
      var init, last := pats[..|pats| - 1], pats[|pats| - 1];
      assert pats == init + [last];
      MergedByOwner(init, t, f);
      KeysOfOwner(f, last);
    }
  }

  lemma FieldListed(f: Field)
    ensures f in AllFields
  {
    match f
    case Price =>
    case Year =>
    case Vin =>
    case Mileage =>
    case EngineShort =>
    case EngineFull =>
    case TransmissionShort =>
    case TransmissionFull =>
    case SuspensionShort =>
    case SuspensionFull =>
    case TowingCapacity =>
    case Model =>
    case Brand =>
  }

  /** Each field of the updates object is exactly what its own extractor gives. */
  lemma UpdatesByOwner(t: string, f: Field)
    ensures f in Updates(t) <==> f in Contribution(Owner(f), t)
    ensures f in Updates(t) ==> Updates(t)[f] == Contribution(Owner(f), t)[f]
  {
    FieldListed(f);
  }

  /**
   * No two extractors write the same key, so running them one after the other
   * gives what each field's own extractor gives: the order of the assignments
   * does not matter.
   */
  lemma SequentialIsFieldwise(t: string)
    ensures Merged(Extractors, t) == Updates(t)
  {
    forall f ensures (f in Merged(Extractors, t) <==> f in Updates(t))
      && (f in Updates(t) ==> Merged(Extractors, t)[f] == Updates(t)[f])
    {
      MergedByOwner(Extractors, t, f);
      AllExtractorsRun(Owner(f));
      UpdatesByOwner(t, f);
    }
  }

  /** An extractor whose pattern matches nowhere in the text contributes nothing. */
  lemma NoMatchNoContribution(pat: Pattern, t: string)
    requires MatchIn(Matcher(pat), t).None?
    ensures Contribution(pat, t) == map[]
  {
    match pat
    case PricePattern => PriceContribution(t);
    case YearPattern => YearContribution(t);
    case VinPattern => VinContribution(t);
    case MileagePattern => MileageContribution(t);
    case EnginePattern => EngineContribution(t);
    case TransmissionPattern => TransmissionContribution(t);
    case SuspensionPattern => SuspensionContribution(t);
    case TowingPattern => TowingContribution(t);
    case ModelPattern => ModelContribution(t);
    case BrandPattern => BrandContribution(t);
  }

  /** The ten extractors' contributions merged in the order they run. */
  function InOrder(t: string): map<Field, Value> {
    map[] + Contribution(PricePattern, t) + Contribution(YearPattern, t) + Contribution(VinPattern, t)
      + Contribution(MileagePattern, t) + Contribution(EnginePattern, t) + Contribution(TransmissionPattern, t)
      + Contribution(SuspensionPattern, t) + Contribution(TowingPattern, t) + Contribution(ModelPattern, t)
      + Contribution(BrandPattern, t)
  }

  /** The fold over any ten extractors, written out one merge at a time. */
  lemma MergedOfTen(ps: seq<Pattern>, t: string)
    requires |ps| == 10
    ensures Merged(ps, t) == map[] + Contribution(ps[0], t) + Contribution(ps[1], t) + Contribution(ps[2], t)
      + Contribution(ps[3], t) + Contribution(ps[4], t) + Contribution(ps[5], t)
      + Contribution(ps[6], t) + Contribution(ps[7], t) + Contribution(ps[8], t)
      + Contribution(ps[9], t)
  {
    assert ps[..0] == [];
    MergedStep(ps, 0, t);
    MergedStep(ps, 1, t);
    MergedStep(ps, 2, t);
    MergedStep(ps, 3, t);
    MergedStep(ps, 4, t);
    MergedStep(ps, 5, t);
    MergedStep(ps, 6, t);
    MergedStep(ps, 7, t);
    MergedStep(ps, 8, t);
    MergedStep(ps, 9, t);
    assert ps[..10] == ps;
  }

  /** One more extractor run. */
  lemma MergedStep(ps: seq<Pattern>, k: nat, t: string)
    requires k < |ps|
    ensures Merged(ps[..k + 1], t) == Merged(ps[..k], t) + Contribution(ps[k], t)
  {
    assert ps[..k + 1][..k] == ps[..k];
  }

  /** The written-out fold is the fold over `Extractors`. */
  lemma InOrderIsMerged(t: string)
    ensures InOrder(t) == Merged(Extractors, t)
  {
    MergedOfTen(Extractors, t);
  }

  /**
   * `parseTextToData`: starts from an empty updates object and runs the ten
   * extractors over the text, one after the other, each assigning its keys.
   */
  method ParseTextToData(text: string) returns (updates: map<Field, Value>)
    ensures updates == Updates(text)
  {
    updates := map[];
    updates := AssignPrice(text, updates);
    updates := AssignYear(text, updates);
    updates := AssignVin(text, updates);
    updates := AssignMileage(text, updates);
    updates := AssignEngine(text, updates);
    updates := AssignTransmission(text, updates);
    updates := AssignSuspension(text, updates);
    updates := AssignTowing(text, updates);
    updates := AssignModel(text, updates);
    updates := AssignBrand(text, updates);
    InOrderIsMerged(text);
    SequentialIsFieldwise(text);
  }

  /** Assigning one key is merging a one-key object. */
  lemma AssignOne(u: map<Field, Value>, f: Field, v: Value)
    ensures u[f := v] == u + map[f := v]
  {
  }

  /** Assigning two keys in turn is merging a two-key object. */
  lemma AssignTwo(u: map<Field, Value>, f: Field, v: Value, g: Field, w: Value)
    requires f != g
    ensures u[f := v][g := w] == u + map[f := v, g := w]
  {
  }

  /** The price extractor's match, and what it contributes. */
  lemma PriceContribution(text: string)
    ensures var m := MatchIn(PriceAt, text);
      m.Some? ==> Within(m.value, text)
    ensures var m := MatchIn(PriceAt, text);
      if m.Some? && ParseDigits(StripCommas(Group(m.value, text))).Some?
        && ParseDigits(StripCommas(Group(m.value, text))).value > PriceThreshold
      then Contribution(PricePattern, text) == map[Price := Num(ParseDigits(StripCommas(Group(m.value, text))).value)]
      else Contribution(PricePattern, text) == map[]
  {
  }

  method AssignPrice(text: string, updates: map<Field, Value>) returns (r: map<Field, Value>)
    ensures r == updates + Contribution(PricePattern, text)
  {
    PriceContribution(text);
    r := updates;
    var priceMatch := MatchIn(PriceAt, text);
    if priceMatch.Some? {
      var rawPrice := ParseDigits(StripCommas(Group(priceMatch.value, text)));
      if rawPrice.Some? && rawPrice.value > PriceThreshold {
        r := r[Price := Num(rawPrice.value)];
        AssignOne(updates, Price, Num(rawPrice.value));
      }
    }
  }

  /** The year extractor's match, and what it contributes. */
  lemma YearContribution(text: string)
    ensures var m := MatchIn(YearAt, text);
      m.Some? ==> Within(m.value, text)
    ensures var m := MatchIn(YearAt, text);
      if m.Some?
      then Contribution(YearPattern, text) == map[Year := Str(Group(m.value, text))]
      else Contribution(YearPattern, text) == map[]
  {
  }

  method AssignYear(text: string, updates: map<Field, Value>) returns (r: map<Field, Value>)
    ensures r == updates + Contribution(YearPattern, text)
  {
    YearContribution(text);
    r := updates;
    var yearMatch := MatchIn(YearAt, text);
    if yearMatch.Some? {
      r := r[Year := Str(Group(yearMatch.value, text))];
      AssignOne(updates, Year, Str(Group(yearMatch.value, text)));
    }
  }

  /** The vin extractor's match, and what it contributes. */
  lemma VinContribution(text: string)
    ensures var m := MatchIn(VinAt, text);
      m.Some? ==> Within(m.value, text)
    ensures var m := MatchIn(VinAt, text);
      if m.Some?
      then Contribution(VinPattern, text) == map[Vin := Str(Upper(Whole(m.value, text)))]
      else Contribution(VinPattern, text) == map[]
  {
  }

  method AssignVin(text: string, updates: map<Field, Value>) returns (r: map<Field, Value>)
    ensures r == updates + Contribution(VinPattern, text)
  {
    VinContribution(text);
    r := updates;
    var vinMatch := MatchIn(VinAt, text);
    if vinMatch.Some? {
      r := r[Vin := Str(Upper(Whole(vinMatch.value, text)))];
      AssignOne(updates, Vin, Str(Upper(Whole(vinMatch.value, text))));
    }
  }

  /** The mileage extractor's match, and what it contributes. */
  lemma MileageContribution(text: string)
    ensures var m := MatchIn(MileageAt, text);
      m.Some? ==> Within(m.value, text)
    ensures var m := MatchIn(MileageAt, text);
      if m.Some?
      then Contribution(MileagePattern, text) == map[Mileage := Str(Whole(m.value, text))]
      else Contribution(MileagePattern, text) == map[]
  {
  }

  method AssignMileage(text: string, updates: map<Field, Value>) returns (r: map<Field, Value>)
    ensures r == updates + Contribution(MileagePattern, text)
  {
    MileageContribution(text);
    r := updates;
    var mileageMatch := MatchIn(MileageAt, text);
    if mileageMatch.Some? {
      r := r[Mileage := Str(Whole(mileageMatch.value, text))];
      AssignOne(updates, Mileage, Str(Whole(mileageMatch.value, text)));
    }
  }

  /** The engine extractor's match, and what it contributes. */
  lemma EngineContribution(text: string)
    ensures var m := MatchIn(EngineAt, text);
      m.Some? ==> Within(m.value, text)
    ensures var m := MatchIn(EngineAt, text);
      if m.Some?
      then Contribution(EnginePattern, text) == map[EngineShort := Str(Group(m.value, text)), EngineFull := Str(Whole(m.value, text))]
      else Contribution(EnginePattern, text) == map[]
  {
  }

  method AssignEngine(text: string, updates: map<Field, Value>) returns (r: map<Field, Value>)
    ensures r == updates + Contribution(EnginePattern, text)
  {
    EngineContribution(text);
    r := updates;
    var engineMatch := MatchIn(EngineAt, text);
    if engineMatch.Some? {
      r := r[EngineShort := Str(Group(engineMatch.value, text))];
      r := r[EngineFull := Str(Whole(engineMatch.value, text))];
      AssignTwo(updates, EngineShort, Str(Group(engineMatch.value, text)), EngineFull, Str(Whole(engineMatch.value, text)));
    }
  }

  /** The transmission extractor's match, and what it contributes. */
  lemma TransmissionContribution(text: string)
    ensures var m := MatchIn(TransmissionAt, text);
      m.Some? ==> Within(m.value, text)
    ensures var m := MatchIn(TransmissionAt, text);
      if m.Some? && |Group(m.value, text)| > RunGate
      then Contribution(TransmissionPattern, text) == map[TransmissionShort := Str(Prefix(Group(m.value, text), ShortLength)), TransmissionFull := Str(Whole(m.value, text))]
      else Contribution(TransmissionPattern, text) == map[]
  {
  }

  method AssignTransmission(text: string, updates: map<Field, Value>) returns (r: map<Field, Value>)
    ensures r == updates + Contribution(TransmissionPattern, text)
  {
    TransmissionContribution(text);
    r := updates;
    var transMatch := MatchIn(TransmissionAt, text);
    if transMatch.Some? && |Group(transMatch.value, text)| > RunGate {
      r := r[TransmissionShort := Str(Prefix(Group(transMatch.value, text), ShortLength))];
      r := r[TransmissionFull := Str(Whole(transMatch.value, text))];
      AssignTwo(updates, TransmissionShort, Str(Prefix(Group(transMatch.value, text), ShortLength)), TransmissionFull, Str(Whole(transMatch.value, text)));
    }
  }

  /** The suspension extractor's match, and what it contributes. */
  lemma SuspensionContribution(text: string)
    ensures var m := MatchIn(SuspensionAt, text);
      m.Some? ==> Within(m.value, text)
    ensures var m := MatchIn(SuspensionAt, text);
      if m.Some? && |Group(m.value, text)| > RunGate
      then Contribution(SuspensionPattern, text) == map[SuspensionShort := Str(Prefix(Group(m.value, text), ShortLength)), SuspensionFull := Str(Group(m.value, text))]
      else Contribution(SuspensionPattern, text) == map[]
  {
  }

  method AssignSuspension(text: string, updates: map<Field, Value>) returns (r: map<Field, Value>)
    ensures r == updates + Contribution(SuspensionPattern, text)
  {
    SuspensionContribution(text);
    r := updates;
    var suspMatch := MatchIn(SuspensionAt, text);
    if suspMatch.Some? && |Group(suspMatch.value, text)| > RunGate {
      r := r[SuspensionShort := Str(Prefix(Group(suspMatch.value, text), ShortLength))];
      r := r[SuspensionFull := Str(Group(suspMatch.value, text))];
      AssignTwo(updates, SuspensionShort, Str(Prefix(Group(suspMatch.value, text), ShortLength)), SuspensionFull, Str(Group(suspMatch.value, text)));
    }
  }

  /** The towing extractor's match, and what it contributes. */
  lemma TowingContribution(text: string)
    ensures var m := MatchIn(TowingAt, text);
      m.Some? ==> Within(m.value, text)
    ensures var m := MatchIn(TowingAt, text);
      if m.Some?
      then Contribution(TowingPattern, text) == map[TowingCapacity := Str(Group(m.value, text))]
      else Contribution(TowingPattern, text) == map[]
  {
  }

  method AssignTowing(text: string, updates: map<Field, Value>) returns (r: map<Field, Value>)
    ensures r == updates + Contribution(TowingPattern, text)
  {
    TowingContribution(text);
    r := updates;
    var towMatch := MatchIn(TowingAt, text);
    if towMatch.Some? {
      r := r[TowingCapacity := Str(Group(towMatch.value, text))];
      AssignOne(updates, TowingCapacity, Str(Group(towMatch.value, text)));
    }
  }

  /** The model extractor's match, and what it contributes. */
  lemma ModelContribution(text: string)
    ensures var m := MatchIn(ModelAt, text);
      m.Some? ==> Within(m.value, text)
    ensures var m := MatchIn(ModelAt, text);
      if m.Some?
      then Contribution(ModelPattern, text) == map[Model := Str(Whole(m.value, text))]
      else Contribution(ModelPattern, text) == map[]
  {
  }

  method AssignModel(text: string, updates: map<Field, Value>) returns (r: map<Field, Value>)
    ensures r == updates + Contribution(ModelPattern, text)
  {
    ModelContribution(text);
    r := updates;
    var modelMatch := MatchIn(ModelAt, text);
    if modelMatch.Some? {
      r := r[Model := Str(Whole(modelMatch.value, text))];
      AssignOne(updates, Model, Str(Whole(modelMatch.value, text)));
    }
  }

  /** The brand extractor's match, and what it contributes. */
  lemma BrandContribution(text: string)
    ensures var m := MatchIn(BrandAt, text);
      m.Some? ==> Within(m.value, text)
    ensures var m := MatchIn(BrandAt, text);
      if m.Some?
      then Contribution(BrandPattern, text) == map[Brand := Str(Whole(m.value, text))]
      else Contribution(BrandPattern, text) == map[]
  {
  }

  method AssignBrand(text: string, updates: map<Field, Value>) returns (r: map<Field, Value>)
    ensures r == updates + Contribution(BrandPattern, text)
  {
    BrandContribution(text);
    r := updates;
    var brandMatch := MatchIn(BrandAt, text);
    if brandMatch.Some? {
      r := r[Brand := Str(Whole(brandMatch.value, text))];
      AssignOne(updates, Brand, Str(Whole(brandMatch.value, text)));
    }
  }
}
