/**
 * What `parseTextToData` promises about the fields it fills. Each `...Field`
 * lemma states what one extractor contributes, against the leftmost match of
 * its pattern rather than against the code that finds it; by
 * `SmartImport.UpdatesByOwner` the updates object holds exactly that
 * contribution for those keys, since no other extractor writes them. The
 * remaining lemmas are about the updates object as a whole.
 */
module ParseProperties {
  import opened Wrappers
  import opened TextScan
  import opened Patterns
  import opened Fields
  import opened SmartImport

  /** A field is filled only if its pattern matches somewhere in the text. */
  lemma NoMatchNoField(t: string, f: Field)
    requires NoneFrom(Matcher(Owner(f)), t, 0)
    ensures f !in Updates(t)
  {
    UpdatesByOwner(t, f);
    MatchInFails(Matcher(Owner(f)), t);
    NoMatchNoContribution(Owner(f), t);
  }

  /** The empty text, which no pattern matches, gives the empty updates object. */
  lemma EmptyTextGivesNoUpdates()
    ensures Updates("") == map[]
  {
    forall f | f in Updates("") ensures false {
      NoMatchNoField("", f);
    }
  }

  /** The keys come in pairs: the two engine keys, the two transmission keys and the two suspension keys are set together. */
  lemma PairedKeys(t: string)
    ensures EngineShort in Updates(t) <==> EngineFull in Updates(t)
    ensures TransmissionShort in Updates(t) <==> TransmissionFull in Updates(t)
    ensures SuspensionShort in Updates(t) <==> SuspensionFull in Updates(t)
  {
    EngineKeysTogether(t);
    TransmissionKeysTogether(t);
    SuspensionKeysTogether(t);
  }

  /** Two keys the same extractor contributes together are set together in the updates object. */
  lemma OwnedPair(t: string, f: Field, g: Field, pat: Pattern)
    requires Owner(f) == pat && Owner(g) == pat
    requires f in Contribution(pat, t) <==> g in Contribution(pat, t)
    ensures f in Updates(t) <==> g in Updates(t)
  {
    UpdatesByOwner(t, f);
    UpdatesByOwner(t, g);
  }

  lemma EngineKeysTogether(t: string)
    ensures EngineShort in Updates(t) <==> EngineFull in Updates(t)
  {
    EngineContribution(t);
    OwnedPair(t, EngineShort, EngineFull, EnginePattern);
  }

  lemma TransmissionKeysTogether(t: string)
    ensures TransmissionShort in Updates(t) <==> TransmissionFull in Updates(t)
  {
    TransmissionContribution(t);
    OwnedPair(t, TransmissionShort, TransmissionFull, TransmissionPattern);
  }

  lemma SuspensionKeysTogether(t: string)
    ensures SuspensionShort in Updates(t) <==> SuspensionFull in Updates(t)
  {
    SuspensionContribution(t);
    OwnedPair(t, SuspensionShort, SuspensionFull, SuspensionPattern);
  }

  /** The value of a digit run once its commas are removed. */
  predicate PriceDigits(m: Match, t: string, digits: string)
    requires Within(m, t)
  {
    digits == StripCommas(Group(m, t)) && forall i :: 0 <= i < |digits| ==> IsDigit(digits[i])
  }

  /** `parseFloat` of a string of digits is its value, or `NaN` when it is empty. */
  lemma ParseDigitsOfDigits(s: string)
    requires forall i :: 0 <= i < |s| ==> IsDigit(s[i])
    ensures ParseDigits(s) == if s == [] then None else Some(DigitsValue(s))
  {
    assert s[..|s|] == s;
  }

  /**
   * A run of digits and commas, without its commas, is a string of digits, and
   * it is accepted as a price exactly when it is worth more than 1000.
   */
  lemma PriceOfDigitRun(m: Match, t: string)
    requires Within(m, t) && DigitsAndCommas(Group(m, t))
    ensures var digits := StripCommas(Group(m, t)); var raw := ParseDigits(digits);
      && PriceDigits(m, t, digits)
      && (raw.Some? && raw.value > PriceThreshold <==> DigitsValue(digits) > PriceThreshold)
      && (raw.Some? ==> raw.value == DigitsValue(digits))
  {
    ParseDigitsOfDigits(StripCommas(Group(m, t)));
  }

  /**
   * `price` is set exactly when the leftmost price match has a digit run that,
   * without its commas, is worth more than 1000; the value is that number, the
   * `.dd` fraction not included. A rejected first match is not retried.
   */
  lemma PriceField(t: string, p: nat)
    requires LeftmostAt(PriceAt, t, p)
    ensures var m := PriceAt(t, p).value; var digits := StripCommas(Group(m, t));
      && PriceDigits(m, t, digits)
      && (Price in Contribution(PricePattern, t) <==> DigitsValue(digits) > PriceThreshold)
      && (Price in Contribution(PricePattern, t) ==> Contribution(PricePattern, t)[Price] == Num(DigitsValue(digits)))
  {
    PriceContribution(t);
    MatchInIsLeftmost(PriceAt, t, p);
    PriceOfDigitRun(PriceAt(t, p).value, t);
  }

  /** `year` is the leftmost whole word of four digits worth 2010 to 2029. */
  lemma YearField(t: string, p: nat)
    requires LeftmostAt(YearAt, t, p)
    ensures p + 4 <= |t| && Boundary(t, p) && Boundary(t, p + 4) && IsModelYear(t[p..p + 4])
    ensures Year in Contribution(YearPattern, t) && Contribution(YearPattern, t)[Year] == Str(t[p..p + 4])
  {
    YearContribution(t);
    MatchInIsLeftmost(YearAt, t, p);
    YearAtIsModelYear(t, p);
  }

  /** `vin` is the leftmost whole word of seventeen VIN characters, upper-cased: seventeen characters of the VIN alphabet. */
  lemma VinField(t: string, p: nat)
    requires LeftmostAt(VinAt, t, p)
    ensures p + 17 <= |t| && Boundary(t, p) && Boundary(t, p + 17)
    ensures Vin in Contribution(VinPattern, t) && Contribution(VinPattern, t)[Vin] == Str(Upper(t[p..p + 17]))
    ensures var v := Upper(t[p..p + 17]); |v| == 17 && forall i :: 0 <= i < 17 ==> IsVinLetterOrDigit(v[i])
  {
    VinContribution(t);
    MatchInIsLeftmost(VinAt, t, p);
    VinMatchShape(t, p);
  }

  /** `mileage` is the whole leftmost mileage match, which starts with a digit or comma and ends with `km`, `millas` or `miles`, never `kms`. */
  lemma MileageField(t: string, p: nat)
    requires LeftmostAt(MileageAt, t, p)
    ensures var m := MileageAt(t, p).value;
      && InClass(DigitOrComma, t[p]) && m.groupEnd == m.end && IsRecordedUnit(Group(m, t))
      && Mileage in Contribution(MileagePattern, t) && Contribution(MileagePattern, t)[Mileage] == Str(Whole(m, t))
  {
    MileageContribution(t);
    MatchInIsLeftmost(MileageAt, t, p);
    MileageUnitIsNotKms(t, p);
  }

  /** `engineShort` is the maker of the leftmost engine match, ignoring case, and a prefix of `engineFull`, the whole match. */
  lemma EngineFields(t: string, p: nat)
    requires LeftmostAt(EngineAt, t, p)
    ensures var m := EngineAt(t, p).value;
      && EngineShort in Contribution(EnginePattern, t) && Contribution(EnginePattern, t)[EngineShort] == Str(Group(m, t))
      && EngineFull in Contribution(EnginePattern, t) && Contribution(EnginePattern, t)[EngineFull] == Str(Whole(m, t))
      && Group(m, t) <= Whole(m, t)
      && exists i :: 0 <= i < |EngineMakers| && SameIgnoringCase(Group(m, t), EngineMakers[i])
  {
    EngineContribution(t);
    MatchInIsLeftmost(EngineAt, t, p);
    EngineMatchShape(t, p);
  }

  /** The unfiltered text of a transmission or suspension run: `run.substring(0, 15)` keeps its first fifteen characters. */
  predicate IsShortText(short: string, run: string) {
    short <= run && |short| == if |run| < ShortLength then |run| else ShortLength
  }

  /**
   * The transmission keys are set exactly when the run of the leftmost
   * transmission match is longer than three characters; the short text is the
   * run's first fifteen characters, the full text the whole match, which starts
   * with the keyword. An accepted run never starts with whitespace.
   */
  lemma TransmissionFields(t: string, p: nat)
    requires LeftmostAt(TransmissionAt, t, p)
    ensures var m := TransmissionAt(t, p).value; var run := Group(m, t); var u := Contribution(TransmissionPattern, t);
      && (TransmissionShort in u <==> |run| > RunGate)
      && (TransmissionFull in u <==> |run| > RunGate)
      && (TransmissionShort in u ==>
            && u[TransmissionShort].Str? && IsShortText(u[TransmissionShort].s, run)
            && u[TransmissionFull] == Str(Whole(m, t))
            && StartsWithOneOf(Whole(m, t), TransmissionKeywords)
            && !IsSpace(run[0]))
  {
    TransmissionContribution(t);
    MatchInIsLeftmost(TransmissionAt, t, p);
    TransmissionMatchShape(t, p);
  }

  /**
   * The suspension keys are set exactly when the run of the leftmost
   * suspension match is longer than three characters; the short text is the
   * run's first fifteen characters and the full text is the run itself.
   */
  lemma SuspensionFields(t: string, p: nat)
    requires LeftmostAt(SuspensionAt, t, p)
    ensures var m := SuspensionAt(t, p).value; var run := Group(m, t); var u := Contribution(SuspensionPattern, t);
      && StartsWithOneOf(Whole(m, t), SuspensionStarts)
      && (SuspensionShort in u <==> |run| > RunGate)
      && (SuspensionFull in u <==> |run| > RunGate)
      && (SuspensionShort in u ==>
            && u[SuspensionShort].Str? && IsShortText(u[SuspensionShort].s, run)
            && u[SuspensionFull] == Str(run)
            && !IsSpace(run[0]))
  {
    SuspensionContribution(t);
    MatchInIsLeftmost(SuspensionAt, t, p);
    SuspensionMatchShape(t, p);
  }

  /** `towingCapacity` is group 2 of the leftmost towing match: digits first and a unit last. */
  lemma TowingField(t: string, p: nat)
    requires LeftmostAt(TowingAt, t, p)
    ensures var m := TowingAt(t, p).value;
      && TowingCapacity in Contribution(TowingPattern, t) && Contribution(TowingPattern, t)[TowingCapacity] == Str(Group(m, t))
      && IsTowingCapacity(Group(m, t))
  {
    TowingContribution(t);
    MatchInIsLeftmost(TowingAt, t, p);
  }

  /** `model` is the leftmost occurrence of a model name, ignoring case, even inside a longer word. */
  lemma ModelField(t: string, p: nat)
    requires LeftmostAt(ModelAt, t, p)
    ensures var m := ModelAt(t, p).value;
      && Model in Contribution(ModelPattern, t) && Contribution(ModelPattern, t)[Model] == Str(Whole(m, t))
      && exists i :: 0 <= i < |ModelNames| && SameIgnoringCase(Whole(m, t), ModelNames[i])
  {
    ModelContribution(t);
    MatchInIsLeftmost(ModelAt, t, p);
    NameMatchShape(t, p, ModelNames);
  }

  /** `brand` is the leftmost occurrence of a brand name, ignoring case, even inside a longer word. */
  lemma BrandField(t: string, p: nat)
    requires LeftmostAt(BrandAt, t, p)
    ensures var m := BrandAt(t, p).value;
      && Brand in Contribution(BrandPattern, t) && Contribution(BrandPattern, t)[Brand] == Str(Whole(m, t))
      && exists i :: 0 <= i < |BrandNames| && SameIgnoringCase(Whole(m, t), BrandNames[i])
  {
    BrandContribution(t);
    MatchInIsLeftmost(BrandAt, t, p);
    NameMatchShape(t, p, BrandNames);
  }
}
