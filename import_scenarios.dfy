/**
 * Worked examples of the smart import on short texts, each pinned down
 * through the leftmost match of the pattern involved.
 */
module ImportScenarios {
  import opened Wrappers
  import opened TextScan
  import opened Patterns
  import opened Fields
  import opened SmartImport
  import opened ParseProperties

  /** `t` is the text `w`, character by character. */
  predicate Spells(t: string, w: string) {
    |t| == |w| && forall i :: 0 <= i < |w| ==> t[i] == w[i]
  }

  /** The mileage pattern matches `100 kms` from its first character, leaving the final `s` out. */
  lemma MileageOfKms(t: string)
    requires Spells(t, "100 kms")
    ensures MileageAt(t, 0) == Some(Match(0, 6, 4, 6))
  {
    assert RunEnd(DigitOrComma, t, 2) == 3;
    assert RunEnd(DigitOrComma, t, 0) == 3;
    assert RunEnd(Whitespace, t, 3) == 4;
    assert KeywordAt(t, 4, MileageUnits[0]);
  }

  /** `100 kms` is read as `100 km`: the `km` alternative is tried first and nothing follows the unit. */
  lemma KmsIsReadAsKm(t: string)
    requires Spells(t, "100 kms")
    ensures Mileage in Updates(t) && Updates(t)[Mileage] == Str("100 km")
  {
    MileageOfKms(t);
    MileageField(t, 0);
    UpdatesByOwner(t, Mileage);
    assert t[0..6] == "100 km";
  }

  /** `Cascadias` starts with the model name `Cascadia`, the first of the names that matches there. */
  lemma ModelInCascadias(t: string)
    requires Spells(t, "Cascadias")
    ensures ModelAt(t, 0) == Some(Match(0, 8, 0, 8))
  {
    assert !KeywordAt(t, 0, ModelNames[0]) by { assert Fold(t[0]) != Fold(ModelNames[0][0]); }
    assert !KeywordAt(t, 0, ModelNames[1]) by { assert Fold(t[0]) != Fold(ModelNames[1][0]); }
    assert KeywordAt(t, 0, ModelNames[2]);
  }

  /** The model pattern has no word boundaries, so the plural `Cascadias` records the model `Cascadia`. */
  lemma PluralModelIsRecorded(t: string)
    requires Spells(t, "Cascadias")
    ensures Model in Updates(t) && Updates(t)[Model] == Str("Cascadia")
  {
    ModelInCascadias(t);
    ModelField(t, 0);
    UpdatesByOwner(t, Model);
    assert t[0..8] == "Cascadia";
  }

  /** The engine pattern takes the maker, one space and the longest run of letters, digits and spaces. */
  lemma EngineOfCummins(t: string)
    requires Spells(t, "Cummins ISX15")
    ensures EngineAt(t, 0) == Some(Match(0, 13, 0, 7))
  {
    assert KeywordAt(t, 0, EngineMakers[0]);
    assert RunEnd(EngineModelChar, t, 11) == 13;
    assert RunEnd(EngineModelChar, t, 9) == 13;
    assert RunEnd(EngineModelChar, t, 8) == 13;
  }

  /** `Cummins ISX15` gives the maker as the short engine text and the whole match as the full one. */
  lemma CumminsEngine(t: string)
    requires Spells(t, "Cummins ISX15")
    ensures EngineShort in Updates(t) && Updates(t)[EngineShort] == Str("Cummins")
    ensures EngineFull in Updates(t) && Updates(t)[EngineFull] == Str("Cummins ISX15")
  {
    EngineOfCummins(t);
    EngineFields(t, 0);
    UpdatesByOwner(t, EngineShort);
    UpdatesByOwner(t, EngineFull);
    assert t[0..7] == "Cummins";
    assert t[0..13] == "Cummins ISX15";
  }

  /** After `Eaton`, the colon and the space, the run is `18`. */
  lemma TransmissionOfShortRun(t: string)
    requires Spells(t, "Eaton: 18")
    ensures TransmissionAt(t, 0) == Some(Match(0, 9, 7, 9))
  {
    assert KeywordAt(t, 0, TransmissionKeywords[0]);
    assert RunEnd(SpaceOrColon, t, 7) == 7;
    assert RunEnd(SpaceOrColon, t, 5) == 7;
    assert GroupStart(TransRunChar, t, 5, 7) == Some(7);
    assert RunEnd(TransRunChar, t, 7) == 9;
  }

  /** A transmission run of three characters or fewer sets neither transmission key. */
  lemma ShortTransmissionRunIsIgnored(t: string)
    requires Spells(t, "Eaton: 18")
    ensures TransmissionShort !in Updates(t) && TransmissionFull !in Updates(t)
  {
    TransmissionOfShortRun(t);
    TransmissionFields(t, 0);
    UpdatesByOwner(t, TransmissionShort);
    UpdatesByOwner(t, TransmissionFull);
  }

  /**
   * In `Suspension:` the full word leaves no run after the colon, so the engine
   * backtracks into the alternation: `Susp` matches and the run is `ension`.
   */
  lemma SuspensionFallsBackToSusp(t: string)
    requires Spells(t, "Suspension:")
    ensures FullSuspensionAt(t, 0).None?
    ensures SuspensionAt(t, 0) == Some(Match(0, 10, 4, 10))
  {
    assert KeywordAt(t, 0, SuspensionKeywords[0]);
    assert RunEnd(SpaceOrColon, t, 11) == 11;
    assert RunEnd(SpaceOrColon, t, 10) == 11;
    assert GroupStart(SuspRunChar, t, 10, 10).None?;
    assert GroupStart(SuspRunChar, t, 10, 11).None?;
    assert KeywordAt(t, 0, SuspensionAbbreviation);
    assert RunEnd(SpaceOrColon, t, 4) == 4;
    assert RunEnd(SuspRunChar, t, 10) == 10;
    assert RunEnd(SuspRunChar, t, 8) == 10;
    assert RunEnd(SuspRunChar, t, 6) == 10;
    assert RunEnd(SuspRunChar, t, 4) == 10;
  }

  /** In `Suspension:` the run of the suspension match is `ension`. */
  lemma SuspensionRunIsEnsion(t: string)
    requires Spells(t, "Suspension:")
    ensures SuspensionAt(t, 0).Some? && Group(SuspensionAt(t, 0).value, t) == "ension"
  {
    SuspensionFallsBackToSusp(t);
    assert t[4..10] == "ension";
  }

  /** `Suspension:` records the clipped word `ension` as both suspension texts. */
  lemma ClippedSuspensionWord(t: string)
    requires Spells(t, "Suspension:")
    ensures SuspensionShort in Updates(t) && Updates(t)[SuspensionShort] == Str("ension")
    ensures SuspensionFull in Updates(t) && Updates(t)[SuspensionFull] == Str("ension")
  {
    SuspensionRunIsEnsion(t);
    SuspensionFallsBackToSusp(t);
    SuspensionFields(t, 0);
    UpdatesByOwner(t, SuspensionShort);
    UpdatesByOwner(t, SuspensionFull);
  }

  /** `45,000` without its comma is `45000`. */
  lemma CommasOf45000()
    ensures StripCommas("45,000") == "45000"
  {
    var run := "45,000";
    assert StripCommas(run[5..]) == "0";
    assert StripCommas(run[4..]) == "00";
    assert StripCommas(run[3..]) == "000";
    assert StripCommas(run[2..]) == "000";
    assert StripCommas(run[1..]) == "5000";
  }

  /** `45000` is worth 45000. */
  lemma ValueOf45000()
    ensures DigitsValue("45000") == 45000
  {
    assert DigitsValue("4") == 4 by { assert "4"[..0] == ""; }
    assert DigitsValue("45") == 45 by { assert "45"[..1] == "4"; }
    assert DigitsValue("450") == 450 by { assert "450"[..2] == "45"; }
    assert DigitsValue("4500") == 4500 by { assert "4500"[..3] == "450"; }
    assert "45000"[..4] == "4500";
  }

  /** `500` has no comma and is worth 500. */
  lemma DigitsOf500()
    ensures StripCommas("500") == "500" && DigitsValue("500") == 500
  {
    var digits := "500";
    assert StripCommas(digits[2..]) == "0";
    assert StripCommas(digits[1..]) == "00";
    assert DigitsValue("5") == 5 by { assert "5"[..0] == ""; }
    assert DigitsValue("50") == 50 by { assert "50"[..1] == "5"; }
    assert digits[..2] == "50";
  }

  /** In `$45,000.00` the digit group is `45,000` and the cents are matched but not recorded. */
  lemma PriceOfDollars(t: string)
    requires Spells(t, "$45,000.00")
    ensures PriceAt(t, 0) == Some(Match(0, 10, 1, 7))
  {
    assert KeywordAt(t, 0, PriceMarkers[0]);
    assert RunEnd(DigitOrComma, t, 7) == 7;
    assert RunEnd(DigitOrComma, t, 5) == 7;
    assert RunEnd(DigitOrComma, t, 3) == 7;
    assert RunEnd(DigitOrComma, t, 1) == 7;
  }

  /** `$45,000.00` is the price 45000: commas removed, cents dropped. */
  lemma DollarsArePrice(t: string)
    requires Spells(t, "$45,000.00")
    ensures Price in Updates(t) && Updates(t)[Price] == Num(45000)
  {
    PriceOfDollars(t);
    PriceField(t, 0);
    UpdatesByOwner(t, Price);
    assert t[1..7] == "45,000";
    CommasOf45000();
    ValueOf45000();
  }

  /** In `$500 o $5000` the first price match is `$500`. */
  lemma PriceOfSmallAmount(t: string)
    requires Spells(t, "$500 o $5000")
    ensures PriceAt(t, 0) == Some(Match(0, 4, 1, 4))
  {
    assert KeywordAt(t, 0, PriceMarkers[0]);
    assert RunEnd(DigitOrComma, t, 3) == 4;
    assert RunEnd(DigitOrComma, t, 1) == 4;
  }

  /** A first price of 1000 or less is rejected, and the later `$5000` is never looked at. */
  lemma SmallFirstPriceIsNotRetried(t: string)
    requires Spells(t, "$500 o $5000")
    ensures Price !in Updates(t)
  {
    PriceOfSmallAmount(t);
    PriceField(t, 0);
    UpdatesByOwner(t, Price);
    assert t[1..4] == "500";
    DigitsOf500();
  }
}
