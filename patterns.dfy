/**
 * The ten regular expressions of `parseTextToData`, each written as a scanner
 * that decides whether the pattern matches at one start position, following
 * the backtracking order of JavaScript's engine (alternatives left to right,
 * greedy quantifiers longest first), and `MatchIn`, the left-to-right search
 * that `String.prototype.match` performs without the `g` flag.
 */
module Patterns {
  import opened Wrappers
  import opened TextScan

  /** The ten patterns, one per extractor, in the order of src/App.jsx lines 162 to 200. */
  datatype Pattern =
    | PricePattern         // a price marker, optional separators, a digit run and optional cents
    | YearPattern          // a whole word of four digits from 2010 to 2029, case-sensitive
    | VinPattern           // a whole word of seventeen VIN characters
    | MileagePattern       // a digit run, optional whitespace and a distance unit
    | EnginePattern        // an engine maker, an optional space and an optional model run
    | TransmissionPattern  // a transmission keyword, separators and a run
    | SuspensionPattern    // a suspension keyword, separators and a run
    | TowingPattern        // a towing keyword, separators, a digit run and a weight unit
    | ModelPattern         // one of the model names
    | BrandPattern         // one of the brand names

  /**
   * A successful match: the whole match is `t[start..end]`, and `t[groupStart..groupEnd]`
   * is the one capture group the resolver reads, or the whole match when it reads only that.
   */
  datatype Match = Match(start: nat, end: nat, groupStart: nat, groupEnd: nat)

  predicate Within(m: Match, t: string) {
    m.start <= m.groupStart <= m.groupEnd <= m.end <= |t|
  }

  function Whole(m: Match, t: string): string
    requires Within(m, t)
  {
    t[m.start..m.end]
  }

  function Group(m: Match, t: string): string
    requires Within(m, t)
  {
    t[m.groupStart..m.groupEnd]
  }

  const PriceMarkers: seq<string> := ["$", "precio", "valor"]
  const MileageUnits: seq<string> := ["km", "millas", "miles", "kms"]
  const EngineMakers: seq<string> := ["Cummins", "Detroit", "Paccar", "Volvo", "Navistar"]
  /** `Transmisi[oó]n` is written as its two spellings; they have the same length and exclude each other. */
  const TransmissionKeywords: seq<string> :=
    ["Eaton", "Fuller", "Allison", "Tremec", "Transmision", "Transmisi\U{F3}n"]
  const SuspensionKeywords: seq<string> := ["Suspension", "Suspensi\U{F3}n"]
  const SuspensionAbbreviation: string := "Susp"
  const TowingKeywords: seq<string> := ["Arrastre", "Capacidad", "Towing"]
  const TowingUnits: seq<string> := ["Lbs", "Kg", "Tons"]
  const ModelNames: seq<string> :=
    ["T680", "T800", "Cascadia", "VNL", "ProStar", "LT", "W900", "T880", "Anthem"]
  const BrandNames: seq<string> :=
    ["Kenworth", "Freightliner", "International", "Volvo", "Mack", "Peterbilt"]

  /** An alternation of literals at position `p`: the index of the first alternative that matches. */
  function FirstAlternative(t: string, p: nat, alts: seq<string>): (r: Option<nat>)
    ensures r.Some? ==> r.value < |alts| && KeywordAt(t, p, alts[r.value])
    ensures r.Some? ==> forall j {:trigger KeywordAt(t, p, alts[j])} :: 0 <= j < r.value ==> !KeywordAt(t, p, alts[j])
    ensures r.None? ==> forall j {:trigger KeywordAt(t, p, alts[j])} :: 0 <= j < |alts| ==> !KeywordAt(t, p, alts[j])
  {
    AlternativeFrom(t, p, alts, 0)
  }

  /** The alternatives from index `i` on, tried in order. */
  function AlternativeFrom(t: string, p: nat, alts: seq<string>, i: nat): (r: Option<nat>)
    requires i <= |alts|
    ensures r.Some? ==> i <= r.value < |alts| && KeywordAt(t, p, alts[r.value])
    ensures r.Some? ==> forall j {:trigger KeywordAt(t, p, alts[j])} :: i <= j < r.value ==> !KeywordAt(t, p, alts[j])
    ensures r.None? ==> forall j {:trigger KeywordAt(t, p, alts[j])} :: i <= j < |alts| ==> !KeywordAt(t, p, alts[j])
    decreases |alts| - i
  {
    if i == |alts| then None
    else if KeywordAt(t, p, alts[i]) then Some(i)
    else AlternativeFrom(t, p, alts, i + 1)
  }

  /**
   * How a greedy `*` over `[\s:]`, which has run from `k` to `j`, hands characters
   * back until a group whose first character must be in class `g` can start:
   * the first position, from `j` down to `k`, holding a character of `g`.
   */
  function GroupStart(g: CharClass, t: string, k: nat, j: nat): (r: Option<nat>)
    requires k <= j <= |t|
    ensures r.Some? ==> k <= r.value <= j && r.value < |t| && InClass(g, t[r.value])
    ensures r.Some? ==> forall x {:trigger InClass(g, t[x])} :: r.value < x <= j && x < |t| ==> !InClass(g, t[x])
    ensures r.None? ==> forall x {:trigger InClass(g, t[x])} :: k <= x <= j && x < |t| ==> !InClass(g, t[x])
    decreases j - k
  {
    if j < |t| && InClass(g, t[j]) then Some(j)
    else if j == k then None
    else GroupStart(g, t, k, j - 1)
  }

  /**
   * `[\s\.:]?\s?` after the marker that ends at `k`, followed by `[0-9,]+`: the
   * start of the digit group under the engine's order of trials: both optional
   * characters taken, then only the first. Taking only the second is the same
   * start as taking only the first, because `\s` lies inside `[\s\.:]`; taking
   * neither is the last trial.
   */
  function PriceDigitsStart(t: string, k: nat): (r: Option<nat>)
    ensures r.Some? ==> r.value < |t| && InClass(DigitOrComma, t[r.value]) && PriceSeparators(t, k, r.value)
  {
    if k + 2 < |t| && IsPriceSeparator(t[k]) && IsSpace(t[k + 1]) && InClass(DigitOrComma, t[k + 2]) then Some(k + 2)
    else if k + 1 < |t| && IsPriceSeparator(t[k]) && InClass(DigitOrComma, t[k + 1]) then Some(k + 1)
    else if k < |t| && InClass(DigitOrComma, t[k]) then Some(k)
    else None
  }

  /** What `[\s\.:]?\s?` takes from `k` to `g`: at most two characters, the first one of `[\s\.:]` and a second one whitespace. */
  predicate PriceSeparators(t: string, k: nat, g: nat) {
    k <= g <= k + 2 && g <= |t|
    && (forall x :: k <= x < g ==> IsPriceSeparator(t[x]))
    && (g == k + 2 ==> IsSpace(t[k + 1]))
  }

  /** `[\s\.:]` */
  predicate IsPriceSeparator(c: char) { IsSpace(c) || c == '.' || c == ':' }

  /** The optional `(\.[0-9]{2})?` after the digit group that ends at `e`. */
  function FractionEnd(t: string, e: nat): (r: nat)
    requires e <= |t|
    ensures r == e || (r == e + 3 && r <= |t| && t[e] == '.' && IsDigit(t[e + 1]) && IsDigit(t[e + 2]))
    ensures e + 3 <= |t| && t[e] == '.' && IsDigit(t[e + 1]) && IsDigit(t[e + 2]) ==> r == e + 3
  {
    if e + 3 <= |t| && t[e] == '.' && IsDigit(t[e + 1]) && IsDigit(t[e + 2]) then e + 3 else e
  }

  /** `[0-9,]*`: every character of `s` is a digit or a comma. */
  predicate DigitsAndCommas(s: string) {
    forall i :: 0 <= i < |s| ==> InClass(DigitOrComma, s[i])
  }

  /** Price: the recorded group is group 2, the run of digits and commas. */
  function PriceAt(t: string, p: nat): (r: Option<Match>)
    ensures r.Some? ==> r.value.start == p && Within(r.value, t)
    ensures r.Some? ==> r.value.groupStart < r.value.groupEnd
    ensures r.Some? ==> DigitsAndCommas(Group(r.value, t))
    ensures r.Some? ==> var m := r.value;
      m.end == FractionEnd(t, m.groupEnd) && (m.groupEnd == |t| || !InClass(DigitOrComma, t[m.groupEnd]))
  {
    match FirstAlternative(t, p, PriceMarkers)
    case None => None
    case Some(i) =>
      match PriceDigitsStart(t, p + |PriceMarkers[i]|)
      case None => None
      case Some(g) =>
        var e := RunEnd(DigitOrComma, t, g);
        Some(Match(p, FractionEnd(t, e), g, e))
  }

  /**
   * A price match starts with `$`, `precio` or `valor`, ignoring case, and
   * only the optional separators `[\s\.:]?\s?` stand between that marker and
   * the digit group.
   */
  lemma PriceMatchShape(t: string, p: nat)
    requires PriceAt(t, p).Some?
    ensures var m := PriceAt(t, p).value;
      exists i :: 0 <= i < |PriceMarkers| && KeywordAt(t, p, PriceMarkers[i])
        && PriceSeparators(t, p + |PriceMarkers[i]|, m.groupStart)
  {
    var i := FirstAlternative(t, p, PriceMarkers).value;
    assert PriceSeparators(t, p + |PriceMarkers[i]|, PriceAt(t, p).value.groupStart);
  }

  /** Year (case-sensitive): `20`, a digit from 1 to 2, a digit, between word boundaries. */
  function YearAt(t: string, p: nat): (r: Option<Match>)
    ensures r.Some? ==> r.value.start == p && Within(r.value, t)
  {
    if p + 4 <= |t| && Boundary(t, p) && t[p] == '2' && t[p + 1] == '0' && '1' <= t[p + 2] <= '2'
       && IsDigit(t[p + 3]) && Boundary(t, p + 4)
    then Some(Match(p, p + 4, p, p + 4))
    else None
  }

  /** `[A-HJ-NPR-Z0-9]` under the `i` flag. */
  predicate IsVinChar(c: char) {
    var u := Fold(c);
    ('A' <= u <= 'H') || ('J' <= u <= 'N') || u == 'P' || ('R' <= u <= 'Z') || IsDigit(u)
  }

  /** VIN: seventeen VIN characters between word boundaries. */
  function VinAt(t: string, p: nat): (r: Option<Match>)
    ensures r.Some? ==> r.value.start == p && Within(r.value, t)
  {
    if p + 17 <= |t| && Boundary(t, p) && (forall i :: p <= i < p + 17 ==> IsVinChar(t[i])) && Boundary(t, p + 17)
    then Some(Match(p, p + 17, p, p + 17))
    else None
  }

  /**
   * Mileage: the recorded group is group 2, the unit. Handing back characters of
   * `\s*` leaves a space where the unit must start, and shortening `[0-9,]+`
   * leaves a digit or comma there, so only the longest run of each is tried.
   */
  function MileageAt(t: string, p: nat): (r: Option<Match>)
    ensures r.Some? ==> r.value.start == p && Within(r.value, t)
  {
    if !(p < |t| && InClass(DigitOrComma, t[p])) then None
    else
      var e := RunEnd(Whitespace, t, RunEnd(DigitOrComma, t, p));
      match FirstAlternative(t, e, MileageUnits)
      case None => None
      case Some(u) => Some(Match(p, e + |MileageUnits[u]|, e, e + |MileageUnits[u]|))
  }

  /**
   * Engine: the recorded group is group 1, the maker. `\s?` takes one space if
   * there is one; the optional group then takes the longest run it can.
   */
  function EngineAt(t: string, p: nat): (r: Option<Match>)
    ensures r.Some? ==> r.value.start == p && Within(r.value, t)
  {
    match FirstAlternative(t, p, EngineMakers)
    case None => None
    case Some(i) =>
      var k := p + |EngineMakers[i]|;
      var s := if k < |t| && IsSpace(t[k]) then k + 1 else k;
      Some(Match(p, RunEnd(EngineModelChar, t, s), p, k))
  }

  /**
   * `[\s:]*([g]+)` after a keyword that ends at `k`: the recorded group is the
   * run of class `g`, which starts where the backtracking of `[\s:]*` lets it.
   */
  function KeywordTail(g: CharClass, t: string, p: nat, k: nat): (r: Option<Match>)
    requires p <= k <= |t|
    ensures r.Some? ==> r.value.start == p && Within(r.value, t) && r.value.groupEnd == r.value.end
    ensures r.Some? ==> k <= r.value.groupStart < r.value.groupEnd
  {
    match GroupStart(g, t, k, RunEnd(SpaceOrColon, t, k))
    case None => None
    case Some(s) =>
      var e := RunEnd(g, t, s);
      Some(Match(p, e, s, e))
  }

  /** Transmission: the recorded group is group 2. */
  function TransmissionAt(t: string, p: nat): (r: Option<Match>)
    ensures r.Some? ==> r.value.start == p && Within(r.value, t)
  {
    match FirstAlternative(t, p, TransmissionKeywords)
    case None => None
    case Some(i) => KeywordTail(TransRunChar, t, p, p + |TransmissionKeywords[i]|)
  }

  /**
   * Suspension: the recorded group is group 2. When the tail fails after the
   * full word, the engine backtracks into the alternation and tries `Susp`.
   */
  function SuspensionAt(t: string, p: nat): (r: Option<Match>)
    ensures r.Some? ==> r.value.start == p && Within(r.value, t)
  {
    var long := FullSuspensionAt(t, p);
    if long.Some? then long
    else if KeywordAt(t, p, SuspensionAbbreviation) then KeywordTail(SuspRunChar, t, p, p + |SuspensionAbbreviation|)
    else None
  }

  /** The first alternative of the suspension pattern, `Suspensi[oó]n`, followed by the tail. */
  function FullSuspensionAt(t: string, p: nat): (r: Option<Match>)
    ensures r.Some? ==> r.value.start == p && Within(r.value, t)
  {
    match FirstAlternative(t, p, SuspensionKeywords)
    case None => None
    case Some(i) => KeywordTail(SuspRunChar, t, p, p + |SuspensionKeywords[i]|)
  }

  /**
   * Towing capacity: the recorded group is group 2, digits through unit. No
   * character `[\s:]*` can hand back is a digit or a comma, and the inner
   * runs are decided as in `MileageAt`.
   */
  function TowingAt(t: string, p: nat): (r: Option<Match>)
    ensures r.Some? ==> r.value.start == p && Within(r.value, t)
    ensures r.Some? ==> IsTowingCapacity(Group(r.value, t))
  {
    match FirstAlternative(t, p, TowingKeywords)
    case None => None
    case Some(i) => TowingTail(t, p, p + |TowingKeywords[i]|)
  }

  /** `[\s:]*([0-9,]+[\s]*(Lbs|Kg|Tons))` after the keyword that ends at `k`: a capacity that starts with a digit or a comma and ends with a unit. */
  function TowingTail(t: string, p: nat, k: nat): (r: Option<Match>)
    requires p <= k <= |t|
    ensures r.Some? ==> r.value.start == p && Within(r.value, t)
    ensures r.Some? ==> IsTowingCapacity(Group(r.value, t))
  {
    match GroupStart(DigitOrComma, t, k, RunEnd(SpaceOrColon, t, k))
    case None => None
    case Some(s) =>
      var e := RunEnd(Whitespace, t, RunEnd(DigitOrComma, t, s));
      match FirstAlternative(t, e, TowingUnits)
      case None => None
      case Some(u) =>
        var m := Match(p, e + |TowingUnits[u]|, s, e + |TowingUnits[u]|);
        TowingCapacityShape(t, m, e, u);
        Some(m)
  }

  /** A bare alternation of names, with no word boundaries. */
  function NameAt(t: string, p: nat, names: seq<string>): (r: Option<Match>)
    ensures r.Some? ==> r.value.start == p && Within(r.value, t)
  {
    match FirstAlternative(t, p, names)
    case None => None
    case Some(i) => Some(Match(p, p + |names[i]|, p, p + |names[i]|))
  }

  function ModelAt(t: string, p: nat): (r: Option<Match>)
    ensures r.Some? ==> r.value.start == p && Within(r.value, t)
  {
    NameAt(t, p, ModelNames)
  }

  function BrandAt(t: string, p: nat): (r: Option<Match>)
    ensures r.Some? ==> r.value.start == p && Within(r.value, t)
  {
    NameAt(t, p, BrandNames)
  }

  /** Shifting a keyword occurrence into a slice that contains it. */
  lemma KeywordInSlice(t: string, p: nat, e: nat, kw: string)
    requires KeywordAt(t, p, kw) && p + |kw| <= e <= |t|
    ensures KeywordAt(t[p..e], 0, kw)
    ensures SameIgnoringCase(t[p..p + |kw|], kw)
  {
    var slice, word := t[p..e], t[p..p + |kw|];
    assert forall j :: 0 <= j < |kw| ==> slice[j] == t[p + j];
    assert forall j :: 0 <= j < |kw| ==> word[j] == t[p + j];
  }

  /** An independent description of a year: four digits whose value lies between 2010 and 2029. */
  predicate IsModelYear(s: string) {
    |s| == 4 && (forall i :: 0 <= i < 4 ==> IsDigit(s[i])) && 2010 <= DigitsValue(s) <= 2029
  }

  function DigitOf(c: char): int { c as int - '0' as int }

  lemma FourDigitsValue(s: string)
    requires |s| == 4 && forall i :: 0 <= i < 4 ==> IsDigit(s[i])
    ensures DigitsValue(s) == 1000 * DigitOf(s[0]) + 100 * DigitOf(s[1]) + 10 * DigitOf(s[2]) + DigitOf(s[3])
  {
    var s3, s2, s1 := s[..3], s[..2], s[..1];
    assert s3[..2] == s2 && s2[..1] == s1 && s1[..0] == [];
    assert DigitsValue(s1) == DigitOf(s[0]);
    assert DigitsValue(s2) == DigitsValue(s1) * 10 + DigitOf(s[1]);
    assert DigitsValue(s3) == DigitsValue(s2) * 10 + DigitOf(s[2]);
    assert DigitsValue(s) == DigitsValue(s3) * 10 + DigitOf(s[3]);
  }

  /**
   * The year pattern matches at `p` exactly when a whole word of four digits
   * with a value from 2010 to 2029 starts there.
   */
  lemma YearAtIsModelYear(t: string, p: nat)
    ensures YearAt(t, p).Some? <==> p + 4 <= |t| && Boundary(t, p) && Boundary(t, p + 4) && IsModelYear(t[p..p + 4])
    ensures YearAt(t, p).Some? ==> YearAt(t, p) == Some(Match(p, p + 4, p, p + 4))
  {
    if p + 4 <= |t| {
      var w := t[p..p + 4];
      assert w[0] == t[p] && w[1] == t[p + 1] && w[2] == t[p + 2] && w[3] == t[p + 3];
      if forall i :: 0 <= i < 4 ==> IsDigit(w[i]) {
        FourDigitsValue(w);
      }
    }
  }

  /** A character of a VIN once upper-cased: `A`-`H`, `J`-`N`, `P`, `R`-`Z` or a digit. */
  predicate IsVinLetterOrDigit(c: char) {
    ('A' <= c <= 'H') || ('J' <= c <= 'N') || c == 'P' || ('R' <= c <= 'Z') || IsDigit(c)
  }

  /**
   * A VIN match spans seventeen characters between word boundaries, and once
   * upper-cased it uses only the VIN alphabet, without `I`, `O` or `Q`.
   */
  lemma VinMatchShape(t: string, p: nat)
    requires VinAt(t, p).Some?
    ensures var m := VinAt(t, p).value;
      && m.end == p + 17 && Boundary(t, p) && Boundary(t, p + 17)
      && |Upper(Whole(m, t))| == 17
      && forall i :: 0 <= i < 17 ==> IsVinLetterOrDigit(Upper(Whole(m, t))[i])
  {
    var w := Whole(VinAt(t, p).value, t);
    forall i | 0 <= i < 17 ensures IsVinLetterOrDigit(Upper(w)[i]) {
      assert w[i] == t[p + i];
      assert IsVinChar(w[i]);
    }
  }

  /** A mileage unit as the pattern records it: `km`, `millas` or `miles`, ignoring case. */
  predicate IsRecordedUnit(v: string) {
    exists u :: 0 <= u < 3 && SameIgnoringCase(v, MileageUnits[u])
  }

  /** `km` is tried before `kms`, so the alternation never settles on `kms`. */
  lemma KmBeforeKms(t: string, e: nat)
    ensures FirstAlternative(t, e, MileageUnits) != Some(3)
  {
    if FirstAlternative(t, e, MileageUnits) == Some(3) {
      assert MileageUnits[3][0] == MileageUnits[0][0] && MileageUnits[3][1] == MileageUnits[0][1];
      assert KeywordAt(t, e, MileageUnits[0]);
      assert false;
    }
  }

  /**
   * The unit a mileage match records is `km`, `millas` or `miles`, never `kms`,
   * and the match starts with a digit or a comma.
   */
  lemma MileageUnitIsNotKms(t: string, p: nat)
    requires MileageAt(t, p).Some?
    ensures InClass(DigitOrComma, t[p])
    ensures IsRecordedUnit(Group(MileageAt(t, p).value, t))
  {
    var e := RunEnd(Whitespace, t, RunEnd(DigitOrComma, t, p));
    var u := FirstAlternative(t, e, MileageUnits).value;
    KmBeforeKms(t, e);
    KeywordInSlice(t, e, e + |MileageUnits[u]|, MileageUnits[u]);
  }

  /** An engine match records the maker, ignoring case, and the maker begins the whole match. */
  lemma EngineMatchShape(t: string, p: nat)
    requires EngineAt(t, p).Some?
    ensures var m := EngineAt(t, p).value;
      && Group(m, t) <= Whole(m, t)
      && exists i :: 0 <= i < |EngineMakers| && SameIgnoringCase(Group(m, t), EngineMakers[i])
  {
    var i := FirstAlternative(t, p, EngineMakers).value;
    KeywordInSlice(t, p, p + |EngineMakers[i]|, EngineMakers[i]);
  }

  /**
   * When the greedy `[\s:]*` has to give back a whitespace character for the
   * group to start on, the group stops right after it: a run that starts
   * with whitespace is one character long.
   */
  lemma {:induction false} BacktrackedRunIsOneChar(g: CharClass, t: string, p: nat, k: nat)
    requires p <= k <= |t|
    requires g == TransRunChar || g == SuspRunChar
    requires KeywordTail(g, t, p, k).Some?
    ensures var m := KeywordTail(g, t, p, k).value;
      IsSpace(t[m.groupStart]) ==> m.groupEnd == m.groupStart + 1
  {
    var j := RunEnd(SpaceOrColon, t, k);
    var s := GroupStart(g, t, k, j).value;
    if IsSpace(t[s]) {
      assert s != j;
      assert s + 1 == |t| || !InClass(g, t[s + 1]);
      assert RunEnd(g, t, s + 1) == s + 1;
    }
  }

  /** A match made of a keyword and its tail starts with the keyword, and its run obeys the backtracking rule. */
  lemma KeywordTailShape(g: CharClass, t: string, p: nat, kw: string)
    requires g == TransRunChar || g == SuspRunChar
    requires KeywordAt(t, p, kw) && KeywordTail(g, t, p, p + |kw|).Some?
    ensures var m := KeywordTail(g, t, p, p + |kw|).value;
      && KeywordAt(Whole(m, t), 0, kw)
      && (IsSpace(t[m.groupStart]) ==> m.groupEnd == m.groupStart + 1)
  {
    KeywordInSlice(t, p, KeywordTail(g, t, p, p + |kw|).value.end, kw);
    BacktrackedRunIsOneChar(g, t, p, p + |kw|);
  }

  /** A transmission match starts with one of the keywords, ignoring case. */
  lemma TransmissionMatchShape(t: string, p: nat)
    requires TransmissionAt(t, p).Some?
    ensures var m := TransmissionAt(t, p).value;
      && StartsWithOneOf(Whole(m, t), TransmissionKeywords)
      && (IsSpace(t[m.groupStart]) ==> m.groupEnd == m.groupStart + 1)
  {
    var i := FirstAlternative(t, p, TransmissionKeywords).value;
    KeywordTailShape(TransRunChar, t, p, TransmissionKeywords[i]);
  }

  /** The keywords a suspension match may start with. */
  const SuspensionStarts: seq<string> := SuspensionKeywords + [SuspensionAbbreviation]

  /** `w` starts with one of `kws`, ignoring case. */
  predicate StartsWithOneOf(w: string, kws: seq<string>) {
    exists i :: 0 <= i < |kws| && KeywordAt(w, 0, kws[i])
  }

  /** A suspension match starts with `Suspension`, `Suspensión` or `Susp`, ignoring case. */
  lemma SuspensionMatchShape(t: string, p: nat)
    requires SuspensionAt(t, p).Some?
    ensures var m := SuspensionAt(t, p).value;
      && StartsWithOneOf(Whole(m, t), SuspensionStarts)
      && (IsSpace(t[m.groupStart]) ==> m.groupEnd == m.groupStart + 1)
  {
    if FullSuspensionAt(t, p).Some? {
      FullSuspensionShape(t, p);
    } else {
      KeywordTailShape(SuspRunChar, t, p, SuspensionAbbreviation);
      assert SuspensionStarts[2] == SuspensionAbbreviation;
    }
  }

  lemma FullSuspensionShape(t: string, p: nat)
    requires FullSuspensionAt(t, p).Some?
    ensures var m := FullSuspensionAt(t, p).value;
      && StartsWithOneOf(Whole(m, t), SuspensionStarts)
      && (IsSpace(t[m.groupStart]) ==> m.groupEnd == m.groupStart + 1)
  {
    var i := FirstAlternative(t, p, SuspensionKeywords).value;
    KeywordTailShape(SuspRunChar, t, p, SuspensionKeywords[i]);
    assert SuspensionStarts[i] == SuspensionKeywords[i];
  }

  /** A towing capacity: it starts with a digit or a comma and ends with a unit, ignoring case. */
  predicate IsTowingCapacity(v: string) {
    && |v| > 0 && InClass(DigitOrComma, v[0])
    && exists u :: 0 <= u < |TowingUnits| && |TowingUnits[u]| <= |v|
         && SameIgnoringCase(v[|v| - |TowingUnits[u]|..], TowingUnits[u])
  }

  /** A group that runs from a digit or comma to a unit at its end is a towing capacity. */
  lemma TowingCapacityShape(t: string, m: Match, e: nat, u: nat)
    requires Within(m, t) && m.groupStart < e && u < |TowingUnits|
    requires m.groupEnd == e + |TowingUnits[u]| && InClass(DigitOrComma, t[m.groupStart]) && KeywordAt(t, e, TowingUnits[u])
    ensures IsTowingCapacity(Group(m, t))
  {
    var v := Group(m, t);
    assert v[0] == t[m.groupStart];
    KeywordInSlice(t, e, e + |TowingUnits[u]|, TowingUnits[u]);
    assert v[|v| - |TowingUnits[u]|..] == t[e..e + |TowingUnits[u]|];
  }

  /** A bare name match is one of the names, ignoring case. */
  lemma NameMatchShape(t: string, p: nat, names: seq<string>)
    requires NameAt(t, p, names).Some?
    ensures exists i :: 0 <= i < |names| && SameIgnoringCase(Whole(NameAt(t, p, names).value, t), names[i])
  {
    var i := FirstAlternative(t, p, names).value;
    KeywordInSlice(t, p, p + |names[i]|, names[i]);
  }

  /** The scanner of `pat`: whether, and how, it matches when the engine tries a given start position. */
  function Matcher(pat: Pattern): (string, nat) -> Option<Match> {
    match pat
    case PricePattern => PriceAt
    case YearPattern => YearAt
    case VinPattern => VinAt
    case MileagePattern => MileageAt
    case EnginePattern => EngineAt
    case TransmissionPattern => TransmissionAt
    case SuspensionPattern => SuspensionAt
    case TowingPattern => TowingAt
    case ModelPattern => ModelAt
    case BrandPattern => BrandAt
  }

  /** The start positions from `from` on, tried left to right: the first where `at` matches. */
  function FirstStart(at: (string, nat) -> Option<Match>, t: string, from: nat): (r: Option<nat>)
    requires from <= |t|
    ensures r.Some? ==> from <= r.value < |t| && at(t, r.value).Some?
    decreases |t| - from
  {
    if from == |t| then None
    else if at(t, from).Some? then Some(from)
    else FirstStart(at, t, from + 1)
  }

  /**
   * `t.match(re)` without the `g` flag, where `at` is the scanner of `re`:
   * the match at the first start position where `at` succeeds.
   */
  function MatchIn(at: (string, nat) -> Option<Match>, t: string): Option<Match> {
    match FirstStart(at, t, 0)
    case None => None
    case Some(p) => at(t, p)
  }

  /** `p` is where the leftmost match of `at` in `t` starts. */
  predicate LeftmostAt(at: (string, nat) -> Option<Match>, t: string, p: nat) {
    p < |t| && at(t, p).Some? && forall q: nat :: q < p ==> at(t, q).None?
  }

  /** No start position from `from` on admits a match. */
  predicate NoneFrom(at: (string, nat) -> Option<Match>, t: string, from: nat) {
    forall q: nat :: from <= q < |t| ==> at(t, q).None?
  }

  /** `FirstStart` finds the first start position, from `from` on, that admits a match, and only fails when there is none. */
  lemma {:induction false} FirstStartIsFirst(at: (string, nat) -> Option<Match>, t: string, from: nat)
    requires from <= |t|
    ensures var r := FirstStart(at, t, from);
      && (r.Some? ==> forall q: nat :: from <= q < r.value ==> at(t, q).None?)
      && (r.None? <==> NoneFrom(at, t, from))
    decreases |t| - from
  {
    if from < |t| && at(t, from).None? {
      FirstStartIsFirst(at, t, from + 1);
    }
  }

  /** The first start is the leftmost one: the two descriptions of where `t.match` looks agree. */
  lemma FirstStartIsLeftmost(at: (string, nat) -> Option<Match>, t: string)
    ensures forall p: nat :: FirstStart(at, t, 0) == Some(p) <==> LeftmostAt(at, t, p)
    ensures FirstStart(at, t, 0).None? <==> NoneFrom(at, t, 0)
  {
    FirstStartIsFirst(at, t, 0);
  }

  /** `t.match(re)` is the match at the leftmost start that admits one. */
  lemma MatchInIsLeftmost(at: (string, nat) -> Option<Match>, t: string, p: nat)
    requires LeftmostAt(at, t, p)
    ensures MatchIn(at, t) == at(t, p)
  {
    FirstStartIsLeftmost(at, t);
  }

  /** `t.match(re)` fails exactly when no start position admits a match. */
  lemma MatchInFails(at: (string, nat) -> Option<Match>, t: string)
    ensures MatchIn(at, t).None? <==> NoneFrom(at, t, 0)
  {
    FirstStartIsLeftmost(at, t);
  }
}
