/**
 * The quote form around the smart import: the default form, the object spread
 * that overlays one form on another, and the editor state with the handlers
 * that change it.
 */
module QuoteForm {
  import opened Wrappers
  import opened Fields
  import opened SmartImport

  /** The keys of the quote form: the thirteen the smart import fills and the rest. */
  datatype FormKey =
    | Imported(field: Field)
    | CompanyName | CompanyPhone | CompanyEmail | CompanyAddress | LogoUrl
    | ClientName | QuoteDate | QuoteId | Currency
    | Axles | Fuel | InvoiceType | WheelSize | GearRatio | RenovationNote | ImageUrl
    | LabelQuoteTitle | LabelClient | LabelPrice | LabelRenovationTitle | LabelSpecsTitle
    | FooterTitle | FooterText | GeneratedBy

  /** The property name of each key in the form object. */
  function KeyName(k: FormKey): string {
    match k
    case Imported(f) => Name(f)
    case CompanyName => "companyName"
    case CompanyPhone => "companyPhone"
    case CompanyEmail => "companyEmail"
    case CompanyAddress => "companyAddress"
    case LogoUrl => "logoUrl"
    case ClientName => "clientName"
    case QuoteDate => "quoteDate"
    case QuoteId => "quoteId"
    case Currency => "currency"
    case Axles => "axles"
    case Fuel => "fuel"
    case InvoiceType => "invoiceType"
    case WheelSize => "wheelSize"
    case GearRatio => "gearRatio"
    case RenovationNote => "renovationNote"
    case ImageUrl => "imageUrl"
    case LabelQuoteTitle => "labelQuoteTitle"
    case LabelClient => "labelClient"
    case LabelPrice => "labelPrice"
    case LabelRenovationTitle => "labelRenovationTitle"
    case LabelSpecsTitle => "labelSpecsTitle"
    case FooterTitle => "footerTitle"
    case FooterText => "footerText"
    case GeneratedBy => "generatedBy"
  }

  /** All thirty-seven keys of the form. */
  const FormKeys: set<FormKey> := {
    CompanyName, CompanyPhone, CompanyEmail, CompanyAddress, LogoUrl,
    ClientName, QuoteDate, QuoteId,
    Imported(Price), Currency, Imported(Year), Imported(Model), Imported(Brand),
    Imported(EngineShort), Imported(EngineFull),
    Imported(TransmissionShort), Imported(TransmissionFull), Imported(SuspensionShort), Imported(SuspensionFull),
    Imported(TowingCapacity),
    Axles, Fuel, Imported(Mileage), InvoiceType, WheelSize, GearRatio, Imported(Vin), RenovationNote, ImageUrl,
    LabelQuoteTitle, LabelClient, LabelPrice, LabelRenovationTitle, LabelSpecsTitle,
    FooterTitle, FooterText, GeneratedBy
  }

  /** Every key is a key of the form, the imported ones included. */
  lemma EveryKeyIsAFormKey()
    ensures forall k :: k in FormKeys
  {
    forall k ensures k in FormKeys {
      match k
      case Imported(f) => FieldListed(f);
      case _ =>
    }
  }

  /** A form object: the value of each property set on it. */
  type Form = map<FormKey, Value>

  /** The value of each key in a new quote; `today` is the date part of the current time in ISO form. */
  function DefaultValue(k: FormKey, today: string): Value {
    match k
    case CompanyName => Str("TRACTOS DEL BAJ\U{CD}O")
    case CompanyPhone => Str("442-123-4567")
    case CompanyEmail => Str("ventas@tractosdelbajio.com")
    case CompanyAddress => Str("Quer\U{E9}taro, M\U{E9}xico")
    case LogoUrl => Null
    case ClientName => Str("Transportes Log\U{ED}sticos S.A. de C.V.")
    case QuoteDate => Str(today)
    case QuoteId => Str("COT-2025-001")
    case Imported(Price) => Num(0)
    case Currency => Str("MXN")
    case Imported(_) => Str("")
    case Axles => Str("")
    case Fuel => Str("Diesel")
    case InvoiceType => Str("Refacturado")
    case WheelSize => Str("")
    case GearRatio => Str("")
    case RenovationNote => Str("Este tractocami\U{F3}n tiene un proceso de renovaci\U{F3}n total mec\U{E1}nica y est\U{E9}tica.")
    case ImageUrl => Str("")
    case LabelQuoteTitle => Str("COTIZACI\U{D3}N")
    case LabelClient => Str("Atenci\U{F3}n a:")
    case LabelPrice => Str("Precio de Lista")
    case LabelRenovationTitle => Str("Garant\U{ED}a de Calidad")
    case LabelSpecsTitle => Str("Ficha T\U{E9}cnica")
    case FooterTitle => Str("\U{BF}Listo para hacer negocio?")
    case FooterText => Str("Cont\U{E1}ctanos para agendar una prueba de manejo.")
    case GeneratedBy => Str("Documento generado por Tractos.Com")
  }

  /** `defaultData`: the form a new quote starts from, with every key present. */
  function DefaultData(today: string): (d: Form)
    ensures forall k :: k in d && d[k] == DefaultValue(k, today)
  {
    EveryKeyIsAFormKey();
    map k | k in FormKeys :: DefaultValue(k, today)
  }

  /** A new quote has no price, no logo and today's date, and every imported field starts empty. */
  lemma DefaultsOfTheImportedFields(today: string)
    ensures DefaultData(today)[Imported(Price)] == Num(0)
    ensures forall f :: f != Price ==> DefaultData(today)[Imported(f)] == Str("")
    ensures DefaultData(today)[LogoUrl] == Null && DefaultData(today)[QuoteDate] == Str(today)
  {
    var d := DefaultData(today);
    forall f | f != Price ensures d[Imported(f)] == Str("") {
      assert d[Imported(f)] == DefaultValue(Imported(f), today);
    }
  }

  /** The keys the smart import writes are the imported keys, under the same property names. */
  lemma ImportedNames(f: Field)
    ensures KeyName(Imported(f)) == Name(f) && KeyName(Imported(f)) in Vocabulary
  {
    NamesAreTheVocabulary();
  }

  /**
   * `{ ...prev, ...next }`: every key of either object, holding the value of
   * `next` where it has one and the value of `prev` otherwise.
   */
  function Spread(prev: Form, next: Form): (r: Form)
    ensures r.Keys == prev.Keys + next.Keys
    ensures forall k :: k in next ==> r[k] == next[k]
    ensures forall k :: k in prev && k !in next ==> r[k] == prev[k]
  {
    prev + next
  }

  /** The result of `JSON.parse` on saved or imported text: an object, or the exception it throws. */
  datatype JsonFile = Parsed(obj: Form) | Malformed

  /** `{ ...defaultData, ...parsed }`: the form loaded from an object, in which a key missing from the object keeps its default. */
  function Overlay(today: string, parsed: Form): (r: Form)
    ensures forall k :: k in r
    ensures forall k :: r[k] == if k in parsed then parsed[k] else DefaultValue(k, today)
  {
    Spread(DefaultData(today), parsed)
  }

  /** Loading an object that holds every key gives that object back, and loading the empty object gives the defaults. */
  lemma OverlayOfCompleteForm(today: string, form: Form)
    requires forall k :: k in form
    ensures Overlay(today, form) == form
    ensures Overlay(today, map[]) == DefaultData(today)
  {
  }

  /** The updates object as form properties: each field under its own key. */
  function Imports(u: map<Field, Value>): (r: Form)
    ensures forall k :: k in r <==> k.Imported? && k.field in u
    ensures forall f :: f in u ==> r[Imported(f)] == u[f]
  {
    map f | f in u :: Imported(f) := u[f]
  }

  /**
   * What the handlers tell the user with `alert`: how many fields were
   * detected, that none were, that the recognition engine is still loading,
   * that the image could not be read, that a file was loaded, or that it could
   * not be parsed.
   */
  datatype Notice =
    | Detected(count: nat)
    | NothingDetected
    | OcrLoading
    | ImageUnreadable
    | FileLoaded
    | FileUnreadable

  /** The alert `applyUpdates` gives for an updates object: the count of its keys, or that there were none. */
  function DetectionNotice(u: map<Field, Value>): Notice {
    if |u| > 0 then Detected(|u|) else NothingDetected
  }

  /** A call of the recognition engine's logger: its status and its progress, already scaled to a whole percentage. */
  datatype LoggerMessage = LoggerMessage(status: string, percent: int)

  /** The status under which the logger reports progress. */
  const RecognizingStatus: string := "recognizing text"

  /** How a recognition ends: with the recognized text, or by throwing. */
  datatype OcrOutcome = Recognized(text: string) | RecognitionFailed

  /** Message `i` is the last of `ms` that reports progress while recognizing text. */
  predicate LastRecognizing(ms: seq<LoggerMessage>, i: nat) {
    i < |ms| && ms[i].status == RecognizingStatus
    && forall j :: i < j < |ms| ==> ms[j].status != RecognizingStatus
  }

  /**
   * The progress shown after the logger calls `ms`, starting from `shown`: the
   * percentage of the last message reported while recognizing text, or `shown`
   * when there is none.
   */
  function ReportedProgress(shown: int, ms: seq<LoggerMessage>): (r: int)
    ensures forall i: nat :: LastRecognizing(ms, i) ==> r == ms[i].percent
    ensures (forall i :: 0 <= i < |ms| ==> ms[i].status != RecognizingStatus) ==> r == shown
    decreases |ms|
  {
    if ms == [] then shown
    else
      var last := ms[|ms| - 1];
      if last.status == RecognizingStatus then last.percent
      else
        LastRecognizingOfPrefix(ms);
        ReportedProgress(shown, ms[..|ms| - 1])
  }

  /** When the last message does not report recognition, the last one that does lies in the prefix. */
  lemma LastRecognizingOfPrefix(ms: seq<LoggerMessage>)
    requires ms != [] && ms[|ms| - 1].status != RecognizingStatus
    ensures forall i: nat :: LastRecognizing(ms, i) ==> LastRecognizing(ms[..|ms| - 1], i)
  {
  }

  /** The state of the quote editor that the import path reads and writes. */
  class QuoteEditor {
    /** `formData` */
    var form: Form
    var pastedText: string
    var showSmartPaste: bool
    var isProcessing: bool
    var ocrProgress: int

    /** Every key of the form is present. */
    ghost predicate Valid()
      reads this
    {
      forall k :: k in form
    }

    /** The state when the editor opens, before anything is loaded. */
    constructor(today: string)
      ensures Valid()
      ensures form == DefaultData(today)
      ensures pastedText == "" && !showSmartPaste && !isProcessing && ocrProgress == 0
    {
      form := DefaultData(today);
      pastedText := "";
      showSmartPaste := false;
      isProcessing := false;
      ocrProgress := 0;
    }

    /** `handleInputChange`: one input sets its own key to its text. */
    method HandleInputChange(name: FormKey, value: string)
      requires Valid()
      modifies this
      ensures Valid()
      ensures form == old(form)[name := Str(value)]
      ensures forall k :: k in old(form) && k != name ==> k in form && form[k] == old(form)[k]
      ensures pastedText == old(pastedText) && showSmartPaste == old(showSmartPaste)
      ensures isProcessing == old(isProcessing) && ocrProgress == old(ocrProgress)
    {
      form := form[name := Str(value)];
    }

    /** The text area of the import modal keeps what the user types or pastes, and nothing else changes. */
    method EditPastedText(value: string)
      requires Valid()
      modifies this
      ensures Valid()
      ensures pastedText == value
      ensures form == old(form) && showSmartPaste == old(showSmartPaste)
      ensures isProcessing == old(isProcessing) && ocrProgress == old(ocrProgress)
    {
      pastedText := value;
    }

    /** The `Importar` button opens the import modal and its close button shuts it, keeping the pasted text. */
    method SetSmartPasteOpen(open: bool)
      requires Valid()
      modifies this
      ensures Valid()
      ensures showSmartPaste == open
      ensures form == old(form) && pastedText == old(pastedText)
      ensures isProcessing == old(isProcessing) && ocrProgress == old(ocrProgress)
    {
      showSmartPaste := open;
    }

    /** `resetForm`: back to the defaults, once the user confirms. */
    method ResetForm(confirmed: bool, today: string)
      requires Valid()
      modifies this
      ensures Valid()
      ensures form == if confirmed then DefaultData(today) else old(form)
      ensures pastedText == old(pastedText) && showSmartPaste == old(showSmartPaste)
      ensures isProcessing == old(isProcessing) && ocrProgress == old(ocrProgress)
    {
      if confirmed {
        form := DefaultData(today);
      }
    }

    /**
     * `applyUpdates`: a non-empty updates object is spread over the form, the
     * modal closes and the pasted text is cleared; an empty one changes nothing.
     */
    method ApplyUpdates(updates: map<Field, Value>) returns (notice: Notice)
      requires Valid()
      modifies this
      ensures Valid()
      ensures |updates| > 0 ==> form == Spread(old(form), Imports(updates)) && pastedText == "" && !showSmartPaste
      ensures |updates| > 0 ==> notice == Detected(|updates|)
      ensures |updates| == 0 ==> form == old(form) && pastedText == old(pastedText) && showSmartPaste == old(showSmartPaste)
      ensures |updates| == 0 ==> notice == NothingDetected
      ensures isProcessing == old(isProcessing) && ocrProgress == old(ocrProgress)
    {
      var count := |updates|;
      if count > 0 {
        form := Spread(form, Imports(updates));
        notice := Detected(count);
        showSmartPaste := false;
        pastedText := "";
      } else {
        notice := NothingDetected;
      }
    }

    /** `handleSmartParse`: nothing happens without pasted text; otherwise the text is parsed and the updates applied. */
    method HandleSmartParse() returns (notice: Option<Notice>)
      requires Valid()
      modifies this
      ensures Valid()
      ensures old(pastedText) == "" ==> notice == None && unchanged(this)
      ensures old(pastedText) != "" ==> notice.Some? && AppliedFrom(old(form), old(pastedText), old(showSmartPaste), old(pastedText), notice.value)
      ensures isProcessing == old(isProcessing) && ocrProgress == old(ocrProgress)
    {
      if pastedText == "" {
        return None;
      }
      var updates := ParseTextToData(pastedText);
      var n := ApplyUpdates(updates);
      notice := Some(n);
    }

    /**
     * The form, pasted text and modal after `applyUpdates(parseTextToData(text))`
     * from a form `prev` with the modal `shown` and the text `pasted`, and the
     * alert `notice` it gives.
     */
    ghost predicate AppliedFrom(prev: Form, text: string, shown: bool, pasted: string, notice: Notice)
      reads this
    {
      var u := Updates(text);
      && notice == DetectionNotice(u)
      && if |u| > 0 then form == Spread(prev, Imports(u)) && pastedText == "" && !showSmartPaste
         else form == prev && pastedText == pasted && showSmartPaste == shown
    }

    /** The start of `handleOcrUpload` once there is a file and the engine is loaded. */
    method StartOcrUpload()
      requires Valid()
      modifies this
      ensures Valid()
      ensures isProcessing && ocrProgress == 0
      ensures form == old(form) && pastedText == old(pastedText) && showSmartPaste == old(showSmartPaste)
    {
      isProcessing := true;
      ocrProgress := 0;
    }

    /** The logger callback: progress is shown only while the engine is recognizing text. */
    method OcrLogger(m: LoggerMessage)
      requires Valid()
      modifies this
      ensures Valid()
      ensures ocrProgress == if m.status == RecognizingStatus then m.percent else old(ocrProgress)
      ensures form == old(form) && pastedText == old(pastedText) && showSmartPaste == old(showSmartPaste)
      ensures isProcessing == old(isProcessing)
    {
      if m.status == RecognizingStatus {
        ocrProgress := m.percent;
      }
    }

    /**
     * The end of `handleOcrUpload`: on success the recognized text becomes the
     * pasted text and is parsed and applied; on failure the form is left alone.
     * Processing ends either way.
     */
    method FinishOcrUpload(outcome: OcrOutcome) returns (notice: Notice)
      requires Valid()
      modifies this
      ensures Valid()
      ensures !isProcessing && ocrProgress == old(ocrProgress)
      ensures outcome.RecognitionFailed? ==>
        notice == ImageUnreadable && form == old(form) && pastedText == old(pastedText) && showSmartPaste == old(showSmartPaste)
      ensures outcome.Recognized? ==>
        AppliedFrom(old(form), outcome.text, old(showSmartPaste), outcome.text, notice)
    {
      match outcome {
        case Recognized(text) =>
          pastedText := text;
          var updates := ParseTextToData(text);
          notice := ApplyUpdates(updates);
        case RecognitionFailed =>
          notice := ImageUnreadable;
      }
      isProcessing := false;
    }

    /**
     * `handleOcrUpload`: nothing happens without a file or before the engine
     * has loaded; otherwise processing starts, the engine calls the logger with
     * each of `reports` and then ends with `outcome`.
     */
    method HandleOcrUpload(hasFile: bool, engineReady: bool, reports: seq<LoggerMessage>, outcome: OcrOutcome)
      returns (notice: Option<Notice>)
      requires Valid()
      modifies this
      ensures Valid()
      ensures !hasFile ==> notice == None && unchanged(this)
      ensures hasFile && !engineReady ==> notice == Some(OcrLoading) && unchanged(this)
      ensures hasFile && engineReady ==> !isProcessing && ocrProgress == ReportedProgress(0, reports)
      ensures hasFile && engineReady && outcome.RecognitionFailed? ==>
        notice == Some(ImageUnreadable) && form == old(form) && pastedText == old(pastedText) && showSmartPaste == old(showSmartPaste)
      ensures hasFile && engineReady && outcome.Recognized? ==>
        notice.Some? && AppliedFrom(old(form), outcome.text, old(showSmartPaste), outcome.text, notice.value)
    {
      if !hasFile {
        return None;
      }
      if !engineReady {
        return Some(OcrLoading);
      }
      StartOcrUpload();
      for i := 0 to |reports|
        invariant Valid()
        invariant ocrProgress == ReportedProgress(0, reports[..i])
        invariant form == old(form) && pastedText == old(pastedText) && showSmartPaste == old(showSmartPaste)
      {
        OcrLogger(reports[i]);
        assert reports[..i + 1][..i] == reports[..i];
      }
      assert reports[..|reports|] == reports;
      var n := FinishOcrUpload(outcome);
      notice := Some(n);
    }

    /** Loading the saved form when the editor opens: an object overlays the defaults, anything else leaves the form as it is. */
    method LoadSaved(saved: Option<JsonFile>, today: string)
      requires Valid()
      modifies this
      ensures Valid()
      ensures form == if saved.Some? && saved.value.Parsed? then Overlay(today, saved.value.obj) else old(form)
      ensures pastedText == old(pastedText) && showSmartPaste == old(showSmartPaste)
      ensures isProcessing == old(isProcessing) && ocrProgress == old(ocrProgress)
    {
      if saved.Some? && saved.value.Parsed? {
        form := Overlay(today, saved.value.obj);
      }
    }

    /** `importData`: an imported object overlays the defaults, a file that does not parse leaves the form as it is. */
    method ImportData(file: Option<JsonFile>, today: string) returns (notice: Option<Notice>)
      requires Valid()
      modifies this
      ensures Valid()
      ensures file.None? ==> notice == None && form == old(form)
      ensures file == Some(Malformed) ==> notice == Some(FileUnreadable) && form == old(form)
      ensures file.Some? && file.value.Parsed? ==> notice == Some(FileLoaded) && form == Overlay(today, file.value.obj)
      ensures pastedText == old(pastedText) && showSmartPaste == old(showSmartPaste)
      ensures isProcessing == old(isProcessing) && ocrProgress == old(ocrProgress)
    {
      if file.None? {
        return None;
      }
      match file.value
      case Parsed(obj) =>
        form := Overlay(today, obj);
        notice := Some(FileLoaded);
      case Malformed =>
        notice := Some(FileUnreadable);
    }
  }
}
