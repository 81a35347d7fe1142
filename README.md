# Smart import of the truck quote editor

The quote editor (`src/App.jsx`) is a single React component. It holds a quote form and lets the user fill the form's vehicle fields from free text. The text is either pasted into a modal or recognized from a photo. `parseTextToData` runs ten regular expressions over that text:

- price
- year
- VIN
- mileage
- engine
- transmission
- suspension
- towing capacity
- model
- brand

It collects what they capture into an updates object of at most thirteen keys. `applyUpdates` spreads that object over the form.

This project models that path in Dafny:

- **TextScan**: the character-level vocabulary of the JavaScript patterns. This covers `\s`, `\w`, `\b`, the character classes, case folding under the `i` flag without the `u` flag, greedy runs, `replace(/,/g, '')` and decimal digit strings. A string is a sequence of `char`, one per Unicode scalar value.
- **Patterns**: each of the ten regular expressions as a scanner that decides whether the pattern matches at one start position. The scanners follow the engine's order of trials:
  - alternatives are tried left to right;
  - greedy quantifiers try the longest run first;
  - `[\s:]*` gives characters back in front of a run class that also holds whitespace;
  - the suspension alternation falls back from the full word to `Susp`.

  `MatchIn` is `String.prototype.match` without `g`: the match at the leftmost start position that admits one.
- **Fields**: the form values (string, number, `null`), the thirteen import fields and their key names.
- **SmartImport**: each extractor's contribution and `Updates`, the field-wise specification of the result. `ParseTextToData` is the imperative method that assigns the keys one extractor after another. It is proved equal to `Updates`, and the sequential fold is proved equal to the field-wise one.
- **ParseProperties**: what each extractor contributes, stated against the leftmost match of its pattern; `SmartImport.UpdatesByOwner` carries that contribution over to the updates object, since no other extractor writes the same keys. It also covers the key pairing, the rejected first price that is never retried, the gate on run length, and the empty result for text that nothing matches.
- **ImportScenarios**: worked examples. "100 kms" is read as "100 km". "Cascadias" records the model "Cascadia". "$45,000.00" is the price 45000. A first price of 500 hides a later one of 5000. "Suspension:" records the clipped word "ension".
- **QuoteForm**: the rest of the path:
  - the default form;
  - the object spread and the defaults overlay used when a saved or imported form is loaded;
  - class `QuoteEditor`, holding `formData`, `pastedText`, `showSmartPaste`, `isProcessing` and `ocrProgress`, with the handlers that change them.

The OCR engine is a parameter of `HandleOcrUpload`:

- whether a file was chosen;
- whether the engine has loaded;
- the logger messages it sends;
- the outcome: recognized text or a thrown error.

`confirm` is a boolean, the date is a `today` parameter, and a JSON file is a parsed form or `Malformed`.

## Model

| member | source | states |
|---|---|---|
| SmartImport.ParseTextToData | src/App.jsx:160-204 | the updates object built by the ten assignments in turn is the field-wise `Updates`: each key holds what its own extractor gives, if anything |
| SmartImport.SequentialIsFieldwise | src/App.jsx:160-203 | running the extractors one after another gives the same object as taking each field from its own extractor; no assignment overwrites another extractor's key |
| SmartImport.MergedByOwner | src/App.jsx:160-203 | after any prefix of the extractors a key is present exactly when its owner has run and contributed it, with the owner's value |
| SmartImport.InOrderIsMerged | src/App.jsx:161-203 | the ten assignments written out in source order are the fold over the extractor list |
| SmartImport.KeysOfOwner | src/App.jsx:160-203 | each key is written by exactly one extractor |
| SmartImport.AllExtractorsRun | src/App.jsx:160-203 | every one of the ten extractors runs |
| SmartImport.Contribution | src/App.jsx:160-203 | an extractor contributes only its own keys |
| SmartImport.NoMatchNoContribution | src/App.jsx:160-203 | an extractor whose pattern matches nowhere contributes nothing |
| SmartImport.AssignPrice | src/App.jsx:162-166 | the price assignment merges the price contribution into the updates object |
| SmartImport.AssignYear | src/App.jsx:167-168 | the year assignment merges the year contribution |
| SmartImport.AssignVin | src/App.jsx:170-171 | the VIN assignment merges the VIN contribution |
| SmartImport.AssignMileage | src/App.jsx:173-174 | the mileage assignment merges the mileage contribution |
| SmartImport.AssignEngine | src/App.jsx:176-180 | the two engine assignments merge the engine contribution |
| SmartImport.AssignTransmission | src/App.jsx:182-186 | the transmission assignments merge the transmission contribution |
| SmartImport.AssignSuspension | src/App.jsx:188-192 | the suspension assignments merge the suspension contribution |
| SmartImport.AssignTowing | src/App.jsx:194-195 | the towing assignment merges the towing contribution |
| SmartImport.AssignModel | src/App.jsx:197-198 | the model assignment merges the model contribution |
| SmartImport.AssignBrand | src/App.jsx:200-201 | the brand assignment merges the brand contribution |
| SmartImport.Prefix | src/App.jsx:184 | `substring(0, 15)` keeps the first fifteen characters, or all of a shorter run, as a prefix |
| SmartImport.ParseDigits | src/App.jsx:164 | `parseFloat` of the comma-free digits is `NaN` exactly when the string does not start with a digit |
| SmartImport.LeadingDigits | src/App.jsx:164 | `parseFloat` reads the longest run of leading digits |
| SmartImport.PriceOf | src/App.jsx:164-165 | an accepted price is above 1000 |
| Fields.NamesAreTheVocabulary | src/App.jsx:160-203 | the key names are distinct, lookup by name inverts them, and they are exactly the thirteen keys the import writes |
| TextScan.RunEnd | src/App.jsx:173 | a greedy run of a class stops at the first character outside the class |
| TextScan.StripCommas | src/App.jsx:164 | removing commas leaves no comma, leaves a string without commas as it is, turns a run of digits and commas into a string of digits, and on one character removes a comma and keeps anything else |
| TextScan.StripCommasConcat | src/App.jsx:164 | removing commas from a concatenation removes them from each part; with the one-character case, every character other than a comma is kept, in order |
| TextScan.Upper | src/App.jsx:171 | `toUpperCase` keeps the length and upper-cases each ASCII letter in place |
| TextScan.Fold | src/App.jsx:162 | the `i` flag maps each lower-case ASCII letter to its upper-case letter, 32 code points lower, and o-acute to O-acute, and leaves every other character alone |
| Patterns.FirstAlternative | src/App.jsx:162 | an alternation settles on the first alternative that matches, and fails only when none does |
| Patterns.GroupStart | src/App.jsx:182 | the greedy `[\s:]*` gives back characters until the run's class can start, from its longest extent down |
| Patterns.PriceDigitsStart | src/App.jsx:162 | the digit group starts on a digit or comma at most two characters after the marker; the characters skipped are separators (space, dot or colon), and when two are skipped the second is a space |
| Patterns.FractionEnd | src/App.jsx:162 | the optional cents are taken exactly when a dot and two digits follow the digit group, and then span those three characters; otherwise nothing is taken |
| Patterns.PriceAt | src/App.jsx:162 | a price match starts at the position tried, records the longest non-empty run of digits and commas there, and ends after the cents whenever a dot and two digits follow the run |
| Patterns.PriceMatchShape | src/App.jsx:162 | a price match starts with `$`, `precio` or `valor`, ignoring case, and only `[\s\.:]?\s?` separates that marker from the digit group: at most two characters, each a space, dot or colon, and the second of two a space |
| Patterns.YearAt | src/App.jsx:167 | a year match starts at the position tried and lies within the text; `YearAtIsModelYear` says when it exists |
| Patterns.VinAt | src/App.jsx:170 | a VIN match starts at the position tried and lies within the text; `VinMatchShape` gives its span and alphabet |
| Patterns.MileageAt | src/App.jsx:173 | a mileage match starts at the position tried and lies within the text; `MileageUnitIsNotKms` gives its first character and unit |
| Patterns.EngineAt | src/App.jsx:176 | an engine match starts at the position tried and lies within the text; `EngineMatchShape` gives its maker |
| Patterns.KeywordTail | src/App.jsx:182 | the `[\s:]*` tail after a keyword records a non-empty run that starts no earlier than the keyword's end and ends the match |
| Patterns.TransmissionAt | src/App.jsx:182 | a transmission match starts at the position tried and lies within the text; `TransmissionMatchShape` gives its keyword |
| Patterns.SuspensionAt | src/App.jsx:188 | a suspension match starts at the position tried and lies within the text; `SuspensionMatchShape` gives its keyword and `ImportScenarios.SuspensionFallsBackToSusp` shows the fall-back to `Susp` |
| Patterns.FullSuspensionAt | src/App.jsx:188 | a match of the full suspension word and its tail starts at the position tried and lies within the text |
| Patterns.TowingTail | src/App.jsx:194 | the tail after a towing keyword records a capacity that starts with a digit or comma and ends with `Lbs`, `Kg` or `Tons`, ignoring case |
| Patterns.NameAt | src/App.jsx:197-200 | a match of a bare alternation of names starts at the position tried and lies within the text; `NameMatchShape` says it is one of the names |
| Patterns.ModelAt | src/App.jsx:197 | a model match starts at the position tried and lies within the text |
| Patterns.BrandAt | src/App.jsx:200 | a brand match starts at the position tried and lies within the text |
| Patterns.FirstStart | src/App.jsx:162 | the search from a position returns a position no earlier, inside the text, where the scanner matches; `FirstStartIsFirst` says it is the first one |
| Patterns.YearAtIsModelYear | src/App.jsx:167 | the year pattern matches at a position exactly when a whole word of four digits worth 2010 to 2029 starts there |
| Patterns.VinMatchShape | src/App.jsx:170 | a VIN match spans seventeen characters between word boundaries and, upper-cased, uses only A-H, J-N, P, R-Z and digits |
| Patterns.KmBeforeKms | src/App.jsx:173 | the unit alternation never settles on `kms`, because `km` is tried first |
| Patterns.MileageUnitIsNotKms | src/App.jsx:173 | a mileage match starts with a digit or comma and its unit is `km`, `millas` or `miles`, ignoring case |
| Patterns.EngineMatchShape | src/App.jsx:176 | the engine group is one of the five makers, ignoring case, and a prefix of the whole match |
| Patterns.BacktrackedRunIsOneChar | src/App.jsx:182 | a run that the backtracking of `[\s:]*` starts on whitespace is one character long |
| Patterns.TransmissionMatchShape | src/App.jsx:182 | a transmission match starts with one of the keywords, ignoring case |
| Patterns.SuspensionMatchShape | src/App.jsx:188 | a suspension match starts with `Suspension`, `Suspensión` or `Susp`, ignoring case |
| Patterns.TowingAt | src/App.jsx:194 | group 2 of a towing match starts with a digit or comma and ends with `Lbs`, `Kg` or `Tons`, ignoring case |
| Patterns.NameMatchShape | src/App.jsx:197 | a model or brand match is one of the names, ignoring case |
| Patterns.FirstStartIsFirst | src/App.jsx:162 | the search returns the first start position that admits a match, and fails exactly when none does |
| Patterns.FirstStartIsLeftmost | src/App.jsx:162 | the position the search finds is the leftmost one that admits a match |
| Patterns.MatchInIsLeftmost | src/App.jsx:162 | `match` returns the match at the leftmost start that admits one |
| Patterns.MatchInFails | src/App.jsx:162 | `match` fails exactly when no start position admits a match |
| ParseProperties.NoMatchNoField | src/App.jsx:160-203 | a key is absent when its pattern matches nowhere |
| ParseProperties.EmptyTextGivesNoUpdates | src/App.jsx:160-204 | the empty text gives the empty updates object |
| ParseProperties.PairedKeys | src/App.jsx:176-192 | the two engine keys, the two transmission keys and the two suspension keys are each present together or not at all |
| ParseProperties.OwnedPair | src/App.jsx:176-192 | two keys contributed together by one extractor are present together in the updates object |
| ParseProperties.EngineKeysTogether | src/App.jsx:176-180 | the engine keys are present together |
| ParseProperties.TransmissionKeysTogether | src/App.jsx:182-186 | the transmission keys are present together |
| ParseProperties.SuspensionKeysTogether | src/App.jsx:188-192 | the suspension keys are present together |
| ParseProperties.ParseDigitsOfDigits | src/App.jsx:164 | `parseFloat` of a string of digits is its value, or `NaN` when it is empty |
| ParseProperties.PriceOfDigitRun | src/App.jsx:164-165 | a digit run without commas is accepted exactly when its value is above 1000, and then has that value |
| ParseProperties.PriceField | src/App.jsx:162-166 | the price extractor, `PriceUpdate`, contributes `price` exactly when the leftmost price match's digits are worth more than 1000, with that value and without the cents; a later match is never tried |
| ParseProperties.YearField | src/App.jsx:167-168 | the year extractor, `YearUpdate`, contributes `year` as the leftmost whole-word four-digit string worth 2010 to 2029 |
| ParseProperties.VinField | src/App.jsx:170-171 | the VIN extractor, `VinUpdate`, contributes `vin` as the upper-casing of the leftmost whole word of seventeen VIN characters: seventeen characters, only A-H, J-N, P, R-Z and digits |
| ParseProperties.MileageField | src/App.jsx:173-174 | the mileage extractor, `MileageUpdate`, contributes `mileage` as the whole leftmost mileage match, starting with a digit or comma and ending in `km`, `millas` or `miles` |
| ParseProperties.EngineFields | src/App.jsx:176-180 | the engine extractor, `EngineUpdate`, contributes `engineShort`, one of the makers ignoring case, and `engineFull`, the whole leftmost engine match, of which the maker is a prefix |
| ParseProperties.TransmissionFields | src/App.jsx:182-186 | the transmission extractor, `TransmissionUpdate`, contributes both keys exactly when the run is longer than three characters; `transmissionShort` is its first fifteen characters and `transmissionFull` the whole match, which starts with a keyword |
| ParseProperties.SuspensionFields | src/App.jsx:188-192 | the suspension extractor, `SuspensionUpdate`, contributes both keys exactly when the run is longer than three characters; `suspensionShort` is its first fifteen characters and `suspensionFull` the run |
| ParseProperties.TowingField | src/App.jsx:194-195 | the towing extractor, `TowingUpdate`, contributes `towingCapacity` as group 2 of the leftmost towing match, from a digit or comma to a unit |
| ParseProperties.ModelField | src/App.jsx:197-198 | the model extractor, `ModelUpdate`, contributes `model` as the leftmost occurrence of a model name, ignoring case, even inside a longer word |
| ParseProperties.BrandField | src/App.jsx:200-201 | the brand extractor, `BrandUpdate`, contributes `brand` as the leftmost occurrence of a brand name, ignoring case, even inside a longer word |
| ImportScenarios.MileageOfKms | src/App.jsx:173 | in "100 kms" the mileage pattern matches "100 km" from the first character |
| ImportScenarios.KmsIsReadAsKm | src/App.jsx:173-174 | "100 kms" sets `mileage` to "100 km" |
| ImportScenarios.ModelInCascadias | src/App.jsx:197 | in "Cascadias" the model name "Cascadia" matches at the start |
| ImportScenarios.PluralModelIsRecorded | src/App.jsx:197-198 | "Cascadias" sets `model` to "Cascadia" |
| ImportScenarios.EngineOfCummins | src/App.jsx:176 | "Cummins ISX15" is one engine match whose group is "Cummins" |
| ImportScenarios.CumminsEngine | src/App.jsx:176-180 | "Cummins ISX15" sets `engineShort` to "Cummins" and `engineFull` to the whole text |
| ImportScenarios.TransmissionOfShortRun | src/App.jsx:182 | in "Eaton: 18" the transmission run is "18" |
| ImportScenarios.ShortTransmissionRunIsIgnored | src/App.jsx:183 | "Eaton: 18" sets neither transmission key |
| ImportScenarios.SuspensionFallsBackToSusp | src/App.jsx:188 | in "Suspension:" the full word leaves no run after the colon, so the match falls back to `Susp` and its run is "ension" |
| ImportScenarios.SuspensionRunIsEnsion | src/App.jsx:188 | in "Suspension:" the run of the suspension match is "ension" |
| ImportScenarios.ClippedSuspensionWord | src/App.jsx:188-192 | "Suspension:" sets both suspension keys to "ension" |
| ImportScenarios.CommasOf45000 | src/App.jsx:164 | "45,000" without commas is "45000" |
| ImportScenarios.ValueOf45000 | src/App.jsx:164 | "45000" is worth 45000 |
| ImportScenarios.DigitsOf500 | src/App.jsx:164 | "500" has no comma and is worth 500 |
| ImportScenarios.PriceOfDollars | src/App.jsx:162 | in "$45,000.00" the digit group is "45,000" and the match takes the cents |
| ImportScenarios.DollarsArePrice | src/App.jsx:162-166 | "$45,000.00" sets `price` to 45000 |
| ImportScenarios.PriceOfSmallAmount | src/App.jsx:162 | in "$500 o $5000" the first price match is "$500" |
| ImportScenarios.SmallFirstPriceIsNotRetried | src/App.jsx:162-166 | "$500 o $5000" sets no price: the first match is rejected and the later one is never tried |
| QuoteForm.EveryKeyIsAFormKey | src/App.jsx:40-88 | the key set lists every form key, the imported ones included |
| QuoteForm.DefaultData | src/App.jsx:40-88 | the default form holds every key, each with its default value |
| QuoteForm.DefaultsOfTheImportedFields | src/App.jsx:46-77 | a new quote has price 0, no logo, today's date, and every other imported field empty |
| QuoteForm.ImportedNames | src/App.jsx:40-88 | the form keys the import writes carry the same names as the import's keys |
| QuoteForm.Spread | src/App.jsx:242 | the object spread has the keys of both objects, the second's values where it has them and the first's otherwise |
| QuoteForm.Overlay | src/App.jsx:98 | loading an object gives a form with every key, holding the object's value where it has one and the default otherwise |
| QuoteForm.OverlayOfCompleteForm | src/App.jsx:270 | loading a complete form gives it back, and loading the empty object gives the defaults |
| QuoteForm.Imports | src/App.jsx:242 | the updates object as form properties has exactly the imported keys of its fields, with the same values |
| QuoteForm.ReportedProgress | src/App.jsx:226 | the progress shown is the percentage of the last message whose status is `recognizing text`, or the starting value when no message has that status |
| QuoteForm.LastRecognizingOfPrefix | src/App.jsx:226 | a message that is not about recognition leaves the last recognizing message of the earlier ones in place |
| QuoteForm.QuoteEditor.constructor | src/App.jsx:32-90 | the editor opens with the default form, no pasted text, the modal closed, nothing processing and progress 0 |
| QuoteForm.QuoteEditor.HandleInputChange | src/App.jsx:126-129 | one input sets its own key to its text, and every other key and field keeps its value |
| QuoteForm.QuoteEditor.EditPastedText | src/App.jsx:370 | typing in the import text area sets the pasted text and changes nothing else |
| QuoteForm.QuoteEditor.SetSmartPasteOpen | src/App.jsx:349 | the `Importar` button of line 403 opens the import modal and its close button closes it, with the form and pasted text kept |
| QuoteForm.QuoteEditor.ResetForm | src/App.jsx:153-157 | on confirmation the form becomes the defaults; otherwise nothing changes |
| QuoteForm.QuoteEditor.ApplyUpdates | src/App.jsx:240-250 | a non-empty updates object overwrites exactly its own keys, keeps every other key, clears the pasted text, closes the modal and reports the count; an empty one changes nothing and says so |
| QuoteForm.QuoteEditor.HandleSmartParse | src/App.jsx:206-210 | without pasted text nothing changes; otherwise the form is the old form with `parseTextToData` of the text applied, and the alert gives the number of detected fields or says none were found |
| QuoteForm.QuoteEditor.StartOcrUpload | src/App.jsx:221-222 | processing starts with progress 0 and the form untouched |
| QuoteForm.QuoteEditor.OcrLogger | src/App.jsx:226 | the progress changes only for a message reporting text recognition |
| QuoteForm.QuoteEditor.FinishOcrUpload | src/App.jsx:224-237 | after recognition the text becomes the pasted text, its updates are applied and the alert gives their count or says none were found; after a failure the form, pasted text and modal are untouched; processing ends either way |
| QuoteForm.QuoteEditor.HandleOcrUpload | src/App.jsx:212-238 | without a file, or before the engine loads, nothing changes; otherwise processing ends false, the progress is the last one reported, a failure leaves the form untouched, and a success applies the recognized text's updates with the alert `applyUpdates` gives for them |
| QuoteForm.QuoteEditor.LoadSaved | src/App.jsx:93-100 | a saved object that parses overlays the defaults; anything else leaves the form as it is |
| QuoteForm.QuoteEditor.ImportData | src/App.jsx:263-277 | an imported object that parses overlays the defaults and is reported as loaded; a file that does not parse leaves the form as it is and is reported as an error |

## Left out

- Rendering, print styles and the editor/preview tabs are left out: they are presentation only. So are `activeTab`, `isGeneratingPdf` and PDF generation, which are DOM work and a foreign library.
- `localStorage`, `JSON.parse`, `JSON.stringify` and the JSON export are left out: they are I/O and library calls. Their results are parameters here: a `JsonFile` is either a parsed form or `Malformed`.
- A parsed JSON value is taken to be an object whose keys are form keys and whose values are strings, numbers or `null`. Other JSON values and unknown keys are not modelled.
- The script tags that load the OCR and PDF libraries are left out: they are DOM work.
- The recognition engine itself is a parameter of `HandleOcrUpload`: readiness, the logger messages and the outcome.
- `Math.round(m.progress * 100)` is floating point, so a logger message carries the percentage already rounded.
- The awaits in `handleOcrUpload` are run to completion in one call. Other handlers interleaving with them, driven by user events, are not modelled.
- The photo and logo uploads through `FileReader` are left out: they are asynchronous browser I/O. The same goes for `formatCurrency`, which relies on `Intl.NumberFormat`.
- QuoteForm.QuoteEditor.ImportData: `importData` reads the chosen file through an asynchronous `FileReader`; the model runs its `onload` at once, with the parsed result as an argument, so edits made while the file is being read are not modelled.
- `alert` becomes a returned `Notice`, and `confirm` is a boolean argument.
- `new Date()` in the default quote date reads the clock, so the date part is a `today` argument.
- SmartImport.ParseDigits: `parseFloat` is modelled on strings of digits as their exact natural value. Float rounding of very long digit runs, and the value `NaN` beyond "not a number", are not modelled.
- TextScan: a character outside the Basic Multilingual Plane counts as one character, where JavaScript counts two code units; no pattern, class or length gate here observes the difference.
- TextScan: Unicode case mappings beyond the characters the patterns can observe are not modelled.
- QuoteForm.QuoteEditor.HandleInputChange: an input's `name` is one of the form keys, and its value is stored as a string.
- The state setters of React are modelled as direct field updates; the batching of updates within one event is not modelled.
