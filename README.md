# GMDC tender RFP generator — a verified model of its core

The GMDC tender front end is a single-page form. An officer uses it to fill in
a Request for Proposal (RFP), and the page assembles a Word document from the
entries. This project models, in Dafny, the parts of that front end that
decide what the officer sees and what the document contains:

- **The RFP form state.** `RfpFormState.RfpForm` is a class holding the form
  record, the generated RFP number, the active tab, the chosen RFP type and
  the latch that fixes the type once the details tab is left. Each handler
  is a method:
  - `handleChange` together with RFP-number regeneration;
  - `handleCurrencyChange`, `handleRfpTypeChange` and the file and
    scope-of-work handlers;
  - `goToNextTab`/`goToPrevTab`;
  - submission.

  Each React effect runs inside the handler that changes what the effect
  depends on:
  - the tender-fee/EMD effect runs after the estimated amount changes;
  - the type latch runs after the active tab changes.
- **Fees and currency text** (`Currency`). This module models:
  - the four fee bands and the 3 per cent earnest money deposit (EMD);
  - the thousands-separator formatter and its parser;
  - the cleaning of typed amounts.
- **The RFP number** (`RfpNumbers`): the
  `GMDC/location/department/title/serial/year` template.
- **The scope-of-work sub-form** (`ScopeOfWork`). The class
  `ScopeOfWork.ScopeOfWorkForm` covers:
  - its default record;
  - the text and deliverable-list edits;
  - the tender-title effect and the auto-save condition;
  - AI generation with normalisation of the reply.

  The network call is a parameter of the model.
- **The document generator** (`DocumentOutline`, `DocumentGenerator`).
  - *What it produces.* `generateRfpDocument` returns one of three things:
    - the uploaded file, for type "other";
    - a maintenance or supply cover page;
    - the long consultancy RFP.
  - *How a document is represented.* `DocumentOutline` gives each output as
    a list of blocks: paragraphs, a table of contents and tables of cells.
    Every fixed sentence is a named `Passages.Passage`, and the record's
    values fill its slots.
  - *How it is built.* `DocumentGenerator` builds the consultancy document
    step by step, as the source pushes onto its `children` list. Each loop
    is proved to produce exactly the outline:
    - the definitions;
    - the lines of special requirements and scope details;
    - the deliverable rows.
- **String helpers** (`Strings`). These are the JavaScript string operations
  the source relies on, stated over `seq<char>` and proved about:
  - `trim`, `split` and `includes`;
  - case-insensitive search;
  - `replace` with a pattern.

Optional fields of the source (`budget?`, the schedule dates and so on) are
only ever tested for truthiness. The model therefore uses `string`, with `""`
standing for both `undefined` and the empty string. `contractDuration` in the
document record is an `int`, with 0 for every falsy value; the source
replaces 0 with 12.

## Model

| member | source | states |
|---|---|---|
| `Currency.DigitChar` | components/rfp-form.tsx:52 | a digit below ten is written as a decimal digit character |
| `Currency.DigitValue` | components/rfp-form.tsx:57 | a digit character denotes a digit below ten, and writing that digit gives the character back |
| `Currency.Digits` | components/rfp-form.tsx:52 | `toString` of a non-negative amount is a non-empty digit string, has no leading zero except for 0 itself, and has one digit exactly below 10 |
| `Currency.DigitsShort` | components/rfp-form.tsx:52 | an amount has at most three digits exactly when it is below 1000, the point where the formatter starts inserting commas |
| `Currency.ValueOfDigits` | components/rfp-form.tsx:52-57 | reading back the digits written for `n` gives `n` |
| `Currency.TenderFee` | components/rfp-form.tsx:28-42 | the default tender fee is always one of 1500, 2500, 5000 and 15000 |
| `Currency.TenderFeeMonotone` | components/rfp-form.tsx:28-42 | a larger estimate never lowers the fee |
| `Currency.TenderFeeBoundaries` | components/rfp-form.tsx:29-40 | each band's upper bound (25 lakh, 50 lakh, 1 crore) still belongs to its own band, and the next rupee moves to the next band |
| `Currency.Emd` | components/rfp-form.tsx:45-48 | the EMD is 3 per cent of the estimate rounded to the nearest rupee (within half a rupee), and it is non-negative for a non-negative estimate |
| `Currency.EmdExample` | components/rfp-form.tsx:45-48 | 3 per cent of 50 lakh is 1.5 lakh |
| `Currency.RemoveCommas` | components/rfp-form.tsx:57 | removing commas leaves no comma and never lengthens the text |
| `Currency.RemoveCommasConcat` | components/rfp-form.tsx:57 | comma removal distributes over concatenation |
| `Currency.RemoveCommasWithout` | components/rfp-form.tsx:57 | a comma-free text is unchanged |
| `Currency.LeadingDigits` | components/rfp-form.tsx:57 | `parseInt` reads the longest prefix of digits and stops at the first non-digit |
| `Currency.ParseCurrencyOfDigits` | components/rfp-form.tsx:56-58 | on digits and commas, `parseCurrency` is the value of the digits, with the commas ignored |
| `Currency.DigitsAndCommasParse` | components/rfp-form.tsx:57 | without its commas, such a text is all digits; `parseInt` gives NaN for it exactly when no digit is left, and otherwise its value |
| `Currency.RemoveCommasKeepsDigits` | components/rfp-form.tsx:57 | removing commas from digits and commas leaves only digits |
| `Currency.LeadingDigitsOfDigits` | components/rfp-form.tsx:57 | on a digit string, `parseInt` reads every character |
| `Currency.RemoveCommasJoinGroup` | components/rfp-form.tsx:52-57 | a separator comma followed by a comma-free group contributes exactly that group |
| `Currency.RemoveCommasGroup` | components/rfp-form.tsx:52-57 | removing the commas the formatter inserted gives back the digits |
| `Currency.FormatDigits` | components/rfp-form.tsx:51-57 | `formatCurrency(n)` without its commas is `n.toString()` |
| `Currency.GroupShape` | components/rfp-form.tsx:52 | grouping a digit run gives a leading group of one to three digits followed by groups of exactly three, with a comma exactly when there are more than three digits |
| `Currency.FormatGroups` | components/rfp-form.tsx:51-53 | `formatCurrency(n)` is a group of one to three digits followed by three-digit groups, and contains a comma exactly when n is at least 1000 |
| `Currency.ParseFormat` | components/rfp-form.tsx:51-58 | round trip: `parseCurrency(formatCurrency(n)) == n` for every non-negative n |
| `Currency.GroupKeepsDigitsAndCommas` | components/rfp-form.tsx:52 | grouping keeps a text made of digits and commas |
| `Currency.GroupNonEmpty` | components/rfp-form.tsx:52 | grouping a non-empty text gives a non-empty text |
| `Currency.FormatIsDigitsAndCommas` | components/rfp-form.tsx:51-53 | a formatted amount is non-empty and made of digits and commas |
| `Currency.ParseCurrencyEmpty` | components/rfp-form.tsx:57 | an empty text parses as 0 (NaN replaced by 0) |
| `Currency.ParseCurrencyCommasOnly` | components/rfp-form.tsx:57 | a text of commas alone parses as 0 |
| `Currency.CommasOnlyRemoved` | components/rfp-form.tsx:57 | removing commas from commas alone leaves nothing |
| `Currency.KeepDigitsAndCommas` | components/rfp-form.tsx:170 | the filter's output has only digits and commas, and it is empty exactly when the input has neither |
| `Currency.KeepDigitsAndCommasIdentity` | components/rfp-form.tsx:170 | text of digits and commas passes the filter unchanged |
| `Currency.CurrencyInputEmpty` | components/rfp-form.tsx:168-176 | the stored value is empty exactly when the typed text has no digit and no comma; a lone comma is stored as "0" |
| `Currency.CurrencyInputValue` | components/rfp-form.tsx:168-176 | a non-empty stored value is the canonical formatted value of the digits typed |
| `Currency.CurrencyInputIdempotent` | components/rfp-form.tsx:168-176 | normalising an already normalised value changes nothing |
| `RfpNumbers.GenerateRfpNumber` | lib/rfp-utils.ts:5-13 | the number's length is the segments' lengths plus the prefix "GMDC" and five slashes |
| `RfpNumbers.RfpNumberIsJoin` | lib/rfp-utils.ts:12 | the number is "GMDC", then location, department, short title, serial number and financial year, joined by "/" in that order |
| `RfpNumbers.SegmentsVerbatim` | lib/rfp-utils.ts:12 | every segment appears verbatim at its offset after the fixed prefix |
| `RfpNumbers.SplitRfpNumber` | lib/rfp-utils.ts:12 | when no segment contains "/", splitting the number at "/" gives back "GMDC" and the five segments |
| `RfpNumbers.RfpNumberInjective` | lib/rfp-utils.ts:12 | for slash-free segments, equal numbers mean equal segments |
| `RfpNumbers.SlashInSegmentCollides` | lib/rfp-utils.ts:12 | without that condition, two different segment tuples give the same number |
| `RfpNumbers.RfpNumberExample` | lib/rfp-utils.ts:3 | Ahmedabad/IT/AITG/01/24-25 gives "GMDC/Ahmedabad/IT/AITG/01/24-25" |
| `Strings.TrimStartSpec` | lib/document-generator.ts:440 | `trimStart` gives the suffix after the leading white space, which starts with a non-space or is empty |
| `Strings.TrimEndSpec` | lib/document-generator.ts:440 | `trimEnd` gives the prefix before the trailing white space, which ends with a non-space or is empty |
| `Strings.TrimSpec` | lib/document-generator.ts:440 | `trim` never lengthens, leaves no white space at either end, is empty exactly for all-white-space input, and is idempotent |
| `Strings.Split` | lib/document-generator.ts:425 | `split` always yields at least one piece |
| `Strings.SplitSpec` | lib/document-generator.ts:425 | no piece contains the separator, and joining the pieces with it gives back the text |
| `Strings.SplitWithoutSeparator` | lib/document-generator.ts:425 | a text without the separator is one piece |
| `Strings.SplitAround` | lib/document-generator.ts:425 | the pieces of `a + sep + b` are those of `a` followed by those of `b` |
| `Strings.SplitJoin` | lib/document-generator.ts:425 | separator-free parts are recovered exactly from their joined form |
| `Strings.SplitCount` | lib/document-generator.ts:570 | a text with n separators has n + 1 pieces |
| `Strings.FindIgnoringCase` | components/scope-of-work-form.tsx:230 | the search returns the first position at or after `from` where the pattern matches ignoring case, and None only when there is none |
| `Strings.ContainsFindsIgnoringCase` | components/scope-of-work-form.tsx:228-230 | when `includes` succeeds, the case-insensitive `replace` finds a match |
| `Strings.RemoveFirstShortens` | components/scope-of-work-form.tsx:230 | a successful removal drops at least the matched pattern |
| `ScopeOfWork.SetItemField` | components/scope-of-work-form.tsx:116-119 | the edited field of a deliverable takes the value, and the other field is kept |
| `ScopeOfWork.UpdateItem` | components/scope-of-work-form.tsx:114-121 | the copied list has the same length; entry `index` has the field changed and the other field kept; every other entry is unchanged |
| `ScopeOfWork.AppendItem` | components/scope-of-work-form.tsx:132-134 | adding appends one empty deliverable and keeps the old entries as a prefix |
| `ScopeOfWork.RemoveItem` | components/scope-of-work-form.tsx:136-139 | the filter drops exactly entry `index` when it exists, and otherwise returns the list unchanged |
| `ScopeOfWork.RemoveOfferedKeepsNonEmpty` | components/scope-of-work-form.tsx:409-410 | a removal the form offers (two or more rows) leaves one fewer row and at least one |
| `ScopeOfWork.InitialScopeOfWork` | components/scope-of-work-form.tsx:46-77 | the initial record is the given data, else the default record with the tender title as project title |
| `ScopeOfWork.SyncTenderTitle` | components/scope-of-work-form.tsx:83-90 | only the project title can change; when the tender title is set, the project title is set to it if it is empty or already equal, so it changes exactly when it was empty |
| `ScopeOfWork.MountSync` | components/scope-of-work-form.tsx:66-90 | after mounting, a given record without a project title has the tender title as its title, one with a title keeps it unchanged, and a fresh default record is already in sync |
| `ScopeOfWork.SyncKeepsUserTitle` | components/scope-of-work-form.tsx:83-90 | a project title the user typed is never overwritten, and syncing twice is syncing once |
| `ScopeOfWork.AutoSaveIgnoresLists` | components/scope-of-work-form.tsx:96 | list edits alone never decide the auto-save, and a fresh record auto-saves exactly when a tender title was given |
| `ScopeOfWork.DefaultTimelines` | components/scope-of-work-form.tsx:186-224 | the fallback deliverables are three, due at T+3, T+4 and T+6 months; the extension ones are two, due at T1+3 and T1+6 months |
| `ScopeOfWork.SowRequest` | components/scope-of-work-form.tsx:170-178 | the request carries the props, project type "Consultancy", and the form's budget and special requirements |
| `ScopeOfWork.StripQuotes` | components/scope-of-work-form.tsx:231 | removing the surrounding quotes never lengthens the title |
| `ScopeOfWork.CleanProjectTitle` | components/scope-of-work-form.tsx:226-233 | a title without "PROJECT TITLE:" is untouched; one with it becomes strictly shorter and trimmed |
| `ScopeOfWork.CleanScopeDetails` | components/scope-of-work-form.tsx:235-239 | details without "DETAILED" are untouched; details with it become strictly shorter and trimmed |
| `ScopeOfWork.NormalizeResponse` | components/scope-of-work-form.tsx:186-249 | sets each field from the reply or its fallback, exactly as the form does, so both lists are always non-empty |
| `ScopeOfWork.EmptyReplyGivesDefaults` | components/scope-of-work-form.tsx:186-249 | a reply without content gives the fixed defaults, the tender title and the form's own budget and requirements |
| `ScopeOfWork.ScopeOfWorkForm.constructor` | components/scope-of-work-form.tsx:66-90 | mounting sets the record from the initialiser and then runs the tender-title effect once on it |
| `ScopeOfWork.ScopeOfWorkForm.TenderTitleChanged` | components/scope-of-work-form.tsx:83-90 | the tender-title effect applies the sync to the record |
| `ScopeOfWork.ScopeOfWorkForm.AutoSave` | components/scope-of-work-form.tsx:93-102 | the record is saved exactly when the details, project title or budget is filled in |
| `ScopeOfWork.ScopeOfWorkForm.ChangeText` | components/scope-of-work-form.tsx:104-112 | exactly the named text field changes, and the lists stay non-empty |
| `ScopeOfWork.ScopeOfWorkForm.ChangeDeliverable` | components/scope-of-work-form.tsx:114-121 | only the deliverable list changes, by the single-entry update |
| `ScopeOfWork.ScopeOfWorkForm.ChangeExtensionDeliverable` | components/scope-of-work-form.tsx:123-130 | only the extension list changes, by the single-entry update |
| `ScopeOfWork.ScopeOfWorkForm.AddDeliverable` | components/scope-of-work-form.tsx:132-134 | one empty deliverable is appended, and nothing else changes |
| `ScopeOfWork.ScopeOfWorkForm.AddExtensionDeliverable` | components/scope-of-work-form.tsx:141-143 | one empty extension deliverable is appended, and nothing else changes |
| `ScopeOfWork.ScopeOfWorkForm.RemoveDeliverable` | components/scope-of-work-form.tsx:136-139 | exactly the chosen row is dropped; the list keeps at least one row |
| `ScopeOfWork.ScopeOfWorkForm.RemoveExtensionDeliverable` | components/scope-of-work-form.tsx:145-148 | exactly the chosen extension row is dropped; the list keeps at least one row |
| `ScopeOfWork.ScopeOfWorkForm.GenerateScopeOfWork` | components/scope-of-work-form.tsx:155-267 | without a department or tender title no request is made and nothing changes; an empty or failed reply leaves the record unchanged and reports the error message; a reply replaces the record by its normalised form |
| `DocumentOutline.DispatchCases` | lib/document-generator.ts:59-81 | the upload is passed through exactly for type "other" with a file; maintenance and supply get their covers; every other type gets the consultancy RFP |
| `DocumentOutline.ShortTemplates` | lib/document-generator.ts:2100-2212 | the maintenance and supply documents have 8 and 10 paragraphs; the title or item name appears when set, and its placeholder otherwise; they depend on nothing but the RFP number, that name and the date |
| `DocumentOutline.DefinitionParagraphs` | lib/document-generator.ts:281-306 | one paragraph per definition, in order |
| `DocumentOutline.TwoDigits` | lib/document-generator.ts:185-279 | a two-digit number is written as its tens digit, then its units digit |
| `DocumentOutline.DefinitionNumbersOneDigit` | lib/document-generator.ts:185-220 | definitions one to nine are numbered "1." to "9." |
| `DocumentOutline.DefinitionNumbersTwoDigits` | lib/document-generator.ts:221-279 | definitions ten to twenty-three are numbered "10." to "23." |
| `DocumentOutline.DefinitionNumbers` | lib/document-generator.ts:185-279 | there are 23 definitions, numbered "1." to "23." in order |
| `DocumentOutline.DefinitionsNumbered` | lib/document-generator.ts:281-306 | the definitions part has 23 paragraphs, the k-th opening with "k." |
| `DocumentOutline.LineParagraphs` | lib/document-generator.ts:439-452 | never more paragraphs than lines |
| `DocumentOutline.LineParagraphsSound` | lib/document-generator.ts:439-452 | every paragraph shows one non-blank line unchanged |
| `DocumentOutline.LineParagraphsComplete` | lib/document-generator.ts:439-452 | every non-blank line gets its paragraph |
| `DocumentOutline.LineParagraphsKeepNonBlank` | lib/document-generator.ts:439-452 | a paragraph is produced exactly for the non-blank lines |
| `DocumentOutline.BlankPieces` | lib/document-generator.ts:425-440 | every piece of an all-white-space text is blank |
| `DocumentOutline.LineParagraphsSingle` | lib/document-generator.ts:470-486 | a single non-blank line gives exactly its own paragraph |
| `DocumentOutline.LineParagraphsBlank` | lib/document-generator.ts:470-486 | an all-white-space text gives no paragraph |
| `DocumentOutline.LinesCellShape` | lib/document-generator.ts:569-598 | an empty text gives its fallback; otherwise the cell has one paragraph per line, each line trimmed |
| `DocumentOutline.ItemRows` | lib/document-generator.ts:566-612 | one row per deliverable, in order |
| `DocumentOutline.ItemRowsSnoc` | lib/document-generator.ts:567-612 | one more deliverable adds its row at the end |
| `DocumentOutline.DeliverableTableShape` | lib/document-generator.ts:566-673 | a header, then one two-cell row per deliverable, or exactly the placeholder row when there are none |
| `DocumentOutline.ScopeSectionParts` | lib/document-generator.ts:394-498 | the title, budget and special-requirements paragraphs appear exactly when those fields are set; empty details get the placeholder; the extension year falls back to "___" |
| `DocumentOutline.ScopeSectionOpening` | lib/document-generator.ts:380-420 | Section II opens with its heading, then the project title when set; with no optional fields, the scope heading comes next |
| `DocumentOutline.BlankDetailsGiveNoParagraph` | lib/document-generator.ts:468-498 | non-empty details never give the placeholder, so all-white-space details leave the heading without any paragraph |
| `DocumentOutline.ScheduleTableShape` | lib/document-generator.ts:1250-1546 | the schedule has a header and eight three-cell rows numbered "1" to "8" |
| `DocumentOutline.ScheduleTableSlots` | lib/document-generator.ts:1250-1546 | each of the six dates and the two contacts shows its value when set, and `__/__/2025` (dates) or a line of underscores (contacts) otherwise |
| `DocumentOutline.ConsultancyParts` | lib/document-generator.ts:93-1870 | the consultancy document is the opening, the optional estimate, then the remainder |
| `DocumentOutline.OpeningLength` | lib/document-generator.ts:95-360 | the part before the estimate is 46 blocks |
| `DocumentOutline.OpeningLayout` | lib/document-generator.ts:95-360 | the cover's title falls back to "(To be Inserted)"; the RFP number, table of contents and 23 definitions sit at fixed places; the engagement paragraph falls back to 12 months |
| `DocumentOutline.NoEstimateConcat` | lib/document-generator.ts:363-377 | two parts without the estimate paragraph's shape give a whole without it |
| `DocumentOutline.NoEstimateInLines` | lib/document-generator.ts:439-486 | line paragraphs never take the estimate's shape |
| `DocumentOutline.NoEstimateInOpening` | lib/document-generator.ts:95-360 | no block before the estimate is shaped like it |
| `DocumentOutline.NoEstimateInPreamble` | lib/document-generator.ts:394-465 | no block of the Section II preamble is shaped like it |
| `DocumentOutline.NoEstimateInScope` | lib/document-generator.ts:380-862 | no block of Section II is shaped like it |
| `DocumentOutline.NoEstimateInInstructions` | lib/document-generator.ts:865-1870 | no block of Section III is shaped like it |
| `DocumentOutline.NoEstimateInRemainder` | lib/document-generator.ts:380-1870 | no block after the estimate is shaped like it |
| `DocumentOutline.EstimateBetween` | lib/document-generator.ts:363-377 | placed between two parts without it, the optional paragraph appears exactly for a non-empty amount, at the join, and nowhere else |
| `DocumentOutline.EstimateParagraphIffAmount` | lib/document-generator.ts:363-377 | the document has an estimated-amount paragraph exactly when an amount is given; it is block 46 and unique |
| `DocumentGenerator.PushDefinitions` | lib/document-generator.ts:281-306 | the loop appends exactly the definition paragraphs |
| `DocumentGenerator.PushLines` | lib/document-generator.ts:425-486 | the loop appends exactly one paragraph per non-blank line |
| `DocumentGenerator.BuildDeliverableTable` | lib/document-generator.ts:566-862 | the rows pushed by the loop (or the placeholder) make the deliverables table |
| `DocumentGenerator.BuildScopePreamble` | lib/document-generator.ts:394-465 | the optional paragraphs are pushed exactly as the outline says |
| `DocumentGenerator.BuildDeliverablesPart` | lib/document-generator.ts:500-862 | both tables and their notes are pushed in order |
| `DocumentGenerator.PushScopeSection` | lib/document-generator.ts:380-862 | Section II is appended exactly as the outline says |
| `DocumentGenerator.GenerateConsultancyRfp` | lib/document-generator.ts:93-2098 | the pushed document equals the consultancy outline |
| `DocumentGenerator.GenerateRfpDocument` | lib/document-generator.ts:59-81 | the dispatch returns exactly `RfpDocument(d)` |
| `RfpFormState.TabNavigation` | components/rfp-form.tsx:268-277 | previous undoes next except on the last tab, and next undoes previous except on the first; each stops only at its end; two steps reach the end |
| `RfpFormState.Set` | components/rfp-form.tsx:141 | the named field takes the value and every other field is kept |
| `RfpFormState.FeeEffect` | components/rfp-form.tsx:115-129 | with no positive amount the record is unchanged; otherwise exactly the fee and EMD are replaced |
| `RfpFormState.FeeEffectKeepsOthers` | components/rfp-form.tsx:122-126 | the effect changes the fee and EMD fields and nothing else |
| `RfpFormState.FeeEffectValues` | components/rfp-form.tsx:115-129 | for a positive amount n, the fee field reads back as the fee band of n and the EMD field as its rounded 3 per cent; otherwise nothing changes |
| `RfpFormState.FeeEffectIdempotent` | components/rfp-form.tsx:115-129 | running the effect twice equals running it once |
| `RfpFormState.DurationOf` | components/rfp-form.tsx:197 | the duration is never 0: the parsed number when it is non-zero, and 12 for NaN or 0 |
| `RfpFormState.ToDocumentData` | components/rfp-form.tsx:193-199 | the generator receives every form field under its own name (the spread `...formData`), the current RFP number and type, and the parsed duration |
| `RfpFormState.InitialDuration` | components/rfp-form.tsx:76 | the default "12" reaches the document as 12 |
| `RfpFormState.RfpForm.constructor` | components/rfp-form.tsx:61-103 | the initial state is the details tab, consultancy, an unfixed type, an empty RFP number and the default record |
| `RfpFormState.RfpForm.SelectTab` | components/rfp-form.tsx:107-112 | switching tabs runs the latch: leaving details fixes the type for good |
| `RfpFormState.RfpForm.GoToNextTab` | components/rfp-form.tsx:268-271 | moves to the next tab, after which the type is fixed |
| `RfpFormState.RfpForm.GoToPrevTab` | components/rfp-form.tsx:274-277 | moves to the previous tab and keeps the latch |
| `RfpFormState.RfpForm.HandleRfpTypeChange` | components/rfp-form.tsx:131-137 | the type changes exactly when it is not yet fixed |
| `RfpFormState.RfpForm.HandleChange` | components/rfp-form.tsx:139-165 | the field is set; the RFP number is regenerated exactly when the field is a segment and the four required segments are set; a changed estimated amount runs the fee effect |
| `RfpFormState.RfpForm.HandleCurrencyChange` | components/rfp-form.tsx:168-176 | as `HandleChange`, with the normalised currency text |
| `RfpFormState.RfpForm.HandleFileChange` | components/rfp-form.tsx:178-180 | only the upload changes |
| `RfpFormState.RfpForm.HandleScopeOfWorkSave` | components/rfp-form.tsx:183-185 | only the scope of work changes |
| `RfpFormState.RfpForm.Submit` | components/rfp-form.tsx:187-206 | the output is the generator's result on the current state |
| `RfpFormState.ChangeSetsOnlyField` | components/rfp-form.tsx:139-165 | the change sets exactly the named field; a regenerated number splits back into its segments when none has a slash |
| `RfpFormState.NumberUntouched` | components/rfp-form.tsx:144-151 | clearing one of the four required segments never produces a number; clearing the serial number still does |
| `RfpFormState.TypedAmountSetsFee` | components/rfp-form.tsx:115-176 | a typed amount is stored as the formatted value of its digits; when that value is positive, the fee and EMD fields show its formatted fee band and EMD |

## Left out

- The docx library is not modelled: styling, fonts, spacing, table borders and widths, headers, footers, page
  breaks, document metadata and packing into a blob URL. The model stops at the outline of blocks the source builds.
- The wording of the fixed sentences lives only in `Passages.Segments`, and no lemma is stated about that text.
  The lemmas speak about which passage stands where and which values fill it.
- `processCustomDocument` (lib/document-generator.ts:2214) is not modelled: the uploaded file is returned as it
  is, identified by its name.
- The API routes (app/api/generate-sow, app/api/vector-search) and the client lib/sow-api.ts are not modelled.
  The reply of `generateScopeOfWork` is a parameter of `ScopeOfWork.ScopeOfWorkForm.GenerateScopeOfWork`.
- A thrown value that is not an `Error`, which the form reports with its default message, is not distinguished:
  every failure carries its message.
- The user interface is not modelled: rendering, toasts, the select widgets and their option lists, and the
  `isGenerating` flag and `documentUrl` preview, which decide no data.
- Timing is not modelled: the 500 ms debounce of the auto-save, React's batching, and the asynchronous awaits.
  `AutoSave` is the save that fires once the delay has passed.
- React effects are modelled inside the handlers that change their dependency:
  - the fee/EMD effect in `HandleChange`;
  - the type latch in `SelectTab`.
  
  The intermediate render between a change and its effect is not observable in the model.
- `Currency.Emd`: computed with exact arithmetic as round-half-up of 3n/100, not with the binary float
  `n * 0.03`. The two agree on ordinary amounts: the error of the float product stays below half a unit in the
  last place, so a product that falls on a .5 boundary does so exactly. Results can differ only for amounts
  above about 2^52, where the float result can be one higher. At those sizes the loss of precision admitted
  for `Currency.ParseInt` below already applies.
- `Currency.ParseInt`: reads digit strings of any length exactly. It does not model `parseInt`'s loss of
  precision above 2^53, nor `toString`'s exponent form for very large numbers.
- `Strings.IsWhitespace`: a fixed set of the white-space characters JavaScript's `trim` and `\s` recognise
  (the ASCII spaces, NBSP, BOM, the U+2000 range, the line and paragraph separators and the ideographic space).
- The case-insensitive match in `Strings.FindIgnoringCase` folds only ASCII letters. This is enough for the
  patterns "PROJECT TITLE:" and "DETAILED".
- Optional (`?`) and `null` string fields are identified with the empty string, because the source only tests
  them for truthiness. `contractDuration` in the document record uses 0 for every falsy number.
- `page.tsx`, `file-uploader.tsx` and `logo-image.tsx` are presentation only and are not modelled.
