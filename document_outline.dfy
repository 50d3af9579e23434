/** The document assembler of lib/document-generator.ts as a pure outline: the
    ordered blocks (paragraphs, the table of contents, tables) each template
    produces from a form record. Styling is not part of the outline. Fixed
    wording is a `Passage` with the data values it interpolates; data shown
    on its own is plain text. */
module DocumentOutline {
  import opened Strings
  import opened Currency
  import opened ScopeOfWork
  import opened Passages

  /** A piece of text: data or a list marker shown as it is, or a fixed
      passage with the values inserted into it. */
  datatype Run = Text(text: string) | Fixed(passage: Passage, values: seq<string>)

  type Paragraph = seq<Run>
  type Cell = seq<Paragraph>
  type Row = seq<Cell>

  datatype Block = Para(runs: Paragraph) | TableOfContents | Table(rows: seq<Row>)

  /** The text a run renders to. */
  function RunText(r: Run): string {
    match r
    case Text(s) => s
    case Fixed(p, values) => Render(p, values)
  }

  /** A user-supplied file, identified by name; its content is never inspected. */
  datatype Upload = Upload(name: string)

  /** `RfpDocumentData`. `contractDuration` is 0 when unset (every falsy number
      behaves alike); `scopeOfWork` may be absent. */
  datatype DocumentData = DocumentData(
    tenderTitle: string, rfpNumber: string, month: string, year: string,
    locationName: string, departmentName: string, shortTenderTitle: string,
    serialNumber: string, financialYear: string, rfpType: string, itemName: string,
    customDocument: Option<Upload>, contractDuration: int, scopeOfWork: Option<ScopeOfWorkData>,
    rfpAvailableDate: string, queryDeadlineDate: string, preBidMeetingDate: string,
    priceBidDeadlineDate: string, technicalBidDeadlineDate: string, technicalBidOpeningDate: string,
    issuingAuthority: string, contactEmail: string,
    estimatedAmount: string, rfpFeeAmount: string, emdAmount: string)

  /** What `generateRfpDocument` returns: the uploaded file itself, or a generated document. */
  datatype Output = Passthrough(file: Upload) | Rendered(blocks: seq<Block>)

  /** A paragraph showing one data text. */
  function Line(s: string): Block {
    Para([Text(s)])
  }

  /** A paragraph of one fixed passage. */
  function Say(p: Passage): Block {
    Para([Fixed(p, [])])
  }

  /** A paragraph of one passage with values inserted. */
  function SayWith(p: Passage, values: seq<string>): Block {
    Para([Fixed(p, values)])
  }

  /** A list item: a marker such as "a) " followed by a passage. */
  function Item(marker: string, p: Passage, values: seq<string>): Block {
    Para([Text(marker), Fixed(p, values)])
  }

  const DatePlaceholder := "__/__/2025"
  const ContactPlaceholder := "___________________"

  // ---------------------------------------------------------------------------
  // Dispatch (lib/document-generator.ts:59-81)

  /** `generateRfpDocument`. */
  function RfpDocument(d: DocumentData): Output {
    if d.rfpType == "other" && d.customDocument.Some? then Passthrough(d.customDocument.value)
    else if d.rfpType == "consultancy" then Rendered(ConsultancyDocument(d))
    else if d.rfpType == "maintenance" then Rendered(MaintenanceDocument(d))
    else if d.rfpType == "supply" then Rendered(SupplyDocument(d))
    else Rendered(ConsultancyDocument(d))
  }

  /** The uploaded file is passed through exactly for type "other" with a
      file; maintenance and supply get their own templates; every other case,
      "other" without a file included, gets the consultancy template. */
  lemma DispatchCases(d: DocumentData)
    ensures RfpDocument(d).Passthrough? <==> d.rfpType == "other" && d.customDocument.Some?
    ensures RfpDocument(d).Passthrough? ==> RfpDocument(d).file == d.customDocument.value
    ensures d.rfpType == "maintenance" ==> RfpDocument(d) == Rendered(MaintenanceDocument(d))
    ensures d.rfpType == "supply" ==> RfpDocument(d) == Rendered(SupplyDocument(d))
    ensures d.rfpType != "maintenance" && d.rfpType != "supply" && !RfpDocument(d).Passthrough? ==>
              RfpDocument(d) == Rendered(ConsultancyDocument(d))
  {
  }

  // ---------------------------------------------------------------------------
  // Maintenance and supply templates (lib/document-generator.ts:2100-2212)

  /** `generateMaintenanceRfp`: a cover page only. */
  function MaintenanceDocument(d: DocumentData): seq<Block> {
    [ Say(RequestForProposal),
      Say(For),
      Line(Or(d.tenderTitle, "(Insert RFP Name)")),
      SayWith(RfpNo, [d.rfpNumber]),
      Say(CorporationName),
      Say(AddressLine),
      Say(Ahmedabad),
      SayWith(MonthCommaYear, [d.month, d.year]) ]
  }

  /** `generateSupplyRfp`: a cover page only, naming the item. */
  function SupplyDocument(d: DocumentData): seq<Block> {
    [ Say(RequestForProposal),
      Say(For),
      Say(SupplyTitle),
      Say(AnnualMaintenanceOf),
      Line(Or(d.itemName, "(Insert the Item Name for which RFP is issued)")),
      SayWith(RfpNo, [d.rfpNumber]),
      Say(CorporationName),
      Say(AddressLineShort),
      Say(VastrapurAhmedabad),
      Line(d.year) ]
  }

  /** The two short templates: eight and ten paragraphs; the title,
      respectively the item name, appears verbatim when set and is replaced
      by its placeholder when not; nothing but the RFP number, that name and
      the date depends on the record. */
  lemma ShortTemplates(d: DocumentData)
    ensures |MaintenanceDocument(d)| == 8 && |SupplyDocument(d)| == 10
    ensures MaintenanceDocument(d)[2] == Line(if d.tenderTitle != "" then d.tenderTitle else "(Insert RFP Name)")
    ensures SupplyDocument(d)[4] ==
              Line(if d.itemName != "" then d.itemName else "(Insert the Item Name for which RFP is issued)")
    ensures MaintenanceDocument(d)[3] == SupplyDocument(d)[5] == SayWith(RfpNo, [d.rfpNumber])
    ensures forall e: DocumentData ::
              (e.tenderTitle == d.tenderTitle && e.rfpNumber == d.rfpNumber && e.month == d.month && e.year == d.year)
              ==> MaintenanceDocument(e) == MaintenanceDocument(d)
    ensures forall e: DocumentData ::
              (e.itemName == d.itemName && e.rfpNumber == d.rfpNumber && e.year == d.year)
              ==> SupplyDocument(e) == SupplyDocument(d)
  {
  }

  // ---------------------------------------------------------------------------
  // Consultancy template: cover, front matter, definitions, background
  // (lib/document-generator.ts:95-377, 1981-2083)

  /** The consultancy cover page, which precedes the body; its last
      paragraph is the empty one that breaks the page. */
  function CoverPage(d: DocumentData): seq<Block> {
    [ Say(RequestForProposal),
      Say(For),
      Line(Or(d.tenderTitle, "(To be Inserted)")),
      SayWith(MonthYear, [d.month, d.year]),
      SayWith(RfpNo, [d.rfpNumber]),
      Say(CorporationName),
      Say(AddressLine),
      Say(AhmedabadIndia),
      Line("") ]
  }

  /** Table of contents, disclaimer and the definitions heading. */
  function FrontMatter(tenderTitle: string): seq<Block> {
    [ Say(TableOfContentsHeading),
      TableOfContents,
      Say(DisclaimerHeading),
      SayWith(DisclaimerIssue, [tenderTitle]),
      Say(DisclaimerNotAgreement),
      Say(DisclaimerExamination),
      Say(DefinitionsHeading),
      Say(DefinitionsIntro) ]
  }

  /** One entry of the `definitions` list: its number and its text. */
  datatype Definition = Definition(number: string, text: Run)

  /** The `definitions` list. */
  function Definitions(tenderTitle: string): seq<Definition> {
    [ Definition("1.", Fixed(DefGmdc, [])),
      Definition("2.", Fixed(DefBidder, [])),
      Definition("3.", Fixed(DefBid, [])),
      Definition("4.", Fixed(DefBidDueDate, [])),
      Definition("5.", Fixed(DefServiceProvider, [tenderTitle])),
      Definition("6.", Fixed(DefConsortium, [])),
      Definition("7.", Fixed(DefAgreement, [])),
      Definition("8.", Fixed(DefCorruptPractice, [])),
      Definition("9.", Fixed(DefConflictOfInterest, [])),
      Definition("10.", Fixed(DefFees, [])),
      Definition("11.", Fixed(DefCompositeScore, [])),
      Definition("12.", Fixed(DefContractPrice, [])),
      Definition("13.", Fixed(DefPreQualification, [])),
      Definition("14.", Fixed(DefEvaluationProcess, [])),
      Definition("15.", Fixed(DefEmd, [])),
      Definition("16.", Fixed(DefFinancialScore, [])),
      Definition("17.", Fixed(DefLetterOfAward, [])),
      Definition("18.", Fixed(DefParties, [])),
      Definition("19.", Fixed(DefPreferredBidder, [])),
      Definition("20.", Fixed(DefSuccessfulBidder, [])),
      Definition("21.", Fixed(DefTermsOfReference, [])),
      Definition("22.", Fixed(DefTechnicalScore, [])),
      Definition("23.", Fixed(DefThirdParty, [])) ]
  }

  /** The paragraph pushed for one definition: its number, a space, its text. */
  function DefinitionParagraph(def: Definition): Block {
    Para([Text(def.number), Text(" "), def.text])
  }

  /** The paragraphs pushed by the `definitions.forEach` loop, one per entry, in order. */
  function DefinitionParagraphs(defs: seq<Definition>): (r: seq<Block>)
    ensures |r| == |defs|
    ensures forall k :: 0 <= k < |defs| ==> r[k] == DefinitionParagraph(defs[k])
  {
    if defs == [] then [] else DefinitionParagraphs(defs[..|defs| - 1]) + [DefinitionParagraph(defs[|defs| - 1])]
  }

  /** A two-digit number is written as its tens digit and its units digit. */
  lemma TwoDigits(n: nat)
    requires 10 <= n < 100
    ensures Digits(n) == [DigitChar(n / 10), DigitChar(n % 10)]
  {
    assert Digits(n / 10) == [DigitChar(n / 10)];
  }

  /** Definitions one to nine are numbered with one digit. */
  lemma DefinitionNumbersOneDigit(tenderTitle: string)
    ensures forall k :: 0 <= k < 9 ==> Definitions(tenderTitle)[k].number == Digits(k + 1) + "."
  {
  }

  /** Definitions ten to twenty-three are numbered with two digits. */
  lemma DefinitionNumbersTwoDigits(tenderTitle: string)
    ensures forall k :: 9 <= k < 23 ==> Definitions(tenderTitle)[k].number == Digits(k + 1) + "."
  {
    forall k | 9 <= k < 23 ensures Definitions(tenderTitle)[k].number == Digits(k + 1) + "." {
      TwoDigits(k + 1);
    }
  }

  /** The 23 definitions are numbered "1." to "23." in order. */
  lemma DefinitionNumbers(tenderTitle: string)
    ensures |Definitions(tenderTitle)| == 23
    ensures forall k :: 0 <= k < 23 ==> Definitions(tenderTitle)[k].number == Digits(k + 1) + "."
  {
    DefinitionNumbersOneDigit(tenderTitle);
    DefinitionNumbersTwoDigits(tenderTitle);
  }

  /** The definitions part has 23 paragraphs, each opening with its own number. */
  lemma DefinitionsNumbered(tenderTitle: string)
    ensures var ps := DefinitionParagraphs(Definitions(tenderTitle));
            |ps| == 23 && forall k :: 0 <= k < 23 ==> ps[k].Para? && ps[k].runs[0] == Text(Digits(k + 1) + ".")
  {
    DefinitionNumbers(tenderTitle);
  }

  /** `${data.contractDuration || 12}`. */
  function DurationText(contractDuration: int): string {
    if contractDuration != 0 then IntToString(contractDuration) else "12"
  }

  /** Section I. */
  function Background(d: DocumentData): seq<Block> {
    [ Say(BackgroundHeading),
      Say(BackgroundCorporation),
      Say(BackgroundMining),
      Say(BackgroundTransformation),
      SayWith(BackgroundEngagement, [d.tenderTitle, d.departmentName, DurationText(d.contractDuration)]) ]
  }

  /** The estimated-amount paragraph, present only for a non-empty amount. */
  function EstimateBlocks(estimatedAmount: string): seq<Block> {
    if estimatedAmount != "" then [Para([Fixed(EstimateLead, []), Text(estimatedAmount), Fixed(EstimateSuffix, [])])]
    else []
  }

  // ---------------------------------------------------------------------------
  // Section II: scope of work and deliverable tables (lib/document-generator.ts:380-862)

  /** The record the template reads when no scope of work is given: every
      optional access then yields a falsy value. */
  function SowOrEmpty(sow: Option<ScopeOfWorkData>): ScopeOfWorkData {
    if sow.Some? then sow.value else ScopeOfWorkData("", "", [], "", [], "", "")
  }

  /** The paragraphs of the `lines.forEach` loops: each line, untrimmed, whose
      trimmed form is not empty. */
  function LineParagraphs(lines: seq<string>): (r: seq<Block>)
    ensures |r| <= |lines|
  {
    if lines == [] then []
    else
      var last := lines[|lines| - 1];
      LineParagraphs(lines[..|lines| - 1]) + (if Trim(last) != "" then [Line(last)] else [])
  }

  /** Every paragraph produced shows one non-blank line unchanged. */
  lemma {:induction false} LineParagraphsSound(lines: seq<string>, b: Block)
    requires b in LineParagraphs(lines)
    ensures exists l :: l in lines && Trim(l) != "" && b == Line(l)
  {
    var init := lines[..|lines| - 1];
    var last := lines[|lines| - 1];
    assert lines == init + [last];
    if b in LineParagraphs(init) {
      LineParagraphsSound(init, b);
      var l :| l in init && Trim(l) != "" && b == Line(l);
      assert l in lines;
    } else {
      assert Trim(last) != "" && b == Line(last);
    }
  }

  /** Every non-blank line produces its paragraph. */
  lemma {:induction false} LineParagraphsComplete(lines: seq<string>, l: string)
    requires l in lines && Trim(l) != ""
    ensures Line(l) in LineParagraphs(lines)
  {
    var init := lines[..|lines| - 1];
    var last := lines[|lines| - 1];
    assert lines == init + [last];
    if l in init {
      LineParagraphsComplete(init, l);
    } else {
      assert l == last;
    }
  }

  /** A paragraph is produced for a line exactly when the line is not blank,
      and it holds that line unchanged. */
  lemma LineParagraphsKeepNonBlank(lines: seq<string>)
    ensures forall b :: b in LineParagraphs(lines) <==> exists l :: l in lines && Trim(l) != "" && b == Line(l)
  {
    forall b | b in LineParagraphs(lines) ensures exists l :: l in lines && Trim(l) != "" && b == Line(l) {
      LineParagraphsSound(lines, b);
    }
    forall l | l in lines && Trim(l) != "" ensures Line(l) in LineParagraphs(lines) {
      LineParagraphsComplete(lines, l);
    }
  }

  /** Every piece of a string made only of white space is itself blank. */
  lemma {:induction false} BlankPieces(s: string, sep: char, piece: string)
    requires forall k :: 0 <= k < |s| ==> IsWhitespace(s[k])
    requires piece in Split(s, sep)
    ensures Trim(piece) == ""
  {
    if s != [] {
      assert forall k :: 0 <= k < |s[1..]| ==> IsWhitespace(s[1..][k]);
      var rest := Split(s[1..], sep);
      if s[0] == sep {
        if piece != "" {
          BlankPieces(s[1..], sep, piece);
        }
      } else if piece == [s[0]] + rest[0] {
        assert rest[0] in rest;
        BlankPieces(s[1..], sep, rest[0]);
        TrimSpec(rest[0]);
        TrimSpec(piece);
        forall k | 0 <= k < |piece| ensures IsWhitespace(piece[k]) {
          if k > 0 {
            assert piece[k] == rest[0][k - 1];
          }
        }
      } else {
        assert piece in rest;
        BlankPieces(s[1..], sep, piece);
      }
    }
  }

  /** A single non-blank line is emitted as itself. */
  lemma LineParagraphsSingle(text: string)
    requires '\n' !in text && Trim(text) != ""
    ensures LineParagraphs(Split(text, '\n')) == [Line(text)]
  {
    SplitWithoutSeparator(text, '\n');
    assert [text][..0] == [];
  }

  /** A text made only of white space emits nothing. */
  lemma LineParagraphsBlank(text: string)
    requires forall k :: 0 <= k < |text| ==> IsWhitespace(text[k])
    ensures LineParagraphs(Split(text, '\n')) == []
  {
    var lines := Split(text, '\n');
    if LineParagraphs(lines) != [] {
      var b := LineParagraphs(lines)[0];
      LineParagraphsSound(lines, b);
      var l :| l in lines && Trim(l) != "" && b == Line(l);
      BlankPieces(text, '\n', l);
    }
  }

  /** A table cell for a deliverable's text: one trimmed paragraph per
      `\n`-separated line, blank lines included, or the fallback passage for
      an empty text. */
  function LinesCell(text: string, fallback: Passage): Cell {
    if text != "" then
      var lines := Split(text, '\n');
      seq(|lines|, k requires 0 <= k < |lines| => [Text(Trim(lines[k]))])
    else [[Fixed(fallback, [])]]
  }

  /** A cell has as many paragraphs as the text has lines (newlines plus
      one), each the trimmed line; a one-line text is its own trimmed form;
      an empty text shows only the fallback. */
  lemma LinesCellShape(text: string, fallback: Passage)
    ensures text == "" ==> LinesCell(text, fallback) == [[Fixed(fallback, [])]]
    ensures text != "" ==> |LinesCell(text, fallback)| == Count(text, '\n') + 1
    ensures text != "" ==> forall k :: 0 <= k < |LinesCell(text, fallback)| ==>
              LinesCell(text, fallback)[k] == [Text(Trim(Split(text, '\n')[k]))]
    ensures text != "" && '\n' !in text ==> LinesCell(text, fallback) == [[Text(Trim(text))]]
  {
    SplitCount(text, '\n');
    if '\n' !in text {
      SplitWithoutSeparator(text, '\n');
    }
  }

  const HeaderRow: Row := [[[Fixed(DeliverablesColumn, [])]], [[Fixed(TimelineColumn, [])]]]

  /** The row for one deliverable. */
  function DeliverableRow(item: Deliverable, timelineFallback: Passage): Row {
    [LinesCell(item.description, ToBeDefined), LinesCell(item.timeline, timelineFallback)]
  }

  /** The placeholder row of a table without deliverables. */
  function PlaceholderRow(timelineFallback: Passage): Row {
    [[[Fixed(ToBeDefined, [])]], [[Fixed(timelineFallback, [])]]]
  }

  /** The rows pushed by the `deliverables.forEach` loop. */
  function ItemRows(items: seq<Deliverable>, timelineFallback: Passage): (r: seq<Row>)
    ensures |r| == |items|
    ensures forall k :: 0 <= k < |items| ==> r[k] == DeliverableRow(items[k], timelineFallback)
  {
    if items == [] then []
    else ItemRows(items[..|items| - 1], timelineFallback) + [DeliverableRow(items[|items| - 1], timelineFallback)]
  }

  /** One more item adds its row at the end. */
  lemma ItemRowsSnoc(items: seq<Deliverable>, i: nat, timelineFallback: Passage)
    requires i < |items|
    ensures ItemRows(items[..i + 1], timelineFallback) == ItemRows(items[..i], timelineFallback) + [DeliverableRow(items[i], timelineFallback)]
  {
    assert items[..i + 1][..i] == items[..i];
  }

  /** A deliverables table: the header, then a row per item, or one
      placeholder row when there are none. */
  function DeliverableTable(items: seq<Deliverable>, timelineFallback: Passage): Block {
    Table([HeaderRow] + (if items != [] then ItemRows(items, timelineFallback) else [PlaceholderRow(timelineFallback)]))
  }

  /** A deliverables table always has a header and at least one body row:
      exactly one per deliverable when there are some, otherwise exactly the
      placeholder row ("To be defined" and the timeline fallback); every body
      row has two cells. */
  lemma DeliverableTableShape(items: seq<Deliverable>, timelineFallback: Passage)
    ensures var rows := DeliverableTable(items, timelineFallback).rows;
            && |rows| == 1 + (if items == [] then 1 else |items|)
            && rows[0] == HeaderRow
            && (forall k :: 1 <= k < |rows| ==> |rows[k]| == 2)
            && (items == [] ==> rows[1] == [[[Fixed(ToBeDefined, [])]], [[Fixed(timelineFallback, [])]]])
            && (forall k :: 0 <= k < |items| ==>
                  rows[k + 1] == [LinesCell(items[k].description, ToBeDefined),
                                  LinesCell(items[k].timeline, timelineFallback)])
  {
  }

  function ProjectTitleBlocks(sow: ScopeOfWorkData): seq<Block> {
    if sow.projectTitle != "" then [Line(sow.projectTitle)] else []
  }

  function BudgetBlocks(sow: ScopeOfWorkData): seq<Block> {
    if sow.budget != "" then [Para([Fixed(BudgetLabel, []), Text(sow.budget)])] else []
  }

  function SpecialRequirementsBlocks(sow: ScopeOfWorkData): seq<Block> {
    if sow.specialRequirements != "" then
      [Say(SpecialRequirementsLabel)] + LineParagraphs(Split(sow.specialRequirements, '\n'))
    else []
  }

  function ScopeDetailsBlocks(sow: ScopeOfWorkData): seq<Block> {
    if sow.scopeOfWorkDetails != "" then LineParagraphs(Split(sow.scopeOfWorkDetails, '\n'))
    else [Say(DetailsPlaceholder)]
  }

  /** The paragraph on extending the contract, with `extensionYear || "___"`. */
  function ExtensionParagraph(sow: ScopeOfWorkData): Block {
    SayWith(ExtensionNotice, [Or(sow.extensionYear, "___")])
  }

  /** The optional paragraphs between the Section II heading and the scope heading. */
  function ScopePreamble(sow: ScopeOfWorkData): seq<Block> {
    ProjectTitleBlocks(sow) + BudgetBlocks(sow) + SpecialRequirementsBlocks(sow)
  }

  /** The deliverables part of Section II: both tables with their notes. */
  function DeliverablesPart(sow: ScopeOfWorkData): seq<Block> {
    [Say(DeliverablesHeading), Say(DeliverablesIntro),
     DeliverableTable(sow.deliverables, TMonthsFormat), Say(TDefinition), ExtensionParagraph(sow),
     DeliverableTable(sow.extensionDeliverables, T1MonthsFormat), Say(T1Definition)]
  }

  /** Section II, up to the T1 note. */
  function ScopeSection(sow: ScopeOfWorkData): seq<Block> {
    [Say(SectionIIHeading)] + (ScopePreamble(sow) + ([Say(ScopeOfWorkHeading)] + ScopeDetailsBlocks(sow) + DeliverablesPart(sow)))
  }

  /** The optional parts of Section II: the title paragraph, the budget
      paragraph and the special-requirements block appear exactly when their
      fields are set, the details placeholder stands in for empty details,
      and the extension year falls back to "___". */
  lemma ScopeSectionParts(sow: ScopeOfWorkData)
    ensures ProjectTitleBlocks(sow) != [] <==> sow.projectTitle != ""
    ensures BudgetBlocks(sow) != [] <==> sow.budget != ""
    ensures SpecialRequirementsBlocks(sow) != [] <==> sow.specialRequirements != ""
    ensures sow.specialRequirements != "" ==> SpecialRequirementsBlocks(sow)[0] == Say(SpecialRequirementsLabel)
    ensures sow.scopeOfWorkDetails == "" ==> ScopeDetailsBlocks(sow) == [Say(DetailsPlaceholder)]
    ensures ExtensionParagraph(sow).runs[0].values ==
              [if sow.extensionYear != "" then sow.extensionYear else "___"]
  {
  }

  /** Section II opens with its heading, then the project title when one is
      set; with no title, budget or special requirements the scope heading
      follows the section heading directly. */
  lemma ScopeSectionOpening(sow: ScopeOfWorkData)
    ensures ScopeSection(sow)[0] == Say(SectionIIHeading)
    ensures sow.projectTitle != "" ==> ScopeSection(sow)[1] == Line(sow.projectTitle)
    ensures sow.projectTitle == "" && sow.budget == "" && sow.specialRequirements == "" ==>
              ScopeSection(sow)[1] == Say(ScopeOfWorkHeading)
  {
    var rest := [Say(ScopeOfWorkHeading)] + ScopeDetailsBlocks(sow) + DeliverablesPart(sow);
    if sow.projectTitle != "" {
      assert ScopePreamble(sow)[0] == Line(sow.projectTitle);
    } else if sow.budget == "" && sow.specialRequirements == "" {
      assert ScopePreamble(sow) == [];
      assert rest[0] == Say(ScopeOfWorkHeading);
    }
  }

  /** Non-empty details never produce the placeholder, so details made only
      of white space leave the scope heading without any paragraph. */
  lemma BlankDetailsGiveNoParagraph(sow: ScopeOfWorkData)
    requires sow.scopeOfWorkDetails != ""
    ensures Say(DetailsPlaceholder) !in ScopeDetailsBlocks(sow)
    ensures (forall k :: 0 <= k < |sow.scopeOfWorkDetails| ==> IsWhitespace(sow.scopeOfWorkDetails[k])) ==>
              ScopeDetailsBlocks(sow) == []
  {
    var lines := Split(sow.scopeOfWorkDetails, '\n');
    if Say(DetailsPlaceholder) in LineParagraphs(lines) {
      LineParagraphsSound(lines, Say(DetailsPlaceholder));
    }
    if forall k :: 0 <= k < |sow.scopeOfWorkDetails| ==> IsWhitespace(sow.scopeOfWorkDetails[k]) {
      LineParagraphsBlank(sow.scopeOfWorkDetails);
    }
  }

  // ---------------------------------------------------------------------------
  // Section III: instructions to bidders and the bidding schedule
  // (lib/document-generator.ts:865-1870)

  /** Section III up to the bidding-schedule table. */
  function BiddingInstructions(d: DocumentData): seq<Block> {
    [ Say(SectionIIIHeading),
      Say(IntroductionHeading),
      Say(BiddingProcessHeading),
      Item("a. ", BiddingProcessSystem, [d.tenderTitle]),
      Item("b. ", BiddingProcessConformity, []),
      Item("c. ", BiddingProcessTechnical, []),
      Item("d. ", BiddingProcessPrice, []),
      Say(DueDiligenceHeading),
      Say(DueDiligence),
      Say(AcknowledgementHeading),
      Say(AcknowledgementIntro),
      Item("1) ", AckExamination, []),
      Item("2) ", AckInformation, []),
      Item("3) ", AckRisk, []),
      Item("4) ", AckConflict, []),
      Item("5) ", AckUndertakings, []),
      Say(AcknowledgementLiability),
      Say(CostOfBiddingHeading),
      Say(CostOfBidding),
      Say(RfpFeeHeading),
      Item("a) ", RfpFee, [Or(d.rfpFeeAmount, "______"), Or(d.rfpFeeAmount, "_______")]),
      Item("(i) ", RfpFeeDemandDraft, []),
      Item("(ii) ", RfpFeeTransfer, []),
      Say(BankName),
      Say(AccountNumber),
      Say(IfsCode),
      Say(SwiftCode),
      Say(ElectronicPayment),
      Say(ScheduleHeading),
      Say(ScheduleIntro) ]
  }

  /** One schedule row: its number, the event, and the cell with the dates and addresses. */
  function ScheduleRow(number: string, event: Passage, details: Cell): Row {
    [[[Text(number)]], [[Fixed(event, [])]], details]
  }

  /** The bidding-schedule table: a header and eight numbered events. */
  function ScheduleTable(d: DocumentData): Block {
    Table([
      [[[Fixed(SrNoColumn, [])]], [[Fixed(EventColumn, [])]], [[Fixed(DateColumn, [])], [Fixed(DateFormatNote, [])]]],
      ScheduleRow("1", EventRfpAvailable,
        [[Fixed(RfpAvailable, [Or(d.rfpAvailableDate, DatePlaceholder)])]]),
      ScheduleRow("2", EventQueries,
        [[Fixed(Queries, [Or(d.queryDeadlineDate, DatePlaceholder)])],
         [Fixed(IssuingAuthority, [Or(d.issuingAuthority, ContactPlaceholder)])],
         [Fixed(Email, [Or(d.contactEmail, ContactPlaceholder)])],
         [Fixed(OfficeAddress, [])],
         [Fixed(LandLines, [])],
         [Fixed(BoardLines, [])]]),
      ScheduleRow("3", EventPreBid,
        [[Fixed(PreBidMeeting, [Or(d.preBidMeetingDate, DatePlaceholder)])],
         [Fixed(PreBidVideoLink, [])]]),
      ScheduleRow("4", EventPriceBid,
        [[Fixed(PriceBidOnline, [Or(d.priceBidDeadlineDate, DatePlaceholder)])],
         [Fixed(TechnicalBidOffline, [])]]),
      ScheduleRow("5", EventTechnicalBid,
        [[Fixed(TechnicalBidSubmission, [Or(d.technicalBidDeadlineDate, DatePlaceholder)])]]),
      ScheduleRow("6", EventTechnicalOpening,
        [[Fixed(TechnicalOpening, [Or(d.technicalBidOpeningDate, DatePlaceholder)])]]),
      ScheduleRow("7", EventPriceOpening, [[Fixed(PriceOpening, [])]]),
      ScheduleRow("8", EventSigning, [[Fixed(Signing, [])]])
    ])
  }

  /** A value slot shows the value when it is set and the placeholder when it is not. */
  predicate Shows(slot: string, value: string, placeholder: string) {
    (value != "" ==> slot == value) && (value == "" ==> slot == placeholder)
  }

  /** The schedule always has a header and eight rows of three cells
      numbered "1" to "8". */
  lemma ScheduleTableShape(d: DocumentData)
    ensures var rows := ScheduleTable(d).rows;
            && |rows| == 9
            && forall k :: 1 <= k < 9 ==> |rows[k]| == 3 && rows[k][0] == [[Text(Digits(k))]]
  {
  }

  /** Each of the six dates and the two contacts of the schedule shows its
      value when set and its placeholder when unset. */
  lemma ScheduleTableSlots(d: DocumentData)
    ensures var rows := ScheduleTable(d).rows;
            && |rows| == 9 && |rows[1]| == 3 && |rows[2]| == 3 && |rows[3]| == 3
            && |rows[4]| == 3 && |rows[5]| == 3 && |rows[6]| == 3
            && Shows(rows[1][2][0][0].values[0], d.rfpAvailableDate, DatePlaceholder)
            && Shows(rows[2][2][0][0].values[0], d.queryDeadlineDate, DatePlaceholder)
            && Shows(rows[2][2][1][0].values[0], d.issuingAuthority, ContactPlaceholder)
            && Shows(rows[2][2][2][0].values[0], d.contactEmail, ContactPlaceholder)
            && Shows(rows[3][2][0][0].values[0], d.preBidMeetingDate, DatePlaceholder)
            && Shows(rows[4][2][0][0].values[0], d.priceBidDeadlineDate, DatePlaceholder)
            && Shows(rows[5][2][0][0].values[0], d.technicalBidDeadlineDate, DatePlaceholder)
            && Shows(rows[6][2][0][0].values[0], d.technicalBidOpeningDate, DatePlaceholder)
  {
  }

  /** Section III after the schedule table, ending with the EMD clause. */
  function GeneralInstructions(d: DocumentData): seq<Block> {
    [ Say(ScheduleChanges),
      Say(GeneralHeading),
      Say(BidValidityHeading),
      Item("a) ", BidValidityPeriod, []),
      Item("b) ", BidValidityExtension, []),
      Say(NumberOfBidsHeading),
      Say(NumberOfBids),
      Say(GoverningLawHeading),
      Say(GoverningLaw),
      Say(RightToRejectHeading),
      Item("a) ", RightToRejectAnnulment, []),
      Item("b) ", RightToRejectRelease, []),
      Item("c) ", RightToRejectGrounds, []),
      Say(RejectCriteria),
      Say(RejectMisrepresentation),
      Say(RejectCorruptPractice),
      Say(RejectMissingInformation),
      Say(RejectConditionalBid),
      Say(RejectionAfterOpening),
      Say(EmdHeading),
      Item("a) ", EmdFurnish, [Or(d.emdAmount, "__________")]),
      Item("i. ", EmdDemandDraft, []),
      Item("ii. ", EmdBankGuarantee, []) ]
  }

  /** Section III: the instructions, the schedule table, the general instructions. */
  function InstructionsToBidders(d: DocumentData): seq<Block> {
    BiddingInstructions(d) + [ScheduleTable(d)] + GeneralInstructions(d)
  }

  // ---------------------------------------------------------------------------
  // The whole consultancy document

  /** Everything before the optional estimated-amount paragraph. */
  function Opening(d: DocumentData): seq<Block> {
    CoverPage(d) + FrontMatter(d.tenderTitle) + DefinitionParagraphs(Definitions(d.tenderTitle))
    + [Say(DefinitionsClosing)] + Background(d)
  }

  /** Everything after the optional estimated-amount paragraph. */
  function Remainder(d: DocumentData): seq<Block> {
    ScopeSection(SowOrEmpty(d.scopeOfWork)) + InstructionsToBidders(d)
  }

  /** The `children` list of `generateConsultancyRfp`, in push order. */
  function ConsultancyBody(d: DocumentData): seq<Block> {
    FrontMatter(d.tenderTitle) + DefinitionParagraphs(Definitions(d.tenderTitle)) + [Say(DefinitionsClosing)]
    + Background(d) + EstimateBlocks(d.estimatedAmount) + ScopeSection(SowOrEmpty(d.scopeOfWork))
    + BiddingInstructions(d) + [ScheduleTable(d)] + GeneralInstructions(d)
  }

  /** `generateConsultancyRfp`: the cover-page section, then the section of `children`. */
  function ConsultancyDocument(d: DocumentData): seq<Block> {
    CoverPage(d) + ConsultancyBody(d)
  }

  lemma AppendAssociative<T>(a: seq<T>, b: seq<T>, c: seq<T>)
    ensures a + b + c == a + (b + c)
  {
  }

  /** Regrouping ten consecutive pieces, over plain sequences. */
  lemma Regroup<T>(c: seq<T>, f: seq<T>, defs: seq<T>, cl: seq<T>, bg: seq<T>,
                   e: seq<T>, s: seq<T>, bi: seq<T>, st: seq<T>, gi: seq<T>)
    ensures c + (f + defs + cl + bg + e + s + bi + st + gi)
            == (c + f + defs + cl + bg) + e + (s + (bi + st + gi))
  {
    var open := c + f + defs + cl + bg;
    calc {
      c + (f + defs + cl + bg + e + s + bi + st + gi);
      { AppendAssociative(c, f + defs + cl + bg + e + s + bi + st, gi);
        AppendAssociative(c, f + defs + cl + bg + e + s + bi, st);
        AppendAssociative(c, f + defs + cl + bg + e + s, bi);
        AppendAssociative(c, f + defs + cl + bg + e, s);
        AppendAssociative(c, f + defs + cl + bg, e);
        AppendAssociative(c, f + defs + cl, bg);
        AppendAssociative(c, f + defs, cl);
        AppendAssociative(c, f, defs); }
      open + e + s + bi + st + gi;
      { AppendAssociative(open + e + s + bi, st, gi);
        AppendAssociative(open + e + s, bi, st + gi);
        AppendAssociative(open + e, s, bi + (st + gi)); }
      open + e + (s + (bi + st + gi));
    }
  }

  /** The document is the opening, the optional estimate, then the remainder. */
  lemma ConsultancyParts(d: DocumentData)
    ensures ConsultancyDocument(d) == Opening(d) + EstimateBlocks(d.estimatedAmount) + Remainder(d)
  {
    Regroup(CoverPage(d), FrontMatter(d.tenderTitle), DefinitionParagraphs(Definitions(d.tenderTitle)),
            [Say(DefinitionsClosing)], Background(d), EstimateBlocks(d.estimatedAmount),
            ScopeSection(SowOrEmpty(d.scopeOfWork)), BiddingInstructions(d), [ScheduleTable(d)],
            GeneralInstructions(d));
  }

  /** The opening is 46 blocks long: the cover, the front matter, the 23
      definitions and their closing paragraph, and the background. */
  lemma OpeningLength(d: DocumentData)
    ensures |Opening(d)| == 46
  {
    DefinitionNumbers(d.tenderTitle);
  }

  /** The fixed layout of the opening: a nine-block cover whose title falls
      back to "(To be Inserted)", the front matter, the 23 definitions in
      order, and the background, whose engagement paragraph falls back to a
      duration of 12 months. */
  lemma OpeningLayout(d: DocumentData)
    ensures var o := Opening(d);
            && |o| == 46
            && o[2] == Line(if d.tenderTitle != "" then d.tenderTitle else "(To be Inserted)")
            && o[4] == SayWith(RfpNo, [d.rfpNumber])
            && o[9] == Say(TableOfContentsHeading) && o[10] == TableOfContents
            && o[17..40] == DefinitionParagraphs(Definitions(d.tenderTitle))
            && o[41] == Say(BackgroundHeading)
            && o[45] == SayWith(BackgroundEngagement,
                                [d.tenderTitle, d.departmentName,
                                 if d.contractDuration == 0 then "12" else IntToString(d.contractDuration)])
  {
    var c := CoverPage(d);
    var f := FrontMatter(d.tenderTitle);
    var defs := DefinitionParagraphs(Definitions(d.tenderTitle));
    var o := Opening(d);
    assert o == c + f + defs + [Say(DefinitionsClosing)] + Background(d);
    assert o[17..40] == defs;
  }

  /** A block shaped like the estimated-amount paragraph. */
  predicate IsEstimateParagraph(b: Block) {
    b.Para? && |b.runs| == 3 && b.runs[0] == Fixed(EstimateLead, [])
  }

  predicate NoEstimateIn(bs: seq<Block>) {
    forall i :: 0 <= i < |bs| ==> !IsEstimateParagraph(bs[i])
  }

  lemma NoEstimateConcat(a: seq<Block>, b: seq<Block>)
    requires NoEstimateIn(a) && NoEstimateIn(b)
    ensures NoEstimateIn(a + b)
  {
    forall i | 0 <= i < |a + b| ensures !IsEstimateParagraph((a + b)[i]) {
      if i < |a| { assert (a + b)[i] == a[i]; } else { assert (a + b)[i] == b[i - |a|]; }
    }
  }

  lemma {:induction false} NoEstimateInLines(lines: seq<string>)
    ensures NoEstimateIn(LineParagraphs(lines))
  {
    if lines != [] {
      NoEstimateInLines(lines[..|lines| - 1]);
      var last := lines[|lines| - 1];
      NoEstimateConcat(LineParagraphs(lines[..|lines| - 1]), if Trim(last) != "" then [Line(last)] else []);
    }
  }

  /** No block of the opening has the estimate's shape. */
  lemma NoEstimateInOpening(d: DocumentData)
    ensures NoEstimateIn(Opening(d))
  {
    var defs := DefinitionParagraphs(Definitions(d.tenderTitle));
    NoEstimateConcat(CoverPage(d), FrontMatter(d.tenderTitle));
    NoEstimateConcat(CoverPage(d) + FrontMatter(d.tenderTitle), defs);
    NoEstimateConcat(CoverPage(d) + FrontMatter(d.tenderTitle) + defs, [Say(DefinitionsClosing)]);
    NoEstimateConcat(CoverPage(d) + FrontMatter(d.tenderTitle) + defs + [Say(DefinitionsClosing)], Background(d));
  }

  /** No block of the Section II preamble has the estimate's shape. */
  lemma NoEstimateInPreamble(sow: ScopeOfWorkData)
    ensures NoEstimateIn(ScopePreamble(sow))
  {
    if sow.specialRequirements != "" {
      NoEstimateInLines(Split(sow.specialRequirements, '\n'));
      NoEstimateConcat([Say(SpecialRequirementsLabel)], LineParagraphs(Split(sow.specialRequirements, '\n')));
    }
    NoEstimateConcat(ProjectTitleBlocks(sow), BudgetBlocks(sow));
    NoEstimateConcat(ProjectTitleBlocks(sow) + BudgetBlocks(sow), SpecialRequirementsBlocks(sow));
  }

  /** No block of Section II has the estimate's shape. */
  lemma NoEstimateInScope(sow: ScopeOfWorkData)
    ensures NoEstimateIn(ScopeSection(sow))
  {
    NoEstimateInPreamble(sow);
    if sow.scopeOfWorkDetails != "" {
      NoEstimateInLines(Split(sow.scopeOfWorkDetails, '\n'));
    }
    NoEstimateConcat([Say(ScopeOfWorkHeading)], ScopeDetailsBlocks(sow));
    NoEstimateConcat([Say(ScopeOfWorkHeading)] + ScopeDetailsBlocks(sow), DeliverablesPart(sow));
    var rest := [Say(ScopeOfWorkHeading)] + ScopeDetailsBlocks(sow) + DeliverablesPart(sow);
    NoEstimateConcat(ScopePreamble(sow), rest);
    NoEstimateConcat([Say(SectionIIHeading)], ScopePreamble(sow) + rest);
  }

  /** No block of Section III has the estimate's shape. */
  lemma NoEstimateInInstructions(d: DocumentData)
    ensures NoEstimateIn(InstructionsToBidders(d))
  {
    NoEstimateConcat(BiddingInstructions(d), [ScheduleTable(d)]);
    NoEstimateConcat(BiddingInstructions(d) + [ScheduleTable(d)], GeneralInstructions(d));
  }

  /** No block of the remainder has the estimate's shape. */
  lemma NoEstimateInRemainder(d: DocumentData)
    ensures NoEstimateIn(Remainder(d))
  {
    NoEstimateInScope(SowOrEmpty(d.scopeOfWork));
    NoEstimateInInstructions(d);
    NoEstimateConcat(ScopeSection(SowOrEmpty(d.scopeOfWork)), InstructionsToBidders(d));
  }

  /** Some block of `doc` has the estimate's shape. */
  predicate HasEstimate(doc: seq<Block>) {
    exists i :: 0 <= i < |doc| && IsEstimateParagraph(doc[i])
  }

  /** Block `i` of `doc` is the estimate paragraph for `amount`, and no other block has its shape. */
  predicate EstimateOnlyAt(doc: seq<Block>, i: nat, amount: string) {
    && i < |doc|
    && doc[i] == Para([Fixed(EstimateLead, []), Text(amount), Fixed(EstimateSuffix, [])])
    && forall j :: 0 <= j < |doc| && j != i ==> !IsEstimateParagraph(doc[j])
  }

  /** Placing the optional estimate between two parts without one: the
      whole has an estimate-shaped block exactly when the amount is set, and
      then only the one right after the first part. */
  lemma EstimateBetween(a: seq<Block>, amount: string, b: seq<Block>)
    requires NoEstimateIn(a) && NoEstimateIn(b)
    ensures HasEstimate(a + EstimateBlocks(amount) + b) <==> amount != ""
    ensures amount != "" ==> EstimateOnlyAt(a + EstimateBlocks(amount) + b, |a|, amount)
  {
    var e := EstimateBlocks(amount);
    var doc := a + e + b;
    forall i | 0 <= i < |doc| && (i < |a| || i >= |a| + |e|) ensures !IsEstimateParagraph(doc[i]) {
      if i < |a| { assert doc[i] == a[i]; } else { assert doc[i] == b[i - |a| - |e|]; }
    }
    if amount != "" {
      assert doc[|a|] == e[0];
    }
  }

  /** The estimated-amount paragraph appears in the document exactly when an
      estimated amount is set, then once, right after the background, and
      carrying that amount. */
  lemma EstimateParagraphIffAmount(d: DocumentData)
    ensures HasEstimate(ConsultancyDocument(d)) <==> d.estimatedAmount != ""
    ensures d.estimatedAmount != "" ==> EstimateOnlyAt(ConsultancyDocument(d), 46, d.estimatedAmount)
  {
    NoEstimateInOpening(d);
    NoEstimateInRemainder(d);
    OpeningLength(d);
    ConsultancyParts(d);
    EstimateBetween(Opening(d), d.estimatedAmount, Remainder(d));
  }
}
