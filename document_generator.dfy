/** The step-by-step assembly of lib/document-generator.ts: the consultancy
    template pushes paragraphs and table rows onto growing lists, and each
    method here is proved to build exactly the outline of DocumentOutline. */
module DocumentGenerator {
  import opened Strings
  import opened ScopeOfWork
  import opened Passages
  import opened DocumentOutline

  /** The `definitions.forEach` loop: one numbered paragraph pushed per definition. */
  method PushDefinitions(children: seq<Block>, defs: seq<Definition>) returns (r: seq<Block>)
    ensures r == children + DefinitionParagraphs(defs)
  {
    r := children;
    var i := 0;
    while i < |defs|
      invariant 0 <= i <= |defs|
      invariant r == children + DefinitionParagraphs(defs[..i])
    {
      assert defs[..i + 1][..i] == defs[..i];
      r := r + [DefinitionParagraph(defs[i])];
      i := i + 1;
    }
    assert defs[..i] == defs;
  }

  /** The `lines.forEach` loops of the special-requirements and scope-details
      parts: every line that is not blank is pushed unchanged. */
  method PushLines(children: seq<Block>, lines: seq<string>) returns (r: seq<Block>)
    ensures r == children + LineParagraphs(lines)
  {
    r := children;
    var i := 0;
    while i < |lines|
      invariant 0 <= i <= |lines|
      invariant r == children + LineParagraphs(lines[..i])
    {
      assert lines[..i + 1][..i] == lines[..i];
      if Trim(lines[i]) != "" {
        r := r + [Line(lines[i])];
      }
      i := i + 1;
    }
    assert lines[..i] == lines;
  }

  /** A deliverables table: the header row, then the rows pushed by the
      `deliverables.forEach` loop, or the placeholder row for an empty list. */
  method BuildDeliverableTable(items: seq<Deliverable>, timelineFallback: Passage) returns (table: Block)
    ensures table == DeliverableTable(items, timelineFallback)
  {
    var rows := [HeaderRow];
    if |items| > 0 {
      var i := 0;
      while i < |items|
        invariant 0 <= i <= |items|
        invariant rows == [HeaderRow] + ItemRows(items[..i], timelineFallback)
      {
        ItemRowsSnoc(items, i, timelineFallback);
        AppendAssociative([HeaderRow], ItemRows(items[..i], timelineFallback), [DeliverableRow(items[i], timelineFallback)]);
        rows := rows + [DeliverableRow(items[i], timelineFallback)];
        i := i + 1;
      }
      assert items[..i] == items;
    } else {
      rows := rows + [PlaceholderRow(timelineFallback)];
    }
    table := Table(rows);
  }

  /** The optional paragraphs of Section II before the scope heading, each
      only when its field is set. */
  method BuildScopePreamble(sow: ScopeOfWorkData) returns (blocks: seq<Block>)
    ensures blocks == ScopePreamble(sow)
  {
    blocks := [];
    if sow.projectTitle != "" {
      blocks := blocks + [Line(sow.projectTitle)];
    }
    if sow.budget != "" {
      blocks := blocks + [Para([Fixed(BudgetLabel, []), Text(sow.budget)])];
    }
    assert blocks == ProjectTitleBlocks(sow) + BudgetBlocks(sow);
    if sow.specialRequirements != "" {
      ghost var before := blocks;
      blocks := blocks + [Say(SpecialRequirementsLabel)];
      blocks := PushLines(blocks, Split(sow.specialRequirements, '\n'));
      AppendAssociative(before, [Say(SpecialRequirementsLabel)], LineParagraphs(Split(sow.specialRequirements, '\n')));
    } else {
      assert blocks == blocks + [];
    }
  }

  /** The deliverables part of Section II: both tables, built row by row, with their notes. */
  method BuildDeliverablesPart(sow: ScopeOfWorkData) returns (blocks: seq<Block>)
    ensures blocks == DeliverablesPart(sow)
  {
    var deliverables := BuildDeliverableTable(sow.deliverables, TMonthsFormat);
    var extensions := BuildDeliverableTable(sow.extensionDeliverables, T1MonthsFormat);
    blocks := [Say(DeliverablesHeading), Say(DeliverablesIntro), deliverables, Say(TDefinition),
               ExtensionParagraph(sow), extensions, Say(T1Definition)];
  }

  /** Section II: the heading, the optional paragraphs, the scope details
      (or their placeholder) and the deliverables part. */
  method PushScopeSection(children: seq<Block>, sow: ScopeOfWorkData) returns (r: seq<Block>)
    ensures r == children + ScopeSection(sow)
  {
    var preamble := BuildScopePreamble(sow);
    var body := [Say(ScopeOfWorkHeading)];
    if sow.scopeOfWorkDetails != "" {
      body := PushLines(body, Split(sow.scopeOfWorkDetails, '\n'));
    } else {
      body := body + [Say(DetailsPlaceholder)];
    }
    assert body == [Say(ScopeOfWorkHeading)] + ScopeDetailsBlocks(sow);
    var deliverables := BuildDeliverablesPart(sow);
    body := body + deliverables;
    r := children + ([Say(SectionIIHeading)] + (preamble + body));
  }

  /** `generateConsultancyRfp`: the cover page, then the body in push order,
      the estimated-amount paragraph only for a non-empty amount. */
  method GenerateConsultancyRfp(d: DocumentData) returns (doc: seq<Block>)
    ensures doc == ConsultancyDocument(d)
  {
    var children := FrontMatter(d.tenderTitle);
    children := PushDefinitions(children, Definitions(d.tenderTitle));
    children := children + [Say(DefinitionsClosing)];
    children := children + Background(d);
    ghost var before := children;
    if d.estimatedAmount != "" {
      children := children + [Para([Fixed(EstimateLead, []), Text(d.estimatedAmount), Fixed(EstimateSuffix, [])])];
    } else {
      assert children == before + [];
    }
    children := PushScopeSection(children, SowOrEmpty(d.scopeOfWork));
    children := children + BiddingInstructions(d);
    children := children + [ScheduleTable(d)];
    children := children + GeneralInstructions(d);
    doc := CoverPage(d) + children;
  }

  /** `generateRfpDocument`: the uploaded file for type "other" with a file,
      otherwise the template the type selects, consultancy by default. */
  method GenerateRfpDocument(d: DocumentData) returns (out: Output)
    ensures out == RfpDocument(d)
  {
    if d.rfpType == "other" && d.customDocument.Some? {
      return Passthrough(d.customDocument.value);
    }
    match d.rfpType {
      case "maintenance" =>
        out := Rendered(MaintenanceDocument(d));
      case "supply" =>
        out := Rendered(SupplyDocument(d));
      case _ =>
        var doc := GenerateConsultancyRfp(d);
        out := Rendered(doc);
    }
  }
}
