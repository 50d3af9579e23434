/** The state of the RFP form component (components/rfp-form.tsx): the form
    record, the generated RFP number, the active tab, the chosen RFP type and
    the latch that fixes the type once the details tab is left. Each handler
    is a method; a React effect runs inside the handler that changes what the
    effect depends on. */
module RfpFormState {
  import opened Strings
  import opened Currency
  import opened RfpNumbers
  import opened ScopeOfWork
  import opened DocumentOutline
  import DocumentGenerator

  // ---------------------------------------------------------------------------
  // Tabs (components/rfp-form.tsx:268-277)

  datatype Tab = Details | Schedule | Scope

  /** `goToNextTab`: details, then schedule, then scope, which is final. */
  function NextTab(t: Tab): Tab {
    match t
    case Details => Schedule
    case Schedule => Scope
    case Scope => Scope
  }

  /** `goToPrevTab`: scope, then schedule, then details, which is first. */
  function PrevTab(t: Tab): Tab {
    match t
    case Scope => Schedule
    case Schedule => Details
    case Details => Details
  }

  /** Previous undoes next everywhere but on the last tab, next undoes
      previous everywhere but on the first, and each moves forward (or back)
      unless it is at its end. */
  lemma TabNavigation(t: Tab)
    ensures t != Scope ==> PrevTab(NextTab(t)) == t
    ensures t != Details ==> NextTab(PrevTab(t)) == t
    ensures NextTab(t) == t <==> t == Scope
    ensures PrevTab(t) == t <==> t == Details
    ensures NextTab(NextTab(t)) == Scope && PrevTab(PrevTab(t)) == Details
  {
  }

  // ---------------------------------------------------------------------------
  // The form record (components/rfp-form.tsx:65-103)

  /** The `formData` state. `customDocument` and `scopeOfWork` are `None` for `null`. */
  datatype FormData = FormData(
    tenderTitle: string, shortTenderTitle: string, locationName: string, departmentName: string,
    financialYear: string, serialNumber: string, month: string, year: string, contractDuration: string,
    itemName: string, customDocument: Option<Upload>, scopeOfWork: Option<ScopeOfWorkData>,
    rfpAvailableDate: string, queryDeadlineDate: string, preBidMeetingDate: string,
    priceBidDeadlineDate: string, technicalBidDeadlineDate: string, technicalBidOpeningDate: string,
    issuingAuthority: string, contactEmail: string,
    estimatedAmount: string, rfpFeeAmount: string, emdAmount: string)

  /** The initial `formData`. */
  const InitialFormData := FormData(
    "", "", "", "", "24-25", "01", "May", "2025", "12", "", None, None,
    "", "", "", "", "", "", "", "", "", "", "")

  /** The text fields `handleChange` is called with. */
  datatype Field =
    | TenderTitle | ShortTenderTitle | LocationName | DepartmentName | FinancialYear | SerialNumber
    | Month | Year | ContractDuration | ItemName
    | RfpAvailableDate | QueryDeadlineDate | PreBidMeetingDate | PriceBidDeadlineDate
    | TechnicalBidDeadlineDate | TechnicalBidOpeningDate | IssuingAuthority | ContactEmail
    | EstimatedAmount | RfpFeeAmount | EmdAmount

  function Get(f: FormData, field: Field): string {
    match field
    case TenderTitle => f.tenderTitle
    case ShortTenderTitle => f.shortTenderTitle
    case LocationName => f.locationName
    case DepartmentName => f.departmentName
    case FinancialYear => f.financialYear
    case SerialNumber => f.serialNumber
    case Month => f.month
    case Year => f.year
    case ContractDuration => f.contractDuration
    case ItemName => f.itemName
    case RfpAvailableDate => f.rfpAvailableDate
    case QueryDeadlineDate => f.queryDeadlineDate
    case PreBidMeetingDate => f.preBidMeetingDate
    case PriceBidDeadlineDate => f.priceBidDeadlineDate
    case TechnicalBidDeadlineDate => f.technicalBidDeadlineDate
    case TechnicalBidOpeningDate => f.technicalBidOpeningDate
    case IssuingAuthority => f.issuingAuthority
    case ContactEmail => f.contactEmail
    case EstimatedAmount => f.estimatedAmount
    case RfpFeeAmount => f.rfpFeeAmount
    case EmdAmount => f.emdAmount
  }

  /** `{ ...prev, [field]: value }`: the named field takes the value, every
      other field, the upload and the scope of work included, is kept. */
  function Set(f: FormData, field: Field, value: string): (r: FormData)
    ensures Get(r, field) == value
    ensures forall g :: g != field ==> Get(r, g) == Get(f, g)
    ensures r.customDocument == f.customDocument && r.scopeOfWork == f.scopeOfWork
  {
    match field
    case TenderTitle => f.(tenderTitle := value)
    case ShortTenderTitle => f.(shortTenderTitle := value)
    case LocationName => f.(locationName := value)
    case DepartmentName => f.(departmentName := value)
    case FinancialYear => f.(financialYear := value)
    case SerialNumber => f.(serialNumber := value)
    case Month => f.(month := value)
    case Year => f.(year := value)
    case ContractDuration => f.(contractDuration := value)
    case ItemName => f.(itemName := value)
    case RfpAvailableDate => f.(rfpAvailableDate := value)
    case QueryDeadlineDate => f.(queryDeadlineDate := value)
    case PreBidMeetingDate => f.(preBidMeetingDate := value)
    case PriceBidDeadlineDate => f.(priceBidDeadlineDate := value)
    case TechnicalBidDeadlineDate => f.(technicalBidDeadlineDate := value)
    case TechnicalBidOpeningDate => f.(technicalBidOpeningDate := value)
    case IssuingAuthority => f.(issuingAuthority := value)
    case ContactEmail => f.(contactEmail := value)
    case EstimatedAmount => f.(estimatedAmount := value)
    case RfpFeeAmount => f.(rfpFeeAmount := value)
    case EmdAmount => f.(emdAmount := value)
  }

  /** The fields whose change regenerates the RFP number. */
  predicate TriggersRfpNumber(field: Field) {
    field in {LocationName, DepartmentName, ShortTenderTitle, FinancialYear, SerialNumber}
  }

  /** The segments the number needs are present; the serial number may be empty. */
  predicate NumberReady(f: FormData) {
    f.locationName != "" && f.departmentName != "" && f.shortTenderTitle != "" && f.financialYear != ""
  }

  function NumberOf(f: FormData): string {
    GenerateRfpNumber(f.locationName, f.departmentName, f.shortTenderTitle, f.serialNumber, f.financialYear)
  }

  // ---------------------------------------------------------------------------
  // The fee and EMD effect (components/rfp-form.tsx:115-129)

  /** The fee and EMD derived from an estimated-amount text, when it parses
      to a positive amount. */
  function DerivedFees(estimatedAmount: string): Option<(string, string)> {
    if estimatedAmount != "" && ParseCurrency(estimatedAmount) > 0 then
      var n := ParseCurrency(estimatedAmount);
      Some((FormatCurrency(TenderFee(n)), FormatCurrency(Emd(n))))
    else None
  }

  /** The effect on `formData.estimatedAmount`: a positive amount sets the
      fee and the EMD to their formatted defaults; an empty or non-positive
      amount leaves the record as it is. */
  function FeeEffect(f: FormData): (r: FormData)
    ensures DerivedFees(f.estimatedAmount).None? ==> r == f
    ensures DerivedFees(f.estimatedAmount).Some? ==>
              r == f.(rfpFeeAmount := DerivedFees(f.estimatedAmount).value.0,
                      emdAmount := DerivedFees(f.estimatedAmount).value.1)
  {
    match DerivedFees(f.estimatedAmount)
    case None => f
    case Some((fee, emd)) => f.(rfpFeeAmount := fee, emdAmount := emd)
  }

  /** The effect changes the fee and the EMD and nothing else. */
  lemma FeeEffectKeepsOthers(f: FormData)
    ensures forall g :: g != RfpFeeAmount && g != EmdAmount ==> Get(FeeEffect(f), g) == Get(f, g)
    ensures FeeEffect(f).customDocument == f.customDocument && FeeEffect(f).scopeOfWork == f.scopeOfWork
  {
    var r := FeeEffect(f);
    assert r == f.(rfpFeeAmount := r.rfpFeeAmount, emdAmount := r.emdAmount);
  }

  /** When the amount parses to a positive n, the fee is the fee band of n
      and the EMD its rounded 3 per cent, each written with thousands
      separators and read back as that number; otherwise nothing changes. */
  lemma FeeEffectValues(f: FormData)
    ensures f.estimatedAmount == "" || ParseCurrency(f.estimatedAmount) <= 0 ==> FeeEffect(f) == f
    ensures f.estimatedAmount != "" && ParseCurrency(f.estimatedAmount) > 0 ==>
              var n := ParseCurrency(f.estimatedAmount);
              && ParseCurrency(FeeEffect(f).rfpFeeAmount) == TenderFee(n)
              && ParseCurrency(FeeEffect(f).emdAmount) == Emd(n)
              && TenderFee(n) in {1500, 2500, 5000, 15000}
              && 3 * n - 50 < 100 * Emd(n) <= 3 * n + 50
  {
    if f.estimatedAmount != "" && ParseCurrency(f.estimatedAmount) > 0 {
      var n := ParseCurrency(f.estimatedAmount);
      ParseFormat(TenderFee(n));
      ParseFormat(Emd(n));
    }
  }

  /** Running the effect twice has the effect of running it once. */
  lemma FeeEffectIdempotent(f: FormData)
    ensures FeeEffect(FeeEffect(f)) == FeeEffect(f)
  {
  }

  // ---------------------------------------------------------------------------
  // Submission (components/rfp-form.tsx:187-206)

  /** `Number.parseInt(contractDuration, 10) || 12`: `NaN` and 0 both give 12. */
  function DurationOf(contractDuration: string): (r: int)
    ensures r != 0
    ensures ParseInt(contractDuration).Some? && ParseInt(contractDuration).value != 0 ==>
              r == ParseInt(contractDuration).value
    ensures ParseInt(contractDuration).None? ==> r == 12
    ensures ParseInt(contractDuration) == Some(0) ==> r == 12
  {
    match ParseInt(contractDuration)
    case Some(v) => if v != 0 then v else 12
    case None => 12
  }

  /** The record handed to `generateRfpDocument`: the form fields, the
      current RFP number and type, and the parsed contract duration. */
  function ToDocumentData(f: FormData, rfpNumber: string, rfpType: string): (d: DocumentData)
    ensures d.rfpNumber == rfpNumber && d.rfpType == rfpType
    ensures d.contractDuration == DurationOf(f.contractDuration)
    ensures d.tenderTitle == f.tenderTitle && d.scopeOfWork == f.scopeOfWork
    ensures d.customDocument == f.customDocument && d.estimatedAmount == f.estimatedAmount
    ensures d.month == f.month && d.year == f.year && d.itemName == f.itemName
    ensures d.locationName == f.locationName && d.departmentName == f.departmentName
    ensures d.shortTenderTitle == f.shortTenderTitle && d.serialNumber == f.serialNumber
    ensures d.financialYear == f.financialYear
    ensures d.rfpAvailableDate == f.rfpAvailableDate && d.queryDeadlineDate == f.queryDeadlineDate
    ensures d.preBidMeetingDate == f.preBidMeetingDate && d.priceBidDeadlineDate == f.priceBidDeadlineDate
    ensures d.technicalBidDeadlineDate == f.technicalBidDeadlineDate
    ensures d.technicalBidOpeningDate == f.technicalBidOpeningDate
    ensures d.issuingAuthority == f.issuingAuthority && d.contactEmail == f.contactEmail
    ensures d.rfpFeeAmount == f.rfpFeeAmount && d.emdAmount == f.emdAmount
  {
    DocumentData(
      f.tenderTitle, rfpNumber, f.month, f.year, f.locationName, f.departmentName, f.shortTenderTitle,
      f.serialNumber, f.financialYear, rfpType, f.itemName, f.customDocument,
      DurationOf(f.contractDuration), f.scopeOfWork,
      f.rfpAvailableDate, f.queryDeadlineDate, f.preBidMeetingDate, f.priceBidDeadlineDate,
      f.technicalBidDeadlineDate, f.technicalBidOpeningDate, f.issuingAuthority, f.contactEmail,
      f.estimatedAmount, f.rfpFeeAmount, f.emdAmount)
  }

  /** The initial contract duration "12" reaches the document as 12. */
  lemma InitialDuration()
    ensures DurationOf(InitialFormData.contractDuration) == 12
  {
    assert TrimStart("12") == "12";
    LeadingDigitsOfDigits("12");
    assert "12"[..1] == "1";
    assert Value("12") == 12;
  }

  // ---------------------------------------------------------------------------
  // The component

  class RfpForm {
    var formData: FormData
    var rfpNumber: string
    var activeTab: Tab
    var rfpType: string
    var rfpTypeFixed: bool

    /** The latch effect has run: off the details tab the type is fixed. */
    predicate Valid()
      reads this
    {
      activeTab != Details ==> rfpTypeFixed
    }

    /** The initial state: details tab, consultancy, type not fixed, no RFP number. */
    constructor()
      ensures Valid()
      ensures formData == InitialFormData && rfpNumber == ""
      ensures activeTab == Details && rfpType == "consultancy" && !rfpTypeFixed
    {
      formData := InitialFormData;
      rfpNumber := "";
      activeTab := Details;
      rfpType := "consultancy";
      rfpTypeFixed := false;
    }

    /** Moves to a tab and runs the latch effect: leaving the details tab
        fixes the type, and nothing unfixes it. */
    method SelectTab(t: Tab)
      requires Valid()
      modifies this
      ensures Valid()
      ensures activeTab == t
      ensures rfpTypeFixed == (old(rfpTypeFixed) || t != Details)
      ensures formData == old(formData) && rfpNumber == old(rfpNumber) && rfpType == old(rfpType)
    {
      activeTab := t;
      if activeTab != Details && !rfpTypeFixed {
        rfpTypeFixed := true;
      }
    }

    /** `goToNextTab`. */
    method GoToNextTab()
      requires Valid()
      modifies this
      ensures Valid()
      ensures activeTab == NextTab(old(activeTab))
      ensures rfpTypeFixed
      ensures formData == old(formData) && rfpNumber == old(rfpNumber) && rfpType == old(rfpType)
    {
      SelectTab(NextTab(activeTab));
    }

    /** `goToPrevTab`; the type stays as fixed as it was. */
    method GoToPrevTab()
      requires Valid()
      modifies this
      ensures Valid()
      ensures activeTab == PrevTab(old(activeTab))
      ensures rfpTypeFixed == old(rfpTypeFixed)
      ensures formData == old(formData) && rfpNumber == old(rfpNumber) && rfpType == old(rfpType)
    {
      SelectTab(PrevTab(activeTab));
    }

    /** `handleRfpTypeChange`: ignored once the type is fixed. */
    method HandleRfpTypeChange(newType: string)
      requires Valid()
      modifies this
      ensures Valid()
      ensures rfpType == if old(rfpTypeFixed) then old(rfpType) else newType
      ensures formData == old(formData) && rfpNumber == old(rfpNumber)
      ensures activeTab == old(activeTab) && rfpTypeFixed == old(rfpTypeFixed)
    {
      if !rfpTypeFixed {
        rfpType := newType;
      }
    }

    /** `handleChange` for a text field: the field takes the value, the RFP
        number is regenerated when the field is one of its segments and the
        required segments are present, and a changed estimated amount runs
        the fee and EMD effect. */
    method HandleChange(field: Field, value: string)
      requires Valid()
      modifies this
      ensures Valid()
      ensures var updated := Set(old(formData), field, value);
              && rfpNumber == (if TriggersRfpNumber(field) && NumberReady(updated) then NumberOf(updated)
                               else old(rfpNumber))
              && formData == (if updated.estimatedAmount != old(formData).estimatedAmount
                              then FeeEffect(updated) else updated)
      ensures activeTab == old(activeTab) && rfpType == old(rfpType) && rfpTypeFixed == old(rfpTypeFixed)
    {
      var previous := formData.estimatedAmount;
      formData := Set(formData, field, value);
      if TriggersRfpNumber(field) && NumberReady(formData) {
        rfpNumber := NumberOf(formData);
      }
      if formData.estimatedAmount != previous {
        formData := FeeEffect(formData);
      }
    }

    /** `handleCurrencyChange`: the typed value is normalised before it is stored. */
    method HandleCurrencyChange(field: Field, value: string)
      requires Valid()
      modifies this
      ensures Valid()
      ensures var updated := Set(old(formData), field, CurrencyInput(value));
              && rfpNumber == (if TriggersRfpNumber(field) && NumberReady(updated) then NumberOf(updated)
                               else old(rfpNumber))
              && formData == (if updated.estimatedAmount != old(formData).estimatedAmount
                              then FeeEffect(updated) else updated)
      ensures activeTab == old(activeTab) && rfpType == old(rfpType) && rfpTypeFixed == old(rfpTypeFixed)
    {
      HandleChange(field, CurrencyInput(value));
    }

    /** `handleFileChange`: only the upload changes. */
    method HandleFileChange(file: Option<Upload>)
      requires Valid()
      modifies this
      ensures Valid()
      ensures formData == old(formData).(customDocument := file)
      ensures rfpNumber == old(rfpNumber) && activeTab == old(activeTab)
      ensures rfpType == old(rfpType) && rfpTypeFixed == old(rfpTypeFixed)
    {
      formData := formData.(customDocument := file);
    }

    /** `handleScopeOfWorkSave`: only the scope of work changes. */
    method HandleScopeOfWorkSave(scopeData: ScopeOfWorkData)
      requires Valid()
      modifies this
      ensures Valid()
      ensures formData == old(formData).(scopeOfWork := Some(scopeData))
      ensures rfpNumber == old(rfpNumber) && activeTab == old(activeTab)
      ensures rfpType == old(rfpType) && rfpTypeFixed == old(rfpTypeFixed)
    {
      formData := formData.(scopeOfWork := Some(scopeData));
    }

    /** `handleSubmit`: the document generated from the current state. */
    method Submit() returns (out: Output)
      ensures out == RfpDocument(ToDocumentData(formData, rfpNumber, rfpType))
    {
      out := DocumentGenerator.GenerateRfpDocument(ToDocumentData(formData, rfpNumber, rfpType));
    }
  }

  // ---------------------------------------------------------------------------
  // Properties of the transitions, stated on the record

  /** `handleChange` on its own (without the fee effect) changes exactly the
      named field, and the number it regenerates is the template of the
      updated segments, which those segments can be read back from when
      none contains a `/`. */
  lemma ChangeSetsOnlyField(f: FormData, field: Field, value: string)
    ensures var r := Set(f, field, value);
            && Get(r, field) == value
            && (forall g :: g != field ==> Get(r, g) == Get(f, g))
            && (NumberReady(r) && '/' !in r.locationName && '/' !in r.departmentName
                && '/' !in r.shortTenderTitle && '/' !in r.serialNumber && '/' !in r.financialYear ==>
                  Split(NumberOf(r), '/') ==
                    ["GMDC", r.locationName, r.departmentName, r.shortTenderTitle, r.serialNumber, r.financialYear])
  {
    var r := Set(f, field, value);
    if '/' !in r.locationName && '/' !in r.departmentName && '/' !in r.shortTenderTitle
       && '/' !in r.serialNumber && '/' !in r.financialYear {
      SplitRfpNumber(r.locationName, r.departmentName, r.shortTenderTitle, r.serialNumber, r.financialYear);
    }
  }

  /** Clearing one of the four required segments never produces a new
      number, whatever the other fields hold; clearing the serial number
      does when the four are present. */
  lemma NumberUntouched(f: FormData, field: Field, value: string)
    ensures TriggersRfpNumber(field) && field != SerialNumber && value == "" ==> !NumberReady(Set(f, field, value))
    ensures NumberReady(f) ==> NumberReady(Set(f, SerialNumber, ""))
  {
  }

  /** A typed estimated amount is stored as the formatted value of the
      digits typed, and when that value is positive the fee field shows its
      formatted fee band and the EMD field its formatted EMD. */
  lemma TypedAmountSetsFee(f: FormData, typed: string)
    requires CurrencyInput(typed) != ""
    ensures AllDigits(RemoveCommas(KeepDigitsAndCommas(typed)))
            && ParseCurrency(CurrencyInput(typed)) == Value(RemoveCommas(KeepDigitsAndCommas(typed)))
    ensures var n := ParseCurrency(CurrencyInput(typed));
            var r := FeeEffect(Set(f, EstimatedAmount, CurrencyInput(typed)));
            n > 0 ==> r.rfpFeeAmount == FormatCurrency(TenderFee(n)) && r.emdAmount == FormatCurrency(Emd(n))
  {
    CurrencyInputValue(typed);
    ParseFormat(Value(RemoveCommas(KeepDigitsAndCommas(typed))));
  }
}
