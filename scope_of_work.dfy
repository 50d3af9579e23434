/** The Scope-of-Work sub-form (components/scope-of-work-form.tsx): its record,
    the edits on its two deliverable lists, the tender-title sync and auto-save
    rules, and the normalisation of a generated draft. Optional string fields
    are plain strings with "" for "absent": the source only ever tests them
    for truthiness, which cannot tell the two apart. */
module ScopeOfWork {
  import opened Strings

  /** `DeliverableItem` and `ExtensionDeliverableItem` (identical shapes). */
  datatype Deliverable = Deliverable(description: string, timeline: string)

  datatype ItemField = Description | Timeline

  /** `ScopeOfWorkData`. */
  datatype ScopeOfWorkData = ScopeOfWorkData(
    projectTitle: string,
    scopeOfWorkDetails: string,
    deliverables: seq<Deliverable>,
    extensionYear: string,
    extensionDeliverables: seq<Deliverable>,
    budget: string,
    specialRequirements: string)

  /** The string fields `handleChange` sets directly. */
  datatype TextField = ProjectTitle | ScopeOfWorkDetails | ExtensionYear | Budget | SpecialRequirements

  const EmptyDeliverable := Deliverable("", "")

  /** `defaultFormData`. */
  const DefaultFormData := ScopeOfWorkData("", "", [EmptyDeliverable], "1", [EmptyDeliverable], "", "")

  /** Both deliverable lists have at least one entry: what the form's own edits keep. */
  predicate ListsNonEmpty(d: ScopeOfWorkData) {
    |d.deliverables| >= 1 && |d.extensionDeliverables| >= 1
  }

  function GetItemField(item: Deliverable, f: ItemField): string {
    match f
    case Description => item.description
    case Timeline => item.timeline
  }

  /** `{ ...item, [field]: value }`. */
  function SetItemField(item: Deliverable, f: ItemField, value: string): (r: Deliverable)
    ensures GetItemField(r, f) == value
    ensures forall g :: g != f ==> GetItemField(r, g) == GetItemField(item, g)
  {
    match f
    case Description => item.(description := value)
    case Timeline => item.(timeline := value)
  }

  // ---------------------------------------------------------------------------
  // List edits (components/scope-of-work-form.tsx:114-148)

  /** The list `handleDeliverableChange` builds: a copy with entry `index`
      replaced by itself with one field changed. Only that field of that entry
      changes; the length and every other entry stay as they were. */
  function UpdateItem(items: seq<Deliverable>, index: nat, f: ItemField, value: string): (r: seq<Deliverable>)
    requires index < |items|
    ensures |r| == |items|
    ensures GetItemField(r[index], f) == value
    ensures forall g :: g != f ==> GetItemField(r[index], g) == GetItemField(items[index], g)
    ensures forall j :: 0 <= j < |items| && j != index ==> r[j] == items[j]
  {
    items[index := SetItemField(items[index], f, value)]
  }

  /** The list `addDeliverable` builds: one empty entry appended, the old
      entries an unchanged prefix. */
  function AppendItem(items: seq<Deliverable>): (r: seq<Deliverable>)
    ensures |r| == |items| + 1 && r[..|items|] == items && r[|items|] == EmptyDeliverable
  {
    items + [EmptyDeliverable]
  }

  /** `items.filter((_, i) => i !== index)`, written as the filter walks the
      list: every entry whose position differs from `index` is kept, in order.
      For an in-range index exactly that entry goes; for any other index
      nothing does. */
  function RemoveItem(items: seq<Deliverable>, index: int): (r: seq<Deliverable>)
    ensures 0 <= index < |items| ==> r == items[..index] + items[index + 1..]
    ensures !(0 <= index < |items|) ==> r == items
  {
    if items == [] then []
    else
      var rest := RemoveItem(items[1..], index - 1);
      assert items == [items[0]] + items[1..];
      if index == 0 then rest else [items[0]] + rest
  }

  /** A removal the form offers (only when there are at least two entries)
      leaves the list non-empty, one entry shorter. */
  lemma RemoveOfferedKeepsNonEmpty(items: seq<Deliverable>, index: nat)
    requires |items| > 1 && index < |items|
    ensures |RemoveItem(items, index)| == |items| - 1 >= 1
  {
  }

  // ---------------------------------------------------------------------------
  // Initial state, tender-title sync, auto-save (components/scope-of-work-form.tsx:46-102)

  /** The `useState` initialiser: the given record, or else the default record
      with the tender title as project title. */
  function InitialScopeOfWork(initialData: Option<ScopeOfWorkData>, tenderTitle: string): (r: ScopeOfWorkData)
    ensures initialData.Some? ==> r == initialData.value
    ensures initialData.None? ==>
              && r.deliverables == [EmptyDeliverable] && r.extensionDeliverables == [EmptyDeliverable]
              && r.extensionYear == "1" && r.projectTitle == tenderTitle
              && r.scopeOfWorkDetails == "" && r.budget == "" && r.specialRequirements == ""
  {
    if initialData.Some? then initialData.value
    else DefaultFormData.(projectTitle := Or(tenderTitle, ""))
  }

  /** The tender-title effect: the project title follows the tender title
      while it is still empty or equal to it; only the project title can
      change. */
  function SyncTenderTitle(d: ScopeOfWorkData, tenderTitle: string): (r: ScopeOfWorkData)
    ensures r == d.(projectTitle := r.projectTitle)
    ensures r.projectTitle != d.projectTitle <==>
              tenderTitle != "" && d.projectTitle == ""
    ensures r.projectTitle == d.projectTitle || r.projectTitle == tenderTitle
  {
    if tenderTitle != "" && (d.projectTitle == "" || d.projectTitle == tenderTitle)
    then d.(projectTitle := tenderTitle)
    else d
  }

  /** On mounting, a given record without a project title takes the tender
      title, one with a title keeps it, and a fresh default record is
      already in sync. */
  lemma MountSync(d: ScopeOfWorkData, tenderTitle: string)
    ensures tenderTitle != "" && d.projectTitle == "" ==>
              SyncTenderTitle(InitialScopeOfWork(Some(d), tenderTitle), tenderTitle) == d.(projectTitle := tenderTitle)
    ensures d.projectTitle != "" ==> SyncTenderTitle(InitialScopeOfWork(Some(d), tenderTitle), tenderTitle) == d
    ensures SyncTenderTitle(InitialScopeOfWork(None, tenderTitle), tenderTitle) == InitialScopeOfWork(None, tenderTitle)
  {
  }

  /** A project title the user has typed (non-empty and different from the
      tender title) is never overwritten, and a second sync changes nothing. */
  lemma SyncKeepsUserTitle(d: ScopeOfWorkData, tenderTitle: string)
    ensures d.projectTitle != "" && d.projectTitle != tenderTitle ==> SyncTenderTitle(d, tenderTitle) == d
    ensures SyncTenderTitle(SyncTenderTitle(d, tenderTitle), tenderTitle) == SyncTenderTitle(d, tenderTitle)
  {
  }

  /** The auto-save condition: some of the details, the project title or the budget is filled in. */
  predicate ShouldAutoSave(d: ScopeOfWorkData) {
    d.scopeOfWorkDetails != "" || d.projectTitle != "" || d.budget != ""
  }

  /** Edits to the deliverable lists alone never decide whether the form is
      auto-saved, and a fresh form is saved exactly when a tender title was
      given. */
  lemma AutoSaveIgnoresLists(d: ScopeOfWorkData, ds: seq<Deliverable>, es: seq<Deliverable>, tenderTitle: string)
    ensures ShouldAutoSave(d.(deliverables := ds, extensionDeliverables := es)) == ShouldAutoSave(d)
    ensures ShouldAutoSave(InitialScopeOfWork(None, tenderTitle)) <==> tenderTitle != ""
  {
  }

  // ---------------------------------------------------------------------------
  // Generation request and response normalisation (components/scope-of-work-form.tsx:155-249)

  /** `SowConsultancyRequest` as the form fills it in. */
  datatype TenderRequest = TenderRequest(
    tenderTitle: string, departmentName: string, contractDuration: int, location: string,
    projectType: string, budget: string, specialRequirements: string)

  /** The fields of a generation reply the form reads; an absent list is the empty list. */
  datatype SowResponse = SowResponse(
    projectTitle: string,
    scopeOfWorkDetails: string,
    deliverables: seq<Deliverable>,
    extensionYear: string,
    extensionDeliverables: seq<Deliverable>,
    budget: string,
    specialRequirements: string)

  /** What the client call gives back: a reply, an empty (falsy) body, or a
      thrown error with its message. */
  datatype ApiReply = Reply(response: SowResponse) | EmptyBody | Thrown(message: string)

  /** The result of pressing "generate". */
  datatype GenerationOutcome = MissingInformation | Failed(message: string) | Generated(data: ScopeOfWorkData)

  const DefaultDeliverables := [
    Deliverable("Environmental Impact Assessment Report", "T+3 months"),
    Deliverable("Environment Clearance Application", "T+4 months"),
    Deliverable("Compliance and Support Documentation", "T+6 months")]

  const DefaultExtensionDeliverables := [
    Deliverable("Extended compliance monitoring and support", "T1+3 months"),
    Deliverable("Additional regulatory assistance as required", "T1+6 months")]

  /** The fallback deliverables are due three, four and six months after T,
      the extension ones three and six months after T1. */
  lemma DefaultTimelines()
    ensures |DefaultDeliverables| == 3 && |DefaultExtensionDeliverables| == 2
    ensures DefaultDeliverables[0].timeline == "T+3 months"
    ensures DefaultDeliverables[1].timeline == "T+4 months"
    ensures DefaultDeliverables[2].timeline == "T+6 months"
    ensures DefaultExtensionDeliverables[0].timeline == "T1+3 months"
    ensures DefaultExtensionDeliverables[1].timeline == "T1+6 months"
  {
  }

  /** The request sent for a generation. */
  function SowRequest(form: ScopeOfWorkData, department: string, tenderTitle: string,
                      contractDuration: int, location: string): (r: TenderRequest)
    ensures r.tenderTitle == tenderTitle && r.departmentName == department
    ensures r.contractDuration == contractDuration && r.location == location
    ensures r.projectType == "Consultancy"
    ensures r.budget == form.budget && r.specialRequirements == form.specialRequirements
  {
    TenderRequest(tenderTitle, department, contractDuration, location, "Consultancy",
                  Or(form.budget, ""), Or(form.specialRequirements, ""))
  }

  predicate IsQuote(c: char) {
    c == '"' || c == '\''
  }

  /** `replace(/^["']|["']$/g, "")`: drops one quote at the start and one at the end. */
  function StripQuotes(s: string): (r: string)
    ensures |r| <= |s|
  {
    var a := if |s| > 0 && IsQuote(s[0]) then s[1..] else s;
    if |a| > 0 && IsQuote(a[|a| - 1]) then a[..|a| - 1] else a
  }

  /** The project-title cleanup: a title containing `PROJECT TITLE:` loses
      the first case-insensitive occurrence of that label and the white space
      after it, one surrounding quote at each end, and outer white space;
      any other title is kept as it is. */
  function CleanProjectTitle(title: string): (r: string)
    ensures !Contains(title, "PROJECT TITLE:") ==> r == title
    ensures Contains(title, "PROJECT TITLE:") ==> r == Trim(r) && |r| < |title|
  {
    if Contains(title, "PROJECT TITLE:") then
      ContainsFindsIgnoringCase(title, "PROJECT TITLE:");
      RemoveFirstShortens(title, "PROJECT TITLE:");
      var inner := StripQuotes(RemoveFirstIgnoringCase(title, "PROJECT TITLE:"));
      TrimSpec(inner);
      Trim(inner)
    else title
  }

  /** The scope-details cleanup: details containing `DETAILED` lose the first
      case-insensitive occurrence of that word and the white space after it,
      and outer white space; other details are kept as they are. */
  function CleanScopeDetails(details: string): (r: string)
    ensures !Contains(details, "DETAILED") ==> r == details
    ensures Contains(details, "DETAILED") ==> r == Trim(r) && |r| < |details|
  {
    if Contains(details, "DETAILED") then
      ContainsFindsIgnoringCase(details, "DETAILED");
      RemoveFirstShortens(details, "DETAILED");
      TrimSpec(RemoveFirstIgnoringCase(details, "DETAILED"));
      Trim(RemoveFirstIgnoringCase(details, "DETAILED"))
    else details
  }

  /** The record built from a reply: the reply's lists unless empty, else the
      fixed defaults; the extension year falls back to "1"; budget and
      special requirements fall back from the reply to the form to "". */
  function NormalizeResponse(response: SowResponse, form: ScopeOfWorkData, tenderTitle: string): (r: ScopeOfWorkData)
    ensures ListsNonEmpty(r)
    ensures r.deliverables == if response.deliverables != [] then response.deliverables else DefaultDeliverables
    ensures r.extensionDeliverables ==
              if response.extensionDeliverables != [] then response.extensionDeliverables
              else DefaultExtensionDeliverables
    ensures r.extensionYear == if response.extensionYear != "" then response.extensionYear else "1"
    ensures r.budget == if response.budget != "" then response.budget else form.budget
    ensures r.specialRequirements ==
              if response.specialRequirements != "" then response.specialRequirements else form.specialRequirements
    ensures r.projectTitle == CleanProjectTitle(if response.projectTitle != "" then response.projectTitle else tenderTitle)
    ensures r.scopeOfWorkDetails == CleanScopeDetails(response.scopeOfWorkDetails)
  {
    var deliverables := if |response.deliverables| > 0 then response.deliverables else DefaultDeliverables;
    var extensions := if |response.extensionDeliverables| > 0 then response.extensionDeliverables
                      else DefaultExtensionDeliverables;
    ScopeOfWorkData(
      CleanProjectTitle(Or(response.projectTitle, tenderTitle)),
      CleanScopeDetails(Or(response.scopeOfWorkDetails, "")),
      deliverables,
      Or(response.extensionYear, "1"),
      extensions,
      Or(Or(response.budget, form.budget), ""),
      Or(Or(response.specialRequirements, form.specialRequirements), ""))
  }

  /** A reply without any content normalises to the fixed defaults, keeping
      the form's own budget and requirements. */
  lemma EmptyReplyGivesDefaults(form: ScopeOfWorkData, tenderTitle: string)
    requires !Contains(tenderTitle, "PROJECT TITLE:")
    ensures var r := NormalizeResponse(SowResponse("", "", [], "", [], "", ""), form, tenderTitle);
            && r.deliverables == DefaultDeliverables && r.extensionDeliverables == DefaultExtensionDeliverables
            && r.extensionYear == "1" && r.projectTitle == tenderTitle && r.scopeOfWorkDetails == ""
            && r.budget == form.budget && r.specialRequirements == form.specialRequirements
  {
    assert !Contains("", "DETAILED");
  }

  // ---------------------------------------------------------------------------
  // The component state

  /** The `ScopeOfWorkForm` component: its `formData` state. Its props
      (tender title, department, contract duration, location) are passed to
      the methods that read them. */
  class ScopeOfWorkForm {
    var formData: ScopeOfWorkData

    /** Mounting: the `useState` initialiser, then the first run of the
        tender-title effect, which every mount performs. */
    constructor (initialData: Option<ScopeOfWorkData>, tenderTitle: string)
      ensures formData == SyncTenderTitle(InitialScopeOfWork(initialData, tenderTitle), tenderTitle)
    {
      formData := SyncTenderTitle(InitialScopeOfWork(initialData, tenderTitle), tenderTitle);
    }

    /** The tender-title effect, run when the tender-title prop changes. */
    method TenderTitleChanged(tenderTitle: string)
      modifies this
      ensures formData == SyncTenderTitle(old(formData), tenderTitle)
    {
      formData := SyncTenderTitle(formData, tenderTitle);
    }

    /** The auto-save effect once the debounce delay has passed: the record
      handed to `onSave`, if any. */
    method AutoSave() returns (saved: Option<ScopeOfWorkData>)
      ensures saved.Some? <==> ShouldAutoSave(formData)
      ensures saved.Some? ==> saved.value == formData
    {
      if formData.scopeOfWorkDetails != "" || formData.projectTitle != "" || formData.budget != "" {
        saved := Some(formData);
      } else {
        saved := None;
      }
    }

    /** `handleChange` on a text field. */
    method ChangeText(f: TextField, value: string)
      modifies this
      ensures formData == match f
                          case ProjectTitle => old(formData).(projectTitle := value)
                          case ScopeOfWorkDetails => old(formData).(scopeOfWorkDetails := value)
                          case ExtensionYear => old(formData).(extensionYear := value)
                          case Budget => old(formData).(budget := value)
                          case SpecialRequirements => old(formData).(specialRequirements := value)
      ensures ListsNonEmpty(old(formData)) ==> ListsNonEmpty(formData)
    {
      match f
      case ProjectTitle => formData := formData.(projectTitle := value);
      case ScopeOfWorkDetails => formData := formData.(scopeOfWorkDetails := value);
      case ExtensionYear => formData := formData.(extensionYear := value);
      case Budget => formData := formData.(budget := value);
      case SpecialRequirements => formData := formData.(specialRequirements := value);
    }

    /** `handleDeliverableChange` on a row the table shows. */
    method ChangeDeliverable(index: nat, f: ItemField, value: string)
      requires index < |formData.deliverables|
      modifies this
      ensures formData == old(formData).(deliverables := UpdateItem(old(formData.deliverables), index, f, value))
      ensures ListsNonEmpty(old(formData)) ==> ListsNonEmpty(formData)
    {
      formData := formData.(deliverables := UpdateItem(formData.deliverables, index, f, value));
    }

    /** `handleExtensionDeliverableChange` on a row the table shows. */
    method ChangeExtensionDeliverable(index: nat, f: ItemField, value: string)
      requires index < |formData.extensionDeliverables|
      modifies this
      ensures formData == old(formData).(extensionDeliverables :=
                            UpdateItem(old(formData.extensionDeliverables), index, f, value))
      ensures ListsNonEmpty(old(formData)) ==> ListsNonEmpty(formData)
    {
      formData := formData.(extensionDeliverables := UpdateItem(formData.extensionDeliverables, index, f, value));
    }

    /** `addDeliverable`. */
    method AddDeliverable()
      modifies this
      ensures formData == old(formData).(deliverables := AppendItem(old(formData.deliverables)))
      ensures ListsNonEmpty(old(formData)) ==> ListsNonEmpty(formData)
    {
      formData := formData.(deliverables := formData.deliverables + [EmptyDeliverable]);
    }

    /** `addExtensionDeliverable`. */
    method AddExtensionDeliverable()
      modifies this
      ensures formData == old(formData).(extensionDeliverables := AppendItem(old(formData.extensionDeliverables)))
      ensures ListsNonEmpty(old(formData)) ==> ListsNonEmpty(formData)
    {
      formData := formData.(extensionDeliverables := formData.extensionDeliverables + [EmptyDeliverable]);
    }

    /** `removeDeliverable`, whose button is only shown while the list has more than one row. */
    method RemoveDeliverable(index: nat)
      requires |formData.deliverables| > 1 && index < |formData.deliverables|
      modifies this
      ensures formData == old(formData).(deliverables := RemoveItem(old(formData.deliverables), index))
      ensures |formData.deliverables| == |old(formData.deliverables)| - 1
      ensures ListsNonEmpty(old(formData)) ==> ListsNonEmpty(formData)
    {
      formData := formData.(deliverables := RemoveItem(formData.deliverables, index));
    }

    /** `removeExtensionDeliverable`, under the same guard. */
    method RemoveExtensionDeliverable(index: nat)
      requires |formData.extensionDeliverables| > 1 && index < |formData.extensionDeliverables|
      modifies this
      ensures formData == old(formData).(extensionDeliverables := RemoveItem(old(formData.extensionDeliverables), index))
      ensures |formData.extensionDeliverables| == |old(formData.extensionDeliverables)| - 1
      ensures ListsNonEmpty(old(formData)) ==> ListsNonEmpty(formData)
    {
      formData := formData.(extensionDeliverables := RemoveItem(formData.extensionDeliverables, index));
    }

    /** `handleGenerateScopeOfWork`, with the client call's result given as
      `reply`. Without a department or a tender title no request is made and
      nothing changes; a failed call leaves the record as it was; a reply
      replaces the record by its normalised form, which is also saved. */
    method GenerateScopeOfWork(department: string, tenderTitle: string, contractDuration: int,
                               location: string, reply: ApiReply)
      returns (request: Option<TenderRequest>, outcome: GenerationOutcome)
      modifies this
      ensures department == "" || tenderTitle == "" ==>
                request == None && outcome == MissingInformation && formData == old(formData)
      ensures department != "" && tenderTitle != "" ==>
                request == Some(SowRequest(old(formData), department, tenderTitle, contractDuration, location))
      ensures department != "" && tenderTitle != "" && reply.Reply? ==>
                formData == NormalizeResponse(reply.response, old(formData), tenderTitle)
                && outcome == Generated(formData)
      ensures department != "" && tenderTitle != "" && reply.EmptyBody? ==>
                formData == old(formData) && outcome == Failed("No response received from API")
      ensures department != "" && tenderTitle != "" && reply.Thrown? ==>
                formData == old(formData) && outcome == Failed(reply.message)
      ensures ListsNonEmpty(old(formData)) ==> ListsNonEmpty(formData)
    {
      if department == "" || tenderTitle == "" {
        return None, MissingInformation;
      }
      request := Some(SowRequest(formData, department, tenderTitle, contractDuration, location));
      match reply
      case EmptyBody =>
        outcome := Failed("No response received from API");
      case Thrown(message) =>
        outcome := Failed(message);
      case Reply(response) =>
        formData := NormalizeResponse(response, formData, tenderTitle);
        outcome := Generated(formData);
    }
  }
}
