/**
 * The Cases page: the search and type filter, the payload built from the
 * form, the submit that updates or creates a case, the edit and reset of the
 * form, and the name shown for a case's assigned judge.
 */
module Cases {
  import opened Wrappers
  import opened Text
  import opened Js
  import opened Records
  import Seqs

  // ---------------------------------------------------------------------------
  // Filtering

  /** Number contains the term ignoring case, and the type filter is "all" or the case's type. */
  predicate CaseMatches(c: CaseRec, term: string, filterType: string) {
    Contains(Lower(c.caseNumber), Lower(term)) && (filterType == "all" || c.caseType == filterType)
  }

  function MatchesFilter(term: string, filterType: string): CaseRec -> bool {
    (c: CaseRec) => CaseMatches(c, term, filterType)
  }

  /** `filteredCases`. */
  function FilteredCases(cases: seq<CaseRec>, term: string, filterType: string): seq<CaseRec> {
    Seqs.Filter(cases, MatchesFilter(term, filterType))
  }

  /** A case is kept exactly when it matches, order is kept, and "" with "all" keeps every case. */
  lemma FilteredCasesSpec(cases: seq<CaseRec>, term: string, filterType: string)
    ensures Seqs.Subsequence(FilteredCases(cases, term, filterType), cases)
    ensures forall c :: c in FilteredCases(cases, term, filterType) <==> c in cases && CaseMatches(c, term, filterType)
    ensures term == "" && filterType == "all" ==> FilteredCases(cases, term, filterType) == cases
  {
    Seqs.FilterIsSubsequence(cases, MatchesFilter(term, filterType));
    if term == "" && filterType == "all" {
      forall k | 0 <= k < |cases| ensures MatchesFilter(term, filterType)(cases[k]) {
        ContainsEmpty(Lower(cases[k].caseNumber));
      }
      Seqs.FilterAll(cases, MatchesFilter(term, filterType));
    }
  }

  // ---------------------------------------------------------------------------
  // The form and its payload

  datatype CaseForm = CaseForm(caseNumber: string, caseType: string, description: string, filedIn: string)

  /** The form after `resetForm`. */
  const BlankForm: CaseForm := CaseForm("", "civil", "", "")

  /** `dataToSend`: exactly these four fields. */
  datatype CasePayload = CasePayload(caseNumber: string, caseType: string, description: string, filedIn: string)

  /**
   * The payload: type and filing date as entered; number and description are
   * the entered text with its surrounding whitespace removed, and nothing
   * else (the slice `Trim` describes).
   */
  function DataToSend(form: CaseForm): (r: CasePayload)
    ensures r.caseType == form.caseType && r.filedIn == form.filedIn
    ensures r.caseNumber == Trim(form.caseNumber, JsSpace) && r.description == Trim(form.description, JsSpace)
    ensures r.caseNumber == [] || (!JsSpace(r.caseNumber[0]) && !JsSpace(r.caseNumber[|r.caseNumber| - 1]))
    ensures r.description == [] || (!JsSpace(r.description[0]) && !JsSpace(r.description[|r.description| - 1]))
  {
    CasePayload(Trim(form.caseNumber, JsSpace), form.caseType, Trim(form.description, JsSpace), form.filedIn)
  }

  /** Sending a payload back through the form changes nothing: the trimming is idempotent. */
  lemma DataToSendIdempotent(form: CaseForm)
    ensures var p := DataToSend(form);
            DataToSend(CaseForm(p.caseNumber, p.caseType, p.description, p.filedIn)) == p
  {
    TrimTwice(form.caseNumber, JsSpace);
    TrimTwice(form.description, JsSpace);
  }

  /** The request `handleSubmit` sends. */
  datatype CaseRequest = Update(id: Key, payload: CasePayload) | Create(payload: CasePayload)

  // ---------------------------------------------------------------------------
  // The assigned judge

  function JudgeIs(id: Option<Key>): JudgeRec -> bool {
    (j: JudgeRec) => Some(j.id) == id
  }

  /**
   * The judge line of a case card, shown only when `assigned_judge` is truthy:
   * `judges.find(j => j.id === caseItem.assigned_judge)?.name || 'Judge assigned'`.
   */
  function AssignedJudgeLabel(c: CaseRec, judges: seq<JudgeRec>): (r: Option<string>)
    ensures r.Some? <==> Truthy(c.assignedJudge)
    ensures r.Some? ==> r.value != ""
  {
    if !Truthy(c.assignedJudge) then None
    else
      match Seqs.FirstWhere(judges, JudgeIs(c.assignedJudge))
      case Some(j) => Some(OrElse(Some(j.name), "Judge assigned"))
      case None => Some("Judge assigned")
  }

  /** The label names the first judge with the case's judge id, when that name is not empty. */
  lemma JudgeLabelNamesFirstMatch(c: CaseRec, judges: seq<JudgeRec>, k: nat)
    requires Truthy(c.assignedJudge)
    requires k < |judges| && Some(judges[k].id) == c.assignedJudge
    requires forall j :: 0 <= j < k ==> Some(judges[j].id) != c.assignedJudge
    ensures AssignedJudgeLabel(c, judges) == Some(if judges[k].name != "" then judges[k].name else "Judge assigned")
  {
    Seqs.FirstWhereAt(judges, JudgeIs(c.assignedJudge), k);
  }

  /** Without a judge of that id in the list, the label is the placeholder. */
  lemma JudgeLabelPlaceholder(c: CaseRec, judges: seq<JudgeRec>)
    requires Truthy(c.assignedJudge)
    requires forall j :: 0 <= j < |judges| ==> Some(judges[j].id) != c.assignedJudge
    ensures AssignedJudgeLabel(c, judges) == Some("Judge assigned")
  {
  }

  // ---------------------------------------------------------------------------
  // The page's state

  class CasesPage {
    var cases: seq<CaseRec>
    var loading: bool
    var showModal: bool
    var isAnalyzing: bool
    var selectedCase: Option<CaseRec>
    var formData: CaseForm

    constructor()
      ensures cases == [] && loading && !showModal && !isAnalyzing
      ensures selectedCase == None && formData == BlankForm
    {
      cases, loading, showModal, isAnalyzing := [], true, false, false;
      selectedCase, formData := None, BlankForm;
    }

    /** `fetchCases`: the cases, or no change when the request failed; loading ends. */
    method FetchCases(reply: Option<seq<CaseRec>>)
      modifies this
      ensures !loading
      ensures cases == if reply.Some? then reply.value else old(cases)
      ensures showModal == old(showModal) && isAnalyzing == old(isAnalyzing)
      ensures selectedCase == old(selectedCase) && formData == old(formData)
    {
      loading := true;
      if reply.Some? {
        cases := reply.value;
      }
      loading := false;
    }

    /** `handleEdit(caseItem)`: select it, copy its fields (a missing description becomes ""), open the form. */
    method HandleEdit(c: CaseRec)
      modifies this
      ensures selectedCase == Some(c)
      ensures formData == CaseForm(c.caseNumber, c.caseType, c.description.GetOr(""), c.filedIn)
      ensures showModal
      ensures cases == old(cases) && loading == old(loading) && isAnalyzing == old(isAnalyzing)
    {
      selectedCase := Some(c);
      formData := CaseForm(c.caseNumber, c.caseType, c.description.GetOr(""), c.filedIn);
      showModal := true;
    }

    /** `resetForm`: no selection, type "civil", every other field empty. */
    method ResetForm()
      modifies this
      ensures selectedCase == None && formData == BlankForm
      ensures cases == old(cases) && loading == old(loading) && showModal == old(showModal)
      ensures isAnalyzing == old(isAnalyzing)
    {
      selectedCase := None;
      formData := BlankForm;
    }

    /**
     * `handleSubmit`: the payload goes to an update of the selected case or
     * to a creation; `saved` says whether that request succeeded, and
     * `refreshed` is the outcome of the `fetchCases` awaited after a save.
     * On failure nothing but `isAnalyzing` is touched, and it is false at the end.
     */
    method HandleSubmit(saved: bool, refreshed: Option<seq<CaseRec>>) returns (request: CaseRequest)
      modifies this
      ensures var p := DataToSend(old(formData));
              request == if old(selectedCase).Some? then Update(old(selectedCase).value.id, p) else Create(p)
      ensures saved ==> !showModal && selectedCase == None && formData == BlankForm && !loading
      ensures saved ==> cases == if refreshed.Some? then refreshed.value else old(cases)
      ensures !saved ==> showModal == old(showModal) && selectedCase == old(selectedCase) && formData == old(formData)
      ensures !saved ==> cases == old(cases) && loading == old(loading)
      ensures !isAnalyzing
    {
      var dataToSend := DataToSend(formData);
      isAnalyzing := true;
      if selectedCase.Some? {
        request := Update(selectedCase.value.id, dataToSend);
      } else {
        request := Create(dataToSend);
      }
      if saved {
        showModal := false;
        ResetForm();
        FetchCases(refreshed);
      }
      isAnalyzing := false;
    }
  }
}
