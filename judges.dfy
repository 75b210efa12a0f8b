/**
 * The Judges page: a judge's schedules and the case each one is for, the
 * search filter, and the edit form with its submit.  The schedules of a judge
 * are shown in the order of the collection; they are not sorted.
 */
module Judges {
  import opened Wrappers
  import opened Text
  import opened Js
  import opened Records
  import Seqs

  // ---------------------------------------------------------------------------
  // Lookups

  function ForJudge(id: Key): ScheduleRec -> bool {
    (s: ScheduleRec) => s.judge == id
  }

  /** `getJudgeSchedules(judgeId)`: `schedules.filter(s => s.judge === judgeId)`. */
  function JudgeSchedules(schedules: seq<ScheduleRec>, id: Key): seq<ScheduleRec> {
    Seqs.Filter(schedules, ForJudge(id))
  }

  /** A judge's schedules are exactly those naming the judge, in the collection's order. */
  lemma JudgeSchedulesSpec(schedules: seq<ScheduleRec>, id: Key)
    ensures Seqs.Subsequence(JudgeSchedules(schedules, id), schedules)
    ensures forall s :: s in JudgeSchedules(schedules, id) <==> s in schedules && s.judge == id
  {
    Seqs.FilterIsSubsequence(schedules, ForJudge(id));
  }

  /**
   * Nothing reorders them: when every schedule is for the judge, the list is
   * the collection itself, whatever the start times.
   */
  lemma JudgeSchedulesUnsorted(schedules: seq<ScheduleRec>, id: Key)
    requires forall k :: 0 <= k < |schedules| ==> schedules[k].judge == id
    ensures JudgeSchedules(schedules, id) == schedules
  {
    Seqs.FilterAll(schedules, ForJudge(id));
  }

  function HasId(id: Key): CaseRec -> bool {
    (c: CaseRec) => c.id == id
  }

  /** `getCaseById(caseId)`: `cases.find(c => c.id === caseId)`. */
  function CaseById(cases: seq<CaseRec>, id: Key): Option<CaseRec> {
    Seqs.FirstWhere(cases, HasId(id))
  }

  /** The case found is the first with that id; there is none exactly when no case has it. */
  lemma CaseByIdSpec(cases: seq<CaseRec>, id: Key, k: nat)
    requires k < |cases| && cases[k].id == id
    requires forall j :: 0 <= j < k ==> cases[j].id != id
    ensures CaseById(cases, id) == Some(cases[k])
  {
    Seqs.FirstWhereAt(cases, HasId(id), k);
  }

  lemma CaseByIdNone(cases: seq<CaseRec>, id: Key)
    ensures CaseById(cases, id) == None <==> forall j :: 0 <= j < |cases| ==> cases[j].id != id
  {
  }

  // ---------------------------------------------------------------------------
  // The schedule window

  /** What one schedule card shows: heading, case type badge (when the case is known), room. */
  datatype Card = Card(heading: string, caseType: Option<string>, room: string)

  /** The card of a schedule: `caseItem?.case_number || \`Case #${schedule.case}\``, and the room. */
  function CardOf(s: ScheduleRec, cases: seq<CaseRec>): (r: Card)
    ensures var found := CaseById(cases, s.caseId);
            && (found.Some? && found.value.caseNumber != "" ==> r.heading == found.value.caseNumber)
            && (found.None? || found.value.caseNumber == "" ==> r.heading == "Case #" + StringOf(s.caseId))
            && (r.caseType.Some? <==> found.Some?)
            && (found.Some? ==> r.caseType == Some(found.value.caseType))
            && (TruthyText(s.room) ==> r.room == s.room.value)
            && (!TruthyText(s.room) ==> r.room == "Courtroom 1")
  {
    var found := CaseById(cases, s.caseId);
    var number := if found.Some? then Some(found.value.caseNumber) else None;
    Card(OrElse(number, "Case #" + StringOf(s.caseId)),
         if found.Some? then Some(found.value.caseType) else None,
         OrElse(s.room, DefaultRoom))
  }

  /** The cards of the schedule window for judge `id`. */
  function ScheduleCards(schedules: seq<ScheduleRec>, cases: seq<CaseRec>, id: Key): seq<Card> {
    Seqs.Map(JudgeSchedules(schedules, id), (s: ScheduleRec) => CardOf(s, cases))
  }

  /** No schedule is dropped: one card per schedule of the judge, in order, even when its case is missing. */
  lemma CardsForEverySchedule(schedules: seq<ScheduleRec>, cases: seq<CaseRec>, id: Key)
    ensures |ScheduleCards(schedules, cases, id)| == |JudgeSchedules(schedules, id)|
    ensures forall k :: 0 <= k < |JudgeSchedules(schedules, id)| ==>
              ScheduleCards(schedules, cases, id)[k] == CardOf(JudgeSchedules(schedules, id)[k], cases)
  {
  }

  // ---------------------------------------------------------------------------
  // Search

  /** Name or court contains the term, ignoring case. */
  predicate JudgeMatches(j: JudgeRec, term: string) {
    Contains(Lower(j.name), Lower(term)) || Contains(Lower(j.court), Lower(term))
  }

  function MatchesTerm(term: string): JudgeRec -> bool {
    j => JudgeMatches(j, term)
  }

  /** `filteredJudges`. */
  function FilteredJudges(judges: seq<JudgeRec>, term: string): seq<JudgeRec> {
    Seqs.Filter(judges, MatchesTerm(term))
  }

  /** The search keeps exactly the matching judges, in order; an empty term keeps them all. */
  lemma FilteredJudgesSpec(judges: seq<JudgeRec>, term: string)
    ensures Seqs.Subsequence(FilteredJudges(judges, term), judges)
    ensures forall j :: j in FilteredJudges(judges, term) <==> j in judges && JudgeMatches(j, term)
    ensures term == "" ==> FilteredJudges(judges, term) == judges
  {
    Seqs.FilterIsSubsequence(judges, MatchesTerm(term));
    if term == "" {
      forall k | 0 <= k < |judges| ensures MatchesTerm(term)(judges[k]) {
        ContainsEmpty(Lower(judges[k].name));
      }
      Seqs.FilterAll(judges, MatchesTerm(term));
    }
  }

  // ---------------------------------------------------------------------------
  // The form

  datatype JudgeForm = JudgeForm(name: string, court: string, availability: seq<AvailabilityEntry>)

  const EmptyForm: JudgeForm := JudgeForm("", "", [])

  /** The request `handleSubmit` sends. */
  datatype JudgeRequest = Update(id: Key, form: JudgeForm) | Create(form: JudgeForm)

  class JudgesPage {
    var judges: seq<JudgeRec>
    var schedules: seq<ScheduleRec>
    var cases: seq<CaseRec>
    var loading: bool
    var showModal: bool
    var showScheduleModal: bool
    var selectedJudge: Option<JudgeRec>
    var formData: JudgeForm

    constructor()
      ensures judges == [] && schedules == [] && cases == [] && loading
      ensures !showModal && !showScheduleModal && selectedJudge == None && formData == EmptyForm
    {
      judges, schedules, cases, loading := [], [], [], true;
      showModal, showScheduleModal, selectedJudge, formData := false, false, None, EmptyForm;
    }

    /** `fetchData`: the three collections, or no change when a request failed; loading ends. */
    method FetchData(reply: Option<(seq<JudgeRec>, seq<ScheduleRec>, seq<CaseRec>)>)
      modifies this
      ensures !loading
      ensures reply.Some? ==> judges == reply.value.0 && schedules == reply.value.1 && cases == reply.value.2
      ensures reply.None? ==> judges == old(judges) && schedules == old(schedules) && cases == old(cases)
      ensures showModal == old(showModal) && showScheduleModal == old(showScheduleModal)
      ensures selectedJudge == old(selectedJudge) && formData == old(formData)
    {
      loading := true;
      if reply.Some? {
        judges := reply.value.0;
        schedules := reply.value.1;
        cases := reply.value.2;
      }
      loading := false;
    }

    /** `handleEdit(judge)`: select it, copy name and court, availability defaulting to `[]`, open the form. */
    method HandleEdit(judge: JudgeRec)
      modifies this
      ensures selectedJudge == Some(judge)
      ensures formData == JudgeForm(judge.name, judge.court, judge.availability.GetOr([]))
      ensures showModal
      ensures judges == old(judges) && schedules == old(schedules) && cases == old(cases)
      ensures loading == old(loading) && showScheduleModal == old(showScheduleModal)
    {
      selectedJudge := Some(judge);
      formData := JudgeForm(judge.name, judge.court, judge.availability.GetOr([]));
      showModal := true;
    }

    /** `resetForm`: no selection, empty form. */
    method ResetForm()
      modifies this
      ensures selectedJudge == None && formData == EmptyForm
      ensures judges == old(judges) && schedules == old(schedules) && cases == old(cases)
      ensures loading == old(loading) && showModal == old(showModal) && showScheduleModal == old(showScheduleModal)
    {
      selectedJudge := None;
      formData := EmptyForm;
    }

    /**
     * `handleSubmit`: an update of the selected judge, or a creation; `saved`
     * says whether the request succeeded.  On success the form closes and is
     * reset; on failure nothing changes.
     */
    method HandleSubmit(saved: bool) returns (request: JudgeRequest)
      modifies this
      ensures request == if old(selectedJudge).Some? then Update(old(selectedJudge).value.id, old(formData)) else Create(old(formData))
      ensures saved ==> !showModal && selectedJudge == None && formData == EmptyForm
      ensures !saved ==> showModal == old(showModal) && selectedJudge == old(selectedJudge) && formData == old(formData)
      ensures judges == old(judges) && schedules == old(schedules) && cases == old(cases)
      ensures loading == old(loading) && showScheduleModal == old(showScheduleModal)
    {
      if selectedJudge.Some? {
        request := Update(selectedJudge.value.id, formData);
      } else {
        request := Create(formData);
      }
      if saved {
        showModal := false;
        ResetForm();
      }
    }

    /** `viewJudgeSchedule(judge)`: select it and open the schedule window. */
    method ViewJudgeSchedule(judge: JudgeRec)
      modifies this
      ensures selectedJudge == Some(judge) && showScheduleModal
      ensures judges == old(judges) && schedules == old(schedules) && cases == old(cases)
      ensures loading == old(loading) && showModal == old(showModal) && formData == old(formData)
    {
      selectedJudge := Some(judge);
      showScheduleModal := true;
    }
  }
}
