/**
 * The Lawyers page: the number of cases per lawyer shown in the directory,
 * the list of a lawyer's cases shown in the schedule window, and the search
 * filter.  The count matches ids with `===`; the list compares them after
 * `String(...)`, so the two can disagree when an id arrives as a number in
 * one collection and as a string in the other.
 */
module Lawyers {
  import opened Wrappers
  import opened Text
  import opened Js
  import opened Records
  import Seqs
  import Sorting

  // ---------------------------------------------------------------------------
  // Case counts

  /** `c.lawyers && c.lawyers.includes(id)`. */
  predicate ListsStrictly(c: CaseRec, id: Key) {
    c.lawyers.Some? && id in c.lawyers.value
  }

  function StrictlyWith(id: Key): CaseRec -> bool {
    c => ListsStrictly(c, id)
  }

  /** The number of cases counted for the lawyer id. */
  function CaseCount(cases: seq<CaseRec>, id: Key): (n: nat)
    ensures n <= |cases|
  {
    |Seqs.Filter(cases, StrictlyWith(id))|
  }

  /**
   * The `counts` object after the `forEach` over the first lawyers: object
   * keys are `String(lawyer.id)`, and a later lawyer overwrites an earlier
   * one with the same key.
   */
  function CountsOf(lawyers: seq<LawyerRec>, cases: seq<CaseRec>): map<string, nat>
    decreases |lawyers|
  {
    if lawyers == [] then map[]
    else
      var l := lawyers[|lawyers| - 1];
      CountsOf(lawyers[..|lawyers| - 1], cases)[StringOf(l.id) := CaseCount(cases, l.id)]
  }

  /** `lawyerCaseCounts[lawyer.id] || 0`. */
  function DisplayedCount(counts: map<string, nat>, id: Key): nat {
    if StringOf(id) in counts then counts[StringOf(id)] else 0
  }

  /** The lawyer ids are distinct even after `String(...)`. */
  ghost predicate DistinctKeys(lawyers: seq<LawyerRec>) {
    forall i, j :: 0 <= i < j < |lawyers| ==> StringOf(lawyers[i].id) != StringOf(lawyers[j].id)
  }

  /** There is one entry per lawyer id, and nothing else. */
  lemma {:induction false} CountsKeys(lawyers: seq<LawyerRec>, cases: seq<CaseRec>)
    ensures CountsOf(lawyers, cases).Keys == set k | 0 <= k < |lawyers| :: StringOf(lawyers[k].id)
    decreases |lawyers|
  {
    if lawyers != [] {
      var init := lawyers[..|lawyers| - 1];
      var last := StringOf(lawyers[|lawyers| - 1].id);
      CountsKeys(init, cases);
      var all := set k | 0 <= k < |lawyers| :: StringOf(lawyers[k].id);
      var before := set k | 0 <= k < |init| :: StringOf(init[k].id);
      assert CountsOf(lawyers, cases).Keys == before + {last};
      forall x | x in all ensures x in before + {last} {
        var k :| 0 <= k < |lawyers| && x == StringOf(lawyers[k].id);
        if k < |init| {
          assert init[k] == lawyers[k];
        }
      }
      forall x | x in before + {last} ensures x in all {
        if x in before {
          var k :| 0 <= k < |init| && x == StringOf(init[k].id);
          assert init[k] == lawyers[k];
        }
      }
    }
  }

  /** With distinct ids, every lawyer is shown the number of cases that list it. */
  lemma {:induction false} CountsExact(lawyers: seq<LawyerRec>, cases: seq<CaseRec>, k: nat)
    requires k < |lawyers| && DistinctKeys(lawyers)
    ensures DisplayedCount(CountsOf(lawyers, cases), lawyers[k].id) == CaseCount(cases, lawyers[k].id)
    decreases |lawyers|
  {
    var last := |lawyers| - 1;
    if k < last {
      var init := lawyers[..last];
      assert init[k] == lawyers[k];
      assert DistinctKeys(init) by {
        forall i, j | 0 <= i < j < |init| ensures StringOf(init[i].id) != StringOf(init[j].id) {
          assert init[i] == lawyers[i] && init[j] == lawyers[j];
        }
      }
      CountsExact(init, cases, k);
      CountsKeys(init, cases);
      assert StringOf(lawyers[k].id) != StringOf(lawyers[last].id);
    }
  }

  /** A case without a `lawyers` list counts for nobody. */
  lemma UnlistedCaseIgnored(a: seq<CaseRec>, c: CaseRec, b: seq<CaseRec>, id: Key)
    requires c.lawyers.None?
    ensures CaseCount(a + [c] + b, id) == CaseCount(a + b, id)
  {
    Seqs.FilterSkip(a, c, b, StrictlyWith(id));
  }

  // ---------------------------------------------------------------------------
  // The schedule window

  /** `c.lawyers && c.lawyers.map(String).includes(String(id))`. */
  predicate ListsLoosely(c: CaseRec, id: Key) {
    c.lawyers.Some? && StringOf(id) in Seqs.Map(c.lawyers.value, StringOf)
  }

  function LooselyWith(id: Key): CaseRec -> bool {
    c => ListsLoosely(c, id)
  }

  /**
   * The cases shown for a lawyer: those that list it after `String(...)`,
   * latest filing first (`new Date(b.filed_in) - new Date(a.filed_in)`, with
   * `dateValue` standing for `new Date(...)`; the sort is stable).
   */
  function AssignedCases(cases: seq<CaseRec>, id: Key, dateValue: string -> int): (r: seq<CaseRec>)
    ensures multiset(r) == multiset(Seqs.Filter(cases, LooselyWith(id)))
    ensures Sorting.NonIncreasing(r, (c: CaseRec) => dateValue(c.filedIn))
  {
    Sorting.SortDesc(Seqs.Filter(cases, LooselyWith(id)), (c: CaseRec) => dateValue(c.filedIn))
  }

  /** A case lists a lawyer loosely exactly when one of its lawyer ids prints as the lawyer's id. */
  lemma LooselyIff(c: CaseRec, id: Key)
    ensures ListsLoosely(c, id)
            <==> c.lawyers.Some? && exists k :: 0 <= k < |c.lawyers.value| && StringOf(c.lawyers.value[k]) == StringOf(id)
  {
    if c.lawyers.Some? {
      var ks := Seqs.Map(c.lawyers.value, StringOf);
      if exists k :: 0 <= k < |c.lawyers.value| && StringOf(c.lawyers.value[k]) == StringOf(id) {
        var k :| 0 <= k < |c.lawyers.value| && StringOf(c.lawyers.value[k]) == StringOf(id);
        assert ks[k] == StringOf(id);
      }
    }
  }

  /** A case is listed for a lawyer exactly when one of its lawyer ids prints as the lawyer's id. */
  lemma ListedIff(cases: seq<CaseRec>, id: Key, dateValue: string -> int, c: CaseRec)
    ensures c in AssignedCases(cases, id, dateValue)
            <==> c in cases && c.lawyers.Some? && exists k :: 0 <= k < |c.lawyers.value| && StringOf(c.lawyers.value[k]) == StringOf(id)
  {
    var kept := Seqs.Filter(cases, LooselyWith(id));
    assert c in AssignedCases(cases, id, dateValue) <==> c in multiset(kept);
    assert c in kept <==> c in cases && ListsLoosely(c, id);
    LooselyIff(c, id);
  }

  /** Every case counted for a lawyer is also listed for it, so the count never exceeds the list. */
  lemma CountWithinList(cases: seq<CaseRec>, id: Key, dateValue: string -> int)
    ensures CaseCount(cases, id) <= |AssignedCases(cases, id, dateValue)|
  {
    forall c | StrictlyWith(id)(c) ensures LooselyWith(id)(c) {
      var k :| 0 <= k < |c.lawyers.value| && c.lawyers.value[k] == id;
      assert Seqs.Map(c.lawyers.value, StringOf)[k] == StringOf(id);
    }
    Seqs.FilterWeaker(cases, StrictlyWith(id), LooselyWith(id));
    assert |AssignedCases(cases, id, dateValue)| == |multiset(Seqs.Filter(cases, LooselyWith(id)))|;
  }

  /** A case listing lawyer 7 as the number 7 is counted only for the id 7, and listed for 7 and "7". */
  lemma NumberAndStringIds(c: CaseRec)
    requires c.lawyers == Some([Num(7)])
    ensures ListsStrictly(c, Num(7)) && !ListsStrictly(c, Str("7"))
    ensures ListsLoosely(c, Num(7)) && ListsLoosely(c, Str("7"))
  {
    SevenAndStringSeven();
    assert Seqs.Map([Num(7)], StringOf)[0] == StringOf(Num(7));
  }

  // ---------------------------------------------------------------------------
  // Search

  /** `lawyer.name.toLowerCase().includes(searchTerm.toLowerCase())`. */
  predicate NameMatches(l: LawyerRec, term: string) {
    Contains(Lower(l.name), Lower(term))
  }

  function MatchesTerm(term: string): LawyerRec -> bool {
    l => NameMatches(l, term)
  }

  /** `filteredLawyers`. */
  function FilteredLawyers(lawyers: seq<LawyerRec>, term: string): seq<LawyerRec> {
    Seqs.Filter(lawyers, MatchesTerm(term))
  }

  /** The search keeps exactly the matching lawyers, in order; an empty term keeps them all. */
  lemma FilteredLawyersSpec(lawyers: seq<LawyerRec>, term: string)
    ensures Seqs.Subsequence(FilteredLawyers(lawyers, term), lawyers)
    ensures forall l :: l in FilteredLawyers(lawyers, term) <==> l in lawyers && NameMatches(l, term)
    ensures term == "" ==> FilteredLawyers(lawyers, term) == lawyers
  {
    Seqs.FilterIsSubsequence(lawyers, MatchesTerm(term));
    if term == "" {
      forall k | 0 <= k < |lawyers| ensures MatchesTerm(term)(lawyers[k]) {
        ContainsEmpty(Lower(lawyers[k].name));
      }
      Seqs.FilterAll(lawyers, MatchesTerm(term));
    }
  }

  // ---------------------------------------------------------------------------
  // The page's state

  class LawyersPage {
    var lawyers: seq<LawyerRec>
    var counts: map<string, nat>
    var loading: bool
    var selectedLawyer: Option<LawyerRec>
    var showSchedule: bool
    var lawyerCases: seq<CaseRec>
    var loadingCases: bool

    constructor()
      ensures lawyers == [] && counts == map[] && loading
      ensures selectedLawyer == None && !showSchedule && lawyerCases == [] && !loadingCases
    {
      lawyers, counts, loading := [], map[], true;
      selectedLawyer, showSchedule, lawyerCases, loadingCases := None, false, [], false;
    }

    /**
     * `fetchLawyers`; `reply` holds the lawyers and the cases, `None` when a
     * request failed.  The counts are built by the `forEach` loop.
     */
    method FetchLawyers(reply: Option<(seq<LawyerRec>, seq<CaseRec>)>)
      modifies this
      ensures !loading
      ensures reply.Some? ==> lawyers == reply.value.0 && counts == CountsOf(reply.value.0, reply.value.1)
      ensures reply.None? ==> lawyers == old(lawyers) && counts == old(counts)
      ensures selectedLawyer == old(selectedLawyer) && showSchedule == old(showSchedule)
      ensures lawyerCases == old(lawyerCases) && loadingCases == old(loadingCases)
    {
      if reply.Some? {
        var (ls, cases) := reply.value;
        lawyers := ls;
        var c: map<string, nat> := map[];
        var i := 0;
        while i < |ls|
          invariant 0 <= i <= |ls|
          invariant c == CountsOf(ls[..i], cases)
        {
          assert ls[..i + 1][..i] == ls[..i];
          c := c[StringOf(ls[i].id) := CaseCount(cases, ls[i].id)];
          i := i + 1;
        }
        assert ls[..i] == ls;
        counts := c;
      }
      loading := false;
    }

    /** The part of `handleViewSchedule` before the request: the window opens, loading. */
    method BeginViewSchedule(lawyer: LawyerRec)
      modifies this
      ensures selectedLawyer == Some(lawyer) && showSchedule && loadingCases
      ensures lawyers == old(lawyers) && counts == old(counts) && loading == old(loading)
      ensures lawyerCases == old(lawyerCases)
    {
      selectedLawyer := Some(lawyer);
      showSchedule := true;
      loadingCases := true;
    }

    /** The rest of `handleViewSchedule`: the lawyer's cases, or none when the request failed. */
    method FinishViewSchedule(lawyer: LawyerRec, reply: Option<seq<CaseRec>>, dateValue: string -> int)
      modifies this
      ensures lawyerCases == (if reply.Some? then AssignedCases(reply.value, lawyer.id, dateValue) else [])
      ensures !loadingCases
      ensures lawyers == old(lawyers) && counts == old(counts) && loading == old(loading)
      ensures selectedLawyer == old(selectedLawyer) && showSchedule == old(showSchedule)
    {
      if reply.Some? {
        lawyerCases := AssignedCases(reply.value, lawyer.id, dateValue);
      } else {
        lawyerCases := [];
      }
      loadingCases := false;
    }
  }
}
