/**
 * The rule-based planner (`PlannerAgent`): observe the cases that have a judge,
 * rescore and sort them by priority, lay them out on a fixed grid of
 * ninety-minute slots from 10:00 that wraps after eight slots, check the draft
 * for conflicts, and replace the Schedule table only when the draft is feasible.
 * Database tables are sequences handed in (cases) or a small object (the
 * Schedule table); the duration and priority models are given functions.
 */
module Planner {
  import opened Wrappers
  import CS = ConstraintSolver
  import Seqs
  import Sorting
  import opened Clock

  /**
   * A Case row as the planner uses it.  `assignedJudge` is the assigned judge's
   * name (the planner only ever reads `judge.name`); `priority` stands for the
   * priority model's score and only its order matters.
   */
  datatype CaseRow = CaseRow(
    caseNumber: string,
    caseType: string,
    assignedJudge: Option<string>,
    estimatedDuration: int,
    priority: int)

  /** A Schedule row written by `act`: case number, judge name, span, room, version. */
  datatype ScheduleRow = ScheduleRow(caseNumber: string, judge: string, start: int, end: int, room: string, version: int)

  /** 10:00 as seconds after midnight. */
  const OpeningTime: int := 36000
  const SlotMinutes: int := 90
  const SlotsPerDay: int := 8
  const DefaultRoom: string := "Courtroom 1"

  /** Start of the i-th proposed hearing on day `day` (days counted from 1970-01-01). */
  function SlotStart(day: int, i: nat): int {
    day * DaySeconds + OpeningTime + SlotMinutes * 60 * (i % SlotsPerDay)
  }

  /** The filter of `observe`: `assigned_judge__isnull=False`. */
  predicate HasJudge(c: CaseRow) {
    c.assignedJudge.Some?
  }

  function Observed(all: seq<CaseRow>): seq<CaseRow> {
    Seqs.Filter(all, HasJudge)
  }

  /** `think` for one case: new duration first, then the priority of the updated case. */
  function Rescore(c: CaseRow, duration: CaseRow -> int, priority: CaseRow -> int): CaseRow {
    var d := c.(estimatedDuration := duration(c));
    d.(priority := priority(d))
  }

  function Rescored(cs: seq<CaseRow>, duration: CaseRow -> int, priority: CaseRow -> int): seq<CaseRow> {
    Seqs.Map(cs, c => Rescore(c, duration, priority))
  }

  function PriorityOf(c: CaseRow): int {
    c.priority
  }

  /** `cases.sort(key=priority, reverse=True)`: stable, highest priority first. */
  function Prioritized(cs: seq<CaseRow>): seq<CaseRow> {
    Sorting.SortDesc(cs, PriorityOf)
  }

  /** The assignment `propose` makes for the i-th case. */
  function Slot(c: CaseRow, day: int, i: nat, fallback: string): CS.Assignment {
    var start := SlotStart(day, i);
    CS.Assignment(c.caseNumber, c.assignedJudge.GetOr(fallback), start, start + c.estimatedDuration * 60)
  }

  /** The whole draft: one assignment per case, in case order. */
  function Draft(cs: seq<CaseRow>, day: int, fallback: string): (d: seq<CS.Assignment>)
    ensures |d| == |cs|
  {
    seq(|cs|, i requires 0 <= i < |cs| => Slot(cs[i], day, i, fallback))
  }

  function RowOf(a: CS.Assignment): ScheduleRow {
    ScheduleRow(a.caseLabel, a.judge, a.start, a.end, DefaultRoom, 1)
  }

  /** The rows `act` writes for a feasible draft. */
  function Rows(draft: seq<CS.Assignment>): seq<ScheduleRow> {
    Seqs.Map(draft, RowOf)
  }

  /**
   * How many leading draft entries `act` gets through: `resolves(a)` holds
   * when `Case.objects.get(case_number=...)` and `Judge.objects.get(name=...)`
   * each find exactly one row for entry a; the first entry for which one of
   * them raises stops the loop.
   */
  function Resolved(draft: seq<CS.Assignment>, resolves: CS.Assignment -> bool): (r: nat)
    ensures r <= |draft|
    ensures forall j :: 0 <= j < r ==> resolves(draft[j])
    ensures r < |draft| ==> !resolves(draft[r])
  {
    if draft == [] || !resolves(draft[0]) then 0 else 1 + Resolved(draft[1..], resolves)
  }

  /** When every lookup finds its one row, `act` writes the whole draft. */
  lemma AllResolvedWritesDraft(draft: seq<CS.Assignment>, resolves: CS.Assignment -> bool)
    requires forall j :: 0 <= j < |draft| ==> resolves(draft[j])
    ensures draft[..Resolved(draft, resolves)] == draft
  {
  }

  /** The Schedule table. */
  class ScheduleTable {
    var rows: seq<ScheduleRow>

    constructor (initial: seq<ScheduleRow>)
      ensures rows == initial
    {
      rows := initial;
    }
  }

  class PlannerAgent {
    var targetDay: int
    var cases: seq<CaseRow>
    var draft: seq<CS.Assignment>
    var feasible: bool
    var conflicts: seq<CS.Conflict>

    /** `target_day` defaults to the day after `today` (the clock is a parameter). */
    constructor (targetDayArg: Option<int>, today: int)
      ensures targetDay == targetDayArg.GetOr(today + 1)
      ensures cases == [] && draft == [] && !feasible && conflicts == []
    {
      targetDay := targetDayArg.GetOr(today + 1);
      cases, draft, feasible, conflicts := [], [], false, [];
    }

    /** Keeps the cases that have an assigned judge. */
    method Observe(all: seq<CaseRow>)
      modifies this
      ensures cases == Observed(all)
      ensures targetDay == old(targetDay) && draft == old(draft)
      ensures feasible == old(feasible) && conflicts == old(conflicts)
    {
      cases := Seqs.Filter(all, HasJudge);
    }

    /** Rescores every case in place, then sorts by priority, highest first. */
    method Think(duration: CaseRow -> int, priority: CaseRow -> int)
      modifies this
      ensures cases == Prioritized(Rescored(old(cases), duration, priority))
      ensures targetDay == old(targetDay) && draft == old(draft)
      ensures feasible == old(feasible) && conflicts == old(conflicts)
    {
      var k := 0;
      while k < |cases|
        invariant 0 <= k <= |cases| == |old(cases)|
        invariant forall m :: 0 <= m < k ==> cases[m] == Rescore(old(cases)[m], duration, priority)
        invariant forall m :: k <= m < |cases| ==> cases[m] == old(cases)[m]
        invariant targetDay == old(targetDay) && draft == old(draft)
        invariant feasible == old(feasible) && conflicts == old(conflicts)
      {
        var c := cases[k].(estimatedDuration := duration(cases[k]));
        c := c.(priority := priority(c));
        cases := cases[k := c];
        k := k + 1;
      }
      assert cases == Rescored(old(cases), duration, priority);
      cases := Sorting.SortDesc(cases, PriorityOf);
    }

    /**
     * Lays the cases out on the slot grid.  `fallback` stands for the judge
     * `random.choice(self.judges)` would pick for a case without one.
     */
    method Propose(fallback: string) returns (assignments: seq<CS.Assignment>)
      modifies this
      ensures assignments == Draft(cases, targetDay, fallback)
      ensures draft == assignments
      ensures targetDay == old(targetDay) && cases == old(cases)
      ensures feasible == old(feasible) && conflicts == old(conflicts)
    {
      assignments := [];
      var startBase := targetDay * DaySeconds + OpeningTime;
      var i := 0;
      while i < |cases|
        invariant 0 <= i <= |cases|
        invariant assignments == Draft(cases[..i], targetDay, fallback)
      {
        var c := cases[i];
        var judge := if c.assignedJudge.Some? then c.assignedJudge.value else fallback;
        var startTime := startBase + SlotMinutes * 60 * (i % SlotsPerDay);
        var endTime := startTime + c.estimatedDuration * 60;
        assignments := assignments + [CS.Assignment(c.caseNumber, judge, startTime, endTime)];
        i := i + 1;
      }
      assert cases[..|cases|] == cases;
      draft := assignments;
    }

    /** Records the checker's verdict on the draft. */
    method Verify()
      modifies this
      ensures conflicts == CS.Conflicts(draft)
      ensures feasible <==> conflicts == []
      ensures targetDay == old(targetDay) && cases == old(cases) && draft == old(draft)
    {
      var ok, found := CS.CheckConflicts(draft);
      feasible := ok;
      conflicts := found;
    }

    /**
     * An infeasible draft writes nothing.  A feasible one empties the Schedule
     * table and then writes one row per entry, until an entry whose case or
     * judge lookup raises (`raised`): the rows written before it stay.
     */
    method Act(table: ScheduleTable, resolves: CS.Assignment -> bool) returns (raised: bool)
      modifies table
      ensures table.rows == if feasible then Rows(draft[..Resolved(draft, resolves)]) else old(table.rows)
      ensures raised <==> feasible && Resolved(draft, resolves) < |draft|
    {
      raised := false;
      if !feasible {
        return;
      }
      table.rows := [];
      var k := 0;
      while k < |draft|
        invariant 0 <= k <= |draft|
        invariant forall j :: 0 <= j < k ==> resolves(draft[j])
        invariant table.rows == Rows(draft[..k])
      {
        var a := draft[k];
        if !resolves(a) {
          raised := true;
          return;
        }
        table.rows := table.rows + [ScheduleRow(a.caseLabel, a.judge, a.start, a.end, DefaultRoom, 1)];
        k := k + 1;
        assert draft[..k][..k - 1] == draft[..k - 1];
      }
      assert draft[..|draft|] == draft;
    }

    /** The whole pipeline, in the order `run` calls the stages. */
    method Run(all: seq<CaseRow>, duration: CaseRow -> int, priority: CaseRow -> int,
               fallback: string, resolves: CS.Assignment -> bool, table: ScheduleTable)
      returns (raised: bool)
      modifies this, table
      ensures cases == Prioritized(Rescored(Observed(all), duration, priority))
      ensures draft == Draft(cases, targetDay, fallback) && targetDay == old(targetDay)
      ensures conflicts == CS.Conflicts(draft) && (feasible <==> conflicts == [])
      ensures table.rows == if feasible then Rows(draft[..Resolved(draft, resolves)]) else old(table.rows)
      ensures raised <==> feasible && Resolved(draft, resolves) < |draft|
    {
      Observe(all);
      Think(duration, priority);
      var _ := Propose(fallback);
      Verify();
      raised := Act(table, resolves);
    }
  }

  // ---------------------------------------------------------------------------
  // Properties of the pipeline

  /**
   * After `think` the cases are the rescored observed cases, rearranged,
   * with priorities that never increase along the list.
   */
  lemma ThinkSortsAndPermutes(cs: seq<CaseRow>, duration: CaseRow -> int, priority: CaseRow -> int)
    ensures var r := Prioritized(Rescored(cs, duration, priority));
            |r| == |cs| && multiset(r) == multiset(Rescored(cs, duration, priority))
            && forall i, j :: 0 <= i < j < |r| ==> r[i].priority >= r[j].priority
  {
  }

  /** Cases of equal priority keep their observed order after `think` (the sort is stable). */
  lemma ThinkKeepsTies(cs: seq<CaseRow>, duration: CaseRow -> int, priority: CaseRow -> int, v: int)
    ensures Seqs.Filter(Prioritized(Rescored(cs, duration, priority)), Sorting.KeyIs(PriorityOf, v))
            == Seqs.Filter(Rescored(cs, duration, priority), Sorting.KeyIs(PriorityOf, v))
  {
    Sorting.SortDescStable(Rescored(cs, duration, priority), PriorityOf, v);
  }

  /**
   * The i-th assignment is the i-th case, from 10:00 on the target day plus
   * 90 * (i mod 8) minutes, for the case's estimated duration.
   */
  lemma DraftLayout(cs: seq<CaseRow>, day: int, fallback: string, i: nat)
    requires i < |cs|
    ensures var a := Draft(cs, day, fallback)[i];
            a.caseLabel == cs[i].caseNumber
            && a.start == Combine(day, 10 * 60 + 90 * (i % 8))
            && a.end == a.start + 60 * cs[i].estimatedDuration
  {
  }

  /** `act` writes one row per draft entry, in the courtroom "Courtroom 1", as version 1. */
  lemma RowsLayout(draft: seq<CS.Assignment>, k: nat)
    requires k < |draft|
    ensures |Rows(draft)| == |draft|
    ensures var r := Rows(draft)[k];
            r == ScheduleRow(draft[k].caseLabel, draft[k].judge, draft[k].start, draft[k].end, "Courtroom 1", 1)
  {
  }

  /** The grid wraps: slot i and slot i + 8 start at the same time. */
  lemma SlotGridWraps(day: int, i: nat)
    ensures SlotStart(day, i + 8) == SlotStart(day, i)
  {
    assert (i + 8) % 8 == i % 8;
  }

  /** Every slot starts between 10:00 and 20:30 of the target day. */
  lemma SlotWithinDay(day: int, i: nat)
    ensures day * DaySeconds + OpeningTime <= SlotStart(day, i) <= day * DaySeconds + OpeningTime + 7 * 5400
  {
  }

  /** After `observe` and `think` every case still has its assigned judge. */
  lemma {:induction false} PlannedCasesHaveJudges(all: seq<CaseRow>, duration: CaseRow -> int, priority: CaseRow -> int)
    ensures forall c :: c in Prioritized(Rescored(Observed(all), duration, priority)) ==> HasJudge(c)
  {
    var obs := Observed(all);
    var res := Rescored(obs, duration, priority);
    var srt := Prioritized(res);
    forall c | c in srt ensures HasJudge(c) {
      assert c in multiset(srt);
      assert c in multiset(res);
      var m :| 0 <= m < |res| && res[m] == c;
      assert obs[m] in obs;
    }
  }

  /**
   * When every case has an assigned judge, each assignment names that case's
   * own judge, so the random fallback is never used.
   */
  lemma DraftUsesAssignedJudges(cs: seq<CaseRow>, day: int, fallback: string)
    requires forall c :: c in cs ==> HasJudge(c)
    ensures forall i :: 0 <= i < |cs| ==> cs[i].assignedJudge == Some(Draft(cs, day, fallback)[i].judge)
  {
    forall i | 0 <= i < |cs| ensures cs[i].assignedJudge == Some(Draft(cs, day, fallback)[i].judge) {
      assert cs[i] in cs;
    }
  }

  /** For one day of at most eight cases, the draft slots of two cases never overlap. */
  lemma {:induction false} GridSlotsDisjoint(cs: seq<CaseRow>, day: int, fallback: string, i: nat, k: nat)
    requires i < k < |cs| <= 8
    requires cs[i].estimatedDuration <= 90 && cs[k].estimatedDuration <= 90
    ensures Draft(cs, day, fallback)[i].end <= Draft(cs, day, fallback)[k].start
  {
    assert i % 8 == i && k % 8 == k;
    var d := Draft(cs, day, fallback);
    assert d[k].start - d[i].start == 5400 * (k - i);
  }

  /**
   * At most eight cases with durations between 30 and 90 minutes never conflict:
   * the grid gives each its own ninety-minute slot.
   */
  lemma RoundOfEightFeasible(cs: seq<CaseRow>, day: int, fallback: string)
    requires |cs| <= 8
    requires forall c :: c in cs ==> 30 <= c.estimatedDuration <= 90
    ensures CS.Conflicts(Draft(cs, day, fallback)) == []
  {
    var d := Draft(cs, day, fallback);
    if CS.ClashPairs(d) != [] {
      var p := CS.ClashPairs(d)[0];
      assert p in CS.ClashPairs(d);
      CS.ClashPairsExactly(d, p.0, p.1);
      assert cs[p.0] in cs && cs[p.1] in cs;
      GridSlotsDisjoint(cs, day, fallback, p.0, p.1);
      assert false;
    }
    forall k | 0 <= k < |d| ensures d[k].end - d[k].start >= 1800 {
      assert cs[k] in cs;
    }
    CS.ShortIndicesNone(d, |d|);
    assert CS.Bookings(d, []) == [] && CS.Shorts(d, []) == [];
  }

  /**
   * The ninth case lands on the first case's slot: with the same judge and
   * positive durations the two are reported as a double booking, so the
   * draft is infeasible.
   */
  lemma NinthCaseCollides(cs: seq<CaseRow>, day: int, fallback: string)
    requires |cs| > 8
    requires cs[0].assignedJudge.Some? && cs[0].assignedJudge == cs[8].assignedJudge
    requires cs[0].estimatedDuration > 0 && cs[8].estimatedDuration > 0
    ensures (0, 8) in CS.ClashPairs(Draft(cs, day, fallback))
    ensures CS.Conflicts(Draft(cs, day, fallback)) != []
  {
    var d := Draft(cs, day, fallback);
    SlotGridWraps(day, 0);
    CS.ClashPairsExactly(d, 0, 8);
    CS.ShortEntriesExactly(d);
  }
}
