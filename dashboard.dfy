/**
 * The Dashboard page: `fetchData` stores the three collections and the four
 * counters, and the page shows the first five schedules and the first five
 * cases without a judge.  The three requests are replaced by their combined
 * outcome, and "today" (`new Date().toISOString().split('T')[0]`) is given.
 */
module Dashboard {
  import opened Wrappers
  import opened Text
  import opened Js
  import opened Records
  import Seqs

  datatype Stats = Stats(totalCases: nat, totalJudges: nat, scheduledToday: nat, pendingCases: nat)

  /** `s.start_time?.startsWith(today)`: a schedule without a start time is not counted. */
  predicate ScheduledOn(s: ScheduleRec, today: string) {
    s.startTime.Some? && StartsWith(s.startTime.value, today)
  }

  function ScheduledOnDay(today: string): ScheduleRec -> bool {
    s => ScheduledOn(s, today)
  }

  /** `!c.assigned_judge`. */
  predicate Pending(c: CaseRec) {
    !Truthy(c.assignedJudge)
  }

  function IsPending(): CaseRec -> bool {
    c => Pending(c)
  }

  function IsAssigned(): CaseRec -> bool {
    c => !Pending(c)
  }

  /** The counters `fetchData` computes from the collections it received. */
  function StatsOf(schedules: seq<ScheduleRec>, cases: seq<CaseRec>, judges: seq<JudgeRec>, today: string): (r: Stats)
    ensures r.totalCases == |cases| && r.totalJudges == |judges|
    ensures r.scheduledToday <= |schedules|
    ensures schedules == [] ==> r.scheduledToday == 0
    ensures r.pendingCases <= r.totalCases
  {
    Stats(|cases|, |judges|, |Seqs.Filter(schedules, ScheduledOnDay(today))|, |Seqs.Filter(cases, IsPending())|)
  }

  /** Pending and assigned cases together are all the cases. */
  lemma PendingPlusAssigned(schedules: seq<ScheduleRec>, cases: seq<CaseRec>, judges: seq<JudgeRec>, today: string)
    ensures StatsOf(schedules, cases, judges, today).pendingCases + |Seqs.Filter(cases, IsAssigned())| == |cases|
  {
    Seqs.FilterSplitCount(cases, IsPending(), IsAssigned());
  }

  /**
   * A schedule that does not start today (one dated another day, or one
   * without `start_time`) never changes the count of today's hearings.
   */
  lemma NotTodayNotCounted(a: seq<ScheduleRec>, s: ScheduleRec, b: seq<ScheduleRec>, cases: seq<CaseRec>,
                           judges: seq<JudgeRec>, today: string)
    requires !ScheduledOn(s, today)
    ensures StatsOf(a + [s] + b, cases, judges, today).scheduledToday == StatsOf(a + b, cases, judges, today).scheduledToday
  {
    Seqs.FilterSkip(a, s, b, ScheduledOnDay(today));
  }

  /** A schedule that starts today adds one to the count. */
  lemma TodayCounted(a: seq<ScheduleRec>, s: ScheduleRec, cases: seq<CaseRec>, judges: seq<JudgeRec>, today: string)
    requires ScheduledOn(s, today)
    ensures StatsOf(a + [s], cases, judges, today).scheduledToday == StatsOf(a, cases, judges, today).scheduledToday + 1
  {
    Seqs.FilterAppend(a, [s], ScheduledOnDay(today));
    assert Seqs.Filter([s], ScheduledOnDay(today)) == [s] by {
      assert [s][1..] == [];
    }
  }

  /** `schedules.slice(0, 5)`. */
  function Recent(schedules: seq<ScheduleRec>): (r: seq<ScheduleRec>)
    ensures |r| == if |schedules| < 5 then |schedules| else 5
    ensures r == schedules[..|r|]
  {
    Seqs.Take(schedules, 5)
  }

  /** `cases.filter(c => !c.assigned_judge).slice(0, 5)`. */
  function PendingList(cases: seq<CaseRec>): seq<CaseRec> {
    Seqs.Take(Seqs.Filter(cases, IsPending()), 5)
  }

  /** The pending list holds the first (at most five) unassigned cases, in the order of the collection. */
  lemma PendingListIsFirstPending(cases: seq<CaseRec>)
    ensures var all := Seqs.Filter(cases, IsPending());
            && |PendingList(cases)| == (if |all| < 5 then |all| else 5)
            && PendingList(cases) == all[..|PendingList(cases)|]
            && Seqs.Subsequence(all, cases)
            && forall k :: 0 <= k < |PendingList(cases)| ==> Pending(PendingList(cases)[k])
  {
    Seqs.FilterIsSubsequence(cases, IsPending());
  }

  /** The heading of a schedule: `schedule.case_number || \`Case #${schedule.case}\``. */
  function ScheduleLabel(s: ScheduleRec): (r: string)
    ensures r != ""
    ensures r == s.caseNumber.GetOr("") || r == "Case #" + StringOf(s.caseId)
    ensures TruthyText(s.caseNumber) <==> r == s.caseNumber.GetOr("")
  {
    OrElse(s.caseNumber, "Case #" + StringOf(s.caseId))
  }

  /** `schedule.room || 'Courtroom 1'`. */
  function RoomLabel(room: Option<string>): (r: string)
    ensures r != ""
    ensures TruthyText(room) ==> r == room.value
    ensures !TruthyText(room) ==> r == DefaultRoom
  {
    OrElse(room, DefaultRoom)
  }

  /** The page's state. */
  class DashboardView {
    var schedules: seq<ScheduleRec>
    var cases: seq<CaseRec>
    var judges: seq<JudgeRec>
    var stats: Stats
    var loading: bool

    constructor()
      ensures schedules == [] && cases == [] && judges == []
      ensures stats == Stats(0, 0, 0, 0) && loading
    {
      schedules, cases, judges := [], [], [];
      stats := Stats(0, 0, 0, 0);
      loading := true;
    }

    /**
     * `fetchData`; `reply` holds the three collections, `None` when a request
     * failed.  On success everything is replaced and the counters describe the
     * new collections; on failure nothing changes.  Loading ends either way.
     */
    method FetchData(reply: Option<(seq<ScheduleRec>, seq<CaseRec>, seq<JudgeRec>)>, today: string)
      modifies this
      ensures !loading
      ensures reply.Some? ==> schedules == reply.value.0 && cases == reply.value.1 && judges == reply.value.2
      ensures reply.Some? ==> stats == StatsOf(schedules, cases, judges, today)
      ensures reply.None? ==>
                schedules == old(schedules) && cases == old(cases) && judges == old(judges) && stats == old(stats)
    {
      loading := true;
      if reply.Some? {
        var (s, c, j) := reply.value;
        schedules := s;
        cases := c;
        judges := j;
        var scheduledToday := |Seqs.Filter(s, ScheduledOnDay(today))|;
        stats := Stats(|c|, |j|, scheduledToday, |Seqs.Filter(c, IsPending())|);
      }
      loading := false;
    }
  }
}
