# Nya-alaya court scheduling: a Dafny model of its core

Nya-alaya schedules court hearings. A Django backend holds cases, judges,
lawyers and schedules. Its tools check a draft schedule for conflicts, read
a judge's weekly availability and estimate a case's urgency and hearing
length. A rule-based planner agent turns the cases into a day's schedule. A
React client shows the collections. It counts and joins them in the browser,
and it keeps the signed-in session and the CSRF token.

This project models that core in Dafny and proves what the code promises.

- **Imperative code keeps its form.** The planner and the pages are classes.
  Their fields are what the source updates, and each handler is a method
  whose `ensures` gives the whole new state. The source's loops are `while`
  loops, proved against specification functions: the conflict checker, the
  planner stages, the rule-based pass, the availability loop, the cookie scan
  and the lawyer counts.
- **Pure code is functions and lemmas.** This covers the filters, the lookups,
  the clamps and the payload.
- **Times are integers.** A date is a day number counted from 1970-01-01, a
  Thursday. A date and time is seconds on that clock. Clock times are minutes
  after midnight.
- **Urgencies are exact.** In the heuristics they are integer hundredths,
  because every constant has at most two decimals. In the JSON of a model
  reply they are `real`.
- **Identifiers.** A record id is a JSON number or a string (`Js.Key`). That
  matters because the Lawyers page compares ids with `===` in one place and
  after `String(...)` in another.
- **Foreign code becomes parameters.** The duration and priority models,
  `json.loads`, `float`/`int` on strings, `decodeURIComponent` and
  `new Date(...)` are function parameters. The backend's answers are handed
  to the methods as values. The clock ("today") and the page location are
  parameters too.

Modules:
- `Wrappers`, `Text`, `Seqs`, `Sorting`, `Clock`, `Js` and `Records` are shared
  helpers: strings, order-preserving filters, a stable descending sort, the
  calendar, JavaScript values and the client's records.
- `ConstraintSolver`, `Planner`, `CaseAnalyzer` and `CalendarUtils` model the
  Python tools.
- `AuthContext`, `Dashboard`, `Lawyers`, `Judges`, `Cases` and `Login` model
  the client.

Some behaviour of the code worth knowing:
- a judge's schedules keep the collection's order (`frontend/src/pages/Judges.jsx:103-105`);
- `logout` clears the user only when its POST succeeds (`frontend/src/context/AuthContext.jsx:102-109`);
- `register` sends three fields, although the sign-in page passes five (`frontend/src/context/AuthContext.jsx:89-100`).

## Model

| member | source | states |
|---|---|---|
| ConstraintSolver.CheckConflicts | scheduler/tools/constraint_solver.py:1-15 | the nested pair loop, then the duration loop, return exactly `Conflicts(a)`; `feasible` holds iff that list is empty |
| ConstraintSolver.ClashPairsExactly | scheduler/tools/constraint_solver.py:3-8 | pair (i, k) is reported iff i < k, the judges are equal and `a.start < b.end && b.start < a.end` |
| ConstraintSolver.PairsBeforeExactly | scheduler/tools/constraint_solver.py:3-8 | after the first n rows of the outer loop, (i, k) has been reported iff i < n, i < k and the two clash |
| ConstraintSolver.RowPairsExactly | scheduler/tools/constraint_solver.py:4-8 | within row i, up to column j, (i, k) is reported iff i < k < j and the two clash |
| ConstraintSolver.TouchingOrApartNotReported | scheduler/tools/constraint_solver.py:6-7 | hearings that only touch, or that have different judges, are never reported as a pair |
| ConstraintSolver.NoClashWhenTouchingOrApart | scheduler/tools/constraint_solver.py:6-7 | the clash test is false both ways for touching intervals or different judges |
| ConstraintSolver.ShortEntriesExactly | scheduler/tools/constraint_solver.py:10-12 | one "too short" entry per assignment lasting under 1800 s, in assignment order, naming that assignment |
| ConstraintSolver.ShortIndicesExactly | scheduler/tools/constraint_solver.py:10-12 | index k is among the short ones found by step j iff k < j and end − start < 1800 |
| ConstraintSolver.ShortIndicesIncreasing | scheduler/tools/constraint_solver.py:10 | the short indices are strictly increasing, so they follow the list order |
| ConstraintSolver.BookingsFirst | scheduler/tools/constraint_solver.py:3-12 | every double-booking entry comes before every duration entry |
| ConstraintSolver.ClashPairsOrdered | scheduler/tools/constraint_solver.py:3-4 | the reported pairs are in strictly increasing lexicographic (i, j) order |
| ConstraintSolver.PairsBeforeSorted | scheduler/tools/constraint_solver.py:3-4 | the pairs of the first n rows are in lexicographic order |
| ConstraintSolver.RowPairsSorted | scheduler/tools/constraint_solver.py:4 | the pairs of one row are in increasing column order |
| ConstraintSolver.ClashPairsBound | scheduler/tools/constraint_solver.py:3-8 | at most n(n−1)/2 double-booking entries for n assignments |
| ConstraintSolver.PairsBeforeCount | scheduler/tools/constraint_solver.py:3-8 | the first n rows report no more pairs than there are index pairs in them |
| ConstraintSolver.RowPairsCount | scheduler/tools/constraint_solver.py:4-8 | row i up to column j reports at most j − i − 1 pairs |
| ConstraintSolver.PairSlotsClosed | scheduler/tools/constraint_solver.py:3-4 | the loops visit n(2w − n − 1)/2 index pairs in their first n rows |
| ConstraintSolver.ShortIndicesNone | scheduler/tools/constraint_solver.py:10-12 | when no assignment is shorter than 1800 s, no duration entry is produced |
| ConstraintSolver.SmallDraftFeasible | scheduler/tools/constraint_solver.py:3-15 | an empty list, or one hearing of at least thirty minutes, has no conflicts |
| ConstraintSolver.OverlappingHourSlots | scheduler/management/commands/test_tools.py:22-27 | two sixty-minute hearings of one judge starting thirty minutes apart give exactly one double-booking message |
| ConstraintSolver.MessageKinds | scheduler/tools/constraint_solver.py:8-12 | a message starts with "Judge " iff it is a double booking and with "Case " iff it is a short hearing |
| ConstraintSolver.BookingsSnoc | scheduler/tools/constraint_solver.py:7-8 | appending the pair (i, j) appends the message of that double booking |
| ConstraintSolver.ShortsSnoc | scheduler/tools/constraint_solver.py:11-12 | appending index k appends the "too short" message of assignment k |
| ConstraintSolver.RowPairsStep | scheduler/tools/constraint_solver.py:4-8 | one more column adds the pair (i, j) exactly when the two clash |
| Planner.PlannerAgent.constructor | scheduler/agent/planner_agent.py:10-11 | `target_day` is the given day, else the day after today |
| Planner.PlannerAgent.Observe | scheduler/agent/planner_agent.py:13-14 | the cases become the cases with an assigned judge, in table order; nothing else changes |
| Planner.PlannerAgent.Think | scheduler/agent/planner_agent.py:20-25 | every case is rescored (duration first, then priority of the updated case), then sorted by priority |
| Planner.ThinkSortsAndPermutes | scheduler/agent/planner_agent.py:21-25 | after `think` the cases are a permutation of the rescored cases, with priorities non-increasing |
| Planner.ThinkKeepsTies | scheduler/agent/planner_agent.py:25 | cases of equal priority keep their observed order |
| Planner.PlannerAgent.Propose | scheduler/agent/planner_agent.py:28-44 | the draft, which is also the return value, is `Draft(cases, targetDay, fallback)` |
| Planner.DraftLayout | scheduler/agent/planner_agent.py:30-41 | the i-th assignment is the i-th case, starts at 10:00 on the target day plus 90·(i mod 8) minutes and lasts its estimated duration |
| Planner.Draft | scheduler/agent/planner_agent.py:32-42 | exactly one assignment per case |
| Planner.SlotGridWraps | scheduler/agent/planner_agent.py:34 | slot i and slot i + 8 start at the same time |
| Planner.SlotWithinDay | scheduler/agent/planner_agent.py:30-34 | every slot starts between 10:00 and 20:30 of the target day |
| Planner.PlannedCasesHaveJudges | scheduler/agent/planner_agent.py:14-25 | every case left after `observe` and `think` has an assigned judge |
| Planner.DraftUsesAssignedJudges | scheduler/agent/planner_agent.py:33 | when every case has a judge, each assignment names that case's own judge, so the random choice is never used |
| Planner.PlannerAgent.Verify | scheduler/agent/planner_agent.py:46-53 | `conflicts` is the checker's list for the draft, and `feasible` holds iff it is empty |
| Planner.PlannerAgent.Act | scheduler/agent/planner_agent.py:55-71 | an infeasible draft leaves the Schedule table as it was and raises nothing; a feasible one empties the table and writes the rows of the draft up to the first entry whose case or judge lookup fails, raising exactly when there is such an entry |
| Planner.Resolved | scheduler/agent/planner_agent.py:60-62 | the leading entries `act` gets through: all of them resolve, and the next one, if any, does not |
| Planner.AllResolvedWritesDraft | scheduler/agent/planner_agent.py:59-70 | when every lookup finds its one row, the whole draft is written |
| Planner.RowsLayout | scheduler/agent/planner_agent.py:60-70 | one row per draft entry, with its case, judge and span, room "Courtroom 1" and version 1 |
| Planner.PlannerAgent.Run | scheduler/agent/planner_agent.py:73-80 | the stages run in order; the final state, the rows written and whether `act` raised are stated in terms of the input cases |
| Planner.ScheduleTable.constructor | scheduler/agent/planner_agent.py:59 | the table starts with the given rows |
| Planner.GridSlotsDisjoint | scheduler/agent/planner_agent.py:34-35 | among at most eight cases of at most ninety minutes, an earlier slot ends before a later one starts |
| Planner.RoundOfEightFeasible | scheduler/agent/planner_agent.py:32-53 | at most eight cases lasting 30 to 90 minutes always give a feasible draft |
| Planner.NinthCaseCollides | scheduler/agent/planner_agent.py:34 | the ninth case shares the first case's slot, so with the same judge the draft is infeasible |
| Sorting.SortDesc | scheduler/agent/planner_agent.py:25 | the sort keeps the length and the multiset of elements, and orders keys non-increasingly |
| Sorting.SortDescStable | scheduler/agent/planner_agent.py:25 | for each key value, the elements with that key keep their input order |
| CaseAnalyzer.AnalyzeRuleBased | case_analyzer.py:120-235 | the imperative analysis computes exactly `RuleBased(caseType, description)` |
| CaseAnalyzer.KeywordPasses | case_analyzer.py:142-218 | the passes over a described case give its `DescribedModifiers` |
| CaseAnalyzer.CriticalPass | case_analyzer.py:153-155 | the critical-keyword loop leaves the largest boost found, starting from 0 |
| CaseAnalyzer.BoostIsMaxOfMatched | case_analyzer.py:153-155 | the urgency modifier is at least every matched boost, and is 0 or one matched boost |
| CaseAnalyzer.Boost | case_analyzer.py:139-155 | the urgency modifier is never negative |
| CaseAnalyzer.UrgencyNeverBelowBase | case_analyzer.py:139-221 | the final urgency is never below the type's base, even when a special case has a negative modifier |
| CaseAnalyzer.UnknownTypeBase | case_analyzer.py:124-136 | an unknown case type gets the base urgency 0.5 and sixty minutes |
| CaseAnalyzer.NoDescriptionGivesBase | case_analyzer.py:138-142 | without a description the result is the type's base values, "medium", and the plain reasoning text |
| CaseAnalyzer.CountIn | case_analyzer.py:169-170 | an indicator count never exceeds the number of indicators |
| CaseAnalyzer.ComplexityFollowsIndicators | case_analyzer.py:169-180 | with no special term: high iff ≥ 2 complex indicators, low iff none and ≥ 1 simple one; the duration change follows the 45/20/−15 table |
| CaseAnalyzer.WitnessMinutes | case_analyzer.py:184-190 | the witness adjustment lies between 0 and 60 minutes |
| CaseAnalyzer.WitnessPhraseMinutes | case_analyzer.py:184-190 | a text starting "N witness" adds min(10·N, 60) minutes |
| CaseAnalyzer.WitnessPhrase | case_analyzer.py:187-189 | the regular expression reads N from a text starting "N witness" |
| CaseAnalyzer.WitnessAtDigits | case_analyzer.py:187 | a digit run, one space and "witness" at the start match with the run's value |
| CaseAnalyzer.WitnessAtIntro | case_analyzer.py:187 | a maximal digit run followed by whitespace and "witness" is a match, worth the run's value |
| CaseAnalyzer.WitnessMinutesOf | case_analyzer.py:184-190 | when "witness" occurs and the first match reads n, the adjustment is min(10·n, 60) |
| CaseAnalyzer.WitnessWordIn | case_analyzer.py:184 | a text containing "N witness" contains "witness" |
| CaseAnalyzer.TimePass | case_analyzer.py:198-200 | the duration keywords add the change of every keyword found |
| CaseAnalyzer.SpecialPass | case_analyzer.py:213-218 | the special-case loop applies the first term found and stops there |
| CaseAnalyzer.FirstSpecialWins | case_analyzer.py:213-218 | the first special term found sets the complexity, adds its duration change once and takes the max of the urgencies |
| CaseAnalyzer.SpecialFromAt | case_analyzer.py:213-218 | the search from row k finds row i when i is the first matching row from k on |
| CaseAnalyzer.SpecialFromNone | case_analyzer.py:213-214 | the search finds nothing iff no later term occurs |
| CaseAnalyzer.Finalize | case_analyzer.py:221-235 | the final urgency lies in [0, 1], the duration in [30, 240], and the complexity is low, medium or high |
| CaseAnalyzer.Clamp | case_analyzer.py:221-222 | the clamp lies in the bounds, is the identity inside them and the nearer bound outside |
| CaseAnalyzer.Normalize | case_analyzer.py:98-117 | what `_normalize_json` returns: a result iff the cleaned text parses to an object whose urgency and duration convert, and then `Normalized` of that object |
| CaseAnalyzer.NormalizeJson | case_analyzer.py:98-117 | the imperative function computes exactly `Normalize`: it succeeds iff the cleaned text parses to an object whose urgency and duration convert, and the result is `Normalized` of that object |
| CaseAnalyzer.Normalized | case_analyzer.py:111-116 | urgency clamped to [0, 1], duration clamped to [30, 300], complexity and reasoning defaulted when absent, every other key unchanged |
| CaseAnalyzer.CleanReply | case_analyzer.py:99-108 | the text handed to `json.loads` is the fence-stripped reply cut to its object slice |
| CaseAnalyzer.ObjectSlice | case_analyzer.py:106-108 | when a '{' precedes a '}', the text is cut from the first '{' to the last '}'; otherwise it is unchanged |
| CaseAnalyzer.FencedReply | case_analyzer.py:100-103 | a reply fenced as a json code block is unwrapped to its trimmed body |
| CaseAnalyzer.ClampReal | case_analyzer.py:111 | the real clamp lies in the bounds and is the identity inside them |
| CaseAnalyzer.Truncate | case_analyzer.py:112 | `int()` of a float truncates toward zero |
| CaseAnalyzer.AnalyzeWithAI | case_analyzer.py:19-95 | a blank description, a missing reply or a reply that `_normalize_json` rejects gives the heuristic result; otherwise the result is the normalised reply |
| CaseAnalyzer.BlankIff | case_analyzer.py:25 | a given description is blank iff every character is whitespace |
| CalendarUtils.GetAvailableSlots | scheduler/tools/calendar_utils.py:3-18 | the loop returns exactly `AvailableSlots(entity, day)`, including the first error raised |
| CalendarUtils.SlotsOfEntries | scheduler/tools/calendar_utils.py:9-16 | on success: one pair per entry of that weekday, in order, each the parsed start and end on that day |
| CalendarUtils.OtherDaysIgnored | scheduler/tools/calendar_utils.py:10 | an entry for another weekday can be removed without changing the result |
| CalendarUtils.NoAvailabilityNoSlots | scheduler/tools/calendar_utils.py:10 | an entity without `availability` has no slots, whatever else it has |
| CalendarUtils.FormattedShape | scheduler/tools/calendar_utils.py:12-16 | on success the output has one pair per entry, each that entry's pair |
| CalendarUtils.PairOnDay | scheduler/tools/calendar_utils.py:14-15 | a pair reads `start` then `end`, both parse, and both fall within the given day |
| CalendarUtils.FailureSticks | scheduler/tools/calendar_utils.py:13-15 | once an entry raises, later entries do not change the outcome |
| CalendarUtils.FormattedStep | scheduler/tools/calendar_utils.py:13-16 | one more entry appends its pair or raises its error |
| CalendarUtils.ParseClock | scheduler/tools/calendar_utils.py:14 | a parsed time of day is less than 24 hours |
| CalendarUtils.ParseFields | scheduler/tools/calendar_utils.py:14 | an `H:M` text with 1–2 digit fields, H ≤ 23 and M ≤ 59, parses to H·60 + M |
| CalendarUtils.ClockRoundTrip | scheduler/tools/calendar_utils.py:14 | every time of day written as "HH:MM" parses back to itself |
| CalendarUtils.Pad2 | scheduler/tools/calendar_utils.py:14 | a two-digit rendering is a valid clock field with the same value |
| CalendarUtils.ClockRejectsRange | scheduler/tools/calendar_utils.py:14 | "24:00" and "10:60" are rejected |
| CalendarUtils.ClockRejectsShape | scheduler/tools/calendar_utils.py:14 | "10:00:00" and "1000" are rejected |
| Clock.Weekday | scheduler/tools/calendar_utils.py:9 | the weekday index is below 7 |
| Clock.WeekdayNamePeriodic | scheduler/tools/calendar_utils.py:9 | a day's weekday name repeats every 7 days, and only then |
| AuthContext.GetCookie | frontend/src/context/AuthContext.jsx:16-29 | the loop with `break` returns exactly `CookieValue(cookies, name, decode)` |
| AuthContext.CookieFound | frontend/src/context/AuthContext.jsx:19-25 | the first trimmed piece starting with `name=` gives the decoded rest of that piece |
| AuthContext.CookieAbsent | frontend/src/context/AuthContext.jsx:19-28 | the lookup is null iff no trimmed piece starts with `name=` |
| AuthContext.LongerNameSkipped | frontend/src/context/AuthContext.jsx:22 | a cookie whose name extends `name` is skipped and the later exact one is found |
| AuthContext.LongerNameDoesNotMatch | frontend/src/context/AuthContext.jsx:22 | `name` followed by more characters and '=' does not start with `name=` |
| AuthContext.PrefixTest | frontend/src/context/AuthContext.jsx:22 | the `substring` comparison is exactly the prefix test for `name=` |
| AuthContext.FirstCookieStep | frontend/src/context/AuthContext.jsx:20-25 | one step of the scan: a match returns the decoded value, otherwise the scan goes on |
| AuthContext.Intercepted | frontend/src/context/AuthContext.jsx:32-37 | a truthy token sets `X-CSRFToken` to it and no other header changes; otherwise the headers are unchanged |
| AuthContext.CsrfHeaderIff | frontend/src/context/AuthContext.jsx:32-37 | a request gets the header iff the `csrftoken` lookup is truthy |
| AuthContext.ApiUrl | frontend/src/context/AuthContext.jsx:52-54 | the local backend for localhost or 127.0.0.1, `/api` otherwise |
| AuthContext.RefusalMessage | frontend/src/context/AuthContext.jsx:84 | the backend's error when truthy, else the default, and never empty |
| AuthContext.AuthSession.constructor | frontend/src/context/AuthContext.jsx:52-58 | no user, loading, and nothing rendered until `checkAuth` ends |
| AuthContext.AuthSession.CheckAuth | frontend/src/context/AuthContext.jsx:60-74 | the user is `data.user` when authenticated, else null (also on error); loading ends and children render |
| AuthContext.AuthSession.Login | frontend/src/context/AuthContext.jsx:76-87 | success sets the user; failure leaves it and reports the backend error or "Login failed" |
| AuthContext.AuthSession.Register | frontend/src/context/AuthContext.jsx:89-100 | the same for registration, with "Registration failed" |
| AuthContext.AuthSession.Logout | frontend/src/context/AuthContext.jsx:102-109 | the user is cleared only when the POST succeeded |
| Dashboard.DashboardView.FetchData | frontend/src/pages/Dashboard.jsx:37-67 | on success the collections and `StatsOf` of them are stored; on failure they are unchanged; loading ends either way |
| Dashboard.DashboardView.constructor | frontend/src/pages/Dashboard.jsx:17-26 | empty collections, zero counters, loading |
| Dashboard.StatsOf | frontend/src/pages/Dashboard.jsx:51-61 | totals are the lengths; scheduled-today is at most the schedules and 0 without schedules; pending is at most the cases |
| Dashboard.PendingPlusAssigned | frontend/src/pages/Dashboard.jsx:60 | pending and assigned cases together are all the cases |
| Dashboard.NotTodayNotCounted | frontend/src/pages/Dashboard.jsx:52-54 | a schedule not starting with today's date (another day, or no `start_time`) never changes the scheduled-today count |
| Dashboard.TodayCounted | frontend/src/pages/Dashboard.jsx:52-54 | a schedule starting with today's date adds one to the count |
| Dashboard.Recent | frontend/src/pages/Dashboard.jsx:219 | the recent list is the first min(5, n) schedules |
| Dashboard.PendingListIsFirstPending | frontend/src/pages/Dashboard.jsx:279 | the pending list is the first five or fewer unassigned cases, in order |
| Dashboard.ScheduleLabel | frontend/src/pages/Dashboard.jsx:230 | the case number when truthy, else `Case #<case>`, never empty |
| Dashboard.RoomLabel | frontend/src/pages/Dashboard.jsx:243 | the room when truthy, else "Courtroom 1" |
| Lawyers.LawyersPage.FetchLawyers | frontend/src/pages/Lawyers.jsx:47-68 | the `forEach` loop builds exactly `CountsOf(lawyers, cases)`; a failure changes nothing; loading ends |
| Lawyers.LawyersPage.constructor | frontend/src/pages/Lawyers.jsx:8-16 | empty lists and counts, loading, no selection |
| Lawyers.CountsExact | frontend/src/pages/Lawyers.jsx:56-61 | with distinct ids, each lawyer is shown the number of cases that list it under `===` |
| Lawyers.CountsKeys | frontend/src/pages/Lawyers.jsx:57-58 | the counts object has one key per `String(lawyer.id)` and no other |
| Lawyers.UnlistedCaseIgnored | frontend/src/pages/Lawyers.jsx:58-59 | a case without a `lawyers` list counts for nobody |
| Lawyers.CaseCount | frontend/src/pages/Lawyers.jsx:58-60 | a count never exceeds the number of cases |
| Lawyers.LawyersPage.BeginViewSchedule | frontend/src/pages/Lawyers.jsx:74-77 | selects the lawyer, opens the window and starts loading |
| Lawyers.LawyersPage.FinishViewSchedule | frontend/src/pages/Lawyers.jsx:79-93 | the list is the lawyer's matching cases (or empty on error), and loading ends |
| Lawyers.AssignedCases | frontend/src/pages/Lawyers.jsx:83-85 | the list holds the string-matched cases, latest filing first |
| Lawyers.ListedIff | frontend/src/pages/Lawyers.jsx:83-84 | a case is listed iff one of its lawyer ids prints as the lawyer's id |
| Lawyers.LooselyIff | frontend/src/pages/Lawyers.jsx:84 | the `map(String).includes(String(id))` test holds iff some id prints the same |
| Lawyers.CountWithinList | frontend/src/pages/Lawyers.jsx:58-85 | a lawyer's count never exceeds the length of the lawyer's list |
| Lawyers.NumberAndStringIds | frontend/src/pages/Lawyers.jsx:59-84 | the id 7 is counted for lawyer 7 and not for "7", but listed for both |
| Lawyers.FilteredLawyersSpec | frontend/src/pages/Lawyers.jsx:70-72 | the order-preserving sublist whose lower-cased name contains the term; an empty term keeps all |
| Js.StringOfAgrees | frontend/src/pages/Lawyers.jsx:84 | `String(a) === String(b)` agrees with `===` on two numbers or two strings, and otherwise differs exactly when one prints as the other |
| Js.SevenAndStringSeven | frontend/src/pages/Lawyers.jsx:59-84 | 7 and "7" differ under `===` and agree after `String` |
| Judges.JudgeSchedulesSpec | frontend/src/pages/Judges.jsx:103-105 | exactly the schedules with `judge === id`, in collection order |
| Judges.JudgeSchedulesUnsorted | frontend/src/pages/Judges.jsx:103-105 | when every schedule is the judge's, the list is the collection unchanged, so it is not sorted |
| Judges.CaseByIdSpec | frontend/src/pages/Judges.jsx:107-109 | the first case with that id is found |
| Judges.CaseByIdNone | frontend/src/pages/Judges.jsx:107-109 | nothing is found iff no case has that id |
| Judges.CardOf | frontend/src/pages/Judges.jsx:424-486 | heading is the case number, else `Case #<case>`; badge iff the case is known; room else "Courtroom 1" |
| Judges.CardsForEverySchedule | frontend/src/pages/Judges.jsx:424-451 | one card per schedule of the judge, in order, even when its case is missing |
| Judges.FilteredJudgesSpec | frontend/src/pages/Judges.jsx:116-120 | the order-preserving sublist whose name or court contains the term ignoring case; an empty term keeps all |
| Judges.JudgesPage.constructor | frontend/src/pages/Judges.jsx:16-32 | empty collections, loading, closed windows, empty form |
| Judges.JudgesPage.FetchData | frontend/src/pages/Judges.jsx:38-54 | the three collections on success, unchanged on failure; loading ends |
| Judges.JudgesPage.HandleSubmit | frontend/src/pages/Judges.jsx:56-71 | update of the selected judge, else create, with the form; a save closes the form and resets it |
| Judges.JudgesPage.HandleEdit | frontend/src/pages/Judges.jsx:84-92 | selects the judge and copies name and court, with availability defaulting to [] |
| Judges.JudgesPage.ResetForm | frontend/src/pages/Judges.jsx:94-101 | no selection and an empty form |
| Judges.JudgesPage.ViewJudgeSchedule | frontend/src/pages/Judges.jsx:111-114 | selects the judge and opens the schedule window |
| Cases.FilteredCasesSpec | frontend/src/pages/Cases.jsx:137-144 | a case is kept iff its number contains the term ignoring case and the type filter is "all" or its type; order is kept; "" with "all" keeps every case |
| Cases.DataToSend | frontend/src/pages/Cases.jsx:78-83 | type and filing date as entered; number and description are the entered text with only its surrounding whitespace removed, so they have no whitespace at either end |
| Cases.DataToSendIdempotent | frontend/src/pages/Cases.jsx:78-83 | building the payload again from a payload changes nothing |
| Cases.CasesPage.HandleSubmit | frontend/src/pages/Cases.jsx:75-103 | update of the selected case, else create, with the payload; a save closes and resets the form and refreshes the cases; `isAnalyzing` ends false |
| Cases.CasesPage.FetchCases | frontend/src/pages/Cases.jsx:45-55 | the cases on success, unchanged on failure; loading ends |
| Cases.CasesPage.HandleEdit | frontend/src/pages/Cases.jsx:116-125 | selects the case and copies its fields, a missing description becoming "" |
| Cases.CasesPage.ResetForm | frontend/src/pages/Cases.jsx:127-135 | no selection, case type "civil", other fields empty |
| Cases.CasesPage.constructor | frontend/src/pages/Cases.jsx:23-37 | no cases, loading, closed form, the blank form |
| Cases.AssignedJudgeLabel | frontend/src/pages/Cases.jsx:255-258 | shown iff `assigned_judge` is truthy, and never empty |
| Cases.JudgeLabelNamesFirstMatch | frontend/src/pages/Cases.jsx:258 | the label is the first matching judge's name, or "Judge assigned" when that name is empty |
| Cases.JudgeLabelPlaceholder | frontend/src/pages/Cases.jsx:258 | without a judge of that id the label is "Judge assigned" |
| Login.RedirectTarget | frontend/src/pages/Login.jsx:24 | `location.state.from.pathname` when truthy, else "/dashboard" |
| Login.CallOf | frontend/src/pages/Login.jsx:41-45 | sign-in sends username and password; registration sends all five fields |
| Login.SignInIgnoresRegistrationFields | frontend/src/pages/Login.jsx:41-42 | editing email, city or phone does not change what sign-in sends |
| Login.RegistrationCarriesEdit | frontend/src/pages/Login.jsx:26-45 | a field edit reaches the registration call unchanged |
| Login.LoginPage.constructor | frontend/src/pages/Login.jsx:9-24 | sign-in mode, the initial form with city "Delhi", no error, not loading |
| Login.LoginPage.HandleChange | frontend/src/pages/Login.jsx:26-32 | only the named field changes, and the error clears |
| Login.LoginPage.BeginSubmit | frontend/src/pages/Login.jsx:34-45 | loading starts, the error clears, and the call for the current mode goes out |
| Login.LoginPage.FinishSubmit | frontend/src/pages/Login.jsx:47-56 | success navigates to the target (with replace); a refusal shows its error; a throw shows "An unexpected error occurred"; loading ends |
| Login.LoginPage.Toggle | frontend/src/pages/Login.jsx:175 | flips between signing in and registering, nothing else |

## Left out

- The language-model call in `analyze_case_with_ai` (Ollama, the SIGALRM timeout) is foreign I/O. Its outcome is the `reply` parameter of `CaseAnalyzer.AnalyzeWithAI`.
- `calculate_ai_priority`, the priority model, the duration model and the policy retriever are float computations over the clock, randomness and embeddings. The planner takes `duration` and `priority` as given functions.
- `scheduler/agent/planner_agent_v2.py`, `run_hybrid.py`, the SMS tool, the Django views, URLs, serializers and management commands are foreign engines and wiring.
- Planner.PlannerAgent.Think: `c.save()` is a database write and is not modelled.
- Planner.PlannerAgent.Act: the database lookups `Case.objects.get` and `Judge.objects.get` are the `resolves` parameter. It says whether both find exactly one row. Judge names are not unique, so a repeated name makes the lookup raise after the table was emptied. The model keeps the rows written before that entry and reports the raise. Which exception is raised is not modelled. A row stores the case number and the judge name instead of foreign keys.
- Planner.PlannerAgent.Propose: `random.choice(self.judges)` is the `fallback` parameter. `Planner.DraftUsesAssignedJudges` shows it is never reached after `observe`.
- Planner.PlannerAgent.constructor: `feasible` and `conflicts` start as false and empty. The source leaves them unset until `verify`.
- The planner's progress messages (`print`) are left out.
- Text.Lower: lower-cases ASCII letters only. Python's and JavaScript's Unicode case mapping is not modelled.
- CaseAnalyzer.WitnessMinutes: `\d` in the witness pattern is modelled as the ASCII digits 0-9. Python's `re` and `int()` also accept other Unicode decimal digits, so a count such as "३ witnesses" adds 30 minutes in the source and nothing in the model.
- CalendarUtils.ParseClock: `strptime("%H:%M")` is modelled as one or two ASCII digits per field, a single ':', hour ≤ 23 and minute ≤ 59. Non-ASCII digits and whitespace handling are not.
- CaseAnalyzer.NormalizeJson: `json.loads`, `float(str)` and `int(str)` are parameters. Floats are reals, so rounding, NaN and infinities are not modelled. A parse error, or a JSON value that is not an object, is the `None` result.
- CaseAnalyzer.AnalyzeRuleBased: `round(final_urgency, 2)` is the identity on hundredths. Only the integer form of the urgency is returned.
- AuthContext.GetCookie: `decodeURIComponent` is the total function `decode`. Its URIError is not modelled. `document.cookie` is the `cookies` parameter.
- AuthContext.AuthSession.Register: sends three fields, as the code does. The city and phone number that the sign-in page passes are dropped.
- In the client, `null` and `undefined` are one value (`None`).
- The 30-second `setInterval` refresh and the `Promise.all` concurrency of the pages are timers and concurrency. Each fetch is one method call with the combined outcome.
- Judges.JudgesPage.HandleSubmit: the `fetchData()` after a save is not awaited in the source. It is a separate `FetchData` call in the model.
- Locale date formatting (`toLocaleString`, `formatDate`) and the presentational components are rendering only.
- `frontend/src/services/api.js` wraps HTTP calls; the backend's answers are method parameters. The client's delete and lawyer-registration handlers only call it and refresh.
- A judge's `availability` entries are maps from strings to strings. Other JSON values in them are not modelled.
- Lawyers.CountsExact: holds only for lawyers whose ids are distinct after `String(...)`. With a repeated key, `CountsOf` models the overwrite of the later lawyer.
- Lawyers.AssignedCases: the order is stated as non-increasing `dateValue` plus the multiset of the kept cases. `new Date` is the `dateValue` parameter, and an invalid date (NaN) is not modelled.
