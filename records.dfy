/**
 * The records the client pages receive from the REST API, with only the
 * fields the pages read.  A field that may be missing or `null` is an `Option`.
 */
module Records {
  import opened Wrappers
  import opened Js

  /** One entry of a judge's `availability`, such as `{"day": "Monday", "start": "10:00"}`. */
  type AvailabilityEntry = map<string, string>

  datatype CaseRec = CaseRec(
    id: Key,
    caseNumber: string,
    caseType: string,
    description: Option<string>,
    filedIn: string,
    assignedJudge: Option<Key>,
    lawyers: Option<seq<Key>>)

  /** A Schedule: `case` is the case id; `case_number` is present when the API adds it. */
  datatype ScheduleRec = ScheduleRec(
    id: Key,
    caseId: Key,
    caseNumber: Option<string>,
    judge: Key,
    startTime: Option<string>,
    room: Option<string>)

  datatype JudgeRec = JudgeRec(id: Key, name: string, court: string, availability: Option<seq<AvailabilityEntry>>)

  datatype LawyerRec = LawyerRec(id: Key, name: string)

  const DefaultRoom: string := "Courtroom 1"
}
