/**
 * The task request schemas (server/src/app/task/task.validator.ts): the body
 * of a create or an update, and the body of a progress entry.
 */
module TaskValidator {
  import opened Domain
  import opened Schema

  const NameMessage := "Title must be at least 3 characters"
  const CategoryMessage := "Category must be at least 2 characters"
  const DescriptionMessage := "Description must be at least 10 characters"
  const CurrencyMessage := "Currency must be a 3-letter code"
  const HoursSpentMessage := "Hours spent must be positive"

  /** A task body as it arrives: the start date, hours and rate are still strings. */
  datatype TaskBody = TaskBody(
    name: string,
    category: string,
    description: string,
    expectedStartDate: string,
    expectedHours: string,
    hourlyRate: string,
    currency: string)

  /** `taskSchema`: the body's messages in key order (`.length(3)` on the currency). */
  function TaskIssues(t: TaskBody): (r: seq<string>)
    ensures r == [] <==> |t.name| >= 3 && |t.category| >= 2 && |t.description| >= 10 && |t.currency| == 3
    ensures |t.name| < 3 ==> r[0] == NameMessage
    ensures |r| <= 4
  {
    MinLength(t.name, 3, NameMessage)
    + MinLength(t.category, 2, CategoryMessage)
    + MinLength(t.description, 10, DescriptionMessage)
    + Check(|t.currency| == 3, CurrencyMessage)
  }

  /** The date, hours and rate fields take any string: changing them never changes the verdict. */
  lemma FreeFieldsUnchecked(t: TaskBody, startDate: string, hours: string, rate: string)
    ensures TaskIssues(t.(expectedStartDate := startDate, expectedHours := hours, hourlyRate := rate)) == TaskIssues(t)
  {
  }

  /** `updateTaskSchema` is the same schema object as `taskSchema`. */
  function UpdateTaskIssues(t: TaskBody): (r: seq<string>)
    ensures r == TaskIssues(t)
  {
    TaskIssues(t)
  }

  /** `taskProgressSchema` */
  function ProgressIssues(p: TaskProgressInput): (r: seq<string>)
    ensures r == [] <==> |p.description| >= 10 && p.hoursSpent > 0.0
    ensures p.hoursSpent <= 0.0 ==> r[|r| - 1] == HoursSpentMessage
  {
    MinLength(p.description, 10, DescriptionMessage) + Check(p.hoursSpent > 0.0, HoursSpentMessage)
  }
}
