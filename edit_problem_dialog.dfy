/**
 * The edit-problem dialog (EditProblemDialog.tsx): the form it opens with,
 * the update record it writes, and its submit handler, which updates one
 * row of the problems table, invalidates the problems list and closes the
 * dialog, or reports the error and leaves everything else as it was. The
 * problems table of the backend store is held in memory by `ProblemsTable`.
 */
module EditProblemDialog {
  import opened Common
  import opened QueryCache

  /** One row of the problems table, as far as the dialog reads or writes it. */
  datatype Problem = Problem(
    id: int,
    problemNumber: Option<string>,
    title: Option<string>,
    description: Option<string>,
    priority: Option<string>,
    status: Option<string>,
    rootCause: Option<string>,
    workaround: Option<string>,
    updatedAt: Option<int>)          // milliseconds since the epoch

  /** The dialog's form state: every field is text, possibly empty. */
  datatype FormData = FormData(
    title: string,
    description: string,
    priority: string,
    status: string,
    rootCause: string,
    workaround: string)

  /** The record the dialog sends to the store. */
  datatype Payload = Payload(
    title: string,
    description: string,
    priority: string,
    status: string,
    rootCause: Option<string>,
    workaround: Option<string>,
    updatedAt: int)

  /** `problem?.field || fallback`: absent problem, absent field and empty text all fall back. */
  function Field(problem: Option<Problem>, field: Problem -> Option<string>, fallback: string): (s: string)
    ensures problem.Some? && Truthy(field(problem.value)) ==> s == field(problem.value).value
    ensures !(problem.Some? && Truthy(field(problem.value))) ==> s == fallback
  {
    if problem.Some? then OrElse(field(problem.value), fallback) else fallback
  }

  /**
   * The form the dialog opens with: the problem's fields, with empty text
   * for title, description, root cause and workaround, "medium" for the
   * priority and "open" for the status where the problem has nothing.
   */
  function InitialForm(problem: Option<Problem>): (f: FormData)
    ensures f.priority != "" && f.status != ""
    ensures problem.None? ==> f == FormData("", "", "medium", "open", "", "")
    ensures problem.Some? ==>
              f.title == OrElse(problem.value.title, "") &&
              f.description == OrElse(problem.value.description, "") &&
              f.priority == OrElse(problem.value.priority, "medium") &&
              f.status == OrElse(problem.value.status, "open") &&
              f.rootCause == OrElse(problem.value.rootCause, "") &&
              f.workaround == OrElse(problem.value.workaround, "")
  {
    FormData(
      Field(problem, (p: Problem) => p.title, ""),
      Field(problem, (p: Problem) => p.description, ""),
      Field(problem, (p: Problem) => p.priority, "medium"),
      Field(problem, (p: Problem) => p.status, "open"),
      Field(problem, (p: Problem) => p.rootCause, ""),
      Field(problem, (p: Problem) => p.workaround, ""))
  }

  /**
   * The update record: title, description, priority and status as typed;
   * an empty root cause or workaround is written as null and any other text
   * as it is; the update time is `now`.
   */
  function UpdatePayload(form: FormData, now: int): (p: Payload)
    ensures p.title == form.title && p.description == form.description
    ensures p.priority == form.priority && p.status == form.status
    ensures p.rootCause.None? <==> form.rootCause == ""
    ensures p.rootCause.Some? ==> p.rootCause.value == form.rootCause
    ensures p.workaround.None? <==> form.workaround == ""
    ensures p.workaround.Some? ==> p.workaround.value == form.workaround
    ensures p.updatedAt == now
  {
    Payload(form.title, form.description, form.priority, form.status,
            NullIfEmpty(form.rootCause), NullIfEmpty(form.workaround), now)
  }

  /** One row after the update: the payload's fields written, id and number kept. */
  function Updated(row: Problem, p: Payload): Problem {
    row.(title := Some(p.title), description := Some(p.description), priority := Some(p.priority),
         status := Some(p.status), rootCause := p.rootCause, workaround := p.workaround,
         updatedAt := Some(p.updatedAt))
  }

  /** The store's `update(payload).eq("id", id)`: only rows with that id change. */
  function ApplyUpdate(rows: seq<Problem>, id: int, p: Payload): (r: seq<Problem>)
    ensures |r| == |rows|
    ensures forall i :: 0 <= i < |rows| && rows[i].id != id ==> r[i] == rows[i]
    ensures forall i :: 0 <= i < |rows| && rows[i].id == id ==>
              r[i].id == id && r[i].problemNumber == rows[i].problemNumber &&
              r[i].title == Some(p.title) && r[i].description == Some(p.description) &&
              r[i].priority == Some(p.priority) && r[i].status == Some(p.status) &&
              r[i].rootCause == p.rootCause &&
              r[i].workaround == p.workaround && r[i].updatedAt == Some(p.updatedAt)
    decreases |rows|
  {
    if rows == [] then []
    else [if rows[0].id == id then Updated(rows[0], p) else rows[0]] + ApplyUpdate(rows[1..], id, p)
  }

  /**
   * Submitting the dialog without editing writes the problem back
   * normalised: absent or empty text becomes empty text for the title and
   * description and null for the root cause and workaround, and an absent
   * priority or status becomes "medium" or "open".
   */
  lemma UneditedSubmitNormalises(p: Problem, now: int)
    ensures var row := Updated(p, UpdatePayload(InitialForm(Some(p)), now));
            row.id == p.id && row.problemNumber == p.problemNumber &&
            row.title == Some(OrElse(p.title, "")) &&
            row.description == Some(OrElse(p.description, "")) &&
            row.priority == Some(OrElse(p.priority, "medium")) &&
            row.status == Some(OrElse(p.status, "open")) &&
            row.rootCause == (if Truthy(p.rootCause) then p.rootCause else None) &&
            row.workaround == (if Truthy(p.workaround) then p.workaround else None) &&
            row.updatedAt == Some(now)
  {
  }

  /**
   * Normalisation is idempotent: submitting the dialog unedited a second
   * time, on the row the first submit wrote, writes the same row again up to
   * its update time.
   */
  lemma UneditedSubmitIdempotent(p: Problem, now: int, later: int)
    ensures var once := Updated(p, UpdatePayload(InitialForm(Some(p)), now));
            var twice := Updated(once, UpdatePayload(InitialForm(Some(once)), later));
            twice == once.(updatedAt := Some(later))
  {
    var form := InitialForm(Some(p));
    var once := Updated(p, UpdatePayload(form, now));
    assert InitialForm(Some(once)).priority == form.priority;
    assert InitialForm(Some(once)).status == form.status;
    assert InitialForm(Some(once)).rootCause == form.rootCause;
    assert InitialForm(Some(once)).workaround == form.workaround;
    assert InitialForm(Some(once)).title == form.title;
    assert InitialForm(Some(once)).description == form.description;
  }

  /**
   * The message of the `TypeError` raised when the dialog is submitted
   * without a problem (`problem.id` on null), as the browser words it.
   */
  const NoProblemMessage: string := "Cannot read properties of null (reading 'id')"

  /** The problems table of the store. */
  class ProblemsTable {
    var rows: seq<Problem>

    constructor(rows: seq<Problem>)
      ensures this.rows == rows
    {
      this.rows := rows;
    }
  }

  /** The dialog's state: the problem it edits, its form, the busy flag and whether it is open. */
  class ProblemDialog {
    const problem: Option<Problem>
    var form: FormData
    var isLoading: bool
    var open: bool
    /** Every value `isLoading` was set to, in order. */
    ghost var loadingHistory: seq<bool>

    constructor(problem: Option<Problem>, open: bool)
      ensures this.problem == problem && form == InitialForm(problem)
      ensures !isLoading && this.open == open && loadingHistory == []
    {
      this.problem := problem;
      form := InitialForm(problem);
      isLoading := false;
      this.open := open;
      loadingHistory := [];
    }

    /**
     * `handleSubmit`: marks the dialog busy, writes the update at `now`
     * (`storeError` is the store's error message, if it fails), then either
     * raises the success toast, invalidates the problems list and closes
     * the dialog, or raises an error toast and changes nothing else; in
     * both cases the dialog ends not busy.
     */
    method HandleSubmit(table: ProblemsTable, client: QueryClient, now: int, storeError: Option<string>)
      returns (toast: Toast)
      modifies this, table, client
      ensures form == old(form) && !isLoading && loadingHistory == old(loadingHistory) + [true, false]
      ensures problem.None? ==>
                table.rows == old(table.rows) && client.invalidated == old(client.invalidated) &&
                open == old(open) && toast == Failure(NoProblemMessage)
      ensures problem.Some? && storeError.Some? ==>
                table.rows == old(table.rows) && client.invalidated == old(client.invalidated) &&
                open == old(open) && toast == Failure(storeError.value)
      ensures problem.Some? && storeError.None? ==>
                table.rows == ApplyUpdate(old(table.rows), problem.value.id, UpdatePayload(old(form), now)) &&
                client.invalidated == old(client.invalidated) + [["helpdesk-problems"]] &&
                !open && toast == Success("Problem updated successfully")
    {
      isLoading := true;
      loadingHistory := loadingHistory + [true];
      var payload := UpdatePayload(form, now);
      if problem.None? {
        toast := Failure(NoProblemMessage);
      } else if storeError.Some? {
        toast := Failure(storeError.value);
      } else {
        table.rows := ApplyUpdate(table.rows, problem.value.id, payload);
        toast := Success("Problem updated successfully");
        client.Invalidate(["helpdesk-problems"]);
        open := false;
      }
      isLoading := false;
      loadingHistory := loadingHistory + [false];
    }
  }
}
