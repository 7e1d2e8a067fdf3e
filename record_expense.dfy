/**
 * components/RecordExpense.tsx: the parse gate in front of onRecord, the handling of its
 * answer, and the projects the dropdown offers. The submit handler awaits onRecord, so it is
 * modelled as two steps: Begin up to the call, Finish once the answer is in.
 */
module RecordExpense {
  import opened Types
  import opened Text
  import opened Totals

  /** The arguments of an onRecord call. */
  datatype Request = Request(projectId: int, amount: int)

  /** The check in handleSubmit: both fields parse as integers and the project id is positive; the amount's sign is not checked. */
  function Gate(amountText: string, projectIdText: string): (r: Option<Request>)
    ensures r.Some? <==> ParseInt(amountText).Some? && ParseInt(projectIdText).Some? && ParseInt(projectIdText).value > 0
    ensures r.Some? ==> r.value == Request(ParseInt(projectIdText).value, ParseInt(amountText).value)
  {
    match (ParseInt(amountText), ParseInt(projectIdText))
    case (Some(amount), Some(id)) => if id > 0 then Some(Request(id, amount)) else None
    case _ => None
  }

  /** Any integer amount, zero and negative ones included, gets through for any positive project id. */
  lemma GateAcceptsAnyAmount(projectId: int, amount: int)
    requires projectId > 0
    ensures Gate(ToDecimal(amount), ToDecimal(projectId)) == Some(Request(projectId, amount))
  {
    ParseIntToDecimal(amount);
    ParseIntToDecimal(projectId);
  }

  /** A project id of zero or below never gets through, whatever the amount. */
  lemma GateRejectsNonPositiveId(projectId: int, amountText: string)
    requires projectId <= 0
    ensures Gate(amountText, ToDecimal(projectId)) == None
  {
    ParseIntToDecimal(projectId);
  }

  predicate NotClosed(p: Project) { p.status != Closed }

  /** The dropdown: exactly the projects that are not Closed, in their order. */
  function SelectableProjects(ps: seq<Project>): (r: seq<Project>)
    ensures forall p :: multiset(r)[p] == if p.status != Closed then multiset(ps)[p] else 0
    ensures forall i :: 0 <= i < |r| ==> r[i].status != Closed
  {
    FilterCounts(ps, NotClosed);
    Filter(ps, NotClosed)
  }

  /** The dropdown offers the open projects in the order of the project list. */
  lemma SelectableKeepsOrder(a: seq<Project>, b: seq<Project>)
    ensures SelectableProjects(a + b) == SelectableProjects(a) + SelectableProjects(b)
  {
    FilterConcat(a, b, NotClosed);
  }

  /** The form's component state; `today` stands for `new Date().toISOString().split('T')[0]`. */
  class ExpenseForm {
    var projectId: string
    var item: string
    var date: string
    var amount: string
    var note: string
    var submitted: bool
    var isSaving: bool

    constructor (today: string)
      ensures projectId == "" && item == "" && date == today && amount == "" && note == ""
      ensures !submitted && !isSaving
    {
      projectId, item, date, amount, note := "", "", today, "", "";
      submitted, isSaving := false, false;
    }

    /**
     * handleSubmit up to the awaited call: when the gate passes, saving starts and the request
     * is returned; otherwise (the alert) nothing changes and no request is made.
     */
    method Begin() returns (r: Option<Request>)
      modifies this`isSaving
      ensures r == Gate(amount, projectId)
      ensures r.Some? ==> isSaving
      ensures r.None? ==> isSaving == old(isSaving)
    {
      r := Gate(amount, projectId);
      if r.Some? {
        isSaving := true;
      }
    }

    /**
     * handleSubmit after onRecord answered: saving stops; on success the notice shows and the
     * form is emptied (with a fresh date); on failure (the alert) the form is kept.
     */
    method Finish(success: bool, today: string)
      modifies this
      ensures !isSaving
      ensures success ==> submitted && projectId == "" && item == "" && date == today && amount == "" && note == ""
      ensures !success ==> submitted == old(submitted)
      ensures !success ==> projectId == old(projectId) && item == old(item) && date == old(date)
      ensures !success ==> amount == old(amount) && note == old(note)
    {
      isSaving := false;
      if success {
        submitted := true;
        projectId, item, date, amount, note := "", "", today, "", "";
      }
    }

    /** The timeout three seconds after a success hides the notice. */
    method DismissNotice()
      modifies this`submitted
      ensures !submitted
    {
      submitted := false;
    }
  }
}
