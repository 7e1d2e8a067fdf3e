/**
 * components/ProjectManager.tsx: the add/edit form of a project, the id a new project gets,
 * the numeric parse of the money fields, and the progress bar of a project card.
 */
module ProjectManager {
  import opened Types
  import opened Text
  import opened Totals

  const DefaultGroup: string := "กลุ่มบริหารวิชาการ"
  const DefaultCategory: string := "งบดำเนินงาน"

  /** formData: every field is text except the status, which only the three radio buttons set. */
  datatype FormData = FormData(
    name: string, group: string, owner: string, budget: string,
    category: string, status: Status, spent: string)

  /** defaultFormState */
  const DefaultForm: FormData := FormData("", DefaultGroup, "", "", DefaultCategory, Active, "")

  /** The text inputs and selects of the form, by their `name` attribute. */
  datatype Field = NameField | GroupField | OwnerField | BudgetField | CategoryField | SpentField

  /** The value a text input or select shows. */
  function TextOf(f: FormData, k: Field): string {
    match k
    case NameField => f.name
    case GroupField => f.group
    case OwnerField => f.owner
    case BudgetField => f.budget
    case CategoryField => f.category
    case SpentField => f.spent
  }

  /** The change event handleChange receives: an input or select, or a status radio button. */
  datatype Edit = SetText(field: Field, value: string) | SetStatus(status: Status)

  /** handleChange: `{ ...prev, [name]: value }` changes the named field and no other. */
  function Change(f: FormData, e: Edit): (r: FormData)
    ensures e.SetText? ==> TextOf(r, e.field) == e.value && r.status == f.status
    ensures e.SetText? ==> forall k :: k != e.field ==> TextOf(r, k) == TextOf(f, k)
    ensures e.SetStatus? ==> r.status == e.status && forall k :: TextOf(r, k) == TextOf(f, k)
  {
    match e
    case SetStatus(s) => f.(status := s)
    case SetText(k, v) =>
      match k
      case NameField => f.(name := v)
      case GroupField => f.(group := v)
      case OwnerField => f.(owner := v)
      case BudgetField => f.(budget := v)
      case CategoryField => f.(category := v)
      case SpentField => f.(spent := v)
  }

  /** handleEditClick's form: the project's fields, with the default group and category for empty ones. */
  function EditPrefill(p: Project): (f: FormData)
    ensures f.name == p.name && f.owner == p.owner && f.status == p.status
    ensures f.group == (if p.group == "" then DefaultGroup else p.group)
    ensures f.category == (if p.category == "" then DefaultCategory else p.category)
    ensures ParseInt(f.budget) == Some(p.budget) && ParseInt(f.spent) == Some(p.spent)
  {
    ParseIntToDecimal(p.budget);
    ParseIntToDecimal(p.spent);
    FormData(
      p.name, if p.group == "" then DefaultGroup else p.group, p.owner, ToDecimal(p.budget),
      if p.category == "" then DefaultCategory else p.category, p.status, ToDecimal(p.spent))
  }

  /** `parseFloat(text) || 0`, on integer text: the number read, or 0 when none can be read. */
  function NumberOrZero(text: string): (n: int)
    ensures ParseInt(text).Some? ==> n == ParseInt(text).value
    ensures ParseInt(text).None? ==> n == 0
  {
    match ParseInt(text)
    case Some(v) => v
    case None => 0
  }

  /** The largest id in a non-empty list. */
  function MaxId(ps: seq<Project>): (m: int)
    requires ps != []
    ensures forall i :: 0 <= i < |ps| ==> ps[i].id <= m
    ensures exists i :: 0 <= i < |ps| && ps[i].id == m
  {
    if |ps| == 1 then ps[0].id
    else
      var m := MaxId(ps[..|ps| - 1]);
      if ps[|ps| - 1].id > m then ps[|ps| - 1].id else m
  }

  /** newId: one more than the largest id, or 101 for an empty list. */
  function NewId(ps: seq<Project>): (id: int)
    ensures ps == [] ==> id == 101
    ensures ps != [] ==> id == MaxId(ps) + 1
    ensures forall i :: 0 <= i < |ps| ==> ps[i].id < id
  {
    if |ps| > 0 then MaxId(ps) + 1 else 101
  }

  /** What handleSubmit hands to the parent: onUpdate in edit mode, onAdd otherwise. */
  datatype Submission = UpdateRequest(project: Project) | AddRequest(project: Project)

  /** finalData with an id: the form's text fields, the parsed money, and the edited or the new id. */
  function SubmitOf(f: FormData, editing: Option<Project>, ps: seq<Project>): (r: Submission)
    ensures editing.Some? <==> r.UpdateRequest?
    ensures editing.Some? ==> r.project.id == editing.value.id
    ensures editing.None? ==> r.project.id == NewId(ps) && forall i :: 0 <= i < |ps| ==> ps[i].id != r.project.id
    ensures r.project.budget == NumberOrZero(f.budget) && r.project.spent == NumberOrZero(f.spent)
    ensures r.project.name == f.name && r.project.group == f.group && r.project.owner == f.owner
    ensures r.project.category == f.category && r.project.status == f.status
  {
    var id := if editing.Some? then editing.value.id else NewId(ps);
    var p := Project(id, f.name, f.group, f.owner, NumberOrZero(f.budget), NumberOrZero(f.spent), f.category, f.status);
    if editing.Some? then UpdateRequest(p) else AddRequest(p)
  }

  /** Opening a project for editing and saving it untouched gives the project back, unless its group or category was empty. */
  lemma EditRoundTrip(p: Project, ps: seq<Project>)
    requires p.group != "" && p.category != ""
    ensures SubmitOf(EditPrefill(p), Some(p), ps) == UpdateRequest(p)
  {
  }

  /** Saving the default form unchanged adds an Active project with no name, no budget and nothing spent. */
  lemma DefaultFormAddsEmptyProject(ps: seq<Project>)
    ensures SubmitOf(DefaultForm, None, ps) ==
      AddRequest(Project(NewId(ps), "", DefaultGroup, "", 0, 0, DefaultCategory, Active))
  {
    assert TrimStart("") == "" && !StartsNumeric("");
    assert NumberOrZero(DefaultForm.budget) == 0 && NumberOrZero(DefaultForm.spent) == 0;
  }

  /** The card's progress bar width in percent: min(percent, 100) when budget > 0, else 0. */
  function ProgressWidth(p: Project): (w: real)
    ensures p.budget <= 0 ==> w == 0.0
    ensures p.budget > 0 ==> w <= 100.0
    ensures p.budget > 0 && p.spent <= p.budget ==> w == Percent(p.spent, p.budget)
    ensures p.budget > 0 && p.spent > p.budget ==> w == 100.0
    ensures p.spent >= 0 ==> w >= 0.0
  {
    if p.budget > 0 then
      var pct := (p.spent as real / p.budget as real) * 100.0;
      if pct < 100.0 then pct else 100.0
    else 0.0
  }

  /** The form's component state. */
  class ProjectForm {
    var showModal: bool
    var editing: Option<Project>
    var form: FormData

    constructor ()
      ensures !showModal && editing == None && form == DefaultForm
    {
      showModal, editing, form := false, None, DefaultForm;
    }

    /** handleAddClick: no project under edit, the default form, the modal open. */
    method AddClick()
      modifies this
      ensures editing == None && form == DefaultForm && showModal
    {
      editing, form, showModal := None, DefaultForm, true;
    }

    /** handleEditClick */
    method EditClick(p: Project)
      modifies this
      ensures editing == Some(p) && form == EditPrefill(p) && showModal
    {
      editing, form, showModal := Some(p), EditPrefill(p), true;
    }

    /** handleChange */
    method ChangeField(e: Edit)
      modifies this`form
      ensures form == Change(old(form), e)
    {
      form := Change(form, e);
    }

    /** handleSubmit: hands the request to the parent and closes the modal; the form itself stays. */
    method Submit(ps: seq<Project>) returns (r: Submission)
      modifies this`showModal
      ensures r == SubmitOf(form, editing, ps)
      ensures !showModal
    {
      r := SubmitOf(form, editing, ps);
      showModal := false;
    }
  }
}
