/**
 * components/ReportExport.tsx: the rows of the report preview, the overview box over all
 * projects, and the footer sums over the rows.
 */
module ReportExport {
  import opened Types
  import opened Totals

  /** The project dropdown: 'all' or one project's id (the option values are project ids). */
  datatype Selection = AllProjects | ProjectNo(id: int)

  predicate HasSpending(p: Project) { p.spent > 0 }

  function IdIs(id: int): Project -> bool {
    (p: Project) => p.id == id
  }

  /** reportData: with 'all', the projects that have spent something; otherwise the projects with the chosen id. */
  function ReportRows(ps: seq<Project>, sel: Selection): (r: seq<Project>)
    ensures sel.AllProjects? ==> forall p :: multiset(r)[p] == if p.spent > 0 then multiset(ps)[p] else 0
    ensures sel.ProjectNo? ==> forall p :: multiset(r)[p] == if p.id == sel.id then multiset(ps)[p] else 0
    ensures sel.AllProjects? ==> forall i :: 0 <= i < |r| ==> r[i].spent > 0
    ensures sel.ProjectNo? ==> forall i :: 0 <= i < |r| ==> r[i].id == sel.id
  {
    match sel
    case AllProjects =>
      FilterCounts(ps, HasSpending);
      Filter(ps, HasSpending)
    case ProjectNo(id) =>
      FilterCounts(ps, IdIs(id));
      Filter(ps, IdIs(id))
  }

  /** The rows keep the order the projects had. */
  lemma ReportRowsKeepOrder(a: seq<Project>, b: seq<Project>, sel: Selection)
    ensures ReportRows(a + b, sel) == ReportRows(a, sel) + ReportRows(b, sel)
  {
    match sel
    case AllProjects => FilterConcat(a, b, HasSpending);
    case ProjectNo(id) => FilterConcat(a, b, IdIs(id));
  }

  /** A row's remaining column. */
  function RowRemaining(p: Project): int { p.budget - p.spent }

  /** `reportData.reduce((s, p) => s + (p.budget - p.spent), 0)` */
  function SumRemaining(rows: seq<Project>): int {
    if rows == [] then 0 else SumRemaining(rows[..|rows| - 1]) + RowRemaining(rows[|rows| - 1])
  }

  lemma {:induction false} RemainingAddsUp(rows: seq<Project>)
    ensures SumRemaining(rows) == SumBudget(rows) - SumSpent(rows)
  {
    if rows != [] {
      RemainingAddsUp(rows[..|rows| - 1]);
    }
  }

  /** The grand-total row of the table. */
  datatype Footer = Footer(budget: int, spent: int, remaining: int)

  /** The footer: the sums of the three money columns over the rows; its remaining is its budget minus its spent. */
  function FooterOf(rows: seq<Project>): (f: Footer)
    ensures f.budget == SumBudget(rows) && f.spent == SumSpent(rows)
    ensures f.remaining == f.budget - f.spent
  {
    RemainingAddsUp(rows);
    Footer(SumBudget(rows), SumSpent(rows), SumRemaining(rows))
  }

  /** What the preview shows: the overview box, the rows, and the footer. */
  datatype Report = Report(overview: Stats, rows: seq<Project>, footer: Footer)

  function ReportOf(ps: seq<Project>, sel: Selection): (r: Report)
    ensures r.rows == ReportRows(ps, sel) && r.footer == FooterOf(r.rows)
    ensures r.overview == Summarize(ps)
    ensures r.overview.budget == SumBudget(ps) && r.overview.spent == SumSpent(ps)
    ensures r.overview.remaining == r.overview.budget - r.overview.spent
    ensures r.overview.percent == Percent(r.overview.spent, r.overview.budget)
    ensures r.overview.budget <= 0 ==> r.overview.percent == 0.0
  {
    var overview := Summarize(ps);
    var rows := ReportRows(ps, sel);
    Report(overview, rows, FooterOf(rows))
  }

  /** totalPercentage: with a positive total budget the overview shows spent × 100 / budget. */
  lemma OverviewPercentage(ps: seq<Project>, sel: Selection)
    ensures var o := ReportOf(ps, sel).overview;
      o.budget > 0 ==> o.percent * (o.budget as real) == (o.spent as real) * 100.0
  {
    var o := ReportOf(ps, sel).overview;
    assert o.percent == Percent(o.spent, o.budget);
  }

  /** The overview box does not depend on the dropdown. */
  lemma OverviewIgnoresSelection(ps: seq<Project>, s1: Selection, s2: Selection)
    ensures ReportOf(ps, s1).overview == ReportOf(ps, s2).overview
  {
  }

  lemma {:induction false} SpendingRowsCarrySpending(ps: seq<Project>)
    requires forall i :: 0 <= i < |ps| ==> ps[i].spent >= 0
    ensures SumSpent(Filter(ps, HasSpending)) == SumSpent(ps)
  {
    if ps != [] {
      var n := |ps| - 1;
      SpendingRowsCarrySpending(ps[..n]);
      SumsConcat(Filter(ps[..n], HasSpending), Keep(ps[n], HasSpending));
    }
  }

  /**
   * With 'all' and no negative spending, the footer's spent equals the overview's: leaving out
   * the rows with nothing spent loses nothing. (A negative spent, which an expense of negative
   * amount can produce, is left out of the rows and breaks this.)
   */
  lemma AllRowsCarryAllSpending(ps: seq<Project>)
    requires forall i :: 0 <= i < |ps| ==> ps[i].spent >= 0
    ensures ReportOf(ps, AllProjects).footer.spent == ReportOf(ps, AllProjects).overview.spent
  {
    SpendingRowsCarrySpending(ps);
  }
}
