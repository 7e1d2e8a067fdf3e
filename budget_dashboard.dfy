/**
 * components/BudgetDashboard.tsx: getStats over all projects and over the three id ranges
 * of the category cards, and the group filter of the project table.
 */
module BudgetDashboard {
  import opened Types
  import opened Totals

  /** The PJ1 card's filter: 100 <= id < 200. */
  predicate InPJ1(p: Project) { 100 <= p.id < 200 }

  /** The PJ2 card's filter: 200 <= id < 300. */
  predicate InPJ2(p: Project) { 200 <= p.id < 300 }

  /** The PJ3 card's filter: id >= 300. */
  predicate InPJ3(p: Project) { p.id >= 300 }

  /** Ids below 100, which no card counts. */
  predicate BelowRanges(p: Project) { p.id < 100 }

  /** The three ranges never share a project, and an id below 100 is in none of them. */
  function RangesOf(p: Project): (n: nat)
    ensures n <= 1
    ensures n == 0 <==> BelowRanges(p)
  {
    (if InPJ1(p) then 1 else 0) + (if InPJ2(p) then 1 else 0) + (if InPJ3(p) then 1 else 0)
  }

  /** The four cards: all projects, then PJ1, PJ2 and PJ3. */
  datatype Cards = Cards(total: Stats, pj1: Stats, pj2: Stats, pj3: Stats)

  /** getStats of all projects, then of each card's id range; CardsAddUp relates the cards to each other. */
  function DashboardCards(ps: seq<Project>): (c: Cards)
    ensures c.total == Summarize(ps)
    ensures c.pj1 == Summarize(Filter(ps, InPJ1))
    ensures c.pj2 == Summarize(Filter(ps, InPJ2))
    ensures c.pj3 == Summarize(Filter(ps, InPJ3))
  {
    Cards(Summarize(ps), Summarize(Filter(ps, InPJ1)), Summarize(Filter(ps, InPJ2)),
          Summarize(Filter(ps, InPJ3)))
  }

  /** One project lands in exactly one of the three ranges or below them. */
  lemma KeepOnce(p: Project)
    ensures SumBudget(Keep(p, InPJ1)) + SumBudget(Keep(p, InPJ2)) + SumBudget(Keep(p, InPJ3))
            + SumBudget(Keep(p, BelowRanges)) == p.budget
    ensures SumSpent(Keep(p, InPJ1)) + SumSpent(Keep(p, InPJ2)) + SumSpent(Keep(p, InPJ3))
            + SumSpent(Keep(p, BelowRanges)) == p.spent
  {
    assert [p][..0] == [];
    assert SumBudget([p]) == p.budget && SumSpent([p]) == p.spent;
  }

  /** The three ranges plus the ids below 100 account for every baht of the totals. */
  lemma {:induction false} RangeSums(ps: seq<Project>)
    ensures SumBudget(Filter(ps, InPJ1)) + SumBudget(Filter(ps, InPJ2)) + SumBudget(Filter(ps, InPJ3))
            + SumBudget(Filter(ps, BelowRanges)) == SumBudget(ps)
    ensures SumSpent(Filter(ps, InPJ1)) + SumSpent(Filter(ps, InPJ2)) + SumSpent(Filter(ps, InPJ3))
            + SumSpent(Filter(ps, BelowRanges)) == SumSpent(ps)
  {
    if ps != [] {
      var n := |ps| - 1;
      var p := ps[n];
      RangeSums(ps[..n]);
      KeepOnce(p);
      SumsConcat(Filter(ps[..n], InPJ1), Keep(p, InPJ1));
      SumsConcat(Filter(ps[..n], InPJ2), Keep(p, InPJ2));
      SumsConcat(Filter(ps[..n], InPJ3), Keep(p, InPJ3));
      SumsConcat(Filter(ps[..n], BelowRanges), Keep(p, BelowRanges));
      assert Filter(ps, InPJ1) == Filter(ps[..n], InPJ1) + Keep(p, InPJ1);
      assert Filter(ps, InPJ2) == Filter(ps[..n], InPJ2) + Keep(p, InPJ2);
      assert Filter(ps, InPJ3) == Filter(ps[..n], InPJ3) + Keep(p, InPJ3);
      assert Filter(ps, BelowRanges) == Filter(ps[..n], BelowRanges) + Keep(p, BelowRanges);
    }
  }

  lemma {:induction false} NoneBelow(ps: seq<Project>)
    requires forall i :: 0 <= i < |ps| ==> ps[i].id >= 100
    ensures Filter(ps, BelowRanges) == []
  {
    if ps != [] {
      NoneBelow(ps[..|ps| - 1]);
    }
  }

  /** When every id is at least 100, the three cards add up to the total card. */
  lemma CardsAddUp(ps: seq<Project>)
    requires forall i :: 0 <= i < |ps| ==> ps[i].id >= 100
    ensures var c := DashboardCards(ps);
      && c.pj1.budget + c.pj2.budget + c.pj3.budget == c.total.budget
      && c.pj1.spent + c.pj2.spent + c.pj3.spent == c.total.spent
      && c.pj1.remaining + c.pj2.remaining + c.pj3.remaining == c.total.remaining
  {
    RangeSums(ps);
    NoneBelow(ps);
  }

  function GroupIs(group: string): Project -> bool {
    (p: Project) => p.group == group
  }

  /** filteredProjects: 'all' shows every project, any other choice the projects of that group. */
  function FilterGroup(ps: seq<Project>, selection: string): (r: seq<Project>)
    ensures selection == "all" ==> r == ps
    ensures selection != "all" ==> forall p :: multiset(r)[p] == if p.group == selection then multiset(ps)[p] else 0
    ensures selection != "all" ==> forall i :: 0 <= i < |r| ==> r[i].group == selection
  {
    if selection == "all" then ps
    else
      FilterCounts(ps, GroupIs(selection));
      Filter(ps, GroupIs(selection))
  }

  /** The table lists the chosen projects in the order of the project list. */
  lemma FilterGroupKeepsOrder(a: seq<Project>, b: seq<Project>, selection: string)
    ensures FilterGroup(a + b, selection) == FilterGroup(a, selection) + FilterGroup(b, selection)
  {
    if selection != "all" {
      FilterConcat(a, b, GroupIs(selection));
    }
  }
}
