/**
 * The reduce and filter expressions the views share: `projs.reduce((sum, p) => sum + p.budget, 0)`,
 * the same for `spent`, the `budget > 0 ? spent / budget * 100 : 0` percentage, and
 * Array.prototype.filter. Sums are left folds, as reduce computes them.
 */
module Totals {
  import opened Types

  /** Array.prototype.filter: the projects `keep` accepts, in their original order. */
  function Filter(s: seq<Project>, keep: Project -> bool): (r: seq<Project>)
    ensures |r| <= |s|
    ensures forall i :: 0 <= i < |r| ==> keep(r[i])
  {
    if s == [] then [] else Filter(s[..|s| - 1], keep) + Keep(s[|s| - 1], keep)
  }

  function Keep(p: Project, keep: Project -> bool): seq<Project> {
    if keep(p) then [p] else []
  }

  /** Filter keeps exactly the accepted projects, each as often as it occurs. */
  lemma {:induction false} FilterCounts(s: seq<Project>, keep: Project -> bool)
    ensures forall p :: multiset(Filter(s, keep))[p] == if keep(p) then multiset(s)[p] else 0
    ensures forall p :: p in Filter(s, keep) <==> p in s && keep(p)
  {
    if s != [] {
      var n := |s| - 1;
      assert s == s[..n] + [s[n]];
      FilterCounts(s[..n], keep);
    }
  }

  /** Filtering distributes over concatenation, so the kept projects keep their relative order. */
  lemma {:induction false} FilterConcat(a: seq<Project>, b: seq<Project>, keep: Project -> bool)
    ensures Filter(a + b, keep) == Filter(a, keep) + Filter(b, keep)
  {
    if b == [] {
      assert a + b == a;
    } else {
      var n := |b| - 1;
      var ab := a + b;
      assert ab[..|ab| - 1] == a + b[..n];
      assert ab[|ab| - 1] == b[n];
      FilterConcat(a, b[..n], keep);
      var fa, fb, k := Filter(a, keep), Filter(b[..n], keep), Keep(b[n], keep);
      assert Filter(ab, keep) == (fa + fb) + k;
      assert Filter(b, keep) == fb + k;
      assert (fa + fb) + k == fa + (fb + k);
    }
  }

  /** A filter every project passes changes nothing. */
  lemma {:induction false} FilterKeepsAll(s: seq<Project>, keep: Project -> bool)
    requires forall i :: 0 <= i < |s| ==> keep(s[i])
    ensures Filter(s, keep) == s
  {
    if s != [] {
      var n := |s| - 1;
      FilterKeepsAll(s[..n], keep);
      assert s == s[..n] + [s[n]];
    }
  }

  /** Sum of `budget` over the list. */
  function SumBudget(s: seq<Project>): int {
    if s == [] then 0 else SumBudget(s[..|s| - 1]) + s[|s| - 1].budget
  }

  /** Sum of `spent` over the list. */
  function SumSpent(s: seq<Project>): int {
    if s == [] then 0 else SumSpent(s[..|s| - 1]) + s[|s| - 1].spent
  }

  lemma {:induction false} SumsConcat(a: seq<Project>, b: seq<Project>)
    ensures SumBudget(a + b) == SumBudget(a) + SumBudget(b)
    ensures SumSpent(a + b) == SumSpent(a) + SumSpent(b)
  {
    if b == [] {
      assert a + b == a;
    } else {
      var n := |b| - 1;
      var ab := a + b;
      assert ab[..|ab| - 1] == a + b[..n];
      assert ab[|ab| - 1] == b[n];
      SumsConcat(a, b[..n]);
    }
  }

  lemma MultisetRemove(s: seq<Project>, i: nat)
    requires i < |s|
    ensures multiset(s[..i] + s[i + 1..]) == multiset(s) - multiset{s[i]}
  {
    assert s == s[..i] + [s[i]] + s[i + 1..];
  }

  /** Taking the last project out of one list and an equal project out of a permutation of it leaves permutations. */
  lemma RemoveSame(a: seq<Project>, b: seq<Project>, i: nat)
    requires multiset(a) == multiset(b) && a != [] && i < |b| && b[i] == a[|a| - 1]
    ensures multiset(a[..|a| - 1]) == multiset(b[..i] + b[i + 1..])
  {
    var n := |a| - 1;
    MultisetRemove(a, n);
    MultisetRemove(b, i);
    assert a[..n] + a[n + 1..] == a[..n];
  }

  /** Taking one project out of a list takes its amounts out of the sums. */
  lemma SumsRemove(s: seq<Project>, i: nat)
    requires i < |s|
    ensures SumBudget(s) == SumBudget(s[..i] + s[i + 1..]) + s[i].budget
    ensures SumSpent(s) == SumSpent(s[..i] + s[i + 1..]) + s[i].spent
  {
    var pre, tail, post := s[..i], s[i..], s[i + 1..];
    assert s == pre + tail;
    SumsConcat(pre, tail);
    SumsHead(tail);
    assert tail[1..] == post;
    SumsConcat(pre, post);
  }

  /** The sums of a non-empty list are its first project's amounts plus the sums of the rest. */
  lemma SumsHead(s: seq<Project>)
    requires s != []
    ensures SumBudget(s) == s[0].budget + SumBudget(s[1..])
    ensures SumSpent(s) == s[0].spent + SumSpent(s[1..])
  {
    var x := [s[0]];
    assert s == x + s[1..];
    assert x[..0] == [];
    SumsConcat(x, s[1..]);
  }

  /** The sums do not depend on the order of the projects. */
  lemma {:induction false} SumsIgnoreOrder(a: seq<Project>, b: seq<Project>)
    requires multiset(a) == multiset(b)
    ensures SumBudget(a) == SumBudget(b) && SumSpent(a) == SumSpent(b)
    decreases |a|
  {
    if a != [] {
      var n := |a| - 1;
      var x := a[n];
      assert x in multiset(b);
      var i :| 0 <= i < |b| && b[i] == x;
      var rest := b[..i] + b[i + 1..];
      RemoveSame(a, b, i);
      SumsIgnoreOrder(a[..n], rest);
      SumsRemove(b, i);
      assert a == a[..n] + [x];
      SumsConcat(a[..n], [x]);
    }
  }

  /** The projects a predicate rejects make up, with the ones it keeps, the whole sums. */
  lemma {:induction false} FilterSplitsSums(s: seq<Project>, keep: Project -> bool, drop: Project -> bool)
    requires forall p :: drop(p) <==> !keep(p)
    ensures SumBudget(Filter(s, keep)) + SumBudget(Filter(s, drop)) == SumBudget(s)
    ensures SumSpent(Filter(s, keep)) + SumSpent(Filter(s, drop)) == SumSpent(s)
  {
    if s != [] {
      var n := |s| - 1;
      FilterSplitsSums(s[..n], keep, drop);
      SumsConcat(Filter(s[..n], keep), Keep(s[n], keep));
      SumsConcat(Filter(s[..n], drop), Keep(s[n], drop));
    }
  }

  /** `budget > 0 ? (spent / budget) * 100 : 0`, in exact arithmetic. */
  function Percent(spent: int, budget: int): (r: real)
    ensures budget > 0 ==> r * (budget as real) == (spent as real) * 100.0
    ensures budget <= 0 ==> r == 0.0
    ensures budget > 0 && 0 <= spent <= budget ==> 0.0 <= r <= 100.0
  {
    if budget > 0 then (spent as real / budget as real) * 100.0 else 0.0
  }

  /** The { budget, spent, remaining, percent } record of getStats. */
  datatype Stats = Stats(budget: int, spent: int, remaining: int, percent: real)

  /** getStats: totals over the list, remaining as budget minus spent, percent guarded by budget > 0. */
  function Summarize(s: seq<Project>): (r: Stats)
    ensures r.budget == SumBudget(s) && r.spent == SumSpent(s)
    ensures r.remaining == r.budget - r.spent
    ensures r.budget > 0 ==> r.percent * (r.budget as real) == (r.spent as real) * 100.0
    ensures r.budget <= 0 ==> r.percent == 0.0
    ensures s == [] ==> r == Stats(0, 0, 0, 0.0)
  {
    var budget := SumBudget(s);
    var spent := SumSpent(s);
    Stats(budget, spent, budget - spent, Percent(spent, budget))
  }

  /** Summaries of two orderings of the same projects agree. */
  lemma SummarizeIgnoresOrder(a: seq<Project>, b: seq<Project>)
    requires multiset(a) == multiset(b)
    ensures Summarize(a) == Summarize(b)
  {
    SumsIgnoreOrder(a, b);
  }
}
