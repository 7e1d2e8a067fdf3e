/**
 * components/Home.tsx: the pie chart of budget per project series. The reduce walks the
 * projects once, finds the accumulator entry of the project's series and adds to it, or
 * pushes a new entry; the entries are then sorted into the order PJ1, PJ2, PJ3.
 * The overview totals on the same page are Totals.Summarize.
 */
module Home {
  import opened Types
  import opened Totals

  /** The three series; their labels are 'งบอุดหนุนรายหัว (PJ1)', 'งบพัฒนาผู้เรียน (PJ2)', 'งบกลาง (PJ3)'. */
  datatype Category = PJ1 | PJ2 | PJ3

  /** The position of a series in the `order` array. */
  function Rank(c: Category): nat {
    match c
    case PJ1 => 0
    case PJ2 => 1
    case PJ3 => 2
  }

  /** The series of a project id: 300 and up is PJ3, 200 to 299 is PJ2, everything else PJ1. */
  function PieCategory(id: int): (c: Category)
    ensures c == PJ3 <==> id >= 300
    ensures c == PJ2 <==> 200 <= id < 300
    ensures c == PJ1 <==> id < 200
  {
    if id >= 300 then PJ3 else if id >= 200 then PJ2 else PJ1
  }

  /** An entry `{ name, value }` of pieChartData. */
  datatype Slice = Slice(name: Category, value: int)

  // ---------------------------------------------------------------------------------------
  // The specification of the chart

  /** The budget of the projects of one series. */
  function CategoryBudget(ps: seq<Project>, c: Category): int {
    if ps == [] then 0
    else CategoryBudget(ps[..|ps| - 1], c) + (if PieCategory(ps[|ps| - 1].id) == c then ps[|ps| - 1].budget else 0)
  }

  /** Whether some project belongs to the series. */
  predicate Occurs(ps: seq<Project>, c: Category) {
    ps != [] && (Occurs(ps[..|ps| - 1], c) || PieCategory(ps[|ps| - 1].id) == c)
  }

  lemma {:induction false} OccursIff(ps: seq<Project>, c: Category)
    ensures Occurs(ps, c) <==> exists i :: 0 <= i < |ps| && PieCategory(ps[i].id) == c
  {
    if ps != [] {
      var n := |ps| - 1;
      OccursIff(ps[..n], c);
      if Occurs(ps[..n], c) {
        var i :| 0 <= i < n && PieCategory(ps[..n][i].id) == c;
        assert ps[i] == ps[..n][i];
      }
      if exists i :: 0 <= i < |ps| && PieCategory(ps[i].id) == c {
        var i :| 0 <= i < |ps| && PieCategory(ps[i].id) == c;
        if i < n {
          assert ps[..n][i] == ps[i];
        }
      }
    }
  }

  lemma {:induction false} AbsentIsZero(ps: seq<Project>, c: Category)
    requires !Occurs(ps, c)
    ensures CategoryBudget(ps, c) == 0
  {
    if ps != [] {
      AbsentIsZero(ps[..|ps| - 1], c);
    }
  }

  /** The entry of one series: present exactly when the series has a project. */
  function Bucket(ps: seq<Project>, c: Category): seq<Slice> {
    if Occurs(ps, c) then [Slice(c, CategoryBudget(ps, c))] else []
  }

  /** What the chart shows: one entry per series that has projects, in the order PJ1, PJ2, PJ3. */
  function PieSpec(ps: seq<Project>): (r: seq<Slice>)
    ensures |r| <= 3
    ensures forall i, j :: 0 <= i < j < |r| ==> Rank(r[i].name) < Rank(r[j].name)
    ensures forall i :: 0 <= i < |r| ==> r[i].value == CategoryBudget(ps, r[i].name)
  {
    Bucket(ps, PJ1) + Bucket(ps, PJ2) + Bucket(ps, PJ3)
  }

  /** A series has an entry in the chart exactly when some project's id falls in it. */
  lemma PieShowsSeries(ps: seq<Project>, c: Category)
    ensures (exists i :: 0 <= i < |PieSpec(ps)| && PieSpec(ps)[i].name == c)
        <==> exists j :: 0 <= j < |ps| && PieCategory(ps[j].id) == c
  {
    OccursIff(ps, c);
    var b1, b2, b3 := Bucket(ps, PJ1), Bucket(ps, PJ2), Bucket(ps, PJ3);
    var r := PieSpec(ps);
    assert r == b1 + b2 + b3;
    if Occurs(ps, c) {
      var i := if c == PJ1 then 0 else if c == PJ2 then |b1| else |b1| + |b2|;
      assert r[i].name == c;
    }
  }

  /** The sum of the values of a list of entries. */
  function SliceTotal(r: seq<Slice>): int {
    if r == [] then 0 else SliceTotal(r[..|r| - 1]) + r[|r| - 1].value
  }

  lemma {:induction false} SeriesBudgetsAddUp(ps: seq<Project>)
    ensures CategoryBudget(ps, PJ1) + CategoryBudget(ps, PJ2) + CategoryBudget(ps, PJ3) == SumBudget(ps)
  {
    if ps != [] {
      SeriesBudgetsAddUp(ps[..|ps| - 1]);
    }
  }

  /** The chart's values add up to the page's total budget. */
  lemma {:induction false} PieTotalIsTotalBudget(ps: seq<Project>)
    ensures SliceTotal(PieSpec(ps)) == Summarize(ps).budget
  {
    SeriesBudgetsAddUp(ps);
    if !Occurs(ps, PJ1) { AbsentIsZero(ps, PJ1); }
    if !Occurs(ps, PJ2) { AbsentIsZero(ps, PJ2); }
    if !Occurs(ps, PJ3) { AbsentIsZero(ps, PJ3); }
    var b1, b2, b3 := Bucket(ps, PJ1), Bucket(ps, PJ2), Bucket(ps, PJ3);
    SliceTotalConcat(b1, b2);
    SliceTotalConcat(b1 + b2, b3);
  }

  lemma {:induction false} SliceTotalConcat(a: seq<Slice>, b: seq<Slice>)
    ensures SliceTotal(a + b) == SliceTotal(a) + SliceTotal(b)
  {
    if b == [] {
      assert a + b == a;
    } else {
      var ab := a + b;
      assert ab[..|ab| - 1] == a + b[..|b| - 1];
      SliceTotalConcat(a, b[..|b| - 1]);
    }
  }

  // ---------------------------------------------------------------------------------------
  // The accumulator

  /** The entries of the accumulator that belong to one series, in order. */
  function Named(acc: seq<Slice>, c: Category): (r: seq<Slice>)
    ensures forall i :: 0 <= i < |r| ==> r[i].name == c
  {
    if acc == [] then []
    else Named(acc[..|acc| - 1], c) + (if acc[|acc| - 1].name == c then [acc[|acc| - 1]] else [])
  }

  predicate DistinctNames(acc: seq<Slice>) {
    forall i, j :: 0 <= i < j < |acc| ==> acc[i].name != acc[j].name
  }

  /** `acc.find(item => item.name === category)`, as the index found or |acc|. */
  function FindSlice(acc: seq<Slice>, c: Category): (k: nat)
    ensures k <= |acc|
    ensures k < |acc| ==> acc[k].name == c
    ensures forall j :: 0 <= j < k ==> acc[j].name != c
  {
    if acc == [] then 0
    else if acc[0].name == c then 0
    else 1 + FindSlice(acc[1..], c)
  }

  lemma {:induction false} NamedAbsent(acc: seq<Slice>, c: Category)
    requires forall i :: 0 <= i < |acc| ==> acc[i].name != c
    ensures Named(acc, c) == []
  {
    if acc != [] {
      NamedAbsent(acc[..|acc| - 1], c);
    }
  }

  lemma {:induction false} NamedUnique(acc: seq<Slice>, k: nat)
    requires DistinctNames(acc) && k < |acc|
    ensures Named(acc, acc[k].name) == [acc[k]]
  {
    var n := |acc| - 1;
    if k == n {
      NamedAbsent(acc[..n], acc[k].name);
    } else {
      NamedUnique(acc[..n], k);
    }
  }

  lemma {:induction false} NamedUpdateOther(acc: seq<Slice>, k: nat, s: Slice, d: Category)
    requires k < |acc| && acc[k].name != d && s.name != d
    ensures Named(acc[k := s], d) == Named(acc, d)
  {
    var n := |acc| - 1;
    if k < n {
      assert acc[k := s][..n] == acc[..n][k := s];
      NamedUpdateOther(acc[..n], k, s, d);
    } else {
      assert acc[k := s][..n] == acc[..n];
    }
  }

  lemma NamedAppend(acc: seq<Slice>, s: Slice, c: Category)
    ensures Named(acc + [s], c) == Named(acc, c) + (if s.name == c then [s] else [])
  {
    assert (acc + [s])[..|acc|] == acc;
  }

  /** The entries of one series after one more entry, counted as a multiset. */
  lemma NamedStepCounts(pre: seq<Slice>, x: Slice, c: Category)
    ensures multiset(Named(pre + [x], c)) ==
      multiset(Named(pre, c)) + (if x.name == c then multiset{x} else multiset{})
  {
    NamedAppend(pre, x, c);
  }

  lemma NamedStepAll(pre: seq<Slice>, x: Slice)
    ensures multiset(Named(pre + [x], PJ1)) + multiset(Named(pre + [x], PJ2)) + multiset(Named(pre + [x], PJ3)) ==
      multiset(Named(pre, PJ1)) + multiset(Named(pre, PJ2)) + multiset(Named(pre, PJ3)) + multiset{x}
  {
    NamedStepCounts(pre, x, PJ1);
    NamedStepCounts(pre, x, PJ2);
    NamedStepCounts(pre, x, PJ3);
  }

  lemma {:induction false} NamedPartition(acc: seq<Slice>)
    ensures multiset(acc) == multiset(Named(acc, PJ1)) + multiset(Named(acc, PJ2)) + multiset(Named(acc, PJ3))
  {
    if acc != [] {
      var n := |acc| - 1;
      var pre, x := acc[..n], acc[n];
      assert acc == pre + [x];
      NamedStepAll(pre, x);
      NamedPartition(pre);
      assert multiset(acc) == multiset(pre) + multiset{x};
    }
  }

  /** Entries of PJ1, then of PJ2, then of PJ3 are in series order. */
  lemma SeriesOrder(a: seq<Slice>, b: seq<Slice>, c: seq<Slice>)
    requires forall i :: 0 <= i < |a| ==> a[i].name == PJ1
    requires forall i :: 0 <= i < |b| ==> b[i].name == PJ2
    requires forall i :: 0 <= i < |c| ==> c[i].name == PJ3
    ensures var r := a + b + c; forall i, j :: 0 <= i < j < |r| ==> Rank(r[i].name) <= Rank(r[j].name)
  {
    var r := a + b + c;
    forall i | 0 <= i < |r| ensures Rank(r[i].name) == if i < |a| then 0 else if i < |a| + |b| then 1 else 2 {
      if i < |a| {
        assert r[i] == a[i];
      } else if i < |a| + |b| {
        assert r[i] == b[i - |a|];
      } else {
        assert r[i] == c[i - |a| - |b|];
      }
    }
  }

  /**
   * `pieChartData.sort((a, b) => order.indexOf(a.name) - order.indexOf(b.name))`: a stable
   * sort by series, which takes the entries of PJ1, then of PJ2, then of PJ3.
   */
  function SortBySeries(acc: seq<Slice>): (r: seq<Slice>)
    ensures multiset(r) == multiset(acc)
    ensures forall i, j :: 0 <= i < j < |r| ==> Rank(r[i].name) <= Rank(r[j].name)
  {
    NamedPartition(acc);
    SeriesOrder(Named(acc, PJ1), Named(acc, PJ2), Named(acc, PJ3));
    Named(acc, PJ1) + Named(acc, PJ2) + Named(acc, PJ3)
  }

  /** Adding to the entry found for a series changes that series' entries only. */
  lemma UpdateNamed(acc: seq<Slice>, k: nat, amount: int, d: Category)
    requires DistinctNames(acc) && k < |acc|
    ensures Named(acc[k := Slice(acc[k].name, acc[k].value + amount)], d) ==
      if d == acc[k].name then [Slice(d, acc[k].value + amount)] else Named(acc, d)
  {
    var acc' := acc[k := Slice(acc[k].name, acc[k].value + amount)];
    if d == acc[k].name {
      assert DistinctNames(acc');
      NamedUnique(acc', k);
    } else {
      NamedUpdateOther(acc, k, acc'[k], d);
    }
  }

  /** Pushing an entry for a series that has none yet adds it to that series' entries only. */
  lemma AppendNamed(acc: seq<Slice>, s: Slice, d: Category)
    requires forall j :: 0 <= j < |acc| ==> acc[j].name != s.name
    ensures Named(acc + [s], d) == if d == s.name then [s] else Named(acc, d)
  {
    if d == s.name {
      NamedAbsent(acc, d);
    }
    NamedAppend(acc, s, d);
  }

  /** The entries of one series after one more project. */
  lemma BucketStep(pre: seq<Project>, p: Project, d: Category)
    ensures Bucket(pre + [p], d) ==
      if PieCategory(p.id) == d then [Slice(d, CategoryBudget(pre, d) + p.budget)]
      else Bucket(pre, d)
  {
    var q := pre + [p];
    assert q[..|q| - 1] == pre && q[|q| - 1] == p;
    assert Occurs(q, d) <==> Occurs(pre, d) || PieCategory(p.id) == d;
    if PieCategory(p.id) == d {
      if !Occurs(pre, d) {
        AbsentIsZero(pre, d);
      }
      assert CategoryBudget(q, d) == CategoryBudget(pre, d) + p.budget;
    } else {
      assert CategoryBudget(q, d) == CategoryBudget(pre, d);
    }
  }

  /** The accumulator holds, for each series, exactly the entry the chart has for a prefix of the projects. */
  predicate Tracks(acc: seq<Slice>, prefix: seq<Project>) {
    && DistinctNames(acc)
    && Named(acc, PJ1) == Bucket(prefix, PJ1)
    && Named(acc, PJ2) == Bucket(prefix, PJ2)
    && Named(acc, PJ3) == Bucket(prefix, PJ3)
  }

  /** One series stays tracked when its existing entry, or another series' entry, grows. */
  lemma UpdateTracksOne(acc: seq<Slice>, pre: seq<Project>, p: Project, k: nat, d: Category)
    requires DistinctNames(acc) && k < |acc| && acc[k].name == PieCategory(p.id)
    requires Named(acc, d) == Bucket(pre, d)
    ensures Named(acc[k := Slice(acc[k].name, acc[k].value + p.budget)], d) == Bucket(pre + [p], d)
  {
    UpdateNamed(acc, k, p.budget, d);
    BucketStep(pre, p, d);
    if d == acc[k].name {
      NamedUnique(acc, k);
      assert Bucket(pre, d) == [acc[k]];
    }
  }

  /** Adding to the series' existing entry keeps Tracks. */
  lemma UpdateTracks(acc: seq<Slice>, pre: seq<Project>, p: Project, k: nat)
    requires Tracks(acc, pre) && k < |acc| && acc[k].name == PieCategory(p.id)
    ensures Tracks(acc[k := Slice(acc[k].name, acc[k].value + p.budget)], pre + [p])
  {
    var acc' := acc[k := Slice(acc[k].name, acc[k].value + p.budget)];
    assert DistinctNames(acc') by {
      forall j | 0 <= j < |acc| ensures acc'[j].name == acc[j].name { }
    }
    UpdateTracksOne(acc, pre, p, k, PJ1);
    UpdateTracksOne(acc, pre, p, k, PJ2);
    UpdateTracksOne(acc, pre, p, k, PJ3);
  }

  /** One series stays tracked when an entry for a series without one is pushed. */
  lemma AppendTracksOne(acc: seq<Slice>, pre: seq<Project>, p: Project, d: Category)
    requires forall j :: 0 <= j < |acc| ==> acc[j].name != PieCategory(p.id)
    requires Named(acc, d) == Bucket(pre, d)
    ensures Named(acc + [Slice(PieCategory(p.id), p.budget)], d) == Bucket(pre + [p], d)
  {
    var s := Slice(PieCategory(p.id), p.budget);
    AppendNamed(acc, s, d);
    BucketStep(pre, p, d);
    if d == s.name {
      NamedAbsent(acc, d);
      assert !Occurs(pre, d);
      AbsentIsZero(pre, d);
      assert Bucket(pre + [p], d) == [s];
    }
  }

  /** Pushing a new entry for a series without one keeps Tracks. */
  lemma AppendTracks(acc: seq<Slice>, pre: seq<Project>, p: Project)
    requires Tracks(acc, pre) && forall j :: 0 <= j < |acc| ==> acc[j].name != PieCategory(p.id)
    ensures Tracks(acc + [Slice(PieCategory(p.id), p.budget)], pre + [p])
  {
    var s := Slice(PieCategory(p.id), p.budget);
    assert DistinctNames(acc + [s]) by {
      forall i, j | 0 <= i < j < |acc| + 1 ensures (acc + [s])[i].name != (acc + [s])[j].name {
        if j == |acc| {
          assert (acc + [s])[i] == acc[i];
        } else {
          assert (acc + [s])[i] == acc[i] && (acc + [s])[j] == acc[j];
        }
      }
    }
    AppendTracksOne(acc, pre, p, PJ1);
    AppendTracksOne(acc, pre, p, PJ2);
    AppendTracksOne(acc, pre, p, PJ3);
  }

  /** pieChartData: the reduce over the projects followed by the sort. */
  method PieChartData(ps: seq<Project>) returns (data: seq<Slice>)
    ensures data == PieSpec(ps)
  {
    var acc: seq<Slice> := [];
    var i := 0;
    while i < |ps|
      invariant 0 <= i <= |ps|
      invariant Tracks(acc, ps[..i])
    {
      var p := ps[i];
      var c := PieCategory(p.id);
      var k := FindSlice(acc, c);
      assert ps[..i + 1] == ps[..i] + [p];
      if k < |acc| {
        UpdateTracks(acc, ps[..i], p, k);
        acc := acc[k := Slice(c, acc[k].value + p.budget)];
      } else {
        AppendTracks(acc, ps[..i], p);
        acc := acc + [Slice(c, p.budget)];
      }
      i := i + 1;
    }
    assert ps[..i] == ps;
    data := SortBySeries(acc);
  }
}
