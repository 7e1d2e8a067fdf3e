/**
 * The merge in App.tsx's fetch effect: the remote sheet decides which projects exist, in
 * which order, and how much each has spent; the fallback catalog (MOCK_PROJECTS) fills in
 * a name, group or category the sheet left empty and a budget it left at zero or below.
 */
module Reconcile {
  import opened Types
  import opened Totals

  /** The index of the first catalog entry with this id, or |catalog| when there is none. */
  function FirstIndex(catalog: seq<Project>, id: int): (k: nat)
    ensures k <= |catalog|
    ensures k < |catalog| ==> catalog[k].id == id
    ensures forall j :: 0 <= j < k ==> catalog[j].id != id
  {
    if catalog == [] then 0
    else if catalog[0].id == id then 0
    else 1 + FirstIndex(catalog[1..], id)
  }

  /** MOCK_PROJECTS.find(m => m.id === id) */
  function FindById(catalog: seq<Project>, id: int): (r: Option<Project>)
    ensures r.None? <==> forall j :: 0 <= j < |catalog| ==> catalog[j].id != id
    ensures r.Some? ==> r.value.id == id && r.value == catalog[FirstIndex(catalog, id)]
  {
    var k := FirstIndex(catalog, id);
    if k < |catalog| then Some(catalog[k]) else None
  }

  /** `a || b` on strings: the first unless it is empty. */
  function OrElse(a: string, b: string): string {
    if a != "" then a else b
  }

  /** One remote entry, recovered from its catalog match when there is one. */
  function MergeEntry(remote: Project, mock: Option<Project>): Project {
    match mock
    case None => remote
    case Some(m) =>
      remote.(
        name := OrElse(remote.name, m.name),
        budget := if remote.budget > 0 then remote.budget else m.budget,
        group := OrElse(remote.group, m.group),
        category := OrElse(remote.category, m.category),
        spent := remote.spent)
  }

  /** The project list the session adopts after fetching `remote`. */
  function Merge(remote: seq<Project>, catalog: seq<Project>): (r: seq<Project>)
    ensures remote == [] ==> r == catalog
    ensures remote != [] ==> |r| == |remote|
    ensures remote != [] ==> forall i :: 0 <= i < |r| ==>
      var rem, m := remote[i], FindById(catalog, remote[i].id);
      && (m.None? ==> r[i] == rem)
      && r[i].id == rem.id && r[i].owner == rem.owner
      && r[i].status == rem.status && r[i].spent == rem.spent
      && (m.Some? ==>
          && r[i].name == (if rem.name != "" then rem.name else m.value.name)
          && r[i].group == (if rem.group != "" then rem.group else m.value.group)
          && r[i].category == (if rem.category != "" then rem.category else m.value.category)
          && r[i].budget == (if rem.budget > 0 then rem.budget else m.value.budget))
  {
    if remote == [] then catalog
    else seq(|remote|, i requires 0 <= i < |remote| => MergeEntry(remote[i], FindById(catalog, remote[i].id)))
  }

  /** Merging never changes what a project has spent, so the total spent is the sheet's. */
  lemma {:induction false} MergeKeepsSpent(remote: seq<Project>, catalog: seq<Project>)
    requires remote != []
    ensures SumSpent(Merge(remote, catalog)) == SumSpent(remote)
  {
    SameSpentSameSum(Merge(remote, catalog), remote);
  }

  lemma {:induction false} SameSpentSameSum(a: seq<Project>, b: seq<Project>)
    requires |a| == |b| && forall i :: 0 <= i < |a| ==> a[i].spent == b[i].spent
    ensures SumSpent(a) == SumSpent(b)
  {
    if a != [] {
      SameSpentSameSum(a[..|a| - 1], b[..|b| - 1]);
    }
  }

  /** Merging what was already merged against the same catalog changes nothing. */
  lemma {:induction false} MergeIdempotent(remote: seq<Project>, catalog: seq<Project>)
    requires remote != []
    ensures Merge(Merge(remote, catalog), catalog) == Merge(remote, catalog)
  {
    var once := Merge(remote, catalog);
    var twice := Merge(once, catalog);
    forall i | 0 <= i < |remote| ensures twice[i] == once[i] {
      assert once[i].id == remote[i].id;
    }
  }
}
