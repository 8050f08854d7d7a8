/** The partner's home page: the bundled projects of one fixed partner, the
    first active one, and the summary cards over them. */
module PartnerDashboard {
  import opened Wrappers
  import opened Models
  import opened Seqs
  import opened Web
  import UseUser

  /** The partner whose projects the page shows, whoever is signed in. */
  const FixedPartner := "Green Earth Initiative"
  const DefaultName := "Partner"

  /** The name the mount effect greets with; `None` when the stored user is
      not JSON and `JSON.parse` throws out of the effect. */
  function MountName(local: Storage): Option<string> {
    if UseUser.UnreadableUser(local) then None else Some(UseUser.NameOr(local, DefaultName))
  }

  /** The greeting uses the stored user's name when it has one and "Partner"
      when no user is stored; only unreadable text stops the effect. */
  lemma GreetsStoredName(local: Storage)
    ensures MountName(local).None? <==> UseUser.UnreadableUser(local)
    ensures var u := UseUser.StoredUser(local);
      u.Some? && u.value.name != "" ==> MountName(local) == Some(u.value.name)
    ensures !Present(GetItem(local, UseUser.UserKey)) ==> MountName(local) == Some(DefaultName)
  {
  }

  predicate IsActive(p: RestorationProject) {
    p.status == Active
  }

  /** `myProjects`: the projects whose partner is exactly the fixed partner. */
  function MyProjects(all: seq<RestorationProject>): (r: seq<RestorationProject>)
    ensures forall p :: p in r <==> p in all && p.partner == FixedPartner
    ensures IsSubsequence(r, all)
  {
    FilterIsSubsequence(all, (p: RestorationProject) => p.partner == FixedPartner);
    Filter(all, (p: RestorationProject) => p.partner == FixedPartner)
  }

  /** `activeProject`: the first active project of the partner. */
  function ActiveProject(mine: seq<RestorationProject>): Option<RestorationProject> {
    Find(mine, IsActive)
  }

  /** "Active Projects" */
  function ActiveCount(mine: seq<RestorationProject>): nat {
    Count(mine, IsActive)
  }

  /** There is an active project to show exactly when the count is not 0,
      and it is the earliest active one. */
  lemma ActiveProjectFirst(mine: seq<RestorationProject>)
    ensures ActiveProject(mine).Some? <==> ActiveCount(mine) > 0
    ensures ActiveProject(mine).Some? ==>
      exists k :: 0 <= k < |mine| && mine[k] == ActiveProject(mine).value && IsActive(mine[k])
                  && forall j :: 0 <= j < k ==> !IsActive(mine[j])
  {
    if ActiveCount(mine) > 0 {
      var f := Filter(mine, IsActive);
      assert f[0] in f;
    }
  }

  /** "Trees Planted": `reduce((acc, p) => acc + p.plantedTrees, 0)` */
  function TreesPlanted(ps: seq<RestorationProject>): int {
    if ps == [] then 0 else ps[0].plantedTrees + TreesPlanted(ps[1..])
  }

  /** The trees of two lists of projects add up. */
  lemma {:induction false} TreesPlantedAppend(a: seq<RestorationProject>, b: seq<RestorationProject>)
    ensures TreesPlanted(a + b) == TreesPlanted(a) + TreesPlanted(b)
  {
    if a == [] {
      assert a + b == b;
    } else {
      TreesPlantedAppend(a[1..], b);
      assert (a + b)[1..] == a[1..] + b;
    }
  }

  /** With no negative counts, the total is at least what any one project planted. */
  lemma {:induction false} TreesPlantedBound(ps: seq<RestorationProject>, k: nat)
    requires forall i :: 0 <= i < |ps| ==> ps[i].plantedTrees >= 0
    requires k < |ps|
    ensures ps[k].plantedTrees <= TreesPlanted(ps)
  {
    NoNegativeTrees(ps[1..]);
    if k > 0 {
      TreesPlantedBound(ps[1..], k - 1);
    }
  }

  lemma {:induction false} NoNegativeTrees(ps: seq<RestorationProject>)
    requires forall i :: 0 <= i < |ps| ==> ps[i].plantedTrees >= 0
    ensures TreesPlanted(ps) >= 0
  {
    if ps != [] {
      NoNegativeTrees(ps[1..]);
    }
  }

  /** `flatMap((p) => p.species)` */
  function AllSpecies(ps: seq<RestorationProject>): (r: seq<string>)
    ensures forall s :: s in r <==> exists p :: p in ps && s in p.species
  {
    if ps == [] then []
    else
      var rest := AllSpecies(ps[1..]);
      assert forall p :: p in ps <==> p == ps[0] || p in ps[1..];
      ps[0].species + rest
  }

  /** "Species Diversity": `new Set(...).size` */
  function SpeciesDiversity(ps: seq<RestorationProject>): nat {
    |Elements(AllSpecies(ps))|
  }

  /** The diversity counts each species once, however many projects plant
      it, so it is at most the length of all the species lists together. */
  lemma DiversityBound(ps: seq<RestorationProject>)
    ensures SpeciesDiversity(ps) <= |AllSpecies(ps)|
    ensures forall s :: s in Elements(AllSpecies(ps)) <==> exists p :: p in ps && s in p.species
  {
    ElementsBound(AllSpecies(ps));
  }
}
