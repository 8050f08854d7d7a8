/** `SeedCollectionService`: checks in front of the seed collection
    repository, answered as `{ success, data?, error? }`. */
module SeedCollectionService {
  import opened Wrappers
  import opened Models
  import opened Text
  import opened SeedRepository

  const MotherTreeRequired := "Mother tree name is required"
  const QuantityNotPositive := "Quantity must be greater than 0"
  const CollectionNotFound := "Collection not found"

  /** The first check of `addCollection` that the data fails. */
  function AddError(d: CollectionData): (e: Option<string>)
    ensures e.None? <==> !IsBlank(d.motherTree) && d.quantity > 0.0
    ensures IsBlank(d.motherTree) ==> e == Some(MotherTreeRequired)
    ensures !IsBlank(d.motherTree) && d.quantity <= 0.0 ==> e == Some(QuantityNotPositive)
  {
    if Trim(d.motherTree) == "" then Some(MotherTreeRequired)
    else if d.quantity <= 0.0 then Some(QuantityNotPositive)
    else None
  }

  /** `updateCollection` only checks a quantity that is there. */
  function UpdateError(u: CollectionUpdates): (e: Option<string>)
    ensures e.Some? <==> u.quantity.Some? && u.quantity.value <= 0.0
    ensures e.Some? ==> e.value == QuantityNotPositive
  {
    if u.quantity.Some? && u.quantity.value <= 0.0 then Some(QuantityNotPositive) else None
  }

  function AddCollectionStep(st: SeedStore, d: CollectionData, id: string): SeedStep<Reply<SeedCollection>> {
    match AddError(d)
    case Some(e) => SeedStep(Fail(e), st)
    case None =>
      var c := CreateStep(st, d, id);
      SeedStep(Succeed(c.result), c.after)
  }

  function UpdateCollectionStep(st: SeedStore, id: string, u: CollectionUpdates): SeedStep<Reply<SeedCollection>> {
    match UpdateError(u)
    case Some(e) => SeedStep(Fail(e), st)
    case None =>
      var up := UpdateStep(st, id, u);
      match up.result
      case None => SeedStep(Fail(CollectionNotFound), up.after)
      case Some(c) => SeedStep(Succeed(c), up.after)
  }

  function DeleteCollectionStep(st: SeedStore, id: string): SeedStep<Reply<SeedCollection>> {
    var del := DeleteStep(st, id);
    SeedStep(if del.result then Reply(true, None, None) else Fail(CollectionNotFound), del.after)
  }

  // ------------------------------------------------------------- properties

  /** A blank mother tree or a quantity that is not positive is refused, the
      mother tree first, and nothing is created. */
  lemma AddRejects(st: SeedStore, d: CollectionData, id: string)
    requires IsBlank(d.motherTree) || d.quantity <= 0.0
    ensures AddCollectionStep(st, d, id) ==
            SeedStep(Fail(if IsBlank(d.motherTree) then MotherTreeRequired else QuantityNotPositive), st)
  {
  }

  /** Valid data is created through the repository and returned. */
  lemma AddStores(st: SeedStore, d: CollectionData, id: string)
    requires !IsBlank(d.motherTree) && d.quantity > 0.0
    ensures var step := AddCollectionStep(st, d, id);
      && step.result.success && step.result.data == Some(NewCollection(id, d))
      && GetAllStep(step.after).result == st.defaults + [NewCollection(id, d)]
  {
    CreateIsSeenLater(st, d, id);
  }

  /** An update without a quantity, or with an empty mother tree, passes the
      checks; an unknown id is then "Collection not found". */
  lemma UpdateChecksOnlyQuantity(st: SeedStore, id: string, u: CollectionUpdates)
    requires u.quantity.None? || u.quantity.value > 0.0
    requires forall c :: c in st.defaults ==> c.id != id
    ensures UpdateCollectionStep(st, id, u) == SeedStep(Fail(CollectionNotFound), GetAllStep(st).after)
  {
    UpdateUnknownId(st, id, u);
  }

  /** A repository `false` becomes "Collection not found", a `true` a bare success. */
  lemma DeleteReply(st: SeedStore, id: string)
    ensures var r := DeleteCollectionStep(st, id).result;
      && (r.success <==> exists c :: c in st.defaults && c.id == id)
      && (!r.success ==> r.error == Some(CollectionNotFound))
      && (r.success ==> r.data.None? && r.error.None?)
  {
    DeleteAnswer(st, id);
  }

  // ------------------------------------------------------------------ class

  class SeedCollectionService {
    const repo: SeedCollectionRepository

    constructor (repo: SeedCollectionRepository)
      ensures this.repo == repo
    {
      this.repo := repo;
    }

    method GetAllCollections() returns (r: seq<SeedCollection>)
      modifies repo.browser`local
      ensures SeedStep(r, repo.State()) == GetAllStep(old(repo.State()))
    {
      r := repo.GetAll();
    }

    method AddCollection(d: CollectionData, id: string) returns (r: Reply<SeedCollection>)
      modifies repo.browser`local, repo`defaultList
      ensures SeedStep(r, repo.State()) == AddCollectionStep(old(repo.State()), d, id)
    {
      if Trim(d.motherTree) == "" {
        return Fail(MotherTreeRequired);
      }
      if d.quantity <= 0.0 {
        return Fail(QuantityNotPositive);
      }
      var c := repo.Create(d, id);
      r := Succeed(c);
    }

    method UpdateCollection(id: string, u: CollectionUpdates) returns (r: Reply<SeedCollection>)
      modifies repo.browser`local, repo`defaultList
      ensures SeedStep(r, repo.State()) == UpdateCollectionStep(old(repo.State()), id, u)
    {
      if u.quantity.Some? && u.quantity.value <= 0.0 {
        return Fail(QuantityNotPositive);
      }
      var c := repo.Update(id, u);
      if c.None? {
        return Fail(CollectionNotFound);
      }
      r := Succeed(c.value);
    }

    method DeleteCollection(id: string) returns (r: Reply<SeedCollection>)
      modifies repo.browser`local
      ensures SeedStep(r, repo.State()) == DeleteCollectionStep(old(repo.State()), id)
    {
      var deleted := repo.Delete(id);
      if !deleted {
        return Fail(CollectionNotFound);
      }
      r := Reply(true, None, None);
    }
  }
}
