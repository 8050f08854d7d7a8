/** `SeedCollectionRepository`: seed collections kept in a shared in-memory
    list (`seedCollectionsMockData`) mirrored into `localStorage` under the
    `seed_collections` key. Reads never look at what is stored. */
module SeedRepository {
  import opened Wrappers
  import opened Models
  import opened Seqs
  import opened Web

  const StorageKey := "seed_collections"

  /** The browser's `localStorage` and the shared default list. */
  datatype SeedStore = SeedStore(local: Storage, defaults: seq<SeedCollection>)

  /** A repository call: what it returns and the store after it. */
  datatype SeedStep<T> = SeedStep(result: T, after: SeedStore)

  /** `getAll()`: writes the default list to storage and returns that list. */
  function GetAllStep(st: SeedStore): SeedStep<seq<SeedCollection>> {
    SeedStep(st.defaults, SeedStore(st.local[StorageKey := CollectionsJson(st.defaults)], st.defaults))
  }

  /** `create(data)`, with `id` for `crypto.randomUUID()`. The list it pushes
      onto is the default list itself. */
  function CreateStep(st: SeedStore, d: CollectionData, id: string): SeedStep<SeedCollection> {
    var c := NewCollection(id, d);
    var list := st.defaults + [c];
    SeedStep(c, SeedStore(st.local[StorageKey := CollectionsJson(list)], list))
  }

  /** `update(id, updates)`, `None` being the `null` result. The assignment
      by index changes the default list itself. */
  function UpdateStep(st: SeedStore, id: string, u: CollectionUpdates): SeedStep<Option<SeedCollection>> {
    var all := st.defaults;
    var i := FindIndex(all, (c: SeedCollection) => c.id == id);
    if i == |all| then SeedStep(None, GetAllStep(st).after)
    else
      var list := all[i := MergeCollection(all[i], u)];
      SeedStep(Some(list[i]), SeedStore(st.local[StorageKey := CollectionsJson(list)], list))
  }

  /** `delete(id)`: the filtered copy goes to storage only. */
  function DeleteStep(st: SeedStore, id: string): SeedStep<bool> {
    var all := st.defaults;
    var filtered := Filter(all, (c: SeedCollection) => c.id != id);
    if |filtered| == |all| then SeedStep(false, GetAllStep(st).after)
    else SeedStep(true, SeedStore(st.local[StorageKey := CollectionsJson(filtered)], all))
  }

  // ------------------------------------------------------------- properties

  /** `getAll` returns the default list whatever storage holds, and
      overwrites storage with it. */
  lemma GetAllIgnoresStorage(st: SeedStore, other: Storage)
    ensures GetAllStep(st).result == st.defaults
    ensures GetAllStep(SeedStore(other, st.defaults)).result == GetAllStep(st).result
    ensures GetAllStep(st).after.local[StorageKey] == CollectionsJson(st.defaults)
  {
  }

  /** A created record gets the id and the data, and every later `getAll`
      sees it at the end of the list. */
  lemma CreateIsSeenLater(st: SeedStore, d: CollectionData, id: string)
    ensures var step := CreateStep(st, d, id);
      && step.result.id == id && Data(step.result) == d
      && GetAllStep(step.after).result == st.defaults + [step.result]
  {
  }

  /** An unknown id gives `null`; storage only gets `getAll`'s rewrite. */
  lemma UpdateUnknownId(st: SeedStore, id: string, u: CollectionUpdates)
    requires forall c :: c in st.defaults ==> c.id != id
    ensures UpdateStep(st, id, u) == SeedStep(None, GetAllStep(st).after)
  {
  }

  /** A known id merges at the first record with it; the others stay, and
      the change sticks because the default list itself was changed. */
  lemma UpdateKnownId(st: SeedStore, id: string, u: CollectionUpdates, k: nat)
    requires k < |st.defaults| && st.defaults[k].id == id
    requires forall j :: 0 <= j < k ==> st.defaults[j].id != id
    ensures var step := UpdateStep(st, id, u);
      var list := GetAllStep(step.after).result;
      && step.result == Some(MergeCollection(st.defaults[k], u))
      && |list| == |st.defaults|
      && list[k] == MergeCollection(st.defaults[k], u)
      && (forall j :: 0 <= j < |list| && j != k ==> list[j] == st.defaults[j])
  {
    assert FindIndex(st.defaults, (c: SeedCollection) => c.id == id) == k;
  }

  /** `delete` answers `true` exactly when some record has the id. */
  lemma DeleteAnswer(st: SeedStore, id: string)
    ensures DeleteStep(st, id).result <==> exists c :: c in st.defaults && c.id == id
  {
    var p := (c: SeedCollection) => c.id != id;
    var filtered := Filter(st.defaults, p);
    if exists c :: c in st.defaults && c.id == id {
      var c :| c in st.defaults && c.id == id;
      FilterMissesOne(st.defaults, p, c);
    } else {
      FilterKeepsAll(st.defaults, p);
    }
  }

  /** A successful `delete` writes the list without the record, but the next
      `getAll` rewrites storage from the unchanged default list, so the
      record is back. */
  lemma DeleteDoesNotStick(st: SeedStore, id: string)
    requires exists c :: c in st.defaults && c.id == id
    ensures var step := DeleteStep(st, id);
      && step.result
      && step.after.local[StorageKey] == CollectionsJson(Filter(st.defaults, (c: SeedCollection) => c.id != id))
      && GetAllStep(step.after).result == st.defaults
      && exists c :: c in GetAllStep(step.after).result && c.id == id
  {
    DeleteAnswer(st, id);
  }

  // ------------------------------------------------------------------ class

  /** The repository object, shared by every page through the module-level list. */
  class SeedCollectionRepository {
    const browser: Browser
    var defaultList: seq<SeedCollection>

    constructor (browser: Browser, defaults: seq<SeedCollection>)
      ensures this.browser == browser && defaultList == defaults
    {
      this.browser := browser;
      defaultList := defaults;
    }

    function State(): SeedStore
      reads this, browser
    {
      SeedStore(browser.local, defaultList)
    }

    method GetAll() returns (r: seq<SeedCollection>)
      modifies browser`local
      ensures SeedStep(r, State()) == GetAllStep(old(State()))
    {
      browser.SetLocal(StorageKey, CollectionsJson(defaultList));
      r := defaultList;
    }

    method Create(d: CollectionData, id: string) returns (r: SeedCollection)
      modifies browser`local, this`defaultList
      ensures SeedStep(r, State()) == CreateStep(old(State()), d, id)
    {
      var collections := GetAll();
      r := NewCollection(id, d);
      collections := collections + [r];
      defaultList := collections;
      browser.SetLocal(StorageKey, CollectionsJson(collections));
    }

    method Update(id: string, u: CollectionUpdates) returns (r: Option<SeedCollection>)
      modifies browser`local, this`defaultList
      ensures SeedStep(r, State()) == UpdateStep(old(State()), id, u)
    {
      var collections := GetAll();
      var index := FindIndex(collections, (c: SeedCollection) => c.id == id);
      if index == |collections| {
        return None;
      }
      collections := collections[index := MergeCollection(collections[index], u)];
      defaultList := collections;
      browser.SetLocal(StorageKey, CollectionsJson(collections));
      r := Some(collections[index]);
    }

    method Delete(id: string) returns (r: bool)
      modifies browser`local
      ensures SeedStep(r, State()) == DeleteStep(old(State()), id)
    {
      var collections := GetAll();
      var filtered := Filter(collections, (c: SeedCollection) => c.id != id);
      if |filtered| == |collections| {
        return false;
      }
      browser.SetLocal(StorageKey, CollectionsJson(filtered));
      r := true;
    }
  }
}
