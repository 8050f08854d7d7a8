/** `SalesRepository`: the sales list kept under the `nursery_sales` key of
    `localStorage`, seeded from the shared default list on first read. */
module SalesRepository {
  import opened Wrappers
  import opened Models
  import opened Seqs
  import opened Text
  import opened Web

  const StorageKey := "nursery_sales"

  /** What the repository works on: the browser's `localStorage` and the
      default list (`mockSales`), which `create` and `update` change in
      place while storage has not been seeded. */
  datatype Store = Store(local: Storage, defaults: seq<Sale>)

  /** A repository call: what it returns (or throws) and the store after it. */
  datatype Step<T> = Step(result: Outcome<T>, after: Store)

  /** `getAll` falls back on the default list: nothing truthy is stored. */
  predicate Unseeded(st: Store) {
    !Present(GetItem(st.local, StorageKey))
  }

  /** The whole list `getAll()` returns: the parsed stored list, or the
      defaults. Stored text that is not JSON makes `JSON.parse` throw. The
      JSON of another record stored under the key is taken as a throw too:
      the source hands that value on as it is, and it is not a list of sales. */
  function Listed(st: Store): Outcome<seq<Sale>> {
    if Unseeded(st) then Ok(st.defaults)
    else match st.local[StorageKey]
      case SalesJson(s) => Ok(s)
      case _ => Thrown(JsonError)
  }

  /** The store after `getAll`: an unseeded key now holds the defaults. */
  function Seeded(st: Store): Store {
    if Unseeded(st) then Store(st.local[StorageKey := SalesJson(st.defaults)], st.defaults) else st
  }

  /** `if (nurseryId) sales = sales.filter(s => s.nurseryId === nurseryId)` */
  function ForNursery(sales: seq<Sale>, nurseryId: Option<string>): seq<Sale> {
    if Truthy(nurseryId) then Filter(sales, (s: Sale) => s.nurseryId == nurseryId.value) else sales
  }

  /** `SALE-<year>-<n padded to three digits>` */
  function SaleNumber(year: nat, n: nat): string {
    "SALE-" + NatToString(year) + "-" + Pad3(n)
  }

  /** `getAll(nurseryId)` */
  function GetAllStep(st: Store, nurseryId: Option<string>): Step<seq<Sale>> {
    match Listed(st)
    case Thrown(m) => Step(Thrown(m), st)
    case Ok(all) => Step(Ok(ForNursery(all, nurseryId)), Seeded(st))
  }

  /** Writes `list` back. While unseeded, the list `getAll` handed out was the
      default list itself, so it changes too. */
  function WriteBack(st: Store, list: seq<Sale>): Store {
    Store(st.local[StorageKey := SalesJson(list)], if Unseeded(st) then list else st.defaults)
  }

  /** `create(fields)` with `id` for `crypto.randomUUID()` and `year` for the current year. */
  function CreateStep(st: Store, f: SaleFields, id: string, year: nat): Step<Sale> {
    match Listed(st)
    case Thrown(m) => Step(Thrown(m), st)
    case Ok(all) =>
      var sale := NewSale(id, SaleNumber(year, |all| + 1), f);
      Step(Ok(sale), WriteBack(st, all + [sale]))
  }

  /** `update(id, updates)`; `Ok(None)` is the `null` result. */
  function UpdateStep(st: Store, id: string, u: SaleUpdates): Step<Option<Sale>> {
    match Listed(st)
    case Thrown(m) => Step(Thrown(m), st)
    case Ok(all) =>
      var i := FindIndex(all, (s: Sale) => s.id == id);
      if i == |all| then Step(Ok(None), Seeded(st))
      else
        var list := all[i := MergeSale(all[i], u)];
        Step(Ok(Some(list[i])), WriteBack(st, list))
  }

  /** `getById(id)`; `Ok(None)` is the `null` result. */
  function GetByIdStep(st: Store, id: string): Step<Option<Sale>> {
    match Listed(st)
    case Thrown(m) => Step(Thrown(m), st)
    case Ok(all) => Step(Ok(Find(all, (s: Sale) => s.id == id)), Seeded(st))
  }

  predicate DistinctIds(sales: seq<Sale>) {
    forall i, j :: 0 <= i < j < |sales| ==> sales[i].id != sales[j].id
  }

  // ------------------------------------------------------------- properties

  /** With nothing stored, `getAll` seeds the key with the default list and
      returns it; with a stored list it returns that list and writes nothing. */
  lemma GetAllSeedsOrReads(st: Store)
    ensures Unseeded(st) ==>
      GetAllStep(st, None) == Step(Ok(st.defaults), Store(st.local[StorageKey := SalesJson(st.defaults)], st.defaults))
    ensures !Unseeded(st) && st.local[StorageKey].SalesJson? ==>
      GetAllStep(st, None) == Step(Ok(st.local[StorageKey].sales), st)
    ensures !Unseeded(st) && !st.local[StorageKey].SalesJson? ==> GetAllStep(st, None).result.Thrown?
  {
  }

  /** `getAll(nurseryId)` returns exactly the stored sales of that nursery, in
      stored order; an absent or empty id returns all of them. */
  lemma GetAllByNursery(st: Store, nurseryId: Option<string>)
    requires Listed(st).Ok?
    ensures var all, r := Listed(st).value, GetAllStep(st, nurseryId).result.value;
      && (Truthy(nurseryId) ==> (forall s :: s in r <==> s in all && s.nurseryId == nurseryId.value))
      && IsSubsequence(r, all)
      && (!Truthy(nurseryId) ==> r == all)
  {
    var all := Listed(st).value;
    if Truthy(nurseryId) {
      FilterIsSubsequence(all, (s: Sale) => s.nurseryId == nurseryId.value);
    } else {
      SubsequenceOfItself(all);
    }
  }

  lemma {:induction false} SubsequenceOfItself<T>(s: seq<T>)
    ensures IsSubsequence(s, s)
  {
    if s != [] {
      SubsequenceOfItself(s[1..]);
    }
  }

  /** Whatever was read, the store reads back what was written: `getAll`
      after `create` lists the old list with the new sale at the end. */
  lemma CreateAppends(st: Store, f: SaleFields, id: string, year: nat)
    requires Listed(st).Ok?
    ensures var all, step := Listed(st).value, CreateStep(st, f, id, year);
      && step.result.Ok?
      && Listed(step.after) == Ok(all + [step.result.value])
      && step.after.local == st.local[StorageKey := SalesJson(all + [step.result.value])]
  {
  }

  /** The new sale holds the given fields, the given id and a sale number
      counted over ALL stored sales, whatever nursery they belong to. */
  lemma CreateNumbersOverAllSales(st: Store, f: SaleFields, id: string, year: nat, nurseryId: Option<string>)
    requires Listed(st).Ok?
    ensures var sale := CreateStep(st, f, id, year).result.value;
      && sale.id == id && Fields(sale) == f
      && sale.saleNumber == SaleNumber(year, |Listed(st).value| + 1)
      && |GetAllStep(st, nurseryId).result.value| <= |Listed(st).value|
  {
  }

  /** On an empty store two creates in a row number their sales `-001` and `-002`. */
  lemma TwoCreatesOnEmptyStore(local: Storage, f: SaleFields, g: SaleFields, id1: string, id2: string, year: nat)
    requires StorageKey !in local
    ensures var first := CreateStep(Store(local, []), f, id1, year);
      var second := CreateStep(first.after, g, id2, year);
      && first.result.value.saleNumber == "SALE-" + NatToString(year) + "-001"
      && second.result.value.saleNumber == "SALE-" + NatToString(year) + "-002"
  {
    var st := Store(local, []);
    var first := CreateStep(st, f, id1, year);
    assert Listed(st) == Ok([]);
    CreateNumbersOverAllSales(st, f, id1, year, None);
    CreateAppends(st, f, id1, year);
    assert [] + [first.result.value] == [first.result.value];
    CreateNumbersOverAllSales(first.after, g, id2, year, None);
    FirstSaleNumbers(year);
  }

  /** The first two sale numbers of a year. */
  lemma FirstSaleNumbers(year: nat)
    ensures SaleNumber(year, 1) == "SALE-" + NatToString(year) + "-001"
    ensures SaleNumber(year, 2) == "SALE-" + NatToString(year) + "-002"
  {
    assert NatToString(1) == "1" && Zeros(2) == "00";
    assert NatToString(2) == "2";
  }

  /** A fresh id keeps the ids distinct. */
  lemma CreateKeepsIdsDistinct(st: Store, f: SaleFields, id: string, year: nat)
    requires Listed(st).Ok? && DistinctIds(Listed(st).value)
    requires forall s :: s in Listed(st).value ==> s.id != id
    ensures Listed(CreateStep(st, f, id, year).after).Ok?
    ensures DistinctIds(Listed(CreateStep(st, f, id, year).after).value)
  {
    var all := Listed(st).value;
    var list := Listed(CreateStep(st, f, id, year).after).value;
    assert list == all + [NewSale(id, SaleNumber(year, |all| + 1), f)];
    forall i, j | 0 <= i < j < |list| ensures list[i].id != list[j].id {
      if j == |all| {
        assert list[i] in all;
      }
    }
  }

  /** An unknown id gives `null` and writes nothing beyond `getAll`'s seeding. */
  lemma UpdateUnknownId(st: Store, id: string, u: SaleUpdates)
    requires Listed(st).Ok?
    requires forall s :: s in Listed(st).value ==> s.id != id
    ensures UpdateStep(st, id, u) == Step(Ok(None), Seeded(st))
  {
  }

  /** A known id merges the updates into the first record with that id, at
      the same index; the other records and the length stay as they were. */
  lemma UpdateKnownId(st: Store, id: string, u: SaleUpdates, k: nat)
    requires Listed(st).Ok? && k < |Listed(st).value|
    requires Listed(st).value[k].id == id
    requires forall j :: 0 <= j < k ==> Listed(st).value[j].id != id
    ensures var all, step := Listed(st).value, UpdateStep(st, id, u);
      && step.result == Ok(Some(MergeSale(all[k], u)))
      && Listed(step.after).Ok?
      && var list := Listed(step.after).value;
      && |list| == |all|
      && list[k] == MergeSale(all[k], u)
      && (forall j :: 0 <= j < |all| && j != k ==> list[j] == all[j])
  {
    var all := Listed(st).value;
    var i := FindIndex(all, (s: Sale) => s.id == id);
    assert i == k;
  }

  /** `getById` finds the first sale with the id, or `null` when none has it. */
  lemma GetByIdFindsFirst(st: Store, id: string)
    requires Listed(st).Ok?
    ensures var all, r := Listed(st).value, GetByIdStep(st, id).result.value;
      && (r.None? <==> forall s :: s in all ==> s.id != id)
      && (r.Some? ==> exists k :: 0 <= k < |all| && all[k] == r.value && r.value.id == id
                                 && forall j :: 0 <= j < k ==> all[j].id != id)
  {
  }

  // ------------------------------------------------------------------ class

  /** The repository object. All pages share one, because every
      `SalesRepository` starts from the same `mockSales` array. */
  class SalesRepository {
    const browser: Browser
    var defaultList: seq<Sale>

    constructor (browser: Browser, defaults: seq<Sale>)
      ensures this.browser == browser && defaultList == defaults
    {
      this.browser := browser;
      defaultList := defaults;
    }

    function State(): Store
      reads this, browser
    {
      Store(browser.local, defaultList)
    }

    /** `getAll()` as `create` and `update` use it: the list and whether it
        is the default list itself. */
    method LoadAll() returns (r: Outcome<seq<Sale>>, isDefaultList: bool)
      modifies browser`local
      ensures r == Listed(old(State()))
      ensures isDefaultList == Unseeded(old(State()))
      ensures State() == Seeded(old(State()))
    {
      var stored := GetItem(browser.local, StorageKey);
      isDefaultList := !Present(stored);
      if isDefaultList {
        browser.SetLocal(StorageKey, SalesJson(defaultList));
        r := Ok(defaultList);
      } else {
        match stored.value
        case SalesJson(s) => r := Ok(s);
        case _ => r := Thrown(JsonError);
      }
    }

    method GetAll(nurseryId: Option<string>) returns (r: Outcome<seq<Sale>>)
      modifies browser`local
      ensures Step(r, State()) == GetAllStep(old(State()), nurseryId)
    {
      var loaded, _ := LoadAll();
      if loaded.Thrown? {
        return loaded;
      }
      var sales := loaded.value;
      if Truthy(nurseryId) {
        sales := Filter(sales, (s: Sale) => s.nurseryId == nurseryId.value);
      }
      r := Ok(sales);
    }

    /** Writes `list` to storage, and to the default list when `getAll` handed that out. */
    method Save(list: seq<Sale>, isDefaultList: bool)
      modifies browser`local, this`defaultList
      ensures browser.local == old(browser.local)[StorageKey := SalesJson(list)]
      ensures defaultList == if isDefaultList then list else old(defaultList)
    {
      if isDefaultList {
        defaultList := list;
      }
      browser.SetLocal(StorageKey, SalesJson(list));
    }

    method Create(f: SaleFields, id: string, year: nat) returns (r: Outcome<Sale>)
      modifies browser`local, this`defaultList
      ensures Step(r, State()) == CreateStep(old(State()), f, id, year)
    {
      var loaded, isDefaultList := LoadAll();
      if loaded.Thrown? {
        return Thrown(loaded.message);
      }
      var sales := loaded.value;
      var sale := NewSale(id, SaleNumber(year, |sales| + 1), f);
      sales := sales + [sale];
      Save(sales, isDefaultList);
      r := Ok(sale);
    }

    method Update(id: string, u: SaleUpdates) returns (r: Outcome<Option<Sale>>)
      modifies browser`local, this`defaultList
      ensures Step(r, State()) == UpdateStep(old(State()), id, u)
    {
      var loaded, isDefaultList := LoadAll();
      if loaded.Thrown? {
        return Thrown(loaded.message);
      }
      var sales := loaded.value;
      var index := FindIndex(sales, (s: Sale) => s.id == id);
      if index == |sales| {
        return Ok(None);
      }
      sales := sales[index := MergeSale(sales[index], u)];
      Save(sales, isDefaultList);
      r := Ok(Some(sales[index]));
    }

    method GetById(id: string) returns (r: Outcome<Option<Sale>>)
      modifies browser`local
      ensures Step(r, State()) == GetByIdStep(old(State()), id)
    {
      var loaded, _ := LoadAll();
      if loaded.Thrown? {
        return Thrown(loaded.message);
      }
      r := Ok(Find(loaded.value, (s: Sale) => s.id == id));
    }
  }
}
