/** The collector's dashboard: the collections from the seed collection
    service, the add/edit form whose successful submit closes it and
    reloads, the summary counts and the greeting. */
module Dashboard {
  import opened Wrappers
  import opened Models
  import opened Web
  import opened SeedRepository
  import opened SeedCollectionService
  import UseUser
  import CollectionForm

  const DefaultName := "Vincent"
  const Morning := "Good Morning"
  const Afternoon := "Good Afternoon"
  const Evening := "Good Evening"

  // ------------------------------------------------------------- the counts

  /** `Math.floor(totalCollections * 0.75)` */
  function PendingReviews(total: nat): int {
    (total as real * 0.75).Floor
  }

  /** `totalCollections - pendingReviews` */
  function Approved(total: nat): int {
    total - PendingReviews(total)
  }

  /** The pending count is three quarters of the total rounded down, so the
      two cards split the total between them. */
  lemma CountsSplitTotal(total: nat)
    ensures PendingReviews(total) == 3 * total / 4
    ensures 0 <= Approved(total) <= total && PendingReviews(total) + Approved(total) == total
  {
    var p := 3 * total / 4;
    assert total as real * 0.75 == (3 * total) as real / 4.0;
    assert p as real <= total as real * 0.75 < p as real + 1.0;
  }

  /** `getGreeting()` at the given hour of the day. */
  function Greeting(hour: int): (g: string)
    ensures g == Morning <==> hour < 12
    ensures g == Afternoon <==> 12 <= hour < 18
    ensures g == Evening <==> hour >= 18
  {
    if hour < 12 then Morning else if hour < 18 then Afternoon else Evening
  }

  // --------------------------------------------------------------- the page

  /** The seed store, the collections shown, the form modal and the
      collection being edited. */
  datatype View = View(store: SeedStore, collections: seq<SeedCollection>, formOpen: bool,
                       editing: Option<SeedCollection>, loading: bool)

  /** `loadCollections()` */
  function LoadStep(v: View): View {
    var all := GetAllStep(v.store);
    v.(store := all.after, collections := all.result)
  }

  /** The mount effect: the greeting's name, then the first load, which is
      never reached when the stored user is not JSON. */
  function MountStep(v: View): View {
    if UseUser.UnreadableUser(v.store.local) then v else LoadStep(v)
  }

  /** The service call `handleFormSubmit` makes: an update of the collection
      being edited with the form's keys, or an add. `id` stands for the new
      collection's id. */
  function SaveStep(v: View, data: CollectionData, id: string): SeedStep<Reply<SeedCollection>> {
    match v.editing
    case Some(c) => UpdateCollectionStep(v.store, c.id, CollectionForm.Submitted(data))
    case None => AddCollectionStep(v.store, data, id)
  }

  /** `handleFormSubmit(data)`: on success the modal closes, the editing
      ends and the list is reloaded; on failure only the store changes.
      Loading is over either way. */
  function FormSubmitStep(v: View, data: CollectionData, id: string): View {
    var saved := SaveStep(v, data, id);
    var w := v.(store := saved.after);
    if saved.result.success then LoadStep(w.(formOpen := false, editing := None, loading := false))
    else w.(loading := false)
  }

  /** Adding valid data closes the form and shows the list with the new
      collection at the end. */
  lemma AddShowsNewCollection(v: View, data: CollectionData, id: string)
    requires v.editing.None? && AddError(data).None?
    ensures var after := FormSubmitStep(v, data, id);
      && after.collections == v.store.defaults + [NewCollection(id, data)]
      && !after.formOpen && after.editing.None? && !after.loading
  {
    AddStores(v.store, data, id);
  }

  /** Data the add refuses leaves the page as it was, the form still open. */
  lemma RefusedAddKeepsForm(v: View, data: CollectionData, id: string)
    requires v.editing.None? && AddError(data).Some?
    ensures FormSubmitStep(v, data, id) == v.(loading := false)
  {
  }

  /** While editing, the update goes to the edited collection's id: a known
      id merges the form into that collection and closes the form. */
  lemma EditMergesIntoCollection(v: View, data: CollectionData, id: string, k: nat)
    requires v.editing.Some? && data.quantity > 0.0
    requires k < |v.store.defaults| && v.store.defaults[k].id == v.editing.value.id
    requires forall j :: 0 <= j < k ==> v.store.defaults[j].id != v.editing.value.id
    ensures var after := FormSubmitStep(v, data, id);
      && after.collections == v.store.defaults[k := MergeCollection(v.store.defaults[k], CollectionForm.Submitted(data))]
      && !after.formOpen && after.editing.None? && !after.loading
  {
    UpdateKnownId(v.store, v.editing.value.id, CollectionForm.Submitted(data), k);
  }

  /** Editing a collection that is no longer listed fails, and the form stays open. */
  lemma EditOfMissingKeepsForm(v: View, data: CollectionData, id: string)
    requires v.editing.Some? && data.quantity > 0.0
    requires forall c :: c in v.store.defaults ==> c.id != v.editing.value.id
    ensures var after := FormSubmitStep(v, data, id);
      && after.formOpen == v.formOpen && after.editing == v.editing
      && after.collections == v.collections && !after.loading
  {
    UpdateChecksOnlyQuantity(v.store, v.editing.value.id, CollectionForm.Submitted(data));
  }

  // ------------------------------------------------------------------ class

  class DashboardPage {
    const service: SeedCollectionService
    var collections: seq<SeedCollection>
    var selected: Option<SeedCollection>
    var viewOpen: bool
    var formOpen: bool
    var editing: Option<SeedCollection>
    var loading: bool
    var userName: string

    constructor (service: SeedCollectionService)
      ensures this.service == service
      ensures collections == [] && selected.None? && !viewOpen && !formOpen && editing.None?
      ensures !loading && userName == DefaultName
    {
      this.service := service;
      collections := [];
      selected := None;
      viewOpen := false;
      formOpen := false;
      editing := None;
      loading := false;
      userName := DefaultName;
    }

    function State(): View
      reads this, service.repo, service.repo.browser
    {
      View(service.repo.State(), collections, formOpen, editing, loading)
    }

    /** `loadCollections` */
    method LoadCollections()
      modifies this`collections, service.repo.browser`local
      ensures State() == LoadStep(old(State()))
    {
      collections := service.GetAllCollections();
    }

    /** The mount effect. */
    method Mount()
      modifies this`collections, this`userName, service.repo.browser`local
      ensures State() == MountStep(old(State()))
      ensures userName == (if UseUser.UnreadableUser(old(service.repo.browser.local)) then old(userName)
                           else UseUser.NameOr(old(service.repo.browser.local), DefaultName))
    {
      var local := service.repo.browser.local;
      if UseUser.UnreadableUser(local) {
        return;
      }
      userName := UseUser.NameOr(local, DefaultName);
      LoadCollections();
    }

    /** `handleView` */
    method ViewCollection(c: SeedCollection)
      modifies this`selected, this`viewOpen
      ensures selected == Some(c) && viewOpen
    {
      selected := Some(c);
      viewOpen := true;
    }

    /** `handleEdit` */
    method Edit(c: SeedCollection)
      modifies this`editing, this`formOpen
      ensures State() == old(State()).(editing := Some(c), formOpen := true)
    {
      editing := Some(c);
      formOpen := true;
    }

    /** `handleAdd` */
    method Add()
      modifies this`editing, this`formOpen
      ensures State() == old(State()).(editing := None, formOpen := true)
    {
      editing := None;
      formOpen := true;
    }

    /** `handleFormSubmit` */
    method FormSubmit(data: CollectionData, id: string)
      modifies this`collections, this`formOpen, this`editing, this`loading,
               service.repo.browser`local, service.repo`defaultList
      ensures State() == FormSubmitStep(old(State()), data, id)
      ensures !loading
    {
      loading := true;
      var result;
      if editing.Some? {
        result := service.UpdateCollection(editing.value.id, CollectionForm.Submitted(data));
      } else {
        result := service.AddCollection(data, id);
      }
      if result.success {
        formOpen := false;
        editing := None;
        LoadCollections();
      }
      loading := false;
    }
  }
}
