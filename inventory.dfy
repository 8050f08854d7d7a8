/** The nursery's inventory page: the batches held by the nursery, a search
    and status filter over them, receiving an approved batch into the
    nursery, updating a held batch's status and quantity, the bounds of the
    two quantity inputs and the summary cards. */
module Inventory {
  import opened Wrappers
  import opened Models
  import opened Text
  import opened Seqs
  import opened Web

  const InvalidQuantity := "Please enter a valid quantity"
  const LowStockLimit := 500.0

  // ---------------------------------------------------------- the lists

  predicate HeldBy(b: SeedBatch, nurseryId: string) {
    b.nurseryId == Some(nurseryId)
  }

  /** The page's starting inventory: the batches whose `nurseryId` is the nursery's. */
  function InitialInventory(all: seq<SeedBatch>, nurseryId: string): (r: seq<SeedBatch>)
    ensures forall b :: b in r <==> b in all && b.nurseryId == Some(nurseryId)
    ensures IsSubsequence(r, all)
  {
    FilterIsSubsequence(all, (b: SeedBatch) => HeldBy(b, nurseryId));
    Filter(all, (b: SeedBatch) => HeldBy(b, nurseryId))
  }

  predicate Receivable(b: SeedBatch) {
    b.status == Approved && !Truthy(b.nurseryId)
  }

  /** The batches that can be received: approved, and in no nursery. */
  function AvailableBatches(all: seq<SeedBatch>): (r: seq<SeedBatch>)
    ensures forall b :: b in r <==> b in all && b.status == Approved && (b.nurseryId.None? || b.nurseryId == Some(""))
  {
    Filter(all, Receivable)
  }

  /** No batch is both in the starting inventory and available, whatever the
      nursery's id: a held batch has a nursery. */
  lemma HeldNotAvailable(all: seq<SeedBatch>, nurseryId: string, b: SeedBatch)
    requires nurseryId != ""
    requires b in InitialInventory(all, nurseryId)
    ensures b !in AvailableBatches(all)
  {
  }

  predicate MatchesSearch(b: SeedBatch, q: string) {
    ContainsIgnoringCase(b.species, q) || ContainsIgnoringCase(b.batchNumber, q)
  }

  predicate Shown(b: SeedBatch, q: string, f: StatusFilter<BatchStatus>) {
    MatchesSearch(b, q) && Passes(f, b.status)
  }

  /** `filteredBatches` */
  function FilteredBatches(batches: seq<SeedBatch>, q: string, f: StatusFilter<BatchStatus>): (r: seq<SeedBatch>)
    ensures forall b :: b in r <==> b in batches && MatchesSearch(b, q) && (f.All? || b.status == f.status)
    ensures IsSubsequence(r, batches)
  {
    FilterIsSubsequence(batches, (b: SeedBatch) => Shown(b, q, f));
    Filter(batches, (b: SeedBatch) => Shown(b, q, f))
  }

  /** An empty search with "all" shows the whole inventory. */
  lemma EmptySearchShowsAll(batches: seq<SeedBatch>)
    ensures FilteredBatches(batches, "", All) == batches
  {
    forall k | 0 <= k < |batches| ensures Shown(batches[k], "", All) {
      EmptyQueryMatches(batches[k].species);
    }
    FilterKeepsAll(batches, (b: SeedBatch) => Shown(b, "", All));
  }

  // ------------------------------------------------------- the summary

  function SpeciesOf(batches: seq<SeedBatch>): (r: seq<string>)
    ensures |r| == |batches|
    ensures forall i :: 0 <= i < |batches| ==> r[i] == batches[i].species
  {
    if batches == [] then [] else [batches[0].species] + SpeciesOf(batches[1..])
  }

  predicate LowStock(b: SeedBatch) {
    b.quantity < LowStockLimit
  }

  /** The three cards: total batches, species diversity, low stock alert. */
  datatype Summary = Summary(total: nat, species: nat, lowStock: nat)

  function Summarize(batches: seq<SeedBatch>): Summary {
    Summary(|batches|, |Elements(SpeciesOf(batches))|, Count(batches, LowStock))
  }

  /** Neither the species count nor the low stock count exceeds the total;
      a nonempty inventory has at least one species. */
  lemma SummaryBounds(batches: seq<SeedBatch>)
    ensures var s := Summarize(batches);
      && s.species <= s.total && s.lowStock <= s.total
      && (s.total > 0 ==> s.species >= 1)
  {
    ElementsBound(SpeciesOf(batches));
    if batches != [] {
      assert SpeciesOf(batches)[0] in Elements(SpeciesOf(batches));
    }
  }

  /** A received copy adds one batch, and one more species only when its
      species was not there. */
  lemma SummaryOfAppended(batches: seq<SeedBatch>, b: SeedBatch)
    ensures var before, after := Summarize(batches), Summarize(batches + [b]);
      && after.total == before.total + 1
      && after.species == before.species + (if b.species in SpeciesOf(batches) then 0 else 1)
      && after.lowStock == before.lowStock + (if LowStock(b) then 1 else 0)
  {
    assert SpeciesOf(batches + [b]) == SpeciesOf(batches) + [b.species];
    assert Elements(SpeciesOf(batches) + [b.species]) == Elements(SpeciesOf(batches)) + {b.species};
    CountAppend(batches, [b], LowStock);
  }

  // ------------------------------------------------------ the inputs

  function MaxReal(a: real, b: real): real {
    if a >= b then a else b
  }

  /** `Math.max(quantity * 1.1, quantity)` */
  function ReceiveMax(q: real): (m: real)
    ensures m >= q
    ensures q >= 0.0 ==> m == q * 1.1
    ensures q < 0.0 ==> m == q
  {
    MaxReal(q * 1.1, q)
  }

  /** `Math.max(quantity * 2, 10000)` */
  function UpdateMax(q: real): (m: real)
    ensures m >= 10000.0 && m >= 2.0 * q
    ensures m == 10000.0 || m == 2.0 * q
  {
    MaxReal(q * 2.0, 10000.0)
  }

  /** The `onChange` guard of both quantity inputs: empty text, or a number
      from 0 to `max`. */
  predicate InputAccepted(value: string, max: real) {
    value == "" || (ParseNumber(value).Some? && 0.0 <= ParseNumber(value).value <= max)
  }

  /** `parseFloat(text)`, refused when it is `NaN` or negative. */
  function Quantity(text: string): (r: Option<real>)
    ensures r.Some? <==> ParseNumber(text).Some? && ParseNumber(text).value >= 0.0
    ensures r.Some? ==> r.value == ParseNumber(text).value
  {
    match ParseNumber(text)
    case Some(v) => if v < 0.0 then None else Some(v)
    case None => None
  }

  /** The browser's check of a quantity input that is `required`, with
      `min="0"` and `max`: a number from 0 to `max` (its `step` is not
      modelled). A form that fails it is not submitted. */
  predicate QuantitySubmittable(text: string, max: real) {
    ParseNumber(text).Some? && 0.0 <= ParseNumber(text).value <= max
  }

  /** Whatever nonempty text an input accepts, the browser submits and the
      handler accepts; the empty text the input lets through is held back by
      the browser, and the handler would refuse it too. */
  lemma AcceptedInputIsValid(value: string, max: real)
    ensures InputAccepted(value, max) && value != "" ==>
      QuantitySubmittable(value, max) && Quantity(value).Some? && Quantity(value).value <= max
    ensures !QuantitySubmittable("", max) && Quantity("").None?
  {
    ParseEmpty();
  }

  /** Every quantity the browser submits passes the handler's own test, so
      the handler's alert is never reached from the form. */
  lemma SubmittedQuantityIsValid(text: string, max: real)
    requires QuantitySubmittable(text, max)
    ensures Quantity(text) == ParseNumber(text)
  {
  }

  // ------------------------------------------------------ the handlers

  datatype ReceiveForm = ReceiveForm(quantity: string, notes: string)

  datatype UpdateForm = UpdateForm(status: BatchStatus, quantity: string, notes: string)

  const EmptyReceiveForm := ReceiveForm("", "")

  /** The page's state: the inventory, the selected batch, the two forms and
      the alerts shown so far. `updateForm` is `None` while the update modal
      is closed; its form is then not rendered and cannot be submitted. */
  datatype Panel = Panel(batches: seq<SeedBatch>, selected: Option<SeedBatch>,
                         receiveForm: ReceiveForm, updateForm: Option<UpdateForm>,
                         alerts: seq<string>)

  /** `{ ...batch, status: "in-nursery", nurseryId, quantity }` */
  function Received(b: SeedBatch, nurseryId: string, q: real): (r: SeedBatch)
    ensures r.status == InNursery && r.nurseryId == Some(nurseryId) && r.quantity == q
    ensures r.id == b.id && r.species == b.species && r.batchNumber == b.batchNumber
  {
    b.(status := InNursery, nurseryId := Some(nurseryId), quantity := q)
  }

  /** `handleOpenReceiveModal(batch)`: the form is prefilled with the batch's
      quantity as text. `show` stands for `Number.prototype.toString`. */
  function OpenReceiveStep(p: Panel, b: SeedBatch, show: real -> string): Panel {
    p.(selected := Some(b), receiveForm := ReceiveForm(show(b.quantity), ""))
  }

  /** `handleOpenModal(batch)`: the form is prefilled with the batch's status
      and its quantity as text. */
  function OpenUpdateStep(p: Panel, b: SeedBatch, show: real -> string): Panel {
    p.(selected := Some(b), updateForm := Some(UpdateForm(b.status, show(b.quantity), "")))
  }

  /** The receive form is rendered only with a selected batch, and the
      browser submits it only when its quantity passes the input's check. */
  predicate ReceiveSubmittable(p: Panel) {
    p.selected.Some? && QuantitySubmittable(p.receiveForm.quantity, ReceiveMax(p.selected.value.quantity))
  }

  /** The update form is rendered only while its modal is open on a batch,
      and submitted only when its quantity passes the input's check; the
      status picker keeps its value in a hidden input, which is not checked. */
  predicate UpdateSubmittable(p: Panel) {
    && p.selected.Some? && p.updateForm.Some?
    && QuantitySubmittable(p.updateForm.value.quantity, UpdateMax(p.selected.value.quantity))
  }

  /** `handleReceiveBatch` */
  function HandleReceiveStep(p: Panel, nurseryId: string): Panel {
    if p.selected.None? then p
    else match Quantity(p.receiveForm.quantity)
      case None => p.(alerts := p.alerts + [InvalidQuantity])
      case Some(q) =>
        p.(batches := p.batches + [Received(p.selected.value, nurseryId, q)],
           selected := None, receiveForm := EmptyReceiveForm)
  }

  /** A submit of the receive form: the browser's check, then the handler. */
  function ReceiveStep(p: Panel, nurseryId: string): Panel {
    if ReceiveSubmittable(p) then HandleReceiveStep(p, nurseryId) else p
  }

  /** `{ ...b, status, quantity }` on the batch with the selected id */
  function Updated(batches: seq<SeedBatch>, id: string, status: BatchStatus, q: real): seq<SeedBatch> {
    seq(|batches|, i requires 0 <= i < |batches| =>
      if batches[i].id == id then batches[i].(status := status, quantity := q) else batches[i])
  }

  /** `handleSubmitUpdate`; with the modal closed the form state holds an
      empty quantity. */
  function HandleUpdateStep(p: Panel): Panel {
    if p.selected.None? then p
    else
      var form := p.updateForm.GetOr(UpdateForm(p.selected.value.status, "", ""));
      match Quantity(form.quantity)
      case None => p.(alerts := p.alerts + [InvalidQuantity])
      case Some(q) =>
        p.(batches := Updated(p.batches, p.selected.value.id, form.status, q),
           selected := None, updateForm := None)
  }

  /** A submit of the update form: the browser's check, then the handler. */
  function SubmitUpdateStep(p: Panel): Panel {
    if UpdateSubmittable(p) then HandleUpdateStep(p) else p
  }

  /** Called on its own, each handler alerts on an empty, unparsable or
      negative quantity and changes nothing else. */
  lemma HandlersRejectQuantity(p: Panel, nurseryId: string)
    requires p.selected.Some?
    ensures Quantity(p.receiveForm.quantity).None? ==>
      HandleReceiveStep(p, nurseryId) == p.(alerts := p.alerts + [InvalidQuantity])
    ensures p.updateForm.Some? && Quantity(p.updateForm.value.quantity).None? ==>
      HandleUpdateStep(p) == p.(alerts := p.alerts + [InvalidQuantity])
  {
  }

  /** Without a selected batch neither handler does anything. */
  lemma NothingSelected(p: Panel, nurseryId: string)
    requires p.selected.None?
    ensures ReceiveStep(p, nurseryId) == p && SubmitUpdateStep(p) == p
  {
  }

  /** An empty, unparsable, negative or too large quantity is held back by
      the browser: nothing changes and no alert is shown. */
  lemma ReceiveRejects(p: Panel, nurseryId: string)
    requires p.selected.Some?
    requires !QuantitySubmittable(p.receiveForm.quantity, ReceiveMax(p.selected.value.quantity))
    ensures ReceiveStep(p, nurseryId) == p
  {
  }

  /** Neither submit ever shows the "valid quantity" alert: what the browser
      lets through, the handlers accept. */
  lemma HandlersNeverAlert(p: Panel, nurseryId: string)
    ensures ReceiveStep(p, nurseryId).alerts == p.alerts
    ensures SubmitUpdateStep(p).alerts == p.alerts
  {
    if ReceiveSubmittable(p) {
      SubmittedQuantityIsValid(p.receiveForm.quantity, ReceiveMax(p.selected.value.quantity));
    }
    if UpdateSubmittable(p) {
      SubmittedQuantityIsValid(p.updateForm.value.quantity, UpdateMax(p.selected.value.quantity));
    }
  }

  /** A quantity from 0 to the bound, zero included, appends one copy of the
      selected batch moved into this nursery; the batches before it are
      unchanged and the modal closes. */
  lemma ReceiveAppends(p: Panel, nurseryId: string)
    requires ReceiveSubmittable(p)
    ensures var after, q := ReceiveStep(p, nurseryId), ParseNumber(p.receiveForm.quantity).value;
      && |after.batches| == |p.batches| + 1
      && after.batches[..|p.batches|] == p.batches
      && after.batches[|p.batches|] == Received(p.selected.value, nurseryId, q)
      && after.selected.None? && after.receiveForm == EmptyReceiveForm && after.alerts == p.alerts
  {
    var after := ReceiveStep(p, nurseryId);
    assert after.batches[..|p.batches|] == p.batches;
  }

  /** The list of available batches never changes, so the same batch can be
      received twice: both copies end up in the inventory. */
  lemma ReceiveTwice(p: Panel, nurseryId: string, b: SeedBatch, text: string)
    requires QuantitySubmittable(text, ReceiveMax(b.quantity))
    ensures var first := ReceiveStep(p.(selected := Some(b), receiveForm := ReceiveForm(text, "")), nurseryId);
      var second := ReceiveStep(first.(selected := Some(b), receiveForm := ReceiveForm(text, "")), nurseryId);
      var copy := Received(b, nurseryId, ParseNumber(text).value);
      second.batches == p.batches + [copy, copy]
  {
  }

  /** A submitted update replaces status and quantity of every batch with
      the selected id, and nothing else; the length stays. */
  lemma UpdateReplaces(p: Panel)
    requires UpdateSubmittable(p)
    ensures var after, id, f := SubmitUpdateStep(p), p.selected.value.id, p.updateForm.value;
      var q := ParseNumber(f.quantity).value;
      && |after.batches| == |p.batches|
      && (forall i :: 0 <= i < |p.batches| && p.batches[i].id != id ==> after.batches[i] == p.batches[i])
      && (forall i :: 0 <= i < |p.batches| && p.batches[i].id == id ==>
            after.batches[i] == p.batches[i].(status := f.status, quantity := q))
      && after.selected.None? && after.updateForm.None?
  {
  }

  /** An update whose quantity the browser refuses changes nothing, and so
      does a submit while the update modal is closed. */
  lemma UpdateRejects(p: Panel)
    requires p.selected.Some?
    requires p.updateForm.None? ||
             !QuantitySubmittable(p.updateForm.value.quantity, UpdateMax(p.selected.value.quantity))
    ensures SubmitUpdateStep(p) == p
  {
  }

  /** Receiving a batch with the prefilled quantity, when it is a number and
      that text reads back as it, moves the whole batch into the nursery. */
  lemma PrefilledReceiveTakesWholeBatch(p: Panel, b: SeedBatch, nurseryId: string, show: real -> string)
    requires b.quantity >= 0.0 && ParseNumber(show(b.quantity)) == Some(b.quantity)
    ensures ReceiveStep(OpenReceiveStep(p, b, show), nurseryId).batches ==
            p.batches + [Received(b, nurseryId, b.quantity)]
  {
  }

  /** Saving the prefilled update form leaves every batch with the selected
      id at the selected batch's status and quantity. */
  lemma PrefilledUpdateKeepsBatch(p: Panel, b: SeedBatch, show: real -> string)
    requires b.quantity >= 0.0 && ParseNumber(show(b.quantity)) == Some(b.quantity)
    ensures var after := SubmitUpdateStep(OpenUpdateStep(p, b, show));
      && |after.batches| == |p.batches|
      && forall i :: 0 <= i < |p.batches| ==>
           after.batches[i] == if p.batches[i].id == b.id
                               then p.batches[i].(status := b.status, quantity := b.quantity)
                               else p.batches[i]
  {
  }

  // ------------------------------------------------------------------ class

  class InventoryPage {
    const browser: Browser
    const nurseryId: string
    /** `availableBatches`, fixed when the page mounts. */
    const available: seq<SeedBatch>
    var batches: seq<SeedBatch>
    var selected: Option<SeedBatch>
    var receiveForm: ReceiveForm
    var updateForm: Option<UpdateForm>
    var submitting: bool

    /** The page mounted on the bundled batches, for the first nursery. */
    constructor (browser: Browser, all: seq<SeedBatch>, nurseryId: string)
      ensures this.browser == browser && this.nurseryId == nurseryId
      ensures batches == InitialInventory(all, nurseryId) && available == AvailableBatches(all)
      ensures selected.None? && receiveForm == EmptyReceiveForm && updateForm.None? && !submitting
    {
      this.browser := browser;
      this.nurseryId := nurseryId;
      available := AvailableBatches(all);
      batches := InitialInventory(all, nurseryId);
      selected := None;
      receiveForm := EmptyReceiveForm;
      updateForm := None;
      submitting := false;
    }

    function State(): Panel
      reads this, browser
    {
      Panel(batches, selected, receiveForm, updateForm, browser.alerts)
    }

    /** `handleOpenReceiveModal(batch)` */
    method OpenReceive(b: SeedBatch, show: real -> string)
      modifies this`selected, this`receiveForm
      ensures State() == OpenReceiveStep(old(State()), b, show)
      ensures receiveForm.quantity == show(b.quantity)
    {
      selected := Some(b);
      receiveForm := ReceiveForm(show(b.quantity), "");
    }

    /** `handleOpenModal(batch)` */
    method OpenUpdate(b: SeedBatch, show: real -> string)
      modifies this`selected, this`updateForm
      ensures State() == OpenUpdateStep(old(State()), b, show)
      ensures updateForm == Some(UpdateForm(b.status, show(b.quantity), ""))
    {
      selected := Some(b);
      updateForm := Some(UpdateForm(b.status, show(b.quantity), ""));
    }

    /** `handleCloseReceiveModal` */
    method CloseReceive()
      modifies this`selected, this`receiveForm
      ensures State() == old(State()).(selected := None, receiveForm := EmptyReceiveForm)
    {
      selected := None;
      receiveForm := EmptyReceiveForm;
    }

    /** `handleCloseModal` */
    method CloseUpdate()
      modifies this`selected, this`updateForm
      ensures State() == old(State()).(selected := None, updateForm := None)
    {
      selected := None;
      updateForm := None;
    }

    /** The received quantity's `onChange`. */
    method ReceiveInput(value: string)
      requires selected.Some?
      modifies this`receiveForm
      ensures receiveForm == if InputAccepted(value, ReceiveMax(selected.value.quantity))
                             then old(receiveForm).(quantity := value) else old(receiveForm)
    {
      if InputAccepted(value, ReceiveMax(selected.value.quantity)) {
        receiveForm := receiveForm.(quantity := value);
      }
    }

    /** The current quantity's `onChange`. */
    method UpdateInput(value: string)
      requires selected.Some? && updateForm.Some?
      modifies this`updateForm
      ensures updateForm == if InputAccepted(value, UpdateMax(selected.value.quantity))
                            then Some(old(updateForm).value.(quantity := value)) else old(updateForm)
    {
      if InputAccepted(value, UpdateMax(selected.value.quantity)) {
        updateForm := Some(updateForm.value.(quantity := value));
      }
    }

    /** `handleReceiveBatch` */
    method HandleReceiveBatch()
      modifies this`batches, this`selected, this`receiveForm, this`submitting, browser`alerts
      ensures State() == HandleReceiveStep(old(State()), nurseryId)
      ensures old(selected).Some? ==> !submitting
    {
      if selected.None? {
        return;
      }
      submitting := true;
      var quantity := Quantity(receiveForm.quantity);
      if quantity.None? {
        browser.Alert(InvalidQuantity);
        submitting := false;
        return;
      }
      batches := batches + [Received(selected.value, nurseryId, quantity.value)];
      submitting := false;
      selected := None;
      receiveForm := EmptyReceiveForm;
    }

    /** The receive form's submit: the browser's check, then the handler. */
    method ReceiveBatch()
      modifies this`batches, this`selected, this`receiveForm, this`submitting, browser`alerts
      ensures State() == ReceiveStep(old(State()), nurseryId)
    {
      if ReceiveSubmittable(State()) {
        HandleReceiveBatch();
      }
    }

    /** `handleSubmitUpdate` */
    method HandleSubmitUpdate()
      modifies this`batches, this`selected, this`updateForm, this`submitting, browser`alerts
      ensures State() == HandleUpdateStep(old(State()))
      ensures old(selected).Some? ==> !submitting
    {
      if selected.None? {
        return;
      }
      submitting := true;
      var form := updateForm.GetOr(UpdateForm(selected.value.status, "", ""));
      var quantity := Quantity(form.quantity);
      if quantity.None? {
        browser.Alert(InvalidQuantity);
        submitting := false;
        return;
      }
      batches := Updated(batches, selected.value.id, form.status, quantity.value);
      submitting := false;
      selected := None;
      updateForm := None;
    }

    /** The update form's submit: the browser's check, then the handler. */
    method SubmitUpdate()
      modifies this`batches, this`selected, this`updateForm, this`submitting, browser`alerts
      ensures State() == SubmitUpdateStep(old(State()))
    {
      if UpdateSubmittable(State()) {
        HandleSubmitUpdate();
      }
    }
  }
}
