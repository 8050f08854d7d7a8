/** The partner's seed catalogue: the batches open for ordering, a search
    box, and the order modal whose valid quantity sends the partner on to
    the checkout page with the order in the URL. */
module Browse {
  import opened Wrappers
  import opened Models
  import opened Text
  import opened Seqs
  import opened Web
  import CheckoutPage

  const CheckoutPath := "/partner/checkout"
  const InvalidOrderPrefix := "Please enter a valid quantity between 0 and "

  // ---------------------------------------------------------- the catalogue

  /** `availableBatches`: approved batches and batches at a nursery. */
  predicate Available(b: SeedBatch) {
    b.status == Approved || b.status == InNursery
  }

  predicate MatchesSearch(b: SeedBatch, q: string) {
    ContainsIgnoringCase(b.species, q) || ContainsIgnoringCase(b.batchNumber, q)
  }

  function AvailableBatches(all: seq<SeedBatch>): (r: seq<SeedBatch>)
    ensures forall b :: b in r <==> b in all && (b.status == Approved || b.status == InNursery)
    ensures IsSubsequence(r, all)
  {
    FilterIsSubsequence(all, Available);
    Filter(all, Available)
  }

  /** `filteredBatches`: the available batches the search matches. */
  function FilteredBatches(all: seq<SeedBatch>, q: string): (r: seq<SeedBatch>)
    ensures forall b :: b in r <==> b in all && Available(b) && MatchesSearch(b, q)
    ensures IsSubsequence(r, AvailableBatches(all))
  {
    FilterIsSubsequence(AvailableBatches(all), (b: SeedBatch) => MatchesSearch(b, q));
    Filter(AvailableBatches(all), (b: SeedBatch) => MatchesSearch(b, q))
  }

  /** An empty search shows every available batch. */
  lemma EmptySearchShowsAvailable(all: seq<SeedBatch>)
    ensures FilteredBatches(all, "") == AvailableBatches(all)
  {
    var avail := AvailableBatches(all);
    forall k | 0 <= k < |avail| ensures MatchesSearch(avail[k], "") {
      EmptyQueryMatches(avail[k].species);
    }
    FilterKeepsAll(avail, (b: SeedBatch) => MatchesSearch(b, ""));
  }

  /** A pending, distributed or planted batch is never offered. */
  lemma UnavailableNeverShown(all: seq<SeedBatch>, q: string, b: SeedBatch)
    requires b.status == PendingBatch || b.status == Distributed || b.status == Planted
    ensures b !in FilteredBatches(all, q)
  {
  }

  // ----------------------------------------------------------- the order

  /** `parseFloat(quantity)`, refused when it is `NaN`, at most 0 or more
      than the batch holds. */
  function OrderQuantity(text: string, b: SeedBatch): (r: Option<real>)
    ensures r.Some? <==> ParseNumber(text).Some? && 0.0 < ParseNumber(text).value <= b.quantity
    ensures r.Some? ==> r.value == ParseNumber(text).value
  {
    match ParseNumber(text)
    case None => None
    case Some(q) => if q <= 0.0 || q > b.quantity then None else Some(q)
  }

  /** `/partner/checkout?batchId=...&batchNumber=...&species=...&quantity=...&unit=...`;
      `shown` is the quantity's text. */
  function CheckoutRoute(b: SeedBatch, shown: string): Route {
    WithQuery(CheckoutPath, [("batchId", b.id), ("batchNumber", b.batchNumber), ("species", b.species),
                             ("quantity", shown), ("unit", UnitName(b.unit))])
  }

  /** The checkout page reads back exactly the batch and quantity ordered,
      as long as the quantity's text reads back as the quantity. */
  lemma OrderReachesCheckout(b: SeedBatch, q: real, shown: string)
    requires ParseNumber(shown) == Some(q)
    ensures CheckoutPage.ReadParams(CheckoutRoute(b, shown).query) ==
            CheckoutPage.Params(Some(b.id), q, b.species, UnitName(b.unit), b.batchNumber)
  {
    CheckoutQuery(b, shown);
    assert NumberOrZero(shown) == q;
  }

  /** Each parameter of the checkout URL reads back as written. */
  lemma CheckoutQuery(b: SeedBatch, shown: string)
    ensures var query := CheckoutRoute(b, shown).query;
      && QueryGet(query, "batchId") == Some(b.id)
      && QueryGet(query, "batchNumber") == Some(b.batchNumber)
      && QueryGet(query, "species") == Some(b.species)
      && QueryGet(query, "quantity") == Some(shown)
      && QueryGet(query, "unit") == Some(UnitName(b.unit))
  {
    CheckoutQueryFront(b, shown);
    CheckoutQueryBack(b, shown);
  }

  lemma CheckoutQueryFront(b: SeedBatch, shown: string)
    ensures var query := CheckoutRoute(b, shown).query;
      && QueryGet(query, "batchId") == Some(b.id)
      && QueryGet(query, "batchNumber") == Some(b.batchNumber)
      && QueryGet(query, "species") == Some(b.species)
  {
    var query := CheckoutRoute(b, shown).query;
    assert "batchId" != "species" by { assert "batchId"[0] != "species"[0]; }
    QueryGetSkips(query, "species", 2);
    assert query[2..][0] == ("species", b.species);
  }

  lemma CheckoutQueryBack(b: SeedBatch, shown: string)
    ensures var query := CheckoutRoute(b, shown).query;
      && QueryGet(query, "quantity") == Some(shown)
      && QueryGet(query, "unit") == Some(UnitName(b.unit))
  {
    var query := CheckoutRoute(b, shown).query;
    QueryGetSkips(query, "quantity", 3);
    assert query[3..][0] == ("quantity", shown);
    QueryGetSkips(query, "unit", 4);
    assert query[4..][0] == ("unit", UnitName(b.unit));
  }

  /** The first `k` parameters, none of them named `name`, do not change
      what `get(name)` finds. */
  lemma {:induction false} QueryGetSkips(query: seq<(string, string)>, name: string, k: nat)
    requires k <= |query| && forall j :: 0 <= j < k ==> query[j].0 != name
    ensures QueryGet(query, name) == QueryGet(query[k..], name)
  {
    if k > 0 {
      assert query[1..][k - 1..] == query[k..];
      QueryGetSkips(query[1..], name, k - 1);
    }
  }

  /** The order modal and what the page has done so far. `show` stands for
      `Number.prototype.toString`. */
  datatype Order = Order(selected: Option<SeedBatch>, quantityText: string, notes: string,
                         open: bool, submitting: bool, alerts: seq<string>, history: seq<Route>)

  /** `handleOrder(batch)`: the modal opens on the batch with its whole quantity. */
  function OrderStep(o: Order, b: SeedBatch, show: real -> string): Order {
    o.(selected := Some(b), quantityText := show(b.quantity), notes := "", open := true)
  }

  /** `handleCloseOrderModal` */
  function CloseStep(o: Order): Order {
    o.(selected := None, quantityText := "", notes := "", open := false)
  }

  /** `handleSubmitOrder` as written: nothing without a batch; an invalid
      quantity is alerted; a valid one goes to the checkout page, leaving the
      modal open and the page submitting. */
  function SubmitOrderStep(o: Order, show: real -> string): Order {
    if o.selected.None? then o
    else
      var b := o.selected.value;
      match OrderQuantity(o.quantityText, b)
      case None => o.(submitting := false, alerts := o.alerts + [InvalidOrderPrefix + show(b.quantity)])
      case Some(q) => o.(submitting := true, history := o.history + [CheckoutRoute(b, show(q))])
  }

  /** What the quantity input (`required`, `min="0"`, `max` the batch's
      quantity) lets the browser submit; its `step` is not modelled. */
  predicate InputAccepted(text: string, b: SeedBatch) {
    ParseNumber(text).Some? && 0.0 <= ParseNumber(text).value <= b.quantity
  }

  /** The order form is rendered only with a selected batch, and the browser
      submits it only when the quantity passes the input's check. */
  predicate OrderSubmittable(o: Order) {
    o.selected.Some? && InputAccepted(o.quantityText, o.selected.value)
  }

  /** A submit of the order form: the browser's check, then the handler. */
  function SubmitStep(o: Order, show: real -> string): Order {
    if OrderSubmittable(o) then SubmitOrderStep(o, show) else o
  }

  /** Without a batch neither the handler nor a submit does anything. */
  lemma NoBatchNoOrder(o: Order, show: real -> string)
    requires o.selected.None?
    ensures SubmitOrderStep(o, show) == o && SubmitStep(o, show) == o
  {
  }

  /** Called on its own, the handler alerts on a quantity that is not a
      number, at most 0 or more than the batch holds, and goes nowhere. */
  lemma InvalidQuantityRejected(o: Order, show: real -> string)
    requires o.selected.Some?
    requires ParseNumber(o.quantityText).None? || ParseNumber(o.quantityText).value <= 0.0
             || ParseNumber(o.quantityText).value > o.selected.value.quantity
    ensures var after := SubmitOrderStep(o, show);
      && after.history == o.history && !after.submitting
      && after.alerts == o.alerts + [InvalidOrderPrefix + show(o.selected.value.quantity)]
      && after.selected == o.selected && after.quantityText == o.quantityText
  {
  }

  /** A valid quantity passes the browser and adds one navigation, to the
      checkout of that batch and quantity, and no alert. */
  lemma ValidQuantityNavigates(o: Order, show: real -> string)
    requires o.selected.Some? && ParseNumber(o.quantityText).Some?
    requires 0.0 < ParseNumber(o.quantityText).value <= o.selected.value.quantity
    ensures var after := SubmitStep(o, show);
      && after.history == o.history + [CheckoutRoute(o.selected.value, show(ParseNumber(o.quantityText).value))]
      && after.alerts == o.alerts && after.submitting
  {
  }

  /** Ordering straight after opening the modal orders the whole batch, when
      the batch holds something and its quantity's text reads back. */
  lemma PrefilledOrderIsWholeBatch(o: Order, b: SeedBatch, show: real -> string)
    requires b.quantity > 0.0 && ParseNumber(show(b.quantity)) == Some(b.quantity)
    ensures SubmitStep(OrderStep(o, b, show), show).history ==
            o.history + [CheckoutRoute(b, show(b.quantity))]
  {
  }

  /** Past the browser's own checks, the handler refuses only a quantity of 0. */
  lemma OnlyZeroGetsPastTheBrowser(text: string, b: SeedBatch)
    requires InputAccepted(text, b)
    ensures OrderQuantity(text, b).None? <==> ParseNumber(text) == Some(0.0)
  {
  }

  /** An empty, unparsable, negative or too large quantity is held back by
      the browser: nothing changes and no alert is shown. A cleared field,
      which the input's `onChange` lets through, is one of them. */
  lemma RefusedQuantityHeldBack(o: Order, show: real -> string)
    requires o.selected.Some? && !InputAccepted(o.quantityText, o.selected.value)
    ensures SubmitStep(o, show) == o
    ensures !InputAccepted("", o.selected.value)
  {
    ParseEmpty();
  }

  /** Of the handler's alert, a submit can show only the one for a quantity
      of 0. */
  lemma OnlyZeroAlerts(o: Order, show: real -> string)
    ensures SubmitStep(o, show).alerts ==
            o.alerts + (if OrderSubmittable(o) && ParseNumber(o.quantityText) == Some(0.0)
                        then [InvalidOrderPrefix + show(o.selected.value.quantity)] else [])
  {
    if OrderSubmittable(o) {
      OnlyZeroGetsPastTheBrowser(o.quantityText, o.selected.value);
    }
  }

  // ------------------------------------------------------------------ class

  class BrowsePage {
    const browser: Browser
    var selected: Option<SeedBatch>
    var quantityText: string
    var notes: string
    var open: bool
    var submitting: bool

    constructor (browser: Browser)
      ensures this.browser == browser
      ensures selected.None? && quantityText == "" && notes == "" && !open && !submitting
    {
      this.browser := browser;
      selected := None;
      quantityText := "";
      notes := "";
      open := false;
      submitting := false;
    }

    function State(): Order
      reads this, browser
    {
      Order(selected, quantityText, notes, open, submitting, browser.alerts, browser.history)
    }

    /** `handleOrder` */
    method OpenOrder(b: SeedBatch, show: real -> string)
      modifies this`selected, this`quantityText, this`notes, this`open
      ensures State() == OrderStep(old(State()), b, show)
    {
      selected := Some(b);
      quantityText := show(b.quantity);
      notes := "";
      open := true;
    }

    /** `handleCloseOrderModal` */
    method CloseOrderModal()
      modifies this`selected, this`quantityText, this`notes, this`open
      ensures State() == CloseStep(old(State()))
    {
      open := false;
      selected := None;
      quantityText := "";
      notes := "";
    }

    /** The quantity input's `onChange`: empty text, or a number from 0 to
        what the batch holds; any other text is not taken. */
    method QuantityInput(value: string)
      requires selected.Some?
      modifies this`quantityText
      ensures quantityText == if value == "" || InputAccepted(value, selected.value) then value
                              else old(quantityText)
    {
      if value == "" || InputAccepted(value, selected.value) {
        quantityText := value;
      }
    }

    /** A submit of the order form: the browser's check, then the handler. */
    method SubmitOrder(show: real -> string)
      modifies this`submitting, browser`alerts, browser`history
      ensures State() == SubmitStep(old(State()), show)
    {
      if OrderSubmittable(State()) {
        HandleSubmitOrder(show);
      }
    }

    /** `handleSubmitOrder` */
    method HandleSubmitOrder(show: real -> string)
      modifies this`submitting, browser`alerts, browser`history
      ensures State() == SubmitOrderStep(old(State()), show)
    {
      if selected.None? {
        return;
      }
      var b := selected.value;
      submitting := true;
      var quantity := OrderQuantity(quantityText, b);
      if quantity.None? {
        browser.Alert(InvalidOrderPrefix + show(b.quantity));
        submitting := false;
        return;
      }
      browser.Push(CheckoutRoute(b, show(quantity.value)));
    }
  }
}
