/** The nursery's sales page: the sales of the nursery, narrowed by a search
    box and a payment status select, the statistics cards, and the status
    update that reloads both. */
module NurserySales {
  import opened Wrappers
  import opened Models
  import opened Text
  import opened Seqs
  import opened Web
  import opened SalesRepository
  import opened SalesService

  const UpdateFailedAlert := "Failed to update order status"

  /** The search box looks at the species, the sale number and the customer. */
  predicate MatchesSearch(s: Sale, q: string) {
    || ContainsIgnoringCase(s.species, q)
    || ContainsIgnoringCase(s.saleNumber, q)
    || ContainsIgnoringCase(s.customerName, q)
  }

  predicate Shown(s: Sale, q: string, f: StatusFilter<PaymentStatus>) {
    MatchesSearch(s, q) && Passes(f, s.paymentStatus)
  }

  /** `filteredSales` */
  function FilteredSales(sales: seq<Sale>, q: string, f: StatusFilter<PaymentStatus>): (r: seq<Sale>)
    ensures forall s :: s in r <==> s in sales && MatchesSearch(s, q) && (f.All? || s.paymentStatus == f.status)
    ensures IsSubsequence(r, sales)
  {
    FilterIsSubsequence(sales, (s: Sale) => Shown(s, q, f));
    Filter(sales, (s: Sale) => Shown(s, q, f))
  }

  /** An empty search with "all" shows every sale. */
  lemma EmptySearchShowsAll(sales: seq<Sale>)
    ensures FilteredSales(sales, "", All) == sales
  {
    forall k | 0 <= k < |sales| ensures Shown(sales[k], "", All) {
      EmptyQueryMatches(sales[k].species);
    }
    FilterKeepsAll(sales, (s: Sale) => Shown(s, "", All));
  }

  /** The case of what is typed does not change what is shown. */
  lemma SearchIgnoresCase(sales: seq<Sale>, q: string, f: StatusFilter<PaymentStatus>)
    ensures FilteredSales(sales, ToUpper(q), f) == FilteredSales(sales, q, f)
    ensures FilteredSales(sales, ToLower(q), f) == FilteredSales(sales, q, f)
  {
    forall s: Sale ensures Shown(s, ToUpper(q), f) == Shown(s, q, f) && Shown(s, ToLower(q), f) == Shown(s, q, f) {
      QueryCaseIgnored(s.species, q);
      QueryCaseIgnored(s.saleNumber, q);
      QueryCaseIgnored(s.customerName, q);
    }
    FilterSame(sales, (s: Sale) => Shown(s, ToUpper(q), f), (s: Sale) => Shown(s, q, f));
    FilterSame(sales, (s: Sale) => Shown(s, ToLower(q), f), (s: Sale) => Shown(s, q, f));
  }

  /** Picking one status narrows the "all" result to the sales with that
      status, in the same order. */
  lemma StatusNarrowsSearch(sales: seq<Sale>, q: string, status: PaymentStatus)
    ensures FilteredSales(sales, q, Only(status)) ==
            Filter(FilteredSales(sales, q, All), (s: Sale) => s.paymentStatus == status)
  {
    var p := (s: Sale) => Shown(s, q, Only(status));
    var all := (s: Sale) => Shown(s, q, All);
    FilterStronger(sales, p, all);
    var shownAll := Filter(sales, all);
    forall s | s in shownAll ensures p(s) == (s.paymentStatus == status) { }
    FilterSameOn(shownAll, p, (s: Sale) => s.paymentStatus == status);
  }

  // ----------------------------------------------------------- the screen

  /** What `useSales` holds: the nursery's sales and their statistics. */
  datatype Screen = Screen(sales: seq<Sale>, stats: SalesStats)

  const NoSales := Screen([], SalesStats(0, 0.0, 0, 0))

  /** The sales store, the screen and the alerts shown so far. */
  datatype View = View(store: Store, screen: Screen, alerts: seq<string>)

  /** `loadSales()`: read the nursery's sales, then its statistics; an error
      is only logged, and leaves what was already set. */
  function LoadStep(v: View, nurseryId: string): View {
    var first := GetAllStep(v.store, Some(nurseryId));
    match first.result
    case Thrown(_) => v.(store := first.after)
    case Ok(sales) =>
      var second := GetAllStep(first.after, Some(nurseryId));
      match second.result
      case Thrown(_) => v.(store := second.after, screen := v.screen.(sales := sales))
      case Ok(again) => v.(store := second.after, screen := Screen(sales, Stats(again)))
  }

  /** `handleUpdateOrderStatus(saleId, status)`: the update without a
      reference, then a reload; only a thrown error alerts. */
  function UpdateOrderStatusStep(v: View, saleId: string, status: PaymentStatus, nurseryId: string): View {
    var up := UpdatePaymentStatusStep(v.store, saleId, status, None);
    match up.result
    case Thrown(_) => v.(store := up.after, alerts := v.alerts + [UpdateFailedAlert])
    case Ok(_) => LoadStep(v.(store := up.after), nurseryId)
  }

  /** A readable store shows this nursery's sales and the statistics of
      exactly those sales; the store lists what it listed before. */
  lemma LoadShowsNursery(v: View, nurseryId: string)
    requires Listed(v.store).Ok?
    ensures var after, mine := LoadStep(v, nurseryId), ForNursery(Listed(v.store).value, Some(nurseryId));
      && after.screen == Screen(mine, Stats(mine))
      && after.store == Seeded(v.store)
      && after.alerts == v.alerts
  {
  }

  /** An unreadable store leaves the screen as it was. */
  lemma LoadKeepsScreenOnError(v: View, nurseryId: string)
    requires Listed(v.store).Thrown?
    ensures LoadStep(v, nurseryId) == v
  {
  }

  /** The update alerts exactly when the stored sales cannot be read. */
  lemma AlertOnlyOnThrow(v: View, saleId: string, status: PaymentStatus, nurseryId: string)
    ensures UpdateOrderStatusStep(v, saleId, status, nurseryId).alerts ==
            v.alerts + (if Listed(v.store).Thrown? then [UpdateFailedAlert] else [])
  {
    if Listed(v.store).Ok? {
      assert Listed(GetByIdStep(v.store, saleId).after) == Listed(v.store);
    }
  }

  /** An unknown sale changes nothing and is silent: the "Sale not found"
      reply is dropped, and the screen is reloaded. */
  lemma UnknownSaleIsSilent(v: View, saleId: string, status: PaymentStatus, nurseryId: string)
    requires Listed(v.store).Ok?
    requires forall s :: s in Listed(v.store).value ==> s.id != saleId
    ensures var after, mine := UpdateOrderStatusStep(v, saleId, status, nurseryId),
                               ForNursery(Listed(v.store).value, Some(nurseryId));
      && after.alerts == v.alerts
      && Listed(after.store) == Listed(v.store)
      && after.screen == Screen(mine, Stats(mine))
  {
    UpdatePaymentStatusUnknown(v.store, saleId, status, None);
    LoadShowsNursery(v.(store := Seeded(v.store)), nurseryId);
  }

  /** A found sale gets the status, keeps its reference, and the screen is
      reloaded from the updated list. */
  lemma FoundSaleUpdated(v: View, saleId: string, status: PaymentStatus, nurseryId: string, k: nat)
    requires Listed(v.store).Ok? && k < |Listed(v.store).value|
    requires Listed(v.store).value[k].id == saleId
    requires forall j :: 0 <= j < k ==> Listed(v.store).value[j].id != saleId
    ensures var all, after := Listed(v.store).value, UpdateOrderStatusStep(v, saleId, status, nurseryId);
      var list := all[k := all[k].(paymentStatus := status)];
      var mine := ForNursery(list, Some(nurseryId));
      && after.alerts == v.alerts
      && Listed(after.store) == Ok(list)
      && after.screen == Screen(mine, Stats(mine))
  {
    UpdatePaymentStatusFound(v.store, saleId, status, None, k);
    var up := UpdatePaymentStatusStep(v.store, saleId, status, None);
    LoadShowsNursery(v.(store := up.after), nurseryId);
  }

  // ------------------------------------------------------------------ class

  class SalesPage {
    const service: SalesService
    const nurseryId: string
    var sales: seq<Sale>
    var stats: SalesStats
    var loading: bool

    constructor (service: SalesService, nurseryId: string)
      ensures this.service == service && this.nurseryId == nurseryId
      ensures Screen(sales, stats) == NoSales && !loading
    {
      this.service := service;
      this.nurseryId := nurseryId;
      sales := [];
      stats := SalesStats(0, 0.0, 0, 0);
      loading := false;
    }

    function State(): View
      reads this, service.repo, service.repo.browser
    {
      View(service.repo.State(), Screen(sales, stats), service.repo.browser.alerts)
    }

    /** `loadSales` */
    method LoadSales()
      modifies this`sales, this`stats, this`loading, service.repo.browser`local
      ensures State() == LoadStep(old(State()), nurseryId)
      ensures !loading
    {
      loading := true;
      var all := service.GetAllSales(Some(nurseryId));
      if all.Ok? {
        sales := all.value;
        var s := service.GetSalesStats(Some(nurseryId));
        if s.Ok? {
          stats := s.value;
        }
      }
      loading := false;
    }

    /** `handleUpdateOrderStatus` */
    method UpdateOrderStatus(saleId: string, status: PaymentStatus)
      modifies this`sales, this`stats, this`loading, service.repo.browser`local,
               service.repo.browser`alerts, service.repo`defaultList
      ensures State() == UpdateOrderStatusStep(old(State()), saleId, status, nurseryId)
    {
      var r := service.UpdatePaymentStatus(saleId, status, None);
      if r.Thrown? {
        service.repo.browser.Alert(UpdateFailedAlert);
        return;
      }
      LoadSales();
    }
  }
}
