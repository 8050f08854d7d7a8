/** The checkout success page: once the gateway has sent the partner back
    with a transaction, the order left in `sessionStorage` becomes a sale of
    the batch's nursery and is marked paid, and the order is cleared. */
module CheckoutSuccess {
  import opened Wrappers
  import opened Models
  import opened Seqs
  import opened Web
  import opened SalesRepository
  import opened SalesService
  import opened Flutterwave
  import opened CheckoutPage

  /** `sessionStorage.getItem(key)` for a key the pages store text under; a
      record found there instead is taken as absent. */
  function StoredText(session: Storage, key: string): (t: Option<string>)
    ensures t.Some? <==> key in session && session[key].Raw?
    ensures t.Some? ==> session[key] == Raw(t.value)
  {
    match GetItem(session, key)
    case Some(Raw(text)) => Some(text)
    case _ => None
  }

  /** `storedTxId || storedTxRef || transactionIdParam || ""` */
  function Reference(storedTxId: Option<string>, storedTxRef: Option<string>, param: Option<string>): (r: string)
    ensures Truthy(storedTxId) ==> r == storedTxId.value
    ensures !Truthy(storedTxId) && Truthy(storedTxRef) ==> r == storedTxRef.value
    ensures !Truthy(storedTxId) && !Truthy(storedTxRef) && Truthy(param) ==> r == param.value
    ensures r == "" <==> !Truthy(storedTxId) && !Truthy(storedTxRef) && !Truthy(param)
  {
    OrElse(storedTxId, OrElse(storedTxRef, OrElse(param, "")))
  }

  /** The sales, the session and the page's `orderCreated` flag. */
  datatype Page = Page(sales: Store, session: Storage, orderCreated: bool)

  /** The sale asked for: the order's fields, paid by Flutterwave, for the
      batch's nursery, without notes or reference. */
  function OrderDraft(o: PendingOrder, nurseryId: string, today: string): (d: SaleDraft)
    ensures d.batchId == o.batchId && d.quantity == o.quantity && d.pricePerUnit == o.pricePerUnit
    ensures d.customerName == o.customerName && d.customerEmail == o.customerEmail
    ensures d.customerPhone == o.customerPhone && d.unit == o.unit && d.species == o.species
    ensures d.paymentMethod == Some(Flutterwave) && d.nurseryId == nurseryId
  {
    SaleDraft(o.batchId, o.species, o.quantity, o.unit, o.pricePerUnit, o.customerName,
              o.customerEmail, o.customerPhone, Some(Flutterwave), None, today, None, nurseryId)
  }

  /** The session without the three keys of the checkout. */
  function Cleared(session: Storage): Storage {
    session - {PendingOrderKey, TransactionRefKey, TransactionIdKey}
  }

  /** Marking the new sale paid with `ref`, then clearing the order. */
  function PayStep(pg: Page, saleId: string, ref: string): Page {
    var up := UpdatePaymentStatusStep(pg.sales, saleId, Paid, Some(ref));
    match up.result
    case Thrown(_) => pg.(sales := up.after)
    case Ok(_) => Page(up.after, Cleared(pg.session), true)
  }

  /** The part of `createOrder` after the batch was found: create the sale,
      then pay it. A thrown error is caught and only logged, so it keeps
      whatever was stored before it. */
  function PlaceOrderStep(pg: Page, o: PendingOrder, nurseryId: string, ref: string,
                          id: string, year: nat, today: string): Page {
    var created := CreateSaleStep(pg.sales, OrderDraft(o, nurseryId, today), id, year);
    match created.result
    case Thrown(_) => pg.(sales := created.after)
    case Ok(reply) =>
      if reply.success && reply.data.Some? then PayStep(pg.(sales := created.after), reply.data.value.id, ref)
      else pg.(sales := created.after)
  }

  /** `createOrder()`, with the batches it searches, the new sale's id, the
      year and today's date passed in. */
  function CreateOrderStep(pg: Page, param: Option<string>, batches: seq<SeedBatch>,
                           id: string, year: nat, today: string): Page {
    if !Present(GetItem(pg.session, PendingOrderKey)) || pg.orderCreated then pg
    else match pg.session[PendingOrderKey]
      case OrderJson(o) =>
        (match Find(batches, (b: SeedBatch) => b.id == o.batchId)
        case None => pg
        case Some(b) =>
          if !Truthy(b.nurseryId) then pg
          else PlaceOrderStep(pg, o, b.nurseryId.value,
                              Reference(StoredText(pg.session, TransactionIdKey),
                                    StoredText(pg.session, TransactionRefKey), param), id, year, today))
      case _ => pg
  }

  /** The effect: `createOrder` runs only with both URL parameters truthy. */
  function OnParamsStep(pg: Page, query: seq<(string, string)>, batches: seq<SeedBatch>,
                    id: string, year: nat, today: string): Page {
    var txRefParam, transactionIdParam := QueryGet(query, "tx_ref"), QueryGet(query, "transaction_id");
    if Truthy(txRefParam) && Truthy(transactionIdParam) then
      CreateOrderStep(pg, transactionIdParam, batches, id, year, today)
    else pg
  }

  // ------------------------------------------------------------- properties

  /** Without both parameters nothing happens. */
  lemma NeedsBothParams(pg: Page, query: seq<(string, string)>, batches: seq<SeedBatch>,
                        id: string, year: nat, today: string)
    requires !Truthy(QueryGet(query, "tx_ref")) || !Truthy(QueryGet(query, "transaction_id"))
    ensures OnParamsStep(pg, query, batches, id, year, today) == pg
  {
  }

  /** Nothing happens without a pending order, once the order was created,
      or when the order's batch is unknown or has no nursery. */
  lemma NothingToDo(pg: Page, param: Option<string>, batches: seq<SeedBatch>,
                    id: string, year: nat, today: string)
    requires || !Present(GetItem(pg.session, PendingOrderKey))
             || pg.orderCreated
             || (pg.session[PendingOrderKey].OrderJson?
                 && forall b :: b in batches && b.id == pg.session[PendingOrderKey].order.batchId ==> !Truthy(b.nurseryId))
    ensures CreateOrderStep(pg, param, batches, id, year, today) == pg
  {
  }

  /** The sale the success page stores, before it is marked paid. */
  function OrderSale(count: nat, o: PendingOrder, nurseryId: string, id: string, year: nat, today: string): (s: Sale)
    ensures s.id == id && s.batchId == o.batchId && s.nurseryId == nurseryId
    ensures s.totalAmount == o.quantity * o.pricePerUnit && s.paymentMethod == Some(Flutterwave)
    ensures s.paymentStatus == Pending && s.transactionReference.None?
  {
    var fields := Priced(OrderDraft(o, nurseryId, today));
    var sale := NewSale(id, SaleNumber(year, count + 1), fields);
    assert Fields(sale) == fields;
    sale
  }

  /** An order the service accepts is stored as a new sale and marked paid
      with `ref`; then the order is cleared and the flag set. */
  lemma PlacedThenPaid(pg: Page, o: PendingOrder, nurseryId: string, ref: string,
                       id: string, year: nat, today: string)
    requires DraftError(OrderDraft(o, nurseryId, today)).None?
    requires Listed(pg.sales).Ok? && forall s :: s in Listed(pg.sales).value ==> s.id != id
    ensures var all, after := Listed(pg.sales).value, PlaceOrderStep(pg, o, nurseryId, ref, id, year, today);
      var sale := OrderSale(|all|, o, nurseryId, id, year, today);
      && after.orderCreated && after.session == Cleared(pg.session)
      && Listed(after.sales) == Ok(all + [sale.(paymentStatus := Paid,
                                                transactionReference := if ref != "" then Some(ref) else None)])
  {
    var all := Listed(pg.sales).value;
    var d := OrderDraft(o, nurseryId, today);
    CreateAppends(pg.sales, Priced(d), id, year);
    var created := CreateSaleStep(pg.sales, d, id, year);
    var sale := OrderSale(|all|, o, nurseryId, id, year, today);
    assert created.result == Ok(Succeed(sale));
    assert Listed(created.after).value == all + [sale];
    UpdatePaymentStatusFound(created.after, id, Paid, Some(ref), |all|);
    var paid := sale.(paymentStatus := Paid, transactionReference := if ref != "" then Some(ref) else None);
    var up := UpdatePaymentStatusStep(created.after, id, Paid, Some(ref));
    assert up.result == Ok(Succeed(paid));
    assert (all + [sale])[|all| := paid] == all + [paid];
    assert PlaceOrderStep(pg, o, nurseryId, ref, id, year, today) == PayStep(pg.(sales := created.after), id, ref);
  }

  /** An order for a known batch with a nursery is placed with that nursery
      and the reference of the fallback chain. */
  lemma CreateOrderPlaces(pg: Page, param: Option<string>, batches: seq<SeedBatch>,
                          id: string, year: nat, today: string, k: nat)
    requires !pg.orderCreated && PendingOrderKey in pg.session && pg.session[PendingOrderKey].OrderJson?
    requires var o := pg.session[PendingOrderKey].order;
      && k < |batches| && batches[k].id == o.batchId && Truthy(batches[k].nurseryId)
      && (forall j :: 0 <= j < k ==> batches[j].id != o.batchId)
    ensures CreateOrderStep(pg, param, batches, id, year, today) ==
            PlaceOrderStep(pg, pg.session[PendingOrderKey].order, batches[k].nurseryId.value,
                           Reference(StoredText(pg.session, TransactionIdKey), StoredText(pg.session, TransactionRefKey), param),
                           id, year, today)
  {
    var o := pg.session[PendingOrderKey].order;
    assert FindIndex(batches, (b: SeedBatch) => b.id == o.batchId) == k;
  }

  /** An order the service accepts, for a batch with a nursery, is stored
      as a sale of that nursery and marked paid with the reference of the
      fallback chain; then the order is cleared and the flag set. */
  lemma CreatedThenPaid(pg: Page, param: Option<string>, batches: seq<SeedBatch>,
                        id: string, year: nat, today: string, k: nat)
    requires !pg.orderCreated && PendingOrderKey in pg.session && pg.session[PendingOrderKey].OrderJson?
    requires var o := pg.session[PendingOrderKey].order;
      && k < |batches| && batches[k].id == o.batchId && Truthy(batches[k].nurseryId)
      && (forall j :: 0 <= j < k ==> batches[j].id != o.batchId)
      && DraftError(OrderDraft(o, batches[k].nurseryId.value, today)).None?
    requires Listed(pg.sales).Ok? && forall s :: s in Listed(pg.sales).value ==> s.id != id
    ensures var o, all := pg.session[PendingOrderKey].order, Listed(pg.sales).value;
      var after := CreateOrderStep(pg, param, batches, id, year, today);
      var ref := Reference(StoredText(pg.session, TransactionIdKey), StoredText(pg.session, TransactionRefKey), param);
      var sale := OrderSale(|all|, o, batches[k].nurseryId.value, id, year, today);
      && after.orderCreated && after.session == Cleared(pg.session)
      && Listed(after.sales) == Ok(all + [sale.(paymentStatus := Paid,
                                                transactionReference := if ref != "" then Some(ref) else None)])
  {
    var o := pg.session[PendingOrderKey].order;
    var ref := Reference(StoredText(pg.session, TransactionIdKey), StoredText(pg.session, TransactionRefKey), param);
    CreateOrderPlaces(pg, param, batches, id, year, today, k);
    PlacedThenPaid(pg, o, batches[k].nurseryId.value, ref, id, year, today);
  }

  /** The service recomputes the total, so a checkout order's shipping is
      not part of the sale. */
  lemma ShippingDropped(count: nat, o: PendingOrder, nurseryId: string, id: string, year: nat, today: string)
    requires o.totalAmount == o.quantity * o.pricePerUnit + Shipping
    ensures OrderSale(count, o, nurseryId, id, year, today).totalAmount == o.totalAmount - Shipping
  {
  }

  /** An order the service refuses leaves the sales, the session and the
      flag as they were, so the next run tries again. */
  lemma RefusedOrderStays(pg: Page, param: Option<string>, batches: seq<SeedBatch>,
                          id: string, year: nat, today: string, k: nat)
    requires !pg.orderCreated && PendingOrderKey in pg.session && pg.session[PendingOrderKey].OrderJson?
    requires var o := pg.session[PendingOrderKey].order;
      && k < |batches| && batches[k].id == o.batchId && Truthy(batches[k].nurseryId)
      && (forall j :: 0 <= j < k ==> batches[j].id != o.batchId)
      && DraftError(OrderDraft(o, batches[k].nurseryId.value, today)).Some?
    ensures CreateOrderStep(pg, param, batches, id, year, today) == pg
  {
    var o := pg.session[PendingOrderKey].order;
    assert FindIndex(batches, (b: SeedBatch) => b.id == o.batchId) == k;
  }

  /** Once an order was created, running again changes nothing: the effect
      re-runs when the flag changes, and finds it set. */
  lemma CreatedOnce(pg: Page, param: Option<string>, batches: seq<SeedBatch>,
                    id: string, year: nat, today: string, id2: string)
    requires CreateOrderStep(pg, param, batches, id, year, today).orderCreated
    ensures var once := CreateOrderStep(pg, param, batches, id, year, today);
      CreateOrderStep(once, param, batches, id2, year, today) == once
  {
  }

  /** After the checkout page's success callback, the sale's reference is
      the gateway's transaction id; without one it is the `tx_ref`, or the
      text "undefined" when the gateway left that out too. */
  lemma ReferenceAfterCheckout(session: Storage, r: Response)
    ensures var s, q := SessionAfterSuccess(session, r), SuccessRoute(r).query;
      var ref := Reference(StoredText(s, TransactionIdKey), StoredText(s, TransactionRefKey), QueryGet(q, "transaction_id"));
      && (Truthy(r.transactionId) ==> ref == r.transactionId.value)
      && (!Truthy(r.transactionId) && r.txRef != Some("") ==> ref == Interpolate(r.txRef))
  {
  }

  // ------------------------------------------------------------------ class

  class SuccessPage {
    const service: SalesService
    const browser: Browser
    var txRef: string
    var transactionId: string
    var orderCreated: bool

    constructor (service: SalesService, browser: Browser)
      requires service.repo.browser == browser
      ensures this.service == service && this.browser == browser
      ensures txRef == "" && transactionId == "" && !orderCreated
    {
      this.service := service;
      this.browser := browser;
      txRef := "";
      transactionId := "";
      orderCreated := false;
    }

    function State(): Page
      reads this, browser, service.repo, service.repo.browser
    {
      Page(service.repo.State(), browser.session, orderCreated)
    }

    method Pay(saleId: string, ref: string)
      requires service.repo.browser == browser
      modifies browser`local, browser`session, service.repo`defaultList, this`orderCreated
      ensures State() == PayStep(old(State()), saleId, ref)
    {
      var updated := service.UpdatePaymentStatus(saleId, Paid, Some(ref));
      if updated.Thrown? {
        return;
      }
      FinishOrder();
    }

    /** The order is created: the flag is set and the three session keys go. */
    method FinishOrder()
      requires service.repo.browser == browser
      modifies browser`session, this`orderCreated
      ensures State() == Page(old(State()).sales, Cleared(old(State()).session), true)
    {
      orderCreated := true;
      browser.RemoveSession(PendingOrderKey);
      browser.RemoveSession(TransactionRefKey);
      browser.RemoveSession(TransactionIdKey);
    }

    method PlaceOrder(o: PendingOrder, nurseryId: string, ref: string, id: string, year: nat, today: string)
      requires service.repo.browser == browser
      modifies browser`local, browser`session, service.repo`defaultList, this`orderCreated
      ensures State() == PlaceOrderStep(old(State()), o, nurseryId, ref, id, year, today)
    {
      var result := service.CreateSale(OrderDraft(o, nurseryId, today), id, year);
      if result.Thrown? {
        return;
      }
      if result.value.success && result.value.data.Some? {
        Pay(result.value.data.value.id, ref);
      }
    }

    method CreateOrder(param: Option<string>, batches: seq<SeedBatch>, id: string, year: nat, today: string)
      requires service.repo.browser == browser
      modifies browser`local, browser`session, service.repo`defaultList, this`orderCreated
      ensures State() == CreateOrderStep(old(State()), param, batches, id, year, today)
    {
      var orderData := GetItem(browser.session, PendingOrderKey);
      var storedTxRef := StoredText(browser.session, TransactionRefKey);
      var storedTxId := StoredText(browser.session, TransactionIdKey);
      if !Present(orderData) || orderCreated {
        return;
      }
      if !orderData.value.OrderJson? {
        return;
      }
      var order := orderData.value.order;
      var batch := Find(batches, (b: SeedBatch) => b.id == order.batchId);
      if batch.None? || !Truthy(batch.value.nurseryId) {
        return;
      }
      PlaceOrder(order, batch.value.nurseryId.value, Reference(storedTxId, storedTxRef, param), id, year, today);
    }

    /** The effect on `searchParams`. */
    method OnParams(query: seq<(string, string)>, batches: seq<SeedBatch>, id: string, year: nat, today: string)
      requires service.repo.browser == browser
      modifies browser`local, browser`session, service.repo`defaultList, this`orderCreated, this`txRef, this`transactionId
      ensures State() == OnParamsStep(old(State()), query, batches, id, year, today)
      ensures txRef == if Truthy(QueryGet(query, "tx_ref")) then QueryGet(query, "tx_ref").value else old(txRef)
      ensures transactionId == if Truthy(QueryGet(query, "transaction_id")) then QueryGet(query, "transaction_id").value
                               else old(transactionId)
    {
      var txRefParam := QueryGet(query, "tx_ref");
      var transactionIdParam := QueryGet(query, "transaction_id");
      if Truthy(txRefParam) {
        txRef := txRefParam.value;
      }
      if Truthy(transactionIdParam) {
        transactionId := transactionIdParam.value;
      }
      if Truthy(txRefParam) && Truthy(transactionIdParam) {
        CreateOrder(transactionIdParam, batches, id, year, today);
      }
    }
  }
}
