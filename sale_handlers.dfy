/** `useSaleHandlers`: the nursery's sale form is checked against the batches
    it may sell from, turned into a sale through `SalesService`, and, for a
    Flutterwave sale, paid through the gateway. The hook's `onSuccess` and
    `onError` callbacks are the events its operations return. */
module SaleHandlers {
  import opened Wrappers
  import opened Models
  import opened Text
  import opened Seqs
  import opened SalesRepository
  import opened SalesService
  import opened Flutterwave

  const SelectBatch := "Please select a batch"
  const CreateFailed := "Failed to create sale"

  /** `CreateSaleData`: what the form holds, numbers still as text. */
  datatype SaleForm = SaleForm(
    batchId: string,
    quantity: string,
    pricePerUnit: string,
    customerName: string,
    customerEmail: string,
    customerPhone: string,
    paymentMethod: PaymentMethod,
    notes: string)

  /** A message for `onError`. The range message shows the batch quantity as
      text; the model keeps the number. */
  datatype Notice = Message(text: string) | QuantityBetween(max: real)

  /** A call of `onSuccess()` or `onError(message)`. */
  datatype Event = Succeeded | Errored(notice: Notice)

  /** `{ valid, error?, batch? }`; a valid form also carries its parsed numbers. */
  datatype Validation = Valid(batch: SeedBatch, quantity: real, pricePerUnit: real) | Invalid(error: Notice)

  /** `!(quantity <= 0 || quantity > batch.quantity)` */
  predicate QuantityFits(q: Option<real>, b: SeedBatch) {
    q.Some? && 0.0 < q.value <= b.quantity
  }

  /** `!(pricePerUnit <= 0)` */
  predicate PricePositive(p: Option<real>) {
    p.Some? && p.value > 0.0
  }

  predicate HasId(b: SeedBatch, id: string) {
    b.id == id
  }

  /** `validateSale(formData)` over the hook's available batches. */
  function ValidateSale(batches: seq<SeedBatch>, f: SaleForm): (v: Validation)
    ensures v.Valid? ==> v.batch in batches && v.batch.id == f.batchId
                         && ParseNumber(f.quantity) == Some(v.quantity) && 0.0 < v.quantity <= v.batch.quantity
                         && ParseNumber(f.pricePerUnit) == Some(v.pricePerUnit) && v.pricePerUnit > 0.0
    ensures v == Invalid(Message(SelectBatch)) <==> forall b :: b in batches ==> b.id != f.batchId
    ensures v.Invalid? && v.error.QuantityBetween? ==>
              exists b :: b in batches && b.id == f.batchId && v.error.max == b.quantity
                          && !QuantityFits(ParseNumber(f.quantity), b)
    ensures v == Invalid(Message(PriceNotPositive)) ==> !PricePositive(ParseNumber(f.pricePerUnit))
  {
    match Find(batches, (b: SeedBatch) => HasId(b, f.batchId))
    case None => Invalid(Message(SelectBatch))
    case Some(b) =>
      if !QuantityFits(ParseNumber(f.quantity), b) then Invalid(QuantityBetween(b.quantity))
      else if !PricePositive(ParseNumber(f.pricePerUnit)) then Invalid(Message(PriceNotPositive))
      else Valid(b, ParseNumber(f.quantity).value, ParseNumber(f.pricePerUnit).value)
  }

  /** The checks run in the order batch, quantity, price, against the first
      batch with the form's id. */
  lemma ValidateSaleOrder(batches: seq<SeedBatch>, f: SaleForm, k: nat)
    requires k < |batches| && batches[k].id == f.batchId
    requires forall j :: 0 <= j < k ==> batches[j].id != f.batchId
    ensures var v, b, q, p := ValidateSale(batches, f), batches[k], ParseNumber(f.quantity), ParseNumber(f.pricePerUnit);
      && (!QuantityFits(q, b) ==> v == Invalid(QuantityBetween(b.quantity)))
      && (QuantityFits(q, b) && !PricePositive(p) ==> v == Invalid(Message(PriceNotPositive)))
      && (QuantityFits(q, b) && PricePositive(p) ==> v == Valid(b, q.value, p.value))
  {
    assert FindIndex(batches, (b: SeedBatch) => HasId(b, f.batchId)) == k;
  }

  /** `saleData`: species and unit from the batch, the nursery from the hook,
      the rest from the form. */
  function DraftOf(f: SaleForm, b: SeedBatch, q: real, p: real, nurseryId: string, today: string): (d: SaleDraft)
    ensures d.species == b.species && d.unit == UnitName(b.unit) && d.nurseryId == nurseryId
    ensures d.batchId == f.batchId && d.quantity == q && d.pricePerUnit == p
    ensures d.customerName == f.customerName && d.customerEmail == f.customerEmail
            && d.customerPhone == f.customerPhone && d.paymentMethod == Some(f.paymentMethod)
  {
    SaleDraft(f.batchId, b.species, q, UnitName(b.unit), p, f.customerName, f.customerEmail,
              f.customerPhone, Some(f.paymentMethod), None, today, Some(f.notes), nurseryId)
  }

  /** Where `createSale` leaves things: a callback was called, or the gateway
      was opened and the sale waits for its answer. */
  datatype Flow = Reported(event: Event) | AwaitingGateway(sale: Sale, payload: Payload)

  /** `handleFlutterwavePayment(sale)` up to the gateway's answer. */
  function StartPayment(sale: Sale, gatewayLoaded: bool): Flow {
    match ProcessPayment(sale, gatewayLoaded)
    case Opened(p) => AwaitingGateway(sale, p)
    case Refused(sig) => Reported(Errored(Message(OrElse(sig.message, NotSuccessful))))
  }

  /** `createSale(formData)`, with the sale's id, the year, today's date and
      whether the gateway script has loaded passed in. */
  function CreateSaleFlow(st: Store, batches: seq<SeedBatch>, nurseryId: string, f: SaleForm,
                          id: string, year: nat, today: string, gatewayLoaded: bool): Step<Flow> {
    match ValidateSale(batches, f)
    case Invalid(e) => Step(Ok(Reported(Errored(e))), st)
    case Valid(b, q, p) =>
      var d := DraftOf(f, b, q, p, nurseryId, today);
      var created := CreateSaleStep(st, d, id, year);
      match created.result
      case Thrown(m) => Step(Thrown(m), created.after)
      case Ok(reply) =>
        if reply.success && reply.data.Some? then
          if f.paymentMethod == Flutterwave then Step(Ok(StartPayment(reply.data.value, gatewayLoaded)), created.after)
          else Step(Ok(Reported(Succeeded)), created.after)
        else Step(Ok(Reported(Errored(Message(OrElse(reply.error, CreateFailed))))), created.after)
  }

  /** The payment callbacks of `handleFlutterwavePayment`, for one answer of
      the gateway. A success is followed by `onSuccess` whatever the update
      replied; only a throwing update keeps it from being called. */
  function GatewayAnswerStep(st: Store, sale: Sale, e: GatewayEvent): Step<Option<Event>> {
    match Dispatch(e)
    case None => Step(Ok(None), st)
    case Some(ErrorSignal(m)) => Step(Ok(Some(Errored(Message(OrElse(m, NotSuccessful))))), st)
    case Some(SuccessSignal(tx)) =>
      var up := UpdatePaymentStatusStep(st, sale.id, Paid, Some(OrElse(tx, sale.saleNumber)));
      match up.result
      case Thrown(m) => Step(Thrown(m), up.after)
      case Ok(_) => Step(Ok(Some(Succeeded)), up.after)
  }

  // ------------------------------------------------------------- properties

  /** Invalid input is reported through `onError` with the check's message
      ("Validation failed" is never needed) and the service is not called. */
  lemma InvalidNeverCallsService(st: Store, batches: seq<SeedBatch>, nurseryId: string, f: SaleForm,
                                 id: string, year: nat, today: string, gatewayLoaded: bool)
    requires ValidateSale(batches, f).Invalid?
    ensures CreateSaleFlow(st, batches, nurseryId, f, id, year, today, gatewayLoaded)
            == Step(Ok(Reported(Errored(ValidateSale(batches, f).error))), st)
  {
  }

  /** The sale `createSale` stores for a form valid with batch `b`, quantity
      `q` and price `p`, behind `count` stored sales: species and unit from
      the batch, the nursery from the hook, priced from the form, pending. */
  function StoredSale(count: nat, b: SeedBatch, q: real, p: real, f: SaleForm, nurseryId: string,
                      id: string, year: nat, today: string): (sale: Sale)
    ensures sale.id == id && sale.saleNumber == SaleNumber(year, count + 1)
    ensures sale.batchId == f.batchId && sale.species == b.species
    ensures sale.unit == UnitName(b.unit) && sale.nurseryId == nurseryId
    ensures sale.quantity == q && sale.pricePerUnit == p && sale.totalAmount == q * p
    ensures sale.paymentStatus == Pending && sale.paymentMethod == Some(f.paymentMethod)
    ensures sale.customerName == f.customerName && sale.customerEmail == f.customerEmail
    ensures sale.customerPhone == f.customerPhone
  {
    var fields := Priced(DraftOf(f, b, q, p, nurseryId, today));
    var sale := NewSale(id, SaleNumber(year, count + 1), fields);
    assert Fields(sale) == fields;
    sale
  }

  function SaleOfForm(st: Store, batches: seq<SeedBatch>, nurseryId: string, f: SaleForm,
                      id: string, year: nat, today: string): Sale
    requires ValidateSale(batches, f).Valid? && Listed(st).Ok?
  {
    var v := ValidateSale(batches, f);
    StoredSale(|Listed(st).value|, v.batch, v.quantity, v.pricePerUnit, f, nurseryId, id, year, today)
  }

  /** A valid form with the customer fields the service needs is stored at
      the end of the sales. */
  lemma ValidSaleIsStored(st: Store, batches: seq<SeedBatch>, nurseryId: string, f: SaleForm,
                          id: string, year: nat, today: string, gatewayLoaded: bool)
    requires ValidateSale(batches, f).Valid? && Listed(st).Ok?
    requires f.batchId != "" && f.customerName != "" && f.customerEmail != "" && f.customerPhone != ""
    ensures Listed(CreateSaleFlow(st, batches, nurseryId, f, id, year, today, gatewayLoaded).after)
            == Ok(Listed(st).value + [SaleOfForm(st, batches, nurseryId, f, id, year, today)])
  {
    var v := ValidateSale(batches, f);
    var d := DraftOf(f, v.batch, v.quantity, v.pricePerUnit, nurseryId, today);
    assert DraftError(d).None?;
    CreateSaleStores(st, d, id, year);
    CreateAppends(st, Priced(d), id, year);
    var created := CreateSaleStep(st, d, id, year);
    assert created.result.value.data.value == SaleOfForm(st, batches, nurseryId, f, id, year, today);
    assert CreateSaleFlow(st, batches, nurseryId, f, id, year, today, gatewayLoaded).after == created.after;
  }

  /** After storing it, a non-Flutterwave sale reports success; a Flutterwave
      sale opens the gateway with that sale's payload, or reports the loading
      error with the pending sale left stored. */
  lemma ValidSaleReport(st: Store, batches: seq<SeedBatch>, nurseryId: string, f: SaleForm,
                        id: string, year: nat, today: string, gatewayLoaded: bool)
    requires ValidateSale(batches, f).Valid? && Listed(st).Ok?
    requires f.batchId != "" && f.customerName != "" && f.customerEmail != "" && f.customerPhone != ""
    ensures var sale := SaleOfForm(st, batches, nurseryId, f, id, year, today);
      CreateSaleFlow(st, batches, nurseryId, f, id, year, today, gatewayLoaded).result
        == Ok(if f.paymentMethod != Flutterwave then Reported(Succeeded)
              else if gatewayLoaded then AwaitingGateway(sale, SalePayload(sale))
              else Reported(Errored(Message(GatewayLoading))))
  {
    var v := ValidateSale(batches, f);
    var d := DraftOf(f, v.batch, v.quantity, v.pricePerUnit, nurseryId, today);
    assert DraftError(d).None?;
    CreateSaleStores(st, d, id, year);
    CreateAppends(st, Priced(d), id, year);
  }

  /** A form the hook accepts can still be refused by the service, which
      also needs the customer fields; its message is passed on. */
  lemma ServiceRefusalPassedOn(st: Store, batches: seq<SeedBatch>, nurseryId: string, f: SaleForm,
                               id: string, year: nat, today: string, gatewayLoaded: bool)
    requires ValidateSale(batches, f).Valid? && f.batchId != ""
    requires f.customerName == "" || f.customerEmail == "" || f.customerPhone == ""
    ensures CreateSaleFlow(st, batches, nurseryId, f, id, year, today, gatewayLoaded)
            == Step(Ok(Reported(Errored(Message(CustomerRequired)))), st)
  {
  }

  /** A successful payment marks the sale paid with the gateway's transaction
      id, or the sale number when the gateway gave none, and then reports
      success. */
  lemma PaymentSuccessMarksPaid(st: Store, sale: Sale, r: Response, k: nat)
    requires r.status == Successful
    requires Listed(st).Ok? && k < |Listed(st).value| && Listed(st).value[k].id == sale.id
    requires forall j :: 0 <= j < k ==> Listed(st).value[j].id != sale.id
    ensures var all, step := Listed(st).value, GatewayAnswerStep(st, sale, Callback(r));
      var ref := if Truthy(r.transactionId) then r.transactionId.value else sale.saleNumber;
      var paid := all[k].(paymentStatus := Paid,
                          transactionReference := if ref != "" then Some(ref) else all[k].transactionReference);
      && step.result == Ok(Some(Succeeded))
      && Listed(step.after) == Ok(all[k := paid])
  {
    var ref := OrElse(r.transactionId, sale.saleNumber);
    UpdatePaymentStatusFound(st, sale.id, Paid, Some(ref), k);
  }

  /** A success is reported even when the sale is no longer there. */
  lemma PaymentSuccessIgnoresReply(st: Store, sale: Sale, r: Response)
    requires r.status == Successful && Listed(st).Ok?
    requires forall s :: s in Listed(st).value ==> s.id != sale.id
    ensures GatewayAnswerStep(st, sale, Callback(r)) == Step(Ok(Some(Succeeded)), Seeded(st))
  {
    UpdatePaymentStatusUnknown(st, sale.id, Paid, Some(OrElse(r.transactionId, sale.saleNumber)));
  }

  /** A failed payment reports the gateway's message and a closed gateway
      reports nothing; neither touches the sales. */
  lemma PaymentFailureOrClose(st: Store, sale: Sale, e: GatewayEvent)
    requires e.Closed? || e.response.status != Successful
    ensures var step := GatewayAnswerStep(st, sale, e);
      && step.after == st
      && step.result == Ok(if e.Closed? then None else Some(Errored(Message(NotSuccessful))))
  {
  }

  // ------------------------------------------------------------------ class

  /** The hook: its service and the arguments it closes over. */
  class SaleHandlers {
    const service: SalesService
    const availableBatches: seq<SeedBatch>
    const nurseryId: string

    constructor (service: SalesService, availableBatches: seq<SeedBatch>, nurseryId: string)
      ensures this.service == service && this.availableBatches == availableBatches
      ensures this.nurseryId == nurseryId
    {
      this.service := service;
      this.availableBatches := availableBatches;
      this.nurseryId := nurseryId;
    }

    method CreateSale(f: SaleForm, id: string, year: nat, today: string, gatewayLoaded: bool)
      returns (r: Outcome<Flow>)
      modifies service.repo.browser`local, service.repo`defaultList
      ensures Step(r, service.repo.State())
              == CreateSaleFlow(old(service.repo.State()), availableBatches, nurseryId, f, id, year, today, gatewayLoaded)
    {
      var validation := ValidateSale(availableBatches, f);
      if validation.Invalid? {
        return Ok(Reported(Errored(validation.error)));
      }
      var saleData := DraftOf(f, validation.batch, validation.quantity, validation.pricePerUnit, nurseryId, today);
      var result := service.CreateSale(saleData, id, year);
      if result.Thrown? {
        return Thrown(result.message);
      }
      var reply := result.value;
      if reply.success && reply.data.Some? {
        if f.paymentMethod == Flutterwave {
          r := Ok(StartPayment(reply.data.value, gatewayLoaded));
        } else {
          r := Ok(Reported(Succeeded));
        }
      } else {
        r := Ok(Reported(Errored(Message(OrElse(reply.error, CreateFailed)))));
      }
    }

    /** The gateway's answer for `sale`, once it was opened. */
    method OnGatewayAnswer(sale: Sale, e: GatewayEvent) returns (r: Outcome<Option<Event>>)
      modifies service.repo.browser`local, service.repo`defaultList
      ensures Step(r, service.repo.State()) == GatewayAnswerStep(old(service.repo.State()), sale, e)
    {
      var signal := Dispatch(e);
      if signal.None? {
        return Ok(None);
      }
      match signal.value {
        case ErrorSignal(m) =>
          r := Ok(Some(Errored(Message(OrElse(m, NotSuccessful)))));
        case SuccessSignal(tx) =>
          var updated := service.UpdatePaymentStatus(sale.id, Paid, Some(OrElse(tx, sale.saleNumber)));
          if updated.Thrown? {
            return Thrown(updated.message);
          }
          r := Ok(Some(Succeeded));
      }
    }
  }
}
