/** `SalesService`: input checks in front of the sales repository, replies of
    the form `{ success, data?, error? }`, and the sales statistics. */
module SalesService {
  import opened Wrappers
  import opened Models
  import opened Seqs
  import opened Web
  import opened SalesRepository

  const BatchRequired := "Batch ID is required"
  const QuantityNotPositive := "Quantity must be greater than 0"
  const PriceNotPositive := "Price per unit must be greater than 0"
  const CustomerRequired := "Customer information is required"
  const SaleNotFound := "Sale not found"
  const UpdateFailed := "Failed to update sale"

  /** The first check of `createSale` that the draft fails, in the order the
      service runs them. `!price` adds nothing to `price <= 0` without NaN. */
  function DraftError(d: SaleDraft): (e: Option<string>)
    ensures e.None? <==> d.batchId != "" && d.quantity > 0.0 && d.pricePerUnit > 0.0
                         && d.customerName != "" && d.customerEmail != "" && d.customerPhone != ""
    ensures d.batchId == "" ==> e == Some(BatchRequired)
    ensures d.batchId != "" && d.quantity <= 0.0 ==> e == Some(QuantityNotPositive)
    ensures d.batchId != "" && d.quantity > 0.0 && d.pricePerUnit <= 0.0 ==> e == Some(PriceNotPositive)
    ensures d.batchId != "" && d.quantity > 0.0 && d.pricePerUnit > 0.0
            && (d.customerName == "" || d.customerEmail == "" || d.customerPhone == "")
            ==> e == Some(CustomerRequired)
  {
    if d.batchId == "" then Some(BatchRequired)
    else if d.quantity <= 0.0 then Some(QuantityNotPositive)
    else if d.pricePerUnit <= 0.0 then Some(PriceNotPositive)
    else if d.customerName == "" || d.customerEmail == "" || d.customerPhone == "" then Some(CustomerRequired)
    else None
  }

  /** `{ ...saleData, totalAmount, paymentStatus: "pending" }` */
  function Priced(d: SaleDraft): (f: SaleFields)
    ensures f.totalAmount == d.quantity * d.pricePerUnit && f.paymentStatus == Pending
  {
    SaleFields(d.batchId, d.species, d.quantity, d.unit, d.pricePerUnit,
               d.quantity * d.pricePerUnit, d.customerName, d.customerEmail, d.customerPhone,
               Pending, d.paymentMethod, d.transactionReference, d.saleDate, d.notes, d.nurseryId)
  }

  /** `createSale(draft)`, with the repository's id and year passed in. */
  function CreateSaleStep(st: Store, d: SaleDraft, id: string, year: nat): Step<Reply<Sale>> {
    match DraftError(d)
    case Some(e) => Step(Ok(Fail(e)), st)
    case None =>
      var c := CreateStep(st, Priced(d), id, year);
      match c.result
      case Thrown(m) => Step(Thrown(m), c.after)
      case Ok(sale) => Step(Ok(Succeed(sale)), c.after)
  }

  /** `{ paymentStatus: status }`, plus the reference when it is truthy. */
  function PaymentUpdates(status: PaymentStatus, reference: Option<string>): SaleUpdates {
    NoSaleUpdates.(paymentStatus := Some(status),
                   transactionReference := if Truthy(reference) then Some(Some(reference.value)) else None)
  }

  /** `updatePaymentStatus(saleId, status, reference)` */
  function UpdatePaymentStatusStep(st: Store, saleId: string, status: PaymentStatus,
                                   reference: Option<string>): Step<Reply<Sale>> {
    var found := GetByIdStep(st, saleId);
    match found.result
    case Thrown(m) => Step(Thrown(m), found.after)
    case Ok(None) => Step(Ok(Fail(SaleNotFound)), found.after)
    case Ok(Some(_)) =>
      var up := UpdateStep(found.after, saleId, PaymentUpdates(status, reference));
      match up.result
      case Thrown(m) => Step(Thrown(m), up.after)
      case Ok(None) => Step(Ok(Fail(UpdateFailed)), up.after)
      case Ok(Some(s)) => Step(Ok(Succeed(s)), up.after)
  }

  datatype SalesStats = SalesStats(totalSales: nat, totalRevenue: real, pendingPayments: nat, paidSales: nat)

  predicate IsPaid(s: Sale) {
    s.paymentStatus == Paid
  }

  predicate IsPending(s: Sale) {
    s.paymentStatus == Pending
  }

  function TotalAmount(s: Sale): real {
    s.totalAmount
  }

  /** The statistics of `getSalesStats` over the sales `getAll` returned. */
  function Stats(sales: seq<Sale>): SalesStats {
    SalesStats(|sales|, Sum(Filter(sales, IsPaid), TotalAmount),
               Count(sales, IsPending), Count(sales, IsPaid))
  }

  // ------------------------------------------------------------- properties

  /** A draft that fails a check is answered with that check's message and
      the repository is not called: the store stays exactly as it was. */
  lemma CreateSaleRejects(st: Store, d: SaleDraft, id: string, year: nat)
    requires DraftError(d).Some?
    ensures CreateSaleStep(st, d, id, year) == Step(Ok(Fail(DraftError(d).value)), st)
  {
  }

  /** A draft that passes is stored at the end of the list with total
      `quantity * pricePerUnit`, status `pending` and the draft's fields, and
      the reply carries the stored sale. */
  lemma CreateSaleStores(st: Store, d: SaleDraft, id: string, year: nat)
    requires DraftError(d).None? && Listed(st).Ok?
    ensures var step := CreateSaleStep(st, d, id, year);
      && step.result.Ok? && step.result.value.success && step.result.value.data.Some?
      && var sale := step.result.value.data.value;
      && Listed(step.after) == Ok(Listed(st).value + [sale])
      && sale.totalAmount == d.quantity * d.pricePerUnit && sale.paymentStatus == Pending
      && sale.id == id && sale.batchId == d.batchId && sale.nurseryId == d.nurseryId
      && sale.customerName == d.customerName && sale.paymentMethod == d.paymentMethod
      && Fields(sale) == Priced(d)
  {
    CreateAppends(st, Priced(d), id, year);
    CreateNumbersOverAllSales(st, Priced(d), id, year, None);
  }

  /** An unknown sale is answered with "Sale not found" and nothing changes
      beyond the repository's seeding. */
  lemma UpdatePaymentStatusUnknown(st: Store, saleId: string, status: PaymentStatus, reference: Option<string>)
    requires Listed(st).Ok?
    requires forall s :: s in Listed(st).value ==> s.id != saleId
    ensures UpdatePaymentStatusStep(st, saleId, status, reference) == Step(Ok(Fail(SaleNotFound)), Seeded(st))
  {
    GetByIdFindsFirst(st, saleId);
  }

  /** A found sale gets the new status; its reference becomes the argument
      when that is non-empty and stays as it was otherwise; nothing else of
      it, and no other sale, changes. */
  lemma UpdatePaymentStatusFound(st: Store, saleId: string, status: PaymentStatus,
                                 reference: Option<string>, k: nat)
    requires Listed(st).Ok? && k < |Listed(st).value|
    requires Listed(st).value[k].id == saleId
    requires forall j :: 0 <= j < k ==> Listed(st).value[j].id != saleId
    ensures var all, step := Listed(st).value, UpdatePaymentStatusStep(st, saleId, status, reference);
      var expected := all[k].(paymentStatus := status,
                              transactionReference := if Truthy(reference) then reference
                                                      else all[k].transactionReference);
      && step.result == Ok(Succeed(expected))
      && Listed(step.after).Ok?
      && Listed(step.after).value == all[k := expected]
  {
    var all := Listed(st).value;
    GetByIdFindsFirst(st, saleId);
    var after := GetByIdStep(st, saleId).after;
    assert Listed(after) == Listed(st);
    UpdateKnownId(after, saleId, PaymentUpdates(status, reference), k);
    var list := Listed(UpdateStep(after, saleId, PaymentUpdates(status, reference)).after).value;
    assert list == all[k := MergeSale(all[k], PaymentUpdates(status, reference))];
  }

  /** Pending and paid sales are counted apart, so together they never
      exceed the total. The revenue adds up the paid sales only: it sums
      every sale's paid amount, and with no negative totals it lies between
      0 and the sum of all totals. */
  lemma StatsBounds(sales: seq<Sale>)
    ensures Stats(sales).pendingPayments + Stats(sales).paidSales <= Stats(sales).totalSales
    ensures Stats(sales).totalRevenue == Sum(sales, PaidAmount)
    ensures (forall i :: 0 <= i < |sales| ==> sales[i].totalAmount >= 0.0) ==>
      0.0 <= Stats(sales).totalRevenue <= Sum(sales, TotalAmount)
  {
    CountDisjoint(sales, IsPending, IsPaid);
    RevenueOfPaid(sales);
    if forall i :: 0 <= i < |sales| ==> sales[i].totalAmount >= 0.0 {
      RevenueBounds(sales);
    }
  }

  /** A paid sale's total, and 0 for any other sale. */
  function PaidAmount(s: Sale): real {
    if IsPaid(s) then s.totalAmount else 0.0
  }

  /** Summing the paid sales' totals is summing every sale's paid amount. */
  lemma {:induction false} RevenueOfPaid(sales: seq<Sale>)
    ensures Sum(Filter(sales, IsPaid), TotalAmount) == Sum(sales, PaidAmount)
  {
    if sales != [] {
      RevenueOfPaid(sales[1..]);
      var head: seq<Sale> := if IsPaid(sales[0]) then [sales[0]] else [];
      SumAppend(head, Filter(sales[1..], IsPaid), TotalAmount);
    }
  }

  /** With no negative totals, the paid amounts add up to between 0 and the
      sum of all totals. */
  lemma {:induction false} RevenueBounds(sales: seq<Sale>)
    requires forall i :: 0 <= i < |sales| ==> sales[i].totalAmount >= 0.0
    ensures 0.0 <= Sum(sales, PaidAmount) <= Sum(sales, TotalAmount)
  {
    if sales != [] {
      assert forall i :: 0 <= i < |sales[1..]| ==> sales[1..][i] == sales[i + 1];
      RevenueBounds(sales[1..]);
    }
  }

  /** Adding one sale adds one to the total and counts it under its status. */
  lemma {:induction false} StatsOfAppended(sales: seq<Sale>, s: Sale)
    ensures var before, after := Stats(sales), Stats(sales + [s]);
      && after.totalSales == before.totalSales + 1
      && after.paidSales == before.paidSales + (if IsPaid(s) then 1 else 0)
      && after.pendingPayments == before.pendingPayments + (if IsPending(s) then 1 else 0)
      && after.totalRevenue == before.totalRevenue + (if IsPaid(s) then s.totalAmount else 0.0)
  {
    CountAppend(sales, [s], IsPaid);
    CountAppend(sales, [s], IsPending);
    FilterAppend(sales, [s], IsPaid);
    SumAppend(Filter(sales, IsPaid), Filter([s], IsPaid), TotalAmount);
    assert Filter([s], IsPaid) == (if IsPaid(s) then [s] else []);
    assert Sum([s], TotalAmount) == s.totalAmount;
  }

  // ------------------------------------------------------------------ class

  class SalesService {
    const repo: SalesRepository

    constructor (repo: SalesRepository)
      ensures this.repo == repo
    {
      this.repo := repo;
    }

    method GetAllSales(nurseryId: Option<string>) returns (r: Outcome<seq<Sale>>)
      modifies repo.browser`local
      ensures Step(r, repo.State()) == GetAllStep(old(repo.State()), nurseryId)
    {
      r := repo.GetAll(nurseryId);
    }

    method CreateSale(d: SaleDraft, id: string, year: nat) returns (r: Outcome<Reply<Sale>>)
      modifies repo.browser`local, repo`defaultList
      ensures Step(r, repo.State()) == CreateSaleStep(old(repo.State()), d, id, year)
    {
      var e := DraftError(d);
      if e.Some? {
        return Ok(Fail(e.value));
      }
      var created := repo.Create(Priced(d), id, year);
      match created
      case Thrown(m) => r := Thrown(m);
      case Ok(sale) => r := Ok(Succeed(sale));
    }

    method UpdatePaymentStatus(saleId: string, status: PaymentStatus, reference: Option<string>)
      returns (r: Outcome<Reply<Sale>>)
      modifies repo.browser`local, repo`defaultList
      ensures Step(r, repo.State()) == UpdatePaymentStatusStep(old(repo.State()), saleId, status, reference)
    {
      var found := repo.GetById(saleId);
      if found.Thrown? {
        return Thrown(found.message);
      }
      if found.value.None? {
        return Ok(Fail(SaleNotFound));
      }
      var updated := repo.Update(saleId, PaymentUpdates(status, reference));
      match updated
      case Thrown(m) => r := Thrown(m);
      case Ok(None) => r := Ok(Fail(UpdateFailed));
      case Ok(Some(s)) => r := Ok(Succeed(s));
    }

    method GetSalesStats(nurseryId: Option<string>) returns (r: Outcome<SalesStats>)
      modifies repo.browser`local
      ensures var step := GetAllStep(old(repo.State()), nurseryId);
        repo.State() == step.after
        && r == match step.result case Thrown(m) => Thrown(m) case Ok(sales) => Ok(Stats(sales))
    {
      var sales := repo.GetAll(nurseryId);
      match sales
      case Thrown(m) => r := Thrown(m);
      case Ok(s) => r := Ok(Stats(s));
    }
  }
}
