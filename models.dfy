/** The records of the dashboard: sales, users, seed collections, seed batches,
    nurseries and restoration projects. Numbers are `real`; a field the
    TypeScript interface marks optional is an `Option`. */
module Models {
  import opened Wrappers

  // ---------------------------------------------------------------- users

  /** `UserRole`. Stored users may carry any role string, so the four known
      roles are joined by `OtherRole` for everything else. */
  datatype Role = Collector | Nursery | Partner | Admin | OtherRole(name: string)

  /** A user as the session stores it: no password. */
  datatype User = User(id: string, email: string, name: string, role: Role, region: Option<string>)

  /** An entry of the bundled users file: a user together with its password. */
  datatype Account = Account(id: string, email: string, name: string, role: Role,
                             region: Option<string>, password: string)

  /** The account without its password field. */
  function WithoutPassword(a: Account): (u: User)
    ensures u.id == a.id && u.email == a.email && u.name == a.name
    ensures u.role == a.role && u.region == a.region
  {
    User(a.id, a.email, a.name, a.role, a.region)
  }

  datatype Credentials = Credentials(email: string, password: string)

  datatype AuthResponse = AuthResponse(user: User, token: string)

  // ---------------------------------------------------------------- sales

  datatype PaymentStatus = Pending | Paid | Failed | Refunded

  datatype PaymentMethod = Flutterwave | Cash | BankTransfer

  /** The unit of a seed batch: `"kg" | "seeds"`. A sale keeps its unit as
      text, since the checkout pages copy it from a URL parameter with only a
      type cast in between. */
  datatype Unit = Kg | Seeds

  function UnitName(u: Unit): (t: string)
    ensures t == "kg" <==> u == Kg
  {
    match u
    case Kg => "kg"
    case Seeds => "seeds"
  }

  datatype Sale = Sale(
    id: string,
    saleNumber: string,
    batchId: string,
    species: string,
    quantity: real,
    unit: string,
    pricePerUnit: real,
    totalAmount: real,
    customerName: string,
    customerEmail: string,
    customerPhone: string,
    paymentStatus: PaymentStatus,
    paymentMethod: Option<PaymentMethod>,
    transactionReference: Option<string>,
    saleDate: string,
    notes: Option<string>,
    nurseryId: string)

  /** `Omit<Sale, "id" | "saleNumber">`: what the sales repository is asked to store. */
  datatype SaleFields = SaleFields(
    batchId: string,
    species: string,
    quantity: real,
    unit: string,
    pricePerUnit: real,
    totalAmount: real,
    customerName: string,
    customerEmail: string,
    customerPhone: string,
    paymentStatus: PaymentStatus,
    paymentMethod: Option<PaymentMethod>,
    transactionReference: Option<string>,
    saleDate: string,
    notes: Option<string>,
    nurseryId: string)

  /** `{ id, saleNumber, ...fields }` */
  function NewSale(id: string, saleNumber: string, f: SaleFields): (s: Sale)
    ensures s.id == id && s.saleNumber == saleNumber
    ensures Fields(s) == f
  {
    Sale(id, saleNumber, f.batchId, f.species, f.quantity, f.unit, f.pricePerUnit,
         f.totalAmount, f.customerName, f.customerEmail, f.customerPhone, f.paymentStatus,
         f.paymentMethod, f.transactionReference, f.saleDate, f.notes, f.nurseryId)
  }

  /** Everything of a sale but its id and sale number. */
  function Fields(s: Sale): SaleFields {
    SaleFields(s.batchId, s.species, s.quantity, s.unit, s.pricePerUnit, s.totalAmount,
               s.customerName, s.customerEmail, s.customerPhone, s.paymentStatus,
               s.paymentMethod, s.transactionReference, s.saleDate, s.notes, s.nurseryId)
  }

  /** `Omit<Sale, "id" | "saleNumber" | "totalAmount" | "paymentStatus">`:
      what `SalesService.createSale` is given. */
  datatype SaleDraft = SaleDraft(
    batchId: string,
    species: string,
    quantity: real,
    unit: string,
    pricePerUnit: real,
    customerName: string,
    customerEmail: string,
    customerPhone: string,
    paymentMethod: Option<PaymentMethod>,
    transactionReference: Option<string>,
    saleDate: string,
    notes: Option<string>,
    nurseryId: string)

  /** `Partial<Omit<Sale, "id" | "saleNumber">>`. `None` is a key that is not
      there; for an optional field, `Some(None)` is a key that is there and
      holds `undefined`, which a spread copies over the old value. */
  datatype SaleUpdates = SaleUpdates(
    batchId: Option<string>,
    species: Option<string>,
    quantity: Option<real>,
    unit: Option<string>,
    pricePerUnit: Option<real>,
    totalAmount: Option<real>,
    customerName: Option<string>,
    customerEmail: Option<string>,
    customerPhone: Option<string>,
    paymentStatus: Option<PaymentStatus>,
    paymentMethod: Option<Option<PaymentMethod>>,
    transactionReference: Option<Option<string>>,
    saleDate: Option<string>,
    notes: Option<Option<string>>,
    nurseryId: Option<string>)

  /** `{}` */
  const NoSaleUpdates := SaleUpdates(None, None, None, None, None, None, None, None,
                                     None, None, None, None, None, None, None)

  /** `{ ...s, ...u }` */
  function MergeSale(s: Sale, u: SaleUpdates): (r: Sale)
    ensures r.id == s.id && r.saleNumber == s.saleNumber
    ensures r.paymentStatus == u.paymentStatus.GetOr(s.paymentStatus)
    ensures r.transactionReference == u.transactionReference.GetOr(s.transactionReference)
  {
    Sale(s.id, s.saleNumber,
         u.batchId.GetOr(s.batchId), u.species.GetOr(s.species),
         u.quantity.GetOr(s.quantity), u.unit.GetOr(s.unit),
         u.pricePerUnit.GetOr(s.pricePerUnit), u.totalAmount.GetOr(s.totalAmount),
         u.customerName.GetOr(s.customerName), u.customerEmail.GetOr(s.customerEmail),
         u.customerPhone.GetOr(s.customerPhone), u.paymentStatus.GetOr(s.paymentStatus),
         u.paymentMethod.GetOr(s.paymentMethod),
         u.transactionReference.GetOr(s.transactionReference),
         u.saleDate.GetOr(s.saleDate), u.notes.GetOr(s.notes), u.nurseryId.GetOr(s.nurseryId))
  }

  /** An empty update changes nothing, and applying the same update twice is
      the same as applying it once. */
  lemma MergeSaleLaws(s: Sale, u: SaleUpdates)
    ensures MergeSale(s, NoSaleUpdates) == s
    ensures MergeSale(MergeSale(s, u), u) == MergeSale(s, u)
  {
  }

  // ------------------------------------------------------- seed collections

  /** `SeedCollectionI`. The unit is kept as text because the collection
      form produces it by lower-casing what the user picked. */
  datatype SeedCollection = SeedCollection(
    id: string,
    motherTree: string,
    unit: string,
    quantity: real,
    species: Option<string>,
    additionalInfo: Option<string>,
    latitude: Option<real>,
    longitude: Option<real>,
    photos: Option<seq<string>>)

  /** The units the interface allows: `"count" | "kg" | "g"`. */
  const CollectionUnits: seq<string> := ["count", "kg", "g"]

  /** `Omit<SeedCollectionI, "id">` */
  datatype CollectionData = CollectionData(
    motherTree: string,
    unit: string,
    quantity: real,
    species: Option<string>,
    additionalInfo: Option<string>,
    latitude: Option<real>,
    longitude: Option<real>,
    photos: Option<seq<string>>)

  /** `{ id, ...data }` */
  function NewCollection(id: string, d: CollectionData): (c: SeedCollection)
    ensures c.id == id && Data(c) == d
  {
    SeedCollection(id, d.motherTree, d.unit, d.quantity, d.species, d.additionalInfo,
                   d.latitude, d.longitude, d.photos)
  }

  function Data(c: SeedCollection): CollectionData {
    CollectionData(c.motherTree, c.unit, c.quantity, c.species, c.additionalInfo,
                   c.latitude, c.longitude, c.photos)
  }

  /** `Partial<Omit<SeedCollectionI, "id">>`, with the same reading of `None`
      and `Some(None)` as `SaleUpdates`. */
  datatype CollectionUpdates = CollectionUpdates(
    motherTree: Option<string>,
    unit: Option<string>,
    quantity: Option<real>,
    species: Option<Option<string>>,
    additionalInfo: Option<Option<string>>,
    latitude: Option<Option<real>>,
    longitude: Option<Option<real>>,
    photos: Option<Option<seq<string>>>)

  /** A full form submission used as an update: every key is present. */
  function AsUpdates(d: CollectionData): CollectionUpdates {
    CollectionUpdates(Some(d.motherTree), Some(d.unit), Some(d.quantity), Some(d.species),
                      Some(d.additionalInfo), Some(d.latitude), Some(d.longitude), Some(d.photos))
  }

  /** `{ ...c, ...u }` */
  function MergeCollection(c: SeedCollection, u: CollectionUpdates): (r: SeedCollection)
    ensures r.id == c.id
    ensures r.quantity == u.quantity.GetOr(c.quantity)
  {
    SeedCollection(c.id, u.motherTree.GetOr(c.motherTree), u.unit.GetOr(c.unit),
                   u.quantity.GetOr(c.quantity), u.species.GetOr(c.species),
                   u.additionalInfo.GetOr(c.additionalInfo), u.latitude.GetOr(c.latitude),
                   u.longitude.GetOr(c.longitude), u.photos.GetOr(c.photos))
  }

  /** Updating with a whole form replaces everything but the id. */
  lemma MergeFullForm(c: SeedCollection, d: CollectionData)
    ensures MergeCollection(c, AsUpdates(d)) == NewCollection(c.id, d)
  {
  }

  // ------------------------------------------------- batches and the rest

  datatype BatchStatus = PendingBatch | Approved | InNursery | Distributed | Planted

  datatype Gps = Gps(lat: real, lng: real)

  datatype SeedBatch = SeedBatch(
    id: string,
    batchNumber: string,
    species: string,
    quantity: real,
    unit: Unit,
    collectorName: string,
    collectionDate: string,
    gpsCoordinates: Gps,
    motherTreeId: string,
    region: string,
    status: BatchStatus,
    photoUrl: Option<string>,
    germinationRate: Option<real>,
    nurseryId: Option<string>)

  datatype HealthStatus = Excellent | Good | Fair | Poor

  datatype MotherTree = MotherTree(
    id: string,
    species: string,
    gpsCoordinates: Gps,
    age: real,
    height: real,
    ecologicalZone: string,
    healthStatus: HealthStatus,
    photoUrl: Option<string>,
    registeredDate: string)

  datatype NurseryRecord = NurseryRecord(
    id: string,
    name: string,
    location: string,
    gpsCoordinates: Gps,
    capacity: Option<int>,  // `None` for `NaN`
    currentStock: int,
    operator: string,
    activeBatches: int)

  datatype ProjectStatus = Planning | Active | Completed

  datatype RestorationProject = RestorationProject(
    id: string,
    name: string,
    partner: string,
    location: string,
    targetTrees: Option<int>,  // `None` for `NaN`
    plantedTrees: int,
    species: seq<string>,
    startDate: string,
    status: ProjectStatus)

  /** The order a partner is paying for, kept in `sessionStorage` between
      the checkout page and the success page. */
  datatype PendingOrder = PendingOrder(
    batchId: string,
    batchNumber: string,
    species: string,
    quantity: real,
    unit: string,
    pricePerUnit: real,
    totalAmount: real,
    customerName: string,
    customerEmail: string,
    customerPhone: string)

  /** A status select: `"all"` or one status. */
  datatype StatusFilter<S> = All | Only(status: S)

  predicate Passes<S(==)>(f: StatusFilter<S>, s: S) {
    f.All? || f.status == s
  }
}
