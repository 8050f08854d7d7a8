/** The partner checkout page: the order comes from the URL, the price from
    the unit, the contact details from the form; paying stores the order in
    `sessionStorage` for the success page and opens the gateway, whose
    answer either moves on to the success page or abandons the order. */
module CheckoutPage {
  import opened Wrappers
  import opened Models
  import opened Text
  import opened Web
  import opened Flutterwave

  const KgPrice := 10.0
  const SeedPrice := 0.01
  const Shipping := 5.0
  const FieldsMissing := "Please fill in all required fields"
  const BatchMissing := "Batch information is missing. Please go back and try again."
  const OrderTitle := "Ensigo Trace - Seed Order"
  const OrderLead := "Order for "
  const PendingOrderKey := "pendingOrder"
  const TransactionRefKey := "transactionRef"
  const TransactionIdKey := "transactionId"
  const SuccessPath := "/partner/checkout/success"

  // -------------------------------------------------------------- the order

  /** What the page reads from its URL. */
  datatype Params = Params(batchId: Option<string>, quantity: real, species: string,
                           unit: string, batchNumber: string)

  /** `searchParams.get(...)` with the page's fallbacks; `parseFloat` of text
      that is not a number is taken as 0. */
  function ReadParams(query: seq<(string, string)>): (p: Params)
    ensures p.batchId == QueryGet(query, "batchId")
    ensures p.unit == OrElse(QueryGet(query, "unit"), "kg")
    ensures p.species == OrElse(QueryGet(query, "species"), "")
    ensures p.batchNumber == OrElse(QueryGet(query, "batchNumber"), "")
    ensures p.quantity == NumberOrZero(OrElse(QueryGet(query, "quantity"), "0"))
  {
    Params(QueryGet(query, "batchId"),
           NumberOrZero(OrElse(QueryGet(query, "quantity"), "0")),
           OrElse(QueryGet(query, "species"), ""),
           OrElse(QueryGet(query, "unit"), "kg"),
           OrElse(QueryGet(query, "batchNumber"), ""))
  }

  /** `unit === "kg" ? 10 : 0.01` */
  function UnitPrice(unit: string): (price: real)
    ensures price > 0.0
    ensures unit == "kg" ==> price == KgPrice
    ensures unit != "kg" ==> price == SeedPrice
  {
    if unit == "kg" then KgPrice else SeedPrice
  }

  /** `subtotal + shipping` */
  function Total(p: Params): real {
    p.quantity * UnitPrice(p.unit) + Shipping
  }

  /** A missing quantity counts as 0 and a missing unit as "kg", so such an
      order costs the shipping alone. */
  lemma MissingParams(query: seq<(string, string)>)
    requires forall k :: 0 <= k < |query| ==> query[k].0 != "quantity" && query[k].0 != "unit"
    ensures ReadParams(query).quantity == 0.0 && ReadParams(query).unit == "kg"
    ensures Total(ReadParams(query)) == Shipping
  {
    ParseNatToString(0);
    assert NatToString(0) == "0";
  }

  /** The total is the shipping plus the unit price for every unit ordered;
      it grows with the quantity. */
  lemma TotalIsPricePlusShipping(p: Params, q: Params)
    ensures Total(p) - Shipping == p.quantity * UnitPrice(p.unit)
    ensures p.unit == q.unit && p.quantity <= q.quantity ==> Total(p) <= Total(q)
  {
    if p.unit == q.unit && p.quantity <= q.quantity {
      var u := UnitPrice(p.unit);
      assert p.quantity * u <= q.quantity * u;
    }
  }

  // -------------------------------------------------------- the contact form

  datatype ContactForm = ContactForm(email: string, phone: string, firstName: string, lastName: string,
                                     address: string, city: string, country: string)

  /** The initial form, computed from the user of the page's first render. */
  function ContactDefaults(user: Option<User>): (c: ContactForm)
    ensures user.None? ==> c.email == "" && c.firstName == "" && c.lastName == ""
    ensures user.Some? ==> c.email == user.value.email
    ensures user.Some? && ' ' in user.value.name ==> c.firstName + " " + c.lastName == user.value.name
    ensures c.phone == "" && c.country == "UG"
  {
    match user
    case None => ContactForm("", "", "", "", "", "", "UG")
    case Some(u) =>
      NameSplit(u.name);
      ContactForm(u.email, "", FirstName(u.name), LastName(u.name), "", "", "UG")
  }

  datatype ContactField = Email | Phone | FirstNameField | LastNameField | Address | City | Country

  /** `{ ...formData, [name]: value }` */
  function WithField(c: ContactForm, name: ContactField, value: string): (r: ContactForm)
    ensures Field(r, name) == value
    ensures forall other :: other != name ==> Field(r, other) == Field(c, other)
  {
    match name
    case Email => c.(email := value)
    case Phone => c.(phone := value)
    case FirstNameField => c.(firstName := value)
    case LastNameField => c.(lastName := value)
    case Address => c.(address := value)
    case City => c.(city := value)
    case Country => c.(country := value)
  }

  function Field(c: ContactForm, name: ContactField): string {
    match name
    case Email => c.email
    case Phone => c.phone
    case FirstNameField => c.firstName
    case LastNameField => c.lastName
    case Address => c.address
    case City => c.city
    case Country => c.country
  }

  /** `!email || !phone || !firstName || !lastName` */
  predicate ContactMissing(c: ContactForm) {
    c.email == "" || c.phone == "" || c.firstName == "" || c.lastName == ""
  }

  /** `${firstName} ${lastName}` */
  function CustomerName(c: ContactForm): string {
    c.firstName + " " + c.lastName
  }

  // ------------------------------------------------------------ paying

  /** `orderDetails`: the order as the success page will read it. */
  function OrderOf(p: Params, batchId: string, c: ContactForm): (o: PendingOrder)
    ensures o.batchId == batchId && o.quantity == p.quantity && o.unit == p.unit
    ensures o.pricePerUnit == UnitPrice(p.unit) && o.totalAmount == Total(p)
    ensures o.totalAmount == o.quantity * o.pricePerUnit + Shipping
    ensures o.customerName == CustomerName(c) && o.customerEmail == c.email && o.customerPhone == c.phone
  {
    PendingOrder(batchId, p.batchNumber, p.species, p.quantity, p.unit, UnitPrice(p.unit), Total(p),
                 CustomerName(c), c.email, c.phone)
  }

  /** `paymentData`, with `now` for `Date.now()`. */
  function OrderPayload(p: Params, batchId: string, c: ContactForm, now: nat): (pay: Payload)
    ensures pay.txRef == "ENSIGO-" + NatToString(now) && pay.amount == Total(p) && pay.currency == Currency
    ensures pay.customer == Customer(c.email, c.phone, CustomerName(c))
    ensures pay.meta == OrderMeta(batchId, p.batchNumber, p.species, p.quantity, p.unit)
    ensures pay.customizations.title == OrderTitle && pay.customizations.logo == Logo
    ensures pay.customizations.description == Description(OrderLead, p.quantity, p.unit, p.species)
  {
    Payload(PublicKey, "ENSIGO-" + NatToString(now), Total(p), Currency, PaymentOptions,
            Customer(c.email, c.phone, CustomerName(c)),
            Customizations(OrderTitle, Description(OrderLead, p.quantity, p.unit, p.species), Logo),
            OrderMeta(batchId, p.batchNumber, p.species, p.quantity, p.unit))
  }

  /** What `handlePayment` does: stop at an alert, or store the order and
      then open the gateway or, without it, alert. */
  datatype Attempt =
    | Stopped(alert: string)
    | Ordered(order: PendingOrder, payload: Payload, gatewayOpen: bool)

  function PaymentAttempt(p: Params, c: ContactForm, now: nat, gatewayLoaded: bool): (a: Attempt)
    ensures a.Stopped? <==> ContactMissing(c) || !Truthy(p.batchId)
    ensures ContactMissing(c) ==> a == Stopped(FieldsMissing)
    ensures !ContactMissing(c) && !Truthy(p.batchId) ==> a == Stopped(BatchMissing)
    ensures a.Ordered? ==> a.order == OrderOf(p, p.batchId.value, c) && a.gatewayOpen == gatewayLoaded
                           && a.payload == OrderPayload(p, p.batchId.value, c, now)
  {
    if ContactMissing(c) then Stopped(FieldsMissing)
    else if !Truthy(p.batchId) then Stopped(BatchMissing)
    else Ordered(OrderOf(p, p.batchId.value, c), OrderPayload(p, p.batchId.value, c, now), gatewayLoaded)
  }

  /** The payment is for the stored order: same amount, same customer, same
      batch, and the description names the ordered quantity, unit and species. */
  lemma PayloadMatchesOrder(p: Params, c: ContactForm, now: nat, gatewayLoaded: bool)
    requires PaymentAttempt(p, c, now, gatewayLoaded).Ordered?
    ensures var a := PaymentAttempt(p, c, now, gatewayLoaded);
      && a.payload.amount == a.order.totalAmount
      && a.payload.customer == Customer(a.order.customerEmail, a.order.customerPhone, a.order.customerName)
      && a.payload.meta.batchId == a.order.batchId && a.payload.meta.quantity == a.order.quantity
      && a.payload.customizations.description ==
         Description(OrderLead, a.order.quantity, a.order.unit, a.order.species)
  {
  }

  // ---------------------------------------------------- the gateway's answer

  /** The route to the success page: the template interpolates missing values
      as `undefined`. */
  function SuccessRoute(r: Response): (route: Route)
    ensures route.WithQuery? && route.path == SuccessPath
    ensures QueryGet(route.query, "tx_ref") == Some(Interpolate(r.txRef))
    ensures QueryGet(route.query, "transaction_id") == Some(Interpolate(r.transactionId))
  {
    WithQuery(SuccessPath, [("tx_ref", Interpolate(r.txRef)), ("transaction_id", Interpolate(r.transactionId))])
  }

  /** The session after a successful answer: `setItem` stores `undefined`
      as text, and a missing transaction id as "". */
  function SessionAfterSuccess(session: Storage, r: Response): (s: Storage)
    ensures TransactionRefKey in s && s[TransactionRefKey] == Raw(Interpolate(r.txRef))
    ensures TransactionIdKey in s && s[TransactionIdKey] == Raw(OrElse(r.transactionId, ""))
    ensures forall k :: k in session && k != TransactionRefKey && k != TransactionIdKey ==> k in s && s[k] == session[k]
  {
    session[TransactionRefKey := Raw(Interpolate(r.txRef))][TransactionIdKey := Raw(OrElse(r.transactionId, ""))]
  }

  /** Both URL parameters the success page needs are always there, and a
      value the gateway left out arrives as the non-empty text "undefined":
      only a value given as "" makes a parameter empty. */
  lemma SuccessRouteComplete(r: Response)
    ensures Truthy(QueryGet(SuccessRoute(r).query, "tx_ref")) <==> r.txRef != Some("")
    ensures Truthy(QueryGet(SuccessRoute(r).query, "transaction_id")) <==> r.transactionId != Some("")
  {
  }

  // ------------------------------------------------------------------ page

  class CheckoutPage {
    const browser: Browser
    const params: Params
    var form: ContactForm
    var loading: bool

    /** The page as first rendered with `query` in the URL and `user` from
        `useUser`, which has not read storage yet on that render. */
    constructor (browser: Browser, query: seq<(string, string)>, user: Option<User>)
      ensures this.browser == browser && params == ReadParams(query)
      ensures form == ContactDefaults(user) && !loading
    {
      this.browser := browser;
      params := ReadParams(query);
      form := ContactDefaults(user);
      loading := false;
    }

    method HandlePayment(now: nat, gatewayLoaded: bool) returns (launched: Option<Payload>)
      modifies this`loading, browser`session, browser`alerts
      ensures var a := PaymentAttempt(params, form, now, gatewayLoaded);
        && (a.Stopped? ==> browser.session == old(browser.session) && loading == old(loading)
                           && browser.alerts == old(browser.alerts) + [a.alert] && launched.None?)
        && (a.Ordered? ==> browser.session == old(browser.session)[PendingOrderKey := OrderJson(a.order)]
                           && (a.gatewayOpen ==>
                                 launched == Some(a.payload) && loading && browser.alerts == old(browser.alerts))
                           && (!a.gatewayOpen ==>
                                 launched.None? && !loading && browser.alerts == old(browser.alerts) + [GatewayLoading]))
    {
      if ContactMissing(form) {
        browser.Alert(FieldsMissing);
        return None;
      }
      if !Truthy(params.batchId) {
        browser.Alert(BatchMissing);
        return None;
      }
      loading := true;
      var order := OrderOf(params, params.batchId.value, form);
      browser.SetSession(PendingOrderKey, OrderJson(order));
      var payload := OrderPayload(params, params.batchId.value, form, now);
      if gatewayLoaded {
        launched := Some(payload);
      } else {
        browser.Alert(GatewayLoading);
        loading := false;
        launched := None;
      }
    }

    /** The payload's `callback` and `onclose`. */
    method OnGatewayEvent(e: GatewayEvent)
      modifies this`loading, browser`session, browser`alerts, browser`history
      ensures e.Closed? ==> !loading && unchanged(browser)
      ensures e.Callback? && e.response.status == Successful ==>
                browser.session == SessionAfterSuccess(old(browser.session), e.response)
                && browser.history == old(browser.history) + [SuccessRoute(e.response)]
                && loading == old(loading) && browser.alerts == old(browser.alerts)
      ensures e.Callback? && e.response.status != Successful ==>
                browser.session == old(browser.session) - {PendingOrderKey} && !loading
                && browser.alerts == old(browser.alerts) + [NotSuccessful]
                && browser.history == old(browser.history)
    {
      match e {
        case Closed =>
          loading := false;
        case Callback(r) =>
          if r.status == Successful {
            browser.SetSession(TransactionRefKey, Raw(Interpolate(r.txRef)));
            browser.SetSession(TransactionIdKey, Raw(OrElse(r.transactionId, "")));
            browser.Push(SuccessRoute(r));
          } else {
            browser.RemoveSession(PendingOrderKey);
            browser.Alert(NotSuccessful);
            loading := false;
          }
      }
    }

    /** `handleInputChange`: the named input takes the typed value. */
    method InputChange(name: ContactField, value: string)
      modifies this`form
      ensures form == WithField(old(form), name, value)
    {
      form := WithField(form, name, value);
    }
  }
}
