/** `useFlutterwave`: the payment gateway's script element, the payment
    payload built from a sale, and how the gateway's answers are turned
    into the caller's `onSuccess`/`onError` calls. The gateway itself is
    outside the model: it is given a payload and later answers with events. */
module Flutterwave {
  import opened Wrappers
  import opened Models
  import opened Seqs

  const PublicKey := "FLWPUBK_TEST-xxxxxxxxxxxxxxxxxxxxx-X"
  const Currency := "UGX"
  const PaymentOptions := "card,mobilemoney,ussd"
  const SaleTitle := "Ensigo Trace - Tree Sale"
  const SaleLead := "Sale of "
  const Logo := "https://your-logo-url.com/logo.png"
  const Successful := "successful"
  const NotSuccessful := "Payment was not successful. Please try again."
  const GatewayLoading := "Payment gateway is loading. Please wait a moment and try again."

  // ---------------------------------------------------------- the script

  const ScriptId := "flutterwave-script"
  const ScriptSrc := "https://checkout.flutterwave.com/v3.js"

  /** An element of the document body, as far as `getElementById` sees it. */
  datatype Element = Element(id: string, src: string)

  predicate IsGatewayScript(e: Element) {
    e.id == ScriptId
  }

  /** How many elements carry the script's id. */
  function Scripts(body: seq<Element>): nat {
    Count(body, IsGatewayScript)
  }

  /** The effect: append a fresh script element unless one with its id is there. */
  function AfterMount(body: seq<Element>): seq<Element> {
    if FindIndex(body, IsGatewayScript) < |body| then body
    else body + [Element(ScriptId, ScriptSrc)]
  }

  /** The cleanup: remove the first element with the script's id, if any. */
  function AfterUnmount(body: seq<Element>): seq<Element> {
    RemoveAt(body, FindIndex(body, IsGatewayScript))
  }

  lemma CountedAt(body: seq<Element>, i: nat)
    requires i < |body| && IsGatewayScript(body[i])
    ensures Scripts(body) > 0
  {
    assert body[i] in Filter(body, IsGatewayScript);
  }

  lemma CountedSomewhere(body: seq<Element>)
    requires Scripts(body) > 0
    ensures exists i :: 0 <= i < |body| && IsGatewayScript(body[i])
  {
    var x := Filter(body, IsGatewayScript)[0];
    assert x in body;
  }

  /** Some element carries the id exactly when the count is positive. */
  lemma FoundIffCounted(body: seq<Element>)
    ensures FindIndex(body, IsGatewayScript) < |body| <==> Scripts(body) > 0
  {
    var i := FindIndex(body, IsGatewayScript);
    if i < |body| {
      CountedAt(body, i);
    }
    if Scripts(body) > 0 {
      CountedSomewhere(body);
    }
  }

  /** Removing index `k` takes one away from the count when `body[k]` is
      counted, and nothing otherwise. */
  lemma CountRemoveAt(body: seq<Element>, k: nat)
    requires k < |body|
    ensures Scripts(RemoveAt(body, k)) == Scripts(body) - (if IsGatewayScript(body[k]) then 1 else 0)
  {
    assert body == body[..k] + [body[k]] + body[k + 1..];
    CountAppend(body[..k] + [body[k]], body[k + 1..], IsGatewayScript);
    CountAppend(body[..k], [body[k]], IsGatewayScript);
    CountAppend(body[..k], body[k + 1..], IsGatewayScript);
    assert Filter([body[k]], IsGatewayScript) == if IsGatewayScript(body[k]) then [body[k]] else [];
  }

  /** Mounting leaves exactly one script when there was none, and adds
      nothing when there was one already. */
  lemma MountLeavesOne(body: seq<Element>)
    ensures Scripts(AfterMount(body)) == if Scripts(body) == 0 then 1 else Scripts(body)
    ensures Scripts(body) > 0 ==> AfterMount(body) == body
  {
    FoundIffCounted(body);
    var e := Element(ScriptId, ScriptSrc);
    CountAppend(body, [e], IsGatewayScript);
    assert Filter([e], IsGatewayScript) == [e];
  }

  /** Mounting twice is mounting once. */
  lemma MountIdempotent(body: seq<Element>)
    ensures AfterMount(AfterMount(body)) == AfterMount(body)
  {
    MountLeavesOne(body);
    MountLeavesOne(AfterMount(body));
  }

  /** The cleanup takes exactly one script away when there is one. */
  lemma UnmountRemovesOne(body: seq<Element>)
    ensures Scripts(AfterUnmount(body)) == if Scripts(body) == 0 then 0 else Scripts(body) - 1
    ensures Scripts(body) == 0 ==> AfterUnmount(body) == body
  {
    FoundIffCounted(body);
    var i := FindIndex(body, IsGatewayScript);
    if i < |body| {
      CountRemoveAt(body, i);
    }
  }

  /** On a body without the script, the cleanup undoes the mount, and a
      mount, cleanup, mount sequence (as a remounting effect runs) leaves
      exactly one script. */
  lemma RemountLeavesOne(body: seq<Element>)
    requires Scripts(body) == 0
    ensures AfterUnmount(AfterMount(body)) == body
    ensures Scripts(AfterMount(AfterUnmount(AfterMount(body)))) == 1
  {
    FoundIffCounted(body);
    var e := Element(ScriptId, ScriptSrc);
    var mounted := body + [e];
    assert AfterMount(body) == mounted;
    assert forall j :: 0 <= j < |body| ==> mounted[j] == body[j];
    assert forall j :: 0 <= j < |body| ==> !IsGatewayScript(mounted[j]);
    assert IsGatewayScript(mounted[|body|]);
    assert FindIndex(mounted, IsGatewayScript) == |body|;
    assert mounted[..|body|] == body;
    MountLeavesOne(body);
  }

  /** The document body the effect works on. */
  class Document {
    var body: seq<Element>

    constructor (body: seq<Element>)
      ensures this.body == body
    {
      this.body := body;
    }

    method MountScript()
      modifies this
      ensures body == AfterMount(old(body))
    {
      var found := FindIndex(body, IsGatewayScript);
      if found == |body| {
        body := body + [Element(ScriptId, ScriptSrc)];
      }
    }

    method UnmountScript()
      modifies this
      ensures body == AfterUnmount(old(body))
    {
      var found := FindIndex(body, IsGatewayScript);
      if found < |body| {
        body := body[..found] + body[found + 1..];
      }
    }
  }

  // --------------------------------------------------------- the payload

  datatype Customer = Customer(email: string, phoneNumber: string, name: string)

  /** The `meta` object: a sale's identity, or what the checkout page orders. */
  datatype Meta =
    | SaleMeta(saleId: string, saleNumber: string, batchId: string)
    | OrderMeta(batchId: string, batchNumber: string, species: string, quantity: real, unit: string)

  /** The description template `${lead}${quantity} ${unit} of ${species}`,
      kept by its parts: the quantity's text is not modelled. */
  datatype Description = Description(lead: string, quantity: real, unit: string, species: string)

  /** The `customizations` object. */
  datatype Customizations = Customizations(title: string, description: Description, logo: string)

  /** What is handed to `FlutterwaveCheckout`, without the callbacks. */
  datatype Payload = Payload(publicKey: string, txRef: string, amount: real, currency: string,
                             paymentOptions: string, customer: Customer, customizations: Customizations,
                             meta: Meta)

  /** `paymentData` of `processFlutterwavePayment`. */
  function SalePayload(s: Sale): (p: Payload)
    ensures p.txRef == s.saleNumber && p.amount == s.totalAmount && p.currency == Currency
    ensures p.customer == Customer(s.customerEmail, s.customerPhone, s.customerName)
    ensures p.meta == SaleMeta(s.id, s.saleNumber, s.batchId)
    ensures p.customizations.title == SaleTitle && p.customizations.logo == Logo
    ensures p.customizations.description == Description(SaleLead, s.quantity, s.unit, s.species)
  {
    Payload(PublicKey, s.saleNumber, s.totalAmount, Currency, PaymentOptions,
            Customer(s.customerEmail, s.customerPhone, s.customerName),
            Customizations(SaleTitle, Description(SaleLead, s.quantity, s.unit, s.species), Logo),
            SaleMeta(s.id, s.saleNumber, s.batchId))
  }

  /** The gateway can tell which sale a payment was for, is charged its
      total, and shows the buyer what was sold. */
  lemma SalePayloadIdentifiesSale(a: Sale, b: Sale)
    requires SalePayload(a) == SalePayload(b)
    ensures a.id == b.id && a.saleNumber == b.saleNumber && a.totalAmount == b.totalAmount
    ensures a.quantity == b.quantity && a.unit == b.unit && a.species == b.species
  {
    assert SalePayload(a).meta.saleId == SalePayload(b).meta.saleId;
    assert SalePayload(a).customizations.description == SalePayload(b).customizations.description;
  }

  // ------------------------------------------------------------ dispatch

  /** The object the gateway passes to `callback`. */
  datatype Response = Response(status: string, txRef: Option<string>, transactionId: Option<string>)

  /** What the gateway does once it is open. */
  datatype GatewayEvent = Callback(response: Response) | Closed

  /** A call of the caller's `onSuccess(transactionId)` or `onError(message)`. */
  datatype Signal = SuccessSignal(transactionId: Option<string>) | ErrorSignal(message: Option<string>)

  /** The callbacks in the payload: `callback` reports success or failure,
      `onclose` only logs. */
  function Dispatch(e: GatewayEvent): (s: Option<Signal>)
    ensures s.None? <==> e.Closed?
    ensures s.Some? && s.value.SuccessSignal? <==> e.Callback? && e.response.status == Successful
    ensures s.Some? && s.value.SuccessSignal? ==> s.value.transactionId == e.response.transactionId
    ensures s.Some? && s.value.ErrorSignal? ==> s.value.message == Some(NotSuccessful)
  {
    match e
    case Closed => None
    case Callback(r) =>
      if r.status == Successful then Some(SuccessSignal(r.transactionId))
      else Some(ErrorSignal(Some(NotSuccessful)))
  }

  /** What `processFlutterwavePayment` does at once: open the gateway with the
      payload, or report that the gateway is not there yet. */
  datatype Launch = Opened(payload: Payload) | Refused(signal: Signal)

  function ProcessPayment(s: Sale, gatewayLoaded: bool): (l: Launch)
    ensures l.Opened? <==> gatewayLoaded
    ensures l.Opened? ==> l.payload == SalePayload(s)
    ensures l.Refused? ==> l.signal == ErrorSignal(Some(GatewayLoading))
  {
    if gatewayLoaded then Opened(SalePayload(s)) else Refused(ErrorSignal(Some(GatewayLoading)))
  }

  /** Every signal a payment can produce, from the launch and then the
      gateway's events. */
  function Signals(l: Launch, events: seq<GatewayEvent>): seq<Signal> {
    match l
    case Refused(sig) => [sig]
    case Opened(_) => Dispatched(events)
  }

  function Dispatched(events: seq<GatewayEvent>): (r: seq<Signal>)
    ensures |r| <= |events|
  {
    if events == [] then []
    else
      match Dispatch(events[0])
      case None => Dispatched(events[1..])
      case Some(sig) => [sig] + Dispatched(events[1..])
  }

  /** Without the gateway the only signal is the loading error, whatever
      happens later; with it, one signal per callback and none on close. */
  lemma PaymentSignals(s: Sale, gatewayLoaded: bool, events: seq<GatewayEvent>)
    ensures !gatewayLoaded ==> Signals(ProcessPayment(s, gatewayLoaded), events) == [ErrorSignal(Some(GatewayLoading))]
    ensures gatewayLoaded ==> |Signals(ProcessPayment(s, gatewayLoaded), events)| == Count(events, (e: GatewayEvent) => e.Callback?)
  {
    DispatchedCountsCallbacks(events);
  }

  lemma {:induction false} DispatchedCountsCallbacks(events: seq<GatewayEvent>)
    ensures |Dispatched(events)| == Count(events, (e: GatewayEvent) => e.Callback?)
  {
    if events != [] {
      DispatchedCountsCallbacks(events[1..]);
      assert events == [events[0]] + events[1..];
      CountAppend([events[0]], events[1..], (e: GatewayEvent) => e.Callback?);
    }
  }
}
