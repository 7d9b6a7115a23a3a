/**
 * The payment function (netlify/functions/create-payment.ts): it turns the cart lines of a request
 * into the payment gateway's line items, appends a shipping line when there is a fee, and asks the
 * gateway for a checkout preference. The gateway itself is a parameter of the model.
 */
module CreatePayment {
  import opened Wrappers
  import opened Text

  /** A line of the request's `items`, its numbers already read as numbers. */
  datatype RequestLine = RequestLine(id: int, name: string, selectedSize: string, quantity: real, price: real)

  /** The request body: `items` and an optional `shippingCost`. */
  datatype PaymentRequest = PaymentRequest(items: seq<RequestLine>, shippingCost: Option<real>)

  /** A gateway line item. */
  datatype GatewayItem = GatewayItem(id: string, title: string, quantity: real, unitPrice: real, currencyId: string)

  const Currency: string := "BRL"

  /** `{id: item.id.toString(), title: `${name} - Tam: ${size}`, quantity, unit_price, currency_id: 'BRL'}`. */
  function GatewayItemOf(line: RequestLine): (g: GatewayItem)
    ensures g.currencyId == Currency && g.quantity == line.quantity && g.unitPrice == line.price
    ensures g.title == line.name + " - Tam: " + line.selectedSize
    ensures g.id == IntToString(line.id)
  {
    GatewayItem(IntToString(line.id), line.name + " - Tam: " + line.selectedSize, line.quantity, line.price, Currency)
  }

  /** The shipping line for fee `cost`. */
  function ShippingLine(cost: real): GatewayItem {
    GatewayItem("ship", "Frete / Entrega", 1.0, cost, Currency)
  }

  /** `shippingCost > 0`: an absent fee compares false. */
  predicate HasShipping(shippingCost: Option<real>) {
    shippingCost.Some? && shippingCost.value > 0.0
  }

  /** The gateway items of a request: one per cart line in order, then the shipping line if there is a fee. */
  function GatewayItems(req: PaymentRequest): (mp: seq<GatewayItem>)
    ensures |mp| == |req.items| + (if HasShipping(req.shippingCost) then 1 else 0)
    ensures forall i :: 0 <= i < |req.items| ==> mp[i] == GatewayItemOf(req.items[i])
    ensures HasShipping(req.shippingCost) ==> mp[|req.items|] == ShippingLine(req.shippingCost.value)
  {
    var lines := seq(|req.items|, i requires 0 <= i < |req.items| => GatewayItemOf(req.items[i]));
    if HasShipping(req.shippingCost) then lines + [ShippingLine(req.shippingCost.value)] else lines
  }

  /** `items.map(...)` followed by the conditional `mpItems.push(...)`. */
  method BuildItems(req: PaymentRequest) returns (mpItems: seq<GatewayItem>)
    ensures mpItems == GatewayItems(req)
  {
    mpItems := seq(|req.items|, i requires 0 <= i < |req.items| => GatewayItemOf(req.items[i]));
    if HasShipping(req.shippingCost) {
      mpItems := mpItems + [ShippingLine(req.shippingCost.value)];
    }
  }

  /** What the lines of a request cost, quantity times price. */
  function LinesTotal(lines: seq<RequestLine>): real {
    if lines == [] then 0.0 else lines[0].quantity * lines[0].price + LinesTotal(lines[1..])
  }

  /** What the gateway will charge for a list of items. */
  function ItemsTotal(items: seq<GatewayItem>): real {
    if items == [] then 0.0 else items[0].quantity * items[0].unitPrice + ItemsTotal(items[1..])
  }

  lemma {:induction false} ItemsTotalAppend(a: seq<GatewayItem>, b: seq<GatewayItem>)
    ensures ItemsTotal(a + b) == ItemsTotal(a) + ItemsTotal(b)
  {
    if a != [] {
      assert (a + b)[0] == a[0] && (a + b)[1..] == a[1..] + b;
      ItemsTotalAppend(a[1..], b);
    } else {
      assert a + b == b;
    }
  }

  lemma {:induction false} MappedTotal(lines: seq<RequestLine>, mp: seq<GatewayItem>)
    requires |mp| == |lines| && forall i :: 0 <= i < |lines| ==> mp[i] == GatewayItemOf(lines[i])
    ensures ItemsTotal(mp) == LinesTotal(lines)
  {
    if lines != [] {
      MappedTotal(lines[1..], mp[1..]);
    }
  }

  /** The gateway charges the cart lines' total, plus the fee when there is one. */
  lemma GatewayCharge(req: PaymentRequest)
    ensures ItemsTotal(GatewayItems(req)) ==
      LinesTotal(req.items) + (if HasShipping(req.shippingCost) then req.shippingCost.value else 0.0)
  {
    var mp := GatewayItems(req);
    var lines := mp[..|req.items|];
    MappedTotal(req.items, lines);
    if HasShipping(req.shippingCost) {
      assert mp == lines + [ShippingLine(req.shippingCost.value)];
      ItemsTotalAppend(lines, [ShippingLine(req.shippingCost.value)]);
    } else {
      assert mp == lines;
    }
  }

  /** A gateway item id of a cart line reads back as that line's product id. */
  lemma GatewayIdRoundTrip(line: RequestLine)
    requires line.id >= 0
    ensures DigitsValue(GatewayItemOf(line).id) == line.id
  {
    NatToStringRoundTrip(line.id);
  }

  // ================================================================ the handler

  const StoreUrl: string := "https://ravas7.github.io/C-R-STREET/"

  datatype BackUrls = BackUrls(success: string, failure: string, pending: string)

  /** The preference the function asks the gateway to create. */
  datatype Preference = Preference(items: seq<GatewayItem>, backUrls: BackUrls, autoReturn: string)

  datatype HttpMethod = Options | Post | OtherMethod(name: string)

  /** The function's answers: the CORS preflight, the gateway's checkout link, or the 500 error. */
  datatype PaymentResponse =
    | Preflight(headers: map<string, string>)
    | CheckoutLink(initPoint: Option<string>)
    | PaymentFailed(status: int, error: string)

  const PreflightHeaders: map<string, string> := map[
    "Access-Control-Allow-Origin" := "*",
    "Access-Control-Allow-Headers" := "Content-Type",
    "Access-Control-Allow-Methods" := "POST, OPTIONS"]

  /** The preference for a request: its items, one return address for every outcome, and automatic return on approval. */
  function PreferenceFor(req: PaymentRequest): (p: Preference)
    ensures p.items == GatewayItems(req)
    ensures p.backUrls.success == p.backUrls.failure == p.backUrls.pending == StoreUrl
    ensures p.autoReturn == "approved"
  {
    Preference(GatewayItems(req), BackUrls(StoreUrl, StoreUrl, StoreUrl), "approved")
  }

  /**
   * The outcome of `preference.create`: `Ok(initPoint)` when the gateway answers (its `init_point`
   * may be missing), `Failed` when it throws.
   */
  datatype GatewayOutcome = GatewayOk(initPoint: Option<string>) | GatewayFailed

  /**
   * The handler. `body` is the parsed request body, `None` when it cannot be read as a payment
   * request (the parse or the item mapping throws); `gateway` answers a preference. It returns
   * the response and the preference it sent, if any.
   */
  method Handle(m: HttpMethod, body: Option<PaymentRequest>, gateway: Preference -> GatewayOutcome)
    returns (r: PaymentResponse, sent: Option<Preference>)
    ensures m == Options ==> r == Preflight(PreflightHeaders) && sent == None
    ensures m != Options && body.None? ==> r == PaymentFailed(500, "Erro ao criar pagamento") && sent == None
    ensures m != Options && body.Some? ==>
      && sent == Some(PreferenceFor(body.value))
      && (gateway(sent.value).GatewayOk? ==> r == CheckoutLink(gateway(sent.value).initPoint))
      && (gateway(sent.value).GatewayFailed? ==> r == PaymentFailed(500, "Erro ao criar pagamento"))
  {
    sent := None;
    if m == Options {
      return Preflight(PreflightHeaders), None;
    }
    if body.None? {
      return PaymentFailed(500, "Erro ao criar pagamento"), None;
    }
    var mpItems := BuildItems(body.value);
    var preference := Preference(mpItems, BackUrls(StoreUrl, StoreUrl, StoreUrl), "approved");
    sent := Some(preference);
    var result := gateway(preference);
    if result.GatewayFailed? {
      return PaymentFailed(500, "Erro ao criar pagamento"), sent;
    }
    r := CheckoutLink(result.initPoint);
  }
}
