/**
 * The checkout dialog (src/components/Checkout.tsx): a three-step machine (form, payment,
 * success) over the shopper's form data, and the order payload it sends to the order-create
 * route. Money is integer cents; the JSON the dialog sends carries it as a number of reais.
 */
module Checkout {
  import opened Wrappers
  import opened Js
  import opened Storefront
  import opened CartPanel
  import Server

  datatype Step = FormStep | PaymentStep | SuccessStep

  datatype PaymentMethod = Pix | CreditCard

  /** The value the payment method has in the payload. */
  function MethodName(m: PaymentMethod): (s: string)
    ensures s != ""
  {
    match m
    case Pix => "pix"
    case CreditCard => "credit_card"
  }

  /** The names of the form's inputs. */
  datatype Field =
    | Name | Email | Phone | Cpf | Street | Number | Complement | Neighborhood | City | State | Zip

  /** `formData`. */
  datatype FormData = FormData(
    name: string, email: string, phone: string, cpf: string,
    street: string, number: string, complement: string, neighborhood: string,
    city: string, state: string, zip: string)

  /** Every input starts empty. */
  const EmptyForm: FormData := FormData("", "", "", "", "", "", "", "", "", "", "")

  /** `formData[field]`. */
  function Value(f: FormData, field: Field): string {
    match field
    case Name => f.name
    case Email => f.email
    case Phone => f.phone
    case Cpf => f.cpf
    case Street => f.street
    case Number => f.number
    case Complement => f.complement
    case Neighborhood => f.neighborhood
    case City => f.city
    case State => f.state
    case Zip => f.zip
  }

  /** `{...prev, [name]: value}`: the named input takes the value, every other input keeps its own. */
  function SetField(f: FormData, field: Field, value: string): (r: FormData)
    ensures Value(r, field) == value
    ensures forall g :: g != field ==> Value(r, g) == Value(f, g)
  {
    match field
    case Name => f.(name := value)
    case Email => f.(email := value)
    case Phone => f.(phone := value)
    case Cpf => f.(cpf := value)
    case Street => f.(street := value)
    case Number => f.(number := value)
    case Complement => f.(complement := value)
    case Neighborhood => f.(neighborhood := value)
    case City => f.(city := value)
    case State => f.(state := value)
    case Zip => f.(zip := value)
  }

  /** The submit guard: the ten required inputs are all non-empty. */
  predicate RequiredFilled(f: FormData) {
    f.name != "" && f.email != "" && f.phone != "" && f.cpf != ""
    && f.street != "" && f.number != "" && f.neighborhood != ""
    && f.city != "" && f.state != "" && f.zip != ""
  }

  /** The guard asks for every input except the complement, and for nothing else. */
  lemma RequiredFilledMeans(f: FormData)
    ensures RequiredFilled(f) <==> forall field :: field != Complement ==> Value(f, field) != ""
  {
    if forall field :: field != Complement ==> Value(f, field) != "" {
      assert Value(f, Name) != "" && Value(f, Email) != "" && Value(f, Phone) != "" && Value(f, Cpf) != "";
      assert Value(f, Street) != "" && Value(f, Number) != "" && Value(f, Neighborhood) != "";
      assert Value(f, City) != "" && Value(f, State) != "" && Value(f, Zip) != "";
    }
  }

  // ================================================================ the order payload

  datatype PayloadItem = PayloadItem(id: int, name: string, price: int, quantity: int, selectedSize: string)

  datatype Address = Address(
    street: string, number: string, complement: string, neighborhood: string,
    city: string, state: string, zip: string)

  datatype Customer = Customer(name: string, email: string, phone: string, cpf: string, address: Address)

  datatype OrderPayload = OrderPayload(
    items: seq<PayloadItem>, customer: Customer, total: int, paymentMethod: PaymentMethod)

  /** The value of a form input as the payload's customer carries it. */
  function CustomerValue(c: Customer, field: Field): string {
    match field
    case Name => c.name
    case Email => c.email
    case Phone => c.phone
    case Cpf => c.cpf
    case Street => c.address.street
    case Number => c.address.number
    case Complement => c.address.complement
    case Neighborhood => c.address.neighborhood
    case City => c.address.city
    case State => c.address.state
    case Zip => c.address.zip
  }

  /** `items.map(item => ({id, name, price, quantity, selectedSize}))`. */
  function PayloadItems(items: seq<CartItem>): (r: seq<PayloadItem>)
    ensures |r| == |items|
    ensures forall i :: 0 <= i < |items| ==>
      && r[i].id == items[i].product.id && r[i].name == items[i].product.name
      && r[i].price == items[i].product.price && r[i].quantity == items[i].quantity
      && r[i].selectedSize == items[i].selectedSize
  {
    if items == [] then []
    else
      var it := items[0];
      [PayloadItem(it.product.id, it.product.name, it.product.price, it.quantity, it.selectedSize)]
      + PayloadItems(items[1..])
  }

  /** The amount the payload's lines add up to. */
  function ItemsTotal(lines: seq<PayloadItem>): int {
    if lines == [] then 0 else lines[0].price * lines[0].quantity + ItemsTotal(lines[1..])
  }

  /** The payload's lines add up to the cart's total. */
  lemma {:induction false} PayloadItemsTotal(items: seq<CartItem>)
    ensures ItemsTotal(PayloadItems(items)) == CartTotal(items)
  {
    if items != [] {
      PayloadItemsTotal(items[1..]);
      assert PayloadItems(items)[1..] == PayloadItems(items[1..]);
    }
  }

  /** The argument of `createOrder`. */
  function BuildPayload(items: seq<CartItem>, f: FormData, m: PaymentMethod): (p: OrderPayload)
    ensures p.items == PayloadItems(items)
    ensures forall field :: CustomerValue(p.customer, field) == Value(f, field)
    ensures p.total == CartTotal(items) && ItemsTotal(p.items) == p.total
    ensures p.paymentMethod == m
  {
    PayloadItemsTotal(items);
    var address := Address(f.street, f.number, f.complement, f.neighborhood, f.city, f.state, f.zip);
    OrderPayload(PayloadItems(items),
      Customer(f.name, f.email, f.phone, f.cpf, address),
      CartTotal(items), m)
  }

  // ================================================================ the dialog

  /** The dialog's state. `orderId` is the id of the order the server created. */
  class CheckoutDialog {
    var step: Step
    var loading: bool
    var form: FormData
    var paymentMethod: PaymentMethod
    var orderId: Option<int>

    /** The dialog opens on the form, with empty inputs, Pix selected and no order. */
    constructor()
      ensures step == FormStep && !loading && form == EmptyForm
      ensures paymentMethod == Pix && orderId == None
    {
      step := FormStep;
      loading := false;
      form := EmptyForm;
      paymentMethod := Pix;
      orderId := None;
    }

    /** `handleInputChange`: only the named input changes. */
    method InputChange(field: Field, value: string)
      modifies this
      ensures form == SetField(old(form), field, value)
      ensures step == old(step) && loading == old(loading)
      ensures paymentMethod == old(paymentMethod) && orderId == old(orderId)
    {
      form := SetField(form, field, value);
    }

    /** `handleSubmitForm`: on to payment when every required input is filled, otherwise nothing changes. */
    method SubmitForm()
      modifies this
      ensures step == if RequiredFilled(old(form)) then PaymentStep else old(step)
      ensures form == old(form) && loading == old(loading)
      ensures paymentMethod == old(paymentMethod) && orderId == old(orderId)
    {
      if !RequiredFilled(form) {
        return;
      }
      step := PaymentStep;
    }

    /** One of the two payment buttons. */
    method ChoosePayment(m: PaymentMethod)
      modifies this
      ensures paymentMethod == m
      ensures step == old(step) && form == old(form) && loading == old(loading) && orderId == old(orderId)
    {
      paymentMethod := m;
    }

    /** "Voltar": from payment back to the form, keeping what was typed. */
    method Back()
      requires step == PaymentStep
      modifies this
      ensures step == FormStep
      ensures form == old(form) && loading == old(loading)
      ensures paymentMethod == old(paymentMethod) && orderId == old(orderId)
    {
      step := FormStep;
    }

    /**
     * `handleConfirmPayment` up to the `createOrder` call: the button is disabled while loading,
     * and the payload built from the cart, the form and the chosen method is sent.
     */
    method ConfirmPayment(items: seq<CartItem>) returns (payload: OrderPayload)
      requires step == PaymentStep && !loading
      modifies this
      ensures loading && payload == BuildPayload(items, form, paymentMethod)
      ensures step == old(step) && form == old(form)
      ensures paymentMethod == old(paymentMethod) && orderId == old(orderId)
    {
      loading := true;
      payload := BuildPayload(items, form, paymentMethod);
    }

    /**
     * The rest of `handleConfirmPayment` once `createOrder` settles: `Some(id)` when it resolved
     * with the created order, `None` when it threw. Success records the id and shows the
     * success step; a failure leaves the step where it was. Loading ends either way.
     */
    method OrderSettled(created: Option<int>)
      requires loading
      modifies this
      ensures !loading
      ensures created.Some? ==> step == SuccessStep && orderId == created
      ensures created.None? ==> step == old(step) && orderId == old(orderId)
      ensures form == old(form) && paymentMethod == old(paymentMethod)
    {
      if created.Some? {
        orderId := created;
        step := SuccessStep;
      }
      loading := false;
    }
  }

  /** A whole confirmation from the payment step: the dialog is back to not loading, on success or on payment. */
  method Confirm(d: CheckoutDialog, items: seq<CartItem>, created: Option<int>) returns (payload: OrderPayload)
    requires d.step == PaymentStep && !d.loading
    modifies d
    ensures payload == BuildPayload(items, d.form, d.paymentMethod)
    ensures !d.loading && d.form == old(d.form) && d.paymentMethod == old(d.paymentMethod)
    ensures d.step == (if created.Some? then SuccessStep else PaymentStep)
    ensures d.orderId == (if created.Some? then created else old(d.orderId))
  {
    payload := d.ConfirmPayment(items);
    d.OrderSettled(created);
  }

  // ================================================================ what the server receives

  /** A cents amount as the JSON number of reais the dialog sends. */
  function CentsJson(c: int): (j: Json)
    ensures j.JNum? && (Truthy(j) <==> c != 0)
  {
    JNum(c as real / 100.0)
  }

  function ItemJson(it: PayloadItem): Json {
    JObj(map["id" := JNum(it.id as real), "name" := JStr(it.name), "price" := CentsJson(it.price),
             "quantity" := JNum(it.quantity as real), "selectedSize" := JStr(it.selectedSize)])
  }

  function AddressJson(a: Address): Json {
    JObj(map["street" := JStr(a.street), "number" := JStr(a.number), "complement" := JStr(a.complement),
             "neighborhood" := JStr(a.neighborhood), "city" := JStr(a.city), "state" := JStr(a.state),
             "zip" := JStr(a.zip)])
  }

  function CustomerJson(c: Customer): Json {
    JObj(map["name" := JStr(c.name), "email" := JStr(c.email), "phone" := JStr(c.phone),
             "cpf" := JStr(c.cpf), "address" := AddressJson(c.address)])
  }

  function ItemsJson(lines: seq<PayloadItem>): Json {
    JArr(seq(|lines|, i requires 0 <= i < |lines| => ItemJson(lines[i])))
  }

  /** The request body `JSON.stringify(payload)` puts on the wire. */
  function PayloadJson(p: OrderPayload): map<string, Json> {
    map["items" := ItemsJson(p.items),
        "customer" := CustomerJson(p.customer),
        "total" := CentsJson(p.total),
        "payment_method" := JStr(MethodName(p.paymentMethod))]
  }

  /**
   * The order-create route accepts a checkout payload exactly when its total is not zero: the
   * item list and the customer are always truthy, even for an empty cart.
   */
  lemma ServerAcceptsPayload(p: OrderPayload)
    ensures Server.OrderFieldsPresent(PayloadJson(p)) <==> p.total != 0
    ensures Server.OrderFieldsPresent(PayloadJson(p)) ==> !Nullish(Server.AddressOf(PayloadJson(p)))
  {
  }

  /** The JSON member an input travels in: top-level customer members, or members of its address. */
  function JsonKey(field: Field): string {
    match field
    case Name => "name"
    case Email => "email"
    case Phone => "phone"
    case Cpf => "cpf"
    case Street => "street"
    case Number => "number"
    case Complement => "complement"
    case Neighborhood => "neighborhood"
    case City => "city"
    case State => "state"
    case Zip => "zip"
  }

  predicate InAddress(field: Field) {
    !(field == Name || field == Email || field == Phone || field == Cpf)
  }

  /** `customer.<key>` or `customer.address.<key>` of a stored customer record. */
  function CustomerField(c: Json, field: Field): Option<Json> {
    if InAddress(field) then
      match Prop(c, "address")
      case Some(a) => Prop(a, JsonKey(field))
      case None => None
    else Prop(c, JsonKey(field))
  }

  /** The input `field` of a stored order. */
  function StoredField(o: map<string, Json>, field: Field): Option<Json> {
    if "customer" in o then CustomerField(o["customer"], field) else None
  }

  /** The customer record the server builds from a payload's customer carries every input verbatim. */
  lemma StoredCustomer(c: Customer)
    ensures forall field :: CustomerField(JObj(Server.NewCustomer(CustomerJson(c), AddressJson(c.address))), field)
                            == Some(JStr(CustomerValue(c, field)))
  {
    var stored := Server.NewCustomer(CustomerJson(c), AddressJson(c.address));
    forall field ensures CustomerField(JObj(stored), field) == Some(JStr(CustomerValue(c, field))) {
      if InAddress(field) {
        assert Prop(JObj(stored), "address") == Some(stored["address"]);
        if field != Complement {
          assert JsonKey(field) in Server.AddressFields;
        }
      } else {
        assert JsonKey(field) in Server.CustomerFields;
      }
    }
  }

  /** The members of a request body that the order-create route reads. */
  lemma PayloadMembers(p: OrderPayload)
    ensures var body := PayloadJson(p);
      && "customer" in body && body["customer"] == CustomerJson(p.customer)
      && Get(body, "total") == Some(CentsJson(p.total))
      && Get(body, "payment_method") == Some(JStr(MethodName(p.paymentMethod)))
      && Prop(CustomerJson(p.customer), "address") == Some(AddressJson(p.customer.address))
  {
  }

  /** The stored order of an accepted payload: its customer record, method, total and status. */
  lemma StoredOrder(p: OrderPayload, id: nat, now: nat)
    requires p.total != 0
    ensures Server.OrderFieldsPresent(PayloadJson(p)) && !Nullish(Server.AddressOf(PayloadJson(p)))
    ensures var o := Server.NewOrder(PayloadJson(p), id, now);
      && "customer" in o
      && o["customer"] == JObj(Server.NewCustomer(CustomerJson(p.customer), AddressJson(p.customer.address)))
      && o["payment_method"] == JStr(MethodName(p.paymentMethod))
      && o["total"] == CentsJson(p.total)
      && o["status"] == JStr("aguardando_pagamento")
  {
    var body := PayloadJson(p);
    ServerAcceptsPayload(p);
    PayloadMembers(p);
    assert Server.AddressOf(body) == Some(AddressJson(p.customer.address));
    assert ParseFloat(Get(body, "total")) == Some(p.total as real / 100.0);
    Server.NewOrderFields(body, id, now);
    Server.NewOrderContents(body, id, now);
    Server.NewOrderPayment(body, id, now);
  }

  /** The stored order `o` records the inputs of `f`, the method `m` and the total `total`, awaiting payment. */
  predicate RecordsCheckout(o: map<string, Json>, f: FormData, m: PaymentMethod, total: int) {
    && "payment_method" in o && o["payment_method"] == JStr(MethodName(m))
    && "total" in o && o["total"] == JNum(total as real / 100.0)
    && "status" in o && o["status"] == JStr("aguardando_pagamento")
    && forall field :: StoredField(o, field) == Some(JStr(Value(f, field)))
  }

  /**
   * What the server stores for an accepted checkout: every form input in the customer record,
   * the chosen payment method, the total in reais, and an order awaiting payment.
   */
  lemma StoredOrderOfCheckout(items: seq<CartItem>, f: FormData, m: PaymentMethod, id: nat, now: nat)
    requires CartTotal(items) != 0
    ensures Server.OrderFieldsPresent(PayloadJson(BuildPayload(items, f, m)))
    ensures !Nullish(Server.AddressOf(PayloadJson(BuildPayload(items, f, m))))
    ensures RecordsCheckout(Server.NewOrder(PayloadJson(BuildPayload(items, f, m)), id, now), f, m, CartTotal(items))
  {
    var p := BuildPayload(items, f, m);
    StoredOrder(p, id, now);
    StoredCustomer(p.customer);
    var o := Server.NewOrder(PayloadJson(p), id, now);
    forall field ensures StoredField(o, field) == Some(JStr(Value(f, field))) {
      assert StoredField(o, field) == CustomerField(o["customer"], field);
      assert CustomerValue(p.customer, field) == Value(f, field);
    }
  }
}
