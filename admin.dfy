/**
 * The administration panel (src/components/Admin.tsx): the product form and its conversions to
 * and from a product, the save, edit, cancel and delete handlers, and the order status choices.
 * Requests to the server are returned as values; their network calls are not part of this model.
 */
module Admin {
  import opened Wrappers
  import opened Text
  import opened Js
  import Server

  /** `productForm`: every input holds text. */
  datatype ProductForm = ProductForm(
    name: string, price: string, image: string, category: string, gender: string,
    sizes: string, supplierLink: string, supplierCost: string)

  /** The form's initial contents, restored after every successful save. */
  const InitialForm: ProductForm := ProductForm("", "", "", "Camisetas", "Unissex", "P,M,G,GG", "", "")

  /**
   * A product as the panel's list holds it; optional members may be missing from the stored record.
   * The price is always a number here. A stored `price: null` (see `BlankPriceEditStoresNull`)
   * cannot be held: the panel's list and edit handler would fail on it.
   */
  datatype AdminProduct = AdminProduct(
    id: nat, name: string, price: real, image: string, category: string,
    gender: Option<string>, sizes: seq<string>, supplierLink: Option<string>, supplierCost: Option<real>)

  // ================================================================ sizes text

  /** `parts.map(s => s.trim())`. */
  function TrimAll(parts: seq<string>): (r: seq<string>)
    ensures |r| == |parts|
    ensures forall i :: 0 <= i < |parts| ==> r[i] == Trim(parts[i])
  {
    if parts == [] then [] else [Trim(parts[0])] + TrimAll(parts[1..])
  }

  /** `sizes.split(',').map(s => s.trim())`. */
  function SizesOf(text: string): seq<string> {
    TrimAll(Split(text, ','))
  }

  /** `sizes.join(',')`. */
  function SizesText(sizes: seq<string>): string {
    Join(sizes, ',')
  }

  /** A list of sizes that survives being joined and split again: non-empty, no comma, no surrounding blanks. */
  predicate PlainSizes(sizes: seq<string>) {
    |sizes| >= 1 && forall i :: 0 <= i < |sizes| ==> ',' !in sizes[i] && IsTrimmed(sizes[i])
  }

  /** The saved list has one more size than the text has commas; empty text gives `[""]`. */
  lemma SizesCount(text: string)
    ensures |SizesOf(text)| == Count(text, ',') + 1
    ensures SizesOf("") == [""]
  {
    SplitLength(text, ',');
  }

  /** Editing and then saving gives back a plain list of sizes. */
  lemma SizesRoundTrip(sizes: seq<string>)
    requires PlainSizes(sizes)
    ensures SizesOf(SizesText(sizes)) == sizes
  {
    SplitJoin(sizes, ',');
    forall i | 0 <= i < |sizes| ensures Trim(sizes[i]) == sizes[i] {
      TrimTrimmed(sizes[i]);
    }
  }

  /** A product saved with no sizes comes back from an edit with one empty size. */
  lemma NoSizesRoundTrip()
    ensures SizesOf(SizesText([])) == [""]
  {
  }

  // ================================================================ form and product

  function StringsJson(ss: seq<string>): (j: Json)
    ensures j.JArr? && |j.elems| == |ss|
    ensures forall i :: 0 <= i < |ss| ==> j.elems[i] == JStr(ss[i])
  {
    JArr(seq(|ss|, i requires 0 <= i < |ss| => JStr(ss[i])))
  }

  /** The body a save sends for form `form` once its sizes text has become the list `sizes`. */
  function Body(form: ProductForm, sizes: seq<string>): (body: map<string, Json>)
    ensures "name" in body && body["name"] == JStr(form.name)
  {
    BodyOf(form, sizes, ParseFloatText(form.price), ParseFloatText(form.supplierCost))
  }

  /** The body with the price and the supplier cost already parsed. */
  function BodyOf(form: ProductForm, sizes: seq<string>, price: Option<real>, cost: Option<real>): (body: map<string, Json>)
    ensures "name" in body && body["name"] == JStr(form.name)
  {
    map[]
      ["name" := JStr(form.name)]
      ["price" := NumberJson(price)]
      ["image" := JStr(form.image)]
      ["category" := JStr(form.category)]
      ["gender" := JStr(form.gender)]
      ["sizes" := StringsJson(sizes)]
      ["supplier_link" := JStr(form.supplierLink)]
      ["supplier_cost" := JNum(NumberOrZero(cost))]
  }

  /** A save sends exactly the eight members of the form. */
  lemma BodyKeys(form: ProductForm, sizes: seq<string>)
    ensures Body(form, sizes).Keys ==
      {"name", "price", "image", "category", "gender", "sizes", "supplier_link", "supplier_cost"}
  {
  }

  /** The image, category and gender inputs go out verbatim, whatever the numbers parse to. */
  lemma BodyTexts(form: ProductForm, sizes: seq<string>, price: Option<real>, cost: Option<real>)
    ensures var body := BodyOf(form, sizes, price, cost);
      && "image" in body && body["image"] == JStr(form.image)
      && "category" in body && body["category"] == JStr(form.category)
      && "gender" in body && body["gender"] == JStr(form.gender)
  {
  }

  /** The supplier link goes out verbatim and the sizes as a list of strings, whatever the numbers parse to. */
  lemma BodyLinkAndSizes(form: ProductForm, sizes: seq<string>, price: Option<real>, cost: Option<real>)
    ensures var body := BodyOf(form, sizes, price, cost);
      && "supplier_link" in body && body["supplier_link"] == JStr(form.supplierLink)
      && "sizes" in body && body["sizes"] == StringsJson(sizes)
  {
  }

  /** The price goes out as a number exactly when it parses; the supplier cost always as a number, 0 when it does not parse. */
  lemma BodyNumbers(form: ProductForm, sizes: seq<string>)
    ensures var body := Body(form, sizes);
      && "price" in body && (body["price"].JNum? <==> ParseFloatText(form.price).Some?)
      && (body["price"].JNum? ==> body["price"].n == ParseFloatText(form.price).value)
      && "supplier_cost" in body && body["supplier_cost"].JNum?
      && (ParseFloatText(form.supplierCost).None? ==> body["supplier_cost"] == JNum(0.0))
  {
  }

  /**
   * `productData` as `JSON.stringify` sends it: the text inputs verbatim, the price parsed (an
   * unparseable price, NaN, goes out as null), the supplier cost parsed with 0 for blank or
   * unparseable text, and the sizes split on commas and trimmed.
   */
  function ProductData(form: ProductForm): map<string, Json> {
    Body(form, SizesOf(form.sizes))
  }

  /**
   * `handleEditProduct`'s form: a missing or empty gender shows as Unissex, a missing supplier
   * link or cost as empty text. `render` is `Number.prototype.toString`.
   */
  function FormOf(p: AdminProduct, render: real -> string): (form: ProductForm)
    ensures form.name == p.name && form.image == p.image && form.category == p.category
    ensures form.price == render(p.price)
    ensures form.gender == if p.gender.Some? && p.gender.value != "" then p.gender.value else "Unissex"
    ensures form.sizes == SizesText(p.sizes)
    ensures form.supplierLink == p.supplierLink.GetOr("")
    ensures p.supplierCost.None? ==> form.supplierCost == ""
    ensures p.supplierCost.Some? && render(p.supplierCost.value) != "" ==> form.supplierCost == render(p.supplierCost.value)
  {
    var gender := if p.gender.Some? && p.gender.value != "" then p.gender.value else "Unissex";
    var link := if p.supplierLink.Some? && p.supplierLink.value != "" then p.supplierLink.value else "";
    var cost := if p.supplierCost.Some? && render(p.supplierCost.value) != "" then render(p.supplierCost.value) else "";
    ProductForm(p.name, render(p.price), p.image, p.category, gender, SizesText(p.sizes), link, cost)
  }

  /**
   * Editing a product and saving it unchanged sends its name, image, category and plain sizes
   * back as they were, and its gender when it had one.
   */
  lemma EditThenSave(p: AdminProduct, render: real -> string)
    requires PlainSizes(p.sizes)
    ensures var body := ProductData(FormOf(p, render));
      && body["name"] == JStr(p.name) && body["image"] == JStr(p.image) && body["category"] == JStr(p.category)
      && body["sizes"] == StringsJson(p.sizes)
      && body["supplier_link"] == JStr(p.supplierLink.GetOr(""))
      && (p.gender.Some? && p.gender.value != "" ==> body["gender"] == JStr(p.gender.value))
      && (p.gender.None? ==> body["gender"] == JStr("Unissex"))
  {
    SizesRoundTrip(p.sizes);
    var form := FormOf(p, render);
    BodyTexts(form, SizesOf(form.sizes), ParseFloatText(form.price), ParseFloatText(form.supplierCost));
    BodyLinkAndSizes(form, SizesOf(form.sizes), ParseFloatText(form.price), ParseFloatText(form.supplierCost));
  }

  /**
   * A new product from the form passes the server's create guard exactly when the name and the
   * category are filled and the price text starts with a non-zero number.
   */
  lemma CreateAccepted(form: ProductForm, sizes: seq<string>)
    ensures Server.ProductFieldsPresent(Body(form, sizes)) <==>
      form.name != "" && form.category != "" && ParseFloatText(form.price).Some? && ParseFloatText(form.price).value != 0.0
  {
    GuardOf(form, sizes, ParseFloatText(form.price), ParseFloatText(form.supplierCost));
  }

  /** The create guard on a body whose price and supplier cost are already parsed. */
  lemma GuardOf(form: ProductForm, sizes: seq<string>, price: Option<real>, cost: Option<real>)
    ensures Server.ProductFieldsPresent(BodyOf(form, sizes, price, cost)) <==>
      form.name != "" && form.category != "" && price.Some? && price.value != 0.0
    ensures Get(BodyOf(form, sizes, price, cost), "price") == Some(NumberJson(price))
  {
    var body := BodyOf(form, sizes, price, cost);
    assert Get(body, "name") == Some(JStr(form.name));
    assert Get(body, "category") == Some(JStr(form.category));
    assert Get(body, "price") == Some(NumberJson(price));
  }

  /**
   * The price input has no lower bound, so a negative price such as "-5" passes the create guard
   * and parses to a negative number, which is what the body sends (`BodyNumbers`).
   */
  lemma NegativePriceAccepted(form: ProductForm, sizes: seq<string>, d: string)
    requires form.name != "" && form.category != ""
    requires AllDigits(d) && d != "" && DigitsValue(d) != 0 && form.price == "-" + d
    ensures Server.ProductFieldsPresent(Body(form, sizes))
    ensures ParseFloatText(form.price) == Some(-(DigitsValue(d) as real))
  {
    ParseFloatNegativeDigits(d);
    CreateAccepted(form, sizes);
  }

  /**
   * Saving an edit whose price input is blank sends `price: null`, and the update route stores it
   * over the old price.
   */
  lemma BlankPriceEditStoresNull(form: ProductForm, sizes: seq<string>, existing: Json, pathId: string, now: nat)
    requires TrimStart(form.price) == ""
    ensures Get(Server.MergeProduct(existing, Body(form, sizes), pathId, now), "price") == Some(JNull)
  {
    var body := Body(form, sizes);
    assert Get(body, "price") == Some(JNull) by {
      GuardOf(form, sizes, ParseFloatText(form.price), ParseFloatText(form.supplierCost));
    }
    Server.MergeTakesBody(existing, body, pathId, now, "price");
  }

  /** The initial form cannot be saved as a new product: its name and price are empty. */
  lemma InitialFormRejected(sizes: seq<string>)
    ensures !Server.ProductFieldsPresent(Body(InitialForm, sizes))
  {
  }

  /** The initial form's sizes text saves as the server's default sizes. */
  lemma InitialSizes()
    ensures SizesOf(InitialForm.sizes) == ["P", "M", "G", "GG"]
    ensures StringsJson(SizesOf(InitialForm.sizes)) == Server.DefaultSizes
  {
    var sizes := ["P", "M", "G", "GG"];
    assert Join(sizes[3..], ',') == "GG";
    assert Join(sizes[2..], ',') == "G,GG" by { assert sizes[2..][1..] == sizes[3..]; }
    assert Join(sizes[1..], ',') == "M,G,GG" by { assert sizes[1..][1..] == sizes[2..]; }
    assert SizesText(sizes) == "P,M,G,GG";
    assert PlainSizes(sizes) by {
      forall i | 0 <= i < |sizes| ensures ',' !in sizes[i] && IsTrimmed(sizes[i]) {
      }
    }
    SizesRoundTrip(sizes);
    DefaultSizesJson();
  }

  lemma DefaultSizesJson()
    ensures StringsJson(["P", "M", "G", "GG"]) == Server.DefaultSizes
  {
    var j := StringsJson(["P", "M", "G", "GG"]);
    assert j.elems == [JStr("P"), JStr("M"), JStr("G"), JStr("GG")];
  }

  /**
   * An edited product saved through the update route keeps its id: the path carries the id in
   * decimal and the merge takes it from there.
   */
  lemma UpdateKeepsId(existing: Json, form: ProductForm, id: nat, now: nat)
    ensures Server.MergeProduct(existing, ProductData(form), NatToString(id), now)["id"] == JNum(id as real)
  {
    ParseIntOfNatString(id);
  }

  // ================================================================ requests

  /** What a save sends: `createProduct(productData)` or `updateProduct(id, productData)`. */
  datatype SaveRequest =
    | CreateRequest(body: map<string, Json>)
    | UpdateRequest(id: nat, body: map<string, Json>)

  /** `handleDeleteProduct`: the delete is sent only once the shopkeeper confirms. */
  function DeleteRequest(id: nat, confirmed: bool): (r: Option<nat>)
    ensures r.Some? <==> confirmed
    ensures r.Some? ==> r.value == id
  {
    if confirmed then Some(id) else None
  }

  /** The order statuses, in the order the status dropdown lists them. */
  const StatusOptions: seq<string> :=
    ["aguardando_pagamento", "pago", "comprado_fornecedor", "enviado", "entregue", "cancelado"]

  const StatusLabels: map<string, string> := map[
    "aguardando_pagamento" := "Aguardando Pagamento",
    "pago" := "Pago",
    "comprado_fornecedor" := "Comprado no Fornecedor",
    "enviado" := "Enviado",
    "entregue" := "Entregue",
    "cancelado" := "Cancelado"]

  const StatusColors: map<string, string> := map[
    "aguardando_pagamento" := "bg-yellow-500/20 text-yellow-400 border-yellow-500/30",
    "pago" := "bg-green-500/20 text-green-400 border-green-500/30",
    "comprado_fornecedor" := "bg-blue-500/20 text-blue-400 border-blue-500/30",
    "enviado" := "bg-purple-500/20 text-purple-400 border-purple-500/30",
    "entregue" := "bg-emerald-500/20 text-emerald-400 border-emerald-500/30",
    "cancelado" := "bg-red-500/20 text-red-400 border-red-500/30"]

  /** The dropdown offers six distinct statuses, exactly those with a label and a colour, starting with a new order's status. */
  lemma StatusOptionsComplete()
    ensures |StatusOptions| == 6
    ensures forall i, j :: 0 <= i < j < |StatusOptions| ==> StatusOptions[i] != StatusOptions[j]
    ensures (set s | s in StatusOptions) == StatusLabels.Keys == StatusColors.Keys
    ensures StatusOptions[0] == "aguardando_pagamento"
  {
  }

  /** `updateOrderStatus(id, status)` from the dropdown: the body carries the status and, undefined, no tracking code. */
  function StatusChangeBody(status: string): (body: map<string, Json>)
    ensures Get(body, "status") == Some(JStr(status))
    ensures Get(body, "tracking_code") == None
  {
    Assign(Assign(map[], "status", Some(JStr(status))), "tracking_code", None)
  }

  /** A status change from the dropdown sets the chosen status and keeps the order's tracking code. */
  lemma StatusChangeKeepsTracking(order: Json, status: string, now: nat)
    ensures Get(Server.WithStatus(order, StatusChangeBody(status), now), "status") == Some(JStr(status))
    ensures Get(Server.WithStatus(order, StatusChangeBody(status), now), "tracking_code") == Prop(order, "tracking_code")
  {
  }

  // ================================================================ the panel

  /** The product-form part of the panel's state. */
  class ProductPanel {
    var showForm: bool
    var editing: Option<AdminProduct>
    var form: ProductForm

    /** The form starts hidden and empty, with nothing being edited. */
    constructor()
      ensures !showForm && editing == None && form == InitialForm
    {
      showForm := false;
      editing := None;
      form := InitialForm;
    }

    /** "Novo Produto": nothing is being edited; the form keeps whatever it held. */
    method OpenNew()
      modifies this
      ensures showForm && editing == None && form == old(form)
    {
      editing := None;
      showForm := true;
    }

    /** `handleEditProduct`: the product is being edited and the form shows it. */
    method EditProduct(p: AdminProduct, render: real -> string)
      modifies this
      ensures showForm && editing == Some(p) && form == FormOf(p, render)
    {
      editing := Some(p);
      form := FormOf(p, render);
      showForm := true;
    }

    /** "Cancelar": the form is hidden and nothing is being edited; its contents stay. */
    method Cancel()
      modifies this
      ensures !showForm && editing == None && form == old(form)
    {
      showForm := false;
      editing := None;
    }

    /** `handleSaveProduct` up to the request: an update of the edited product, or a create. */
    method SaveProduct() returns (req: SaveRequest)
      ensures editing.Some? ==> req == UpdateRequest(editing.value.id, ProductData(form))
      ensures editing.None? ==> req == CreateRequest(ProductData(form))
    {
      if editing.Some? {
        req := UpdateRequest(editing.value.id, ProductData(form));
      } else {
        req := CreateRequest(ProductData(form));
      }
    }

    /** The rest of `handleSaveProduct`: success hides and resets the form; a failure changes nothing. */
    method SaveSettled(succeeded: bool)
      modifies this
      ensures succeeded ==> !showForm && editing == None && form == InitialForm
      ensures !succeeded ==> showForm == old(showForm) && editing == old(editing) && form == old(form)
    {
      if succeeded {
        showForm := false;
        editing := None;
        form := InitialForm;
      }
    }
  }
}
