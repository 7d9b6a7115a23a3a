/**
 * The catalog, order and settings routes of the storefront's backend
 * (src/supabase/functions/server/index.tsx).
 *
 * Every route reads and writes one key-value store of JSON records. Products live under
 * `product:<id>`, orders under `order:<id>`, the two id counters under `product_counter` and
 * `order_counter`, and the settings record under `store_settings`. Requests are handled one
 * after another; the clock is the `now` parameter.
 */
module Server {
  import opened Wrappers
  import opened Text
  import opened Js

  const ProductPrefix: string := "product:"
  const OrderPrefix: string := "order:"
  const ProductCounterKey: string := "product_counter"
  const OrderCounterKey: string := "order_counter"
  const SettingsKey: string := "store_settings"

  /** A route's answer: the JSON body with its HTTP status. */
  datatype Response =
    | Ok(body: Json)           // 200
    | Created(body: Json)      // 201
    | BadRequest(error: string) // 400
    | NotFound(error: string)   // 404
    | Failed(error: string)     // 500

  /** A JSON object with one or two named members, as `c.json({...})` builds it. */
  function Obj1(k: string, v: Json): Json {
    JObj(map[k := v])
  }

  function Obj2(k1: string, v1: Json, k2: string, v2: Json): Json {
    JObj(map[k1 := v1, k2 := v2])
  }

  // ================================================================ keys and counters

  /** The key of the product or order with the given path id. */
  function ProductKey(id: string): string {
    ProductPrefix + id
  }

  function OrderKey(id: string): string {
    OrderPrefix + id
  }

  /** A counter key holds a natural number, if anything. */
  predicate CounterWellFormed(kv: map<string, Json>, key: string) {
    key in kv ==> kv[key].JNum? && kv[key].n >= 0.0 && kv[key].n == kv[key].n.Floor as real
  }

  /** `await kv.get(key) || 0`: an absent or zero counter reads as 0. */
  function Counter(kv: map<string, Json>, key: string): nat
    requires CounterWellFormed(kv, key)
  {
    if Present(Get(kv, key)) then kv[key].n.Floor else 0
  }

  /**
   * Every key under `prefix` is `prefix` followed by a decimal id between 1 and `bound`, and
   * the record stored there is an object whose `id` is that number.
   */
  predicate RecordsKeyed(kv: map<string, Json>, prefix: string, bound: nat) {
    forall k :: k in kv && prefix <= k ==>
      && IsCanonical(k[|prefix|..])
      && 1 <= DigitsValue(k[|prefix|..]) <= bound
      && kv[k].JObj?
      && Get(kv[k].fields, "id") == Some(JNum(DigitsValue(k[|prefix|..]) as real))
  }

  /** Every stored order carries a numeric creation time. */
  predicate OrdersDated(kv: map<string, Json>) {
    forall k :: k in kv && OrderPrefix <= k ==> Prop(kv[k], "created_at").Some? && Prop(kv[k], "created_at").value.JNum?
  }

  /** The store invariant that every route preserves. */
  predicate StoreInvariant(kv: map<string, Json>) {
    && CounterWellFormed(kv, ProductCounterKey)
    && CounterWellFormed(kv, OrderCounterKey)
    && RecordsKeyed(kv, ProductPrefix, Counter(kv, ProductCounterKey))
    && RecordsKeyed(kv, OrderPrefix, Counter(kv, OrderCounterKey))
    && OrdersDated(kv)
  }

  /** Neither counter ever goes down. */
  predicate CountersMonotone(before: map<string, Json>, after: map<string, Json>)
    requires StoreInvariant(before) && StoreInvariant(after)
  {
    && Counter(before, ProductCounterKey) <= Counter(after, ProductCounterKey)
    && Counter(before, OrderCounterKey) <= Counter(after, OrderCounterKey)
  }

  /** The five kinds of key never collide: the two prefixes and the three singleton keys are distinct. */
  lemma KeySpacesDisjoint(s: string)
    ensures !(ProductPrefix <= OrderPrefix + s) && !(OrderPrefix <= ProductPrefix + s)
    ensures !(ProductPrefix <= ProductCounterKey) && !(ProductPrefix <= OrderCounterKey) && !(ProductPrefix <= SettingsKey)
    ensures !(OrderPrefix <= ProductCounterKey) && !(OrderPrefix <= OrderCounterKey) && !(OrderPrefix <= SettingsKey)
    ensures (ProductPrefix + s)[|ProductPrefix|..] == s && ProductPrefix <= ProductPrefix + s
    ensures (OrderPrefix + s)[|OrderPrefix|..] == s && OrderPrefix <= OrderPrefix + s
  {
    assert (OrderPrefix + s)[0] == 'o';
    assert (ProductPrefix + s)[0] == 'p';
    assert ProductCounterKey[7] != ProductPrefix[7];
    assert OrderCounterKey[0] != ProductPrefix[0] && SettingsKey[0] != ProductPrefix[0];
    assert ProductCounterKey[0] != OrderPrefix[0] && SettingsKey[0] != OrderPrefix[0];
    assert OrderCounterKey[5] != OrderPrefix[5];
  }

  /**
   * The key a create writes is new: every stored id under the prefix is at most the counter,
   * and the rendered `counter + 1` reads back as `counter + 1`. So ids are never reused.
   */
  lemma NextKeyIsFresh(kv: map<string, Json>, prefix: string, bound: nat)
    requires RecordsKeyed(kv, prefix, bound)
    ensures prefix + NatToString(bound + 1) !in kv
  {
    var key := prefix + NatToString(bound + 1);
    assert key[|prefix|..] == NatToString(bound + 1);
    assert prefix <= key;
    NatToStringRoundTrip(bound + 1);
  }

  // ================================================================ records

  /** `['P', 'M', 'G', 'GG']`. */
  const DefaultSizes: Json := JArr([JStr("P"), JStr("M"), JStr("G"), JStr("GG")])

  /** The create guard: `name`, `price` and `category` are all truthy. */
  predicate ProductFieldsPresent(body: map<string, Json>) {
    Present(Get(body, "name")) && Present(Get(body, "price")) && Present(Get(body, "category"))
  }

  /** `parseInt(body.stock) || 999`: 999 stands for unlimited stock, and a stock of 0 becomes 999. */
  function StockOf(body: map<string, Json>): (n: int)
    ensures n == 999 <==> ParseInt(Get(body, "stock")) in {None, Some(0), Some(999)}
    ensures n != 999 ==> ParseInt(Get(body, "stock")) == Some(n)
  {
    var parsed := ParseInt(Get(body, "stock"));
    if parsed.Some? && parsed.value != 0 then parsed.value else 999
  }

  /** Field `k` holds the body's value when that is truthy, and `default` when it is absent or falsy. */
  predicate Defaulted(p: map<string, Json>, body: map<string, Json>, k: string, default: Json) {
    k in p && p[k] == (if Present(Get(body, k)) then body[k] else default)
  }

  /** The record a product create stores and returns, with id `id` and creation time `now`. */
  function NewProduct(body: map<string, Json>, id: nat, now: nat): (p: map<string, Json>)
    requires ProductFieldsPresent(body)
    ensures "id" in p && p["id"] == JNum(id as real)
  {
    ProductRecord(body, id, now, ParseFloat(Get(body, "price")), ParseFloat(Get(body, "supplier_cost")), StockOf(body))
  }

  /** The new product with its price, supplier cost and stock already parsed. */
  function ProductRecord(body: map<string, Json>, id: nat, now: nat, price: Option<real>, cost: Option<real>, stock: int): map<string, Json>
    requires "name" in body && "category" in body
  {
    map[]
      ["id" := JNum(id as real)]
      ["name" := body["name"]]
      ["price" := NumberJson(price)]
      ["image" := Or(Get(body, "image"), JStr(""))]
      ["images" := Or(Get(body, "images"), JArr([]))]
      ["category" := body["category"]]
      ["gender" := Or(Get(body, "gender"), JStr("Unissex"))]
      ["sizes" := Or(Get(body, "sizes"), DefaultSizes)]
      ["supplier_link" := Or(Get(body, "supplier_link"), JStr(""))]
      ["supplier_cost" := JNum(NumberOrZero(cost))]
      ["stock" := JNum(stock as real)]
      ["created_at" := JNum(now as real)]
  }

  /** A new product has exactly the twelve fields of the create route, whatever its numbers parse to. */
  lemma NewProductKeys(body: map<string, Json>, id: nat, now: nat, price: Option<real>, cost: Option<real>, stock: int)
    requires "name" in body && "category" in body
    ensures ProductRecord(body, id, now, price, cost, stock).Keys ==
      {"id", "name", "price", "image", "images", "category", "gender", "sizes",
       "supplier_link", "supplier_cost", "stock", "created_at"}
  {
  }

  /**
   * A new product's fields: name and category as sent, the price parsed (NaN stored as null), the
   * optional text fields and lists defaulted when absent or falsy, a supplier cost of 0 when it
   * does not parse, the stock rule, and the creation time.
   */
  lemma NewProductFields(body: map<string, Json>, id: nat, now: nat)
    requires ProductFieldsPresent(body)
    ensures var p := NewProduct(body, id, now);
      && p["name"] == body["name"] && p["category"] == body["category"]
      && "price" in p && p["price"] == NumberJson(ParseFloat(Get(body, "price")))
      && "supplier_cost" in p && p["supplier_cost"] == JNum(NumberOrZero(ParseFloat(Get(body, "supplier_cost"))))
      && "stock" in p && p["stock"] == JNum(StockOf(body) as real)
      && "created_at" in p && p["created_at"] == JNum(now as real)
  {
  }

  /** The optional fields of a new product: each as sent when present and truthy, else its default. */
  lemma NewProductDefaults(body: map<string, Json>, id: nat, now: nat, price: Option<real>, cost: Option<real>, stock: int)
    requires "name" in body && "category" in body
    ensures var p := ProductRecord(body, id, now, price, cost, stock);
      && Defaulted(p, body, "image", JStr("")) && Defaulted(p, body, "images", JArr([]))
      && Defaulted(p, body, "gender", JStr("Unissex")) && Defaulted(p, body, "sizes", DefaultSizes)
      && Defaulted(p, body, "supplier_link", JStr(""))
  {
  }

  /** A parsed integer as it is stored: NaN becomes null. */
  function IntJson(x: Option<int>): Json {
    if x.Some? then JNum(x.value as real) else JNull
  }

  /**
   * `{...existing, ...body, id: parseInt(pathId), updated_at: now}`: a shallow merge in which the
   * body wins, except that the id always comes from the path.
   */
  function MergeProduct(existing: Json, body: map<string, Json>, pathId: string, now: nat): (p: map<string, Json>)
    ensures p.Keys == Spread(existing).Keys + body.Keys + {"id", "updated_at"}
    ensures forall k :: k in body && k != "id" && k != "updated_at" ==> p[k] == body[k]
    ensures forall k :: k in Spread(existing) && k !in body && k != "id" && k != "updated_at" ==>
      p[k] == Spread(existing)[k]
    ensures p["id"] == IntJson(ParseInt(Some(JStr(pathId))))
    ensures p["updated_at"] == JNum(now as real)
  {
    (Spread(existing) + body)["id" := IntJson(ParseInt(Some(JStr(pathId))))]["updated_at" := JNum(now as real)]
  }

  /** A member the update body carries is stored as sent, unless it is the id or the update time. */
  lemma MergeTakesBody(existing: Json, body: map<string, Json>, pathId: string, now: nat, k: string)
    requires k in body && k != "id" && k != "updated_at"
    ensures Get(MergeProduct(existing, body, pathId, now), k) == Some(body[k])
  {
  }

  /** The order create guard: `items`, `customer` and `total` are all truthy. An empty item list is truthy. */
  predicate OrderFieldsPresent(body: map<string, Json>) {
    Present(Get(body, "items")) && Present(Get(body, "customer")) && Present(Get(body, "total"))
  }

  /** The members of `from` named in `keys`; members read as `undefined` are left out when stored. */
  function Pick(from: Json, keys: set<string>): (r: map<string, Json>)
    ensures forall k :: k in keys ==> Get(r, k) == Prop(from, k)
    ensures r.Keys <= keys
  {
    map k | k in keys && k in Spread(from) :: Spread(from)[k]
  }

  const CustomerFields: set<string> := {"name", "email", "phone", "cpf"}
  const AddressFields: set<string> := {"street", "number", "neighborhood", "city", "state", "zip"}

  /** `order.customer`: the contact fields copied, with a copied address whose complement defaults to ''. */
  function NewCustomer(customer: Json, address: Json): (c: map<string, Json>)
    ensures forall k :: k in CustomerFields ==> Get(c, k) == Prop(customer, k)
    ensures "address" in c && c["address"].JObj?
    ensures forall k :: k in AddressFields ==> Get(c["address"].fields, k) == Prop(address, k)
    ensures Get(c["address"].fields, "complement") == Some(Or(Prop(address, "complement"), JStr("")))
    ensures c.Keys <= CustomerFields + {"address"}
  {
    var addr := Pick(address, AddressFields)["complement" := Or(Prop(address, "complement"), JStr(""))];
    Pick(customer, CustomerFields)["address" := JObj(addr)]
  }

  /** The address an order create reads: `body.customer.address`. */
  function AddressOf(body: map<string, Json>): Option<Json>
    requires OrderFieldsPresent(body)
  {
    Prop(body["customer"], "address")
  }

  /** The record an order create stores, with id `id` and creation time `now`. */
  function NewOrder(body: map<string, Json>, id: nat, now: nat): (o: map<string, Json>)
    requires OrderFieldsPresent(body) && !Nullish(AddressOf(body))
    ensures "id" in o && o["id"] == JNum(id as real)
    ensures "created_at" in o && o["created_at"] == JNum(now as real)
  {
    map[]
      ["id" := JNum(id as real)]
      ["items" := body["items"]]
      ["customer" := JObj(NewCustomer(body["customer"], AddressOf(body).value))]
      ["total" := NumberJson(ParseFloat(Get(body, "total")))]
      ["status" := JStr("aguardando_pagamento")]
      ["payment_method" := Or(Get(body, "payment_method"), JStr("pix"))]
      ["payment_id" := Or(Get(body, "payment_id"), JNull)]
      ["tracking_code" := JNull]
      ["created_at" := JNum(now as real)]
      ["updated_at" := JNum(now as real)]
  }

  /** A new order has exactly the ten fields of the create route. */
  lemma NewOrderKeys(body: map<string, Json>, id: nat, now: nat)
    requires OrderFieldsPresent(body) && !Nullish(AddressOf(body))
    ensures NewOrder(body, id, now).Keys == {"id", "items", "customer", "total", "status", "payment_method", "payment_id",
                                            "tracking_code", "created_at", "updated_at"}
  {
  }

  /** A new order holds the items as sent, awaits payment with no tracking code, and was last updated at its creation. */
  lemma NewOrderFields(body: map<string, Json>, id: nat, now: nat)
    requires OrderFieldsPresent(body) && !Nullish(AddressOf(body))
    ensures var o := NewOrder(body, id, now);
      && o["items"] == body["items"]
      && "status" in o && o["status"] == JStr("aguardando_pagamento")
      && "tracking_code" in o && o["tracking_code"] == JNull
      && "updated_at" in o && o["updated_at"] == JNum(now as real)
  {
  }

  /** A new order's total is the parsed total sent, and its customer record is built from the customer sent. */
  lemma NewOrderContents(body: map<string, Json>, id: nat, now: nat)
    requires OrderFieldsPresent(body) && !Nullish(AddressOf(body))
    ensures var o := NewOrder(body, id, now);
      && "total" in o && o["total"] == NumberJson(ParseFloat(Get(body, "total")))
      && "customer" in o && o["customer"] == JObj(NewCustomer(body["customer"], AddressOf(body).value))
  {
  }

  /** A new order's payment: Pix unless a payment method was sent, and the payment id only when one was sent. */
  lemma NewOrderPayment(body: map<string, Json>, id: nat, now: nat)
    requires OrderFieldsPresent(body) && !Nullish(AddressOf(body))
    ensures var o := NewOrder(body, id, now);
      && "payment_method" in o
      && o["payment_method"] == (if Present(Get(body, "payment_method")) then body["payment_method"] else JStr("pix"))
      && "payment_id" in o
      && o["payment_id"] == (if Present(Get(body, "payment_id")) then body["payment_id"] else JNull)
  {
  }

  /**
   * `{...order, status: body.status, tracking_code: body.tracking_code || order.tracking_code,
   * updated_at: now}`. The status is taken as sent, with no check against the known statuses.
   */
  function WithStatus(order: Json, body: map<string, Json>, now: nat): (o: map<string, Json>)
    ensures Get(o, "status") == Get(body, "status")
    ensures Get(o, "tracking_code") ==
      (if Present(Get(body, "tracking_code")) then Get(body, "tracking_code") else Prop(order, "tracking_code"))
    ensures Get(o, "updated_at") == Some(JNum(now as real))
    ensures forall k :: k != "status" && k != "tracking_code" && k != "updated_at" ==> Get(o, k) == Prop(order, k)
  {
    var tracking := if Present(Get(body, "tracking_code")) then Get(body, "tracking_code") else Prop(order, "tracking_code");
    Assign(Assign(Spread(order), "status", Get(body, "status")), "tracking_code", tracking)["updated_at" := JNum(now as real)]
  }

  /** The settings a first read creates. */
  const DefaultSettings: Json := JObj(map[
    "delivery_days_min" := JNum(15.0),
    "delivery_days_max" := JNum(30.0),
    "delivery_warning" := JStr("\U{26A0}\U{FE0F} Prazo de entrega: 15-30 dias \U{FA}teis (produto importado)"),
    "whatsapp" := JStr("5511999999999"),
    "instagram" := JStr("@crstreet"),
    "email" := JStr("contato@crstreet.com.br")
  ])

  // ================================================================ order listing

  /** `new Date(o.created_at).getTime()`, with creation times kept as numbers. */
  function CreatedAt(o: Json): real {
    var t := Prop(o, "created_at");
    if t.Some? && t.value.JNum? then t.value.n else 0.0
  }

  /** Most recent first: creation times never increase along the list. */
  predicate NewestFirst(s: seq<Json>) {
    forall i, j :: 0 <= i < j < |s| ==> CreatedAt(s[i]) >= CreatedAt(s[j])
  }

  /** Places `x` before the first element that is not newer than it. */
  function InsertNewest(x: Json, s: seq<Json>): (r: seq<Json>)
    ensures multiset(r) == multiset(s) + multiset{x}
    ensures |r| == |s| + 1
  {
    if s == [] || CreatedAt(s[0]) <= CreatedAt(x) then [x] + s
    else
      assert s == [s[0]] + s[1..];
      [s[0]] + InsertNewest(x, s[1..])
  }

  /** The comparator sort of the orders route, by descending creation time. */
  function SortNewestFirst(s: seq<Json>): (r: seq<Json>)
    ensures multiset(r) == multiset(s)
    ensures |r| == |s|
  {
    if s == [] then []
    else
      assert s == [s[0]] + s[1..];
      InsertNewest(s[0], SortNewestFirst(s[1..]))
  }

  /** Inserting an order no newer than `t` into orders no newer than `t` gives orders no newer than `t`. */
  lemma {:induction false} InsertNewestBounded(x: Json, s: seq<Json>, t: real)
    requires CreatedAt(x) <= t && forall i :: 0 <= i < |s| ==> CreatedAt(s[i]) <= t
    ensures forall i :: 0 <= i < |InsertNewest(x, s)| ==> CreatedAt(InsertNewest(x, s)[i]) <= t
  {
    var r := InsertNewest(x, s);
    if s == [] || CreatedAt(s[0]) <= CreatedAt(x) {
      forall i | 0 <= i < |r| ensures CreatedAt(r[i]) <= t {
        if i > 0 {
          assert r[i] == s[i - 1];
        }
      }
    } else {
      var tail := s[1..];
      assert forall i :: 0 <= i < |tail| ==> tail[i] == s[i + 1];
      InsertNewestBounded(x, tail, t);
      var rest := InsertNewest(x, tail);
      assert r == [s[0]] + rest;
      forall i | 0 <= i < |r| ensures CreatedAt(r[i]) <= t {
        if i > 0 {
          assert r[i] == rest[i - 1];
        }
      }
    }
  }

  lemma {:induction false} InsertNewestSorted(x: Json, s: seq<Json>)
    requires NewestFirst(s)
    ensures NewestFirst(InsertNewest(x, s))
  {
    var r := InsertNewest(x, s);
    if s == [] || CreatedAt(s[0]) <= CreatedAt(x) {
      forall i, j | 0 <= i < j < |r| ensures CreatedAt(r[i]) >= CreatedAt(r[j]) {
        assert r[j] == s[j - 1];
        if i > 0 {
          assert r[i] == s[i - 1];
        }
      }
    } else {
      var tail := s[1..];
      assert forall i :: 0 <= i < |tail| ==> tail[i] == s[i + 1];
      InsertNewestSorted(x, tail);
      InsertNewestBounded(x, tail, CreatedAt(s[0]));
      var rest := InsertNewest(x, tail);
      assert r == [s[0]] + rest;
      forall i, j | 0 <= i < j < |r| ensures CreatedAt(r[i]) >= CreatedAt(r[j]) {
        assert r[j] == rest[j - 1];
        if i > 0 {
          assert r[i] == rest[i - 1];
        }
      }
    }
  }

  /** The orders route returns its orders most recent first. */
  lemma {:induction false} SortNewestFirstSorted(s: seq<Json>)
    ensures NewestFirst(SortNewestFirst(s))
  {
    if s != [] {
      SortNewestFirstSorted(s[1..]);
      InsertNewestSorted(s[0], SortNewestFirst(s[1..]));
    }
  }

  // ================================================================ prefix scans

  /** `keys` lists every key of `kv` under `prefix` exactly once, in some order. */
  predicate EnumeratesPrefix(kv: map<string, Json>, prefix: string, keys: seq<string>) {
    && (forall i :: 0 <= i < |keys| ==> keys[i] in kv && prefix <= keys[i])
    && (forall k :: k in kv && prefix <= k ==> k in keys)
    && (forall i, j :: 0 <= i < j < |keys| ==> keys[i] != keys[j])
  }

  /** The values stored at `keys`, in that order. */
  function ValuesAt(kv: map<string, Json>, keys: seq<string>): (vs: seq<Json>)
    requires forall i :: 0 <= i < |keys| ==> keys[i] in kv
    ensures |vs| == |keys| && forall i :: 0 <= i < |keys| ==> vs[i] == kv[keys[i]]
  {
    if keys == [] then [] else [kv[keys[0]]] + ValuesAt(kv, keys[1..])
  }

  /** The values at one more key are the old values followed by that key's value. */
  lemma ValuesAtSnoc(kv: map<string, Json>, keys: seq<string>, k: string)
    requires forall i :: 0 <= i < |keys| ==> keys[i] in kv
    requires k in kv
    ensures ValuesAt(kv, keys + [k]) == ValuesAt(kv, keys) + [kv[k]]
  {
    var longer := keys + [k];
    assert forall i :: 0 <= i < |keys| ==> longer[i] == keys[i];
  }

  // ================================================================ the store

  class Store {
    var kv: map<string, Json>

    ghost predicate Valid()
      reads this
    {
      StoreInvariant(kv)
    }

    /** An empty store. */
    constructor()
      ensures Valid() && kv == map[]
    {
      kv := map[];
    }

    /** `kv.getByPrefix(prefix)`: the values under `prefix`, in an order the store does not specify. */
    method ScanPrefix(prefix: string) returns (keys: seq<string>, values: seq<Json>)
      ensures EnumeratesPrefix(kv, prefix, keys)
      ensures values == ValuesAt(kv, keys)
    {
      var pending := set k | k in kv.Keys && prefix <= k;
      keys, values := [], [];
      while pending != {}
        invariant pending <= kv.Keys
        invariant forall k :: k in pending ==> prefix <= k
        invariant forall i :: 0 <= i < |keys| ==> keys[i] in kv && prefix <= keys[i] && keys[i] !in pending
        invariant forall k :: k in kv && prefix <= k ==> k in keys || k in pending
        invariant forall i, j :: 0 <= i < j < |keys| ==> keys[i] != keys[j]
        invariant values == ValuesAt(kv, keys)
        decreases |pending|
      {
        var k :| k in pending;
        ValuesAtSnoc(kv, keys, k);
        ghost var before := keys;
        keys, values := keys + [k], values + [kv[k]];
        forall i, j | 0 <= i < j < |keys| ensures keys[i] != keys[j] {
          assert keys[i] == before[i];
          if j < |before| {
            assert keys[j] == before[j];
          }
        }
        pending := pending - {k};
      }
    }

    /** GET /products: every stored product, in store order. */
    method ListProducts() returns (r: Response, ghost keys: seq<string>)
      ensures EnumeratesPrefix(kv, ProductPrefix, keys)
      ensures r == Ok(Obj1("products", JArr(ValuesAt(kv, keys))))
    {
      var values;
      keys, values := ScanPrefix(ProductPrefix);
      r := Ok(Obj1("products", JArr(values)));
    }

    /** GET /products/:id: the stored record, or 404 when nothing truthy is stored under the id. */
    function GetProduct(id: string): (r: Response)
      reads this
      ensures r.Ok? <==> Present(Get(kv, ProductKey(id)))
      ensures r.Ok? ==> r.body == Obj1("product", kv[ProductKey(id)])
      ensures !r.Ok? ==> r == NotFound("Product not found")
    {
      var product := Get(kv, ProductKey(id));
      if !Present(product) then NotFound("Product not found") else Ok(Obj1("product", product.value))
    }

    /**
     * POST /products. Rejected with 400 and no write unless name, price and category are truthy.
     * Otherwise the product counter goes up by one and the new product is stored under that id,
     * a key that was free before.
     */
    method CreateProduct(body: map<string, Json>, now: nat) returns (r: Response)
      requires Valid()
      modifies this
      ensures Valid() && CountersMonotone(old(kv), kv)
      ensures !ProductFieldsPresent(body) ==>
        r == BadRequest("Missing required fields: name, price, category") && kv == old(kv)
      ensures ProductFieldsPresent(body) ==>
        var id := Counter(old(kv), ProductCounterKey) + 1;
        var key := ProductKey(NatToString(id));
        && key !in old(kv)
        && Counter(kv, ProductCounterKey) == id
        && kv == old(kv)[ProductCounterKey := JNum(id as real)][key := JObj(NewProduct(body, id, now))]
        && r == Created(Obj2("product", JObj(NewProduct(body, id, now)), "message", JStr("Product created successfully")))
    {
      if !ProductFieldsPresent(body) {
        return BadRequest("Missing required fields: name, price, category");
      }
      var counter := Counter(kv, ProductCounterKey);
      counter := counter + 1;
      ghost var old_kv := kv;
      NextKeyIsFresh(kv, ProductPrefix, counter - 1);
      var product := NewProduct(body, counter, now);
      var key := ProductKey(NatToString(counter));
      NatToStringRoundTrip(counter);
      ProductCreatePreservesInvariant(old_kv, counter, JObj(product));
      kv := kv[ProductCounterKey := JNum(counter as real)][key := JObj(product)];
      assert old_kv == old(kv) && counter == Counter(old(kv), ProductCounterKey) + 1;
      r := Created(Obj2("product", JObj(product), "message", JStr("Product created successfully")));
    }

    /**
     * PUT /products/:id. 404 with no write for an unknown id; otherwise the stored record becomes
     * the merge of the old record and the body, keeping the path's id.
     */
    method UpdateProduct(id: string, body: map<string, Json>, now: nat) returns (r: Response)
      requires Valid()
      modifies this
      ensures Valid() && CountersMonotone(old(kv), kv)
      ensures !Present(Get(old(kv), ProductKey(id))) ==> r == NotFound("Product not found") && kv == old(kv)
      ensures Present(Get(old(kv), ProductKey(id))) ==>
        var updated := MergeProduct(old(kv)[ProductKey(id)], body, id, now);
        && kv == old(kv)[ProductKey(id) := JObj(updated)]
        && updated["id"] == old(kv)[ProductKey(id)].fields["id"]
        && r == Ok(Obj2("product", JObj(updated), "message", JStr("Product updated successfully")))
    {
      var key := ProductKey(id);
      var existing := Get(kv, key);
      if !Present(existing) {
        return NotFound("Product not found");
      }
      var updated := MergeProduct(existing.value, body, id, now);
      KeySpacesDisjoint(id);
      assert ProductPrefix <= key;
      ParseDigitsText(id);
      ghost var old_kv := kv;
      kv := kv[key := JObj(updated)];
      RewritePreservesInvariant(old_kv, key, JObj(updated));
      r := Ok(Obj2("product", JObj(updated), "message", JStr("Product updated successfully")));
    }

    /**
     * DELETE /products/:id. 404 for an unknown id; otherwise exactly that key is removed, so a
     * later get of the id answers 404. The counter is untouched, so the id is not handed out again.
     */
    method DeleteProduct(id: string) returns (r: Response)
      requires Valid()
      modifies this
      ensures Valid() && CountersMonotone(old(kv), kv)
      ensures !Present(Get(old(kv), ProductKey(id))) ==> r == NotFound("Product not found") && kv == old(kv)
      ensures Present(Get(old(kv), ProductKey(id))) ==>
        && kv == old(kv) - {ProductKey(id)}
        && r == Ok(Obj1("message", JStr("Product deleted successfully")))
      ensures GetProduct(id) == NotFound("Product not found")
      ensures Counter(kv, ProductCounterKey) == Counter(old(kv), ProductCounterKey)
    {
      var key := ProductKey(id);
      var product := Get(kv, key);
      if !Present(product) {
        return NotFound("Product not found");
      }
      ghost var old_kv := kv;
      kv := kv - {key};
      KeySpacesDisjoint(id);
      DeletePreservesInvariant(old_kv, key);
      r := Ok(Obj1("message", JStr("Product deleted successfully")));
    }

    /** GET /orders: every stored order, most recent first. */
    method ListOrders() returns (r: Response, ghost keys: seq<string>)
      ensures EnumeratesPrefix(kv, OrderPrefix, keys)
      ensures r.Ok? && r.body.JObj? && r.body.fields.Keys == {"orders"} && r.body.fields["orders"].JArr?
      ensures multiset(r.body.fields["orders"].elems) == multiset(ValuesAt(kv, keys))
      ensures NewestFirst(r.body.fields["orders"].elems)
    {
      var values;
      keys, values := ScanPrefix(OrderPrefix);
      var sorted := SortNewestFirst(values);
      SortNewestFirstSorted(values);
      r := Ok(Obj1("orders", JArr(sorted)));
    }

    /** GET /orders/:id: the stored order, or 404. */
    function GetOrder(id: string): (r: Response)
      reads this
      ensures r.Ok? <==> Present(Get(kv, OrderKey(id)))
      ensures r.Ok? ==> r.body == Obj1("order", kv[OrderKey(id)])
      ensures !r.Ok? ==> r == NotFound("Order not found")
    {
      var order := Get(kv, OrderKey(id));
      if !Present(order) then NotFound("Order not found") else Ok(Obj1("order", order.value))
    }

    /**
     * POST /orders. 400 with no write unless items, customer and total are truthy. Otherwise the
     * order counter goes up by one. When the customer has no address, building the record throws
     * after the counter was written: 500, and no order is stored.
     */
    method CreateOrder(body: map<string, Json>, now: nat) returns (r: Response)
      requires Valid()
      modifies this
      ensures Valid() && CountersMonotone(old(kv), kv)
      ensures kv == CreateOrderRoute(old(kv), body, now).0 && r == CreateOrderRoute(old(kv), body, now).1
    {
      if !OrderFieldsPresent(body) {
        return BadRequest("Missing required fields: items, customer, total");
      }
      var counter := Counter(kv, OrderCounterKey);
      counter := counter + 1;
      CreateOrderPreservesInvariant(kv, body, now);
      kv := kv[OrderCounterKey := JNum(counter as real)];
      if Nullish(AddressOf(body)) {
        return Failed("Failed to create order");
      }
      var order := NewOrder(body, counter, now);
      var key := OrderKey(NatToString(counter));
      CreateOrderSteps(old(kv), body, now, counter, order);
      kv := kv[key := JObj(order)];
      r := Created(Obj2("order", JObj(order), "message", JStr("Order created successfully")));
    }

    /**
     * PATCH /orders/:id/status. 404 for an unknown id; otherwise the status becomes whatever was
     * sent, the tracking code changes only when a truthy one was sent, and every other field but
     * `updated_at` keeps its value.
     */
    method UpdateOrderStatus(id: string, body: map<string, Json>, now: nat) returns (r: Response)
      requires Valid()
      modifies this
      ensures Valid() && CountersMonotone(old(kv), kv)
      ensures !Present(Get(old(kv), OrderKey(id))) ==> r == NotFound("Order not found") && kv == old(kv)
      ensures Present(Get(old(kv), OrderKey(id))) ==>
        var updated := WithStatus(old(kv)[OrderKey(id)], body, now);
        && kv == old(kv)[OrderKey(id) := JObj(updated)]
        && r == Ok(Obj2("order", JObj(updated), "message", JStr("Order status updated")))
    {
      var key := OrderKey(id);
      var order := Get(kv, key);
      if !Present(order) {
        return NotFound("Order not found");
      }
      var updated := WithStatus(order.value, body, now);
      KeySpacesDisjoint(id);
      ghost var old_kv := kv;
      kv := kv[key := JObj(updated)];
      assert Get(updated, "id") == Prop(order.value, "id");
      assert Get(updated, "created_at") == Prop(order.value, "created_at");
      RewritePreservesInvariant(old_kv, key, JObj(updated));
      r := Ok(Obj2("order", JObj(updated), "message", JStr("Order status updated")));
    }

    /**
     * GET /settings. When nothing truthy is stored, the defaults are stored and returned;
     * otherwise the stored record is returned and nothing is written.
     */
    method GetSettings() returns (r: Response)
      requires Valid()
      modifies this
      ensures Valid() && CountersMonotone(old(kv), kv)
      ensures Present(Get(old(kv), SettingsKey)) ==> kv == old(kv)
      ensures !Present(Get(old(kv), SettingsKey)) ==> kv == old(kv)[SettingsKey := DefaultSettings]
      ensures Present(Get(kv, SettingsKey)) && r == Ok(Obj1("settings", kv[SettingsKey]))
    {
      var settings := Get(kv, SettingsKey);
      if !Present(settings) {
        settings := Some(DefaultSettings);
        ghost var old_kv := kv;
        kv := kv[SettingsKey := DefaultSettings];
        KeySpacesDisjoint("");
        SingletonWritePreservesInvariant(old_kv, SettingsKey, DefaultSettings);
      }
      r := Ok(Obj1("settings", settings.value));
    }

    /** PUT /settings: the body replaces the stored settings wholesale. */
    method PutSettings(body: Json) returns (r: Response)
      requires Valid()
      modifies this
      ensures Valid() && CountersMonotone(old(kv), kv)
      ensures kv == old(kv)[SettingsKey := body]
      ensures r == Ok(Obj2("settings", body, "message", JStr("Settings updated")))
    {
      ghost var old_kv := kv;
      kv := kv[SettingsKey := body];
      KeySpacesDisjoint("");
      SingletonWritePreservesInvariant(old_kv, SettingsKey, body);
      r := Ok(Obj2("settings", body, "message", JStr("Settings updated")));
    }
  }

  // ================================================================ invariant preservation

  /**
   * POST /orders as a function of the store before the request: the store after it and the
   * answer. The counter is written before the record is built, so a missing address still
   * consumes an id.
   */
  function CreateOrderRoute(kv: map<string, Json>, body: map<string, Json>, now: nat): (map<string, Json>, Response)
    requires CounterWellFormed(kv, OrderCounterKey)
  {
    if !OrderFieldsPresent(body) then (kv, BadRequest("Missing required fields: items, customer, total"))
    else
      var id := Counter(kv, OrderCounterKey) + 1;
      var bumped := kv[OrderCounterKey := JNum(id as real)];
      if Nullish(AddressOf(body)) then (bumped, Failed("Failed to create order"))
      else (bumped[OrderKey(NatToString(id)) := JObj(NewOrder(body, id, now))],
            Created(Obj2("order", JObj(NewOrder(body, id, now)), "message", JStr("Order created successfully"))))
  }

  /** The steps of the order route's success path compute the route's outcome. */
  lemma CreateOrderSteps(kv: map<string, Json>, body: map<string, Json>, now: nat, counter: nat, order: map<string, Json>)
    requires CounterWellFormed(kv, OrderCounterKey) && OrderFieldsPresent(body) && !Nullish(AddressOf(body))
    requires counter == Counter(kv, OrderCounterKey) + 1 && order == NewOrder(body, counter, now)
    ensures CreateOrderRoute(kv, body, now) ==
      (kv[OrderCounterKey := JNum(counter as real)][OrderKey(NatToString(counter)) := JObj(order)],
       Created(Obj2("order", JObj(order), "message", JStr("Order created successfully"))))
  {
  }

  /** Every outcome of an order create keeps the store invariant, and the counters never go down. */
  lemma CreateOrderPreservesInvariant(kv: map<string, Json>, body: map<string, Json>, now: nat)
    requires StoreInvariant(kv)
    ensures StoreInvariant(CreateOrderRoute(kv, body, now).0)
    ensures CountersMonotone(kv, CreateOrderRoute(kv, body, now).0)
  {
    if OrderFieldsPresent(body) {
      var id := Counter(kv, OrderCounterKey) + 1;
      if Nullish(AddressOf(body)) {
        CounterBumpPreservesInvariant(kv, id);
      } else {
        NatToStringRoundTrip(id);
        OrderCreatePreservesInvariant(kv, id, JObj(NewOrder(body, id, now)));
      }
    }
  }

  /**
   * An accepted order create takes the next id, whose key was free, and either stores the new
   * order there (201) or, without an address, only the bumped counter (500). A rejected one
   * writes nothing.
   */
  lemma CreateOrderOutcome(kv: map<string, Json>, body: map<string, Json>, now: nat)
    requires StoreInvariant(kv)
    ensures var (after, r) := CreateOrderRoute(kv, body, now);
      && (!OrderFieldsPresent(body) ==> r.BadRequest? && after == kv)
      && (OrderFieldsPresent(body) ==>
            var id := Counter(kv, OrderCounterKey) + 1;
            var key := OrderKey(NatToString(id));
            && key !in kv && Counter(after, OrderCounterKey) == id
            && (Nullish(AddressOf(body)) ==> r.Failed? && key !in after)
            && (!Nullish(AddressOf(body)) ==>
                  && after[key] == JObj(NewOrder(body, id, now))
                  && r == Created(Obj2("order", after[key], "message", JStr("Order created successfully")))))
  {
    if OrderFieldsPresent(body) {
      var id := Counter(kv, OrderCounterKey) + 1;
      var key := OrderKey(NatToString(id));
      var bumped := kv[OrderCounterKey := JNum(id as real)];
      NextKeyIsFresh(kv, OrderPrefix, id - 1);
      KeySpacesDisjoint(NatToString(id));
      assert key != OrderCounterKey;
      assert (id as real).Floor == id;
      assert Counter(bumped, OrderCounterKey) == id;
      if Nullish(AddressOf(body)) {
        assert CreateOrderRoute(kv, body, now) == (bumped, Failed("Failed to create order"));
      } else {
        var order := NewOrder(body, id, now);
        CreateOrderSteps(kv, body, now, id, order);
        assert Counter(bumped[key := JObj(order)], OrderCounterKey) == id;
      }
    }
  }

  /** Storing product number `id` together with the bumped product counter. */
  lemma ProductCreatePreservesInvariant(kv: map<string, Json>, id: nat, record: Json)
    requires StoreInvariant(kv)
    requires id == Counter(kv, ProductCounterKey) + 1 && DigitsValue(NatToString(id)) == id
    requires record.JObj? && Get(record.fields, "id") == Some(JNum(id as real))
    ensures StoreInvariant(kv[ProductCounterKey := JNum(id as real)][ProductKey(NatToString(id)) := record])
    ensures CountersMonotone(kv, kv[ProductCounterKey := JNum(id as real)][ProductKey(NatToString(id)) := record])
    ensures Counter(kv[ProductCounterKey := JNum(id as real)][ProductKey(NatToString(id)) := record], ProductCounterKey) == id
  {
    var key := ProductKey(NatToString(id));
    var bumped := kv[ProductCounterKey := JNum(id as real)];
    var kv' := bumped[key := record];
    KeySpacesDisjoint(NatToString(id));
    assert (id as real).Floor == id;
    assert Counter(kv', ProductCounterKey) == id;
    assert Counter(kv', OrderCounterKey) == Counter(kv, OrderCounterKey);
    RecordsKeyedOtherWrite(kv, OrderPrefix, Counter(kv, OrderCounterKey), ProductCounterKey, JNum(id as real));
    RecordsKeyedOtherWrite(bumped, OrderPrefix, Counter(kv, OrderCounterKey), key, record);
    RecordsKeyedOtherWrite(kv, ProductPrefix, id - 1, ProductCounterKey, JNum(id as real));
    RecordsKeyedAdd(bumped, ProductPrefix, id, record);
    OrdersDatedWrite(kv, ProductCounterKey, JNum(id as real));
    OrdersDatedWrite(bumped, key, record);
  }

  /** Storing order number `id`, which carries a numeric creation time, together with the bumped order counter. */
  lemma OrderCreatePreservesInvariant(kv: map<string, Json>, id: nat, record: Json)
    requires StoreInvariant(kv)
    requires id == Counter(kv, OrderCounterKey) + 1 && DigitsValue(NatToString(id)) == id
    requires record.JObj? && Get(record.fields, "id") == Some(JNum(id as real))
    requires Prop(record, "created_at").Some? && Prop(record, "created_at").value.JNum?
    ensures StoreInvariant(kv[OrderCounterKey := JNum(id as real)][OrderKey(NatToString(id)) := record])
    ensures CountersMonotone(kv, kv[OrderCounterKey := JNum(id as real)][OrderKey(NatToString(id)) := record])
    ensures Counter(kv[OrderCounterKey := JNum(id as real)][OrderKey(NatToString(id)) := record], OrderCounterKey) == id
  {
    var key := OrderKey(NatToString(id));
    var bumped := kv[OrderCounterKey := JNum(id as real)];
    var kv' := bumped[key := record];
    KeySpacesDisjoint(NatToString(id));
    assert (id as real).Floor == id;
    assert Counter(kv', OrderCounterKey) == id;
    assert Counter(kv', ProductCounterKey) == Counter(kv, ProductCounterKey);
    RecordsKeyedOtherWrite(kv, ProductPrefix, Counter(kv, ProductCounterKey), OrderCounterKey, JNum(id as real));
    RecordsKeyedOtherWrite(bumped, ProductPrefix, Counter(kv, ProductCounterKey), key, record);
    RecordsKeyedOtherWrite(kv, OrderPrefix, id - 1, OrderCounterKey, JNum(id as real));
    RecordsKeyedAdd(bumped, OrderPrefix, id, record);
    OrdersDatedWrite(kv, OrderCounterKey, JNum(id as real));
    OrdersDatedWrite(bumped, key, record);
  }

  /** A write outside `prefix` keeps the records under `prefix` as they were. */
  lemma RecordsKeyedOtherWrite(kv: map<string, Json>, prefix: string, bound: nat, key: string, v: Json)
    requires RecordsKeyed(kv, prefix, bound) && !(prefix <= key)
    ensures RecordsKeyed(kv[key := v], prefix, bound)
  {
  }

  /** Storing record number `id` under `prefix`, where every earlier id is below it, keeps the records keyed. */
  lemma RecordsKeyedAdd(kv: map<string, Json>, prefix: string, id: nat, record: Json)
    requires id >= 1 && RecordsKeyed(kv, prefix, id - 1)
    requires DigitsValue(NatToString(id)) == id
    requires record.JObj? && Get(record.fields, "id") == Some(JNum(id as real))
    ensures RecordsKeyed(kv[prefix + NatToString(id) := record], prefix, id)
  {
    var key := prefix + NatToString(id);
    assert key[|prefix|..] == NatToString(id);
  }

  /** A write that is not an order, or is an order with a numeric creation time, keeps orders dated. */
  lemma OrdersDatedWrite(kv: map<string, Json>, key: string, v: Json)
    requires OrdersDated(kv)
    requires OrderPrefix <= key ==> Prop(v, "created_at").Some? && Prop(v, "created_at").value.JNum?
    ensures OrdersDated(kv[key := v])
  {
  }

  /** Bumping a counter without storing a record (the order create that throws). */
  lemma CounterBumpPreservesInvariant(kv: map<string, Json>, id: nat)
    requires StoreInvariant(kv) && id == Counter(kv, OrderCounterKey) + 1
    ensures StoreInvariant(kv[OrderCounterKey := JNum(id as real)])
    ensures CountersMonotone(kv, kv[OrderCounterKey := JNum(id as real)])
    ensures Counter(kv[OrderCounterKey := JNum(id as real)], OrderCounterKey) == id
  {
    KeySpacesDisjoint("");
    assert (id as real).Floor == id;
  }

  /** Replacing the record under an existing key with one that keeps its id (and creation time). */
  lemma RewritePreservesInvariant(kv: map<string, Json>, key: string, record: Json)
    requires StoreInvariant(kv) && key in kv && kv[key].JObj?
    requires ProductPrefix <= key || OrderPrefix <= key
    requires record.JObj? && Get(record.fields, "id") == Get(kv[key].fields, "id")
    requires OrderPrefix <= key ==> Prop(record, "created_at") == Prop(kv[key], "created_at")
    ensures StoreInvariant(kv[key := record]) && CountersMonotone(kv, kv[key := record])
  {
    KeySpacesDisjoint("");
    assert key != ProductCounterKey && key != OrderCounterKey;
  }

  /** Removing a record leaves the invariant intact. */
  lemma DeletePreservesInvariant(kv: map<string, Json>, key: string)
    requires StoreInvariant(kv) && ProductPrefix <= key
    ensures StoreInvariant(kv - {key}) && CountersMonotone(kv, kv - {key})
  {
    KeySpacesDisjoint("");
    assert key != ProductCounterKey && key != OrderCounterKey;
  }

  /** Writing a key outside both record spaces and both counters leaves the invariant intact. */
  lemma SingletonWritePreservesInvariant(kv: map<string, Json>, key: string, v: Json)
    requires StoreInvariant(kv)
    requires key != ProductCounterKey && key != OrderCounterKey && !(ProductPrefix <= key) && !(OrderPrefix <= key)
    ensures StoreInvariant(kv[key := v]) && CountersMonotone(kv, kv[key := v])
  {
  }

  /** Reading the settings twice: the second read returns the record the first one stored, and writes nothing. */
  method SettingsReadTwice(store: Store) returns (first: Response, second: Response)
    requires store.Valid()
    modifies store
    ensures first == second
    ensures !Present(Get(old(store.kv), SettingsKey)) ==> first == Ok(Obj1("settings", DefaultSettings))
  {
    first := store.GetSettings();
    ghost var between := store.kv;
    second := store.GetSettings();
    assert store.kv == between;
  }
}
