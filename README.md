# C&R Street storefront — a Dafny model

C&R Street is a small dropshipping clothing shop. Shoppers pick a gender and a category, browse a
product grid, fill a cart, and check out with Pix or a credit card. A shopkeeper manages the
catalogue and order statuses from an administration panel. A serverless backend keeps products,
orders, two id counters and the shop settings in one key-value store of JSON records. A second
serverless function turns a cart into a payment-gateway checkout preference.

This project models that core and proves what it promises:

- `wrappers.dfy` (`Wrappers`): `Option`.
- `text.dfy` (`Text`): the string built-ins the code relies on. That is `String(n)` for ids and
  `split`, `join` and `trim` for the admin panel's sizes text.
- `js.dfy` (`Js`): JSON values and the JavaScript conventions the code depends on. It covers
  truthiness, `||` defaults, object spread, and `parseInt`/`parseFloat` with NaN as `None`.
- `server.dfy` (`Server`): the backend routes. The store is a class `Store` whose `kv` map the
  route methods update. A store invariant is preserved by every route:
  - counters are natural numbers;
  - every `product:<id>` and `order:<id>` key has a canonical decimal id no greater than its
    counter, and holds a record with that id;
  - every order carries a creation time.
- `storefront.dfy` (`Storefront`): the cart updaters and the catalogue filters of the app shell.
- `cart_panel.dfy` (`CartPanel`): the cart drawer's total and the requests its buttons send.
- `checkout.dfy` (`Checkout`): the checkout dialog as a class. It is a three-step state machine
  over the form, the payload it sends, and what the server stores for it.
- `admin.dfy` (`Admin`): the product form, with its conversions to and from a product and its
  save, edit, cancel and delete handlers, plus the order-status dropdown.
- `product_card.dfy` (`ProductCard`): the image carousel and the add-to-cart button of a card.
- `create_payment.dfy` (`CreatePayment`): the payment function, with the gateway as a parameter.

## Behaviour the model makes explicit

- A checkout whose total is 0 is rejected by the order route with 400.
  - `Checkout.ServerAcceptsPayload` shows this. The check is on the total, not on the item list:
    an empty item list is truthy.
- An order create whose customer has no address still consumes an id.
  - It bumps `order_counter` and then fails with 500 (`Server.CreateOrderOutcome`).
- A product saved with an empty sizes list comes back from an edit as one empty size, `[""]`
  (`Admin.NoSizesRoundTrip`).
- A product stored with `images: []` shows no image, because an empty list is truthy and wins
  over `image` (`ProductCard.Images`).
- A stock of `0` is stored as `999`, the marker for unlimited stock (`Server.StockOf`).
- "Novo Produto" and "Cancelar" do not reset the product form. Only a successful save does
  (`Admin.ProductPanel.OpenNew`, `Admin.ProductPanel.Cancel`).
- The price input has no lower bound, so a negative price such as "-5" passes the create guard
  and is stored as a negative number (`Admin.NegativePriceAccepted`).
- Saving an edit with a blank price stores `price: null` over the old price
  (`Admin.BlankPriceEditStoresNull`). The panel's product list (`toFixed`) and its edit handler
  (`toString`) then fail on that record. `Admin.AdminProduct` holds a numeric price, so the
  model's product list cannot represent it.

## Model

| member | source | states |
|---|---|---|
| Text.NatToString | src/supabase/functions/server/index.tsx:72 | a rendered id is a canonical decimal numeral: digits only, no leading zero, "0" only for 0 |
| Text.NatToStringRoundTrip | src/supabase/functions/server/index.tsx:72 | reading the digits of a rendered id gives the id back |
| Text.NatToStringInjective | src/supabase/functions/server/index.tsx:203 | distinct ids render to distinct key suffixes |
| Text.IntToString | netlify/functions/create-payment.ts:28 | a rendered integer is non-empty and starts with '-' exactly when it is negative |
| Text.LeadingDigits | src/supabase/functions/server/index.tsx:68 | the digits `parseInt` reads are the longest digit prefix of the text |
| Text.LeadingDigitsOfDigits | src/supabase/functions/server/index.tsx:95 | a path id made only of digits is read in full |
| Text.LeadingDigitsStop | src/supabase/functions/server/index.tsx:60 | the digits read stop exactly at the first character that is not a digit |
| Text.Split | src/components/Admin.tsx:52 | splitting on a comma always yields at least one piece |
| Text.SplitLength | src/components/Admin.tsx:52 | splitting yields one more piece than there are separators |
| Text.SplitPiecesFree | src/components/Admin.tsx:52 | no piece contains the separator |
| Text.JoinSplit | src/components/Admin.tsx:52 | joining the pieces of a split restores every text |
| Text.SplitWithoutSep | src/components/Admin.tsx:52 | a text without a comma splits into itself alone |
| Text.SplitAtSep | src/components/Admin.tsx:52 | a comma after a comma-free piece starts a new piece |
| Text.SplitJoin | src/components/Admin.tsx:114 | splitting a join restores a non-empty list of comma-free pieces |
| Text.TrimStart | src/components/Admin.tsx:52 | removes exactly the leading white space: what is cut is white space and the rest does not start with it |
| Text.TrimEnd | src/components/Admin.tsx:52 | removes exactly the trailing white space: the result is a prefix and what is cut is white space |
| Text.Trim | src/components/Admin.tsx:52 | a trimmed size has no white space at either end and is no longer than the input |
| Text.TrimMeans | src/components/Admin.tsx:52 | `trim` returns a slice of the input: everything before it and everything after it is white space |
| Text.TrimEndKeepsStart | src/components/Admin.tsx:52 | cutting trailing white space from text not starting with white space leaves it trimmed at both ends |
| Text.TrimTrimmed | src/components/Admin.tsx:52 | trimming text with no surrounding white space changes nothing |
| Js.Assign | src/supabase/functions/server/index.tsx:225-230 | an object-literal member sets exactly that key, or removes it when the value is `undefined`, and leaves all others |
| Js.ParseFloatText | src/supabase/functions/server/index.tsx:60 | `parseFloat` of blank text is NaN |
| Js.UnsignedFloat | src/supabase/functions/server/index.tsx:60 | a literal is found exactly when it has integer or fraction digits, and its value is non-negative |
| Js.FractionValue | src/supabase/functions/server/index.tsx:60 | the digits after the point add a non-negative amount, nothing when there are none |
| Js.Scale | src/supabase/functions/server/index.tsx:60 | an exponent keeps a non-negative number non-negative |
| Js.ScaleWhole | src/supabase/functions/server/index.tsx:60 | a whole number with exponent `e` is that number times ten to the `e` |
| Js.ParseIntText | src/supabase/functions/server/index.tsx:68 | `parseInt` of blank text is NaN |
| Js.Trunc | src/supabase/functions/server/index.tsx:68 | rounds toward zero: within one of the number, on the side of zero |
| Js.ParseFloat | src/supabase/functions/server/index.tsx:60 | a number parses to itself and a string as its text; `undefined`, null, booleans, objects and an empty array give NaN |
| Js.ParseInt | src/supabase/functions/server/index.tsx:68 | a number parses to its truncation and a string as its text; `undefined`, null, booleans, objects and an empty array give NaN |
| Js.ParseOfArray | src/supabase/functions/server/index.tsx:60-68 | a non-empty array parses as its first element, since its text ends that element's literal at the first comma |
| Js.NumberJson | src/supabase/functions/server/index.tsx:60 | a parsed value is stored as a JSON number exactly when it is not NaN |
| Js.ParseDigitsText | src/supabase/functions/server/index.tsx:95 | both parsers read a string of digits as its decimal value |
| Js.ParseFloatDigitStart | src/supabase/functions/server/index.tsx:60 | `parseFloat` of text starting with a digit reads it as an unsigned literal, which is always found and non-negative |
| Js.ParseIntDigitStart | src/supabase/functions/server/index.tsx:68 | `parseInt` of text starting with a digit is the value of its leading digits |
| Js.UnsignedStart | src/supabase/functions/server/index.tsx:60 | text starting with a digit has no white space and no sign to skip |
| Js.ParseIntDigits | src/supabase/functions/server/index.tsx:95 | `parseInt` reads a string of digits as its decimal value |
| Js.ParseFloatDigits | src/supabase/functions/server/index.tsx:60 | `parseFloat` reads a string of digits as its decimal value |
| Js.UnsignedFloatDigits | src/supabase/functions/server/index.tsx:60 | an unsigned literal of digits only is their decimal value |
| Js.DecimalPrefixOfDigits | src/supabase/functions/server/index.tsx:60 | a string of digits is all integer part, with no fraction and nothing after it |
| Js.ParseFloatMinus | src/supabase/functions/server/index.tsx:60 | `parseFloat` of a minus sign followed by a text reads that text unsigned and negates the number; it is NaN when the text has no number |
| Js.ParseIntNegative | src/supabase/functions/server/index.tsx:68 | a minus sign in front of text starting with a digit negates what `parseInt` reads from that text |
| Js.ParseFloatNegativeDigits | src/supabase/functions/server/index.tsx:60 | a minus sign and digits parse to the negated value of the digits |
| Js.ParseFloatExponent | src/supabase/functions/server/index.tsx:60 | digits, `e` and digits parse to the first number times ten to the second |
| Js.UnsignedFloatExponent | src/supabase/functions/server/index.tsx:60 | an unsigned literal with an exponent is its mantissa scaled by that exponent |
| Js.DecimalPrefixStop | src/supabase/functions/server/index.tsx:60 | digits followed by neither a digit nor a point are the whole integer part, with no fraction |
| Js.ExponentOfDigits | src/supabase/functions/server/index.tsx:60 | `e` followed by digits is an exponent of their value |
| Js.ParseIntOfNatString | src/supabase/functions/server/index.tsx:95 | `parseInt` of a rendered id gives the id back |
| Server.KeySpacesDisjoint | src/supabase/functions/server/index.tsx:53-72 | product keys, order keys and the three singleton keys never collide, and a prefixed key's suffix is the id |
| Server.NextKeyIsFresh | src/supabase/functions/server/index.tsx:53-72 | under the store invariant, the key of the next counter value is not in the store |
| Server.StockOf | src/supabase/functions/server/index.tsx:68 | stock is 999 exactly when the sent stock is NaN, 0 or 999; otherwise it is the parsed stock |
| Server.NewProduct | src/supabase/functions/server/index.tsx:57-70 | a new product carries the id it was given |
| Server.NewProductKeys | src/supabase/functions/server/index.tsx:57-70 | a new product has exactly the twelve fields of the create route, whatever its numbers parse to |
| Server.NewProductFields | src/supabase/functions/server/index.tsx:57-70 | name and category as sent, price parsed (NaN stored as null), supplier cost 0 when unparseable, the stock rule, creation time `now` |
| Server.NewProductDefaults | src/supabase/functions/server/index.tsx:61-66 | image, images, gender, sizes and supplier link are as sent when truthy, else '', [], 'Unissex', P-M-G-GG and '', whatever the numbers parse to |
| Server.MergeTakesBody | src/supabase/functions/server/index.tsx:92-97 | a member the body sends, other than `id` and `updated_at`, is stored exactly as sent |
| Server.MergeProduct | src/supabase/functions/server/index.tsx:92-97 | the update merges the stored record with the body: body members win, the rest are kept, the id comes from the path, `updated_at` is `now` |
| Server.Pick | src/supabase/functions/server/index.tsx:179-193 | each copied member reads as in the source object, and nothing else is copied |
| Server.NewCustomer | src/supabase/functions/server/index.tsx:179-193 | the stored customer copies the four contact members and the six address members, with the complement defaulting to '' |
| Server.NewOrder | src/supabase/functions/server/index.tsx:176-201 | a new order carries its id and creation time |
| Server.NewOrderKeys | src/supabase/functions/server/index.tsx:176-201 | a new order has exactly the ten fields of the create route |
| Server.NewOrderFields | src/supabase/functions/server/index.tsx:178-200 | items as sent, status awaiting payment, no tracking code, last updated at creation |
| Server.NewOrderContents | src/supabase/functions/server/index.tsx:179-194 | the total is the parsed total sent, and the customer is built from the customer and address sent |
| Server.NewOrderPayment | src/supabase/functions/server/index.tsx:196-197 | payment method as sent or 'pix', payment id as sent or null |
| Server.WithStatus | src/supabase/functions/server/index.tsx:225-230 | the status as sent, the sent tracking code only when truthy, `updated_at` is `now`, every other member unchanged |
| Server.InsertNewest | src/supabase/functions/server/index.tsx:134-136 | inserting adds exactly the one order |
| Server.SortNewestFirst | src/supabase/functions/server/index.tsx:134-136 | sorting permutes the orders |
| Server.InsertNewestBounded | src/supabase/functions/server/index.tsx:134-136 | inserting keeps every order no newer than a bound its inputs respect |
| Server.InsertNewestSorted | src/supabase/functions/server/index.tsx:134-136 | inserting into a newest-first list keeps it newest first |
| Server.SortNewestFirstSorted | src/supabase/functions/server/index.tsx:134-136 | the listing is newest first, for every input |
| Server.ValuesAt | src/supabase/functions/server/index.tsx:17 | the listed values are the stored values of the listed keys, in order |
| Server.ValuesAtSnoc | src/supabase/functions/server/index.tsx:17 | listing one more key appends its value |
| Server.Store.constructor | src/supabase/functions/server/index.tsx:4 | the store starts empty and satisfies the invariant |
| Server.Store.ScanPrefix | src/supabase/functions/server/index.tsx:17 | the keys are exactly the stored keys under the prefix, each once, and the values are theirs |
| Server.Store.ListProducts | src/supabase/functions/server/index.tsx:15-23 | lists every stored product, each once, and changes nothing |
| Server.Store.GetProduct | src/supabase/functions/server/index.tsx:26-40 | 200 with the record exactly when a truthy record is stored under the id, else 404 "Product not found" |
| Server.Store.CreateProduct | src/supabase/functions/server/index.tsx:43-79 | missing name, price or category gives 400 and no write; otherwise the next id, whose key was free, holds the new product, the counter is bumped, the answer is 201, and the invariant holds |
| Server.Store.UpdateProduct | src/supabase/functions/server/index.tsx:82-106 | 404 and no write for an unknown id; otherwise the merged record replaces the old one under the same key and keeps its id |
| Server.Store.DeleteProduct | src/supabase/functions/server/index.tsx:109-125 | 404 and no write for an unknown id; otherwise exactly that key goes, the counter stays, and a later read answers 404 |
| Server.Store.ListOrders | src/supabase/functions/server/index.tsx:130-142 | the orders returned are a permutation of the stored orders, newest first |
| Server.Store.GetOrder | src/supabase/functions/server/index.tsx:145-159 | 200 with the record exactly when a truthy order is stored under the id, else 404 "Order not found" |
| Server.Store.CreateOrder | src/supabase/functions/server/index.tsx:162-212 | the new store and the answer are those of the order route, and the invariant holds |
| Server.CreateOrderSteps | src/supabase/functions/server/index.tsx:172-207 | on the success path the bumped counter and the stored order are the route's outcome |
| Server.CreateOrderPreservesInvariant | src/supabase/functions/server/index.tsx:162-212 | every outcome of an order create keeps the store invariant, and no counter goes down |
| Server.CreateOrderOutcome | src/supabase/functions/server/index.tsx:162-212 | a rejected create writes nothing; an accepted one takes the next, free id and either stores the order (201) or, with no address, only bumps the counter (500) |
| Server.Store.UpdateOrderStatus | src/supabase/functions/server/index.tsx:215-241 | 404 and no write for an unknown id; otherwise the order is replaced by its status update under the same key |
| Server.Store.GetSettings | src/supabase/functions/server/index.tsx:246-268 | returns the stored settings; when none are stored it first stores and returns the defaults |
| Server.Store.PutSettings | src/supabase/functions/server/index.tsx:271-280 | the body replaces the settings and is echoed back |
| Server.SettingsReadTwice | src/supabase/functions/server/index.tsx:246-268 | two reads in a row answer the same, the defaults on a fresh store |
| Server.ProductCreatePreservesInvariant | src/supabase/functions/server/index.tsx:53-72 | storing the next product with the bumped counter keeps the invariant, and the counter becomes the new id |
| Server.OrderCreatePreservesInvariant | src/supabase/functions/server/index.tsx:172-203 | storing the next dated order with the bumped counter keeps the invariant, and the counter becomes the new id |
| Server.RecordsKeyedOtherWrite | src/supabase/functions/server/index.tsx:72 | a write outside a key space keeps that key space well keyed |
| Server.RecordsKeyedAdd | src/supabase/functions/server/index.tsx:72 | storing record `id` under its canonical key extends the well-keyed range to `id` |
| Server.OrdersDatedWrite | src/supabase/functions/server/index.tsx:203 | writing a dated order, or any non-order key, keeps every order dated |
| Server.CounterBumpPreservesInvariant | src/supabase/functions/server/index.tsx:172-174 | bumping the order counter alone keeps the invariant |
| Server.RewritePreservesInvariant | src/supabase/functions/server/index.tsx:92-99 | rewriting a record that keeps its id, and an order's creation time, keeps the invariant |
| Server.DeletePreservesInvariant | src/supabase/functions/server/index.tsx:117 | deleting a product keeps the invariant and the counters |
| Server.SingletonWritePreservesInvariant | src/supabase/functions/server/index.tsx:261 | writing the settings key keeps the invariant and the counters |
| Storefront.Bump | src/App.tsx:86-90 | same length; the matching lines gain one unit and the others are unchanged |
| Storefront.AddToCart | src/App.tsx:78-96 | with an existing line, exactly the lines with that key gain one and the rest are unchanged; otherwise the cart is kept and one unit is appended as a new last line |
| Storefront.RemoveFromCart | src/App.tsx:98-102 | keeps exactly the lines without the key, in their order, dropping as many as carry it |
| Storefront.SetQuantity | src/App.tsx:110-114 | same length; the matching lines take the quantity and the others are unchanged |
| Storefront.UpdateQuantity | src/App.tsx:104-115 | quantity 0 removes the key's lines; any other quantity is set on them |
| Storefront.TotalItemsAppend | src/App.tsx:128 | the item count of a concatenation is the sum of the counts |
| Storefront.BumpTotal | src/App.tsx:128 | bumping raises the item count by the number of matching lines |
| Storefront.CountLinesUnique | src/App.tsx:78-96 | a cart with unique keys has one line per key it holds |
| Storefront.AddToCartTotalItems | src/App.tsx:128 | adding to the cart raises the item count by exactly one |
| Storefront.AddToCartLength | src/App.tsx:78-96 | adding keeps the length for an existing line and grows it by one otherwise |
| Storefront.AddToCartUnique | src/App.tsx:78-96 | adding never creates a second line for a key |
| Storefront.RemoveFromCartAppend | src/App.tsx:98-102 | removing distributes over concatenation |
| Storefront.RemoveFromCartAbsent | src/App.tsx:98-102 | removing a key no line carries changes nothing |
| Storefront.UniqueKeysAround | src/App.tsx:78-96 | in a cart with unique keys, no line before or after line i carries its key |
| Storefront.RemoveFromCartExact | src/App.tsx:98-102 | removing line i's key from a cart with unique keys drops exactly line i and keeps the order |
| Storefront.RemoveOneLine | src/App.tsx:98-102 | removing a key carried only by x from before+[x]+after leaves before+after |
| Storefront.RemoveFromCartMissing | src/App.tsx:98-115 | removing, or setting quantity 0 on, a missing key changes nothing |
| Storefront.RemoveFromCartUnique | src/App.tsx:98-102 | removing keeps keys unique |
| Storefront.UpdateQuantityUnique | src/App.tsx:104-115 | changing a quantity keeps keys unique |
| Storefront.UpdateQuantityMissing | src/App.tsx:104-115 | changing the quantity of a missing key changes nothing |
| Storefront.Keep | src/App.tsx:117-126 | the kept products are exactly those passing the test, in catalogue order, each as many times as in the catalogue |
| Storefront.ByCategory | src/App.tsx:117-119 | "Todos" keeps the whole catalogue; any other category keeps exactly its products, in order |
| Storefront.ByGender | src/App.tsx:121-126 | "Todos" keeps everything; any other gender keeps exactly its products plus those of categories without gender |
| Storefront.VisibleProducts | src/App.tsx:117-130 | the grid appears exactly when both choices are made, and shows an ordered selection matching both filters |
| Storefront.NothingShownInitially | src/App.tsx:32-33 | nothing is shown before a gender and a category are chosen |
| Storefront.IsSublistReflexive | src/App.tsx:117-119 | "Todos" keeps the catalogue as an ordered selection of itself |
| Storefront.IsSublistTransitive | src/App.tsx:117-126 | filtering twice still gives an ordered selection of the catalogue |
| CartPanel.ViewOf | src/components/Cart.tsx:37 | the drawer shows the empty-cart message exactly for an empty cart, and otherwise the cart's total |
| CartPanel.CartTotalAppend | src/components/Cart.tsx:15 | the total of a concatenation is the sum of the totals |
| CartPanel.CartTotalNonNegative | src/components/Cart.tsx:15 | with non-negative prices and quantities the total is non-negative |
| CartPanel.CartTotalUpdate | src/components/Cart.tsx:15 | changing one line's quantity moves the total by its price times the change |
| CartPanel.CartTotalSingle | src/components/Cart.tsx:15 | a one-line cart costs that line's price times its quantity |
| CartPanel.SetQuantityAt | src/App.tsx:104-115 | with unique keys, a non-zero quantity on line i's key changes that line only |
| CartPanel.MinusOnLine | src/components/Cart.tsx:76-78 | minus on a one-unit line removes it; otherwise the line loses one unit; the cart stays well formed |
| CartPanel.DropLine | src/components/Cart.tsx:66 | dropping a line keeps the cart well formed |
| CartPanel.DropLinePositive | src/components/Cart.tsx:66 | dropping a line keeps every other line at one unit or more |
| CartPanel.DropLineTotal | src/components/Cart.tsx:15 | dropping a line takes its subtotal off the total |
| CartPanel.SetLine | src/App.tsx:104-115 | a positive quantity on a line of a well-formed cart changes that line only and keeps the cart well formed |
| CartPanel.PlusOnLine | src/components/Cart.tsx:85-87 | plus adds one unit to that line only, keeps the cart well formed, and raises the total by its price |
| CartPanel.RemoveOnLine | src/components/Cart.tsx:66 | remove drops exactly that line, keeps the order and well-formedness, and lowers the total by its subtotal |
| CartPanel.SameKeySameLine | src/App.tsx:78-96 | with unique keys, two lines with the same key are the same line |
| CartPanel.BumpIsPlus | src/App.tsx:86-90 | adding a product already in the cart does what the plus button on its line does |
| CartPanel.AddAt | src/App.tsx:78-96 | with one line per key, adding a line's own product in its size adds one unit to that line and changes nothing else |
| CartPanel.BumpAt | src/App.tsx:86-90 | with unique keys, bumping line i's key adds one unit to that line only |
| CartPanel.AddNewLine | src/App.tsx:94 | appending a fresh one-unit line keeps the cart well formed and adds the product's price |
| CartPanel.AddToCartOnTotals | src/App.tsx:78-96 | adding keeps the cart well formed and raises the total by one unit's price: the stored line's when the line exists, else the product's |
| Checkout.MethodName | src/components/Checkout.tsx:31 | every payment method has a non-empty name |
| Checkout.SetField | src/components/Checkout.tsx:38-41 | the named input takes the value and every other input keeps its own |
| Checkout.RequiredFilledMeans | src/components/Checkout.tsx:47-52 | the submit guard holds exactly when every input except the complement is non-empty |
| Checkout.PayloadItems | src/components/Checkout.tsx:63-69 | one payload line per cart line, in order, with its id, name, price, quantity and size |
| Checkout.PayloadItemsTotal | src/components/Checkout.tsx:34 | the payload's lines add up to the cart total |
| Checkout.BuildPayload | src/components/Checkout.tsx:62-87 | the payload carries the cart lines, every form input, the cart total and the chosen method |
| Checkout.CheckoutDialog.constructor | src/components/Checkout.tsx:16-32 | the dialog opens on the form step, with empty inputs, Pix chosen, not loading and no order |
| Checkout.CheckoutDialog.InputChange | src/components/Checkout.tsx:38-41 | only the named input changes |
| Checkout.CheckoutDialog.SubmitForm | src/components/Checkout.tsx:43-55 | moves to payment exactly when the required inputs are filled; otherwise nothing changes |
| Checkout.CheckoutDialog.ChoosePayment | src/components/Checkout.tsx:300 | only the payment method changes |
| Checkout.CheckoutDialog.Back | src/components/Checkout.tsx:355 | returns from payment to the form, keeping what was typed |
| Checkout.CheckoutDialog.ConfirmPayment | src/components/Checkout.tsx:57-87 | sets loading and sends the payload built from the cart, the form and the method |
| Checkout.CheckoutDialog.OrderSettled | src/components/Checkout.tsx:89-103 | loading ends; success records the order id and shows the success step; failure keeps the step |
| Checkout.Confirm | src/components/Checkout.tsx:57-104 | a whole confirmation sends the built payload and ends on success or back on payment, not loading |
| Checkout.CentsJson | src/components/Checkout.tsx:85 | the total goes out as a number that is truthy exactly when the amount is not zero |
| Checkout.ServerAcceptsPayload | src/supabase/functions/server/index.tsx:167-169 | the order route accepts a checkout payload exactly when its total is not zero, and the address is then present |
| Checkout.StoredCustomer | src/supabase/functions/server/index.tsx:179-193 | the server's customer record carries every form input verbatim |
| Checkout.PayloadMembers | src/components/Checkout.tsx:62-87 | the body's customer, total, payment method and address are the ones the route reads |
| Checkout.StoredOrder | src/supabase/functions/server/index.tsx:176-201 | an accepted payload is stored with its customer, method, total and an awaiting-payment status |
| Checkout.StoredOrderOfCheckout | src/components/Checkout.tsx:62-87 | a checkout with a non-zero total is stored with every form input, the chosen method and the cart total, awaiting payment |
| Admin.TrimAll | src/components/Admin.tsx:52 | every size is trimmed, one per piece, in order |
| Admin.SizesCount | src/components/Admin.tsx:52 | the saved list has one more size than the text has commas, and empty text gives one empty size |
| Admin.SizesRoundTrip | src/components/Admin.tsx:114 | editing and then saving gives back a list of plain sizes |
| Admin.NoSizesRoundTrip | src/components/Admin.tsx:114 | a product saved with no sizes comes back from an edit with one empty size |
| Admin.StringsJson | src/components/Admin.tsx:52 | the sizes go out as a JSON array of the same strings |
| Admin.Body | src/components/Admin.tsx:48-53 | the saved name is the name input |
| Admin.BodyKeys | src/components/Admin.tsx:48-53 | a save sends exactly the eight form members |
| Admin.BodyTexts | src/components/Admin.tsx:48-49 | the image, category and gender inputs go out verbatim, whatever the numbers parse to |
| Admin.BodyLinkAndSizes | src/components/Admin.tsx:48-52 | the supplier link goes out verbatim and the sizes as a list of strings, whatever the numbers parse to |
| Admin.BodyNumbers | src/components/Admin.tsx:50-51 | the price is a number exactly when it parses; the supplier cost is always a number, 0 when it does not parse |
| Admin.FormOf | src/components/Admin.tsx:106-119 | the edit form shows the product: a missing or empty gender as Unissex, the sizes comma-joined, a missing link or cost as '' |
| Admin.EditThenSave | src/components/Admin.tsx:106-119 | editing and saving unchanged sends back the name, image, category, plain sizes and link, and the gender when it had one |
| Admin.CreateAccepted | src/components/Admin.tsx:50-59 | a new product passes the create guard exactly when name and category are filled and the price parses to a number other than 0, negative included |
| Admin.GuardOf | src/supabase/functions/server/index.tsx:48 | the create guard passes exactly for a filled name and category and a non-zero parsed price |
| Admin.NegativePriceAccepted | src/components/Admin.tsx:217-224 | a price input of a minus sign and non-zero digits passes the create guard and parses to the negated digits, the number `Admin.BodyNumbers` shows is sent |
| Admin.BlankPriceEditStoresNull | src/components/Admin.tsx:50-56 | saving an edit with a blank price stores `price: null` over the old price |
| Admin.InitialFormRejected | src/components/Admin.tsx:65-74 | the initial form cannot be saved as a new product |
| Admin.InitialSizes | src/components/Admin.tsx:71 | the initial sizes text saves as the server's default sizes |
| Admin.DefaultSizesJson | src/supabase/functions/server/index.tsx:65 | P, M, G, GG as JSON is the server's default sizes |
| Admin.UpdateKeepsId | src/components/Admin.tsx:56 | an edited product saved through the update route keeps its id |
| Admin.DeleteRequest | src/components/Admin.tsx:82-93 | a delete is sent exactly when the shopkeeper confirms, for that id |
| Admin.StatusOptionsComplete | src/components/Admin.tsx:435-446 | the dropdown offers six distinct statuses, exactly those with a label and a colour, starting with a new order's status |
| Admin.StatusChangeBody | src/utils/api.ts:127-133 | a dropdown change sends the status and no tracking code |
| Admin.StatusChangeKeepsTracking | src/components/Admin.tsx:437 | a status change from the dropdown sets the status and keeps the order's tracking code |
| Admin.ProductPanel.constructor | src/components/Admin.tsx:13-22 | the form starts hidden and holding the initial values, with nothing being edited |
| Admin.ProductPanel.OpenNew | src/components/Admin.tsx:187-190 | the form is shown for a new product and keeps its contents |
| Admin.ProductPanel.EditProduct | src/components/Admin.tsx:106-119 | the product is being edited and the form shows it |
| Admin.ProductPanel.Cancel | src/components/Admin.tsx:296-299 | the form is hidden and nothing is edited; its contents stay |
| Admin.ProductPanel.SaveProduct | src/components/Admin.tsx:46-61 | an update of the edited product, or a create, with the form's data |
| Admin.ProductPanel.SaveSettled | src/components/Admin.tsx:63-79 | success hides and resets the form; failure changes nothing |
| ProductCard.Images | src/components/ProductCard.tsx:16 | the image list is the product's list when it has one, even an empty one, else its single image |
| ProductCard.JsRem | src/components/ProductCard.tsx:27-32 | JavaScript's remainder: Euclidean for non-negative operands, and always smaller than the divisor in magnitude |
| ProductCard.Next | src/components/ProductCard.tsx:25-28 | one image on, wrapping from the last to the first |
| ProductCard.Prev | src/components/ProductCard.tsx:30-33 | one image back, wrapping from the first to the last |
| ProductCard.ArrowsStayInRange | src/components/ProductCard.tsx:25-33 | the arrows never leave the image list |
| ProductCard.PrevNextInverse | src/components/ProductCard.tsx:25-33 | back then forward, or forward then back, returns to the same image |
| ProductCard.AdvanceLinear | src/components/ProductCard.tsx:25-28 | before the end, k presses move k images on |
| ProductCard.AdvanceCompose | src/components/ProductCard.tsx:25-28 | a presses then b presses are a+b presses |
| ProductCard.FullCycle | src/components/ProductCard.tsx:25-28 | one press per image comes back to the start |
| ProductCard.SingleImage | src/components/ProductCard.tsx:17 | with one image the arrows would not move |
| ProductCard.Initial | src/components/ProductCard.tsx:12-14 | a card starts on the first image, not added, with the first size selected, or none for a product without sizes |
| ProductCard.Clicked | src/components/ProductCard.tsx:47-69 | arrows and dots act only with several images; a dot selects its image; size and added flag are untouched |
| ProductCard.IndexStaysInRange | src/components/ProductCard.tsx:25-69 | the shown image is always one of the product's images |
| ProductCard.AddClicked | src/components/ProductCard.tsx:19-23 | the product goes to the cart with the selected size and the card shows it was added |
| CreatePayment.GatewayItemOf | netlify/functions/create-payment.ts:27-33 | a gateway line keeps the cart line's quantity and price, in reais, titled with its name and size |
| CreatePayment.GatewayItems | netlify/functions/create-payment.ts:27-43 | one gateway line per cart line in order, then a shipping line exactly when the fee is positive |
| CreatePayment.BuildItems | netlify/functions/create-payment.ts:27-43 | the items built are the gateway items of the request |
| CreatePayment.ItemsTotalAppend | netlify/functions/create-payment.ts:27-43 | the charge for a concatenation is the sum of the charges |
| CreatePayment.MappedTotal | netlify/functions/create-payment.ts:27-33 | the mapped lines cost what the cart lines cost |
| CreatePayment.GatewayCharge | netlify/functions/create-payment.ts:27-43 | the gateway charges the cart lines' total plus the fee when there is one |
| CreatePayment.GatewayIdRoundTrip | netlify/functions/create-payment.ts:28 | a gateway line's id reads back as the product id |
| CreatePayment.PreferenceFor | netlify/functions/create-payment.ts:45-55 | the preference has the request's items, the shop's address for every outcome, and automatic return on approval |
| CreatePayment.Handle | netlify/functions/create-payment.ts:12-71 | OPTIONS gets the CORS preflight; an unreadable body gets 500; otherwise the preference is sent and the gateway's link, or 500 when it fails, is returned |

## Left out

- The key-value store's own implementation is not part of this model. Other backend routes are left out: the Hono app, the CORS and logger middleware, the webhook and the health check. The store is the `kv` map of `Server.Store`.
- The HTTP wrappers in src/utils/api.ts are left out: they forward a request and reject on a non-2xx status. Requests are returned as values, and a failed request is the `None`/`false` argument of the `...Settled` methods.
- src/utils/seed-products.ts is seed data, not behaviour.
- The Mercado Pago SDK is the `gateway` parameter of `CreatePayment.Handle`. The client configuration and its timeout (netlify/functions/create-payment.ts:5-10) are left out.
- `Number()` coercion of request fields in create-payment.ts is left out. The model takes already-numeric line fields, and a body that cannot be read is `None`.
- Console logging, toasts, `setTimeout`, `loadData`, rendering and styling are left out. The settings' delivery warning is kept only as stored text.
- The admin form's `onChange` handlers are left out: they set one member of the form, as `Checkout.SetField` does.
- `Number.prototype.toString` is the `render` parameter of `Admin.FormOf`. The model does not fix how numbers are printed.
- Js.ParseFloatText: does not read "Infinity", and values are exact reals, so a literal beyond the range of a double does not become Infinity.
- Js.ParseIntText: reads base 10 only. A "0x" prefix, which `parseInt` without a radix reads as hexadecimal, is not modelled.
- Js.ParseInt: a number is truncated. `parseInt` reads the text of the number, which for a magnitude of 1e21 or more, or a non-zero one below 1e-6, is in exponent form, so that `parseInt` gives its leading digits instead. Stock values are small whole numbers in this code.
- Admin.AdminProduct: the price is a number. A record whose price was stored as null cannot be held, and the panel's failure to render it is not modelled.
- Money is exact: reais are reals in the backend and the payment function, and integer cents in the cart and the checkout. Floating-point rounding is not modelled.
- Request bodies that are not JSON objects, and malformed JSON, are left out. The routes take a map of members, and the payment function takes `None` for an unreadable body.
- Concurrent requests are left out: routes run one after another, so the read-increment-write of a counter is atomic here.
- Times are the natural-number `now` parameter rather than ISO strings. Orders are compared by that number.
- Server.Store.ListOrders: does not fix the order of orders with equal creation times. The model proves a newest-first permutation, but neither the store's scan order nor `sort`'s stability.
- Server.Store.ListProducts: the listing order is the store's scan order, which the model leaves open.
- Text.IntToString: states the sign and non-emptiness only, not the digits of a negative number, because only product ids, which are positive, are rendered.
