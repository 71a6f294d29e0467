# CRM entity store and mutations in Dafny

This project models the core of a small CRM backend: the four record kinds it
keeps (Customer, Product, Order, OrderItem) and the four GraphQL mutations that
write them (createCustomer, createProduct, createOrder and
updateLowStockProducts). It also proves properties of that model.

- `wrappers.dfy` (module `Wrappers`) holds `Option`.
- `text.dfy` (module `Text`) holds the decimal rendering of a natural number, as
  an f-string writes it, and its inverse.
- `models.dfy` (module `Models`) holds the records and their defaults (the
  declared ones, and the empty string Django gives a text field that declares
  none), the `full_clean()` length and blank checks, and the five status
  choices with their codes and labels. It also holds the `__str__` formats with
  the proofs that they can be read back, and the store value `Db`.
- `Db` carries its invariant `Valid()`: keys are in range, no foreign key
  dangles, emails are unique, and stored customers, products and item prices
  pass their length, blank and digit checks (not the email format; an order's
  total carries no bound). `models.dfy` also proves that each
  `on_delete=CASCADE` delete keeps that invariant.
- `schema.dfy` (module `Schema`) states each mutation as a step function over
  `Db`. Its contract gives the error cases and the exact new state.
- In `schema.dfy`, the class `Store` keeps the tables as fields and performs
  each mutation the way the resolver does, in the same order: first the order
  row, then one item per position in a loop while the total builds up, then the
  order again with its total; restocking uses an in-memory loop and then one
  bulk write. Each method is proved to end in the result and state that its
  step function gives.

Money is held as integer cents. A `DecimalField(max_digits=10,
decimal_places=2)` admits fewer than 10^10 cents either way.

Keys are positive integers handed out by one counter per table. The email
format check of `EmailField` is the parameter `isEmail`.

In four places the code does something a reader might not expect, and the
model follows the code:

- createOrder compares the number of matched products with the length of
  `product_ids`. So an id that is listed twice makes the order fail, exactly like
  a missing product (`ProductsResolveIff`). It does not compare against the
  number of distinct ids.
- `full_clean()` has no validator against a negative price or a negative stock,
  so both are accepted.
- `PositiveIntegerField` admits a quantity of 0.
- Only updateLowStockProducts runs inside a transaction. It is also the only
  mutation with a catch-all error branch.

## Model

| member | source | states |
|---|---|---|
| Models.Status.Code | crm/models.py:44-50 | the code stored for each status choice: "pending", "paid", "shipped", "delivered", "cancelled" |
| Models.Status.Label | crm/models.py:44-50 | the display name of each status choice: "En attente", "Payé", "Expédié", "Livré", "Annulé" |
| Models.StatusFromCode | crm/models.py:44-56 | a stored code maps to a status choice only when that choice's code is exactly that code |
| Models.StatusCodeRoundTrip | crm/models.py:44-56 | every status is stored as a non-empty code of at most 20 characters that reads back as the same status |
| Models.RecordDefaults | crm/models.py:4-86 | a record built without the optional fields has an empty phone, address and description; stock 0; available; status pending; total 0; quantity 1 |
| Models.DeleteOrder | crm/models.py:68-74 | deleting an order removes exactly that order and the items that belong to it, keeps every other record unchanged and keeps the store invariant |
| Models.DeleteProduct | crm/models.py:76-80 | deleting a product removes exactly that product and the items that reference it, keeps everything else and keeps the store invariant |
| Models.DeleteCustomer | crm/models.py:27-34 | deleting a customer removes the customer, exactly the orders it owns, and exactly the items of those orders; keeps everything else and keeps the store invariant |
| Models.Db.Valid | crm/models.py:4-86 | the store invariant: every key lies between 1 and its table's counter; every order's customer, every item's order and every item's product exist (the foreign keys); no two customers share an email (`unique=True`); stored customers and products pass their length, blank and digit checks and item prices their digit check |
| Models.EmailsInUse | crm/schema.py:84 | the emails of the stored customers, the set `Customer.objects.filter(email=email).exists()` looks in |
| Models.Customer.Label | crm/models.py:12-13 | a customer's display string: the first name, one space, the last name |
| Models.Customer.WellFormed | crm/models.py:5-9 | the length and blank checks of `full_clean()` on a customer: first and last name of 1 to 100 characters, email of 1 to 254, phone of at most 20, address unrestricted |
| Models.CustomerClean | crm/models.py:4-9 | `full_clean()` on a customer: the length and blank checks and the email format, the latter given by the oracle `isEmail` |
| Models.Product.WellFormed | crm/models.py:17-19 | the checks of `full_clean()` on a product: a name of 1 to 200 characters and a price of fewer than 10^10 cents either way; description and stock unrestricted |
| Models.Db.OrderLabel | crm/models.py:64-65 | an order's display string: "Commande #", the order's key in decimal, " - ", and the owning customer's display string |
| Models.Db.ItemLabel | crm/models.py:85-86 | an item's display string: its quantity in decimal, " x ", and the referenced product's name |
| Models.CustomerLabelSplits | crm/models.py:12-13 | a customer label, split at its first space, gives back the first and last name when the first name has no space |
| Models.OrderLabelReadBack | crm/models.py:64-65 | an order label "Commande #<id> - <customer>" parses back to the order's own key and its customer's label |
| Models.ItemLabelReadBack | crm/models.py:85-86 | an item label "<quantity> x <name>" parses back to the item's quantity and its product's name |
| Text.NatToStringReadBack | crm/models.py:85-86 | the decimal digits written for a number, followed by a non-digit, are read back as exactly those digits and that number |
| Schema.OrEmpty | crm/schema.py:92-93 | `value or ""`: the given string, or the empty string for a missing argument |
| Schema.NewCustomer | crm/schema.py:88-94 | the unsaved customer built from the arguments, with `phone or ""` and `address or ""` |
| Schema.AddCustomer | crm/schema.py:88-96 | saving a clean customer with an unused email puts it under a key not in use before, changes no other customer and keeps the store invariant, emails included |
| Schema.CreateCustomerStep | crm/schema.py:81-101 | a taken email fails first with EmailTaken and writes nothing; otherwise a failed full_clean answers InvalidFields and writes nothing, and success holds exactly when full_clean passes; on success exactly one customer is added, under the next customer key, which was not in use, the counter moves on by one, with "" for a missing phone or address |
| Schema.SecondCustomerWithSameEmailFails | crm/schema.py:84-85 | after a successful create, a second create with the same email fails with EmailTaken, writes nothing, and exactly one customer has that email |
| Schema.Store.CreateCustomer | crm/schema.py:81-101 | the method answers and leaves the store exactly as CreateCustomerStep says |
| Schema.NewProduct | crm/schema.py:118-123 | the unsaved product built from the arguments, with `description or ""` and the declared default availability |
| Schema.AddProduct | crm/schema.py:118-125 | saving a clean product puts it under a key not in use before, changes no other product and keeps the store invariant |
| Schema.CreateProductStep | crm/schema.py:116-130 | success holds exactly when full_clean passes, and a failure answers InvalidFields and writes nothing; on success exactly one product is added, under the next product key, which was not in use, the counter moves on by one, available, with "" for a missing description |
| Schema.Store.CreateProduct | crm/schema.py:116-130 | the method answers and leaves the store exactly as CreateProductStep says |
| Schema.Matched | crm/schema.py:150 | `Product.objects.filter(id__in=product_ids)`: the set of existing product keys among the listed ids |
| Schema.ProductsResolve | crm/schema.py:151 | the guard `len(products) == len(product_ids)`: the number of matched products equals the length of the id list |
| Schema.ProductsResolveIff | crm/schema.py:150-152 | the length guard passes if and only if every listed id names an existing product and no id is listed twice |
| Schema.QuantityAt | crm/schema.py:162 | `quantities[i] if i < len(quantities) else 1` |
| Schema.Total | crm/schema.py:159-171 | the running total, starting at 0 and growing by quantity times unit price for each item in order |
| Schema.LineItems | crm/schema.py:160-170 | there is one item per position, for the new order and that position's product, at the product's current price, with the position's quantity or 1 after the end of the quantities |
| Schema.PlaceOrder | crm/schema.py:154-175 | the writes of a successful createOrder: the pending order under the next order key with the total of its line items, and the line items under the next item keys |
| Schema.PlaceOrderValid | crm/schema.py:154-175 | the writes of a successful order keep the store invariant |
| Schema.PlaceOrderItems | crm/schema.py:158-170 | the new items sit under consecutive new keys, one per position, old items are unchanged, and an item belongs to the new order exactly when its key is one of the new keys |
| Schema.PlaceOrderPlaced | crm/schema.py:154-175 | a successful order adds one pending order under the next key, with total equal to the sum over its items, and its items; customers and products are unchanged |
| Schema.CreateOrderStep | crm/schema.py:144-180 | a missing customer fails, then a failed product guard fails, and both write nothing; success holds exactly when both checks pass, and then the order is placed as PlaceOrderPlaced states |
| Schema.CreateOrderSucceeds | crm/schema.py:154-177 | on the success path the answer is the next order key and the new state is exactly the writes of the order and its items |
| Schema.CreateOrderFails | crm/schema.py:146-152 | a missing customer answers CustomerDoesNotExist, a failed product guard answers ProductsDoNotExist, and neither writes anything |
| Schema.OrderTotalIsPrice | crm/schema.py:159-174 | the saved total equals the sum, over positions, of quantity times the product's current price |
| Schema.EmptyOrder | crm/schema.py:159-175 | an order with no product ids for an existing customer succeeds with total 0 and writes no item |
| Schema.Store.CreateOrder | crm/schema.py:144-180 | the method answers and leaves the store exactly as CreateOrderStep says |
| Schema.Store.SaveOrder | crm/schema.py:155-175 | the save path ends with its key equal to the next order key and the store equal to the writes of the order and its items |
| Schema.Store.SaveItems | crm/schema.py:159-171 | the loop saves exactly the line items under consecutive new keys and returns their total; it touches no other table |
| Schema.LowStock | crm/schema.py:196 | `Product.objects.filter(stock_quantity__lt=min_stock)`: the keys of the products whose stock is below the threshold |
| Schema.ReportMessage | crm/schema.py:201-221 | the report message: "Aucun produit avec stock faible trouvé" for 0, otherwise the count in decimal followed by " produits avec stock faible mis à jour" |
| Schema.UpdateLowStockStep | crm/schema.py:193-221 | success; the count is the number of products below the threshold, and the message states it; a product below the threshold gains the increment and every other product and table is unchanged; a count of 0 writes nothing |
| Schema.Restocked | crm/schema.py:209-215 | the bulk write keeps the product keys, raises exactly the products below the threshold by the increment and keeps the store invariant |
| Schema.ReportMessageStatesCount | crm/schema.py:201-221 | the number at the head of the report message is the updated count, and a message with no number means 0 |
| Schema.LowStockAfterUpdate | crm/schema.py:196-215 | after one run, the products still below the threshold are exactly those that started below it by more than the increment |
| Schema.SecondRunIsNoOp | crm/schema.py:193-221 | for a non-negative increment, a second run right after the first updates nothing if and only if no product started more than the increment below the threshold |
| Schema.Raised | crm/schema.py:211 | a product with `increment_by` added to its stock and nothing else changed |
| Schema.RaiseStock | crm/schema.py:209-212 | the loop collects exactly the selected products, each with its stock raised by the increment |
| Schema.Store.UpdateLowStockProducts | crm/schema.py:193-221 | the method answers and leaves the store exactly as UpdateLowStockStep says, and leaves the store untouched when the count is 0 |
| Schema.ScenarioOrder | crm/schema.py:144-177 | ordering 2 × 10.00 and 4 × 3.50 creates order 1, pending, with total 34.00 and the two items at those prices |
| Schema.ScenarioRestock | crm/schema.py:193-221 | with the default arguments, stock 5 becomes 55, stock 20 stays, the count is 1, and a second run counts 0 |

## Left out

- Timestamps are not modelled: `created_at` and `order_date` come from the clock.
- The format check of `EmailField` is the oracle parameter `isEmail`. The model does not implement it.
- `full_clean()` also runs the uniqueness check. On createCustomer, the explicit email lookup already fails first, so this adds nothing and is not modelled separately.
- Schema.CreateProductStep: the GraphQL `Float` price argument is taken as an exact amount in cents, so the model accepts some prices the source rejects. Django turns a float such as 19.99 into a decimal carrying the float's binary expansion, rounded to ten digits, which has more than two fraction digits; the digit check of `full_clean()` then rejects that price, while the model stores 1999 cents.
- The model has no transactions and no store-level failures. A database error part-way through createOrder would leave a half-written order, and the model cannot show it. The catch-all branch of updateLowStockProducts (`success=False`, 0 updated) is not modelled either.
- Schema.CreateOrderStep: requires that no position that reaches the item saves has a negative quantity. The database refuses such an item with an error that the mutation does not catch, so the model treats that case as a crash the caller must avoid.
- Schema.CreateOrderStep: product ids and quantities are never null, though GraphQL's `List(Int)` admits null elements. A null id would be dropped by the `id__in` lookup, so the length guard would fail with no write. A null quantity would reach the item save and crash with an uncaught database error after the order row is saved, like a negative quantity.
- Schema.CreateOrderStep: also saves a total of 10^10 cents or more. The total is saved without `full_clean()`, and the database column would refuse that total with an uncaught error. The model does not produce that failure.
- Schema.CreateProductStep: stock is an unbounded integer. The 32-bit GraphQL `Int` argument and the database's integer column range are not stated.
- Schema.UpdateLowStockStep: stock is an unbounded integer. A raised stock beyond the database's integer column range would end in the catch-all branch, and the model does not produce that failure.
- The text of error messages is reduced to the `Error` variants. Only the two report messages of updateLowStockProducts are modelled word for word.
- Not modelled: the queries and resolvers, the filters, the cron jobs, the Celery tasks, the reminder script and the settings. They read data or schedule work and are not part of this model.
- Keys come from per-table counters. The model does not show how a database would hand out or reuse identifiers.
- String lengths count characters, as Python does. The model does not cover how a database counts them.
- A deleted product takes its items out of existing orders, but their totals are not recomputed, just as in the source. The total is only set when the order is created.
- Product `__str__` (the name) is not modelled separately. The name appears in the item label.
