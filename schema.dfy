/**
 * The four GraphQL mutations of the CRM (createCustomer, createProduct,
 * createOrder, updateLowStockProducts) as transitions of the entity store.
 *
 * Each mutation is first stated as a pure step function over the store's
 * value (`Db`), whose contract says what the mutation promises; the class
 * `Store` then holds the tables as fields and performs the same mutation
 * step by step, and each of its methods is proved to end in the state and
 * result its step function describes.
 */
module Schema {
  import opened Wrappers
  import opened Text
  import opened Models

  /** Why a mutation answered success=false. */
  datatype Error =
    | CustomerDoesNotExist   // Customer.DoesNotExist from the customer lookup
    | ProductsDoNotExist     // "one or more products do not exist"
    | EmailTaken             // "a customer with this email already exists"
    | InvalidFields          // full_clean() rejected a field

  /**
   * The `{entity, success, errors}` answer of a create mutation: success is
   * `Created?`, and then the entity is the record stored under `id`; on
   * failure the entity is null.
   */
  datatype Outcome = Created(id: Id) | Failed(error: Error)

  /** The `{success, message, updatedCount}` answer of updateLowStockProducts. */
  datatype StockReport = StockReport(success: bool, message: string, updatedCount: nat)

  /** Python's `s or ""` on an optional string argument. */
  function OrEmpty(s: Option<string>): string {
    s.GetOr("")
  }

  // -------------------------------------------------------- createCustomer

  function NewCustomer(firstName: string, lastName: string, email: string,
                       phone: Option<string>, address: Option<string>): Customer
  {
    Customer(firstName, lastName, email, OrEmpty(phone), OrEmpty(address))
  }

  /** Saving a new customer whose email is not in use, under the next customer key. */
  function AddCustomer(db: Db, customer: Customer): (r: Db)
    requires db.Valid() && customer.WellFormed() && customer.email !in EmailsInUse(db.customers)
    ensures r.Valid()
    ensures db.nextCustomer !in db.customers
    ensures r.customers.Keys == db.customers.Keys + {db.nextCustomer}
    ensures r.customers[db.nextCustomer] == customer
    ensures forall k :: k in db.customers ==> r.customers[k] == db.customers[k]
    ensures r == db.(customers := r.customers, nextCustomer := db.nextCustomer + 1)
  {
    AddCustomerValid(db, customer);
    db.(customers := db.customers[db.nextCustomer := customer], nextCustomer := db.nextCustomer + 1)
  }

  /** The new email differs from every stored one, so emails stay unique. */
  lemma AddCustomerValid(db: Db, customer: Customer)
    requires db.Valid() && customer.WellFormed() && customer.email !in EmailsInUse(db.customers)
    ensures db.(customers := db.customers[db.nextCustomer := customer], nextCustomer := db.nextCustomer + 1).Valid()
  {
    var r := db.(customers := db.customers[db.nextCustomer := customer], nextCustomer := db.nextCustomer + 1);
    assert forall k :: k in db.customers ==> db.customers[k].email in EmailsInUse(db.customers);
    assert r.UniqueEmails();
    assert r.KeysInRange();
    assert r.Linked();
    assert r.FieldsValid();
  }

  /**
   * createCustomer: a taken email fails first, then full_clean(), and only
   * then is exactly one customer added under a new key.
   */
  function CreateCustomerStep(db: Db, firstName: string, lastName: string, email: string,
                              phone: Option<string>, address: Option<string>,
                              isEmail: string -> bool): (r: (Outcome, Db))
    requires db.Valid()
    ensures r.1.Valid()
    ensures email in EmailsInUse(db.customers) ==> r == (Failed(EmailTaken), db)
    ensures r.0.Created? <==>
      email !in EmailsInUse(db.customers) && CustomerClean(NewCustomer(firstName, lastName, email, phone, address), isEmail)
    ensures email !in EmailsInUse(db.customers)
            && !CustomerClean(NewCustomer(firstName, lastName, email, phone, address), isEmail)
            ==> r == (Failed(InvalidFields), db)
    ensures r.0.Failed? ==> r.1 == db
    ensures r.0.Created? ==>
      && r.0.id == db.nextCustomer && r.1.nextCustomer == db.nextCustomer + 1
      && r.0.id !in db.customers
      && r.1.customers.Keys == db.customers.Keys + {r.0.id}
      && |r.1.customers| == |db.customers| + 1
      && r.1.customers[r.0.id] == NewCustomer(firstName, lastName, email, phone, address)
      && (phone.None? ==> r.1.customers[r.0.id].phone == "")
      && (address.None? ==> r.1.customers[r.0.id].address == "")
      && (forall k :: k in db.customers ==> r.1.customers[k] == db.customers[k])
      && r.1 == db.(customers := r.1.customers, nextCustomer := r.1.nextCustomer)
  {
    var customer := NewCustomer(firstName, lastName, email, phone, address);
    if email in EmailsInUse(db.customers) then (Failed(EmailTaken), db)
    else if !CustomerClean(customer, isEmail) then (Failed(InvalidFields), db)
    else (Created(db.nextCustomer), AddCustomer(db, customer))
  }

  /** Creating two customers with one email leaves exactly one customer with it. */
  lemma SecondCustomerWithSameEmailFails(db: Db, f1: string, l1: string, f2: string, l2: string, email: string,
                                         phone1: Option<string>, address1: Option<string>,
                                         phone2: Option<string>, address2: Option<string>, isEmail: string -> bool)
    requires db.Valid()
    requires CreateCustomerStep(db, f1, l1, email, phone1, address1, isEmail).0.Created?
    ensures var db1 := CreateCustomerStep(db, f1, l1, email, phone1, address1, isEmail).1;
            var (second, db2) := CreateCustomerStep(db1, f2, l2, email, phone2, address2, isEmail);
            && second == Failed(EmailTaken)
            && db2 == db1
            && (exists k :: k in db2.customers && db2.customers[k].email == email)
            && (forall a, b ::
                  a in db2.customers && b in db2.customers && db2.customers[a].email == email && db2.customers[b].email == email
                  ==> a == b)
  {
    var (first, db1) := CreateCustomerStep(db, f1, l1, email, phone1, address1, isEmail);
    assert db1.customers[first.id].email == email;
    assert email in EmailsInUse(db1.customers);
  }

  // --------------------------------------------------------- createProduct

  /** isAvailable takes its declared default. */
  function NewProduct(name: string, price: Cents, stockQuantity: int, description: Option<string>): Product {
    Product(name, price, OrEmpty(description), stockQuantity)
  }

  /** Saving a new product under the next product key. */
  function AddProduct(db: Db, product: Product): (r: Db)
    requires db.Valid() && product.WellFormed()
    ensures r.Valid()
    ensures db.nextProduct !in db.products
    ensures r.products.Keys == db.products.Keys + {db.nextProduct}
    ensures r.products[db.nextProduct] == product
    ensures forall k :: k in db.products ==> r.products[k] == db.products[k]
    ensures r == db.(products := r.products, nextProduct := db.nextProduct + 1)
  {
    db.(products := db.products[db.nextProduct := product], nextProduct := db.nextProduct + 1)
  }

  /** createProduct: full_clean(), then exactly one product added under a new key. */
  function CreateProductStep(db: Db, name: string, price: Cents, stockQuantity: int,
                             description: Option<string>): (r: (Outcome, Db))
    requires db.Valid()
    ensures r.1.Valid()
    ensures r.0.Created? <==> NewProduct(name, price, stockQuantity, description).WellFormed()
    ensures r.0.Failed? ==> r == (Failed(InvalidFields), db)
    ensures r.0.Created? ==>
      && r.0.id == db.nextProduct && r.1.nextProduct == db.nextProduct + 1
      && r.0.id !in db.products
      && r.1.products.Keys == db.products.Keys + {r.0.id}
      && |r.1.products| == |db.products| + 1
      && r.1.products[r.0.id] == NewProduct(name, price, stockQuantity, description)
      && r.1.products[r.0.id].isAvailable
      && (description.None? ==> r.1.products[r.0.id].description == "")
      && (forall k :: k in db.products ==> r.1.products[k] == db.products[k])
      && r.1 == db.(products := r.1.products, nextProduct := r.1.nextProduct)
  {
    var product := NewProduct(name, price, stockQuantity, description);
    if !product.WellFormed() then (Failed(InvalidFields), db)
    else (Created(db.nextProduct), AddProduct(db, product))
  }

  // ----------------------------------------------------------- createOrder

  /** The ids a sequence mentions. */
  function Elements(s: seq<int>): set<int> {
    set x | x in s
  }

  predicate Distinct(s: seq<int>) {
    forall i, j :: 0 <= i < j < |s| ==> s[i] != s[j]
  }

  /** `Product.objects.filter(id__in=product_ids)`: the existing products among the ids. */
  function Matched(products: map<Id, Product>, ids: seq<int>): set<Id> {
    set x | x in ids && x in products
  }

  /** The guard `len(products) == len(product_ids)`. */
  predicate ProductsResolve(products: map<Id, Product>, ids: seq<int>) {
    |Matched(products, ids)| == |ids|
  }

  /** `quantities[i] if i < len(quantities) else 1`. */
  function QuantityAt(quantities: seq<int>, i: nat): int {
    if i < |quantities| then quantities[i] else 1
  }

  /** Every position that becomes an item gets a quantity the database accepts. */
  predicate QuantitiesUsable(productIds: seq<int>, quantities: seq<int>) {
    forall i :: 0 <= i < |productIds| ==> QuantityAt(quantities, i) >= 0
  }

  /**
   * A negative quantity on a position that reaches the item saves would make
   * the database reject the item with an error the mutation does not catch;
   * callers keep clear of that.
   */
  predicate OrderQuantitiesOk(db: Db, customerId: int, productIds: seq<int>, quantities: seq<int>) {
    customerId in db.customers && ProductsResolve(db.products, productIds) ==> QuantitiesUsable(productIds, quantities)
  }

  /** The items of a new order, one per position, each at its product's current price. */
  function LineItems(products: map<Id, Product>, order: Id, productIds: seq<int>, quantities: seq<int>): (r: seq<OrderItem>)
    requires forall i :: 0 <= i < |productIds| ==> productIds[i] in products
    requires QuantitiesUsable(productIds, quantities)
    ensures |r| == |productIds|
    ensures forall i :: 0 <= i < |productIds| ==>
      r[i] == OrderItem(order, productIds[i], products[productIds[i]].price, QuantityAt(quantities, i))
    decreases |productIds|
  {
    if productIds == [] then []
    else
      var n := |productIds| - 1;
      LineItems(products, order, productIds[..n], quantities)
        + [OrderItem(order, productIds[n], products[productIds[n]].price, QuantityAt(quantities, n))]
  }

  /** Σ quantity · unit_price, accumulated front to back as the order is built. */
  function Total(items: seq<OrderItem>): int
    decreases |items|
  {
    if items == [] then 0
    else Total(items[..|items| - 1]) + items[|items| - 1].quantity * items[|items| - 1].unitPrice
  }

  /** The amount an order for these positions costs at the products' current prices. */
  function Price(products: map<Id, Product>, productIds: seq<int>, quantities: seq<int>, from: nat): int
    requires forall i :: 0 <= i < |productIds| ==> productIds[i] in products
    decreases |productIds| - from
  {
    if from >= |productIds| then 0
    else QuantityAt(quantities, from) * products[productIds[from]].price + Price(products, productIds, quantities, from + 1)
  }

  /** Keys `base`, `base + 1`, … given to the items of `s`, in order. */
  function NumberItems(base: Id, s: seq<OrderItem>): (r: map<Id, OrderItem>)
    ensures forall k :: k in r <==> base <= k < base + |s|
    ensures forall i :: 0 <= i < |s| ==> r[base + i] == s[i]
    decreases |s|
  {
    if s == [] then map[]
    else NumberItems(base, s[..|s| - 1])[base + |s| - 1 := s[|s| - 1]]
  }

  /**
   * What a successful createOrder leaves behind in `after`, starting from
   * `db`: one new pending order, under the next order key, whose total is
   * the sum over its items; one item per position, under consecutive added
   * keys, referencing that position's product at its current price, and no
   * other item belonging to the order; all other records and every customer
   * and product as they were.
   */
  ghost predicate OrderPlaced(db: Db, after: Db, customerId: int, productIds: seq<int>, quantities: seq<int>)
    requires forall i :: 0 <= i < |productIds| ==> productIds[i] in db.products
    requires QuantitiesUsable(productIds, quantities)
  {
    OrderSaved(db, after, customerId, productIds, quantities) && ItemsSaved(db, after, productIds, quantities)
  }

  /** The order part of OrderPlaced, with the tables and counters the mutation does not touch. */
  ghost predicate OrderSaved(db: Db, after: Db, customerId: int, productIds: seq<int>, quantities: seq<int>)
    requires forall i :: 0 <= i < |productIds| ==> productIds[i] in db.products
    requires QuantitiesUsable(productIds, quantities)
  {
    var o := db.nextOrder;
    && o !in db.orders
    && after.orders.Keys == db.orders.Keys + {o}
    && (forall k :: k in db.orders ==> after.orders[k] == db.orders[k])
    && after.orders[o] == Order(customerId, Pending, Total(LineItems(db.products, o, productIds, quantities)))
    && after.customers == db.customers
    && after.products == db.products
    && after.nextCustomer == db.nextCustomer && after.nextProduct == db.nextProduct
    && after.nextOrder == o + 1 && after.nextItem == db.nextItem + |productIds|
  }

  /** The item part of OrderPlaced. */
  ghost predicate ItemsSaved(db: Db, after: Db, productIds: seq<int>, quantities: seq<int>)
    requires forall i :: 0 <= i < |productIds| ==> productIds[i] in db.products
    requires QuantitiesUsable(productIds, quantities)
  {
    var o := db.nextOrder;
    var lines := LineItems(db.products, o, productIds, quantities);
    && (forall k :: k in after.items <==> k in db.items || db.nextItem <= k < db.nextItem + |productIds|)
    && (forall k :: k in db.items ==> after.items[k] == db.items[k])
    && (forall i :: 0 <= i < |lines| ==> db.nextItem + i !in db.items && after.items[db.nextItem + i] == lines[i])
    && (forall k :: k in after.items && after.items[k].order == o <==> db.nextItem <= k < db.nextItem + |productIds|)
  }

  /** The writes of a successful createOrder. */
  function PlaceOrder(db: Db, customerId: int, productIds: seq<int>, quantities: seq<int>): Db
    requires forall i :: 0 <= i < |productIds| ==> productIds[i] in db.products
    requires QuantitiesUsable(productIds, quantities)
  {
    var o := db.nextOrder;
    var lines := LineItems(db.products, o, productIds, quantities);
    db.(orders := db.orders[o := Order(customerId, Pending, Total(lines))],
        items := db.items + NumberItems(db.nextItem, lines),
        nextOrder := o + 1,
        nextItem := db.nextItem + |productIds|)
  }

  lemma PlaceOrderValid(db: Db, customerId: int, productIds: seq<int>, quantities: seq<int>)
    requires db.Valid() && customerId in db.customers
    requires forall i :: 0 <= i < |productIds| ==> productIds[i] in db.products
    requires QuantitiesUsable(productIds, quantities)
    ensures PlaceOrder(db, customerId, productIds, quantities).Valid()
  {
    var lines := LineItems(db.products, db.nextOrder, productIds, quantities);
    var added := NumberItems(db.nextItem, lines);
    var r := PlaceOrder(db, customerId, productIds, quantities);
    assert r.items == db.items + added;
    forall k | k in r.items
      ensures MoneyFits(r.items[k].unitPrice) && r.items[k].order in r.orders && r.items[k].product in r.products
    {
      if k in added {
        assert r.items[k] == added[k] == added[db.nextItem + (k - db.nextItem)] == lines[k - db.nextItem];
      } else {
        assert r.items[k] == db.items[k];
      }
    }
    assert r.KeysInRange();
    assert r.Linked();
    assert r.FieldsValid();
  }

  lemma PlaceOrderPlaced(db: Db, customerId: int, productIds: seq<int>, quantities: seq<int>)
    requires db.Valid()
    requires forall i :: 0 <= i < |productIds| ==> productIds[i] in db.products
    requires QuantitiesUsable(productIds, quantities)
    ensures OrderPlaced(db, PlaceOrder(db, customerId, productIds, quantities), customerId, productIds, quantities)
  {
    assert OrderSaved(db, PlaceOrder(db, customerId, productIds, quantities), customerId, productIds, quantities);
    PlaceOrderItems(db, customerId, productIds, quantities);
  }

  lemma PlaceOrderItems(db: Db, customerId: int, productIds: seq<int>, quantities: seq<int>)
    requires db.KeysInRange() && db.Linked()
    requires forall i :: 0 <= i < |productIds| ==> productIds[i] in db.products
    requires QuantitiesUsable(productIds, quantities)
    ensures ItemsSaved(db, PlaceOrder(db, customerId, productIds, quantities), productIds, quantities)
  {
    var o := db.nextOrder;
    var lines := LineItems(db.products, o, productIds, quantities);
    var added := NumberItems(db.nextItem, lines);
    var r := PlaceOrder(db, customerId, productIds, quantities);
    assert r.items == db.items + added;
    forall k | k in r.items && !(db.nextItem <= k < db.nextItem + |productIds|)
      ensures r.items[k].order != o
    {
      assert k !in added;
      assert r.items[k] == db.items[k];
      assert db.items[k].order in db.orders;
    }
    forall k | db.nextItem <= k < db.nextItem + |productIds|
      ensures k in r.items && r.items[k].order == o
    {
      var i := k - db.nextItem;
      assert added[db.nextItem + i] == lines[i];
      assert r.items[k] == added[k];
    }
  }

  lemma PlaceOrderSound(db: Db, customerId: int, productIds: seq<int>, quantities: seq<int>)
    requires db.Valid() && customerId in db.customers
    requires forall i :: 0 <= i < |productIds| ==> productIds[i] in db.products
    requires QuantitiesUsable(productIds, quantities)
    ensures PlaceOrder(db, customerId, productIds, quantities).Valid()
    ensures OrderPlaced(db, PlaceOrder(db, customerId, productIds, quantities), customerId, productIds, quantities)
  {
    PlaceOrderValid(db, customerId, productIds, quantities);
    PlaceOrderPlaced(db, customerId, productIds, quantities);
  }

  /**
   * createOrder: a missing customer fails, then an id set that does not
   * resolve to exactly len(product_ids) products fails, and both leave the
   * store as it was; otherwise the order is placed (see OrderPlaced).
   */
  function CreateOrderStep(db: Db, customerId: int, productIds: seq<int>, quantities: seq<int>): (r: (Outcome, Db))
    requires db.Valid()
    requires OrderQuantitiesOk(db, customerId, productIds, quantities)
    ensures r.1.Valid()
    ensures customerId !in db.customers ==> r == (Failed(CustomerDoesNotExist), db)
    ensures customerId in db.customers && !ProductsResolve(db.products, productIds) ==> r == (Failed(ProductsDoNotExist), db)
    ensures r.0.Created? <==> customerId in db.customers && ProductsResolve(db.products, productIds)
    ensures r.0.Created? ==>
      && (forall i :: 0 <= i < |productIds| ==> productIds[i] in db.products)
      && r.0.id == db.nextOrder
      && OrderPlaced(db, r.1, customerId, productIds, quantities)
  {
    if customerId !in db.customers then (Failed(CustomerDoesNotExist), db)
    else if !ProductsResolve(db.products, productIds) then (Failed(ProductsDoNotExist), db)
    else
      ProductsResolveIff(db.products, productIds);
      PlaceOrderSound(db, customerId, productIds, quantities);
      (Created(db.nextOrder), PlaceOrder(db, customerId, productIds, quantities))
  }

  /** On the success path, createOrder is exactly the writes of PlaceOrder. */
  lemma CreateOrderSucceeds(db: Db, customerId: int, productIds: seq<int>, quantities: seq<int>)
    requires db.Valid() && OrderQuantitiesOk(db, customerId, productIds, quantities)
    requires customerId in db.customers && ProductsResolve(db.products, productIds)
    ensures forall i :: 0 <= i < |productIds| ==> productIds[i] in db.products
    ensures QuantitiesUsable(productIds, quantities)
    ensures CreateOrderStep(db, customerId, productIds, quantities)
         == (Created(db.nextOrder), PlaceOrder(db, customerId, productIds, quantities))
    ensures PlaceOrder(db, customerId, productIds, quantities).Valid()
  {
    ProductsResolveIff(db.products, productIds);
    PlaceOrderSound(db, customerId, productIds, quantities);
  }

  /** On a failure path, createOrder answers with that error and writes nothing. */
  lemma CreateOrderFails(db: Db, customerId: int, productIds: seq<int>, quantities: seq<int>)
    requires db.Valid() && OrderQuantitiesOk(db, customerId, productIds, quantities)
    requires customerId !in db.customers || !ProductsResolve(db.products, productIds)
    ensures CreateOrderStep(db, customerId, productIds, quantities)
         == (Failed(if customerId !in db.customers then CustomerDoesNotExist else ProductsDoNotExist), db)
  {
  }

  lemma {:induction false} ElementsCard(s: seq<int>)
    ensures |Elements(s)| <= |s|
    ensures |Elements(s)| == |s| <==> Distinct(s)
    decreases |s|
  {
    if s != [] {
      var init, x := s[..|s| - 1], s[|s| - 1];
      ElementsCard(init);
      assert s == init + [x];
      assert Elements(s) == Elements(init) + {x};
      if x in Elements(init) {
        var j :| 0 <= j < |init| && init[j] == x;
        assert s[j] == s[|s| - 1];
      } else {
        if Distinct(init) {
          forall i, j | 0 <= i < j < |s| ensures s[i] != s[j] {
            if j == |s| - 1 {
              assert init[i] in Elements(init);
            } else {
              assert s[i] == init[i] && s[j] == init[j];
            }
          }
        }
        if Distinct(s) {
          forall i, j | 0 <= i < j < |init| ensures init[i] != init[j] {
            assert s[i] == init[i] && s[j] == init[j];
          }
        }
      }
    }
  }

  lemma SubsetCard(a: set<int>, b: set<int>)
    requires a <= b
    ensures |a| <= |b|
    ensures |a| == |b| ==> a == b
  {
    assert b == a + (b - a);
    assert a * (b - a) == {};
  }

  /**
   * The length guard passes exactly when every id names an existing product
   * and no id is repeated.
   */
  lemma ProductsResolveIff(products: map<Id, Product>, ids: seq<int>)
    ensures ProductsResolve(products, ids) <==>
      (forall i :: 0 <= i < |ids| ==> ids[i] in products) && Distinct(ids)
  {
    ElementsCard(ids);
    SubsetCard(Matched(products, ids), Elements(ids));
    if forall i :: 0 <= i < |ids| ==> ids[i] in products {
      assert Matched(products, ids) == Elements(ids);
    }
    if ProductsResolve(products, ids) {
      forall i | 0 <= i < |ids| ensures ids[i] in products {
        assert ids[i] in Elements(ids);
      }
    }
  }

  lemma {:induction false} PriceSplit(products: map<Id, Product>, productIds: seq<int>, quantities: seq<int>, from: nat)
    requires forall i :: 0 <= i < |productIds| ==> productIds[i] in products
    requires QuantitiesUsable(productIds, quantities)
    requires from <= |productIds|
    ensures Price(products, productIds, quantities, 0)
         == Total(LineItems(products, 0, productIds, quantities)[..from]) + Price(products, productIds, quantities, from)
    decreases from
  {
    var lines := LineItems(products, 0, productIds, quantities);
    if from == 0 {
      assert lines[..0] == [];
    } else {
      PriceSplit(products, productIds, quantities, from - 1);
      assert lines[..from][..from - 1] == lines[..from - 1];
    }
  }

  /** The order's total is the amount the positions cost at the products' current prices. */
  lemma OrderTotalIsPrice(products: map<Id, Product>, order: Id, productIds: seq<int>, quantities: seq<int>)
    requires forall i :: 0 <= i < |productIds| ==> productIds[i] in products
    requires QuantitiesUsable(productIds, quantities)
    ensures Total(LineItems(products, order, productIds, quantities)) == Price(products, productIds, quantities, 0)
  {
    PriceSplit(products, productIds, quantities, |productIds|);
    var a, b := LineItems(products, order, productIds, quantities), LineItems(products, 0, productIds, quantities);
    assert b[..|productIds|] == b;
    TotalIgnoresOrder(a, b);
  }

  lemma {:induction false} TotalIgnoresOrder(a: seq<OrderItem>, b: seq<OrderItem>)
    requires |a| == |b|
    requires forall i :: 0 <= i < |a| ==> a[i].quantity == b[i].quantity && a[i].unitPrice == b[i].unitPrice
    ensures Total(a) == Total(b)
    decreases |a|
  {
    if a != [] {
      TotalIgnoresOrder(a[..|a| - 1], b[..|b| - 1]);
    }
  }

  /** An order with no product ids is created with total 0 and no items. */
  lemma EmptyOrder(db: Db, customerId: int, quantities: seq<int>)
    requires db.Valid() && customerId in db.customers
    ensures var r := CreateOrderStep(db, customerId, [], quantities);
            && r.0.Created?
            && r.1.orders[r.0.id].totalAmount == 0
            && r.1.items == db.items
  {
    assert Matched(db.products, []) == {};
    var r := CreateOrderStep(db, customerId, [], quantities);
    assert r.1.items.Keys == db.items.Keys;
  }

  // ------------------------------------------------ updateLowStockProducts

  /** `Product.objects.filter(stock_quantity__lt=min_stock)`. */
  function LowStock(products: map<Id, Product>, minStock: int): set<Id> {
    set k | k in products && products[k].stockQuantity < minStock
  }

  function ReportMessage(count: nat): string {
    if count == 0 then "Aucun produit avec stock faible trouvé"
    else NatToString(count) + " produits avec stock faible mis à jour"
  }

  /** The count a report message states: its leading number, or 0 when it has none. */
  function ReportedCount(message: string): nat {
    var d := LeadingDigits(message);
    if d == [] then 0 else ParseDigits(d)
  }

  lemma ReportMessageStatesCount(count: nat)
    ensures ReportedCount(ReportMessage(count)) == count
  {
    if count > 0 {
      NatToStringReadBack(count, " produits avec stock faible mis à jour");
    }
  }

  /**
   * updateLowStockProducts: exactly the products below the threshold get
   * `increment` added to their stock, everything else stays, and the report
   * counts them; with none below, nothing is written.
   */
  function UpdateLowStockStep(db: Db, minStock: int, increment: int): (r: (StockReport, Db))
    requires db.Valid()
    ensures r.1.Valid()
    ensures r.0.success
    ensures r.0.updatedCount == |LowStock(db.products, minStock)|
    ensures r.0.message == ReportMessage(r.0.updatedCount)
    ensures r.0.updatedCount == 0 ==> r.1 == db
    ensures r.1.products.Keys == db.products.Keys
    ensures forall k :: k in db.products ==>
      r.1.products[k] == if db.products[k].stockQuantity < minStock
                         then db.products[k].(stockQuantity := db.products[k].stockQuantity + increment)
                         else db.products[k]
    ensures r.1 == db.(products := r.1.products)
  {
    var low := LowStock(db.products, minStock);
    if |low| == 0 then
      assert forall k :: k in db.products ==> k !in low;
      (StockReport(true, ReportMessage(0), 0), db)
    else (StockReport(true, ReportMessage(|low|), |low|), Restocked(db, minStock, increment))
  }

  /** The bulk write: every product below `minStock` raised by `increment`, nothing else touched. */
  function Restocked(db: Db, minStock: int, increment: int): (r: Db)
    requires db.Valid()
    ensures r.Valid()
    ensures r.products.Keys == db.products.Keys
    ensures forall k :: k in db.products ==>
      r.products[k] == if db.products[k].stockQuantity < minStock
                       then db.products[k].(stockQuantity := db.products[k].stockQuantity + increment)
                       else db.products[k]
    ensures r == db.(products := r.products)
  {
    var low := LowStock(db.products, minStock);
    db.(products := map k | k in db.products :: if k in low then Raised(db.products[k], increment) else db.products[k])
  }

  /**
   * After one run, the products still below the threshold are those that were
   * below it by more than the increment.
   */
  lemma LowStockAfterUpdate(db: Db, minStock: int, increment: int)
    requires db.Valid()
    ensures LowStock(UpdateLowStockStep(db, minStock, increment).1.products, minStock)
         == set k | k in db.products && db.products[k].stockQuantity < minStock
                                     && db.products[k].stockQuantity + increment < minStock
  {
    var after := UpdateLowStockStep(db, minStock, increment).1.products;
    forall k | k in LowStock(after, minStock) ensures db.products[k].stockQuantity < minStock {
    }
  }

  /**
   * A second run right after the first updates nothing exactly when no product
   * started more than `increment` below the threshold (for a non-negative
   * increment).
   */
  lemma SecondRunIsNoOp(db: Db, minStock: int, increment: int)
    requires db.Valid() && increment >= 0
    ensures var db1 := UpdateLowStockStep(db, minStock, increment).1;
            (UpdateLowStockStep(db1, minStock, increment).0.updatedCount == 0
             <==> forall k :: k in db.products ==> db.products[k].stockQuantity >= minStock - increment)
  {
    var db1 := UpdateLowStockStep(db, minStock, increment).1;
    LowStockAfterUpdate(db, minStock, increment);
    if UpdateLowStockStep(db1, minStock, increment).0.updatedCount == 0 {
      assert LowStock(db1.products, minStock) == {};
      forall k | k in db.products ensures db.products[k].stockQuantity >= minStock - increment {
        assert k !in LowStock(db1.products, minStock);
      }
    }
    if forall k :: k in db.products ==> db.products[k].stockQuantity >= minStock - increment {
      assert LowStock(db1.products, minStock) == {};
    }
  }

  // -------------------------------------------------------------- Scenario

  /**
   * One customer and two products, 10.00 at stock 5 and 3.50 at stock 20.
   */
  const ScenarioDb: Db := EmptyDb.(
    customers := map[1 := Customer("Ada", "Lovelace", "a@x.com")],
    products := map[1 := Product("P1", 1000, stockQuantity := 5),
                    2 := Product("P2", 350, stockQuantity := 20)],
    nextCustomer := 2,
    nextProduct := 3)

  /** Ordering 2 of the first product and 4 of the second costs 34.00. */
  lemma ScenarioOrder()
    ensures ScenarioDb.Valid()
    ensures var (order, after) := CreateOrderStep(ScenarioDb, 1, [1, 2], [2, 4]);
            && order == Created(1)
            && after.orders[1] == Order(1, Pending, 3400)
            && after.items[1] == OrderItem(1, 1, 1000, 2)
            && after.items[2] == OrderItem(1, 2, 350, 4)
            && after.products == ScenarioDb.products
  {
    var db := ScenarioDb;
    assert db.Valid();
    assert Matched(db.products, [1, 2]) == {1, 2};
    var lines := LineItems(db.products, 1, [1, 2], [2, 4]);
    assert lines == [OrderItem(1, 1, 1000, 2), OrderItem(1, 2, 350, 4)];
    assert lines[..1] == [OrderItem(1, 1, 1000, 2)];
    assert lines[..1][..0] == [];
    assert Total(lines[..1]) == 2000;
    assert Total(lines) == 3400;
  }

  /** A run with the default arguments raises the first product to 55 and leaves the second alone. */
  lemma ScenarioRestock()
    ensures ScenarioDb.Valid()
    ensures var (report, after) := UpdateLowStockStep(ScenarioDb, 10, 50);
            && report.updatedCount == 1
            && after.products[1].stockQuantity == 55
            && after.products[2].stockQuantity == 20
            && UpdateLowStockStep(after, 10, 50).0.updatedCount == 0
  {
    var db := ScenarioDb;
    assert db.Valid();
    assert LowStock(db.products, 10) == {1};
    var after := UpdateLowStockStep(db, 10, 50).1;
    assert LowStock(after.products, 10) == {};
  }

  lemma NonEmptyWitness(s: set<Id>)
    requires s != {}
    ensures exists k :: k in s
  {
    if forall k :: k !in s {
      assert false;
    }
  }

  /** What the in-memory loop makes of each selected product: its stock raised by `increment`. */
  function Raised(p: Product, increment: int): Product {
    p.(stockQuantity := p.stockQuantity + increment)
  }

  /**
   * The loop over the selected products: each one's stock is raised in
   * memory and the product is collected for the bulk write.
   */
  method RaiseStock(products: map<Id, Product>, selected: set<Id>, increment: int) returns (updated: map<Id, Product>)
    requires selected <= products.Keys
    ensures updated.Keys == selected
    ensures forall k :: k in updated ==> updated[k] == Raised(products[k], increment)
  {
    updated := map[];
    var pending := selected;
    while pending != {}
      invariant pending <= selected
      invariant updated.Keys == selected - pending
      invariant forall k :: k in updated ==> updated[k] == Raised(products[k], increment)
      decreases pending
    {
      NonEmptyWitness(pending);
      var k :| k in pending;
      updated := updated[k := Raised(products[k], increment)];
      pending := pending - {k};
    }
  }

  lemma ReplacedTwice(m: map<Id, Order>, k: Id, first: Order, second: Order)
    ensures m[k := first][k := second] == m[k := second]
  {
  }

  /** One more item saved: the next key gets it and the running total grows by its amount. */
  lemma Extend(base: Id, lines: seq<OrderItem>, i: nat)
    requires i < |lines|
    ensures NumberItems(base, lines[..i + 1]) == NumberItems(base, lines[..i])[base + i := lines[i]]
    ensures Total(lines[..i + 1]) == Total(lines[..i]) + lines[i].quantity * lines[i].unitPrice
  {
    assert lines[..i + 1][..i] == lines[..i];
  }

  // ----------------------------------------------------------------- Store

  /**
   * The entity store the mutations run against: one map per table and the
   * next key of each. Each method does what its mutation does, in the same
   * order, and ends in the state its step function describes.
   */
  class Store {
    var customers: map<Id, Customer>
    var products: map<Id, Product>
    var orders: map<Id, Order>
    var items: map<Id, OrderItem>
    var nextCustomer: Id
    var nextProduct: Id
    var nextOrder: Id
    var nextItem: Id

    /** The store's contents as a value. */
    function View(): Db
      reads this
    {
      Db(customers, products, orders, items, nextCustomer, nextProduct, nextOrder, nextItem)
    }

    ghost predicate Valid()
      reads this
    {
      View().Valid()
    }

    constructor ()
      ensures Valid() && View() == EmptyDb
    {
      customers, products, orders, items := map[], map[], map[], map[];
      nextCustomer, nextProduct, nextOrder, nextItem := 1, 1, 1, 1;
      EmptyDbValid();
    }

    method CreateCustomer(firstName: string, lastName: string, email: string,
                          phone: Option<string>, address: Option<string>,
                          isEmail: string -> bool) returns (r: Outcome)
      requires Valid()
      modifies this
      ensures Valid()
      ensures (r, View()) == CreateCustomerStep(old(View()), firstName, lastName, email, phone, address, isEmail)
    {
      if email in EmailsInUse(customers) {
        return Failed(EmailTaken);
      }
      var customer := NewCustomer(firstName, lastName, email, phone, address);
      if !CustomerClean(customer, isEmail) {
        return Failed(InvalidFields);
      }
      ghost var before := View();
      r := Created(nextCustomer);
      customers := customers[nextCustomer := customer];
      nextCustomer := nextCustomer + 1;
      assert View() == AddCustomer(before, customer);
    }

    method CreateProduct(name: string, price: Cents, stockQuantity: int,
                         description: Option<string>) returns (r: Outcome)
      requires Valid()
      modifies this
      ensures Valid()
      ensures (r, View()) == CreateProductStep(old(View()), name, price, stockQuantity, description)
    {
      var product := NewProduct(name, price, stockQuantity, description);
      if !product.WellFormed() {
        return Failed(InvalidFields);
      }
      ghost var before := View();
      r := Created(nextProduct);
      products := products[nextProduct := product];
      nextProduct := nextProduct + 1;
      assert View() == AddProduct(before, product);
    }

    /**
     * Saves a pending order with the default total, then one item per
     * position while accumulating the total, then saves the order again with
     * that total.
     */
    method CreateOrder(customerId: int, productIds: seq<int>, quantities: seq<int>) returns (r: Outcome)
      requires Valid()
      requires OrderQuantitiesOk(View(), customerId, productIds, quantities)
      modifies this
      ensures Valid()
      ensures (r, View()) == CreateOrderStep(old(View()), customerId, productIds, quantities)
    {
      if customerId !in customers {
        CreateOrderFails(View(), customerId, productIds, quantities);
        return Failed(CustomerDoesNotExist);
      }
      var found := set k | k in productIds && k in products;
      assert found == Matched(products, productIds);
      if |found| != |productIds| {
        CreateOrderFails(View(), customerId, productIds, quantities);
        return Failed(ProductsDoNotExist);
      }
      CreateOrderSucceeds(View(), customerId, productIds, quantities);
      var order := SaveOrder(customerId, productIds, quantities);
      r := Created(order);
    }

    /**
     * The saving path of `CreateOrder`: a pending order with the default
     * total under the next order key, its items, then the order again with
     * the accumulated total.
     */
    method SaveOrder(customerId: int, productIds: seq<int>, quantities: seq<int>) returns (order: Id)
      requires forall i :: 0 <= i < |productIds| ==> productIds[i] in products
      requires QuantitiesUsable(productIds, quantities)
      modifies this
      ensures order == old(nextOrder)
      ensures View() == PlaceOrder(old(View()), customerId, productIds, quantities)
    {
      order := nextOrder;
      var pendingOrder := Order(customerId, status := Pending);
      orders := orders[order := pendingOrder];
      nextOrder := nextOrder + 1;
      var totalAmount := SaveItems(order, productIds, quantities);
      orders := orders[order := pendingOrder.(totalAmount := totalAmount)];
      ReplacedTwice(old(orders), order, pendingOrder, pendingOrder.(totalAmount := totalAmount));
    }

    /**
     * The loop over the positions: saves one item per position under the
     * next item key, at the product's current price, and returns the sum
     * of quantity times price.
     */
    method SaveItems(order: Id, productIds: seq<int>, quantities: seq<int>) returns (totalAmount: int)
      requires forall i :: 0 <= i < |productIds| ==> productIds[i] in products
      requires QuantitiesUsable(productIds, quantities)
      modifies this
      ensures customers == old(customers) && products == old(products) && orders == old(orders)
      ensures items == old(items) + NumberItems(old(nextItem), LineItems(products, order, productIds, quantities))
      ensures totalAmount == Total(LineItems(products, order, productIds, quantities))
      ensures nextItem == old(nextItem) + |productIds|
      ensures nextCustomer == old(nextCustomer) && nextProduct == old(nextProduct) && nextOrder == old(nextOrder)
    {
      ghost var lines := LineItems(products, order, productIds, quantities);
      totalAmount := 0;
      for i := 0 to |productIds|
        invariant nextItem == old(nextItem) + i
        invariant items == old(items) + NumberItems(old(nextItem), lines[..i])
        invariant totalAmount == Total(lines[..i])
        invariant customers == old(customers) && products == old(products) && orders == old(orders)
        invariant nextCustomer == old(nextCustomer) && nextProduct == old(nextProduct) && nextOrder == old(nextOrder)
      {
        var productId := productIds[i];
        var product := products[productId];
        var quantity := QuantityAt(quantities, i) as nat;
        Extend(old(nextItem), lines, i);
        items := items[nextItem := OrderItem(order, productId, product.price, quantity)];
        nextItem := nextItem + 1;
        totalAmount := totalAmount + product.price * quantity;
      }
      assert lines[..|productIds|] == lines;
    }

    /**
     * Selects the products below `minStock`; with none, writes nothing;
     * otherwise raises each selected stock by `incrementBy` in memory and
     * writes them all back in one bulk update.
     */
    method UpdateLowStockProducts(minStock: int := 10, incrementBy: int := 50) returns (r: StockReport)
      requires Valid()
      modifies this
      ensures Valid()
      ensures (r, View()) == UpdateLowStockStep(old(View()), minStock, incrementBy)
      ensures r.updatedCount == 0 ==> unchanged(this)
    {
      var lowStockProducts := set k | k in products && products[k].stockQuantity < minStock;
      assert lowStockProducts == LowStock(products, minStock);
      var count := |lowStockProducts|;
      if count == 0 {
        return StockReport(true, ReportMessage(0), 0);
      }
      ghost var before := View();
      var updatedProducts := RaiseStock(products, lowStockProducts, incrementBy);
      products := products + updatedProducts;
      ghost var restocked := Restocked(before, minStock, incrementBy);
      assert products.Keys == restocked.products.Keys;
      assert forall k :: k in products ==> products[k] == restocked.products[k];
      r := StockReport(true, ReportMessage(count), count);
      assert View() == restocked;
    }
  }
}
