/**
 * The CRM's four record kinds (Customer, Product, Order, OrderItem), the
 * field defaults and constraints their declarations carry, their display
 * strings, and the store that holds them with its cascade deletes.
 *
 * Money is held as integer cents. Primary keys are positive integers handed
 * out by one counter per table, as auto-increment keys are.
 */
module Models {
  import opened Wrappers
  import opened Text

  type Id = int

  /** An amount of money in cents (a DecimalField with two fraction digits). */
  type Cents = int

  /** max_digits=10 with decimal_places=2: fewer than 10^10 cents either way. */
  const MoneyLimit: int := 10_000_000_000

  predicate MoneyFits(x: Cents) {
    -MoneyLimit < x < MoneyLimit
  }

  const FirstNameMax: nat := 100
  const LastNameMax: nat := 100
  /** EmailField's default max_length. */
  const EmailMax: nat := 254
  const PhoneMax: nat := 20
  const ProductNameMax: nat := 200
  const StatusMax: nat := 20

  // ---------------------------------------------------------------- Status

  /** Order.status: a CharField restricted to five choices. */
  datatype Status = Pending | Paid | Shipped | Delivered | Cancelled {

    /** The value stored in the database. */
    function Code(): string {
      match this
      case Pending => "pending"
      case Paid => "paid"
      case Shipped => "shipped"
      case Delivered => "delivered"
      case Cancelled => "cancelled"
    }

    /** The human-readable name of the choice. */
    function Label(): string {
      match this
      case Pending => "En attente"
      case Paid => "Payé"
      case Shipped => "Expédié"
      case Delivered => "Livré"
      case Cancelled => "Annulé"
    }
  }

  /** The choice a stored code stands for; None for a code outside the choices. */
  function StatusFromCode(code: string): (r: Option<Status>)
    ensures r.Some? ==> r.value.Code() == code
  {
    if code == "pending" then Some(Pending)
    else if code == "paid" then Some(Paid)
    else if code == "shipped" then Some(Shipped)
    else if code == "delivered" then Some(Delivered)
    else if code == "cancelled" then Some(Cancelled)
    else None
  }

  /** Every status is stored as a code that reads back as itself and fits max_length. */
  lemma StatusCodeRoundTrip(s: Status)
    ensures StatusFromCode(s.Code()) == Some(s)
    ensures 0 < |s.Code()| <= StatusMax
  {
    match s
    case Pending =>
    case Paid =>
    case Shipped =>
    case Delivered =>
    case Cancelled =>
  }

  // --------------------------------------------------------------- Records

  /** created_at (set from the clock) is not modelled. */
  datatype Customer = Customer(
    firstName: string,
    lastName: string,
    email: string,
    phone: string := "",
    address: string := "")
  {
    /** The length and blank checks full_clean() applies to these fields. */
    predicate WellFormed() {
      && 0 < |firstName| <= FirstNameMax
      && 0 < |lastName| <= LastNameMax
      && 0 < |email| <= EmailMax
      && |phone| <= PhoneMax
    }

    /** __str__: first name, a space, last name. */
    function Label(): string {
      firstName + " " + lastName
    }
  }

  /** full_clean() on a customer; the email format check is the oracle `isEmail`. */
  predicate CustomerClean(c: Customer, isEmail: string -> bool) {
    c.WellFormed() && isEmail(c.email)
  }

  datatype Product = Product(
    name: string,
    price: Cents,
    description: string := "",
    stockQuantity: int := 0,
    isAvailable: bool := true)
  {
    /** The blank, length and digit checks full_clean() applies. */
    predicate WellFormed() {
      0 < |name| <= ProductNameMax && MoneyFits(price)
    }
  }

  /** order_date (set from the clock) is not modelled. */
  datatype Order = Order(
    customer: Id,
    status: Status := Pending,
    totalAmount: Cents := 0)

  /** quantity is a PositiveIntegerField, which admits 0 and no negative value. */
  datatype OrderItem = OrderItem(
    order: Id,
    product: Id,
    unitPrice: Cents,
    quantity: nat := 1)

  /** The defaults the declarations give a record built without those fields. */
  lemma RecordDefaults(first: string, last: string, email: string, name: string, price: Cents, c: Id, o: Id, p: Id)
    ensures Customer(first, last, email).phone == "" && Customer(first, last, email).address == ""
    ensures Product(name, price).description == ""
    ensures Product(name, price).stockQuantity == 0 && Product(name, price).isAvailable
    ensures Order(c).status == Pending && Order(c).totalAmount == 0
    ensures OrderItem(o, p, price).quantity == 1
  {
  }

  // ----------------------------------------------------------------- Store

  /** All four tables and the next key of each. */
  datatype Db = Db(
    customers: map<Id, Customer>,
    products: map<Id, Product>,
    orders: map<Id, Order>,
    items: map<Id, OrderItem>,
    nextCustomer: Id,
    nextProduct: Id,
    nextOrder: Id,
    nextItem: Id)
  {
    /** Every key is positive and below its table's counter. */
    predicate KeysInRange() {
      && 1 <= nextCustomer && 1 <= nextProduct && 1 <= nextOrder && 1 <= nextItem
      && (forall k :: k in customers ==> 1 <= k < nextCustomer)
      && (forall k :: k in products ==> 1 <= k < nextProduct)
      && (forall k :: k in orders ==> 1 <= k < nextOrder)
      && (forall k :: k in items ==> 1 <= k < nextItem)
    }

    /** No dangling foreign key: Order.customer, OrderItem.order and OrderItem.product. */
    predicate Linked() {
      && (forall k :: k in orders ==> orders[k].customer in customers)
      && (forall k :: k in items ==> items[k].order in orders && items[k].product in products)
    }

    /** Customer.email is unique. */
    predicate UniqueEmails() {
      forall a, b :: a in customers && b in customers && customers[a].email == customers[b].email ==> a == b
    }

    /** Stored fields satisfy their declared constraints. */
    predicate FieldsValid() {
      && (forall k :: k in customers ==> customers[k].WellFormed())
      && (forall k :: k in products ==> products[k].WellFormed())
      && (forall k :: k in items ==> MoneyFits(items[k].unitPrice))
    }

    predicate Valid() {
      KeysInRange() && Linked() && UniqueEmails() && FieldsValid()
    }

    /** Order.__str__: "Commande #<id> - <customer>". */
    function OrderLabel(o: Id): string
      requires Valid() && o in orders
    {
      "Commande #" + NatToString(o) + " - " + customers[orders[o].customer].Label()
    }

    /** OrderItem.__str__: "<quantity> x <product name>". */
    function ItemLabel(k: Id): string
      requires Valid() && k in items
    {
      NatToString(items[k].quantity) + " x " + products[items[k].product].name
    }
  }

  const EmptyDb: Db := Db(map[], map[], map[], map[], 1, 1, 1, 1)

  lemma EmptyDbValid()
    ensures EmptyDb.Valid()
  {
  }

  /** The email addresses held by the store. */
  function EmailsInUse(customers: map<Id, Customer>): set<string> {
    set k | k in customers :: customers[k].email
  }

  // -------------------------------------------------------- Cascade delete

  /** Deleting an order deletes the items that belong to it (on_delete=CASCADE). */
  function DeleteOrder(db: Db, o: Id): (r: Db)
    requires db.Valid()
    ensures r.Valid()
    ensures r.orders.Keys == db.orders.Keys - {o}
    ensures forall k :: k in r.orders ==> r.orders[k] == db.orders[k]
    ensures forall k :: k in r.items <==> k in db.items && db.items[k].order != o
    ensures forall k :: k in r.items ==> r.items[k] == db.items[k]
    ensures r.customers == db.customers && r.products == db.products
    ensures r.nextCustomer == db.nextCustomer && r.nextProduct == db.nextProduct
    ensures r.nextOrder == db.nextOrder && r.nextItem == db.nextItem
  {
    db.(orders := db.orders - {o},
        items := map k | k in db.items && db.items[k].order != o :: db.items[k])
  }

  /** Deleting a product deletes every item that references it (on_delete=CASCADE). */
  function DeleteProduct(db: Db, p: Id): (r: Db)
    requires db.Valid()
    ensures r.Valid()
    ensures r.products.Keys == db.products.Keys - {p}
    ensures forall k :: k in r.products ==> r.products[k] == db.products[k]
    ensures forall k :: k in r.items <==> k in db.items && db.items[k].product != p
    ensures forall k :: k in r.items ==> r.items[k] == db.items[k]
    ensures r.customers == db.customers && r.orders == db.orders
    ensures r.nextCustomer == db.nextCustomer && r.nextProduct == db.nextProduct
    ensures r.nextOrder == db.nextOrder && r.nextItem == db.nextItem
  {
    db.(products := db.products - {p},
        items := map k | k in db.items && db.items[k].product != p :: db.items[k])
  }

  /**
   * Deleting a customer deletes its orders (on_delete=CASCADE), and deleting
   * those orders deletes their items in turn.
   */
  function DeleteCustomer(db: Db, c: Id): (r: Db)
    requires db.Valid()
    ensures r.Valid()
    ensures r.customers.Keys == db.customers.Keys - {c}
    ensures forall k :: k in r.customers ==> r.customers[k] == db.customers[k]
    ensures forall k :: k in r.orders <==> k in db.orders && db.orders[k].customer != c
    ensures forall k :: k in r.orders ==> r.orders[k] == db.orders[k]
    ensures forall k :: k in r.items <==> k in db.items && db.orders[db.items[k].order].customer != c
    ensures forall k :: k in r.items ==> r.items[k] == db.items[k]
    ensures r.products == db.products
    ensures r.nextCustomer == db.nextCustomer && r.nextProduct == db.nextProduct
    ensures r.nextOrder == db.nextOrder && r.nextItem == db.nextItem
  {
    var keptOrders := map k | k in db.orders && db.orders[k].customer != c :: db.orders[k];
    var keptItems := map k | k in db.items && db.items[k].order in keptOrders :: db.items[k];
    db.(customers := db.customers - {c}, orders := keptOrders, items := keptItems)
  }

  // ------------------------------------------------- Reading labels back

  const OrderLabelPrefix := "Commande #"
  const OrderLabelSeparator := " - "
  const ItemLabelSeparator := " x "

  /** Splits a customer label at its first space. */
  function SplitCustomerLabel(s: string): (string, string)
    decreases |s|
  {
    if s == [] then ("", "")
    else if s[0] == ' ' then ("", s[1..])
    else var (f, l) := SplitCustomerLabel(s[1..]); ([s[0]] + f, l)
  }

  /** The order key and customer label an order label was made from. */
  function ParseOrderLabel(s: string): Option<(nat, string)> {
    var n := |OrderLabelPrefix|;
    if |s| < n || s[..n] != OrderLabelPrefix then None
    else
      var rest := s[n..];
      var d := LeadingDigits(rest);
      var after := rest[|d|..];
      if d == [] || |after| < 3 || after[..3] != OrderLabelSeparator then None
      else Some((ParseDigits(d), after[3..]))
  }

  /** The quantity and product name an item label was made from. */
  function ParseItemLabel(s: string): Option<(nat, string)> {
    var d := LeadingDigits(s);
    var after := s[|d|..];
    if d == [] || |after| < 3 || after[..3] != ItemLabelSeparator then None
    else Some((ParseDigits(d), after[3..]))
  }

  /** A customer whose first name has no space can be read back from its label. */
  lemma {:induction false} CustomerLabelSplits(c: Customer)
    requires forall i :: 0 <= i < |c.firstName| ==> c.firstName[i] != ' '
    ensures SplitCustomerLabel(c.Label()) == (c.firstName, c.lastName)
  {
    SplitAtFirstSpace(c.firstName, c.lastName);
  }

  lemma {:induction false} SplitAtFirstSpace(f: string, l: string)
    requires forall i :: 0 <= i < |f| ==> f[i] != ' '
    ensures SplitCustomerLabel(f + " " + l) == (f, l)
    decreases |f|
  {
    if f == [] {
      assert f + " " + l == [' '] + l;
    } else {
      assert (f + " " + l)[0] == f[0];
      assert (f + " " + l)[1..] == f[1..] + " " + l;
      SplitAtFirstSpace(f[1..], l);
      assert [f[0]] + f[1..] == f;
    }
  }

  /** An order label gives back the order's key and its customer's label. */
  lemma OrderLabelReadBack(db: Db, o: Id)
    requires db.Valid() && o in db.orders
    ensures ParseOrderLabel(db.OrderLabel(o)) == Some((o, db.customers[db.orders[o].customer].Label()))
  {
    var name := db.customers[db.orders[o].customer].Label();
    var digits := NatToString(o);
    var tail := OrderLabelSeparator + name;
    var s := db.OrderLabel(o);
    assert s == OrderLabelPrefix + (digits + tail);
    assert s[..|OrderLabelPrefix|] == OrderLabelPrefix;
    assert s[|OrderLabelPrefix|..] == digits + tail;
    NatToStringReadBack(o, tail);
    assert (digits + tail)[|digits|..] == tail;
    assert tail[..3] == OrderLabelSeparator;
    assert tail[3..] == name;
  }

  /** An item label gives back the item's quantity and its product's name. */
  lemma ItemLabelReadBack(db: Db, k: Id)
    requires db.Valid() && k in db.items
    ensures ParseItemLabel(db.ItemLabel(k)) == Some((db.items[k].quantity, db.products[db.items[k].product].name))
  {
    var name := db.products[db.items[k].product].name;
    var digits := NatToString(db.items[k].quantity);
    var tail := ItemLabelSeparator + name;
    assert db.ItemLabel(k) == digits + tail;
    NatToStringReadBack(db.items[k].quantity, tail);
    assert (digits + tail)[|digits|..] == tail;
    assert tail[..3] == ItemLabelSeparator;
    assert tail[3..] == name;
  }
}
