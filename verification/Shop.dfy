/** The shop's tables as row sequences, what each command does to them, and the bookkeeping
    invariants that tie the three order tables together. */
module Shop {

  datatype Option<+T> = None | Some(value: T)

  /** The name and address fields that are copied from a buyer into bills and order lines. */
  datatype Contact = Contact(firstName: string, lastName: string, streetAddress: string, city: string, state: string, zipCode: string)

  const NO_CONTACT := Contact("", "", "", "", "", "")

  datatype Client = Client(uuid: int, contact: Contact, phoneNumber: string)
  datatype Product = Product(productId: int, productName: string, sellerId: int, quantity: int, price: int)
  datatype Bill = Bill(orderId: int, customerId: int, contact: Contact, totalOrderCost: int)
  datatype Line = Line(orderId: int, productId: int, quantityPurchased: int, contact: Contact, totalPrice: int)
  datatype Item = Item(productId: int, quantity: int, itemCostPerUnit: int)

  /** The four files the commands below touch. */
  datatype Db = Db(buyers: seq<Client>, products: seq<Product>, bills: seq<Bill>, lines: seq<Line>)

  datatype Edit = Name(firstName: string, lastName: string) | Address(streetAddress: string, city: string, state: string, zipCode: string)

  function Edited(c: Contact, e: Edit): Contact {
    match e
    case Name(f, l) => c.(firstName := f, lastName := l)
    case Address(s, c', st, z) => c.(streetAddress := s, city := c', state := st, zipCode := z)
  }

  /** What `generateUID` returns: never 0, the id of the rows that end a table. */
  type Uid = n: int | n != 0 witness 1000

  /** `orderId`, `uuid` and the product's id stand for what `generateUID` returned. */
  datatype Cmd =
    | CompleteOrder(buyerId: int, items: seq<Item>, orderId: int)
    | EditContact(buyerId: int, edit: Edit)
    | EditNumber(buyerId: int, phoneNumber: string)
    | RegisterBuyer(uuid: Uid, contact: Contact)
    | AddProduct(product: Product)
    | ModifyQuantity(sellerId: int, productId: int, quantity: int)
    | ModifyPrice(sellerId: int, productId: int, price: int)
    | ReturnProduct(orderId: int, productId: int)

  function ClientId(c: Client): int { c.uuid }
  function ProductId(p: Product): int { p.productId }
  function BillId(b: Bill): int { b.orderId }
  function LineId(l: Line): int { l.orderId }
  function ItemId(i: Item): int { i.productId }

  // ---------------------------------------------------------------------------------------
  // Lookups: the index of the first matching row, or the number of rows.

  function FindRow<T>(rows: seq<T>, idOf: T -> int, id: int): (k: nat)
    ensures k <= |rows| && (k < |rows| ==> idOf(rows[k]) == id) && forall j :: 0 <= j < k ==> idOf(rows[j]) != id
  {
    if rows == [] || idOf(rows[0]) == id then 0 else 1 + FindRow(rows[1..], idOf, id)
  }

  function FindBuyer(bs: seq<Client>, id: int): nat { FindRow(bs, ClientId, id) }

  function FindProduct(ps: seq<Product>, id: int): nat { FindRow(ps, ProductId, id) }

  function FindBill(bs: seq<Bill>, id: int): nat { FindRow(bs, BillId, id) }

  function FindLine(ls: seq<Line>, id: int): nat { FindRow(ls, LineId, id) }

  /** A lookup sees nothing but the ids. */
  lemma {:induction false} SameIds<T>(a: seq<T>, b: seq<T>, idOf: T -> int, id: int)
    requires |a| == |b| && forall k :: 0 <= k < |a| ==> idOf(a[k]) == idOf(b[k])
    ensures FindRow(a, idOf, id) == FindRow(b, idOf, id)
  {
    if a != [] { SameIds(a[1..], b[1..], idOf, id); }
  }

  lemma {:induction false} FoundStaysFound<T>(rows: seq<T>, row: T, idOf: T -> int, id: int)
    requires FindRow(rows, idOf, id) < |rows|
    ensures FindRow(rows + [row], idOf, id) == FindRow(rows, idOf, id)
  {
    assert (rows + [row])[0] == rows[0];
    if idOf(rows[0]) != id {
      FoundStaysFound(rows[1..], row, idOf, id);
      assert (rows + [row])[1..] == rows[1..] + [row];
    }
  }

  lemma {:induction false} NotFoundStaysNotFound<T>(rows: seq<T>, row: T, idOf: T -> int, id: int)
    requires FindRow(rows, idOf, id) == |rows| && idOf(row) != id
    ensures FindRow(rows + [row], idOf, id) == |rows| + 1
  {
    assert (rows + [row])[0] == if rows == [] then row else rows[0];
    if rows != [] {
      NotFoundStaysNotFound(rows[1..], row, idOf, id);
      assert (rows + [row])[1..] == rows[1..] + [row];
    }
  }

  function ContactOf(bs: seq<Client>, id: int): Option<Contact> {
    var k := FindBuyer(bs, id);
    if k < |bs| then Some(bs[k].contact) else None
  }

  /** What the search for an order's buyer comes to. Id 0 stops at the zero row that ends the table, which
      has no name and no address; for any other id that is not there the search has no end. */
  function FoundContact(bs: seq<Client>, id: int): Option<Contact> {
    if FindBuyer(bs, id) == |bs| && id == 0 then Some(NO_CONTACT) else ContactOf(bs, id)
  }

  lemma RegistrationKeepsFound(bs: seq<Client>, uuid: Uid, contact: Contact, id: int)
    requires FoundContact(bs, id).Some?
    ensures FoundContact(bs + [Client(uuid, contact, "")], id) == FoundContact(bs, id)
  {
    if FindBuyer(bs, id) < |bs| {
      FoundStaysFound(bs, Client(uuid, contact, ""), ClientId, id);
    } else {
      NotFoundStaysNotFound(bs, Client(uuid, contact, ""), ClientId, id);
    }
  }

  /** What the search for a returned order's first line comes to, likewise. */
  function FoundPrice(ls: seq<Line>, orderId: int): Option<int> {
    var k := FindLine(ls, orderId);
    if k < |ls| then Some(ls[k].totalPrice) else if orderId == 0 then Some(0) else None
  }

  // ---------------------------------------------------------------------------------------
  // What each command does.

  /** `validateBuyerOrder`: every ordered product exists, and each line alone fits the stock. */
  ghost predicate Accepts(items: seq<Item>, ps: seq<Product>) {
    forall i :: 0 <= i < |items| ==> AcceptsLine(items[i], ps)
  }

  ghost predicate AcceptsLine(item: Item, ps: seq<Product>) {
    && (exists j :: 0 <= j < |ps| && ps[j].productId == item.productId)
    && (forall j :: 0 <= j < |ps| && ps[j].productId == item.productId ==> item.quantity <= ps[j].quantity)
  }

  function SellOne(ps: seq<Product>, item: Item): (r: seq<Product>)
    ensures |r| == |ps|
  {
    var k := FindProduct(ps, item.productId);
    if k < |ps| then ps[k := ps[k].(quantity := ps[k].quantity - item.quantity)] else ps
  }

  function Sell(ps: seq<Product>, items: seq<Item>): (r: seq<Product>)
    ensures |r| == |ps|
  {
    if items == [] then ps else SellOne(Sell(ps, items[..|items| - 1]), items[|items| - 1])
  }

  function OrderCost(items: seq<Item>): int {
    if items == [] then 0
    else OrderCost(items[..|items| - 1]) + items[|items| - 1].quantity * items[|items| - 1].itemCostPerUnit
  }

  function LineOf(orderId: int, c: Contact, item: Item): Line {
    Line(orderId, item.productId, item.quantity, c, item.quantity * item.itemCostPerUnit)
  }

  function NewLines(orderId: int, c: Contact, items: seq<Item>): seq<Line> {
    seq(|items|, i requires 0 <= i < |items| => LineOf(orderId, c, items[i]))
  }

  function EditBuyer(bs: seq<Client>, id: int, e: Edit): seq<Client> {
    var k := FindBuyer(bs, id);
    if k < |bs| then bs[k := bs[k].(contact := Edited(bs[k].contact, e))] else bs
  }

  function EditBills(bs: seq<Bill>, id: int, e: Edit): seq<Bill> {
    seq(|bs|, i requires 0 <= i < |bs| =>
      if bs[i].customerId == id then bs[i].(contact := Edited(bs[i].contact, e)) else bs[i])
  }

  /** Some bill of the buyer has this order number. */
  predicate IsOrderOf(bs: seq<Bill>, id: int, orderId: int) {
    exists k :: 0 <= k < |bs| && bs[k].customerId == id && bs[k].orderId == orderId
  }

  function EditLines(ls: seq<Line>, bs: seq<Bill>, id: int, e: Edit): seq<Line> {
    seq(|ls|, i requires 0 <= i < |ls| =>
      if IsOrderOf(bs, id, ls[i].orderId) then ls[i].(contact := Edited(ls[i].contact, e)) else ls[i])
  }

  function EditPhone(bs: seq<Client>, id: int, phone: string): seq<Client> {
    var k := FindBuyer(bs, id);
    if k < |bs| then bs[k := bs[k].(phoneNumber := phone)] else bs
  }

  predicate Owns(ps: seq<Product>, seller: int, product: int) {
    var k := FindProduct(ps, product);
    k < |ps| && ps[k].sellerId == seller
  }

  function SetQuantity(ps: seq<Product>, seller: int, product: int, quantity: int): seq<Product> {
    var k := FindProduct(ps, product);
    if Owns(ps, seller, product) then ps[k := ps[k].(quantity := quantity)] else ps
  }

  function SetPrice(ps: seq<Product>, seller: int, product: int, price: int): seq<Product> {
    var k := FindProduct(ps, product);
    if Owns(ps, seller, product) then ps[k := ps[k].(price := price)] else ps
  }

  /** The rows whose product is not `product`, in order. */
  function KeepOthers<T>(rows: seq<T>, productOf: T -> int, product: int): seq<T> {
    if rows == [] then []
    else
      var last := rows[|rows| - 1];
      KeepOthers(rows[..|rows| - 1], productOf, product) + if productOf(last) != product then [last] else []
  }

  function LineProduct(l: Line): int { l.productId }

  function Deduct(bs: seq<Bill>, orderId: int, cost: int): seq<Bill> {
    var k := FindBill(bs, orderId);
    if k < |bs| then bs[k := bs[k].(totalOrderCost := bs[k].totalOrderCost - cost)] else bs
  }

  ghost function Apply(db: Db, c: Cmd): Db {
    match c
    case CompleteOrder(id, items, orderId) =>
      var contact := FoundContact(db.buyers, id);
      if !Accepts(items, db.products) || contact.None? then db
      else Db(
             db.buyers,
             Sell(db.products, items),
             db.bills + [Bill(orderId, id, contact.value, OrderCost(items))],
             db.lines + NewLines(orderId, contact.value, items))
    case EditContact(id, e) =>
      Db(EditBuyer(db.buyers, id, e), db.products, EditBills(db.bills, id, e), EditLines(db.lines, db.bills, id, e))
    case EditNumber(id, phone) => db.(buyers := EditPhone(db.buyers, id, phone))
    case RegisterBuyer(uuid, contact) => db.(buyers := db.buyers + [Client(uuid, contact, "")])
    case AddProduct(p) => db.(products := db.products + [p])
    case ModifyQuantity(s, p, q) => db.(products := SetQuantity(db.products, s, p, q))
    case ModifyPrice(s, p, v) => db.(products := SetPrice(db.products, s, p, v))
    case ReturnProduct(orderId, p) =>
      var price := FoundPrice(db.lines, orderId);
      if price.None? then db
      else db.(lines := KeepOthers(db.lines, LineProduct, p), bills := Deduct(db.bills, orderId, price.value))
  }

  ghost function Replay(db: Db, cs: seq<Cmd>): Db {
    if cs == [] then db else Apply(Replay(db, cs[..|cs| - 1]), cs[|cs| - 1])
  }
}
