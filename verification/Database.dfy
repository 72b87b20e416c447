/** The tables, their declared constraints, and each repository query as one atomic effect on the rows. */
module Database {
  import opened Domain
  import opened Money

  /** `used` holds every identifier generated so far; identifiers are never reused. */
  datatype Db = Db(users: set<Id>, orders: map<Id, Order>, payments: map<Id, Payment>,
                   uploads: map<Id, Upload>, used: set<Id>)

  function EmptyDb(users: set<Id>): Db {
    Db(users, map[], map[], map[], {})
  }

  // ----- Column constraints -----

  predicate OrderRowOk(o: Order) {
    && (o.side == "BUY" || o.side == "SELL")
    && 0 < o.quantity < LIMIT
    && 0 <= o.price < LIMIT
  }

  predicate PaymentRowOk(p: Payment) {
    0 < p.amount < LIMIT
  }

  // ----- Order rules of the service -----

  predicate SymbolOk(upper: Bytes -> Bytes, symbol: Bytes) {
    symbol != [] && |symbol| <= 20 && symbol == upper(symbol)
  }

  /** The four validators, in the order the service applies them. */
  function Validate(upper: Bytes -> Bytes, req: OrderRequest): Option<Error> {
    if !SymbolOk(upper, req.symbol) then Some(InvalidSymbol)
    else if req.side != "BUY" && req.side != "SELL" then Some(InvalidSide)
    else if req.quantity <= 0.0 then Some(InvalidQuantity)
    else if req.price < 0.0 then Some(InvalidPrice)
    else None
  }

  // ----- Orders -----

  predicate Owns(db: Db, user: Id, oid: Id) {
    oid in db.orders && db.orders[oid].user == user
  }

  function InsertOrder(db: Db, id: Id, user: Id, req: OrderRequest): Result<Db> {
    var o := Order(user, req.symbol, req.side, ToUnits(req.quantity), ToUnits(req.price), Pending);
    if user in db.users && OrderRowOk(o) then Ok(db.(orders := db.orders[id := o], used := db.used + {id}))
    else Err(Driver)
  }

  function SelectOrder(db: Db, user: Id, oid: Id): Result<Order> {
    if Owns(db, user, oid) then Ok(db.orders[oid]) else Err(OrderNotFound)
  }

  function UpdateOrder(db: Db, user: Id, oid: Id, req: OrderRequest): (r: Result<Db>)
    ensures r.Ok? ==> oid in r.value.orders
  {
    if !Owns(db, user, oid) then Err(OrderNotFound)
    else
      var o := db.orders[oid].(symbol := req.symbol, side := req.side,
                               quantity := ToUnits(req.quantity), price := ToUnits(req.price));
      if OrderRowOk(o) then Ok(db.(orders := db.orders[oid := o])) else Err(Driver)
  }

  function AdvanceOrder(db: Db, oid: Id, st: OrderStatus): Result<Db> {
    if oid in db.orders then Ok(db.(orders := db.orders[oid := db.orders[oid].(status := st)]))
    else Err(OrderNotFound)
  }

  function UpdateOrderStatus(db: Db, user: Id, oid: Id, st: OrderStatus): Result<Db> {
    if Owns(db, user, oid) then AdvanceOrder(db, oid, st) else Err(OrderNotFound)
  }

  /** Deleting an order cascades to its payments and uploads. */
  function DeleteOrder(db: Db, user: Id, oid: Id): Result<Db> {
    if Owns(db, user, oid) then
      Ok(db.(orders := db.orders - {oid},
             payments := map pid | pid in db.payments && db.payments[pid].oid != oid :: db.payments[pid],
             uploads := map uid | uid in db.uploads && db.uploads[uid].oid != oid :: db.uploads[uid]))
    else Err(OrderNotFound)
  }

  // ----- Payments -----

  predicate HasPayment(db: Db, oid: Id) {
    exists pid :: pid in db.payments && db.payments[pid].oid == oid
  }

  /** Column checks come first, then the unique index on order_id, then the foreign key. */
  function InsertPayment(db: Db, pid: Id, oid: Id, reference: string, gross: int): Result<Db> {
    if !AmountStorable(gross) then Err(Driver)
    else if HasPayment(db, oid) then Err(DuplicatePayment)
    else if oid !in db.orders then Err(Driver)
    else Ok(db.(payments := db.payments[pid := Payment(oid, reference, Rescale(gross), Unsettled)],
                used := db.used + {pid}))
  }

  function ReceiptOf(pid: Id, p: Payment): Receipt {
    Receipt(pid, p.oid, p.reference, p.amount * SCALE, p.status)
  }

  function SelectPayment(db: Db, pid: Id): Result<Receipt> {
    if pid in db.payments then Ok(ReceiptOf(pid, db.payments[pid])) else Err(PaymentNotFound)
  }

  /** A lookup by reference may return any row that carries it. */
  predicate Picks(db: Db, reference: string, pick: Option<Id>) {
    match pick
    case Some(pid) => pid in db.payments && db.payments[pid].reference == reference
    case None => forall pid :: pid in db.payments ==> db.payments[pid].reference != reference
  }

  function UpdatePaymentStatus(db: Db, pid: Id, st: PaymentStatus): Result<Db> {
    if pid in db.payments then Ok(db.(payments := db.payments[pid := db.payments[pid].(status := st)]))
    else Err(PaymentNotFound)
  }

  // ----- Uploads -----

  function InsertUpload(db: Db, uid: Id, u: Upload): Result<Db> {
    if u.size > 0 && u.oid in db.orders then Ok(db.(uploads := db.uploads[uid := u], used := db.used + {uid}))
    else Err(Driver)
  }

  function SelectUpload(db: Db, user: Id, uid: Id): Result<Upload> {
    if uid in db.uploads && Owns(db, user, db.uploads[uid].oid) then Ok(db.uploads[uid]) else Err(UploadNotFound)
  }

  // ----- Faults -----

  /** What the caller of a repository call is told. */
  function Told<T>(fault: Fault, r: Result<T>): Result<T> {
    if fault.NoFault? then r else Err(Driver)
  }
}
