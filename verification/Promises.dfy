/**
 What each service call leaves in the rows and answers, written out field by field: the promises of the
 source in terms of rows, requests and numbers alone. The lemmas say that the operations keep them under
 every combination of faults.
 */
module Promises {
  import opened Domain
  import opened Money
  import opened Database
  import opened Protocol
  import opened Numbering
  import opened Serial

  // ----- Rows -----

  /** Stored with eight decimals: within half a unit of 10^-8. */
  predicate Near(units: int, x: real) {
    -0.5 <= units as real - x * 100000000.0 <= 0.5
  }

  /** The row holds what was asked, for this user. */
  predicate Records(o: Order, user: Id, req: OrderRequest, st: OrderStatus) {
    && o.user == user && o.symbol == req.symbol && o.side == req.side
    && Near(o.quantity, req.quantity) && Near(o.price, req.price) && o.status == st
  }

  /** Only this order's row may differ. */
  ghost predicate OnlyOrder(db: Db, db': Db, oid: Id) {
    && db'.users == db.users && db'.payments == db.payments && db'.uploads == db.uploads
    && (forall o :: o != oid ==> (o in db'.orders <==> o in db.orders))
    && (forall o :: o != oid && o in db.orders ==> db'.orders[o] == db.orders[o])
  }

  /** The answer shows the row; an answer counts amounts in units of 10^-16, a row in units of 10^-8. */
  predicate Shows(r: Receipt, pid: Id, p: Payment) {
    && r.pid == pid && r.oid == p.oid && r.reference == p.reference && r.status == p.status
    && r.amount == p.amount * 100_000_000
  }

  /** A quantity the column takes: positive after rounding and below 10^16. */
  predicate QuantityFits(x: real) {
    0.5 <= x * 100000000.0 < 1000000000000000000000000.0 - 0.5
  }

  predicate PriceFits(x: real) {
    -0.5 < x * 100000000.0 < 1000000000000000000000000.0 - 0.5
  }

  predicate TableTakes(req: OrderRequest) {
    SideRule(req.side) && QuantityFits(req.quantity) && PriceFits(req.price)
  }

  lemma PriceWindow(x: real)
    ensures 0 <= ToUnits(x) < LIMIT <==> PriceFits(x)
  {
    if x >= 0.0 {
      var f := (x * 100000000.0 + 0.5).Floor;
      assert f < LIMIT <==> x * 100000000.0 + 0.5 < LIMIT as real;
    } else {
      var f := (-x * 100000000.0 + 0.5).Floor;
      assert ToUnits(x) == -f && f >= 0;
      assert f <= 0 <==> -x * 100000000.0 + 0.5 < 1.0;
    }
  }

  /** Which requests the orders table takes, and what it then holds. */
  lemma StoredFrom(user: Id, req: OrderRequest, st: OrderStatus)
    ensures var o := Order(user, req.symbol, req.side, ToUnits(req.quantity), ToUnits(req.price), st);
      (OrderRowOk(o) <==> TableTakes(req)) && Records(o, user, req, st)
  {
    QuantityWindow(req.quantity);
    PriceWindow(req.price);
    StorageError(req.quantity);
    StorageError(req.price);
  }

  // ----- Orders -----

  predicate SymbolRule(upper: Bytes -> Bytes, symbol: Bytes) {
    1 <= |symbol| <= 20 && symbol == upper(symbol)
  }

  predicate SideRule(side: string) {
    side == "BUY" || side == "SELL"
  }

  predicate Acceptable(upper: Bytes -> Bytes, req: OrderRequest) {
    SymbolRule(upper, req.symbol) && SideRule(req.side) && req.quantity > 0.0 && req.price >= 0.0
  }

  /** The error names the first rule the request breaks. */
  predicate Refused(upper: Bytes -> Bytes, req: OrderRequest, e: Error) {
    match e
    case InvalidSymbol => !SymbolRule(upper, req.symbol)
    case InvalidSide => SymbolRule(upper, req.symbol) && !SideRule(req.side)
    case InvalidQuantity => SymbolRule(upper, req.symbol) && SideRule(req.side) && req.quantity <= 0.0
    case InvalidPrice =>
      SymbolRule(upper, req.symbol) && SideRule(req.side) && req.quantity > 0.0 && req.price < 0.0
    case _ => false
  }

  lemma ValidateRefuses(upper: Bytes -> Bytes, req: OrderRequest)
    ensures Validate(upper, req).None? <==> Acceptable(upper, req)
    ensures Validate(upper, req).Some? ==> Refused(upper, req, Validate(upper, req).value)
  {
  }

  /** order.Service.Create: a refused request changes nothing; an accepted one becomes a pending order as asked. */
  ghost predicate PlacesOrder(upper: Bytes -> Bytes, db: Db, db': Db, user: Id, req: OrderRequest, id: Id, fault: Fault,
                              r: Result<()>) {
    if !Acceptable(upper, req) then r.Err? && Refused(upper, req, r.error) && db' == db
    else InsertsOrder(db, db', user, req, id, fault, r)
  }

  ghost predicate InsertsOrder(db: Db, db': Db, user: Id, req: OrderRequest, id: Id, fault: Fault, r: Result<()>) {
    if fault.LostCall? || user !in db.users || !TableTakes(req) then r == Err(Driver) && db' == db
    else
      && id in db'.orders && Records(db'.orders[id], user, req, Pending)
      && OnlyOrder(db, db', id) && db'.used == db.used + {id}
      && r == if fault.NoFault? then Ok(()) else Err(Driver)
  }

  /** order.Service.Update: the owner's order becomes as asked and keeps its user and status. */
  ghost predicate ChangesOrder(upper: Bytes -> Bytes, db: Db, db': Db, user: Id, oid: Id, req: OrderRequest,
                               fault: Fault, r: Result<OrderStatus>) {
    if !Acceptable(upper, req) then r.Err? && Refused(upper, req, r.error) && db' == db
    else UpdatesOrder(db, db', user, oid, req, fault, r)
  }

  ghost predicate UpdatesOrder(db: Db, db': Db, user: Id, oid: Id, req: OrderRequest, fault: Fault,
                               r: Result<OrderStatus>) {
    if fault.LostCall? then r == Err(Driver) && db' == db
    else if oid !in db.orders || db.orders[oid].user != user then
      r == Err(if fault.NoFault? then OrderNotFound else Driver) && db' == db
    else if !TableTakes(req) then r == Err(Driver) && db' == db
    else
      && oid in db'.orders && Records(db'.orders[oid], user, req, db.orders[oid].status)
      && OnlyOrder(db, db', oid) && db'.used == db.used
      && r == if fault.NoFault? then Ok(db.orders[oid].status) else Err(Driver)
  }

  lemma InsertRecords(db: Db, id: Id, user: Id, req: OrderRequest)
    ensures match InsertOrder(db, id, user, req)
            case Err(e) => e == Driver && (user !in db.users || !TableTakes(req))
            case Ok(db') =>
              && user in db.users && TableTakes(req)
              && id in db'.orders && Records(db'.orders[id], user, req, Pending)
              && OnlyOrder(db, db', id) && db'.used == db.used + {id}
  {
    StoredFrom(user, req, Pending);
  }

  lemma UpdateRecords(db: Db, user: Id, oid: Id, req: OrderRequest)
    ensures match UpdateOrder(db, user, oid, req)
            case Err(e) =>
              if oid in db.orders && db.orders[oid].user == user then e == Driver && !TableTakes(req)
              else e == OrderNotFound
            case Ok(db') =>
              && oid in db.orders && db.orders[oid].user == user && TableTakes(req)
              && oid in db'.orders && Records(db'.orders[oid], user, req, db.orders[oid].status)
              && OnlyOrder(db, db', oid) && db'.used == db.used
  {
    if oid in db.orders { StoredFrom(user, req, db.orders[oid].status); }
  }

  /** The rows and the answer of a validated insert or update. */
  function Place(upper: Bytes -> Bytes, db: Db, user: Id, req: OrderRequest, id: Id, fault: Fault): (Db, Result<()>) {
    match Validate(upper, req)
    case Some(e) => (db, Err(e))
    case None =>
      var w := NewOrder(id, user, req);
      (Under(fault, db, w), match Told(fault, Attempt(db, w)) case Err(e) => Err(e) case Ok(_) => Ok(()))
  }

  function Change(upper: Bytes -> Bytes, db: Db, user: Id, oid: Id, req: OrderRequest, fault: Fault)
    : (Db, Result<OrderStatus>)
  {
    match Validate(upper, req)
    case Some(e) => (db, Err(e))
    case None =>
      var w := EditOrder(user, oid, req);
      (Under(fault, db, w),
       match Told(fault, UpdateOrder(db, user, oid, req))
       case Err(e) => Err(e)
       case Ok(db') => Ok(db'.orders[oid].status))
  }

  lemma PlacePromise(upper: Bytes -> Bytes, db: Db, user: Id, req: OrderRequest, id: Id, fault: Fault)
    ensures var (db', r) := Place(upper, db, user, req, id, fault); PlacesOrder(upper, db, db', user, req, id, fault, r)
  {
    ValidateRefuses(upper, req);
    InsertRecords(db, id, user, req);
  }

  lemma ChangePromise(upper: Bytes -> Bytes, db: Db, user: Id, oid: Id, req: OrderRequest, fault: Fault)
    ensures var (db', r) := Change(upper, db, user, oid, req, fault);
      ChangesOrder(upper, db, db', user, oid, req, fault, r)
  {
    ValidateRefuses(upper, req);
    UpdateRecords(db, user, oid, req);
  }

  /** order.Service.Delete: the owner's order goes, with what refers to it; for the rows see DeletionExact. */
  lemma DeleteAnswers(db: Db, user: Id, oid: Id)
    ensures DeleteOrder(db, user, oid).Err? ==>
      DeleteOrder(db, user, oid).error == OrderNotFound && (oid !in db.orders || db.orders[oid].user != user)
  {
  }

  /** Reads show the rows, to owners only. */
  lemma ReadsShow(db: Db, user: Id, id: Id)
    ensures SelectOrder(db, user, id) ==
      if id in db.orders && db.orders[id].user == user then Ok(db.orders[id]) else Err(OrderNotFound)
    ensures match SelectPayment(db, id)
            case Ok(r) => id in db.payments && Shows(r, id, db.payments[id])
            case Err(e) => id !in db.payments && e == PaymentNotFound
    ensures SelectUpload(db, user, id) ==
      if id in db.uploads && db.uploads[id].oid in db.orders && db.orders[db.uploads[id].oid].user == user
      then Ok(db.uploads[id]) else Err(UploadNotFound)
  {
  }

  // ----- payment.Service.Create -----

  /** A new pending payment of the order: the reference is the gateway's, the amount the product, rounded. */
  ghost predicate Charges(db: Db, db': Db, pid: Id, oid: Id, reference: string, product: int) {
    && pid in db'.payments && db'.payments == db.payments[pid := db'.payments[pid]]
    && db'.uploads == db.uploads && db'.users == db.users && db'.used == db.used + {pid}
    && var p := db'.payments[pid];
       && p.oid == oid && p.reference == reference && p.status == Unsettled
       && -50_000_000 <= p.amount * 100_000_000 - product <= 50_000_000
  }

  predicate PaidFor(db: Db, oid: Id) {
    exists pid :: pid in db.payments && db.payments[pid].oid == oid
  }

  ghost predicate ChargesOrder(w: World, w': World, user: Id, oid: Id, pid: Id, sc: PayScript, r: Result<Receipt>) {
    if !sc.read.NoFault? then r == Err(Driver) && w' == w
    else if oid !in w.db.orders || w.db.orders[oid].user != user then r == Err(PaymentOrderNotFound) && w' == w
    else
      var o := w.db.orders[oid];
      var product := o.quantity * o.price;
      if o.status != Pending then r == Err(OrderNotPayable) && w' == w
      else if product <= 0 then r == Err(InvalidAmount) && w' == w
      else
        var n := (w.counter + 1) % 0x1_0000_0000_0000_0000;
        && w'.counter == n
        && if sc.insert.LostCall? then r == Err(Driver) && w'.db == w.db
           else if !(50_000_000 <= product < 99_999_999_999_999_999_999_999_950_000_000) then
             r == Err(Driver) && w'.db == w.db
           else if PaidFor(w.db, oid) then
             r == Err(if sc.insert.NoFault? then DuplicatePayment else Driver) && w'.db == w.db
           else
             && Charges(w.db, w'.db, pid, oid, Reference(n), product)
             && if sc.insert.LostReply? || sc.mark.LostCall? then r == Err(Driver) && w'.db.orders == w.db.orders
                else
                  && w'.db.orders == w.db.orders[oid := o.(status := PendingPayment)]
                  && r == (if sc.mark.NoFault? then Ok(Receipt(pid, oid, Reference(n), product, Unsettled))
                           else Err(Driver))
  }

  lemma InsertCharges(db: Db, pid: Id, oid: Id, reference: string, product: int)
    ensures match InsertPayment(db, pid, oid, reference, product)
            case Err(e) =>
              if !(50_000_000 <= product < 99_999_999_999_999_999_999_999_950_000_000) then e == Driver
              else if PaidFor(db, oid) then e == DuplicatePayment
              else oid !in db.orders && e == Driver
            case Ok(db') =>
              && 50_000_000 <= product < 99_999_999_999_999_999_999_999_950_000_000
              && !PaidFor(db, oid) && oid in db.orders
              && Charges(db, db', pid, oid, reference, product) && db'.orders == db.orders
  {
    AmountWindow(product);
    RoundingError(product);
    assert PaidFor(db, oid) <==> HasPayment(db, oid);
  }

  lemma MarkWrites(db: Db, user: Id, oid: Id)
    ensures match UpdateOrderStatus(db, user, oid, PendingPayment)
            case Err(e) => e == OrderNotFound && (oid !in db.orders || db.orders[oid].user != user)
            case Ok(db') =>
              && oid in db.orders && db.orders[oid].user == user
              && db' == db.(orders := db.orders[oid := db.orders[oid].(status := PendingPayment)])
  {
  }

  lemma PayPromise(w: World, user: Id, oid: Id, pid: Id, sc: PayScript)
    ensures var (w', r) := Pay(w, user, oid, pid, sc); ChargesOrder(w, w', user, oid, pid, sc, r)
  {
    ReadsShow(w.db, user, oid);
    if sc.read.NoFault? && oid in w.db.orders && w.db.orders[oid].user == user && w.db.orders[oid].status == Pending {
      if w.db.orders[oid].quantity * w.db.orders[oid].price > 0 { ChargePromise(w, user, oid, pid, sc); }
    }
  }

  lemma ChargePromise(w: World, user: Id, oid: Id, pid: Id, sc: PayScript)
    requires sc.read.NoFault? && oid in w.db.orders && w.db.orders[oid].user == user
    requires w.db.orders[oid].status == Pending && w.db.orders[oid].quantity * w.db.orders[oid].price > 0
    ensures var product := w.db.orders[oid].quantity * w.db.orders[oid].price;
      var (w', r) := Charge(w, user, oid, product, pid, sc);
      ChargesOrder(w, w', user, oid, pid, sc, r)
  {
    var product := w.db.orders[oid].quantity * w.db.orders[oid].price;
    var insert := NewPayment(pid, oid, Reference(NextNumber(w.counter)), product);
    InsertCharges(w.db, pid, oid, Reference(NextNumber(w.counter)), product);
    MarkWrites(Under(sc.insert, w.db, insert), user, oid);
  }

  // ----- payment.Service.ApplyProviderCallback -----

  ghost predicate AppliesVerdict(db: Db, db': Db, pick: Option<Id>, status: string, sc: CallScript,
                                 r: Result<Receipt>) {
    if status != "paid" && status != "failed" then r == Err(InvalidStatusTransition) && db' == db
    else if !sc.read.NoFault? then r == Err(Driver) && db' == db
    else if pick.None? || pick.value !in db.payments then r == Err(PaymentNotFound) && db' == db
    else
      var p := db.payments[pick.value];
      var v := if status == "paid" then VPaid else VFailed;
      if p.status == Settled(v) then r.Ok? && Shows(r.value, pick.value, p) && db' == db
      else if p.status.Settled? then r == Err(InvalidStatusTransition) && db' == db
      else Settles(db, db', pick.value, v, sc, r)
  }

  /** The payment's row, then its order's, as far as the calls get. */
  ghost predicate Settles(db: Db, db': Db, pid: Id, v: Verdict, sc: CallScript, r: Result<Receipt>)
    requires pid in db.payments
  {
    var p := db.payments[pid];
    var p' := Payment(p.oid, p.reference, p.amount, Settled(v));
    var closed := if v == VPaid then Paid else PaymentFailed;
    if sc.write.LostCall? then r == Err(Driver) && db' == db
    else
      && db'.payments == db.payments[pid := p']
      && db'.users == db.users && db'.uploads == db.uploads && db'.used == db.used
      && if sc.write.LostReply? || sc.advance.LostCall? then r == Err(Driver) && db'.orders == db.orders
         else if p.oid !in db.orders then
           r == Err(if sc.advance.NoFault? then OrderNotFound else Driver) && db'.orders == db.orders
         else
           && db'.orders == db.orders[p.oid := db.orders[p.oid].(status := closed)]
           && if sc.advance.NoFault? then r.Ok? && Shows(r.value, pid, p') else r == Err(Driver)
  }

  lemma SettlePromise(db: Db, pid: Id, v: Verdict, sc: CallScript)
    requires pid in db.payments
    ensures var (db', r) := SettleBoth(db, ReceiptOf(pid, db.payments[pid]), v, sc); Settles(db, db', pid, v, sc, r)
  {
    var p := db.payments[pid];
    assert p.(status := Settled(v)) == Payment(p.oid, p.reference, p.amount, Settled(v));
  }

  lemma CallbackPromise(db: Db, pick: Option<Id>, status: string, sc: CallScript)
    ensures var (db', r) := Callback(db, pick, status, sc); AppliesVerdict(db, db', pick, status, sc, r)
  {
    if pick.Some? && pick.value in db.payments {
      var v := if status == "paid" then VPaid else VFailed;
      SettlePromise(db, pick.value, v, sc);
      ReadsShow(db, 0, pick.value);
    }
  }

  // ----- payment.Service.Get -----

  predicate ShowsPayment(db: Db, user: Id, pid: Id, read: Fault, check: Fault, r: Result<Receipt>) {
    if !read.NoFault? then r == Err(Driver)
    else if pid !in db.payments then r == Err(PaymentNotFound)
    else if !check.NoFault? then r == Err(Driver)
    else if db.payments[pid].oid !in db.orders || db.orders[db.payments[pid].oid].user != user then
      r == Err(PaymentNotFound)
    else r.Ok? && Shows(r.value, pid, db.payments[pid])
  }

  lemma GetPromise(db: Db, user: Id, pid: Id, read: Fault, check: Fault)
    ensures ShowsPayment(db, user, pid, read, check, GetPayment(db, user, pid, read, check))
  {
    ReadsShow(db, user, pid);
  }

  /**
   What a fault-free Create answers, a fault-free Get by the owner shows: the same payment, order, reference
   and status, and an amount within half a unit of 10^-8.
   */
  lemma CreateThenGet(w: World, user: Id, oid: Id, pid: Id)
    requires Pay(w, user, oid, pid, PAY_CLEAN).1.Ok?
    ensures var (w', r) := Pay(w, user, oid, pid, PAY_CLEAN);
      var g := GetPayment(w'.db, user, pid, NoFault, NoFault);
      && g.Ok? && g.value.pid == r.value.pid == pid && g.value.oid == r.value.oid == oid
      && g.value.reference == r.value.reference && g.value.status == r.value.status == Unsettled
      && -50_000_000 <= g.value.amount - r.value.amount <= 50_000_000
  {
    var (w', r) := Pay(w, user, oid, pid, PAY_CLEAN);
    PayPromise(w, user, oid, pid, PAY_CLEAN);
    GetPromise(w'.db, user, pid, NoFault, NoFault);
  }

  // ----- upload.Service.Create -----

  /** The three types that are taken, each with its extension. */
  predicate Allowed(contentType: string, ext: string) {
    || (contentType == "application/pdf" && ext == "pdf")
    || (contentType == "image/png" && ext == "png")
    || (contentType == "image/jpeg" && ext == "jpg")
  }

  predicate Taken(contentType: string) {
    contentType == "application/pdf" || contentType == "image/png" || contentType == "image/jpeg"
  }

  lemma ExtensionAllows(contentType: string, ext: string)
    ensures Extension(contentType) == Some(ext) <==> Allowed(contentType, ext)
    ensures Extension(contentType).Some? <==> Taken(contentType)
  {
  }

  /** The first n bytes, or all of them if there are fewer. */
  function FirstBytes(content: Bytes, n: nat): Bytes {
    content[..if |content| < n then |content| else n]
  }

  lemma HeadIsPrefix(content: Bytes)
    ensures Head(content) == FirstBytes(content, 512)
  {
  }

  /** The checks in their order, the file as far as it got, and a row only beside the whole file. */
  ghost predicate StoresUpload<K>(env: Env, db: Db, db': Db, files: map<K, Bytes>, files': map<K, Bytes>,
                                  locate: Path -> K, user: Id, oid: Id, content: Bytes, head: Bytes, size: int,
                                  name: Id, uid: Id, day: Date, sc: UploadScript, r: Result<Upload>) {
    if !sc.read.NoFault? then r == Err(Driver) && db' == db && files' == files
    else if oid !in db.orders || db.orders[oid].user != user then
      r == Err(UploadOrderNotFound) && db' == db && files' == files
    else if size <= 0 then r == Err(EmptyFile) && db' == db && files' == files
    else if size > env.maxSize then r == Err(FileTooLarge) && db' == db && files' == files
    else if !sc.sniffed then r == Err(Storage) && db' == db && files' == files
    else if !Taken(env.sniff(head)) then r == Err(UnsupportedContentType) && db' == db && files' == files
    else
      exists ext :: Allowed(env.sniff(head), ext) &&
        var u := Upload(oid, env.sniff(head), size, Path(day, name, ext));
        KeepsFile(db, db', files, files', locate(u.path), content, u, uid, sc, r)
  }

  ghost predicate KeepsFile<K>(db: Db, db': Db, files: map<K, Bytes>, files': map<K, Bytes>, key: K, content: Bytes,
                               u: Upload, uid: Id, sc: UploadScript, r: Result<Upload>) {
    match sc.transfer
    case Unopened(created) =>
      files' == (if created then files[key := []] else files) && r == Err(Storage) && db' == db
    case Broken(copied, removed) =>
      && copied <= |content| && files' == (if removed then files - {key} else files[key := content[..copied]])
      && r == Err(Storage) && db' == db
    case Complete =>
      && files' == files[key := content]
      && if sc.insert.LostCall? then r == Err(Driver) && db' == db
         else
           && db' == db.(uploads := db.uploads[uid := u], used := db.used + {uid})
           && r == if sc.insert.NoFault? then Ok(u) else Err(Driver)
  }

  lemma UploadPromise<K>(env: Env, db: Db, files: map<K, Bytes>, locate: Path -> K, user: Id, oid: Id, content: Bytes,
                         head: Bytes, size: int, name: Id, uid: Id, day: Date, sc: UploadScript)
    requires Possible(content, sc.transfer)
    ensures var (db', files', r) := Receive(env, db, files, locate, user, oid, content, head, size, name, uid, day, sc);
      StoresUpload(env, db, db', files, files', locate, user, oid, content, head, size, name, uid, day, sc, r)
  {
    ReadsShow(db, user, oid);
    if Extension(env.sniff(head)).Some? {
      ExtensionAllows(env.sniff(head), Extension(env.sniff(head)).value);
    }
  }
}
