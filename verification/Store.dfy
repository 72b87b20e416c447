/** The repositories over the tables they update in place. Each method is one query, with its fault. */
module Store {
  import opened Domain
  import opened Money
  import opened Database
  import opened Protocol
  import opened Serial
  import opened Promises

  /** What a writing method reports: success carries no value. */
  function Outcome(fault: Fault, r: Result<Db>): Result<()> {
    match Told(fault, r)
    case Err(e) => Err(e)
    case Ok(_) => Ok(())
  }

  class Tables {
    const users: set<Id>
    var orders: map<Id, Order>
    var payments: map<Id, Payment>
    var uploads: map<Id, Upload>
    var used: set<Id>

    constructor (users: set<Id>)
      ensures View() == EmptyDb(users)
    {
      this.users := users;
      orders, payments, uploads, used := map[], map[], map[], {};
    }

    function View(): Db
      reads this
    {
      Db(users, orders, payments, uploads, used)
    }

    // ----- order repository -----

    method CreateOrder(id: Id, user: Id, req: OrderRequest, fault: Fault) returns (r: Result<()>)
      modifies this
      ensures View() == Under(fault, old(View()), NewOrder(id, user, req))
      ensures r == Outcome(fault, Attempt(old(View()), NewOrder(id, user, req)))
      ensures InsertsOrder(old(View()), View(), user, req, id, fault, r)
    {
      InsertRecords(View(), id, user, req);
      if fault.LostCall? { return Err(Driver); }
      var o := Order(user, req.symbol, req.side, ToUnits(req.quantity), ToUnits(req.price), Pending);
      if user !in users || !OrderRowOk(o) { return Err(Driver); }
      orders, used := orders[id := o], used + {id};
      r := if fault.NoFault? then Ok(()) else Err(Driver);
    }

    method GetOrder(user: Id, oid: Id, fault: Fault) returns (r: Result<Order>)
      ensures r == Told(fault, SelectOrder(View(), user, oid))
    {
      if !fault.NoFault? { return Err(Driver); }
      if oid in orders && orders[oid].user == user { return Ok(orders[oid]); }
      r := Err(OrderNotFound);
    }

    method UpdateOrder(user: Id, oid: Id, req: OrderRequest, fault: Fault) returns (r: Result<OrderStatus>)
      modifies this
      ensures View() == Under(fault, old(View()), EditOrder(user, oid, req))
      ensures r.Ok? ==>
        && Outcome(fault, Attempt(old(View()), EditOrder(user, oid, req))).Ok?
        && oid in orders && r.value == orders[oid].status
      ensures r.Err? ==> Outcome(fault, Attempt(old(View()), EditOrder(user, oid, req))) == Err(r.error)
      ensures UpdatesOrder(old(View()), View(), user, oid, req, fault, r)
    {
      UpdateRecords(View(), user, oid, req);
      if fault.LostCall? { return Err(Driver); }
      if oid !in orders || orders[oid].user != user {
        return Err(if fault.NoFault? then OrderNotFound else Driver);
      }
      var o := Order(user, req.symbol, req.side, ToUnits(req.quantity), ToUnits(req.price), orders[oid].status);
      if !OrderRowOk(o) { return Err(Driver); }
      orders := orders[oid := o];
      r := if fault.NoFault? then Ok(o.status) else Err(Driver);
    }

    method AdvanceStatus(oid: Id, v: Verdict, fault: Fault) returns (r: Result<()>)
      modifies this
      ensures View() == Under(fault, old(View()), Close(oid, v))
      ensures r == Outcome(fault, Attempt(old(View()), Close(oid, v)))
    {
      if fault.LostCall? { return Err(Driver); }
      var rows := 0;
      if oid in orders {
        orders, rows := orders[oid := orders[oid].(status := if v.VPaid? then Paid else PaymentFailed)], 1;
      }
      if fault.LostReply? { return Err(Driver); }
      r := if rows == 0 then Err(OrderNotFound) else Ok(());
    }

    /** UpdateStatus as Create uses it, with the status "pending_payment". */
    method MarkPendingPayment(user: Id, oid: Id, fault: Fault) returns (r: Result<()>)
      modifies this
      ensures View() == Under(fault, old(View()), Mark(user, oid))
      ensures r == Outcome(fault, Attempt(old(View()), Mark(user, oid)))
    {
      if fault.LostCall? { return Err(Driver); }
      var rows := 0;
      if oid in orders && orders[oid].user == user {
        orders, rows := orders[oid := orders[oid].(status := PendingPayment)], 1;
      }
      if fault.LostReply? { return Err(Driver); }
      r := if rows == 0 then Err(OrderNotFound) else Ok(());
    }

    method DeleteOrder(user: Id, oid: Id, fault: Fault) returns (r: Result<()>)
      modifies this
      ensures View() == Under(fault, old(View()), DropOrder(user, oid))
      ensures r == Outcome(fault, Attempt(old(View()), DropOrder(user, oid)))
    {
      if fault.LostCall? { return Err(Driver); }
      var rows := 0;
      if oid in orders && orders[oid].user == user {
        orders, rows := orders - {oid}, 1;
        payments := map pid | pid in payments && payments[pid].oid != oid :: payments[pid];
        uploads := map uid | uid in uploads && uploads[uid].oid != oid :: uploads[uid];
      }
      if fault.LostReply? { return Err(Driver); }
      r := if rows == 0 then Err(OrderNotFound) else Ok(());
    }

    // ----- payment repository -----

    /** Probes the unique index on order_id. */
    method ProbeOrderIndex(oid: Id) returns (found: bool)
      ensures found <==> HasPayment(View(), oid)
    {
      var rest := payments.Keys;
      found := false;
      while rest != {}
        invariant rest <= payments.Keys
        invariant found <==> exists pid :: pid in payments.Keys - rest && payments[pid].oid == oid
        decreases rest
      {
        var pid :| pid in rest;
        if payments[pid].oid == oid { found := true; }
        rest := rest - {pid};
      }
      assert payments.Keys - rest == payments.Keys;
    }

    method CreatePayment(pid: Id, oid: Id, reference: string, gross: int, fault: Fault) returns (r: Result<()>)
      modifies this
      ensures View() == Under(fault, old(View()), NewPayment(pid, oid, reference, gross))
      ensures r == Outcome(fault, Attempt(old(View()), NewPayment(pid, oid, reference, gross)))
    {
      if fault.LostCall? { return Err(Driver); }
      var units := Rescale(gross);
      if units <= 0 || LIMIT <= units { return Err(Driver); }
      var duplicate := ProbeOrderIndex(oid);
      if duplicate { return Err(if fault.NoFault? then DuplicatePayment else Driver); }
      if oid !in orders { return Err(Driver); }
      payments, used := payments[pid := Payment(oid, reference, units, Unsettled)], used + {pid};
      r := if fault.NoFault? then Ok(()) else Err(Driver);
    }

    method GetPaymentByID(pid: Id, fault: Fault) returns (r: Result<Receipt>)
      ensures r == Told(fault, SelectPayment(View(), pid))
      ensures r.Ok? ==> pid in payments && Shows(r.value, pid, payments[pid])
    {
      if !fault.NoFault? { return Err(Driver); }
      if pid !in payments { return Err(PaymentNotFound); }
      r := Ok(ReceiptOf(pid, payments[pid]));
    }

    /** Scans for any row with the reference; `pick` records which one came back. */
    method GetByProviderReference(reference: string, fault: Fault) returns (r: Result<Receipt>, pick: Option<Id>)
      ensures Picks(View(), reference, pick)
      ensures r == Told(fault, PickedRow(View(), pick))
      ensures r.Ok? ==> pick.Some? && pick.value in payments && Shows(r.value, pick.value, payments[pick.value])
    {
      var rest := payments.Keys;
      pick := None;
      while rest != {} && pick == None
        invariant rest <= payments.Keys
        invariant pick.Some? ==> pick.value in payments && payments[pick.value].reference == reference
        invariant pick.None? ==> forall pid :: pid in payments.Keys - rest ==> payments[pid].reference != reference
        decreases rest
      {
        var pid :| pid in rest;
        if payments[pid].reference == reference { pick := Some(pid); }
        rest := rest - {pid};
      }
      assert pick.None? ==> payments.Keys - rest == payments.Keys;
      if !fault.NoFault? { return Err(Driver), pick; }
      r := if pick.Some? then Ok(ReceiptOf(pick.value, payments[pick.value])) else Err(PaymentNotFound);
    }

    method UpdatePaymentStatus(pid: Id, v: Verdict, fault: Fault) returns (r: Result<()>)
      modifies this
      ensures View() == Under(fault, old(View()), Decide(pid, v))
      ensures r == Outcome(fault, Attempt(old(View()), Decide(pid, v)))
    {
      if fault.LostCall? { return Err(Driver); }
      var rows := 0;
      if pid in payments {
        payments, rows := payments[pid := payments[pid].(status := Settled(v))], 1;
      }
      if fault.LostReply? { return Err(Driver); }
      r := if rows == 0 then Err(PaymentNotFound) else Ok(());
    }

    // ----- upload repository -----

    method CreateUpload(uid: Id, row: Upload, fault: Fault) returns (r: Result<()>)
      modifies this
      ensures View() == Under(fault, old(View()), NewUpload(uid, row))
      ensures r == Outcome(fault, Attempt(old(View()), NewUpload(uid, row)))
    {
      if fault.LostCall? { return Err(Driver); }
      if row.size <= 0 || row.oid !in orders { return Err(Driver); }
      uploads, used := uploads[uid := row], used + {uid};
      r := if fault.NoFault? then Ok(()) else Err(Driver);
    }

    method GetUploadByID(user: Id, uid: Id, fault: Fault) returns (r: Result<Upload>)
      ensures r == Told(fault, SelectUpload(View(), user, uid))
    {
      if !fault.NoFault? { return Err(Driver); }
      if uid in uploads && uploads[uid].oid in orders && orders[uploads[uid].oid].user == user {
        return Ok(uploads[uid]);
      }
      r := Err(UploadNotFound);
    }
  }
}
