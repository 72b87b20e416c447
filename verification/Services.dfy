/** The order and payment services over the repositories and the gateway. */
module Services {
  import opened Domain
  import opened Database
  import opened Protocol
  import opened Serial
  import opened Promises
  import Store
  import Gateway

  class OrderService {
    const repo: Store.Tables
    const upper: Bytes -> Bytes

    constructor (repo: Store.Tables, upper: Bytes -> Bytes)
      ensures this.repo == repo && this.upper == upper
    {
      this.repo, this.upper := repo, upper;
    }

    method CheckRequest(req: OrderRequest) returns (e: Option<Error>)
      ensures e == Validate(upper, req)
    {
      if req.symbol == [] || |req.symbol| > 20 || req.symbol != upper(req.symbol) { return Some(InvalidSymbol); }
      if req.side != "BUY" && req.side != "SELL" { return Some(InvalidSide); }
      if req.quantity <= 0.0 { return Some(InvalidQuantity); }
      if req.price < 0.0 { return Some(InvalidPrice); }
      e := None;
    }

    /** Invalid requests never reach the rows; valid ones become a pending order or fail on storage. */
    method Create(user: Id, req: OrderRequest, id: Id, fault: Fault) returns (r: Result<()>)
      modifies repo
      ensures (repo.View(), r) == Place(upper, old(repo.View()), user, req, id, fault)
      ensures PlacesOrder(upper, old(repo.View()), repo.View(), user, req, id, fault, r)
    {
      PlacePromise(upper, repo.View(), user, req, id, fault);
      var e := CheckRequest(req);
      if e.Some? { return Err(e.value); }
      r := repo.CreateOrder(id, user, req, fault);
    }

    method Update(user: Id, oid: Id, req: OrderRequest, fault: Fault) returns (r: Result<OrderStatus>)
      modifies repo
      ensures (repo.View(), r) == Change(upper, old(repo.View()), user, oid, req, fault)
      ensures ChangesOrder(upper, old(repo.View()), repo.View(), user, oid, req, fault, r)
    {
      ChangePromise(upper, repo.View(), user, oid, req, fault);
      var e := CheckRequest(req);
      if e.Some? { return Err(e.value); }
      r := repo.UpdateOrder(user, oid, req, fault);
    }

    method Delete(user: Id, oid: Id, fault: Fault) returns (r: Result<()>)
      modifies repo
      ensures repo.View() == Under(fault, old(repo.View()), DropOrder(user, oid))
      ensures r == Store.Outcome(fault, Attempt(old(repo.View()), DropOrder(user, oid)))
    {
      r := repo.DeleteOrder(user, oid, fault);
    }
  }

  class PaymentService {
    const repo: Store.Tables
    const gateway: Gateway.MockGateway

    constructor (repo: Store.Tables, gateway: Gateway.MockGateway)
      ensures this.repo == repo && this.gateway == gateway
    {
      this.repo, this.gateway := repo, gateway;
    }

    function State(): World
      reads repo, gateway
    {
      World(repo.View(), gateway.counter)
    }

    method Create(user: Id, oid: Id, pid: Id, sc: PayScript) returns (r: Result<Receipt>)
      requires !gateway.locked
      modifies repo, gateway
      ensures !gateway.locked
      ensures (State(), r) == Pay(old(State()), user, oid, pid, sc)
      ensures ChargesOrder(old(State()), State(), user, oid, pid, sc, r)
    {
      PayPromise(State(), user, oid, pid, sc);
      var found := repo.GetOrder(user, oid, sc.read);
      if found.Err? {
        return Err(if found.error == OrderNotFound then PaymentOrderNotFound else found.error);
      }
      var o := found.value;
      if o.status != Pending { return Err(OrderNotPayable); }
      var amount := o.quantity * o.price;
      if amount <= 0 { return Err(InvalidAmount); }

      var reference := gateway.CreatePayment();

      var created := repo.CreatePayment(pid, oid, reference, amount, sc.insert);
      if created.Err? { return Err(created.error); }

      var marked := repo.MarkPendingPayment(user, oid, sc.mark);
      if marked.Err? { return Err(marked.error); }
      r := Ok(Receipt(pid, oid, reference, amount, Unsettled));
    }

    /** `pick` is the row the lookup by reference would return. */
    method ApplyProviderCallback(reference: string, status: string, sc: CallScript)
      returns (r: Result<Receipt>, ghost pick: Option<Id>)
      modifies repo
      ensures Picks(old(repo.View()), reference, pick)
      ensures (repo.View(), r) == Callback(old(repo.View()), pick, status, sc)
      ensures AppliesVerdict(old(repo.View()), repo.View(), pick, status, sc, r)
    {
      forall pick { CallbackPromise(repo.View(), pick, status, sc); }
      if status != "paid" && status != "failed" {
        return Err(InvalidStatusTransition), Lookup(repo.View(), reference);
      }
      var v := if status == "paid" then VPaid else VFailed;
      var found;
      found, pick := repo.GetByProviderReference(reference, sc.read);
      if found.Err? { return Err(found.error), pick; }
      var p := found.value;
      if p.status == Settled(v) { return Ok(p), pick; }
      if p.status != Unsettled { return Err(InvalidStatusTransition), pick; }

      var decided := repo.UpdatePaymentStatus(p.pid, v, sc.write);
      if decided.Err? { return Err(decided.error), pick; }
      p := p.(status := Settled(v));

      var advanced := repo.AdvanceStatus(p.oid, v, sc.advance);
      if advanced.Err? { return Err(advanced.error), pick; }
      r := Ok(p);
    }

    method Get(user: Id, pid: Id, read: Fault, check: Fault) returns (r: Result<Receipt>)
      ensures r == GetPayment(repo.View(), user, pid, read, check)
      ensures ShowsPayment(repo.View(), user, pid, read, check, r)
    {
      GetPromise(repo.View(), user, pid, read, check);
      r := repo.GetPaymentByID(pid, read);
      if r.Err? { return; }
      var owned := repo.GetOrder(user, r.value.oid, check);
      if owned.Err? {
        return Err(if owned.error == OrderNotFound then PaymentNotFound else owned.error);
      }
    }
  }
}
