/**
 Every serial fault-free history refines a machine with one variable per order: no payment, awaiting the
 provider, paid or failed. The two status columns the service keeps are both images of that variable.
 */
module Refinement {
  import opened Domain
  import opened Money
  import opened Database
  import opened Protocol
  import opened Steps
  import opened Safety
  import opened Numbering
  import opened Drawing
  import opened Serial

  datatype Phase = NoPayment | Awaiting(reference: string) | Closed(reference: string, verdict: Verdict)

  /** All the abstract machine knows about an order: whose it is, what it is worth, and its phase. */
  datatype AbsOrder = AbsOrder(owner: Id, gross: int, phase: Phase)

  datatype Abs = Abs(orders: map<Id, AbsOrder>, counter: nat)

  datatype Op =
    | CreateOp(user: Id, req: OrderRequest, id: Id)
    | UpdateOp(user: Id, oid: Id, req: OrderRequest)
    | DeleteOp(user: Id, oid: Id)
    | PayOp(user: Id, oid: Id, pid: Id)
    | CallOp(reference: string, status: string)

  // ----- The abstract machine -----

  predicate RowFits(req: OrderRequest) {
    0 < ToUnits(req.quantity) < LIMIT && 0 <= ToUnits(req.price) < LIMIT
  }

  predicate AbsOwns(a: Abs, user: Id, oid: Id) {
    oid in a.orders && a.orders[oid].owner == user
  }

  predicate Bears(o: AbsOrder, reference: string) {
    !o.phase.NoPayment? && o.phase.reference == reference
  }

  ghost function AbsFind(a: Abs, reference: string): (r: Option<Id>)
    ensures r.Some? ==> r.value in a.orders && Bears(a.orders[r.value], reference)
    ensures r.None? ==> forall oid :: oid in a.orders ==> !Bears(a.orders[oid], reference)
  {
    if oid :| oid in a.orders && Bears(a.orders[oid], reference) then Some(oid) else None
  }

  /** NoPayment to Awaiting, for the owner of an order with a storable amount. */
  function AbsPay(a: Abs, user: Id, oid: Id): (Abs, Option<Error>) {
    if !AbsOwns(a, user, oid) then (a, Some(PaymentOrderNotFound))
    else
      var o := a.orders[oid];
      if !o.phase.NoPayment? then (a, Some(OrderNotPayable))
      else if o.gross <= 0 then (a, Some(InvalidAmount))
      else
        var n := NextNumber(a.counter);
        if !AmountStorable(o.gross) then (a.(counter := n), Some(Driver))
        else (Abs(a.orders[oid := o.(phase := Awaiting(Reference(n)))], n), None)
  }

  /** Awaiting to Closed; a closed order only confirms its own verdict. */
  ghost function AbsCall(a: Abs, reference: string, status: string): (Abs, Option<Error>) {
    match ParseVerdict(status)
    case None => (a, Some(InvalidStatusTransition))
    case Some(v) =>
      match AbsFind(a, reference)
      case None => (a, Some(PaymentNotFound))
      case Some(oid) =>
        match a.orders[oid].phase
        case Awaiting(_) => (a.(orders := a.orders[oid := a.orders[oid].(phase := Closed(reference, v))]), None)
        case Closed(_, v') => (a, if v == v' then None else Some(InvalidStatusTransition))
        case NoPayment => (a, Some(PaymentNotFound))
  }

  ghost function AbsServe(env: Env, users: set<Id>, a: Abs, op: Op): (Abs, Option<Error>) {
    match op
    case CreateOp(user, req, id) =>
      if Validate(env.upper, req).Some? then (a, Validate(env.upper, req))
      else if user !in users || !RowFits(req) then (a, Some(Driver))
      else (a.(orders := a.orders[id := AbsOrder(user, ToUnits(req.quantity) * ToUnits(req.price), NoPayment)]), None)
    case UpdateOp(user, oid, req) =>
      if Validate(env.upper, req).Some? then (a, Validate(env.upper, req))
      else if !AbsOwns(a, user, oid) then (a, Some(OrderNotFound))
      else if !RowFits(req) then (a, Some(Driver))
      else (a.(orders := a.orders[oid := a.orders[oid].(gross := ToUnits(req.quantity) * ToUnits(req.price))]), None)
    case DeleteOp(user, oid) =>
      if AbsOwns(a, user, oid) then (a.(orders := a.orders - {oid}), None) else (a, Some(OrderNotFound))
    case PayOp(user, oid, _) => AbsPay(a, user, oid)
    case CallOp(reference, status) => AbsCall(a, reference, status)
  }

  // ----- The service, one fault-free operation at a time -----

  function ErrorOf<T>(r: Result<T>): Option<Error> {
    match r
    case Ok(_) => None
    case Err(e) => Some(e)
  }

  function ServeWrite(w: World, write: Write): (World, Option<Error>) {
    (w.(db := Effect(w.db, write)), ErrorOf(Attempt(w.db, write)))
  }

  ghost function Serve(env: Env, w: World, op: Op): (World, Option<Error>) {
    match op
    case CreateOp(user, req, id) =>
      if Validate(env.upper, req).Some? then (w, Validate(env.upper, req)) else ServeWrite(w, NewOrder(id, user, req))
    case UpdateOp(user, oid, req) =>
      if Validate(env.upper, req).Some? then (w, Validate(env.upper, req)) else ServeWrite(w, EditOrder(user, oid, req))
    case DeleteOp(user, oid) => ServeWrite(w, DropOrder(user, oid))
    case PayOp(user, oid, pid) => (Pay(w, user, oid, pid, PAY_CLEAN).0, ErrorOf(Pay(w, user, oid, pid, PAY_CLEAN).1))
    case CallOp(reference, status) =>
      var r := Callback(w.db, Lookup(w.db, reference), status, CALL_CLEAN);
      (w.(db := r.0), ErrorOf(r.1))
  }

  // ----- Abstraction -----

  ghost function PhaseOf(db: Db, oid: Id): Phase {
    match PaymentOf(db, oid)
    case None => NoPayment
    case Some(pid) =>
      match db.payments[pid].status
      case Unsettled => Awaiting(db.payments[pid].reference)
      case Settled(v) => Closed(db.payments[pid].reference, v)
  }

  function StatusOf(p: Phase): OrderStatus {
    match p
    case NoPayment => Pending
    case Awaiting(_) => PendingPayment
    case Closed(_, v) => Image(v)
  }

  ghost function AbsOf(w: World): Abs {
    Abs(map oid | oid in w.db.orders :: AbsOrder(w.db.orders[oid].user, Gross(w.db.orders[oid]), PhaseOf(w.db, oid)),
        w.counter)
  }

  ghost predicate Issued(counter: nat, reference: string) {
    exists k: nat :: 1 <= k <= counter && reference == Reference(k)
  }

  ghost predicate InPhase(db: Db, oid: Id) {
    oid in db.orders ==> db.orders[oid].status == StatusOf(PhaseOf(db, oid))
  }

  ghost predicate AllIssued(db: Db, counter: nat) {
    forall pid :: pid in db.payments ==> Issued(counter, db.payments[pid].reference)
  }

  ghost predicate Coherent(w: World) {
    && RowsKnown(w.db) && DistinctReferences(w.db) && AllIssued(w.db, w.counter)
    && (forall oid :: InPhase(w.db, oid))
  }

  lemma PaymentOfIs(db: Db, pid: Id)
    requires RowsKnown(db) && pid in db.payments
    ensures PaymentOf(db, db.payments[pid].oid) == Some(pid)
  {
  }

  // ----- Frames: what an operation on one order leaves alone -----

  /** The two tables differ at most in order `at` and its payments. */
  ghost predicate Elsewhere(db: Db, db': Db, at: Id) {
    && (forall oid :: oid != at ==> (oid in db.orders <==> oid in db'.orders))
    && (forall oid :: oid != at && oid in db.orders && oid in db'.orders ==> db.orders[oid] == db'.orders[oid])
    && (forall pid :: pid in db.payments && db.payments[pid].oid != at ==>
          pid in db'.payments && db'.payments[pid] == db.payments[pid])
    && (forall pid :: pid in db'.payments && db'.payments[pid].oid != at ==>
          pid in db.payments && db'.payments[pid] == db.payments[pid])
  }

  lemma SamePhase(db: Db, db': Db, at: Id, oid: Id)
    requires RowsKnown(db) && RowsKnown(db') && Elsewhere(db, db', at) && oid != at
    ensures PhaseOf(db, oid) == PhaseOf(db', oid)
  {
    if HasPayment(db, oid) { assert PaymentOf(db, oid).value in db'.payments; }
    if HasPayment(db', oid) { assert PaymentOf(db', oid).value in db.payments; }
  }

  /** The abstract state changes at that order only. */
  lemma AbsElsewhere(w: World, w': World, at: Id)
    requires RowsKnown(w.db) && RowsKnown(w'.db) && Elsewhere(w.db, w'.db, at)
    ensures AbsOf(w').orders ==
      if at in w'.db.orders
      then AbsOf(w).orders[at := AbsOrder(w'.db.orders[at].user, Gross(w'.db.orders[at]), PhaseOf(w'.db, at))]
      else AbsOf(w).orders - {at}
  {
    forall oid | oid != at ensures PhaseOf(w.db, oid) == PhaseOf(w'.db, oid) { SamePhase(w.db, w'.db, at, oid); }
  }

  /** ... and so does coherence. */
  lemma CoherentElsewhere(w: World, w': World, at: Id)
    requires Coherent(w) && RowsKnown(w'.db) && Elsewhere(w.db, w'.db, at) && InPhase(w'.db, at)
    requires DistinctReferences(w'.db) && AllIssued(w'.db, w'.counter)
    ensures Coherent(w')
  {
    forall oid ensures InPhase(w'.db, oid) {
      assert InPhase(w.db, oid);
      if oid != at { SamePhase(w.db, w'.db, at, oid); }
    }
  }

  lemma NoPhaseWithoutPayment(db: Db, oid: Id)
    requires RowsKnown(db) && oid !in db.orders
    ensures PhaseOf(db, oid) == NoPayment
  {
  }

  /** Order writes keep or cascade payments. */
  lemma OrderWriteElsewhere(db: Db, write: Write)
    requires RowsKnown(db) && Fresh(db, write) && (write.NewOrder? || write.EditOrder? || write.DropOrder?)
    ensures var db' := Effect(db, write); var at := if write.NewOrder? then write.id else write.oid;
      && RowsKnown(db') && Elsewhere(db, db', at)
      && (forall pid :: pid in db'.payments ==> pid in db.payments && db'.payments[pid] == db.payments[pid])
      && (at in db'.orders ==> db'.payments == db.payments)
      && (at in db'.orders && at in db.orders ==> db'.orders[at].status == db.orders[at].status)
      && (at in db'.orders && at !in db.orders ==> db'.orders[at].status == Pending)
  {
    EffectGrows(db, write);
  }

  lemma OrderWriteCoherent(w: World, write: Write)
    requires Coherent(w) && Fresh(w.db, write) && (write.NewOrder? || write.EditOrder? || write.DropOrder?)
    ensures Coherent(w.(db := Effect(w.db, write)))
    ensures var at := if write.NewOrder? then write.id else write.oid;
      at in Effect(w.db, write).orders ==> PhaseOf(Effect(w.db, write), at) == PhaseOf(w.db, at)
  {
    var w' := w.(db := Effect(w.db, write));
    var at := if write.NewOrder? then write.id else write.oid;
    OrderWriteElsewhere(w.db, write);
    assert InPhase(w.db, at);
    if at in w'.db.orders {
      assert HasPayment(w.db, at) <==> HasPayment(w'.db, at);
      if at !in w.db.orders { NoPhaseWithoutPayment(w.db, at); }
    }
    CoherentElsewhere(w, w', at);
  }

  lemma CreateRefines(env: Env, w: World, op: Op)
    requires Coherent(w) && op.CreateOp? && op.id !in w.db.used
    ensures Coherent(Serve(env, w, op).0)
    ensures (AbsOf(Serve(env, w, op).0), Serve(env, w, op).1) == AbsServe(env, w.db.users, AbsOf(w), op)
  {
    var write := NewOrder(op.id, op.user, op.req);
    OrderWriteCoherent(w, write);
    OrderWriteElsewhere(w.db, write);
    AbsElsewhere(w, w.(db := Effect(w.db, write)), op.id);
    NoPhaseWithoutPayment(w.db, op.id);
  }

  lemma UpdateRefines(env: Env, w: World, op: Op)
    requires Coherent(w) && op.UpdateOp?
    ensures Coherent(Serve(env, w, op).0)
    ensures (AbsOf(Serve(env, w, op).0), Serve(env, w, op).1) == AbsServe(env, w.db.users, AbsOf(w), op)
  {
    var write := EditOrder(op.user, op.oid, op.req);
    OrderWriteCoherent(w, write);
    OrderWriteElsewhere(w.db, write);
    AbsElsewhere(w, w.(db := Effect(w.db, write)), op.oid);
  }

  lemma DeleteRefines(env: Env, w: World, op: Op)
    requires Coherent(w) && op.DeleteOp?
    ensures Coherent(Serve(env, w, op).0)
    ensures (AbsOf(Serve(env, w, op).0), Serve(env, w, op).1) == AbsServe(env, w.db.users, AbsOf(w), op)
  {
    var write := DropOrder(op.user, op.oid);
    OrderWriteCoherent(w, write);
    OrderWriteElsewhere(w.db, write);
    AbsElsewhere(w, w.(db := Effect(w.db, write)), op.oid);
  }

  /** A fresh draw: the reference was never issued before. */
  lemma NewReference(w: World)
    requires Coherent(w) && w.counter + 1 < WORD
    ensures NextNumber(w.counter) == w.counter + 1
    ensures forall pid :: pid in w.db.payments ==> w.db.payments[pid].reference != Reference(w.counter + 1)
  {
    forall pid | pid in w.db.payments ensures w.db.payments[pid].reference != Reference(w.counter + 1) {
      var k: nat :| 1 <= k <= w.counter && w.db.payments[pid].reference == Reference(k);
      ReferenceInjective(k, w.counter + 1);
    }
  }

  lemma IssuedLater(w: World, w': World)
    requires Coherent(w) && w.counter <= w'.counter
    ensures forall pid :: pid in w.db.payments ==> Issued(w'.counter, w.db.payments[pid].reference)
  {
  }

  /** A successful serial Create ends with both rows written. */
  lemma ChargeEffect(w: World, user: Id, oid: Id, gross: int, pid: Id)
    requires Owns(w.db, user, oid) && !HasPayment(w.db, oid) && AmountStorable(gross)
    ensures var (w', r) := Charge(w, user, oid, gross, pid, PAY_CLEAN);
      && r.Ok?
      && w'.counter == NextNumber(w.counter)
      && var p := Payment(oid, Reference(NextNumber(w.counter)), Rescale(gross), Unsettled);
         w'.db == w.db.(payments := w.db.payments[pid := p],
                        orders := w.db.orders[oid := w.db.orders[oid].(status := PendingPayment)],
                        used := w.db.used + {pid})
  {
  }

  lemma MarkedElsewhere(db: Db, oid: Id, pid: Id, p: Payment)
    requires RowsKnown(db) && oid in db.orders && !HasPayment(db, oid) && pid !in db.used && p.oid == oid
    ensures var db' := db.(payments := db.payments[pid := p],
                           orders := db.orders[oid := db.orders[oid].(status := PendingPayment)],
                           used := db.used + {pid});
      RowsKnown(db') && Elsewhere(db, db', oid)
  {
  }

  lemma ChargeRows(w: World, user: Id, oid: Id, gross: int, pid: Id)
    requires RowsKnown(w.db) && Owns(w.db, user, oid) && !HasPayment(w.db, oid) && AmountStorable(gross)
    requires pid !in w.db.used
    ensures var w' := Charge(w, user, oid, gross, pid, PAY_CLEAN).0;
      && RowsKnown(w'.db) && Elsewhere(w.db, w'.db, oid)
      && PhaseOf(w'.db, oid) == Awaiting(Reference(NextNumber(w.counter)))
      && InPhase(w'.db, oid)
  {
    ChargeEffect(w, user, oid, gross, pid);
    MarkedElsewhere(w.db, oid, pid, Payment(oid, Reference(NextNumber(w.counter)), Rescale(gross), Unsettled));
    PaymentOfIs(Charge(w, user, oid, gross, pid, PAY_CLEAN).0.db, pid);
  }

  lemma ChargeCoherent(w: World, user: Id, oid: Id, gross: int, pid: Id)
    requires Coherent(w) && Owns(w.db, user, oid) && !HasPayment(w.db, oid) && pid !in w.db.used
    requires AmountStorable(gross) && w.counter + 1 < WORD
    ensures Coherent(Charge(w, user, oid, gross, pid, PAY_CLEAN).0)
  {
    var w' := Charge(w, user, oid, gross, pid, PAY_CLEAN).0;
    ChargeEffect(w, user, oid, gross, pid);
    ChargeRows(w, user, oid, gross, pid);
    NewReference(w);
    IssuedLater(w, w');
    assert Issued(w'.counter, Reference(w.counter + 1));
    CoherentElsewhere(w, w', oid);
  }

  lemma PayRefines(env: Env, w: World, op: Op)
    requires Coherent(w) && op.PayOp? && op.pid !in w.db.used && w.counter + 1 < WORD
    ensures Coherent(Serve(env, w, op).0)
    ensures (AbsOf(Serve(env, w, op).0), Serve(env, w, op).1) == AbsServe(env, w.db.users, AbsOf(w), op)
  {
    var oid := op.oid;
    assert InPhase(w.db, oid);
    if Owns(w.db, op.user, oid) && w.db.orders[oid].status == Pending && Gross(w.db.orders[oid]) > 0 {
      var gross := Gross(w.db.orders[oid]);
      assert PhaseOf(w.db, oid).NoPayment?;
      if AmountStorable(gross) {
        ChargeEffect(w, op.user, oid, gross, op.pid);
        ChargeRows(w, op.user, oid, gross, op.pid);
        ChargeCoherent(w, op.user, oid, gross, op.pid);
        AbsElsewhere(w, Charge(w, op.user, oid, gross, op.pid, PAY_CLEAN).0, oid);
      } else {
        NewReference(w);
        IssuedLater(w, w.(counter := w.counter + 1));
        assert Serve(env, w, op).0 == w.(counter := w.counter + 1);
      }
    }
  }

  /** A serial callback on a pending payment settles both rows. */
  lemma CallEffect(db: Db, pid: Id, v: Verdict)
    requires RowsKnown(db) && pid in db.payments
    ensures var (db', r) := SettleBoth(db, ReceiptOf(pid, db.payments[pid]), v, CALL_CLEAN);
      && r.Ok?
      && db' == db.(payments := db.payments[pid := db.payments[pid].(status := Settled(v))],
                    orders := db.orders[db.payments[pid].oid := db.orders[db.payments[pid].oid].(status := Image(v))])
  {
  }

  /** Writing both statuses of one order, in place. */
  lemma StatusesElsewhere(db: Db, pid: Id, v: Verdict)
    requires RowsKnown(db) && pid in db.payments
    ensures var oid := db.payments[pid].oid;
      var db' := db.(payments := db.payments[pid := db.payments[pid].(status := Settled(v))],
                     orders := db.orders[oid := db.orders[oid].(status := Image(v))]);
      RowsKnown(db') && Elsewhere(db, db', oid)
  {
  }

  lemma SettleRows(db: Db, pid: Id, v: Verdict)
    requires RowsKnown(db) && pid in db.payments
    ensures var db' := SettleBoth(db, ReceiptOf(pid, db.payments[pid]), v, CALL_CLEAN).0;
      var oid := db.payments[pid].oid;
      && RowsKnown(db') && Elsewhere(db, db', oid)
      && PhaseOf(db', oid) == Closed(db.payments[pid].reference, v) && InPhase(db', oid)
  {
    var oid := db.payments[pid].oid;
    CallEffect(db, pid, v);
    StatusesElsewhere(db, pid, v);
    PaymentOfIs(db.(payments := db.payments[pid := db.payments[pid].(status := Settled(v))],
                    orders := db.orders[oid := db.orders[oid].(status := Image(v))]), pid);
  }

  lemma SettleCoherent(w: World, pid: Id, v: Verdict)
    requires Coherent(w) && pid in w.db.payments
    ensures Coherent(w.(db := SettleBoth(w.db, ReceiptOf(pid, w.db.payments[pid]), v, CALL_CLEAN).0))
  {
    var w' := w.(db := SettleBoth(w.db, ReceiptOf(pid, w.db.payments[pid]), v, CALL_CLEAN).0);
    CallEffect(w.db, pid, v);
    SettleRows(w.db, pid, v);
    CoherentElsewhere(w, w', w.db.payments[pid].oid);
  }

  /** The abstract machine finds by reference the order of the row the service finds. */
  lemma FindAgrees(w: World, reference: string)
    requires Coherent(w)
    ensures match Lookup(w.db, reference)
            case None => AbsFind(AbsOf(w), reference).None?
            case Some(pid) => AbsFind(AbsOf(w), reference) == Some(w.db.payments[pid].oid)
                              && PaymentOf(w.db, w.db.payments[pid].oid) == Some(pid)
  {
    var a := AbsOf(w);
    match Lookup(w.db, reference) {
      case Some(pid) =>
        var oid := w.db.payments[pid].oid;
        PaymentOfIs(w.db, pid);
        assert Bears(a.orders[oid], reference);
        var found := AbsFind(a, reference).value;
        assert Bears(a.orders[found], reference);
      case None =>
        forall oid | oid in a.orders ensures !Bears(a.orders[oid], reference) {
          var pick := PaymentOf(w.db, oid);
          if pick.Some? { assert w.db.payments[pick.value].reference != reference; }
        }
    }
  }

  /** The effective callback: the row found is still pending. */
  lemma SettleRefines(w: World, pid: Id, v: Verdict)
    requires Coherent(w) && pid in w.db.payments
    ensures var oid := w.db.payments[pid].oid;
      var w' := w.(db := SettleBoth(w.db, ReceiptOf(pid, w.db.payments[pid]), v, CALL_CLEAN).0);
      && Coherent(w') && oid in w.db.orders
      && var o := AbsOf(w).orders[oid].(phase := Closed(w.db.payments[pid].reference, v));
         AbsOf(w') == Abs(AbsOf(w).orders[oid := o], w.counter)
  {
    CallEffect(w.db, pid, v);
    SettleRows(w.db, pid, v);
    SettleCoherent(w, pid, v);
    AbsElsewhere(w, w.(db := SettleBoth(w.db, ReceiptOf(pid, w.db.payments[pid]), v, CALL_CLEAN).0),
                 w.db.payments[pid].oid);
  }

  lemma CallRefines(env: Env, w: World, op: Op)
    requires Coherent(w) && op.CallOp?
    ensures Coherent(Serve(env, w, op).0)
    ensures (AbsOf(Serve(env, w, op).0), Serve(env, w, op).1) == AbsServe(env, w.db.users, AbsOf(w), op)
  {
    var pick := Lookup(w.db, op.reference);
    if ParseVerdict(op.status).Some? && pick.Some? && w.db.payments[pick.value].status == Unsettled {
      OpenCallRefines(env, w, op);
    } else {
      IdleCallRefines(env, w, op);
    }
  }

  /** The row found is still pending: both machines settle it. */
  lemma OpenCallRefines(env: Env, w: World, op: Op)
    requires Coherent(w) && op.CallOp? && ParseVerdict(op.status).Some?
    requires var pick := Lookup(w.db, op.reference); pick.Some? && w.db.payments[pick.value].status == Unsettled
    ensures Coherent(Serve(env, w, op).0)
    ensures (AbsOf(Serve(env, w, op).0), Serve(env, w, op).1) == AbsServe(env, w.db.users, AbsOf(w), op)
  {
    var v, pid := ParseVerdict(op.status).value, Lookup(w.db, op.reference).value;
    var (db', r) := SettleBoth(w.db, ReceiptOf(pid, w.db.payments[pid]), v, CALL_CLEAN);
    CallEffect(w.db, pid, v);
    SettleRefines(w, pid, v);
    FindAgrees(w, op.reference);
    OpenCallServes(env, w, op);
    assert Serve(env, w, op) == (w.(db := db'), None);
  }

  lemma OpenCallServes(env: Env, w: World, op: Op)
    requires RowsKnown(w.db) && op.CallOp? && ParseVerdict(op.status).Some?
    requires var pick := Lookup(w.db, op.reference); pick.Some? && w.db.payments[pick.value].status == Unsettled
    ensures var v, pid := ParseVerdict(op.status).value, Lookup(w.db, op.reference).value;
      Serve(env, w, op) == (w.(db := SettleBoth(w.db, ReceiptOf(pid, w.db.payments[pid]), v, CALL_CLEAN).0), None)
  {
    CallEffect(w.db, Lookup(w.db, op.reference).value, ParseVerdict(op.status).value);
  }

  /** Nothing to settle: neither machine moves, and both give the same answer. */
  lemma IdleCallRefines(env: Env, w: World, op: Op)
    requires Coherent(w) && op.CallOp?
    requires var pick := Lookup(w.db, op.reference);
      ParseVerdict(op.status).Some? && pick.Some? ==> w.db.payments[pick.value].status != Unsettled
    ensures Serve(env, w, op).0 == w
    ensures (AbsOf(w), Serve(env, w, op).1) == AbsServe(env, w.db.users, AbsOf(w), op)
  {
    FindAgrees(w, op.reference);
  }

  // ----- Whole histories -----

  function NewId(op: Op): Option<Id> {
    match op
    case CreateOp(_, _, id) => Some(id)
    case PayOp(_, _, pid) => Some(pid)
    case _ => None
  }

  /** Identifiers are new when drawn and the gateway counter does not wrap. */
  ghost predicate Ready(w: World, op: Op) {
    (NewId(op).Some? ==> NewId(op).value !in w.db.used) && (op.PayOp? ==> w.counter + 1 < WORD)
  }

  ghost function ServeAll(env: Env, w: World, ops: seq<Op>): (World, seq<Option<Error>>)
    decreases |ops|
  {
    if |ops| == 0 then (w, [])
    else
      var (w1, e) := Serve(env, w, ops[0]);
      var (w2, es) := ServeAll(env, w1, ops[1..]);
      (w2, [e] + es)
  }

  ghost function AbsServeAll(env: Env, users: set<Id>, a: Abs, ops: seq<Op>): (Abs, seq<Option<Error>>)
    decreases |ops|
  {
    if ops == [] then (a, [])
    else
      var (a1, e) := AbsServe(env, users, a, ops[0]);
      var (a2, es) := AbsServeAll(env, users, a1, ops[1..]);
      (a2, [e] + es)
  }

  ghost predicate ReadyAll(env: Env, w: World, ops: seq<Op>)
    decreases |ops|
  {
    ops != [] ==> Ready(w, ops[0]) && ReadyAll(env, Serve(env, w, ops[0]).0, ops[1..])
  }

  lemma ServeUsers(env: Env, w: World, op: Op)
    ensures Serve(env, w, op).0.db.users == w.db.users
  {
  }

  lemma ServeRefines(env: Env, w: World, op: Op)
    requires Coherent(w) && Ready(w, op)
    ensures Coherent(Serve(env, w, op).0)
    ensures (AbsOf(Serve(env, w, op).0), Serve(env, w, op).1) == AbsServe(env, w.db.users, AbsOf(w), op)
  {
    match op {
      case CreateOp(_, _, _) => CreateRefines(env, w, op);
      case UpdateOp(_, _, _) => UpdateRefines(env, w, op);
      case DeleteOp(_, _) => DeleteRefines(env, w, op);
      case PayOp(_, _, _) => PayRefines(env, w, op);
      case CallOp(_, _) => CallRefines(env, w, op);
    }
  }

  /**
   Every serial fault-free history from coherent tables moves the one-variable machine along, with the same
   success or error for every request, and both status columns stay images of the variable.
   */
  lemma {:induction false} HistoryRefines(env: Env, w: World, ops: seq<Op>)
    requires Coherent(w) && ReadyAll(env, w, ops)
    ensures var (w', es) := ServeAll(env, w, ops);
      Coherent(w') && (AbsOf(w'), es) == AbsServeAll(env, w.db.users, AbsOf(w), ops)
    decreases |ops|
  {
    if ops != [] {
      ServeRefines(env, w, ops[0]);
      ServeUsers(env, w, ops[0]);
      HistoryRefines(env, Serve(env, w, ops[0]).0, ops[1..]);
    }
  }

  lemma StartsCoherent(users: set<Id>)
    ensures Coherent(World(EmptyDb(users), 0)) && AbsOf(World(EmptyDb(users), 0)) == Abs(map[], 0)
  {
    assert AbsOf(World(EmptyDb(users), 0)).orders == map[];
  }

  /** In particular every history from empty tables. */
  lemma HistoryFromEmpty(env: Env, users: set<Id>, ops: seq<Op>)
    requires ReadyAll(env, World(EmptyDb(users), 0), ops)
    ensures var (w, es) := ServeAll(env, World(EmptyDb(users), 0), ops);
      Coherent(w) && (AbsOf(w), es) == AbsServeAll(env, users, Abs(map[], 0), ops)
  {
    StartsCoherent(users);
    HistoryRefines(env, World(EmptyDb(users), 0), ops);
  }

  /**
   A second Create for an order that has a payment is answered "not payable", not "duplicate payment":
   without races and faults the order has left "pending" before the unique index is ever asked.
   */
  lemma SecondCreateNotPayable(env: Env, w: World, user: Id, oid: Id, pid: Id)
    requires Coherent(w) && Owns(w.db, user, oid) && HasPayment(w.db, oid)
    ensures Serve(env, w, PayOp(user, oid, pid)) == (w, Some(OrderNotPayable))
  {
    assert InPhase(w.db, oid) && !PhaseOf(w.db, oid).NoPayment?;
    assert Pay(w, user, oid, pid, PAY_CLEAN) == (w, Err(OrderNotPayable));
  }
}
