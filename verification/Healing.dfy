/**
 A Create that stops between its two writes leaves a pending payment on a pending order. Retrying Create
 never changes a row; the first valid callback repairs the pair. A callback that stops between its two
 writes leaves an order that no later callback repairs.
 */
module Healing {
  import opened Domain
  import opened Money
  import opened Database
  import opened Protocol
  import opened Steps
  import opened Safety
  import opened Drawing
  import opened Agreement
  import opened Serial
  import opened Verdicts

  /** A payment was inserted but its order never marked. */
  ghost predicate HalfCreated(db: Db, oid: Id) {
    oid in db.orders && db.orders[oid].status == Pending && HasPayment(db, oid)
  }

  /** Exactly which interruptions of a Create split the pair. */
  lemma CreateSplitsIff(w: World, user: Id, oid: Id, pid: Id, sc: PayScript)
    requires RowsKnown(w.db) && pid !in w.db.used && oid in w.db.orders && !HasPayment(w.db, oid)
    ensures var o := w.db.orders[oid];
      HalfCreated(Pay(w, user, oid, pid, sc).0.db, oid) <==>
        && sc.read.NoFault? && o.user == user && o.status == Pending && AmountStorable(Gross(o))
        && !sc.insert.LostCall? && (sc.insert.LostReply? || sc.mark.LostCall?)
  {
    var o := w.db.orders[oid];
    AmountWindow(Gross(o));
    var insert := NewPayment(pid, oid, Numbering.Reference(NextNumber(w.counter)), Gross(o));
    var db1 := Effect(w.db, insert);
    if AmountStorable(Gross(o)) { assert pid in db1.payments && db1.payments[pid].oid == oid; }
    assert !AmountStorable(Gross(o)) ==> db1 == w.db;
    if sc.read.NoFault? && o.user == user && o.status == Pending && AmountStorable(Gross(o)) {
      var db2 := Effect(db1, Mark(user, oid));
      assert db2.payments == db1.payments && db2.orders[oid].status == PendingPayment;
    }
  }

  datatype Try = Try(user: Id, pid: Id, script: PayScript)

  function Retry(w: World, oid: Id, tries: seq<Try>): World {
    if tries == [] then w
    else
      var x := tries[|tries| - 1];
      Pay(Retry(w, oid, tries[..|tries| - 1]), x.user, oid, x.pid, x.script).0
  }

  /** Once an order has a payment, no Create for it changes a row or succeeds, whatever fails. */
  lemma CreateInert(w: World, user: Id, oid: Id, pid: Id, sc: PayScript)
    requires HasPayment(w.db, oid)
    ensures Pay(w, user, oid, pid, sc).0.db == w.db && Pay(w, user, oid, pid, sc).1.Err?
  {
  }

  lemma {:induction false} RetriesInert(w: World, oid: Id, tries: seq<Try>)
    requires HasPayment(w.db, oid)
    ensures Retry(w, oid, tries).db == w.db
  {
    if tries != [] {
      var x := tries[|tries| - 1];
      RetriesInert(w, oid, tries[..|tries| - 1]);
      CreateInert(Retry(w, oid, tries[..|tries| - 1]), x.user, oid, x.pid, x.script);
    }
  }

  /**
   After any number of retried Creates, the first fault-free callback with a valid verdict brings both rows into
   agreement.
   */
  lemma FirstCallbackHeals(w: World, oid: Id, pid: Id, tries: seq<Try>, n: Notice)
    requires RowsKnown(w.db) && DistinctReferences(w.db) && HalfCreated(w.db, oid)
    requires pid in w.db.payments && w.db.payments[pid].oid == oid && w.db.payments[pid].status.Unsettled?
    requires n.reference == w.db.payments[pid].reference && ParseVerdict(n.status).Some?
    ensures var v := ParseVerdict(n.status).value; var (db', r) := Handle(Retry(w, oid, tries).db, n);
      && Retry(w, oid, tries).db == w.db
      && r.Ok? && InStep(db', oid)
      && pid in db'.payments && db'.payments[pid].status == Settled(v)
      && oid in db'.orders && db'.orders[oid].status == Image(v)
  {
    RetriesInert(w, oid, tries);
    assert Lookup(w.db, n.reference) == Some(pid);
    HandleEffect(w.db, n);
    InStepOf(Handle(w.db, n).0, pid);
  }

  /** Exactly which interruptions of a callback on a pending payment settle it and leave its order out of step. */
  lemma CallbackSplitsIff(db: Db, pid: Id, status: string, sc: CallScript)
    requires RowsKnown(db) && pid in db.payments && db.payments[pid].status.Unsettled? && ParseVerdict(status).Some?
    ensures var oid := db.payments[pid].oid; var db' := Callback(db, Some(pid), status, sc).0;
      && pid in db'.payments && oid in db'.orders
      && (db'.payments[pid].status.Settled? && !InStep(db', oid) <==>
            && sc.read.NoFault? && !sc.write.LostCall? && (sc.write.LostReply? || sc.advance.LostCall?)
            && db.orders[oid].status != Image(ParseVerdict(status).value))
  {
    InStepOf(Callback(db, Some(pid), status, sc).0, pid);
  }

  /**
   A fault-free valid callback leaves the pair in agreement exactly when the payment was still open or the pair
   already agreed.
   */
  lemma CallbackAgreesIff(db: Db, pid: Id, n: Notice)
    requires RowsKnown(db) && DistinctReferences(db) && pid in db.payments
    requires n.reference == db.payments[pid].reference && ParseVerdict(n.status).Some?
    ensures var oid := db.payments[pid].oid;
      InStep(Handle(db, n).0, oid) <==> (db.payments[pid].status.Unsettled? || InStep(db, oid))
  {
    assert Lookup(db, n.reference) == Some(pid);
    HandleEffect(db, n);
    InStepOf(db, pid);
    InStepOf(Handle(db, n).0, pid);
  }

  /**
   An order that missed its update after the payment was settled stays as it is under every later sequence of
   callbacks.
   */
  lemma NeverRepaired(db: Db, pid: Id, ns: seq<Notice>)
    requires RowsKnown(db) && DistinctReferences(db) && pid in db.payments && db.payments[pid].status.Settled?
    ensures var oid := db.payments[pid].oid;
      oid in Deliver(db, ns).orders && Deliver(db, ns).orders[oid] == db.orders[oid]
      && (InStep(Deliver(db, ns), oid) <==> InStep(db, oid))
  {
    var oid := db.payments[pid].oid;
    DeliverIsFinal(db, ns);
    assert PaymentOf(db, oid) == Some(pid);
    FinalKnown(db, ns);
    assert Final(db, ns).payments[pid].oid == oid;
  }

  // ----- Nothing repairs it -----

  /** A serial operation, with its faults; `pick` is the row a callback's lookup returns. */
  datatype Act =
    | PayAct(user: Id, oid: Id, pid: Id, pay: PayScript)
    | CallAct(pick: Option<Id>, status: string, call: CallScript)
    | CreateAct(user: Id, req: OrderRequest, id: Id, fault: Fault)
    | UpdateAct(user: Id, oid: Id, req: OrderRequest, fault: Fault)
    | DeleteAct(user: Id, oid: Id, fault: Fault)

  function WriteOrder(env: Env, db: Db, req: OrderRequest, fault: Fault, w: Write): Db {
    if Validate(env.upper, req).Some? then db else Under(fault, db, w)
  }

  function Perform(env: Env, w: World, act: Act): World {
    match act
    case PayAct(user, oid, pid, sc) => Pay(w, user, oid, pid, sc).0
    case CallAct(pick, status, sc) => w.(db := Callback(w.db, pick, status, sc).0)
    case CreateAct(user, req, id, fault) => w.(db := WriteOrder(env, w.db, req, fault, NewOrder(id, user, req)))
    case UpdateAct(user, oid, req, fault) => w.(db := WriteOrder(env, w.db, req, fault, EditOrder(user, oid, req)))
    case DeleteAct(user, oid, fault) => w.(db := Under(fault, w.db, DropOrder(user, oid)))
  }

  function PerformAll(env: Env, w: World, acts: seq<Act>): World {
    if acts == [] then w else Perform(env, PerformAll(env, w, acts[..|acts| - 1]), acts[|acts| - 1])
  }

  /** Generated identifiers are new, and the act does not delete this order. */
  predicate Spares(db: Db, act: Act, oid: Id) {
    match act
    case PayAct(_, _, pid, _) => pid !in db.used
    case CreateAct(_, _, id, _) => id !in db.used
    case DeleteAct(_, o, _) => o != oid
    case _ => true
  }

  predicate SparesAll(env: Env, w: World, acts: seq<Act>, oid: Id) {
    acts != [] ==>
      var front := acts[..|acts| - 1];
      SparesAll(env, w, front, oid) && Spares(PerformAll(env, w, front).db, acts[|acts| - 1], oid)
  }

  /** The rows went on, with this payment and the status of its order as they were. */
  ghost predicate Kept(db: Db, db': Db, pid: Id)
    requires pid in db.payments && db.payments[pid].oid in db.orders
  {
    var oid := db.payments[pid].oid;
    && RowsKnown(db')
    && pid in db'.payments && db'.payments[pid] == db.payments[pid]
    && oid in db'.orders && db'.orders[oid].status == db.orders[oid].status
  }

  /** One write that does not concern the payment, its order's status or the order's life. */
  lemma WriteKeeps(db: Db, fault: Fault, w: Write, pid: Id)
    requires RowsKnown(db) && Fresh(db, w) && pid in db.payments
    requires (w.Decide? ==> w.pid != pid) && (w.DropOrder? || w.Close? || w.Mark? ==> w.oid != db.payments[pid].oid)
    ensures Kept(db, Under(fault, db, w), pid)
  {
    EffectGrows(db, w);
  }

  lemma KeptTransitive(x: Db, y: Db, z: Db, pid: Id)
    requires pid in x.payments && x.payments[pid].oid in x.orders && Kept(x, y, pid) && Kept(y, z, pid)
    ensures Kept(x, z, pid)
  {
  }

  lemma PayKeeps(w: World, user: Id, oid: Id, newPid: Id, sc: PayScript, pid: Id)
    requires RowsKnown(w.db) && newPid !in w.db.used && pid in w.db.payments
    ensures Kept(w.db, Pay(w, user, oid, newPid, sc).0.db, pid)
  {
    if oid == w.db.payments[pid].oid {
      CreateInert(w, user, oid, newPid, sc);
    } else if oid in w.db.orders {
      var gross := Gross(w.db.orders[oid]);
      ChargeKeeps(w, user, oid, gross, newPid, sc, pid);
    }
  }

  lemma ChargeKeeps(w: World, user: Id, oid: Id, gross: int, newPid: Id, sc: PayScript, pid: Id)
    requires RowsKnown(w.db) && newPid !in w.db.used && pid in w.db.payments && oid != w.db.payments[pid].oid
    ensures Kept(w.db, Charge(w, user, oid, gross, newPid, sc).0.db, pid)
  {
    var insert := NewPayment(newPid, oid, Numbering.Reference(NextNumber(w.counter)), gross);
    var db1 := Under(sc.insert, w.db, insert);
    WriteKeeps(w.db, sc.insert, insert, pid);
    WriteKeeps(db1, sc.mark, Mark(user, oid), pid);
    KeptTransitive(w.db, db1, Under(sc.mark, db1, Mark(user, oid)), pid);
  }

  lemma CallKeeps(db: Db, pick: Option<Id>, status: string, sc: CallScript, pid: Id)
    requires RowsKnown(db) && pid in db.payments && db.payments[pid].status.Settled?
    ensures Kept(db, Callback(db, pick, status, sc).0, pid)
  {
    if pick.Some? && pick != Some(pid) && pick.value in db.payments && ParseVerdict(status).Some? {
      SettleKeeps(db, pick.value, ParseVerdict(status).value, sc, pid);
    }
  }

  lemma SettleKeeps(db: Db, other: Id, v: Verdict, sc: CallScript, pid: Id)
    requires RowsKnown(db) && pid in db.payments && other in db.payments && other != pid
    ensures Kept(db, SettleBoth(db, ReceiptOf(other, db.payments[other]), v, sc).0, pid)
  {
    var db1 := Under(sc.write, db, Decide(other, v));
    var close := Close(db.payments[other].oid, v);
    WriteKeeps(db, sc.write, Decide(other, v), pid);
    WriteKeeps(db1, sc.advance, close, pid);
    KeptTransitive(db, db1, Under(sc.advance, db1, close), pid);
  }

  lemma PerformKeeps(env: Env, w: World, act: Act, pid: Id)
    requires RowsKnown(w.db) && pid in w.db.payments && w.db.payments[pid].status.Settled?
    requires Spares(w.db, act, w.db.payments[pid].oid)
    ensures Kept(w.db, Perform(env, w, act).db, pid)
  {
    match act {
      case PayAct(user, oid, newPid, sc) => PayKeeps(w, user, oid, newPid, sc, pid);
      case CallAct(pick, status, sc) => CallKeeps(w.db, pick, status, sc, pid);
      case CreateAct(user, req, id, fault) => WriteKeeps(w.db, fault, NewOrder(id, user, req), pid);
      case UpdateAct(user, oid, req, fault) => WriteKeeps(w.db, fault, EditOrder(user, oid, req), pid);
      case DeleteAct(user, oid, fault) => WriteKeeps(w.db, fault, DropOrder(user, oid), pid);
    }
  }

  /**
   Once a payment is settled, no serial operation whatever moves its order's status, short of deleting the
   order: faulty callbacks for any row, Creates, updates and deletions of other orders all leave it.
   */
  lemma {:induction false} NothingRepairs(env: Env, w: World, acts: seq<Act>, pid: Id)
    requires RowsKnown(w.db) && pid in w.db.payments && w.db.payments[pid].status.Settled?
    requires SparesAll(env, w, acts, w.db.payments[pid].oid)
    ensures var oid := w.db.payments[pid].oid; var db' := PerformAll(env, w, acts).db;
      Kept(w.db, db', pid) && (InStep(db', oid) <==> InStep(w.db, oid))
  {
    if acts != [] {
      var mid := PerformAll(env, w, acts[..|acts| - 1]);
      NothingRepairs(env, w, acts[..|acts| - 1], pid);
      PerformKeeps(env, mid, acts[|acts| - 1], pid);
      KeptTransitive(w.db, mid.db, PerformAll(env, w, acts).db, pid);
    }
    InStepOf(w.db, pid);
    InStepOf(PerformAll(env, w, acts).db, pid);
  }
}
