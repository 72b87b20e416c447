/**
 Exactly which steps of an arbitrary interleaved, faulty run take an order and its payment out of agreement,
 and exactly which bring them back.
 */
module Disagreement {
  import opened Domain
  import opened Money
  import opened Database
  import opened Protocol
  import opened History
  import opened Steps
  import opened Safety
  import opened Lead
  import opened Agreement

  // ----- One write -----

  /** The status of the order's one payment. */
  function Stored(db: Db, payOf: PayOf, oid: Id): PaymentStatus
    requires oid in payOf && payOf[oid] in db.payments
  {
    db.payments[payOf[oid]].status
  }

  /** Agreement is one equation, once the order's payment is known. */
  lemma InStepIs(db: Db, payOf: PayOf, oid: Id)
    requires RowsLead(db, payOf) && oid in db.orders
    ensures oid in payOf ==> payOf[oid] in db.payments && db.payments[payOf[oid]].oid == oid
    ensures InStep(db, oid) <==>
      db.orders[oid].status == if oid in payOf then ImageOf(Stored(db, payOf, oid)) else Pending
  {
    assert OrderLed(db, payOf, oid);
    if oid in payOf {
      forall pid | pid in db.payments && db.payments[pid].oid == oid ensures pid == payOf[oid] {
        assert PaymentLed(db, payOf, pid);
      }
      InStepOf(db, payOf[oid]);
    } else {
      forall pid | pid in db.payments ensures db.payments[pid].oid != oid { assert PaymentLed(db, payOf, pid); }
    }
  }

  /** An inserted payment is ahead of its order until the order is marked. */
  lemma InsertDisagrees(db: Db, payOf: PayOf, w: Write)
    requires RowsKnown(db) && RowsLead(db, payOf) && Fresh(db, w) && w.NewPayment? && Attempt(db, w).Ok?
    ensures InStep(db, w.oid) && !InStep(Effect(db, w), w.oid)
  {
    NoSecondCharge(db, payOf, w);
    assert OrderLed(db, payOf, w.oid);
    EffectLeads(db, payOf, w);
    InStepIs(db, payOf, w.oid);
    InStepIs(Effect(db, w), Extended(db, payOf, w), w.oid);
  }

  lemma DecideAgreesIff(db: Db, payOf: PayOf, w: Write)
    requires RowsKnown(db) && RowsLead(db, payOf) && Fresh(db, w) && w.Decide? && w.pid in db.payments
    ensures var oid := db.payments[w.pid].oid;
      oid in db.orders && (InStep(Effect(db, w), oid) <==> db.orders[oid].status == Image(w.verdict))
  {
    var oid := db.payments[w.pid].oid;
    assert PaymentLed(db, payOf, w.pid);
    EffectLeads(db, payOf, w);
    InStepIs(Effect(db, w), payOf, oid);
  }

  /** Create's order write leaves agreement exactly when no verdict is stored yet. */
  lemma MarkAgreesIff(db: Db, payOf: PayOf, w: Write)
    requires RowsKnown(db) && RowsLead(db, payOf) && Justified(db, payOf, w) && w.Mark? && Owns(db, w.user, w.oid)
    ensures payOf[w.oid] in db.payments
    ensures InStep(Effect(db, w), w.oid) <==> Stored(db, payOf, w.oid) == Unsettled
  {
    InStepIs(db, payOf, w.oid);
    EffectLeads(db, payOf, w);
    InStepIs(Effect(db, w), payOf, w.oid);
  }

  /** A callback's order write leaves agreement exactly when its verdict is the stored one. */
  lemma CloseAgreesIff(db: Db, payOf: PayOf, w: Write)
    requires RowsKnown(db) && RowsLead(db, payOf) && Justified(db, payOf, w) && w.Close? && w.oid in db.orders
    ensures w.oid in payOf && payOf[w.oid] in db.payments
    ensures InStep(Effect(db, w), w.oid) <==> Stored(db, payOf, w.oid) == Settled(w.verdict)
  {
    InStepIs(db, payOf, w.oid);
    EffectLeads(db, payOf, w);
    InStepIs(Effect(db, w), payOf, w.oid);
  }

  /** The write reaches this order's status, its payment or its existence. */
  predicate Concerns(db: Db, w: Write, oid: Id) {
    match w
    case NewOrder(id, _, _) => id == oid
    case DropOrder(user, o) => o == oid && Owns(db, user, oid)
    case NewPayment(_, o, _, _) => o == oid && Attempt(db, w).Ok?
    case Mark(user, o) => o == oid && Owns(db, user, oid)
    case Decide(pid, _) => pid in db.payments && db.payments[pid].oid == oid
    case Close(o, _) => o == oid && oid in db.orders
    case _ => false
  }

  lemma OtherWritesKeep(db: Db, w: Write, oid: Id)
    requires RowsKnown(db) && Fresh(db, w) && !Concerns(db, w, oid)
    ensures InStep(Effect(db, w), oid) <==> InStep(db, oid)
  {
    var db' := Effect(db, w);
    assert oid in db'.orders <==> oid in db.orders;
    assert oid in db.orders ==> db'.orders[oid].status == db.orders[oid].status;
    if oid in db.orders { OtherPayments(db, w, oid); }
  }

  lemma OtherPayments(db: Db, w: Write, oid: Id)
    requires RowsKnown(db) && Fresh(db, w) && !Concerns(db, w, oid) && oid in db.orders
    ensures forall pid :: pid in db.payments && db.payments[pid].oid == oid ==>
      pid in Effect(db, w).payments && Effect(db, w).payments[pid] == db.payments[pid]
    ensures forall pid :: pid in Effect(db, w).payments && Effect(db, w).payments[pid].oid == oid ==>
      pid in db.payments && db.payments[pid].oid == oid
  {
  }

  // ----- One step of any run -----

  /** The step writes a status, or inserts a payment, where the two are bound to differ. */
  predicate Breaks(s: Sys, l: Label, oid: Id) {
    && Enabled(s, l) && l.Advance? && !l.input.fault.LostCall? && oid in s.db.orders
    && match s.threads[l.t]
       case PayInsert(_, o, gross, _) => o == oid && AmountStorable(gross) && !HasPayment(s.db, oid)
       case PayMark(_, r) => r.oid == oid && r.pid in s.db.payments && s.db.payments[r.pid].status.Settled?
       case CallWrite(r, v) => r.oid == oid && r.pid in s.db.payments && s.db.payments[r.pid].status != Settled(v)
       case CallAdvance(r, v) => r.oid == oid && r.pid in s.db.payments && s.db.payments[r.pid].status != Settled(v)
       case _ => false
  }

  /** The step writes the one status that fits the other row, or deletes the order. */
  predicate Mends(s: Sys, l: Label, oid: Id) {
    && Enabled(s, l) && oid in s.db.orders
    && match l
       case DeleteOrderBy(_, user, o, fault) => o == oid && Owns(s.db, user, oid) && !fault.LostCall?
       case Advance(t, input) =>
         !input.fault.LostCall? &&
         (match s.threads[t]
          case PayMark(_, r) => r.oid == oid && r.pid in s.db.payments && s.db.payments[r.pid].status.Unsettled?
          case CallWrite(r, v) => r.oid == oid && r.pid in s.db.payments && s.db.orders[oid].status == Image(v)
          case CallAdvance(r, v) => r.oid == oid && r.pid in s.db.payments && s.db.payments[r.pid].status == Settled(v)
          case _ => false)
       case _ => false
  }

  /** What a thread about to write knows of the order and its payment. */
  lemma Writer(s: Sys, payOf: PayOf, l: Label, oid: Id)
    requires Known(s) && Leads(s, payOf) && Enabled(s, l) && l.Advance? && oid in s.db.orders
    ensures var th := s.threads[l.t];
      (th.PayMark? || th.CallWrite? || th.CallAdvance?) && th.receipt.oid == oid ==>
        && oid in payOf && payOf[oid] == th.receipt.pid && th.receipt.pid in s.db.payments
        && s.db.payments[th.receipt.pid].oid == oid
        && (th.PayMark? ==> Owns(s.db, th.user, oid))
  {
    var th := s.threads[l.t];
    assert ThreadKnown(s.db, th) && ThreadLead(s.db, payOf, th) && OrderLed(s.db, payOf, oid);
  }

  lemma AdvanceAgrees(env: Env, s: Sys, payOf: PayOf, l: Label, oid: Id)
    requires Known(s) && Leads(s, payOf) && Enabled(s, l) && l.Advance? && oid in s.db.orders
    ensures InStep(Effect(s.db, WriteOf(env, s, l)), oid) <==>
      if InStep(s.db, oid) then !Breaks(s, l, oid) else Mends(s, l, oid)
  {
    var w := WriteOf(env, s, l);
    var th := s.threads[l.t];
    StepShape(env, s, l);
    WriteJustified(env, s, payOf, l);
    Writer(s, payOf, l, oid);
    InStepIs(s.db, payOf, oid);
    assert ThreadKnown(s.db, th);
    if !Concerns(s.db, w, oid) {
      OtherWritesKeep(s.db, w, oid);
    } else if w.NewPayment? {
      InsertDisagrees(s.db, payOf, w);
    } else if w.Mark? {
      MarkAgreesIff(s.db, payOf, w);
    } else if w.Decide? {
      DecideAgreesIff(s.db, payOf, w);
    } else {
      CloseAgreesIff(s.db, payOf, w);
    }
  }

  lemma StepAgreesIff(env: Env, s: Sys, payOf: PayOf, l: Label, oid: Id)
    requires Known(s) && Leads(s, payOf)
    ensures InStep(Apply(env, s, l).db, oid) <==>
      if InStep(s.db, oid) then !Breaks(s, l, oid) else Mends(s, l, oid)
  {
    var w := WriteOf(env, s, l);
    StepShape(env, s, l);
    if l.Advance? && Enabled(s, l) && oid in s.db.orders {
      AdvanceAgrees(env, s, payOf, l, oid);
    } else if !Concerns(s.db, w, oid) {
      OtherWritesKeep(s.db, w, oid);
    }
  }

  // ----- Main results -----

  /**
   In every run, an order in agreement with its payment stops being so exactly at one of four steps: its
   payment is inserted, a verdict other than the stored status is written to the payment, Create's mark lands
   after a verdict, or a callback's last write lands when its verdict is not the stored one.
   */
  lemma BreaksIff(env: Env, users: set<Id>, ls: seq<Label>, l: Label, oid: Id)
    requires InStep(Exec(env, Init(users), ls).db, oid)
    ensures var s := Exec(env, Init(users), ls); !InStep(Apply(env, s, l).db, oid) <==> Breaks(s, l, oid)
  {
    RunKnown(env, users, ls);
    RunLeads(env, users, ls);
    StepAgreesIff(env, Exec(env, Init(users), ls), HistOf(env, Init(users), NO_HISTORY, ls).payOf, l, oid);
  }

  /**
   ... and an order out of agreement comes back exactly at one of four steps: Create's mark with the payment
   pending, a verdict written to the payment that the order already shows, a callback's last write with the
   stored verdict, or the order's deletion.
   */
  lemma MendsIff(env: Env, users: set<Id>, ls: seq<Label>, l: Label, oid: Id)
    requires !InStep(Exec(env, Init(users), ls).db, oid)
    ensures var s := Exec(env, Init(users), ls); InStep(Apply(env, s, l).db, oid) <==> Mends(s, l, oid)
  {
    RunKnown(env, users, ls);
    RunLeads(env, users, ls);
    StepAgreesIff(env, Exec(env, Init(users), ls), HistOf(env, Init(users), NO_HISTORY, ls).payOf, l, oid);
  }
}
