/**
 The order never runs ahead of its payment, and no order is ever charged twice: both hold under every
 interleaving, with faults and crashes anywhere.
 */
module Lead {
  import opened Domain
  import opened Database
  import opened Protocol
  import opened History
  import opened Steps
  import opened Safety

  type PayOf = map<Id, Id>

  ghost predicate Recorded(payOf: PayOf, r: Receipt) {
    r.oid in payOf && payOf[r.oid] == r.pid
  }

  ghost predicate SettledFor(db: Db, payOf: PayOf, oid: Id) {
    oid in payOf && payOf[oid] in db.payments && db.payments[payOf[oid]].status.Settled?
  }

  /** One order: it has left "pending" only with a payment, and is closed only with a settled one. */
  ghost predicate OrderLed(db: Db, payOf: PayOf, oid: Id) {
    oid in db.orders ==>
      && (oid in payOf ==> payOf[oid] in db.payments && db.payments[payOf[oid]].oid == oid)
      && (db.orders[oid].status != Pending ==> oid in payOf)
      && (Rank(db.orders[oid].status) == 2 ==> SettledFor(db, payOf, oid))
  }

  ghost predicate PaymentLed(db: Db, payOf: PayOf, pid: Id) {
    pid in db.payments ==> db.payments[pid].oid in payOf && payOf[db.payments[pid].oid] == pid
  }

  ghost predicate RowsLead(db: Db, payOf: PayOf) {
    && (forall oid :: oid in payOf ==> oid in db.used && payOf[oid] in db.used)
    && (forall pid :: PaymentLed(db, payOf, pid))
    && (forall oid :: OrderLed(db, payOf, oid))
  }

  ghost predicate ThreadLead(db: Db, payOf: PayOf, th: Thread) {
    match th
    case PayMark(_, r) => Recorded(payOf, r)
    case CallWrite(r, _) => Recorded(payOf, r)
    case CallAdvance(r, _) => Recorded(payOf, r) && (r.oid in db.orders ==> SettledFor(db, payOf, r.oid))
    case _ => true
  }

  ghost predicate Leads(s: Sys, payOf: PayOf) {
    RowsLead(s.db, payOf) && forall t :: t in s.threads ==> ThreadLead(s.db, payOf, s.threads[t])
  }

  /** What the protocol guarantees about the status writes it issues. */
  ghost predicate Justified(db: Db, payOf: PayOf, w: Write) {
    match w
    case Mark(_, oid) => oid in payOf
    case Close(oid, _) => oid in db.orders ==> SettledFor(db, payOf, oid)
    case _ => true
  }

  /** The record of insertions moves exactly when a payment is inserted. */
  ghost function Extended(db: Db, payOf: PayOf, w: Write): PayOf {
    if w.NewPayment? && Attempt(db, w).Ok? then payOf[w.oid := w.pid] else payOf
  }

  lemma TrackExtends(h: Hist, s: Sys, l: Label, w: Write)
    ensures TrackBy(h, s, l, w).payOf == Extended(s.db, h.payOf, w)
  {
  }

  lemma OrderStepLed(db: Db, payOf: PayOf, w: Write, oid: Id)
    requires RowsKnown(db) && Fresh(db, w) && Justified(db, payOf, w)
    requires w.NewOrder? || w.EditOrder? || w.Mark? || w.Close?
    requires oid in payOf ==> oid in db.used
    requires OrderLed(db, payOf, oid)
    ensures OrderLed(Effect(db, w), payOf, oid)
  {
    assert Effect(db, w).payments == db.payments;
  }

  lemma PaymentStepLed(db: Db, payOf: PayOf, w: Write, oid: Id)
    requires RowsKnown(db) && Fresh(db, w)
    requires w.NewPayment? || w.Decide?
    requires OrderLed(db, payOf, oid)
    ensures OrderLed(Effect(db, w), Extended(db, payOf, w), oid)
  {
    assert Effect(db, w).orders == db.orders;
  }

  lemma DropStepLed(db: Db, payOf: PayOf, w: Write, oid: Id)
    requires w.DropOrder? && OrderLed(db, payOf, oid)
    ensures OrderLed(Effect(db, w), payOf, oid)
  {
  }

  lemma EffectLeads(db: Db, payOf: PayOf, w: Write)
    requires RowsKnown(db) && RowsLead(db, payOf) && Fresh(db, w) && Justified(db, payOf, w)
    ensures RowsLead(Effect(db, w), Extended(db, payOf, w))
  {
    var db' := Effect(db, w);
    var payOf' := Extended(db, payOf, w);
    forall oid ensures OrderLed(db', payOf', oid) {
      assert OrderLed(db, payOf, oid);
      match w {
        case DropOrder(_, _) => DropStepLed(db, payOf, w, oid);
        case NewPayment(_, _, _, _) => PaymentStepLed(db, payOf, w, oid);
        case Decide(_, _) => PaymentStepLed(db, payOf, w, oid);
        case NoWrite =>
        case Reserve(_) =>
        case NewUpload(_, _) =>
        case _ => OrderStepLed(db, payOf, w, oid);
      }
    }
    forall pid ensures PaymentLed(db', payOf', pid) {
      assert PaymentLed(db, payOf, pid);
      if w.NewPayment? && Attempt(db, w).Ok? { NoSecondCharge(db, payOf, w); }
    }
    EffectGrows(db, w);
    forall oid | oid in payOf' ensures oid in db'.used && payOf'[oid] in db'.used {
      if oid !in payOf { assert oid in db.orders; }
    }
  }

  /** The unique index admits an insertion only for an order never charged before. */
  lemma NoSecondCharge(db: Db, payOf: PayOf, w: Write)
    requires RowsLead(db, payOf) && w.NewPayment? && Attempt(db, w).Ok?
    ensures w.oid !in payOf
  {
    assert OrderLed(db, payOf, w.oid);
  }

  lemma FrameLead(db: Db, payOf: PayOf, w: Write, th: Thread)
    requires RowsKnown(db) && RowsLead(db, payOf) && ThreadKnown(db, th) && ThreadLead(db, payOf, th)
    requires Fresh(db, w)
    ensures ThreadLead(Effect(db, w), Extended(db, payOf, w), th)
  {
    if w.NewPayment? && Attempt(db, w).Ok? { NoSecondCharge(db, payOf, w); }
  }

  lemma OwnLead(env: Env, db: Db, payOf: PayOf, th: Thread, input: Input, th': Thread)
    requires RowsKnown(db) && RowsLead(db, payOf) && ThreadKnown(db, th) && ThreadLead(db, payOf, th)
    requires Follows(env, db, th, input, th') && Fresh(db, ThreadWrite(th, input))
    ensures ThreadLead(Effect(db, ThreadWrite(th, input)), Extended(db, payOf, ThreadWrite(th, input)), th')
  {
    FrameLead(db, payOf, ThreadWrite(th, input), th);
    if th.CallRead? && th'.CallWrite? { assert PaymentLed(db, payOf, th'.receipt.pid); }
  }

  lemma WriteJustified(env: Env, s: Sys, payOf: PayOf, l: Label)
    requires Leads(s, payOf)
    ensures Justified(s.db, payOf, WriteOf(env, s, l))
  {
    if Enabled(s, l) && l.Advance? { assert ThreadLead(s.db, payOf, s.threads[l.t]); }
  }

  lemma StepLeads(env: Env, s: Sys, h: Hist, l: Label)
    requires Known(s) && Leads(s, h.payOf)
    ensures Leads(Apply(env, s, l), Track(env, h, s, l).payOf)
  {
    var s' := Apply(env, s, l);
    var w := WriteOf(env, s, l);
    var payOf' := Extended(s.db, h.payOf, w);
    StepShape(env, s, l);
    TrackExtends(h, s, l, w);
    if Enabled(s, l) { StepFollows(env, s, l); }
    WriteJustified(env, s, h.payOf, l);
    EffectLeads(s.db, h.payOf, w);
    forall t | t in s'.threads ensures ThreadLead(s'.db, payOf', s'.threads[t]) {
      if Enabled(s, l) && t == l.t {
        if l.Advance? { OwnLead(env, s.db, h.payOf, s.threads[t], l.input, s'.threads[t]); }
      } else {
        FrameLead(s.db, h.payOf, w, s.threads[t]);
      }
    }
  }

  lemma {:induction false} RunLeads(env: Env, users: set<Id>, ls: seq<Label>)
    ensures Leads(Exec(env, Init(users), ls), HistOf(env, Init(users), NO_HISTORY, ls).payOf)
  {
    if ls != [] {
      var front := ls[..|ls| - 1];
      RunLeads(env, users, front);
      RunKnown(env, users, front);
      StepLeads(env, Exec(env, Init(users), front), HistOf(env, Init(users), NO_HISTORY, front), ls[|ls| - 1]);
    }
  }

  // ----- Main results -----

  /**
   Whatever interleaves and whatever fails, an order that left "pending" has a payment, and a closed one a settled
   payment.
   */
  lemma NeverAhead(env: Env, users: set<Id>, ls: seq<Label>, oid: Id)
    requires oid in Exec(env, Init(users), ls).db.orders
    ensures var db := Exec(env, Init(users), ls).db;
      && (db.orders[oid].status != Pending ==> exists pid :: pid in db.payments && db.payments[pid].oid == oid)
      && (db.orders[oid].status == Paid || db.orders[oid].status == PaymentFailed ==>
            exists pid :: pid in db.payments && db.payments[pid].oid == oid && db.payments[pid].status.Settled?)
  {
    RunLeads(env, users, ls);
    var payOf := HistOf(env, Init(users), NO_HISTORY, ls).payOf;
    assert OrderLed(Exec(env, Init(users), ls).db, payOf, oid);
  }

  /** Neither status ever returns to "pending" in a step. */
  lemma EffectNeverBack(db: Db, w: Write)
    requires RowsKnown(db) && Fresh(db, w)
    ensures forall oid :: oid in db.orders && oid in Effect(db, w).orders && db.orders[oid].status != Pending ==>
              Effect(db, w).orders[oid].status != Pending
    ensures forall pid :: pid in db.payments && pid in Effect(db, w).payments && db.payments[pid].status.Settled? ==>
              Effect(db, w).payments[pid].status.Settled?
  {
  }

  /** Over any stretch of any run, no status returns to "pending", and no deleted order or payment reappears. */
  lemma {:induction false} NeverBack(env: Env, users: set<Id>, ls: seq<Label>, more: seq<Label>)
    ensures var db := Exec(env, Init(users), ls).db; var db' := Exec(env, Init(users), ls + more).db;
      && db.used <= db'.used
      && (forall oid :: oid in db.used && oid in db'.orders ==>
            oid in db.orders && (db.orders[oid].status != Pending ==> db'.orders[oid].status != Pending))
      && (forall pid :: pid in db.used && pid in db'.payments ==>
            pid in db.payments && (db.payments[pid].status.Settled? ==> db'.payments[pid].status.Settled?))
  {
    if more == [] {
      assert ls + more == ls;
    } else {
      var front := more[..|more| - 1];
      var l := more[|more| - 1];
      assert (ls + more)[..|ls + more| - 1] == ls + front;
      var mid := Exec(env, Init(users), ls + front);
      NeverBack(env, users, ls, front);
      RunKnown(env, users, ls + front);
      StepKnown(env, mid, l);
      StepShape(env, mid, l);
      EffectNeverBack(mid.db, WriteOf(env, mid, l));
    }
  }

  /** The payments of one order that a step adds. */
  function NewPayments(db: Db, db': Db, oid: Id): set<Id> {
    set pid | pid in db'.payments && pid !in db.payments && db'.payments[pid].oid == oid
  }

  /** How many payments were inserted for an order along a run, deleted ones included. */
  function Insertions(env: Env, s: Sys, ls: seq<Label>, oid: Id): nat {
    if ls == [] then 0
    else
      var front := ls[..|ls| - 1];
      Insertions(env, s, front, oid) + |NewPayments(Exec(env, s, front).db, Exec(env, s, ls).db, oid)|
  }

  /** How many times a thread reached the "pending_payment" write for an order. */
  function Markers(env: Env, s: Sys, ls: seq<Label>, oid: Id): nat {
    if ls == [] then 0
    else
      var front := ls[..|ls| - 1];
      Markers(env, s, front, oid) + if EntersMark(env, Exec(env, s, front), ls[|ls| - 1], oid) then 1 else 0
  }

  predicate EntersMark(env: Env, s: Sys, l: Label, oid: Id) {
    && Enabled(s, l) && l.Advance? && !s.threads[l.t].PayMark?
    && var s' := Apply(env, s, l);
       l.t in s'.threads && s'.threads[l.t].PayMark? && s'.threads[l.t].receipt.oid == oid
  }

  lemma EffectInsertions(db: Db, payOf: PayOf, w: Write, oid: Id)
    requires RowsKnown(db) && RowsLead(db, payOf) && Fresh(db, w)
    ensures |NewPayments(db, Effect(db, w), oid)| ==
              (if oid in Extended(db, payOf, w) then 1 else 0) - (if oid in payOf then 1 else 0)
  {
    var added := NewPayments(db, Effect(db, w), oid);
    if w.NewPayment? && Attempt(db, w).Ok? && w.oid == oid {
      NoSecondCharge(db, payOf, w);
      assert added == {w.pid};
    } else {
      assert added == {};
    }
  }

  lemma {:induction false} CountInsertions(env: Env, users: set<Id>, ls: seq<Label>, oid: Id)
    ensures Insertions(env, Init(users), ls, oid) ==
      if oid in HistOf(env, Init(users), NO_HISTORY, ls).payOf then 1 else 0
    ensures Markers(env, Init(users), ls, oid) <= Insertions(env, Init(users), ls, oid)
  {
    if ls != [] {
      var front := ls[..|ls| - 1];
      var l := ls[|ls| - 1];
      var s := Exec(env, Init(users), front);
      var h := HistOf(env, Init(users), NO_HISTORY, front);
      CountInsertions(env, users, front, oid);
      RunKnown(env, users, front);
      RunLeads(env, users, front);
      var w := WriteOf(env, s, l);
      StepShape(env, s, l);
      TrackExtends(h, s, l, w);
      EffectInsertions(s.db, h.payOf, w, oid);
      if EntersMark(env, s, l, oid) {
        StepFollows(env, s, l);
        NoSecondCharge(s.db, h.payOf, w);
      }
    }
  }

  /**
   However many Create requests race past the payable check, and whatever fails, at most one payment is
   ever inserted for an order, and at most one request ever reaches its "pending_payment" write.
   */
  lemma ChargedAtMostOnce(env: Env, users: set<Id>, ls: seq<Label>, oid: Id)
    ensures Insertions(env, Init(users), ls, oid) <= 1
    ensures Markers(env, Init(users), ls, oid) <= 1
  {
    CountInsertions(env, users, ls, oid);
  }
}
