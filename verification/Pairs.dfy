/**
 Which (payment, order) status pairs can occur. Serial runs with faults and crashes reach exactly nine of
 the sixteen; arbitrary interleaving adds exactly two, where both verdicts were written crosswise.
 */
module Pairs {
  import opened Domain
  import opened Database
  import opened Protocol
  import opened History
  import opened Steps
  import opened Safety
  import opened Lead
  import opened Serial

  /** The payment status of an order, if it has a payment, and the order's own status. */
  datatype Pair = Pair(payment: Option<PaymentStatus>, order: OrderStatus)

  ghost function PairOf(db: Db, oid: Id): Pair
    requires oid in db.orders
  {
    var pid := PaymentOf(db, oid);
    Pair(if pid.Some? then Some(db.payments[pid.value].status) else None, db.orders[oid].status)
  }

  const NINE: set<Pair> := {
    Pair(None, Pending),
    Pair(Some(Unsettled), Pending), Pair(Some(Unsettled), PendingPayment),
    Pair(Some(Settled(VPaid)), Pending), Pair(Some(Settled(VPaid)), PendingPayment), Pair(Some(Settled(VPaid)), Paid),
    Pair(Some(Settled(VFailed)), Pending), Pair(Some(Settled(VFailed)), PendingPayment),
    Pair(Some(Settled(VFailed)), PaymentFailed)
  }

  const CROSSED: set<Pair> := { Pair(Some(Settled(VPaid)), PaymentFailed), Pair(Some(Settled(VFailed)), Paid) }

  predicate Arrives(l: Label) {
    !l.Advance? && !l.Crash?
  }

  predicate Quiet(s: Sys) {
    forall t :: t in s.threads ==> s.threads[t].Done?
  }

  /** A request arrives only when every earlier one is over; faults and crashes are free. */
  predicate SerialRun(env: Env, s: Sys, ls: seq<Label>) {
    forall i :: 0 <= i < |ls| && Arrives(ls[i]) ==> Quiet(Exec(env, s, ls[..i]))
  }

  // ----- Only these pairs -----

  ghost predicate PairOk(db: Db, payOf: PayOf, oid: Id) {
    oid in db.orders ==>
      var st := db.orders[oid].status;
      if oid !in payOf then st == Pending
      else
        && payOf[oid] in db.payments
        && (st == Pending || st == PendingPayment
            || (db.payments[payOf[oid]].status.Settled? && st == Image(db.payments[payOf[oid]].status.verdict)))
  }

  /** What the one running thread still has right to assume about its payment. */
  ghost predicate RunningOk(db: Db, th: Thread) {
    match th
    case PayMark(_, r) => r.pid in db.payments ==> db.payments[r.pid].status == Unsettled
    case CallWrite(r, _) => r.pid in db.payments ==> db.payments[r.pid].status == Unsettled
    case CallAdvance(r, v) => r.pid in db.payments ==> db.payments[r.pid].status == Settled(v)
    case _ => true
  }

  ghost predicate SerialOk(s: Sys, payOf: PayOf) {
    && (forall oid :: PairOk(s.db, payOf, oid))
    && (forall t :: t in s.threads ==> RunningOk(s.db, s.threads[t]))
    && (forall t, u :: Live(s, t) && Live(s, u) ==> t == u)
  }

  lemma OwnRunningOk(env: Env, db: Db, th: Thread, input: Input)
    requires RowsKnown(db) && ThreadKnown(db, th) && RunningOk(db, th) && Fresh(db, ThreadWrite(th, input))
    ensures RunningOk(Effect(db, ThreadWrite(th, input)), NextThread(env, db, th, input))
  {
    ThreadFollows(env, db, th, input);
  }

  lemma PairStep(db: Db, payOf: PayOf, th: Thread, w: Write, oid: Id)
    requires RowsKnown(db) && RowsLead(db, payOf) && Fresh(db, w) && PairOk(db, payOf, oid)
    requires RunningOk(db, th) && ThreadLead(db, payOf, th) && ThreadKnown(db, th)
    requires w.Mark? ==> th.PayMark? && w.oid == th.receipt.oid
    requires w.Decide? ==> th.CallWrite? && w.pid == th.receipt.pid && w.verdict == th.verdict
    requires w.Close? ==> th.CallAdvance? && w.oid == th.receipt.oid && w.verdict == th.verdict
    ensures PairOk(Effect(db, w), Extended(db, payOf, w), oid)
  {
    assert OrderLed(db, payOf, oid);
    if w.NewPayment? && Attempt(db, w).Ok? { NoSecondCharge(db, payOf, w); }
  }

  lemma PairsStep(env: Env, s: Sys, payOf: PayOf, l: Label)
    requires Known(s) && Leads(s, payOf) && SerialOk(s, payOf) && Enabled(s, l)
    ensures var w := WriteOf(env, s, l); forall oid :: PairOk(Effect(s.db, w), Extended(s.db, payOf, w), oid)
  {
    var w := WriteOf(env, s, l);
    var th := if l.Advance? then s.threads[l.t] else Done(None, Halted);
    StepShape(env, s, l);
    assert ThreadLead(s.db, payOf, th) && ThreadKnown(s.db, th) && RunningOk(s.db, th);
    forall oid ensures PairOk(Effect(s.db, w), Extended(s.db, payOf, w), oid) {
      PairStep(s.db, payOf, th, w, oid);
    }
  }

  lemma StepSerialOk(env: Env, s: Sys, h: Hist, l: Label)
    requires Known(s) && Leads(s, h.payOf) && SerialOk(s, h.payOf) && (Arrives(l) ==> Quiet(s))
    ensures SerialOk(Apply(env, s, l), Track(env, h, s, l).payOf)
  {
    var s' := Apply(env, s, l);
    var w := WriteOf(env, s, l);
    StepShape(env, s, l);
    TrackExtends(h, s, l, w);
    if Enabled(s, l) {
      var th := if l.Advance? then s.threads[l.t] else Done(None, Halted);
      PairsStep(env, s, h.payOf, l);
      forall t | t in s'.threads ensures RunningOk(s'.db, s'.threads[t]) {
        if t == l.t {
          if l.Advance? { OwnRunningOk(env, s.db, th, l.input); }
        } else {
          assert !Arrives(l) ==> Live(s, l.t);
          assert !Live(s, t);
        }
      }
      OneStaysLive(s, l, s');
    }
  }

  /** Requests arrive only when nothing runs, so at most one thread is ever running. */
  lemma OneStaysLive(s: Sys, l: Label, s': Sys)
    requires Enabled(s, l) && (Arrives(l) ==> Quiet(s)) && (forall t, u :: Live(s, t) && Live(s, u) ==> t == u)
    requires l.t in s'.threads && s'.threads == s.threads[l.t := s'.threads[l.t]]
    ensures forall t, u :: Live(s', t) && Live(s', u) ==> t == u
  {
    forall t, u | Live(s', t) && Live(s', u) ensures t == u {
      assert t != l.t ==> Live(s, t);
      assert u != l.t ==> Live(s, u);
      assert !Arrives(l) ==> Live(s, l.t);
    }
  }

  lemma {:induction false} RunSerialOk(env: Env, users: set<Id>, ls: seq<Label>)
    requires SerialRun(env, Init(users), ls)
    ensures SerialOk(Exec(env, Init(users), ls), HistOf(env, Init(users), NO_HISTORY, ls).payOf)
  {
    if ls != [] {
      var front := ls[..|ls| - 1];
      assert forall i :: 0 <= i <= |front| ==> front[..i] == ls[..i];
      RunSerialOk(env, users, front);
      RunKnown(env, users, front);
      RunLeads(env, users, front);
      StepSerialOk(env, Exec(env, Init(users), front), HistOf(env, Init(users), NO_HISTORY, front), ls[|ls| - 1]);
    }
  }

  /** The payment recorded for an order is the one it has. */
  lemma RecordedPayment(db: Db, payOf: PayOf, oid: Id)
    requires RowsKnown(db) && RowsLead(db, payOf) && oid in db.orders
    ensures PaymentOf(db, oid) == if oid in payOf then Some(payOf[oid]) else None
  {
    assert OrderLed(db, payOf, oid);
    var pick := PaymentOf(db, oid);
    if pick.Some? { assert PaymentLed(db, payOf, pick.value); }
  }

  /** An order is at most where its payment allows. */
  predicate Behind(p: Pair) {
    match p.payment
    case None => p.order == Pending
    case Some(Unsettled) => p.order == Pending || p.order == PendingPayment
    case Some(Settled(v)) => p.order == Pending || p.order == PendingPayment || p.order == Image(v)
  }

  lemma NineAreBehind(p: Pair)
    ensures p in NINE <==> Behind(p)
    ensures p in NINE + CROSSED <==> Behind(p) || (p.payment.Some? && p.payment.value.Settled?)
  {
    match p.payment {
      case None =>
      case Some(Unsettled) =>
      case Some(Settled(v)) => assert v == VPaid || v == VFailed;
    }
  }

  /** Serial runs, whatever fails in them, stay within the nine pairs, also between the calls of a request. */
  lemma SerialPairs(env: Env, users: set<Id>, ls: seq<Label>, oid: Id)
    requires SerialRun(env, Init(users), ls) && oid in Exec(env, Init(users), ls).db.orders
    ensures PairOf(Exec(env, Init(users), ls).db, oid) in NINE
  {
    var db := Exec(env, Init(users), ls).db;
    var payOf := HistOf(env, Init(users), NO_HISTORY, ls).payOf;
    RunSerialOk(env, users, ls);
    RunKnown(env, users, ls);
    RunLeads(env, users, ls);
    RecordedPayment(db, payOf, oid);
    assert PairOk(db, payOf, oid) && OrderLed(db, payOf, oid);
    NineAreBehind(PairOf(db, oid));
  }

  /** Interleaving adds at most the two crossed pairs. */
  lemma InterleavedPairs(env: Env, users: set<Id>, ls: seq<Label>, oid: Id)
    requires oid in Exec(env, Init(users), ls).db.orders
    ensures PairOf(Exec(env, Init(users), ls).db, oid) in NINE + CROSSED
  {
    var db := Exec(env, Init(users), ls).db;
    var payOf := HistOf(env, Init(users), NO_HISTORY, ls).payOf;
    RunKnown(env, users, ls);
    RunLeads(env, users, ls);
    RecordedPayment(db, payOf, oid);
    assert OrderLed(db, payOf, oid);
    NineAreBehind(PairOf(db, oid));
  }
}
