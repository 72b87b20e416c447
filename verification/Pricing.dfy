/**
 Where amounts come from and how long they stay right. An amount is the rounded product of the order
 version its Create read; later updates of the order do not reach it. It is current exactly as long as the
 order's latest version rounds to the version read.
 */
module Pricing {
  import opened Domain
  import opened Money
  import opened Database
  import opened Protocol
  import opened Steps
  import opened Safety

  // ----- Price provenance -----

  predicate OfferedAt(db: Db, oid: Id, gross: int) {
    oid in db.orders && db.orders[oid].status == Pending && Gross(db.orders[oid]) == gross && gross > 0
  }

  /** The step is the read of a Create that goes on with this product of the order. */
  predicate Reads(env: Env, s: Sys, l: Label, oid: Id, gross: int) {
    && Enabled(s, l) && l.Advance? && s.threads[l.t].PayRead? && s.threads[l.t].oid == oid
    && OfferedAt(s.db, oid, gross) && NextThread(env, s.db, s.threads[l.t], l.input).PayDraw?
  }

  /** The step is the insert of a Create that stores this payment. */
  predicate Inserts(env: Env, s: Sys, l: Label, pid: Id) {
    && Enabled(s, l) && l.Advance? && s.threads[l.t].PayInsert? && l.input.newId == pid
    && pid in Apply(env, s, l).db.payments
  }

  predicate ReadsAt(env: Env, users: set<Id>, ls: seq<Label>, i: nat, t: Id, oid: Id, gross: int) {
    i < |ls| && ls[i].t == t && Reads(env, Exec(env, Init(users), ls[..i]), ls[i], oid, gross)
  }

  predicate InsertsAt(env: Env, users: set<Id>, ls: seq<Label>, j: nat, t: Id, pid: Id) {
    j < |ls| && ls[j].t == t && Inserts(env, Exec(env, Init(users), ls[..j]), ls[j], pid)
  }

  lemma ReadsLater(env: Env, users: set<Id>, ls: seq<Label>, l: Label, i: nat, t: Id, oid: Id, gross: int)
    requires ReadsAt(env, users, ls, i, t, oid, gross)
    ensures ReadsAt(env, users, ls + [l], i, t, oid, gross)
  {
    assert (ls + [l])[..i] == ls[..i];
  }

  lemma InsertsLater(env: Env, users: set<Id>, ls: seq<Label>, l: Label, j: nat, t: Id, pid: Id)
    requires InsertsAt(env, users, ls, j, t, pid)
    ensures InsertsAt(env, users, ls + [l], j, t, pid)
  {
    assert (ls + [l])[..j] == ls[..j];
  }

  ghost predicate WasRead(env: Env, users: set<Id>, ls: seq<Label>, t: Id, oid: Id, gross: int) {
    exists i: nat :: ReadsAt(env, users, ls, i, t, oid, gross)
  }

  ghost predicate ThreadPriced(env: Env, users: set<Id>, ls: seq<Label>, t: Id, th: Thread) {
    match th
    case PayDraw(_, oid, gross) => WasRead(env, users, ls, t, oid, gross)
    case PayInsert(_, oid, gross, _) => WasRead(env, users, ls, t, oid, gross)
    case _ => true
  }

  /** One thread read the product at label i and inserted the payment, with its rounded value, at label j. */
  predicate PricedBy(env: Env, users: set<Id>, ls: seq<Label>, pid: Id, p: Payment, t: Id, i: nat, j: nat, gross: int) {
    && i < j && p.amount == Rescale(gross)
    && ReadsAt(env, users, ls, i, t, p.oid, gross) && InsertsAt(env, users, ls, j, t, pid)
  }

  ghost predicate PaymentPriced(env: Env, users: set<Id>, ls: seq<Label>, pid: Id, p: Payment) {
    exists t: Id, i: nat, j: nat, gross: int :: PricedBy(env, users, ls, pid, p, t, i, j, gross)
  }

  ghost predicate Priced(env: Env, users: set<Id>, ls: seq<Label>) {
    var s := Exec(env, Init(users), ls);
    && (forall t :: t in s.threads ==> ThreadPriced(env, users, ls, t, s.threads[t]))
    && (forall pid :: pid in s.db.payments ==> PaymentPriced(env, users, ls, pid, s.db.payments[pid]))
  }

  lemma ThreadPricedLater(env: Env, users: set<Id>, ls: seq<Label>, l: Label, t: Id, th: Thread)
    requires ThreadPriced(env, users, ls, t, th)
    ensures ThreadPriced(env, users, ls + [l], t, th)
  {
    if th.PayDraw? || th.PayInsert? {
      var i: nat :| ReadsAt(env, users, ls, i, t, th.oid, th.gross);
      ReadsLater(env, users, ls, l, i, t, th.oid, th.gross);
    }
  }

  lemma OwnPriced(env: Env, users: set<Id>, ls: seq<Label>, l: Label)
    requires Enabled(Exec(env, Init(users), ls), l)
    requires var s := Exec(env, Init(users), ls); l.Advance? ==> ThreadPriced(env, users, ls, l.t, s.threads[l.t])
    ensures ThreadPriced(env, users, ls + [l], l.t, Moved(env, Exec(env, Init(users), ls), l))
  {
    var s := Exec(env, Init(users), ls);
    if l.Advance? {
      var th := s.threads[l.t];
      ThreadFollows(env, s.db, th, l.input);
      if th.PayRead? {
        assert (ls + [l])[..|ls|] == ls;
        var th' := Moved(env, s, l);
        if th'.PayDraw? { assert ReadsAt(env, users, ls + [l], |ls|, l.t, th.oid, th'.gross); }
      } else {
        ThreadPricedLater(env, users, ls, l, l.t, th);
      }
    }
  }

  lemma NewIsInserted(env: Env, s: Sys, l: Label, pid: Id)
    requires pid !in s.db.payments && pid in Apply(env, s, l).db.payments
    ensures Inserts(env, s, l, pid)
    ensures var th := s.threads[l.t]; var p := Apply(env, s, l).db.payments[pid];
      p.oid == th.oid && p.amount == Rescale(th.gross)
  {
    StepShape(env, s, l);
    assert WriteOf(env, s, l).NewPayment?;
  }

  lemma NewPriced(env: Env, users: set<Id>, ls: seq<Label>, l: Label, pid: Id)
    requires Priced(env, users, ls)
    requires pid !in Exec(env, Init(users), ls).db.payments
    requires pid in Apply(env, Exec(env, Init(users), ls), l).db.payments
    ensures PaymentPriced(env, users, ls + [l], pid, Apply(env, Exec(env, Init(users), ls), l).db.payments[pid])
  {
    var s := Exec(env, Init(users), ls);
    NewIsInserted(env, s, l, pid);
    var th := s.threads[l.t];
    assert ThreadPriced(env, users, ls, l.t, th);
    var i: nat :| ReadsAt(env, users, ls, i, l.t, th.oid, th.gross);
    ReadsLater(env, users, ls, l, i, l.t, th.oid, th.gross);
    assert (ls + [l])[..|ls|] == ls;
    assert InsertsAt(env, users, ls + [l], |ls|, l.t, pid);
    assert PricedBy(env, users, ls + [l], pid, Apply(env, s, l).db.payments[pid], l.t, i, |ls|, th.gross);
  }

  lemma OldPriced(env: Env, users: set<Id>, ls: seq<Label>, l: Label, pid: Id, p: Payment, p': Payment)
    requires PaymentPriced(env, users, ls, pid, p) && p'.oid == p.oid && p'.amount == p.amount
    ensures PaymentPriced(env, users, ls + [l], pid, p')
  {
    var t: Id, i: nat, j: nat, gross: int :| PricedBy(env, users, ls, pid, p, t, i, j, gross);
    ReadsLater(env, users, ls, l, i, t, p.oid, gross);
    InsertsLater(env, users, ls, l, j, t, pid);
    assert PricedBy(env, users, ls + [l], pid, p', t, i, j, gross);
  }

  lemma {:induction false} RunPriced(env: Env, users: set<Id>, ls: seq<Label>)
    ensures Priced(env, users, ls)
  {
    if ls != [] {
      var front := ls[..|ls| - 1];
      var l := ls[|ls| - 1];
      var s := Exec(env, Init(users), front);
      var s' := Exec(env, Init(users), ls);
      assert front + [l] == ls;
      RunPriced(env, users, front);
      RunKnown(env, users, front);
      StepShape(env, s, l);
      StepKnown(env, s, l);
      forall t | t in s'.threads ensures ThreadPriced(env, users, ls, t, s'.threads[t]) {
        if Enabled(s, l) && t == l.t {
          OwnPriced(env, users, front, l);
        } else {
          ThreadPricedLater(env, users, front, l, t, s.threads[t]);
        }
      }
      forall pid | pid in s'.db.payments ensures PaymentPriced(env, users, ls, pid, s'.db.payments[pid]) {
        if pid in s.db.payments {
          OldPriced(env, users, front, l, pid, s.db.payments[pid], s'.db.payments[pid]);
        } else {
          NewPriced(env, users, front, l, pid);
        }
      }
    }
  }

  /**
   Each stored amount is the rounded product of quantity and price of one earlier version of the same
   order: the version, payable at that time, that the very request that inserted the payment had read.
   */
  lemma PriceProvenance(env: Env, users: set<Id>, ls: seq<Label>, pid: Id)
    requires pid in Exec(env, Init(users), ls).db.payments
    ensures var p := Exec(env, Init(users), ls).db.payments[pid];
      exists t: Id, i: nat, j: nat, gross: int :: PricedBy(env, users, ls, pid, p, t, i, j, gross)
  {
    RunPriced(env, users, ls);
    assert PaymentPriced(env, users, ls, pid, Exec(env, Init(users), ls).db.payments[pid]);
  }

  /** ... and no later order update, callback or failure changes it. */
  lemma PaymentImmutable(env: Env, users: set<Id>, ls: seq<Label>, more: seq<Label>, pid: Id)
    requires pid in Exec(env, Init(users), ls).db.payments && pid in Exec(env, Init(users), ls + more).db.payments
    ensures var p := Exec(env, Init(users), ls).db.payments[pid];
      var q := Exec(env, Init(users), ls + more).db.payments[pid];
      p.oid == q.oid && p.reference == q.reference && p.amount == q.amount
  {
    RunKnown(env, users, ls);
    RunGrows(env, users, ls, more);
    var p := Exec(env, Init(users), ls).db.payments[pid];
    var q := Exec(env, Init(users), ls + more).db.payments[pid];
    assert p.(status := Unsettled) == q.(status := Unsettled);
  }

  // ----- Exactly when an amount is current -----

  /** The amount is that of the order as it is now. */
  predicate Current(db: Db, pid: Id)
    requires pid in db.payments && db.payments[pid].oid in db.orders
  {
    db.payments[pid].amount == Rescale(Gross(db.orders[db.payments[pid].oid]))
  }

  function Product(req: OrderRequest): int {
    ToUnits(req.quantity) * ToUnits(req.price)
  }

  /** The step is an update that reaches the order. */
  predicate Edits(env: Env, s: Sys, l: Label, oid: Id) {
    && Enabled(s, l) && l.UpdateOrderBy? && l.oid == oid && !l.fault.LostCall?
    && Validate(env.upper, l.req).None? && UpdateOrder(s.db, l.user, oid, l.req).Ok?
  }

  /** An order's product changes only through such an update. */
  lemma GrossStep(env: Env, s: Sys, l: Label, oid: Id)
    requires Known(s) && oid in s.db.orders && oid in Apply(env, s, l).db.orders
    ensures Gross(Apply(env, s, l).db.orders[oid]) ==
      if Edits(env, s, l, oid) then Product(l.req) else Gross(s.db.orders[oid])
  {
    StepShape(env, s, l);
  }

  /** A step makes a current amount stale exactly if it is an accepted update to a version that rounds differently. */
  lemma BecomesStaleIff(env: Env, s: Sys, l: Label, pid: Id)
    requires Known(s) && pid in s.db.payments && pid in Apply(env, s, l).db.payments && Current(s.db, pid)
    ensures var db' := Apply(env, s, l).db; var p := s.db.payments[pid];
      && db'.payments[pid].oid in db'.orders
      && (!Current(db', pid) <==> Edits(env, s, l, p.oid) && Rescale(Product(l.req)) != p.amount)
  {
    StepKnown(env, s, l);
    GrossStep(env, s, l, s.db.payments[pid].oid);
  }

  /** The insert stores a current amount exactly if the order still rounds to the version that was read. */
  lemma InsertIsCurrentIff(env: Env, s: Sys, l: Label, pid: Id)
    requires Known(s) && Inserts(env, s, l, pid)
    ensures var db' := Apply(env, s, l).db; var th := s.threads[l.t];
      && db'.payments[pid].oid == th.oid && th.oid in s.db.orders && th.oid in db'.orders
      && (Current(db', pid) <==> Rescale(Gross(s.db.orders[th.oid])) == Rescale(th.gross))
  {
    StepShape(env, s, l);
    assert pid !in s.db.payments;
  }

  /** The product of the latest update that reached the order along some labels, or the given one if none did. */
  function Latest(env: Env, s: Sys, more: seq<Label>, oid: Id, gross: int): int {
    if more == [] then gross
    else
      var front := more[..|more| - 1];
      var l := more[|more| - 1];
      if Edits(env, Exec(env, s, front), l, oid) then Product(l.req) else Latest(env, s, front, oid, gross)
  }

  lemma {:induction false} LatestIs(env: Env, s: Sys, more: seq<Label>, oid: Id)
    requires Known(s) && oid in s.db.orders
    ensures var s' := Exec(env, s, more);
      && Known(s') && oid in s'.db.used
      && (oid in s'.db.orders ==> Gross(s'.db.orders[oid]) == Latest(env, s, more, oid, Gross(s.db.orders[oid])))
  {
    if more != [] {
      var front := more[..|more| - 1];
      var l := more[|more| - 1];
      LatestIs(env, s, front, oid);
      StepKnown(env, Exec(env, s, front), l);
      if oid in Exec(env, s, more).db.orders { GrossStep(env, Exec(env, s, front), l, oid); }
    }
  }

  /**
   Over whole runs: at the end an amount is the order's current product exactly if the latest update that
   reached the order since the inserting request read it, if any, rounds to the version read.
   */
  lemma CurrentIff(env: Env, users: set<Id>, ls: seq<Label>, pid: Id)
    requires pid in Exec(env, Init(users), ls).db.payments
    ensures var db := Exec(env, Init(users), ls).db; var p := db.payments[pid];
      && p.oid in db.orders
      && exists t: Id, i: nat, j: nat, gross: int :: PricedBy(env, users, ls, pid, p, t, i, j, gross)
           && (Current(db, pid) <==>
                 Rescale(Latest(env, Exec(env, Init(users), ls[..i]), ls[i..], p.oid, gross)) == Rescale(gross))
  {
    var db := Exec(env, Init(users), ls).db;
    var p := db.payments[pid];
    PriceProvenance(env, users, ls, pid);
    var t: Id, i: nat, j: nat, gross: int :| PricedBy(env, users, ls, pid, p, t, i, j, gross);
    CurrentSince(env, users, ls, pid, t, i, j, gross);
  }

  lemma CurrentSince(env: Env, users: set<Id>, ls: seq<Label>, pid: Id, t: Id, i: nat, j: nat, gross: int)
    requires pid in Exec(env, Init(users), ls).db.payments
    requires PricedBy(env, users, ls, pid, Exec(env, Init(users), ls).db.payments[pid], t, i, j, gross)
    ensures var db := Exec(env, Init(users), ls).db; var p := db.payments[pid];
      && p.oid in db.orders
      && (Current(db, pid) <==>
            Rescale(Latest(env, Exec(env, Init(users), ls[..i]), ls[i..], p.oid, gross)) == Rescale(gross))
  {
    var s := Exec(env, Init(users), ls[..i]);
    var p := Exec(env, Init(users), ls).db.payments[pid];
    RunKnown(env, users, ls);
    assert ls[..i] + ls[i..] == ls;
    ExecAppend(env, Init(users), ls[..i], ls[i..]);
    RunKnown(env, users, ls[..i]);
    LatestIs(env, s, ls[i..], p.oid);
  }
}
