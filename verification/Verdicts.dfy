/**
 Serial fault-free callbacks: the first valid verdict for a reference decides its payment and order, and
 callbacks for different references commute. Both follow from a closed form of the final tables.
 */
module Verdicts {
  import opened Domain
  import opened Database
  import opened Safety
  import opened Drawing
  import opened Serial

  /** A verified provider message. */
  datatype Notice = Notice(reference: string, status: string)

  ghost function Handle(db: Db, n: Notice): (Db, Result<Receipt>) {
    Callback(db, Lookup(db, n.reference), n.status, CALL_CLEAN)
  }

  /** The tables after all notices, in order. */
  ghost function Deliver(db: Db, ns: seq<Notice>): Db {
    if ns == [] then db else Handle(Deliver(db, ns[..|ns| - 1]), ns[|ns| - 1]).0
  }

  /** The statuses sent for one reference, in order. */
  function For(ns: seq<Notice>, reference: string): seq<string> {
    if ns == [] then []
    else For(ns[..|ns| - 1], reference) + if ns[|ns| - 1].reference == reference then [ns[|ns| - 1].status] else []
  }

  /** The first acceptable verdict among some statuses. */
  function First(statuses: seq<string>): Option<Verdict> {
    if statuses == [] then None
    else
      var f := First(statuses[..|statuses| - 1]);
      if f.Some? then f else ParseVerdict(statuses[|statuses| - 1])
  }

  /** What decides a payment: its verdict if it has one, else the first acceptable one sent. */
  function Winner(p: Payment, ns: seq<Notice>): Option<Verdict> {
    match p.status
    case Settled(v) => Some(v)
    case Unsettled => First(For(ns, p.reference))
  }

  function FinalPayment(p: Payment, ns: seq<Notice>): Payment {
    if Winner(p, ns).Some? then p.(status := Settled(Winner(p, ns).value)) else p
  }

  /** An order follows its payment if the payment was still open. */
  ghost function FinalOrder(db: Db, oid: Id, ns: seq<Notice>): Order
    requires oid in db.orders
  {
    match PaymentOf(db, oid)
    case None => db.orders[oid]
    case Some(pid) =>
      if db.payments[pid].status.Unsettled? && Winner(db.payments[pid], ns).Some?
      then db.orders[oid].(status := Image(Winner(db.payments[pid], ns).value))
      else db.orders[oid]
  }

  /** The closed form: each row depends only on the notices for its own reference. */
  ghost function Final(db: Db, ns: seq<Notice>): Db {
    db.(payments := map pid | pid in db.payments :: FinalPayment(db.payments[pid], ns),
        orders := map oid | oid in db.orders :: FinalOrder(db, oid, ns))
  }

  lemma FinalNothing(db: Db)
    ensures Final(db, []) == db
  {
    assert Final(db, []).payments == db.payments;
    assert Final(db, []).orders == db.orders;
  }

  lemma FinalKnown(db: Db, ns: seq<Notice>)
    requires RowsKnown(db)
    ensures RowsKnown(Final(db, ns))
  {
  }

  lemma FinalReferences(db: Db, ns: seq<Notice>)
    requires DistinctReferences(db)
    ensures DistinctReferences(Final(db, ns))
  {
  }

  lemma FinalLookup(db: Db, ns: seq<Notice>, reference: string)
    requires DistinctReferences(db)
    ensures Lookup(Final(db, ns), reference) == Lookup(db, reference)
  {
    var d := Final(db, ns);
    var a, b := Lookup(d, reference), Lookup(db, reference);
    if a.Some? { assert db.payments[a.value].reference == reference; }
    if b.Some? { assert d.payments[b.value].reference == reference; }
  }

  lemma FirstStep(f: seq<string>, status: string)
    ensures First(f + [status]) == if First(f).Some? then First(f) else ParseVerdict(status)
  {
    assert (f + [status])[..|f|] == f;
  }

  lemma ForStep(ns: seq<Notice>, n: Notice, reference: string)
    ensures For(ns + [n], reference) == For(ns, reference) + if n.reference == reference then [n.status] else []
    ensures First(For(ns + [n], reference)) ==
      if First(For(ns, reference)).Some? || n.reference != reference then First(For(ns, reference))
      else ParseVerdict(n.status)
  {
    assert (ns + [n])[..|ns|] == ns;
    assert For(ns, reference) + [] == For(ns, reference);
    FirstStep(For(ns, reference), n.status);
  }

  lemma WinnerStep(p: Payment, ns: seq<Notice>, n: Notice)
    ensures Winner(p, ns + [n]) ==
      if Winner(p, ns).Some? || n.reference != p.reference then Winner(p, ns) else ParseVerdict(n.status)
  {
    ForStep(ns, n, p.reference);
  }

  /** What one fault-free callback does to the tables. */
  lemma HandleEffect(db: Db, n: Notice)
    requires RowsKnown(db)
    ensures var pick := Lookup(db, n.reference); var v := ParseVerdict(n.status);
      var (db', r) := Handle(db, n);
      if pick.Some? && v.Some? && db.payments[pick.value].status.Unsettled? then
        var oid := db.payments[pick.value].oid;
        && db' == db.(payments := db.payments[pick.value := db.payments[pick.value].(status := Settled(v.value))],
                      orders := db.orders[oid := db.orders[oid].(status := Image(v.value))])
        && r == Ok(ReceiptOf(pick.value, db.payments[pick.value]).(status := Settled(v.value)))
      else
        && db' == db
        && r == (if v.None? then Err(InvalidStatusTransition)
                 else if pick.None? then Err(PaymentNotFound)
                 else if db.payments[pick.value].status == Settled(v.value) then
                     Ok(ReceiptOf(pick.value, db.payments[pick.value]))
                 else Err(InvalidStatusTransition))
  {
  }

  lemma HandleKeeps(db: Db, n: Notice)
    requires RowsKnown(db)
    ensures var d := Handle(db, n).0;
      d.payments.Keys == db.payments.Keys && d.orders.Keys == db.orders.Keys
      && d.users == db.users && d.uploads == db.uploads && d.used == db.used
  {
    HandleEffect(db, n);
  }

  /** The answer to a notice whose reference names a known payment. */
  lemma HandleKnown(db: Db, n: Notice, pid: Id)
    requires RowsKnown(db) && DistinctReferences(db) && pid in db.payments && db.payments[pid].reference == n.reference
    ensures var v := ParseVerdict(n.status); var st := db.payments[pid].status; var (db', r) := Handle(db, n);
      && (if v.Some? && (st.Unsettled? || st == Settled(v.value)) then r.Ok? && r.value.status == Settled(v.value)
          else r == Err(InvalidStatusTransition))
      && (st.Settled? ==> db' == db)
  {
    assert Lookup(db, n.reference) == Some(pid);
    HandleEffect(db, n);
  }

  lemma PaymentStep(db: Db, ns: seq<Notice>, n: Notice, pid: Id)
    requires RowsKnown(db) && DistinctReferences(db) && pid in db.payments
    ensures pid in Handle(Final(db, ns), n).0.payments
    ensures Handle(Final(db, ns), n).0.payments[pid] == FinalPayment(db.payments[pid], ns + [n])
  {
    var d := Final(db, ns);
    FinalKnown(db, ns);
    FinalLookup(db, ns, n.reference);
    HandleEffect(d, n);
    WinnerStep(db.payments[pid], ns, n);
    if db.payments[pid].reference == n.reference { assert Lookup(db, n.reference) == Some(pid); }
  }

  lemma OrderStep(db: Db, ns: seq<Notice>, n: Notice, oid: Id)
    requires RowsKnown(db) && DistinctReferences(db) && oid in db.orders
    ensures oid in Handle(Final(db, ns), n).0.orders
    ensures Handle(Final(db, ns), n).0.orders[oid] == FinalOrder(db, oid, ns + [n])
  {
    var d := Final(db, ns);
    FinalKnown(db, ns);
    FinalLookup(db, ns, n.reference);
    HandleEffect(d, n);
    var pick := PaymentOf(db, oid);
    if pick.Some? {
      var p := db.payments[pick.value];
      WinnerStep(p, ns, n);
      if p.reference == n.reference { assert Lookup(db, n.reference) == pick; }
    }
  }

  /** One more notice moves the closed form exactly as the service moves the tables. */
  lemma FinalStep(db: Db, ns: seq<Notice>, n: Notice)
    requires RowsKnown(db) && DistinctReferences(db)
    ensures Handle(Final(db, ns), n).0 == Final(db, ns + [n])
  {
    var d, d' := Final(db, ns), Final(db, ns + [n]);
    var got := Handle(d, n).0;
    FinalKnown(db, ns);
    HandleKeeps(d, n);
    forall pid | pid in db.payments ensures got.payments[pid] == d'.payments[pid] { PaymentStep(db, ns, n, pid); }
    forall oid | oid in db.orders ensures got.orders[oid] == d'.orders[oid] { OrderStep(db, ns, n, oid); }
    SameTables(got, d');
  }

  lemma SameTables(x: Db, y: Db)
    requires x.users == y.users && x.uploads == y.uploads && x.used == y.used
    requires x.payments.Keys == y.payments.Keys && x.orders.Keys == y.orders.Keys
    requires forall pid :: pid in x.payments ==> x.payments[pid] == y.payments[pid]
    requires forall oid :: oid in x.orders ==> x.orders[oid] == y.orders[oid]
    ensures x == y
  {
    assert x.payments == y.payments;
    assert x.orders == y.orders;
  }

  lemma {:induction false} DeliverIsFinal(db: Db, ns: seq<Notice>)
    requires RowsKnown(db) && DistinctReferences(db)
    ensures Deliver(db, ns) == Final(db, ns)
  {
    if ns == [] {
      FinalNothing(db);
    } else {
      DeliverIsFinal(db, ns[..|ns| - 1]);
      FinalStep(db, ns[..|ns| - 1], ns[|ns| - 1]);
      assert ns[..|ns| - 1] + [ns[|ns| - 1]] == ns;
    }
  }

  // ----- Main results -----

  /** The answer to the i-th notice. */
  ghost function Answer(db: Db, ns: seq<Notice>, i: nat): Result<Receipt>
    requires i < |ns|
  {
    Handle(Deliver(db, ns[..i]), ns[i]).1
  }

  lemma {:induction false} WinnerPrefix(p: Payment, ns: seq<Notice>, i: nat)
    requires i <= |ns|
    ensures Winner(p, ns[..i]).Some? ==> Winner(p, ns) == Winner(p, ns[..i])
  {
    if i < |ns| {
      var front := ns[..|ns| - 1];
      assert front + [ns[|ns| - 1]] == ns;
      assert front[..i] == ns[..i];
      WinnerPrefix(p, front, i);
      WinnerStep(p, front, ns[|ns| - 1]);
    } else {
      assert ns[..i] == ns;
    }
  }

  /**
   First verdict wins. Among all notices for an existing reference exactly the first acceptable one decides;
   an equal verdict always succeeds, any other status always gets an invalid transition, and once a verdict
   stands no notice for the reference changes a row.
   */
  lemma FirstVerdictWins(db: Db, ns: seq<Notice>, pid: Id)
    requires RowsKnown(db) && DistinctReferences(db) && pid in db.payments
    ensures var p := db.payments[pid]; var d := Deliver(db, ns);
      && pid in d.payments && p.oid in d.orders
      && d.payments[pid] == FinalPayment(p, ns)
      && (p.status.Unsettled? ==>
            d.orders[p.oid].status ==
              (if Winner(p, ns).Some? then Image(Winner(p, ns).value) else db.orders[p.oid].status))
      && (forall i :: 0 <= i < |ns| && ns[i].reference == p.reference ==>
            if ParseVerdict(ns[i].status).Some? && ParseVerdict(ns[i].status) == Winner(p, ns)
            then Answer(db, ns, i).Ok? && Answer(db, ns, i).value.status == Settled(Winner(p, ns).value)
            else Answer(db, ns, i) == Err(InvalidStatusTransition))
      && (forall i :: 0 <= i < |ns| && ns[i].reference == p.reference && Winner(p, ns[..i]).Some? ==>
            Handle(Deliver(db, ns[..i]), ns[i]).0 == Deliver(db, ns[..i]))
  {
    var p := db.payments[pid];
    DeliverIsFinal(db, ns);
    assert PaymentOf(db, p.oid) == Some(pid);
    forall i | 0 <= i < |ns| && ns[i].reference == p.reference
      ensures if ParseVerdict(ns[i].status).Some? && ParseVerdict(ns[i].status) == Winner(p, ns)
              then Answer(db, ns, i).Ok? && Answer(db, ns, i).value.status == Settled(Winner(p, ns).value)
              else Answer(db, ns, i) == Err(InvalidStatusTransition)
      ensures Winner(p, ns[..i]).Some? ==> Handle(Deliver(db, ns[..i]), ns[i]).0 == Deliver(db, ns[..i])
    {
      AnswerTo(db, ns, pid, i);
    }
  }

  /** What stands when the i-th notice arrives, and after it, agrees with the final winner. */
  lemma WinnerAt(p: Payment, ns: seq<Notice>, i: nat)
    requires i < |ns| && ns[i].reference == p.reference
    ensures var v := ParseVerdict(ns[i].status); var before := Winner(p, ns[..i]);
      && (before.Some? ==> Winner(p, ns) == before)
      && (before.None? && v.Some? ==> Winner(p, ns) == v)
  {
    assert ns[..i] + [ns[i]] == ns[..i + 1];
    WinnerStep(p, ns[..i], ns[i]);
    WinnerPrefix(p, ns, i);
    WinnerPrefix(p, ns, i + 1);
  }

  lemma AnswerTo(db: Db, ns: seq<Notice>, pid: Id, i: nat)
    requires RowsKnown(db) && DistinctReferences(db) && pid in db.payments
    requires i < |ns| && ns[i].reference == db.payments[pid].reference
    ensures var p := db.payments[pid];
      && (if ParseVerdict(ns[i].status).Some? && ParseVerdict(ns[i].status) == Winner(p, ns)
          then Answer(db, ns, i).Ok? && Answer(db, ns, i).value.status == Settled(Winner(p, ns).value)
          else Answer(db, ns, i) == Err(InvalidStatusTransition))
      && (Winner(p, ns[..i]).Some? ==> Handle(Deliver(db, ns[..i]), ns[i]).0 == Deliver(db, ns[..i]))
  {
    var d := Final(db, ns[..i]);
    DeliverIsFinal(db, ns[..i]);
    FinalKnown(db, ns[..i]);
    FinalReferences(db, ns[..i]);
    assert d.payments[pid] == FinalPayment(db.payments[pid], ns[..i]);
    HandleKnown(d, ns[i], pid);
    WinnerAt(db.payments[pid], ns, i);
  }

  lemma FinalDependsOnFor(db: Db, ns: seq<Notice>, ms: seq<Notice>)
    requires forall reference :: For(ns, reference) == For(ms, reference)
    ensures Final(db, ns) == Final(db, ms)
  {
    forall pid | pid in db.payments ensures FinalPayment(db.payments[pid], ns) == FinalPayment(db.payments[pid], ms) {
      assert For(ns, db.payments[pid].reference) == For(ms, db.payments[pid].reference);
    }
    forall oid | oid in db.orders ensures FinalOrder(db, oid, ns) == FinalOrder(db, oid, ms) {
      var pick := PaymentOf(db, oid);
      if pick.Some? { assert For(ns, db.payments[pick.value].reference) == For(ms, db.payments[pick.value].reference); }
    }
    SameTables(Final(db, ns), Final(db, ms));
  }

  /**
   The tables after any serial callbacks depend only on what was sent for each reference, not on how references
   interleave.
   */
  lemma OrderAcrossReferencesIrrelevant(db: Db, ns: seq<Notice>, ms: seq<Notice>)
    requires RowsKnown(db) && DistinctReferences(db)
    requires forall reference :: For(ns, reference) == For(ms, reference)
    ensures Deliver(db, ns) == Deliver(db, ms)
  {
    DeliverIsFinal(db, ns);
    DeliverIsFinal(db, ms);
    FinalDependsOnFor(db, ns, ms);
  }

  lemma TwoNotices(db: Db, m: Notice, n: Notice)
    requires RowsKnown(db) && DistinctReferences(db)
    ensures Handle(Handle(db, m).0, n).0 == Final(db, [] + [m] + [n])
  {
    FinalNothing(db);
    FinalStep(db, [], m);
    FinalStep(db, [] + [m], n);
  }

  /** In particular, callbacks for different references commute. */
  lemma CallbacksCommute(db: Db, m: Notice, n: Notice)
    requires RowsKnown(db) && DistinctReferences(db) && m.reference != n.reference
    ensures Handle(Handle(db, m).0, n).0 == Handle(Handle(db, n).0, m).0
  {
    TwoNotices(db, m, n);
    TwoNotices(db, n, m);
    forall reference ensures For([] + [m] + [n], reference) == For([] + [n] + [m], reference) {
      ForStep([] + [m], n, reference); ForStep([], m, reference);
      ForStep([] + [n], m, reference); ForStep([], n, reference);
    }
    FinalDependsOnFor(db, [] + [m] + [n], [] + [n] + [m]);
  }
}
