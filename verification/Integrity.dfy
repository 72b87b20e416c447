/**
 What the stored data means, in every interleaved run with faults and crashes: rows satisfy the service's
 rules and refer to existing orders, and deletion is exact.
 */
module Integrity {
  import opened Domain
  import opened Database
  import opened Protocol
  import opened Steps
  import opened Safety

  // ----- Rules and references -----

  ghost predicate RowsValid(env: Env, db: Db) {
    && (forall oid :: oid in db.orders ==>
          db.orders[oid].user in db.users && SymbolOk(env.upper, db.orders[oid].symbol) && OrderRowOk(db.orders[oid]))
    && (forall pid :: pid in db.payments ==> PaymentRowOk(db.payments[pid]))
    && (forall uid :: uid in db.uploads ==> db.uploads[uid].size > 0)
  }

  /** Requests are validated before they reach the rows. */
  predicate Checked(env: Env, w: Write) {
    match w
    case NewOrder(_, _, req) => SymbolOk(env.upper, req.symbol)
    case EditOrder(_, _, req) => SymbolOk(env.upper, req.symbol)
    case _ => true
  }

  lemma WriteChecked(env: Env, s: Sys, l: Label)
    ensures Checked(env, WriteOf(env, s, l))
  {
  }

  lemma EffectValid(env: Env, db: Db, w: Write)
    requires RowsValid(env, db) && Checked(env, w)
    ensures RowsValid(env, Effect(db, w))
  {
  }

  /** Every reachable state satisfies the order rules, the column constraints, the foreign keys and the unique index. */
  lemma {:induction false} DataValid(env: Env, users: set<Id>, ls: seq<Label>)
    ensures var db := Exec(env, Init(users), ls).db; RowsValid(env, db) && RowsKnown(db)
  {
    RunKnown(env, users, ls);
    if ls != [] {
      var s := Exec(env, Init(users), ls[..|ls| - 1]);
      var l := ls[|ls| - 1];
      DataValid(env, users, ls[..|ls| - 1]);
      StepShape(env, s, l);
      WriteChecked(env, s, l);
      EffectValid(env, s.db, WriteOf(env, s, l));
    }
  }

  /** Deleting an order removes it, its payment and its uploads, and nothing else; only the owner can. */
  lemma DeletionExact(db: Db, user: Id, oid: Id)
    ensures DeleteOrder(db, user, oid).Ok? <==> Owns(db, user, oid)
    ensures Owns(db, user, oid) ==>
      var db' := DeleteOrder(db, user, oid).value;
      && db'.users == db.users && db'.used == db.used
      && (forall o :: o in db'.orders <==> o in db.orders && o != oid)
      && (forall o :: o in db'.orders ==> db'.orders[o] == db.orders[o])
      && (forall p :: p in db'.payments <==> p in db.payments && db.payments[p].oid != oid)
      && (forall p :: p in db'.payments ==> db'.payments[p] == db.payments[p])
      && (forall u :: u in db'.uploads <==> u in db.uploads && db.uploads[u].oid != oid)
      && (forall u :: u in db'.uploads ==> db'.uploads[u] == db.uploads[u])
  {
  }
}
