/**
 Identity and referential integrity in every interleaved run with faults and crashes.
 */
module Safety {
  import opened Domain
  import opened Database
  import opened Protocol
  import opened Steps

  ghost predicate ReceiptKnown(db: Db, r: Receipt) {
    && r.pid in db.used && r.oid in db.used
    && (r.pid in db.payments ==> db.payments[r.pid].oid == r.oid && db.payments[r.pid].reference == r.reference)
  }

  ghost predicate OrderKnown(db: Db, user: Id, oid: Id) {
    && oid in db.used
    && (oid in db.orders ==> db.orders[oid].user == user)
  }

  /** A thread's local copies agree with the rows on everything that never changes. */
  ghost predicate ThreadKnown(db: Db, th: Thread) {
    match th
    case PayDraw(user, oid, _) => OrderKnown(db, user, oid)
    case PayInsert(user, oid, _, _) => OrderKnown(db, user, oid)
    case PayMark(user, r) => OrderKnown(db, user, r.oid) && ReceiptKnown(db, r)
    case CallWrite(r, _) => ReceiptKnown(db, r)
    case CallAdvance(r, _) => ReceiptKnown(db, r)
    case GetCheck(_, r) => ReceiptKnown(db, r)
    case UpSniff(user, oid, _, _) => OrderKnown(db, user, oid)
    case UpOpen(user, job) => OrderKnown(db, user, job.oid)
    case UpCopy(user, job, path, _) => OrderKnown(db, user, job.oid) && path.name in db.used
    case UpRemove(_, path) => path.name in db.used
    case UpInsert(user, job, path) => OrderKnown(db, user, job.oid) && path.name in db.used
    case _ => true
  }

  /** Foreign keys, the unique index, and every identifier accounted for. */
  ghost predicate RowsKnown(db: Db) {
    && db.orders.Keys <= db.used && db.payments.Keys <= db.used && db.uploads.Keys <= db.used
    && (forall pid :: pid in db.payments ==> db.payments[pid].oid in db.orders)
    && (forall p, q :: p in db.payments && q in db.payments && db.payments[p].oid == db.payments[q].oid ==> p == q)
    && (forall uid :: uid in db.uploads ==> db.uploads[uid].oid in db.orders)
  }

  ghost predicate Known(s: Sys) {
    RowsKnown(s.db) && forall t :: t in s.threads ==> ThreadKnown(s.db, s.threads[t])
  }

  /** Rows keep their identity fields for as long as they exist, and gone rows stay gone. */
  ghost predicate Grows(db: Db, db': Db) {
    && db.used <= db'.used
    && db.users == db'.users
    && (forall oid :: oid in db'.orders && oid in db.used ==>
          oid in db.orders && db.orders[oid].user == db'.orders[oid].user)
    && (forall pid :: pid in db'.payments && pid in db.used ==>
          pid in db.payments && db.payments[pid].(status := Unsettled) == db'.payments[pid].(status := Unsettled))
    && (forall uid :: uid in db'.uploads && uid in db.used ==>
          uid in db.uploads && db.uploads[uid] == db'.uploads[uid])
  }

  lemma OrderWritesGrow(db: Db, w: Write)
    requires RowsKnown(db) && Fresh(db, w)
    requires w.NewOrder? || w.EditOrder? || w.Mark? || w.Close?
    ensures Grows(db, Effect(db, w)) && RowsKnown(Effect(db, w))
  {
    assert Effect(db, w).payments == db.payments && Effect(db, w).uploads == db.uploads;
  }

  lemma PaymentWritesGrow(db: Db, w: Write)
    requires RowsKnown(db) && Fresh(db, w)
    requires w.NewPayment? || w.Decide?
    ensures Grows(db, Effect(db, w)) && RowsKnown(Effect(db, w))
  {
    assert Effect(db, w).orders == db.orders && Effect(db, w).uploads == db.uploads;
  }

  lemma DropGrows(db: Db, w: Write)
    requires RowsKnown(db) && w.DropOrder?
    ensures Grows(db, Effect(db, w)) && RowsKnown(Effect(db, w))
  {
  }

  lemma EffectGrows(db: Db, w: Write)
    requires RowsKnown(db) && Fresh(db, w)
    ensures Grows(db, Effect(db, w)) && RowsKnown(Effect(db, w))
  {
    match w {
      case DropOrder(_, _) => DropGrows(db, w);
      case NewPayment(_, _, _, _) => PaymentWritesGrow(db, w);
      case Decide(_, _) => PaymentWritesGrow(db, w);
      case NewUpload(_, _) =>
      case NoWrite =>
      case Reserve(_) =>
      case _ => OrderWritesGrow(db, w);
    }
  }

  lemma FrameKnown(db: Db, db': Db, th: Thread)
    requires Grows(db, db') && ThreadKnown(db, th)
    ensures ThreadKnown(db', th)
  {
  }

  lemma InsertedKnown(env: Env, db: Db, db': Db, th: Thread, input: Input, th': Thread)
    requires th.PayInsert? && ThreadKnown(db', th) && Follows(env, db, th, input, th')
    requires db' == Effect(db, ThreadWrite(th, input))
    ensures ThreadKnown(db', th')
  {
  }

  lemma OwnKnown(env: Env, db: Db, db': Db, th: Thread, input: Input, th': Thread)
    requires RowsKnown(db) && ThreadKnown(db, th) && Grows(db, db')
    requires Follows(env, db, th, input, th') && db' == Effect(db, ThreadWrite(th, input))
    ensures ThreadKnown(db', th')
  {
    FrameKnown(db, db', th);
    if th.PayInsert? { InsertedKnown(env, db, db', th, input, th'); }
  }

  lemma StepKnown(env: Env, s: Sys, l: Label)
    requires Known(s)
    ensures Known(Apply(env, s, l)) && Grows(s.db, Apply(env, s, l).db)
  {
    var s' := Apply(env, s, l);
    StepShape(env, s, l);
    if Enabled(s, l) { StepFollows(env, s, l); }
    EffectGrows(s.db, WriteOf(env, s, l));
    forall t | t in s'.threads ensures ThreadKnown(s'.db, s'.threads[t]) {
      if Enabled(s, l) && t == l.t {
        if l.Advance? { OwnKnown(env, s.db, s'.db, s.threads[t], l.input, s'.threads[t]); }
      } else {
        FrameKnown(s.db, s'.db, s.threads[t]);
      }
    }
  }

  lemma {:induction false} RunKnown(env: Env, users: set<Id>, ls: seq<Label>)
    ensures Known(Exec(env, Init(users), ls))
  {
    if ls != [] {
      RunKnown(env, users, ls[..|ls| - 1]);
      StepKnown(env, Exec(env, Init(users), ls[..|ls| - 1]), ls[|ls| - 1]);
    }
  }

  lemma GrowsTransitive(x: Db, y: Db, z: Db)
    requires Grows(x, y) && Grows(y, z)
    ensures Grows(x, z)
  {
  }

  lemma GrowsOn(env: Env, x: Db, s: Sys, l: Label)
    requires Known(s) && Grows(x, s.db)
    ensures Grows(x, Apply(env, s, l).db)
  {
    StepKnown(env, s, l);
    GrowsTransitive(x, s.db, Apply(env, s, l).db);
  }

  /** Over any stretch of any run: rows keep their identity, owners never change, and gone rows stay gone. */
  lemma {:induction false} RunGrows(env: Env, users: set<Id>, ls: seq<Label>, more: seq<Label>)
    ensures Grows(Exec(env, Init(users), ls).db, Exec(env, Init(users), ls + more).db)
  {
    if more == [] {
      assert ls + more == ls;
    } else {
      var front := more[..|more| - 1];
      assert (ls + more)[..|ls + more| - 1] == ls + front;
      RunGrows(env, users, ls, front);
      RunKnown(env, users, ls + front);
      GrowsOn(env, Exec(env, Init(users), ls).db, Exec(env, Init(users), ls + front), more[|more| - 1]);
    }
  }
}
