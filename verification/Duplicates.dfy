/**
 When a Create is answered "duplicate payment". The documentation gives this answer to every second
 attempt; the code gives it exactly for an order that has a payment but still reads as payable.
 */
module Duplicates {
  import opened Domain
  import opened Money
  import opened Database
  import opened Protocol
  import opened History
  import opened Steps
  import opened Safety
  import opened Drawing
  import opened Pairs
  import opened Serial
  import opened Healing
  import opened Refinement

  /** A serial Create, whatever fails in it and whatever the rows: the order must be split, the amount storable. */
  lemma DuplicateIff(w: World, user: Id, oid: Id, pid: Id, sc: PayScript)
    ensures Pay(w, user, oid, pid, sc).1 == Err(DuplicatePayment) <==>
      && sc.read.NoFault? && sc.insert.NoFault?
      && Owns(w.db, user, oid) && HalfCreated(w.db, oid) && AmountStorable(Gross(w.db.orders[oid]))
  {
    if oid in w.db.orders { AmountWindow(Gross(w.db.orders[oid])); }
  }

  /** The answer a step gives, if the request ends there. */
  predicate AnswersDuplicate(env: Env, s: Sys, l: Label)
    requires Enabled(s, l)
  {
    var th := Moved(env, s, l);
    th.Done? && th.reply == Failed(DuplicatePayment)
  }

  /** An interleaved step: only an insert that takes effect against an existing payment of the order. */
  lemma StepDuplicateIff(env: Env, s: Sys, l: Label)
    requires Known(s) && Enabled(s, l)
    ensures AnswersDuplicate(env, s, l) <==>
      && l.Advance? && s.threads[l.t].PayInsert? && l.input.fault.NoFault?
      && AmountStorable(s.threads[l.t].gross) && HasPayment(s.db, s.threads[l.t].oid)
  {
    if l.Advance? && !s.threads[l.t].PayInsert? { OthersNeverDuplicate(env, s.db, s.threads[l.t], l.input); }
  }

  lemma OthersNeverDuplicate(env: Env, db: Db, th: Thread, input: Input)
    requires !th.PayInsert? && !th.Done?
    ensures var th' := NextThread(env, db, th, input); !(th'.Done? && th'.reply == Failed(DuplicatePayment))
  {
  }

  /** The payment in the way was inserted by another request. */
  lemma DuplicateMeansAnother(env: Env, users: set<Id>, ls: seq<Label>, l: Label)
    requires var s := Exec(env, Init(users), ls);
      Enabled(s, l) && AnswersDuplicate(env, s, l)
    ensures var s := Exec(env, Init(users), ls); var h := HistOf(env, Init(users), NO_HISTORY, ls);
      && s.threads[l.t].PayInsert?
      && exists pid :: pid in s.db.payments && s.db.payments[pid].oid == s.threads[l.t].oid
                       && pid in h.inserter && h.inserter[pid] != l.t
  {
    var s := Exec(env, Init(users), ls);
    var h := HistOf(env, Init(users), NO_HISTORY, ls);
    RunKnown(env, users, ls);
    RunDrawn(env, users, ls);
    StepDuplicateIff(env, s, l);
    var pid :| pid in s.db.payments && s.db.payments[pid].oid == s.threads[l.t].oid;
    assert PaymentDrawn(s.db, s.threads, h.drawer, h.inserter, pid);
  }

  // ----- Without races -----

  /** A Create that has passed the payable check. */
  predicate Passed(th: Thread) {
    th.PayDraw? || th.PayInsert?
  }

  ghost predicate Payable(s: Sys) {
    forall t :: t in s.threads && Passed(s.threads[t]) && s.threads[t].oid in s.db.orders ==>
      s.db.orders[s.threads[t].oid].status == Pending
  }

  lemma PayableStep(env: Env, s: Sys, l: Label)
    requires Payable(s) && Enabled(s, l) && (Arrives(l) ==> Quiet(s))
    requires forall t, u :: Live(s, t) && Live(s, u) ==> t == u
    ensures Payable(Apply(env, s, l))
  {
    var s' := Apply(env, s, l);
    StepShape(env, s, l);
    StepFollows(env, s, l);
    forall t | t in s'.threads && Passed(s'.threads[t]) && s'.threads[t].oid in s'.db.orders
      ensures s'.db.orders[s'.threads[t].oid].status == Pending
    {
      if t != l.t {
        assert Live(s, t);
        assert !Arrives(l) ==> Live(s, l.t);
      } else {
        assert s.threads[t].PayRead? || s.threads[t].PayDraw?;
        assert s'.db == s.db;
      }
    }
  }

  lemma {:induction false} RunPayable(env: Env, users: set<Id>, ls: seq<Label>)
    requires SerialRun(env, Init(users), ls)
    ensures Payable(Exec(env, Init(users), ls))
  {
    if ls != [] {
      var front := ls[..|ls| - 1];
      assert forall i :: 0 <= i <= |front| ==> front[..i] == ls[..i];
      RunPayable(env, users, front);
      RunSerialOk(env, users, front);
      if Enabled(Exec(env, Init(users), front), ls[|ls| - 1]) {
        PayableStep(env, Exec(env, Init(users), front), ls[|ls| - 1]);
      }
    }
  }

  /**
   Among requests that do not overlap the answer needs an order left split by an interrupted Create; the
   interruptions that do this are those of CreateSplitsIff.
   */
  lemma SerialDuplicateIff(env: Env, users: set<Id>, ls: seq<Label>, l: Label)
    requires SerialRun(env, Init(users), ls)
    requires Enabled(Exec(env, Init(users), ls), l)
    ensures var s := Exec(env, Init(users), ls);
      AnswersDuplicate(env, s, l) <==>
        && l.Advance? && s.threads[l.t].PayInsert? && l.input.fault.NoFault?
        && AmountStorable(s.threads[l.t].gross) && HalfCreated(s.db, s.threads[l.t].oid)
  {
    var s := Exec(env, Init(users), ls);
    RunKnown(env, users, ls);
    RunPayable(env, users, ls);
    StepDuplicateIff(env, s, l);
    if l.Advance? && s.threads[l.t].PayInsert? && HasPayment(s.db, s.threads[l.t].oid) {
      assert s.threads[l.t].oid in s.db.orders;
    }
  }

  /** Without faults no order is ever left split, so no request of a serial history gets the answer. */
  lemma {:induction false} HistoriesNeverDuplicate(env: Env, w: World, ops: seq<Op>)
    requires Coherent(w) && ReadyAll(env, w, ops)
    ensures forall i :: 0 <= i < |ServeAll(env, w, ops).1| ==> ServeAll(env, w, ops).1[i] != Some(DuplicatePayment)
    decreases |ops|
  {
    if ops != [] {
      ServeNeverDuplicate(env, w, ops[0]);
      ServeRefines(env, w, ops[0]);
      HistoriesNeverDuplicate(env, Serve(env, w, ops[0]).0, ops[1..]);
    }
  }

  lemma ServeNeverDuplicate(env: Env, w: World, op: Op)
    requires Coherent(w)
    ensures Serve(env, w, op).1 != Some(DuplicatePayment)
  {
    match op {
      case PayOp(user, oid, pid) =>
        DuplicateIff(w, user, oid, pid, PAY_CLEAN);
        NeverSplit(w.db, oid);
      case CallOp(reference, status) =>
        CallNeverDuplicate(w.db, Lookup(w.db, reference), status);
      case _ =>
    }
  }

  lemma NeverSplit(db: Db, oid: Id)
    requires InPhase(db, oid)
    ensures !HalfCreated(db, oid)
  {
  }

  lemma CallNeverDuplicate(db: Db, pick: Option<Id>, status: string)
    ensures Callback(db, pick, status, CALL_CLEAN).1 != Err(DuplicatePayment)
  {
  }
}
