/**
 When orders and payments agree although no transaction ties them together. The runs covered interleave
 everything; callbacks for a payment start only after its Create is over and carry one verdict, and no
 fault separates the two writes of a request. Then every disagreement is owed by a thread in flight.
 */
module Agreement {
  import opened Domain
  import opened Database
  import opened Protocol
  import opened History
  import opened Steps
  import opened Safety
  import opened Lead
  import opened Drawing

  /** The faults that leave one of a request's two writes done and the other never attempted. */
  predicate Splits(s: Sys, l: Label) {
    match l
    case Advance(t, input) => t in s.threads && SplittingFault(s.threads[t], input.fault)
    case Crash(t) => t in s.threads && (s.threads[t].PayMark? || s.threads[t].CallAdvance?)
    case _ => false
  }

  predicate SplittingFault(th: Thread, fault: Fault) {
    match th
    case PayInsert(_, _, _, _) => fault.LostReply?
    case PayMark(_, _) => fault.LostCall?
    case CallWrite(_, _) => fault.LostReply?
    case CallAdvance(_, _) => fault.LostCall?
    case _ => false
  }

  predicate Carries(th: Thread, reference: string) {
    match th
    case PayInsert(_, _, _, r) => r == reference
    case PayMark(_, receipt) => receipt.reference == reference
    case _ => false
  }

  /**
   The Create that owns a reference is over: the reference is not still to be drawn, and no Create in flight holds
   it.
   */
  ghost predicate AfterCreate(s: Sys, reference: string) {
    && (forall k: nat :: s.draws < k <= WORD ==> Nth(k) != reference)
    && (forall t :: t in s.threads ==> !Carries(s.threads[t], reference))
  }

  /** The condition on each step: no splitting fault, and callbacks start late and with the reference's one verdict. */
  ghost predicate Orderly(verdictOf: string -> Verdict, s: Sys, l: Label) {
    && !Splits(s, l)
    && (l.StartCallback? ==>
          match ParseVerdict(l.status)
          case None => true
          case Some(v) => v == verdictOf(l.reference) && AfterCreate(s, l.reference))
  }

  ghost predicate Disciplined(env: Env, s: Sys, verdictOf: string -> Verdict, ls: seq<Label>) {
    ls != [] ==>
      var front := ls[..|ls| - 1];
      var mid := Exec(env, s, front);
      Disciplined(env, s, verdictOf, front) && (Enabled(mid, ls[|ls| - 1]) ==> Orderly(verdictOf, mid, ls[|ls| - 1]))
  }

  // ----- The invariant: who owes which write -----

  predicate Marks(th: Thread, oid: Id) {
    th.PayMark? && th.receipt.oid == oid
  }

  predicate Closes(th: Thread, oid: Id) {
    th.CallAdvance? && th.receipt.oid == oid
  }

  ghost predicate Unmarked(threads: Threads, oid: Id) {
    forall t :: t in threads ==> !Marks(threads[t], oid)
  }

  ghost predicate OrderAgrees(db: Db, threads: Threads, payOf: PayOf, verdictOf: string -> Verdict, oid: Id) {
    oid in db.orders ==>
      var st := db.orders[oid].status;
      if oid !in payOf then st == Pending
      else
        && payOf[oid] in db.payments
        && var p := db.payments[payOf[oid]];
           match p.status
           case Unsettled =>
             || st == PendingPayment
             || (st == Pending && exists t :: t in threads && Marks(threads[t], oid))
           case Settled(v) =>
             && v == verdictOf(p.reference) && Unmarked(threads, oid)
             && (st == Image(v) || (st == PendingPayment && exists t :: t in threads && Closes(threads[t], oid)))
  }

  ghost predicate ThreadAgrees(s: Sys, verdictOf: string -> Verdict, th: Thread) {
    match th
    case CallRead(reference, v) => v == verdictOf(reference) && AfterCreate(s, reference)
    case CallWrite(r, v) => v == verdictOf(r.reference) && Unmarked(s.threads, r.oid)
    case CallAdvance(r, v) => v == verdictOf(r.reference) && Unmarked(s.threads, r.oid)
    case _ => true
  }

  ghost predicate Agrees(s: Sys, payOf: PayOf, verdictOf: string -> Verdict) {
    && (forall oid :: OrderAgrees(s.db, s.threads, payOf, verdictOf, oid))
    && (forall t :: t in s.threads ==> ThreadAgrees(s, verdictOf, s.threads[t]))
  }

  /** Entering the "pending_payment" write means having just inserted the order's only payment. */
  lemma NewMark(env: Env, s: Sys, payOf: PayOf, l: Label, oid: Id)
    requires Known(s) && Leads(s, payOf) && Enabled(s, l)
    requires Unmarked(s.threads, oid) && !Unmarked(Apply(env, s, l).threads, oid)
    ensures oid !in payOf
  {
    var s' := Apply(env, s, l);
    StepShape(env, s, l);
    StepFollows(env, s, l);
    var t :| t in s'.threads && Marks(s'.threads[t], oid);
    assert t == l.t;
    NoSecondCharge(s.db, payOf, WriteOf(env, s, l));
  }

  /** No Create comes to hold a reference again once its own is over. */
  lemma StepAfterCreate(env: Env, s: Sys, l: Label, reference: string)
    requires AfterCreate(s, reference) && s.counter == s.draws % WORD && Apply(env, s, l).draws <= WORD
    ensures AfterCreate(Apply(env, s, l), reference)
  {
    var s' := Apply(env, s, l);
    StepShape(env, s, l);
    StepCounter(env, s, l);
    NumberOfDraw(s.draws);
    if Enabled(s, l) {
      StepFollows(env, s, l);
      assert l.Advance? ==> !Carries(s.threads[l.t], reference);
      assert Draws(s, l) ==> Nth(s.draws + 1) != reference;
    }
  }

  lemma FrameThreadAgrees(env: Env, s: Sys, payOf: PayOf, verdictOf: string -> Verdict, l: Label, th: Thread)
    requires Known(s) && Leads(s, payOf) && s.counter == s.draws % WORD && Apply(env, s, l).draws <= WORD
    requires ThreadAgrees(s, verdictOf, th) && ThreadLead(s.db, payOf, th)
    ensures ThreadAgrees(Apply(env, s, l), verdictOf, th)
  {
    match th {
      case CallRead(reference, _) => StepAfterCreate(env, s, l, reference);
      case CallWrite(r, _) =>
        if Enabled(s, l) && !Unmarked(Apply(env, s, l).threads, r.oid) { NewMark(env, s, payOf, l, r.oid); }
      case CallAdvance(r, _) =>
        if Enabled(s, l) && !Unmarked(Apply(env, s, l).threads, r.oid) { NewMark(env, s, payOf, l, r.oid); }
      case _ =>
    }
  }

  /** A callback that found its row finds no Create still owing the order its mark. */
  lemma FoundUnmarked(s: Sys, payOf: PayOf, reference: string, pid: Id)
    requires Known(s) && Leads(s, payOf) && AfterCreate(s, reference)
    requires pid in s.db.payments && s.db.payments[pid].reference == reference
    ensures Unmarked(s.threads, s.db.payments[pid].oid)
  {
    var oid := s.db.payments[pid].oid;
    assert PaymentLed(s.db, payOf, pid);
    forall t | t in s.threads ensures !Marks(s.threads[t], oid) {
      if Marks(s.threads[t], oid) {
        assert ThreadLead(s.db, payOf, s.threads[t]) && ThreadKnown(s.db, s.threads[t]);
        assert Carries(s.threads[t], reference);
      }
    }
  }

  lemma OwnThreadAgrees(env: Env, s: Sys, payOf: PayOf, verdictOf: string -> Verdict, l: Label)
    requires Known(s) && Leads(s, payOf) && s.counter == s.draws % WORD && Apply(env, s, l).draws <= WORD
    requires Agrees(s, payOf, verdictOf) && Enabled(s, l) && Orderly(verdictOf, s, l)
    ensures l.t in Apply(env, s, l).threads && ThreadAgrees(Apply(env, s, l), verdictOf, Apply(env, s, l).threads[l.t])
  {
    var s' := Apply(env, s, l);
    StepFollows(env, s, l);
    var th' := s'.threads[l.t];
    if l.StartCallback? && th'.CallRead? {
      StepAfterCreate(env, s, l, l.reference);
    } else if l.Advance? {
      var th := s.threads[l.t];
      if th.CallRead? && th'.CallWrite? {
        FoundUnmarked(s, payOf, th.reference, th'.receipt.pid);
        assert PaymentLed(s.db, payOf, th'.receipt.pid);
        FrameThreadAgrees(env, s, payOf, verdictOf, l, th');
      } else {
        assert ThreadLead(s.db, payOf, th);
        FrameThreadAgrees(env, s, payOf, verdictOf, l, th);
      }
    }
  }

  /** A step that touches neither the order's rows nor a thread that owes it a write. */
  lemma Untouched(db: Db, db': Db, threads: Threads, threads': Threads, payOf: PayOf, verdictOf: string -> Verdict,
                  t: Id, oid: Id)
    requires OrderAgrees(db, threads, payOf, verdictOf, oid)
    requires oid in db'.orders ==> oid in db.orders && db.orders[oid].status == db'.orders[oid].status
    requires oid in db'.orders && oid in payOf && payOf[oid] in db.payments ==>
      payOf[oid] in db'.payments && db.payments[payOf[oid]] == db'.payments[payOf[oid]]
    requires forall u :: u in threads && u != t ==> u in threads' && threads'[u] == threads[u]
    requires t in threads ==> !Marks(threads[t], oid) && !Closes(threads[t], oid)
    requires oid in payOf && Unmarked(threads, oid) ==> Unmarked(threads', oid)
    ensures OrderAgrees(db', threads', payOf, verdictOf, oid)
  {
    if u :| u in threads && Marks(threads[u], oid) { assert threads'[u] == threads[u]; }
    if u :| u in threads && Closes(threads[u], oid) { assert threads'[u] == threads[u]; }
  }

  /** The steps of the thread that moves this order or its payment. */
  predicate Touches(w: Write, th: Thread, oid: Id) {
    || (w.NewPayment? && w.oid == oid)
    || (th.PayMark? && th.receipt.oid == oid)
    || (th.CallWrite? && th.receipt.oid == oid)
    || (th.CallAdvance? && th.receipt.oid == oid)
  }

  lemma TouchedAgrees(env: Env, db: Db, threads: Threads, threads': Threads, payOf: PayOf, verdictOf: string -> Verdict,
                      t: Id, input: Input, oid: Id)
    requires RowsKnown(db) && RowsLead(db, payOf)
    requires t in threads && t in threads' && Follows(env, db, threads[t], input, threads'[t])
    requires ThreadKnown(db, threads[t]) && ThreadLead(db, payOf, threads[t])
    requires !SplittingFault(threads[t], input.fault)
    requires var th := threads[t];
      th.CallWrite? || th.CallAdvance? ==>
        th.verdict == verdictOf(th.receipt.reference) && Unmarked(threads, th.receipt.oid)
    requires var w := ThreadWrite(threads[t], input); Fresh(db, w) && Touches(w, threads[t], oid)
    requires OrderAgrees(db, threads, payOf, verdictOf, oid)
    requires oid in payOf && Unmarked(threads, oid) ==> Unmarked(threads', oid)
    requires forall u :: u in threads && u != t ==> u in threads' && threads'[u] == threads[u]
    ensures var w := ThreadWrite(threads[t], input);
      && OrderAgrees(Effect(db, w), threads', Extended(db, payOf, w), verdictOf, oid)
      && (oid in db.orders && oid in Effect(db, w).orders ==>
            Rank(db.orders[oid].status) <= Rank(Effect(db, w).orders[oid].status))
  {
    var w := ThreadWrite(threads[t], input);
    assert OrderLed(db, payOf, oid);
    if threads[t].PayInsert? {
      if Attempt(db, w).Ok? {
        NoSecondCharge(db, payOf, w);
        assert Marks(threads'[t], oid);
      } else {
        Untouched(db, db, threads, threads', payOf, verdictOf, t, oid);
      }
    } else if threads[t].PayMark? {
      assert Marks(threads[t], oid);
    } else if threads[t].CallWrite? {
      assert payOf[oid] == threads[t].receipt.pid;
      if oid in db.orders && input.fault.NoFault? { assert Closes(threads'[t], oid); }
      if u :| u in threads && u != t && Closes(threads[u], oid) { assert threads'[u] == threads[u]; }
    } else {
      assert oid in db.orders ==> SettledFor(db, payOf, oid);
    }
  }

  lemma OrderStepAgrees(env: Env, s: Sys, payOf: PayOf, verdictOf: string -> Verdict, l: Label, oid: Id)
    requires Known(s) && Leads(s, payOf) && Agrees(s, payOf, verdictOf) && Enabled(s, l) && Orderly(verdictOf, s, l)
    ensures var s' := Apply(env, s, l);
      && OrderAgrees(s'.db, s'.threads, Extended(s.db, payOf, WriteOf(env, s, l)), verdictOf, oid)
      && (oid in s.db.orders && oid in s'.db.orders ==>
            Rank(s.db.orders[oid].status) <= Rank(s'.db.orders[oid].status))
  {
    var s' := Apply(env, s, l);
    var w := WriteOf(env, s, l);
    assert OrderAgrees(s.db, s.threads, payOf, verdictOf, oid);
    StepShape(env, s, l);
    StepFollows(env, s, l);
    if oid in payOf && Unmarked(s.threads, oid) && !Unmarked(s'.threads, oid) { NewMark(env, s, payOf, l, oid); }
    if l.Advance? {
      assert ThreadKnown(s.db, s.threads[l.t]) && ThreadLead(s.db, payOf, s.threads[l.t]);
      assert ThreadAgrees(s, verdictOf, s.threads[l.t]);
    }
    if l.Advance? && Touches(w, s.threads[l.t], oid) {
      TouchedAgrees(env, s.db, s.threads, s'.threads, payOf, verdictOf, l.t, l.input, oid);
    } else {
      UntouchedStep(env, s, payOf, verdictOf, l, oid);
    }
  }

  lemma UntouchedStep(env: Env, s: Sys, payOf: PayOf, verdictOf: string -> Verdict, l: Label, oid: Id)
    requires Known(s) && Leads(s, payOf) && Agrees(s, payOf, verdictOf) && Enabled(s, l) && !Splits(s, l)
    requires l.Advance? ==> !Touches(WriteOf(env, s, l), s.threads[l.t], oid)
    requires var s' := Apply(env, s, l); oid in payOf && Unmarked(s.threads, oid) ==> Unmarked(s'.threads, oid)
    ensures var s' := Apply(env, s, l);
      && OrderAgrees(s'.db, s'.threads, Extended(s.db, payOf, WriteOf(env, s, l)), verdictOf, oid)
      && (oid in s.db.orders && oid in s'.db.orders ==> s.db.orders[oid].status == s'.db.orders[oid].status)
  {
    var s' := Apply(env, s, l);
    var w := WriteOf(env, s, l);
    var th := if l.Advance? then s.threads[l.t] else Done(None, Halted);
    StepShape(env, s, l);
    assert OrderAgrees(s.db, s.threads, payOf, verdictOf, oid);
    assert ThreadKnown(s.db, th) && ThreadLead(s.db, payOf, th);
    OtherWrite(s.db, payOf, w, th, oid);
    if w.NewOrder? && w.id == oid {
      assert oid !in payOf && oid !in s.db.orders;
    } else {
      Untouched(s.db, s'.db, s.threads, s'.threads, payOf, verdictOf, l.t, oid);
    }
  }

  /** Writes of other threads leave this order's status and its payment alone. */
  lemma OtherWrite(db: Db, payOf: PayOf, w: Write, th: Thread, oid: Id)
    requires RowsKnown(db) && RowsLead(db, payOf) && ThreadLead(db, payOf, th) && ThreadKnown(db, th)
    requires Fresh(db, w) && !Touches(w, th, oid)
    requires w.Mark? ==> th.PayMark? && w.oid == th.receipt.oid
    requires w.Close? ==> th.CallAdvance? && w.oid == th.receipt.oid
    requires w.Decide? ==> th.CallWrite? && w.pid == th.receipt.pid
    ensures var db' := Effect(db, w);
      && (oid in db'.orders && !(w.NewOrder? && w.id == oid) ==>
            oid in db.orders && db.orders[oid].status == db'.orders[oid].status)
      && (w.NewOrder? && w.id == oid && oid !in db.orders && oid in db'.orders ==>
            db'.orders[oid].status == Pending && oid !in payOf)
      && (oid in db'.orders && oid in db.orders && oid in payOf && payOf[oid] in db.payments ==>
            payOf[oid] in db'.payments && db.payments[payOf[oid]] == db'.payments[payOf[oid]])
      && (w.NewPayment? && Attempt(db, w).Ok? ==> w.oid != oid)
  {
    assert OrderLed(db, payOf, oid);
  }

  lemma StepAgrees(env: Env, s: Sys, h: Hist, verdictOf: string -> Verdict, l: Label)
    requires Known(s) && Leads(s, h.payOf) && s.counter == s.draws % WORD && Apply(env, s, l).draws <= WORD
    requires Agrees(s, h.payOf, verdictOf) && Enabled(s, l) && Orderly(verdictOf, s, l)
    ensures Agrees(Apply(env, s, l), Track(env, h, s, l).payOf, verdictOf)
  {
    var s' := Apply(env, s, l);
    TrackExtends(h, s, l, WriteOf(env, s, l));
    forall oid ensures OrderAgrees(s'.db, s'.threads, Extended(s.db, h.payOf, WriteOf(env, s, l)), verdictOf, oid) {
      OrderStepAgrees(env, s, h.payOf, verdictOf, l, oid);
    }
    forall t | t in s'.threads ensures ThreadAgrees(s', verdictOf, s'.threads[t]) {
      StepShape(env, s, l);
      if t == l.t {
        OwnThreadAgrees(env, s, h.payOf, verdictOf, l);
      } else {
        FrameThreadAgrees(env, s, h.payOf, verdictOf, l, s.threads[t]);
      }
    }
  }

  lemma {:induction false} RunAgrees(env: Env, users: set<Id>, verdictOf: string -> Verdict, ls: seq<Label>)
    requires Disciplined(env, Init(users), verdictOf, ls) && Exec(env, Init(users), ls).draws <= WORD
    ensures Agrees(Exec(env, Init(users), ls), HistOf(env, Init(users), NO_HISTORY, ls).payOf, verdictOf)
  {
    if ls != [] {
      var front := ls[..|ls| - 1];
      var l := ls[|ls| - 1];
      var s := Exec(env, Init(users), front);
      var h := HistOf(env, Init(users), NO_HISTORY, front);
      StepCounter(env, s, l);
      RunAgrees(env, users, verdictOf, front);
      RunKnown(env, users, front);
      RunLeads(env, users, front);
      RunDrawn(env, users, front);
      if Enabled(s, l) {
        StepAgrees(env, s, h, verdictOf, l);
      } else {
        TrackExtends(h, s, l, WriteOf(env, s, l));
      }
    }
  }

  // ----- Main results -----

  /** No request is about to write an order status. */
  predicate NothingOwed(s: Sys) {
    forall t :: t in s.threads ==> !s.threads[t].PayMark? && !s.threads[t].CallAdvance?
  }

  /** The status an order should have, given the payments that exist. */
  ghost predicate InStep(db: Db, oid: Id) {
    oid in db.orders ==>
      && (!HasPayment(db, oid) ==> db.orders[oid].status == Pending)
      && (forall pid :: pid in db.payments && db.payments[pid].oid == oid ==>
            db.orders[oid].status == ImageOf(db.payments[pid].status))
  }

  /** Agreement of an order that has a payment is one equation. */
  lemma InStepOf(db: Db, pid: Id)
    requires pid in db.payments && db.payments[pid].oid in db.orders
    requires forall q :: q in db.payments && db.payments[q].oid == db.payments[pid].oid ==> q == pid
    ensures InStep(db, db.payments[pid].oid) <==>
      db.orders[db.payments[pid].oid].status == ImageOf(db.payments[pid].status)
  {
    assert HasPayment(db, db.payments[pid].oid);
  }

  /** At every quiescent point of a disciplined run each order's status is the image of its payment's status. */
  lemma ConditionalAgreement(env: Env, users: set<Id>, verdictOf: string -> Verdict, ls: seq<Label>, oid: Id)
    requires Disciplined(env, Init(users), verdictOf, ls) && Exec(env, Init(users), ls).draws <= WORD
    requires NothingOwed(Exec(env, Init(users), ls))
    ensures InStep(Exec(env, Init(users), ls).db, oid)
  {
    RunAgrees(env, users, verdictOf, ls);
    RunLeads(env, users, ls);
    RunKnown(env, users, ls);
    var s := Exec(env, Init(users), ls);
    var payOf := HistOf(env, Init(users), NO_HISTORY, ls).payOf;
    assert OrderAgrees(s.db, s.threads, payOf, verdictOf, oid) && OrderLed(s.db, payOf, oid);
    forall pid | pid in s.db.payments && s.db.payments[pid].oid == oid ensures oid in payOf && payOf[oid] == pid {
      assert PaymentLed(s.db, payOf, pid);
    }
  }

  /** One more label of a disciplined run. */
  lemma RankStep(env: Env, users: set<Id>, verdictOf: string -> Verdict, ls: seq<Label>, l: Label, oid: Id)
    requires Disciplined(env, Init(users), verdictOf, ls + [l]) && Exec(env, Init(users), ls + [l]).draws <= WORD
    ensures var db := Exec(env, Init(users), ls).db; var db' := Exec(env, Init(users), ls + [l]).db;
      && (oid in db.used && oid in db'.orders ==> oid in db.orders)
      && (oid in db.orders && oid in db'.orders ==> Rank(db.orders[oid].status) <= Rank(db'.orders[oid].status))
  {
    var s := Exec(env, Init(users), ls);
    assert (ls + [l])[..|ls|] == ls;
    StepCounter(env, s, l);
    RunKnown(env, users, ls);
    StepKnown(env, s, l);
    if Enabled(s, l) {
      RunLeads(env, users, ls);
      RunAgrees(env, users, verdictOf, ls);
      OrderStepAgrees(env, s, HistOf(env, Init(users), NO_HISTORY, ls).payOf, verdictOf, l, oid);
    }
  }

  /** ... and along it no order's status ever moves backwards. */
  lemma {:induction false} RankNeverDecreases(env: Env, users: set<Id>, verdictOf: string -> Verdict, ls: seq<Label>,
                                              more: seq<Label>, oid: Id)
    requires Disciplined(env, Init(users), verdictOf, ls + more) && Exec(env, Init(users), ls + more).draws <= WORD
    ensures var db := Exec(env, Init(users), ls).db; var db' := Exec(env, Init(users), ls + more).db;
      oid in db.orders && oid in db'.orders ==>
        && Rank(db.orders[oid].status) <= Rank(db'.orders[oid].status)
        && (db.orders[oid].status != Pending ==> db'.orders[oid].status != Pending)
        && (db.orders[oid].status == Paid || db.orders[oid].status == PaymentFailed ==>
              db'.orders[oid].status == Paid || db'.orders[oid].status == PaymentFailed)
  {
    if more == [] {
      assert ls + more == ls;
    } else {
      var front := more[..|more| - 1];
      var l := more[|more| - 1];
      assert (ls + more)[..|ls + more| - 1] == ls + front;
      StepCounter(env, Exec(env, Init(users), ls + front), l);
      RankNeverDecreases(env, users, verdictOf, ls, front, oid);
      RunGrows(env, users, ls, front);
      RunKnown(env, users, ls);
      assert ls + more == (ls + front) + [l];
      RankStep(env, users, verdictOf, ls + front, l, oid);
    }
  }

  // ----- Exactly when a step breaks what serial runs keep -----

  lemma StatusWrittenBy(db: Db, w: Write, pid: Id)
    requires RowsKnown(db) && Fresh(db, w) && pid in db.payments && pid in Effect(db, w).payments
    ensures Effect(db, w).payments[pid].status != db.payments[pid].status <==>
      w.Decide? && w.pid == pid && Settled(w.verdict) != db.payments[pid].status
  {
  }

  /**
   A terminal payment status changes in exactly one way: a callback that read "pending" writes the other verdict
   late.
   */
  lemma TerminalChangesIff(env: Env, s: Sys, l: Label, pid: Id)
    requires Known(s) && pid in s.db.payments && pid in Apply(env, s, l).db.payments
    requires s.db.payments[pid].status.Settled?
    ensures Apply(env, s, l).db.payments[pid].status != s.db.payments[pid].status <==>
      && Enabled(s, l) && l.Advance? && !l.input.fault.LostCall?
      && s.threads[l.t].CallWrite? && s.threads[l.t].receipt.pid == pid
      && s.threads[l.t].verdict != s.db.payments[pid].status.verdict
  {
    StepShape(env, s, l);
    StatusWrittenBy(s.db, WriteOf(env, s, l), pid);
  }
}
