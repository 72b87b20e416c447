/**
 Where verdicts come from, in every interleaved run with faults and crashes: no payment is settled and no
 order closed without a callback that named the payment's reference and that verdict. If callbacks enter
 only through the webhook gate, such a message was signed.
 */
module Provenance {
  import opened Domain
  import opened Database
  import opened Protocol
  import opened History
  import opened Steps
  import opened Safety
  import opened Lead
  import opened Webhook

  predicate Calls(l: Label, reference: string, v: Verdict) {
    l.StartCallback? && l.reference == reference && ParseVerdict(l.status) == Some(v)
  }

  /** The run holds a callback with this reference and a status that means this verdict. */
  predicate Called(ls: seq<Label>, reference: string, v: Verdict) {
    exists i :: 0 <= i < |ls| && Calls(ls[i], reference, v)
  }

  lemma CalledLater(ls: seq<Label>, l: Label, reference: string, v: Verdict)
    ensures Called(ls, reference, v) ==> Called(ls + [l], reference, v)
    ensures Calls(l, reference, v) ==> Called(ls + [l], reference, v)
  {
    var more := ls + [l];
    if i :| 0 <= i < |ls| && Calls(ls[i], reference, v) { assert more[i] == ls[i]; }
    assert more[|ls|] == l;
  }

  predicate ThreadCalled(ls: seq<Label>, th: Thread) {
    match th
    case CallRead(reference, v) => Called(ls, reference, v)
    case CallWrite(r, v) => Called(ls, r.reference, v)
    case CallAdvance(r, v) => Called(ls, r.reference, v)
    case _ => true
  }

  predicate PaymentCalled(ls: seq<Label>, p: Payment) {
    p.status.Settled? ==> Called(ls, p.reference, p.status.verdict)
  }

  /** The order has a payment that was sent this verdict. */
  ghost predicate OrderSent(ls: seq<Label>, db: Db, oid: Id, v: Verdict) {
    exists pid :: pid in db.payments && db.payments[pid].oid == oid && Called(ls, db.payments[pid].reference, v)
  }

  ghost predicate OrderCalled(ls: seq<Label>, db: Db, oid: Id) {
    oid in db.orders ==> forall v :: db.orders[oid].status == Image(v) ==> OrderSent(ls, db, oid, v)
  }

  ghost predicate AllCalled(ls: seq<Label>, s: Sys) {
    && (forall t :: t in s.threads ==> ThreadCalled(ls, s.threads[t]))
    && (forall pid :: pid in s.db.payments ==> PaymentCalled(ls, s.db.payments[pid]))
    && (forall oid :: OrderCalled(ls, s.db, oid))
  }

  lemma ThreadCalledLater(ls: seq<Label>, l: Label, th: Thread)
    requires ThreadCalled(ls, th)
    ensures ThreadCalled(ls + [l], th)
  {
    match th {
      case CallRead(reference, v) => CalledLater(ls, l, reference, v);
      case CallWrite(r, v) => CalledLater(ls, l, r.reference, v);
      case CallAdvance(r, v) => CalledLater(ls, l, r.reference, v);
      case _ =>
    }
  }

  lemma MovedCalled(env: Env, s: Sys, ls: seq<Label>, l: Label)
    requires Enabled(s, l) && (l.Advance? ==> ThreadCalled(ls, s.threads[l.t]))
    ensures ThreadCalled(ls + [l], Moved(env, s, l))
  {
    match l {
      case Advance(t, input) =>
        var th, th' := s.threads[t], NextThread(env, s.db, s.threads[t], input);
        ThreadFollows(env, s.db, th, input);
        if th.CallRead? && th'.CallWrite? { assert th'.receipt.reference == th.reference; }
        assert ThreadCalled(ls, th');
        ThreadCalledLater(ls, l, th');
      case StartCallback(_, reference, status) =>
        if ParseVerdict(status).Some? { CalledLater(ls, l, reference, ParseVerdict(status).value); }
      case _ =>
    }
  }

  lemma PaymentStepCalled(env: Env, s: Sys, ls: seq<Label>, l: Label, pid: Id)
    requires Known(s) && AllCalled(ls, s) && pid in Apply(env, s, l).db.payments
    ensures PaymentCalled(ls + [l], Apply(env, s, l).db.payments[pid])
  {
    var w := WriteOf(env, s, l);
    var p := Apply(env, s, l).db.payments[pid];
    StepShape(env, s, l);
    if p.status.Settled? {
      CalledLater(ls, l, p.reference, p.status.verdict);
      if w.Decide? && w.pid == pid {
        assert ThreadCalled(ls, s.threads[l.t]) && ThreadKnown(s.db, s.threads[l.t]);
      } else {
        assert PaymentCalled(ls, s.db.payments[pid]);
      }
    }
  }

  /** As long as its order exists a payment stays, with its reference. */
  lemma PaymentStays(db: Db, w: Write, pid: Id)
    requires RowsKnown(db) && Fresh(db, w) && pid in db.payments && db.payments[pid].oid in Effect(db, w).orders
    ensures var db' := Effect(db, w);
      && pid in db'.payments && db'.payments[pid].oid == db.payments[pid].oid
      && db'.payments[pid].reference == db.payments[pid].reference
  {
  }

  lemma SentStays(ls: seq<Label>, l: Label, db: Db, w: Write, oid: Id, v: Verdict)
    requires RowsKnown(db) && Fresh(db, w) && oid in Effect(db, w).orders && OrderSent(ls, db, oid, v)
    ensures OrderSent(ls + [l], Effect(db, w), oid, v)
  {
    var pid :| pid in db.payments && db.payments[pid].oid == oid && Called(ls, db.payments[pid].reference, v);
    PaymentStays(db, w, pid);
    CalledLater(ls, l, db.payments[pid].reference, v);
  }

  /** An order's status becomes a verdict's image only through a callback's last write. */
  lemma ClosedBy(db: Db, w: Write, oid: Id, v: Verdict)
    requires RowsKnown(db) && Fresh(db, w) && oid in Effect(db, w).orders
    requires Effect(db, w).orders[oid].status == Image(v)
    ensures oid in db.orders
    ensures db.orders[oid].status == Image(v) || w == Close(oid, v)
  {
  }

  lemma OrderStepCalled(env: Env, s: Sys, ls: seq<Label>, payOf: PayOf, l: Label, oid: Id)
    requires Known(s) && Leads(s, payOf) && AllCalled(ls, s)
    ensures OrderCalled(ls + [l], Apply(env, s, l).db, oid)
  {
    var w := WriteOf(env, s, l);
    var db' := Apply(env, s, l).db;
    StepShape(env, s, l);
    if oid in db'.orders {
      forall v | db'.orders[oid].status == Image(v) ensures OrderSent(ls + [l], db', oid, v) {
        ClosedBy(s.db, w, oid, v);
        if db'.orders[oid].status == s.db.orders[oid].status {
          assert OrderCalled(ls, s.db, oid);
        } else {
          var th := s.threads[l.t];
          assert ThreadCalled(ls, th) && ThreadKnown(s.db, th) && ThreadLead(s.db, payOf, th);
          assert th.receipt.pid in s.db.payments;
        }
        SentStays(ls, l, s.db, w, oid, v);
      }
    }
  }

  lemma {:induction false} RunCalled(env: Env, users: set<Id>, ls: seq<Label>)
    ensures AllCalled(ls, Exec(env, Init(users), ls))
  {
    if ls != [] {
      var front := ls[..|ls| - 1];
      var l := ls[|ls| - 1];
      var s, s' := Exec(env, Init(users), front), Exec(env, Init(users), ls);
      assert front + [l] == ls;
      RunCalled(env, users, front);
      RunKnown(env, users, front);
      RunLeads(env, users, front);
      StepShape(env, s, l);
      forall t | t in s'.threads ensures ThreadCalled(ls, s'.threads[t]) {
        if Enabled(s, l) && t == l.t {
          MovedCalled(env, s, front, l);
        } else {
          ThreadCalledLater(front, l, s.threads[t]);
        }
      }
      forall pid | pid in s'.db.payments ensures PaymentCalled(ls, s'.db.payments[pid]) {
        PaymentStepCalled(env, s, front, l, pid);
      }
      forall oid ensures OrderCalled(ls, s'.db, oid) {
        OrderStepCalled(env, s, front, HistOf(env, Init(users), NO_HISTORY, front).payOf, l, oid);
      }
    }
  }

  // ----- Main results -----

  /** A settled payment was sent its verdict by an earlier callback. */
  lemma SettledWasCalled(env: Env, users: set<Id>, ls: seq<Label>, pid: Id)
    requires var db := Exec(env, Init(users), ls).db; pid in db.payments && db.payments[pid].status.Settled?
    ensures var p := Exec(env, Init(users), ls).db.payments[pid]; Called(ls, p.reference, p.status.verdict)
  {
    RunCalled(env, users, ls);
    assert PaymentCalled(ls, Exec(env, Init(users), ls).db.payments[pid]);
  }

  /** A closed order has a payment that was sent the order's verdict by an earlier callback. */
  lemma ClosedWasCalled(env: Env, users: set<Id>, ls: seq<Label>, oid: Id, v: Verdict)
    requires var db := Exec(env, Init(users), ls).db; oid in db.orders && db.orders[oid].status == Image(v)
    ensures OrderSent(ls, Exec(env, Init(users), ls).db, oid, v)
  {
    RunCalled(env, users, ls);
    assert OrderCalled(ls, Exec(env, Init(users), ls).db, oid);
  }

  ghost predicate Admitted(crypto: Crypto, secret: Bytes, reference: string, status: string) {
    exists payload, signature :: Admit(crypto, secret, payload, signature) == Ok((reference, status))
  }

  /** Every callback of the run came through the webhook gate. */
  ghost predicate Gated(crypto: Crypto, secret: Bytes, ls: seq<Label>) {
    forall i :: 0 <= i < |ls| && ls[i].StartCallback? ==> Admitted(crypto, secret, ls[i].reference, ls[i].status)
  }

  /** Some message that means this verdict for this reference came with a hex MAC of its very bytes. */
  ghost predicate Signed(crypto: Crypto, secret: Bytes, reference: string, v: Verdict) {
    exists payload, signature :: SignedBy(crypto, secret, payload, signature, reference, v)
  }

  predicate SignedBy(crypto: Crypto, secret: Bytes, payload: Bytes, signature: string, reference: string, v: Verdict) {
    && CaseVariant(signature, Encode(crypto.mac(secret, payload)))
    && crypto.parse(payload).Some? && crypto.parse(payload).value.0 == reference
    && ParseVerdict(crypto.parse(payload).value.1) == Some(v)
  }

  lemma CalledWasSigned(crypto: Crypto, secret: Bytes, ls: seq<Label>, reference: string, v: Verdict)
    requires (forall payload :: |crypto.mac(secret, payload)| == 32) && Gated(crypto, secret, ls)
    requires Called(ls, reference, v)
    ensures Signed(crypto, secret, reference, v)
  {
    var i :| 0 <= i < |ls| && Calls(ls[i], reference, v);
    var payload, signature :| Admit(crypto, secret, payload, signature) == Ok((ls[i].reference, ls[i].status));
    AcceptedSignatures(crypto, secret, payload, signature);
    assert SignedBy(crypto, secret, payload, signature, reference, v);
  }

  /** Behind the gate no payment is settled and no order closed, in any run, without a signed message saying so. */
  lemma NoVerdictUnsigned(env: Env, users: set<Id>, crypto: Crypto, secret: Bytes, ls: seq<Label>)
    requires (forall payload :: |crypto.mac(secret, payload)| == 32) && Gated(crypto, secret, ls)
    ensures var db := Exec(env, Init(users), ls).db;
      && (forall pid :: pid in db.payments && db.payments[pid].status.Settled? ==>
            Signed(crypto, secret, db.payments[pid].reference, db.payments[pid].status.verdict))
      && (forall oid, v :: oid in db.orders && db.orders[oid].status == Image(v) ==>
            exists pid :: pid in db.payments && db.payments[pid].oid == oid
                          && Signed(crypto, secret, db.payments[pid].reference, v))
  {
    var db := Exec(env, Init(users), ls).db;
    forall pid | pid in db.payments && db.payments[pid].status.Settled?
      ensures Signed(crypto, secret, db.payments[pid].reference, db.payments[pid].status.verdict)
    {
      SettledWasCalled(env, users, ls, pid);
      CalledWasSigned(crypto, secret, ls, db.payments[pid].reference, db.payments[pid].status.verdict);
    }
    forall oid, v | oid in db.orders && db.orders[oid].status == Image(v)
      ensures exists pid :: pid in db.payments && db.payments[pid].oid == oid
                            && Signed(crypto, secret, db.payments[pid].reference, v)
    {
      ClosedWasCalled(env, users, ls, oid, v);
      var pid :| pid in db.payments && db.payments[pid].oid == oid && Called(ls, db.payments[pid].reference, v);
      CalledWasSigned(crypto, secret, ls, db.payments[pid].reference, v);
    }
  }
}
