/** The serial operations are exactly what the protocol's threads do when nothing interleaves. */
module Composition {
  import opened Domain
  import opened Database
  import opened Protocol
  import opened Serial
  import opened Numbering

  function ReplyTo(owner: Option<Id>, r: Result<Receipt>): Thread {
    match r
    case Err(e) => Failure(owner, e)
    case Ok(p) => Done(owner, if owner.Some? then PaymentCreated(p) else PaymentFound(p))
  }

  function FoundBy(user: Id, r: Result<Receipt>): Thread {
    match r
    case Err(e) => Failure(Some(user), e)
    case Ok(p) => Done(Some(user), PaymentFound(p))
  }

  const NO_DAY: Date := Date(0, 0, 0)

  /** The labels of one Create run alone. */
  function PayLabels(t: Id, user: Id, oid: Id, pid: Id, counter: nat, sc: PayScript): seq<Label> {
    [StartPay(t, user, oid),
     Advance(t, Input(sc.read, pid, 0, None, 0, NO_DAY)),
     Advance(t, Input(NoFault, pid, NextNumber(counter), None, 0, NO_DAY)),
     Advance(t, Input(sc.insert, pid, 0, None, 0, NO_DAY)),
     Advance(t, Input(sc.mark, pid, 0, None, 0, NO_DAY))]
  }

  function PlainInput(fault: Fault, pick: Option<Id>): Input {
    Input(fault, 0, 0, pick, 0, NO_DAY)
  }

  /** The labels of one callback run alone. */
  function CallLabels(t: Id, reference: string, status: string, pick: Option<Id>, sc: CallScript): seq<Label> {
    [StartCallback(t, reference, status),
     Advance(t, PlainInput(sc.read, pick)),
     Advance(t, PlainInput(sc.write, pick)),
     Advance(t, PlainInput(sc.advance, pick))]
  }

  lemma ExecTail(env: Env, s: Sys, l: Label, ls: seq<Label>)
    ensures Exec(env, s, [l] + ls) == Exec(env, Apply(env, s, l), ls)
  {
    ExecAppend(env, s, [l], ls);
    assert [l][..0] == [];
    assert Exec(env, s, [l]) == Apply(env, Exec(env, s, []), l);
  }

  lemma FinishedStays(env: Env, s: Sys, t: Id, i: Input)
    requires t in s.threads && s.threads[t].Done?
    ensures Apply(env, s, Advance(t, i)) == s
  {
  }

  lemma ExecTwo(env: Env, s: Sys, a: Label, b: Label)
    ensures Exec(env, s, [a, b]) == Apply(env, Apply(env, s, a), b)
  {
    ExecTail(env, s, a, [b]);
    ExecTail(env, Apply(env, s, a), b, []);
    assert [a] + [b] == [a, b] && [b] + [] == [b];
  }

  lemma ExecSnoc(env: Env, s: Sys, ls: seq<Label>, l: Label)
    ensures Exec(env, s, ls + [l]) == Apply(env, Exec(env, s, ls), l)
  {
    assert (ls + [l])[..|ls|] == ls;
  }

  lemma ExecFour(env: Env, s: Sys, ls: seq<Label>)
    requires |ls| == 4
    ensures Exec(env, s, ls) == Apply(env, Apply(env, Apply(env, Apply(env, s, ls[0]), ls[1]), ls[2]), ls[3])
  {
    assert ls == [ls[0], ls[1]] + [ls[2], ls[3]];
    ExecAppend(env, s, [ls[0], ls[1]], [ls[2], ls[3]]);
    ExecTwo(env, s, ls[0], ls[1]);
    ExecTwo(env, Apply(env, Apply(env, s, ls[0]), ls[1]), ls[2], ls[3]);
  }

  lemma ExecFive(env: Env, s: Sys, ls: seq<Label>)
    requires |ls| == 5
    ensures Exec(env, s, ls) ==
      Apply(env, Apply(env, Apply(env, Apply(env, Apply(env, s, ls[0]), ls[1]), ls[2]), ls[3]), ls[4])
  {
    var s2 := Apply(env, Apply(env, s, ls[0]), ls[1]);
    assert ls == [ls[0], ls[1]] + ([ls[2]] + [ls[3], ls[4]]);
    ExecAppend(env, s, [ls[0], ls[1]], [ls[2]] + [ls[3], ls[4]]);
    ExecTwo(env, s, ls[0], ls[1]);
    ExecTail(env, s2, ls[2], [ls[3], ls[4]]);
    ExecTwo(env, Apply(env, s2, ls[2]), ls[3], ls[4]);
  }

  /** From the payment insert on, a Create does what Charge says. */
  lemma InsertStage(env: Env, s: Sys, t: Id, user: Id, oid: Id, gross: int, pid: Id, c: nat, sc: PayScript)
    requires t in s.threads && s.threads[t] == PayInsert(user, oid, gross, Reference(NextNumber(c)))
    requires s.counter == NextNumber(c) && pid !in s.db.used
    ensures var s' := Apply(env, Apply(env, s, Advance(t, Input(sc.insert, pid, 0, None, 0, NO_DAY))),
                            Advance(t, Input(sc.mark, pid, 0, None, 0, NO_DAY)));
            var (w', r) := Charge(World(s.db, c), user, oid, gross, pid, sc);
      s' == Sys(w'.db, w'.counter, s.draws, s.threads[t := ReplyTo(Some(user), r)], s.files)
  {
    var i := Input(sc.insert, pid, 0, None, 0, NO_DAY);
    var s1 := Apply(env, s, Advance(t, i));
    assert s1.threads[t] == NextPayInsert(s.db, user, oid, gross, Reference(NextNumber(c)), i);
    assert s1.db == Under(sc.insert, s.db, NewPayment(pid, oid, Reference(NextNumber(c)), gross));
  }

  /** Up to the gateway's number, a Create does what Pay says. */
  lemma DrawStage(env: Env, s: Sys, t: Id, user: Id, oid: Id, pid: Id, sc: PayScript)
    requires t !in s.threads && pid !in s.db.used
    ensures var ls := PayLabels(t, user, oid, pid, s.counter, sc);
            var th := NextPayRead(s.db, user, oid, ls[1].input);
            var s2 := Apply(env, Apply(env, s, ls[0]), ls[1]);
            var n := NextNumber(s.counter);
      && s2 == s.(threads := s.threads[t := th])
      && (th.PayDraw? ==>
            && th == PayDraw(user, oid, th.gross)
            && Apply(env, s2, ls[2]) == s.(counter := NextNumber(s.counter), draws := s.draws + 1,
                                           threads := s.threads[t := PayInsert(user, oid, th.gross, Reference(n))])
            && Pay(World(s.db, s.counter), user, oid, pid, sc) ==
                 Charge(World(s.db, s.counter), user, oid, th.gross, pid, sc))
      && (!th.PayDraw? ==>
            && th.Done?
            && Pay(World(s.db, s.counter), user, oid, pid, sc).0 == World(s.db, s.counter)
            && th == ReplyTo(Some(user), Pay(World(s.db, s.counter), user, oid, pid, sc).1))
  {
    var ls := PayLabels(t, user, oid, pid, s.counter, sc);
    var s1 := Apply(env, s, ls[0]);
    assert s1 == s.(threads := s.threads[t := PayRead(user, oid)]);
    var s2 := Apply(env, s1, ls[1]);
    assert s2.threads == s.threads[t := NextPayRead(s.db, user, oid, ls[1].input)];
  }

  /** A Create run alone does what Pay says, touches no other thread and no file. */
  lemma PayComposes(env: Env, s: Sys, t: Id, user: Id, oid: Id, pid: Id, sc: PayScript)
    requires t !in s.threads && pid !in s.db.used
    ensures var s' := Exec(env, s, PayLabels(t, user, oid, pid, s.counter, sc));
            var (w', r) := Pay(World(s.db, s.counter), user, oid, pid, sc);
      s' == Sys(w'.db, w'.counter, s'.draws, s.threads[t := ReplyTo(Some(user), r)], s.files)
  {
    var ls := PayLabels(t, user, oid, pid, s.counter, sc);
    var s2 := Apply(env, Apply(env, s, ls[0]), ls[1]);
    var s3 := Apply(env, s2, ls[2]);
    ExecFive(env, s, ls);
    DrawStage(env, s, t, user, oid, pid, sc);
    if s2.threads[t].PayDraw? {
      InsertStage(env, s3, t, user, oid, s2.threads[t].gross, pid, s.counter, sc);
    } else {
      FinishedStays(env, s2, t, ls[2].input);
      FinishedStays(env, s2, t, ls[3].input);
      FinishedStays(env, s2, t, ls[4].input);
    }
  }

  /** From the payment's status write on, a callback does what SettleBoth says. */
  lemma SettleStage(env: Env, s: Sys, t: Id, p: Receipt, v: Verdict, pick: Option<Id>, sc: CallScript)
    requires t in s.threads && s.threads[t] == CallWrite(p, v)
    ensures var s1 := Apply(env, s, Advance(t, PlainInput(sc.write, pick)));
            var s' := Apply(env, s1, Advance(t, PlainInput(sc.advance, pick)));
            var (db', r) := SettleBoth(s.db, p, v, sc);
      s' == s.(db := db', threads := s.threads[t := ReplyTo(None, r)])
  {
    var i := PlainInput(sc.write, pick);
    var s1 := Apply(env, s, Advance(t, i));
    assert s1.threads[t] == NextCallWrite(s.db, p, v, i);
    assert s1.db == Under(sc.write, s.db, Decide(p.pid, v));
  }

  /** Up to the payment's status write, a callback does what Callback says. */
  lemma FoundStage(env: Env, s: Sys, t: Id, reference: string, status: string, pick: Option<Id>, sc: CallScript)
    requires t !in s.threads && Picks(s.db, reference, pick)
    ensures var ls := CallLabels(t, reference, status, pick, sc);
            var s2 := Apply(env, Apply(env, s, ls[0]), ls[1]);
            var (db', r) := Callback(s.db, pick, status, sc);
      && t in s2.threads
      && s2 == s.(threads := s.threads[t := s2.threads[t]])
      && (if s2.threads[t].CallWrite? then
            Callback(s.db, pick, status, sc) == SettleBoth(s.db, s2.threads[t].receipt, s2.threads[t].verdict, sc)
          else
            s2.threads[t].Done? && db' == s.db && s2.threads[t] == ReplyTo(None, r))
  {
    var ls := CallLabels(t, reference, status, pick, sc);
    var s1 := Apply(env, s, ls[0]);
    assert s1 == s.(threads := s.threads[t := NextRequest(env, s.db, ls[0])]);
    var s2 := Apply(env, s1, ls[1]);
    if s1.threads[t].CallRead? {
      assert s2 == s.(threads := s.threads[t := NextCallRead(s.db, s1.threads[t].verdict, ls[1].input)]);
    } else {
      FinishedStays(env, s1, t, ls[1].input);
    }
  }

  /** A callback run alone does what Callback says, for whichever row the lookup returns. */
  lemma CallComposes(env: Env, s: Sys, t: Id, reference: string, status: string, pick: Option<Id>, sc: CallScript)
    requires t !in s.threads && Picks(s.db, reference, pick)
    ensures var s' := Exec(env, s, CallLabels(t, reference, status, pick, sc));
            var (db', r) := Callback(s.db, pick, status, sc);
      s' == s.(db := db', threads := s.threads[t := ReplyTo(None, r)])
  {
    var ls := CallLabels(t, reference, status, pick, sc);
    var s2 := Apply(env, Apply(env, s, ls[0]), ls[1]);
    ExecFour(env, s, ls);
    FoundStage(env, s, t, reference, status, pick, sc);
    if s2.threads[t].CallWrite? {
      SettleStage(env, s2, t, s2.threads[t].receipt, s2.threads[t].verdict, pick, sc);
    } else {
      FinishedStays(env, s2, t, ls[2].input);
      FinishedStays(env, s2, t, ls[3].input);
    }
  }

  /** The labels of one payment lookup run alone. */
  function GetLabels(t: Id, user: Id, pid: Id, read: Fault, check: Fault): seq<Label> {
    [StartGet(t, user, pid), Advance(t, PlainInput(read, None)), Advance(t, PlainInput(check, None))]
  }

  /** A lookup run alone answers what GetPayment says and changes nothing else. */
  lemma GetComposes(env: Env, s: Sys, t: Id, user: Id, pid: Id, read: Fault, check: Fault)
    requires t !in s.threads
    ensures Exec(env, s, GetLabels(t, user, pid, read, check)) ==
      s.(threads := s.threads[t := FoundBy(user, GetPayment(s.db, user, pid, read, check))])
  {
    var ls := GetLabels(t, user, pid, read, check);
    var s2 := Apply(env, Apply(env, s, ls[0]), ls[1]);
    ExecThree(env, s, ls);
    GetReadStage(env, s, t, user, pid, ls[1].input);
    if s2.threads[t].Done? {
      FinishedStays(env, s2, t, ls[2].input);
    } else {
      GetCheckStage(env, s2, t, user, s2.threads[t].receipt, ls[2].input);
    }
  }

  lemma GetReadStage(env: Env, s: Sys, t: Id, user: Id, pid: Id, input: Input)
    requires t !in s.threads
    ensures Apply(env, Apply(env, s, StartGet(t, user, pid)), Advance(t, input)) ==
      s.(threads := s.threads[t := NextGetRead(s.db, user, pid, input)])
  {
    var s1 := Apply(env, s, StartGet(t, user, pid));
    assert s1 == s.(threads := s.threads[t := GetRead(user, pid)]);
    assert Apply(env, s1, Advance(t, input)).threads == s.threads[t := NextGetRead(s.db, user, pid, input)];
  }

  lemma GetCheckStage(env: Env, s: Sys, t: Id, user: Id, r: Receipt, input: Input)
    requires t in s.threads && s.threads[t] == GetCheck(user, r)
    ensures Apply(env, s, Advance(t, input)) == s.(threads := s.threads[t := NextGetCheck(s.db, user, r, input)])
  {
  }

  lemma ExecThree(env: Env, s: Sys, ls: seq<Label>)
    requires |ls| == 3
    ensures Exec(env, s, ls) == Apply(env, Apply(env, Apply(env, s, ls[0]), ls[1]), ls[2])
  {
    assert ls == [ls[0], ls[1]] + [ls[2]];
    ExecAppend(env, s, [ls[0], ls[1]], [ls[2]]);
    ExecTwo(env, s, ls[0], ls[1]);
    ExecTail(env, Apply(env, Apply(env, s, ls[0]), ls[1]), ls[2], []);
    assert [ls[2]] + [] == [ls[2]];
  }
}
