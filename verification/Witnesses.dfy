/** Concrete runs: every allowed status pair is reached, and what the service does not promise does happen. */
module Witnesses {
  import opened Domain
  import opened Money
  import opened Database
  import opened Numbering
  import opened Protocol
  import opened Serial
  import opened Composition
  import opened Pairs
  import opened Agreement

  // User 1 creates order 10 of one unit at price one; its payment is 11. User 2 owns nothing, and 12 names no row.

  function Req(symbol: Bytes): OrderRequest {
    OrderRequest(symbol, "BUY", 1.0, 1.0)
  }

  function OrderRow(symbol: Bytes, st: OrderStatus): Order {
    Order(1, symbol, "BUY", SCALE, SCALE, st)
  }

  function PaymentRow(st: PaymentStatus): Payment {
    Payment(10, Reference(1), SCALE, st)
  }

  function Creation(symbol: Bytes): Label {
    CreateOrder(1, 1, Req(symbol), 10, NoFault)
  }

  function DbOrdered(symbol: Bytes): Db {
    Db({1}, map[10 := OrderRow(symbol, Pending)], map[], map[], {10})
  }

  function DbCharged(symbol: Bytes, p: PaymentStatus, o: OrderStatus): Db {
    Db({1}, map[10 := OrderRow(symbol, o)], map[11 := PaymentRow(p)], map[], {10, 11})
  }

  function SysOrdered(symbol: Bytes): Sys {
    Sys(DbOrdered(symbol), 0, 0, map[1 := Done(Some(1), OrderCreated(10, Req(symbol)))], map[])
  }

  lemma OrderedRun(env: Env, symbol: Bytes)
    requires SymbolOk(env.upper, symbol)
    ensures Exec(env, Init({1}), [Creation(symbol)]) == SysOrdered(symbol)
  {
    ExecTail(env, Init({1}), Creation(symbol), []);
    assert [Creation(symbol)] + [] == [Creation(symbol)];
    assert ToUnits(1.0) == SCALE;
    assert EmptyDb({1}).orders[10 := OrderRow(symbol, Pending)] == DbOrdered(symbol).orders;
    assert EmptyDb({1}).used + {10} == {10};
    assert Attempt(EmptyDb({1}), NewOrder(10, 1, Req(symbol))) == Ok(DbOrdered(symbol));
  }

  // ----- A Create, with or without its second write -----

  function PayRun(symbol: Bytes, mark: Fault): seq<Label> {
    [Creation(symbol)] + PayLabels(2, 1, 10, 11, 0, PayScript(NoFault, NoFault, mark))
  }

  function Marked(mark: Fault): OrderStatus {
    if mark.LostCall? then Pending else PendingPayment
  }

  lemma PayRunResult(env: Env, symbol: Bytes, mark: Fault)
    requires SymbolOk(env.upper, symbol)
    ensures var s := Exec(env, Init({1}), PayRun(symbol, mark));
      s.db == DbCharged(symbol, Unsettled, Marked(mark)) && s.counter == 1 && s.threads.Keys == {1, 2} && Quiet(s)
  {
    var s1 := SysOrdered(symbol);
    var sc := PayScript(NoFault, NoFault, mark);
    OrderedRun(env, symbol);
    ExecAppend(env, Init({1}), [Creation(symbol)], PayLabels(2, 1, 10, 11, 0, sc));
    PayComposes(env, s1, 2, 1, 10, 11, sc);
    var gross := SCALE * SCALE;
    assert Gross(s1.db.orders[10]) == gross && AmountStorable(gross) && Rescale(gross) == SCALE;
    assert Effect(s1.db, NewPayment(11, 10, Reference(1), gross)) == DbCharged(symbol, Unsettled, Pending);
    assert Effect(DbCharged(symbol, Unsettled, Pending), Mark(1, 10)) == DbCharged(symbol, Unsettled, PendingPayment);
  }

  // ----- ... followed by a callback, with or without its second write -----

  function StatusText(v: Verdict): string {
    if v.VPaid? then "paid" else "failed"
  }

  function CallRun(symbol: Bytes, mark: Fault, v: Verdict, advance: Fault): seq<Label> {
    PayRun(symbol, mark) +
      CallLabels(3, Reference(1), StatusText(v), Some(11), CallScript(NoFault, NoFault, advance))
  }

  lemma CallbackOn(symbol: Bytes, o: OrderStatus, v: Verdict, advance: Fault)
    ensures var sc := CallScript(NoFault, NoFault, advance);
      Callback(DbCharged(symbol, Unsettled, o), Some(11), StatusText(v), sc).0 ==
      DbCharged(symbol, Settled(v), if advance.LostCall? then o else Image(v))
  {
    var db := DbCharged(symbol, Unsettled, o);
    assert ParseVerdict(StatusText(v)) == Some(v);
    assert Effect(db, Decide(11, v)) == DbCharged(symbol, Settled(v), o);
    assert Effect(DbCharged(symbol, Settled(v), o), Close(10, v)) == DbCharged(symbol, Settled(v), Image(v));
  }

  lemma CallRunResult(env: Env, symbol: Bytes, mark: Fault, v: Verdict, advance: Fault)
    requires SymbolOk(env.upper, symbol)
    ensures var s := Exec(env, Init({1}), CallRun(symbol, mark, v, advance));
      s.db == DbCharged(symbol, Settled(v), if advance.LostCall? then Marked(mark) else Image(v))
  {
    var s2 := Exec(env, Init({1}), PayRun(symbol, mark));
    var sc := CallScript(NoFault, NoFault, advance);
    PayRunResult(env, symbol, mark);
    ExecAppend(env, Init({1}), PayRun(symbol, mark), CallLabels(3, Reference(1), StatusText(v), Some(11), sc));
    CallComposes(env, s2, 3, Reference(1), StatusText(v), Some(11), sc);
    CallbackOn(symbol, Marked(mark), v, advance);
  }

  /** The serial run that ends in a given pair. */
  function WitnessRun(symbol: Bytes, p: Pair): seq<Label> {
    match p.payment
    case None => [Creation(symbol)]
    case Some(Unsettled) => PayRun(symbol, if p.order == Pending then LostCall else NoFault)
    case Some(Settled(v)) =>
      CallRun(symbol, if p.order == Pending then LostCall else NoFault, v,
              if p.order == Image(v) then NoFault else LostCall)
  }

  lemma PrefixQuiet(env: Env, symbol: Bytes, mark: Fault)
    requires SymbolOk(env.upper, symbol)
    ensures SerialRun(env, Init({1}), PayRun(symbol, mark))
  {
    var ls := PayRun(symbol, mark);
    OrderedRun(env, symbol);
    forall i | 0 <= i < |ls| && Arrives(ls[i]) ensures Quiet(Exec(env, Init({1}), ls[..i])) {
      assert i == 0 || i == 1;
      assert ls[..0] == [] && ls[..1] == [Creation(symbol)];
    }
  }

  lemma CallRunSerial(env: Env, symbol: Bytes, mark: Fault, v: Verdict, advance: Fault)
    requires SymbolOk(env.upper, symbol)
    ensures SerialRun(env, Init({1}), CallRun(symbol, mark, v, advance))
  {
    var ls, front := CallRun(symbol, mark, v, advance), PayRun(symbol, mark);
    PrefixQuiet(env, symbol, mark);
    PayRunResult(env, symbol, mark);
    forall i | 0 <= i < |ls| && Arrives(ls[i]) ensures Quiet(Exec(env, Init({1}), ls[..i])) {
      if i < |front| {
        assert front[i] == ls[i] && front[..i] == ls[..i];
      } else {
        assert i == |front|;
        assert ls[..i] == front;
      }
    }
  }

  /** Each of the nine pairs is the end of a serial run; with SerialPairs, serial runs reach exactly the nine. */
  lemma NineReached(env: Env, symbol: Bytes, p: Pair)
    requires SymbolOk(env.upper, symbol) && p in NINE
    ensures var ls := WitnessRun(symbol, p); var db := Exec(env, Init({1}), ls).db;
      SerialRun(env, Init({1}), ls) && 10 in db.orders && PairOf(db, 10) == p
  {
    NineAreBehind(p);
    match p.payment {
      case None =>
        OrderedRun(env, symbol);
        assert [Creation(symbol)][..0] == [];
      case Some(Unsettled) =>
        PayRunResult(env, symbol, if p.order == Pending then LostCall else NoFault);
        PrefixQuiet(env, symbol, if p.order == Pending then LostCall else NoFault);
        assert PaymentOf(DbCharged(symbol, Unsettled, p.order), 10).Some? by {
          assert 11 in DbCharged(symbol, Unsettled, p.order).payments;
        }
      case Some(Settled(v)) =>
        var mark := if p.order == Pending then LostCall else NoFault;
        var advance := if p.order == Image(v) then NoFault else LostCall;
        CallRunResult(env, symbol, mark, v, advance);
        CallRunSerial(env, symbol, mark, v, advance);
        assert PaymentOf(DbCharged(symbol, Settled(v), p.order), 10).Some? by {
          assert 11 in DbCharged(symbol, Settled(v), p.order).payments;
        }
    }
  }

  // ----- Interleavings -----

  function Other(v: Verdict): Verdict {
    if v.VPaid? then VFailed else VPaid
  }

  function In(pick: Option<Id>): Input {
    PlainInput(NoFault, pick)
  }

  function Row(st: PaymentStatus): Receipt {
    ReceiptOf(11, PaymentRow(st))
  }

  /** Two callbacks with opposite verdicts both read "pending" before either writes. */
  function CrossLabels(v: Verdict): seq<Label> {
    [StartCallback(3, Reference(1), StatusText(v)), StartCallback(4, Reference(1), StatusText(Other(v))),
     Advance(3, In(Some(11))), Advance(4, In(Some(11))),
     Advance(4, In(None))]
  }

  function CrossRun(symbol: Bytes, v: Verdict): seq<Label> {
    PayRun(symbol, NoFault) + CrossLabels(v)
  }

  /** Thread 3 then overwrites the verdict, and the order updates land in the other order. */
  function CrossTail(): seq<Label> {
    [Advance(3, In(None)), Advance(3, In(None)), Advance(4, In(None))]
  }

  /** The state after a clean Create, from which both callbacks start. */
  predicate CreatedOnce(symbol: Bytes, s: Sys) {
    s.db == DbCharged(symbol, Unsettled, PendingPayment) && s.counter == 1 && s.threads.Keys == {1, 2}
  }

  lemma CrossStarts(env: Env, symbol: Bytes, v: Verdict, s: Sys)
    requires CreatedOnce(symbol, s)
    ensures Apply(env, Apply(env, s, CrossLabels(v)[0]), CrossLabels(v)[1]) ==
      s.(threads := s.threads[3 := CallRead(Reference(1), v)][4 := CallRead(Reference(1), Other(v))])
  {
    var ls := CrossLabels(v);
    var a := s.(threads := s.threads[3 := CallRead(Reference(1), v)]);
    assert Apply(env, s, ls[0]) == a;
    assert ParseVerdict(StatusText(v)) == Some(v) && ParseVerdict(StatusText(Other(v))) == Some(Other(v));
  }

  /** A fault-free lookup that finds the pending row. */
  lemma ReadStep(env: Env, symbol: Bytes, s: Sys, t: Id, v: Verdict)
    requires s.db == DbCharged(symbol, Unsettled, PendingPayment) && s.counter == 1
    requires t in s.threads && s.threads[t] == CallRead(Reference(1), v)
    ensures Apply(env, s, Advance(t, In(Some(11)))) == s.(threads := s.threads[t := CallWrite(Row(Unsettled), v)])
  {
    assert SelectPayment(s.db, 11) == Ok(Row(Unsettled));
  }

  lemma CrossReads(env: Env, symbol: Bytes, v: Verdict, s: Sys)
    requires CreatedOnce(symbol, s)
    ensures Exec(env, s, CrossLabels(v)[..4]) ==
      s.(threads := s.threads[3 := CallWrite(Row(Unsettled), v)][4 := CallWrite(Row(Unsettled), Other(v))])
  {
    var ls := CrossLabels(v);
    var a := s.(threads := s.threads[3 := CallRead(Reference(1), v)][4 := CallRead(Reference(1), Other(v))]);
    CrossStarts(env, symbol, v, s);
    ExecFour(env, s, ls[..4]);
    BothRead(env, symbol, v, a);
    Overwritten(s.threads, CallRead(Reference(1), v), CallRead(Reference(1), Other(v)),
                CallWrite(Row(Unsettled), v), CallWrite(Row(Unsettled), Other(v)));
  }

  lemma Overwritten(m: Threads, a: Thread, b: Thread, c: Thread, d: Thread)
    ensures m[3 := a][4 := b][3 := c][4 := d] == m[3 := c][4 := d]
  {
  }

  lemma BothRead(env: Env, symbol: Bytes, v: Verdict, a: Sys)
    requires a.db == DbCharged(symbol, Unsettled, PendingPayment) && a.counter == 1
    requires 3 in a.threads && a.threads[3] == CallRead(Reference(1), v)
    requires 4 in a.threads && a.threads[4] == CallRead(Reference(1), Other(v))
    ensures Apply(env, Apply(env, a, Advance(3, In(Some(11)))), Advance(4, In(Some(11)))) ==
      a.(threads := a.threads[3 := CallWrite(Row(Unsettled), v)][4 := CallWrite(Row(Unsettled), Other(v))])
  {
    ReadStep(env, symbol, a, 3, v);
    ReadStep(env, symbol, a.(threads := a.threads[3 := CallWrite(Row(Unsettled), v)]), 4, Other(v));
  }

  /** Writing a verdict or closing the order, on these rows. */
  lemma RowEffects(symbol: Bytes, p: PaymentStatus, o: OrderStatus, v: Verdict)
    ensures Effect(DbCharged(symbol, p, o), Decide(11, v)) == DbCharged(symbol, Settled(v), o)
    ensures Effect(DbCharged(symbol, p, o), Close(10, v)) == DbCharged(symbol, p, Image(v))
    ensures Effect(DbCharged(symbol, p, o), Mark(1, 10)) == DbCharged(symbol, p, PendingPayment)
  {
  }

  /** A fault-free status write by a callback that read "pending", whatever the row holds by now. */
  lemma WriteStep(env: Env, symbol: Bytes, s: Sys, t: Id, p: PaymentStatus, v: Verdict)
    requires s.db == DbCharged(symbol, p, PendingPayment) && s.counter == 1
    requires t in s.threads && s.threads[t] == CallWrite(Row(Unsettled), v)
    ensures Apply(env, s, Advance(t, In(None))) ==
      s.(db := DbCharged(symbol, Settled(v), PendingPayment),
         threads := s.threads[t := CallAdvance(Row(Settled(v)), v)])
  {
    RowEffects(symbol, p, PendingPayment, v);
    assert NextThread(env, s.db, s.threads[t], In(None)) == CallAdvance(Row(Settled(v)), v);
  }

  /** A terminal payment status is not final: here the first verdict stands, and the next step replaces it. */
  lemma VerdictOverwritten(env: Env, symbol: Bytes, v: Verdict)
    requires SymbolOk(env.upper, symbol)
    ensures var s := Exec(env, Init({1}), CrossRun(symbol, v)); var s' := Apply(env, s, CrossTail()[0]);
      && s.db == DbCharged(symbol, Settled(Other(v)), PendingPayment)
      && s'.db == DbCharged(symbol, Settled(v), PendingPayment)
      && 3 in s'.threads && s'.threads[3] == CallAdvance(Row(Settled(v)), v)
      && 4 in s'.threads && s'.threads[4] == CallAdvance(Row(Settled(Other(v))), Other(v))
      && s'.counter == 1
  {
    var s2 := Exec(env, Init({1}), PayRun(symbol, NoFault));
    var ls := CrossLabels(v);
    PayRunResult(env, symbol, NoFault);
    CrossReads(env, symbol, v, s2);
    ExecAppend(env, Init({1}), PayRun(symbol, NoFault), ls);
    assert ls == ls[..4] + [ls[4]];
    ExecSnoc(env, s2, ls[..4], ls[4]);
    WriteStep(env, symbol, Exec(env, s2, ls[..4]), 4, Unsettled, Other(v));
    WriteStep(env, symbol, Exec(env, s2, ls), 3, Settled(Other(v)), v);
  }

  /** A fault-free order write by a callback that has written its verdict. */
  lemma CloseStep(env: Env, symbol: Bytes, s: Sys, t: Id, p: PaymentStatus, o: OrderStatus, v: Verdict)
    requires s.db == DbCharged(symbol, p, o) && s.counter == 1
    requires t in s.threads && s.threads[t] == CallAdvance(Row(Settled(v)), v)
    ensures Apply(env, s, Advance(t, In(None))) ==
      s.(db := DbCharged(symbol, p, Image(v)), threads := s.threads[t := Done(None, PaymentFound(Row(Settled(v))))])
  {
    RowEffects(symbol, p, o, v);
    assert NextThread(env, s.db, s.threads[t], In(None)) == Done(None, PaymentFound(Row(Settled(v))));
  }

  /** ... and the order can end with the verdict the payment lost: both crossed pairs are reached, without any fault. */
  lemma CrossedReached(env: Env, symbol: Bytes, v: Verdict)
    requires SymbolOk(env.upper, symbol)
    ensures Exec(env, Init({1}), CrossRun(symbol, v) + CrossTail()).db == DbCharged(symbol, Settled(v), Image(Other(v)))
  {
    var s := Exec(env, Init({1}), CrossRun(symbol, v));
    var tail := CrossTail();
    var s1 := Apply(env, s, tail[0]);
    var s2 := Apply(env, s1, tail[1]);
    VerdictOverwritten(env, symbol, v);
    ExecAppend(env, Init({1}), CrossRun(symbol, v), tail);
    assert tail == [tail[0]] + [tail[1], tail[2]];
    ExecTail(env, s, tail[0], [tail[1], tail[2]]);
    ExecTwo(env, s1, tail[1], tail[2]);
    CloseStep(env, symbol, s1, 3, Settled(v), PendingPayment, v);
    CloseStep(env, symbol, s2, 4, Settled(v), Image(v), Other(v));
  }

  /** With InterleavedPairs: arbitrary runs reach exactly the nine pairs and the two crossed ones. */
  lemma ElevenReached(env: Env, symbol: Bytes, p: Pair)
    requires SymbolOk(env.upper, symbol) && p in NINE + CROSSED
    ensures exists ls :: 10 in Exec(env, Init({1}), ls).db.orders && PairOf(Exec(env, Init({1}), ls).db, 10) == p
  {
    if p in NINE {
      NineReached(env, symbol, p);
    } else {
      var v := p.payment.value.verdict;
      CrossedReached(env, symbol, v);
      var db := Exec(env, Init({1}), CrossRun(symbol, v) + CrossTail()).db;
      assert 11 in db.payments;
      assert PairOf(db, 10) == p;
    }
  }

  /** A Create whose last write is overtaken by a whole callback. */
  function LateLabels(): seq<Label> {
    PayLabels(2, 1, 10, 11, 0, PAY_CLEAN)[..4]
  }

  function LateRun(symbol: Bytes, v: Verdict): seq<Label> {
    [Creation(symbol)] + LateLabels() +
      CallLabels(3, Reference(1), StatusText(v), Some(11), CALL_CLEAN) + [Advance(2, In(None))]
  }

  /** The first three steps of a fault-free Create. */
  lemma LateDraws(env: Env, symbol: Bytes)
    requires SymbolOk(env.upper, symbol)
    ensures var s1 := SysOrdered(symbol); var ls := LateLabels();
      Apply(env, Apply(env, Apply(env, s1, ls[0]), ls[1]), ls[2]) ==
        s1.(counter := 1, draws := 1, threads := s1.threads[2 := PayInsert(1, 10, SCALE * SCALE, Reference(1))])
  {
    var ls := LateLabels();
    var s1 := SysOrdered(symbol);
    var a := s1.(threads := s1.threads[2 := PayRead(1, 10)]);
    var b := a.(threads := a.threads[2 := PayDraw(1, 10, SCALE * SCALE)]);
    assert Gross(s1.db.orders[10]) == SCALE * SCALE;
    assert Apply(env, s1, ls[0]) == a;
    assert Apply(env, a, ls[1]) == b;
  }

  /** The payment insert, fault-free. */
  lemma InsertStep(env: Env, symbol: Bytes, s: Sys, i: Input)
    requires s.db == DbOrdered(symbol) && s.counter == 1 && i == Input(NoFault, 11, 0, None, 0, NO_DAY)
    requires 2 in s.threads && s.threads[2] == PayInsert(1, 10, SCALE * SCALE, Reference(1))
    ensures Apply(env, s, Advance(2, i)) ==
      s.(db := DbCharged(symbol, Unsettled, Pending),
         threads := s.threads[2 := PayMark(1, Receipt(11, 10, Reference(1), SCALE * SCALE, Unsettled))])
  {
    var gross := SCALE * SCALE;
    assert AmountStorable(gross) && Rescale(gross) == SCALE;
    assert Effect(s.db, NewPayment(11, 10, Reference(1), gross)) == DbCharged(symbol, Unsettled, Pending);
  }

  lemma LateInserts(env: Env, symbol: Bytes)
    requires SymbolOk(env.upper, symbol)
    ensures var s := Exec(env, Init({1}), [Creation(symbol)] + LateLabels());
      && s.db == DbCharged(symbol, Unsettled, Pending) && s.counter == 1 && s.threads.Keys == {1, 2}
      && s.threads[1].Done? && s.threads[2] == PayMark(1, Receipt(11, 10, Reference(1), SCALE * SCALE, Unsettled))
  {
    var ls := LateLabels();
    var s1 := SysOrdered(symbol);
    OrderedRun(env, symbol);
    ExecAppend(env, Init({1}), [Creation(symbol)], ls);
    ExecFour(env, s1, ls);
    LateDraws(env, symbol);
    InsertStep(env, symbol, Apply(env, Apply(env, Apply(env, s1, ls[0]), ls[1]), ls[2]), ls[3].input);
  }

  /**
   Agreement needs callbacks to wait for Create: without any fault, with one callback and everything
   finished, the payment is settled and the order is back at "pending_payment".
   */
  lemma LateMarkDisagrees(env: Env, symbol: Bytes, v: Verdict)
    requires SymbolOk(env.upper, symbol)
    ensures var s := Exec(env, Init({1}), LateRun(symbol, v));
      s.db == DbCharged(symbol, Settled(v), PendingPayment) && Quiet(s) && !InStep(s.db, 10)
  {
    var ls := [Creation(symbol)] + LateLabels() + CallLabels(3, Reference(1), StatusText(v), Some(11), CALL_CLEAN);
    LateCall(env, symbol, v);
    ExecSnoc(env, Init({1}), ls, Advance(2, In(None)));
    MarkStep(env, symbol, Exec(env, Init({1}), ls), v);
    assert 11 in DbCharged(symbol, Settled(v), PendingPayment).payments;
  }

  /** The whole callback, while the Create still owes its mark. */
  lemma LateCall(env: Env, symbol: Bytes, v: Verdict)
    requires SymbolOk(env.upper, symbol)
    ensures var call := CallLabels(3, Reference(1), StatusText(v), Some(11), CALL_CLEAN);
      var s := Exec(env, Init({1}), [Creation(symbol)] + LateLabels() + call);
      && s.db == DbCharged(symbol, Settled(v), Image(v)) && s.counter == 1 && s.threads.Keys == {1, 2, 3}
      && s.threads[1].Done? && s.threads[3].Done?
      && s.threads[2] == PayMark(1, Receipt(11, 10, Reference(1), SCALE * SCALE, Unsettled))
  {
    var early := [Creation(symbol)] + LateLabels();
    LateInserts(env, symbol);
    ExecAppend(env, Init({1}), early, CallLabels(3, Reference(1), StatusText(v), Some(11), CALL_CLEAN));
    CallComposes(env, Exec(env, Init({1}), early), 3, Reference(1), StatusText(v), Some(11), CALL_CLEAN);
    CallbackOn(symbol, Pending, v, NoFault);
  }

  /** The late second write of the Create. */
  lemma MarkStep(env: Env, symbol: Bytes, s: Sys, v: Verdict)
    requires s.db == DbCharged(symbol, Settled(v), Image(v)) && s.counter == 1
    requires 2 in s.threads && s.threads[2] == PayMark(1, Receipt(11, 10, Reference(1), SCALE * SCALE, Unsettled))
    ensures Apply(env, s, Advance(2, In(None))) ==
      s.(db := DbCharged(symbol, Settled(v), PendingPayment),
         threads := s.threads[2 := Done(Some(1), PaymentCreated(s.threads[2].receipt))])
  {
    RowEffects(symbol, Settled(v), Image(v), v);
  }

  /**
   A Get of a foreign payment whose second read fails is told so, where a Get of a missing payment is told
   "not found": user 2 learns that payment 11 exists. The leaky steps of isolation do occur.
   */
  lemma ForeignPaymentShows(env: Env, symbol: Bytes)
    requires SymbolOk(env.upper, symbol)
    ensures var s := Exec(env, Init({1}), PayRun(symbol, NoFault) + GetLabels(3, 2, 11, NoFault, LostCall));
      3 in s.threads && s.threads[3] == Failure(Some(2), Driver)
    ensures var s := Exec(env, Init({1}), PayRun(symbol, NoFault) + GetLabels(3, 2, 12, NoFault, LostCall));
      3 in s.threads && s.threads[3] == Failure(Some(2), PaymentNotFound)
  {
    var s := Exec(env, Init({1}), PayRun(symbol, NoFault));
    PayRunResult(env, symbol, NoFault);
    ExecAppend(env, Init({1}), PayRun(symbol, NoFault), GetLabels(3, 2, 11, NoFault, LostCall));
    ExecAppend(env, Init({1}), PayRun(symbol, NoFault), GetLabels(3, 2, 12, NoFault, LostCall));
    GetComposes(env, s, 3, 2, 11, NoFault, LostCall);
    GetComposes(env, s, 3, 2, 12, NoFault, LostCall);
  }

  /** The amount is not the order's current product: updates are allowed in every status. */
  lemma AmountGoesStale(env: Env, symbol: Bytes)
    requires SymbolOk(env.upper, symbol)
    ensures var l := UpdateOrderBy(3, 1, 10, Req(symbol).(price := 2.0), NoFault);
      var s := Exec(env, Init({1}), PayRun(symbol, NoFault) + [l]);
      && 10 in s.db.orders && s.db.orders[10].status == PendingPayment && 11 in s.db.payments
      && s.db.payments[11].amount != Rescale(Gross(s.db.orders[10]))
  {
    var l := UpdateOrderBy(3, 1, 10, Req(symbol).(price := 2.0), NoFault);
    PayRunResult(env, symbol, NoFault);
    ExecSnoc(env, Init({1}), PayRun(symbol, NoFault), l);
    assert ToUnits(1.0) == SCALE && ToUnits(2.0) == 2 * SCALE;
    assert Rescale(SCALE * (2 * SCALE)) == 2 * SCALE;
  }
}
