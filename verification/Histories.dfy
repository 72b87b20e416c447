/**
 Serial fault-free histories as runs of the protocol: the labels of each operation in turn lead the protocol
 through the same rows and counter, with the same answers, so the refinement is about runs.
 */
module Histories {
  import opened Domain
  import opened Database
  import opened Protocol
  import opened Serial
  import opened Composition
  import opened Refinement

  /** The labels of one operation, as request t. */
  ghost function OpLabels(w: World, op: Op, t: Id): seq<Label> {
    match op
    case CreateOp(user, req, id) => [CreateOrder(t, user, req, id, NoFault)]
    case UpdateOp(user, oid, req) => [UpdateOrderBy(t, user, oid, req, NoFault)]
    case DeleteOp(user, oid) => [DeleteOrderBy(t, user, oid, NoFault)]
    case PayOp(user, oid, pid) => PayLabels(t, user, oid, pid, w.counter, PAY_CLEAN)
    case CallOp(reference, status) => CallLabels(t, reference, status, Lookup(w.db, reference), CALL_CLEAN)
  }

  ghost function HistoryLabels(env: Env, w: World, ops: seq<Op>, ts: seq<Id>): seq<Label>
    requires |ts| == |ops|
    decreases |ops|
  {
    if ops == [] then []
    else OpLabels(w, ops[0], ts[0]) + HistoryLabels(env, Serve(env, w, ops[0]).0, ops[1..], ts[1..])
  }

  function WorldOf(s: Sys): World {
    World(s.db, s.counter)
  }

  /** The request is over, with this error or with success. */
  predicate Answered(s: Sys, t: Id, e: Option<Error>) {
    && t in s.threads && s.threads[t].Done?
    && match e
       case None => !s.threads[t].reply.Failed? && !s.threads[t].reply.Halted?
       case Some(error) => s.threads[t].reply == Failed(error)
  }

  /** The identifier the operation brings is new. */
  predicate FreshOp(db: Db, op: Op) {
    NewId(op).Some? ==> NewId(op).value !in db.used
  }

  lemma RequestRuns(env: Env, s: Sys, op: Op, t: Id)
    requires t !in s.threads && FreshOp(s.db, op) && (op.CreateOp? || op.UpdateOp? || op.DeleteOp?)
    ensures var s' := Exec(env, s, OpLabels(WorldOf(s), op, t)); var (w', e) := Serve(env, WorldOf(s), op);
      && WorldOf(s') == w' && Answered(s', t, e) && s'.files == s.files && s'.threads == s.threads[t := s'.threads[t]]
  {
    var l := OpLabels(WorldOf(s), op, t)[0];
    RequestRan(env, s, l);
    RequestServes(env, s, op, t);
  }

  lemma RequestRan(env: Env, s: Sys, l: Label)
    requires Enabled(s, l) && (l.CreateOrder? || l.UpdateOrderBy? || l.DeleteOrderBy?)
    ensures Exec(env, s, [l]) ==
      s.(db := Effect(s.db, RequestWrite(env, l)), threads := s.threads[l.t := NextRequest(env, s.db, l)])
  {
    assert [l] == [] + [l];
    ExecSnoc(env, s, [], l);
  }

  /** The request's write and answer are those of Serve. */
  lemma RequestServes(env: Env, s: Sys, op: Op, t: Id)
    requires op.CreateOp? || op.UpdateOp? || op.DeleteOp?
    ensures OpLabels(WorldOf(s), op, t) == [OpLabels(WorldOf(s), op, t)[0]]
    ensures var l := OpLabels(WorldOf(s), op, t)[0]; var (w', e) := Serve(env, WorldOf(s), op);
      && w' == World(Effect(s.db, RequestWrite(env, l)), s.counter)
      && var th := NextRequest(env, s.db, l);
         th.Done? && (if e.Some? then th.reply == Failed(e.value) else !th.reply.Failed? && !th.reply.Halted?)
  {
  }

  lemma OpRuns(env: Env, s: Sys, op: Op, t: Id)
    requires t !in s.threads && FreshOp(s.db, op)
    ensures var s' := Exec(env, s, OpLabels(WorldOf(s), op, t)); var (w', e) := Serve(env, WorldOf(s), op);
      && WorldOf(s') == w' && Answered(s', t, e) && s'.files == s.files && s'.threads == s.threads[t := s'.threads[t]]
  {
    match op {
      case PayOp(user, oid, pid) => PayComposes(env, s, t, user, oid, pid, PAY_CLEAN);
      case CallOp(reference, status) =>
        CallComposes(env, s, t, reference, status, Lookup(s.db, reference), CALL_CLEAN);
      case _ => RequestRuns(env, s, op, t);
    }
  }

  ghost predicate FreshAll(env: Env, w: World, ops: seq<Op>)
    decreases |ops|
  {
    ops != [] ==> FreshOp(w.db, ops[0]) && FreshAll(env, Serve(env, w, ops[0]).0, ops[1..])
  }

  predicate Unused(s: Sys, ts: seq<Id>) {
    && (forall i :: 0 <= i < |ts| ==> ts[i] !in s.threads)
    && (forall i, j :: 0 <= i < j < |ts| ==> ts[i] != ts[j])
  }

  /** The requests ts got the answers es; other requests and all files are as they were. */
  ghost predicate Ran(s: Sys, s': Sys, ts: seq<Id>, es: seq<Option<Error>>) {
    && s'.files == s.files
    && |es| == |ts| && (forall i :: 0 <= i < |ts| ==> Answered(s', ts[i], es[i]))
    && (forall t :: t in s'.threads <==> t in s.threads || t in ts)
    && (forall t :: t in s.threads && t !in ts ==> t in s'.threads && s'.threads[t] == s.threads[t])
  }

  /**
   The run of a history ends in the rows, the counter and the answers of ServeAll; requests outside it and
   files stay as they were.
   */
  lemma {:induction false} HistoryRuns(env: Env, s: Sys, ops: seq<Op>, ts: seq<Id>)
    requires |ts| == |ops| && Unused(s, ts) && FreshAll(env, WorldOf(s), ops)
    ensures var s' := Exec(env, s, HistoryLabels(env, WorldOf(s), ops, ts));
      var (w', es) := ServeAll(env, WorldOf(s), ops);
      WorldOf(s') == w' && Ran(s, s', ts, es)
    decreases |ops|
  {
    if ops != [] {
      var mid := Exec(env, s, OpLabels(WorldOf(s), ops[0], ts[0]));
      FirstRuns(env, s, ops, ts);
      HistoryRuns(env, mid, ops[1..], ts[1..]);
      assert ts == [ts[0]] + ts[1..];
      RanOn(s, mid, Exec(env, mid, HistoryLabels(env, WorldOf(mid), ops[1..], ts[1..])), ts[0],
            Serve(env, WorldOf(s), ops[0]).1, ts[1..], ServeAll(env, WorldOf(mid), ops[1..]).1);
    }
  }

  /** The first operation runs, and the rest of the history from there. */
  lemma FirstRuns(env: Env, s: Sys, ops: seq<Op>, ts: seq<Id>)
    requires ops != [] && |ts| == |ops| && Unused(s, ts) && FreshAll(env, WorldOf(s), ops)
    ensures var mid := Exec(env, s, OpLabels(WorldOf(s), ops[0], ts[0])); var (w1, e) := Serve(env, WorldOf(s), ops[0]);
      && WorldOf(mid) == w1 && Answered(mid, ts[0], e) && mid.files == s.files
      && mid.threads == s.threads[ts[0] := mid.threads[ts[0]]]
      && Unused(mid, ts[1..]) && ts[0] !in ts[1..] && FreshAll(env, w1, ops[1..])
      && Exec(env, s, HistoryLabels(env, WorldOf(s), ops, ts)) ==
           Exec(env, mid, HistoryLabels(env, w1, ops[1..], ts[1..]))
  {
    var first := OpLabels(WorldOf(s), ops[0], ts[0]);
    OpRuns(env, s, ops[0], ts[0]);
    ExecAppend(env, s, first, HistoryLabels(env, Serve(env, WorldOf(s), ops[0]).0, ops[1..], ts[1..]));
  }

  lemma RanOn(s: Sys, mid: Sys, s': Sys, t: Id, e: Option<Error>, ts: seq<Id>, es: seq<Option<Error>>)
    requires Answered(mid, t, e) && mid.files == s.files && mid.threads == s.threads[t := mid.threads[t]]
    requires Ran(mid, s', ts, es) && t !in ts
    ensures Ran(s, s', [t] + ts, [e] + es)
  {
    var all := [t] + ts;
    assert all[0] == t && all[1..] == ts;
    assert t in mid.threads && t in s'.threads && s'.threads[t] == mid.threads[t];
  }

  /**
   So the runs of serial fault-free histories from the initial state refine the one-variable machine: the
   reached rows are coherent with it and every request got its answer.
   */
  lemma RunsRefine(env: Env, users: set<Id>, ops: seq<Op>, ts: seq<Id>)
    requires |ts| == |ops| && Unused(Init(users), ts) && ReadyAll(env, World(EmptyDb(users), 0), ops)
    ensures var s := Exec(env, Init(users), HistoryLabels(env, World(EmptyDb(users), 0), ops, ts));
      var (a, es) := AbsServeAll(env, users, Abs(map[], 0), ops);
      && Coherent(WorldOf(s)) && AbsOf(WorldOf(s)) == a
      && |es| == |ops| && (forall i :: 0 <= i < |ops| ==> Answered(s, ts[i], es[i]))
  {
    HistoryFromEmpty(env, users, ops);
    ReadyIsFresh(env, World(EmptyDb(users), 0), ops);
    HistoryRuns(env, Init(users), ops, ts);
  }

  lemma {:induction false} ReadyIsFresh(env: Env, w: World, ops: seq<Op>)
    requires ReadyAll(env, w, ops)
    ensures FreshAll(env, w, ops)
    decreases |ops|
  {
    if ops != [] { ReadyIsFresh(env, Serve(env, w, ops[0]).0, ops[1..]); }
  }
}
