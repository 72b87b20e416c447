/**
 Order requests in the interleaved protocol: what each one leaves and answers, and whose request a stored
 order shows at any point of any run.
 */
module Requests {
  import opened Domain
  import opened Database
  import opened Protocol
  import opened Steps
  import opened Safety
  import opened Promises

  /** The error a finished request was answered with, if any. */
  function Answered<T>(th: Thread, value: T): Result<T> {
    if th.Done? && th.reply.Failed? then Err(th.reply.error) else Ok(value)
  }

  /** A create arrives: rows and reply are as promised, and success echoes the request under its new identifier. */
  lemma CreateArrives(env: Env, s: Sys, l: Label)
    requires Enabled(s, l) && l.CreateOrder?
    ensures var s' := Apply(env, s, l); l.t in s'.threads && s'.threads[l.t].Done?
    ensures var s' := Apply(env, s, l); var r := Answered(s'.threads[l.t], ());
      && PlacesOrder(env.upper, s.db, s'.db, l.user, l.req, l.id, l.fault, r)
      && (r.Ok? ==> s'.threads[l.t] == Done(Some(l.user), OrderCreated(l.id, l.req)))
  {
    PlacePromise(env.upper, s.db, l.user, l.req, l.id, l.fault);
    StepShape(env, s, l);
  }

  /** An update arrives: success echoes the request with the status the order has. */
  lemma UpdateArrives(env: Env, s: Sys, l: Label)
    requires Enabled(s, l) && l.UpdateOrderBy?
    ensures var s' := Apply(env, s, l); l.t in s'.threads && s'.threads[l.t].Done?
    ensures var s' := Apply(env, s, l); var th := s'.threads[l.t];
      && (th.reply.OrderUpdated? || th.reply.Failed?)
      && ChangesOrder(env.upper, s.db, s'.db, l.user, l.oid, l.req, l.fault,
                      if th.reply.OrderUpdated? then Ok(th.reply.status) else Err(th.reply.error))
      && (th.reply.OrderUpdated? ==> th.owner == Some(l.user) && th.reply.oid == l.oid && th.reply.req == l.req)
  {
    ChangePromise(env.upper, s.db, l.user, l.oid, l.req, l.fault);
    StepShape(env, s, l);
  }

  predicate OwnedBy(db: Db, oid: Id, user: Id) {
    oid in db.orders && db.orders[oid].user == user
  }

  /** Reads and deletions arrive: reads change nothing and show the row to its owner only. */
  lemma OthersArrive(env: Env, s: Sys, l: Label)
    requires Enabled(s, l) && (l.GetOrder? || l.GetUpload? || l.DeleteOrderBy?)
    ensures var s' := Apply(env, s, l); l.t in s'.threads
    ensures var s' := Apply(env, s, l); var th := s'.threads[l.t]; var db := s.db;
      if !l.fault.NoFault? then th == Done(Some(l.user), Failed(Driver)) && (!l.DeleteOrderBy? ==> s'.db == db)
      else if l.GetUpload? then
        && s'.db == db
        && var owned := l.uid in db.uploads && OwnedBy(db, db.uploads[l.uid].oid, l.user);
           th == Done(Some(l.user), if owned then UploadFound(l.uid, db.uploads[l.uid]) else Failed(UploadNotFound))
      else
        var owned := OwnedBy(db, l.oid, l.user);
        && (l.GetOrder? || !owned ==> s'.db == db)
        && th == Done(Some(l.user),
                      if !owned then Failed(OrderNotFound)
                      else if l.GetOrder? then OrderFound(l.oid, db.orders[l.oid]) else OrderDeleted)
        && (l.DeleteOrderBy? ==> owned ==> l.oid !in s'.db.orders)
  {
    StepShape(env, s, l);
  }

  // ----- The latest request -----

  /** The label is a create or an update of this order that takes effect. */
  predicate Reaches(env: Env, s: Sys, l: Label, oid: Id) {
    && Enabled(s, l)
    && match l
       case CreateOrder(_, user, req, id, fault) =>
         id == oid && user in s.db.users && !fault.LostCall? && Acceptable(env.upper, req) && TableTakes(req)
       case UpdateOrderBy(_, user, o, req, fault) =>
         && o == oid && oid in s.db.orders && s.db.orders[oid].user == user
         && !fault.LostCall? && Acceptable(env.upper, req) && TableTakes(req)
       case _ => false
  }

  /** The user and the request of the last label that reached the order. */
  function LatestRequest(env: Env, s: Sys, ls: seq<Label>, oid: Id): Option<(Id, OrderRequest)> {
    if ls == [] then None
    else
      var front := ls[..|ls| - 1];
      var l := ls[|ls| - 1];
      if Reaches(env, Exec(env, s, front), l, oid) then Some((l.user, l.req)) else LatestRequest(env, s, front, oid)
  }

  /** A step that does not reach an order leaves everything a request sets, and the owner. */
  lemma OthersLeave(env: Env, s: Sys, l: Label, oid: Id)
    requires RowsKnown(s.db) && oid in Apply(env, s, l).db.orders && !Reaches(env, s, l, oid)
    ensures oid in s.db.orders
    ensures Apply(env, s, l).db.orders[oid].(status := Pending) == s.db.orders[oid].(status := Pending)
  {
    StepShape(env, s, l);
    match l {
      case CreateOrder(_, _, _, _, _) => if Enabled(s, l) { CreateArrives(env, s, l); }
      case UpdateOrderBy(_, _, _, _, _) => if Enabled(s, l) { UpdateArrives(env, s, l); }
      case _ =>
    }
  }

  lemma ReachRecords(env: Env, s: Sys, l: Label, oid: Id)
    requires Reaches(env, s, l, oid)
    ensures var db' := Apply(env, s, l).db;
      && oid in db'.orders
      && var st := if l.UpdateOrderBy? && oid in s.db.orders then s.db.orders[oid].status else Pending;
         Records(db'.orders[oid], l.user, l.req, st)
  {
    if l.CreateOrder? { CreateArrives(env, s, l); } else { UpdateArrives(env, s, l); }
  }

  /**
   At every point of every run each stored order has the user, symbol and side of the latest create or update
   that reached it, and its quantity and price to within half a unit of 10^-8.
   */
  lemma {:induction false} OrderIsLatest(env: Env, users: set<Id>, ls: seq<Label>, oid: Id)
    requires oid in Exec(env, Init(users), ls).db.orders
    ensures var o := Exec(env, Init(users), ls).db.orders[oid]; var latest := LatestRequest(env, Init(users), ls, oid);
      latest.Some? && Records(o, latest.value.0, latest.value.1, o.status)
  {
    if ls != [] {
      var front, l := ls[..|ls| - 1], ls[|ls| - 1];
      var s := Exec(env, Init(users), front);
      RunKnown(env, users, front);
      if Reaches(env, s, l, oid) {
        ReachRecords(env, s, l, oid);
      } else {
        OthersLeave(env, s, l, oid);
        OrderIsLatest(env, users, front, oid);
      }
    }
  }
}
