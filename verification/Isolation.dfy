/**
 Tenant isolation over whole interleaved runs. What user a can see is a's orders, their payments and
 uploads, a's requests with their answers, and the callbacks that have found a payment of a. Two runs that
 agree on the steps a can see show a the same state at the end, whatever else happened in them: other
 users' payments may be settled in one and not in the other.
 */
module Isolation {
  import opened Domain
  import opened Database
  import opened Protocol
  import opened Steps
  import opened Safety
  import opened Composition

  function SeenOrder(a: Id, db: Db, oid: Id): Option<Order> {
    if Owns(db, a, oid) then Some(db.orders[oid]) else None
  }

  function SeenPayment(a: Id, db: Db, pid: Id): Option<Payment> {
    if pid in db.payments && Owns(db, a, db.payments[pid].oid) then Some(db.payments[pid]) else None
  }

  function SeenUpload(a: Id, db: Db, uid: Id): Option<Upload> {
    if uid in db.uploads && Owns(db, a, db.uploads[uid].oid) then Some(db.uploads[uid]) else None
  }

  /** A Get that has read someone else's payment already shows its one possible answer: not found. */
  function Shown(a: Id, db: Db, th: Thread): Option<Thread> {
    match th
    case CallRead(_, _) => None
    case CallWrite(r, _) => if Owns(db, a, r.oid) then Some(th) else None
    case CallAdvance(r, _) => if Owns(db, a, r.oid) then Some(th) else None
    case GetCheck(user, r) =>
      if user != a then None
      else if Owns(db, a, r.oid) then Some(th)
      else Some(Done(Some(a), Failed(PaymentNotFound)))
    case _ => if OwnerOf(th) == Some(a) then Some(th) else None
  }

  function SeenThread(a: Id, s: Sys, t: Id): Option<Thread> {
    if t in s.threads then Shown(a, s.db, s.threads[t]) else None
  }

  ghost predicate AlikeRows(a: Id, x: Db, y: Db) {
    && x.users == y.users
    && (forall oid :: SeenOrder(a, x, oid) == SeenOrder(a, y, oid))
    && (forall pid :: SeenPayment(a, x, pid) == SeenPayment(a, y, pid))
    && (forall uid :: SeenUpload(a, x, uid) == SeenUpload(a, y, uid))
  }

  /** User a cannot tell the two systems apart. */
  ghost predicate Alike(a: Id, x: Sys, y: Sys) {
    AlikeRows(a, x.db, y.db) && forall t :: SeenThread(a, x, t) == SeenThread(a, y, t)
  }

  predicate SeenRunning(a: Id, s: Sys, t: Id) {
    SeenThread(a, s, t).Some? && !SeenThread(a, s, t).value.Done?
  }

  /**
   The labels that concern user a: a's requests, their steps, and a callback from the lookup that finds a's payment
   on.
   */
  predicate Visible(a: Id, s: Sys, l: Label) {
    && Enabled(s, l)
    && match l
       case Advance(t, input) =>
         if s.threads[t].CallRead? then input.pick.Some? && SeenPayment(a, s.db, input.pick.value).Some?
         else SeenRunning(a, s, t)
       case Crash(t) => SeenRunning(a, s, t)
       case StartCallback(_, _, _) => false
       case _ => l.user == a
  }

  /** A step as user a sees it: the label, and for a lookup the callback it belongs to. */
  datatype Entry = Entry(step: Label, callback: Option<Thread>)

  function EntryOf(s: Sys, l: Label): Entry {
    Entry(l, if l.Advance? && l.t in s.threads && s.threads[l.t].CallRead? then Some(s.threads[l.t]) else None)
  }

  predicate ReadForeign(a: Id, s: Sys, t: Id) {
    Live(s, t) && s.threads[t].GetCheck? && s.threads[t].user == a && !Owns(s.db, a, s.threads[t].receipt.oid)
  }

  /**
   The one channel: a Get that read a foreign payment makes a second call, and only that call can fail or be cut
   off.
   */
  predicate Leaky(a: Id, s: Sys, l: Label) {
    match l
    case Advance(t, input) => Enabled(s, l) && ReadForeign(a, s, t) && !input.fault.NoFault?
    case Crash(t) => ReadForeign(a, s, t)
    case _ => false
  }

  // ----- Rows -----

  /** Whether a write concerns user a's rows. */
  predicate Mine(a: Id, db: Db, w: Write) {
    match w
    case NewOrder(_, user, _) => user == a
    case EditOrder(user, _, _) => user == a
    case DropOrder(user, _) => user == a
    case NewPayment(_, oid, _, _) => Owns(db, a, oid)
    case Mark(user, _) => user == a
    case Decide(pid, _) => SeenPayment(a, db, pid).Some?
    case Close(oid, _) => Owns(db, a, oid)
    case NewUpload(_, row) => Owns(db, a, row.oid)
    case NoWrite => true
    case Reserve(_) => true
  }

  lemma OthersWrite(a: Id, db: Db, w: Write)
    requires RowsKnown(db) && Fresh(db, w) && !Mine(a, db, w)
    ensures AlikeRows(a, Effect(db, w), db)
  {
    var db' := Effect(db, w);
    forall oid ensures SeenOrder(a, db', oid) == SeenOrder(a, db, oid) {}
    forall pid ensures SeenPayment(a, db', pid) == SeenPayment(a, db, pid) { OthersPayment(a, db, w, pid); }
    forall uid ensures SeenUpload(a, db', uid) == SeenUpload(a, db, uid) { OthersUpload(a, db, w, uid); }
  }

  lemma OthersPayment(a: Id, db: Db, w: Write, pid: Id)
    requires RowsKnown(db) && Fresh(db, w) && !Mine(a, db, w)
    ensures SeenPayment(a, Effect(db, w), pid) == SeenPayment(a, db, pid)
  {
  }

  lemma OthersUpload(a: Id, db: Db, w: Write, uid: Id)
    requires RowsKnown(db) && Fresh(db, w) && !Mine(a, db, w)
    ensures SeenUpload(a, Effect(db, w), uid) == SeenUpload(a, db, uid)
  {
  }

  lemma AlikeHasPayment(a: Id, x: Db, y: Db, oid: Id)
    requires AlikeRows(a, x, y) && Owns(x, a, oid) && HasPayment(x, oid)
    ensures HasPayment(y, oid)
  {
    var pid :| pid in x.payments && x.payments[pid].oid == oid;
    assert SeenPayment(a, x, pid) == SeenPayment(a, y, pid);
  }

  /** A write of user a succeeds or fails on a's rows alone, and for the same reason. */
  lemma SameAttempt(a: Id, x: Db, y: Db, w: Write)
    requires AlikeRows(a, x, y) && Mine(a, x, w)
    ensures Mine(a, y, w)
    ensures Attempt(x, w).Ok? <==> Attempt(y, w).Ok?
    ensures Attempt(x, w).Err? ==> Attempt(x, w).error == Attempt(y, w).error
  {
    match w {
      case NewPayment(_, oid, _, _) =>
        assert SeenOrder(a, x, oid) == SeenOrder(a, y, oid);
        if HasPayment(x, oid) { AlikeHasPayment(a, x, y, oid); }
        if HasPayment(y, oid) { AlikeHasPayment(a, y, x, oid); }
      case Decide(pid, _) => assert SeenPayment(a, x, pid) == SeenPayment(a, y, pid);
      case NewUpload(_, row) => assert SeenOrder(a, x, row.oid) == SeenOrder(a, y, row.oid);
      case NewOrder(_, _, _) =>
      case NoWrite =>
      case Reserve(_) =>
      case _ => assert SeenOrder(a, x, w.oid) == SeenOrder(a, y, w.oid);
    }
  }

  lemma SameOrder(a: Id, x: Db, y: Db, w: Write, oid: Id)
    requires AlikeRows(a, x, y) && Mine(a, x, w) && Fresh(x, w) && Fresh(y, w)
    ensures SeenOrder(a, Effect(x, w), oid) == SeenOrder(a, Effect(y, w), oid)
  {
    SameAttempt(a, x, y, w);
    assert SeenOrder(a, x, oid) == SeenOrder(a, y, oid);
  }

  lemma SamePayment(a: Id, x: Db, y: Db, w: Write, pid: Id)
    requires RowsKnown(x) && RowsKnown(y) && AlikeRows(a, x, y) && Mine(a, x, w) && Fresh(x, w) && Fresh(y, w)
    ensures SeenPayment(a, Effect(x, w), pid) == SeenPayment(a, Effect(y, w), pid)
  {
    SameAttempt(a, x, y, w);
    if w.NewPayment? {
      SameNewPayment(a, x, y, w, pid);
    } else if w.Decide? {
      SameDecision(a, x, y, w, pid);
    } else if w.DropOrder? {
      SameCascade(a, x, y, w, pid);
    } else {
      SameOldPayment(a, x, y, w, pid);
    }
  }

  lemma SameDecision(a: Id, x: Db, y: Db, w: Write, pid: Id)
    requires AlikeRows(a, x, y) && Mine(a, x, w) && w.Decide?
    ensures SeenPayment(a, Effect(x, w), pid) == SeenPayment(a, Effect(y, w), pid)
  {
    assert SeenPayment(a, x, pid) == SeenPayment(a, y, pid);
    assert SeenPayment(a, x, w.pid) == SeenPayment(a, y, w.pid);
  }

  lemma SameCascade(a: Id, x: Db, y: Db, w: Write, pid: Id)
    requires AlikeRows(a, x, y) && Mine(a, x, w) && w.DropOrder? && (Attempt(x, w).Ok? <==> Attempt(y, w).Ok?)
    ensures SeenPayment(a, Effect(x, w), pid) == SeenPayment(a, Effect(y, w), pid)
  {
    assert SeenPayment(a, x, pid) == SeenPayment(a, y, pid);
  }

  /** Writes to other tables. */
  lemma SameOldPayment(a: Id, x: Db, y: Db, w: Write, pid: Id)
    requires RowsKnown(x) && RowsKnown(y) && AlikeRows(a, x, y) && Mine(a, x, w) && Fresh(x, w) && Fresh(y, w)
    requires !w.NewPayment? && !w.Decide? && !w.DropOrder? && (Attempt(x, w).Ok? <==> Attempt(y, w).Ok?)
    ensures SeenPayment(a, Effect(x, w), pid) == SeenPayment(a, Effect(y, w), pid)
  {
    assert SeenPayment(a, x, pid) == SeenPayment(a, y, pid);
  }

  lemma SameNewPayment(a: Id, x: Db, y: Db, w: Write, pid: Id)
    requires AlikeRows(a, x, y) && Mine(a, x, w) && w.NewPayment? && (Attempt(x, w).Ok? <==> Attempt(y, w).Ok?)
    ensures SeenPayment(a, Effect(x, w), pid) == SeenPayment(a, Effect(y, w), pid)
  {
    assert SeenPayment(a, x, pid) == SeenPayment(a, y, pid);
    assert SeenOrder(a, x, w.oid) == SeenOrder(a, y, w.oid);
  }

  lemma SameUpload(a: Id, x: Db, y: Db, w: Write, uid: Id)
    requires RowsKnown(x) && RowsKnown(y) && AlikeRows(a, x, y) && Mine(a, x, w) && Fresh(x, w) && Fresh(y, w)
    ensures SeenUpload(a, Effect(x, w), uid) == SeenUpload(a, Effect(y, w), uid)
  {
    SameAttempt(a, x, y, w);
    if w.NewUpload? {
      assert SeenUpload(a, x, uid) == SeenUpload(a, y, uid);
      assert SeenOrder(a, x, w.row.oid) == SeenOrder(a, y, w.row.oid);
    } else {
      SameOldUpload(a, x, y, w, uid);
    }
  }

  lemma SameOldUpload(a: Id, x: Db, y: Db, w: Write, uid: Id)
    requires RowsKnown(x) && RowsKnown(y) && AlikeRows(a, x, y) && Mine(a, x, w) && Fresh(x, w) && Fresh(y, w)
    requires !w.NewUpload? && (Attempt(x, w).Ok? <==> Attempt(y, w).Ok?)
    ensures SeenUpload(a, Effect(x, w), uid) == SeenUpload(a, Effect(y, w), uid)
  {
    assert SeenUpload(a, x, uid) == SeenUpload(a, y, uid);
  }

  lemma OwnWrite(a: Id, x: Db, y: Db, w: Write)
    requires RowsKnown(x) && RowsKnown(y) && AlikeRows(a, x, y) && Mine(a, x, w) && Fresh(x, w) && Fresh(y, w)
    ensures AlikeRows(a, Effect(x, w), Effect(y, w))
  {
    EffectGrows(x, w);
    EffectGrows(y, w);
    forall oid ensures SeenOrder(a, Effect(x, w), oid) == SeenOrder(a, Effect(y, w), oid) {
      SameOrder(a, x, y, w, oid);
    }
    forall pid ensures SeenPayment(a, Effect(x, w), pid) == SeenPayment(a, Effect(y, w), pid) {
      SamePayment(a, x, y, w, pid);
    }
    forall uid ensures SeenUpload(a, Effect(x, w), uid) == SeenUpload(a, Effect(y, w), uid) {
      SameUpload(a, x, y, w, uid);
    }
  }

  lemma SameWrite(a: Id, x: Db, y: Db, w: Write)
    requires RowsKnown(x) && RowsKnown(y) && AlikeRows(a, x, y) && Fresh(x, w) && Fresh(y, w)
    ensures AlikeRows(a, Effect(x, w), Effect(y, w))
  {
    if Mine(a, x, w) {
      OwnWrite(a, x, y, w);
    } else {
      if Mine(a, y, w) { SameAttempt(a, y, x, w); }
      OthersWrite(a, x, w);
      OthersWrite(a, y, w);
      var x', y' := Effect(x, w), Effect(y, w);
      forall oid ensures SeenOrder(a, x', oid) == SeenOrder(a, y', oid) {
        assert SeenOrder(a, x', oid) == SeenOrder(a, x, oid) && SeenOrder(a, y', oid) == SeenOrder(a, y, oid);
      }
      forall pid ensures SeenPayment(a, x', pid) == SeenPayment(a, y', pid) {
        assert SeenPayment(a, x', pid) == SeenPayment(a, x, pid) && SeenPayment(a, y', pid) == SeenPayment(a, y, pid);
      }
      forall uid ensures SeenUpload(a, x', uid) == SeenUpload(a, y', uid) {
        assert SeenUpload(a, x', uid) == SeenUpload(a, x, uid) && SeenUpload(a, y', uid) == SeenUpload(a, y, uid);
      }
    }
  }

  // ----- Threads -----

  /** The order a callback or a Get works on is a known one. */
  ghost predicate Placed(db: Db, th: Thread) {
    th.CallWrite? || th.CallAdvance? || th.GetCheck? ==> th.receipt.oid in db.used
  }

  lemma FrameShown(a: Id, x: Db, x': Db, y: Db, y': Db, thx: Thread, thy: Thread)
    requires Placed(x, thx) && Placed(y, thy) && Grows(x, x') && Grows(y, y')
    requires AlikeRows(a, x', y') && Shown(a, x, thx) == Shown(a, y, thy)
    ensures Shown(a, x', thx) == Shown(a, y', thy)
  {
    OwnedOnlyIfBefore(a, x, x', thx);
    OwnedOnlyIfBefore(a, y, y', thy);
    SameShown(a, x, x', y, y', thx, thy);
  }

  predicate HasPlace(th: Thread) {
    th.CallWrite? || th.CallAdvance? || th.GetCheck?
  }

  lemma OwnedOnlyIfBefore(a: Id, x: Db, x': Db, th: Thread)
    requires Placed(x, th) && Grows(x, x')
    ensures HasPlace(th) && Owns(x', a, th.receipt.oid) ==> Owns(x, a, th.receipt.oid)
  {
  }

  lemma SameShown(a: Id, x: Db, x': Db, y: Db, y': Db, thx: Thread, thy: Thread)
    requires HasPlace(thx) && Owns(x', a, thx.receipt.oid) ==> Owns(x, a, thx.receipt.oid)
    requires HasPlace(thy) && Owns(y', a, thy.receipt.oid) ==> Owns(y, a, thy.receipt.oid)
    requires AlikeRows(a, x', y') && Shown(a, x, thx) == Shown(a, y, thy)
    ensures Shown(a, x', thx) == Shown(a, y', thy)
  {
    if HasPlace(thx) { assert SeenOrder(a, x', thx.receipt.oid) == SeenOrder(a, y', thx.receipt.oid); }
    if HasPlace(thy) { assert SeenOrder(a, x', thy.receipt.oid) == SeenOrder(a, y', thy.receipt.oid); }
  }

  /** What user a is shown of a thread's next local state is the same in both systems. */
  ghost predicate SameNext(env: Env, a: Id, x: Db, y: Db, th: Thread, input: Input) {
    Shown(a, x, NextThread(env, x, th, input)) == Shown(a, y, NextThread(env, y, th, input))
  }

  lemma SameInsertNext(env: Env, a: Id, x: Db, y: Db, th: Thread, input: Input)
    requires RowsKnown(x) && RowsKnown(y) && ThreadKnown(x, th) && ThreadKnown(y, th)
    requires AlikeRows(a, x, y) && th.PayInsert? && th.user == a
    ensures SameNext(env, a, x, y, th, input)
  {
    assert SeenOrder(a, x, th.oid) == SeenOrder(a, y, th.oid);
    if Owns(x, a, th.oid) { SameAttempt(a, x, y, NewPayment(input.newId, th.oid, th.reference, th.gross)); }
  }

  lemma SamePayNext(env: Env, a: Id, x: Db, y: Db, th: Thread, input: Input)
    requires RowsKnown(x) && RowsKnown(y) && ThreadKnown(x, th) && ThreadKnown(y, th)
    requires AlikeRows(a, x, y) && OwnerOf(th) == Some(a)
    requires th.PayRead? || th.PayDraw? || th.PayInsert? || th.PayMark?
    ensures SameNext(env, a, x, y, th, input)
  {
    match th {
      case PayRead(_, oid) => assert SeenOrder(a, x, oid) == SeenOrder(a, y, oid);
      case PayInsert(_, _, _, _) => SameInsertNext(env, a, x, y, th, input);
      case PayMark(_, r) => assert SeenOrder(a, x, r.oid) == SeenOrder(a, y, r.oid);
      case _ =>
    }
  }

  lemma SameCallbackNext(env: Env, a: Id, x: Db, y: Db, th: Thread, input: Input)
    requires ThreadKnown(x, th) && ThreadKnown(y, th) && AlikeRows(a, x, y)
    requires th.CallRead? || ((th.CallWrite? || th.CallAdvance?) && Owns(x, a, th.receipt.oid))
    ensures SameNext(env, a, x, y, th, input)
  {
    match th {
      case CallRead(_, _) =>
        if input.pick.Some? { assert SeenPayment(a, x, input.pick.value) == SeenPayment(a, y, input.pick.value); }
      case CallWrite(r, _) =>
        assert SeenOrder(a, x, r.oid) == SeenOrder(a, y, r.oid);
        assert SeenPayment(a, x, r.pid) == SeenPayment(a, y, r.pid);
      case CallAdvance(r, _) => assert SeenOrder(a, x, r.oid) == SeenOrder(a, y, r.oid);
    }
  }

  lemma SameGetNext(env: Env, a: Id, x: Db, y: Db, th: Thread, input: Input)
    requires AlikeRows(a, x, y) && OwnerOf(th) == Some(a)
    requires th.GetRead? || (th.GetCheck? && Owns(x, a, th.receipt.oid))
    ensures SameNext(env, a, x, y, th, input)
  {
    match th {
      case GetRead(_, pid) => assert SeenPayment(a, x, pid) == SeenPayment(a, y, pid);
      case GetCheck(_, r) => assert SeenOrder(a, x, r.oid) == SeenOrder(a, y, r.oid);
    }
  }

  lemma SameUploadNext(env: Env, a: Id, x: Db, y: Db, th: Thread, input: Input)
    requires ThreadKnown(x, th) && ThreadKnown(y, th) && AlikeRows(a, x, y) && OwnerOf(th) == Some(a)
    requires th.UpRead? || th.UpSniff? || th.UpOpen? || th.UpCopy? || th.UpRemove? || th.UpInsert?
    ensures SameNext(env, a, x, y, th, input)
  {
    match th {
      case UpRead(_, oid, _, _) => assert SeenOrder(a, x, oid) == SeenOrder(a, y, oid);
      case UpInsert(_, job, _) => assert SeenOrder(a, x, job.oid) == SeenOrder(a, y, job.oid);
      case _ =>
    }
  }

  lemma SameRequest(env: Env, a: Id, x: Db, y: Db, l: Label)
    requires AlikeRows(a, x, y) && !l.Advance? && !l.Crash? && !l.StartCallback? && l.user == a
    ensures Shown(a, x, NextRequest(env, x, l)) == Shown(a, y, NextRequest(env, y, l))
  {
    match l {
      case CreateOrder(_, user, req, id, _) => SameAttempt(a, x, y, NewOrder(id, user, req));
      case UpdateOrderBy(_, user, oid, req, _) => assert SeenOrder(a, x, oid) == SeenOrder(a, y, oid);
      case DeleteOrderBy(_, user, oid, _) => assert SeenOrder(a, x, oid) == SeenOrder(a, y, oid);
      case GetOrder(_, _, oid, _) => assert SeenOrder(a, x, oid) == SeenOrder(a, y, oid);
      case GetUpload(_, _, uid, _) => assert SeenUpload(a, x, uid) == SeenUpload(a, y, uid);
      case _ =>
    }
  }

  lemma NextPlaced(env: Env, db: Db, th: Thread, input: Input)
    requires RowsKnown(db) && ThreadKnown(db, th)
    ensures Placed(db, NextThread(env, db, th, input))
  {
  }

  lemma SameOwnNext(env: Env, a: Id, x: Db, y: Db, th: Thread, input: Input)
    requires RowsKnown(x) && RowsKnown(y) && ThreadKnown(x, th) && ThreadKnown(y, th) && AlikeRows(a, x, y)
    requires (th.CallRead? || Shown(a, x, th) == Some(th)) && !th.Done?
    ensures SameNext(env, a, x, y, th, input)
  {
    if th.PayRead? || th.PayDraw? || th.PayInsert? || th.PayMark? {
      SamePayNext(env, a, x, y, th, input);
    } else if th.CallRead? || th.CallWrite? || th.CallAdvance? {
      SameCallbackNext(env, a, x, y, th, input);
    } else if th.GetRead? || th.GetCheck? {
      SameGetNext(env, a, x, y, th, input);
    } else {
      SameUploadNext(env, a, x, y, th, input);
    }
  }

  lemma AdvanceShown(env: Env, a: Id, x: Db, x': Db, y: Db, y': Db, th: Thread, input: Input)
    requires RowsKnown(x) && RowsKnown(y) && ThreadKnown(x, th) && ThreadKnown(y, th)
    requires AlikeRows(a, x, y) && AlikeRows(a, x', y') && Grows(x, x') && Grows(y, y')
    requires (th.CallRead? || Shown(a, x, th) == Some(th)) && !th.Done?
    ensures Shown(a, x', NextThread(env, x, th, input)) == Shown(a, y', NextThread(env, y, th, input))
  {
    SameOwnNext(env, a, x, y, th, input);
    NextPlaced(env, x, th, input);
    NextPlaced(env, y, th, input);
    FrameShown(a, x, x', y, y', NextThread(env, x, th, input), NextThread(env, y, th, input));
  }

  lemma RequestShown(env: Env, a: Id, x: Db, x': Db, y: Db, y': Db, l: Label)
    requires AlikeRows(a, x, y) && AlikeRows(a, x', y') && Grows(x, x') && Grows(y, y')
    requires !l.Advance? && !l.Crash? && !l.StartCallback? && l.user == a
    ensures Shown(a, x', NextRequest(env, x, l)) == Shown(a, y', NextRequest(env, y, l))
  {
    SameRequest(env, a, x, y, l);
    assert Placed(x, NextRequest(env, x, l)) && Placed(y, NextRequest(env, y, l));
    FrameShown(a, x, x', y, y', NextRequest(env, x, l), NextRequest(env, y, l));
  }

  /** A thread shown as running is that very thread. */
  lemma ShownRunning(a: Id, x: Sys, y: Sys, t: Id)
    requires SeenThread(a, x, t) == SeenThread(a, y, t) && SeenThread(a, x, t).Some? && !SeenThread(a, x, t).value.Done?
    ensures t in x.threads && t in y.threads && x.threads[t] == y.threads[t]
    ensures Shown(a, x.db, x.threads[t]) == Some(x.threads[t])
    ensures Shown(a, y.db, y.threads[t]) == Some(y.threads[t])
  {
  }

  lemma MovedAlike(env: Env, a: Id, x: Sys, x': Db, y: Sys, y': Db, l: Label)
    requires Known(x) && Known(y) && Alike(a, x, y) && Visible(a, x, l) && Enabled(y, l)
    requires EntryOf(x, l) == EntryOf(y, l)
    requires AlikeRows(a, x', y') && Grows(x.db, x') && Grows(y.db, y')
    ensures Shown(a, x', Moved(env, x, l)) == Shown(a, y', Moved(env, y, l))
  {
    assert SeenThread(a, x, l.t) == SeenThread(a, y, l.t);
    match l {
      case Advance(t, input) =>
        if !x.threads[t].CallRead? { ShownRunning(a, x, y, t); }
        AdvanceShown(env, a, x.db, x', y.db, y', x.threads[t], input);
      case Crash(t) =>
        ShownRunning(a, x, y, t);
      case _ =>
        RequestShown(env, a, x.db, x', y.db, y', l);
    }
  }

  lemma OtherThreadAlike(a: Id, x: Sys, x': Db, y: Sys, y': Db, u: Id)
    requires Known(x) && Known(y) && SeenThread(a, x, u) == SeenThread(a, y, u)
    requires AlikeRows(a, x', y') && Grows(x.db, x') && Grows(y.db, y')
    ensures (if u in x.threads then Shown(a, x', x.threads[u]) else None) ==
            (if u in y.threads then Shown(a, y', y.threads[u]) else None)
  {
    if u in x.threads { assert ThreadKnown(x.db, x.threads[u]); }
    if u in y.threads { assert ThreadKnown(y.db, y.threads[u]); }
    if u in x.threads && u in y.threads {
      FrameShown(a, x.db, x', y.db, y', x.threads[u], y.threads[u]);
    } else if u in x.threads {
      StaysHidden(a, x.db, x', x.threads[u]);
    } else if u in y.threads {
      StaysHidden(a, y.db, y', y.threads[u]);
    }
  }

  lemma StaysHidden(a: Id, x: Db, x': Db, th: Thread)
    requires Placed(x, th) && Grows(x, x') && Shown(a, x, th).None?
    ensures Shown(a, x', th).None?
  {
  }

  lemma SameLabelWrite(env: Env, a: Id, x: Sys, y: Sys, l: Label)
    requires Alike(a, x, y) && Visible(a, x, l) && Enabled(y, l) && EntryOf(x, l) == EntryOf(y, l)
    ensures WriteOf(env, x, l) == WriteOf(env, y, l) && Visible(a, y, l)
  {
    assert SeenThread(a, x, l.t) == SeenThread(a, y, l.t);
    if l.Advance? && x.threads[l.t].CallRead? {
      assert SeenPayment(a, x.db, l.input.pick.value) == SeenPayment(a, y.db, l.input.pick.value);
    } else if l.Advance? || l.Crash? {
      ShownRunning(a, x, y, l.t);
    }
  }

  /** A step user a can see keeps two systems alike. */
  lemma VisibleStep(env: Env, a: Id, x: Sys, y: Sys, l: Label)
    requires Known(x) && Known(y) && Alike(a, x, y) && Visible(a, x, l) && Enabled(y, l)
    requires EntryOf(x, l) == EntryOf(y, l)
    ensures Visible(a, y, l) && Alike(a, Apply(env, x, l), Apply(env, y, l))
  {
    var x', y' := Apply(env, x, l), Apply(env, y, l);
    var w := WriteOf(env, x, l);
    SameLabelWrite(env, a, x, y, l);
    StepShape(env, x, l);
    StepShape(env, y, l);
    SameWrite(a, x.db, y.db, w);
    EffectGrows(x.db, w);
    EffectGrows(y.db, w);
    forall u ensures SeenThread(a, x', u) == SeenThread(a, y', u) {
      assert SeenThread(a, x, u) == SeenThread(a, y, u);
      if u == l.t {
        MovedAlike(env, a, x, x'.db, y, y'.db, l);
      } else {
        OtherThreadAlike(a, x, x'.db, y, y'.db, u);
      }
    }
  }

  lemma HiddenRows(env: Env, a: Id, x: Sys, l: Label)
    requires Known(x) && !Visible(a, x, l)
    ensures AlikeRows(a, Effect(x.db, WriteOf(env, x, l)), x.db)
  {
    var w := WriteOf(env, x, l);
    StepShape(env, x, l);
    if Enabled(x, l) && l.Advance? { HiddenWrite(a, x, l.t, l.input); }
    if Mine(a, x.db, w) { assert w.NoWrite? || w.Reserve? || Attempt(x.db, w).Err?; } else { OthersWrite(a, x.db, w); }
  }

  /** A step user a cannot see changes nothing a sees. */
  lemma InvisibleStep(env: Env, a: Id, x: Sys, l: Label)
    requires Known(x) && !Visible(a, x, l) && !Leaky(a, x, l)
    ensures Alike(a, Apply(env, x, l), x)
  {
    StepShape(env, x, l);
    if Enabled(x, l) {
      var x' := Apply(env, x, l);
      HiddenRows(env, a, x, l);
      EffectGrows(x.db, WriteOf(env, x, l));
      forall u ensures SeenThread(a, x', u) == SeenThread(a, x, u) {
        if u == l.t {
          MovedHidden(env, a, x, l);
        } else {
          OtherThreadAlike(a, x, x'.db, x, x.db, u);
        }
      }
    }
  }

  /** A hidden thread's write concerns someone else, or writes nothing. */
  lemma HiddenWrite(a: Id, x: Sys, t: Id, input: Input)
    requires Known(x) && Live(x, t)
    requires SeenThread(a, x, t).None? || SeenThread(a, x, t).value.Done?
    ensures var w := ThreadWrite(x.threads[t], input); Mine(a, x.db, w) ==> w.NoWrite? || w.Reserve?
  {
    assert ThreadKnown(x.db, x.threads[t]);
  }

  lemma MovedHidden(env: Env, a: Id, x: Sys, l: Label)
    requires Known(x) && Enabled(x, l) && !Visible(a, x, l) && !Leaky(a, x, l)
    ensures Shown(a, Effect(x.db, WriteOf(env, x, l)), Moved(env, x, l)) == SeenThread(a, x, l.t)
  {
    match l {
      case Advance(t, input) =>
        assert ThreadKnown(x.db, x.threads[t]);
        EffectGrows(x.db, WriteOf(env, x, l));
        ThreadMovedHidden(env, a, x.db, Effect(x.db, ThreadWrite(x.threads[t], input)), x.threads[t], input);
      case Crash(t) =>
      case StartCallback(_, _, _) =>
      case _ => assert l.user != a && OwnerOf(Moved(env, x, l)) == Some(l.user);
    }
  }

  lemma ThreadMovedHidden(env: Env, a: Id, x: Db, x': Db, th: Thread, input: Input)
    requires RowsKnown(x) && ThreadKnown(x, th) && Grows(x, x') && !th.Done?
    requires th.CallRead? ==> input.pick.None? || SeenPayment(a, x, input.pick.value).None?
    requires
      || Shown(a, x, th).None?
      || (th.GetCheck? && th.user == a && !Owns(x, a, th.receipt.oid) && input.fault.NoFault?)
    ensures Shown(a, x', NextThread(env, x, th, input)) == Shown(a, x, th)
  {
    ThreadFollows(env, x, th, input);
  }

  /** The leaky steps are the only hidden steps that show. */
  lemma HiddenStepShowsIffLeaky(env: Env, a: Id, x: Sys, l: Label)
    requires Known(x) && !Visible(a, x, l)
    ensures Alike(a, Apply(env, x, l), x) <==> !Leaky(a, x, l)
  {
    if Leaky(a, x, l) {
      var x' := Apply(env, x, l);
      assert SeenThread(a, x, l.t) == Some(Done(Some(a), Failed(PaymentNotFound)));
      assert SeenThread(a, x', l.t) != SeenThread(a, x, l.t);
    } else {
      InvisibleStep(env, a, x, l);
    }
  }

  // ----- Main result -----

  /** The steps of a run that user a can see, in order. */
  function VisibleTrace(env: Env, a: Id, s: Sys, ls: seq<Label>): seq<Entry> {
    if ls == [] then []
    else
      var front := ls[..|ls| - 1];
      var l := ls[|ls| - 1];
      var mid := Exec(env, s, front);
      VisibleTrace(env, a, s, front) + if Visible(a, mid, l) then [EntryOf(mid, l)] else []
  }

  predicate LeakFree(env: Env, a: Id, s: Sys, ls: seq<Label>) {
    ls != [] ==>
      var front := ls[..|ls| - 1];
      LeakFree(env, a, s, front) && !Leaky(a, Exec(env, s, front), ls[|ls| - 1])
  }

  lemma AlikeTransitive(a: Id, x: Sys, y: Sys, z: Sys)
    requires Alike(a, x, y) && Alike(a, y, z)
    ensures Alike(a, x, z)
  {
    forall oid ensures SeenOrder(a, x.db, oid) == SeenOrder(a, z.db, oid) {
      assert SeenOrder(a, x.db, oid) == SeenOrder(a, y.db, oid);
    }
    forall pid ensures SeenPayment(a, x.db, pid) == SeenPayment(a, z.db, pid) {
      assert SeenPayment(a, x.db, pid) == SeenPayment(a, y.db, pid);
    }
    forall uid ensures SeenUpload(a, x.db, uid) == SeenUpload(a, z.db, uid) {
      assert SeenUpload(a, x.db, uid) == SeenUpload(a, y.db, uid);
    }
    forall t ensures SeenThread(a, x, t) == SeenThread(a, z, t) { assert SeenThread(a, x, t) == SeenThread(a, y, t); }
  }

  /**
   Two whole runs, each interleaving anything, that agree on the steps user a can see end in states a
   cannot tell apart: a's rows and all of a's answers depend on nothing else.
   */
  lemma {:induction false} Noninterference(env: Env, users: set<Id>, a: Id, ls: seq<Label>, ms: seq<Label>)
    requires LeakFree(env, a, Init(users), ls) && LeakFree(env, a, Init(users), ms)
    requires VisibleTrace(env, a, Init(users), ls) == VisibleTrace(env, a, Init(users), ms)
    ensures Alike(a, Exec(env, Init(users), ls), Exec(env, Init(users), ms))
    decreases |ls| + |ms|
  {
    var s := Init(users);
    if ls != [] && !Visible(a, Exec(env, s, ls[..|ls| - 1]), ls[|ls| - 1]) {
      DropHidden(env, users, a, ls);
      Noninterference(env, users, a, ls[..|ls| - 1], ms);
      AlikeTransitive(a, Exec(env, s, ls), Exec(env, s, ls[..|ls| - 1]), Exec(env, s, ms));
    } else if ms != [] && !Visible(a, Exec(env, s, ms[..|ms| - 1]), ms[|ms| - 1]) {
      DropHidden(env, users, a, ms);
      Noninterference(env, users, a, ls, ms[..|ms| - 1]);
      AlikeTransitive(a, Exec(env, s, ls), Exec(env, s, ms[..|ms| - 1]), Exec(env, s, ms));
    } else if ls != [] && ms != [] {
      var l, m := ls[|ls| - 1], ms[|ms| - 1];
      var x, y := Exec(env, s, ls[..|ls| - 1]), Exec(env, s, ms[..|ms| - 1]);
      var v, w := VisibleTrace(env, a, s, ls), VisibleTrace(env, a, s, ms);
      assert v[|v| - 1] == EntryOf(x, l) && w[|w| - 1] == EntryOf(y, m);
      assert v[..|v| - 1] == VisibleTrace(env, a, s, ls[..|ls| - 1]);
      assert w[..|w| - 1] == VisibleTrace(env, a, s, ms[..|ms| - 1]);
      Noninterference(env, users, a, ls[..|ls| - 1], ms[..|ms| - 1]);
      RunKnown(env, users, ls[..|ls| - 1]);
      RunKnown(env, users, ms[..|ms| - 1]);
      VisibleStep(env, a, x, y, l);
    } else {
      assert ls == [] && ms == [];
    }
  }

  lemma DropHidden(env: Env, users: set<Id>, a: Id, ls: seq<Label>)
    requires ls != [] && LeakFree(env, a, Init(users), ls)
    requires !Visible(a, Exec(env, Init(users), ls[..|ls| - 1]), ls[|ls| - 1])
    ensures LeakFree(env, a, Init(users), ls[..|ls| - 1])
    ensures VisibleTrace(env, a, Init(users), ls) == VisibleTrace(env, a, Init(users), ls[..|ls| - 1])
    ensures Alike(a, Exec(env, Init(users), ls), Exec(env, Init(users), ls[..|ls| - 1]))
  {
    RunKnown(env, users, ls[..|ls| - 1]);
    InvisibleStep(env, a, Exec(env, Init(users), ls[..|ls| - 1]), ls[|ls| - 1]);
  }

  // ----- Other users' steps, put in or taken out -----

  /** No step of c is in user a's view or leaks into it. */
  predicate AllHidden(env: Env, a: Id, s: Sys, c: seq<Label>) {
    c != [] ==>
      var front := c[..|c| - 1];
      var mid := Exec(env, s, front);
      AllHidden(env, a, s, front) && !Visible(a, mid, c[|c| - 1]) && !Leaky(a, mid, c[|c| - 1])
  }

  predicate AllVisible(env: Env, a: Id, s: Sys, q: seq<Label>) {
    q != [] ==>
      var front := q[..|q| - 1];
      AllVisible(env, a, s, front) && Visible(a, Exec(env, s, front), q[|q| - 1])
  }

  /** No step of q calls the gateway. */
  predicate NoneDraws(env: Env, s: Sys, q: seq<Label>) {
    q != [] ==>
      var front := q[..|q| - 1];
      NoneDraws(env, s, front) && !Draws(Exec(env, s, front), q[|q| - 1])
  }

  /** The identifier a label brings along. */
  function Brings(l: Label): Option<Id> {
    match l
    case CreateOrder(_, _, _, id, _) => Some(id)
    case Advance(_, input) => Some(input.newId)
    case _ => None
  }

  /**
   Alike for user a, and the same threads but for the given ones; y may have used some extra identifiers.
   The gateway counters need not agree.
   */
  ghost predicate Beside(a: Id, x: Sys, y: Sys, apart: set<Id>, extra: set<Id>) {
    && Alike(a, x, y) && y.db.used <= x.db.used + extra
    && (forall t :: t !in apart ==> (t in x.threads <==> t in y.threads))
    && (forall t :: t !in apart && t in x.threads && t in y.threads ==>
          x.threads[t].CallRead? || y.threads[t].CallRead? ==> x.threads[t] == y.threads[t])
  }

  lemma AlikeSymmetric(a: Id, x: Sys, y: Sys)
    requires Alike(a, x, y)
    ensures Alike(a, y, x)
  {
  }

  lemma HiddenBeside(env: Env, a: Id, x: Sys, y: Sys, apart: set<Id>, l: Label)
    requires Known(y) && Alike(a, x, y) && !Visible(a, y, l) && !Leaky(a, y, l)
    requires forall t :: t !in apart ==>
      (t in x.threads <==> t in y.threads) && (t in x.threads ==> x.threads[t] == y.threads[t])
    ensures var y' := Apply(env, y, l);
      && Alike(a, x, y')
      && forall t :: t !in apart + {l.t} ==>
           (t in x.threads <==> t in y'.threads) && (t in x.threads ==> x.threads[t] == y'.threads[t])
  {
    InvisibleStep(env, a, y, l);
    AlikeSymmetric(a, Apply(env, y, l), y);
    AlikeTransitive(a, x, y, Apply(env, y, l));
    StepShape(env, y, l);
  }

  function ThreadsOf(c: seq<Label>): set<Id> {
    set l | l in c :: l.t
  }

  lemma ThreadsSnoc(front: seq<Label>, l: Label)
    ensures ThreadsOf(front + [l]) == ThreadsOf(front) + {l.t}
  {
  }

  /** Whatever hidden steps do, user a's view stays as it was; other threads do not move. */
  lemma {:induction false} HiddenStretch(env: Env, a: Id, x: Sys, c: seq<Label>)
    requires Known(x) && AllHidden(env, a, x, c)
    ensures var y := Exec(env, x, c);
      && Known(y) && Alike(a, x, y)
      && forall t :: t !in ThreadsOf(c) ==>
           (t in x.threads <==> t in y.threads) && (t in x.threads ==> x.threads[t] == y.threads[t])
  {
    if c != [] {
      var front, l := c[..|c| - 1], c[|c| - 1];
      HiddenStretch(env, a, x, front);
      HiddenBeside(env, a, x, Exec(env, x, front), ThreadsOf(front), l);
      StepKnown(env, Exec(env, x, front), l);
      assert c == front + [l];
      ThreadsSnoc(front, l);
    }
  }

  lemma StillEnabled(a: Id, x: Sys, y: Sys, apart: set<Id>, extra: set<Id>, l: Label)
    requires Beside(a, x, y, apart, extra) && l.t !in apart && Visible(a, x, l)
    requires Brings(l).Some? ==> Brings(l).value !in extra
    requires Draws(x, l) ==> x.counter == y.counter
    ensures Enabled(y, l) && EntryOf(x, l) == EntryOf(y, l)
  {
    assert SeenThread(a, x, l.t) == SeenThread(a, y, l.t);
    if l.Advance? && x.threads[l.t].CallRead? {
      assert SeenPayment(a, x.db, l.input.pick.value) == SeenPayment(a, y.db, l.input.pick.value);
    } else if l.Advance? || l.Crash? {
      ShownRunning(a, x, y, l.t);
    }
  }

  /** A write user a can see uses up the same identifiers in both systems. */
  lemma SameUsed(env: Env, a: Id, x: Sys, y: Sys, extra: set<Id>, l: Label)
    requires Known(x) && Known(y) && Alike(a, x, y) && y.db.used <= x.db.used + extra
    requires Visible(a, x, l) && Enabled(y, l) && EntryOf(x, l) == EntryOf(y, l)
    ensures Effect(y.db, WriteOf(env, y, l)).used <= Effect(x.db, WriteOf(env, x, l)).used + extra
  {
    var w := WriteOf(env, x, l);
    SameLabelWrite(env, a, x, y, l);
    if Mine(a, x.db, w) {
      SameAttempt(a, x.db, y.db, w);
      UsesOnly(x.db, w);
      UsesOnly(y.db, w);
    } else {
      if Mine(a, y.db, w) { SameAttempt(a, y.db, x.db, w); }
      UsesNothing(env, a, x, l);
      UsesNothing(env, a, y, l);
    }
  }

  /** The identifiers a write uses up when it succeeds. */
  function Uses(w: Write): set<Id> {
    match w
    case NewOrder(id, _, _) => {id}
    case NewPayment(pid, _, _, _) => {pid}
    case NewUpload(uid, _) => {uid}
    case Reserve(name) => {name}
    case _ => {}
  }

  lemma UsesOnly(db: Db, w: Write)
    ensures Effect(db, w).used == db.used + if Attempt(db, w).Ok? then Uses(w) else {}
  {
  }

  /** A step user a can see inserts only for a's own orders. */
  lemma UsesNothing(env: Env, a: Id, x: Sys, l: Label)
    requires Known(x) && Visible(a, x, l) && !Mine(a, x.db, WriteOf(env, x, l))
    ensures Effect(x.db, WriteOf(env, x, l)).used == x.db.used
  {
    if l.Advance? { assert ThreadKnown(x.db, x.threads[l.t]); }
  }

  /** A visible step draws in both systems or in neither, and never leads to a lookup. */
  lemma SameMoves(env: Env, a: Id, x: Sys, y: Sys, l: Label)
    requires Alike(a, x, y) && Visible(a, x, l) && Enabled(y, l) && EntryOf(x, l) == EntryOf(y, l)
    ensures x.counter == y.counter ==> Apply(env, x, l).counter == Apply(env, y, l).counter
    ensures !Moved(env, x, l).CallRead? && !Moved(env, y, l).CallRead?
  {
    assert SeenThread(a, x, l.t) == SeenThread(a, y, l.t);
    StepCounter(env, x, l);
    StepCounter(env, y, l);
    StepFollows(env, x, l);
    StepFollows(env, y, l);
    StepShape(env, x, l);
    StepShape(env, y, l);
    if (l.Advance? && !x.threads[l.t].CallRead?) || l.Crash? { ShownRunning(a, x, y, l.t); }
  }

  lemma BesideStep(env: Env, a: Id, x: Sys, y: Sys, apart: set<Id>, extra: set<Id>, l: Label)
    requires Known(x) && Known(y) && Beside(a, x, y, apart, extra) && l.t !in apart && Visible(a, x, l)
    requires Brings(l).Some? ==> Brings(l).value !in extra
    requires Draws(x, l) ==> x.counter == y.counter
    ensures Visible(a, y, l) && EntryOf(x, l) == EntryOf(y, l)
    ensures var x', y' := Apply(env, x, l), Apply(env, y, l);
      Beside(a, x', y', apart, extra) && (x.counter == y.counter ==> x'.counter == y'.counter)
  {
    StillEnabled(a, x, y, apart, extra, l);
    VisibleStep(env, a, x, y, l);
    SameUsed(env, a, x, y, extra, l);
    SameMoves(env, a, x, y, l);
    StepShape(env, x, l);
    StepShape(env, y, l);
  }

  lemma {:induction false} KnownAfter(env: Env, s: Sys, q: seq<Label>)
    requires Known(s)
    ensures Known(Exec(env, s, q))
  {
    if q != [] {
      KnownAfter(env, s, q[..|q| - 1]);
      StepKnown(env, Exec(env, s, q[..|q| - 1]), q[|q| - 1]);
    }
  }

  /** Neither a thread nor an identifier of q is among the given ones. */
  predicate Avoids(q: seq<Label>, apart: set<Id>, extra: set<Id>) {
    forall l :: l in q ==> l.t !in apart && (Brings(l).Some? ==> Brings(l).value !in extra)
  }

  lemma {:induction false} BesideRun(env: Env, a: Id, x: Sys, y: Sys, apart: set<Id>, extra: set<Id>, q: seq<Label>)
    requires Known(x) && Known(y) && Beside(a, x, y, apart, extra)
    requires AllVisible(env, a, x, q) && Avoids(q, apart, extra)
    requires x.counter == y.counter || NoneDraws(env, x, q)
    ensures AllVisible(env, a, y, q) && VisibleTrace(env, a, x, q) == VisibleTrace(env, a, y, q)
    ensures var x', y' := Exec(env, x, q), Exec(env, y, q);
      Beside(a, x', y', apart, extra) && (x.counter == y.counter ==> x'.counter == y'.counter)
  {
    if q != [] {
      var front, l := q[..|q| - 1], q[|q| - 1];
      BesideRun(env, a, x, y, apart, extra, front);
      KnownAfter(env, x, front);
      KnownAfter(env, y, front);
      BesideStep(env, a, Exec(env, x, front), Exec(env, y, front), apart, extra, l);
    }
  }

  /**
   Any hidden steps, other users' Creates and uploads and callbacks, may be put into a run before steps of
   user a, or taken out of it: a's steps stay possible and look the same, and a ends with the same rows and
   answers. The put-in steps may move the gateway counter unless one of a's steps draws a number.
   */
  lemma HiddenStepsInsertable(env: Env, users: set<Id>, a: Id, p: seq<Label>, c: seq<Label>, q: seq<Label>)
    requires var x, y := Exec(env, Init(users), p), Exec(env, Init(users), p + c);
      && AllHidden(env, a, x, c) && AllVisible(env, a, x, q)
      && Avoids(q, ThreadsOf(c), y.db.used - x.db.used)
      && (x.counter == y.counter || NoneDraws(env, x, q))
    ensures var x, y := Exec(env, Init(users), p), Exec(env, Init(users), p + c);
      AllVisible(env, a, y, q) && VisibleTrace(env, a, x, q) == VisibleTrace(env, a, y, q)
    ensures Alike(a, Exec(env, Init(users), p + q), Exec(env, Init(users), p + c + q))
  {
    var x, y := Exec(env, Init(users), p), Exec(env, Init(users), p + c);
    RunKnown(env, users, p);
    ExecAppend(env, Init(users), p, c);
    HiddenStretch(env, a, x, c);
    BesideRun(env, a, x, y, ThreadsOf(c), y.db.used - x.db.used, q);
    ExecAppend(env, Init(users), p, q);
    ExecAppend(env, Init(users), p + c, q);
  }

  // ----- Other users' requests and callbacks are such steps -----

  /** A request that user a does not see: another user's, or a callback that has not found a payment of a. */
  predicate RunsElsewhere(a: Id, s: Sys, t: Id) {
    && t in s.threads
    && var th := s.threads[t];
       || (OwnerOf(th).Some? && OwnerOf(th) != Some(a))
       || th.CallRead? || ((th.CallWrite? || th.CallAdvance?) && !Owns(s.db, a, th.receipt.oid)) || th.Done?
  }

  lemma ElsewhereStep(env: Env, a: Id, s: Sys, t: Id, input: Input)
    requires Known(s) && RunsElsewhere(a, s, t)
    requires s.threads[t].CallRead? ==>
      Enabled(s, Advance(t, input)) && (input.pick.None? || SeenPayment(a, s.db, input.pick.value).None?)
    ensures var s' := Apply(env, s, Advance(t, input));
      && !Visible(a, s, Advance(t, input)) && !Leaky(a, s, Advance(t, input))
      && RunsElsewhere(a, s', t) && Known(s') && !s'.threads[t].CallRead?
  {
    var l := Advance(t, input);
    StepKnown(env, s, l);
    StepShape(env, s, l);
    if Enabled(s, l) {
      assert ThreadKnown(s.db, s.threads[t]);
      ThreadFollows(env, s.db, s.threads[t], input);
    }
  }

  function StepsOf(t: Id, inputs: seq<Input>): seq<Label> {
    if inputs == [] then [] else StepsOf(t, inputs[..|inputs| - 1]) + [Advance(t, inputs[|inputs| - 1])]
  }

  lemma {:induction false} ElsewhereRun(env: Env, a: Id, s: Sys, t: Id, inputs: seq<Input>)
    requires Known(s) && RunsElsewhere(a, s, t) && !s.threads[t].CallRead?
    ensures AllHidden(env, a, s, StepsOf(t, inputs))
    ensures var s' := Exec(env, s, StepsOf(t, inputs)); Known(s') && RunsElsewhere(a, s', t) && !s'.threads[t].CallRead?
  {
    if inputs != [] {
      var front, input := inputs[..|inputs| - 1], inputs[|inputs| - 1];
      ElsewhereRun(env, a, s, t, front);
      ElsewhereStep(env, a, Exec(env, s, StepsOf(t, front)), t, input);
      HiddenSnoc(env, a, s, StepsOf(t, front), Advance(t, input));
    }
  }

  lemma HiddenSnoc(env: Env, a: Id, s: Sys, front: seq<Label>, l: Label)
    requires AllHidden(env, a, s, front)
    requires !Visible(a, Exec(env, s, front), l) && !Leaky(a, Exec(env, s, front), l)
    ensures AllHidden(env, a, s, front + [l])
    ensures Exec(env, s, front + [l]) == Apply(env, Exec(env, s, front), l)
  {
    assert (front + [l])[..|front|] == front;
  }

  lemma {:induction false} HiddenCons(env: Env, a: Id, s: Sys, l: Label, rest: seq<Label>)
    requires !Visible(a, s, l) && !Leaky(a, s, l) && AllHidden(env, a, Apply(env, s, l), rest)
    ensures AllHidden(env, a, s, [l] + rest)
  {
    if rest == [] {
      assert [l] + rest == [l] && [l][..0] == [];
    } else {
      var front := rest[..|rest| - 1];
      HiddenCons(env, a, s, l, front);
      ExecTail(env, s, l, front);
      assert ([l] + rest)[..|rest|] == [l] + front;
    }
  }

  /** A whole request of another user, with any faults: a Create, a lookup, an upload, or an order operation. */
  lemma ForeignRequest(env: Env, a: Id, s: Sys, start: Label, inputs: seq<Input>)
    requires Known(s) && !start.Advance? && !start.Crash? && !start.StartCallback? && start.user != a
    requires Enabled(s, start)
    ensures AllHidden(env, a, s, [start] + StepsOf(start.t, inputs))
  {
    StepKnown(env, s, start);
    StepShape(env, s, start);
    StepFollows(env, s, start);
    ElsewhereRun(env, a, Apply(env, s, start), start.t, inputs);
    HiddenCons(env, a, s, start, StepsOf(start.t, inputs));
  }

  /** A whole callback, with any faults, whose lookup finds no payment of user a. */
  lemma ForeignCall(env: Env, a: Id, s: Sys, t: Id, reference: string, status: string, lookup: Input,
                    inputs: seq<Input>)
    requires Known(s) && t !in s.threads && Picks(s.db, reference, lookup.pick)
    requires lookup.pick.None? || SeenPayment(a, s.db, lookup.pick.value).None?
    ensures AllHidden(env, a, s, [StartCallback(t, reference, status)] + ([Advance(t, lookup)] + StepsOf(t, inputs)))
  {
    var start := StartCallback(t, reference, status);
    var s1 := Apply(env, s, start);
    StepKnown(env, s, start);
    StepFollows(env, s, start);
    ElsewhereStep(env, a, s1, t, lookup);
    ElsewhereRun(env, a, Apply(env, s1, Advance(t, lookup)), t, inputs);
    HiddenCons(env, a, s1, Advance(t, lookup), StepsOf(t, inputs));
    HiddenCons(env, a, s, start, [Advance(t, lookup)] + StepsOf(t, inputs));
  }

  /** The label starts a callback, or moves or ends one that does not concern user a. */
  predicate ForeignCallback(a: Id, s: Sys, l: Label) {
    || l.StartCallback?
    || (&& (l.Advance? || l.Crash?) && l.t in s.threads && !Visible(a, s, l)
        && var th := s.threads[l.t];
           th.CallRead? || th.CallWrite? || th.CallAdvance? || th.Done?)
  }

  predicate ForeignCallbacks(env: Env, a: Id, s: Sys, c: seq<Label>) {
    c != [] ==>
      var front := c[..|c| - 1];
      ForeignCallbacks(env, a, s, front) && ForeignCallback(a, Exec(env, s, front), c[|c| - 1])
  }

  /** Whatever callbacks for other users' payments do, user a's view, the counter and the identifiers stay. */
  lemma {:induction false} ForeignCallbacksInvisible(env: Env, a: Id, x: Sys, c: seq<Label>)
    requires Known(x) && ForeignCallbacks(env, a, x, c)
    ensures var y := Exec(env, x, c);
      && Known(y) && AllHidden(env, a, x, c) && Alike(a, x, y)
      && y.counter == x.counter && y.db.used == x.db.used
  {
    if c != [] {
      var front, l := c[..|c| - 1], c[|c| - 1];
      var y := Exec(env, x, front);
      ForeignCallbacksInvisible(env, a, x, front);
      HiddenStretch(env, a, x, c);
      StepShape(env, y, l);
      StepCounter(env, y, l);
    }
  }

  /** So they may be put in before any steps of user a, Creates included. */
  lemma ForeignCallbacksInsertable(env: Env, users: set<Id>, a: Id, p: seq<Label>, c: seq<Label>, q: seq<Label>)
    requires var x := Exec(env, Init(users), p); ForeignCallbacks(env, a, x, c) && AllVisible(env, a, x, q)
    requires forall l, m :: l in q && m in c ==> l.t != m.t
    ensures AllVisible(env, a, Exec(env, Init(users), p + c), q)
    ensures Alike(a, Exec(env, Init(users), p + q), Exec(env, Init(users), p + c + q))
  {
    var x := Exec(env, Init(users), p);
    RunKnown(env, users, p);
    ForeignCallbacksInvisible(env, a, x, c);
    ExecAppend(env, Init(users), p, c);
    HiddenStepsInsertable(env, users, a, p, c, q);
  }

  /** Asking for another user's order, payment or upload is answered exactly like asking for one that never existed. */
  lemma ForeignLikeMissing(env: Env, db: Db, a: Id, id: Id, missing: Id, req: OrderRequest, input: Input)
    requires RowsKnown(db) && !Owns(db, a, id) && SeenPayment(a, db, id).None? && SeenUpload(a, db, id).None?
    requires missing !in db.used && input.fault.NoFault?
    ensures UpdateOrder(db, a, id, req) == UpdateOrder(db, a, missing, req)
    ensures DeleteOrder(db, a, id) == DeleteOrder(db, a, missing)
    ensures SelectOrder(db, a, id) == SelectOrder(db, a, missing)
    ensures SelectUpload(db, a, id) == SelectUpload(db, a, missing)
    ensures NextThread(env, db, PayRead(a, id), input) == NextThread(env, db, PayRead(a, missing), input)
    ensures var found := NextThread(env, db, GetRead(a, id), input);
      (if found.GetCheck? then NextThread(env, db, found, input) else found) ==
          NextThread(env, db, GetRead(a, missing), input)
  {
    assert missing !in db.orders && missing !in db.payments && missing !in db.uploads;
  }
}
