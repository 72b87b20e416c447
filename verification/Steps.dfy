/** What one label may change: one effect on the rows, and one thread. */
module Steps {
  import opened Domain
  import opened Database
  import opened Protocol
  import opened Numbering

  /** Identifiers a write introduces are new. */
  predicate Fresh(db: Db, w: Write) {
    match w
    case NewOrder(id, _, _) => id !in db.used
    case NewPayment(pid, _, _, _) => pid !in db.used
    case NewUpload(uid, _) => uid !in db.used
    case Reserve(name) => name !in db.used
    case _ => true
  }

  /** The write of a label, NoWrite when it is not enabled. */
  function WriteOf(env: Env, s: Sys, l: Label): Write {
    if !Enabled(s, l) then NoWrite
    else match l
      case Advance(t, input) => ThreadWrite(s.threads[t], input)
      case Crash(_) => NoWrite
      case _ => RequestWrite(env, l)
  }

  /** Where the label leaves its own thread. */
  function Moved(env: Env, s: Sys, l: Label): Thread
    requires Enabled(s, l)
  {
    match l
    case Advance(t, input) => NextThread(env, s.db, s.threads[t], input)
    case Crash(t) => Done(OwnerOf(s.threads[t]), Halted)
    case _ => NextRequest(env, s.db, l)
  }

  /** The rows change by the label's one write, and only its own thread moves. */
  lemma StepShape(env: Env, s: Sys, l: Label)
    ensures Apply(env, s, l).db == Effect(s.db, WriteOf(env, s, l))
    ensures Enabled(s, l) ==> Apply(env, s, l).threads == s.threads[l.t := Moved(env, s, l)]
    ensures !Enabled(s, l) ==> Apply(env, s, l) == s
    ensures Fresh(s.db, WriteOf(env, s, l))
  {
  }

  predicate Ends(th: Thread, owner: Option<Id>) {
    th.Done? && th.owner == owner && th.reply.Failed?
  }

  /** Control flow: where a step of thread `th` can lead, and what must have held for it. */
  predicate Follows(env: Env, db: Db, th: Thread, input: Input, th': Thread) {
    match th
    case PayRead(user, oid) =>
      || Ends(th', Some(user))
      || (&& Owns(db, user, oid) && db.orders[oid].status == Pending && Gross(db.orders[oid]) > 0
          && th' == PayDraw(user, oid, Gross(db.orders[oid])))
    case PayDraw(user, oid, gross) => th' == PayInsert(user, oid, gross, Reference(input.number))
    case PayInsert(user, oid, gross, reference) =>
      || (Ends(th', Some(user)) &&
          (input.fault.NoFault? ==> InsertPayment(db, input.newId, oid, reference, gross).Err?))
      || (&& input.fault.NoFault? && InsertPayment(db, input.newId, oid, reference, gross).Ok?
          && th' == PayMark(user, Receipt(input.newId, oid, reference, gross, Unsettled)))
    case PayMark(user, receipt) =>
      || (Ends(th', Some(user)) && (input.fault.NoFault? ==> !Owns(db, user, receipt.oid)))
      || (input.fault.NoFault? && Owns(db, user, receipt.oid) && th' == Done(Some(user), PaymentCreated(receipt)))
    case CallRead(reference, v) =>
      || Ends(th', None)
      || (&& input.pick.Some? && input.pick.value in db.payments
          && var p := ReceiptOf(input.pick.value, db.payments[input.pick.value]);
             || (p.status == Settled(v) && th' == Done(None, PaymentFound(p)))
             || (p.status == Unsettled && th' == CallWrite(p, v)))
    case CallWrite(receipt, v) =>
      || (Ends(th', None) && (input.fault.NoFault? ==> receipt.pid !in db.payments))
      || (&& input.fault.NoFault? && receipt.pid in db.payments
          && th' == CallAdvance(receipt.(status := Settled(v)), v))
    case CallAdvance(receipt, v) =>
      || (Ends(th', None) && (input.fault.NoFault? ==> receipt.oid !in db.orders))
      || (input.fault.NoFault? && receipt.oid in db.orders && th' == Done(None, PaymentFound(receipt)))
    case GetRead(user, pid) =>
      || Ends(th', Some(user))
      || (pid in db.payments && th' == GetCheck(user, ReceiptOf(pid, db.payments[pid])))
    case GetCheck(user, receipt) => Ends(th', Some(user)) || th' == Done(Some(user), PaymentFound(receipt))
    case UpRead(user, oid, content, size) =>
      || Ends(th', Some(user))
      || (&& Owns(db, user, oid) && 0 < size <= env.maxSize && th' == UpSniff(user, oid, content, size))
    case UpSniff(user, oid, content, size) =>
      || Ends(th', Some(user))
      || (&& Extension(env.sniff(Head(content))).Some?
          && var contentType := env.sniff(Head(content));
             th' == UpOpen(user, Job(oid, content, size, contentType, Extension(contentType).value)))
    case UpOpen(user, job) =>
      || Ends(th', Some(user))
      || (input.fault.NoFault? && th' == UpCopy(user, job, Path(input.date, input.newId, job.ext), 0))
    case UpCopy(user, job, path, done) =>
      || th' == UpRemove(user, path)
      || (done >= |job.content| && th' == UpInsert(user, job, path))
      || (&& input.fault.NoFault? && done < |job.content|
          && th'.UpCopy? && th'.done <= |job.content| && th' == UpCopy(user, job, path, th'.done))
    case UpRemove(user, path) => Ends(th', Some(user))
    case UpInsert(user, job, path) =>
      || Ends(th', Some(user))
      || th' == Done(Some(user), UploadCreated(input.newId, Upload(job.oid, job.contentType, job.size, path)))
    case Done(_, _) => th' == th
  }

  lemma ThreadFollows(env: Env, db: Db, th: Thread, input: Input)
    ensures Follows(env, db, th, input, NextThread(env, db, th, input))
  {
  }

  /** How a request enters: as a thread at its first call, or already answered. */
  predicate Enters(l: Label, th': Thread) {
    match l
    case StartPay(_, user, oid) => th' == PayRead(user, oid)
    case StartGet(_, user, pid) => th' == GetRead(user, pid)
    case StartUpload(_, user, oid, content, size) => th' == UpRead(user, oid, content, size)
    case StartCallback(_, reference, status) =>
      if ParseVerdict(status).Some? then th' == CallRead(reference, ParseVerdict(status).value) else Ends(th', None)
    case Advance(_, _) => false
    case Crash(_) => false
    case _ =>
      && th'.Done? && th'.owner == Some(l.user)
      && !th'.reply.PaymentCreated? && !th'.reply.PaymentFound? && !th'.reply.UploadCreated?
  }

  /** Where the label's own thread is after the step. */
  lemma StepFollows(env: Env, s: Sys, l: Label)
    requires Enabled(s, l)
    ensures l.t in Apply(env, s, l).threads
    ensures l.Advance? ==> Follows(env, s.db, s.threads[l.t], l.input, Apply(env, s, l).threads[l.t])
    ensures l.Crash? ==> Apply(env, s, l).threads[l.t] == Done(OwnerOf(s.threads[l.t]), Halted)
    ensures !l.Advance? && !l.Crash? ==> Enters(l, Apply(env, s, l).threads[l.t])
  {
    if l.Advance? { ThreadFollows(env, s.db, s.threads[l.t], l.input); }
  }

  /** Only a gateway call moves the counter. */
  predicate Draws(s: Sys, l: Label) {
    Enabled(s, l) && l.Advance? && s.threads[l.t].PayDraw?
  }

  lemma StepCounter(env: Env, s: Sys, l: Label)
    ensures Apply(env, s, l).draws == s.draws + (if Draws(s, l) then 1 else 0)
    ensures Apply(env, s, l).counter == if Draws(s, l) then NextNumber(s.counter) else s.counter
  {
  }
}
