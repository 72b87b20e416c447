/**
 The service as a labelled transition system. Every repository call and every file operation is one
 step; requests that need several calls are threads with a program counter. A label carries the inputs
 the environment decides (identifiers, faults, the row a query returns). `Apply` is total: a label
 that is not enabled changes nothing, so every sequence of labels is a run.
 */
module Protocol {
  import opened Domain
  import opened Database
  import opened Numbering

  /** upper-casing, content sniffing and the configured size limit */
  datatype Env = Env(upper: Bytes -> Bytes, sniff: Bytes -> string, maxSize: int)

  /** An upload that passed its checks. */
  datatype Job = Job(oid: Id, content: Bytes, size: int, contentType: string, ext: string)

  datatype Reply =
    | Halted                                        // the request's goroutine died
    | Failed(error: Error)
    | OrderCreated(oid: Id, req: OrderRequest)
    | OrderUpdated(oid: Id, req: OrderRequest, status: OrderStatus)
    | OrderFound(oid: Id, order: Order)
    | OrderDeleted
    | PaymentFound(receipt: Receipt)
    | PaymentCreated(receipt: Receipt)
    | UploadCreated(uid: Id, upload: Upload)
    | UploadFound(uid: Id, upload: Upload)

  datatype Thread =
    // payment.Service.Create
    | PayRead(user: Id, oid: Id)
    | PayDraw(user: Id, oid: Id, gross: int)
    | PayInsert(user: Id, oid: Id, gross: int, reference: string)
    | PayMark(user: Id, receipt: Receipt)
    // payment.Service.ApplyProviderCallback
    | CallRead(reference: string, verdict: Verdict)
    | CallWrite(receipt: Receipt, verdict: Verdict)
    | CallAdvance(receipt: Receipt, verdict: Verdict)
    // payment.Service.Get
    | GetRead(user: Id, pid: Id)
    | GetCheck(user: Id, receipt: Receipt)
    // upload.Service.Create
    | UpRead(user: Id, oid: Id, content: Bytes, size: int)
    | UpSniff(user: Id, oid: Id, content: Bytes, size: int)
    | UpOpen(user: Id, job: Job)
    | UpCopy(user: Id, job: Job, path: Path, done: nat)
    | UpRemove(user: Id, path: Path)
    | UpInsert(user: Id, job: Job, path: Path)
    // finished; callbacks answer the provider, not a user
    | Done(owner: Option<Id>, reply: Reply)

  /** What the environment decides for one step of a thread. */
  datatype Input = Input(fault: Fault, newId: Id, number: nat, pick: Option<Id>, chunk: nat, date: Date)

  datatype Label =
    | CreateOrder(t: Id, user: Id, req: OrderRequest, id: Id, fault: Fault)
    | UpdateOrderBy(t: Id, user: Id, oid: Id, req: OrderRequest, fault: Fault)
    | DeleteOrderBy(t: Id, user: Id, oid: Id, fault: Fault)
    | GetOrder(t: Id, user: Id, oid: Id, fault: Fault)
    | GetUpload(t: Id, user: Id, uid: Id, fault: Fault)
    | StartPay(t: Id, user: Id, oid: Id)
    | StartCallback(t: Id, reference: string, status: string)
    | StartGet(t: Id, user: Id, pid: Id)
    | StartUpload(t: Id, user: Id, oid: Id, content: Bytes, size: int)
    | Advance(t: Id, input: Input)
    | Crash(t: Id)

  type Threads = map<Id, Thread>

  /** `counter` is the gateway's uint64; `draws` counts the gateway calls made so far. */
  datatype Sys = Sys(db: Db, counter: nat, draws: nat, threads: Threads, files: map<Path, Bytes>)

  const WORD: nat := 0x1_0000_0000_0000_0000

  function Init(users: set<Id>): Sys {
    Sys(EmptyDb(users), 0, 0, map[], map[])
  }

  function NextNumber(counter: nat): nat {
    (counter + 1) % WORD
  }

  predicate Live(s: Sys, t: Id) {
    t in s.threads && !s.threads[t].Done?
  }

  /** The steps that need a new identifier: for a payment, a file name or an upload. */
  predicate Generates(th: Thread) {
    th.PayInsert? || th.UpOpen? || th.UpInsert?
  }

  predicate Enabled(s: Sys, l: Label) {
    match l
    case Advance(t, input) =>
      && Live(s, t)
      && (Generates(s.threads[t]) ==> input.newId !in s.db.used)
      && (s.threads[t].PayDraw? ==> input.number == NextNumber(s.counter))
      && (s.threads[t].CallRead? ==> Picks(s.db, s.threads[t].reference, input.pick))
    case Crash(t) => Live(s, t)
    case CreateOrder(t, _, _, id, _) => t !in s.threads && id !in s.db.used
    case _ => l.t !in s.threads
  }

  // ----- The one query a step may write with -----

  datatype Write =
    | NoWrite
    | NewOrder(id: Id, user: Id, req: OrderRequest)
    | EditOrder(user: Id, oid: Id, req: OrderRequest)
    | DropOrder(user: Id, oid: Id)
    | NewPayment(pid: Id, oid: Id, reference: string, gross: int)
    | Mark(user: Id, oid: Id)
    | Decide(pid: Id, verdict: Verdict)
    | Close(oid: Id, verdict: Verdict)
    | NewUpload(uid: Id, row: Upload)
    | Reserve(name: Id)               // a generated file name

  function Attempt(db: Db, w: Write): Result<Db> {
    match w
    case NoWrite => Ok(db)
    case NewOrder(id, user, req) => InsertOrder(db, id, user, req)
    case EditOrder(user, oid, req) => UpdateOrder(db, user, oid, req)
    case DropOrder(user, oid) => DeleteOrder(db, user, oid)
    case NewPayment(pid, oid, reference, gross) => InsertPayment(db, pid, oid, reference, gross)
    case Mark(user, oid) => UpdateOrderStatus(db, user, oid, PendingPayment)
    case Decide(pid, v) => UpdatePaymentStatus(db, pid, Settled(v))
    case Close(oid, v) => AdvanceOrder(db, oid, Image(v))
    case NewUpload(uid, row) => InsertUpload(db, uid, row)
    case Reserve(name) => Ok(db.(used := db.used + {name}))
  }

  /** The rows after a query; a failing query changes nothing. */
  function Effect(db: Db, w: Write): Db {
    var r := Attempt(db, w);
    if r.Ok? then r.value else db
  }

  function Failure(owner: Option<Id>, e: Error): Thread {
    Done(owner, Failed(e))
  }

  // ----- Requests answered with one repository call -----

  function RequestQuery(env: Env, l: Label): Write {
    match l
    case CreateOrder(_, user, req, id, _) => if Validate(env.upper, req).None? then NewOrder(id, user, req) else NoWrite
    case UpdateOrderBy(_, user, oid, req, _) =>
      if Validate(env.upper, req).None? then EditOrder(user, oid, req) else NoWrite
    case DeleteOrderBy(_, user, oid, _) => DropOrder(user, oid)
    case _ => NoWrite
  }

  function RequestWrite(env: Env, l: Label): Write {
    match l
    case CreateOrder(_, _, _, _, fault) => if fault.LostCall? then NoWrite else RequestQuery(env, l)
    case UpdateOrderBy(_, _, _, _, fault) => if fault.LostCall? then NoWrite else RequestQuery(env, l)
    case DeleteOrderBy(_, _, _, fault) => if fault.LostCall? then NoWrite else RequestQuery(env, l)
    case _ => NoWrite
  }

  function AnswerCreateOrder(env: Env, db: Db, l: Label): Thread
    requires l.CreateOrder?
  {
    match Validate(env.upper, l.req)
    case Some(e) => Failure(Some(l.user), e)
    case None =>
      match Told(l.fault, Attempt(db, RequestQuery(env, l)))
      case Err(e) => Failure(Some(l.user), e)
      case Ok(_) => Done(Some(l.user), OrderCreated(l.id, l.req))
  }

  function AnswerUpdateOrder(env: Env, db: Db, l: Label): Thread
    requires l.UpdateOrderBy?
  {
    match Validate(env.upper, l.req)
    case Some(e) => Failure(Some(l.user), e)
    case None =>
      match Told(l.fault, UpdateOrder(db, l.user, l.oid, l.req))
      case Err(e) => Failure(Some(l.user), e)
      case Ok(db') => Done(Some(l.user), OrderUpdated(l.oid, l.req, db'.orders[l.oid].status))
  }

  /** A request arrives: it is answered at once, or becomes a thread at its first call. */
  function NextRequest(env: Env, db: Db, l: Label): Thread
    requires !l.Advance? && !l.Crash?
  {
    match l
    case CreateOrder(_, _, _, _, _) => AnswerCreateOrder(env, db, l)
    case UpdateOrderBy(_, _, _, _, _) => AnswerUpdateOrder(env, db, l)
    case DeleteOrderBy(_, user, oid, fault) =>
      (match Told(fault, DeleteOrder(db, user, oid))
       case Err(e) => Failure(Some(user), e)
       case Ok(_) => Done(Some(user), OrderDeleted))
    case GetOrder(_, user, oid, fault) =>
      (match Told(fault, SelectOrder(db, user, oid))
       case Err(e) => Failure(Some(user), e)
       case Ok(o) => Done(Some(user), OrderFound(oid, o)))
    case GetUpload(_, user, uid, fault) =>
      (match Told(fault, SelectUpload(db, user, uid))
       case Err(e) => Failure(Some(user), e)
       case Ok(u) => Done(Some(user), UploadFound(uid, u)))
    case StartPay(_, user, oid) => PayRead(user, oid)
    case StartCallback(_, reference, status) =>
      (match ParseVerdict(status)
       case None => Failure(None, InvalidStatusTransition)
       case Some(v) => CallRead(reference, v))
    case StartGet(_, user, pid) => GetRead(user, pid)
    case StartUpload(_, user, oid, content, size) => UpRead(user, oid, content, size)
  }

  // ----- The calls of a thread -----

  /** The writing query a thread issues at its program counter. */
  function Query(th: Thread, input: Input): Write {
    match th
    case PayInsert(_, oid, gross, reference) => NewPayment(input.newId, oid, reference, gross)
    case PayMark(user, receipt) => Mark(user, receipt.oid)
    case CallWrite(receipt, v) => Decide(receipt.pid, v)
    case CallAdvance(receipt, v) => Close(receipt.oid, v)
    case UpOpen(_, _) => Reserve(input.newId)
    case UpInsert(_, job, path) => NewUpload(input.newId, Upload(job.oid, job.contentType, job.size, path))
    case _ => NoWrite
  }

  /** ... and what reaches the rows: a lost call does not. A name is generated before its file is opened. */
  function ThreadWrite(th: Thread, input: Input): Write {
    if input.fault.LostCall? && !th.UpOpen? then NoWrite else Query(th, input)
  }

  function NextPayRead(db: Db, user: Id, oid: Id, input: Input): Thread {
    match Told(input.fault, SelectOrder(db, user, oid))
    case Err(e) => Failure(Some(user), if e == OrderNotFound then PaymentOrderNotFound else e)
    case Ok(o) =>
      if o.status != Pending then Failure(Some(user), OrderNotPayable)
      else if Gross(o) <= 0 then Failure(Some(user), InvalidAmount)
      else PayDraw(user, oid, Gross(o))
  }

  function NextPayInsert(db: Db, user: Id, oid: Id, gross: int, reference: string, input: Input): Thread {
    match Told(input.fault, InsertPayment(db, input.newId, oid, reference, gross))
    case Err(e) => Failure(Some(user), e)
    case Ok(_) => PayMark(user, Receipt(input.newId, oid, reference, gross, Unsettled))
  }

  function NextPayMark(db: Db, user: Id, receipt: Receipt, input: Input): Thread {
    match Told(input.fault, UpdateOrderStatus(db, user, receipt.oid, PendingPayment))
    case Err(e) => Failure(Some(user), e)
    case Ok(_) => Done(Some(user), PaymentCreated(receipt))
  }

  function PickedRow(db: Db, pick: Option<Id>): Result<Receipt> {
    if pick.Some? then SelectPayment(db, pick.value) else Err(PaymentNotFound)
  }

  function NextCallRead(db: Db, verdict: Verdict, input: Input): Thread {
    match Told(input.fault, PickedRow(db, input.pick))
    case Err(e) => Failure(None, e)
    case Ok(p) =>
      if p.status == Settled(verdict) then Done(None, PaymentFound(p))
      else if p.status != Unsettled then Failure(None, InvalidStatusTransition)
      else CallWrite(p, verdict)
  }

  function NextCallWrite(db: Db, receipt: Receipt, verdict: Verdict, input: Input): Thread {
    match Told(input.fault, UpdatePaymentStatus(db, receipt.pid, Settled(verdict)))
    case Err(e) => Failure(None, e)
    case Ok(_) => CallAdvance(receipt.(status := Settled(verdict)), verdict)
  }

  function NextCallAdvance(db: Db, receipt: Receipt, verdict: Verdict, input: Input): Thread {
    match Told(input.fault, AdvanceOrder(db, receipt.oid, Image(verdict)))
    case Err(e) => Failure(None, e)
    case Ok(_) => Done(None, PaymentFound(receipt))
  }

  function NextGetRead(db: Db, user: Id, pid: Id, input: Input): Thread {
    match Told(input.fault, SelectPayment(db, pid))
    case Err(e) => Failure(Some(user), e)
    case Ok(p) => GetCheck(user, p)
  }

  function NextGetCheck(db: Db, user: Id, receipt: Receipt, input: Input): Thread {
    match Told(input.fault, SelectOrder(db, user, receipt.oid))
    case Err(e) => Failure(Some(user), if e == OrderNotFound then PaymentNotFound else e)
    case Ok(_) => Done(Some(user), PaymentFound(receipt))
  }

  // ----- Uploads -----

  /** What the service sniffs: at most the first 512 bytes. */
  function Head(content: Bytes): Bytes {
    if |content| <= 512 then content else content[..512]
  }

  function Extension(contentType: string): Option<string> {
    if contentType == "application/pdf" then Some("pdf")
    else if contentType == "image/png" then Some("png")
    else if contentType == "image/jpeg" then Some("jpg")
    else None
  }

  function NextUpRead(env: Env, db: Db, user: Id, oid: Id, content: Bytes, size: int, input: Input): Thread {
    match Told(input.fault, SelectOrder(db, user, oid))
    case Err(e) => Failure(Some(user), if e == OrderNotFound then UploadOrderNotFound else e)
    case Ok(_) =>
      if size <= 0 then Failure(Some(user), EmptyFile)
      else if size > env.maxSize then Failure(Some(user), FileTooLarge)
      else UpSniff(user, oid, content, size)
  }

  /** Reads the head, sniffs it and seeks back; a fault is a failing read or seek. */
  function NextUpSniff(env: Env, user: Id, oid: Id, content: Bytes, size: int, input: Input): Thread {
    if !input.fault.NoFault? then Failure(Some(user), Storage)
    else
      var contentType := env.sniff(Head(content));
      match Extension(contentType)
      case None => Failure(Some(user), UnsupportedContentType)
      case Some(ext) => UpOpen(user, Job(oid, content, size, contentType, ext))
  }

  function NextUpOpen(user: Id, job: Job, input: Input): Thread {
    if input.fault.NoFault? then UpCopy(user, job, Path(input.date, input.newId, job.ext), 0)
    else Failure(Some(user), Storage)
  }

  /** How many bytes one copy step moves. */
  function Chunk(job: Job, done: nat, input: Input): nat
    requires done <= |job.content|
  {
    if done + input.chunk <= |job.content| then input.chunk else |job.content| - done
  }

  /** Copies a chunk of any length, or closes the file when nothing is left; any fault means cleaning up. */
  function NextUpCopy(user: Id, job: Job, path: Path, done: nat, input: Input): Thread {
    if !input.fault.NoFault? then UpRemove(user, path)
    else if done >= |job.content| then UpInsert(user, job, path)
    else UpCopy(user, job, path, done + Chunk(job, done, input))
  }

  function NextUpInsert(db: Db, user: Id, job: Job, path: Path, input: Input): Thread {
    var u := Upload(job.oid, job.contentType, job.size, path);
    match Told(input.fault, InsertUpload(db, input.newId, u))
    case Err(e) => Failure(Some(user), e)
    case Ok(_) => Done(Some(user), UploadCreated(input.newId, u))
  }

  /** The files after a storage step. Creating truncates; the result of removing a partial file is ignored. */
  function ThreadFiles(files: map<Path, Bytes>, th: Thread, input: Input): map<Path, Bytes> {
    if input.fault.LostCall? then files
    else match th
      case UpOpen(_, job) => files[Path(input.date, input.newId, job.ext) := []]
      case UpCopy(_, job, path, done) =>
        if done >= |job.content| then files
        else
          var written := if path in files then files[path] else [];
          files[path := written + job.content[done..done + Chunk(job, done, input)]]
      case UpRemove(_, path) => files - {path}
      case _ => files
  }

  // ----- The step relation -----

  function NextThread(env: Env, db: Db, th: Thread, input: Input): Thread {
    match th
    case PayRead(user, oid) => NextPayRead(db, user, oid, input)
    case PayDraw(user, oid, gross) => PayInsert(user, oid, gross, Reference(input.number))
    case PayInsert(user, oid, gross, reference) => NextPayInsert(db, user, oid, gross, reference, input)
    case PayMark(user, receipt) => NextPayMark(db, user, receipt, input)
    case CallRead(_, verdict) => NextCallRead(db, verdict, input)
    case CallWrite(receipt, verdict) => NextCallWrite(db, receipt, verdict, input)
    case CallAdvance(receipt, verdict) => NextCallAdvance(db, receipt, verdict, input)
    case GetRead(user, pid) => NextGetRead(db, user, pid, input)
    case GetCheck(user, receipt) => NextGetCheck(db, user, receipt, input)
    case UpRead(user, oid, content, size) => NextUpRead(env, db, user, oid, content, size, input)
    case UpSniff(user, oid, content, size) => NextUpSniff(env, user, oid, content, size, input)
    case UpOpen(user, job) => NextUpOpen(user, job, input)
    case UpCopy(user, job, path, done) => NextUpCopy(user, job, path, done, input)
    case UpRemove(user, path) => Failure(Some(user), Storage)
    case UpInsert(user, job, path) => NextUpInsert(db, user, job, path, input)
    case Done(_, _) => th
  }

  /** Whose request a thread serves; callbacks serve no user. */
  function OwnerOf(th: Thread): Option<Id> {
    match th
    case CallRead(_, _) => None
    case CallWrite(_, _) => None
    case CallAdvance(_, _) => None
    case Done(owner, _) => owner
    case _ => Some(th.user)
  }

  function StepRequest(env: Env, s: Sys, l: Label): Sys
    requires !l.Advance? && !l.Crash?
  {
    s.(db := Effect(s.db, RequestWrite(env, l)), threads := s.threads[l.t := NextRequest(env, s.db, l)])
  }

  function StepThread(env: Env, s: Sys, t: Id, th: Thread, input: Input): Sys {
    s.(db := Effect(s.db, ThreadWrite(th, input)),
       counter := if th.PayDraw? then input.number else s.counter,
       draws := if th.PayDraw? then s.draws + 1 else s.draws,
       threads := s.threads[t := NextThread(env, s.db, th, input)],
       files := ThreadFiles(s.files, th, input))
  }

  function Apply(env: Env, s: Sys, l: Label): Sys {
    if !Enabled(s, l) then s
    else match l
      case Advance(t, input) => StepThread(env, s, t, s.threads[t], input)
      case Crash(t) => s.(threads := s.threads[t := Done(OwnerOf(s.threads[t]), Halted)])
      case _ => StepRequest(env, s, l)
  }

  /** Every label sequence is a run; labels apply from left to right. */
  function Exec(env: Env, s: Sys, ls: seq<Label>): Sys {
    if ls == [] then s else Apply(env, Exec(env, s, ls[..|ls| - 1]), ls[|ls| - 1])
  }

  lemma {:induction false} ExecAppend(env: Env, s: Sys, a: seq<Label>, b: seq<Label>)
    ensures Exec(env, s, a + b) == Exec(env, Exec(env, s, a), b)
  {
    if b == [] {
      assert a + b == a;
    } else {
      ExecAppend(env, s, a, b[..|b| - 1]);
      assert (a + b)[..|a + b| - 1] == a + b[..|b| - 1];
    }
  }
}
