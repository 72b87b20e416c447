/**
 The payment operations run one at a time, each call with its own fault: the specification the service
 methods are proved against, and the big steps the protocol's threads compose to.
 */
module Serial {
  import opened Domain
  import opened Database
  import opened Numbering
  import opened Protocol

  /** The rows and the gateway counter. */
  datatype World = World(db: Db, counter: nat)

  datatype PayScript = PayScript(read: Fault, insert: Fault, mark: Fault)
  datatype CallScript = CallScript(read: Fault, write: Fault, advance: Fault)

  const PAY_CLEAN: PayScript := PayScript(NoFault, NoFault, NoFault)
  const CALL_CLEAN: CallScript := CallScript(NoFault, NoFault, NoFault)

  /** The rows after a call with a fault. */
  function Under(fault: Fault, db: Db, w: Write): Db {
    if fault.LostCall? then db else Effect(db, w)
  }

  /** payment.Service.Create from the gateway call on. */
  function Charge(w: World, user: Id, oid: Id, gross: int, pid: Id, sc: PayScript): (World, Result<Receipt>) {
    var n := NextNumber(w.counter);
    var insert := NewPayment(pid, oid, Reference(n), gross);
    var db1 := Under(sc.insert, w.db, insert);
    match Told(sc.insert, Attempt(w.db, insert))
    case Err(e) => (World(db1, n), Err(e))
    case Ok(_) =>
      var mark := Mark(user, oid);
      var db2 := Under(sc.mark, db1, mark);
      match Told(sc.mark, Attempt(db1, mark))
      case Err(e) => (World(db2, n), Err(e))
      case Ok(_) => (World(db2, n), Ok(Receipt(pid, oid, Reference(n), gross, Unsettled)))
  }

  /** payment.Service.Create. */
  function Pay(w: World, user: Id, oid: Id, pid: Id, sc: PayScript): (World, Result<Receipt>) {
    match Told(sc.read, SelectOrder(w.db, user, oid))
    case Err(e) => (w, Err(if e == OrderNotFound then PaymentOrderNotFound else e))
    case Ok(o) =>
      if o.status != Pending then (w, Err(OrderNotPayable))
      else if Gross(o) <= 0 then (w, Err(InvalidAmount))
      else Charge(w, user, oid, Gross(o), pid, sc)
  }

  /** payment.Service.ApplyProviderCallback once its row is found pending. */
  function SettleBoth(db: Db, p: Receipt, v: Verdict, sc: CallScript): (Db, Result<Receipt>) {
    var decide := Decide(p.pid, v);
    var db1 := Under(sc.write, db, decide);
    match Told(sc.write, Attempt(db, decide))
    case Err(e) => (db1, Err(e))
    case Ok(_) =>
      var close := Close(p.oid, v);
      var db2 := Under(sc.advance, db1, close);
      match Told(sc.advance, Attempt(db1, close))
      case Err(e) => (db2, Err(e))
      case Ok(_) => (db2, Ok(p.(status := Settled(v))))
  }

  /** payment.Service.ApplyProviderCallback; `pick` is the row the lookup returned. */
  function Callback(db: Db, pick: Option<Id>, status: string, sc: CallScript): (Db, Result<Receipt>) {
    match ParseVerdict(status)
    case None => (db, Err(InvalidStatusTransition))
    case Some(v) =>
      match Told(sc.read, PickedRow(db, pick))
      case Err(e) => (db, Err(e))
      case Ok(p) =>
        if p.status == Settled(v) then (db, Ok(p))
        else if p.status != Unsettled then (db, Err(InvalidStatusTransition))
        else SettleBoth(db, p, v, sc)
  }

  /** payment.Service.Get. */
  function GetPayment(db: Db, user: Id, pid: Id, read: Fault, check: Fault): Result<Receipt> {
    match Told(read, SelectPayment(db, pid))
    case Err(e) => Err(e)
    case Ok(p) =>
      match Told(check, SelectOrder(db, user, p.oid))
      case Err(e) => Err(if e == OrderNotFound then PaymentNotFound else e)
      case Ok(_) => Ok(p)
  }

  // ----- Uploads -----

  /**
   What became of a file: not opened, perhaps created empty; written in full; or broken off after some
   bytes and perhaps removed.
   */
  datatype Transfer = Unopened(created: bool) | Complete | Broken(copied: nat, removed: bool)

  datatype UploadScript = UploadScript(read: Fault, sniffed: bool, transfer: Transfer, insert: Fault)

  predicate Possible(content: Bytes, tr: Transfer) {
    tr.Broken? ==> tr.copied <= |content|
  }

  function FilesAfter<K>(files: map<K, Bytes>, key: K, content: Bytes, tr: Transfer): map<K, Bytes>
    requires Possible(content, tr)
  {
    match tr
    case Unopened(created) => if created then files[key := []] else files
    case Complete => files[key := content]
    case Broken(copied, removed) => if removed then files - {key} else files[key := content[..copied]]
  }

  /** The content type and extension for a sniffed head. */
  function TypeOf(env: Env, head: Bytes): Result<(string, string)> {
    match Extension(env.sniff(head))
    case None => Err(UnsupportedContentType)
    case Some(ext) => Ok((env.sniff(head), ext))
  }

  /** upload.Service.Create up to storage: ownership, size, type. */
  function Screen(env: Env, db: Db, user: Id, oid: Id, head: Bytes, size: int, read: Fault, sniffed: bool)
    : Result<(string, string)>
  {
    match Told(read, SelectOrder(db, user, oid))
    case Err(e) => Err(if e == OrderNotFound then UploadOrderNotFound else e)
    case Ok(_) =>
      if size <= 0 then Err(EmptyFile)
      else if size > env.maxSize then Err(FileTooLarge)
      else if !sniffed then Err(Storage)
      else TypeOf(env, head)
  }

  /** The file, then its row. `locate` says where a path's file is kept. */
  function Keep<K>(db: Db, files: map<K, Bytes>, locate: Path -> K, content: Bytes, u: Upload, uid: Id,
                   sc: UploadScript)
    : (Db, map<K, Bytes>, Result<Upload>)
    requires Possible(content, sc.transfer)
  {
    var files' := FilesAfter(files, locate(u.path), content, sc.transfer);
    if !sc.transfer.Complete? then (db, files', Err(Storage))
    else
      var db' := Under(sc.insert, db, NewUpload(uid, u));
      match Told(sc.insert, Attempt(db, NewUpload(uid, u)))
      case Err(e) => (db', files', Err(e))
      case Ok(_) => (db', files', Ok(u))
  }

  /** upload.Service.Create, for a file whose head is sniffed from where its cursor stands. */
  function Receive<K>(env: Env, db: Db, files: map<K, Bytes>, locate: Path -> K, user: Id, oid: Id, content: Bytes,
                      head: Bytes, size: int, name: Id, uid: Id, day: Date, sc: UploadScript)
    : (Db, map<K, Bytes>, Result<Upload>)
    requires Possible(content, sc.transfer)
  {
    match Screen(env, db, user, oid, head, size, sc.read, sc.sniffed)
    case Err(e) => (db, files, Err(e))
    case Ok((contentType, ext)) =>
      Keep(db, files, locate, content, Upload(oid, contentType, size, Path(day, name, ext)), uid, sc)
  }

  // ----- Looking rows up -----

  /** The row a reference lookup returns; unique when references are. */
  ghost function Lookup(db: Db, reference: string): (pick: Option<Id>)
    ensures Picks(db, reference, pick)
  {
    if pid :| pid in db.payments && db.payments[pid].reference == reference then Some(pid) else None
  }

  /** The payment of an order; unique by the unique index. */
  ghost function PaymentOf(db: Db, oid: Id): (pick: Option<Id>)
    ensures pick.Some? ==> pick.value in db.payments && db.payments[pick.value].oid == oid
    ensures pick.None? <==> !HasPayment(db, oid)
  {
    if pid :| pid in db.payments && db.payments[pid].oid == oid then Some(pid) else None
  }
}
