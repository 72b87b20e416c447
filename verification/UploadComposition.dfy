/** The serial upload is exactly what an upload thread does when nothing interleaves, however it cuts its copy. */
module UploadComposition {
  import opened Domain
  import opened Database
  import opened Protocol
  import opened Serial
  import opened Composition

  /** What one upload needs from its environment. */
  datatype Upcoming = Upcoming(t: Id, name: Id, uid: Id, day: Date)

  predicate Arriving(s: Sys, up: Upcoming) {
    up.t !in s.threads && up.name !in s.db.used && up.uid !in s.db.used && up.name != up.uid
  }

  function Step(up: Upcoming, fault: Fault, newId: Id, chunk: nat): Label {
    Advance(up.t, Input(fault, newId, 0, None, chunk, up.day))
  }

  function CopiedBy(chunks: seq<nat>): nat {
    if chunks == [] then 0 else chunks[0] + CopiedBy(chunks[1..])
  }

  predicate Positive(chunks: seq<nat>) {
    forall i :: 0 <= i < |chunks| ==> chunks[i] > 0
  }

  /** The chunks that reach the file before it is complete or breaks off. */
  predicate Cuts(chunks: seq<nat>, content: Bytes, tr: Transfer) {
    Positive(chunks) &&
    match tr
    case Unopened(_) => chunks == []
    case Complete => CopiedBy(chunks) == |content|
    case Broken(copied, _) => CopiedBy(chunks) == copied <= |content|
  }

  function OpenFault(tr: Transfer): Fault {
    match tr
    case Unopened(created) => if created then LostReply else LostCall
    case _ => NoFault
  }

  function OpenLabels(up: Upcoming, user: Id, oid: Id, content: Bytes, size: int, sc: UploadScript): seq<Label> {
    [StartUpload(up.t, user, oid, content, size),
     Step(up, sc.read, up.name, 0),
     Step(up, if sc.sniffed then NoFault else LostCall, up.name, 0),
     Step(up, OpenFault(sc.transfer), up.name, 0)]
  }

  function CopyLabels(up: Upcoming, chunks: seq<nat>): seq<Label> {
    if chunks == [] then []
    else [Step(up, NoFault, up.name, chunks[0])] + CopyLabels(up, chunks[1..])
  }

  /** Closing and inserting, or failing and cleaning up. */
  function EndLabels(up: Upcoming, sc: UploadScript): seq<Label> {
    match sc.transfer
    case Broken(_, removed) =>
      [Step(up, LostCall, up.name, 0), Step(up, if removed then NoFault else LostCall, up.name, 0)]
    case _ => [Step(up, NoFault, up.name, 0), Step(up, sc.insert, up.uid, 0)]
  }

  function UploadLabels(up: Upcoming, user: Id, oid: Id, content: Bytes, size: int, chunks: seq<nat>,
                        sc: UploadScript): seq<Label> {
    OpenLabels(up, user, oid, content, size, sc) + CopyLabels(up, chunks) + EndLabels(up, sc)
  }

  function ReplyOf(user: Id, uid: Id, r: Result<Upload>): Thread {
    match r
    case Err(e) => Failure(Some(user), e)
    case Ok(u) => Done(Some(user), UploadCreated(uid, u))
  }

  /** In the protocol a generated file name counts as used. */
  function Named(db: Db, name: Id): Db {
    db.(used := db.used + {name})
  }

  function Self(p: Path): Path {
    p
  }

  // ----- Up to the open file -----

  function Screened(env: Env, s: Sys, user: Id, oid: Id, content: Bytes, size: int, sc: UploadScript)
    : Result<(string, string)>
  {
    Screen(env, s.db, user, oid, Head(content), size, sc.read, sc.sniffed)
  }

  function JobOf(oid: Id, content: Bytes, size: int, typed: (string, string)): Job {
    Job(oid, content, size, typed.0, typed.1)
  }

  /** The first three labels do what Screen says. */
  lemma ScreenStage(env: Env, s: Sys, up: Upcoming, user: Id, oid: Id, content: Bytes, size: int, sc: UploadScript)
    requires Arriving(s, up)
    ensures var ls := OpenLabels(up, user, oid, content, size, sc);
      Apply(env, Apply(env, Apply(env, s, ls[0]), ls[1]), ls[2]) ==
        s.(threads := s.threads[up.t := match Screened(env, s, user, oid, content, size, sc)
                                        case Err(e) => Failure(Some(user), e)
                                        case Ok(typed) => UpOpen(user, JobOf(oid, content, size, typed))])
  {
    var ls := OpenLabels(up, user, oid, content, size, sc);
    var s2 := Apply(env, Apply(env, s, ls[0]), ls[1]);
    ReadStage(env, s, up, user, oid, content, size, ls[1].input);
    if s2.threads[up.t].Done? { FinishedStays(env, s2, up.t, ls[2].input); }
  }

  lemma ReadStage(env: Env, s: Sys, up: Upcoming, user: Id, oid: Id, content: Bytes, size: int, input: Input)
    requires up.t !in s.threads
    ensures Apply(env, Apply(env, s, StartUpload(up.t, user, oid, content, size)), Advance(up.t, input)) ==
      s.(threads := s.threads[up.t := NextUpRead(env, s.db, user, oid, content, size, input)])
  {
    var s1 := Apply(env, s, StartUpload(up.t, user, oid, content, size));
    assert s1 == s.(threads := s.threads[up.t := UpRead(user, oid, content, size)]);
    assert Apply(env, s1, Advance(up.t, input)).threads ==
      s.threads[up.t := NextUpRead(env, s.db, user, oid, content, size, input)];
  }

  function AfterOpen(up: Upcoming, user: Id, job: Job, tr: Transfer): Thread {
    if tr.Unopened? then Failure(Some(user), Storage) else UpCopy(user, job, Path(up.day, up.name, job.ext), 0)
  }

  lemma OpenStep(env: Env, s: Sys, up: Upcoming, user: Id, job: Job, tr: Transfer)
    requires up.t in s.threads && s.threads[up.t] == UpOpen(user, job)
    requires up.name !in s.db.used
    ensures var path := Path(up.day, up.name, job.ext);
      Apply(env, s, Step(up, OpenFault(tr), up.name, 0)) ==
        s.(db := Named(s.db, up.name),
           files := if tr == Unopened(false) then s.files else s.files[path := []],
           threads := s.threads[up.t := AfterOpen(up, user, job, tr)])
  {
  }

  /** The state with the upload's thread elsewhere. */
  function At(s: Sys, up: Upcoming, th: Thread): Sys {
    s.(threads := s.threads[up.t := th])
  }

  lemma AtTwice(s: Sys, up: Upcoming, th: Thread, th': Thread)
    ensures At(At(s, up, th), up, th') == At(s, up, th')
  {
    assert s.threads[up.t := th][up.t := th'] == s.threads[up.t := th'];
  }

  /** Screening fails: nothing but the answer. */
  lemma RefusedStage(env: Env, s: Sys, up: Upcoming, user: Id, oid: Id, content: Bytes, size: int, sc: UploadScript)
    requires Arriving(s, up) && Screened(env, s, user, oid, content, size, sc).Err?
    ensures Exec(env, s, OpenLabels(up, user, oid, content, size, sc)) ==
      At(s, up, Failure(Some(user), Screened(env, s, user, oid, content, size, sc).error))
  {
    var ls := OpenLabels(up, user, oid, content, size, sc);
    ExecFour(env, s, ls);
    ScreenStage(env, s, up, user, oid, content, size, sc);
    FinishedStays(env, Apply(env, Apply(env, Apply(env, s, ls[0]), ls[1]), ls[2]), up.t, ls[3].input);
  }

  /** Screening passes: the fourth label opens the file, or does not. */
  lemma OpenStage(env: Env, s: Sys, up: Upcoming, user: Id, oid: Id, content: Bytes, size: int, sc: UploadScript)
    requires Arriving(s, up) && Screened(env, s, user, oid, content, size, sc).Ok?
    ensures var job := JobOf(oid, content, size, Screened(env, s, user, oid, content, size, sc).value);
      var path := Path(up.day, up.name, job.ext);
      Exec(env, s, OpenLabels(up, user, oid, content, size, sc)) ==
        At(s.(db := Named(s.db, up.name),
              files := if sc.transfer == Unopened(false) then s.files else s.files[path := []]),
           up, AfterOpen(up, user, job, sc.transfer))
  {
    var ls := OpenLabels(up, user, oid, content, size, sc);
    var job := JobOf(oid, content, size, Screened(env, s, user, oid, content, size, sc).value);
    ExecFour(env, s, ls);
    ScreenStage(env, s, up, user, oid, content, size, sc);
    OpenOn(env, s, up, user, job, sc.transfer);
  }

  lemma OpenOn(env: Env, s: Sys, up: Upcoming, user: Id, job: Job, tr: Transfer)
    requires up.name !in s.db.used
    ensures var path := Path(up.day, up.name, job.ext);
      Apply(env, At(s, up, UpOpen(user, job)), Step(up, OpenFault(tr), up.name, 0)) ==
        At(s.(db := Named(s.db, up.name), files := if tr == Unopened(false) then s.files else s.files[path := []]),
           up, AfterOpen(up, user, job, tr))
  {
    OpenStep(env, At(s, up, UpOpen(user, job)), up, user, job, tr);
    AtTwice(s, up, UpOpen(user, job), AfterOpen(up, user, job, tr));
  }

  // ----- The copy, in any chunks -----

  /** The state with these bytes in the file and the thread elsewhere. */
  function Copied(s: Sys, up: Upcoming, th: Thread, path: Path, bytes: Bytes): Sys {
    s.(files := s.files[path := bytes], threads := s.threads[up.t := th])
  }

  lemma CopiedTwice(s: Sys, up: Upcoming, th: Thread, path: Path, bytes: Bytes, th': Thread, bytes': Bytes)
    ensures Copied(Copied(s, up, th, path, bytes), up, th', path, bytes') == Copied(s, up, th', path, bytes')
  {
    assert s.files[path := bytes][path := bytes'] == s.files[path := bytes'];
    assert s.threads[up.t := th][up.t := th'] == s.threads[up.t := th'];
  }

  lemma CopyStep(env: Env, s: Sys, up: Upcoming, user: Id, job: Job, path: Path, done: nat, chunk: nat)
    requires up.t in s.threads && s.threads[up.t] == UpCopy(user, job, path, done)
    requires done <= |job.content| && path in s.files && s.files[path] == job.content[..done]
    requires 0 < chunk && done + chunk <= |job.content|
    ensures Apply(env, s, Step(up, NoFault, up.name, chunk)) ==
      Copied(s, up, UpCopy(user, job, path, done + chunk), path, job.content[..done + chunk])
  {
    assert job.content[..done] + job.content[done..done + chunk] == job.content[..done + chunk];
  }

  lemma {:induction false} CopyStage(env: Env, s: Sys, up: Upcoming, user: Id, job: Job, path: Path, done: nat,
                                     chunks: seq<nat>)
    requires up.t in s.threads && s.threads[up.t] == UpCopy(user, job, path, done)
    requires path in s.files && done + CopiedBy(chunks) <= |job.content| && s.files[path] == job.content[..done]
    requires Positive(chunks)
    ensures var n := done + CopiedBy(chunks);
      Exec(env, s, CopyLabels(up, chunks)) == Copied(s, up, UpCopy(user, job, path, n), path, job.content[..n])
    decreases |chunks|
  {
    if |chunks| == 0 {
      NothingCopied(s, up, s.threads[up.t], path);
    } else {
      var n := done + chunks[0];
      CopyStep(env, s, up, user, job, path, done, chunks[0]);
      var s1 := Copied(s, up, UpCopy(user, job, path, n), path, job.content[..n]);
      CopyStage(env, s1, up, user, job, path, n, chunks[1..]);
      ExecTail(env, s, Step(up, NoFault, up.name, chunks[0]), CopyLabels(up, chunks[1..]));
      var m := n + CopiedBy(chunks[1..]);
      CopiedTwice(s, up, UpCopy(user, job, path, n), path, job.content[..n],
                  UpCopy(user, job, path, m), job.content[..m]);
    }
  }

  lemma NothingCopied(s: Sys, up: Upcoming, th: Thread, path: Path)
    requires up.t in s.threads && s.threads[up.t] == th && path in s.files
    ensures Copied(s, up, th, path, s.files[path]) == s
  {
    assert s.files[path := s.files[path]] == s.files && s.threads[up.t := th] == s.threads;
  }

  /** Once the request is over its further labels do nothing. */
  lemma {:induction false} OverStays(env: Env, s: Sys, up: Upcoming, ls: seq<Label>)
    requires up.t in s.threads && s.threads[up.t].Done? && forall l :: l in ls ==> l.Advance? && l.t == up.t
    ensures Exec(env, s, ls) == s
  {
    if ls != [] {
      OverStays(env, s, up, ls[..|ls| - 1]);
      FinishedStays(env, s, up.t, ls[|ls| - 1].input);
    }
  }

  lemma {:induction false} CopyLabelsAdvance(up: Upcoming, chunks: seq<nat>)
    ensures forall l :: l in CopyLabels(up, chunks) ==> l.Advance? && l.t == up.t
  {
    if chunks != [] { CopyLabelsAdvance(up, chunks[1..]); }
  }

  // ----- The end -----

  lemma RowStage(env: Env, s: Sys, up: Upcoming, user: Id, job: Job, path: Path, sc: UploadScript)
    requires up.t in s.threads && s.threads[up.t] == UpCopy(user, job, path, |job.content|) && sc.transfer.Complete?
    requires up.uid !in s.db.used
    ensures var u := Upload(job.oid, job.contentType, job.size, path);
      var r := Told(sc.insert, Attempt(s.db, NewUpload(up.uid, u)));
      Exec(env, s, EndLabels(up, sc)) ==
        At(s.(db := Under(sc.insert, s.db, NewUpload(up.uid, u))), up,
           ReplyOf(user, up.uid, if r.Ok? then Ok(u) else Err(r.error)))
  {
    var ls := EndLabels(up, sc);
    var s1 := Apply(env, s, ls[0]);
    ExecTwo(env, s, ls[0], ls[1]);
    assert s1 == At(s, up, UpInsert(user, job, path));
  }

  lemma BreakStage(env: Env, s: Sys, up: Upcoming, user: Id, job: Job, path: Path, done: nat, sc: UploadScript)
    requires up.t in s.threads && s.threads[up.t] == UpCopy(user, job, path, done) && sc.transfer.Broken?
    ensures Exec(env, s, EndLabels(up, sc)) ==
      At(s.(files := if sc.transfer.removed then s.files - {path} else s.files), up, Failure(Some(user), Storage))
  {
    var ls := EndLabels(up, sc);
    var s1 := Apply(env, s, ls[0]);
    ExecTwo(env, s, ls[0], ls[1]);
    assert s1 == At(s, up, UpRemove(user, path));
  }

  /** From the open file on, the thread does what Keep says. */
  lemma KeepStage(env: Env, s: Sys, up: Upcoming, user: Id, job: Job, path: Path, chunks: seq<nat>, sc: UploadScript)
    requires up.t in s.threads && s.threads[up.t] == UpCopy(user, job, path, 0) && path in s.files
    requires s.files[path] == []
    requires up.uid !in s.db.used
    requires Cuts(chunks, job.content, sc.transfer) && !sc.transfer.Unopened?
    ensures var u := Upload(job.oid, job.contentType, job.size, path);
      var (db', files', r) := Keep(s.db, s.files, Self, job.content, u, up.uid, sc);
      Exec(env, s, CopyLabels(up, chunks) + EndLabels(up, sc)) ==
        s.(db := db', files := files', threads := s.threads[up.t := ReplyOf(user, up.uid, r)])
  {
    var th := UpCopy(user, job, path, CopiedBy(chunks));
    var mid := Copied(s, up, th, path, job.content[..CopiedBy(chunks)]);
    ExecAppend(env, s, CopyLabels(up, chunks), EndLabels(up, sc));
    CopyStage(env, s, up, user, job, path, 0, chunks);
    if sc.transfer.Complete? {
      assert job.content[..|job.content|] == job.content;
      RowStage(env, mid, up, user, job, path, sc);
      CompleteKeeps(s, up, user, job, path, sc);
    } else {
      BreakStage(env, mid, up, user, job, path, CopiedBy(chunks), sc);
      BrokenKeeps(s, up, user, job, path, sc);
    }
  }

  lemma CompleteKeeps(s: Sys, up: Upcoming, user: Id, job: Job, path: Path, sc: UploadScript)
    requires sc.transfer.Complete?
    ensures var u := Upload(job.oid, job.contentType, job.size, path);
      var (db', files', r) := Keep(s.db, s.files, Self, job.content, u, up.uid, sc);
      var told := Told(sc.insert, Attempt(s.db, NewUpload(up.uid, u)));
      var mid := Copied(s, up, UpCopy(user, job, path, |job.content|), path, job.content);
      At(mid.(db := Under(sc.insert, s.db, NewUpload(up.uid, u))), up,
         ReplyOf(user, up.uid, if told.Ok? then Ok(u) else Err(told.error))) ==
        s.(db := db', files := files', threads := s.threads[up.t := ReplyOf(user, up.uid, r)])
  {
    var u := Upload(job.oid, job.contentType, job.size, path);
    var (db', files', r) := Keep(s.db, s.files, Self, job.content, u, up.uid, sc);
    AtTwice(s.(db := db', files := files'), up, UpCopy(user, job, path, |job.content|), ReplyOf(user, up.uid, r));
  }

  lemma BrokenKeeps(s: Sys, up: Upcoming, user: Id, job: Job, path: Path, sc: UploadScript)
    requires sc.transfer.Broken? && sc.transfer.copied <= |job.content|
    ensures var u := Upload(job.oid, job.contentType, job.size, path);
      var (db', files', r) := Keep(s.db, s.files, Self, job.content, u, up.uid, sc);
      var n := sc.transfer.copied;
      var mid := Copied(s, up, UpCopy(user, job, path, n), path, job.content[..n]);
      At(mid.(files := if sc.transfer.removed then mid.files - {path} else mid.files),
         up, Failure(Some(user), Storage)) ==
        s.(db := db', files := files', threads := s.threads[up.t := ReplyOf(user, up.uid, r)])
  {
    var n := sc.transfer.copied;
    assert s.files[path := job.content[..n]] - {path} == s.files - {path};
    var files' := FilesAfter(s.files, path, job.content, sc.transfer);
    AtTwice(s.(files := files'), up, UpCopy(user, job, path, n), Failure(Some(user), Storage));
  }

  /** Overwriting a file just created is the same as writing it. */
  lemma KeepOverEmpty(db: Db, files: map<Path, Bytes>, content: Bytes, u: Upload, uid: Id, sc: UploadScript)
    requires Possible(content, sc.transfer) && !sc.transfer.Unopened?
    ensures Keep(db, files[u.path := []], Self, content, u, uid, sc) == Keep(db, files, Self, content, u, uid, sc)
  {
    var bytes := if sc.transfer.Broken? then content[..sc.transfer.copied] else content;
    assert files[u.path := []][u.path := bytes] == files[u.path := bytes];
    assert files[u.path := []] - {u.path} == files - {u.path};
  }

  /** A generated name does not matter to the row insert. */
  lemma KeepNamed(db: Db, name: Id, files: map<Path, Bytes>, content: Bytes, u: Upload, uid: Id, sc: UploadScript)
    requires Possible(content, sc.transfer)
    ensures var (db', files', r) := Keep(db, files, Self, content, u, uid, sc);
      Keep(Named(db, name), files, Self, content, u, uid, sc) == (Named(db', name), files', r)
  {
    assert db.used + {name} + {uid} == db.used + {uid} + {name};
  }

  /** The run of an upload that passes screening and opens its file. */
  lemma OpenedComposes(env: Env, s: Sys, up: Upcoming, user: Id, oid: Id, content: Bytes, size: int, chunks: seq<nat>,
                       sc: UploadScript)
    requires Arriving(s, up) && Cuts(chunks, content, sc.transfer) && !sc.transfer.Unopened?
    requires Screened(env, s, user, oid, content, size, sc).Ok?
    ensures var s' := Exec(env, s, UploadLabels(up, user, oid, content, size, chunks, sc));
      var typed := Screened(env, s, user, oid, content, size, sc).value;
      var u := Upload(oid, typed.0, size, Path(up.day, up.name, typed.1));
      var (db', files', r) := Keep(s.db, s.files, Self, content, u, up.uid, sc);
      s' == s.(db := Named(db', up.name), files := files', threads := s.threads[up.t := ReplyOf(user, up.uid, r)])
  {
    var rest := CopyLabels(up, chunks) + EndLabels(up, sc);
    var typed := Screened(env, s, user, oid, content, size, sc).value;
    var job := JobOf(oid, content, size, typed);
    var path := Path(up.day, up.name, typed.1);
    var u := Upload(oid, typed.0, size, path);
    var base := s.(db := Named(s.db, up.name), files := s.files[path := []]);
    assert UploadLabels(up, user, oid, content, size, chunks, sc) ==
        OpenLabels(up, user, oid, content, size, sc) + rest;
    ExecAppend(env, s, OpenLabels(up, user, oid, content, size, sc), rest);
    OpenStage(env, s, up, user, oid, content, size, sc);
    KeepStage(env, At(base, up, UpCopy(user, job, path, 0)), up, user, job, path, chunks, sc);
    KeepOverEmpty(base.db, s.files, content, u, up.uid, sc);
    KeepNamed(s.db, up.name, s.files, content, u, up.uid, sc);
    AtTwice(s, up, UpCopy(user, job, path, 0),
            ReplyOf(user, up.uid, Keep(s.db, s.files, Self, content, u, up.uid, sc).2));
  }

  /** The run of an upload that fails screening, or whose file cannot be opened. */
  lemma UnopenedComposes(env: Env, s: Sys, up: Upcoming, user: Id, oid: Id, content: Bytes, size: int, chunks: seq<nat>,
                         sc: UploadScript)
    requires Arriving(s, up)
    requires Screened(env, s, user, oid, content, size, sc).Err? || sc.transfer.Unopened?
    ensures Exec(env, s, UploadLabels(up, user, oid, content, size, chunks, sc)) ==
      Exec(env, s, OpenLabels(up, user, oid, content, size, sc))
  {
    var rest := CopyLabels(up, chunks) + EndLabels(up, sc);
    assert UploadLabels(up, user, oid, content, size, chunks, sc) ==
        OpenLabels(up, user, oid, content, size, sc) + rest;
    ExecAppend(env, s, OpenLabels(up, user, oid, content, size, sc), rest);
    if Screened(env, s, user, oid, content, size, sc).Err? {
      RefusedStage(env, s, up, user, oid, content, size, sc);
    } else {
      OpenStage(env, s, up, user, oid, content, size, sc);
    }
    CopyLabelsAdvance(up, chunks);
    OverStays(env, Exec(env, s, OpenLabels(up, user, oid, content, size, sc)), up, rest);
  }

  /**
   An upload run alone, cutting its copy in any way and failing anywhere, leaves the rows, the files and the
   answer of Receive; in the protocol its file name also counts as used from the moment storage is reached.
   */
  lemma UploadComposes(env: Env, s: Sys, up: Upcoming, user: Id, oid: Id, content: Bytes, size: int, chunks: seq<nat>,
                       sc: UploadScript)
    requires Arriving(s, up) && Cuts(chunks, content, sc.transfer)
    ensures var s' := Exec(env, s, UploadLabels(up, user, oid, content, size, chunks, sc));
      var (db', files', r) := Receive(env, s.db, s.files, Self, user, oid, content, Head(content), size,
                                      up.name, up.uid, up.day, sc);
      var named := if Screened(env, s, user, oid, content, size, sc).Ok? then Named(db', up.name) else db';
      s' == s.(db := named, files := files', threads := s.threads[up.t := ReplyOf(user, up.uid, r)])
  {
    if Screened(env, s, user, oid, content, size, sc).Err? {
      UnopenedComposes(env, s, up, user, oid, content, size, chunks, sc);
      RefusedStage(env, s, up, user, oid, content, size, sc);
    } else if sc.transfer.Unopened? {
      UnopenedComposes(env, s, up, user, oid, content, size, chunks, sc);
      OpenStage(env, s, up, user, oid, content, size, sc);
    } else {
      OpenedComposes(env, s, up, user, oid, content, size, chunks, sc);
    }
  }

  // ----- Real files -----

  /** Every file of the protocol is on the disk, where `locate` says. */
  ghost predicate Mirrors(disk: map<string, Bytes>, files: map<Path, Bytes>, locate: Path -> string) {
    forall p :: p in files ==> locate(p) in disk && disk[locate(p)] == files[p]
  }

  /**
   The upload on the disk and the upload in the protocol are the same: same rows, same answer, and the disk
   goes on holding the protocol's files, if the new file's place is nobody else's.
   */
  lemma ReceiveMirrors(env: Env, db: Db, disk: map<string, Bytes>, files: map<Path, Bytes>, locate: Path -> string,
                       user: Id, oid: Id, content: Bytes, head: Bytes, size: int, name: Id, uid: Id, day: Date,
                       sc: UploadScript)
    requires Possible(content, sc.transfer) && Mirrors(disk, files, locate)
    requires TypeOf(env, head).Ok? ==>
      forall p :: p in files && locate(p) == locate(Path(day, name, TypeOf(env, head).value.1)) ==>
        p == Path(day, name, TypeOf(env, head).value.1)
    ensures var (dbx, diskx, rx) := Receive(env, db, disk, locate, user, oid, content, head, size, name, uid, day, sc);
      var (dby, filesy, ry) := Receive(env, db, files, Self, user, oid, content, head, size, name, uid, day, sc);
      dbx == dby && rx == ry && Mirrors(diskx, filesy, locate)
  {
  }
}
