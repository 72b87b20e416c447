/**
 Uploads under interleaving, faults and crashes: every upload row points at a complete copy of the bytes
 the user sent, typed by their head, in a file no later step touches.
 */
module Fidelity {
  import opened Domain
  import opened Database
  import opened Protocol
  import opened History
  import opened Steps
  import opened Safety
  import opened Promises

  type Files = map<Path, Bytes>

  predicate Typed(env: Env, content: Bytes, contentType: string, ext: string, size: int) {
    && contentType == env.sniff(Head(content)) && Extension(contentType) == Some(ext)
    && 0 < size <= env.maxSize
  }

  predicate JobTyped(env: Env, job: Job) {
    Typed(env, job.content, job.contentType, job.ext, job.size)
  }

  /** A file whose name was generated by a request that is over. */
  ghost predicate Sealed(s: Sys, namer: map<Id, Id>, p: Path) {
    && p in s.files
    && p.name in namer && namer[p.name] in s.threads && s.threads[namer[p.name]].Done?
  }

  ghost predicate ThreadCopies(env: Env, files: Files, namer: map<Id, Id>, t: Id, th: Thread) {
    match th
    case UpSniff(_, _, _, size) => 0 < size <= env.maxSize
    case UpOpen(_, job) => JobTyped(env, job)
    case UpCopy(_, job, path, done) =>
      && JobTyped(env, job) && path.ext == job.ext && path.name in namer && namer[path.name] == t
      && done <= |job.content| && path in files && files[path] == job.content[..done]
    case UpRemove(_, path) => path.name in namer && namer[path.name] == t
    case UpInsert(_, job, path) =>
      && JobTyped(env, job) && path.ext == job.ext && path.name in namer && namer[path.name] == t
      && path in files && files[path] == job.content
    case _ => true
  }

  ghost predicate RowFaithful(env: Env, s: Sys, h: Hist, uid: Id) {
    uid in s.db.uploads ==>
      var u := s.db.uploads[uid];
      && uid in h.source && Sealed(s, h.namer, u.path) && s.files[u.path] == h.source[uid]
      && Typed(env, h.source[uid], u.contentType, u.path.ext, u.size)
  }

  ghost predicate Faithful(env: Env, s: Sys, h: Hist) {
    && h.namer.Keys <= s.db.used
    && h.source.Keys <= s.db.used
    && (forall t :: t in s.threads ==> ThreadCopies(env, s.files, h.namer, t, s.threads[t]))
    && (forall uid :: RowFaithful(env, s, h, uid))
  }

  lemma TrackNames(h: Hist, s: Sys, l: Label, w: Write)
    ensures TrackBy(h, s, l, w).namer == if w.Reserve? then h.namer[w.name := l.t] else h.namer
    ensures TrackBy(h, s, l, w).source ==
      if w.NewUpload? && Attempt(s.db, w).Ok? && Enabled(s, l) && l.Advance? && s.threads[l.t].UpInsert?
      then h.source[w.uid := s.threads[l.t].job.content] else h.source
  {
  }

  /** A storage step touches only files of names its own thread generated, or is generating. */
  lemma OtherFiles(env: Env, s: Sys, h: Hist, t: Id, input: Input, p: Path)
    requires Faithful(env, s, h) && Enabled(s, Advance(t, input))
    requires p.name in h.namer && h.namer[p.name] != t
    ensures p in ThreadFiles(s.files, s.threads[t], input) <==> p in s.files
    ensures p in s.files ==> ThreadFiles(s.files, s.threads[t], input)[p] == s.files[p]
  {
    assert ThreadCopies(env, s.files, h.namer, t, s.threads[t]);
  }

  lemma StepSealed(env: Env, s: Sys, h: Hist, l: Label, p: Path)
    requires Faithful(env, s, h) && Sealed(s, h.namer, p)
    ensures Sealed(Apply(env, s, l), Track(env, h, s, l).namer, p) && Apply(env, s, l).files[p] == s.files[p]
  {
    StepShape(env, s, l);
    TrackNames(h, s, l, WriteOf(env, s, l));
    if Enabled(s, l) && l.Advance? { OtherFiles(env, s, h, l.t, l.input, p); }
  }

  lemma OwnCopies(env: Env, s: Sys, h: Hist, t: Id, input: Input)
    requires Faithful(env, s, h) && Enabled(s, Advance(t, input))
    ensures var th := s.threads[t];
      ThreadCopies(env, ThreadFiles(s.files, th, input),
                   if th.UpOpen? then h.namer[input.newId := t] else h.namer, t, NextThread(env, s.db, th, input))
  {
    var th := s.threads[t];
    assert ThreadCopies(env, s.files, h.namer, t, th);
    ThreadFollows(env, s.db, th, input);
    if th.UpCopy? && th.done < |th.job.content| {
      var k := Chunk(th.job, th.done, input);
      assert th.job.content[..th.done] + th.job.content[th.done..th.done + k] == th.job.content[..th.done + k];
    }
    if th.UpCopy? && th.done >= |th.job.content| { assert th.job.content[..th.done] == th.job.content; }
  }

  lemma FrameCopies(env: Env, s: Sys, h: Hist, l: Label, u: Id)
    requires Faithful(env, s, h) && Enabled(s, l) && u in s.threads && u != l.t
    ensures ThreadCopies(env, Apply(env, s, l).files, Track(env, h, s, l).namer, u, s.threads[u])
  {
    var th := s.threads[u];
    assert ThreadCopies(env, s.files, h.namer, u, th);
    TrackNames(h, s, l, WriteOf(env, s, l));
    if l.Advance? && (th.UpCopy? || th.UpInsert? || th.UpRemove?) { OtherFiles(env, s, h, l.t, l.input, th.path); }
  }

  /** A new row comes from a thread that finished its copy. */
  lemma NewRow(env: Env, s: Sys, h: Hist, l: Label, uid: Id)
    requires RowsKnown(s.db) && uid in Effect(s.db, WriteOf(env, s, l)).uploads && uid !in s.db.uploads
    ensures Enabled(s, l) && l.Advance? && s.threads[l.t].UpInsert? && l.input.newId == uid && !l.input.fault.LostCall?
    ensures Attempt(s.db, WriteOf(env, s, l)).Ok? && Apply(env, s, l).files == s.files
    ensures var th := s.threads[l.t];
      Effect(s.db, WriteOf(env, s, l)).uploads[uid] == Upload(th.job.oid, th.job.contentType, th.job.size, th.path)
  {
  }

  lemma NewRowFaithful(env: Env, s: Sys, h: Hist, l: Label, uid: Id)
    requires RowsKnown(s.db) && Faithful(env, s, h)
    requires uid in Effect(s.db, WriteOf(env, s, l)).uploads && uid !in s.db.uploads
    ensures RowFaithful(env, Apply(env, s, l), Track(env, h, s, l), uid)
  {
    StepShape(env, s, l);
    TrackNames(h, s, l, WriteOf(env, s, l));
    NewRow(env, s, h, l, uid);
    assert ThreadCopies(env, s.files, h.namer, l.t, s.threads[l.t]);
    ThreadFollows(env, s.db, s.threads[l.t], l.input);
  }

  lemma RowStepFaithful(env: Env, s: Sys, h: Hist, l: Label, uid: Id)
    requires RowsKnown(s.db) && Faithful(env, s, h)
    ensures RowFaithful(env, Apply(env, s, l), Track(env, h, s, l), uid)
  {
    var w := WriteOf(env, s, l);
    StepShape(env, s, l);
    TrackNames(h, s, l, w);
    EffectGrows(s.db, w);
    if uid in Effect(s.db, w).uploads {
      if uid in s.db.uploads {
        assert RowFaithful(env, s, h, uid);
        StepSealed(env, s, h, l, s.db.uploads[uid].path);
      } else {
        NewRowFaithful(env, s, h, l, uid);
      }
    }
  }

  lemma NamesUsed(env: Env, s: Sys, h: Hist, l: Label)
    requires RowsKnown(s.db) && h.namer.Keys <= s.db.used && h.source.Keys <= s.db.used
    ensures Track(env, h, s, l).namer.Keys <= Apply(env, s, l).db.used
    ensures Track(env, h, s, l).source.Keys <= Apply(env, s, l).db.used
  {
    var w := WriteOf(env, s, l);
    StepShape(env, s, l);
    TrackNames(h, s, l, w);
    EffectGrows(s.db, w);
  }

  lemma StepFaithful(env: Env, s: Sys, h: Hist, l: Label)
    requires Known(s) && Faithful(env, s, h)
    ensures Faithful(env, Apply(env, s, l), Track(env, h, s, l))
  {
    var s' := Apply(env, s, l);
    NamesUsed(env, s, h, l);
    forall uid ensures RowFaithful(env, s', Track(env, h, s, l), uid) { RowStepFaithful(env, s, h, l, uid); }
    forall u | u in s'.threads ensures ThreadCopies(env, s'.files, Track(env, h, s, l).namer, u, s'.threads[u]) {
      ThreadStepCopies(env, s, h, l, u);
    }
  }

  lemma ThreadStepCopies(env: Env, s: Sys, h: Hist, l: Label, u: Id)
    requires Faithful(env, s, h) && u in Apply(env, s, l).threads
    ensures ThreadCopies(env, Apply(env, s, l).files, Track(env, h, s, l).namer, u, Apply(env, s, l).threads[u])
  {
    var w := WriteOf(env, s, l);
    StepShape(env, s, l);
    TrackNames(h, s, l, w);
    if !Enabled(s, l) {
    } else if u != l.t {
      FrameCopies(env, s, h, l, u);
    } else if l.Advance? {
      OwnCopies(env, s, h, u, l.input);
    } else {
      StepFollows(env, s, l);
    }
  }

  lemma {:induction false} RunFaithful(env: Env, users: set<Id>, ls: seq<Label>)
    ensures Faithful(env, Exec(env, Init(users), ls), HistOf(env, Init(users), NO_HISTORY, ls))
  {
    if ls != [] {
      var front := ls[..|ls| - 1];
      RunFaithful(env, users, front);
      RunKnown(env, users, front);
      StepFaithful(env, Exec(env, Init(users), front), HistOf(env, Init(users), NO_HISTORY, front), ls[|ls| - 1]);
    }
  }

  // ----- Which request a row comes from -----

  /** Label i is the arrival of thread t's upload of these bytes. */
  predicate SentAt(env: Env, users: set<Id>, ls: seq<Label>, i: nat, t: Id, oid: Id, content: Bytes, size: int) {
    && i < |ls| && ls[i].StartUpload? && ls[i].t == t && Enabled(Exec(env, Init(users), ls[..i]), ls[i])
    && ls[i].oid == oid && ls[i].content == content && ls[i].size == size
  }

  /** Label j is the insert with which thread t's upload stores this row. */
  predicate StoresAt(env: Env, users: set<Id>, ls: seq<Label>, j: nat, t: Id, uid: Id) {
    j < |ls| && ls[j].t == t && Stores(env, Exec(env, Init(users), ls[..j]), ls[j], uid)
  }

  predicate Stores(env: Env, s: Sys, l: Label, uid: Id) {
    && Enabled(s, l) && l.Advance? && s.threads[l.t].UpInsert? && l.input.newId == uid
    && uid in Apply(env, s, l).db.uploads
  }

  lemma SentLater(env: Env, users: set<Id>, ls: seq<Label>, l: Label, i: nat, t: Id, oid: Id, content: Bytes, size: int)
    requires SentAt(env, users, ls, i, t, oid, content, size)
    ensures SentAt(env, users, ls + [l], i, t, oid, content, size)
  {
    assert (ls + [l])[..i] == ls[..i];
  }

  lemma StoresLater(env: Env, users: set<Id>, ls: seq<Label>, l: Label, j: nat, t: Id, uid: Id)
    requires StoresAt(env, users, ls, j, t, uid)
    ensures StoresAt(env, users, ls + [l], j, t, uid)
  {
    assert (ls + [l])[..j] == ls[..j];
  }

  ghost predicate Sent(env: Env, users: set<Id>, ls: seq<Label>, t: Id, oid: Id, content: Bytes, size: int) {
    exists i: nat :: SentAt(env, users, ls, i, t, oid, content, size)
  }

  ghost predicate ThreadSent(env: Env, users: set<Id>, ls: seq<Label>, t: Id, th: Thread) {
    match th
    case UpRead(_, oid, content, size) => Sent(env, users, ls, t, oid, content, size)
    case UpSniff(_, oid, content, size) => Sent(env, users, ls, t, oid, content, size)
    case UpOpen(_, job) => Sent(env, users, ls, t, job.oid, job.content, job.size)
    case UpCopy(_, job, _, _) => Sent(env, users, ls, t, job.oid, job.content, job.size)
    case UpInsert(_, job, _) => Sent(env, users, ls, t, job.oid, job.content, job.size)
    case _ => true
  }

  ghost predicate ThreadsSent(env: Env, users: set<Id>, ls: seq<Label>, threads: Threads) {
    forall t :: t in threads ==> ThreadSent(env, users, ls, t, threads[t])
  }

  /** One request sent the bytes at label i and stored the row at label j. */
  predicate StoredBy(env: Env, users: set<Id>, ls: seq<Label>, uid: Id, u: Upload, content: Bytes, t: Id, i: nat,
                     j: nat) {
    i < j && SentAt(env, users, ls, i, t, u.oid, content, u.size) && StoresAt(env, users, ls, j, t, uid)
  }

  ghost predicate RowSent(env: Env, users: set<Id>, ls: seq<Label>, db: Db, source: map<Id, Bytes>, uid: Id) {
    uid in db.uploads ==>
      && uid in source
      && exists t: Id, i: nat, j: nat :: StoredBy(env, users, ls, uid, db.uploads[uid], source[uid], t, i, j)
  }

  lemma SentStays(env: Env, users: set<Id>, ls: seq<Label>, l: Label, t: Id, oid: Id, content: Bytes, size: int)
    requires Sent(env, users, ls, t, oid, content, size)
    ensures Sent(env, users, ls + [l], t, oid, content, size)
  {
    var i: nat :| SentAt(env, users, ls, i, t, oid, content, size);
    SentLater(env, users, ls, l, i, t, oid, content, size);
  }

  lemma ThreadSentLater(env: Env, users: set<Id>, ls: seq<Label>, l: Label, t: Id, th: Thread)
    requires ThreadSent(env, users, ls, t, th)
    ensures ThreadSent(env, users, ls + [l], t, th)
  {
    match th {
      case UpRead(_, oid, content, size) => SentStays(env, users, ls, l, t, oid, content, size);
      case UpSniff(_, oid, content, size) => SentStays(env, users, ls, l, t, oid, content, size);
      case UpOpen(_, job) => SentStays(env, users, ls, l, t, job.oid, job.content, job.size);
      case UpCopy(_, job, _, _) => SentStays(env, users, ls, l, t, job.oid, job.content, job.size);
      case UpInsert(_, job, _) => SentStays(env, users, ls, l, t, job.oid, job.content, job.size);
      case _ =>
    }
  }

  lemma OwnSent(env: Env, users: set<Id>, db: Db, ls: seq<Label>, t: Id, th: Thread, input: Input)
    requires ThreadSent(env, users, ls, t, th)
    ensures ThreadSent(env, users, ls, t, NextThread(env, db, th, input))
  {
    ThreadFollows(env, db, th, input);
  }

  lemma MovedSent(env: Env, users: set<Id>, ls: seq<Label>, l: Label)
    requires var s := Exec(env, Init(users), ls); Enabled(s, l) && ThreadsSent(env, users, ls, s.threads)
    ensures ThreadSent(env, users, ls + [l], l.t, Moved(env, Exec(env, Init(users), ls), l))
  {
    var s := Exec(env, Init(users), ls);
    match l {
      case Advance(t, input) =>
        OwnSent(env, users, s.db, ls, t, s.threads[t], input);
        ThreadSentLater(env, users, ls, l, t, NextThread(env, s.db, s.threads[t], input));
      case StartUpload(t, _, oid, content, size) =>
        assert (ls + [l])[..|ls|] == ls;
        assert SentAt(env, users, ls + [l], |ls|, t, oid, content, size);
      case _ =>
    }
  }

  lemma OldRowSent(env: Env, users: set<Id>, ls: seq<Label>, l: Label, uid: Id, u: Upload, content: Bytes)
    requires exists t: Id, i: nat, j: nat :: StoredBy(env, users, ls, uid, u, content, t, i, j)
    ensures exists t: Id, i: nat, j: nat :: StoredBy(env, users, ls + [l], uid, u, content, t, i, j)
  {
    var t: Id, i: nat, j: nat :| StoredBy(env, users, ls, uid, u, content, t, i, j);
    SentLater(env, users, ls, l, i, t, u.oid, content, u.size);
    StoresLater(env, users, ls, l, j, t, uid);
    assert StoredBy(env, users, ls + [l], uid, u, content, t, i, j);
  }

  lemma NewRowSent(env: Env, users: set<Id>, ls: seq<Label>, l: Label, t: Id, job: Job, uid: Id, u: Upload)
    requires Sent(env, users, ls, t, job.oid, job.content, job.size) && u.oid == job.oid && u.size == job.size
    requires l.t == t && Stores(env, Exec(env, Init(users), ls), l, uid)
    ensures exists t: Id, i: nat, j: nat :: StoredBy(env, users, ls + [l], uid, u, job.content, t, i, j)
  {
    var i: nat :| SentAt(env, users, ls, i, t, job.oid, job.content, job.size);
    SentLater(env, users, ls, l, i, t, job.oid, job.content, job.size);
    assert (ls + [l])[..|ls|] == ls;
    assert StoredBy(env, users, ls + [l], uid, u, job.content, t, i, |ls|);
  }

  lemma OldRowKept(env: Env, s: Sys, h: Hist, l: Label, uid: Id)
    requires RowsKnown(s.db) && uid in s.db.uploads && uid in h.source && uid in Apply(env, s, l).db.uploads
    ensures var source' := Track(env, h, s, l).source;
      Apply(env, s, l).db.uploads[uid] == s.db.uploads[uid] && uid in source' && source'[uid] == h.source[uid]
  {
    var w := WriteOf(env, s, l);
    StepShape(env, s, l);
    TrackNames(h, s, l, w);
    EffectGrows(s.db, w);
  }

  lemma NewRowStored(env: Env, s: Sys, h: Hist, l: Label, uid: Id)
    requires RowsKnown(s.db) && uid !in s.db.uploads && uid in Apply(env, s, l).db.uploads
    ensures Stores(env, s, l, uid)
    ensures var job := s.threads[l.t].job; var u := Apply(env, s, l).db.uploads[uid];
      var source' := Track(env, h, s, l).source;
      u.oid == job.oid && u.size == job.size && uid in source' && source'[uid] == job.content
  {
    StepShape(env, s, l);
    TrackNames(h, s, l, WriteOf(env, s, l));
    NewRow(env, s, h, l, uid);
  }

  lemma RowStepSent(env: Env, users: set<Id>, h: Hist, ls: seq<Label>, l: Label, uid: Id)
    requires var s := Exec(env, Init(users), ls);
      && RowsKnown(s.db) && RowSent(env, users, ls, s.db, h.source, uid) && ThreadsSent(env, users, ls, s.threads)
    ensures var s := Exec(env, Init(users), ls);
      RowSent(env, users, ls + [l], Apply(env, s, l).db, Track(env, h, s, l).source, uid)
  {
    var s := Exec(env, Init(users), ls);
    var db' := Apply(env, s, l).db;
    if uid in db'.uploads {
      if uid in s.db.uploads {
        OldRowKept(env, s, h, l, uid);
        OldRowSent(env, users, ls, l, uid, s.db.uploads[uid], h.source[uid]);
      } else {
        NewRowStored(env, s, h, l, uid);
        assert ThreadSent(env, users, ls, l.t, s.threads[l.t]);
        NewRowSent(env, users, ls, l, l.t, s.threads[l.t].job, uid, db'.uploads[uid]);
      }
    }
  }

  lemma {:induction false} RunSent(env: Env, users: set<Id>, ls: seq<Label>)
    ensures ThreadsSent(env, users, ls, Exec(env, Init(users), ls).threads)
    ensures forall uid :: RowSent(env, users, ls, Exec(env, Init(users), ls).db,
                                  HistOf(env, Init(users), NO_HISTORY, ls).source, uid)
  {
    if ls != [] {
      var front := ls[..|ls| - 1];
      var l := ls[|ls| - 1];
      assert ls == front + [l];
      var s, s' := Exec(env, Init(users), front), Exec(env, Init(users), ls);
      RunSent(env, users, front);
      RunKnown(env, users, front);
      StepShape(env, s, l);
      forall t | t in s'.threads ensures ThreadSent(env, users, ls, t, s'.threads[t]) {
        if Enabled(s, l) && t == l.t {
          MovedSent(env, users, front, l);
        } else {
          ThreadSentLater(env, users, front, l, t, s.threads[t]);
        }
      }
      forall uid ensures RowSent(env, users, ls, s'.db, HistOf(env, Init(users), NO_HISTORY, ls).source, uid) {
        RowStepSent(env, users, HistOf(env, Init(users), NO_HISTORY, front), front, l, uid);
      }
    }
  }

  // ----- Main results -----

  /**
   In every reachable state each upload row's file holds the complete bytes of the very request that stored
   the row, and its order, type, extension and declared size are that request's.
   */
  lemma UploadFidelity(env: Env, users: set<Id>, ls: seq<Label>, uid: Id)
    requires uid in Exec(env, Init(users), ls).db.uploads
    ensures var s := Exec(env, Init(users), ls); var u := s.db.uploads[uid];
      && u.path in s.files
      && (exists t: Id, i: nat, j: nat :: StoredBy(env, users, ls, uid, u, s.files[u.path], t, i, j))
      && u.contentType == env.sniff(FirstBytes(s.files[u.path], 512))
      && (|| (u.contentType == "application/pdf" && u.path.ext == "pdf")
          || (u.contentType == "image/png" && u.path.ext == "png")
          || (u.contentType == "image/jpeg" && u.path.ext == "jpg"))
      && 0 < u.size <= env.maxSize
  {
    RunFaithful(env, users, ls);
    RunSent(env, users, ls);
    var s, h := Exec(env, Init(users), ls), HistOf(env, Init(users), NO_HISTORY, ls);
    assert RowFaithful(env, s, h, uid) && RowSent(env, users, ls, s.db, h.source, uid);
    HeadIsPrefix(s.files[s.db.uploads[uid].path]);
    ExtensionAllows(s.db.uploads[uid].contentType, s.db.uploads[uid].path.ext);
  }

  /** Once a row refers to a file, no later step of any request changes or removes that file, even if the row goes. */
  lemma {:induction false} FileNeverAltered(env: Env, users: set<Id>, ls: seq<Label>, more: seq<Label>, uid: Id)
    requires uid in Exec(env, Init(users), ls).db.uploads
    ensures var p := Exec(env, Init(users), ls).db.uploads[uid].path;
      && p in Exec(env, Init(users), ls).files && p in Exec(env, Init(users), ls + more).files
      && Exec(env, Init(users), ls + more).files[p] == Exec(env, Init(users), ls).files[p]
      && Sealed(Exec(env, Init(users), ls + more), HistOf(env, Init(users), NO_HISTORY, ls + more).namer, p)
  {
    RunFaithful(env, users, ls);
    assert RowFaithful(env, Exec(env, Init(users), ls), HistOf(env, Init(users), NO_HISTORY, ls), uid);
    if more == [] {
      assert ls + more == ls;
    } else {
      var front := more[..|more| - 1];
      assert (ls + more)[..|ls + more| - 1] == ls + front;
      FileNeverAltered(env, users, ls, front, uid);
      RunFaithful(env, users, ls + front);
      StepSealed(env, Exec(env, Init(users), ls + front), HistOf(env, Init(users), NO_HISTORY, ls + front),
                 more[|more| - 1], Exec(env, Init(users), ls).db.uploads[uid].path);
    }
  }
}
