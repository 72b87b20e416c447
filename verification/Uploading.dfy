/**
 The upload pipeline over a file with a read cursor: read the head, sniff it, seek back, copy everything
 into a new file under the base directory, insert the row. Readers may return any number of bytes at a
 time and any file operation may fail.
 */
module Uploading {
  import opened Domain
  import opened Database
  import opened Protocol
  import opened Serial
  import opened Promises
  import opened Paths
  import Store

  function Min(a: int, b: int): int {
    if a <= b then a else b
  }

  datatype ReadStatus = More | Eof | Failing

  /** multipart.File: the uploaded bytes and a cursor; a healthy one never fails to read or seek. */
  class SourceFile {
    const content: Bytes
    const healthy: bool
    var pos: nat

    constructor (content: Bytes, healthy: bool)
      ensures this.content == content && this.healthy == healthy && pos == 0
    {
      this.content, this.healthy, pos := content, healthy, 0;
    }

    ghost predicate Valid()
      reads this
    {
      pos <= |content|
    }

    /** Reads between 1 and hi - lo bytes into buf[lo..hi], unless at the end or broken. */
    method Read(buf: array<byte>, lo: nat, hi: nat) returns (n: nat, status: ReadStatus)
      requires Valid() && lo < hi <= buf.Length
      modifies this`pos, buf
      ensures Valid() && old(pos) <= pos
      ensures status.More? ==> 0 < n && n == pos - old(pos) && lo + n <= hi && buf[lo..lo + n] == content[old(pos)..pos]
      ensures status.Eof? <==> !status.Failing? && old(pos) == |content|
      ensures !status.More? ==> n == 0 && pos == old(pos)
      ensures healthy ==> !status.Failing?
      ensures buf[..lo] == old(buf[..lo])
    {
      var broken: bool := *;
      if broken && !healthy { return 0, Failing; }
      if pos == |content| { return 0, Eof; }
      var most := Min(hi - lo, |content| - pos);
      n :| 1 <= n && n <= most;
      forall i | 0 <= i < n { buf[lo + i] := content[pos + i]; }
      pos := pos + n;
      status := More;
    }

    method Rewind() returns (ok: bool)
      modifies this`pos
      ensures ok ==> pos == 0
      ensures !ok ==> pos == old(pos) && !healthy
    {
      ok := *;
      ok := ok || healthy;
      if ok { pos := 0; }
    }
  }

  /** io.ReadFull: keeps reading until the buffer is full, the file ends or a read breaks. */
  method ReadFull(file: SourceFile, buf: array<byte>) returns (n: nat, ok: bool)
    requires file.Valid()
    modifies file`pos, buf
    ensures file.Valid() && (file.healthy ==> ok)
    ensures ok ==> n == Min(buf.Length, |file.content| - old(file.pos))
    ensures ok ==> n <= buf.Length && file.pos == old(file.pos) + n && buf[..n] == file.content[old(file.pos)..file.pos]
  {
    n := 0;
    while n < buf.Length
      invariant file.Valid() && n <= buf.Length && file.pos == old(file.pos) + n
      invariant buf[..n] == file.content[old(file.pos)..file.pos]
      decreases buf.Length - n
    {
      label before:
      var k, status := file.Read(buf, n, buf.Length);
      if status.Failing? { return n, false; }
      if status.Eof? { return n, true; }
      assert buf[..n + k] == buf[..n] + buf[n..n + k];
      assert file.content[old(file.pos)..file.pos] ==
        file.content[old(file.pos)..old@before(file.pos)] + file.content[old@before(file.pos)..file.pos];
      n := n + k;
    }
    ok := true;
  }

  /** The file system; a healthy one never fails to create, write or close a file. */
  class Disk {
    const healthy: bool
    var files: map<string, Bytes>

    constructor (healthy: bool)
      ensures this.healthy == healthy && files == map[]
    {
      this.healthy, files := healthy, map[];
    }
  }

  lemma NextChunk(content: Bytes, from: nat, mid: nat, chunk: Bytes)
    requires from <= mid && mid + |chunk| <= |content| && chunk == content[mid..mid + |chunk|]
    ensures content[from..mid] + chunk == content[from..mid + |chunk|]
  {
  }

  /** io.Copy of the rest of a file to the end of a disk file, in chunks of any size; `copied` bytes arrive. */
  method CopyRest(file: SourceFile, disk: Disk, path: string) returns (ok: bool, ghost copied: nat)
    requires file.Valid() && path in disk.files
    modifies file`pos, disk
    ensures file.Valid() && old(file.pos) + copied <= |file.content|
    ensures path in disk.files && disk.files == old(disk.files)[path := disk.files[path]]
    ensures disk.files[path] == old(disk.files[path]) + file.content[old(file.pos)..old(file.pos) + copied]
    ensures ok ==> old(file.pos) + copied == |file.content|
    ensures file.healthy && disk.healthy ==> ok
  {
    var buf := new byte[32768];
    copied := 0;
    while true
      invariant file.Valid() && fresh(buf) && file.pos == old(file.pos) + copied
      invariant path in disk.files && disk.files == old(disk.files)[path := disk.files[path]]
      invariant disk.files[path] == old(disk.files[path]) + file.content[old(file.pos)..file.pos]
      decreases |file.content| - file.pos
    {
      label before:
      var n, status := file.Read(buf, 0, buf.Length);
      if status.Failing? { return false, copied; }
      if status.Eof? { return true, copied; }
      var wrote :| 0 <= wrote && wrote <= n;
      assert buf[0..0 + n] == buf[..n];
      if wrote < n && !disk.healthy {
        assert buf[..wrote] == buf[..n][..wrote];
        NextChunk(file.content, old(file.pos), old@before(file.pos), buf[..wrote]);
        disk.files := disk.files[path := disk.files[path] + buf[..wrote]];
        return false, copied + wrote;
      }
      NextChunk(file.content, old(file.pos), old@before(file.pos), buf[..n]);
      disk.files := disk.files[path := disk.files[path] + buf[..n]];
      copied := copied + n;
    }
  }

  class LocalStorage {
    const disk: Disk
    /** The resolved path of a name on a day, and whether the prefix guard lets it through. */
    const resolve: (Date, string) -> (string, bool)

    constructor (disk: Disk, cwd: string, baseDir: string)
      ensures this.disk == disk
      ensures forall day, name :: this.resolve(day, name) == Resolve(cwd, baseDir, day, name)
    {
      this.disk, this.resolve := disk, (day, name) => Resolve(cwd, baseDir, day, name);
    }

    predicate Accepts(day: Date, name: string) {
      IsSafeFilename(name) && resolve(day, name).1
    }

    /** Unsafe names and guarded paths are refused untouched; else the rest of the source goes to the resolved file. */
    method Save(file: SourceFile, day: Date, name: string) returns (r: Result<string>, ghost tr: Transfer)
      requires file.Valid()
      modifies file`pos, disk
      ensures file.Valid()
      ensures !Accepts(day, name) ==> r == Err(InvalidStoragePath) && disk.files == old(disk.files)
      ensures Possible(file.content[old(file.pos)..], tr)
      ensures Accepts(day, name) ==>
        && disk.files == FilesAfter(old(disk.files), resolve(day, name).0, file.content[old(file.pos)..], tr)
        && r == (if tr.Complete? then Ok(RelPath(day, name)) else Err(Storage))
      ensures file.healthy && disk.healthy ==> tr.Complete?
    {
      tr := Complete;
      if !IsSafeFilename(name) { return Err(InvalidStoragePath), tr; }
      var (full, allowed) := resolve(day, name);
      if !allowed { return Err(InvalidStoragePath), tr; }
      var created: bool := *;
      if !created && !disk.healthy { return Err(Storage), Unopened(false); }
      disk.files := disk.files[full := []];
      ghost var rest := file.content[file.pos..];
      var copied, k := CopyRest(file, disk, full);
      assert rest[..k] == [] + file.content[old(file.pos)..old(file.pos) + k];
      assert disk.files == old(disk.files)[full := rest[..k]];
      var closed: bool := *;
      if !copied || (!closed && !disk.healthy) {
        var removed: bool := *;
        if removed {
          assert disk.files - {full} == old(disk.files) - {full};
          disk.files := disk.files - {full};
        }
        return Err(Storage), Broken(k, removed);
      }
      assert rest[..k] == rest;
      r := Ok(RelPath(day, name));
    }
  }

  class Service {
    const repo: Store.Tables
    const storage: LocalStorage
    const env: Env
    const show: Id -> string      // prints a UUID

    constructor (repo: Store.Tables, storage: LocalStorage, env: Env, show: Id -> string)
      ensures this.repo == repo && this.storage == storage && this.env == env && this.show == show
    {
      this.repo, this.storage, this.env, this.show := repo, storage, env, show;
    }

    function NameOf(p: Path): string {
      show(p.name) + "." + p.ext
    }

    function FileOf(p: Path): string {
      storage.resolve(p.date, NameOf(p)).0
    }

    /** Reads the head from where the cursor stands, sniffs it and seeks to the start. */
    method Sniff(file: SourceFile) returns (r: Result<(string, string)>)
      requires file.Valid()
      modifies file`pos
      ensures file.Valid() && (r.Ok? ==> file.pos == 0)
      ensures r == Err(Storage) || r == TypeOf(env, Head(file.content[old(file.pos)..]))
      ensures r == Err(Storage) ==> !file.healthy
      ensures var contentType := env.sniff(FirstBytes(file.content[old(file.pos)..], 512));
        && (r.Ok? ==> r.value.0 == contentType && Allowed(contentType, r.value.1))
        && (r.Err? ==> r.error == Storage || (r.error == UnsupportedContentType && !Taken(contentType)))
    {
      HeadIsPrefix(file.content[file.pos..]);
      var head := new byte[512];
      var n, ok := ReadFull(file, head);
      if !ok { return Err(Storage); }
      assert head[..n] == Head(file.content[old(file.pos)..]);
      var contentType := env.sniff(head[..n]);
      var ext := Extension(contentType);
      ExtensionAllows(contentType, if ext.Some? then ext.value else "");
      if ext.None? { return Err(UnsupportedContentType); }
      var rewound := file.Rewind();
      if !rewound { return Err(Storage); }
      r := Ok((contentType, ext.value));
    }

    /** The checks before storage. */
    method Check(user: Id, oid: Id, file: SourceFile, size: int, read: Fault)
      returns (r: Result<(string, string)>, ghost sniffed: bool)
      requires file.Valid()
      modifies file`pos
      ensures file.Valid() && (r.Ok? ==> file.pos == 0) && (file.healthy ==> sniffed)
      ensures r == Screen(env, repo.View(), user, oid, Head(file.content[old(file.pos)..]), size, read, sniffed)
    {
      sniffed := true;
      var found := repo.GetOrder(user, oid, read);
      if found.Err? { return Err(if found.error == OrderNotFound then UploadOrderNotFound else found.error), sniffed; }
      if size <= 0 { return Err(EmptyFile), sniffed; }
      if size > env.maxSize { return Err(FileTooLarge), sniffed; }
      r := Sniff(file);
      sniffed := r != Err(Storage);
    }

    /**
     upload.Service.Create: the rows, the files and the answer of Serial.Receive, for some faults of the
     file operations; none if the reader and the disk are healthy. A name or path that storage refuses
     leaves everything untouched.
     */
    method Create(user: Id, oid: Id, file: SourceFile, size: int, name: Id, uid: Id, day: Date, read: Fault,
                  insert: Fault)
      returns (r: Result<Upload>, ghost sc: UploadScript)
      requires file.Valid()
      modifies file`pos, storage.disk, repo
      ensures sc.read == read && sc.insert == insert && Possible(file.content, sc.transfer)
      ensures file.healthy ==> sc.sniffed && (storage.disk.healthy ==> sc.transfer.Complete?)
      ensures var head := Head(file.content[old(file.pos)..]);
        var typed := Screen(env, old(repo.View()), user, oid, head, size, read, sc.sniffed);
        if typed.Ok? && !storage.Accepts(day, NameOf(Path(day, name, typed.value.1))) then
          && repo.View() == old(repo.View()) && storage.disk.files == old(storage.disk.files)
          && r == Err(InvalidStoragePath)
        else
          (repo.View(), storage.disk.files, r) ==
              Receive(env, old(repo.View()), old(storage.disk.files), FileOf, user, oid,
                      file.content, head, size, name, uid, day, sc)
    {
      var typed, sniffed := Check(user, oid, file, size, read);
      sc := UploadScript(read, sniffed, Complete, insert);
      if typed.Err? { return Err(typed.error), sc; }
      var (contentType, ext) := typed.value;
      var u := Upload(oid, contentType, size, Path(day, name, ext));
      assert file.content[0..] == file.content;
      var saved, tr := storage.Save(file, day, show(name) + "." + ext);
      sc := sc.(transfer := tr);
      if saved.Err? { return Err(saved.error), sc; }
      var inserted := repo.CreateUpload(uid, u, insert);
      r := if inserted.Ok? then Ok(u) else Err(inserted.error);
    }
  }

  /** Not the place of the upload's own file. */
  predicate Spared<K(==)>(env: Env, head: Bytes, locate: Path -> K, name: Id, day: Date, q: K) {
    TypeOf(env, head).Err? || q != locate(Path(day, name, TypeOf(env, head).value.1))
  }

  /**
   What that means. A row appears only beside a complete file of the original bytes, typed by the sniffed
   head; an error leaves a row behind only when the insert's answer was lost; no other file or row changes.
   */
  lemma ReceiveKeepsFaith<K>(env: Env, db: Db, files: map<K, Bytes>, locate: Path -> K, user: Id, oid: Id,
                             content: Bytes, head: Bytes, size: int, name: Id, uid: Id, day: Date, sc: UploadScript)
    requires Possible(content, sc.transfer)
    ensures var (db', files', r) := Receive(env, db, files, locate, user, oid, content, head, size, name, uid, day, sc);
      && (r.Ok? || db' != db ==>
            && Owns(db, user, oid) && 0 < size <= env.maxSize && TypeOf(env, head).Ok?
            && Allowed(env.sniff(head), TypeOf(env, head).value.1)
            && var u := Upload(oid, env.sniff(head), size, Path(day, name, TypeOf(env, head).value.1));
               && db' == db.(uploads := db.uploads[uid := u], used := db.used + {uid})
               && locate(u.path) in files' && files'[locate(u.path)] == content
               && (r.Ok? ==> r.value == u))
      && (r.Err? && db' != db ==> sc.insert.LostReply?)
      && (forall q :: q in files && Spared(env, head, locate, name, day, q) ==>
            q in files' && files'[q] == files[q])
  {
    if TypeOf(env, head).Ok? { ExtensionAllows(env.sniff(head), TypeOf(env, head).value.1); }
  }

  /** Without faults each upload is answered by the first check it fails, and is stored if it fails none. */
  lemma ReceiveAnswers<K>(env: Env, db: Db, files: map<K, Bytes>, locate: Path -> K, user: Id, oid: Id, content: Bytes,
                          head: Bytes, size: int, name: Id, uid: Id, day: Date)
    ensures var clean := UploadScript(NoFault, true, Complete, NoFault);
      var r := Receive(env, db, files, locate, user, oid, content, head, size, name, uid, day, clean).2;
      if oid !in db.orders || db.orders[oid].user != user then r == Err(UploadOrderNotFound)
      else if size <= 0 then r == Err(EmptyFile)
      else if size > env.maxSize then r == Err(FileTooLarge)
      else if env.sniff(head) == "application/pdf" then
        r == Ok(Upload(oid, "application/pdf", size, Path(day, name, "pdf")))
      else if env.sniff(head) == "image/png" then r == Ok(Upload(oid, "image/png", size, Path(day, name, "png")))
      else if env.sniff(head) == "image/jpeg" then r == Ok(Upload(oid, "image/jpeg", size, Path(day, name, "jpg")))
      else r == Err(UnsupportedContentType)
  {
    UploadPromise(env, db, files, locate, user, oid, content, head, size, name, uid, day,
                  UploadScript(NoFault, true, Complete, NoFault));
  }
}
