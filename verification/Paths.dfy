/**
 Lexical path handling of the upload storage on Unix: filepath.Clean as a walk over components with a
 stack, and the containment of every stored file under the base directory.
 */
module Paths {
  import opened Domain
  import opened Numbering

  // ----- filepath.Clean, Join and Abs -----

  /** The components between slashes, empty ones included. */
  function Split(s: string): (r: seq<string>)
    ensures |r| > 0
  {
    if s == "" then [""]
    else
      var rest := Split(s[1..]);
      if s[0] == '/' then [""] + rest else [[s[0]] + rest[0]] + rest[1..]
  }

  function Join(cs: seq<string>): string {
    if |cs| == 0 then "" else if |cs| == 1 then cs[0] else cs[0] + "/" + Join(cs[1..])
  }

  /** One component: nothing for "" and ".", one level up for "..", one level down otherwise. */
  function Enter(rooted: bool, stack: seq<string>, c: string): seq<string> {
    if c == "" || c == "." then stack
    else if c == ".." then
      if stack != [] && stack[|stack| - 1] != ".." then stack[..|stack| - 1]
      else if rooted then stack
      else stack + [c]
    else stack + [c]
  }

  function Walk(rooted: bool, stack: seq<string>, cs: seq<string>): seq<string>
    decreases |cs|
  {
    if |cs| == 0 then stack else Walk(rooted, Enter(rooted, stack, cs[0]), cs[1..])
  }

  predicate IsAbs(s: string) {
    s != "" && s[0] == '/'
  }

  function Clean(s: string): string {
    if IsAbs(s) then "/" + Join(Walk(true, [], Split(s)))
    else
      var body := Join(Walk(false, [], Split(s)));
      if body == "" then "." else body
  }

  /** filepath.Join: leading empty elements are ignored, the rest is joined and cleaned. */
  function JoinPath(elems: seq<string>): string {
    if |elems| == 0 then "" else if elems[0] == "" then JoinPath(elems[1..]) else Clean(Join(elems))
  }

  /** filepath.Abs in working directory cwd. */
  function Abs(cwd: string, s: string): string {
    if IsAbs(s) then Clean(s) else JoinPath([cwd, s])
  }

  // ----- LocalStorage.Save's computation -----

  predicate OccursAt(s: string, i: int, t: string) {
    0 <= i <= |s| - |t| && s[i..i + |t|] == t
  }

  predicate Contains(s: string, t: string) {
    exists i :: 0 <= i <= |s| && OccursAt(s, i, t)
  }

  predicate IsSafeFilename(name: string) {
    && name != ""
    && !('/' in name || '\\' in name)
    && !Contains(name, "..")
    && name == Clean(name)
  }

  function DayParts(d: Date): seq<string> {
    [Padded(d.year, 4), Padded(d.month, 2), Padded(d.day, 2)]
  }

  function RelPath(d: Date, name: string): string {
    JoinPath(DayParts(d) + [name])
  }

  /** The resolved path, and whether the prefix guard lets it through. */
  function Resolve(cwd: string, baseDir: string, d: Date, name: string): (string, bool) {
    var base := Abs(cwd, baseDir);
    var full := Abs(cwd, JoinPath([base, RelPath(d, name)]));
    (full, base + "/" <= full)
  }

  // ----- Normal components -----

  /** A component that names one level down. */
  predicate Normal(c: string) {
    c != "" && c != "." && c != ".." && '/' !in c
  }

  predicate AllNormal(cs: seq<string>) {
    forall i :: 0 <= i < |cs| ==> Normal(cs[i])
  }

  predicate NoSlashes(cs: seq<string>) {
    forall i :: 0 <= i < |cs| ==> '/' !in cs[i]
  }

  lemma {:induction false} SplitNoSlashes(s: string)
    ensures NoSlashes(Split(s))
  {
    if s != "" { SplitNoSlashes(s[1..]); }
  }

  lemma {:induction false} SplitPlain(s: string)
    requires '/' !in s
    ensures Split(s) == [s]
  {
    if s != "" {
      SplitPlain(s[1..]);
      assert [s[0]] + s[1..] == s;
    }
  }

  lemma {:induction false} SplitConcat(a: string, b: string)
    ensures Split(a + "/" + b) == Split(a) + Split(b)
  {
    if a == "" {
      assert a + "/" + b == "/" + b && ("/" + b)[1..] == b;
    } else {
      assert (a + "/" + b)[1..] == a[1..] + "/" + b;
      SplitConcat(a[1..], b);
    }
  }

  lemma {:induction false} SplitJoin(cs: seq<string>)
    requires NoSlashes(cs) && |cs| > 0
    ensures Split(Join(cs)) == cs
  {
    SplitPlain(cs[0]);
    if |cs| > 1 {
      SplitJoin(cs[1..]);
      SplitConcat(cs[0], Join(cs[1..]));
      assert [cs[0]] + cs[1..] == cs;
    } else {
      assert cs == [cs[0]];
    }
  }

  lemma {:induction false} JoinConcat(a: seq<string>, b: seq<string>)
    requires |a| > 0 && |b| > 0
    ensures Join(a + b) == Join(a) + "/" + Join(b)
  {
    if |a| == 1 {
      assert (a + b)[1..] == b;
    } else {
      assert (a + b)[1..] == a[1..] + b;
      JoinConcat(a[1..], b);
    }
  }

  lemma {:induction false} WalkConcat(rooted: bool, stack: seq<string>, a: seq<string>, b: seq<string>)
    ensures Walk(rooted, stack, a + b) == Walk(rooted, Walk(rooted, stack, a), b)
    decreases |a|
  {
    if |a| == 0 {
      assert a + b == b;
    } else {
      assert (a + b)[1..] == a[1..] + b;
      WalkConcat(rooted, Enter(rooted, stack, a[0]), a[1..], b);
    }
  }

  /** Normal components just stack up. */
  lemma {:induction false} WalkNormal(rooted: bool, stack: seq<string>, cs: seq<string>)
    requires AllNormal(cs)
    ensures Walk(rooted, stack, cs) == stack + cs
    decreases |cs|
  {
    if |cs| > 0 {
      WalkNormal(rooted, stack + [cs[0]], cs[1..]);
      assert stack + [cs[0]] + cs[1..] == stack + cs;
    } else {
      assert stack + cs == stack;
    }
  }

  /** From the root the stack never holds anything but normal components. */
  lemma {:induction false} WalkRooted(stack: seq<string>, cs: seq<string>)
    requires AllNormal(stack) && NoSlashes(cs)
    ensures AllNormal(Walk(true, stack, cs))
    decreases |cs|
  {
    if |cs| > 0 {
      assert '/' !in cs[0];
      WalkRooted(Enter(true, stack, cs[0]), cs[1..]);
    }
  }

  // ----- Absolute paths -----

  /** The components of a cleaned absolute path. */
  function Levels(s: string): seq<string> {
    Walk(true, [], Split(s))
  }

  lemma LevelsNormal(s: string)
    ensures AllNormal(Levels(s))
  {
    SplitNoSlashes(s);
    WalkRooted([], Split(s));
  }

  lemma LevelsOf(cs: seq<string>)
    requires AllNormal(cs)
    ensures Levels("/" + Join(cs)) == cs && Clean("/" + Join(cs)) == "/" + Join(cs)
  {
    assert "" + "/" + Join(cs) == "/" + Join(cs);
    SplitConcat("", Join(cs));
    if |cs| == 0 {
      assert Walk(true, [], ["", ""]) == [];
    } else {
      SplitJoin(cs);
      assert Split("/" + Join(cs)) == [""] + cs;
      WalkConcat(true, [], [""], cs);
      assert Walk(true, [], [""]) == [];
      WalkNormal(true, [], cs);
      assert [] + cs == cs;
    }
  }

  /** Cleaning an absolute path once is enough. */
  lemma CleanIdempotent(s: string)
    requires IsAbs(s)
    ensures Clean(Clean(s)) == Clean(s) && IsAbs(Clean(s))
  {
    LevelsNormal(s);
    LevelsOf(Levels(s));
  }

  /** Abs always yields a cleaned absolute path. */
  lemma AbsCleaned(cwd: string, s: string)
    requires IsAbs(cwd)
    ensures Abs(cwd, s) == "/" + Join(Levels(Abs(cwd, s))) && AllNormal(Levels(Abs(cwd, s)))
    ensures Abs(cwd, s) == "/" <==> Levels(Abs(cwd, s)) == []
  {
    var raw := if IsAbs(s) then s else Join([cwd, s]);
    assert Join([cwd, s]) == cwd + "/" + Join([s]);
    assert IsAbs(raw) && Abs(cwd, s) == Clean(raw);
    LevelsNormal(raw);
    LevelsOf(Levels(raw));
    if Levels(raw) != [] { JoinNonEmpty(Levels(raw)); }
  }

  lemma JoinNonEmpty(cs: seq<string>)
    requires AllNormal(cs) && |cs| > 0
    ensures Join(cs) != "" && Join(cs)[0] != '/'
  {
    assert Normal(cs[0]);
    assert cs[0][0] in cs[0];
  }

  /** Joining normal components below a cleaned absolute path appends them. */
  lemma JoinBelow(bs: seq<string>, cs: seq<string>)
    requires AllNormal(bs) && AllNormal(cs) && |cs| > 0
    ensures JoinPath(["/" + Join(bs), Join(cs)]) == "/" + Join(bs + cs)
  {
    var base := "/" + Join(bs);
    assert Join([base, Join(cs)]) == base + "/" + Join([Join(cs)]);
    SplitConcat(base, Join(cs));
    SplitJoin(cs);
    WalkConcat(true, [], Split(base), cs);
    LevelsOf(bs);
    WalkNormal(true, bs, cs);
  }

  /** A relative join of normal components is their plain join. */
  lemma JoinRelative(cs: seq<string>)
    requires AllNormal(cs) && |cs| > 0
    ensures JoinPath(cs) == Join(cs)
  {
    JoinNonEmpty(cs);
    assert Normal(cs[0]);
    SplitJoin(cs);
    WalkNormal(false, [], cs);
    assert [] + cs == cs;
  }

  // ----- File names and days -----

  lemma DotsOccur(name: string)
    ensures Contains(name, "..") <==> exists i :: 0 <= i < |name| - 1 && name[i] == '.' && name[i + 1] == '.'
  {
    if i :| 0 <= i < |name| - 1 && name[i] == '.' && name[i + 1] == '.' { assert OccursAt(name, i, ".."); }
    if i :| 0 <= i <= |name| && OccursAt(name, i, "..") {
      assert name[i] == name[i..i + 2][0] && name[i + 1] == name[i..i + 2][1];
    }
  }

  /** The final Clean comparison of the name check never refuses a name the earlier checks accept. */
  lemma SafeFilenameIff(name: string)
    ensures IsSafeFilename(name) <==>
      && name != "" && '/' !in name && '\\' !in name
      && forall i :: 0 <= i < |name| - 1 ==> !(name[i] == '.' && name[i + 1] == '.')
    ensures IsSafeFilename(name) ==> (Normal(name) <==> name != ".")
  {
    assert OccursAt("..", 0, "..");
    DotsOccur(name);
    if name != "" && '/' !in name && !Contains(name, "..") {
      SplitPlain(name);
      assert Walk(false, [], [name]) == if name == "." then [] else [name];
    }
  }

  lemma PaddedNormal(n: nat, width: nat)
    ensures Normal(Padded(n, width))
  {
    var s := Padded(n, width);
    assert '0' <= s[0] <= '9';
    assert AllDigits(s) && '/' !in s;
  }

  lemma DayNormal(d: Date)
    ensures AllNormal(DayParts(d))
  {
    PaddedNormal(d.year, 4);
    PaddedNormal(d.month, 2);
    PaddedNormal(d.day, 2);
  }

  // ----- Main results -----

  lemma ResolveLevels(cwd: string, baseDir: string, d: Date, name: string)
    requires IsAbs(cwd) && Normal(name)
    ensures var bs := Levels(Abs(cwd, baseDir)); var cs := DayParts(d) + [name];
      && RelPath(d, name) == Join(cs)
      && AllNormal(bs) && AllNormal(cs)
      && Resolve(cwd, baseDir, d, name).0 == "/" + Join(bs + cs)
  {
    var bs := Levels(Abs(cwd, baseDir));
    var cs := DayParts(d) + [name];
    AbsCleaned(cwd, baseDir);
    DayNormal(d);
    assert AllNormal(cs);
    JoinRelative(cs);
    JoinBelow(bs, cs);
    assert AllNormal(bs + cs);
    LevelsOf(bs + cs);
  }

  lemma BelowRoot(cs: seq<string>)
    requires AllNormal(cs) && |cs| > 0
    ensures !("/" + Join([]) + "/" <= "/" + Join(cs)) && "/" + Join([]) == "/"
  {
    JoinNonEmpty(cs);
    NotDoubled(Join(cs));
    assert "/" + Join([]) + "/" == "//";
  }

  lemma BelowOther(bs: seq<string>, cs: seq<string>)
    requires |bs| > 0 && |cs| > 0
    ensures "/" + Join(bs + cs) == "/" + Join(bs) + "/" + Join(cs)
  {
    JoinConcat(bs, cs);
  }

  lemma BelowBase(bs: seq<string>, cs: seq<string>)
    requires AllNormal(bs) && AllNormal(cs) && |cs| > 0
    ensures var base := "/" + Join(bs); var full := "/" + Join(bs + cs);
      && (base + "/" <= full <==> bs != [])
      && full == (if bs == [] then base else base + "/") + Join(cs)
  {
    if |bs| == 0 {
      assert bs == [] && bs + cs == cs;
      BelowRoot(cs);
    } else {
      BelowOther(bs, cs);
    }
  }

  lemma NotDoubled(s: string)
    requires s != "" && s[0] != '/'
    ensures !("//" <= "/" + s)
  {
    assert ("/" + s)[1] == s[0] && "//"[1] == '/';
  }

  /**
   For every base directory and every accepted name but ".", the file lies exactly at base/YYYY/MM/DD/name,
   and the prefix guard refuses it if and only if the base is the root directory.
   */
  lemma Containment(cwd: string, baseDir: string, d: Date, name: string)
    requires IsAbs(cwd) && IsSafeFilename(name) && name != "."
    ensures RelPath(d, name) == Join(DayParts(d)) + "/" + name
    ensures var base := Abs(cwd, baseDir); var (full, allowed) := Resolve(cwd, baseDir, d, name);
      && (allowed <==> base != "/")
      && full == (if base == "/" then base else base + "/") + RelPath(d, name)
  {
    SafeFilenameIff(name);
    ResolveLevels(cwd, baseDir, d, name);
    AbsCleaned(cwd, baseDir);
    BelowBase(Levels(Abs(cwd, baseDir)), DayParts(d) + [name]);
    JoinConcat(DayParts(d), [name]);
  }

  /** The name "." passes the name check and would resolve to the day directory itself. */
  lemma DotIsTheDayDirectory(d: Date)
    ensures IsSafeFilename(".") && RelPath(d, ".") == Join(DayParts(d))
  {
    SafeFilenameIff(".");
    DayNormal(d);
    var cs := DayParts(d);
    assert !Contains(".", "..");
    JoinNonEmpty(cs);
    assert Normal(cs[0]);
    SplitJoin(cs + ["."]);
    WalkConcat(false, [], cs, ["."]);
    WalkNormal(false, [], cs);
    assert [] + cs == cs;
  }

  /** The day directory is YYYY/MM/DD in decimal digits, wider only for years past 9999. */
  lemma DayDirectory(d: Date, name: string)
    requires IsSafeFilename(name) && name != "." && 1 <= d.month <= 12 && 1 <= d.day <= 31
    ensures exists y: string, m: string, k: string ::
      && RelPath(d, name) == y + "/" + m + "/" + k + "/" + name
      && AllDigits(y) && AllDigits(m) && AllDigits(k)
      && Value(y) == d.year && Value(m) == d.month && Value(k) == d.day
      && |y| >= 4 && (|y| > 4 ==> y[0] != '0') && |m| == 2 && |k| == 2
  {
    var y, m, k := Padded(d.year, 4), Padded(d.month, 2), Padded(d.day, 2);
    Containment("/", "/", d, name);
    PaddedPrints(d.year, 4);
    PaddedPrints(d.month, 2);
    PaddedPrints(d.day, 2);
    TwoDigits(d.month);
    TwoDigits(d.day);
    JoinThree(y, m, k);
    assert RelPath(d, name) == y + "/" + m + "/" + k + "/" + name;
  }

  lemma JoinThree(a: string, b: string, c: string)
    ensures Join([a, b, c]) == a + "/" + b + "/" + c
  {
    JoinConcat([a], [b, c]);
    JoinConcat([b], [c]);
    assert [a] + [b, c] == [a, b, c] && [b] + [c] == [b, c];
    assert a + "/" + (b + "/" + c) == a + "/" + b + "/" + c;
  }

  lemma TwoDigits(n: nat)
    requires 1 <= n <= 31
    ensures |Padded(n, 2)| == 2
  {
    assert |Digits(n)| <= 2;
  }

  // ----- Cleaning, rule by rule -----

  /** The three rules of lexical cleaning, which with Levels("/") == [] fix it for every absolute path. */
  lemma CleanRules(p: string, c: string)
    requires IsAbs(p)
    ensures Clean(p) == "/" + Join(Levels(p)) && Levels("/") == []
    ensures c == "" || c == "." ==> Levels(p + "/" + c) == Levels(p)
    ensures c == ".." ==> Levels(p + "/" + c) == if Levels(p) == [] then [] else Levels(p)[..|Levels(p)| - 1]
    ensures Normal(c) ==> Levels(p + "/" + c) == Levels(p) + [c]
  {
    if '/' !in c {
      SplitConcat(p, c);
      SplitPlain(c);
      WalkConcat(true, [], Split(p), [c]);
      LevelsNormal(p);
    }
  }

  /** Distinct days or names give distinct files under one base. */
  lemma ResolveInjective(cwd: string, baseDir: string, d: Date, name: string, e: Date, other: string)
    requires IsAbs(cwd) && IsSafeFilename(name) && name != "." && IsSafeFilename(other) && other != "."
    ensures Resolve(cwd, baseDir, d, name).0 == Resolve(cwd, baseDir, e, other).0 <==> d == e && name == other
  {
    Containment(cwd, baseDir, d, name);
    Containment(cwd, baseDir, e, other);
    SafeFilenameIff(name);
    SafeFilenameIff(other);
    var base := Abs(cwd, baseDir);
    Cancel(if base == "/" then base else base + "/", RelPath(d, name), RelPath(e, other));
    if RelPath(d, name) == RelPath(e, other) { SamePartsSameFile(d, name, e, other); }
  }

  lemma Cancel(prefix: string, x: string, y: string)
    ensures prefix + x == prefix + y <==> x == y
  {
    assert x == (prefix + x)[|prefix|..] && y == (prefix + y)[|prefix|..];
  }

  lemma SamePartsSameFile(d: Date, name: string, e: Date, other: string)
    requires Join(DayParts(d)) + "/" + name == Join(DayParts(e)) + "/" + other && '/' !in name && '/' !in other
    ensures d == e && name == other
  {
    var cs, es := DayParts(d) + [name], DayParts(e) + [other];
    JoinConcat(DayParts(d), [name]);
    JoinConcat(DayParts(e), [other]);
    DayNormal(d);
    DayNormal(e);
    SplitJoin(cs);
    SplitJoin(es);
    assert cs == es;
    assert cs[0] == es[0] && cs[1] == es[1] && cs[2] == es[2] && cs[3] == es[3];
    PaddedInjective(d.year, e.year, 4);
    PaddedInjective(d.month, e.month, 2);
    PaddedInjective(d.day, e.day, 2);
  }

  // ----- The names the service generates -----

  /** A printed UUID, an extension: plain characters without dots or slashes. */
  predicate Plain(s: string) {
    s != "" && '/' !in s && '\\' !in s && '.' !in s
  }

  /** Generated names pass the check and never resolve to a directory. */
  lemma GeneratedNameSafe(uuid: string, ext: string)
    requires Plain(uuid) && Plain(ext)
    ensures IsSafeFilename(uuid + "." + ext) && uuid + "." + ext != "."
  {
    var name := uuid + "." + ext;
    forall k | 0 <= k < |name| && k != |uuid| ensures name[k] != '.' && name[k] != '/' && name[k] != '\\' {
      assert name[k] == if k < |uuid| then uuid[k] else ext[k - |uuid| - 1];
    }
    forall i | 0 <= i <= |name| ensures !OccursAt(name, i, "..") {
      assert forall t: string :: t == ".." ==> t[0] == '.' && t[1] == '.';
      assert i + 2 <= |name| ==> name[i..i + 2][0] == name[i] && name[i..i + 2][1] == name[i + 1];
    }
    assert name[0] == uuid[0];
    SafeFilenameIff(name);
  }

  /** The string path of a stored file; `print` is the UUID printer. */
  function Located(cwd: string, baseDir: string, show: Id -> string, p: Path): string {
    Resolve(cwd, baseDir, p.date, show(p.name) + "." + p.ext).0
  }

  /** The protocol's file keys stand for real paths: distinct generated names never share a file. */
  lemma LocatedInjective(cwd: string, baseDir: string, show: Id -> string, p: Path, q: Path)
    requires IsAbs(cwd) && Plain(show(p.name)) && Plain(show(q.name)) && Plain(p.ext) && Plain(q.ext)
    requires show(p.name) == show(q.name) ==> p.name == q.name
    ensures Located(cwd, baseDir, show, p) == Located(cwd, baseDir, show, q) <==> p == q
  {
    GeneratedNameSafe(show(p.name), p.ext);
    GeneratedNameSafe(show(q.name), q.ext);
    ResolveInjective(cwd, baseDir, p.date, show(p.name) + "." + p.ext, q.date, show(q.name) + "." + q.ext);
    if show(p.name) + "." + p.ext == show(q.name) + "." + q.ext { SameStem(show(p.name), p.ext, show(q.name), q.ext); }
  }

  lemma SameStem(a: string, x: string, b: string, y: string)
    requires Plain(a) && Plain(b) && a + "." + x == b + "." + y
    ensures a == b && x == y
  {
    var s := a + "." + x;
    assert forall k :: 0 <= k < |a| ==> s[k] == a[k] && s[k] != '.';
    assert forall k :: 0 <= k < |b| ==> s[k] == b[k] && s[k] != '.';
    assert s[|a|] == '.' && s[|b|] == '.';
    assert a == s[..|a|] && b == s[..|b|];
    assert x == s[|a| + 1..] && y == s[|b| + 1..];
  }
}
