/**
 What happened earlier in a run, kept beside the state for proofs. The system never reads it.
 */
module History {
  import opened Domain
  import opened Protocol
  import opened Steps

  datatype Hist = Hist(
    payOf: map<Id, Id>,              // order -> the payment ever inserted for it
    drawer: map<Id, nat>,            // thread -> which gateway call it made, counting from 1
    inserter: map<Id, Id>,           // payment -> the thread that inserted it
    source: map<Id, Bytes>,          // upload -> the bytes the user sent
    namer: map<Id, Id>)              // file name -> the thread that generated it

  const NO_HISTORY: Hist := Hist(map[], map[], map[], map[], map[])

  /** A successful write leaves its trace. */
  function TrackWrite(h: Hist, t: Id, th: Option<Thread>, w: Write): Hist {
    match w
    case NewPayment(pid, oid, _, _) => h.(payOf := h.payOf[oid := pid], inserter := h.inserter[pid := t])
    case Reserve(name) => h.(namer := h.namer[name := t])
    case NewUpload(uid, _) =>
      if th.Some? && th.value.UpInsert? then h.(source := h.source[uid := th.value.job.content]) else h
    case _ => h
  }

  /** The history after a label whose write is w. */
  function TrackBy(h: Hist, s: Sys, l: Label, w: Write): Hist {
    var th := if Enabled(s, l) && l.Advance? then Some(s.threads[l.t]) else None;
    var r := Attempt(s.db, w);
    var h1 := if r.Ok? then TrackWrite(h, l.t, th, w) else h;
    if th.Some? && th.value.PayDraw? then h1.(drawer := h1.drawer[l.t := s.draws + 1]) else h1
  }

  function Track(env: Env, h: Hist, s: Sys, l: Label): Hist {
    TrackBy(h, s, l, WriteOf(env, s, l))
  }

  function HistOf(env: Env, s: Sys, h: Hist, ls: seq<Label>): Hist {
    if ls == [] then h
    else
      var front := ls[..|ls| - 1];
      Track(env, HistOf(env, s, h, front), Exec(env, s, front), ls[|ls| - 1])
  }
}
