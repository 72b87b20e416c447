/**
 Provider references: every stored reference was drawn by the thread that inserted the payment, in a
 gateway call of its own, so references are pairwise distinct until the uint64 counter has gone all the
 way around.
 */
module Drawing {
  import opened Domain
  import opened Database
  import opened Numbering
  import opened Protocol
  import opened History
  import opened Steps
  import opened Safety

  /** The reference of the k-th gateway call. */
  function Nth(k: nat): string {
    Reference(k % WORD)
  }

  ghost predicate DrawerOk(s: Sys, drawer: map<Id, nat>) {
    && s.counter == s.draws % WORD
    && (forall t :: t in drawer ==> t in s.threads && 1 <= drawer[t] <= s.draws
                                    && !s.threads[t].PayRead? && !s.threads[t].PayDraw?)
    && (forall t, u :: t in drawer && u in drawer && drawer[t] == drawer[u] ==> t == u)
  }

  /** A payment's reference is the one its inserter drew, and a thread inserts once. */
  ghost predicate PaymentDrawn(db: Db, threads: Threads, drawer: map<Id, nat>, inserter: map<Id, Id>, pid: Id) {
    && (pid in inserter ==>
          && pid in db.used && inserter[pid] in drawer
          && inserter[pid] in threads && !threads[inserter[pid]].PayInsert?)
    && (pid in db.payments ==> pid in inserter && inserter[pid] in drawer
                               && db.payments[pid].reference == Nth(drawer[inserter[pid]]))
  }

  ghost predicate ReceiptDrawn(drawer: map<Id, nat>, inserter: map<Id, Id>, t: Id, r: Receipt) {
    t in drawer && r.pid in inserter && inserter[r.pid] == t && r.reference == Nth(drawer[t])
  }

  ghost predicate ThreadDrawn(drawer: map<Id, nat>, inserter: map<Id, Id>, t: Id, th: Thread) {
    match th
    case PayInsert(_, _, _, reference) => t in drawer && reference == Nth(drawer[t])
    case PayMark(_, r) => ReceiptDrawn(drawer, inserter, t, r)
    case Done(_, PaymentCreated(r)) => ReceiptDrawn(drawer, inserter, t, r)
    case _ => true
  }

  ghost predicate Drawn(s: Sys, h: Hist) {
    && DrawerOk(s, h.drawer)
    && (forall p, q :: p in h.inserter && q in h.inserter && h.inserter[p] == h.inserter[q] ==> p == q)
    && (forall pid :: PaymentDrawn(s.db, s.threads, h.drawer, h.inserter, pid))
    && (forall t :: t in s.threads ==> ThreadDrawn(h.drawer, h.inserter, t, s.threads[t]))
  }

  ghost function Inserted(db: Db, inserter: map<Id, Id>, w: Write, t: Id): map<Id, Id> {
    if w.NewPayment? && Attempt(db, w).Ok? then inserter[w.pid := t] else inserter
  }

  lemma TrackDraws(h: Hist, s: Sys, l: Label, w: Write)
    ensures TrackBy(h, s, l, w).drawer == if Draws(s, l) then h.drawer[l.t := s.draws + 1] else h.drawer
    ensures TrackBy(h, s, l, w).inserter == Inserted(s.db, h.inserter, w, l.t)
  {
  }

  lemma NumberOfDraw(draws: nat)
    ensures NextNumber(draws % WORD) == (draws + 1) % WORD
  {
  }

  lemma StepDrawer(env: Env, s: Sys, h: Hist, l: Label)
    requires DrawerOk(s, h.drawer)
    ensures DrawerOk(Apply(env, s, l), Track(env, h, s, l).drawer)
  {
    var s' := Apply(env, s, l);
    StepShape(env, s, l);
    StepCounter(env, s, l);
    NumberOfDraw(s.draws);
    TrackDraws(h, s, l, WriteOf(env, s, l));
    if Enabled(s, l) {
      StepFollows(env, s, l);
      if Draws(s, l) {
        NewDrawer(s, h.drawer, l.t, s');
      } else {
        SameDrawers(s, h.drawer, l.t, s');
      }
    }
  }

  lemma NewDrawer(s: Sys, drawer: map<Id, nat>, t: Id, s': Sys)
    requires DrawerOk(s, drawer) && s'.draws == s.draws + 1 && s'.counter == (s.draws + 1) % WORD
    requires t in s'.threads && s'.threads == s.threads[t := s'.threads[t]] && s'.threads[t].PayInsert?
    ensures DrawerOk(s', drawer[t := s.draws + 1])
  {
  }

  lemma SameDrawers(s: Sys, drawer: map<Id, nat>, t: Id, s': Sys)
    requires DrawerOk(s, drawer) && s'.draws == s.draws && s'.counter == s.counter
    requires t in s'.threads && s'.threads == s.threads[t := s'.threads[t]]
    requires t in drawer ==> !s'.threads[t].PayRead? && !s'.threads[t].PayDraw?
    ensures DrawerOk(s', drawer)
  {
  }

  lemma PaymentStepDrawn(s: Sys, h: Hist, t: Id, w: Write, drawer': map<Id, nat>, threads': Threads, pid: Id)
    requires PaymentDrawn(s.db, s.threads, h.drawer, h.inserter, pid) && RowsKnown(s.db) && Fresh(s.db, w)
    requires h.drawer.Keys <= drawer'.Keys && (forall u :: u in h.drawer ==> drawer'[u] == h.drawer[u])
    requires w.NewPayment? && Attempt(s.db, w).Ok? ==> t in drawer' && w.reference == Nth(drawer'[t])
    requires forall u :: u in s.threads && u != t ==> u in threads' && threads'[u] == s.threads[u]
    requires t in threads' && (threads'[t].PayInsert? ==> t !in h.drawer)
    requires w.NewPayment? ==> !threads'[t].PayInsert?
    ensures PaymentDrawn(Effect(s.db, w), threads', drawer', Inserted(s.db, h.inserter, w, t), pid)
  {
    EffectGrows(s.db, w);
    var db' := Effect(s.db, w);
    if pid in db'.payments && pid !in s.db.payments {
      assert pid !in s.db.used;
      assert w.NewPayment? && w.pid == pid;
    }
  }

  lemma WriteDrawn(env: Env, s: Sys, h: Hist, l: Label)
    requires Drawn(s, h) && Enabled(s, l)
    ensures var w := WriteOf(env, s, l); w.NewPayment? ==>
      l.t in h.drawer && w.reference == Nth(h.drawer[l.t]) && s.threads[l.t].PayInsert?
  {
    if l.Advance? { assert ThreadDrawn(h.drawer, h.inserter, l.t, s.threads[l.t]); }
  }

  lemma OwnDrawn(env: Env, s: Sys, h: Hist, t: Id, input: Input, th': Thread)
    requires Drawn(s, h) && Enabled(s, Advance(t, input))
    requires Follows(env, s.db, s.threads[t], input, th')
    ensures var th := s.threads[t]; var w := ThreadWrite(th, input);
      var drawer' := if th.PayDraw? then h.drawer[t := s.draws + 1] else h.drawer;
      ThreadDrawn(drawer', Inserted(s.db, h.inserter, w, t), t, th')
  {
    assert ThreadDrawn(h.drawer, h.inserter, t, s.threads[t]);
    if s.threads[t].PayInsert? {
      InsertDrawn(env, s, h, t, input, th');
    } else {
      NumberOfDraw(s.draws);
    }
  }

  lemma InsertDrawn(env: Env, s: Sys, h: Hist, t: Id, input: Input, th': Thread)
    requires t in s.threads && s.threads[t].PayInsert? && Follows(env, s.db, s.threads[t], input, th')
    requires ThreadDrawn(h.drawer, h.inserter, t, s.threads[t])
    ensures ThreadDrawn(h.drawer, Inserted(s.db, h.inserter, ThreadWrite(s.threads[t], input), t), t, th')
  {
  }

  lemma FrameDrawn(s: Sys, h: Hist, t: Id, w: Write, drawer': map<Id, nat>, u: Id)
    requires Drawn(s, h) && Fresh(s.db, w) && u in s.threads && u != t
    requires h.drawer.Keys <= drawer'.Keys && (forall v :: v in h.drawer ==> drawer'[v] == h.drawer[v])
    ensures ThreadDrawn(drawer', Inserted(s.db, h.inserter, w, t), u, s.threads[u])
  {
    assert ThreadDrawn(h.drawer, h.inserter, u, s.threads[u]);
    if w.NewPayment? { assert PaymentDrawn(s.db, s.threads, h.drawer, h.inserter, w.pid); }
  }

  lemma PaymentsStepDrawn(env: Env, s: Sys, h: Hist, l: Label)
    requires Known(s) && Drawn(s, h) && Enabled(s, l)
    ensures var s' := Apply(env, s, l); var h' := Track(env, h, s, l);
      forall pid :: PaymentDrawn(s'.db, s'.threads, h'.drawer, h'.inserter, pid)
  {
    var s' := Apply(env, s, l);
    var w := WriteOf(env, s, l);
    StepShape(env, s, l);
    TrackDraws(h, s, l, w);
    StepFollows(env, s, l);
    WriteDrawn(env, s, h, l);
    var drawer' := Track(env, h, s, l).drawer;
    forall pid ensures PaymentDrawn(s'.db, s'.threads, drawer', Inserted(s.db, h.inserter, w, l.t), pid) {
      assert PaymentDrawn(s.db, s.threads, h.drawer, h.inserter, pid);
      PaymentStepDrawn(s, h, l.t, w, drawer', s'.threads, pid);
    }
  }

  lemma ThreadsStepDrawn(env: Env, s: Sys, h: Hist, l: Label)
    requires Known(s) && Drawn(s, h) && Enabled(s, l)
    ensures var s' := Apply(env, s, l); var h' := Track(env, h, s, l);
      forall u :: u in s'.threads ==> ThreadDrawn(h'.drawer, h'.inserter, u, s'.threads[u])
  {
    var s' := Apply(env, s, l);
    var w := WriteOf(env, s, l);
    StepShape(env, s, l);
    TrackDraws(h, s, l, w);
    StepFollows(env, s, l);
    var drawer' := Track(env, h, s, l).drawer;
    forall u | u in s'.threads ensures ThreadDrawn(drawer', Inserted(s.db, h.inserter, w, l.t), u, s'.threads[u]) {
      if u != l.t {
        assert DrawerOk(s, h.drawer);
        FrameDrawn(s, h, l.t, w, drawer', u);
      } else if l.Advance? {
        OwnDrawn(env, s, h, u, l.input, s'.threads[u]);
      }
    }
  }

  lemma StepDrawn(env: Env, s: Sys, h: Hist, l: Label)
    requires Known(s) && Drawn(s, h)
    ensures Drawn(Apply(env, s, l), Track(env, h, s, l))
  {
    var s' := Apply(env, s, l);
    var w := WriteOf(env, s, l);
    StepShape(env, s, l);
    TrackDraws(h, s, l, w);
    StepDrawer(env, s, h, l);
    if Enabled(s, l) {
      WriteDrawn(env, s, h, l);
      PaymentsStepDrawn(env, s, h, l);
      ThreadsStepDrawn(env, s, h, l);
      InsertersDistinct(s, h, l.t, w);
    }
  }

  lemma InsertersDistinct(s: Sys, h: Hist, t: Id, w: Write)
    requires Drawn(s, h) && Fresh(s.db, w)
    requires w.NewPayment? ==> t in s.threads && s.threads[t].PayInsert?
    ensures var inserter' := Inserted(s.db, h.inserter, w, t);
      forall p, q :: p in inserter' && q in inserter' && inserter'[p] == inserter'[q] ==> p == q
  {
    if w.NewPayment? {
      forall p | p in h.inserter ensures h.inserter[p] != t {
        assert PaymentDrawn(s.db, s.threads, h.drawer, h.inserter, p);
      }
    }
  }

  lemma {:induction false} RunDrawn(env: Env, users: set<Id>, ls: seq<Label>)
    ensures Drawn(Exec(env, Init(users), ls), HistOf(env, Init(users), NO_HISTORY, ls))
  {
    if ls != [] {
      var front := ls[..|ls| - 1];
      RunDrawn(env, users, front);
      RunKnown(env, users, front);
      StepDrawn(env, Exec(env, Init(users), front), HistOf(env, Init(users), NO_HISTORY, front), ls[|ls| - 1]);
    }
  }

  // ----- Main result -----

  ghost predicate DistinctReferences(db: Db) {
    forall p, q :: p in db.payments && q in db.payments && db.payments[p].reference == db.payments[q].reference ==>
      p == q
  }

  lemma DrawnDistinct(s: Sys, h: Hist)
    requires Drawn(s, h) && s.draws <= WORD
    ensures DistinctReferences(s.db)
  {
    forall p, q | p in s.db.payments && q in s.db.payments && s.db.payments[p].reference == s.db.payments[q].reference
      ensures p == q
    {
      assert PaymentDrawn(s.db, s.threads, h.drawer, h.inserter, p);
      assert PaymentDrawn(s.db, s.threads, h.drawer, h.inserter, q);
      NthInjective(h.drawer[h.inserter[p]], h.drawer[h.inserter[q]]);
    }
  }

  /** Two gateway calls get the same reference exactly when a whole cycle of the counter lies between them. */
  lemma NthInjective(j: nat, k: nat)
    ensures Nth(j) == Nth(k) <==> j % WORD == k % WORD
    ensures 1 <= j <= WORD && 1 <= k <= WORD && Nth(j) == Nth(k) ==> j == k
  {
    ReferenceInjective(j % WORD, k % WORD);
  }

  /** In every run with at most 2^64 gateway calls, stored references are pairwise distinct. */
  lemma ReferencesDistinct(env: Env, users: set<Id>, ls: seq<Label>)
    requires Exec(env, Init(users), ls).draws <= WORD
    ensures DistinctReferences(Exec(env, Init(users), ls).db)
  {
    RunDrawn(env, users, ls);
    DrawnDistinct(Exec(env, Init(users), ls), HistOf(env, Init(users), NO_HISTORY, ls));
  }
}
