/**
 The mock payment gateway: a uint64 counter behind a mutex. The fine-grained steps of concurrent callers
 (lock, load, store, read, unlock) are shown to issue each number once, as one atomic draw would.
 */
module Gateway {
  import opened Domain
  import opened Numbering
  import opened Protocol

  class MockGateway {
    var locked: bool
    var counter: nat

    constructor ()
      ensures !locked && counter == 0
    {
      locked, counter := false, 0;
    }

    /** The sequential effect of one call: the next number, wrapping at 2^64, printed as a reference. */
    method CreatePayment() returns (reference: string)
      requires !locked
      modifies this
      ensures !locked
      ensures counter == NextNumber(old(counter))
      ensures reference == Reference(counter)
    {
      locked := true;
      counter := (counter + 1) % WORD;
      var n := counter;
      locked := false;
      reference := Reference(n);
    }
  }

  // ----- Concurrent callers -----

  datatype Caller =
    | Waiting                 // before g.mu.Lock()
    | Locked                  // inside, before g.counter++
    | Loaded(value: nat)      // counter loaded, not yet stored back
    | Stored                  // incremented, before n := g.counter
    | Read(n: nat)            // before g.mu.Unlock()
    | Returned(n: nat)

  datatype Gate = Gate(holder: Option<Id>, counter: nat, stores: nat, callers: map<Id, Caller>)

  const IDLE: Gate := Gate(None, 0, 0, map[])

  /** One scheduling decision: caller t takes its next step if it can; an unknown t arrives. */
  function Move(g: Gate, t: Id): Gate {
    if t !in g.callers then g.(callers := g.callers[t := Waiting])
    else match g.callers[t]
      case Waiting => if g.holder.None? then g.(holder := Some(t), callers := g.callers[t := Locked]) else g
      case Locked => g.(callers := g.callers[t := Loaded(g.counter)])
      case Loaded(x) => g.(counter := (x + 1) % WORD, stores := g.stores + 1, callers := g.callers[t := Stored])
      case Stored => g.(callers := g.callers[t := Read(g.counter)])
      case Read(n) => g.(holder := None, callers := g.callers[t := Returned(n)])
      case Returned(_) => g
  }

  function Schedule(ts: seq<Id>): Gate {
    if ts == [] then IDLE else Move(Schedule(ts[..|ts| - 1]), ts[|ts| - 1])
  }

  predicate Inside(c: Caller) {
    c.Locked? || c.Loaded? || c.Stored? || c.Read?
  }

  predicate Holds(g: Gate, t: Id, n: nat) {
    t in g.callers && (g.callers[t] == Read(n) || g.callers[t] == Returned(n))
  }

  /** The number t was given, or is about to read. */
  predicate Given(g: Gate, t: Id, n: nat) {
    Holds(g, t, n) || (t in g.callers && g.callers[t].Stored? && n == g.counter)
  }

  ghost predicate Assigned(g: Gate, n: nat) {
    exists t :: Given(g, t, n)
  }

  ghost predicate HandedOut(g: Gate, n: nat) {
    exists t :: Holds(g, t, n)
  }

  ghost predicate Exclusive(g: Gate) {
    && g.counter == g.stores % WORD
    && (forall t :: t in g.callers && Inside(g.callers[t]) ==> g.holder == Some(t))
    && (g.holder.Some? ==> g.holder.value in g.callers && Inside(g.callers[g.holder.value]))
    && (forall t :: t in g.callers && g.callers[t].Loaded? ==> g.callers[t].value == g.counter)
  }

  ghost predicate Numbered(g: Gate) {
    && (forall t: Id, n: nat :: Given(g, t, n) ==> 1 <= n <= g.counter)
    && (forall t: Id, u: Id, n: nat :: Given(g, t, n) && Given(g, u, n) ==> t == u)
    && (forall n: nat :: 1 <= n <= g.counter ==> Assigned(g, n))
  }

  lemma MoveExclusive(g: Gate, t: Id)
    requires Exclusive(g)
    ensures Exclusive(Move(g, t))
  {
  }

  lemma MoveNumbered(g: Gate, t: Id)
    requires Exclusive(g) && Numbered(g) && Move(g, t).stores < WORD
    ensures Numbered(Move(g, t))
  {
    var g' := Move(g, t);
    var stored := t in g.callers && g.callers[t].Loaded?;
    forall u: Id, n: nat ensures Given(g', u, n) <==> Given(g, u, n) || (stored && u == t && n == g'.counter) {}
    forall n: nat | 1 <= n <= g'.counter ensures Assigned(g', n) {
      if stored && n == g'.counter {
        assert Given(g', t, n);
      } else {
        assert Assigned(g, n);
        var u :| Given(g, u, n);
        assert Given(g', u, n);
      }
    }
  }

  lemma {:induction false} ScheduleOk(ts: seq<Id>)
    ensures Exclusive(Schedule(ts))
    ensures Schedule(ts).stores < WORD ==> Numbered(Schedule(ts))
  {
    if ts != [] {
      ScheduleOk(ts[..|ts| - 1]);
      MoveExclusive(Schedule(ts[..|ts| - 1]), ts[|ts| - 1]);
      if Schedule(ts).stores < WORD {
        MoveNumbered(Schedule(ts[..|ts| - 1]), ts[|ts| - 1]);
      }
    }
  }

  /**
   Under every schedule with fewer than 2^64 increments, no two callers hold the same number, and whenever
   the mutex is free the numbers handed out are exactly 1 to counter.
   */
  lemma NumbersIssuedOnce(ts: seq<Id>)
    requires Schedule(ts).stores < WORD
    ensures var g := Schedule(ts);
      && (forall t: Id, u: Id, n: nat :: Holds(g, t, n) && Holds(g, u, n) ==> t == u)
      && (g.holder.None? ==> forall n: nat :: HandedOut(g, n) <==> 1 <= n <= g.counter)
  {
    ScheduleOk(ts);
    var g := Schedule(ts);
    forall t: Id, u: Id, n: nat | Holds(g, t, n) && Holds(g, u, n) ensures t == u {
      assert Given(g, t, n) && Given(g, u, n);
    }
    if g.holder.None? {
      forall n: nat ensures HandedOut(g, n) <==> 1 <= n <= g.counter {
        if 1 <= n <= g.counter {
          assert Assigned(g, n);
          var t :| Given(g, t, n);
          assert Holds(g, t, n);
        }
        if t :| Holds(g, t, n) { assert Given(g, t, n); }
      }
    }
  }

  /**
   The mutex makes a call atomic: the shared counter moves only as one whole draw of the protocol moves it,
   the caller that moved it reads exactly that number, and nobody moves it in between.
   */
  lemma CallIsAtomicDraw(ts: seq<Id>, t: Id)
    ensures var g := Schedule(ts); var g' := Schedule(ts + [t]);
      && (if t in g.callers && g.callers[t].Loaded? then
            g'.counter == NextNumber(g.counter) && g'.stores == g.stores + 1
          else g'.counter == g.counter && g'.stores == g.stores)
      && (t in g.callers && g.callers[t].Stored? ==> Holds(g', t, g.counter))
      && (forall u :: u in g.callers && g.callers[u].Stored? && u != t ==> g'.counter == g.counter)
      && g.counter == g.stores % WORD
  {
    ScheduleOk(ts);
    assert (ts + [t])[..|ts|] == ts;
  }
}
