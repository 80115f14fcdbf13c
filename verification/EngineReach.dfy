/** When the ledger loses a request: over every run, whatever ids the clients use, each unfinished request
    can be cancelled, has been, or is about to be, exactly as long as no Done takes another one's entry
    (internal/protocol/cancellation.go:63-107, internal/server/server.go:385-460). */
module EngineReach {
  import opened Tasks
  import opened Ledger
  import opened Engine
  import opened EngineBooks
  import opened EngineLaws
  import opened EngineLedger
  import EngineShutdown

  /** A cancel notification found n, its context is cancelled, or the Register that displaced its entry is
      about to cancel it. */
  ghost predicate Reached(s: Eng, n: nat) {
    n in s.hits || n in s.cancelled || (s.recv.Replacing? && s.recv.prev == Some(n))
  }

  /** Every unfinished entered request was reached or is found under its key. */
  ghost predicate Reachable(s: Eng) {
    forall n :: Held(s, n) ==> Reached(s, n) || Finds(s.pending, KeyFor(s.jobs, n), n)
  }

  ghost predicate AlwaysReachable(s: Eng, es: seq<Event>)
    requires IsRun(s, es)
    decreases |es|
  {
    Reachable(s) && (es == [] || AlwaysReachable(Next(s, es[0]), es[1..]))
  }

  /** The entry this Done would remove is its own, if there is one. */
  ghost predicate OwnDone(s: Eng, e: Event) {
    e.Unregister? && e.r < |s.runners| && s.runners[e.r].Unregistering? ==>
      var n := s.runners[e.r].n;
      var key := KeyFor(s.jobs, n);
      Finds(s.pending, key, n) || (key.Some? ==> key.value !in s.pending)
  }

  ghost predicate DonesAreOwn(s: Eng, es: seq<Event>)
    requires IsRun(s, es)
    decreases |es|
  {
    es == [] || (OwnDone(s, es[0]) && DonesAreOwn(Next(s, es[0]), es[1..]))
  }

  /** Nothing with an entry was reached, and nothing was reached before it was entered. */
  ghost predicate Marks(s: Eng) {
    && (forall n: nat :: Reached(s, n) ==> n < |s.jobs| && !(s.recv.Registering? && s.recv.n == n))
    && (forall r :: 0 <= r < |s.runners| && s.runners[r].Firing? ==> s.runners[r].hit in s.hits)
    && (forall key :: key in s.pending ==> !Reached(s, s.pending[key]))
  }

  /** What one step newly reaches was found in the ledger, or has left it. */
  lemma NewlyReached(s: Eng, e: Event, n: nat)
    requires Enabled(s, e) && Placed(s) && LedgerOk(s) && Marks(s) && Reached(Next(s, e), n) && !Reached(s, n)
    ensures n < |s.jobs| && !(s.recv.Registering? && s.recv.n == n)
    ensures (Held(s, n) && KeyFor(s.jobs, n).Some? && Finds(s.pending, KeyFor(s.jobs, n), n)
             && !Finds(Next(s, e).pending, KeyFor(s.jobs, n), n)) || (e.Release? && !Held(s, n))
  {
    hide Books, Held;
    BooksOf(s);
    if e.Release? {
      PlaceOf(s, n);
      ReleasedNotHeld(s, e.r);
    } else if e.Register? {
      assert EntryOk(s, s.jobs[s.recv.n].id.text, n);
      RegisteringNotHeld(s);
    } else if e.Return? {
      var key := s.jobs[s.runners[e.r].n].target.text;
      assert EntryOk(s, key, n);
      if s.recv.Registering? {
        RegisteringNotHeld(s);
      }
    }
  }

  lemma RegisteringNotHeld(s: Eng)
    requires Placed(s) && s.recv.Registering?
    ensures !Held(s, s.recv.n)
  {
    hide Books;
    BooksOf(s);
    PlaceOf(s, s.recv.n);
  }

  lemma ReleasedNotHeld(s: Eng, r: nat)
    requires Placed(s) && r < |s.runners| && s.runners[r].Releasing?
    ensures !Held(s, s.runners[r].n)
    ensures !(s.recv.HasJob() && s.recv.n == s.runners[r].n)
  {
    hide Books;
    BooksOf(s);
    PlaceOf(s, s.runners[r].n);
  }

  lemma MarksStep(s: Eng, e: Event)
    requires Enabled(s, e) && Placed(s) && LedgerOk(s) && Marks(s)
    ensures Marks(Next(s, e))
  {
    var t := Next(s, e);
    JobsGrow(s, e);
    FiringIsHit(s, e);
    forall n: nat | Reached(t, n)
      ensures n < |t.jobs| && !(t.recv.Registering? && t.recv.n == n)
    {
      hide Next, Placed, LedgerOk;
      if !Reached(s, n) {
        NewlyReached(s, e, n);
      }
    }
    forall key | key in t.pending
      ensures !Reached(t, t.pending[key])
    {
      EntryNotReached(s, e, key);
    }
  }

  lemma JobsGrow(s: Eng, e: Event)
    requires Enabled(s, e)
    ensures |s.jobs| <= |Next(s, e).jobs|
    ensures Next(s, e).recv.Registering? ==> Next(s, e).recv == s.recv || Next(s, e).recv.n == |s.jobs|
  {
    hide Enrolled, Revoked, Cleared;
  }

  lemma FiringIsHit(s: Eng, e: Event)
    requires Enabled(s, e) && Marks(s)
    ensures var t := Next(s, e);
            forall r :: 0 <= r < |t.runners| && t.runners[r].Firing? ==> t.runners[r].hit in t.hits
  {
    hide Enrolled, Revoked, Cleared, Reached;
  }

  lemma EntryNotReached(s: Eng, e: Event, key: string)
    requires Enabled(s, e) && Placed(s) && LedgerOk(s) && Marks(s) && key in Next(s, e).pending
    ensures !Reached(Next(s, e), Next(s, e).pending[key])
  {
    hide Placed, Held;
    var t := Next(s, e);
    var n := t.pending[key];
    LedgerEntries(s, e, key);
    if key in s.pending && s.pending[key] == n {
      assert EntryOk(s, key, n);
    } else {
      assert e.Register? && n == s.recv.n;
    }
    hide Next;
    if Reached(t, n) {
      NewlyReached(s, e, n);
    }
  }

  /** As long as Done removes its own entry or none, every unfinished request stays reachable. */
  lemma ReachableStep(s: Eng, e: Event)
    requires Enabled(s, e) && Placed(s) && Reachable(s) && OwnDone(s, e)
    ensures Reachable(Next(s, e))
  {
    hide Placed, Held, Next, Finds, Reached, OwnDone;
    var t := Next(s, e);
    forall n | Held(t, n)
      ensures Reached(t, n) || Finds(t.pending, KeyFor(t.jobs, n), n)
    {
      if e.Register? && n == s.recv.n {
        RegisterEnters(s, e);
      } else {
        HeldBefore(s, e, n);
        if Reached(s, n) {
          ReachedStays(s, e, n);
        } else {
          EntryStays(s, e, n);
        }
      }
    }
  }

  lemma ReachedStays(s: Eng, e: Event, n: nat)
    requires Enabled(s, e) && Placed(s) && Reached(s, n)
    ensures Reached(Next(s, e), n)
  {
    hide Books, Enrolled, Revoked, Cleared;
    BooksOf(s);
  }

  lemma EntryStays(s: Eng, e: Event, n: nat)
    requires Enabled(s, e) && Placed(s) && Finds(s.pending, KeyFor(s.jobs, n), n) && OwnDone(s, e)
    requires !(e.Unregister? && s.runners[e.r].n == n)
    ensures Reached(Next(s, e), n) || Finds(Next(s, e).pending, KeyFor(s.jobs, n), n)
  {
    hide Books;
    BooksOf(s);
    if e.Unregister? {
      BusyNeeds(s, e.r);
    }
  }

  /** A Done that takes another request's entry leaves that request unreachable. */
  lemma ForeignDoneLoses(s: Eng, e: Event)
    requires Enabled(s, e) && Placed(s) && LedgerOk(s) && Marks(s) && !OwnDone(s, e)
    ensures !Reachable(Next(s, e))
  {
    hide Placed, Held;
    var t, r := Next(s, e), e.r;
    BusyNeeds(s, r);
    var n := s.runners[r].n;
    var key := KeyFor(s.jobs, n).value;
    var other := s.pending[key];
    assert EntryOk(s, key, other);
    HeldKept(s, e, other);
    assert !Reached(t, other);
    assert Held(t, other) && !Finds(t.pending, KeyFor(t.jobs, other), other);
  }

  lemma {:induction false} RunReachableIff(s: Eng, es: seq<Event>)
    requires Inv(s) && Marks(s) && Reachable(s) && IsRun(s, es)
    ensures AlwaysReachable(s, es) <==> DonesAreOwn(s, es)
    decreases |es|
  {
    hide Inv, Marks, Reachable, OwnDone, Enabled, Next, Placed, LedgerOk;
    if es != [] {
      EngineShutdown.PlacedOf(s);
      if OwnDone(s, es[0]) {
        InvStep(s, es[0]);
        MarksStep(s, es[0]);
        ReachableStep(s, es[0]);
        RunReachableIff(Next(s, es[0]), es[1..]);
      } else {
        ForeignDoneLoses(s, es[0]);
        ReachableHere(Next(s, es[0]), es[1..]);
      }
    }
  }

  lemma ReachableHere(s: Eng, es: seq<Event>)
    requires IsRun(s, es) && !Reachable(s)
    ensures !AlwaysReachable(s, es)
  {
  }

  /** The exact condition over whole runs, whatever ids the clients use: after every step each unfinished
      request is found under its key, was hit, is cancelled or is about to be, if and only if no Done
      along the run removed another request's entry. */
  lemma AlwaysReachableIff(s0: Eng, c: Config, es: seq<Event>)
    requires Initial(s0, c) && IsRun(s0, es)
    ensures AlwaysReachable(s0, es) <==> DonesAreOwn(s0, es)
  {
    InitialInv(s0, c);
    NothingHeld(s0, c);
    NothingReached(s0, c);
    hide *;
    RunReachableIff(s0, es);
  }

  lemma DistinctIsOwn(s: Eng, e: Event)
    requires Enabled(s, e) && Placed(s) && LedgerOk(s) && Distinct(s)
    ensures OwnDone(s, e)
  {
    hide Placed, Held;
    if e.Unregister? {
      UnregisterHeld(s, e);
      BusyNeeds(s, e.r);
      var key := KeyFor(s.jobs, s.runners[e.r].n).value;
      if key in s.pending {
        assert EntryOk(s, key, s.pending[key]);
      }
    }
  }

  lemma {:induction false} DistinctRunIsOwn(s: Eng, es: seq<Event>)
    requires Inv(s) && IsRun(s, es) && DistinctRun(s, es)
    ensures DonesAreOwn(s, es)
    decreases |es|
  {
    hide Inv, Distinct, OwnDone, Enabled, Next, Placed, LedgerOk;
    if es != [] {
      EngineShutdown.PlacedOf(s);
      DistinctIsOwn(s, es[0]);
      InvStep(s, es[0]);
      DistinctRunIsOwn(Next(s, es[0]), es[1..]);
    }
  }

  /** In particular while unfinished requests have distinct keys. */
  lemma DistinctKeysSuffice(s0: Eng, c: Config, es: seq<Event>)
    requires Initial(s0, c) && IsRun(s0, es) && DistinctRun(s0, es)
    ensures AlwaysReachable(s0, es)
  {
    InitialInv(s0, c);
    hide *;
    DistinctRunIsOwn(s0, es);
    AlwaysReachableIff(s0, c, es);
  }

  lemma NothingReached(s: Eng, c: Config)
    requires Initial(s, c)
    ensures Marks(s) && Reachable(s)
  {
    NothingHeld(s, c);
  }
}
