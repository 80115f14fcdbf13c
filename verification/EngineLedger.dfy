/** Which request a notifications/cancelled reaches. */
module EngineLedger {
  import opened Tasks
  import opened Ledger
  import opened Engine
  import opened EngineBooks
  import opened EngineLaws
  import EngineShutdown

  /** No two unfinished tools/call requests share a key. */
  ghost predicate Distinct(s: Eng) {
    forall m, n :: Held(s, m) && Held(s, n) && KeyFor(s.jobs, m) == KeyFor(s.jobs, n) ==> m == n
  }

  ghost predicate DistinctRun(s: Eng, es: seq<Event>)
    decreases |es|
  {
    Distinct(s) && (es == [] || (Enabled(s, es[0]) && DistinctRun(Next(s, es[0]), es[1..])))
  }

  ghost predicate Finds(pending: map<string, nat>, key: Option<string>, n: nat) {
    key.Some? && key.value in pending && pending[key.value] == n
  }

  /** Every unfinished entered request is found under its key, unless it was already hit. */
  ghost predicate Findable(s: Eng) {
    forall n :: Held(s, n) ==> n in s.hits || Finds(s.pending, KeyFor(s.jobs, n), n)
  }

  lemma HeldBefore(s: Eng, e: Event, n: nat)
    requires Enabled(s, e) && Placed(s) && Held(Next(s, e), n) && !(e.Register? && n == s.recv.n)
    ensures Held(s, n) && KeyFor(Next(s, e).jobs, n) == KeyFor(s.jobs, n)
    ensures !(e.Unregister? && s.runners[e.r].n == n)
  {
    hide Books;
    BooksOf(s);
    if n < |s.jobs| {
      PlaceOf(s, n);
    }
    if MovesOn(e) {
      HeldBeforeMove(s, e, n);
    } else if e.IsRecvStep() {
      if s.recv.HasJob() {
        PlaceOf(s, s.recv.n);
      }
      HeldBeforeRecv(s, e, n);
    } else if e.Take? {
      PlaceOf(s, s.queue[0]);
    }
  }

  lemma HeldBeforeMove(s: Eng, e: Event, n: nat)
    requires Enabled(s, e) && MovesOn(e) && Held(Next(s, e), n)
    ensures Held(s, n) && KeyFor(Next(s, e).jobs, n) == KeyFor(s.jobs, n)
    ensures !(e.Unregister? && s.runners[e.r].n == n && s.at[n] == AtRunner(e.r))
  {
    hide Revoked, Cleared;
  }

  lemma HeldBeforeRecv(s: Eng, e: Event, n: nat)
    requires Enabled(s, e) && e.IsRecvStep() && Held(Next(s, e), n) && !(e.Register? && n == s.recv.n)
    requires |s.at| == |s.jobs| && (s.recv.HasJob() ==> s.recv.n < |s.at| && s.at[s.recv.n] == AtRecv)
    requires |s.runners| > 0 && (s.recv.Serving? <==> s.runners[0].IsBusy())
    ensures Held(s, n) && KeyFor(Next(s, e).jobs, n) == KeyFor(s.jobs, n)
  {
    hide Enrolled;
  }

  /** What one step can do to the entry of a request that stays held. */
  lemma EntryKept(s: Eng, e: Event, n: nat)
    requires Enabled(s, e) && Placed(s) && Held(s, n) && Finds(s.pending, KeyFor(s.jobs, n), n)
    requires e.Register? ==> KeyFor(s.jobs, s.recv.n) != KeyFor(s.jobs, n)
    requires e.Unregister? ==> KeyFor(s.jobs, s.runners[e.r].n) != KeyFor(s.jobs, n)
    ensures n in Next(s, e).hits || Finds(Next(s, e).pending, KeyFor(s.jobs, n), n)
  {
    hide Books, Held;
    BooksOf(s);
    if e.Unregister? {
      BusyNeeds(s, e.r);
    }
  }

  lemma HitsGrow(s: Eng, e: Event)
    requires Enabled(s, e)
    ensures s.hits <= Next(s, e).hits
  {
    hide Enrolled, Revoked, Cleared;
  }

  lemma RegisterEnters(s: Eng, e: Event)
    requires Enabled(s, e) && Placed(s) && e.Register?
    ensures var t, n := Next(s, e), s.recv.n;
            Held(t, n) && t.jobs == s.jobs && Finds(t.pending, KeyFor(t.jobs, n), n)
  {
    hide Books;
    BooksOf(s);
    PlaceOf(s, s.recv.n);
  }

  lemma UnregisterHeld(s: Eng, e: Event)
    requires Enabled(s, e) && Placed(s) && e.Unregister?
    ensures Held(s, s.runners[e.r].n)
  {
    hide Books;
    BooksOf(s);
    BusyNeeds(s, e.r);
    PlaceOf(s, s.runners[e.r].n);
  }

  lemma FindableStep(s: Eng, e: Event)
    requires Enabled(s, e) && Placed(s) && Findable(s) && Distinct(s) && Distinct(Next(s, e))
    ensures Findable(Next(s, e))
  {
    hide Placed, Held, Enabled, Next, Finds, Distinct;
    var t := Next(s, e);
    forall n | Held(t, n)
      ensures n in t.hits || Finds(t.pending, KeyFor(t.jobs, n), n)
    {
      FindableKept(s, e, n);
    }
  }

  lemma FindableKept(s: Eng, e: Event, n: nat)
    requires Enabled(s, e) && Placed(s) && Findable(s) && Distinct(s) && Distinct(Next(s, e)) && Held(Next(s, e), n)
    ensures var t := Next(s, e); n in t.hits || Finds(t.pending, KeyFor(t.jobs, n), n)
  {
    hide Placed, Held, Next, Finds;
    if e.Register? {
      RegisterEnters(s, e);
    }
    if e.Unregister? {
      UnregisterHeld(s, e);
    }
    HitsGrow(s, e);
    if !(e.Register? && n == s.recv.n) {
      HeldBefore(s, e, n);
      if n !in s.hits {
        EntryKept(s, e, n);
      }
    }
  }

  lemma {:induction false} RunFindable(s: Eng, es: seq<Event>)
    requires Inv(s) && Findable(s) && DistinctRun(s, es)
    ensures IsRun(s, es) && Inv(After(s, es)) && Findable(After(s, es)) && Distinct(After(s, es))
    decreases |es|
  {
    hide Inv, Findable, Distinct, Enabled, Next;
    if es != [] {
      EngineShutdown.PlacedOf(s);
      InvStep(s, es[0]);
      DistinctHere(Next(s, es[0]), es[1..]);
      FindableStep(s, es[0]);
      RunFindable(Next(s, es[0]), es[1..]);
    }
  }

  lemma DistinctHere(s: Eng, es: seq<Event>)
    requires DistinctRun(s, es)
    ensures Distinct(s)
  {
    hide Distinct, Enabled, Next;
  }

  /** With distinct keys throughout, a cancel notification for an unfinished request that was not
      already hit finds exactly that request, and its next step cancels that request's context. */
  lemma CancelHitsTheRequest(s0: Eng, c: Config, es: seq<Event>, r: nat, n: nat)
    requires Initial(s0, c) && DistinctRun(s0, es)
    requires IsRun(s0, es) && var s := After(s0, es);
             && Enabled(s, Return(r)) && s.jobs[s.runners[r].n].CancelNote?
             && Held(s, n) && n !in s.hits && KeyFor(s.jobs, n) == Key(s.jobs[s.runners[r].n].target)
    ensures var t := Next(After(s0, es), Return(r));
            && t.runners[r].Firing? && t.runners[r].hit == n
            && Enabled(t, FireHit(r)) && n in Next(t, FireHit(r)).cancelled
  {
    hide DistinctRun, IsRun, After, Inv, Held, Distinct;
    InitialInv(s0, c);
    NothingHeld(s0, c);
    RunFindable(s0, es);
  }

  lemma NothingHeld(s: Eng, c: Config)
    requires Initial(s, c)
    ensures forall n :: !Held(s, n)
  {
  }

  /** Whatever ids the clients use, a cancel notification fires only an unfinished tools/call with the
      key it names, and if there is none it changes nothing. */
  lemma CancelHitsOnlyThatKey(s0: Eng, c: Config, es: seq<Event>, r: nat)
    requires Initial(s0, c) && IsRun(s0, es)
    requires var s := After(s0, es); Enabled(s, Return(r)) && s.jobs[s.runners[r].n].CancelNote?
    ensures var s := After(s0, es);
            var t, key := Next(s, Return(r)), Key(s.jobs[s.runners[r].n].target);
            && (t.runners[r].Firing? ==> Held(s, t.runners[r].hit) && KeyFor(s.jobs, t.runners[r].hit) == key)
            && ((forall n :: Held(s, n) ==> KeyFor(s.jobs, n) != key) ==>
                  t == WithRunner(s, r, Uncounting(s.runners[r].n)))
  {
    hide IsRun, After, Initial, Placed, Accounts, Held;
    InitialInv(s0, c);
    RunKeepsInv(s0, es);
    var s := After(s0, es);
    var key := Key(s.jobs[s.runners[r].n].target);
    if key.Some? && key.value !in s.pending {
      assert s.pending - {key.value} == s.pending;
    }
  }

  /** The ledger never leaks, duplicate ids included: in every reachable state its keys are keys of
      unfinished tools/call requests, so whenever none is held it is empty, long before Run returns. */
  lemma IdleLedgerIsEmpty(s0: Eng, c: Config, es: seq<Event>)
    requires Initial(s0, c) && IsRun(s0, es)
    ensures var s := After(s0, es);
            && (forall key :: key in s.pending ==>
                  Held(s, s.pending[key]) && KeyFor(s.jobs, s.pending[key]) == Some(key))
            && ((forall n :: !Held(s, n)) ==> s.pending == map[])
  {
    hide IsRun, After, Initial, Placed, Accounts, Held;
    InitialInv(s0, c);
    RunKeepsInv(s0, es);
    var s := After(s0, es);
    assert forall key :: key in s.pending ==> EntryOk(s, key, s.pending[key]);
    if forall n :: !Held(s, n) {
      assert forall key :: key !in s.pending;
    }
  }

  /** Done removes by key, not by owner: it leaves every other request's entry in place exactly when
      the entry under its key is its own or absent. */
  lemma DoneKeepsOthersIff(s: Eng, r: nat)
    requires Placed(s) && LedgerOk(s) && Enabled(s, Unregister(r))
    ensures var t, n := Next(s, Unregister(r)), s.runners[r].n;
            (forall m :: m != n && Held(s, m) && Finds(s.pending, KeyFor(s.jobs, m), m) ==>
                Finds(t.pending, KeyFor(s.jobs, m), m))
            <==> (Finds(s.pending, KeyFor(s.jobs, n), n) || KeyFor(s.jobs, n).value !in s.pending)
  {
    hide Placed, Held;
    BusyNeeds(s, r);
    var n := s.runners[r].n;
    var key := KeyFor(s.jobs, n).value;
    if key in s.pending {
      assert EntryOk(s, key, s.pending[key]);
    }
  }

  // ---------- a concrete run with a duplicate id ----------

  lemma {:induction false} RunConcat(s: Eng, a: seq<Event>, b: seq<Event>)
    requires IsRun(s, a) && IsRun(After(s, a), b)
    ensures IsRun(s, a + b) && After(s, a + b) == After(After(s, a), b)
    decreases |a|
  {
    hide Enabled, Next;
    if a == [] {
      assert a + b == b;
    } else {
      RunConcat(Next(s, a[0]), a[1..], b);
      assert (a + b)[1..] == a[1..] + b;
    }
  }

  lemma RunOne(s: Eng, e: Event)
    requires Enabled(s, e)
    ensures IsRun(s, [e]) && After(s, [e]) == Next(s, e)
  {
    hide Enabled, Next;
    assert [e][1..] == [];
    assert After(Next(s, e), []) == Next(s, e);
  }

  lemma RunTwo(s: Eng, e: Event, f: Event)
    requires Enabled(s, e) && Enabled(Next(s, e), f)
    ensures IsRun(s, [e, f]) && After(s, [e, f]) == Next(Next(s, e), f)
  {
    hide Enabled, Next;
    RunOne(s, e);
    RunOne(Next(s, e), f);
    RunConcat(s, [e], [f]);
    assert [e] + [f] == [e, f];
  }

  /** Everything the receive loop does with one tools/call that fits the queue. */
  function Admission(id: RequestID): seq<Event> {
    [Read(Call(id)), Register] + [FirePrev, Reserve] + [Count, Offer]
  }

  function Admitted(s: Eng, id: RequestID): Eng
    requires !id.Null?
  {
    var n, prev := |s.jobs|, Found(s.pending, id.text);
    s.(jobs := s.jobs + [Call(id)], at := s.at + [AtQueue], queue := s.queue + [n], pending := s.pending[id.text := n],
       cancelled := if prev.Some? then s.cancelled + {prev.value} else s.cancelled, wg := s.wg + 1,
             gauge := s.gauge + 1)
  }

  lemma Admits(s: Eng, id: RequestID)
    requires s.recv.Reading? && |s.queue| < s.cap && |s.at| == |s.jobs| && |s.runners| > 0 && !id.Null?
    ensures IsRun(s, Admission(id)) && After(s, Admission(id)) == Admitted(s, id)
  {
    var s1 := Next(s, Read(Call(id)));
    RunTwo(s, Read(Call(id)), Register);
    var s2 := Next(s1, Register);
    RunTwo(s2, FirePrev, Reserve);
    var s4 := Next(Next(s2, FirePrev), Reserve);
    RunTwo(s4, Count, Offer);
    assert Next(Next(s4, Count), Offer) == Admitted(s, id);
    RunConcat(s, [Read(Call(id)), Register], [FirePrev, Reserve]);
    RunConcat(s, [Read(Call(id)), Register] + [FirePrev, Reserve], [Count, Offer]);
  }

  /** Two requests with one id: the second is admitted while the first executes, then the first one
      finishes. */
  function DuplicateRun(id: RequestID): seq<Event> {
    Admission(id) + [Take(1)] + Admission(id) + [Return(1), Unregister(1)]
  }

  /** It is possible from every initial state. The second registration cancels the first request, and the
      first one's Done takes the second one's entry: the second is still queued, was never hit, and no
      notification can reach it any more. */
  lemma DuplicateIdLosesCancel(s0: Eng, c: Config, id: RequestID)
    requires Initial(s0, c) && !id.Null?
    ensures IsRun(s0, DuplicateRun(id))
    ensures var s := After(s0, DuplicateRun(id));
            && Held(s, 1) && KeyFor(s.jobs, 1) == Key(id) && 1 !in s.hits
            && s.pending == map[] && s.cancelled == {0} && !Findable(s)
  {
    hide IsRun, After;
    Admits(s0, id);
    var s1 := Admitted(s0, id);
    RunOne(s1, Take(1));
    RunConcat(s0, Admission(id), [Take(1)]);
    var s2 := Next(s1, Take(1));
    Admits(s2, id);
    RunConcat(s0, Admission(id) + [Take(1)], Admission(id));
    var s3 := Admitted(s2, id);
    FirstFinishes(s3, id);
    RunConcat(s0, Admission(id) + [Take(1)] + Admission(id), [Return(1), Unregister(1)]);
  }

  lemma FirstFinishes(s: Eng, id: RequestID)
    requires !id.Null? && s.jobs == [Call(id), Call(id)] && s.at == [AtRunner(1), AtQueue]
             && s.pending == map[id.text := 1]
    requires |s.runners| > 1 && s.runners[1] == Executing(0) && s.hits == {} && s.cancelled == {0}
    ensures IsRun(s, [Return(1), Unregister(1)])
    ensures var t := After(s, [Return(1), Unregister(1)]);
            && Held(t, 1) && KeyFor(t.jobs, 1) == Key(id) && 1 !in t.hits
            && t.pending == map[] && t.cancelled == {0} && !Findable(t)
  {
    hide IsRun, After, Next, Enabled;
    FirstReturns(s, id);
    var u := WithRunner(s, 1, Unregistering(0));
    FirstUnregisters(u, id);
    RunTwo(s, Return(1), Unregister(1));
    var t := WithRunner(u, 1, Releasing(0)).(pending := map[]);
    assert Held(t, 1);
  }

  lemma FirstReturns(s: Eng, id: RequestID)
    requires !id.Null? && |s.jobs| == 2 && s.jobs[0] == Call(id) && |s.runners| > 1 && s.runners[1] == Executing(0)
    ensures Enabled(s, Return(1)) && Next(s, Return(1)) == WithRunner(s, 1, Unregistering(0))
  {
  }

  lemma FirstUnregisters(s: Eng, id: RequestID)
    requires !id.Null? && |s.jobs| == 2 && s.jobs[0] == Call(id) && s.pending == map[id.text := 1]
    requires |s.runners| > 1 && s.runners[1] == Unregistering(0)
    ensures Enabled(s, Unregister(1))
    ensures Next(s, Unregister(1)) == WithRunner(s, 1, Releasing(0)).(pending := map[])
  {
    assert s.pending - {id.text} == map[];
  }
}
