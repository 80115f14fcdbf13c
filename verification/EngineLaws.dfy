/** What the engine guarantees in every run: nothing lost or repeated, exact accounting, bounded
    concurrency, a drain that ends, and a ledger that neither leaks nor mis-hits. */
module EngineLaws {
  import opened Collections
  import opened Tasks
  import opened Ledger
  import opened Engine
  import opened EngineBooks

  // ---------- counting ----------

  function CountOf(runners: seq<Runner>, f: Runner -> bool): nat {
    if runners == [] then 0
    else CountOf(runners[..|runners| - 1], f) + if f(runners[|runners| - 1]) then 1 else 0
  }

  lemma {:induction false} CountPut(runners: seq<Runner>, f: Runner -> bool, r: nat, k: Runner)
    requires r < |runners|
    ensures CountOf(runners[r := k], f) ==
            CountOf(runners, f) - (if f(runners[r]) then 1 else 0) + (if f(k) then 1 else 0)
    decreases |runners|
  {
    var p := runners[..|runners| - 1];
    if r == |runners| - 1 {
      assert runners[r := k][..|runners| - 1] == p;
    } else {
      assert runners[r := k][..|runners| - 1] == p[r := k];
      CountPut(p, f, r, k);
    }
  }

  lemma {:induction false} CountBound(runners: seq<Runner>, f: Runner -> bool)
    ensures CountOf(runners, f) <= |runners|
    ensures |runners| > 0 && !f(runners[0]) ==> CountOf(runners, f) <= |runners| - 1
    ensures (forall r :: 0 <= r < |runners| ==> !f(runners[r])) ==> CountOf(runners, f) == 0
    decreases |runners|
  {
    if runners != [] {
      CountBound(runners[..|runners| - 1], f);
    }
  }

  const BUSY: Runner -> bool := (k: Runner) => k.IsBusy()
  const COUNTED: Runner -> bool := (k: Runner) => k.IsCounted()
  const INCOMPLETE: Runner -> bool := (k: Runner) => k.IsIncomplete()

  /** The WaitGroup counts the jobs reserved and not yet left, the inflight gauge those queued or
      executing, and completed jobs plus jobs in hand are all jobs accepted. */
  ghost predicate Accounts(s: Eng) {
    && s.wg == |s.queue| + CountOf(s.runners, BUSY) + (if s.recv.IsReserved() then 1 else 0)
    && s.gauge == |s.queue| + CountOf(s.runners, COUNTED) + (if s.recv.Offering? then 1 else 0)
    && |s.jobs| == s.completed + |s.queue| + CountOf(s.runners, INCOMPLETE) + (if s.recv.HasJob() then 1 else 0)
  }

  lemma RunnersPut(s: Eng, r: nat, k: Runner)
    requires r < |s.runners|
    ensures CountOf(s.runners[r := k], BUSY) ==
            CountOf(s.runners, BUSY) - (if s.runners[r].IsBusy() then 1 else 0) + (if k.IsBusy() then 1 else 0)
    ensures CountOf(s.runners[r := k], COUNTED) ==
            CountOf(s.runners, COUNTED) - (if s.runners[r].IsCounted() then 1 else 0) + (if k.IsCounted() then 1 else 0)
    ensures CountOf(s.runners[r := k], INCOMPLETE) ==
            CountOf(s.runners, INCOMPLETE) - (if s.runners[r].IsIncomplete() then 1 else 0) +
                (if k.IsIncomplete() then 1 else 0)
  {
    CountPut(s.runners, BUSY, r, k);
    CountPut(s.runners, COUNTED, r, k);
    CountPut(s.runners, INCOMPLETE, r, k);
  }

  lemma AccountsRecv(s: Eng, e: Event)
    requires Enabled(s, e) && e.IsRecvStep() && Placed(s) && Accounts(s)
    ensures Accounts(Next(s, e))
  {
    hide Books, CountOf, Enrolled;
    BooksOf(s);
    if s.recv.HasJob() {
      RunnersPut(s, 0, Executing(s.recv.n));
    }
  }

  lemma AccountsRunner(s: Eng, e: Event)
    requires Enabled(s, e) && e.IsRunnerStep() && Accounts(s) && Placed(s)
    ensures Accounts(Next(s, e))
  {
    hide Books, CountOf;
    BooksOf(s);
    if MovesOn(e) {
      hide Next, Enabled;
      RunnerFrame(s, e);
      RunnerCounts(s, e);
      RunnersPut(s, e.r, Next(s, e).runners[e.r]);
    } else {
      RunnersPut(s, e.r, Next(s, e).runners[e.r]);
    }
  }

  /** How the counters follow the runner. */
  lemma RunnerCounts(s: Eng, e: Event)
    requires Enabled(s, e) && MovesOn(e)
    ensures var t, r := Next(s, e), e.r;
            && r < |t.runners|
            && t.gauge == s.gauge - (if s.runners[r].IsCounted() && !t.runners[r].IsCounted() then 1 else 0)
            && t.completed == s.completed +
                (if s.runners[r].IsIncomplete() && !t.runners[r].IsIncomplete() then 1 else 0)
            && (t.runners[r].IsCounted() ==> s.runners[r].IsCounted())
            && (t.runners[r].IsIncomplete() ==> s.runners[r].IsIncomplete())
  {
    hide Revoked, Cleared;
  }

  lemma AccountsStep(s: Eng, e: Event)
    requires Enabled(s, e) && Placed(s) && Accounts(s)
    ensures Accounts(Next(s, e))
  {
    hide Placed, CountOf;
    if e.IsRecvStep() {
      AccountsRecv(s, e);
    } else if e.IsRunnerStep() {
      AccountsRunner(s, e);
    }
  }

  // ---------- the ledger ----------

  /** Job n has been entered in the ledger and its Done has not run yet. */
  ghost predicate Held(s: Eng, n: nat) {
    && n < |s.jobs| && n < |s.at| && NeedsLedger(s.jobs[n])
    && match s.at[n]
       case AtRecv => s.recv.HasJob() && s.recv.n == n && !s.recv.Registering?
       case AtQueue => true
       case AtRunner(r) => r < |s.runners| && (s.runners[r] == Executing(n) || s.runners[r] == Unregistering(n))
       case Done => false
  }

  /** The key under which job n is entered, if it is entered at all. */
  function KeyFor(jobs: seq<Frame>, n: nat): Option<string> {
    if n < |jobs| && NeedsLedger(jobs[n]) then Key(jobs[n].id) else None
  }

  ghost predicate EntryOk(s: Eng, key: string, n: nat) {
    Held(s, n) && KeyFor(s.jobs, n) == Some(key)
  }

  /** Every entry belongs to an accepted, unfinished tools/call with that key. */
  ghost predicate LedgerOk(s: Eng) {
    forall key :: key in s.pending ==> EntryOk(s, key, s.pending[key])
  }

  lemma HeldKept(s: Eng, e: Event, n: nat)
    requires Enabled(s, e) && Placed(s) && Held(s, n) && !(e.Unregister? && s.runners[e.r].n == n)
    ensures Held(Next(s, e), n) && KeyFor(Next(s, e).jobs, n) == KeyFor(s.jobs, n)
  {
    hide Books;
    BooksOf(s);
    PlaceOf(s, n);
    if MovesOn(e) {
      HeldMoves(s, e, n);
    } else if e.IsRecvStep() {
      HeldRecv(s, e, n);
    }
  }

  lemma HeldRecv(s: Eng, e: Event, n: nat)
    requires Enabled(s, e) && e.IsRecvStep() && Held(s, n) && |s.at| == |s.jobs| && |s.runners| > 0
    requires PlaceOk(s.recv, s.queue, s.runners, s.executed, n, s.at[n]) && !s.runners[0].Exited?
    requires s.recv.Serving? <==> s.runners[0].IsBusy()
    requires s.recv.HasJob() && s.recv.n == n ==> s.at[n] == AtRecv
    ensures Held(Next(s, e), n) && KeyFor(Next(s, e).jobs, n) == KeyFor(s.jobs, n)
  {
    hide Enrolled;
  }

  lemma HeldMoves(s: Eng, e: Event, n: nat)
    requires Enabled(s, e) && MovesOn(e) && Held(s, n) && !(e.Unregister? && s.runners[e.r].n == n)
    requires forall r :: 0 <= r < |s.runners| && s.runners[r].IsBusy() && s.runners[r].n == n ==> s.at[n] == AtRunner(r)
    ensures Held(Next(s, e), n) && KeyFor(Next(s, e).jobs, n) == KeyFor(s.jobs, n)
  {
    hide Next, Enabled;
    RunnerFrame(s, e);
    if s.at[n] == AtRunner(e.r) {
      HeldReturns(s, e, n);
    }
  }

  lemma HeldReturns(s: Eng, e: Event, n: nat)
    requires Enabled(s, e) && MovesOn(e) && Held(s, n) && s.at[n] == AtRunner(e.r) && !e.Unregister?
    ensures Next(s, e).runners[e.r] == Unregistering(n)
  {
    hide Revoked;
  }

  lemma PlaceOf(s: Eng, n: nat)
    requires Placed(s) && n < |s.jobs|
    ensures n < |s.at| && PlaceOk(s.recv, s.queue, s.runners, s.executed, n, s.at[n])
    ensures forall r :: 0 <= r < |s.runners| && s.runners[r].IsBusy() && s.runners[r].n == n ==> s.at[n] == AtRunner(r)
    ensures s.recv.HasJob() && s.recv.n == n ==> s.at[n] == AtRecv
    ensures n in s.queue ==> s.at[n] == AtQueue
  {
    hide LoopOk, ExecutedOk, PhaseOk, PlaceOk;
  }

  /** Does this step run Done for a job with this key? */
  ghost predicate Clears(s: Eng, e: Event, key: string) {
    && e.Unregister? && e.r < |s.runners| && s.runners[e.r].Unregistering?
    && KeyFor(s.jobs, s.runners[e.r].n) == Some(key)
  }

  /** An entry after a step was there before, or was made by Register. */
  lemma LedgerEntries(s: Eng, e: Event, key: string)
    requires Enabled(s, e) && Placed(s) && key in Next(s, e).pending
    ensures var t := Next(s, e);
            (key in s.pending && t.pending[key] == s.pending[key] && !Clears(s, e, key))
            || (e.Register? && EntryOk(t, key, t.pending[key]))
  {
    hide Books;
    BooksOf(s);
    if s.recv.HasJob() {
      PlaceOf(s, s.recv.n);
    }
    if e.Unregister? {
      BusyNeeds(s, e.r);
    }
  }

  lemma BusyNeeds(s: Eng, r: nat)
    requires Placed(s) && r < |s.runners|
    ensures s.runners[r].Unregistering? ==> s.runners[r].n < |s.jobs| && NeedsLedger(s.jobs[s.runners[r].n])
  {
    hide QueuePlaced, PlacesOk, ExecutedOk, LoopOk, RecvPlaced;
    assert RunnerOk(s.runners[r], r, s.jobs, s.at);
  }

  lemma LedgerStep(s: Eng, e: Event)
    requires Enabled(s, e) && Placed(s) && LedgerOk(s)
    ensures LedgerOk(Next(s, e))
  {
    hide Placed, Held, Next;
    var t := Next(s, e);
    forall key | key in t.pending
      ensures EntryOk(t, key, t.pending[key])
    {
      LedgerEntries(s, e, key);
      if key in s.pending && t.pending[key] == s.pending[key] && !Clears(s, e, key) {
        HeldKept(s, e, s.pending[key]);
      }
    }
  }

  // ---------- every run ----------

  ghost predicate Inv(s: Eng) {
    Placed(s) && Accounts(s) && LedgerOk(s)
  }

  lemma InvStep(s: Eng, e: Event)
    requires Enabled(s, e) && Inv(s)
    ensures Inv(Next(s, e))
  {
    hide Placed, Accounts, LedgerOk, Enabled, Next;
    PlacedStep(s, e);
    AccountsStep(s, e);
    LedgerStep(s, e);
  }

  lemma {:induction false} RunKeepsInv(s: Eng, es: seq<Event>)
    requires Inv(s) && IsRun(s, es)
    ensures Inv(After(s, es))
    decreases |es|
  {
    hide Inv, Enabled, Next;
    if es != [] {
      InvStep(s, es[0]);
      RunKeepsInv(Next(s, es[0]), es[1..]);
    }
  }

  lemma InitialInv(s: Eng, c: Config)
    requires Initial(s, c)
    ensures Inv(s)
  {
    CountBound(s.runners, BUSY);
    CountBound(s.runners, COUNTED);
    CountBound(s.runners, INCOMPLETE);
  }

  /** The number of runners and the capacity never change. */
  lemma {:induction false} RunShape(s: Eng, es: seq<Event>)
    requires IsRun(s, es)
    ensures |After(s, es).runners| == |s.runners| && After(s, es).cap == s.cap
    decreases |es|
  {
    hide Enabled, Next;
    if es != [] {
      StepShape(s, es[0]);
      RunShape(Next(s, es[0]), es[1..]);
    }
  }

  lemma StepShape(s: Eng, e: Event)
    requires Enabled(s, e)
    ensures |Next(s, e).runners| == |s.runners| && Next(s, e).cap == s.cap
  {
    hide Enrolled, Revoked, Cleared;
  }

  // ---------- nothing lost, nothing repeated ----------

  /** In every reachable state each accepted job is in exactly one place, and its handler has been
      started at most once: exactly once if it is executing or finished, not at all if it is still being
      prepared or queued. */
  lemma EveryJobHasOnePlace(s0: Eng, c: Config, es: seq<Event>, n: nat)
    requires Initial(s0, c) && IsRun(s0, es) && n < |After(s0, es).jobs|
    ensures var s := After(s0, es);
            && n < |s.at|
            && (s.recv.HasJob() && s.recv.n == n <==> s.at[n] == AtRecv)
            && (n in s.queue <==> s.at[n] == AtQueue)
            && (forall r :: 0 <= r < |s.runners| ==>
                  (s.runners[r].IsBusy() && s.runners[r].n == n <==> s.at[n] == AtRunner(r)))
            && (n in s.executed <==> s.at[n].AtRunner? || s.at[n].Done?)
            && (forall i, j :: 0 <= i < j < |s.executed| ==> s.executed[i] != s.executed[j])
  {
    hide Initial, IsRun, After, Accounts, LedgerOk, Placed;
    InitialInv(s0, c);
    RunKeepsInv(s0, es);
    PlaceOf(After(s0, es), n);
    ExecutedOnce(After(s0, es));
  }

  lemma ExecutedOnce(s: Eng)
    requires Placed(s)
    ensures ExecutedOk(s.executed, s.jobs) && |s.at| == |s.jobs|
  {
    hide QueuePlaced, RunnersPlaced, LoopOk, PlacesOk, PhaseOk;
  }

  /** In every reachable state, outside the receive loop's two additions, the WaitGroup and the gauge
      are the queued plus the executing jobs, up to the deferred steps still to come; and the jobs
      accepted are the completed ones plus those in hand. */
  lemma AccountingIsExact(s0: Eng, c: Config, es: seq<Event>)
    requires Initial(s0, c) && IsRun(s0, es)
    ensures var s := After(s0, es);
            && (!s.recv.IsReserved() ==> s.wg == |s.queue| + CountOf(s.runners, BUSY))
            && (!s.recv.Offering? ==> s.gauge == |s.queue| + CountOf(s.runners, COUNTED))
            && |s.jobs| == s.completed + |s.queue| + CountOf(s.runners, INCOMPLETE) + (if s.recv.HasJob() then 1 else 0)
            && s.gauge <= s.wg
  {
    hide Initial, IsRun, After, Placed, LedgerOk, CountOf;
    InitialInv(s0, c);
    RunKeepsInv(s0, es);
    CountedIsBusy(After(s0, es).runners);
  }

  lemma {:induction false} CountedIsBusy(runners: seq<Runner>)
    ensures CountOf(runners, COUNTED) <= CountOf(runners, BUSY)
  {
    if runners != [] {
      CountedIsBusy(runners[..|runners| - 1]);
    }
  }

  /** When Run returns: the queue is empty, every accepted job has been executed exactly once and
      completed, both counters are back to zero, and the ledger is empty, whatever ids the clients
      used. */
  lemma ReturnMeansAllDone(s0: Eng, c: Config, es: seq<Event>)
    requires Initial(s0, c) && IsRun(s0, es) && After(s0, es).phase.Returned?
    ensures var s := After(s0, es);
            && s.queue == [] && s.wg == 0 && s.gauge == 0 && s.completed == |s.jobs| && s.pending == map[]
            && (forall n :: 0 <= n < |s.jobs| ==> n in s.executed)
            && |s.executed| == |s.jobs|
  {
    hide IsRun, After, Accounts, LedgerOk, Placed;
    InitialInv(s0, c);
    RunKeepsInv(s0, es);
    RunShape(s0, es);
    hide Initial;
    AllDone(After(s0, es));
  }

  lemma AllDone(s: Eng)
    requires Inv(s) && s.phase.Returned? && |s.runners| > 1
    ensures s.queue == [] && s.wg == 0 && s.gauge == 0 && s.completed == |s.jobs| && s.pending == map[]
    ensures forall n :: 0 <= n < |s.jobs| ==> n in s.executed
    ensures |s.executed| == |s.jobs|
  {
    hide Books, CountOf;
    ExecutedOnce(s);
    NobodyBusy(s);
    CountBound(s.runners, BUSY);
    CountBound(s.runners, COUNTED);
    CountBound(s.runners, INCOMPLETE);
    hide Accounts;
    forall n | 0 <= n < |s.jobs|
      ensures n in s.executed && s.at[n].Done?
    {
      PlaceOf(s, n);
    }
    assert forall key :: key !in s.pending;
    AllExecuted(s);
  }

  lemma NobodyBusy(s: Eng)
    requires Placed(s) && s.phase.Returned? && |s.runners| > 1
    ensures s.queue == [] && s.recv.Stopped? && |s.at| == |s.jobs|
    ensures forall r :: 0 <= r < |s.runners| ==> !s.runners[r].IsBusy()
  {
    hide QueuePlaced, RunnersPlaced, PlacesOk, ExecutedOk;
    assert s.runners[1].Exited?;
  }

  lemma AllExecuted(s: Eng)
    requires ExecutedOk(s.executed, s.jobs) && forall n :: 0 <= n < |s.jobs| ==> n in s.executed
    ensures |s.executed| == |s.jobs|
  {
    BelowSize(|s.jobs|);
    DistinctSize(s.executed);
    assert Below(|s.jobs|) == Elements(s.executed);
  }

  function Below(k: nat): (b: set<nat>)
    ensures forall n: nat :: n in b <==> n < k
  {
    if k == 0 then {} else Below(k - 1) + {k - 1}
  }

  lemma {:induction false} BelowSize(k: nat)
    ensures |Below(k)| == k
  {
    if k > 0 {
      BelowSize(k - 1);
    }
  }

  // ---------- bounds ----------

  /** The pool and the queue have the configured sizes (16 and 64 by default, at most 100 and 10000). At
      most MaxConcurrentRequests + 1 handlers execute at once, the extra one on the receive loop, and at most
      MaxConcurrentRequests + RequestQueueSize + 1 requests are unfinished. */
  lemma LoadIsBounded(s0: Eng, c: Config, es: seq<Event>, concurrent: int, queued: int)
    requires Initial(s0, c) && IsRun(s0, es)
    requires IsBound(c.maxConcurrent, 16, 100, concurrent) && IsBound(c.queueSize, 64, 10000, queued)
    ensures var s := After(s0, es);
            && |s.runners| == concurrent + 1 && s.cap == queued && |s.queue| <= queued
            && CountOf(s.runners, (k: Runner) => k.Executing?) <= concurrent + 1
            && (!s.recv.Serving? ==> CountOf(s.runners, (k: Runner) => k.Executing?) <= concurrent)
            && |s.jobs| - s.completed <= concurrent + queued + 1
  {
    hide IsRun, After, LedgerOk, Books, CountOf;
    InitialInv(s0, c);
    RunKeepsInv(s0, es);
    RunShape(s0, es);
    var s := After(s0, es);
    BooksOf(s);
    CountBound(s.runners, (k: Runner) => k.Executing?);
    CountBound(s.runners, INCOMPLETE);
  }

  /** For a configuration within the caps these are the configured numbers themselves. */
  lemma LoadIsAsConfigured(s0: Eng, c: Config, es: seq<Event>)
    requires Initial(s0, c) && IsRun(s0, es) && 1 <= c.maxConcurrent <= 100 && 1 <= c.queueSize <= 10000
    ensures var s := After(s0, es);
            && CountOf(s.runners, (k: Runner) => k.Executing?) <= c.maxConcurrent + 1
            && |s.jobs| - s.completed <= c.maxConcurrent + c.queueSize + 1
  {
    hide IsRun, After, Initial;
    LoadIsBounded(s0, c, es, c.maxConcurrent, c.queueSize);
  }
}
