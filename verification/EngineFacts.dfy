/** What the engine counts and releases: the fallback counter, and the context of every tools/call
    (internal/server/server.go:376-460). */
module EngineFacts {
  import opened Tasks
  import opened Ledger
  import opened Engine
  import opened EngineBooks
  import opened EngineLaws

  /** How often the receive loop found the queue full. */
  ghost function Overflows(s: Eng, es: seq<Event>): nat
    requires IsRun(s, es)
    decreases |es|
  {
    if es == [] then 0
    else (if es[0].Offer? && |s.queue| >= s.cap then 1 else 0) + Overflows(Next(s, es[0]), es[1..])
  }

  lemma FallbackStep(s: Eng, e: Event)
    requires Enabled(s, e)
    ensures Next(s, e).fallback == s.fallback + if e.Offer? && |s.queue| >= s.cap then 1 else 0
  {
    hide Enrolled, Revoked, Cleared;
  }

  /** The fallback counter is exactly the number of requests that found the queue full. */
  lemma {:induction false} FallbackIsExact(s: Eng, es: seq<Event>)
    requires IsRun(s, es)
    ensures After(s, es).fallback == s.fallback + Overflows(s, es)
    decreases |es|
  {
    hide Enabled, Next;
    if es != [] {
      FallbackStep(s, es[0]);
      FallbackIsExact(Next(s, es[0]), es[1..]);
    }
  }

  /** The requests that entered the queue along a run, and those the workers took from it. */
  ghost function Enqueued(s: Eng, es: seq<Event>): seq<nat>
    requires IsRun(s, es)
    decreases |es|
  {
    if es == [] then []
    else (if es[0].Offer? && |s.queue| < s.cap then [s.recv.n] else []) + Enqueued(Next(s, es[0]), es[1..])
  }

  ghost function TakenBy(s: Eng, es: seq<Event>): seq<nat>
    requires IsRun(s, es)
    decreases |es|
  {
    if es == [] then []
    else
      var t := Next(s, es[0]);
      (if es[0].Take? && es[0].r < |t.runners| && t.runners[es[0].r].Executing? then [t.runners[es[0].r].n] else [])
      + TakenBy(t, es[1..])
  }

  lemma QueueStep(s: Eng, e: Event)
    requires Enabled(s, e)
    ensures var t := Next(s, e);
            && (e.Take? ==> e.r < |t.runners| && t.runners[e.r].Executing? && s.queue == [t.runners[e.r].n] + t.queue)
            && (e.Offer? && |s.queue| < s.cap ==> t.queue == s.queue + [s.recv.n])
            && (!e.Take? && !(e.Offer? && |s.queue| < s.cap) ==> t.queue == s.queue)
  {
    hide Enrolled, Revoked, Cleared;
  }

  /** Requests reach the workers in the order in which they were accepted. */
  lemma {:induction false} FirstInFirstOut(s: Eng, es: seq<Event>)
    requires IsRun(s, es)
    ensures s.queue + Enqueued(s, es) == TakenBy(s, es) + After(s, es).queue
    decreases |es|
  {
    hide Enabled, Next;
    if es != [] {
      QueueStep(s, es[0]);
      var t := Next(s, es[0]);
      FirstInFirstOut(t, es[1..]);
      if es[0].Take? {
        assert s.queue + Enqueued(s, es) == [t.runners[es[0].r].n] + (t.queue + Enqueued(t, es[1..]));
      } else {
        assert s.queue + Enqueued(s, es) == t.queue + Enqueued(t, es[1..]);
      }
    }
  }

  /** The deferred cancel of this execution has run, if it is a tools/call. */
  ghost predicate RunnerReleased(s: Eng, k: Runner) {
    && (k.Uncounting? || k.Completing? || k.Leaving? ==>
          k.n < |s.jobs| && (s.jobs[k.n].Call? ==> k.n in s.cancelled))
    && (k.Firing? ==> k.n < |s.jobs| && !s.jobs[k.n].Call?)
    && (k.Releasing? ==> k.n < |s.jobs|)
  }

  ghost predicate Released(s: Eng) {
    && (forall r :: 0 <= r < |s.runners| ==> RunnerReleased(s, s.runners[r]))
    && (forall n :: 0 <= n < |s.jobs| && n < |s.at| && s.at[n].Done? && s.jobs[n].Call? ==> n in s.cancelled)
  }

  lemma ReleasedStep(s: Eng, e: Event)
    requires Enabled(s, e) && Released(s) && Placed(s)
    ensures Released(Next(s, e))
  {
    hide Placed, Next, RunnerReleased;
    var t := Next(s, e);
    StepShape(s, e);
    forall r | 0 <= r < |t.runners|
      ensures RunnerReleased(t, t.runners[r])
    {
      ReleasedRunner(s, e, r);
    }
    forall n | 0 <= n < |t.jobs| && n < |t.at| && t.at[n].Done? && t.jobs[n].Call?
      ensures n in t.cancelled
    {
      ReleasedJob(s, e, n);
    }
  }

  lemma ReleasedRunner(s: Eng, e: Event, r: nat)
    requires Enabled(s, e) && Placed(s) && r < |s.runners| && r < |Next(s, e).runners|
    requires RunnerReleased(s, s.runners[r])
    ensures RunnerReleased(Next(s, e), Next(s, e).runners[r])
  {
    hide Placed, Next, RunnerReleased;
    PlacedParts(s);
    CancelledGrows(s, e);
    if MovesOn(e) && e.r == r {
      OwnReleased(s, e);
    } else if MovesOn(e) {
      hide Enabled;
      RunnerFrame(s, e);
      StillReleased(s, Next(s, e), s.runners[r]);
    } else {
      OtherReleased(s, e, r);
    }
  }

  lemma PlacedParts(s: Eng)
    requires Placed(s)
    ensures |s.at| == |s.jobs|
    ensures forall r :: 0 <= r < |s.runners| && s.runners[r].IsBusy() ==> s.runners[r].n < |s.jobs|
  {
    hide Books;
    BooksOf(s);
  }

  lemma StillReleased(s: Eng, t: Eng, k: Runner)
    requires RunnerReleased(s, k) && s.cancelled <= t.cancelled && s.jobs <= t.jobs
    ensures RunnerReleased(t, k)
  {
  }

  /** A step that takes, leaves or serves puts a fresh or a free runner there, or leaves it alone. */
  lemma OtherReleased(s: Eng, e: Event, r: nat)
    requires Enabled(s, e) && !MovesOn(e) && r < |s.runners| && r < |Next(s, e).runners|
    requires RunnerReleased(s, s.runners[r]) && s.cancelled <= Next(s, e).cancelled
    ensures RunnerReleased(Next(s, e), Next(s, e).runners[r])
  {
    hide Enrolled;
  }

  lemma CancelledGrows(s: Eng, e: Event)
    requires Enabled(s, e)
    ensures s.cancelled <= Next(s, e).cancelled
  {
    hide Enrolled, Revoked, Cleared;
  }

  /** A job that is done was done before, or its runner has just left. */
  lemma ReleasedJob(s: Eng, e: Event, n: nat)
    requires Enabled(s, e) && Placed(s) && n < |Next(s, e).jobs| && n < |Next(s, e).at|
    requires Next(s, e).at[n].Done? && Next(s, e).jobs[n].Call?
    requires n < |s.jobs| && n < |s.at| && s.at[n].Done? && s.jobs[n].Call? ==> n in s.cancelled
    requires e.Leave? && s.runners[e.r].n == n ==> RunnerReleased(s, s.runners[e.r])
    ensures n in Next(s, e).cancelled
  {
    hide Books;
    BooksOf(s);
    CancelledGrows(s, e);
    if MovesOn(e) {
      hide Next, Enabled;
      RunnerFrame(s, e);
    } else {
      hide Enrolled;
    }
  }

  lemma OwnReleased(s: Eng, e: Event)
    requires Enabled(s, e) && MovesOn(e) && RunnerReleased(s, s.runners[e.r]) && s.runners[e.r].n < |s.jobs|
    ensures s.cancelled <= Next(s, e).cancelled && Next(s, e).jobs == s.jobs
    ensures e.r < |Next(s, e).runners| && RunnerReleased(Next(s, e), Next(s, e).runners[e.r])
  {
    hide Revoked, Cleared;
  }

  lemma {:induction false} RunReleased(s: Eng, es: seq<Event>)
    requires Inv(s) && Released(s) && IsRun(s, es)
    ensures Released(After(s, es)) && Inv(After(s, es))
    decreases |es|
  {
    hide Inv, Released, Enabled, Next, Accounts, LedgerOk, Placed;
    if es != [] {
      PlacedNow(s);
      ReleasedStep(s, es[0]);
      InvStep(s, es[0]);
      RunReleased(Next(s, es[0]), es[1..]);
    }
  }

  lemma PlacedNow(s: Eng)
    requires Inv(s)
    ensures Placed(s)
  {
    hide Placed;
  }

  /** The context of every tools/call that is finished has been cancelled. */
  lemma ContextsAreReleased(s0: Eng, c: Config, es: seq<Event>, n: nat)
    requires Initial(s0, c) && IsRun(s0, es)
    requires var s := After(s0, es); n < |s.jobs| && n < |s.at| && s.jobs[n].Call? && s.at[n].Done?
    ensures n in After(s0, es).cancelled
  {
    InitialInv(s0, c);
    assert Released(s0);
    hide Initial, Inv, IsRun, After;
    RunReleased(s0, es);
  }
}
