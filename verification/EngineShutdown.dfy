/** The engine's shutdown: once the receive loop has returned, every step brings Run closer to its
    return, and Run always gets there. */
module EngineShutdown {
  import opened Engine
  import opened EngineBooks
  import opened EngineLaws

  function StepsLeft(k: Runner): nat {
    match k
    case Exited => 0
    case Free => 1
    case Leaving(_) => 2
    case Completing(_) => 3
    case Uncounting(_) => 4
    case Releasing(_) => 5
    case Firing(_, _) => 5
    case Unregistering(_) => 6
    case Executing(_) => 7
  }

  function Remaining(runners: seq<Runner>): nat {
    if runners == [] then 0 else Remaining(runners[..|runners| - 1]) + StepsLeft(runners[|runners| - 1])
  }

  function PhaseLeft(p: Phase): nat {
    match p
    case Up => 3
    case Draining => 2
    case Drained => 1
    case Returned => 0
  }

  function Measure(s: Eng): nat {
    7 * |s.queue| + Remaining(s.runners) + PhaseLeft(s.phase)
  }

  lemma {:induction false} RemainingPut(runners: seq<Runner>, r: nat, k: Runner)
    requires r < |runners|
    ensures Remaining(runners[r := k]) == Remaining(runners) - StepsLeft(runners[r]) + StepsLeft(k)
    decreases |runners|
  {
    var p := runners[..|runners| - 1];
    if r == |runners| - 1 {
      assert runners[r := k][..|runners| - 1] == p;
    } else {
      assert runners[r := k][..|runners| - 1] == p[r := k];
      RemainingPut(p, r, k);
    }
  }

  lemma MoveFalls(s: Eng, e: Event)
    requires Enabled(s, e) && MovesOn(e)
    ensures e.r < |Next(s, e).runners| && StepsLeft(Next(s, e).runners[e.r]) < StepsLeft(s.runners[e.r])
  {
  }

  /** After the receive loop has returned every step of the engine lowers the measure. */
  lemma StepFalls(s: Eng, e: Event)
    requires Enabled(s, e) && Placed(s) && s.recv.Stopped?
    ensures Measure(Next(s, e)) < Measure(s) && Next(s, e).recv.Stopped?
  {
    hide Books, Remaining;
    BooksOf(s);
    if MovesOn(e) {
      MoveFalls(s, e);
      RunnerFrame(s, e);
      hide Next, Enabled, StepsLeft;
      RemainingPut(s.runners, e.r, Next(s, e).runners[e.r]);
    } else if e.IsRunnerStep() {
      RemainingPut(s.runners, e.r, Next(s, e).runners[e.r]);
    }
  }

  /** So every run after that point is short, whichever way it interleaves. */
  lemma {:induction false} DrainIsBounded(s: Eng, es: seq<Event>)
    requires Inv(s) && s.recv.Stopped? && IsRun(s, es)
    ensures |es| + Measure(After(s, es)) <= Measure(s)
    decreases |es|
  {
    hide Placed, Accounts, LedgerOk, Enabled, Next, Measure;
    if es != [] {
      StepFalls(s, es[0]);
      InvStep(s, es[0]);
      DrainIsBounded(Next(s, es[0]), es[1..]);
    }
  }

  /** What runner r does next, assuming its handler returns. */
  function StepOf(s: Eng, r: nat): Event
    requires r < |s.runners| && !s.runners[r].Exited?
  {
    match s.runners[r]
    case Free => if s.queue != [] then Take(r) else Exit(r)
    case Executing(_) => Return(r)
    case Firing(_, _) => FireHit(r)
    case Unregistering(_) => Unregister(r)
    case Releasing(_) => Release(r)
    case Uncounting(_) => Uncount(r)
    case Completing(_) => Complete(r)
    case Leaving(_) => Leave(r)
  }

  lemma RunnerCanStep(s: Eng, r: nat)
    requires Placed(s) && 0 < r < |s.runners| && !s.runners[r].Exited? && !s.phase.Up?
    ensures Enabled(s, StepOf(s, r))
  {
    hide PlacesOk, ExecutedOk;
    assert RunnerOk(s.runners[r], r, s.jobs, s.at);
  }

  /** No deadlock: until Run has returned some step is possible, and a time-out is never the only one. */
  lemma CanStep(s: Eng) returns (e: Event)
    requires Inv(s) && s.recv.Stopped? && !s.phase.Returned? && |s.runners| > 1
    ensures Enabled(s, e) && e != Drain(true)
  {
    hide Books, LedgerOk, CountOf;
    BooksOf(s);
    if s.phase.Up? {
      e := CloseQueue;
    } else if r :| 0 < r < |s.runners| && !s.runners[r].Exited? {
      hide Enabled;
      e := StepOf(s, r);
      RunnerCanStep(s, r);
    } else if s.phase.Draining? {
      assert s.runners[1].Exited?;
      CountBound(s.runners, BUSY);
      e := Drain(false);
    } else {
      e := ReturnRun;
    }
  }

  /** The shutdown drain terminates: from every reachable state in which the receive loop has returned,
      assuming handlers return, Run returns within Measure steps and without its time-out. */
  lemma {:induction false} DrainTerminates(s: Eng) returns (es: seq<Event>)
    requires Inv(s) && s.recv.Stopped? && |s.runners| > 1
    ensures IsRun(s, es) && |es| <= Measure(s) && Drain(true) !in es
    ensures After(s, es).phase.Returned? && Inv(After(s, es))
    decreases Measure(s)
  {
    hide Inv, Enabled, Next, Measure;
    if s.phase.Returned? {
      es := [];
    } else {
      var e := CanStep(s);
      PlacedOf(s);
      StepFalls(s, e);
      InvStep(s, e);
      StepShape(s, e);
      var rest := DrainTerminates(Next(s, e));
      es := [e] + rest;
      assert es[1..] == rest;
    }
  }

  lemma PlacedOf(s: Eng)
    requires Inv(s)
    ensures Placed(s) && LedgerOk(s)
  {
    hide Placed, LedgerOk;
  }
}
