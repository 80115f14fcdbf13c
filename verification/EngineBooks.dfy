/** Where every accepted job is, in every run of the engine. */
module EngineBooks {
  import opened Ledger
  import opened Engine

  ghost predicate RecvPlaced(recv: Recv, jobs: seq<Frame>, at: seq<Place>) {
    && |at| == |jobs|
    && (recv.HasJob() ==>
          && recv.n < |jobs| && at[recv.n] == AtRecv
          && (recv.Registering? || recv.Replacing? ==> NeedsLedger(jobs[recv.n]))
          && (recv.Offering? ==> jobs[recv.n].Call?))
  }

  ghost predicate QueuePlaced(queue: seq<nat>, jobs: seq<Frame>, at: seq<Place>) {
    && |at| == |jobs|
    && (forall i :: 0 <= i < |queue| ==> queue[i] < |jobs| && at[queue[i]] == AtQueue && jobs[queue[i]].Call?)
    && (forall i, j :: 0 <= i < j < |queue| ==> queue[i] != queue[j])
  }

  ghost predicate RunnerOk(k: Runner, r: nat, jobs: seq<Frame>, at: seq<Place>) {
    && |at| == |jobs|
    && (k.IsBusy() ==>
          && k.n < |jobs| && at[k.n] == AtRunner(r)
          && (k.Unregistering? ==> NeedsLedger(jobs[k.n]))
          && (r > 0 ==> jobs[k.n].Call?))
  }

  ghost predicate RunnersPlaced(runners: seq<Runner>, jobs: seq<Frame>, at: seq<Place>) {
    forall r :: 0 <= r < |runners| ==> RunnerOk(runners[r], r, jobs, at)
  }

  ghost predicate LoopOk(recv: Recv, runners: seq<Runner>) {
    && |runners| > 0
    && (recv.Serving? <==> runners[0].IsBusy())
    && !runners[0].Exited?
  }

  ghost predicate PlaceOk(recv: Recv, queue: seq<nat>, runners: seq<Runner>, executed: seq<nat>, n: nat, p: Place) {
    match p
    case AtRecv => recv.HasJob() && recv.n == n && n !in executed
    case AtQueue => n in queue && n !in executed
    case AtRunner(r) => r < |runners| && runners[r].IsBusy() && runners[r].n == n && n in executed
    case Done => n in executed
  }

  ghost predicate PlacesOk(recv: Recv, queue: seq<nat>, runners: seq<Runner>, at: seq<Place>, executed: seq<nat>) {
    forall n :: 0 <= n < |at| ==> PlaceOk(recv, queue, runners, executed, n, at[n])
  }

  ghost predicate ExecutedOk(executed: seq<nat>, jobs: seq<Frame>) {
    && (forall i, j :: 0 <= i < j < |executed| ==> executed[i] != executed[j])
    && (forall i :: 0 <= i < |executed| ==> executed[i] < |jobs|)
  }

  ghost predicate Books(recv: Recv, queue: seq<nat>, runners: seq<Runner>, jobs: seq<Frame>, at: seq<Place>,
        executed: seq<nat>) {
    && RecvPlaced(recv, jobs, at)
    && QueuePlaced(queue, jobs, at)
    && RunnersPlaced(runners, jobs, at)
    && LoopOk(recv, runners)
    && PlacesOk(recv, queue, runners, at, executed)
    && ExecutedOk(executed, jobs)
  }

  ghost predicate PhaseOk(s: Eng) {
    && |s.queue| <= s.cap
    && (!s.phase.Up? ==> s.recv.Stopped?)
    && (forall r :: 0 <= r < |s.runners| && s.runners[r].Exited? ==> !s.phase.Up? && s.queue == [])
    && (s.phase.Returned? ==> forall r :: 0 < r < |s.runners| ==> s.runners[r].Exited?)
  }

  ghost predicate Placed(s: Eng) {
    Books(s.recv, s.queue, s.runners, s.jobs, s.at, s.executed) && PhaseOk(s)
  }

  // ---------- the ways a job moves ----------

  lemma RunnerKeeps(recv: Recv, queue: seq<nat>, runners: seq<Runner>, jobs: seq<Frame>, at: seq<Place>,
        executed: seq<nat>, r: nat, k: Runner)
    requires Books(recv, queue, runners, jobs, at, executed) && r < |runners| && runners[r].IsBusy() && k.IsBusy()
    requires k.n == runners[r].n && (k.Unregistering? ==> NeedsLedger(jobs[k.n]))
    ensures Books(recv, queue, runners[r := k], jobs, at, executed)
  {
  }

  lemma RecvKeeps(recv: Recv, queue: seq<nat>, runners: seq<Runner>, jobs: seq<Frame>, at: seq<Place>,
        executed: seq<nat>, k: Recv)
    requires Books(recv, queue, runners, jobs, at, executed) && recv.HasJob() && k.HasJob() && k.n == recv.n
    requires (k.Registering? || k.Replacing? ==> NeedsLedger(jobs[k.n])) && (k.Offering? ==> jobs[k.n].Call?)
    ensures Books(k, queue, runners, jobs, at, executed)
  {
  }

  lemma RecvReads(recv: Recv, queue: seq<nat>, runners: seq<Runner>, jobs: seq<Frame>, at: seq<Place>,
        executed: seq<nat>, f: Frame, k: Recv)
    requires Books(recv, queue, runners, jobs, at, executed) && recv.Reading?
    requires (k.Registering? || k.Reserving?) && k.n == |jobs| && (k.Registering? ==> NeedsLedger(f))
    ensures Books(k, queue, runners, jobs + [f], at + [AtRecv], executed)
  {
    assert |jobs| !in executed;
  }

  lemma RecvQueues(recv: Recv, queue: seq<nat>, runners: seq<Runner>, jobs: seq<Frame>, at: seq<Place>,
        executed: seq<nat>)
    requires Books(recv, queue, runners, jobs, at, executed) && recv.Offering?
    ensures Books(Reading, queue + [recv.n], runners, jobs, at[recv.n := AtQueue], executed)
  {
  }

  lemma RecvServes(recv: Recv, queue: seq<nat>, runners: seq<Runner>, jobs: seq<Frame>, at: seq<Place>,
        executed: seq<nat>)
    requires Books(recv, queue, runners, jobs, at, executed) && (recv.Offering? || recv.Counting?)
    ensures Books(Serving, queue, runners[0 := Executing(recv.n)], jobs, at[recv.n := AtRunner(0)], executed + [recv.n])
  {
    assert PlaceOk(recv, queue, runners, executed, recv.n, at[recv.n]);
  }

  lemma WorkerTakes(recv: Recv, queue: seq<nat>, runners: seq<Runner>, jobs: seq<Frame>, at: seq<Place>,
        executed: seq<nat>, r: nat)
    requires Books(recv, queue, runners, jobs, at, executed) && 0 < r < |runners| && runners[r].Free? && queue != []
    ensures Books(recv, queue[1..], runners[r := Executing(queue[0])], jobs, at[queue[0] := AtRunner(r)],
                executed + [queue[0]])
  {
    hide PlacesOk, RunnersPlaced;
    var n := queue[0];
    QueueHead(recv, queue, runners, at, executed);
    TakePlaces(recv, queue, runners, at, executed, r);
    TakeRunners(runners, jobs, at, n, r);
    hide LoopOk;
    TakeLoop(recv, runners, r, Executing(n));
  }

  lemma TakeLoop(recv: Recv, runners: seq<Runner>, r: nat, k: Runner)
    requires LoopOk(recv, runners) && 0 < r < |runners|
    ensures LoopOk(recv, runners[r := k])
  {
  }

  lemma QueueHead(recv: Recv, queue: seq<nat>, runners: seq<Runner>, at: seq<Place>, executed: seq<nat>)
    requires PlacesOk(recv, queue, runners, at, executed) && queue != [] && queue[0] < |at| && at[queue[0]] == AtQueue
    ensures queue[0] !in executed
  {
    assert PlaceOk(recv, queue, runners, executed, queue[0], at[queue[0]]);
  }

  lemma TakeRunners(runners: seq<Runner>, jobs: seq<Frame>, at: seq<Place>, n: nat, r: nat)
    requires RunnersPlaced(runners, jobs, at) && 0 < r < |runners| && |at| == |jobs|
    requires n < |at| && at[n] == AtQueue && jobs[n].Call?
    ensures RunnersPlaced(runners[r := Executing(n)], jobs, at[n := AtRunner(r)])
  {
  }

  lemma TakePlaces(recv: Recv, queue: seq<nat>, runners: seq<Runner>, at: seq<Place>, executed: seq<nat>, r: nat)
    requires PlacesOk(recv, queue, runners, at, executed) && 0 < r < |runners| && runners[r].Free? && queue != []
    requires queue[0] < |at| && at[queue[0]] == AtQueue
    ensures PlacesOk(recv, queue[1..], runners[r := Executing(queue[0])], at[queue[0] := AtRunner(r)],
                executed + [queue[0]])
  {
    var after := at[queue[0] := AtRunner(r)];
    forall m | 0 <= m < |after|
      ensures PlaceOk(recv, queue[1..], runners[r := Executing(queue[0])], executed + [queue[0]], m, after[m])
    {
      assert PlaceOk(recv, queue, runners, executed, m, at[m]);
      if m != queue[0] && m in queue {
        var i :| 0 <= i < |queue| && queue[i] == m;
        assert queue[1..][i - 1] == m;
      }
    }
  }

  lemma RunnerLeaves(recv: Recv, queue: seq<nat>, runners: seq<Runner>, jobs: seq<Frame>, at: seq<Place>,
        executed: seq<nat>, r: nat)
    requires Books(recv, queue, runners, jobs, at, executed) && r < |runners| && runners[r].IsBusy()
    ensures Books(if r == 0 then Reading else recv, queue, runners[r := Free], jobs, at[runners[r].n := Done], executed)
  {
    assert PlaceOk(recv, queue, runners, executed, runners[r].n, at[runners[r].n]);
  }

  lemma WorkerExits(recv: Recv, queue: seq<nat>, runners: seq<Runner>, jobs: seq<Frame>, at: seq<Place>,
        executed: seq<nat>, r: nat)
    requires Books(recv, queue, runners, jobs, at, executed) && 0 < r < |runners| && runners[r].Free?
    ensures Books(recv, queue, runners[r := Exited], jobs, at, executed)
  {
  }

  // ---------- every step ----------

  lemma PlacedRecv(s: Eng, e: Event)
    requires Enabled(s, e) && Placed(s) && e.IsRecvStep()
    ensures Placed(Next(s, e))
  {
    hide Books;
    BooksOf(s);
    match e
    case Read(f) =>
      if !f.Empty? {
        RecvReads(s.recv, s.queue, s.runners, s.jobs, s.at, s.executed, f, Next(s, e).recv);
      }
    case Stop => RecvStops(s);
    case Register => RecvKeeps(s.recv, s.queue, s.runners, s.jobs, s.at, s.executed, Next(s, e).recv);
    case FirePrev => RecvKeeps(s.recv, s.queue, s.runners, s.jobs, s.at, s.executed, Next(s, e).recv);
    case Reserve => RecvKeeps(s.recv, s.queue, s.runners, s.jobs, s.at, s.executed, Next(s, e).recv);
    case Count =>
      if s.jobs[s.recv.n].Call? {
        RecvKeeps(s.recv, s.queue, s.runners, s.jobs, s.at, s.executed, Next(s, e).recv);
      } else {
        RecvServes(s.recv, s.queue, s.runners, s.jobs, s.at, s.executed);
      }
    case Offer =>
      if |s.queue| < s.cap {
        RecvQueues(s.recv, s.queue, s.runners, s.jobs, s.at, s.executed);
      } else {
        RecvServes(s.recv, s.queue, s.runners, s.jobs, s.at, s.executed);
      }
  }

  lemma BooksOf(s: Eng)
    requires Books(s.recv, s.queue, s.runners, s.jobs, s.at, s.executed)
    ensures |s.at| == |s.jobs| && |s.runners| > 0
    ensures s.recv.HasJob() ==> s.recv.n < |s.jobs|
    ensures s.recv.Registering? || s.recv.Replacing? ==> NeedsLedger(s.jobs[s.recv.n])
    ensures s.recv.Offering? ==> s.jobs[s.recv.n].Call?
    ensures forall r :: 0 <= r < |s.runners| && s.runners[r].IsBusy() ==> s.runners[r].n < |s.jobs|
    ensures !s.runners[0].Exited? && (s.recv.Serving? <==> s.runners[0].IsBusy())
  {
    hide QueuePlaced, PlacesOk, ExecutedOk;
    forall r | 0 <= r < |s.runners| && s.runners[r].IsBusy()
      ensures s.runners[r].n < |s.jobs|
    {
      assert RunnerOk(s.runners[r], r, s.jobs, s.at);
    }
  }

  lemma RecvStops(s: Eng)
    requires Books(s.recv, s.queue, s.runners, s.jobs, s.at, s.executed) && s.recv.Reading?
    ensures Books(Stopped, s.queue, s.runners, s.jobs, s.at, s.executed)
  {
  }

  predicate MovesOn(e: Event) {
    e.Return? || e.FireHit? || e.Unregister? || e.Release? || e.Uncount? || e.Complete?
  }

  /** The steps of one execution change nothing but that runner, the ledger and the counters. */
  lemma RunnerFrame(s: Eng, e: Event)
    requires Enabled(s, e) && MovesOn(e)
    ensures var t, k := Next(s, e), s.runners[e.r];
            && e.r < |t.runners| && k.IsBusy() && t.runners[e.r].IsBusy() && t.runners[e.r].n == k.n
            && t == s.(runners := s.runners[e.r := t.runners[e.r]], pending := t.pending, cancelled := t.cancelled,
                       gauge := t.gauge, completed := t.completed, hits := t.hits)
            && (t.runners[e.r].Unregistering? ==> k.n < |s.jobs| && NeedsLedger(s.jobs[k.n]))
  {
    hide Revoked, Cleared;
  }

  lemma PlacedRunner(s: Eng, e: Event)
    requires Enabled(s, e) && Placed(s) && e.IsRunnerStep()
    ensures Placed(Next(s, e))
  {
    hide Books;
    BooksOf(s);
    if MovesOn(e) {
      hide Next, Enabled;
      RunnerFrame(s, e);
      RunnerKeeps(s.recv, s.queue, s.runners, s.jobs, s.at, s.executed, e.r, Next(s, e).runners[e.r]);
    } else if e.Take? {
      WorkerTakes(s.recv, s.queue, s.runners, s.jobs, s.at, s.executed, e.r);
    } else if e.Leave? {
      RunnerLeaves(s.recv, s.queue, s.runners, s.jobs, s.at, s.executed, e.r);
    } else {
      WorkerExits(s.recv, s.queue, s.runners, s.jobs, s.at, s.executed, e.r);
    }
  }

  lemma PlacedStep(s: Eng, e: Event)
    requires Enabled(s, e) && Placed(s)
    ensures Placed(Next(s, e))
  {
    hide Books;
    if e.IsRecvStep() {
      PlacedRecv(s, e);
    } else if e.IsRunnerStep() {
      PlacedRunner(s, e);
    }
  }
}
