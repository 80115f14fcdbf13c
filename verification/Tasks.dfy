/** The canonical task record and its lifecycle graph (internal/taskstore/task.go). */
module Tasks {

  datatype Option<+T> = None | Some(value: T)

  type TaskID = string

  /** Abstract timestamps. Only equality, the zero value and `Before` (`<`) are used. */
  type Time = int

  const ZERO_TIME: Time := 0

  /** A cancel func is known by the context it cancels. */
  type Ctx = nat

  /** The bound that a configured value stands for: itself within the cap, the default if it is not
      positive, the cap if it is larger. */
  predicate IsBound(value: int, standard: int, cap: int, bound: int) {
    && (1 <= value <= cap ==> bound == value)
    && (value <= 0 ==> bound == standard)
    && (value > cap ==> bound == cap)
  }

  datatype Kind = GenerateImage | EditImage | OtherKind(name: string)
  {
    predicate IsValid() {
      GenerateImage? || EditImage?
    }
  }

  datatype State = Queued | Running | Completed | Failed | Cancelled | Abandoned | OtherState(name: string)
  {
    predicate IsTerminal() {
      Completed? || Failed? || Cancelled? || Abandoned?
    }

    /** The six canonical states; anything else is refused on replay. */
    predicate IsKnown() {
      !OtherState?
    }
  }

  datatype Task = Task(
    id: TaskID,
    kind: Kind,
    state: State,
    pid: int,
    submittedAt: Time,
    startedAt: Time,
    finishedAt: Time,
    request: string,
    result: Option<string>,
    error: string,
    cancelHint: string)

  /** The transition table, keyed by the state left. */
  function Allowed(from: State): set<State> {
    match from
    case Queued => {Running, Cancelled, Abandoned, Failed}
    case Running => {Completed, Failed, Cancelled, Abandoned}
    case _ => {}
  }

  predicate CanTransition(from: State, to: State) {
    from != to && to in Allowed(from)
  }

  /** How many state changes are still possible. */
  function Rank(s: State): nat {
    if s == Queued then 2 else if s == Running then 1 else 0
  }

  /** A chain of states, each step allowed by the table. */
  ghost predicate IsHistory(h: seq<State>) {
    forall i :: 0 < i < |h| ==> CanTransition(h[i - 1], h[i])
  }

  lemma HistoryRank(h: seq<State>, k: nat)
    requires IsHistory(h) && k < |h|
    ensures k + Rank(h[k]) <= Rank(h[0])
  {
    if k > 0 {
      HistoryRank(h, k - 1);
      assert CanTransition(h[k - 1], h[k]);
    }
  }

  /** The graph has no cycle and no way out of a terminal state: a task changes state at most
      twice, only its last state can be terminal, and running is entered only from queued. */
  lemma LifecycleIsShort(h: seq<State>)
    requires IsHistory(h) && |h| > 0
    ensures |h| <= 3
    ensures forall i :: 0 <= i < |h| - 1 ==> !h[i].IsTerminal()
    ensures forall i :: 0 < i < |h| && h[i] == Running ==> i == 1 && h[0] == Queued
    ensures h[0].IsKnown() && |h| == 3 ==> h[0] == Queued && h[1] == Running && h[2].IsTerminal()
  {
    HistoryRank(h, |h| - 1);
    forall i | 0 < i < |h|
      ensures CanTransition(h[i - 1], h[i]) && i + Rank(h[i]) <= Rank(h[0])
    {
      HistoryRank(h, i);
    }
    forall i | 0 <= i < |h| - 1
      ensures !h[i].IsTerminal()
    {
      assert CanTransition(h[i + 1 - 1], h[i + 1]);
    }
  }
}
