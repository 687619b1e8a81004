/** The order of the works over whole runs: the pool is a first-in first-out queue, and no work is lost or doubled. */
module PoolHistory {
  import opened ThreadPool
  import opened PoolInvariant

  /** The work that a step puts into the ring. */
  function PushedBy(s: State, a: Action): seq<Work>
    requires ValidState(s)
  {
    if a.FrontStep? && s.front.Pushing? then
      var f := s.front;
      [Work(f.r, f.start, f.start + Share(s.n * s.n, s.reqs[f.r].numWorks, f.i))]
    else []
  }

  /** The work that a step hands to a worker. */
  function TakenBy(s: State, a: Action): seq<Work> {
    if a.WorkerStep? && a.k < |s.workers| && s.workers[a.k] == AtLock && s.pool.queue != [] then [s.pool.queue[0]]
    else []
  }

  ghost function AllPushed(s: State, actions: seq<Action>): seq<Work>
    requires CanRun(s, actions)
    decreases |actions|
  {
    if actions == [] then [] else PushedBy(s, actions[0]) + AllPushed(Apply(s, actions[0]), actions[1..])
  }

  ghost function AllTaken(s: State, actions: seq<Action>): seq<Work>
    requires CanRun(s, actions)
    decreases |actions|
  {
    if actions == [] then [] else TakenBy(s, actions[0]) + AllTaken(Apply(s, actions[0]), actions[1..])
  }

  lemma QueueStep(s: State, a: Action)
    requires ValidState(s) && Enabled(s, a)
    ensures s.pool.queue + PushedBy(s, a) == TakenBy(s, a) + Apply(s, a).pool.queue
  {
    hide ValidState, IsSquare, Calculation, SetCell;
  }

  /** First in, first out, in every interleaving in which the ring does not overflow: the works handed out, followed by
      those still queued, are the works queued before the run and during it, in that order. */
  lemma FirstInFirstOut(s: State, actions: seq<Action>)
    requires CanRun(s, actions) && Fits(s, actions)
    ensures s.pool.queue + AllPushed(s, actions) == AllTaken(s, actions) + After(s, actions).pool.queue
  {
    QueueOrder(s, actions);
  }

  /** The queue of the model hands its works out in order. */
  lemma {:induction false} QueueOrder(s: State, actions: seq<Action>)
    requires CanRun(s, actions)
    ensures s.pool.queue + AllPushed(s, actions) == AllTaken(s, actions) + After(s, actions).pool.queue
    decreases |actions|
  {
    hide Apply, Enabled, ValidState, PushedBy, TakenBy;
    if actions == [] {
    } else {
      var (a, t) := (actions[0], Apply(s, actions[0]));
      QueueStep(s, a);
      QueueOrder(t, actions[1..]);
      Regroup(s.pool.queue, PushedBy(s, a), TakenBy(s, a), t.pool.queue,
              AllPushed(t, actions[1..]), AllTaken(t, actions[1..]), After(s, actions).pool.queue);
    }
  }

  lemma Regroup(q: seq<Work>, pushed: seq<Work>, taken: seq<Work>, mid: seq<Work>,
                laterPushed: seq<Work>, laterTaken: seq<Work>, end: seq<Work>)
    requires q + pushed == taken + mid && mid + laterPushed == laterTaken + end
    ensures q + (pushed + laterPushed) == (taken + laterTaken) + end
  {
    assert q + (pushed + laterPushed) == (q + pushed) + laterPushed;
    assert (taken + mid) + laterPushed == taken + (mid + laterPushed);
    assert (taken + laterTaken) + end == taken + (laterTaken + end);
  }

  lemma PushedCount(s: State, a: Action)
    requires ValidState(s) && Enabled(s, a)
    ensures ValidState(Apply(s, a)) ==> Pushed(Apply(s, a)) == Pushed(s) + |PushedBy(s, a)|
  {
    hide IsSquare, Calculation, SetCell, Transpose, ValidWork, ValidWorker;
    match a {
      case FrontStep(w) => PushedFront(s, w);
      case WorkerStep(k, w) =>
        hide ValidState;
        assert SameRequests(s, Apply(s, a));
      case Spurious(w) =>
        hide ValidState;
        assert SameRequests(s, Apply(s, a));
    }
  }

  /** The frontend is at the same place, or was woken to test the queue again. */
  predicate SameRequests(s: State, t: State) {
    t.reqs == s.reqs && (t.front == s.front || (s.front == SyncBlocked && t.front == SyncTest))
  }

  lemma PushedFront(s: State, w: Waker)
    requires ValidState(s) && Enabled(s, FrontStep(w))
    ensures var t := ApplyFront(s, w);
      ValidState(t) ==> Pushed(t) == Pushed(s) + |PushedBy(s, FrontStep(w))|
  {
    hide IsSquare, Calculation, SetCell, Transpose, ValidWork, ValidWorker;
  }

  lemma {:induction false} PushesCounted(s: State, actions: seq<Action>)
    requires PoolInv(s) && CanRun(s, actions)
    ensures PoolInv(After(s, actions)) && Pushed(After(s, actions)) == Pushed(s) + |AllPushed(s, actions)|
    decreases |actions|
  {
    hide Apply, Enabled, PushedBy, PoolInv, Pushed;
    InvValid(s);
    if actions == [] {
    } else {
      ApplyKeeps(s, actions[0]);
      InvValid(Apply(s, actions[0]));
      PushedCount(s, actions[0]);
      PushesCounted(Apply(s, actions[0]), actions[1..]);
    }
  }

  /** Work conservation in every reachable state: every work ever queued is still queued, held by exactly one worker, or
      completed. */
  lemma WorkConservation(j: Job, actions: seq<Action>)
    requires ValidJob(j) && CanRun(Start(j), actions)
    ensures var t := After(Start(j), actions);
      |AllPushed(Start(j), actions)| == |t.pool.queue| + Busy(t.workers) + t.pool.completed
    ensures var t := After(Start(j), actions);
      |AllTaken(Start(j), actions)| == Busy(t.workers) + t.pool.completed
  {
    hide AllPushed, AllTaken, CanRun, After, CutFits, CellsAccounted, Wakeups;
    StartKeeps(j);
    PushesCounted(Start(j), actions);
    QueueOrder(Start(j), actions);
    assert |AllPushed(Start(j), actions)| == |AllTaken(Start(j), actions) + After(Start(j), actions).pool.queue|;
  }
}
