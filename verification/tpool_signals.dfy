/** Whom the pool wakes and when: a push and the completion of the last work announced each wake one blocked thread,
    tpool_destroy wakes all blocked workers, and no other section wakes anybody. */
module PoolSignals {
  import opened ThreadPool
  import opened PoolSplit
  import opened PoolInvariant

  /** The thread is about to lock the mutex and do its test again. */
  predicate BackAtTest(s: State, who: Waker) {
    match who
    case NoOne => false
    case ToWorker(k) => k < |s.workers| && s.workers[k] == AtLock
    case ToFront => s.front == SyncTest
  }

  /** The step ends the wait of this thread. */
  predicate Wakes(s: State, a: Action, who: Waker)
    requires ValidState(s)
  {
    IsBlocked(s, who) && !IsBlocked(Apply(s, a), who)
  }

  ghost predicate WakesSomebody(s: State, a: Action)
    requires ValidState(s)
  {
    exists who: Waker :: Wakes(s, a, who)
  }

  /** A worker comes out of the loop over its cells and completes its work. */
  predicate Completes(s: State, a: Action) {
    && a.WorkerStep? && a.k < |s.workers|
    && s.workers[a.k].Computing? && s.workers[a.k].i == s.workers[a.k].work.end
  }

  predicate Pushes(s: State, a: Action) { a.FrontStep? && s.front.Pushing? }

  predicate Terminates(s: State, a: Action) { a.FrontStep? && s.front.Synchronized? }

  /** A wake-up ends the wait of the thread it names and of no other. */
  lemma WakeReaches(s: State, w: Waker, who: Waker)
    requires w == NoOne || IsBlocked(s, w)
    ensures IsBlocked(s, who) && !IsBlocked(Wake(s, w), who) <==> w == who && w != NoOne
    ensures w != NoOne ==> BackAtTest(Wake(s, w), w)
  {
  }

  /** A thread that is not blocked and moves on otherwise leaves the wait of every other as it was. */
  lemma MovedWorker(s: State, t: State, k: nat, who: Waker)
    requires k < |s.workers| == |t.workers| && s.workers[k] != Blocked && t.front == s.front
    requires forall h :: 0 <= h < |s.workers| && h != k ==> t.workers[h] == s.workers[h]
    ensures IsBlocked(s, who) ==> IsBlocked(t, who)
  {
  }

  lemma CompletionWakes(s: State, a: Action, who: Waker)
    requires PoolInv(s) && Enabled(s, a) && Completes(s, a)
    ensures Wakes(s, a, who) <==> a.wake == who && who != NoOne
    ensures Wakes(s, a, who) ==> BackAtTest(Apply(s, a), who)
    ensures Apply(s, a).pool == s.pool.(completed := s.pool.completed + 1)
    ensures a.wake != NoOne ==> s.pool.completed + 1 == s.pool.totalWorks && !NobodyBlocked(s)
    ensures a.wake == NoOne ==> s.pool.completed + 1 < s.pool.totalWorks || NobodyBlocked(s)
  {
    hide CellsAccounted, CutFits, Wakeups, IsSquare;
    var m := Ended(s, a.k);
    assert Apply(s, a) == Wake(m, a.wake);
    MovedWorker(s, m, a.k, who);
    WakeReaches(m, a.wake, who);
    CompletedAtMost(Apply(s, a), s, a);
  }

  /** No more works are completed than were announced. */
  lemma CompletedAtMost(t: State, s: State, a: Action)
    requires PoolInv(s) && Enabled(s, a) && t == Apply(s, a)
    ensures t.pool.completed <= t.pool.totalWorks
  {
    hide CellsAccounted, CutFits, Wakeups, IsSquare, Apply, Enabled;
    ApplyKeeps(s, a);
    PushedAtMost(t);
  }

  lemma PushedAtMost(t: State)
    requires ValidState(t)
    ensures Pushed(t) <= Announced(t)
  {
    hide IsSquare;
  }

  lemma PushWakesOne(s: State, a: Action, who: Waker)
    requires ValidState(s) && Enabled(s, a) && Pushes(s, a)
    ensures Wakes(s, a, who) <==> a.wake == who && who != NoOne
    ensures Wakes(s, a, who) ==> BackAtTest(Apply(s, a), who)
    ensures a.wake == NoOne <==> NobodyBlocked(s)
  {
    hide IsSquare;
  }

  lemma OtherStepWakesNobody(s: State, a: Action, who: Waker)
    requires ValidState(s) && Enabled(s, a) && !a.Spurious?
    requires !Completes(s, a) && !Pushes(s, a) && !Terminates(s, a)
    ensures !Wakes(s, a, who) && Apply(s, a).pool.completed == s.pool.completed
  {
    hide IsSquare;
  }

  /** Who is woken by a step in a reachable state.  A step that completes a work wakes somebody exactly when all works
      announced so far are completed with it and somebody is blocked; a push exactly when somebody is blocked; each of
      them wakes one thread.  tpool_destroy wakes every blocked worker.  The other steps wake nobody.  Whoever is woken
      does its test again. */
  lemma SignalsExactly(j: Job, actions: seq<Action>, a: Action)
    requires ValidJob(j) && CanRun(Start(j), actions) && Enabled(After(Start(j), actions), a) && !a.Spurious?
    ensures var s := After(Start(j), actions);
      && ValidState(s)
      && Apply(s, a).pool.completed == s.pool.completed + (if Completes(s, a) then 1 else 0)
      && (Completes(s, a) ==>
            (WakesSomebody(s, a) <==> Apply(s, a).pool.completed == s.pool.totalWorks && !NobodyBlocked(s)))
      && (Pushes(s, a) ==> (WakesSomebody(s, a) <==> !NobodyBlocked(s)))
      && (Terminates(s, a) ==> forall k: nat :: Wakes(s, a, ToWorker(k)) <==> IsBlocked(s, ToWorker(k)))
      && (WakesSomebody(s, a) ==> Completes(s, a) || Pushes(s, a) || Terminates(s, a))
      && (forall who: Waker :: Wakes(s, a, who) ==> BackAtTest(Apply(s, a), who))
      && (!Terminates(s, a) ==> forall u: Waker, v: Waker :: Wakes(s, a, u) && Wakes(s, a, v) ==> u == v)
  {
    hide CanRun, After, Start, Apply, Enabled, PoolInv, NobodyBlocked, IsBlocked, Wakes, BackAtTest;
    ReachableInv(j, actions);
    var s := After(Start(j), actions);
    InvValid(s);
    if Completes(s, a) {
      forall who: Waker { CompletionWakes(s, a, who); }
      CompletionWakes(s, a, a.wake);
    } else if Pushes(s, a) {
      forall who: Waker { PushWakesOne(s, a, who); }
      PushWakesOne(s, a, a.wake);
      PushCompletesNothing(s, a);
    } else if Terminates(s, a) {
      TerminateWakesAll(s, a);
    } else {
      forall who: Waker { OtherStepWakesNobody(s, a, who); }
      OtherStepWakesNobody(s, a, NoOne);
    }
  }

  lemma PushCompletesNothing(s: State, a: Action)
    requires ValidState(s) && Pushes(s, a)
    ensures Apply(s, a).pool.completed == s.pool.completed && !Completes(s, a)
  {
    hide IsSquare;
  }

  lemma TerminateWakesAll(s: State, a: Action)
    requires ValidState(s) && Terminates(s, a)
    ensures forall k: nat :: Wakes(s, a, ToWorker(k)) <==> IsBlocked(s, ToWorker(k))
    ensures forall who: Waker :: Wakes(s, a, who) ==> BackAtTest(Apply(s, a), who)
    ensures Apply(s, a).pool.completed == s.pool.completed
  {
    hide IsSquare;
  }
}
