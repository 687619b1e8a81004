/** The bound on the number of enroll threads is exact.  The tail of the waiting queue wraps at THREAD_MAX but the scan
    of the queue does not, so with more than SAFE_ENROLLS enroll threads a run can end with threads still waiting. */
module SchedulerDeadlock {
  import opened Threads
  import opened Scheduler
  import opened SchedulerInvariant
  import opened SchedulerSafety
  import opened SchedulerProgress

  // ---- runs in pieces ----

  lemma {:induction false} RunAppend(o: Outcome, a: seq<bool>, b: seq<bool>)
    requires Shape(o.sys)
    ensures Run(o, a + b) == Run(Run(o, a), b)
    decreases |a|
  {
    hide Step;
    if a == [] {
      assert a + b == b;
    } else if o.Running? {
      assert (a + b)[1..] == a[1..] + b;
      RunAppend(Step(o.sys, a[0]), a[1..], b);
    }
  }

  // ---- ranges of ids ----

  function Range(a: nat, b: nat): seq<nat>
    decreases b + 1 - a
  {
    if b < a then [] else [a] + Range(a + 1, b)
  }

  lemma {:induction false} RangeSnoc(a: nat, b: nat)
    requires a <= b
    ensures Range(a, b) == (if b == 0 then [] else Range(a, b - 1)) + [b]
    decreases b - a
  {
    if a >= b {
    } else {
      RangeSnoc(a + 1, b);
    }
  }

  lemma {:induction false} RangeAt(a: nat, b: nat)
    requires a <= b + 1
    ensures |Range(a, b)| == b + 1 - a && forall i :: 0 <= i < |Range(a, b)| ==> Range(a, b)[i] == a + i
    decreases b + 1 - a
  {
    if a > b {
    } else {
      RangeAt(a + 1, b);
    }
  }

  // ---- passes with nobody asleep ----

  ghost predicate NobodyAsleep(s: Sys) {
    && Shape(s) && s.current < |s.tcbs| && |s.sleeping| == THREAD_MAX + 1
    && |s.waiting.arr| == THREAD_MAX && s.waiting.tail < THREAD_MAX
    && forall i :: 0 <= i <= THREAD_MAX ==> s.sleeping[i].None?
  }

  lemma {:induction false} SleepScanIdle(s: Sys, i: nat)
    requires Shape(s) && i <= THREAD_MAX && forall j :: i <= j <= THREAD_MAX ==> s.sleeping[j].None?
    ensures SleepScan(s, i) == s
    decreases THREAD_MAX - i
  {
    if i == THREAD_MAX {
    } else {
      SleepScanIdle(s, i + 1);
    }
  }

  /** Dispatching the front of a ready queue while nobody sleeps. */
  function Front(s: Sys): Outcome {
    if s.ready == [] then Finished(s.(current := 0)) else Running(s.(ready := s.ready[1..], current := s.ready[0]))
  }

  lemma DispatchFront(s: Sys)
    requires NobodyAsleep(s)
    ensures Dispatch(s) == Front(s)
  {
    if s.ready != [] {
      assert !AsleepSomewhere(s.sleeping, s.ready[0]);
    }
  }

  lemma QuietPass(s: Sys, status: int)
    requires NobodyAsleep(s) && (s.writeCount != 0 || s.waiting.head >= s.waiting.tail)
    ensures Pass(s, status) == Front(Requeue(s, status))
  {
    hide SleepScan, Dispatch;
    SleepScanIdle(s, 0);
    WaitScanNone(s, s.waiting.head);
    DispatchFront(Requeue(s, status));
  }

  /** Only thread k sleeps, and its time runs out in this pass. */
  lemma {:induction false} SleepScanOne(s: Sys, i: nat, k: nat)
    requires Shape(s) && i <= k < THREAD_MAX && s.sleeping[k] == Some(k)
    requires forall j :: 0 <= j <= THREAD_MAX && j != k ==> s.sleeping[j].None?
    requires s.tcbs[k].sleepingTime <= s.timeSlice
    ensures SleepScan(s, i) == SleepSlot(s, k) && NobodyAsleep(SleepSlot(s, k))
    decreases THREAD_MAX - i
  {
    if i == k {
      SleepScanIdle(SleepSlot(s, k), k + 1);
    } else {
      SleepScanOne(s, i + 1, k);
    }
  }

  // ---- the crowd: e enroll threads that sleep for no time and wake nobody ----

  const MEMBER := Enroll(0, 0, 0, 0)

  function Crowd(e: nat, slice: int): Config {
    Config(slice, 0, 0, seq(e, _ => MEMBER))
  }

  ghost predicate Common(s: Sys, e: nat) {
    && 2 <= e < THREAD_MAX && NobodyAsleep(s) && |s.tcbs| == e + 1 && s.timeSlice >= 1 && s.readCount == 0
    && forall t :: 1 <= t <= e ==> s.tcbs[t].prog == MEMBER
  }

  /** Threads 1..k-1 have slept and are queued again; thread k is about to. */
  ghost predicate Sleepy(s: Sys, e: nat, k: nat) {
    && Common(s, e) && s.writeCount == 0 && s.waiting.head == 0 == s.waiting.tail
    && 1 <= k <= e && s.current == k && s.ready == Range(k + 1, e) + Range(1, k - 1)
    && forall t :: 1 <= t <= e ==> s.tcbs[t].point == Start && s.tcbs[t].keepgo == (t < k)
  }

  /** All have slept; thread 1 is about to go for the locks. */
  ghost predicate Rested(s: Sys, e: nat) {
    && Common(s, e) && s.writeCount == 0 && s.waiting.head == 0 == s.waiting.tail
    && s.current == 1 && s.ready == Range(2, e)
    && forall t :: 1 <= t <= e ==> s.tcbs[t].point == Start && s.tcbs[t].keepgo
  }

  /** Thread 1 holds the write lock; threads 2..k-1 wait to read, in order from slot 0; thread k is about to. */
  ghost predicate Queueing(s: Sys, e: nat, k: nat) {
    && Common(s, e) && s.writeCount == 1 && s.waiting.head == 0 && s.waiting.tail == k - 2
    && 2 <= k <= e + 1
    && (if k <= e then s.current == k && s.ready == Range(k + 1, e) + [1] else s.current == 1 && s.ready == [])
    && s.tcbs[1].point == Writing
    && (forall i :: 0 <= i < k - 2 ==> s.waiting.arr[i] == i + 2)
    && (forall t :: 2 <= t < k ==> s.tcbs[t].point == WokenRead && s.tcbs[t].waitingFor == 4)
    && (forall t :: k <= t <= e ==> s.tcbs[t].point == Start && s.tcbs[t].keepgo)
  }

  /** Thread 1 has exited and woken all the others; thread 2 is about to go on. */
  ghost predicate Woken(s: Sys, e: nat) {
    && Common(s, e) && s.writeCount == 0 && s.waiting.head == e - 1 == s.waiting.tail
    && s.current == 2 && s.ready == Range(3, e)
    && forall t :: 2 <= t <= e ==> s.tcbs[t].point == WokenRead
  }

  /** Thread 2 holds the write lock; threads 3..k-1 wait to write, in slots from e-1 on; thread k is about to. */
  ghost predicate Requeueing(s: Sys, e: nat, k: nat) {
    && Common(s, e) && s.writeCount == 1 && s.waiting.head == e - 1
    && 3 <= k <= e + 1 && s.waiting.tail == (e - 1 + k - 3) % THREAD_MAX
    && (if k <= e then s.current == k && s.ready == Range(k + 1, e) + [2] else s.current == 2 && s.ready == [])
    && s.tcbs[2].point == Writing
    && (forall t :: 3 <= t < k ==> s.tcbs[t].point == WokenWrite)
    && (forall t :: k <= t <= e ==> s.tcbs[t].point == WokenRead)
  }

  // ---- one stretch of each phase ----

  /** A member that goes to sleep for the length of one pass is queued again by that pass. */
  lemma NapStep(s: Sys, k: nat) returns (s2: Sys)
    requires NobodyAsleep(s) && 0 < s.current == k < |s.tcbs| && s.timeSlice >= 1
    requires s.tcbs[k].prog == MEMBER && s.tcbs[k].point == Start && !s.tcbs[k].keepgo
    requires s.waiting.head == s.waiting.tail
    ensures Step(s, false) == Front(s2) && NobodyAsleep(s2)
    ensures s2 == s.(tcbs := s.tcbs[k := s.tcbs[k].(sleepingTime := 0, keepgo := true)],
                     ready := s.ready + [k], out := s2.out)
  {
    hide SleepScan, WaitScan, Dispatch;
    var s1 := EnrollStart(s).0;
    assert Segment(s) == (s1, Enter(2));
    SleepScanOne(s1, 0, k);
    s2 := SleepSlot(s1, k);
    WaitScanNone(s2, s2.waiting.head);
    DispatchFront(s2);
    assert s2.sleeping == s.sleeping;
    assert s2 == s.(tcbs := s.tcbs[k := s.tcbs[k].(sleepingTime := 0, keepgo := true)],
                    ready := s.ready + [k], out := s2.out);
  }

  lemma SleepyStep(s: Sys, e: nat, k: nat)
    requires Sleepy(s, e, k)
    ensures var o := Step(s, false);
      o.Running? && if k < e then Sleepy(o.sys, e, k + 1) else Rested(o.sys, e)
  {
    hide Step, Range, Shape;
    var s2 := NapStep(s, k);
    SleepyReady(s.ready, e, k);
  }

  lemma SleepyReady(q: seq<nat>, e: nat, k: nat)
    requires 1 <= k <= e && q == Range(k + 1, e) + Range(1, k - 1)
    ensures q + [k] == if k < e then [k + 1] + (Range(k + 2, e) + Range(1, k)) else [1] + Range(2, e)
  {
    RangeSnoc(1, k);
    assert q + [k] == Range(k + 1, e) + Range(1, k);
    assert k == e ==> Range(k + 1, e) + Range(1, k) == Range(1, k);
  }

  // ---- the stretches of a member on its way through the locks ----

  /** The running member, at this point of enroll, with nobody asleep. */
  ghost predicate MemberAt(s: Sys, p: Point) {
    && NobodyAsleep(s) && 0 < s.current < |s.tcbs|
    && s.tcbs[s.current].prog == MEMBER && s.tcbs[s.current].point == p
  }

  function PointMoved(s: Sys, p: Point): seq<Tcb>
    requires s.current < |s.tcbs|
  {
    s.tcbs[s.current := s.tcbs[s.current].(point := p)]
  }

  lemma TakeReadLock(s: Sys) returns (r: Sys)
    requires MemberAt(s, Start) && s.tcbs[s.current].keepgo && s.writeCount == 0
    ensures Step(s, false) == Running(r) && NobodyAsleep(r)
    ensures r == s.(tcbs := PointMoved(s, Reading), readCount := s.readCount + 1, out := r.out)
  {
    hide Pass;
    assert Awake(s, 0) == s;
    r := Step(s, false).sys;
  }

  lemma JoinReaders(s: Sys) returns (r: Sys)
    requires MemberAt(s, Start) && s.tcbs[s.current].keepgo && s.writeCount == 1
    ensures Step(s, false) == Front(r) && NobodyAsleep(r)
    ensures r == s.(tcbs := s.tcbs[s.current := s.tcbs[s.current].(point := WokenRead, waitingFor := 4,
                                                                   waitedRead := true)],
                    waiting := PushWaiting(s.waiting, s.current))
  {
    hide Pass;
    assert Awake(s, 0) == s;
    r := ReadLock(s).0;
    assert Segment(s) == (r, Enter(4));
    QuietPass(r, 4);
  }

  lemma LeaveReading(s: Sys) returns (r: Sys)
    requires MemberAt(s, Reading)
    ensures Step(s, false) == Running(r) && NobodyAsleep(r)
    ensures r == s.(tcbs := PointMoved(s, Choosing), readCount := ReadUnlock(s).readCount, out := r.out)
  {
    hide Pass;
    r := Step(s, false).sys;
  }

  lemma TakeWriteLock(s: Sys) returns (r: Sys)
    requires MemberAt(s, Choosing) && s.writeCount == 0 && s.readCount == 0
    ensures Step(s, true) == Front(r) && NobodyAsleep(r)
    ensures r == s.(tcbs := PointMoved(s, Writing), writeCount := 1, ready := s.ready + [s.current], out := r.out)
  {
    hide Pass;
    var s1 := Segment(s).0;
    assert Segment(s) == (s1, AtYield);
    QuietPass(s1, 1);
    r := Requeue(s1, 1);
  }

  lemma JoinWriters(s: Sys) returns (r: Sys)
    requires MemberAt(s, Choosing) && s.writeCount == 1
    ensures Step(s, false) == Front(r) && NobodyAsleep(r)
    ensures r == s.(tcbs := s.tcbs[s.current := s.tcbs[s.current].(point := WokenWrite, waitingFor := 5,
                                                                   waitedWrite := true)],
                    waiting := PushWaiting(s.waiting, s.current))
  {
    hide Pass;
    r := WriteLock(s).0;
    assert Segment(s) == (r, Enter(5));
    QuietPass(r, 5);
  }

  lemma GoOnReading(s: Sys) returns (r: Sys)
    requires MemberAt(s, WokenRead)
    ensures Step(s, false) == Running(r) && NobodyAsleep(r)
    ensures r == s.(tcbs := PointMoved(s, Reading), out := r.out)
  {
    hide Pass;
    r := Step(s, false).sys;
  }

  /** A writer gives up the lock and exits; the others that wait to read, if the queue has not wrapped, are woken. */
  lemma LeaveWriting(s: Sys) returns (r: Sys)
    requires MemberAt(s, Writing) && s.writeCount == 1 && s.readCount == 0
    requires forall k :: s.waiting.head <= k < s.waiting.tail ==> s.tcbs[s.waiting.arr[k]].waitingFor == 4
    requires forall k :: s.waiting.head <= k < s.waiting.tail ==> s.waiting.arr[k] != s.current
    ensures Step(s, false) == Front(r) && NobodyAsleep(r)
    ensures r == s.(tcbs := PointMoved(s, Exited), writeCount := 0, out := r.out,
                    ready := s.ready + (if Flat(s.waiting) then Waiting(s.waiting) else []), waiting := r.waiting)
    ensures r.waiting == s.waiting.(head := if Flat(s.waiting) then s.waiting.tail else s.waiting.head)
  {
    hide SleepScan, WaitScan, Dispatch;
    var s1 := EnrollWriting(s).0;
    assert Segment(s) == (s1, Enter(3));
    SleepScanIdle(s1, 0);
    if s.waiting.head <= s.waiting.tail {
      WaitScanAll(s1, s1.waiting.head);
    } else {
      WaitScanNone(s1, s1.waiting.head);
      assert s.ready + [] == s.ready;
    }
    r := WaitScan(s1, s1.waiting.head);
    DispatchFront(r);
  }

  // ---- from phase to phase ----

  lemma RunCons(s: Sys, a: bool, rest: seq<bool>)
    requires Shape(s)
    ensures Run(Running(s), [a] + rest) == Run(Step(s, a), rest)
  {
    hide Step, Shape;
    assert ([a] + rest)[1..] == rest;
  }

  lemma ThreeSteps(s: Sys, r1: Sys, r2: Sys, a: bool, b: bool, c: bool)
    requires Shape(s) && Shape(r1) && Shape(r2) && Step(s, a) == Running(r1) && Step(r1, b) == Running(r2)
    ensures Run(Running(s), [a, b, c]) == Step(r2, c)
  {
    hide Step, Shape, Run;
    assert [a, b, c] == [a] + [b, c] && [b, c] == [b] + [c];
    RunCons(s, a, [b, c]);
    RunCons(r1, b, [c]);
    OneStep(r2, c);
  }

  lemma OneStep(s: Sys, a: bool)
    requires Shape(s)
    ensures Run(Running(s), [a]) == Step(s, a)
  {
    hide Step, Shape;
    assert Run(Running(s), [a]) == Run(Step(s, a), []);
  }

  lemma RestedToQueueing(s: Sys, e: nat)
    requires Rested(s, e)
    ensures var o := Run(Running(s), [false, false, true]);
      o.Running? && Queueing(o.sys, e, 2)
  {
    hide Step, Shape, SamePrograms;
    var r1 := TakeReadLock(s);
    var r2 := LeaveReading(r1);
    var r3 := TakeWriteLock(r2);
    ThreeSteps(s, r1, r2, false, false, true);
    assert Range(2, e) == [2] + Range(3, e);
    assert r3.ready == [2] + (Range(3, e) + [1]);
  }

  lemma QueueingStep(s: Sys, e: nat, k: nat)
    requires Queueing(s, e, k) && k <= e
    ensures var o := Run(Running(s), [false]);
      o.Running? && Queueing(o.sys, e, k + 1)
  {
    hide Step, Shape, SamePrograms;
    OneStep(s, false);
    var r := JoinReaders(s);
    assert k < e ==> r.ready == [k + 1] + (Range(k + 2, e) + [1]);
    assert k == e ==> r.ready == [1];
  }

  lemma WaitingRange(s: Sys, e: nat)
    requires Queueing(s, e, e + 1)
    ensures Waiting(s.waiting) == Range(2, e) == [2] + Range(3, e)
  {
    RangeAt(2, e);
    assert Waiting(s.waiting) == Range(2, e);
  }

  lemma QueueingToWoken(s: Sys, e: nat)
    requires Queueing(s, e, e + 1)
    ensures var o := Run(Running(s), [false]);
      o.Running? && Woken(o.sys, e)
  {
    hide Step, Shape, SamePrograms, Range, Waiting, Run;
    OneStep(s, false);
    WaitingRange(s, e);
    var r := LeaveWriting(s);
    assert r.ready == [2] + Range(3, e);
  }

  lemma WokenToRequeueing(s: Sys, e: nat)
    requires Woken(s, e) && e >= 3
    ensures var o := Run(Running(s), [false, false, true]);
      o.Running? && Requeueing(o.sys, e, 3)
  {
    hide Step, Shape, SamePrograms;
    var r1 := GoOnReading(s);
    var r2 := LeaveReading(r1);
    var r3 := TakeWriteLock(r2);
    ThreeSteps(s, r1, r2, false, false, true);
    assert Range(3, e) == [3] + Range(4, e);
    assert r3.ready == [3] + (Range(4, e) + [2]);
  }

  /** A woken reader goes on, reads, and then waits for the write lock. */
  lemma ReadThenWait(s: Sys) returns (r: Sys)
    requires MemberAt(s, WokenRead) && s.writeCount == 1 && s.readCount == 0
    ensures Run(Running(s), [false, false, false]) == Front(r) && NobodyAsleep(r)
    ensures r == s.(tcbs := r.tcbs, waiting := PushWaiting(s.waiting, s.current), out := r.out)
    ensures |r.tcbs| == |s.tcbs| && r.tcbs[s.current].point == WokenWrite && r.tcbs[s.current].prog == MEMBER
    ensures forall t :: 0 <= t < |s.tcbs| && t != s.current ==> r.tcbs[t] == s.tcbs[t]
  {
    hide Step, Shape, SamePrograms, Front, PushWaiting;
    var r1 := GoOnReading(s);
    var r2 := LeaveReading(r1);
    r := JoinWriters(r2);
    ThreeSteps(s, r1, r2, false, false, false);
  }

  lemma RequeueingReady(q: seq<nat>, e: nat, k: nat)
    requires k <= e && q == Range(k + 1, e) + [2]
    ensures q == if k < e then [k + 1] + (Range(k + 2, e) + [2]) else [2]
  {
  }

  lemma TailMoves(e: nat, k: nat)
    requires e >= 1 && k >= 3
    ensures ((e - 1 + k - 3) % THREAD_MAX + 1) % THREAD_MAX == (e - 1 + (k + 1) - 3) % THREAD_MAX
  {
  }

  lemma RequeueingStep(s: Sys, e: nat, k: nat)
    requires Requeueing(s, e, k) && k <= e
    ensures var o := Run(Running(s), [false, false, false]);
      o.Running? && Requeueing(o.sys, e, k + 1)
  {
    hide Run, Shape, SamePrograms, Range;
    var r := ReadThenWait(s);
    RequeueingReady(s.ready, e, k);
    TailMoves(e, k);
  }

  /** The scan starts at e-1 and stops at the wrapped tail at once: nobody is woken and the scheduler returns. */
  lemma RequeueingEnds(s: Sys, e: nat)
    requires Requeueing(s, e, e + 1) && e > SAFE_ENROLLS
    ensures var o := Run(Running(s), [false]);
      o.Finished? && |o.sys.tcbs| == e + 1 && forall t :: 3 <= t <= e ==> o.sys.tcbs[t].point == WokenWrite
  {
    hide Step, Shape, SamePrograms;
    OneStep(s, false);
    assert (2 * e - 3) % THREAD_MAX == 2 * e - 103;
    var r := LeaveWriting(s);
    assert r.ready == [];
  }

  // ---- the whole run ----

  function Falses(n: nat): seq<bool> {
    if n == 0 then [] else [false] + Falses(n - 1)
  }

  lemma {:induction false} SleepyPhase(s: Sys, e: nat, k: nat)
    requires Sleepy(s, e, k)
    ensures var o := Run(Running(s), Falses(e - k + 1));
      o.Running? && Rested(o.sys, e)
    decreases e - k
  {
    hide Step, Rested;
    SleepyStep(s, e, k);
    OneStep(s, false);
    RunAppend(Running(s), [false], Falses(e - k));
    if k >= e {
    } else {
      SleepyPhase(Step(s, false).sys, e, k + 1);
    }
  }

  lemma {:induction false} QueueingPhase(s: Sys, e: nat, k: nat)
    requires Queueing(s, e, k)
    ensures var o := Run(Running(s), Falses(e + 1 - k));
      o.Running? && Queueing(o.sys, e, e + 1)
    decreases e + 1 - k
  {
    hide Step, Queueing;
    QueueingBounds(s, e, k);
    if k > e {
    } else {
      QueueingStep(s, e, k);
      RunAppend(Running(s), [false], Falses(e - k));
      QueueingPhase(Run(Running(s), [false]).sys, e, k + 1);
    }
  }

  lemma QueueingBounds(s: Sys, e: nat, k: nat)
    requires Queueing(s, e, k)
    ensures k <= e + 1 && Shape(s)
  {
  }

  lemma ThreeMore(n: nat)
    ensures Falses(n + 3) == [false, false, false] + Falses(n)
  {
    assert Falses(n + 3) == [false] + Falses(n + 2);
    assert Falses(n + 2) == [false] + Falses(n + 1);
  }

  lemma {:induction false} RequeueingPhase(s: Sys, e: nat, k: nat)
    requires Requeueing(s, e, k)
    ensures var o := Run(Running(s), Falses(3 * (e + 1 - k)));
      o.Running? && Requeueing(o.sys, e, e + 1)
    decreases e + 1 - k
  {
    hide Step, Requeueing;
    RequeueingBounds(s, e, k);
    if k > e {
    } else {
      RequeueingStep(s, e, k);
      ThreeMore(3 * (e - k));
      RunAppend(Running(s), [false, false, false], Falses(3 * (e - k)));
      RequeueingPhase(Run(Running(s), [false, false, false]).sys, e, k + 1);
    }
  }

  lemma RequeueingBounds(s: Sys, e: nat, k: nat)
    requires Requeueing(s, e, k)
    ensures k <= e + 1 && Shape(s)
  {
  }

  lemma CrowdBoots(e: nat, slice: int)
    requires 2 <= e < THREAD_MAX && slice >= 1
    ensures ValidConfig(Crowd(e, slice))
    ensures var o := Pass(Boot(Crowd(e, slice)), 0);
      o.Running? && Sleepy(o.sys, e, 1)
  {
    hide Pass;
    var s := Boot(Crowd(e, slice));
    assert NobodyAsleep(s);
    QuietPass(s, 0);
    RangeAt(1, e);
    assert s.ready == Range(1, e);
    assert Range(1, e) == [1] + Range(2, e);
    assert Range(2, e) + Range(1, 0) == Range(2, e);
  }

  /** The signals of the run: the two writers are stopped from the keyboard right after they have got the lock, and no
      other yield is signalled, as happens when the time slice is longer than the run. */
  function CrowdSignals(e: nat): seq<bool>
    requires e >= 2
  {
    var last := Falses(3 * (e - 2)) + [false];
    Falses(e) + ([false, false, true] + (Falses(e - 1) + ([false] + ([false, false, true] + last))))
  }

  /** With e > SAFE_ENROLLS enroll threads, and any time slice, the scheduler can return while threads 3..e still wait
      for the write lock. */
  lemma CrowdDeadlocks(e: nat, slice: int)
    requires SAFE_ENROLLS < e < THREAD_MAX && slice >= 1
    ensures ValidConfig(Crowd(e, slice))
    ensures var o := Execution(Crowd(e, slice), CrowdSignals(e));
      o.Finished? && |o.sys.tcbs| == e + 1 && forall t :: 3 <= t <= e ==> o.sys.tcbs[t].point == WokenWrite
  {
    hide Pass, Step, Sleepy, Rested, Queueing, Woken, Requeueing, Falses, Run, Shape;
    CrowdBoots(e, slice);
    var o0 := Pass(Boot(Crowd(e, slice)), 0);
    var f6 := [false];
    var f5 := Falses(3 * (e - 2)) + f6;
    var f4 := [false, false, true] + f5;
    var f3 := [false] + f4;
    var f2 := Falses(e - 1) + f3;
    var f1 := [false, false, true] + f2;
    RunAppend(o0, Falses(e), f1);
    SleepyPhase(o0.sys, e, 1);
    var o1 := Run(o0, Falses(e));
    RunAppend(o1, [false, false, true], f2);
    RestedToQueueing(o1.sys, e);
    var o2 := Run(o1, [false, false, true]);
    RunAppend(o2, Falses(e - 1), f3);
    QueueingPhase(o2.sys, e, 2);
    var o3 := Run(o2, Falses(e - 1));
    RunAppend(o3, [false], f4);
    QueueingToWoken(o3.sys, e);
    var o4 := Run(o3, [false]);
    RunAppend(o4, [false, false, true], f5);
    WokenToRequeueing(o4.sys, e);
    var o5 := Run(o4, [false, false, true]);
    RunAppend(o5, Falses(3 * (e - 2)), f6);
    RequeueingPhase(o5.sys, e, 3);
    RequeueingEnds(Run(o5, Falses(3 * (e - 2))).sys, e);
  }

  // ---- the exact bound ----

  /** A time slice, in seconds, longer than any of these runs takes. */
  const SLOW := 1000

  /** Whatever the threads and the signals, a run with e enroll threads returns only when every thread has exited. */
  ghost predicate AlwaysCompletes(e: nat) {
    forall cfg: Config, signals: seq<bool> ::
      ValidConfig(cfg) && |Enrolls(cfg)| == e && Execution(cfg, signals).Finished?
      ==> AllExited(Execution(cfg, signals).sys)
  }

  lemma {:induction false} CrowdSize(e: nat, slice: int)
    ensures |Enrolls(Crowd(e, slice))| == e
  {
    if e == 0 {
      assert Enrolls(Crowd(e, slice)) == {};
    } else {
      CrowdSize(e - 1, slice);
      forall t: nat ensures t in Enrolls(Crowd(e, slice)) <==> t in Enrolls(Crowd(e - 1, slice)) + {e} {
        assert IsEnrollThread(Crowd(e, slice), t) <==> 1 <= t <= e;
        assert IsEnrollThread(Crowd(e - 1, slice), t) <==> 1 <= t <= e - 1;
      }
      assert Enrolls(Crowd(e, slice)) == Enrolls(Crowd(e - 1, slice)) + {e};
    }
  }

  /** No deadlock in any run, exactly when at most SAFE_ENROLLS of the threads are enroll threads. */
  lemma EnrollBoundIsExact(e: nat)
    requires e < THREAD_MAX
    ensures AlwaysCompletes(e) <==> e <= SAFE_ENROLLS
  {
    hide Execution;
    if e <= SAFE_ENROLLS {
      forall cfg: Config, signals: seq<bool>
        | ValidConfig(cfg) && |Enrolls(cfg)| == e && Execution(cfg, signals).Finished?
        ensures AllExited(Execution(cfg, signals).sys)
      {
        NoDeadlock(cfg, signals);
      }
    } else {
      CrowdDeadlocks(e, SLOW);
      CrowdSize(e, SLOW);
      var o := Execution(Crowd(e, SLOW), CrowdSignals(e));
      assert o.sys.tcbs[3].point == WokenWrite;
      assert !AllExited(o.sys);
    }
  }

  // ---- and of every run ending ----

  lemma {:induction false} IdleTurnsStop(o: Outcome, a: seq<bool>, b: seq<bool>)
    requires Shape(o.sys) && Run(o, a).Finished?
    ensures IdleTurns(o, a + b) == IdleTurns(o, a)
    decreases |a|
  {
    hide Step, Shape;
    if o.Finished? || a == [] {
    } else {
      assert (a + b)[1..] == a[1..] + b;
      IdleTurnsStop(Step(o.sys, a[0]), a[1..], b);
    }
  }

  lemma {:induction false} FalsesLength(n: nat)
    ensures |Falses(n)| == n
  {
    if n == 0 {
    } else {
      FalsesLength(n - 1);
    }
  }

  /** A crowd beyond the bound has no limit after which every thread has exited. */
  lemma CrowdNeverSettles(e: nat, bound: nat)
    requires SAFE_ENROLLS < e < THREAD_MAX
    ensures ValidConfig(Crowd(e, SLOW)) && !EndsBy(Crowd(e, SLOW), bound)
  {
    hide Pass, Run, Step, Shape, Falses, CrowdSignals, IdleTurns;
    CrowdDeadlocks(e, SLOW);
    var o := Pass(Boot(Crowd(e, SLOW)), 0);
    var a := CrowdSignals(e);
    var b := Falses(bound + IdleTurns(o, a));
    IdleTurnsStop(o, a, b);
    FalsesLength(bound + IdleTurns(o, a));
    RunAppend(o, a, b);
    FinishedStays(Run(o, a), b);
    var t := Execution(Crowd(e, SLOW), a + b).sys;
    assert t.tcbs[3].point == WokenWrite;
    assert !AllExited(t);
  }

  lemma FinishedStays(o: Outcome, b: seq<bool>)
    requires Shape(o.sys) && o.Finished?
    ensures Run(o, b) == o
  {
  }

  /** Every run of every command line with e enroll threads ends, with every thread exited, exactly when e is at most
      SAFE_ENROLLS. */
  lemma AlwaysEndsExactly(e: nat)
    requires e < THREAD_MAX
    ensures (forall cfg: Config :: ValidConfig(cfg) && |Enrolls(cfg)| == e ==> AlwaysEnds(cfg)) <==> e <= SAFE_ENROLLS
  {
    hide EndsBy, Enrolls, ValidConfig, Budget;
    if e <= SAFE_ENROLLS {
      forall cfg: Config | ValidConfig(cfg) && |Enrolls(cfg)| == e ensures AlwaysEnds(cfg) {
        EndsByBudget(cfg);
      }
    } else {
      var cfg := Crowd(e, SLOW);
      CrowdSize(e, SLOW);
      CrowdNeverSettles(e, 0);
      forall bound: nat ensures !EndsBy(cfg, bound) {
        CrowdNeverSettles(e, bound);
      }
    }
  }
}
