/** Every run ends: the work that is left falls at every stretch of code except an unsignalled round of the idle
    thread. */
module SchedulerProgress {
  import opened Threads
  import opened Scheduler
  import opened SchedulerInvariant
  import opened SchedulerSafety

  function AtLeastZero(x: int): nat {
    if x < 0 then 0 else x
  }

  /** The stretches of code a thread still has to run, plus the seconds it still has to sleep. */
  function Work(c: Tcb, asleep: bool, timeSlice: int): nat {
    match c.prog
    case Idle => 0
    case Fibonacci(n) => LoopWork(c, n)
    case Pm(n) => LoopWork(c, n)
    case Enroll(_, _, seconds, _) =>
      match c.point
      case Exited => 0
      case Writing => 1
      case WokenWrite => 2
      case Choosing => 3
      case Reading => 4
      case WokenRead => 5
      case _ =>
        if asleep then 6 + AtLeastZero(c.sleepingTime)
        else if c.keepgo then 6
        else 7 + AtLeastZero(seconds + timeSlice)
  }

  /** The round of the loop of fibonacci or pm in which the counter, which starts at 1 and wraps, has the value i. */
  function Round(i: int): (k: nat)
    ensures 1 <= k <= INT_RANGE
  {
    (i - 1) % INT_RANGE + 1
  }

  lemma NextRound(i: int)
    requires IsInt(i) && Round(i) < INT_RANGE
    ensures IsInt(Wrap32(i + 1)) && Round(Wrap32(i + 1)) == Round(i) + 1
  {
  }

  lemma RoundTells(i: int, n: int)
    requires IsInt(i) && IsInt(n)
    ensures Round(i) == Round(n) <==> i == n
    ensures Round(n) == if n >= 1 then n else n + INT_RANGE
  {
  }

  function LoopWork(c: Tcb, n: int): nat {
    if c.point == Exited then 0
    else if c.point == Start then Round(n)
    else AtLeastZero(Round(n) - Round(c.i))
  }

  /** The loop of fibonacci or pm goes on until i has reached n. */
  predicate LoopFits(c: Tcb) {
    match c.prog
    case Fibonacci(n) => LoopBounds(c, n)
    case Pm(n) => LoopBounds(c, n)
    case _ => true
  }

  predicate LoopBounds(c: Tcb, n: int) {
    && IsInt(n)
    && (c.point == Repeat ==> IsInt(c.i) && Round(c.i) < Round(n))
    && (c.point == Exited ==> c.i == n)
  }

  ghost predicate LoopsFit(s: Sys) {
    forall t :: 0 <= t < |s.tcbs| ==> LoopFits(s.tcbs[t])
  }

  function WorkAt(s: Sys, t: nat): nat
    requires t < |s.tcbs|
  {
    Work(s.tcbs[t], IsAsleep(s, t), s.timeSlice)
  }

  function Total(s: Sys, k: nat): nat
    requires k <= |s.tcbs|
  {
    if k == 0 then 0 else Total(s, k - 1) + WorkAt(s, k - 1)
  }

  ghost predicate NoMoreWork(s: Sys, r: Sys) {
    |s.tcbs| == |r.tcbs| && forall t :: 0 <= t < |s.tcbs| ==> WorkAt(r, t) <= WorkAt(s, t)
  }

  lemma {:induction false} TotalFalls(s: Sys, r: Sys, k: nat)
    requires NoMoreWork(s, r) && k <= |s.tcbs|
    ensures Total(r, k) <= Total(s, k)
    ensures (exists t :: 0 <= t < k && WorkAt(r, t) < WorkAt(s, t)) ==> Total(r, k) < Total(s, k)
  {
    if k == 0 {
    } else {
      TotalFalls(s, r, k - 1);
    }
  }

  // ---- a pass ----

  /** The scan leaves non-enroll threads alone, and takes work from every thread with time left to sleep. */
  lemma {:induction false} SleepScanWorks(s: Sys, i: nat)
    requires Layout(s) && i <= THREAD_MAX
    ensures var r := SleepScan(s, i);
      && NoMoreWork(s, r)
      && (LoopsFit(s) ==> LoopsFit(r))
      && (forall t :: i <= t < |s.tcbs| && IsAsleep(s, t) && s.tcbs[t].sleepingTime > 0 ==> WorkAt(r, t) < WorkAt(s, t))
      && (forall t :: 0 <= t < |s.tcbs| && !s.tcbs[t].prog.Enroll? ==> r.tcbs[t] == s.tcbs[t])
    decreases THREAD_MAX - i
  {
    hide SamePrograms, WorkAt, SleepSlot;
    if i == THREAD_MAX {
    } else {
      SleepSlotLayout(s, i);
      SleepSlotWorks(s, i);
      SleepScanWorks(SleepSlot(s, i), i + 1);
    }
  }

  lemma SleepSlotWorks(s: Sys, i: nat)
    requires Layout(s) && i < THREAD_MAX
    ensures var r := SleepSlot(s, i);
      && NoMoreWork(s, r)
      && (LoopsFit(s) ==> LoopsFit(r))
      && (forall t :: 0 <= t < |s.tcbs| && t != i ==> r.tcbs[t] == s.tcbs[t] && IsAsleep(r, t) == IsAsleep(s, t))
      && (i < |s.tcbs| && IsAsleep(s, i) && s.tcbs[i].sleepingTime > 0 ==> WorkAt(r, i) < WorkAt(s, i))
      && (forall t :: 0 <= t < |s.tcbs| && !s.tcbs[t].prog.Enroll? ==> r.tcbs[t] == s.tcbs[t])
  {
  }

  lemma PassWorks(s: Sys, status: int)
    requires EntryInv(s, status == 1)
    ensures var r := Pass(s, status).sys;
      && NoMoreWork(s, r)
      && (LoopsFit(s) ==> LoopsFit(r))
      && (forall t :: 0 <= t < |s.tcbs| && IsAsleep(s, t) && s.tcbs[t].sleepingTime > 0 ==> WorkAt(r, t) < WorkAt(s, t))
      && (forall t :: 0 <= t < |s.tcbs| && !s.tcbs[t].prog.Enroll? ==> r.tcbs[t] == s.tcbs[t])
  {
    hide SleepScan, Conserved, Locks, History, Where, Work, SamePrograms, LoopFits;
    SleepScanWorks(s, 0);
    SleepScanKeeps(s, status == 1, 0);
    var s1 := SleepScan(s, 0);
    AfterScansWorks(s1, status);
  }

  lemma AfterScansWorks(s: Sys, status: int)
    requires EntryInv(s, status == 1) && SleepersHaveTime(s)
    ensures var r := Dispatch(Requeue(WaitScan(s, s.waiting.head), status)).sys;
      r == s.(ready := r.ready, waiting := r.waiting, current := r.current)
  {
    hide WaitScan, EntryInv, Where, SamePrograms, ScannedInv, Dispatch;
    EntryHasShape(s, status == 1);
    WaitScanKeeps(s, status == 1);
    DispatchMoves(Requeue(WaitScan(s, s.waiting.head), status));
  }

  lemma DispatchMoves(s: Sys)
    requires Shape(s)
    ensures var r := Dispatch(s).sys; r == s.(ready := r.ready, current := r.current)
  {
    hide Shape, SamePrograms;
  }

  // ---- a stretch of code ----

  lemma SegmentWorks(s: Sys)
    requires Inv(s) && LoopsFit(s)
    ensures var r := Segment(s).0;
      && NoMoreWork(s, r) && LoopsFit(r)
      && (s.current != 0 ==> WorkAt(r, s.current) < WorkAt(s, s.current))
      && (s.current == 0 ==> r == s.(out := r.out) && Segment(s).1.AtYield?)
  {
    hide Segment, Inv, SamePrograms;
    CurrentFacts(s);
    if s.current != 0 {
      SegmentCurrent(s);
    } else {
      IdleSegment(s);
    }
  }

  lemma IdleSegment(s: Sys)
    requires Shape(s) && s.tcbs[s.current].prog.Idle?
    ensures Segment(s) == (Say(s, IdleLine), AtYield)
  {
    hide FibSegment, PmSegment, EnrollStart, EnrollReading, EnrollChoosing, EnrollWriting;
    hide AfterReadLock, AfterWriteLock;
  }

  lemma CurrentFacts(s: Sys)
    requires Inv(s)
    ensures s.current < |s.tcbs| && |s.sleeping| == THREAD_MAX + 1 && Shape(s)
    ensures s.tcbs[s.current].prog.Idle? <==> s.current == 0
    ensures s.current != 0 ==> IsLive(s.tcbs[s.current]) && PointFits(s.tcbs[s.current]) && !IsAsleep(s, s.current)
  {
    if s.current != 0 { CurrentIsNowhereElse(s); }
  }

  lemma LoopCurrent(s: Sys)
    requires Shape(s) && !s.tcbs[s.current].prog.Enroll? && !s.tcbs[s.current].prog.Idle? && !IsAsleep(s, s.current)
    requires IsLive(s.tcbs[s.current]) && PointFits(s.tcbs[s.current])
    requires LoopFits(s.tcbs[s.current])
    ensures var r := Segment(s).0;
      && r == s.(tcbs := s.tcbs[s.current := r.tcbs[s.current]], out := r.out)
      && WorkAt(r, s.current) < WorkAt(s, s.current)
      && LoopFits(r.tcbs[s.current])
  {
    hide SamePrograms, FibSegment, PmSegment, Round, Wrap32;
    var (c, n) := (s.tcbs[s.current], s.tcbs[s.current].prog.n);
    LoopRuns(s);
    RoundTells(1, 1);
    RoundTells(1, n);
    if c.point == Repeat {
      NextRound(c.i);
      RoundTells(Wrap32(c.i + 1), n);
    }
  }

  /** One round of fibonacci or pm: i goes up by one, and the thread exits exactly when i has reached n. */
  ghost predicate OneRound(s: Sys, r: Sys, n: int)
    requires s.current < |s.tcbs|
  {
    && |r.tcbs| == |s.tcbs|
    && r == s.(tcbs := s.tcbs[s.current := r.tcbs[s.current]], out := r.out)
    && var (c, d) := (s.tcbs[s.current], r.tcbs[s.current]);
       && d.i == (if c.point.Start? then 1 else Wrap32(c.i + 1))
       && d == c.(i := d.i, fCur := d.fCur, fPrev := d.fPrev, point := if d.i == n then Exited else Repeat)
  }

  lemma FibRuns(s: Sys)
    requires Shape(s) && s.tcbs[s.current].prog.Fibonacci?
    ensures OneRound(s, FibSegment(s).0, s.tcbs[s.current].prog.n)
  {
    hide SamePrograms, Wrap32;
  }

  lemma PmRuns(s: Sys)
    requires Shape(s) && s.tcbs[s.current].prog.Pm?
    ensures OneRound(s, PmSegment(s).0, s.tcbs[s.current].prog.n)
  {
    hide SamePrograms, Wrap32;
  }

  lemma LoopRuns(s: Sys)
    requires Shape(s) && (s.tcbs[s.current].prog.Fibonacci? || s.tcbs[s.current].prog.Pm?)
    ensures OneRound(s, Segment(s).0, s.tcbs[s.current].prog.n)
  {
    hide SamePrograms, FibSegment, PmSegment, OneRound;
    if s.tcbs[s.current].prog.Fibonacci? { FibRuns(s); } else { PmRuns(s); }
  }

  lemma EnrollCurrent(s: Sys)
    requires Shape(s) && s.tcbs[s.current].prog.Enroll? && s.tcbs[s.current].point != Start && !IsAsleep(s, s.current)
    requires IsLive(s.tcbs[s.current]) && PointFits(s.tcbs[s.current])
    ensures var r := Segment(s).0;
      && r.tcbs == s.tcbs[s.current := r.tcbs[s.current]] && r.sleeping == s.sleeping
      && WorkAt(r, s.current) < WorkAt(s, s.current)
  {
    hide SamePrograms, PushWaiting, AfterReadLock, EnrollReading, EnrollChoosing, AfterWriteLock, EnrollWriting;
    var (c, r) := (s.tcbs[s.current], Segment(s).0);
    match c.point {
      case WokenRead => AfterLockMoves(s);
      case Reading => UnlockMoves(s);
      case Choosing => EnrollChooses(s);
      case WokenWrite => AfterLockMoves(s);
      case Writing => UnlockMoves(s);
      case Start =>
      case Repeat =>
      case Exited =>
    }
  }

  /** The stretches of enroll that only move its point on. */
  lemma AfterLockMoves(s: Sys)
    requires Shape(s)
    ensures OnlyPoint(s, AfterReadLock(s).0, Reading) && OnlyPoint(s, AfterWriteLock(s).0, Writing)
  {
    hide SamePrograms;
  }

  lemma UnlockMoves(s: Sys)
    requires Shape(s) && s.tcbs[s.current].prog.Enroll?
    ensures OnlyPoint(s, EnrollReading(s).0, Choosing) && OnlyPoint(s, EnrollWriting(s).0, Exited)
  {
    hide SamePrograms;
  }

  lemma EnrollChooses(s: Sys)
    requires Shape(s) && s.tcbs[s.current].prog.Enroll?
    ensures OnlyPoint(s, EnrollChoosing(s).0, Writing) || OnlyPoint(s, EnrollChoosing(s).0, WokenWrite)
  {
    hide SamePrograms, PushWaiting;
  }

  /** Of the current thread's control block only the point, and what the lock keeps for a waiting thread, has
      changed. */
  ghost predicate OnlyPoint(s: Sys, r: Sys, p: Point)
    requires s.current < |s.tcbs|
  {
    && |r.tcbs| == |s.tcbs| && r.tcbs == s.tcbs[s.current := r.tcbs[s.current]]
    && r.sleeping == s.sleeping && r.timeSlice == s.timeSlice
    && var (c, d) := (s.tcbs[s.current], r.tcbs[s.current]);
       d == c.(point := p, waitingFor := d.waitingFor, waitedWrite := d.waitedWrite)
  }

  lemma EnrollFirst(s: Sys)
    requires Shape(s) && s.tcbs[s.current].prog.Enroll? && s.tcbs[s.current].point == Start && !IsAsleep(s, s.current)
    requires !s.tcbs[s.current].keepgo
    ensures var r := Segment(s).0;
      && r.tcbs == s.tcbs[s.current := r.tcbs[s.current]]
      && (forall t :: 0 <= t <= THREAD_MAX && t != s.current ==> IsAsleep(r, t) == IsAsleep(s, t))
      && WorkAt(r, s.current) < WorkAt(s, s.current)
  {
    hide SamePrograms;
  }

  /** enroll going for the read lock, once thread_awake has made s from the state before. */
  lemma LockToReadWorks(s: Sys)
    requires Shape(s) && s.tcbs[s.current].prog.Enroll? && s.tcbs[s.current].point == Start && s.tcbs[s.current].keepgo
    requires !IsAsleep(s, s.current)
    ensures var r := if ReadLock(s).1 then ReadLock(s).0 else AfterReadLock(ReadLock(s).0).0;
      && r.tcbs == s.tcbs[s.current := r.tcbs[s.current]] && r.sleeping == s.sleeping
      && WorkAt(r, s.current) < WorkAt(s, s.current)
  {
    hide SamePrograms, PushWaiting;
  }

  lemma EnrollSecond(s: Sys)
    requires Inv(s) && s.current != 0 && s.tcbs[s.current].prog.Enroll? && s.tcbs[s.current].point == Start
    requires s.tcbs[s.current].keepgo
    ensures var r := Segment(s).0; var m := Awake(s, s.tcbs[s.current].prog.b);
      && Shape(m) && m.current == s.current && m.tcbs[s.current] == s.tcbs[s.current] && !IsAsleep(m, s.current)
      && r == if ReadLock(m).1 then ReadLock(m).0 else AfterReadLock(ReadLock(m).0).0
  {
    CurrentFacts(s);
    AwakeKeeps(s, s.tcbs[s.current].prog.b);
    hide Inv, SamePrograms, Awake, ReadLock, AfterReadLock, Shape;
  }

  lemma SegmentCurrent(s: Sys)
    requires Inv(s) && s.current != 0 && LoopsFit(s)
    ensures var r := Segment(s).0;
      && |r.tcbs| == |s.tcbs|
      && WorkAt(r, s.current) < WorkAt(s, s.current)
      && LoopFits(r.tcbs[s.current])
      && (forall t :: 0 <= t < |s.tcbs| && t != s.current ==>
            && WorkAt(r, t) <= WorkAt(s, t)
            && (r.tcbs[t] == s.tcbs[t] || (s.tcbs[t].prog.Enroll? && r.tcbs[t].prog.Enroll?)))
  {
    hide Inv, Segment, Awake, ReadLock, AfterReadLock, Work, Shape, PointFits, IsLive;
    CurrentFacts(s);
    CurrentLoopFits(s);
    var c := s.tcbs[s.current];
    var r := Segment(s).0;
    if !c.prog.Enroll? {
      LoopCurrent(s);
    } else if c.point != Start {
      EnrollCurrent(s);
    } else if !c.keepgo {
      EnrollFirst(s);
    } else {
      EnrollSecond(s);
      AwokenWorks(s, c.prog.b);
      LockToReadWorks(Awake(s, c.prog.b));
    }
  }

  lemma CurrentLoopFits(s: Sys)
    requires Inv(s) && LoopsFit(s)
    ensures s.current < |s.tcbs| <= THREAD_MAX && LoopFits(s.tcbs[s.current]) && |s.sleeping| == THREAD_MAX + 1
    ensures s.tcbs[s.current].prog.Enroll? ==> 0 <= s.tcbs[s.current].prog.b <= THREAD_MAX
  {
  }

  lemma AwokenWorks(s: Sys, b: nat)
    requires Inv(s) && s.current != 0 && b <= THREAD_MAX
    ensures Awake(s, b).timeSlice == s.timeSlice && |Awake(s, b).tcbs| == |s.tcbs|
    ensures forall t :: 0 <= t < |s.tcbs| ==>
      WorkAt(Awake(s, b), t) <= WorkAt(s, t) && (Awake(s, b).tcbs[t] == s.tcbs[t] || s.tcbs[t].prog.Enroll?)
  {
    hide Conserved, Locks, History, Where, SamePrograms;
  }

  // ---- a step and a whole run ----

  /** Everything the argument needs of a state. */
  ghost predicate Endable(o: Outcome) {
    Good(o) && LoopsFit(o.sys)
  }

  function Left(s: Sys): nat {
    Total(s, |s.tcbs|)
  }

  lemma IdleHasSleeper(s: Sys)
    requires Inv(s) && AnySleeper(s)
    ensures exists t :: 0 <= t < |s.tcbs| && IsAsleep(s, t) && s.tcbs[t].sleepingTime > 0
  {
    var i :| 0 <= i < THREAD_MAX && s.sleeping[i].Some?;
    assert IsAsleep(s, i) && i < |s.tcbs|;
  }

  /** The idle thread runs only while somebody sleeps. */
  ghost predicate IdleHasReason(o: Outcome) {
    o.Running? && o.sys.current == 0 ==> |o.sys.sleeping| == THREAD_MAX + 1 && AnySleeper(o.sys)
  }

  lemma PassOutcome(s: Sys, status: int)
    requires Shape(s) && EntryInv(s, status == 1) && LoopsFit(s)
    ensures Endable(Pass(s, status)) && IdleHasReason(Pass(s, status))
    ensures Left(Pass(s, status).sys) <= Left(s)
    ensures (exists t :: 0 <= t < |s.tcbs| && IsAsleep(s, t) && s.tcbs[t].sleepingTime > 0)
      ==> Left(Pass(s, status).sys) < Left(s)
  {
    hide Pass, EntryInv, Inv, WorkAt, Work, Where, LoopFits;
    PassKeeps(s, status);
    PassWorks(s, status);
    var r := Pass(s, status).sys;
    TotalFalls(s, r, |s.tcbs|);
    if t :| 0 <= t < |s.tcbs| && IsAsleep(s, t) && s.tcbs[t].sleepingTime > 0 {
      assert WorkAt(r, t) < WorkAt(s, t);
    }
  }

  /** The work that is left falls, unless the idle thread goes round without a signal. */
  lemma StepOutcome(s: Sys, signalled: bool)
    requires Shape(s) && Endable(Running(s)) && IdleHasReason(Running(s))
    ensures var o := Step(s, signalled);
      && Endable(o) && IdleHasReason(o)
      && (if s.current == 0 && !signalled then o == Running(s.(out := o.sys.out))
          else Left(o.sys) < Left(s))
  {
    hide Segment, Pass, EntryInv, Inv, WorkAt, Work, LoopFits, Where, Total, Shape, SamePrograms;
    SegmentKeeps(s);
    SegmentWorks(s);
    EndsWellOpens(Segment(s));
    var (s1, ending) := Segment(s);
    TotalFalls(s, s1, |s.tcbs|);
    SegmentKeepsCurrent(s);
    if s.current != 0 { assert WorkAt(s1, s.current) < WorkAt(s, s.current); }
    match ending {
      case AtYield =>
        if s.current == 0 {
          IdleHasSleeper(s1);
        }
        if signalled { PassOutcome(s1, 1); }
      case Enter(status) => PassOutcome(s1, status);
    }
  }

  lemma SegmentKeepsCurrent(s: Sys)
    requires Shape(s)
    ensures Segment(s).0.current == s.current < |s.tcbs|
  {
    hide SamePrograms, PushWaiting;
  }

  lemma EndsWellOpens(r: (Sys, Ending))
    requires EndsWell(r)
    ensures Shape(r.0)
    ensures r.1.AtYield? ==> EntryInv(r.0, true)
  {
  }

  /** A turn of the idle thread that no signal ends. */
  predicate IdleTurn(s: Sys, signalled: bool) {
    s.current == 0 && !signalled
  }

  /** How many of the steps of a run are such turns. */
  ghost function IdleTurns(o: Outcome, signals: seq<bool>): nat
    requires Shape(o.sys)
    decreases |signals|
  {
    hide Step;
    if o.Finished? || signals == [] then 0
    else (if IdleTurn(o.sys, signals[0]) then 1 else 0) + IdleTurns(Step(o.sys, signals[0]), signals[1..])
  }

  /** How many of its steps are something else. */
  ghost function Productive(o: Outcome, signals: seq<bool>): nat
    requires Shape(o.sys)
    decreases |signals|
  {
    hide Step;
    if o.Finished? || signals == [] then 0
    else (if IdleTurn(o.sys, signals[0]) then 0 else 1) + Productive(Step(o.sys, signals[0]), signals[1..])
  }

  lemma LeftOnlyOut(s: Sys, r: Sys)
    requires r == s.(out := r.out)
    ensures Left(r) == Left(s)
  {
    TotalOnlyOut(s, r, |s.tcbs|);
  }

  lemma {:induction false} TotalOnlyOut(s: Sys, r: Sys, k: nat)
    requires r == s.(out := r.out) && k <= |s.tcbs|
    ensures Total(r, k) == Total(s, k)
  {
    if k == 0 {
    } else {
      TotalOnlyOut(s, r, k - 1);
    }
  }

  /** Every productive step of a run is paid for by the work that is left. */
  lemma {:induction false} RunSpends(o: Outcome, signals: seq<bool>)
    requires Shape(o.sys) && Endable(o) && IdleHasReason(o)
    ensures var r := Run(o, signals);
      && Endable(r) && IdleHasReason(r)
      && Productive(o, signals) + Left(r.sys) <= Left(o.sys)
      && (r.Running? ==> |signals| == Productive(o, signals) + IdleTurns(o, signals))
    decreases |signals|
  {
    hide Step, Endable, IdleHasReason, Left;
    if o.Finished? || signals == [] {
    } else {
      var o1 := Step(o.sys, signals[0]);
      StepOutcome(o.sys, signals[0]);
      if IdleTurn(o.sys, signals[0]) { LeftOnlyOut(o.sys, o1.sys); }
      RunSpends(o1, signals[1..]);
    }
  }

  /** While the scheduler has not returned there is work left. */
  lemma RunningHasWork(s: Sys)
    requires Inv(s) && LoopsFit(s) && IdleHasReason(Running(s))
    ensures Left(s) > 0
  {
    CurrentFacts(s);
    if s.current == 0 {
      IdleHasSleeper(s);
      var t :| 0 <= t < |s.tcbs| && IsAsleep(s, t) && s.tcbs[t].sleepingTime > 0;
      SleeperHasWork(s, t);
      TotalAtLeast(s, |s.tcbs|, t);
    } else {
      LiveHasWork(s, s.current);
      TotalAtLeast(s, |s.tcbs|, s.current);
    }
  }

  lemma SleeperHasWork(s: Sys, t: nat)
    requires Inv(s) && t < |s.tcbs| && IsAsleep(s, t)
    ensures WorkAt(s, t) > 0
  {
    hide Conserved, Locks, History, Where, SamePrograms;
  }

  lemma LiveHasWork(s: Sys, t: nat)
    requires t < |s.tcbs| && IsLive(s.tcbs[t]) && PointFits(s.tcbs[t]) && LoopFits(s.tcbs[t])
    ensures WorkAt(s, t) > 0
  {
  }

  lemma {:induction false} TotalAtLeast(s: Sys, k: nat, t: nat)
    requires t < k <= |s.tcbs|
    ensures Total(s, k) >= WorkAt(s, t)
  {
    if t == k - 1 {
    } else {
      TotalAtLeast(s, k - 1, t);
    }
  }

  /** What a thread costs at most, from its arguments. */
  function Cost(p: Program, timeSlice: int): nat {
    match p
    case Idle => 0
    case Fibonacci(n) => Round(n)
    case Pm(n) => Round(n)
    case Enroll(_, _, seconds, _) => 7 + AtLeastZero(seconds + timeSlice)
  }

  function Budget(programs: seq<Program>, timeSlice: int): nat {
    if programs == [] then 0
    else Budget(programs[..|programs| - 1], timeSlice) + Cost(programs[|programs| - 1], timeSlice)
  }

  lemma {:induction false} BootTotal(cfg: Config, k: nat)
    requires ValidConfig(cfg) && k <= |cfg.programs|
    ensures Total(Boot(cfg), k + 1) == Budget(cfg.programs[..k], cfg.timeSlice)
  {
    var s := Boot(cfg);
    if k > 0 {
      BootTotal(cfg, k - 1);
      assert cfg.programs[..k][..k - 1] == cfg.programs[..k - 1];
      assert s.tcbs[k] == NewTcb(cfg.programs[k - 1]) && !IsAsleep(s, k);
    } else {
      assert Total(s, 1) == Total(s, 0) + WorkAt(s, 0);
    }
  }

  lemma BootEndable(cfg: Config)
    requires ValidConfig(cfg)
    ensures LoopsFit(Boot(cfg)) && Left(Boot(cfg)) == Budget(cfg.programs, cfg.timeSlice)
  {
    BootTotal(cfg, |cfg.programs|);
    assert cfg.programs[..|cfg.programs|] == cfg.programs;
  }

  /** The scheduler has returned: with every thread exited, unless the waiting queue has wrapped, which it has not with
      at most SAFE_ENROLLS enroll threads. */
  ghost predicate HasReturned(cfg: Config, signals: seq<bool>)
    requires ValidConfig(cfg)
  {
    var o := Execution(cfg, signals);
    && o.Finished?
    && (AllExited(o.sys) <==> Flat(o.sys.waiting))
    && (|Enrolls(cfg)| <= SAFE_ENROLLS ==> AllExited(o.sys))
  }

  lemma ReturnedIs(cfg: Config, signals: seq<bool>)
    requires ValidConfig(cfg) && Execution(cfg, signals).Finished?
    ensures HasReturned(cfg, signals)
  {
    hide Execution, AllExited, Enrolls, LeftBehind;
    LeftBehindWhenWrapped(cfg, signals);
    if |Enrolls(cfg)| <= SAFE_ENROLLS { NoDeadlock(cfg, signals); }
  }

  /** Every run ends, under any pattern of signals: apart from unsignalled turns of the idle thread it has at most as
      many steps as the command line fixes, and once it has had that many the scheduler has returned. */
  lemma EveryRunEnds(cfg: Config, signals: seq<bool>)
    requires ValidConfig(cfg)
    ensures var o, budget := Pass(Boot(cfg), 0), Budget(cfg.programs, cfg.timeSlice);
      && Productive(o, signals) <= budget
      && (|signals| >= budget + IdleTurns(o, signals) ==> HasReturned(cfg, signals))
  {
    hide Boot, Pass, Run, Inv, LoopsFit, EntryInv, Left, ValidConfig, Budget, IdleHasReason, Where, Ended, HasReturned;
    BootKeeps(cfg);
    BootEndable(cfg);
    PassOutcome(Boot(cfg), 0);
    RunSpends(Pass(Boot(cfg), 0), signals);
    var o := Execution(cfg, signals);
    if o.Running? { RunningHasWork(o.sys); } else { ReturnedIs(cfg, signals); }
  }

  /** The idle thread never has more than m unsignalled turns in a row; k are behind it. */
  ghost predicate SpellsWithin(o: Outcome, signals: seq<bool>, m: nat, k: nat)
    requires Shape(o.sys)
    decreases |signals|
  {
    hide Step;
    k <= m && (o.Finished? || signals == [] || SpellsWithin(
      Step(o.sys, signals[0]), signals[1..], m, if IdleTurn(o.sys, signals[0]) then k + 1 else 0))
  }

  lemma {:induction false} SpellsBound(o: Outcome, signals: seq<bool>, m: nat, k: nat)
    requires Shape(o.sys) && SpellsWithin(o, signals, m, k)
    ensures IdleTurns(o, signals) + k <= m * (Productive(o, signals) + 1)
    decreases |signals|
  {
    hide Step, Shape;
    if o.Finished? || signals == [] {
      assert m * (0 + 1) == m;
    } else {
      var o1 := Step(o.sys, signals[0]);
      var idle := IdleTurn(o.sys, signals[0]);
      SpellsBound(o1, signals[1..], m, if idle then k + 1 else 0);
      var p := Productive(o1, signals[1..]);
      assert m * (p + 2) == m * (p + 1) + m;
    }
  }

  /** With an alarm that lets the idle thread turn at most m times in a row, the scheduler has returned after a number
      of steps that m and the command line fix. */
  lemma RunEndsUnderAlarm(cfg: Config, signals: seq<bool>, m: nat)
    requires ValidConfig(cfg)
    requires SpellsWithin(Pass(Boot(cfg), 0), signals, m, 0)
    requires |signals| >= (m + 1) * (Budget(cfg.programs, cfg.timeSlice) + 1)
    ensures HasReturned(cfg, signals)
  {
    hide Boot, Pass, Execution, ValidConfig, Budget, SpellsWithin, HasReturned, Shape, SamePrograms;
    var (o, budget) := (Pass(Boot(cfg), 0), Budget(cfg.programs, cfg.timeSlice));
    EveryRunEnds(cfg, signals);
    SpellsBound(o, signals, m, 0);
    Expand(m, Productive(o, signals), budget);
  }

  lemma Expand(m: nat, p: nat, budget: nat)
    requires p <= budget
    ensures m * (p + 1) + budget <= (m + 1) * (budget + 1)
  {
    assert m * (p + 1) <= m * (budget + 1);
    assert (m + 1) * (budget + 1) == m * (budget + 1) + budget + 1;
  }

  /** There is a bound beyond which, unsignalled turns of the idle thread aside, no run of the command line goes. */
  ghost predicate AlwaysEnds(cfg: Config)
    requires ValidConfig(cfg)
  {
    exists bound: nat :: EndsBy(cfg, bound)
  }

  ghost predicate EndsBy(cfg: Config, bound: nat)
    requires ValidConfig(cfg)
  {
    forall signals: seq<bool> :: |signals| >= bound + IdleTurns(Pass(Boot(cfg), 0), signals) ==>
      Execution(cfg, signals).Finished? && AllExited(Execution(cfg, signals).sys)
  }

  lemma EndsByBudget(cfg: Config)
    requires ValidConfig(cfg) && |Enrolls(cfg)| <= SAFE_ENROLLS
    ensures EndsBy(cfg, Budget(cfg.programs, cfg.timeSlice))
  {
    hide Boot, Pass, Execution, ValidConfig, Budget, AllExited, Enrolls;
    forall signals: seq<bool>
      | |signals| >= Budget(cfg.programs, cfg.timeSlice) + IdleTurns(Pass(Boot(cfg), 0), signals)
      ensures Execution(cfg, signals).Finished? && AllExited(Execution(cfg, signals).sys)
    {
      EveryRunEnds(cfg, signals);
    }
  }
}
