/** When a thread runs next: the ready queue is served in order, and a sleeper wakes at a pass that can be computed. */
module SchedulerTiming {
  import opened Threads
  import opened Scheduler
  import opened SchedulerInvariant
  import opened SchedulerSafety
  import opened SchedulerProgress

  /** Does this step enter the scheduler? */
  predicate Enters(s: Sys, signalled: bool)
    requires Shape(s)
  {
    Segment(s).1.Enter? || signalled
  }

  /** How many passes the scheduler makes in a run. */
  ghost function Passes(o: Outcome, signals: seq<bool>): nat
    requires Shape(o.sys)
    decreases |signals|
  {
    hide Step, Enters;
    if o.Finished? || signals == [] then 0
    else (if Enters(o.sys, signals[0]) then 1 else 0) + Passes(Step(o.sys, signals[0]), signals[1..])
  }

  lemma IdleTurnStays(s: Sys, signalled: bool)
    requires Shape(s) && Inv(s) && IdleTurn(s, signalled)
    ensures !Enters(s, signalled)
  {
    hide Inv, Segment;
    CurrentFacts(s);
    IdleSegment(s);
  }

  lemma {:induction false} PassesAreProductive(o: Outcome, signals: seq<bool>)
    requires Shape(o.sys) && Good(o)
    ensures Passes(o, signals) <= Productive(o, signals)
    decreases |signals|
  {
    hide Step, Enters, Inv, Shape, Where;
    if o.Finished? || signals == [] {
    } else {
      StepKeeps(o.sys, signals[0]);
      if IdleTurn(o.sys, signals[0]) { IdleTurnStays(o.sys, signals[0]); }
      PassesAreProductive(Step(o.sys, signals[0]), signals[1..]);
    }
  }

  /** Only finitely many passes happen, under any pattern of signals: after the first one, at most as many as the
      command line fixes. */
  lemma PassesAreBounded(cfg: Config, signals: seq<bool>)
    requires ValidConfig(cfg)
    ensures Passes(Pass(Boot(cfg), 0), signals) <= Budget(cfg.programs, cfg.timeSlice)
  {
    hide Boot, Pass, ValidConfig, Budget, EntryInv, Inv, Where;
    EveryRunEnds(cfg, signals);
    BootKeeps(cfg);
    PassKeeps(Boot(cfg), 0);
    PassesAreProductive(Pass(Boot(cfg), 0), signals);
  }

  // ---- first in, first out ----

  lemma SegmentKeepsReady(s: Sys)
    requires Shape(s)
    ensures s.ready <= Segment(s).0.ready
  {
    hide SamePrograms, PushWaiting, FibSegment, PmSegment, EnrollStart, EnrollReading, EnrollChoosing, EnrollWriting;
    hide AfterReadLock, AfterWriteLock;
    var c := s.tcbs[s.current];
    match c.prog {
      case Idle =>
      case Fibonacci(_) => LoopsKeepReady(s);
      case Pm(_) => LoopsKeepReady(s);
      case Enroll(_, _, _, _) =>
        EnrollStartKeepsReady(s);
        EnrollKeepsReady(s);
    }
  }

  lemma LoopsKeepReady(s: Sys)
    requires Shape(s)
    ensures FibSegment(s).0.ready == s.ready && PmSegment(s).0.ready == s.ready
  {
    hide SamePrograms, FibRound, PmRound;
  }

  lemma EnrollStartKeepsReady(s: Sys)
    requires Shape(s) && s.tcbs[s.current].prog.Enroll?
    ensures s.ready <= EnrollStart(s).0.ready
  {
    hide SamePrograms, PushWaiting;
  }

  lemma EnrollKeepsReady(s: Sys)
    requires Shape(s) && s.tcbs[s.current].prog.Enroll?
    ensures EnrollReading(s).0.ready == EnrollChoosing(s).0.ready == EnrollWriting(s).0.ready == s.ready
    ensures AfterReadLock(s).0.ready == AfterWriteLock(s).0.ready == s.ready
  {
    hide SamePrograms, PushWaiting;
  }

  /** A step that enters the scheduler resumes the first ready thread; any other keeps the order. */
  lemma StepServesFirst(s: Sys, signalled: bool)
    requires Shape(s) && Inv(s) && s.ready != []
    ensures var o := Step(s, signalled);
      && o.Running? && Inv(o.sys)
      && (if Enters(s, signalled) then o.sys.current == s.ready[0] && s.ready[1..] <= o.sys.ready
          else s.ready <= o.sys.ready)
  {
    hide Segment, Pass, EntryInv, Inv, Where, Shape;
    SegmentKeeps(s);
    SegmentKeepsReady(s);
    EndsWellOpens(Segment(s));
    var (s1, ending) := Segment(s);
    match ending {
      case AtYield => if signalled { PassServes(s1, 1); }
      case Enter(status) => PassServes(s1, status);
    }
  }

  lemma PassServes(s: Sys, status: int)
    requires Shape(s) && EntryInv(s, status == 1) && s.ready != []
    ensures var o := Pass(s, status);
      o.Running? && Inv(o.sys) && o.sys.current == s.ready[0] && s.ready[1..] <= o.sys.ready
  {
    hide Pass, Inv, Locks, History, Conserved, Where;
    PassKeeps(s, status);
  }

  /** A thread with k threads ahead of it is the one that the (k+1)-th pass from now resumes. */
  lemma {:induction false} DispatchedInTurn(s: Sys, signals: seq<bool>, k: nat) returns (j: nat)
    requires Shape(s) && Inv(s) && k < |s.ready|
    requires Passes(Running(s), signals) >= k + 1
    ensures j <= |signals| && Passes(Running(s), signals[..j]) == k + 1
    ensures var o := Run(Running(s), signals[..j]);
      o.Running? && o.sys.current == s.ready[k]
    decreases |signals|
  {
    hide Step, Inv, Shape, Enters;
    StepServesFirst(s, signals[0]);
    var o := Step(s, signals[0]);
    var rest := signals[1..];
    if Enters(s, signals[0]) && k == 0 {
      j := 1;
      assert signals[..1] == [signals[0]];
      assert [signals[0]][1..] == [];
      assert Run(Running(s), [signals[0]]) == Run(o, []);
      assert Passes(Running(s), [signals[0]]) == 1 + Passes(o, []);
    } else {
      var i := DispatchedInTurn(o.sys, rest, if Enters(s, signals[0]) then k - 1 else k);
      j := i + 1;
      assert signals[..j][1..] == rest[..i];
      assert s.ready[k] == if Enters(s, signals[0]) then s.ready[1..][k - 1] else s.ready[k];
    }
  }

  // ---- sleeping ----

  /** The step does not run thread_awake on thread t. */
  predicate DoesNotAwake(s: Sys, t: nat)
    requires Shape(s)
  {
    var c := s.tcbs[s.current];
    !(c.prog.Enroll? && c.point == Start && c.keepgo && c.prog.b == t)
  }

  ghost predicate NobodyAwakes(o: Outcome, signals: seq<bool>, t: nat)
    requires Shape(o.sys)
    decreases |signals|
  {
    hide Step;
    o.Finished? || signals == [] || (
      DoesNotAwake(o.sys, t) && NobodyAwakes(Step(o.sys, signals[0]), signals[1..], t))
  }

  lemma {:induction false} SleepScanAt(s: Sys, i: nat, t: nat)
    requires Layout(s) && i <= THREAD_MAX && t < |s.tcbs|
    ensures var r := SleepScan(s, i);
      && r.timeSlice == s.timeSlice
      && (if i <= t && IsAsleep(s, t) then
            && r.tcbs[t].sleepingTime == s.tcbs[t].sleepingTime - s.timeSlice
            && (IsAsleep(r, t) <==> r.tcbs[t].sleepingTime > 0)
            && (!IsAsleep(r, t) ==> r.tcbs[t].keepgo)
          else r.tcbs[t] == s.tcbs[t] && IsAsleep(r, t) == IsAsleep(s, t))
    decreases THREAD_MAX - i
  {
    hide SamePrograms, SleepSlot, PointFits, WaiterFits, SleeperFits;
    if i == THREAD_MAX {
    } else {
      SleepSlotLayout(s, i);
      SleepSlotAt(s, i);
      SleepScanAt(SleepSlot(s, i), i + 1, t);
    }
  }

  lemma SleepSlotAt(s: Sys, i: nat)
    requires Layout(s) && i < THREAD_MAX
    ensures var r := SleepSlot(s, i);
      && r.timeSlice == s.timeSlice && |r.tcbs| == |s.tcbs|
      && (IsAsleep(s, i) ==>
            && i < |s.tcbs| && r.tcbs[i].sleepingTime == s.tcbs[i].sleepingTime - s.timeSlice
            && (IsAsleep(r, i) <==> r.tcbs[i].sleepingTime > 0)
            && (!IsAsleep(r, i) ==> r.tcbs[i].keepgo))
      && (!IsAsleep(s, i) ==> r == s)
  {
    hide SamePrograms, PointFits, WaiterFits, SleeperFits;
  }

  /** A pass takes one time slice from a sleeper and readies it when nothing is left. */
  lemma PassSleeps(s: Sys, status: int, t: nat)
    requires Shape(s) && EntryInv(s, status == 1) && t < |s.tcbs|
    ensures var r := Pass(s, status).sys;
      && r.timeSlice == s.timeSlice
      && (if IsAsleep(s, t) then
            && r.tcbs[t].sleepingTime == s.tcbs[t].sleepingTime - s.timeSlice
            && (IsAsleep(r, t) <==> r.tcbs[t].sleepingTime > 0)
            && (!IsAsleep(r, t) ==> r.tcbs[t].keepgo)
          else r.tcbs[t] == s.tcbs[t] && !IsAsleep(r, t))
  {
    hide SleepScan, Conserved, Locks, History, Where, SamePrograms;
    SleepScanAt(s, 0, t);
    SleepScanKeeps(s, status == 1, 0);
    AfterScansWorks(SleepScan(s, 0), status);
  }

  /** A stretch of code neither puts another thread to sleep nor, without thread_awake, wakes it. */
  lemma SegmentLeavesAsleep(s: Sys, t: nat)
    requires Shape(s) && Inv(s) && 0 < t < |s.tcbs| && t != s.current && DoesNotAwake(s, t) && IsAsleep(s, t)
    ensures var r := Segment(s).0;
      && |r.tcbs| == |s.tcbs|
      && IsAsleep(r, t) && r.tcbs[t] == s.tcbs[t]
  {
    hide Inv, Segment, Awake, ReadLock, AfterReadLock, Work, WorkAt, PointFits, IsLive, SamePrograms, LoopFits;
    CurrentFacts(s);
    SleeperIndex(s, t);
    var c := s.tcbs[s.current];
    if s.current == 0 {
      IdleSegment(s);
    } else if !c.prog.Enroll? {
      LoopRuns(s);
    } else if c.point != Start {
      EnrollCurrent(s);
    } else if !c.keepgo {
      EnrollFirst(s);
    } else {
      EnrollSecond(s);
      AwakeKeeps(s, c.prog.b);
      LockToReadWorks(Awake(s, c.prog.b));
    }
  }

  lemma SleeperIndex(s: Sys, t: nat)
    requires Inv(s) && IsAsleep(s, t)
    ensures 0 < t < |s.tcbs| <= THREAD_MAX && s.tcbs[t].sleepingTime > 0 && !s.tcbs[t].keepgo
    ensures |s.sleeping| == THREAD_MAX + 1 && s.current < |s.tcbs|
    ensures s.tcbs[s.current].prog.Enroll? ==> 0 <= s.tcbs[s.current].prog.b <= THREAD_MAX
  {
  }

  /** A step of a sleeper that nobody awakens: a pass takes one time slice from it, anything else leaves it asleep. */
  lemma StepSleeps(s: Sys, signalled: bool, t: nat)
    requires Shape(s) && Inv(s) && IsAsleep(s, t) && t < |s.tcbs| && DoesNotAwake(s, t)
    ensures var o := Step(s, signalled); var left := s.tcbs[t].sleepingTime - s.timeSlice;
      && |o.sys.tcbs| == |s.tcbs| && o.sys.timeSlice == s.timeSlice
      && (if !Enters(s, signalled) then IsAsleep(o.sys, t) && o.sys.tcbs[t] == s.tcbs[t]
          else if left > 0 then IsAsleep(o.sys, t) && o.sys.tcbs[t].sleepingTime == left
          else !IsAsleep(o.sys, t) && o.sys.tcbs[t].keepgo)
  {
    hide Segment, Pass, EntryInv, Where, DoesNotAwake, SleeperFits, Inv, Shape;
    SleeperIndex(s, t);
    CurrentAwake(s);
    SegmentKeeps(s);
    EndsWellOpens(Segment(s));
    SegmentLeavesAsleep(s, t);
    var (s1, ending) := Segment(s);
    match ending {
      case AtYield => if signalled { PassSleeps(s1, 1, t); }
      case Enter(status) => PassSleeps(s1, status, t);
    }
  }

  lemma CurrentAwake(s: Sys)
    requires Inv(s)
    ensures !IsAsleep(s, s.current)
  {
    if s.current != 0 { CurrentIsNowhereElse(s); }
  }

  /** Once keepgo is set a thread never sleeps again. */
  lemma NeverSleepsAgain(o: Outcome, signals: seq<bool>, t: nat)
    requires Shape(o.sys) && Good(o) && t < |o.sys.tcbs| && o.sys.tcbs[t].keepgo && !IsAsleep(o.sys, t)
    ensures !IsAsleep(Run(o, signals).sys, t)
  {
    hide Inv, Where, Shape;
    RunKeeps(o, signals);
    var r := Run(o, signals);
    if r.Running? {
      if IsAsleep(r.sys, t) { SleeperIndex(r.sys, t); }
    } else {
      FinishedNobodySleeps(o, signals, t);
    }
  }

  /** When the scheduler returns nobody is asleep. */
  lemma {:induction false} FinishedNobodySleeps(o: Outcome, signals: seq<bool>, t: nat)
    requires Shape(o.sys) && Good(o) && (o.Running? || !IsAsleep(o.sys, t))
    requires Run(o, signals).Finished?
    ensures !IsAsleep(Run(o, signals).sys, t)
    decreases |signals|
  {
    hide Step, Inv, Where, Shape;
    if o.Finished? {
    } else {
      StepKeeps(o.sys, signals[0]);
      var o1 := Step(o.sys, signals[0]);
      if o1.Finished? { StepFinishesAwake(o.sys, signals[0], t); }
      FinishedNobodySleeps(o1, signals[1..], t);
    }
  }

  lemma StepFinishesAwake(s: Sys, signalled: bool, t: nat)
    requires Shape(s) && Inv(s) && Step(s, signalled).Finished?
    ensures !IsAsleep(Step(s, signalled).sys, t)
  {
    hide Segment, Pass, EntryInv, Inv, Where, Shape;
    SegmentKeeps(s);
    EndsWellOpens(Segment(s));
    var (s1, ending) := Segment(s);
    match ending {
      case AtYield => PassFinishesAwake(s1, 1, t);
      case Enter(status) => PassFinishesAwake(s1, status, t);
    }
  }

  lemma PassFinishesAwake(s: Sys, status: int, t: nat)
    requires Shape(s) && EntryInv(s, status == 1) && Pass(s, status).Finished?
    ensures !IsAsleep(Pass(s, status).sys, t)
  {
    hide SleepScan, WaitScan, Conserved, Locks, History, Where, SamePrograms;
    SleepScanKeeps(s, status == 1, 0);
    AfterScansWorks(SleepScan(s, 0), status);
  }

  /** How long a sleep lasts: a sleeper that nobody awakens, with `left` seconds to go, is asleep after a run exactly
      while the passes made so far, one time slice each, have not used up what was left. */
  lemma {:induction false} SleepLasts(s: Sys, signals: seq<bool>, t: nat)
    requires Shape(s) && Inv(s) && IsAsleep(s, t) && t < |s.tcbs| && NobodyAwakes(Running(s), signals, t)
    ensures IsAsleep(Run(Running(s), signals).sys, t)
      <==> Passes(Running(s), signals) * s.timeSlice < s.tcbs[t].sleepingTime
    decreases |signals|
  {
    hide Step, Inv, Where, Shape, DoesNotAwake, Enters;
    SleeperIndex(s, t);
    if signals == [] {
    } else {
      StepSleeps(s, signals[0], t);
      StepKeeps(s, signals[0]);
      var o := Step(s, signals[0]);
      var p := Passes(o, signals[1..]);
      if IsAsleep(o.sys, t) {
        if o.Finished? { StepFinishesAwake(s, signals[0], t); }
        SleepLasts(o.sys, signals[1..], t);
        assert (p + 1) * s.timeSlice == p * s.timeSlice + s.timeSlice;
      } else {
        NeverSleepsAgain(o, signals[1..], t);
        PositiveSlice(s, p);
      }
    }
  }

  lemma PositiveSlice(s: Sys, p: nat)
    requires Inv(s)
    ensures (p + 1) * s.timeSlice >= s.timeSlice
  {
    assert (p + 1) * s.timeSlice == p * s.timeSlice + s.timeSlice;
  }

  lemma FallAsleep(s: Sys)
    requires Shape(s) && Inv(s) && s.current != 0
    requires var c := s.tcbs[s.current]; c.prog.Enroll? && c.point == Start && !c.keepgo
    ensures var (s1, ending) := Segment(s);
      && ending == Enter(2) && |s1.tcbs| == |s.tcbs| && s.current < |s.tcbs| && s1.timeSlice == s.timeSlice
      && IsAsleep(s1, s.current) && s1.tcbs[s.current].sleepingTime == s.tcbs[s.current].prog.s + s.timeSlice
  {
    CurrentFacts(s);
    hide Inv, SamePrograms;
  }

  /** An enroll thread told to sleep for s seconds is still asleep after a run exactly while the passes since, counting
      the one it makes itself, take less than s + time_slice: it is ready from pass ceil(s / time_slice) + 1 on. */
  lemma EnrollSleeps(s: Sys, signals: seq<bool>)
    requires Shape(s) && Inv(s) && s.current != 0 && signals != []
    requires var c := s.tcbs[s.current]; c.prog.Enroll? && c.point == Start && !c.keepgo
    requires NobodyAwakes(Running(s), signals, s.current)
    ensures s.current < |s.tcbs|
    ensures IsAsleep(Run(Running(s), signals).sys, s.current)
      <==> Passes(Running(s), signals) * s.timeSlice < s.tcbs[s.current].prog.s + s.timeSlice
  {
    hide Segment, Pass, EntryInv, Where, DoesNotAwake, Inv, Shape;
    var t := s.current;
    FallAsleep(s);
    SegmentKeeps(s);
    EndsWellOpens(Segment(s));
    var s1 := Segment(s).0;
    PassSleeps(s1, 2, t);
    StepKeeps(s, signals[0]);
    var o := Step(s, signals[0]);
    assert o == Pass(s1, 2);
    var p := Passes(o, signals[1..]);
    assert (p + 1) * s.timeSlice == p * s.timeSlice + s.timeSlice;
    if IsAsleep(o.sys, t) {
      if o.Finished? { PassFinishesAwake(s1, 2, t); }
      SleepLasts(o.sys, signals[1..], t);
    } else {
      NeverSleepsAgain(o, signals[1..], t);
      PositiveSlice(s, p);
    }
  }
}
