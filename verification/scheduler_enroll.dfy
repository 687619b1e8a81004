/** Scheduling is invisible to enroll too: an enroll thread prints the same six lines in every run, one after the other,
    and its thread_awake readies exactly the sleeper that it names. */
module SchedulerEnroll {
  import opened Threads
  import opened Scheduler
  import opened SchedulerInvariant
  import opened SchedulerSafety
  import opened SchedulerProgress
  import opened SchedulerOutputs

  /** Everything that an enroll thread prints. */
  function EnrollTrace(t: nat, p: Program, qp: int, qs: int): seq<Event>
    requires p.Enroll?
  {
    [SleepLine(t, p.s), AcquireReadLine(t), ReleaseReadLine(t, p.dp * qp, p.ds * qs),
     AcquireWriteLine(t), ReleaseWriteLine(t), ExitLine(t)]
  }

  /** How many of its lines an enroll thread has printed: this follows from where it is. */
  function Told(s: Sys, t: nat): nat
    requires t < |s.tcbs|
  {
    var c := s.tcbs[t];
    match c.point
    case Start => if c.keepgo || IsAsleep(s, t) then 1 else 0
    case Repeat => 0
    case WokenRead => 1
    case Reading => 2
    case Choosing => 3
    case WokenWrite => 3
    case Writing => 4
    case Exited => 6
  }

  lemma ToldAll(s: Sys, t: nat)
    requires t < |s.tcbs|
    ensures Told(s, t) <= 6 && (Told(s, t) == 6 <==> s.tcbs[t].point == Exited)
  {
  }

  ghost predicate HasTold(s: Sys, t: nat)
    requires t < |s.tcbs| && s.tcbs[t].prog.Enroll?
  {
    Lines(s.out, t) == EnrollTrace(t, s.tcbs[t].prog, s.qp, s.qs)[..Told(s, t)]
  }

  ghost predicate AllHaveTold(s: Sys, qp: int, qs: int) {
    && s.qp == qp && s.qs == qs
    && forall t :: 0 < t < |s.tcbs| && s.tcbs[t].prog.Enroll? ==> HasTold(s, t)
  }

  /** Nothing that thread t has to do with its lines has changed. */
  ghost predicate SameTold(s: Sys, r: Sys, t: nat) {
    t < |s.tcbs| == |r.tcbs| && r.tcbs[t].prog == s.tcbs[t].prog && Told(r, t) == Told(s, t)
  }

  /** The step changes no other enroll thread's count, and no quota. */
  ghost predicate OthersSame(s: Sys, r: Sys) {
    && |r.tcbs| == |s.tcbs| && r.qp == s.qp && r.qs == s.qs
    && forall u :: 0 < u < |s.tcbs| && u != s.current && s.tcbs[u].prog.Enroll? ==> SameTold(s, r, u)
  }

  /** The current enroll thread has printed its next lines. */
  ghost predicate Tells(s: Sys, r: Sys) {
    var t := s.current;
    && t < |s.tcbs| == |r.tcbs| && s.tcbs[t].prog.Enroll? && r.tcbs[t].prog == s.tcbs[t].prog
    && Told(s, t) <= Told(r, t) <= Told(s, t) + 2
    && r.out == s.out + EnrollTrace(t, s.tcbs[t].prog, s.qp, s.qs)[Told(s, t)..Told(r, t)]
  }

  // ---- the stretches of enroll ----

  lemma FirstTells(s: Sys)
    requires Shape(s) && s.tcbs[s.current].prog.Enroll? && s.tcbs[s.current].point == Start
    requires !s.tcbs[s.current].keepgo && !IsAsleep(s, s.current)
    ensures Tells(s, EnrollStart(s).0) && OthersSame(s, EnrollStart(s).0)
  {
    hide SamePrograms;
    var r := EnrollStart(s).0;
    assert EnrollTrace(s.current, s.tcbs[s.current].prog, s.qp, s.qs)[0..1]
        == [SleepLine(s.current, s.tcbs[s.current].prog.s)];
  }

  lemma AwakeSame(s: Sys, b: nat)
    requires Layout(s) && b <= THREAD_MAX && !IsAsleep(s, s.current)
    ensures var r := Awake(s, b);
      && OthersSame(s, r) && r.current == s.current && r.out == s.out
      && r.tcbs[s.current] == s.tcbs[s.current] && !IsAsleep(r, s.current)
  {
    hide SamePrograms, PointFits, WaiterFits, SleeperFits;
  }

  /** The read lock is taken, and the line printed, or the thread waits and prints nothing. */
  lemma ReadLockTells(s: Sys)
    requires Shape(s) && s.tcbs[s.current].prog.Enroll? && s.tcbs[s.current].point == Start && s.tcbs[s.current].keepgo
    ensures var (s1, blocked) := ReadLock(s);
      var r := if blocked then s1 else AfterReadLock(s1).0;
      Tells(s, r) && OthersSame(s, r)
  {
    hide SamePrograms, PushWaiting;
    assert EnrollTrace(s.current, s.tcbs[s.current].prog, s.qp, s.qs)[1..2] == [AcquireReadLine(s.current)];
  }

  lemma SecondTells(s: Sys)
    requires Layout(s) && Shape(s) && s.tcbs[s.current].prog.Enroll? && s.tcbs[s.current].point == Start
    requires s.tcbs[s.current].keepgo && !IsAsleep(s, s.current)
    ensures Tells(s, EnrollStart(s).0) && OthersSame(s, EnrollStart(s).0)
  {
    hide Awake, ReadLock, AfterReadLock, Layout, SamePrograms;
    var b := s.tcbs[s.current].prog.b;
    AwakeSame(s, b);
    ReadLockTells(Awake(s, b));
  }

  lemma ReadingTells(s: Sys)
    requires Shape(s) && s.tcbs[s.current].prog.Enroll?
    ensures s.tcbs[s.current].point == WokenRead ==>
      Tells(s, AfterReadLock(s).0) && OthersSame(s, AfterReadLock(s).0)
    ensures s.tcbs[s.current].point == Reading ==>
      Tells(s, EnrollReading(s).0) && OthersSame(s, EnrollReading(s).0)
  {
    hide SamePrograms;
    var p := s.tcbs[s.current].prog;
    var trace := EnrollTrace(s.current, p, s.qp, s.qs);
    assert trace[1..2] == [AcquireReadLine(s.current)];
    assert trace[2..3] == [ReleaseReadLine(s.current, p.dp * s.qp, p.ds * s.qs)];
  }

  lemma ChoosingTells(s: Sys)
    requires Shape(s) && s.tcbs[s.current].prog.Enroll? && s.tcbs[s.current].point == Choosing
    ensures Tells(s, EnrollChoosing(s).0) && OthersSame(s, EnrollChoosing(s).0)
  {
    hide SamePrograms, PushWaiting;
    assert EnrollTrace(s.current, s.tcbs[s.current].prog, s.qp, s.qs)[3..4] == [AcquireWriteLine(s.current)];
  }

  lemma WritingTells(s: Sys)
    requires Shape(s) && s.tcbs[s.current].prog.Enroll?
    ensures s.tcbs[s.current].point == WokenWrite ==>
      Tells(s, AfterWriteLock(s).0) && OthersSame(s, AfterWriteLock(s).0)
    ensures s.tcbs[s.current].point == Writing ==>
      Tells(s, EnrollWriting(s).0) && OthersSame(s, EnrollWriting(s).0)
  {
    hide SamePrograms;
    var trace := EnrollTrace(s.current, s.tcbs[s.current].prog, s.qp, s.qs);
    assert trace[3..4] == [AcquireWriteLine(s.current)];
    assert trace[4..6] == [ReleaseWriteLine(s.current), ExitLine(s.current)];
    assert (s.out + [ReleaseWriteLine(s.current)]) + [ExitLine(s.current)] == s.out + trace[4..6];
  }

  lemma EnrollTells(s: Sys)
    requires Inv(s) && s.current != 0 && Shape(s) && s.tcbs[s.current].prog.Enroll?
    ensures Tells(s, Segment(s).0) && OthersSame(s, Segment(s).0)
  {
    hide EnrollStart, EnrollReading, EnrollChoosing, EnrollWriting, AfterReadLock, AfterWriteLock, Tells, OthersSame;
    hide Locks, History, Conserved, SamePrograms, Where;
    CurrentFacts(s);
    var c := s.tcbs[s.current];
    if c.point == Start {
      if c.keepgo { SecondTells(s); } else { FirstTells(s); }
    }
    ReadingTells(s);
    if c.point == Choosing { ChoosingTells(s); }
    WritingTells(s);
  }

  // ---- every run ----

  /** The lines of the current thread. */
  lemma LinesTwo(out: seq<Event>, more: seq<Event>, t: nat)
    requires |more| <= 2 && forall e :: e in more ==> Speaker(e) == t
    ensures Lines(out + more, t) == Lines(out, t) + more
  {
    if more == [] {
      assert out + more == out;
    } else if |more| == 1 {
      assert more == [more[0]];
      LinesOne(out, more[0], t);
    } else {
      assert out + more == out + [more[0]] + [more[1]];
      LinesOne(out, more[0], t);
      LinesOne(out + [more[0]], more[1], t);
      assert Lines(out, t) + [more[0]] + [more[1]] == Lines(out, t) + more;
    }
  }

  lemma TellsHasTold(s: Sys, r: Sys)
    requires Tells(s, r) && HasTold(s, s.current) && r.qp == s.qp && r.qs == s.qs
    ensures HasTold(r, s.current)
  {
    hide Lines, Told;
    var t := s.current;
    var trace := EnrollTrace(t, s.tcbs[t].prog, s.qp, s.qs);
    ToldAll(s, t);
    ToldAll(r, t);
    var more := trace[Told(s, t)..Told(r, t)];
    assert forall e :: e in more ==> e in trace;
    LinesTwo(s.out, more, t);
    assert trace[..Told(s, t)] + more == trace[..Told(r, t)];
  }

  lemma SegmentTold(s: Sys, qp: int, qs: int)
    requires Inv(s) && LoopsFit(s) && AllSpokenFits(s) && AllHaveTold(s, qp, qs)
    ensures Shape(s) && AllHaveTold(Segment(s).0, qp, qs)
  {
    hide Inv, SpokenFits, Lines, Segment, LoopFits, Told;
    CurrentFacts(s);
    var r := Segment(s).0;
    OthersLines(s);
    if s.current != 0 && s.tcbs[s.current].prog.Enroll? {
      EnrollTells(s);
      TellsHasTold(s, r);
    } else {
      OtherCountsSame(s);
    }
    forall t | 0 < t < |r.tcbs| && r.tcbs[t].prog.Enroll? ensures HasTold(r, t) {
      if t != s.current { assert SameTold(s, r, t); }
    }
  }

  lemma OthersLines(s: Sys)
    requires Inv(s) && Shape(s) && LoopsFit(s) && AllSpokenFits(s)
    ensures Others(s, Segment(s).0)
  {
    hide Inv, Lines, FibSegment, PmSegment, SpokenFits, Shape, LoopFits;
    CurrentFacts(s);
    var c := s.tcbs[s.current];
    if IsLoop(c.prog) {
      assert SpokenFits(c, s.current, s.out);
      assert c.point in {Start, Repeat} by { assert PointFits(c) && IsLive(c); }
      if c.prog.Fibonacci? { FibSegmentSpeaks(s); } else { PmSegmentSpeaks(s); }
    } else {
      OtherSegmentsSpeak(s);
    }
  }

  /** A stretch of another routine touches no enroll thread. */
  lemma OtherCountsSame(s: Sys)
    requires Inv(s) && Shape(s) && LoopsFit(s) && (s.current == 0 || !s.tcbs[s.current].prog.Enroll?)
    ensures OthersSame(s, Segment(s).0)
    ensures s.tcbs[s.current].prog == Segment(s).0.tcbs[s.current].prog
  {
    hide Inv, Segment, PointFits, IsLive, LoopFits;
    CurrentFacts(s);
    if s.current == 0 {
      IdleSegment(s);
    } else {
      assert LoopFits(s.tcbs[s.current]);
      LoopCurrent(s);
    }
  }

  lemma {:induction false} SleepScanTold(s: Sys, i: nat)
    requires Layout(s) && i <= THREAD_MAX
    ensures var r := SleepScan(s, i);
      |r.tcbs| == |s.tcbs| && forall t :: 0 <= t < |s.tcbs| && s.tcbs[t].prog.Enroll? ==> SameTold(s, r, t)
    decreases THREAD_MAX - i
  {
    hide SleepSlot, SameTold, SamePrograms, PointFits, WaiterFits, SleeperFits;
    if i < THREAD_MAX {
      SleepSlotLayout(s, i);
      SleepSlotTold(s, i);
      SleepScanTold(SleepSlot(s, i), i + 1);
      var (m, r) := (SleepSlot(s, i), SleepScan(s, i));
      forall t | 0 <= t < |s.tcbs| && s.tcbs[t].prog.Enroll? ensures SameTold(s, r, t) {
        SameToldTwice(s, m, r, t);
      }
    } else {
      forall t | 0 <= t < |s.tcbs| ensures SameTold(s, s, t) { SameToldSelf(s, t); }
    }
  }

  lemma SameToldSelf(s: Sys, t: nat)
    requires t < |s.tcbs|
    ensures SameTold(s, s, t)
  {
  }

  lemma SameToldTwice(s: Sys, m: Sys, r: Sys, t: nat)
    requires t < |s.tcbs| && s.tcbs[t].prog.Enroll? && SameTold(s, m, t)
    requires t < |m.tcbs| && m.tcbs[t].prog.Enroll? ==> SameTold(m, r, t)
    ensures SameTold(s, r, t)
  {
  }

  lemma SleepSlotTold(s: Sys, i: nat)
    requires Layout(s) && i < THREAD_MAX
    ensures forall t :: 0 <= t < |s.tcbs| ==> SameTold(s, SleepSlot(s, i), t)
  {
    hide SamePrograms, PointFits, WaiterFits, SleeperFits;
    SleepSlotIs(s, i);
  }

  lemma PassTold(s: Sys, status: int, qp: int, qs: int)
    requires EntryInv(s, status == 1) && AllHaveTold(s, qp, qs)
    ensures Shape(s) && AllHaveTold(Pass(s, status).sys, qp, qs)
  {
    hide SleepScan, Conserved, Locks, History, Where, SamePrograms, Lines, Told, PointFits, WaiterFits, SleeperFits;
    SleepScanTold(s, 0);
    SleepScanKeeps(s, status == 1, 0);
    AfterScansTold(SleepScan(s, 0), status);
    var r := Pass(s, status).sys;
    forall t | 0 < t < |r.tcbs| && r.tcbs[t].prog.Enroll? ensures HasTold(r, t) {
      assert SameTold(SleepScan(s, 0), r, t);
      assert SameRole(s.tcbs[t], SleepScan(s, 0).tcbs[t]);
    }
  }

  lemma AfterScansTold(s: Sys, status: int)
    requires EntryInv(s, status == 1) && SleepersHaveTime(s)
    ensures var r := Dispatch(Requeue(WaitScan(s, s.waiting.head), status)).sys;
      && r.out == s.out && r.qp == s.qp && r.qs == s.qs && |r.tcbs| == |s.tcbs|
      && forall t :: 0 <= t < |s.tcbs| ==> SameTold(s, r, t)
  {
    hide WaitScan, Requeue, Dispatch, EntryInv, SamePrograms;
    EntryHasShape(s, status == 1);
    AfterScansWorks(s, status);
  }

  lemma StepTold(s: Sys, signalled: bool, qp: int, qs: int)
    requires Shape(s) && Inv(s) && LoopsFit(s) && AllSpokenFits(s) && AllHaveTold(s, qp, qs)
    ensures AllHaveTold(Step(s, signalled).sys, qp, qs)
  {
    hide Segment, Pass, EntryInv, Inv, LoopsFit, AllSpokenFits, AllHaveTold, Where, Shape;
    SegmentKeeps(s);
    SegmentTold(s, qp, qs);
    EndsWellOpens(Segment(s));
    var (s1, ending) := Segment(s);
    match ending {
      case AtYield => if signalled { PassTold(s1, 1, qp, qs); }
      case Enter(status) => PassTold(s1, status, qp, qs);
    }
  }

  lemma {:induction false} RunTold(o: Outcome, signals: seq<bool>, qp: int, qs: int)
    requires Shape(o.sys) && Endable(o) && IdleHasReason(o) && AllSpokenFits(o.sys) && AllHaveTold(o.sys, qp, qs)
    ensures AllHaveTold(Run(o, signals).sys, qp, qs)
    decreases |signals|
  {
    hide Step, Inv, IdleHasReason, LoopsFit, AllSpokenFits, AllHaveTold, Where;
    if o.Finished? || signals == [] {
    } else {
      StepOutcome(o.sys, signals[0]);
      StepSpeaks(o.sys, signals[0]);
      StepTold(o.sys, signals[0], qp, qs);
      RunTold(Step(o.sys, signals[0]), signals[1..], qp, qs);
    }
  }

  lemma BootTold(cfg: Config)
    requires ValidConfig(cfg)
    ensures AllHaveTold(Boot(cfg), cfg.qp, cfg.qs)
  {
  }

  /** In every run the lines of an enroll thread are, in order, the first few of the same six, as many as its place in
      the routine says; once it has exited they are all six. */
  lemma EnrollOutputsAsIfAlone(cfg: Config, signals: seq<bool>, t: nat)
    requires ValidConfig(cfg) && IsEnrollThread(cfg, t)
    ensures var s := Execution(cfg, signals).sys;
      && t < |s.tcbs| && s.tcbs[t].prog == cfg.programs[t - 1]
      && Lines(s.out, t) == EnrollTrace(t, cfg.programs[t - 1], cfg.qp, cfg.qs)[..Told(s, t)]
      && (s.tcbs[t].point == Exited <==> Lines(s.out, t) == EnrollTrace(t, cfg.programs[t - 1], cfg.qp, cfg.qs))
  {
    hide Boot, Pass, Run, Inv, EntryInv, Left, ValidConfig, IdleHasReason, SamePrograms, Where, Lines, Shape, Told;
    BootKeeps(cfg);
    BootEndable(cfg);
    PassOutcome(Boot(cfg), 0);
    BootSpeaks(cfg);
    PassSpeaks(Boot(cfg), 0);
    BootTold(cfg);
    PassTold(Boot(cfg), 0, cfg.qp, cfg.qs);
    RunTold(Pass(Boot(cfg), 0), signals, cfg.qp, cfg.qs);
    var s := Execution(cfg, signals).sys;
    BootPrograms(cfg, s);
    assert HasTold(s, t);
    ToldAll(s, t);
  }

  // ---- thread_awake ----

  /** A resumed enroll thread makes the thread it names ready, at the end of the queue and with keepgo set, if that
      thread sleeps, and then goes for the read lock; it wakes and readies nobody else. */
  lemma EnrollAwakes(s: Sys)
    requires Inv(s) && Shape(s) && s.current != 0
    requires var c := s.tcbs[s.current]; c.prog.Enroll? && c.point == Start && c.keepgo
    ensures var (r, ending) := Segment(s); var b := s.tcbs[s.current].prog.b;
      && |r.tcbs| == |s.tcbs| && |r.sleeping| == |s.sleeping|
      && r.ready == (if IsAsleep(s, b) then s.ready + [b] else s.ready)
      && (IsAsleep(s, b) ==> b < |s.tcbs| && r.tcbs[b].keepgo)
      && (forall u: nat :: IsAsleep(r, u) <==> u != b && IsAsleep(s, u))
      && (s.writeCount == 0 ==> ending == AtYield && r.readCount == s.readCount + 1 && r.waiting == s.waiting)
      && (s.writeCount != 0 ==>
            ending == Enter(4) && r.readCount == s.readCount && r.waiting == PushWaiting(s.waiting, s.current))
  {
    hide Locks, History, Conserved, PointFits, WaiterFits, SamePrograms, PushWaiting;
    var b := s.tcbs[s.current].prog.b;
    AwakeReadies(s, b);
    LockAfterAwake(Awake(s, b));
    assert Segment(s) == EnrollStart(s);
  }

  lemma AwakeReadies(s: Sys, b: nat)
    requires Layout(s) && b <= THREAD_MAX
    ensures var r := Awake(s, b);
      && r == s.(tcbs := r.tcbs, ready := r.ready, sleeping := r.sleeping) && |r.tcbs| == |s.tcbs|
      && r.ready == (if IsAsleep(s, b) then s.ready + [b] else s.ready)
      && (IsAsleep(s, b) ==> b < |s.tcbs| && r.tcbs[b].keepgo)
      && (forall u: nat :: IsAsleep(r, u) <==> u != b && IsAsleep(s, u))
      && (forall u :: 0 <= u < |s.tcbs| ==> r.tcbs[u].prog == s.tcbs[u].prog)
  {
    hide PointFits, WaiterFits, SamePrograms;
  }

  /** read_lock after thread_awake leaves the queues of ready and sleeping threads alone. */
  lemma LockAfterAwake(m: Sys)
    requires Shape(m) && m.tcbs[m.current].prog.Enroll?
    ensures var (s1, blocked) := ReadLock(m); var r := if blocked then s1 else AfterReadLock(s1).0;
      && (blocked <==> m.writeCount != 0)
      && r.ready == m.ready && r.sleeping == m.sleeping && |r.tcbs| == |m.tcbs|
      && (forall u :: 0 <= u < |m.tcbs| && m.tcbs[u].keepgo ==> r.tcbs[u].keepgo)
      && (if blocked then r.readCount == m.readCount && r.waiting == PushWaiting(m.waiting, m.current)
          else r.readCount == m.readCount + 1 && r.waiting == m.waiting)
  {
    hide SamePrograms, PushWaiting;
  }
}
