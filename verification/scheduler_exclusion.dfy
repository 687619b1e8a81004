/** Readers and writers exclude each other only while nobody has to wait: a woken thread enters its section without
    being counted, so with two enroll threads both can be in their write section. */
module SchedulerExclusion {
  import opened Threads
  import opened Scheduler
  import opened SchedulerInvariant
  import opened SchedulerSafety
  import opened SchedulerProgress
  import opened SchedulerDeadlock

  /** While a thread is in its write section no other is in its read or write section. */
  ghost predicate Exclusive(s: Sys) {
    forall t, u :: 0 < t < |s.tcbs| && 0 < u < |s.tcbs| && t != u && s.tcbs[t].point == Writing
      ==> s.tcbs[u].point != Writing && s.tcbs[u].point != Reading
  }

  /** In every run of every command line with e enroll threads. */
  ghost predicate AlwaysExclusive(e: nat) {
    forall cfg: Config, signals: seq<bool> ::
      ValidConfig(cfg) && |Enrolls(cfg)| == e ==> Exclusive(Execution(cfg, signals).sys)
  }

  // ---- one enroll thread ----

  lemma SectionsAreEnrolls(cfg: Config, signals: seq<bool>, t: nat)
    requires ValidConfig(cfg)
    ensures var s := Execution(cfg, signals).sys;
      0 < t < |s.tcbs| && (s.tcbs[t].point == Reading || s.tcbs[t].point == Writing) ==> t in Enrolls(cfg)
  {
    hide Boot, Locks, History, Conserved, Enrolls, Pass, Run, SamePrograms;
    EveryReachableStateIsGood(cfg, signals);
    var o := Execution(cfg, signals);
    BootPrograms(cfg, o.sys);
    if 0 < t < |o.sys.tcbs| && (o.sys.tcbs[t].point == Reading || o.sys.tcbs[t].point == Writing) {
      BusyIsEnroll(o, t);
      EnrollMember(cfg, t);
    }
  }

  lemma BusyIsEnroll(o: Outcome, t: nat)
    requires Good(o) && 0 < t < |o.sys.tcbs| && (o.sys.tcbs[t].point == Reading || o.sys.tcbs[t].point == Writing)
    requires forall u :: 0 < u < |o.sys.tcbs| ==> !o.sys.tcbs[u].prog.Idle?
    ensures o.sys.tcbs[t].prog.Enroll?
  {
    hide Locks, History, Conserved;
    LiveIsListed(o.sys.tcbs, t);
    if o.Running? { assert PointFits(o.sys.tcbs[t]); }
  }

  lemma LiveIsListed(q: seq<Tcb>, t: nat)
    requires t < |q| && IsLive(q[t])
    ensures t in Where(q, IsLive)
  {
  }

  lemma EnrollMember(cfg: Config, t: nat)
    requires 1 <= t <= |cfg.programs| && cfg.programs[t - 1].Enroll?
    ensures t in Enrolls(cfg)
  {
    assert IsEnrollThread(cfg, t);
  }

  lemma OneMember(a: set<nat>, t: nat, u: nat)
    requires |a| <= 1 && t in a && u in a
    ensures t == u
  {
    SubsetSize({t, u}, a);
  }

  lemma AloneIsExclusive(cfg: Config, signals: seq<bool>)
    requires ValidConfig(cfg) && |Enrolls(cfg)| <= 1
    ensures Exclusive(Execution(cfg, signals).sys)
  {
    hide Execution, Enrolls;
    var s := Execution(cfg, signals).sys;
    forall t: nat, u: nat
      | 0 < t < |s.tcbs| && 0 < u < |s.tcbs| && t != u && s.tcbs[t].point == Writing
      ensures s.tcbs[u].point != Writing && s.tcbs[u].point != Reading
    {
      SectionsAreEnrolls(cfg, signals, t);
      SectionsAreEnrolls(cfg, signals, u);
      if s.tcbs[u].point == Writing || s.tcbs[u].point == Reading { OneMember(Enrolls(cfg), t, u); }
    }
  }

  // ---- two enroll threads and more: all but the last two run to their end first ----

  lemma KeepWriteLock(s: Sys) returns (r: Sys)
    requires MemberAt(s, Choosing) && s.writeCount == 0 && s.readCount == 0
    ensures Step(s, false) == Running(r) && NobodyAsleep(r)
    ensures r == s.(tcbs := PointMoved(s, Writing), writeCount := 1, out := r.out)
  {
    hide Pass;
    r := Step(s, false).sys;
  }

  lemma ReadAndYield(s: Sys) returns (r: Sys)
    requires MemberAt(s, Start) && s.tcbs[s.current].keepgo && s.writeCount == 0 && s.waiting.head == s.waiting.tail
    ensures Step(s, true) == Front(r) && NobodyAsleep(r)
    ensures r == s.(tcbs := PointMoved(s, Reading), readCount := s.readCount + 1,
                    ready := s.ready + [s.current], out := r.out)
  {
    hide Pass;
    assert Awake(s, 0) == s;
    var s1 := Segment(s).0;
    assert Segment(s) == (s1, AtYield);
    QuietPass(s1, 1);
    r := Requeue(s1, 1);
  }

  /** With a reader inside, the write lock has to be waited for, and nobody is woken. */
  lemma WaitBehindReader(s: Sys) returns (r: Sys)
    requires MemberAt(s, Choosing) && s.writeCount == 0 && s.readCount > 0
    requires s.waiting.head == 0 == s.waiting.tail
    ensures Step(s, false) == Front(r) && NobodyAsleep(r)
    ensures r == s.(tcbs := s.tcbs[s.current := s.tcbs[s.current].(point := WokenWrite, waitingFor := 5,
                                                                   waitedWrite := true)],
                    waiting := PushWaiting(s.waiting, s.current))
  {
    hide SleepScan, WaitScan, Dispatch;
    r := WriteLock(s).0;
    assert Segment(s) == (r, Enter(5));
    SleepScanIdle(r, 0);
    WaitScanNone(r, 0);
    DispatchFront(r);
  }

  /** The last reader leaves and is signalled: the pass wakes the writer that waits in slot 0, ahead of the reader. */
  lemma LeaveAndWake(s: Sys, b: nat) returns (r: Sys)
    requires MemberAt(s, Reading) && s.writeCount == 0 && s.readCount == 1
    requires s.waiting.head == 0 && s.waiting.tail == 1 && s.waiting.arr[0] == b < |s.tcbs| && b != s.current
    requires s.tcbs[b].waitingFor == 5
    ensures Step(s, true) == Front(r) && NobodyAsleep(r)
    ensures r == s.(tcbs := PointMoved(s, Choosing), readCount := 0, out := r.out,
                    ready := s.ready + [b] + [s.current], waiting := s.waiting.(head := 1))
  {
    hide SleepScan, WaitScan, Dispatch;
    var s1 := EnrollReading(s).0;
    assert Segment(s) == (s1, AtYield);
    SleepScanIdle(s1, 0);
    WaitScanAll(s1, 0);
    assert s.waiting.arr[0..1] == [b];
    var s2 := WaitScan(s1, 0);
    r := Requeue(s2, 1);
    DispatchFront(r);
  }

  /** A woken writer goes on into its section without a look at the counts. */
  lemma GoOnWriting(s: Sys) returns (r: Sys)
    requires MemberAt(s, WokenWrite) && s.waiting.head >= s.waiting.tail
    ensures Step(s, true) == Front(r) && NobodyAsleep(r)
    ensures r == s.(tcbs := PointMoved(s, Writing), ready := s.ready + [s.current], out := r.out)
  {
    hide Pass;
    var s1 := AfterWriteLock(s).0;
    assert Segment(s) == (s1, AtYield);
    QuietPass(s1, 1);
    r := Requeue(s1, 1);
  }

  /** Threads 1..k-1 have exited, thread k is about to go for the locks, and the others are ready to. */
  ghost predicate Solitary(s: Sys, e: nat, k: nat) {
    && Common(s, e) && s.writeCount == 0 && s.waiting.head == 0 == s.waiting.tail
    && 1 <= k < e && s.current == k && s.ready == Range(k + 1, e)
    && forall t :: k <= t <= e ==> s.tcbs[t].point == Start && s.tcbs[t].keepgo
  }

  /** A member that is never signalled goes through both locks and exits. */
  lemma RunAlone(s: Sys) returns (r: Sys)
    requires MemberAt(s, Start) && s.tcbs[s.current].keepgo && s.writeCount == 0 && s.readCount == 0
    requires s.waiting.head == s.waiting.tail
    ensures Run(Running(s), [false, false, false, false]) == Front(r) && NobodyAsleep(r)
    ensures r == s.(tcbs := PointMoved(s, Exited), out := r.out)
  {
    hide Step, Shape, SamePrograms, Front, Run;
    var r1 := TakeReadLock(s);
    var r2 := LeaveReading(r1);
    var r3 := KeepWriteLock(r2);
    r := LeaveWriting(r3);
    assert [false, false, false, false] == [false] + [false, false, false];
    RunCons(s, false, [false, false, false]);
    assert [false, false, false] == [false] + [false, false];
    RunCons(r1, false, [false, false]);
    assert [false, false] == [false] + [false];
    RunCons(r2, false, [false]);
    OneStep(r3, false);
    assert Waiting(s.waiting) == [];
  }

  lemma SolitaryStep(s: Sys, e: nat, k: nat)
    requires Solitary(s, e, k) && k + 1 < e
    ensures var o := Run(Running(s), [false, false, false, false]);
      o.Running? && Solitary(o.sys, e, k + 1)
  {
    hide Run, Shape, SamePrograms;
    var r := RunAlone(s);
    assert r.ready == [k + 1] + Range(k + 2, e);
  }

  /** The signals that take all but the last two of e members to their end. */
  function FillerSignals(n: nat): seq<bool> {
    if n == 0 then [] else [false, false, false, false] + FillerSignals(n - 1)
  }

  lemma {:induction false} SolitaryPhase(s: Sys, e: nat, k: nat)
    requires Solitary(s, e, k)
    ensures var o := Run(Running(s), FillerSignals(e - 1 - k));
      o.Running? && Solitary(o.sys, e, e - 1)
    decreases e - k
  {
    hide Run, Solitary, Step;
    SolitaryShape(s, e, k);
    if k == e - 1 {
      RunNothing(s);
    } else {
      SolitaryStep(s, e, k);
      RunAppend(Running(s), [false, false, false, false], FillerSignals(e - 2 - k));
      SolitaryPhase(Run(Running(s), [false, false, false, false]).sys, e, k + 1);
    }
  }

  lemma SolitaryShape(s: Sys, e: nat, k: nat)
    requires Solitary(s, e, k)
    ensures Shape(s) && k < e
  {
  }

  lemma RunNothing(s: Sys)
    requires Shape(s)
    ensures Run(Running(s), []) == Running(s)
  {
  }

  /** The last two members: the second comes to wait to write behind the first as a reader; the first leaves, which
      wakes the second, and finds both counts 0. */
  function DuetSignals(): seq<bool> {
    [true, false, false, false, true, true, false]
  }

  lemma Duet(s: Sys, e: nat)
    requires e >= 2 && Solitary(s, e, e - 1)
    ensures var o := Run(Running(s), DuetSignals());
      o.Running? && |o.sys.tcbs| == e + 1 && o.sys.tcbs[e - 1].point == Writing == o.sys.tcbs[e].point
  {
    hide Run, Step, Shape, SamePrograms, Range;
    LastReady(e);
    var a := e - 1;
    var r1 := ReadAndYield(s);
    var s1 := Front(r1).sys;
    var s2 := TakeReadLock(s1);
    var s3 := LeaveReading(s2);
    var r4 := WaitBehindReader(s3);
    var s4 := Front(r4).sys;
    var r5 := LeaveAndWake(s4, e);
    var s5 := Front(r5).sys;
    var r6 := GoOnWriting(s5);
    var s6 := Front(r6).sys;
    var s7 := KeepWriteLock(s6);
    DuetRun(s, s1, s2, s3, s4, s5, s6);
  }

  lemma LastReady(e: nat)
    requires e >= 1
    ensures Range(e, e) == [e]
  {
    assert Range(e + 1, e) == [];
  }

  lemma DuetRun(s: Sys, s1: Sys, s2: Sys, s3: Sys, s4: Sys, s5: Sys, s6: Sys)
    requires Shape(s) && Shape(s1) && Shape(s2) && Shape(s3) && Shape(s4) && Shape(s5) && Shape(s6)
    requires Step(s, true) == Running(s1) && Step(s1, false) == Running(s2) && Step(s2, false) == Running(s3)
    requires Step(s3, false) == Running(s4) && Step(s4, true) == Running(s5) && Step(s5, true) == Running(s6)
    ensures Run(Running(s), DuetSignals()) == Step(s6, false)
  {
    hide Run, Step, Shape;
    assert DuetSignals() == [true, false, false] + ([false, true, true] + [false]);
    RunAppend(Running(s), [true, false, false], [false, true, true] + [false]);
    ThreeSteps(s, s1, s2, true, false, false);
    RunAppend(Running(s3), [false, true, true], [false]);
    ThreeSteps(s3, s4, s5, false, true, true);
    OneStep(s6, false);
  }

  /** With two enroll threads or more, and any time slice, two threads can be in their write section at once. */
  lemma TwoWriters(e: nat, slice: int)
    requires 2 <= e < THREAD_MAX && slice >= 1
    ensures ValidConfig(Crowd(e, slice))
    ensures var o := Execution(Crowd(e, slice), Falses(e) + (FillerSignals(e - 2) + DuetSignals()));
      o.Running? && |o.sys.tcbs| == e + 1 && o.sys.tcbs[e - 1].point == Writing == o.sys.tcbs[e].point
  {
    hide Pass, Step, Run, Falses, FillerSignals, DuetSignals, Shape, Sleepy, Range;
    CrowdBoots(e, slice);
    var o0 := Pass(Boot(Crowd(e, slice)), 0);
    var rest := FillerSignals(e - 2) + DuetSignals();
    RunAppend(o0, Falses(e), rest);
    SleepyPhase(o0.sys, e, 1);
    var o1 := Run(o0, Falses(e));
    RunAppend(o1, FillerSignals(e - 2), DuetSignals());
    SolitaryPhase(o1.sys, e, 1);
    Duet(Run(o1, FillerSignals(e - 2)).sys, e);
  }

  /** The lock keeps readers and writers apart in every run exactly when there is at most one enroll thread. */
  lemma ExclusionIsExact(e: nat)
    requires e < THREAD_MAX
    ensures AlwaysExclusive(e) <==> e <= 1
  {
    hide Execution, Enrolls, ValidConfig, Exclusive;
    if e <= 1 {
      forall cfg: Config, signals: seq<bool> | ValidConfig(cfg) && |Enrolls(cfg)| == e
        ensures Exclusive(Execution(cfg, signals).sys)
      {
        AloneIsExclusive(cfg, signals);
      }
    } else {
      TwoWriters(e, SLOW);
      CrowdSize(e, SLOW);
      TwoWritersClash(Execution(Crowd(e, SLOW), Falses(e) + (FillerSignals(e - 2) + DuetSignals())).sys, e);
    }
  }

  lemma TwoWritersClash(s: Sys, e: nat)
    requires 2 <= e && |s.tcbs| == e + 1 && s.tcbs[e - 1].point == Writing == s.tcbs[e].point
    ensures !Exclusive(s)
  {
  }
}
