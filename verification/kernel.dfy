/** The scheduler as the source writes it: global arrays and indices changed in place.  `Model` is the value that the
    globals stand for; every method is proved to do to it what the function of the same name does. */
module KernelState {
  import opened Threads
  import opened Scheduler
  import opened SchedulerInvariant
  import opened SchedulerSafety

  /** The entries of a circular array from its head up to its tail. */
  function RingContents(arr: seq<nat>, head: nat, tail: nat): seq<nat>
    requires head < |arr| && tail < |arr|
  {
    if head <= tail then arr[head..tail] else arr[head..] + arr[..tail]
  }

  function Next(i: nat): nat
    requires i < THREAD_MAX
  {
    (i + 1) % THREAD_MAX
  }

  lemma RingPush(arr: seq<nat>, head: nat, tail: nat, t: nat)
    requires |arr| == THREAD_MAX && head < THREAD_MAX && tail < THREAD_MAX
    requires |RingContents(arr, head, tail)| + 1 < THREAD_MAX
    ensures RingContents(arr[tail := t], head, Next(tail)) == RingContents(arr, head, tail) + [t]
  {
    if head <= tail {
      PushBeforeEnd(arr, head, tail, t);
    } else {
      PushBeforeHead(arr, head, tail, t);
    }
  }

  lemma PushBeforeHead(arr: seq<nat>, head: nat, tail: nat, t: nat)
    requires |arr| == THREAD_MAX && tail < head < THREAD_MAX && tail + 1 < head
    ensures RingContents(arr[tail := t], head, Next(tail)) == arr[head..] + arr[..tail] + [t]
  {
    var q := arr[tail := t];
    assert q[head..] == arr[head..] && q[..tail + 1] == arr[..tail] + [t];
    assert Next(tail) == tail + 1;
  }

  lemma PushBeforeEnd(arr: seq<nat>, head: nat, tail: nat, t: nat)
    requires |arr| == THREAD_MAX && head <= tail < THREAD_MAX && (head == 0 ==> tail + 1 < THREAD_MAX)
    ensures RingContents(arr[tail := t], head, Next(tail)) == arr[head..tail] + [t]
  {
    var q := arr[tail := t];
    assert q[head..tail + 1] == arr[head..tail] + [t];
    if tail + 1 == THREAD_MAX {
      assert q[head..] == q[head..tail + 1] && q[..0] == [];
    }
  }

  lemma RingPop(arr: seq<nat>, head: nat, tail: nat)
    requires |arr| == THREAD_MAX && head < THREAD_MAX && tail < THREAD_MAX && head != tail
    ensures RingContents(arr, head, tail) == [arr[head]] + RingContents(arr, Next(head), tail)
  {
    if head < tail {
      assert arr[head..tail] == [arr[head]] + arr[head + 1..tail];
    } else {
      PopAfterTail(arr, head, tail);
    }
  }

  lemma PopAfterTail(arr: seq<nat>, head: nat, tail: nat)
    requires |arr| == THREAD_MAX && tail < head < THREAD_MAX
    ensures arr[head..] + arr[..tail] == [arr[head]] + RingContents(arr, Next(head), tail)
  {
    if head + 1 == THREAD_MAX {
      assert arr[head..] == [arr[head]] && arr[0..tail] == arr[..tail];
    } else {
      ConsAppend(arr[head..], arr[..tail]);
      assert Next(head) == head + 1 && arr[head..][1..] == arr[head + 1..];
    }
  }

  lemma ConsAppend(a: seq<nat>, b: seq<nat>)
    requires a != []
    ensures a + b == [a[0]] + (a[1..] + b)
  {
  }

  lemma ScanDone(s: Sys)
    requires Shape(s)
    ensures SleepScan(s, THREAD_MAX) == s
  {
  }

  class Kernel {
    const timeSlice: int
    const qp: int
    const qs: int
    const tcbs: array<Tcb>
    const readyArr: array<nat>
    var readyHead: nat
    var readySize: nat
    const waitingArr: array<nat>
    var waitingHead: nat
    var waitingSize: nat
    const sleepingSet: array<Option<nat>>
    var readCount: int
    var writeCount: int
    var currentThread: nat
    var out: seq<Event>

    ghost predicate Stored()
      reads this
    {
      && readyArr.Length == THREAD_MAX && readyHead < THREAD_MAX && readySize < THREAD_MAX
      && readyArr != waitingArr
    }

    ghost function Model(): Sys
      requires Stored()
      reads this, tcbs, readyArr, waitingArr, sleepingSet
    {
      Sys(timeSlice, qp, qs, tcbs[..], RingContents(readyArr[..], readyHead, readySize),
          WaitRing(waitingArr[..], waitingHead, waitingSize), sleepingSet[..],
          readCount, writeCount, currentThread, out)
    }

    ghost predicate Valid()
      reads this, tcbs, readyArr, waitingArr, sleepingSet
    {
      Stored() && Shape(Model())
    }

    /** The entry that every push to the ready queue makes. */
    method PushReady(t: nat)
      requires Valid() && t < tcbs.Length && |Model().ready| + 1 < THREAD_MAX
      modifies this`readySize, readyArr
      ensures Valid() && Model() == old(Model()).(ready := old(Model().ready) + [t])
    {
      RingPush(readyArr[..], readyHead, readySize, t);
      readyArr[readySize] := t;
      readySize := (readySize + 1) % THREAD_MAX;
    }

    method SleepSlotAt(i: nat)
      requires Valid() && i <= THREAD_MAX && |SleepSlot(Model(), i).ready| < THREAD_MAX
      modifies this`readySize, readyArr, tcbs, sleepingSet
      ensures Valid() && Model() == SleepSlot(old(Model()), i)
    {
      match sleepingSet[i]
      case None =>
      case Some(t) =>
        tcbs[t] := tcbs[t].(sleepingTime := tcbs[t].sleepingTime - timeSlice);
        if tcbs[t].sleepingTime <= 0 {
          PushReady(t);
          tcbs[t] := tcbs[t].(keepgo := true);
          sleepingSet[i] := None;
        }
    }

    /** The first loop of scheduler(). */
    method ScanSleepers()
      requires Valid() && |SleepScan(Model(), 0).ready| < THREAD_MAX
      modifies this`readySize, readyArr, tcbs, sleepingSet
      ensures Valid() && Model() == SleepScan(old(Model()), 0)
    {
      hide Shape, SamePrograms, SleepScan, RingContents;
      var i := 0;
      while i < THREAD_MAX
        invariant i <= THREAD_MAX && Valid()
        invariant SleepScan(Model(), i) == SleepScan(old(Model()), 0)
      {
        ScanSlot(i);
        i := i + 1;
      }
      ScanDone(Model());
    }

    /** One turn of the loop: the rest of the scan starts from the state that this slot leaves. */
    method ScanSlot(i: nat)
      requires Valid() && i < THREAD_MAX && |SleepScan(Model(), i).ready| < THREAD_MAX
      modifies this`readySize, readyArr, tcbs, sleepingSet
      ensures Valid() && SleepScan(Model(), i + 1) == SleepScan(old(Model()), i)
    {
      hide Shape, SamePrograms, SleepSlot, RingContents;
      SleepScanReady(SleepSlot(Model(), i), i + 1);
      SleepSlotAt(i);
    }

    method WaitSlotAt(i: nat)
      requires Valid() && i < THREAD_MAX && |WaitSlot(Model(), i).ready| < THREAD_MAX
      modifies this`readySize, this`waitingHead, readyArr
      ensures Valid() && Model() == WaitSlot(old(Model()), i)
    {
      var t := waitingArr[i];
      if tcbs[t].waitingFor == 4 {
        if writeCount == 0 {
          PushReady(t);
          waitingHead := (waitingHead + 1) % THREAD_MAX;
        }
      } else if tcbs[t].waitingFor == 5 {
        if writeCount == 0 && readCount == 0 {
          PushReady(t);
          waitingHead := (waitingHead + 1) % THREAD_MAX;
        }
      }
    }

    /** The second loop of scheduler(): from the head as it is on entry up to the tail, without wrapping. */
    method ScanWaiters()
      requires Valid() && |WaitScan(Model(), waitingHead).ready| < THREAD_MAX
      modifies this`readySize, this`waitingHead, readyArr
      ensures Valid() && Model() == WaitScan(old(Model()), old(waitingHead))
    {
      var i := waitingHead;
      while i < waitingSize
        invariant Valid()
        invariant WaitScan(Model(), i) == WaitScan(old(Model()), old(waitingHead))
        decreases waitingSize - i
      {
        ScanWaitingSlot(i);
        i := i + 1;
      }
    }

    method ScanWaitingSlot(i: nat)
      requires Valid() && i < waitingSize && |WaitScan(Model(), i).ready| < THREAD_MAX
      modifies this`readySize, this`waitingHead, readyArr
      ensures Valid() && WaitScan(Model(), i + 1) == WaitScan(old(Model()), i)
    {
      hide SamePrograms, WaitSlot, RingContents;
      WaitScanGrows(WaitSlot(Model(), i), i + 1);
      WaitSlotAt(i);
    }

    method RequeueCurrent(status: int)
      requires Valid() && |Requeue(Model(), status).ready| < THREAD_MAX
      modifies this`readySize, readyArr
      ensures Valid() && Model() == Requeue(old(Model()), status)
    {
      if status == 1 {
        if currentThread != 0 {
          PushReady(currentThread);
        }
      }
    }

    /** Is some thread in one of the first THREAD_MAX slots of the sleeping set? */
    method FindSleeper() returns (judge: bool)
      requires Valid()
      ensures judge <==> AnySleeper(Model())
    {
      judge := false;
      var i := 0;
      while i < THREAD_MAX
        invariant i <= THREAD_MAX
        invariant judge <==> exists k :: 0 <= k < i && sleepingSet[..][k].Some?
      {
        if sleepingSet[i].Some? {
          assert sleepingSet[..][i].Some?;
          judge := true;
        }
        i := i + 1;
      }
    }

    method FindAsleep(t: nat) returns (asleep: bool)
      requires Valid()
      ensures asleep <==> AsleepSomewhere(Model().sleeping, t)
    {
      asleep := false;
      var i := 0;
      while i < THREAD_MAX
        invariant i <= THREAD_MAX
        invariant asleep <==> exists k :: 0 <= k < i && sleepingSet[..][k] == Some(t)
      {
        if sleepingSet[i] == Some(t) {
          assert sleepingSet[..][i] == Some(t);
          asleep := true;
        }
        i := i + 1;
      }
    }

    /** The loop that passes over ready threads found in the sleeping set. */
    method SkipAsleep()
      requires Valid()
      modifies this`readyHead
      ensures Valid() && Model() == old(Model()).(ready := SkipSleepers(old(Model().ready), old(Model().sleeping)))
    {
      var leave := false;
      while !leave && readyHead != readySize
        invariant Valid() && Model() == old(Model()).(ready := Model().ready)
        invariant SkipSleepers(Model().ready, Model().sleeping)
               == SkipSleepers(old(Model().ready), old(Model().sleeping))
        invariant leave ==> Model().ready == SkipSleepers(Model().ready, Model().sleeping)
        decreases !leave, |Model().ready|
      {
        RingPop(readyArr[..], readyHead, readySize);
        var asleep := FindAsleep(readyArr[readyHead]);
        leave := !asleep;
        if asleep {
          DropHead();
        }
      }
    }

    method DropHead()
      requires Valid() && readyHead != readySize
      modifies this`readyHead
      ensures Valid() && Model() == old(Model()).(ready := old(Model().ready)[1..])
    {
      hide Shape, RingContents;
      RingPop(readyArr[..], readyHead, readySize);
      DroppedShape(Model());
      readyHead := (readyHead + 1) % THREAD_MAX;
    }

    /** The end of scheduler(): pick the next thread, or return. */
    method DispatchNext() returns (returned: bool)
      requires Valid()
      modifies this`readyHead, this`currentThread
      ensures Valid() && Dispatch(old(Model())) == if returned then Finished(Model()) else Running(Model())
    {
      hide Shape, SamePrograms, RingContents;
      returned := false;
      NonEmptyRing(readyArr[..], readyHead, readySize);
      if readyHead == readySize {
        var judge := FindSleeper();
        currentThread := 0;
        returned := !judge;
      } else {
        SkipAsleep();
        NonEmptyRing(readyArr[..], readyHead, readySize);
        if readyHead == readySize {
          currentThread := 0;
        } else {
          RingPop(readyArr[..], readyHead, readySize);
          var next := readyArr[readyHead];
          DropHead();
          currentThread := next;
        }
      }
      assert Dispatch(old(Model())) == if returned then Finished(Model()) else Running(Model());
    }

    /** scheduler() from its setjmp, entered with `status`. */
    method RunScheduler(status: int) returns (returned: bool)
      requires Valid() && HasRoom(Model(), status)
      modifies this`readyHead, this`readySize, this`waitingHead, this`currentThread, readyArr, tcbs, sleepingSet
      ensures Valid() && Pass(old(Model()), status) == if returned then Finished(Model()) else Running(Model())
    {
      hide SleepScan, WaitScan, Dispatch, Shape, SamePrograms, RingContents;
      WaitScanGrows(SleepScan(Model(), 0), SleepScan(Model(), 0).waiting.head);
      ScanSleepers();
      ScanWaiters();
      RequeueCurrent(status);
      returned := DispatchNext();
    }

    // ---- the macros of thread_tool.h ----

    method PrintLine(e: Event)
      requires Valid()
      modifies this`out
      ensures Valid() && Model() == Say(old(Model()), e)
    {
      out := out + [e];
    }

    method Resume(p: Point)
      requires Valid()
      modifies tcbs
      ensures Valid() && Model() == MoveTo(old(Model()), p)
    {
      tcbs[currentThread] := tcbs[currentThread].(point := p);
    }

    method PushWaiter()
      requires Valid()
      modifies this`waitingSize, waitingArr
      ensures Valid() && Model() == old(Model()).(waiting := PushWaiting(old(Model().waiting), currentThread))
    {
      waitingArr[waitingSize] := currentThread;
      waitingSize := (waitingSize + 1) % THREAD_MAX;
    }

    method LockRead() returns (blocked: bool)
      requires Valid()
      modifies this`readCount, this`waitingSize, waitingArr, tcbs
      ensures Valid() && (Model(), blocked) == ReadLock(old(Model()))
      ensures blocked <==> old(writeCount) != 0
      ensures readCount == old(readCount) + if blocked then 0 else 1
    {
      blocked := writeCount != 0;
      if blocked {
        var t := currentThread;
        tcbs[t] := tcbs[t].(point := WokenRead, waitingFor := 4, waitedRead := true);
        PushWaiter();
      } else {
        readCount := readCount + 1;
      }
    }

    method LockWrite() returns (blocked: bool)
      requires Valid()
      modifies this`writeCount, this`waitingSize, waitingArr, tcbs
      ensures Valid() && (Model(), blocked) == WriteLock(old(Model()))
      ensures blocked <==> old(writeCount) != 0 || old(readCount) != 0
      ensures writeCount == if blocked then old(writeCount) else 1
    {
      blocked := writeCount != 0 || readCount != 0;
      if blocked {
        var t := currentThread;
        tcbs[t] := tcbs[t].(point := WokenWrite, waitingFor := 5, waitedWrite := true);
        PushWaiter();
      } else {
        writeCount := 1;
      }
    }

    method UnlockRead()
      requires Valid()
      modifies this`readCount
      ensures Valid() && Model() == ReadUnlock(old(Model()))
      ensures readCount == if old(readCount) > 0 then old(readCount) - 1 else old(readCount)
    {
      if readCount > 0 {
        readCount := readCount - 1;
      }
    }

    method UnlockWrite()
      requires Valid()
      modifies this`writeCount
      ensures Valid() && Model() == WriteUnlock(old(Model()))
      ensures writeCount == if old(writeCount) == 1 then 0 else old(writeCount)
    {
      if writeCount == 1 {
        writeCount := 0;
      }
    }

    method GoToSleep(seconds: int)
      requires Valid()
      modifies tcbs, sleepingSet
      ensures Valid() && Model() == Sleep(old(Model()), seconds)
    {
      tcbs[currentThread] := tcbs[currentThread].(sleepingTime := seconds);
      sleepingSet[currentThread] := Some(currentThread);
    }

    method AwakeThread(b: nat)
      requires Valid() && b <= THREAD_MAX && |Awake(Model(), b).ready| < THREAD_MAX
      modifies this`readySize, readyArr, tcbs, sleepingSet
      ensures Valid() && Model() == Awake(old(Model()), b)
    {
      match sleepingSet[b]
      case None =>
      case Some(t) =>
        tcbs[t] := tcbs[t].(keepgo := true);
        PushReady(t);
        sleepingSet[b] := None;
    }

    method ExitCurrent()
      requires Valid()
      modifies this`out, tcbs
      ensures Valid() && Model() == Exit(old(Model()))
    {
      PrintLine(ExitLine(currentThread));
      Resume(Exited);
    }

    // ---- the routines of routine.c, from one resume point to the next ----

    /** The head of the loop of fibonacci and its computation. */
    method ComputeFib()
      requires Valid() && Model().tcbs[currentThread].prog.Fibonacci?
      modifies tcbs
      ensures Valid() && Model() == SetTcb(old(Model()), currentThread, FibRound(old(Model()).tcbs[currentThread]))
    {
      hide SamePrograms, RingContents, Wrap32, Shape;
      InBounds(Model());
      var t := currentThread;
      ghost var goal := SetTcb(Model(), t, FibRound(tcbs[t]));
      var i := if tcbs[t].point == Start then 1 else Wrap32(tcbs[t].i + 1);
      tcbs[t] := tcbs[t].(i := i);
      if i <= 2 {
        tcbs[t] := tcbs[t].(fCur := 1, fPrev := 1);
      } else {
        var next := Wrap32(tcbs[t].fCur + tcbs[t].fPrev);
        tcbs[t] := tcbs[t].(fPrev := tcbs[t].fCur);
        tcbs[t] := tcbs[t].(fCur := next);
      }
      assert Model() == goal;
    }

    method RunFibonacci() returns (ending: Ending)
      requires Valid() && Model().tcbs[currentThread].prog.Fibonacci?
      modifies this`out, tcbs
      ensures Valid() && (Model(), ending) == FibSegment(old(Model()))
    {
      hide SamePrograms, RingContents, Wrap32, Exit, MoveTo, Shape;
      InBounds(Model());
      var t := currentThread;
      ComputeFib();
      PrintLine(FibLine(t, tcbs[t].i, tcbs[t].fCur));
      if tcbs[t].i == tcbs[t].prog.n {
        ExitCurrent();
        ending := Enter(3);
      } else {
        Resume(Repeat);
        ending := AtYield;
      }
    }

    /** The head of the loop of pm and its computation. */
    method ComputePm()
      requires Valid() && Model().tcbs[currentThread].prog.Pm?
      modifies tcbs
      ensures Valid() && Model() == SetTcb(old(Model()), currentThread, PmRound(old(Model()).tcbs[currentThread]))
    {
      hide SamePrograms, RingContents, Wrap32, Shape;
      InBounds(Model());
      var t := currentThread;
      ghost var goal := SetTcb(Model(), t, PmRound(tcbs[t]));
      var i := if tcbs[t].point == Start then 1 else Wrap32(tcbs[t].i + 1);
      tcbs[t] := tcbs[t].(i := i);
      if i == 1 {
        tcbs[t] := tcbs[t].(fCur := 1, fPrev := 1);
      } else {
        tcbs[t] := tcbs[t].(fPrev := tcbs[t].fCur);
        var sign := if i % 2 == 1 then 1 else -1;
        var next := Wrap32(sign * i + tcbs[t].fPrev);
        tcbs[t] := tcbs[t].(fCur := next);
      }
      assert Model() == goal;
    }

    method RunPm() returns (ending: Ending)
      requires Valid() && Model().tcbs[currentThread].prog.Pm?
      modifies this`out, tcbs
      ensures Valid() && (Model(), ending) == PmSegment(old(Model()))
    {
      hide SamePrograms, RingContents, Wrap32, Exit, MoveTo, Shape;
      InBounds(Model());
      var t := currentThread;
      ComputePm();
      PrintLine(PmLine(t, tcbs[t].i, tcbs[t].fCur));
      if tcbs[t].i == tcbs[t].prog.n {
        ExitCurrent();
        ending := Enter(3);
      } else {
        Resume(Repeat);
        ending := AtYield;
      }
    }

    method RunEnrollStart() returns (ending: Ending)
      requires Valid() && Model().tcbs[currentThread].prog.Enroll?
      requires |EnrollStart(Model()).0.ready| < THREAD_MAX
      modifies this, readyArr, waitingArr, sleepingSet, tcbs
      ensures Valid() && (Model(), ending) == EnrollStart(old(Model()))
    {
      hide SamePrograms, RingContents, Awake, ReadLock, Sleep, Shape;
      EnrollStartRoom(Model());
      var t := currentThread;
      if !tcbs[t].keepgo {
        PrintLine(SleepLine(t, tcbs[t].prog.s));
        GoToSleep(tcbs[t].prog.s + timeSlice);
        ending := Enter(2);
      } else {
        AwakeThread(tcbs[t].prog.b);
        var blocked := LockRead();
        if blocked {
          ending := Enter(4);
        } else {
          PrintLine(AcquireReadLine(currentThread));
          Resume(Reading);
          ending := AtYield;
        }
      }
    }

    method RunEnrollReading() returns (ending: Ending)
      requires Valid() && Model().tcbs[currentThread].prog.Enroll?
      modifies this`readCount, this`out, tcbs
      ensures Valid() && (Model(), ending) == EnrollReading(old(Model()))
    {
      hide SamePrograms, RingContents, MoveTo;
      UnlockRead();
      var c := tcbs[currentThread];
      PrintLine(ReleaseReadLine(currentThread, c.prog.dp * qp, c.prog.ds * qs));
      Resume(Choosing);
      ending := AtYield;
    }

    method RunEnrollChoosing() returns (ending: Ending)
      requires Valid()
      modifies this`writeCount, this`waitingSize, this`out, waitingArr, tcbs
      ensures Valid() && (Model(), ending) == EnrollChoosing(old(Model()))
    {
      hide SamePrograms, RingContents, MoveTo, WriteLock, Shape;
      var blocked := LockWrite();
      if blocked {
        ending := Enter(5);
      } else {
        ending := RunAfterWriteLock();
      }
    }

    method RunAfterReadLock() returns (ending: Ending)
      requires Valid()
      modifies this`out, tcbs
      ensures Valid() && (Model(), ending) == AfterReadLock(old(Model()))
    {
      hide SamePrograms, RingContents, MoveTo, Shape;
      PrintLine(AcquireReadLine(currentThread));
      Resume(Reading);
      ending := AtYield;
    }

    method RunAfterWriteLock() returns (ending: Ending)
      requires Valid()
      modifies this`out, tcbs
      ensures Valid() && (Model(), ending) == AfterWriteLock(old(Model()))
    {
      hide SamePrograms, RingContents, MoveTo, Shape;
      PrintLine(AcquireWriteLine(currentThread));
      Resume(Writing);
      ending := AtYield;
    }

    method RunEnrollWriting() returns (ending: Ending)
      requires Valid()
      modifies this`writeCount, this`out, tcbs
      ensures Valid() && (Model(), ending) == EnrollWriting(old(Model()))
    {
      hide SamePrograms, RingContents, MoveTo, Exit, WriteUnlock, Shape;
      UnlockWrite();
      PrintLine(ReleaseWriteLine(currentThread));
      ExitCurrent();
      ending := Enter(3);
    }

    /** The current thread runs to its next yield or jump to the scheduler. */
    method RunSegment() returns (ending: Ending)
      requires Valid() && |Segment(Model()).0.ready| < THREAD_MAX
      modifies this, readyArr, waitingArr, sleepingSet, tcbs
      ensures Valid() && (Model(), ending) == Segment(old(Model()))
    {
      hide SamePrograms, RingContents, Shape, FibSegment, PmSegment, EnrollStart, AfterReadLock, EnrollReading,
        EnrollChoosing, AfterWriteLock, EnrollWriting;
      InBounds(Model());
      var c := tcbs[currentThread];
      match c.prog
      case Idle =>
        PrintLine(IdleLine);
        ending := AtYield;
      case Fibonacci(_) => ending := RunFibonacci();
      case Pm(_) => ending := RunPm();
      case Enroll(_, _, _, _) =>
        match c.point {
          case Start => ending := RunEnrollStart();
          case WokenRead => ending := RunAfterReadLock();
          case Reading => ending := RunEnrollReading();
          case Choosing => ending := RunEnrollChoosing();
          case WokenWrite => ending := RunAfterWriteLock();
          case Writing => ending := RunEnrollWriting();
          case _ => ending := AtYield;
        }
    }

    /** One stretch of code, with the scheduler after it when the thread blocks, sleeps, exits or is signalled. */
    method RunStep(signalled: bool) returns (returned: bool)
      requires Valid() && StepHasRoom(Model(), signalled)
      modifies this, readyArr, waitingArr, sleepingSet, tcbs
      ensures Valid() && Step(old(Model()), signalled) == if returned then Finished(Model()) else Running(Model())
    {
      hide SamePrograms, RingContents, Shape, Segment, Pass, HasRoom;
      var ending := RunSegment();
      returned := false;
      match ending
      case AtYield =>
        if signalled {
          returned := RunScheduler(1);
        }
      case Enter(status) =>
        returned := RunScheduler(status);
    }

    /** The globals before the first call of scheduler(): every thread created and queued, and the idle thread. */
    constructor (cfg: Config)
      requires ValidConfig(cfg)
      ensures Valid() && Model() == Boot(cfg)
      ensures fresh(tcbs) && fresh(readyArr) && fresh(waitingArr) && fresh(sleepingSet)
    {
      var n := |cfg.programs|;
      timeSlice, qp, qs := cfg.timeSlice, cfg.qp, cfg.qs;
      tcbs := new Tcb[n + 1](i requires 0 <= i < n + 1 =>
        if i == 0 then NewTcb(Idle) else NewTcb(cfg.programs[i - 1]));
      readyArr := new nat[THREAD_MAX](i => if 0 <= i < n then i + 1 else 0);
      readyHead, readySize := 0, n;
      waitingArr := new nat[THREAD_MAX](_ => 0);
      waitingHead, waitingSize := 0, 0;
      sleepingSet := new Option<nat>[THREAD_MAX + 1](_ => None);
      readCount, writeCount, currentThread, out := 0, 0, 0, [];
      new;
      assert Model().tcbs == Boot(cfg).tcbs;
      assert Model().ready == Boot(cfg).ready;
      assert Model().waiting.arr == Boot(cfg).waiting.arr;
      assert Model().sleeping == Boot(cfg).sleeping;
    }
  }

  lemma {:induction false} WaitScanGrows(s: Sys, i: nat)
    requires Shape(s)
    ensures s.ready <= WaitScan(s, i).ready
    decreases s.waiting.tail - i
  {
    if i >= s.waiting.tail {
    } else {
      WaitScanGrows(WaitSlot(s, i), i + 1);
    }
  }

  lemma InBounds(s: Sys)
    requires Shape(s)
    ensures s.current < |s.tcbs|
  {
  }

  lemma EnrollStartRoom(s: Sys)
    requires Shape(s) && s.tcbs[s.current].prog.Enroll?
    ensures s.current < |s.tcbs| && 0 <= s.tcbs[s.current].prog.b <= THREAD_MAX
    ensures s.tcbs[s.current].keepgo ==> Awake(s, s.tcbs[s.current].prog.b).ready == EnrollStart(s).0.ready
  {
    hide SamePrograms, Awake;
  }

  lemma DroppedShape(s: Sys)
    requires Shape(s) && s.ready != []
    ensures Shape(s.(ready := s.ready[1..]))
  {
  }

  lemma NonEmptyRing(arr: seq<nat>, head: nat, tail: nat)
    requires |arr| == THREAD_MAX && head < THREAD_MAX && tail < THREAD_MAX
    ensures RingContents(arr, head, tail) == [] <==> head == tail
  {
  }

  /** The ready ring, which holds one thread less than it has slots, has room for every push of a pass. */
  ghost predicate HasRoom(s: Sys, status: int) {
    Shape(s) && |Requeue(WaitScan(SleepScan(s, 0), SleepScan(s, 0).waiting.head), status).ready| < THREAD_MAX
  }

  lemma ConservedRoom(s: Sys, held: bool)
    requires Layout(s) && Conserved(s, held)
    ensures |s.ready| < THREAD_MAX
  {
    hide Where, WaiterFits, SleeperFits, PointFits;
    forall t: nat ensures Occurs(s.ready, t) <= (if 1 <= t <= |s.tcbs| - 1 then 1 else 0) {
      assert Places(s, held, t) == if t in Where(s.tcbs, IsLive) then 1 else 0;
      if t in Where(s.tcbs, IsLive) { LiveInRange(s, t); }
    }
    DistinctFits(s.ready, |s.tcbs| - 1);
  }

  /** In every reachable state the ready ring has room for the pushes of a pass. */
  lemma PassRoom(s: Sys, status: int)
    requires EntryInv(s, status == 1)
    ensures HasRoom(s, status)
  {
    hide SleepScan, WaitScan, Conserved, Locks, History, Where;
    SleepScanKeeps(s, status == 1, 0);
    var s1 := SleepScan(s, 0);
    WaitScanKeeps(s1, status == 1);
    var s2 := WaitScan(s1, s1.waiting.head);
    RequeueKeeps(s2, status);
    ConservedRoom(Requeue(s2, status), false);
  }

  lemma SegmentRoom(s: Sys)
    requires Inv(s)
    ensures Shape(s) && |Segment(s).0.ready| < THREAD_MAX
    ensures match Segment(s).1
      case AtYield => EntryInv(Segment(s).0, true)
      case Enter(status) => EntryInv(Segment(s).0, status == 1)
  {
    SegmentKeeps(s);
    hide Segment, Conserved, Locks, History, Where;
    var r := Segment(s);
    ConservedRoom(r.0, r.1.AtYield?);
  }

  /** The ready ring has room for the pushes of one step. */
  ghost predicate StepHasRoom(s: Sys, signalled: bool) {
    && Shape(s) && |Segment(s).0.ready| < THREAD_MAX
    && match Segment(s).1
       case AtYield => signalled ==> HasRoom(Segment(s).0, 1)
       case Enter(status) => HasRoom(Segment(s).0, status)
  }

  ghost predicate RunHasRoom(o: Outcome, signals: seq<bool>)
    requires Shape(o.sys)
    decreases |signals|
  {
    hide Step, StepHasRoom;
    o.Finished? || signals == []
    || (StepHasRoom(o.sys, signals[0]) && RunHasRoom(Step(o.sys, signals[0]), signals[1..]))
  }

  /** The ready ring never overflows in this run. */
  ghost predicate RoomThroughout(cfg: Config, signals: seq<bool>)
    requires ValidConfig(cfg)
  {
    HasRoom(Boot(cfg), 0) && RunHasRoom(Pass(Boot(cfg), 0), signals)
  }

  lemma GoodStepHasRoom(s: Sys, signalled: bool)
    requires Inv(s)
    ensures StepHasRoom(s, signalled)
  {
    hide Segment, HasRoom, EntryInv, Inv;
    SegmentRoom(s);
    match Segment(s).1 {
      case AtYield => PassRoom(Segment(s).0, 1);
      case Enter(status) => PassRoom(Segment(s).0, status);
    }
  }

  lemma {:induction false} GoodRunHasRoom(o: Outcome, signals: seq<bool>)
    requires Good(o) && Shape(o.sys)
    ensures RunHasRoom(o, signals)
    decreases |signals|
  {
    hide Step, StepHasRoom, Inv, Where;
    if o.Finished? || signals == [] {
    } else {
      GoodStepHasRoom(o.sys, signals[0]);
      StepKeeps(o.sys, signals[0]);
      GoodRunHasRoom(Step(o.sys, signals[0]), signals[1..]);
    }
  }

  /** The ready ring never overflows in any run. */
  lemma RoomInEveryRun(cfg: Config, signals: seq<bool>)
    requires ValidConfig(cfg)
    ensures RoomThroughout(cfg, signals)
  {
    hide Boot, Pass, HasRoom, RunHasRoom, EntryInv, Inv, Where, ValidConfig;
    BootKeeps(cfg);
    PassRoom(Boot(cfg), 0);
    PassKeeps(Boot(cfg), 0);
    GoodRunHasRoom(Pass(Boot(cfg), 0), signals);
  }

  /** The program: boot, schedule, and run under these signals until the scheduler returns or the signals are
      used up. */
  method Execute(cfg: Config, signals: seq<bool>) returns (k: Kernel, returned: bool)
    requires ValidConfig(cfg)
    ensures k.Valid() && Execution(cfg, signals) == if returned then Finished(k.Model()) else Running(k.Model())
    ensures returned ==> (AllExited(k.Model()) <==> Flat(k.Model().waiting))
    ensures returned && |Enrolls(cfg)| <= SAFE_ENROLLS ==> AllExited(k.Model())
  {
    hide Boot, Pass, Step, Shape, SamePrograms, HasRoom, StepHasRoom, RingContents;
    hide AllExited, Enrolls, LeftBehind, Flat;
    if Execution(cfg, signals).Finished? { LeftBehindWhenWrapped(cfg, signals); }
    if |Enrolls(cfg)| <= SAFE_ENROLLS { NoDeadlock(cfg, signals); }
    RoomInEveryRun(cfg, signals);
    k := new Kernel(cfg);
    returned := k.RunScheduler(0);
    var i := 0;
    while i < |signals| && !returned
      invariant i <= |signals| && fresh(k.tcbs) && fresh(k.readyArr) && fresh(k.waitingArr) && fresh(k.sleepingSet)
      invariant fresh(k) && k.Valid()
      invariant var o := if returned then Finished(k.Model()) else Running(k.Model());
        Shape(o.sys) && RunHasRoom(o, signals[i..]) && Run(o, signals[i..]) == Execution(cfg, signals)
    {
      assert signals[i..][1..] == signals[i + 1..];
      returned := k.RunStep(signals[i]);
      i := i + 1;
    }
  }
}
