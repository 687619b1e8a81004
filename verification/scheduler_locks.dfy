/** What each stretch of enroll does about the locks, for any arguments; and that the two counts are exact, and never
    both positive, as long as nobody has had to wait. */
module SchedulerLocks {
  import opened Threads
  import opened Scheduler
  import opened SchedulerInvariant
  import opened SchedulerSafety

  /** The running thread is an enroll thread at this point. */
  ghost predicate EnrollAt(s: Sys, p: Point) {
    Inv(s) && s.current < |s.tcbs| && s.tcbs[s.current].prog.Enroll? && s.tcbs[s.current].point == p
  }

  /** The control blocks with the running thread at another point. */
  function At(s: Sys, p: Point): seq<Tcb>
    requires s.current < |s.tcbs|
  {
    s.tcbs[s.current := s.tcbs[s.current].(point := p)]
  }

  lemma NotIdle(s: Sys, p: Point)
    requires EnrollAt(s, p)
    ensures Shape(s) && s.current != 0 && 0 <= s.tcbs[s.current].prog.b <= THREAD_MAX
    ensures |s.waiting.arr| == THREAD_MAX && s.waiting.head < THREAD_MAX && s.waiting.tail < THREAD_MAX
    ensures 0 <= s.writeCount <= 1 && s.readCount >= 0
  {
    hide Conserved, History;
  }

  /** write_lock: an enroll thread that wants to write goes on, counted, exactly when both counts are 0.  Otherwise it
      is put at the end of the waiting queue and jumps to the scheduler, and the counts stay. */
  lemma WriteLockIs(s: Sys)
    requires EnrollAt(s, Choosing)
    ensures var (r, ending) := Segment(s); var free := s.readCount == 0 && s.writeCount == 0;
      && ending == (if free then AtYield else Enter(5))
      && (free ==> r == s.(tcbs := At(s, Writing), writeCount := 1, out := r.out))
      && (!free ==>
            && r.tcbs == s.tcbs[s.current := s.tcbs[s.current].(point := WokenWrite, waitingFor := 5,
                                                                waitedWrite := true)]
            && r == s.(tcbs := r.tcbs, waiting := r.waiting)
            && Waiting(r.waiting) == Waiting(s.waiting) + [s.current])
  {
    hide EntryInv, SamePrograms, PushWaiting, Waiting, Shape;
    NotIdle(s, Choosing);
    WaitingHasRoom(s);
    PushedWaiting(s.waiting, s.current);
  }

  /** read_lock, after thread_awake: the thread goes on, counted, exactly when no write is counted; otherwise it is put
      at the end of the waiting queue, and the counts stay. */
  lemma ReadLockIs(s: Sys)
    requires EnrollAt(s, Start) && s.tcbs[s.current].keepgo
    ensures var (r, ending) := Segment(s); var free := s.writeCount == 0; var t := s.current;
      && |r.tcbs| == |s.tcbs| && (forall u :: 0 <= u < |s.tcbs| && u != t ==> SameRole(s.tcbs[u], r.tcbs[u]))
      && r.writeCount == s.writeCount
      && ending == (if free then AtYield else Enter(4))
      && (free ==>
            && r.tcbs[t] == s.tcbs[t].(point := Reading)
            && r.readCount == s.readCount + 1 && r.waiting == s.waiting)
      && (!free ==>
            && r.tcbs[t] == s.tcbs[t].(point := WokenRead, waitingFor := 4, waitedRead := true)
            && r.readCount == s.readCount && Waiting(r.waiting) == Waiting(s.waiting) + [t])
  {
    hide EntryInv, SamePrograms, PushWaiting, Waiting, Shape, Awake;
    NotIdle(s, Start);
    WaitingHasRoom(s);
    AwakeKeeps(s, s.tcbs[s.current].prog.b);
    PushedWaiting(s.waiting, s.current);
  }

  /** read_unlock: the count of readers falls by exactly one, and stays at 0 if it was 0; nothing else changes. */
  lemma ReadUnlockIs(s: Sys)
    requires EnrollAt(s, Reading)
    ensures var (r, ending) := Segment(s);
      && ending == AtYield && s.readCount >= 0
      && (s.readCount > 0 ==> r.readCount == s.readCount - 1)
      && (s.readCount == 0 ==> r.readCount == 0)
      && r == s.(tcbs := At(s, Choosing), readCount := r.readCount, out := r.out)
  {
    hide EntryInv, SamePrograms;
    NotIdle(s, Reading);
  }

  /** write_unlock and thread_exit: no write is counted any more, the readers stay counted, and the thread is gone. */
  lemma WriteUnlockIs(s: Sys)
    requires EnrollAt(s, Writing)
    ensures var (r, ending) := Segment(s);
      && ending == Enter(3)
      && r == s.(tcbs := At(s, Exited), writeCount := 0, out := r.out)
  {
    hide EntryInv, SamePrograms;
    NotIdle(s, Writing);
  }

  /** A thread woken from the waiting queue goes on into its section with both counts as they are. */
  lemma WokenIs(s: Sys)
    requires EnrollAt(s, WokenRead) || EnrollAt(s, WokenWrite)
    ensures var (r, ending) := Segment(s);
      && ending == AtYield
      && r == s.(tcbs := At(s, if s.tcbs[s.current].point == WokenRead then Reading else Writing), out := r.out)
  {
    hide EntryInv, SamePrograms;
    NotIdle(s, s.tcbs[s.current].point);
  }

  /** An enroll thread that comes first to thread_setup falls asleep for its seconds and a time slice. */
  lemma FirstVisitIs(s: Sys)
    requires EnrollAt(s, Start) && !s.tcbs[s.current].keepgo
    ensures var (r, ending) := Segment(s); var c := s.tcbs[s.current];
      && ending == Enter(2) && |s.sleeping| == THREAD_MAX + 1 && s.current < THREAD_MAX
      && r == s.(tcbs := s.tcbs[s.current := c.(sleepingTime := c.prog.s + s.timeSlice)],
                 sleeping := s.sleeping[s.current := Some(s.current)], out := r.out)
  {
    hide EntryInv, SamePrograms;
    NotIdle(s, Start);
  }

  // ---- the counts over runs ----

  ghost predicate NobodyWaited(q: seq<Tcb>) {
    forall t :: 0 <= t < |q| ==> !q[t].waitedRead && !q[t].waitedWrite
  }

  predicate IsReading(c: Tcb) { c.point == Reading }

  predicate IsWriting(c: Tcb) { c.point == Writing }

  /** As long as nobody has had to wait, the counts are the numbers of threads inside, and never both positive. */
  ghost predicate CountsExact(s: Sys) {
    NobodyWaited(s.tcbs) ==>
      && s.readCount == |Where(s.tcbs, IsReading)|
      && s.writeCount == |Where(s.tcbs, IsWriting)|
      && (s.readCount == 0 || s.writeCount == 0)
  }

  function One(b: bool): int { if b then 1 else 0 }

  lemma WhereMoves(q: seq<Tcb>, r: seq<Tcb>, t: nat, p: Tcb -> bool)
    requires |q| == |r| && t < |q| && forall u :: 0 <= u < |q| && u != t ==> p(q[u]) == p(r[u])
    ensures |Where(r, p)| == |Where(q, p)| - One(p(q[t])) + One(p(r[t]))
  {
    var rest := Where(q, p) - {t};
    assert Where(r, p) == if p(r[t]) then rest + {t} else rest;
    assert Where(q, p) == if p(q[t]) then rest + {t} else rest;
  }

  /** What a stretch does to the counts when its thread does not have to wait: they follow its point. */
  ghost predicate CountsFollow(s: Sys, r: Sys, t: nat)
    requires t < |s.tcbs| == |r.tcbs|
  {
    && (forall u :: 0 <= u < |s.tcbs| && u != t ==> SameRole(s.tcbs[u], r.tcbs[u]))
    && (s.tcbs[t].waitedRead ==> r.tcbs[t].waitedRead) && (s.tcbs[t].waitedWrite ==> r.tcbs[t].waitedWrite)
    && var (c, d) := (s.tcbs[t], r.tcbs[t]);
       !d.waitedRead && !d.waitedWrite ==>
         && (c.point == Reading ==> s.readCount > 0) && (c.point == Writing ==> s.writeCount > 0) ==>
              && r.readCount == s.readCount - One(c.point == Reading) + One(d.point == Reading)
              && r.writeCount == s.writeCount - One(c.point == Writing) + One(d.point == Writing)
  }

  lemma EnrollCounts(s: Sys)
    requires Inv(s) && Shape(s) && s.tcbs[s.current].prog.Enroll?
    ensures |Segment(s).0.tcbs| == |s.tcbs| && CountsFollow(s, Segment(s).0, s.current)
  {
    hide EntryInv, Segment, Waiting, Shape, SamePrograms;
    EnrollPoint(s);
    match s.tcbs[s.current].point {
      case Start => if s.tcbs[s.current].keepgo { ReadLockIs(s); } else { FirstVisitIs(s); }
      case WokenRead => WokenIs(s);
      case Reading => ReadUnlockIs(s);
      case Choosing => WriteLockIs(s);
      case WokenWrite => WokenIs(s);
      case Writing =>
        WriteUnlockIs(s);
        NotIdle(s, Writing);
      case _ =>
    }
  }

  lemma EnrollPoint(s: Sys)
    requires Inv(s) && Shape(s) && s.tcbs[s.current].prog.Enroll?
    ensures var c := s.tcbs[s.current];
      && EnrollAt(s, c.point) && c.point !in {Repeat, Exited}
      && (c.point == WokenRead ==> c.waitedRead) && (c.point == WokenWrite ==> c.waitedWrite)
  {
    hide Conserved, Locks, History;
    NotIdle(s, s.tcbs[s.current].point);
    assert PointFits(s.tcbs[s.current]);
  }

  lemma SegmentCounts(s: Sys)
    requires Inv(s) && Shape(s)
    ensures |Segment(s).0.tcbs| == |s.tcbs| && CountsFollow(s, Segment(s).0, s.current)
  {
    hide FibSegment, PmSegment, EnrollStart, EnrollReading, EnrollChoosing, EnrollWriting, AfterReadLock;
    hide AfterWriteLock, Inv, SamePrograms;
    CurrentFits(s);
    var c := s.tcbs[s.current];
    if c.prog.Enroll? {
      EnrollCounts(s);
    } else if c.prog.Fibonacci? {
      FibRoundMoves(s);
    } else if c.prog.Pm? {
      PmRoundMoves(s);
    }
  }

  lemma CurrentFits(s: Sys)
    requires Inv(s)
    ensures Shape(s) && PointFits(s.tcbs[s.current])
  {
    hide Conserved, Locks, History;
  }

  lemma SegmentExact(s: Sys)
    requires Inv(s) && Shape(s) && CountsExact(s)
    ensures CountsExact(Segment(s).0)
  {
    hide Segment, Inv, SamePrograms, Where;
    var (r, t) := (Segment(s).0, s.current);
    SegmentCounts(s);
    if NobodyWaited(r.tcbs) {
      NobodyWaitedBefore(s, r);
      WhereMoves(s.tcbs, r.tcbs, t, IsReading);
      WhereMoves(s.tcbs, r.tcbs, t, IsWriting);
      InsideCounted(s.tcbs, t);
      SegmentExcludes(s);
    }
  }

  lemma NobodyWaitedBefore(s: Sys, r: Sys)
    requires s.current < |s.tcbs| == |r.tcbs| && CountsFollow(s, r, s.current) && NobodyWaited(r.tcbs)
    ensures NobodyWaited(s.tcbs)
  {
  }

  lemma InsideCounted(q: seq<Tcb>, t: nat)
    requires t < |q|
    ensures q[t].point == Reading ==> |Where(q, IsReading)| > 0
    ensures q[t].point == Writing ==> |Where(q, IsWriting)| > 0
  {
    assert q[t].point == Reading ==> t in Where(q, IsReading);
    assert q[t].point == Writing ==> t in Where(q, IsWriting);
  }

  lemma SegmentExcludes(s: Sys)
    requires Inv(s)
    ensures Shape(s) && var r := Segment(s).0; r.readCount == 0 || r.writeCount == 0
  {
    hide Segment, Layout, Conserved, History, Where, SamePrograms;
    InvHasShape(s);
    SegmentKeeps(s);
    assert Locks(Segment(s).0);
  }

  lemma PassExact(s: Sys, status: int)
    requires EntryInv(s, status == 1) && Shape(s) && CountsExact(s)
    ensures CountsExact(Pass(s, status).sys)
  {
    hide EntryInv, Pass, Inv, Ended, Where, Shape;
    PassKeeps(s, status);
    SameCounts(s.tcbs, Pass(s, status).sys.tcbs);
  }

  lemma SameCounts(q: seq<Tcb>, r: seq<Tcb>)
    requires SameRoles(q, r)
    ensures Where(q, IsReading) == Where(r, IsReading) && Where(q, IsWriting) == Where(r, IsWriting)
    ensures NobodyWaited(q) <==> NobodyWaited(r)
  {
  }

  lemma StepExact(s: Sys, signalled: bool)
    requires Inv(s) && Shape(s) && CountsExact(s)
    ensures CountsExact(Step(s, signalled).sys)
  {
    hide EntryInv, Segment, Pass, CountsExact, SamePrograms, Shape;
    SegmentExact(s);
    SegmentKeeps(s);
    var (s1, ending) := Segment(s);
    match ending {
      case AtYield => if signalled { PassExact(s1, 1); }
      case Enter(status) => PassExact(s1, status);
    }
  }

  lemma {:induction false} RunExact(o: Outcome, signals: seq<bool>)
    requires Good(o) && Shape(o.sys) && CountsExact(o.sys)
    ensures CountsExact(Run(o, signals).sys)
    decreases |signals|
  {
    hide Step, Inv, Ended, CountsExact, SamePrograms;
    if o.Finished? || signals == [] {
    } else {
      StepExact(o.sys, signals[0]);
      StepKeeps(o.sys, signals[0]);
      RunExact(Step(o.sys, signals[0]), signals[1..]);
    }
  }

  lemma BootExact(cfg: Config)
    requires ValidConfig(cfg)
    ensures CountsExact(Boot(cfg))
  {
    var s := Boot(cfg);
    assert Where(s.tcbs, IsReading) == {} && Where(s.tcbs, IsWriting) == {};
  }

  /** In every run, as long as no thread has had to wait for a lock, `read_count` is the number of threads in their read
      section, `write_count` the number in their write section, and one of the two is 0. */
  lemma CountsAreExact(cfg: Config, signals: seq<bool>)
    requires ValidConfig(cfg)
    ensures var s := Execution(cfg, signals).sys;
      NobodyWaited(s.tcbs) ==>
        && s.readCount == |Where(s.tcbs, IsReading)|
        && s.writeCount == |Where(s.tcbs, IsWriting)|
        && (Where(s.tcbs, IsReading) == {} || Where(s.tcbs, IsWriting) == {})
  {
    hide Boot, Pass, Run, Where, NobodyWaited, Shape, SamePrograms, Inv, EntryInv, Ended;
    BootKeeps(cfg);
    BootExact(cfg);
    PassExact(Boot(cfg), 0);
    PassKeeps(Boot(cfg), 0);
    RunExact(Pass(Boot(cfg), 0), signals);
  }
}
