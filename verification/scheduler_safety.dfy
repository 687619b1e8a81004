/** Every stretch of a thread's code keeps the invariant; so every reachable state has it, and with at most
    SAFE_ENROLLS enroll threads the scheduler returns only when every thread has exited. */
module SchedulerSafety {
  import opened Threads
  import opened Scheduler
  import opened SchedulerInvariant

  // ---- one control block changes ----

  function With(a: set<nat>, t: nat, b: bool): set<nat> {
    if b then a + {t} else a - {t}
  }

  /** How the roll changes when thread t gets control block c. */
  lemma RollUpdate(q: seq<Tcb>, t: nat, c: Tcb)
    requires t < |q| && c.prog == q[t].prog
    ensures var (a, b) := (RollOf(q), RollOf(q[t := c]));
      && b == Roll(With(a.inRead, t, InReadSection(c)), With(a.inWrite, t, InWriteSection(c)),
                   With(a.readCounted, t, ReadCounted(c)), With(a.writeCounted, t, WriteCounted(c)),
                   With(a.waitedRead, t, c.waitedRead), With(a.waitedWrite, t, c.waitedWrite),
                   With(a.exited, t, c.point == Exited))
      && (t in a.inRead <==> InReadSection(q[t])) && (t in a.inWrite <==> InWriteSection(q[t]))
      && (t in a.readCounted <==> ReadCounted(q[t])) && (t in a.writeCounted <==> WriteCounted(q[t]))
      && (t in a.waitedRead <==> q[t].waitedRead) && (t in a.waitedWrite <==> q[t].waitedWrite)
      && (t in a.exited <==> q[t].point == Exited)
    ensures Where(q[t := c], IsEnroll) == Where(q, IsEnroll)
  {
    WhereUpdate(q, t, c, InReadSection);
    WhereUpdate(q, t, c, InWriteSection);
    WhereUpdate(q, t, c, ReadCounted);
    WhereUpdate(q, t, c, WriteCounted);
    WhereUpdate(q, t, c, WaitedRead);
    WhereUpdate(q, t, c, WaitedWrite);
    WhereUpdate(q, t, c, HasExited);
    WhereUpdate(q, t, c, IsEnroll);
  }

  /** Facts about a roll that come from the control blocks alone. */
  ghost predicate RollFits(a: Roll) {
    && a.inRead <= a.readCounted && a.inWrite <= a.writeCounted
    && a.inRead !! a.exited && a.inWrite !! a.exited
    && a.waitedRead !! a.readCounted && a.waitedWrite !! a.writeCounted
    && a.waitedWrite <= a.waitedRead + a.readCounted
    && a.inRead !! a.writeCounted
  }

  lemma RollOfFits(s: Sys)
    requires Layout(s)
    ensures RollFits(RollOf(s.tcbs))
  {
    var a := RollOf(s.tcbs);
    assert forall t: nat :: t < |s.tcbs| ==> PointFits(s.tcbs[t]);
    assert a.waitedWrite <= a.waitedRead + a.readCounted;
  }

  /** The running thread is in no queue. */
  lemma CurrentIsNowhereElse(s: Sys)
    requires Inv(s) && s.current != 0
    ensures s.current !in s.ready && s.current !in Waiting(s.waiting) && !IsAsleep(s, s.current)
  {
    hide Layout, Locks, History, Where;
    assert Places(s, true, s.current) <= 1;
  }

  /** r is s with another control block for the running thread, other lock counts and other output. */
  ghost predicate Moved(s: Sys, r: Sys)
    requires Shape(s)
  {
    && |r.tcbs| == |s.tcbs| && r.tcbs == s.tcbs[s.current := r.tcbs[s.current]]
    && r.tcbs[s.current].prog == s.tcbs[s.current].prog
    && r == s.(tcbs := r.tcbs, readCount := r.readCount, writeCount := r.writeCount, out := r.out)
  }

  lemma MovedLayout(s: Sys, r: Sys)
    requires Inv(s) && s.current != 0 && Moved(s, r) && PointFits(r.tcbs[s.current])
    ensures Layout(r) && SleepersHaveTime(r)
  {
    CurrentIsNowhereElse(s);
    hide Conserved, Locks, History, PointFits, WaiterFits, SleeperFits, SamePrograms;
  }

  lemma MovedConserved(s: Sys, r: Sys)
    requires Inv(s) && s.current != 0 && Moved(s, r)
    ensures Conserved(r, IsLive(r.tcbs[s.current]))
  {
    CurrentIsNowhereElse(s);
    var c := r.tcbs[s.current];
    WhereUpdate(s.tcbs, s.current, c, IsLive);
    var held := IsLive(c);
    hide Layout, Locks, History, Where;
    forall t: nat ensures Places(r, held, t) == if t in Where(r.tcbs, IsLive) then 1 else 0 {
      assert Places(s, true, t) == if t in Where(s.tcbs, IsLive) then 1 else 0;
    }
  }

  lemma MoveKeeps(s: Sys, r: Sys)
    requires Inv(s) && s.current != 0 && Moved(s, r) && PointFits(r.tcbs[s.current])
    requires Locks(r) && History(r) && Where(r.tcbs, IsEnroll) == Where(s.tcbs, IsEnroll)
    ensures IsLive(r.tcbs[s.current]) && (s.writeCount == 1 ==> r.writeCount == 1) ==> Inv(r)
    ensures !IsLive(r.tcbs[s.current]) && r.readCount == s.readCount ==> EntryInv(r, false)
  {
    MovedLayout(s, r);
    MovedConserved(s, r);
    CurrentIsNowhereElse(s);
    assert forall t :: t in Waiting(s.waiting) ==> t < |s.tcbs| && r.tcbs[t] == s.tcbs[t] by {
      WaitingInvolvesWaiters(s);
    }
    hide Layout, Conserved, History, Where;
  }

  // ---- joining a queue ----

  lemma PushedWaiting(w: WaitRing, t: nat)
    requires |w.arr| == THREAD_MAX && w.head < THREAD_MAX && w.tail < THREAD_MAX && |Waiting(w)| + 1 < THREAD_MAX
    ensures Waiting(PushWaiting(w, t)) == Waiting(w) + [t]
    ensures Flat(PushWaiting(w, t)) <==> Flat(w) && w.tail + 1 < THREAD_MAX
    ensures Flat(PushWaiting(w, t)) ==> PushWaiting(w, t).tail == w.tail + 1
  {
    var v := PushWaiting(w, t);
    if Flat(w) && w.tail + 1 < THREAD_MAX {
    } else if Flat(w) {
      assert v.arr[w.head..] == w.arr[w.head..w.tail] + [t] && v.arr[..0] == [];
    } else {
      assert v.arr[w.head..] == w.arr[w.head..] && v.arr[..w.tail + 1] == w.arr[..w.tail] + [t];
    }
  }

  /** The queues have room for one more: no thread is in one twice, and the current one is in none. */
  lemma WaitingHasRoom(s: Sys)
    requires Inv(s) && s.current != 0
    ensures |Waiting(s.waiting)| + 1 < THREAD_MAX
  {
    hide Locks, History, Where, Waiting;
    var q := Waiting(s.waiting) + [s.current];
    forall t: nat ensures Occurs(q, t) <= (if 1 <= t <= |s.tcbs| - 1 then 1 else 0) {
      assert Places(s, true, t) == if t in Where(s.tcbs, IsLive) then 1 else 0;
      if t in Where(s.tcbs, IsLive) { LiveInRange(s, t); }
    }
    DistinctFits(q, |s.tcbs| - 1);
  }

  /** The current thread, queued as a waiter, stays conserved without being current. */
  lemma QueuedConserved(s: Sys, m: Sys, r: Sys)
    requires Inv(s) && s.current != 0 && Moved(s, m) && IsLive(m.tcbs[s.current])
    requires r == m.(waiting := PushWaiting(m.waiting, s.current))
    ensures Conserved(r, false)
  {
    MovedConserved(s, m);
    InvHasShape(s);
    WaitingHasRoom(s);
    PushedWaiting(s.waiting, s.current);
    hide Layout, Locks, History, Where;
    forall t: nat ensures Places(r, false, t) == Places(m, true, t) {
      assert multiset(Waiting(r.waiting)) == multiset(Waiting(s.waiting)) + multiset{s.current};
    }
    SamePlacesConserved(m, true, r, false);
  }

  lemma QueuedLayout(s: Sys, m: Sys, r: Sys)
    requires Inv(s) && s.current != 0 && Moved(s, m) && PointFits(m.tcbs[s.current]) && WaiterFits(m.tcbs[s.current])
    requires r == m.(waiting := PushWaiting(m.waiting, s.current))
    ensures Layout(r)
  {
    hide Conserved, Locks, History, PointFits, WaiterFits, SleeperFits, SamePrograms;
    MovedLayout(s, m);
    WaitingHasRoom(s);
    PushedLayout(m, r);
  }

  lemma PushedLayout(m: Sys, r: Sys)
    requires Layout(m) && |Waiting(m.waiting)| + 1 < THREAD_MAX && WaiterFits(m.tcbs[m.current])
    requires r == m.(waiting := PushWaiting(m.waiting, m.current))
    ensures Layout(r)
  {
    PushedWaiting(m.waiting, m.current);
    hide PointFits, WaiterFits, SleeperFits, SamePrograms, Waiting;
  }

  lemma QueuedReadersWait(s: Sys, m: Sys, r: Sys)
    requires Inv(s) && s.current != 0 && Moved(s, m)
    requires r == m.(waiting := PushWaiting(m.waiting, s.current))
    requires m.tcbs[s.current].waitingFor == 4 ==> s.readCount == 0
    ensures Flat(r.waiting) ==> ReadersWait(r, s.readCount, 0)
  {
    hide Layout, Conserved, Locks, History, Where, PushWaiting, Waiting;
    CurrentIsNowhereElse(s);
    InvHasShape(s);
    WaitingHasRoom(s);
    PushedWaiting(s.waiting, s.current);
    WaitingInvolvesWaiters(s);
  }

  lemma QueueKeeps(s: Sys, m: Sys, r: Sys)
    requires Inv(s) && s.current != 0 && Moved(s, m) && PointFits(m.tcbs[s.current]) && WaiterFits(m.tcbs[s.current])
    requires r == m.(waiting := PushWaiting(m.waiting, s.current))
    requires m.readCount == s.readCount
    requires m.tcbs[s.current].waitingFor == 4 ==> s.readCount == 0
    requires Locks(r) && History(r) && Where(r.tcbs, IsEnroll) == Where(s.tcbs, IsEnroll)
    requires |Where(s.tcbs, IsEnroll)| <= SAFE_ENROLLS ==> Flat(r.waiting)
    ensures EntryInv(r, false)
  {
    QueuedConserved(s, m, r);
    QueuedLayout(s, m, r);
    QueuedReadersWait(s, m, r);
    hide Layout, Conserved, Locks, History, Where, PushWaiting, Waiting, ReadersWait, Flat;
  }

  lemma SleepLayout(s: Sys, seconds: int)
    requires Layout(s) && s.current != 0 && SleeperFits(s.tcbs[s.current])
    requires s.current !in Waiting(s.waiting)
    ensures Layout(Sleep(s, seconds)) && SameRoles(s.tcbs, Sleep(s, seconds).tcbs)
  {
    hide Waiting;
  }

  lemma SleepConserved(s: Sys, seconds: int)
    requires Shape(s) && Conserved(s, true) && s.current != 0 && s.current < THREAD_MAX && !IsAsleep(s, s.current)
    requires Where(Sleep(s, seconds).tcbs, IsLive) == Where(s.tcbs, IsLive)
    ensures Conserved(Sleep(s, seconds), false)
  {
    hide Where;
    var r := Sleep(s, seconds);
    forall t: nat ensures Places(r, false, t) == Places(s, true, t) {}
    SamePlacesConserved(s, true, r, false);
  }

  lemma WaitersSameFor(s: Sys, r: Sys)
    requires Layout(s) && SameRoles(s.tcbs, r.tcbs)
    ensures forall t :: t in Waiting(s.waiting) ==>
      t < |s.tcbs| && t < |r.tcbs| && r.tcbs[t].waitingFor == s.tcbs[t].waitingFor
  {
    WaitingInvolvesWaiters(s);
  }

  lemma SleepKeeps(s: Sys, seconds: int)
    requires Inv(s) && s.current != 0 && SleeperFits(s.tcbs[s.current])
    ensures EntryInv(Sleep(s, seconds), false)
  {
    hide Layout, Conserved, Locks, History, Where, Waiting;
    InvHasShape(s);
    CurrentIsNowhereElse(s);
    var r := Sleep(s, seconds);
    SleepLayout(s, seconds);
    SameRolesKeep(s, r);
    SleepConserved(s, seconds);
    WaitersSameFor(s, r);
  }

  lemma InvHasShape(s: Sys)
    requires Layout(s)
    ensures Shape(s) && s.timeSlice >= 1
    ensures s.current < |s.tcbs| && PointFits(s.tcbs[s.current])
    ensures s.tcbs[s.current].prog.Idle? <==> s.current == 0
    ensures s.current != 0 && s.tcbs[s.current].prog.Enroll? ==> s.tcbs[s.current].prog.b <= THREAD_MAX
    ensures s.waiting.head < THREAD_MAX && s.waiting.tail < THREAD_MAX && |s.waiting.arr| == THREAD_MAX
    ensures RollFits(RollOf(s.tcbs))
  {
    RollOfFits(s);
  }

  lemma AwakeLayout(s: Sys, b: nat)
    requires Layout(s) && b <= THREAD_MAX && !IsAsleep(s, s.current)
    ensures var r := Awake(s, b);
      && Layout(r) && SameRoles(s.tcbs, r.tcbs)
      && r == s.(tcbs := r.tcbs, ready := r.ready, sleeping := r.sleeping)
      && r.tcbs[s.current] == s.tcbs[s.current]
      && (if !IsAsleep(s, b) then r == s
          else r.ready == s.ready + [b] && r.sleeping == s.sleeping[b := None])
      && (forall t :: 0 <= t < |s.tcbs| && t != b ==> r.tcbs[t] == s.tcbs[t])
      && (b < |s.tcbs| ==> r.tcbs[b] == s.tcbs[b].(keepgo := r.tcbs[b].keepgo))
      && (SleepersHaveTime(s) ==> SleepersHaveTime(r))
  {
  }

  lemma AwakeConserved(s: Sys, r: Sys, b: nat)
    requires Conserved(s, true) && Where(r.tcbs, IsLive) == Where(s.tcbs, IsLive) && b < |s.sleeping|
    requires r == s.(tcbs := r.tcbs, ready := r.ready, sleeping := r.sleeping)
    requires IsAsleep(s, b) && r.ready == s.ready + [b] && r.sleeping == s.sleeping[b := None]
    ensures Conserved(r, true)
  {
    hide Where;
    forall t: nat ensures Places(r, true, t) == Places(s, true, t) {
      assert multiset(r.ready) == multiset(s.ready) + multiset{b};
    }
    SamePlacesConserved(s, true, r, true);
  }

  lemma AwakeKeeps(s: Sys, b: nat)
    requires Inv(s) && s.current != 0 && b <= THREAD_MAX
    ensures var r := Awake(s, b);
      && Inv(r) && SameRoles(s.tcbs, r.tcbs)
      && r == s.(tcbs := r.tcbs, ready := r.ready, sleeping := r.sleeping)
      && r.tcbs[s.current] == s.tcbs[s.current]
      && (if !IsAsleep(s, b) then r == s
          else r.ready == s.ready + [b] && r.sleeping == s.sleeping[b := None])
      && (forall t :: 0 <= t < |s.tcbs| && t != b ==> r.tcbs[t] == s.tcbs[t])
      && (b < |s.tcbs| ==> r.tcbs[b] == s.tcbs[b].(keepgo := r.tcbs[b].keepgo))
  {
    hide Layout, Conserved, Locks, History, Where, Waiting, Awake;
    CurrentIsNowhereElse(s);
    InvHasShape(s);
    AwakeLayout(s, b);
    var r := Awake(s, b);
    if IsAsleep(s, b) {
      SameRolesKeep(s, r);
      AwakeConserved(s, r, b);
      WaitersSameFor(s, r);
    }
  }

  // ---- how far the waiting queue can get ----

  /** At most 99 waits altogether, so the tail of the waiting queue never wraps. */
  lemma WaitsBounded(q: seq<Tcb>)
    requires |Where(q, IsEnroll)| <= SAFE_ENROLLS
    requires forall t: nat :: t < |q| && (q[t].waitedRead || q[t].waitedWrite) ==> q[t].prog.Enroll?
    requires RollOf(q).waitedRead * RollOf(q).waitedWrite != {} ==>
      |RollOf(q).readCounted| + |RollOf(q).writeCounted| >= 3
    ensures |RollOf(q).waitedRead| + |RollOf(q).waitedWrite| < THREAD_MAX
  {
    var e, wr, ww := Where(q, IsEnroll), Where(q, WaitedRead), Where(q, WaitedWrite);
    var cr, cw := Where(q, ReadCounted), Where(q, WriteCounted);
    assert wr <= e && ww <= e && cr <= e && cw <= e;
    assert wr * cr == {} && ww * cw == {};
    hide Where;
    assert |wr + cr| == |wr| + |cr| && |ww + cw| == |ww| + |cw|;
    SubsetSize(wr + cr, e);
    SubsetSize(ww + cw, e);
    if wr * ww == {} {
      SubsetSize(wr + ww, e);
      assert |wr + ww| == |wr| + |ww|;
    }
  }

  lemma {:induction false} SubsetSize(a: set<nat>, b: set<nat>)
    requires a <= b
    ensures |a| <= |b|
  {
    assert b == a + (b - a);
    assert |b| == |a| + |b - a|;
  }

  // ---- the lock counts and the history, case by case ----

  lemma ReadUnlockFits(flat: bool, a: Roll, readCount: int, writeCount: int, waiting: seq<nat>, tail: nat, t: nat)
    requires LocksFit(a, readCount, writeCount) && (flat ==> HistoryFits(a, writeCount, waiting, tail))
    ensures var b := a.(inRead := a.inRead - {t});
      var rc := if readCount > 0 then readCount - 1 else readCount;
      LocksFit(b, rc, writeCount) && (flat ==> HistoryFits(b, writeCount, waiting, tail))
  {
  }

  lemma CountReaderFits(flat: bool, a: Roll, readCount: int, waiting: seq<nat>, tail: nat, t: nat)
    requires LocksFit(a, readCount, 0) && (flat ==> HistoryFits(a, 0, waiting, tail)) && RollFits(a)
    requires t !in a.readCounted
    ensures var b := a.(inRead := a.inRead + {t}, readCounted := a.readCounted + {t});
      LocksFit(b, readCount + 1, 0) && (flat ==> HistoryFits(b, 0, waiting, tail))
  {
    var b := a.(inRead := a.inRead + {t}, readCounted := a.readCounted + {t});
    assert a.writeCounted * a.readCounted <= b.writeCounted * b.readCounted;
  }

  lemma QueueReaderFits(flat: bool, a: Roll, waiting: seq<nat>, tail: nat, t: nat)
    requires LocksFit(a, 0, 1) && (flat ==> HistoryFits(a, 1, waiting, tail)) && RollFits(a)
    requires t !in a.waitedRead && t !in a.waitedWrite
    ensures var b := a.(waitedRead := a.waitedRead + {t});
      LocksFit(b, 0, 1) && (flat ==> HistoryFits(b, 1, waiting + [t], tail + 1))
  {
    var b := a.(waitedRead := a.waitedRead + {t});
    if flat {
      assert a.writeCounted != {};
      assert b.waitedRead * b.waitedWrite == a.waitedRead * a.waitedWrite;
      assert |b.waitedRead| == |a.waitedRead| + 1;
      assert forall u :: u in waiting ==> u in waiting + [t];
    }
  }

  lemma CountWriterFits(flat: bool, a: Roll, waiting: seq<nat>, tail: nat, t: nat)
    requires LocksFit(a, 0, 0) && (flat ==> HistoryFits(a, 0, waiting, tail)) && RollFits(a)
    requires t !in a.writeCounted && (t in a.waitedRead || t in a.readCounted)
    ensures var b := a.(inWrite := a.inWrite + {t}, writeCounted := a.writeCounted + {t});
      LocksFit(b, 0, 1) && (flat ==> HistoryFits(b, 1, waiting, tail))
  {
    var b := a.(inWrite := a.inWrite + {t}, writeCounted := a.writeCounted + {t});
    assert t in b.inWrite && t in b.writeCounted;
    assert a.writeCounted * a.readCounted <= b.writeCounted * b.readCounted;
    if !flat {
    } else if a.writeCounted != {} || a.waitedRead != {} {
      assert b.writeCounted * b.readCounted != {};
      assert |b.writeCounted| >= 2;
    } else {
      assert t in b.writeCounted * b.readCounted;
    }
  }

  /** A thread that has to wait for both locks does so only when at least three acquisitions were counted. */
  lemma DoubleWaiterNeedsThreeCounts(a: Roll, readCount: int, writeCount: int, waiting: seq<nat>, tail: nat, t: nat)
    requires LocksFit(a, readCount, writeCount) && HistoryFits(a, writeCount, waiting, tail) && RollFits(a)
    requires writeCount != 0 || readCount != 0
    requires t in a.waitedRead && t !in waiting
    ensures |a.readCounted| + |a.writeCounted| >= 3
  {
    assert WritersPast(a);
    var x :| x in a.writeCounted * a.readCounted;
    SubsetSize({x}, a.readCounted);
    SubsetSize({x}, a.writeCounted);
    if |a.writeCounted| < 2 && a.waitedRead * a.waitedWrite == {} {
      var y: nat;
      if u :| u in a.waitedWrite {
        y := u;
      } else {
        assert a.writeCounted <= a.exited;
        assert a.inWrite == {} && writeCount == 0 && a.inRead != {};
        y :| y in a.inRead;
      }
      SubsetSize({x, y}, a.readCounted);
    }
  }

  lemma QueueWriterFits(flat: bool, a: Roll, readCount: int, writeCount: int, waiting: seq<nat>, tail: nat, t: nat)
    requires LocksFit(a, readCount, writeCount) && (flat ==> HistoryFits(a, writeCount, waiting, tail)) && RollFits(a)
    requires writeCount != 0 || readCount != 0
    requires t !in a.waitedWrite && t !in waiting
    ensures var b := a.(waitedWrite := a.waitedWrite + {t});
      LocksFit(b, readCount, writeCount) && (flat ==> HistoryFits(b, writeCount, waiting + [t], tail + 1))
  {
    var b := a.(waitedWrite := a.waitedWrite + {t});
    if !flat {
    } else if t in a.waitedRead {
      DoubleWaiterNeedsThreeCounts(a, readCount, writeCount, waiting, tail, t);
    } else {
      assert b.waitedRead * b.waitedWrite == a.waitedRead * a.waitedWrite;
    }
    assert t in b.waitedWrite;
    assert WritersPast(b);
  }

  lemma WriteUnlockFits(flat: bool, a: Roll, readCount: int, writeCount: int, waiting: seq<nat>, tail: nat, t: nat)
    requires LocksFit(a, readCount, writeCount) && (flat ==> HistoryFits(a, writeCount, waiting, tail)) && RollFits(a)
    requires t in a.writeCounted || t in a.waitedWrite
    ensures var b := a.(inWrite := a.inWrite - {t}, exited := a.exited + {t});
      LocksFit(b, readCount, 0) && (flat ==> HistoryFits(b, 0, waiting, tail))
  {
    var b := a.(inWrite := a.inWrite - {t}, exited := a.exited + {t});
    if |a.writeCounted| < 2 && a.waitedWrite == {} {
      forall x | x in a.writeCounted ensures x == t {
        if x != t { SubsetSize({x, t}, a.writeCounted); }
      }
    }
    assert WritersPast(b);
  }

  // ---- the stretches of code ----

  /** What a stretch of code leaves behind: a good state to go on from, or a good state to enter the scheduler with. */
  ghost predicate EndsWell(r: (Sys, Ending)) {
    match r.1
    case AtYield => Inv(r.0)
    case Enter(status) => status in {2, 3, 4, 5} && EntryInv(r.0, false)
  }

  /** A thread that is counted nowhere before or after the move. */
  ghost predicate Uncounted(b: Tcb, c: Tcb) {
    && c.waitedRead == b.waitedRead && c.waitedWrite == b.waitedWrite
    && (|| (!b.prog.Enroll? && !b.waitedRead && !b.waitedWrite)
        || (b.point == WokenRead && b.waitedRead && c.point == Reading)
        || (b.point == WokenWrite && b.waitedWrite && c.point == Writing))
  }

  lemma UncountedRole(q: seq<Tcb>, t: nat, c: Tcb)
    requires t < |q| && Uncounted(q[t], c) && c.prog == q[t].prog && q[t].point != Exited
    ensures var (a, b) := (RollOf(q), RollOf(q[t := c]));
      && b == a.(exited := b.exited) && a.exited <= b.exited
      && Where(q[t := c], IsEnroll) == Where(q, IsEnroll)
  {
    hide RollOf, Where;
    RollUpdate(q, t, c);
  }

  lemma UncountedRoll(s: Sys, r: Sys)
    requires Layout(s) && Locks(s) && History(s) && Moved(s, r) && s.tcbs[s.current].point != Exited
    requires r.readCount == s.readCount && r.writeCount == s.writeCount
    requires Uncounted(s.tcbs[s.current], r.tcbs[s.current])
    ensures Locks(r) && History(r)
  {
    hide RollOf, Layout, Where, Shape;
    InvHasShape(s);
    UncountedRole(s.tcbs, s.current, r.tcbs[s.current]);
  }

  lemma UncountedMove(s: Sys, r: Sys)
    requires Inv(s) && s.current != 0 && Moved(s, r) && PointFits(r.tcbs[s.current])
    requires r.readCount == s.readCount && r.writeCount == s.writeCount
    requires Uncounted(s.tcbs[s.current], r.tcbs[s.current])
    ensures if IsLive(r.tcbs[s.current]) then Inv(r) else EntryInv(r, false)
  {
    hide Conserved, Locks, History, Where, PointFits;
    UncountedRole(s.tcbs, s.current, r.tcbs[s.current]);
    UncountedRoll(s, r);
    MoveKeeps(s, r);
  }

  /** What a round of the loop does to the globals. */
  ghost predicate LoopRound(s: Sys, r: (Sys, Ending))
    requires Shape(s) && Shape(r.0) && |r.0.tcbs| == |s.tcbs|
  {
    var c := r.0.tcbs[s.current];
    && Moved(s, r.0) && PointFits(c) && Uncounted(s.tcbs[s.current], c)
    && r.0.readCount == s.readCount && r.0.writeCount == s.writeCount
    && r.1 == if IsLive(c) then AtYield else Enter(3)
  }

  lemma FibRoundMoves(s: Sys)
    requires Shape(s) && s.tcbs[s.current].prog.Fibonacci? && PointFits(s.tcbs[s.current])
    ensures LoopRound(s, FibSegment(s))
  {
    hide SamePrograms;
  }

  lemma PmRoundMoves(s: Sys)
    requires Shape(s) && s.tcbs[s.current].prog.Pm? && PointFits(s.tcbs[s.current])
    ensures LoopRound(s, PmSegment(s))
  {
    hide SamePrograms;
  }

  lemma LoopSegmentKeeps(s: Sys, r: (Sys, Ending))
    requires Inv(s) && s.current != 0 && Shape(r.0) && |r.0.tcbs| == |s.tcbs| && LoopRound(s, r)
    ensures EndsWell(r)
  {
    hide Layout, Conserved, Locks, History, Where;
    InvHasShape(s);
    UncountedMove(s, r.0);
  }

  lemma AfterReadLockKeeps(s: Sys)
    requires Inv(s) && s.current != 0 && s.tcbs[s.current].prog.Enroll? && s.tcbs[s.current].point == WokenRead
    ensures EndsWell(AfterReadLock(s))
  {
    assert PointFits(s.tcbs[s.current]);
    UncountedMove(s, AfterReadLock(s).0);
  }

  lemma AfterWriteLockKeeps(s: Sys)
    requires Inv(s) && s.current != 0 && s.tcbs[s.current].prog.Enroll? && s.tcbs[s.current].point == WokenWrite
    ensures EndsWell(AfterWriteLock(s))
  {
    assert PointFits(s.tcbs[s.current]);
    UncountedMove(s, AfterWriteLock(s).0);
  }

  lemma ReadingRole(q: seq<Tcb>, t: nat)
    requires t < |q| && PointFits(q[t]) && q[t].prog.Enroll? && q[t].point == Reading
    ensures var a := RollOf(q);
      && RollOf(q[t := q[t].(point := Choosing)]) == a.(inRead := a.inRead - {t})
      && Where(q[t := q[t].(point := Choosing)], IsEnroll) == Where(q, IsEnroll)
  {
    hide RollOf, Where;
    RollUpdate(q, t, q[t].(point := Choosing));
  }

  lemma ReadingRoll(s: Sys, r: Sys)
    requires Layout(s) && Locks(s) && History(s)
    requires s.tcbs[s.current].prog.Enroll? && s.tcbs[s.current].point == Reading
    requires r.tcbs == s.tcbs[s.current := s.tcbs[s.current].(point := Choosing)] && r.waiting == s.waiting
    requires r.readCount == ReadUnlock(s).readCount && r.writeCount == s.writeCount
    ensures Locks(r) && History(r) && Where(r.tcbs, IsEnroll) == Where(s.tcbs, IsEnroll)
  {
    hide RollOf, Layout, Where, Shape;
    InvHasShape(s);
    var t, a := s.current, RollOf(s.tcbs);
    ReadingRole(s.tcbs, t);
    ReadUnlockFits(Flat(s.waiting), a, s.readCount, s.writeCount, Waiting(s.waiting), s.waiting.tail, t);
  }

  lemma EnrollReadingKeeps(s: Sys)
    requires Inv(s) && s.current != 0 && s.tcbs[s.current].prog.Enroll? && s.tcbs[s.current].point == Reading
    ensures EndsWell(EnrollReading(s))
  {
    hide Layout, Conserved, Locks, History, Where;
    InvHasShape(s);
    ReadingRoll(s, EnrollReading(s).0);
    MoveKeeps(s, EnrollReading(s).0);
  }

  lemma CountWriterRole(q: seq<Tcb>, t: nat)
    requires t < |q| && PointFits(q[t]) && q[t].prog.Enroll? && q[t].point == Choosing
    ensures var a := RollOf(q);
      && RollOf(q[t := q[t].(point := Writing)])
           == a.(inWrite := a.inWrite + {t}, writeCounted := a.writeCounted + {t})
      && t !in a.writeCounted && (t in a.waitedRead || t in a.readCounted)
      && Where(q[t := q[t].(point := Writing)], IsEnroll) == Where(q, IsEnroll)
  {
    hide RollOf, Where;
    RollUpdate(q, t, q[t].(point := Writing));
  }

  lemma CountWriterRoll(s: Sys, r: Sys)
    requires Layout(s) && Locks(s) && History(s)
    requires s.tcbs[s.current].prog.Enroll? && s.tcbs[s.current].point == Choosing
    requires r.tcbs == s.tcbs[s.current := s.tcbs[s.current].(point := Writing)] && r.waiting == s.waiting
    requires s.writeCount == 0 && s.readCount == 0 == r.readCount && r.writeCount == 1
    ensures Locks(r) && History(r) && Where(r.tcbs, IsEnroll) == Where(s.tcbs, IsEnroll)
  {
    hide RollOf, Layout, Where, Shape;
    InvHasShape(s);
    var t, a := s.current, RollOf(s.tcbs);
    CountWriterRole(s.tcbs, t);
    CountWriterFits(Flat(s.waiting), a, Waiting(s.waiting), s.waiting.tail, t);
  }

  lemma QueueWriterRole(q: seq<Tcb>, t: nat)
    requires t < |q| && PointFits(q[t]) && q[t].prog.Enroll? && q[t].point == Choosing
    ensures var a := RollOf(q);
      && RollOf(q[t := q[t].(point := WokenWrite, waitingFor := 5, waitedWrite := true)])
           == a.(waitedWrite := a.waitedWrite + {t})
      && t !in a.waitedWrite
      && Where(q[t := q[t].(point := WokenWrite, waitingFor := 5, waitedWrite := true)], IsEnroll) == Where(q, IsEnroll)
  {
    hide RollOf, Where;
    RollUpdate(q, t, q[t].(point := WokenWrite, waitingFor := 5, waitedWrite := true));
  }

  lemma QueueWriterRoll(s: Sys, r: Sys)
    requires Layout(s) && Locks(s) && History(s)
    requires s.tcbs[s.current].prog.Enroll? && s.tcbs[s.current].point == Choosing
    requires var c := s.tcbs[s.current].(point := WokenWrite, waitingFor := 5, waitedWrite := true);
      r.tcbs == s.tcbs[s.current := c] && r.waiting == PushWaiting(s.waiting, s.current)
    requires r.readCount == s.readCount && r.writeCount == s.writeCount
    requires s.writeCount != 0 || s.readCount != 0
    requires s.current !in Waiting(s.waiting) && |Waiting(s.waiting)| + 1 < THREAD_MAX
    ensures |Where(s.tcbs, IsEnroll)| <= SAFE_ENROLLS && Flat(s.waiting) ==> Flat(r.waiting)
    ensures Locks(r) && History(r) && Where(r.tcbs, IsEnroll) == Where(s.tcbs, IsEnroll)
  {
    hide RollOf, Layout, Where, Shape, PushWaiting, Waiting;
    InvHasShape(s);
    var t, a := s.current, RollOf(s.tcbs);
    QueueWriterRole(s.tcbs, t);
    QueueWriterFits(Flat(s.waiting), a, s.readCount, s.writeCount, Waiting(s.waiting), s.waiting.tail, t);
    WaitersEnroll(s, r);
    if |Where(s.tcbs, IsEnroll)| <= SAFE_ENROLLS && Flat(s.waiting) { WaitsBounded(r.tcbs); }
    PushedWaiting(s.waiting, t);
  }

  lemma WaitersEnroll(s: Sys, r: Sys)
    requires Layout(s) && |r.tcbs| == |s.tcbs|
    requires forall t :: 0 <= t < |s.tcbs| ==>
      r.tcbs[t] == s.tcbs[t] || (t == s.current && r.tcbs[t].prog.Enroll?)
    ensures forall t: nat :: t < |r.tcbs| && (r.tcbs[t].waitedRead || r.tcbs[t].waitedWrite) ==> r.tcbs[t].prog.Enroll?
  {
    assert forall t: nat :: t < |s.tcbs| ==> PointFits(s.tcbs[t]);
  }

  lemma EnrollChoosingKeeps(s: Sys)
    requires Inv(s) && s.current != 0 && s.tcbs[s.current].prog.Enroll? && s.tcbs[s.current].point == Choosing
    ensures EndsWell(EnrollChoosing(s))
  {
    hide Layout, Conserved, Locks, History, Where, PushWaiting, Waiting;
    InvHasShape(s);
    CurrentIsNowhereElse(s);
    var r := EnrollChoosing(s).0;
    if s.writeCount != 0 || s.readCount != 0 {
      WaitingHasRoom(s);
      QueueWriterRoll(s, r);
      QueueKeeps(s, r.(waiting := s.waiting), r);
    } else {
      CountWriterRoll(s, r);
      MoveKeeps(s, r);
    }
  }

  lemma WritingRole(q: seq<Tcb>, t: nat)
    requires t < |q| && PointFits(q[t]) && q[t].prog.Enroll? && q[t].point == Writing
    ensures var a := RollOf(q);
      && RollOf(q[t := q[t].(point := Exited)]) == a.(inWrite := a.inWrite - {t}, exited := a.exited + {t})
      && (t in a.writeCounted || t in a.waitedWrite)
      && Where(q[t := q[t].(point := Exited)], IsEnroll) == Where(q, IsEnroll)
  {
    hide RollOf, Where;
    RollUpdate(q, t, q[t].(point := Exited));
  }

  lemma WritingRoll(s: Sys, r: Sys)
    requires Layout(s) && Locks(s) && History(s)
    requires s.tcbs[s.current].prog.Enroll? && s.tcbs[s.current].point == Writing
    requires r.tcbs == s.tcbs[s.current := s.tcbs[s.current].(point := Exited)] && r.waiting == s.waiting
    requires r.readCount == s.readCount && r.writeCount == WriteUnlock(s).writeCount
    ensures Locks(r) && History(r) && Where(r.tcbs, IsEnroll) == Where(s.tcbs, IsEnroll)
  {
    hide RollOf, Layout, Where, Shape;
    InvHasShape(s);
    var t, a := s.current, RollOf(s.tcbs);
    WritingRole(s.tcbs, t);
    WriteUnlockFits(Flat(s.waiting), a, s.readCount, s.writeCount, Waiting(s.waiting), s.waiting.tail, t);
  }

  lemma EnrollWritingKeeps(s: Sys)
    requires Inv(s) && s.current != 0 && s.tcbs[s.current].prog.Enroll? && s.tcbs[s.current].point == Writing
    ensures EndsWell(EnrollWriting(s))
  {
    hide Layout, Conserved, Locks, History, Where;
    InvHasShape(s);
    WritingRoll(s, EnrollWriting(s).0);
    MoveKeeps(s, EnrollWriting(s).0);
  }

  lemma CountReaderRole(q: seq<Tcb>, t: nat)
    requires t < |q| && PointFits(q[t]) && q[t].prog.Enroll? && q[t].point == Start
    ensures var a := RollOf(q);
      && RollOf(q[t := q[t].(point := Reading)]) == a.(inRead := a.inRead + {t}, readCounted := a.readCounted + {t})
      && t !in a.readCounted
      && Where(q[t := q[t].(point := Reading)], IsEnroll) == Where(q, IsEnroll)
  {
    hide RollOf, Where;
    RollUpdate(q, t, q[t].(point := Reading));
  }

  lemma CountReaderRoll(s: Sys, r: Sys)
    requires Layout(s) && Locks(s) && History(s)
    requires s.tcbs[s.current].prog.Enroll? && s.tcbs[s.current].point == Start && s.writeCount == 0
    requires r.tcbs == s.tcbs[s.current := s.tcbs[s.current].(point := Reading)] && r.waiting == s.waiting
    requires r.readCount == s.readCount + 1 && r.writeCount == s.writeCount
    ensures Locks(r) && History(r) && Where(r.tcbs, IsEnroll) == Where(s.tcbs, IsEnroll)
  {
    hide RollOf, Layout, Where, Shape;
    InvHasShape(s);
    var t, a := s.current, RollOf(s.tcbs);
    CountReaderRole(s.tcbs, t);
    CountReaderFits(Flat(s.waiting), a, s.readCount, Waiting(s.waiting), s.waiting.tail, t);
  }

  lemma QueueReaderRole(q: seq<Tcb>, t: nat)
    requires t < |q| && PointFits(q[t]) && q[t].prog.Enroll? && q[t].point == Start
    ensures var a := RollOf(q);
      && RollOf(q[t := q[t].(point := WokenRead, waitingFor := 4, waitedRead := true)])
           == a.(waitedRead := a.waitedRead + {t})
      && t !in a.waitedRead && t !in a.waitedWrite
      && Where(q[t := q[t].(point := WokenRead, waitingFor := 4, waitedRead := true)], IsEnroll) == Where(q, IsEnroll)
  {
    hide RollOf, Where;
    RollUpdate(q, t, q[t].(point := WokenRead, waitingFor := 4, waitedRead := true));
  }

  lemma QueueReaderRoll(s: Sys, r: Sys)
    requires Layout(s) && Locks(s) && History(s)
    requires s.tcbs[s.current].prog.Enroll? && s.tcbs[s.current].point == Start && s.writeCount != 0
    requires var c := s.tcbs[s.current].(point := WokenRead, waitingFor := 4, waitedRead := true);
      r.tcbs == s.tcbs[s.current := c] && r.waiting == PushWaiting(s.waiting, s.current)
    requires r.readCount == s.readCount && r.writeCount == s.writeCount
    requires |Waiting(s.waiting)| + 1 < THREAD_MAX
    ensures |Where(s.tcbs, IsEnroll)| <= SAFE_ENROLLS && Flat(s.waiting) ==> Flat(r.waiting)
    ensures s.readCount == 0
    ensures Locks(r) && History(r) && Where(r.tcbs, IsEnroll) == Where(s.tcbs, IsEnroll)
  {
    hide RollOf, Layout, Where, Shape, PushWaiting, Waiting;
    InvHasShape(s);
    var t, a := s.current, RollOf(s.tcbs);
    QueueReaderRole(s.tcbs, t);
    QueueReaderFits(Flat(s.waiting), a, Waiting(s.waiting), s.waiting.tail, t);
    var b := RollOf(r.tcbs);
    assert a.waitedRead * a.waitedWrite == b.waitedRead * b.waitedWrite;
    WaitersEnroll(s, r);
    if |Where(s.tcbs, IsEnroll)| <= SAFE_ENROLLS && Flat(s.waiting) { WaitsBounded(r.tcbs); }
    PushedWaiting(s.waiting, t);
  }

  /** enroll after thread_awake: the read lock is counted, or the thread is queued. */
  lemma LockToReadKeeps(s: Sys)
    requires Inv(s) && s.current != 0 && s.tcbs[s.current].prog.Enroll? && s.tcbs[s.current].point == Start
    ensures ReadLock(s).1 <==> s.writeCount != 0
    ensures s.writeCount == 0 ==> EndsWell(AfterReadLock(ReadLock(s).0))
    ensures s.writeCount != 0 ==> EntryInv(ReadLock(s).0, false)
  {
    hide Layout, Conserved, Locks, History, Where, PushWaiting, Waiting;
    InvHasShape(s);
    if s.writeCount == 0 {
      CountReaderRoll(s, AfterReadLock(ReadLock(s).0).0);
      MoveKeeps(s, AfterReadLock(ReadLock(s).0).0);
    } else {
      var r := ReadLock(s).0;
      WaitingHasRoom(s);
      QueueReaderRoll(s, r);
      QueueKeeps(s, r.(waiting := s.waiting), r);
    }
  }

  lemma EnrollStartKeeps(s: Sys)
    requires Inv(s) && s.current != 0 && s.tcbs[s.current].prog.Enroll? && s.tcbs[s.current].point == Start
    ensures EndsWell(EnrollStart(s))
  {
    hide Layout, Conserved, Locks, History, Where, PushWaiting, Waiting, Awake, ReadLock, AfterReadLock, Sleep;
    InvHasShape(s);
    var c := s.tcbs[s.current];
    if !c.keepgo {
      var s1 := Say(s, SleepLine(s.current, c.prog.s));
      SayKeeps(s, SleepLine(s.current, c.prog.s));
      SleepKeeps(s1, c.prog.s + s.timeSlice);
    } else {
      AwakeKeeps(s, c.prog.b);
      LockToReadKeeps(Awake(s, c.prog.b));
    }
  }

  lemma SayKeeps(s: Sys, e: Event)
    requires Inv(s)
    ensures Inv(Say(s, e))
  {
    hide Conserved, Locks, History, Where, WaiterFits, PointFits, SleeperFits, SamePrograms;
    var r := Say(s, e);
    SameRolesKeep(s, r);
    SaidConserved(s, r);
  }

  lemma SaidConserved(s: Sys, r: Sys)
    requires Conserved(s, true) && r == s.(out := r.out)
    ensures Conserved(r, true)
  {
    SamePlacesConserved(s, true, r, true);
  }

  /** The running thread, from any reachable state, runs into another good state. */
  lemma SegmentKeeps(s: Sys)
    requires Inv(s)
    ensures EndsWell(Segment(s))
  {
    var c := s.tcbs[s.current];
    assert PointFits(c) && (c.prog.Idle? <==> s.current == 0);
    hide EntryInv, FibSegment, PmSegment, EnrollStart, EnrollReading, EnrollChoosing, EnrollWriting;
    hide AfterReadLock, AfterWriteLock, LoopRound;
    match c.prog {
      case Idle => SayKeeps(s, IdleLine);
      case Fibonacci(_) =>
        FibRoundMoves(s);
        LoopSegmentKeeps(s, FibSegment(s));
      case Pm(_) =>
        PmRoundMoves(s);
        LoopSegmentKeeps(s, PmSegment(s));
      case Enroll(_, _, _, _) =>
        match c.point {
          case Start => EnrollStartKeeps(s);
          case WokenRead => AfterReadLockKeeps(s);
          case Reading => EnrollReadingKeeps(s);
          case Choosing => EnrollChoosingKeeps(s);
          case WokenWrite => AfterWriteLockKeeps(s);
          case Writing => EnrollWritingKeeps(s);
          case _ =>
        }
    }
  }

  // ---- runs ----

  ghost predicate Good(o: Outcome) {
    match o
    case Running(s) => Inv(s)
    case Finished(s) => Ended(s)
  }

  lemma StepKeeps(s: Sys, signalled: bool)
    requires Inv(s)
    ensures Good(Step(s, signalled))
  {
    SegmentKeeps(s);
    var (s1, ending) := Segment(s);
    hide Segment, Pass, EntryInv, Where;
    match ending {
      case AtYield =>
        assert EntryInv(s1, true);
        if signalled { PassKeeps(s1, 1); }
      case Enter(status) => PassKeeps(s1, status);
    }
  }

  // ---- the first state ----

  /** The ids of the enroll threads of a command line. */
  function Enrolls(cfg: Config): set<nat> {
    set t: nat | t <= |cfg.programs| && IsEnrollThread(cfg, t)
  }

  predicate IsEnrollThread(cfg: Config, t: nat) {
    1 <= t <= |cfg.programs| && cfg.programs[t - 1].Enroll?
  }

  lemma {:induction false} OneOfEach(n: nat, t: nat)
    ensures multiset(seq(n, k => k + 1))[t] == if 1 <= t <= n then 1 else 0
  {
    var q: seq<int> := seq(n, k => k + 1);
    if n == 0 {
    } else {
      OneOfEach(n - 1, t);
      var p: seq<int> := seq(n - 1, k => k + 1);
      assert q == p + [n];
    }
  }

  lemma BootRoll(cfg: Config)
    requires ValidConfig(cfg)
    ensures RollOf(Boot(cfg).tcbs) == Roll({}, {}, {}, {}, {}, {}, {})
    ensures Where(Boot(cfg).tcbs, IsEnroll) == Enrolls(cfg)
  {
    var q := Boot(cfg).tcbs;
    assert forall t: nat :: t < |q| ==> q[t].point == Start && !q[t].waitedRead && !q[t].waitedWrite;
    assert forall t: nat :: 1 <= t <= |cfg.programs| ==> q[t].prog == cfg.programs[t - 1];
  }

  lemma BootConserved(cfg: Config)
    requires ValidConfig(cfg)
    ensures Conserved(Boot(cfg), false)
  {
    var s := Boot(cfg);
    assert Waiting(s.waiting) == [];
    forall t: nat ensures Places(s, false, t) == if t in Where(s.tcbs, IsLive) then 1 else 0 {
      OneOfEach(|cfg.programs|, t);
      assert t in Where(s.tcbs, IsLive) <==> 1 <= t <= |cfg.programs|;
    }
  }

  lemma BootKeeps(cfg: Config)
    requires ValidConfig(cfg)
    ensures EntryInv(Boot(cfg), false)
  {
    BootRoll(cfg);
    BootConserved(cfg);
    assert Layout(Boot(cfg));
    assert Waiting(Boot(cfg).waiting) == [];
    hide Layout, Conserved, Where;
  }

  // ---- every run ----

  lemma {:induction false} RunKeeps(o: Outcome, signals: seq<bool>)
    requires Good(o) && Shape(o.sys)
    ensures Good(Run(o, signals))
    decreases |signals|
  {
    hide Step, Inv, Where;
    if o.Finished? || signals == [] {
    } else {
      StepKeeps(o.sys, signals[0]);
      RunKeeps(Step(o.sys, signals[0]), signals[1..]);
    }
  }

  /** Every state that a run reaches is good. */
  lemma EveryReachableStateIsGood(cfg: Config, signals: seq<bool>)
    requires ValidConfig(cfg)
    ensures Good(Execution(cfg, signals))
  {
    hide Inv, Pass, Where;
    BootKeeps(cfg);
    PassKeeps(Boot(cfg), 0);
    RunKeeps(Pass(Boot(cfg), 0), signals);
  }

  /** The state in which a pass that is entered with `s` starts its scan of the waiting queue. */
  function AtWaitScan(s: Sys): (r: Sys)
    requires Shape(s)
    ensures Shape(r)
  {
    SleepScan(s, 0)
  }

  /** The scan of the waiting queue of a pass entered with `s` wakes every waiting thread, in order, and its counted
      increments of the head take out exactly those; or it wakes nobody.  With it go the facts about the lock that make
      it so. */
  ghost predicate ScansAllOrNone(s: Sys)
    requires Shape(s)
  {
    var s1 := AtWaitScan(s);
    && 0 <= s1.writeCount <= 1 && 0 <= s1.readCount && (s1.writeCount == 1 ==> s1.readCount == 0)
    && (Flat(s1.waiting) ==> ReadersWait(s1, s1.readCount, 0))
    && WaitScan(s1, s1.waiting.head) ==
         if WakesAll(s1)
         then s1.(ready := s1.ready + Waiting(s1.waiting), waiting := s1.waiting.(head := s1.waiting.tail)) else s1
  }

  lemma EntryScans(s: Sys, held: bool)
    requires EntryInv(s, held)
    ensures ScansAllOrNone(s)
  {
    hide Where, Conserved, History, SleepScan, WaitScan, Layout;
    EntryHasShape(s, held);
    SleepScanKeeps(s, held, 0);
    WaitScanAllOrNone(SleepScan(s, 0), held);
  }

  /** In every run every scan of the waiting queue is all-or-none, and none once the queue has wrapped. */
  lemma EveryWaitScanIsAllOrNone(cfg: Config, signals: seq<bool>)
    requires ValidConfig(cfg)
    ensures ScansAllOrNone(Boot(cfg))
    ensures var o := Execution(cfg, signals); o.Running? ==> ScansAllOrNone(Segment(o.sys).0)
  {
    hide Execution, Segment, EntryInv, ScansAllOrNone, Enrolls, Boot;
    BootKeeps(cfg);
    EntryScans(Boot(cfg), false);
    EveryReachableStateIsGood(cfg, signals);
    var o := Execution(cfg, signals);
    if o.Running? {
      SegmentKeeps(o.sys);
      var (s1, ending) := Segment(o.sys);
      EntryScans(s1, ending == AtYield);
    }
  }

  ghost predicate AllExited(s: Sys) {
    forall t :: 0 < t < |s.tcbs| ==> s.tcbs[t].point == Exited
  }

  lemma BootPrograms(cfg: Config, r: Sys)
    requires ValidConfig(cfg) && SamePrograms(Boot(cfg), r)
    ensures |r.tcbs| == |cfg.programs| + 1 && r.tcbs[0].prog.Idle?
    ensures forall t :: 0 < t < |r.tcbs| ==> r.tcbs[t].prog == cfg.programs[t - 1]
  {
  }

  /** Once the waiting queue has wrapped it stays so: the scan no longer moves its head. */
  lemma WrappedForGood(s: Sys, signalled: bool)
    requires Inv(s) && !Flat(s.waiting)
    ensures !Flat(Step(s, signalled).sys.waiting)
  {
    hide Segment, Pass, EntryInv, Where, Inv, Flat;
    SegmentKeeps(s);
    SegmentStaysWrapped(s);
    var (s1, ending) := Segment(s);
    match ending {
      case AtYield => if signalled { PassStaysWrapped(s1, 1); }
      case Enter(status) => PassStaysWrapped(s1, status);
    }
  }

  lemma PassStaysWrapped(s: Sys, status: int)
    requires !Flat(s.waiting) && (EntryInv(s, status == 1) || (Inv(s) && status == 1))
    ensures Shape(s) && Pass(s, status).sys.waiting == s.waiting
  {
    hide SleepScan, WaitScan, Locks, History, Conserved, Where, SamePrograms;
    SleepScanKeeps(s, status == 1, 0);
    WaitScanAllOrNone(SleepScan(s, 0), status == 1);
  }

  lemma SegmentStaysWrapped(s: Sys)
    requires Inv(s) && !Flat(s.waiting)
    ensures Shape(s) && !Flat(Segment(s).0.waiting)
  {
    hide Layout, Conserved, Locks, History, Where, Waiting, PushWaiting, Flat;
    InvHasShape(s);
    SegmentWaiting(s);
    if s.current != 0 {
      WaitingHasRoom(s);
      PushedWaiting(s.waiting, s.current);
    }
  }

  /** A stretch of code puts at most the current thread, and never the idle thread, into the waiting queue. */
  lemma SegmentWaiting(s: Sys)
    requires Shape(s) && (s.tcbs[s.current].prog.Idle? <==> s.current == 0)
    ensures var w := Segment(s).0.waiting; w == s.waiting || (w == PushWaiting(s.waiting, s.current) && s.current != 0)
  {
    hide SamePrograms, PushWaiting, FibRound, PmRound;
  }

  lemma EnrollsStay(cfg: Config, r: Sys)
    requires ValidConfig(cfg) && SamePrograms(Boot(cfg), r)
    ensures Where(r.tcbs, IsEnroll) == Enrolls(cfg)
  {
    BootRoll(cfg);
    assert forall t: nat :: t < |r.tcbs| ==> r.tcbs[t].prog == Boot(cfg).tcbs[t].prog;
  }

  /** No deadlock, as long as the waiting queue has not wrapped: the scheduler leaves threads behind exactly when it has
      wrapped, and they are the threads in it. */
  lemma LeftBehindWhenWrapped(cfg: Config, signals: seq<bool>)
    requires ValidConfig(cfg) && Execution(cfg, signals).Finished?
    ensures var s := Execution(cfg, signals).sys;
      && |s.tcbs| == |cfg.programs| + 1
      && (AllExited(s) <==> Flat(s.waiting))
      && (forall t: nat :: 0 < t < |s.tcbs| ==> (s.tcbs[t].point != Exited <==> t in LeftBehind(s)))
  {
    hide Execution, Inv, Where, Boot, SamePrograms, Shape, Waiting;
    EveryReachableStateIsGood(cfg, signals);
    var s := Execution(cfg, signals).sys;
    BootPrograms(cfg, s);
    LiveAreLeft(s);
  }

  lemma LiveAreLeft(s: Sys)
    requires Ended(s) && s.tcbs[0].prog.Idle? && forall t :: 0 < t < |s.tcbs| ==> !s.tcbs[t].prog.Idle?
    ensures forall t: nat :: 0 < t < |s.tcbs| ==> (s.tcbs[t].point != Exited <==> t in LeftBehind(s))
    ensures AllExited(s) <==> Flat(s.waiting)
  {
    hide Waiting;
    forall t: nat | 0 < t < |s.tcbs| ensures s.tcbs[t].point != Exited <==> t in LeftBehind(s) {
      assert t in Where(s.tcbs, IsLive) <==> IsLive(s.tcbs[t]);
    }
    if !Flat(s.waiting) {
      WrappedIsNotEmpty(s.waiting);
      var t := Waiting(s.waiting)[0];
      assert t in LeftBehind(s) && t in Where(s.tcbs, IsLive);
      assert t > 0;
    }
  }

  /** No deadlock: with at most SAFE_ENROLLS enroll threads, when the scheduler returns every thread has exited. */
  lemma NoDeadlock(cfg: Config, signals: seq<bool>)
    requires ValidConfig(cfg) && |Enrolls(cfg)| <= SAFE_ENROLLS
    ensures var o := Execution(cfg, signals);
      o.Finished? ==> |o.sys.tcbs| == |cfg.programs| + 1 && AllExited(o.sys)
  {
    hide Execution, Inv, Where, Boot, SamePrograms, AllExited, Shape, Enrolls;
    EveryReachableStateIsGood(cfg, signals);
    EnrollsStay(cfg, Execution(cfg, signals).sys);
    if Execution(cfg, signals).Finished? { LeftBehindWhenWrapped(cfg, signals); }
  }

  /** Thread conservation: whenever a thread has been resumed, each thread that has not exited is in exactly one of
      current, ready, waiting and sleeping, once; no exited thread is anywhere; no ready thread is asleep. */
  lemma ThreadConservation(cfg: Config, signals: seq<bool>, t: nat)
    requires ValidConfig(cfg)
    requires Execution(cfg, signals).Running?
    ensures var s := Execution(cfg, signals).sys;
      && multiset(s.ready)[t] + multiset(Waiting(s.waiting))[t] + (if IsAsleep(s, t) then 1 else 0)
         + (if s.current == t && t != 0 then 1 else 0)
         == (if 0 < t < |s.tcbs| && s.tcbs[t].point != Exited then 1 else 0)
      && SkipSleepers(s.ready, s.sleeping) == s.ready
      && |s.ready| < THREAD_MAX
  {
    EveryReachableStateIsGood(cfg, signals);
    var s := Execution(cfg, signals).sys;
    hide Execution;
    assert Places(s, true, t) == if t in Where(s.tcbs, IsLive) then 1 else 0;
    ReadyAwakeWhileRunning(s);
    ReadyHasRoom(s);
  }

  lemma ReadyAwakeWhileRunning(s: Sys)
    requires Inv(s)
    ensures SkipSleepers(s.ready, s.sleeping) == s.ready
  {
    hide Locks, History, Where;
    if s.ready != [] {
      var t := s.ready[0];
      assert t in s.ready;
      assert Places(s, true, t) <= 1;
      assert !AsleepSomewhere(s.sleeping, t);
    }
  }

  function Occurs(q: seq<nat>, t: nat): nat {
    multiset(q)[t]
  }

  lemma FirstOccurs(q: seq<nat>)
    requires q != []
    ensures exists t: nat :: Occurs(q, t) > 0
  {
    assert Occurs(q, q[0]) > 0;
  }

  /** A duplicate-free queue over the ids 1..n has at most n entries. */
  lemma {:induction false} DistinctFits(q: seq<nat>, n: nat)
    requires forall t: nat :: Occurs(q, t) <= (if 1 <= t <= n then 1 else 0)
    ensures |q| <= n
  {
    if n == 0 {
      if q != [] { FirstOccurs(q); }
    } else if n in q {
      var k :| 0 <= k < |q| && q[k] == n;
      var p := q[..k] + q[k + 1..];
      assert q == q[..k] + [n] + q[k + 1..];
      assert multiset(q) == multiset(p) + multiset{n};
      forall t: nat ensures Occurs(p, t) <= (if 1 <= t <= n - 1 then 1 else 0) {
        assert Occurs(q, t) <= (if 1 <= t <= n then 1 else 0);
      }
      DistinctFits(p, n - 1);
    } else {
      forall t: nat ensures Occurs(q, t) <= (if 1 <= t <= n - 1 then 1 else 0) {
        assert Occurs(q, t) <= (if 1 <= t <= n then 1 else 0);
        if t == n { assert n !in multiset(q); }
      }
      DistinctFits(q, n - 1);
    }
  }

  lemma ReadyHasRoom(s: Sys)
    requires Inv(s)
    ensures |s.ready| < THREAD_MAX && (s.current != 0 ==> |s.ready| + 1 < THREAD_MAX)
  {
    hide Locks, History, Where;
    var q := if s.current != 0 then s.ready + [s.current] else s.ready;
    forall t: nat ensures Occurs(q, t) <= (if 1 <= t <= |s.tcbs| - 1 then 1 else 0) {
      assert Places(s, true, t) == if t in Where(s.tcbs, IsLive) then 1 else 0;
      if t in Where(s.tcbs, IsLive) { LiveInRange(s, t); }
    }
    DistinctFits(q, |s.tcbs| - 1);
  }

  lemma LiveInRange(s: Sys, t: nat)
    requires Layout(s) && t in Where(s.tcbs, IsLive)
    ensures 1 <= t <= |s.tcbs| - 1
  {
  }
}
