/** What can happen: for every job, the numbers of works that tpool_synchronize can leave unfinished, and whether it can
    wait for ever. */
module PoolRuns {
  import opened ThreadPool
  import opened PoolSplit
  import opened PoolInvariant
  import opened PoolProgress

  // ---- reaching a state ----

  /** Some run that fits the ring leads from s to t. */
  ghost predicate Reaches(s: State, t: State) {
    exists actions: seq<Action> :: CanRun(s, actions) && Fits(s, actions) && After(s, actions) == t
  }

  lemma ReachSelf(s: State)
    requires |s.pool.queue| <= MAX_QUEUE_SIZE
    ensures Reaches(s, s)
  {
    assert CanRun(s, []) && Fits(s, []) && After(s, []) == s;
  }

  lemma ReachOne(s: State, a: Action)
    requires ValidState(s) && Enabled(s, a)
    requires |s.pool.queue| <= MAX_QUEUE_SIZE && |Apply(s, a).pool.queue| <= MAX_QUEUE_SIZE
    ensures Reaches(s, Apply(s, a))
  {
    hide Apply, Enabled, ValidState;
    RunOne(s, a);
    assert [a][1..] == [];
    assert Fits(Apply(s, a), []);
    assert Fits(s, [a]);
  }

  lemma {:induction false} FitsAppend(s: State, a: seq<Action>, b: seq<Action>)
    requires CanRun(s, a) && CanRun(After(s, a), b) && Fits(s, a) && Fits(After(s, a), b)
    requires CanRun(s, a + b)
    ensures Fits(s, a + b)
    decreases |a|
  {
    hide Apply, Enabled, ValidState;
    if a == [] {
      assert a + b == b;
    } else {
      assert (a + b)[1..] == a[1..] + b;
      FitsAppend(Apply(s, a[0]), a[1..], b);
    }
  }

  lemma ReachTrans(s: State, t: State, u: State)
    requires Reaches(s, t) && Reaches(t, u)
    ensures Reaches(s, u)
  {
    hide CanRun, After, Fits;
    var a :| CanRun(s, a) && Fits(s, a) && After(s, a) == t;
    var b :| CanRun(t, b) && Fits(t, b) && After(t, b) == u;
    RunAppend(s, a, b);
    FitsAppend(s, a, b);
  }

  // ---- cells ----

  /** Cell x of result r. */
  function Value(s: State, r: nat, x: int): int {
    if r < |s.c| && s.n > 0 && 0 <= x / s.n < |s.c[r]| && x % s.n < |s.c[r][x / s.n]| then s.c[r][x / s.n][x % s.n]
    else 0
  }

  /** The index, counted over the whole job, of the work that cell x of request r belongs to. */
  ghost function WorkIndex(s: State, r: nat, x: int): int {
    if r < |s.reqs| && s.reqs[r].numWorks > 0 && 0 <= x < s.n * s.n then
      ExactSplit(s.n * s.n, s.reqs[r].numWorks, x);
      var i: nat :| Owns(s.n * s.n, s.reqs[r].numWorks, i, x);
      TotalUpTo(s.reqs, r) + i
    else -1
  }

  /** From s to t only cells of work w have been written. */
  ghost predicate OnlyWork(s: State, t: State, w: Work) {
    t.n == s.n && forall r: nat, x: int :: 0 <= x < s.n * s.n && !Covers(w, r, x) ==> Value(t, r, x) == Value(s, r, x)
  }

  /** From s to t only cells of the works from..to-1 have been written. */
  ghost predicate OnlyWorks(s: State, t: State, from: int, to: int) {
    && t.n == s.n && t.reqs == s.reqs
    && forall r: nat, x: int :: r < |s.reqs| && 0 <= x < s.n * s.n && !(from <= WorkIndex(s, r, x) < to)
         ==> Value(t, r, x) == Value(s, r, x)
  }

  lemma OnlyWorksChain(s: State, m: State, t: State, from: int, mid: int, to: int)
    requires OnlyWorks(s, m, from, mid) && OnlyWorks(m, t, mid, to) && from <= mid <= to
    ensures OnlyWorks(s, t, from, to)
  {
    hide Value;
    forall r: nat, x: int | r < |s.reqs| && 0 <= x < s.n * s.n ensures WorkIndex(m, r, x) == WorkIndex(s, r, x) {
      SameIndex(s, m, r, x);
    }
  }

  lemma SameIndex(s: State, t: State, r: nat, x: int)
    requires t.n == s.n && t.reqs == s.reqs
    ensures WorkIndex(t, r, x) == WorkIndex(s, r, x)
  {
    if r < |s.reqs| && s.reqs[r].numWorks > 0 { ExactSplit(s.n * s.n, s.reqs[r].numWorks, x); }
  }

  lemma IndexIs(s: State, r: nat, x: int, i: nat)
    requires r < |s.reqs| && s.reqs[r].numWorks > 0 && 0 <= x < s.n * s.n && Owns(s.n * s.n, s.reqs[r].numWorks, i, x)
    ensures WorkIndex(s, r, x) == TotalUpTo(s.reqs, r) + i
  {
    ExactSplit(s.n * s.n, s.reqs[r].numWorks, x);
  }

  /** The work that the frontend pushes next. */
  function NextWork(s: State): Work
    requires s.front.Pushing? && s.front.r < |s.reqs| && s.reqs[s.front.r].numWorks > 0
  {
    var f := s.front;
    Work(f.r, f.start, f.start + Share(s.n * s.n, s.reqs[f.r].numWorks, f.i))
  }

  lemma NextWorkIndex(s: State)
    requires PoolInv(s) && s.front.Pushing?
    ensures s.front.r < |s.reqs| && s.reqs[s.front.r].numWorks > 0 && ValidState(s)
    ensures forall r: nat, x: int :: 0 <= x < s.n * s.n && Covers(NextWork(s), r, x) ==> WorkIndex(s, r, x) == Pushed(s)
  {
    hide IsSquare, Conserved, Wakeups, CellsAccounted, WorkIndex;
    var f := s.front;
    assert f.start == SplitStart(s.n * s.n, s.reqs[f.r].numWorks, f.i);
    forall r: nat, x: int | 0 <= x < s.n * s.n && Covers(NextWork(s), r, x) ensures WorkIndex(s, r, x) == Pushed(s) {
      assert Owns(s.n * s.n, s.reqs[r].numWorks, f.i, x);
      IndexIs(s, r, x, f.i);
    }
  }

  /** What one work writes is what the work of that index writes. */
  lemma OneWork(s: State, t: State)
    requires PoolInv(s) && s.front.Pushing? && t.reqs == s.reqs
    requires s.front.r < |s.reqs| && s.reqs[s.front.r].numWorks > 0 && OnlyWork(s, t, NextWork(s))
    ensures ValidState(s) && OnlyWorks(s, t, Pushed(s), Pushed(s) + 1)
  {
    hide PoolInv, WorkIndex, Value, Pushed, NextWork, ValidState;
    NextWorkIndex(s);
  }

  lemma SetElsewhere(s: State, t: State, req: nat, row: nat, col: nat, v: int, r: nat, x: int)
    requires t.n == s.n && req < |s.c| && IsSquare(s.c[req], s.n) && row < s.n && col < s.n
    requires t.c == s.c[req := SetCell(s.c[req], row, col, v)]
    requires r != req || x / s.n != row || x % s.n != col
    ensures Value(t, r, x) == Value(s, r, x)
  {
  }

  lemma OtherCell(n: nat, i: int, x: int)
    requires n > 0 && x != i
    ensures x / n != i / n || x % n != i % n
  {
    assert i == (i / n) * n + i % n && x == (x / n) * n + x % n;
  }

  /** One turn of the loop of a worker writes one cell. */
  lemma CellElsewhere(s: State, k: nat, r: nat, x: int)
    requires ValidState(s) && k < |s.workers| && s.workers[k].Computing? && s.workers[k].i < s.workers[k].work.end
    requires r != s.workers[k].work.req || x != s.workers[k].i
    ensures Value(ComputeCell(s, k), r, x) == Value(s, r, x)
  {
    hide Calculation, Transpose, Value, SetCell;
    var (w, i, t) := (s.workers[k].work, s.workers[k].i, ComputeCell(s, k));
    assert ValidWorker(s.n, |s.reqs|, s.workers[k]);
    CellInRange(i, s.n);
    var v := Calculation(s.n, s.reqs[w.req].a[i / s.n], Transpose(s.reqs[w.req].b, s.n)[i % s.n]);
    assert t.c == s.c[w.req := SetCell(s.c[w.req], i / s.n, i % s.n, v)];
    if x != i { OtherCell(s.n, i, x); }
    SetElsewhere(s, t, w.req, i / s.n, i % s.n, v, r, x);
  }

  lemma CellWrites(s: State, k: nat)
    requires ValidState(s) && k < |s.workers| && s.workers[k].Computing? && s.workers[k].i < s.workers[k].work.end
    ensures OnlyWork(s, ComputeCell(s, k), s.workers[k].work)
  {
    hide Calculation, Transpose, Value, SetCell, IsSquare;
    var w := s.workers[k].work;
    assert ValidWorker(s.n, |s.reqs|, s.workers[k]);
    forall r: nat, x: int | 0 <= x < s.n * s.n && !Covers(w, r, x)
      ensures Value(ComputeCell(s, k), r, x) == Value(s, r, x)
    {
      CellElsewhere(s, k, r, x);
    }
  }

  // ---- states between two works ----

  function Works(s: State): int {
    TotalUpTo(s.reqs, |s.reqs|)
  }

  /** Nothing is queued; the first h workers hold a work each, and the others are about to look at the queue. */
  ghost predicate Lined(s: State, h: nat) {
    && PoolInv(s) && h <= |s.workers| && s.pool.queue == []
    && (s.front.Announce? || s.front.Pushing? || s.front == SyncTest)
    && (forall k :: 0 <= k < h ==> s.workers[k].Computing?)
    && (forall k :: h <= k < |s.workers| ==> s.workers[k] == AtLock)
  }

  /** The rest of the program is as it was. */
  ghost predicate SameJob(s: State, t: State) {
    t.n == s.n && t.reqs == s.reqs && |t.workers| == |s.workers|
  }

  lemma {:induction false} BusyPrefix(ws: seq<Worker>, h: nat)
    requires h <= |ws|
    requires forall k :: 0 <= k < |ws| ==> (ws[k].Computing? <==> k < h)
    ensures Busy(ws) == h
  {
    if ws == [] {
    } else {
      BusyPrefix(ws[..|ws| - 1], if h == |ws| then h - 1 else h);
    }
  }

  /** While works are to be pushed the frontend is at one. */
  lemma FrontHasMore(s: State)
    requires ValidState(s) && (s.front.Announce? || s.front.Pushing? || s.front == SyncTest)
    ensures s.front == SyncTest <==> Pushed(s) == Works(s)
    ensures Pushed(s) <= Works(s)
  {
    hide IsSquare;
    PushedAtMostTotal(s);
    match s.front {
      case Announce(r) =>
        assert TotalUpTo(s.reqs, r + 1) == TotalUpTo(s.reqs, r) + s.reqs[r].numWorks;
        TotalMonotone(s.reqs, r + 1, |s.reqs|);
      case Pushing(r, i, _) =>
        assert TotalUpTo(s.reqs, r + 1) == TotalUpTo(s.reqs, r) + s.reqs[r].numWorks;
        TotalMonotone(s.reqs, r + 1, |s.reqs|);
      case _ =>
    }
  }

  lemma AnnounceStep(s: State, h: nat)
    requires Lined(s, h) && s.front.Announce?
    ensures var t := Apply(s, FrontStep(NoOne));
      && Reaches(s, t) && Lined(t, h) && SameJob(s, t) && t.front.Pushing? && Pushed(t) == Pushed(s) && t.c == s.c
  {
    hide IsSquare, SplitStart, CutFits, Conserved, Wakeups, CellsAccounted;
    var a := FrontStep(NoOne);
    ApplyKeeps(s, a);
    ReachOne(s, a);
  }

  /** The frontend pushes a work while every worker is running. */
  lemma PushStep(s: State, h: nat)
    requires Lined(s, h) && s.front.Pushing?
    ensures var t := Apply(s, FrontStep(NoOne));
      && Reaches(s, t) && PoolInv(t) && SameJob(s, t) && t.workers == s.workers && |t.pool.queue| == 1
      && Pushed(t) == Pushed(s) + 1 && (t.front.Announce? || t.front.Pushing? || t.front == SyncTest)
      && t.c == s.c && s.front.r < |s.reqs| && s.reqs[s.front.r].numWorks > 0 && t.pool.queue == [NextWork(s)]
  {
    hide IsSquare, SplitStart, Share, CutFits, Conserved, Wakeups, CellsAccounted;
    var a := FrontStep(NoOne);
    ApplyKeeps(s, a);
    ReachOne(s, a);
    PushedNext(s);
  }

  /** Worker k takes the only work. */
  lemma TakeStep(s: State, k: nat)
    requires PoolInv(s) && k < |s.workers| && s.workers[k] == AtLock && |s.pool.queue| == 1
    ensures var t := Apply(s, WorkerStep(k, NoOne)); var w := s.pool.queue[0];
      && Reaches(s, t) && PoolInv(t)
      && t == s.(pool := s.pool.(queue := []), workers := s.workers[k := Computing(w, w.start)])
  {
    hide IsSquare, CutFits, Conserved, Wakeups, CellsAccounted;
    var a := WorkerStep(k, NoOne);
    ApplyKeeps(s, a);
    ReachOne(s, a);
  }

  /** The next work goes to worker h, which holds it. */
  lemma HoldOne(s: State, h: nat) returns (t: State)
    requires Lined(s, h) && s.front.Pushing? && h < |s.workers|
    ensures Reaches(s, t) && Lined(t, h + 1) && SameJob(s, t) && Pushed(t) == Pushed(s) + 1 && t.c == s.c
  {
    hide PoolInv, Apply, Reaches, Pushed;
    InvValid(s);
    PushStep(s, h);
    var m := Apply(s, FrontStep(NoOne));
    InvValid(m);
    TakeStep(m, h);
    t := Apply(m, WorkerStep(h, NoOne));
    SamePushed(m, t);
    ReachTrans(s, m, t);
  }

  lemma SamePushed(s: State, t: State)
    requires PoolInv(s) && PoolInv(t) && t.front == s.front && t.reqs == s.reqs
    ensures Pushed(t) == Pushed(s)
  {
    hide IsSquare, CutFits, Conserved, Wakeups, CellsAccounted;
  }

  /** A worker computes what is left of its work. */
  lemma {:induction false} ComputeAll(s: State, k: nat) returns (t: State)
    requires PoolInv(s) && k < |s.workers| && s.workers[k].Computing? && |s.pool.queue| <= MAX_QUEUE_SIZE
    ensures Reaches(s, t) && PoolInv(t)
    ensures t == s.(c := t.c, workers := s.workers[k := Computing(s.workers[k].work, s.workers[k].work.end)])
    ensures OnlyWork(s, t, s.workers[k].work)
    decreases s.workers[k].work.end - s.workers[k].i
  {
    hide PoolInv, Reaches, ValidState, IsSquare, Value;
    WorkerIndex(s, k);
    var w := s.workers[k];
    if w.i == w.work.end {
      ReachSelf(s);
      t := s;
      assert s.workers[k := Computing(w.work, w.work.end)] == s.workers;
    } else {
      InvValid(s);
      CellStep(s, k);
      var m := Apply(s, WorkerStep(k, NoOne));
      t := ComputeAll(m, k);
      ReachTrans(s, m, t);
    }
  }

  lemma WorkerIndex(s: State, k: nat)
    requires PoolInv(s) && k < |s.workers| && s.workers[k].Computing?
    ensures s.workers[k].i <= s.workers[k].work.end
  {
    hide IsSquare, CutFits, Conserved, Wakeups, CellsAccounted;
    assert ValidWorker(s.n, |s.reqs|, s.workers[k]);
  }

  lemma CellStep(s: State, k: nat)
    requires PoolInv(s) && k < |s.workers| && s.workers[k].Computing? && s.workers[k].i < s.workers[k].work.end
    requires |s.pool.queue| <= MAX_QUEUE_SIZE
    ensures var t := Apply(s, WorkerStep(k, NoOne));
      && Reaches(s, t) && PoolInv(t)
      && t == s.(c := t.c, workers := s.workers[k := Computing(s.workers[k].work, s.workers[k].i + 1)])
      && OnlyWork(s, t, s.workers[k].work)
  {
    hide IsSquare, CutFits, Conserved, Wakeups, CellsAccounted, Calculation, Transpose, SetCell, OnlyWork;
    CellWrites(s, k);
    var a := WorkerStep(k, NoOne);
    ApplyKeeps(s, a);
    ReachOne(s, a);
  }

  /** A worker that has computed its work completes it, and wakes w if it signals. */
  lemma FinishStep(s: State, k: nat, w: Waker)
    requires PoolInv(s) && k < |s.workers| && s.workers[k].Computing? && s.workers[k].i == s.workers[k].work.end
    requires Enabled(s, WorkerStep(k, w)) && |s.pool.queue| <= MAX_QUEUE_SIZE
    ensures var t := Apply(s, WorkerStep(k, w));
      && Reaches(s, t) && PoolInv(t)
      && t == Wake(s.(pool := Finish(s.pool).0, workers := s.workers[k := AtLock]), w)
  {
    hide IsSquare, CutFits, Conserved, Wakeups, CellsAccounted;
    var a := WorkerStep(k, w);
    ApplyKeeps(s, a);
    ReachOne(s, a);
  }

  /** The next work is pushed, and worker h takes, computes and completes it before anything else happens. */
  lemma FinishOne(s: State, h: nat) returns (t: State)
    requires Lined(s, h) && s.front.Pushing? && h < |s.workers|
    ensures Reaches(s, t) && Lined(t, h) && SameJob(s, t) && Pushed(t) == Pushed(s) + 1
    ensures OnlyWorks(s, t, Pushed(s), Pushed(s) + 1)
  {
    hide PoolInv, Apply, Reaches, Pushed, MayWake, ValidState, OnlyWorks, NextWork, Value;
    HasWorker(s);
    PushStep(s, h);
    var s1 := Apply(s, FrontStep(NoOne));
    InvValid(s1);
    TakeStep(s1, h);
    var s2 := Apply(s1, WorkerStep(h, NoOne));
    ReachTrans(s, s1, s2);
    var s3 := ComputeAll(s2, h);
    ReachTrans(s, s2, s3);
    AllAwake(s3);
    InvValid(s3);
    FinishStep(s3, h, NoOne);
    t := Apply(s3, WorkerStep(h, NoOne));
    ReachTrans(s, s3, t);
    SamePushed(s1, t);
    SameCells(s, s2, s3, t, NextWork(s));
    OneWork(s, t);
  }

  lemma SameCells(s: State, s2: State, s3: State, t: State, w: Work)
    requires s2.c == s.c && s2.n == s.n && OnlyWork(s2, s3, w) && t.c == s3.c && t.n == s3.n
    ensures OnlyWork(s, t, w)
  {
  }

  lemma HasWorker(s: State)
    requires PoolInv(s)
    ensures |s.workers| >= 1 && ValidState(s)
  {
  }

  lemma AllAwake(s: State)
    requires s.front != SyncBlocked && forall k :: 0 <= k < |s.workers| ==> s.workers[k] != Blocked
    ensures MayWake(s, NoOne)
  {
  }

  /** All works up to number `upTo` are done one by one by worker h. */
  lemma {:induction false} FinishMany(s: State, h: nat, upTo: int) returns (t: State)
    requires Lined(s, h) && Pushed(s) <= upTo <= Works(s) && h < |s.workers|
    ensures Reaches(s, t) && Lined(t, h) && SameJob(s, t) && Pushed(t) == upTo && !t.front.Announce?
    ensures OnlyWorks(s, t, Pushed(s), upTo)
    decreases upTo - Pushed(s), if s.front.Announce? then 1 else 0
  {
    hide PoolInv, Reaches, Pushed, Apply, ValidState, TotalUpTo, OnlyWorks;
    HasWorker(s);
    FrontHasMore(s);
    if s.front.Announce? {
      AnnounceStep(s, h);
      var m := Apply(s, FrontStep(NoOne));
      t := FinishMany(m, h, upTo);
      ReachTrans(s, m, t);
      NothingWritten(s, m, Pushed(s));
      OnlyWorksChain(s, m, t, Pushed(s), Pushed(s), upTo);
    } else if Pushed(s) == upTo {
      ReachSelf(s);
      t := s;
      NothingWritten(s, s, upTo);
    } else {
      var m := FinishOne(s, h);
      t := FinishMany(m, h, upTo);
      ReachTrans(s, m, t);
      OnlyWorksChain(s, m, t, Pushed(s), Pushed(s) + 1, upTo);
    }
  }

  lemma NothingWritten(s: State, t: State, from: int)
    requires t.c == s.c && t.n == s.n && t.reqs == s.reqs
    ensures OnlyWorks(s, t, from, from)
  {
    hide WorkIndex;
  }

  /** The last works are each held by a worker of their own. */
  lemma {:induction false} HoldMany(s: State, h: nat, u: nat) returns (t: State)
    requires Lined(s, h) && h <= u <= |s.workers| && Works(s) - Pushed(s) == u - h
    ensures Reaches(s, t) && Lined(t, u) && SameJob(s, t) && t.front == SyncTest
    decreases u - h, if s.front.Announce? then 1 else 0
  {
    hide PoolInv, Reaches, Pushed, Apply, ValidState, TotalUpTo;
    HasWorker(s);
    FrontHasMore(s);
    if s.front.Announce? {
      AnnounceStep(s, h);
      var m := Apply(s, FrontStep(NoOne));
      t := HoldMany(m, h, u);
      ReachTrans(s, m, t);
    } else if h == u {
      ReachSelf(s);
      t := s;
    } else {
      var m := HoldOne(s, h);
      t := HoldMany(m, h + 1, u);
      ReachTrans(s, m, t);
    }
  }

  lemma StartLined(j: Job)
    requires ValidJob(j)
    ensures Lined(Start(j), 0) && Pushed(Start(j)) == 0 && Works(Start(j)) == TotalUpTo(j.reqs, |j.reqs|)
    ensures Start(j).reqs == j.reqs && |Start(j).workers| == j.k
  {
    hide PoolInv;
    StartKeeps(j);
  }

  // ---- how many works can be unfinished when tpool_synchronize returns ----

  /** In some run of the job that fits the ring tpool_synchronize returns with u works not completed. */
  ghost predicate CanLeave(j: Job, u: int)
    requires ValidJob(j)
  {
    exists actions: seq<Action> ::
      CanRun(Start(j), actions) && Fits(Start(j), actions) && LeavesUnfinished(After(Start(j), actions), u)
  }

  ghost predicate LeavesUnfinished(t: State, u: int) {
    t.front == Synchronized && t.pool.totalWorks - t.pool.completed == u
  }

  lemma SyncStep(s: State, u: nat)
    requires Lined(s, u) && s.front == SyncTest
    ensures var t := Apply(s, FrontStep(NoOne)); Reaches(s, t) && LeavesUnfinished(t, u)
  {
    hide IsSquare, CutFits, Wakeups, CellsAccounted;
    var a := FrontStep(NoOne);
    ReachOne(s, a);
    BusyPrefix(s.workers, u);
  }

  lemma SomeRunLeaves(j: Job, u: nat)
    requires ValidJob(j) && u <= j.k && u <= TotalUpTo(j.reqs, |j.reqs|)
    ensures CanLeave(j, u)
  {
    hide Lined, Reaches, Apply, Start, LeavesUnfinished;
    StartLined(j);
    var s := Start(j);
    LinedValid(s, 0);
    var s1 := FinishMany(s, 0, Works(s) - u);
    LinedValid(s1, 0);
    var s2 := HoldMany(s1, 0, u);
    LinedValid(s2, u);
    SyncStep(s2, u);
    var t := Apply(s2, FrontStep(NoOne));
    ReachTrans(s, s1, s2);
    ReachTrans(s, s2, t);
    ReachedIsLeft(j, t, u);
  }

  lemma LinedValid(s: State, h: nat)
    requires Lined(s, h)
    ensures PoolInv(s) && ValidState(s) && h <= |s.workers| && Pushed(s) <= Works(s)
  {
    hide PoolInv;
    InvValid(s);
    PushedAtMostTotal(s);
  }

  lemma ReachedIsLeft(j: Job, t: State, u: int)
    requires ValidJob(j) && Reaches(Start(j), t) && LeavesUnfinished(t, u)
    ensures CanLeave(j, u)
  {
    hide CanRun, After, LeavesUnfinished, Start, Fits;
    var a :| CanRun(Start(j), a) && Fits(Start(j), a) && After(Start(j), a) == t;
  }

  /** When tpool_synchronize has returned, any number of works from none up to one for each worker, and up to all of
      them, can be unfinished, and no other number. */
  lemma UnfinishedExactly(j: Job, u: int)
    requires ValidJob(j)
    ensures CanLeave(j, u) <==> 0 <= u <= j.k && u <= TotalUpTo(j.reqs, |j.reqs|)
  {
    hide CanRun, After, Start, PoolInv, Fits;
    forall actions: seq<Action>
      | CanRun(Start(j), actions) && Fits(Start(j), actions) && LeavesUnfinished(After(Start(j), actions), u)
      ensures 0 <= u <= j.k && u <= TotalUpTo(j.reqs, |j.reqs|)
    {
      SynchronizeLeavesAtMostOnePerWorker(j, actions);
      ReachableInv(j, actions);
      CompletedIsNatural(After(Start(j), actions));
    }
    if 0 <= u <= j.k && u <= TotalUpTo(j.reqs, |j.reqs|) { SomeRunLeaves(j, u); }
  }

  lemma CompletedIsNatural(t: State)
    requires PoolInv(t)
    ensures t.pool.completed >= 0
  {
    hide IsSquare, CutFits, Wakeups, CellsAccounted;
  }

  // ---- which jobs can hang in tpool_synchronize ----

  /** The frontend is blocked in tpool_synchronize, worker 0 has computed the last work and will complete it, workers
      1..i-1 are blocked, and the others are about to look at the queue. */
  ghost predicate Gathering(s: State, i: nat) {
    && PoolInv(s) && 1 <= i <= |s.workers|
    && s.front == SyncBlocked && s.pool.queue == [] && !s.pool.terminate
    && s.pool.completed + 1 == s.pool.totalWorks
    && s.workers[0].Computing? && s.workers[0].i == s.workers[0].work.end
    && (forall h :: 1 <= h < i ==> s.workers[h] == Blocked)
    && (forall h :: i <= h < |s.workers| ==> s.workers[h] == AtLock)
  }

  /** With the last work queued, the frontend blocks. */
  lemma BlockStep(s: State)
    requires PoolInv(s) && s.front == SyncTest && |s.pool.queue| == 1
    requires forall k :: 0 <= k < |s.workers| ==> s.workers[k] == AtLock
    ensures var t := Apply(s, FrontStep(NoOne));
      && Reaches(s, t) && PoolInv(t) && t == s.(front := SyncBlocked)
      && s.pool.completed + 1 == s.pool.totalWorks && !s.pool.terminate
  {
    hide IsSquare, CutFits, CellsAccounted;
    var a := FrontStep(NoOne);
    ApplyKeeps(s, a);
    ReachOne(s, a);
    BusyPrefix(s.workers, 0);
  }

  /** A worker that finds nothing blocks. */
  lemma IdleStep(s: State, k: nat)
    requires PoolInv(s) && k < |s.workers| && s.workers[k] == AtLock && s.pool.queue == [] && !s.pool.terminate
    ensures var t := Apply(s, WorkerStep(k, NoOne));
      Reaches(s, t) && PoolInv(t) && t == s.(workers := s.workers[k := Blocked])
  {
    hide IsSquare, CutFits, Conserved, Wakeups, CellsAccounted;
    var a := WorkerStep(k, NoOne);
    ApplyKeeps(s, a);
    ReachOne(s, a);
  }

  lemma {:induction false} Gather(s: State, i: nat) returns (t: State)
    requires Gathering(s, i)
    ensures Reaches(s, t) && Gathering(t, |s.workers|) && |t.workers| == |s.workers|
    decreases |s.workers| - i
  {
    hide PoolInv, Reaches, Apply;
    if i == |s.workers| {
      ReachSelf(s);
      t := s;
    } else {
      InvValid(s);
      IdleStep(s, i);
      var m := Apply(s, WorkerStep(i, NoOne));
      t := Gather(m, i + 1);
      ReachTrans(s, m, t);
    }
  }

  /** The last signal goes to worker 1, which finds nothing; the frontend is never woken. */
  lemma SignalMissesFrontend(s: State) returns (t: State)
    requires Gathering(s, |s.workers|) && |s.workers| >= 2
    ensures Reaches(s, t) && Hangs(t)
  {
    hide PoolInv, Reaches, Apply, ValidState;
    InvValid(s);
    FinishStep(s, 0, ToWorker(1));
    var s1 := Apply(s, WorkerStep(0, ToWorker(1)));
    InvValid(s1);
    IdleStep(s1, 1);
    var s2 := Apply(s1, WorkerStep(1, NoOne));
    ReachTrans(s, s1, s2);
    InvValid(s2);
    IdleStep(s2, 0);
    t := Apply(s2, WorkerStep(0, NoOne));
    ReachTrans(s, s2, t);
  }

  /** The frontend blocks on the last work, which worker 0 takes and computes. */
  lemma LastWork(s: State) returns (t: State)
    requires Lined(s, 0) && s.front.Pushing? && Pushed(s) + 1 == Works(s)
    ensures Reaches(s, t) && Gathering(t, 1) && |t.workers| == |s.workers|
  {
    hide PoolInv, Reaches, Apply, Pushed, TotalUpTo, ValidState;
    HasWorker(s);
    PushStep(s, 0);
    var s1 := Apply(s, FrontStep(NoOne));
    InvValid(s1);
    FrontHasMore(s1);
    BlockStep(s1);
    var s2 := Apply(s1, FrontStep(NoOne));
    ReachTrans(s, s1, s2);
    InvValid(s2);
    TakeStep(s2, 0);
    var s3 := Apply(s2, WorkerStep(0, NoOne));
    ReachTrans(s, s2, s3);
    t := ComputeAll(s3, 0);
    ReachTrans(s, s3, t);
  }

  lemma SomeRunHangs(j: Job)
    requires ValidJob(j) && j.k >= 2 && j.reqs != []
    ensures CanHang(j)
  {
    hide Lined, Reaches, Start, Gathering, Hangs, CanRun, After, Fits;
    StartLined(j);
    var s := Start(j);
    LinedValid(s, 0);
    WorksPositive(j);
    var s1 := FinishMany(s, 0, Works(s) - 1);
    LinedValid(s1, 0);
    LinedPushing(s1);
    var s2 := LastWork(s1);
    var s3 := Gather(s2, 1);
    var t := SignalMissesFrontend(s3);
    ReachTrans(s, s1, s2);
    ReachTrans(s, s2, s3);
    ReachTrans(s, s3, t);
    ReachedBy(s, t);
  }

  lemma WorksPositive(j: Job)
    requires ValidJob(j) && j.reqs != []
    ensures TotalUpTo(j.reqs, |j.reqs|) >= 1
  {
    TotalMonotone(j.reqs, 0, |j.reqs| - 1);
  }

  lemma LinedPushing(s: State)
    requires Lined(s, 0) && ValidState(s) && !s.front.Announce? && Pushed(s) + 1 == Works(s)
    ensures s.front.Pushing?
  {
    hide PoolInv;
    FrontHasMore(s);
  }

  lemma ReachedBy(s: State, t: State)
    requires Reaches(s, t)
    ensures exists actions: seq<Action> :: CanRun(s, actions) && Fits(s, actions) && After(s, actions) == t
  {
  }

  /** Some run of the job that fits the ring hangs in tpool_synchronize. */
  ghost predicate CanHang(j: Job)
    requires ValidJob(j)
  {
    exists actions: seq<Action> ::
      CanRun(Start(j), actions) && Fits(Start(j), actions) && Hangs(After(Start(j), actions))
  }

  /** Without a request the queue is always empty, and tpool_synchronize does not block. */
  lemma {:induction false} NothingToWaitFor(s: State, actions: seq<Action>)
    requires PoolInv(s) && CanRun(s, actions) && s.reqs == [] && s.front != SyncBlocked
    ensures After(s, actions).front != SyncBlocked
    decreases |actions|
  {
    hide PoolInv, Apply, Enabled;
    if actions == [] {
    } else {
      ApplyKeeps(s, actions[0]);
      NothingStep(s, actions[0]);
      NothingToWaitFor(Apply(s, actions[0]), actions[1..]);
    }
  }

  lemma NothingStep(s: State, a: Action)
    requires PoolInv(s) && Enabled(s, a) && s.reqs == [] && s.front != SyncBlocked
    ensures ValidState(s) && Apply(s, a).reqs == [] && Apply(s, a).front != SyncBlocked
  {
    hide IsSquare, CutFits, Conserved, Wakeups, CellsAccounted;
    QueueAtMostTotal(s);
    assert s.pool.queue == [];
  }

  /** A job can hang in tpool_synchronize exactly when it has at least two workers and anything to do. */
  lemma HangsExactlyWithTwoWorkers(j: Job)
    requires ValidJob(j)
    ensures CanHang(j) <==> j.k >= 2 && j.reqs != []
  {
    hide CanRun, After, Apply, Enabled, PoolInv, Fits;
    forall actions: seq<Action>
      | CanRun(Start(j), actions) && Fits(Start(j), actions) && Hangs(After(Start(j), actions))
      ensures j.k >= 2 && j.reqs != []
    {
      if j.k == 1 { OneWorkerNeverHangs(j, actions); }
      StartKeeps(j);
      if j.reqs == [] { NothingToWaitFor(Start(j), actions); }
    }
    if j.k >= 2 && j.reqs != [] { SomeRunHangs(j); }
  }
}
