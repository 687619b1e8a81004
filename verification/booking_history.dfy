/** Runs of the booking server: who owns a seat, what can happen to a seat's cell, and where every '1' and '2' comes
    from. */
module BookingHistory {
  import opened Booking
  import opened BookingInvariant

  // ---- runs ----

  ghost predicate CanRun(s: Server, es: seq<Event>)
    decreases |es|
  {
    es == [] || (Shaped(s) && Possible(s, es[0]) && CanRun(Next(s, es[0]).0, es[1..]))
  }

  ghost function After(s: Server, es: seq<Event>): Server
    requires CanRun(s, es)
    decreases |es|
  {
    if es == [] then s else After(Next(s, es[0]).0, es[1..])
  }

  /** What is sent for each event. */
  ghost function Answers(s: Server, es: seq<Event>): seq<seq<Msg>>
    requires CanRun(s, es)
    decreases |es|
  {
    if es == [] then [] else [Next(s, es[0]).1] + Answers(Next(s, es[0]).0, es[1..])
  }

  /** The server once it listens: nobody connected, and train files of the right form with any seats taken. */
  ghost predicate Start(s: Server) {
    && |s.files| == TRAIN_NUM
    && (forall t :: 0 <= t < TRAIN_NUM ==> FileOk(s.files[t]))
    && forall i :: 0 <= i < |s.clients| ==> s.clients[i] == ClosedClient()
  }

  lemma StartIsGood(s: Server)
    requires Start(s)
    ensures BookInv(s)
  {
    FreshIsOk();
  }

  // ---- one event ----

  /** A line of input is handled on one client and on one file, that of the client's train once it has one. */
  lemma InputEffect(s: Server, i: nat, text: string, train: nat)
    requires BookInv(s) && Possible(s, Input(i, text, train))
    ensures Shaped(s)
    ensures var c := s.clients[i]; var t := FileOf(c, train);
      && 0 <= t < TRAIN_NUM && (OnBoard(c) ==> c.rec.train == t)
      && EffectOk(c, s.files[t], Handle(c, text, train, s.files[t]), t)
      && Next(s, Input(i, text, train)).0 == Put(s, i, t, Handle(c, text, train, s.files[t]))
  {
    hide Handle, Exclusive;
    InvShaped(s);
    HandleOk(s.clients[i], text, train, s.files[FileOf(s.clients[i], train)]);
  }

  /** A client replaced by one that holds nothing. */
  lemma ReplaceKeeps(s: Server, i: nat, c: Client)
    requires BookInv(s) && i < |s.clients| && ClientOk(c) && !OnBoard(c)
    ensures BookInv(s.(clients := s.clients[i := c]))
  {
    hide FileOk, HoldsIn, ClientOk;
  }

  lemma NextKeeps(s: Server, e: Event)
    requires BookInv(s) && Possible(s, e)
    ensures Shaped(s) && BookInv(Next(s, e).0)
  {
    hide BookInv, Handle;
    InvShaped(s);
    FreshIsOk();
    match e {
      case Connect(i) =>
        ClosedOf(s, i);
        ReplaceKeeps(s, i, ClosedClient().(connected := true, status := Shift));
      case Disconnect(i) => ReplaceKeeps(s, i, ClosedClient());
      case Input(i, text, train) =>
        InputEffect(s, i, text, train);
        var t := FileOf(s.clients[i], train);
        PutKeeps(s, i, t, Handle(s.clients[i], text, train, s.files[t]));
    }
  }

  lemma ClosedOf(s: Server, i: nat)
    requires BookInv(s) && i < |s.clients| && !s.clients[i].connected
    ensures s.clients[i] == ClosedClient()
  {
  }

  lemma {:induction false} RunKeeps(s: Server, es: seq<Event>)
    requires BookInv(s) && CanRun(s, es)
    ensures BookInv(After(s, es))
    decreases |es|
  {
    hide BookInv;
    if es == [] {
    } else {
      NextKeeps(s, es[0]);
      RunKeeps(Next(s, es[0]).0, es[1..]);
    }
  }

  /** Seat ownership over all runs: a seat chosen by a live client is '2' in the file of its train and one it paid is
      '1', nobody else on that train holds it, the number of chosen seats is right, and every file keeps its form. */
  lemma SeatOwnership(s: Server, es: seq<Event>)
    requires Start(s) && CanRun(s, es)
    ensures var r := After(s, es);
      && |r.files| == TRAIN_NUM && (forall t :: 0 <= t < TRAIN_NUM ==> FileOk(r.files[t]))
      && (forall i :: 0 <= i < |r.clients| ==>
            && |r.clients[i].rec.seats| == SEAT_NUM
            && r.clients[i].rec.chosenCount == CountStat(r.clients[i].rec.seats, Chosen, SEAT_NUM))
      && (forall i, k :: 0 <= i < |r.clients| && 0 <= k < SEAT_NUM && r.clients[i].rec.seats[k] != Unknown ==>
            && OnBoard(r.clients[i]) && 0 <= r.clients[i].rec.train < TRAIN_NUM
            && Cell(r.files[r.clients[i].rec.train], k) == if r.clients[i].rec.seats[k] == Chosen then '2' else '1')
      && (forall i, j, k :: 0 <= i < j < |r.clients| && 0 <= k < SEAT_NUM
            && r.clients[i].rec.train == r.clients[j].rec.train
            ==> r.clients[i].rec.seats[k] == Unknown || r.clients[j].rec.seats[k] == Unknown)
  {
    hide CanRun, After;
    StartIsGood(s);
    RunKeeps(s, es);
    var r := After(s, es);
    forall i: nat | i < |r.clients| && !OnBoard(r.clients[i])
      ensures forall k :: 0 <= k < SEAT_NUM ==> r.clients[i].rec.seats[k] == Unknown
    {
      FreshHoldsNothing(r.clients[i]);
    }
  }

  // ---- what can happen to one cell ----

  predicate CellStep(was: char, now: char) {
    now == was || (was == '0' && now == '2') || (was == '2' && now == '0') || (was == '2' && now == '1')
  }

  /** Client i has seat index k of train t with this status. */
  predicate Has(s: Server, i: nat, t: nat, k: nat, which: SeatStat)
    requires i < |s.clients|
  {
    var c := s.clients[i];
    OnBoard(c) && c.rec.train == t && k < |c.rec.seats| && c.rec.seats[k] == which
  }

  /** The client whose event this is. */
  function Actor(e: Event): nat { e.i }

  /** Every event moves a cell only along '0' -> '2', '2' -> '0' and '2' -> '1'; the client that acts had the seat
      chosen before a '2' goes away, and has it chosen after a '2' comes. */
  lemma CellHistory(s: Server, e: Event, t: nat, k: nat)
    requires BookInv(s) && Possible(s, e) && t < TRAIN_NUM && k < SEAT_NUM
    ensures Shaped(s) && |Next(s, e).0.files| == TRAIN_NUM && |Next(s, e).0.files[t].bytes| == FILE_SIZE
    ensures |Next(s, e).0.clients| == |s.clients| && Actor(e) < |s.clients|
    ensures forall j :: 0 <= j < |s.clients| && j != Actor(e) ==> Next(s, e).0.clients[j] == s.clients[j]
    ensures var r := Next(s, e).0; var was := Cell(s.files[t], k); var now := Cell(r.files[t], k);
      && CellStep(was, now)
      && (was == '2' != now ==> Has(s, Actor(e), t, k, Chosen) && !Has(r, Actor(e), t, k, Chosen))
      && (now == '2' != was ==> Has(r, Actor(e), t, k, Chosen))
      && (now == '1' != was ==> Has(r, Actor(e), t, k, Paid))
  {
    hide CanRun, Handle;
    InvShaped(s);
    if e.Input? {
      InputEffect(s, e.i, e.text, e.train);
      var c := s.clients[e.i];
      var u := FileOf(c, e.train);
      var eff := Handle(c, e.text, e.train, s.files[u]);
      if u == t { OneCell(c, s.files[t], eff, t, k); }
    }
  }

  /** One cell under the effect of a request. */
  lemma OneCell(c: Client, f: TrainFile, e: Effect, t: nat, k: nat)
    requires ClientOk(c) && FileOk(f) && EffectOk(c, f, e, t) && k < SEAT_NUM
    requires OnBoard(c) ==> c.rec.train == t
    ensures e.client.connected ==> SeatMove(c.rec.seats[k], Cell(f, k), e.client.rec.seats[k], Cell(e.file, k))
    ensures !e.client.connected ==> e.client == ClosedClient() && e.file == f
    ensures e.client.connected && e.client.rec.seats[k] != Unknown ==> OnBoard(e.client) && e.client.rec.train == t
    ensures c.rec.seats[k] != Unknown ==> OnBoard(c)
    ensures |e.client.rec.seats| == SEAT_NUM
  {
    hide CountStat;
    if !OnBoard(c) { FreshHoldsNothing(c); }
    if !OnBoard(e.client) { FreshHoldsNothing(e.client); }
  }

  // ---- cells over runs ----

  /** A paid seat stays paid, whatever happens and whoever leaves. */
  lemma {:induction false} PaidForever(s: Server, es: seq<Event>, t: nat, k: nat)
    requires BookInv(s) && CanRun(s, es) && t < TRAIN_NUM && k < SEAT_NUM
    requires Cell(s.files[t], k) == '1'
    ensures BookInv(After(s, es)) && Cell(After(s, es).files[t], k) == '1'
    decreases |es|
  {
    hide BookInv;
    BookSizes(s);
    RunKeeps(s, es);
    BookSizes(After(s, es));
    if es == [] {
    } else {
      CellHistory(s, es[0], t, k);
      NextKeeps(s, es[0]);
      PaidForever(Next(s, es[0]).0, es[1..], t, k);
    }
  }

  lemma BookSizes(s: Server)
    requires BookInv(s)
    ensures |s.files| == TRAIN_NUM
    ensures forall t :: 0 <= t < TRAIN_NUM ==> |s.files[t].bytes| == FILE_SIZE && FileOk(s.files[t])
    ensures forall i :: 0 <= i < |s.clients| ==> |s.clients[i].rec.seats| == SEAT_NUM && ClientOk(s.clients[i])
  {
  }

  /** Nobody can touch what client i holds: over a run without an event of client i, the client is as it was and the
      cells of its seats are too. */
  lemma {:induction false} OnlyTheHolderMoves(s: Server, es: seq<Event>, i: nat)
    requires BookInv(s) && CanRun(s, es) && i < |s.clients|
    requires forall n :: 0 <= n < |es| ==> Actor(es[n]) != i
    ensures var r := After(s, es);
      && BookInv(r) && |r.clients| == |s.clients| && r.clients[i] == s.clients[i]
      && forall k :: 0 <= k < SEAT_NUM && r.clients[i].rec.seats[k] != Unknown ==>
           && OnBoard(s.clients[i])
           && Cell(r.files[s.clients[i].rec.train], k) == Cell(s.files[s.clients[i].rec.train], k)
    decreases |es|
  {
    hide BookInv;
    BookSizes(s);
    if es == [] {
      HoldersOnBoard(s, i);
    } else {
      NextKeeps(s, es[0]);
      var r := Next(s, es[0]).0;
      assert Actor(es[0]) != i;
      CellHistory(s, es[0], 0, 0);
      assert r.clients[i] == s.clients[i];
      assert forall n :: 0 <= n < |es[1..]| ==> es[1..][n] == es[n + 1];
      OnlyTheHolderMoves(r, es[1..], i);
      HoldersOnBoard(s, i);
      HoldersOnBoard(r, i);
    }
  }

  /** What a held seat's cell shows follows from its status. */
  lemma HoldersOnBoard(s: Server, i: nat)
    requires BookInv(s) && i < |s.clients|
    ensures BookInv(s) && |s.files| == TRAIN_NUM && |s.clients[i].rec.seats| == SEAT_NUM
    ensures forall k :: 0 <= k < SEAT_NUM && s.clients[i].rec.seats[k] != Unknown ==>
      && OnBoard(s.clients[i]) && 0 <= s.clients[i].rec.train < TRAIN_NUM
      && |s.files[s.clients[i].rec.train].bytes| == FILE_SIZE
      && Cell(s.files[s.clients[i].rec.train], k) == if s.clients[i].rec.seats[k] == Chosen then '2' else '1'
  {
    if !OnBoard(s.clients[i]) { FreshHoldsNothing(s.clients[i]); }
  }

  // ---- where the '1' cells come from ----

  function Ones(files: seq<TrainFile>): nat
    requires forall t :: 0 <= t < |files| ==> |files[t].bytes| >= FILE_SIZE
  {
    if files == [] then 0 else CountCells(files[0], '1', SEAT_NUM) + Ones(files[1..])
  }

  /** The seats that an event pays. */
  ghost function Payment(s: Server, e: Event): int
    requires Possible(s, e)
  {
    if e.Input? && e.text == "pay" && s.clients[e.i].status == Seat then s.clients[e.i].rec.chosenCount else 0
  }

  ghost function Payments(s: Server, es: seq<Event>): int
    requires CanRun(s, es)
    decreases |es|
  {
    if es == [] then 0 else Payment(s, es[0]) + Payments(Next(s, es[0]).0, es[1..])
  }

  lemma {:induction false} OnesUpdate(files: seq<TrainFile>, t: nat, f: TrainFile)
    requires forall u :: 0 <= u < |files| ==> |files[u].bytes| >= FILE_SIZE
    requires t < |files| && |f.bytes| >= FILE_SIZE
    ensures Ones(files[t := f]) == Ones(files) - CountCells(files[t], '1', SEAT_NUM) + CountCells(f, '1', SEAT_NUM)
  {
    if t > 0 {
      assert files[t := f][1..] == files[1..][t - 1 := f];
      OnesUpdate(files[1..], t - 1, f);
    } else {
      assert files[t := f][1..] == files[1..];
    }
  }

  /** The '1' cells that appear are the seats that the client pays, one for one. */
  lemma {:induction false} PaidCells(was: seq<SeatStat>, f: TrainFile, now: seq<SeatStat>, g: TrainFile, k: nat)
    requires |was| == |now| == SEAT_NUM && |f.bytes| >= FILE_SIZE && |g.bytes| >= FILE_SIZE && k <= SEAT_NUM
    requires forall j :: 0 <= j < SEAT_NUM ==> SeatMove(was[j], Cell(f, j), now[j], Cell(g, j))
    requires forall j :: 0 <= j < SEAT_NUM && was[j] == Paid ==> Cell(f, j) == '1'
    ensures CountCells(g, '1', k) - CountCells(f, '1', k) == CountStat(now, Paid, k) - CountStat(was, Paid, k)
  {
    if k == 0 {
    } else {
      PaidCells(was, f, now, g, k - 1);
    }
  }

  /** A payment turns every chosen seat into a paid one. */
  lemma {:induction false} AllChosenPaid(was: seq<SeatStat>, now: seq<SeatStat>, k: nat)
    requires k <= |was| == |now|
    requires forall j :: 0 <= j < |was| ==> now[j] == if was[j] == Chosen then Paid else was[j]
    ensures CountStat(now, Paid, k) == CountStat(was, Paid, k) + CountStat(was, Chosen, k)
  {
    if k == 0 {
    } else {
      AllChosenPaid(was, now, k - 1);
    }
  }

  lemma {:induction false} SamePaid(was: seq<SeatStat>, now: seq<SeatStat>, k: nat)
    requires k <= |was| == |now|
    requires forall j :: 0 <= j < |was| ==> (now[j] == Paid <==> was[j] == Paid)
    ensures CountStat(now, Paid, k) == CountStat(was, Paid, k)
  {
    if k == 0 {
    } else {
      SamePaid(was, now, k - 1);
    }
  }

  /** A request other than a payment leaves the paid seats of a client that stays connected as they were. */
  lemma NoPayment(c: Client, text: string, train: nat, f: TrainFile)
    requires ClientOk(c) && c.connected && FileOk(f) && train < TRAIN_NUM
    requires OnBoard(c) ==> HoldsIn(c, f)
    requires c.status == Seat && text != "exit" && text != "pay" ==> SeatInput(c.rec, text)
    requires !(c.status == Seat && text == "pay")
    ensures var d := Handle(c, text, train, f).client;
      && |d.rec.seats| == SEAT_NUM
      && (d.connected ==> forall k :: 0 <= k < SEAT_NUM ==> (d.rec.seats[k] == Paid <==> c.rec.seats[k] == Paid))
  {
    hide SeatList, Occupied, Atoi, CountStat, WriteSeat;
    if c.status == Seat && text != "exit" {
      var seat := Atoi(text);
      if seat != 0 { OffsetIs(seat); }
    }
  }

  /** How many '1' cells one request adds to its file. */
  lemma OnesByRequest(c: Client, text: string, train: nat, f: TrainFile)
    requires ClientOk(c) && c.connected && FileOk(f) && train < TRAIN_NUM
    requires OnBoard(c) ==> HoldsIn(c, f)
    requires c.status == Seat && text != "exit" && text != "pay" ==> SeatInput(c.rec, text)
    ensures var e := Handle(c, text, train, f);
      && |e.file.bytes| >= FILE_SIZE
      && CountCells(e.file, '1', SEAT_NUM) == CountCells(f, '1', SEAT_NUM)
           + if c.status == Seat && text == "pay" then c.rec.chosenCount else 0
  {
    hide Handle, CountCells, CountStat, Occupied, SeatList, FileOk;
    FileSize(f);
    var e := Handle(c, text, train, f);
    HandleOk(c, text, train, f);
    EffectInFile(c, f, e, FileOf(c, train));
    FileSize(e.file);
    if e.client.connected {
      if !OnBoard(c) { FreshHoldsNothing(c); }
      PaidCells(c.rec.seats, f, e.client.rec.seats, e.file, SEAT_NUM);
      if c.status == Seat && text == "pay" {
        HandlePay(c, train, f);
        PayOk(c, f);
        AllChosenPaid(c.rec.seats, e.client.rec.seats, SEAT_NUM);
      } else {
        NoPayment(c, text, train, f);
        SamePaid(c.rec.seats, e.client.rec.seats, SEAT_NUM);
      }
    } else if c.status == Seat && text == "pay" {
      HandlePay(c, train, f);
      PayOk(c, f);
      PayStays(c, f);
    }
  }

  lemma HandlePay(c: Client, train: nat, f: TrainFile)
    requires |c.rec.seats| == SEAT_NUM && |f.bytes| >= FILE_SIZE && c.status == Seat
    ensures Handle(c, "pay", train, f) == OnPay(c, f)
  {
    hide OnPay, OnSeat, OnShift;
  }

  lemma PayStays(c: Client, f: TrainFile)
    requires ClientOk(c) && c.connected && c.status == Seat && FileOk(f) && HoldsIn(c, f)
    ensures OnPay(c, f).client.connected
  {
    hide FileOk, CountStat, SeatList, PayFrom;
    if c.rec.chosenCount != 0 {
      assert Lseek(f, 0) == f by { FileSize(f); }
      PayLoop(c, f, 0);
    }
  }

  lemma OnesStep(s: Server, e: Event)
    requires BookInv(s) && Possible(s, e)
    ensures Shaped(s) && BookInv(s) && BookInv(Next(s, e).0)
    ensures Ones(Next(s, e).0.files) == Ones(s.files) + Payment(s, e)
  {
    hide Handle, Ones;
    NextKeeps(s, e);
    if e.Input? {
      var c := s.clients[e.i];
      var t := FileOf(c, e.train);
      InputEffect(s, e.i, e.text, e.train);
      OnesByRequest(c, e.text, e.train, s.files[t]);
      OnesUpdate(s.files, t, Handle(c, e.text, e.train, s.files[t]).file);
    }
  }

  /** The number of '1' cells over all files is the initial number plus the seats paid by all clients ever. */
  lemma {:induction false} OnesCountPayments(s: Server, es: seq<Event>)
    requires BookInv(s) && CanRun(s, es)
    ensures BookInv(After(s, es)) && Ones(After(s, es).files) == Ones(s.files) + Payments(s, es)
    decreases |es|
  {
    hide Ones;
    RunKeeps(s, es);
    if es == [] {
    } else {
      OnesStep(s, es[0]);
      OnesCountPayments(Next(s, es[0]).0, es[1..]);
    }
  }

  // ---- where the '2' cells come from ----

  /** A '2' cell that no live client has chosen. */
  ghost predicate Orphan(s: Server, t: nat, k: nat)
    requires |s.files| == TRAIN_NUM && t < TRAIN_NUM && k < SEAT_NUM && |s.files[t].bytes| >= FILE_SIZE
  {
    Cell(s.files[t], k) == '2' && forall i :: 0 <= i < |s.clients| ==> !Has(s, i, t, k, Chosen)
  }

  /** The event ends the session of a client that has seat index k of train t chosen. */
  ghost predicate Leaves(s: Server, e: Event, t: nat, k: nat)
    requires Shaped(s) && Possible(s, e)
  {
    Has(s, Actor(e), t, k, Chosen) && !Next(s, e).0.clients[Actor(e)].connected
  }

  ghost predicate EverLeft(s: Server, es: seq<Event>, t: nat, k: nat)
    requires CanRun(s, es)
    decreases |es|
  {
    es != [] && (Leaves(s, es[0], t, k) || EverLeft(Next(s, es[0]).0, es[1..], t, k))
  }

  /** The acting client starts to have a seat chosen only on a '0' cell; it stops having it chosen with the cell still
      '2' exactly when its session ends. */
  lemma HolderHistory(s: Server, e: Event, t: nat, k: nat)
    requires BookInv(s) && Possible(s, e) && t < TRAIN_NUM && k < SEAT_NUM
    ensures Shaped(s) && |Next(s, e).0.clients| == |s.clients| && Actor(e) < |s.clients|
    ensures |Next(s, e).0.files| == TRAIN_NUM && |Next(s, e).0.files[t].bytes| == FILE_SIZE
    ensures var r := Next(s, e).0; var had := Has(s, Actor(e), t, k, Chosen); var has := Has(r, Actor(e), t, k, Chosen);
      && (has && !had ==> Cell(s.files[t], k) == '0')
      && (had && !has ==> (Cell(r.files[t], k) == '2' <==> !r.clients[Actor(e)].connected))
      && (has ==> r.clients[Actor(e)].connected)
      && (had ==> Cell(s.files[t], k) == '2')
      && (had ==> forall j :: 0 <= j < |s.clients| && j != Actor(e) ==> !Has(s, j, t, k, Chosen))
  {
    hide Handle;
    InvShaped(s);
    if e.Input? {
      InputEffect(s, e.i, e.text, e.train);
      var c := s.clients[e.i];
      var u := FileOf(c, e.train);
      var eff := Handle(c, e.text, e.train, s.files[u]);
      if u == t { OneCell(c, s.files[t], eff, t, k); }
    } else if e.Connect? {
      ClosedOf(s, e.i);
    }
  }

  /** One event makes an orphan only by closing its holder, and no event ends one. */
  lemma OrphanStep(s: Server, e: Event, t: nat, k: nat)
    requires BookInv(s) && Possible(s, e) && t < TRAIN_NUM && k < SEAT_NUM
    ensures Shaped(s) && BookInv(Next(s, e).0) && BookInv(s)
    ensures Orphan(Next(s, e).0, t, k) <==> Orphan(s, t, k) || Leaves(s, e, t, k)
  {
    hide BookInv, Next, Exclusive;
    NextKeeps(s, e);
    BookSizes(s);
    BookSizes(Next(s, e).0);
    CellHistory(s, e, t, k);
    HolderHistory(s, e, t, k);
    var r := Next(s, e).0;
    forall j: nat | j < |s.clients| && j != Actor(e) ensures Has(r, j, t, k, Chosen) == Has(s, j, t, k, Chosen) {
    }
    assert Orphan(s, t, k) ==> !Has(s, Actor(e), t, k, Chosen);
    assert Orphan(r, t, k) ==> !Has(r, Actor(e), t, k, Chosen);
  }

  /** An orphan stays one for ever: nobody can choose, cancel or pay the seat again. A seat becomes an orphan exactly
      when the client that chose it leaves without paying or cancelling. */
  lemma {:induction false} OrphansOverRuns(s: Server, es: seq<Event>, t: nat, k: nat)
    requires BookInv(s) && CanRun(s, es) && t < TRAIN_NUM && k < SEAT_NUM
    ensures BookInv(After(s, es)) && (Orphan(After(s, es), t, k) <==> Orphan(s, t, k) || EverLeft(s, es, t, k))
    decreases |es|
  {
    hide BookInv, Orphan, Leaves;
    BookSizes(s);
    RunKeeps(s, es);
    BookSizes(After(s, es));
    if es == [] {
    } else {
      OrphanStep(s, es[0], t, k);
      BookSizes(Next(s, es[0]).0);
      OrphansOverRuns(Next(s, es[0]).0, es[1..], t, k);
    }
  }

  /** Every '2' cell is one of these, and only one: chosen by a live client, or there from the start or left by a client
      that closed; and a '2' of the last two kinds is never held. */
  lemma TwosAccountedFor(s: Server, es: seq<Event>, t: nat, k: nat)
    requires Start(s) && CanRun(s, es) && t < TRAIN_NUM && k < SEAT_NUM
    ensures var r := After(s, es);
      && |r.files| == TRAIN_NUM && |r.files[t].bytes| == FILE_SIZE
      && var held := exists i :: 0 <= i < |r.clients| && Has(r, i, t, k, Chosen);
         var orphan := Cell(s.files[t], k) == '2' || EverLeft(s, es, t, k);
         (Cell(r.files[t], k) == '2' <==> held || orphan) && !(held && orphan)
  {
    hide CanRun, After, EverLeft, Exclusive;
    StartIsGood(s);
    OrphansOverRuns(s, es, t, k);
    var r := After(s, es);
    forall i: nat | i < |s.clients| ensures !Has(s, i, t, k, Chosen) {
    }
    forall i: nat | i < |r.clients| && Has(r, i, t, k, Chosen) ensures Cell(r.files[t], k) == '2' {
      HoldersOnBoard(r, i);
    }
  }

  /** A seat left behind is refused for ever: after any run, a client on that train that asks for it is told that it is
      locked, and nothing changes. */
  lemma LeftSeatIsLockedForever(s: Server, es: seq<Event>, t: nat, k: nat, i: nat, text: string)
    requires BookInv(s) && CanRun(s, es) && t < TRAIN_NUM && k < SEAT_NUM && Orphan(s, t, k)
    requires var r := After(s, es);
      && i < |r.clients| && r.clients[i].connected && r.clients[i].status == Seat && r.clients[i].rec.train == t
      && Atoi(text) == k + 1 && text != "exit" && text != "pay"
    ensures var r := After(s, es);
      && Shaped(r) && Possible(r, Input(i, text, 0))
      && Next(r, Input(i, text, 0)) == (r, [Locked, SeatPrompt])
  {
    hide CanRun, After, Atoi, EverLeft;
    OrphansOverRuns(s, es, t, k);
    var r := After(s, es);
    InvShaped(r);
    OffsetIs(k + 1);
    var c := r.clients[i];
    var f := r.files[t];
    assert !Has(r, i, t, k, Chosen);
    assert Handle(c, text, 0, f) == OnSeat(c, text, f);
    assert Lseek(f, 0) == f;
    assert OnSeat(c, text, f) == Effect(c, f, [Locked, SeatPrompt]);
    assert r.clients[i := c] == r.clients && r.files[t := f] == r.files;
  }
}
