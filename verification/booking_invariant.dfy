/** What every run of the booking server keeps: the form of the train files, who holds which seat, and the counts. */
module BookingInvariant {
  import opened Booking

  // ---- the form of a train file ----

  predicate IsCell(c: char) { c == '0' || c == '1' || c == '2' }

  /** Ten lines of four seats: "x x x x\n", read and written from the start. */
  ghost predicate FileOk(f: TrainFile) {
    && |f.bytes| == FILE_SIZE && f.pos == 0
    && forall k :: 0 <= k < SEAT_NUM ==>
         IsCell(f.bytes[2 * k]) && f.bytes[2 * k + 1] == if k % 4 == 3 then '\n' else ' '
  }

  /** The cell of seat index k (seat k + 1). */
  function Cell(f: TrainFile, k: nat): char
    requires k < SEAT_NUM && |f.bytes| >= FILE_SIZE
  {
    f.bytes[2 * k]
  }

  lemma OffsetIs(seat: nat)
    requires 1 <= seat
    ensures Offset(seat) == 2 * (seat - 1)
  {
  }

  /** A seat write changes that seat's byte and nothing else, and leaves the file at its start. */
  lemma WriteSeatIs(f: TrainFile, seat: nat, c: char)
    requires FileOk(f) && 1 <= seat <= SEAT_NUM && IsCell(c)
    ensures var g := WriteSeat(f, seat, c);
      && FileOk(g) && g.bytes == f.bytes[2 * (seat - 1) := c]
      && Cell(g, seat - 1) == c && forall k :: 0 <= k < SEAT_NUM && k != seat - 1 ==> Cell(g, k) == Cell(f, k)
  {
    OffsetIs(seat);
  }

  lemma {:induction false} CStringWhole(s: seq<char>)
    requires forall i :: 0 <= i < |s| ==> s[i] != '\0'
    ensures CString(s) == s
  {
    if s == [] {
    } else {
      CStringWhole(s[1..]);
    }
  }

  /** occupied answers 1 exactly when no seat is '0', and leaves the file as it was. */
  lemma OccupiedIs(f: TrainFile)
    requires FileOk(f)
    ensures Occupied(f).0 == f
    ensures Occupied(f).1 == if exists k :: 0 <= k < SEAT_NUM && Cell(f, k) == '0' then 0 else 1
  {
    NoZeroBytes(f);
    CStringWhole(f.bytes);
    assert f.bytes[0..FILE_SIZE] == f.bytes;
    if '0' in f.bytes {
      var i :| 0 <= i < FILE_SIZE && f.bytes[i] == '0';
      HalfOf(f, i);
      assert Cell(f, i / 2) == '0';
    } else {
      forall k | 0 <= k < SEAT_NUM ensures Cell(f, k) != '0' {
        assert f.bytes[2 * k] in f.bytes;
      }
    }
  }

  lemma HalfOf(f: TrainFile, i: nat)
    requires FileOk(f) && i < FILE_SIZE
    ensures i % 2 == 0 ==> IsCell(f.bytes[i]) && i == 2 * (i / 2)
    ensures i % 2 == 1 ==> f.bytes[i] == '\n' || f.bytes[i] == ' '
  {
    var k := i / 2;
    assert i % 2 == 1 ==> f.bytes[2 * k + 1] == f.bytes[i];
  }

  lemma NoZeroBytes(f: TrainFile)
    requires FileOk(f)
    ensures forall i :: 0 <= i < FILE_SIZE ==> f.bytes[i] != '\0'
  {
    forall i: nat | i < FILE_SIZE ensures f.bytes[i] != '\0' {
      HalfOf(f, i);
    }
  }

  // ---- counting ----

  /** How many of the first k seats of a record have this status. */
  function CountStat(seats: seq<SeatStat>, which: SeatStat, k: nat): nat
    requires k <= |seats|
  {
    if k == 0 then 0 else CountStat(seats, which, k - 1) + if seats[k - 1] == which then 1 else 0
  }

  /** How many of the first k cells of a file have this value. */
  function CountCells(f: TrainFile, c: char, k: nat): nat
    requires k <= SEAT_NUM && |f.bytes| >= FILE_SIZE
  {
    if k == 0 then 0 else CountCells(f, c, k - 1) + if Cell(f, k - 1) == c then 1 else 0
  }

  lemma {:induction false} CountStatUpdate(seats: seq<SeatStat>, which: SeatStat, k: nat, i: nat, v: SeatStat)
    requires k <= |seats| && i < |seats|
    ensures CountStat(seats[i := v], which, k) == CountStat(seats, which, k)
      + (if i < k && v == which then 1 else 0) - (if i < k && seats[i] == which then 1 else 0)
  {
    if k == 0 {
    } else {
      CountStatUpdate(seats, which, k - 1, i, v);
    }
  }

  lemma {:induction false} CountStatZero(seats: seq<SeatStat>, which: SeatStat, k: nat)
    requires k <= |seats|
    ensures CountStat(seats, which, k) == 0 <==> forall i :: 0 <= i < k ==> seats[i] != which
  {
    if k == 0 {
    } else {
      CountStatZero(seats, which, k - 1);
    }
  }

  // ---- one client ----

  ghost predicate RecordOk(c: Client) {
    |c.rec.seats| == SEAT_NUM && c.rec.chosenCount == CountStat(c.rec.seats, Chosen, SEAT_NUM)
  }

  /** A client has seats only once it has a train, and none of its seats is waiting to be paid right after paying. */
  ghost predicate SessionOk(c: Client) {
    && (if c.connected then c.status != Invalid else c == ClosedClient())
    && (c.status == Shift ==> c.rec == FreshRecord())
    && (c.status == Seat || c.status == Booked ==> 0 <= c.rec.train < TRAIN_NUM)
    && (c.status == Booked ==> c.rec.chosenCount == 0)
  }

  predicate OnBoard(c: Client) { c.status == Seat || c.status == Booked }

  /** A chosen seat is marked '2' in the file, a paid one '1'. */
  ghost predicate HoldsIn(c: Client, f: TrainFile)
    requires |c.rec.seats| == SEAT_NUM && |f.bytes| >= FILE_SIZE
  {
    forall k :: 0 <= k < SEAT_NUM ==>
      && (c.rec.seats[k] == Chosen ==> Cell(f, k) == '2')
      && (c.rec.seats[k] == Paid ==> Cell(f, k) == '1')
  }

  ghost predicate ClientOk(c: Client) { RecordOk(c) && SessionOk(c) }

  /** What a request may do to a seat of the client that makes it, together with the seat's cell: choose a free seat,
      cancel or pay a chosen one, or leave both as they are. */
  predicate SeatMove(was: SeatStat, cellWas: char, now: SeatStat, cell: char) {
    || (now == was && cell == cellWas)
    || (was != Chosen && cellWas == '0' && now == Chosen && cell == '2')
    || (was == Chosen && cellWas == '2' && now == Unknown && cell == '0')
    || (was == Chosen && cellWas == '2' && now == Paid && cell == '1')
  }

  /** The effect of a request: a good client and a good file, and each seat moved as allowed; a request that ends the
      session leaves the file alone. */
  ghost predicate EffectOk(c: Client, f: TrainFile, e: Effect, train: int)
    requires |c.rec.seats| == SEAT_NUM && FileOk(f)
  {
    && ClientOk(e.client) && FileOk(e.file)
    && (OnBoard(e.client) ==> HoldsIn(e.client, e.file) && e.client.rec.train == train)
    && (if e.client.connected then
          forall k :: 0 <= k < SEAT_NUM ==>
            SeatMove(c.rec.seats[k], Cell(f, k), e.client.rec.seats[k], Cell(e.file, k))
        else e.client == ClosedClient() && e.file == f)
  }

  lemma FreshIsOk()
    ensures ClientOk(ClosedClient()) && |FreshRecord().seats| == SEAT_NUM
    ensures forall k :: 0 <= k < SEAT_NUM ==> FreshRecord().seats[k] == Unknown
    ensures CountStat(FreshRecord().seats, Chosen, SEAT_NUM) == 0
  {
    CountStatZero(FreshRecord().seats, Chosen, SEAT_NUM);
  }

  lemma CloseOk(c: Client, f: TrainFile, msgs: seq<Msg>, train: int)
    requires |c.rec.seats| == SEAT_NUM && FileOk(f)
    ensures EffectOk(c, f, Effect(ClosedClient(), f, msgs), train)
  {
    FreshIsOk();
  }

  lemma ShiftOk(c: Client, text: string, train: nat, f: TrainFile)
    requires ClientOk(c) && c.connected && c.status == Shift && FileOk(f) && train < TRAIN_NUM
    ensures EffectOk(c, f, OnShift(c, text, train, f), train)
  {
    hide SeatList, FreshRecord, Occupied, Atoi;
    FreshIsOk();
    OccupiedIs(f);
    CloseOk(c, f, [InvalidOp], train);
  }

  lemma ChooseOk(c: Client, f: TrainFile, seat: nat)
    requires ClientOk(c) && c.connected && c.status == Seat && FileOk(f) && HoldsIn(c, f)
    requires 1 <= seat <= SEAT_NUM && c.rec.seats[seat - 1] != Chosen && Cell(f, seat - 1) == '0'
    ensures EffectOk(c, f, ChooseSeat(c, f, seat), c.rec.train)
  {
    hide SeatList, FileOk, WriteSeat;
    WriteSeatIs(f, seat, '2');
    FileSize(f);
    CountStatUpdate(c.rec.seats, Chosen, SEAT_NUM, seat - 1, Chosen);
  }

  lemma CancelOk(c: Client, f: TrainFile, seat: nat)
    requires ClientOk(c) && c.connected && c.status == Seat && FileOk(f) && HoldsIn(c, f)
    requires 1 <= seat <= SEAT_NUM && c.rec.seats[seat - 1] == Chosen
    ensures EffectOk(c, f, CancelSeat(c, f, seat), c.rec.train)
  {
    hide SeatList, FileOk, WriteSeat;
    WriteSeatIs(f, seat, '0');
    FileSize(f);
    CountStatUpdate(c.rec.seats, Chosen, SEAT_NUM, seat - 1, Unknown);
  }

  lemma FileSize(f: TrainFile)
    requires FileOk(f)
    ensures |f.bytes| == FILE_SIZE && f.pos == 0 && forall k :: 0 <= k < SEAT_NUM ==> IsCell(Cell(f, k))
  {
  }

  lemma SeatOk(c: Client, text: string, f: TrainFile)
    requires ClientOk(c) && c.connected && c.status == Seat && FileOk(f) && HoldsIn(c, f)
    requires SeatInput(c.rec, text)
    ensures EffectOk(c, f, OnSeat(c, text, f), c.rec.train)
  {
    hide SeatList, FileOk, ChooseSeat, CancelSeat, Atoi, CountStat;
    FileSize(f);
    var seat := Atoi(text);
    CloseOk(c, f, [InvalidOp], c.rec.train);
    if seat != 0 {
      OffsetIs(seat);
      if c.rec.seats[seat - 1] == Chosen { CancelOk(c, f, seat); }
      else if Cell(f, seat - 1) == '0' { ChooseOk(c, f, seat); }
    }
  }

  /** The state of the paying loop: everything before j that was chosen is paid. */
  lemma {:induction false} PayLoop(c: Client, f: TrainFile, j: nat)
    requires RecordOk(c) && FileOk(f) && HoldsIn(c, f) && j <= SEAT_NUM
    ensures var (d, g) := PayFrom(c, f, j);
      && RecordOk(d) && FileOk(g) && HoldsIn(d, g)
      && d == c.(status := d.status, rec := c.rec.(seats := d.rec.seats, chosenCount := d.rec.chosenCount))
      && (forall k :: 0 <= k < SEAT_NUM ==>
            if k >= j && c.rec.seats[k] == Chosen then d.rec.seats[k] == Paid && Cell(g, k) == '1'
            else d.rec.seats[k] == c.rec.seats[k] && Cell(g, k) == Cell(f, k))
      && d.status == (if exists k :: j <= k < SEAT_NUM && c.rec.seats[k] == Chosen then Booked else c.status)
    decreases SEAT_NUM - j
  {
    hide WriteSeat, CountStat, FileOk;
    FileSize(f);
    if j == SEAT_NUM {
    } else {
      PayOneOk(c, f, j);
      var (c1, f1) := PaySeat(c, f, j);
      FileSize(f1);
      PayLoop(c1, f1, j + 1);
    }
  }

  lemma PayOneOk(c: Client, f: TrainFile, j: nat)
    requires RecordOk(c) && FileOk(f) && HoldsIn(c, f) && j < SEAT_NUM
    ensures var (d, g) := PaySeat(c, f, j);
      && RecordOk(d) && FileOk(g) && HoldsIn(d, g)
      && (forall k :: 0 <= k < SEAT_NUM && k != j ==> Cell(g, k) == Cell(f, k))
      && Cell(g, j) == if c.rec.seats[j] == Chosen then '1' else Cell(f, j)
  {
    hide FileOk, WriteSeat;
    FileSize(f);
    if c.rec.seats[j] == Chosen {
      WriteSeatIs(f, j + 1, '1');
      FileSize(WriteSeat(f, j + 1, '1'));
      CountStatUpdate(c.rec.seats, Chosen, SEAT_NUM, j, Paid);
    }
  }

  lemma PayOk(c: Client, f: TrainFile)
    requires ClientOk(c) && c.connected && c.status == Seat && FileOk(f) && HoldsIn(c, f)
    ensures EffectOk(c, f, OnPay(c, f), c.rec.train)
    ensures var e := OnPay(c, f);
      && e.client.rec.chosenCount == 0
      && e.client.status == (if c.rec.chosenCount > 0 then Booked else Seat)
      && forall k :: 0 <= k < SEAT_NUM ==>
           if c.rec.seats[k] == Chosen then e.client.rec.seats[k] == Paid && Cell(e.file, k) == '1'
           else e.client.rec.seats[k] == c.rec.seats[k] && Cell(e.file, k) == Cell(f, k)
  {
    hide SeatList, FileOk, PayFrom, CountStat;
    FileSize(f);
    CountStatZero(c.rec.seats, Chosen, SEAT_NUM);
    assert Lseek(f, 0) == f;
    if c.rec.chosenCount != 0 {
      PayLoop(c, f, 0);
      var d := PayFrom(c, f, 0).0;
      CountStatZero(d.rec.seats, Chosen, SEAT_NUM);
      FileSize(PayFrom(c, f, 0).1);
    }
  }

  /** Every request keeps the client and the file of its train good. */
  lemma HandleOk(c: Client, text: string, train: nat, f: TrainFile)
    requires ClientOk(c) && c.connected && FileOk(f) && train < TRAIN_NUM
    requires OnBoard(c) ==> HoldsIn(c, f)
    requires c.status == Seat && text != "exit" && text != "pay" ==> SeatInput(c.rec, text)
    ensures EffectOk(c, f, Handle(c, text, train, f), FileOf(c, train))
  {
    hide SeatList, FileOk, OnShift, OnPay, OnSeat, Atoi, CountStat;
    FileSize(f);
    CloseOk(c, f, [ClientExit], FileOf(c, train));
    CloseOk(c, f, [InvalidOp], FileOf(c, train));
    if text != "exit" {
      match c.status {
        case Shift => ShiftOk(c, text, train, f);
        case Seat => if text == "pay" { PayOk(c, f); } else { SeatOk(c, text, f); }
        case Booked =>
        case Invalid =>
      }
    }
  }

  // ---- the whole server ----

  /** No two clients on the same train hold the same seat. */
  ghost predicate Exclusive(s: Server) {
    forall i, j, k :: 0 <= i < j < |s.clients| && 0 <= k < SEAT_NUM && OnBoard(s.clients[i]) && OnBoard(s.clients[j])
      && |s.clients[i].rec.seats| == SEAT_NUM && |s.clients[j].rec.seats| == SEAT_NUM
      && s.clients[i].rec.train == s.clients[j].rec.train
      ==> s.clients[i].rec.seats[k] == Unknown || s.clients[j].rec.seats[k] == Unknown
  }

  ghost predicate BookInv(s: Server) {
    && |s.files| == TRAIN_NUM
    && (forall t :: 0 <= t < TRAIN_NUM ==> FileOk(s.files[t]))
    && (forall i :: 0 <= i < |s.clients| ==> ClientOk(s.clients[i]))
    && (forall i :: 0 <= i < |s.clients| && OnBoard(s.clients[i]) ==>
          HoldsIn(s.clients[i], s.files[s.clients[i].rec.train]))
    && Exclusive(s)
  }

  lemma InvShaped(s: Server)
    requires BookInv(s)
    ensures Shaped(s)
  {
  }

  /** Another client's seats survive the effect of a request. */
  lemma OtherClientSafe(c: Client, f: TrainFile, e: Effect, train: int, d: Client)
    requires |c.rec.seats| == SEAT_NUM && FileOk(f) && EffectOk(c, f, e, train)
    requires |d.rec.seats| == SEAT_NUM && HoldsIn(d, f)
    requires forall k :: 0 <= k < SEAT_NUM ==> c.rec.seats[k] == Unknown || d.rec.seats[k] == Unknown
    ensures HoldsIn(d, e.file)
    ensures OnBoard(e.client) ==>
      forall k :: 0 <= k < SEAT_NUM ==> e.client.rec.seats[k] == Unknown || d.rec.seats[k] == Unknown
  {
    hide CountStat;
    forall k | 0 <= k < SEAT_NUM
      ensures d.rec.seats[k] != Unknown ==>
        Cell(e.file, k) == Cell(f, k) && (e.client.connected ==> e.client.rec.seats[k] == Unknown)
    {
      if e.client.connected {
        assert SeatMove(c.rec.seats[k], Cell(f, k), e.client.rec.seats[k], Cell(e.file, k));
      }
    }
  }

  lemma FreshHoldsNothing(c: Client)
    requires ClientOk(c) && !OnBoard(c)
    ensures forall k :: 0 <= k < SEAT_NUM ==> c.rec.seats[k] == Unknown
  {
  }

  lemma EffectInFile(c: Client, f: TrainFile, e: Effect, train: int)
    requires |c.rec.seats| == SEAT_NUM && FileOk(f) && EffectOk(c, f, e, train)
    ensures ClientOk(e.client) && FileOk(e.file) && |e.client.rec.seats| == SEAT_NUM
    ensures OnBoard(e.client) ==> HoldsIn(e.client, e.file) && e.client.rec.train == train
  {
  }

  lemma PutKeeps(s: Server, i: nat, t: nat, e: Effect)
    requires BookInv(s) && i < |s.clients| && t < TRAIN_NUM && EffectOk(s.clients[i], s.files[t], e, t)
    requires OnBoard(s.clients[i]) ==> s.clients[i].rec.train == t
    ensures BookInv(Put(s, i, t, e))
  {
    var r := Put(s, i, t, e);
    var c := s.clients[i];
    EffectInFile(c, s.files[t], e, t);
    forall j: nat | j < |s.clients| && j != i && OnBoard(s.clients[j]) && s.clients[j].rec.train == t
      ensures HoldsIn(s.clients[j], e.file)
      ensures OnBoard(e.client) ==>
        forall k :: 0 <= k < SEAT_NUM ==> e.client.rec.seats[k] == Unknown || s.clients[j].rec.seats[k] == Unknown
    {
      if !OnBoard(c) { FreshHoldsNothing(c); }
      PairExclusive(s, i, j);
      OtherClientSafe(c, s.files[t], e, t, s.clients[j]);
    }
    hide EffectOk, HoldsIn, FileOk, RecordOk, SessionOk;
  }

  lemma PairExclusive(s: Server, i: nat, j: nat)
    requires BookInv(s) && i < |s.clients| && j < |s.clients| && i != j
    requires OnBoard(s.clients[i]) && OnBoard(s.clients[j]) ==> s.clients[i].rec.train == s.clients[j].rec.train
    requires OnBoard(s.clients[j])
    ensures forall k :: 0 <= k < SEAT_NUM ==>
      s.clients[i].rec.seats[k] == Unknown || s.clients[j].rec.seats[k] == Unknown
  {
    if !OnBoard(s.clients[i]) { FreshHoldsNothing(s.clients[i]); }
  }
}
