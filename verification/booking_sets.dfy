/** The server told once more, over sets of seat numbers: no files, offsets, counts, parsing of lists or loops.  The
    server does exactly this, event by event and answer by answer, and the sets determine its whole state. */
module BookingSets {
  import opened Booking
  import opened BookingInvariant
  import opened BookingHistory
  import opened BookingInfo
  import opened BookingRequests

  // ---- the simple server ----

  /** What a client is doing, with its train and its seats. */
  datatype View =
    | Away
    | AtShift
    | AtSeats(shift: int, train: nat, chosen: set<int>, paid: set<int>)
    | AtBooked(shift: int, train: nat, paid: set<int>)

  /** The clients, and of each train the seats that are taken for now and those that are sold. */
  datatype Board = Board(views: seq<View>, taken: seq<set<int>>, sold: seq<set<int>>)

  /** An answer; of the booking info, the shift and the seats listed in it. */
  datatype Reply = Note(msg: Msg) | Listing(shift: int, chosen: set<int>, paid: set<int>)

  predicate BoardOk(b: Board) {
    && |b.taken| == |b.sold| == TRAIN_NUM
    && forall i :: 0 <= i < |b.views| && (b.views[i].AtSeats? || b.views[i].AtBooked?) ==> b.views[i].train < TRAIN_NUM
  }

  /** The event is one of these many clients. */
  predicate Concerns(clients: nat, e: Event) {
    e.i < clients && (e.Input? ==> e.train < TRAIN_NUM)
  }

  function Free(b: Board, t: nat): set<int>
    requires BoardOk(b) && t < TRAIN_NUM
  {
    set k: int | 1 <= k <= SEAT_NUM && k !in b.taken[t] && k !in b.sold[t]
  }

  /** "pay" with these seats chosen. */
  function BoardPays(b: Board, i: nat): (r: (Board, seq<Reply>))
    requires BoardOk(b) && i < |b.views| && b.views[i].AtSeats?
    ensures BoardOk(r.0) && |r.0.views| == |b.views|
  {
    var AtSeats(shift, t, chosen, paid) := b.views[i];
    if chosen == {} then (b, [Note(NoSeatToPay), Listing(shift, {}, paid), Note(SeatPrompt)])
    else
      (Board(b.views[i := AtBooked(shift, t, paid + chosen)],
             b.taken[t := b.taken[t] - chosen], b.sold[t := b.sold[t] + chosen]),
       [Note(BookingDone), Listing(shift, {}, paid + chosen), Note(SeatOrExitPrompt)])
  }

  /** A client at its seats enters number k. */
  function BoardSeat(b: Board, i: nat, k: int): (r: (Board, seq<Reply>))
    requires BoardOk(b) && i < |b.views| && b.views[i].AtSeats?
    ensures BoardOk(r.0) && |r.0.views| == |b.views|
  {
    var AtSeats(shift, t, chosen, paid) := b.views[i];
    if k in chosen then
      (b.(views := b.views[i := AtSeats(shift, t, chosen - {k}, paid)], taken := b.taken[t := b.taken[t] - {k}]),
       [Note(Cancelled), Listing(shift, chosen - {k}, paid), Note(SeatPrompt)])
    else if k == 0 then (b.(views := b.views[i := Away]), [Note(InvalidOp)])
    else if k in Free(b, t) then
      (b.(views := b.views[i := AtSeats(shift, t, chosen + {k}, paid)], taken := b.taken[t := b.taken[t] + {k}]),
       [Listing(shift, chosen + {k}, paid), Note(SeatPrompt)])
    else (b, [Note(if k in b.sold[t] then SeatTaken else Locked), Note(SeatPrompt)])
  }

  function BoardInput(b: Board, i: nat, text: string, train: nat): (r: (Board, seq<Reply>))
    requires BoardOk(b) && i < |b.views| && train < TRAIN_NUM
    ensures BoardOk(r.0) && |r.0.views| == |b.views|
  {
    var close := b.(views := b.views[i := Away]);
    if text == "exit" then (close, [Note(ClientExit)])
    else
      match b.views[i]
      case Away => (b, [])
      case AtShift =>
        if text !in {"902001", "902002", "902003", "902004", "902005"} then (close, [Note(InvalidOp)])
        else if Free(b, train) == {} then (b, [Note(FullyBooked), Note(ShiftPrompt)])
        else
          (b.(views := b.views[i := AtSeats(Atoi(text), train, {}, {})]),
           [Listing(Atoi(text), {}, {}), Note(SeatPrompt)])
      case AtSeats(_, _, _, _) => if text == "pay" then BoardPays(b, i) else BoardSeat(b, i, Atoi(text))
      case AtBooked(shift, t, paid) =>
        if text == "seat" then
          (b.(views := b.views[i := AtSeats(shift, t, {}, paid)]), [Listing(shift, {}, paid), Note(SeatPrompt)])
        else (close, [Note(InvalidOp)])
  }

  function BoardNext(b: Board, e: Event): (r: (Board, seq<Reply>))
    requires BoardOk(b) && Concerns(|b.views|, e)
    ensures BoardOk(r.0) && |r.0.views| == |b.views|
  {
    match e
    case Connect(i) => (b.(views := b.views[i := AtShift]), [Note(Welcome), Note(ShiftPrompt)])
    case Disconnect(i) => (b.(views := b.views[i := Away]), [])
    case Input(i, text, train) => BoardInput(b, i, text, train)
  }

  function BoardAfter(b: Board, es: seq<Event>): Board
    requires BoardOk(b) && forall n :: 0 <= n < |es| ==> Concerns(|b.views|, es[n])
    decreases |es|
  {
    if es == [] then b else BoardAfter(BoardNext(b, es[0]).0, es[1..])
  }

  function BoardReplies(b: Board, es: seq<Event>): seq<seq<Reply>>
    requires BoardOk(b) && forall n :: 0 <= n < |es| ==> Concerns(|b.views|, es[n])
    decreases |es|
  {
    if es == [] then [] else [BoardNext(b, es[0]).1] + BoardReplies(BoardNext(b, es[0]).0, es[1..])
  }

  // ---- what a state of the server says ----

  predicate SeatHas(seats: seq<SeatStat>, k: int, which: SeatStat) {
    1 <= k <= |seats| && seats[k - 1] == which
  }

  predicate CellHas(f: TrainFile, k: int, c: char)
    requires |f.bytes| >= FILE_SIZE
  {
    1 <= k <= SEAT_NUM && Cell(f, k - 1) == c
  }

  function SeatsWith(seats: seq<SeatStat>, which: SeatStat): set<int> {
    set k: int | 1 <= k <= |seats| && SeatHas(seats, k, which)
  }

  function CellsWith(f: TrainFile, c: char): set<int>
    requires |f.bytes| >= FILE_SIZE
  {
    set k: int | 1 <= k <= SEAT_NUM && CellHas(f, k, c)
  }

  ghost function ViewOf(c: Client): View {
    var (chosen, paid) := (SeatsWith(c.rec.seats, Chosen), SeatsWith(c.rec.seats, Paid));
    if !c.connected then Away
    else if c.status == Shift then AtShift
    else if c.rec.train < 0 then Away
    else if c.status == Seat then AtSeats(c.rec.shiftId, c.rec.train, chosen, paid)
    else if c.status == Booked then AtBooked(c.rec.shiftId, c.rec.train, paid)
    else Away
  }

  ghost function BoardOf(s: Server): (b: Board)
    requires BookInv(s)
    ensures BoardOk(b) && |b.views| == |s.clients|
  {
    Board(seq(|s.clients|, i requires 0 <= i < |s.clients| => ViewOf(s.clients[i])),
          seq(|s.files|, t requires 0 <= t < |s.files| => CellsWith(s.files[t], '2')),
          seq(|s.files|, t requires 0 <= t < |s.files| => CellsWith(s.files[t], '1')))
  }

  /** The booking info is read back. */
  function ReplyOf(m: Msg): Reply {
    match m
    case Info(shiftId, chosen, paid) =>
      Listing(shiftId, set x | x in ParseList(chosen), set x | x in ParseList(paid))
    case _ => Note(m)
  }

  function RepliesOf(msgs: seq<Msg>): seq<Reply> {
    seq(|msgs|, n requires 0 <= n < |msgs| => ReplyOf(msgs[n]))
  }

  lemma ListingIs(rec: Record)
    requires |rec.seats| == SEAT_NUM
    ensures ReplyOf(TrainInfo(rec)) == Listing(rec.shiftId, SeatsWith(rec.seats, Chosen), SeatsWith(rec.seats, Paid))
  {
    hide SeatList, ParseList;
    BookingInfoRoundTrip(rec);
  }

  // ---- one event ----

  /** The board after the effect of a request on client i and the file of train t. */
  lemma PutBoard(s: Server, i: nat, t: nat, e: Effect)
    requires BookInv(s) && i < |s.clients| && t < TRAIN_NUM && FileOk(e.file) && |s.files| == TRAIN_NUM
    requires BookInv(Put(s, i, t, e))
    ensures |e.file.bytes| == FILE_SIZE
    ensures var b := BoardOf(s);
      BoardOf(Put(s, i, t, e)) == Board(b.views[i := ViewOf(e.client)], b.taken[t := CellsWith(e.file, '2')],
                                        b.sold[t := CellsWith(e.file, '1')])
  {
    hide Exclusive, ClientOk, HoldsIn, ViewOf, CellsWith;
  }

  /** What a request does to the board of one client and one train. */
  ghost predicate EffectRefines(s: Server, i: nat, t: nat, e: Effect, r: (Board, seq<Reply>))
    requires BookInv(s) && i < |s.clients| && t < TRAIN_NUM
  {
    && FileOk(e.file) && RepliesOf(e.msgs) == r.1
    && r.0 == Board(BoardOf(s).views[i := ViewOf(e.client)], BoardOf(s).taken[t := CellsWith(e.file, '2')],
                    BoardOf(s).sold[t := CellsWith(e.file, '1')])
  }

  /** The client, the file and the board that an input works on. */
  ghost predicate AtWork(s: Server, i: nat, t: nat) {
    && BookInv(s) && i < |s.clients| && t < TRAIN_NUM && s.clients[i].connected
    && (OnBoard(s.clients[i]) ==> s.clients[i].rec.train == t)
  }

  lemma AtWorkIs(s: Server, i: nat, t: nat)
    requires AtWork(s, i, t)
    ensures |s.files| == TRAIN_NUM && GoodClient(s.clients[i], s.files[t])
    ensures var b := BoardOf(s);
      && b.views[i] == ViewOf(s.clients[i]) && |s.files[t].bytes| == FILE_SIZE
      && b.taken[t] == CellsWith(s.files[t], '2') && b.sold[t] == CellsWith(s.files[t], '1')
  {
    hide Exclusive, CellsWith, ViewOf;
  }

  lemma CloseRefines(s: Server, i: nat, t: nat, m: Msg)
    requires AtWork(s, i, t) && !m.Info?
    ensures EffectRefines(s, i, t, Effect(ClosedClient(), s.files[t], [m]),
                          (BoardOf(s).(views := BoardOf(s).views[i := Away]), [Note(m)]))
  {
    hide BookInv, GoodClient, CellsWith;
    AtWorkIs(s, i, t);
    FileOfGood(s, t);
  }

  lemma FileOfGood(s: Server, t: nat)
    requires BookInv(s) && t < TRAIN_NUM
    ensures |s.files| == TRAIN_NUM && FileOk(s.files[t]) && |s.files[t].bytes| == FILE_SIZE
  {
    hide Exclusive;
  }

  lemma FreeIs(s: Server, t: nat)
    requires BookInv(s) && t < TRAIN_NUM
    ensures |s.files| == TRAIN_NUM && |s.files[t].bytes| == FILE_SIZE
    ensures forall k :: 1 <= k <= SEAT_NUM ==> (k in Free(BoardOf(s), t) <==> Cell(s.files[t], k - 1) == '0')
    ensures Free(BoardOf(s), t) == {} <==> !HasFree(s.files[t])
  {
    hide Exclusive, HoldsIn, ClientOk, ViewOf;
    FileSize(s.files[t]);
    var (free, f) := (Free(BoardOf(s), t), s.files[t]);
    if k: nat :| k < SEAT_NUM && Cell(f, k) == '0' { assert k + 1 in free; }
    if k :| k in free { assert Cell(f, k - 1) == '0'; }
  }

  lemma ShiftRefines(s: Server, i: nat, text: string, train: nat)
    requires AtWork(s, i, train) && s.clients[i].status == Shift && text != "exit"
    ensures |s.clients[i].rec.seats| == SEAT_NUM && |s.files[train].bytes| == FILE_SIZE
    ensures EffectRefines(s, i, train, Handle(s.clients[i], text, train, s.files[train]),
                          BoardInput(BoardOf(s), i, text, train))
  {
    hide BookInv, Handle, SeatList, Atoi, ParseList, Free, FileOk, HasFree, CellsWith, GoodClient;
    AtWorkIs(s, i, train);
    FileOfGood(s, train);
    GoodSizes(s.clients[i], s.files[train]);
    var (c, f) := (s.clients[i], s.files[train]);
    if n: nat :| n < TRAIN_NUM && text == ShiftOf(n) {
      ShiftNumber(n);
      ShiftIs(c, n, train, f);
      FreeIs(s, train);
      ShiftFresh(c, f);
      ListingIs(c.rec.(shiftId := 902001 + n, train := train));
    } else {
      NoShiftIs(c, text, train, f);
      CloseRefines(s, i, train, InvalidOp);
      NoneOfFive(text);
    }
  }

  lemma NoneOfFive(text: string)
    requires forall n :: 0 <= n < TRAIN_NUM ==> text != ShiftOf(n)
    ensures text !in {"902001", "902002", "902003", "902004", "902005"}
  {
    assert text != ShiftOf(0) && text != ShiftOf(1) && text != ShiftOf(2) && text != ShiftOf(3) && text != ShiftOf(4);
  }

  lemma ShiftFresh(c: Client, f: TrainFile)
    requires GoodClient(c, f) && c.status == Shift
    ensures SeatsWith(c.rec.seats, Chosen) == {} == SeatsWith(c.rec.seats, Paid)
  {
  }

  lemma SeatUpdate(seats: seq<SeatStat>, k: int, now: SeatStat, which: SeatStat)
    requires 1 <= k <= |seats|
    ensures SeatsWith(seats[k - 1 := now], which) ==
      if now == which then SeatsWith(seats, which) + {k} else SeatsWith(seats, which) - {k}
    ensures seats[k - 1] != which && now != which ==> SeatsWith(seats[k - 1 := now], which) == SeatsWith(seats, which)
  {
  }

  lemma CellUpdate(f: TrainFile, k: int, now: char, which: char)
    requires 1 <= k <= SEAT_NUM && |f.bytes| == FILE_SIZE
    ensures var g := f.(bytes := f.bytes[2 * (k - 1) := now]);
      && CellsWith(g, which) == (if now == which then CellsWith(f, which) + {k} else CellsWith(f, which) - {k})
      && (Cell(f, k - 1) != which && now != which ==> CellsWith(g, which) == CellsWith(f, which))
  {
    var g := f.(bytes := f.bytes[2 * (k - 1) := now]);
    forall j: nat | j < SEAT_NUM ensures Cell(g, j) == if j == k - 1 then now else Cell(f, j) {
    }
  }

  lemma SeatRefines(s: Server, i: nat, t: nat, text: string, train: nat)
    requires AtWork(s, i, t) && s.clients[i].status == Seat && 1 <= Atoi(text) <= SEAT_NUM
    ensures |s.clients[i].rec.seats| == SEAT_NUM && |s.files[t].bytes| == FILE_SIZE
    ensures text != "exit" && text != "pay"
    ensures EffectRefines(s, i, t, Handle(s.clients[i], text, train, s.files[t]),
                          BoardSeat(BoardOf(s), i, Atoi(text)))
  {
    hide BookInv, Handle, SeatList, Atoi, ParseList, Free, CellsWith, SeatsWith, GoodClient, ClientOk, HoldsIn;
    AtWorkIs(s, i, t);
    FileOfGood(s, t);
    var (c, f, k) := (s.clients[i], s.files[t], Atoi(text));
    GoodSizes(c, f);
    SeatNumberIs(c, text, train, f);
    var e := Handle(c, text, train, f);
    SeatFacts(c, f, k);
    FreeIs(s, t);
    ListingIs(e.client.rec);
    var (now, cell) := Entered(c.rec.seats[k - 1], Cell(f, k - 1));
    SeatUpdate(c.rec.seats, k, now, Chosen);
    SeatUpdate(c.rec.seats, k, now, Paid);
    CellUpdate(f, k, cell, '2');
    CellUpdate(f, k, cell, '1');
    FileUpdate(f, k, cell);
    assert c.rec.seats[k - 1 := c.rec.seats[k - 1]] == c.rec.seats;
    assert f.bytes[2 * (k - 1) := Cell(f, k - 1)] == f.bytes;
    assert ViewOf(c) == AtSeats(c.rec.shiftId, t, SeatsWith(c.rec.seats, Chosen), SeatsWith(c.rec.seats, Paid));
    var (b, r) := (BoardOf(s), BoardSeat(BoardOf(s), i, k));
    assert RepliesOf(e.msgs) == r.1;
    assert r.0.views == b.views[i := ViewOf(e.client)];
    assert r.0.taken == b.taken[t := CellsWith(e.file, '2')];
    assert r.0.sold == b.sold[t := CellsWith(e.file, '1')];
  }

  lemma FileUpdate(f: TrainFile, k: int, c: char)
    requires FileOk(f) && 1 <= k <= SEAT_NUM && IsCell(c)
    ensures FileOk(f.(bytes := f.bytes[2 * (k - 1) := c]))
  {
  }

  /** Membership of k in the sets of a client and of its file. */
  lemma SeatFacts(c: Client, f: TrainFile, k: int)
    requires GoodClient(c, f) && c.status == Seat && 1 <= k <= SEAT_NUM
    ensures |c.rec.seats| == SEAT_NUM && |f.bytes| == FILE_SIZE && IsCell(Cell(f, k - 1))
    ensures c.rec.train >= 0
    ensures k in SeatsWith(c.rec.seats, Chosen) <==> c.rec.seats[k - 1] == Chosen
    ensures k in SeatsWith(c.rec.seats, Paid) <==> c.rec.seats[k - 1] == Paid
    ensures k in CellsWith(f, '1') <==> Cell(f, k - 1) == '1'
    ensures k in CellsWith(f, '2') <==> Cell(f, k - 1) == '2'
    ensures c.rec.seats[k - 1] == Chosen ==> Cell(f, k - 1) == '2'
    ensures c.rec.seats[k - 1] == Paid ==> Cell(f, k - 1) == '1'
  {
    hide CountStat;
  }

  lemma PaySets(was: seq<SeatStat>, now: seq<SeatStat>, f: TrainFile, g: TrainFile)
    requires |was| == |now| == SEAT_NUM && |f.bytes| == |g.bytes| == FILE_SIZE
    requires forall k :: 0 <= k < SEAT_NUM && was[k] == Chosen ==> Cell(f, k) == '2'
    requires forall k :: 0 <= k < SEAT_NUM ==>
      if was[k] == Chosen then now[k] == Paid && Cell(g, k) == '1' else now[k] == was[k] && Cell(g, k) == Cell(f, k)
    ensures SeatsWith(now, Chosen) == {} && SeatsWith(now, Paid) == SeatsWith(was, Paid) + SeatsWith(was, Chosen)
    ensures CellsWith(g, '2') == CellsWith(f, '2') - SeatsWith(was, Chosen)
    ensures CellsWith(g, '1') == CellsWith(f, '1') + SeatsWith(was, Chosen)
  {
  }

  lemma ChosenSet(seats: seq<SeatStat>)
    ensures SeatsWith(seats, Chosen) != {} <==> HasChosen(seats)
  {
    if k: nat :| k < |seats| && seats[k] == Chosen { assert k + 1 in SeatsWith(seats, Chosen); }
    if k :| k in SeatsWith(seats, Chosen) { assert seats[k - 1] == Chosen; }
  }

  lemma PayRefines(s: Server, i: nat, t: nat, train: nat)
    requires AtWork(s, i, t) && s.clients[i].status == Seat
    ensures |s.clients[i].rec.seats| == SEAT_NUM && |s.files[t].bytes| == FILE_SIZE
    ensures EffectRefines(s, i, t, Handle(s.clients[i], "pay", train, s.files[t]), BoardPays(BoardOf(s), i))
  {
    hide BookInv, Handle, SeatList, Atoi, ParseList, CellsWith, SeatsWith, GoodClient, HasChosen, FileOk;
    AtWorkIs(s, i, t);
    FileOfGood(s, t);
    var (c, f) := (s.clients[i], s.files[t]);
    GoodSizes(c, f);
    SeatFacts(c, f, 1);
    PaymentIs(c, train, f);
    var e := Handle(c, "pay", train, f);
    FileSize(e.file);
    ChosenAreTwos(c, f);
    PaySets(c.rec.seats, e.client.rec.seats, f, e.file);
    ChosenSet(c.rec.seats);
    ListingIs(e.client.rec);
  }

  lemma ChosenAreTwos(c: Client, f: TrainFile)
    requires GoodClient(c, f) && OnBoard(c)
    ensures |c.rec.seats| == SEAT_NUM && |f.bytes| == FILE_SIZE
    ensures forall k :: 0 <= k < SEAT_NUM && c.rec.seats[k] == Chosen ==> Cell(f, k) == '2'
  {
  }

  lemma BookedRefines(s: Server, i: nat, t: nat, text: string, train: nat)
    requires AtWork(s, i, t) && s.clients[i].status == Booked && text != "exit" && train < TRAIN_NUM
    ensures |s.clients[i].rec.seats| == SEAT_NUM && |s.files[t].bytes| == FILE_SIZE
    ensures EffectRefines(s, i, t, Handle(s.clients[i], text, train, s.files[t]),
                          BoardInput(BoardOf(s), i, text, train))
  {
    hide BookInv, Handle, SeatList, Atoi, ParseList, CellsWith, SeatsWith, GoodClient, FileOk;
    AtWorkIs(s, i, t);
    FileOfGood(s, t);
    var (c, f) := (s.clients[i], s.files[t]);
    GoodSizes(c, f);
    BookedChosen(c, f);
    AfterPayingIs(c, text, train, f);
    ListingIs(c.rec);
    CloseRefines(s, i, t, InvalidOp);
  }

  lemma BookedChosen(c: Client, f: TrainFile)
    requires GoodClient(c, f) && c.status == Booked
    ensures SeatsWith(c.rec.seats, Chosen) == {} && c.rec.train >= 0
  {
    CountStatZero(c.rec.seats, Chosen, SEAT_NUM);
  }

  /** One line of input: the server does to its board what the simple server does. */
  lemma InputRefines(s: Server, i: nat, text: string, train: nat)
    requires BookInv(s) && Possible(s, Input(i, text, train))
    ensures Shaped(s) && BookInv(Next(s, Input(i, text, train)).0)
    ensures (BoardOf(Next(s, Input(i, text, train)).0), RepliesOf(Next(s, Input(i, text, train)).1))
         == BoardInput(BoardOf(s), i, text, train)
  {
    hide BookInv, Handle, ParseList, Atoi, CellsWith, SeatsWith, BoardPays, BoardSeat, GoodClient, FileOk, SeatInput;
    NextKeeps(s, Input(i, text, train));
    var c := s.clients[i];
    var t := FileOf(c, train);
    InputWork(s, i, text, train);
    var (f, e) := (s.files[t], Handle(c, text, train, s.files[t]));
    AtWorkIs(s, i, t);
    GoodSizes(c, f);
    if text == "exit" {
      ExitIs(c, train, f);
      CloseRefines(s, i, t, ClientExit);
    } else {
      match c.status {
        case Shift => ShiftRefines(s, i, text, train);
        case Booked => BookedRefines(s, i, t, text, train);
        case Seat =>
          SeatView(c, f);
          if text == "pay" { PayRefines(s, i, t, train); }
          else if Atoi(text) == 0 { ZeroRefines(s, i, t, text, train); }
          else { SeatNumber(c, text); SeatRefines(s, i, t, text, train); }
        case Invalid =>
      }
    }
    PutBoard(s, i, t, e);
  }

  lemma SeatNumber(c: Client, text: string)
    requires SeatInput(c.rec, text) && Atoi(text) != 0
    ensures 1 <= Atoi(text) <= SEAT_NUM
  {
    hide Atoi;
  }

  lemma SeatView(c: Client, f: TrainFile)
    requires GoodClient(c, f) && c.status == Seat
    ensures ViewOf(c).AtSeats?
  {
  }

  lemma InputWork(s: Server, i: nat, text: string, train: nat)
    requires BookInv(s) && Possible(s, Input(i, text, train))
    ensures var t := FileOf(s.clients[i], train);
      && 0 <= t < TRAIN_NUM && AtWork(s, i, t) && s.clients[i].status != Invalid && Shaped(s)
  {
    hide Handle, Exclusive;
    InputEffect(s, i, text, train);
  }

  lemma ZeroRefines(s: Server, i: nat, t: nat, text: string, train: nat)
    requires AtWork(s, i, t) && s.clients[i].status == Seat && text != "exit" && text != "pay"
    requires Atoi(text) == 0 && SeatInput(s.clients[i].rec, text)
    ensures |s.clients[i].rec.seats| == SEAT_NUM && |s.files[t].bytes| == FILE_SIZE && BoardOf(s).views[i].AtSeats?
    ensures EffectRefines(s, i, t, Handle(s.clients[i], text, train, s.files[t]), BoardSeat(BoardOf(s), i, 0))
  {
    hide BookInv, Handle, Atoi, CellsWith, GoodClient, FileOk;
    AtWorkIs(s, i, t);
    SeatView(s.clients[i], s.files[t]);
    GoodSizes(s.clients[i], s.files[t]);
    NoSeatIs(s.clients[i], text, train, s.files[t]);
    CloseRefines(s, i, t, InvalidOp);
  }

  /** Every event does to the board of the server what the simple server does, and answers the same. */
  lemma NextRefines(s: Server, e: Event)
    requires BookInv(s) && Possible(s, e)
    ensures Shaped(s) && BookInv(Next(s, e).0) && Concerns(|s.clients|, e)
    ensures (BoardOf(Next(s, e).0), RepliesOf(Next(s, e).1)) == BoardNext(BoardOf(s), e)
  {
    hide BookInv, OnInput, BoardInput, CellsWith, SeatsWith, ParseList;
    NextKeeps(s, e);
    if e.Input? {
      InputRefines(s, e.i, e.text, e.train);
    } else {
      SwapBoard(s, e.i, Next(s, e).0.clients[e.i]);
      assert RepliesOf(Next(s, e).1) == BoardNext(BoardOf(s), e).1;
    }
  }

  /** The board after a client was replaced by another. */
  lemma SwapBoard(s: Server, i: nat, c: Client)
    requires BookInv(s) && i < |s.clients| && BookInv(s.(clients := s.clients[i := c]))
    ensures var b := BoardOf(s); BoardOf(s.(clients := s.clients[i := c])) == b.(views := b.views[i := ViewOf(c)])
  {
    hide Exclusive, ClientOk, HoldsIn, ViewOf, CellsWith, FileOk;
    FileOfGood(s, 0);
    var (b, d) := (BoardOf(s), BoardOf(s.(clients := s.clients[i := c])));
    assert d.views == b.views[i := ViewOf(c)] && d.taken == b.taken && d.sold == b.sold;
  }

  // ---- whole runs ----

  lemma ConcernsAll(s: Server, es: seq<Event>)
    requires BookInv(s) && CanRun(s, es)
    ensures forall n :: 0 <= n < |es| ==> Concerns(|s.clients|, es[n])
    decreases |es|
  {
    hide BookInv, Next, Shaped, BoardOf;
    if es == [] {
    } else {
      NextRefines(s, es[0]);
      ConcernsAll(Next(s, es[0]).0, es[1..]);
      assert forall n :: 0 < n < |es| ==> es[n] == es[1..][n - 1];
    }
  }

  /** The log of a run with the booking infos read back. */
  function LogOf(log: seq<seq<Msg>>): seq<seq<Reply>> {
    seq(|log|, n requires 0 <= n < |log| => RepliesOf(log[n]))
  }

  /** Refinement: over any run the server goes through the boards of the simple server and gives its answers. */
  lemma {:induction false} RunRefines(s: Server, es: seq<Event>)
    requires BookInv(s) && CanRun(s, es)
    ensures BookInv(After(s, es)) && forall n :: 0 <= n < |es| ==> Concerns(|s.clients|, es[n])
    ensures BoardOf(After(s, es)) == BoardAfter(BoardOf(s), es)
    ensures LogOf(Answers(s, es)) == BoardReplies(BoardOf(s), es)
    decreases |es|
  {
    hide BookInv, Next, Shaped, BoardOf, RepliesOf, BoardNext, Concerns;
    ConcernsAll(s, es);
    RunKeeps(s, es);
    if es == [] {
    } else {
      NextRefines(s, es[0]);
      var r := Next(s, es[0]).0;
      RunRefines(r, es[1..]);
      var rest := Answers(r, es[1..]);
      assert LogOf([Next(s, es[0]).1] + rest) == [RepliesOf(Next(s, es[0]).1)] + LogOf(rest);
    }
  }

  // ---- nothing is lost ----

  lemma ClientDetermined(c: Client, d: Client)
    requires ClientOk(c) && ClientOk(d) && ViewOf(c) == ViewOf(d)
    ensures c == d
  {
    hide CountStat;
    CountStatZero(c.rec.seats, Chosen, SEAT_NUM);
    CountStatZero(d.rec.seats, Chosen, SEAT_NUM);
    if OnBoard(c) && c.connected {
      SameSeats(c.rec.seats, d.rec.seats);
    }
  }

  lemma SameSeats(a: seq<SeatStat>, b: seq<SeatStat>)
    requires |a| == |b|
    ensures SeatsWith(a, Chosen) == SeatsWith(b, Chosen) && SeatsWith(a, Paid) == SeatsWith(b, Paid) ==> a == b
    ensures a != [] && (forall k :: 0 <= k < |a| ==> a[k] != Chosen && b[k] != Chosen)
      ==> SeatsWith(a, Chosen) == SeatsWith(b, Chosen)
  {
    if SeatsWith(a, Chosen) == SeatsWith(b, Chosen) && SeatsWith(a, Paid) == SeatsWith(b, Paid) {
      forall k: nat | k < |a| ensures a[k] == b[k] {
        assert k + 1 in SeatsWith(a, Chosen) <==> k + 1 in SeatsWith(b, Chosen);
        assert k + 1 in SeatsWith(a, Paid) <==> k + 1 in SeatsWith(b, Paid);
      }
    }
  }

  lemma FileDetermined(f: TrainFile, g: TrainFile)
    requires FileOk(f) && FileOk(g) && CellsWith(f, '2') == CellsWith(g, '2') && CellsWith(f, '1') == CellsWith(g, '1')
    ensures f == g
  {
    forall k: nat | k < SEAT_NUM ensures Cell(f, k) == Cell(g, k) {
      assert k + 1 in CellsWith(f, '2') <==> k + 1 in CellsWith(g, '2');
      assert k + 1 in CellsWith(f, '1') <==> k + 1 in CellsWith(g, '1');
    }
    forall i: nat | i < FILE_SIZE ensures f.bytes[i] == g.bytes[i] {
      var k := i / 2;
      assert i == 2 * k || i == 2 * k + 1;
      assert Cell(f, k) == Cell(g, k);
    }
  }

  /** The board says everything about the server: two good servers with the same board are the same. */
  lemma BoardDetermines(s: Server, r: Server)
    requires BookInv(s) && BookInv(r) && BoardOf(s) == BoardOf(r)
    ensures s == r
  {
    hide Exclusive, ViewOf, CellsWith, FileOk, ClientOk;
    var (b, d) := (BoardOf(s), BoardOf(r));
    assert |s.clients| == |b.views| == |r.clients|;
    forall i: nat | i < |s.clients| ensures s.clients[i] == r.clients[i] {
      assert b.views[i] == ViewOf(s.clients[i]) && d.views[i] == ViewOf(r.clients[i]);
      ClientDetermined(s.clients[i], r.clients[i]);
    }
    forall t: nat | t < TRAIN_NUM ensures s.files[t] == r.files[t] {
      FileSize(s.files[t]);
      FileSize(r.files[t]);
      assert b.taken[t] == CellsWith(s.files[t], '2') && d.taken[t] == CellsWith(r.files[t], '2');
      assert b.sold[t] == CellsWith(s.files[t], '1') && d.sold[t] == CellsWith(r.files[t], '1');
      FileDetermined(s.files[t], r.files[t]);
    }
  }
}
