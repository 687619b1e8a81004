/** The write server of server.c over values: clients with their seat records, and the train files.
    One event is one connection, one disconnection (or timeout), or one line of input. */
module Booking {
  const SEAT_NUM := 40
  const TRAIN_NUM := 5
  const FILE_SIZE := 80

  datatype Status = Invalid | Shift | Seat | Booked

  datatype SeatStat = Unknown | Chosen | Paid

  /** `train` is the index of the train whose file is `train_fd`, or -1. */
  datatype Record = Record(shiftId: int, train: int, chosenCount: int, seats: seq<SeatStat>)

  datatype Client = Client(connected: bool, status: Status, rec: Record)

  datatype TrainFile = TrainFile(bytes: seq<char>, pos: nat)

  datatype Server = Server(clients: seq<Client>, files: seq<TrainFile>)

  /** The answers to a client. */
  datatype Msg =
    | Welcome | ShiftPrompt | SeatPrompt | SeatOrExitPrompt
    | ClientExit | InvalidOp | FullyBooked | NoSeatToPay | BookingDone | SeatTaken | Locked | Cancelled
    | Info(shiftId: int, chosen: string, paid: string)

  datatype Event =
    | Connect(i: nat)
    | Disconnect(i: nat)
    | Input(i: nat, text: string, train: nat)

  // ---- numbers as text ----

  predicate IsDigit(c: char) { '0' <= c <= '9' }

  predicate IsSpace(c: char) { c == ' ' || '\t' <= c <= '\r' }

  function DigitsValue(s: string, acc: nat): nat {
    if s == [] || !IsDigit(s[0]) then acc
    else DigitsValue(s[1..], acc * 10 + (s[0] as int - '0' as int))
  }

  /** atoi: white space, a sign, then digits up to the first other character. */
  function Atoi(s: string): int {
    if s == [] then 0
    else if IsSpace(s[0]) then Atoi(s[1..])
    else if s[0] == '-' then -(DigitsValue(s[1..], 0) as int)
    else if s[0] == '+' then DigitsValue(s[1..], 0)
    else DigitsValue(s, 0)
  }

  /** A number as printf("%d") writes it. */
  function Decimal(n: nat): string {
    if n < 10 then [('0' as int + n) as char] else Decimal(n / 10) + [('0' as int + n % 10) as char]
  }

  // ---- files ----

  function Lseek(f: TrainFile, pos: nat): TrainFile {
    f.(pos := pos)
  }

  /** write of one byte; a write at or beyond the end fills the gap with zero bytes. */
  function WriteByte(f: TrainFile, c: char): TrainFile {
    var bytes := if f.pos < |f.bytes| then f.bytes else f.bytes + seq(f.pos + 1 - |f.bytes|, _ => '\0');
    TrainFile(bytes[f.pos := c], f.pos + 1)
  }

  /** The place of a seat (counted from 1) in its file. */
  function Offset(seat: nat): nat
    requires seat >= 1
  {
    (seat - 1) / 4 * 8 + (seat - 1) % 4 * 2
  }

  /** checkCurr on a seat within the file: 0 free, 1 paid, 2 chosen, -1 anything else; the file ends at position 0. */
  function CheckCurr(f: TrainFile, seat: nat): (TrainFile, int)
    requires 1 <= seat && Offset(seat) < |f.bytes|
  {
    var c := f.bytes[Offset(seat)];
    (Lseek(f, 0), if c == '0' then 0 else if c == '1' then 1 else if c == '2' then 2 else -1)
  }

  /** The text up to the first zero byte. */
  function CString(s: seq<char>): seq<char> {
    if s == [] || s[0] == '\0' then [] else [s[0]] + CString(s[1..])
  }

  function Min(a: nat, b: nat): nat {
    if a < b then a else b
  }

  /** occupied: one read of at most 1023 bytes from the current position, then back to the start. */
  function Occupied(f: TrainFile): (TrainFile, int) {
    var from := Min(f.pos, |f.bytes|);
    var read := CString(f.bytes[from..Min(from + 1023, |f.bytes|)]);
    (Lseek(f, 0), if '0' in read then 0 else 1)
  }

  /** Seek to the seat, write, seek back. */
  function WriteSeat(f: TrainFile, seat: nat, c: char): TrainFile
    requires seat >= 1
  {
    Lseek(WriteByte(Lseek(f, Offset(seat)), c), 0)
  }

  // ---- booking info ----

  /** The comma-separated numbers of the first k seats with the given status, as print_train_info builds them. */
  function SeatList(seats: seq<SeatStat>, which: SeatStat, k: nat): string
    requires k <= |seats|
  {
    if k == 0 then ""
    else
      var before := SeatList(seats, which, k - 1);
      if seats[k - 1] != which then before
      else before + (if before == "" then "" else ",") + Decimal(k)
  }

  function TrainInfo(rec: Record): Msg
    requires |rec.seats| == SEAT_NUM
  {
    Info(rec.shiftId, SeatList(rec.seats, Chosen, SEAT_NUM), SeatList(rec.seats, Paid, SEAT_NUM))
  }

  // ---- requests ----

  function FreshRecord(): Record {
    Record(-1, -1, 0, seq(SEAT_NUM, _ => Unknown))
  }

  /** close, free_record and free_request. */
  function ClosedClient(): Client {
    Client(false, Invalid, FreshRecord())
  }

  /** What one line of input does to the client and to the file of train index `t`. */
  datatype Effect = Effect(client: Client, file: TrainFile, msgs: seq<Msg>)

  predicate IsShiftId(text: string) {
    text == "902001" || text == "902002" || text == "902003" || text == "902004" || text == "902005"
  }

  /** The client gets the train, and its file has been read once more. */
  function TakeTrain(c: Client, shiftId: int, train: nat, f: TrainFile): Effect
    requires |c.rec.seats| == SEAT_NUM
  {
    var rec := c.rec.(shiftId := shiftId, train := train);
    Effect(c.(rec := rec, status := Seat), Occupied(f).0, [TrainInfo(rec), SeatPrompt])
  }

  /** The shift choice; the file is that of the train that the shift stands for. */
  function OnShift(c: Client, text: string, train: nat, f: TrainFile): Effect
    requires |c.rec.seats| == SEAT_NUM
  {
    if !IsShiftId(text) then Effect(ClosedClient(), f, [InvalidOp])
    else
      var r := Occupied(f);
      if r.1 != 0 then Effect(c, r.0, [FullyBooked, ShiftPrompt])
      else TakeTrain(c, Atoi(text), train, r.0)
  }

  function OnBooked(c: Client, text: string, f: TrainFile): Effect
    requires |c.rec.seats| == SEAT_NUM
  {
    if text == "seat" then Effect(c.(status := Seat), f, [TrainInfo(c.rec), SeatPrompt])
    else Effect(ClosedClient(), f, [InvalidOp])
  }

  /** One turn of the loop that pays: seat index j. */
  function PaySeat(c: Client, f: TrainFile, j: nat): (Client, TrainFile)
    requires j < |c.rec.seats|
  {
    if c.rec.seats[j] == Chosen then
      (c.(status := Booked, rec := c.rec.(seats := c.rec.seats[j := Paid], chosenCount := c.rec.chosenCount - 1)),
       WriteSeat(f, j + 1, '1'))
    else (c, f)
  }

  function PayFrom(c: Client, f: TrainFile, j: nat): (r: (Client, TrainFile))
    requires j <= SEAT_NUM == |c.rec.seats|
    ensures |r.0.rec.seats| == SEAT_NUM
    decreases |c.rec.seats| - j
  {
    if j == SEAT_NUM then (c, f)
    else
      var (c1, f1) := PaySeat(c, f, j);
      PayFrom(c1, f1, j + 1)
  }

  function OnPay(c: Client, f: TrainFile): Effect
    requires |c.rec.seats| == SEAT_NUM
  {
    if c.rec.chosenCount == 0 then Effect(c, f, [NoSeatToPay, TrainInfo(c.rec), SeatPrompt])
    else
      var (c1, f1) := PayFrom(c, Lseek(f, 0), 0);
      Effect(c1, f1, [BookingDone, TrainInfo(c1.rec), SeatOrExitPrompt])
  }

  /** addORcancel: 0 to cancel, 1 to add. For seat 0 the word read is the one in front of the seats in the record, the
      count of chosen seats; CHOSEN is the number 1. */
  function AddOrCancel(rec: Record, seat: nat): int
    requires seat <= |rec.seats|
  {
    var chosen := if seat == 0 then rec.chosenCount == 1 else rec.seats[seat - 1] == Chosen;
    if chosen then 0 else 1
  }

  /** A seat input that the record can be asked about: a seat, or 0 when that does not look like a chosen seat. */
  predicate SeatInput(rec: Record, text: string) {
    var seat := Atoi(text);
    1 <= seat <= SEAT_NUM || (seat == 0 && rec.chosenCount != 1)
  }

  function ChooseSeat(c: Client, f: TrainFile, seat: nat): Effect
    requires 1 <= seat <= SEAT_NUM == |c.rec.seats|
  {
    var rec := c.rec.(seats := c.rec.seats[seat - 1 := Chosen], chosenCount := c.rec.chosenCount + 1);
    Effect(c.(rec := rec), WriteSeat(f, seat, '2'), [TrainInfo(rec), SeatPrompt])
  }

  function CancelSeat(c: Client, f: TrainFile, seat: nat): Effect
    requires 1 <= seat <= SEAT_NUM == |c.rec.seats|
  {
    var rec := c.rec.(seats := c.rec.seats[seat - 1 := Unknown], chosenCount := c.rec.chosenCount - 1);
    Effect(c.(rec := rec), WriteSeat(f, seat, '0'), [Cancelled, TrainInfo(rec), SeatPrompt])
  }

  function OnSeat(c: Client, text: string, f: TrainFile): Effect
    requires |c.rec.seats| == SEAT_NUM && SeatInput(c.rec, text) && |f.bytes| >= FILE_SIZE
  {
    var seat := Atoi(text);
    if AddOrCancel(c.rec, seat) == 0 then CancelSeat(c, f, seat)
    else if seat == 0 then Effect(ClosedClient(), f, [InvalidOp])
    else
      var (f1, curr) := CheckCurr(f, seat);
      if curr == 0 then ChooseSeat(c, f1, seat)
      else if curr == 1 then Effect(c, f1, [SeatTaken, SeatPrompt])
      else if curr == 2 then Effect(c, f1, [Locked, SeatPrompt])
      else Effect(ClosedClient(), f1, [])
  }

  /** Which train file a request works on: the client's own once it has one, before that the one its shift selects. */
  function FileOf(c: Client, train: nat): int {
    if c.status == Shift then train else c.rec.train
  }

  /** One line of input of a connected client. */
  function Handle(c: Client, text: string, train: nat, f: TrainFile): Effect
    requires |c.rec.seats| == SEAT_NUM && |f.bytes| >= FILE_SIZE
    requires c.status == Seat && text != "exit" && text != "pay" ==> SeatInput(c.rec, text)
  {
    if text == "exit" then Effect(ClosedClient(), f, [ClientExit])
    else
      match c.status
      case Shift => OnShift(c, text, train, f)
      case Booked => OnBooked(c, text, f)
      case Seat => if text == "pay" then OnPay(c, f) else OnSeat(c, text, f)
      case Invalid => Effect(c, f, [])
  }

  // ---- runs ----

  ghost predicate Shaped(s: Server) {
    && |s.files| == TRAIN_NUM
    && (forall t :: 0 <= t < TRAIN_NUM ==> |s.files[t].bytes| >= FILE_SIZE)
    && (forall i :: 0 <= i < |s.clients| ==>
          && |s.clients[i].rec.seats| == SEAT_NUM
          && (s.clients[i].status == Seat || s.clients[i].status == Booked ==> 0 <= s.clients[i].rec.train < TRAIN_NUM))
  }

  /** The events that can happen: a new connection gets a free descriptor, and a seat number is one of the prompt's. */
  ghost predicate Possible(s: Server, e: Event) {
    match e
    case Connect(i) => i < |s.clients| && !s.clients[i].connected
    case Disconnect(i) => i < |s.clients| && s.clients[i].connected
    case Input(i, text, train) =>
      && i < |s.clients| && s.clients[i].connected && s.clients[i].status != Invalid && train < TRAIN_NUM
      && (s.clients[i].status == Seat && text != "exit" && text != "pay" ==> SeatInput(s.clients[i].rec, text))
  }

  /** Put the effect of a request on client i and on the file of train t into the server. */
  function Put(s: Server, i: nat, t: nat, e: Effect): Server
    requires i < |s.clients| && t < |s.files|
  {
    Server(s.clients[i := e.client], s.files[t := e.file])
  }

  function OnInput(s: Server, i: nat, text: string, train: nat): (Server, seq<Msg>)
    requires Shaped(s) && Possible(s, Input(i, text, train))
  {
    var t := FileOf(s.clients[i], train);
    var e := Handle(s.clients[i], text, train, s.files[t]);
    (Put(s, i, t, e), e.msgs)
  }

  /** The next state, and what the client is sent. */
  function Next(s: Server, e: Event): (Server, seq<Msg>)
    requires Shaped(s) && Possible(s, e)
  {
    match e
    case Connect(i) =>
      (s.(clients := s.clients[i := s.clients[i].(connected := true, status := Shift)]), [Welcome, ShiftPrompt])
    case Disconnect(i) => (s.(clients := s.clients[i := ClosedClient()]), [])
    case Input(i, text, train) => OnInput(s, i, text, train)
  }
}
