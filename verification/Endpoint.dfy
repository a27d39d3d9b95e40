/** One end of the tunnel: the session object, its reader loop, its pump threads,
    the forwarder that opens streams on the server, and the teardown of the reader.
    Every label of `Act` is one atomic step of one thread; any enabled label of any
    thread may come next, so the runs are exactly the interleavings. */
module Endpoint {
  import opened Frames

  datatype Role = Server | Client

  const CHUNK_SIZE := 32 * 1024

  /** Where a pump thread stands. `clean` records that recv, not a failed send, ended
      the loop; `ours` is what the exchange on the closed flag returned. */
  datatype PumpPc =
    | Unstarted
    | Receiving
    | Sending(chunk: Bytes)
    | Ended(clean: bool)
    | Settled(ours: bool, clean: bool)
    | Erased(ours: bool, clean: bool)
    | Done(ours: bool, clean: bool)
  {
    /** Past the exchange on the closed flag. */
    predicate Exchanged() { Settled? || Erased? || Done? }
  }

  /** One spliced connection: its slot in the stream table, its two flags, its pump, and
      the bytes waiting on, read from and written to its socket. */
  datatype Stream = Stream(
    inTable: bool, closed: bool, shut: bool, pump: PumpPc,
    pending: Bytes, read: Bytes, written: Bytes)

  const FRESH_STREAM := Stream(true, false, false, Unstarted, [], [], [])

  /** Where the reader loop stands. `report` says a CLOSE is still to be sent. */
  datatype ReaderPc =
    | Reading
    | Acking(target: string)
    | Dialing(id: nat, target: string)
    | Adding(id: nat)
    | Spawning(id: nat)
    | Fetching(id: nat, data: Bytes)
    | Writing(id: nat, data: Bytes)
    | Erasing(id: nat, report: bool)
    | Marking(id: nat, report: bool)
    | Shutting(id: nat, report: bool)
    | Closing(id: nat, error: string)
    | Leaving
    | Fencing
    | Swapping
    | Sweeping(todo: set<nat>)
    | SweepShutting(id: nat, todo: set<nat>)
    | Gone
  {
    /** Still inside the frame loop. */
    predicate InLoop() {
      !(Leaving? || Fencing? || Swapping? || Sweeping? || SweepShutting? || Gone?)
    }

    /** The stream table has been swapped out. */
    predicate Swapped() { Sweeping? || SweepShutting? || Gone? }
  }

  /** Where the forwarder stands with respect to this session. */
  datatype ForwarderPc =
    | Elsewhere
    | Holding(target: string)
    | Inserting(id: nat, target: string)
    | Opening(id: nat, target: string)
    | Dropping(id: nat)
    | DropMarking(id: nat)
    | DropShutting(id: nat)
    | Starting(id: nat)

  /** `listed`: the registry maps `name` to this session. `up`: not shut down and no write
      has failed. `log`: frames accepted by the stream. `got`: frames read from it. */
  datatype Side = Side(
    role: Role, name: string, streams: map<nat, Stream>,
    reader: ReaderPc, forwarder: ForwarderPc, nextId: nat,
    listed: bool, up: bool, log: Log, got: Log)

  /** The callers of Session::Send. */
  datatype Sender = Reader | Pump(id: nat) | Forwarder | KeepaliveTimer

  datatype Act =
    // reader loop: read a frame
    | Take(frame: Frame) | ReadEnds
    // reader loop: OPEN and DATA
    | Refuse | Dial | AddConn | Spawn
    | GetConn | Write(n: nat) | Wrote | WriteFails
    // reader loop: CloseConn
    | Erase | Mark | Shut
    // reader after the loop
    | Remove | Fence | Swap | SweepMark(id: nat) | SweepShut | SweepEnd
    // pump of one stream
    | Recv(id: nat, n: nat) | RecvEnds(id: nat) | Exchange(id: nat) | PumpErase(id: nat) | PumpQuiet(id: nat)
    // forwarder
    | Lookup | NextId | Insert | DropErase | DropMark | DropShut | Start
    // Session::Send on any thread, and whether the write succeeded
    | Transmit(sender: Sender, ok: bool)
    // the outside world
    | Arrive(id: nat, bytes: Bytes) | Displace

  predicate Held(me: Side, id: nat) {
    id in me.streams && me.streams[id].inTable
  }

  function With(me: Side, id: nat, st: Stream): Side {
    me.(streams := me.streams[id := st])
  }

  function AfterClose(id: nat, report: bool): ReaderPc {
    if report then Closing(id, "local write failed") else Reading
  }

  // ---------------------------------------------------------------- reader

  /** What the frame loop does with a frame it has just read. */
  function Dispatch(me: Side, f: Frame): Side {
    match f
    case Register(t) =>
      if me.role.Server? then me.(name := t, listed := true, reader := Acking(t)) else me
    case Open(id, t) => if me.role.Client? then me.(reader := Dialing(id, t)) else me
    case Data(id, bytes) => me.(reader := Fetching(id, bytes))
    case Close(id, _) => me.(reader := Erasing(id, false))
    case _ => me
  }

  predicate CanRead(me: Side, a: Act) {
    match a
    case Take(_) => me.reader.Reading?
    case ReadEnds => me.reader.Reading?
    case _ => false
  }

  /** stream->Read: the next frame, or the end of the stream. */
  function DoRead(me: Side, a: Act): (next: Side)
    requires CanRead(me, a)
    ensures next.role == me.role && next.streams == me.streams && next.log == me.log
    ensures next.forwarder == me.forwarder && next.nextId == me.nextId
    ensures next.got == if a.Take? then Append(me.got, a.frame) else me.got
  {
    match a
    case Take(f) => Dispatch(me.(got := Append(me.got, f)), f)
    case ReadEnds => me.(reader := Leaving)
  }

  predicate CanServe(me: Side, a: Act) {
    match a
    case Refuse => me.reader.Dialing?
    case Dial => me.reader.Dialing? && (me.reader.target == "" || me.reader.target == me.name)
    case AddConn => me.reader.Adding?
    case Spawn => me.reader.Spawning? && me.reader.id in me.streams
    case GetConn => me.reader.Fetching?
    case Write(n) => me.reader.Writing? && me.reader.id in me.streams && 0 < n <= |me.reader.data|
    case Wrote => me.reader.Writing? && me.reader.data == []
    case WriteFails => me.reader.Writing? && me.reader.data != []
    case _ => false
  }

  /** Serve an OPEN or a DATA frame. */
  function DoServe(me: Side, a: Act): (next: Side)
    requires CanServe(me, a)
    ensures next.role == me.role && next.log == me.log && next.got == me.got && next.forwarder == me.forwarder
    ensures next.nextId == me.nextId
  {
    match a
    case Refuse =>
      me.(reader := Closing(me.reader.id,
          if me.reader.target == "" || me.reader.target == me.name then "local dial failed" else "target mismatch"))
    case Dial => me.(reader := Adding(me.reader.id))
    case AddConn => With(me, me.reader.id, FRESH_STREAM).(reader := Spawning(me.reader.id))
    case Spawn =>
      With(me, me.reader.id, me.streams[me.reader.id].(pump := Receiving)).(reader := Reading)
    case GetConn =>
      if Held(me, me.reader.id) then me.(reader := Writing(me.reader.id, me.reader.data))
      else me.(reader := Closing(me.reader.id, ""))
    case Write(n) =>
      var st := me.streams[me.reader.id];
      With(me, me.reader.id, st.(written := st.written + me.reader.data[..n]))
        .(reader := Writing(me.reader.id, me.reader.data[n..]))
    case Wrote => me.(reader := Reading)
    case WriteFails => me.(reader := Erasing(me.reader.id, true))
  }

  predicate CanCloseConn(me: Side, a: Act) {
    match a
    case Erase => me.reader.Erasing?
    case Mark => me.reader.Marking? && me.reader.id in me.streams
    case Shut => me.reader.Shutting? && me.reader.id in me.streams
    case _ => false
  }

  /** Session::CloseConn on the reader thread: three steps. */
  function DoCloseConn(me: Side, a: Act): (next: Side)
    requires CanCloseConn(me, a)
    ensures next.role == me.role && next.log == me.log && next.got == me.got && next.forwarder == me.forwarder
    ensures next.nextId == me.nextId
  {
    match a
    case Erase =>
      if Held(me, me.reader.id) then
        With(me, me.reader.id, me.streams[me.reader.id].(inTable := false))
          .(reader := Marking(me.reader.id, me.reader.report))
      else me.(reader := AfterClose(me.reader.id, me.reader.report))
    case Mark =>
      With(me, me.reader.id, me.streams[me.reader.id].(closed := true))
        .(reader := Shutting(me.reader.id, me.reader.report))
    case Shut =>
      With(me, me.reader.id, me.streams[me.reader.id].(shut := true))
        .(reader := AfterClose(me.reader.id, me.reader.report))
  }

  predicate CanLeave(me: Side, a: Act) {
    match a
    case Remove => me.reader.Leaving?
    case Fence => me.reader.Fencing?
    case Swap => me.reader.Swapping?
    case SweepMark(id) => me.reader.Sweeping? && id in me.reader.todo && id in me.streams
    case SweepShut => me.reader.SweepShutting? && me.reader.id in me.streams
    case SweepEnd => me.reader.Sweeping? && me.reader.todo == {}
    case _ => false
  }

  /** After the loop: Remove, Shutdown, CloseAll. */
  function DoLeave(me: Side, a: Act): (next: Side)
    requires CanLeave(me, a)
    ensures next.role == me.role && next.log == me.log && next.got == me.got && next.forwarder == me.forwarder
    ensures next.nextId == me.nextId
  {
    match a
    case Remove => me.(listed := false, reader := Fencing)
    case Fence => me.(up := false, reader := Swapping)
    case Swap =>
      me.(reader := Sweeping(set id | id in me.streams && me.streams[id].inTable),
          streams := map id | id in me.streams :: me.streams[id].(inTable := false))
    case SweepMark(id) =>
      With(me, id, me.streams[id].(closed := true)).(reader := SweepShutting(id, me.reader.todo - {id}))
    case SweepShut =>
      With(me, me.reader.id, me.streams[me.reader.id].(shut := true)).(reader := Sweeping(me.reader.todo))
    case SweepEnd => me.(reader := Gone)
  }

  // ------------------------------------------------------------------ pump

  predicate CanPump(me: Side, a: Act) {
    match a
    case Recv(id, n) =>
      id in me.streams && me.streams[id].pump.Receiving? && 0 < n <= |me.streams[id].pending| && n <= CHUNK_SIZE
    case RecvEnds(id) => id in me.streams && me.streams[id].pump.Receiving?
    case Exchange(id) => id in me.streams && me.streams[id].pump.Ended?
    case PumpErase(id) => id in me.streams && me.streams[id].pump.Settled?
    case PumpQuiet(id) => id in me.streams && me.streams[id].pump.Erased? && !me.streams[id].pump.ours
    case _ => false
  }

  function DoPump(me: Side, a: Act): (next: Side)
    requires CanPump(me, a)
    ensures next == me.(streams := next.streams)
  {
    match a
    case Recv(id, n) =>
      var st := me.streams[id];
      With(me, id, st.(pump := Sending(st.pending[..n]), pending := st.pending[n..], read := st.read + st.pending[..n]))
    case RecvEnds(id) => With(me, id, me.streams[id].(pump := Ended(true)))
    case Exchange(id) =>
      var st := me.streams[id];
      With(me, id, st.(closed := true, pump := Settled(!st.closed, st.pump.clean)))
    case PumpErase(id) =>
      var st := me.streams[id];
      With(me, id, st.(inTable := false, pump := Erased(st.pump.ours, st.pump.clean)))
    case PumpQuiet(id) => With(me, id, me.streams[id].(pump := Done(false, me.streams[id].pump.clean)))
  }

  // -------------------------------------------------------------- forwarder

  predicate CanOther(me: Side, a: Act) {
    match a
    case Lookup => me.role.Server? && me.forwarder.Elsewhere? && me.listed
    case NextId => me.forwarder.Holding?
    case Insert => me.forwarder.Inserting?
    case DropErase => me.forwarder.Dropping?
    case DropMark => me.forwarder.DropMarking? && me.forwarder.id in me.streams
    case DropShut => me.forwarder.DropShutting? && me.forwarder.id in me.streams
    case Start => me.forwarder.Starting? && me.forwarder.id in me.streams
    case Arrive(id, bytes) => id in me.streams
    case Displace => me.role.Server?
    case _ => false
  }

  function DoOther(me: Side, a: Act): (next: Side)
    requires CanOther(me, a)
    ensures next.role == me.role && next.log == me.log && next.got == me.got && next.reader == me.reader
  {
    match a
    case Lookup => me.(forwarder := Holding(me.name))
    case NextId => me.(nextId := me.nextId + 1, forwarder := Inserting(me.nextId, me.forwarder.target))
    case Insert =>
      With(me, me.forwarder.id, FRESH_STREAM).(forwarder := Opening(me.forwarder.id, me.forwarder.target))
    case DropErase =>
      if Held(me, me.forwarder.id) then
        With(me, me.forwarder.id, me.streams[me.forwarder.id].(inTable := false))
          .(forwarder := DropMarking(me.forwarder.id))
      else me.(forwarder := Elsewhere)
    case DropMark =>
      With(me, me.forwarder.id, me.streams[me.forwarder.id].(closed := true))
        .(forwarder := DropShutting(me.forwarder.id))
    case DropShut =>
      With(me, me.forwarder.id, me.streams[me.forwarder.id].(shut := true)).(forwarder := Elsewhere)
    case Start =>
      With(me, me.forwarder.id, me.streams[me.forwarder.id].(pump := Receiving)).(forwarder := Elsewhere)
    case Arrive(id, bytes) =>
      With(me, id, me.streams[id].(pending := me.streams[id].pending + bytes))
    case Displace => me.(listed := false)
  }

  // ------------------------------------------------------------------ send

  /** A thread is about to call Session::Send. */
  predicate Sends(me: Side, s: Sender) {
    match s
    case Reader => me.reader.Closing? || me.reader.Acking?
    case Pump(id) =>
      && id in me.streams
      && (me.streams[id].pump.Sending? || (me.streams[id].pump.Erased? && me.streams[id].pump.ours))
    case Forwarder => me.forwarder.Opening?
    case KeepaliveTimer => me.role.Client?
  }

  /** The frame it sends. */
  function Outgoing(me: Side, s: Sender): Frame
    requires Sends(me, s)
  {
    match s
    case Reader =>
      if me.reader.Closing? then Close(me.reader.id, me.reader.error) else RegisterAck(me.reader.target)
    case Pump(id) =>
      if me.streams[id].pump.Sending? then Data(id, me.streams[id].pump.chunk) else Close(id, "")
    case Forwarder => Open(me.forwarder.id, me.forwarder.target)
    case KeepaliveTimer => Keepalive
  }

  /** Where the call returns to. */
  function AfterSend(me: Side, s: Sender, ok: bool): Side
    requires Sends(me, s)
  {
    match s
    case Reader => me.(reader := Reading)
    case Pump(id) =>
      var st := me.streams[id];
      With(me, id, st.(pump :=
        if st.pump.Erased? then Done(true, st.pump.clean) else if ok then Receiving else Ended(false)))
    case Forwarder =>
      me.(forwarder := if ok then Starting(me.forwarder.id) else Dropping(me.forwarder.id))
    case KeepaliveTimer => me
  }

  predicate CanTransmit(me: Side, a: Act) {
    a.Transmit? && Sends(me, a.sender) && (a.ok ==> me.up)
  }

  /** Session::Send. A failed write is sticky: the session is broken from then on. */
  function DoTransmit(me: Side, a: Act): (next: Side)
    requires CanTransmit(me, a)
    ensures next.role == me.role && next.got == me.got
    ensures next.log == if a.ok then Append(me.log, Outgoing(me, a.sender)) else me.log
  {
    var next := AfterSend(me, a.sender, a.ok);
    if a.ok then next.(log := Append(me.log, Outgoing(me, a.sender))) else next.(up := false)
  }

  predicate Can(me: Side, a: Act) {
    CanRead(me, a) || CanServe(me, a) || CanCloseConn(me, a) || CanLeave(me, a) ||
    CanPump(me, a) || CanOther(me, a) || CanTransmit(me, a)
  }

  /** Only the reader's Read extends what was got, only a successful Send extends the log. */
  function Do(me: Side, a: Act): (next: Side)
    requires Can(me, a)
    ensures next.role == me.role
    ensures next.got == if a.Take? then Append(me.got, a.frame) else me.got
    ensures next.log == if a.Transmit? && a.ok then Append(me.log, Outgoing(me, a.sender)) else me.log
  {
    if CanRead(me, a) then DoRead(me, a)
    else if CanServe(me, a) then DoServe(me, a)
    else if CanCloseConn(me, a) then DoCloseConn(me, a)
    else if CanLeave(me, a) then DoLeave(me, a)
    else if CanPump(me, a) then DoPump(me, a)
    else if CanOther(me, a) then DoOther(me, a)
    else DoTransmit(me, a)
  }

  /** A server before any frame, and a client that has just sent its REGISTER. */
  function NewServer(): Side {
    Side(Server, "", map[], Reading, Elsewhere, 1, false, true, Empty, Empty)
  }

  function NewClient(name: string): Side {
    Side(Client, name, map[], Reading, Elsewhere, 1, false, true, Append(Empty, Register(name)), Empty)
  }
}
