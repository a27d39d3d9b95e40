/** CLOSE frames cannot breed: their number is bounded by what caused them, and once the
    sockets fall silent every remaining step uses up a finite budget of work. */
module CloseStorm {
  import opened Frames
  import opened Endpoint
  import opened EndpointInvariant
  import opened Tunnel

  // ------------------------------------------------------------ close budget

  function AllCloses(log: Log): nat {
    match log
    case Empty => 0
    case Append(front, f) => AllCloses(front) + if f.Close? then 1 else 0
  }

  function Datas(log: Log): nat {
    match log
    case Empty => 0
    case Append(front, f) => Datas(front) + if f.Data? then 1 else 0
  }

  /** The streams whose pump thread has exited. */
  function Exited(me: Side): set<nat> {
    set id | id in me.streams && me.streams[id].pump.Done?
  }

  /** The frame in the reader's hand may still cost a CLOSE. */
  function Owed(pc: ReaderPc): nat {
    match pc
    case Dialing(_, _) => 1
    case Fetching(_, _) => 1
    case Writing(_, _) => 1
    case Erasing(_, report) => if report then 1 else 0
    case Marking(_, report) => if report then 1 else 0
    case Shutting(_, report) => if report then 1 else 0
    case Closing(_, _) => 1
    case _ => 0
  }

  ghost predicate WithinBudget(me: Side) {
    AllCloses(me.log) + Owed(me.reader) <= Opens(me.got) + Datas(me.got) + |Exited(me)|
  }

  lemma ServeKeepsExits(me: Side, a: Act, id: nat)
    requires ReaderOk(me) && CanServe(me, a) && id in Exited(me)
    ensures id in Exited(DoServe(me, a))
  {
  }

  lemma CloseConnKeepsExits(me: Side, a: Act, id: nat)
    requires CanCloseConn(me, a) && id in Exited(me)
    ensures id in Exited(DoCloseConn(me, a))
  {
  }

  lemma LeaveKeepsExits(me: Side, a: Act, id: nat)
    requires CanLeave(me, a) && id in Exited(me)
    ensures id in Exited(DoLeave(me, a))
  {
  }

  lemma PumpKeepsExits(me: Side, a: Act, id: nat)
    requires CanPump(me, a) && id in Exited(me)
    ensures id in Exited(DoPump(me, a))
  {
  }

  lemma OtherKeepsExits(me: Side, a: Act, id: nat)
    requires ForwarderOk(me) && CanOther(me, a) && id in Exited(me)
    ensures id in Exited(DoOther(me, a))
  {
  }

  lemma TransmitKeepsExits(me: Side, a: Act, id: nat)
    requires CanTransmit(me, a) && id in Exited(me)
    ensures id in Exited(DoTransmit(me, a))
  {
  }

  lemma ExitIsFinal(me: Side, a: Act, id: nat)
    requires ReaderOk(me) && ForwarderOk(me) && Can(me, a) && id in Exited(me)
    ensures id in Exited(Do(me, a))
  {
    if CanRead(me, a) {
    } else if CanServe(me, a) {
      ServeKeepsExits(me, a, id);
    } else if CanCloseConn(me, a) {
      CloseConnKeepsExits(me, a, id);
    } else if CanLeave(me, a) {
      LeaveKeepsExits(me, a, id);
    } else if CanPump(me, a) {
      PumpKeepsExits(me, a, id);
    } else if CanOther(me, a) {
      OtherKeepsExits(me, a, id);
    } else {
      TransmitKeepsExits(me, a, id);
    }
  }

  lemma SubsetSize(a: set<nat>, b: set<nat>)
    requires a <= b
    ensures |a| <= |b|
  {
    assert b == a + (b - a);
  }

  lemma ExitsGrow(me: Side, a: Act)
    requires ReaderOk(me) && ForwarderOk(me) && Can(me, a)
    ensures Exited(me) <= Exited(Do(me, a))
    ensures |Exited(me)| <= |Exited(Do(me, a))|
  {
    forall id | id in Exited(me)
      ensures id in Exited(Do(me, a))
    {
      ExitIsFinal(me, a, id);
    }
    SubsetSize(Exited(me), Exited(Do(me, a)));
  }

  /** Away from the two ends of the stream, the reader never comes to owe more. */
  lemma ServingOwesNoMore(me: Side, a: Act)
    requires CanServe(me, a)
    ensures Owed(DoServe(me, a).reader) <= Owed(me.reader)
  {
  }

  lemma ClosingOwesNoMore(me: Side, a: Act)
    requires CanCloseConn(me, a)
    ensures Owed(DoCloseConn(me, a).reader) <= Owed(me.reader)
  {
  }

  lemma LeavingOwesNothing(me: Side, a: Act)
    requires CanLeave(me, a)
    ensures Owed(DoLeave(me, a).reader) == 0
  {
  }

  lemma OwedShrinks(me: Side, a: Act)
    requires Can(me, a) && !CanRead(me, a) && !a.Transmit?
    ensures Owed(Do(me, a).reader) <= Owed(me.reader)
  {
    if CanServe(me, a) {
      ServingOwesNoMore(me, a);
    } else if CanCloseConn(me, a) {
      ClosingOwesNoMore(me, a);
    } else if CanLeave(me, a) {
      LeavingOwesNothing(me, a);
    }
  }

  lemma TransmitExits(me: Side, a: Act)
    requires CanTransmit(me, a)
    ensures |Exited(DoTransmit(me, a))| ==
            |Exited(me)| + if a.sender.Pump? && me.streams[a.sender.id].pump.Erased? then 1 else 0
  {
    var me' := DoTransmit(me, a);
    if a.sender.Pump? && me.streams[a.sender.id].pump.Erased? {
      assert Exited(me') == Exited(me) + {a.sender.id};
    } else {
      assert Exited(me') == Exited(me);
    }
  }

  lemma TransmitStaysWithinBudget(me: Side, a: Act)
    requires CanTransmit(me, a) && WithinBudget(me)
    ensures WithinBudget(DoTransmit(me, a))
  {
    TransmitExits(me, a);
  }

  lemma ReadStaysWithinBudget(me: Side, a: Act)
    requires CanRead(me, a) && WithinBudget(me)
    ensures WithinBudget(DoRead(me, a))
  {
    assert Exited(DoRead(me, a)) == Exited(me);
  }

  lemma StepStaysWithinBudget(me: Side, a: Act)
    requires ReaderOk(me) && ForwarderOk(me) && Can(me, a) && WithinBudget(me)
    ensures WithinBudget(Do(me, a))
  {
    if CanRead(me, a) {
      ReadStaysWithinBudget(me, a);
    } else if a.Transmit? {
      TransmitStaysWithinBudget(me, a);
    } else {
      OwedShrinks(me, a);
      ExitsGrow(me, a);
    }
  }

  lemma {:induction false} RunStaysWithinBudget(s: System, run: seq<Label>, t: System)
    requires SystemInv(s) && Leads(s, run, t) && WithinBudget(s.server) && WithinBudget(s.client)
    ensures WithinBudget(t.server) && WithinBudget(t.client)
    decreases run
  {
    if run != [] {
      StepKeepsSystemInv(s, run[0]);
      match run[0] {
        case AtServer(a) => StepStaysWithinBudget(s.server, a);
        case AtClient(a) => StepStaysWithinBudget(s.client, a);
      }
      RunStaysWithinBudget(After(s, run[0]), run[1..], t);
    }
  }

  /** No end ever sends more CLOSEs than it has read OPENs and DATAs and lost pumps. */
  lemma ClosesAreCaused(name: string, run: seq<Label>, t: System)
    requires Leads(Initial(name), run, t)
    ensures AllCloses(t.server.log) <= Opens(t.server.got) + Datas(t.server.got) + |Exited(t.server)|
    ensures AllCloses(t.client.log) <= Opens(t.client.got) + Datas(t.client.got) + |Exited(t.client)|
  {
    var s := Initial(name);
    NewEndsSatisfyInv(name);
    assert AllCloses(s.client.log.front) == 0;
    RunStaysWithinBudget(s, run, t);
  }

  // ------------------------------------------------------------------ drain

  /** The work a frame in flight can still cause. */
  function FrameWork(f: Frame): nat {
    match f
    case Open(_, _) => 24
    case Data(_, bytes) => |bytes| + 14
    case Close(_, _) => 5
    case Register(_) => 5
    case _ => 1
  }

  function LogWork(log: Log): nat {
    match log
    case Empty => 0
    case Append(front, f) => LogWork(front) + FrameWork(f)
  }

  function ReaderWork(pc: ReaderPc): nat {
    match pc
    case Acking(_) => 4
    case Dialing(_, _) => 20
    case Adding(_) => 19
    case Spawning(_) => 2
    case Fetching(_, bytes) => |bytes| + 13
    case Writing(_, bytes) => |bytes| + 12
    case Erasing(_, report) => if report then 11 else 4
    case Marking(_, report) => if report then 10 else 3
    case Shutting(_, report) => if report then 9 else 2
    case Closing(_, _) => 7
    case _ => 0
  }

  function ForwarderWork(pc: ForwarderPc): nat {
    match pc
    case Elsewhere => 0
    case Holding(_) => 50
    case Inserting(_, _) => 49
    case Opening(_, _) => 38
    case Dropping(_) => 5
    case DropMarking(_) => 4
    case DropShutting(_) => 3
    case Starting(_) => 2
  }

  function StreamWork(st: Stream): nat {
    17 * |st.pending| +
    match st.pump
    case Unstarted => 10
    case Receiving => 9
    case Sending(chunk) => |chunk| + 24
    case Ended(_) => 8
    case Settled(_, _) => 7
    case Erased(_, _) => 6
    case Done(_, _) => 0
  }

  function WorkAt(streams: map<nat, Stream>, id: int): nat {
    if id >= 0 && id in streams then StreamWork(streams[id]) else 0
  }

  /** The work of the streams 1..n. */
  function StreamsWork(streams: map<nat, Stream>, n: nat): nat {
    if n == 0 then 0 else StreamsWork(streams, n - 1) + WorkAt(streams, n)
  }

  lemma {:induction false} OneStreamChanges(before: map<nat, Stream>, after: map<nat, Stream>, id: int, n: nat)
    requires forall k | 1 <= k <= n && k != id :: WorkAt(after, k) == WorkAt(before, k)
    ensures StreamsWork(after, n) == StreamsWork(before, n) +
            if 1 <= id <= n then WorkAt(after, id) - WorkAt(before, id) else 0
  {
    if n > 0 {
      OneStreamChanges(before, after, id, n - 1);
    }
  }

  /** What leaving the frame loop will still cost, with the streams among 1..n. */
  function TeardownWork(pc: ReaderPc, n: nat): nat {
    match pc
    case Leaving => 2 * n + 4
    case Fencing => 2 * n + 3
    case Swapping => 2 * n + 2
    case Sweeping(todo) => 2 * |todo| + 1
    case SweepShutting(_, todo) => 2 * |todo| + 2
    case Gone => 0
    case _ => 2 * n + 5
  }

  function SideWork(me: Side, n: nat): nat {
    ReaderWork(me.reader) + TeardownWork(me.reader, n) + ForwarderWork(me.forwarder) + StreamsWork(me.streams, n)
  }

  /** All the work left in a system whose streams are among 1..n. */
  function Work(s: System, n: nat): int {
    SideWork(s.server, n) + SideWork(s.client, n) +
    (LogWork(s.server.log) - LogWork(s.client.got)) + (LogWork(s.client.log) - LogWork(s.server.got))
  }

  lemma {:induction false} PrefixWork(got: Log, log: Log)
    requires Prefix(got, log)
    ensures LogWork(got) <= LogWork(log)
  {
    if got != log {
      PrefixWork(got, log.front);
    }
  }

  /** A step inside the frame loop, or of another thread, that no socket, listener or timer
      had to ask for. */
  predicate Serving(a: Act) {
    match a
    case Lookup => false
    case Arrive(_, _) => false
    case Displace => false
    case Transmit(sender, _) => !sender.KeepaliveTimer?
    case _ => !Tearing(a)
  }

  /** The end of the frame loop and the teardown after it. */
  predicate Tearing(a: Act) {
    a.ReadEnds? || a.Remove? || a.Fence? || a.Swap? || a.SweepMark? || a.SweepShut? || a.SweepEnd?
  }

  /** A step that brings no new work from outside. */
  predicate Silent(a: Act) {
    Serving(a) || Tearing(a)
  }

  /** Every id in use, or about to be used, is at most n. */
  predicate Room(me: Side, n: nat) {
    me.nextId + (if me.forwarder.Holding? then 1 else 0) <= n + 1
  }

  /** The stream a step touches, or -1. */
  function Touched(me: Side, a: Act): int {
    match a
    case AddConn => if me.reader.Adding? then me.reader.id else -1
    case Spawn => if me.reader.Spawning? then me.reader.id else -1
    case Write(_) => if me.reader.Writing? then me.reader.id else -1
    case Erase => if me.reader.Erasing? then me.reader.id else -1
    case Mark => if me.reader.Marking? then me.reader.id else -1
    case Shut => if me.reader.Shutting? then me.reader.id else -1
    case Recv(id, _) => id
    case RecvEnds(id) => id
    case Exchange(id) => id
    case PumpErase(id) => id
    case PumpQuiet(id) => id
    case Insert => if me.forwarder.Inserting? then me.forwarder.id else -1
    case DropErase => if me.forwarder.Dropping? then me.forwarder.id else -1
    case DropMark => if me.forwarder.DropMarking? then me.forwarder.id else -1
    case DropShut => if me.forwarder.DropShutting? then me.forwarder.id else -1
    case Start => if me.forwarder.Starting? then me.forwarder.id else -1
    case Transmit(Pump(id), _) => id
    case _ => -1
  }

  lemma ReaderTouchesOne(me: Side, a: Act, k: nat)
    requires (CanServe(me, a) || CanCloseConn(me, a)) && Can(me, a) && k != Touched(me, a)
    ensures WorkAt(Do(me, a).streams, k) == WorkAt(me.streams, k)
  {
  }

  lemma ForwarderTouchesOne(me: Side, a: Act, k: nat)
    requires CanOther(me, a) && Serving(a) && k != Touched(me, a)
    ensures WorkAt(DoOther(me, a).streams, k) == WorkAt(me.streams, k)
  {
  }

  lemma OthersUntouched(me: Side, a: Act, k: nat)
    requires Can(me, a) && Serving(a) && k != Touched(me, a)
    ensures WorkAt(Do(me, a).streams, k) == WorkAt(me.streams, k)
  {
    if CanServe(me, a) || CanCloseConn(me, a) {
      ReaderTouchesOne(me, a, k);
    } else if CanOther(me, a) {
      ForwarderTouchesOne(me, a, k);
    }
  }

  /** The work at one end that a step can change: two threads, one stream, its own log, and
      the frame it takes. */
  ghost function LocalWork(me: Side, id: int): int {
    ReaderWork(me.reader) + ForwarderWork(me.forwarder) + WorkAt(me.streams, id) + LogWork(me.log) - LogWork(me.got)
  }

  lemma ReadUsesWork(me: Side, a: Act)
    requires CanRead(me, a) && Serving(a)
    ensures LocalWork(DoRead(me, a), Touched(me, a)) < LocalWork(me, Touched(me, a))
  {
  }

  lemma OpenUsesWork(me: Side, a: Act)
    requires ReaderOk(me) && CanServe(me, a) && ServesOpen(a)
    ensures LocalWork(DoServe(me, a), Touched(me, a)) < LocalWork(me, Touched(me, a))
  {
  }

  lemma DataUsesWork(me: Side, a: Act)
    requires CanServe(me, a) && !ServesOpen(a)
    ensures LocalWork(DoServe(me, a), Touched(me, a)) < LocalWork(me, Touched(me, a))
  {
  }

  lemma ServeUsesWork(me: Side, a: Act)
    requires ReaderOk(me) && CanServe(me, a)
    ensures LocalWork(DoServe(me, a), Touched(me, a)) < LocalWork(me, Touched(me, a))
  {
    if ServesOpen(a) {
      OpenUsesWork(me, a);
    } else {
      DataUsesWork(me, a);
    }
  }

  lemma CloseConnUsesWork(me: Side, a: Act)
    requires CanCloseConn(me, a) && Serving(a)
    ensures LocalWork(DoCloseConn(me, a), Touched(me, a)) < LocalWork(me, Touched(me, a))
  {
  }

  lemma PumpUsesWork(me: Side, a: Act)
    requires CanPump(me, a) && Serving(a)
    ensures LocalWork(DoPump(me, a), Touched(me, a)) < LocalWork(me, Touched(me, a))
  {
  }

  lemma OtherUsesWork(me: Side, a: Act)
    requires ForwarderOk(me) && CanOther(me, a) && Serving(a)
    ensures LocalWork(DoOther(me, a), Touched(me, a)) < LocalWork(me, Touched(me, a))
  {
  }

  lemma TransmitUsesWork(me: Side, a: Act)
    requires CanTransmit(me, a) && Serving(a)
    ensures LocalWork(DoTransmit(me, a), Touched(me, a)) < LocalWork(me, Touched(me, a))
  {
  }

  lemma StepUsesLocalWork(me: Side, a: Act)
    requires ReaderOk(me) && ForwarderOk(me) && Can(me, a) && Serving(a)
    ensures LocalWork(Do(me, a), Touched(me, a)) < LocalWork(me, Touched(me, a))
  {
    if CanRead(me, a) {
      ReadUsesWork(me, a);
    } else if CanServe(me, a) {
      ServeUsesWork(me, a);
    } else if CanCloseConn(me, a) {
      CloseConnUsesWork(me, a);
    } else if CanPump(me, a) {
      PumpUsesWork(me, a);
    } else if CanOther(me, a) {
      OtherUsesWork(me, a);
    } else {
      TransmitUsesWork(me, a);
    }
  }

  ghost predicate Bounded(streams: map<nat, Stream>, n: nat) {
    forall id | id in streams :: 1 <= id <= n
  }

  lemma {:induction false} SizeUpTo(ids: set<nat>, n: nat)
    requires forall id | id in ids :: 1 <= id <= n
    ensures |ids| <= n
  {
    if n == 0 {
      assert ids == {};
    } else {
      SizeUpTo(ids - {n}, n - 1);
    }
  }

  lemma LeavingTouchesNone(me: Side, a: Act, k: int)
    requires CanLeave(me, a)
    ensures WorkAt(DoLeave(me, a).streams, k) == WorkAt(me.streams, k)
  {
  }

  lemma LeavingUsesTeardownWork(me: Side, a: Act, n: nat)
    requires CanLeave(me, a) && Bounded(me.streams, n)
    ensures TeardownWork(DoLeave(me, a).reader, n) < TeardownWork(me.reader, n)
    ensures ReaderWork(DoLeave(me, a).reader) == ReaderWork(me.reader)
  {
    if a.Swap? {
      SizeUpTo(DoLeave(me, a).reader.todo, n);
    }
  }

  lemma LeavingUsesWork(me: Side, a: Act, n: nat)
    requires CanLeave(me, a) && Bounded(me.streams, n)
    ensures SideWork(DoLeave(me, a), n) < SideWork(me, n)
  {
    LeavingUsesTeardownWork(me, a, n);
    forall k: int
      ensures WorkAt(DoLeave(me, a).streams, k) == WorkAt(me.streams, k)
    {
      LeavingTouchesNone(me, a, k);
    }
    OneStreamChanges(me.streams, DoLeave(me, a).streams, -1, n);
  }

  lemma TearingUsesWork(me: Side, a: Act, n: nat)
    requires Can(me, a) && Tearing(a) && Bounded(me.streams, n)
    ensures SideWork(Do(me, a), n) < SideWork(me, n)
  {
    if CanLeave(me, a) {
      LeavingUsesWork(me, a, n);
    }
  }

  lemma ReadingStaysInLoop(me: Side, a: Act)
    requires CanRead(me, a) && a.Take?
    ensures me.reader.InLoop() && DoRead(me, a).reader.InLoop()
  {
  }

  lemma ServingStaysInLoop(me: Side, a: Act)
    requires CanServe(me, a)
    ensures me.reader.InLoop() && DoServe(me, a).reader.InLoop()
  {
  }

  lemma ClosingStaysInLoop(me: Side, a: Act)
    requires CanCloseConn(me, a)
    ensures me.reader.InLoop() && DoCloseConn(me, a).reader.InLoop()
  {
  }

  lemma SendingStaysInLoop(me: Side, a: Act)
    requires CanTransmit(me, a)
    ensures DoTransmit(me, a).reader == me.reader || (me.reader.InLoop() && DoTransmit(me, a).reader.InLoop())
  {
  }

  lemma ServingKeepsTeardownWork(me: Side, a: Act, n: nat)
    requires Can(me, a) && Serving(a)
    ensures TeardownWork(Do(me, a).reader, n) == TeardownWork(me.reader, n)
  {
    if CanRead(me, a) {
      ReadingStaysInLoop(me, a);
    } else if CanServe(me, a) {
      ServingStaysInLoop(me, a);
    } else if CanCloseConn(me, a) {
      ClosingStaysInLoop(me, a);
    } else if CanTransmit(me, a) {
      SendingStaysInLoop(me, a);
    }
  }

  lemma ServingUsesWork(me: Side, a: Act, n: nat)
    requires Inv(me) && Can(me, a) && Serving(a)
    requires 1 <= Touched(me, a) <= n || Touched(me, a) == -1
    ensures SideWork(Do(me, a), n) + LogWork(Do(me, a).log) - LogWork(Do(me, a).got)
            < SideWork(me, n) + LogWork(me.log) - LogWork(me.got)
  {
    var id := Touched(me, a);
    var me' := Do(me, a);
    ServingKeepsTeardownWork(me, a, n);
    StepUsesLocalWork(me, a);
    forall k: nat | k != id
      ensures WorkAt(me'.streams, k) == WorkAt(me.streams, k)
    {
      OthersUntouched(me, a, k);
    }
    OneStreamChanges(me.streams, me'.streams, id, n);
  }

  /** Seen from one end, a step leaves the work of the other end alone. */
  lemma StepUsesWork(me: Side, a: Act, n: nat)
    requires Inv(me) && Can(me, a) && Silent(a) && Bounded(me.streams, n)
    requires 1 <= Touched(me, a) <= n || Touched(me, a) == -1
    ensures SideWork(Do(me, a), n) + LogWork(Do(me, a).log) - LogWork(Do(me, a).got)
            < SideWork(me, n) + LogWork(me.log) - LogWork(me.got)
  {
    if Tearing(a) {
      TearingUsesWork(me, a, n);
    } else {
      ServingUsesWork(me, a, n);
    }
  }

  /** The ids an end may touch: those handed out, or those it has heard of. */
  ghost function LastId(me: Side): int {
    if me.role.Server? then me.nextId - 1 else Known(me)
  }

  lemma ReaderTouchesKnown(me: Side, a: Act)
    requires Inv(me) && (CanServe(me, a) || CanCloseConn(me, a))
    ensures Touched(me, a) == -1 || 1 <= Touched(me, a) <= LastId(me)
  {
  }

  lemma OthersTouchKnown(me: Side, a: Act)
    requires Inv(me) && (CanPump(me, a) || CanOther(me, a) || CanTransmit(me, a)) && Serving(a)
    ensures Touched(me, a) == -1 || 1 <= Touched(me, a) <= LastId(me)
  {
    if Touched(me, a) >= 0 {
      assert IdOk(me, Touched(me, a)) by {
        assert StreamOk(me, Touched(me, a));
      }
    }
  }

  lemma TouchedIsKnown(me: Side, a: Act)
    requires Inv(me) && Can(me, a) && Silent(a)
    ensures Touched(me, a) == -1 || 1 <= Touched(me, a) <= LastId(me)
  {
    if CanServe(me, a) || CanCloseConn(me, a) {
      ReaderTouchesKnown(me, a);
    } else if !CanRead(me, a) && !CanLeave(me, a) {
      OthersTouchKnown(me, a);
    }
  }

  lemma StreamsAreBounded(me: Side, n: nat)
    requires Inv(me) && LastId(me) <= n
    ensures Bounded(me.streams, n)
  {
    forall id | id in me.streams
      ensures 1 <= id <= n
    {
      assert StreamOk(me, id);
    }
  }

  lemma ForwarderKeepsRoom(me: Side, a: Act, n: nat)
    requires CanOther(me, a) && Serving(a) && Room(me, n)
    ensures Room(DoOther(me, a), n)
  {
  }

  lemma SenderKeepsRoom(me: Side, a: Act, n: nat)
    requires CanTransmit(me, a) && Room(me, n)
    ensures Room(DoTransmit(me, a), n)
  {
  }

  lemma RoomStays(me: Side, a: Act, n: nat)
    requires Can(me, a) && Silent(a) && Room(me, n)
    ensures Room(Do(me, a), n)
  {
    if CanOther(me, a) {
      ForwarderKeepsRoom(me, a, n);
    } else if CanTransmit(me, a) {
      SenderKeepsRoom(me, a, n);
    }
  }

  lemma IdsHaveRoom(s: System, n: nat)
    requires SystemInv(s) && Room(s.server, n)
    ensures LastId(s.server) <= n && LastId(s.client) <= n
  {
    PrefixMeasures(s.client.got, s.server.log, 0);
  }

  lemma SilentStepUsesWork(s: System, l: Label, n: nat)
    requires SystemInv(s) && Enabled(s, l) && Silent(l.act) && Room(s.server, n)
    ensures Work(After(s, l), n) < Work(s, n) && Room(After(s, l).server, n)
  {
    IdsHaveRoom(s, n);
    match l
    case AtServer(a) =>
      TouchedIsKnown(s.server, a);
      StreamsAreBounded(s.server, n);
      StepUsesWork(s.server, a, n);
      RoomStays(s.server, a, n);
    case AtClient(a) =>
      TouchedIsKnown(s.client, a);
      StreamsAreBounded(s.client, n);
      StepUsesWork(s.client, a, n);
  }

  lemma {:induction false} SilentRunUsesWork(s: System, run: seq<Label>, t: System, n: nat)
    requires SystemInv(s) && Leads(s, run, t) && Room(s.server, n)
    requires forall l | l in run :: Silent(l.act)
    ensures |run| + Work(t, n) <= Work(s, n)
    decreases run
  {
    if run != [] {
      SilentStepUsesWork(s, run[0], n);
      StepKeepsSystemInv(s, run[0]);
      SilentRunUsesWork(After(s, run[0]), run[1..], t, n);
    }
  }

  /** Once sockets, listener and timer are silent, no run is longer than the work left, be it
      in the frame loops, in a teardown, or across the two. */
  lemma SilentRunsAreBounded(name: string, before: seq<Label>, s: System, after: seq<Label>, t: System)
    requires Leads(Initial(name), before, s) && Leads(s, after, t)
    requires forall l | l in after :: Silent(l.act)
    ensures |after| <= Work(s, s.server.nextId)
  {
    var n := s.server.nextId;
    ReachableInv(name, before, s);
    RunKeepsSystemInv(s, after, t);
    SilentRunUsesWork(s, after, t, n);
    PrefixWork(t.client.got, t.server.log);
    PrefixWork(t.server.got, t.client.log);
  }

  /** The step needs no live socket or stream to end or fail, and no working stream to refuse
      a frame. A socket that was shut down has ended. */
  predicate Unprovoked(me: Side, a: Act) {
    match a
    case ReadEnds => false
    case WriteFails => false
    case RecvEnds(id) => id in me.streams && me.streams[id].shut
    case Transmit(_, ok) => ok == me.up
    case _ => true
  }

  /** A pump that never started, that has exited, or that waits on an open socket with
      nothing to read. */
  predicate PumpIdle(st: Stream) {
    st.pump.Unstarted? || st.pump.Done? || (st.pump.Receiving? && !st.shut && st.pending == [])
  }

  ghost predicate Idle(me: Side) {
    && (me.reader.Reading? || me.reader.Gone?) && me.forwarder.Elsewhere?
    && (forall id | id in me.streams :: PumpIdle(me.streams[id]))
  }

  lemma LeavingCanMove(me: Side) returns (a: Act)
    requires ReaderOk(me) && !me.reader.InLoop() && !me.reader.Gone?
    ensures Can(me, a) && Silent(a) && !a.Take? && Unprovoked(me, a)
  {
    match me.reader
    case Leaving => a := Remove;
    case Fencing => a := Fence;
    case Swapping => a := Swap;
    case Sweeping(todo) =>
      if todo == {} {
        a := SweepEnd;
      } else {
        var id :| id in todo;
        a := SweepMark(id);
      }
    case SweepShutting(_, _) => a := SweepShut;
  }

  lemma ReaderCanMove(me: Side) returns (a: Act)
    requires ReaderOk(me) && me.reader.InLoop() && !me.reader.Reading?
    ensures Can(me, a) && Silent(a) && !a.Take? && Unprovoked(me, a)
  {
    match me.reader
    case Dialing(_, _) => a := Refuse;
    case Adding(_) => a := AddConn;
    case Spawning(_) => a := Spawn;
    case Fetching(_, _) => a := GetConn;
    case Writing(_, bytes) => a := if bytes == [] then Wrote else Write(|bytes|);
    case Erasing(_, _) => a := Erase;
    case Marking(_, _) => a := Mark;
    case Shutting(_, _) => a := Shut;
    case _ => a := Transmit(Reader, me.up);
  }

  lemma ForwarderCanMove(me: Side) returns (a: Act)
    requires ForwarderOk(me) && !me.forwarder.Elsewhere?
    ensures Can(me, a) && Silent(a) && !a.Take? && Unprovoked(me, a)
  {
    a := match me.forwarder
         case Holding(_) => NextId
         case Inserting(_, _) => Insert
         case Opening(_, _) => Transmit(Forwarder, me.up)
         case Dropping(_) => DropErase
         case DropMarking(_) => DropMark
         case DropShutting(_) => DropShut
         case _ => Start;
  }

  lemma PumpCanMove(me: Side, id: nat) returns (a: Act)
    requires id in me.streams && !PumpIdle(me.streams[id])
    ensures Can(me, a) && Silent(a) && !a.Take? && Unprovoked(me, a)
  {
    var st := me.streams[id];
    a := match st.pump
         case Sending(_) => Transmit(Pump(id), me.up)
         case Ended(_) => Exchange(id)
         case Settled(_, _) => PumpErase(id)
         case Erased(ours, _) => if ours then Transmit(Pump(id), me.up) else PumpQuiet(id)
         case Receiving =>
           if st.shut then RecvEnds(id)
           else Recv(id, if |st.pending| <= CHUNK_SIZE then |st.pending| else CHUNK_SIZE);
  }

  /** An end that is not idle has a thread that can move on its own. */
  lemma RestlessCanMove(me: Side) returns (a: Act)
    requires Inv(me) && !Idle(me)
    ensures Can(me, a) && Silent(a) && !a.Take? && Unprovoked(me, a)
  {
    if !me.reader.InLoop() && !me.reader.Gone? {
      a := LeavingCanMove(me);
    } else if me.reader.InLoop() && !me.reader.Reading? {
      a := ReaderCanMove(me);
    } else if !me.forwarder.Elsewhere? {
      a := ForwarderCanMove(me);
    } else {
      var id :| id in me.streams && !PumpIdle(me.streams[id]);
      a := PumpCanMove(me, id);
    }
  }

  lemma {:induction false} NextFrame(got: Log, log: Log) returns (f: Frame)
    requires Prefix(got, log) && got != log
    ensures Prefix(Append(got, f), log)
  {
    if got == log.front {
      f := log.last;
    } else {
      f := NextFrame(got, log.front);
    }
  }

  /** No thread can move unless a live socket or the stream ends or fails, or a send fails. */
  ghost predicate Stalled(s: System) {
    forall l: Label | Silent(l.act) && Unprovoked(if l.AtServer? then s.server else s.client, l.act) :: !Enabled(s, l)
  }

  /** A silent run can only stop with every thread idle: in its frame loop, with every frame
      sent to it taken, or gone. */
  lemma StalledIsIdle(name: string, run: seq<Label>, t: System)
    requires Leads(Initial(name), run, t) && Stalled(t)
    ensures Idle(t.server) && Idle(t.client)
    ensures t.server.reader.InLoop() ==> t.server.got == t.client.log
    ensures t.client.reader.InLoop() ==> t.client.got == t.server.log
  {
    ReachableInv(name, run, t);
    if !Idle(t.server) {
      var a := RestlessCanMove(t.server);
      assert Enabled(t, AtServer(a));
    }
    if !Idle(t.client) {
      var a := RestlessCanMove(t.client);
      assert Enabled(t, AtClient(a));
    }
    if t.server.reader.InLoop() && t.server.got != t.client.log {
      var f := NextFrame(t.server.got, t.client.log);
      assert Enabled(t, AtServer(Take(f)));
    }
    if t.client.reader.InLoop() && t.client.got != t.server.log {
      var f := NextFrame(t.client.got, t.server.log);
      assert Enabled(t, AtClient(Take(f)));
    }
  }

  /** With both frame loops still running, it has drained both directions and every socket,
      and the tables agree if the session is up. */
  lemma StalledIsQuiescent(name: string, run: seq<Label>, t: System)
    requires Leads(Initial(name), run, t)
    requires t.server.reader.InLoop() && t.client.reader.InLoop() && Stalled(t)
    ensures Quiescent(t)
    ensures forall me, id | me in {t.server, t.client} && id in me.streams :: PumpIdle(me.streams[id])
    ensures Up(t) ==> Table(t.server) == Table(t.client)
  {
    StalledIsIdle(name, run, t);
    if Up(t) {
      TablesAgree(name, run, t);
    }
  }

  /** The pumps of a finished end have all exited, save those never started. */
  ghost predicate AllOver(me: Side) {
    Finished(me) && AllReleased(me) &&
    forall id | id in me.streams :: me.streams[id].pump.Unstarted? || me.streams[id].pump.Done?
  }

  lemma IdleTeardownIsOver(me: Side)
    requires Inv(me) && Idle(me) && !me.reader.InLoop()
    ensures AllOver(me)
  {
    FinishedIsReleased(me);
    forall id | id in me.streams
      ensures me.streams[id].pump.Unstarted? || me.streams[id].pump.Done?
    {
      assert PumpIdle(me.streams[id]);
    }
  }

  /** Every teardown ends: once an end has left its frame loop, a silent run is no longer than
      the work left, and can only stop with its handler gone, its table empty, every
      connection released and every pump exited. */
  lemma TeardownEnds(name: string, before: seq<Label>, s: System, after: seq<Label>, t: System)
    requires Leads(Initial(name), before, s) && Leads(s, after, t)
    requires forall l | l in after :: Silent(l.act)
    ensures |after| <= Work(s, s.server.nextId)
    ensures Stalled(t) && !t.server.reader.InLoop() ==> AllOver(t.server)
    ensures Stalled(t) && !t.client.reader.InLoop() ==> AllOver(t.client)
  {
    SilentRunsAreBounded(name, before, s, after, t);
    Then(Initial(name), before, s, after, t);
    ReachableInv(name, before + after, t);
    if Stalled(t) {
      StalledIsIdle(name, before + after, t);
      if !t.server.reader.InLoop() { IdleTeardownIsOver(t.server); }
      if !t.client.reader.InLoop() { IdleTeardownIsOver(t.client); }
    }
  }
}
