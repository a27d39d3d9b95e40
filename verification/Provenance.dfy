/** Where bytes, clean ends and error texts come from, told by the labels of the run alone. */
module Provenance {
  import opened Frames
  import opened Endpoint
  import opened EndpointInvariant
  import opened Tunnel
  import opened Replies

  // --------------------------------------------------------- bytes and ends

  /** Everything the outside world sends into one socket, in order. */
  function Arrived(run: seq<Label>, role: Role, id: nat): Bytes {
    if run == [] then [] else Brought(run[0], role, id) + Arrived(run[1..], role, id)
  }

  function Brought(l: Label, role: Role, id: nat): Bytes {
    if l == At(role, l.act) && l.act.Arrive? && l.act.id == id then l.act.bytes else []
  }

  /** The socket of the stream ended by itself: recv returned nothing or failed. */
  predicate SocketEnded(run: seq<Label>, role: Role, id: nat) {
    At(role, RecvEnds(id)) in run
  }

  /** The pump has read what arrived, in order, up to what still waits; and it counts as ended
      cleanly exactly when its socket ended. */
  ghost predicate Accounts(me: Side, id: nat, arrived: Bytes, ended: bool) {
    if id !in me.streams then arrived == [] && !ended
    else
      var st := me.streams[id];
      && st.read + st.pending == arrived
      && match st.pump
         case Unstarted => !ended
         case Receiving => !ended
         case Sending(_) => !ended
         case _ => st.pump.clean == ended
  }

  lemma ServeKeepsAccounts(me: Side, a: Act, id: nat, arrived: Bytes, ended: bool)
    requires ReaderOk(me) && Accounts(me, id, arrived, ended) && CanServe(me, a)
    ensures Accounts(DoServe(me, a), id, arrived, ended)
  {
  }

  lemma CloseConnKeepsAccounts(me: Side, a: Act, id: nat, arrived: Bytes, ended: bool)
    requires Accounts(me, id, arrived, ended) && CanCloseConn(me, a)
    ensures Accounts(DoCloseConn(me, a), id, arrived, ended)
  {
  }

  lemma LeaveKeepsAccounts(me: Side, a: Act, id: nat, arrived: Bytes, ended: bool)
    requires Accounts(me, id, arrived, ended) && CanLeave(me, a)
    ensures Accounts(DoLeave(me, a), id, arrived, ended)
  {
  }

  lemma PumpKeepsAccounts(me: Side, a: Act, id: nat, arrived: Bytes, ended: bool)
    requires Accounts(me, id, arrived, ended) && CanPump(me, a)
    ensures Accounts(DoPump(me, a), id, arrived, ended || a == RecvEnds(id))
  {
    if a.Recv? && a.id == id {
      var st := me.streams[id];
      assert st.read + st.pending[..a.n] + st.pending[a.n..] == st.read + st.pending;
    }
  }

  lemma ForwarderKeepsAccounts(me: Side, a: Act, id: nat, arrived: Bytes, ended: bool)
    requires ForwarderOk(me) && Accounts(me, id, arrived, ended) && CanOther(me, a)
    ensures Accounts(DoOther(me, a), id, arrived + (if a.Arrive? && a.id == id then a.bytes else []), ended)
  {
    assert arrived + [] == arrived;
    if a.Arrive? && a.id == id {
      var st := me.streams[id];
      assert st.read + (st.pending + a.bytes) == st.read + st.pending + a.bytes;
    }
  }

  lemma PumpSendKeepsAccounts(me: Side, a: Act, id: nat, arrived: Bytes, ended: bool)
    requires Accounts(me, id, arrived, ended) && CanTransmit(me, a) && a.sender.Pump?
    ensures Accounts(DoTransmit(me, a), id, arrived, ended)
  {
  }

  lemma SendKeepsAccounts(me: Side, a: Act, id: nat, arrived: Bytes, ended: bool)
    requires Accounts(me, id, arrived, ended) && CanTransmit(me, a)
    ensures Accounts(DoTransmit(me, a), id, arrived, ended)
  {
    if a.sender.Pump? {
      PumpSendKeepsAccounts(me, a, id, arrived, ended);
    } else {
      assert DoTransmit(me, a).streams == me.streams;
    }
  }

  lemma ReaderStepKeepsAccounts(me: Side, a: Act, id: nat, arrived: Bytes, ended: bool)
    requires ReaderOk(me) && Accounts(me, id, arrived, ended) && Can(me, a)
    requires !CanPump(me, a) && !CanOther(me, a) && !CanTransmit(me, a)
    ensures Accounts(Do(me, a), id, arrived, ended)
  {
    if CanServe(me, a) {
      ServeKeepsAccounts(me, a, id, arrived, ended);
    } else if CanCloseConn(me, a) {
      CloseConnKeepsAccounts(me, a, id, arrived, ended);
    } else if CanLeave(me, a) {
      LeaveKeepsAccounts(me, a, id, arrived, ended);
    }
  }

  lemma OtherStepKeepsAccounts(me: Side, a: Act, id: nat, arrived: Bytes, ended: bool)
    requires ForwarderOk(me) && Accounts(me, id, arrived, ended) && Can(me, a) && (CanOther(me, a) || CanTransmit(me, a))
    ensures Accounts(Do(me, a), id, arrived + (if a.Arrive? && a.id == id then a.bytes else []), ended)
  {
    assert arrived + [] == arrived;
    if CanOther(me, a) {
      ForwarderKeepsAccounts(me, a, id, arrived, ended);
    } else {
      SendKeepsAccounts(me, a, id, arrived, ended);
    }
  }

  lemma StepKeepsAccounts(me: Side, a: Act, id: nat, arrived: Bytes, ended: bool)
    requires ReaderOk(me) && ForwarderOk(me) && Can(me, a) && Accounts(me, id, arrived, ended)
    ensures Accounts(Do(me, a), id, arrived + (if a.Arrive? && a.id == id then a.bytes else []), ended || a == RecvEnds(id))
  {
    assert arrived + [] == arrived;
    if CanPump(me, a) {
      PumpKeepsAccounts(me, a, id, arrived, ended);
    } else if CanOther(me, a) || CanTransmit(me, a) {
      OtherStepKeepsAccounts(me, a, id, arrived, ended);
    } else {
      ReaderStepKeepsAccounts(me, a, id, arrived, ended);
    }
  }

  lemma LabelKeepsAccounts(s: System, l: Label, role: Role, id: nat, arrived: Bytes, ended: bool)
    requires SystemInv(s) && Enabled(s, l) && Accounts(End(s, role), id, arrived, ended)
    ensures Accounts(End(After(s, l), role), id, arrived + Brought(l, role, id), ended || l == At(role, RecvEnds(id)))
  {
    assert arrived + [] == arrived;
    if l == At(role, l.act) {
      StepKeepsAccounts(End(s, role), l.act, id, arrived, ended);
    }
  }

  lemma FirstLabel(run: seq<Label>, role: Role, id: nat, arrived: Bytes)
    requires run != []
    ensures arrived + Arrived(run, role, id) == arrived + Brought(run[0], role, id) + Arrived(run[1..], role, id)
    ensures SocketEnded(run, role, id) <==> run[0] == At(role, RecvEnds(id)) || SocketEnded(run[1..], role, id)
  {
    assert run == [run[0]] + run[1..];
  }

  lemma {:induction false} RunKeepsAccounts(s: System, run: seq<Label>, t: System, role: Role, id: nat, arrived: Bytes, ended: bool)
    requires SystemInv(s) && Leads(s, run, t) && Accounts(End(s, role), id, arrived, ended)
    ensures Accounts(End(t, role), id, arrived + Arrived(run, role, id), ended || SocketEnded(run, role, id))
    decreases run
  {
    if run == [] {
      assert arrived + [] == arrived;
    } else {
      var l, more := run[0], arrived + Brought(run[0], role, id);
      LabelKeepsAccounts(s, l, role, id, arrived, ended);
      StepKeepsSystemInv(s, l);
      RunKeepsAccounts(After(s, l), run[1..], t, role, id, more, ended || l == At(role, RecvEnds(id)));
      FirstLabel(run, role, id, arrived);
    }
  }

  lemma ReachableAccounts(name: string, run: seq<Label>, t: System, role: Role, id: nat)
    requires Leads(Initial(name), run, t)
    ensures Accounts(End(t, role), id, Arrived(run, role, id), SocketEnded(run, role, id))
  {
    NewEndsSatisfyInv(name);
    RunKeepsAccounts(Initial(name), run, t, role, id, [], false);
    assert [] + Arrived(run, role, id) == Arrived(run, role, id);
  }

  function Other(role: Role): Role {
    if role.Server? then Client else Server
  }

  /** From one outer socket to the other: in every run, what has been written to the far socket
      of a stream is a prefix of what arrived at its near socket. */
  lemma BytesCrossInOrder(name: string, run: seq<Label>, t: System, role: Role, id: nat)
    requires Leads(Initial(name), run, t)
    ensures BytesWritten(End(t, role), id) <= BytesRead(End(t, Other(role)), id) <= Arrived(run, Other(role), id)
  {
    BytesArriveInOrder(name, run, t, id);
    ReachableAccounts(name, run, t, Other(role), id);
  }

  /** The end of a pump counts as clean exactly when its socket ended by itself. */
  lemma CleanExactlyWhenSocketEnded(name: string, run: seq<Label>, t: System, role: Role, id: nat)
    requires Leads(Initial(name), run, t) && id in End(t, role).streams && End(t, role).streams[id].pump.Exchanged()
    ensures End(t, role).streams[id].pump.clean <==> SocketEnded(run, role, id)
  {
    ReachableAccounts(name, run, t, role, id);
  }

  // ------------------------------------------------------------ error texts

  /** The CLOSEs that carry an error. */
  function Complaints(log: Log): nat {
    match log
    case Empty => 0
    case Append(front, f) => Complaints(front) + if f.Close? && f.error != "" then 1 else 0
  }

  /** The OPENs and DATAs. */
  function Requests(log: Log): nat {
    match log
    case Empty => 0
    case Append(front, f) => Requests(front) + if f.Open? || f.Data? then 1 else 0
  }

  function OwedComplaint(pc: ReaderPc): nat {
    match pc
    case Dialing(_, _) => 1
    case Fetching(_, _) => 1
    case Writing(_, _) => 1
    case Erasing(_, report) => if report then 1 else 0
    case Marking(_, report) => if report then 1 else 0
    case Shutting(_, report) => if report then 1 else 0
    case Closing(_, _) => 1
    case _ => 0
  }

  ghost predicate Excused(me: Side) {
    Complaints(me.log) + OwedComplaint(me.reader) <= Requests(me.got)
  }

  lemma ReadExcused(me: Side, a: Act)
    requires Excused(me) && CanRead(me, a)
    ensures Excused(DoRead(me, a))
  {
  }

  lemma ServeExcused(me: Side, a: Act)
    requires Excused(me) && CanServe(me, a)
    ensures Excused(DoServe(me, a))
  {
  }

  lemma CloseConnExcused(me: Side, a: Act)
    requires Excused(me) && CanCloseConn(me, a)
    ensures Excused(DoCloseConn(me, a))
  {
  }

  lemma LeaveExcused(me: Side, a: Act)
    requires Excused(me) && CanLeave(me, a)
    ensures Excused(DoLeave(me, a))
  {
  }

  lemma SendExcused(me: Side, a: Act)
    requires Excused(me) && CanTransmit(me, a)
    ensures Excused(DoTransmit(me, a))
  {
  }

  lemma StepExcused(me: Side, a: Act)
    requires Excused(me) && Can(me, a)
    ensures Excused(Do(me, a))
  {
    if CanRead(me, a) {
      ReadExcused(me, a);
    } else if CanServe(me, a) {
      ServeExcused(me, a);
    } else if CanCloseConn(me, a) {
      CloseConnExcused(me, a);
    } else if CanLeave(me, a) {
      LeaveExcused(me, a);
    } else if CanTransmit(me, a) {
      SendExcused(me, a);
    }
  }

  lemma {:induction false} RunExcused(s: System, run: seq<Label>, t: System, role: Role)
    requires Excused(End(s, role)) && Leads(s, run, t)
    ensures Excused(End(t, role))
    decreases run
  {
    if run != [] {
      if run[0] == At(role, run[0].act) {
        StepExcused(End(s, role), run[0].act);
      }
      RunExcused(After(s, run[0]), run[1..], t, role);
    }
  }

  /** A CLOSE carries an error only in answer to an OPEN or DATA, at most one for each: the end
      of a pump is announced without one. */
  lemma ComplaintsAreAnswers(name: string, run: seq<Label>, t: System, role: Role)
    requires Leads(Initial(name), run, t)
    ensures Complaints(End(t, role).log) <= Requests(End(t, role).got)
  {
    var s := Initial(name);
    assert Complaints(s.client.log.front) == 0;
    RunExcused(s, run, t, role);
  }

  // ------------------------------------------------------------ chunk sizes

  /** Every DATA frame carries at least one byte and at most 32 KiB. */
  ghost predicate ChunksFit(log: Log) {
    match log
    case Empty => true
    case Append(front, f) => ChunksFit(front) && (f.Data? ==> 0 < |f.data| <= 32768)
  }

  ghost predicate ChunksOk(me: Side) {
    && ChunksFit(me.log)
    && forall id | id in me.streams && me.streams[id].pump.Sending? :: 0 < |me.streams[id].pump.chunk| <= 32768
  }

  lemma ServeKeepsSending(me: Side, a: Act, id: nat)
    requires CanServe(me, a) && id in DoServe(me, a).streams && DoServe(me, a).streams[id].pump.Sending?
    ensures id in me.streams && me.streams[id].pump == DoServe(me, a).streams[id].pump
  {
  }

  lemma ServeKeepsChunks(me: Side, a: Act)
    requires ChunksOk(me) && CanServe(me, a)
    ensures ChunksOk(DoServe(me, a))
  {
    var next := DoServe(me, a);
    forall id | id in next.streams && next.streams[id].pump.Sending?
      ensures 0 < |next.streams[id].pump.chunk| <= 32768
    {
      ServeKeepsSending(me, a, id);
    }
  }

  lemma CloseConnKeepsChunks(me: Side, a: Act)
    requires ChunksOk(me) && CanCloseConn(me, a)
    ensures ChunksOk(DoCloseConn(me, a))
  {
  }

  lemma LeaveKeepsChunks(me: Side, a: Act)
    requires ChunksOk(me) && CanLeave(me, a)
    ensures ChunksOk(DoLeave(me, a))
  {
  }

  lemma ReaderKeepsChunks(me: Side, a: Act)
    requires ChunksOk(me) && Can(me, a) && !CanPump(me, a) && !CanOther(me, a) && !CanTransmit(me, a)
    ensures ChunksOk(Do(me, a))
  {
    if CanServe(me, a) {
      ServeKeepsChunks(me, a);
    } else if CanCloseConn(me, a) {
      CloseConnKeepsChunks(me, a);
    } else if CanLeave(me, a) {
      LeaveKeepsChunks(me, a);
    }
  }

  lemma OthersKeepChunks(me: Side, a: Act)
    requires ChunksOk(me) && Can(me, a) && (CanPump(me, a) || CanOther(me, a))
    ensures ChunksOk(Do(me, a))
  {
  }

  lemma PumpSendKeepsChunks(me: Side, a: Act)
    requires ChunksOk(me) && CanTransmit(me, a) && a.sender.Pump?
    ensures ChunksOk(DoTransmit(me, a))
  {
  }

  lemma SendKeepsChunks(me: Side, a: Act)
    requires ChunksOk(me) && CanTransmit(me, a)
    ensures ChunksOk(DoTransmit(me, a))
  {
    if a.sender.Pump? {
      PumpSendKeepsChunks(me, a);
    } else {
      assert DoTransmit(me, a).streams == me.streams;
    }
  }

  lemma StepKeepsChunks(me: Side, a: Act)
    requires ChunksOk(me) && Can(me, a)
    ensures ChunksOk(Do(me, a))
  {
    if CanPump(me, a) || CanOther(me, a) {
      OthersKeepChunks(me, a);
    } else if CanTransmit(me, a) {
      SendKeepsChunks(me, a);
    } else {
      ReaderKeepsChunks(me, a);
    }
  }

  lemma {:induction false} RunKeepsChunks(s: System, run: seq<Label>, t: System, role: Role)
    requires ChunksOk(End(s, role)) && Leads(s, run, t)
    ensures ChunksOk(End(t, role))
    decreases run
  {
    if run != [] {
      if run[0] == At(role, run[0].act) {
        StepKeepsChunks(End(s, role), run[0].act);
      }
      RunKeepsChunks(After(s, run[0]), run[1..], t, role);
    }
  }

  lemma EveryChunkFits(name: string, run: seq<Label>, t: System, role: Role)
    requires Leads(Initial(name), run, t)
    ensures ChunksFit(End(t, role).log)
  {
    var s := Initial(name);
    assert ChunksFit(s.client.log.front);
    RunKeepsChunks(s, run, t, role);
  }

  // ------------------------------------------------------ keepalives and OPENs

  function Keepalives(log: Log): nat {
    match log
    case Empty => 0
    case Append(front, f) => Keepalives(front) + if f.Keepalive? then 1 else 0
  }

  /** How often this thread has sent something. */
  function SendsOf(run: seq<Label>, role: Role, sender: Sender): nat {
    if run == [] then 0
    else (if run[0] == At(role, Transmit(sender, true)) then 1 else 0) + SendsOf(run[1..], role, sender)
  }

  lemma StepAddsOwnFrame(me: Side, a: Act)
    requires Can(me, a)
    ensures Keepalives(Do(me, a).log) == Keepalives(me.log) + if a == Transmit(KeepaliveTimer, true) then 1 else 0
    ensures Opens(Do(me, a).log) == Opens(me.log) + if a == Transmit(Forwarder, true) then 1 else 0
  {
  }

  lemma {:induction false} RunAddsOwnFrames(s: System, run: seq<Label>, t: System, role: Role)
    requires Leads(s, run, t)
    ensures Keepalives(End(t, role).log) == Keepalives(End(s, role).log) + SendsOf(run, role, KeepaliveTimer)
    ensures Opens(End(t, role).log) == Opens(End(s, role).log) + SendsOf(run, role, Forwarder)
    decreases run
  {
    if run != [] {
      if run[0] == At(role, run[0].act) {
        StepAddsOwnFrame(End(s, role), run[0].act);
      }
      RunAddsOwnFrames(After(s, run[0]), run[1..], t, role);
    }
  }

  /** The timer sends KEEPALIVEs and nothing else does; the forwarder sends OPENs and nothing
      else does. */
  lemma TimerAndForwarder(name: string, run: seq<Label>, t: System, role: Role)
    requires Leads(Initial(name), run, t)
    ensures Keepalives(End(t, role).log) == SendsOf(run, role, KeepaliveTimer)
    ensures Opens(End(t, role).log) == SendsOf(run, role, Forwarder)
  {
    var s := Initial(name);
    assert Keepalives(s.client.log.front) == 0 && Opens(s.client.log.front) == 0;
    RunAddsOwnFrames(s, run, t, role);
  }

  // ------------------------------------------------------------ registration

  function Listing(a: Act, listed: bool): bool {
    match a
    case Take(f) => listed || f.Register?
    case Remove => false
    case Displace => false
    case _ => listed
  }

  /** Whether the registry leads to this session, as the labels tell: from the REGISTER until a
      later session displaces it or its handler removes it. */
  function ListedAfter(run: seq<Label>, listed: bool): bool {
    if run == [] then listed
    else ListedAfter(run[1..], if run[0].AtServer? then Listing(run[0].act, listed) else listed)
  }

  lemma ReaderKeepsListing(me: Side, a: Act)
    requires me.role.Server? && Can(me, a) && (CanRead(me, a) || CanServe(me, a))
    ensures Do(me, a).listed == Listing(a, me.listed)
  {
  }

  lemma TeardownKeepsListing(me: Side, a: Act)
    requires Can(me, a) && (CanCloseConn(me, a) || CanLeave(me, a))
    ensures Do(me, a).listed == Listing(a, me.listed)
  {
  }

  lemma OthersKeepListing(me: Side, a: Act)
    requires Can(me, a) && (CanPump(me, a) || CanOther(me, a))
    ensures Do(me, a).listed == Listing(a, me.listed)
  {
  }

  lemma StepKeepsListing(me: Side, a: Act)
    requires me.role.Server? && Can(me, a)
    ensures Do(me, a).listed == Listing(a, me.listed)
  {
    if CanRead(me, a) || CanServe(me, a) {
      ReaderKeepsListing(me, a);
    } else if CanCloseConn(me, a) || CanLeave(me, a) {
      TeardownKeepsListing(me, a);
    } else if CanPump(me, a) || CanOther(me, a) {
      OthersKeepListing(me, a);
    }
  }

  lemma {:induction false} RunKeepsListing(s: System, run: seq<Label>, t: System)
    requires s.server.role.Server? && Leads(s, run, t)
    ensures t.server.listed == ListedAfter(run, s.server.listed)
    decreases run
  {
    if run != [] {
      if run[0].AtServer? {
        StepKeepsListing(s.server, run[0].act);
      }
      RunKeepsListing(After(s, run[0]), run[1..], t);
    }
  }

  /** The forwarder takes up a session only while the registry leads to it, and what it then
      announces is the name last registered. */
  lemma LookupsAreListed(name: string, run: seq<Label>, t: System)
    requires Leads(Initial(name), run, t) && Enabled(t, AtServer(Lookup))
    ensures ListedAfter(run, false)
    ensures After(t, AtServer(Lookup)).server.forwarder == Holding(t.server.name)
  {
    RunKeepsListing(Initial(name), run, t);
  }
}
