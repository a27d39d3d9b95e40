/** What every step of every thread at one end keeps, as long as the frames it reads fit
    what it knows (`Fits`). The two ends supply that to each other in module Tunnel. */
module EndpointInvariant {
  import opened Frames
  import opened Endpoint

  /** How many stream ids have been opened, as far as this end knows. */
  ghost function Known(me: Side): nat {
    if me.role.Server? then Opens(me.log) else Opens(me.got)
  }

  ghost predicate NoFrames(me: Side, id: nat) {
    && Closes(me.log, id) == 0 && Closes(me.got, id) == 0
    && |Payload(me.log, id)| == 0 && |Payload(me.got, id)| == 0
  }

  /** A frame this end may be handed next. */
  ghost predicate TakeOk(me: Side, f: Frame) {
    if me.role.Server? then f.Open? || Fits(f, Known(me)) else Fits(f, Known(me))
  }

  ghost predicate Allowed(me: Side, a: Act) {
    Can(me, a) && (a.Take? ==> TakeOk(me, a.frame))
  }

  /** What the position of the reader implies. */
  ghost predicate ReaderOk(me: Side) {
    var pc := me.reader;
    && (pc.Dialing? || pc.Adding? ==>
          me.role.Client? && 1 <= pc.id == Known(me) && pc.id !in me.streams && NoFrames(me, pc.id))
    && (pc.Spawning? ==>
          me.role.Client? && 1 <= pc.id <= Known(me) && pc.id in me.streams && me.streams[pc.id].pump.Unstarted?)
    && (pc.Fetching? || pc.Writing? || pc.Erasing? || pc.Marking? || pc.Shutting? || pc.Closing? ==>
          1 <= pc.id <= Known(me))
    && (pc.Writing? || pc.Marking? || pc.Shutting? || pc.SweepShutting? ==> pc.id in me.streams)
    && (pc.Sweeping? || pc.SweepShutting? ==> pc.todo <= me.streams.Keys)
    && (pc.Fencing? || pc.Swapping? || pc.Swapped() ==> !me.listed)
    && (pc.Swapping? || pc.Swapped() ==> !me.up)
    && ((pc.Erasing? || pc.Marking? || pc.Shutting?) && !pc.report ==> Closes(me.got, pc.id) > 0)
    && (pc.Acking? ==> me.role.Server?)
  }

  /** What the position of the forwarder implies. */
  ghost predicate ForwarderOk(me: Side) {
    var pc := me.forwarder;
    && (me.role.Client? ==> pc.Elsewhere? && !me.listed)
    && (me.role.Server? ==>
          && Known(me) < me.nextId
          && (pc.Inserting? || pc.Opening? || pc.Dropping? || pc.DropMarking? || pc.DropShutting? ==>
                Known(me) < pc.id == me.nextId - 1)
          && (me.up && !(pc.Inserting? || pc.Opening?) ==> Known(me) == me.nextId - 1)
          && (me.up && (pc.Inserting? || pc.Opening?) ==> Known(me) == me.nextId - 2)
          && (pc.Inserting? ==> pc.id !in me.streams)
          && (pc.Opening? || pc.Dropping? || pc.DropMarking? || pc.DropShutting? || pc.Starting? ==>
                pc.id in me.streams && me.streams[pc.id].pump.Unstarted?)
          && (pc.Dropping? || pc.DropMarking? || pc.DropShutting? ==> !me.up)
          && (pc.Starting? ==> 1 <= pc.id == me.nextId - 1 && pc.id <= Known(me)))
  }

  /** The ids of the stream records, and the silence about ids not yet opened. */
  ghost predicate IdOk(me: Side, id: nat) {
    && (id in me.streams ==> 1 <= id && (if me.role.Server? then id < me.nextId else id <= Known(me)))
    && (id in me.streams && !me.streams[id].pump.Unstarted? ==> id <= Known(me))
    && (id !in me.streams ==> |Payload(me.log, id)| == 0)
    && (me.role.Server? && 1 <= id < me.nextId && id !in me.streams ==>
          me.forwarder.Inserting? && me.forwarder.id == id)
    && (id > Known(me) ==> NoFrames(me, id))
  }

  /** Someone has taken the stream off the table and is about to set its closed flag. */
  ghost predicate BeingMarked(me: Side, id: nat) {
    || (me.reader.Marking? && me.reader.id == id)
    || (me.reader.Sweeping? && id in me.reader.todo)
    || (me.reader.SweepShutting? && id in me.reader.todo)
    || (me.forwarder.DropMarking? && me.forwarder.id == id)
  }

  /** Someone has set its closed flag and is about to shut its socket down. */
  ghost predicate BeingShut(me: Side, id: nat) {
    || (me.reader.Shutting? && me.reader.id == id)
    || (me.reader.SweepShutting? && id == me.reader.id)
    || (me.forwarder.DropShutting? && me.forwarder.id == id)
  }

  /** A CLOSE for this stream is still to be sent by the reader or the pump. */
  ghost predicate OwesClose(me: Side, id: nat) {
    || ((me.reader.Marking? || me.reader.Shutting?) && me.reader.id == id && me.reader.report)
    || (me.reader.Closing? && me.reader.id == id)
    || (id in me.streams && (me.streams[id].pump.Settled? || me.streams[id].pump.Erased?) && me.streams[id].pump.ours)
  }

  /** Table slot, closed flag, shutdown and pump of one stream agree with each other. */
  ghost predicate TableOk(me: Side, id: nat) {
    id in me.streams ==>
      var st := me.streams[id];
      && (st.pump.Exchanged() ==> st.closed)
      && (st.pump.Erased? || st.pump.Done? ==> !st.inTable)
      && (st.pump.Settled? && !st.pump.ours ==> !st.inTable)
      && (!st.pump.Exchanged() ==>
            && (st.closed ==> !st.inTable && (st.shut || BeingShut(me, id)))
            && (!st.inTable ==> st.closed || BeingMarked(me, id)))
      && (BeingMarked(me, id) || BeingShut(me, id) ==> !st.inTable)
      && (BeingShut(me, id) ==> st.closed)
      && (st.inTable && me.reader.Swapped() ==>
            (me.forwarder.Opening? || me.forwarder.Dropping?) && me.forwarder.id == id)
  }

  /** CLOSE frames of one stream against its table slot. */
  ghost predicate CloseOk(me: Side, id: nat) {
    && (id in me.streams ==>
          var st := me.streams[id];
          && (Closes(me.log, id) > 0 || (me.reader.Closing? && me.reader.id == id) ==>
                !st.inTable && st.closed)
          && (Closes(me.got, id) > 0 ==> !st.inTable || (me.reader.Erasing? && me.reader.id == id))
          && (!st.inTable && me.up && me.reader.InLoop() ==>
                Closes(me.log, id) > 0 || Closes(me.got, id) > 0 || OwesClose(me, id)))
    && (me.role.Client? && 1 <= id <= Known(me) && id !in me.streams && me.up && me.reader.InLoop() ==>
          || Closes(me.log, id) > 0
          || ((me.reader.Dialing? || me.reader.Adding? || me.reader.Closing?) && me.reader.id == id))
  }

  /** The bytes a pump has read are what this end has sent of the stream, up to a chunk in
      hand or lost to a failed send; a pump that ends on its own has sent no CLOSE before. */
  ghost predicate SentOk(me: Side, id: nat) {
    id in me.streams ==>
      var st := me.streams[id];
      var sent := Payload(me.log, id);
      && (match st.pump
          case Unstarted => sent == st.read == []
          case Receiving => sent == st.read
          case Sending(chunk) => sent + chunk == st.read
          case _ => sent <= st.read && (st.pump.clean ==> sent == st.read))
      && (st.pump.Exchanged() && st.pump.ours ==> DataBeforeClose(me.log, id))
  }

  /** The bytes written to a socket are those received for its stream, up to the frame in
      hand; once the stream is off the table or a write has failed they stay a prefix. */
  ghost predicate WrittenOk(me: Side, id: nat) {
    id in me.streams ==>
      var st := me.streams[id];
      var came := Payload(me.got, id);
      && st.written <= came
      && (me.reader.Writing? && me.reader.id == id ==> st.written + me.reader.data == came)
      && (me.reader.Fetching? && me.reader.id == id && st.inTable ==> st.written + me.reader.data == came)
      && (st.inTable ==>
            || st.written == came
            || ((me.reader.Fetching? || me.reader.Writing?) && me.reader.id == id)
            || (me.reader.Erasing? && me.reader.id == id && me.reader.report))
  }

  /** What this end's log promises its peer. */
  ghost predicate LogOk(me: Side) {
    if me.role.Server? then WellOpened(me.log) else Answers(me.log, Known(me))
  }

  ghost predicate StreamOk(me: Side, id: nat) {
    IdOk(me, id) && TableOk(me, id) && CloseOk(me, id) && SentOk(me, id) && WrittenOk(me, id)
  }

  ghost predicate Inv(me: Side) {
    && ReaderOk(me) && ForwarderOk(me) && LogOk(me)
    && (forall id: nat :: StreamOk(me, id))
  }

  lemma ReadKeepsPcs(me: Side, a: Act)
    requires ReaderOk(me) && ForwarderOk(me) && LogOk(me) && CanRead(me, a) && (a.Take? ==> TakeOk(me, a.frame))
    requires a.Take? && a.frame.Open? ==> IdOk(me, a.frame.id)
    ensures var me' := DoRead(me, a); ReaderOk(me') && ForwarderOk(me') && LogOk(me')
  {
    if me.role.Client? {
      AnswersMonotone(me.log, Known(me), Known(DoRead(me, a)));
    }
  }

  lemma ReadKeepsIds(me: Side, a: Act, id: nat)
    requires ReaderOk(me) && ForwarderOk(me) && IdOk(me, id) && CanRead(me, a) && (a.Take? ==> TakeOk(me, a.frame))
    requires a.Take? && a.frame.Open? ==> IdOk(me, a.frame.id)
    ensures IdOk(DoRead(me, a), id)
  {
  }

  lemma ReadKeepsTable(me: Side, a: Act, id: nat)
    requires ReaderOk(me) && ForwarderOk(me) && IdOk(me, id) && TableOk(me, id) && CanRead(me, a)
    ensures TableOk(DoRead(me, a), id)
  {
  }

  lemma ReadKeepsCloses(me: Side, a: Act, id: nat)
    requires ReaderOk(me) && ForwarderOk(me) && IdOk(me, id) && TableOk(me, id) && CloseOk(me, id) && CanRead(me, a) && (a.Take? ==> TakeOk(me, a.frame))
    ensures CloseOk(DoRead(me, a), id)
  {
  }

  lemma ReadKeepsSent(me: Side, a: Act, id: nat)
    requires SentOk(me, id) && CanRead(me, a)
    ensures SentOk(DoRead(me, a), id)
  {
  }

  lemma ReadKeepsWritten(me: Side, a: Act, id: nat)
    requires WrittenOk(me, id) && CanRead(me, a)
    ensures WrittenOk(DoRead(me, a), id)
  {
  }

  lemma ServeKeepsPcs(me: Side, a: Act)
    requires ReaderOk(me) && ForwarderOk(me) && LogOk(me) && CanServe(me, a)
    ensures var me' := DoServe(me, a); ReaderOk(me') && ForwarderOk(me') && LogOk(me')
  {
  }

  /** The four steps that serve an OPEN, as against those that serve a DATA frame. */
  predicate ServesOpen(a: Act) {
    a.Refuse? || a.Dial? || a.AddConn? || a.Spawn?
  }

  lemma OpenKeepsIds(me: Side, a: Act, id: nat)
    requires ReaderOk(me) && IdOk(me, id) && CanServe(me, a) && ServesOpen(a)
    ensures IdOk(DoServe(me, a), id)
  {
  }

  lemma DataKeepsIds(me: Side, a: Act, id: nat)
    requires ReaderOk(me) && IdOk(me, id) && CanServe(me, a) && !ServesOpen(a)
    ensures IdOk(DoServe(me, a), id)
  {
  }

  lemma ServeKeepsIds(me: Side, a: Act, id: nat)
    requires ReaderOk(me) && IdOk(me, id) && CanServe(me, a)
    ensures IdOk(DoServe(me, a), id)
  {
    if ServesOpen(a) {
      OpenKeepsIds(me, a, id);
    } else {
      DataKeepsIds(me, a, id);
    }
  }

  lemma ServeKeepsTable(me: Side, a: Act, id: nat)
    requires ReaderOk(me) && ForwarderOk(me) && TableOk(me, id) && CanServe(me, a)
    ensures TableOk(DoServe(me, a), id)
  {
    if a.AddConn? && me.reader.id == id {
      assert !BeingMarked(me, id) && !BeingShut(me, id);
    }
  }

  lemma OpenKeepsCloses(me: Side, a: Act, id: nat)
    requires ReaderOk(me) && IdOk(me, id) && TableOk(me, id) && CloseOk(me, id) && CanServe(me, a) && ServesOpen(a)
    ensures CloseOk(DoServe(me, a), id)
  {
  }

  lemma DataKeepsCloses(me: Side, a: Act, id: nat)
    requires ReaderOk(me) && ForwarderOk(me) && IdOk(me, id) && TableOk(me, id) && CloseOk(me, id) && CanServe(me, a) && !ServesOpen(a)
    ensures CloseOk(DoServe(me, a), id)
  {
  }

  lemma ServeKeepsCloses(me: Side, a: Act, id: nat)
    requires ReaderOk(me) && ForwarderOk(me) && IdOk(me, id) && TableOk(me, id) && CloseOk(me, id) && CanServe(me, a)
    ensures CloseOk(DoServe(me, a), id)
  {
    if ServesOpen(a) {
      OpenKeepsCloses(me, a, id);
    } else {
      DataKeepsCloses(me, a, id);
    }
  }

  lemma ServeKeepsSent(me: Side, a: Act, id: nat)
    requires ReaderOk(me) && SentOk(me, id) && CanServe(me, a)
    ensures SentOk(DoServe(me, a), id)
  {
  }

  lemma ServeKeepsWritten(me: Side, a: Act, id: nat)
    requires ReaderOk(me) && WrittenOk(me, id) && CanServe(me, a)
    ensures WrittenOk(DoServe(me, a), id)
  {
    if a.Write? {
      var d := me.reader.data;
      assert d[..a.n] + d[a.n..] == d;
    }
  }

  lemma CloseConnKeepsPcs(me: Side, a: Act)
    requires ReaderOk(me) && ForwarderOk(me) && LogOk(me) && CanCloseConn(me, a)
    ensures var me' := DoCloseConn(me, a); ReaderOk(me') && ForwarderOk(me') && LogOk(me')
  {
  }

  lemma CloseConnKeepsIds(me: Side, a: Act, id: nat)
    requires ReaderOk(me) && ForwarderOk(me) && IdOk(me, id) && CanCloseConn(me, a)
    ensures IdOk(DoCloseConn(me, a), id)
  {
  }

  lemma EraseKeepsTable(me: Side, id: nat)
    requires ReaderOk(me) && ForwarderOk(me) && TableOk(me, id) && CanCloseConn(me, Erase)
    ensures TableOk(DoCloseConn(me, Erase), id)
  {
  }

  lemma MarkAndShutKeepTable(me: Side, a: Act, id: nat)
    requires ReaderOk(me) && ForwarderOk(me) && TableOk(me, id) && CanCloseConn(me, a) && !a.Erase?
    ensures TableOk(DoCloseConn(me, a), id)
  {
  }

  lemma CloseConnKeepsTable(me: Side, a: Act, id: nat)
    requires ReaderOk(me) && ForwarderOk(me) && TableOk(me, id) && CanCloseConn(me, a)
    ensures TableOk(DoCloseConn(me, a), id)
  {
    if a.Erase? {
      EraseKeepsTable(me, id);
    } else {
      MarkAndShutKeepTable(me, a, id);
    }
  }

  lemma EraseKeepsCloses(me: Side, id: nat)
    requires ReaderOk(me) && ForwarderOk(me) && IdOk(me, id) && TableOk(me, id) && CloseOk(me, id) && CanCloseConn(me, Erase)
    ensures CloseOk(DoCloseConn(me, Erase), id)
  {
  }

  lemma MarkAndShutKeepCloses(me: Side, a: Act, id: nat)
    requires ReaderOk(me) && ForwarderOk(me) && IdOk(me, id) && TableOk(me, id) && CloseOk(me, id)
    requires CanCloseConn(me, a) && !a.Erase?
    ensures CloseOk(DoCloseConn(me, a), id)
  {
  }

  lemma CloseConnKeepsCloses(me: Side, a: Act, id: nat)
    requires ReaderOk(me) && ForwarderOk(me) && IdOk(me, id) && TableOk(me, id) && CloseOk(me, id) && CanCloseConn(me, a)
    ensures CloseOk(DoCloseConn(me, a), id)
  {
    if a.Erase? {
      EraseKeepsCloses(me, id);
    } else {
      MarkAndShutKeepCloses(me, a, id);
    }
  }

  lemma CloseConnKeepsSent(me: Side, a: Act, id: nat)
    requires SentOk(me, id) && CanCloseConn(me, a)
    ensures SentOk(DoCloseConn(me, a), id)
  {
  }

  lemma CloseConnKeepsWritten(me: Side, a: Act, id: nat)
    requires WrittenOk(me, id) && CanCloseConn(me, a)
    ensures WrittenOk(DoCloseConn(me, a), id)
  {
  }

  lemma LeaveKeepsPcs(me: Side, a: Act)
    requires ReaderOk(me) && ForwarderOk(me) && LogOk(me) && CanLeave(me, a)
    ensures var me' := DoLeave(me, a); ReaderOk(me') && ForwarderOk(me') && LogOk(me')
  {
  }

  lemma LeaveKeepsIds(me: Side, a: Act, id: nat)
    requires ReaderOk(me) && ForwarderOk(me) && IdOk(me, id) && CanLeave(me, a)
    ensures IdOk(DoLeave(me, a), id)
  {
  }

  lemma SwapKeepsTable(me: Side, id: nat)
    requires ReaderOk(me) && ForwarderOk(me) && IdOk(me, id) && TableOk(me, id) && CanLeave(me, Swap)
    ensures TableOk(DoLeave(me, Swap), id)
  {
  }

  lemma SweepKeepsTable(me: Side, a: Act, id: nat)
    requires ReaderOk(me) && ForwarderOk(me) && IdOk(me, id) && TableOk(me, id) && CanLeave(me, a) && !a.Swap?
    ensures TableOk(DoLeave(me, a), id)
  {
  }

  lemma LeaveKeepsTable(me: Side, a: Act, id: nat)
    requires ReaderOk(me) && ForwarderOk(me) && IdOk(me, id) && TableOk(me, id) && CanLeave(me, a)
    ensures TableOk(DoLeave(me, a), id)
  {
    if a.Swap? {
      SwapKeepsTable(me, id);
    } else {
      SweepKeepsTable(me, a, id);
    }
  }

  lemma LeaveKeepsCloses(me: Side, a: Act, id: nat)
    requires ReaderOk(me) && ForwarderOk(me) && IdOk(me, id) && TableOk(me, id) && CloseOk(me, id) && CanLeave(me, a)
    ensures CloseOk(DoLeave(me, a), id)
  {
  }

  lemma LeaveKeepsSent(me: Side, a: Act, id: nat)
    requires SentOk(me, id) && CanLeave(me, a)
    ensures SentOk(DoLeave(me, a), id)
  {
  }

  lemma LeaveKeepsWritten(me: Side, a: Act, id: nat)
    requires WrittenOk(me, id) && CanLeave(me, a)
    ensures WrittenOk(DoLeave(me, a), id)
  {
  }

  lemma PumpKeepsPcs(me: Side, a: Act)
    requires ReaderOk(me) && ForwarderOk(me) && LogOk(me) && CanPump(me, a)
    ensures var me' := DoPump(me, a); ReaderOk(me') && ForwarderOk(me') && LogOk(me')
  {
  }

  lemma PumpKeepsIds(me: Side, a: Act, id: nat)
    requires ReaderOk(me) && ForwarderOk(me) && IdOk(me, id) && CanPump(me, a)
    ensures IdOk(DoPump(me, a), id)
  {
  }

  lemma PumpKeepsTable(me: Side, a: Act, id: nat)
    requires TableOk(me, id) && CanPump(me, a)
    ensures TableOk(DoPump(me, a), id)
  {
  }

  lemma PumpKeepsCloses(me: Side, a: Act, id: nat)
    requires ReaderOk(me) && ForwarderOk(me) && IdOk(me, id) && TableOk(me, id) && CloseOk(me, id) && CanPump(me, a)
    ensures CloseOk(DoPump(me, a), id)
  {
  }

  lemma PumpKeepsSent(me: Side, a: Act, id: nat)
    requires CloseOk(me, id) && SentOk(me, id) && CanPump(me, a)
    ensures SentOk(DoPump(me, a), id)
  {
    if a.Exchange? && a.id == id && !me.streams[id].closed {
      NoCloseIsOrdered(me.log, id);
    }
  }

  lemma PumpKeepsWritten(me: Side, a: Act, id: nat)
    requires WrittenOk(me, id) && CanPump(me, a)
    ensures WrittenOk(DoPump(me, a), id)
  {
  }

  lemma OtherKeepsPcs(me: Side, a: Act)
    requires ReaderOk(me) && ForwarderOk(me) && LogOk(me) && CanOther(me, a)
    requires IdOk(me, me.nextId)
    ensures var me' := DoOther(me, a); ReaderOk(me') && ForwarderOk(me') && LogOk(me')
  {
  }

  lemma OtherKeepsIds(me: Side, a: Act, id: nat)
    requires ReaderOk(me) && ForwarderOk(me) && IdOk(me, id) && CanOther(me, a)
    requires IdOk(me, me.nextId)
    ensures IdOk(DoOther(me, a), id)
  {
  }

  /** The forwarder's CloseConn, after an OPEN that could not be sent. */
  predicate Drops(a: Act) {
    a.DropErase? || a.DropMark? || a.DropShut?
  }

  lemma DropKeepsTable(me: Side, a: Act, id: nat)
    requires ReaderOk(me) && ForwarderOk(me) && TableOk(me, id) && CanOther(me, a) && Drops(a)
    ensures TableOk(DoOther(me, a), id)
  {
  }

  lemma ForwardKeepsTable(me: Side, a: Act, id: nat)
    requires ReaderOk(me) && ForwarderOk(me) && TableOk(me, id) && CanOther(me, a) && !Drops(a)
    ensures TableOk(DoOther(me, a), id)
  {
  }

  lemma OtherKeepsTable(me: Side, a: Act, id: nat)
    requires ReaderOk(me) && ForwarderOk(me) && TableOk(me, id) && CanOther(me, a)
    ensures TableOk(DoOther(me, a), id)
  {
    if Drops(a) {
      DropKeepsTable(me, a, id);
    } else {
      ForwardKeepsTable(me, a, id);
    }
  }

  lemma OtherKeepsCloses(me: Side, a: Act, id: nat)
    requires ReaderOk(me) && ForwarderOk(me) && IdOk(me, id) && TableOk(me, id) && CloseOk(me, id) && CanOther(me, a)
    ensures CloseOk(DoOther(me, a), id)
  {
  }

  lemma OtherKeepsSent(me: Side, a: Act, id: nat)
    requires ForwarderOk(me) && IdOk(me, id) && SentOk(me, id) && CanOther(me, a)
    ensures SentOk(DoOther(me, a), id)
  {
  }

  lemma OtherKeepsWritten(me: Side, a: Act, id: nat)
    requires ReaderOk(me) && ForwarderOk(me) && IdOk(me, id) && WrittenOk(me, id) && CanOther(me, a)
    ensures WrittenOk(DoOther(me, a), id)
  {
  }

  lemma PumpSendKeepsReader(me: Side, a: Act)
    requires ReaderOk(me) && CanTransmit(me, a) && a.sender.Pump?
    ensures ReaderOk(DoTransmit(me, a))
  {
  }

  lemma ReaderSendKeepsReader(me: Side, a: Act)
    requires ReaderOk(me) && CanTransmit(me, a) && a.sender.Reader?
    ensures ReaderOk(DoTransmit(me, a))
  {
  }

  lemma OtherSendKeepsReader(me: Side, a: Act)
    requires ReaderOk(me) && CanTransmit(me, a) && (a.sender.Forwarder? || a.sender.KeepaliveTimer?)
    ensures ReaderOk(DoTransmit(me, a))
  {
  }

  lemma TransmitKeepsReader(me: Side, a: Act)
    requires ReaderOk(me) && CanTransmit(me, a)
    ensures ReaderOk(DoTransmit(me, a))
  {
    if a.sender.Pump? {
      PumpSendKeepsReader(me, a);
    } else if a.sender.Reader? {
      ReaderSendKeepsReader(me, a);
    } else {
      OtherSendKeepsReader(me, a);
    }
  }

  lemma TransmitKeepsPcs(me: Side, a: Act)
    requires ReaderOk(me) && ForwarderOk(me) && LogOk(me) && CanTransmit(me, a)
    requires a.sender.Pump? ==> IdOk(me, a.sender.id)
    ensures var me' := DoTransmit(me, a); ReaderOk(me') && ForwarderOk(me') && LogOk(me')
  {
    TransmitKeepsReader(me, a);
  }

  lemma TransmitKeepsIds(me: Side, a: Act, id: nat)
    requires ReaderOk(me) && ForwarderOk(me) && IdOk(me, id) && CanTransmit(me, a)
    requires a.sender.Pump? ==> IdOk(me, a.sender.id)
    ensures IdOk(DoTransmit(me, a), id)
  {
  }

  lemma PumpSendKeepsTable(me: Side, a: Act, id: nat)
    requires TableOk(me, id) && CanTransmit(me, a) && a.sender.Pump?
    ensures TableOk(DoTransmit(me, a), id)
  {
  }

  lemma TransmitKeepsTable(me: Side, a: Act, id: nat)
    requires (me.reader.Swapped() ==> !me.up) && TableOk(me, id) && CanTransmit(me, a)
    ensures TableOk(DoTransmit(me, a), id)
  {
    if a.sender.Pump? {
      PumpSendKeepsTable(me, a, id);
    } else {
      assert DoTransmit(me, a).streams == me.streams;
    }
  }

  lemma PumpSendKeepsCloses(me: Side, a: Act, id: nat)
    requires ReaderOk(me) && IdOk(me, id) && TableOk(me, id) && CloseOk(me, id) && CanTransmit(me, a) && a.sender.Pump?
    ensures CloseOk(DoTransmit(me, a), id)
  {
  }

  lemma ReaderSendKeepsCloses(me: Side, a: Act, id: nat)
    requires ReaderOk(me) && IdOk(me, id) && TableOk(me, id) && CloseOk(me, id) && CanTransmit(me, a) && a.sender.Reader?
    ensures CloseOk(DoTransmit(me, a), id)
  {
  }

  lemma OtherSendKeepsCloses(me: Side, a: Act, id: nat)
    requires CloseOk(me, id) && CanTransmit(me, a) && (a.sender.Forwarder? || a.sender.KeepaliveTimer?)
    requires me.role.Client? ==> me.forwarder.Elsewhere?
    ensures CloseOk(DoTransmit(me, a), id)
  {
  }

  lemma TransmitKeepsCloses(me: Side, a: Act, id: nat)
    requires ReaderOk(me) && ForwarderOk(me) && IdOk(me, id) && TableOk(me, id) && CloseOk(me, id) && CanTransmit(me, a)
    ensures CloseOk(DoTransmit(me, a), id)
  {
    if a.sender.Pump? {
      PumpSendKeepsCloses(me, a, id);
    } else if a.sender.Reader? {
      ReaderSendKeepsCloses(me, a, id);
    } else {
      OtherSendKeepsCloses(me, a, id);
    }
  }

  lemma OwnSendKeepsSent(me: Side, a: Act, id: nat)
    requires SentOk(me, id) && CanTransmit(me, a) && a.sender == Pump(id)
    ensures SentOk(DoTransmit(me, a), id)
  {
    assert Payload(me.log, id) + [] == Payload(me.log, id);
  }

  lemma AlienSendKeepsSent(me: Side, a: Act, id: nat)
    requires SentOk(me, id) && CanTransmit(me, a) && a.sender != Pump(id)
    ensures SentOk(DoTransmit(me, a), id)
  {
    assert Payload(me.log, id) + [] == Payload(me.log, id);
    assert a.ok ==> Chunk(Outgoing(me, a.sender), id) == [];
    assert id in me.streams ==> DoTransmit(me, a).streams[id] == me.streams[id];
  }

  lemma TransmitKeepsSent(me: Side, a: Act, id: nat)
    requires SentOk(me, id) && CanTransmit(me, a)
    ensures SentOk(DoTransmit(me, a), id)
  {
    if a.sender == Pump(id) {
      OwnSendKeepsSent(me, a, id);
    } else {
      AlienSendKeepsSent(me, a, id);
    }
  }

  lemma PumpSendKeepsWritten(me: Side, a: Act, id: nat)
    requires WrittenOk(me, id) && CanTransmit(me, a) && a.sender.Pump?
    ensures WrittenOk(DoTransmit(me, a), id)
  {
  }

  lemma TransmitKeepsWritten(me: Side, a: Act, id: nat)
    requires WrittenOk(me, id) && CanTransmit(me, a)
    ensures WrittenOk(DoTransmit(me, a), id)
  {
    if a.sender.Pump? {
      PumpSendKeepsWritten(me, a, id);
    } else {
      assert DoTransmit(me, a).streams == me.streams;
    }
  }

  lemma ReadKeepsInv(me: Side, a: Act)
    requires Inv(me) && CanRead(me, a) && (a.Take? ==> TakeOk(me, a.frame))
    ensures Inv(DoRead(me, a))
  {
    assert a.Take? && a.frame.Open? ==> StreamOk(me, a.frame.id);
    ReadKeepsPcs(me, a);
    forall id: nat
      ensures StreamOk(DoRead(me, a), id)
    {
      assert StreamOk(me, id);
      ReadKeepsIds(me, a, id);
      ReadKeepsTable(me, a, id);
      ReadKeepsCloses(me, a, id);
      ReadKeepsSent(me, a, id);
      ReadKeepsWritten(me, a, id);
    }
  }

  lemma ServeKeepsInv(me: Side, a: Act)
    requires Inv(me) && CanServe(me, a)
    ensures Inv(DoServe(me, a))
  {
    ServeKeepsPcs(me, a);
    forall id: nat
      ensures StreamOk(DoServe(me, a), id)
    {
      assert StreamOk(me, id);
      ServeKeepsIds(me, a, id);
      ServeKeepsTable(me, a, id);
      ServeKeepsCloses(me, a, id);
      ServeKeepsSent(me, a, id);
      ServeKeepsWritten(me, a, id);
    }
  }

  lemma CloseConnKeepsInv(me: Side, a: Act)
    requires Inv(me) && CanCloseConn(me, a)
    ensures Inv(DoCloseConn(me, a))
  {
    CloseConnKeepsPcs(me, a);
    forall id: nat
      ensures StreamOk(DoCloseConn(me, a), id)
    {
      assert StreamOk(me, id);
      CloseConnKeepsIds(me, a, id);
      CloseConnKeepsTable(me, a, id);
      CloseConnKeepsCloses(me, a, id);
      CloseConnKeepsSent(me, a, id);
      CloseConnKeepsWritten(me, a, id);
    }
  }

  lemma LeaveKeepsInv(me: Side, a: Act)
    requires Inv(me) && CanLeave(me, a)
    ensures Inv(DoLeave(me, a))
  {
    LeaveKeepsPcs(me, a);
    forall id: nat
      ensures StreamOk(DoLeave(me, a), id)
    {
      assert StreamOk(me, id);
      LeaveKeepsIds(me, a, id);
      LeaveKeepsTable(me, a, id);
      LeaveKeepsCloses(me, a, id);
      LeaveKeepsSent(me, a, id);
      LeaveKeepsWritten(me, a, id);
    }
  }

  lemma PumpKeepsInv(me: Side, a: Act)
    requires Inv(me) && CanPump(me, a)
    ensures Inv(DoPump(me, a))
  {
    PumpKeepsPcs(me, a);
    forall id: nat
      ensures StreamOk(DoPump(me, a), id)
    {
      assert StreamOk(me, id);
      PumpKeepsIds(me, a, id);
      PumpKeepsTable(me, a, id);
      PumpKeepsCloses(me, a, id);
      PumpKeepsSent(me, a, id);
      PumpKeepsWritten(me, a, id);
    }
  }

  lemma OtherKeepsInv(me: Side, a: Act)
    requires Inv(me) && CanOther(me, a)
    ensures Inv(DoOther(me, a))
  {
    assert StreamOk(me, me.nextId);
    OtherKeepsPcs(me, a);
    forall id: nat
      ensures StreamOk(DoOther(me, a), id)
    {
      assert StreamOk(me, id);
      OtherKeepsIds(me, a, id);
      OtherKeepsTable(me, a, id);
      OtherKeepsCloses(me, a, id);
      OtherKeepsSent(me, a, id);
      OtherKeepsWritten(me, a, id);
    }
  }

  lemma TransmitKeepsInv(me: Side, a: Act)
    requires Inv(me) && CanTransmit(me, a)
    ensures Inv(DoTransmit(me, a))
  {
    assert a.sender.Pump? ==> StreamOk(me, a.sender.id);
    TransmitKeepsPcs(me, a);
    forall id: nat
      ensures StreamOk(DoTransmit(me, a), id)
    {
      assert StreamOk(me, id);
      TransmitKeepsIds(me, a, id);
      TransmitKeepsTable(me, a, id);
      TransmitKeepsCloses(me, a, id);
      TransmitKeepsSent(me, a, id);
      TransmitKeepsWritten(me, a, id);
    }
  }

  /** Every step of every thread keeps the invariant. */
  lemma StepKeepsInv(me: Side, a: Act)
    requires Inv(me) && Allowed(me, a)
    ensures Inv(Do(me, a))
  {
    if CanRead(me, a) {
      ReadKeepsInv(me, a);
    } else if CanServe(me, a) {
      ServeKeepsInv(me, a);
    } else if CanCloseConn(me, a) {
      CloseConnKeepsInv(me, a);
    } else if CanLeave(me, a) {
      LeaveKeepsInv(me, a);
    } else if CanPump(me, a) {
      PumpKeepsInv(me, a);
    } else if CanOther(me, a) {
      OtherKeepsInv(me, a);
    } else {
      TransmitKeepsInv(me, a);
    }
  }

  lemma NewEndsSatisfyInv(name: string)
    ensures Inv(NewServer()) && Inv(NewClient(name))
  {
    var c := NewClient(name);
    assert Answers(c.log.front, 0);
    forall id: nat
      ensures StreamOk(c, id)
    {
      assert Closes(c.log.front, id) == 0 && Payload(c.log.front, id) == [];
      assert NoFrames(c, id);
    }
  }
}
