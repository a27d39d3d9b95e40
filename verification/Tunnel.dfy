/** The two ends joined by the two FIFO directions of one stream, and what holds in every
    state that any interleaving of their threads can reach. */
module Tunnel {
  import opened Frames
  import opened Endpoint
  import opened EndpointInvariant

  datatype System = System(server: Side, client: Side)

  datatype Label = AtServer(act: Act) | AtClient(act: Act)

  /** A reader can only take the frame its peer put on next. */
  ghost predicate Enabled(s: System, l: Label) {
    match l
    case AtServer(a) => Can(s.server, a) && (a.Take? ==> Prefix(Append(s.server.got, a.frame), s.client.log))
    case AtClient(a) => Can(s.client, a) && (a.Take? ==> Prefix(Append(s.client.got, a.frame), s.server.log))
  }

  ghost function After(s: System, l: Label): System
    requires Enabled(s, l)
  {
    match l
    case AtServer(a) => s.(server := Do(s.server, a))
    case AtClient(a) => s.(client := Do(s.client, a))
  }

  /** `t` is reached from `s` by this sequence of steps. */
  ghost predicate Leads(s: System, run: seq<Label>, t: System)
    decreases run
  {
    if run == [] then s == t else Enabled(s, run[0]) && Leads(After(s, run[0]), run[1..], t)
  }

  function Initial(name: string): System {
    System(NewServer(), NewClient(name))
  }

  ghost predicate SystemInv(s: System) {
    && s.server.role.Server? && s.client.role.Client?
    && Inv(s.server) && Inv(s.client)
    && Prefix(s.server.got, s.client.log) && Prefix(s.client.got, s.server.log)
  }

  lemma FramesFit(s: System, l: Label)
    requires SystemInv(s) && Enabled(s, l)
    ensures l.AtServer? ==> Allowed(s.server, l.act)
    ensures l.AtClient? ==> Allowed(s.client, l.act)
  {
    if l.act.Take? {
      if l.AtServer? {
        NextAnswers(s.server.got, l.act.frame, s.client.log, Known(s.client));
        PrefixMeasures(s.client.got, s.server.log, 0);
      } else {
        NextFits(s.client.got, l.act.frame, s.server.log);
      }
    }
  }

  lemma StepKeepsSystemInv(s: System, l: Label)
    requires SystemInv(s) && Enabled(s, l)
    ensures SystemInv(After(s, l))
  {
    FramesFit(s, l);
    match l
    case AtServer(a) =>
      StepKeepsInv(s.server, a);
    case AtClient(a) =>
      StepKeepsInv(s.client, a);
  }

  lemma {:induction false} RunKeepsSystemInv(s: System, run: seq<Label>, t: System)
    requires SystemInv(s) && Leads(s, run, t)
    ensures SystemInv(t)
    decreases run
  {
    if run != [] {
      StepKeepsSystemInv(s, run[0]);
      RunKeepsSystemInv(After(s, run[0]), run[1..], t);
    }
  }

  lemma ReachableInv(name: string, run: seq<Label>, t: System)
    requires Leads(Initial(name), run, t)
    ensures SystemInv(t)
  {
    NewEndsSatisfyInv(name);
    RunKeepsSystemInv(Initial(name), run, t);
  }

  // -------------------------------------------------------- table agreement

  /** The session is up: no failed write, no teardown. */
  predicate Up(s: System) {
    s.server.up && s.client.up && s.server.reader.InLoop() && s.client.reader.InLoop()
  }

  /** No thread of this end is between two steps of one operation. */
  ghost predicate AtRest(me: Side) {
    && me.reader.Reading? && me.forwarder.Elsewhere?
    && (forall id :: id in me.streams ==>
          me.streams[id].pump.Unstarted? || me.streams[id].pump.Receiving? || me.streams[id].pump.Done?)
  }

  ghost predicate Quiescent(s: System) {
    && AtRest(s.server) && AtRest(s.client)
    && s.server.got == s.client.log && s.client.got == s.server.log
  }

  function Table(me: Side): set<nat> {
    set id | id in me.streams && me.streams[id].inTable
  }

  /** Whenever a live session has gone quiet, both ends hold exactly the same streams. */
  lemma TablesAgree(name: string, run: seq<Label>, t: System)
    requires Leads(Initial(name), run, t) && Up(t) && Quiescent(t)
    ensures Table(t.server) == Table(t.client)
  {
    ReachableInv(name, run, t);
    forall id: nat
      ensures Held(t.server, id) == Held(t.client, id)
    {
      assert StreamOk(t.server, id) && StreamOk(t.client, id);
    }
    forall id: nat
      ensures id in Table(t.server) <==> id in Table(t.client)
    {
      assert Held(t.server, id) == Held(t.client, id);
    }
  }

  /** A side that has sent CLOSE for a stream never holds it again, whatever happens next. */
  lemma ClosedStaysClosed(name: string, run: seq<Label>, t: System, id: nat)
    requires Leads(Initial(name), run, t)
    ensures Closes(t.server.log, id) > 0 ==> !Held(t.server, id)
    ensures Closes(t.client.log, id) > 0 ==> !Held(t.client, id)
  {
    ReachableInv(name, run, t);
    assert StreamOk(t.server, id) && StreamOk(t.client, id);
  }

  /** While a session is up, a side that has dropped a stream has sent CLOSE for it, has
      received CLOSE for it, or has a thread that is about to send it. */
  lemma DroppedIsAnnounced(name: string, run: seq<Label>, t: System, id: nat)
    requires Leads(Initial(name), run, t)
    ensures forall me | me in {t.server, t.client} ::
              me.up && me.reader.InLoop() && id in me.streams && !Held(me, id) ==>
                Closes(me.log, id) > 0 || Closes(me.got, id) > 0 || OwesClose(me, id)
  {
    ReachableInv(name, run, t);
    assert StreamOk(t.server, id) && StreamOk(t.client, id);
  }

  // --------------------------------------------------------- byte integrity

  function BytesRead(me: Side, id: nat): Bytes {
    if id in me.streams then me.streams[id].read else []
  }

  function BytesWritten(me: Side, id: nat): Bytes {
    if id in me.streams then me.streams[id].written else []
  }

  lemma SentIsPrefixOfRead(me: Side, id: nat)
    requires Inv(me)
    ensures Payload(me.log, id) <= BytesRead(me, id)
  {
    assert StreamOk(me, id);
  }

  lemma WrittenIsPrefixOfReceived(me: Side, id: nat)
    requires Inv(me)
    ensures BytesWritten(me, id) <= Payload(me.got, id)
  {
    assert StreamOk(me, id);
  }

  /** In each direction, what reaches the far socket of a stream is a prefix of what was
      read from the near socket of that same stream. */
  lemma BytesArriveInOrder(name: string, run: seq<Label>, t: System, id: nat)
    requires Leads(Initial(name), run, t)
    ensures BytesWritten(t.client, id) <= BytesRead(t.server, id)
    ensures BytesWritten(t.server, id) <= BytesRead(t.client, id)
  {
    ReachableInv(name, run, t);
    SentIsPrefixOfRead(t.server, id);
    SentIsPrefixOfRead(t.client, id);
    WrittenIsPrefixOfReceived(t.server, id);
    WrittenIsPrefixOfReceived(t.client, id);
    PrefixMeasures(t.client.got, t.server.log, id);
    PrefixMeasures(t.server.got, t.client.log, id);
  }

  // ---------------------------------------------------------- lossless end

  /** This end's pump ended on its own socket, found the stream still open, and lost no send. */
  predicate EndedCleanly(me: Side, id: nat) {
    id in me.streams && me.streams[id].pump.Exchanged() && me.streams[id].pump.ours && me.streams[id].pump.clean
  }

  /** Nothing of the stream follows a CLOSE of it in an ordered log. */
  lemma {:induction false} NothingAfterClose(got: Log, f: Frame, log: Log, id: nat)
    requires Prefix(Append(got, f), log) && DataBeforeClose(log, id)
    requires f.Close? && f.id == id
    ensures Payload(log, id) == Payload(got, id) && Closes(log, id) > 0
  {
    if Append(got, f) != log {
      NothingAfterClose(got, f, log.front, id);
    }
  }

  /** The DATA before a given frame came before every CLOSE before it. */
  lemma {:induction false} OrderedAt(before: Log, f: Frame, log: Log, id: nat)
    requires Prefix(Append(before, f), log) && DataBeforeClose(log, id)
    ensures f.Data? && f.id == id ==> Closes(before, id) == 0
  {
    if Append(before, f) != log {
      OrderedAt(before, f, log.front, id);
    }
  }

  /** After a clean end, every CLOSE of the stream follows all its DATA; and a far end that is
      about to take such a CLOSE with the stream still open has written every byte read. */
  lemma CleanEnd(near: Side, far: Side, id: nat)
    requires Inv(near) && Inv(far) && Prefix(far.got, near.log) && EndedCleanly(near, id)
    ensures forall before, f | Prefix(Append(before, f), near.log) && f.Data? && f.id == id :: Closes(before, id) == 0
    ensures forall f | Prefix(Append(far.got, f), near.log) && f.Close? && f.id == id ::
              far.reader.Reading? && Held(far, id) ==> BytesWritten(far, id) == BytesRead(near, id)
  {
    assert StreamOk(near, id) && StreamOk(far, id);
    forall before, f | Prefix(Append(before, f), near.log) && f.Data? && f.id == id
      ensures Closes(before, id) == 0
    {
      OrderedAt(before, f, near.log, id);
    }
    forall f | Prefix(Append(far.got, f), near.log) && f.Close? && f.id == id
      ensures far.reader.Reading? && Held(far, id) ==> BytesWritten(far, id) == BytesRead(near, id)
    {
      NothingAfterClose(far.got, f, near.log, id);
    }
  }

  lemma NothingLostOnCleanEnd(name: string, run: seq<Label>, t: System, id: nat)
    requires Leads(Initial(name), run, t)
    ensures EndedCleanly(t.server, id) ==>
              && (forall before, f | Prefix(Append(before, f), t.server.log) && f.Data? && f.id == id :: Closes(before, id) == 0)
              && (forall f | Prefix(Append(t.client.got, f), t.server.log) && f.Close? && f.id == id ::
                    t.client.reader.Reading? && Held(t.client, id) ==> BytesWritten(t.client, id) == BytesRead(t.server, id))
    ensures EndedCleanly(t.client, id) ==>
              && (forall before, f | Prefix(Append(before, f), t.client.log) && f.Data? && f.id == id :: Closes(before, id) == 0)
              && (forall f | Prefix(Append(t.server.got, f), t.client.log) && f.Close? && f.id == id ::
                    t.server.reader.Reading? && Held(t.server, id) ==> BytesWritten(t.server, id) == BytesRead(t.client, id))
  {
    ReachableInv(name, run, t);
    if EndedCleanly(t.server, id) {
      CleanEnd(t.server, t.client, id);
    }
    if EndedCleanly(t.client, id) {
      CleanEnd(t.client, t.server, id);
    }
  }

  // ------------------------------------------- no stream outlives its session

  /** The reader has torn the session down and no forwarder iteration is left on it. */
  predicate Finished(me: Side) {
    me.reader.Gone? && me.forwarder.Elsewhere?
  }

  /** No stream is left on the table, and each one ever added was shut down or given up by
      its own pump. */
  ghost predicate AllReleased(me: Side) {
    forall id :: id in me.streams ==>
      !me.streams[id].inTable && (me.streams[id].shut || me.streams[id].pump.Exchanged())
  }

  lemma FinishedIsReleased(me: Side)
    requires Inv(me) && Finished(me)
    ensures AllReleased(me) && !me.listed && !me.up
  {
    forall id | id in me.streams
      ensures !me.streams[id].inTable && (me.streams[id].shut || me.streams[id].pump.Exchanged())
    {
      assert StreamOk(me, id);
    }
  }

  lemma NoForwarderComesBack(me: Side, a: Act)
    requires Finished(me) && !me.listed && CanOther(me, a)
    ensures Finished(DoOther(me, a))
  {
  }

  lemma NoSendSucceeds(me: Side, a: Act)
    requires Finished(me) && !me.up && CanTransmit(me, a)
    ensures Finished(DoTransmit(me, a)) && !a.ok
  {
  }

  lemma FinishedIsFinal(me: Side, a: Act)
    requires Finished(me) && !me.listed && !me.up && Can(me, a)
    ensures Finished(Do(me, a)) && Do(me, a).log == me.log
  {
    assert !CanRead(me, a) && !CanServe(me, a) && !CanCloseConn(me, a) && !CanLeave(me, a);
    if CanOther(me, a) {
      NoForwarderComesBack(me, a);
    } else if !CanPump(me, a) {
      NoSendSucceeds(me, a);
    }
  }

  lemma {:induction false} FinishedForever(s: System, run: seq<Label>, t: System)
    requires SystemInv(s) && Leads(s, run, t)
    ensures Finished(s.server) ==> Finished(t.server) && AllReleased(t.server) && t.server.log == s.server.log
    ensures Finished(s.client) ==> Finished(t.client) && AllReleased(t.client) && t.client.log == s.client.log
    decreases run
  {
    if run == [] {
      if Finished(s.server) { FinishedIsReleased(s.server); }
      if Finished(s.client) { FinishedIsReleased(s.client); }
    } else {
      StepKeepsSystemInv(s, run[0]);
      if run[0].AtServer? && Finished(s.server) {
        FinishedIsReleased(s.server);
        FinishedIsFinal(s.server, run[0].act);
      }
      if run[0].AtClient? && Finished(s.client) {
        FinishedIsReleased(s.client);
        FinishedIsFinal(s.client, run[0].act);
      }
      FinishedForever(After(s, run[0]), run[1..], t);
    }
  }

  /** From the moment an end is finished its table is empty forever, every connection ever
      added has been shut down or given up, and nothing more is sent. */
  lemma NoStreamOutlivesSession(name: string, before: seq<Label>, s: System, after: seq<Label>, t: System)
    requires Leads(Initial(name), before, s) && Leads(s, after, t)
    ensures Finished(s.server) ==> Finished(t.server) && AllReleased(t.server) && t.server.log == s.server.log
    ensures Finished(s.client) ==> Finished(t.client) && AllReleased(t.client) && t.client.log == s.client.log
  {
    ReachableInv(name, before, s);
    FinishedForever(s, after, t);
  }

  // ------------------------------------------------------- frame causality

  function OpenIds(log: Log): seq<nat> {
    match log
    case Empty => []
    case Append(front, f) => OpenIds(front) + if f.Open? then [f.id] else []
  }

  lemma {:induction false} OpensCountUp(log: Log)
    requires WellOpened(log)
    ensures OpenIds(log) == seq(Opens(log), i => i + 1)
  {
    if log.Append? {
      OpensCountUp(log.front);
    }
  }

  lemma {:induction false} AnswersOpenNothing(log: Log, known: nat)
    requires Answers(log, known)
    ensures OpenIds(log) == []
  {
    if log.Append? {
      AnswersOpenNothing(log.front, known);
    }
  }

  ghost predicate SpeaksOf(f: Frame, id: nat) {
    (f.Data? || f.Close?) && f.id == id
  }

  /** The server's OPENs are 1..k in order; every DATA or CLOSE of the server follows the OPEN
      of its id; the client opens nothing, and speaks of an id only once it has read its OPEN. */
  lemma FramesAreCausal(name: string, run: seq<Label>, t: System)
    requires Leads(Initial(name), run, t)
    ensures OpenIds(t.server.log) == seq(Opens(t.server.log), i => i + 1)
    ensures OpenIds(t.client.log) == []
    ensures forall before, f, id | Prefix(Append(before, f), t.server.log) && SpeaksOf(f, id) :: id in OpenIds(before)
    ensures forall before, f, id | Prefix(Append(before, f), t.client.log) && SpeaksOf(f, id) :: id in OpenIds(t.client.got)
  {
    ReachableInv(name, run, t);
    OpensCountUp(t.server.log);
    AnswersOpenNothing(t.client.log, Known(t.client));
    forall before, f, id | Prefix(Append(before, f), t.server.log) && SpeaksOf(f, id)
      ensures id in OpenIds(before)
    {
      NextFits(before, f, t.server.log);
      WellOpenedPrefix(before, f, t.server.log);
      OpensCountUp(before);
      assert OpenIds(before)[id - 1] == id;
    }
    WellOpenedPrefixOf(t.client.got, t.server.log);
    OpensCountUp(t.client.got);
    forall before, f, id | Prefix(Append(before, f), t.client.log) && SpeaksOf(f, id)
      ensures id in OpenIds(t.client.got)
    {
      NextAnswers(before, f, t.client.log, Known(t.client));
      assert OpenIds(t.client.got)[id - 1] == id;
    }
  }

  lemma {:induction false} WellOpenedPrefixOf(got: Log, log: Log)
    requires Prefix(got, log) && WellOpened(log)
    ensures WellOpened(got)
  {
    if got != log {
      WellOpenedPrefixOf(got, log.front);
    }
  }

  lemma WellOpenedPrefix(got: Log, f: Frame, log: Log)
    requires Prefix(Append(got, f), log) && WellOpened(log)
    ensures WellOpened(got)
  {
    WellOpenedPrefixOf(Append(got, f), log);
  }

  /** An id handed to AddConn has never been used at this end, so one id names one connection
      and the erase-by-id of a pump can only take its own connection off the table. */
  lemma AddConnNeverOverwrites(name: string, run: seq<Label>, t: System)
    requires Leads(Initial(name), run, t)
    ensures t.server.forwarder.Inserting? ==> t.server.forwarder.id !in t.server.streams
    ensures t.client.reader.Adding? ==> t.client.reader.id !in t.client.streams
    ensures !t.server.reader.Adding? && !t.client.forwarder.Inserting?
  {
    ReachableInv(name, run, t);
  }

  // ------------------------------------------------------------- an example

  /** A run of two halves. */
  lemma {:induction false} Then(s: System, run: seq<Label>, t: System, more: seq<Label>, u: System)
    requires Leads(s, run, t) && Leads(t, more, u)
    ensures Leads(s, run + more, u)
    decreases run
  {
    if run == [] {
      assert run + more == more;
    } else {
      Then(After(s, run[0]), run[1..], t, more, u);
      assert (run + more)[1..] == run[1..] + more;
    }
  }

  lemma One(s: System, l: Label, t: System)
    requires Enabled(s, l) && After(s, l) == t
    ensures Leads(s, [l], t)
  {
    assert Leads(t, [l][1..], t);
  }

  function Registered(name: string): System {
    System(NewServer().(name := name, listed := true, log := Append(Empty, RegisterAck(name)), got := Append(Empty, Register(name))),
           NewClient(name).(got := Append(Empty, RegisterAck(name))))
  }

  function Offered(name: string): System {
    var s := Registered(name);
    s.(server := s.server.(nextId := 2, streams := map[1 := FRESH_STREAM.(pump := Receiving)],
                           log := Append(s.server.log, Open(1, name))))
  }

  function Accepted(name: string): System {
    var s := Offered(name);
    s.(client := s.client.(streams := map[1 := FRESH_STREAM.(pump := Receiving)], got := s.server.log))
  }

  lemma Registers(name: string) returns (run: seq<Label>)
    ensures Leads(Initial(name), run, Registered(name))
  {
    var s := Initial(name);
    var a := AtServer(Take(Register(name)));
    var b := AtServer(Transmit(Reader, true));
    var c := AtClient(Take(RegisterAck(name)));
    One(s, a, After(s, a));
    One(After(s, a), b, After(After(s, a), b));
    One(After(After(s, a), b), c, Registered(name));
    Then(After(s, a), [b], After(After(s, a), b), [c], Registered(name));
    Then(s, [a], After(s, a), [b] + [c], Registered(name));
    run := [a] + ([b] + [c]);
  }

  function Inserted(name: string): System {
    var s := Registered(name);
    s.(server := s.server.(forwarder := Endpoint.Opening(1, name), nextId := 2, streams := map[1 := FRESH_STREAM]))
  }

  function LookedUp(name: string): System {
    var s := Registered(name);
    s.(server := s.server.(forwarder := Holding(name)))
  }

  lemma LooksUp(name: string)
    ensures Leads(Registered(name), [AtServer(Lookup)], LookedUp(name))
  {
    One(Registered(name), AtServer(Lookup), LookedUp(name));
  }

  lemma Inserts(name: string) returns (run: seq<Label>)
    ensures Leads(LookedUp(name), run, Inserted(name))
  {
    var s := LookedUp(name);
    var s1 := s.(server := s.server.(forwarder := Inserting(1, name), nextId := 2));
    One(s, AtServer(NextId), s1);
    One(s1, AtServer(Insert), Inserted(name));
    Then(s, [AtServer(NextId)], s1, [AtServer(Insert)], Inserted(name));
    run := [AtServer(NextId)] + [AtServer(Insert)];
  }

  function Announced(name: string): System {
    var s := Inserted(name);
    s.(server := s.server.(forwarder := Starting(1), log := Append(s.server.log, Open(1, name))))
  }

  lemma Announces(name: string)
    ensures Leads(Inserted(name), [AtServer(Transmit(Forwarder, true))], Announced(name))
  {
    One(Inserted(name), AtServer(Transmit(Forwarder, true)), Announced(name));
  }

  lemma Starts(name: string)
    ensures Leads(Announced(name), [AtServer(Start)], Offered(name))
  {
    One(Announced(name), AtServer(Start), Offered(name));
  }

  lemma Offers(name: string) returns (run: seq<Label>)
    ensures Leads(Inserted(name), run, Offered(name))
  {
    Announces(name);
    Starts(name);
    Then(Inserted(name), [AtServer(Transmit(Forwarder, true))], Announced(name), [AtServer(Start)], Offered(name));
    run := [AtServer(Transmit(Forwarder, true))] + [AtServer(Start)];
  }

  lemma Accepts(name: string) returns (run: seq<Label>)
    ensures Leads(Offered(name), run, Accepted(name))
  {
    var s := Offered(name);
    var s1 := s.(client := s.client.(reader := Dialing(1, name), got := s.server.log));
    var s2 := s1.(client := s1.client.(reader := Adding(1)));
    var s3 := s1.(client := s1.client.(reader := Spawning(1), streams := map[1 := FRESH_STREAM]));
    One(s, AtClient(Take(Open(1, name))), s1);
    One(s1, AtClient(Dial), s2);
    One(s2, AtClient(AddConn), s3);
    One(s3, AtClient(Spawn), Accepted(name));
    run := [AtClient(Take(Open(1, name)))];
    Then(s, run, s1, [AtClient(Dial)], s2);
    run := run + [AtClient(Dial)];
    Then(s, run, s2, [AtClient(AddConn)], s3);
    run := run + [AtClient(AddConn)];
    Then(s, run, s3, [AtClient(Spawn)], Accepted(name));
    run := run + [AtClient(Spawn)];
  }

  /** The quiet state of `TablesAgree` is reachable with a stream in it. */
  lemma AStreamOpens(name: string) returns (run: seq<Label>, t: System)
    ensures Leads(Initial(name), run, t) && Up(t) && Quiescent(t)
    ensures Table(t.server) == Table(t.client) == {1} && t == Accepted(name)
  {
    var register := Registers(name);
    var insert := Inserts(name);
    var offer := Offers(name);
    var accept := Accepts(name);
    t := Accepted(name);
    Then(Inserted(name), offer, Offered(name), accept, t);
    Then(LookedUp(name), insert, Inserted(name), offer + accept, t);
    LooksUp(name);
    Then(Registered(name), [AtServer(Lookup)], LookedUp(name), insert + (offer + accept), t);
    Then(Initial(name), register, Registered(name), [AtServer(Lookup)] + (insert + (offer + accept)), t);
    run := register + ([AtServer(Lookup)] + (insert + (offer + accept)));
  }
}
