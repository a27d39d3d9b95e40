/** Two runs that go on from an open stream: a local write that fails, and a teardown. They show
    that the laws about failures and endings are not idle. */
module Lives {
  import opened Frames
  import opened Endpoint
  import opened Tunnel
  import opened CloseStorm

  // -------------------------------------------------------- a write that fails

  const BYTES: Bytes := [104, 105]

  /** Bytes come in at the server and are sent. */
  function DataSent(name: string): System {
    var s := Accepted(name);
    s.(server := s.server.(streams := map[1 := FRESH_STREAM.(pump := Receiving, read := BYTES)],
                           log := Append(s.server.log, Data(1, BYTES))))
  }

  lemma SendsData(name: string) returns (run: seq<Label>)
    ensures Leads(Accepted(name), run, DataSent(name))
  {
    var s := Accepted(name);
    var s1 := s.(server := s.server.(streams := map[1 := FRESH_STREAM.(pump := Receiving, pending := BYTES)]));
    var s2 := s.(server := s.server.(streams := map[1 := FRESH_STREAM.(pump := Sending(BYTES), read := BYTES)]));
    assert BYTES[..2] == BYTES && BYTES[2..] == [] && [] + BYTES == BYTES;
    Arrives(s, s1);
    Receives(s1, s2);
    Sends(s2, DataSent(name));
    Then(s1, [AtServer(Recv(1, 2))], s2, [AtServer(Transmit(Pump(1), true))], DataSent(name));
    Then(s, [AtServer(Arrive(1, BYTES))], s1, [AtServer(Recv(1, 2))] + [AtServer(Transmit(Pump(1), true))], DataSent(name));
    run := [AtServer(Arrive(1, BYTES))] + ([AtServer(Recv(1, 2))] + [AtServer(Transmit(Pump(1), true))]);
  }

  lemma Arrives(s: System, t: System)
    requires s.server.streams == map[1 := FRESH_STREAM.(pump := Receiving)]
    requires t == s.(server := s.server.(streams := map[1 := FRESH_STREAM.(pump := Receiving, pending := BYTES)]))
    ensures Leads(s, [AtServer(Arrive(1, BYTES))], t)
  {
    assert [] + BYTES == BYTES;
    One(s, AtServer(Arrive(1, BYTES)), t);
  }

  lemma Receives(s: System, t: System)
    requires s.server.streams == map[1 := FRESH_STREAM.(pump := Receiving, pending := BYTES)]
    requires t == s.(server := s.server.(streams := map[1 := FRESH_STREAM.(pump := Sending(BYTES), read := BYTES)]))
    ensures Leads(s, [AtServer(Recv(1, 2))], t)
  {
    assert BYTES[..2] == BYTES && BYTES[2..] == [] && [] + BYTES == BYTES;
    One(s, AtServer(Recv(1, 2)), t);
  }

  lemma Sends(s: System, t: System)
    requires s.server.up && s.server.streams == map[1 := FRESH_STREAM.(pump := Sending(BYTES), read := BYTES)]
    requires t == s.(server := s.server.(streams := map[1 := FRESH_STREAM.(pump := Receiving, read := BYTES)],
                                         log := Append(s.server.log, Data(1, BYTES))))
    ensures Leads(s, [AtServer(Transmit(Pump(1), true))], t)
  {
    One(s, AtServer(Transmit(Pump(1), true)), t);
  }

  /** One step at the client. */
  lemma ClientStep(s: System, a: Act, c: Side)
    requires Can(s.client, a) && !a.Take? && Do(s.client, a) == c
    ensures Leads(s, [AtClient(a)], s.(client := c))
  {
    One(s, AtClient(a), s.(client := c));
  }

  lemma TakesData(name: string)
    ensures var s := DataSent(name);
            Leads(s, [AtClient(Take(Data(1, BYTES)))], s.(client := s.client.(got := s.server.log, reader := Fetching(1, BYTES))))
  {
    var s := DataSent(name);
    One(s, AtClient(Take(Data(1, BYTES))), s.(client := s.client.(got := s.server.log, reader := Fetching(1, BYTES))));
  }

  lemma WriteFailsNow(c: Side)
    requires c.reader == Fetching(1, BYTES) && Held(c, 1)
    ensures Can(c, GetConn) && Do(c, GetConn) == c.(reader := Writing(1, BYTES))
    ensures var d := c.(reader := Writing(1, BYTES)); Can(d, WriteFails) && Do(d, WriteFails) == c.(reader := Erasing(1, true))
  {
  }

  lemma ErasesAndMarks(c: Side)
    requires c.reader == Erasing(1, true) && Held(c, 1)
    ensures var d := c.(reader := Marking(1, true), streams := c.streams[1 := c.streams[1].(inTable := false)]);
            && Can(c, Erase) && Do(c, Erase) == d
            && Can(d, Mark) && Do(d, Mark) == d.(reader := Shutting(1, true), streams := c.streams[1 := c.streams[1].(inTable := false, closed := true)])
  {
    assert c.streams[1 := c.streams[1].(inTable := false)][1 := c.streams[1].(inTable := false, closed := true)]
        == c.streams[1 := c.streams[1].(inTable := false, closed := true)];
  }

  lemma ShutsAndTells(c: Side)
    requires c.reader == Shutting(1, true) && 1 in c.streams && c.up
    ensures var d := c.(reader := Closing(1, "local write failed"), streams := c.streams[1 := c.streams[1].(shut := true)]);
            && Can(c, Shut) && Do(c, Shut) == d
            && Can(d, Transmit(Reader, true))
            && Do(d, Transmit(Reader, true)) == d.(reader := Reading, log := Append(c.log, Close(1, "local write failed")))
  {
  }

  /** The run so far, one client step longer. */
  lemma OneMore(r: System, run: seq<Label>, s: System, a: Act, c: Side)
    requires Leads(r, run, s) && Can(s.client, a) && !a.Take? && Do(s.client, a) == c
    ensures Leads(r, run + [AtClient(a)], s.(client := c))
  {
    ClientStep(s, a, c);
    Then(r, run, s, [AtClient(a)], s.(client := c));
  }

  /** DATA arrives for a stream whose local socket fails: the stream is dropped, its connection
      shut down, and the CLOSE says why. */
  lemma AWriteFails(name: string) returns (run: seq<Label>, t: System)
    ensures Leads(Initial(name), run, t)
    ensures t.client.reader.Reading? && t.client.up && !Held(t.client, 1) && 1 in t.client.streams && t.client.streams[1].shut
    ensures t.client.log == Append(DataSent(name).client.log, Close(1, "local write failed"))
  {
    var opening, open := AStreamOpens(name);
    var sending := SendsData(name);
    var failing;
    failing, t := FailsAfterData(name);
    Then(open, sending, DataSent(name), failing, t);
    Then(Initial(name), opening, open, sending + failing, t);
    run := opening + (sending + failing);
  }

  lemma FailsAfterData(name: string) returns (run: seq<Label>, t: System)
    ensures Leads(DataSent(name), run, t)
    ensures t.client.reader.Reading? && t.client.up && !Held(t.client, 1) && 1 in t.client.streams && t.client.streams[1].shut
    ensures t.client.log == Append(DataSent(name).client.log, Close(1, "local write failed"))
  {
    var r := DataSent(name);
    TakesData(name);
    run := [AtClient(Take(Data(1, BYTES)))];
    t := r.(client := r.client.(got := r.server.log, reader := Fetching(1, BYTES)));
    var c := t.client;
    WriteFailsNow(c);
    OneMore(r, run, t, GetConn, c.(reader := Writing(1, BYTES)));
    run, t := run + [AtClient(GetConn)], t.(client := c.(reader := Writing(1, BYTES)));
    OneMore(r, run, t, WriteFails, c.(reader := Erasing(1, true)));
    run, t := run + [AtClient(WriteFails)], t.(client := c.(reader := Erasing(1, true)));
    run, t := Drops(r, run, t);
  }

  lemma Drops(r: System, before: seq<Label>, s: System) returns (run: seq<Label>, t: System)
    requires Leads(r, before, s) && s.client.reader == Erasing(1, true) && Held(s.client, 1) && s.client.up
    ensures Leads(r, run, t)
    ensures t.client.reader.Reading? && t.client.up && !Held(t.client, 1) && 1 in t.client.streams && t.client.streams[1].shut
    ensures t.client.log == Append(s.client.log, Close(1, "local write failed"))
  {
    run, t := before, s;
    ErasesAndMarks(t.client);
    var c := Do(t.client, Erase);
    OneMore(r, run, t, Erase, c);
    run, t := run + [AtClient(Erase)], t.(client := c);
    var d := Do(c, Mark);
    OneMore(r, run, t, Mark, d);
    run, t := run + [AtClient(Mark)], t.(client := d);
    run, t := Tells(r, run, t);
  }

  lemma Tells(r: System, before: seq<Label>, s: System) returns (run: seq<Label>, t: System)
    requires Leads(r, before, s) && s.client.reader == Shutting(1, true) && 1 in s.client.streams && s.client.up
    ensures Leads(r, run, t)
    ensures t.client == s.client.(reader := Reading, log := Append(s.client.log, Close(1, "local write failed")),
                                  streams := s.client.streams[1 := s.client.streams[1].(shut := true)])
  {
    run, t := before, s;
    ShutsAndTells(t.client);
    var c := Do(t.client, Shut);
    OneMore(r, run, t, Shut, c);
    run, t := run + [AtClient(Shut)], t.(client := c);
    var d := Do(c, Transmit(Reader, true));
    OneMore(r, run, t, Transmit(Reader, true), d);
    run, t := run + [AtClient(Transmit(Reader, true))], t.(client := d);
  }

  // ---------------------------------------------------------------- a teardown

  const OPEN_STREAM := FRESH_STREAM.(pump := Receiving)
  const SHUT_STREAM := OPEN_STREAM.(inTable := false, closed := true, shut := true)

  lemma LeavesLoop(c: Side)
    requires c.reader == Reading
    ensures Can(c, ReadEnds) && Do(c, ReadEnds) == c.(reader := Leaving)
    ensures var d := c.(reader := Leaving); Can(d, Remove) && Do(d, Remove) == c.(reader := Fencing, listed := false)
    ensures var d := c.(reader := Fencing, listed := false);
            Can(d, Fence) && Do(d, Fence) == c.(reader := Swapping, listed := false, up := false)
  {
  }

  lemma Swaps(c: Side)
    requires c.reader == Swapping && c.streams == map[1 := OPEN_STREAM]
    ensures var d := c.(reader := Sweeping({1}), streams := map[1 := OPEN_STREAM.(inTable := false)]);
            && Can(c, Swap) && Do(c, Swap) == d
            && Can(d, SweepMark(1))
            && Do(d, SweepMark(1)) == c.(reader := SweepShutting(1, {}), streams := map[1 := OPEN_STREAM.(inTable := false, closed := true)])
  {
    var todo := set id | id in c.streams && c.streams[id].inTable;
    assert todo == {1} && todo - {1} == {};
    var swept := map id | id in c.streams :: c.streams[id].(inTable := false);
    assert swept == map[1 := OPEN_STREAM.(inTable := false)];
    assert DoLeave(c, Swap) == c.(reader := Sweeping(todo), streams := swept);
    assert swept[1 := OPEN_STREAM.(inTable := false, closed := true)] == map[1 := OPEN_STREAM.(inTable := false, closed := true)];
  }

  lemma SweepsAway(c: Side)
    requires c.reader == SweepShutting(1, {}) && c.streams == map[1 := OPEN_STREAM.(inTable := false, closed := true)]
    ensures var d := c.(reader := Sweeping({}), streams := map[1 := SHUT_STREAM]);
            && Can(c, SweepShut) && Do(c, SweepShut) == d
            && Can(d, SweepEnd) && Do(d, SweepEnd) == d.(reader := Gone)
  {
  }

  lemma PumpEnds(c: Side)
    requires c.reader == Gone && c.streams == map[1 := SHUT_STREAM]
    ensures var d := c.(streams := map[1 := SHUT_STREAM.(pump := Ended(true))]);
            && Can(c, RecvEnds(1)) && Do(c, RecvEnds(1)) == d
            && Can(d, Exchange(1)) && Do(d, Exchange(1)) == c.(streams := map[1 := SHUT_STREAM.(pump := Settled(false, true))])
  {
  }

  lemma PumpExits(c: Side)
    requires c.reader == Gone && c.streams == map[1 := SHUT_STREAM.(pump := Settled(false, true))]
    ensures var d := c.(streams := map[1 := SHUT_STREAM.(pump := Erased(false, true))]);
            && Can(c, PumpErase(1)) && Do(c, PumpErase(1)) == d
            && Can(d, PumpQuiet(1)) && Do(d, PumpQuiet(1)) == c.(streams := map[1 := SHUT_STREAM.(pump := Done(false, true))])
  {
  }

  lemma TwoMore(r: System, run: seq<Label>, s: System, a: Act, c: Side, b: Act, d: Side)
    requires Leads(r, run, s) && Can(s.client, a) && !a.Take? && Do(s.client, a) == c
    requires Can(c, b) && !b.Take? && Do(c, b) == d
    ensures Leads(r, run + [AtClient(a)] + [AtClient(b)], s.(client := d))
  {
    OneMore(r, run, s, a, c);
    OneMore(r, run + [AtClient(a)], s.(client := c), b, d);
    assert s.(client := c).(client := d) == s.(client := d);
  }

  /** The stream ends at the client: it tears the session down, and its pump goes too. */
  lemma ASessionEnds(name: string) returns (run: seq<Label>, t: System)
    ensures Leads(Initial(name), run, t) && AllOver(t.client) && 1 in t.client.streams && t.client.streams[1].pump.Done?
  {
    var opening, open := AStreamOpens(name);
    var ending;
    ending, t := EndsWithAStream(name);
    Then(Initial(name), opening, open, ending, t);
    run := opening + ending;
  }

  lemma EndsWithAStream(name: string) returns (run: seq<Label>, t: System)
    ensures Leads(Accepted(name), run, t) && AllOver(t.client) && 1 in t.client.streams && t.client.streams[1].pump.Done?
  {
    var r := Accepted(name);
    var c := r.client;
    LeavesLoop(c);
    run := [];
    TwoMore(r, run, r, ReadEnds, Do(c, ReadEnds), Remove, Do(Do(c, ReadEnds), Remove));
    run := run + [AtClient(ReadEnds)] + [AtClient(Remove)];
    t := r.(client := c.(reader := Fencing, listed := false));
    OneMore(r, run, t, Fence, c.(reader := Swapping, listed := false, up := false));
    run := run + [AtClient(Fence)];
    t := r.(client := c.(reader := Swapping, listed := false, up := false));
    run, t := SweptAway(r, run, t);
    run, t := PumpGone(r, run, t);
  }

  lemma PumpGone(r: System, before: seq<Label>, s: System) returns (run: seq<Label>, t: System)
    requires Leads(r, before, s) && s.client.reader == Gone && s.client.streams == map[1 := SHUT_STREAM]
    ensures Leads(r, run, t) && t.client == s.client.(streams := map[1 := SHUT_STREAM.(pump := Done(false, true))])
  {
    run, t := before, s;
    PumpEnds(t.client);
    var d := Do(Do(t.client, RecvEnds(1)), Exchange(1));
    TwoMore(r, run, t, RecvEnds(1), Do(t.client, RecvEnds(1)), Exchange(1), d);
    run, t := run + [AtClient(RecvEnds(1))] + [AtClient(Exchange(1))], t.(client := d);
    PumpExits(d);
    var e := Do(Do(d, PumpErase(1)), PumpQuiet(1));
    TwoMore(r, run, t, PumpErase(1), Do(d, PumpErase(1)), PumpQuiet(1), e);
    run, t := run + [AtClient(PumpErase(1))] + [AtClient(PumpQuiet(1))], t.(client := e);
  }

  lemma SweptAway(r: System, before: seq<Label>, s: System) returns (run: seq<Label>, t: System)
    requires Leads(r, before, s) && s.client.reader == Swapping && s.client.streams == map[1 := OPEN_STREAM]
    ensures Leads(r, run, t) && t.client == s.client.(reader := Gone, streams := map[1 := SHUT_STREAM])
  {
    var c := s.client;
    Swaps(c);
    var d := Do(Do(c, Swap), SweepMark(1));
    TwoMore(r, before, s, Swap, Do(c, Swap), SweepMark(1), d);
    run, t := before + [AtClient(Swap)] + [AtClient(SweepMark(1))], s.(client := d);
    SweepsAway(d);
    var e := Do(Do(d, SweepShut), SweepEnd);
    TwoMore(r, run, t, SweepShut, Do(d, SweepShut), SweepEnd, e);
    run, t := run + [AtClient(SweepShut)] + [AtClient(SweepEnd)], t.(client := e);
  }
}
