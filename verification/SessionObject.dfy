/** The session object itself, one method per member function, run without interference;
    and the lemmas that tie its methods to the steps the threads take in module Endpoint. */
module SessionObject {
  import opened Frames
  import opened Endpoint

  /** What the threads can see of one connection. */
  datatype Flags = Flags(inTable: bool, closed: bool, shut: bool)

  type View = map<nat, Flags>

  function Closed(v: View, id: nat): View {
    if id in v && v[id].inTable then v[id := Flags(false, true, true)] else v
  }

  function AllClosed(v: View): View {
    map id | id in v :: if v[id].inTable then Flags(false, true, true) else v[id]
  }

  class Conn {
    const fd: int
    var closed: bool
    var shut: bool

    constructor (fd: int)
      ensures this.fd == fd && !closed && !shut
    {
      this.fd := fd;
      closed, shut := false, false;
    }
  }

  class Session {
    var alive: bool
    var conns: map<nat, Conn>
    var nextId: nat
    var log: Log                     // the frames the write callback accepted
    ghost var ever: map<nat, Conn>   // every connection ever added

    ghost predicate Valid()
      reads this
    {
      && (forall id | id in conns :: id in ever && conns[id] == ever[id])
      && (forall i, j | i in ever && j in ever && ever[i] == ever[j] :: i == j)
    }

    ghost function Sees(): View
      reads this, ever.Values
    {
      map id | id in ever :: Flags(id in conns, ever[id].closed, ever[id].shut)
    }

    constructor ()
      ensures Valid() && alive && conns == map[] && ever == map[] && nextId == 1 && log == Empty
    {
      alive, conns, nextId, log, ever := true, map[], 1, Empty, map[];
    }

    /** `accepts` is what the write callback would return. */
    method Send(f: Frame, accepts: bool) returns (ok: bool)
      modifies this`log
      ensures ok == (alive && accepts)
      ensures log == if ok then Append(old(log), f) else old(log)
    {
      if !alive { return false; }
      if accepts { log := Append(log, f); }
      return accepts;
    }

    method Shutdown()
      modifies this`alive
      ensures !alive
    {
      alive := false;
    }

    method NextStreamId() returns (id: nat)
      modifies this`nextId
      ensures id == old(nextId) && nextId == id + 1
    {
      id := nextId;
      nextId := nextId + 1;
    }

    /** On an id already in use this would replace its connection; the protocol never does:
        see `Tunnel.AddConnNeverOverwrites`. */
    method AddConn(id: nat, fd: int) returns (conn: Conn)
      requires Valid()
      modifies this`conns, this`ever
      ensures Valid() && fresh(conn) && conn.fd == fd
      ensures conns == old(conns)[id := conn] && ever == old(ever)[id := conn]
      ensures Sees() == old(Sees())[id := Flags(true, false, false)]
    {
      conn := new Conn(fd);
      conns := conns[id := conn];
      ever := ever[id := conn];
    }

    method GetConn(id: nat) returns (conn: Conn?)
      requires Valid()
      ensures conn != null <==> id in conns
      ensures conn != null ==> conn == conns[id]
    {
      conn := if id in conns then conns[id] else null;
    }

    method CloseConn(id: nat) returns (found: bool)
      requires Valid()
      modifies this`conns, ever.Values
      ensures Valid() && ever == old(ever)
      ensures found == (id in old(conns)) && conns == old(conns) - {id}
      ensures Sees() == Closed(old(Sees()), id)
    {
      if id !in conns { return false; }
      var conn := conns[id];
      conns := conns - {id};
      conn.closed := true;
      conn.shut := true;
      return true;
    }

    /** Mark and shut down the connections that CloseAll took off the table. */
    method Sweep(taken: map<nat, Conn>)
      requires Valid() && forall id | id in taken :: id in ever && taken[id] == ever[id]
      modifies ever.Values
      ensures forall id | id in taken :: ever[id].closed && ever[id].shut
      ensures forall id | id in ever && id !in taken ::
        ever[id].closed == old(ever[id].closed) && ever[id].shut == old(ever[id].shut)
    {
      var left := taken.Keys;
      while left != {}
        invariant left <= taken.Keys
        invariant forall id | id in taken && id !in left :: ever[id].closed && ever[id].shut
        invariant forall id | id in ever && id !in taken ::
          ever[id].closed == old(ever[id].closed) && ever[id].shut == old(ever[id].shut)
        decreases left
      {
        var id :| id in left;
        taken[id].closed := true;
        taken[id].shut := true;
        left := left - {id};
      }
    }

    method CloseAll()
      requires Valid()
      modifies this`conns, ever.Values
      ensures Valid() && ever == old(ever) && conns == map[]
      ensures Sees() == AllClosed(old(Sees()))
    {
      var taken := conns;
      conns := map[];
      Sweep(taken);
    }
  }

  // ---------------------------------------------------- the steps of the threads

  function ViewOf(me: Side): View {
    map id | id in me.streams :: Flags(me.streams[id].inTable, me.streams[id].closed, me.streams[id].shut)
  }

  /** The reader's three steps through CloseConn do what the method does. */
  lemma CloseConnInThreeSteps(me: Side)
    requires me.reader.Erasing?
    ensures var id := me.reader.id;
            if Held(me, id) then
              Can(me, Erase) && Can(Do(me, Erase), Mark) && Can(Do(Do(me, Erase), Mark), Shut) &&
              ViewOf(Do(Do(Do(me, Erase), Mark), Shut)) == Closed(ViewOf(me), id)
            else Can(me, Erase) && ViewOf(Do(me, Erase)) == Closed(ViewOf(me), id)
  {
  }

  /** Sweeping what CloseAll took, in whatever order, ends where the method ends. */
  ghost predicate Sweeps(me: Side, order: seq<nat>, end: Side)
    decreases order
  {
    if order == [] then CanLeave(me, SweepEnd) && end == DoLeave(me, SweepEnd)
    else
      && CanLeave(me, SweepMark(order[0]))
      && CanLeave(DoLeave(me, SweepMark(order[0])), SweepShut)
      && Sweeps(DoLeave(DoLeave(me, SweepMark(order[0])), SweepShut), order[1..], end)
  }

  lemma SweepOne(me: Side, id: nat)
    requires CanLeave(me, SweepMark(id)) && CanLeave(DoLeave(me, SweepMark(id)), SweepShut)
    ensures var me' := DoLeave(DoLeave(me, SweepMark(id)), SweepShut);
            me'.reader == Sweeping(me.reader.todo - {id}) &&
            me'.streams == me.streams[id := me.streams[id].(closed := true, shut := true)]
  {
  }

  lemma SweepLast(me: Side)
    requires CanLeave(me, SweepEnd)
    ensures DoLeave(me, SweepEnd).streams == me.streams && me.reader.todo == {}
  {
  }

  lemma {:induction false} SweepCloses(me: Side, order: seq<nat>, end: Side)
    requires me.reader.Sweeping? && Sweeps(me, order, end)
    ensures end.streams.Keys == me.streams.Keys
    ensures forall id | id in me.streams :: end.streams[id] ==
              if id in me.reader.todo then me.streams[id].(closed := true, shut := true) else me.streams[id]
    decreases order
  {
    if order == [] {
      SweepLast(me);
    } else {
      SweepOne(me, order[0]);
      SweepCloses(DoLeave(DoLeave(me, SweepMark(order[0])), SweepShut), order[1..], end);
    }
  }

  lemma SwapTakesAll(me: Side)
    requires me.reader.Swapping?
    ensures var me' := DoLeave(me, Swap);
            && me'.reader.Sweeping? && me'.streams.Keys == me.streams.Keys
            && (forall id | id in me.streams ::
                  && (id in me'.reader.todo <==> me.streams[id].inTable)
                  && me'.streams[id] == me.streams[id].(inTable := false))
  {
  }

  lemma SweptView(me: Side, swapped: Side, end: Side)
    requires swapped.reader.Sweeping? && swapped.streams.Keys == me.streams.Keys == end.streams.Keys
    requires forall id | id in me.streams ::
               && (id in swapped.reader.todo <==> me.streams[id].inTable)
               && swapped.streams[id] == me.streams[id].(inTable := false)
    requires forall id | id in me.streams :: end.streams[id] ==
               if id in swapped.reader.todo then swapped.streams[id].(closed := true, shut := true) else swapped.streams[id]
    ensures ViewOf(end) == AllClosed(ViewOf(me))
  {
  }

  lemma CloseAllInSteps(me: Side, order: seq<nat>, end: Side)
    requires me.reader.Swapping? && Sweeps(DoLeave(me, Swap), order, end)
    ensures ViewOf(end) == AllClosed(ViewOf(me))
  {
    SwapTakesAll(me);
    SweepCloses(DoLeave(me, Swap), order, end);
    SweptView(me, DoLeave(me, Swap), end);
  }

  // --------------------------------------------------------------- WriteAll

  /** One return of the send system call: bytes taken, a signal or a full buffer, an error. */
  datatype SendResult = Took(n: nat) | Again | Failed

  datatype Status = Complete | Broken | Waiting

  /** What a list of answers from the kernel makes of a buffer of `len` bytes: how many go
      out, and whether the call succeeds, fails, or is still waiting for an answer. */
  function Sent(len: nat, answers: seq<SendResult>): (r: (nat, Status))
    ensures r.0 <= len && (r.1.Complete? <==> r.0 == len)
    decreases answers
  {
    if len == 0 then (0, Complete)
    else if answers == [] then (0, Waiting)
    else match answers[0]
      case Took(n) =>
        if n == 0 then (0, Broken)
        else
          var k := if n <= len then n else len;
          var rest := Sent(len - k, answers[1..]);
          (k + rest.0, rest.1)
      case Again => Sent(len, answers[1..])
      case Failed => (0, Broken)
  }

  predicate Refuses(a: SendResult) {
    a.Failed? || a == Took(0)
  }

  /** How much the kernel offered to take. */
  function Offered(answers: seq<SendResult>): nat {
    if answers == [] then 0 else (if answers[0].Took? then answers[0].n else 0) + Offered(answers[1..])
  }

  predicate NoRefusal(answers: seq<SendResult>) {
    forall k :: 0 <= k < |answers| ==> !Refuses(answers[k])
  }

  lemma OfferedFirst(answers: seq<SendResult>, i: nat)
    requires 0 < i <= |answers| && NoRefusal(answers[..i])
    ensures Offered(answers[..i]) == (if answers[0].Took? then answers[0].n else 0) + Offered(answers[1..][..i - 1])
    ensures NoRefusal(answers[1..][..i - 1]) && !Refuses(answers[0])
  {
    assert answers[..i][1..] == answers[1..][..i - 1];
    assert answers[..i][0] == answers[0];
    var rest := answers[1..][..i - 1];
    forall k | 0 <= k < |rest|
      ensures !Refuses(rest[k])
    {
      assert rest[k] == answers[..i][k + 1];
    }
  }

  /** While bytes are left: the call fails when the kernel refuses, and waits when there is no
      answer yet; out are the bytes the kernel offered to take before. */
  lemma {:induction false} StopsAt(len: nat, answers: seq<SendResult>, i: nat)
    requires i <= |answers| && NoRefusal(answers[..i]) && Offered(answers[..i]) < len
    requires i == |answers| || Refuses(answers[i])
    ensures Sent(len, answers) == (Offered(answers[..i]), if i == |answers| then Waiting else Broken)
    decreases i
  {
    if i > 0 {
      OfferedFirst(answers, i);
      StopsAt(len - (if answers[0].Took? then answers[0].n else 0), answers[1..], i - 1);
    }
  }

  /** The call completes as soon as the kernel has offered to take all bytes, whatever it would
      answer later. */
  lemma {:induction false} CompletesAt(len: nat, answers: seq<SendResult>, i: nat)
    requires i <= |answers| && NoRefusal(answers[..i]) && Offered(answers[..i]) >= len
    ensures Sent(len, answers) == (len, Complete)
    decreases i
  {
    if i > 0 && len > 0 {
      OfferedFirst(answers, i);
      var n := if answers[0].Took? then answers[0].n else 0;
      CompletesAt(if n <= len then len - n else 0, answers[1..], i - 1);
    }
  }

  method WriteAll(buf: Bytes, answers: seq<SendResult>) returns (status: Status, written: Bytes)
    ensures status == Sent(|buf|, answers).1
    ensures written == buf[..Sent(|buf|, answers).0]
  {
    var off, i := 0, 0;
    while off < |buf|
      invariant 0 <= off <= |buf| && 0 <= i <= |answers|
      invariant off + Sent(|buf| - off, answers[i..]).0 == Sent(|buf|, answers).0
      invariant Sent(|buf| - off, answers[i..]).1 == Sent(|buf|, answers).1
      decreases |answers| - i
    {
      if i == |answers| {
        return Waiting, buf[..off];
      }
      assert answers[i..][1..] == answers[i + 1..];
      match answers[i] {
        case Took(n) =>
          if n == 0 { return Broken, buf[..off]; }
          off := off + if n <= |buf| - off then n else |buf| - off;
        case Again =>
        case Failed => return Broken, buf[..off];
      }
      i := i + 1;
    }
    return Complete, buf;
  }

  /** The reader's steps while WriteAll runs on these answers. */
  ghost function Feed(me: Side, answers: seq<SendResult>): Side
    requires me.reader.Writing? && me.reader.id in me.streams
    decreases answers
  {
    if me.reader.data == [] then DoServe(me, Wrote)
    else if answers == [] then me
    else match answers[0]
      case Took(n) =>
        if n == 0 then DoServe(me, WriteFails)
        else Feed(DoServe(me, Write(if n <= |me.reader.data| then n else |me.reader.data|)), answers[1..])
      case Again => Feed(me, answers[1..])
      case Failed => DoServe(me, WriteFails)
  }

  lemma WriteStep(me: Side, k: nat)
    requires me.reader.Writing? && me.reader.id in me.streams && 0 < k <= |me.reader.data|
    ensures var me' := DoServe(me, Write(k));
            && me'.reader == Writing(me.reader.id, me.reader.data[k..])
            && me.reader.id in me'.streams
            && me'.streams[me.reader.id].written == me.streams[me.reader.id].written + me.reader.data[..k]
  {
  }

  lemma WriteReturns(me: Side)
    requires me.reader.Writing? && me.reader.id in me.streams
    ensures me.reader.data == [] ==> DoServe(me, Wrote) == me.(reader := Reading)
    ensures me.reader.data != [] ==> DoServe(me, WriteFails) == me.(reader := Erasing(me.reader.id, true))
  {
  }

  /** `next` is where WriteAll leaves the reader: n bytes on the socket, and the loop goes on
      as the status says. */
  ghost predicate AfterWriteAll(me: Side, next: Side, n: nat, status: Status)
    requires me.reader.Writing? && me.reader.id in me.streams && n <= |me.reader.data|
  {
    && me.reader.id in next.streams
    && next.streams[me.reader.id].written == me.streams[me.reader.id].written + me.reader.data[..n]
    && match status
       case Complete => next.reader == Reading
       case Broken => next.reader == Erasing(me.reader.id, true)
       case Waiting => next.reader == Writing(me.reader.id, me.reader.data[n..])
  }

  lemma OneSendMore(me: Side, k: nat, next: Side, m: nat, status: Status)
    requires me.reader.Writing? && me.reader.id in me.streams && 0 < k && k + m <= |me.reader.data|
    requires var me' := DoServe(me, Write(k));
             me'.reader == Writing(me.reader.id, me.reader.data[k..]) && me.reader.id in me'.streams && AfterWriteAll(me', next, m, status)
    ensures AfterWriteAll(me, next, k + m, status)
  {
    WriteStep(me, k);
    var d := me.reader.data;
    assert d[..k] + d[k..][..m] == d[..k + m];
    assert d[k..][m..] == d[k + m..];
  }

  lemma FeedStops(me: Side, answers: seq<SendResult>)
    requires me.reader.Writing? && me.reader.id in me.streams
    requires me.reader.data == [] || answers == [] || answers[0] == Took(0) || answers[0].Failed?
    ensures var (n, status) := Sent(|me.reader.data|, answers); AfterWriteAll(me, Feed(me, answers), n, status)
  {
    WriteReturns(me);
    assert me.streams[me.reader.id].written + me.reader.data[..0] == me.streams[me.reader.id].written;
  }

  /** They put on the socket exactly the bytes WriteAll reports, and go on as it returns. */
  lemma {:induction false} FeedWritesWhatWriteAllSends(me: Side, answers: seq<SendResult>)
    requires me.reader.Writing? && me.reader.id in me.streams
    ensures var (n, status) := Sent(|me.reader.data|, answers); AfterWriteAll(me, Feed(me, answers), n, status)
    decreases answers
  {
    var d := me.reader.data;
    if d == [] || answers == [] || answers[0] == Took(0) || answers[0].Failed? {
      FeedStops(me, answers);
    } else if answers[0].Again? {
      FeedWritesWhatWriteAllSends(me, answers[1..]);
    } else {
      var k := if answers[0].n <= |d| then answers[0].n else |d|;
      WriteStep(me, k);
      var me' := DoServe(me, Write(k));
      FeedWritesWhatWriteAllSends(me', answers[1..]);
      var (m, status) := Sent(|d| - k, answers[1..]);
      OneSendMore(me, k, Feed(me', answers[1..]), m, status);
    }
  }
}
