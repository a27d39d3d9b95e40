/** What every frame taken off the stream gets in return, once the reader is back for the next
    one: stated on the logs, the tables and the sockets at those two moments only. */
module Replies {
  import opened Frames
  import opened Endpoint
  import opened EndpointInvariant
  import opened Tunnel

  /** How often a log holds this very frame. */
  function Times(log: Log, f: Frame): nat {
    match log
    case Empty => 0
    case Append(front, g) => Times(front, f) + if f == g then 1 else 0
  }

  /** This end has sent the frame since. */
  predicate SentSince(was: Side, me: Side, f: Frame) {
    Times(me.log, f) > Times(was.log, f)
  }

  // ------------------------------------------------------------ the promises

  /** DATA for a stream not held is answered with a plain CLOSE. For a stream that is held, all
      its bytes are written, in order; or the local socket failed, and a CLOSE says so; or the
      stream was dropped before it was looked up, and a plain CLOSE says so. */
  predicate DataServed(was: Side, id: nat, bytes: Bytes, me: Side, failed: bool) {
    if failed then Held(was, id) && !Held(me, id) && SentSince(was, me, Close(id, "local write failed"))
    else
      || (Held(was, id) && id in me.streams && me.streams[id].written == was.streams[id].written + bytes)
      || (!Held(me, id) && SentSince(was, me, Close(id, "")))
  }

  /** An OPEN for another target is refused as such; any other one is either refused because
      the dial failed or has its stream up, with its pump started. */
  predicate OpenServed(was: Side, id: nat, target: string, me: Side) {
    if target != "" && target != was.name then
      id !in me.streams && SentSince(was, me, Close(id, "target mismatch"))
    else if id in me.streams then !me.streams[id].pump.Unstarted?
    else SentSince(was, me, Close(id, "local dial failed"))
  }

  /** After a CLOSE the stream is off the table, its socket shut down or given up by its pump. */
  predicate CloseServed(was: Side, id: nat, me: Side) {
    !Held(me, id) && (id in me.streams ==> me.streams[id].shut || me.streams[id].pump.Exchanged())
  }

  predicate RegisterServed(was: Side, target: string, me: Side) {
    me.name == target && SentSince(was, me, RegisterAck(target))
  }

  /** `failed`: a local write failed on the way. */
  predicate Served(was: Side, f: Frame, me: Side, failed: bool) {
    match f
    case Data(id, bytes) => DataServed(was, id, bytes, me, failed)
    case Open(id, target) => was.role.Client? ==> OpenServed(was, id, target, me)
    case Close(id, _) => CloseServed(was, id, me)
    case Register(target) => was.role.Server? ==> RegisterServed(was, target, me)
    case _ => true
  }

  // --------------------------------------------------------------- underway

  /** Log entries since are never taken back. */
  predicate Kept(was: Side, me: Side, id: nat) {
    && Times(was.log, Close(id, "")) <= Times(me.log, Close(id, ""))
    && Times(was.log, Close(id, "local write failed")) <= Times(me.log, Close(id, "local write failed"))
    && Times(was.log, Close(id, "local dial failed")) <= Times(me.log, Close(id, "local dial failed"))
    && Times(was.log, Close(id, "target mismatch")) <= Times(me.log, Close(id, "target mismatch"))
  }

  ghost predicate DataUnderway(was: Side, id: nat, bytes: Bytes, me: Side, failed: bool) {
    && 1 <= id <= Known(me) && Kept(was, me, id)
    && (Held(me, id) ==> Held(was, id))
    && (Held(was, id) ==> id in me.streams)
    && match me.reader
       case Fetching(i, d) => !failed && i == id && d == bytes && (Held(was, id) ==> me.streams[id].written == was.streams[id].written)
       case Writing(i, d) => !failed && i == id && Held(was, id) && me.streams[id].written + d == was.streams[id].written + bytes
       case Erasing(i, report) => failed && i == id && report && Held(was, id)
       case Marking(i, report) => failed && i == id && report && Held(was, id) && !Held(me, id)
       case Shutting(i, report) => failed && i == id && report && Held(was, id) && !Held(me, id)
       case Closing(i, e) =>
         i == id && !Held(me, id) && (failed ==> Held(was, id)) && e == (if failed then "local write failed" else "")
       case Reading => DataServed(was, id, bytes, me, failed)
       case _ => false
  }

  ghost predicate OpenUnderway(was: Side, id: nat, target: string, me: Side) {
    && was.role.Client? && 1 <= id <= Known(me) && Kept(was, me, id) && me.name == was.name
    && var wrong := target != "" && target != was.name;
       match me.reader
       case Dialing(i, t) => i == id && t == target && id !in me.streams
       case Adding(i) => i == id && !wrong && id !in me.streams
       case Spawning(i) => i == id && !wrong && id in me.streams
       case Closing(i, e) => i == id && id !in me.streams && e == (if wrong then "target mismatch" else "local dial failed")
       case Reading => OpenServed(was, id, target, me)
       case _ => false
  }

  ghost predicate CloseUnderway(was: Side, id: nat, me: Side) {
    && 1 <= id <= Known(me)
    && match me.reader
       case Erasing(i, report) => i == id && !report
       case Marking(i, report) => i == id && !report && !Held(me, id)
       case Shutting(i, report) => i == id && !report && !Held(me, id)
       case Reading => !Held(me, id)
       case _ => false
  }

  ghost predicate RegisterUnderway(was: Side, target: string, me: Side) {
    && was.role.Server? && me.name == target
    && Times(was.log, RegisterAck(target)) <= Times(me.log, RegisterAck(target))
    && match me.reader
       case Acking(t) => t == target
       case Reading => SentSince(was, me, RegisterAck(target))
       case _ => false
  }

  /** As long as the session is up and the loop runs. */
  ghost predicate Underway(was: Side, f: Frame, me: Side, failed: bool) {
    me.role == was.role &&
    (me.up && me.reader.InLoop() ==>
       match f
       case Data(id, bytes) => DataUnderway(was, id, bytes, me, failed)
       case Open(id, target) => was.role.Client? ==> OpenUnderway(was, id, target, me)
       case Close(id, _) => CloseUnderway(was, id, me)
       case Register(target) => was.role.Server? ==> RegisterUnderway(was, target, me)
       case _ => true)
  }

  lemma TakenIsUnderway(was: Side, f: Frame)
    requires Inv(was) && CanRead(was, Take(f)) && TakeOk(was, f)
    ensures Underway(was, f, DoRead(was, Take(f)), false)
  {
    if f.Open? {
      assert StreamOk(was, f.id);
    }
    if f.Data? {
      assert StreamOk(was, f.id);
    }
  }

  // ------------------------------------------------- the other threads meanwhile

  /** What a step of another thread may change, seen from the reader and one known stream. */
  ghost predicate Undisturbed(me: Side, next: Side, id: nat) {
    && next.reader == me.reader && next.role == me.role && next.name == me.name
    && (next.up ==> me.up) && Known(me) <= Known(next)
    && (Held(next, id) ==> Held(me, id))
    && (id in next.streams <==> id in me.streams)
    && (id in me.streams ==>
          && next.streams[id].written == me.streams[id].written
          && (next.streams[id].pump.Unstarted? ==> me.streams[id].pump.Unstarted?))
  }

  lemma PumpUndisturbs(me: Side, a: Act, id: nat)
    requires CanPump(me, a)
    ensures Undisturbed(me, DoPump(me, a), id)
  {
  }

  lemma OtherUndisturbs(me: Side, a: Act, id: nat)
    requires ForwarderOk(me) && CanOther(me, a) && id <= Known(me)
    ensures Undisturbed(me, DoOther(me, a), id)
  {
  }

  lemma SendUndisturbs(me: Side, a: Act, id: nat)
    requires CanTransmit(me, a) && !a.sender.Reader?
    ensures Undisturbed(me, DoTransmit(me, a), id)
  {
  }

  lemma LogsGrow(me: Side, a: Act, f: Frame)
    requires Can(me, a)
    ensures Times(me.log, f) <= Times(Do(me, a).log, f)
  {
  }

  /** A step of a thread other than the reader. */
  predicate Alien(me: Side, a: Act) {
    CanPump(me, a) || CanOther(me, a) || (CanTransmit(me, a) && !a.sender.Reader?)
  }

  lemma AlienUndisturbs(me: Side, a: Act, id: nat)
    requires ForwarderOk(me) && Alien(me, a) && Can(me, a) && id <= Known(me)
    ensures Undisturbed(me, Do(me, a), id)
  {
    if CanPump(me, a) {
      PumpUndisturbs(me, a, id);
    } else if CanOther(me, a) {
      OtherUndisturbs(me, a, id);
    } else {
      SendUndisturbs(me, a, id);
    }
  }

  lemma KeptOn(was: Side, me: Side, a: Act, id: nat)
    requires Kept(was, me, id) && Can(me, a)
    ensures Kept(was, Do(me, a), id)
  {
    LogsGrow(me, a, Close(id, ""));
    LogsGrow(me, a, Close(id, "local write failed"));
    LogsGrow(me, a, Close(id, "local dial failed"));
    LogsGrow(me, a, Close(id, "target mismatch"));
  }

  lemma AlienKeepsData(was: Side, id: nat, bytes: Bytes, me: Side, next: Side, failed: bool)
    requires DataUnderway(was, id, bytes, me, failed) && Undisturbed(me, next, id) && Kept(was, next, id) && Kept(me, next, id)
    ensures DataUnderway(was, id, bytes, next, failed)
  {
  }

  lemma AlienKeepsOpen(was: Side, id: nat, target: string, me: Side, next: Side)
    requires OpenUnderway(was, id, target, me) && Undisturbed(me, next, id) && Kept(was, next, id) && Kept(me, next, id)
    ensures OpenUnderway(was, id, target, next)
  {
  }

  lemma AlienKeepsUnderway(was: Side, f: Frame, me: Side, a: Act, failed: bool)
    requires Inv(me) && Underway(was, f, me, failed) && Alien(me, a) && Can(me, a)
    ensures Underway(was, f, Do(me, a), failed)
  {
    var next := Do(me, a);
    AlienUndisturbs(me, a, 0);
    if next.up && next.reader.InLoop() {
      match f
      case Data(id, bytes) =>
        AlienUndisturbs(me, a, id);
        KeptOn(was, me, a, id);
        KeptOn(me, me, a, id);
        AlienKeepsData(was, id, bytes, me, next, failed);
      case Open(id, target) =>
        if was.role.Client? {
          AlienUndisturbs(me, a, id);
          KeptOn(was, me, a, id);
          KeptOn(me, me, a, id);
          AlienKeepsOpen(was, id, target, me, next);
        }
      case Close(id, _) =>
        AlienUndisturbs(me, a, id);
      case Register(target) =>
        LogsGrow(me, a, RegisterAck(target));
      case _ =>
    }
  }

  // ------------------------------------------------------------- the reader

  lemma ServeKeepsData(was: Side, id: nat, bytes: Bytes, me: Side, a: Act, failed: bool)
    requires ReaderOk(me) && DataUnderway(was, id, bytes, me, failed) && CanServe(me, a)
    ensures DataUnderway(was, id, bytes, DoServe(me, a), failed || a.WriteFails?)
  {
    if a.Write? {
      var d := me.reader.data;
      assert d[..a.n] + d[a.n..] == d;
    }
  }

  lemma CloseConnKeepsData(was: Side, id: nat, bytes: Bytes, me: Side, a: Act, failed: bool)
    requires DataUnderway(was, id, bytes, me, failed) && CanCloseConn(me, a)
    ensures DataUnderway(was, id, bytes, DoCloseConn(me, a), failed)
  {
  }

  lemma ReplyKeepsData(was: Side, id: nat, bytes: Bytes, me: Side, a: Act, failed: bool)
    requires DataUnderway(was, id, bytes, me, failed) && CanTransmit(me, a) && a.sender.Reader? && a.ok
    ensures DataUnderway(was, id, bytes, DoTransmit(me, a), failed)
  {
  }

  lemma ServeKeepsOpen(was: Side, id: nat, target: string, me: Side, a: Act)
    requires ReaderOk(me) && me.role == was.role && OpenUnderway(was, id, target, me) && CanServe(me, a)
    ensures OpenUnderway(was, id, target, DoServe(me, a))
  {
  }

  lemma ReplyKeepsOpen(was: Side, id: nat, target: string, me: Side, a: Act)
    requires me.role == was.role && OpenUnderway(was, id, target, me) && CanTransmit(me, a) && a.sender.Reader? && a.ok
    ensures OpenUnderway(was, id, target, DoTransmit(me, a))
  {
  }

  lemma CloseConnKeepsClose(was: Side, id: nat, me: Side, a: Act)
    requires CloseUnderway(was, id, me) && CanCloseConn(me, a)
    ensures CloseUnderway(was, id, DoCloseConn(me, a))
  {
  }

  lemma ReplyKeepsRegister(was: Side, target: string, me: Side, a: Act)
    requires RegisterUnderway(was, target, me) && CanTransmit(me, a) && a.sender.Reader? && a.ok
    ensures RegisterUnderway(was, target, DoTransmit(me, a))
  {
  }

  lemma ServeKeepsUnderway(was: Side, f: Frame, me: Side, a: Act, failed: bool)
    requires Inv(me) && Underway(was, f, me, failed) && CanServe(me, a)
    ensures Underway(was, f, DoServe(me, a), failed || a.WriteFails?)
  {
    ServeStaysUp(me, a);
    if me.up {
      match f
      case Data(id, bytes) => ServeKeepsData(was, id, bytes, me, a, failed);
      case Open(id, target) => if was.role.Client? { ServeKeepsOpen(was, id, target, me, a); }
      case _ =>
    }
  }

  lemma ServeStaysUp(me: Side, a: Act)
    requires CanServe(me, a)
    ensures DoServe(me, a).up == me.up && me.reader.InLoop() && !me.reader.Reading?
  {
  }

  lemma CloseConnKeepsUnderway(was: Side, f: Frame, me: Side, a: Act, failed: bool)
    requires Inv(me) && Underway(was, f, me, failed) && CanCloseConn(me, a)
    ensures Underway(was, f, DoCloseConn(me, a), failed)
  {
    if me.up {
      match f
      case Data(id, bytes) => CloseConnKeepsData(was, id, bytes, me, a, failed);
      case Close(id, _) => CloseConnKeepsClose(was, id, me, a);
      case _ =>
    }
  }

  lemma ReplyKeepsUnderway(was: Side, f: Frame, me: Side, a: Act, failed: bool)
    requires Inv(me) && Underway(was, f, me, failed) && CanTransmit(me, a) && a.sender.Reader?
    ensures Underway(was, f, DoTransmit(me, a), failed)
  {
    if a.ok {
      match f
      case Data(id, bytes) => ReplyKeepsData(was, id, bytes, me, a, failed);
      case Open(id, target) => if was.role.Client? { ReplyKeepsOpen(was, id, target, me, a); }
      case Register(target) => if was.role.Server? { ReplyKeepsRegister(was, target, me, a); }
      case _ =>
    }
  }

  /** Out of the loop there is nothing left to promise. */
  lemma LeavingKeepsUnderway(was: Side, f: Frame, me: Side, a: Act, failed: bool)
    requires Underway(was, f, me, failed) && (CanLeave(me, a) || a.ReadEnds?) && Can(me, a)
    ensures Underway(was, f, Do(me, a), failed)
  {
    assert !Do(me, a).reader.InLoop();
  }

  lemma OwnStepKeepsUnderway(was: Side, f: Frame, me: Side, a: Act, failed: bool)
    requires Inv(me) && Underway(was, f, me, failed) && Can(me, a) && (CanServe(me, a) || CanCloseConn(me, a))
    ensures Underway(was, f, Do(me, a), failed || a.WriteFails?)
  {
    if CanServe(me, a) {
      ServeKeepsUnderway(was, f, me, a, failed);
    } else {
      CloseConnKeepsUnderway(was, f, me, a, failed);
    }
  }

  lemma SendKeepsUnderway(was: Side, f: Frame, me: Side, a: Act, failed: bool)
    requires Inv(me) && Underway(was, f, me, failed) && Can(me, a) && (Alien(me, a) || CanTransmit(me, a))
    ensures Underway(was, f, Do(me, a), failed || a.WriteFails?)
  {
    assert !a.WriteFails?;
    if Alien(me, a) {
      AlienKeepsUnderway(was, f, me, a, failed);
    } else {
      ReplyKeepsUnderway(was, f, me, a, failed);
    }
  }

  lemma StepKeepsUnderway(was: Side, f: Frame, me: Side, a: Act, failed: bool)
    requires Inv(me) && Underway(was, f, me, failed) && Can(me, a) && !a.Take?
    ensures Underway(was, f, Do(me, a), failed || a.WriteFails?)
  {
    if CanServe(me, a) || CanCloseConn(me, a) {
      OwnStepKeepsUnderway(was, f, me, a, failed);
    } else if Alien(me, a) || CanTransmit(me, a) {
      SendKeepsUnderway(was, f, me, a, failed);
    } else {
      LeavingKeepsUnderway(was, f, me, a, failed);
    }
  }

  // ----------------------------------------------------------- over all runs

  function End(s: System, role: Role): Side {
    if role.Server? then s.server else s.client
  }

  function At(role: Role, a: Act): Label {
    if role.Server? then AtServer(a) else AtClient(a)
  }

  /** The reader of this end takes no further frame. */
  predicate TakesNothing(run: seq<Label>, role: Role) {
    forall l | l in run && l == At(role, l.act) :: !l.act.Take?
  }

  /** On this end a write to a local socket has failed. */
  predicate WriteFailed(run: seq<Label>, role: Role) {
    At(role, WriteFails) in run
  }

  lemma FirstLabelFails(run: seq<Label>, role: Role)
    requires run != []
    ensures WriteFailed(run, role) <==> run[0] == At(role, WriteFails) || WriteFailed(run[1..], role)
    ensures TakesNothing(run, role) ==> TakesNothing(run[1..], role)
  {
    assert run == [run[0]] + run[1..];
  }

  lemma LabelKeepsUnderway(was: Side, f: Frame, s: System, l: Label, role: Role, failed: bool)
    requires SystemInv(s) && Enabled(s, l) && Underway(was, f, End(s, role), failed) && (l == At(role, l.act) ==> !l.act.Take?)
    ensures Underway(was, f, End(After(s, l), role), failed || l == At(role, WriteFails))
  {
    if l == At(role, l.act) {
      StepKeepsUnderway(was, f, End(s, role), l.act, failed);
    }
  }

  lemma {:induction false} RunKeepsUnderway(was: Side, f: Frame, s: System, run: seq<Label>, t: System, role: Role, failed: bool)
    requires SystemInv(s) && Underway(was, f, End(s, role), failed) && Leads(s, run, t) && TakesNothing(run, role)
    ensures Underway(was, f, End(t, role), failed || WriteFailed(run, role))
    decreases run
  {
    if run != [] {
      var l := run[0];
      StepKeepsSystemInv(s, l);
      LabelKeepsUnderway(was, f, s, l, role, failed);
      FirstLabelFails(run, role);
      RunKeepsUnderway(was, f, After(s, l), run[1..], t, role, failed || l == At(role, WriteFails));
    }
  }

  lemma UnderwayIsServed(was: Side, f: Frame, me: Side, failed: bool)
    requires Inv(me) && Underway(was, f, me, failed) && me.up && me.reader.Reading?
    ensures Served(was, f, me, failed)
  {
    if f.Close? {
      assert StreamOk(me, f.id);
    }
  }

  /** Whatever the other threads and the other end do meanwhile: when a reader that took a frame
      is back for the next one, on a session still up, that frame has been served. */
  lemma EveryFrameIsServed(name: string, before: seq<Label>, s: System, f: Frame, during: seq<Label>, t: System, role: Role)
    requires Leads(Initial(name), before, s) && Enabled(s, At(role, Take(f)))
    requires Leads(After(s, At(role, Take(f))), during, t) && TakesNothing(during, role)
    requires End(t, role).up && End(t, role).reader.Reading?
    ensures Served(End(s, role), f, End(t, role), WriteFailed(during, role))
  {
    ReachableInv(name, before, s);
    var l := At(role, Take(f));
    FramesFit(s, l);
    TakenIsUnderway(End(s, role), f);
    StepKeepsSystemInv(s, l);
    assert End(After(s, l), role) == DoRead(End(s, role), Take(f));
    RunKeepsUnderway(End(s, role), f, After(s, l), during, t, role, false);
    RunKeepsSystemInv(After(s, l), during, t);
    UnderwayIsServed(End(s, role), f, End(t, role), WriteFailed(during, role));
  }

  /** In particular, DATA that arrives for a stream already dropped is answered with CLOSE and
      no error. */
  lemma LateDataIsAnswered(name: string, before: seq<Label>, s: System, id: nat, bytes: Bytes, during: seq<Label>, t: System, role: Role)
    requires Leads(Initial(name), before, s) && Enabled(s, At(role, Take(Data(id, bytes)))) && !Held(End(s, role), id)
    requires Leads(After(s, At(role, Take(Data(id, bytes)))), during, t) && TakesNothing(during, role)
    requires End(t, role).up && End(t, role).reader.Reading?
    ensures Times(End(t, role).log, Close(id, "")) > Times(End(s, role).log, Close(id, ""))
  {
    EveryFrameIsServed(name, before, s, Data(id, bytes), during, t, role);
  }
}
