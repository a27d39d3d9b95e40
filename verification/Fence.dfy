/** Session::Send and Session::Shutdown at the grain of the mutex, for any number of threads.
    The write callback uses the handler's stream, which dies when the handler returns. */
module Fence {

  type Thread = nat

  datatype Pc =
    | Idle
    | Waiting            // Send called, write_mu_ not yet held
    | Checking           // write_mu_ held, alive_ not yet read
    | Beginning          // alive_ was true
    | InWrite            // inside the write callback
    | Unlocking          // done, write_mu_ still held
  {
    predicate Locks() { Checking? || Beginning? || InWrite? || Unlocking? }
  }

  /** The RPC handler: it shuts the session down after its frame loop, then returns. */
  datatype HandlerPc = Serving | WaitingToFence | Fencing | Releasing | Fenced | Returned
  {
    predicate Locks() { Fencing? || Releasing? }

    /** Shutdown has returned. */
    predicate Shut() { Fenced? || Returned? }
  }

  datatype Owner = Nobody | Sender(t: Thread) | Handler

  /** `writes` counts the writes ever begun. */
  datatype State = State(mutex: Owner, alive: bool, pcs: map<Thread, Pc>, handler: HandlerPc, writes: nat)

  datatype Step =
    | Spawn(t: Thread) | Call(t: Thread) | Lock(t: Thread) | Check(t: Thread)
    | BeginWrite(t: Thread) | EndWrite(t: Thread) | Unlock(t: Thread)
    | LoopEnds | LockFence | Fence | UnlockFence | Return

  predicate At(s: State, t: Thread, pc: Pc) {
    t in s.pcs && s.pcs[t] == pc
  }

  predicate Can(s: State, a: Step) {
    match a
    case Spawn(t) => t !in s.pcs
    case Call(t) => At(s, t, Idle)
    case Lock(t) => At(s, t, Waiting) && s.mutex.Nobody?
    case Check(t) => At(s, t, Checking)
    case BeginWrite(t) => At(s, t, Beginning)
    case EndWrite(t) => At(s, t, InWrite)
    case Unlock(t) => At(s, t, Unlocking)
    case LoopEnds => s.handler.Serving?
    case LockFence => s.handler.WaitingToFence? && s.mutex.Nobody?
    case Fence => s.handler.Fencing?
    case UnlockFence => s.handler.Releasing?
    case Return => s.handler.Fenced?
  }

  function Do(s: State, a: Step): State
    requires Can(s, a)
  {
    match a
    case Spawn(t) => s.(pcs := s.pcs[t := Idle])
    case Call(t) => s.(pcs := s.pcs[t := Waiting])
    case Lock(t) => s.(mutex := Sender(t), pcs := s.pcs[t := Checking])
    case Check(t) => s.(pcs := s.pcs[t := if s.alive then Beginning else Unlocking])
    case BeginWrite(t) => s.(pcs := s.pcs[t := InWrite], writes := s.writes + 1)
    case EndWrite(t) => s.(pcs := s.pcs[t := Unlocking])
    case Unlock(t) => s.(mutex := Nobody, pcs := s.pcs[t := Idle])
    case LoopEnds => s.(handler := WaitingToFence)
    case LockFence => s.(mutex := Handler, handler := Fencing)
    case Fence => s.(alive := false, handler := Releasing)
    case UnlockFence => s.(mutex := Nobody, handler := Fenced)
    case Return => s.(handler := Returned)
  }

  ghost predicate Leads(s: State, run: seq<Step>, t: State)
    decreases run
  {
    if run == [] then s == t else Can(s, run[0]) && Leads(Do(s, run[0]), run[1..], t)
  }

  const INITIAL := State(Nobody, true, map[], Serving, 0)

  ghost predicate Inv(s: State) {
    && (forall t | t in s.pcs :: s.pcs[t].Locks() <==> s.mutex == Sender(t))
    && (s.mutex.Sender? ==> s.mutex.t in s.pcs)
    && (s.handler.Locks() <==> s.mutex.Handler?)
    && (s.handler.Serving? || s.handler.WaitingToFence? || s.handler.Fencing? <==> s.alive)
    && (forall t | t in s.pcs && (s.pcs[t].Beginning? || s.pcs[t].InWrite?) :: s.alive)
  }

  lemma StepKeepsInv(s: State, a: Step)
    requires Inv(s) && Can(s, a)
    ensures Inv(Do(s, a))
  {
  }

  lemma {:induction false} RunKeepsInv(s: State, run: seq<Step>, t: State)
    requires Inv(s) && Leads(s, run, t)
    ensures Inv(t)
    decreases run
  {
    if run != [] {
      StepKeepsInv(s, run[0]);
      RunKeepsInv(Do(s, run[0]), run[1..], t);
    }
  }

  /** At most one write is in flight, and none once the handler's stream is dead. */
  lemma WritesAreSerialised(run: seq<Step>, s: State)
    requires Leads(INITIAL, run, s)
    ensures forall t, u | At(s, t, InWrite) && At(s, u, InWrite) :: t == u
    ensures s.handler.Shut() ==> forall t :: !At(s, t, InWrite)
  {
    RunKeepsInv(INITIAL, run, s);
  }

  lemma {:induction false} NoWriteOnceShut(s: State, run: seq<Step>, t: State)
    requires Inv(s) && s.handler.Shut() && Leads(s, run, t)
    ensures t.handler.Shut() && t.writes == s.writes
    decreases run
  {
    if run != [] {
      StepKeepsInv(s, run[0]);
      NoWriteOnceShut(Do(s, run[0]), run[1..], t);
    }
  }

  /** After Shutdown has returned no write is in flight and none ever begins again. */
  lemma ShutdownIsAFence(before: seq<Step>, s: State, after: seq<Step>, t: State)
    requires Leads(INITIAL, before, s) && s.handler.Shut() && Leads(s, after, t)
    ensures t.writes == s.writes
    ensures forall u :: !At(s, u, InWrite) && !At(t, u, InWrite)
  {
    RunKeepsInv(INITIAL, before, s);
    NoWriteOnceShut(s, after, t);
    RunKeepsInv(s, after, t);
  }

  // --------------------------------------------------------- what does happen

  function Count(run: seq<Step>, a: Step): nat {
    if run == [] then 0 else (if run[0] == a then 1 else 0) + Count(run[1..], a)
  }

  /** The sends of t that found the session alive: those that looked before the fence. */
  function LiveChecks(run: seq<Step>, t: Thread): nat {
    if run == [] || run[0].Fence? then 0
    else (if run[0] == Check(t) then 1 else 0) + LiveChecks(run[1..], t)
  }

  function About(s: State, t: Thread): nat {
    if At(s, t, Beginning) then 1 else 0
  }

  lemma {:induction false} RunWrites(s: State, run: seq<Step>, u: State, t: Thread)
    requires Inv(s) && Leads(s, run, u)
    ensures Count(run, BeginWrite(t)) + About(u, t) == About(s, t) + if s.alive then LiveChecks(run, t) else 0
    ensures Count(run, EndWrite(t)) + (if At(u, t, InWrite) then 1 else 0) == Count(run, BeginWrite(t)) + if At(s, t, InWrite) then 1 else 0
    decreases run
  {
    if run != [] {
      StepKeepsInv(s, run[0]);
      RunWrites(Do(s, run[0]), run[1..], u, t);
    }
  }

  /** A send writes exactly when it found the session alive: once for each such send, and never
      otherwise; and it is inside the write from its beginning to its end. */
  lemma LiveSendsWrite(run: seq<Step>, s: State, t: Thread)
    requires Leads(INITIAL, run, s)
    ensures Count(run, BeginWrite(t)) + (if At(s, t, Beginning) then 1 else 0) == LiveChecks(run, t)
    ensures Count(run, EndWrite(t)) + (if At(s, t, InWrite) then 1 else 0) == Count(run, BeginWrite(t))
  {
    RunWrites(INITIAL, run, s, t);
  }

  /** All the writes ever begun. */
  function Begun(run: seq<Step>): nat {
    if run == [] then 0 else (if run[0].BeginWrite? then 1 else 0) + Begun(run[1..])
  }

  lemma {:induction false} RunCalls(s: State, run: seq<Step>, u: State, t: Thread)
    requires Leads(s, run, u)
    ensures Count(run, Unlock(t)) + Busy(u, t) == Count(run, Call(t)) + Busy(s, t)
    ensures u.writes == s.writes + Begun(run)
    decreases run
  {
    if run != [] {
      RunCalls(Do(s, run[0]), run[1..], u, t);
    }
  }

  function Busy(s: State, t: Thread): nat {
    if t in s.pcs && !s.pcs[t].Idle? then 1 else 0
  }

  /** Each thread has as many sends behind it as it made calls, less the one under way; and the
      writes counted are those begun. */
  lemma CallsReturn(run: seq<Step>, s: State, t: Thread)
    requires Leads(INITIAL, run, s)
    ensures Count(run, Call(t)) == Count(run, Unlock(t)) + (if t in s.pcs && s.pcs[t] != Idle then 1 else 0)
    ensures s.writes == Begun(run)
  {
    RunCalls(INITIAL, run, s, t);
  }

  /** No deadlock: while any send is under way, or the handler is on its way out, one of them
      can move. */
  lemma SomeoneCanMove(run: seq<Step>, s: State) returns (a: Step)
    requires Leads(INITIAL, run, s)
    requires (exists t :: t in s.pcs && !s.pcs[t].Idle?) || !(s.handler.Serving? || s.handler.Returned?)
    ensures Can(s, a) && !a.Spawn? && !a.Call? && !a.LoopEnds?
  {
    RunKeepsInv(INITIAL, run, s);
    match s.mutex
    case Nobody =>
      if t :| t in s.pcs && !s.pcs[t].Idle? {
        a := Lock(t);
      } else {
        a := if s.handler.Fenced? then Return else LockFence;
      }
    case Sender(t) =>
      a := match s.pcs[t]
           case Checking => Check(t)
           case Beginning => BeginWrite(t)
           case InWrite => EndWrite(t)
           case Unlocking => Unlock(t);
    case Handler =>
      a := if s.handler.Fencing? then Fence else UnlockFence;
  }

  lemma LeadsCons(s: State, a: Step, run: seq<Step>, t: State)
    requires Can(s, a) && Leads(Do(s, a), run, t)
    ensures Leads(s, [a] + run, t)
  {
    assert ([a] + run)[1..] == run;
  }

  function OneSend(t: Thread, rest: seq<Step>): seq<Step> {
    [Spawn(t)] + ([Call(t)] + ([Lock(t)] + ([Check(t)] + ([BeginWrite(t)] + ([EndWrite(t)] + ([Unlock(t)] + rest))))))
  }

  lemma Sends(t: Thread, rest: seq<Step>, u: State)
    requires Leads(INITIAL.(pcs := map[t := Idle], writes := 1), rest, u)
    ensures Leads(INITIAL, OneSend(t, rest), u)
  {
    var s1 := Do(INITIAL, Spawn(t));
    var s2 := Do(s1, Call(t));
    var s3 := Do(s2, Lock(t));
    var s4 := Do(s3, Check(t));
    var s5 := Do(s4, BeginWrite(t));
    var s6 := Do(s5, EndWrite(t));
    var s7 := Do(s6, Unlock(t));
    assert s7 == INITIAL.(pcs := map[t := Idle], writes := 1);
    var run := rest;
    LeadsCons(s6, Unlock(t), run, u);
    run := [Unlock(t)] + run;
    LeadsCons(s5, EndWrite(t), run, u);
    run := [EndWrite(t)] + run;
    LeadsCons(s4, BeginWrite(t), run, u);
    run := [BeginWrite(t)] + run;
    LeadsCons(s3, Check(t), run, u);
    run := [Check(t)] + run;
    LeadsCons(s2, Lock(t), run, u);
    run := [Lock(t)] + run;
    LeadsCons(s1, Call(t), run, u);
    run := [Call(t)] + run;
    LeadsCons(INITIAL, Spawn(t), run, u);
  }

  function Teardown(): seq<Step> {
    [LoopEnds] + ([LockFence] + ([Fence] + ([UnlockFence] + ([Return] + []))))
  }

  /** The whole life of a session: a send goes through, then the handler shuts down and returns. */
  lemma AWholeLife(t: Thread) returns (u: State)
    ensures Leads(INITIAL, OneSend(t, Teardown()), u) && u.handler.Returned? && u.writes == 1
  {
    var s := INITIAL.(pcs := map[t := Idle], writes := 1);
    var s1 := Do(s, LoopEnds);
    var s2 := Do(s1, LockFence);
    var s3 := Do(s2, Fence);
    var s4 := Do(s3, UnlockFence);
    u := Do(s4, Return);
    LeadsCons(s4, Return, [], u);
    LeadsCons(s3, UnlockFence, [Return] + [], u);
    LeadsCons(s2, Fence, [UnlockFence] + ([Return] + []), u);
    LeadsCons(s1, LockFence, [Fence] + ([UnlockFence] + ([Return] + [])), u);
    LeadsCons(s, LoopEnds, [LockFence] + ([Fence] + ([UnlockFence] + ([Return] + []))), u);
    Sends(t, Teardown(), u);
  }
}
