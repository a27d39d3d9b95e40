/** The map from target name to session that the handlers of all tunnels share. */
module Registration {
  import opened Wrappers

  type Session = nat

  // ------------------------------------------------- what the calls amount to

  datatype Event = AddEvent(target: string, sess: Session) | RemoveEvent(target: string, sess: Session)

  /** The last Add for t was h's, and h has not removed t since. */
  ghost predicate LastAddStands(events: seq<Event>, t: string, h: Session) {
    exists i :: 0 <= i < |events| && events[i] == AddEvent(t, h) &&
      forall j :: i < j < |events| ==> !(events[j].AddEvent? && events[j].target == t) && events[j] != RemoveEvent(t, h)
  }

  lemma LastAddStep(events: seq<Event>, e: Event, t: string, h: Session)
    ensures LastAddStands(events + [e], t, h) <==>
            e == AddEvent(t, h) ||
            (LastAddStands(events, t, h) && !(e.AddEvent? && e.target == t) && e != RemoveEvent(t, h))
  {
    var after := events + [e];
    if LastAddStands(events, t, h) && !(e.AddEvent? && e.target == t) && e != RemoveEvent(t, h) {
      var i :| 0 <= i < |events| && events[i] == AddEvent(t, h) &&
        forall j :: i < j < |events| ==> !(events[j].AddEvent? && events[j].target == t) && events[j] != RemoveEvent(t, h);
      assert after[i] == AddEvent(t, h);
    }
    if e == AddEvent(t, h) {
      assert after[|events|] == e;
    }
    if LastAddStands(after, t, h) && e != AddEvent(t, h) {
      var i :| 0 <= i < |after| && after[i] == AddEvent(t, h) &&
        forall j :: i < j < |after| ==> !(after[j].AddEvent? && after[j].target == t) && after[j] != RemoveEvent(t, h);
      assert i < |events| && events[i] == after[i];
      assert after[|events|] == e;
      forall j | i < j < |events|
        ensures !(events[j].AddEvent? && events[j].target == t) && events[j] != RemoveEvent(t, h)
      {
        assert events[j] == after[j];
      }
    }
  }

  // -------------------------------------------------- the lock-guarded calls

  /** The object itself. Each method is one critical section under `mu_`. */
  class Registry {
    var sessions: map<string, Session>
    ghost var events: seq<Event>   // the calls made so far

    /** Looking up t answers h. */
    ghost predicate Answers(t: string, h: Session)
      reads this
    {
      LastAddStands(events, t, h)
    }

    ghost predicate Valid()
      reads this
    {
      forall t, h :: Answers(t, h) <==> t in sessions && sessions[t] == h
    }

    constructor ()
      ensures Valid() && events == []
    {
      sessions, events := map[], [];
    }

    /** From now on the name answers this session; every other name answers as before. */
    method Add(target: string, sess: Session)
      requires Valid()
      modifies this
      ensures Valid() && events == old(events) + [AddEvent(target, sess)]
      ensures forall t, h :: Answers(t, h) <==> if t == target then h == sess else old(Answers(t, h))
    {
      sessions := sessions[target := sess];
      events := events + [AddEvent(target, sess)];
      forall t, h
        ensures Answers(t, h) <==> if t == target then h == sess else old(Answers(t, h))
      {
        LastAddStep(old(events), AddEvent(target, sess), t, h);
        assert old(Answers(t, h)) <==> t in old(sessions) && old(sessions)[t] == h;
      }
    }

    /** The caller no longer answers to the name; if another session does, that one still does. */
    method Remove(target: string, sess: Session)
      requires Valid()
      modifies this
      ensures Valid() && events == old(events) + [RemoveEvent(target, sess)]
      ensures forall t, h :: Answers(t, h) <==> old(Answers(t, h)) && !(t == target && h == sess)
    {
      if target in sessions && sessions[target] == sess {
        sessions := sessions - {target};
      }
      events := events + [RemoveEvent(target, sess)];
      forall t, h
        ensures Answers(t, h) <==> old(Answers(t, h)) && !(t == target && h == sess)
      {
        LastAddStep(old(events), RemoveEvent(target, sess), t, h);
        assert old(Answers(t, h)) <==> t in old(sessions) && old(sessions)[t] == h;
      }
    }

    /** The session whose Add for the name was the last and which has not removed it since;
        none if there is no such session. */
    method Get(target: string) returns (r: Option<Session>)
      requires Valid()
      ensures forall h: Session :: r == Some(h) <==> LastAddStands(events, target, h)
    {
      if target in sessions {
        r := Some(sessions[target]);
      } else {
        r := None;
      }
      forall h: Session
        ensures r == Some(h) <==> LastAddStands(events, target, h)
      {
        assert Answers(target, h) <==> target in sessions && sessions[target] == h;
      }
    }
  }

  // ------------------------------------------------------------ the handlers

  /** One Register handler: `target` is its local variable, empty before the first REGISTER. */
  datatype Pc = Reading | Replacing(name: string) | Binding(name: string) | Leaving | Left

  /** `bound`: it has called Add at least once. */
  datatype Handler = Handler(pc: Pc, target: string, bound: bool)

  datatype State = State(sessions: map<string, Session>, handlers: map<Session, Handler>, events: seq<Event>)

  datatype Step =
    | Begin(h: Session)                      // a tunnel is opened
    | ReadRegister(h: Session, name: string) // a REGISTER frame
    | RemoveOld(h: Session)                  // the old name is dropped
    | AddNew(h: Session)                     // target = name; Add
    | LoopEnds(h: Session)
    | RemoveLast(h: Session)                 // the teardown's Remove

  const INITIAL := State(map[], map[], [])

  function Added(m: map<string, Session>, target: string, sess: Session): map<string, Session> {
    m[target := sess]
  }

  function Removed(m: map<string, Session>, target: string, sess: Session): map<string, Session> {
    if target in m && m[target] == sess then m - {target} else m
  }

  predicate Can(s: State, a: Step) {
    match a
    case Begin(h) => h !in s.handlers
    case ReadRegister(h, _) => h in s.handlers && s.handlers[h].pc.Reading?
    case RemoveOld(h) => h in s.handlers && s.handlers[h].pc.Replacing?
    case AddNew(h) => h in s.handlers && s.handlers[h].pc.Binding?
    case LoopEnds(h) => h in s.handlers && s.handlers[h].pc.Reading?
    case RemoveLast(h) => h in s.handlers && s.handlers[h].pc.Leaving?
  }

  function With(s: State, h: Session, hd: Handler): State {
    s.(handlers := s.handlers[h := hd])
  }

  function Do(s: State, a: Step): State
    requires Can(s, a)
  {
    match a
    case Begin(h) => With(s, h, Handler(Reading, "", false))
    case ReadRegister(h, name) =>
      var hd := s.handlers[h];
      With(s, h, hd.(pc := if hd.target != "" && hd.target != name then Replacing(name) else Binding(name)))
    case RemoveOld(h) =>
      var hd := s.handlers[h];
      With(s, h, hd.(pc := Binding(hd.pc.name)))
        .(sessions := Removed(s.sessions, hd.target, h), events := s.events + [RemoveEvent(hd.target, h)])
    case AddNew(h) =>
      var hd := s.handlers[h];
      With(s, h, hd.(pc := Reading, target := hd.pc.name, bound := true))
        .(sessions := Added(s.sessions, hd.pc.name, h), events := s.events + [AddEvent(hd.pc.name, h)])
    case LoopEnds(h) => With(s, h, s.handlers[h].(pc := Leaving))
    case RemoveLast(h) =>
      var hd := s.handlers[h];
      With(s, h, hd.(pc := Left))
        .(sessions := Removed(s.sessions, hd.target, h), events := s.events + [RemoveEvent(hd.target, h)])
  }

  ghost predicate Leads(s: State, run: seq<Step>, t: State)
    decreases run
  {
    if run == [] then s == t else Can(s, run[0]) && Leads(Do(s, run[0]), run[1..], t)
  }

  // ---------------------------------------------------------------- no corpses

  /** Handler h is still in its frame loop, or has not yet dropped its name, and that name
      is t. While it switches names the old one is already gone. */
  predicate Serves(s: State, h: Session, t: string) {
    && h in s.handlers && s.handlers[h].bound && !s.handlers[h].pc.Left?
    && s.handlers[h].target == t
  }

  /** The old name has just been removed and the new one is not yet in place. */
  predicate Switching(hd: Handler) {
    hd.pc.Binding? && hd.target != "" && hd.target != hd.pc.name
  }

  ghost predicate EntryOk(s: State, t: string) {
    t in s.sessions ==>
      var h := s.sessions[t];
      && h in s.handlers
      && ((Serves(s, h, t) && !Switching(s.handlers[h])) || (t == "" && s.handlers[h].target != ""))
  }

  ghost predicate Inv(s: State) {
    && (forall t :: EntryOk(s, t))
    && (forall h | h in s.handlers :: !s.handlers[h].bound ==> s.handlers[h].target == "")
    && (forall h | h in s.handlers && s.handlers[h].pc.Replacing? :: s.handlers[h].target != "" && s.handlers[h].target != s.handlers[h].pc.name)
  }

  lemma StepKeepsInv(s: State, a: Step)
    requires Inv(s) && Can(s, a)
    ensures Inv(Do(s, a))
  {
    forall t
      ensures EntryOk(Do(s, a), t)
    {
      assert EntryOk(s, t);
    }
  }

  lemma {:induction false} RunKeepsInv(s: State, run: seq<Step>, t: State)
    requires Inv(s) && Leads(s, run, t)
    ensures Inv(t)
    decreases run
  {
    if run != [] {
      StepKeepsInv(s, run[0]);
      RunKeepsInv(Do(s, run[0]), run[1..], t);
    }
  }

  /** An entry always names a handler that is still running under that very name, except that
      a handler which went from the empty name to another one may leave its empty entry. */
  lemma NoCorpses(run: seq<Step>, s: State, t: string)
    requires Leads(INITIAL, run, s) && t in s.sessions
    ensures s.sessions[t] in s.handlers
    ensures Serves(s, s.sessions[t], t) || (t == "" && s.handlers[s.sessions[t]].target != "")
  {
    RunKeepsInv(INITIAL, run, s);
    assert EntryOk(s, t);
  }

  /** A handler that is only ever given non-empty names never takes the empty entry. */
  lemma {:induction false} NamedHandlersLeaveTheEmptyName(s: State, run: seq<Step>, t: State, h: Session)
    requires Leads(s, run, t)
    requires forall a | a in run && a.ReadRegister? && a.h == h :: a.name != ""
    requires h in s.handlers && (s.handlers[h].pc.Binding? || s.handlers[h].pc.Replacing?) ==> s.handlers[h].pc.name != ""
    requires "" in s.sessions ==> s.sessions[""] != h
    ensures "" in t.sessions ==> t.sessions[""] != h
    decreases run
  {
    if run != [] {
      NamedHandlersLeaveTheEmptyName(Do(s, run[0]), run[1..], t, h);
    }
  }

  /** When every REGISTER to the handler of an entry carried a name, the entry is served under
      its name, whatever the other handlers were sent. */
  lemma NoCorpsesWithNames(run: seq<Step>, s: State, t: string)
    requires Leads(INITIAL, run, s) && t in s.sessions
    requires forall a | a in run && a.ReadRegister? && a.h == s.sessions[t] :: a.name != ""
    ensures Serves(s, s.sessions[t], t)
  {
    NoCorpses(run, s, t);
    NamedHandlersLeaveTheEmptyName(INITIAL, run, s, s.sessions[t]);
  }

  // --------------------------------------------------- what Get answers

  ghost predicate GetFollowsHistory(s: State) {
    forall t, h :: LastAddStands(s.events, t, h) <==> t in s.sessions && s.sessions[t] == h
  }

  lemma StepKeepsHistory(s: State, a: Step)
    requires GetFollowsHistory(s) && Can(s, a)
    ensures GetFollowsHistory(Do(s, a))
  {
    var s' := Do(s, a);
    if s'.events != s.events {
      var e := s'.events[|s.events|];
      forall t, h
        ensures LastAddStands(s'.events, t, h) <==> t in s'.sessions && s'.sessions[t] == h
      {
        LastAddStep(s.events, e, t, h);
        assert LastAddStands(s.events, t, h) <==> t in s.sessions && s.sessions[t] == h;
      }
    }
  }

  lemma {:induction false} RunKeepsHistory(s: State, run: seq<Step>, t: State)
    requires GetFollowsHistory(s) && Leads(s, run, t)
    ensures GetFollowsHistory(t)
    decreases run
  {
    if run != [] {
      StepKeepsHistory(s, run[0]);
      RunKeepsHistory(Do(s, run[0]), run[1..], t);
    }
  }

  // -------------------------------------------------- the history in the labels

  /** The name of the last REGISTER that handler h has read. */
  function LastRead(run: seq<Step>, h: Session): string {
    if run == [] then ""
    else
      var front := run[..|run| - 1];
      match run[|run| - 1]
      case ReadRegister(g, name) => if g == h then name else LastRead(front, h)
      case _ => LastRead(front, h)
  }

  /** The name handler h last went by: what it had read when it last called Add. */
  function LastBound(run: seq<Step>, h: Session): string {
    if run == [] then ""
    else
      var front := run[..|run| - 1];
      if run[|run| - 1] == AddNew(h) then LastRead(front, h) else LastBound(front, h)
  }

  /** The calls on the registry that the labels of a run amount to. */
  function EventsOf(run: seq<Step>): seq<Event> {
    if run == [] then []
    else
      var front := run[..|run| - 1];
      match run[|run| - 1]
      case AddNew(h) => EventsOf(front) + [AddEvent(LastRead(front, h), h)]
      case RemoveOld(h) => EventsOf(front) + [RemoveEvent(LastBound(front, h), h)]
      case RemoveLast(h) => EventsOf(front) + [RemoveEvent(LastBound(front, h), h)]
      case _ => EventsOf(front)
  }

  ghost predicate Told(run: seq<Step>, s: State, h: Session) {
    && (h !in s.handlers ==> LastBound(run, h) == "")
    && (h in s.handlers ==> s.handlers[h].target == LastBound(run, h))
    && (h in s.handlers && (s.handlers[h].pc.Replacing? || s.handlers[h].pc.Binding?) ==> s.handlers[h].pc.name == LastRead(run, h))
  }

  ghost predicate Tells(run: seq<Step>, s: State) {
    s.events == EventsOf(run) && forall h :: Told(run, s, h)
  }

  lemma StepKeepsTold(run: seq<Step>, s: State, a: Step)
    requires Tells(run, s) && Can(s, a)
    ensures Tells(run + [a], Do(s, a))
  {
    assert (run + [a])[..|run|] == run;
    assert !a.Begin? ==> Told(run, s, a.h);
    forall h
      ensures Told(run + [a], Do(s, a), h)
    {
      assert Told(run, s, h);
    }
  }

  lemma {:induction false} RunKeepsTold(before: seq<Step>, s: State, run: seq<Step>, t: State)
    requires Tells(before, s) && Leads(s, run, t)
    ensures Tells(before + run, t)
    decreases run
  {
    if run == [] {
      assert before + run == before;
    } else {
      var next := Do(s, run[0]);
      StepKeepsTold(before, s, run[0]);
      RunKeepsTold(before + [run[0]], next, run[1..], t);
      SameRun(before, run);
    }
  }

  lemma SameRun(before: seq<Step>, run: seq<Step>)
    requires run != []
    ensures before + [run[0]] + run[1..] == before + run
  {
  }

  lemma ReachableTells(run: seq<Step>, s: State)
    requires Leads(INITIAL, run, s)
    ensures Tells(run, s)
  {
    RunKeepsTold([], INITIAL, run, s);
    assert [] + run == run;
  }

  /** The registry holds t -> h exactly when the last Add for t was by h and h has not removed
      it since, as the labels of the run tell: a late teardown never deletes a newer session's
      entry. */
  lemma GetIsLastStandingAdd(run: seq<Step>, s: State, t: string, h: Session)
    requires Leads(INITIAL, run, s)
    ensures (t in s.sessions && s.sessions[t] == h) <==> LastAddStands(EventsOf(run), t, h)
  {
    RunKeepsHistory(INITIAL, run, s);
    ReachableTells(run, s);
  }

  // ------------------------------------------- exactly when a corpse remains

  /** Of all Adds for t the last was h's, removed or not. */
  ghost predicate LastAddIs(events: seq<Event>, t: string, h: Session) {
    exists i :: 0 <= i < |events| && events[i] == AddEvent(t, h) &&
      forall j :: i < j < |events| ==> !(events[j].AddEvent? && events[j].target == t)
  }

  /** The empty name is removed only in the teardown of a handler that ended on it. */
  ghost predicate EmptyRemovals(s: State) {
    && (forall h | RemoveEvent("", h) in s.events :: h in s.handlers && s.handlers[h].pc.Left? && s.handlers[h].target == "")
    && (forall h | h in s.handlers && s.handlers[h].pc.Replacing? :: s.handlers[h].target != "")
  }

  lemma {:induction false} RunKeepsEmptyRemovals(s: State, run: seq<Step>, t: State)
    requires EmptyRemovals(s) && Leads(s, run, t)
    ensures EmptyRemovals(t)
    decreases run
  {
    if run != [] {
      RunKeepsEmptyRemovals(Do(s, run[0]), run[1..], t);
    }
  }

  /** Over every interleaving of any number of handlers: an entry outlives its handler, or the
      handler's use of the name, exactly when it is the entry of the empty name, the handler's
      current (or final) name is another one, and no Add of the empty name came after its own. */
  lemma CorpseExactlyWhen(run: seq<Step>, s: State, t: string, h: Session)
    requires Leads(INITIAL, run, s)
    ensures (t in s.sessions && s.sessions[t] == h && !Serves(s, h, t)) <==>
            t == "" && LastBound(run, h) != "" && LastAddIs(EventsOf(run), "", h)
  {
    RunKeepsHistory(INITIAL, run, s);
    ReachableTells(run, s);
    assert Told(run, s, h);
    RunKeepsEmptyRemovals(INITIAL, run, s);
    if t in s.sessions && s.sessions[t] == h && !Serves(s, h, t) {
      NoCorpses(run, s, t);
      assert LastAddStands(s.events, t, h);
    }
    if h in s.handlers && s.handlers[h].target != "" && LastAddIs(s.events, "", h) {
      assert RemoveEvent("", h) !in s.events;
      assert LastAddStands(s.events, "", h);
    }
  }

  lemma LeadsCons(s: State, a: Step, run: seq<Step>, t: State)
    requires Can(s, a) && Leads(Do(s, a), run, t)
    ensures Leads(s, [a] + run, t)
  {
    assert ([a] + run)[1..] == run;
  }

  /** A REGISTER that finds the handler without a name, or with this one, adds the name. */
  lemma Registers(s: State, h: Session, name: string, rest: seq<Step>, t: State) returns (run: seq<Step>)
    requires Can(s, ReadRegister(h, name)) && s.handlers[h].target in {"", name}
    requires Leads(Do(Do(s, ReadRegister(h, name)), AddNew(h)), rest, t)
    ensures Leads(s, run, t)
  {
    LeadsCons(Do(s, ReadRegister(h, name)), AddNew(h), rest, t);
    LeadsCons(s, ReadRegister(h, name), [AddNew(h)] + rest, t);
    run := [ReadRegister(h, name)] + ([AddNew(h)] + rest);
  }

  /** The corpse is reachable: REGISTER with no name, then REGISTER "edge-1", then the end. */
  lemma CorpseExample() returns (run: seq<Step>, t: State)
    ensures Leads(INITIAL, run, t) && 0 in t.handlers && t.handlers[0].pc.Left?
    ensures t.sessions == map["" := 0]
  {
    var s1 := Do(INITIAL, Begin(0));
    var s2 := Do(Do(s1, ReadRegister(0, "")), AddNew(0));
    var s3 := Do(Do(s2, ReadRegister(0, "edge-1")), AddNew(0));
    var s4 := Do(s3, LoopEnds(0));
    t := Do(s4, RemoveLast(0));
    LeadsCons(s4, RemoveLast(0), [], t);
    LeadsCons(s3, LoopEnds(0), [RemoveLast(0)] + [], t);
    run := Registers(s2, 0, "edge-1", [LoopEnds(0)] + ([RemoveLast(0)] + []), t);
    run := Registers(s1, 0, "", run, t);
    LeadsCons(INITIAL, Begin(0), run, t);
    run := [Begin(0)] + run;
  }
}
