/** Any number of tunnels, reconnecting and displacing each other, and any number of
    forwarders: which session an OPEN is sent to. */
module Routing {
  import R = Registration

  type Session = R.Session

  datatype ForwarderPc = Idle | Holding(sess: Session)

  datatype Forwarder = Forwarder(target: string, pc: ForwarderPc)

  /** `opens`: the targets of the OPENs put on each session's stream, oldest first. */
  datatype Net = Net(registry: R.State, forwarders: map<nat, Forwarder>, opens: map<Session, seq<string>>)

  datatype Move =
    | Handle(step: R.Step)                    // some Register handler moves
    | Listen(f: nat, target: string)        // a forwarder starts, for one target
    | Lookup(f: nat)                        // accept, then Get
    | SendOpen(f: nat)

  /** The client behind a session registers one name, always the same (`name`). */
  ghost predicate Can(n: Net, m: Move, name: Session -> string) {
    match m
    case Handle(a) => R.Can(n.registry, a) && (a.ReadRegister? ==> a.name == name(a.h))
    case Listen(f, _) => f !in n.forwarders
    case Lookup(f) => f in n.forwarders && n.forwarders[f].pc.Idle?
    case SendOpen(f) => f in n.forwarders && n.forwarders[f].pc.Holding?
  }

  function OpensTo(n: Net, h: Session): seq<string> {
    if h in n.opens then n.opens[h] else []
  }

  ghost function Do(n: Net, m: Move, name: Session -> string): Net
    requires Can(n, m, name)
  {
    match m
    case Handle(a) => n.(registry := R.Do(n.registry, a))
    case Listen(f, target) => n.(forwarders := n.forwarders[f := Forwarder(target, Idle)])
    case Lookup(f) =>
      var fw := n.forwarders[f];
      if fw.target in n.registry.sessions
      then n.(forwarders := n.forwarders[f := fw.(pc := Holding(n.registry.sessions[fw.target]))])
      else n
    case SendOpen(f) =>
      var fw := n.forwarders[f];
      n.(forwarders := n.forwarders[f := fw.(pc := Idle)],
         opens := n.opens[fw.pc.sess := OpensTo(n, fw.pc.sess) + [fw.target]])
  }

  ghost predicate Leads(n: Net, run: seq<Move>, t: Net, name: Session -> string)
    decreases run
  {
    if run == [] then n == t else Can(n, run[0], name) && Leads(Do(n, run[0], name), run[1..], t, name)
  }

  const START := Net(R.INITIAL, map[], map[])

  predicate Registered(r: R.State, h: Session) {
    h in r.handlers && r.handlers[h].bound
  }

  /** Every entry of the registry is the name its client registered. */
  ghost predicate NamesOk(r: R.State, name: Session -> string) {
    && (forall h | h in r.handlers && (r.handlers[h].pc.Binding? || r.handlers[h].pc.Replacing?) ::
          r.handlers[h].pc.name == name(h))
    && (forall t | t in r.sessions :: t == name(r.sessions[t]) && Registered(r, r.sessions[t]))
  }

  ghost predicate Routed(n: Net, name: Session -> string) {
    && NamesOk(n.registry, name)
    && (forall f | f in n.forwarders && n.forwarders[f].pc.Holding? ::
          n.forwarders[f].target == name(n.forwarders[f].pc.sess) && Registered(n.registry, n.forwarders[f].pc.sess))
    && (forall h | h in n.opens && n.opens[h] != [] :: Registered(n.registry, h))
    && (forall h, t | h in n.opens && t in n.opens[h] :: t == name(h))
  }

  lemma HandlersKeepNames(r: R.State, a: R.Step, name: Session -> string)
    requires NamesOk(r, name) && R.Can(r, a) && (a.ReadRegister? ==> a.name == name(a.h))
    ensures NamesOk(R.Do(r, a), name)
    ensures forall h | Registered(r, h) :: Registered(R.Do(r, a), h)
  {
  }

  lemma StepKeepsRouted(n: Net, m: Move, name: Session -> string)
    requires Routed(n, name) && Can(n, m, name)
    ensures Routed(Do(n, m, name), name)
  {
    if m.Handle? {
      HandlersKeepNames(n.registry, m.step, name);
    }
  }

  lemma {:induction false} RunKeepsRouted(n: Net, run: seq<Move>, t: Net, name: Session -> string)
    requires Routed(n, name) && Leads(n, run, t, name)
    ensures Routed(t, name)
    decreases run
  {
    if run != [] {
      StepKeepsRouted(n, run[0], name);
      RunKeepsRouted(Do(n, run[0], name), run[1..], t, name);
    }
  }

  /** The client's check on an OPEN. */
  predicate ClientRefuses(target: string, registered: string) {
    target != "" && target != registered
  }

  /** Every OPEN that reaches a client carries the name it registered, so no client ever has
      to refuse one; and no session is sent an OPEN before its REGISTER was handled. */
  lemma OpensReachTheirTarget(run: seq<Move>, t: Net, name: Session -> string, h: Session)
    requires Leads(START, run, t, name)
    ensures forall target | target in OpensTo(t, h) :: target == name(h) && !ClientRefuses(target, name(h))
    ensures OpensTo(t, h) != [] ==> Registered(t.registry, h)
  {
    RunKeepsRouted(START, run, t, name);
  }

  // ------------------------------------------------ every OPEN that should be sent

  ghost predicate Waits(n: Net, f: nat, target: string, h: Session) {
    f in n.forwarders && n.forwarders[f] == Forwarder(target, Holding(h))
  }

  lemma {:induction false} StillWaits(n: Net, run: seq<Move>, t: Net, name: Session -> string, f: nat, target: string, h: Session)
    requires Waits(n, f, target, h) && Leads(n, run, t, name) && SendOpen(f) !in run
    ensures Waits(t, f, target, h)
    decreases run
  {
    if run != [] {
      StillWaits(Do(n, run[0], name), run[1..], t, name, f, target, h);
    }
  }

  /** A connection accepted while its target is registered is announced on the session that was
      then registered, whatever happens in between: that session's OPENs grow by one of that
      name, no other session's change, and it is announced only once. Accepted while it is not, it changes nothing. */
  lemma AcceptedIsOpened(n: Net, f: nat, mid: seq<Move>, t: Net, name: Session -> string)
    requires Can(n, Lookup(f), name) && Leads(Do(n, Lookup(f), name), mid, t, name) && SendOpen(f) !in mid
    ensures var target := n.forwarders[f].target;
            if target !in n.registry.sessions then Do(n, Lookup(f), name) == n
            else
              var h := n.registry.sessions[target];
              && Can(t, SendOpen(f), name)
              && OpensTo(Do(t, SendOpen(f), name), h) == OpensTo(t, h) + [target]
              && (forall g | g != h :: OpensTo(Do(t, SendOpen(f), name), g) == OpensTo(t, g))
              && !Can(Do(t, SendOpen(f), name), SendOpen(f), name)
  {
    var target := n.forwarders[f].target;
    if target in n.registry.sessions {
      StillWaits(Do(n, Lookup(f), name), mid, t, name, f, target, n.registry.sessions[target]);
    }
  }

  /** What has been put on a session's stream is never changed. */
  lemma {:induction false} OpensOnlyGrow(n: Net, run: seq<Move>, t: Net, name: Session -> string, h: Session)
    requires Leads(n, run, t, name)
    ensures OpensTo(n, h) <= OpensTo(t, h)
    decreases run
  {
    if run != [] {
      OpensOnlyGrow(Do(n, run[0], name), run[1..], t, name, h);
    }
  }

  lemma LeadsCons(n: Net, m: Move, run: seq<Move>, t: Net, name: Session -> string)
    requires Can(n, m, name) && Leads(Do(n, m, name), run, t, name)
    ensures Leads(n, [m] + run, t, name)
  {
    assert ([m] + run)[1..] == run;
  }

  /** A client registers, a connection for it comes in, and its OPEN goes out. */
  lemma AnOpenIsSent(name: Session -> string) returns (run: seq<Move>, t: Net)
    ensures Leads(START, run, t, name) && OpensTo(t, 0) == [name(0)]
  {
    var n1 := Do(START, Listen(0, name(0)), name);
    var n2 := Do(n1, Handle(R.Begin(0)), name);
    var n3 := Do(n2, Handle(R.ReadRegister(0, name(0))), name);
    var n4 := Do(n3, Handle(R.AddNew(0)), name);
    var n5 := Do(n4, Lookup(0), name);
    t := Do(n5, SendOpen(0), name);
    run := [SendOpen(0)] + [];
    LeadsCons(n5, SendOpen(0), [], t, name);
    LeadsCons(n4, Lookup(0), run, t, name);
    run := [Lookup(0)] + run;
    LeadsCons(n3, Handle(R.AddNew(0)), run, t, name);
    run := [Handle(R.AddNew(0))] + run;
    LeadsCons(n2, Handle(R.ReadRegister(0, name(0))), run, t, name);
    run := [Handle(R.ReadRegister(0, name(0)))] + run;
    LeadsCons(n1, Handle(R.Begin(0)), run, t, name);
    run := [Handle(R.Begin(0))] + run;
    LeadsCons(START, Listen(0, name(0)), run, t, name);
    run := [Listen(0, name(0))] + run;
  }
}
