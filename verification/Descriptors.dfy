/** Who may touch a socket descriptor. Connections are reference counted: the stream table,
    the local variables of the reader, the forwarder and the pumps, and the map that CloseAll
    swaps out each hold counted references, and the last one to go closes the descriptor.
    The kernel may reissue a closed number at once. Control flow is over-approximated: any
    thread may run any of the code fragments, on any stream id, at any time. */
module Descriptors {

  type Thread = nat
  type Conn = nat

  /** Where a counted reference lives: a slot of a map object, or a local variable. */
  datatype Ref = Slot(table: nat, id: nat) | Local(t: Thread)

  /** Who an open descriptor number belongs to. */
  datatype User = Raw(t: Thread) | Of(conn: Conn)

  /** `kernel`: the open descriptors. `fd`, `count`: of every connection ever made. `table`:
      the map object that is now the stream table. `closings`: connections whose destructor
      has closed their descriptor. */
  datatype State = State(
    kernel: map<int, User>, fd: map<Conn, int>, count: map<Conn, int>, refs: map<Ref, Conn>,
    raw: map<Thread, int>, next: Conn, table: nat, closings: seq<Conn>)

  const INITIAL := State(map[], map[], map[], map[], map[], 0, 0, [])

  datatype Step =
    | Accept(t: Thread, fd: int)       // accept or dial: the kernel picks a free number
    | Refuse(t: Thread)                // nothing registered: close it again
    | Make(t: Thread)                  // make_shared<Conn>(fd)
    | Insert(t: Thread, id: nat)       // conns_[id] = conn
    | StartPump(t: Thread, u: Thread)  // the pump thread gets its own copy
    | Fetch(t: Thread, id: nat)        // GetConn, or the copy CloseConn takes
    | Erase(id: nat)                   // conns_.erase
    | Swap                             // CloseAll takes the whole table
    | Drop(r: Ref)                     // a local, or an entry of a swapped-out map, dies
    | Touch(r: Ref)                    // recv, send or shutdown

  function CountOf(s: State, c: Conn): int {
    if c in s.count then s.count[c] else 0
  }

  function FdOf(s: State, c: Conn): int {
    if c in s.fd then s.fd[c] else -1
  }

  /** A counted reference dies; the last one runs ~Conn. */
  function Release(s: State, r: Ref): State
    requires r in s.refs
  {
    var c := s.refs[r];
    var left := CountOf(s, c) - 1;
    var s1 := s.(refs := s.refs - {r}, count := s.count[c := left]);
    if left == 0 then s1.(kernel := s.kernel - {FdOf(s, c)}, closings := s.closings + [c]) else s1
  }

  /** A shared_ptr is copied into an empty place. */
  function Copy(s: State, from: Ref, to: Ref): State
    requires from in s.refs
  {
    var c := s.refs[from];
    s.(refs := s.refs[to := c], count := s.count[c := CountOf(s, c) + 1])
  }

  predicate Can(s: State, a: Step) {
    match a
    case Accept(t, fd) => t !in s.raw && fd !in s.kernel
    case Refuse(t) => t in s.raw
    case Make(t) => t in s.raw && Local(t) !in s.refs
    case Insert(t, _) => Local(t) in s.refs
    case StartPump(t, u) => Local(t) in s.refs && Local(u) !in s.refs
    case Fetch(t, id) => Slot(s.table, id) in s.refs && Local(t) !in s.refs
    case Erase(id) => Slot(s.table, id) in s.refs
    case Swap => true
    case Drop(r) => r in s.refs && (r.Local? || r.table != s.table)
    case Touch(r) => r in s.refs
  }

  function Do(s: State, a: Step): State
    requires Can(s, a)
  {
    match a
    case Accept(t, fd) => s.(kernel := s.kernel[fd := Raw(t)], raw := s.raw[t := fd])
    case Refuse(t) => s.(kernel := s.kernel - {s.raw[t]}, raw := s.raw - {t})
    case Make(t) =>
      var fd := s.raw[t];
      s.(kernel := s.kernel[fd := Of(s.next)], fd := s.fd[s.next := fd], count := s.count[s.next := 1],
         refs := s.refs[Local(t) := s.next], raw := s.raw - {t}, next := s.next + 1)
    case Insert(t, id) =>
      var slot := Slot(s.table, id);
      Copy(if slot in s.refs then Release(s, slot) else s, Local(t), slot)
    case StartPump(t, u) => Copy(s, Local(t), Local(u))
    case Fetch(t, id) => Copy(s, Slot(s.table, id), Local(t))
    case Erase(id) => Release(s, Slot(s.table, id))
    case Swap => s.(table := s.table + 1)
    case Drop(r) => Release(s, r)
    case Touch(_) => s
  }

  ghost predicate Leads(s: State, run: seq<Step>, t: State)
    decreases run
  {
    if run == [] then s == t else Can(s, run[0]) && Leads(Do(s, run[0]), run[1..], t)
  }

  /** The references to a connection. */
  function Holders(s: State, c: Conn): set<Ref> {
    set r | r in s.refs && s.refs[r] == c
  }

  ghost predicate ConnOk(s: State, c: Conn) {
    && (c < s.next <==> c in s.fd)
    && (c < s.next <==> c in s.count)
    && CountOf(s, c) == |Holders(s, c)|
    && (c < s.next && Holders(s, c) != {} ==> s.fd[c] in s.kernel && s.kernel[s.fd[c]] == Of(c))
    && (c in s.closings <==> c < s.next && Holders(s, c) == {})
  }

  ghost predicate Inv(s: State) {
    && (forall c: Conn :: ConnOk(s, c))
    && (forall r | r in s.refs :: s.refs[r] < s.next)
    && (forall t | t in s.raw :: s.raw[t] in s.kernel && s.kernel[s.raw[t]] == Raw(t))
    && (forall fd | fd in s.kernel && s.kernel[fd].Of? ::
          s.kernel[fd].conn < s.next && FdOf(s, s.kernel[fd].conn) == fd && Holders(s, s.kernel[fd].conn) != {})
    && (forall fd | fd in s.kernel && s.kernel[fd].Raw? :: s.kernel[fd].t in s.raw && s.raw[s.kernel[fd].t] == fd)
    && (forall r | r in s.refs && r.Slot? :: r.table <= s.table)
    && (forall i, j | 0 <= i < j < |s.closings| :: s.closings[i] != s.closings[j])
  }

  lemma ReleaseKeepsInv(s: State, r: Ref)
    requires Inv(s) && r in s.refs
    ensures Inv(Release(s, r))
  {
    var c := s.refs[r];
    var s' := Release(s, r);
    assert ConnOk(s, c);
    assert Holders(s', c) == Holders(s, c) - {r};
    forall d: Conn
      ensures ConnOk(s', d)
    {
      assert ConnOk(s, d);
      if d != c {
        assert Holders(s', d) == Holders(s, d);
      }
    }
    forall fd | fd in s'.kernel && s'.kernel[fd].Of?
      ensures s'.kernel[fd].conn < s'.next && FdOf(s', s'.kernel[fd].conn) == fd && Holders(s', s'.kernel[fd].conn) != {}
    {
      assert ConnOk(s', s'.kernel[fd].conn);
    }
  }

  lemma CopyKeepsInv(s: State, from: Ref, to: Ref)
    requires Inv(s) && from in s.refs && to !in s.refs && (to.Slot? ==> to.table <= s.table)
    ensures Inv(Copy(s, from, to))
  {
    var c := s.refs[from];
    var s' := Copy(s, from, to);
    assert ConnOk(s, c);
    assert Holders(s', c) == Holders(s, c) + {to};
    assert from in Holders(s, c);
    forall d: Conn
      ensures ConnOk(s', d) && Holders(s, d) <= Holders(s', d)
    {
      assert ConnOk(s, d);
      if d != c {
        assert Holders(s', d) == Holders(s, d);
      }
    }
  }

  lemma MakeKeepsInv(s: State, t: Thread)
    requires Inv(s) && t in s.raw && Local(t) !in s.refs
    ensures Inv(Do(s, Make(t)))
  {
    var s' := Do(s, Make(t));
    assert Holders(s', s.next) == {Local(t)};
    forall d: Conn
      ensures ConnOk(s', d)
    {
      assert ConnOk(s, d);
      if d != s.next {
        assert Holders(s', d) == Holders(s, d);
      }
    }
    forall fd | fd in s'.kernel && s'.kernel[fd].Of?
      ensures s'.kernel[fd].conn < s'.next && FdOf(s', s'.kernel[fd].conn) == fd && Holders(s', s'.kernel[fd].conn) != {}
    {
      if s'.kernel[fd].conn != s.next {
        assert Holders(s', s'.kernel[fd].conn) == Holders(s, s'.kernel[fd].conn);
      }
    }
  }

  /** Steps that move no reference. */
  lemma RefsUnchangedKeepsInv(s: State, a: Step)
    requires Inv(s) && Can(s, a) && (a.Accept? || a.Refuse? || a.Swap? || a.Touch?)
    ensures Inv(Do(s, a))
  {
    var s' := Do(s, a);
    forall d: Conn
      ensures ConnOk(s', d) && Holders(s', d) == Holders(s, d)
    {
      assert ConnOk(s, d);
      assert Holders(s', d) == Holders(s, d);
    }
  }

  lemma StepKeepsInv(s: State, a: Step)
    requires Inv(s) && Can(s, a)
    ensures Inv(Do(s, a))
  {
    match a
    case Make(t) => MakeKeepsInv(s, t);
    case Insert(t, id) =>
      var slot := Slot(s.table, id);
      if slot in s.refs {
        ReleaseKeepsInv(s, slot);
        CopyKeepsInv(Release(s, slot), Local(t), slot);
      } else {
        CopyKeepsInv(s, Local(t), slot);
      }
    case StartPump(t, u) => CopyKeepsInv(s, Local(t), Local(u));
    case Fetch(t, id) => CopyKeepsInv(s, Slot(s.table, id), Local(t));
    case Erase(id) => ReleaseKeepsInv(s, Slot(s.table, id));
    case Drop(r) => ReleaseKeepsInv(s, r);
    case _ => RefsUnchangedKeepsInv(s, a);
  }

  lemma {:induction false} RunKeepsInv(s: State, run: seq<Step>, t: State)
    requires Inv(s) && Leads(s, run, t)
    ensures Inv(t)
    decreases run
  {
    if run != [] {
      StepKeepsInv(s, run[0]);
      RunKeepsInv(Do(s, run[0]), run[1..], t);
    }
  }

  lemma InitialInv()
    ensures Inv(INITIAL)
  {
    forall c: Conn
      ensures ConnOk(INITIAL, c)
    {
      assert Holders(INITIAL, c) == {};
    }
  }

  /** However the kernel reuses numbers: a system call that may come next hits the caller's own
      descriptor, a
      connection is closed exactly when the last reference to it is gone, and only once; while
      any reference is left its number is its own; and a number is open exactly when some
      thread holds it raw or it belongs to a connection with a reference, so none leaks. */
  lemma DescriptorsAreSafe(run: seq<Step>, t: State)
    requires Leads(INITIAL, run, t)
    ensures forall r | Can(t, Touch(r)) :: FdOf(t, t.refs[r]) in t.kernel && t.kernel[FdOf(t, t.refs[r])] == Of(t.refs[r])
    ensures forall i, j | 0 <= i < j < |t.closings| :: t.closings[i] != t.closings[j]
    ensures forall c: Conn | c < t.next :: c in t.closings <==> Holders(t, c) == {}
    ensures forall c: Conn | c < t.next && Holders(t, c) != {} :: c in t.fd && t.fd[c] in t.kernel && t.kernel[t.fd[c]] == Of(c)
    ensures forall fd :: fd in t.kernel <==>
              (exists u :: u in t.raw && t.raw[u] == fd) || (exists r :: r in t.refs && FdOf(t, t.refs[r]) == fd)
  {
    InitialInv();
    RunKeepsInv(INITIAL, run, t);
    forall c: Conn | c < t.next
      ensures c in t.closings <==> Holders(t, c) == {}
      ensures Holders(t, c) != {} ==> c in t.fd && t.fd[c] in t.kernel && t.kernel[t.fd[c]] == Of(c)
    {
      assert ConnOk(t, c);
    }
    forall r | Can(t, Touch(r))
      ensures FdOf(t, t.refs[r]) in t.kernel && t.kernel[FdOf(t, t.refs[r])] == Of(t.refs[r])
    {
      assert r in Holders(t, t.refs[r]) && ConnOk(t, t.refs[r]);
    }
    forall fd
      ensures fd in t.kernel <==>
              (exists u :: u in t.raw && t.raw[u] == fd) || (exists r :: r in t.refs && FdOf(t, t.refs[r]) == fd)
    {
      OpenExactlyWhen(t, fd);
    }
  }

  lemma OpenExactlyWhen(s: State, fd: int)
    requires Inv(s)
    ensures fd in s.kernel <==>
            (exists u :: u in s.raw && s.raw[u] == fd) || (exists r :: r in s.refs && FdOf(s, s.refs[r]) == fd)
  {
    if fd in s.kernel && s.kernel[fd].Of? {
      var r :| r in Holders(s, s.kernel[fd].conn);
      assert r in s.refs && FdOf(s, s.refs[r]) == fd;
    }
    if r :| r in s.refs && FdOf(s, s.refs[r]) == fd {
      assert ConnOk(s, s.refs[r]);
      assert r in Holders(s, s.refs[r]);
    }
  }

  /** When the last handler and thread are gone, so is the last descriptor. */
  lemma NothingLeaks(run: seq<Step>, t: State)
    requires Leads(INITIAL, run, t) && t.raw == map[] && t.refs == map[]
    ensures forall fd :: fd !in t.kernel
  {
    DescriptorsAreSafe(run, t);
  }

  // ------------------------------------------------------- what a reference is

  /** The step makes this place let go of what it holds. */
  predicate LetsGo(a: Step, r: Ref) {
    a == Drop(r) || (r.Slot? && (a == Erase(r.id) || (a.Insert? && a.id == r.id)))
  }

  lemma StepPins(s: State, a: Step, r: Ref)
    requires Inv(s) && Can(s, a) && r in s.refs && !LetsGo(a, r)
    ensures r in Do(s, a).refs && Do(s, a).refs[r] == s.refs[r] && FdOf(Do(s, a), s.refs[r]) == FdOf(s, s.refs[r])
  {
    assert ConnOk(s, s.refs[r]);
  }

  /** Through every run in which it does not let go, a place keeps its connection, and that
      connection its own open descriptor. */
  lemma {:induction false} HeldIsPinned(s: State, run: seq<Step>, t: State, r: Ref)
    requires Inv(s) && Leads(s, run, t) && r in s.refs && forall a | a in run :: !LetsGo(a, r)
    ensures r in t.refs && t.refs[r] == s.refs[r] && FdOf(t, t.refs[r]) == FdOf(s, s.refs[r])
    ensures FdOf(t, t.refs[r]) in t.kernel && t.kernel[FdOf(t, t.refs[r])] == Of(t.refs[r])
    decreases run
  {
    var c := s.refs[r];
    assert ConnOk(s, c) && r in Holders(s, c);
    if run != [] {
      StepKeepsInv(s, run[0]);
      StepPins(s, run[0], r);
      HeldIsPinned(Do(s, run[0]), run[1..], t, r);
    }
  }

  /** The place a step fills, and what it must then hold. */
  function Filled(s: State, a: Step): Ref
    requires a.Make? || a.Insert? || a.StartPump? || a.Fetch?
  {
    match a
    case Make(t) => Local(t)
    case Insert(_, id) => Slot(s.table, id)
    case StartPump(_, u) => Local(u)
    case Fetch(t, _) => Local(t)
  }

  lemma FilledHolds(s: State, a: Step)
    requires Inv(s) && Can(s, a) && (a.Make? || a.Insert? || a.StartPump? || a.Fetch?)
    ensures Filled(s, a) in Do(s, a).refs
    ensures a.Make? ==> FdOf(Do(s, a), Do(s, a).refs[Local(a.t)]) == s.raw[a.t]
    ensures a.Insert? ==> Do(s, a).refs[Slot(s.table, a.id)] == s.refs[Local(a.t)]
    ensures a.StartPump? ==> Do(s, a).refs[Local(a.u)] == s.refs[Local(a.t)]
    ensures a.Fetch? ==> Do(s, a).refs[Local(a.t)] == s.refs[Slot(s.table, a.id)]
  {
  }

  /** A connection made from a descriptor keeps that descriptor; the table, the pump and a
      fetching reader hold the very connection handed to them, until they let go. */
  lemma ReferencesArePassedOn(before: seq<Step>, s: State, a: Step, after: seq<Step>, t: State)
    requires Leads(INITIAL, before, s) && Can(s, a) && Leads(Do(s, a), after, t)
    requires a.Make? || a.Insert? || a.StartPump? || a.Fetch?
    requires forall b | b in after :: !LetsGo(b, Filled(s, a))
    ensures Filled(s, a) in t.refs
    ensures a.Make? ==> FdOf(t, t.refs[Local(a.t)]) == s.raw[a.t]
    ensures a.Insert? ==> t.refs[Slot(s.table, a.id)] == s.refs[Local(a.t)]
    ensures a.StartPump? ==> t.refs[Local(a.u)] == s.refs[Local(a.t)]
    ensures a.Fetch? ==> t.refs[Local(a.t)] == s.refs[Slot(s.table, a.id)]
  {
    InitialInv();
    RunKeepsInv(INITIAL, before, s);
    StepKeepsInv(s, a);
    FilledHolds(s, a);
    HeldIsPinned(Do(s, a), after, t, Filled(s, a));
  }

  /** A descriptor accepted or dialed is the thread's own until it is refused or wrapped. */
  lemma {:induction false} RawIsPinned(s: State, run: seq<Step>, t: State, u: Thread)
    requires Inv(s) && Leads(s, run, t) && u in s.raw && Refuse(u) !in run && Make(u) !in run
    ensures u in t.raw && t.raw[u] == s.raw[u] && t.raw[u] in t.kernel && t.kernel[t.raw[u]] == Raw(u)
    decreases run
  {
    if run != [] {
      StepKeepsInv(s, run[0]);
      RawIsPinned(Do(s, run[0]), run[1..], t, u);
    }
  }

  lemma AcceptedIsPinned(before: seq<Step>, s: State, u: Thread, fd: int, after: seq<Step>, t: State)
    requires Leads(INITIAL, before, s) && Can(s, Accept(u, fd)) && Leads(Do(s, Accept(u, fd)), after, t)
    requires Refuse(u) !in after && Make(u) !in after
    ensures u in t.raw && t.raw[u] == fd && fd in t.kernel && t.kernel[fd] == Raw(u)
  {
    InitialInv();
    RunKeepsInv(INITIAL, before, s);
    StepKeepsInv(s, Accept(u, fd));
    RawIsPinned(Do(s, Accept(u, fd)), after, t, u);
  }

  /** Erasing, dropping and swapping do let go: the table has no such entry any more. */
  lemma LettingGo(before: seq<Step>, s: State, a: Step)
    requires Leads(INITIAL, before, s) && Can(s, a)
    ensures a.Erase? ==> Slot(s.table, a.id) !in Do(s, a).refs
    ensures a.Drop? ==> a.r !in Do(s, a).refs
    ensures a.Refuse? ==> s.raw[a.t] !in Do(s, a).kernel
    ensures a.Swap? ==> forall id :: Slot(Do(s, a).table, id) !in Do(s, a).refs
  {
    InitialInv();
    RunKeepsInv(INITIAL, before, s);
  }
}
