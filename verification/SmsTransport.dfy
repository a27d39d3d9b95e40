/** Inbound SMS through the data store: a listener thread flags and notifies, the reactor
    thread drains one slot, and a remembered triple keeps messages from being repeated. */
module SmsTransport {
  import opened Wrappers

  datatype Sms = Sms(sender: string, text: string, ts: string)

  const BLANK := Sms("", "", "")

  predicate Deliverable(m: Sms) {
    m.sender != "" && m.text != ""
  }

  /** What drain_inbound does with a message it has read: deliver it and remember it, unless
      it is incomplete or the one remembered. */
  function Drained(seen: Sms, m: Sms): (Sms, Option<Sms>) {
    if !Deliverable(m) || m == seen then (seen, None) else (m, Some(m))
  }

  /** The object's own fields. Each method is one critical section, or a stretch of one
      thread between two of them; reads of the store are passed in. */
  class Transport {
    var dirty: bool
    var seen: Sms

    constructor ()
      ensures !dirty && seen == BLANK
    {
      dirty, seen := false, BLANK;
    }

    /** The replay guard of start(). */
    method Baseline(read: Option<Sms>)
      modifies this`seen
      ensures seen == if read.Some? then read.value else old(seen)
    {
      if read.Some? {
        seen := read.value;
      }
    }

    /** The watch callback, before it notifies the reactor. */
    method Flag()
      modifies this`dirty
      ensures dirty
    {
      dirty := true;
    }

    /** handle_exception, before it drains. */
    method TakeFlag() returns (was: bool)
      modifies this`dirty
      ensures was == old(dirty) && !dirty
    {
      was := dirty;
      dirty := false;
    }

    method DrainInbound(read: Option<Sms>) returns (delivered: Option<Sms>)
      modifies this`seen
      ensures (seen, delivered) == if read.Some? then Drained(old(seen), read.value) else (old(seen), None)
    {
      if read.None? {
        return None;
      }
      var m := read.value;
      if m.sender == "" || m.text == "" {
        return None;
      }
      if m.sender == seen.sender && m.text == seen.text && m.ts == seen.ts {
        return None;
      }
      seen := m;
      return Some(m);
    }
  }

  // ---------------------------------------------------------- the two threads

  datatype Stage = BeforeBaseline | BeforeWatch | Watching

  /** A message together with its place in the order of all writes to the slot. */
  datatype Stored = Stored(m: Sms, nth: nat)

  datatype ReactorPc = Waiting | Draining | Comparing(read: Stored)

  /** `slot`: sms.last.*, which starts blank; what is in it before start() is the work of
      earlier writes. `due`: bumps the listener has yet to call back. `flagging`: callbacks
      between their flag and their notify. `wakeups`: notifications queued at the reactor.
      `baseline`: what start() recorded. */
  datatype State = State(
    stage: Stage, slot: Stored, due: nat, flagging: nat, dirty: bool, wakeups: nat,
    reactor: ReactorPc, seen: Sms, baseline: Sms, deliveries: seq<Stored>)

  const INITIAL := State(BeforeBaseline, Stored(BLANK, 0), 0, 0, false, 0, Waiting, BLANK, BLANK, [])

  datatype Step =
    | Write(m: Sms) | Bump                     // the modem side of the store
    | ReadBaseline(ok: bool) | Watch           // start()
    | SetFlag | Notify                         // the watch callback
    | Dispatch | Read(ok: bool) | Compare      // the reactor thread

  predicate Can(s: State, a: Step) {
    match a
    case Write(_) => true
    case Bump => true
    case ReadBaseline(_) => s.stage.BeforeBaseline?
    case Watch => s.stage.BeforeWatch?
    case SetFlag => s.due > 0
    case Notify => s.flagging > 0
    case Dispatch => s.reactor.Waiting? && s.wakeups > 0
    case Read(_) => s.reactor.Draining?
    case Compare => s.reactor.Comparing?
  }

  function Do(s: State, a: Step): State
    requires Can(s, a)
  {
    match a
    case Write(m) => s.(slot := Stored(m, s.slot.nth + 1))
    case Bump => if s.stage.Watching? then s.(due := s.due + 1) else s
    case ReadBaseline(ok) =>
      if ok then s.(stage := BeforeWatch, seen := s.slot.m, baseline := s.slot.m) else s.(stage := BeforeWatch)
    case Watch => s.(stage := Watching)
    case SetFlag => s.(due := s.due - 1, flagging := s.flagging + 1, dirty := true)
    case Notify => s.(flagging := s.flagging - 1, wakeups := s.wakeups + 1)
    case Dispatch =>
      s.(wakeups := s.wakeups - 1, dirty := false, reactor := if s.dirty then Draining else Waiting)
    case Read(ok) => s.(reactor := if ok then Comparing(s.slot) else Waiting)
    case Compare =>
      var (seen', out) := Drained(s.seen, s.reactor.read.m);
      s.(reactor := Waiting, seen := seen',
         deliveries := if out.Some? then s.deliveries + [s.reactor.read] else s.deliveries)
  }

  ghost predicate Leads(s: State, run: seq<Step>, t: State)
    decreases run
  {
    if run == [] then s == t else Can(s, run[0]) && Leads(Do(s, run[0]), run[1..], t)
  }

  // --------------------------------------------------------------- no replay

  /** The last message delivered, or the baseline. */
  function LastKnown(baseline: Sms, deliveries: seq<Stored>): Sms {
    if deliveries == [] then baseline else deliveries[|deliveries| - 1].m
  }

  /** Complete messages only, each different from the one before it. */
  ghost predicate Distinct(baseline: Sms, deliveries: seq<Stored>) {
    && (forall i :: 0 <= i < |deliveries| ==> Deliverable(deliveries[i].m))
    && (deliveries != [] ==> deliveries[0].m != baseline)
    && (forall i :: 0 < i < |deliveries| ==> deliveries[i].m != deliveries[i - 1].m)
  }

  lemma OneMore(baseline: Sms, deliveries: seq<Stored>, d: Stored)
    requires Distinct(baseline, deliveries) && Deliverable(d.m) && d.m != LastKnown(baseline, deliveries)
    ensures Distinct(baseline, deliveries + [d]) && LastKnown(baseline, deliveries + [d]) == d.m
  {
  }

  ghost predicate NoRepeats(s: State) {
    && s.seen == LastKnown(s.baseline, s.deliveries) && Distinct(s.baseline, s.deliveries)
    && (!s.stage.Watching? ==>
          s.due == 0 && s.flagging == 0 && s.wakeups == 0 && s.reactor.Waiting? && s.deliveries == [])
  }

  lemma StepKeepsNoRepeats(s: State, a: Step)
    requires NoRepeats(s) && Can(s, a)
    ensures NoRepeats(Do(s, a))
  {
    if a.Compare? && Drained(s.seen, s.reactor.read.m).1.Some? {
      OneMore(s.baseline, s.deliveries, s.reactor.read);
    }
  }

  lemma {:induction false} RunKeepsNoRepeats(s: State, run: seq<Step>, t: State)
    requires NoRepeats(s) && Leads(s, run, t)
    ensures NoRepeats(t)
    decreases run
  {
    if run != [] {
      StepKeepsNoRepeats(s, run[0]);
      RunKeepsNoRepeats(Do(s, run[0]), run[1..], t);
    }
  }

  /** Adjacent deliveries differ, the first differs from the start-up baseline, and every one
      is complete. */
  lemma NoReplay(run: seq<Step>, s: State)
    requires Leads(INITIAL, run, s)
    ensures s.deliveries != [] ==> s.deliveries[0].m != s.baseline
    ensures forall i :: 0 < i < |s.deliveries| ==> s.deliveries[i].m != s.deliveries[i - 1].m
    ensures forall i :: 0 <= i < |s.deliveries| ==> s.deliveries[i].m.sender != "" && s.deliveries[i].m.text != ""
  {
    RunKeepsNoRepeats(INITIAL, run, s);
  }

  // ------------------------------------------------------- no lost wake-up

  ghost predicate ReadAfter(run: seq<Step>, b: nat) {
    exists k :: b < k < |run| && run[k].Read?
  }

  /** An announcement the listener hears. */
  predicate Heard(run: seq<Step>, b: nat) {
    b < |run| && run[b].Bump? && Watch in run[..b]
  }

  lemma ReadAfterGrows(run: seq<Step>, a: Step, b: nat)
    requires b < |run|
    ensures ReadAfter(run + [a], b) <==> ReadAfter(run, b) || a.Read?
    ensures Heard(run + [a], b) <==> Heard(run, b)
  {
    var more := run + [a];
    assert more[..b] == run[..b] && more[b] == run[b];
    if ReadAfter(run, b) {
      var k :| b < k < |run| && run[k].Read?;
      assert more[k].Read?;
    }
    if a.Read? {
      assert more[|run|].Read?;
    }
  }

  /** Every flag, and every heard bump, not yet followed by a read still has one coming. */
  ghost predicate Awake(run: seq<Step>, s: State) {
    && (s.stage.Watching? <==> Watch in run)
    && (s.dirty ==> s.flagging > 0 || s.wakeups > 0)
    && (forall b: nat | b < |run| && run[b].SetFlag? :: ReadAfter(run, b) || s.dirty || s.reactor.Draining?)
    && (forall b: nat | Heard(run, b) :: ReadAfter(run, b) || s.due > 0 || s.dirty || s.reactor.Draining?)
  }

  lemma StepKeepsAwake(run: seq<Step>, s: State, a: Step)
    requires Awake(run, s) && Can(s, a)
    ensures Awake(run + [a], Do(s, a))
  {
    var more, t := run + [a], Do(s, a);
    forall b: nat | b < |more| && more[b].SetFlag?
      ensures ReadAfter(more, b) || t.dirty || t.reactor.Draining?
    {
      if b < |run| {
        ReadAfterGrows(run, a, b);
      }
    }
    forall b: nat | Heard(more, b)
      ensures ReadAfter(more, b) || t.due > 0 || t.dirty || t.reactor.Draining?
    {
      if b < |run| {
        ReadAfterGrows(run, a, b);
      } else {
        assert more[..b] == run;
      }
    }
  }

  /** Nothing stirs the two threads but a bump that was heard. */
  ghost predicate Caused(run: seq<Step>, s: State) {
    s.due > 0 || s.flagging > 0 || s.wakeups > 0 || !s.reactor.Waiting? || (exists k :: 0 <= k < |run| && run[k].Read?) ==>
      exists b: nat :: Heard(run, b)
  }

  lemma StepKeepsCaused(run: seq<Step>, s: State, a: Step)
    requires Awake(run, s) && Caused(run, s) && Can(s, a)
    ensures Caused(run + [a], Do(s, a))
  {
    var more := run + [a];
    if b: nat :| Heard(run, b) {
      ReadAfterGrows(run, a, b);
      assert Heard(more, b);
    } else if a.Bump? && s.stage.Watching? {
      assert more[..|run|] == run;
      assert Heard(more, |run|);
    } else {
      assert forall k :: 0 <= k < |run| ==> more[k] == run[k];
    }
  }

  lemma {:induction false} RunKeepsAwake(before: seq<Step>, s: State, run: seq<Step>, t: State)
    requires Awake(before, s) && Caused(before, s) && Leads(s, run, t)
    ensures Awake(before + run, t) && Caused(before + run, t)
    decreases run
  {
    if run == [] {
      assert before + run == before;
    } else {
      StepKeepsAwake(before, s, run[0]);
      StepKeepsCaused(before, s, run[0]);
      RunKeepsAwake(before + [run[0]], Do(s, run[0]), run[1..], t);
      assert before + [run[0]] + run[1..] == before + run;
    }
  }

  lemma ReachableAwake(run: seq<Step>, s: State)
    requires Leads(INITIAL, run, s)
    ensures Awake(run, s) && Caused(run, s)
  {
    RunKeepsAwake([], INITIAL, run, s);
    assert [] + run == run;
  }

  /** Every callback has returned, and the reactor waits. */
  predicate AtRest(s: State) {
    s.stage.Watching? && s.due == 0 && s.flagging == 0 && s.wakeups == 0 && s.reactor.Waiting?
  }

  /** No wake-up is lost: a callback not yet followed by a read of the slot has a drain under
      way or a notification to come, so at rest every callback, and every bump since the watch
      was placed, has been followed by a read. */
  lemma NoLostWakeUp(run: seq<Step>, s: State, b: nat)
    requires Leads(INITIAL, run, s) && b < |run|
    ensures run[b].SetFlag? ==>
              ReadAfter(run, b) || s.reactor.Draining? || (s.dirty && (s.flagging > 0 || s.wakeups > 0))
    ensures AtRest(s) && (run[b].SetFlag? || Heard(run, b)) ==> ReadAfter(run, b)
  {
    ReachableAwake(run, s);
  }

  /** A callback has flagged since the reactor last looked. */
  function Flagged(run: seq<Step>): bool {
    if run == [] then false
    else
      var front := run[..|run| - 1];
      match run[|run| - 1]
      case SetFlag => true
      case Dispatch => false
      case _ => Flagged(front)
  }

  /** The reactor found the flag set and has not read the slot since. */
  function DrainDue(run: seq<Step>): bool {
    if run == [] then false
    else
      var front := run[..|run| - 1];
      match run[|run| - 1]
      case Dispatch => Flagged(front)
      case Read(_) => false
      case _ => DrainDue(front)
  }

  ghost predicate FlagsTold(run: seq<Step>, s: State) {
    s.dirty == Flagged(run) && s.reactor.Draining? == DrainDue(run)
  }

  lemma StepKeepsFlags(run: seq<Step>, s: State, a: Step)
    requires FlagsTold(run, s) && Can(s, a)
    ensures FlagsTold(run + [a], Do(s, a))
  {
    assert (run + [a])[..|run|] == run;
  }

  lemma {:induction false} RunKeepsFlags(before: seq<Step>, s: State, run: seq<Step>, t: State)
    requires FlagsTold(before, s) && Leads(s, run, t)
    ensures FlagsTold(before + run, t)
    decreases run
  {
    if run == [] {
      assert before + run == before;
    } else {
      StepKeepsFlags(before, s, run[0]);
      RunKeepsFlags(before + [run[0]], Do(s, run[0]), run[1..], t);
      assert before + [run[0]] + run[1..] == before + run;
    }
  }

  /** The slot is read exactly when the reactor was dispatched after a callback had flagged
      since its last dispatch: never for a notification already taken care of. */
  lemma ReadsExactlyWhenFlagged(run: seq<Step>, s: State)
    requires Leads(INITIAL, run, s)
    ensures forall ok :: Can(s, Read(ok)) <==> DrainDue(run)
  {
    RunKeepsFlags([], INITIAL, run, s);
    assert [] + run == run;
  }

  // -------------------------------------- exactly which messages are delivered

  /** What the labels of a run say: the last message written, */
  function Slot(run: seq<Step>): Stored {
    if run == [] then Stored(BLANK, 0)
    else
      var before := Slot(run[..|run| - 1]);
      match run[|run| - 1]
      case Write(m) => Stored(m, before.nth + 1)
      case _ => before
  }

  /** the last message known, either as the baseline or as a complete one read by a drain, */
  function Known(run: seq<Step>): Sms {
    if run == [] then BLANK
    else
      var front := run[..|run| - 1];
      match run[|run| - 1]
      case ReadBaseline(ok) => if ok then Slot(front).m else Known(front)
      case Read(ok) => if ok && Deliverable(Slot(front).m) then Slot(front).m else Known(front)
      case _ => Known(front)
  }

  /** whether the k-th step reads a complete message not known before, */
  predicate Takes(run: seq<Step>, k: nat) {
    k < |run| && run[k] == Read(true) && Deliverable(Slot(run[..k]).m) && Slot(run[..k]).m != Known(run[..k])
  }

  /** and all the messages so taken, in order. */
  function Taken(run: seq<Step>): seq<Stored> {
    if run == [] then []
    else
      var front := run[..|run| - 1];
      if Takes(run, |front|) then Taken(front) + [Slot(front)] else Taken(front)
  }

  /** The deliveries, with the one that a comparison under way is about to make. */
  function Out(s: State): seq<Stored> {
    if s.reactor.Comparing? && Drained(s.seen, s.reactor.read.m).1.Some? then s.deliveries + [s.reactor.read]
    else s.deliveries
  }

  ghost predicate Tallies(run: seq<Step>, s: State) {
    && s.slot == Slot(run)
    && Known(run) == (if s.reactor.Comparing? then Drained(s.seen, s.reactor.read.m).0 else s.seen)
    && Out(s) == Taken(run)
  }

  /** One more label. */
  lemma OneMoreLabel(run: seq<Step>, a: Step)
    ensures Slot(run + [a]) == if a.Write? then Stored(a.m, Slot(run).nth + 1) else Slot(run)
    ensures Known(run + [a]) ==
            if a == ReadBaseline(true) || (a == Read(true) && Deliverable(Slot(run).m)) then Slot(run).m else Known(run)
    ensures Taken(run + [a]) ==
            if a == Read(true) && Deliverable(Slot(run).m) && Slot(run).m != Known(run) then Taken(run) + [Slot(run)] else Taken(run)
  {
    assert (run + [a])[..|run|] == run;
  }

  lemma ReaderKeepsTally(run: seq<Step>, s: State, a: Step)
    requires Tallies(run, s) && Can(s, a) && (a.Read? || a.Compare?)
    ensures Tallies(run + [a], Do(s, a))
  {
    OneMoreLabel(run, a);
  }

  lemma OtherKeepsTally(run: seq<Step>, s: State, a: Step)
    requires NoRepeats(s) && Tallies(run, s) && Can(s, a) && !(a.Read? || a.Compare?)
    ensures Tallies(run + [a], Do(s, a))
  {
    OneMoreLabel(run, a);
    assert Out(Do(s, a)) == Out(s);
  }

  lemma StepKeepsTally(run: seq<Step>, s: State, a: Step)
    requires NoRepeats(s) && Tallies(run, s) && Can(s, a)
    ensures Tallies(run + [a], Do(s, a))
  {
    if a.Read? || a.Compare? {
      ReaderKeepsTally(run, s, a);
    } else {
      OtherKeepsTally(run, s, a);
    }
  }

  lemma {:induction false} RunKeepsTally(before: seq<Step>, s: State, run: seq<Step>, t: State)
    requires NoRepeats(s) && Tallies(before, s) && Leads(s, run, t)
    ensures Tallies(before + run, t)
    decreases run
  {
    if run == [] {
      assert before + run == before;
    } else {
      StepKeepsNoRepeats(s, run[0]);
      StepKeepsTally(before, s, run[0]);
      RunKeepsTally(before + [run[0]], Do(s, run[0]), run[1..], t);
      assert before + [run[0]] + run[1..] == before + run;
    }
  }

  lemma ReachableTallies(run: seq<Step>, s: State)
    requires Leads(INITIAL, run, s)
    ensures Tallies(run, s)
  {
    RunKeepsTally([], INITIAL, run, s);
    assert [] + run == run;
  }

  lemma {:induction false} TakenMeans(run: seq<Step>, d: Stored)
    ensures d in Taken(run) <==> exists k: nat :: Takes(run, k) && Slot(run[..k]) == d
  {
    if run != [] {
      var front := run[..|run| - 1];
      TakenMeans(front, d);
      forall k: nat | k < |front|
        ensures Takes(run, k) == Takes(front, k) && run[..k] == front[..k]
      {
        assert run[..k] == front[..k];
      }
      assert run[..|front|] == front;
      if k: nat :| Takes(front, k) && Slot(front[..k]) == d {
        assert Takes(run, k) && Slot(run[..k]) == d;
      }
      if k: nat :| Takes(run, k) && Slot(run[..k]) == d {
        assert k < |front| ==> Takes(front, k) && Slot(front[..k]) == d;
      }
    }
  }

  ghost predicate NoWrite(run: seq<Step>, from: int, to: int) {
    forall j :: from < j < to && 0 <= j < |run| ==> !run[j].Write?
  }

  /** Between two points of a run the slot keeps its message exactly when nothing is written. */
  lemma {:induction false} SlotSince(run: seq<Step>, i: nat, k: nat)
    requires i <= k <= |run|
    ensures Slot(run[..k]).nth >= Slot(run[..i]).nth
    ensures Slot(run[..k]).nth == Slot(run[..i]).nth <==> NoWrite(run, i - 1, k)
    ensures NoWrite(run, i - 1, k) ==> Slot(run[..k]) == Slot(run[..i])
    decreases k
  {
    if i < k {
      SlotSince(run, i, k - 1);
      assert run[..k][..k - 1] == run[..k - 1];
    }
  }

  /** The message stored by the i-th step. */
  function Message(run: seq<Step>, i: nat): Stored
    requires i < |run|
  {
    Slot(run[..i + 1])
  }

  /** The i-th step stores a complete message, a read finds it before the next is stored, and
      it was not known then. */
  ghost predicate TakenUp(run: seq<Step>, i: nat)
    requires i < |run| && run[i].Write?
  {
    && run[i].m.sender != "" && run[i].m.text != ""
    && exists k: nat :: i < k < |run| && run[k] == Read(true) && NoWrite(run, i, k) && Known(run[..k]) != run[i].m
  }

  /** Whatever the interleaving, a stored message is delivered, or about to be, exactly when a
      successful drain read follows it before the next message is stored, it is complete, and
      it differs from the last message known. */
  lemma DeliveredExactlyWhen(run: seq<Step>, s: State, i: nat)
    requires Leads(INITIAL, run, s) && i < |run| && run[i].Write?
    ensures Message(run, i).m == run[i].m
    ensures Message(run, i) in Out(s) <==> TakenUp(run, i)
  {
    ReachableTallies(run, s);
    var d := Message(run, i);
    assert run[..i + 1][..i] == run[..i];
    TakenMeans(run, d);
    if d in Taken(run) {
      var k: nat :| Takes(run, k) && Slot(run[..k]) == d;
      if k <= i {
        SlotSince(run, k, i);
        assert false;
      }
      SlotSince(run, i + 1, k);
    }
    if TakenUp(run, i) {
      var k: nat :| i < k < |run| && run[k] == Read(true) && NoWrite(run, i, k) && Known(run[..k]) != run[i].m;
      SlotSince(run, i + 1, k);
      assert Takes(run, k);
    }
  }

  /** What the slot holds was put there by a write. */
  lemma {:induction false} SlotWasWritten(run: seq<Step>)
    ensures Slot(run) == Stored(BLANK, 0) || exists i: nat :: i < |run| && run[i].Write? && Message(run, i) == Slot(run)
  {
    if run != [] {
      var front := run[..|run| - 1];
      if run[|front|].Write? {
        assert run[..|front| + 1] == run;
        assert Message(run, |front|) == Slot(run);
      } else {
        SlotWasWritten(front);
        if i: nat :| i < |front| && front[i].Write? && Message(front, i) == Slot(front) {
          assert front[..i + 1] == run[..i + 1];
          assert run[i].Write? && Message(run, i) == Slot(run);
        }
      }
    }
  }

  ghost predicate Ordered(ds: seq<Stored>) {
    forall j :: 0 < j < |ds| ==> ds[j - 1].nth < ds[j].nth
  }

  lemma {:induction false} TakenInOrder(run: seq<Step>)
    ensures Ordered(Taken(run))
    ensures forall d | d in Taken(run) :: d.nth <= Slot(run).nth
    ensures forall d | d in Taken(run) && d.nth == Slot(run).nth :: Known(run) == Slot(run).m
  {
    if run != [] {
      TakenInOrder(run[..|run| - 1]);
      assert run[..|run| - 1] == run[..|run[..|run| - 1]|];
    }
  }

  /** Deliveries are stored messages, in the order in which they were stored; so no stored
      message is delivered twice. */
  lemma DeliveredInOrder(run: seq<Step>, s: State)
    requires Leads(INITIAL, run, s)
    ensures forall d | d in Out(s) :: exists i: nat :: i < |run| && run[i].Write? && Message(run, i) == d
    ensures Ordered(Out(s))
  {
    ReachableTallies(run, s);
    TakenInOrder(run);
    forall d | d in Out(s)
      ensures exists i: nat :: i < |run| && run[i].Write? && Message(run, i) == d
    {
      TakenMeans(run, d);
      var k: nat :| Takes(run, k) && Slot(run[..k]) == d;
      SlotWasWritten(run[..k]);
      var i: nat :| i < k && run[..k][i].Write? && Message(run[..k], i) == d;
      assert run[..k][..i + 1] == run[..i + 1];
      assert run[i].Write? && Message(run, i) == d;
    }
  }

  lemma {:induction false} OrderedApart(ds: seq<Stored>, j: nat, k: nat)
    requires Ordered(ds) && j < k < |ds|
    ensures ds[j].nth < ds[k].nth
  {
    if j + 1 < k {
      OrderedApart(ds, j, k - 1);
    }
  }

  ghost predicate Repeats(ds: seq<Stored>, m: Sms) {
    exists j, k :: 0 <= j < k < |ds| && ds[j].m == ds[k].m == m
  }

  /** Two different writes of m are delivered. */
  ghost predicate TakenUpTwice(run: seq<Step>, m: Sms) {
    exists i: nat, j: nat :: i < j < |run| && run[i] == run[j] == Write(m) && TakenUp(run, i) && TakenUp(run, j)
  }

  lemma LaterIsLarger(run: seq<Step>, i: nat, j: nat)
    requires i < j < |run| && run[j].Write?
    ensures Message(run, i).nth < Message(run, j).nth
  {
    SlotSince(run, i + 1, j);
    assert run[..j + 1][..j] == run[..j];
  }

  lemma RepeatedWasTakenTwice(run: seq<Step>, s: State, m: Sms)
    requires Leads(INITIAL, run, s) && Repeats(Out(s), m)
    ensures TakenUpTwice(run, m)
  {
    DeliveredInOrder(run, s);
    var p, q :| 0 <= p < q < |Out(s)| && Out(s)[p].m == Out(s)[q].m == m;
    var d, e := Out(s)[p], Out(s)[q];
    OrderedApart(Out(s), p, q);
    assert d in Out(s) && e in Out(s);
    var i: nat :| i < |run| && run[i].Write? && Message(run, i) == d;
    var j: nat :| j < |run| && run[j].Write? && Message(run, j) == e;
    DeliveredExactlyWhen(run, s, i);
    DeliveredExactlyWhen(run, s, j);
    if j < i {
      LaterIsLarger(run, j, i);
    }
    assert i < j && run[i] == run[j] == Write(m);
  }

  lemma TakenTwiceIsRepeated(run: seq<Step>, s: State, m: Sms)
    requires Leads(INITIAL, run, s) && TakenUpTwice(run, m)
    ensures Repeats(Out(s), m)
  {
    var i: nat, j: nat :| i < j < |run| && run[i] == run[j] == Write(m) && TakenUp(run, i) && TakenUp(run, j);
    DeliveredExactlyWhen(run, s, i);
    DeliveredExactlyWhen(run, s, j);
    LaterIsLarger(run, i, j);
    var p :| 0 <= p < |Out(s)| && Out(s)[p] == Message(run, i);
    var q :| 0 <= q < |Out(s)| && Out(s)[q] == Message(run, j);
    assert p < q || q < p;
  }

  /** The same triple is delivered more than once exactly when it was stored more than once and
      at least twice read while another message was the last one known. */
  lemma RepeatedExactlyWhen(run: seq<Step>, s: State, m: Sms)
    requires Leads(INITIAL, run, s)
    ensures Repeats(Out(s), m) <==> TakenUpTwice(run, m)
  {
    if Repeats(Out(s), m) {
      RepeatedWasTakenTwice(run, s, m);
    }
    if TakenUpTwice(run, m) {
      TakenTwiceIsRepeated(run, s, m);
    }
  }

  // ------------------------------------------ exactly when the last one is missed

  predicate Succeeds(a: Step) {
    a == ReadBaseline(true) || a == Read(true)
  }

  predicate Fails(a: Step) {
    a == ReadBaseline(false) || a == Read(false)
  }

  /** A complete message that stays in the slot is unknown exactly as long as it was unknown
      before and no read succeeds. */
  lemma {:induction false} UnknownSince(run: seq<Step>, i: nat, k: nat)
    requires i < k <= |run| && run[i].Write? && Deliverable(run[i].m) && NoWrite(run, i, k)
    ensures Known(run[..k]) != run[i].m <==>
            Known(run[..i]) != run[i].m && forall j :: i < j < k ==> !Succeeds(run[j])
    decreases k
  {
    assert run[..k][..k - 1] == run[..k - 1];
    if i + 1 < k {
      UnknownSince(run, i, k - 1);
      assert run[..i + 1][..i] == run[..i];
      SlotSince(run, i + 1, k - 1);
    }
  }

  /** At rest, a drain has read the last message exactly when one of its announcements came
      after the watch was placed. */
  lemma ReadExactlyWhenHeard(run: seq<Step>, s: State, i: nat, announced: nat)
    requires Leads(INITIAL, run, s) && AtRest(s)
    requires i < announced < |run| && run[announced].Bump?
    ensures ReadAfter(run, i) <==> exists b: nat :: i < b && Heard(run, b)
  {
    ReachableAwake(run, s);
    if b: nat :| i < b && Heard(run, b) {
      var k :| b < k < |run| && run[k].Read?;
      assert ReadAfter(run, i);
    }
    if ReadAfter(run, i) {
      var b: nat :| Heard(run, b);
      if b <= i {
        assert run[..b] <= run[..announced];
        assert Heard(run, announced);
      }
    }
  }

  /** A complete message that the object does not remember. */
  predicate Missed(s: State, m: Sms) {
    Deliverable(m) && s.seen != m
  }

  /** The last message, stored by step i, is missed exactly when it is complete, was unknown,
      and no read has succeeded since. */
  lemma MissedExactlyWhenUnread(run: seq<Step>, s: State, i: nat)
    requires Leads(INITIAL, run, s) && !s.reactor.Comparing?
    requires i < |run| && run[i].Write? && NoWrite(run, i, |run|)
    ensures Missed(s, run[i].m) <==>
            && Deliverable(run[i].m) && Known(run[..i]) != run[i].m
            && (forall k :: i < k < |run| ==> !Succeeds(run[k]))
  {
    ReachableTallies(run, s);
    assert run[..|run|] == run;
    if Deliverable(run[i].m) {
      UnknownSince(run, i, |run|);
    }
  }

  /** If besides no read has failed since, the message has been announced, and all is at rest:
      exactly when it is complete, was unknown, start() had read its baseline before, and every
      announcement came before the watch was placed. */
  lemma LastMissedExactlyWhen(run: seq<Step>, s: State, i: nat, announced: nat)
    requires Leads(INITIAL, run, s) && AtRest(s)
    requires i < announced < |run| && run[i].Write? && run[announced].Bump? && NoWrite(run, i, |run|)
    requires forall k :: i < k < |run| ==> !Fails(run[k])
    ensures Missed(s, run[i].m) <==>
            && Deliverable(run[i].m) && Known(run[..i]) != run[i].m
            && (forall k :: i < k < |run| ==> !run[k].ReadBaseline?)
            && (forall b: nat | i < b :: !Heard(run, b))
  {
    MissedExactlyWhenUnread(run, s, i);
    ReadExactlyWhenHeard(run, s, i, announced);
    assert forall k :: i < k < |run| ==> (Succeeds(run[k]) <==> run[k].Read? || run[k].ReadBaseline?);
  }

  // ------------------------------------------------------ how soon it rests

  /** The steps of the two threads. */
  predicate Internal(a: Step) {
    a.SetFlag? || a.Notify? || a.Dispatch? || a.Read? || a.Compare?
  }

  function Work(s: State): nat {
    8 * s.due + 6 * s.flagging + 5 * s.wakeups +
    match s.reactor
    case Waiting => 0
    case Draining => 2
    case Comparing(_) => 1
  }

  lemma InternalUsesWork(s: State, a: Step)
    requires Can(s, a) && Internal(a)
    ensures Work(Do(s, a)) < Work(s)
  {
  }

  /** Left to themselves the two threads come to rest within a bounded number of steps. */
  lemma {:induction false} DrainsComeSoon(s: State, run: seq<Step>, t: State)
    requires Leads(s, run, t) && forall a | a in run :: Internal(a)
    ensures |run| + Work(t) <= Work(s)
    decreases run
  {
    if run != [] {
      InternalUsesWork(s, run[0]);
      DrainsComeSoon(Do(s, run[0]), run[1..], t);
    }
  }

  /** And they stop only at rest, as far as it depends on them. */
  lemma StopsOnlyAtRest(s: State)
    requires forall a | Internal(a) :: !Can(s, a)
    ensures s.due == 0 && s.flagging == 0 && s.wakeups == 0 && s.reactor.Waiting?
  {
    assert !Can(s, SetFlag) && !Can(s, Notify) && !Can(s, Dispatch) && !Can(s, Read(true)) && !Can(s, Compare);
  }

  // ------------------------------------------------------------- two misses

  lemma LeadsCons(s: State, a: Step, run: seq<Step>, t: State)
    requires Can(s, a) && Leads(Do(s, a), run, t)
    ensures Leads(s, [a] + run, t)
  {
    assert ([a] + run)[1..] == run;
  }

  /** A message stored and bumped between the baseline read and the watch is not delivered,
      and nothing is left to deliver it. */
  lemma MissedAtStartUp(m: Sms) returns (run: seq<Step>, s: State)
    requires Deliverable(m)
    ensures Leads(INITIAL, run, s)
    ensures AtRest(s) && Read(false) !in run && s.slot.m == m && s.deliveries == []
  {
    var s1 := Do(INITIAL, ReadBaseline(true));
    var s2 := Do(s1, Write(m));
    var s3 := Do(s2, Bump);
    s := Do(s3, Watch);
    LeadsCons(s3, Watch, [], s);
    LeadsCons(s2, Bump, [Watch] + [], s);
    LeadsCons(s1, Write(m), [Bump] + ([Watch] + []), s);
    LeadsCons(INITIAL, ReadBaseline(true), [Write(m)] + ([Bump] + ([Watch] + [])), s);
    run := [ReadBaseline(true)] + ([Write(m)] + ([Bump] + ([Watch] + [])));
  }

  function TwoCallbacks(): seq<Step> {
    [SetFlag] + ([SetFlag] + ([Notify] + ([Notify] + OneDrain())))
  }

  function OneDrain(): seq<Step> {
    [Dispatch] + ([Read(true)] + ([Compare] + ([Dispatch] + [])))
  }

  lemma Drains(s: State) returns (t: State)
    requires s.stage.Watching? && s.dirty && s.due == 0 && s.flagging == 0 && s.wakeups == 2 && s.reactor.Waiting?
    ensures Leads(s, OneDrain(), t) && AtRest(t)
    ensures t.deliveries == if Deliverable(s.slot.m) && s.slot.m != s.seen then s.deliveries + [s.slot] else s.deliveries
  {
    var s1 := Do(s, Dispatch);
    var s2 := Do(s1, Read(true));
    var s3 := Do(s2, Compare);
    t := Do(s3, Dispatch);
    LeadsCons(s3, Dispatch, [], t);
    LeadsCons(s2, Compare, [Dispatch] + [], t);
    LeadsCons(s1, Read(true), [Compare] + ([Dispatch] + []), t);
    LeadsCons(s, Dispatch, [Read(true)] + ([Compare] + ([Dispatch] + [])), t);
  }

  /** From a state that waits on two bumps, the drain after both callbacks reads the slot and
      the second notification finds nothing to do. */
  lemma TwoCallbacksOneDrain(s: State) returns (t: State)
    requires s.stage.Watching? && s.due == 2 && s.flagging == 0 && s.wakeups == 0 && s.reactor.Waiting?
    ensures Leads(s, TwoCallbacks(), t) && AtRest(t)
    ensures t.deliveries == if Deliverable(s.slot.m) && s.slot.m != s.seen then s.deliveries + [s.slot] else s.deliveries
  {
    var s1 := Do(s, SetFlag);
    var s2 := Do(s1, SetFlag);
    var s3 := Do(s2, Notify);
    var s4 := Do(s3, Notify);
    t := Drains(s4);
    LeadsCons(s3, Notify, OneDrain(), t);
    LeadsCons(s2, Notify, [Notify] + OneDrain(), t);
    LeadsCons(s1, SetFlag, [Notify] + ([Notify] + OneDrain()), t);
    LeadsCons(s, SetFlag, [SetFlag] + ([Notify] + ([Notify] + OneDrain())), t);
  }

  function StoreTwice(m1: Sms, m2: Sms, rest: seq<Step>): seq<Step> {
    [Write(m1)] + ([Bump] + ([Write(m2)] + ([Bump] + rest)))
  }

  /** Two messages stored and announced before anything else happens. */
  lemma TwoStored(s: State, m1: Sms, m2: Sms, rest: seq<Step>, t: State)
    requires s.stage.Watching?
    requires Leads(s.(slot := Stored(m2, s.slot.nth + 2), due := s.due + 2), rest, t)
    ensures Leads(s, StoreTwice(m1, m2, rest), t)
  {
    var s1 := Do(s, Write(m1));
    var s2 := Do(s1, Bump);
    var s3 := Do(s2, Write(m2));
    LeadsCons(s3, Bump, rest, t);
    LeadsCons(s2, Write(m2), [Bump] + rest, t);
    LeadsCons(s1, Bump, [Write(m2)] + ([Bump] + rest), t);
    LeadsCons(s, Write(m1), [Bump] + ([Write(m2)] + ([Bump] + rest)), t);
  }

  function Start(rest: seq<Step>): seq<Step> {
    [ReadBaseline(true)] + ([Watch] + rest)
  }

  /** start(), undisturbed. */
  lemma Started(rest: seq<Step>, t: State)
    requires Leads(INITIAL.(stage := Watching), rest, t)
    ensures Leads(INITIAL, Start(rest), t)
  {
    LeadsCons(Do(INITIAL, ReadBaseline(true)), Watch, rest, t);
    LeadsCons(INITIAL, ReadBaseline(true), [Watch] + rest, t);
  }

  function Overwritten(m2: Sms): State {
    INITIAL.(stage := Watching, slot := Stored(m2, 2), due := 2)
  }

  lemma OverwrittenFromStart(m1: Sms, m2: Sms, rest: seq<Step>, t: State)
    requires Leads(Overwritten(m2), rest, t)
    ensures Leads(INITIAL, Start(StoreTwice(m1, m2, rest)), t)
  {
    TwoStored(INITIAL.(stage := Watching), m1, m2, rest, t);
    Started(StoreTwice(m1, m2, rest), t);
  }

  /** There is one slot: a message stored and announced while watched is lost if another one,
      complete or not, is stored before the drain reads. */
  lemma MissedByOverwriting(m1: Sms, m2: Sms) returns (s: State)
    requires Deliverable(m1) && m1 != m2
    ensures Leads(INITIAL, Start(StoreTwice(m1, m2, TwoCallbacks())), s)
    ensures AtRest(s) && s.deliveries == if Deliverable(m2) then [Stored(m2, 2)] else []
  {
    s := TwoCallbacksOneDrain(Overwritten(m2));
    OverwrittenFromStart(m1, m2, TwoCallbacks(), s);
  }

  // ------------------------------------------------------- one repetition

  lemma {:induction false} LeadsJoin(r: State, before: seq<Step>, s: State, after: seq<Step>, t: State)
    requires Leads(r, before, s) && Leads(s, after, t)
    ensures Leads(r, before + after, t)
    decreases before
  {
    if before == [] {
      assert before + after == after;
    } else {
      LeadsJoin(Do(r, before[0]), before[1..], s, after, t);
      assert (before + after)[1..] == before[1..] + after;
    }
  }

  /** A message stored and announced, and drained before the next one comes. */
  function Cycle(m: Sms): seq<Step> {
    [Write(m)] + ([Bump] + ([SetFlag] + ([Notify] + ([Dispatch] + ([Read(true)] + ([Compare] + []))))))
  }

  lemma CycleDelivers(s: State, m: Sms) returns (t: State)
    requires AtRest(s) && !s.dirty && Deliverable(m) && m != s.seen
    ensures Leads(s, Cycle(m), t)
    ensures t == s.(slot := Stored(m, s.slot.nth + 1), seen := m, deliveries := s.deliveries + [Stored(m, s.slot.nth + 1)])
  {
    var s1 := Do(s, Write(m));
    var s2 := Do(s1, Bump);
    var s3 := Do(s2, SetFlag);
    var s4 := Do(s3, Notify);
    var s5 := Do(s4, Dispatch);
    var s6 := Do(s5, Read(true));
    t := Do(s6, Compare);
    LeadsCons(s6, Compare, [], t);
    LeadsCons(s5, Read(true), [Compare] + [], t);
    LeadsCons(s4, Dispatch, [Read(true)] + ([Compare] + []), t);
    LeadsCons(s3, Notify, [Dispatch] + ([Read(true)] + ([Compare] + [])), t);
    LeadsCons(s2, SetFlag, [Notify] + ([Dispatch] + ([Read(true)] + ([Compare] + []))), t);
    LeadsCons(s1, Bump, [SetFlag] + ([Notify] + ([Dispatch] + ([Read(true)] + ([Compare] + [])))), t);
    LeadsCons(s, Write(m), [Bump] + ([SetFlag] + ([Notify] + ([Dispatch] + ([Read(true)] + ([Compare] + []))))), t);
  }

  /** Only the last message is remembered: the same triple is delivered again once another one
      has been delivered in between. */
  lemma DeliveredAgain(m1: Sms, m2: Sms) returns (s: State)
    requires Deliverable(m1) && Deliverable(m2) && m1 != m2
    ensures Leads(INITIAL, Start(Cycle(m1) + (Cycle(m2) + Cycle(m1))), s)
    ensures AtRest(s) && s.deliveries == [Stored(m1, 1), Stored(m2, 2), Stored(m1, 3)]
  {
    var s0 := INITIAL.(stage := Watching);
    var s1 := CycleDelivers(s0, m1);
    var s2 := CycleDelivers(s1, m2);
    s := CycleDelivers(s2, m1);
    LeadsJoin(s1, Cycle(m2), s2, Cycle(m1), s);
    LeadsJoin(s0, Cycle(m1), s1, Cycle(m2) + Cycle(m1), s);
    Started(Cycle(m1) + (Cycle(m2) + Cycle(m1)), s);
  }
}
