/**
  Closing an evidence session beside its running character inspections (`evidence_tools.py`).
  An inspection checks the closed flag before it starts an operation and enters the operation
  into the pending set only afterwards; closing sets the flag, takes a snapshot of the set and
  interrupts what it holds. Neither holds a lock of the other.
 */
module SessionClose {

  datatype Pc = Idle | Checked | Started | Watching | Leaving | Discarding | Done

  /** One inspection and the operation it starts; `interrupted` covers its own revocation and a closer's. */
  datatype Inspection = Inspection(pc: Pc, started: bool, interrupted: bool, terminal: bool, seen: bool)
  {
    /** The operation was started and goes on: it is neither interrupted nor terminal. */
    predicate Active() { started && !interrupted && !terminal }
    /** Past the check of the closed flag and not yet in the pending set. */
    predicate Between() { pc.Checked? || pc.Started? }
    /** The same, with an operation that is still to start or has not ended by itself. */
    predicate Exposed() { pc.Checked? || (pc.Started? && !terminal) }
  }

  datatype CloserPc = Open | Closing | Sweeping | Dropping(i: nat) | Returned

  datatype Closer = Closer(pc: CloserPc, left: set<nat>)

  datatype State = State(closed: bool, pending: set<nat>, inspections: seq<Inspection>, closers: seq<Closer>)

  datatype Action = Check | Refuse | StartFails | Start | Publish | SeesTerminal | Leave | Revoke | SkipRevoke | Discard

  datatype Step =
    | Inspect(i: nat, action: Action)
    | OperationEnds(i: nat)
    | SetClosed(j: nat) | Snapshot(j: nat) | Interrupt(j: nat, i: nat) | Drop(j: nat) | Return(j: nat)

  predicate Ready(x: Inspection, a: Action, closed: bool) {
    match a
    case Check => x.pc.Idle? && !closed
    case Refuse => x.pc.Idle? && closed
    case StartFails => x.pc.Checked?
    case Start => x.pc.Checked?
    case Publish => x.pc.Started?
    case SeesTerminal => x.pc.Watching? && x.terminal
    case Leave => x.pc.Watching?
    case Revoke => x.pc.Leaving? && !x.seen
    case SkipRevoke => x.pc.Leaving? && x.seen
    case Discard => x.pc.Discarding?
  }

  function Perform(x: Inspection, a: Action): Inspection {
    match a
    case Check => x.(pc := Checked)
    case Refuse => x.(pc := Done)
    case StartFails => x.(pc := Done)
    case Start => x.(pc := Started, started := true)
    case Publish => x.(pc := Watching)
    case SeesTerminal => x.(pc := Leaving, seen := true)
    case Leave => x.(pc := Leaving)
    case Revoke => x.(pc := Discarding, interrupted := true)
    case SkipRevoke => x.(pc := Discarding)
    case Discard => x.(pc := Done)
  }

  predicate Enabled(s: State, step: Step) {
    match step
    case Inspect(i, a) => i < |s.inspections| && Ready(s.inspections[i], a, s.closed)
    case OperationEnds(i) => i < |s.inspections| && s.inspections[i].started
    case SetClosed(j) => j < |s.closers| && s.closers[j].pc.Open?
    case Snapshot(j) => j < |s.closers| && s.closers[j].pc.Closing?
    case Interrupt(j, i) => j < |s.closers| && s.closers[j].pc.Sweeping? && i in s.closers[j].left && i < |s.inspections|
    case Drop(j) => j < |s.closers| && s.closers[j].pc.Dropping?
    case Return(j) => j < |s.closers| && s.closers[j].pc.Sweeping? && s.closers[j].left == {}
  }

  function Put(s: State, i: nat, x: Inspection): State requires i < |s.inspections| {
    s.(inspections := s.inspections[i := x])
  }

  function Move(s: State, j: nat, c: Closer): State requires j < |s.closers| {
    s.(closers := s.closers[j := c])
  }

  function PendingAfter(pending: set<nat>, a: Action, i: nat): set<nat> {
    if a.Publish? then pending + {i} else if a.Discard? then pending - {i} else pending
  }

  function Apply(s: State, step: Step): State
    requires Enabled(s, step)
  {
    match step
    case Inspect(i, a) => Put(s, i, Perform(s.inspections[i], a)).(pending := PendingAfter(s.pending, a, i))
    case OperationEnds(i) => Put(s, i, s.inspections[i].(terminal := true))
    case SetClosed(j) => Move(s, j, s.closers[j].(pc := Closing)).(closed := true)
    case Snapshot(j) => Move(s, j, Closer(Sweeping, s.pending))
    case Interrupt(j, i) => Put(Move(s, j, s.closers[j].(pc := Dropping(i))), i, s.inspections[i].(interrupted := true))
    case Drop(j) =>
      var c := s.closers[j];
      Move(s, j, Closer(Sweeping, c.left - {c.pc.i})).(pending := s.pending - {c.pc.i})
    case Return(j) => Move(s, j, s.closers[j].(pc := Returned))
  }

  predicate Initial(s: State) {
    && !s.closed && s.pending == {}
    && (forall i | 0 <= i < |s.inspections| :: s.inspections[i] == Inspection(Idle, false, false, false, false))
    && (forall j | 0 <= j < |s.closers| :: s.closers[j] == Closer(Open, {}))
  }

  // ------------------------------------------------------------------ invariant

  predicate InspectionOk(x: Inspection, pending: bool) {
    && (x.pc.Idle? || x.pc.Checked? ==> !x.started)
    && (x.pc.Started? || x.pc.Watching? || x.pc.Leaving? || x.pc.Discarding? ==> x.started)
    && (x.pc.Idle? || x.Between() ==> !x.interrupted && !x.seen && !pending)
    && (x.pc.Watching? || x.pc.Leaving? || x.pc.Discarding? ==> pending || x.interrupted)
    && (x.pc.Discarding? || x.pc.Done? ==> !x.Active())
    && (x.seen ==> x.terminal) && (x.terminal ==> x.started)
    && (pending ==> x.started)
  }

  predicate CloserOk(c: Closer, s: State) {
    && (!c.pc.Open? ==> s.closed)
    && (forall i | i in c.left :: i < |s.inspections| && s.inspections[i].started && !s.inspections[i].pc.Started?)
    && (c.pc.Dropping? ==> c.pc.i in c.left && c.pc.i < |s.inspections| && s.inspections[c.pc.i].interrupted)
    && (c.pc.Returned? ==> c.left == {})
  }

  ghost predicate Inv(s: State) {
    && (forall i | i in s.pending :: i < |s.inspections|)
    && (forall i | 0 <= i < |s.inspections| :: InspectionOk(s.inspections[i], i in s.pending))
    && (forall j | 0 <= j < |s.closers| :: CloserOk(s.closers[j], s))
  }

  lemma StepOk(s: State, step: Step)
    requires Inv(s) && Enabled(s, step)
    ensures Inv(Apply(s, step))
  {
    var t := Apply(s, step);
    forall i | 0 <= i < |t.inspections| ensures InspectionOk(t.inspections[i], i in t.pending) {
      assert InspectionOk(s.inspections[i], i in s.pending);
      if step.Drop? {
        assert CloserOk(s.closers[step.j], s);
      }
    }
    forall j | 0 <= j < |t.closers| ensures CloserOk(t.closers[j], t) {
      assert CloserOk(s.closers[j], s);
      if step.Inspect? {
        assert InspectionOk(s.inspections[step.i], step.i in s.pending);
      } else if step.Snapshot? {
        assert forall i | i in s.pending :: InspectionOk(s.inspections[i], true);
      }
    }
  }

  // ------------------------------------------------------------------ continuations

  predicate Runs(s: State, steps: seq<Step>)
    decreases |steps|
  {
    steps == [] || (Enabled(s, steps[0]) && Runs(Apply(s, steps[0]), steps[1..]))
  }

  function After(s: State, steps: seq<Step>): State
    requires Runs(s, steps)
    decreases |steps|
  {
    if steps == [] then s else After(Apply(s, steps[0]), steps[1..])
  }

  lemma {:induction false} RunsOk(s: State, steps: seq<Step>)
    requires Inv(s) && Runs(s, steps)
    ensures Inv(After(s, steps))
    decreases |steps|
  {
    if steps != [] {
      StepOk(s, steps[0]);
      RunsOk(Apply(s, steps[0]), steps[1..]);
    }
  }

  lemma {:induction false} RunsOn(s: State, steps: seq<Step>, more: seq<Step>)
    requires Runs(s, steps) && Runs(After(s, steps), more)
    ensures Runs(s, steps + more) && After(s, steps + more) == After(After(s, steps), more)
    decreases |steps|
  {
    if steps == [] {
      assert steps + more == more;
    } else {
      RunsOn(Apply(s, steps[0]), steps[1..], more);
      assert (steps + more)[1..] == steps[1..] + more;
    }
  }

  // ------------------------------------------------------------------ what closing leaves behind

  predicate NothingRuns(s: State) {
    forall i | 0 <= i < |s.inspections| :: !s.inspections[i].Active()
  }

  predicate NoneExposed(s: State) {
    forall i | 0 <= i < |s.inspections| :: !s.inspections[i].Exposed()
  }

  /** Once this call of `close` has returned, then and ever after, no operation is left running. */
  ghost predicate LeavesNothing(s: State, j: nat)
    requires j < |s.closers|
  {
    forall steps: seq<Step> | Runs(s, steps) && ReturnedIn(After(s, steps), j) :: NothingRuns(After(s, steps))
  }

  predicate ReturnedIn(s: State, j: nat) {
    j < |s.closers| && s.closers[j].pc.Returned?
  }

  /** All that runs is still to be swept, and nothing more can come. */
  ghost predicate Swept(s: State, j: nat) {
    && s.closed && j < |s.closers| && !s.closers[j].pc.Open? && !s.closers[j].pc.Closing? && NoneExposed(s)
    && (forall i | 0 <= i < |s.inspections| && s.inspections[i].Active() :: i in s.closers[j].left)
  }

  lemma SweptStep(s: State, j: nat, step: Step)
    requires Inv(s) && Swept(s, j) && Enabled(s, step)
    ensures Swept(Apply(s, step), j)
  {
    var t := Apply(s, step);
    forall i | 0 <= i < |t.inspections| ensures !t.inspections[i].Exposed() && (t.inspections[i].Active() ==> i in t.closers[j].left) {
      assert !s.inspections[i].Exposed() && InspectionOk(s.inspections[i], i in s.pending);
      if step.Drop? {
        assert CloserOk(s.closers[step.j], s);
      }
    }
  }

  lemma {:induction false} SweptRuns(s: State, j: nat, steps: seq<Step>)
    requires Inv(s) && Swept(s, j) && Runs(s, steps)
    ensures Swept(After(s, steps), j)
    decreases |steps|
  {
    if steps != [] {
      StepOk(s, steps[0]);
      SweptStep(s, j, steps[0]);
      SweptRuns(Apply(s, steps[0]), j, steps[1..]);
    }
  }

  /** Whatever else is pending, the closer can finish its sweep; an operation outside it stays as it is. */
  lemma {:induction false} CanSweep(s: State, j: nat, k: nat) returns (steps: seq<Step>)
    requires Inv(s) && j < |s.closers| && s.closers[j].pc.Sweeping? && k < |s.inspections| && k !in s.closers[j].left
    ensures Runs(s, steps) && ReturnedIn(After(s, steps), j)
    ensures k < |After(s, steps).inspections| && After(s, steps).inspections[k] == s.inspections[k]
    decreases |s.closers[j].left|
  {
    var left := s.closers[j].left;
    if left == {} {
      steps := [Return(j)];
      assert steps[1..] == [];
    } else {
      var i :| i in left;
      assert CloserOk(s.closers[j], s);
      var t := Apply(s, Interrupt(j, i));
      var u := Apply(t, Drop(j));
      StepOk(s, Interrupt(j, i));
      StepOk(t, Drop(j));
      var more := CanSweep(u, j, k);
      steps := [Interrupt(j, i), Drop(j)] + more;
      assert steps[1..] == [Drop(j)] + more && ([Drop(j)] + more)[1..] == more;
    }
  }

  /**
    An inspection between its check and the pending set when the snapshot is taken, whose operation
    has not ended, can leave that very operation running.
   */
  lemma CanBeLeft(s: State, j: nat, k: nat) returns (steps: seq<Step>)
    requires Inv(s) && j < |s.closers| && s.closers[j].pc.Closing? && k < |s.inspections| && s.inspections[k].Exposed()
    ensures var t := Apply(s, Snapshot(j));
      && Runs(t, steps) && ReturnedIn(After(t, steps), j)
      && k < |After(t, steps).inspections| && After(t, steps).inspections[k].Active()
  {
    var t := Apply(s, Snapshot(j));
    StepOk(s, Snapshot(j));
    assert InspectionOk(s.inspections[k], k in s.pending);
    steps := CanSweep(t, j, k);
    var u := After(t, steps);
    if s.inspections[k].pc.Checked? {
      var start := [Inspect(k, Start)];
      assert start[1..] == [];
      RunsOn(t, steps, start);
      steps := steps + start;
    }
    assert After(t, steps).inspections[k].Active();
  }

  /**
    After any run, a call of `close` leaves nothing running, in every continuation, if and only if
    no inspection, when the snapshot is taken, is between its check of the closed flag and the
    pending set with an operation still to start or not ended by itself.
   */
  lemma LeavesNothingIff(start: State, run: seq<Step>, j: nat)
    requires Initial(start) && Runs(start, run)
    requires var s := After(start, run); j < |s.closers| && s.closers[j].pc.Closing?
    ensures var s := After(start, run); LeavesNothing(Apply(s, Snapshot(j)), j) <==> NoneExposed(s)
  {
    RunsOk(start, run);
    var s := After(start, run);
    var t := Apply(s, Snapshot(j));
    assert CloserOk(s.closers[j], s);
    if NoneExposed(s) {
      StepOk(s, Snapshot(j));
      forall i | 0 <= i < |t.inspections| && t.inspections[i].Active() ensures i in t.closers[j].left {
        assert InspectionOk(s.inspections[i], i in s.pending);
      }
      forall steps: seq<Step> | Runs(t, steps) && ReturnedIn(After(t, steps), j) ensures NothingRuns(After(t, steps)) {
        SweptRuns(t, j, steps);
        RunsOk(t, steps);
        assert CloserOk(After(t, steps).closers[j], After(t, steps));
      }
    } else {
      var k :| 0 <= k < |s.inspections| && s.inspections[k].Exposed();
      var steps := CanBeLeft(s, j, k);
    }
  }

  /** An operation left running is still owned: once its inspection has finished it runs no more. */
  lemma FinishedIsSettled(s: State, steps: seq<Step>, i: nat)
    requires Initial(s) && Runs(s, steps) && i < |After(s, steps).inspections| && After(s, steps).inspections[i].pc.Done?
    ensures !After(s, steps).inspections[i].Active()
  {
    RunsOk(s, steps);
    assert InspectionOk(After(s, steps).inspections[i], i in After(s, steps).pending);
  }

  // ------------------------------------------------------------------ how an inspection ends

  /** An inspection that saw its operation terminal leaves without interrupting it. */
  lemma SeenIsNotRevoked(x: Inspection, closed: bool)
    requires x.pc.Watching? && x.terminal
    ensures Ready(x, SeesTerminal, closed)
    ensures var seen := Perform(x, SeesTerminal);
      && Ready(seen, SkipRevoke, closed) && !Ready(seen, Revoke, closed) && Ready(Perform(seen, SkipRevoke), Discard, closed)
      && Perform(Perform(seen, SkipRevoke), Discard) == Inspection(Done, x.started, x.interrupted, true, true)
  {
  }

  /** One that leaves without having seen that interrupts the operation. */
  lemma UnseenIsRevoked(x: Inspection, closed: bool)
    requires x.pc.Watching? && !x.seen
    ensures Ready(x, Leave, closed)
    ensures var left := Perform(x, Leave);
      && Ready(left, Revoke, closed) && !Ready(left, SkipRevoke, closed) && Ready(Perform(left, Revoke), Discard, closed)
      && Perform(Perform(left, Revoke), Discard) == Inspection(Done, x.started, true, x.terminal, false)
  {
  }
}
