/**
  Cancellation of one question under every interleaving of the threads that touch its
  control: callers of `QuestionControl.cancel`, and character inspections (`_recon`) that
  register an exact-owner revocation, start one operation and remove the revocation again.
  Locks are the cancel lock of the control and one admission lock per inspection.
 */
module CancelProtocol {
  import opened Prelude

  datatype Thread = Inspector(i: nat) | Canceller(j: nat)

  /** The registered callback of one inspection. */
  datatype Callback = Fresh | Registered | Taken | Ran | Removed

  datatype InspectorPc =
    | Idle            // wants the cancel lock to register
    | Registering     // holds the cancel lock
    | LateRunning     // holds both locks: registration found the question cancelled
    | WantsAdmission
    | Inside          // holds the admission lock, before the cancellation test
    | Admitted        // holds it, the test has passed
    | Started         // holds it, the operation runs but its id is not published
    | Published       // holds it
    | Watching
    | Leaving         // before the test in the outer `finally`
    | WantsRevoke
    | Revoking        // holds the admission lock
    | WantsRemove     // wants the cancel lock
    | Removing        // holds the cancel lock
    | Done

  datatype Inspection = Inspection(
    pc: InspectorPc, callback: Callback, runs: nat, admission: Option<Thread>,
    started: bool, published: bool, revoked: bool, interrupts: nat, terminal: bool, seen: bool)
  {
    predicate Live() { started && !revoked && !seen }
    predicate Exposed() { pc.Admitted? || pc.Started? || Live() }
    predicate HoldsAdmission() {
      pc.LateRunning? || pc.Inside? || pc.Admitted? || pc.Started? || pc.Published? || pc.Revoking?
    }
    predicate HoldsCancelLock() { pc.Registering? || pc.LateRunning? || pc.Removing? }
    predicate WaitsForCancelLock() { pc.Idle? || pc.WantsRemove? }

    /** `revoke`, run by whoever holds the admission lock. */
    function Revoke(): Inspection {
      if published && !revoked then this.(revoked := true, interrupts := interrupts + 1) else this
    }
  }

  datatype CancellerPc = CIdle | Locked | Reasoned | Running | InCallback(i: nat) | Returned

  datatype Cancel = Cancel(pc: CancellerPc, why: string) {
    predicate HoldsCancelLock() { pc.Locked? || pc.Reasoned? || pc.Running? || pc.InCallback? }
    predicate InsideLoop() { pc.Running? || pc.InCallback? }
  }

  datatype State = State(
    cancelled: bool, changed: bool, reason: Option<string>, lock: Option<Thread>,
    inspections: seq<Inspection>, cancels: seq<Cancel>)

  datatype Action =
    | LockToRegister | Register | LateEnter | LateRun
    | Enter | SeesCancelled | DeadlinePassed | Passes | StartFails | Start | Publish | Exit
    | SeesTerminal | Leave | NeedsRevoke | SkipsRevoke | EnterRevoke | Revoke
    | LockToRemove | Remove

  datatype Step =
    | Inspect(i: nat, action: Action)
    | Lock(j: nat) | AlreadyCancelled(j: nat) | SetReason(j: nat) | SetCancelled(j: nat)
    | TakeCallback(j: nat, i: nat) | RunCallback(j: nat) | Close(j: nat)
    | OperationEnds(i: nat)

  predicate Ready(x: Inspection, a: Action, cancelled: bool, unlocked: bool) {
    match a
    case LockToRegister => x.pc.Idle? && unlocked
    case Register => x.pc.Registering? && !cancelled
    case LateEnter => x.pc.Registering? && cancelled && x.admission.None?
    case LateRun => x.pc.LateRunning?
    case Enter => x.pc.WantsAdmission? && x.admission.None?
    case SeesCancelled => x.pc.Inside? && cancelled
    case DeadlinePassed => x.pc.Inside?
    case Passes => x.pc.Inside? && !cancelled
    case StartFails => x.pc.Admitted?
    case Start => x.pc.Admitted?
    case Publish => x.pc.Started?
    case Exit => x.pc.Published?
    case SeesTerminal => x.pc.Watching? && x.terminal
    case Leave => x.pc.Watching?
    case NeedsRevoke => x.pc.Leaving? && x.published && !x.seen
    case SkipsRevoke => x.pc.Leaving? && !(x.published && !x.seen)
    case EnterRevoke => x.pc.WantsRevoke? && x.admission.None?
    case Revoke => x.pc.Revoking?
    case LockToRemove => x.pc.WantsRemove? && unlocked
    case Remove => x.pc.Removing?
  }

  function Perform(x: Inspection, a: Action, i: nat): Inspection {
    match a
    case LockToRegister => x.(pc := Registering)
    case Register => x.(pc := WantsAdmission, callback := Registered)
    case LateEnter => x.(pc := LateRunning, admission := Some(Inspector(i)))
    case LateRun => x.Revoke().(pc := WantsAdmission, callback := Ran, runs := x.runs + 1, admission := None)
    case Enter => x.(pc := Inside, admission := Some(Inspector(i)))
    case SeesCancelled => x.(pc := Leaving, admission := None)
    case DeadlinePassed => x.(pc := Leaving, admission := None)
    case Passes => x.(pc := Admitted)
    case StartFails => x.(pc := Leaving, admission := None)
    case Start => x.(pc := Started, started := true)
    case Publish => x.(pc := Published, published := true)
    case Exit => x.(pc := Watching, admission := None)
    case SeesTerminal => x.(seen := true)
    case Leave => x.(pc := Leaving)
    case NeedsRevoke => x.(pc := WantsRevoke)
    case SkipsRevoke => x.(pc := WantsRemove)
    case EnterRevoke => x.(pc := Revoking, admission := Some(Inspector(i)))
    case Revoke => x.Revoke().(pc := WantsRemove, admission := None)
    case LockToRemove => x.(pc := Removing)
    case Remove => x.(pc := Done, callback := if x.callback.Registered? then Removed else x.callback)
  }

  function LockAfter(lock: Option<Thread>, a: Action, i: nat): Option<Thread> {
    match a
    case LockToRegister | LockToRemove => Some(Inspector(i))
    case Register | LateRun | Remove => None
    case _ => lock
  }

  predicate Enabled(s: State, step: Step) {
    match step
    case Inspect(i, a) => i < |s.inspections| && Ready(s.inspections[i], a, s.cancelled, s.lock.None?)
    case Lock(j) => j < |s.cancels| && s.cancels[j].pc.CIdle? && s.lock.None?
    case AlreadyCancelled(j) => j < |s.cancels| && s.cancels[j].pc.Locked? && s.cancelled
    case SetReason(j) => j < |s.cancels| && s.cancels[j].pc.Locked? && !s.cancelled
    case SetCancelled(j) => j < |s.cancels| && s.cancels[j].pc.Reasoned?
    case TakeCallback(j, i) => j < |s.cancels| && s.cancels[j].pc.Running?
        && i < |s.inspections| && s.inspections[i].callback.Taken? && s.inspections[i].admission.None?
    case RunCallback(j) => j < |s.cancels| && s.cancels[j].pc.InCallback? && s.cancels[j].pc.i < |s.inspections|
    case Close(j) => j < |s.cancels| && s.cancels[j].pc.Running?
        && (forall i | 0 <= i < |s.inspections| :: !s.inspections[i].callback.Taken?)
    case OperationEnds(i) => i < |s.inspections| && s.inspections[i].started
  }

  function Move(s: State, j: nat, pc: CancellerPc): State requires j < |s.cancels| {
    s.(cancels := s.cancels[j := s.cancels[j].(pc := pc)])
  }

  function Put(s: State, i: nat, x: Inspection): State requires i < |s.inspections| {
    s.(inspections := s.inspections[i := x])
  }

  /** The snapshot and clearing of the registered callbacks. */
  function TakeAll(xs: seq<Inspection>): (r: seq<Inspection>)
    ensures |r| == |xs|
    ensures forall i | 0 <= i < |xs| ::
      r[i] == if xs[i].callback.Registered? then xs[i].(callback := Taken) else xs[i]
  {
    seq(|xs|, i requires 0 <= i < |xs| => if xs[i].callback.Registered? then xs[i].(callback := Taken) else xs[i])
  }

  function Apply(s: State, step: Step): State
    requires Enabled(s, step)
  {
    match step
    case Inspect(i, a) => Put(s, i, Perform(s.inspections[i], a, i)).(lock := LockAfter(s.lock, a, i))
    case Lock(j) => Move(s, j, Locked).(lock := Some(Canceller(j)))
    case AlreadyCancelled(j) => Move(s, j, Returned).(lock := None)
    case SetReason(j) => Move(s, j, Reasoned).(reason := Some(s.cancels[j].why))
    case SetCancelled(j) => Move(s, j, Running).(cancelled := true, inspections := TakeAll(s.inspections))
    case TakeCallback(j, i) => Put(Move(s, j, InCallback(i)), i, s.inspections[i].(admission := Some(Canceller(j))))
    case RunCallback(j) =>
      var x := s.inspections[s.cancels[j].pc.i];
      Put(Move(s, j, Running), s.cancels[j].pc.i, x.Revoke().(callback := Ran, runs := x.runs + 1, admission := None))
    case Close(j) => Move(s, j, Returned).(changed := true, lock := None)
    case OperationEnds(i) => Put(s, i, s.inspections[i].(terminal := true))
  }

  predicate Initial(s: State) {
    && !s.cancelled && !s.changed && s.reason.None? && s.lock.None?
    && (forall i | 0 <= i < |s.inspections| ::
          s.inspections[i] == Inspection(Idle, Fresh, 0, None, false, false, false, 0, false, false))
    && (forall j | 0 <= j < |s.cancels| :: s.cancels[j].pc.CIdle?)
  }

  // ------------------------------------------------------------------ invariant

  predicate InspectionOk(x: Inspection, i: nat, cancelled: bool, lock: Option<Thread>) {
    && (x.HoldsCancelLock() <==> lock == Some(Inspector(i)))
    && (x.HoldsAdmission() <==> x.admission == Some(Inspector(i)))
    && (x.admission.Some? && x.admission.value.Inspector? ==> x.admission.value.i == i)
    && (x.callback.Fresh? <==> x.pc.Idle? || x.pc.Registering? || x.pc.LateRunning?)
    && (x.callback.Registered? ==> !cancelled && !x.pc.Done?)
    && (x.callback.Taken? || x.callback.Ran? || x.pc.LateRunning? ==> cancelled)
    && (x.callback.Removed? ==> x.pc.Done?)
    && x.runs == (if x.callback.Ran? then 1 else 0)
    && x.interrupts == (if x.revoked then 1 else 0)
    && (x.revoked || x.seen ==> x.published)
    && (x.published ==> x.started)
    && (x.started && !x.published <==> x.pc.Started?)
    && (x.started ==> !x.callback.Fresh? && !x.pc.WantsAdmission? && !x.pc.Inside? && !x.pc.Admitted?)
    && (x.Exposed() ==> x.callback.Registered? || x.callback.Taken?)
    && (x.pc.WantsRemove? || x.pc.Removing? || x.pc.Done? ==> !x.Live())
    && (x.pc.Published? || x.pc.Watching? || x.pc.WantsRevoke? || x.pc.Revoking? ==> x.published)
    && (x.seen ==> x.terminal)
  }

  predicate CancelOk(k: Cancel, j: nat, s: State) {
    && (k.HoldsCancelLock() <==> s.lock == Some(Canceller(j)))
    && (k.pc.Reasoned? ==> !s.cancelled && s.reason == Some(k.why))
    && (k.InsideLoop() ==> s.cancelled && !s.changed)
    && (k.pc.Returned? ==> s.changed)
  }

  predicate LockOk(s: State) {
    match s.lock
    case None => true
    case Some(Inspector(i)) => i < |s.inspections|
    case Some(Canceller(j)) => j < |s.cancels|
  }

  /** The thread in the loop over the callbacks, if there is one, holds the cancel lock. */
  predicate Looping(s: State) {
    s.lock.Some? && s.lock.value.Canceller? && s.lock.value.j < |s.cancels| && s.cancels[s.lock.value.j].InsideLoop()
  }

  predicate Stating(s: State) {
    s.lock.Some? && s.lock.value.Canceller? && s.lock.value.j < |s.cancels| && s.cancels[s.lock.value.j].pc.Reasoned?
  }

  predicate GlobalOk(s: State) {
    && LockOk(s)
    && (s.changed ==> s.cancelled)
    && (s.cancelled && !s.changed ==> Looping(s))
    && (s.reason.Some? <==> s.cancelled || Stating(s))
  }

  ghost predicate Inv(s: State) {
    && GlobalOk(s)
    && (forall i | 0 <= i < |s.inspections| :: InspectionOk(s.inspections[i], i, s.cancelled, s.lock))
    && (forall j | 0 <= j < |s.cancels| :: CancelOk(s.cancels[j], j, s))
    && (s.changed ==> forall i | 0 <= i < |s.inspections| :: !s.inspections[i].callback.Taken?)
    && AdmissionsOk(s)
  }

  /** A canceller holds an admission lock exactly while it runs that inspection's callback. */
  ghost predicate AdmissionsOk(s: State) {
    && (forall i | 0 <= i < |s.inspections| && s.inspections[i].admission.Some? && s.inspections[i].admission.value.Canceller? ::
          var j := s.inspections[i].admission.value.j;
          j < |s.cancels| && s.cancels[j].pc == InCallback(i))
    && (forall j | 0 <= j < |s.cancels| && s.cancels[j].pc.InCallback? ::
          var i := s.cancels[j].pc.i;
          i < |s.inspections| && s.inspections[i].admission == Some(Canceller(j)) && s.inspections[i].callback.Taken?)
  }

  lemma InitialOk(s: State)
    requires Initial(s)
    ensures Inv(s)
  {
  }

  lemma PerformOk(x: Inspection, a: Action, i: nat, cancelled: bool, lock: Option<Thread>)
    requires InspectionOk(x, i, cancelled, lock) && Ready(x, a, cancelled, lock.None?)
    ensures var y := Perform(x, a, i);
      && InspectionOk(y, i, cancelled, LockAfter(lock, a, i))
      && (y.callback.Taken? ==> x.callback.Taken?)
      && (x.callback.Taken? ==> y.callback.Taken?)
      && (y.admission == x.admission || y.admission == Some(Inspector(i))
          || (y.admission == None && x.admission == Some(Inspector(i))))
      && (y.admission != x.admission ==> x.admission == None || x.admission == Some(Inspector(i)))
      && (LockAfter(lock, a, i) == lock || lock == None || lock == Some(Inspector(i)))
      && (LockAfter(lock, a, i) != lock ==> LockAfter(lock, a, i) == None || LockAfter(lock, a, i) == Some(Inspector(i)))
  {
  }

  lemma InspectOk(s: State, i: nat, a: Action)
    requires Inv(s) && Enabled(s, Inspect(i, a))
    ensures Inv(Apply(s, Inspect(i, a)))
  {
    PerformOk(s.inspections[i], a, i, s.cancelled, s.lock);
    InspectFrame(s, i, Perform(s.inspections[i], a, i), LockAfter(s.lock, a, i));
  }

  lemma InspectFrame(s: State, i: nat, y: Inspection, lock: Option<Thread>)
    requires Inv(s) && i < |s.inspections|
    requires var x := s.inspections[i];
      && InspectionOk(y, i, s.cancelled, lock)
      && y.callback.Taken? == x.callback.Taken?
      && (y.admission != x.admission ==>
            (x.admission == None || x.admission == Some(Inspector(i))) && (y.admission == None || y.admission == Some(Inspector(i))))
      && (lock != s.lock ==>
            (s.lock == None || s.lock == Some(Inspector(i))) && (lock == None || lock == Some(Inspector(i))))
    ensures Inv(Put(s, i, y).(lock := lock))
  {
    var t := Put(s, i, y).(lock := lock);
    forall p | 0 <= p < |t.inspections|
      ensures InspectionOk(t.inspections[p], p, t.cancelled, t.lock)
    {
      assert InspectionOk(s.inspections[p], p, s.cancelled, s.lock);
    }
    forall j | 0 <= j < |t.cancels|
      ensures CancelOk(t.cancels[j], j, t)
    {
      assert CancelOk(s.cancels[j], j, s);
    }
  }

  lemma TakeOk(s: State, j: nat, i: nat)
    requires Inv(s) && Enabled(s, TakeCallback(j, i))
    ensures Inv(Apply(s, TakeCallback(j, i)))
  {
    var t := Apply(s, TakeCallback(j, i));
    InspectionsKept(s, t);
    forall c | 0 <= c < |t.cancels| ensures CancelOk(t.cancels[c], c, t) {
      assert CancelOk(s.cancels[c], c, s);
    }
  }

  /** Inspections that keep everything but an admission lock taken or freed by a canceller stay good. */
  lemma InspectionsKept(s: State, t: State)
    requires Inv(s) && |t.inspections| == |s.inspections| && t.cancelled == s.cancelled
    requires forall i | 0 <= i < |s.inspections| ::
      var x, y := s.inspections[i], t.inspections[i];
      y == x.(admission := y.admission)
      && (y.admission != x.admission ==> !x.HoldsAdmission() && (y.admission == None || y.admission.value.Canceller?))
    requires t.lock == s.lock || ((s.lock == None || s.lock.value.Canceller?) && (t.lock == None || t.lock.value.Canceller?))
    ensures forall i | 0 <= i < |t.inspections| :: InspectionOk(t.inspections[i], i, t.cancelled, t.lock)
  {
    forall i | 0 <= i < |t.inspections|
      ensures InspectionOk(t.inspections[i], i, t.cancelled, t.lock)
    {
      assert InspectionOk(s.inspections[i], i, s.cancelled, s.lock);
    }
  }

  /** The callback revokes whatever its inspection has published, so nothing stays exposed. */
  lemma RanOk(x: Inspection, i: nat, lock: Option<Thread>, j: nat)
    requires InspectionOk(x, i, true, lock) && x.callback.Taken? && x.admission == Some(Canceller(j))
    ensures InspectionOk(x.Revoke().(callback := Ran, runs := x.runs + 1, admission := None), i, true, lock)
  {
  }

  lemma RunOk(s: State, j: nat)
    requires Inv(s) && Enabled(s, RunCallback(j))
    ensures Inv(Apply(s, RunCallback(j)))
  {
    var t := Apply(s, RunCallback(j));
    var i := s.cancels[j].pc.i;
    assert CancelOk(s.cancels[j], j, s);
    RanOk(s.inspections[i], i, s.lock, j);
    forall p | 0 <= p < |t.inspections|
      ensures InspectionOk(t.inspections[p], p, t.cancelled, t.lock)
    {
      assert InspectionOk(s.inspections[p], p, s.cancelled, s.lock);
    }
    forall c | 0 <= c < |t.cancels| ensures CancelOk(t.cancels[c], c, t) {
      assert CancelOk(s.cancels[c], c, s);
    }
  }

  lemma SetCancelledOk(s: State, j: nat)
    requires Inv(s) && Enabled(s, SetCancelled(j))
    ensures Inv(Apply(s, SetCancelled(j)))
  {
    var t := Apply(s, SetCancelled(j));
    assert CancelOk(s.cancels[j], j, s);
    forall i | 0 <= i < |t.inspections|
      ensures InspectionOk(t.inspections[i], i, t.cancelled, t.lock)
    {
      assert InspectionOk(s.inspections[i], i, s.cancelled, s.lock);
    }
    forall c | 0 <= c < |t.cancels| ensures CancelOk(t.cancels[c], c, t) {
      assert CancelOk(s.cancels[c], c, s);
    }
  }

  predicate IsMove(step: Step) {
    step.Lock? || step.AlreadyCancelled? || step.SetReason? || step.Close?
  }

  lemma MoveOk(s: State, step: Step)
    requires Inv(s) && Enabled(s, step) && IsMove(step)
    ensures Inv(Apply(s, step))
  {
    var t := Apply(s, step);
    assert CancelOk(s.cancels[step.j], step.j, s);
    InspectionsKept(s, t);
    forall c | 0 <= c < |t.cancels| ensures CancelOk(t.cancels[c], c, t) {
      assert CancelOk(s.cancels[c], c, s);
    }
  }

  lemma StepOk(s: State, step: Step)
    requires Inv(s) && Enabled(s, step)
    ensures Inv(Apply(s, step))
  {
    match step
    case Inspect(i, a) => InspectOk(s, i, a);
    case TakeCallback(j, i) => TakeOk(s, j, i);
    case RunCallback(j) => RunOk(s, j);
    case SetCancelled(j) => SetCancelledOk(s, j);
    case OperationEnds(i) =>
      assert InspectionOk(s.inspections[i], i, s.cancelled, s.lock);
      InspectFrame(s, i, s.inspections[i].(terminal := true), s.lock);
    case _ => MoveOk(s, step);
  }

  // ------------------------------------------------------------------ runs

  ghost predicate IsRun(run: seq<State>, steps: seq<Step>) {
    && |run| == |steps| + 1
    && Initial(run[0])
    && (forall n | 0 <= n < |steps| :: Enabled(run[n], steps[n]) && run[n + 1] == Apply(run[n], steps[n]))
  }

  lemma {:induction false} RunInv(run: seq<State>, steps: seq<Step>, n: nat)
    requires IsRun(run, steps) && n < |run|
    ensures Inv(run[n])
  {
    if n == 0 {
      InitialOk(run[0]);
    } else {
      RunInv(run, steps, n - 1);
      StepOk(run[n - 1], steps[n - 1]);
    }
  }

  lemma ChangedStays(s: State, step: Step)
    requires Enabled(s, step) && s.changed
    ensures Apply(s, step).changed
  {
  }

  lemma {:induction false} ChangedForever(run: seq<State>, steps: seq<Step>, m: nat, n: nat)
    requires IsRun(run, steps) && m <= n < |run| && run[m].changed
    ensures run[n].changed
  {
    if m < n {
      ChangedForever(run, steps, m, n - 1);
      ChangedStays(run[n - 1], steps[n - 1]);
    }
  }

  /**
    Once any `cancel` has returned, in that state and in every later one: every operation an
    inspection started is interrupted exactly once or was seen terminal by its owner, no thread
    is between the admission test and the start, and no step starts another operation.
   */
  lemma NothingRunsAfterCancel(run: seq<State>, steps: seq<Step>, m: nat, n: nat, j: nat, i: nat)
    requires IsRun(run, steps) && m <= n < |run|
    requires j < |run[m].cancels| && run[m].cancels[j].pc.Returned?
    requires i < |run[n].inspections|
    ensures var x := run[n].inspections[i];
      && !x.pc.Admitted? && !x.pc.Started?
      && (x.started ==> x.published && ((x.revoked && x.interrupts == 1) || (x.seen && x.terminal)))
    ensures n < |steps| ==> steps[n] != Inspect(i, Start)
  {
    RunInv(run, steps, m);
    assert CancelOk(run[m].cancels[j], j, run[m]);
    ChangedForever(run, steps, m, n);
    RunInv(run, steps, n);
    assert InspectionOk(run[n].inspections[i], i, run[n].cancelled, run[n].lock);
  }

  /** Each callback runs at most once; after a returned `cancel`, exactly once unless it was removed before. */
  lemma CallbacksRunOnce(run: seq<State>, steps: seq<Step>, n: nat, i: nat)
    requires IsRun(run, steps) && n < |run| && i < |run[n].inspections|
    ensures var x := run[n].inspections[i];
      && x.runs <= 1
      && (run[n].changed && !x.callback.Fresh? && !x.callback.Removed? ==> x.runs == 1)
      && (x.callback.Removed? || x.callback.Fresh? ==> x.runs == 0)
  {
    RunInv(run, steps, n);
    assert InspectionOk(run[n].inspections[i], i, run[n].cancelled, run[n].lock);
  }

  /** The reason is the one given by the first canceller, and never changes again. */
  lemma ReasonStays(run: seq<State>, steps: seq<Step>, n: nat)
    requires IsRun(run, steps) && n < |steps| && run[n].reason.Some?
    ensures run[n + 1].reason == run[n].reason
  {
    RunInv(run, steps, n);
    var s := run[n];
    assert forall j | 0 <= j < |s.cancels| :: CancelOk(s.cancels[j], j, s);
  }

  /** Lock order: nobody waits for the cancel lock while holding an admission lock. */
  lemma LockOrder(run: seq<State>, steps: seq<Step>, n: nat, i: nat, thread: Thread)
    requires IsRun(run, steps) && n < |run| && i < |run[n].inspections|
    requires run[n].inspections[i].admission == Some(thread)
    ensures thread.Inspector? ==> thread.i == i && !run[n].inspections[i].WaitsForCancelLock()
    ensures thread.Canceller? ==>
      thread.j < |run[n].cancels| && !run[n].cancels[thread.j].pc.CIdle? && run[n].lock == Some(thread)
  {
    RunInv(run, steps, n);
    var s := run[n];
    assert InspectionOk(s.inspections[i], i, s.cancelled, s.lock);
    if thread.Canceller? {
      assert CancelOk(s.cancels[thread.j], thread.j, s);
    }
  }

  predicate AllDone(s: State) {
    && (forall i | 0 <= i < |s.inspections| :: s.inspections[i].pc.Done?)
    && (forall j | 0 <= j < |s.cancels| :: s.cancels[j].pc.Returned?)
  }

  /** The step an inspection takes when nobody else is in its way. */
  function NextAction(x: Inspection, cancelled: bool): Action {
    match x.pc
    case Idle => LockToRegister
    case Registering => if cancelled then LateEnter else Register
    case LateRunning => LateRun
    case WantsAdmission => Enter
    case Inside => if cancelled then SeesCancelled else Passes
    case Admitted => Start
    case Started => Publish
    case Published => Exit
    case Watching => Leave
    case Leaving => if x.published && !x.seen then NeedsRevoke else SkipsRevoke
    case WantsRevoke => EnterRevoke
    case Revoking => Action.Revoke
    case WantsRemove => LockToRemove
    case Removing => Remove
    case Done => Remove
  }

  /** No deadlock: in every reachable state some unfinished thread can take a step. */
  lemma NoDeadlock(run: seq<State>, steps: seq<Step>, n: nat)
    requires IsRun(run, steps) && n < |run| && !AllDone(run[n])
    ensures exists step :: Enabled(run[n], step) && !step.OperationEnds?
  {
    RunInv(run, steps, n);
    var s := run[n];
    match s.lock
    case None => UnlockedProgress(s);
    case Some(Inspector(i)) =>
      assert InspectionOk(s.inspections[i], i, s.cancelled, s.lock);
      InspectorProgress(s, i);
    case Some(Canceller(j)) => CancellerProgress(s, j);
  }

  lemma AdmissionByCanceller(s: State, i: nat)
    requires Inv(s) && i < |s.inspections|
    ensures s.inspections[i].admission.Some? && s.inspections[i].admission.value.Canceller? ==>
      && s.lock == s.inspections[i].admission
      && s.lock.value.j < |s.cancels| && s.cancels[s.lock.value.j].pc == InCallback(i)
  {
    assert forall j | 0 <= j < |s.cancels| :: CancelOk(s.cancels[j], j, s);
  }

  lemma InspectorProgress(s: State, i: nat)
    requires Inv(s) && i < |s.inspections| && !s.inspections[i].pc.Done?
    requires s.inspections[i].WaitsForCancelLock() ==> s.lock.None?
    requires s.lock.Some? && s.lock.value.Canceller? ==> s.inspections[i].HoldsAdmission()
    ensures exists step :: Enabled(s, step) && !step.OperationEnds?
  {
    var x := s.inspections[i];
    assert InspectionOk(x, i, s.cancelled, s.lock);
    AdmissionByCanceller(s, i);
    assert Enabled(s, Inspect(i, NextAction(x, s.cancelled)));
  }

  lemma UnlockedProgress(s: State)
    requires Inv(s) && s.lock.None? && !AllDone(s)
    ensures exists step :: Enabled(s, step) && !step.OperationEnds?
  {
    if i :| 0 <= i < |s.inspections| && !s.inspections[i].pc.Done? {
      InspectorProgress(s, i);
    } else {
      var j :| 0 <= j < |s.cancels| && !s.cancels[j].pc.Returned?;
      assert CancelOk(s.cancels[j], j, s);
      assert Enabled(s, Lock(j));
    }
  }

  lemma CancellerProgress(s: State, j: nat)
    requires Inv(s) && s.lock == Some(Canceller(j))
    ensures exists step :: Enabled(s, step) && !step.OperationEnds?
  {
    assert CancelOk(s.cancels[j], j, s);
    match s.cancels[j].pc
    case Locked => assert Enabled(s, if s.cancelled then AlreadyCancelled(j) else SetReason(j));
    case Reasoned => assert Enabled(s, SetCancelled(j));
    case InCallback(_) => assert Enabled(s, RunCallback(j));
    case Running =>
      if i :| 0 <= i < |s.inspections| && s.inspections[i].callback.Taken? {
        var x := s.inspections[i];
        assert InspectionOk(x, i, s.cancelled, s.lock);
        AdmissionByCanceller(s, i);
        if x.admission.None? {
          assert Enabled(s, TakeCallback(j, i));
        } else {
          InspectorProgress(s, i);
        }
      } else {
        assert Enabled(s, Close(j));
      }
  }
}
