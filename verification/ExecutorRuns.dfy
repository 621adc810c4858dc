/** What every interleaving of child messages, client replies, continuations and timers keeps. */
module ExecutorRuns {
  import opened Prelude
  import opened Executor

  datatype Event =
    | ReadyMessage(now: Time, timeout: Time) | LogMessage | CallMessage(now: Time, request: Option<Request>)
    | ResultMessage(json: bool, unawaited: bool) | ErrorMessage | ChildClosed | ChildBroke
    | ClientReply(id: nat, reply: Reply) | CallSettled(id: nat)
    | BootTimer | ExecutionTimer

  predicate Enabled(x: Execution, e: Event) {
    match e
    case ReadyMessage(_, _) => true
    case LogMessage => true
    case CallMessage(_, _) => true
    case ResultMessage(_, _) => true
    case ErrorMessage => true
    case ChildClosed => true
    case ChildBroke => true
    case ClientReply(i, _) => i in x.live && x.live[i].Awaiting? && i < |x.steps| && x.steps[i].route.Some?
    case CallSettled(i) => i in x.live && x.live[i].Returned?
    case BootTimer => x.bootArmed
    case ExecutionTimer => x.deadline.Some?
  }

  function After(x: Execution, e: Event): Execution
    requires Enabled(x, e)
  {
    match e
    case ReadyMessage(now, timeout) => OnReady(x, now, timeout)
    case LogMessage => OnLog(x)
    case CallMessage(now, request) => OnLabCall(x, now, request)
    case ResultMessage(json, unawaited) => OnResult(x, json, unawaited)
    case ErrorMessage => OnError(x)
    case ChildClosed => OnClose(x)
    case ChildBroke => Fail(x, ChildFailed)
    case ClientReply(i, reply) => Continue(x, i, reply)
    case CallSettled(i) => Settle(x, i)
    case BootTimer => Done(x, Outcome(false, Boot))
    case ExecutionTimer => Done(x, Outcome(false, Deadline))
  }

  function Mutations(sent: seq<Route>): nat {
    if sent == [] then 0 else Mutations(sent[..|sent| - 1]) + (if sent[|sent| - 1].Mutates() then 1 else 0)
  }

  function Performs(sent: seq<Route>): nat {
    if sent == [] then 0 else Performs(sent[..|sent| - 1]) + (if sent[|sent| - 1].Perform? then 1 else 0)
  }

  lemma SentMore(sent: seq<Route>, route: Route)
    ensures Mutations(sent + [route]) == Mutations(sent) + (if route.Mutates() then 1 else 0)
    ensures Performs(sent + [route]) == Performs(sent) + (if route.Perform? then 1 else 0)
  {
    assert (sent + [route])[..|sent|] == sent;
  }

  // ------------------------------------------------------------------ counters and resolution

  ghost predicate Counts(x: Execution) {
    && |x.resolved| <= 1
    && (x.resolved != [] ==> x.closed && !x.bootArmed)
    && (x.pending.Some? ==> x.closed)
    && x.inFlight == |x.live|
    && (x.deadline.None? ==> x.live == map[])
    && (x.bootArmed ==> x.deadline.None?)
    && (x.resolved != [] ==> x.resolved[0].inFlight == 0 || x.resolved[0].outcome.reason.Deadline?)
  }

  ghost predicate Budgets(x: Execution) {
    && (x.callCount <= MAX_CALLS || x.closed)
    && |x.sent| <= x.callCount && |x.sent| <= MAX_CALLS
    && Mutations(x.sent) <= x.performCalls && Mutations(x.sent) <= MAX_MUTATION_ATTEMPTS
  }

  /** What step `i` records, against the latch and the calls still awaiting a reply. */
  ghost predicate StepOk(x: Execution, i: nat)
    requires i < |x.steps|
  {
    var step := x.steps[i];
    var awaiting := i in x.live && x.live[i].Awaiting?;
    && (awaiting ==> step.route.Some? && step.error.None?)
    && (step.mutation <==> step.route.Some? && step.route.value.Mutates())
    && (!step.mutation ==> step.dispatch.NotSent?)
    && (step.mutation && step.dispatch.NotSent? ==> Truthy(step.error))
    && (step.mutation && step.dispatch.Unconfirmed? ==> (step.error.None? <==> awaiting))
    && (step.mutation && step.dispatch.Acknowledged? ==> step.error.None? && !awaiting)
    && (step.mutation && step.error.Some? ==> x.mutationFailure.Some?)
    && (step.mutation && step.route.value.Perform? && step.status.Some? && step.status.value.Bad() ==> x.mutationFailure.Some?)
    && (awaiting ==> step.status.None? && (step.route.value.Perform? ==> step.operation.None?))
  }

  ghost predicate Steps(x: Execution) {
    && (forall i | i in x.live :: i < |x.steps|)
    && (forall i | 0 <= i < |x.steps| :: StepOk(x, i))
  }

  /** An empty failure message can only be that of a forwarded mutation the client rejected with it. */
  ghost predicate Latched(x: Execution) {
    x.mutationFailure == Some("") ==> exists i :: 0 <= i < |x.steps| && Unsettled(x.steps[i]) && x.steps[i].error.Some?
  }

  /** A successful result waits only while no mutation is unsettled. */
  ghost predicate Clean(x: Execution) {
    x.pending.Some? && x.pending.value.success ==> forall i | 0 <= i < |x.steps| :: !Unsettled(x.steps[i])
  }

  /** What reported success means. */
  ghost predicate Strong(x: Execution) {
    && x.live == map[] && x.mutationFailure.None?
    && (forall i | 0 <= i < |x.steps| && x.steps[i].mutation :: Sound(x.steps[i]))
  }

  predicate Sound(step: Step) {
    step.dispatch.Acknowledged? && step.error.None? && !(step.route == Some(Perform) && step.status.Some? && step.status.value.Bad())
  }

  ghost predicate Honest(x: Execution) {
    x.resolved != [] && x.resolved[0].outcome.success ==> Strong(x)
  }

  ghost predicate Inv(x: Execution) {
    Counts(x) && Budgets(x) && Steps(x) && Latched(x) && Clean(x) && Honest(x)
  }

  /** The later state of an execution: closing, resolving and the latch are final; nothing is sent after closing. */
  ghost predicate Grown(x: Execution, y: Execution) {
    && (x.closed ==> y.closed && y.sent == x.sent)
    && (x.resolved != [] ==> y.resolved == x.resolved)
    && (x.mutationFailure.Some? ==> y.mutationFailure == x.mutationFailure)
    && x.sent <= y.sent
    && (Truthy(x.mutationFailure) ==> Performs(y.sent) == Performs(x.sent))
  }

  lemma DoneOk(x: Execution, outcome: Outcome)
    requires Inv(x)
    requires outcome.success ==> x.pending == Some(outcome) && x.inFlight == 0
    requires x.inFlight > 0 ==> outcome.reason.Deadline?
    ensures Inv(Done(x, outcome)) && Grown(x, Done(x, outcome))
  {
    var y := Done(x, outcome);
    if x.resolved == [] {
      assert forall i | 0 <= i < |x.steps| :: StepOk(x, i) ==> StepOk(y, i);
      if outcome.success && !Truthy(x.mutationFailure) {
        SuccessIsEarned(x);
        assert x.live.Keys == {};
      }
    }
  }

  /** The heart of the matter: a clean pending success with nothing in flight and no failure message is real. */
  lemma SuccessIsEarned(x: Execution)
    requires Steps(x) && Latched(x) && Clean(x)
    requires x.pending.Some? && x.pending.value.success && !Truthy(x.mutationFailure)
    ensures x.mutationFailure.None?
    ensures forall i | 0 <= i < |x.steps| && x.steps[i].mutation :: Sound(x.steps[i])
  {
    forall i | 0 <= i < |x.steps| && x.steps[i].mutation ensures Sound(x.steps[i]) {
      assert StepOk(x, i) && !Unsettled(x.steps[i]);
    }
  }

  lemma CompleteOk(x: Execution)
    requires Inv(x)
    requires x.pending.Some? ==> x.closed
    ensures Inv(CompletePending(x)) && Grown(x, CompletePending(x))
  {
    if x.pending.Some? && x.inFlight == 0 {
      DoneOk(x, x.pending.value);
    }
  }

  // ------------------------------------------------------------------ one event

  lemma GrownTransitive(x: Execution, y: Execution, z: Execution)
    requires Grown(x, y) && Grown(y, z)
    ensures Grown(x, z)
  {
  }

  lemma FailOk(x: Execution, reason: Reason)
    requires Inv(x)
    ensures Inv(Fail(x, reason)) && Grown(x, Fail(x, reason))
  {
    var y := x.(closed := true, pending := Some(Outcome(false, reason)));
    assert forall i | 0 <= i < |x.steps| :: StepOk(x, i) ==> StepOk(y, i);
    CompleteOk(y);
    GrownTransitive(x, y, CompletePending(y));
  }

  /** Appending a step, live or not, leaves the earlier ones as they were. */
  lemma NewStepOk(x: Execution, y: Execution, step: Step)
    requires Steps(x) && Latched(x) && y.steps == x.steps + [step]
    requires y.live.Keys <= x.live.Keys + {|x.steps|}
    requires forall i | i in x.live :: i in y.live && y.live[i] == x.live[i]
    requires y.mutationFailure == x.mutationFailure
      || (x.mutationFailure.None? && y.mutationFailure.Some? && y.mutationFailure.value != "")
    requires StepOk(y, |x.steps|)
    ensures Steps(y) && Latched(y)
  {
    forall i | 0 <= i < |x.steps| ensures StepOk(y, i) {
      assert StepOk(x, i);
    }
    if y.mutationFailure == Some("") {
      var i :| 0 <= i < |x.steps| && Unsettled(x.steps[i]) && x.steps[i].error.Some?;
      assert y.steps[i] == x.steps[i];
    }
  }

  lemma RefusalSaysWhy(x: Execution, r: Request)
    ensures Refusal(x, r).Some? ==> Refusal(x, r).value != ""
  {
    if !x.closed && r.called.Known? && Truthy(x.mutationFailure) {
      assert |BLOCKED + x.mutationFailure.value| > 0;
    }
  }

  lemma BeginSteps(x: Execution, r: Request)
    requires Steps(x) && Latched(x) && !x.closed
    ensures Steps(Begin(x, r)) && Latched(Begin(x, r))
  {
    RefusalSaysWhy(x, r);
    var y := Begin(x, r);
    assert |x.steps| !in x.live;
    assert StepOk(y, |x.steps|);
    NewStepOk(x, y, NewStep(x, r));
  }

  lemma BeginBudgets(x: Execution, r: Request)
    requires |x.sent| < x.callCount <= MAX_CALLS && !x.closed
    requires Mutations(x.sent) <= x.performCalls && Mutations(x.sent) <= MAX_MUTATION_ATTEMPTS
    ensures Budgets(Begin(x, r)) && Grown(x, Begin(x, r))
  {
    if Refusal(x, r).None? {
      SentMore(x.sent, r.called.route);
    }
  }

  lemma SameSteps(x: Execution, y: Execution)
    requires Steps(x) && Latched(x) && y.steps == x.steps && y.live == x.live && y.mutationFailure == x.mutationFailure
    ensures Steps(y) && Latched(y)
  {
    assert forall i | 0 <= i < |x.steps| :: StepOk(x, i) ==> StepOk(y, i);
  }

  lemma BeginCounts(x: Execution, r: Request)
    requires Counts(x) && Steps(x) && x.deadline.Some? && Listening(x)
    ensures Counts(Begin(x.(callCount := x.callCount + 1, inFlight := x.inFlight + 1), r))
  {
    assert |x.steps| !in x.live;
    assert Begin(x.(callCount := x.callCount + 1, inFlight := x.inFlight + 1), r).live.Keys == x.live.Keys + {|x.steps|};
  }

  lemma BeginOk(x: Execution, r: Request)
    requires Inv(x) && Listening(x) && x.deadline.Some? && x.callCount < MAX_CALLS
    ensures var y := Begin(x.(callCount := x.callCount + 1, inFlight := x.inFlight + 1), r); Inv(y) && Grown(x, y)
  {
    var y := x.(callCount := x.callCount + 1, inFlight := x.inFlight + 1);
    SameSteps(x, y);
    BeginSteps(y, r);
    BeginBudgets(y, r);
    BeginCounts(x, r);
  }

  lemma CountedOk(x: Execution)
    requires Inv(x) && Listening(x) && x.callCount < MAX_CALLS
    ensures var y := CompletePending(x.(callCount := x.callCount + 1)); Inv(y) && Grown(x, y)
  {
    SameSteps(x, x.(callCount := x.callCount + 1));
  }

  lemma OverLimitOk(x: Execution)
    requires Inv(x) && Listening(x)
    ensures var y := Fail(x.(callCount := x.callCount + 1, steps := x.steps + [LimitStep()]), CallLimit); Inv(y) && Grown(x, y)
  {
    var y := x.(callCount := x.callCount + 1, steps := x.steps + [LimitStep()], closed := true, pending := Some(Outcome(false, CallLimit)));
    assert |x.steps| !in x.live;
    NewStepOk(x, y, LimitStep());
    CompleteOk(y);
    GrownTransitive(x, y, CompletePending(y));
  }

  lemma AcceptOk(x: Execution, request: Option<Request>)
    requires Inv(x) && Listening(x) && x.deadline.Some?
    ensures var y := Accept(x.(callCount := x.callCount + 1), request); Inv(y) && Grown(x, y)
  {
    var y := x.(callCount := x.callCount + 1);
    if x.callCount + 1 > MAX_CALLS {
      OverLimitOk(x);
      assert Accept(y, request) == Fail(x.(callCount := x.callCount + 1, steps := x.steps + [LimitStep()]), CallLimit);
    } else if request.None? {
      CountedOk(x);
      assert Accept(y, request) == CompletePending(y);
    } else {
      BeginOk(x, request.value);
      assert Accept(y, request) == Begin(x.(callCount := x.callCount + 1, inFlight := x.inFlight + 1), request.value);
    }
  }

  /** The three ways a call message can go. */
  lemma LabCallCases(kept: Execution -> bool, x: Execution, now: Time, request: Option<Request>)
    requires !Listening(x) ==> kept(x)
    requires Listening(x) && (x.deadline.None? || now >= x.deadline.value) ==> kept(Done(x, Outcome(false, Deadline)))
    requires Listening(x) && x.deadline.Some? && now < x.deadline.value ==> kept(Accept(x.(callCount := x.callCount + 1), request))
    ensures kept(OnLabCall(x, now, request))
  {
  }

  /** `y` is a sound state that grew out of `x`. */
  ghost predicate Keeps(x: Execution, y: Execution) {
    Inv(y) && Grown(x, y)
  }

  lemma LabCallOk(x: Execution, now: Time, request: Option<Request>)
    requires Inv(x)
    ensures Keeps(x, OnLabCall(x, now, request))
  {
    if Listening(x) {
      if x.deadline.Some? {
        AcceptOk(x, request);
      }
      DoneOk(x, Outcome(false, Deadline));
    }
    LabCallCases(y => Keeps(x, y), x, now, request);
  }

  lemma ResultOk(x: Execution, json: bool, unawaited: bool)
    requires Inv(x)
    ensures Inv(OnResult(x, json, unawaited)) && Grown(x, OnResult(x, json, unawaited))
  {
    if Listening(x) {
      var outcome := if unawaited || (exists i :: 0 <= i < |x.steps| && Unsettled(x.steps[i])) then Outcome(false, Unawaited)
                     else if json then Outcome(true, Finished) else Outcome(false, InvalidJson);
      var y := x.(closed := true, pending := Some(outcome));
      assert forall i | 0 <= i < |x.steps| :: StepOk(x, i) ==> StepOk(y, i);
      CompleteOk(y);
      GrownTransitive(x, y, CompletePending(y));
    }
  }

  // ------------------------------------------------------------------ replies

  /** A step the client answered: only an awaiting call is ever answered. */
  lemma AnswerOk(x: Execution, y: Execution, i: nat, reply: Reply)
    requires i < |x.steps| && StepOk(x, i) && i in x.live && x.live[i].Awaiting?
    requires |y.steps| == |x.steps| && y.live == x.live[i := Returned]
    requires y.steps[i] == Answer(x.steps[i], reply)
    requires var failure := Failure(x.steps[i], reply);
      y.mutationFailure == if failure.Some? then Latch(x.mutationFailure, failure.value) else x.mutationFailure
    ensures StepOk(y, i)
  {
  }

  lemma OtherStepOk(x: Execution, y: Execution, k: nat, operation: string, status: OperationStatus)
    requires k < |x.steps| && |y.steps| == |x.steps| && StepOk(x, k)
    requires (k in y.live && y.live[k].Awaiting?) <==> (k in x.live && x.live[k].Awaiting?)
    requires x.mutationFailure.Some? ==> y.mutationFailure.Some?
    requires status.Bad() ==> y.mutationFailure.Some?
    requires y.steps[k] == x.steps[k] || y.steps[k] == Refresh(x.steps[k], operation, status)
    ensures StepOk(y, k)
  {
  }

  lemma ContinueSteps(x: Execution, i: nat, reply: Reply)
    requires Steps(x) && Enabled(x, ClientReply(i, reply))
    ensures Steps(Continue(x, i, reply))
  {
    var y := Continue(x, i, reply);
    assert StepOk(x, i);
    forall k | 0 <= k < |x.steps| ensures StepOk(y, k) {
      assert StepOk(x, k);
      if k == i {
        AnswerOk(x, y, i, reply);
      } else if reply.Fulfilled? && x.steps[i].route.value.OperationWatch? && reply.operation.Some? && reply.status.Some? {
        OtherStepOk(x, y, k, reply.operation.value, reply.status.value);
      } else {
        OtherStepOk(x, y, k, "", Requested);
      }
    }
  }

  /** A reply settles its own step only; no other step becomes or stops being unsettled. */
  lemma ContinueUnsettled(x: Execution, i: nat, reply: Reply, k: nat)
    requires Steps(x) && Enabled(x, ClientReply(i, reply)) && k < |x.steps| && k != i
    ensures Unsettled(Continue(x, i, reply).steps[k]) == Unsettled(x.steps[k])
    ensures Continue(x, i, reply).steps[k].error == x.steps[k].error
  {
  }

  lemma FailureSaysWhy(step: Step, reply: Reply)
    requires step.route.Some? && (step.mutation <==> step.route.value.Mutates()) && step.error.None?
    ensures Failure(step, reply) == Some("") ==> step.mutation && Answer(step, reply) == step.(success := false, error := Some(""))
  {
  }

  lemma ContinueLatched(x: Execution, i: nat, reply: Reply)
    requires Steps(x) && Latched(x) && Enabled(x, ClientReply(i, reply))
    ensures Latched(Continue(x, i, reply))
  {
    var y := Continue(x, i, reply);
    assert StepOk(x, i);
    if y.mutationFailure == Some("") {
      if x.mutationFailure.Some? {
        var k :| 0 <= k < |x.steps| && Unsettled(x.steps[k]) && x.steps[k].error.Some?;
        ContinueUnsettled(x, i, reply, k);
        assert Unsettled(y.steps[k]);
      } else {
        FailureSaysWhy(x.steps[i], reply);
        assert Unsettled(y.steps[i]);
      }
    }
  }

  lemma ContinueClean(x: Execution, i: nat, reply: Reply)
    requires Steps(x) && Clean(x) && Enabled(x, ClientReply(i, reply))
    ensures Clean(Continue(x, i, reply))
  {
    var y := Continue(x, i, reply);
    assert StepOk(x, i);
    if x.pending.Some? && x.pending.value.success {
      forall k | 0 <= k < |y.steps| ensures !Unsettled(y.steps[k]) {
        assert !Unsettled(x.steps[k]);
        if k != i {
          ContinueUnsettled(x, i, reply, k);
        }
      }
    }
  }

  lemma ContinueOk(x: Execution, i: nat, reply: Reply)
    requires Inv(x) && Enabled(x, ClientReply(i, reply))
    ensures Inv(Continue(x, i, reply)) && Grown(x, Continue(x, i, reply))
  {
    ContinueSteps(x, i, reply);
    ContinueLatched(x, i, reply);
    ContinueClean(x, i, reply);
    assert Continue(x, i, reply).live.Keys == x.live.Keys;
  }

  lemma SettleOk(x: Execution, i: nat)
    requires Inv(x) && Enabled(x, CallSettled(i))
    ensures Inv(Settle(x, i)) && Grown(x, Settle(x, i))
  {
    var y := x.(live := x.live - {i}, inFlight := x.inFlight - 1);
    assert y.live.Keys == x.live.Keys - {i};
    forall k | 0 <= k < |x.steps| ensures StepOk(y, k) {
      assert StepOk(x, k);
    }
    CompleteOk(y);
    GrownTransitive(x, y, CompletePending(y));
  }

  lemma ReadyOk(x: Execution, now: Time, timeout: Time)
    requires Inv(x)
    ensures Inv(OnReady(x, now, timeout)) && Grown(x, OnReady(x, now, timeout))
  {
    if Listening(x) {
      SameSteps(x, OnReady(x, now, timeout));
    }
  }

  lemma LogOk(x: Execution)
    requires Inv(x)
    ensures Inv(OnLog(x)) && Grown(x, OnLog(x))
  {
    if Listening(x) {
      SameSteps(x, OnLog(x));
    }
  }

  lemma StepForward(x: Execution, e: Event)
    requires Inv(x) && Enabled(x, e)
    ensures Inv(After(x, e)) && Grown(x, After(x, e))
  {
    match e
    case ReadyMessage(now, timeout) => ReadyOk(x, now, timeout);
    case LogMessage => LogOk(x);
    case CallMessage(now, request) => LabCallOk(x, now, request);
    case ResultMessage(json, unawaited) => ResultOk(x, json, unawaited);
    case ErrorMessage => FailOk(x, ChildError);
    case ChildClosed => FailOk(x, ChildExited);
    case ChildBroke => FailOk(x, ChildFailed);
    case ClientReply(i, reply) => ContinueOk(x, i, reply);
    case CallSettled(i) => SettleOk(x, i);
    case BootTimer => DoneOk(x, Outcome(false, Boot));
    case ExecutionTimer => DoneOk(x, Outcome(false, Deadline));
  }

  // ------------------------------------------------------------------ runs and theorems

  ghost predicate IsRun(run: seq<Execution>, events: seq<Event>) {
    && |run| == |events| + 1 && run[0] == Start()
    && (forall i | 0 <= i < |events| :: Enabled(run[i], events[i]) && run[i + 1] == After(run[i], events[i]))
  }

  lemma {:induction false} RunInv(run: seq<Execution>, events: seq<Event>, i: nat)
    requires IsRun(run, events) && i < |run|
    ensures Inv(run[i])
  {
    if i > 0 {
      RunInv(run, events, i - 1);
      StepForward(run[i - 1], events[i - 1]);
    }
  }

  /** A resolution is final, dispatch stays closed once closed, and a failure message once latched blocks every later perform. */
  lemma {:induction false} RunGrows(run: seq<Execution>, events: seq<Event>, i: nat, j: nat)
    requires IsRun(run, events) && i <= j < |run|
    ensures Grown(run[i], run[j])
    decreases j
  {
    if i < j {
      RunGrows(run, events, i, j - 1);
      RunInv(run, events, j - 1);
      StepForward(run[j - 1], events[j - 1]);
      GrownTransitive(run[i], run[j - 1], run[j]);
    }
  }

  /** The promise is resolved at most once, and with calls in flight only when the deadline passed. */
  lemma ResolvedOnce(run: seq<Execution>, events: seq<Event>, i: nat, j: nat)
    requires IsRun(run, events) && i <= j < |run|
    ensures |run[j].resolved| <= 1
    ensures run[i].resolved != [] ==> run[j].resolved == run[i].resolved
    ensures run[j].resolved != [] ==> run[j].resolved[0].inFlight == 0 || run[j].resolved[0].outcome.reason.Deadline?
  {
    RunInv(run, events, j);
    RunGrows(run, events, i, j);
  }

  /** At most 20 calls and 8 mutations are ever forwarded, and nothing after dispatch is closed. */
  lemma ForwardedWithinBudget(run: seq<Execution>, events: seq<Event>, i: nat, j: nat)
    requires IsRun(run, events) && i <= j < |run|
    ensures |run[j].sent| <= MAX_CALLS && Mutations(run[j].sent) <= MAX_MUTATION_ATTEMPTS
    ensures run[i].sent <= run[j].sent
    ensures run[i].closed ==> run[j].closed && run[j].sent == run[i].sent
  {
    RunInv(run, events, j);
    RunGrows(run, events, i, j);
  }

  /** Reported success, in every interleaving: each attempted mutation was acknowledged without error or observed failure. */
  lemma SuccessIsStrong(run: seq<Execution>, events: seq<Event>, i: nat, k: nat)
    requires IsRun(run, events) && i < |run|
    requires run[i].resolved != [] && run[i].resolved[0].outcome.success
    requires k < |run[i].steps| && run[i].steps[k].route.Some? && run[i].steps[k].route.value.Mutates()
    ensures Sound(run[i].steps[k])
    ensures run[i].mutationFailure.None? && run[i].live == map[]
  {
    RunInv(run, events, i);
    assert StepOk(run[i], k);
  }

  /** With nothing in flight, a result message succeeds exactly when it is sound JSON, awaited all, and no mutation went wrong. */
  lemma ResultSucceedsIff(run: seq<Execution>, events: seq<Event>, i: nat, json: bool, unawaited: bool)
    requires IsRun(run, events) && i < |run| && Listening(run[i]) && run[i].inFlight == 0
    ensures var y := OnResult(run[i], json, unawaited);
      && y.resolved != []
      && (y.resolved[0].outcome.success <==>
            && json && !unawaited && run[i].mutationFailure.None?
            && (forall k | 0 <= k < |run[i].steps| && run[i].steps[k].mutation :: Sound(run[i].steps[k])))
  {
    RunInv(run, events, i);
    var x := run[i];
    var y := OnResult(x, json, unawaited);
    ResultOk(x, json, unawaited);
    if x.mutationFailure.None? && forall k | 0 <= k < |x.steps| && x.steps[k].mutation :: Sound(x.steps[k]) {
      forall k | 0 <= k < |x.steps| ensures !Unsettled(x.steps[k]) {
        assert StepOk(x, k);
      }
    }
    if y.resolved[0].outcome.success {
      assert Strong(y);
    }
  }

  /** While a result waits for calls in flight it is settled by the last of them or by the deadline, and spoilt by a broken child only. */
  lemma WaitingStep(x: Execution, e: Event)
    requires Inv(x) && Enabled(x, e) && x.resolved == [] && x.pending.Some? && x.inFlight > 0
    ensures var y := After(x, e);
      if y.resolved == [] then
        y.inFlight > 0 && y.pending == if e.ChildBroke? then Some(Outcome(false, ChildFailed)) else x.pending
      else
        (e.CallSettled? || e.ExecutionTimer?) && (y.resolved[0].outcome.success <==>
          e.CallSettled? && x.pending.value.success && !Truthy(y.mutationFailure))
  {
    StepForward(x, e);
    assert x.bootArmed ==> |x.live| == 0;
  }

  predicate Broke(events: seq<Event>, i: nat, m: nat)
    requires i <= m <= |events|
  {
    exists k :: i <= k < m && events[k].ChildBroke?
  }

  ghost predicate WaitsFor(x: Execution, outcome: Option<Outcome>, broke: bool) {
    x.inFlight > 0 && x.pending == if broke then Some(Outcome(false, ChildFailed)) else outcome
  }

  lemma WaitsOn(x: Execution, e: Event, outcome: Option<Outcome>, broke: bool)
    requires Inv(x) && Enabled(x, e) && x.resolved == [] && outcome.Some? && WaitsFor(x, outcome, broke)
    ensures After(x, e).resolved == [] ==> WaitsFor(After(x, e), outcome, broke || e.ChildBroke?)
  {
    WaitingStep(x, e);
  }

  lemma WaitsNext(run: seq<Execution>, events: seq<Event>, m: nat, outcome: Option<Outcome>, broke: bool)
    requires IsRun(run, events) && m < |events| && outcome.Some? && WaitsFor(run[m], outcome, broke) && run[m + 1].resolved == []
    ensures WaitsFor(run[m + 1], outcome, broke || events[m].ChildBroke?)
  {
    RunInv(run, events, m);
    RunGrows(run, events, m, m + 1);
    WaitsOn(run[m], events[m], outcome, broke);
  }

  lemma Unresolved(run: seq<Execution>, events: seq<Event>, m: nat)
    requires IsRun(run, events) && m < |events| && run[m + 1].resolved == []
    ensures run[m].resolved == []
  {
    RunGrows(run, events, m, m + 1);
  }

  lemma {:induction false} Waiting(run: seq<Execution>, events: seq<Event>, i: nat, m: nat, outcome: Option<Outcome>)
    requires IsRun(run, events) && i <= m <= |events| && run[m].resolved == []
    requires outcome.Some? && WaitsFor(run[i], outcome, false)
    ensures WaitsFor(run[m], outcome, Broke(events, i, m))
    decreases m
  {
    if i < m {
      Unresolved(run, events, m - 1);
      Waiting(run, events, i, m - 1, outcome);
      WaitsNext(run, events, m - 1, outcome, Broke(events, i, m - 1));
      BrokeMore(events, i, m - 1);
    }
  }

  lemma BrokeMore(events: seq<Event>, i: nat, m: nat)
    requires i <= m < |events|
    ensures Broke(events, i, m + 1) <==> Broke(events, i, m) || events[m].ChildBroke?
  {
    if k :| i <= k < m && events[k].ChildBroke? {
      assert events[k].ChildBroke?;
    }
  }

  /**
    Whatever is in flight when the result arrives, the execution succeeds if and only if the result
    is JSON and awaited everything, no forwarded mutation was unsettled then, the last call ended
    before the deadline and without the child breaking, and no failure was latched by that time.
   */
  lemma SucceedsIff(run: seq<Execution>, events: seq<Event>, i: nat, j: nat)
    requires IsRun(run, events) && i <= j < |events|
    requires events[i].ResultMessage? && Listening(run[i]) && run[j].resolved == [] && run[j + 1].resolved != []
    ensures run[j + 1].resolved[0].outcome.success <==>
      && events[i].json && !events[i].unawaited && (forall k | 0 <= k < |run[i].steps| :: !Unsettled(run[i].steps[k]))
      && !events[j].ExecutionTimer? && !Broke(events, i + 1, j + 1) && run[j + 1].mutationFailure.None?
  {
    RunInv(run, events, i);
    RunInv(run, events, j + 1);
    var asked := run[i + 1].pending;
    assert asked.Some? && (asked.value.success <==>
      events[i].json && !events[i].unawaited && (forall k | 0 <= k < |run[i].steps| :: !Unsettled(run[i].steps[k])));
    if i < j {
      RunGrows(run, events, i + 1, j);
      Waiting(run, events, i + 1, j, asked);
      RunInv(run, events, j);
      WaitingStep(run[j], events[j]);
      BrokeMore(events, i + 1, j);
    }
    if run[j + 1].resolved[0].outcome.success {
      assert Strong(run[j + 1]);
    }
  }

  /** After a mutation failure with a message no perform is forwarded any more. */
  lemma NoPerformAfterFailure(run: seq<Execution>, events: seq<Event>, i: nat, j: nat)
    requires IsRun(run, events) && i <= j < |run| && Truthy(run[i].mutationFailure)
    ensures Performs(run[j].sent) == Performs(run[i].sent)
  {
    RunGrows(run, events, i, j);
  }

  /** Exactly when a valid perform within the attempt budget is forwarded: no failure, or one whose message is empty. */
  lemma PerformForwardedIff(x: Execution, r: Request)
    requires !x.closed && r.called == Known(Perform) && r.valid && x.performCalls < MAX_MUTATION_ATTEMPTS
    ensures (Begin(x, r).sent == x.sent + [Perform]) <==> (x.mutationFailure.None? || x.mutationFailure.value == "")
  {
    assert Refusal(x, r).None? <==> !Truthy(x.mutationFailure);
    if Truthy(x.mutationFailure) {
      assert |Begin(x, r).sent| != |x.sent + [Perform]|;
    } else {
      assert Begin(x, r).sent == x.sent + [Perform];
    }
  }

  /** The blocked and the forwarded perform differ only by the failure's message: an empty one does not block. */
  lemma EmptyMessageDoesNotBlock(r: Request) returns (run: seq<Execution>, events: seq<Event>)
    requires r.called == Known(Perform) && r.valid
    ensures IsRun(run, events) && |run| == 5
    ensures run[3].mutationFailure == Some("") && run[3].sent == [Perform] && run[4].sent == [Perform, Perform]
  {
    events := [ReadyMessage(0, 10), CallMessage(1, Some(r)), ClientReply(0, Rejected("")), CallMessage(2, Some(r))];
    var x1 := After(Start(), events[0]);
    var x2 := After(x1, events[1]);
    assert x2.live == map[0 := Awaiting] && |x2.steps| == 1;
    var x3 := After(x2, events[2]);
    var x4 := After(x3, events[3]);
    run := [Start(), x1, x2, x3, x4];
  }

  /** The latch holds the first failure of a run, whatever is answered later. */
  lemma FirstFailureStays(run: seq<Execution>, events: seq<Event>, i: nat, j: nat)
    requires IsRun(run, events) && i <= j < |run| && run[i].mutationFailure.Some?
    ensures run[j].mutationFailure == run[i].mutationFailure
  {
    RunGrows(run, events, i, j);
  }
}
