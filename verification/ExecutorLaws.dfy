/**
  What each event does to one code execution, stated on its fields alone: which calls are forwarded
  and which refused, which reply earns an acknowledgement, what is latched, and how it resolves.
 */
module ExecutorLaws {
  import opened Prelude
  import opened Executor

  // ------------------------------------------------------------------ calls

  predicate Mutating(r: Request) {
    r.called == Known(Perform) || r.called == Known(OperationStop)
  }

  predicate Watching(r: Request) {
    r.called == Known(Route.Watch) || r.called == Known(OperationWatch)
  }

  /** A failure with a message is latched. */
  predicate Blocked(x: Execution) {
    x.mutationFailure.Some? && x.mutationFailure.value != ""
  }

  /** What a call needs to be forwarded, as checked in this order. */
  predicate Checks(x: Execution, r: Request, n: nat)
    requires n <= 7
  {
    && (n >= 1 ==> !x.closed)
    && (n >= 2 ==> !r.called.Recursive?)
    && (n >= 3 ==> r.called.Known?)
    && (n >= 4 ==> Mutating(r) ==> x.performCalls < 8)
    && (n >= 5 ==> r.called == Known(Perform) ==> !Blocked(x))
    && (n >= 6 ==> r.valid)
    && (n >= 7 ==> Watching(r) ==> r.timeout <= 1000)
  }

  function FailedCheck(x: Execution, n: nat): string {
    if n == 0 then CLOSED
    else if n == 1 then RECURSIVE
    else if n == 2 then UNKNOWN
    else if n == 3 then TOO_MANY
    else if n == 4 then BLOCKED + (if x.mutationFailure.Some? then x.mutationFailure.value else "")
    else if n == 5 then INVALID
    else LONG_WATCH
  }

  /** The step of a forwarded call: a mutation is unconfirmed, for the character and operation the call names. */
  predicate ForwardedStep(r: Request, step: Step) {
    && r.called.Known? && step.route == Some(r.called.route) && step.error.None? && !step.success
    && step.mutation == Mutating(r)
    && (if Mutating(r) then step.dispatch == Unconfirmed && step.character == r.character else step.dispatch == NotSent)
    && (r.called == Known(OperationStop) ==> step.operation == Some(r.operation))
    && (r.called != Known(OperationStop) ==> step.operation.None?)
    && step.status.None? && step.stopped.None? && step.stopRequested.None?
  }

  /** Only a call that passes all checks is forwarded; another is recorded with the first check that fails, and latched if it was a mutation. */
  ghost predicate BeginLaw(x: Execution, r: Request, y: Execution) {
    && |y.steps| == |x.steps| + 1 && y.steps[..|x.steps|] == x.steps
    && y == x.(steps := y.steps, performCalls := y.performCalls, mutationFailure := y.mutationFailure, live := y.live, sent := y.sent)
    && y.performCalls == x.performCalls + (if !x.closed && Mutating(r) then 1 else 0)
    && var step := y.steps[|x.steps|];
    && if Checks(x, r, 7) then
         && ForwardedStep(r, step) && r.called.Known? && y.sent == x.sent + [r.called.route]
         && y.mutationFailure == x.mutationFailure && y.live == x.live[|x.steps| := Awaiting]
       else
         && y.sent == x.sent && y.live == x.live[|x.steps| := Returned]
         && step.error.Some? && step.dispatch.NotSent? && !step.success
         && (exists n :: 0 <= n < 7 && Checks(x, r, n) && !Checks(x, r, n + 1) && step.error == Some(FailedCheck(x, n)))
         && y.mutationFailure == if x.mutationFailure.None? && !x.closed && Mutating(r) then step.error else x.mutationFailure
  }

  function FirstFailed(x: Execution, r: Request): (n: nat)
    requires !Checks(x, r, 7)
    ensures n < 7 && Checks(x, r, n) && !Checks(x, r, n + 1)
  {
    if x.closed then 0
    else if r.called.Recursive? then 1
    else if !r.called.Known? then 2
    else if Mutating(r) && x.performCalls >= 8 then 3
    else if r.called == Known(Perform) && Blocked(x) then 4
    else if !r.valid then 5
    else 6
  }

  lemma RefusalIs(x: Execution, r: Request)
    ensures Refusal(x, r) == if Checks(x, r, 7) then None else Some(FailedCheck(x, FirstFailed(x, r)))
  {
  }

  lemma BeginIs(x: Execution, r: Request)
    ensures BeginLaw(x, r, Begin(x, r))
  {
    RefusalIs(x, r);
    var y := Begin(x, r);
    assert y.steps[|x.steps|] == NewStep(x, r);
    if !Checks(x, r, 7) {
      var n := FirstFailed(x, r);
      assert Checks(x, r, n) && !Checks(x, r, n + 1) && y.steps[|x.steps|].error == Some(FailedCheck(x, n));
    }
  }

  /** A call arrives in time while the execution listens, and is not one too many. */
  predicate InTime(x: Execution, now: Time) {
    x.resolved == [] && !x.closed && x.deadline.Some? && now < x.deadline.value && x.callCount < 20
  }

  /** Whatever is forwarded was called in time, for a valid request, within the budgets. */
  lemma ForwardedIff(x: Execution, now: Time, request: Option<Request>)
    ensures var y := OnLabCall(x, now, request);
      && (y.sent != x.sent <==> InTime(x, now) && request.Some? && Checks(x, request.value, 7))
      && (y.sent != x.sent ==> request.value.called.Known? && y.sent == x.sent + [request.value.called.route])
      && (InTime(x, now) ==> y.callCount == x.callCount + 1)
      && (x.resolved == [] && !x.closed && (x.deadline.None? || now >= x.deadline.value) ==>
            |y.resolved| == 1 && !y.resolved[0].outcome.success && y.closed)
      && (x.resolved == [] && !x.closed && x.deadline.Some? && now < x.deadline.value && x.callCount >= 20 ==>
            y.closed && y.pending.Some? && !y.pending.value.success)
  {
    if InTime(x, now) && request.Some? {
      var z := x.(callCount := x.callCount + 1, inFlight := x.inFlight + 1);
      BeginIs(z, request.value);
      assert Checks(z, request.value, 7) <==> Checks(x, request.value, 7);
    }
  }

  // ------------------------------------------------------------------ replies

  /** The receipt a stop must bring: for the character and the operation of the call, saying whether it stopped. */
  predicate StopReceiptFor(reply: Reply, character: string, operation: string) {
    && reply.Fulfilled?
    && reply.stop.character.Some? && reply.stop.character.value == character
    && reply.stop.operation.Some? && reply.stop.operation.value == operation
    && reply.stop.stopped.Some?
  }

  /** The receipt a perform must bring: its operation and status. */
  predicate PerformReceipt(reply: Reply) {
    reply.Fulfilled? && reply.operation.Some? && reply.status.Some?
  }

  predicate BadStatus(reply: Reply) {
    reply.Fulfilled? && reply.status.Some? && (reply.status.value.Failed? || reply.status.value.TimedOut? || reply.status.value.Interrupted?)
  }

  /** The reply brings the receipt a forwarded mutation of this step needs. */
  predicate Receipt(step: Step, reply: Reply) {
    if step.route == Some(OperationStop) then step.operation.Some? && StopReceiptFor(reply, step.character, step.operation.value)
    else PerformReceipt(reply)
  }

  /** What a reply makes of a mutation: acknowledged by its receipt, with what the receipt says; otherwise in error. */
  predicate MutationReplied(step: Step, reply: Reply, after: Step) {
    && after.route == step.route && after.mutation == step.mutation && after.character == step.character
    && (if Receipt(step, reply) then after.dispatch == Acknowledged && after.error == step.error && after.success
        else after.dispatch == step.dispatch && after.error.Some? && !after.success)
    && (reply.Rejected? ==> after.error == Some(reply.message))
    && (step.route == Some(Perform) && Receipt(step, reply) ==> after.operation == reply.operation && after.status == reply.status)
    && (step.route == Some(OperationStop) ==> after.operation == step.operation)
    && (step.route == Some(OperationStop) && Receipt(step, reply) ==>
          after.stopped == reply.stop.stopped && after.stopRequested == reply.stop.stopRequested)
  }

  predicate MutatingRoute(step: Step) {
    step.route == Some(Perform) || step.route == Some(OperationStop)
  }

  /** A fulfilled watch of an operation: what it reports is recorded for the performs of that operation. */
  predicate Reports(step: Step, reply: Reply) {
    step.route == Some(OperationWatch) && reply.Fulfilled? && reply.operation.Some? && reply.status.Some?
  }

  predicate OtherReplied(step: Step, watched: bool, reply: Reply, after: Step) {
    if watched && reply.Fulfilled? && step.route == Some(Perform) && step.operation == reply.operation then after == step.(status := reply.status)
    else after == step
  }

  /** A reply to call `i`: its own step, the other steps, and what is latched. */
  ghost predicate ReplyLaw(x: Execution, i: nat, reply: Reply, y: Execution)
    requires i < |x.steps|
  {
    && |y.steps| == |x.steps|
    && y == x.(steps := y.steps, mutationFailure := y.mutationFailure, live := x.live[i := Returned])
    && (MutatingRoute(x.steps[i]) ==> MutationReplied(x.steps[i], reply, y.steps[i]))
    && (forall k | 0 <= k < |x.steps| && k != i :: OtherReplied(x.steps[k], Reports(x.steps[i], reply), reply, y.steps[k]))
    && (x.mutationFailure.Some? ==> y.mutationFailure == x.mutationFailure)
    && (x.mutationFailure.None? ==> (y.mutationFailure.Some? <==> Latches(x.steps[i], reply)))
    && (x.mutationFailure.None? && MutatingRoute(x.steps[i]) && !Receipt(x.steps[i], reply) ==> y.mutationFailure == y.steps[i].error)
  }

  /** A mutation without its receipt is a failure, and so is a bad status of a perform or of a watched operation. */
  predicate Latches(step: Step, reply: Reply) {
    || (MutatingRoute(step) && !Receipt(step, reply))
    || ((step.route == Some(Perform) || step.route == Some(OperationWatch)) && BadStatus(reply))
  }

  /** A call that awaits its reply: no error yet, and a stop knows its operation. */
  predicate Awaits(step: Step) {
    && step.route.Some? && step.error.None? && (step.mutation <==> MutatingRoute(step))
    && (step.route == Some(OperationStop) ==> step.operation.Some?)
    && (step.mutation ==> step.dispatch == Unconfirmed)
  }

  lemma ReplyIs(x: Execution, i: nat, reply: Reply)
    requires i < |x.steps| && Awaits(x.steps[i])
    ensures ReplyLaw(x, i, reply, Continue(x, i, reply))
  {
    var step, y := x.steps[i], Continue(x, i, reply);
    if MutatingRoute(step) {
      assert y.steps[i] == Answer(step, reply);
      MutationAnswered(step, reply);
    }
    FailureIs(step, reply);
  }

  lemma MutationAnswered(step: Step, reply: Reply)
    requires MutatingRoute(step) && Awaits(step)
    ensures MutationReplied(step, reply, Answer(step, reply))
  {
  }

  lemma FailureIs(step: Step, reply: Reply)
    requires Awaits(step)
    ensures Failure(step, reply).Some? <==> Latches(step, reply)
    ensures MutatingRoute(step) && !Receipt(step, reply) ==> Failure(step, reply) == Answer(step, reply).error
  {
  }

  // ------------------------------------------------------------------ results

  /** A result arrives: dispatch closes, and success is pending exactly if it is JSON, awaited all and no mutation is unconfirmed without an error. */
  ghost predicate ResultLaw(x: Execution, json: bool, unawaited: bool, y: Execution) {
    if x.resolved != [] || x.closed then y == x
    else
      && y.closed && y.pending.Some? && y.steps == x.steps && y.mutationFailure == x.mutationFailure && y.sent == x.sent
      && (y.pending.value.success <==>
            json && !unawaited && forall i | 0 <= i < |x.steps| && x.steps[i].dispatch.Unconfirmed? ::
              x.steps[i].error.Some? && x.steps[i].error.value != "")
      && (y.resolved != [] <==> x.inFlight == 0)
      && (y.resolved != [] ==> ResolvedWith(y, y.pending.value))
  }

  /** The one resolution: a success is turned by a latched failure with a message, and nothing else changes the outcome. */
  ghost predicate ResolvedWith(y: Execution, outcome: Outcome) {
    && |y.resolved| == 1
    && (y.resolved[0].outcome.success <==> outcome.success && !Blocked(y))
    && (!outcome.success ==> y.resolved[0].outcome == outcome)
    && (outcome.success && Blocked(y) ==> y.resolved[0].outcome == Outcome(false, Mutation(y.mutationFailure.value)))
  }

  lemma DoneIs(x: Execution, outcome: Outcome)
    ensures x.resolved != [] ==> Done(x, outcome) == x
    ensures x.resolved == [] ==> ResolvedWith(Done(x, outcome), outcome) && Done(x, outcome).closed
  {
  }

  lemma ResultIs(x: Execution, json: bool, unawaited: bool)
    ensures ResultLaw(x, json, unawaited, OnResult(x, json, unawaited))
  {
    if x.resolved == [] && !x.closed {
      assert (exists i :: 0 <= i < |x.steps| && Unsettled(x.steps[i])) <==>
        !(forall i | 0 <= i < |x.steps| && x.steps[i].dispatch.Unconfirmed? :: x.steps[i].error.Some? && x.steps[i].error.value != "") by {
        if i :| 0 <= i < |x.steps| && Unsettled(x.steps[i]) {
          assert x.steps[i].dispatch.Unconfirmed?;
        }
        if i :| 0 <= i < |x.steps| && x.steps[i].dispatch.Unconfirmed? && !(x.steps[i].error.Some? && x.steps[i].error.value != "") {
          assert Unsettled(x.steps[i]);
        }
      }
    }
  }

  /** A call that has ended is no longer in flight; the last one completes what is pending. */
  lemma SettleIs(x: Execution, i: nat)
    ensures var y := Settle(x, i);
      && y.inFlight == x.inFlight - 1 && y.live == x.live - {i} && y.steps == x.steps && y.pending == x.pending
      && (x.resolved == [] && x.pending.Some? && x.inFlight == 1 ==> ResolvedWith(y, x.pending.value) && y.closed)
      && (x.pending.None? || x.inFlight != 1 ==> y.resolved == x.resolved)
  {
  }

  // ------------------------------------------------------------------ the other events

  /** Nothing was called, sent or said yet, and the boot timer runs. */
  lemma StartIs()
    ensures var x := Start();
      && !x.closed && x.pending.None? && x.resolved == [] && x.inFlight == 0 && x.callCount == 0 && x.bootArmed && x.deadline.None?
      && x.logs == 0 && x.steps == [] && x.performCalls == 0 && x.mutationFailure.None? && x.live == map[] && x.sent == []
  {
  }

  /** While the child is listened to: it is ready with a deadline one timeout ahead, or one more line is logged. */
  lemma ListenedIs(x: Execution, now: Time, timeout: Time)
    ensures x.resolved != [] || x.closed ==> OnReady(x, now, timeout) == x && OnLog(x) == x && OnError(x) == x
    ensures x.resolved == [] && !x.closed ==>
      && OnReady(x, now, timeout) == Execution(false, x.pending, [], x.inFlight, x.callCount, false, Some(now + timeout), x.logs,
                                               x.steps, x.performCalls, x.mutationFailure, x.live, x.sent)
      && OnLog(x) == Execution(false, x.pending, [], x.inFlight, x.callCount, x.bootArmed, x.deadline, x.logs + 1,
                               x.steps, x.performCalls, x.mutationFailure, x.live, x.sent)
      && FailedWith(x, ChildError, OnError(x))
  {
  }

  /** Dispatch closes and the failure is pending; it is the resolution at once when nothing is in flight. */
  ghost predicate FailedWith(x: Execution, reason: Reason, y: Execution) {
    && y.closed && y.pending == Some(Outcome(false, reason)) && y.inFlight == x.inFlight
    && y.steps == x.steps && y.mutationFailure == x.mutationFailure && y.sent == x.sent && y.performCalls == x.performCalls
    && y.resolved == if x.resolved == [] && x.inFlight == 0 then [Resolution(Outcome(false, reason), 0)] else x.resolved
  }

  /** The child's end fails the execution exactly when it is neither resolved nor waiting with an outcome. */
  lemma CloseIs(x: Execution)
    ensures if x.resolved == [] && x.pending.None? then FailedWith(x, ChildExited, OnClose(x)) else OnClose(x) == x
  {
  }

  /** The 21st call is a failed step that was never sent, and fails the execution. */
  lemma LimitIs(x: Execution, now: Time, request: Option<Request>)
    requires x.resolved == [] && !x.closed && x.deadline.Some? && now < x.deadline.value && x.callCount >= 20
    ensures var y := OnLabCall(x, now, request);
      && y.callCount == x.callCount + 1 && |y.steps| == |x.steps| + 1 && y.steps[..|x.steps|] == x.steps
      && FailedWith(x.(steps := y.steps, callCount := y.callCount), CallLimit, y)
    ensures var step := OnLabCall(x, now, request).steps[|x.steps|];
      && step.route.None? && !step.mutation && !step.success && step.error == Some(CALL_LIMIT) && step.dispatch.NotSent?
      && step.operation.None? && step.status.None? && step.stopped.None? && step.stopRequested.None?
  {
  }
}
