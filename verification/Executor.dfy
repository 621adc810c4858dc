/**
  One code execution of `executor.ts` with the bridge of `sdk-bridge.ts`. Child messages, client
  replies, timers and the continuations that settle a call are separate events in any order; the
  continuation of a call runs as its own step after the bridge has answered it.
 */
module Executor {
  import opened Prelude

  const MAX_CALLS := 20
  const MAX_MUTATION_ATTEMPTS := 8
  const MAX_WATCH_MS := 1000

  type Time = int

  datatype Route = Perform | OperationStop | OperationWatch | Watch | Other
  {
    predicate Mutates() { Perform? || OperationStop? }
  }

  datatype OperationStatus = Requested | Admitted | Running | Succeeded | Failed | TimedOut | Interrupted
  {
    predicate Bad() { Failed? || TimedOut? || Interrupted? }
  }

  datatype Method = Recursive | Unknown | Known(route: Route)

  /** One `lab.*` call as the child sends it; `character` is folded to lower case. */
  datatype Request = Request(called: Method, valid: bool, timeout: int, character: string, operation: string)

  datatype StopReceipt = StopReceipt(character: Option<string>, operation: Option<string>, stopped: Option<bool>, stopRequested: Option<bool>)

  /** What the client answers: an error message, or the well-formed parts of the reply. */
  datatype Reply =
    | Rejected(message: string)
    | Fulfilled(operation: Option<string>, status: Option<OperationStatus>, stop: StopReceipt)

  datatype Dispatch = NotSent | Unconfirmed | Acknowledged

  datatype Step = Step(
    route: Option<Route>, mutation: bool, character: string, success: bool, error: Option<string>,
    dispatch: Dispatch, operation: Option<string>, status: Option<OperationStatus>,
    stopped: Option<bool>, stopRequested: Option<bool>)

  datatype Phase = Awaiting | Returned

  datatype Reason = Finished | Boot | Deadline | CallLimit | ChildFailed | ChildExited | ChildError | InvalidJson | Unawaited | Mutation(message: string)

  datatype Outcome = Outcome(success: bool, reason: Reason)

  /** A resolution of the promise, with the calls then in flight. */
  datatype Resolution = Resolution(outcome: Outcome, inFlight: int)

  datatype Execution = Execution(
    closed: bool, pending: Option<Outcome>, resolved: seq<Resolution>, inFlight: int, callCount: nat,
    bootArmed: bool, deadline: Option<Time>, logs: nat,
    steps: seq<Step>, performCalls: nat, mutationFailure: Option<string>,
    live: map<nat, Phase>, sent: seq<Route>)

  function Start(): Execution {
    Execution(false, None, [], 0, 0, true, None, 0, [], 0, None, map[], [])
  }

  /** JavaScript truth of an optional message: absent and empty are both false. */
  predicate Truthy(message: Option<string>) {
    message.Some? && message.value != ""
  }

  function Latch(failure: Option<string>, message: string): Option<string> {
    if failure.Some? then failure else Some(message)
  }

  // ------------------------------------------------------------------ resolution

  function Done(x: Execution, outcome: Outcome): Execution {
    if x.resolved != [] then x
    else
      var final := if outcome.success && Truthy(x.mutationFailure) then Outcome(false, Mutation(x.mutationFailure.value)) else outcome;
      x.(closed := true, bootArmed := false, resolved := [Resolution(final, x.inFlight)])
  }

  function CompletePending(x: Execution): Execution {
    if x.pending.Some? && x.inFlight == 0 then Done(x, x.pending.value) else x
  }

  function Fail(x: Execution, reason: Reason): Execution {
    CompletePending(x.(closed := true, pending := Some(Outcome(false, reason))))
  }

  // ------------------------------------------------------------------ the bridge

  const CLOSED := "Execution dispatch is closed; no further LAB calls are allowed"
  const RECURSIVE := "Recursive lab.execute_code is forbidden"
  const UNKNOWN := "Unknown LAB SDK method"
  const TOO_MANY := "At most 8 mutation attempts are allowed per execute_code operation"
  const BLOCKED := "Further lab.perform admissions are blocked after a failed or ambiguous mutation: "
  const INVALID := "Invalid params for SDK method"
  const LONG_WATCH := "Isolate watch timeout is capped at 1000ms"
  const NO_RECEIPT := "Mutation reply lacks a valid operation receipt; admission is unconfirmed"
  const NO_STOP_RECEIPT := "Stop reply lacks a matching operation receipt; stop outcome is unconfirmed"
  const CALL_LIMIT := "Maximum 20 lab.* calls per execution exceeded"

  predicate Attempts(x: Execution, r: Request) {
    !x.closed && r.called.Known? && r.called.route.Mutates()
  }

  /** The error `call` throws before it forwards anything, if any. */
  function Refusal(x: Execution, r: Request): Option<string> {
    if x.closed then Some(CLOSED)
    else match r.called
      case Recursive => Some(RECURSIVE)
      case Unknown => Some(UNKNOWN)
      case Known(route) =>
        if route.Mutates() && x.performCalls + 1 > MAX_MUTATION_ATTEMPTS then Some(TOO_MANY)
        else if route.Perform? && Truthy(x.mutationFailure) then Some(BLOCKED + x.mutationFailure.value)
        else if !r.valid then Some(INVALID)
        else if (route.Watch? || route.OperationWatch?) && r.timeout > MAX_WATCH_MS then Some(LONG_WATCH)
        else None
  }

  function NewStep(x: Execution, r: Request): Step {
    var mutation := Attempts(x, r);
    var refusal := Refusal(x, r);
    var forwarded := mutation && refusal.None?;
    Step(if r.called.Known? && !x.closed then Some(r.called.route) else None, mutation, if forwarded then r.character else "", false, refusal,
         if forwarded then Unconfirmed else NotSent,
         if forwarded && r.called.route.OperationStop? then Some(r.operation) else None, None, None, None)
  }

  /** `call` up to the reply of the client: the step is recorded, then refused or forwarded. */
  function Begin(x: Execution, r: Request): Execution {
    var step := NewStep(x, r);
    var y := x.(
      steps := x.steps + [step],
      performCalls := x.performCalls + (if step.mutation then 1 else 0),
      live := x.live[|x.steps| := if step.error.Some? then Returned else Awaiting]);
    if step.error.Some? then y.(mutationFailure := if step.mutation then Latch(x.mutationFailure, step.error.value) else x.mutationFailure)
    else y.(sent := x.sent + [r.called.route])
  }

  /** The step a thrown error leaves. */
  function Threw(step: Step, message: string): Step {
    step.(success := false, error := Some(message))
  }

  function StopMatches(step: Step, stop: StopReceipt): bool {
    stop.character == Some(step.character) && stop.operation == step.operation && stop.stopped.Some?
  }

  /** What the reply makes of the step it answers. */
  function Answer(step: Step, reply: Reply): Step
    requires step.route.Some?
  {
    if reply.Rejected? then Threw(step, reply.message)
    else
      var ok := step.(success := true);
      match step.route.value
      case Perform =>
        var got := ok.(operation := if reply.operation.Some? then reply.operation else ok.operation,
                       status := if reply.status.Some? then reply.status else ok.status);
        if reply.operation.None? || reply.status.None? then Threw(got, NO_RECEIPT) else got.(dispatch := Acknowledged)
      case OperationWatch =>
        ok.(operation := if reply.operation.Some? then reply.operation else ok.operation,
            status := if reply.status.Some? then reply.status else ok.status)
      case OperationStop =>
        if !StopMatches(step, reply.stop) then Threw(ok, NO_STOP_RECEIPT)
        else ok.(dispatch := Acknowledged, stopRequested := reply.stop.stopRequested, stopped := reply.stop.stopped)
      case Watch => ok
      case Other => ok
  }

  /** A watch refreshes the recorded status of the performs it reports on. */
  function Refresh(step: Step, operation: string, status: OperationStatus): Step {
    if step.route == Some(Perform) && step.operation == Some(operation) then step.(status := Some(status)) else step
  }

  function RefreshAll(steps: seq<Step>, operation: string, status: OperationStatus): seq<Step> {
    seq(|steps|, i requires 0 <= i < |steps| => Refresh(steps[i], operation, status))
  }

  /** The failure one answered call latches. */
  function Failure(step: Step, reply: Reply): Option<string>
    requires step.route.Some?
  {
    var answered := Answer(step, reply);
    if answered.error.Some? then (if step.mutation then answered.error else None)
    else if reply.Fulfilled? && (step.route.value.Perform? || step.route.value.OperationWatch?) && reply.status.Some? && reply.status.value.Bad()
    then Some("Operation " + (if reply.operation.Some? then reply.operation.value else "unknown"))
    else None
  }

  /** `call` from the client's reply on. */
  function Continue(x: Execution, i: nat, reply: Reply): Execution
    requires i < |x.steps| && x.steps[i].route.Some?
  {
    var step := x.steps[i];
    var steps := x.steps[i := Answer(step, reply)];
    var failure := Failure(step, reply);
    x.(steps := if reply.Fulfilled? && step.route.value.OperationWatch? && reply.operation.Some? && reply.status.Some?
                then RefreshAll(steps, reply.operation.value, reply.status.value) else steps,
       mutationFailure := if failure.Some? then Latch(x.mutationFailure, failure.value) else x.mutationFailure,
       live := x.live[i := Returned])
  }

  // ------------------------------------------------------------------ events

  predicate Listening(x: Execution) {
    x.resolved == [] && !x.closed
  }

  function OnReady(x: Execution, now: Time, timeout: Time): Execution {
    if !Listening(x) then x else x.(bootArmed := false, deadline := Some(now + timeout))
  }

  function OnLog(x: Execution): Execution {
    if !Listening(x) then x else x.(logs := x.logs + 1)
  }

  function LimitStep(): Step {
    Step(None, false, "", false, Some(CALL_LIMIT), NotSent, None, None, None, None)
  }

  /** A counted call; `request` is absent when the parameters are not JSON, and the call then ends at once. */
  function Accept(x: Execution, request: Option<Request>): Execution {
    if x.callCount > MAX_CALLS then Fail(x.(steps := x.steps + [LimitStep()]), CallLimit)
    else if request.None? then CompletePending(x)
    else Begin(x.(inFlight := x.inFlight + 1), request.value)
  }

  function OnLabCall(x: Execution, now: Time, request: Option<Request>): Execution {
    if !Listening(x) then x
    else if x.deadline.None? || now >= x.deadline.value then Done(x, Outcome(false, Deadline))
    else Accept(x.(callCount := x.callCount + 1), request)
  }

  predicate Unsettled(step: Step) {
    step.dispatch.Unconfirmed? && !Truthy(step.error)
  }

  function OnResult(x: Execution, json: bool, unawaited: bool): Execution {
    if !Listening(x) then x
    else
      var outcome := if unawaited || (exists i :: 0 <= i < |x.steps| && Unsettled(x.steps[i])) then Outcome(false, Unawaited)
                     else if json then Outcome(true, Finished) else Outcome(false, InvalidJson);
      CompletePending(x.(closed := true, pending := Some(outcome)))
  }

  function OnError(x: Execution): Execution {
    if !Listening(x) then x else Fail(x, ChildError)
  }

  function OnClose(x: Execution): Execution {
    if x.resolved == [] && x.pending.None? then Fail(x, ChildExited) else x
  }

  /** The continuation after the bridge: write the reply and finish the call. */
  function Settle(x: Execution, i: nat): Execution {
    CompletePending(x.(live := x.live - {i}, inFlight := x.inFlight - 1))
  }

  // ------------------------------------------------------------------ the objects

  class CodeExecution {
    var closed: bool
    var pending: Option<Outcome>
    var resolved: seq<Resolution>
    var inFlight: int
    var callCount: nat
    var bootArmed: bool
    var deadline: Option<Time>
    var logs: nat
    var steps: seq<Step>
    var performCalls: nat
    var mutationFailure: Option<string>
    ghost var live: map<nat, Phase>
    var sent: seq<Route>

    ghost function State(): Execution reads this {
      Execution(closed, pending, resolved, inFlight, callCount, bootArmed, deadline, logs,
                steps, performCalls, mutationFailure, live, sent)
    }

    constructor ()
      ensures State() == Start()
    {
      closed, pending, resolved, inFlight, callCount := false, None, [], 0, 0;
      bootArmed, deadline, logs := true, None, 0;
      steps, performCalls, mutationFailure, live, sent := [], 0, None, map[], [];
    }

    method Resolve(outcome: Outcome)
      modifies `closed, `bootArmed, `resolved
      ensures State() == Done(old(State()), outcome)
    {
      if resolved != [] {
        return;
      }
      closed, bootArmed := true, false;
      if outcome.success && mutationFailure.Some? && mutationFailure.value != "" {
        resolved := [Resolution(Outcome(false, Mutation(mutationFailure.value)), inFlight)];
      } else {
        resolved := [Resolution(outcome, inFlight)];
      }
    }

    method ResolvePending()
      modifies `closed, `bootArmed, `resolved
      ensures State() == CompletePending(old(State()))
    {
      if pending.Some? && inFlight == 0 {
        Resolve(pending.value);
      }
    }

    method FailWith(reason: Reason)
      modifies `closed, `bootArmed, `resolved, `pending
      ensures State() == Fail(old(State()), reason)
    {
      closed, pending := true, Some(Outcome(false, reason));
      ResolvePending();
    }

    method Ready(now: Time, timeout: Time)
      modifies `bootArmed, `deadline
      ensures State() == OnReady(old(State()), now, timeout)
    {
      if resolved == [] && !closed {
        bootArmed, deadline := false, Some(now + timeout);
      }
    }

    method LabCall(now: Time, request: Option<Request>)
      modifies this
      ensures State() == OnLabCall(old(State()), now, request)
    {
      if resolved != [] || closed {
        return;
      }
      if deadline.None? || now >= deadline.value {
        Resolve(Outcome(false, Deadline));
        return;
      }
      callCount := callCount + 1;
      AcceptCall(request);
    }

    method AcceptCall(request: Option<Request>)
      modifies this
      ensures State() == Accept(old(State()), request)
    {
      if callCount > MAX_CALLS {
        steps := steps + [Step(None, false, "", false, Some(CALL_LIMIT), NotSent, None, None, None, None)];
        FailWith(CallLimit);
        return;
      }
      inFlight := inFlight + 1;
      match request {
        case None =>
          inFlight := inFlight - 1;
          ResolvePending();
        case Some(r) =>
          BridgeCall(r);
      }
    }

    method BridgeCall(r: Request)
      modifies `steps, `performCalls, `mutationFailure, `live, `sent
      ensures State() == Begin(old(State()), r)
    {
      var stepId := |steps|;
      var step := Step(None, false, "", false, None, NotSent, None, None, None, None);
      var error: Option<string> := None;
      ghost var x := State();
      if closed {
        error := Some(CLOSED);
      } else if r.called.Recursive? {
        error := Some(RECURSIVE);
      } else if r.called.Unknown? {
        error := Some(UNKNOWN);
      } else {
        var route := r.called.route;
        step := step.(route := Some(route));
        if route.Perform? || route.OperationStop? {
          step := step.(mutation := true);
          performCalls := performCalls + 1;
          if performCalls > MAX_MUTATION_ATTEMPTS {
            error := Some(TOO_MANY);
          } else if route.Perform? && Truthy(mutationFailure) {
            error := Some(BLOCKED + mutationFailure.value);
          }
        }
        if error.None? && !r.valid {
          error := Some(INVALID);
        }
        if error.None? && (route.Watch? || route.OperationWatch?) && r.timeout > MAX_WATCH_MS {
          error := Some(LONG_WATCH);
        }
      }
      assert error == Refusal(x, r) && step.mutation == Attempts(x, r);
      if error.Some? {
        step := step.(error := error);
        if step.mutation {
          mutationFailure := Latch(mutationFailure, error.value);
        }
        live := live[stepId := Returned];
      } else {
        if step.mutation {
          step := step.(character := r.character, dispatch := Unconfirmed,
                        operation := if r.called.route.OperationStop? then Some(r.operation) else None);
        }
        sent := sent + [r.called.route];
        live := live[stepId := Awaiting];
      }
      steps := steps + [step];
    }

    method BridgeReply(i: nat, reply: Reply)
      requires i < |steps| && steps[i].route.Some?
      modifies `steps, `mutationFailure, `live
      ensures State() == Continue(old(State()), i, reply)
    {
      ghost var x := State();
      var step := steps[i];
      var answered := Answer(step, reply);
      var failure := Failure(step, reply);
      steps := steps[i := answered];
      if reply.Fulfilled? && step.route.value.OperationWatch? && reply.operation.Some? && reply.status.Some? {
        ghost var before := steps;
        for k := 0 to |steps|
          invariant |steps| == |before|
          invariant forall j | 0 <= j < k :: steps[j] == Refresh(before[j], reply.operation.value, reply.status.value)
          invariant forall j | k <= j < |steps| :: steps[j] == before[j]
          invariant State() == x.(steps := steps)
        {
          if steps[k].route == Some(Perform) && steps[k].operation == reply.operation {
            steps := steps[k := steps[k].(status := reply.status)];
          }
        }
        assert steps == RefreshAll(before, reply.operation.value, reply.status.value);
      }
      if failure.Some? {
        mutationFailure := Latch(mutationFailure, failure.value);
      }
      live := live[i := Returned];
    }

    method CallEnded(i: nat)
      modifies `live, `inFlight, `closed, `bootArmed, `resolved
      ensures State() == Settle(old(State()), i)
    {
      live, inFlight := live - {i}, inFlight - 1;
      ResolvePending();
    }

    method ResultMessage(json: bool, unawaited: bool)
      modifies `closed, `bootArmed, `resolved, `pending
      ensures State() == OnResult(old(State()), json, unawaited)
    {
      if resolved != [] || closed {
        return;
      }
      closed := true;
      pending := Some(if json then Outcome(true, Finished) else Outcome(false, InvalidJson));
      var unsettled := unawaited;
      for i := 0 to |steps|
        invariant unsettled <==> unawaited || exists k :: 0 <= k < i && Unsettled(steps[k])
      {
        if steps[i].dispatch.Unconfirmed? && !Truthy(steps[i].error) {
          assert Unsettled(steps[i]);
          unsettled := true;
        }
      }
      if unsettled {
        pending := Some(Outcome(false, Unawaited));
      }
      ResolvePending();
    }
  }

  // ------------------------------------------------------------------ executions per connection

  const MAX_CONCURRENT := 2

  /** The module-wide counter of active executions per connection. */
  class ConnectionSlots {
    var active: map<string, nat>
    ghost var running: multiset<string>

    /** Every counter is the number of executions the connection really has, and at most two. */
    ghost predicate Valid() reads this {
      forall c: string :: (if c in active then active[c] else 0) == running[c] && running[c] <= MAX_CONCURRENT
    }

    constructor ()
      ensures Valid() && running == multiset{}
    {
      active, running := map[], multiset{};
    }

    method Enter(connection: string) returns (admitted: bool)
      requires Valid()
      modifies this
      ensures Valid()
      ensures admitted <==> old(running)[connection] < MAX_CONCURRENT
      ensures running == if admitted then old(running) + multiset{connection} else old(running)
    {
      var count := if connection in active then active[connection] else 0;
      if count >= MAX_CONCURRENT {
        return false;
      }
      active, running := active[connection := count + 1], running + multiset{connection};
      return true;
    }

    method Leave(connection: string)
      requires Valid() && connection in running
      modifies this
      ensures Valid() && running == old(running) - multiset{connection}
    {
      var count := if connection in active then active[connection] else 1;
      active := active[connection := if count - 1 > 0 then count - 1 else 0];
      running := running - multiset{connection};
    }
  }
}
