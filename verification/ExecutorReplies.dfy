/**
  What reported success says about the client's own replies, over every run of the executor: each
  forwarded mutation was answered by its receipt, and no bad status was ever reported.
 */
module ExecutorReplies {
  import opened Prelude
  import opened Executor
  import opened ExecutorRuns
  import opened ExecutorLaws

  /** Step `k` is that of a forwarded mutation, for the character and operation its call named. */
  predicate StepOf(r: Request, step: Step) {
    && r.called.Known? && Mutating(r) && step.route == Some(r.called.route) && step.mutation && step.character == r.character
    && (r.called == Known(OperationStop) ==> step.operation == Some(r.operation))
  }

  /** A reply that earns the acknowledgement of this call. */
  predicate Earns(r: Request, reply: Reply) {
    if r.called == Known(OperationStop) then StopReceiptFor(reply, r.character, r.operation) else PerformReceipt(reply)
  }

  /** One of the events from `m` on, before `n`, answers call `k` with its receipt. */
  ghost predicate Answered(events: seq<Event>, m: nat, n: nat, k: nat, r: Request) {
    exists j :: m <= j < n && j < |events| && events[j].ClientReply? && events[j].id == k && Earns(r, events[j].reply)
  }

  /** Events other than the reply to a step change at most the status recorded with it. */
  lemma StepKept(x: Execution, e: Event, k: nat)
    requires Enabled(x, e) && k < |x.steps| && !(e.ClientReply? && e.id == k)
    ensures k < |After(x, e).steps|
    ensures After(x, e).steps[k] == x.steps[k].(status := After(x, e).steps[k].status)
  {
  }

  /** Every call that awaits its reply is as the bridge left it. */
  ghost predicate AllAwait(x: Execution) {
    forall i | i in x.live && x.live[i].Awaiting? :: i < |x.steps| && Awaits(x.steps[i])
  }

  lemma AwaitStays(x: Execution, e: Event, i: nat)
    requires Inv(x) && AllAwait(x) && Enabled(x, e) && i in x.live && i in After(x, e).live && After(x, e).live[i].Awaiting? && x.live[i].Awaiting?
    ensures i < |After(x, e).steps| && Awaits(After(x, e).steps[i])
  {
    if !(e.ClientReply? && e.id == i) {
      StepKept(x, e, i);
    }
  }

  lemma OnlyCallsBegin(x: Execution, e: Event)
    requires Enabled(x, e) && !e.CallMessage?
    ensures After(x, e).live.Keys <= x.live.Keys
  {
  }

  lemma CallBegins(x: Execution, now: Time, request: Option<Request>, i: nat)
    requires i !in x.live && i in OnLabCall(x, now, request).live && OnLabCall(x, now, request).live[i].Awaiting?
    ensures i < |OnLabCall(x, now, request).steps| && Awaits(OnLabCall(x, now, request).steps[i])
  {
    if request.Some? {
      var z := x.(callCount := x.callCount + 1, inFlight := x.inFlight + 1);
      BeginIs(z, request.value);
      assert OnLabCall(x, now, request) == Begin(z, request.value);
    }
  }

  lemma AwaitBegins(x: Execution, e: Event, i: nat)
    requires Enabled(x, e) && i !in x.live && i in After(x, e).live && After(x, e).live[i].Awaiting?
    ensures i < |After(x, e).steps| && Awaits(After(x, e).steps[i])
  {
    if e.CallMessage? {
      CallBegins(x, e.now, e.request, i);
    } else {
      OnlyCallsBegin(x, e);
    }
  }

  lemma AwaitsKept(x: Execution, e: Event)
    requires Inv(x) && AllAwait(x) && Enabled(x, e)
    ensures AllAwait(After(x, e))
  {
    forall i | i in After(x, e).live && After(x, e).live[i].Awaiting? ensures i < |After(x, e).steps| && Awaits(After(x, e).steps[i]) {
      if i in x.live {
        assert x.live[i].Awaiting?;
        AwaitStays(x, e, i);
      } else {
        AwaitBegins(x, e, i);
      }
    }
  }

  lemma {:induction false} RunAwaits(run: seq<Execution>, events: seq<Event>, n: nat)
    requires IsRun(run, events) && n < |run|
    ensures AllAwait(run[n])
  {
    if n > 0 {
      RunAwaits(run, events, n - 1);
      RunInv(run, events, n - 1);
      AwaitsKept(run[n - 1], events[n - 1]);
    }
  }

  /** One event, as seen from a forwarded mutation: it is acknowledged only by its own receipt. */
  lemma EarnedStep(x: Execution, e: Event, k: nat, r: Request)
    requires Inv(x) && AllAwait(x) && Enabled(x, e) && k < |x.steps| && StepOf(r, x.steps[k])
    ensures k < |After(x, e).steps| && StepOf(r, After(x, e).steps[k])
    ensures After(x, e).steps[k].dispatch.Acknowledged? ==>
      x.steps[k].dispatch.Acknowledged? || (e.ClientReply? && e.id == k && Earns(r, e.reply))
  {
    if e.ClientReply? && e.id == k {
      ReplyIs(x, k, e.reply);
    } else {
      StepKept(x, e, k);
    }
  }

  lemma EarnedNext(run: seq<Execution>, events: seq<Event>, n: nat, k: nat, r: Request)
    requires IsRun(run, events) && n < |events| && k < |run[n].steps| && StepOf(r, run[n].steps[k])
    ensures k < |run[n + 1].steps| && StepOf(r, run[n + 1].steps[k])
    ensures run[n + 1].steps[k].dispatch.Acknowledged? ==>
      run[n].steps[k].dispatch.Acknowledged? || (events[n].ClientReply? && events[n].id == k && Earns(r, events[n].reply))
  {
    RunInv(run, events, n);
    RunAwaits(run, events, n);
    EarnedStep(run[n], events[n], k, r);
  }

  lemma AnsweredMore(events: seq<Event>, m: nat, n: nat, k: nat, r: Request)
    requires m <= n < |events|
    requires Answered(events, m, n, k, r) || (events[n].ClientReply? && events[n].id == k && Earns(r, events[n].reply))
    ensures Answered(events, m, n + 1, k, r)
  {
  }

  lemma {:induction false} EarnedBy(run: seq<Execution>, events: seq<Event>, m: nat, n: nat, k: nat, r: Request)
    requires IsRun(run, events) && m <= n < |run|
    requires k < |run[m].steps| && StepOf(r, run[m].steps[k]) && !run[m].steps[k].dispatch.Acknowledged?
    ensures k < |run[n].steps| && StepOf(r, run[n].steps[k])
    ensures run[n].steps[k].dispatch.Acknowledged? ==> Answered(events, m, n, k, r)
  {
    if m < n {
      EarnedBy(run, events, m, n - 1, k, r);
      EarnedNext(run, events, n - 1, k, r);
      if run[n].steps[k].dispatch.Acknowledged? {
        AnsweredMore(events, m, n - 1, k, r);
      }
    }
  }

  /** The call message at `m` forwarded a mutation. */
  predicate Forwards(run: seq<Execution>, events: seq<Event>, m: nat)
    requires |run| == |events| + 1 && m < |events|
  {
    events[m].CallMessage? && events[m].request.Some? && Mutating(events[m].request.value) && run[m + 1].sent != run[m].sent
  }

  lemma ForwardedIsStep(x: Execution, e: Event)
    requires Inv(x) && e.CallMessage? && e.request.Some? && Mutating(e.request.value) && After(x, e).sent != x.sent
    ensures |After(x, e).steps| == |x.steps| + 1
    ensures var step := After(x, e).steps[|x.steps|]; StepOf(e.request.value, step) && step.dispatch.Unconfirmed?
  {
    ForwardedIff(x, e.now, e.request);
    var z := x.(callCount := x.callCount + 1, inFlight := x.inFlight + 1);
    BeginIs(z, e.request.value);
    assert After(x, e) == Begin(z, e.request.value);
    assert Checks(z, e.request.value, 7);
  }

  /**
    Reported success means receipts: each forwarded stop was answered for the character and the
    operation its own call named, saying whether it stopped, and each forwarded perform with an
    operation and a status.
   */
  lemma SuccessMeansReceipts(run: seq<Execution>, events: seq<Event>, m: nat, i: nat)
    requires IsRun(run, events) && m < i < |run| && Forwards(run, events, m)
    requires run[i].resolved != [] && run[i].resolved[0].outcome.success
    ensures Answered(events, m + 1, i, |run[m].steps|, events[m].request.value)
  {
    RunInv(run, events, m);
    assert Enabled(run[m], events[m]) && run[m + 1] == After(run[m], events[m]);
    ForwardedIsStep(run[m], events[m]);
    var k, r := |run[m].steps|, events[m].request.value;
    EarnedBy(run, events, m + 1, i, k, r);
    SuccessIsStrong(run, events, i, k);
  }

  /** A reply that latches: a mutation without its receipt, or a bad status of a perform or a watched operation. */
  lemma LatchingReply(run: seq<Execution>, events: seq<Event>, n: nat)
    requires IsRun(run, events) && n < |events| && events[n].ClientReply?
    requires events[n].id < |run[n].steps| && Latches(run[n].steps[events[n].id], events[n].reply)
    ensures run[n + 1].mutationFailure.Some?
  {
    RunAwaits(run, events, n);
    assert Enabled(run[n], events[n]) && run[n + 1] == After(run[n], events[n]);
    ReplyIs(run[n], events[n].id, events[n].reply);
  }

  /** So no bad status was reported, and no mutation answered without its receipt, in a run that reports success. */
  lemma SuccessMeansNoFailure(run: seq<Execution>, events: seq<Event>, n: nat, i: nat)
    requires IsRun(run, events) && n < i < |run| && events[n].ClientReply? && events[n].id < |run[n].steps|
    requires run[i].resolved != [] && run[i].resolved[0].outcome.success
    ensures !Latches(run[n].steps[events[n].id], events[n].reply)
  {
    if Latches(run[n].steps[events[n].id], events[n].reply) {
      LatchingReply(run, events, n);
      FirstFailureStays(run, events, n + 1, i);
      RunInv(run, events, i);
    }
  }

  /** And the converse: a reply without its receipt leaves the mutation in error and unacknowledged, latches, and fails the execution. */
  lemma NoReceiptFails(run: seq<Execution>, events: seq<Event>, m: nat, n: nat, i: nat)
    requires IsRun(run, events) && m < n < i < |run| && Forwards(run, events, m)
    requires events[n].ClientReply? && events[n].id == |run[m].steps| && !Earns(events[m].request.value, events[n].reply)
    ensures |run[m].steps| < |run[n + 1].steps|
    ensures var step := run[n + 1].steps[|run[m].steps|]; step.error.Some? && !step.success && !step.dispatch.Acknowledged?
    ensures run[n + 1].mutationFailure.Some?
    ensures run[i].resolved != [] ==> !run[i].resolved[0].outcome.success
  {
    RunInv(run, events, m);
    assert Enabled(run[m], events[m]) && run[m + 1] == After(run[m], events[m]);
    ForwardedIsStep(run[m], events[m]);
    var k, r := |run[m].steps|, events[m].request.value;
    EarnedBy(run, events, m + 1, n, k, r);
    RunAwaits(run, events, n);
    assert Enabled(run[n], events[n]) && run[n + 1] == After(run[n], events[n]);
    ReplyIs(run[n], k, events[n].reply);
    if run[i].resolved != [] && run[i].resolved[0].outcome.success {
      SuccessMeansNoFailure(run, events, n, i);
    }
  }
}
