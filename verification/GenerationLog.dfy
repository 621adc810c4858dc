/**
  How far the audit log of the action broker determines the active session generations. A
  character's first admission writes no event; every later change does, and so do the kill switch,
  enabling and proposals, which only an active generation can make.
 */
module GenerationLog {
  import opened Prelude
  import opened Actions
  import opened ActionRuns

  /** The generation an event shows to be active for a character. */
  function Shown(e: Event, c: string): Option<string> {
    match e
    case ExecutionEnabled(character, generation) => if character == c then Some(generation) else None
    case KillSwitch(character, generation) => if character == c then Some(generation) else None
    case GenerationReplaced(character, _, generation, _) => if character == c then Some(generation) else None
    case Proposed(character, generation, _, _, _, _, _, _) => if character == c then Some(generation) else None
    case Change(_, _) => None
  }

  /** The generation the last event that names a character shows. */
  function LoggedGeneration(log: seq<Event>, c: string): Option<string> {
    if log == [] then None
    else
      var last := Shown(log[|log| - 1], c);
      if last.Some? then last else LoggedGeneration(log[..|log| - 1], c)
  }

  lemma LoggedMore(log: seq<Event>, e: Event, c: string)
    ensures LoggedGeneration(log + [e], c) == if Shown(e, c).Some? then Shown(e, c) else LoggedGeneration(log, c)
  {
    assert (log + [e])[..|log|] == log;
  }

  // ------------------------------------------------------------------ what is logged is active

  /** A logged generation is the active one, and enabled characters and owners of actions are in the log. */
  ghost predicate LogAgrees(s: Broker) {
    && (forall c: string :: LoggedGeneration(s.log, c).Some? ==> Get(s.active, c) == LoggedGeneration(s.log, c))
    && (forall c: string :: c in s.enabled ==> LoggedGeneration(s.log, c).Some?)
    && (forall i | 0 <= i < |s.actions| :: LoggedGeneration(s.log, s.actions[i].character).Some?)
  }

  /** Changes to single actions only: generations, enabling and owners stay as they were. */
  ghost predicate SameOwners(s: Broker, t: Broker) {
    && t.active == s.active && t.enabled == s.enabled && |t.actions| == |s.actions|
    && (forall i | 0 <= i < |s.actions| :: t.actions[i].character == s.actions[i].character)
    && (forall c: string :: LoggedGeneration(t.log, c) == LoggedGeneration(s.log, c))
  }

  lemma SameOwnersAgree(s: Broker, t: Broker)
    requires LogAgrees(s) && SameOwners(s, t)
    ensures LogAgrees(t)
  {
    forall i | 0 <= i < |t.actions| ensures LoggedGeneration(t.log, t.actions[i].character).Some? {
      assert t.actions[i].character == s.actions[i].character;
    }
  }

  lemma WriteSame(s: Broker, t: Broker, id: nat, b: Action, change: Change)
    requires SameOwners(s, t) && id < |t.actions| && b.character == t.actions[id].character
    ensures SameOwners(s, Write(t, id, b, change))
  {
    forall c: string ensures LoggedGeneration(Write(t, id, b, change).log, c) == LoggedGeneration(s.log, c) {
      LoggedMore(t.log, Change(id, change), c);
    }
  }

  lemma {:induction false} ExpireSame(s: Broker, now: Time, n: nat)
    requires n <= |s.actions|
    ensures SameOwners(s, ExpireFirst(s, now, n))
  {
    if n > 0 {
      ExpireSame(s, now, n - 1);
      var t := ExpireFirst(s, now, n - 1);
      if Due(t.actions[n - 1], now) {
        WriteSame(s, t, n - 1, t.actions[n - 1].(status := Status.Expired), Expiry);
      }
    }
  }

  lemma {:induction false} PollFromSame(s: Broker, t: Broker, context: Context, i: nat)
    requires SameOwners(s, t) && i <= |t.actions|
    ensures SameOwners(s, PollFrom(t, context, i).0)
    decreases |t.actions| - i
  {
    if i < |t.actions| {
      var a := t.actions[i];
      match TurnOf(a, context)
      case Skip => PollFromSame(s, t, context, i + 1);
      case Notify => WriteSame(s, t, i, a.(notified := true), ConfirmationRequested);
      case Deny =>
        WriteSame(s, t, i, a.(status := DeniedStaleRoom), Denied(false));
        PollFromSame(s, Write(t, i, a.(status := DeniedStaleRoom), Denied(false)), context, i + 1);
      case Deliver => WriteSame(s, t, i, a.(status := Status.Dispatched), Delivered(context.room));
    }
  }

  /** Operations on one action, and those that only look. */
  predicate OnActions(op: Operation) {
    op.Next? || op.Confirmation? || op.Reported? || op.Inspect? || op.Owned?
  }

  lemma ApproveSame(s: Broker, approval: Approval, now: Time)
    ensures SameOwners(s, Approve(s, approval, now).0)
  {
    ExpireSame(s, now, |s.actions|);
    var t := Expire(s, now);
    if approval.id < |t.actions| {
      var a := t.actions[approval.id];
      WriteSame(s, t, approval.id, a.(status := DeniedStaleRoom), Denied(true));
      WriteSame(s, t, approval.id, a.(room := Some(approval.room), status := Queued), Approved(approval.room));
    }
  }

  lemma RecordSame(s: Broker, result: ActionResult)
    ensures SameOwners(s, RecordResult(s, result).0)
  {
    if result.id < |s.actions| {
      var a := s.actions[result.id];
      var status := if result.outcome.Unsuccessful? then Failed else Completed;
      var completion := Completion(result.outcome);
      WriteSame(s, s, result.id, a.(status := status, completion := Some(completion), detail := result.detail),
                Result(result.outcome, completion, result.detail));
    }
  }

  lemma OwnedSame(policy: Policy, s: Broker, owner: Owner, request: OwnerRequest, now: Time)
    ensures SameOwners(s, DoOwned(policy, s, owner, request, now).0)
  {
    ExpireSame(s, now, |s.actions|);
    if OwnerError(s, owner).None? {
      var t := Expire(s, now);
      var a := t.actions[owner.id];
      match request
      case CancelIt =>
        WriteSame(s, t, owner.id, a.(status := Cancelled), OwnerCancelled);
        WriteSame(s, t, owner.id, a.(stopRequested := true), TravelStop);
      case StopTest =>
        var b := Revoked(a).(stopRequested := a.stopRequested || a.status.Started());
        WriteSame(s, t, owner.id, b, TestStop(b.status, b.stopRequested));
      case RevokeIt =>
        var b := Revoked(a).(stopRequested := true);
        WriteSame(s, t, owner.id, b, ControlRevoked(b.status));
      case EndRun =>
        var b := Revoked(a).(stopRequested := true);
        WriteSame(s, t, owner.id, b, RunRevoked(b.status));
      case Return(later) =>
        WriteSame(s, t, owner.id, a.(returnRequested := true), ReturnRequested);
    }
  }

  lemma OnActionsSame(policy: Policy, s: Broker, op: Operation)
    requires OnActions(op)
    ensures SameOwners(s, Do(policy, s, op).0)
  {
    match op
    case Next(context, now) =>
      ExpireSame(s, now, |s.actions|);
      PollFromSame(s, Expire(s, now), context, 0);
    case Confirmation(approval, now) => ApproveSame(s, approval, now);
    case Reported(result) => RecordSame(s, result);
    case Inspect(id, now) => ExpireSame(s, now, |s.actions|);
    case Owned(owner, request, now) => OwnedSame(policy, s, owner, request, now);
  }

  /** An event that shows one character's generation, written with it active. */
  ghost predicate Logs(s: Broker, t: Broker, e: Event, character: string, generation: string) {
    && t.log == s.log + [e] && t.active == s.active[character := generation]
    && (forall c: string :: Shown(e, c) == if c == character then Some(generation) else None)
    && t.enabled <= s.enabled + {character} && |s.actions| <= |t.actions|
    && (forall i | 0 <= i < |t.actions| :: t.actions[i].character == if i < |s.actions| then s.actions[i].character else character)
  }

  lemma LogsAgree(s: Broker, t: Broker, e: Event, character: string, generation: string)
    requires LogAgrees(s) && Logs(s, t, e, character, generation)
    ensures LogAgrees(t)
  {
    forall c: string ensures LoggedGeneration(t.log, c) == if c == character then Some(generation) else LoggedGeneration(s.log, c) {
      LoggedMore(s.log, e, c);
    }
    forall i | 0 <= i < |t.actions| ensures LoggedGeneration(t.log, t.actions[i].character).Some? {
      assert i < |s.actions| ==> LoggedGeneration(s.log, s.actions[i].character).Some?;
    }
  }

  lemma AdmitAgrees(policy: Policy, s: Broker, character: string, generation: string)
    requires LogAgrees(s)
    ensures LogAgrees(AdmitGeneration(policy, s, character, generation).0)
  {
    var t := AdmitGeneration(policy, s, character, generation).0;
    if character in s.active && s.active[character] != generation {
      LogsAgree(s, t, t.log[|s.log|], character, generation);
    }
  }

  lemma SwitchAgrees(policy: Policy, s: Broker, character: string, generation: string, enabled: bool)
    requires LogAgrees(s)
    ensures LogAgrees(Control(policy, s, character, generation, enabled).0)
  {
    var t := Control(policy, s, character, generation, enabled).0;
    if SessionError(s, character, generation).None? {
      assert s.active[character := generation] == s.active;
      LogsAgree(s, t, t.log[|s.log|], character, generation);
    }
  }

  lemma ProposeAgrees(policy: Policy, s: Broker, p: Proposal, e: Option<Evaluated>, now: Time)
    requires LogAgrees(s)
    ensures LogAgrees(Submit(policy, s, p, e, now).0)
  {
    var t := Submit(policy, s, p, e, now).0;
    if ProposalError(policy, s, p, e, now).None? {
      var generation := s.active[p.character];
      assert s.active[p.character := generation] == s.active;
      LogsAgree(s, t, t.log[|s.log|], p.character, generation);
    }
  }

  lemma {:induction false} RunAgrees(policy: Policy, ops: seq<Operation>)
    ensures LogAgrees(Run(policy, ops))
  {
    if ops != [] {
      var s, op := Run(policy, ops[..|ops| - 1]), ops[|ops| - 1];
      RunAgrees(policy, ops[..|ops| - 1]);
      match op
      case Admit(character, generation) => AdmitAgrees(policy, s, character, generation);
      case Switch(character, generation, enabled) => SwitchAgrees(policy, s, character, generation, enabled);
      case Propose(proposal, evaluated, now) => ProposeAgrees(policy, s, proposal, evaluated, now);
      case _ =>
        OnActionsSame(policy, s, op);
        SameOwnersAgree(s, Do(policy, s, op).0);
    }
  }

  /** After any run, a generation the log shows is the active one. */
  lemma LoggedIsActive(policy: Policy, ops: seq<Operation>, c: string)
    requires LoggedGeneration(Run(policy, ops).log, c).Some?
    ensures Get(Run(policy, ops).active, c) == LoggedGeneration(Run(policy, ops).log, c)
  {
    RunAgrees(policy, ops);
  }

  // ------------------------------------------------------------------ what is not logged is open

  /** The operations without the admissions of one character. */
  function Without(ops: seq<Operation>, c: string): seq<Operation> {
    if ops == [] then []
    else
      var last := ops[|ops| - 1];
      Without(ops[..|ops| - 1], c) + (if Admits(last, c) then [] else [last])
  }

  /** The same state, in which a character was never admitted. */
  function Unadmitted(s: Broker, c: string): Broker {
    s.(active := s.active - {c})
  }

  /** A character is neither enabled nor the owner of an action. */
  ghost predicate Idle(s: Broker, c: string) {
    c !in s.enabled && forall i | 0 <= i < |s.actions| :: s.actions[i].character != c
  }

  lemma {:induction false} LoggedInPrefix(log: seq<Event>, more: seq<Event>, c: string)
    requires log <= more && LoggedGeneration(more, c).None?
    ensures LoggedGeneration(log, c).None?
    decreases |more|
  {
    if |log| < |more| {
      LoggedInPrefix(log, more[..|more| - 1], c);
    } else {
      assert log == more;
    }
  }

  lemma {:induction false} ExpireUnadmitted(s: Broker, c: string, now: Time, n: nat)
    requires n <= |s.actions|
    ensures ExpireFirst(Unadmitted(s, c), now, n) == Unadmitted(ExpireFirst(s, now, n), c)
  {
    if n > 0 {
      ExpireUnadmitted(s, c, now, n - 1);
    }
  }

  lemma {:induction false} PollFromUnadmitted(s: Broker, c: string, context: Context, i: nat)
    requires i <= |s.actions|
    ensures PollFrom(Unadmitted(s, c), context, i).0 == Unadmitted(PollFrom(s, context, i).0, c)
    decreases |s.actions| - i
  {
    if i < |s.actions| {
      var a := s.actions[i];
      match TurnOf(a, context)
      case Skip => PollFromUnadmitted(s, c, context, i + 1);
      case Notify =>
      case Deny => PollFromUnadmitted(Write(s, i, a.(status := DeniedStaleRoom), Denied(false)), c, context, i + 1);
      case Deliver =>
    }
  }

  /** Expiry leaves an idle character idle. */
  lemma ExpireIdle(s: Broker, c: string, now: Time)
    requires Idle(s, c)
    ensures Idle(Expire(s, now), c)
    ensures Expire(Unadmitted(s, c), now) == Unadmitted(Expire(s, now), c)
  {
    ExpireSame(s, now, |s.actions|);
    ExpireUnadmitted(s, c, now, |s.actions|);
  }

  lemma OnActionsUnadmitted(policy: Policy, s: Broker, op: Operation, c: string)
    requires OnActions(op) && Idle(s, c)
    ensures Do(policy, Unadmitted(s, c), op).0 == Unadmitted(Do(policy, s, op).0, c)
  {
    match op
    case Next(context, now) =>
      ExpireIdle(s, c, now);
      PollFromUnadmitted(Expire(s, now), c, context, 0);
    case Confirmation(approval, now) => ExpireIdle(s, c, now);
    case Reported(result) =>
    case Inspect(id, now) => ExpireIdle(s, c, now);
    case Owned(owner, request, now) => OwnedUnadmitted(policy, s, owner, request, now, c);
  }

  lemma OwnedUnadmitted(policy: Policy, s: Broker, owner: Owner, request: OwnerRequest, now: Time, c: string)
    requires Idle(s, c)
    ensures DoOwned(policy, Unadmitted(s, c), owner, request, now).0 == Unadmitted(DoOwned(policy, s, owner, request, now).0, c)
  {
    ExpireIdle(s, c, now);
  }

  lemma AdmitUnadmitted(policy: Policy, s: Broker, character: string, generation: string, c: string)
    requires LoggedGeneration(AdmitGeneration(policy, s, character, generation).0.log, c).None?
    ensures var t := AdmitGeneration(policy, s, character, generation).0;
      Unadmitted(t, c) == if character == c then Unadmitted(s, c) else AdmitGeneration(policy, Unadmitted(s, c), character, generation).0
  {
    var t := AdmitGeneration(policy, s, character, generation).0;
    if character == c {
      if character in s.active && s.active[character] != generation {
        LoggedMore(s.log, t.log[|s.log|], c);
      }
      assert t.active - {c} == s.active - {c};
    } else {
      assert t.active - {c} == (s.active - {c})[character := generation];
    }
  }

  lemma SwitchUnadmitted(policy: Policy, s: Broker, character: string, generation: string, enabled: bool, c: string)
    requires LoggedGeneration(Control(policy, s, character, generation, enabled).0.log, c).None?
    ensures Control(policy, Unadmitted(s, c), character, generation, enabled).0
         == Unadmitted(Control(policy, s, character, generation, enabled).0, c)
  {
    if character == c && SessionError(s, character, generation).None? {
      LoggedMore(s.log, Control(policy, s, character, generation, enabled).0.log[|s.log|], c);
    }
  }

  lemma ProposeUnadmitted(policy: Policy, s: Broker, p: Proposal, e: Option<Evaluated>, now: Time, c: string)
    requires LoggedGeneration(Submit(policy, s, p, e, now).0.log, c).None?
    ensures Submit(policy, Unadmitted(s, c), p, e, now).0 == Unadmitted(Submit(policy, s, p, e, now).0, c)
  {
    if p.character == c && ProposalError(policy, s, p, e, now).None? {
      LoggedMore(s.log, Submit(policy, s, p, e, now).0.log[|s.log|], c);
    }
  }

  predicate Admits(op: Operation, c: string) {
    op.Admit? && op.character == c
  }

  lemma StepUnadmitted(policy: Policy, s: Broker, op: Operation, c: string)
    requires Idle(s, c) && LoggedGeneration(Do(policy, s, op).0.log, c).None?
    ensures Unadmitted(Do(policy, s, op).0, c) == if Admits(op, c) then Unadmitted(s, c) else Do(policy, Unadmitted(s, c), op).0
  {
    match op
    case Admit(character, generation) => AdmitUnadmitted(policy, s, character, generation, c);
    case Switch(character, generation, enabled) => SwitchUnadmitted(policy, s, character, generation, enabled, c);
    case Propose(proposal, evaluated, now) => ProposeUnadmitted(policy, s, proposal, evaluated, now, c);
    case _ => OnActionsUnadmitted(policy, s, op, c);
  }

  lemma AgreesIdle(s: Broker, c: string)
    requires LogAgrees(s) && LoggedGeneration(s.log, c).None?
    ensures Idle(s, c)
  {
  }

  lemma StepLogged(policy: Policy, s: Broker, op: Operation, c: string)
    requires Inv(policy, s) && LoggedGeneration(Do(policy, s, op).0.log, c).None?
    ensures LoggedGeneration(s.log, c).None?
  {
    DoOk(policy, s, op);
    LoggedInPrefix(s.log, Do(policy, s, op).0.log, c);
  }

  lemma RunMore(policy: Policy, ops: seq<Operation>, op: Operation)
    ensures Run(policy, ops + [op]) == Do(policy, Run(policy, ops), op).0
  {
    assert (ops + [op])[..|ops|] == ops;
  }

  lemma WithoutStep(policy: Policy, s: Broker, next: Broker, op: Operation, c: string, rest: seq<Operation>)
    requires Inv(policy, s) && LogAgrees(s) && next == Do(policy, s, op).0
    requires LoggedGeneration(s.log, c).None? && LoggedGeneration(next.log, c).None?
    requires Run(policy, rest) == Unadmitted(s, c)
    ensures Run(policy, if Admits(op, c) then rest else rest + [op]) == Unadmitted(next, c)
  {
    AgreesIdle(s, c);
    StepUnadmitted(policy, s, op, c);
    if !Admits(op, c) {
      RunMore(policy, rest, op);
    }
  }

  /** A run that logs nothing about a character does the same without that character's admissions. */
  lemma {:induction false} WithoutAdmissions(policy: Policy, ops: seq<Operation>, c: string)
    requires LoggedGeneration(Run(policy, ops).log, c).None?
    ensures Run(policy, Without(ops, c)) == Unadmitted(Run(policy, ops), c)
  {
    if ops == [] {
      assert Run(policy, ops).active - {c} == map[];
    } else {
      var fewer, op := ops[..|ops| - 1], ops[|ops| - 1];
      RunInv(policy, fewer);
      RunAgrees(policy, fewer);
      StepLogged(policy, Run(policy, fewer), op, c);
      WithoutAdmissions(policy, fewer, c);
      WithoutStep(policy, Run(policy, fewer), Run(policy, ops), op, c, Without(fewer, c));
      assert Without(ops, c) == if Admits(op, c) then Without(fewer, c) else Without(fewer, c) + [op];
    }
  }

  /**
    After a run whose log shows no generation for a character, any generation at all could be
    active: another run writes the same log and makes it so.
   */
  lemma UnloggedIsUndetermined(policy: Policy, ops: seq<Operation>, c: string, g: string) returns (other: seq<Operation>)
    requires LoggedGeneration(Run(policy, ops).log, c).None?
    ensures var s, t := Run(policy, ops), Run(policy, other);
      t.log == s.log && t.actions == s.actions && t.enabled == s.enabled && t.active == s.active[c := g]
  {
    WithoutAdmissions(policy, ops, c);
    other := Without(ops, c) + [Admit(c, g)];
    RunMore(policy, Without(ops, c), Admit(c, g));
    var s := Run(policy, ops);
    assert (s.active - {c})[c := g] == s.active[c := g];
  }

  /** Every run that writes this log ends with the same active generation of a character. */
  ghost predicate Determined(policy: Policy, log: seq<Event>, c: string, generation: Option<string>) {
    forall ops: seq<Operation> | Run(policy, ops).log == log :: Get(Run(policy, ops).active, c) == generation
  }

  /**
    The log determines a character's active generation if and only if it holds a replacement, an
    enabling, a kill switch or a proposal of that character.
   */
  lemma GenerationIsLoggedIff(policy: Policy, ops: seq<Operation>, c: string)
    ensures var s := Run(policy, ops);
      Determined(policy, s.log, c, Get(s.active, c)) <==> LoggedGeneration(s.log, c).Some?
  {
    var s := Run(policy, ops);
    if LoggedGeneration(s.log, c).Some? {
      RunAgrees(policy, ops);
      forall other: seq<Operation> | Run(policy, other).log == s.log ensures Get(Run(policy, other).active, c) == Get(s.active, c) {
        RunAgrees(policy, other);
      }
    } else {
      var g := if Get(s.active, c) == Some("a") then "b" else "a";
      var other := UnloggedIsUndetermined(policy, ops, c, g);
      assert Get(Run(policy, other).active, c) == Some(g);
    }
  }
}
