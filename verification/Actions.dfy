/**
  The action broker of `actions.py`: admission, the kill switch, session generations, proposal,
  delivery, approval, results and the stop markers, with the audit log every operation writes.
  Characters are their casefolded keys, an action's id is its position in insertion order, and
  each clock reading is a parameter of the operation that takes it.
 */
module Actions {
  import opened Prelude

  const MAX_SEQUENCE_COMMANDS := 12
  const MAX_SEQUENCE_LENGTH := 1200

  type Time = real

  datatype Status =
    | ConfirmationRequired | Queued | Dispatched | Completed | Failed | Cancelled | Expired | DeniedStaleRoom
  {
    predicate Pending() { ConfirmationRequired? || Queued? }
    predicate Started() { Dispatched? || Completed? || Failed? }

    /** The transitions an action can make, over one step or many. */
    predicate Leads(next: Status) {
      || next == this
      || ConfirmationRequired?
      || (Queued? && !next.ConfirmationRequired?)
      || (Dispatched? && (next.Completed? || next.Failed?))
    }
  }

  datatype Action = Action(
    character: string, generation: string, commands: seq<string>, kind: string, status: Status,
    room: Option<string>, expiresAt: Time, confirmationRequired: bool, notified: bool,
    completion: Option<string>, detail: Option<string>, testRun: bool, controllerControl: bool,
    controllerDeadline: Option<Time>, stopRequested: bool, returnRequested: bool)

  datatype Decision = Decision(command: string, kind: string, confirmation: bool)

  /** The command policy, as a pure classification of command text. */
  datatype Policy = Policy(
    evaluate: string -> Option<Decision>,
    isTestLaunch: string -> bool, isControllerControl: string -> bool,
    isControlledLaunch: string -> bool, isRefugeLaunch: string -> bool, isTravel: string -> bool)

  datatype Outcome = Succeeded | Sent | Unsuccessful

  datatype Event =
    | ExecutionEnabled(character: string, generation: string)
    | KillSwitch(character: string, generation: string)
    | GenerationReplaced(character: string, previous: string, generation: string, cancelled: seq<nat>)
    | Proposed(character: string, generation: string, commands: seq<string>, kind: string, status: Status,
               room: Option<string>, expiresAt: Time, controllerDeadline: Option<Time>)
    | Change(id: nat, change: Change)

  /** The events about one action. */
  datatype Change =
    | Expiry
    | ConfirmationRequested
    | Denied(atApproval: bool)
    | Approved(approvedRoom: string)
    | Delivered(deliveredRoom: string)
    | Result(outcome: Outcome, completion: string, detail: Option<string>)
    | OwnerCancelled
    | TravelStop
    | TestStop(testStatus: Status, stop: bool)
    | ControlRevoked(controlStatus: Status)
    | RunRevoked(runStatus: Status)
    | ReturnRequested

  datatype Broker = Broker(
    enabled: set<string>, active: map<string, string>, actions: seq<Action>, log: seq<Event>)

  datatype Instruction = Confirm | Execute | Tell(status: Status)

  datatype Error =
    | NoActiveGeneration | WrongGeneration | ProposalGeneration | Disabled | BadCommands
    | BadControllerDeadline | UnexpectedControllerDeadline | BadDeadline | NotFound | NotOwner
    | OtherGeneration | NotAwaitingConfirmation | RoomChanged | NotDispatched | WrongKind | NotAuthorized

  datatype Reply =
    | Refused(error: Error)
    | Admitted(replaced: Option<string>, cancelled: seq<nat>)
    | Switched(enabled: bool)
    | Shown(id: nat, instruction: Instruction)
    | Quiet
    | Recorded(recordedId: nat, status: Status)
    | Cancellation(cancelledId: nat, wasPending: bool)

  // ------------------------------------------------------------------ policy of one proposal

  /** A deadline as an in-process caller may pass it; the second form covers booleans, text, infinities. */
  datatype Deadline = Finite(at: Time) | Unusable

  datatype Proposal = Proposal(
    character: string, command: Option<string>, commands: seq<string>, room: Option<string>,
    expectedGeneration: Option<string>, ttl: Time, deadline: Option<Deadline>, controllerDeadline: Option<Deadline>)

  datatype Evaluated = Evaluated(commands: seq<string>, kind: string, confirmation: bool)

  predicate SequenceKind(kind: string) {
    kind == "inspection" || kind == "inventory" || kind == "crafting"
  }

  /** What one step of a sequence becomes, if it is allowed there. */
  function Step(policy: Policy, command: string): Option<string> {
    match policy.evaluate(command)
    case None => None
    case Some(d) => if policy.isControllerControl(d.command) || !SequenceKind(d.kind) then None else Some(d.command)
  }

  function Total(commands: seq<string>): nat {
    if commands == [] then 0 else Total(commands[..|commands| - 1]) + |commands[|commands| - 1]|
  }

  /** The policy turns a step into this command, of a kind that may be part of a sequence. */
  predicate StepAllowed(policy: Policy, command: string, normalized: string) {
    match policy.evaluate(command)
    case None => false
    case Some(d) =>
      && d.command == normalized && !policy.isControllerControl(d.command)
      && (d.kind == "inspection" || d.kind == "inventory" || d.kind == "crafting")
  }

  lemma StepIff(policy: Policy, command: string, normalized: string)
    ensures Step(policy, command) == Some(normalized) <==> StepAllowed(policy, command, normalized)
  {
  }

  function Joined(commands: seq<string>): string {
    if commands == [] then "" else commands[0] + Joined(commands[1..])
  }

  lemma {:induction false} JoinedMore(commands: seq<string>, command: string)
    ensures |Joined(commands + [command])| == |Joined(commands)| + |command|
  {
    if commands == [] {
      assert (commands + [command])[1..] == commands;
    } else {
      assert (commands + [command])[1..] == commands[1..] + [command];
      JoinedMore(commands[1..], command);
    }
  }

  /** The length of a sequence of commands is that of the commands joined. */
  lemma {:induction false} TotalIsJoined(commands: seq<string>)
    ensures Total(commands) == |Joined(commands)|
  {
    if commands != [] {
      var n := |commands| - 1;
      TotalIsJoined(commands[..n]);
      JoinedMore(commands[..n], commands[n]);
      assert commands[..n] + [commands[n]] == commands;
    }
  }

  /** `normalized` is what an admissible proposal evaluates to. */
  ghost predicate Evaluates(policy: Policy, p: Proposal, e: Evaluated) {
    if p.command.Some? then
      && p.commands == []
      && (exists d :: policy.evaluate(p.command.value) == Some(d) && e == Evaluated([d.command], d.kind, d.confirmation))
    else
      && 2 <= |p.commands| <= 12
      && |e.commands| == |p.commands| && e.kind == "sequence" && e.confirmation
      && (forall i | 0 <= i < |p.commands| :: StepAllowed(policy, p.commands[i], e.commands[i]))
      && |Joined(e.commands)| <= 1200
  }

  method EvaluateProposal(policy: Policy, p: Proposal) returns (r: Option<Evaluated>)
    ensures r.Some? ==> Evaluates(policy, p, r.value)
    ensures r.None? ==> forall e :: !Evaluates(policy, p, e)
  {
    if p.command.Some? == (p.commands != []) {
      return None;
    }
    if p.command.Some? {
      match policy.evaluate(p.command.value) {
        case None => return None;
        case Some(d) => return Some(Evaluated([d.command], d.kind, d.confirmation));
      }
    }
    if !(2 <= |p.commands| <= MAX_SEQUENCE_COMMANDS) {
      return None;
    }
    var normalized: seq<string>, total := [], 0;
    for i := 0 to |p.commands|
      invariant |normalized| == i && total == Total(normalized)
      invariant forall j | 0 <= j < i :: StepAllowed(policy, p.commands[j], normalized[j])
    {
      var step := Step(policy, p.commands[i]);
      if step.None? {
        forall c: string ensures !StepAllowed(policy, p.commands[i], c) { StepIff(policy, p.commands[i], c); }
        return None;
      }
      assert (normalized + [step.value])[..i] == normalized;
      StepIff(policy, p.commands[i], step.value);
      normalized, total := normalized + [step.value], total + |step.value|;
    }
    TotalIsJoined(normalized);
    if total > MAX_SEQUENCE_LENGTH {
      forall e: Evaluated | |e.commands| == |p.commands| && forall i | 0 <= i < |p.commands| :: StepAllowed(policy, p.commands[i], e.commands[i])
        ensures e.commands == normalized
      {
        OnlyNormalized(policy, p.commands, normalized, e.commands);
      }
      return None;
    }
    return Some(Evaluated(normalized, "sequence", true));
  }

  lemma OnlyNormalized(policy: Policy, commands: seq<string>, a: seq<string>, b: seq<string>)
    requires |a| == |b| == |commands|
    requires forall i | 0 <= i < |commands| :: StepAllowed(policy, commands[i], a[i]) && StepAllowed(policy, commands[i], b[i])
    ensures a == b
  {
    assert forall i | 0 <= i < |commands| :: a[i] == b[i];
  }

  // ------------------------------------------------------------------ operations

  function SingleIs(commands: seq<string>, test: string -> bool): bool {
    |commands| == 1 && test(commands[0])
  }

  /** Work that keeps running after dispatch and observes a stop marker. */
  predicate Interruptible(policy: Policy, a: Action) {
    a.testRun || a.controllerControl || a.controllerDeadline.Some? || SingleIs(a.commands, policy.isTravel)
  }

  function Write(s: Broker, id: nat, a: Action, change: Change): Broker
    requires id < |s.actions|
  {
    s.(actions := s.actions[id := a], log := s.log + [Change(id, change)])
  }

  /** Why a session generation is not the authoritative one. */
  function SessionError(s: Broker, character: string, generation: string): Option<Error> {
    if character !in s.active then Some(NoActiveGeneration)
    else if s.active[character] != generation then Some(WrongGeneration)
    else None
  }

  predicate Due(a: Action, now: Time) {
    a.status.Pending() && now >= a.expiresAt
  }

  function ExpireOne(s: Broker, now: Time, i: nat): Broker
    requires i < |s.actions|
  {
    if Due(s.actions[i], now) then Write(s, i, s.actions[i].(status := Status.Expired), Expiry) else s
  }

  /** `_expire_locked` over the first `n` actions. */
  function ExpireFirst(s: Broker, now: Time, n: nat): (t: Broker)
    requires n <= |s.actions|
    ensures |t.actions| == |s.actions| && t.enabled == s.enabled && t.active == s.active
    ensures forall i | n <= i < |s.actions| :: t.actions[i] == s.actions[i]
  {
    if n == 0 then s else ExpireOne(ExpireFirst(s, now, n - 1), now, n - 1)
  }

  function Expire(s: Broker, now: Time): (t: Broker)
    ensures |t.actions| == |s.actions| && t.enabled == s.enabled && t.active == s.active
  {
    ExpireFirst(s, now, |s.actions|)
  }

  /** The kill switch on one action. */
  function Halt(policy: Policy, a: Action, character: string): Action {
    if a.character != character then a
    else if a.status.Pending() then a.(status := Cancelled)
    else if a.status.Started() && Interruptible(policy, a) then a.(stopRequested := true)
    else a
  }

  /** The arrival of another session generation, on one action. */
  function Replace(policy: Policy, a: Action, character: string, generation: string): Action {
    if a.generation == generation then a else Halt(policy, a, character)
  }

  predicate Superseded(a: Action, character: string, generation: string) {
    a.character == character && a.generation != generation && a.status.Pending()
  }

  function SupersededIds(actions: seq<Action>, character: string, generation: string, n: nat): seq<nat>
    requires n <= |actions|
  {
    if n == 0 then []
    else
      SupersededIds(actions, character, generation, n - 1)
      + (if Superseded(actions[n - 1], character, generation) then [n - 1] else [])
  }

  function HaltAll(policy: Policy, actions: seq<Action>, character: string): seq<Action> {
    seq(|actions|, i requires 0 <= i < |actions| => Halt(policy, actions[i], character))
  }

  function ReplaceAll(policy: Policy, actions: seq<Action>, character: string, generation: string): seq<Action> {
    seq(|actions|, i requires 0 <= i < |actions| => Replace(policy, actions[i], character, generation))
  }

  function AdmitGeneration(policy: Policy, s: Broker, character: string, generation: string): (Broker, Reply) {
    var previous := Get(s.active, character);
    var t := s.(active := s.active[character := generation]);
    if previous.None? || previous.value == generation then (t, Admitted(None, []))
    else
      var cancelled := SupersededIds(s.actions, character, generation, |s.actions|);
      (t.(actions := ReplaceAll(policy, s.actions, character, generation),
          log := s.log + [GenerationReplaced(character, previous.value, generation, cancelled)]),
       Admitted(previous, cancelled))
  }

  function Control(policy: Policy, s: Broker, character: string, generation: string, enabled: bool): (Broker, Reply) {
    var error := SessionError(s, character, generation);
    if error.Some? then (s, Refused(error.value))
    else if enabled then
      (s.(enabled := s.enabled + {character}, log := s.log + [ExecutionEnabled(character, generation)]), Switched(true))
    else
      (s.(enabled := s.enabled - {character}, actions := HaltAll(policy, s.actions, character),
          log := s.log + [KillSwitch(character, generation)]), Switched(false))
  }

  predicate Future(d: Option<Deadline>, now: Time) {
    d.Some? && d.value.Finite? && d.value.at > now
  }

  /** The reason a proposal is not admitted, in the order the checks are made. */
  function ProposalError(policy: Policy, s: Broker, p: Proposal, e: Option<Evaluated>, now: Time): Option<Error> {
    if e.None? then Some(BadCommands)
    else if p.character !in s.active then Some(NoActiveGeneration)
    else if p.expectedGeneration.Some? && p.expectedGeneration.value != s.active[p.character] then Some(ProposalGeneration)
    else if p.character !in s.enabled then Some(Disabled)
    else if SingleIs(e.value.commands, policy.isControlledLaunch)
      && !(Future(p.controllerDeadline, now) && p.expectedGeneration.Some?) then Some(BadControllerDeadline)
    else if !SingleIs(e.value.commands, policy.isControlledLaunch) && p.controllerDeadline.Some? then Some(UnexpectedControllerDeadline)
    else if p.deadline.Some? && !Future(p.deadline, now) then Some(BadDeadline)
    else None
  }

  function NewAction(policy: Policy, s: Broker, p: Proposal, e: Evaluated, now: Time): Action
    requires ProposalError(policy, s, p, Some(e), now).None?
  {
    var expiry := now + p.ttl;
    Action(p.character, s.active[p.character], e.commands, e.kind,
           if e.confirmation then ConfirmationRequired else Queued, p.room,
           if p.deadline.Some? && p.deadline.value.at < expiry then p.deadline.value.at else expiry,
           e.confirmation, false, None, None,
           SingleIs(e.commands, policy.isTestLaunch), SingleIs(e.commands, policy.isControllerControl),
           if p.controllerDeadline.Some? then Some(p.controllerDeadline.value.at) else None, false, false)
  }

  function Submit(policy: Policy, s: Broker, p: Proposal, e: Option<Evaluated>, now: Time): (Broker, Reply) {
    var error := ProposalError(policy, s, p, e, now);
    if error.Some? then (s, Refused(error.value))
    else
      var a := NewAction(policy, s, p, e.value, now);
      (s.(actions := s.actions + [a],
          log := s.log + [Proposed(a.character, a.generation, a.commands, a.kind, a.status, a.room, a.expiresAt, a.controllerDeadline)]),
       Shown(|s.actions|, Tell(a.status)))
  }

  datatype Context = Context(character: string, room: string, generation: string)

  /** What the delivery loop does with one action. */
  datatype Turn = Skip | Notify | Deny | Deliver

  function TurnOf(a: Action, context: Context): Turn {
    if a.character != context.character || a.generation != context.generation then Skip
    else if a.status.ConfirmationRequired? && !a.notified then Notify
    else if !a.status.Queued? then Skip
    else if a.room.Some? && a.room.value != context.room then Deny
    else Deliver
  }

  /** The delivery loop from action `i` on. */
  function PollFrom(s: Broker, context: Context, i: nat): (Broker, Reply)
    requires i <= |s.actions|
    decreases |s.actions| - i
  {
    if i == |s.actions| then (s, Quiet)
    else
      var a := s.actions[i];
      match TurnOf(a, context)
      case Skip => PollFrom(s, context, i + 1)
      case Notify => (Write(s, i, a.(notified := true), ConfirmationRequested), Shown(i, Confirm))
      case Deny => PollFrom(Write(s, i, a.(status := DeniedStaleRoom), Denied(false)), context, i + 1)
      case Deliver => (Write(s, i, a.(status := Status.Dispatched), Delivered(context.room)), Shown(i, Execute))
  }

  function Poll(s: Broker, context: Context, now: Time): (Broker, Reply) {
    var t := Expire(s, now);
    var error := SessionError(t, context.character, context.generation);
    if error.Some? then (t, Refused(error.value))
    else if context.character !in t.enabled then (t, Quiet)
    else PollFrom(t, context, 0)
  }

  datatype Approval = Approval(id: nat, character: string, room: string, generation: string)

  function Approve(s: Broker, approval: Approval, now: Time): (Broker, Reply) {
    var t := Expire(s, now);
    if approval.id >= |t.actions| then (t, Refused(NotFound))
    else
      var a := t.actions[approval.id];
      var error := SessionError(t, approval.character, approval.generation);
      if a.character != approval.character then (t, Refused(NotOwner))
      else if error.Some? then (t, Refused(error.value))
      else if a.generation != approval.generation then (t, Refused(OtherGeneration))
      else if !a.status.ConfirmationRequired? then (t, Refused(NotAwaitingConfirmation))
      else if a.room.Some? && a.room.value != approval.room then
        (Write(t, approval.id, a.(status := DeniedStaleRoom), Denied(true)), Refused(RoomChanged))
      else
        (Write(t, approval.id, a.(room := Some(approval.room), status := Queued), Approved(approval.room)),
         Shown(approval.id, Tell(Queued)))
  }

  datatype ActionResult = ActionResult(id: nat, character: string, generation: string, outcome: Outcome, detail: Option<string>)

  function Completion(outcome: Outcome): string {
    match outcome
    case Unsuccessful => "failed"
    case Succeeded => "succeeded"
    case Sent => "sent_unverified"
  }

  function RecordResult(s: Broker, result: ActionResult): (Broker, Reply) {
    if result.id >= |s.actions| then (s, Refused(NotFound))
    else
      var a := s.actions[result.id];
      var error := SessionError(s, result.character, result.generation);
      if a.character != result.character then (s, Refused(NotOwner))
      else if error.Some? then (s, Refused(error.value))
      else if a.generation != result.generation then (s, Refused(OtherGeneration))
      else if !a.status.Dispatched? then (s, Refused(NotDispatched))
      else
        var status := if result.outcome.Unsuccessful? then Failed else Completed;
        var completion := Completion(result.outcome);
        (Write(s, result.id, a.(status := status, completion := Some(completion), detail := result.detail),
               Result(result.outcome, completion, result.detail)),
         Recorded(result.id, status))
  }

  function Look(s: Broker, id: nat, now: Time): (Broker, Reply) {
    var t := Expire(s, now);
    if id >= |t.actions| then (t, Refused(NotFound)) else (t, Shown(id, Tell(t.actions[id].status)))
  }

  datatype Owner = Owner(id: nat, character: string, generation: string)

  function OwnerError(s: Broker, owner: Owner): Option<Error> {
    if owner.id >= |s.actions| then Some(NotFound)
    else if s.actions[owner.id].character != owner.character then Some(NotOwner)
    else if s.actions[owner.id].generation != owner.generation then Some(OtherGeneration)
    else None
  }

  function Cancel(policy: Policy, s: Broker, owner: Owner, now: Time): (Broker, Reply) {
    var error := OwnerError(s, owner);
    if error.Some? then (s, Refused(error.value))
    else
      var t := Expire(s, now);
      var a := t.actions[owner.id];
      if a.status.Pending() then
        (Write(t, owner.id, a.(status := Cancelled), OwnerCancelled), Cancellation(owner.id, true))
      else if SingleIs(a.commands, policy.isTravel) && a.status.Dispatched? then
        (Write(t, owner.id, a.(stopRequested := true), TravelStop), Cancellation(owner.id, false))
      else (t, Cancellation(owner.id, false))
  }

  function Revoked(a: Action): Action {
    a.(status := if a.status.Pending() then Cancelled else a.status)
  }

  function RequestTestStop(s: Broker, owner: Owner, now: Time): (Broker, Reply) {
    var error := OwnerError(s, owner);
    if error.Some? then (s, Refused(error.value))
    else if !s.actions[owner.id].testRun then (s, Refused(WrongKind))
    else
      var t := Expire(s, now);
      var a := t.actions[owner.id];
      var b := Revoked(a).(stopRequested := a.stopRequested || a.status.Started());
      (Write(t, owner.id, b, TestStop(b.status, b.stopRequested)), Shown(owner.id, Tell(b.status)))
  }

  function RevokeControl(s: Broker, owner: Owner, now: Time): (Broker, Reply) {
    var error := OwnerError(s, owner);
    if error.Some? then (s, Refused(error.value))
    else if !s.actions[owner.id].controllerControl then (s, Refused(WrongKind))
    else
      var t := Expire(s, now);
      var b := Revoked(t.actions[owner.id]).(stopRequested := true);
      (Write(t, owner.id, b, ControlRevoked(b.status)), Shown(owner.id, Tell(b.status)))
  }

  function RevokeRun(s: Broker, owner: Owner, now: Time): (Broker, Reply) {
    var error := OwnerError(s, owner);
    if error.Some? then (s, Refused(error.value))
    else if s.actions[owner.id].controllerDeadline.None? then (s, Refused(WrongKind))
    else
      var t := Expire(s, now);
      var b := Revoked(t.actions[owner.id]).(stopRequested := true);
      (Write(t, owner.id, b, RunRevoked(b.status)), Shown(owner.id, Tell(b.status)))
  }

  /** Two clock readings: the first expires pending actions, the second checks the launch's deadline. */
  function RequestReturn(policy: Policy, s: Broker, owner: Owner, now: Time, later: Time): (Broker, Reply) {
    var error := OwnerError(s, owner);
    if error.Some? then (s, Refused(error.value))
    else if s.actions[owner.id].controllerDeadline.None? || !SingleIs(s.actions[owner.id].commands, policy.isRefugeLaunch) then
      (s, Refused(WrongKind))
    else
      var t := Expire(s, now);
      var a := t.actions[owner.id];
      var session := SessionError(t, a.character, a.generation);
      if session.Some? then (t, Refused(session.value))
      else if a.stopRequested || !(a.status.Dispatched? || a.status.Completed?) || a.character !in t.enabled
        || (a.controllerDeadline.Some? && later >= a.controllerDeadline.value) then (t, Refused(NotAuthorized))
      else
        (Write(t, owner.id, a.(returnRequested := true), ReturnRequested), Shown(owner.id, Tell(a.status)))
  }
}
