/**
  What each operation of the action broker does, stated on the fields alone: which requests are
  refused and why, which actions change and to what, and what is logged. The functions of `Actions`
  and the methods of the broker are held to these laws.
 */
module ActionLaws {
  import opened Prelude
  import opened Actions

  // ------------------------------------------------------------------ sessions and expiry

  /** The session a request names is the character's current one. */
  predicate InSession(s: Broker, character: string, generation: string) {
    character in s.active && s.active[character] == generation
  }

  /** The refusal of a request that names another session, or a character without one. */
  function SessionRefusal(s: Broker, character: string): Reply {
    if character in s.active then Refused(WrongGeneration) else Refused(NoActiveGeneration)
  }

  /** Pending work whose expiry reading has come expires; nothing else does. */
  function AtTime(a: Action, now: Time): Action {
    if (a.status.ConfirmationRequired? || a.status.Queued?) && now >= a.expiresAt then a.(status := Status.Expired) else a
  }

  /** Generations, enabling and the number of actions are as before, and the log only grew. */
  predicate SameFrame(s: Broker, t: Broker) {
    t.enabled == s.enabled && t.active == s.active && |t.actions| == |s.actions| && s.log <= t.log
  }

  /** Only expiry has happened. */
  ghost predicate OnlyExpired(s: Broker, now: Time, t: Broker) {
    SameFrame(s, t) && forall i | 0 <= i < |s.actions| :: t.actions[i] == AtTime(s.actions[i], now)
  }

  /** Expiry, and action `id` became `b`, with this change logged last. */
  ghost predicate OneChange(s: Broker, now: Time, t: Broker, id: nat, b: Action, change: Change) {
    && SameFrame(s, t) && id < |s.actions| && t.actions[id] == b
    && (forall i | 0 <= i < |s.actions| && i != id :: t.actions[i] == AtTime(s.actions[i], now))
    && |s.log| < |t.log| && t.log[|t.log| - 1] == Change(id, change)
  }

  lemma {:induction false} ExpiresFirst(s: Broker, now: Time, n: nat)
    requires n <= |s.actions|
    ensures var t := ExpireFirst(s, now, n);
      SameFrame(s, t) && forall i | 0 <= i < n :: t.actions[i] == AtTime(s.actions[i], now)
  {
    if n > 0 {
      ExpiresFirst(s, now, n - 1);
    }
  }

  lemma ExpireIs(s: Broker, now: Time)
    ensures OnlyExpired(s, now, Expire(s, now))
  {
    ExpiresFirst(s, now, |s.actions|);
  }

  lemma WriteIs(s: Broker, now: Time, t: Broker, id: nat, b: Action, change: Change)
    requires OnlyExpired(s, now, t) && id < |s.actions|
    ensures OneChange(s, now, Write(t, id, b, change), id, b, change)
  {
  }

  // ------------------------------------------------------------------ proposals

  /** One command of a kind. */
  predicate IsOne(commands: seq<string>, test: string -> bool) {
    |commands| == 1 && test(commands[0])
  }

  predicate Ahead(d: Option<Deadline>, now: Time) {
    d.Some? && d.value.Finite? && d.value.at > now
  }

  /** What a proposal needs to be admitted, as checked in this order. */
  predicate Checks(policy: Policy, s: Broker, p: Proposal, e: Option<Evaluated>, now: Time, n: nat)
    requires n <= 7
  {
    && (n >= 1 ==> e.Some?)
    && (n >= 2 ==> p.character in s.active)
    && (n >= 3 ==> p.expectedGeneration.None? || p.expectedGeneration == Some(s.active[p.character]))
    && (n >= 4 ==> p.character in s.enabled)
    && (n >= 5 ==> IsOne(e.value.commands, policy.isControlledLaunch) ==> Ahead(p.controllerDeadline, now) && p.expectedGeneration.Some?)
    && (n >= 6 ==> !IsOne(e.value.commands, policy.isControlledLaunch) ==> p.controllerDeadline.None?)
    && (n >= 7 ==> p.deadline.None? || Ahead(p.deadline, now))
  }

  function FailedCheck(n: nat): Error {
    if n == 0 then BadCommands
    else if n == 1 then NoActiveGeneration
    else if n == 2 then ProposalGeneration
    else if n == 3 then Disabled
    else if n == 4 then BadControllerDeadline
    else if n == 5 then UnexpectedControllerDeadline
    else BadDeadline
  }

  /** The action an admitted proposal becomes: the proposal's own room, and the earlier of its two time limits. */
  predicate ActionOf(policy: Policy, s: Broker, p: Proposal, e: Evaluated, now: Time, a: Action) {
    && a.character == p.character && Get(s.active, p.character) == Some(a.generation)
    && a.commands == e.commands && a.kind == e.kind && a.room == p.room
    && a.confirmationRequired == e.confirmation
    && a.status == (if e.confirmation then ConfirmationRequired else Queued)
    && a.expiresAt <= now + p.ttl && (p.deadline.Some? && p.deadline.value.Finite? ==> a.expiresAt <= p.deadline.value.at)
    && (a.expiresAt == now + p.ttl || (p.deadline.Some? && p.deadline.value.Finite? && a.expiresAt == p.deadline.value.at))
    && a.testRun == IsOne(e.commands, policy.isTestLaunch) && a.controllerControl == IsOne(e.commands, policy.isControllerControl)
    && (p.controllerDeadline.None? ==> a.controllerDeadline.None?)
    && (p.controllerDeadline.Some? && p.controllerDeadline.value.Finite? ==> a.controllerDeadline == Some(p.controllerDeadline.value.at))
    && !a.notified && a.completion.None? && a.detail.None? && !a.stopRequested && !a.returnRequested
  }

  /** The event about a new action carries the action's own values. */
  predicate ProposalLogged(e: Event, a: Action) {
    && e.Proposed?
    && e.character == a.character && e.generation == a.generation && e.commands == a.commands && e.kind == a.kind
    && e.status == a.status && e.room == a.room && e.expiresAt == a.expiresAt && e.controllerDeadline == a.controllerDeadline
  }

  /** A proposal is refused by the first check that fails, changing nothing; else exactly its action is added and logged. */
  ghost predicate SubmitLaw(policy: Policy, s: Broker, p: Proposal, e: Option<Evaluated>, now: Time, t: Broker, reply: Reply) {
    if Checks(policy, s, p, e, now, 7) then
      && t.enabled == s.enabled && t.active == s.active
      && |t.actions| == |s.actions| + 1 && t.actions[..|s.actions|] == s.actions
      && var a := t.actions[|s.actions|];
      && ActionOf(policy, s, p, e.value, now, a)
      && |t.log| == |s.log| + 1 && t.log[..|s.log|] == s.log && ProposalLogged(t.log[|s.log|], a)
      && reply == Shown(|s.actions|, Tell(a.status))
    else
      t == s && exists n :: 0 <= n < 7 && Checks(policy, s, p, e, now, n) && !Checks(policy, s, p, e, now, n + 1) && reply == Refused(FailedCheck(n))
  }

  lemma SubmitIs(policy: Policy, s: Broker, p: Proposal, e: Option<Evaluated>, now: Time)
    ensures SubmitLaw(policy, s, p, e, now, Submit(policy, s, p, e, now).0, Submit(policy, s, p, e, now).1)
  {
    var n := if e.None? then 0
             else if p.character !in s.active then 1
             else if p.expectedGeneration.Some? && p.expectedGeneration.value != s.active[p.character] then 2
             else if p.character !in s.enabled then 3
             else if IsOne(e.value.commands, policy.isControlledLaunch) && !(Ahead(p.controllerDeadline, now) && p.expectedGeneration.Some?) then 4
             else if !IsOne(e.value.commands, policy.isControlledLaunch) && p.controllerDeadline.Some? then 5
             else 6;
    if !Checks(policy, s, p, e, now, 7) {
      assert Checks(policy, s, p, e, now, n) && !Checks(policy, s, p, e, now, n + 1);
    }
  }

  // ------------------------------------------------------------------ sessions and the kill switch

  /** Started work that keeps running and watches for a stop marker. */
  predicate Stoppable(policy: Policy, a: Action) {
    && (a.status.Dispatched? || a.status.Completed? || a.status.Failed?)
    && (a.testRun || a.controllerControl || a.controllerDeadline.Some? || IsOne(a.commands, policy.isTravel))
  }

  /** Pending work is cancelled, work that watches for it gets the stop marker, other work stays. */
  predicate Halted(policy: Policy, a: Action, b: Action) {
    && (a.status.ConfirmationRequired? || a.status.Queued? ==> b == a.(status := Cancelled))
    && (Stoppable(policy, a) ==> b == a.(stopRequested := true))
    && (!(a.status.ConfirmationRequired? || a.status.Queued?) && !Stoppable(policy, a) ==> b == a)
  }

  /** The character's actions are halted, those of the session to keep excepted; all others stay. */
  ghost predicate HaltedAll(policy: Policy, character: string, keep: Option<string>, before: seq<Action>, after: seq<Action>) {
    |after| == |before| && forall i | 0 <= i < |before| ::
      if before[i].character == character && keep != Some(before[i].generation) then Halted(policy, before[i], after[i]) else after[i] == before[i]
  }

  /** The new session is the character's; a replaced one halts the work of the others and is logged. */
  ghost predicate AdmitLaw(policy: Policy, s: Broker, character: string, generation: string, t: Broker, reply: Reply) {
    && t.enabled == s.enabled && t.active == s.active[character := generation]
    && if character in s.active && s.active[character] != generation then
         && HaltedAll(policy, character, Some(generation), s.actions, t.actions)
         && reply.Admitted? && reply.replaced == Some(s.active[character])
         && (forall i | 0 <= i < |s.actions| :: i in reply.cancelled <==>
               && s.actions[i].character == character && s.actions[i].generation != generation
               && (s.actions[i].status.ConfirmationRequired? || s.actions[i].status.Queued?))
         && t.log == s.log + [GenerationReplaced(character, s.active[character], generation, reply.cancelled)]
       else
         t.actions == s.actions && t.log == s.log && reply == Admitted(None, [])
  }

  lemma {:induction false} SupersededAre(actions: seq<Action>, character: string, generation: string, n: nat, i: nat)
    requires n <= |actions|
    ensures i in SupersededIds(actions, character, generation, n) <==>
      && i < n && actions[i].character == character && actions[i].generation != generation
      && (actions[i].status.ConfirmationRequired? || actions[i].status.Queued?)
  {
    if n > 0 {
      SupersededAre(actions, character, generation, n - 1, i);
    }
  }

  lemma AdmitIs(policy: Policy, s: Broker, character: string, generation: string)
    ensures AdmitLaw(policy, s, character, generation, AdmitGeneration(policy, s, character, generation).0, AdmitGeneration(policy, s, character, generation).1)
  {
    forall i | 0 <= i < |s.actions|
      ensures i in SupersededIds(s.actions, character, generation, |s.actions|) <==>
        && s.actions[i].character == character && s.actions[i].generation != generation
        && (s.actions[i].status.ConfirmationRequired? || s.actions[i].status.Queued?)
    {
      SupersededAre(s.actions, character, generation, |s.actions|, i);
    }
  }

  /** Only the current session can switch; switching off halts the character's work. */
  ghost predicate ControlLaw(policy: Policy, s: Broker, character: string, generation: string, enabled: bool, t: Broker, reply: Reply) {
    if !InSession(s, character, generation) then t == s && reply == SessionRefusal(s, character)
    else
      && t.active == s.active && reply == Switched(enabled)
      && if enabled then
           t.enabled == s.enabled + {character} && t.actions == s.actions && t.log == s.log + [ExecutionEnabled(character, generation)]
         else
           && t.enabled == s.enabled - {character} && t.log == s.log + [KillSwitch(character, generation)]
           && HaltedAll(policy, character, None, s.actions, t.actions)
  }

  lemma ControlIs(policy: Policy, s: Broker, character: string, generation: string, enabled: bool)
    ensures ControlLaw(policy, s, character, generation, enabled, Control(policy, s, character, generation, enabled).0, Control(policy, s, character, generation, enabled).1)
  {
  }

  // ------------------------------------------------------------------ delivery

  predicate Ours(a: Action, context: Context) {
    a.character == context.character && a.generation == context.generation
  }

  /** Due a notice: it waits for confirmation and nobody was told. */
  predicate DueNotice(a: Action, context: Context) {
    Ours(a, context) && a.status.ConfirmationRequired? && !a.notified
  }

  /** Queued for the room the client is in, or for any room. */
  predicate DueDelivery(a: Action, context: Context) {
    Ours(a, context) && a.status.Queued? && (a.room.None? || a.room.value == context.room)
  }

  predicate Misplaced(a: Action, context: Context) {
    Ours(a, context) && a.status.Queued? && a.room.Some? && a.room.value != context.room
  }

  predicate DueAny(a: Action, context: Context) {
    DueNotice(a, context) || DueDelivery(a, context)
  }

  function Passed(a: Action, context: Context): Action {
    if Misplaced(a, context) then a.(status := DeniedStaleRoom) else a
  }

  function Handed(a: Action): Action {
    if a.status.Queued? then a.(status := Status.Dispatched) else a.(notified := true)
  }

  /** From action `i` on: the first one due is told or delivered, those before it in a wrong room are denied, the rest stay. */
  ghost predicate Scanned(s: Broker, context: Context, i: nat, t: Broker, reply: Reply) {
    && SameFrame(s, t)
    && match reply
       case Shown(id, instruction) =>
         && i <= id < |s.actions| && DueAny(s.actions[id], context)
         && instruction == (if s.actions[id].status.Queued? then Execute else Confirm)
         && t.actions[id] == Handed(s.actions[id])
         && (forall k | i <= k < id :: !DueAny(s.actions[k], context) && t.actions[k] == Passed(s.actions[k], context))
         && (forall k | 0 <= k < |s.actions| && !(i <= k <= id) :: t.actions[k] == s.actions[k])
         && |t.log| > 0
         && t.log[|t.log| - 1] == Change(id, if s.actions[id].status.Queued? then Delivered(context.room) else ConfirmationRequested)
       case Quiet =>
         && (forall k | i <= k < |s.actions| :: !DueAny(s.actions[k], context) && t.actions[k] == Passed(s.actions[k], context))
         && (forall k | 0 <= k < i && k < |s.actions| :: t.actions[k] == s.actions[k])
       case _ => false
  }

  /** Passing an action that is not due. */
  lemma ScanPasses(s: Broker, x: Broker, context: Context, i: nat, t: Broker, reply: Reply)
    requires i < |s.actions| && !DueAny(s.actions[i], context)
    requires SameFrame(s, x) && x.actions == s.actions[i := Passed(s.actions[i], context)]
    requires Scanned(x, context, i + 1, t, reply)
    ensures Scanned(s, context, i, t, reply)
  {
    assert t.actions[i] == x.actions[i] == Passed(s.actions[i], context);
    assert forall k | 0 <= k < |s.actions| && k != i :: x.actions[k] == s.actions[k];
    if reply.Shown? {
      assert x.actions[reply.id] == s.actions[reply.id];
    }
  }

  lemma ScanHands(s: Broker, context: Context, i: nat, change: Change)
    requires i < |s.actions| && DueAny(s.actions[i], context)
    requires change == if s.actions[i].status.Queued? then Delivered(context.room) else ConfirmationRequested
    ensures Scanned(s, context, i, Write(s, i, Handed(s.actions[i]), change), Shown(i, if s.actions[i].status.Queued? then Execute else Confirm))
  {
  }

  lemma {:induction false} PollFromIs(s: Broker, context: Context, i: nat)
    requires i <= |s.actions|
    ensures Scanned(s, context, i, PollFrom(s, context, i).0, PollFrom(s, context, i).1)
    decreases |s.actions| - i
  {
    if i < |s.actions| {
      var a := s.actions[i];
      var (t, reply) := PollFrom(s, context, i);
      match TurnOf(a, context)
      case Skip =>
        PollFromIs(s, context, i + 1);
        ScanPasses(s, s, context, i, t, reply);
      case Notify => ScanHands(s, context, i, ConfirmationRequested);
      case Deny =>
        var x := Write(s, i, a.(status := DeniedStaleRoom), Denied(false));
        PollFromIs(x, context, i + 1);
        ScanPasses(s, x, context, i, t, reply);
      case Deliver => ScanHands(s, context, i, Delivered(context.room));
    }
  }

  /** A poll expires what is due, refuses other sessions, gives a disabled character nothing, and otherwise scans the actions. */
  ghost predicate PollLaw(s: Broker, context: Context, now: Time, t: Broker, reply: Reply) {
    if !InSession(s, context.character, context.generation) then OnlyExpired(s, now, t) && reply == SessionRefusal(s, context.character)
    else if context.character !in s.enabled then OnlyExpired(s, now, t) && reply == Quiet
    else exists u: Broker :: OnlyExpired(s, now, u) && Scanned(u, context, 0, t, reply)
  }

  lemma PollIs(s: Broker, context: Context, now: Time)
    ensures PollLaw(s, context, now, Poll(s, context, now).0, Poll(s, context, now).1)
  {
    ExpireIs(s, now);
    PollFromIs(Expire(s, now), context, 0);
  }

  // ------------------------------------------------------------------ approval and results

  /** What an approval needs, as checked in this order, of the actions after expiry. */
  predicate Approvable(s: Broker, approval: Approval, now: Time, n: nat)
    requires n <= 6
  {
    && (n >= 1 ==> approval.id < |s.actions|)
    && (n >= 2 ==> s.actions[approval.id].character == approval.character)
    && (n >= 3 ==> InSession(s, approval.character, approval.generation))
    && (n >= 4 ==> s.actions[approval.id].generation == approval.generation)
    && (n >= 5 ==> AtTime(s.actions[approval.id], now).status.ConfirmationRequired?)
    && (n >= 6 ==> s.actions[approval.id].room.None? || s.actions[approval.id].room.value == approval.room)
  }

  function ApprovalRefusal(s: Broker, approval: Approval, n: nat): Reply {
    if n == 0 then Refused(NotFound)
    else if n == 1 then Refused(NotOwner)
    else if n == 2 then SessionRefusal(s, approval.character)
    else if n == 3 then Refused(OtherGeneration)
    else if n == 4 then Refused(NotAwaitingConfirmation)
    else Refused(RoomChanged)
  }

  /** An approved action is queued for the room it was approved in; one that names another room is denied; any other refusal changes nothing. */
  ghost predicate ApproveLaw(s: Broker, approval: Approval, now: Time, t: Broker, reply: Reply) {
    if Approvable(s, approval, now, 6) then
      && OneChange(s, now, t, approval.id, s.actions[approval.id].(room := Some(approval.room), status := Queued), Approved(approval.room))
      && reply == Shown(approval.id, Tell(Queued))
    else
      exists n :: 0 <= n < 6 && Approvable(s, approval, now, n) && !Approvable(s, approval, now, n + 1)
        && reply == ApprovalRefusal(s, approval, n)
        && if n == 5 then OneChange(s, now, t, approval.id, s.actions[approval.id].(status := DeniedStaleRoom), Denied(true)) else OnlyExpired(s, now, t)
  }

  lemma ApprovedIs(s: Broker, approval: Approval, now: Time)
    requires Approvable(s, approval, now, 6)
    ensures ApproveLaw(s, approval, now, Approve(s, approval, now).0, Approve(s, approval, now).1)
  {
    ExpireIs(s, now);
    var x := Expire(s, now);
    var a := x.actions[approval.id];
    WriteIs(s, now, x, approval.id, a.(room := Some(approval.room), status := Queued), Approved(approval.room));
  }

  /** The first check that fails. */
  function FailedApproval(s: Broker, approval: Approval, now: Time): (n: nat)
    requires !Approvable(s, approval, now, 6)
    ensures n < 6 && Approvable(s, approval, now, n) && !Approvable(s, approval, now, n + 1)
  {
    if approval.id >= |s.actions| then 0
    else if s.actions[approval.id].character != approval.character then 1
    else if !InSession(s, approval.character, approval.generation) then 2
    else if s.actions[approval.id].generation != approval.generation then 3
    else if !AtTime(s.actions[approval.id], now).status.ConfirmationRequired? then 4
    else 5
  }

  lemma NotApprovedIs(s: Broker, approval: Approval, now: Time)
    requires !Approvable(s, approval, now, 6)
    ensures ApproveLaw(s, approval, now, Approve(s, approval, now).0, Approve(s, approval, now).1)
  {
    ExpireIs(s, now);
    var n, x := FailedApproval(s, approval, now), Expire(s, now);
    if n == 5 {
      WriteIs(s, now, x, approval.id, x.actions[approval.id].(status := DeniedStaleRoom), Denied(true));
    }
    assert Approve(s, approval, now).1 == ApprovalRefusal(s, approval, n);
  }

  lemma ApproveIs(s: Broker, approval: Approval, now: Time)
    ensures ApproveLaw(s, approval, now, Approve(s, approval, now).0, Approve(s, approval, now).1)
  {
    if Approvable(s, approval, now, 6) {
      ApprovedIs(s, approval, now);
    } else {
      NotApprovedIs(s, approval, now);
    }
  }

  /** What reporting a result needs, as checked in this order. */
  predicate Reportable(s: Broker, result: ActionResult, n: nat)
    requires n <= 5
  {
    && (n >= 1 ==> result.id < |s.actions|)
    && (n >= 2 ==> s.actions[result.id].character == result.character)
    && (n >= 3 ==> InSession(s, result.character, result.generation))
    && (n >= 4 ==> s.actions[result.id].generation == result.generation)
    && (n >= 5 ==> s.actions[result.id].status.Dispatched?)
  }

  function ReportRefusal(s: Broker, result: ActionResult, n: nat): Reply {
    if n == 0 then Refused(NotFound)
    else if n == 1 then Refused(NotOwner)
    else if n == 2 then SessionRefusal(s, result.character)
    else if n == 3 then Refused(OtherGeneration)
    else Refused(NotDispatched)
  }

  /** The action a reported result leaves: failed or completed, with what is known of its success and the detail reported. */
  predicate Finished(a: Action, result: ActionResult, b: Action) {
    && b == a.(status := b.status, completion := b.completion, detail := result.detail)
    && (result.outcome.Unsuccessful? ==> b.status == Failed && b.completion == Some("failed"))
    && (result.outcome.Succeeded? ==> b.status == Completed && b.completion == Some("succeeded"))
    && (result.outcome.Sent? ==> b.status == Completed && b.completion == Some("sent_unverified"))
  }

  ghost predicate RecordLaw(s: Broker, result: ActionResult, t: Broker, reply: Reply) {
    if Reportable(s, result, 5) then
      && t.enabled == s.enabled && t.active == s.active && |t.actions| == |s.actions|
      && (forall i | 0 <= i < |s.actions| && i != result.id :: t.actions[i] == s.actions[i])
      && var b := t.actions[result.id];
      && Finished(s.actions[result.id], result, b) && b.completion.Some?
      && t.log == s.log + [Change(result.id, Result(result.outcome, b.completion.value, result.detail))]
      && reply == Recorded(result.id, b.status)
    else
      t == s && exists n :: 0 <= n < 5 && Reportable(s, result, n) && !Reportable(s, result, n + 1) && reply == ReportRefusal(s, result, n)
  }

  lemma RecordIs(s: Broker, result: ActionResult)
    ensures RecordLaw(s, result, RecordResult(s, result).0, RecordResult(s, result).1)
  {
    var n := if result.id >= |s.actions| then 0
             else if s.actions[result.id].character != result.character then 1
             else if !InSession(s, result.character, result.generation) then 2
             else if s.actions[result.id].generation != result.generation then 3
             else 4;
    if !Reportable(s, result, 5) {
      assert Reportable(s, result, n) && !Reportable(s, result, n + 1);
    }
  }

  /** Looking expires what is due and tells the status after that. */
  ghost predicate LookLaw(s: Broker, id: nat, now: Time, t: Broker, reply: Reply) {
    OnlyExpired(s, now, t) && reply == if id < |s.actions| then Shown(id, Tell(AtTime(s.actions[id], now).status)) else Refused(NotFound)
  }

  lemma LookIs(s: Broker, id: nat, now: Time)
    ensures LookLaw(s, id, now, Look(s, id, now).0, Look(s, id, now).1)
  {
    ExpireIs(s, now);
  }

  // ------------------------------------------------------------------ what an owner may ask

  /** The owner names an action's own character and session, current or not. */
  predicate Owns(s: Broker, owner: Owner) {
    owner.id < |s.actions| && s.actions[owner.id].character == owner.character && s.actions[owner.id].generation == owner.generation
  }

  function OwnerRefusal(s: Broker, owner: Owner): Reply {
    if owner.id >= |s.actions| then Refused(NotFound)
    else if s.actions[owner.id].character != owner.character then Refused(NotOwner)
    else Refused(OtherGeneration)
  }

  /** Only the owner cancels: pending work is cancelled, dispatched travel gets the stop marker, other work stays. */
  ghost predicate CancelLaw(policy: Policy, s: Broker, owner: Owner, now: Time, t: Broker, reply: Reply) {
    if !Owns(s, owner) then t == s && reply == OwnerRefusal(s, owner)
    else
      var a := AtTime(s.actions[owner.id], now);
      if a.status.ConfirmationRequired? || a.status.Queued? then
        OneChange(s, now, t, owner.id, a.(status := Cancelled), OwnerCancelled) && reply == Cancellation(owner.id, true)
      else if a.status.Dispatched? && IsOne(a.commands, policy.isTravel) then
        OneChange(s, now, t, owner.id, a.(stopRequested := true), TravelStop) && reply == Cancellation(owner.id, false)
      else
        OnlyExpired(s, now, t) && reply == Cancellation(owner.id, false)
  }

  lemma CancelIs(policy: Policy, s: Broker, owner: Owner, now: Time)
    ensures CancelLaw(policy, s, owner, now, Cancel(policy, s, owner, now).0, Cancel(policy, s, owner, now).1)
  {
    ExpireIs(s, now);
    if Owns(s, owner) {
      var x := Expire(s, now);
      WriteIs(s, now, x, owner.id, x.actions[owner.id].(status := Cancelled), OwnerCancelled);
      WriteIs(s, now, x, owner.id, x.actions[owner.id].(stopRequested := true), TravelStop);
    }
  }

  /** Pending work is cancelled; with `mark`, or when it has started and `started` says so, it gets the stop marker. */
  predicate Stopped(a: Action, always: bool, b: Action) {
    && b == a.(status := b.status, stopRequested := b.stopRequested)
    && (if a.status.ConfirmationRequired? || a.status.Queued? then b.status == Cancelled else b.status == a.status)
    && (b.stopRequested <==> always || a.stopRequested || a.status.Dispatched? || a.status.Completed? || a.status.Failed?)
  }

  /** A registered test: pending work is cancelled, started work marked. */
  ghost predicate TestStopLaw(s: Broker, owner: Owner, now: Time, t: Broker, reply: Reply) {
    if !Owns(s, owner) then t == s && reply == OwnerRefusal(s, owner)
    else if !s.actions[owner.id].testRun then t == s && reply == Refused(WrongKind)
    else exists b: Action ::
      && Stopped(AtTime(s.actions[owner.id], now), false, b)
      && OneChange(s, now, t, owner.id, b, TestStop(b.status, b.stopRequested)) && reply == Shown(owner.id, Tell(b.status))
  }

  lemma TestStopIs(s: Broker, owner: Owner, now: Time)
    ensures TestStopLaw(s, owner, now, RequestTestStop(s, owner, now).0, RequestTestStop(s, owner, now).1)
  {
    ExpireIs(s, now);
    if Owns(s, owner) && s.actions[owner.id].testRun {
      var x := Expire(s, now);
      var a := x.actions[owner.id];
      var b := Revoked(a).(stopRequested := a.stopRequested || a.status.Started());
      WriteIs(s, now, x, owner.id, b, TestStop(b.status, b.stopRequested));
      assert Stopped(AtTime(s.actions[owner.id], now), false, b);
    }
  }

  /** A control: pending work is cancelled, and the stop marker is set in any case. */
  ghost predicate RevokeControlLaw(s: Broker, owner: Owner, now: Time, t: Broker, reply: Reply) {
    if !Owns(s, owner) then t == s && reply == OwnerRefusal(s, owner)
    else if !s.actions[owner.id].controllerControl then t == s && reply == Refused(WrongKind)
    else exists b: Action ::
      && Stopped(AtTime(s.actions[owner.id], now), true, b)
      && OneChange(s, now, t, owner.id, b, ControlRevoked(b.status)) && reply == Shown(owner.id, Tell(b.status))
  }

  lemma RevokeControlIs(s: Broker, owner: Owner, now: Time)
    ensures RevokeControlLaw(s, owner, now, RevokeControl(s, owner, now).0, RevokeControl(s, owner, now).1)
  {
    ExpireIs(s, now);
    if Owns(s, owner) && s.actions[owner.id].controllerControl {
      var x := Expire(s, now);
      var b := Revoked(x.actions[owner.id]).(stopRequested := true);
      WriteIs(s, now, x, owner.id, b, ControlRevoked(b.status));
      assert Stopped(AtTime(s.actions[owner.id], now), true, b);
    }
  }

  /** A controlled launch: the same. */
  ghost predicate RevokeRunLaw(s: Broker, owner: Owner, now: Time, t: Broker, reply: Reply) {
    if !Owns(s, owner) then t == s && reply == OwnerRefusal(s, owner)
    else if s.actions[owner.id].controllerDeadline.None? then t == s && reply == Refused(WrongKind)
    else exists b: Action ::
      && Stopped(AtTime(s.actions[owner.id], now), true, b)
      && OneChange(s, now, t, owner.id, b, RunRevoked(b.status)) && reply == Shown(owner.id, Tell(b.status))
  }

  lemma RevokeRunIs(s: Broker, owner: Owner, now: Time)
    ensures RevokeRunLaw(s, owner, now, RevokeRun(s, owner, now).0, RevokeRun(s, owner, now).1)
  {
    ExpireIs(s, now);
    if Owns(s, owner) && s.actions[owner.id].controllerDeadline.Some? {
      var x := Expire(s, now);
      var b := Revoked(x.actions[owner.id]).(stopRequested := true);
      WriteIs(s, now, x, owner.id, b, RunRevoked(b.status));
      assert Stopped(AtTime(s.actions[owner.id], now), true, b);
    }
  }

  /** A refuge launch may still return: it is under way, unstopped, enabled, current and before its deadline. */
  predicate MayReturn(s: Broker, a: Action, later: Time) {
    && !a.stopRequested && (a.status.Dispatched? || a.status.Completed?) && a.character in s.enabled
    && a.controllerDeadline.Some? && later < a.controllerDeadline.value
  }

  ghost predicate ReturnLaw(policy: Policy, s: Broker, owner: Owner, now: Time, later: Time, t: Broker, reply: Reply) {
    if !Owns(s, owner) then t == s && reply == OwnerRefusal(s, owner)
    else if s.actions[owner.id].controllerDeadline.None? || !IsOne(s.actions[owner.id].commands, policy.isRefugeLaunch) then
      t == s && reply == Refused(WrongKind)
    else
      var a := AtTime(s.actions[owner.id], now);
      if !InSession(s, owner.character, owner.generation) then OnlyExpired(s, now, t) && reply == SessionRefusal(s, owner.character)
      else if !MayReturn(s, a, later) then OnlyExpired(s, now, t) && reply == Refused(NotAuthorized)
      else OneChange(s, now, t, owner.id, a.(returnRequested := true), ReturnRequested) && reply == Shown(owner.id, Tell(a.status))
  }

  lemma ReturnIs(policy: Policy, s: Broker, owner: Owner, now: Time, later: Time)
    ensures ReturnLaw(policy, s, owner, now, later, RequestReturn(policy, s, owner, now, later).0, RequestReturn(policy, s, owner, now, later).1)
  {
    ExpireIs(s, now);
    if Owns(s, owner) {
      var x := Expire(s, now);
      WriteIs(s, now, x, owner.id, x.actions[owner.id].(returnRequested := true), ReturnRequested);
    }
  }
}
