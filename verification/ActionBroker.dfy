/** The broker object: fields changed in place under its lock, each operation proved against its specification. */
module ActionBroker {
  import opened Prelude
  import opened Actions
  import ActionLaws

  class ActionBroker {
    const policy: Policy
    var enabled: set<string>
    var active: map<string, string>
    var actions: seq<Action>
    var log: seq<Event>

    ghost function State(): Broker reads this {
      Broker(enabled, active, actions, log)
    }

    constructor (policy: Policy)
      ensures this.policy == policy && State() == Broker({}, map[], [], [])
    {
      this.policy := policy;
      enabled, active, actions, log := {}, map[], [], [];
    }

    /** The loop over the actions of the sessions that are replaced. */
    method HaltOthers(character: string, generation: string) returns (cancelled: seq<nat>)
      modifies `actions
      ensures actions == ReplaceAll(policy, old(actions), character, generation)
      ensures cancelled == SupersededIds(old(actions), character, generation, |old(actions)|)
    {
      ghost var was := actions;
      cancelled := [];
      for i := 0 to |actions|
        invariant |actions| == |was|
        invariant cancelled == SupersededIds(was, character, generation, i)
        invariant forall k | 0 <= k < i :: actions[k] == Replace(policy, was[k], character, generation)
        invariant forall k | i <= k < |was| :: actions[k] == was[k]
      {
        var a := actions[i];
        if Interruptible(policy, a) && a.character == character && a.generation != generation && a.status.Started() {
          actions := actions[i := a.(stopRequested := true)];
        }
        if Superseded(a, character, generation) {
          actions := actions[i := a.(status := Cancelled)];
          cancelled := cancelled + [i];
        }
      }
      assert actions == ReplaceAll(policy, was, character, generation);
    }

    method Admit(character: string, generation: string) returns (reply: Reply)
      modifies this
      ensures (State(), reply) == AdmitGeneration(policy, old(State()), character, generation)
      ensures ActionLaws.AdmitLaw(policy, old(State()), character, generation, State(), reply)
    {
      ActionLaws.AdmitIs(policy, State(), character, generation);
      var previous := Get(active, character);
      active := active[character := generation];
      if previous.None? || previous.value == generation {
        return Admitted(None, []);
      }
      var cancelled := HaltOthers(character, generation);
      log := log + [GenerationReplaced(character, previous.value, generation, cancelled)];
      return Admitted(previous, cancelled);
    }

    method SetExecution(character: string, generation: string, enable: bool) returns (reply: Reply)
      modifies this
      ensures (State(), reply) == Control(policy, old(State()), character, generation, enable)
      ensures ActionLaws.ControlLaw(policy, old(State()), character, generation, enable, State(), reply)
    {
      ActionLaws.ControlIs(policy, State(), character, generation, enable);
      if character !in active {
        return Refused(NoActiveGeneration);
      }
      if active[character] != generation {
        return Refused(WrongGeneration);
      }
      log := log + [if enable then ExecutionEnabled(character, generation) else KillSwitch(character, generation)];
      if enable {
        enabled := enabled + {character};
        return Switched(true);
      }
      enabled := enabled - {character};
      ghost var was := actions;
      for i := 0 to |actions|
        invariant |actions| == |was| && enabled == old(enabled) - {character} && active == old(active)
        invariant log == old(log) + [KillSwitch(character, generation)]
        invariant forall k | 0 <= k < i :: actions[k] == Halt(policy, was[k], character)
        invariant forall k | i <= k < |was| :: actions[k] == was[k]
      {
        var a := actions[i];
        if Interruptible(policy, a) && a.character == character && a.status.Started() {
          actions := actions[i := a.(stopRequested := true)];
        }
        if a.character == character && a.status.Pending() {
          actions := actions[i := a.(status := Cancelled)];
        }
      }
      assert actions == HaltAll(policy, was, character);
      return Switched(false);
    }

    method Submit(p: Proposal, now: Time) returns (reply: Reply)
      modifies this
      ensures exists e: Option<Evaluated> ::
        && (e.Some? ==> Evaluates(policy, p, e.value)) && (e.None? ==> forall v :: !Evaluates(policy, p, v))
        && (State(), reply) == Actions.Submit(policy, old(State()), p, e, now)
        && ActionLaws.SubmitLaw(policy, old(State()), p, e, now, State(), reply)
    {
      var e := EvaluateProposal(policy, p);
      ActionLaws.SubmitIs(policy, State(), p, e, now);
      ghost var was := State();
      var error := ProposalError(policy, Broker(enabled, active, actions, log), p, e, now);
      if error.Some? {
        assert (State(), Refused(error.value)) == Actions.Submit(policy, was, p, e, now);
        return Refused(error.value);
      }
      var a := NewAction(policy, Broker(enabled, active, actions, log), p, e.value, now);
      log := log + [Proposed(a.character, a.generation, a.commands, a.kind, a.status, a.room, a.expiresAt, a.controllerDeadline)];
      actions := actions + [a];
      reply := Shown(|actions| - 1, Tell(a.status));
      assert (State(), reply) == Actions.Submit(policy, was, p, e, now);
    }

    /** Replace action `id` and append the event about it. */
    method Record(id: nat, a: Action, change: Change)
      requires id < |actions|
      modifies `actions, `log
      ensures State() == Write(old(State()), id, a, change)
    {
      actions := actions[id := a];
      log := log + [Change(id, change)];
    }

    method ExpirePending(now: Time)
      modifies `actions, `log
      ensures State() == Expire(old(State()), now)
      ensures ActionLaws.OnlyExpired(old(State()), now, State())
    {
      ActionLaws.ExpireIs(State(), now);
      ghost var was := State();
      for i := 0 to |actions|
        invariant |actions| == |was.actions|
        invariant State() == ExpireFirst(was, now, i)
      {
        if Due(actions[i], now) {
          Record(i, actions[i].(status := Status.Expired), Expiry);
        }
      }
    }

    /** The loop over the actions of one client, after expiry. */
    method Scan(context: Context) returns (reply: Reply)
      modifies `actions, `log
      ensures (State(), reply) == PollFrom(old(State()), context, 0)
    {
      ghost var expired := State();
      var i := 0;
      while i < |actions|
        invariant 0 <= i <= |actions|
        invariant PollFrom(State(), context, i) == PollFrom(expired, context, 0)
        decreases |actions| - i
      {
        var a := actions[i];
        if a.character == context.character && a.generation == context.generation {
          if a.status.ConfirmationRequired? && !a.notified {
            Record(i, a.(notified := true), ConfirmationRequested);
            return Shown(i, Confirm);
          }
          if a.status.Queued? {
            if a.room.Some? && a.room.value != context.room {
              Record(i, a.(status := DeniedStaleRoom), Denied(false));
            } else {
              Record(i, a.(status := Status.Dispatched), Delivered(context.room));
              return Shown(i, Execute);
            }
          }
        }
        i := i + 1;
      }
      return Quiet;
    }

    method NextInstruction(context: Context, now: Time) returns (reply: Reply)
      modifies `actions, `log
      ensures (State(), reply) == Poll(old(State()), context, now)
      ensures ActionLaws.PollLaw(old(State()), context, now, State(), reply)
    {
      ActionLaws.PollIs(State(), context, now);
      ExpirePending(now);
      if context.character !in active {
        return Refused(NoActiveGeneration);
      }
      if active[context.character] != context.generation {
        return Refused(WrongGeneration);
      }
      if context.character !in enabled {
        return Quiet;
      }
      reply := Scan(context);
    }

    method Approve(approval: Approval, now: Time) returns (reply: Reply)
      modifies `actions, `log
      ensures (State(), reply) == Actions.Approve(old(State()), approval, now)
      ensures ActionLaws.ApproveLaw(old(State()), approval, now, State(), reply)
    {
      ActionLaws.ApproveIs(State(), approval, now);
      ExpirePending(now);
      if approval.id >= |actions| {
        return Refused(NotFound);
      }
      var a := actions[approval.id];
      if a.character != approval.character {
        return Refused(NotOwner);
      }
      if approval.character !in active {
        return Refused(NoActiveGeneration);
      }
      if active[approval.character] != approval.generation {
        return Refused(WrongGeneration);
      }
      if a.generation != approval.generation {
        return Refused(OtherGeneration);
      }
      if !a.status.ConfirmationRequired? {
        return Refused(NotAwaitingConfirmation);
      }
      if a.room.Some? && a.room.value != approval.room {
        Record(approval.id, a.(status := DeniedStaleRoom), Denied(true));
        return Refused(RoomChanged);
      }
      Record(approval.id, a.(room := Some(approval.room), status := Queued), Approved(approval.room));
      return Shown(approval.id, Tell(Queued));
    }

    method RecordResult(result: ActionResult) returns (reply: Reply)
      modifies `actions, `log
      ensures (State(), reply) == Actions.RecordResult(old(State()), result)
      ensures ActionLaws.RecordLaw(old(State()), result, State(), reply)
    {
      ActionLaws.RecordIs(State(), result);
      if result.id >= |actions| {
        return Refused(NotFound);
      }
      var a := actions[result.id];
      if a.character != result.character {
        return Refused(NotOwner);
      }
      if result.character !in active {
        return Refused(NoActiveGeneration);
      }
      if active[result.character] != result.generation {
        return Refused(WrongGeneration);
      }
      if a.generation != result.generation {
        return Refused(OtherGeneration);
      }
      if !a.status.Dispatched? {
        return Refused(NotDispatched);
      }
      var completion := Completion(result.outcome);
      var status := if result.outcome.Unsuccessful? then Failed else Completed;
      a := a.(status := status, completion := Some(completion), detail := result.detail);
      Record(result.id, a, Result(result.outcome, completion, result.detail));
      return Recorded(result.id, status);
    }

    method Look(id: nat, now: Time) returns (reply: Reply)
      modifies `actions, `log
      ensures (State(), reply) == Actions.Look(old(State()), id, now)
      ensures ActionLaws.LookLaw(old(State()), id, now, State(), reply)
    {
      ActionLaws.LookIs(State(), id, now);
      ExpirePending(now);
      if id >= |actions| {
        return Refused(NotFound);
      }
      return Shown(id, Tell(actions[id].status));
    }

    method CheckOwner(owner: Owner) returns (error: Option<Error>)
      ensures error == OwnerError(State(), owner)
    {
      if owner.id >= |actions| {
        return Some(NotFound);
      }
      if actions[owner.id].character != owner.character {
        return Some(NotOwner);
      }
      if actions[owner.id].generation != owner.generation {
        return Some(OtherGeneration);
      }
      return None;
    }

    method Cancel(owner: Owner, now: Time) returns (reply: Reply)
      modifies `actions, `log
      ensures (State(), reply) == Actions.Cancel(policy, old(State()), owner, now)
      ensures ActionLaws.CancelLaw(policy, old(State()), owner, now, State(), reply)
    {
      ActionLaws.CancelIs(policy, State(), owner, now);
      var error := CheckOwner(owner);
      if error.Some? {
        return Refused(error.value);
      }
      ExpirePending(now);
      var a := actions[owner.id];
      var cancelled := a.status.Pending();
      if SingleIs(a.commands, policy.isTravel) && a.status.Dispatched? {
        Record(owner.id, a.(stopRequested := true), TravelStop);
      }
      if cancelled {
        Record(owner.id, a.(status := Cancelled), OwnerCancelled);
      }
      return Cancellation(owner.id, cancelled);
    }

    method RequestTestStop(owner: Owner, now: Time) returns (reply: Reply)
      modifies `actions, `log
      ensures (State(), reply) == Actions.RequestTestStop(old(State()), owner, now)
      ensures ActionLaws.TestStopLaw(old(State()), owner, now, State(), reply)
    {
      ActionLaws.TestStopIs(State(), owner, now);
      var error := CheckOwner(owner);
      if error.Some? {
        return Refused(error.value);
      }
      if !actions[owner.id].testRun {
        return Refused(WrongKind);
      }
      ExpirePending(now);
      var a := actions[owner.id];
      if a.status.Pending() {
        a := a.(status := Cancelled);
      } else if a.status.Started() {
        a := a.(stopRequested := true);
      }
      Record(owner.id, a, TestStop(a.status, a.stopRequested));
      return Shown(owner.id, Tell(a.status));
    }

    method RevokeControl(owner: Owner, now: Time) returns (reply: Reply)
      modifies `actions, `log
      ensures (State(), reply) == Actions.RevokeControl(old(State()), owner, now)
      ensures ActionLaws.RevokeControlLaw(old(State()), owner, now, State(), reply)
    {
      ActionLaws.RevokeControlIs(State(), owner, now);
      var error := CheckOwner(owner);
      if error.Some? {
        return Refused(error.value);
      }
      if !actions[owner.id].controllerControl {
        return Refused(WrongKind);
      }
      ExpirePending(now);
      var a := actions[owner.id];
      if a.status.Pending() {
        a := a.(status := Cancelled);
      }
      a := a.(stopRequested := true);
      Record(owner.id, a, ControlRevoked(a.status));
      return Shown(owner.id, Tell(a.status));
    }

    method RevokeRun(owner: Owner, now: Time) returns (reply: Reply)
      modifies `actions, `log
      ensures (State(), reply) == Actions.RevokeRun(old(State()), owner, now)
      ensures ActionLaws.RevokeRunLaw(old(State()), owner, now, State(), reply)
    {
      ActionLaws.RevokeRunIs(State(), owner, now);
      var error := CheckOwner(owner);
      if error.Some? {
        return Refused(error.value);
      }
      if actions[owner.id].controllerDeadline.None? {
        return Refused(WrongKind);
      }
      ExpirePending(now);
      var a := actions[owner.id];
      if a.status.Pending() {
        a := a.(status := Cancelled);
      }
      a := a.(stopRequested := true);
      Record(owner.id, a, RunRevoked(a.status));
      return Shown(owner.id, Tell(a.status));
    }

    method RequestReturn(owner: Owner, now: Time, later: Time) returns (reply: Reply)
      modifies `actions, `log
      ensures (State(), reply) == Actions.RequestReturn(policy, old(State()), owner, now, later)
      ensures ActionLaws.ReturnLaw(policy, old(State()), owner, now, later, State(), reply)
    {
      ActionLaws.ReturnIs(policy, State(), owner, now, later);
      var error := CheckOwner(owner);
      if error.Some? {
        return Refused(error.value);
      }
      if actions[owner.id].controllerDeadline.None? || !SingleIs(actions[owner.id].commands, policy.isRefugeLaunch) {
        return Refused(WrongKind);
      }
      ExpirePending(now);
      var a := actions[owner.id];
      if a.character !in active {
        return Refused(NoActiveGeneration);
      }
      if active[a.character] != a.generation {
        return Refused(WrongGeneration);
      }
      if a.stopRequested || !(a.status.Dispatched? || a.status.Completed?) || a.character !in enabled
        || (a.controllerDeadline.Some? && later >= a.controllerDeadline.value) {
        return Refused(NotAuthorized);
      }
      Record(owner.id, a.(returnRequested := true), ReturnRequested);
      return Shown(owner.id, Tell(a.status));
    }
  }
}
