/** What every run of the action broker keeps, and its audit log as the source of its state. */
module ActionRuns {
  import opened Prelude
  import opened Actions
  import ActionLaws

  // ------------------------------------------------------------------ replaying the audit log

  /** What the log determines: which characters are enabled and every field of every action. */
  datatype View = View(enabled: set<string>, actions: seq<Action>)

  function Seen(s: Broker): View {
    View(s.enabled, s.actions)
  }

  function ApplyChange(a: Action, change: Change): Action {
    match change
    case Expiry => a.(status := Status.Expired)
    case ConfirmationRequested => a.(notified := true)
    case Denied(_) => a.(status := DeniedStaleRoom)
    case Approved(room) => a.(room := Some(room), status := Queued)
    case Delivered(_) => a.(status := Status.Dispatched)
    case Result(_, completion, detail) =>
      a.(status := if completion == "failed" then Failed else Completed, completion := Some(completion), detail := detail)
    case OwnerCancelled => a.(status := Cancelled)
    case TravelStop => a.(stopRequested := true)
    case TestStop(status, stop) => a.(status := status, stopRequested := stop)
    case ControlRevoked(status) => a.(status := status, stopRequested := true)
    case RunRevoked(status) => a.(status := status, stopRequested := true)
    case ReturnRequested => a.(returnRequested := true)
  }

  /** A replaced generation: the listed actions were cancelled, started ones of the character's other generations marked. */
  function ApplyReplacement(policy: Policy, a: Action, character: string, generation: string, listed: bool): Action {
    if listed then a.(status := Cancelled)
    else if a.character == character && a.generation != generation && a.status.Started() && Interruptible(policy, a)
    then a.(stopRequested := true)
    else a
  }

  function ApplyAllReplacements(policy: Policy, actions: seq<Action>, character: string, generation: string, cancelled: seq<nat>): seq<Action> {
    seq(|actions|, i requires 0 <= i < |actions| => ApplyReplacement(policy, actions[i], character, generation, i in cancelled))
  }

  function Proposed(policy: Policy, e: Event): Action
    requires e.Proposed?
  {
    Action(e.character, e.generation, e.commands, e.kind, e.status, e.room, e.expiresAt,
           e.status.ConfirmationRequired?, false, None, None,
           SingleIs(e.commands, policy.isTestLaunch), SingleIs(e.commands, policy.isControllerControl),
           e.controllerDeadline, false, false)
  }

  function Apply(policy: Policy, v: View, e: Event): View {
    match e
    case ExecutionEnabled(character, _) => v.(enabled := v.enabled + {character})
    case KillSwitch(character, _) => View(v.enabled - {character}, HaltAll(policy, v.actions, character))
    case GenerationReplaced(character, _, generation, cancelled) =>
      v.(actions := ApplyAllReplacements(policy, v.actions, character, generation, cancelled))
    case Proposed(_, _, _, _, _, _, _, _) => v.(actions := v.actions + [Proposed(policy, e)])
    case Change(id, change) =>
      if id < |v.actions| then v.(actions := v.actions[id := ApplyChange(v.actions[id], change)]) else v
  }

  function Replay(policy: Policy, log: seq<Event>): View {
    if log == [] then View({}, []) else Apply(policy, Replay(policy, log[..|log| - 1]), log[|log| - 1])
  }

  lemma ReplayMore(policy: Policy, log: seq<Event>, e: Event)
    ensures Replay(policy, log + [e]) == Apply(policy, Replay(policy, log), e)
  {
    assert (log + [e])[..|log|] == log;
  }

  // ------------------------------------------------------------------ invariants

  /** Pending work is enabled and current; started interruptible work that is neither carries the stop marker. */
  ghost predicate Sound(policy: Policy, enabled: set<string>, active: map<string, string>, a: Action) {
    && a.character in active
    && (a.status.Pending() ==> a.character in enabled && active[a.character] == a.generation)
    && (a.status.Started() && Interruptible(policy, a) && !(a.character in enabled && active[a.character] == a.generation)
        ==> a.stopRequested)
  }

  ghost predicate AllSound(policy: Policy, s: Broker) {
    forall i | 0 <= i < |s.actions| :: Sound(policy, s.enabled, s.active, s.actions[i])
  }

  predicate IsDelivery(e: Event, id: nat) {
    e.Change? && e.id == id && e.change.Delivered?
  }

  predicate IsNotice(e: Event, id: nat) {
    e.Change? && e.id == id && e.change.ConfirmationRequested?
  }

  ghost predicate ApprovedIn(log: seq<Event>, id: nat, room: string, before: int) {
    exists j :: 0 <= j < before && j < |log| && log[j] == Change(id, Approved(room))
  }

  /** What the log says about action `id` agrees with the action. */
  ghost predicate Agrees(log: seq<Event>, id: nat, a: Action) {
    && (forall k | 0 <= k < |log| && IsDelivery(log[k], id) :: a.status.Started())
    && (forall k | 0 <= k < |log| && IsNotice(log[k], id) :: a.notified)
    && (a.confirmationRequired && a.status.Queued? ==> a.room.Some? && ApprovedIn(log, id, a.room.value, |log|))
    && (forall k | 0 <= k < |log| && IsDelivery(log[k], id) && a.confirmationRequired ::
          ApprovedIn(log, id, log[k].change.deliveredRoom, k))
  }

  ghost predicate Once(log: seq<Event>, id: nat) {
    && (forall j, k | 0 <= j < k < |log| :: !(IsDelivery(log[j], id) && IsDelivery(log[k], id)))
    && (forall j, k | 0 <= j < k < |log| :: !(IsNotice(log[j], id) && IsNotice(log[k], id)))
  }

  ghost predicate History(log: seq<Event>, actions: seq<Action>) {
    && (forall i | 0 <= i < |actions| :: Agrees(log, i, actions[i]) && Once(log, i))
    && (forall k | 0 <= k < |log| && log[k].Change? :: log[k].id < |actions|)
  }

  ghost predicate Inv(policy: Policy, s: Broker) {
    AllSound(policy, s) && History(s.log, s.actions) && Replay(policy, s.log) == Seen(s)
  }

  /** One action at an earlier and a later moment. */
  predicate Later(a: Action, b: Action) {
    && b.character == a.character && b.generation == a.generation && b.commands == a.commands && b.kind == a.kind
    && b.expiresAt == a.expiresAt && b.confirmationRequired == a.confirmationRequired
    && b.testRun == a.testRun && b.controllerControl == a.controllerControl && b.controllerDeadline == a.controllerDeadline
    && a.status.Leads(b.status)
    && (a.room.Some? || !a.status.ConfirmationRequired? ==> b.room == a.room)
    && (!a.status.Pending() && !a.status.Dispatched? ==> b.completion == a.completion && b.detail == a.detail)
    && (a.notified ==> b.notified) && (a.stopRequested ==> b.stopRequested) && (a.returnRequested ==> b.returnRequested)
  }

  ghost predicate Grown(s: Broker, t: Broker) {
    && s.log <= t.log && |s.actions| <= |t.actions|
    && (forall i | 0 <= i < |s.actions| :: Later(s.actions[i], t.actions[i]))
    && s.active.Keys <= t.active.Keys
  }

  lemma GrownTransitive(s: Broker, t: Broker, u: Broker)
    requires Grown(s, t) && Grown(t, u)
    ensures Grown(s, u)
  {
    forall i | 0 <= i < |s.actions| ensures Later(s.actions[i], u.actions[i]) {
      assert Later(s.actions[i], t.actions[i]) && Later(t.actions[i], u.actions[i]);
    }
  }

  // ------------------------------------------------------------------ one written change

  /** The change the event describes, made in a state where it is allowed. */
  ghost predicate Fits(policy: Policy, s: Broker, id: nat, b: Action, change: Change) {
    && id < |s.actions|
    && var a := s.actions[id];
    && Later(a, b) && Sound(policy, s.enabled, s.active, b) && b == ApplyChange(a, change)
    && (change.Delivered? ==> a.status.Queued? && (a.confirmationRequired ==> a.room == Some(change.deliveredRoom)))
    && (change.ConfirmationRequested? ==> !a.notified)
    && (b.status.Queued? ==> (a.status.Queued? && b.room == a.room) || (change.Approved? && b.room == Some(change.approvedRoom)))
  }

  lemma ApprovedStill(log: seq<Event>, e: Event, id: nat, room: string, before: int)
    requires ApprovedIn(log, id, room, before)
    ensures ApprovedIn(log + [e], id, room, before)
  {
    var j :| 0 <= j < before && j < |log| && log[j] == Change(id, Approved(room));
    assert (log + [e])[j] == Change(id, Approved(room));
  }

  /** An action stays in agreement with the log when the new event is not about its delivery or notice. */
  lemma AgreesStill(log: seq<Event>, e: Event, id: nat, a: Action, b: Action)
    requires Agrees(log, id, a) && Once(log, id)
    requires b.confirmationRequired == a.confirmationRequired && (a.notified ==> b.notified)
    requires a.status.Started() ==> b.status.Started()
    requires b.status.Queued? ==> a.status.Queued? && b.room == a.room
    requires !IsDelivery(e, id) && !IsNotice(e, id)
    ensures Agrees(log + [e], id, b) && Once(log + [e], id)
  {
    var more := log + [e];
    forall k | 0 <= k < |more| && IsDelivery(more[k], id) && b.confirmationRequired
      ensures ApprovedIn(more, id, more[k].change.deliveredRoom, k)
    {
      ApprovedStill(log, e, id, log[k].change.deliveredRoom, k);
    }
    if b.confirmationRequired && b.status.Queued? {
      ApprovedStill(log, e, id, a.room.value, |log|);
    }
  }

  lemma AgreesAfter(policy: Policy, s: Broker, id: nat, b: Action, change: Change)
    requires Fits(policy, s, id, b, change) && Agrees(s.log, id, s.actions[id]) && Once(s.log, id)
    ensures Agrees(s.log + [Change(id, change)], id, b) && Once(s.log + [Change(id, change)], id)
  {
    var e := Change(id, change);
    var more := s.log + [e];
    var a := s.actions[id];
    forall k | 0 <= k < |more| && IsDelivery(more[k], id) && b.confirmationRequired
      ensures ApprovedIn(more, id, more[k].change.deliveredRoom, k)
    {
      ApprovedStill(s.log, e, id, more[k].change.deliveredRoom, k);
    }
    if b.confirmationRequired && b.status.Queued? {
      if change.Approved? && b.room == Some(change.approvedRoom) {
        assert more[|s.log|] == Change(id, Approved(b.room.value));
      } else {
        ApprovedStill(s.log, e, id, a.room.value, |s.log|);
      }
    }
  }

  lemma HistoryAfter(policy: Policy, s: Broker, id: nat, b: Action, change: Change)
    requires Fits(policy, s, id, b, change) && History(s.log, s.actions)
    ensures History(s.log + [Change(id, change)], s.actions[id := b])
  {
    var e := Change(id, change);
    forall i | 0 <= i < |s.actions|
      ensures Agrees(s.log + [e], i, s.actions[id := b][i]) && Once(s.log + [e], i)
    {
      assert Agrees(s.log, i, s.actions[i]) && Once(s.log, i);
      if i == id {
        AgreesAfter(policy, s, id, b, change);
      } else {
        AgreesStill(s.log, e, i, s.actions[i], s.actions[i]);
      }
    }
  }

  lemma LaterItself(a: Action)
    ensures Later(a, a)
  {
  }

  lemma WriteOk(policy: Policy, s: Broker, id: nat, b: Action, change: Change)
    requires Inv(policy, s) && Fits(policy, s, id, b, change)
    ensures Inv(policy, Write(s, id, b, change)) && Grown(s, Write(s, id, b, change))
  {
    HistoryAfter(policy, s, id, b, change);
    ReplayMore(policy, s.log, Change(id, change));
    forall i | 0 <= i < |s.actions| ensures Later(s.actions[i], s.actions[id := b][i]) {
      LaterItself(s.actions[i]);
    }
  }

  // ------------------------------------------------------------------ expiry

  /** `t` is a sound state that grew out of `s`. */
  ghost predicate Keeps(policy: Policy, s: Broker, t: Broker) {
    Inv(policy, t) && Grown(s, t)
  }

  lemma ExpireOneOk(policy: Policy, s: Broker, t: Broker, now: Time, i: nat)
    requires Keeps(policy, s, t) && i < |t.actions|
    ensures Keeps(policy, s, ExpireOne(t, now, i))
  {
    if Due(t.actions[i], now) {
      var b := t.actions[i].(status := Status.Expired);
      assert Sound(policy, t.enabled, t.active, t.actions[i]);
      WriteOk(policy, t, i, b, Expiry);
      GrownTransitive(s, t, Write(t, i, b, Expiry));
    }
  }

  lemma GrownItself(s: Broker)
    ensures Grown(s, s)
  {
    forall i | 0 <= i < |s.actions| ensures Later(s.actions[i], s.actions[i]) {
      LaterItself(s.actions[i]);
    }
  }

  /** Whatever one expiry keeps, expiring any number of actions keeps. */
  lemma {:induction false} ExpireFirstKeeps(kept: Broker -> bool, s: Broker, now: Time, n: nat)
    requires n <= |s.actions| && kept(s)
    requires forall t: Broker, i: nat | i < |t.actions| && kept(t) :: kept(ExpireOne(t, now, i))
    ensures kept(ExpireFirst(s, now, n))
  {
    if n > 0 {
      ExpireFirstKeeps(kept, s, now, n - 1);
    }
  }

  lemma {:induction false} ExpireFirstEffect(s: Broker, now: Time, n: nat)
    requires n <= |s.actions|
    ensures forall i | 0 <= i < n :: ExpireFirst(s, now, n).actions[i] == if Due(s.actions[i], now) then s.actions[i].(status := Status.Expired) else s.actions[i]
  {
    if n > 0 {
      ExpireFirstEffect(s, now, n - 1);
    }
  }

  lemma ExpireKeeps(policy: Policy, s: Broker, now: Time)
    requires Inv(policy, s)
    ensures Keeps(policy, s, Expire(s, now))
  {
    GrownItself(s);
    forall t: Broker, i: nat | i < |t.actions| && Keeps(policy, s, t) ensures Keeps(policy, s, ExpireOne(t, now, i)) {
      ExpireOneOk(policy, s, t, now, i);
    }
    ExpireFirstKeeps(t => Keeps(policy, s, t), s, now, |s.actions|);
  }

  /** After expiry no pending action is at or past its expiry reading; nothing else moved. */
  lemma ExpireOk(policy: Policy, s: Broker, now: Time)
    requires Inv(policy, s)
    ensures Inv(policy, Expire(s, now)) && Grown(s, Expire(s, now))
    ensures forall i | 0 <= i < |s.actions| :: Expire(s, now).actions[i] == if Due(s.actions[i], now) then s.actions[i].(status := Status.Expired) else s.actions[i]
  {
    ExpireKeeps(policy, s, now);
    ExpireFirstEffect(s, now, |s.actions|);
  }

  // ------------------------------------------------------------------ bulk operations

  lemma SupersededIdsAre(actions: seq<Action>, character: string, generation: string, n: nat, i: nat)
    requires n <= |actions| && i < |actions|
    ensures i in SupersededIds(actions, character, generation, n) <==> i < n && Superseded(actions[i], character, generation)
  {
  }

  /** The listed ids let the replacement be replayed exactly. */
  lemma ReplacementReplays(policy: Policy, actions: seq<Action>, character: string, generation: string)
    ensures ApplyAllReplacements(policy, actions, character, generation, SupersededIds(actions, character, generation, |actions|))
         == ReplaceAll(policy, actions, character, generation)
  {
    var ids := SupersededIds(actions, character, generation, |actions|);
    forall i | 0 <= i < |actions|
      ensures ApplyAllReplacements(policy, actions, character, generation, ids)[i] == ReplaceAll(policy, actions, character, generation)[i]
    {
      SupersededIdsAre(actions, character, generation, |actions|, i);
    }
  }

  /** A bulk step: every action only leaves pending or gains a stop marker, and the event is about no single action. */
  ghost predicate Swept(policy: Policy, a: Action, b: Action) {
    b == a || (a.status.Pending() && b == a.(status := Cancelled)) || (Interruptible(policy, a) && b == a.(stopRequested := true))
  }

  lemma HistorySwept(policy: Policy, log: seq<Event>, e: Event, actions: seq<Action>, later: seq<Action>)
    requires History(log, actions) && !e.Change? && |later| == |actions|
    requires forall i | 0 <= i < |actions| :: Swept(policy, actions[i], later[i])
    ensures History(log + [e], later)
  {
    forall i | 0 <= i < |later| ensures Agrees(log + [e], i, later[i]) && Once(log + [e], i) {
      assert Swept(policy, actions[i], later[i]);
      AgreesStill(log, e, i, actions[i], later[i]);
    }
  }

  lemma KillOk(policy: Policy, s: Broker, character: string, generation: string)
    requires Inv(policy, s)
    ensures Inv(policy, Control(policy, s, character, generation, false).0)
    ensures Grown(s, Control(policy, s, character, generation, false).0)
  {
    var t := Control(policy, s, character, generation, false).0;
    if SessionError(s, character, generation).None? {
      HistorySwept(policy, s.log, KillSwitch(character, generation), s.actions, t.actions);
      ReplayMore(policy, s.log, KillSwitch(character, generation));
      forall i | 0 <= i < |s.actions| ensures Sound(policy, t.enabled, t.active, t.actions[i]) {
        assert Sound(policy, s.enabled, s.active, s.actions[i]);
      }
    } else {
      GrownItself(s);
    }
  }

  lemma EnableOk(policy: Policy, s: Broker, character: string, generation: string)
    requires Inv(policy, s)
    ensures Inv(policy, Control(policy, s, character, generation, true).0)
    ensures Grown(s, Control(policy, s, character, generation, true).0)
  {
    var t := Control(policy, s, character, generation, true).0;
    GrownItself(s);
    if SessionError(s, character, generation).None? {
      HistorySwept(policy, s.log, ExecutionEnabled(character, generation), s.actions, t.actions);
      ReplayMore(policy, s.log, ExecutionEnabled(character, generation));
      forall i | 0 <= i < |s.actions| ensures Sound(policy, t.enabled, t.active, t.actions[i]) {
        assert Sound(policy, s.enabled, s.active, s.actions[i]);
      }
    }
  }

  /** A session readmitted under its current generation, or admitted as a character's first one. */
  lemma ReadmitOk(policy: Policy, s: Broker, character: string, generation: string)
    requires Inv(policy, s)
    requires character in s.active ==> s.active[character] == generation
    ensures Inv(policy, s.(active := s.active[character := generation]))
    ensures Grown(s, s.(active := s.active[character := generation]))
  {
    var t := s.(active := s.active[character := generation]);
    GrownItself(s);
    forall i | 0 <= i < |s.actions| ensures Sound(policy, t.enabled, t.active, t.actions[i]) {
      assert Sound(policy, s.enabled, s.active, s.actions[i]);
    }
  }

  lemma ReplaceIsSound(policy: Policy, s: Broker, t: Broker, character: string, generation: string)
    requires AllSound(policy, s)
    requires t.enabled == s.enabled && t.active == s.active[character := generation]
    requires t.actions == ReplaceAll(policy, s.actions, character, generation)
    ensures AllSound(policy, t)
    ensures forall i | 0 <= i < |s.actions| :: Swept(policy, s.actions[i], t.actions[i]) && Later(s.actions[i], t.actions[i])
  {
    forall i | 0 <= i < |s.actions|
      ensures Sound(policy, t.enabled, t.active, t.actions[i])
      ensures Swept(policy, s.actions[i], t.actions[i]) && Later(s.actions[i], t.actions[i])
    {
      assert Sound(policy, s.enabled, s.active, s.actions[i]);
    }
  }

  lemma ReplaceOk(policy: Policy, s: Broker, character: string, generation: string)
    requires Inv(policy, s)
    requires character in s.active && s.active[character] != generation
    ensures Inv(policy, AdmitGeneration(policy, s, character, generation).0)
    ensures Grown(s, AdmitGeneration(policy, s, character, generation).0)
  {
    var ids := SupersededIds(s.actions, character, generation, |s.actions|);
    var e := GenerationReplaced(character, s.active[character], generation, ids);
    var t := s.(active := s.active[character := generation], actions := ReplaceAll(policy, s.actions, character, generation), log := s.log + [e]);
    ReplaceIsSound(policy, s, t, character, generation);
    HistorySwept(policy, s.log, e, s.actions, t.actions);
    ReplayMore(policy, s.log, e);
    ReplacementReplays(policy, s.actions, character, generation);
  }

  lemma AdmitOk(policy: Policy, s: Broker, character: string, generation: string)
    requires Inv(policy, s)
    ensures Inv(policy, AdmitGeneration(policy, s, character, generation).0)
    ensures Grown(s, AdmitGeneration(policy, s, character, generation).0)
  {
    if character in s.active && s.active[character] != generation {
      ReplaceOk(policy, s, character, generation);
    } else {
      ReadmitOk(policy, s, character, generation);
    }
  }

  // ------------------------------------------------------------------ the other operations

  lemma HistoryProposed(policy: Policy, log: seq<Event>, e: Event, actions: seq<Action>)
    requires History(log, actions) && e.Proposed? && (e.status.ConfirmationRequired? || e.status.Queued?)
    ensures History(log + [e], actions + [Proposed(policy, e)])
  {
    var more := actions + [Proposed(policy, e)];
    forall i | 0 <= i < |more| ensures Agrees(log + [e], i, more[i]) && Once(log + [e], i) {
      if i < |actions| {
        AgreesStill(log, e, i, actions[i], actions[i]);
      }
    }
  }

  lemma SubmitOk(policy: Policy, s: Broker, p: Proposal, e: Option<Evaluated>, now: Time)
    requires Inv(policy, s)
    ensures Inv(policy, Submit(policy, s, p, e, now).0) && Grown(s, Submit(policy, s, p, e, now).0)
  {
    GrownItself(s);
    if ProposalError(policy, s, p, e, now).None? {
      var a := NewAction(policy, s, p, e.value, now);
      var event := Event.Proposed(a.character, a.generation, a.commands, a.kind, a.status, a.room, a.expiresAt, a.controllerDeadline);
      assert Proposed(policy, event) == a;
      HistoryProposed(policy, s.log, event, s.actions);
      ReplayMore(policy, s.log, event);
    }
  }

  /** Where the delivery loop stands: everything so far is kept, and the session is still current and enabled. */
  ghost predicate Polling(policy: Policy, s: Broker, t: Broker, context: Context) {
    && Inv(policy, t) && Grown(s, t)
    && context.character in t.enabled && Get(t.active, context.character) == Some(context.generation)
  }

  lemma TurnOk(policy: Policy, s: Broker, t: Broker, context: Context, i: nat)
    requires Polling(policy, s, t, context) && i < |t.actions|
    ensures TurnOf(t.actions[i], context).Notify? ==>
      Polling(policy, s, Write(t, i, t.actions[i].(notified := true), ConfirmationRequested), context)
    ensures TurnOf(t.actions[i], context).Deny? ==>
      Polling(policy, s, Write(t, i, t.actions[i].(status := DeniedStaleRoom), Denied(false)), context)
    ensures TurnOf(t.actions[i], context).Deliver? ==>
      Polling(policy, s, Write(t, i, t.actions[i].(status := Status.Dispatched), Delivered(context.room)), context)
  {
    var a := t.actions[i];
    assert Sound(policy, t.enabled, t.active, a);
    assert Agrees(t.log, i, a);
    match TurnOf(a, context)
    case Skip =>
    case Notify =>
      WriteOk(policy, t, i, a.(notified := true), ConfirmationRequested);
      GrownTransitive(s, t, Write(t, i, a.(notified := true), ConfirmationRequested));
    case Deny =>
      WriteOk(policy, t, i, a.(status := DeniedStaleRoom), Denied(false));
      GrownTransitive(s, t, Write(t, i, a.(status := DeniedStaleRoom), Denied(false)));
    case Deliver =>
      WriteOk(policy, t, i, a.(status := Status.Dispatched), Delivered(context.room));
      GrownTransitive(s, t, Write(t, i, a.(status := Status.Dispatched), Delivered(context.room)));
  }

  lemma {:induction false} PollFromOk(policy: Policy, s: Broker, t: Broker, context: Context, i: nat)
    requires Polling(policy, s, t, context) && i <= |t.actions|
    ensures Polling(policy, s, PollFrom(t, context, i).0, context)
    decreases |t.actions| - i
  {
    if i < |t.actions| {
      TurnOk(policy, s, t, context, i);
      match TurnOf(t.actions[i], context)
      case Skip => PollFromOk(policy, s, t, context, i + 1);
      case Notify =>
      case Deny => PollFromOk(policy, s, Write(t, i, t.actions[i].(status := DeniedStaleRoom), Denied(false)), context, i + 1);
      case Deliver =>
    }
  }

  lemma PollOk(policy: Policy, s: Broker, context: Context, now: Time)
    requires Inv(policy, s)
    ensures Inv(policy, Poll(s, context, now).0) && Grown(s, Poll(s, context, now).0)
  {
    ExpireOk(policy, s, now);
    var t := Expire(s, now);
    if SessionError(t, context.character, context.generation).None? && context.character in t.enabled {
      PollFromOk(policy, s, t, context, 0);
    }
  }

  /** A change to one action of a sound state, made after expiry. */
  lemma AfterExpiryOk(policy: Policy, s: Broker, t: Broker, id: nat, b: Action, change: Change)
    requires Keeps(policy, s, t) && Fits(policy, t, id, b, change)
    ensures Keeps(policy, s, Write(t, id, b, change))
  {
    WriteOk(policy, t, id, b, change);
    GrownTransitive(s, t, Write(t, id, b, change));
  }

  lemma DenialFits(policy: Policy, t: Broker, id: nat)
    requires AllSound(policy, t) && id < |t.actions| && t.actions[id].status.Pending()
    ensures Fits(policy, t, id, t.actions[id].(status := DeniedStaleRoom), Denied(true))
  {
    assert Sound(policy, t.enabled, t.active, t.actions[id]);
  }

  lemma ApprovalFits(policy: Policy, t: Broker, id: nat, room: string)
    requires AllSound(policy, t) && id < |t.actions| && t.actions[id].status.ConfirmationRequired?
    requires t.actions[id].room.Some? ==> t.actions[id].room.value == room
    ensures Fits(policy, t, id, t.actions[id].(room := Some(room), status := Queued), Approved(room))
  {
    assert Sound(policy, t.enabled, t.active, t.actions[id]);
  }

  lemma ApproveOk(policy: Policy, s: Broker, approval: Approval, now: Time)
    requires Inv(policy, s)
    ensures Keeps(policy, s, Approve(s, approval, now).0)
  {
    ExpireKeeps(policy, s, now);
    var t := Expire(s, now);
    if approval.id < |t.actions| && t.actions[approval.id].status.ConfirmationRequired? {
      var a := t.actions[approval.id];
      if a.room.Some? && a.room.value != approval.room {
        DenialFits(policy, t, approval.id);
        AfterExpiryOk(policy, s, t, approval.id, a.(status := DeniedStaleRoom), Denied(true));
      } else {
        ApprovalFits(policy, t, approval.id, approval.room);
        AfterExpiryOk(policy, s, t, approval.id, a.(room := Some(approval.room), status := Queued), Approved(approval.room));
      }
    }
  }

  lemma RecordOk(policy: Policy, s: Broker, result: ActionResult)
    requires Inv(policy, s)
    ensures Keeps(policy, s, RecordResult(s, result).0)
  {
    GrownItself(s);
    if result.id < |s.actions| && s.actions[result.id].status.Dispatched? {
      var a := s.actions[result.id];
      assert Sound(policy, s.enabled, s.active, a);
      var status := if result.outcome.Unsuccessful? then Failed else Completed;
      var completion := Completion(result.outcome);
      assert completion == "failed" <==> result.outcome.Unsuccessful?;
      WriteOk(policy, s, result.id, a.(status := status, completion := Some(completion), detail := result.detail),
              Result(result.outcome, completion, result.detail));
    }
  }

  lemma StopFits(policy: Policy, t: Broker, id: nat)
    requires AllSound(policy, t) && id < |t.actions|
    ensures Fits(policy, t, id, t.actions[id].(stopRequested := true), TravelStop)
  {
    assert Sound(policy, t.enabled, t.active, t.actions[id]);
  }

  lemma OwnerCancelFits(policy: Policy, t: Broker, id: nat)
    requires AllSound(policy, t) && id < |t.actions| && t.actions[id].status.Pending()
    ensures Fits(policy, t, id, t.actions[id].(status := Cancelled), OwnerCancelled)
  {
    assert Sound(policy, t.enabled, t.active, t.actions[id]);
  }

  lemma CancelOk(policy: Policy, s: Broker, owner: Owner, now: Time)
    requires Inv(policy, s)
    ensures Keeps(policy, s, Cancel(policy, s, owner, now).0)
  {
    GrownItself(s);
    if OwnerError(s, owner).None? {
      ExpireKeeps(policy, s, now);
      var t := Expire(s, now);
      var a := t.actions[owner.id];
      if a.status.Pending() {
        OwnerCancelFits(policy, t, owner.id);
        AfterExpiryOk(policy, s, t, owner.id, a.(status := Cancelled), OwnerCancelled);
      } else if SingleIs(a.commands, policy.isTravel) && a.status.Dispatched? {
        StopFits(policy, t, owner.id);
        AfterExpiryOk(policy, s, t, owner.id, a.(stopRequested := true), TravelStop);
      }
    }
  }

  /** Revoking: pending work is cancelled, and the stop marker may be set but never cleared. */
  lemma RevocationFits(policy: Policy, t: Broker, id: nat, b: Action, change: Change)
    requires AllSound(policy, t) && id < |t.actions|
    requires b == Revoked(t.actions[id]) || b == Revoked(t.actions[id]).(stopRequested := true)
    requires b == ApplyChange(t.actions[id], change) && !change.Delivered? && !change.ConfirmationRequested?
    ensures Fits(policy, t, id, b, change)
  {
    assert Sound(policy, t.enabled, t.active, t.actions[id]);
  }

  lemma TestStopOk(policy: Policy, s: Broker, owner: Owner, now: Time)
    requires Inv(policy, s)
    ensures Keeps(policy, s, RequestTestStop(s, owner, now).0)
  {
    GrownItself(s);
    if OwnerError(s, owner).None? && s.actions[owner.id].testRun {
      ExpireKeeps(policy, s, now);
      var t := Expire(s, now);
      var a := t.actions[owner.id];
      var b := Revoked(a).(stopRequested := a.stopRequested || a.status.Started());
      RevocationFits(policy, t, owner.id, b, TestStop(b.status, b.stopRequested));
      AfterExpiryOk(policy, s, t, owner.id, b, TestStop(b.status, b.stopRequested));
    }
  }

  lemma RevokeControlOk(policy: Policy, s: Broker, owner: Owner, now: Time)
    requires Inv(policy, s)
    ensures Keeps(policy, s, RevokeControl(s, owner, now).0)
  {
    GrownItself(s);
    if OwnerError(s, owner).None? && s.actions[owner.id].controllerControl {
      ExpireKeeps(policy, s, now);
      var t := Expire(s, now);
      var b := Revoked(t.actions[owner.id]).(stopRequested := true);
      RevocationFits(policy, t, owner.id, b, ControlRevoked(b.status));
      AfterExpiryOk(policy, s, t, owner.id, b, ControlRevoked(b.status));
    }
  }

  lemma RevokeRunOk(policy: Policy, s: Broker, owner: Owner, now: Time)
    requires Inv(policy, s)
    ensures Keeps(policy, s, RevokeRun(s, owner, now).0)
  {
    GrownItself(s);
    if OwnerError(s, owner).None? && s.actions[owner.id].controllerDeadline.Some? {
      ExpireKeeps(policy, s, now);
      var t := Expire(s, now);
      var b := Revoked(t.actions[owner.id]).(stopRequested := true);
      RevocationFits(policy, t, owner.id, b, RunRevoked(b.status));
      AfterExpiryOk(policy, s, t, owner.id, b, RunRevoked(b.status));
    }
  }

  lemma RequestReturnOk(policy: Policy, s: Broker, owner: Owner, now: Time, later: Time)
    requires Inv(policy, s)
    ensures Keeps(policy, s, RequestReturn(policy, s, owner, now, later).0)
  {
    GrownItself(s);
    if OwnerError(s, owner).None? {
      ExpireKeeps(policy, s, now);
      var t := Expire(s, now);
      var a := t.actions[owner.id];
      assert Sound(policy, t.enabled, t.active, a);
      if a.status.Dispatched? || a.status.Completed? {
        AfterExpiryOk(policy, s, t, owner.id, a.(returnRequested := true), ReturnRequested);
      }
    }
  }

  // ------------------------------------------------------------------ runs

  datatype Operation =
    | Admit(character: string, generation: string)
    | Switch(character: string, generation: string, enabled: bool)
    | Propose(proposal: Proposal, evaluated: Option<Evaluated>, now: Time)
    | Next(context: Context, now: Time)
    | Confirmation(approval: Approval, now: Time)
    | Reported(result: ActionResult)
    | Inspect(id: nat, now: Time)
    | Owned(owner: Owner, request: OwnerRequest, now: Time)

  datatype OwnerRequest = CancelIt | StopTest | RevokeIt | EndRun | Return(later: Time)

  function DoOwned(policy: Policy, s: Broker, owner: Owner, request: OwnerRequest, now: Time): (Broker, Reply) {
    match request
    case CancelIt => Cancel(policy, s, owner, now)
    case StopTest => RequestTestStop(s, owner, now)
    case RevokeIt => RevokeControl(s, owner, now)
    case EndRun => RevokeRun(s, owner, now)
    case Return(later) => RequestReturn(policy, s, owner, now, later)
  }

  function Do(policy: Policy, s: Broker, op: Operation): (Broker, Reply) {
    match op
    case Admit(character, generation) => AdmitGeneration(policy, s, character, generation)
    case Switch(character, generation, enabled) => Control(policy, s, character, generation, enabled)
    case Propose(proposal, evaluated, now) => Submit(policy, s, proposal, evaluated, now)
    case Next(context, now) => Poll(s, context, now)
    case Confirmation(approval, now) => Approve(s, approval, now)
    case Reported(result) => RecordResult(s, result)
    case Inspect(id, now) => Look(s, id, now)
    case Owned(owner, request, now) => DoOwned(policy, s, owner, request, now)
  }

  /** The state after a run of operations; the broker's lock makes them one after another. */
  function Run(policy: Policy, ops: seq<Operation>): Broker {
    if ops == [] then Broker({}, map[], [], []) else Do(policy, Run(policy, ops[..|ops| - 1]), ops[|ops| - 1]).0
  }

  lemma DoOwnedOk(policy: Policy, s: Broker, owner: Owner, request: OwnerRequest, now: Time)
    requires Inv(policy, s)
    ensures Keeps(policy, s, DoOwned(policy, s, owner, request, now).0)
  {
    match request
    case CancelIt => CancelOk(policy, s, owner, now);
    case StopTest => TestStopOk(policy, s, owner, now);
    case RevokeIt => RevokeControlOk(policy, s, owner, now);
    case EndRun => RevokeRunOk(policy, s, owner, now);
    case Return(later) => RequestReturnOk(policy, s, owner, now, later);
  }

  lemma DoOk(policy: Policy, s: Broker, op: Operation)
    requires Inv(policy, s)
    ensures Keeps(policy, s, Do(policy, s, op).0)
  {
    match op
    case Admit(character, generation) => AdmitOk(policy, s, character, generation);
    case Switch(character, generation, enabled) =>
      if enabled {
        EnableOk(policy, s, character, generation);
      } else {
        KillOk(policy, s, character, generation);
      }
    case Propose(proposal, evaluated, now) => SubmitOk(policy, s, proposal, evaluated, now);
    case Next(context, now) => PollOk(policy, s, context, now);
    case Confirmation(approval, now) => ApproveOk(policy, s, approval, now);
    case Reported(result) => RecordOk(policy, s, result);
    case Inspect(id, now) => ExpireOk(policy, s, now);
    case Owned(owner, request, now) => DoOwnedOk(policy, s, owner, request, now);
  }

  lemma {:induction false} RunInv(policy: Policy, ops: seq<Operation>)
    ensures Inv(policy, Run(policy, ops))
  {
    if ops != [] {
      RunInv(policy, ops[..|ops| - 1]);
      DoOk(policy, Run(policy, ops[..|ops| - 1]), ops[|ops| - 1]);
    }
  }

  // ------------------------------------------------------------------ theorems

  /** After any run the audit log alone determines who is enabled and every field of every action. */
  lemma AuditLogIsSource(policy: Policy, ops: seq<Operation>)
    ensures Replay(policy, Run(policy, ops).log) == View(Run(policy, ops).enabled, Run(policy, ops).actions)
  {
    RunInv(policy, ops);
  }

  /** The log does not determine the active generations: a character's first admission is not logged. */
  lemma GenerationsAreNotLogged(policy: Policy)
    ensures Run(policy, [Admit("a", "1")]).log == Run(policy, [Admit("a", "2")]).log
    ensures Run(policy, [Admit("a", "1")]).active != Run(policy, [Admit("a", "2")]).active
  {
    assert [Admit("a", "1")][..0] == [] && [Admit("a", "2")][..0] == [];
    assert Run(policy, [Admit("a", "1")]).active["a"] == "1";
    assert Run(policy, [Admit("a", "2")]).active["a"] == "2";
  }

  /** In every reachable state pending work belongs to an enabled character's current session. */
  lemma PendingIsCurrent(policy: Policy, ops: seq<Operation>, i: nat)
    requires i < |Run(policy, ops).actions| && Run(policy, ops).actions[i].status.Pending()
    ensures var s := Run(policy, ops); var a := s.actions[i];
      a.character in s.enabled && Get(s.active, a.character) == Some(a.generation)
  {
    RunInv(policy, ops);
    assert Sound(policy, Run(policy, ops).enabled, Run(policy, ops).active, Run(policy, ops).actions[i]);
  }

  /** Started interruptible work of a disabled character, or of a session no longer current, carries the stop marker. */
  lemma StaleWorkIsStopped(policy: Policy, ops: seq<Operation>, i: nat)
    requires i < |Run(policy, ops).actions|
    requires ActionLaws.Stoppable(policy, Run(policy, ops).actions[i])
    ensures var s := Run(policy, ops); var a := s.actions[i];
      a.stopRequested || (a.character in s.enabled && Get(s.active, a.character) == Some(a.generation))
  {
    RunInv(policy, ops);
    assert Sound(policy, Run(policy, ops).enabled, Run(policy, ops).active, Run(policy, ops).actions[i]);
  }

  lemma RunGrows(policy: Policy, ops: seq<Operation>, op: Operation)
    ensures Grown(Run(policy, ops), Run(policy, ops + [op]))
  {
    RunInv(policy, ops);
    DoOk(policy, Run(policy, ops), op);
    assert (ops + [op])[..|ops|] == ops;
  }

  /** Whatever happens next, an action keeps its identity, moves only forward and never loses a marker. */
  lemma {:induction false} NothingIsRevived(policy: Policy, ops: seq<Operation>, more: seq<Operation>)
    ensures Grown(Run(policy, ops), Run(policy, ops + more))
  {
    if more == [] {
      assert ops + more == ops;
      GrownItself(Run(policy, ops));
    } else {
      var less := more[..|more| - 1];
      var last := more[|more| - 1];
      NothingIsRevived(policy, ops, less);
      RunGrows(policy, ops + less, last);
      assert ops + less + [last] == ops + more;
      GrownTransitive(Run(policy, ops), Run(policy, ops + less), Run(policy, ops + more));
    }
  }

  /** Over a whole run each action is announced for confirmation at most once and delivered at most once. */
  lemma DeliveredOnce(policy: Policy, ops: seq<Operation>, j: nat, k: nat, id: nat)
    requires j < k < |Run(policy, ops).log|
    ensures var log := Run(policy, ops).log;
      !(IsDelivery(log[j], id) && IsDelivery(log[k], id)) && !(IsNotice(log[j], id) && IsNotice(log[k], id))
  {
    RunInv(policy, ops);
    var s := Run(policy, ops);
    if id < |s.actions| {
      assert Once(s.log, id);
    }
  }

  /** A confirmation-gated action is delivered only after its approval and only in the room it was approved in. */
  lemma DeliveredAsApproved(policy: Policy, ops: seq<Operation>, k: nat) returns (j: nat)
    requires k < |Run(policy, ops).log|
    requires var e := Run(policy, ops).log[k];
      e.Change? && e.change.Delivered? && (e.id < |Run(policy, ops).actions| ==> Run(policy, ops).actions[e.id].confirmationRequired)
    ensures j < k
    ensures var e := Run(policy, ops).log[k]; Run(policy, ops).log[j] == Change(e.id, Approved(e.change.deliveredRoom))
  {
    RunInv(policy, ops);
    var s := Run(policy, ops);
    var e := s.log[k];
    assert Agrees(s.log, e.id, s.actions[e.id]) && IsDelivery(s.log[k], e.id);
    j :| 0 <= j < k && j < |s.log| && s.log[j] == Change(e.id, Approved(e.change.deliveredRoom));
  }

  lemma {:induction false} PollFromDelivers(s: Broker, context: Context, i: nat)
    requires i <= |s.actions|
    ensures var (t, reply) := PollFrom(s, context, i);
      reply.Shown? ==>
        && i <= reply.id < |s.actions|
        && s.actions[reply.id].character == context.character && s.actions[reply.id].generation == context.generation
        && (reply.instruction.Confirm? ==> s.actions[reply.id].status.ConfirmationRequired? && !s.actions[reply.id].notified)
        && (reply.instruction.Execute? ==>
              && s.actions[reply.id].status.Queued?
              && (s.actions[reply.id].room.Some? ==> s.actions[reply.id].room.value == context.room))
        && !reply.instruction.Tell?
    decreases |s.actions| - i
  {
    if i < |s.actions| {
      match TurnOf(s.actions[i], context)
      case Skip => PollFromDelivers(s, context, i + 1);
      case Notify =>
      case Deny => PollFromDelivers(Write(s, i, s.actions[i].(status := DeniedStaleRoom), Denied(false)), context, i + 1);
      case Deliver =>
    }
  }

  /** An instruction goes to the enabled character's current session, before the expiry reading, in the required room. */
  lemma InstructionIsTimely(policy: Policy, ops: seq<Operation>, context: Context, now: Time)
    requires Poll(Run(policy, ops), context, now).1.Shown?
    ensures var s := Run(policy, ops); var reply := Poll(s, context, now).1;
      && reply.id < |s.actions|
      && var a := s.actions[reply.id];
      && a.status.Pending() && now < a.expiresAt
      && a.character == context.character && a.character in s.enabled
      && a.generation == context.generation && Get(s.active, a.character) == Some(a.generation)
      && (reply.instruction == Execute || reply.instruction == Confirm)
      && (reply.instruction.Execute? ==> a.status.Queued? && (a.room.None? || a.room.value == context.room))
      && (reply.instruction.Confirm? ==> a.status.ConfirmationRequired? && !a.notified)
  {
    var s := Run(policy, ops);
    RunInv(policy, ops);
    ExpireOk(policy, s, now);
    PollFromDelivers(Expire(s, now), context, 0);
  }

  /**
    A quiet poll of an enabled current session means no unexpired action was due a notice or a
    delivery, and every one queued for another room is now denied.
   */
  lemma QuietMeansNothingDue(s: Broker, context: Context, now: Time, k: nat)
    requires Poll(s, context, now).1.Quiet? && context.character in s.enabled
    requires k < |s.actions| && now < s.actions[k].expiresAt
    ensures !ActionLaws.DueAny(s.actions[k], context)
    ensures k < |Poll(s, context, now).0.actions|
    ensures ActionLaws.Misplaced(s.actions[k], context) ==> Poll(s, context, now).0.actions[k].status.DeniedStaleRoom?
  {
    var (t, reply) := Poll(s, context, now);
    ActionLaws.PollIs(s, context, now);
    QuietPoll(s, context, now, t, k);
  }

  lemma QuietPoll(s: Broker, context: Context, now: Time, t: Broker, k: nat)
    requires ActionLaws.PollLaw(s, context, now, t, Quiet) && context.character in s.enabled
    requires k < |s.actions| && now < s.actions[k].expiresAt
    ensures !ActionLaws.DueAny(s.actions[k], context) && k < |t.actions|
    ensures ActionLaws.Misplaced(s.actions[k], context) ==> t.actions[k].status.DeniedStaleRoom?
  {
    assert ActionLaws.InSession(s, context.character, context.generation);
    var u: Broker :| ActionLaws.OnlyExpired(s, now, u) && ActionLaws.Scanned(u, context, 0, t, Quiet);
    assert u.actions[k] == ActionLaws.AtTime(s.actions[k], now) == s.actions[k];
    QuietScan(u, context, t, k);
  }

  lemma QuietScan(u: Broker, context: Context, t: Broker, k: nat)
    requires ActionLaws.Scanned(u, context, 0, t, Quiet) && k < |u.actions|
    ensures !ActionLaws.DueAny(u.actions[k], context) && |t.actions| == |u.actions|
    ensures t.actions[k] == ActionLaws.Passed(u.actions[k], context)
  {
  }

  /** What an accepted proposal and everything after it leave of its action. */
  lemma ProposedIsKept(policy: Policy, ops: seq<Operation>, i: nat)
    requires i < |ops| && ops[i].Propose? && Do(policy, Run(policy, ops[..i]), ops[i]).1.Shown?
    ensures var s, p, e := Run(policy, ops[..i]), ops[i].proposal, ops[i].evaluated; var t := Run(policy, ops);
      && e.Some? && |s.actions| < |t.actions|
      && exists a :: ActionLaws.ActionOf(policy, s, p, e.value, ops[i].now, a) && Later(a, t.actions[|s.actions|])
  {
    var s, op := Run(policy, ops[..i]), ops[i];
    ActionLaws.SubmitIs(policy, s, op.proposal, op.evaluated, op.now);
    var u := Run(policy, ops[..i + 1]);
    assert ops[..i + 1][..i] == ops[..i];
    assert u == Do(policy, s, op).0;
    NothingIsRevived(policy, ops[..i + 1], ops[i + 1..]);
    assert ops[..i + 1] + ops[i + 1..] == ops;
    var a := u.actions[|s.actions|];
    assert ActionLaws.ActionOf(policy, s, op.proposal, op.evaluated.value, op.now, a) && Later(a, Run(policy, ops).actions[|s.actions|]);
  }

  /**
    Whatever happened in between, an instruction to execute a proposal comes strictly before its
    time to live and its deadline are over, in the room it named if it named one, to the session it
    was admitted in, and for exactly the commands the policy made of it.
   */
  lemma ExecutedAsProposed(policy: Policy, ops: seq<Operation>, i: nat, context: Context, now: Time)
    requires i < |ops| && ops[i].Propose? && Do(policy, Run(policy, ops[..i]), ops[i]).1.Shown?
    requires Poll(Run(policy, ops), context, now).1 == Shown(|Run(policy, ops[..i]).actions|, Execute)
    ensures var p := ops[i].proposal; var s := Run(policy, ops[..i]);
      && now < ops[i].now + p.ttl
      && (p.deadline.Some? && p.deadline.value.Finite? ==> now < p.deadline.value.at)
      && (p.room.Some? ==> context.room == p.room.value)
      && context.character == p.character && Get(s.active, p.character) == Some(context.generation)
      && (p.expectedGeneration.Some? ==> context.generation == p.expectedGeneration.value)
      && ops[i].evaluated.Some? && |s.actions| < |Run(policy, ops).actions|
      && Run(policy, ops).actions[|s.actions|].commands == ops[i].evaluated.value.commands
  {
    ProposedIsKept(policy, ops, i);
    InstructionIsTimely(policy, ops, context, now);
    ActionLaws.SubmitIs(policy, Run(policy, ops[..i]), ops[i].proposal, ops[i].evaluated, ops[i].now);
  }
}
