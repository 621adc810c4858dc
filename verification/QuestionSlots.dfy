/**
  The question protocol of `Copilot.ask`: callers, worker threads, `forget`, generation
  admission and timeouts interleave in small atomic steps over the shared conversation state.
  A question is identified by its position in `questions`.
 */
module QuestionSlots {
  import opened Prelude
  import opened OrderedDict
  import opened Conversation

  datatype Reason = Timeout | Discarded

  datatype Outcome = NoOutcome | Answered(text: string, references: seq<string>) | Raised

  datatype CallerPc =
    | Starting          // the slot is taken, the worker thread is not started yet
    | Waiting           // in `changed.wait(timeout=control.remaining())`
    | Checking          // before the `remaining()` that follows the wait
    | Testing           // before `if not finished.is_set()`
    | TimingOut         // the worker was unfinished, `cancel("timeout")` is not called yet
    | Reading           // before `result[0]` is inspected
    | Committing        // before the locked commit region
    | Finishing         // before the test in the outer `finally`
    | Releasing         // before `_release_question`
    | Returned

  datatype WorkerPc =
    | NotStarted
    | Running           // inside `_answer`
    | Resulted          // the result is appended, `finished` is not set yet
    | TestingCancelled  // `finished` and `changed` are set
    | WReleasing
    | Ended

  datatype Question = Question(
    key: Key,
    text: string,
    expected: Option<Generation>,   // the session the request names, if it names one
    admitted: Option<Generation>,   // generation current at admission
    epoch: nat,                     // how often the character had been forgotten at admission
    caller: CallerPc,
    worker: WorkerPc,
    cancelled: Option<Reason>,
    outcome: Outcome,
    committed: bool)
  {
    predicate Finished() { (worker.TestingCancelled? || worker.WReleasing? || worker.Ended?) }
    predicate WorkerActive() { (worker.Running? || worker.Resulted?) }
    predicate Uncommitted() { (caller.Starting? || caller.Waiting? || caller.Checking? || caller.Testing? || caller.TimingOut? || caller.Reading? || caller.Committing?) }
  }

  datatype State = State(shared: Shared<nat>, questions: seq<Question>, epochs: map<Key, nat>)
  {
    function Epoch(k: Key): nat { if k in epochs then epochs[k] else 0 }
    predicate Holds(q: nat) requires q < |questions| { Get(shared.inflight, questions[q].key) == Some(q) }
    function With(q: nat, x: Question): State requires q < |questions| { this.(questions := questions[q := x]) }
  }

  /** What one thread of one question does on its own; only the control is shared. */
  datatype Action =
    | StartWorker | StartFails
    | CallerRaises                     // `remaining()` sees the cancellation and raises
    | WaitReturns | CheckPasses
    | SeesUnfinished | SeesFinished
    | GivesUp                          // `cancel("timeout")`, then `remaining()` raises
    | ReadsFailure | ReadsAnswer
    | LeavesToWorker | TakesRelease    // the two ways through the outer `finally`
    | WorkerResult(outcome: Outcome) | WorkerFinishes
    | WorkerSeesCancelled | WorkerEnds
    | TimesOut                         // any holder of the control finds the deadline passed

  datatype Step =
    | Ask(key: Key, text: string, expected: Option<Generation>)
    | Own(q: nat, action: Action)
    | Commit(q: nat)
    | Release(q: nat, byWorker: bool)
    | Forget(key: Key)
    | AdmitGeneration(key: Key, generation: Generation)

  predicate EnabledFor(x: Question, a: Action) {
    match a
    case StartWorker | StartFails => x.caller.Starting?
    case CallerRaises => (x.caller.Waiting? || x.caller.Checking? || x.caller.Committing?) && x.cancelled.Some?
    case WaitReturns => x.caller.Waiting?
    case CheckPasses => x.caller.Checking? && x.cancelled.None?
    case SeesUnfinished => x.caller.Testing? && !x.Finished()
    case SeesFinished => x.caller.Testing? && x.Finished()
    case GivesUp => x.caller.TimingOut?
    case ReadsFailure => x.caller.Reading? && !x.outcome.Answered?
    case ReadsAnswer => x.caller.Reading? && x.outcome.Answered?
    case LeavesToWorker => x.caller.Finishing? && !x.Finished() && !x.worker.NotStarted?
    case TakesRelease => x.caller.Finishing? && (x.Finished() || x.worker.NotStarted?)
    case WorkerResult(_) => x.worker.Running?
    case WorkerFinishes => x.worker.Resulted?
    case WorkerSeesCancelled => x.worker.TestingCancelled? && x.cancelled.Some?
    case WorkerEnds => x.worker.TestingCancelled? && x.cancelled.None?
    case TimesOut => true
  }

  function Cancelled(x: Question, reason: Reason): Question {
    if x.cancelled.Some? then x else x.(cancelled := Some(reason))
  }

  function Act(x: Question, a: Action): Question {
    match a
    case StartWorker => x.(caller := Waiting, worker := Running)
    case StartFails => x.(caller := Finishing)
    case CallerRaises => x.(caller := Finishing)
    case WaitReturns => x.(caller := Checking)
    case CheckPasses => x.(caller := Testing)
    case SeesUnfinished => x.(caller := TimingOut)
    case GivesUp => Cancelled(x, Timeout).(caller := Finishing)
    case SeesFinished => x.(caller := Reading)
    case ReadsFailure => x.(caller := Finishing)
    case ReadsAnswer => x.(caller := Committing)
    case LeavesToWorker => x.(caller := Returned)
    case TakesRelease => x.(caller := Releasing)
    case WorkerResult(o) => x.(worker := Resulted, outcome := o)
    case WorkerFinishes => x.(worker := TestingCancelled)
    case WorkerSeesCancelled => x.(worker := WReleasing)
    case WorkerEnds => x.(worker := Ended)
    case TimesOut => Cancelled(x, Timeout)
  }

  predicate Enabled(s: State, step: Step) {
    match step
    case Ask(k, _, e) => Admit(s.shared, k, e, |s.questions|).Ok?
    case Own(q, a) => q < |s.questions| && EnabledFor(s.questions[q], a)
    case Commit(q) => q < |s.questions| && s.questions[q].caller.Committing?
        && s.questions[q].cancelled.None? && s.questions[q].outcome.Answered?
    case Release(q, byWorker) => q < |s.questions|
        && (if byWorker then s.questions[q].worker.WReleasing? else s.questions[q].caller.Releasing?)
    case Forget(_) => true
    case AdmitGeneration(_, _) => true
  }

  function Apply(s: State, step: Step): State
    requires Enabled(s, step)
  {
    match step
    case Ask(k, text, e) =>
      State(Admit(s.shared, k, e, |s.questions|).value,
            s.questions + [Question(k, text, e, s.shared.Generation(k), s.Epoch(k), Starting, NotStarted, None, NoOutcome, false)],
            s.epochs)
    case Own(q, a) => s.With(q, Act(s.questions[q], a))
    case Commit(q) => CommitState(s, q)
    case Release(q, byWorker) =>
      var x := s.questions[q];
      s.With(q, if byWorker then x.(worker := Ended) else x.(caller := Returned))
       .(shared := Conversation.Release(s.shared, x.key, q))
    case Forget(k) => ForgetState(s, k)
    case AdmitGeneration(k, g) =>
      if Replaces(s.shared, k, g)
      then ForgetState(s, k).(shared := Admitted(s.shared, k, g))
      else s
  }

  function CommitState(s: State, q: nat): State
    requires q < |s.questions| && s.questions[q].outcome.Answered?
  {
    var x := s.questions[q];
    s.With(q, x.(caller := Finishing, committed := true))
     .(shared := Committed(s.shared, x.key, NewTurn(q, x.text, x.outcome.text, x.outcome.references),
                           Sources(q, x.outcome.references)))
  }

  /** `pending.cancel("invalidated")` and the removal of what is retained, under the state lock. */
  function ForgetState(s: State, k: Key): State {
    var pending := Get(s.shared.inflight, k);
    State(Forgotten(s.shared, k),
          if pending.Some? && pending.value < |s.questions|
          then s.questions[pending.value := Cancelled(s.questions[pending.value], Discarded)]
          else s.questions,
          s.epochs[k := s.Epoch(k) + 1])
  }

  predicate Initial(s: State) {
    && s.questions == [] && s.epochs == map[]
    && s.shared == Shared(s.shared.limit, map[], map[], Dict([], map[]), Dict([], map[]))
  }

  // ------------------------------------------------------------------ invariant

  ghost predicate SlotsOk(s: State) {
    && s.shared.Valid()
    && (forall k | k in s.shared.inflight ::
          s.shared.inflight[k] < |s.questions| && s.questions[s.shared.inflight[k]].key == k)
  }

  predicate Current(s: State, x: Question) {
    x.epoch == s.Epoch(x.key) && x.admitted == s.shared.Generation(x.key)
  }

  /** What holds of one question, given whether it holds its slot and is current. */
  predicate QuestionOk(x: Question, holds: bool, current: bool) {
    && (x.caller.Starting? || x.WorkerActive() ==> holds)
    && (x.Uncommitted() && x.cancelled.None? ==> holds && current)
    && (x.caller.Starting? ==> x.worker.NotStarted?)
    && (x.worker.NotStarted? ==> (x.caller.Starting? || x.caller.Finishing? || x.caller.Releasing? || x.caller.Returned?))
    && ((x.caller.Reading? || x.caller.Committing?) ==> x.Finished())
    && (x.caller.Committing? ==> x.outcome.Answered?)
    && (x.caller.Finishing? ==> x.cancelled.Some? || x.Finished() || x.worker.NotStarted?)
    && (x.caller.Releasing? ==> x.Finished() || x.worker.NotStarted?)
    && (x.worker.WReleasing? ==> x.cancelled.Some?)
    && (x.caller.Returned? && holds ==>
          x.cancelled.Some? && (x.worker.Running? || x.worker.Resulted? || x.worker.TestingCancelled? || x.worker.WReleasing?))
    && (x.worker.Ended? && x.cancelled.Some? && holds ==> !x.caller.Returned?)
    && (x.Uncommitted() ==> !x.committed)
  }

  ghost predicate QuestionsOk(s: State) {
    forall q | 0 <= q < |s.questions| :: QuestionOk(s.questions[q], s.Holds(q), Current(s, s.questions[q]))
  }

  predicate Retained(s: State, k: Key, owner: nat) {
    && owner < |s.questions|
    && s.questions[owner].key == k
    && s.questions[owner].committed
    && Current(s, s.questions[owner])
  }

  ghost predicate TurnsOk(s: State) {
    && (forall k, i | k in s.shared.dialogue.at && 0 <= i < |s.shared.dialogue.at[k]| ::
          Retained(s, k, s.shared.dialogue.at[k][i].owner))
    && (forall k | k in s.shared.answers.at :: Retained(s, k, s.shared.answers.at[k].owner))
  }

  ghost predicate Inv(s: State) {
    SlotsOk(s) && QuestionsOk(s) && TurnsOk(s)
  }

  lemma InitialOk(s: State)
    requires Initial(s)
    ensures Inv(s)
  {
  }

  // ------------------------------------------------------------------ preservation

  /** A thread-local step keeps what holds of its own question. */
  lemma ActOk(x: Question, a: Action, holds: bool, current: bool)
    requires EnabledFor(x, a) && QuestionOk(x, holds, current)
    ensures var y := Act(x, a);
      && QuestionOk(y, holds, current)
      && SameAdmission(x, y)
  {
  }

  predicate SameAdmission(x: Question, y: Question) {
    y.key == x.key && y.epoch == x.epoch && y.admitted == x.admitted && (x.committed ==> y.committed)
  }

  /** Replacing one question by one that is as good keeps the invariant. */
  lemma ReplaceOk(s: State, q: nat, y: Question)
    requires Inv(s) && q < |s.questions|
    requires SameAdmission(s.questions[q], y)
    requires QuestionOk(y, s.Holds(q), Current(s, s.questions[q]))
    ensures Inv(s.With(q, y))
  {
    var t := s.With(q, y);
    forall p | 0 <= p < |t.questions|
      ensures QuestionOk(t.questions[p], t.Holds(p), Current(t, t.questions[p]))
    {
      assert QuestionOk(s.questions[p], s.Holds(p), Current(s, s.questions[p]));
    }
    assert forall k: Key, o: nat :: Retained(s, k, o) ==> Retained(t, k, o);
  }

  lemma ReleaseStepOk(s: State, q: nat, byWorker: bool)
    requires Inv(s) && Enabled(s, Release(q, byWorker))
    ensures Inv(Apply(s, Release(q, byWorker)))
  {
    var x := s.questions[q];
    var t := Apply(s, Release(q, byWorker));
    ReleaseIsExact(s.shared, x.key, q);
    forall p | 0 <= p < |t.questions|
      ensures QuestionOk(t.questions[p], t.Holds(p), Current(t, t.questions[p]))
    {
      assert QuestionOk(s.questions[p], s.Holds(p), Current(s, s.questions[p]));
      assert p != q ==> t.Holds(p) == s.Holds(p);
    }
    ReleaseTurnsOk(s, q, byWorker);
  }

  lemma ReleaseTurnsOk(s: State, q: nat, byWorker: bool)
    requires Inv(s) && Enabled(s, Release(q, byWorker))
    ensures TurnsOk(Apply(s, Release(q, byWorker)))
  {
    var t := Apply(s, Release(q, byWorker));
    ReleaseIsExact(s.shared, s.questions[q].key, q);
    assert forall k: Key, o: nat :: Retained(s, k, o) ==> Retained(t, k, o);
  }

  lemma MemoryFrame(s: State, shared: Shared<nat>)
    requires QuestionsOk(s)
    requires shared.inflight == s.shared.inflight && shared.generations == s.shared.generations
    ensures QuestionsOk(s.(shared := shared))
  {
    var t := s.(shared := shared);
    forall p | 0 <= p < |t.questions|
      ensures QuestionOk(t.questions[p], t.Holds(p), Current(t, t.questions[p]))
    {
      assert QuestionOk(s.questions[p], s.Holds(p), Current(s, s.questions[p]));
    }
  }

  lemma CommitStepOk(s: State, q: nat)
    requires Inv(s) && Enabled(s, Commit(q))
    ensures Inv(CommitState(s, q))
  {
    var x := s.questions[q];
    assert QuestionOk(x, s.Holds(q), Current(s, x));
    CommitIsBounded(s.shared, x.key, NewTurn(q, x.text, x.outcome.text, x.outcome.references),
                    Sources(q, x.outcome.references));
    var y := x.(caller := Finishing, committed := true);
    ReplaceOk(s, q, y);
    MemoryFrame(s.With(q, y), CommitState(s, q).shared);
    CommitTurnsOk(s.With(q, y), q, NewTurn(q, x.text, x.outcome.text, x.outcome.references),
                  Sources(q, x.outcome.references));
  }

  lemma AppendedFrom<T>(turns: seq<T>, turn: T, i: nat)
    requires i < |Appended(turns, turn)|
    ensures Appended(turns, turn)[i] == turn || Appended(turns, turn)[i] in turns
  {
    assert Appended(turns, turn)[i] in turns + [turn];
  }

  lemma CommitTurnsOk(s: State, q: nat, turn: Turn<nat>, sources: Sources<nat>)
    requires s.shared.Valid() && TurnsOk(s)
    requires q < |s.questions| && Retained(s, s.questions[q].key, q) && turn.owner == q == sources.owner
    ensures TurnsOk(s.(shared := Committed(s.shared, s.questions[q].key, turn, sources)))
  {
    var k := s.questions[q].key;
    var t := s.(shared := Committed(s.shared, k, turn, sources));
    CommitIsBounded(s.shared, k, turn, sources);
    assert forall x: Key, o: nat :: Retained(s, x, o) ==> Retained(t, x, o);
    var before := if k in s.shared.dialogue.at then s.shared.dialogue.at[k] else [];
    forall x, i | x in t.shared.dialogue.at && 0 <= i < |t.shared.dialogue.at[x]|
      ensures Retained(t, x, t.shared.dialogue.at[x][i].owner)
    {
      if x == k {
        AppendedFrom(before, turn, i);
      }
    }
  }

  lemma AskStepOk(s: State, step: Step)
    requires Inv(s) && Enabled(s, step) && step.Ask?
    ensures Inv(Apply(s, step))
  {
    var t := Apply(s, step);
    assert |t.shared.inflight| == |s.shared.inflight| + 1;
    forall p | 0 <= p < |t.questions|
      ensures QuestionOk(t.questions[p], t.Holds(p), Current(t, t.questions[p]))
    {
      if p < |s.questions| {
        assert QuestionOk(s.questions[p], s.Holds(p), Current(s, s.questions[p]));
        assert t.Holds(p) == s.Holds(p);
      }
    }
    assert forall k: Key, o: nat :: Retained(s, k, o) ==> Retained(t, k, o);
  }

  /** The state after `forget`, with the generations that hold afterwards. */
  function Fenced(s: State, k: Key, generations: map<Key, Generation>): State {
    ForgetState(s, k).(shared := Forgotten(s.shared, k).(generations := generations))
  }

  ghost predicate Elsewhere(s: State, k: Key, generations: map<Key, Generation>) {
    forall x | x != k :: Get(generations, x) == s.shared.Generation(x)
  }

  lemma FencedQuestionsOk(s: State, k: Key, generations: map<Key, Generation>)
    requires SlotsOk(s) && QuestionsOk(s) && Elsewhere(s, k, generations)
    ensures QuestionsOk(Fenced(s, k, generations))
  {
    var t := Fenced(s, k, generations);
    forall p | 0 <= p < |t.questions|
      ensures QuestionOk(t.questions[p], t.Holds(p), Current(t, t.questions[p]))
    {
      var x := s.questions[p];
      assert QuestionOk(x, s.Holds(p), Current(s, x));
      assert t.Holds(p) == s.Holds(p);
      assert t.questions[p] == if x.key == k && s.Holds(p) then Cancelled(x, Discarded) else x;
    }
  }

  lemma FencedSlotsOk(s: State, k: Key, generations: map<Key, Generation>)
    requires SlotsOk(s)
    ensures SlotsOk(Fenced(s, k, generations))
  {
    ForgetIsBounded(s.shared, k);
  }

  lemma FencedRetained(s: State, k: Key, generations: map<Key, Generation>, x: Key, o: nat)
    requires x != k && Retained(s, x, o) && Elsewhere(s, k, generations)
    ensures Retained(Fenced(s, k, generations), x, o)
  {
  }

  lemma FencedTurnsOk(s: State, k: Key, generations: map<Key, Generation>)
    requires s.shared.Valid() && TurnsOk(s) && Elsewhere(s, k, generations)
    ensures TurnsOk(Fenced(s, k, generations))
  {
    var t := Fenced(s, k, generations);
    ForgetIsBounded(s.shared, k);
    forall x, i | x in t.shared.dialogue.at && 0 <= i < |t.shared.dialogue.at[x]|
      ensures Retained(t, x, t.shared.dialogue.at[x][i].owner)
    {
      assert Get(t.shared.dialogue.at, x) == Get(s.shared.dialogue.at, x);
      FencedRetained(s, k, generations, x, s.shared.dialogue.at[x][i].owner);
    }
    forall x | x in t.shared.answers.at
      ensures Retained(t, x, t.shared.answers.at[x].owner)
    {
      assert Get(t.shared.answers.at, x) == Get(s.shared.answers.at, x);
      FencedRetained(s, k, generations, x, s.shared.answers.at[x].owner);
    }
  }

  lemma FencedOk(s: State, k: Key, generations: map<Key, Generation>)
    requires Inv(s) && Elsewhere(s, k, generations)
    ensures Inv(Fenced(s, k, generations))
  {
    FencedSlotsOk(s, k, generations);
    FencedQuestionsOk(s, k, generations);
    FencedTurnsOk(s, k, generations);
  }

  lemma StepOk(s: State, step: Step)
    requires Inv(s) && Enabled(s, step)
    ensures Inv(Apply(s, step))
  {
    match step
    case Ask(_, _, _) => AskStepOk(s, step);
    case Own(q, a) =>
      assert QuestionOk(s.questions[q], s.Holds(q), Current(s, s.questions[q]));
      ActOk(s.questions[q], a, s.Holds(q), Current(s, s.questions[q]));
      ReplaceOk(s, q, Act(s.questions[q], a));
    case Commit(q) => CommitStepOk(s, q);
    case Release(q, byWorker) => ReleaseStepOk(s, q, byWorker);
    case Forget(k) =>
      FencedOk(s, k, s.shared.generations);
    case AdmitGeneration(k, g) =>
      FencedOk(s, k, s.shared.generations[k := g]);
  }

  // ------------------------------------------------------------------ runs

  ghost predicate IsRun(run: seq<State>, steps: seq<Step>) {
    && |run| == |steps| + 1
    && Initial(run[0])
    && (forall i | 0 <= i < |steps| :: Moves(run, steps, i))
  }

  ghost predicate Moves(run: seq<State>, steps: seq<Step>, i: nat)
    requires |run| == |steps| + 1 && i < |steps|
  {
    Enabled(run[i], steps[i]) && run[i + 1] == Apply(run[i], steps[i])
  }

  lemma {:induction false} RunOk(run: seq<State>, steps: seq<Step>, i: nat)
    requires IsRun(run, steps) && i < |run|
    ensures Inv(run[i])
  {
    if i == 0 {
      InitialOk(run[0]);
    } else {
      RunOk(run, steps, i - 1);
      assert Moves(run, steps, i - 1);
      StepOk(run[i - 1], steps[i - 1]);
    }
  }

  function Active(s: State): set<nat> {
    set q | 0 <= q < |s.questions| && s.questions[q].WorkerActive()
  }

  lemma {:induction false} OwnersFit(owners: set<nat>, key: map<nat, Key>, slots: map<Key, nat>)
    requires forall q | q in owners :: q in key && key[q] in slots && slots[key[q]] == q
    ensures |owners| <= |slots|
    decreases owners
  {
    if owners != {} {
      var q :| q in owners;
      OwnersFit(owners - {q}, key, slots - {key[q]});
      assert |slots - {key[q]}| == |slots| - 1 by {
        assert (slots - {key[q]}).Keys == slots.Keys - {key[q]};
      }
    }
  }

  /**
    Slot safety in every reachable state: a slot stays with its question until that question's
    worker has finished, so each character has at most one running worker and all characters
    together at most the configured number.
   */
  lemma SlotSafety(run: seq<State>, steps: seq<Step>, i: nat)
    requires IsRun(run, steps) && i < |run|
    ensures var s := run[i];
      && (forall q | q in Active(s) :: s.Holds(q))
      && (forall p, q | p in Active(s) && q in Active(s) && s.questions[p].key == s.questions[q].key :: p == q)
      && |Active(s)| <= s.shared.limit
  {
    RunOk(run, steps, i);
    var s := run[i];
    forall q | q in Active(s) ensures s.Holds(q) {
      assert QuestionOk(s.questions[q], s.Holds(q), Current(s, s.questions[q]));
    }
    OwnersFit(Active(s), map q | q in Active(s) :: s.questions[q].key, s.shared.inflight);
  }

  /** No leak: once caller and worker have both ended, the question no longer holds its slot. */
  lemma NoSlotLeak(run: seq<State>, steps: seq<Step>, i: nat, q: nat)
    requires IsRun(run, steps) && i < |run| && q < |run[i].questions|
    requires run[i].questions[q].caller.Returned?
    requires run[i].questions[q].worker.NotStarted? || run[i].questions[q].worker.Ended?
    ensures !run[i].Holds(q)
  {
    RunOk(run, steps, i);
    assert QuestionOk(run[i].questions[q], run[i].Holds(q), Current(run[i], run[i].questions[q]));
  }

  /** Only the release of a question itself frees its slot, however late other releases come. */
  lemma SlotLostOnlyByOwner(run: seq<State>, steps: seq<Step>, i: nat, q: nat)
    requires IsRun(run, steps) && i < |steps| && Moves(run, steps, i) && q < |run[i].questions|
    requires run[i].Holds(q) && !run[i + 1].Holds(q)
    ensures steps[i].Release? && steps[i].q == q
  {
    RunOk(run, steps, i);
    StepKeepsKeys(run[i], steps[i], q);
    var s := run[i];
    if steps[i].Release? {
      ReleaseIsExact(s.shared, s.questions[steps[i].q].key, steps[i].q);
    }
  }

  lemma StepKeepsKeys(s: State, step: Step, q: nat)
    requires Enabled(s, step) && q < |s.questions|
    ensures |Apply(s, step).questions| >= |s.questions|
    ensures Apply(s, step).questions[q].key == s.questions[q].key
    ensures Apply(s, step).questions[q].epoch == s.questions[q].epoch
  {
    match step
    case Own(p, a) => ActKeepsAdmission(s.questions[p], a);
    case _ =>
  }

  lemma ActKeepsAdmission(x: Question, a: Action)
    ensures SameAdmission(x, Act(x, a))
  {
  }

  /** Everything retained in a reachable state was committed by a question admitted under the current generation. */
  lemma RetainedIsCurrent(run: seq<State>, steps: seq<Step>, i: nat, k: Key, turn: Turn<nat>)
    requires IsRun(run, steps) && i < |run|
    requires k in run[i].shared.dialogue.at && turn in run[i].shared.dialogue.at[k]
    ensures turn.owner < |run[i].questions|
    ensures var x := run[i].questions[turn.owner];
      x.key == k && x.committed && x.admitted == run[i].shared.Generation(k) && x.epoch == run[i].Epoch(k)
  {
    RunOk(run, steps, i);
    var n :| 0 <= n < |run[i].shared.dialogue.at[k]| && run[i].shared.dialogue.at[k][n] == turn;
    assert Retained(run[i], k, run[i].shared.dialogue.at[k][n].owner);
  }

  lemma SourcesAreCurrent(run: seq<State>, steps: seq<Step>, i: nat, k: Key)
    requires IsRun(run, steps) && i < |run| && k in run[i].shared.answers.at
    ensures var o := run[i].shared.answers.at[k].owner;
      && o < |run[i].questions|
      && run[i].questions[o].key == k
      && run[i].questions[o].committed
      && run[i].questions[o].admitted == run[i].shared.Generation(k)
  {
    RunOk(run, steps, i);
    assert Retained(run[i], k, run[i].shared.answers.at[k].owner);
  }

  /** What the fence rests on: a question that is neither committed nor cancelled still holds its slot. */
  lemma UncommittedHoldsSlot(run: seq<State>, steps: seq<Step>, i: nat, q: nat)
    requires IsRun(run, steps) && i < |run| && q < |run[i].questions|
    requires run[i].questions[q].Uncommitted() && run[i].questions[q].cancelled.None?
    ensures run[i].Holds(q) && Current(run[i], run[i].questions[q])
  {
    RunOk(run, steps, i);
    assert QuestionOk(run[i].questions[q], run[i].Holds(q), Current(run[i], run[i].questions[q]));
  }

  predicate Discards(s: State, step: Step, k: Key) {
    match step
    case Forget(x) => x == k
    case AdmitGeneration(x, g) => x == k && Replaces(s.shared, k, g)
    case _ => false
  }

  /** Epochs only grow, and a question keeps the epoch it was admitted in. */
  ghost predicate EpochsKept(s: State, t: State, k: Key) {
    && s.Epoch(k) <= t.Epoch(k) && |s.questions| <= |t.questions|
    && (forall q | 0 <= q < |s.questions| ::
          t.questions[q].key == s.questions[q].key && t.questions[q].epoch == s.questions[q].epoch)
  }

  lemma EpochsTransitive(s: State, t: State, u: State, k: Key)
    requires EpochsKept(s, t, k) && EpochsKept(t, u, k)
    ensures EpochsKept(s, u, k)
  {
  }

  lemma StepKeepsEpochs(s: State, step: Step, k: Key)
    requires Enabled(s, step)
    ensures EpochsKept(s, Apply(s, step), k)
    ensures Discards(s, step, k) ==> s.Epoch(k) < Apply(s, step).Epoch(k)
  {
    forall q | 0 <= q < |s.questions|
      ensures Apply(s, step).questions[q].key == s.questions[q].key
      ensures Apply(s, step).questions[q].epoch == s.questions[q].epoch
    {
      StepKeepsKeys(s, step, q);
    }
    EpochSteps(s, step, k);
  }

  lemma RunStepKeepsEpochs(run: seq<State>, steps: seq<Step>, i: nat, k: Key)
    requires IsRun(run, steps) && i < |steps|
    ensures EpochsKept(run[i], run[i + 1], k)
  {
    assert Moves(run, steps, i);
    StepKeepsEpochs(run[i], steps[i], k);
  }

  lemma {:induction false} EpochsGrow(run: seq<State>, steps: seq<Step>, i: nat, j: nat, k: Key)
    requires IsRun(run, steps) && i <= j < |run|
    ensures EpochsKept(run[i], run[j], k)
  {
    if i < j {
      EpochsGrow(run, steps, i, j - 1, k);
      RunStepKeepsEpochs(run, steps, j - 1, k);
      EpochsTransitive(run[i], run[j - 1], run[j], k);
    }
  }

  lemma EpochSteps(s: State, step: Step, k: Key)
    requires Enabled(s, step)
    ensures |s.questions| <= |Apply(s, step).questions|
    ensures s.Epoch(k) <= Apply(s, step).Epoch(k)
    ensures Discards(s, step, k) ==> s.Epoch(k) < Apply(s, step).Epoch(k)
  {
  }

  lemma {:induction false} AdmittedEpoch(run: seq<State>, steps: seq<Step>, i: nat, q: nat)
    requires IsRun(run, steps) && i < |run| && q < |run[i].questions|
    ensures run[i].questions[q].epoch <= run[i].Epoch(run[i].questions[q].key)
  {
    if i > 0 {
      assert Moves(run, steps, i - 1);
      var s := run[i - 1];
      if q < |s.questions| {
        AdmittedEpoch(run, steps, i - 1, q);
        StepKeepsEpochs(s, steps[i - 1], s.questions[q].key);
      }
    }
  }

  /**
    The fence: after `forget` or a generation change, no answer to a question admitted earlier
    for that character is ever committed.
   */
  lemma Fence(run: seq<State>, steps: seq<Step>, i: nat, j: nat, q: nat)
    requires IsRun(run, steps) && i < j < |steps|
    requires q < |run[i].questions| && Discards(run[i], steps[i], run[i].questions[q].key)
    ensures steps[j] != Commit(q)
  {
    var k := run[i].questions[q].key;
    AdmittedEpoch(run, steps, i, q);
    assert Moves(run, steps, i) && Moves(run, steps, j);
    StepKeepsEpochs(run[i], steps[i], k);
    EpochsGrow(run, steps, i, j, k);
    EpochsGrow(run, steps, i + 1, j, k);
    RunOk(run, steps, j);
    assert QuestionOk(run[j].questions[q], run[j].Holds(q), Current(run[j], run[j].questions[q]));
  }
}
