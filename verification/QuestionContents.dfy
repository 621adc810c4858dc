/**
  What the retained memories say, over every run of the question protocol: each turn and each
  answer's sources are those of a question that was meant for the session they are kept in.
 */
module QuestionContents {
  import opened Prelude
  import opened Conversation
  import opened QuestionSlots

  /** The question was answered and its worker has ended, so its outcome is final. */
  predicate Settled(x: Question) {
    x.Finished() && x.outcome.Answered?
  }

  ghost predicate TurnSays(questions: seq<Question>, turn: Turn<nat>) {
    && turn.owner < |questions|
    && var x := questions[turn.owner];
    && Settled(x) && Records(turn, turn.owner, x.text, x.outcome.text, x.outcome.references)
  }

  ghost predicate SourcesSay(questions: seq<Question>, sources: Sources<nat>) {
    && sources.owner < |questions|
    && var x := questions[sources.owner];
    && Settled(x) && sources.references == x.outcome.references
  }

  ghost predicate TurnsSay(s: State) {
    forall k, i | k in s.shared.dialogue.at && 0 <= i < |s.shared.dialogue.at[k]| ::
      TurnSays(s.questions, s.shared.dialogue.at[k][i])
  }

  ghost predicate AnswersSay(s: State) {
    forall k | k in s.shared.answers.at :: SourcesSay(s.questions, s.shared.answers.at[k])
  }

  predicate AsExpected(x: Question) {
    x.expected.Some? ==> x.admitted == x.expected
  }

  ghost predicate ContentsOk(s: State) {
    TurnsSay(s) && AnswersSay(s) && forall q | 0 <= q < |s.questions| :: AsExpected(s.questions[q])
  }

  /** A later list of the same questions, in which nothing final has changed. */
  ghost predicate Later(xs: seq<Question>, ys: seq<Question>) {
    && |xs| <= |ys|
    && (forall q | 0 <= q < |xs| ::
          && ys[q].text == xs[q].text && ys[q].expected == xs[q].expected && ys[q].admitted == xs[q].admitted
          && (Settled(xs[q]) ==> Settled(ys[q]) && ys[q].outcome == xs[q].outcome))
  }

  lemma ActLater(x: Question, a: Action)
    requires EnabledFor(x, a) && (x.caller.Starting? ==> x.worker.NotStarted?)
    ensures Later([x], [Act(x, a)])
  {
  }

  lemma StepLater(s: State, step: Step)
    requires QuestionsOk(s) && Enabled(s, step)
    ensures Later(s.questions, Apply(s, step).questions)
  {
    match step
    case Own(q, a) =>
      assert QuestionOk(s.questions[q], s.Holds(q), Current(s, s.questions[q]));
      ActLater(s.questions[q], a);
      assert [s.questions[q]][0] == s.questions[q] && [Act(s.questions[q], a)][0] == Act(s.questions[q], a);
    case _ =>
  }

  lemma LaterTurn(xs: seq<Question>, ys: seq<Question>, turn: Turn<nat>)
    requires Later(xs, ys) && TurnSays(xs, turn)
    ensures TurnSays(ys, turn)
  {
  }

  /** What is retained after a step was retained before, unless the step commits it. */
  lemma StepMemory(s: State, step: Step, k: Key)
    requires Inv(s) && Enabled(s, step) && !step.Commit?
    ensures var t := Apply(s, step).shared;
      && (k in t.dialogue.at ==> k in s.shared.dialogue.at && t.dialogue.at[k] == s.shared.dialogue.at[k])
      && (k in t.answers.at ==> k in s.shared.answers.at && t.answers.at[k] == s.shared.answers.at[k])
  {
    match step
    case Forget(x) => ForgetIsBounded(s.shared, x);
    case AdmitGeneration(x, g) => ForgetIsBounded(s.shared, x);
    case _ =>
  }

  lemma QuietStepOk(s: State, step: Step)
    requires Inv(s) && ContentsOk(s) && Enabled(s, step) && !step.Commit?
    ensures TurnsSay(Apply(s, step)) && AnswersSay(Apply(s, step))
  {
    var t := Apply(s, step);
    StepLater(s, step);
    forall k, i | k in t.shared.dialogue.at && 0 <= i < |t.shared.dialogue.at[k]|
      ensures TurnSays(t.questions, t.shared.dialogue.at[k][i])
    {
      StepMemory(s, step, k);
      LaterTurn(s.questions, t.questions, s.shared.dialogue.at[k][i]);
    }
    forall k | k in t.shared.answers.at ensures SourcesSay(t.questions, t.shared.answers.at[k]) {
      StepMemory(s, step, k);
    }
  }

  lemma CommittedTurnsSay(s: Shared<nat>, k: Key, turn: Turn<nat>, sources: Sources<nat>, questions: seq<Question>)
    requires s.Valid() && TurnSays(questions, turn)
    requires forall x, i | x in s.dialogue.at && 0 <= i < |s.dialogue.at[x]| :: TurnSays(questions, s.dialogue.at[x][i])
    ensures var t := Committed(s, k, turn, sources);
      forall x, i | x in t.dialogue.at && 0 <= i < |t.dialogue.at[x]| :: TurnSays(questions, t.dialogue.at[x][i])
  {
    var t := Committed(s, k, turn, sources);
    CommitIsBounded(s, k, turn, sources);
    var before := if k in s.dialogue.at then s.dialogue.at[k] else [];
    forall x, i | x in t.dialogue.at && 0 <= i < |t.dialogue.at[x]| ensures TurnSays(questions, t.dialogue.at[x][i]) {
      if x == k {
        AppendedFrom(before, turn, i);
      }
    }
  }

  lemma CommitSays(s: State, q: nat)
    requires Inv(s) && ContentsOk(s) && Enabled(s, Commit(q))
    ensures TurnsSay(CommitState(s, q)) && AnswersSay(CommitState(s, q))
  {
    var t := CommitState(s, q);
    var x := s.questions[q];
    assert QuestionOk(x, s.Holds(q), Current(s, x));
    StepLater(s, Commit(q));
    var turn, sources := NewTurn(q, x.text, x.outcome.text, x.outcome.references), Sources(q, x.outcome.references);
    NewTurnRecords(q, x.text, x.outcome.text, x.outcome.references);
    forall k, i | k in s.shared.dialogue.at && 0 <= i < |s.shared.dialogue.at[k]|
      ensures TurnSays(t.questions, s.shared.dialogue.at[k][i])
    {
      LaterTurn(s.questions, t.questions, s.shared.dialogue.at[k][i]);
    }
    CommittedTurnsSay(s.shared, x.key, turn, sources, t.questions);
    CommitIsBounded(s.shared, x.key, turn, sources);
  }

  lemma AskAsExpected(s: State, k: Key, text: string, expected: Option<Generation>)
    requires Enabled(s, Ask(k, text, expected))
    ensures expected.Some? ==> s.shared.Generation(k) == expected
  {
    AdmitIff(s.shared, k, expected, |s.questions|);
  }

  lemma ContentsStepOk(s: State, step: Step)
    requires Inv(s) && ContentsOk(s) && Enabled(s, step)
    ensures ContentsOk(Apply(s, step))
  {
    var t := Apply(s, step);
    StepLater(s, step);
    forall q | 0 <= q < |t.questions| ensures AsExpected(t.questions[q]) {
      if q < |s.questions| {
        assert AsExpected(s.questions[q]);
      } else {
        AskAsExpected(s, step.key, step.text, step.expected);
      }
    }
    if step.Commit? {
      CommitSays(s, step.q);
    } else {
      QuietStepOk(s, step);
    }
  }

  lemma {:induction false} RunContents(run: seq<State>, steps: seq<Step>, i: nat)
    requires IsRun(run, steps) && i < |run|
    ensures ContentsOk(run[i])
  {
    if i > 0 {
      RunContents(run, steps, i - 1);
      RunOk(run, steps, i - 1);
      assert Moves(run, steps, i - 1);
      ContentsStepOk(run[i - 1], steps[i - 1]);
    }
  }

  /** In every reachable state an admitted question that named a session was admitted in that session. */
  lemma AdmittedInItsSession(run: seq<State>, steps: seq<Step>, i: nat, q: nat)
    requires IsRun(run, steps) && i < |run| && q < |run[i].questions| && run[i].questions[q].expected.Some?
    ensures run[i].questions[q].admitted == run[i].questions[q].expected
  {
    RunContents(run, steps, i);
    assert AsExpected(run[i].questions[q]);
  }

  /**
    Every retained turn holds the question asked and the answer given, each cut to its limit, of a
    question for which no session or the one still current was named.
   */
  lemma TurnIsOfItsSession(run: seq<State>, steps: seq<Step>, i: nat, k: Key, turn: Turn<nat>)
    requires IsRun(run, steps) && i < |run| && k in run[i].shared.dialogue.at && turn in run[i].shared.dialogue.at[k]
    ensures turn.owner < |run[i].questions|
    ensures var x := run[i].questions[turn.owner];
      && x.key == k && x.outcome.Answered?
      && Records(turn, turn.owner, x.text, x.outcome.text, x.outcome.references)
      && (x.expected.Some? ==> x.expected == run[i].shared.Generation(k))
  {
    RetainedIsCurrent(run, steps, i, k, turn);
    RunContents(run, steps, i);
    var n :| 0 <= n < |run[i].shared.dialogue.at[k]| && run[i].shared.dialogue.at[k][n] == turn;
    assert TurnSays(run[i].questions, run[i].shared.dialogue.at[k][n]);
    assert AsExpected(run[i].questions[turn.owner]);
  }

  /** The retained sources are exactly those of the answer given. */
  lemma SourcesAreOfTheAnswer(run: seq<State>, steps: seq<Step>, i: nat, k: Key)
    requires IsRun(run, steps) && i < |run| && k in run[i].shared.answers.at
    ensures var sources := run[i].shared.answers.at[k];
      && sources.owner < |run[i].questions|
      && run[i].questions[sources.owner].outcome.Answered?
      && sources.references == run[i].questions[sources.owner].outcome.references
  {
    RunContents(run, steps, i);
    assert SourcesSay(run[i].questions, run[i].shared.answers.at[k]);
  }
}
