/**
  What a question can still do: from every state in which it is admitted there is a way to its
  answer, to a timeout and to a failed start, and each gives the slot back.
 */
module QuestionPaths {
  import opened Prelude
  import opened OrderedDict
  import opened Conversation
  import opened QuestionSlots

  /** The steps in order, each enabled where it is taken. */
  ghost predicate Leads(s: State, steps: seq<Step>, t: State)
    decreases |steps|
  {
    if steps == [] then t == s
    else Enabled(s, steps[0]) && Leads(Apply(s, steps[0]), steps[1..], t)
  }

  lemma {:induction false} LeadsOn(s: State, steps: seq<Step>, m: State, step: Step)
    requires Leads(s, steps, m) && Enabled(m, step)
    ensures Leads(s, steps + [step], Apply(m, step))
    decreases |steps|
  {
    if steps == [] {
      assert (steps + [step])[1..] == [];
    } else {
      LeadsOn(Apply(s, steps[0]), steps[1..], m, step);
      assert (steps + [step])[1..] == steps[1..] + [step];
    }
  }

  /** Question `q` alone goes on; nothing is shared yet but the slot it holds. */
  ghost predicate OnItsWay(s: State, t: State, q: nat, x: Question) {
    && |t.questions| == q + 1 && t.questions[q] == x && t.epochs == s.epochs
    && t.shared.limit == s.shared.limit && t.shared.inflight == s.shared.inflight[x.key := q]
    && t.shared.generations == s.shared.generations && t.shared.dialogue == s.shared.dialogue && t.shared.answers == s.shared.answers
  }

  /** One step of the question's own threads. */
  lemma OwnStep(s: State, steps: seq<Step>, m: State, base: State, q: nat, x: Question, a: Action) returns (t: State, more: seq<Step>, y: Question)
    requires Leads(s, steps, m) && OnItsWay(base, m, q, x) && EnabledFor(x, a)
    ensures y == Act(x, a) && y.key == x.key && Leads(s, more, t) && OnItsWay(base, t, q, y)
  {
    LeadsOn(s, steps, m, Own(q, a));
    t, more, y := Apply(m, Own(q, a)), steps + [Own(q, a)], Act(x, a);
  }

  lemma Asked(s: State, k: Key, text: string, expected: Option<Generation>) returns (t: State, steps: seq<Step>, x: Question)
    requires Admit(s.shared, k, expected, |s.questions|).Ok?
    ensures x == Question(k, text, expected, s.shared.Generation(k), s.Epoch(k), Starting, NotStarted, None, NoOutcome, false)
    ensures Leads(s, steps, t) && OnItsWay(s, t, |s.questions|, x)
  {
    var none: seq<Step> := [];
    LeadsOn(s, none, s, Ask(k, text, expected));
    t, steps := Apply(s, Ask(k, text, expected)), none + [Ask(k, text, expected)];
    x := t.questions[|s.questions|];
  }

  /** What is left of question `q` when it has let go of its slot. */
  ghost predicate LetGo(t: State, q: nat, k: Key) {
    q < |t.questions| && t.questions[q].caller.Returned? && t.questions[q].worker.Ended? && k !in t.shared.inflight
  }

  ghost predicate TurnIs(t: State, q: nat, k: Key, text: string, answer: string, references: seq<string>) {
    && k in t.shared.dialogue.at && t.shared.dialogue.at[k] != []
    && Records(t.shared.dialogue.at[k][|t.shared.dialogue.at[k]| - 1], q, text, answer, references)
  }

  lemma CommitTurn(m: State, q: nat)
    requires q < |m.questions| && Enabled(m, Commit(q)) && m.shared.Valid() && Get(m.shared.inflight, m.questions[q].key) == Some(q)
    ensures var t := Apply(m, Commit(q)); var x := m.questions[q];
      && |t.questions| == |m.questions| && t.questions[q] == x.(caller := Finishing, committed := true)
      && t.shared.inflight == m.shared.inflight && TurnIs(t, q, x.key, x.text, x.outcome.text, x.outcome.references)
  {
    var x := m.questions[q];
    var before := if x.key in m.shared.dialogue.at then m.shared.dialogue.at[x.key] else [];
    var turn := NewTurn(q, x.text, x.outcome.text, x.outcome.references);
    NewTurnRecords(q, x.text, x.outcome.text, x.outcome.references);
    AppendedIsLatest(before, turn);
    RecordKeeps(m.shared.dialogue, x.key, Appended(before, turn), MAX_DIALOGUE_CHARACTERS);
    assert (before + [turn])[|before|] == turn;
  }

  /** The worker ends, the caller takes the release and frees the slot. */
  lemma Leave(s: State, steps: seq<Step>, m: State, q: nat, k: Key) returns (t: State, more: seq<Step>)
    requires Leads(s, steps, m) && q < |m.questions| && m.questions[q].key == k && Get(m.shared.inflight, k) == Some(q)
    requires m.questions[q].caller.Finishing? && m.questions[q].worker.TestingCancelled? && m.questions[q].cancelled.None?
    ensures Leads(s, more, t) && |more| == |steps| + 3 && LetGo(t, q, k)
    ensures t.shared.dialogue == m.shared.dialogue && t.questions[q].committed == m.questions[q].committed
  {
    LeadsOn(s, steps, m, Own(q, WorkerEnds));
    var one := Apply(m, Own(q, WorkerEnds));
    LeadsOn(s, steps + [Own(q, WorkerEnds)], one, Own(q, TakesRelease));
    var two := Apply(one, Own(q, TakesRelease));
    more := steps + [Own(q, WorkerEnds)] + [Own(q, TakesRelease)];
    LeadsOn(s, more, two, Step.Release(q, false));
    more, t := more + [Step.Release(q, false)], Apply(two, Step.Release(q, false));
  }

  /** An admitted question can be answered: its turn is then the latest of its character, and its slot is free. */
  lemma CanBeAnswered(s: State, k: Key, text: string, expected: Option<Generation>, answer: string, references: seq<string>)
      returns (t: State, steps: seq<Step>)
    requires s.shared.Valid() && Admit(s.shared, k, expected, |s.questions|).Ok?
    ensures Leads(s, steps, t) && LetGo(t, |s.questions|, k) && t.questions[|s.questions|].committed
    ensures TurnIs(t, |s.questions|, k, text, answer, references)
  {
    var q := |s.questions|;
    var x;
    t, steps, x := ReadsItsAnswer(s, k, text, expected, Answered(answer, references));
    AdmittedValid(s, k, expected, q);
    CommitTurn(t, q);
    LeadsOn(s, steps, t, Commit(q));
    t, steps := Leave(s, steps + [Commit(q)], Apply(t, Commit(q)), q, k);
  }

  lemma AdmittedValid(s: State, k: Key, expected: Option<Generation>, q: nat)
    requires s.shared.Valid() && Admit(s.shared, k, expected, q).Ok?
    ensures Admit(s.shared, k, expected, q).value.Valid()
  {
  }

  lemma GivesUpWaiting(s: State, k: Key, text: string, expected: Option<Generation>) returns (t: State, steps: seq<Step>, x: Question)
    requires s.shared.Valid() && Admit(s.shared, k, expected, |s.questions|).Ok?
    ensures Leads(s, steps, t) && OnItsWay(s, t, |s.questions|, x)
    ensures x == Question(k, text, expected, s.shared.Generation(k), s.Epoch(k), Finishing, Running, Some(Timeout), NoOutcome, false)
  {
    var q := |s.questions|;
    t, steps, x := Asked(s, k, text, expected);
    t, steps, x := OwnStep(s, steps, t, s, q, x, StartWorker);
    t, steps, x := OwnStep(s, steps, t, s, q, x, WaitReturns);
    t, steps, x := OwnStep(s, steps, t, s, q, x, CheckPasses);
    t, steps, x := OwnStep(s, steps, t, s, q, x, SeesUnfinished);
    t, steps, x := OwnStep(s, steps, t, s, q, x, GivesUp);
  }

  lemma ReadsItsAnswer(s: State, k: Key, text: string, expected: Option<Generation>, o: Outcome) returns (t: State, steps: seq<Step>, x: Question)
    requires s.shared.Valid() && Admit(s.shared, k, expected, |s.questions|).Ok? && o.Answered?
    ensures Leads(s, steps, t) && OnItsWay(s, t, |s.questions|, x)
    ensures x == Question(k, text, expected, s.shared.Generation(k), s.Epoch(k), Committing, TestingCancelled, None, o, false)
  {
    var q := |s.questions|;
    t, steps, x := Asked(s, k, text, expected);
    t, steps, x := OwnStep(s, steps, t, s, q, x, StartWorker);
    t, steps, x := OwnStep(s, steps, t, s, q, x, WorkerResult(o));
    t, steps, x := OwnStep(s, steps, t, s, q, x, WorkerFinishes);
    t, steps, x := OwnStep(s, steps, t, s, q, x, WaitReturns);
    t, steps, x := OwnStep(s, steps, t, s, q, x, CheckPasses);
    t, steps, x := OwnStep(s, steps, t, s, q, x, SeesFinished);
    t, steps, x := OwnStep(s, steps, t, s, q, x, ReadsAnswer);
  }

  /** A question whose worker does not finish in time can leave it behind; the worker then frees the slot, and nothing is retained. */
  lemma CanTimeOut(s: State, k: Key, text: string, expected: Option<Generation>, late: Outcome) returns (t: State, steps: seq<Step>)
    requires s.shared.Valid() && Admit(s.shared, k, expected, |s.questions|).Ok?
    ensures Leads(s, steps, t) && LetGo(t, |s.questions|, k) && !t.questions[|s.questions|].committed
    ensures t.questions[|s.questions|].cancelled == Some(Timeout)
    ensures t.shared.dialogue == s.shared.dialogue && t.shared.answers == s.shared.answers
  {
    var q := |s.questions|;
    var x;
    t, steps, x := GivesUpWaiting(s, k, text, expected);
    t, steps, x := OwnStep(s, steps, t, s, q, x, LeavesToWorker);
    t, steps, x := OwnStep(s, steps, t, s, q, x, WorkerResult(late));
    t, steps, x := OwnStep(s, steps, t, s, q, x, WorkerFinishes);
    t, steps, x := OwnStep(s, steps, t, s, q, x, WorkerSeesCancelled);
    LeadsOn(s, steps, t, Step.Release(q, true));
    t, steps := Apply(t, Step.Release(q, true)), steps + [Step.Release(q, true)];
  }

  /** A question whose worker cannot be started frees its slot itself. */
  lemma CanFailToStart(s: State, k: Key, text: string, expected: Option<Generation>) returns (t: State, steps: seq<Step>)
    requires s.shared.Valid() && Admit(s.shared, k, expected, |s.questions|).Ok?
    ensures Leads(s, steps, t) && k !in t.shared.inflight && t.questions != [] && t.questions[|t.questions| - 1].caller.Returned?
    ensures t.shared.dialogue == s.shared.dialogue && t.shared.answers == s.shared.answers
  {
    var q := |s.questions|;
    var x;
    t, steps, x := Asked(s, k, text, expected);
    t, steps, x := OwnStep(s, steps, t, s, q, x, StartFails);
    t, steps, x := OwnStep(s, steps, t, s, q, x, TakesRelease);
    LeadsOn(s, steps, t, Step.Release(q, false));
    t, steps := Apply(t, Step.Release(q, false)), steps + [Step.Release(q, false)];
  }
}
