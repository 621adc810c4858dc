/** The objects of `question.py` and `engine.py`, proved against `Conversation`. */
module Copilot {
  import opened Prelude
  import opened OrderedDict
  import opened Conversation

  type Callback = nat
  type Token = nat

  datatype QuestionError = QuestionTimeout | QuestionInvalidated

  function Values(entries: seq<(Token, Callback)>): (r: seq<Callback>)
    ensures |r| == |entries|
    ensures forall i | 0 <= i < |entries| :: r[i] == entries[i].1
  {
    seq(|entries|, i requires 0 <= i < |entries| => entries[i].1)
  }

  function WithoutToken(entries: seq<(Token, Callback)>, token: Token): (r: seq<(Token, Callback)>)
    ensures forall e :: e in r <==> e in entries && e.0 != token
  {
    if entries == [] then []
    else if entries[0].0 == token then WithoutToken(entries[1..], token)
    else [entries[0]] + WithoutToken(entries[1..], token)
  }

  /** `QuestionControl`: `ran` is the log of the callbacks run so far, in order. */
  class QuestionControl {
    const deadline: int
    var cancelled: bool
    var changed: bool
    var reason: string
    var callbacks: seq<(Token, Callback)>
    var ran: seq<Callback>
    var tokens: Token           // the next fresh token

    ghost predicate Valid() reads this {
      && (cancelled ==> callbacks == [])
      && (forall e | e in callbacks :: e.0 < tokens)
      && (forall i, j | 0 <= i < j < |callbacks| :: callbacks[i].0 != callbacks[j].0)
    }

    constructor (now: int, timeout: int)
      ensures Valid() && !cancelled && !changed && callbacks == [] && ran == []
      ensures deadline == now + timeout
    {
      deadline := now + timeout;
      cancelled, changed, reason := false, false, "";
      callbacks, ran, tokens := [], [], 0;
    }

    /** The first cancellation runs every registered callback once, in registration order; later ones do nothing. */
    method Cancel(why: string)
      requires Valid()
      modifies this
      ensures Valid() && cancelled && tokens == old(tokens)
      ensures old(cancelled) ==>
        reason == old(reason) && ran == old(ran) && changed == old(changed) && callbacks == old(callbacks)
      ensures !old(cancelled) ==>
        reason == why && changed && callbacks == [] && ran == old(ran) + Values(old(callbacks))
    {
      if cancelled {
        return;
      }
      reason := why;
      cancelled := true;
      var snapshot := Values(callbacks);
      callbacks := [];
      for i := 0 to |snapshot|
        invariant cancelled && reason == why && callbacks == [] && tokens == old(tokens)
        invariant ran == old(ran) + snapshot[..i]
      {
        ran := ran + [snapshot[i]];
      }
      changed := true;
    }

    /** Late registration runs the callback before returning; otherwise it is kept under a fresh token. */
    method OnCancel(callback: Callback) returns (token: Token)
      requires Valid()
      modifies this
      ensures Valid() && cancelled == old(cancelled) && reason == old(reason) && changed == old(changed)
      ensures token == old(tokens) && tokens == token + 1
      ensures cancelled ==> ran == old(ran) + [callback] && callbacks == []
      ensures !cancelled ==> ran == old(ran) && callbacks == old(callbacks) + [(token, callback)]
    {
      token := tokens;
      tokens := tokens + 1;
      if cancelled {
        ran := ran + [callback];
      } else {
        callbacks := callbacks + [(token, callback)];
      }
    }

    method Remove(token: Token)
      requires Valid()
      modifies this
      ensures Valid() && cancelled == old(cancelled) && reason == old(reason) && changed == old(changed)
      ensures ran == old(ran) && tokens == old(tokens)
      ensures callbacks == WithoutToken(old(callbacks), token)
    {
      WithoutTokenKeeps(callbacks, token);
      callbacks := WithoutToken(callbacks, token);
    }

    /** A positive remainder is returned only by an uncancelled question before its deadline. */
    method Remaining(now: int) returns (r: Result<int, QuestionError>)
      requires Valid()
      modifies this
      ensures Valid() && tokens == old(tokens)
      ensures r.Ok? <==> !old(cancelled) && now < deadline
      ensures r.Ok? ==> r.value == deadline - now && !cancelled && reason == old(reason)
      ensures r.Ok? ==> changed == old(changed) && ran == old(ran) && callbacks == old(callbacks)
      ensures r.Err? ==> cancelled && (r.error == QuestionTimeout <==> reason == "timeout")
      ensures old(cancelled) ==> reason == old(reason) && ran == old(ran)
      ensures !old(cancelled) && r.Err? ==> reason == "timeout" && ran == old(ran) + Values(old(callbacks))
    {
      if cancelled {
        return Err(if reason == "timeout" then QuestionTimeout else QuestionInvalidated);
      }
      var remaining := deadline - now;
      if remaining <= 0 {
        Cancel("timeout");
        return Err(if reason != "timeout" then QuestionInvalidated else QuestionTimeout);
      }
      return Ok(remaining);
    }
  }

  lemma {:induction false} WithoutTokenKeeps(entries: seq<(Token, Callback)>, token: Token)
    requires forall i, j | 0 <= i < j < |entries| :: entries[i].0 != entries[j].0
    ensures var r := WithoutToken(entries, token);
      && (forall i, j | 0 <= i < j < |r| :: r[i].0 != r[j].0)
      && |r| == |entries| - (if exists e :: e in entries && e.0 == token then 1 else 0)
  {
    if entries != [] {
      var rest := entries[1..];
      WithoutTokenKeeps(rest, token);
      assert entries == [entries[0]] + rest;
      var r := WithoutToken(rest, token);
      assert forall e :: e in r ==> e in rest;
      assert forall e :: e in entries <==> e == entries[0] || e in rest;
    }
  }

  lemma CommittedIs(s: Shared<QuestionControl>, t: Shared<QuestionControl>, k: Key, turn: Turn<QuestionControl>, sources: Sources<QuestionControl>)
    requires t == Committed(s, k, turn, sources)
    ensures s.Valid() ==>
      && k in t.answers.at && t.answers.at[k] == sources && k in t.dialogue.at
      && Latest(t.dialogue.at[k], if k in s.dialogue.at then s.dialogue.at[k] else [], turn)
  {
    if s.Valid() {
      AppendedIsLatest(if k in s.dialogue.at then s.dialogue.at[k] else [], turn);
      RecordKeeps(s.dialogue, k, Appended(if k in s.dialogue.at then s.dialogue.at[k] else [], turn), MAX_DIALOGUE_CHARACTERS);
      RecordKeeps(s.answers, k, sources, MAX_DIALOGUE_CHARACTERS);
    }
  }

  class Copilot {
    const limit: nat
    var inflight: map<Key, QuestionControl>
    var generations: map<Key, Generation>
    var dialogue: Dict<Key, seq<Turn<QuestionControl>>>
    var answers: Dict<Key, Sources<QuestionControl>>

    ghost function State(): Shared<QuestionControl> reads this {
      Shared(limit, inflight, generations, dialogue, answers)
    }

    constructor (concurrency: nat)
      requires concurrency >= 1
      ensures State() == Shared(concurrency, map[], map[], Dict([], map[]), Dict([], map[]))
    {
      limit := concurrency;
      inflight, generations := map[], map[];
      dialogue, answers := Dict([], map[]), Dict([], map[]);
    }

    /** The locked admission region of `ask`; the history is read before any other question can commit. */
    method AdmitQuestion(k: Key, expected: Option<Generation>, control: QuestionControl)
      returns (r: Result<seq<Turn<QuestionControl>>, AdmitError>)
      modifies this
      ensures var admitted := Admit(old(State()), k, expected, control);
        && r.Ok? == admitted.Ok?
        && State() == (if admitted.Ok? then admitted.value else old(State()))
        && (r.Err? ==> r.error == admitted.error)
      ensures r.Ok? ==> r.value == if k in old(dialogue).at then old(dialogue).at[k] else []
      ensures r.Ok? <==> (expected.None? || Get(old(generations), k) == expected) && k !in old(inflight) && |old(inflight)| < limit
      ensures expected.Some? && Get(old(generations), k) != expected ==> r == Err(Invalidated)
      ensures (expected.None? || Get(old(generations), k) == expected) && k in old(inflight) ==> r == Err(Busy)
      ensures (expected.None? || Get(old(generations), k) == expected) && k !in old(inflight) && |old(inflight)| >= limit ==> r == Err(Capacity)
      ensures inflight == if r.Ok? then old(inflight)[k := control] else old(inflight)
      ensures generations == old(generations) && dialogue == old(dialogue) && answers == old(answers)
    {
      if expected.Some? && Get(generations, k) != expected {
        return Err(Invalidated);
      }
      if k in inflight {
        return Err(Busy);
      }
      if |inflight| >= limit {
        return Err(Capacity);
      }
      inflight := inflight[k := control];
      return Ok(if k in dialogue.at then dialogue.at[k] else []);
    }

    method ReleaseQuestion(k: Key, control: QuestionControl)
      modifies this
      ensures State() == Release(old(State()), k, control)
      ensures inflight == if k in old(inflight) && old(inflight)[k] == control then old(inflight) - {k} else old(inflight)
      ensures generations == old(generations) && dialogue == old(dialogue) && answers == old(answers)
    {
      if Get(inflight, k) == Some(control) {
        inflight := inflight - {k};
      }
    }

    /** The locked commit region of `ask`: nothing is recorded once the control is cancelled. */
    method CommitAnswer(k: Key, question: string, control: QuestionControl, now: int, answer: string, references: seq<string>)
      returns (r: Result<int, QuestionError>)
      requires control.Valid()
      modifies this, control
      ensures control.Valid()
      ensures r.Ok? <==> !old(control.cancelled) && now < control.deadline
      ensures r.Err? ==> State() == old(State()) && control.cancelled
      ensures r.Ok? ==>
        && !control.cancelled
        && State() == Committed(old(State()), k, NewTurn(control, question, answer, references), Sources(control, references))
      ensures r.Ok? ==> inflight == old(inflight) && generations == old(generations)
      ensures r.Ok? && old(State()).Valid() ==>
        && k in answers.at && answers.at[k] == Sources(control, references)
        && k in dialogue.at && dialogue.at[k] != []
        && var turn := dialogue.at[k][|dialogue.at[k]| - 1];
        && Records(turn, control, question, answer, references)
        && Latest(dialogue.at[k], if k in old(dialogue).at then old(dialogue).at[k] else [], turn)
    {
      r := control.Remaining(now);
      if r.Err? {
        return;
      }
      var turns := if k in dialogue.at then dialogue.at[k] else [];
      dialogue := dialogue.PutLast(k, Appended(turns, NewTurn(control, question, answer, references)));
      ghost var recorded := dialogue.Trim(MAX_DIALOGUE_CHARACTERS);
      while |dialogue.order| > MAX_DIALOGUE_CHARACTERS
        invariant dialogue.Trim(MAX_DIALOGUE_CHARACTERS) == recorded
        invariant inflight == old(inflight) && generations == old(generations) && answers == old(answers)
        decreases |dialogue.order|
        modifies this
      {
        dialogue := Dict(dialogue.order[1..], dialogue.at - {dialogue.order[0]});
      }
      answers := answers.PutLast(k, Sources(control, references));
      ghost var kept := answers.Trim(MAX_DIALOGUE_CHARACTERS);
      while |answers.order| > MAX_DIALOGUE_CHARACTERS
        invariant answers.Trim(MAX_DIALOGUE_CHARACTERS) == kept
        invariant inflight == old(inflight) && generations == old(generations) && dialogue == recorded
        decreases |answers.order|
        modifies this
      {
        answers := Dict(answers.order[1..], answers.at - {answers.order[0]});
      }
      NewTurnRecords(control, question, answer, references);
      CommittedIs(old(State()), State(), k, NewTurn(control, question, answer, references), Sources(control, references));
    }

    /** `forget` cancels exactly the question that holds the character's slot. */
    method Forget(k: Key) returns (forgotten: bool)
      requires k in inflight ==> inflight[k].Valid()
      modifies this, if k in inflight then {inflight[k]} else {}
      ensures State() == Forgotten(old(State()), k)
      ensures inflight == old(inflight) && generations == old(generations)
      ensures k !in dialogue.at && k !in answers.at
      ensures forall x | x != k :: Get(dialogue.at, x) == Get(old(dialogue).at, x) && Get(answers.at, x) == Get(old(answers).at, x)
      ensures k in inflight ==> inflight[k].Valid() && inflight[k].cancelled
      ensures k in inflight && !old(inflight[k].cancelled) ==> inflight[k].reason == "invalidated"
      ensures forgotten == (k in old(dialogue).at || k in old(answers).at || k in inflight)
    {
      if k in inflight {
        inflight[k].Cancel("invalidated");
      }
      forgotten := k in dialogue.at || k in answers.at || k in inflight;
      dialogue := dialogue.Pop(k);
      answers := answers.Pop(k);
    }

    /** A rejected publication changes nothing; a changed generation also forgets the character. */
    method AdmitGeneration(k: Key, generation: Generation, published: bool) returns (ok: bool)
      requires k in inflight ==> inflight[k].Valid()
      modifies this, if k in inflight then {inflight[k]} else {}
      ensures ok == published
      ensures State() == if published then Admitted(old(State()), k, generation) else old(State())
      ensures inflight == old(inflight) && generations == if published then old(generations)[k := generation] else old(generations)
      ensures published && Get(old(generations), k) != Some(generation) ==> k !in dialogue.at && k !in answers.at
      ensures published && Get(old(generations), k) == Some(generation) ==> dialogue == old(dialogue) && answers == old(answers)
      ensures published && Replaces(old(State()), k, generation) && k in inflight ==> inflight[k].cancelled
      ensures !(published && Replaces(old(State()), k, generation)) && k in inflight ==> inflight[k].cancelled == old(inflight[k].cancelled)
    {
      ok := published;
      if !published {
        return;
      }
      if Get(generations, k) != Some(generation) {
        var _ := Forget(k);
        generations := generations[k := generation];
      }
    }
  }
}
