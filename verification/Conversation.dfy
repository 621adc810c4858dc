/**
  The state a Copilot guards with its state lock: question slots, admitted session
  generations, retained dialogue and answer sources. Every function below is one region
  that runs with the lock held; `C` is the identity of a question control.
 */
module Conversation {
  import opened Prelude
  import opened OrderedDict

  type Key = string         // a character name, stripped and casefolded
  type Generation = string

  const MAX_DIALOGUE_CHARACTERS := 256
  const MAX_DIALOGUE_TURNS := 4

  datatype Turn<C> = Turn(owner: C, question: string, answer: string, sources: seq<string>)
  datatype Sources<C> = Sources(owner: C, references: seq<string>)

  datatype AdmitError = Invalidated | Busy | Capacity

  datatype Shared<C> = Shared(
    limit: nat,
    inflight: map<Key, C>,
    generations: map<Key, Generation>,
    dialogue: Dict<Key, seq<Turn<C>>>,
    answers: Dict<Key, Sources<C>>)
  {
    ghost predicate Valid() {
      && dialogue.Valid()
      && answers.Valid()
      && |dialogue.order| <= MAX_DIALOGUE_CHARACTERS
      && |answers.order| <= MAX_DIALOGUE_CHARACTERS
      && (forall k | k in dialogue.at :: 1 <= |dialogue.at[k]| <= MAX_DIALOGUE_TURNS)
      && |inflight| <= limit
    }

    function Generation(k: Key): Option<Generation> {
      Get(generations, k)
    }
  }

  function Take<T>(s: seq<T>, n: nat): seq<T> {
    if |s| <= n then s else s[..n]
  }

  /** `deque(maxlen=4).append(turn)` */
  function Appended<T>(turns: seq<T>, turn: T): (r: seq<T>) {
    var all := turns + [turn];
    if |all| <= MAX_DIALOGUE_TURNS then all else all[|all| - MAX_DIALOGUE_TURNS..]
  }

  /** `a` is what is left of `b` when it is cut to `n` elements. */
  predicate CutTo<T(==)>(a: seq<T>, b: seq<T>, n: nat) {
    a <= b && |a| == if |b| < n then |b| else n
  }

  /** A turn records its question, answer and first sources, each cut to its limit. */
  predicate Records<C(==)>(turn: Turn<C>, c: C, question: string, answer: string, sources: seq<string>) {
    && turn.owner == c
    && CutTo(turn.question, question, 1000) && CutTo(turn.answer, answer, 2000) && CutTo(turn.sources, sources, 3)
  }

  /** `turns` holds the latest four of the turns before and the new one. */
  predicate Latest<C(==)>(turns: seq<Turn<C>>, before: seq<Turn<C>>, turn: Turn<C>) {
    && |turns| == (if |before| < 4 then |before| + 1 else 4)
    && turns == (before + [turn])[|before| + 1 - |turns|..]
  }

  lemma NewTurnRecords<C>(c: C, question: string, answer: string, sources: seq<string>)
    ensures Records(NewTurn(c, question, answer, sources), c, question, answer, sources)
  {
  }

  lemma AppendedIsLatest<C>(before: seq<Turn<C>>, turn: Turn<C>)
    requires |before| <= 4
    ensures Latest(Appended(before, turn), before, turn)
  {
  }

  function NewTurn<C>(c: C, question: string, answer: string, sources: seq<string>): Turn<C> {
    Turn(c, Take(question, 1000), Take(answer, 2000), Take(sources, 3))
  }

  function Recorded<C>(d: Dict<Key, seq<Turn<C>>>, k: Key, turn: Turn<C>): (r: Dict<Key, seq<Turn<C>>>) {
    d.PutLast(k, Appended(if k in d.at then d.at[k] else [], turn)).Trim(MAX_DIALOGUE_CHARACTERS)
  }

  function Admit<C>(s: Shared<C>, k: Key, expected: Option<Generation>, c: C): (r: Result<Shared<C>, AdmitError>) {
    if expected.Some? && s.Generation(k) != expected then Err(Invalidated)
    else if k in s.inflight then Err(Busy)
    else if |s.inflight| >= s.limit then Err(Capacity)
    else Ok(s.(inflight := s.inflight[k := c]))
  }

  /** Identity-checked: only the control that owns the slot can free it. */
  function Release<C(==)>(s: Shared<C>, k: Key, c: C): (r: Shared<C>) {
    if Get(s.inflight, k) == Some(c) then s.(inflight := s.inflight - {k}) else s
  }

  /** What `forget` does besides cancelling the question that holds the slot of `k`. */
  function Forgotten<C>(s: Shared<C>, k: Key): (r: Shared<C>) {
    s.(dialogue := s.dialogue.Pop(k), answers := s.answers.Pop(k))
  }

  predicate Replaces<C>(s: Shared<C>, k: Key, g: Generation) {
    s.Generation(k) != Some(g)
  }

  function Admitted<C>(s: Shared<C>, k: Key, g: Generation): (r: Shared<C>) {
    if Replaces(s, k, g)
    then Forgotten(s, k).(generations := s.generations[k := g])
    else s
  }

  function Committed<C>(s: Shared<C>, k: Key, turn: Turn<C>, sources: Sources<C>): (r: Shared<C>) {
    s.(dialogue := Recorded(s.dialogue, k, turn),
       answers := s.answers.PutLast(k, sources).Trim(MAX_DIALOGUE_CHARACTERS))
  }

  /**
    A commit keeps both memories bounded, adds exactly one turn for its own character as the
    newest one, and touches other characters only by dropping the least recently answered.
   */
  lemma CommitIsBounded<C(!new)>(s: Shared<C>, k: Key, turn: Turn<C>, sources: Sources<C>)
    requires s.Valid()
    ensures var r := Committed(s, k, turn, sources);
      && r.Valid()
      && r.inflight == s.inflight && r.generations == s.generations && r.limit == s.limit
      && k in r.dialogue.at && k in r.answers.at && r.answers.at[k] == sources
      && r.dialogue.at[k] == Appended(if k in s.dialogue.at then s.dialogue.at[k] else [], turn)
      && r.dialogue.at[k][|r.dialogue.at[k]| - 1] == turn
      && (forall x | x in r.dialogue.at && x != k :: x in s.dialogue.at && r.dialogue.at[x] == s.dialogue.at[x])
      && (forall x | x in r.answers.at && x != k :: x in s.answers.at && r.answers.at[x] == s.answers.at[x])
      && (forall x | x in s.dialogue.at && x !in r.dialogue.at ::
            |s.dialogue.order| == MAX_DIALOGUE_CHARACTERS && k !in s.dialogue.at && x == s.dialogue.order[0])
  {
    RecordKeeps(s.dialogue, k, Appended(if k in s.dialogue.at then s.dialogue.at[k] else [], turn), MAX_DIALOGUE_CHARACTERS);
    RecordKeeps(s.answers, k, sources, MAX_DIALOGUE_CHARACTERS);
  }

  lemma ForgetIsBounded<C(!new)>(s: Shared<C>, k: Key)
    requires s.Valid()
    ensures var r := Forgotten(s, k);
      && r.Valid()
      && k !in r.dialogue.at && k !in r.answers.at
      && r.inflight == s.inflight && r.generations == s.generations && r.limit == s.limit
      && (forall x | x != k :: Get(r.dialogue.at, x) == Get(s.dialogue.at, x))
      && (forall x | x != k :: Get(r.answers.at, x) == Get(s.answers.at, x))
  {
    PopKeeps(s.dialogue, k);
    PopKeeps(s.answers, k);
  }

  /**
    Exactly when a question is admitted: the session it expects, if any, is the current one, the
    character has no question running and there is a slot left. The first of these that fails is
    the error; an admitted question takes the slot and changes nothing else.
   */
  lemma AdmitIff<C(!new)>(s: Shared<C>, k: Key, expected: Option<Generation>, c: C)
    ensures var r := Admit(s, k, expected, c);
      var current := expected.None? || (k in s.generations && s.generations[k] == expected.value);
      && (r.Ok? <==> current && k !in s.inflight && |s.inflight| < s.limit)
      && (r.Ok? ==> r.value == Shared(s.limit, s.inflight[k := c], s.generations, s.dialogue, s.answers))
      && (r == Err(Invalidated) <==> !current)
      && (r == Err(Busy) <==> current && k in s.inflight)
      && (r == Err(Capacity) <==> current && k !in s.inflight && |s.inflight| >= s.limit)
  {
  }

  /** A published generation is current afterwards; a changed one clears the character's memories, the same one changes nothing. */
  lemma AdmittedIs<C(!new)>(s: Shared<C>, k: Key, g: Generation)
    requires s.Valid()
    ensures var r := Admitted(s, k, g);
      && r.generations == s.generations[k := g] && r.inflight == s.inflight && r.limit == s.limit
      && (k in s.generations && s.generations[k] == g ==> r == s)
      && (!(k in s.generations && s.generations[k] == g) ==> k !in r.dialogue.at && k !in r.answers.at)
      && (forall x | x != k :: Get(r.dialogue.at, x) == Get(s.dialogue.at, x) && Get(r.answers.at, x) == Get(s.answers.at, x))
  {
    ForgetIsBounded(s, k);
    if k in s.generations && s.generations[k] == g {
      assert s.generations[k := g] == s.generations;
    }
  }

  /** A late release never frees the slot of a successor. */
  lemma ReleaseIsExact<C(!new)>(s: Shared<C>, k: Key, c: C)
    ensures var r := Release(s, k, c);
      && Get(r.inflight, k) != Some(c)
      && (forall x: Key | Get(s.inflight, x) != Some(c) :: Get(r.inflight, x) == Get(s.inflight, x))
      && (forall x: Key | x != k :: Get(r.inflight, x) == Get(s.inflight, x))
      && |r.inflight| <= |s.inflight|
      && r == s.(inflight := r.inflight)
  {
    var r := Release(s, k, c);
    if k in s.inflight && s.inflight[k] == c {
      assert r.inflight.Keys == s.inflight.Keys - {k};
      assert |s.inflight.Keys - {k}| == |s.inflight.Keys| - 1;
    }
  }
}
