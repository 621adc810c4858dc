/**
  What the parts of the prompt are, in characters and fields: cleaned and bounded texts, the cuts of
  a record, the sections and their limits, and what the question and the question before it take.
 */
module PromptLaws {
  import opened Prelude
  import opened PromptBudget

  // ------------------------------------------------------------------ texts

  predicate White(c: char) {
    c in " \t\n\r\U{000B}\U{000C}"
  }

  /** All of the white space around the string lies before `i` or from `j` on. */
  predicate Trims(s: string, i: nat, j: nat) {
    && i <= j <= |s| && (forall k | 0 <= k < i :: White(s[k])) && (forall k | j <= k < |s| :: White(s[k]))
    && (i < j ==> !White(s[i]) && !White(s[j - 1]))
  }

  /** Dropping NUL characters works piece by piece, and on one character it is what the name says. */
  lemma {:induction false} WithoutNulJoin(a: string, b: string, c: char)
    ensures WithoutNul(a + b) == WithoutNul(a) + WithoutNul(b)
    ensures WithoutNul([c]) == if c == '\0' then "" else [c]
  {
    assert [c][..0] == "";
    if b == "" {
      assert a + b == a;
    } else {
      assert (a + b)[..|a + b| - 1] == a + b[..|b| - 1];
      WithoutNulJoin(a, b[..|b| - 1], c);
    }
  }

  lemma {:induction false} StripLeftIs(s: string) returns (i: nat)
    ensures i <= |s| && StripLeft(s) == s[i..] && (i < |s| ==> !White(s[i])) && forall k | 0 <= k < i :: White(s[k])
  {
    if s != "" && IsBlank(s[0]) {
      var j := StripLeftIs(s[1..]);
      i := j + 1;
      forall k | 0 <= k < i ensures White(s[k]) {
        if k > 0 {
          assert s[k] == s[1..][k - 1];
        }
      }
    } else {
      i := 0;
    }
  }

  lemma {:induction false} StripRightIs(s: string) returns (j: nat)
    ensures j <= |s| && StripRight(s) == s[..j] && (j > 0 ==> !White(s[j - 1])) && forall k | j <= k < |s| :: White(s[k])
  {
    if s != "" && IsBlank(s[|s| - 1]) {
      j := StripRightIs(s[..|s| - 1]);
      assert s[..|s| - 1][..j] == s[..j];
      forall k | j <= k < |s| ensures White(s[k]) {
        if k < |s| - 1 {
          assert s[k] == s[..|s| - 1][k];
        }
      }
    } else {
      j := |s|;
    }
  }

  ghost predicate IsClean(s: string, r: string) {
    exists i: nat, j: nat :: Trims(WithoutNul(s), i, j) && r == WithoutNul(s)[i..j]
  }

  /** A cleaned text is the text without NUL characters and without the white space around that. */
  lemma CleanIs(s: string)
    ensures IsClean(s, Clean(s))
  {
    var t := WithoutNul(s);
    var i := StripLeftIs(t);
    var j := StripRightIs(t[i..]);
    forall k | i + j <= k < |t| ensures White(t[k]) {
      assert t[k] == t[i..][k - i];
    }
    if j > 0 {
      assert t[i..][j - 1] == t[i + j - 1];
    }
    assert t[i..][..j] == t[i..i + j];
    assert Trims(t, i, i + j);
  }

  /** `n` characters are the longest start of at most `room` that does not end in white space. */
  predicate IsCutAt(text: string, room: nat, n: nat) {
    && n <= room <= |text| && (n > 0 ==> !White(text[n - 1])) && forall k | n <= k < room :: White(text[k])
  }

  ghost predicate IsBounded(text: string, maximum: nat, r: string) {
    if |text| <= maximum then r == text
    else if maximum <= 13 then r == text[..maximum]
    else exists n: nat :: IsCutAt(text, maximum - 13, n) && r == text[..n] + " …[truncated]"
  }

  /** A bounded text: whole, or cut after its last visible character that leaves room for the mark. */
  lemma BoundedIs(s: string, maximum: nat)
    ensures IsBounded(Clean(s), maximum, ShortText(s, maximum))
  {
    var text := Clean(s);
    if |text| > maximum > 13 {
      var n := StripRightIs(text[..maximum - 13]);
      assert text[..maximum - 13][..n] == text[..n];
      forall k | n <= k < maximum - 13 ensures White(text[k]) {
        assert text[k] == text[..maximum - 13][k];
      }
      assert IsCutAt(text, maximum - 13, n);
    }
  }

  function Glue(parts: seq<string>, between: string): string {
    if parts == [] then "" else if |parts| == 1 then parts[0] else parts[0] + between + Glue(parts[1..], between)
  }

  ghost predicate Contains(s: string, part: string) {
    exists i :: 0 <= i <= |s| && part <= s[i..]
  }

  ghost predicate IsSplit(s: string, mark: string, parts: seq<string>) {
    parts != [] && s == Glue(parts, mark) && forall k | 0 <= k < |parts| :: !Contains(parts[k], mark)
  }

  ghost predicate IsReplaced(s: string, mark: string, r: string) {
    exists parts :: IsSplit(s, mark, parts) && r == Glue(parts, "")
  }

  lemma SplitMark(s: string, mark: string, parts: seq<string>)
    requires mark != "" && mark <= s && IsSplit(s[|mark|..], mark, parts)
    ensures IsSplit(s, mark, [""] + parts) && Glue([""] + parts, "") == Glue(parts, "")
  {
    var more := [""] + parts;
    assert more[1..] == parts;
    assert s == mark + s[|mark|..];
  }

  lemma StillNone(s: string, mark: string, part: string)
    requires s != "" && !(mark <= s) && part <= s[1..] && !Contains(part, mark)
    ensures !Contains([s[0]] + part, mark)
  {
    var first := [s[0]] + part;
    forall i | 0 <= i <= |first| ensures !(mark <= first[i..]) {
      if i == 0 {
        assert first[0..] == first && first <= s;
      } else {
        assert first[i..] == part[i - 1..];
      }
    }
  }

  lemma GlueFirst(parts: seq<string>, between: string, c: char)
    requires parts != []
    ensures parts[0] <= Glue(parts, between)
    ensures Glue([[c] + parts[0]] + parts[1..], between) == [c] + Glue(parts, between)
  {
    var more := [[c] + parts[0]] + parts[1..];
    assert more[1..] == parts[1..];
    if |parts| > 1 {
      assert [c] + parts[0] + between + Glue(parts[1..], between) == [c] + (parts[0] + between + Glue(parts[1..], between));
    }
  }

  lemma SplitChar(s: string, mark: string, parts: seq<string>)
    requires s != "" && !(mark <= s) && IsSplit(s[1..], mark, parts)
    ensures var more := [[s[0]] + parts[0]] + parts[1..]; IsSplit(s, mark, more) && Glue(more, "") == [s[0]] + Glue(parts, "")
  {
    GlueFirst(parts, mark, s[0]);
    GlueFirst(parts, "", s[0]);
    assert s == [s[0]] + s[1..];
    StillNone(s, mark, parts[0]);
  }

  /** The marks of cuts are taken out: what is left are the texts between them. */
  lemma {:induction false} MarksReplaced(s: string)
    ensures IsReplaced(s, "…[truncated]", WithoutMarks(s))
    decreases |s|
  {
    if s == "" {
      assert IsSplit("", CUT_MARK, [""]);
    } else if CUT_MARK <= s {
      MarksReplaced(s[|CUT_MARK|..]);
      var parts :| IsSplit(s[|CUT_MARK|..], CUT_MARK, parts) && WithoutMarks(s[|CUT_MARK|..]) == Glue(parts, "");
      SplitMark(s, CUT_MARK, parts);
    } else {
      MarksReplaced(s[1..]);
      var parts :| IsSplit(s[1..], CUT_MARK, parts) && WithoutMarks(s[1..]) == Glue(parts, "");
      SplitChar(s, CUT_MARK, parts);
    }
  }

  // ------------------------------------------------------------------ records

  /** The names of a record's fields differ. */
  predicate Unique(r: Record) {
    forall i, j | 0 <= i < j < |r| :: r[i].0 != r[j].0
  }

  lemma {:induction false} LookupIs(r: Record, key: string, i: nat)
    requires Unique(r)
    ensures Lookup(r, key).None? <==> forall k | 0 <= k < |r| :: r[k].0 != key
    ensures i < |r| && r[i].0 == key ==> Lookup(r, key) == Some(r[i].1)
  {
    if r != [] && r[|r| - 1].0 != key {
      var less := r[..|r| - 1];
      LookupIs(less, key, i);
      assert forall k | 0 <= k < |less| :: less[k] == r[k];
    }
  }

  /** Setting a field keeps the places of all fields; a new one is the last. */
  lemma {:induction false} WithIs(r: Record, key: string, value: Value)
    requires Unique(r)
    ensures var t := With(r, key, value);
      && Unique(t) && |r| <= |t| && (forall i | 0 <= i < |r| :: t[i] == if r[i].0 == key then (key, value) else r[i])
      && ((exists i :: 0 <= i < |r| && r[i].0 == key) ==> |t| == |r|)
      && ((forall i | 0 <= i < |r| :: r[i].0 != key) ==> t == r + [(key, value)])
  {
    if r != [] && r[0].0 != key {
      WithIs(r[1..], key, value);
      if i :| 0 <= i < |r| && r[i].0 == key {
        assert r[1..][i - 1].0 == key;
      }
    }
  }

  lemma NotThere(r: Record, name: string)
    requires Unique(r) && forall k | 0 <= k < |r| :: r[k].0 != name
    ensures Lookup(r, name).None?
  {
    LookupIs(r, name, 0);
  }

  /** A field that was set is what it was set to, and every other is what it was. */
  lemma WithLooks(r: Record, key: string, value: Value, name: string)
    requires Unique(r)
    ensures Lookup(With(r, key, value), name) == if name == key then Some(value) else Lookup(r, name)
  {
    var t := With(r, key, value);
    WithIs(r, key, value);
    if i :| 0 <= i < |r| && r[i].0 == name {
      LookupIs(r, name, i);
      LookupIs(t, name, i);
    } else {
      NotThere(r, name);
      if name == key {
        assert t[|r|] == (key, value);
        LookupIs(t, name, |r|);
      } else {
        NotThere(t, name);
      }
    }
  }

  /** The title and the origin of each source, in at most 100 characters. */
  ghost predicate TitlesOnly(all: seq<map<string, string>>, kept: seq<map<string, string>>) {
    && |kept| == |all|
    && forall i | 0 <= i < |all| ::
         && kept[i].Keys == {"title", "source"} * all[i].Keys
         && forall key | key in kept[i] :: kept[i][key] == ShortText(all[i][key], 100)
  }

  lemma TitlesAre(sources: seq<map<string, string>>)
    ensures TitlesOnly(sources, ShortSources(sources))
  {
  }

  function SourcesOf(v: Option<Value>): seq<map<string, string>> {
    match v
    case Some(Sources(all)) => all
    case _ => []
  }

  lemma TurnLooks(item: Record, limit: nat, name: string)
    requires Unique(item) && IsTurn(item)
    ensures Lookup(ShortTurn(item, limit), name) ==
      if name == "answer" then Some(Text(ShortText(AsText(Lookup(item, "answer").value), limit)))
      else if name == "question" then Some(Text(ShortText(AsText(Lookup(item, "question").value), limit)))
      else if name == "sources" then Some(Sources(ShortSources(SourcesOf(Lookup(item, "sources")))))
      else Lookup(item, name)
  {
    var sources := Sources(ShortSources(SourcesOf(Lookup(item, "sources"))));
    var one := With(item, "sources", sources);
    var question := Text(ShortText(AsText(Lookup(item, "question").value), limit));
    var two := With(one, "question", question);
    var answer := Text(ShortText(AsText(Lookup(item, "answer").value), limit));
    assert ShortSources([]) == [];
    assert ShortTurn(item, limit) == With(two, "answer", answer);
    WithIs(item, "sources", sources);
    WithIs(one, "question", question);
    WithLooks(item, "sources", sources, name);
    WithLooks(one, "question", question, name);
    WithLooks(two, "answer", answer, name);
  }

  /** A turn cut to a limit: question and answer within it, the titles of its sources, and everything else as it was. */
  lemma TurnCutIs(item: Record, limit: nat, name: string)
    requires Unique(item) && IsTurn(item)
    ensures var r := Lookup(ShortTurn(item, limit), name);
      if name == "question" || name == "answer" then
        r.Some? && r.value.Text? && (Lookup(item, name).value.Text? ==> r.value.text == ShortText(Lookup(item, name).value.text, limit))
      else if name == "sources" then
        r.Some? && r.value.Sources? && TitlesOnly(SourcesOf(Lookup(item, name)), r.value.sources)
      else r == Lookup(item, name)
  {
    TurnLooks(item, limit, name);
    TitlesAre(SourcesOf(Lookup(item, "sources")));
  }

  /** A record whose text is cut: at most the limit or 16 characters of it, and everything else as it was. */
  lemma BodyCutIs(item: Record, limit: nat, name: string)
    requires Unique(item) && Lookup(item, "text").Some? && Lookup(item, "text").value.Text?
    ensures Lookup(ShortBody(item, limit), name) ==
      if name == "text" then Some(Text(ShortText(Lookup(item, "text").value.text, if limit < 16 then 16 else limit))) else Lookup(item, name)
  {
    WithLooks(item, "text", Text(ShortText(Lookup(item, "text").value.text, Max(16, limit))), name);
  }

  /** One field after another is kept if the record so far, with it, encodes within the maximum less 80; otherwise its name is noted. */
  ghost predicate FieldStep(encode: Encoder, field: (string, Value), maximum: int, kept: Record, names: seq<string>, kept': Record, names': seq<string>) {
    var more := With(kept, field.0, field.1);
    if |encode(more)| <= (if maximum < 82 then 2 else maximum - 80) then kept' == more && names' == names
    else kept' == kept && names' == names + [field.0]
  }

  ghost predicate FieldTrace(encode: Encoder, item: Record, maximum: int, states: seq<(Record, seq<string>)>, n: nat) {
    && n <= |item| && |states| == n + 1 && states[0] == ([], [])
    && forall i {:trigger FieldAt(encode, item, maximum, states, i)} | 0 <= i < n :: FieldAt(encode, item, maximum, states, i)
  }

  ghost predicate FieldAt(encode: Encoder, item: Record, maximum: int, states: seq<(Record, seq<string>)>, i: int)
    requires 0 <= i < |item| && i + 1 < |states|
  {
    FieldStep(encode, item[i], maximum, states[i].0, states[i].1, states[i + 1].0, states[i + 1].1)
  }

  lemma {:induction false} SelectIs(encode: Encoder, item: Record, n: nat, maximum: int) returns (states: seq<(Record, seq<string>)>)
    requires n <= |item|
    ensures FieldTrace(encode, item, maximum, states, n) && states[n] == Select(encode, item, n, maximum)
  {
    if n == 0 {
      states := [([], [])];
    } else {
      var less := SelectIs(encode, item, n - 1, maximum);
      states := less + [Select(encode, item, n, maximum)];
      forall i | 0 <= i < n ensures FieldAt(encode, item, maximum, states, i) {
        if i < n - 1 {
          assert FieldAt(encode, item, maximum, less, i);
        }
      }
    }
  }

  /** The fields that fit one after another, the names of the others, and an omitted spell list declared incomplete. */
  lemma SelectionIs(encode: Encoder, item: Record, maximum: int) returns (states: seq<(Record, seq<string>)>)
    ensures FieldTrace(encode, item, maximum, states, |item|)
    ensures var kept, names := states[|item|].0, states[|item|].1;
      Selection(encode, item, maximum) ==
        if "active_spell_ids" in names
        then With(With(With(kept, "omitted_fields", Names(names)), "active_spell_ids", Null), "active_spell_ids_complete", Truth(false))
        else With(kept, "omitted_fields", Names(names))
  {
    states := SelectIs(encode, item, |item|, maximum);
  }

  /** The limits tried on a turn. */
  lemma TurnLimitsAre()
    ensures TurnLimit(0) == 600 && TurnLimit(1) == 400 && TurnLimit(2) == 250 && TurnLimit(3) == 100
  {
  }

  lemma FitsIff(encode: Encoder, r: Record, maximum: int)
    ensures Fits(encode, r, maximum) <==> |encode(r)| <= maximum
  {
  }

  // ------------------------------------------------------------------ the frame

  /** The sections by number: their names and limits, and that the reference texts alone share theirs evenly. */
  lemma BlocksAre(c: Context, n: nat)
    requires n < 9
    ensures var names := ["CURRENT LIVE STATE", "CHARACTER BUILD", "REFERENCE KNOWLEDGE", "TEMPORARY DIALOGUE", "ACTIVE WATCHER ALERTS",
                          "RECENT MEANINGFUL EVENTS", "DURABLE INVENTORY KNOWLEDGE", "REFERENCE SOURCE DIAGNOSTICS", "RAW GAME OBSERVATIONS"];
      Blocks(c)[n].name == names[n] && (Blocks(c)[n].fairText <==> n == 2)
    ensures Blocks(c)[n].limit == [12000, 9000, 5500, 6000, 2500, 3500, 4000, 800, 6000][n]
    ensures Blocks(c)[n].items ==
      [if c.currentState.Some? then [c.currentState.value] else [], c.characterData, c.knowledge, c.dialogue, c.alerts, c.events, c.inventory,
       c.diagnostics, c.observations][n]
  {
  }

  /** What the frame without question leaves: the prompt's limit less the name and the labels around it. */
  function Room(c: Context): int {
    c.maxPrompt - |c.character| - 113
  }

  /** The characters the question may take. */
  function ForQuestion(c: Context): nat {
    var third := c.maxPrompt / 3;
    var least := if third < 2000 then third else 2000;
    var some := if Room(c) - 19 < least then Room(c) - 19 else least;
    if some < 1 then 1 else some
  }

  /** The question in what it may take. */
  lemma QuestionIs(c: Context)
    ensures QuestionSuffix(c) == "\nPlayer question: " + ShortText(c.question, ForQuestion(c))
  {
    RoomIs(c);
  }

  /** The question before it, in what is left of that, or nothing. */
  lemma FollowUpIs(c: Context)
    ensures var left := Room(c) - |QuestionSuffix(c)| - 72;
      var most := if left < ForQuestion(c) then left else ForQuestion(c);
      FollowUp(c) ==
        if c.followUp.None? || most < 1 then ""
        else "\nFollow-up context (immediately preceding question for this character): " + ShortText(c.followUp.value, most)
    ensures Suffix(c) == FollowUp(c) + QuestionSuffix(c)
  {
    RoomIs(c);
    assert |FOLLOW_LABEL| == 72 by {
      LabelSizes();
    }
  }

  lemma RoomIs(c: Context)
    ensures SuffixBudget(c) == Room(c) && QuestionBudget(c) == ForQuestion(c)
  {
    LabelSizes();
  }
}
