/**
  The prompt of `context_assembler.py`: bounded texts, bounded records, bounded sections and the
  rendered whole. The JSON encoder is any function from records to text.
 */
module PromptBudget {
  import opened Prelude

  // ------------------------------------------------------------------ bounded text

  const TRUNCATED := " …[truncated]"
  const TRUNCATED_SIZE := 13

  predicate IsBlank(c: char) {
    c == ' ' || c == '\t' || c == '\n' || c == '\r' || c == '\U{000B}' || c == '\U{000C}'
  }

  function WithoutNul(s: string): (r: string)
    ensures |r| <= |s|
  {
    if s == "" then ""
    else
      var rest := WithoutNul(s[..|s| - 1]);
      if s[|s| - 1] == '\0' then rest else rest + [s[|s| - 1]]
  }

  function StripRight(s: string): (r: string)
    ensures r <= s && (r == "" || !IsBlank(r[|r| - 1]))
  {
    if s != "" && IsBlank(s[|s| - 1]) then StripRight(s[..|s| - 1]) else s
  }

  function StripLeft(s: string): (r: string)
    ensures |r| <= |s| && (r == "" || !IsBlank(r[0]))
  {
    if s != "" && IsBlank(s[0]) then StripLeft(s[1..]) else s
  }

  function Clean(s: string): string {
    StripRight(StripLeft(WithoutNul(s)))
  }

  /** `_short_text`: never longer than `maximum`; unchanged when it fits, else a prefix and the marker. */
  function ShortText(s: string, maximum: nat): (r: string)
    ensures |r| <= maximum
    ensures |Clean(s)| <= maximum ==> r == Clean(s)
    ensures |Clean(s)| > maximum > TRUNCATED_SIZE ==>
      exists n :: 0 <= n <= maximum - TRUNCATED_SIZE && r == Clean(s)[..n] + TRUNCATED
  {
    var text := Clean(s);
    if |text| <= maximum then text
    else if maximum <= TRUNCATED_SIZE then text[..maximum]
    else
      assert |TRUNCATED| == TRUNCATED_SIZE;
      var kept := StripRight(text[..maximum - TRUNCATED_SIZE]);
      assert kept == text[..|kept|];
      kept + TRUNCATED
  }

  // ------------------------------------------------------------------ bounded records

  datatype Value = Text(text: string) | Names(names: seq<string>) | Sources(sources: seq<map<string, string>>) | Null | Truth(holds: bool) | Other(json: string)

  type Record = seq<(string, Value)>

  type Encoder = Record -> string

  function Lookup(r: Record, key: string): Option<Value> {
    if r == [] then None
    else if r[|r| - 1].0 == key then Some(r[|r| - 1].1)
    else Lookup(r[..|r| - 1], key)
  }

  /** Set a field in place, or append it. */
  function With(r: Record, key: string, value: Value): Record {
    if r == [] then [(key, value)]
    else if r[0].0 == key then [(key, value)] + r[1..]
    else [r[0]] + With(r[1..], key, value)
  }

  function AsText(v: Value): string {
    if v.Text? then v.text else if v.Other? then v.json else ""
  }

  /** A dialogue turn with both sides cut to `limit` and its sources to their titles. */
  function ShortTurn(item: Record, limit: nat): Record
    requires Lookup(item, "question").Some? && Lookup(item, "answer").Some?
  {
    var sources := match Lookup(item, "sources")
      case Some(Sources(list)) => ShortSources(list)
      case _ => [];
    With(With(With(item, "sources", Sources(sources)),
              "question", Text(ShortText(AsText(Lookup(item, "question").value), limit))),
         "answer", Text(ShortText(AsText(Lookup(item, "answer").value), limit)))
  }

  function ShortSources(sources: seq<map<string, string>>): seq<map<string, string>> {
    seq(|sources|, i requires 0 <= i < |sources| =>
      map key | key in {"title", "source"} && key in sources[i] :: ShortText(sources[i][key], 100))
  }

  function ShortBody(item: Record, limit: nat): Record
    requires Lookup(item, "text").Some? && Lookup(item, "text").value.Text?
  {
    With(item, "text", Text(ShortText(Lookup(item, "text").value.text, Max(16, limit))))
  }

  /** The least record, when nothing of the item fits. */
  function Placeholder(item: Record): Record {
    var authority := match Lookup(item, "authority") case Some(v) => v case None => Text("bounded_context_record");
    [("authority", authority), ("record_omitted", Text("configured section boundary exceeded"))]
  }

  predicate Fits(encode: Encoder, r: Record, maximum: int) {
    |encode(r)| <= maximum
  }

  /** The longest cut of the text that fits, by bisection. */
  method FitText(encode: Encoder, item: Record, maximum: int) returns (best: Option<nat>)
    requires Lookup(item, "text").Some? && Lookup(item, "text").value.Text?
    ensures best.Some? ==> 1 <= best.value <= |Lookup(item, "text").value.text| && Fits(encode, ShortBody(item, best.value), maximum)
    ensures GrowsWithLimit(encode, item) ==>
      forall k | 1 <= k <= |Lookup(item, "text").value.text| && Fits(encode, ShortBody(item, k), maximum) :: best.Some? && k <= best.value
  {
    var low, high: int := 1, |Lookup(item, "text").value.text|;
    ghost var length: int := high;
    best := None;
    while low <= high
      invariant 1 <= low && high <= length && low <= high + 1
      invariant best.Some? ==> best.value == low - 1 && 1 <= best.value <= length && Fits(encode, ShortBody(item, best.value), maximum)
      invariant best.None? ==> low == 1
      invariant GrowsWithLimit(encode, item) ==> forall k: nat | high < k <= length :: !Fits(encode, ShortBody(item, k), maximum)
      decreases high - low
    {
      var midpoint: nat := (low + high) / 2;
      if |encode(ShortBody(item, midpoint))| <= maximum {
        best := Some(midpoint);
        low := midpoint + 1;
      } else {
        if GrowsWithLimit(encode, item) {
          forall k: nat | midpoint <= k <= length ensures !Fits(encode, ShortBody(item, k), maximum) {
            assert |encode(ShortBody(item, midpoint))| <= |encode(ShortBody(item, k))|;
          }
        }
        high := midpoint - 1;
      }
    }
  }

  /** A longer cut never encodes shorter. */
  ghost predicate GrowsWithLimit(encode: Encoder, item: Record)
    requires Lookup(item, "text").Some? && Lookup(item, "text").value.Text?
  {
    forall j: nat, k: nat | j <= k :: |encode(ShortBody(item, j))| <= |encode(ShortBody(item, k))|
  }

  /** The length of a text written character by character. */
  function Cost(cost: char -> nat, s: string): nat {
    if s == "" then 0 else Cost(cost, s[..|s| - 1]) + cost(s[|s| - 1])
  }

  /** No character is written as nothing, and the marker's characters are written as they are. */
  ghost predicate Literal(cost: char -> nat) {
    (forall c :: cost(c) >= 1) && forall i | 0 <= i < TRUNCATED_SIZE :: cost(TRUNCATED[i]) == 1
  }

  /** The encoder writes the item's text in this way. */
  ghost predicate WritesText(encode: Encoder, item: Record, base: nat, cost: char -> nat) {
    Literal(cost) && forall t: string :: |encode(With(item, "text", Text(t)))| == base + Cost(cost, t)
  }

  lemma {:induction false} CostOfPrefix(cost: char -> nat, s: string, n: nat)
    requires Literal(cost) && n <= |s|
    ensures Cost(cost, s[..n]) + (|s| - n) <= Cost(cost, s)
    decreases |s|
  {
    if n < |s| {
      assert s[..|s| - 1][..n] == s[..n];
      CostOfPrefix(cost, s[..|s| - 1], n);
    } else {
      assert s[..n] == s;
    }
  }

  lemma {:induction false} MarkCost(cost: char -> nat, s: string, n: nat)
    requires Literal(cost) && n <= TRUNCATED_SIZE
    ensures Cost(cost, s + TRUNCATED[..n]) == Cost(cost, s) + n
  {
    if n == 0 {
      assert s + TRUNCATED[..n] == s;
    } else {
      var all := s + TRUNCATED[..n];
      assert all[..|all| - 1] == s + TRUNCATED[..n - 1] && all[|all| - 1] == TRUNCATED[n - 1];
      MarkCost(cost, s, n - 1);
    }
  }

  /** A longer start of a text keeps more of it once blanks at the end are dropped. */
  lemma {:induction false} StripRightGrows(t: string, a: nat, b: nat)
    requires a <= b <= |t|
    ensures StripRight(t[..a]) <= StripRight(t[..b])
  {
    if a < b {
      if IsBlank(t[b - 1]) {
        assert t[..b][..b - 1] == t[..b - 1];
        StripRightGrows(t, a, b - 1);
      } else {
        assert StripRight(t[..b]) == t[..b];
        assert t[..a] <= t[..b];
      }
    }
  }

  /** The start of a text that a cut keeps, with the marker. */
  function Marked(t: string, n: nat): string
    requires n <= |t|
  {
    StripRight(t[..n]) + TRUNCATED
  }

  lemma MarkedCost(cost: char -> nat, t: string, n: nat)
    requires Literal(cost) && n <= |t|
    ensures Cost(cost, Marked(t, n)) == Cost(cost, StripRight(t[..n])) + TRUNCATED_SIZE
  {
    assert TRUNCATED[..TRUNCATED_SIZE] == TRUNCATED;
    MarkCost(cost, StripRight(t[..n]), TRUNCATED_SIZE);
  }

  lemma PrefixCost(cost: char -> nat, kept: string, more: string)
    requires Literal(cost) && kept <= more
    ensures Cost(cost, kept) + (|more| - |kept|) <= Cost(cost, more)
  {
    assert kept == more[..|kept|];
    CostOfPrefix(cost, more, |kept|);
  }

  /** A cut costs no more than a longer cut, nor than the text it shortens. */
  lemma CutGrows(cost: char -> nat, t: string, a: nat, b: nat)
    requires Literal(cost) && a <= b <= |t|
    ensures Cost(cost, Marked(t, a)) <= Cost(cost, Marked(t, b))
    ensures a + TRUNCATED_SIZE <= |t| ==> Cost(cost, Marked(t, a)) <= Cost(cost, t)
  {
    StripRightGrows(t, a, b);
    MarkedCost(cost, t, a);
    MarkedCost(cost, t, b);
    PrefixCost(cost, StripRight(t[..a]), StripRight(t[..b]));
    PrefixCost(cost, StripRight(t[..a]), t);
  }

  function Bounded(t: string, maximum: nat): string
    requires maximum > TRUNCATED_SIZE
  {
    if |t| <= maximum then t else Marked(t, maximum - TRUNCATED_SIZE)
  }

  lemma ShortTextIs(s: string, maximum: nat)
    requires maximum > TRUNCATED_SIZE
    ensures ShortText(s, maximum) == Bounded(Clean(s), maximum)
  {
  }

  lemma BoundedGrows(cost: char -> nat, t: string, m: nat, n: nat)
    requires Literal(cost) && TRUNCATED_SIZE < m <= n
    ensures Cost(cost, Bounded(t, m)) <= Cost(cost, Bounded(t, n))
  {
    if m < |t| {
      CutGrows(cost, t, m - TRUNCATED_SIZE, if n < |t| then n - TRUNCATED_SIZE else m - TRUNCATED_SIZE);
    }
  }

  /** The cost of a bounded text grows with its bound. */
  lemma ShortTextGrows(cost: char -> nat, s: string, m: nat, n: nat)
    requires Literal(cost) && TRUNCATED_SIZE < m <= n
    ensures Cost(cost, ShortText(s, m)) <= Cost(cost, ShortText(s, n))
  {
    ShortTextIs(s, m);
    ShortTextIs(s, n);
    BoundedGrows(cost, Clean(s), m, n);
  }

  /** For an encoder that writes text character by character a longer cut never encodes shorter. */
  lemma TextGrowsWithLimit(encode: Encoder, item: Record, base: nat, cost: char -> nat)
    requires Lookup(item, "text").Some? && Lookup(item, "text").value.Text?
    requires WritesText(encode, item, base, cost)
    ensures GrowsWithLimit(encode, item)
  {
    forall j: nat, k: nat | j <= k ensures |encode(ShortBody(item, j))| <= |encode(ShortBody(item, k))| {
      ShortTextGrows(cost, Lookup(item, "text").value.text, Max(16, j), Max(16, k));
    }
  }

  /** The fields that fit one after another, and the names of those that did not. */
  function Select(encode: Encoder, item: Record, n: nat, maximum: int): (Record, seq<string>)
    requires n <= |item|
  {
    if n == 0 then ([], [])
    else
      var (selected, omitted) := Select(encode, item, n - 1, maximum);
      var candidate := With(selected, item[n - 1].0, item[n - 1].1);
      if Fits(encode, candidate, Max(2, maximum - 80)) then (candidate, omitted) else (selected, omitted + [item[n - 1].0])
  }

  /** The selection with the names it omits; an omitted spell list is declared incomplete. */
  function Selection(encode: Encoder, item: Record, maximum: int): Record {
    var (selected, omitted) := Select(encode, item, |item|, maximum);
    var named := With(selected, "omitted_fields", Names(omitted));
    if "active_spell_ids" in omitted
    then With(With(named, "active_spell_ids", Null), "active_spell_ids_complete", Truth(false))
    else named
  }

  predicate IsTurn(item: Record) {
    Lookup(item, "question").Some? && Lookup(item, "answer").Some?
  }

  /** How a record may be cut. */
  ghost predicate CutOf(encode: Encoder, item: Record, maximum: int, r: Record) {
    || r == item
    || (IsTurn(item) && exists limit: nat :: limit <= 600 && r == ShortTurn(item, limit))
    || (Lookup(item, "text").Some? && Lookup(item, "text").value.Text? && exists limit: nat :: r == ShortBody(item, limit))
    || r == Selection(encode, item, maximum)
    || r == Placeholder(item)
  }

  /** The turn cut at the first limit at which it fits. */
  ghost predicate TurnChosen(encode: Encoder, item: Record, maximum: int, r: Record)
    requires IsTurn(item)
  {
    exists i :: 0 <= i < 4 && TurnFits(encode, item, maximum, i) && r == ShortTurn(item, TurnLimit(i))
      && forall j | 0 <= j < i :: !TurnFits(encode, item, maximum, j)
  }

  ghost predicate SomeTurnFits(encode: Encoder, item: Record, maximum: int) {
    IsTurn(item) && exists i :: 0 <= i < 4 && TurnFits(encode, item, maximum, i)
  }

  /** The text cut so that the record fits; the longest such cut if longer cuts never encode shorter. */
  ghost predicate BodyChosen(encode: Encoder, item: Record, maximum: int, r: Record)
    requires Lookup(item, "text").Some? && Lookup(item, "text").value.Text?
  {
    exists k: nat :: 1 <= k <= |Lookup(item, "text").value.text| && r == ShortBody(item, k) && Fits(encode, r, maximum)
      && (GrowsWithLimit(encode, item) ==>
            forall m: nat | k < m <= |Lookup(item, "text").value.text| :: !Fits(encode, ShortBody(item, m), maximum))
  }

  /** What was chosen when neither the item nor a turn of it fits: a cut of its text, or else its fields that fit, or else the placeholder. */
  ghost predicate RestChosen(encode: Encoder, item: Record, maximum: int, preserveText: bool, r: Record) {
    var text := Lookup(item, "text");
    || (preserveText && text.Some? && text.value.Text? && BodyChosen(encode, item, maximum, r))
    || ((preserveText && text.Some? && text.value.Text? && GrowsWithLimit(encode, item) ==>
           forall m: nat | 1 <= m <= |text.value.text| :: !Fits(encode, ShortBody(item, m), maximum))
        && r == if Fits(encode, Selection(encode, item, maximum), maximum) then Selection(encode, item, maximum) else Placeholder(item))
  }

  /** Which cut of a record is taken. */
  ghost predicate Chosen(encode: Encoder, item: Record, maximum: int, preserveText: bool, r: Record) {
    if Fits(encode, item, maximum) then r == item
    else if SomeTurnFits(encode, item, maximum) then TurnChosen(encode, item, maximum, r)
    else RestChosen(encode, item, maximum, preserveText, r)
  }

  /** The four limits tried on a dialogue turn, in their order. */
  function TurnLimit(i: nat): nat {
    if i == 0 then 600 else if i == 1 then 400 else if i == 2 then 250 else if i == 3 then 100 else 0
  }

  ghost predicate TurnFits(encode: Encoder, item: Record, maximum: int, i: nat)
    requires IsTurn(item)
  {
    Fits(encode, ShortTurn(item, TurnLimit(i)), maximum)
  }

  /** The most generous limit at which a dialogue turn fits. */
  method FitTurn(encode: Encoder, item: Record, maximum: int) returns (limit: Option<nat>)
    requires IsTurn(item)
    ensures limit.None? ==> forall i | 0 <= i < 4 :: !TurnFits(encode, item, maximum, i)
    ensures limit.Some? ==> exists i ::
      0 <= i < 4 && limit.value == TurnLimit(i) && TurnFits(encode, item, maximum, i) && forall j | 0 <= j < i :: !TurnFits(encode, item, maximum, j)
  {
    for i := 0 to 4
      invariant forall j | 0 <= j < i :: !TurnFits(encode, item, maximum, j)
    {
      var line := encode(ShortTurn(item, TurnLimit(i)));
      assert TurnFits(encode, item, maximum, i) <==> |line| <= maximum;
      if |line| <= maximum {
        return Some(TurnLimit(i));
      }
    }
    return None;
  }

  method BoundedRecord(encode: Encoder, item: Record, maximum: int, preserveText: bool) returns (r: Record)
    ensures Fits(encode, item, maximum) ==> r == item
    ensures Fits(encode, r, maximum) || r == Placeholder(item)
    ensures CutOf(encode, item, maximum, r) && Chosen(encode, item, maximum, preserveText, r)
  {
    if Fits(encode, item, maximum) {
      return item;
    }
    if IsTurn(item) {
      var short := FitTurn(encode, item, maximum);
      if short.Some? {
        return ShortTurn(item, short.value);
      }
    }
    var text := Lookup(item, "text");
    if preserveText && text.Some? && text.value.Text? && text.value.text != "" {
      var best := FitText(encode, item, maximum);
      if best.Some? {
        return ShortBody(item, best.value);
      }
    }
    var selected := SelectFields(encode, item, maximum);
    if Fits(encode, selected, maximum) {
      return selected;
    }
    return Placeholder(item);
  }

  method SelectFields(encode: Encoder, item: Record, maximum: int) returns (r: Record)
    ensures r == Selection(encode, item, maximum)
  {
    var selected: Record, omitted: seq<string> := [], [];
    for i := 0 to |item|
      invariant (selected, omitted) == Select(encode, item, i, maximum)
    {
      var candidate := With(selected, item[i].0, item[i].1);
      if Fits(encode, candidate, Max(2, maximum - 80)) {
        selected := candidate;
      } else {
        omitted := omitted + [item[i].0];
      }
    }
    r := With(selected, "omitted_fields", Names(omitted));
    if "active_spell_ids" in omitted {
      r := With(With(r, "active_spell_ids", Null), "active_spell_ids_complete", Truth(false));
    }
  }

  // ------------------------------------------------------------------ sections

  /** `"\n".join(parts)` */
  function Lines(parts: seq<string>): string {
    if parts == [] then ""
    else if |parts| == 1 then parts[0]
    else Lines(parts[..|parts| - 1]) + "\n" + parts[|parts| - 1]
  }

  lemma {:induction false} LinesMore(parts: seq<string>, part: string)
    requires parts != []
    ensures Lines(parts + [part]) == Lines(parts) + "\n" + part
    ensures |Lines(parts + [part])| == |Lines(parts)| + 1 + |part|
  {
    assert (parts + [part])[..|parts|] == parts;
  }

  /** `part` stands in `whole`, between some text before and after it. */
  ghost predicate Within(part: string, whole: string) {
    exists before, after :: whole == before + part + after
  }

  lemma WithinMore(part: string, whole: string, before: string, after: string)
    requires Within(part, whole)
    ensures Within(part, before + whole + after)
  {
    var b, a :| whole == b + part + a;
    assert before + whole + after == (before + b) + part + (a + after);
  }

  lemma {:induction false} LineWithin(parts: seq<string>, i: nat)
    requires i < |parts|
    ensures Within(parts[i], Lines(parts))
  {
    var last := |parts| - 1;
    if |parts| == 1 {
      assert Lines(parts) == "" + parts[0] + "";
    } else if i == last {
      assert Lines(parts) == (Lines(parts[..last]) + "\n") + parts[i] + "";
    } else {
      LineWithin(parts[..last], i);
      WithinMore(parts[i], Lines(parts[..last]), "", "\n" + parts[last]);
      assert "" + Lines(parts[..last]) + ("\n" + parts[last]) == Lines(parts);
    }
  }

  const NO_DATA := "(no data)"
  const DATA_OMITTED := "[additional bounded data omitted]"

  function Header(name: string): string { "BEGIN " + name + " DATA" }
  function Footer(name: string): string { "END " + name + " DATA" }

  /** The record budget of the next item: what is left, or an even share of it. */
  function Share(maximum: int, used: nat, remaining: nat, fair: bool): int
    requires remaining > 0
  {
    if fair then (maximum - used - 1) / remaining else maximum - used - 1
  }

  /** All that is left without sharing; the greatest even share of it otherwise. */
  lemma ShareIs(maximum: int, used: nat, remaining: nat, fair: bool)
    requires remaining > 0
    ensures !fair ==> Share(maximum, used, remaining, fair) == maximum - used - 1
    ensures fair ==> Share(maximum, used, remaining, fair) * remaining <= maximum - used - 1 < (Share(maximum, used, remaining, fair) + 1) * remaining
  {
  }

  /** `r` is the item, or what some budget makes of it. */
  ghost predicate IsCut(encode: Encoder, item: Record, r: Record) {
    exists maximum :: CutOf(encode, item, maximum, r)
  }

  /** The characters lines take with one line break each. */
  function Size(lines: seq<string>): nat {
    if lines == [] then 0 else Size(lines[..|lines| - 1]) + |lines[|lines| - 1]| + 1
  }

  /** Which cuts a section takes: an item, the characters used before it and the records still to come, and what the item becomes. */
  type Cuts = iset<(Record, nat, nat, Record)>

  /** Each item is cut to what is left of the section, or to an even share of that. */
  ghost function Choices(encode: Encoder, maximum: int, fair: bool, preserveText: bool): Cuts {
    iset x: (Record, nat, nat, Record) | x.2 > 0 && Chosen(encode, x.0, Share(maximum, x.1, x.2, fair), preserveText, x.3)
  }

  /** A name for `Choices` that hides what they are. */
  ghost predicate Covers(encode: Encoder, maximum: int, fair: bool, preserveText: bool, cuts: Cuts) {
    forall item, used: nat, remaining: nat, r {:trigger Chosen(encode, item, Share(maximum, used, remaining, fair), preserveText, r)} | remaining > 0 ::
      Chosen(encode, item, Share(maximum, used, remaining, fair), preserveText, r) ==> (item, used, remaining, r) in cuts
  }

  lemma ChoicesCover(encode: Encoder, maximum: int, fair: bool, preserveText: bool)
    ensures Covers(encode, maximum, fair, preserveText, Choices(encode, maximum, fair, preserveText))
  {
  }

  ghost predicate InBudget(cuts: Cuts, items: seq<Record>, used: nat, i: nat, r: Record)
    requires i < |items|
  {
    (items[i], used, |items| - i, r) in cuts
  }

  /** The lines of a section are its first records, each within its budget; `uses` counts the characters before each. */
  ghost predicate Admitted(encode: Encoder, cuts: Cuts, items: seq<Record>, lines: seq<string>, included: seq<Record>, uses: seq<nat>, maximum: int) {
    && |lines| == |included| <= |items| && |uses| == |lines| + 1
    && forall i: nat {:trigger lines[i]} | i < |lines| ::
         && lines[i] == encode(included[i]) && uses[i + 1] == uses[i] + |lines[i]| + 1 <= maximum
         && InBudget(cuts, items, uses[i], i, included[i])
  }

  /** The next record, within its budget, does not fit any more. */
  ghost predicate NoneFits(encode: Encoder, cuts: Cuts, items: seq<Record>, used: nat, maximum: int, i: nat) {
    i < |items| && exists r :: InBudget(cuts, items, used, i, r) && used + |encode(r)| + 1 > maximum
  }

  /** The next record of a section, cut to its budget. */
  method CutNext(encode: Encoder, items: seq<Record>, used: nat, maximum: int, fair: bool, preserveText: bool, index: nat, ghost cuts: Cuts) returns (r: Record)
    requires index < |items| && Covers(encode, maximum, fair, preserveText, cuts)
    ensures InBudget(cuts, items, used, index, r) && IsCut(encode, items[index], r)
  {
    r := BoundedRecord(encode, items[index], Share(maximum, used, |items| - index, fair), preserveText);
  }

  ghost predicate AllCuts(encode: Encoder, items: seq<Record>, included: seq<Record>) {
    |included| <= |items| && forall i | 0 <= i < |included| :: IsCut(encode, items[i], included[i])
  }

  lemma CutsMore(encode: Encoder, items: seq<Record>, included: seq<Record>, r: Record)
    requires AllCuts(encode, items, included) && |included| < |items| && IsCut(encode, items[|included|], r)
    ensures AllCuts(encode, items, included + [r])
  {
  }

  lemma AdmittedMore(encode: Encoder, cuts: Cuts, items: seq<Record>, lines: seq<string>, included: seq<Record>, uses: seq<nat>, maximum: int, r: Record, used: nat)
    requires Admitted(encode, cuts, items, lines, included, uses, maximum) && |lines| < |items|
    requires InBudget(cuts, items, uses[|lines|], |lines|, r)
    requires used == uses[|lines|] + |encode(r)| + 1 <= maximum
    ensures Admitted(encode, cuts, items, lines + [encode(r)], included + [r], uses + [used], maximum)
    ensures Size(lines + [encode(r)]) == Size(lines) + |encode(r)| + 1
  {
    assert (lines + [encode(r)])[..|lines|] == lines;
  }

  /** The records of a section in order: admitted whole, and the first that does not fit ends the section. */
  method FitRecords(encode: Encoder, items: seq<Record>, maximum: int, base: nat, fair: bool, preserveText: bool, ghost cuts: Cuts)
    returns (lines: seq<string>, included: seq<Record>, used: nat, ghost uses: seq<nat>)
    requires base <= maximum && Covers(encode, maximum, fair, preserveText, cuts)
    ensures |lines| == |included| <= |items| && base <= used <= maximum
    ensures AllCuts(encode, items, included) && used == base + Size(lines)
    ensures Admitted(encode, cuts, items, lines, included, uses, maximum)
    ensures uses[0] == base && uses[|lines|] == used
    ensures |lines| < |items| ==> NoneFits(encode, cuts, items, used, maximum, |lines|)
  {
    lines, included, used, uses := [], [], base, [base];
    for index := 0 to |items|
      invariant |lines| == |included| == index && base <= used <= maximum
      invariant AllCuts(encode, items, included)
      invariant used == base + Size(lines) && Admitted(encode, cuts, items, lines, included, uses, maximum)
      invariant uses[0] == base && uses[|lines|] == used
    {
      var r := CutNext(encode, items, used, maximum, fair, preserveText, index, cuts);
      var line := encode(r);
      if used + |line| + 1 > maximum {
        return;
      }
      CutsMore(encode, items, included, r);
      AdmittedMore(encode, cuts, items, lines, included, uses, maximum, r, used + |line| + 1);
      lines, included := lines + [line], included + [r];
      used := used + |line| + 1;
      uses := uses + [used];
    }
  }

  lemma {:induction false} FramedSize(header: string, lines: seq<string>)
    ensures |Lines([header] + lines)| == |header| + Size(lines)
  {
    if lines == [] {
      assert [header] + lines == [header];
    } else {
      var less, last := lines[..|lines| - 1], lines[|lines| - 1];
      FramedSize(header, less);
      assert [header] + lines == ([header] + less) + [last];
      LinesMore([header] + less, last);
    }
  }

  /** Temporary dialogue and reference texts share their section evenly. */
  predicate SharesEvenly(name: string, fairText: bool) {
    fairText || name == "TEMPORARY DIALOGUE"
  }

  /** A section with records: its header, the records that fit, the mark of what was left out if there is room for it, its footer. */
  ghost predicate IsWritten(encode: Encoder, name: string, items: seq<Record>, maximum: int, fairText: bool, block: string, included: seq<Record>,
                            lines: seq<string>, uses: seq<nat>) {
    var cuts := Choices(encode, maximum, SharesEvenly(name, fairText), fairText);
    && Admitted(encode, cuts, items, lines, included, uses, maximum) && uses[0] == |name| * 2 + 22
    && (|lines| < |items| ==> NoneFits(encode, cuts, items, uses[|lines|], maximum, |lines|))
    && block == Lines(["BEGIN " + name + " DATA"]
                      + (lines + if |lines| < |items| && uses[|lines|] + 34 <= maximum then ["[additional bounded data omitted]"] else [])
                      + ["END " + name + " DATA"])
  }

  /** What a section is. */
  ghost predicate IsSection(encode: Encoder, name: string, items: seq<Record>, maximum: int, fairText: bool, block: string, included: seq<Record>) {
    if maximum < |name| * 2 + 22 then block == "" && included == []
    else if items == [] then
      included == [] && block == if maximum < |name| * 2 + 31 then "" else "BEGIN " + name + " DATA\n(no data)\nEND " + name + " DATA"
    else
      exists lines, uses :: IsWritten(encode, name, items, maximum, fairText, block, included, lines, uses)
  }

  lemma SectionWritten(encode: Encoder, name: string, items: seq<Record>, maximum: int, fairText: bool, block: string, included: seq<Record>,
                       lines: seq<string>, uses: seq<nat>, shown: seq<string>)
    requires Admitted(encode, Choices(encode, maximum, SharesEvenly(name, fairText), fairText), items, lines, included, uses, maximum)
    requires uses[0] == |name| * 2 + 22
    requires |lines| < |items| ==> NoneFits(encode, Choices(encode, maximum, SharesEvenly(name, fairText), fairText), items, uses[|lines|], maximum, |lines|)
    requires shown == if |lines| < |items| && uses[|lines|] + |DATA_OMITTED| + 1 <= maximum then lines + [DATA_OMITTED] else lines
    requires block == Lines([Header(name)] + shown + [Footer(name)])
    ensures IsWritten(encode, name, items, maximum, fairText, block, included, lines, uses)
  {
    assert |DATA_OMITTED| == 33;
    var mark := if |lines| < |items| && uses[|lines|] + 34 <= maximum then [DATA_OMITTED] else [];
    assert shown == lines + mark;
  }

  lemma FrameSize(name: string)
    ensures |Header(name)| + |Footer(name)| + 2 == |name| * 2 + 22
    ensures Header(name) + "\n" + NO_DATA + "\n" + Footer(name) == "BEGIN " + name + " DATA\n(no data)\nEND " + name + " DATA"
  {
    assert |" DATA\n(no data)\nEND "| == 20;
  }

  /** `_render_section`: a block within `maximum`, or nothing. */
  method RenderSection(encode: Encoder, name: string, items: seq<Record>, maximum: int, fairText: bool)
    returns (block: string, included: seq<Record>)
    ensures block != "" ==> |block| <= maximum
    ensures block == "" <==> maximum < |Header(name)| + |Footer(name)| + 2 || (items == [] && maximum < |Header(name)| + |Footer(name)| + 2 + |NO_DATA|)
    ensures block == "" ==> included == []
    ensures CutsWithin(encode, items, included, block)
    ensures IsSection(encode, name, items, maximum, fairText, block, included)
  {
    FrameSize(name);
    var header, footer := Header(name), Footer(name);
    if maximum < |header| + |footer| + 2 {
      return "", [];
    }
    if items == [] {
      var parts := [header, NO_DATA, footer];
      ThreeLines(header, NO_DATA, footer);
      block := header + "\n" + NO_DATA + "\n" + footer;
      return if |block| <= maximum then block else "", [];
    }
    var lines, used;
    ghost var uses;
    var fair := SharesEvenly(name, fairText);
    ghost var cuts := Choices(encode, maximum, fair, fairText);
    ChoicesCover(encode, maximum, fair, fairText);
    lines, included, used, uses := FitRecords(encode, items, maximum, |header| + |footer| + 2, fair, fairText, cuts);
    var shown := lines;
    if |lines| < |items| && used + |DATA_OMITTED| + 1 <= maximum {
      shown := lines + [DATA_OMITTED];
      assert shown[..|lines|] == lines;
    }
    block := Lines([header] + shown + [footer]);
    FramedBlock(header, shown, footer);
    forall i | 0 <= i < |included| ensures Within(encode(included[i]), block) {
      FramedLine(header, shown, footer, i);
    }
    SectionWritten(encode, name, items, maximum, fairText, block, included, lines, uses, shown);
  }

  lemma FramedBlock(header: string, lines: seq<string>, footer: string)
    ensures |Lines([header] + lines + [footer])| == |header| + Size(lines) + 1 + |footer|
  {
    FramedSize(header, lines);
    LinesMore([header] + lines, footer);
  }

  lemma FramedLine(header: string, lines: seq<string>, footer: string, i: nat)
    requires i < |lines|
    ensures Within(lines[i], Lines([header] + lines + [footer]))
  {
    var parts := [header] + lines + [footer];
    assert parts[i + 1] == lines[i];
    LineWithin(parts, i + 1);
  }

  lemma ThreeLines(a: string, b: string, c: string)
    ensures Lines([a, b, c]) == a + "\n" + b + "\n" + c
  {
    assert [a, b] == [a] + [b] && [a, b, c] == [a, b] + [c];
    LinesMore([a], b);
    LinesMore([a, b], c);
  }

  // ------------------------------------------------------------------ the prompt

  datatype Context = Context(
    character: string, question: string, followUp: Option<string>,
    currentState: Option<Record>, characterData: seq<Record>, knowledge: seq<Record>, dialogue: seq<Record>,
    alerts: seq<Record>, events: seq<Record>, inventory: seq<Record>, diagnostics: seq<Record>, observations: seq<Record>,
    maxPrompt: int)

  datatype Block = Block(name: string, items: seq<Record>, limit: nat, fairText: bool)

  /** The nine sections in their order, each with its own limit; the third holds the reference knowledge. */
  function Blocks(c: Context): (r: seq<Block>)
    ensures |r| == 9
  {
    [ Block("CURRENT LIVE STATE", if c.currentState.Some? then [c.currentState.value] else [], 12000, false),
      Block("CHARACTER BUILD", c.characterData, 9000, false),
      Block("REFERENCE KNOWLEDGE", c.knowledge, 5500, true),
      Block("TEMPORARY DIALOGUE", c.dialogue, 6000, false),
      Block("ACTIVE WATCHER ALERTS", c.alerts, 2500, false),
      Block("RECENT MEANINGFUL EVENTS", c.events, 3500, false),
      Block("DURABLE INVENTORY KNOWLEDGE", c.inventory, 4000, false),
      Block("REFERENCE SOURCE DIAGNOSTICS", c.diagnostics, 800, false),
      Block("RAW GAME OBSERVATIONS", c.observations, 6000, false) ]
  }

  const KNOWLEDGE := 2

  const BEGIN_LABEL := "Character: "
  const BEGIN_MARK := "\nBEGIN UNTRUSTED CONTEXT DATA"
  const END_MARK := "\nEND UNTRUSTED CONTEXT DATA"
  const OMITTED_MARK := "\n[additional context omitted by prompt budget]"
  const QUESTION_LABEL := "\nPlayer question: "
  const FOLLOW_LABEL := "\nFollow-up context (immediately preceding question for this character): "

  lemma LabelSizes()
    ensures |BEGIN_LABEL| == 11 && |BEGIN_MARK| == 29 && |END_MARK| == 27 && |OMITTED_MARK| == 46
    ensures |QUESTION_LABEL| == 18 && |FOLLOW_LABEL| == 72
  {
  }

  function Prefix(c: Context): string {
    BEGIN_LABEL + c.character + BEGIN_MARK
  }

  function SuffixBudget(c: Context): int {
    c.maxPrompt - |Prefix(c)| - |END_MARK| - |OMITTED_MARK|
  }

  function QuestionBudget(c: Context): (n: nat)
    ensures n >= 1
  {
    Max(1, Min(Min(2000, c.maxPrompt / 3), SuffixBudget(c) - 19))
  }

  function QuestionSuffix(c: Context): string {
    QUESTION_LABEL + ShortText(c.question, QuestionBudget(c))
  }

  function FollowUp(c: Context): string {
    var budget := Min(QuestionBudget(c), SuffixBudget(c) - |QuestionSuffix(c)| - |FOLLOW_LABEL|);
    if c.followUp.Some? && budget > 0 then FOLLOW_LABEL + ShortText(c.followUp.value, budget) else ""
  }

  function Suffix(c: Context): string {
    FollowUp(c) + QuestionSuffix(c)
  }

  /** What is left for the sections. */
  function Available(c: Context): int {
    SuffixBudget(c) - |Suffix(c)|
  }

  /** The least the frame takes: its labels, the name, and one character of a nonblank question. */
  function Frame(c: Context): nat {
    85 + |c.character| + (if Clean(c.question) == "" then 0 else 1)
  }

  /** The frame leaves room exactly when its least form and the unused marker fit; without room it takes its least form. */
  lemma AvailableIff(c: Context)
    ensures Available(c) >= 0 <==> Frame(c) + 46 <= c.maxPrompt
    ensures Available(c) < 0 ==> Available(c) == c.maxPrompt - Frame(c) - 46
  {
    LabelSizes();
    var short := ShortText(c.question, QuestionBudget(c));
    if Clean(c.question) == "" {
      assert short == "";
    } else if QuestionBudget(c) == 1 {
      assert |short| == 1;
    }
  }

  /** Every prompt of at least 256 characters for a name of at most 40 has room. */
  lemma UsualContextHasRoom(c: Context)
    requires c.maxPrompt >= 256 && |c.character| <= 40
    ensures Available(c) >= 0
  {
    LabelSizes();
    AvailableIff(c);
  }

  ghost predicate NothingToShow(c: Context) {
    forall i | 0 <= i < 9 :: Blocks(c)[i].items == []
  }

  const CUT_MARK := "…[truncated]"

  function WithoutMarks(s: string): string
    decreases |s|
  {
    if s == "" then ""
    else if CUT_MARK <= s then WithoutMarks(s[|CUT_MARK|..])
    else [s[0]] + WithoutMarks(s[1..])
  }

  /** A record that still shows some of its text. */
  predicate ShowsText(r: Record) {
    var text := Lookup(r, "text");
    text.Some? && text.value.Text? && StripRight(StripLeft(WithoutMarks(text.value.text))) != ""
  }

  function Showing(records: seq<Record>): (r: seq<Record>)
    ensures forall x | x in r :: x in records && ShowsText(x)
  {
    if records == [] then []
    else
      var last := records[|records| - 1];
      Showing(records[..|records| - 1]) + (if ShowsText(last) then [last] else [])
  }

  /** A reference is a cut of a knowledge record that still shows text and stands whole in `text`. */
  ghost predicate References(encode: Encoder, c: Context, references: seq<Record>, text: string) {
    forall k | 0 <= k < |references| ::
      && ShowsText(references[k]) && Within(encode(references[k]), text)
      && exists i :: 0 <= i < |c.knowledge| && IsCut(encode, c.knowledge[i], references[k])
  }

  lemma ReferencesMore(encode: Encoder, c: Context, references: seq<Record>, text: string, before: string, after: string)
    requires References(encode, c, references, text)
    ensures References(encode, c, references, before + text + after)
  {
    forall k | 0 <= k < |references| ensures Within(encode(references[k]), before + text + after) {
      WithinMore(encode(references[k]), text, before, after);
    }
  }

  /** Each record is a cut of its item and stands in the block. */
  ghost predicate CutsWithin(encode: Encoder, items: seq<Record>, included: seq<Record>, block: string) {
    |included| <= |items| && forall i | 0 <= i < |included| :: Within(encode(included[i]), block) && IsCut(encode, items[i], included[i])
  }

  lemma ReferencesStart(encode: Encoder, c: Context, included: seq<Record>, block: string)
    requires CutsWithin(encode, c.knowledge, included, block)
    ensures References(encode, c, Showing(included), block)
  {
    var references := Showing(included);
    forall k | 0 <= k < |references|
      ensures ShowsText(references[k]) && Within(encode(references[k]), block)
      ensures exists i :: 0 <= i < |c.knowledge| && IsCut(encode, c.knowledge[i], references[k])
    {
      assert references[k] in references;
      var i :| 0 <= i < |included| && included[i] == references[k];
      assert IsCut(encode, c.knowledge[i], references[k]);
    }
  }

  /** The sections so far: their size, and that nothing is shown once the frame alone is too long. */
  ghost predicate Assembled(c: Context, body: string, available: int, omitted: bool, n: nat)
    requires n <= 9
  {
    && Prefix(c) <= body && |body| == |Prefix(c)| + (Available(c) - available)
    && (Available(c) >= 0 ==> available >= 0)
    && (Available(c) < 0 ==> available == Available(c) && (omitted <==> exists i :: 0 <= i < n && Blocks(c)[i].items != []))
  }

  lemma AssembledSkip(c: Context, body: string, left: int, omitted: bool, n: nat)
    requires n < 9 && Assembled(c, body, left, omitted, n)
    ensures Assembled(c, body, left, omitted || Blocks(c)[n].items != [], n + 1)
  {
  }

  lemma AssembledBlock(c: Context, body: string, left: int, omitted: bool, n: nat, block: string)
    requires n < 9 && Assembled(c, body, left, omitted, n) && |block| <= left - 1
    ensures Assembled(c, body + "\n" + block, left - |block| - 1, omitted, n + 1)
  {
  }

  lemma BlockReferences(encode: Encoder, c: Context, n: nat, references: seq<Record>, body: string, block: string, included: seq<Record>)
    requires References(encode, c, references, body)
    requires n == KNOWLEDGE ==> CutsWithin(encode, c.knowledge, included, block)
    ensures References(encode, c, if n == KNOWLEDGE then Showing(included) else references, body + "\n" + block)
  {
    Appended(body, block);
    if n == KNOWLEDGE {
      ReferencesStart(encode, c, included, block);
      ReferencesMore(encode, c, Showing(included), block, body + "\n", "");
    } else {
      ReferencesMore(encode, c, references, body, "", "\n" + block);
    }
  }

  /** Block `n` of the prompt when so many characters are left. */
  ghost predicate IsBlock(encode: Encoder, c: Context, n: nat, left: int, text: string, shown: seq<Record>) {
    n < 9 && IsSection(encode, Blocks(c)[n].name, Blocks(c)[n].items, Min(Blocks(c)[n].limit, left - 1), Blocks(c)[n].fairText, text, shown)
  }

  /** A block by its number and the characters left for it: its text and its records. */
  type Laying = iset<(nat, int, string, seq<Record>)>

  ghost function Layable(encode: Encoder, c: Context): Laying {
    iset x: (nat, int, string, seq<Record>) | IsBlock(encode, c, x.0, x.1, x.2, x.3)
  }

  ghost predicate HidesBlocks(encode: Encoder, c: Context, layable: Laying) {
    forall n: nat, left, text, shown {:trigger IsBlock(encode, c, n, left, text, shown)} ::
      IsBlock(encode, c, n, left, text, shown) ==> (n, left, text, shown) in layable
  }

  lemma LayableHides(encode: Encoder, c: Context)
    ensures HidesBlocks(encode, c, Layable(encode, c))
  {
  }

  /** The blocks so far, each in what those before it left. */
  ghost predicate Laid(c: Context, layable: Laying, texts: seq<string>, shown: seq<seq<Record>>, lefts: seq<int>) {
    && |texts| == |shown| <= 9 && |lefts| == |texts| + 1 && lefts[0] == Available(c)
    && forall k: nat {:trigger LaidAt(layable, texts, shown, lefts, k)} | k < |texts| :: LaidAt(layable, texts, shown, lefts, k)
  }

  ghost predicate LaidAt(layable: Laying, texts: seq<string>, shown: seq<seq<Record>>, lefts: seq<int>, k: nat)
    requires k < |texts| == |shown| && |lefts| == |texts| + 1
  {
    && (k, lefts[k], texts[k], shown[k]) in layable
    && lefts[k + 1] == if texts[k] == "" then lefts[k] else lefts[k] - |texts[k]| - 1
  }

  /** The blocks under each other; an empty one takes no line. */
  function Stacked(texts: seq<string>): string {
    if texts == [] then ""
    else
      var last := texts[|texts| - 1];
      Stacked(texts[..|texts| - 1]) + if last == "" then "" else "\n" + last
  }

  /** Some block that has records shows none of them. */
  ghost predicate SomeOmitted(c: Context, texts: seq<string>) {
    exists k: nat :: k < |texts| && k < 9 && texts[k] == "" && Blocks(c)[k].items != []
  }

  ghost predicate Rendered(c: Context, layable: Laying, body: string, references: seq<Record>, omitted: bool,
                           texts: seq<string>, shown: seq<seq<Record>>, lefts: seq<int>) {
    && Laid(c, layable, texts, shown, lefts) && body == Prefix(c) + Stacked(texts) && (omitted <==> SomeOmitted(c, texts))
    && references == if |texts| > 2 then Showing(shown[2]) else []
  }

  lemma LaidMore(c: Context, layable: Laying, texts: seq<string>, shown: seq<seq<Record>>, lefts: seq<int>, text: string, records: seq<Record>, left: int)
    requires Laid(c, layable, texts, shown, lefts) && |texts| < 9
    requires (|texts|, lefts[|texts|], text, records) in layable
    requires left == if text == "" then lefts[|texts|] else lefts[|texts|] - |text| - 1
    ensures Laid(c, layable, texts + [text], shown + [records], lefts + [left])
  {
    forall k: nat | k < |texts| + 1 ensures LaidAt(layable, texts + [text], shown + [records], lefts + [left], k) {
      if k < |texts| {
        assert LaidAt(layable, texts, shown, lefts, k);
      }
    }
  }

  lemma OmittedMore(c: Context, texts: seq<string>, text: string)
    requires |texts| < 9
    ensures SomeOmitted(c, texts + [text]) <==> SomeOmitted(c, texts) || (text == "" && Blocks(c)[|texts|].items != [])
  {
    var more := texts + [text];
    assert more[|texts|] == text;
    if k: nat :| k < |texts| && texts[k] == "" && Blocks(c)[k].items != [] {
      assert more[k] == "";
    }
  }

  lemma RenderedMore(c: Context, layable: Laying, body: string, references: seq<Record>, omitted: bool,
                     texts: seq<string>, shown: seq<seq<Record>>, lefts: seq<int>, text: string, records: seq<Record>, left: int)
    requires Rendered(c, layable, body, references, omitted, texts, shown, lefts) && |texts| < 9
    requires (|texts|, lefts[|texts|], text, records) in layable && (text == "" ==> records == [])
    requires left == if text == "" then lefts[|texts|] else lefts[|texts|] - |text| - 1
    ensures Rendered(c, layable, if text == "" then body else body + "\n" + text,
                     if |texts| == 2 && text != "" then Showing(records) else references,
                     omitted || (text == "" && Blocks(c)[|texts|].items != []), texts + [text], shown + [records], lefts + [left])
  {
    var more := texts + [text];
    LaidMore(c, layable, texts, shown, lefts, text, records, left);
    OmittedMore(c, texts, text);
    assert more[..|texts|] == texts && more[|texts|] == text;
    StackedMore(Prefix(c), Stacked(texts), text);
  }

  lemma StackedMore(prefix: string, stacked: string, text: string)
    ensures prefix + (stacked + if text == "" then "" else "\n" + text) == if text == "" then prefix + stacked else prefix + stacked + "\n" + text
  {
  }

  /** One block of the prompt. */
  method RenderBlock(encode: Encoder, c: Context, n: nat, left: int, ghost layable: Laying) returns (block: string, included: seq<Record>)
    requires n < 9 && HidesBlocks(encode, c, layable)
    ensures (n, left, block, included) in layable && (block != "" ==> |block| <= left - 1) && (block == "" ==> included == [])
    ensures n == KNOWLEDGE ==> |included| <= |c.knowledge| && CutsWithin(encode, c.knowledge, included, block)
  {
    var b := Blocks(c)[n];
    block, included := RenderSection(encode, b.name, b.items, Min(b.limit, left - 1), b.fairText);
    assert IsBlock(encode, c, n, left, block, included);
  }

  method RenderBlocks(encode: Encoder, c: Context, ghost layable: Laying)
    returns (body: string, references: seq<Record>, omitted: bool, ghost available: int,
             ghost texts: seq<string>, ghost shown: seq<seq<Record>>, ghost lefts: seq<int>)
    requires HidesBlocks(encode, c, layable)
    ensures Assembled(c, body, available, omitted, 9) && References(encode, c, references, body)
    ensures Rendered(c, layable, body, references, omitted, texts, shown, lefts) && |texts| == 9
  {
    var blocks := Blocks(c);
    var left := Available(c);
    body, references, omitted := Prefix(c), [], false;
    texts, shown, lefts := [], [], [left];
    Padded(Prefix(c), "");
    for n := 0 to 9
      invariant Assembled(c, body, left, omitted, n) && References(encode, c, references, body)
      invariant Rendered(c, layable, body, references, omitted, texts, shown, lefts) && |texts| == n && lefts[n] == left
    {
      var block, included := RenderBlock(encode, c, n, left, layable);
      ghost var next := if block == "" then left else left - |block| - 1;
      RenderedMore(c, layable, body, references, omitted, texts, shown, lefts, block, included, next);
      texts, shown, lefts := texts + [block], shown + [included], lefts + [next];
      if block == "" {
        AssembledSkip(c, body, left, omitted, n);
        omitted := omitted || blocks[n].items != [];
      } else {
        AssembledBlock(c, body, left, omitted, n, block);
        BlockReferences(encode, c, n, references, body, block, included);
        references := if n == KNOWLEDGE then Showing(included) else references;
        body := body + "\n" + block;
        left := left - |block| - 1;
      }
    }
    available := left;
  }

  /** The prompt: its blocks, each in what those before it left, the mark of what was omitted, and the question. */
  ghost predicate IsPrompt(encode: Encoder, c: Context, prompt: string, references: seq<Record>) {
    exists texts, shown, lefts :: IsLaidOut(encode, c, prompt, references, texts, shown, lefts)
  }

  ghost predicate IsLaidOut(encode: Encoder, c: Context, prompt: string, references: seq<Record>,
                            texts: seq<string>, shown: seq<seq<Record>>, lefts: seq<int>) {
    && Laid(c, Layable(encode, c), texts, shown, lefts) && |texts| == 9 && references == Showing(shown[2])
    && prompt == Prefix(c) + Stacked(texts) + (if SomeOmitted(c, texts) then OMITTED_MARK else "") + END_MARK + Suffix(c)
  }

  lemma PromptIs(encode: Encoder, c: Context, body: string, references: seq<Record>, omitted: bool,
                 texts: seq<string>, shown: seq<seq<Record>>, lefts: seq<int>)
    requires Rendered(c, Layable(encode, c), body, references, omitted, texts, shown, lefts) && |texts| == 9
    ensures IsPrompt(encode, c, body + Ending(c, omitted), references)
  {
    Framed(Prefix(c), body, if omitted then OMITTED_MARK else "", END_MARK, Suffix(c));
    assert IsLaidOut(encode, c, body + Ending(c, omitted), references, texts, shown, lefts);
  }

  /**
    `render`: the prompt stays within its limit exactly when its frame and the unused marker fit,
    or when the frame fits and there is nothing to show; every reference stands whole in it.
   */
  method Render(encode: Encoder, c: Context) returns (prompt: string, references: seq<Record>)
    ensures |prompt| <= c.maxPrompt <==> Frame(c) + 46 <= c.maxPrompt || (NothingToShow(c) && Frame(c) <= c.maxPrompt)
    ensures c.maxPrompt >= 256 && |c.character| <= 40 ==> |prompt| <= c.maxPrompt
    ensures IsPrompt(encode, c, prompt, references)
    ensures References(encode, c, references, prompt)
    ensures Prefix(c) <= prompt && exists before :: prompt == before + END_MARK + Suffix(c)
  {
    var body, omitted;
    ghost var available, texts, shown, lefts;
    ghost var layable := Layable(encode, c);
    LayableHides(encode, c);
    body, references, omitted, available, texts, shown, lefts := RenderBlocks(encode, c, layable);
    var ending := Ending(c, omitted);
    prompt := body + ending;
    PromptIs(encode, c, body, references, omitted, texts, shown, lefts);
    PromptSize(c, body, available, omitted);
    AvailableIff(c);
    PromptFrame(c, body, omitted);
    ReferencesMore(encode, c, references, body, "", ending);
    Padded(body, ending);
    if c.maxPrompt >= 256 && |c.character| <= 40 {
      UsualContextHasRoom(c);
    }
  }

  function Ending(c: Context, omitted: bool): string {
    (if omitted then OMITTED_MARK else "") + END_MARK + Suffix(c)
  }

  lemma PromptSize(c: Context, body: string, available: int, omitted: bool)
    requires Assembled(c, body, available, omitted, 9)
    ensures |body + Ending(c, omitted)| <= c.maxPrompt
      <==> Available(c) >= 0 || (NothingToShow(c) && Available(c) + 46 >= 0)
  {
    LabelSizes();
  }

  lemma PromptFrame(c: Context, body: string, omitted: bool)
    requires Prefix(c) <= body
    ensures Prefix(c) <= body + Ending(c, omitted)
    ensures exists before :: body + Ending(c, omitted) == before + END_MARK + Suffix(c)
  {
    var marker := if omitted then OMITTED_MARK else "";
    Framed(Prefix(c), body, marker, END_MARK, Suffix(c));
  }

  lemma Framed(prefix: string, body: string, marker: string, mark: string, suffix: string)
    requires prefix <= body
    ensures prefix <= body + (marker + mark + suffix)
    ensures body + (marker + mark + suffix) == (body + marker) + mark + suffix
  {
  }

  lemma Appended(body: string, block: string)
    ensures "" + body + ("\n" + block) == body + "\n" + block
    ensures (body + "\n") + block + "" == body + "\n" + block
  {
  }

  lemma Padded(a: string, b: string)
    ensures "" + a + b == a + b
  {
  }

  /** In the least context a prompt for a name of more than 171 characters is too long, and one of more than 125 as soon as a record is to be shown. */
  method LongNameOverflows(encode: Encoder, c: Context) returns (prompt: string)
    requires c.maxPrompt == 256
    ensures |c.character| > 171 || (|c.character| > 125 && !NothingToShow(c)) ==> |prompt| > 256
  {
    var references;
    prompt, references := Render(encode, c);
  }
}
