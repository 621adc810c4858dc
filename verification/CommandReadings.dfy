/**
  When canonicalizing a command changes how it is read. A command can have several readings; the
  matcher takes the first. Only letter case separates a command from its canonical form, and only
  an action id is read by letter case.
 */
module CommandReadings {
  import opened Prelude
  import opened ControllerCommands

  /** How many characters of `s` a value takes in a slot of this kind, if it can stand there. */
  function Capture(kind: Kind, v: Raw, s: string): (n: Option<nat>)
    ensures n.Some? ==> n.value <= |s|
  {
    match kind
    case Enum(values) => if v.Text? && v.text in values && FoldStarts(s, v.text) then Some(|v.text|) else None
    case Numeric => if v.Text? && AllDigits(v.text) && v.text <= s then Some(|v.text|) else None
    case ActionId => if v.Text? && IsActionId(v.text) && v.text <= s then Some(16) else None
    case FlagSuffix(trueValue, _) =>
      if v.Bool? && !v.flag then Some(0)
      else if v.Bool? && FoldStarts(s, trueValue) then Some(|trueValue|)
      else None
  }

  /** `values` is one way, not necessarily the first, to read `s` by the template. */
  predicate Reads(pieces: seq<Piece>, values: seq<Raw>, s: string) {
    if pieces == [] then values == [] && s == ""
    else match pieces[0]
      case Literal(text) => FoldStarts(s, text) && Reads(pieces[1..], values, s[|text|..])
      case Slot(p) =>
        && values != [] && Capture(p.kind, values[0], s).Some?
        && Reads(pieces[1..], values[1..], s[Capture(p.kind, values[0], s).value..])
  }

  // ------------------------------------------------------------------ the matcher takes the first reading

  /** An alternative that leads to a match. */
  predicate Leads(v: string, rest: seq<Piece>, s: string) {
    FoldStarts(s, v) && Match(rest, s[|v|..]).Some?
  }

  lemma {:induction false} EnumFirst(values: seq<string>, rest: seq<Piece>, s: string) returns (i: nat)
    requires MatchEnum(values, rest, s).Some?
    ensures i < |values| && Leads(values[i], rest, s) && forall j | 0 <= j < i :: !Leads(values[j], rest, s)
    ensures MatchEnum(values, rest, s).value == [Text(values[i])] + Match(rest, s[|values[i]|..]).value
  {
    if Leads(values[0], rest, s) {
      i := 0;
    } else {
      i := EnumFirst(values[1..], rest, s);
      i := i + 1;
      assert forall j | 1 <= j < i :: values[j] == values[1..][j - 1];
    }
  }

  lemma {:induction false} DigitsFirst(n: nat, rest: seq<Piece>, s: string) returns (k: nat)
    requires n <= |s| && MatchDigits(n, rest, s).Some?
    ensures 0 < k <= n && Match(rest, s[k..]).Some? && forall j | k < j <= n :: Match(rest, s[j..]).None?
    ensures MatchDigits(n, rest, s).value == [Text(s[..k])] + Match(rest, s[k..]).value
  {
    if Match(rest, s[n..]).Some? {
      k := n;
    } else {
      k := DigitsFirst(n - 1, rest, s);
    }
  }

  lemma SlotReads(pieces: seq<Piece>, v: Raw, more: seq<Raw>, s: string, n: nat)
    requires pieces != [] && pieces[0].Slot? && Capture(pieces[0].parameter.kind, v, s) == Some(n) && Reads(pieces[1..], more, s[n..])
    ensures Reads(pieces, [v] + more, s)
  {
    assert ([v] + more)[1..] == more;
  }

  /** What the matcher returns is a reading. */
  lemma {:induction false} MatchReads(pieces: seq<Piece>, s: string)
    requires Match(pieces, s).Some?
    ensures Reads(pieces, Match(pieces, s).value, s)
    decreases |pieces|
  {
    if pieces != [] {
      var rest := pieces[1..];
      match pieces[0]
      case Literal(text) => MatchReads(rest, s[|text|..]);
      case Slot(p) =>
        match p.kind {
          case Enum(values) =>
            var i := EnumFirst(values, rest, s);
            MatchReads(rest, s[|values[i]|..]);
            SlotReads(pieces, Text(values[i]), Match(rest, s[|values[i]|..]).value, s, |values[i]|);
          case Numeric =>
            var k := DigitsFirst(DigitRun(s), rest, s);
            MatchReads(rest, s[k..]);
            SlotReads(pieces, Text(s[..k]), Match(rest, s[k..]).value, s, k);
          case ActionId =>
            MatchReads(rest, s[16..]);
            SlotReads(pieces, Text(s[..16]), Match(rest, s[16..]).value, s, 16);
          case FlagSuffix(trueValue, _) =>
            if Leads(trueValue, rest, s) {
              MatchReads(rest, s[|trueValue|..]);
              SlotReads(pieces, Bool(true), Match(rest, s[|trueValue|..]).value, s, |trueValue|);
            } else {
              MatchReads(rest, s);
              assert s[0..] == s;
              SlotReads(pieces, Bool(false), Match(rest, s).value, s, 0);
            }
        }
    }
  }

  /** Whatever has a reading is matched. */
  lemma {:induction false} ReadMatches(pieces: seq<Piece>, values: seq<Raw>, s: string)
    requires Reads(pieces, values, s)
    ensures Match(pieces, s).Some?
    decreases |pieces|
  {
    if pieces != [] {
      match pieces[0]
      case Literal(text) => ReadMatches(pieces[1..], values, s[|text|..]);
      case Slot(p) =>
        var n := Capture(p.kind, values[0], s).value;
        ReadMatches(pieces[1..], values[1..], s[n..]);
        SlotIsMatched(p, pieces, values[0], s, n);
    }
  }

  lemma SlotIsMatched(p: Parameter, pieces: seq<Piece>, v: Raw, s: string, n: nat)
    requires pieces != [] && pieces[0] == Slot(p) && Capture(p.kind, v, s) == Some(n) && Match(pieces[1..], s[n..]).Some?
    ensures Match(pieces, s).Some?
  {
    match p.kind
    case Enum(choices) =>
      var k :| 0 <= k < |choices| && choices[k] == v.text;
      assert choices[0..] == choices;
      EnumMatches(choices, 0, k, pieces[1..], s);
    case Numeric =>
      assert s[..n] == v.text;
      DigitRunAtLeast(s, n);
      DigitsMatch(DigitRun(s), n, pieces[1..], s);
    case ActionId =>
      assert s[..16] == v.text;
    case FlagSuffix(trueValue, _) =>
      assert s[0..] == s;
  }

  // ------------------------------------------------------------------ two texts that differ in letter case only

  /** First readings `v` of `s` and `w` of `t`, each a reading of the other text too. */
  ghost predicate Crossed(pieces: seq<Piece>, s: string, t: string, v: seq<Raw>, w: seq<Raw>) {
    && Folds(s, t) && Match(pieces, s) == Some(v) && Match(pieces, t) == Some(w)
    && Reads(pieces, v, t) && Reads(pieces, w, s)
  }

  lemma EnumCrossed(p: Parameter, pieces: seq<Piece>, s: string, t: string, v: seq<Raw>, w: seq<Raw>) returns (n: nat)
    requires pieces != [] && pieces[0] == Slot(p) && p.kind.Enum? && Crossed(pieces, s, t, v, w)
    ensures v != [] && w != [] && v[0] == w[0] && n <= |s| && Crossed(pieces[1..], s[n..], t[n..], v[1..], w[1..])
  {
    var values, rest := p.kind.values, pieces[1..];
    var i := EnumFirst(values, rest, s);
    var j := EnumFirst(values, rest, t);
    n := |values[i]|;
    ReadMatches(rest, v[1..], t[n..]);
    ReadMatches(rest, w[1..], s[|values[j]|..]);
    assert Leads(values[i], rest, t) && Leads(values[j], rest, s);
    assert i == j;
    FoldsTail(s, t, n);
  }

  lemma DigitsCrossed(p: Parameter, pieces: seq<Piece>, s: string, t: string, v: seq<Raw>, w: seq<Raw>) returns (n: nat)
    requires pieces != [] && pieces[0] == Slot(p) && p.kind.Numeric? && Crossed(pieces, s, t, v, w)
    ensures v != [] && w != [] && v[0] == w[0] && n <= |s| && Crossed(pieces[1..], s[n..], t[n..], v[1..], w[1..])
  {
    var rest := pieces[1..];
    SameDigits(s, t);
    n := DigitsFirst(DigitRun(s), rest, s);
    var m := DigitsFirst(DigitRun(t), rest, t);
    ReadMatches(rest, v[1..], t[n..]);
    ReadMatches(rest, w[1..], s[m..]);
    assert n == m;
    FoldsTail(s, t, n);
  }

  lemma FlagCrossed(p: Parameter, pieces: seq<Piece>, s: string, t: string, v: seq<Raw>, w: seq<Raw>) returns (n: nat)
    requires pieces != [] && pieces[0] == Slot(p) && p.kind.FlagSuffix? && Crossed(pieces, s, t, v, w)
    ensures v != [] && w != [] && v[0] == w[0] && n <= |s| && Crossed(pieces[1..], s[n..], t[n..], v[1..], w[1..])
  {
    var flag, rest := p.kind.trueValue, pieces[1..];
    assert s[0..] == s && t[0..] == t;
    if v[0] == Bool(true) {
      ReadMatches(rest, v[1..], t[|flag|..]);
    }
    if w[0] == Bool(true) {
      ReadMatches(rest, w[1..], s[|flag|..]);
    }
    n := if v[0] == Bool(true) then |flag| else 0;
    FoldsTail(s, t, n);
  }

  lemma IdCrossed(p: Parameter, pieces: seq<Piece>, s: string, t: string, v: seq<Raw>, w: seq<Raw>)
    requires pieces != [] && pieces[0] == Slot(p) && p.kind.ActionId? && Crossed(pieces, s, t, v, w)
    ensures v != [] && w != [] && v[0] == w[0] && 16 <= |s| && Crossed(pieces[1..], s[16..], t[16..], v[1..], w[1..])
  {
    assert v[0] == Text(s[..16]) && s[..16] <= t;
    assert s[..16] == t[..16];
    FoldsTail(s, t, 16);
  }

  /** If each text's first reading is a reading of the other, the first readings are the same. */
  lemma {:induction false} CrossedAreSame(pieces: seq<Piece>, s: string, t: string, v: seq<Raw>, w: seq<Raw>)
    requires Crossed(pieces, s, t, v, w)
    ensures v == w
    decreases |pieces|
  {
    if pieces != [] {
      match pieces[0]
      case Literal(text) =>
        FoldsTail(s, t, |text|);
        CrossedAreSame(pieces[1..], s[|text|..], t[|text|..], v, w);
      case Slot(p) =>
        var n := 16;
        match p.kind {
          case Enum(_) => n := EnumCrossed(p, pieces, s, t, v, w);
          case Numeric => n := DigitsCrossed(p, pieces, s, t, v, w);
          case ActionId => IdCrossed(p, pieces, s, t, v, w);
          case FlagSuffix(_, _) => n := FlagCrossed(p, pieces, s, t, v, w);
        }
        CrossedAreSame(pieces[1..], s[n..], t[n..], v[1..], w[1..]);
        assert v == [v[0]] + v[1..] && w == [w[0]] + w[1..];
    }
  }

  // ------------------------------------------------------------------ canonicalization

  /** Matched values are a reading of the command they build. */
  lemma {:induction false} BuiltReads(pieces: seq<Piece>, values: seq<Raw>)
    requires TemplateOk(pieces) && CommandOf(pieces, values).Some? && Canonicals(pieces, values)
    ensures Reads(pieces, values, CommandOf(pieces, values).value)
    decreases |pieces|
  {
    if pieces != [] {
      TailOk(pieces);
      match pieces[0]
      case Literal(text) =>
        BuiltReads(pieces[1..], values);
        FoldStartsWith(text, CommandOf(pieces[1..], values).value);
      case Slot(p) =>
        var text, rest := Render(p.kind, values[0]).value, CommandOf(pieces[1..], values[1..]).value;
        BuiltReads(pieces[1..], values[1..]);
        RenderedShape(p.kind, values[0]);
        FoldStartsWith(text, rest);
        assert text == "" ==> text + rest == rest;
    }
  }

  /**
    Canonicalization is idempotent on a command if and only if the way its canonical form is read
    is also a way to read the command itself: every action id it reads is written in lower case
    there.
   */
  lemma IdempotentIff(pieces: seq<Piece>, command: string)
    requires TemplateOk(pieces) && MatchArguments(pieces, command).Some?
    ensures var arguments := MatchArguments(pieces, command); var canonical := Command(pieces, arguments.value);
      && canonical.Some? && Match(pieces, canonical.value).Some?
      && (MatchArguments(pieces, canonical.value) == arguments <==> Reads(pieces, Match(pieces, canonical.value).value, command))
  {
    CanonicalUpToCase(pieces, command);
    MatchIsCanonical(pieces, command);
    var v := Match(pieces, command).value;
    ArgumentsOk(pieces, v);
    var canonical := CommandOf(pieces, v).value;
    BuiltMatches(pieces, v);
    var w := Match(pieces, canonical).value;
    MatchReads(pieces, command);
    BuiltReads(pieces, v);
    if Reads(pieces, w, command) {
      MatchReads(pieces, canonical);
      CrossedAreSame(pieces, command, canonical, v, w);
    } else {
      MatchIsCanonical(pieces, canonical);
      ValuesOfArguments(pieces, v);
      ValuesOfArguments(pieces, w);
    }
  }

  /** Letter case makes no digit of an action id in `s` that `t` has not. */
  predicate HexStays(s: string, t: string) {
    |s| == |t| && forall i | 0 <= i < |s| && IsHex(s[i]) :: IsHex(t[i])
  }

  lemma {:induction false} ReadsEither(pieces: seq<Piece>, values: seq<Raw>, s: string, t: string)
    requires Folds(s, t) && Reads(pieces, values, s) && HexStays(s, t)
    ensures Reads(pieces, values, t)
    decreases |pieces|
  {
    if pieces != [] {
      match pieces[0]
      case Literal(text) =>
        FoldStartsEither(s, t, text);
        FoldsTail(s, t, |text|);
        ReadsEither(pieces[1..], values, s[|text|..], t[|text|..]);
      case Slot(p) =>
        var n := Capture(p.kind, values[0], s).value;
        CaptureEither(p.kind, values[0], s, t);
        FoldsTail(s, t, n);
        ReadsEither(pieces[1..], values[1..], s[n..], t[n..]);
    }
  }

  lemma CaptureEither(kind: Kind, v: Raw, s: string, t: string)
    requires Folds(s, t) && HexStays(s, t) && Capture(kind, v, s).Some?
    ensures Capture(kind, v, t) == Capture(kind, v, s)
  {
    match kind
    case Enum(_) => FoldStartsEither(s, t, v.text);
    case Numeric => SameHex(s, t, v.text);
    case ActionId => SameHex(s, t, v.text);
    case FlagSuffix(trueValue, _) => FoldStartsEither(s, t, trueValue);
  }

  lemma SameHex(s: string, t: string, prefix: string)
    requires Folds(s, t) && HexStays(s, t) && prefix <= s && forall i | 0 <= i < |prefix| :: IsHex(prefix[i])
    ensures prefix <= t
  {
    forall i | 0 <= i < |prefix| ensures prefix[i] == t[i] {
      assert prefix[i] == s[i] && Lower(s[i]) == Lower(t[i]) && IsHex(t[i]);
    }
  }

  /** A command without the letters that only letter case keeps out of an action id. */
  predicate NoUpperHex(command: string) {
    forall i | 0 <= i < |command| :: !('A' <= command[i] <= 'F')
  }

  /** Whatever the template, a command without the capital letters A to F is canonicalized once and for all. */
  lemma PlainIsIdempotent(pieces: seq<Piece>, command: string)
    requires TemplateOk(pieces) && MatchArguments(pieces, command).Some? && NoUpperHex(command)
    ensures var arguments := MatchArguments(pieces, command); var canonical := Command(pieces, arguments.value);
      canonical.Some? && MatchArguments(pieces, canonical.value) == arguments
  {
    CanonicalUpToCase(pieces, command);
    IdempotentIff(pieces, command);
    var canonical := Command(pieces, MatchArguments(pieces, command).value).value;
    MatchReads(pieces, canonical);
    PlainHexStays(canonical, command);
    ReadsEither(pieces, Match(pieces, canonical).value, canonical, command);
  }

  lemma PlainHexStays(canonical: string, command: string)
    requires Folds(canonical, command) && NoUpperHex(command)
    ensures HexStays(canonical, command)
  {
    forall i | 0 <= i < |canonical| && IsHex(canonical[i]) ensures IsHex(command[i]) {
      assert Lower(canonical[i]) == Lower(command[i]);
    }
  }

  /** Nor does canonicalizing such a command select another action of a manifest. */
  lemma {:induction false} PlainSelectsSameAction(actions: seq<seq<Piece>>, command: string)
    requires FirstMatch(actions, command).Some? && NoUpperHex(command)
    requires forall j | 0 <= j < |actions| :: TemplateOk(actions[j])
    ensures var (k, arguments) := FirstMatch(actions, command).value;
      && k < |actions| && Command(actions[k], arguments).Some?
      && Folds(Command(actions[k], arguments).value, command)
      && FirstMatch(actions, Command(actions[k], arguments).value) == FirstMatch(actions, command)
  {
    var (k, arguments) := FirstMatch(actions, command).value;
    if k == 0 {
      CanonicalUpToCase(actions[0], command);
      PlainIsIdempotent(actions[0], command);
    } else {
      assert forall j | 0 <= j < |actions| - 1 :: actions[1..][j] == actions[j + 1];
      PlainSelectsSameAction(actions[1..], command);
      var canonical := Command(actions[k], arguments).value;
      if Match(actions[0], canonical).Some? {
        MatchReads(actions[0], canonical);
        PlainHexStays(canonical, command);
        ReadsEither(actions[0], Match(actions[0], canonical).value, canonical, command);
        ReadMatches(actions[0], Match(actions[0], canonical).value, command);
      }
    }
  }
}
