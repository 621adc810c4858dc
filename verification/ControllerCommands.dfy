/**
  The command grammar of `controller_manifest.py`: templates of literals and typed slots, a
  case-insensitive backtracking matcher and the builder of the canonical command. Text is ASCII.
  A template names each parameter once, so parameters are taken in template order.
 */
module ControllerCommands {
  import opened Prelude

  // ------------------------------------------------------------------ letter case

  function Lower(c: char): char {
    if 'A' <= c <= 'Z' then (c as int + 32) as char else c
  }

  /** Equal up to letter case. */
  predicate Folds(a: string, b: string) {
    |a| == |b| && forall i | 0 <= i < |a| :: Lower(a[i]) == Lower(b[i])
  }

  predicate FoldStarts(s: string, prefix: string) {
    |prefix| <= |s| && Folds(s[..|prefix|], prefix)
  }

  predicate IsDigit(c: char) { '0' <= c <= '9' }
  predicate IsHex(c: char) { IsDigit(c) || 'a' <= c <= 'f' }
  predicate IsToken(c: char) { IsDigit(c) || 'a' <= c <= 'z' || 'A' <= c <= 'Z' || c == '_' || c == '-' }

  predicate AllTokens(s: string) { forall i | 0 <= i < |s| :: IsToken(s[i]) }
  predicate AllDigits(s: string) { s != "" && forall i | 0 <= i < |s| :: IsDigit(s[i]) }
  predicate IsActionId(s: string) { |s| == 16 && forall i | 0 <= i < 16 :: IsHex(s[i]) }

  // ------------------------------------------------------------------ templates

  datatype Kind =
    | Enum(values: seq<string>)
    | Numeric
    | ActionId
    | FlagSuffix(trueValue: string, byDefault: bool)

  datatype Parameter = Parameter(name: string, kind: Kind)

  datatype Piece = Literal(text: string) | Slot(parameter: Parameter)

  /** An argument as a caller passes it. */
  datatype Raw = Nothing | Bool(flag: bool) | Text(text: string) | Number(digits: string)

  predicate KindOk(kind: Kind) {
    match kind
    case Enum(values) =>
      && values != [] && (forall i | 0 <= i < |values| :: values[i] != "" && AllTokens(values[i]))
      && (forall i, j | 0 <= i < j < |values| :: !Folds(values[i], values[j]))
    case Numeric => true
    case ActionId => true
    case FlagSuffix(trueValue, _) => trueValue != "" && trueValue[0] == ' '
  }

  /** What loading a manifest has checked: well-formed parameters, each named once. */
  ghost predicate TemplateOk(pieces: seq<Piece>) {
    && (forall i | 0 <= i < |pieces| && pieces[i].Slot? :: KindOk(pieces[i].parameter.kind))
    && (forall i, j | 0 <= i < j < |pieces| && pieces[i].Slot? && pieces[j].Slot? :: pieces[i].parameter.name != pieces[j].parameter.name)
  }

  function Names(pieces: seq<Piece>): set<string> {
    set i | 0 <= i < |pieces| && pieces[i].Slot? :: pieces[i].parameter.name
  }

  // ------------------------------------------------------------------ rendering

  /** `next(item for item in values if item.casefold() == candidate.casefold())` */
  function Canonical(values: seq<string>, candidate: string): Option<string> {
    if values == [] then None
    else if Folds(values[0], candidate) then Some(values[0])
    else Canonical(values[1..], candidate)
  }

  function AsText(raw: Raw): string {
    match raw
    case Nothing => "None"
    case Bool(b) => if b then "True" else "False"
    case Text(text) => text
    case Number(digits) => digits
  }

  predicate IsBlank(c: char) {
    c == ' ' || c == '\t' || c == '\n' || c == '\r'
  }

  function Strip(s: string): string {
    if s != "" && IsBlank(s[0]) then Strip(s[1..])
    else if s != "" && IsBlank(s[|s| - 1]) then Strip(s[..|s| - 1])
    else s
  }

  function Render(kind: Kind, raw: Raw): Option<string> {
    match kind
    case ActionId => if raw.Text? && IsActionId(raw.text) then Some(raw.text) else None
    case Enum(values) => Canonical(values, AsText(raw))
    case Numeric => if raw.Bool? || !AllDigits(Strip(AsText(raw))) then None else Some(Strip(AsText(raw)))
    case FlagSuffix(trueValue, byDefault) =>
      if raw.Nothing? then Some(if byDefault then trueValue else "")
      else if raw.Bool? then Some(if raw.flag then trueValue else "")
      else None
  }

  /** The value `build` reports back: the rendered text, or the truth of the flag as passed. */
  function Normalized(kind: Kind, raw: Raw): Raw {
    if kind.FlagSuffix? then Bool(raw.Bool? && raw.flag)
    else if Render(kind, raw).Some? then Text(Render(kind, raw).value)
    else Nothing
  }

  function Given(p: Parameter, arguments: map<string, Raw>): Raw {
    if p.name in arguments then arguments[p.name] else Bool(p.kind.FlagSuffix? && p.kind.byDefault)
  }

  /** The values of the slots, in template order. */
  function ValuesOf(pieces: seq<Piece>, arguments: map<string, Raw>): seq<Raw> {
    if pieces == [] then []
    else match pieces[0]
      case Literal(_) => ValuesOf(pieces[1..], arguments)
      case Slot(p) => [Given(p, arguments)] + ValuesOf(pieces[1..], arguments)
  }

  /** The command rendered from values in template order. */
  function CommandOf(pieces: seq<Piece>, values: seq<Raw>): Option<string> {
    if pieces == [] then (if values == [] then Some("") else None)
    else match pieces[0]
      case Literal(text) => Joined(Some(text), CommandOf(pieces[1..], values))
      case Slot(p) => if values == [] then None else Joined(Render(p.kind, values[0]), CommandOf(pieces[1..], values[1..]))
  }

  function Joined(a: Option<string>, b: Option<string>): Option<string> {
    if a.Some? && b.Some? then Some(a.value + b.value) else None
  }

  /** The values `build` reports back, in template order. */
  function Reported(pieces: seq<Piece>, values: seq<Raw>): seq<Raw> {
    if pieces == [] || values == [] then []
    else match pieces[0]
      case Literal(_) => Reported(pieces[1..], values)
      case Slot(p) => [Normalized(p.kind, values[0])] + Reported(pieces[1..], values[1..])
  }

  /** Exactly the declared names may be given, and all but the flags must be. */
  predicate NamesOk(pieces: seq<Piece>, arguments: map<string, Raw>) {
    && arguments.Keys <= Names(pieces)
    && (forall i | 0 <= i < |pieces| && pieces[i].Slot? && !pieces[i].parameter.kind.FlagSuffix? :: pieces[i].parameter.name in arguments)
  }

  // ------------------------------------------------------------------ matching

  function DigitRun(s: string): (n: nat)
    ensures n <= |s| && (forall i | 0 <= i < n :: IsDigit(s[i])) && (n < |s| ==> !IsDigit(s[n]))
  {
    if s != "" && IsDigit(s[0]) then 1 + DigitRun(s[1..]) else 0
  }

  function Cons(v: Raw, rest: Option<seq<Raw>>): Option<seq<Raw>> {
    if rest.Some? then Some([v] + rest.value) else None
  }

  /** The backtracking match: alternatives are tried in the pattern's order, and the first that leads to a match wins. */
  function Match(pieces: seq<Piece>, s: string): Option<seq<Raw>>
    decreases |pieces|, 0
  {
    if pieces == [] then (if s == "" then Some([]) else None)
    else match pieces[0]
      case Literal(text) => if FoldStarts(s, text) then Match(pieces[1..], s[|text|..]) else None
      case Slot(p) =>
        match p.kind
        case Enum(values) => MatchEnum(values, pieces[1..], s)
        case Numeric => MatchDigits(DigitRun(s), pieces[1..], s)
        case ActionId => if |s| >= 16 && IsActionId(s[..16]) then Cons(Text(s[..16]), Match(pieces[1..], s[16..])) else None
        case FlagSuffix(trueValue, _) =>
          var taken := if FoldStarts(s, trueValue) then Cons(Bool(true), Match(pieces[1..], s[|trueValue|..])) else None;
          if taken.Some? then taken else Cons(Bool(false), Match(pieces[1..], s))
  }

  /** `v1|v2|...`, each followed by the rest of the pattern; the capture is reported in its canonical case. */
  function MatchEnum(values: seq<string>, rest: seq<Piece>, s: string): Option<seq<Raw>>
    decreases |rest|, 1 + |values|
  {
    if values == [] then None
    else
      var taken := if FoldStarts(s, values[0]) then Cons(Text(values[0]), Match(rest, s[|values[0]|..])) else None;
      if taken.Some? then taken else MatchEnum(values[1..], rest, s)
  }

  /** `[0-9]+`, longest run first. */
  function MatchDigits(n: nat, rest: seq<Piece>, s: string): Option<seq<Raw>>
    requires n <= |s|
    decreases |rest|, 1 + n
  {
    if n == 0 then None
    else
      var taken := Cons(Text(s[..n]), Match(rest, s[n..]));
      if taken.Some? then taken else MatchDigits(n - 1, rest, s)
  }

  // ------------------------------------------------------------------ arguments and values

  /** Values in template order, given to the parameters by name. */
  function Arguments(pieces: seq<Piece>, values: seq<Raw>): map<string, Raw> {
    if pieces == [] || values == [] then map[]
    else match pieces[0]
      case Literal(_) => Arguments(pieces[1..], values)
      case Slot(p) => Arguments(pieces[1..], values[1..])[p.name := values[0]]
  }

  lemma FoldsJoin(a: string, b: string, c: string, d: string)
    requires Folds(a, b) && Folds(c, d)
    ensures Folds(a + c, b + d)
  {
  }

  lemma {:induction false} CanonicalFound(values: seq<string>, candidate: string)
    ensures Canonical(values, candidate).Some? ==> Canonical(values, candidate).value in values && Folds(Canonical(values, candidate).value, candidate)
    ensures Canonical(values, candidate).None? ==> forall i | 0 <= i < |values| :: !Folds(values[i], candidate)
  {
    if values != [] && !Folds(values[0], candidate) {
      CanonicalFound(values[1..], candidate);
      assert forall i | 1 <= i < |values| :: values[i] == values[1..][i - 1];
    }
  }

  lemma CanonicalOfMember(values: seq<string>, i: nat)
    requires i < |values| && forall j, k | 0 <= j < k < |values| :: !Folds(values[j], values[k])
    ensures Canonical(values, values[i]) == Some(values[i])
  {
    CanonicalFound(values, values[i]);
  }

  // ------------------------------------------------------------------ soundness: a match rebuilds the command

  /** What a match of one slot promises about the command it matched. */
  ghost predicate Rebuilds(pieces: seq<Piece>, values: seq<Raw>, s: string) {
    CommandOf(pieces, values).Some? && Folds(CommandOf(pieces, values).value, s)
  }

  lemma RebuildSlot(pieces: seq<Piece>, v: Raw, capture: string, more: seq<Raw>, s: string, n: nat)
    requires pieces != [] && pieces[0].Slot? && n <= |s|
    requires Render(pieces[0].parameter.kind, v) == Some(capture) && Folds(capture, s[..n])
    requires Rebuilds(pieces[1..], more, s[n..])
    ensures Rebuilds(pieces, [v] + more, s)
  {
    assert ([v] + more)[1..] == more;
    FoldsJoin(capture, s[..n], CommandOf(pieces[1..], more).value, s[n..]);
    assert s[..n] + s[n..] == s;
  }

  lemma {:induction false} EnumRebuilds(values: seq<string>, at: nat, pieces: seq<Piece>, s: string)
    requires TemplateOk(pieces) && pieces != [] && pieces[0].Slot? && pieces[0].parameter.kind == Enum(values) && at <= |values|
    requires MatchEnum(values[at..], pieces[1..], s).Some?
    ensures Rebuilds(pieces, MatchEnum(values[at..], pieces[1..], s).value, s)
    decreases |pieces| - 1, 1 + |values| - at
  {
    var v := values[at..][0];
    assert values[at..][1..] == values[at + 1 ..];
    if FoldStarts(s, v) && Match(pieces[1..], s[|v|..]).Some? {
      TailOk(pieces);
      MatchRebuilds(pieces[1..], s[|v|..]);
      CanonicalOfMember(values, at);
      RebuildSlot(pieces, Text(v), v, Match(pieces[1..], s[|v|..]).value, s, |v|);
    } else {
      EnumRebuilds(values, at + 1, pieces, s);
    }
  }

  lemma {:induction false} DigitsRebuild(n: nat, pieces: seq<Piece>, s: string)
    requires TemplateOk(pieces) && pieces != [] && pieces[0].Slot? && pieces[0].parameter.kind == Numeric
    requires n <= |s| && (forall i | 0 <= i < n :: IsDigit(s[i])) && MatchDigits(n, pieces[1..], s).Some?
    ensures Rebuilds(pieces, MatchDigits(n, pieces[1..], s).value, s)
    decreases |pieces| - 1, 1 + n
  {
    if Match(pieces[1..], s[n..]).Some? {
      TailOk(pieces);
      MatchRebuilds(pieces[1..], s[n..]);
      assert Strip(s[..n]) == s[..n];
      RebuildSlot(pieces, Text(s[..n]), s[..n], Match(pieces[1..], s[n..]).value, s, n);
    } else {
      DigitsRebuild(n - 1, pieces, s);
    }
  }

  lemma TailOk(pieces: seq<Piece>)
    requires pieces != [] && TemplateOk(pieces)
    ensures TemplateOk(pieces[1..])
    ensures pieces[0].Slot? ==> KindOk(pieces[0].parameter.kind) && pieces[0].parameter.name !in Names(pieces[1..])
  {
    var tail := pieces[1..];
    assert forall i | 0 <= i < |tail| :: tail[i] == pieces[i + 1];
  }

  /** Whatever matches is, up to letter case, the command its arguments build. */
  lemma {:induction false} MatchRebuilds(pieces: seq<Piece>, s: string)
    requires TemplateOk(pieces) && Match(pieces, s).Some?
    ensures Rebuilds(pieces, Match(pieces, s).value, s)
    decreases |pieces|, 0
  {
    if pieces != [] {
      TailOk(pieces);
      match pieces[0]
      case Literal(text) =>
        MatchRebuilds(pieces[1..], s[|text|..]);
        FoldsJoin(text, s[..|text|], CommandOf(pieces[1..], Match(pieces, s).value).value, s[|text|..]);
        assert s[..|text|] + s[|text|..] == s;
      case Slot(p) =>
        match p.kind {
          case Enum(values) =>
            assert values[0..] == values;
            EnumRebuilds(values, 0, pieces, s);
          case Numeric => DigitsRebuild(DigitRun(s), pieces, s);
          case ActionId =>
            MatchRebuilds(pieces[1..], s[16..]);
            RebuildSlot(pieces, Text(s[..16]), s[..16], Match(pieces[1..], s[16..]).value, s, 16);
          case FlagSuffix(trueValue, _) =>
            if FoldStarts(s, trueValue) && Match(pieces[1..], s[|trueValue|..]).Some? {
              MatchRebuilds(pieces[1..], s[|trueValue|..]);
              RebuildSlot(pieces, Bool(true), trueValue, Match(pieces[1..], s[|trueValue|..]).value, s, |trueValue|);
            } else {
              MatchRebuilds(pieces[1..], s);
              assert s[0..] == s;
              RebuildSlot(pieces, Bool(false), "", Match(pieces[1..], s).value, s, 0);
            }
        }
    }
  }

  // ------------------------------------------------------------------ completeness: whatever is built matches

  lemma {:induction false} EnumMatches(values: seq<string>, at: nat, k: nat, rest: seq<Piece>, s: string)
    requires at <= k < |values| && FoldStarts(s, values[k]) && Match(rest, s[|values[k]|..]).Some?
    ensures MatchEnum(values[at..], rest, s).Some?
    decreases k - at
  {
    assert values[at..][1..] == values[at + 1 ..];
    if at < k {
      EnumMatches(values, at + 1, k, rest, s);
    }
  }

  lemma {:induction false} DigitsMatch(n: nat, k: nat, rest: seq<Piece>, s: string)
    requires 0 < k <= n <= |s| && Match(rest, s[k..]).Some?
    ensures MatchDigits(n, rest, s).Some?
  {
    if k < n {
      DigitsMatch(n - 1, k, rest, s);
    }
  }

  lemma {:induction false} DigitRunAtLeast(s: string, n: nat)
    requires n <= |s| && forall i | 0 <= i < n :: IsDigit(s[i])
    ensures DigitRun(s) >= n
  {
    if n > 0 {
      DigitRunAtLeast(s[1..], n - 1);
    }
  }

  lemma FoldStartsWith(a: string, b: string)
    ensures FoldStarts(a + b, a) && (a + b)[|a|..] == b
  {
    assert (a + b)[..|a|] == a;
  }

  predicate Shaped(kind: Kind, text: string) {
    match kind
    case Enum(values) => text in values
    case Numeric => AllDigits(text)
    case ActionId => IsActionId(text)
    case FlagSuffix(trueValue, _) => text == "" || text == trueValue
  }

  /** What a rendered slot looks like. */
  lemma RenderedShape(kind: Kind, raw: Raw)
    requires KindOk(kind) && Render(kind, raw).Some?
    ensures Shaped(kind, Render(kind, raw).value)
  {
    if kind.Enum? {
      CanonicalFound(kind.values, AsText(raw));
    }
  }

  /** Every command that arguments build is matched. */
  lemma {:induction false} BuiltMatches(pieces: seq<Piece>, values: seq<Raw>)
    requires TemplateOk(pieces) && CommandOf(pieces, values).Some?
    ensures Match(pieces, CommandOf(pieces, values).value).Some?
    decreases |pieces|
  {
    if pieces != [] {
      TailOk(pieces);
      match pieces[0]
      case Literal(text) =>
        BuiltMatches(pieces[1..], values);
        FoldStartsWith(text, CommandOf(pieces[1..], values).value);
      case Slot(p) =>
        var text, rest := Render(p.kind, values[0]).value, CommandOf(pieces[1..], values[1..]).value;
        BuiltMatches(pieces[1..], values[1..]);
        RenderedShape(p.kind, values[0]);
        FoldStartsWith(text, rest);
        SlotMatches(p, pieces, text, rest);
    }
  }

  lemma SlotMatches(p: Parameter, pieces: seq<Piece>, text: string, rest: string)
    requires pieces != [] && pieces[0] == Slot(p) && Match(pieces[1..], rest).Some?
    requires FoldStarts(text + rest, text) && (text + rest)[|text|..] == rest
    requires Shaped(p.kind, text)
    ensures Match(pieces, text + rest).Some?
  {
    var s := text + rest;
    match p.kind
    case Enum(values) =>
      var k :| 0 <= k < |values| && values[k] == text;
      assert values[0..] == values;
      EnumMatches(values, 0, k, pieces[1..], s);
    case Numeric =>
      DigitRunAtLeast(s, |text|);
      DigitsMatch(DigitRun(s), |text|, pieces[1..], s);
    case ActionId =>
      assert s[..16] == text;
    case FlagSuffix(trueValue, _) =>
      if text == "" {
        assert s == rest;
      }
  }

  // ------------------------------------------------------------------ letter case does not matter without action ids

  predicate NoActionIds(pieces: seq<Piece>) {
    forall i | 0 <= i < |pieces| && pieces[i].Slot? :: !pieces[i].parameter.kind.ActionId?
  }

  lemma FoldsTail(s: string, t: string, n: nat)
    requires Folds(s, t) && n <= |s|
    ensures Folds(s[n..], t[n..])
  {
  }

  lemma FoldStartsEither(s: string, t: string, prefix: string)
    requires Folds(s, t)
    ensures FoldStarts(s, prefix) <==> FoldStarts(t, prefix)
  {
    if |prefix| <= |s| {
      assert forall i | 0 <= i < |prefix| :: s[..|prefix|][i] == s[i] && t[..|prefix|][i] == t[i];
    }
  }

  lemma {:induction false} SameDigits(s: string, t: string)
    requires Folds(s, t)
    ensures DigitRun(s) == DigitRun(t) && s[..DigitRun(s)] == t[..DigitRun(t)]
  {
    if s != "" {
      assert IsDigit(s[0]) || IsDigit(t[0]) ==> s[0] == t[0] by {
        assert Lower(s[0]) == Lower(t[0]);
      }
      FoldsTail(s, t, 1);
      SameDigits(s[1..], t[1..]);
    }
  }

  lemma {:induction false} EnumEither(values: seq<string>, rest: seq<Piece>, s: string, t: string)
    requires Folds(s, t) && NoActionIds(rest)
    ensures MatchEnum(values, rest, s) == MatchEnum(values, rest, t)
    decreases |rest|, 1 + |values|
  {
    if values != [] {
      FoldStartsEither(s, t, values[0]);
      if FoldStarts(s, values[0]) {
        FoldsTail(s, t, |values[0]|);
        MatchEither(rest, s[|values[0]|..], t[|values[0]|..]);
      }
      EnumEither(values[1..], rest, s, t);
    }
  }

  lemma {:induction false} DigitsEither(n: nat, rest: seq<Piece>, s: string, t: string)
    requires Folds(s, t) && NoActionIds(rest) && n <= |s| && s[..n] == t[..n]
    ensures MatchDigits(n, rest, s) == MatchDigits(n, rest, t)
    decreases |rest|, 1 + n
  {
    if n > 0 {
      FoldsTail(s, t, n);
      MatchEither(rest, s[n..], t[n..]);
      assert s[..n - 1] == s[..n][..n - 1] == t[..n][..n - 1] == t[..n - 1];
      DigitsEither(n - 1, rest, s, t);
    }
  }

  /** Without action ids the arguments matched depend on the command only up to letter case. */
  lemma {:induction false} MatchEither(pieces: seq<Piece>, s: string, t: string)
    requires Folds(s, t) && NoActionIds(pieces)
    ensures Match(pieces, s) == Match(pieces, t)
    decreases |pieces|, 0
  {
    if pieces != [] {
      var rest := pieces[1..];
      assert forall i | 0 <= i < |rest| :: rest[i] == pieces[i + 1];
      match pieces[0]
      case Literal(text) =>
        FoldStartsEither(s, t, text);
        if FoldStarts(s, text) {
          FoldsTail(s, t, |text|);
          MatchEither(rest, s[|text|..], t[|text|..]);
        }
      case Slot(p) =>
        match p.kind {
          case Enum(values) => EnumEither(values, rest, s, t);
          case Numeric =>
            SameDigits(s, t);
            DigitsEither(DigitRun(s), rest, s, t);
          case FlagSuffix(trueValue, _) =>
            FoldStartsEither(s, t, trueValue);
            if FoldStarts(s, trueValue) {
              FoldsTail(s, t, |trueValue|);
              MatchEither(rest, s[|trueValue|..], t[|trueValue|..]);
            }
            MatchEither(rest, s, t);
        }
    }
  }

  // ------------------------------------------------------------------ delimited templates

  /** What the pieces render, if anything, starts with a character no token holds. */
  predicate StartsClean(pieces: seq<Piece>) {
    if pieces == [] then true
    else match pieces[0]
      case Literal(text) => if text == "" then StartsClean(pieces[1..]) else !IsToken(text[0])
      case Slot(p) => p.kind.FlagSuffix? && StartsClean(pieces[1..])
  }

  /** Neither text can be the start of the other, up to letter case. */
  predicate Clash(a: string, b: string) {
    exists i :: 0 <= i < |a| && i < |b| && Lower(a[i]) != Lower(b[i])
  }

  /** What the pieces render cannot start with the flag's text. */
  predicate FlagClean(flag: string, pieces: seq<Piece>) {
    if pieces == [] then true
    else match pieces[0]
      case Literal(text) => if text == "" then FlagClean(flag, pieces[1..]) else Clash(flag, text)
      case Slot(p) =>
        if p.kind.FlagSuffix? then Clash(flag, p.kind.trueValue) && FlagClean(flag, pieces[1..]) else true
  }

  /** Every capture ends where what follows must start differently. */
  predicate Delimited(pieces: seq<Piece>) {
    if pieces == [] then true
    else
      && Delimited(pieces[1..])
      && match pieces[0]
         case Literal(_) => true
         case Slot(Parameter(_, Enum(_))) => StartsClean(pieces[1..])
         case Slot(Parameter(_, Numeric)) => StartsClean(pieces[1..])
         case Slot(Parameter(_, ActionId)) => true
         case Slot(Parameter(_, FlagSuffix(trueValue, _))) => FlagClean(trueValue, pieces[1..])
  }

  predicate CleanText(s: string) { s == "" || !IsToken(s[0]) }

  lemma {:induction false} BuildStartsClean(pieces: seq<Piece>, values: seq<Raw>)
    requires TemplateOk(pieces) && StartsClean(pieces) && CommandOf(pieces, values).Some?
    ensures CleanText(CommandOf(pieces, values).value)
  {
    if pieces != [] {
      TailOk(pieces);
      match pieces[0]
      case Literal(text) =>
        if text == "" {
          BuildStartsClean(pieces[1..], values);
        }
      case Slot(p) =>
        RenderedShape(p.kind, values[0]);
        BuildStartsClean(pieces[1..], values[1..]);
    }
  }

  lemma LowerToken(a: char, b: char)
    requires IsToken(a) != IsToken(b)
    ensures Lower(a) != Lower(b)
  {
  }

  lemma DiffersAt(s: string, prefix: string, i: nat)
    requires i < |s| && i < |prefix| && Lower(s[i]) != Lower(prefix[i])
    ensures !FoldStarts(s, prefix)
  {
    if |prefix| <= |s| {
      assert s[..|prefix|][i] == s[i];
    }
  }

  lemma {:induction false} NoTokenStart(pieces: seq<Piece>, s: string)
    requires TemplateOk(pieces) && StartsClean(pieces) && s != "" && IsToken(s[0])
    ensures Match(pieces, s).None?
  {
    if pieces != [] {
      TailOk(pieces);
      match pieces[0]
      case Literal(text) =>
        if text == "" {
          assert s[0..] == s;
          NoTokenStart(pieces[1..], s);
        } else {
          LowerToken(s[0], text[0]);
          DiffersAt(s, text, 0);
        }
      case Slot(p) =>
        LowerToken(s[0], p.kind.trueValue[0]);
        DiffersAt(s, p.kind.trueValue, 0);
        NoTokenStart(pieces[1..], s);
    }
  }

  lemma ClashStops(flag: string, text: string, rest: string)
    requires Clash(flag, text)
    ensures !FoldStarts(text + rest, flag)
  {
    var i :| 0 <= i < |flag| && i < |text| && Lower(flag[i]) != Lower(text[i]);
    assert (text + rest)[i] == text[i];
    DiffersAt(text + rest, flag, i);
  }

  lemma {:induction false} FlagNotTaken(flag: string, pieces: seq<Piece>, values: seq<Raw>)
    requires TemplateOk(pieces) && flag != "" && flag[0] == ' ' && FlagClean(flag, pieces) && CommandOf(pieces, values).Some?
    ensures !FoldStarts(CommandOf(pieces, values).value, flag)
  {
    if pieces != [] {
      TailOk(pieces);
      match pieces[0]
      case Literal(text) =>
        var rest := CommandOf(pieces[1..], values).value;
        if text == "" {
          assert text + rest == rest;
          FlagNotTaken(flag, pieces[1..], values);
        } else {
          ClashStops(flag, text, rest);
        }
      case Slot(p) =>
        var text, rest := Render(p.kind, values[0]).value, CommandOf(pieces[1..], values[1..]).value;
        RenderedShape(p.kind, values[0]);
        if p.kind.FlagSuffix? {
          if text == "" {
            assert text + rest == rest;
            FlagNotTaken(flag, pieces[1..], values[1..]);
          } else {
            ClashStops(flag, text, rest);
          }
        } else {
          TokenFirst(p.kind, text);
          LowerToken(text[0], flag[0]);
          assert (text + rest)[0] == text[0];
          DiffersAt(text + rest, flag, 0);
        }
    }
  }

  lemma TokenFirst(kind: Kind, text: string)
    requires KindOk(kind) && !kind.FlagSuffix? && Shaped(kind, text)
    ensures text != "" && IsToken(text[0])
  {
    if kind.Enum? {
      var i :| 0 <= i < |kind.values| && kind.values[i] == text;
      assert AllTokens(kind.values[i]);
    }
  }

  lemma {:induction false} EnumExact(values: seq<string>, at: nat, k: nat, pieces: seq<Piece>, rest: string)
    requires KindOk(Enum(values)) && at <= k < |values| && TemplateOk(pieces) && StartsClean(pieces)
    requires CleanText(rest) && Match(pieces, rest).Some?
    ensures MatchEnum(values[at..], pieces, values[k] + rest) == Some([Text(values[k])] + Match(pieces, rest).value)
    decreases k - at
  {
    var s, v := values[k] + rest, values[at];
    assert values[at..][0] == v && values[at..][1..] == values[at + 1 ..];
    FoldStartsWith(values[k], rest);
    if at < k {
      if FoldStarts(s, v) {
        OtherValueFails(values, at, k, pieces, rest);
      }
      EnumExact(values, at + 1, k, pieces, rest);
    }
  }

  lemma OtherValueFails(values: seq<string>, i: nat, k: nat, pieces: seq<Piece>, rest: string)
    requires KindOk(Enum(values)) && i < |values| && k < |values| && i != k && TemplateOk(pieces) && StartsClean(pieces) && CleanText(rest)
    requires FoldStarts(values[k] + rest, values[i])
    ensures Match(pieces, (values[k] + rest)[|values[i]|..]).None?
  {
    var s, v, w := values[k] + rest, values[i], values[k];
    assert AllTokens(v) && AllTokens(w);
    SameStart(v, w, rest);
    assert s[|v|..][0] == w[|v|];
    NoTokenStart(pieces, s[|v|..]);
  }

  /** A token text that starts `w` and clean text after it is shorter than `w`, or is `w` up to letter case. */
  lemma SameStart(v: string, w: string, rest: string)
    requires AllTokens(v) && AllTokens(w) && CleanText(rest) && FoldStarts(w + rest, v)
    ensures |v| < |w| || Folds(v, w)
  {
    var s := w + rest;
    assert forall j | 0 <= j < |v| :: s[..|v|][j] == s[j];
    if |v| > |w| {
      LowerToken(v[|w|], rest[0]);
    }
  }

  lemma {:induction false} DigitRunIs(a: string, b: string)
    requires (forall i | 0 <= i < |a| :: IsDigit(a[i])) && (b == "" || !IsDigit(b[0]))
    ensures DigitRun(a + b) == |a|
  {
    if a != "" {
      assert (a + b)[1..] == a[1..] + b;
      DigitRunIs(a[1..], b);
    } else {
      assert a + b == b;
    }
  }

  /** The value a rendered slot stands for: what the command shows of it. */
  function Meant(kind: Kind, raw: Raw): Raw
    requires Render(kind, raw).Some?
  {
    if kind.FlagSuffix? then Bool(Render(kind, raw).value != "") else Text(Render(kind, raw).value)
  }

  function AllMeant(pieces: seq<Piece>, values: seq<Raw>): seq<Raw>
    requires CommandOf(pieces, values).Some?
  {
    if pieces == [] then []
    else match pieces[0]
      case Literal(_) => AllMeant(pieces[1..], values)
      case Slot(p) => [Meant(p.kind, values[0])] + AllMeant(pieces[1..], values[1..])
  }

  lemma SlotExact(p: Parameter, pieces: seq<Piece>, values: seq<Raw>, more: seq<Raw>)
    requires TemplateOk(pieces) && Delimited(pieces) && pieces != [] && pieces[0] == Slot(p)
    requires values != [] && CommandOf(pieces, values).Some?
    requires Match(pieces[1..], CommandOf(pieces[1..], values[1..]).value) == Some(more)
    ensures Match(pieces, CommandOf(pieces, values).value) == Some([Meant(p.kind, values[0])] + more)
  {
    TailOk(pieces);
    var text, rest := Render(p.kind, values[0]).value, CommandOf(pieces[1..], values[1..]).value;
    RenderedShape(p.kind, values[0]);
    FoldStartsWith(text, rest);
    match p.kind
    case Enum(choices) =>
      BuildStartsClean(pieces[1..], values[1..]);
      var k :| 0 <= k < |choices| && choices[k] == text;
      assert choices[0..] == choices;
      EnumExact(choices, 0, k, pieces[1..], rest);
    case Numeric =>
      BuildStartsClean(pieces[1..], values[1..]);
      DigitRunIs(text, rest);
      assert (text + rest)[..|text|] == text;
    case ActionId =>
      assert (text + rest)[..16] == text;
    case FlagSuffix(trueValue, _) =>
      if text == "" {
        assert text + rest == rest;
        FlagNotTaken(trueValue, pieces[1..], values[1..]);
      }
  }

  /** In a delimited template matching reads back exactly the values that were rendered. */
  lemma {:induction false} RoundTrip(pieces: seq<Piece>, values: seq<Raw>)
    requires TemplateOk(pieces) && Delimited(pieces) && CommandOf(pieces, values).Some?
    ensures Match(pieces, CommandOf(pieces, values).value) == Some(AllMeant(pieces, values))
    decreases |pieces|
  {
    if pieces != [] {
      TailOk(pieces);
      match pieces[0]
      case Literal(text) =>
        RoundTrip(pieces[1..], values);
        FoldStartsWith(text, CommandOf(pieces[1..], values).value);
      case Slot(p) =>
        RoundTrip(pieces[1..], values[1..]);
        SlotExact(p, pieces, values, AllMeant(pieces[1..], values[1..]));
    }
  }

  // ------------------------------------------------------------------ actions: arguments by name

  /** `match`: the arguments of a command by name. */
  function MatchArguments(pieces: seq<Piece>, command: string): Option<map<string, Raw>> {
    var values := Match(pieces, command);
    if values.Some? then Some(Arguments(pieces, values.value)) else None
  }

  /** `build`: the canonical command of arguments, when the names and the values are acceptable. */
  function Command(pieces: seq<Piece>, arguments: map<string, Raw>): Option<string> {
    if NamesOk(pieces, arguments) then CommandOf(pieces, ValuesOf(pieces, arguments)) else None
  }

  lemma {:induction false} ArgumentNames(pieces: seq<Piece>, values: seq<Raw>)
    requires CommandOf(pieces, values).Some?
    ensures Arguments(pieces, values).Keys == Names(pieces)
  {
    if pieces != [] {
      var tail := pieces[1..];
      assert Names(pieces) == Names(tail) + (if pieces[0].Slot? then {pieces[0].parameter.name} else {}) by {
        NamesCons(pieces);
      }
      ArgumentNames(tail, if pieces[0].Slot? then values[1..] else values);
    }
  }

  lemma NamesCons(pieces: seq<Piece>)
    requires pieces != []
    ensures Names(pieces) == Names(pieces[1..]) + (if pieces[0].Slot? then {pieces[0].parameter.name} else {})
  {
    var tail := pieces[1..];
    assert forall i | 0 <= i < |tail| :: tail[i] == pieces[i + 1];
    forall name | name in Names(pieces)
      ensures name in Names(tail) + (if pieces[0].Slot? then {pieces[0].parameter.name} else {})
    {
      var i :| 0 <= i < |pieces| && pieces[i].Slot? && pieces[i].parameter.name == name;
      if i > 0 {
        assert tail[i - 1] == pieces[i];
      }
    }
  }

  lemma {:induction false} ValuesIgnore(pieces: seq<Piece>, arguments: map<string, Raw>, name: string, raw: Raw)
    requires name !in Names(pieces)
    ensures ValuesOf(pieces, arguments[name := raw]) == ValuesOf(pieces, arguments)
  {
    if pieces != [] {
      NamesCons(pieces);
      ValuesIgnore(pieces[1..], arguments, name, raw);
    }
  }

  /** Values given by name are read back in template order. */
  lemma {:induction false} ValuesOfArguments(pieces: seq<Piece>, values: seq<Raw>)
    requires TemplateOk(pieces) && CommandOf(pieces, values).Some?
    ensures ValuesOf(pieces, Arguments(pieces, values)) == values
  {
    if pieces != [] {
      TailOk(pieces);
      match pieces[0]
      case Literal(_) => ValuesOfArguments(pieces[1..], values);
      case Slot(p) =>
        ValuesOfArguments(pieces[1..], values[1..]);
        ValuesIgnore(pieces[1..], Arguments(pieces[1..], values[1..]), p.name, values[0]);
        assert values == [values[0]] + values[1..];
    }
  }

  lemma ArgumentsOk(pieces: seq<Piece>, values: seq<Raw>)
    requires TemplateOk(pieces) && CommandOf(pieces, values).Some?
    ensures Command(pieces, Arguments(pieces, values)) == CommandOf(pieces, values)
  {
    ArgumentNames(pieces, values);
    ValuesOfArguments(pieces, values);
    assert forall i | 0 <= i < |pieces| && pieces[i].Slot? :: pieces[i].parameter.name in Names(pieces);
  }

  /** A matched command is, up to letter case, the canonical command of its own arguments. */
  lemma CanonicalUpToCase(pieces: seq<Piece>, command: string)
    requires TemplateOk(pieces) && MatchArguments(pieces, command).Some?
    ensures var canonical := Command(pieces, MatchArguments(pieces, command).value);
      canonical.Some? && Folds(canonical.value, command)
  {
    MatchRebuilds(pieces, command);
    ArgumentsOk(pieces, Match(pieces, command).value);
  }

  /** Whatever arguments build is matched. */
  lemma CanonicalMatches(pieces: seq<Piece>, arguments: map<string, Raw>)
    requires TemplateOk(pieces) && Command(pieces, arguments).Some?
    ensures MatchArguments(pieces, Command(pieces, arguments).value).Some?
  {
    BuiltMatches(pieces, ValuesOf(pieces, arguments));
  }

  /** Matched values are canonical already: rendering shows them as they are. */
  lemma {:induction false} MatchedAreMeant(pieces: seq<Piece>, values: seq<Raw>)
    requires TemplateOk(pieces) && CommandOf(pieces, values).Some? && Canonicals(pieces, values)
    ensures AllMeant(pieces, values) == values
  {
    if pieces != [] {
      TailOk(pieces);
      match pieces[0]
      case Literal(_) => MatchedAreMeant(pieces[1..], values);
      case Slot(p) =>
        MatchedAreMeant(pieces[1..], values[1..]);
        assert values == [values[0]] + values[1..];
    }
  }

  /** Each value is what its own rendering means. */
  predicate Canonicals(pieces: seq<Piece>, values: seq<Raw>)
    requires CommandOf(pieces, values).Some?
  {
    if pieces == [] then true
    else match pieces[0]
      case Literal(_) => Canonicals(pieces[1..], values)
      case Slot(p) => Meant(p.kind, values[0]) == values[0] && Canonicals(pieces[1..], values[1..])
  }

  lemma {:induction false} EnumIsCanonical(values: seq<string>, at: nat, pieces: seq<Piece>, s: string)
    requires TemplateOk(pieces) && pieces != [] && pieces[0].Slot? && pieces[0].parameter.kind == Enum(values) && at <= |values|
    requires MatchEnum(values[at..], pieces[1..], s).Some?
    ensures var m := MatchEnum(values[at..], pieces[1..], s).value; CommandOf(pieces, m).Some? && Canonicals(pieces, m)
    decreases |pieces| - 1, 1 + |values| - at
  {
    EnumRebuilds(values, at, pieces, s);
    var v := values[at..][0];
    assert values[at..][1..] == values[at + 1 ..];
    if FoldStarts(s, v) && Match(pieces[1..], s[|v|..]).Some? {
      TailOk(pieces);
      MatchIsCanonical(pieces[1..], s[|v|..]);
      CanonicalOfMember(values, at);
      assert ([Text(v)] + Match(pieces[1..], s[|v|..]).value)[1..] == Match(pieces[1..], s[|v|..]).value;
    } else {
      EnumIsCanonical(values, at + 1, pieces, s);
    }
  }

  lemma {:induction false} DigitsAreCanonical(n: nat, pieces: seq<Piece>, s: string)
    requires TemplateOk(pieces) && pieces != [] && pieces[0].Slot? && pieces[0].parameter.kind == Numeric
    requires n <= |s| && (forall i | 0 <= i < n :: IsDigit(s[i])) && MatchDigits(n, pieces[1..], s).Some?
    ensures var m := MatchDigits(n, pieces[1..], s).value; CommandOf(pieces, m).Some? && Canonicals(pieces, m)
    decreases |pieces| - 1, 1 + n
  {
    DigitsRebuild(n, pieces, s);
    if Match(pieces[1..], s[n..]).Some? {
      TailOk(pieces);
      MatchIsCanonical(pieces[1..], s[n..]);
      assert Strip(s[..n]) == s[..n];
      assert ([Text(s[..n])] + Match(pieces[1..], s[n..]).value)[1..] == Match(pieces[1..], s[n..]).value;
    } else {
      DigitsAreCanonical(n - 1, pieces, s);
    }
  }

  lemma {:induction false} MatchIsCanonical(pieces: seq<Piece>, s: string)
    requires TemplateOk(pieces) && Match(pieces, s).Some?
    ensures var m := Match(pieces, s).value; CommandOf(pieces, m).Some? && Canonicals(pieces, m)
    decreases |pieces|, 0
  {
    MatchRebuilds(pieces, s);
    if pieces != [] {
      TailOk(pieces);
      var m := Match(pieces, s).value;
      match pieces[0]
      case Literal(text) => MatchIsCanonical(pieces[1..], s[|text|..]);
      case Slot(p) =>
        match p.kind {
          case Enum(values) =>
            assert values[0..] == values;
            EnumIsCanonical(values, 0, pieces, s);
          case Numeric => DigitsAreCanonical(DigitRun(s), pieces, s);
          case ActionId =>
            MatchIsCanonical(pieces[1..], s[16..]);
            assert m[1..] == Match(pieces[1..], s[16..]).value;
          case FlagSuffix(trueValue, _) =>
            if FoldStarts(s, trueValue) && Match(pieces[1..], s[|trueValue|..]).Some? {
              MatchIsCanonical(pieces[1..], s[|trueValue|..]);
              assert m[1..] == Match(pieces[1..], s[|trueValue|..]).value;
            } else {
              MatchIsCanonical(pieces[1..], s);
              assert m[1..] == Match(pieces[1..], s).value;
            }
        }
    }
  }

  /** Canonicalization is idempotent: the canonical command is matched with the same arguments. */
  lemma CanonicalizationIsIdempotent(pieces: seq<Piece>, command: string)
    requires TemplateOk(pieces) && (Delimited(pieces) || NoActionIds(pieces))
    requires MatchArguments(pieces, command).Some?
    ensures var arguments := MatchArguments(pieces, command); var canonical := Command(pieces, arguments.value);
      canonical.Some? && MatchArguments(pieces, canonical.value) == arguments
  {
    MatchRebuilds(pieces, command);
    var values := Match(pieces, command).value;
    ArgumentsOk(pieces, values);
    var canonical := CommandOf(pieces, values).value;
    if NoActionIds(pieces) {
      MatchEither(pieces, canonical, command);
    } else {
      RoundTrip(pieces, values);
      MatchIsCanonical(pieces, command);
      MatchedAreMeant(pieces, values);
    }
  }

  /** A flag passed as `None` where the default is true is rendered but reported as false; nothing else differs. */
  lemma ReportedIsMeantIff(kind: Kind, raw: Raw)
    requires Render(kind, raw).Some? && KindOk(kind)
    ensures Normalized(kind, raw) == Meant(kind, raw) <==> !(kind.FlagSuffix? && kind.byDefault && raw.Nothing?)
  {
  }

  /** No flag with a true default is passed as `None`. */
  predicate FlagsGiven(pieces: seq<Piece>, values: seq<Raw>) {
    if pieces == [] || values == [] then true
    else match pieces[0]
      case Literal(_) => FlagsGiven(pieces[1..], values)
      case Slot(p) => !(p.kind.FlagSuffix? && p.kind.byDefault && values[0].Nothing?) && FlagsGiven(pieces[1..], values[1..])
  }

  lemma {:induction false} AllReportedIff(pieces: seq<Piece>, values: seq<Raw>)
    requires TemplateOk(pieces) && CommandOf(pieces, values).Some?
    ensures |Reported(pieces, values)| == |AllMeant(pieces, values)|
    ensures Reported(pieces, values) == AllMeant(pieces, values) <==> FlagsGiven(pieces, values)
  {
    if pieces != [] {
      TailOk(pieces);
      match pieces[0]
      case Literal(_) => AllReportedIff(pieces[1..], values);
      case Slot(p) =>
        AllReportedIff(pieces[1..], values[1..]);
        ReportedIsMeantIff(p.kind, values[0]);
        var a, b := Reported(pieces, values), AllMeant(pieces, values);
        assert a[1..] == Reported(pieces[1..], values[1..]) && b[1..] == AllMeant(pieces[1..], values[1..]);
        assert a == [a[0]] + a[1..] && b == [b[0]] + b[1..];
    }
  }

  /** In a delimited template the built command matches exactly what `build` reports, unless a true default was overridden by `None`. */
  lemma BuildMatchesReportIff(pieces: seq<Piece>, arguments: map<string, Raw>)
    requires TemplateOk(pieces) && Delimited(pieces) && Command(pieces, arguments).Some?
    ensures var values := ValuesOf(pieces, arguments);
      Match(pieces, Command(pieces, arguments).value) == Some(Reported(pieces, values)) <==> FlagsGiven(pieces, values)
  {
    var values := ValuesOf(pieces, arguments);
    RoundTrip(pieces, values);
    AllReportedIff(pieces, values);
  }

  // ------------------------------------------------------------------ building

  /** Where a command is built, each of its slots has a rendered value. */
  lemma {:induction false} SlotsRendered(pieces: seq<Piece>, arguments: map<string, Raw>, i: nat)
    requires CommandOf(pieces, ValuesOf(pieces, arguments)).Some? && i < |pieces| && pieces[i].Slot?
    ensures Render(pieces[i].parameter.kind, Given(pieces[i].parameter, arguments)).Some?
  {
    if i > 0 {
      SlotsRendered(pieces[1..], arguments, i - 1);
    }
  }

  /** The placeholders of the script arguments are among the command's. */
  predicate ScriptOk(pieces: seq<Piece>, script: seq<Piece>) {
    forall i | 0 <= i < |script| && script[i].Slot? :: script[i] in pieces
  }

  /** The script arguments: the same rendered values in the second template. */
  method BuildScript(pieces: seq<Piece>, script: seq<Piece>, arguments: map<string, Raw>) returns (text: string)
    requires ScriptOk(pieces, script) && CommandOf(pieces, ValuesOf(pieces, arguments)).Some?
    ensures CommandOf(script, ValuesOf(script, arguments)) == Some(text)
  {
    text := "";
    for i := |script| downto 0
      invariant CommandOf(script[i..], ValuesOf(script[i..], arguments)) == Some(text)
    {
      ghost var tail := script[i..];
      assert tail[0] == script[i] && tail[1..] == script[i + 1 ..];
      match script[i]
      case Literal(literal) =>
        text := literal + text;
      case Slot(p) =>
        assert script[i] in pieces;
        ghost var k :| 0 <= k < |pieces| && pieces[k] == script[i];
        SlotsRendered(pieces, arguments, k);
        text := Render(p.kind, Given(p, arguments)).value + text;
    }
    assert script[0..] == script;
  }

  /** `build`: render every parameter, then substitute; absent when a name or a value is not acceptable. */
  method Build(pieces: seq<Piece>, script: seq<Piece>, arguments: map<string, Raw>)
    returns (command: Option<string>, scriptArguments: string, normalized: map<string, Raw>)
    requires TemplateOk(pieces) && ScriptOk(pieces, script)
    ensures command == Command(pieces, arguments)
    ensures command.Some? ==> CommandOf(script, ValuesOf(script, arguments)) == Some(scriptArguments)
    ensures command.Some? ==> normalized == Arguments(pieces, Reported(pieces, ValuesOf(pieces, arguments)))
  {
    normalized, scriptArguments := map[], "";
    var names := {};
    for i := 0 to |pieces|
      invariant names == Names(pieces[..i])
      invariant forall j | 0 <= j < i && pieces[j].Slot? && !pieces[j].parameter.kind.FlagSuffix? :: pieces[j].parameter.name in arguments
    {
      NamesPush(pieces[..i], pieces[i]);
      assert pieces[..i] + [pieces[i]] == pieces[..i + 1];
      if pieces[i].Slot? {
        names := names + {pieces[i].parameter.name};
        if !pieces[i].parameter.kind.FlagSuffix? && pieces[i].parameter.name !in arguments {
          return None, "", normalized;
        }
      }
    }
    assert pieces[..|pieces|] == pieces;
    if !(arguments.Keys <= names) {
      return None, "", normalized;
    }
    var text := "";
    for i := |pieces| downto 0
      invariant CommandOf(pieces[i..], ValuesOf(pieces[i..], arguments)) == Some(text)
      invariant normalized == Arguments(pieces[i..], Reported(pieces[i..], ValuesOf(pieces[i..], arguments)))
    {
      ghost var tail := pieces[i..];
      assert tail[0] == pieces[i] && tail[1..] == pieces[i + 1 ..];
      match pieces[i]
      case Literal(literal) =>
        text := literal + text;
      case Slot(p) =>
        var raw := Given(p, arguments);
        var rendered := Render(p.kind, raw);
        if rendered.None? {
          NoCommandBefore(pieces, i, arguments);
          return None, "", normalized;
        }
        normalized := normalized[p.name := Normalized(p.kind, raw)];
        text := rendered.value + text;
    }
    assert pieces[0..] == pieces;
    scriptArguments := BuildScript(pieces, script, arguments);
    return Some(text), scriptArguments, normalized;
  }

  lemma NamesPush(pieces: seq<Piece>, piece: Piece)
    ensures Names(pieces + [piece]) == Names(pieces) + (if piece.Slot? then {piece.parameter.name} else {})
  {
    var more := pieces + [piece];
    assert more[|pieces|] == piece;
    assert forall i | 0 <= i < |pieces| :: more[i] == pieces[i];
  }

  lemma {:induction false} NoCommandBefore(pieces: seq<Piece>, i: nat, arguments: map<string, Raw>)
    requires i <= |pieces| && CommandOf(pieces[i..], ValuesOf(pieces[i..], arguments)).None?
    ensures CommandOf(pieces, ValuesOf(pieces, arguments)).None?
  {
    assert pieces[0..] == pieces;
    if i > 0 {
      var tail := pieces[i - 1 ..];
      assert tail[1..] == pieces[i..];
      NoCommandBefore(pieces, i - 1, arguments);
    }
  }

  // ------------------------------------------------------------------ a manifest of several actions

  /** `match_command`: the first action that matches. */
  function FirstMatch(actions: seq<seq<Piece>>, command: string): Option<(nat, map<string, Raw>)> {
    if actions == [] then None
    else if MatchArguments(actions[0], command).Some? then Some((0, MatchArguments(actions[0], command).value))
    else
      var rest := FirstMatch(actions[1..], command);
      if rest.Some? then Some((rest.value.0 + 1, rest.value.1)) else None
  }

  /** The canonical command selects the same action with the same arguments when no earlier action takes an action id. */
  lemma {:induction false} CanonicalSelectsSameAction(actions: seq<seq<Piece>>, command: string)
    requires FirstMatch(actions, command).Some?
    requires var k := FirstMatch(actions, command).value.0;
      && k < |actions| && TemplateOk(actions[k]) && (Delimited(actions[k]) || NoActionIds(actions[k]))
      && (forall j | 0 <= j < k :: NoActionIds(actions[j]))
    ensures var (k, arguments) := FirstMatch(actions, command).value;
      && Command(actions[k], arguments).Some?
      && Folds(Command(actions[k], arguments).value, command)
      && FirstMatch(actions, Command(actions[k], arguments).value) == FirstMatch(actions, command)
  {
    var (k, arguments) := FirstMatch(actions, command).value;
    if k == 0 {
      CanonicalUpToCase(actions[0], command);
      CanonicalizationIsIdempotent(actions[0], command);
    } else {
      assert actions[1..][k - 1] == actions[k];
      assert forall j | 0 <= j < k - 1 :: actions[1..][j] == actions[j + 1];
      CanonicalSelectsSameAction(actions[1..], command);
      MatchEither(actions[0], Command(actions[k], arguments).value, command);
    }
  }

  // ------------------------------------------------------------------ why delimiters and case matter

  /** An undelimited template whose canonical command is read differently: the letter case decided the first reading. */
  function Ambiguous(): seq<Piece> {
    [Slot(Parameter("first", Enum(["a", "ab"]))), Slot(Parameter("id", ActionId)), Slot(Parameter("last", Enum(["e", "fe"])))]
  }

  /** Two alternatives, the first preferred. */
  lemma EnumOfTwo(a: string, b: string, rest: seq<Piece>, s: string)
    ensures MatchEnum([a, b], rest, s) ==
      var first := if FoldStarts(s, a) then Cons(Text(a), Match(rest, s[|a|..])) else None;
      var second := if FoldStarts(s, b) then Cons(Text(b), Match(rest, s[|b|..])) else None;
      if first.Some? then first else second
  {
    var one, two := [b], [a, b];
    assert two[1..] == one && one[1..] == [];
    assert MatchEnum(one[1..], rest, s) == None;
    assert MatchEnum(one, rest, s) == if FoldStarts(s, b) then Cons(Text(b), Match(rest, s[|b|..])) else None;
  }

  lemma EndingMatches(s: string, last: seq<Piece>)
    requires last == [Slot(Parameter("last", Enum(["e", "fe"])))] && (s == "e" || s == "fe")
    ensures Match(last, s) == Some([Text(s)])
  {
    var rest := last[1..];
    assert rest == [];
    EnumOfTwo("e", "fe", rest, s);
    FoldStartsWith(s, "");
    assert s + "" == s && s[|s|..] == "";
    var none: seq<Raw> := [];
    assert [Text(s)] + none == [Text(s)];
    assert Match(rest, "") == Some(none);
    if s == "fe" {
      DiffersAt(s, "e", 0);
    }
    assert Match(last, s) == MatchEnum(["e", "fe"], rest, s);
  }

  lemma IdMatches(id: string, ending: string, pieces: seq<Piece>)
    requires pieces == Ambiguous()[1..] && |id| == 16 && (ending == "e" || ending == "fe")
    ensures Match(pieces, id + ending) == if IsActionId(id) then Some([Text(id), Text(ending)]) else None
  {
    var s := id + ending;
    assert s[..16] == id && s[16..] == ending;
    EndingMatches(ending, pieces[1..]);
    assert pieces[0] == Slot(Parameter("id", ActionId));
    assert [Text(id)] + [Text(ending)] == [Text(id), Text(ending)];
  }

  /** A command of this template that starts with `a` and a `B` or `b`. */
  lemma FirstMatches(b: char, tail: string)
    requires Lower(b) == 'b'
    ensures Match(Ambiguous(), ['a', b] + tail) ==
      var short := Cons(Text("a"), Match(Ambiguous()[1..], [b] + tail));
      if short.Some? then short else Cons(Text("ab"), Match(Ambiguous()[1..], tail))
  {
    var rest, s := Ambiguous()[1..], ['a', b] + tail;
    EnumOfTwo("a", "ab", rest, s);
    assert s[..1] == "a" && s[1..] == [b] + tail;
    assert s[..2] == ['a', b] && s[2..] == tail;
    assert Folds(s[..2], "ab");
    assert Match(Ambiguous(), s) == MatchEnum(["a", "ab"], rest, s);
  }

  /** Not idempotent: the upper-case `B` forced the first reading, and the canonical command has none. */
  lemma UndelimitedIsNotIdempotent(h: string)
    requires |h| == 15 && forall i | 0 <= i < 15 :: IsHex(h[i])
    ensures var command := "aB" + h + "fe"; var canonical := "ab" + h + "fe";
      && TemplateOk(Ambiguous())
      && Match(Ambiguous(), command) == Some([Text("ab"), Text(h + "f"), Text("e")])
      && CommandOf(Ambiguous(), [Text("ab"), Text(h + "f"), Text("e")]) == Some(canonical)
      && Match(Ambiguous(), canonical) == Some([Text("a"), Text("b" + h), Text("fe")])
  {
    var pieces := Ambiguous();
    assert KindOk(Enum(["a", "ab"])) && KindOk(Enum(["e", "fe"]));
    ReadsUpper(h);
    ReadsLower(h);
    AmbiguousBuilds(h);
  }

  lemma ReadsUpper(h: string)
    requires |h| == 15 && forall i | 0 <= i < 15 :: IsHex(h[i])
    ensures Match(Ambiguous(), "aB" + h + "fe") == Some([Text("ab"), Text(h + "f"), Text("e")])
  {
    var pieces, tail, id := Ambiguous(), (h + "f") + "e", "B" + h;
    FirstMatches('B', tail);
    assert ['a', 'B'] + tail == "aB" + h + "fe";
    assert ['B'] + tail == id + "fe";
    IdMatches(id, "fe", pieces[1..]);
    assert id[0] == 'B' && !IsHex(id[0]);
    IdMatches(h + "f", "e", pieces[1..]);
    assert IsActionId(h + "f");
    assert [Text("ab")] + [Text(h + "f"), Text("e")] == [Text("ab"), Text(h + "f"), Text("e")];
  }

  lemma ReadsLower(h: string)
    requires |h| == 15 && forall i | 0 <= i < 15 :: IsHex(h[i])
    ensures Match(Ambiguous(), "ab" + h + "fe") == Some([Text("a"), Text("b" + h), Text("fe")])
  {
    var pieces, tail, id := Ambiguous(), (h + "f") + "e", "b" + h;
    FirstMatches('b', tail);
    assert ['a', 'b'] + tail == "ab" + h + "fe";
    assert ['b'] + tail == id + "fe";
    IdMatches(id, "fe", pieces[1..]);
    assert IsActionId(id);
    assert [Text("a")] + [Text(id), Text("fe")] == [Text("a"), Text(id), Text("fe")];
  }

  lemma AmbiguousBuilds(h: string)
    requires |h| == 15 && forall i | 0 <= i < 15 :: IsHex(h[i])
    ensures CommandOf(Ambiguous(), [Text("ab"), Text(h + "f"), Text("e")]) == Some("ab" + h + "fe")
  {
    var pieces := Ambiguous();
    var id := h + "f";
    var v2: seq<Raw>, v1: seq<Raw>, v0: seq<Raw> := [Text("e")], [Text(id), Text("e")], [Text("ab"), Text(id), Text("e")];
    var p2, p1 := pieces[1..][1..], pieces[1..];
    assert p2[1..] == [] && v2[1..] == [] && v1[1..] == v2 && v0[1..] == v1 && p1[1..] == p2;
    CanonicalOfTwo("e", "fe");
    CanonicalOfTwo("a", "ab");
    assert CommandOf(p2, v2) == Some("e") by {
      assert "e" + "" == "e";
      assert CommandOf(p2[1..], v2[1..]) == Some("");
      assert p2[0] == Slot(Parameter("last", Enum(["e", "fe"]))) && v2[0] == Text("e");
    }
    assert IsActionId(id);
    assert CommandOf(p1, v1) == Some(id + "e");
    assert CommandOf(pieces, v0) == Some("ab" + (id + "e"));
    assert "ab" + (id + "e") == "ab" + h + "fe";
  }

  lemma CanonicalOfTwo(a: string, b: string)
    requires |a| != |b|
    ensures Canonical([a, b], a) == Some(a) && Canonical([a, b], b) == Some(b)
  {
    var two := [a, b];
    assert two[1..][0] == b;
  }

  /** A flag that defaults to true, passed as `None`: the command has it, the report denies it. */
  lemma NoneFlagIsMisreported()
    ensures var kind := FlagSuffix(" hard", true);
      Render(kind, Nothing) == Some(" hard") && Normalized(kind, Nothing) == Bool(false) && Meant(kind, Nothing) == Bool(true)
  {
  }
}
