/**
  What building a command accepts and writes, slot by slot: which values each kind takes and what it
  makes of them, and when there is a command at all.
 */
module CommandLaws {
  import opened Prelude
  import opened ControllerCommands

  /** The 26 capital letters become the small ones, and every other character stays. */
  lemma LowerIs(c: char, i: nat)
    requires i < 26
    ensures Lower("ABCDEFGHIJKLMNOPQRSTUVWXYZ"[i]) == "abcdefghijklmnopqrstuvwxyz"[i]
    ensures c !in "ABCDEFGHIJKLMNOPQRSTUVWXYZ" ==> Lower(c) == c
  {
    if 'A' <= c <= 'Z' {
      assert "ABCDEFGHIJKLMNOPQRSTUVWXYZ"[c as int - 65] == c;
    }
  }

  // ------------------------------------------------------------------ one value

  /** A value as text. */
  predicate IsTextOf(raw: Raw, text: string) {
    match raw
    case Nothing => text == "None"
    case Bool(true) => text == "True"
    case Bool(false) => text == "False"
    case Text(given) => text == given
    case Number(digits) => text == digits
  }

  predicate White(c: char) {
    c in " \t\n\r"
  }

  /** The value is digits, with nothing but white space around them. */
  predicate IsDigitsIn(text: string, i: nat, j: nat) {
    && i < j <= |text| && (forall k | i <= k < j :: text[k] in "0123456789")
    && (forall k | 0 <= k < i :: White(text[k])) && (forall k | j <= k < |text| :: White(text[k]))
  }

  ghost predicate IsNumber(text: string, digits: string) {
    exists i: nat, j: nat :: IsDigitsIn(text, i, j) && digits == text[i..j]
  }

  /** The first of the values that differs from the text in letter case at most. */
  ghost predicate IsChoice(values: seq<string>, text: string, choice: string) {
    exists k :: 0 <= k < |values| && values[k] == choice && Folds(values[k], text) && forall j | 0 <= j < k :: !Folds(values[j], text)
  }

  /** What a slot of this kind writes for the value. */
  ghost predicate Writes(kind: Kind, raw: Raw, written: string) {
    match kind
    case ActionId => raw == Text(written) && |written| == 16 && forall i | 0 <= i < 16 :: written[i] in "0123456789abcdef"
    case Enum(values) => exists text :: IsTextOf(raw, text) && IsChoice(values, text, written)
    case Numeric => !raw.Bool? && exists text :: IsTextOf(raw, text) && IsNumber(text, written)
    case FlagSuffix(trueValue, byDefault) =>
      (raw.Nothing? || raw.Bool?) && written == if raw == Bool(true) || (raw == Nothing && byDefault) then trueValue else ""
  }

  lemma TextIs(raw: Raw, text: string)
    ensures IsTextOf(raw, text) <==> text == AsText(raw)
  {
  }

  lemma {:induction false} CanonicalIs(values: seq<string>, text: string, choice: string)
    ensures IsChoice(values, text, choice) <==> Canonical(values, text) == Some(choice)
  {
    if values == [] {
    } else if Folds(values[0], text) {
      if values[0] == choice {
        assert IsChoice(values, text, choice);
      }
    } else {
      CanonicalIs(values[1..], text, choice);
      ChoiceMore(values, text, choice);
    }
  }

  lemma ChoiceMore(values: seq<string>, text: string, choice: string)
    requires values != [] && !Folds(values[0], text)
    ensures IsChoice(values, text, choice) <==> IsChoice(values[1..], text, choice)
  {
    if k :| 0 <= k < |values| && values[k] == choice && Folds(values[k], text) && forall j | 0 <= j < k :: !Folds(values[j], text) {
      assert values[1..][k - 1] == choice;
      assert forall j | 0 <= j < k - 1 :: values[1..][j] == values[j + 1];
    }
    if k :| 0 <= k < |values| - 1 && values[1..][k] == choice && Folds(values[1..][k], text) && forall j | 0 <= j < k :: !Folds(values[1..][j], text) {
      assert values[k + 1] == choice;
      forall j | 0 <= j < k + 1 ensures !Folds(values[j], text) {
        if j > 0 {
          assert values[j] == values[1..][j - 1];
        }
      }
    }
  }

  /** Stripping takes white space off both ends only. */
  lemma {:induction false} StripIs(s: string) returns (i: nat, j: nat)
    ensures i <= j <= |s| && Strip(s) == s[i..j]
    ensures (forall k | 0 <= k < i :: White(s[k])) && (forall k | j <= k < |s| :: White(s[k]))
    ensures i < j ==> !White(s[i]) && !White(s[j - 1])
    decreases |s|
  {
    if s != "" && IsBlank(s[0]) {
      var a, b := StripIs(s[1..]);
      i, j := a + 1, b + 1;
      assert s[1..][a..b] == s[i..j];
      assert forall k | 1 <= k < |s| :: s[k] == s[1..][k - 1];
    } else if s != "" && IsBlank(s[|s| - 1]) {
      i, j := StripIs(s[..|s| - 1]);
      assert s[..|s| - 1][i..j] == s[i..j];
      assert forall k | 0 <= k < |s| - 1 :: s[k] == s[..|s| - 1][k];
    } else {
      i, j := 0, |s|;
    }
  }

  lemma DigitIs(c: char)
    ensures IsDigit(c) <==> c in "0123456789"
    ensures IsHex(c) <==> c in "0123456789abcdef"
  {
    if IsDigit(c) {
      assert "0123456789"[c as int - 48] == c && "0123456789abcdef"[c as int - 48] == c;
    } else if 'a' <= c <= 'f' {
      assert "0123456789abcdef"[c as int - 87] == c;
    }
  }

  lemma NumberIs(text: string, digits: string)
    ensures IsNumber(text, digits) <==> AllDigits(Strip(text)) && digits == Strip(text)
  {
    var i, j := StripIs(text);
    forall c ensures IsDigit(c) <==> c in "0123456789" {
      DigitIs(c);
    }
    if AllDigits(Strip(text)) {
      forall k | i <= k < j ensures text[k] in "0123456789" {
        assert text[k] == Strip(text)[k - i];
      }
      assert IsDigitsIn(text, i, j);
    }
    if a: nat, b: nat :| IsDigitsIn(text, a, b) && digits == text[a..b] {
      SameEnds(text, a, b, i, j);
      assert forall k | 0 <= k < |digits| :: digits[k] == text[a + k];
    }
  }

  lemma SameEnds(text: string, a: nat, b: nat, i: nat, j: nat)
    requires IsDigitsIn(text, a, b) && i <= j <= |text| && (i < j ==> !White(text[i]) && !White(text[j - 1]))
    requires (forall k | 0 <= k < i :: White(text[k])) && (forall k | j <= k < |text| :: White(text[k]))
    ensures a == i && b == j
  {
    assert !White(text[a]) && !White(text[b - 1]) by {
      assert text[a] in "0123456789" && text[b - 1] in "0123456789";
    }
    assert i <= a && b <= j;
  }

  /** A slot writes exactly this, or nothing acceptable was given. */
  lemma RenderIs(kind: Kind, raw: Raw, written: string)
    ensures Writes(kind, raw, written) <==> Render(kind, raw) == Some(written)
  {
    TextIs(raw, AsText(raw));
    match kind
    case ActionId =>
      forall c ensures IsHex(c) <==> c in "0123456789abcdef" {
        DigitIs(c);
      }
    case Enum(values) =>
      CanonicalIs(values, AsText(raw), written);
      if text :| IsTextOf(raw, text) && IsChoice(values, text, written) {
        TextIs(raw, text);
      }
    case Numeric =>
      NumberIs(AsText(raw), written);
      if text :| IsTextOf(raw, text) && IsNumber(text, written) {
        TextIs(raw, text);
      }
    case FlagSuffix(_, _) =>
  }

  // ------------------------------------------------------------------ the command

  /** The value of a slot: the argument of its name, or the default of a flag. */
  predicate IsGiven(p: Parameter, arguments: map<string, Raw>, raw: Raw) {
    if p.name in arguments then raw == arguments[p.name]
    else raw == Bool(p.kind.FlagSuffix? && p.kind.byDefault)
  }

  /** Piece by piece: a literal is itself, and a slot what its value writes. */
  ghost predicate IsPart(piece: Piece, arguments: map<string, Raw>, part: string) {
    match piece
    case Literal(text) => part == text
    case Slot(p) => exists raw :: IsGiven(p, arguments, raw) && Writes(p.kind, raw, part)
  }

  ghost predicate AreParts(pieces: seq<Piece>, arguments: map<string, Raw>, parts: seq<string>) {
    |parts| == |pieces| && forall i | 0 <= i < |pieces| :: IsPart(pieces[i], arguments, parts[i])
  }

  function Concat(parts: seq<string>): string {
    if parts == [] then "" else parts[0] + Concat(parts[1..])
  }

  lemma PartIs(piece: Piece, arguments: map<string, Raw>, part: string)
    ensures IsPart(piece, arguments, part) <==>
      match piece
      case Literal(text) => part == text
      case Slot(p) => Render(p.kind, Given(p, arguments)) == Some(part)
  {
    if piece.Slot? {
      var p := piece.parameter;
      RenderIs(p.kind, Given(p, arguments), part);
      assert IsGiven(p, arguments, Given(p, arguments));
      if raw :| IsGiven(p, arguments, raw) && Writes(p.kind, raw, part) {
        assert raw == Given(p, arguments);
      }
    }
  }

  ghost predicate IsRendered(pieces: seq<Piece>, arguments: map<string, Raw>, command: string) {
    exists parts :: AreParts(pieces, arguments, parts) && command == Concat(parts)
  }

  lemma PartsMore(pieces: seq<Piece>, arguments: map<string, Raw>, command: string)
    requires pieces != []
    ensures IsRendered(pieces, arguments, command) <==>
      exists part, rest :: IsPart(pieces[0], arguments, part) && IsRendered(pieces[1..], arguments, rest) && command == part + rest
  {
    if parts :| AreParts(pieces, arguments, parts) && command == Concat(parts) {
      assert AreParts(pieces[1..], arguments, parts[1..]);
      assert IsPart(pieces[0], arguments, parts[0]) && IsRendered(pieces[1..], arguments, Concat(parts[1..]));
    }
    if part, rest :| IsPart(pieces[0], arguments, part) && IsRendered(pieces[1..], arguments, rest) && command == part + rest {
      var parts :| AreParts(pieces[1..], arguments, parts) && rest == Concat(parts);
      var more := [part] + parts;
      assert more[1..] == parts;
      assert AreParts(pieces, arguments, more);
    }
  }

  /** The command of these arguments is its parts one after another, and there is one exactly if every slot writes something. */
  lemma {:induction false} CommandIs(pieces: seq<Piece>, arguments: map<string, Raw>, command: string)
    ensures IsRendered(pieces, arguments, command) <==> CommandOf(pieces, ValuesOf(pieces, arguments)) == Some(command)
  {
    if pieces == [] {
      assert AreParts(pieces, arguments, []);
    } else {
      PartsMore(pieces, arguments, command);
      var rest := CommandOf(pieces[1..], ValuesOf(pieces[1..], arguments));
      forall part, more ensures IsPart(pieces[0], arguments, part) && IsRendered(pieces[1..], arguments, more) && command == part + more
        ==> CommandOf(pieces, ValuesOf(pieces, arguments)) == Some(command)
      {
        PartIs(pieces[0], arguments, part);
        CommandIs(pieces[1..], arguments, more);
      }
      if CommandOf(pieces, ValuesOf(pieces, arguments)) == Some(command) {
        var part := if pieces[0].Literal? then pieces[0].text else Render(pieces[0].parameter.kind, Given(pieces[0].parameter, arguments)).value;
        PartIs(pieces[0], arguments, part);
        CommandIs(pieces[1..], arguments, rest.value);
      }
    }
  }

  /** Exactly the declared names are given, and all but the flags are. */
  ghost predicate NamesFit(pieces: seq<Piece>, arguments: map<string, Raw>) {
    && (forall name | name in arguments :: exists i :: 0 <= i < |pieces| && pieces[i].Slot? && pieces[i].parameter.name == name)
    && (forall i | 0 <= i < |pieces| && pieces[i].Slot? :: pieces[i].parameter.kind.FlagSuffix? || pieces[i].parameter.name in arguments)
  }

  /** `build` gives this command exactly if the names fit and every slot writes its part of it. */
  lemma BuildIs(pieces: seq<Piece>, arguments: map<string, Raw>, command: string)
    requires TemplateOk(pieces)
    ensures Command(pieces, arguments) == Some(command) <==> NamesFit(pieces, arguments) && IsRendered(pieces, arguments, command)
  {
    CommandIs(pieces, arguments, command);
    NamesFitIff(pieces, arguments);
  }

  lemma NamesFitIff(pieces: seq<Piece>, arguments: map<string, Raw>)
    ensures NamesFit(pieces, arguments) <==> NamesOk(pieces, arguments)
  {
    if NamesOk(pieces, arguments) {
      forall name | name in arguments ensures exists i :: 0 <= i < |pieces| && pieces[i].Slot? && pieces[i].parameter.name == name {
        assert name in Names(pieces);
      }
    }
  }
}
