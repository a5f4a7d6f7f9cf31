/** Prompt templates: variables are replaced one after the other in the text,
    which amounts to replacing all placeholders at once. */
module PromptTemplate {
  import opened Text

  // ---- Text operations --------------------------------------------------

  /** `s.replace(pattern, value)`: left to right, without overlaps. */
  function Replace(s: string, pattern: string, value: string): string
    requires pattern != ""
  {
    if |s| < |pattern| then s
    else if s[..|pattern|] == pattern then value + Replace(s[|pattern|..], pattern, value)
    else [s[0]] + Replace(s[1..], pattern, value)
  }

  predicate NameChar(c: char) {
    'a' <= c <= 'z' || 'A' <= c <= 'Z' || '0' <= c <= '9' || c == '_'
  }

  /** The longest prefix of white space, and of name characters. */
  function SpaceRun(s: string): (n: nat)
    ensures n <= |s|
  {
    if s != "" && IsSpace(s[0]) then 1 + SpaceRun(s[1..]) else 0
  }

  function NameRun(s: string): (n: nat)
    ensures n <= |s|
    ensures forall i :: 0 <= i < n ==> NameChar(s[i])
  {
    if s != "" && NameChar(s[0]) then 1 + NameRun(s[1..]) else 0
  }

  datatype Match = NoMatch | Match(name: string, length: nat)

  /** A name, optional white space and two closing braces, after `skipped` characters. */
  function MatchName(s: string, skipped: nat): (m: Match)
    ensures m.Match? ==> skipped + 2 < m.length <= skipped + |s|
  {
    var name := s[..NameRun(s)];
    var afterName := s[NameRun(s)..];
    var spaces := SpaceRun(afterName);
    var atClose := afterName[spaces..];
    if name == "" || |atClose| < 2 || atClose[..2] != "}}" then NoMatch
    else Match(name, skipped + |name| + spaces + 2)
  }

  /** The placeholder pattern at the start of a text: two braces, a name in optional white space, two braces. */
  function MatchHere(s: string): (m: Match)
    ensures m.Match? ==> 4 < m.length <= |s|
  {
    if |s| < 2 || s[..2] != "{{" then NoMatch
    else
      var spaces := SpaceRun(s[2..]);
      MatchName(s[2..][spaces..], 2 + spaces)
  }

  /** `set(pattern.findall(s))`. */
  function VariablesIn(s: string): set<string>
    decreases |s|
  {
    if s == "" then {}
    else
      var m := MatchHere(s);
      if m.Match? then {m.name} + VariablesIn(s[m.length..]) else VariablesIn(s[1..])
  }

  function MergeInputs(defaults: map<string, string>, inputs: map<string, string>): map<string, string> {
    defaults + inputs
  }

  function ValueOf(inputs: map<string, string>, name: string): string {
    if name in inputs then inputs[name] else ""
  }

  function ReplaceVariable(s: string, name: string, value: string): string {
    Replace(Replace(s, "{{" + name + "}}", value), "{{ " + name + " }}", value)
  }

  /** The first `n` variables of an order replaced, one after the other. */
  function ReplaceInOrder(s: string, order: seq<string>, n: nat, inputs: map<string, string>): string
    requires n <= |order|
  {
    if n == 0 then s
    else ReplaceVariable(ReplaceInOrder(s, order, n - 1, inputs), order[n - 1], ValueOf(inputs, order[n - 1]))
  }

  ghost function Render(template: string, defaults: map<string, string>, inputs: map<string, string>): Option<string> {
    var order := Sorted(VariablesIn(template));
    if !NonBlank(template) then None else Some(ReplaceInOrder(template, order, |order|, MergeInputs(defaults, inputs)))
  }

  /** `render_prompt_template`. */
  method RenderPromptTemplate(template: string, defaults: map<string, string>, inputs: map<string, string>)
    returns (r: Option<string>)
    ensures r == Render(template, defaults, inputs)
  {
    hide Replace, VariablesIn, ReplaceVariable, NonBlank;
    if !NonBlank(template) {
      return None;
    }
    var merged := MergeInputs(defaults, inputs);
    var names := SortSet(VariablesIn(template));
    var rendered := template;
    for i := 0 to |names|
      invariant rendered == ReplaceInOrder(template, names, i, merged)
    {
      rendered := ReplaceVariable(rendered, names[i], ValueOf(merged, names[i]));
    }
    r := Some(rendered);
  }

  // ---- Templates as pieces ----------------------------------------------

  /** A literal text, or a placeholder with what stands between its braces. */
  datatype Piece = Literal(text: string) | Slot(inner: string)

  predicate BraceFree(s: string) {
    '{' !in s && '}' !in s
  }

  /** No two opening braces together and none at the end: a text, such as that
      of a JSON object, that cannot open a placeholder with what follows it. */
  predicate OpensNothing(s: string) {
    forall i :: 0 <= i < |s| && s[i] == '{' ==> i + 1 < |s| && s[i + 1] != '{'
  }

  function Show(p: Piece): string {
    match p
    case Literal(text) => text
    case Slot(inner) => "{{" + inner + "}}"
  }

  /** The template text that the pieces spell. */
  function Flatten(ps: seq<Piece>): string {
    if ps == [] then "" else Show(ps[0]) + Flatten(ps[1..])
  }

  predicate Plain(p: Piece) {
    if p.Literal? then OpensNothing(p.text) else BraceFree(p.inner)
  }

  predicate AllPlain(ps: seq<Piece>) {
    forall i :: 0 <= i < |ps| ==> Plain(ps[i])
  }

  /** Every placeholder with that inner text filled in. */
  function Fill(ps: seq<Piece>, inner: string, value: string): (r: seq<Piece>)
    ensures |r| == |ps|
    ensures forall i :: 0 <= i < |ps| ==> r[i] == if ps[i] == Slot(inner) then Literal(value) else ps[i]
  {
    seq(|ps|, i requires 0 <= i < |ps| => if ps[i] == Slot(inner) then Literal(value) else ps[i])
  }

  // ---- Replacing text is filling pieces ---------------------------------

  /** Replacing skips a text in which the pattern never starts. */
  lemma {:induction false} ReplaceSkips(head: string, rest: string, pattern: string, value: string)
    requires pattern != ""
    requires forall i :: 0 <= i < |head| ==> !StartsWith(head[i..] + rest, pattern)
    ensures Replace(head + rest, pattern, value) == head + Replace(rest, pattern, value)
  {
    if head == "" {
      assert head + rest == rest;
    } else {
      var s := head + rest;
      assert head[0..] + rest == s;
      assert s[1..] == head[1..] + rest;
      forall i | 0 <= i < |head[1..]| ensures !StartsWith(head[1..][i..] + rest, pattern) {
        assert head[1..][i..] == head[i + 1..];
      }
      ReplaceSkips(head[1..], rest, pattern, value);
      assert Replace(s, pattern, value) == [s[0]] + Replace(s[1..], pattern, value);
      assert [head[0]] + (head[1..] + Replace(rest, pattern, value)) == head + Replace(rest, pattern, value);
    }
  }

  lemma StartsAgree(s: string, pattern: string, i: nat)
    requires i < |pattern|
    ensures StartsWith(s, pattern) ==> s[i] == pattern[i]
  {
    assert StartsWith(s, pattern) ==> s[..|pattern|][i] == s[i];
  }

  lemma DifferSomewhere(a: string, b: string) returns (i: nat)
    requires |a| == |b| && a != b
    ensures i < |a| && a[i] != b[i]
  {
    i :| i < |a| && a[i] != b[i];
  }

  /** Two placeholders spell the same text only if their inner texts agree. */
  lemma PlaceholderStarts(inner: string, rest: string, wanted: string)
    requires BraceFree(inner) && BraceFree(wanted)
    ensures StartsWith("{{" + inner + "}}" + rest, "{{" + wanted + "}}") <==> inner == wanted
  {
    var s, p := "{{" + inner + "}}" + rest, "{{" + wanted + "}}";
    if inner == wanted {
      assert s[..|p|] == p;
    } else if |inner| < |wanted| {
      assert p[|inner| + 2] == wanted[|inner|] && s[|inner| + 2] == '}';
      StartsAgree(s, p, |inner| + 2);
    } else if |wanted| < |inner| {
      assert s[|wanted| + 2] == inner[|wanted|] && p[|wanted| + 2] == '}';
      StartsAgree(s, p, |wanted| + 2);
    } else {
      var i := DifferSomewhere(inner, wanted);
      assert s[i + 2] == inner[i] && p[i + 2] == wanted[i];
      StartsAgree(s, p, i + 2);
    }
  }

  /** Inside a placeholder no other one starts. */
  lemma NothingStartsInside(inner: string, rest: string, wanted: string, i: nat)
    requires BraceFree(inner) && BraceFree(wanted) && 0 < i < |inner| + 4
    ensures !StartsWith(("{{" + inner + "}}")[i..] + rest, "{{" + wanted + "}}")
  {
    var tail, p := ("{{" + inner + "}}")[i..] + rest, "{{" + wanted + "}}";
    StartsAgree(tail, p, 0);
    StartsAgree(tail, p, 1);
    if i >= 2 {
      assert tail[0] == (inner + "}}")[i - 2];
    } else {
      assert tail[1] == (inner + "}}")[0];
    }
  }

  lemma NothingStartsInLiteral(text: string, rest: string, wanted: string, i: nat)
    requires OpensNothing(text) && i < |text|
    ensures !StartsWith(text[i..] + rest, "{{" + wanted + "}}")
  {
    var tail, p := text[i..] + rest, "{{" + wanted + "}}";
    assert tail[0] == text[i];
    StartsAgree(tail, p, 0);
    if text[i] == '{' {
      assert tail[1] == text[i + 1];
      StartsAgree(tail, p, 1);
    }
  }

  /** One piece at a time: replacing passes over it, or fills it. */
  lemma ReplacePiece(p: Piece, rest: string, wanted: string, value: string)
    requires Plain(p) && BraceFree(wanted)
    ensures Replace(Show(p) + rest, "{{" + wanted + "}}", value) ==
            (if p == Slot(wanted) then value else Show(p)) + Replace(rest, "{{" + wanted + "}}", value)
  {
    var pattern := "{{" + wanted + "}}";
    if p == Slot(wanted) {
      PlaceholderStarts(wanted, rest, wanted);
      assert (Show(p) + rest)[|pattern|..] == rest;
    } else {
      forall i | 0 <= i < |Show(p)| ensures !StartsWith(Show(p)[i..] + rest, pattern) {
        if p.Literal? {
          NothingStartsInLiteral(p.text, rest, wanted, i);
        } else if i == 0 {
          PlaceholderStarts(p.inner, rest, wanted);
          assert Show(p)[0..] + rest == "{{" + p.inner + "}}" + rest;
        } else {
          NothingStartsInside(p.inner, rest, wanted, i);
        }
      }
      ReplaceSkips(Show(p), rest, pattern, value);
    }
  }

  /** Replacing a placeholder in the text fills it in every piece. */
  lemma {:induction false} ReplaceFills(ps: seq<Piece>, wanted: string, value: string)
    requires AllPlain(ps) && BraceFree(wanted)
    ensures Replace(Flatten(ps), "{{" + wanted + "}}", value) == Flatten(Fill(ps, wanted, value))
  {
    if ps != [] {
      ReplaceFills(ps[1..], wanted, value);
      ReplacePiece(ps[0], Flatten(ps[1..]), wanted, value);
      assert Fill(ps, wanted, value)[1..] == Fill(ps[1..], wanted, value);
    }
  }

  // ---- Variables --------------------------------------------------------

  predicate VariableName(name: string) {
    name != "" && forall i :: 0 <= i < |name| ==> NameChar(name[i])
  }

  /** `{{x}}` or `{{ x }}`. */
  predicate SlotFor(p: Piece, name: string) {
    p == Slot(name) || p == Slot(" " + name + " ")
  }

  /** Literals that open no placeholder, and proper placeholders. */
  ghost predicate ProperPiece(p: Piece) {
    Plain(p) && (p.Slot? ==> exists name :: VariableName(name) && SlotFor(p, name))
  }

  ghost predicate Proper(ps: seq<Piece>) {
    forall i :: 0 <= i < |ps| ==> ProperPiece(ps[i])
  }

  ghost predicate HasSlot(ps: seq<Piece>, name: string) {
    exists i :: 0 <= i < |ps| && SlotFor(ps[i], name)
  }

  lemma NameCharsAreNeitherSpaceNorBrace(c: char)
    requires NameChar(c)
    ensures !IsSpace(c) && c != '{' && c != '}' && c != ' '
  {
  }

  lemma {:induction false} NameRunIs(name: string, rest: string)
    requires forall i :: 0 <= i < |name| ==> NameChar(name[i])
    requires rest == "" || !NameChar(rest[0])
    ensures NameRun(name + rest) == |name|
  {
    if name == "" {
      assert name + rest == rest;
    } else {
      assert (name + rest)[1..] == name[1..] + rest;
      NameRunIs(name[1..], rest);
    }
  }

  lemma NameMatches(name: string, pad: string, rest: string, skipped: nat)
    requires VariableName(name) && (pad == "" || pad == " ")
    ensures MatchName(name + (pad + ("}}" + rest)), skipped) == Match(name, skipped + |name| + |pad| + 2)
  {
    var s := name + (pad + ("}}" + rest));
    assert !NameChar((pad + ("}}" + rest))[0]);
    NameRunIs(name, pad + ("}}" + rest));
    assert s[..|name|] == name && s[|name|..] == pad + ("}}" + rest);
    PadIsSpaceRun(pad, "}}" + rest);
    assert (pad + ("}}" + rest))[|pad|..] == "}}" + rest;
    assert ("}}" + rest)[..2] == "}}";
  }

  lemma SlotMatches(name: string, pad: string, rest: string)
    requires VariableName(name) && (pad == "" || pad == " ")
    ensures MatchHere("{{" + (pad + name + pad) + "}}" + rest) == Match(name, |pad + name + pad| + 4)
  {
    var s := "{{" + (pad + name + pad) + "}}" + rest;
    var tail := name + (pad + ("}}" + rest));
    assert s[..2] == "{{" && s[2..] == pad + tail && (pad + tail)[|pad|..] == tail;
    NameCharsAreNeitherSpaceNorBrace(name[0]);
    PadIsSpaceRun(pad, tail);
    NameMatches(name, pad, rest, 2 + |pad|);
  }

  lemma PadIsSpaceRun(pad: string, rest: string)
    requires pad == "" || pad == " "
    requires rest != "" && !IsSpace(rest[0])
    ensures SpaceRun(pad + rest) == |pad|
  {
    assert IsSpace(' ');
    if pad == "" { assert pad + rest == rest; } else { assert (pad + rest)[1..] == rest; }
  }

  lemma {:induction false} LiteralsHoldNoVariables(text: string, rest: string)
    requires OpensNothing(text)
    ensures VariablesIn(text + rest) == VariablesIn(rest)
  {
    if text == "" {
      assert text + rest == rest;
    } else {
      assert (text + rest)[1..] == text[1..] + rest;
      assert forall i :: 0 <= i < |text[1..]| ==> text[1..][i] == text[i + 1];
      LiteralsHoldNoVariables(text[1..], rest);
      assert MatchHere(text + rest).NoMatch? by {
        assert text[0] == '{' ==> (text + rest)[1] == text[1];
        NoPairNoMatch(text + rest);
      }
    }
  }

  lemma NoPairNoMatch(s: string)
    requires s != "" && (s[0] != '{' || (|s| >= 2 && s[1] != '{'))
    ensures MatchHere(s).NoMatch?
  {
    if |s| >= 2 { assert s[..2][0] == s[0] && s[..2][1] == s[1]; }
  }

  lemma PieceVariables(p: Piece, rest: string, name: string)
    requires ProperPiece(p) && VariableName(name)
    ensures name in VariablesIn(Show(p) + rest) <==> SlotFor(p, name) || name in VariablesIn(rest)
  {
    if p.Literal? {
      LiteralsHoldNoVariables(p.text, rest);
    } else {
      var x :| VariableName(x) && SlotFor(p, x);
      SlotVariables(p.inner, x, rest);
      hide VariablesIn, SlotFor;
      OneNamePerSlot(p, x, name);
      assert Show(p) + rest == "{{" + p.inner + "}}" + rest;
    }
  }

  lemma SlotVariables(inner: string, x: string, rest: string)
    requires VariableName(x) && (inner == x || inner == " " + x + " ")
    ensures VariablesIn("{{" + inner + "}}" + rest) == {x} + VariablesIn(rest)
  {
    hide VariableName, MatchHere;
    var pad := if inner == x then "" else " ";
    assert inner == pad + x + pad;
    SlotMatches(x, pad, rest);
    assert ("{{" + inner + "}}" + rest)[|inner| + 4..] == rest;
  }

  lemma OneNamePerSlot(p: Piece, x: string, y: string)
    requires VariableName(x) && VariableName(y) && SlotFor(p, x)
    ensures SlotFor(p, y) <==> x == y
  {
    var wideX, wideY := " " + x + " ", " " + y + " ";
    NameCharsAreNeitherSpaceNorBrace(x[0]);
    NameCharsAreNeitherSpaceNorBrace(y[0]);
    assert wideX[0] == ' ' && wideY[0] == ' ';
    assert wideX[1..|x| + 1] == x && wideY[1..|y| + 1] == y;
  }

  /** The pattern finds exactly the names of the placeholders. */
  lemma {:induction false} VariablesAreSlots(ps: seq<Piece>, name: string)
    requires Proper(ps) && VariableName(name)
    ensures name in VariablesIn(Flatten(ps)) <==> HasSlot(ps, name)
  {
    if ps != [] {
      VariablesAreSlots(ps[1..], name);
      PieceVariables(ps[0], Flatten(ps[1..]), name);
      assert HasSlot(ps, name) <==> SlotFor(ps[0], name) || HasSlot(ps[1..], name);
    }
  }

  // ---- One pass over all placeholders -----------------------------------

  /** A piece with its placeholder replaced by the value, if its variable is in `done`. */
  ghost function Substitute(p: Piece, done: set<string>, inputs: map<string, string>): Piece {
    if exists name :: name in done && SlotFor(p, name) then
      var name :| name in done && SlotFor(p, name);
      Literal(ValueOf(inputs, name))
    else p
  }

  ghost function SubstituteAll(ps: seq<Piece>, done: set<string>, inputs: map<string, string>): (r: seq<Piece>)
    ensures |r| == |ps|
    ensures forall i :: 0 <= i < |ps| ==> r[i] == Substitute(ps[i], done, inputs)
  {
    seq(|ps|, i requires 0 <= i < |ps| => Substitute(ps[i], done, inputs))
  }

  ghost predicate VariableNames(names: set<string>) {
    forall name <- names :: VariableName(name)
  }

  lemma SubstituteOneMore(p: Piece, done: set<string>, name: string, inputs: map<string, string>)
    requires VariableNames(done + {name}) && name !in done
    ensures Substitute(p, done + {name}, inputs) ==
            if SlotFor(p, name) then Literal(ValueOf(inputs, name)) else Substitute(p, done, inputs)
    ensures SlotFor(Substitute(p, done, inputs), name) <==> SlotFor(p, name)
  {
    forall x, y | x in done + {name} && y in done + {name} && SlotFor(p, x) ensures SlotFor(p, y) <==> x == y {
      OneNamePerSlot(p, x, y);
    }
    hide VariableName;
    assert SlotFor(p, name) ==> name in done + {name} && SlotFor(p, name);
  }

  lemma SubstitutedIsPlain(p: Piece, done: set<string>, inputs: map<string, string>)
    requires Plain(p) && forall name <- done :: OpensNothing(ValueOf(inputs, name))
    ensures Plain(Substitute(p, done, inputs))
  {
  }

  lemma NamesAreBraceFree(name: string)
    requires VariableName(name)
    ensures BraceFree(name) && BraceFree(" " + name + " ")
  {
    forall i | 0 <= i < |name| { NameCharsAreNeitherSpaceNorBrace(name[i]); }
  }

  lemma ReplaceVariableFills(ps: seq<Piece>, name: string, value: string)
    requires AllPlain(ps) && VariableName(name) && OpensNothing(value)
    ensures var filled := Fill(Fill(ps, name, value), " " + name + " ", value);
      ReplaceVariable(Flatten(ps), name, value) == Flatten(filled)
  {
    hide Replace, Flatten, NameChar;
    NamesAreBraceFree(name);
    ReplaceFills(ps, name, value);
    assert AllPlain(Fill(ps, name, value));
    ReplaceFills(Fill(ps, name, value), " " + name + " ", value);
    assert "{{" + (" " + name + " ") + "}}" == "{{ " + name + " }}";
  }

  lemma ReplaceVariableSubstitutes(ps: seq<Piece>, done: set<string>, name: string, inputs: map<string, string>)
    requires AllPlain(ps) && VariableNames(done + {name}) && name !in done
    requires forall x <- done + {name} :: OpensNothing(ValueOf(inputs, x))
    ensures ReplaceVariable(Flatten(SubstituteAll(ps, done, inputs)), name, ValueOf(inputs, name)) ==
            Flatten(SubstituteAll(ps, done + {name}, inputs))
  {
    var value, before := ValueOf(inputs, name), SubstituteAll(ps, done, inputs);
    forall i | 0 <= i < |ps| ensures Plain(before[i]) { SubstitutedIsPlain(ps[i], done, inputs); }
    assert VariableName(name);
    hide VariableName, Substitute, ReplaceVariable, Flatten;
    ReplaceVariableFills(before, name, value);
    var filled := Fill(Fill(before, name, value), " " + name + " ", value);
    forall i | 0 <= i < |ps| ensures filled[i] == Substitute(ps[i], done + {name}, inputs) {
      SubstituteOneMore(ps[i], done, name, inputs);
    }
    assert filled == SubstituteAll(ps, done + {name}, inputs);
  }

  lemma {:induction false} ReplaceInOrderSubstitutes(ps: seq<Piece>, order: seq<string>, n: nat, inputs: map<string, string>)
    requires AllPlain(ps) && n <= |order| && VariableNames(Elements(order))
    requires forall i, j :: 0 <= i < j < |order| ==> order[i] != order[j]
    requires forall x <- Elements(order) :: OpensNothing(ValueOf(inputs, x))
    ensures ReplaceInOrder(Flatten(ps), order, n, inputs) == Flatten(SubstituteAll(ps, Elements(order[..n]), inputs))
  {
    hide ReplaceVariable, Flatten, VariableName, OpensNothing, BraceFree;
    if n == 0 {
      assert SubstituteAll(ps, {}, inputs) == ps;
      assert Elements(order[..0]) == {};
    } else {
      ReplaceInOrderSubstitutes(ps, order, n - 1, inputs);
      assert order[..n] == order[..n - 1] + [order[n - 1]];
      assert Elements(order[..n]) == Elements(order[..n - 1]) + {order[n - 1]};
      ReplaceVariableSubstitutes(ps, Elements(order[..n - 1]), order[n - 1], inputs);
    }
  }

  /** Replacing the variables of a template in any order is one simultaneous
      pass over its placeholders, when no literal and no value opens one. */
  lemma AnyOrderIsSimultaneous(ps: seq<Piece>, order: seq<string>, inputs: map<string, string>)
    requires AllPlain(ps) && VariableNames(Elements(order))
    requires forall i, j :: 0 <= i < j < |order| ==> order[i] != order[j]
    requires forall x <- Elements(order) :: OpensNothing(ValueOf(inputs, x))
    ensures ReplaceInOrder(Flatten(ps), order, |order|, inputs) == Flatten(SubstituteAll(ps, Elements(order), inputs))
  {
    ReplaceInOrderSubstitutes(ps, order, |order|, inputs);
    assert order[..|order|] == order;
  }

  /** The reference: every placeholder replaced by the value of its variable, all at once. */
  function OnePass(ps: seq<Piece>, inputs: map<string, string>): string {
    if ps == [] then ""
    else (if ps[0].Literal? then ps[0].text else ValueOf(inputs, Strip(ps[0].inner))) + OnePass(ps[1..], inputs)
  }

  lemma {:induction false} VariablesAreNames(s: string)
    ensures VariableNames(VariablesIn(s))
    decreases |s|
  {
    if s != "" {
      var m := MatchHere(s);
      if m.Match? { VariablesAreNames(s[m.length..]); } else { VariablesAreNames(s[1..]); }
    }
  }

  lemma OneSpaceIsTrimmed(s: string)
    ensures TrimStart(" " + s) == TrimStart(s) && TrimEnd(s + " ") == TrimEnd(s)
  {
    assert IsSpace(' ');
    assert (" " + s)[1..] == s && (s + " ")[..|s|] == s;
  }

  lemma SlotNameIsTrimmed(p: Piece, name: string)
    requires VariableName(name) && SlotFor(p, name)
    ensures Strip(p.inner) == name
  {
    NameCharsAreNeitherSpaceNorBrace(name[0]);
    NameCharsAreNeitherSpaceNorBrace(name[|name| - 1]);
    OneSpaceIsTrimmed(name);
    OneSpaceIsTrimmed(name + " ");
    hide IsSpace, VariableName;
    assert Trimmed(name);
    assert " " + (name + " ") == " " + name + " ";
    assert TrimStart(name + " ") == name + " ";
  }

  lemma {:induction false} SubstitutedIsOnePass(ps: seq<Piece>, names: set<string>, inputs: map<string, string>)
    requires Proper(ps) && VariableNames(names)
    requires forall name :: VariableName(name) && HasSlot(ps, name) ==> name in names
    ensures Flatten(SubstituteAll(ps, names, inputs)) == OnePass(ps, inputs)
  {
    if ps != [] {
      forall name | VariableName(name) && HasSlot(ps[1..], name) ensures name in names {
        assert HasSlot(ps, name);
      }
      SubstitutedIsOnePass(ps[1..], names, inputs);
      assert SubstituteAll(ps, names, inputs)[1..] == SubstituteAll(ps[1..], names, inputs);
      SubstitutedPiece(ps, names, inputs);
    }
  }

  lemma SubstitutedPiece(ps: seq<Piece>, names: set<string>, inputs: map<string, string>)
    requires ps != [] && ProperPiece(ps[0]) && VariableNames(names)
    requires forall name :: VariableName(name) && HasSlot(ps, name) ==> name in names
    ensures Show(Substitute(ps[0], names, inputs)) ==
            if ps[0].Literal? then ps[0].text else ValueOf(inputs, Strip(ps[0].inner))
  {
    if ps[0].Slot? {
      var x :| VariableName(x) && SlotFor(ps[0], x);
      assert HasSlot(ps, x);
      SlotNameIsTrimmed(ps[0], x);
      forall y | y in names && SlotFor(ps[0], y) ensures y == x { OneNamePerSlot(ps[0], x, y); }
    }
  }

  /** Rendering a template made of literals that open no placeholder and of
      proper placeholders is one simultaneous substitution, when no value of its
      variables opens a placeholder either. */
  lemma RenderIsOnePass(ps: seq<Piece>, defaults: map<string, string>, inputs: map<string, string>)
    requires Proper(ps) && NonBlank(Flatten(ps))
    requires forall x :: HasSlot(ps, x) ==> OpensNothing(ValueOf(MergeInputs(defaults, inputs), x))
    ensures Render(Flatten(ps), defaults, inputs) == Some(OnePass(ps, MergeInputs(defaults, inputs)))
  {
    var merged, names := MergeInputs(defaults, inputs), VariablesIn(Flatten(ps));
    var order := Sorted(names);
    VariablesAreNames(Flatten(ps));
    forall name | VariableName(name) && HasSlot(ps, name) ensures name in names { VariablesAreSlots(ps, name); }
    assert forall i, j :: 0 <= i < j < |order| ==> order[i] != order[j] by { SortedIsDistinct(order); }
    forall name <- names ensures HasSlot(ps, name) { VariablesAreSlots(ps, name); }
    hide NonBlank, Flatten, VariablesIn, OpensNothing, BraceFree, VariableName, Substitute, SlotFor, StrictlySorted, ReplaceVariable,
         HasSlot;
    assert Elements(order) == names;
    assert AllPlain(ps);
    AnyOrderIsSimultaneous(ps, order, merged);
    SubstitutedIsOnePass(ps, names, merged);
  }

  lemma SortedIsDistinct(order: seq<string>)
    requires StrictlySorted(order)
    ensures forall i, j :: 0 <= i < j < |order| ==> order[i] != order[j]
  {
    forall i, j | 0 <= i < j < |order| ensures order[i] != order[j] { BeforeIsTotalOrder(order[i], order[i], order[i]); }
  }

  lemma OnePassOfTwo(inputs: map<string, string>)
    ensures OnePass([Slot("a"), Slot("b")], inputs) == ValueOf(inputs, "a") + ValueOf(inputs, "b")
  {
    var ps := [Slot("a"), Slot("b")];
    assert ps[1..] == [Slot("b")] && ps[1..][1..] == [];
    assert Trimmed("a") && Trimmed("b");
    assert OnePass(ps[1..], inputs) == ValueOf(inputs, "b") + OnePass([], inputs);
  }

  /** The value of `a` spells a placeholder for `b`: the text now holds two of them. */
  lemma FirstRound()
    ensures ReplaceVariable(Flatten([Slot("a"), Slot("b")]), "a", "{{b}}") == Flatten([Slot("b"), Slot("b")])
  {
    hide Replace;
    var ps, again := [Slot("a"), Slot("b")], [Slot("b"), Slot("b")];
    ReplaceFills(ps, "a", "{{b}}");
    var filled := Fill(ps, "a", "{{b}}");
    assert filled[0] == Literal("{{b}}") && filled[1..] == again[1..] && Show(filled[0]) == Show(again[0]);
    assert Flatten(filled) == Flatten(again);
    ReplaceFills(again, " a ", "{{b}}");
    assert Fill(again, " a ", "{{b}}") == again;
    assert "{{" + " a " + "}}" == "{{ " + "a" + " }}";
  }

  lemma SecondRound(again: seq<Piece>)
    requires again == [Slot("b"), Slot("b")]
    ensures ReplaceVariable(Flatten(again), "b", "x") == "xx"
  {
    assert VariableName("b");
    ReplaceVariableFills(again, "b", "x");
    assert " " + "b" + " " == " b ";
    var done := Fill(Fill(again, "b", "x"), " b ", "x");
    assert done == [Literal("x"), Literal("x")];
    assert done[1..] == [Literal("x")] && done[1..][1..] == [];
    assert Flatten(done[1..]) == "x" + Flatten([]) == "x";
    assert Flatten(done) == "x" + "x" == "xx";
  }

  /** With a pair of braces in a value the two can differ: replaced in order the text is
      "xx", in one pass it is "{{b}}x". */
  lemma BracesInValuesAreReplacedAgain(ps: seq<Piece>, inputs: map<string, string>)
    requires ps == [Slot("a"), Slot("b")]
    requires inputs == map["a" := "{{b}}", "b" := "x"]
    ensures ReplaceInOrder(Flatten(ps), ["a", "b"], 2, inputs) == "xx"
    ensures OnePass(ps, inputs) == "{{b}}x"
  {
    FirstRound();
    SecondRound([Slot("b"), Slot("b")]);
    OnePassOfTwo(inputs);
    hide ReplaceVariable, Flatten;
    assert ValueOf(inputs, "a") == "{{b}}" && ValueOf(inputs, "b") == "x";
    assert OnePass(ps, inputs) == "{{b}}" + "x" == "{{b}}x";
    assert ReplaceInOrder(Flatten(ps), ["a", "b"], 0, inputs) == Flatten(ps);
    assert ReplaceInOrder(Flatten(ps), ["a", "b"], 1, inputs) == Flatten([Slot("b"), Slot("b")]);
  }
}
