/** Commands with variables, as text, and what parsing makes of them. */
module HwlCommands {
  import opened Grammar
  import opened Meaning
  import opened Laws
  import opened Hwl
  import opened HwlLexis
  import opened HwlScripts

  /** A piece of a command: text, or a variable with or without a default. */
  datatype Piece = Plain(text: string) | Name(name: string) | Or(name: string, default: string)

  predicate PieceOk(x: Piece) {
    match x
    case Plain(text) => text != "" && forall i :: 0 <= i < |text| ==> text[i] != '$' && text[i] != '\0'
    case Name(name) => IsName(name)
    case Or(name, default) => IsName(name) && forall i :: 0 <= i < |default| ==> default[i] != ')' && default[i] != '\0'
  }

  /** The second piece is not taken for a part of the first. */
  predicate Apart(x: Piece, y: Piece) {
    y.Plain? ==> !x.Plain? && (x.Name? ==> y.text != "" && !InName(y.text[0]) && y.text[0] != '(')
  }

  predicate FitsBehind(xs: seq<Piece>, x: Piece) {
    PieceOk(x) && (xs == [] || Apart(xs[|xs| - 1], x))
  }

  predicate CommandOk(xs: seq<Piece>) {
    if xs == [] then true
    else
      var init, x := xs[..|xs| - 1], xs[|xs| - 1];
      CommandOk(init) && FitsBehind(init, x)
  }

  function PrintPiece(x: Piece): string {
    match x
    case Plain(text) => text
    case Name(name) => "$" + name
    case Or(name, default) => "$" + (name + ("(" + (default + ")")))
  }

  function PrintCommand(xs: seq<Piece>): string {
    if xs == [] then "" else PrintCommand(xs[..|xs| - 1]) + PrintPiece(xs[|xs| - 1])
  }

  function PieceTree(x: Piece): Tree {
    match x
    case Plain(text) => Text(text)
    case Name(name) => Node(VARIABLE, [NameTree(name)])
    case Or(name, default) => Node(VARIABLE, [NameTree(name), Text(default)])
  }

  function CommandTrees(xs: seq<Piece>): seq<Tree> {
    if xs == [] then [] else CommandTrees(xs[..|xs| - 1]) + [PieceTree(xs[|xs| - 1])]
  }

  // Text and variables.

  predicate IsAt(input: string, p: nat, c: char) { p < |input| && input[p] == c }

  /** Any character but one, and NUL. */
  lemma AllBut(input: string, c: char, p: nat)
    requires p < |input| && input[p] != c && input[p] != '\0' && c != '\0'
    ensures Reads(input, Sequence([LookNot(Literal(c)), Any]), p, p + 1, [])
  {
    LiteralTakes(input, c, p);
    AnyBut(input, Literal(c), p);
  }

  lemma PlainRejects(input: string, p: nat)
    requires p == |input| || IsAt(input, p, '$')
    ensures Rejects(input, PlainText(), p)
  {
    StopsPlain(input, p);
    SomeKo(Rule, input, NoDollar(), p);
    MemoizeSomeLaw(Rule, input, 11, NoDollar(), p);
    CaptureLaw(Rule, input, MemoizeSome(11, NoDollar()), p);
  }

  lemma StopsPlain(input: string, p: nat)
    requires p == |input| || IsAt(input, p, '$')
    ensures Rejects(input, NoDollar(), p)
  {
    LiteralTakes(input, '$', p);
    AnyBut(input, Literal('$'), p);
    if IsAt(input, p, '$') { assert Ok(Rule, input, Literal('$'), p, p + 1); }
  }

  lemma PlainReads(input: string, p: nat, text: string)
    requires PieceOk(Plain(text)) && At(input, p, text)
    requires p + |text| == |input| || IsAt(input, p + |text|, '$')
    ensures Reads(input, PlainText(), p, p + |text|, [Text(text)])
  {
    forall q: nat | p <= q < p + |text| ensures TakesIf(input, NoDollar(), q, true) {
      AtChar(input, p, text, q - p);
      AllBut(input, '$', q);
    }
    StopsPlain(input, p + |text|);
    RunReads(input, NoDollar(), p, |text|);
    MemoizeSomeLaw(Rule, input, 11, NoDollar(), p);
    CaptureLaw(Rule, input, MemoizeSome(11, NoDollar()), p);
  }

  function NoBracket(): Comb {
    Sequence([LookNot(Literal(')')), Any])
  }

  lemma DefaultTextReads(input: string, p: nat, text: string)
    requires At(input, p, text) && IsAt(input, p + |text|, ')')
    requires forall i :: 0 <= i < |text| ==> text[i] != ')' && text[i] != '\0'
    ensures Reads(input, Capture(DefaultText()), p, p + |text|, [Text(text)])
  {
    var end := p + |text|;
    forall q: nat | p <= q < end ensures TakesIf(input, NoBracket(), q, true) {
      AtChar(input, p, text, q - p);
      AllBut(input, ')', q);
    }
    LiteralTakes(input, ')', end);
    assert Ok(Rule, input, Literal(')'), end, end + 1);
    AnyBut(input, Literal(')'), end);
    RunReads(input, NoBracket(), p, |text|);
    MemoizeManyLaw(Rule, input, 13, NoBracket(), p);
    CaptureLaw(Rule, input, DefaultText(), p);
  }

  lemma DefaultReads(input: string, p: nat, text: string)
    requires At(input, p, "(" + (text + ")")) && forall i :: 0 <= i < |text| ==> text[i] != ')' && text[i] != '\0'
    ensures Reads(input, Option(DefaultValue()), p, p + |text| + 2, [Text(text)])
  {
    var end := p + 1 + |text|;
    AtJoin(input, p, "(", text + ")");
    AtJoin(input, p + 1, text, ")");
    AtChar(input, p, "(", 0);
    AtChar(input, end, ")", 0);
    DefaultTextReads(input, p + 1, text);
    DefaultPartsRead(input, p, end, [Text(text)]);
    OptionLaw(Rule, input, DefaultValue(), p);
  }

  lemma DefaultPartsRead(input: string, p: nat, end: nat, val: seq<Tree>)
    requires IsAt(input, p, '(') && IsAt(input, end, ')') && Reads(input, Capture(DefaultText()), p + 1, end, val)
    ensures Reads(input, DefaultValue(), p, end + 1, val)
  {
    var rest := [Literal(')'), Empty];
    LiteralTakes(input, '(', p);
    LiteralTakes(input, ')', end);
    ItemReads(input, Literal(')'), end, end + 1, []);
    LeadReads(input, Capture(DefaultText()), rest, p + 1, end, end + 1, val);
    SkipReads(input, Literal('('), [Capture(DefaultText())] + rest, p, p + 1, end + 1, val);
    assert DefaultValue().fs == [Literal('(')] + ([Capture(DefaultText())] + rest);
  }

  lemma NoDefault(input: string, p: nat)
    requires p <= |input| && !IsAt(input, p, '(')
    ensures Reads(input, Option(DefaultValue()), p, p, [])
  {
    LiteralTakes(input, '(', p);
    var fs := DefaultValue().fs;
    assert fs[..0] == [];
    SequenceKo(Rule, input, fs, 0, [p]);
    OptionLaw(Rule, input, DefaultValue(), p);
  }

  function VariableParts(): seq<Comb> {
    [Literal('$'), Bind(NAME), Option(DefaultValue()), Empty]
  }

  lemma VariableReads(input: string, p: nat, name: string, end: nat, val: seq<Tree>)
    requires IsAt(input, p, '$') && NameAt(input, p + 1, name)
    requires Reads(input, Option(DefaultValue()), p + 1 + |name|, end, val)
    ensures Reads(input, Bind(VARIABLE), p, end, [Node(VARIABLE, [NameTree(name)] + val)])
  {
    var mid, rest := p + 1 + |name|, [Option(DefaultValue()), Empty];
    ItemReads(input, Option(DefaultValue()), mid, end, val);
    NameReads(input, p + 1, name);
    ConsReads(input, Bind(NAME), rest, p + 1, mid, end, [NameTree(name)], val);
    LiteralTakes(input, '$', p);
    SkipReads(input, Literal('$'), [Bind(NAME)] + rest, p, p + 1, end, [NameTree(name)] + val);
    assert VariableParts() == [Literal('$')] + ([Bind(NAME)] + rest);
    RuleSequence(input, VARIABLE, 12, VariableParts(), p, end, [NameTree(name)] + val);
  }

  lemma VariableRejects(input: string)
    ensures Rejects(input, Bind(VARIABLE), |input|)
  {
    var p := |input|;
    LiteralTakes(input, '$', p);
    assert VariableParts()[..0] == [];
    SequenceKo(Rule, input, VariableParts(), 0, [p]);
    SequenceRuleRejects(input, VARIABLE, 12, VariableParts(), p);
  }

  // Pieces.

  /** What stands behind the piece is not taken for a part of it. */
  predicate StopsAt(input: string, p: nat, x: Piece) {
    match x
    case Plain(_) => p == |input| || IsAt(input, p, '$')
    case Name(_) => !NameCharAt(input, p) && !IsAt(input, p, '(')
    case Or(_, _) => true
  }

  lemma ApartStops(input: string, p: nat, x: Piece, y: Piece)
    requires PieceOk(y) && Apart(x, y) && At(input, p, PrintPiece(y))
    ensures StopsAt(input, p, x)
  {
    AtChar(input, p, PrintPiece(y), 0);
  }

  lemma PieceReads(input: string, p: nat, x: Piece)
    requires PieceOk(x) && At(input, p, PrintPiece(x)) && StopsAt(input, p + |PrintPiece(x)|, x)
    ensures Reads(input, CommandItem(), p, p + |PrintPiece(x)|, [PieceTree(x)])
  {
    var end := p + |PrintPiece(x)|;
    if x.Plain? {
      PlainReads(input, p, x.text);
      ItemReads(input, PlainText(), p, end, [Text(x.text)]);
      ChoiceOk(Rule, input, CommandItem().fs, 0, p, end);
    } else {
      VariablePiece(input, p, x);
      ItemReads(input, Bind(VARIABLE), p, end, [PieceTree(x)]);
      AtChar(input, p, PrintPiece(x), 0);
      PlainRejects(input, p);
      ItemRejects(input, PlainText(), p);
      ChoiceOk(Rule, input, CommandItem().fs, 1, p, end);
    }
  }

  lemma VariablePiece(input: string, p: nat, x: Piece)
    requires !x.Plain? && PieceOk(x) && At(input, p, PrintPiece(x)) && StopsAt(input, p + |PrintPiece(x)|, x)
    ensures Reads(input, Bind(VARIABLE), p, p + |PrintPiece(x)|, [PieceTree(x)])
  {
    AtChar(input, p, PrintPiece(x), 0);
    match x
    case Name(name) =>
      AtJoin(input, p, "$", name);
      NoDefault(input, p + 1 + |name|);
      VariableReads(input, p, name, p + 1 + |name|, []);
      assert [NameTree(name)] + [] == [NameTree(name)];
    case Or(name, default) =>
      DefaultPiece(input, p, name, default);
  }

  lemma DefaultPiece(input: string, p: nat, name: string, default: string)
    requires PieceOk(Or(name, default)) && At(input, p, PrintPiece(Or(name, default)))
    ensures Reads(input, Bind(VARIABLE), p, p + |PrintPiece(Or(name, default))|, [PieceTree(Or(name, default))])
  {
    var mid := p + 1 + |name|;
    var rest := "(" + (default + ")");
    AtJoin(input, p, "$", name + rest);
    AtJoin(input, p + 1, name, rest);
    AtChar(input, p, "$", 0);
    AtChar(input, mid, rest, 0);
    DefaultReads(input, mid, default);
    VariableReads(input, p, name, mid + |default| + 2, [Text(default)]);
    assert [NameTree(name)] + [Text(default)] == [NameTree(name), Text(default)];
  }

  predicate LastStops(input: string, p: nat, xs: seq<Piece>) {
    xs == [] || StopsAt(input, p, xs[|xs| - 1])
  }

  /** A piece behind others. */
  lemma PieceBehind(input: string, p: nat, a: string, xs: seq<Piece>, x: Piece)
    requires FitsBehind(xs, x) && At(input, p, a + PrintPiece(x)) && StopsAt(input, p + |a| + |PrintPiece(x)|, x)
    ensures At(input, p, a) && LastStops(input, p + |a|, xs)
    ensures Reads(input, CommandItem(), p + |a|, p + |a| + |PrintPiece(x)|, [PieceTree(x)])
  {
    AtJoin(input, p, a, PrintPiece(x));
    PieceReads(input, p + |a|, x);
    if xs != [] { ApartStops(input, p + |a|, xs[|xs| - 1], x); }
  }

  lemma {:induction false} PrintedPieces(input: string, p: nat, xs: seq<Piece>)
    returns (ends: seq<nat>, vals: seq<seq<Tree>>)
    requires CommandOk(xs) && At(input, p, PrintCommand(xs))
    requires LastStops(input, p + |PrintCommand(xs)|, xs)
    ensures Run(input, CommandItem(), ends, vals, p, p + |PrintCommand(xs)|)
    ensures |vals| == |xs| && Row(vals) == CommandTrees(xs)
  {
    if xs == [] {
      ends, vals := [p], [];
    } else {
      var init, x := xs[..|xs| - 1], xs[|xs| - 1];
      var mid, end := p + |PrintCommand(init)|, p + |PrintCommand(xs)|;
      PieceBehind(input, p, PrintCommand(init), init, x);
      var before, values := PrintedPieces(input, p, init);
      RunGoesOn(input, CommandItem(), before, values, p, mid, end, [PieceTree(x)]);
      ends, vals := before + [end], values + [[PieceTree(x)]];
    }
  }

  lemma ItemEnds(input: string)
    ensures Rejects(input, CommandItem(), |input|)
  {
    PlainRejects(input, |input|);
    VariableRejects(input);
    ItemRejects(input, PlainText(), |input|);
    ItemRejects(input, Bind(VARIABLE), |input|);
    ChoiceKo(Rule, input, CommandItem().fs, |input|);
  }

  /** A printed command parses to itself; one without pieces is no command. */
  lemma CommandReadsItself(xs: seq<Piece>)
    requires CommandOk(xs)
    ensures var text := PrintCommand(xs);
      if xs == [] then Rejects(text, Bind(COMMAND), 0)
      else Reads(text, Bind(COMMAND), 0, |text|, [Node(COMMAND, CommandTrees(xs))])
  {
    var text := PrintCommand(xs);
    assert At(text, 0, text);
    var ends, vals := PrintedPieces(text, 0, xs);
    ItemEnds(text);
    RunEnds(text, CommandItem(), ends, vals, 0, |text|);
    MemoizeLaw(Rule, text, 10, Some(CommandItem()), 0);
    if xs == [] {
      SomeKo(Rule, text, CommandItem(), 0);
      RuleRejects(text, COMMAND, 0);
    } else {
      RuleGives(text, COMMAND, 0, |text|, CommandTrees(xs));
    }
  }
}
