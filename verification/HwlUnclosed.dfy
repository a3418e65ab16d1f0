/** What becomes of a script whose blocks do not all get their end. */
module HwlUnclosed {
  import opened Grammar
  import opened Meaning
  import opened Laws
  import opened Hwl
  import opened HwlChecks
  import opened HwlLexis
  import opened HwlScripts
  import opened HwlIndent

  /** The next line is no statement, and no end of a block. */
  ghost predicate Blocked(input: string, p: nat) {
    p < |input| && NoReturnAt(input, p) && Rejects(input, StatementItem(), p) && Rejects(input, Sequence(BlockEnd()), p)
  }

  /** There is no body here, or no end of the block behind it. */
  ghost predicate Unclosed(input: string, p: nat) {
    Rejects(input, Bind(STATEMENTS), p) ||
    exists q: nat, val :: Reads(input, Bind(STATEMENTS), p, q, val) && Rejects(input, Sequence(BlockEnd()), q)
  }

  // Sequences that fail.

  lemma FirstRejects(input: string, f: Comb, fs: seq<Comb>, p: nat)
    requires Rejects(input, f, p)
    ensures Rejects(input, Sequence([f] + fs), p)
  {
    SequenceConsKo(Rule, input, f, fs, p);
  }

  lemma ThenRejects(input: string, f: Comb, fs: seq<Comb>, p: nat, mid: nat, val: seq<Tree>)
    requires Reads(input, f, p, mid, val) && Rejects(input, Sequence(fs), mid)
    ensures Rejects(input, Sequence([f] + fs), p)
  {
    SequenceConsKo(Rule, input, f, fs, p);
  }

  lemma UnclosedRejects(input: string, p: nat)
    requires Unclosed(input, p)
    ensures Rejects(input, Sequence([Bind(STATEMENTS)] + BlockEnd()), p)
  {
    if Rejects(input, Bind(STATEMENTS), p) {
      FirstRejects(input, Bind(STATEMENTS), BlockEnd(), p);
    } else {
      var q: nat, val :| Reads(input, Bind(STATEMENTS), p, q, val) && Rejects(input, Sequence(BlockEnd()), q);
      ThenRejects(input, Bind(STATEMENTS), BlockEnd(), p, q, val);
    }
  }

  lemma IndentedRejects(input: string, p: nat, fs: seq<Comb>)
    requires NewlineAt(input, p) && At(input, p + 1, "INDENT") && NewlineAt(input, p + 7)
    requires Rejects(input, Sequence(fs), p + 8)
    ensures Rejects(input, Sequence(Indented(fs)), p)
  {
    NewlineReads(input, p + 7);
    ThenRejects(input, Unbind(NL), fs, p + 7, p + 8, []);
    TokenReads(input, p + 1, INDENT, 25, "INDENT");
    ThenRejects(input, Unbind(INDENT), [Unbind(NL)] + fs, p + 1, p + 7, []);
    NewlineReads(input, p);
    ThenRejects(input, Unbind(NL), [Unbind(INDENT)] + ([Unbind(NL)] + fs), p, p + 1, []);
  }

  /** The colon and the token that open a block. */
  predicate OpensAt(input: string, p: nat) {
    At(input, p, ":\nINDENT\n") && NoReturnAt(input, p + 9)
  }

  lemma OpensPieces(input: string, p: nat)
    requires OpensAt(input, p)
    ensures p < |input| && input[p] == ':' && NewlineAt(input, p + 1) && At(input, p + 2, "INDENT")
    ensures NewlineAt(input, p + 8)
  {
    BlockOpens(input, p);
    AtChar(input, p, ":", 0);
    AtChar(input, p + 2, "INDENT", 0);
    NewlineIs(input, p + 1);
    NewlineIs(input, p + 8);
  }

  lemma BlockStartRejects(input: string, p: nat, fs: seq<Comb>)
    requires p < |input| && input[p] == ':' && NewlineAt(input, p + 1) && At(input, p + 2, "INDENT")
    requires NewlineAt(input, p + 8) && Rejects(input, Sequence(fs), p + 9)
    ensures Rejects(input, Sequence([Literal(':')] + ([Unbind(BLANK)] + Indented(fs))), p)
  {
    IndentedRejects(input, p + 1, fs);
    SpacesRead(input, p + 1, "");
    ThenRejects(input, Unbind(BLANK), Indented(fs), p + 1, p + 1, []);
    LiteralTakes(input, ':', p);
    ThenRejects(input, Literal(':'), [Unbind(BLANK)] + Indented(fs), p, p + 1, []);
  }

  lemma BlockRejects(input: string, p: nat)
    requires OpensAt(input, p) && Unclosed(input, p + 9)
    ensures Rejects(input, Sequence(BlockParts()), p)
  {
    var fs := [Bind(STATEMENTS)] + BlockEnd();
    OpensPieces(input, p);
    UnclosedRejects(input, p + 9);
    BlockStartRejects(input, p, fs);
    assert BlockParts() == [Literal(':')] + ([Unbind(BLANK)] + Indented(fs));
  }

  lemma NamedBlockRejects(input: string, p: nat, name: string)
    requires NameAt(input, p, name) && OpensAt(input, p + |name|) && Unclosed(input, p + |name| + 9)
    ensures Rejects(input, Sequence([Bind(NAME)] + ([Unbind(BLANK)] + BlockParts())), p)
  {
    var mid := p + |name|;
    BlockRejects(input, mid);
    AtChar(input, mid, ":\nINDENT\n", 0);
    SpacesRead(input, mid, "");
    ThenRejects(input, Unbind(BLANK), BlockParts(), mid, mid, []);
    NameReads(input, p, name);
    ThenRejects(input, Bind(NAME), [Unbind(BLANK)] + BlockParts(), p, mid, [NameTree(name)]);
  }

  lemma WordBlockRejects(input: string, p: nat, word: string, name: string)
    requires At(input, p, word) && At(input, p + |word|, " ") && NameAt(input, p + |word| + 1, name)
    requires OpensAt(input, p + |word| + 1 + |name|) && Unclosed(input, p + |word| + 10 + |name|)
    ensures Rejects(input, Sequence(WordBlock(word)), p)
  {
    var mid, fs := p + |word|, [Bind(NAME)] + ([Unbind(BLANK)] + BlockParts());
    NamedBlockRejects(input, mid + 1, name);
    AtChar(input, mid + 1, name, 0);
    SpacesRead(input, mid, " ");
    ThenRejects(input, Unbind(BLANK), fs, mid, mid + 1, []);
    WordReads(input, p, word);
    ThenRejects(input, LiteralString(word), [Unbind(BLANK)] + fs, p, mid, []);
  }

  lemma IfRejects(input: string, p: nat, name: string)
    requires At(input, p, "if") && At(input, p + 2, " ") && NameAt(input, p + 3, name)
    requires OpensAt(input, p + 3 + |name|) && Unclosed(input, p + 12 + |name|)
    ensures Rejects(input, Bind(IF_STMT), p)
  {
    WordBlockRejects(input, p, "if", name);
    IfRule();
    SequenceRuleRejects(input, IF_STMT, 9, WordBlock("if"), p);
  }

  lemma GroupRuleRejects(input: string, p: nat)
    requires Rejects(input, Sequence([Bind(NAME)] + ([Unbind(BLANK)] + WordBlock("while"))), p)
    ensures Rejects(input, Bind(PROCS), p)
  {
    GroupList();
    GroupRule();
    SequenceRuleRejects(input, PROCS, 5, GroupParts(), p);
  }

  lemma ControlRejects(input: string, p: nat, control: string)
    requires At(input, p, " ") && At(input, p + 1, "while") && At(input, p + 6, " ") && NameAt(input, p + 7, control)
    requires OpensAt(input, p + 7 + |control|) && Unclosed(input, p + 16 + |control|)
    ensures Rejects(input, Sequence([Unbind(BLANK)] + WordBlock("while")), p)
  {
    WordBlockRejects(input, p + 1, "while", control);
    AtChar(input, p + 1, "while", 0);
    SpacesRead(input, p, " ");
    ThenRejects(input, Unbind(BLANK), WordBlock("while"), p, p + 1, []);
  }

  lemma GroupRejects(input: string, p: nat, name: string, control: string)
    requires NameAt(input, p, name) && At(input, p + |name|, " ") && At(input, p + |name| + 1, "while")
    requires At(input, p + |name| + 6, " ") && NameAt(input, p + |name| + 7, control)
    requires OpensAt(input, p + |name| + 7 + |control|) && Unclosed(input, p + |name| + 16 + |control|)
    ensures Rejects(input, Bind(PROCS), p)
  {
    var mid := p + |name|;
    ControlRejects(input, mid, control);
    NameReads(input, p, name);
    ThenRejects(input, Bind(NAME), [Unbind(BLANK)] + WordBlock("while"), p, mid, [NameTree(name)]);
    GroupRuleRejects(input, p);
  }

  // Statements that fail.

  /** Blanks, and behind them neither a call nor a condition that can be read. */
  lemma PaddedRejects(input: string, p: nat, pad: string)
    requires IsPad(pad) && At(input, p, pad) && LetterAt(input, p + |pad|)
    requires Rejects(input, CallOrIf(), p + |pad|)
    ensures Rejects(input, StatementItem(), p)
  {
    var mid := p + |pad|;
    AtChar(input, p, pad, 0);
    NoIndentReads(input, p);
    SpacesRead(input, p, pad);
    ThirdRejects(input, [NoIndent(), Unbind(BLANK), CallOrIf()], p, p, mid);
    SequenceRuleRejects(input, STATEMENT, 7, [NoIndent(), Unbind(BLANK), CallOrIf()], p);
    ItemRejects(input, Bind(STATEMENT), p);
    NewlineReads(input, mid);
    FirstRejects(input, Unbind(NL), [], mid);
    ThenRejects(input, Unbind(BLANK), [Unbind(NL)] + [], p, mid, []);
    assert [Unbind(BLANK)] + ([Unbind(NL)] + []) == [Unbind(BLANK), Unbind(NL)];
    ChoiceKo(Rule, input, StatementItem().fs, p);
  }

  lemma NoEndHere(input: string, p: nat)
    requires p <= |input| && (At(input, p, "DEDENT") ==> !LineEndAt(input, p + 6))
    ensures Rejects(input, Sequence(BlockEnd()), p)
  {
    TokenReads(input, p, DEDENT, 26, "DEDENT");
    assert BlockEnd() == [Unbind(DEDENT)] + ([Unbind(NL)] + [Empty]);
    if At(input, p, "DEDENT") {
      NewlineReads(input, p + 6);
      FirstRejects(input, Unbind(NL), [Empty], p + 6);
      ThenRejects(input, Unbind(DEDENT), [Unbind(NL)] + [Empty], p, p + 6, []);
    } else {
      FirstRejects(input, Unbind(DEDENT), [Unbind(NL)] + [Empty], p);
    }
  }

  function IfHeadText(s: Statement): string
    requires s.IfOf?
  {
    s.pad + ("if " + (s.name + ":\nINDENT\n"))
  }

  /** A condition whose block gets fewer ends than it needs. */
  lemma UnclosedIf(input: string, p: nat, s: Statement, next: nat)
    requires s.IfOf? && StatementOk(s) && At(input, p, IfHeadText(s)) && next == p + |IfHeadText(s)|
    requires NoReturnAt(input, next) && Unclosed(input, next)
    ensures Blocked(input, p)
  {
    var mid := p + |s.pad|;
    AtJoin(input, p, s.pad, "if " + (s.name + ":\nINDENT\n"));
    UnclosedCondition(input, mid, s.name);
    PaddedRejects(input, p, s.pad);
    AtChar(input, p, s.pad, 0);
    FirstChar(input, p, "DEDENT");
    NoEndHere(input, p);
  }

  lemma UnclosedCondition(input: string, p: nat, name: string)
    requires IsName(name) && At(input, p, "if " + (name + ":\nINDENT\n"))
    requires NoReturnAt(input, p + 12 + |name|) && Unclosed(input, p + 12 + |name|)
    ensures Rejects(input, CallOrIf(), p) && LetterAt(input, p)
  {
    IfHead(input, p, name);
    IfRejects(input, p, name);
    NoCallAtIf(input, p, name);
    ChoiceKo(Rule, input, [Bind(CALL), Bind(IF_STMT)], p);
    AtChar(input, p, "if", 0);
  }

  lemma IfHead(input: string, p: nat, name: string)
    requires IsName(name) && At(input, p, "if " + (name + ":\nINDENT\n"))
    ensures At(input, p, "if") && At(input, p + 2, " ") && NameAt(input, p + 3, name)
    ensures At(input, p + 3 + |name|, ":\nINDENT\n")
  {
    AtJoin(input, p, "if ", name + ":\nINDENT\n");
    assert "if " == "if" + " ";
    AtJoin(input, p, "if", " ");
    AtJoin(input, p + 3, name, ":\nINDENT\n");
    AtChar(input, p + 3 + |name|, ":\nINDENT\n", 0);
  }

  /** A body, up to where its last statement fails. */
  lemma BodyStops(input: string, p: nat, init: seq<Statement>)
    requires StatementsOk(init) && At(input, p, PrintAll(init)) && Blocked(input, p + |PrintAll(init)|)
    ensures Unclosed(input, p)
  {
    var mid := p + |PrintAll(init)|;
    var ends, vals := PrintedStatements(input, p, init);
    RunEnds(input, StatementItem(), ends, vals, p, mid);
    MemoizeLaw(Rule, input, 6, Some(StatementItem()), p);
    if init == [] {
      SomeKo(Rule, input, StatementItem(), p);
      RuleRejects(input, STATEMENTS, p);
    } else {
      RuleGives(input, STATEMENTS, p, mid, Row(vals));
      assert Reads(input, Bind(STATEMENTS), p, mid, [Node(STATEMENTS, Row(vals))]);
    }
  }

  // The text of a body whose last blocks are open.

  lemma {:induction false} OpenLast(ss: seq<Statement>)
    requires ss != []
    ensures DepthAll(ss) == Depth(ss[|ss| - 1])
    ensures Unlines(OpenAll(true, ss)) == PrintAll(ss[..|ss| - 1]) + Unlines(Open(true, ss[|ss| - 1]))
  {
    var init, s := ss[..|ss| - 1], ss[|ss| - 1];
    if |ss| == 1 {
      assert init == [];
    } else {
      var rest := ss[1..];
      OpenLast(rest);
      PrintsAs(ss[0]);
      PrintAllFirst(init);
      assert init[1..] == rest[..|rest| - 1];
      UnlinesThree(Open(true, ss[0]), Dedents(Depth(ss[0])), OpenAll(true, rest));
      Regroup(Print(ss[0]), PrintAll(init[1..]), Unlines(Open(true, s)));
    }
  }

  lemma UnlinesThree(a: seq<string>, b: seq<string>, c: seq<string>)
    ensures Unlines(a + (b + c)) == Unlines(a + b) + Unlines(c)
  {
    assert a + (b + c) == (a + b) + c;
    UnlinesJoin(a + b, c);
  }

  /** The line that opens a block, and the body behind it. */
  lemma OpenText(head: string, body: seq<Statement>)
    ensures Unlines([head + ":"] + (["INDENT"] + OpenAll(true, body))) ==
      (head + ":\nINDENT\n") + Unlines(OpenAll(true, body))
  {
    var text := Unlines(OpenAll(true, body));
    UnlinesHead(head + ":", ["INDENT"] + OpenAll(true, body));
    UnlinesHead("INDENT", OpenAll(true, body));
    HeadText(head, text);
  }

  lemma HeadText(head: string, text: string)
    ensures (head + ":") + ("\n" + ("INDENT" + ("\n" + text))) == (head + ":\nINDENT\n") + text
  {
  }

  lemma BodyStarts(body: seq<Statement>)
    requires body != [] && StatementsOk(body)
    ensures var text := Unlines(OpenAll(true, body));
      text != "" && text[0] != '\r'
  {
    FirstStatement(body);
    var ls := OpenAll(true, body);
    var line := Open(true, body[0])[0];
    assert ls[0] == line && line[0] == body[0].pad[0];
    assert Unlines(ls) == ls[0] + ("\n" + Unlines(ls[1..]));
  }

  /** A body, and some of the ends that it needs, up to `q`. */
  predicate BodyAt(input: string, p: nat, ss: seq<Statement>, k: nat, q: nat) {
    var text := Unlines(OpenAll(true, ss)) + Unlines(Dedents(k));
    At(input, p, text) && q == p + |text|
  }

  predicate StatementAt(input: string, p: nat, s: Statement, k: nat, q: nat) {
    var text := Unlines(Open(true, s)) + Unlines(Dedents(k));
    At(input, p, text) && q == p + |text|
  }

  lemma WholeBodyStops(input: string, p: nat, ss: seq<Statement>, q: nat)
    requires StatementsOk(ss) && BodyAt(input, p, ss, DepthAll(ss), q) && Blocked(input, q)
    ensures Unclosed(input, p)
  {
    UnlinesJoin(OpenAll(true, ss), Dedents(DepthAll(ss)));
    PrintsAllAs(ss);
    BodyStops(input, p, ss);
  }

  /** The last statement of such a body behind the others. */
  lemma LastStands(input: string, p: nat, ss: seq<Statement>, k: nat, q: nat)
    returns (init: seq<Statement>, s: Statement, mid: nat)
    requires ss != [] && StatementsOk(ss) && BodyAt(input, p, ss, k, q)
    ensures s == ss[|ss| - 1] && StatementsOk(init) && StatementOk(s) && DepthAll(ss) == Depth(s)
    ensures At(input, p, PrintAll(init)) && mid == p + |PrintAll(init)| && StatementAt(input, mid, s, k, q)
  {
    init, s := ss[..|ss| - 1], ss[|ss| - 1];
    mid := p + |PrintAll(init)|;
    var last, ends := Unlines(Open(true, s)), Unlines(Dedents(k));
    OpenLast(ss);
    Regroup(PrintAll(init), last, ends);
    AtJoin(input, p, PrintAll(init), last + ends);
  }

  lemma OpenIfText(s: Statement)
    requires s.IfOf?
    ensures Unlines(Open(true, s)) == IfHeadText(s) + Unlines(OpenAll(true, s.body))
  {
    Regroup(s.pad, "if " + s.name, ":");
    Regroup("if ", s.name, ":");
    Regroup(s.pad, "if " + s.name, ":\nINDENT\n");
    Regroup("if ", s.name, ":\nINDENT\n");
    OpenText(s.pad + ("if " + s.name), s.body);
  }

  lemma BodyBegins(input: string, p: nat, ss: seq<Statement>, k: nat, q: nat)
    requires ss != [] && StatementsOk(ss) && BodyAt(input, p, ss, k, q)
    ensures NoReturnAt(input, p)
  {
    BodyStarts(ss);
    AtChar(input, p, Unlines(OpenAll(true, ss)) + Unlines(Dedents(k)), 0);
  }

  /** A condition, and its body behind it. */
  lemma ConditionStands(input: string, p: nat, s: Statement, k: nat, q: nat) returns (next: nat)
    requires s.IfOf? && StatementOk(s) && StatementAt(input, p, s, k, q)
    ensures At(input, p, IfHeadText(s)) && next == p + |IfHeadText(s)|
    ensures BodyAt(input, next, s.body, k, q) && NoReturnAt(input, next)
  {
    var line, body, ends := IfHeadText(s), Unlines(OpenAll(true, s.body)), Unlines(Dedents(k));
    next := p + |line|;
    OpenIfText(s);
    Regroup(line, body, ends);
    AtJoin(input, p, line, body + ends);
    BodyBegins(input, next, s.body, k, q);
  }

  lemma {:induction false} UnclosedStatement(input: string, p: nat, s: Statement, k: nat, q: nat)
    requires StatementOk(s) && k < Depth(s) && StatementAt(input, p, s, k, q) && Blocked(input, q)
    ensures Blocked(input, p)
    decreases s, 0
  {
    var next := ConditionStands(input, p, s, k, q);
    UnclosedBody(input, next, s.body, k, q);
    UnclosedIf(input, p, s, next);
  }

  lemma {:induction false} UnclosedBody(input: string, p: nat, ss: seq<Statement>, k: nat, q: nat)
    requires ss != [] && StatementsOk(ss) && k <= DepthAll(ss) && BodyAt(input, p, ss, k, q) && Blocked(input, q)
    ensures Unclosed(input, p)
    decreases ss, 1
  {
    if k == DepthAll(ss) {
      WholeBodyStops(input, p, ss, q);
    } else {
      var init, s, mid := LastStands(input, p, ss, k, q);
      UnclosedStatement(input, mid, s, k, q);
      BodyStops(input, p, init);
    }
  }

  // The line of a puppet or a group is no statement, and no end.

  /** What a puppet or a group has behind its name and a space. */
  predicate PartMarkAt(input: string, p: nat) {
    p < |input| && (input[p] == '=' || (At(input, p, "while ") && LetterAt(input, p + 6)))
  }

  lemma MarkIs(input: string, p: nat)
    requires PartMarkAt(input, p)
    ensures input[p] == '=' || input[p] == 'w'
  {
    FirstChar(input, p, "while ");
  }

  predicate PartLineAt(input: string, p: nat, name: string) {
    NameAt(input, p, name) && At(input, p + |name|, " ") && PartMarkAt(input, p + |name| + 1)
  }

  lemma NoBlockHere(input: string, p: nat)
    requires p < |input| && input[p] != ':'
    ensures Rejects(input, Sequence(BlockParts()), p)
  {
    LiteralTakes(input, ':', p);
    FirstRejects(input, Literal(':'), [Unbind(BLANK)] + Indented([Bind(STATEMENTS)] + BlockEnd()), p);
    assert BlockParts() == [Literal(':')] + ([Unbind(BLANK)] + Indented([Bind(STATEMENTS)] + BlockEnd()));
  }

  function NameBlock(): seq<Comb> {
    [Bind(NAME)] + ([Unbind(BLANK)] + BlockParts())
  }

  /** A name with a space behind it and no colon after that. */
  lemma NamedRejects(input: string, p: nat, name: string)
    requires NameAt(input, p, name) && At(input, p + |name|, " ")
    requires LetterAt(input, p + |name| + 1) || PartMarkAt(input, p + |name| + 1)
    ensures Rejects(input, Sequence(NameBlock()), p)
  {
    if PartMarkAt(input, p + |name| + 1) { MarkIs(input, p + |name| + 1); }
    var mid := p + |name|;
    NoBlockHere(input, mid + 1);
    SpacesRead(input, mid, " ");
    ThenRejects(input, Unbind(BLANK), BlockParts(), mid, mid + 1, []);
    NameReads(input, p, name);
    ThenRejects(input, Bind(NAME), [Unbind(BLANK)] + BlockParts(), p, mid, [NameTree(name)]);
  }

  lemma NamelessBlock(input: string, p: nat)
    requires p <= |input| && !LetterAt(input, p)
    ensures Rejects(input, Sequence(NameBlock()), p)
  {
    NameRejects(input, p);
    FirstRejects(input, Bind(NAME), [Unbind(BLANK)] + BlockParts(), p);
  }

  /** No condition, even where the line begins with `if`. */
  lemma NoIfHere(input: string, p: nat, name: string)
    requires PartLineAt(input, p, name)
    ensures Rejects(input, Bind(IF_STMT), p)
  {
    WordReads(input, p, "if");
    if At(input, p, "if") {
      BeginsIf(input, p, name);
      IfNameRejects(input, p + 2, name[2..]);
      ThenRejects(input, LiteralString("if"), [Unbind(BLANK)] + NameBlock(), p, p + 2, []);
    } else {
      FirstRejects(input, LiteralString("if"), [Unbind(BLANK)] + NameBlock(), p);
    }
    IfRule();
    SequenceRuleRejects(input, IF_STMT, 9, WordBlock("if"), p);
  }

  lemma BeginsIf(input: string, p: nat, name: string)
    requires NameAt(input, p, name) && At(input, p + |name|, " ") && At(input, p, "if")
    ensures |name| >= 2 && At(input, p + 2, name[2..]) && forall i :: 2 <= i < |name| ==> InName(name[i])
  {
    AtChar(input, p, "if", 1);
    AtChar(input, p + |name|, " ", 0);
    assert |name| != 1;
    AtJoin(input, p, name[..2], name[2..]);
    assert name[..2] + name[2..] == name;
  }

  /** What stands behind an `if` that begins a name: the rest of the name. */
  lemma IfNameRejects(input: string, p: nat, rest: string)
    requires At(input, p, rest) && (forall i :: 0 <= i < |rest| ==> InName(rest[i])) && At(input, p + |rest|, " ")
    requires PartMarkAt(input, p + |rest| + 1)
    ensures Rejects(input, Sequence([Unbind(BLANK)] + NameBlock()), p)
  {
    var q := p + |rest| + 1;
    AtChar(input, q - 1, " ", 0);
    MarkIs(input, q);
    if rest == "" {
      SpacesRead(input, p, " ");
      AfterIf(input, q);
      ThenRejects(input, Unbind(BLANK), NameBlock(), p, q, []);
    } else {
      AtChar(input, p, rest, 0);
      SpacesRead(input, p, "");
      if IsLetter(rest[0]) { NamedRejects(input, p, rest); } else { NamelessBlock(input, p); }
      ThenRejects(input, Unbind(BLANK), NameBlock(), p, p, []);
    }
  }

  lemma AfterIf(input: string, p: nat)
    requires PartMarkAt(input, p)
    ensures Rejects(input, Sequence(NameBlock()), p)
  {
    if input[p] == '=' {
      NamelessBlock(input, p);
    } else {
      assert "while " == "while" + " ";
      AtJoin(input, p, "while", " ");
      AtChar(input, p + 5, " ", 0);
      NamedRejects(input, p, "while");
    }
  }

  lemma NoStatementHere(input: string, p: nat, name: string)
    requires PartLineAt(input, p, name)
    ensures Rejects(input, Bind(STATEMENT), p)
  {
    var mid := p + |name|;
    var f, fs := Choice([Unbind(INDENT), Unbind(DEDENT)]), [NoIndent(), Unbind(BLANK), CallOrIf()];
    AtChar(input, p, name, 0);
    MarkIs(input, mid + 1);
    CallRejects(input, p, name, " ");
    NoIfHere(input, p, name);
    ChoiceKo(Rule, input, [Bind(CALL), Bind(IF_STMT)], p);
    SpacesRead(input, p, "");
    FirstRejects(input, CallOrIf(), [], p);
    ThenRejects(input, Unbind(BLANK), [CallOrIf()] + [], p, p, []);
    TokenOrNot(input, p);
    if Rejects(input, NoIndent(), p) {
      FirstRejects(input, NoIndent(), [Unbind(BLANK)] + ([CallOrIf()] + []), p);
    } else {
      ThenRejects(input, NoIndent(), [Unbind(BLANK)] + ([CallOrIf()] + []), p, p, []);
    }
    assert fs == [NoIndent()] + ([Unbind(BLANK)] + ([CallOrIf()] + []));
    SequenceRuleRejects(input, STATEMENT, 7, fs, p);
  }

  lemma TokenOrNot(input: string, p: nat)
    requires p <= |input|
    ensures Rejects(input, NoIndent(), p) || Reads(input, NoIndent(), p, p, [])
  {
    var fs := [Unbind(INDENT), Unbind(DEDENT)];
    TokenReads(input, p, INDENT, 25, "INDENT");
    TokenReads(input, p, DEDENT, 26, "DEDENT");
    if At(input, p, "INDENT") {
      ChoiceOk(Rule, input, fs, 0, p, p + 6);
    } else if At(input, p, "DEDENT") {
      ChoiceOk(Rule, input, fs, 1, p, p + 6);
    } else {
      ChoiceKo(Rule, input, fs, p);
    }
    LookLaw(Rule, input, Choice(fs), p);
  }

  lemma PartBlocks(input: string, p: nat, name: string)
    requires PartLineAt(input, p, name)
    ensures Blocked(input, p)
  {
    AtChar(input, p, name, 0);
    NoStatementHere(input, p, name);
    ItemRejects(input, Bind(STATEMENT), p);
    BlankLineRejects(input, p);
    ChoiceKo(Rule, input, StatementItem().fs, p);
    if At(input, p, "DEDENT") { NoLineEnd(input, p, name); }
    NoEndHere(input, p);
  }

  /** Where the token would end, the line of a part goes on. */
  lemma NoLineEnd(input: string, p: nat, name: string)
    requires PartLineAt(input, p, name) && At(input, p, "DEDENT")
    ensures !LineEndAt(input, p + 6)
  {
    var mid := p + |name|;
    AtChar(input, mid, " ", 0);
    if |name| > 6 {
      AtChar(input, p, name, 6);
    } else if |name| < 6 {
      AtChar(input, p, "DEDENT", |name|);
    }
  }

  // Scripts with such a group.

  function GroupHead(name: string, control: string): string {
    name + (" while " + (control + ":\nINDENT\n"))
  }

  lemma OpenGroupText(name: string, control: string, body: seq<Statement>)
    ensures Unlines(OpenPart(true, GroupPart(name, control, body))) ==
      GroupHead(name, control) + Unlines(OpenAll(true, body))
  {
    Regroup(name, " while " + control, ":");
    Regroup(" while ", control, ":");
    Regroup(name, " while " + control, ":\nINDENT\n");
    Regroup(" while ", control, ":\nINDENT\n");
    OpenText(name + (" while " + control), body);
  }

  lemma GroupHeadAt(input: string, p: nat, name: string, control: string)
    requires IsName(name) && IsName(control) && At(input, p, GroupHead(name, control))
    ensures NameAt(input, p, name) && At(input, p + |name|, " ") && At(input, p + |name| + 1, "while")
    ensures At(input, p + |name| + 6, " ") && NameAt(input, p + |name| + 7, control)
    ensures At(input, p + |name| + 7 + |control|, ":\nINDENT\n")
  {
    var mid, block := p + |name|, ":\nINDENT\n";
    WhileText(control + block);
    MarkedAt(input, p, name, "while " + (control + block));
    ControlAt(input, mid + 1, control, block);
  }

  /** A group that gets only some of the ends it needs is nothing that a script can have. */
  lemma UnclosedGroup(input: string, p: nat, name: string, control: string)
    requires IsName(name) && IsName(control) && At(input, p, GroupHead(name, control))
    requires var next := p + |GroupHead(name, control)|;
      NoReturnAt(input, next) && Unclosed(input, next)
    ensures Rejects(input, ScriptItem(), p)
  {
    GroupHeadAt(input, p, name, control);
    GroupRejects(input, p, name, control);
    PuppetRejects(input, p, name);
    AtChar(input, p, name, 0);
    NoItemHere(input, p);
  }

  lemma NoItemHere(input: string, p: nat)
    requires LetterAt(input, p) && Rejects(input, Bind(PUPPET), p) && Rejects(input, Bind(PROCS), p)
    ensures Rejects(input, ScriptItem(), p)
  {
    ItemRejects(input, Bind(PUPPET), p);
    ItemRejects(input, Bind(PROCS), p);
    BlankLineRejects(input, p);
    ChoiceKo(Rule, input, ScriptItem().fs, p);
  }

  lemma {:induction false} OpenScriptJoin(all: bool, b: seq<Part>, c: seq<Part>)
    requires b != [] && c != []
    ensures OpenScript(all, b + c) == OpenScript(all, b) + (Ends(all, ScriptDepth(b)) + OpenScript(all, c))
  {
    assert (b + c)[1..] == b[1..] + c;
    if |b| == 1 {
      assert b[1..] + c == c;
    } else {
      var open, ends := OpenPart(all, b[0]), Ends(all, PartDepth(b[0]));
      OpenScriptJoin(all, b[1..], c);
      RegroupLines(open, ends, OpenScript(all, b[1..]), Ends(all, ScriptDepth(b)) + OpenScript(all, c));
    }
  }

  lemma RegroupLines(a: seq<string>, b: seq<string>, c: seq<string>, d: seq<string>)
    ensures (a + (b + c)) + d == a + (b + (c + d))
  {
  }

  lemma {:induction false} ShallowFront(b: seq<Part>, c: seq<Part>)
    requires ShallowScript(b + c) && c != []
    ensures ShallowScript(b) && ShallowScript(c) && ScriptDepth(b) <= 1
    ensures ScriptDepth(b + c) == ScriptDepth(c)
  {
    if b == [] {
      assert b + c == c;
    } else {
      assert (b + c)[1..] == b[1..] + c;
      ShallowFront(b[1..], c);
    }
  }

  /** The text of the first parts, and of the group behind them. */
  lemma TextToGroup(before: seq<Part>, group: Part)
    requires ShallowScript(before + [group])
    ensures Unlines(OpenScript(false, before + [group])) == PrintScript(before) + Unlines(OpenPart(true, group))
    ensures ScriptDepth(before + [group]) == PartDepth(group)
  {
    ShallowFront(before, [group]);
    ScriptSame([group]);
    if before == [] {
      assert before + [group] == [group];
    } else {
      OpenScriptJoin(false, before, [group]);
      ScriptSame(before);
      ScriptPrintsAs(before);
      UnlinesThree(OpenScript(true, before), Dedents(ScriptDepth(before)), OpenPart(true, group));
    }
  }

  /** The text of a group with one end. */
  function OpenGroup(group: Part): string {
    Unlines(OpenPart(true, group)) + Unlines(Dedents(1))
  }

  function RestText(rest: seq<Part>, n: nat): string {
    Unlines(OpenScript(false, rest) + Dedents(n))
  }

  /** The text that the loop over the lines writes, when it writes one end behind the group. */
  lemma TextOfTokens(before: seq<Part>, group: Part, rest: seq<Part>, n: nat)
    requires ShallowScript(before + [group]) && PartDepth(group) > 1 && rest != []
    ensures Unlines(OpenScript(false, (before + [group]) + rest) + Dedents(n)) ==
      PrintScript(before) + (OpenGroup(group) + RestText(rest, n))
  {
    var b, tail := before + [group], OpenScript(false, rest) + Dedents(n);
    OpenScriptJoin(false, b, rest);
    TextToGroup(before, group);
    var open := OpenScript(false, b);
    RegroupLines(open, Dedents(1), OpenScript(false, rest), Dedents(n));
    UnlinesThree(open, Dedents(1), tail);
    UnlinesJoin(open, Dedents(1));
    RegroupTexts(PrintScript(before), Unlines(OpenPart(true, group)), Unlines(Dedents(1)), Unlines(tail));
  }

  lemma RegroupTexts(a: string, b: string, c: string, d: string)
    ensures ((a + b) + c) + d == a + ((b + c) + d)
  {
  }

  /** The first line of the parts behind the group. */
  lemma RestBlocks(input: string, p: nat, rest: seq<Part>, n: nat)
    requires rest != [] && ScriptOk(rest) && !rest[0].Remark?
    requires At(input, p, RestText(rest, n))
    ensures Blocked(input, p)
  {
    var part, ls := rest[0], OpenScript(false, rest) + Dedents(n);
    FirstPart(rest);
    assert ls[0] == OpenPart(false, part)[0];
    AtJoin(input, p, ls[0], "\n" + Unlines(ls[1..]));
    PartLineStands(input, p, part);
    PartBlocks(input, p, part.name);
  }

  lemma PartLineStands(input: string, p: nat, part: Part)
    requires PartOk(part) && !part.Remark? && At(input, p, OpenPart(false, part)[0])
    ensures PartLineAt(input, p, part.name)
  {
    match part
    case PuppetPart(name, command, tail) => PuppetLineStands(input, p, name, command + tail);
    case GroupPart(name, control, body) => GroupLineStands(input, p, name, control);
  }

  lemma PuppetLineStands(input: string, p: nat, name: string, text: string)
    requires IsName(name) && At(input, p, name + (" = " + text))
    ensures PartLineAt(input, p, name)
  {
    assert " = " + text == " " + ("= " + text);
    MarkedAt(input, p, name, "= " + text);
    AtChar(input, p + |name| + 1, "= " + text, 0);
  }

  lemma GroupLineStands(input: string, p: nat, name: string, control: string)
    requires IsName(name) && IsName(control) && At(input, p, name + (" while " + (control + ":")))
    ensures PartLineAt(input, p, name)
  {
    WhileText(control + ":");
    MarkedAt(input, p, name, "while " + (control + ":"));
    AtJoin(input, p + |name| + 1, "while ", control + ":");
    AtChar(input, p + |name| + 7, control + ":", 0);
  }

  /** Where two blocks end at once before a puppet or another group, the group that they end is lost, and with it
      all that comes after it; yet the parse succeeds. */
  lemma GroupIsLost(before: seq<Part>, group: Part, rest: seq<Part>)
    requires var parts := (before + [group]) + rest;
      ScriptOk(parts) && LaidScript(parts) && ShallowScript(before + [group])
    requires PartDepth(group) > 1 && rest != [] && !rest[0].Remark?
    ensures var text := Unlines(TokenLines(Unlines(ScriptLines((before + [group]) + rest))));
      Reads(text, Bind(SCRIPT), 0, |PrintScript(before)|, [Node(SCRIPT, ScriptTrees(before))])
  {
    var parts := (before + [group]) + rest;
    var n := TokensAre(parts);
    TextOfTokens(before, group, rest, n);
    SplitOk(before + [group], rest);
    SplitOk(before, [group]);
    FirstPart([group]);
    LostIn(Unlines(TokenLines(Unlines(ScriptLines(parts)))), before, group, rest, n);
  }

  lemma {:induction false} SplitOk(b: seq<Part>, c: seq<Part>)
    requires ScriptOk(b + c)
    ensures ScriptOk(b) && ScriptOk(c)
  {
    if b == [] {
      assert b + c == c;
    } else {
      FirstPart(b + c);
      assert (b + c)[1..] == b[1..] + c;
      SplitOk(b[1..], c);
      AddFirst(b);
    }
  }

  lemma {:induction false} AddFirst(b: seq<Part>)
    requires b != [] && PartOk(b[0]) && ScriptOk(b[1..])
    ensures ScriptOk(b)
  {
    if |b| == 1 {
      assert b[..0] == [];
    } else {
      var init := b[..|b| - 1];
      assert init[1..] == b[1..][..|b| - 2];
      AddFirst(init);
    }
  }

  lemma TextPieces(a: string, b: string, c: string)
    ensures var text := a + (b + c);
      At(text, 0, a) && At(text, |a|, b) && At(text, |a| + |b|, c)
  {
    var text := a + (b + c);
    assert At(text, 0, text);
    AtJoin(text, 0, a, b + c);
    AtJoin(text, |a|, b, c);
  }

  /** Behind any text, the group is no item. */
  lemma GroupStops(a: string, group: Part, rest: seq<Part>, n: nat)
    requires PartOk(group) && ScriptOk(rest) && rest != [] && !rest[0].Remark?
    requires group.GroupPart? && DepthAll(group.body) >= 1
    ensures var text := a + (OpenGroup(group) + RestText(rest, n));
      At(text, 0, a) && NoReturnAt(text, |a|) && Rejects(text, ScriptItem(), |a|)
  {
    var open, tail := OpenGroup(group), RestText(rest, n);
    var text, q := a + (open + tail), |a| + |open|;
    TextPieces(a, open, tail);
    RestBlocks(text, q, rest, n);
    GroupRejected(text, |a|, group, q);
  }

  lemma LostIn(text: string, before: seq<Part>, group: Part, rest: seq<Part>, n: nat)
    requires ScriptOk(before) && PartOk(group) && ScriptOk(rest)
    requires group.GroupPart? && DepthAll(group.body) >= 1 && rest != [] && !rest[0].Remark?
    requires text == PrintScript(before) + (OpenGroup(group) + RestText(rest, n))
    ensures Reads(text, Bind(SCRIPT), 0, |PrintScript(before)|, [Node(SCRIPT, ScriptTrees(before))])
  {
    GroupStops(PrintScript(before), group, rest, n);
    ScriptStops(text, before);
  }

  lemma OpenGroupIs(group: Part)
    requires group.GroupPart?
    ensures OpenGroup(group) ==
      GroupHead(group.name, group.control) + (Unlines(OpenAll(true, group.body)) + Unlines(Dedents(1)))
  {
    OpenGroupText(group.name, group.control, group.body);
    Regroup(GroupHead(group.name, group.control), Unlines(OpenAll(true, group.body)), Unlines(Dedents(1)));
  }

  lemma OpenGroupAt(input: string, p: nat, group: Part)
    requires group.GroupPart? && At(input, p, OpenGroup(group))
    ensures var head := GroupHead(group.name, group.control);
      At(input, p, head) && BodyAt(input, p + |head|, group.body, 1, p + |OpenGroup(group)|)
  {
    var head, rest := GroupHead(group.name, group.control), Unlines(OpenAll(true, group.body)) + Unlines(Dedents(1));
    OpenGroupIs(group);
    AtJoin(input, p, head, rest);
  }

  lemma BodyUnclosed(input: string, p: nat, body: seq<Statement>, q: nat)
    requires body != [] && StatementsOk(body) && DepthAll(body) >= 1
    requires BodyAt(input, p, body, 1, q) && Blocked(input, q)
    ensures NoReturnAt(input, p) && Unclosed(input, p)
  {
    BodyBegins(input, p, body, 1, q);
    UnclosedBody(input, p, body, 1, q);
  }

  lemma HeadBegins(input: string, p: nat, name: string, control: string)
    requires IsName(name) && At(input, p, GroupHead(name, control))
    ensures NoReturnAt(input, p)
  {
    AtChar(input, p, GroupHead(name, control), 0);
  }

  lemma OpenGroupRejected(input: string, p: nat, name: string, control: string, next: nat)
    requires IsName(name) && IsName(control) && At(input, p, GroupHead(name, control))
    requires next == p + |GroupHead(name, control)| && NoReturnAt(input, next) && Unclosed(input, next)
    ensures Rejects(input, ScriptItem(), p) && NoReturnAt(input, p)
  {
    HeadBegins(input, p, name, control);
    UnclosedGroup(input, p, name, control);
  }

  lemma GroupRejected(input: string, p: nat, group: Part, q: nat)
    requires group.GroupPart? && PartOk(group) && DepthAll(group.body) >= 1
    requires At(input, p, OpenGroup(group)) && q == p + |OpenGroup(group)| && Blocked(input, q)
    ensures Rejects(input, ScriptItem(), p) && NoReturnAt(input, p)
  {
    var next := p + |GroupHead(group.name, group.control)|;
    OpenGroupAt(input, p, group);
    BodyUnclosed(input, next, group.body, q);
    OpenGroupRejected(input, p, group.name, group.control, next);
  }

  /** Parsing a script never fails: what cannot be read ends it. */
  lemma ScriptNeverFails(input: string)
    ensures var d := Denote(Rule, input, Bind(SCRIPT), 0);
      d.Done? && d.ok
  {
    var n := HwlEnds(input, SCRIPT);
    assert Eval(Rule, input, Bind(SCRIPT), 0, n).Done?;
    BindLaw(Rule, input, SCRIPT, 0);
    MemoizeLaw(Rule, input, 1, Many(ScriptItem()), 0);
    DenoteStep(Rule, input, Many(ScriptItem()), 0);
  }

  /** A puppet, and a group in front of it whose last statement is a condition. */
  const LOST := [
    GroupPart("a", "b", [IfOf(" ", "c", [CallOf("  ", false, "d")])]),
    PuppetPart("e", "f", "")]

  lemma LostIsOk()
    ensures ScriptOk(LOST) && LaidScript(LOST) && ShallowScript([] + [LOST[0]]) && PartDepth(LOST[0]) > 1
  {
    var s := IfOf(" ", "c", [CallOf("  ", false, "d")]);
    assert s.body[..0] == [] && s.body[1..] == [] && LaidAll([], 2);
    assert StatementsOk(s.body) && LaidAll(s.body, 2) && ShallowAll(s.body);
    assert LOST[0].body == [s] && [s][..0] == [] && [s][1..] == [];
    assert StatementsOk([s]) && LaidAll([s], 1) && ShallowAll([s]) && DepthAll([s]) == 1;
    assert PartOk(LOST[0]) && PartOk(LOST[1]);
    assert LOST[..1] == [LOST[0]] && LOST[..1][..0] == [] && LOST[1..] == [LOST[1]] && [LOST[1]][1..] == [];
    assert ([] + [LOST[0]])[1..] == [];
  }

  /** Nothing is left of such a script. */
  lemma NothingLeft()
    ensures ScriptOk(LOST) && LaidScript(LOST)
    ensures var text := Unlines(TokenLines(Unlines(ScriptLines(LOST))));
      Reads(text, Bind(SCRIPT), 0, 0, [Node(SCRIPT, [])])
  {
    var group, rest := LOST[0], LOST[1..];
    LostIsOk();
    assert ([] + [group]) + rest == LOST;
    GroupIsLost([], group, rest);
  }
}
