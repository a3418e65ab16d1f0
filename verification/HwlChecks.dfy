/** The script grammar ends on every input and uses each memo identifier for one combinator only. */
module HwlChecks {
  import opened Grammar
  import opened Meaning
  import opened Termination
  import opened Hwl
  import ParserState

  /** Parsers without parts: what they need is visible at once. */
  predicate Simple(c: Comb) {
    IsLeaf(c) || c.Bind? || c.Unbind?
  }

  /** `c` respects the order at rank `r` and, unless `empty`, always consumes. */
  predicate Fits(c: Comb, r: nat, empty: bool) {
    Ordered(HWL_ORDER, c, r) && (Nullable(HWL_ORDER, c) ==> empty)
  }

  lemma SimpleFits(c: Comb)
    requires Simple(c)
    ensures Ordered(HWL_ORDER, c, 6)
  {
  }

  /** A sequence whose first parser consumes puts no bound on the later ones. */
  lemma HeadFits(fs: seq<Comb>, r: nat)
    requires fs != [] && Fits(fs[0], r, false)
    requires forall i :: 0 < i < |fs| ==> Simple(fs[i]) || Ordered(HWL_ORDER, fs[i], 6)
    ensures Fits(Sequence(fs), r, false)
  {
    assert NullablePrefix(HWL_ORDER, fs, 0);
    forall i | 0 < i < |fs| ensures Ordered(HWL_ORDER, fs[i], 6) && !NullablePrefix(HWL_ORDER, fs, i) {
      if Simple(fs[i]) { SimpleFits(fs[i]); }
    }
  }

  lemma QuadFits(a: Comb, b: Comb, c: Comb, d: Comb, r: nat)
    requires Fits(a, r, false) && (Simple(b) || Ordered(HWL_ORDER, b, 6))
    requires (Simple(c) || Ordered(HWL_ORDER, c, 6)) && (Simple(d) || Ordered(HWL_ORDER, d, 6))
    ensures Fits(Sequence([a, b, c, d]), r, false)
  {
    HeadFits([a, b, c, d], r);
  }

  lemma AllFit(fs: seq<Comb>, r: nat)
    requires forall i :: 0 <= i < |fs| ==>
      Ordered(HWL_ORDER, fs[i], r) && (Simple(fs[i]) || Ordered(HWL_ORDER, fs[i], 6))
    ensures OrderedSequence(HWL_ORDER, fs, r)
  {
    forall i | 0 < i < |fs| ensures Ordered(HWL_ORDER, fs[i], 6) {
      if Simple(fs[i]) { SimpleFits(fs[i]); }
    }
  }

  /** Parsers that look ahead and then take any character, the body of every skipping loop. */
  lemma LookThenAnyFits(stop: Comb, r: nat)
    requires Ordered(HWL_ORDER, stop, r)
    ensures Fits(Sequence([LookNot(stop), Any]), r, false)
  {
    var fs := [LookNot(stop), Any];
    assert fs[1] == Any && !Nullable(HWL_ORDER, fs[1]);
    assert OrderedSequence(HWL_ORDER, fs, r);
  }

  /** A rule followed by the action that stores its value. */
  lemma StoreFits(k: nat, r: nat)
    requires RankOf(k) < r && !MayBeEmpty(k)
    ensures Fits(Sequence([Bind(k), Empty]), r, false)
  {
    var fs := [Bind(k), Empty];
    assert fs[0] == Bind(k) && fs[1] == Empty;
    HeadFits(fs, r);
  }

  /** A parser that consumes, followed by another one. */
  lemma PairFits(a: Comb, b: Comb, r: nat)
    requires Fits(a, r, false) && Ordered(HWL_ORDER, b, 6)
    ensures Fits(Sequence([a, b]), r, false)
  {
    var fs := [a, b];
    assert fs[0] == a && fs[1] == b;
    HeadFits(fs, r);
  }

  /** One of two alternatives. */
  lemma EitherFits(a: Comb, b: Comb, r: nat)
    requires Fits(a, r, false) && Fits(b, r, false)
    ensures Fits(Choice([a, b]), r, false)
  {
    var fs := [a, b];
    assert Ordered(HWL_ORDER, fs[0], r) && Ordered(HWL_ORDER, fs[1], r);
  }

  lemma EitherOrdered(a: Comb, b: Comb, r: nat)
    requires Ordered(HWL_ORDER, a, r) && Ordered(HWL_ORDER, b, r)
    ensures Ordered(HWL_ORDER, Choice([a, b]), r)
  {
    var fs := [a, b];
    assert Ordered(HWL_ORDER, fs[0], r) && Ordered(HWL_ORDER, fs[1], r);
  }

  /** Three parsers that all fit, the last of which consumes. */
  lemma TripleFits(a: Comb, b: Comb, c: Comb, r: nat)
    requires Ordered(HWL_ORDER, a, r) && Ordered(HWL_ORDER, b, r) && Fits(c, r, false)
    requires Nullable(HWL_ORDER, a) && Nullable(HWL_ORDER, b)
    ensures Fits(Sequence([a, b, c]), r, false)
  {
    var fs := [a, b, c];
    assert fs[0] == a && fs[1] == b && fs[2] == c;
    forall i | 0 <= i < 3 ensures NullablePrefix(HWL_ORDER, fs, i) && Ordered(HWL_ORDER, fs[i], r) {
    }
    assert !Nullable(HWL_ORDER, fs[2]);
  }

  lemma BlankLineFits(r: nat)
    requires r > 2
    ensures Fits(Sequence([Unbind(BLANK), Unbind(NL)]), r, false)
  {
    var fs := [Unbind(BLANK), Unbind(NL)];
    assert fs[1] == Unbind(NL) && !Nullable(HWL_ORDER, fs[1]);
    assert Ordered(HWL_ORDER, fs[0], r);
    AllFit(fs, r);
  }

  lemma ScriptItemFits(r: nat)
    requires r > 4
    ensures Fits(ScriptItem(), r, false)
  {
    StoreFits(PUPPET, r);
    StoreFits(PROCS, r);
    BlankLineFits(r);
  }

  lemma StatementItemFits(r: nat)
    requires r > 3
    ensures Fits(StatementItem(), r, false)
  {
    StoreFits(STATEMENT, r);
    BlankLineFits(r);
    EitherFits(Sequence([Bind(STATEMENT), Empty]), Sequence([Unbind(BLANK), Unbind(NL)]), r);
  }

  lemma CommandItemFits(r: nat)
    requires r > 1
    ensures Fits(CommandItem(), r, false)
  {
    PlainTextFits(r);
    PairFits(PlainText(), Empty, r);
    StoreFits(VARIABLE, r);
    EitherFits(Sequence([PlainText(), Empty]), Sequence([Bind(VARIABLE), Empty]), r);
  }

  lemma PlainTextFits(r: nat)
    ensures Fits(PlainText(), r, false)
  {
    LookThenAnyFits(Literal('$'), r);
    LookThenAnyFits(Literal('$'), 6);
  }

  lemma NoIndentFits(r: nat)
    requires r > 0
    ensures Ordered(HWL_ORDER, NoIndent(), r)
  {
    EitherFits(Unbind(INDENT), Unbind(DEDENT), r);
  }

  lemma CallOrIfFits(r: nat)
    requires r > 2
    ensures Fits(CallOrIf(), r, false)
  {
    EitherFits(Bind(CALL), Bind(IF_STMT), r);
  }

  lemma CallNameFits(r: nat)
    requires r > 1
    ensures Fits(CallName(), r, false)
  {
    var fs := [Option(Literal('*')), Unbind(NAME)];
    assert fs[0] == Option(Literal('*')) && fs[1] == Unbind(NAME) && !Nullable(HWL_ORDER, fs[1]);
    assert OrderedSequence(HWL_ORDER, fs, r);
  }

  lemma DefaultValueFits()
    ensures Fits(DefaultValue(), 6, false)
  {
    LookThenAnyFits(Literal(')'), 6);
    HeadFits(DefaultValue().fs, 6);
  }

  lemma NameRestFits(r: nat)
    requires 0 < r <= 6
    ensures Ordered(HWL_ORDER, NameRest(), r)
  {
    var fs := [Unbind(LETTER), Unbind(NUMBER), Literal('-')];
    forall i | 0 <= i < 3 ensures Fits(fs[i], r, false) && Fits(fs[i], 6, false) {
    }
  }

  lemma ScriptFits()
    ensures Fits(Script(), 5, true)
  {
    ScriptItemFits(5);
    ScriptItemFits(6);
  }

  lemma PuppetFits()
    ensures Fits(Puppet(), 2, false)
  {
    HeadFits(Puppet().f.fs, 2);
  }

  lemma CmdStrFits()
    ensures Fits(CmdStr(), 1, true)
  {
    LookThenAnyFits(Choice([Unbind(NL), Literal('#')]), 1);
    LookThenAnyFits(Choice([Unbind(NL), Literal('#')]), 6);
  }

  lemma ProcsFits()
    ensures Fits(Procs(), 2, false)
  {
    var fs := Procs().f.fs;
    assert Fits(fs[0], 2, false);
    forall i | 0 < i < |fs| ensures Simple(fs[i]) || Ordered(HWL_ORDER, fs[i], 6) {}
    HeadFits(fs, 2);
  }

  lemma StatementsFits()
    ensures Fits(Statements(), 4, false)
  {
    StatementItemFits(4);
    StatementItemFits(6);
  }

  lemma StatementFits()
    ensures Fits(Statement(), 3, false)
  {
    NoIndentFits(3);
    CallOrIfFits(3);
    TripleFits(NoIndent(), Unbind(BLANK), CallOrIf(), 3);
  }

  lemma CallFits()
    ensures Fits(Call(), 2, false)
  {
    CallNameFits(2);
    EitherOrdered(Unbind(NL), Unbind(EOF), 6);
    HeadFits(Call().f.fs, 2);
  }

  lemma IfStmtFits()
    ensures Fits(IfStmt(), 1, false)
  {
    HeadFits(IfStmt().f.fs, 1);
  }

  lemma CommandFits()
    ensures Fits(Command(), 2, false)
  {
    CommandItemFits(2);
    CommandItemFits(6);
  }

  lemma VariableFits()
    ensures Fits(Variable(), 1, false)
  {
    DefaultValueFits();
    QuadFits(Literal('$'), Bind(NAME), Option(DefaultValue()), Empty, 1);
  }

  lemma NameFits()
    ensures Fits(Name(), 1, false)
  {
    NameRestFits(6);
    PairFits(Unbind(LETTER), NameRest(), 1);
  }

  lemma LetterFits()
    ensures Fits(Letter(), 0, false)
  {
  }

  lemma NumberFits()
    ensures Fits(Number(), 0, false)
  {
  }

  lemma CommentFits()
    ensures Fits(Comment(), 1, false)
  {
    LookThenAnyFits(Unbind(NL), 6);
    PairFits(Literal('#'), CommentText(), 1);
  }

  lemma BlankFits()
    ensures Fits(Blank(), 2, true)
  {
    EitherFits(Unbind(SPACE), Unbind(COMMENT), 2);
    EitherFits(Unbind(SPACE), Unbind(COMMENT), 6);
  }

  lemma SpaceFits()
    ensures Fits(Space(), 0, false)
  {
  }

  lemma NewLineFits()
    ensures Fits(NewLine(), 0, false)
  {
  }

  lemma EndOfFileFits()
    ensures Fits(EndOfFile(), 0, true)
  {
  }

  lemma IndentFits()
    ensures Fits(Indent(), 0, false)
  {
  }

  lemma DedentFits()
    ensures Fits(Dedent(), 0, false)
  {
  }

  lemma LookThenAnyIds(stop: Comb)
    requires ParserState.KeepsIds(MemoAt, stop)
    ensures ParserState.KeepsIds(MemoAt, Sequence([LookNot(stop), Any]))
  {
    var fs := [LookNot(stop), Any];
    assert fs[0] == LookNot(stop) && fs[1] == Any;
  }

  lemma CommandTextIds()
    ensures ParserState.KeepsIds(MemoAt, CommandText())
  {
    var fs := [Unbind(NL), Literal('#')];
    assert fs[0] == Unbind(NL) && fs[1] == Literal('#');
    LookThenAnyIds(Choice(fs));
  }

  lemma PlainTextIds()
    ensures ParserState.KeepsIds(MemoAt, PlainText())
  {
    LookThenAnyIds(Literal('$'));
  }

  lemma PairIds(spec: nat -> Comb, a: Comb, b: Comb)
    requires ParserState.KeepsIds(spec, a) && ParserState.KeepsIds(spec, b)
    ensures ParserState.KeepsIds(spec, Sequence([a, b])) && ParserState.KeepsIds(spec, Choice([a, b]))
  {
  }

  lemma CommandItemIds()
    ensures ParserState.KeepsIds(MemoAt, CommandItem())
  {
    PlainTextIds();
    PairIds(MemoAt, PlainText(), Empty);
    PairIds(MemoAt, Bind(VARIABLE), Empty);
    PairIds(MemoAt, Sequence([PlainText(), Empty]), Sequence([Bind(VARIABLE), Empty]));
  }

  lemma DefaultTextIds()
    ensures ParserState.KeepsIds(MemoAt, DefaultText())
  {
    LookThenAnyIds(Literal(')'));
  }

  lemma DefaultValueIds()
    ensures ParserState.KeepsIds(MemoAt, DefaultValue())
  {
    DefaultTextIds();
    var fs := DefaultValue().fs;
    assert fs[1] == Capture(DefaultText());
  }

  lemma ScriptIds()
    ensures ParserState.KeepsIds(MemoAt, Script())
  {
  }

  lemma PuppetIds()
    ensures ParserState.KeepsIds(MemoAt, Puppet())
  {
  }

  lemma CmdStrIds()
    ensures ParserState.KeepsIds(MemoAt, CmdStr())
  {
    CommandTextIds();
  }

  lemma ProcsIds()
    ensures ParserState.KeepsIds(MemoAt, Procs())
  {
  }

  lemma StatementsIds()
    ensures ParserState.KeepsIds(MemoAt, Statements())
  {
  }

  lemma StatementIds()
    ensures ParserState.KeepsIds(MemoAt, Statement())
  {
  }

  lemma CallIds()
    ensures ParserState.KeepsIds(MemoAt, Call())
  {
  }

  lemma IfStmtIds()
    ensures ParserState.KeepsIds(MemoAt, IfStmt())
  {
  }

  lemma CommandIds()
    ensures ParserState.KeepsIds(MemoAt, Command())
  {
    CommandItemIds();
  }

  lemma VariableIds()
    ensures ParserState.KeepsIds(MemoAt, Variable())
  {
    DefaultValueIds();
  }

  lemma NameIds()
    ensures ParserState.KeepsIds(MemoAt, Name())
  {
  }

  lemma LetterIds()
    ensures ParserState.KeepsIds(MemoAt, Letter())
  {
  }

  lemma NumberIds()
    ensures ParserState.KeepsIds(MemoAt, Number())
  {
  }

  lemma CommentIds()
    ensures ParserState.KeepsIds(MemoAt, Comment())
  {
  }

  lemma BlankIds()
    ensures ParserState.KeepsIds(MemoAt, Blank())
  {
  }

  lemma SpaceIds()
    ensures ParserState.KeepsIds(MemoAt, Space())
  {
  }

  lemma NewLineIds()
    ensures ParserState.KeepsIds(MemoAt, NewLine())
  {
  }

  lemma EndOfFileIds()
    ensures ParserState.KeepsIds(MemoAt, EndOfFile())
  {
  }

  lemma IndentIds()
    ensures ParserState.KeepsIds(MemoAt, Indent())
  {
  }

  lemma DedentIds()
    ensures ParserState.KeepsIds(MemoAt, Dedent())
  {
  }

  /** Every rule keeps one combinator per memo identifier. */
  lemma HwlKeepsIds(k: nat)
    ensures ParserState.KeepsIds(MemoAt, Rule(k))
  {
    if k == SCRIPT { ScriptIds(); }
    else if k == PUPPET { PuppetIds(); }
    else if k == CMD_STR { CmdStrIds(); }
    else if k == PROCS { ProcsIds(); }
    else if k == STATEMENTS { StatementsIds(); }
    else if k == STATEMENT { StatementIds(); }
    else if k == CALL { CallIds(); }
    else if k == IF_STMT { IfStmtIds(); }
    else if k == COMMAND { CommandIds(); }
    else if k == VARIABLE { VariableIds(); }
    else if k == NAME { NameIds(); }
    else if k == LETTER { LetterIds(); }
    else if k == NUMBER { NumberIds(); }
    else if k == COMMENT { CommentIds(); }
    else if k == BLANK { BlankIds(); }
    else if k == SPACE { SpaceIds(); }
    else if k == NL { NewLineIds(); }
    else if k == EOF { EndOfFileIds(); }
    else if k == INDENT { IndentIds(); }
    else if k == DEDENT { DedentIds(); }
  }

  lemma RuleFits(k: nat)
    ensures Fits(Rule(k), RankOf(k), MayBeEmpty(k))
  {
    if k == SCRIPT { ScriptFits(); }
    else if k == PUPPET { PuppetFits(); }
    else if k == CMD_STR { CmdStrFits(); }
    else if k == PROCS { ProcsFits(); }
    else if k == STATEMENTS { StatementsFits(); }
    else if k == STATEMENT { StatementFits(); }
    else if k == CALL { CallFits(); }
    else if k == IF_STMT { IfStmtFits(); }
    else if k == COMMAND { CommandFits(); }
    else if k == VARIABLE { VariableFits(); }
    else if k == NAME { NameFits(); }
    else if k == LETTER { LetterFits(); }
    else if k == NUMBER { NumberFits(); }
    else if k == COMMENT { CommentFits(); }
    else if k == BLANK { BlankFits(); }
    else if k == SPACE { SpaceFits(); }
    else if k == NL { NewLineFits(); }
    else if k == EOF { EndOfFileFits(); }
    else if k == INDENT { IndentFits(); }
    else if k == DEDENT { DedentFits(); }
  }

  lemma HwlWellOrdered()
    ensures WellOrdered(HWL_ORDER, Rule)
  {
    forall k: nat ensures Ordered(HWL_ORDER, Rule(k), RankOf(k)) && (Nullable(HWL_ORDER, Rule(k)) ==> MayBeEmpty(k)) {
      RuleFits(k);
    }
  }

  /** Parsing ends: for every rule and every input some fuel suffices, and so does all larger fuel. */
  lemma HwlEnds(input: string, k: nat) returns (n: nat)
    ensures forall m: nat :: m >= n ==> Eval(Rule, input, Bind(k), 0, m).Done?
  {
    HwlWellOrdered();
    Ends(HWL_ORDER, Rule, input, Bind(k), 0, 6);
    n := EnoughFuel(Rule, input, Bind(k), 0);
  }
}
