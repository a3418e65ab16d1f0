/** The workflow-script grammar. Semantic actions always succeed and consume nothing. */
module Hwl {
  import opened Grammar
  import opened Termination

  const SCRIPT := 0
  const PUPPET := 1
  const CMD_STR := 2
  const PROCS := 3
  const STATEMENTS := 4
  const STATEMENT := 5
  const CALL := 6
  const IF_STMT := 7
  const COMMAND := 8
  const VARIABLE := 9
  const NAME := 10
  const LETTER := 11
  const NUMBER := 12
  const COMMENT := 13
  const BLANK := 14 // the rule written `_`
  const SPACE := 15
  const NL := 16
  const EOF := 17
  const INDENT := 18
  const DEDENT := 19

  function ScriptItem(): Comb {
    Choice([
      Sequence([Bind(PUPPET), Empty]),
      Sequence([Bind(PROCS), Empty]),
      Sequence([Unbind(BLANK), Unbind(NL)])])
  }

  function StatementItem(): Comb {
    Choice([
      Sequence([Bind(STATEMENT), Empty]),
      Sequence([Unbind(BLANK), Unbind(NL)])])
  }

  function CommandItem(): Comb {
    Choice([
      Sequence([PlainText(), Empty]),
      Sequence([Bind(VARIABLE), Empty])])
  }

  function PlainText(): Comb {
    Capture(MemoizeSome(11, NoDollar()))
  }

  function CommandText(): Comb {
    MemoizeMany(4, Sequence([LookNot(Choice([Unbind(NL), Literal('#')])), Any]))
  }

  function NoIndent(): Comb {
    LookNot(Choice([Unbind(INDENT), Unbind(DEDENT)]))
  }

  function CallOrIf(): Comb {
    Choice([Bind(CALL), Bind(IF_STMT)])
  }

  function CallName(): Comb {
    Capture(Sequence([Option(Literal('*')), Unbind(NAME)]))
  }

  function NoDollar(): Comb {
    Sequence([LookNot(Literal('$')), Any])
  }

  function DefaultValue(): Comb {
    Sequence([Literal('('), Capture(DefaultText()), Literal(')'), Empty])
  }

  function DefaultText(): Comb {
    MemoizeMany(13, Sequence([LookNot(Literal(')')), Any]))
  }

  function NameRest(): Comb {
    MemoizeMany(15, Choice([Unbind(LETTER), Unbind(NUMBER), Literal('-')]))
  }

  function CommentText(): Comb {
    MemoizeMany(19, Sequence([LookNot(Unbind(NL)), Any]))
  }

  function Blanks(): Comb {
    MemoizeMany(21, Choice([Unbind(SPACE), Unbind(COMMENT)]))
  }

  function Script(): Comb {
    MemoizeBind(1, Many(ScriptItem()))
  }

  function Puppet(): Comb {
    MemoizeBind(2, Sequence([
      Bind(NAME), Unbind(BLANK), Literal('='), Unbind(BLANK), Bind(CMD_STR), Unbind(BLANK), Unbind(NL), Empty]))
  }

  function CmdStr(): Comb {
    MemoizeBind(3, Capture(CommandText()))
  }

  function Procs(): Comb {
    MemoizeBind(5, Sequence([
      Bind(NAME), Unbind(BLANK), LiteralString("while"), Unbind(BLANK), Bind(NAME), Unbind(BLANK), Literal(':'),
      Unbind(BLANK), Unbind(NL), Unbind(INDENT), Unbind(NL), Bind(STATEMENTS), Unbind(DEDENT), Unbind(NL), Empty]))
  }

  function Statements(): Comb {
    MemoizeBind(6, Some(StatementItem()))
  }

  function Statement(): Comb {
    MemoizeBind(7, Sequence([NoIndent(), Unbind(BLANK), CallOrIf()]))
  }

  function Call(): Comb {
    MemoizeBind(8, Sequence([CallName(), Unbind(BLANK), Choice([Unbind(NL), Unbind(EOF)]), Empty]))
  }

  function IfStmt(): Comb {
    MemoizeBind(9, Sequence([
      LiteralString("if"), Unbind(BLANK), Bind(NAME), Unbind(BLANK), Literal(':'), Unbind(BLANK), Unbind(NL),
      Unbind(INDENT), Unbind(NL), Bind(STATEMENTS), Unbind(DEDENT), Unbind(NL), Empty]))
  }

  function Command(): Comb {
    MemoizeBind(10, Some(CommandItem()))
  }

  function Variable(): Comb {
    MemoizeBind(12, Sequence([Literal('$'), Bind(NAME), Option(DefaultValue()), Empty]))
  }

  function Name(): Comb {
    MemoizeBind(14, Capture(Sequence([Unbind(LETTER), NameRest()])))
  }

  function Letter(): Comb {
    Memoize(16, Choice([Between('a', 'z'), Between('A', 'Z'), Literal('_')]))
  }

  function Number(): Comb {
    Memoize(17, Between('0', '9'))
  }

  function Comment(): Comb {
    Memoize(18, Sequence([Literal('#'), CommentText()]))
  }

  function Blank(): Comb {
    Memoize(20, Blanks())
  }

  function Space(): Comb {
    Memoize(22, Choice([Literal(' '), Literal('\t')]))
  }

  function NewLine(): Comb {
    Memoize(23, Choice([LiteralString("\n\r"), Literal('\n'), Literal('\r')]))
  }

  function EndOfFile(): Comb {
    Memoize(24, LookNot(Any))
  }

  function Indent(): Comb {
    Memoize(25, LiteralString("INDENT"))
  }

  function Dedent(): Comb {
    Memoize(26, LiteralString("DEDENT"))
  }

  function Rule(k: nat): Comb {
    if k == SCRIPT then Script()
    else if k == PUPPET then Puppet()
    else if k == CMD_STR then CmdStr()
    else if k == PROCS then Procs()
    else if k == STATEMENTS then Statements()
    else if k == STATEMENT then Statement()
    else if k == CALL then Call()
    else if k == IF_STMT then IfStmt()
    else if k == COMMAND then Command()
    else if k == VARIABLE then Variable()
    else if k == NAME then Name()
    else if k == LETTER then Letter()
    else if k == NUMBER then Number()
    else if k == COMMENT then Comment()
    else if k == BLANK then Blank()
    else if k == SPACE then Space()
    else if k == NL then NewLine()
    else if k == EOF then EndOfFile()
    else if k == INDENT then Indent()
    else if k == DEDENT then Dedent()
    else Empty
  }

  /** The one combinator memoized under each identifier. */
  function MemoAt(id: nat): Comb {
    if id == 1 then Script()
    else if id == 2 then Puppet()
    else if id == 3 then CmdStr()
    else if id == 4 then CommandText()
    else if id == 5 then Procs()
    else if id == 6 then Statements()
    else if id == 7 then Statement()
    else if id == 8 then Call()
    else if id == 9 then IfStmt()
    else if id == 10 then Command()
    else if id == 11 then MemoizeMany(11, NoDollar())
    else if id == 12 then Variable()
    else if id == 13 then DefaultText()
    else if id == 14 then Name()
    else if id == 15 then NameRest()
    else if id == 16 then Letter()
    else if id == 17 then Number()
    else if id == 18 then Comment()
    else if id == 19 then CommentText()
    else if id == 20 then Blank()
    else if id == 21 then Blanks()
    else if id == 22 then Space()
    else if id == 23 then NewLine()
    else if id == 24 then EndOfFile()
    else if id == 25 then Indent()
    else if id == 26 then Dedent()
    else Empty
  }

  function MayBeEmpty(k: nat): bool {
    k == SCRIPT || k == CMD_STR || k == BLANK || k == EOF || k > DEDENT
  }

  function RankOf(k: nat): (r: nat)
    ensures r < 6
  {
    if k == SCRIPT then 5
    else if k == STATEMENTS then 4
    else if k == STATEMENT then 3
    else if k == PUPPET || k == PROCS || k == CALL || k == COMMAND || k == BLANK then 2
    else if k == NAME || k == CMD_STR || k == IF_STMT || k == VARIABLE || k == COMMENT then 1
    else 0
  }

  /** Scripts, command strings, blanks and the end of file may be empty; everything else consumes.
      A rule enters only rules of smaller rank before it has consumed. */
  const HWL_ORDER := Order((k: nat) => MayBeEmpty(k), (k: nat) => RankOf(k), 6)
}
