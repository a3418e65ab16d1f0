/** Workflow scripts as text, in the form that the parser gets them, and what parsing makes of them. */
module HwlScripts {
  import opened Grammar
  import opened Meaning
  import opened Laws
  import opened Hwl
  import opened HwlLexis

  /** A statement with the blanks in front of it. */
  datatype Statement =
    | CallOf(pad: string, starred: bool, name: string)
    | IfOf(pad: string, name: string, body: seq<Statement>)

  /** A line of a script: a puppet with its command, a control group with its statements, or a comment. */
  datatype Part =
    | PuppetPart(name: string, command: string, tail: string)
    | GroupPart(name: string, control: string, body: seq<Statement>)
    | Remark(text: string)

  predicate IsPad(pad: string) {
    pad != [] && AllSpace(pad)
  }

  predicate StatementOk(s: Statement) {
    IsPad(s.pad) && IsName(s.name) && (s.IfOf? ==> s.body != [] && StatementsOk(s.body))
  }

  predicate StatementsOk(ss: seq<Statement>) {
    ss == [] || (StatementsOk(ss[..|ss| - 1]) && StatementOk(ss[|ss| - 1]))
  }

  /** Behind a command that is not empty there may be a comment. */
  predicate IsTail(command: string, tail: string) {
    tail == "" || (command != "" && tail[0] == '#' && OnOneLine(tail))
  }

  predicate PartOk(part: Part) {
    match part
    case PuppetPart(name, command, tail) => IsName(name) && IsCommand(command) && IsTail(command, tail)
    case GroupPart(name, control, body) => IsName(name) && IsName(control) && body != [] && StatementsOk(body)
    case Remark(text) => OnOneLine(text)
  }

  // Printing.

  function CallText(s: Statement): string
    requires s.CallOf?
  {
    (if s.starred then "*" else "") + s.name
  }

  /** The lines of a body between the tokens that stand for its indentation. */
  function Block(body: seq<Statement>): string
    decreases body, 2
  {
    ":\nINDENT\n" + (PrintAll(body) + "DEDENT\n")
  }

  function Print(s: Statement): string
    decreases s, 0
  {
    match s
    case CallOf(pad, _, _) => pad + (CallText(s) + "\n")
    case IfOf(pad, name, body) => pad + ("if " + (name + Block(body)))
  }

  function PrintAll(ss: seq<Statement>): string
    decreases ss, 1
  {
    if ss == [] then "" else PrintAll(ss[..|ss| - 1]) + Print(ss[|ss| - 1])
  }

  function PrintPart(part: Part): string {
    match part
    case PuppetPart(name, command, tail) => name + (" = " + ((command + tail) + "\n"))
    case GroupPart(name, control, body) => name + (" while " + (control + Block(body)))
    case Remark(text) => "#" + text + "\n"
  }

  function PrintScript(parts: seq<Part>): string {
    if parts == [] then "" else PrintScript(parts[..|parts| - 1]) + PrintPart(parts[|parts| - 1])
  }

  // Trees.

  function StatementTree(s: Statement): Tree
    decreases s, 0
  {
    match s
    case CallOf(_, _, _) => Node(STATEMENT, [Node(CALL, [Text(CallText(s))])])
    case IfOf(_, name, body) => Node(STATEMENT, [Node(IF_STMT, [NameTree(name), BodyTree(body)])])
  }

  function BodyTree(body: seq<Statement>): Tree
    decreases body, 2
  {
    Node(STATEMENTS, StatementTrees(body))
  }

  function StatementTrees(ss: seq<Statement>): seq<Tree>
    decreases ss, 1
  {
    if ss == [] then [] else StatementTrees(ss[..|ss| - 1]) + [StatementTree(ss[|ss| - 1])]
  }

  function PartTrees(part: Part): seq<Tree> {
    match part
    case PuppetPart(name, command, _) => [Node(PUPPET, [NameTree(name), Node(CMD_STR, [Text(command)])])]
    case GroupPart(name, control, body) => [Node(PROCS, [NameTree(name), NameTree(control), BodyTree(body)])]
    case Remark(_) => []
  }

  function ScriptTrees(parts: seq<Part>): seq<Tree> {
    if parts == [] then [] else ScriptTrees(parts[..|parts| - 1]) + PartTrees(parts[|parts| - 1])
  }

  // Calls.

  lemma EofReads(input: string, p: nat)
    requires p <= |input|
    ensures if p < |input| && input[p] != '\0' then Rejects(input, Unbind(EOF), p)
      else Reads(input, Unbind(EOF), p, p, [])
  {
    AnyLaw(Rule, input, p);
    LookLaw(Rule, input, Any, p);
    MemoizeLaw(Rule, input, 24, LookNot(Any), p);
    BindLaw(Rule, input, EOF, p);
    assert Rule(EOF) == Memoize(24, LookNot(Any));
  }

  function LineOrFile(): Comb {
    Choice([Unbind(NL), Unbind(EOF)])
  }

  lemma LineOrFileReads(input: string, p: nat)
    requires p <= |input|
    ensures NewlineAt(input, p) ==> Reads(input, LineOrFile(), p, p + 1, [])
    ensures p == |input| ==> Reads(input, LineOrFile(), p, p, [])
    ensures p < |input| && !LineEndAt(input, p) && input[p] != '\0' ==> Rejects(input, LineOrFile(), p)
  {
    NewlineReads(input, p);
    EofReads(input, p);
    var fs := [Unbind(NL), Unbind(EOF)];
    if NewlineAt(input, p) {
      ChoiceOk(Rule, input, fs, 0, p, p + 1);
    } else if p == |input| {
      ChoiceOk(Rule, input, fs, 1, p, p);
    } else if p < |input| && !LineEndAt(input, p) && input[p] != '\0' {
      ChoiceKo(Rule, input, fs, p);
    }
  }

  /** Where the name of a call begins, behind its star if it has one. */
  function NameStart(p: nat, starred: bool): nat {
    if starred then p + 1 else p
  }

  predicate CallAt(input: string, p: nat, starred: bool, name: string) {
    (starred ==> p < |input| && input[p] == '*') && NameAt(input, NameStart(p, starred), name)
  }

  lemma StarReads(input: string, p: nat, starred: bool, name: string)
    requires CallAt(input, p, starred, name)
    ensures Reads(input, Option(Literal('*')), p, NameStart(p, starred), [])
  {
    if !starred { AtChar(input, p, name, 0); }
    LiteralTakes(input, '*', p);
    OptionLaw(Rule, input, Literal('*'), p);
    if !starred { EmptyWhenRejected(input, Literal('*'), p); }
  }

  lemma EmptyWhenRejected(input: string, f: Comb, p: nat)
    requires Rejects(input, f, p)
    ensures Denote(Rule, input, f, p).end == p && Denote(Rule, input, f, p).val == []
  {
  }

  /** A name, with a star or without. */
  lemma CallNameReads(input: string, p: nat, starred: bool, name: string)
    requires CallAt(input, p, starred, name)
    ensures var end := NameStart(p, starred) + |name|;
      end <= |input| && Reads(input, CallName(), p, end, [Text(input[p..end])])
  {
    var start := NameStart(p, starred);
    StarReads(input, p, starred, name);
    NameReads(input, start, name);
    PairReads(input, Option(Literal('*')), Unbind(NAME), p, start, start + |name|);
    CaptureLaw(Rule, input, Sequence([Option(Literal('*')), Unbind(NAME)]), p);
  }

  function CallParts(): seq<Comb> {
    [CallName(), Unbind(BLANK), LineOrFile(), Empty]
  }

  /** Behind the end of the line, or at the end of the input. */
  function Behind(input: string, p: nat): nat {
    if p < |input| then p + 1 else p
  }

  /** A call up to the end of its line, or of the input. */
  lemma CallReads(input: string, p: nat, starred: bool, name: string)
    requires CallAt(input, p, starred, name)
    requires var end := NameStart(p, starred) + |name|;
      NewlineAt(input, end) || end == |input|
    ensures var end := NameStart(p, starred) + |name|;
      end <= |input| && Reads(input, Bind(CALL), p, Behind(input, end), [Node(CALL, [Text(input[p..end])])])
  {
    var end := NameStart(p, starred) + |name|;
    var next, val := Behind(input, end), [Text(input[p..end])];
    CallNameReads(input, p, starred, name);
    CallEndReads(input, end);
    LeadReads(input, CallName(), [Unbind(BLANK), LineOrFile(), Empty], p, end, next, val);
    assert CallParts() == [CallName()] + [Unbind(BLANK), LineOrFile(), Empty];
    RuleSequence(input, CALL, 8, CallParts(), p, next, val);
  }

  /** Two parsers without values, and an action behind them. */
  lemma TwoReads(input: string, a: Comb, b: Comb, p: nat, mid: nat, end: nat)
    requires Reads(input, a, p, mid, []) && Reads(input, b, mid, end, [])
    ensures Reads(input, Sequence([a, b, Empty]), p, end, [])
  {
    EmptyAndFailLaw(Rule, input, "", end);
    SequenceGives(Rule, input, [a, b, Empty], [p, mid, end, end], NoValues(3));
    EmptyRow(3);
  }

  lemma CallEndReads(input: string, p: nat)
    requires NewlineAt(input, p) || p == |input|
    ensures Reads(input, Sequence([Unbind(BLANK), LineOrFile(), Empty]), p, Behind(input, p), [])
  {
    SpacesRead(input, p, "");
    LineOrFileReads(input, p);
    TwoReads(input, Unbind(BLANK), LineOrFile(), p, p, Behind(input, p));
  }

  /** A parser with a value, and then others without. */
  lemma LeadReads(input: string, f: Comb, fs: seq<Comb>, p: nat, mid: nat, end: nat, val: seq<Tree>)
    requires Reads(input, f, p, mid, val) && Reads(input, Sequence(fs), mid, end, [])
    ensures Reads(input, Sequence([f] + fs), p, end, val)
  {
    ConsReads(input, f, fs, p, mid, end, val, []);
  }

  lemma ConsReads(input: string, f: Comb, fs: seq<Comb>, p: nat, mid: nat, end: nat, val: seq<Tree>, more: seq<Tree>)
    requires Reads(input, f, p, mid, val) && Reads(input, Sequence(fs), mid, end, more)
    ensures Reads(input, Sequence([f] + fs), p, end, val + more)
  {
    SequenceCons(Rule, input, f, fs, p);
  }

  /** A rule that is a sequence. */
  lemma RuleSequence(input: string, k: nat, id: nat, fs: seq<Comb>, p: nat, end: nat, val: seq<Tree>)
    requires Rule(k) == MemoizeBind(id, Sequence(fs)) && Reads(input, Sequence(fs), p, end, val)
    ensures Reads(input, Bind(k), p, end, [Node(k, val)])
  {
    MemoizeLaw(Rule, input, id, Sequence(fs), p);
    RuleGives(input, k, p, end, val);
  }

  lemma SequenceRuleRejects(input: string, k: nat, id: nat, fs: seq<Comb>, p: nat)
    requires Rule(k) == MemoizeBind(id, Sequence(fs)) && Rejects(input, Sequence(fs), p)
    ensures Rejects(input, Bind(k), p)
  {
    MemoizeLaw(Rule, input, id, Sequence(fs), p);
    RuleRejects(input, k, p);
  }

  /** A sequence that goes wrong with its third parser. */
  lemma ThirdRejects(input: string, fs: seq<Comb>, p: nat, mid: nat, q: nat)
    requires |fs| > 2 && Ok(Rule, input, fs[0], p, mid) && Ok(Rule, input, fs[1], mid, q) && Rejects(input, fs[2], q)
    ensures Rejects(input, Sequence(fs), p)
  {
    assert Chain(Rule, input, fs[..2], [p, mid, q]);
    SequenceKo(Rule, input, fs, 2, [p, mid, q]);
  }

  /** A name with more behind it on its line is no call. */
  lemma CallRejects(input: string, p: nat, name: string, pad: string)
    requires NameAt(input, p, name) && At(input, p + |name|, pad) && AllSpace(pad)
    requires var q := p + |name| + |pad|;
      q < |input| && !SpaceAt(input, q) && !HashAt(input, q) && !LineEndAt(input, q) && input[q] != '\0'
    ensures Rejects(input, Bind(CALL), p)
  {
    var mid, q := p + |name|, p + |name| + |pad|;
    CallNameReads(input, p, false, name);
    SpacesRead(input, mid, pad);
    LineOrFileReads(input, q);
    ThirdRejects(input, CallParts(), p, mid, q);
    SequenceRuleRejects(input, CALL, 8, CallParts(), p);
  }

  // Blocks.

  /** No carriage return stands there. */
  predicate NoReturnAt(input: string, p: nat) {
    p < |input| ==> input[p] != '\r'
  }

  lemma NewlineIs(input: string, p: nat)
    requires At(input, p, "\n") && NoReturnAt(input, p + 1)
    ensures NewlineAt(input, p)
  {
    AtChar(input, p, "\n", 0);
  }

  function BlockEnd(): seq<Comb> {
    [Unbind(DEDENT), Unbind(NL), Empty]
  }

  function BlockParts(): seq<Comb> {
    [Literal(':'), Unbind(BLANK), Unbind(NL), Unbind(INDENT), Unbind(NL), Bind(STATEMENTS)] + BlockEnd()
  }

  lemma BlockEndReads(input: string, p: nat)
    requires At(input, p, "DEDENT") && NewlineAt(input, p + 6)
    ensures Reads(input, Sequence(BlockEnd()), p, p + 7, [])
  {
    TokenReads(input, p, DEDENT, 26, "DEDENT");
    NewlineReads(input, p + 6);
    TwoReads(input, Unbind(DEDENT), Unbind(NL), p, p + 6, p + 7);
  }

  /** The colon, the line ends and the tokens around a body that is read with this value. */
  lemma BlockReads(input: string, p: nat, q: nat, val: seq<Tree>)
    requires p < |input| && input[p] == ':' && NewlineAt(input, p + 1) && At(input, p + 2, "INDENT")
    requires NewlineAt(input, p + 8) && Reads(input, Bind(STATEMENTS), p + 9, q, val)
    requires At(input, q, "DEDENT") && NewlineAt(input, q + 6)
    ensures Reads(input, Sequence(BlockParts()), p, q + 7, val)
  {
    BlockEndReads(input, q);
    LeadReads(input, Bind(STATEMENTS), BlockEnd(), p + 9, q, q + 7, val);
    BlockStartReads(input, p, [Bind(STATEMENTS)] + BlockEnd(), q + 7, val);
    assert BlockParts() == [Literal(':')] + ([Unbind(BLANK)] + Indented([Bind(STATEMENTS)] + BlockEnd()));
  }

  /** A parser without a value in front of others. */
  lemma SkipReads(input: string, f: Comb, fs: seq<Comb>, p: nat, mid: nat, end: nat, val: seq<Tree>)
    requires Reads(input, f, p, mid, []) && Reads(input, Sequence(fs), mid, end, val)
    ensures Reads(input, Sequence([f] + fs), p, end, val)
  {
    ConsReads(input, f, fs, p, mid, end, [], val);
  }

  function Indented(fs: seq<Comb>): seq<Comb> {
    [Unbind(NL)] + ([Unbind(INDENT)] + ([Unbind(NL)] + fs))
  }

  lemma IndentedReads(input: string, p: nat, fs: seq<Comb>, end: nat, val: seq<Tree>)
    requires NewlineAt(input, p) && At(input, p + 1, "INDENT") && NewlineAt(input, p + 7)
    requires Reads(input, Sequence(fs), p + 8, end, val)
    ensures Reads(input, Sequence(Indented(fs)), p, end, val)
  {
    NewlineReads(input, p + 7);
    SkipReads(input, Unbind(NL), fs, p + 7, p + 8, end, val);
    TokenReads(input, p + 1, INDENT, 25, "INDENT");
    SkipReads(input, Unbind(INDENT), [Unbind(NL)] + fs, p + 1, p + 7, end, val);
    NewlineReads(input, p);
    SkipReads(input, Unbind(NL), [Unbind(INDENT)] + ([Unbind(NL)] + fs), p, p + 1, end, val);
  }

  lemma BlockStartReads(input: string, p: nat, fs: seq<Comb>, end: nat, val: seq<Tree>)
    requires p < |input| && input[p] == ':' && NewlineAt(input, p + 1) && At(input, p + 2, "INDENT")
    requires NewlineAt(input, p + 8) && Reads(input, Sequence(fs), p + 9, end, val)
    ensures Reads(input, Sequence([Literal(':')] + ([Unbind(BLANK)] + Indented(fs))), p, end, val)
  {
    IndentedReads(input, p + 1, fs, end, val);
    SpacesRead(input, p + 1, "");
    SkipReads(input, Unbind(BLANK), Indented(fs), p + 1, p + 1, end, val);
    LiteralTakes(input, ':', p);
    SkipReads(input, Literal(':'), [Unbind(BLANK)] + Indented(fs), p, p + 1, end, val);
  }

  /** A block stands at `p` with a body that is read up to `q`. */
  ghost predicate BlockAt(input: string, p: nat, q: nat, val: seq<Tree>) {
    p < |input| && input[p] == ':' && Reads(input, Sequence(BlockParts()), p, q, val)
  }

  // The two statements with a block.

  /** A name, no blanks behind it, and a block. */
  lemma NamedBlockReads(input: string, p: nat, name: string, q: nat, val: seq<Tree>)
    requires NameAt(input, p, name) && BlockAt(input, p + |name|, q, val)
    ensures Reads(input, Sequence([Bind(NAME)] + ([Unbind(BLANK)] + BlockParts())), p, q, [NameTree(name)] + val)
  {
    var mid := p + |name|;
    SpacesRead(input, mid, "");
    SkipReads(input, Unbind(BLANK), BlockParts(), mid, mid, q, val);
    NameReads(input, p, name);
    ConsReads(input, Bind(NAME), [Unbind(BLANK)] + BlockParts(), p, mid, q, [NameTree(name)], val);
  }

  function WordBlock(word: string): seq<Comb> {
    [LiteralString(word)] + ([Unbind(BLANK)] + ([Bind(NAME)] + ([Unbind(BLANK)] + BlockParts())))
  }

  /** A word, a space, a name and a block. */
  lemma WordBlockReads(input: string, p: nat, word: string, name: string, q: nat, val: seq<Tree>)
    requires At(input, p, word) && At(input, p + |word|, " ") && NameAt(input, p + |word| + 1, name)
    requires BlockAt(input, p + |word| + 1 + |name|, q, val)
    ensures Reads(input, Sequence(WordBlock(word)), p, q, [NameTree(name)] + val)
  {
    var mid, fs := p + |word|, [Bind(NAME)] + ([Unbind(BLANK)] + BlockParts());
    NamedBlockReads(input, mid + 1, name, q, val);
    AtChar(input, mid + 1, name, 0);
    SpacesRead(input, mid, " ");
    SkipReads(input, Unbind(BLANK), fs, mid, mid + 1, q, [NameTree(name)] + val);
    WordReads(input, p, word);
    SkipReads(input, LiteralString(word), [Unbind(BLANK)] + fs, p, mid, q, [NameTree(name)] + val);
  }

  lemma IfRule()
    ensures Rule(IF_STMT) == MemoizeBind(9, Sequence(WordBlock("if")))
  {
    assert WordBlock("if") == IfStmt().f.fs;
  }

  lemma IfReads(input: string, p: nat, name: string, q: nat, val: seq<Tree>)
    requires At(input, p, "if") && At(input, p + 2, " ") && NameAt(input, p + 3, name)
    requires BlockAt(input, p + 3 + |name|, q, val)
    ensures Reads(input, Bind(IF_STMT), p, q, [Node(IF_STMT, [NameTree(name)] + val)])
  {
    WordBlockReads(input, p, "if", name, q, val);
    IfRule();
    RuleSequence(input, IF_STMT, 9, WordBlock("if"), p, q, [NameTree(name)] + val);
  }

  function GroupParts(): seq<Comb> {
    [Bind(NAME), Unbind(BLANK), LiteralString("while"), Unbind(BLANK), Bind(NAME), Unbind(BLANK)] + BlockParts()
  }

  lemma GroupRule()
    ensures Rule(PROCS) == MemoizeBind(5, Sequence(GroupParts()))
  {
    assert GroupParts() == Procs().f.fs;
  }

  lemma GroupList()
    ensures GroupParts() == [Bind(NAME)] + ([Unbind(BLANK)] + WordBlock("while"))
  {
  }

  lemma GroupPartsRead(input: string, p: nat, name: string, control: string, q: nat, val: seq<Tree>)
    requires NameAt(input, p, name) && At(input, p + |name|, " ") && At(input, p + |name| + 1, "while")
    requires At(input, p + |name| + 6, " ") && NameAt(input, p + |name| + 7, control)
    requires BlockAt(input, p + |name| + 7 + |control|, q, val)
    ensures Reads(input, Sequence(GroupParts()), p, q, [NameTree(name)] + ([NameTree(control)] + val))
  {
    var mid := p + |name|;
    SpacedBlockReads(input, mid, control, q, val);
    NameReads(input, p, name);
    GroupList();
    ConsReads(input, Bind(NAME), [Unbind(BLANK)] + WordBlock("while"), p, mid, q,
      [NameTree(name)], [NameTree(control)] + val);
  }

  lemma GroupReads(input: string, p: nat, name: string, control: string, q: nat, val: seq<Tree>)
    requires NameAt(input, p, name) && At(input, p + |name|, " ") && At(input, p + |name| + 1, "while")
    requires At(input, p + |name| + 6, " ") && NameAt(input, p + |name| + 7, control)
    requires BlockAt(input, p + |name| + 7 + |control|, q, val)
    ensures Reads(input, Bind(PROCS), p, q, [Node(PROCS, [NameTree(name)] + ([NameTree(control)] + val))])
  {
    GroupPartsRead(input, p, name, control, q, val);
    GroupRule();
    RuleSequence(input, PROCS, 5, GroupParts(), p, q, [NameTree(name)] + ([NameTree(control)] + val));
  }

  lemma SpacedBlockReads(input: string, p: nat, control: string, q: nat, val: seq<Tree>)
    requires At(input, p, " ") && At(input, p + 1, "while") && At(input, p + 6, " ") && NameAt(input, p + 7, control)
    requires BlockAt(input, p + 7 + |control|, q, val)
    ensures Reads(input, Sequence([Unbind(BLANK)] + WordBlock("while")), p, q, [NameTree(control)] + val)
  {
    WordBlockReads(input, p + 1, "while", control, q, val);
    AtChar(input, p + 1, "while", 0);
    SpacesRead(input, p, " ");
    SkipReads(input, Unbind(BLANK), WordBlock("while"), p, p + 1, q, [NameTree(control)] + val);
  }

  // Runs of items.

  /** A parser matches again and again from `p` to `end`, with these ends and values. */
  ghost predicate Run(input: string, f: Comb, ends: seq<nat>, vals: seq<seq<Tree>>, p: nat, end: nat) {
    |ends| == |vals| + 1 && ends[0] == p && ends[|vals|] == end &&
    forall i :: 0 <= i < |vals| ==> Reads(input, f, ends[i], ends[i + 1], vals[i])
  }

  lemma RunGoesOn(input: string, f: Comb, ends: seq<nat>, vals: seq<seq<Tree>>, p: nat, mid: nat, end: nat,
                  val: seq<Tree>)
    requires Run(input, f, ends, vals, p, mid) && Reads(input, f, mid, end, val)
    ensures Run(input, f, ends + [end], vals + [val], p, end) && Row(vals + [val]) == Row(vals) + val
  {
    RowJoin(vals, [val]);
    RowOne(val);
  }

  lemma RunEnds(input: string, f: Comb, ends: seq<nat>, vals: seq<seq<Tree>>, p: nat, end: nat)
    requires p <= |input| && Run(input, f, ends, vals, p, end) && Rejects(input, f, end)
    ensures Reads(input, Many(f), p, end, Row(vals)) && (vals != [] ==> Reads(input, Some(f), p, end, Row(vals)))
  {
    ManyGives(Rule, input, f, ends, vals);
  }

  // Statements and bodies in print.

  lemma {:induction false} PrintAllStarts(ss: seq<Statement>)
    requires ss != [] && StatementsOk(ss)
    ensures PrintAll(ss) != [] && (PrintAll(ss)[0] == ' ' || PrintAll(ss)[0] == '\t')
  {
    PrintStarts(ss[|ss| - 1]);
    if |ss| == 1 {
      assert PrintAll(ss[..0]) == "";
    } else {
      PrintAllStarts(ss[..|ss| - 1]);
    }
  }

  lemma PrintStarts(s: Statement)
    requires StatementOk(s)
    ensures Print(s) != [] && (Print(s)[0] == ' ' || Print(s)[0] == '\t')
  {
  }

  /** The pieces of a block, and where they stand. */
  predicate BlockStands(input: string, p: nat, body: seq<Statement>) {
    At(input, p, ":") && At(input, p + 1, "\n") && At(input, p + 2, "INDENT") && At(input, p + 8, "\n") &&
    At(input, p + 9, PrintAll(body)) && At(input, p + 9 + |PrintAll(body)|, "DEDENT") &&
    At(input, p + 15 + |PrintAll(body)|, "\n")
  }

  lemma BlockPieces(input: string, p: nat, body: seq<Statement>)
    requires At(input, p, Block(body))
    ensures BlockStands(input, p, body) && |Block(body)| == 16 + |PrintAll(body)|
  {
    var text := PrintAll(body);
    AtJoin(input, p, ":\nINDENT\n", text + "DEDENT\n");
    AtJoin(input, p + 9, text, "DEDENT\n");
    BlockOpens(input, p);
    assert "DEDENT\n" == "DEDENT" + "\n";
    AtJoin(input, p + 9 + |text|, "DEDENT", "\n");
  }

  lemma BlockOpens(input: string, p: nat)
    requires At(input, p, ":\nINDENT\n")
    ensures At(input, p, ":") && At(input, p + 1, "\n") && At(input, p + 2, "INDENT") && At(input, p + 8, "\n")
  {
    assert ":\nINDENT\n" == ":" + ("\n" + ("INDENT" + "\n"));
    AtJoin(input, p, ":", "\n" + ("INDENT" + "\n"));
    AtJoin(input, p + 1, "\n", "INDENT" + "\n");
    AtJoin(input, p + 2, "INDENT", "\n");
  }

  /** A printed block is read to its end. */
  lemma PrintedBlock(input: string, p: nat, body: seq<Statement>)
    requires body != [] && StatementsOk(body)
    requires At(input, p, Block(body)) && NoReturnAt(input, p + |Block(body)|)
    ensures BlockAt(input, p, p + |Block(body)|, [BodyTree(body)])
    decreases body, 2
  {
    var q := p + 9 + |PrintAll(body)|;
    BlockPieces(input, p, body);
    PrintAllStarts(body);
    AtChar(input, p, ":", 0);
    AtChar(input, p + 2, "INDENT", 0);
    AtChar(input, p + 9, PrintAll(body), 0);
    NewlineIs(input, p + 1);
    NewlineIs(input, p + 8);
    NewlineIs(input, q + 6);
    PrintedBody(input, p + 9, body);
    BlockReads(input, p, q, [BodyTree(body)]);
  }

  /** So is a printed body, up to the token behind it. */
  lemma PrintedBody(input: string, p: nat, body: seq<Statement>)
    requires body != [] && StatementsOk(body)
    requires At(input, p, PrintAll(body)) && At(input, p + |PrintAll(body)|, "DEDENT")
    ensures Reads(input, Bind(STATEMENTS), p, p + |PrintAll(body)|, [BodyTree(body)])
    decreases body, 1
  {
    var q := p + |PrintAll(body)|;
    AtChar(input, q, "DEDENT", 0);
    var ends, vals := PrintedStatements(input, p, body);
    StatementItemRejects(input, q);
    RunEnds(input, StatementItem(), ends, vals, p, q);
    MemoizeLaw(Rule, input, 6, Some(StatementItem()), p);
    RuleGives(input, STATEMENTS, p, q, StatementTrees(body));
  }

  /** The items of a printed body one by one. */
  lemma {:induction false} PrintedStatements(input: string, p: nat, ss: seq<Statement>)
    returns (ends: seq<nat>, vals: seq<seq<Tree>>)
    requires StatementsOk(ss) && At(input, p, PrintAll(ss)) && NoReturnAt(input, p + |PrintAll(ss)|)
    ensures Run(input, StatementItem(), ends, vals, p, p + |PrintAll(ss)|)
    ensures |vals| == |ss| && Row(vals) == StatementTrees(ss)
    decreases ss, 0
  {
    if ss == [] {
      ends, vals := [p], [];
    } else {
      var init, s := ss[..|ss| - 1], ss[|ss| - 1];
      var mid, end := p + |PrintAll(init)|, p + |PrintAll(ss)|;
      AtJoin(input, p, PrintAll(init), Print(s));
      PrintStarts(s);
      AtChar(input, mid, Print(s), 0);
      var before, values := PrintedStatements(input, p, init);
      PrintedStatement(input, mid, s);
      StatementItemReads(input, mid, end, [StatementTree(s)]);
      RunGoesOn(input, StatementItem(), before, values, p, mid, end, [StatementTree(s)]);
      ends, vals := before + [end], values + [[StatementTree(s)]];
    }
  }

  lemma StatementItemReads(input: string, p: nat, end: nat, val: seq<Tree>)
    requires Reads(input, Bind(STATEMENT), p, end, val)
    ensures Reads(input, StatementItem(), p, end, val)
  {
    ItemReads(input, Bind(STATEMENT), p, end, val);
    ChoiceOk(Rule, input, StatementItem().fs, 0, p, end);
  }

  /** A rule and an action behind it. */
  lemma ItemReads(input: string, f: Comb, p: nat, end: nat, val: seq<Tree>)
    requires Reads(input, f, p, end, val)
    ensures Reads(input, Sequence([f, Empty]), p, end, val)
  {
    EmptyAndFailLaw(Rule, input, "", end);
    SequenceGives(Rule, input, [f, Empty], [p, end, end], [val, []]);
    RowJoin([val], [[]]);
    RowOne(val);
    RowOne([]);
    assert [val] + [[]] == [val, []];
  }

  lemma ItemRejects(input: string, f: Comb, p: nat)
    requires Rejects(input, f, p)
    ensures Rejects(input, Sequence([f, Empty]), p)
  {
    assert [f, Empty][..0] == [];
    SequenceKo(Rule, input, [f, Empty], 0, [p]);
  }

  /** There is no blank line where a character stands that is neither blank nor the end of a line, nor at the end. */
  lemma BlankLineRejects(input: string, p: nat)
    requires p <= |input| && !SpaceAt(input, p) && !HashAt(input, p) && !LineEndAt(input, p)
    ensures Rejects(input, Sequence([Unbind(BLANK), Unbind(NL)]), p)
  {
    SpacesRead(input, p, "");
    NewlineReads(input, p);
    var fs := [Unbind(BLANK), Unbind(NL)];
    assert fs[..1] == [Unbind(BLANK)];
    SequenceKo(Rule, input, fs, 1, [p, p]);
  }

  lemma StatementItemRejects(input: string, p: nat)
    requires At(input, p, "DEDENT")
    ensures Rejects(input, StatementItem(), p)
  {
    AtChar(input, p, "DEDENT", 0);
    StatementRejects(input, p);
    ItemRejects(input, Bind(STATEMENT), p);
    BlankLineRejects(input, p);
    ChoiceKo(Rule, input, StatementItem().fs, p);
  }

  lemma FirstChar(input: string, p: nat, text: string)
    requires text != ""
    ensures At(input, p, text) ==> p < |input| && input[p] == text[0]
  {
    if At(input, p, text) { AtChar(input, p, text, 0); }
  }

  lemma StatementRejects(input: string, p: nat)
    requires At(input, p, "DEDENT")
    ensures Rejects(input, Bind(STATEMENT), p)
  {
    AtChar(input, p, "DEDENT", 0);
    FirstChar(input, p, "INDENT");
    TokenReads(input, p, INDENT, 25, "INDENT");
    TokenReads(input, p, DEDENT, 26, "DEDENT");
    var f := Choice([Unbind(INDENT), Unbind(DEDENT)]);
    ChoiceOk(Rule, input, [Unbind(INDENT), Unbind(DEDENT)], 1, p, p + 6);
    LookLaw(Rule, input, f, p);
    var fs := [NoIndent(), Unbind(BLANK), CallOrIf()];
    assert fs[..0] == [];
    SequenceKo(Rule, input, fs, 0, [p]);
    SequenceRuleRejects(input, STATEMENT, 7, fs, p);
  }

  lemma NoIndentReads(input: string, p: nat)
    requires SpaceAt(input, p)
    ensures Reads(input, NoIndent(), p, p, [])
  {
    FirstChar(input, p, "INDENT");
    FirstChar(input, p, "DEDENT");
    TokenReads(input, p, INDENT, 25, "INDENT");
    TokenReads(input, p, DEDENT, 26, "DEDENT");
    ChoiceKo(Rule, input, [Unbind(INDENT), Unbind(DEDENT)], p);
    LookLaw(Rule, input, Choice([Unbind(INDENT), Unbind(DEDENT)]), p);
  }

  /** The blanks in front of a statement, and a call or a condition behind them. */
  lemma PaddedReads(input: string, p: nat, pad: string, end: nat, val: seq<Tree>)
    requires IsPad(pad) && At(input, p, pad) && !SpaceAt(input, p + |pad|) && !HashAt(input, p + |pad|)
    requires Reads(input, CallOrIf(), p + |pad|, end, val)
    ensures Reads(input, Bind(STATEMENT), p, end, [Node(STATEMENT, val)])
  {
    var mid, fs := p + |pad|, [NoIndent(), Unbind(BLANK), CallOrIf()];
    AtChar(input, p, pad, 0);
    NoIndentReads(input, p);
    SpacesRead(input, p, pad);
    LastReads(input, CallOrIf(), mid, end, val);
    SkipReads(input, Unbind(BLANK), [CallOrIf()], p, mid, end, val);
    SkipReads(input, NoIndent(), [Unbind(BLANK)] + [CallOrIf()], p, p, end, val);
    assert fs == [NoIndent()] + ([Unbind(BLANK)] + [CallOrIf()]);
    RuleSequence(input, STATEMENT, 7, fs, p, end, val);
  }

  lemma LastReads(input: string, f: Comb, p: nat, end: nat, val: seq<Tree>)
    requires Reads(input, f, p, end, val)
    ensures Reads(input, Sequence([f]), p, end, val)
  {
    SequenceGives(Rule, input, [f], [p, end], [val]);
    RowOne(val);
  }

  /** A printed statement is read to its end. */
  lemma PrintedStatement(input: string, p: nat, s: Statement)
    requires StatementOk(s) && At(input, p, Print(s)) && NoReturnAt(input, p + |Print(s)|)
    ensures Reads(input, Bind(STATEMENT), p, p + |Print(s)|, [StatementTree(s)])
    decreases s
  {
    match s
    case CallOf(pad, starred, name) => PrintedCall(input, p, pad, starred, name);
    case IfOf(pad, name, body) => PrintedIf(input, p, pad, name, body);
  }

  lemma PrintedCall(input: string, p: nat, pad: string, starred: bool, name: string)
    requires var s := CallOf(pad, starred, name);
      StatementOk(s) && At(input, p, Print(s)) && NoReturnAt(input, p + |Print(s)|)
    ensures var s := CallOf(pad, starred, name);
      Reads(input, Bind(STATEMENT), p, p + |Print(s)|, [StatementTree(s)])
  {
    var call := CallText(CallOf(pad, starred, name));
    var mid := p + |pad|;
    var end := mid + |call|;
    CallPieces(input, p, pad, call);
    CallStands(input, mid, starred, name);
    CallReads(input, mid, starred, name);
    ChoiceOk(Rule, input, [Bind(CALL), Bind(IF_STMT)], 0, mid, end + 1);
    PaddedReads(input, p, pad, end + 1, [Node(CALL, [Text(call)])]);
  }

  lemma CallPieces(input: string, p: nat, pad: string, call: string)
    requires At(input, p, pad + (call + "\n")) && NoReturnAt(input, p + |pad| + |call| + 1)
    ensures At(input, p, pad) && At(input, p + |pad|, call) && NewlineAt(input, p + |pad| + |call|)
  {
    AtJoin(input, p, pad, call + "\n");
    AtJoin(input, p + |pad|, call, "\n");
    NewlineIs(input, p + |pad| + |call|);
  }

  lemma CallStands(input: string, p: nat, starred: bool, name: string)
    requires IsName(name) && At(input, p, (if starred then "*" else "") + name)
    requires !NameCharAt(input, p + (if starred then 1 else 0) + |name|)
    ensures CallAt(input, p, starred, name) && !SpaceAt(input, p) && !HashAt(input, p)
  {
    if starred {
      AtJoin(input, p, "*", name);
      AtChar(input, p, "*", 0);
    } else {
      assert "" + name == name;
      AtChar(input, p, name, 0);
    }
  }

  lemma PrintedIf(input: string, p: nat, pad: string, name: string, body: seq<Statement>)
    requires var s := IfOf(pad, name, body);
      StatementOk(s) && At(input, p, Print(s)) && NoReturnAt(input, p + |Print(s)|)
    ensures var s := IfOf(pad, name, body);
      Reads(input, Bind(STATEMENT), p, p + |Print(s)|, [StatementTree(s)])
    decreases body, 3
  {
    var mid, end := p + |pad|, p + |Print(IfOf(pad, name, body))|;
    AtJoin(input, p, pad, "if " + (name + Block(body)));
    IfPieces(input, mid, name, body);
    PrintedBlock(input, mid + 3 + |name|, body);
    ConditionReads(input, mid, name, end, BodyTree(body));
    AtChar(input, mid, "if", 0);
    PaddedReads(input, p, pad, end, [Node(IF_STMT, [NameTree(name), BodyTree(body)])]);
  }

  lemma ConditionReads(input: string, p: nat, name: string, end: nat, body: Tree)
    requires At(input, p, "if") && At(input, p + 2, " ") && NameAt(input, p + 3, name)
    requires BlockAt(input, p + 3 + |name|, end, [body])
    ensures Reads(input, CallOrIf(), p, end, [Node(IF_STMT, [NameTree(name), body])])
  {
    IfReads(input, p, name, end, [body]);
    NoCallAtIf(input, p, name);
    ChoiceOk(Rule, input, [Bind(CALL), Bind(IF_STMT)], 1, p, end);
    assert [NameTree(name)] + [body] == [NameTree(name), body];
  }

  lemma IfPieces(input: string, p: nat, name: string, body: seq<Statement>)
    requires IsName(name) && At(input, p, "if " + (name + Block(body)))
    ensures At(input, p, "if") && At(input, p + 2, " ") && NameAt(input, p + 3, name)
    ensures At(input, p + 3 + |name|, Block(body))
  {
    AtJoin(input, p, "if ", name + Block(body));
    assert "if " == "if" + " ";
    AtJoin(input, p, "if", " ");
    NamedBlock(input, p + 3, name, body);
  }

  lemma NamedBlock(input: string, p: nat, name: string, body: seq<Statement>)
    requires IsName(name) && At(input, p, name + Block(body))
    ensures NameAt(input, p, name) && At(input, p + |name|, Block(body))
  {
    AtJoin(input, p, name, Block(body));
    AtChar(input, p + |name|, Block(body), 0);
  }

  lemma NoCallAtIf(input: string, p: nat, name: string)
    requires At(input, p, "if") && At(input, p + 2, " ") && NameAt(input, p + 3, name)
    ensures Rejects(input, Bind(CALL), p)
  {
    AtChar(input, p + 2, " ", 0);
    AtChar(input, p + 3, name, 0);
    CallRejects(input, p, "if", " ");
  }

  // Puppets, groups and comments.

  function PuppetParts(): seq<Comb> {
    [Bind(NAME), Unbind(BLANK), Literal('='), Unbind(BLANK), Bind(CMD_STR), Unbind(BLANK), Unbind(NL), Empty]
  }

  /** What a puppet line has behind its name. */
  function CommandParts(): seq<Comb> {
    [Literal('=')] + ([Unbind(BLANK)] + ([Bind(CMD_STR)] + [Unbind(BLANK), Unbind(NL), Empty]))
  }

  function CommandTree(command: string): Tree {
    Node(CMD_STR, [Text(command)])
  }

  /** A comment behind a command, and the end of the line. */
  lemma LineEndReads(input: string, p: nat, tail: string)
    requires At(input, p, tail) && NewlineAt(input, p + |tail|)
    requires tail == "" || (tail[0] == '#' && OnOneLine(tail))
    ensures Reads(input, Sequence([Unbind(BLANK), Unbind(NL), Empty]), p, p + |tail| + 1, [])
  {
    var end := p + |tail|;
    if tail == "" {
      SpacesRead(input, p, "");
    } else {
      assert ['#'] + tail[1..] == tail;
      RemarkReads(input, p, tail[1..]);
    }
    NewlineReads(input, end);
    TwoReads(input, Unbind(BLANK), Unbind(NL), p, end, end + 1);
  }

  lemma CommandRestReads(input: string, p: nat, command: string, tail: string)
    requires At(input, p, command) && IsCommand(command) && IsTail(command, tail)
    requires At(input, p + |command|, tail) && NewlineAt(input, p + |command| + |tail|)
    ensures var fs := [Bind(CMD_STR)] + [Unbind(BLANK), Unbind(NL), Empty];
      Reads(input, Sequence(fs), p, p + |command| + |tail| + 1, [CommandTree(command)])
  {
    var q, end := p + |command|, p + |command| + |tail| + 1;
    if tail != "" { AtChar(input, q, tail, 0); }
    LineEndReads(input, q, tail);
    CommandReads(input, p, command);
    LeadReads(input, Bind(CMD_STR), [Unbind(BLANK), Unbind(NL), Empty], p, q, end, [CommandTree(command)]);
  }

  lemma CommandPartsRead(input: string, p: nat, command: string, tail: string)
    requires At(input, p, "= ") && At(input, p + 2, command) && IsCommand(command) && IsTail(command, tail)
    requires At(input, p + 2 + |command|, tail) && NewlineAt(input, p + 2 + |command| + |tail|)
    ensures Reads(input, Sequence(CommandParts()), p, p + 3 + |command| + |tail|, [CommandTree(command)])
  {
    var mid, end := p + 2, p + 3 + |command| + |tail|;
    var rest, val := [Unbind(BLANK), Unbind(NL), Empty], [CommandTree(command)];
    CommandRestReads(input, mid, command, tail);
    CommandStarts(input, p, command);
    SpacesRead(input, p + 1, " ");
    SkipReads(input, Unbind(BLANK), [Bind(CMD_STR)] + rest, p + 1, mid, end, val);
    LiteralTakes(input, '=', p);
    SkipReads(input, Literal('='), [Unbind(BLANK)] + ([Bind(CMD_STR)] + rest), p, p + 1, end, val);
  }

  lemma CommandStarts(input: string, p: nat, command: string)
    requires At(input, p, "= ") && At(input, p + 2, command) && IsCommand(command)
    requires command == "" ==> NewlineAt(input, p + 2)
    ensures input[p] == '=' && At(input, p + 1, " ") && !SpaceAt(input, p + 2) && !HashAt(input, p + 2)
  {
    assert "= " == "=" + " ";
    AtJoin(input, p, "=", " ");
    AtChar(input, p, "=", 0);
    if command != "" { AtChar(input, p + 2, command, 0); }
  }

  lemma PuppetRule()
    ensures Rule(PUPPET) == MemoizeBind(2, Sequence(PuppetParts()))
  {
  }

  lemma PuppetList()
    ensures PuppetParts() == [Bind(NAME)] + ([Unbind(BLANK)] + CommandParts())
  {
  }

  lemma PuppetPartsRead(input: string, p: nat, name: string, command: string, tail: string)
    requires NameAt(input, p, name) && At(input, p + |name|, " ") && At(input, p + |name| + 1, "= ")
    requires At(input, p + |name| + 3, command) && IsCommand(command) && IsTail(command, tail)
    requires At(input, p + |name| + 3 + |command|, tail) && NewlineAt(input, p + |name| + 3 + |command| + |tail|)
    ensures var val := [NameTree(name)] + [CommandTree(command)];
      Reads(input, Sequence(PuppetParts()), p, p + |name| + 4 + |command| + |tail|, val)
  {
    var mid, end, val := p + |name|, p + |name| + 4 + |command| + |tail|, [CommandTree(command)];
    CommandPartsRead(input, mid + 1, command, tail);
    AtChar(input, mid + 1, "= ", 0);
    SpacesRead(input, mid, " ");
    SkipReads(input, Unbind(BLANK), CommandParts(), mid, mid + 1, end, val);
    NameReads(input, p, name);
    PuppetList();
    ConsReads(input, Bind(NAME), [Unbind(BLANK)] + CommandParts(), p, mid, end, [NameTree(name)], val);
  }

  lemma PuppetPartsReject(input: string, p: nat, mid: nat, q: nat)
    requires Ok(Rule, input, Bind(NAME), p, mid) && Ok(Rule, input, Unbind(BLANK), mid, q)
    requires Rejects(input, Literal('='), q)
    ensures Rejects(input, Sequence(PuppetParts()), p)
  {
    ThirdRejects(input, PuppetParts(), p, mid, q);
  }

  lemma PuppetRuleRejects(input: string, p: nat)
    requires Rejects(input, Sequence(PuppetParts()), p)
    ensures Rejects(input, Bind(PUPPET), p)
  {
    PuppetRule();
    SequenceRuleRejects(input, PUPPET, 2, PuppetParts(), p);
  }

  lemma NameAndSpace(input: string, p: nat, name: string)
    requires NameAt(input, p, name) && At(input, p + |name|, " ") && At(input, p + |name| + 1, "while")
    ensures Reads(input, Bind(NAME), p, p + |name|, [NameTree(name)]) && input[p + |name| + 1] == 'w'
    ensures Reads(input, Unbind(BLANK), p + |name|, p + |name| + 1, [])
  {
    AtChar(input, p + |name| + 1, "while", 0);
    NameReads(input, p, name);
    SpacesRead(input, p + |name|, " ");
  }

  /** A name with something else than an equals sign behind it is no puppet. */
  lemma PuppetRejects(input: string, p: nat, name: string)
    requires NameAt(input, p, name) && At(input, p + |name|, " ") && At(input, p + |name| + 1, "while")
    ensures Rejects(input, Bind(PUPPET), p)
  {
    var mid := p + |name|;
    NameAndSpace(input, p, name);
    LiteralTakes(input, '=', mid + 1);
    PuppetPartsReject(input, p, mid, mid + 1);
    PuppetRuleRejects(input, p);
  }

  /** A rule that is a sequence and begins with a name. */
  lemma NamelessRejects(input: string, k: nat, id: nat, fs: seq<Comb>, p: nat)
    requires p <= |input| && !LetterAt(input, p)
    requires Rule(k) == MemoizeBind(id, Sequence(fs)) && fs != [] && fs[0] == Bind(NAME)
    ensures Rejects(input, Bind(k), p)
  {
    NameRejects(input, p);
    assert fs[..0] == [];
    SequenceKo(Rule, input, fs, 0, [p]);
    SequenceRuleRejects(input, k, id, fs, p);
  }

  lemma NoPartHere(input: string, p: nat)
    requires p <= |input| && !LetterAt(input, p)
    ensures Rejects(input, Sequence([Bind(PUPPET), Empty]), p) && Rejects(input, Sequence([Bind(PROCS), Empty]), p)
  {
    PuppetRule();
    GroupRule();
    NamelessRejects(input, PUPPET, 2, PuppetParts(), p);
    NamelessRejects(input, PROCS, 5, GroupParts(), p);
    ItemRejects(input, Bind(PUPPET), p);
    ItemRejects(input, Bind(PROCS), p);
  }

  lemma ScriptItemRejects(input: string)
    ensures Rejects(input, ScriptItem(), |input|)
  {
    NoPartHere(input, |input|);
    BlankLineRejects(input, |input|);
    ChoiceKo(Rule, input, ScriptItem().fs, |input|);
  }

  // Scripts in print.

  /** A printed part is read to its end. */
  lemma PrintedPart(input: string, p: nat, part: Part)
    requires PartOk(part) && At(input, p, PrintPart(part)) && NoReturnAt(input, p + |PrintPart(part)|)
    ensures Reads(input, ScriptItem(), p, p + |PrintPart(part)|, PartTrees(part))
  {
    match part
    case PuppetPart(name, command, tail) => PrintedPuppet(input, p, name, command, tail);
    case GroupPart(name, control, body) => PrintedGroup(input, p, name, control, body);
    case Remark(text) => PrintedRemark(input, p, text);
  }

  lemma PrintedPuppet(input: string, p: nat, name: string, command: string, tail: string)
    requires var part := PuppetPart(name, command, tail);
      PartOk(part) && At(input, p, PrintPart(part)) && NoReturnAt(input, p + |PrintPart(part)|)
    ensures var part := PuppetPart(name, command, tail);
      Reads(input, ScriptItem(), p, p + |PrintPart(part)|, PartTrees(part))
  {
    var end, val := p + |name| + 4 + |command| + |tail|, [NameTree(name)] + [CommandTree(command)];
    PuppetPieces(input, p, name, command, tail);
    NewlineIs(input, end - 1);
    PuppetPartsRead(input, p, name, command, tail);
    PuppetRule();
    RuleSequence(input, PUPPET, 2, PuppetParts(), p, end, val);
    ItemReads(input, Bind(PUPPET), p, end, [Node(PUPPET, val)]);
    ChoiceOk(Rule, input, ScriptItem().fs, 0, p, end);
    assert val == [NameTree(name), CommandTree(command)];
  }

  lemma PuppetPieces(input: string, p: nat, name: string, command: string, tail: string)
    requires IsName(name) && At(input, p, name + (" = " + ((command + tail) + "\n")))
    ensures NameAt(input, p, name) && At(input, p + |name|, " ") && At(input, p + |name| + 1, "= ")
    ensures At(input, p + |name| + 3, command) && At(input, p + |name| + 3 + |command|, tail)
    ensures At(input, p + |name| + 3 + |command| + |tail|, "\n")
  {
    var mid := p + |name|;
    AtJoin(input, p, name, " = " + ((command + tail) + "\n"));
    AtJoin(input, mid, " = ", (command + tail) + "\n");
    AtJoin(input, mid + 3, command + tail, "\n");
    AtJoin(input, mid + 3, command, tail);
    assert " = " == " " + "= ";
    AtJoin(input, mid, " ", "= ");
    AtChar(input, mid, " ", 0);
  }

  lemma PrintedGroup(input: string, p: nat, name: string, control: string, body: seq<Statement>)
    requires var part := GroupPart(name, control, body);
      PartOk(part) && At(input, p, PrintPart(part)) && NoReturnAt(input, p + |PrintPart(part)|)
    ensures var part := GroupPart(name, control, body);
      Reads(input, ScriptItem(), p, p + |PrintPart(part)|, PartTrees(part))
  {
    var end := p + |PrintPart(GroupPart(name, control, body))|;
    var val := [NameTree(name)] + ([NameTree(control)] + [BodyTree(body)]);
    GroupPieces(input, p, name, control, body);
    PrintedBlock(input, p + |name| + 7 + |control|, body);
    GroupReads(input, p, name, control, end, [BodyTree(body)]);
    ItemReads(input, Bind(PROCS), p, end, [Node(PROCS, val)]);
    PuppetRejects(input, p, name);
    ItemRejects(input, Bind(PUPPET), p);
    ChoiceOk(Rule, input, ScriptItem().fs, 1, p, end);
    assert val == [NameTree(name), NameTree(control), BodyTree(body)];
  }

  lemma MarkedAt(input: string, p: nat, name: string, mark: string)
    requires IsName(name) && At(input, p, name + (" " + mark))
    ensures NameAt(input, p, name) && At(input, p + |name|, " ") && At(input, p + |name| + 1, mark)
  {
    AtJoin(input, p, name, " " + mark);
    AtJoin(input, p + |name|, " ", mark);
    AtChar(input, p + |name|, " ", 0);
  }

  lemma ControlAt(input: string, p: nat, control: string, block: string)
    requires IsName(control) && block != "" && block[0] == ':' && At(input, p, "while " + (control + block))
    ensures At(input, p, "while") && At(input, p + 5, " ") && NameAt(input, p + 6, control)
    ensures At(input, p + 6 + |control|, block)
  {
    AtJoin(input, p, "while ", control + block);
    AtJoin(input, p + 6, control, block);
    AtChar(input, p + 6 + |control|, block, 0);
    assert "while " == "while" + " ";
    AtJoin(input, p, "while", " ");
  }

  lemma GroupPieces(input: string, p: nat, name: string, control: string, body: seq<Statement>)
    requires IsName(name) && IsName(control) && At(input, p, name + (" while " + (control + Block(body))))
    ensures NameAt(input, p, name) && At(input, p + |name|, " ") && At(input, p + |name| + 1, "while")
    ensures At(input, p + |name| + 6, " ") && NameAt(input, p + |name| + 7, control)
    ensures At(input, p + |name| + 7 + |control|, Block(body))
  {
    WhileText(control + Block(body));
    MarkedAt(input, p, name, "while " + (control + Block(body)));
    ControlAt(input, p + |name| + 1, control, Block(body));
  }

  lemma WhileText(text: string)
    ensures " while " + text == " " + ("while " + text)
  {
  }

  lemma PrintedRemark(input: string, p: nat, text: string)
    requires OnOneLine(text) && At(input, p, "#" + text + "\n") && NoReturnAt(input, p + 2 + |text|)
    ensures Reads(input, ScriptItem(), p, p + 2 + |text|, [])
  {
    var mid := p + 1 + |text|;
    AtJoin(input, p, "#" + text, "\n");
    AtChar(input, p, "#" + text, 0);
    NewlineIs(input, mid);
    assert "#" + text == ['#'] + text;
    RemarkReads(input, p, text);
    NewlineReads(input, mid);
    PairReads(input, Unbind(BLANK), Unbind(NL), p, mid, mid + 1);
    NoPartHere(input, p);
    ChoiceOk(Rule, input, ScriptItem().fs, 2, p, mid + 1);
  }

  lemma PartStarts(part: Part)
    requires PartOk(part)
    ensures PrintPart(part) != [] && PrintPart(part)[0] != '\r'
  {
  }

  predicate ScriptOk(parts: seq<Part>) {
    parts == [] || (ScriptOk(parts[..|parts| - 1]) && PartOk(parts[|parts| - 1]))
  }

  lemma NextStarts(input: string, p: nat, a: string, b: string)
    requires At(input, p, a + b) && b != [] && b[0] != '\r'
    ensures At(input, p, a) && At(input, p + |a|, b) && NoReturnAt(input, p + |a|)
  {
    AtJoin(input, p, a, b);
    AtChar(input, p + |a|, b, 0);
  }

  /** A part behind anything else. */
  lemma PartBehind(input: string, p: nat, a: string, part: Part)
    requires PartOk(part) && At(input, p, a + PrintPart(part)) && NoReturnAt(input, p + |a| + |PrintPart(part)|)
    ensures At(input, p, a) && NoReturnAt(input, p + |a|)
    ensures Reads(input, ScriptItem(), p + |a|, p + |a| + |PrintPart(part)|, PartTrees(part))
  {
    PartStarts(part);
    NextStarts(input, p, a, PrintPart(part));
    PrintedPart(input, p + |a|, part);
  }

  /** A script stands there, up to `q`, and this is what it is to give. */
  predicate ScriptAt(input: string, p: nat, parts: seq<Part>, q: nat, trees: seq<Tree>) {
    At(input, p, PrintScript(parts)) && q == p + |PrintScript(parts)| && trees == ScriptTrees(parts)
  }

  /** The last part of a script, behind the text and the trees of the others. */
  lemma LastPart(input: string, p: nat, a: string, before: seq<Tree>, part: Part, q: nat, trees: seq<Tree>)
    returns (mid: nat, val: seq<Tree>)
    requires PartOk(part) && NoReturnAt(input, q)
    requires At(input, p, a + PrintPart(part)) && q == p + |a + PrintPart(part)|
    requires trees == before + PartTrees(part)
    ensures At(input, p, a) && mid == p + |a| && NoReturnAt(input, mid)
    ensures Reads(input, ScriptItem(), mid, q, val) && trees == before + val
  {
    mid, val := p + |a|, PartTrees(part);
    PartBehind(input, p, a, part);
  }

  lemma {:induction false} PrintedParts(input: string, p: nat, parts: seq<Part>, q: nat, trees: seq<Tree>)
    returns (ends: seq<nat>, vals: seq<seq<Tree>>)
    requires ScriptOk(parts) && ScriptAt(input, p, parts, q, trees) && NoReturnAt(input, q)
    ensures Run(input, ScriptItem(), ends, vals, p, q) && Row(vals) == trees
    decreases |parts|
  {
    if parts == [] {
      ends, vals := [p], [];
    } else {
      var init := parts[..|parts| - 1];
      var before := ScriptTrees(init);
      var mid, val := LastPart(input, p, PrintScript(init), before, parts[|parts| - 1], q, trees);
      ends, vals := PrintedParts(input, p, init, mid, before);
      RunGoesOn(input, ScriptItem(), ends, vals, p, mid, q, val);
      ends, vals := ends + [q], vals + [val];
    }
  }

  /** A script ends where its next item fails. */
  lemma ScriptStops(input: string, parts: seq<Part>)
    requires ScriptOk(parts) && At(input, 0, PrintScript(parts))
    requires NoReturnAt(input, |PrintScript(parts)|) && Rejects(input, ScriptItem(), |PrintScript(parts)|)
    ensures Reads(input, Bind(SCRIPT), 0, |PrintScript(parts)|, [Node(SCRIPT, ScriptTrees(parts))])
  {
    var ends, vals := PrintedParts(input, 0, parts, |PrintScript(parts)|, ScriptTrees(parts));
    RunEnds(input, ScriptItem(), ends, vals, 0, |PrintScript(parts)|);
    MemoizeLaw(Rule, input, 1, Many(ScriptItem()), 0);
    RuleGives(input, SCRIPT, 0, |PrintScript(parts)|, ScriptTrees(parts));
  }

  /** A printed script parses to itself, and nothing of it is left. */
  lemma ScriptReads(parts: seq<Part>)
    requires ScriptOk(parts)
    ensures var text := PrintScript(parts);
      Reads(text, Bind(SCRIPT), 0, |text|, [Node(SCRIPT, ScriptTrees(parts))])
  {
    var text := PrintScript(parts);
    assert At(text, 0, text);
    ScriptItemRejects(text);
    ScriptStops(text, parts);
  }
}
