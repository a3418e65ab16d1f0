/** What the smallest rules of the script grammar match: names, blanks, comments, line ends, tokens and the
    text of a command. */
module HwlLexis {
  import opened Grammar
  import opened Meaning
  import opened Laws
  import opened Hwl

  ghost predicate Reads(input: string, c: Comb, p: nat, end: nat, val: seq<Tree>) {
    Gives(Rule, input, c, p, end, val)
  }

  ghost predicate Rejects(input: string, c: Comb, p: nat) {
    Ko(Rule, input, c, p)
  }

  /** The text stands in the input from `p` on. */
  predicate At(input: string, p: nat, text: string) {
    p + |text| <= |input| && input[p..p + |text|] == text
  }

  lemma AtJoin(input: string, p: nat, a: string, b: string)
    ensures At(input, p, a + b) <==> At(input, p, a) && At(input, p + |a|, b)
  {
    if At(input, p, a + b) {
      assert input[p..p + |a|] == (a + b)[..|a|] && input[p + |a|..p + |a| + |b|] == (a + b)[|a|..];
    }
    if At(input, p, a) && At(input, p + |a|, b) {
      assert input[p..p + |a + b|] == input[p..p + |a|] + input[p + |a|..p + |a| + |b|];
    }
  }

  lemma AtChar(input: string, p: nat, text: string, i: nat)
    requires At(input, p, text) && i < |text|
    ensures input[p + i] == text[i]
  {
    assert input[p..p + |text|][i] == input[p + i];
  }

  // Characters.

  predicate IsLetter(c: char) {
    'a' <= c <= 'z' || 'A' <= c <= 'Z' || c == '_'
  }

  predicate IsDigit(c: char) { '0' <= c <= '9' }

  predicate InName(c: char) {
    IsLetter(c) || IsDigit(c) || c == '-'
  }

  predicate IsName(n: string) {
    n != [] && IsLetter(n[0]) && forall i :: 0 < i < |n| ==> InName(n[i])
  }

  /** The rule at the number, run from a rule that calls it. */
  lemma RuleGives(input: string, k: nat, p: nat, end: nat, val: seq<Tree>)
    requires Reads(input, Rule(k), p, end, val)
    ensures Reads(input, Bind(k), p, end, [Node(k, val)]) && Reads(input, Unbind(k), p, end, [])
  {
    BindLaw(Rule, input, k, p);
  }

  lemma RuleRejects(input: string, k: nat, p: nat)
    requires Rejects(input, Rule(k), p)
    ensures Rejects(input, Bind(k), p) && Rejects(input, Unbind(k), p)
  {
    BindLaw(Rule, input, k, p);
  }

  /** A rule that captures what a parser goes over. */
  lemma CaptureRule(input: string, k: nat, id: nat, f: Comb, p: nat, end: nat)
    requires Rule(k) == MemoizeBind(id, Capture(f)) && Reads(input, f, p, end, [])
    ensures p <= end <= |input| && Reads(input, Bind(k), p, end, [Node(k, [Text(input[p..end])])])
    ensures Reads(input, Unbind(k), p, end, [])
  {
    CaptureLaw(Rule, input, f, p);
    MemoizeLaw(Rule, input, id, Capture(f), p);
    RuleGives(input, k, p, end, [Text(input[p..end])]);
  }

  // One character at a time.

  predicate LetterAt(input: string, p: nat) { p < |input| && IsLetter(input[p]) }

  predicate DigitAt(input: string, p: nat) { p < |input| && IsDigit(input[p]) }

  predicate NameCharAt(input: string, p: nat) { p < |input| && InName(input[p]) }

  predicate SpaceAt(input: string, p: nat) { p < |input| && (input[p] == ' ' || input[p] == '\t') }

  predicate LineEndAt(input: string, p: nat) { p < |input| && (input[p] == '\n' || input[p] == '\r') }

  /** The parser takes one character, without a value, or rejects. */
  ghost predicate TakesIf(input: string, c: Comb, p: nat, ok: bool) {
    if ok then Reads(input, c, p, p + 1, []) else Rejects(input, c, p)
  }

  lemma LiteralTakes(input: string, c: char, p: nat)
    requires p <= |input| && c != '\0'
    ensures TakesIf(input, Literal(c), p, p < |input| && input[p] == c)
  {
    LiteralLaw(Rule, input, c, p);
  }

  lemma BetweenTakes(input: string, lo: char, hi: char, p: nat)
    requires p <= |input| && lo != '\0'
    ensures TakesIf(input, Between(lo, hi), p, p < |input| && lo <= input[p] <= hi)
  {
    BetweenLaw(Rule, input, lo, hi, p);
  }

  /** A choice of parsers that take one character takes it if one of them does. */
  lemma ChoiceTakes(input: string, fs: seq<Comb>, p: nat, oks: seq<bool>)
    requires p <= |input| && |oks| == |fs| && forall i :: 0 <= i < |fs| ==> TakesIf(input, fs[i], p, oks[i])
    ensures TakesIf(input, Choice(fs), p, exists i :: 0 <= i < |oks| && oks[i])
  {
    if exists i :: 0 <= i < |oks| && oks[i] {
      var k := FirstTrue(oks);
      assert TakesIf(input, fs[k], p, oks[k]);
      forall i | 0 <= i < k ensures Ko(Rule, input, fs[i], p) { assert TakesIf(input, fs[i], p, oks[i]); }
      ChoiceOk(Rule, input, fs, k, p, p + 1);
    } else {
      forall i | 0 <= i < |fs| ensures Ko(Rule, input, fs[i], p) { assert TakesIf(input, fs[i], p, oks[i]); }
      ChoiceKo(Rule, input, fs, p);
    }
  }

  lemma {:induction false} FirstTrue(oks: seq<bool>) returns (k: nat)
    requires exists i :: 0 <= i < |oks| && oks[i]
    ensures k < |oks| && oks[k] && forall i :: 0 <= i < k ==> !oks[i]
  {
    if oks[0] {
      k := 0;
    } else {
      var i :| 0 <= i < |oks| && oks[i];
      assert oks[1..][i - 1];
      k := FirstTrue(oks[1..]);
      k := k + 1;
    }
  }

  /** A rule that memoizes a parser of one character. */
  lemma RuleTakes(input: string, k: nat, id: nat, f: Comb, p: nat, ok: bool)
    requires Rule(k) == Memoize(id, f) && p <= |input| && TakesIf(input, f, p, ok)
    ensures TakesIf(input, Unbind(k), p, ok)
  {
    MemoizeLaw(Rule, input, id, f, p);
    BindLaw(Rule, input, k, p);
  }

  lemma LetterTakes(input: string, p: nat)
    requires p <= |input|
    ensures TakesIf(input, Unbind(LETTER), p, LetterAt(input, p))
  {
    var fs := [Between('a', 'z'), Between('A', 'Z'), Literal('_')];
    BetweenTakes(input, 'a', 'z', p);
    BetweenTakes(input, 'A', 'Z', p);
    LiteralTakes(input, '_', p);
    var at := p < |input|;
    var oks := [at && 'a' <= input[p] <= 'z', at && 'A' <= input[p] <= 'Z', at && input[p] == '_'];
    ChoiceTakes(input, fs, p, oks);
    assert LetterAt(input, p) ==> oks[0] || oks[1] || oks[2];
    RuleTakes(input, LETTER, 16, Choice(fs), p, LetterAt(input, p));
  }

  lemma NumberTakes(input: string, p: nat)
    requires p <= |input|
    ensures TakesIf(input, Unbind(NUMBER), p, DigitAt(input, p))
  {
    BetweenTakes(input, '0', '9', p);
    RuleTakes(input, NUMBER, 17, Between('0', '9'), p, DigitAt(input, p));
  }

  lemma SpaceTakes(input: string, p: nat)
    requires p <= |input|
    ensures TakesIf(input, Unbind(SPACE), p, SpaceAt(input, p))
  {
    LiteralTakes(input, ' ', p);
    LiteralTakes(input, '\t', p);
    var oks := [p < |input| && input[p] == ' ', p < |input| && input[p] == '\t'];
    ChoiceTakes(input, [Literal(' '), Literal('\t')], p, oks);
    assert SpaceAt(input, p) ==> oks[0] || oks[1];
    RuleTakes(input, SPACE, 22, Choice([Literal(' '), Literal('\t')]), p, SpaceAt(input, p));
  }

  lemma NameCharTakes(input: string, p: nat)
    requires p <= |input|
    ensures TakesIf(input, Choice([Unbind(LETTER), Unbind(NUMBER), Literal('-')]), p, NameCharAt(input, p))
  {
    LetterTakes(input, p);
    NumberTakes(input, p);
    LiteralTakes(input, '-', p);
    var oks := [LetterAt(input, p), DigitAt(input, p), p < |input| && input[p] == '-'];
    ChoiceTakes(input, [Unbind(LETTER), Unbind(NUMBER), Literal('-')], p, oks);
    assert NameCharAt(input, p) ==> oks[0] || oks[1] || oks[2];
  }

  // The end of a line.

  /** A newline, and no carriage return behind it. */
  predicate NewlineAt(input: string, p: nat) {
    p < |input| && input[p] == '\n' && (p + 1 < |input| ==> input[p + 1] != '\r')
  }

  /** A newline and a carriage return behind it are one end of a line. */
  function EndWidth(input: string, p: nat): nat
    requires p < |input|
  {
    if input[p] == '\n' && p + 1 < |input| && input[p + 1] == '\r' then 2 else 1
  }

  lemma BothAt(input: string, p: nat)
    requires p < |input|
    ensures EndWidth(input, p) == 2 ==> "\n\r" <= input[p..]
  {
    if EndWidth(input, p) == 2 { assert input[p..][..2] == "\n\r"; }
  }

  lemma NewlineReads(input: string, p: nat)
    requires p <= |input|
    ensures LineEndAt(input, p) ==> Reads(input, Unbind(NL), p, p + EndWidth(input, p), [])
    ensures !LineEndAt(input, p) ==> Rejects(input, Unbind(NL), p)
  {
    var two := LiteralString("\n\r");
    var fs := [two, Literal('\n'), Literal('\r')];
    LiteralStringLaw(Rule, input, "\n\r", p);
    LiteralTakes(input, '\n', p);
    LiteralTakes(input, '\r', p);
    MemoizeLaw(Rule, input, 23, Choice(fs), p);
    BindLaw(Rule, input, NL, p);
    assert Rule(NL) == Memoize(23, Choice(fs));
    if "\n\r" <= input[p..] {
      assert input[p] == "\n\r"[0] && input[p + 1] == "\n\r"[1];
      ChoiceOk(Rule, input, fs, 0, p, p + 2);
    } else if LineEndAt(input, p) {
      BothAt(input, p);
      ChoiceOk(Rule, input, fs, if input[p] == '\n' then 1 else 2, p, p + 1);
    } else {
      ChoiceKo(Rule, input, fs, p);
    }
  }

  // Runs of characters.

  function NoValues(n: nat): seq<seq<Tree>> {
    seq(n, i => [])
  }

  lemma {:induction false} EmptyRow(n: nat)
    ensures Row(NoValues(n)) == []
  {
    if n == 0 {
    } else {
      EmptyRow(n - 1);
      assert NoValues(n)[1..] == NoValues(n - 1);
    }
  }

  /** A repetition takes as many characters as there are. */
  lemma RunReads(input: string, f: Comb, p: nat, n: nat)
    requires p + n <= |input| && Rejects(input, f, p + n)
    requires forall q: nat :: p <= q < p + n ==> TakesIf(input, f, q, true)
    ensures Reads(input, Many(f), p, p + n, []) && (n > 0 ==> Reads(input, Some(f), p, p + n, []))
  {
    var ends, vals := seq(n + 1, (i: nat) => p + i), NoValues(n);
    forall i | 0 <= i < n ensures Gives(Rule, input, f, ends[i], ends[i + 1], vals[i]) {
      assert TakesIf(input, f, p + i, true);
    }
    ManyGives(Rule, input, f, ends, vals);
    EmptyRow(n);
  }

  /** Two parsers without values, one behind the other. */
  lemma PairReads(input: string, a: Comb, b: Comb, p: nat, mid: nat, end: nat)
    requires Reads(input, a, p, mid, []) && Reads(input, b, mid, end, [])
    ensures Reads(input, Sequence([a, b]), p, end, [])
  {
    SequenceGives(Rule, input, [a, b], [p, mid, end], NoValues(2));
    EmptyRow(2);
  }

  /** Once, and then no more. */
  lemma OnceReads(input: string, f: Comb, p: nat, end: nat)
    requires Reads(input, f, p, end, []) && Rejects(input, f, end)
    ensures Reads(input, Many(f), p, end, [])
  {
    ManyGives(Rule, input, f, [p, end], NoValues(1));
    EmptyRow(1);
  }

  /** Up to where a parser would match, any character but NUL. */
  lemma AnyBut(input: string, stop: Comb, p: nat)
    requires p <= |input|
    ensures Rejects(input, stop, p) && p < |input| && input[p] != '\0' ==>
      Reads(input, Sequence([LookNot(stop), Any]), p, p + 1, [])
    ensures (exists end: nat :: Ok(Rule, input, stop, p, end)) || (Rejects(input, stop, p) && p == |input|) ==>
      Rejects(input, Sequence([LookNot(stop), Any]), p)
  {
    var fs := [LookNot(stop), Any];
    LookLaw(Rule, input, stop, p);
    AnyLaw(Rule, input, p);
    if Rejects(input, stop, p) {
      if p < |input| && input[p] != '\0' {
        PairReads(input, LookNot(stop), Any, p, p, p + 1);
      } else if p == |input| {
        assert fs[..1] == [LookNot(stop)];
        SequenceKo(Rule, input, fs, 1, [p, p]);
      }
    } else if exists end: nat :: Ok(Rule, input, stop, p, end) {
      assert fs[..0] == [];
      SequenceKo(Rule, input, fs, 0, [p]);
    }
  }

  // Names.

  /** The name stands there, and does not go on. */
  predicate NameAt(input: string, p: nat, n: string) {
    IsName(n) && At(input, p, n) && !NameCharAt(input, p + |n|)
  }

  lemma NameRestReads(input: string, p: nat, n: string)
    requires NameAt(input, p, n)
    ensures Reads(input, NameRest(), p + 1, p + |n|, [])
  {
    var f := Choice([Unbind(LETTER), Unbind(NUMBER), Literal('-')]);
    forall q: nat | p + 1 <= q < p + |n| ensures TakesIf(input, f, q, true) {
      AtChar(input, p, n, q - p);
      NameCharTakes(input, q);
    }
    NameCharTakes(input, p + |n|);
    RunReads(input, f, p + 1, |n| - 1);
    MemoizeManyLaw(Rule, input, 15, f, p + 1);
  }

  /** A name is read to its end, and bound as its text. */
  lemma NameReads(input: string, p: nat, n: string)
    requires NameAt(input, p, n)
    ensures Reads(input, Bind(NAME), p, p + |n|, [NameTree(n)]) && Reads(input, Unbind(NAME), p, p + |n|, [])
  {
    NameText(input, p, n);
    CaptureRule(input, NAME, 14, Sequence([Unbind(LETTER), NameRest()]), p, p + |n|);
  }

  lemma NameText(input: string, p: nat, n: string)
    requires NameAt(input, p, n)
    ensures Reads(input, Sequence([Unbind(LETTER), NameRest()]), p, p + |n|, [])
  {
    AtChar(input, p, n, 0);
    LetterTakes(input, p);
    NameRestReads(input, p, n);
    PairReads(input, Unbind(LETTER), NameRest(), p, p + 1, p + |n|);
  }

  function NameTree(n: string): Tree {
    Node(NAME, [Text(n)])
  }

  /** There is no name where there is no letter. */
  lemma NameRejects(input: string, p: nat)
    requires p <= |input| && !LetterAt(input, p)
    ensures Rejects(input, Bind(NAME), p) && Rejects(input, Unbind(NAME), p)
  {
    LetterTakes(input, p);
    var fs := [Unbind(LETTER), NameRest()];
    assert fs[..0] == [];
    SequenceKo(Rule, input, fs, 0, [p]);
    CaptureLaw(Rule, input, Sequence(fs), p);
    MemoizeLaw(Rule, input, 14, Capture(Sequence(fs)), p);
    RuleRejects(input, NAME, p);
  }

  // Blanks and comments.

  /** Text that goes up to the end of the line, and has no NUL. */
  predicate OnOneLine(text: string) {
    forall i :: 0 <= i < |text| ==> text[i] != '\n' && text[i] != '\r' && text[i] != '\0'
  }

  predicate AllSpace(text: string) {
    forall i :: 0 <= i < |text| ==> text[i] == ' ' || text[i] == '\t'
  }

  predicate HashAt(input: string, p: nat) { p < |input| && input[p] == '#' }

  lemma CommentRejects(input: string, p: nat)
    requires p <= |input| && !HashAt(input, p)
    ensures Rejects(input, Unbind(COMMENT), p)
  {
    LiteralTakes(input, '#', p);
    var fs := [Literal('#'), CommentText()];
    assert fs[..0] == [];
    SequenceKo(Rule, input, fs, 0, [p]);
    MemoizeLaw(Rule, input, 18, Sequence(fs), p);
    RuleRejects(input, COMMENT, p);
  }

  /** A comment goes up to the end of the line. */
  lemma CommentReads(input: string, p: nat, text: string)
    requires At(input, p, ['#'] + text) && OnOneLine(text) && LineEndAt(input, p + 1 + |text|)
    ensures Reads(input, Unbind(COMMENT), p, p + 1 + |text|, [])
  {
    AtJoin(input, p, ['#'], text);
    AtChar(input, p, ['#'], 0);
    LiteralTakes(input, '#', p);
    var f, end := Sequence([LookNot(Unbind(NL)), Any]), p + 1 + |text|;
    forall q: nat | p + 1 <= q < end ensures TakesIf(input, f, q, true) {
      AtChar(input, p + 1, text, q - p - 1);
      NewlineReads(input, q);
      AnyBut(input, Unbind(NL), q);
    }
    StopsAtLineEnd(input, end);
    RunReads(input, f, p + 1, |text|);
    MemoizeManyLaw(Rule, input, 19, f, p + 1);
    var fs := [Literal('#'), CommentText()];
    PairReads(input, fs[0], fs[1], p, p + 1, end);
    MemoizeLaw(Rule, input, 18, Sequence(fs), p);
    RuleGives(input, COMMENT, p, end, []);
  }

  lemma StopsAtLineEnd(input: string, p: nat)
    requires LineEndAt(input, p)
    ensures Rejects(input, Sequence([LookNot(Unbind(NL)), Any]), p)
  {
    NewlineReads(input, p);
    assert Ok(Rule, input, Unbind(NL), p, p + EndWidth(input, p));
    AnyBut(input, Unbind(NL), p);
  }

  lemma BlankItem(input: string, p: nat)
    requires p <= |input|
    ensures SpaceAt(input, p) ==> TakesIf(input, Choice([Unbind(SPACE), Unbind(COMMENT)]), p, true)
    ensures !SpaceAt(input, p) && !HashAt(input, p) ==> Rejects(input, Choice([Unbind(SPACE), Unbind(COMMENT)]), p)
  {
    var fs := [Unbind(SPACE), Unbind(COMMENT)];
    SpaceTakes(input, p);
    if SpaceAt(input, p) {
      ChoiceOk(Rule, input, fs, 0, p, p + 1);
    } else if !HashAt(input, p) {
      CommentRejects(input, p);
      ChoiceKo(Rule, input, fs, p);
    }
  }

  lemma BlanksAre(input: string, p: nat, end: nat)
    requires Reads(input, Many(Choice([Unbind(SPACE), Unbind(COMMENT)])), p, end, [])
    ensures Reads(input, Unbind(BLANK), p, end, [])
  {
    MemoizeManyLaw(Rule, input, 21, Choice([Unbind(SPACE), Unbind(COMMENT)]), p);
    MemoizeLaw(Rule, input, 20, Blanks(), p);
    RuleGives(input, BLANK, p, end, []);
  }

  /** Spaces and tabs are passed over, up to anything else but a comment. */
  lemma SpacesRead(input: string, p: nat, text: string)
    requires At(input, p, text) && AllSpace(text) && !SpaceAt(input, p + |text|) && !HashAt(input, p + |text|)
    ensures Reads(input, Unbind(BLANK), p, p + |text|, [])
  {
    var f := Choice([Unbind(SPACE), Unbind(COMMENT)]);
    forall q: nat | p <= q < p + |text| ensures TakesIf(input, f, q, true) {
      AtChar(input, p, text, q - p);
      BlankItem(input, q);
    }
    BlankItem(input, p + |text|);
    RunReads(input, f, p, |text|);
    BlanksAre(input, p, p + |text|);
  }

  /** So is a comment. */
  lemma RemarkReads(input: string, p: nat, text: string)
    requires At(input, p, ['#'] + text) && OnOneLine(text) && LineEndAt(input, p + 1 + |text|)
    ensures Reads(input, Unbind(BLANK), p, p + 1 + |text|, [])
  {
    var end := p + 1 + |text|;
    RemarkItem(input, p, text);
    BlankItem(input, end);
    OnceReads(input, Choice([Unbind(SPACE), Unbind(COMMENT)]), p, end);
    BlanksAre(input, p, end);
  }

  lemma RemarkItem(input: string, p: nat, text: string)
    requires At(input, p, ['#'] + text) && OnOneLine(text) && LineEndAt(input, p + 1 + |text|)
    ensures Reads(input, Choice([Unbind(SPACE), Unbind(COMMENT)]), p, p + 1 + |text|, [])
  {
    AtJoin(input, p, ['#'], text);
    AtChar(input, p, ['#'], 0);
    SpaceTakes(input, p);
    CommentReads(input, p, text);
    ChoiceOk(Rule, input, [Unbind(SPACE), Unbind(COMMENT)], 1, p, p + 1 + |text|);
  }

  // Tokens and commands.

  /** A text, and the rule that memoizes it. */
  lemma TokenReads(input: string, p: nat, k: nat, id: nat, token: string)
    requires p <= |input| && Rule(k) == Memoize(id, LiteralString(token))
    ensures if At(input, p, token) then Reads(input, Unbind(k), p, p + |token|, []) else Rejects(input, Unbind(k), p)
  {
    WordReads(input, p, token);
    MemoizeLaw(Rule, input, id, LiteralString(token), p);
    BindLaw(Rule, input, k, p);
  }

  lemma WordReads(input: string, p: nat, word: string)
    requires p <= |input|
    ensures if At(input, p, word) then Reads(input, LiteralString(word), p, p + |word|, [])
      else Rejects(input, LiteralString(word), p)
  {
    LiteralStringLaw(Rule, input, word, p);
    if At(input, p, word) { assert input[p..][..|word|] == input[p..p + |word|]; }
    if word <= input[p..] { assert input[p..][..|word|] == input[p..p + |word|]; }
  }

  /** A command goes up to the end of the line or a comment, and has not begun with a space, which would have
      been passed over before. */
  predicate IsCommand(text: string) {
    OnOneLine(text) && (forall i :: 0 <= i < |text| ==> text[i] != '#') &&
    (text != [] ==> text[0] != ' ' && text[0] != '\t')
  }

  lemma CommandStops(input: string, p: nat)
    requires p <= |input|
    ensures !LineEndAt(input, p) && !HashAt(input, p) ==> Rejects(input, Choice([Unbind(NL), Literal('#')]), p)
    ensures LineEndAt(input, p) || HashAt(input, p) ==>
      exists end: nat :: Ok(Rule, input, Choice([Unbind(NL), Literal('#')]), p, end)
  {
    var fs := [Unbind(NL), Literal('#')];
    NewlineReads(input, p);
    LiteralTakes(input, '#', p);
    if LineEndAt(input, p) {
      ChoiceOk(Rule, input, fs, 0, p, p + EndWidth(input, p));
    } else if HashAt(input, p) {
      ChoiceOk(Rule, input, fs, 1, p, p + 1);
    } else {
      ChoiceKo(Rule, input, fs, p);
    }
  }

  lemma CommandReads(input: string, p: nat, text: string)
    requires At(input, p, text) && IsCommand(text) && (LineEndAt(input, p + |text|) || HashAt(input, p + |text|))
    ensures Reads(input, Bind(CMD_STR), p, p + |text|, [Node(CMD_STR, [Text(text)])])
  {
    var stop := Choice([Unbind(NL), Literal('#')]);
    var f, end := Sequence([LookNot(stop), Any]), p + |text|;
    forall q: nat | p <= q < end ensures TakesIf(input, f, q, true) {
      AtChar(input, p, text, q - p);
      CommandStops(input, q);
      AnyBut(input, stop, q);
    }
    CommandStops(input, end);
    AnyBut(input, stop, end);
    RunReads(input, f, p, |text|);
    MemoizeManyLaw(Rule, input, 4, f, p);
    CaptureRule(input, CMD_STR, 3, CommandText(), p, end);
  }
}
