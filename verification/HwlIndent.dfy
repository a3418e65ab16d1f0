/** How indentation becomes tokens: the lines of a script, and when the tokens are those of its blocks. */
module HwlIndent {
  import opened Grammar
  import opened Hwl
  import opened HwlLexis
  import opened HwlScripts

  // Lines.

  /** The length of the first line. */
  function LineLength(txt: string): (n: nat)
    ensures n <= |txt| && OneLine(txt[..n]) && (n < |txt| ==> txt[n] == '\n')
  {
    if txt == "" || txt[0] == '\n' then 0
    else
      assert OneLine(txt[1..][..LineLength(txt[1..])]);
      1 + LineLength(txt[1..])
  }

  predicate OneLine(text: string) {
    forall i :: 0 <= i < |text| ==> text[i] != '\n'
  }

  /** The lines one after the other; what stands behind the last newline is one if it is not empty. */
  function Lines(txt: string): seq<string> {
    if txt == "" then []
    else
      var n := LineLength(txt);
      [txt[..n]] + if n < |txt| then Lines(txt[n + 1..]) else []
  }

  function Unlines(ls: seq<string>): string {
    if ls == [] then "" else ls[0] + ("\n" + Unlines(ls[1..]))
  }

  predicate IsSpace(c: char) {
    c == ' ' || '\t' <= c <= '\r'
  }

  /** The number of blanks in front. */
  function IndentOf(line: string): (n: nat)
    ensures n <= |line| && (forall i :: 0 <= i < n ==> IsSpace(line[i])) && (n < |line| ==> !IsSpace(line[n]))
  {
    if line == "" || !IsSpace(line[0]) then 0 else 1 + IndentOf(line[1..])
  }

  // Tokens.

  /** The indentation of the line before, the blocks that are open, and the lines that are written. */
  datatype Tokens = Tokens(cur: nat, count: int, out: seq<string>)

  /** A token if the next line is deeper or less deep, one at most. */
  function Settle(t: Tokens, indent: nat): Tokens {
    if indent > t.cur then Tokens(indent, t.count + 1, t.out + ["INDENT"])
    else if indent < t.cur then Tokens(indent, t.count - 1, t.out + ["DEDENT"])
    else t
  }

  function AddLine(t: Tokens, line: string): Tokens {
    if IndentOf(line) == |line| then t
    else
      var s := Settle(t, IndentOf(line));
      s.(out := s.out + [line])
  }

  function AddLines(t: Tokens, ls: seq<string>): Tokens
    decreases ls
  {
    if ls == [] then t else AddLines(AddLine(t, ls[0]), ls[1..])
  }

  function Dedents(n: nat): seq<string> {
    if n == 0 then [] else ["DEDENT"] + Dedents(n - 1)
  }

  function AtLeastZero(n: int): nat {
    if n < 0 then 0 else n
  }

  const START := Tokens(0, 0, [])

  function TokenLines(txt: string): seq<string> {
    var t := AddLines(START, Lines(txt));
    t.out + Dedents(AtLeastZero(t.count))
  }

  lemma {:induction false} UnlinesJoin(a: seq<string>, b: seq<string>)
    ensures Unlines(a + b) == Unlines(a) + Unlines(b)
  {
    if a == [] {
      assert a + b == b;
    } else {
      assert (a + b)[1..] == a[1..] + b;
      UnlinesJoin(a[1..], b);
    }
  }

  lemma UnlinesOne(line: string)
    ensures Unlines([line]) == line + "\n"
  {
    assert [line][1..] == [];
    assert "\n" + "" == "\n";
  }

  lemma Written(out: seq<string>, line: string)
    ensures Unlines(out + [line]) == Unlines(out) + (line + "\n")
  {
    UnlinesJoin(out, [line]);
    UnlinesOne(line);
  }

  method CountBlanks(line: string) returns (indent: nat)
    ensures indent == IndentOf(line)
  {
    indent := 0;
    while indent < |line| && IsSpace(line[indent])
      invariant indent <= |line| && IndentOf(line) == indent + IndentOf(line[indent..])
    {
      assert line[indent..][1..] == line[indent + 1..];
      indent := indent + 1;
    }
  }

  /** One round of the loop over the lines. */
  method PutLine(line: string, cur: nat, count: int, out: string, ghost t: Tokens)
    returns (cur': nat, count': int, out': string)
    requires t.cur == cur && t.count == count && Unlines(t.out) == out
    ensures var s := AddLine(t, line);
      s.cur == cur' && s.count == count' && Unlines(s.out) == out'
  {
    cur', count', out' := cur, count, out;
    var indent := CountBlanks(line);
    if indent == |line| { return; }
    if indent > cur {
      Written(t.out, "INDENT");
      cur', count', out' := indent, count + 1, out + ("INDENT" + "\n");
    } else if indent < cur {
      Written(t.out, "DEDENT");
      cur', count', out' := indent, count - 1, out + ("DEDENT" + "\n");
    }
    Written(Settle(t, indent).out, line);
    out' := out' + (line + "\n");
  }

  method FindLineEnd(txt: string, pos: nat) returns (end: nat)
    requires pos <= |txt|
    ensures pos <= end <= |txt| && LineLength(txt[pos..]) == end - pos
  {
    end := pos;
    while end < |txt| && txt[end] != '\n'
      invariant pos <= end <= |txt| && LineLength(txt[pos..]) == end - pos + LineLength(txt[end..])
    {
      assert txt[end..][1..] == txt[end + 1..];
      end := end + 1;
    }
  }

  method CloseBlocks(count: int, out: string) returns (out': string)
    ensures out' == out + Unlines(Dedents(AtLeastZero(count)))
  {
    out' := out;
    var i := 0;
    while i < count
      invariant i == 0 || i <= count
      invariant out' + Unlines(Dedents(AtLeastZero(count - i))) == out + Unlines(Dedents(AtLeastZero(count)))
    {
      var rest := Unlines(Dedents(count - i - 1));
      assert Unlines(Dedents(count - i)) == "DEDENT" + ("\n" + rest);
      assert out' + ("DEDENT" + ("\n" + rest)) == (out' + ("DEDENT" + "\n")) + rest;
      out' := out' + ("DEDENT" + "\n");
      i := i + 1;
    }
    assert out' + "" == out';
  }

  /** The text with its indentation as tokens. */
  method IndentToTokens(txt: string) returns (out: string)
    ensures out == Unlines(TokenLines(txt))
  {
    var pos, cur, count := 0, 0, 0;
    out := "";
    ghost var t := START;
    assert txt[0..] == txt;
    while pos < |txt|
      invariant pos <= |txt| && t.cur == cur && t.count == count && Unlines(t.out) == out
      invariant AddLines(START, Lines(txt)) == AddLines(t, Lines(txt[pos..]))
    {
      var end := FindLineEnd(txt, pos);
      FirstLine(txt, pos, end);
      cur, count, out := PutLine(txt[pos..end], cur, count, out, t);
      t := AddLine(t, txt[pos..end]);
      pos := if end < |txt| then end + 1 else end;
    }
    UnlinesJoin(t.out, Dedents(AtLeastZero(count)));
    out := CloseBlocks(count, out);
  }

  lemma FirstLine(txt: string, pos: nat, end: nat)
    requires pos < |txt| && pos <= end <= |txt| && LineLength(txt[pos..]) == end - pos
    ensures var next := if end < |txt| then end + 1 else end;
      Lines(txt[pos..]) == [txt[pos..end]] + Lines(txt[next..])
  {
    var rest := txt[pos..];
    assert rest[..end - pos] == txt[pos..end];
    if end < |txt| { assert rest[end - pos + 1..] == txt[end + 1..]; }
  }

  // What was written line by line is read line by line.

  predicate AllOneLine(ls: seq<string>) {
    forall i :: 0 <= i < |ls| ==> OneLine(ls[i])
  }

  lemma {:induction false} LineLengthIs(line: string, rest: string)
    requires OneLine(line)
    ensures LineLength(line + ("\n" + rest)) == |line|
  {
    var txt := line + ("\n" + rest);
    if line == "" {
    } else {
      assert txt[1..] == line[1..] + ("\n" + rest);
      LineLengthIs(line[1..], rest);
    }
  }

  lemma {:induction false} LinesOfUnlines(ls: seq<string>)
    requires AllOneLine(ls)
    ensures Lines(Unlines(ls)) == ls
  {
    if ls == [] {
    } else {
      var rest := Unlines(ls[1..]);
      LineLengthIs(ls[0], rest);
      assert Unlines(ls)[..|ls[0]|] == ls[0] && Unlines(ls)[|ls[0]| + 1..] == rest;
      LinesOfUnlines(ls[1..]);
    }
  }

  // Scripts as they are written, and their tokens.

  /** The lines of a statement without tokens. */
  function LinesOf(s: Statement): seq<string>
    decreases s, 0
  {
    match s
    case CallOf(pad, _, _) => [pad + CallText(s)]
    case IfOf(pad, name, body) => [pad + ("if " + (name + ":"))] + LinesOfAll(body)
  }

  function LinesOfAll(ss: seq<Statement>): seq<string>
    decreases ss, 1
  {
    if ss == [] then [] else LinesOf(ss[0]) + LinesOfAll(ss[1..])
  }

  /** The number of blocks that end with a statement. */
  function Depth(s: Statement): nat
    decreases s, 0
  {
    match s
    case CallOf(_, _, _) => 0
    case IfOf(_, _, body) => 1 + DepthAll(body)
  }

  function DepthAll(ss: seq<Statement>): nat
    decreases ss, 1
  {
    if ss == [] then 0 else if |ss| == 1 then Depth(ss[0]) else DepthAll(ss[1..])
  }

  /** The tokens written where this number of blocks end before another line: all of them, or one at most. */
  function Ends(all: bool, depth: nat): seq<string> {
    Dedents(if all || depth <= 1 then depth else 1)
  }

  /** The lines of a statement with tokens, up to where the blocks that end with it are still open. */
  function Open(all: bool, s: Statement): seq<string>
    decreases s, 0
  {
    match s
    case CallOf(pad, _, _) => [pad + CallText(s)]
    case IfOf(pad, name, body) => [pad + ("if " + (name + ":"))] + (["INDENT"] + OpenAll(all, body))
  }

  function OpenAll(all: bool, ss: seq<Statement>): seq<string>
    decreases ss, 1
  {
    if ss == [] then []
    else if |ss| == 1 then Open(all, ss[0])
    else Open(all, ss[0]) + (Ends(all, Depth(ss[0])) + OpenAll(all, ss[1..]))
  }

  /** No two blocks end at once but at the end. */
  predicate Shallow(s: Statement)
    decreases s, 0
  {
    match s
    case CallOf(_, _, _) => true
    case IfOf(_, _, body) => ShallowAll(body)
  }

  predicate ShallowAll(ss: seq<Statement>)
    decreases ss, 1
  {
    ss == [] || (Shallow(ss[0]) && ShallowAll(ss[1..]) && (|ss| > 1 ==> Depth(ss[0]) <= 1))
  }

  /** The statements of one body are equally deep, and deeper than the line before it. */
  predicate Laid(s: Statement)
    decreases s, 0
  {
    match s
    case CallOf(_, _, _) => true
    case IfOf(pad, _, body) => body != [] && |body[0].pad| > |pad| && LaidAll(body, |body[0].pad|)
  }

  predicate LaidAll(ss: seq<Statement>, n: nat)
    decreases ss, 1
  {
    ss == [] || (|ss[0].pad| == n && Laid(ss[0]) && LaidAll(ss[1..], n))
  }

  // What the loop over the lines writes.

  lemma {:induction false} AddLinesJoin(t: Tokens, a: seq<string>, b: seq<string>)
    ensures AddLines(t, a + b) == AddLines(AddLines(t, a), b)
    decreases a
  {
    if a == [] {
      assert a + b == b;
    } else {
      assert (a + b)[1..] == a[1..] + b;
      AddLinesJoin(AddLine(t, a[0]), a[1..], b);
    }
  }

  lemma {:induction false} IndentIs(pad: string, rest: string)
    requires AllSpace(pad) && rest != "" && !IsSpace(rest[0])
    ensures IndentOf(pad + rest) == |pad|
  {
    if pad == "" {
      assert pad + rest == rest;
    } else {
      assert (pad + rest)[1..] == pad[1..] + rest;
      IndentIs(pad[1..], rest);
    }
  }

  lemma {:induction false} FirstStatement(ss: seq<Statement>)
    requires ss != [] && StatementsOk(ss)
    ensures StatementOk(ss[0]) && StatementsOk(ss[1..])
  {
    if |ss| == 1 {
    } else {
      var init := ss[..|ss| - 1];
      FirstStatement(init);
      assert ss[1..][..|ss| - 2] == init[1..];
    }
  }

  /** The indentation of the last line. */
  function LastIndent(s: Statement): nat
    decreases s, 0
  {
    match s
    case CallOf(pad, _, _) => |pad|
    case IfOf(_, _, body) => LastIndentAll(body)
  }

  function LastIndentAll(ss: seq<Statement>): nat
    decreases ss, 1
  {
    if ss == [] then 0 else if |ss| == 1 then LastIndent(ss[0]) else LastIndentAll(ss[1..])
  }

  /** The state behind lines that end at this indentation and were written so. */
  predicate WritesOn(t: Tokens, r: Tokens, cur: nat, out: seq<string>, depth: nat, exact: bool) {
    r.cur == cur && r.out == t.out + out && (exact ==> r.count == t.count + depth)
  }

  lemma AddOne(t: Tokens, pad: string, rest: string)
    requires AllSpace(pad) && rest != "" && !IsSpace(rest[0])
    ensures var s := Settle(t, |pad|);
      AddLine(t, pad + rest) == s.(out := s.out + [pad + rest])
  {
    IndentIs(pad, rest);
  }

  lemma AddLinesOne(t: Tokens, line: string)
    ensures AddLines(t, [line]) == AddLine(t, line)
  {
    assert [line][1..] == [];
  }

  lemma {:induction false} WriteStatement(t: Tokens, s: Statement)
    requires StatementOk(s) && Laid(s)
    ensures WritesOn(Settle(t, |s.pad|), AddLines(t, LinesOf(s)), LastIndent(s), Open(false, s), Depth(s), Shallow(s))
    ensures LastIndent(s) >= |s.pad| && (LastIndent(s) == |s.pad| <==> Depth(s) == 0)
    decreases s, 0
  {
    match s
    case CallOf(pad, _, _) =>
      AddOne(t, pad, CallText(s));
      AddLinesOne(t, pad + CallText(s));
    case IfOf(pad, name, body) =>
      var head := "if " + (name + ":");
      AddOne(t, pad, head);
      AddLinesOne(t, pad + head);
      AddLinesJoin(t, [pad + head], LinesOfAll(body));
      WriteAll(AddLine(t, pad + head), body, |body[0].pad|);
  }

  /** Lines behind lines, where the first of the second ones is at this indentation. */
  lemma WritesJoin(t: Tokens, r: Tokens, u: Tokens, n: nat, last: nat, out: seq<string>, depth: nat, exact: bool,
                   last': nat, out': seq<string>, depth': nat, exact': bool)
    requires WritesOn(Settle(t, n), r, last, out, depth, exact) && last >= n && (last == n <==> depth == 0)
    requires WritesOn(Settle(r, n), u, last', out', depth', exact')
    ensures WritesOn(Settle(t, n), u, last', out + (Ends(false, depth) + out'), depth', exact && exact' && depth <= 1)
  {
    assert Dedents(0) == [] && Dedents(1) == ["DEDENT"] + Dedents(0);
    if depth == 0 { assert Ends(false, depth) + out' == out'; }
  }

  lemma {:induction false} WriteAll(t: Tokens, ss: seq<Statement>, n: nat)
    requires ss != [] && StatementsOk(ss) && LaidAll(ss, n)
    ensures WritesOn(
      Settle(t, n), AddLines(t, LinesOfAll(ss)), LastIndentAll(ss), OpenAll(false, ss), DepthAll(ss), ShallowAll(ss))
    ensures LastIndentAll(ss) >= n && (LastIndentAll(ss) == n <==> DepthAll(ss) == 0)
    decreases ss, 1
  {
    var s, rest := ss[0], ss[1..];
    FirstStatement(ss);
    WriteStatement(t, s);
    if |ss| == 1 {
      assert LinesOfAll(ss) == LinesOf(s);
    } else {
      var r := AddLines(t, LinesOf(s));
      AddLinesJoin(t, LinesOf(s), LinesOfAll(rest));
      WriteAll(r, rest, n);
      WritesJoin(t, r, AddLines(r, LinesOfAll(rest)), n, LastIndent(s), Open(false, s), Depth(s), Shallow(s),
        LastIndentAll(rest), OpenAll(false, rest), DepthAll(rest), ShallowAll(rest));
    }
  }

  // The same for whole scripts.

  function PartLines(part: Part): seq<string> {
    match part
    case PuppetPart(name, command, tail) => [name + (" = " + (command + tail))]
    case GroupPart(name, control, body) => [name + (" while " + (control + ":"))] + LinesOfAll(body)
    case Remark(text) => ["#" + text]
  }

  function ScriptLines(parts: seq<Part>): seq<string> {
    if parts == [] then [] else PartLines(parts[0]) + ScriptLines(parts[1..])
  }

  function PartDepth(part: Part): nat {
    if part.GroupPart? then 1 + DepthAll(part.body) else 0
  }

  function ScriptDepth(parts: seq<Part>): nat {
    if parts == [] then 0 else if |parts| == 1 then PartDepth(parts[0]) else ScriptDepth(parts[1..])
  }

  function OpenPart(all: bool, part: Part): seq<string> {
    match part
    case GroupPart(name, control, body) =>
      [name + (" while " + (control + ":"))] + (["INDENT"] + OpenAll(all, body))
    case _ => PartLines(part)
  }

  function OpenScript(all: bool, parts: seq<Part>): seq<string> {
    if parts == [] then []
    else if |parts| == 1 then OpenPart(all, parts[0])
    else OpenPart(all, parts[0]) + (Ends(all, PartDepth(parts[0])) + OpenScript(all, parts[1..]))
  }

  predicate ShallowPart(part: Part) {
    part.GroupPart? ==> ShallowAll(part.body)
  }

  /** Nowhere do two blocks end at once, but at the end of the script. */
  predicate ShallowScript(parts: seq<Part>) {
    parts == [] ||
    (ShallowPart(parts[0]) && ShallowScript(parts[1..]) && (|parts| > 1 ==> PartDepth(parts[0]) <= 1))
  }

  predicate LaidPart(part: Part) {
    part.GroupPart? ==> part.body != [] && LaidAll(part.body, |part.body[0].pad|)
  }

  predicate LaidScript(parts: seq<Part>) {
    parts == [] || (LaidPart(parts[0]) && LaidScript(parts[1..]))
  }

  function LastIndentPart(part: Part): nat {
    if part.GroupPart? then LastIndentAll(part.body) else 0
  }

  function LastIndentScript(parts: seq<Part>): nat {
    if parts == [] then 0 else if |parts| == 1 then LastIndentPart(parts[0]) else LastIndentScript(parts[1..])
  }

  lemma {:induction false} FirstPart(parts: seq<Part>)
    requires parts != [] && ScriptOk(parts)
    ensures PartOk(parts[0]) && ScriptOk(parts[1..])
  {
    if |parts| == 1 {
    } else {
      var init := parts[..|parts| - 1];
      FirstPart(init);
      assert parts[1..][..|parts| - 2] == init[1..];
    }
  }

  lemma AddFlush(t: Tokens, line: string)
    requires line != "" && !IsSpace(line[0])
    ensures var s := Settle(t, 0);
      AddLine(t, line) == s.(out := s.out + [line])
  {
    assert "" + line == line;
    AddOne(t, "", line);
  }

  lemma WriteLine(t: Tokens, line: string)
    requires line != "" && !IsSpace(line[0])
    ensures WritesOn(Settle(t, 0), AddLines(t, [line]), 0, [line], 0, true)
  {
    AddFlush(t, line);
    AddLinesOne(t, line);
  }

  lemma WriteGroup(t: Tokens, head: string, body: seq<Statement>)
    requires head != "" && !IsSpace(head[0]) && body != [] && StatementsOk(body) && LaidAll(body, |body[0].pad|)
    ensures WritesOn(Settle(t, 0), AddLines(t, [head] + LinesOfAll(body)), LastIndentAll(body),
      [head] + (["INDENT"] + OpenAll(false, body)), 1 + DepthAll(body), ShallowAll(body))
    ensures LastIndentAll(body) > 0
  {
    var n, r := |body[0].pad|, AddLine(t, head);
    AddFlush(t, head);
    AddLinesOne(t, head);
    AddLinesJoin(t, [head], LinesOfAll(body));
    FirstStatement(body);
    WriteAll(r, body, n);
    assert Settle(r, n).out == r.out + ["INDENT"];
    WritesBehind(Settle(t, 0), r, Settle(r, n), AddLines(r, LinesOfAll(body)), head, LastIndentAll(body),
      OpenAll(false, body), DepthAll(body), ShallowAll(body));
  }

  /** A line that opens a block, and what is written of its body. */
  lemma WritesBehind(t: Tokens, r: Tokens, s: Tokens, u: Tokens, head: string, last: nat, out: seq<string>,
                     depth: nat, exact: bool)
    requires r.out == t.out + [head] && r.count == t.count
    requires s.out == r.out + ["INDENT"] && s.count == r.count + 1 && WritesOn(s, u, last, out, depth, exact)
    ensures WritesOn(t, u, last, [head] + (["INDENT"] + out), 1 + depth, exact)
  {
  }

  lemma WritePart(t: Tokens, part: Part)
    requires PartOk(part) && LaidPart(part)
    ensures WritesOn(Settle(t, 0), AddLines(t, PartLines(part)), LastIndentPart(part), OpenPart(false, part),
      PartDepth(part), ShallowPart(part))
    ensures LastIndentPart(part) == 0 <==> PartDepth(part) == 0
  {
    match part
    case PuppetPart(name, command, tail) => WriteLine(t, name + (" = " + (command + tail)));
    case Remark(text) => WriteLine(t, "#" + text);
    case GroupPart(name, control, body) => WriteGroup(t, name + (" while " + (control + ":")), body);
  }

  lemma {:induction false} WriteScript(t: Tokens, parts: seq<Part>)
    requires parts != [] && ScriptOk(parts) && LaidScript(parts)
    ensures WritesOn(Settle(t, 0), AddLines(t, ScriptLines(parts)), LastIndentScript(parts), OpenScript(false, parts),
      ScriptDepth(parts), ShallowScript(parts))
    decreases parts
  {
    var part, rest := parts[0], parts[1..];
    FirstPart(parts);
    WritePart(t, part);
    if |parts| == 1 {
      assert ScriptLines(parts) == PartLines(part);
    } else {
      var r := AddLines(t, PartLines(part));
      AddLinesJoin(t, PartLines(part), ScriptLines(rest));
      WriteScript(r, rest);
      WritesJoin(t, r, AddLines(r, ScriptLines(rest)), 0, LastIndentPart(part), OpenPart(false, part), PartDepth(part),
        ShallowPart(part), LastIndentScript(rest), OpenScript(false, rest), ScriptDepth(rest), ShallowScript(rest));
    }
  }

  // The tokens with all ends are those of the printed script.

  lemma {:induction false} DedentsEnd(n: nat)
    ensures Dedents(n + 1) == Dedents(n) + ["DEDENT"]
  {
    if n == 0 {
      assert Dedents(1) == ["DEDENT"] + Dedents(0);
    } else {
      DedentsEnd(n - 1);
    }
  }

  lemma Regroup(a: string, b: string, c: string)
    ensures (a + b) + c == a + (b + c)
  {
  }

  lemma {:induction false} PrintAllFirst(ss: seq<Statement>)
    requires ss != []
    ensures PrintAll(ss) == Print(ss[0]) + PrintAll(ss[1..])
  {
    if |ss| == 1 {
    } else {
      var init, rest := ss[..|ss| - 1], ss[1..];
      PrintAllFirst(init);
      assert rest[..|rest| - 1] == init[1..];
      Regroup(Print(ss[0]), PrintAll(init[1..]), Print(ss[|ss| - 1]));
    }
  }

  lemma UnlinesHead(line: string, ls: seq<string>)
    ensures Unlines([line] + ls) == line + ("\n" + Unlines(ls))
  {
  }

  /** A line that opens a block, the body, and the ends of the blocks that end with it. */
  lemma BlockLines(head: string, body: seq<Statement>)
    requires Unlines(OpenAll(true, body) + Dedents(DepthAll(body))) == PrintAll(body)
    ensures Unlines(([head + ":"] + (["INDENT"] + OpenAll(true, body))) + Dedents(1 + DepthAll(body))) ==
      head + Block(body)
  {
    var open, n := OpenAll(true, body), DepthAll(body);
    DedentsEnd(n);
    assert ([head + ":"] + (["INDENT"] + open)) + Dedents(1 + n) ==
      [head + ":"] + (["INDENT"] + ((open + Dedents(n)) + ["DEDENT"]));
    UnlinesHead(head + ":", ["INDENT"] + ((open + Dedents(n)) + ["DEDENT"]));
    UnlinesHead("INDENT", (open + Dedents(n)) + ["DEDENT"]);
    Written(open + Dedents(n), "DEDENT");
    BlockText(head, PrintAll(body));
  }

  lemma BlockText(head: string, text: string)
    ensures (head + ":") + ("\n" + ("INDENT" + ("\n" + (text + ("DEDENT" + "\n"))))) ==
      head + (":\nINDENT\n" + (text + "DEDENT\n"))
  {
  }

  lemma LinePrintsAs(line: string)
    ensures Unlines([line] + Dedents(0)) == line + "\n"
  {
    UnlinesOne(line);
    assert [line] + Dedents(0) == [line];
  }

  lemma {:induction false} PrintsAs(s: Statement)
    ensures Unlines(Open(true, s) + Dedents(Depth(s))) == Print(s)
    decreases s, 0
  {
    match s
    case CallOf(pad, _, _) =>
      LinePrintsAs(pad + CallText(s));
      Regroup(pad, CallText(s), "\n");
    case IfOf(pad, name, body) =>
      PrintsAllAs(body);
      BlockLines(pad + ("if " + name), body);
      Regroup(pad, "if " + name, ":");
      Regroup("if ", name, ":");
      Regroup(pad, "if " + name, Block(body));
      Regroup("if ", name, Block(body));
  }

  lemma {:induction false} PrintsAllAs(ss: seq<Statement>)
    ensures Unlines(OpenAll(true, ss) + Dedents(DepthAll(ss))) == PrintAll(ss)
    decreases ss, 1
  {
    if ss == [] {
    } else {
      PrintsAs(ss[0]);
      PrintAllFirst(ss);
      if |ss| == 1 {
        assert PrintAll(ss[1..]) == "";
      } else {
        PrintsAllAs(ss[1..]);
        SplitEnds(Open(true, ss[0]), Dedents(Depth(ss[0])), OpenAll(true, ss[1..]), Dedents(DepthAll(ss[1..])));
      }
    }
  }

  lemma SplitEnds(a: seq<string>, b: seq<string>, c: seq<string>, d: seq<string>)
    ensures Unlines((a + (b + c)) + d) == Unlines(a + b) + Unlines(c + d)
  {
    assert (a + (b + c)) + d == (a + b) + (c + d);
    UnlinesJoin(a + b, c + d);
  }

  lemma {:induction false} PrintScriptFirst(parts: seq<Part>)
    requires parts != []
    ensures PrintScript(parts) == PrintPart(parts[0]) + PrintScript(parts[1..])
  {
    if |parts| == 1 {
    } else {
      var init, rest := parts[..|parts| - 1], parts[1..];
      PrintScriptFirst(init);
      assert rest[..|rest| - 1] == init[1..];
      Regroup(PrintPart(parts[0]), PrintScript(init[1..]), PrintPart(parts[|parts| - 1]));
    }
  }

  lemma GroupPrintsAs(name: string, control: string, body: seq<Statement>)
    ensures var part := GroupPart(name, control, body);
      Unlines(OpenPart(true, part) + Dedents(PartDepth(part))) == name + (" while " + (control + Block(body)))
  {
    var head := name + (" while " + control);
    PrintsAllAs(body);
    BlockLines(head, body);
    Regroup(name, " while " + control, ":");
    Regroup(" while ", control, ":");
    Regroup(name, " while " + control, Block(body));
    Regroup(" while ", control, Block(body));
  }

  lemma PartPrintsAs(part: Part)
    ensures Unlines(OpenPart(true, part) + Dedents(PartDepth(part))) == PrintPart(part)
  {
    match part
    case PuppetPart(name, command, tail) =>
      LinePrintsAs(name + (" = " + (command + tail)));
      Regroup(name, " = " + (command + tail), "\n");
      Regroup(" = ", command + tail, "\n");
    case Remark(text) => LinePrintsAs("#" + text);
    case GroupPart(name, control, body) => GroupPrintsAs(name, control, body);
  }

  lemma {:induction false} ScriptPrintsAs(parts: seq<Part>)
    ensures Unlines(OpenScript(true, parts) + Dedents(ScriptDepth(parts))) == PrintScript(parts)
  {
    if parts == [] {
    } else {
      var part, rest := parts[0], parts[1..];
      PartPrintsAs(part);
      PrintScriptFirst(parts);
      if |parts| == 1 {
        assert PrintScript(rest) == "";
      } else {
        ScriptPrintsAs(rest);
        SplitEnds(OpenPart(true, part), Dedents(PartDepth(part)), OpenScript(true, rest), Dedents(ScriptDepth(rest)));
      }
    }
  }

  // Where two blocks end at once before another line, one end is missing.

  lemma {:induction false} OpenSame(s: Statement)
    requires Shallow(s)
    ensures Open(true, s) == Open(false, s)
    decreases s, 0
  {
    if s.IfOf? { OpenSameAll(s.body); }
  }

  lemma {:induction false} OpenSameAll(ss: seq<Statement>)
    requires ShallowAll(ss)
    ensures OpenAll(true, ss) == OpenAll(false, ss)
    decreases ss, 1
  {
    if ss == [] {
    } else {
      OpenSame(ss[0]);
      if |ss| > 1 { OpenSameAll(ss[1..]); }
    }
  }

  lemma {:induction false} ScriptSame(parts: seq<Part>)
    requires ShallowScript(parts)
    ensures OpenScript(true, parts) == OpenScript(false, parts)
  {
    if parts == [] {
    } else {
      if parts[0].GroupPart? { OpenSameAll(parts[0].body); }
      if |parts| > 1 { ScriptSame(parts[1..]); }
    }
  }

  /** The next line is not taken for an end. */
  predicate NoEnd(ls: seq<string>) {
    ls != [] && ls[0] != "DEDENT"
  }

  lemma TwoEnds(depth: nat, x: seq<string>)
    requires depth > 1
    ensures var ls := Ends(true, depth) + x;
      |ls| > 1 && ls[1] == "DEDENT"
  {
    assert Dedents(depth) == ["DEDENT"] + Dedents(depth - 1) && Dedents(depth - 1)[0] == "DEDENT";
  }

  lemma OneEnd(depth: nat, y: seq<string>)
    requires depth > 1 && y != []
    ensures (Ends(false, depth) + y)[1..] == y
  {
    assert Ends(false, depth) == ["DEDENT"] + Dedents(0) && Dedents(0) == [];
  }

  lemma CancelEnds(depth: nat, x: seq<string>, y: seq<string>)
    requires Ends(true, depth) + x == Ends(false, depth) + y && NoEnd(y)
    ensures depth <= 1 && x == y
  {
    EndsApart(depth, x, y);
    CancelFront(Ends(true, depth), x, y);
  }

  lemma EndsApart(depth: nat, x: seq<string>, y: seq<string>)
    requires NoEnd(y)
    ensures depth > 1 ==> Ends(true, depth) + x != Ends(false, depth) + y
  {
    if depth > 1 {
      TwoEnds(depth, x);
      OneEnd(depth, y);
      assert (Ends(false, depth) + y)[1..][0] == y[0];
    }
  }

  lemma CancelFront(a: seq<string>, x: seq<string>, y: seq<string>)
    requires a + x == a + y
    ensures x == y
  {
    assert (a + x)[|a|..] == x && (a + y)[|a|..] == y;
  }

  lemma {:induction false} Cancel(s: Statement, x: seq<string>, y: seq<string>)
    requires StatementOk(s) && Open(true, s) + x == Open(false, s) + y
    ensures Shallow(s) && x == y
    decreases s, 0
  {
    match s
    case CallOf(pad, _, _) => CancelFront([pad + CallText(s)], x, y);
    case IfOf(pad, name, body) => CancelBlock(pad + ("if " + (name + ":")), body, x, y);
  }

  lemma CancelBlock(head: string, body: seq<Statement>, x: seq<string>, y: seq<string>)
    requires StatementsOk(body)
    requires ([head] + (["INDENT"] + OpenAll(true, body))) + x == ([head] + (["INDENT"] + OpenAll(false, body))) + y
    ensures ShallowAll(body) && x == y
    decreases body, 2
  {
    BehindTwo(head, "INDENT", OpenAll(true, body), x);
    BehindTwo(head, "INDENT", OpenAll(false, body), y);
    CancelFront([head] + ["INDENT"], OpenAll(true, body) + x, OpenAll(false, body) + y);
    CancelAll(body, x, y);
  }

  lemma BehindTwo(a: string, b: string, ls: seq<string>, x: seq<string>)
    ensures ([a] + ([b] + ls)) + x == ([a] + [b]) + (ls + x)
  {
  }

  lemma BehindThree(a: seq<string>, b: seq<string>, c: seq<string>, x: seq<string>)
    ensures (a + (b + c)) + x == a + (b + (c + x))
  {
  }

  lemma StatementNoEnd(all: bool, ss: seq<Statement>, x: seq<string>)
    requires ss != [] && StatementsOk(ss)
    ensures NoEnd(OpenAll(all, ss) + x)
  {
    FirstStatement(ss);
    var line := Open(all, ss[0])[0];
    assert line[0] == ss[0].pad[0];
    assert (OpenAll(all, ss) + x)[0] == line;
  }

  lemma {:induction false} CancelAll(ss: seq<Statement>, x: seq<string>, y: seq<string>)
    requires StatementsOk(ss) && OpenAll(true, ss) + x == OpenAll(false, ss) + y
    ensures ShallowAll(ss) && x == y
    decreases ss, 1
  {
    if ss == [] {
      CancelFront([], x, y);
    } else {
      FirstStatement(ss);
      if |ss| == 1 {
        Cancel(ss[0], x, y);
        assert ss[1..] == [];
      } else {
        var s, rest := ss[0], ss[1..];
        BehindThree(Open(true, s), Ends(true, Depth(s)), OpenAll(true, rest), x);
        BehindThree(Open(false, s), Ends(false, Depth(s)), OpenAll(false, rest), y);
        Cancel(s, Ends(true, Depth(s)) + (OpenAll(true, rest) + x), Ends(false, Depth(s)) + (OpenAll(false, rest) + y));
        StatementNoEnd(false, rest, y);
        CancelEnds(Depth(s), OpenAll(true, rest) + x, OpenAll(false, rest) + y);
        CancelAll(rest, x, y);
      }
    }
  }

  lemma CancelPart(part: Part, x: seq<string>, y: seq<string>)
    requires PartOk(part) && OpenPart(true, part) + x == OpenPart(false, part) + y
    ensures ShallowPart(part) && x == y
  {
    match part
    case GroupPart(name, control, body) => CancelBlock(name + (" while " + (control + ":")), body, x, y);
    case PuppetPart(_, _, _) => CancelFront(PartLines(part), x, y);
    case Remark(_) => CancelFront(PartLines(part), x, y);
  }

  /** A line with a space, or that begins with something else. */
  lemma NotTheEnd(line: string, i: nat)
    requires i < |line| && (line[i] == ' ' || line[0] == '#')
    ensures line != "DEDENT"
  {
    assert forall c :: c in "DEDENT" ==> c != ' ' && c != '#';
    assert line[i] in line && line[0] in line;
  }

  lemma PartNoEnd(all: bool, parts: seq<Part>, x: seq<string>)
    requires parts != [] && ScriptOk(parts)
    ensures NoEnd(OpenScript(all, parts) + x)
  {
    FirstPart(parts);
    var part := parts[0];
    var line := OpenPart(all, part)[0];
    assert (OpenScript(all, parts) + x)[0] == line;
    NotTheEnd(line, if part.Remark? then 0 else |part.name|);
  }

  lemma {:induction false} CancelScript(parts: seq<Part>, x: seq<string>, y: seq<string>)
    requires ScriptOk(parts) && OpenScript(true, parts) + x == OpenScript(false, parts) + y
    ensures ShallowScript(parts) && x == y
  {
    if parts == [] {
      CancelFront([], x, y);
    } else {
      FirstPart(parts);
      var part, rest := parts[0], parts[1..];
      if |parts| == 1 {
        CancelPart(part, x, y);
        assert rest == [];
      } else {
        var n := PartDepth(part);
        BehindThree(OpenPart(true, part), Ends(true, n), OpenScript(true, rest), x);
        BehindThree(OpenPart(false, part), Ends(false, n), OpenScript(false, rest), y);
        CancelPart(part, Ends(true, n) + (OpenScript(true, rest) + x), Ends(false, n) + (OpenScript(false, rest) + y));
        PartNoEnd(false, rest, y);
        CancelEnds(n, OpenScript(true, rest) + x, OpenScript(false, rest) + y);
        CancelScript(rest, x, y);
      }
    }
  }

  // The lines are lines.

  lemma OneLineJoin(a: string, b: string)
    requires OneLine(a) && OneLine(b)
    ensures OneLine(a + b)
  {
  }

  lemma NamesAreLines(name: string)
    requires IsName(name)
    ensures OneLine(name)
  {
  }

  lemma {:induction false} StatementLines(s: Statement, all: bool)
    requires StatementOk(s)
    ensures AllOneLine(LinesOf(s)) && AllOneLine(Open(all, s))
    decreases s, 0
  {
    NamesAreLines(s.name);
    if s.IfOf? { BodyLines(s.body, all); }
  }

  lemma DedentLines(n: nat)
    ensures AllOneLine(Dedents(n))
  {
  }

  lemma {:induction false} BodyLines(ss: seq<Statement>, all: bool)
    requires StatementsOk(ss)
    ensures AllOneLine(LinesOfAll(ss)) && AllOneLine(OpenAll(all, ss))
    decreases ss, 1
  {
    if ss == [] {
    } else {
      FirstStatement(ss);
      StatementLines(ss[0], all);
      BodyLines(ss[1..], all);
      DedentLines(if all || Depth(ss[0]) <= 1 then Depth(ss[0]) else 1);
    }
  }

  lemma PartIsLines(part: Part, all: bool)
    requires PartOk(part)
    ensures AllOneLine(PartLines(part)) && AllOneLine(OpenPart(all, part))
  {
    match part
    case PuppetPart(name, command, tail) =>
      OneLineJoin(command, tail);
      OneLineJoin(name, " = " + (command + tail));
    case Remark(text) => OneLineJoin("#", text);
    case GroupPart(name, control, body) =>
      NamesAreLines(name);
      NamesAreLines(control);
      OneLineJoin(name, " while " + (control + ":"));
      BodyLines(body, all);
  }

  lemma {:induction false} ScriptIsLines(parts: seq<Part>, all: bool)
    requires ScriptOk(parts)
    ensures AllOneLine(ScriptLines(parts)) && AllOneLine(OpenScript(all, parts))
  {
    if parts == [] {
    } else {
      FirstPart(parts);
      PartIsLines(parts[0], all);
      ScriptIsLines(parts[1..], all);
      var n := PartDepth(parts[0]);
      DedentLines(if all || n <= 1 then n else 1);
    }
  }

  /** What the loop over the lines of a script has written, and how many blocks it still counts. */
  lemma ScriptWritten(parts: seq<Part>)
    requires ScriptOk(parts) && LaidScript(parts)
    ensures var t := AddLines(START, ScriptLines(parts));
      t.out == OpenScript(false, parts) && (ShallowScript(parts) ==> t.count == ScriptDepth(parts))
  {
    if parts != [] {
      WriteScript(START, parts);
      assert Settle(START, 0) == START;
    }
  }

  lemma TokensAre(parts: seq<Part>) returns (n: nat)
    requires ScriptOk(parts) && LaidScript(parts)
    ensures TokenLines(Unlines(ScriptLines(parts))) == OpenScript(false, parts) + Dedents(n)
    ensures ShallowScript(parts) ==> n == ScriptDepth(parts)
  {
    n := AtLeastZero(AddLines(START, ScriptLines(parts)).count);
    ScriptIsLines(parts, false);
    LinesOfUnlines(ScriptLines(parts));
    ScriptWritten(parts);
  }

  lemma SameText(a: seq<string>, b: seq<string>)
    requires AllOneLine(a) && AllOneLine(b)
    ensures Unlines(a) == Unlines(b) <==> a == b
  {
    LinesOfUnlines(a);
    LinesOfUnlines(b);
  }

  lemma OpenIsLines(all: bool, parts: seq<Part>, n: nat)
    requires ScriptOk(parts)
    ensures AllOneLine(OpenScript(all, parts) + Dedents(n))
  {
    ScriptIsLines(parts, all);
    DedentLines(n);
  }

  /** The tokens of a script are those of its blocks exactly when nowhere, but at its end, two blocks end at once. */
  lemma TokensOfScript(parts: seq<Part>)
    requires ScriptOk(parts) && LaidScript(parts)
    ensures Unlines(TokenLines(Unlines(ScriptLines(parts)))) == PrintScript(parts) <==> ShallowScript(parts)
  {
    var n := TokensAre(parts);
    var depth := ScriptDepth(parts);
    OpenIsLines(false, parts, n);
    OpenIsLines(true, parts, depth);
    SameText(OpenScript(false, parts) + Dedents(n), OpenScript(true, parts) + Dedents(depth));
    ScriptPrintsAs(parts);
    if ShallowScript(parts) {
      ScriptSame(parts);
    } else if OpenScript(true, parts) + Dedents(depth) == OpenScript(false, parts) + Dedents(n) {
      CancelScript(parts, Dedents(depth), Dedents(n));
    }
  }

  /** So a script in which nowhere two blocks end at once is read as it is written. */
  lemma WrittenScriptReads(parts: seq<Part>)
    requires ScriptOk(parts) && LaidScript(parts) && ShallowScript(parts)
    ensures var text := Unlines(TokenLines(Unlines(ScriptLines(parts))));
      Reads(text, Bind(SCRIPT), 0, |text|, [Node(SCRIPT, ScriptTrees(parts))])
  {
    TokensOfScript(parts);
    ScriptReads(parts);
  }
}
