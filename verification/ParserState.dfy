/** The state a parser runs on: a cursor over lazily read input, the memo tables of the positions
    read so far and the furthest-failure error. */
module ParserState {
  import opened ParseErrors
  import opened Grammar
  import opened Lines
  import opened Semantics

  /** A position; only `i` takes part in comparisons. */
  datatype Posn = Posn(i: nat, line: nat, col: nat)

  datatype Memo = Memo(success: bool, end: Posn, result: seq<Tree>)

  /** What running a combinator came to. */
  datatype Verdict = Unfinished | Matched | Failed

  /** All memoizing combinators inside `c` use their identifier as `spec` says. */
  predicate KeepsIds(spec: nat -> Comb, c: Comb) {
    match c
    case Sequence(fs) => forall i :: 0 <= i < |fs| ==> KeepsIds(spec, fs[i])
    case Choice(fs) => forall i :: 0 <= i < |fs| ==> KeepsIds(spec, fs[i])
    case Many(f) => KeepsIds(spec, f)
    case Some(f) => KeepsIds(spec, f)
    case Option(f) => KeepsIds(spec, f)
    case Look(f) => KeepsIds(spec, f)
    case LookNot(f) => KeepsIds(spec, f)
    case Memoize(id, f) => spec(id) == c && KeepsIds(spec, f)
    case MemoizeBind(id, f) => spec(id) == c && KeepsIds(spec, f)
    case MemoizeMany(id, f) => spec(id) == c && KeepsIds(spec, f)
    case MemoizeSome(id, f) => spec(id) == MemoizeMany(id, f) && KeepsIds(spec, f)
    case Capture(f) => KeepsIds(spec, f)
    case Named(_, f) => KeepsIds(spec, f)
    case _ => true
  }

  class State {
    const g: Rules
    ghost const spec: nat -> Comb
    ghost const input: string
    ghost const plain: Plain // the unmemoized parser over the whole input

    var pos: Posn
    var str: string        // the characters read so far
    var rest: string       // what the stream still holds
    var lines: seq<nat>    // where the lines of `str` start
    var memoTable: seq<map<nat, Memo>>
    var err: Error

    /** A position the cursor may be set to: read already, or the end of the whole input. */
    ghost predicate Seen(p: Posn)
      reads this`str, this`rest
    {
      p.i <= |str| && (p.i < |str| || rest == []) &&
      (p.i < |input| ==> (p.line, p.col) == LineCol(input, p.i))
    }

    /** The stored text is a prefix of the input and the cursor's character is stored unless the
        input is exhausted. */
    ghost predicate ValidText()
      reads this`pos, this`str, this`rest, this`lines
    {
      input == str + rest && lines == LineStarts(str) && Seen(pos)
    }

    /** A memo entry is the plain outcome at its position, and its errors are in `err` already. */
    ghost predicate EntryOk(k: nat, id: nat, m: Memo)
      reads this`str, this`rest, this`err
    {
      k <= |input| && Seen(m.end) &&
      var d := plain.means(spec(id), k);
      d.Done? && d.ok == m.success && d.end == m.end.i && d.val == m.result && Covers(err, d.err)
    }

    ghost predicate ValidMemo()
      reads this`str, this`rest, this`err, this`memoTable
    {
      forall k, id :: 0 <= k < |memoTable| && id in memoTable[k] ==> EntryOk(k, id, memoTable[k][id])
    }

    ghost predicate Valid()
      reads this
    {
      ValidText() && ValidMemo() && (forall k :: KeepsIds(spec, g(k))) &&
      plain.g == g && plain.input == input && Faithful(plain)
    }

    /** The verdict, cursor, value and errors are those of the plain outcome `o`; `before` is the
        error object before the run. */
    ghost predicate Agrees(o: Outcome, v: Verdict, val: seq<Tree>, before: Error)
      reads this`pos, this`err
    {
      o.Done? && v == (if o.ok then Matched else Failed) && val == o.val &&
      pos.i == o.end && err == Merge(before, o.err)
    }

    constructor (g: Rules, ghost spec: nat -> Comb, stream: string)
      requires forall k :: KeepsIds(spec, g(k))
      ensures ValidText() && input == stream && pos.i == 0
      ensures this.g == g && this.spec == spec && Valid()
      ensures memoTable == [] && err == NO_ERROR
    {
      this.g, this.spec, this.input := g, spec, stream;
      plain := PlainParser(g, stream);
      pos, str, rest, lines := Posn(0, 0, 0), [], stream, [0];
      memoTable, err := [], NO_ERROR;
      new;
      var _ := ReadOne();
    }

    /** Reads a single character. */
    method ReadOne() returns (more: bool)
      requires input == str + rest && lines == LineStarts(str)
      modifies `str, `rest, `lines
      ensures input == str + rest && lines == LineStarts(str)
      ensures more == (old(rest) != [])
      ensures |str| == (old(|str|) + if more then 1 else 0) && old(str) <= str
      ensures !more ==> rest == []
    {
      if rest == [] { return false; }
      var c := rest[0];
      if c == '\n' { lines := lines + [|str| + 1]; }
      str, rest := str + [c], rest[1..];
      assert str[..|str| - 1] == old(str);
      return true;
    }

    /** Reads up to `n` characters. */
    method ReadMany(n: nat) returns (r: nat)
      requires input == str + rest && lines == LineStarts(str)
      modifies `str, `rest, `lines
      ensures input == str + rest && lines == LineStarts(str)
      ensures r == if n <= old(|rest|) then n else old(|rest|)
      ensures |str| == old(|str|) + r && old(str) <= str
    {
      r := if n <= |rest| then n else |rest|;
      var s := rest[..r];
      var i := 0;
      assert str + s[..0] == str;
      while i < r
        invariant 0 <= i <= r
        invariant str == old(str) && rest == old(rest)
        invariant lines == LineStarts(str + s[..i])
      {
        if s[i] == '\n' { lines := lines + [|str| + i + 1]; }
        assert (str + s[..i + 1])[..|str| + i] == str + s[..i];
        i := i + 1;
      }
      str, rest := str + s, rest[r..];
      assert s[..r] == s;
    }

    /** The character at the cursor, `'\0'` at the end of the stream. */
    method Current() returns (c: char)
      requires ValidText()
      ensures c == CharAt(input, pos.i)
    {
      c := if pos.i < |str| then str[pos.i] else '\0';
    }

    method SetPosn(p: Posn)
      requires ValidText() && Seen(p)
      modifies `pos
      ensures ValidText() && pos == p
    {
      pos := p;
    }

    /** Advances one step. At the end of the input the column simply goes up by one, so line and
        column are right there exactly when the input does not end with a newline. */
    method Advance()
      requires ValidText()
      modifies `pos, `str, `rest, `lines
      ensures ValidText() && pos.i == Next(input, old(pos.i))
      ensures old(pos.i) == |input| ==> pos == old(pos)
      ensures pos.i == |input| && old(pos.i) < |input| ==>
        ((pos.line, pos.col) == LineCol(input, pos.i) <==> input[|input| - 1] != '\n')
      ensures old(str) <= str
    {
      var i := pos.i;
      if i >= |str| { return; }
      pos := pos.(i := i + 1);
      if i + 1 == |str| {
        var more := ReadOne();
        if !more { pos := pos.(col := pos.col + 1); return; }
      }
      CurrentLine(i);
      var j := pos.line;
      if j == |lines| - 1 || pos.i < lines[j + 1] {
        pos := pos.(col := pos.col + 1);
      } else {
        pos := pos.(line := pos.line + 1, col := 0);
      }
    }

    /** Where the line table of the stored text puts a position. */
    lemma Locate(i: nat)
      requires input == str + rest && i <= |str|
      ensures var k := StartedBy(str, i); var starts := LineStarts(str);
        k <= |starts| && starts[k - 1] <= i && LineCol(input, i) == (k - 1, i - starts[k - 1]) &&
        (forall j :: 0 <= j < k ==> starts[j] <= i) && (forall j :: k <= j < |starts| ==> i < starts[j])
    {
      LineColPrefix(input, str, i);
      LineColFromStarts(str, i);
      StartsSplit(str, i);
    }

    /** The line table of the stored text tells whether the next character starts a line. */
    lemma CurrentLine(i: nat)
      requires input == str + rest && i + 1 < |str|
      ensures var (line, col) := LineCol(input, i); var starts := LineStarts(str);
        line < |starts| &&
        LineCol(input, i + 1) ==
          if line == |starts| - 1 || i + 1 < starts[line + 1] then (line, col + 1) else (line + 1, 0)
    {
      Locate(i);
      Locate(i + 1);
      assert str[..i + 1][..i] == str[..i];
    }

    /** Advances `n` steps, but not past the end of the input. */
    method AdvanceBy(n: nat)
      requires ValidText()
      modifies `pos, `str, `rest, `lines
      ensures ValidText()
      ensures pos.i == if old(pos.i) + n <= |input| then old(pos.i) + n else |input|
      ensures old(pos.i) == |input| ==> pos == old(pos)
      ensures old(pos.i) < |input| ==> (pos.line, pos.col) == LineCol(input, pos.i)
      ensures old(str) <= str
    {
      var i, n := pos.i, n;
      if i + n >= |str| {
        if i >= |str| { return; }
        var nn := i + n + 1 - |str|;
        var r := ReadMany(nn);
        if r < nn { n := |str| - i; }
      }
      MoveForward(n);
    }

    /** The position update of `AdvanceBy`, over text that is stored already. */
    method MoveForward(n: nat)
      requires ValidText() && pos.i < |input|
      requires pos.i + n <= |str| && (pos.i + n < |str| || rest == [])
      modifies `pos
      ensures ValidText() && pos.i == old(pos.i) + n
      ensures (pos.line, pos.col) == LineCol(input, pos.i)
    {
      Locate(pos.i);
      Locate(pos.i + n);
      pos := pos.(i := pos.i + n);
      var j := pos.line + 1;
      while j < |lines| && pos.i >= lines[j]
        invariant 1 <= j <= |lines| && pos == Posn(old(pos.i) + n, j - 1, old(pos.col))
        invariant lines[j - 1] <= pos.i
      {
        pos := pos.(line := pos.line + 1);
        j := j + 1;
      }
      assert j == StartedBy(str, pos.i);
      pos := pos.(col := pos.i - lines[pos.line]);
    }

    /** The text of up to `n` characters from `p` on. */
    method TextAt(p: Posn, n: nat) returns (s: string)
      requires ValidText() && Seen(p)
      modifies `str, `rest, `lines
      ensures ValidText() && s == Substring(input, p.i, n)
      ensures old(str) <= str
    {
      var ib, ie := p.i, p.i + n;
      if ie > |str| {
        var _ := ReadMany(ie - |str|);
      }
      s := if ie >= |str| then (if ib >= |str| then [] else str[ib..]) else str[ib..ie];
    }

    /** The memo entry at the cursor, if there is one: it is the plain outcome here, and all its
        errors have been reported. */
    method LookUp(id: nat) returns (found: bool, m: Memo)
      requires Valid()
      ensures found <==> pos.i < |memoTable| && id in memoTable[pos.i]
      ensures found ==> m == memoTable[pos.i][id] && Seen(m.end)
      ensures found ==> var d := plain.means(spec(id), pos.i);
        d.Done? && m == Memo(d.ok, m.end, d.val) && m.end.i == d.end && Merge(err, d.err) == err
    {
      found := pos.i < |memoTable| && id in memoTable[pos.i];
      m := if found then memoTable[pos.i][id] else Memo(false, Posn(0, 0, 0), []);
      if found {
        assert EntryOk(pos.i, id, m);
        MergeIsJoin(err, plain.means(spec(id), pos.i).err);
      }
    }

    /** Records the outcome of a run that started at `start` and has just ended at the cursor. */
    method Record(start: Posn, id: nat, success: bool, val: seq<Tree>, ghost before: Error)
      requires Valid() && start.i <= |input|
      requires var d := plain.means(spec(id), start.i);
        d.Done? && success == d.ok && pos.i == d.end && val == d.val && err == Merge(before, d.err)
      modifies `memoTable
      ensures Valid()
      ensures start.i < |memoTable| && id in memoTable[start.i] && memoTable[start.i][id] == Memo(success, pos, val)
    {
      MergeIsJoin(before, plain.means(spec(id), start.i).err);
      SetMemo(start, id, Memo(success, pos, val));
    }

    method SetMemo(p: Posn, id: nat, m: Memo)
      requires Valid() && EntryOk(p.i, id, m)
      modifies `memoTable
      ensures Valid()
      ensures |memoTable| == if p.i < old(|memoTable|) then old(|memoTable|) else p.i + 1
      ensures memoTable[p.i] == (if p.i < old(|memoTable|) then old(memoTable)[p.i] else map[])[id := m]
      ensures forall k :: 0 <= k < |memoTable| && k != p.i ==>
        memoTable[k] == if k < old(|memoTable|) then old(memoTable)[k] else map[]
    {
      ghost var before := memoTable;
      while |memoTable| <= p.i
        invariant before <= memoTable
        invariant |memoTable| <= |before| || |memoTable| <= p.i + 1
        invariant forall k :: |before| <= k < |memoTable| ==> memoTable[k] == map[]
        decreases p.i - |memoTable|
      {
        memoTable := memoTable + [map[]];
      }
      var table: map<nat, Memo> := memoTable[p.i][id := m];
      memoTable := memoTable[p.i := table];
    }

    /** `err |= e` at the cursor, for an error with the given messages. */
    method AddError(expected: set<string>, messages: set<string>)
      requires Valid()
      modifies `err
      ensures Valid() && err == Merge(old(err), Error(pos.i, expected, messages))
    {
      var e := Error(pos.i, expected, messages);
      MergeIsJoin(err, e);
      err := Merge(err, e);
      forall k, id | 0 <= k < |memoTable| && id in memoTable[k] ensures EntryOk(k, id, memoTable[k][id]) {
        assert old(EntryOk(k, id, memoTable[k][id]));
        CoversTransitive(err, old(err), plain.means(spec(id), k).err);
      }
    }

    method MatchesChar(c: char) returns (ok: bool)
      requires Valid()
      modifies `pos, `str, `rest, `lines
      ensures old(str) <= str
      ensures Valid() && ok == (CharAt(input, old(pos.i)) == c)
      ensures pos.i == if ok then Next(input, old(pos.i)) else old(pos.i)
    {
      var d := Current();
      ok := d == c;
      if ok { Advance(); }
    }

    method MatchesString(s: string) returns (ok: bool)
      requires Valid()
      modifies `pos, `str, `rest, `lines
      ensures old(str) <= str
      ensures Valid() && ok == (Substring(input, old(pos.i), |s|) == s)
      ensures pos.i == if ok then old(pos.i) + |s| else old(pos.i)
    {
      var t := TextAt(pos, |s|);
      ok := t == s;
      if ok { AdvanceBy(|s|); }
    }

    method MatchesAny() returns (ok: bool)
      requires Valid()
      modifies `pos, `str, `rest, `lines
      ensures old(str) <= str
      ensures Valid() && ok == (CharAt(input, old(pos.i)) != '\0')
      ensures pos.i == if ok then Next(input, old(pos.i)) else old(pos.i)
    {
      var c := Current();
      ok := c != '\0';
      if ok { Advance(); }
    }

    method MatchesIn(lo: char, hi: char) returns (ok: bool)
      requires Valid()
      modifies `pos, `str, `rest, `lines
      ensures old(str) <= str
      ensures Valid() && ok == (lo <= CharAt(input, old(pos.i)) <= hi)
      ensures pos.i == if ok then Next(input, old(pos.i)) else old(pos.i)
    {
      var c := Current();
      ok := !(c < lo || c > hi);
      if ok { Advance(); }
    }

    /** Runs a combinator. With enough fuel the run ends; if it ends, it matched or failed, left the
        cursor, bound the value and reported the errors as the plain meaning of the combinator does. */
    method Run(c: Comb, fuel: nat) returns (v: Verdict, val: seq<Tree>)
      requires Valid() && KeepsIds(spec, c)
      modifies this
      ensures Valid() && old(str) <= str
      ensures v != Unfinished ==> Agrees(plain.means(c, old(pos.i)), v, val, old(err))
      ensures plain.ends(c, old(pos.i), fuel) ==> v != Unfinished
      decreases fuel, 3
    {
      if fuel == 0 {
        if plain.ends(c, pos.i, fuel) { Reaches(plain, c, pos.i, fuel); }
        return Unfinished, [];
      }
      if IsLeaf(c) {
        v := RunLeaf(c);
        val := [];
      } else if c.Memoize? || c.MemoizeBind? {
        v, val := RunMemoize(c, fuel);
      } else if IsWrapper(c) {
        v, val := RunWrapper(c, fuel);
      } else {
        match c
        case Sequence(fs) => v, val := RunSequence(fs, fuel);
        case Choice(fs) => v, val := RunChoice(fs, fuel);
        case Many(f) => v, val := RunMany(f, fuel - 1);
        case Some(f) => v, val := RunSome(f, fuel);
        case MemoizeMany(id, f) =>
          if plain.ends(c, pos.i, fuel) { MemoizeManyEnds(plain, id, f, pos.i, fuel); }
          MemoizeManyLaw(plain, id, f, pos.i);
          v := ManyMemoized(id, f, fuel - 1);
          val := [];
        case MemoizeSome(id, f) => v := RunMemoizeSome(id, f, fuel); val := [];
      }
    }

    method RunLeaf(c: Comb) returns (v: Verdict)
      requires Valid() && IsLeaf(c)
      modifies this
      ensures Valid() && old(str) <= str
      ensures v != Unfinished && Agrees(plain.means(c, old(pos.i)), v, [], old(err))
    {
      LeafLaw(plain, c, pos.i);
      MergeIsJoin(err, err);
      if c.Empty? { return Matched; }
      if c.Fail? { AddError({}, {c.msg}); return Failed; }
      var ok;
      match c {
        case Literal(ch) => ok := MatchesChar(ch);
        case LiteralString(s) => ok := MatchesString(s);
        case Any => ok := MatchesAny();
        case Between(lo, hi) => ok := MatchesIn(lo, hi);
      }
      if ok { return Matched; }
      AddError({}, {});
      return Failed;
    }

    /** `memoize`: a hit jumps to the recorded end, a miss runs the parser and records it. */
    method RunMemoize(c: Comb, fuel: nat) returns (v: Verdict, val: seq<Tree>)
      requires Valid() && KeepsIds(spec, c) && (c.Memoize? || c.MemoizeBind?) && fuel > 0
      modifies this
      ensures Valid() && old(str) <= str
      ensures v != Unfinished ==> Agrees(plain.means(c, old(pos.i)), v, val, old(err))
      ensures plain.ends(c, old(pos.i), fuel) ==> v != Unfinished
      decreases fuel, 2
    {
      var start := pos;
      ghost var d := plain.means(c, start.i);
      Bounds(plain, c, start.i);
      var found, m := LookUp(c.id);
      if found {
        if m.success { SetPosn(m.end); }
        v := if m.success then Matched else Failed;
        val := m.result;
      } else {
        WrapperLaw(plain, c, start.i, fuel);
        v, val := Run(c.f, fuel - 1);
        if v == Unfinished { return; }
        if c.Memoize? { val := []; }
        Record(start, c.id, v == Matched, val, old(err));
      }
    }

    method RunWrapper(c: Comb, fuel: nat) returns (v: Verdict, val: seq<Tree>)
      requires Valid() && KeepsIds(spec, c) && IsWrapper(c) && fuel > 0
      requires !c.Memoize? && !c.MemoizeBind?
      modifies this
      ensures Valid() && old(str) <= str
      ensures v != Unfinished ==> Agrees(plain.means(c, old(pos.i)), v, val, old(err))
      ensures plain.ends(c, old(pos.i), fuel) ==> v != Unfinished
      decreases fuel, 2
    {
      var start := pos;
      WrapperLaw(plain, c, start.i, fuel);
      v, val := Run(Inner(g, c), fuel - 1);
      if v == Unfinished { return; }
      v, val := FinishWrapper(c, start, v, val, old(err));
    }

    /** What a wrapper does after the parser it ran came back. */
    method FinishWrapper(c: Comb, start: Posn, inner: Verdict, value: seq<Tree>, ghost before: Error)
      returns (v: Verdict, val: seq<Tree>)
      requires Valid() && IsWrapper(c) && !c.Memoize? && !c.MemoizeBind? && Seen(start)
      requires var r := plain.means(Inner(g, c), start.i);
        Agrees(r, inner, value, before) && start.i <= r.end && (!r.ok ==> r.end == start.i && r.val == [])
      modifies this
      ensures Valid() && old(str) <= str
      ensures Agrees(Wrap(input, c, start.i, plain.means(Inner(g, c), start.i)), v, val, before)
    {
      v, val := inner, value;
      match c
      case Option(_) => v := Matched;
      case Look(_) => if v == Matched { SetPosn(start); }
      case LookNot(_) =>
        if v == Matched { SetPosn(start); v := Failed; } else { v := Matched; }
        val := [];
      case Bind(k) => if v == Matched { val := [Node(k, val)]; }
      case Unbind(_) => val := [];
      case Capture(_) =>
        if v == Matched {
          var s := TextAt(start, pos.i - start.i);
          val := [Text(s)];
        }
      case Named(name, _) =>
        if v == Failed {
          MergeAssociative(before, plain.means(c.f, start.i).err, Error(pos.i, {name}, {}));
          AddError({name}, {});
        }
    }

    /** Runs the parsers in order; the first failure puts the cursor back. */
    method RunSequence(fs: seq<Comb>, fuel: nat) returns (v: Verdict, val: seq<Tree>)
      requires Valid() && (forall i :: 0 <= i < |fs| ==> KeepsIds(spec, fs[i])) && fuel > 0
      modifies this
      ensures Valid() && old(str) <= str
      ensures v != Unfinished ==> Agrees(plain.means(Sequence(fs), old(pos.i)), v, val, old(err))
      ensures plain.ends(Sequence(fs), old(pos.i), fuel) ==> v != Unfinished
      decreases fuel, 1
    {
      var start := pos;
      val := [];
      ghost var acc := Done(true, pos.i, NO_ERROR, []);
      ghost var goal := plain.means(Sequence(fs), start.i);
      RestoreUnit(plain, fs, start.i);
      MergeIsJoin(err, err);
      var i := 0;
      while i < |fs|
        invariant 0 <= i <= |fs| && Valid() && old(str) <= str
        invariant acc.Done? && acc.ok && Agrees(acc, Matched, val, old(err))
        invariant goal == Restore(start.i, acc.Then(plain.means(Sequence(fs[i..]), pos.i)))
        invariant plain.ends(Sequence(fs), start.i, fuel) ==> plain.ends(Sequence(fs[i..]), pos.i, fuel)
      {
        ghost var p, rest := pos.i, fs[i..];
        ghost var r := plain.means(fs[i], p);
        assert rest[0] == fs[i] && rest[1..] == fs[i + 1..];
        if plain.ends(Sequence(rest), p, fuel) { SequenceEnds(plain, rest, p, fuel); }
        var w;
        v, w := Run(fs[i], fuel - 1);
        if v == Unfinished { return; }
        MergeAssociative(old(err), acc.err, r.err);
        SequenceStep(plain, acc, rest, start.i, p);
        if v == Failed {
          SetPosn(start);
          return Failed, [];
        }
        acc := acc.Then(r);
        val := val + w;
        i := i + 1;
      }
      v := Matched;
      assert fs[i..] == [];
      SequenceEmpty(plain, acc, pos.i);
    }

    /** Tries the parsers in order until one matches. */
    method RunChoice(fs: seq<Comb>, fuel: nat) returns (v: Verdict, val: seq<Tree>)
      requires Valid() && (forall i :: 0 <= i < |fs| ==> KeepsIds(spec, fs[i])) && fuel > 0
      modifies this
      ensures Valid() && old(str) <= str
      ensures v != Unfinished ==> Agrees(plain.means(Choice(fs), old(pos.i)), v, val, old(err))
      ensures plain.ends(Choice(fs), old(pos.i), fuel) ==> v != Unfinished
      decreases fuel, 1
    {
      val := [];
      ghost var start := pos.i;
      ghost var acc := Done(false, pos.i, NO_ERROR, []);
      ghost var goal := plain.means(Choice(fs), start);
      ThenUnit(false, pos.i, goal);
      MergeIsJoin(err, err);
      var i := 0;
      while i < |fs|
        invariant 0 <= i <= |fs| && Valid() && old(str) <= str
        invariant acc.Done? && !acc.ok && acc.val == [] && Agrees(acc, Failed, [], old(err))
        invariant goal == acc.Then(plain.means(Choice(fs[i..]), pos.i))
        invariant plain.ends(Choice(fs), start, fuel) ==> plain.ends(Choice(fs[i..]), pos.i, fuel)
      {
        ghost var p, rest := pos.i, fs[i..];
        ghost var r := plain.means(fs[i], p);
        assert rest[0] == fs[i] && rest[1..] == fs[i + 1..];
        if plain.ends(Choice(rest), p, fuel) { ChoiceEnds(plain, rest, p, fuel); }
        v, val := Run(fs[i], fuel - 1);
        if v == Unfinished { return; }
        MergeAssociative(old(err), acc.err, r.err);
        ChoiceStep(plain, acc, rest, p);
        if v == Matched { return; }
        acc := acc.Then(r);
        i := i + 1;
      }
      v, val := Failed, [];
      assert fs[i..] == [];
      ChoiceEmpty(plain, acc, pos.i);
    }

    /** Runs the parser until it fails. */
    method RunMany(f: Comb, fuel: nat) returns (v: Verdict, val: seq<Tree>)
      requires Valid() && KeepsIds(spec, f)
      modifies this
      ensures Valid() && old(str) <= str
      ensures v != Unfinished ==> Agrees(plain.means(Many(f), old(pos.i)), v, val, old(err))
      ensures plain.ends(Many(f), old(pos.i), fuel + 1) ==> v != Unfinished
      decreases fuel, 1
    {
      val := [];
      ghost var start := pos.i;
      ghost var acc := Done(true, pos.i, NO_ERROR, []);
      ghost var goal := plain.means(Many(f), start);
      ThenUnit(true, pos.i, goal);
      MergeIsJoin(err, err);
      var left := fuel;
      while left > 0
        invariant 0 <= left <= fuel && Valid() && old(str) <= str
        invariant acc.Done? && acc.ok && Agrees(acc, Matched, val, old(err))
        invariant goal == acc.Then(plain.means(Many(f), pos.i))
        invariant plain.ends(Many(f), start, fuel + 1) ==> plain.ends(Many(f), pos.i, left + 1)
      {
        ghost var p := pos.i;
        ghost var r := plain.means(f, p);
        if plain.ends(Many(f), p, left + 1) { ManyEnds(plain, f, p, left + 1); }
        left := left - 1;
        var w;
        v, w := Run(f, left);
        if v == Unfinished { return; }
        MergeAssociative(old(err), acc.err, r.err);
        ManyRound(plain, acc, f, p);
        if v == Failed { return Matched, val; }
        acc := acc.Then(r);
        val := val + w;
      }
      v := Unfinished;
      if plain.ends(Many(f), pos.i, 1) { ManyEnds(plain, f, pos.i, 1); }
    }

    method RunSome(f: Comb, fuel: nat) returns (v: Verdict, val: seq<Tree>)
      requires Valid() && KeepsIds(spec, f) && fuel > 0
      modifies this
      ensures Valid() && old(str) <= str
      ensures v != Unfinished ==> Agrees(plain.means(Some(f), old(pos.i)), v, val, old(err))
      ensures plain.ends(Some(f), old(pos.i), fuel) ==> v != Unfinished
      decreases fuel, 1
    {
      ghost var p := pos.i;
      ghost var r := plain.means(f, p);
      SomeLaw(plain, f, p);
      if plain.ends(Some(f), p, fuel) { SomeEnds(plain, f, p, fuel); }
      v, val := Run(f, fuel - 1);
      if v != Matched { return; }
      ghost var m := plain.means(Many(f), pos.i);
      var w;
      v, w := RunMany(f, fuel - 1);
      val := val + w;
      if v != Unfinished {
        ManyLaw(plain, f, r.end);
        MergeAssociative(old(err), r.err, m.err);
      }
    }

    /** The repetition behind `memoize_many` and `memoize_some`: it records an entry for every
        position a round starts at, so a later repetition can join it halfway. */
    method ManyMemoized(id: nat, f: Comb, fuel: nat) returns (v: Verdict)
      requires Valid() && KeepsIds(spec, f) && spec(id) == MemoizeMany(id, f)
      modifies this
      ensures Valid() && old(str) <= str
      ensures v != Unfinished ==>
        Agrees(plain.means(Many(f), old(pos.i)).WithoutValue(), v, [], old(err))
      ensures plain.ends(Many(f), old(pos.i), fuel + 1) ==> v != Unfinished
      decreases fuel, 1
    {
      if plain.ends(Many(f), pos.i, fuel + 1) { ManyEnds(plain, f, pos.i, fuel + 1); }
      if fuel == 0 { return Unfinished; }
      var start := pos;
      MemoizeManyLaw(plain, id, f, start.i);
      ManyLaw(plain, f, start.i);
      var found := JoinEntry(id, f);
      if found { return Matched; }
      v := ManyMemoizedRound(id, f, fuel);
      if v != Unfinished {
        v := Matched;
        Record(start, id, true, [], old(err));
      }
    }

    /** The part of `ManyMemoized` that joins an entry at the cursor. */
    method JoinEntry(id: nat, f: Comb) returns (found: bool)
      requires Valid() && spec(id) == MemoizeMany(id, f)
      modifies `pos
      ensures Valid()
      ensures !found ==> pos == old(pos)
      ensures found ==> Agrees(plain.means(Many(f), old(pos.i)).WithoutValue(), Matched, [], old(err))
    {
      Bounds(plain, Many(f), pos.i);
      MemoizeManyLaw(plain, id, f, pos.i);
      ManyLaw(plain, f, pos.i);
      var m;
      found, m := LookUp(id);
      if found && m.end.i > pos.i { SetPosn(m.end); }
    }

    /** The part of `ManyMemoized` that runs when there is no entry yet. */
    method ManyMemoizedRound(id: nat, f: Comb, fuel: nat) returns (v: Verdict)
      requires Valid() && KeepsIds(spec, f) && spec(id) == MemoizeMany(id, f) && fuel > 0
      modifies this
      ensures Valid() && old(str) <= str
      ensures v != Unfinished ==> var d := plain.means(Many(f), old(pos.i));
        d.Done? && pos.i == d.end && err == Merge(old(err), d.err)
      ensures plain.ends(Many(f), old(pos.i), fuel + 1) ==> v != Unfinished
      decreases fuel, 0
    {
      ghost var p := pos.i;
      ghost var r := plain.means(f, p);
      ManyLaw(plain, f, p);
      if plain.ends(Many(f), p, fuel + 1) { ManyEnds(plain, f, p, fuel + 1); }
      var w;
      v, w := Run(f, fuel - 1);
      if v != Matched { return; }
      ghost var rest := plain.means(Many(f), pos.i);
      v := ManyMemoized(id, f, fuel - 1);
      if v == Unfinished { return; }
      MergeAssociative(old(err), r.err, rest.err);
    }

    method RunMemoizeSome(id: nat, f: Comb, fuel: nat) returns (v: Verdict)
      requires Valid() && KeepsIds(spec, f) && spec(id) == MemoizeMany(id, f)
      modifies this
      ensures Valid() && old(str) <= str
      ensures v != Unfinished ==> Agrees(plain.means(MemoizeSome(id, f), old(pos.i)), v, [], old(err))
      ensures plain.ends(MemoizeSome(id, f), old(pos.i), fuel) ==> v != Unfinished
      decreases fuel, 2
    {
      var start := pos;
      if plain.ends(MemoizeSome(id, f), start.i, fuel) { MemoizeSomeEnds(plain, id, f, start.i, fuel); }
      v := ManyMemoized(id, f, fuel);
      if v == Unfinished { return; }
      MemoizeSomeLaw(plain, id, f, start.i);
      v := if pos.i > start.i then Matched else Failed;
    }
  }
}
