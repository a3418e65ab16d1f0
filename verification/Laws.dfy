/** What each combinator does, told by the outcomes of its parts and the characters of the input alone. */
module Laws {
  import opened ParseErrors
  import opened Grammar
  import opened Meaning

  // The combinators that run no other parser.

  /** A run that matches and reports nothing. */
  predicate Matches(d: Outcome, end: nat) {
    d == Done(true, end, Error(0, {}, {}), [])
  }

  /** A run that fails at `p` with the given messages. */
  predicate FailsAt(d: Outcome, p: nat, messages: set<string>) {
    d == Done(false, p, Error(p, {}, messages), [])
  }

  /** `literal` takes the character if it stands there; the end of the input stands for NUL, and is not passed. */
  lemma LiteralLaw(g: Rules, input: string, c: char, p: nat)
    requires p <= |input|
    ensures var d := Denote(g, input, Literal(c), p);
      if p < |input| then if input[p] == c then Matches(d, p + 1) else FailsAt(d, p, {})
      else if c == '\0' then Matches(d, p) else FailsAt(d, p, {})
  {
    DenoteStep(g, input, Literal(c), p);
  }

  lemma LiteralStringLaw(g: Rules, input: string, s: string, p: nat)
    requires p <= |input|
    ensures var d := Denote(g, input, LiteralString(s), p);
      if s <= input[p..] then Matches(d, p + |s|) else FailsAt(d, p, {})
  {
    DenoteStep(g, input, LiteralString(s), p);
    if s <= input[p..] { assert input[p..][..|s|] == input[p..p + |s|]; }
  }

  lemma AnyLaw(g: Rules, input: string, p: nat)
    requires p <= |input|
    ensures var d := Denote(g, input, Any, p);
      if p < |input| && input[p] != '\0' then Matches(d, p + 1) else FailsAt(d, p, {})
  {
    DenoteStep(g, input, Any, p);
  }

  lemma BetweenLaw(g: Rules, input: string, lo: char, hi: char, p: nat)
    requires p <= |input|
    ensures var d := Denote(g, input, Between(lo, hi), p);
      if p < |input| then if lo <= input[p] <= hi then Matches(d, p + 1) else FailsAt(d, p, {})
      else if lo == '\0' then Matches(d, p) else FailsAt(d, p, {})
  {
    DenoteStep(g, input, Between(lo, hi), p);
  }

  lemma EmptyAndFailLaw(g: Rules, input: string, msg: string, p: nat)
    requires p <= |input|
    ensures Matches(Denote(g, input, Empty, p), p) && FailsAt(Denote(g, input, Fail(msg), p), p, {msg})
  {
    DenoteStep(g, input, Empty, p);
    DenoteStep(g, input, Fail(msg), p);
  }

  // The combinators that run one other parser once.

  /** Both end or neither, with the same errors. */
  predicate SameRun(d: Outcome, r: Outcome) {
    (d.Done? <==> r.Done?) && (d.Done? ==> d.err == r.err)
  }

  /** And with the same verdict, at the same place. */
  predicate SameVerdict(d: Outcome, r: Outcome) {
    SameRun(d, r) && (d.Done? ==> d.ok == r.ok && d.end == r.end)
  }

  /** `option` always succeeds, and ends where its part ends. */
  lemma OptionLaw(g: Rules, input: string, f: Comb, p: nat)
    requires p <= |input|
    ensures var d, r := Denote(g, input, Option(f), p), Denote(g, input, f, p);
      SameRun(d, r) && (d.Done? ==> d.ok && d.end == r.end && d.val == r.val)
  {
    DenoteStep(g, input, Option(f), p);
  }

  /** `look` and `look_not` end where they start, and succeed exactly when their part does or does not. */
  lemma LookLaw(g: Rules, input: string, f: Comb, p: nat)
    requires p <= |input|
    ensures var d, r := Denote(g, input, Look(f), p), Denote(g, input, f, p);
      SameRun(d, r) && (d.Done? ==> d.ok == r.ok && d.end == p && d.val == r.val)
    ensures var d, r := Denote(g, input, LookNot(f), p), Denote(g, input, f, p);
      SameRun(d, r) && (d.Done? ==> d.ok == !r.ok && d.end == p && d.val == [])
  {
    DenoteStep(g, input, Look(f), p);
    DenoteStep(g, input, LookNot(f), p);
  }

  /** `bind` and `unbind` keep verdict and end; one binds the value of the rule, the other throws it away. */
  lemma BindLaw(g: Rules, input: string, k: nat, p: nat)
    requires p <= |input|
    ensures var d, r := Denote(g, input, Bind(k), p), Denote(g, input, g(k), p);
      SameVerdict(d, r) && (d.Done? ==> d.val == if d.ok then [Node(k, r.val)] else [])
    ensures var d, r := Denote(g, input, Unbind(k), p), Denote(g, input, g(k), p);
      SameVerdict(d, r) && (d.Done? ==> d.val == [])
  {
    DenoteStep(g, input, Bind(k), p);
    DenoteStep(g, input, Unbind(k), p);
  }

  lemma MemoizeLaw(g: Rules, input: string, id: nat, f: Comb, p: nat)
    requires p <= |input|
    ensures var d, r := Denote(g, input, Memoize(id, f), p), Denote(g, input, f, p);
      SameVerdict(d, r) && (d.Done? ==> d.val == [])
    ensures Denote(g, input, MemoizeBind(id, f), p) == Denote(g, input, f, p)
  {
    DenoteStep(g, input, Memoize(id, f), p);
    DenoteStep(g, input, MemoizeBind(id, f), p);
  }

  lemma MemoizeManyLaw(g: Rules, input: string, id: nat, f: Comb, p: nat)
    requires p <= |input|
    ensures var d, r := Denote(g, input, MemoizeMany(id, f), p), Denote(g, input, Many(f), p);
      SameVerdict(d, r) && (d.Done? ==> d.val == [])
  {
    DenoteStep(g, input, MemoizeMany(id, f), p);
    DenoteStep(g, input, Many(f), p);
  }

  lemma MemoizeSomeLaw(g: Rules, input: string, id: nat, f: Comb, p: nat)
    requires p <= |input|
    ensures var d, r := Denote(g, input, MemoizeSome(id, f), p), Denote(g, input, Some(f), p);
      SameVerdict(d, r) && (d.Done? ==> d.val == [])
  {
    DenoteStep(g, input, MemoizeSome(id, f), p);
    DenoteStep(g, input, Some(f), p);
  }

  /** `capture` binds exactly the text that its part has gone over. */
  lemma CaptureLaw(g: Rules, input: string, f: Comb, p: nat)
    requires p <= |input|
    ensures var d, r := Denote(g, input, Capture(f), p), Denote(g, input, f, p);
      SameVerdict(d, r) && (d.Done? ==> d.val == if d.ok then [Text(input[p..d.end])] else [])
  {
    DenoteStep(g, input, Capture(f), p);
  }

  /** The errors of a run at `p` with the name of what was to be there. */
  function WithName(p: nat, name: string, r: Outcome): Error
    requires r.Done?
  {
    if r.ok || r.err.pos > p then r.err
    else if r.err.pos == p then Error(p, r.err.expected + {name}, r.err.messages)
    else Error(p, {name}, {})
  }

  /** `named` adds its name exactly on failure, unless something has failed further on. */
  lemma NamedLaw(g: Rules, input: string, name: string, f: Comb, p: nat)
    requires p <= |input|
    ensures var d, r := Denote(g, input, Named(name, f), p), Denote(g, input, f, p);
      (d.Done? <==> r.Done?) && (d.Done? ==> d.ok == r.ok && d.end == r.end && d.val == r.val) &&
      (d.Done? ==> d.err == WithName(p, name, r))
  {
    DenoteStep(g, input, Named(name, f), p);
  }

  // The combinators that run several.

  ghost predicate Ok(g: Rules, input: string, c: Comb, p: nat, end: nat) {
    p <= |input| && Denote(g, input, c, p).Done? && Denote(g, input, c, p).ok && Denote(g, input, c, p).end == end
  }

  ghost predicate Ko(g: Rules, input: string, c: Comb, p: nat) {
    p <= |input| && Denote(g, input, c, p).Done? && !Denote(g, input, c, p).ok
  }

  ghost function ValueOf(g: Rules, input: string, c: Comb, p: nat): seq<Tree>
    requires p <= |input| && Denote(g, input, c, p).Done?
  {
    Denote(g, input, c, p).val
  }

  /** The parsers match one behind the other, from `ends[0]` to the last of the ends. */
  ghost predicate Chain(g: Rules, input: string, fs: seq<Comb>, ends: seq<nat>) {
    |ends| == |fs| + 1 && ends[0] <= |input| && forall i :: 0 <= i < |fs| ==> Ok(g, input, fs[i], ends[i], ends[i + 1])
  }

  /** All their values in order. */
  ghost function Values(g: Rules, input: string, fs: seq<Comb>, ends: seq<nat>): seq<Tree>
    requires Chain(g, input, fs, ends)
  {
    if fs == [] then []
    else
      assert Ok(g, input, fs[0], ends[0], ends[0 + 1]);
      ChainRest(g, input, fs, ends);
      ValueOf(g, input, fs[0], ends[0]) + Values(g, input, fs[1..], ends[1..])
  }

  lemma ChainRest(g: Rules, input: string, fs: seq<Comb>, ends: seq<nat>)
    requires Chain(g, input, fs, ends) && fs != []
    ensures Ok(g, input, fs[0], ends[0], ends[1]) && ends[1] <= |input| && Chain(g, input, fs[1..], ends[1..])
  {
    assert Ok(g, input, fs[0], ends[0], ends[0 + 1]);
    forall i | 0 <= i < |fs| - 1 ensures Ok(g, input, fs[1..][i], ends[1..][i], ends[1..][i + 1]) {
      assert Ok(g, input, fs[i + 1], ends[i + 1], ends[i + 1 + 1]);
    }
  }

  /** A sequence of parsers that match one behind the other matches, with their values in order. */
  lemma SequenceOk(g: Rules, input: string, fs: seq<Comb>, ends: seq<nat>)
    requires Chain(g, input, fs, ends)
    ensures Ok(g, input, Sequence(fs), ends[0], ends[|fs|])
    ensures ValueOf(g, input, Sequence(fs), ends[0]) == Values(g, input, fs, ends)
  {
    DenoteStep(g, input, Sequence(fs), ends[0]);
    ChainOk(g, input, fs, ends);
  }

  lemma {:induction false} ChainOk(g: Rules, input: string, fs: seq<Comb>, ends: seq<nat>)
    requires Chain(g, input, fs, ends)
    ensures var d := DenoteSequence(g, input, fs, ends[0]);
      d.Done? && d.ok && d.end == ends[|fs|] && d.val == Values(g, input, fs, ends)
  {
    if fs == [] {
    } else {
      ChainRest(g, input, fs, ends);
      ChainOk(g, input, fs[1..], ends[1..]);
    }
  }

  /** A sequence fails with its first part that fails, and is back where it started, with no value. */
  lemma SequenceKo(g: Rules, input: string, fs: seq<Comb>, k: nat, ends: seq<nat>)
    requires k < |fs| && Chain(g, input, fs[..k], ends) && Ko(g, input, fs[k], ends[k])
    ensures Ko(g, input, Sequence(fs), ends[0])
    ensures var d := Denote(g, input, Sequence(fs), ends[0]); d.end == ends[0] && d.val == []
  {
    DenoteStep(g, input, Sequence(fs), ends[0]);
    ChainKo(g, input, fs, k, ends);
  }

  lemma {:induction false} ChainKo(g: Rules, input: string, fs: seq<Comb>, k: nat, ends: seq<nat>)
    requires k < |fs| && Chain(g, input, fs[..k], ends) && Ko(g, input, fs[k], ends[k])
    ensures var d := DenoteSequence(g, input, fs, ends[0]); d.Done? && !d.ok
  {
    if k == 0 {
    } else {
      ChainRest(g, input, fs[..k], ends);
      assert fs[..k][1..] == fs[1..][..k - 1];
      ChainKo(g, input, fs[1..], k - 1, ends[1..]);
    }
  }

  /** The first alternative that matches decides; if none does, the choice fails. */
  lemma ChoiceOk(g: Rules, input: string, fs: seq<Comb>, k: nat, p: nat, end: nat)
    requires k < |fs| && Ok(g, input, fs[k], p, end) && forall i :: 0 <= i < k ==> Ko(g, input, fs[i], p)
    ensures Ok(g, input, Choice(fs), p, end) && ValueOf(g, input, Choice(fs), p) == ValueOf(g, input, fs[k], p)
  {
    DenoteStep(g, input, Choice(fs), p);
    FirstOk(g, input, fs, k, p, end);
  }

  lemma {:induction false} FirstOk(g: Rules, input: string, fs: seq<Comb>, k: nat, p: nat, end: nat)
    requires k < |fs| && Ok(g, input, fs[k], p, end) && forall i :: 0 <= i < k ==> Ko(g, input, fs[i], p)
    ensures var d := DenoteChoice(g, input, fs, p);
      d.Done? && d.ok && d.end == end && d.val == ValueOf(g, input, fs[k], p)
  {
    if k == 0 {
    } else {
      assert Ko(g, input, fs[0], p);
      forall i | 0 <= i < k - 1 ensures Ko(g, input, fs[1..][i], p) {
        assert Ko(g, input, fs[i + 1], p);
      }
      FirstOk(g, input, fs[1..], k - 1, p, end);
    }
  }

  lemma ChoiceKo(g: Rules, input: string, fs: seq<Comb>, p: nat)
    requires p <= |input| && forall i :: 0 <= i < |fs| ==> Ko(g, input, fs[i], p)
    ensures Ko(g, input, Choice(fs), p)
  {
    DenoteStep(g, input, Choice(fs), p);
    NoneOk(g, input, fs, p);
  }

  lemma {:induction false} NoneOk(g: Rules, input: string, fs: seq<Comb>, p: nat)
    requires p <= |input| && forall i :: 0 <= i < |fs| ==> Ko(g, input, fs[i], p)
    ensures var d := DenoteChoice(g, input, fs, p); d.Done? && !d.ok
  {
    if fs == [] {
    } else {
      assert Ko(g, input, fs[0], p);
      forall i | 0 <= i < |fs| - 1 ensures Ko(g, input, fs[1..][i], p) {
        assert Ko(g, input, fs[i + 1], p);
      }
      NoneOk(g, input, fs[1..], p);
    }
  }

  /** As many runs of one parser as it takes to get through the ends. */
  function Repeat(f: Comb, n: nat): (fs: seq<Comb>)
    ensures |fs| == n && forall i :: 0 <= i < n ==> fs[i] == f
  {
    seq(n, i => f)
  }

  /** `many` is as many matches as there are in a row, with their values in order, whatever their number. */
  lemma ManyOk(g: Rules, input: string, f: Comb, ends: seq<nat>)
    requires ends != [] && Chain(g, input, Repeat(f, |ends| - 1), ends) && Ko(g, input, f, ends[|ends| - 1])
    ensures Ok(g, input, Many(f), ends[0], ends[|ends| - 1])
    ensures ValueOf(g, input, Many(f), ends[0]) == Values(g, input, Repeat(f, |ends| - 1), ends)
  {
    DenoteStep(g, input, Many(f), ends[0]);
    RoundsOk(g, input, f, ends);
  }

  lemma {:induction false} RoundsOk(g: Rules, input: string, f: Comb, ends: seq<nat>)
    requires ends != [] && Chain(g, input, Repeat(f, |ends| - 1), ends) && Ko(g, input, f, ends[|ends| - 1])
    ensures var d := DenoteMany(g, input, f, ends[0]);
      d.Done? && d.end == ends[|ends| - 1] && d.val == Values(g, input, Repeat(f, |ends| - 1), ends)
  {
    var fs := Repeat(f, |ends| - 1);
    DenoteManyStep(g, input, f, ends[0]);
    if |ends| == 1 {
    } else {
      ChainRest(g, input, fs, ends);
      assert fs[1..] == Repeat(f, |ends| - 2);
      RoundsOk(g, input, f, ends[1..]);
    }
  }

  /** `some` is `many` that has matched once at least. */
  lemma SomeOk(g: Rules, input: string, f: Comb, ends: seq<nat>)
    requires |ends| > 1 && Chain(g, input, Repeat(f, |ends| - 1), ends) && Ko(g, input, f, ends[|ends| - 1])
    ensures Ok(g, input, Some(f), ends[0], ends[|ends| - 1])
    ensures ValueOf(g, input, Some(f), ends[0]) == Values(g, input, Repeat(f, |ends| - 1), ends)
  {
    var fs := Repeat(f, |ends| - 1);
    DenoteStep(g, input, Some(f), ends[0]);
    ChainRest(g, input, fs, ends);
    assert fs[1..] == Repeat(f, |ends| - 2);
    RoundsOk(g, input, f, ends[1..]);
  }

  lemma SomeKo(g: Rules, input: string, f: Comb, p: nat)
    requires Ko(g, input, f, p)
    ensures Ko(g, input, Some(f), p)
  {
    DenoteStep(g, input, Some(f), p);
  }

  /** There is no other way for a repetition to end: it has gone through some rounds up to one that fails. */
  lemma ManyEndsSo(g: Rules, input: string, f: Comb, p: nat) returns (ends: seq<nat>)
    requires p <= |input| && Denote(g, input, Many(f), p).Done?
    ensures ends != [] && ends[0] == p
    ensures Chain(g, input, Repeat(f, |ends| - 1), ends) && Ko(g, input, f, ends[|ends| - 1])
  {
    DenoteStep(g, input, Many(f), p);
    var n: nat :| EvalMany(g, input, f, p, n).Done?;
    ends := RoundsOf(g, input, f, p, n);
  }

  lemma {:induction false} RoundsOf(g: Rules, input: string, f: Comb, p: nat, n: nat) returns (ends: seq<nat>)
    requires p <= |input| && EvalMany(g, input, f, p, n).Done?
    ensures ends != [] && ends[0] == p
    ensures Chain(g, input, Repeat(f, |ends| - 1), ends) && Ko(g, input, f, ends[|ends| - 1])
    decreases n
  {
    DenoteOf(g, input, f, p, n - 1);
    var r := Eval(g, input, f, p, n - 1);
    if r.ok {
      var rest := RoundsOf(g, input, f, r.end, n - 1);
      ends := [p] + rest;
      forall i | 0 <= i < |rest| ensures Ok(g, input, Repeat(f, |rest|)[i], ends[i], ends[i + 1]) {
        if i > 0 { assert Ok(g, input, Repeat(f, |rest| - 1)[i - 1], rest[i - 1], rest[i - 1 + 1]); }
      }
    } else {
      ends := [p];
    }
  }

  // The same with ends and values given.

  /** The parser matches from `p` to `end` and binds these values. */
  ghost predicate Gives(g: Rules, input: string, c: Comb, p: nat, end: nat, val: seq<Tree>) {
    Ok(g, input, c, p, end) && ValueOf(g, input, c, p) == val
  }

  /** The values of the parts in one row. */
  function Row(vals: seq<seq<Tree>>): seq<Tree> {
    if vals == [] then [] else vals[0] + Row(vals[1..])
  }

  lemma {:induction false} ValuesRow(
      g: Rules, input: string, fs: seq<Comb>, ends: seq<nat>, vals: seq<seq<Tree>>)
    requires |vals| == |fs| && |ends| == |fs| + 1 && ends[0] <= |input|
    requires forall i :: 0 <= i < |fs| ==> Gives(g, input, fs[i], ends[i], ends[i + 1], vals[i])
    ensures Chain(g, input, fs, ends) && Values(g, input, fs, ends) == Row(vals)
  {
    assert Chain(g, input, fs, ends);
    if fs == [] {
    } else {
      assert Gives(g, input, fs[0], ends[0], ends[0 + 1], vals[0]);
      forall i | 0 <= i < |fs| - 1
        ensures Gives(g, input, fs[1..][i], ends[1..][i], ends[1..][i + 1], vals[1..][i])
      {
        assert Gives(g, input, fs[i + 1], ends[i + 1], ends[i + 1 + 1], vals[i + 1]);
      }
      ValuesRow(g, input, fs[1..], ends[1..], vals[1..]);
    }
  }

  lemma SequenceGives(g: Rules, input: string, fs: seq<Comb>, ends: seq<nat>, vals: seq<seq<Tree>>)
    requires |vals| == |fs| && |ends| == |fs| + 1 && ends[0] <= |input|
    requires forall i :: 0 <= i < |fs| ==> Gives(g, input, fs[i], ends[i], ends[i + 1], vals[i])
    ensures Gives(g, input, Sequence(fs), ends[0], ends[|fs|], Row(vals))
  {
    ValuesRow(g, input, fs, ends, vals);
    SequenceOk(g, input, fs, ends);
  }

  lemma ManyGives(g: Rules, input: string, f: Comb, ends: seq<nat>, vals: seq<seq<Tree>>)
    requires |ends| == |vals| + 1 && Ko(g, input, f, ends[|vals|]) && ends[0] <= |input|
    requires forall i :: 0 <= i < |vals| ==> Gives(g, input, f, ends[i], ends[i + 1], vals[i])
    ensures Gives(g, input, Many(f), ends[0], ends[|vals|], Row(vals))
    ensures vals != [] ==> Gives(g, input, Some(f), ends[0], ends[|vals|], Row(vals))
  {
    var fs := Repeat(f, |vals|);
    ValuesRow(g, input, fs, ends, vals);
    ManyOk(g, input, f, ends);
    if vals != [] { SomeOk(g, input, f, ends); }
  }

  /** The parsers match one behind the other, with these ends and values. */
  ghost predicate GivesAll(g: Rules, input: string, fs: seq<Comb>, ends: seq<nat>, vals: seq<seq<Tree>>) {
    |vals| == |fs| && |ends| == |fs| + 1 && ends[0] <= |input| &&
    forall i :: 0 <= i < |fs| ==> Gives(g, input, fs[i], ends[i], ends[i + 1], vals[i])
  }

  lemma GivesAllJoin(g: Rules, input: string, fs: seq<Comb>, ends: seq<nat>, vals: seq<seq<Tree>>,
                     gs: seq<Comb>, more: seq<nat>, after: seq<seq<Tree>>)
    requires GivesAll(g, input, fs, ends, vals) && GivesAll(g, input, gs, more, after) && ends[|fs|] == more[0]
    ensures GivesAll(g, input, fs + gs, ends + more[1..], vals + after)
  {
    var all := ends + more[1..];
    forall i | 0 <= i < |fs + gs| ensures Gives(g, input, (fs + gs)[i], all[i], all[i + 1], (vals + after)[i]) {
      if i < |fs| {
        assert Gives(g, input, fs[i], ends[i], ends[i + 1], vals[i]);
      } else {
        var k := i - |fs|;
        assert Gives(g, input, gs[k], more[k], more[k + 1], after[k]);
      }
    }
  }

  lemma {:induction false} RowJoin(a: seq<seq<Tree>>, b: seq<seq<Tree>>)
    ensures Row(a + b) == Row(a) + Row(b)
  {
    if a == [] {
      assert a + b == b;
    } else {
      assert (a + b)[1..] == a[1..] + b;
      RowJoin(a[1..], b);
    }
  }

  lemma RowOne(v: seq<Tree>)
    ensures Row([v]) == v
  {
    assert [v][1..] == [];
  }

  /** A sequence is its first parser and then the sequence of the others. */
  lemma SequenceCons(g: Rules, input: string, f: Comb, fs: seq<Comb>, p: nat)
    requires p <= |input| && Denote(g, input, f, p).Done? && Denote(g, input, f, p).ok
    ensures var r := Denote(g, input, f, p); var d, e := Denote(g, input, Sequence([f] + fs), p),
      Denote(g, input, Sequence(fs), r.end);
      e.Done? && e.ok ==> d.Done? && d.ok && d.end == e.end && d.val == r.val + e.val
  {
    var r := Denote(g, input, f, p);
    DenoteStep(g, input, Sequence([f] + fs), p);
    DenoteStep(g, input, Sequence(fs), r.end);
    assert ([f] + fs)[1..] == fs;
  }

  lemma SequenceConsKo(g: Rules, input: string, f: Comb, fs: seq<Comb>, p: nat)
    requires p <= |input| && Denote(g, input, f, p).Done?
    ensures var r := Denote(g, input, f, p);
      !r.ok || Ko(g, input, Sequence(fs), r.end) ==> Ko(g, input, Sequence([f] + fs), p)
  {
    var r := Denote(g, input, f, p);
    DenoteStep(g, input, Sequence([f] + fs), p);
    DenoteStep(g, input, Sequence(fs), r.end);
    assert ([f] + fs)[1..] == fs;
  }
}
