/** The parser combinators as data, and what they mean without any memoization. */
module Grammar {
  import opened ParseErrors

  /** A value bound while parsing: captured text, or what a rule of the grammar bound. */
  datatype Tree = Text(text: string) | Node(rule: nat, children: seq<Tree>)

  datatype Comb =
    | Literal(c: char)
    | LiteralString(s: string)
    | Any
    | Between(lo: char, hi: char)
    | Sequence(fs: seq<Comb>)
    | Choice(fs: seq<Comb>)
    | Many(f: Comb)
    | Some(f: Comb)
    | Option(f: Comb)
    | Look(f: Comb)
    | LookNot(f: Comb)
    | Bind(rule: nat)               // binds the value of a rule
    | Unbind(rule: nat)             // runs a rule, throws its value away
    | Memoize(id: nat, f: Comb)     // memoizes without a value
    | MemoizeBind(id: nat, f: Comb) // memoizes together with the bound value
    | MemoizeMany(id: nat, f: Comb)
    | MemoizeSome(id: nat, f: Comb)
    | Capture(f: Comb)
    | Empty
    | Fail(msg: string)
    | Named(name: string, f: Comb)

  /** The rules of a grammar; the rules call each other by number. */
  type Rules = nat -> Comb

  /** `end` is where the cursor is left, `err` the error information added on the way. */
  datatype Outcome = OutOfFuel | Done(ok: bool, end: nat, err: Error, val: seq<Tree>) {
    function WithoutValue(): Outcome {
      if Done? then Done(ok, end, err, []) else this
    }

    /** This outcome followed by another one that started where it ended. */
    function Then(next: Outcome): Outcome {
      if Done? && next.Done? then Done(next.ok, next.end, Merge(err, next.err), val + next.val)
      else OutOfFuel
    }
  }

  /** The character at a position, `'\0'` at the end of the input. */
  function CharAt(input: string, p: nat): char {
    if p < |input| then input[p] else '\0'
  }

  /** One step of the cursor; it does not pass the end of the input. */
  function Next(input: string, p: nat): nat {
    if p < |input| then p + 1 else p
  }

  /** Up to `n` characters from `p` on. */
  function Substring(input: string, p: nat, n: nat): string
    requires p <= |input|
  {
    if p + n <= |input| then input[p..p + n] else input[p..]
  }

  function FailAt(p: nat): Outcome {
    Done(false, p, Error(p, {}, {}), [])
  }

  function MatchChar(input: string, p: nat, ok: bool): Outcome {
    if ok then Done(true, Next(input, p), NO_ERROR, []) else FailAt(p)
  }

  /** The combinators that run no other parser. */
  predicate IsLeaf(c: Comb) {
    c.Literal? || c.LiteralString? || c.Any? || c.Between? || c.Empty? || c.Fail?
  }

  function Leaf(input: string, c: Comb, p: nat): (r: Outcome)
    requires p <= |input| && IsLeaf(c)
    ensures r.Done? && p <= r.end <= |input| && (!r.ok ==> r.end == p && r.val == [])
  {
    match c
    case Literal(ch) => MatchChar(input, p, CharAt(input, p) == ch)
    case LiteralString(s) =>
      if Substring(input, p, |s|) == s then Done(true, p + |s|, NO_ERROR, []) else FailAt(p)
    case Any => MatchChar(input, p, CharAt(input, p) != '\0')
    case Between(lo, hi) => MatchChar(input, p, lo <= CharAt(input, p) <= hi)
    case Empty => Done(true, p, NO_ERROR, [])
    case Fail(msg) => Done(false, p, Error(p, {}, {msg}), [])
  }

  /** The combinators that run one other parser once. */
  predicate IsWrapper(c: Comb) {
    c.Option? || c.Look? || c.LookNot? || c.Bind? || c.Unbind? || c.Memoize? || c.MemoizeBind? ||
    c.Capture? || c.Named?
  }

  /** The parser a wrapper runs. */
  function Inner(g: Rules, c: Comb): Comb
    requires IsWrapper(c)
  {
    match c
    case Bind(k) => g(k)
    case Unbind(k) => g(k)
    case _ => c.f
  }

  /** What a wrapper at `p` makes of the outcome of the parser it runs. */
  function Wrap(input: string, c: Comb, p: nat, r: Outcome): (r': Outcome)
    requires p <= |input| && IsWrapper(c)
    requires r.Done? ==> p <= r.end <= |input| && (!r.ok ==> r.end == p && r.val == [])
    ensures r'.Done? <==> r.Done?
    ensures r'.Done? ==> p <= r'.end <= |input| && (!r'.ok ==> r'.end == p && r'.val == [])
  {
    if r.OutOfFuel? then r else
    match c
    case Option(_) => r.(ok := true)
    case Look(_) => if r.ok then r.(end := p) else r
    case LookNot(_) => if r.ok then Done(false, p, r.err, []) else r.(ok := true)
    case Bind(k) => if r.ok then r.(val := [Node(k, r.val)]) else r
    case Unbind(_) => r.(val := [])
    case Memoize(_, _) => r.(val := [])
    case MemoizeBind(_, _) => r
    case Capture(_) => if r.ok then r.(val := [Text(input[p..r.end])]) else r
    case Named(name, _) => if r.ok then r else r.(err := Merge(r.err, Error(r.end, {name}, {})))
  }

  /** The plain meaning of a combinator at a position, with a bound `n` on the depth of the
      evaluation: memoizing combinators just run what they memoize. The cursor is threaded the
      way the closures thread it: only `sequence`, `look` and `look_not` ever move it back. */
  function Eval(g: Rules, input: string, c: Comb, p: nat, n: nat): (r: Outcome)
    requires p <= |input|
    ensures r.Done? ==> p <= r.end <= |input| && (!r.ok ==> r.end == p && r.val == [])
    decreases n, 0
  {
    if n == 0 then OutOfFuel
    else if IsLeaf(c) then Leaf(input, c, p)
    else if IsWrapper(c) then Wrap(input, c, p, Eval(g, input, Inner(g, c), p, n - 1))
    else
      match c
      case Sequence(fs) => Restore(p, EvalSequence(g, input, fs, p, n - 1))
      case Choice(fs) => EvalChoice(g, input, fs, p, n - 1)
      case Many(f) => EvalMany(g, input, f, p, n - 1)
      case Some(f) => EvalSome(g, input, f, p, n - 1)
      case MemoizeMany(_, f) => EvalMany(g, input, f, p, n - 1).WithoutValue()
      case MemoizeSome(_, f) => EvalSome(g, input, f, p, n - 1).WithoutValue()
  }

  /** A failed sequence puts the cursor back to where it started. */
  function Restore(p: nat, r: Outcome): Outcome {
    if r.Done? && !r.ok then Done(false, p, r.err, []) else r
  }

  /** Runs the parsers one after the other; a failure leaves the cursor where it happened. */
  function EvalSequence(g: Rules, input: string, fs: seq<Comb>, p: nat, n: nat): (r: Outcome)
    requires p <= |input|
    ensures r.Done? ==> p <= r.end <= |input|
    decreases n, 1 + |fs|
  {
    if fs == [] then Done(true, p, NO_ERROR, []) else
    var r := Eval(g, input, fs[0], p, n);
    if r.Done? && r.ok then r.Then(EvalSequence(g, input, fs[1..], r.end, n)) else r
  }

  /** Tries the alternatives in order, each from wherever the one before left the cursor. */
  function EvalChoice(g: Rules, input: string, fs: seq<Comb>, p: nat, n: nat): (r: Outcome)
    requires p <= |input|
    ensures r.Done? ==> p <= r.end <= |input| && (!r.ok ==> r.end == p && r.val == [])
    decreases n, 1 + |fs|
  {
    if fs == [] then Done(false, p, NO_ERROR, []) else
    var r := Eval(g, input, fs[0], p, n);
    if r.Done? && !r.ok then r.Then(EvalChoice(g, input, fs[1..], r.end, n)) else r
  }

  /** Matches as often as possible; each round costs one unit of fuel. */
  function EvalMany(g: Rules, input: string, f: Comb, p: nat, n: nat): (r: Outcome)
    requires p <= |input|
    ensures r.Done? ==> r.ok && p <= r.end <= |input|
    decreases n, 1
  {
    if n == 0 then OutOfFuel else
    var r := Eval(g, input, f, p, n - 1);
    if !r.Done? then r
    else if !r.ok then Done(true, r.end, r.err, [])
    else r.Then(EvalMany(g, input, f, r.end, n - 1))
  }

  function EvalSome(g: Rules, input: string, f: Comb, p: nat, n: nat): (r: Outcome)
    requires p <= |input|
    ensures r.Done? ==> p <= r.end <= |input| && (!r.ok ==> r.end == p && r.val == [])
    decreases n, 2
  {
    var r := Eval(g, input, f, p, n);
    if r.Done? && r.ok then r.Then(EvalMany(g, input, f, r.end, n)) else r
  }

  lemma ThenAssociative(a: Outcome, b: Outcome, c: Outcome)
    ensures a.Then(b.Then(c)) == a.Then(b).Then(c)
  {
    if a.Done? && b.Done? && c.Done? {
      MergeAssociative(a.err, b.err, c.err);
      assert a.val + (b.val + c.val) == (a.val + b.val) + c.val;
    }
  }

  /** A start that adds nothing. */
  lemma ThenUnit(ok: bool, p: nat, r: Outcome)
    ensures r == Done(ok, p, NO_ERROR, []).Then(r)
  {
    if r.Done? {
      MergeIsJoin(r.err, r.err);
      assert [] + r.val == r.val;
    }
  }
}
