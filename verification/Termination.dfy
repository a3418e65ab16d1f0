/** When a grammar ends on every input: no rule re-enters itself without consuming a character and
    every repeated parser consumes at least one. */
module Termination {
  import opened ParseErrors
  import opened Grammar
  import opened Meaning

  /** Which rules may match nothing, and in which order rules may enter each other in place. */
  datatype Order = Order(nullable: nat -> bool, rank: nat -> nat, top: nat)

  /** May `c` succeed without consuming anything? */
  predicate Nullable(o: Order, c: Comb) {
    match c
    case Literal(ch) => ch == '\0'
    case LiteralString(s) => s == []
    case Any => false
    case Between(lo, hi) => lo == '\0'
    case Sequence(fs) => forall i :: 0 <= i < |fs| ==> Nullable(o, fs[i])
    case Choice(fs) => exists i :: 0 <= i < |fs| && Nullable(o, fs[i])
    case Some(f) => Nullable(o, f)
    case MemoizeSome(_, f) => false
    case Bind(k) => o.nullable(k)
    case Unbind(k) => o.nullable(k)
    case Memoize(_, f) => Nullable(o, f)
    case MemoizeBind(_, f) => Nullable(o, f)
    case Capture(f) => Nullable(o, f)
    case Named(_, f) => Nullable(o, f)
    case Fail(_) => false
    case _ => true
  }

  /** `c` enters only rules of rank below `r` before it has consumed a character, and repeats only
      parsers that consume. */
  predicate Ordered(o: Order, c: Comb, r: nat)
    decreases c
  {
    match c
    case Sequence(fs) => OrderedSequence(o, fs, r)
    case Choice(fs) => forall i :: 0 <= i < |fs| ==> Ordered(o, fs[i], r)
    case Many(f) => !Nullable(o, f) && Ordered(o, f, r) && Ordered(o, f, o.top)
    case Some(f) => !Nullable(o, f) && Ordered(o, f, r) && Ordered(o, f, o.top)
    case MemoizeMany(_, f) => !Nullable(o, f) && Ordered(o, f, r) && Ordered(o, f, o.top)
    case MemoizeSome(_, f) => !Nullable(o, f) && Ordered(o, f, r) && Ordered(o, f, o.top)
    case Bind(k) => o.rank(k) < r
    case Unbind(k) => o.rank(k) < r
    case Option(f) => Ordered(o, f, r)
    case Look(f) => Ordered(o, f, r)
    case LookNot(f) => Ordered(o, f, r)
    case Memoize(_, f) => Ordered(o, f, r)
    case MemoizeBind(_, f) => Ordered(o, f, r)
    case Capture(f) => Ordered(o, f, r)
    case Named(_, f) => Ordered(o, f, r)
    case _ => true
  }

  predicate NullablePrefix(o: Order, fs: seq<Comb>, i: nat)
    requires i <= |fs|
  {
    forall j :: 0 <= j < i ==> Nullable(o, fs[j])
  }

  /** Once a parser that consumes has run, any rule may be entered again. */
  predicate OrderedSequence(o: Order, fs: seq<Comb>, r: nat)
    decreases fs
  {
    forall i :: 0 <= i < |fs| ==> Ordered(o, fs[i], if NullablePrefix(o, fs, i) then r else o.top)
  }

  ghost predicate WellOrdered(o: Order, g: Rules) {
    forall k :: o.rank(k) < o.top && Ordered(o, g(k), o.rank(k)) && (Nullable(o, g(k)) ==> o.nullable(k))
  }

  /** What is not nullable consumes when it succeeds. */
  lemma {:induction false} Consumes(o: Order, g: Rules, input: string, c: Comb, p: nat, n: nat)
    requires WellOrdered(o, g) && p <= |input| && !Nullable(o, c)
    requires var r := Eval(g, input, c, p, n); r.Done? && r.ok
    ensures Eval(g, input, c, p, n).end > p
    decreases n, 0
  {
    if IsLeaf(c) {
    } else if IsWrapper(c) {
      Consumes(o, g, input, Inner(g, c), p, n - 1);
    } else {
      match c
      case Sequence(fs) => ConsumesSequence(o, g, input, fs, p, n - 1);
      case Choice(fs) => ConsumesChoice(o, g, input, fs, p, n - 1);
      case Some(f) => Consumes(o, g, input, f, p, n - 1);
      case MemoizeSome(_, f) =>
        DenoteOf(g, input, f, p, n - 1);
        var r := Eval(g, input, f, p, n - 1);
        DenoteManyOf(g, input, f, r.end, n - 1);
        if r.end == p { NoProgressDiverges(g, input, f, p); }
    }
  }

  lemma {:induction false} ConsumesSequence(o: Order, g: Rules, input: string, fs: seq<Comb>, p: nat, n: nat)
    requires WellOrdered(o, g) && p <= |input| && exists i :: 0 <= i < |fs| && !Nullable(o, fs[i])
    requires var r := EvalSequence(g, input, fs, p, n); r.Done? && r.ok
    ensures EvalSequence(g, input, fs, p, n).end > p
    decreases n, 1 + |fs|
  {
    if Nullable(o, fs[0]) {
      var i :| 0 <= i < |fs| && !Nullable(o, fs[i]);
      assert fs[1..][i - 1] == fs[i];
      ConsumesSequence(o, g, input, fs[1..], Eval(g, input, fs[0], p, n).end, n);
    } else {
      Consumes(o, g, input, fs[0], p, n);
    }
  }

  lemma {:induction false} ConsumesChoice(o: Order, g: Rules, input: string, fs: seq<Comb>, p: nat, n: nat)
    requires WellOrdered(o, g) && p <= |input| && forall i :: 0 <= i < |fs| ==> !Nullable(o, fs[i])
    requires var r := EvalChoice(g, input, fs, p, n); r.Done? && r.ok
    ensures EvalChoice(g, input, fs, p, n).end > p
    decreases n, 1 + |fs|
  {
    var r := Eval(g, input, fs[0], p, n);
    if r.ok {
      Consumes(o, g, input, fs[0], p, n);
    } else {
      ConsumesChoice(o, g, input, fs[1..], r.end, n);
    }
  }

  lemma MeaningConsumes(o: Order, g: Rules, input: string, c: Comb, p: nat)
    requires WellOrdered(o, g) && p <= |input| && !Nullable(o, c)
    requires var r := Denote(g, input, c, p); r.Done? && r.ok
    ensures Denote(g, input, c, p).end > p
  {
    var n := EnoughFuel(g, input, c, p);
    Consumes(o, g, input, c, p, n);
  }

  /** Every parser of a well-ordered grammar ends, from every position of every input. */
  lemma {:induction false} Ends(o: Order, g: Rules, input: string, c: Comb, p: nat, r: nat)
    requires WellOrdered(o, g) && p <= |input| && Ordered(o, c, r) && r <= o.top
    ensures Denote(g, input, c, p).Done?
    decreases |input| - p, r, c
  {
    DenoteStep(g, input, c, p);
    if IsLeaf(c) {
    } else if c.Bind? || c.Unbind? {
      Ends(o, g, input, g(c.rule), p, o.rank(c.rule));
    } else if IsWrapper(c) {
      Ends(o, g, input, c.f, p, r);
    } else {
      match c
      case Sequence(fs) => EndsSequence(o, g, input, fs, p, r);
      case Choice(fs) => EndsChoice(o, g, input, fs, p, r);
      case Many(f) => Ends(o, g, input, f, p, r); EndsRest(o, g, input, f, p, r);
      case MemoizeMany(_, f) => Ends(o, g, input, f, p, r); EndsRest(o, g, input, f, p, r);
      case Some(f) => Ends(o, g, input, f, p, r); EndsRest(o, g, input, f, p, r);
      case MemoizeSome(_, f) => Ends(o, g, input, f, p, r); EndsRest(o, g, input, f, p, r);
    }
  }

  lemma OrderedTail(o: Order, fs: seq<Comb>, r: nat)
    requires fs != [] && OrderedSequence(o, fs, r)
    ensures Ordered(o, fs[0], r)
    ensures OrderedSequence(o, fs[1..], if Nullable(o, fs[0]) then r else o.top)
  {
    assert NullablePrefix(o, fs, 0);
    var rest := fs[1..];
    forall i | 0 <= i < |rest|
      ensures NullablePrefix(o, fs, i + 1) <==> Nullable(o, fs[0]) && NullablePrefix(o, rest, i)
      ensures rest[i] == fs[i + 1]
    {
      assert forall j :: 0 <= j < i ==> rest[j] == fs[j + 1];
      if NullablePrefix(o, fs, i + 1) {
        forall j | 0 <= j < i ensures Nullable(o, rest[j]) { assert Nullable(o, fs[j + 1]); }
      } else if Nullable(o, fs[0]) {
        var j :| 0 <= j < i + 1 && !Nullable(o, fs[j]);
        assert rest[j - 1] == fs[j];
      }
    }
  }

  lemma {:induction false} EndsSequence(o: Order, g: Rules, input: string, fs: seq<Comb>, p: nat, r: nat)
    requires WellOrdered(o, g) && p <= |input| && OrderedSequence(o, fs, r) && r <= o.top
    ensures DenoteSequence(g, input, fs, p).Done?
    decreases |input| - p, r, fs
  {
    if fs == [] {
    } else {
      OrderedTail(o, fs, r);
      Ends(o, g, input, fs[0], p, r);
      var d := Denote(g, input, fs[0], p);
      if d.ok {
        if !Nullable(o, fs[0]) { MeaningConsumes(o, g, input, fs[0], p); }
        EndsSequence(o, g, input, fs[1..], d.end, if Nullable(o, fs[0]) then r else o.top);
      }
    }
  }

  lemma {:induction false} EndsChoice(o: Order, g: Rules, input: string, fs: seq<Comb>, p: nat, r: nat)
    requires WellOrdered(o, g) && p <= |input| && r <= o.top
    requires forall i :: 0 <= i < |fs| ==> Ordered(o, fs[i], r)
    ensures DenoteChoice(g, input, fs, p).Done?
    decreases |input| - p, r, fs
  {
    if fs == [] {
    } else {
      Ends(o, g, input, fs[0], p, r);
      if !Denote(g, input, fs[0], p).ok { EndsChoice(o, g, input, fs[1..], p, r); }
    }
  }

  /** After a first round that ends, a repetition ends: each round moves the cursor. */
  lemma {:induction false} EndsRest(o: Order, g: Rules, input: string, f: Comb, p: nat, r: nat)
    requires WellOrdered(o, g) && p <= |input| && r <= o.top
    requires !Nullable(o, f) && Ordered(o, f, o.top) && Denote(g, input, f, p).Done?
    ensures DenoteMany(g, input, f, p).Done? && DenoteSome(g, input, f, p).Done?
    decreases |input| - p, r, f
  {
    DenoteManyStep(g, input, f, p);
    var d := Denote(g, input, f, p);
    if d.ok {
      MeaningConsumes(o, g, input, f, p);
      Ends(o, g, input, f, d.end, o.top);
      EndsRest(o, g, input, f, d.end, o.top);
    }
  }
}
