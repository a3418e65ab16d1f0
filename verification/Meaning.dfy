/** The meaning of a combinator with the fuel taken away: the outcome that enough fuel reaches. */
module Meaning {
  import opened ParseErrors
  import opened Grammar

  lemma {:induction false} FuelMonotone(g: Rules, input: string, c: Comb, p: nat, n: nat, m: nat)
    requires p <= |input| && n <= m
    requires Eval(g, input, c, p, n).Done?
    ensures Eval(g, input, c, p, m) == Eval(g, input, c, p, n)
    decreases n, 0
  {
    if IsLeaf(c) {
    } else if IsWrapper(c) {
      FuelMonotone(g, input, Inner(g, c), p, n - 1, m - 1);
    } else {
      match c
      case Sequence(fs) => FuelMonotoneSequence(g, input, fs, p, n - 1, m - 1);
      case Choice(fs) => FuelMonotoneChoice(g, input, fs, p, n - 1, m - 1);
      case Many(f) => FuelMonotoneMany(g, input, f, p, n - 1, m - 1);
      case Some(f) => FuelMonotoneSome(g, input, f, p, n - 1, m - 1);
      case MemoizeMany(_, f) => FuelMonotoneMany(g, input, f, p, n - 1, m - 1);
      case MemoizeSome(_, f) => FuelMonotoneSome(g, input, f, p, n - 1, m - 1);
    }
  }

  lemma {:induction false} FuelMonotoneSequence(g: Rules, input: string, fs: seq<Comb>, p: nat, n: nat, m: nat)
    requires p <= |input| && n <= m
    requires EvalSequence(g, input, fs, p, n).Done?
    ensures EvalSequence(g, input, fs, p, m) == EvalSequence(g, input, fs, p, n)
    decreases n, 1 + |fs|
  {
    if fs == [] {
    } else {
      FuelMonotone(g, input, fs[0], p, n, m);
      var r := Eval(g, input, fs[0], p, n);
      if r.ok { FuelMonotoneSequence(g, input, fs[1..], r.end, n, m); }
    }
  }

  lemma {:induction false} FuelMonotoneChoice(g: Rules, input: string, fs: seq<Comb>, p: nat, n: nat, m: nat)
    requires p <= |input| && n <= m
    requires EvalChoice(g, input, fs, p, n).Done?
    ensures EvalChoice(g, input, fs, p, m) == EvalChoice(g, input, fs, p, n)
    decreases n, 1 + |fs|
  {
    if fs == [] {
    } else {
      FuelMonotone(g, input, fs[0], p, n, m);
      var r := Eval(g, input, fs[0], p, n);
      if !r.ok { FuelMonotoneChoice(g, input, fs[1..], r.end, n, m); }
    }
  }

  lemma {:induction false} FuelMonotoneMany(g: Rules, input: string, f: Comb, p: nat, n: nat, m: nat)
    requires p <= |input| && n <= m
    requires EvalMany(g, input, f, p, n).Done?
    ensures EvalMany(g, input, f, p, m) == EvalMany(g, input, f, p, n)
    decreases n, 1
  {
    FuelMonotone(g, input, f, p, n - 1, m - 1);
    var r := Eval(g, input, f, p, n - 1);
    if r.ok { FuelMonotoneMany(g, input, f, r.end, n - 1, m - 1); }
  }

  lemma {:induction false} FuelMonotoneSome(g: Rules, input: string, f: Comb, p: nat, n: nat, m: nat)
    requires p <= |input| && n <= m
    requires EvalSome(g, input, f, p, n).Done?
    ensures EvalSome(g, input, f, p, m) == EvalSome(g, input, f, p, n)
    decreases n, 2
  {
    FuelMonotone(g, input, f, p, n, m);
    var r := Eval(g, input, f, p, n);
    if r.ok { FuelMonotoneMany(g, input, f, r.end, n, m); }
  }

  /** The outcome some amount of fuel reaches; `OutOfFuel` when the parse does not end. */
  ghost function Denote(g: Rules, input: string, c: Comb, p: nat): (r: Outcome)
    requires p <= |input|
    ensures r.Done? ==> p <= r.end <= |input| && (!r.ok ==> r.end == p && r.val == [])
  {
    if exists n: nat :: Eval(g, input, c, p, n).Done? then
      var n: nat :| Eval(g, input, c, p, n).Done?;
      Eval(g, input, c, p, n)
    else OutOfFuel
  }

  ghost function DenoteMany(g: Rules, input: string, f: Comb, p: nat): (r: Outcome)
    requires p <= |input|
    ensures r.Done? ==> r.ok && p <= r.end <= |input|
  {
    if exists n: nat :: EvalMany(g, input, f, p, n).Done? then
      var n: nat :| EvalMany(g, input, f, p, n).Done?;
      EvalMany(g, input, f, p, n)
    else OutOfFuel
  }

  lemma DenoteOf(g: Rules, input: string, c: Comb, p: nat, n: nat)
    requires p <= |input| && Eval(g, input, c, p, n).Done?
    ensures Denote(g, input, c, p) == Eval(g, input, c, p, n)
  {
    var k: nat :| Eval(g, input, c, p, k).Done? && Denote(g, input, c, p) == Eval(g, input, c, p, k);
    if n <= k { FuelMonotone(g, input, c, p, n, k); } else { FuelMonotone(g, input, c, p, k, n); }
  }

  lemma DenoteManyOf(g: Rules, input: string, f: Comb, p: nat, n: nat)
    requires p <= |input| && EvalMany(g, input, f, p, n).Done?
    ensures DenoteMany(g, input, f, p) == EvalMany(g, input, f, p, n)
  {
    var k: nat :| EvalMany(g, input, f, p, k).Done? && DenoteMany(g, input, f, p) == EvalMany(g, input, f, p, k);
    if n <= k { FuelMonotoneMany(g, input, f, p, n, k); } else { FuelMonotoneMany(g, input, f, p, k, n); }
  }

  ghost function DenoteSequence(g: Rules, input: string, fs: seq<Comb>, p: nat): (r: Outcome)
    requires p <= |input|
    ensures r.Done? ==> p <= r.end <= |input|
  {
    if fs == [] then Done(true, p, NO_ERROR, []) else
    var r := Denote(g, input, fs[0], p);
    if r.Done? && r.ok then r.Then(DenoteSequence(g, input, fs[1..], r.end)) else r
  }

  ghost function DenoteChoice(g: Rules, input: string, fs: seq<Comb>, p: nat): (r: Outcome)
    requires p <= |input|
    ensures r.Done? ==> p <= r.end <= |input| && (!r.ok ==> r.end == p && r.val == [])
  {
    if fs == [] then Done(false, p, NO_ERROR, []) else
    var r := Denote(g, input, fs[0], p);
    if r.Done? && !r.ok then r.Then(DenoteChoice(g, input, fs[1..], r.end)) else r
  }

  ghost function DenoteSome(g: Rules, input: string, f: Comb, p: nat): (r: Outcome)
    requires p <= |input|
    ensures r.Done? ==> p <= r.end <= |input| && (!r.ok ==> r.end == p && r.val == [])
  {
    var r := Denote(g, input, f, p);
    if r.Done? && r.ok then r.Then(DenoteMany(g, input, f, r.end)) else r
  }

  /** One round of a repetition, the rest of it started where the round ended. */
  ghost function ManyStep(g: Rules, input: string, f: Comb, p: nat): Outcome
    requires p <= |input|
  {
    var r := Denote(g, input, f, p);
    if !r.Done? then r
    else if !r.ok then Done(true, r.end, r.err, [])
    else r.Then(DenoteMany(g, input, f, r.end))
  }

  /** The meaning of a combinator in terms of the meanings of its parts. */
  ghost function Step(g: Rules, input: string, c: Comb, p: nat): Outcome
    requires p <= |input|
  {
    if IsLeaf(c) then Leaf(input, c, p)
    else if IsWrapper(c) then Wrap(input, c, p, Denote(g, input, Inner(g, c), p))
    else
      match c
      case Sequence(fs) => Restore(p, DenoteSequence(g, input, fs, p))
      case Choice(fs) => DenoteChoice(g, input, fs, p)
      case Many(f) => DenoteMany(g, input, f, p)
      case Some(f) => DenoteSome(g, input, f, p)
      case MemoizeMany(_, f) => DenoteMany(g, input, f, p).WithoutValue()
      case MemoizeSome(_, f) => DenoteSome(g, input, f, p).WithoutValue()
  }

  lemma {:induction false} DenoteSequenceOf(g: Rules, input: string, fs: seq<Comb>, p: nat, n: nat)
    requires p <= |input| && EvalSequence(g, input, fs, p, n).Done?
    ensures DenoteSequence(g, input, fs, p) == EvalSequence(g, input, fs, p, n)
  {
    if fs == [] {
    } else {
      DenoteOf(g, input, fs[0], p, n);
      var r := Eval(g, input, fs[0], p, n);
      if r.ok { DenoteSequenceOf(g, input, fs[1..], r.end, n); }
    }
  }

  lemma {:induction false} DenoteChoiceOf(g: Rules, input: string, fs: seq<Comb>, p: nat, n: nat)
    requires p <= |input| && EvalChoice(g, input, fs, p, n).Done?
    ensures DenoteChoice(g, input, fs, p) == EvalChoice(g, input, fs, p, n)
  {
    if fs == [] {
    } else {
      DenoteOf(g, input, fs[0], p, n);
      var r := Eval(g, input, fs[0], p, n);
      if !r.ok { DenoteChoiceOf(g, input, fs[1..], r.end, n); }
    }
  }

  /** Fuel that suffices for one parser, and any larger amount. */
  lemma EnoughFuel(g: Rules, input: string, c: Comb, p: nat) returns (n: nat)
    requires p <= |input| && Denote(g, input, c, p).Done?
    ensures forall m: nat :: m >= n ==> Eval(g, input, c, p, m) == Denote(g, input, c, p)
  {
    n :| Eval(g, input, c, p, n).Done?;
    DenoteOf(g, input, c, p, n);
    forall m: nat | m >= n ensures Eval(g, input, c, p, m) == Denote(g, input, c, p) {
      FuelMonotone(g, input, c, p, n, m);
    }
  }

  lemma EnoughFuelMany(g: Rules, input: string, f: Comb, p: nat) returns (n: nat)
    requires p <= |input| && DenoteMany(g, input, f, p).Done?
    ensures forall m: nat :: m >= n ==> EvalMany(g, input, f, p, m) == DenoteMany(g, input, f, p)
  {
    n :| EvalMany(g, input, f, p, n).Done?;
    DenoteManyOf(g, input, f, p, n);
    forall m: nat | m >= n ensures EvalMany(g, input, f, p, m) == DenoteMany(g, input, f, p) {
      FuelMonotoneMany(g, input, f, p, n, m);
    }
  }

  lemma {:induction false} EnoughFuelSequence(g: Rules, input: string, fs: seq<Comb>, p: nat) returns (n: nat)
    requires p <= |input| && DenoteSequence(g, input, fs, p).Done?
    ensures forall m: nat :: m >= n ==> EvalSequence(g, input, fs, p, m) == DenoteSequence(g, input, fs, p)
  {
    if fs == [] {
      n := 0;
    } else {
      n := EnoughFuel(g, input, fs[0], p);
      var r := Denote(g, input, fs[0], p);
      if r.ok {
        var k := EnoughFuelSequence(g, input, fs[1..], r.end);
        n := n + k;
      }
    }
  }

  lemma {:induction false} EnoughFuelChoice(g: Rules, input: string, fs: seq<Comb>, p: nat) returns (n: nat)
    requires p <= |input| && DenoteChoice(g, input, fs, p).Done?
    ensures forall m: nat :: m >= n ==> EvalChoice(g, input, fs, p, m) == DenoteChoice(g, input, fs, p)
  {
    if fs == [] {
      n := 0;
    } else {
      n := EnoughFuel(g, input, fs[0], p);
      var r := Denote(g, input, fs[0], p);
      if !r.ok {
        var k := EnoughFuelChoice(g, input, fs[1..], r.end);
        n := n + k;
      }
    }
  }

  lemma EnoughFuelSome(g: Rules, input: string, f: Comb, p: nat) returns (n: nat)
    requires p <= |input| && DenoteSome(g, input, f, p).Done?
    ensures forall m: nat :: m >= n ==> EvalSome(g, input, f, p, m) == DenoteSome(g, input, f, p)
  {
    n := EnoughFuel(g, input, f, p);
    var r := Denote(g, input, f, p);
    if r.ok {
      var k := EnoughFuelMany(g, input, f, r.end);
      n := n + k;
    }
  }

  /** A repetition is one round followed by the same repetition; it diverges when they do. */
  lemma DenoteManyStep(g: Rules, input: string, f: Comb, p: nat)
    requires p <= |input|
    ensures DenoteMany(g, input, f, p) == ManyStep(g, input, f, p)
  {
    if n: nat :| EvalMany(g, input, f, p, n).Done? {
      DenoteManyOf(g, input, f, p, n);
      DenoteOf(g, input, f, p, n - 1);
      var r := Eval(g, input, f, p, n - 1);
      if r.ok { DenoteManyOf(g, input, f, r.end, n - 1); }
    } else if ManyStep(g, input, f, p).Done? {
      var n := EnoughFuel(g, input, f, p);
      var r := Denote(g, input, f, p);
      var k := 0;
      if r.ok { k := EnoughFuelMany(g, input, f, r.end); }
      assert EvalMany(g, input, f, p, n + k + 1).Done?;
    }
  }

  /** The meaning is a fixed point of the combinators: what the fuelled evaluator reaches is
      exactly what the parts of a combinator, each run without any bound, add up to. */
  lemma DenoteStep(g: Rules, input: string, c: Comb, p: nat)
    requires p <= |input|
    ensures Denote(g, input, c, p) == Step(g, input, c, p)
  {
    if n: nat :| Eval(g, input, c, p, n).Done? {
      DenoteOf(g, input, c, p, n);
      StepOf(g, input, c, p, n);
    } else if Step(g, input, c, p).Done? {
      var n := EnoughFuelStep(g, input, c, p);
      assert Eval(g, input, c, p, n).Done?;
    }
  }

  lemma StepOf(g: Rules, input: string, c: Comb, p: nat, n: nat)
    requires p <= |input| && Eval(g, input, c, p, n).Done?
    ensures Step(g, input, c, p) == Eval(g, input, c, p, n)
  {
    if IsLeaf(c) {
    } else if IsWrapper(c) {
      DenoteOf(g, input, Inner(g, c), p, n - 1);
    } else {
      StepOfComposite(g, input, c, p, n);
    }
  }

  lemma StepOfComposite(g: Rules, input: string, c: Comb, p: nat, n: nat)
    requires p <= |input| && Eval(g, input, c, p, n).Done?
    requires !IsLeaf(c) && !IsWrapper(c)
    ensures Step(g, input, c, p) == Eval(g, input, c, p, n)
  {
    match c
    case Sequence(fs) => DenoteSequenceOf(g, input, fs, p, n - 1);
    case Choice(fs) => DenoteChoiceOf(g, input, fs, p, n - 1);
    case Many(f) => DenoteManyOf(g, input, f, p, n - 1);
    case MemoizeMany(_, f) => DenoteManyOf(g, input, f, p, n - 1);
    case Some(f) => DenoteSomeOf(g, input, f, p, n - 1);
    case MemoizeSome(_, f) => DenoteSomeOf(g, input, f, p, n - 1);
  }

  lemma DenoteSomeOf(g: Rules, input: string, f: Comb, p: nat, n: nat)
    requires p <= |input| && EvalSome(g, input, f, p, n).Done?
    ensures DenoteSome(g, input, f, p) == EvalSome(g, input, f, p, n)
  {
    DenoteOf(g, input, f, p, n);
    var r := Eval(g, input, f, p, n);
    if r.ok { DenoteManyOf(g, input, f, r.end, n); }
  }

  lemma EnoughFuelStep(g: Rules, input: string, c: Comb, p: nat) returns (n: nat)
    requires p <= |input| && Step(g, input, c, p).Done?
    ensures Eval(g, input, c, p, n).Done?
  {
    if IsLeaf(c) {
      n := 1;
    } else if IsWrapper(c) {
      n := EnoughFuel(g, input, Inner(g, c), p);
      n := n + 1;
    } else {
      match c
      case Sequence(fs) => n := EnoughFuelSequence(g, input, fs, p); n := n + 1;
      case Choice(fs) => n := EnoughFuelChoice(g, input, fs, p); n := n + 1;
      case Many(f) => n := EnoughFuelMany(g, input, f, p); n := n + 1;
      case MemoizeMany(_, f) => n := EnoughFuelMany(g, input, f, p); n := n + 1;
      case Some(f) => n := EnoughFuelSome(g, input, f, p); n := n + 1;
      case MemoizeSome(_, f) => n := EnoughFuelSome(g, input, f, p); n := n + 1;
    }
  }

  /** Repeating a parser that succeeds on nothing never ends. */
  lemma NoProgressDiverges(g: Rules, input: string, f: Comb, p: nat)
    requires p <= |input|
    requires var r := Denote(g, input, f, p); r.Done? && r.ok && r.end == p
    ensures DenoteMany(g, input, f, p).OutOfFuel?
  {
    forall n: nat ensures !EvalMany(g, input, f, p, n).Done? {
      NoProgressNoFuel(g, input, f, p, n);
    }
  }

  lemma {:induction false} NoProgressNoFuel(g: Rules, input: string, f: Comb, p: nat, n: nat)
    requires p <= |input|
    requires var r := Denote(g, input, f, p); r.Done? && r.ok && r.end == p
    ensures !EvalMany(g, input, f, p, n).Done?
  {
    if n == 0 {
    } else {
      if Eval(g, input, f, p, n - 1).Done? { DenoteOf(g, input, f, p, n - 1); }
      NoProgressNoFuel(g, input, f, p, n - 1);
    }
  }

  /** `some` is `many` plus the test whether the cursor moved: this is why `memoize_some` can
      share the table of `memoize_many` and only look at the cursor afterwards. */
  lemma SomeIsProgress(g: Rules, input: string, f: Comb, p: nat)
    requires p <= |input| && DenoteMany(g, input, f, p).Done?
    ensures var s := DenoteSome(g, input, f, p); var m := DenoteMany(g, input, f, p);
      s.Done? && s.end == m.end && s.err == m.err && s.val == m.val && (s.ok <==> m.end > p)
  {
    DenoteManyStep(g, input, f, p);
    var r := Denote(g, input, f, p);
    if r.ok && r.end == p {
      NoProgressDiverges(g, input, f, p);
    }
  }
}
