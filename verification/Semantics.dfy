/** The plain meaning as an object of its own: its values behind two functions, and the laws that
    connect a combinator with its parts. A memoizing run is compared with these laws. */
module Semantics {
  import opened ParseErrors
  import opened Grammar
  import opened Meaning

  /** `means(c, p)` is the plain outcome of `c` at `p`; `ends(c, p, n)` says that fuel `n` reaches it. */
  datatype Plain = Plain(
    g: Rules, input: string, ghost means: (Comb, nat) -> Outcome, ghost ends: (Comb, nat, nat) -> bool)

  ghost function PlainParser(g: Rules, input: string): (s: Plain)
    ensures Faithful(s) && s.g == g && s.input == input
  {
    Plain(g, input,
      (c: Comb, p: nat) => if p <= |input| then Denote(g, input, c, p) else OutOfFuel,
      (c: Comb, p: nat, n: nat) => p <= |input| && Eval(g, input, c, p, n).Done?)
  }

  ghost predicate Faithful(s: Plain) {
    (forall c, p: nat {:trigger Denote(s.g, s.input, c, p)} :: p <= |s.input| ==>
      s.means(c, p) == Denote(s.g, s.input, c, p)) &&
    (forall c, p: nat, n: nat {:trigger Eval(s.g, s.input, c, p, n)} :: p <= |s.input| ==>
      s.ends(c, p, n) == Eval(s.g, s.input, c, p, n).Done?)
  }

  /** A meaning that ends lies ahead of the cursor, and a failure leaves the cursor alone. */
  lemma Bounds(s: Plain, c: Comb, p: nat)
    requires Faithful(s) && p <= |s.input|
    ensures var r := s.means(c, p);
      r.Done? ==> p <= r.end <= |s.input| && (!r.ok ==> r.end == p && r.val == [])
  {
    var _ := Denote(s.g, s.input, c, p);
  }

  lemma Reaches(s: Plain, c: Comb, p: nat, n: nat)
    requires Faithful(s) && p <= |s.input| && s.ends(c, p, n)
    ensures n > 0 && s.means(c, p).Done?
  {
    assert Eval(s.g, s.input, c, p, n).Done?;
    DenoteOf(s.g, s.input, c, p, n);
  }

  lemma LeafLaw(s: Plain, c: Comb, p: nat)
    requires Faithful(s) && p <= |s.input| && IsLeaf(c)
    ensures s.means(c, p) == Leaf(s.input, c, p)
  {
    DenoteStep(s.g, s.input, c, p);
  }

  lemma WrapperLaw(s: Plain, c: Comb, p: nat, n: nat)
    requires Faithful(s) && p <= |s.input| && IsWrapper(c)
    ensures var r := s.means(Inner(s.g, c), p);
      (r.Done? ==> p <= r.end <= |s.input| && (!r.ok ==> r.end == p && r.val == [])) &&
      s.means(c, p) == Wrap(s.input, c, p, r)
    ensures s.ends(c, p, n) ==> n > 0 && s.ends(Inner(s.g, c), p, n - 1)
  {
    DenoteStep(s.g, s.input, c, p);
    if s.ends(c, p, n) {
      assert Eval(s.g, s.input, c, p, n).Done?;
      assert Eval(s.g, s.input, Inner(s.g, c), p, n - 1).Done?;
    }
  }

  lemma SequenceLaw(s: Plain, fs: seq<Comb>, p: nat)
    requires Faithful(s) && p <= |s.input|
    ensures fs == [] ==> s.means(Sequence(fs), p) == Done(true, p, NO_ERROR, [])
    ensures fs != [] ==>
      var r := s.means(fs[0], p);
      s.means(Sequence(fs), p) ==
        if r.Done? && r.ok then Restore(p, r.Then(s.means(Sequence(fs[1..]), r.end))) else Restore(p, r)
  {
    DenoteStep(s.g, s.input, Sequence(fs), p);
    if fs != [] {
      var r := Denote(s.g, s.input, fs[0], p);
      if r.Done? && r.ok { DenoteStep(s.g, s.input, Sequence(fs[1..]), r.end); }
    }
  }

  lemma SequenceEnds(s: Plain, fs: seq<Comb>, p: nat, n: nat)
    requires Faithful(s) && p <= |s.input| && fs != [] && s.ends(Sequence(fs), p, n)
    ensures n > 0 && s.ends(fs[0], p, n - 1)
    ensures var r := s.means(fs[0], p);
      r.Done? && (r.ok ==> s.ends(Sequence(fs[1..]), r.end, n))
  {
    assert Eval(s.g, s.input, Sequence(fs), p, n).Done?;
    assert EvalSequence(s.g, s.input, fs, p, n - 1).Done?;
    DenoteOf(s.g, s.input, fs[0], p, n - 1);
    var r := Eval(s.g, s.input, fs[0], p, n - 1);
    if r.ok {
      assert EvalSequence(s.g, s.input, fs[1..], r.end, n - 1).Done?;
      assert Eval(s.g, s.input, Sequence(fs[1..]), r.end, n).Done?;
    }
  }

  lemma ChoiceLaw(s: Plain, fs: seq<Comb>, p: nat)
    requires Faithful(s) && p <= |s.input|
    ensures fs == [] ==> s.means(Choice(fs), p) == Done(false, p, NO_ERROR, [])
    ensures fs != [] ==>
      var r := s.means(fs[0], p);
      s.means(Choice(fs), p) == if r.Done? && !r.ok then r.Then(s.means(Choice(fs[1..]), r.end)) else r
  {
    DenoteStep(s.g, s.input, Choice(fs), p);
    if fs != [] {
      var r := Denote(s.g, s.input, fs[0], p);
      if r.Done? && !r.ok { DenoteStep(s.g, s.input, Choice(fs[1..]), r.end); }
    }
  }

  lemma ChoiceEnds(s: Plain, fs: seq<Comb>, p: nat, n: nat)
    requires Faithful(s) && p <= |s.input| && fs != [] && s.ends(Choice(fs), p, n)
    ensures n > 0 && s.ends(fs[0], p, n - 1)
    ensures var r := s.means(fs[0], p);
      r.Done? && (!r.ok ==> s.ends(Choice(fs[1..]), r.end, n))
  {
    assert Eval(s.g, s.input, Choice(fs), p, n).Done?;
    assert EvalChoice(s.g, s.input, fs, p, n - 1).Done?;
    DenoteOf(s.g, s.input, fs[0], p, n - 1);
    var r := Eval(s.g, s.input, fs[0], p, n - 1);
    if !r.ok {
      assert EvalChoice(s.g, s.input, fs[1..], r.end, n - 1).Done?;
      assert Eval(s.g, s.input, Choice(fs[1..]), r.end, n).Done?;
    }
  }

  lemma ManyLaw(s: Plain, f: Comb, p: nat)
    requires Faithful(s) && p <= |s.input|
    ensures var r := s.means(f, p);
      s.means(Many(f), p) ==
        if !r.Done? then OutOfFuel
        else if !r.ok then Done(true, r.end, r.err, [])
        else r.Then(s.means(Many(f), r.end))
    ensures s.means(Many(f), p).Done? ==> s.means(Many(f), p).ok
  {
    DenoteStep(s.g, s.input, Many(f), p);
    DenoteManyStep(s.g, s.input, f, p);
    var r := Denote(s.g, s.input, f, p);
    if r.Done? && r.ok { DenoteStep(s.g, s.input, Many(f), r.end); }
  }

  lemma ManyEnds(s: Plain, f: Comb, p: nat, n: nat)
    requires Faithful(s) && p <= |s.input| && s.ends(Many(f), p, n)
    ensures n > 1 && s.ends(f, p, n - 2)
    ensures var r := s.means(f, p);
      r.Done? && (r.ok ==> s.ends(Many(f), r.end, n - 1))
  {
    assert Eval(s.g, s.input, Many(f), p, n).Done?;
    assert EvalMany(s.g, s.input, f, p, n - 1).Done?;
    DenoteOf(s.g, s.input, f, p, n - 2);
    var r := Eval(s.g, s.input, f, p, n - 2);
    if r.ok {
      assert EvalMany(s.g, s.input, f, r.end, n - 2).Done?;
      assert Eval(s.g, s.input, Many(f), r.end, n - 1).Done?;
    }
  }

  lemma SomeLaw(s: Plain, f: Comb, p: nat)
    requires Faithful(s) && p <= |s.input|
    ensures var r := s.means(f, p);
      s.means(Some(f), p) == if r.Done? && r.ok then r.Then(s.means(Many(f), r.end)) else r
  {
    DenoteStep(s.g, s.input, Some(f), p);
    var r := Denote(s.g, s.input, f, p);
    if r.Done? && r.ok { DenoteStep(s.g, s.input, Many(f), r.end); }
  }

  lemma SomeEnds(s: Plain, f: Comb, p: nat, n: nat)
    requires Faithful(s) && p <= |s.input| && s.ends(Some(f), p, n)
    ensures n > 0 && s.ends(f, p, n - 1)
    ensures var r := s.means(f, p);
      r.Done? && (r.ok ==> s.ends(Many(f), r.end, n))
  {
    assert Eval(s.g, s.input, Some(f), p, n).Done?;
    assert EvalSome(s.g, s.input, f, p, n - 1).Done?;
    DenoteOf(s.g, s.input, f, p, n - 1);
    var r := Eval(s.g, s.input, f, p, n - 1);
    if r.ok {
      assert EvalMany(s.g, s.input, f, r.end, n - 1).Done?;
      assert Eval(s.g, s.input, Many(f), r.end, n).Done?;
    }
  }

  lemma MemoizeManyLaw(s: Plain, id: nat, f: Comb, p: nat)
    requires Faithful(s) && p <= |s.input|
    ensures s.means(MemoizeMany(id, f), p) == s.means(Many(f), p).WithoutValue()
  {
    DenoteStep(s.g, s.input, MemoizeMany(id, f), p);
    DenoteStep(s.g, s.input, Many(f), p);
  }

  lemma MemoizeManyEnds(s: Plain, id: nat, f: Comb, p: nat, n: nat)
    requires Faithful(s) && p <= |s.input| && s.ends(MemoizeMany(id, f), p, n)
    ensures s.ends(Many(f), p, n)
  {
    assert Eval(s.g, s.input, MemoizeMany(id, f), p, n).Done?;
    assert Eval(s.g, s.input, Many(f), p, n).Done?;
  }

  /** `memoize_some` is `some`, and also `many` plus the test whether the cursor moved. */
  lemma MemoizeSomeLaw(s: Plain, id: nat, f: Comb, p: nat)
    requires Faithful(s) && p <= |s.input|
    ensures s.means(MemoizeSome(id, f), p) == s.means(Some(f), p).WithoutValue()
    ensures var m := s.means(Many(f), p);
      m.Done? ==> s.means(MemoizeSome(id, f), p) == Done(m.end > p, m.end, m.err, [])
  {
    DenoteStep(s.g, s.input, MemoizeSome(id, f), p);
    DenoteStep(s.g, s.input, Some(f), p);
    DenoteStep(s.g, s.input, Many(f), p);
    if s.means(Many(f), p).Done? { SomeIsProgress(s.g, s.input, f, p); }
  }

  lemma MemoizeSomeEnds(s: Plain, id: nat, f: Comb, p: nat, n: nat)
    requires Faithful(s) && p <= |s.input| && s.ends(MemoizeSome(id, f), p, n)
    ensures s.ends(Many(f), p, n + 1)
  {
    assert Eval(s.g, s.input, MemoizeSome(id, f), p, n).Done?;
    assert EvalSome(s.g, s.input, f, p, n - 1).Done?;
    assert Eval(s.g, s.input, f, p, n - 1).Done?;
    assert EvalMany(s.g, s.input, f, p, n).Done?;
    assert Eval(s.g, s.input, Many(f), p, n + 1).Done?;
  }

  /** Bookkeeping for a loop over a sequence: `acc` is what the parsers run so far add up to. */
  lemma RestoreUnit(s: Plain, fs: seq<Comb>, p: nat)
    requires Faithful(s) && p <= |s.input|
    ensures s.means(Sequence(fs), p) == Restore(p, Done(true, p, NO_ERROR, []).Then(s.means(Sequence(fs), p)))
  {
    var r := s.means(Sequence(fs), p);
    Bounds(s, Sequence(fs), p);
    ThenUnit(true, p, r);
  }

  lemma SequenceStep(s: Plain, acc: Outcome, fs: seq<Comb>, start: nat, p: nat)
    requires Faithful(s) && p <= |s.input| && acc.Done? && fs != []
    requires s.means(fs[0], p).Done?
    ensures var r := s.means(fs[0], p);
      Restore(start, acc.Then(s.means(Sequence(fs), p))) ==
        if r.ok then Restore(start, acc.Then(r).Then(s.means(Sequence(fs[1..]), r.end)))
        else Done(false, start, Merge(acc.err, r.err), [])
  {
    SequenceLaw(s, fs, p);
    Bounds(s, fs[0], p);
    var r := s.means(fs[0], p);
    if r.Done? && r.ok { ThenAssociative(acc, r, s.means(Sequence(fs[1..]), r.end)); }
  }

  lemma SequenceEmpty(s: Plain, acc: Outcome, p: nat)
    requires Faithful(s) && p <= |s.input| && acc.Done? && acc.ok && acc.end == p
    ensures acc.Then(s.means(Sequence([]), p)) == acc
  {
    SequenceLaw(s, [], p);
    MergeIsJoin(acc.err, acc.err);
    assert acc.val + [] == acc.val;
  }

  /** The same bookkeeping for alternatives: `acc` is what the failed ones add up to. */
  lemma ChoiceStep(s: Plain, acc: Outcome, fs: seq<Comb>, p: nat)
    requires Faithful(s) && p <= |s.input| && acc.Done? && acc.val == [] && fs != []
    requires s.means(fs[0], p).Done?
    ensures var r := s.means(fs[0], p);
      acc.Then(s.means(Choice(fs), p)) ==
        if r.ok then Done(true, r.end, Merge(acc.err, r.err), r.val)
        else acc.Then(r).Then(s.means(Choice(fs[1..]), r.end))
    ensures var r := s.means(fs[0], p); !r.ok ==> r.val == []
  {
    ChoiceLaw(s, fs, p);
    Bounds(s, fs[0], p);
    var r := s.means(fs[0], p);
    if r.ok { assert [] + r.val == r.val; } else { ThenAssociative(acc, r, s.means(Choice(fs[1..]), r.end)); }
  }

  lemma ChoiceEmpty(s: Plain, acc: Outcome, p: nat)
    requires Faithful(s) && p <= |s.input| && acc.Done? && !acc.ok && acc.end == p
    ensures acc.Then(s.means(Choice([]), p)) == acc
  {
    ChoiceLaw(s, [], p);
    MergeIsJoin(acc.err, acc.err);
    assert acc.val + [] == acc.val;
  }

  /** And for a repetition: `acc` is what the rounds so far add up to. */
  lemma ManyRound(s: Plain, acc: Outcome, f: Comb, p: nat)
    requires Faithful(s) && p <= |s.input| && acc.Done? && s.means(f, p).Done?
    ensures var r := s.means(f, p);
      acc.Then(s.means(Many(f), p)) ==
        if r.ok then acc.Then(r).Then(s.means(Many(f), r.end))
        else Done(true, r.end, Merge(acc.err, r.err), acc.val)
  {
    ManyLaw(s, f, p);
    var r := s.means(f, p);
    if r.ok { ThenAssociative(acc, r, s.means(Many(f), r.end)); } else { assert acc.val + [] == acc.val; }
  }
}
