/** Furthest-failure error information, and the merge that accumulates it. */
module ParseErrors {

  /** Positions are compared by character index only, so an index is all an error needs. */
  datatype Error = Error(pos: nat, expected: set<string>, messages: set<string>)

  /** The error object of a parser that has not failed anywhere yet. */
  const NO_ERROR := Error(0, {}, {})

  /** `a |= b`: the further position wins; a tie unites both message sets. */
  function Merge(a: Error, b: Error): Error {
    if a.pos > b.pos then a
    else if a.pos < b.pos then b
    else Error(a.pos, a.expected + b.expected, a.messages + b.messages)
  }

  /** Everything `b` reports is already part of `a`. */
  predicate Covers(a: Error, b: Error) {
    b.pos < a.pos || (b.pos == a.pos && b.expected <= a.expected && b.messages <= a.messages)
  }

  lemma MergeAssociative(a: Error, b: Error, c: Error)
    ensures Merge(Merge(a, b), c) == Merge(a, Merge(b, c))
  {
    assert (a.expected + b.expected) + c.expected == a.expected + (b.expected + c.expected);
    assert (a.messages + b.messages) + c.messages == a.messages + (b.messages + c.messages);
  }

  lemma MergeCommutative(a: Error, b: Error)
    ensures Merge(a, b) == Merge(b, a)
  {
    assert a.expected + b.expected == b.expected + a.expected;
    assert a.messages + b.messages == b.messages + a.messages;
  }

  /** Merging is the least upper bound of the `Covers` order: what is covered is exactly what
      another merge would not change. */
  lemma MergeIsJoin(a: Error, b: Error)
    ensures Covers(a, b) <==> Merge(a, b) == a
    ensures Covers(Merge(a, b), a) && Covers(Merge(a, b), b)
    ensures forall u :: Covers(u, a) && Covers(u, b) ==> Covers(u, Merge(a, b))
    ensures Merge(a, a) == a && Merge(a, NO_ERROR) == a && Merge(NO_ERROR, a) == a
  {
    assert a.expected + a.expected == a.expected && a.messages + a.messages == a.messages;
    assert a.expected + {} == a.expected && a.messages + {} == a.messages;
    assert {} + a.expected == a.expected && {} + a.messages == a.messages;
    if Covers(a, b) && a.pos == b.pos {
      assert a.expected + b.expected == a.expected && a.messages + b.messages == a.messages;
    }
  }

  /** Covering is transitive, so errors once merged stay covered for the rest of the parse. */
  lemma CoversTransitive(a: Error, b: Error, c: Error)
    requires Covers(a, b) && Covers(b, c)
    ensures Covers(a, c)
  {
  }
}
