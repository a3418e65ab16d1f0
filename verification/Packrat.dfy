/** Parsing with memoization on a stream, compared with plain parsing of the whole input. */
module Packrat {
  import opened ParseErrors
  import opened Grammar
  import opened Meaning
  import opened ParserState
  import Semantics
  import Hwl
  import HwlChecks

  /** A memoized parse from the start of a stream. It ends exactly when the plain parse does (with
      the same fuel or less), and then agrees with it on success, end of the match, bound value and
      furthest-failure error. */
  method Parse(g: Rules, ghost spec: nat -> Comb, c: Comb, stream: string, fuel: nat)
    returns (v: Verdict, end: nat, val: seq<Tree>, err: Error)
    requires KeepsIds(spec, c) && forall k :: KeepsIds(spec, g(k))
    ensures Eval(g, stream, c, 0, fuel).Done? ==> v != Unfinished
    ensures v != Unfinished ==> Denote(g, stream, c, 0) == Done(v == Matched, end, err, val)
  {
    var ps := new State(g, spec, stream);
    ghost var plain := ps.plain;
    assert plain.ends(c, 0, fuel) == Eval(g, stream, c, 0, fuel).Done?;
    v, val := ps.Run(c, fuel);
    end, err := ps.pos.i, ps.err;
    if v != Unfinished {
      ghost var d := Denote(g, stream, c, 0);
      assert plain.means(c, 0) == d;
      MergeIsJoin(d.err, d.err);
    }
  }

  /** A script (or any other rule) parsed with the grammar of workflow scripts. */
  method ParseHwl(rule: nat, stream: string, fuel: nat) returns (v: Verdict, end: nat, val: seq<Tree>, err: Error)
    ensures Denote(Hwl.Rule, stream, Bind(rule), 0).Done?
    ensures v != Unfinished ==> Denote(Hwl.Rule, stream, Bind(rule), 0) == Done(v == Matched, end, err, val)
    ensures Eval(Hwl.Rule, stream, Bind(rule), 0, fuel).Done? ==> v != Unfinished
  {
    forall k { HwlChecks.HwlKeepsIds(k); }
    ghost var n := HwlChecks.HwlEnds(stream, rule);
    DenoteOf(Hwl.Rule, stream, Bind(rule), 0, n);
    v, end, val, err := Parse(Hwl.Rule, Hwl.MemoAt, Bind(rule), stream, fuel);
  }
}
