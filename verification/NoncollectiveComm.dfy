/** Building a communicator for a group of ranks by pairwise merges, without the other ranks of the
    parent communicator taking part. Each rank runs its own doubling loop; only the intercommunicator
    calls of two whole blocks that name each other's leaders synchronize. */
module NoncollectiveComm {
  import opened Arithmetic

  /** What a rank asks for in one round: nothing, or an intercommunicator to the block led by the
      given parent rank, merged with this block in front (`high` false) or behind. */
  datatype Call = NoCall | Create(remoteLeader: nat, high: bool)

  function Pow2(k: nat): (r: nat)
    ensures r > 0
  {
    if k == 0 then 1 else 2 * Pow2(k - 1)
  }

  /** The `b`-th block of `m` ranks, cut off at `n`. */
  function Block(n: nat, m: nat, b: nat): (s: seq<nat>)
  {
    var first := Times(b, m);
    var end := if first + m < n then first + m else n;
    if first >= end then [] else seq(end - first, i requires 0 <= i => first + i)
  }

  /** The body of the loop on rank `rank` at merge size `m`; `translated` holds the parent ranks. */
  function CallOf(n: nat, translated: seq<nat>, rank: nat, m: nat): Call
    requires rank < n == |translated| && m > 0
  {
    var id := Quotient(rank, m);
    QuotientBounds(rank, m);
    if id % 2 == 0 then
      if Times(id + 1, m) < n then Create(translated[Times(id + 1, m)], false) else NoCall
    else Create(translated[Times(id - 1, m)], true)
  }

  /** `level[r]` is how often rank `r` has gone round its loop, `comm[r]` its current communicator
      as a list of group ranks, `handle[r]` the handle of it, and `held[r]` the handles that `r` has
      been given and has not freed. Handles below `next` have been handed out. */
  datatype World = World(level: seq<nat>, comm: seq<seq<nat>>, handle: seq<nat>, held: seq<set<nat>>, next: nat)

  /** Every rank starts with a duplicate of its own communicator. */
  function Init(n: nat): World {
    World(seq(n, i => 0), seq(n, i requires 0 <= i => [i]), seq(n, i requires 0 <= i => i),
          seq(n, i requires 0 <= i => {i}), n)
  }

  predicate Shape(n: nat, translated: seq<nat>, w: World) {
    |translated| == n && |w.level| == n && |w.comm| == n && |w.handle| == n && |w.held| == n &&
    (forall i, j :: 0 <= i < n && 0 <= j < n && i != j ==> translated[i] != translated[j]) &&
    (forall r, k :: 0 <= r < n && 0 <= k < |w.comm[r]| ==> w.comm[r][k] < n)
  }

  /** The loop of the rank has not ended. */
  predicate InLoop(n: nat, w: World, r: nat)
    requires r < |w.level|
  {
    Pow2(w.level[r]) < n
  }

  function Posted(n: nat, translated: seq<nat>, w: World, r: nat): Call
    requires r < n == |translated| && r < |w.level|
  {
    CallOf(n, translated, r, Pow2(w.level[r]))
  }

  /** A rank without a partner block goes on to the next round alone. */
  predicate CanSkip(n: nat, translated: seq<nat>, w: World, r: nat)
    requires Shape(n, translated, w)
  {
    r < n && InLoop(n, w, r) && Posted(n, translated, w, r).NoCall?
  }

  /** All of communicator `a` call for communicator `b`. */
  predicate AllCall(n: nat, translated: seq<nat>, w: World, a: seq<nat>, b: seq<nat>, high: bool)
    requires Shape(n, translated, w)
  {
    b != [] && b[0] < n && forall x :: x in a ==>
      x < n && w.comm[x] == a && InLoop(n, w, x) && Posted(n, translated, w, x) == Create(translated[b[0]], high)
  }

  /** The calls of two communicators complete when every member of both has made them, each side
      names the other side's first rank, and the sides agree on who is in front. */
  predicate CanMerge(n: nat, translated: seq<nat>, w: World, r: nat, s: nat)
    requires Shape(n, translated, w)
  {
    r < n && s < n && r in w.comm[r] && s in w.comm[s] &&
    AllCall(n, translated, w, w.comm[r], w.comm[s], false) &&
    AllCall(n, translated, w, w.comm[s], w.comm[r], true)
  }

  function Skip(w: World, r: nat): World
    requires r < |w.level|
  {
    w.(level := w.level[r := w.level[r] + 1])
  }

  /** Every member is given the intercommunicator and the merged one, and frees the former together
      with the communicator it had. */
  function Merge(w: World, r: nat, s: nat): World
    requires |w.level| == |w.comm| == |w.handle| == |w.held| && r < |w.comm| && s < |w.comm|
  {
    var both, ic, merged := w.comm[r] + w.comm[s], w.next, w.next + 1;
    World(
      seq(|w.level|, i requires 0 <= i < |w.level| => if i in both then w.level[i] + 1 else w.level[i]),
      seq(|w.comm|, i requires 0 <= i < |w.comm| => if i in both then both else w.comm[i]),
      seq(|w.handle|, i requires 0 <= i < |w.handle| => if i in both then merged else w.handle[i]),
      seq(|w.held|, i requires 0 <= i < |w.held| =>
        if i in both then w.held[i] + {ic, merged} - {ic, w.handle[i]} else w.held[i]),
      w.next + 2)
  }

  // Block arithmetic.

  /** A block holds the ranks whose quotient is its number, its first rank in front. */
  lemma BlockMember(n: nat, m: nat, b: nat, x: nat)
    requires m > 0
    ensures x in Block(n, m, b) <==> x < n && Quotient(x, m) == b
    ensures Block(n, m, b) != [] <==> Times(b, m) < n
    ensures Times(b, m) < n ==> Block(n, m, b)[0] == Times(b, m)
  {
    var first, s := Times(b, m), Block(n, m, b);
    QuotientBounds(x, m);
    if first <= x < first + m { QuotientUnique(x, m, b); }
    if first <= x < first + m && x < n { assert s[x - first] == x; }
  }

  lemma HalfBlock(x: nat, m: nat)
    requires m > 0
    ensures Quotient(x, 2 * m) == Quotient(x, m) / 2
  {
    var q := Quotient(x, m);
    QuotientBounds(x, m);
    var c := q / 2;
    TimesDouble(c, m);
    assert q == 2 * c || q == 2 * c + 1;
    QuotientUnique(x, 2 * m, c);
  }

  /** Two neighbouring blocks in order are the block of twice the size. */
  lemma BlocksJoin(n: nat, m: nat, c: nat)
    requires m > 0
    ensures Times(2 * c + 1, m) < n ==> Block(n, m, 2 * c) + Block(n, m, 2 * c + 1) == Block(n, 2 * m, c)
    ensures Times(2 * c + 1, m) >= n ==> Block(n, m, 2 * c) == Block(n, 2 * m, c)
  {
    TimesDouble(c, m);
  }

  // The invariant.

  function BlockOf(n: nat, l: nat, x: nat): nat {
    Quotient(x, Pow2(l))
  }

  /** There is another block to merge with at level `l`. */
  predicate HasPartner(n: nat, l: nat, x: nat) {
    BlockOf(n, l, x) % 2 == 1 || Times(BlockOf(n, l, x) + 1, Pow2(l)) < n
  }

  /** `x` and `y` come together when the blocks of level `l` are merged. */
  predicate Merging(n: nat, l: nat, x: nat, y: nat) {
    HasPartner(n, l, x) && BlockOf(n, l + 1, x) == BlockOf(n, l + 1, y)
  }

  /** A block that had a partner leaves a level as a whole and together with it. */
  ghost predicate Together(n: nat, w: World)
    requires |w.level| == n
  {
    forall x: nat, y: nat, l: nat :: x < n && y < n && l < w.level[x] && Merging(n, l, x, y) ==> l < w.level[y]
  }

  /** The communicator of a rank is the block of its level that the rank lies in. */
  predicate OwnBlock(n: nat, w: World, r: nat)
    requires |w.level| == |w.comm| == n && r < n
  {
    w.comm[r] == Block(n, Pow2(w.level[r]), BlockOf(n, w.level[r], r))
  }

  ghost predicate Inv(n: nat, translated: seq<nat>, w: World) {
    Shape(n, translated, w) && Together(n, w) &&
    (forall r: nat :: r < n ==> OwnBlock(n, w, r)) &&
    (forall r: nat :: r < n ==> w.held[r] == {w.handle[r]} && w.handle[r] < w.next)
  }

  lemma InitInv(n: nat, translated: seq<nat>)
    requires |translated| == n && forall i, j :: 0 <= i < n && 0 <= j < n && i != j ==> translated[i] != translated[j]
    ensures Inv(n, translated, Init(n))
  {
    forall r: nat | r < n ensures OwnBlock(n, Init(n), r) {
      TimesOne(r);
    }
  }

  lemma PartnerShared(n: nat, l: nat, x: nat, y: nat)
    requires x < n && y < n && Merging(n, l, x, y)
    ensures Merging(n, l, y, x)
  {
    var m := Pow2(l);
    HalfBlock(x, m);
    HalfBlock(y, m);
    QuotientBounds(x, m);
    var a, b := BlockOf(n, l, x), BlockOf(n, l, y);
    if b % 2 == 0 && a % 2 == 1 { assert a == b + 1; }
  }

  lemma SkipInv(n: nat, translated: seq<nat>, w: World, r: nat)
    requires Inv(n, translated, w) && CanSkip(n, translated, w, r)
    ensures Inv(n, translated, Skip(w, r))
  {
    var l := w.level[r];
    var m, w' := Pow2(l), Skip(w, r);
    HalfBlock(r, m);
    BlocksJoin(n, m, BlockOf(n, l + 1, r));
    forall x: nat | x < n ensures OwnBlock(n, w', x) {
      assert OwnBlock(n, w, x);
    }
    forall x: nat, y: nat, k: nat | x < n && y < n && k < w'.level[x] && Merging(n, k, x, y) ensures k < w'.level[y] {
      assert k < w.level[x];
    }
  }

  /** A member of `a` that calls for `b` is at the level given by the distance of the two first ranks. */
  lemma CallerLevel(n: nat, translated: seq<nat>, w: World, x: nat, b: nat, high: bool)
    requires Shape(n, translated, w) && x < n && b < n && OwnBlock(n, w, x)
    requires Posted(n, translated, w, x) == Create(translated[b], high)
    ensures var l := w.level[x]; var a, id := w.comm[x], BlockOf(n, l, x);
      a != [] && a[0] == Times(id, Pow2(l)) &&
      (if high then id % 2 == 1 && a[0] == b + Pow2(l) else id % 2 == 0 && b == a[0] + Pow2(l))
  {
    var l := w.level[x];
    BlockMember(n, Pow2(l), BlockOf(n, l, x), x);
  }

  /** All callers of a merge are at the same level. */
  lemma MergeIsLevel(n: nat, translated: seq<nat>, w: World, r: nat, s: nat, x: nat)
    requires Inv(n, translated, w) && CanMerge(n, translated, w, r, s) && x in w.comm[r] + w.comm[s]
    ensures x < n && w.level[x] == w.level[r]
  {
    var a, b := w.comm[r], w.comm[s];
    CallerLevel(n, translated, w, r, b[0], false);
    if x in a {
      CallerLevel(n, translated, w, x, b[0], false);
    } else {
      CallerLevel(n, translated, w, x, a[0], true);
    }
    PowInjective(w.level[x], w.level[r]);
  }

  /** Calls that complete together come from the two halves of one block of the next level. */
  lemma MergeIsHalves(n: nat, translated: seq<nat>, w: World, r: nat, s: nat)
    requires Inv(n, translated, w) && CanMerge(n, translated, w, r, s)
    ensures var l := w.level[r]; var m, c := Pow2(l), BlockOf(n, l + 1, r);
      w.comm[r] == Block(n, m, 2 * c) && w.comm[s] == Block(n, m, 2 * c + 1) && Times(2 * c + 1, m) < n
  {
    var l := w.level[r];
    var m, id, next := Pow2(l), BlockOf(n, l, r), BlockOf(n, l, s);
    MergeIsLevel(n, translated, w, r, s, s);
    CallerLevel(n, translated, w, r, w.comm[s][0], false);
    CallerLevel(n, translated, w, s, w.comm[r][0], true);
    HalfBlock(r, m);
    TimesInjective(next, id + 1, m);
    BlockMember(n, m, next, s);
  }

  lemma {:induction false} PowInjective(a: nat, b: nat)
    ensures Pow2(a) == Pow2(b) ==> a == b
  {
    if a > 0 && b > 0 { PowInjective(a - 1, b - 1); }
  }

  /** A merge takes exactly the ranks of one block of the next level to that block and that level. */
  lemma MergeIsBlock(n: nat, translated: seq<nat>, w: World, r: nat, s: nat)
    requires Inv(n, translated, w) && CanMerge(n, translated, w, r, s)
    ensures var l := w.level[r]; var c := BlockOf(n, l + 1, r);
      var both := w.comm[r] + w.comm[s];
      both == Block(n, Pow2(l + 1), c) &&
      forall x: nat :: x in both <==> x < n && BlockOf(n, l + 1, x) == c
  {
    var l := w.level[r];
    var c := BlockOf(n, l + 1, r);
    MergeIsHalves(n, translated, w, r, s);
    JoinedHalves(n, l, c, w.comm[r], w.comm[s]);
  }

  lemma JoinedHalves(n: nat, l: nat, c: nat, a: seq<nat>, b: seq<nat>)
    requires a == Block(n, Pow2(l), 2 * c) && b == Block(n, Pow2(l), 2 * c + 1) && Times(2 * c + 1, Pow2(l)) < n
    ensures a + b == Block(n, Pow2(l + 1), c)
    ensures forall x: nat :: x in a + b <==> x < n && BlockOf(n, l + 1, x) == c
  {
    BlocksJoin(n, Pow2(l), c);
    BlockMembers(n, l + 1, c);
  }

  lemma BlockMembers(n: nat, l: nat, c: nat)
    ensures forall x: nat :: x in Block(n, Pow2(l), c) <==> x < n && BlockOf(n, l, x) == c
  {
    forall x: nat ensures x in Block(n, Pow2(l), c) <==> x < n && BlockOf(n, l, x) == c {
      BlockMember(n, Pow2(l), c, x);
    }
  }

  lemma MergeInv(n: nat, translated: seq<nat>, w: World, r: nat, s: nat)
    requires Inv(n, translated, w) && CanMerge(n, translated, w, r, s)
    ensures Inv(n, translated, Merge(w, r, s))
  {
    var l := w.level[r];
    var c, w' := BlockOf(n, l + 1, r), Merge(w, r, s);
    var both := w.comm[r] + w.comm[s];
    MergeIsBlock(n, translated, w, r, s);
    forall x | x in both ensures w.level[x] == l {
      MergeIsLevel(n, translated, w, r, s, x);
    }
    forall x: nat | x < n ensures OwnBlock(n, w', x) && w'.held[x] == {w'.handle[x]} && w'.handle[x] < w'.next {
      MergedRank(n, w, r, s, x);
    }
    forall x: nat, y: nat, k: nat | x < n && y < n && k < w'.level[x] && Merging(n, k, x, y) ensures k < w'.level[y] {
      MergedTogether(n, w, both, l, c, x, y, k);
    }
  }

  lemma MergedRank(n: nat, w: World, r: nat, s: nat, x: nat)
    requires |w.level| == |w.comm| == |w.handle| == |w.held| == n && r < n && s < n && x < n
    requires OwnBlock(n, w, x) && w.held[x] == {w.handle[x]} && w.handle[x] < w.next
    requires x in w.comm[r] + w.comm[s] ==>
      w.comm[r] + w.comm[s] == Block(n, Pow2(w.level[x] + 1), BlockOf(n, w.level[x] + 1, x))
    ensures var w' := Merge(w, r, s);
      OwnBlock(n, w', x) && w'.held[x] == {w'.handle[x]} && w'.handle[x] < w'.next
  {
    if x in w.comm[r] + w.comm[s] {
      assert w.held[x] + {w.next, w.next + 1} - {w.next, w.handle[x]} == {w.next + 1};
    }
  }

  lemma MergedTogether(n: nat, w: World, both: seq<nat>, l: nat, c: nat, x: nat, y: nat, k: nat)
    requires |w.level| == n && Together(n, w) && x < n && y < n && Merging(n, k, x, y)
    requires forall z: nat :: z in both <==> z < n && BlockOf(n, l + 1, z) == c
    requires forall z :: z in both ==> w.level[z] == l
    requires k < if x in both then l + 1 else w.level[x]
    ensures k < if y in both then l + 1 else w.level[y]
  {
    if k >= w.level[x] { assert k == l && y in both; }
  }

  /** As long as some rank is in its loop, some rank can skip or some merge can complete: the block of
      a rank that is behind all others and its partner block are both waiting for each other. */
  lemma DeadlockFree(n: nat, translated: seq<nat>, w: World)
    requires Inv(n, translated, w) && exists r: nat :: r < n && InLoop(n, w, r)
    ensures (exists r: nat :: CanSkip(n, translated, w, r)) ||
      (exists r: nat, s: nat :: CanMerge(n, translated, w, r, s))
  {
    var r0: nat :| r0 < n && InLoop(n, w, r0);
    var r := Hindmost(n, w, r0);
    var l := w.level[r];
    if HasPartner(n, l, r) {
      var c := BlockOf(n, l + 1, r);
      Partners(n, l, r);
      BlockReady(n, translated, w, r, c * 2);
      BlockReady(n, translated, w, r, c * 2 + 1);
      ReadyMerge(n, translated, w, l, c * 2, c * 2 + 1);
    } else {
      assert Posted(n, translated, w, r).NoCall?;
      assert CanSkip(n, translated, w, r);
    }
  }

  lemma {:induction false} Hindmost(n: nat, w: World, r0: nat) returns (r: nat)
    requires |w.level| == n && r0 < n && InLoop(n, w, r0)
    ensures r < n && InLoop(n, w, r) && forall x :: 0 <= x < n ==> w.level[r] <= w.level[x]
    decreases w.level[r0]
  {
    if x: nat :| x < n && w.level[x] < w.level[r0] {
      PowMonotone(w.level[x], w.level[r0]);
      r := Hindmost(n, w, x);
    } else {
      r := r0;
    }
  }

  lemma {:induction false} PowMonotone(a: nat, b: nat)
    requires a <= b
    ensures Pow2(a) <= Pow2(b)
  {
    if a < b { PowMonotone(a, b - 1); }
  }

  /** The calls of two neighbouring blocks whose members are all ready complete. */
  lemma ReadyMerge(n: nat, translated: seq<nat>, w: World, l: nat, low: nat, high: nat)
    requires Shape(n, translated, w) && AllReady(n, translated, w, l, low) && AllReady(n, translated, w, l, high)
    requires low % 2 == 0 && high == low + 1 && Times(high, Pow2(l)) < n
    ensures CanMerge(n, translated, w, Times(low, Pow2(l)), Times(high, Pow2(l)))
  {
    var r, s := Times(low, Pow2(l)), Times(high, Pow2(l));
    assert r < n;
    ReadySide(n, translated, w, l, low, high, r, s, false);
    ReadySide(n, translated, w, l, high, low, s, r, true);
  }

  lemma ReadySide(n: nat, translated: seq<nat>, w: World, l: nat, id: nat, other: nat, r: nat, s: nat, high: bool)
    requires Shape(n, translated, w) && AllReady(n, translated, w, l, id) && AllReady(n, translated, w, l, other)
    requires other == (if id % 2 == 0 then id + 1 else id - 1) && high == (id % 2 == 1)
    requires r == Times(id, Pow2(l)) < n && s == Times(other, Pow2(l)) < n
    ensures r in w.comm[r] && AllCall(n, translated, w, w.comm[r], w.comm[s], high)
  {
    ReadyFirst(n, translated, w, l, id);
    ReadyFirst(n, translated, w, l, other);
    ReadyCalls(n, translated, w, l, id, other);
  }

  /** The first rank of the block has it as its communicator. */
  predicate FirstHas(n: nat, translated: seq<nat>, w: World, l: nat, id: nat)
    requires Shape(n, translated, w)
  {
    var first := Times(id, Pow2(l));
    first < n && w.comm[first] == Block(n, Pow2(l), id) && first in w.comm[first] && w.comm[first][0] == first
  }

  lemma ReadyFirst(n: nat, translated: seq<nat>, w: World, l: nat, id: nat)
    requires Shape(n, translated, w) && AllReady(n, translated, w, l, id) && Times(id, Pow2(l)) < n
    ensures FirstHas(n, translated, w, l, id)
  {
    var first := Times(id, Pow2(l));
    QuotientUnique(first, Pow2(l), id);
    BlockMember(n, Pow2(l), id, first);
    assert Ready(n, translated, w, first, l, id);
  }

  /** The even block of the two around a rank that has a partner block. */
  lemma Partners(n: nat, l: nat, r: nat)
    requires r < n && HasPartner(n, l, r)
    ensures Times(BlockOf(n, l + 1, r) * 2 + 1, Pow2(l)) < n
  {
    HalfBlock(r, Pow2(l));
    QuotientBounds(r, Pow2(l));
  }

  predicate AllReady(n: nat, translated: seq<nat>, w: World, l: nat, id: nat)
    requires Shape(n, translated, w)
  {
    forall x: nat :: x in Block(n, Pow2(l), id) ==> Ready(n, translated, w, x, l, id)
  }

  lemma BlockReady(n: nat, translated: seq<nat>, w: World, r: nat, id: nat)
    requires Inv(n, translated, w) && r < n && InLoop(n, w, r) && HasPartner(n, w.level[r], r)
    requires forall x :: 0 <= x < n ==> w.level[r] <= w.level[x]
    requires id / 2 == BlockOf(n, w.level[r] + 1, r) && Times(id / 2 * 2 + 1, Pow2(w.level[r])) < n
    ensures AllReady(n, translated, w, w.level[r], id)
  {
    forall x: nat | x in Block(n, Pow2(w.level[r]), id) ensures Ready(n, translated, w, x, w.level[r], id) {
      MemberReady(n, translated, w, r, x, id);
    }
  }

  /** The members of block `id` all call for the block `other` beside it. */
  lemma ReadyCalls(n: nat, translated: seq<nat>, w: World, l: nat, id: nat, other: nat)
    requires Shape(n, translated, w) && AllReady(n, translated, w, l, id)
    requires other == if id % 2 == 0 then id + 1 else id - 1
    requires Times(id, Pow2(l)) < n && FirstHas(n, translated, w, l, other)
    ensures var r, s := Times(id, Pow2(l)), Times(other, Pow2(l));
      AllCall(n, translated, w, Block(n, Pow2(l), id), w.comm[s], id % 2 == 1)
  {
    var a, b := Block(n, Pow2(l), id), w.comm[Times(other, Pow2(l))];
    forall x: nat | x in a
      ensures x < n && w.comm[x] == a && InLoop(n, w, x) &&
        Posted(n, translated, w, x) == Create(translated[b[0]], id % 2 == 1)
    {
      assert Ready(n, translated, w, x, l, id);
    }
  }

  /** A member of block `id` of level `l` that has this block as its communicator and calls for the
      block beside it. */
  predicate Ready(n: nat, translated: seq<nat>, w: World, x: nat, l: nat, id: nat)
    requires Shape(n, translated, w)
  {
    x < n && w.comm[x] == Block(n, Pow2(l), id) && InLoop(n, w, x) && Times(id / 2 * 2 + 1, Pow2(l)) < n &&
    Posted(n, translated, w, x) ==
      if id % 2 == 0 then Create(translated[Times(id + 1, Pow2(l))], false)
      else Create(translated[Times(id - 1, Pow2(l))], true)
  }

  /** A member of one of the two blocks around a hindmost rank has not gone ahead. */
  lemma MemberReady(n: nat, translated: seq<nat>, w: World, r: nat, x: nat, id: nat)
    requires Inv(n, translated, w) && r < n && InLoop(n, w, r) && HasPartner(n, w.level[r], r)
    requires forall y :: 0 <= y < n ==> w.level[r] <= w.level[y]
    requires x in Block(n, Pow2(w.level[r]), id) && id / 2 == BlockOf(n, w.level[r] + 1, r)
    requires Times(id / 2 * 2 + 1, Pow2(w.level[r])) < n
    ensures Ready(n, translated, w, x, w.level[r], id)
  {
    var l := w.level[r];
    BlockMember(n, Pow2(l), id, x);
    HalfBlock(x, Pow2(l));
    assert Merging(n, l, r, x);
    PartnerShared(n, l, r, x);
    assert w.level[x] == l;
    assert OwnBlock(n, w, x);
  }

  /** Every step moves a rank on, and no rank goes round more often than it takes to reach `n`, so
      there are finitely many steps; `Rounds` counts what is left of them. */
  function Rounds(n: nat, level: seq<nat>): nat {
    if level == [] then 0
    else
      var l := level[|level| - 1];
      Rounds(n, level[..|level| - 1]) + if l <= n then n + 1 - l else 0
  }

  lemma {:induction false} RoundsDecrease(n: nat, a: seq<nat>, b: seq<nat>, r: nat)
    requires |a| == |b| && r < |a| && a[r] < b[r] && a[r] <= n
    requires forall i :: 0 <= i < |a| ==> a[i] <= b[i]
    ensures Rounds(n, b) < Rounds(n, a)
  {
    var k := |a| - 1;
    if r == k { RoundsWeaken(n, a[..k], b[..k]); } else { RoundsDecrease(n, a[..k], b[..k], r); }
  }

  lemma {:induction false} RoundsWeaken(n: nat, a: seq<nat>, b: seq<nat>)
    requires |a| == |b| && forall i :: 0 <= i < |a| ==> a[i] <= b[i]
    ensures Rounds(n, b) <= Rounds(n, a)
  {
    if a == [] {
    } else {
      RoundsWeaken(n, a[..|a| - 1], b[..|b| - 1]);
    }
  }

  lemma {:induction false} LevelSmall(k: nat)
    ensures k < Pow2(k)
  {
    if k == 0 {
    } else {
      LevelSmall(k - 1);
    }
  }

  lemma StepsEnd(n: nat, translated: seq<nat>, w: World, r: nat, s: nat)
    requires Inv(n, translated, w)
    ensures CanSkip(n, translated, w, r) ==> Rounds(n, Skip(w, r).level) < Rounds(n, w.level)
    ensures CanMerge(n, translated, w, r, s) ==> Rounds(n, Merge(w, r, s).level) < Rounds(n, w.level)
  {
    if r < n {
      LevelSmall(w.level[r]);
      if CanSkip(n, translated, w, r) { RoundsDecrease(n, w.level, Skip(w, r).level, r); }
      if CanMerge(n, translated, w, r, s) {
        assert r in w.comm[r] + w.comm[s];
        assert InLoop(n, w, r);
        RoundsDecrease(n, w.level, Merge(w, r, s).level, r);
      }
    }
  }

  /** When all loops have ended, every rank has the whole group in order, and one communicator. */
  lemma WholeGroup(n: nat, translated: seq<nat>, w: World, r: nat)
    requires Inv(n, translated, w) && r < n && forall x: nat :: x < n ==> !InLoop(n, w, x)
    ensures w.comm[r] == seq(n, i requires 0 <= i => i) && w.held[r] == {w.handle[r]} && n <= Pow2(w.level[r])
  {
    var m := Pow2(w.level[r]);
    assert !InLoop(n, w, r) && Times(0, m) == 0;
    QuotientUnique(r, m, 0);
    assert OwnBlock(n, w, r);
    assert w.comm[r] == Block(n, m, 0);
  }

  ghost predicate Next(n: nat, translated: seq<nat>, w: World, w': World)
    requires Shape(n, translated, w)
  {
    (exists r: nat :: CanSkip(n, translated, w, r) && w' == Skip(w, r)) ||
    (exists r: nat, s: nat :: CanMerge(n, translated, w, r, s) && w' == Merge(w, r, s))
  }

  ghost predicate Run(n: nat, translated: seq<nat>, ws: seq<World>) {
    ws != [] && ws[0] == Init(n) && forall i :: 0 <= i < |ws| - 1 ==> Leads(n, translated, ws[i], ws[i + 1])
  }

  ghost predicate Leads(n: nat, translated: seq<nat>, w: World, w': World) {
    Shape(n, translated, w) && Next(n, translated, w, w')
  }

  /** Every order in which the calls can complete keeps the invariant and is finite. */
  lemma {:induction false} RunInv(n: nat, translated: seq<nat>, ws: seq<World>)
    requires |translated| == n && forall i, j :: 0 <= i < n && 0 <= j < n && i != j ==> translated[i] != translated[j]
    requires Run(n, translated, ws)
    ensures Inv(n, translated, ws[|ws| - 1])
    ensures |ws| + Rounds(n, ws[|ws| - 1].level) <= 1 + Rounds(n, Init(n).level)
  {
    var k := |ws| - 1;
    if k == 0 {
      InitInv(n, translated);
    } else {
      RunInv(n, translated, ws[..k]);
      assert Leads(n, translated, ws[k - 1], ws[k - 1 + 1]);
      NextInv(n, translated, ws[k - 1], ws[k]);
    }
  }

  /** A run can only stop with the whole group as the one communicator of every rank. */
  lemma StopsWhole(n: nat, translated: seq<nat>, w: World)
    requires Inv(n, translated, w)
    ensures (exists w' :: Next(n, translated, w, w')) || forall r: nat :: r < n ==>
      w.comm[r] == seq(n, i requires 0 <= i => i) && w.held[r] == {w.handle[r]} && n <= Pow2(w.level[r])
  {
    if exists r: nat :: r < n && InLoop(n, w, r) {
      DeadlockFree(n, translated, w);
      if r: nat :| CanSkip(n, translated, w, r) {
        assert Next(n, translated, w, Skip(w, r));
      } else {
        var r: nat, s: nat :| CanMerge(n, translated, w, r, s);
        assert Next(n, translated, w, Merge(w, r, s));
      }
    } else {
      forall r: nat | r < n
        ensures w.comm[r] == seq(n, i requires 0 <= i => i) && w.held[r] == {w.handle[r]} && n <= Pow2(w.level[r])
      {
        WholeGroup(n, translated, w, r);
      }
    }
  }

  /** A round is only entered with a merge size below the size of the group. */
  lemma {:induction false} RoundsEntered(n: nat, translated: seq<nat>, ws: seq<World>, r: nat)
    requires |translated| == n && forall i, j :: 0 <= i < n && 0 <= j < n && i != j ==> translated[i] != translated[j]
    requires Run(n, translated, ws) && r < n
    ensures var w := ws[|ws| - 1];
      |w.level| == n && (w.level[r] > 0 ==> Pow2(w.level[r] - 1) < n)
  {
    var k := |ws| - 1;
    RunInv(n, translated, ws);
    if k > 0 {
      RunInv(n, translated, ws[..k]);
      RoundsEntered(n, translated, ws[..k], r);
      assert Leads(n, translated, ws[k - 1], ws[k - 1 + 1]);
      StepEntered(n, translated, ws[k - 1], ws[k], r);
    }
  }

  lemma StepEntered(n: nat, translated: seq<nat>, w: World, w': World, r: nat)
    requires Shape(n, translated, w) && Next(n, translated, w, w') && r < n
    ensures |w'.level| == n && (w'.level[r] == w.level[r] || (w'.level[r] == w.level[r] + 1 && Pow2(w.level[r]) < n))
  {
    if s: nat :| CanSkip(n, translated, w, s) && w' == Skip(w, s) {
    } else {
      var a: nat, b: nat :| CanMerge(n, translated, w, a, b) && w' == Merge(w, a, b);
      if r in w.comm[a] + w.comm[b] { assert InLoop(n, w, r); }
    }
  }

  /** So at the end of a run every rank has gone round its loop as often as the loop of one rank does. */
  lemma RoundsAtEnd(n: nat, translated: seq<nat>, ws: seq<World>, r: nat)
    requires |translated| == n && forall i, j :: 0 <= i < n && 0 <= j < n && i != j ==> translated[i] != translated[j]
    requires Run(n, translated, ws) && r < n
    ensures var w := ws[|ws| - 1];
      Shape(n, translated, w) &&
      ((exists w' :: Next(n, translated, w, w')) ||
       (n <= Pow2(w.level[r]) && (w.level[r] > 0 ==> Pow2(w.level[r] - 1) < n)))
  {
    RunInv(n, translated, ws);
    RoundsEntered(n, translated, ws, r);
    StopsWhole(n, translated, ws[|ws| - 1]);
  }

  lemma RunExtends(n: nat, translated: seq<nat>, ws: seq<World>, w': World)
    requires Run(n, translated, ws) && Leads(n, translated, ws[|ws| - 1], w')
    ensures Run(n, translated, ws + [w'])
  {
    var more := ws + [w'];
    forall i | 0 <= i < |more| - 1 ensures Leads(n, translated, more[i], more[i + 1]) {
      if i < |ws| - 1 { assert Leads(n, translated, ws[i], ws[i + 1]); }
    }
  }

  /** And every run can be continued until all loops have ended. */
  lemma {:induction false} RunGoesOn(n: nat, translated: seq<nat>, ws: seq<World>) returns (all: seq<World>)
    requires |translated| == n && forall i, j :: 0 <= i < n && 0 <= j < n && i != j ==> translated[i] != translated[j]
    requires Run(n, translated, ws)
    ensures ws <= all && Run(n, translated, all)
    ensures var w := all[|all| - 1];
      |w.level| == n && forall r: nat :: r < n ==> n <= Pow2(w.level[r])
    decreases Rounds(n, ws[|ws| - 1].level)
  {
    var w := ws[|ws| - 1];
    RunInv(n, translated, ws);
    StopsWhole(n, translated, w);
    if w' :| Next(n, translated, w, w') {
      NextInv(n, translated, w, w');
      RunExtends(n, translated, ws, w');
      all := RunGoesOn(n, translated, ws + [w']);
    } else {
      all := ws;
    }
  }

  /** No run has more than `n * (n + 1)` steps. */
  lemma RunsAreShort(n: nat, translated: seq<nat>, ws: seq<World>)
    requires |translated| == n && forall i, j :: 0 <= i < n && 0 <= j < n && i != j ==> translated[i] != translated[j]
    requires Run(n, translated, ws)
    ensures |ws| <= 1 + n * (n + 1)
  {
    RunInv(n, translated, ws);
    AllRounds(n, Init(n).level);
  }

  lemma {:induction false} AllRounds(n: nat, level: seq<nat>)
    requires forall i :: 0 <= i < |level| ==> level[i] == 0
    ensures Rounds(n, level) == |level| * (n + 1)
  {
    if level == [] {
    } else {
      AllRounds(n, level[..|level| - 1]);
      assert (|level| - 1) * (n + 1) + (n + 1) == |level| * (n + 1);
    }
  }

  lemma NextInv(n: nat, translated: seq<nat>, w: World, w': World)
    requires Inv(n, translated, w) && Next(n, translated, w, w')
    ensures Inv(n, translated, w') && Rounds(n, w'.level) < Rounds(n, w.level)
  {
    if r: nat :| CanSkip(n, translated, w, r) && w' == Skip(w, r) {
      SkipInv(n, translated, w, r);
      StepsEnd(n, translated, w, r, r);
    } else {
      var r: nat, s: nat :| CanMerge(n, translated, w, r, s) && w' == Merge(w, r, s);
      MergeInv(n, translated, w, r, s);
      StepsEnd(n, translated, w, r, s);
    }
  }

  // The loop of one rank.

  /** The group ranks on the other side of the intercommunicator of the round, as `MergeIsHalves` has it. */
  function Remote(n: nat, rank: nat, m: nat): seq<nat>
    requires m > 0
  {
    var id := Quotient(rank, m);
    Block(n, m, if id % 2 == 0 then id + 1 else id - 1)
  }

  /** A member of one side finds the other side, and joins both in order. */
  predicate Meet(n: nat, translated: seq<nat>, m: nat, a: seq<nat>, b: seq<nat>, x: nat)
    requires x < n == |translated| && m > 0
  {
    Remote(n, x, m) == (if x in a then b else a) &&
    Joined(CallOf(n, translated, x, m), if x in a then a else b, Remote(n, x, m)) == a + b
  }

  predicate Halves(n: nat, m: nat, c: nat, a: seq<nat>, b: seq<nat>) {
    a == Block(n, m, 2 * c) && b == Block(n, m, 2 * c + 1) && Times(2 * c + 1, m) < n
  }

  lemma HalvesJoin(n: nat, translated: seq<nat>, m: nat, c: nat, a: seq<nat>, b: seq<nat>, x: nat)
    requires n == |translated| && m > 0 && Halves(n, m, c, a, b) && x in a + b
    ensures x < n && Meet(n, translated, m, a, b, x)
  {
    BlockMember(n, m, 2 * c, x);
    BlockMember(n, m, 2 * c + 1, x);
  }

  lemma MergeRemote(n: nat, translated: seq<nat>, w: World, r: nat, s: nat, x: nat)
    requires Inv(n, translated, w) && CanMerge(n, translated, w, r, s) && x in w.comm[r] + w.comm[s] && x < n
    ensures Meet(n, translated, Pow2(w.level[r]), w.comm[r], w.comm[s], x)
  {
    var m, c := Pow2(w.level[r]), BlockOf(n, w.level[r] + 1, r);
    assert Halves(n, m, c, w.comm[r], w.comm[s]) by { MergeIsHalves(n, translated, w, r, s); }
    HalvesJoin(n, translated, m, c, w.comm[r], w.comm[s], x);
  }

  lemma CallersComm(n: nat, translated: seq<nat>, w: World, r: nat, s: nat, x: nat)
    requires Shape(n, translated, w) && CanMerge(n, translated, w, r, s) && x in w.comm[r] + w.comm[s] && x < n
    ensures w.comm[x] == if x in w.comm[r] then w.comm[r] else w.comm[s]
  {
  }

  /** Whenever two calls complete together, each side is what the ranks of the other have as `Remote`,
      and what all of them join is the merged communicator. */
  lemma MergeSides(n: nat, translated: seq<nat>, w: World, r: nat, s: nat, x: nat)
    requires Inv(n, translated, w) && CanMerge(n, translated, w, r, s) && x in w.comm[r] + w.comm[s] && x < n
    ensures var m := Pow2(w.level[x]);
      Remote(n, x, m) == (if x in w.comm[r] then w.comm[s] else w.comm[r]) &&
      Joined(CallOf(n, translated, x, m), w.comm[x], Remote(n, x, m)) == Merge(w, r, s).comm[x]
  {
    CallersComm(n, translated, w, r, s, x);
    MergeIsLevel(n, translated, w, r, s, x);
    MergeRemote(n, translated, w, r, s, x);
  }

  /** The choice at the top of a round, by the parity of the block. */
  method PostCall(n: nat, translated: seq<nat>, rank: nat, mergeSize: nat) returns (call: Call)
    requires rank < n == |translated| && mergeSize > 0
    ensures call == CallOf(n, translated, rank, mergeSize)
  {
    SourceTerms(n, rank, mergeSize);
    var grpId := rank / mergeSize;
    if grpId % 2 == 0 {
      if (grpId + 1) * mergeSize < n {
        call := Create(translated[(grpId + 1) * mergeSize], false);
      } else {
        call := NoCall;
      }
    } else {
      call := Create(translated[(grpId - 1) * mergeSize], true);
    }
  }

  lemma SourceTerms(n: nat, rank: nat, m: nat)
    requires rank < n && m > 0
    ensures rank / m == Quotient(rank, m)
    ensures (rank / m + 1) * m == Times(rank / m + 1, m)
    ensures rank / m % 2 == 1 ==> (rank / m - 1) * m == Times(rank / m - 1, m) < n
  {
    var id := Quotient(rank, m);
    QuotientIs(rank, m);
    TimesIs(id + 1, m);
    if id % 2 == 1 {
      QuotientBounds(rank, m);
      TimesIs(id - 1, m);
    }
  }

  /** The loop as one rank runs it, the other side of each intercommunicator being given. The calls it
      makes are those of the rank's rounds in the world above; it ends holding one communicator, the
      whole group. */
  method CreateComm(n: nat, translated: seq<nat>, rank: nat, remote: nat -> seq<nat>)
    returns (comm: seq<nat>, handle: nat, held: set<nat>, calls: seq<Call>, ghost rounds: nat)
    requires rank < n == |translated|
    requires forall m: nat :: m > 0 ==> remote(m) == Remote(n, rank, m)
    ensures comm == seq(n, i requires 0 <= i => i) && held == {handle}
    ensures CallsAreOf(n, translated, rank, calls, rounds)
    ensures n <= Pow2(rounds) && (rounds > 0 ==> Pow2(rounds - 1) < n)
  {
    comm, handle, held, calls := [rank], 0, {0}, [];
    var next, mergeSize := 1, 1;
    rounds := 0;
    TimesOne(rank);
    while mergeSize < n
      invariant mergeSize == Pow2(rounds) && held == {handle} && handle < next
      invariant comm == Own(n, rank, mergeSize) && calls == CallsOf(n, translated, rank, rounds)
      invariant rounds > 0 ==> Pow2(rounds - 1) < n
      decreases n - mergeSize
    {
      var call := PostCall(n, translated, rank, mergeSize);
      JoinRemote(n, translated, rank, mergeSize);
      var commOld, ic := handle, next;
      if call.Create? {
        comm := Joined(call, comm, remote(mergeSize));
        held, handle, next := held + {ic, ic + 1}, ic + 1, ic + 2;
      }
      calls := calls + [call];
      if handle != commOld {
        held := held - {ic} - {commOld};
      }
      mergeSize, rounds := mergeSize * 2, rounds + 1;
    }
    LastBlock(n, rank, mergeSize);
    CallsAre(n, translated, rank, rounds);
  }

  /** The block of a rank. */
  function Own(n: nat, rank: nat, m: nat): seq<nat>
    requires m > 0
  {
    Block(n, m, Quotient(rank, m))
  }

  /** Merging with the other side, in the order of the call. */
  function Joined(call: Call, own: seq<nat>, other: seq<nat>): seq<nat> {
    match call
    case NoCall => own
    case Create(_, high) => if high then other + own else own + other
  }

  /** The calls of the first `k` rounds. */
  function CallsOf(n: nat, translated: seq<nat>, rank: nat, k: nat): seq<Call>
    requires rank < n == |translated|
  {
    if k == 0 then [] else CallsOf(n, translated, rank, k - 1) + [CallOf(n, translated, rank, Pow2(k - 1))]
  }

  /** One call for each round, at merge sizes from one on that double. */
  predicate CallsAreOf(n: nat, translated: seq<nat>, rank: nat, calls: seq<Call>, k: nat)
    requires rank < n == |translated|
  {
    |calls| == k && forall i :: 0 <= i < k ==> calls[i] == CallOf(n, translated, rank, Pow2(i))
  }

  lemma {:induction false} CallsAre(n: nat, translated: seq<nat>, rank: nat, k: nat)
    requires rank < n == |translated|
    ensures CallsAreOf(n, translated, rank, CallsOf(n, translated, rank, k), k)
  {
    if k == 0 {
    } else {
      CallsAre(n, translated, rank, k - 1);
    }
  }

  lemma LastBlock(n: nat, rank: nat, m: nat)
    requires rank < n <= m
    ensures Own(n, rank, m) == seq(n, i requires 0 <= i => i)
  {
    assert Times(0, m) == 0;
  }

  /** The merged block is the one of twice the size. */
  lemma JoinRemote(n: nat, translated: seq<nat>, rank: nat, m: nat)
    requires rank < n == |translated| && m > 0
    ensures Own(n, rank, 2 * m) == Joined(CallOf(n, translated, rank, m), Own(n, rank, m), Remote(n, rank, m))
  {
    var id := Quotient(rank, m);
    OwnDoubles(n, rank, m, id / 2);
    if id % 2 == 1 {
      assert id / 2 * 2 + 1 == id;
      QuotientBounds(rank, m);
    }
  }

  lemma OwnDoubles(n: nat, rank: nat, m: nat, c: nat)
    requires m > 0 && c == Quotient(rank, m) / 2
    ensures Own(n, rank, 2 * m) == if Times(c * 2 + 1, m) < n then Block(n, m, c * 2) + Block(n, m, c * 2 + 1)
      else Block(n, m, c * 2)
  {
    HalfBlock(rank, m);
    BlocksJoin(n, m, c);
  }
}
