/** The stack of communicators that a process keeps: every level has the communicator of its own
    group, and caches the communicators made with other groups. Handles made by MPI are numbered. */
module ProcMap {
  import opened GroupSizes
  import opened Options

  /** The communicators made with group `to`. */
  datatype Cached = Cached(to: string, inter: nat, intra: nat)

  datatype Level = Level(world: int, local: nat, layout: Layout, cache: seq<Cached>)

  /** `freed` lists the handles that have been freed, in order; `worlds` those made to
      extend a level with: by the worker loop for its jobs, and by a scheduler for its controllers. */
  datatype Comms = Comms(levels: seq<Level>, next: nat, freed: seq<nat>, worlds: seq<nat>)

  function Find(cache: seq<Cached>, to: string): Option<Cached> {
    if cache == [] then None
    else if cache[|cache| - 1].to == to then Some(cache[|cache| - 1])
    else Find(cache[..|cache| - 1], to)
  }

  /** Levels are searched from the latest on. */
  function Lookup(levels: seq<Level>, to: string): Option<Cached> {
    if levels == [] then None
    else
      var k := |levels| - 1;
      var here := Find(levels[k].cache, to);
      if here.Some? then here else Lookup(levels[..k], to)
  }

  function Extended(c: Comms, world: int, layout: Layout): Comms {
    c.(levels := c.levels + [Level(world, c.next, layout, [])], next := c.next + 1)
  }

  /** The worker loop makes the communicator of a job, or a scheduler that of its controllers. */
  function WorldMade(c: Comms): Comms {
    c.(next := c.next + 1, worlds := c.worlds + [c.next])
  }

  function Asked(c: Comms, to: string): Comms
    requires c.levels != []
  {
    if Lookup(c.levels, to).Some? then c
    else
      var k := |c.levels| - 1;
      var level := c.levels[k];
      var made := Cached(to, c.next, c.next + 1);
      c.(levels := c.levels[..k] + [level.(cache := level.cache + [made])], next := c.next + 2)
  }

  function CacheHandles(cache: seq<Cached>): seq<nat> {
    if cache == [] then []
    else CacheHandles(cache[..|cache| - 1]) + [cache[|cache| - 1].intra, cache[|cache| - 1].inter]
  }

  function Popped(c: Comms): Comms
    requires c.levels != []
  {
    var k := |c.levels| - 1;
    c.(levels := c.levels[..k], freed := c.freed + CacheHandles(c.levels[k].cache) + [c.levels[k].local])
  }

  /** The handles that the levels hold. */
  function Owned(levels: seq<Level>): seq<nat> {
    if levels == [] then []
    else
      var k := |levels| - 1;
      Owned(levels[..k]) + [levels[k].local] + CacheHandles(levels[k].cache)
  }

  /** Every handle made so far is held by one level, or has been freed once, or is the communicator of a
      job; and it is only one of these. */
  ghost predicate Inv(c: Comms) {
    forall h: nat :: HandleCount(c, h) == if h < c.next then 1 else 0
  }

  function HandleCount(c: Comms, h: nat): nat {
    multiset(Owned(c.levels))[h] + multiset(c.freed)[h] + multiset(c.worlds)[h]
  }

  /** New handles that a level takes hold of. */
  lemma OwnedMore(c: Comms, d: Comms, more: seq<nat>)
    requires Inv(c) && d.freed == c.freed && d.worlds == c.worlds && Owned(d.levels) == Owned(c.levels) + more
    requires d.next == c.next + |more| && forall h: nat :: multiset(more)[h] == if c.next <= h < d.next then 1 else 0
    ensures Inv(d)
  {
    assert multiset(Owned(d.levels)) == multiset(Owned(c.levels)) + multiset(more);
    forall h: nat ensures HandleCount(d, h) == if h < d.next then 1 else 0 {
      assert HandleCount(d, h) == HandleCount(c, h) + multiset(more)[h];
    }
  }

  lemma WorldInv(c: Comms)
    requires Inv(c)
    ensures Inv(WorldMade(c))
  {
    var d := WorldMade(c);
    forall h: nat ensures HandleCount(d, h) == if h < d.next then 1 else 0 {
      assert HandleCount(d, h) == HandleCount(c, h) + if h == c.next then 1 else 0;
    }
  }

  lemma ExtendInv(c: Comms, world: int, layout: Layout)
    requires Inv(c)
    ensures Inv(Extended(c, world, layout))
  {
    var d := Extended(c, world, layout);
    assert d.levels[..|c.levels|] == c.levels;
    assert Owned(d.levels) == Owned(c.levels) + [c.next];
    OwnedMore(c, d, [c.next]);
  }

  lemma IntercommInv(c: Comms, to: string)
    requires Inv(c) && c.levels != []
    ensures Inv(Asked(c, to))
  {
    var d, k := Asked(c, to), |c.levels| - 1;
    if Lookup(c.levels, to).None? {
      assert d.levels[..k] == c.levels[..k];
      var made := Cached(to, c.next, c.next + 1);
      assert (c.levels[k].cache + [made])[..|c.levels[k].cache|] == c.levels[k].cache;
      assert Owned(d.levels) == Owned(c.levels) + [c.next + 1, c.next];
      OwnedMore(c, d, [c.next + 1, c.next]);
    }
  }

  lemma PopBackInv(c: Comms)
    requires Inv(c) && c.levels != []
    ensures Inv(Popped(c))
  {
    var d, k := Popped(c), |c.levels| - 1;
    var mine := CacheHandles(c.levels[k].cache);
    assert multiset(d.freed) == multiset(c.freed) + multiset(mine) + multiset([c.levels[k].local]);
    assert multiset(Owned(c.levels)) == multiset(Owned(d.levels)) + multiset([c.levels[k].local]) + multiset(mine);
    forall h: nat ensures HandleCount(d, h) == HandleCount(c, h) {}
  }

  lemma {:induction false} FindOwned(cache: seq<Cached>, to: string)
    ensures Find(cache, to).Some? ==>
      (Find(cache, to).value.to == to && Find(cache, to).value.inter in CacheHandles(cache) &&
        Find(cache, to).value.intra in CacheHandles(cache))
  {
    if cache != [] && cache[|cache| - 1].to != to { FindOwned(cache[..|cache| - 1], to); }
  }

  /** What a search finds is held by a level, so it has not been freed. */
  lemma FoundIsLive(c: Comms, levels: seq<Level>, to: string)
    requires Inv(c) && levels <= c.levels && Lookup(levels, to).Some?
    ensures var x := Lookup(levels, to).value;
      x.inter in Owned(levels) && x.intra in Owned(levels) && x.inter !in c.freed && x.intra !in c.freed
  {
    var x := Lookup(levels, to).value;
    FoundIsOwned(levels, to);
    OwnedPrefix(levels, c.levels);
    OwnedIsLive(c, x.inter);
    OwnedIsLive(c, x.intra);
  }

  lemma OwnedIsLive(c: Comms, h: nat)
    requires Inv(c) && h in Owned(c.levels)
    ensures h !in c.freed
  {
    assert multiset(Owned(c.levels))[h] > 0;
    assert HandleCount(c, h) <= 1;
    assert multiset(c.freed)[h] == 0;
  }

  lemma {:induction false} FoundIsOwned(levels: seq<Level>, to: string)
    requires Lookup(levels, to).Some?
    ensures var x := Lookup(levels, to).value; x.inter in Owned(levels) && x.intra in Owned(levels)
    decreases |levels|
  {
    var k := |levels| - 1;
    FindOwned(levels[k].cache, to);
    if Find(levels[k].cache, to).None? {
      FoundIsOwned(levels[..k], to);
    }
  }

  lemma {:induction false} OwnedPrefix(a: seq<Level>, b: seq<Level>)
    requires a <= b
    ensures Owned(a) <= Owned(b)
    decreases |b|
  {
    if |a| < |b| {
      assert a <= b[..|b| - 1];
      OwnedPrefix(a, b[..|b| - 1]);
    } else {
      assert a == b;
    }
  }

  // Runs.

  /** What a process does at a level: ask for the communicators of a group, or work at a level above
      until it is popped, as the worker loop does with every job, and a scheduler on a controller rank from
      its constructor to its destructor. */
  datatype Op = Ask(to: string) | Nest(layout: Layout, ops: seq<Op>)

  function JobLevel(c: Comms, layout: Layout): Comms {
    Extended(WorldMade(c), c.next, layout)
  }

  function RunOp(c: Comms, op: Op): (d: Comms)
    requires c.levels != []
    ensures |d.levels| == |c.levels|
    decreases op, 0
  {
    match op
    case Ask(to) => Asked(c, to)
    case Nest(layout, ops) => Popped(RunOps(JobLevel(c, layout), ops))
  }

  function RunOps(c: Comms, ops: seq<Op>): (d: Comms)
    requires c.levels != []
    ensures |d.levels| == |c.levels|
    decreases ops, 1
  {
    if ops == [] then c else RunOp(RunOps(c, ops[..|ops| - 1]), ops[|ops| - 1])
  }

  /** Only the cache of the latest level has grown. */
  predicate Grown(a: seq<Level>, b: seq<Level>) {
    |a| == |b| > 0 &&
    var k := |a| - 1;
    a[..k] == b[..k] && b[k].(cache := a[k].cache) == a[k] && a[k].cache <= b[k].cache
  }

  lemma {:induction false} NestedLevels(c: Comms, ops: seq<Op>)
    requires c.levels != []
    ensures Grown(c.levels, RunOps(c, ops).levels)
    decreases ops
  {
    if ops == [] {
    } else {
      var d := RunOps(c, ops[..|ops| - 1]);
      NestedLevels(c, ops[..|ops| - 1]);
      match ops[|ops| - 1]
      case Ask(to) =>
      case Nest(layout, inner) => NestedLevels(JobLevel(d, layout), inner);
    }
  }

  /** A job leaves the stack of levels as it was. */
  lemma NestRestores(c: Comms, layout: Layout, ops: seq<Op>)
    requires c.levels != []
    ensures RunOp(c, Nest(layout, ops)).levels == c.levels
  {
    NestedLevels(JobLevel(c, layout), ops);
  }

  /** All jobs, those inside of jobs included. */
  function Jobs(ops: seq<Op>): nat {
    if ops == [] then 0
    else
      var op := ops[|ops| - 1];
      Jobs(ops[..|ops| - 1]) + if op.Nest? then 1 + Jobs(op.ops) else 0
  }

  /** Every job adds its communicator, and nothing takes one away. */
  lemma {:induction false} WorldsGrow(c: Comms, ops: seq<Op>)
    requires c.levels != []
    ensures c.worlds <= RunOps(c, ops).worlds && |RunOps(c, ops).worlds| == |c.worlds| + Jobs(ops)
    decreases ops
  {
    if ops == [] {
    } else {
      var d := RunOps(c, ops[..|ops| - 1]);
      WorldsGrow(c, ops[..|ops| - 1]);
      match ops[|ops| - 1]
      case Ask(_) =>
      case Nest(layout, inner) => WorldsGrow(JobLevel(d, layout), inner);
    }
  }

  /** After a job its communicator is not held by any level, and has not been freed. */
  lemma JobWorldStays(c: Comms, layout: Layout, ops: seq<Op>)
    requires Inv(c) && c.levels != []
    ensures var d := RunOp(c, Nest(layout, ops));
      c.next < d.next && c.next in d.worlds && c.next !in Owned(d.levels) && c.next !in d.freed &&
      |d.worlds| == |c.worlds| + 1 + Jobs(ops)
  {
    var d, h := RunOp(c, Nest(layout, ops)), c.next;
    WorldsGrow(JobLevel(c, layout), ops);
    JobInv(c, layout, ops);
    assert d.worlds[|c.worlds|] == h;
    assert multiset(d.worlds)[h] > 0 && HandleCount(d, h) <= 1;
    assert multiset(Owned(d.levels))[h] == 0 && multiset(d.freed)[h] == 0;
  }

  lemma JobInv(c: Comms, layout: Layout, ops: seq<Op>)
    requires Inv(c) && c.levels != []
    ensures Inv(RunOp(c, Nest(layout, ops)))
    decreases ops, 1
  {
    WorldInv(c);
    ExtendInv(WorldMade(c), c.next, layout);
    RunInv(JobLevel(c, layout), ops);
    PopBackInv(RunOps(JobLevel(c, layout), ops));
  }

  lemma {:induction false} RunInv(c: Comms, ops: seq<Op>)
    requires Inv(c) && c.levels != []
    ensures Inv(RunOps(c, ops))
    decreases ops, 0
  {
    if ops == [] {
    } else {
      var d := RunOps(c, ops[..|ops| - 1]);
      RunInv(c, ops[..|ops| - 1]);
      match ops[|ops| - 1]
      case Ask(to) => IntercommInv(d, to);
      case Nest(layout, inner) => JobInv(d, layout, inner);
    }
  }

  /** The handle that asking for a group gives. */
  function Handle(c: Comms, to: string): nat
    requires c.levels != []
  {
    var found := Lookup(Asked(c, to).levels, to);
    if found.Some? then found.value.inter else 0
  }

  // Which entry is found.

  /** An entry of a level. */
  predicate Has(levels: seq<Level>, k: nat, x: Cached) {
    k < |levels| && x in levels[k].cache
  }

  /** No two entries of the levels are for the same group. */
  ghost predicate OnePerGroup(levels: seq<Level>) {
    (forall k: nat, j: nat, x, y :: Has(levels, k, x) && Has(levels, j, y) && x.to == y.to ==> k == j && x == y)
  }

  lemma {:induction false} FindMeans(cache: seq<Cached>, to: string)
    ensures Find(cache, to).Some? <==> exists x :: x in cache && x.to == to
    ensures Find(cache, to).Some? ==> Find(cache, to).value in cache && Find(cache, to).value.to == to
  {
    if cache == [] {
    } else {
      var front, last := cache[..|cache| - 1], cache[|cache| - 1];
      assert cache == front + [last];
      FindMeans(front, to);
      if last.to == to { assert last in cache; }
    }
  }

  /** It is the entry of a level, and no later level has one for its group. */
  ghost predicate Latest(levels: seq<Level>, k: nat, x: Cached) {
    Has(levels, k, x) && forall j: nat, y :: Has(levels, j, y) && y.to == x.to ==> j <= k
  }

  /** A search finds an entry for the group of the latest level that has one, and finds one if any level has. */
  lemma {:induction false} LookupMeans(levels: seq<Level>, to: string)
    ensures Lookup(levels, to).Some? <==> exists k: nat, x :: Has(levels, k, x) && x.to == to
    ensures Lookup(levels, to).Some? ==> Lookup(levels, to).value.to == to
    ensures Lookup(levels, to).Some? ==> exists k: nat :: Latest(levels, k, Lookup(levels, to).value)
  {
    if levels == [] {
    } else {
      var k, rest := |levels| - 1, levels[..|levels| - 1];
      LookupMeans(rest, to);
      FindMeans(levels[k].cache, to);
      forall j: nat, x | j < k ensures Has(rest, j, x) <==> Has(levels, j, x) {}
      if Find(levels[k].cache, to).Some? {
        assert Latest(levels, k, Find(levels[k].cache, to).value);
      } else if Lookup(rest, to).Some? {
        var found := Lookup(rest, to).value;
        var i: nat :| Latest(rest, i, found);
        forall j: nat, y | Has(levels, j, y) && y.to == to ensures j <= i {
          if j < k { assert Has(rest, j, y); }
        }
        assert Latest(levels, i, found);
      }
    }
  }

  /** With one entry for each group, the entry of any level is what a search finds. */
  lemma EntryIsFound(levels: seq<Level>, k: nat, x: Cached)
    requires OnePerGroup(levels) && Has(levels, k, x)
    ensures Lookup(levels, x.to) == Some(x)
  {
    LookupMeans(levels, x.to);
    var found := Lookup(levels, x.to).value;
    var j: nat :| Latest(levels, j, found);
  }

  lemma AskedOnePerGroup(c: Comms, to: string)
    requires c.levels != [] && OnePerGroup(c.levels)
    ensures OnePerGroup(Asked(c, to).levels)
  {
    var d, n := Asked(c, to), |c.levels| - 1;
    LookupMeans(c.levels, to);
    if Lookup(c.levels, to).None? {
      var made := Cached(to, c.next, c.next + 1);
      forall k: nat, x | Has(d.levels, k, x) ensures Has(c.levels, k, x) || (k == n && x == made) {}
      forall k: nat, j: nat, x, y | Has(d.levels, k, x) && Has(d.levels, j, y) && x.to == y.to
        ensures k == j && x == y
      {
        assert Has(c.levels, k, x) || (k == n && x == made);
        assert Has(c.levels, j, y) || (j == n && y == made);
      }
    }
  }

  lemma FewerOnePerGroup(levels: seq<Level>, n: nat)
    requires OnePerGroup(levels) && n <= |levels|
    ensures OnePerGroup(levels[..n])
  {
    forall k: nat, x | Has(levels[..n], k, x) ensures Has(levels, k, x) {}
  }

  lemma ExtendedOnePerGroup(c: Comms, world: int, layout: Layout)
    requires OnePerGroup(c.levels)
    ensures OnePerGroup(Extended(c, world, layout).levels)
  {
    var d := Extended(c, world, layout);
    forall k: nat, x | Has(d.levels, k, x) ensures Has(c.levels, k, x) {}
  }

  lemma {:induction false} RunOnePerGroup(c: Comms, ops: seq<Op>)
    requires c.levels != [] && OnePerGroup(c.levels)
    ensures OnePerGroup(RunOps(c, ops).levels)
    decreases ops
  {
    if ops == [] {
    } else {
      var d := RunOps(c, ops[..|ops| - 1]);
      RunOnePerGroup(c, ops[..|ops| - 1]);
      match ops[|ops| - 1]
      case Ask(to) => AskedOnePerGroup(d, to);
      case Nest(layout, inner) =>
        var e := JobLevel(d, layout);
        ExtendedOnePerGroup(WorldMade(d), d.next, layout);
        RunOnePerGroup(e, inner);
        FewerOnePerGroup(RunOps(e, inner).levels, |e.levels| - 1);
    }
  }

  /** From the first level on, whatever has been done: an entry of any level that lives is what asking for
      its group gives, at every level above; and its two communicators are different ones. */
  lemma EntryIsAsked(world: int, layout: Layout, ops: seq<Op>, k: nat, x: Cached)
    requires Has(RunOps(Extended(Comms([], 0, [], []), world, layout), ops).levels, k, x)
    ensures var c := RunOps(Extended(Comms([], 0, [], []), world, layout), ops);
      Lookup(c.levels, x.to) == Some(x) && Asked(c, x.to) == c && Handle(c, x.to) == x.inter && x.inter != x.intra
  {
    var start := Comms([], 0, [], []);
    assert forall h: nat :: HandleCount(start, h) == 0;
    var first := Extended(start, world, layout);
    ExtendInv(start, world, layout);
    ExtendedOnePerGroup(start, world, layout);
    RunOnePerGroup(first, ops);
    RunInv(first, ops);
    var c := RunOps(first, ops);
    EntryIsFound(c.levels, k, x);
    EntryDiffers(c, k, x);
  }

  lemma EntryDiffers(c: Comms, k: nat, x: Cached)
    requires Inv(c) && Has(c.levels, k, x)
    ensures x.inter != x.intra
  {
    EntryTwice(c.levels[k].cache, x);
    LevelOwned(c.levels, k, x.inter);
    assert HandleCount(c, x.inter) <= 1;
  }

  lemma {:induction false} EntryTwice(cache: seq<Cached>, x: Cached)
    requires x in cache
    ensures x.inter == x.intra ==> multiset(CacheHandles(cache))[x.inter] >= 2
  {
    var front, last := cache[..|cache| - 1], cache[|cache| - 1];
    assert cache == front + [last];
    assert multiset(CacheHandles(cache)) == multiset(CacheHandles(front)) + multiset([last.intra, last.inter]);
    if last != x { EntryTwice(front, x); }
  }

  lemma CountJoined(a: seq<nat>, b: seq<nat>, c: seq<nat>, h: nat)
    ensures multiset(a + b + c)[h] == multiset(a)[h] + multiset(b)[h] + multiset(c)[h]
  {
  }

  lemma LevelOwned(levels: seq<Level>, k: nat, h: nat)
    requires k < |levels|
    ensures multiset(Owned(levels))[h] >= multiset(CacheHandles(levels[k].cache))[h]
  {
    var upTo := levels[..k + 1];
    assert upTo[..k] == levels[..k];
    OwnedPrefix(upTo, levels);
    var rest := Owned(levels)[|Owned(upTo)|..];
    assert Owned(levels) == Owned(upTo) + rest;
    CountJoined(Owned(levels[..k]) + [levels[k].local], CacheHandles(levels[k].cache), rest, h);
  }

  /** Of each entry the merged communicator is freed first, the other one right after it. */
  lemma {:induction false} CacheHandlesAt(cache: seq<Cached>, i: nat)
    requires i < |cache|
    ensures |CacheHandles(cache)| == 2 * |cache|
    ensures CacheHandles(cache)[2 * i] == cache[i].intra && CacheHandles(cache)[2 * i + 1] == cache[i].inter
  {
    var n := |cache| - 1;
    CacheHandlesLength(cache[..n]);
    if i < n { CacheHandlesAt(cache[..n], i); }
  }

  lemma {:induction false} CacheHandlesLength(cache: seq<Cached>)
    ensures |CacheHandles(cache)| == 2 * |cache|
  {
    if cache == [] {
    } else {
      CacheHandlesLength(cache[..|cache| - 1]);
    }
  }

  // Asking.

  lemma AskFinds(c: Comms, to: string)
    requires c.levels != []
    ensures Lookup(Asked(c, to).levels, to).Some?
    ensures Lookup(c.levels, to).Some? ==> Asked(c, to) == c
  {
  }

  /** A search finds an entry for the group, whose intercommunicator is the handle. */
  predicate FoundAs(levels: seq<Level>, to: string, inter: nat) {
    Lookup(levels, to).Some? && Lookup(levels, to).value.to == to && Lookup(levels, to).value.inter == inter
  }

  lemma AskedEntry(c: Comms, to: string)
    requires c.levels != []
    ensures FoundAs(Asked(c, to).levels, to, Handle(c, to))
    ensures Lookup(c.levels, to).None? ==> Lookup(Asked(c, to).levels, to) == Some(Cached(to, c.next, c.next + 1))
  {
    LookupMeans(c.levels, to);
    if Lookup(c.levels, to).None? {
      FindAppended(c.levels[|c.levels| - 1].cache, Cached(to, c.next, c.next + 1), to);
    }
  }

  /** While the level lives, asking again gives the same handle, whatever has been done in between at
      this level and above; it is a live one. */
  lemma AskAgain(c: Comms, to: string, ops: seq<Op>)
    requires Inv(c) && c.levels != []
    ensures var d := RunOps(Asked(c, to), ops);
      Handle(d, to) == Handle(c, to) && Asked(d, to) == d && Handle(c, to) !in d.freed &&
        Handle(c, to) in Owned(d.levels)
  {
    var e := Asked(c, to);
    var d := RunOps(e, ops);
    AskFinds(c, to);
    NestedLevels(e, ops);
    RunUnchanged(e, ops, to);
    IntercommInv(c, to);
    RunInv(e, ops);
    FoundIsLive(d, d.levels, to);
  }

  /** Once a group has been found, no operation at the level or above changes what is found. */
  lemma {:induction false} RunUnchanged(c: Comms, ops: seq<Op>, to: string)
    requires c.levels != [] && Lookup(c.levels, to).Some?
    ensures Lookup(RunOps(c, ops).levels, to) == Lookup(c.levels, to)
    decreases ops
  {
    if ops == [] {
    } else {
      var d := RunOps(c, ops[..|ops| - 1]);
      RunUnchanged(c, ops[..|ops| - 1], to);
      match ops[|ops| - 1]
      case Ask(other) => OtherAsked(d, other, to);
      case Nest(layout, inner) => NestRestores(d, layout, inner);
    }
  }

  lemma FindAppended(cache: seq<Cached>, x: Cached, to: string)
    ensures Find(cache + [x], to) == if x.to == to then Some(x) else Find(cache, to)
  {
    assert (cache + [x])[..|cache|] == cache;
  }

  lemma OtherAsked(c: Comms, other: string, to: string)
    requires c.levels != [] && Lookup(c.levels, to).Some?
    ensures Lookup(Asked(c, other).levels, to) == Lookup(c.levels, to)
  {
    var d, k := Asked(c, other), |c.levels| - 1;
    if Lookup(c.levels, other).None? {
      assert d.levels[..k] == c.levels[..k];
      FindAppended(c.levels[k].cache, Cached(other, c.next, c.next + 1), to);
    }
  }

  /** From the first level to its end: every handle that was made has been freed, and only once, but for
      those made to extend a level with. There is one of these for each job and scheduler, and none of them
      has been freed. */
  lemma WholeLife(world: int, layout: Layout, ops: seq<Op>)
    ensures var c := Popped(RunOps(Extended(Comms([], 0, [], []), world, layout), ops));
      c.levels == [] && |c.worlds| == Jobs(ops) &&
      forall h: nat :: h < c.next ==> multiset(c.freed)[h] + multiset(c.worlds)[h] == 1
  {
    var start := Comms([], 0, [], []);
    assert forall h: nat :: HandleCount(start, h) == 0;
    var c := Extended(start, world, layout);
    ExtendInv(start, world, layout);
    RunInv(c, ops);
    WorldsGrow(c, ops);
    PopBackInv(RunOps(c, ops));
    var d := Popped(RunOps(c, ops));
    forall h: nat | h < d.next ensures multiset(d.freed)[h] + multiset(d.worlds)[h] == 1 {
      assert HandleCount(d, h) == 1;
    }
  }

  class ProcMap {
    var levels: seq<Level>
    var next: nat
    var freed: seq<nat>
    var worlds: seq<nat>

    ghost function Value(): Comms
      reads this
    {
      Comms(levels, next, freed, worlds)
    }

    constructor ()
      ensures Value() == Comms([], 0, [], [])
    {
      levels, next, freed, worlds := [], 0, [], [];
    }

    method Extend(world: int, rank: nat, size: nat, procs: seq<Entry>) returns (ok: bool)
      modifies this
      ensures ok <==> Sum(procs) == size
      ensures !ok ==> Value() == old(Value())
      ensures ok ==>
        Value() == Extended(old(Value()), world, Layout(GroupsOf(procs), ColorOf(rank, procs), GroupOf(rank, procs)))
      ensures ok ==> |levels| == |old(levels)| + 1 && old(levels) <= levels && next == old(next) + 1
      ensures ok ==> var l := levels[|old(levels)|]; l.world == world && l.local == old(next) && l.cache == []
    {
      var layout;
      ok, layout := LayOut(rank, size, procs);
      if ok {
        levels, next := levels + [Level(world, next, layout, [])], next + 1;
      }
    }

    /** Searches the caches from the latest level on. */
    method Search(to: string) returns (found: Option<Cached>)
      ensures found == Lookup(levels, to)
    {
      var n := |levels|;
      assert levels[..n] == levels;
      found := None;
      while n > 0 && found.None?
        invariant 0 <= n <= |levels|
        invariant found.Some? ==> found == Lookup(levels, to)
        invariant found.None? ==> Lookup(levels[..n], to) == Lookup(levels, to)
      {
        assert levels[..n][..n - 1] == levels[..n - 1];
        found := Find(levels[n - 1].cache, to);
        n := n - 1;
      }
    }

    method Intercomm(to: string) returns (inter: nat)
      requires levels != []
      modifies this
      ensures Value() == Asked(old(Value()), to) && inter == Handle(old(Value()), to)
      ensures FoundAs(levels, to, inter)
      ensures old(Lookup(levels, to).None?) ==> Lookup(levels, to) == Some(Cached(to, old(next), old(next) + 1))
      ensures old(Lookup(levels, to).Some?) ==> levels == old(levels) && next == old(next)
    {
      AskFinds(Value(), to);
      AskedEntry(Value(), to);
      var found := Search(to);
      if found.Some? {
        return found.value.inter;
      }
      var k := |levels| - 1;
      inter := next;
      var made := Cached(to, next, next + 1);
      levels := levels[..k] + [levels[k].(cache := levels[k].cache + [made])];
      next := next + 2;
    }

    /** False stands for the exception when there is no communicator with the group. */
    method Intracomm(to: string) returns (ok: bool, intra: nat)
      ensures ok == Lookup(levels, to).Some? && (ok ==> intra == Lookup(levels, to).value.intra)
    {
      var found := Search(to);
      if found.Some? {
        return true, found.value.intra;
      }
      return false, 0;
    }

    method PopBack()
      requires levels != []
      modifies this
      ensures Value() == Popped(old(Value()))
    {
      var k := |levels| - 1;
      var cache := levels[k].cache;
      for i := 0 to |cache|
        invariant levels == old(levels) && next == old(next) && worlds == old(worlds)
        invariant freed == old(freed) + CacheHandles(cache[..i])
      {
        assert cache[..i + 1][..i] == cache[..i];
        freed := freed + [cache[i].intra];
        freed := freed + [cache[i].inter];
      }
      assert cache[..|cache|] == cache;
      freed := freed + [levels[k].local];
      levels := levels[..k];
    }
  }
}
