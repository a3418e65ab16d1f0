/** Dividing the ranks of a communicator among named groups. */
module GroupSizes {
  import opened Arithmetic

  datatype Entry = Entry(name: string, size: int)

  function Sum(procs: seq<Entry>): int {
    if procs == [] then 0 else Sum(procs[..|procs| - 1]) + procs[|procs| - 1].size
  }

  lemma {:induction false} SumJoin(a: seq<Entry>, b: seq<Entry>)
    ensures Sum(a + b) == Sum(a) + Sum(b)
  {
    if b == [] {
      assert a + b == a;
    } else {
      assert (a + b)[..|a + b| - 1] == a + b[..|b| - 1];
      SumJoin(a, b[..|b| - 1]);
    }
  }

  lemma SumOfOne(e: Entry)
    ensures Sum([]) == 0 && Sum([e]) == e.size
  {
    assert [e][..0] == [];
  }

  predicate Distinct(procs: seq<Entry>) {
    forall i, j :: 0 <= i < j < |procs| ==> procs[i].name != procs[j].name
  }

  predicate NonNegative(procs: seq<Entry>) {
    forall i :: 0 <= i < |procs| ==> procs[i].size >= 0
  }

  // Laying the groups out one behind the other.

  datatype Place = Place(leader: int, size: int)

  /** What a rank knows about a level: where the groups are, and which is its own. */
  datatype Layout = Layout(groups: map<string, Place>, color: nat, group: string)

  function GroupsOf(procs: seq<Entry>): map<string, Place> {
    if procs == [] then map[]
    else
      var k := |procs| - 1;
      GroupsOf(procs[..k])[procs[k].name := Place(Sum(procs[..k]), procs[k].size)]
  }

  /** Every group is known by the place of its block, the last one if there are several of the name. */
  lemma {:induction false} GroupAt(procs: seq<Entry>, i: nat)
    requires i < |procs| && forall j :: i < j < |procs| ==> procs[j].name != procs[i].name
    ensures procs[i].name in GroupsOf(procs) && GroupsOf(procs)[procs[i].name] == Place(Sum(procs[..i]), procs[i].size)
  {
    var k := |procs| - 1;
    if i < k {
      GroupAt(procs[..k], i);
      assert procs[..k][..i] == procs[..i];
    }
  }

  /** And nothing else is known. */
  lemma {:induction false} OnlyGroups(procs: seq<Entry>, n: string)
    ensures n in GroupsOf(procs) <==> exists i :: 0 <= i < |procs| && procs[i].name == n
  {
    if procs == [] {
    } else {
      var k := |procs| - 1;
      OnlyGroups(procs[..k], n);
      if n in GroupsOf(procs[..k]) {
        var i :| 0 <= i < k && procs[..k][i].name == n;
        assert procs[i].name == n;
      }
      if i :| 0 <= i < |procs| && procs[i].name == n {
        assert i < k ==> procs[..k][i].name == n;
      }
    }
  }

  lemma SumStep(procs: seq<Entry>, i: nat)
    requires i < |procs|
    ensures Sum(procs[..i + 1]) == Sum(procs[..i]) + procs[i].size
    ensures GroupsOf(procs[..i + 1]) == GroupsOf(procs[..i])[procs[i].name := Place(Sum(procs[..i]), procs[i].size)]
  {
    assert procs[..i + 1][..i] == procs[..i];
  }

  /** The number of groups that end before the rank, counted as the loop does. */
  function ColorOf(rank: int, procs: seq<Entry>): nat {
    if procs == [] then 0
    else ColorOf(rank, procs[..|procs| - 1]) + if rank >= Sum(procs) then 1 else 0
  }

  /** The last group that starts at the rank or before it. */
  function GroupOf(rank: int, procs: seq<Entry>): string {
    if procs == [] then ""
    else
      var k := |procs| - 1;
      if rank >= Sum(procs[..k]) then procs[k].name else GroupOf(rank, procs[..k])
  }

  /** False stands for the exception when the sizes do not add up to the communicator. */
  method LayOut(rank: nat, size: nat, procs: seq<Entry>) returns (ok: bool, layout: Layout)
    ensures ok <==> Sum(procs) == size
    ensures layout == Layout(GroupsOf(procs), ColorOf(rank, procs), GroupOf(rank, procs))
  {
    var groups: map<string, Place>, color: nat, total, group := map[], 0, 0, "";
    for i := 0 to |procs|
      invariant total == Sum(procs[..i]) && groups == GroupsOf(procs[..i])
      invariant color == ColorOf(rank, procs[..i]) && group == GroupOf(rank, procs[..i])
    {
      SumStep(procs, i);
      assert procs[..i + 1][..i] == procs[..i];
      groups := groups[procs[i].name := Place(total, procs[i].size)];
      if rank >= total {
        group := procs[i].name;
      }
      total := total + procs[i].size;
      if rank >= total {
        color := color + 1;
      }
    }
    assert procs[..|procs|] == procs;
    ok, layout := total == size, Layout(groups, color, group);
  }

  /** If no size is negative, colour and group name the same entry, whose block has the rank. */
  lemma {:induction false} OwnGroup(rank: nat, procs: seq<Entry>)
    requires NonNegative(procs)
    ensures rank < Sum(procs) ==> OwnEntry(rank, procs)
    ensures rank >= Sum(procs) ==> ColorOf(rank, procs) == |procs|
  {
    var k := |procs| - 1;
    if procs == [] {
    } else {
      OwnGroup(rank, procs[..k]);
      if rank < Sum(procs[..k]) {
        var color := ColorOf(rank, procs[..k]);
        assert procs[..k][..color] == procs[..color];
      }
    }
  }

  predicate OwnEntry(rank: nat, procs: seq<Entry>) {
    var color := ColorOf(rank, procs);
    color < |procs| && procs[color].name == GroupOf(rank, procs) &&
    Sum(procs[..color]) <= rank < Sum(procs[..color]) + procs[color].size
  }

  /** With distinct names the group that a rank knows as its own is the one whose block has the rank. */
  lemma OwnBlock(rank: nat, procs: seq<Entry>)
    requires NonNegative(procs) && Distinct(procs) && rank < Sum(procs)
    ensures OwnEntry(rank, procs)
    ensures var own := GroupOf(rank, procs);
      own in GroupsOf(procs) &&
      GroupsOf(procs)[own].leader <= rank < GroupsOf(procs)[own].leader + GroupsOf(procs)[own].size
  {
    OwnGroup(rank, procs);
    GroupAt(procs, ColorOf(rank, procs));
  }

  // Colour and name, whatever the sizes are.

  /** The last entry that starts at the rank or before it. */
  function LastAt(rank: nat, procs: seq<Entry>): (at: nat)
    requires procs != []
    ensures at < |procs|
  {
    var k := |procs| - 1;
    if k == 0 || rank >= Sum(procs[..k]) then k else LastAt(rank, procs[..k])
  }

  predicate Behind(rank: nat, procs: seq<Entry>, i: nat)
    requires i <= |procs|
  {
    Sum(procs[..i]) > rank
  }

  lemma {:induction false} LastStart(rank: nat, procs: seq<Entry>)
    requires procs != []
    ensures var at := LastAt(rank, procs); GroupOf(rank, procs) == procs[at].name && !Behind(rank, procs, at)
    ensures forall i: nat :: LastAt(rank, procs) < i < |procs| ==> Behind(rank, procs, i)
  {
    var k := |procs| - 1;
    if k == 0 || rank >= Sum(procs[..k]) {
      assert procs[..0] == [];
    } else {
      LastStart(rank, procs[..k]);
      var at := LastAt(rank, procs);
      assert procs[..k][..at] == procs[..at];
      forall i: nat | at < i < |procs| ensures Behind(rank, procs, i) {
        if i < k { assert procs[..k][..i] == procs[..i] && Behind(rank, procs[..k], i); }
      }
    }
  }

  /** The colour counts the ends before the rank, so it is the number of all of them exactly when no end
      is behind the rank. */
  lemma {:induction false} ColorFull(rank: nat, procs: seq<Entry>)
    ensures ColorOf(rank, procs) <= |procs|
    ensures ColorOf(rank, procs) == |procs| <==> forall i: nat :: 0 < i <= |procs| ==> !Behind(rank, procs, i)
  {
    if procs == [] {
    } else {
      var k := |procs| - 1;
      ColorFull(rank, procs[..k]);
      assert procs[..|procs|] == procs;
      forall i: nat | i <= k ensures Behind(rank, procs[..k], i) <==> Behind(rank, procs, i) {
        assert procs[..k][..i] == procs[..i];
      }
      assert Behind(rank, procs, |procs|) <==> Sum(procs) > rank;
    }
  }

  lemma {:induction false} ColorStays(rank: nat, procs: seq<Entry>, at: nat)
    requires at <= |procs| && forall i: nat :: at < i <= |procs| ==> Behind(rank, procs, i)
    ensures ColorOf(rank, procs) == ColorOf(rank, procs[..at])
  {
    var k := |procs| - 1;
    assert procs[..|procs|] == procs;
    if at == |procs| {
    } else {
      assert Behind(rank, procs, |procs|);
      forall i: nat | at < i <= k ensures Behind(rank, procs[..k], i) {
        assert procs[..k][..i] == procs[..i] && Behind(rank, procs, i);
      }
      ColorStays(rank, procs[..k], at);
      assert procs[..k][..at] == procs[..at];
    }
  }

  /** Once a start is behind the rank, all later ones are. */
  predicate BehindForGood(rank: nat, procs: seq<Entry>) {
    forall j: nat, k: nat :: j <= k < |procs| && Behind(rank, procs, j) ==> Behind(rank, procs, k)
  }

  /** The colour of a rank and the name of its group belong to the same entry. */
  predicate Agrees(rank: nat, procs: seq<Entry>) {
    ColorOf(rank, procs) < |procs| && procs[ColorOf(rank, procs)].name == GroupOf(rank, procs)
  }

  /** For any sizes, negative ones included: colour and name of a rank belong to the same entry exactly
      when no entry starts behind the rank and a later one at it or before it. The block of that entry
      then has the rank. */
  lemma OwnEntryExactly(rank: nat, procs: seq<Entry>)
    requires Distinct(procs) && rank < Sum(procs)
    ensures Agrees(rank, procs) <==> BehindForGood(rank, procs)
    ensures OwnEntry(rank, procs) <==> BehindForGood(rank, procs)
  {
    var at := LastAt(rank, procs);
    LastStart(rank, procs);
    assert procs[..|procs|] == procs && Behind(rank, procs, |procs|);
    ColorIsLast(rank, procs, at);
    SumStep(procs, at);
    assert Behind(rank, procs, at + 1);
  }

  lemma ColorIsLast(rank: nat, procs: seq<Entry>, at: nat)
    requires at < |procs| && !Behind(rank, procs, at) && forall i: nat :: at < i <= |procs| ==> Behind(rank, procs, i)
    ensures ColorOf(rank, procs) <= at && (ColorOf(rank, procs) == at <==> BehindForGood(rank, procs))
  {
    ColorStays(rank, procs, at);
    ColorFull(rank, procs[..at]);
    forall i: nat | i <= at ensures Behind(rank, procs[..at], i) <==> Behind(rank, procs, i) {
      assert procs[..at][..i] == procs[..i];
    }
    assert !Behind(rank, procs, 0) by { assert procs[..0] == []; }
    if BehindForGood(rank, procs) {
      assert forall i: nat :: 0 < i <= at ==> !Behind(rank, procs, i);
    }
  }

  /** The blocks of the groups do not overlap, so every rank lies in the block of its own group only. */
  lemma {:induction false} BlocksApart(procs: seq<Entry>, a: nat, b: nat)
    requires a < b <= |procs| && NonNegative(procs)
    ensures Sum(procs[..a + 1]) <= Sum(procs[..b])
    ensures Sum(procs[..a + 1]) == Sum(procs[..a]) + procs[a].size
  {
    assert procs[..a + 1][..a] == procs[..a];
    if a + 1 < b {
      BlocksApart(procs, a, b - 1);
      assert procs[..b][..b - 1] == procs[..b - 1];
    }
  }

  // Sizes from the command line.

  /** A group with its size, or without one. */
  datatype Request = Sized(name: string, size: int) | Unsized(name: string)

  function SizedOnes(rs: seq<Request>): seq<Entry> {
    if rs == [] then []
    else
      var r := rs[|rs| - 1];
      SizedOnes(rs[..|rs| - 1]) + if r.Sized? then [Entry(r.name, r.size)] else []
  }

  lemma {:induction false} SizedJoin(a: seq<Request>, b: seq<Request>)
    ensures SizedOnes(a + b) == SizedOnes(a) + SizedOnes(b)
  {
    if b == [] {
      assert a + b == a;
    } else {
      assert (a + b)[..|a + b| - 1] == a + b[..|b| - 1];
      SizedJoin(a, b[..|b| - 1]);
    }
  }

  /** One request is an entry if it has a size, and none otherwise; `SizedJoin` has the rest. */
  lemma SizedOfOne(n: string, size: int)
    ensures SizedOnes([Sized(n, size)]) == [Entry(n, size)] && SizedOnes([Unsized(n)]) == []
  {
    assert [Sized(n, size)][..0] == [] && [Unsized(n)][..0] == [];
  }

  lemma {:induction false} SizedIn(rs: seq<Request>, e: Entry)
    ensures e in SizedOnes(rs) <==> Sized(e.name, e.size) in rs
  {
    if rs == [] {
    } else {
      var init, r := rs[..|rs| - 1], rs[|rs| - 1];
      SizedIn(init, e);
      assert rs == init + [r];
    }
  }

  lemma NamesSized(rs: seq<Request>, n: string)
    ensures (exists e :: e in SizedOnes(rs) && e.name == n) <==> exists z :: Sized(n, z) in rs
  {
    if e :| e in SizedOnes(rs) && e.name == n { SizedIn(rs, e); }
    if z :| Sized(n, z) in rs {
      SizedIn(rs, Entry(n, z));
      assert Entry(n, z).name == n;
    }
  }

  /** Puts a name into a sorted list without repetitions, as a std::set keeps it. */
  method Insert(names: seq<string>, n: string) returns (r: seq<string>)
    requires Sorted(names)
    ensures Sorted(r) && forall x :: x in r <==> x in names || x == n
  {
    var i := 0;
    while i < |names| && Less(names[i], n)
      invariant i <= |names| && forall k :: 0 <= k < i ==> Less(names[k], n)
    {
      i := i + 1;
    }
    if i < |names| && names[i] == n {
      return names;
    }
    r := names[..i] + [n] + names[i..];
    if i < |names| {
      LessTotal(names[i], n);
    }
    InsertSorted(names, n, i);
    assert r[i] == n;
    assert names == names[..i] + names[i..];
  }

  predicate Less(a: string, b: string) {
    b != [] && (a == [] || a[0] < b[0] || (a[0] == b[0] && Less(a[1..], b[1..])))
  }

  predicate Sorted(names: seq<string>) {
    forall i, j :: 0 <= i < j < |names| ==> Less(names[i], names[j])
  }

  lemma {:induction false} LessTotal(a: string, b: string)
    ensures Less(a, b) || a == b || Less(b, a)
    ensures !(Less(a, b) && Less(b, a)) && !Less(a, a)
  {
    if a != [] && b != [] {
      LessTotal(a[1..], b[1..]);
      assert a == [a[0]] + a[1..] && b == [b[0]] + b[1..];
    }
    if a != [] { LessIrreflexive(a); }
  }

  /** They agree before `i`, and there `a` has come to its end or has the smaller character. */
  predicate SmallerAt(a: string, b: string, i: nat) {
    i <= |a| && i < |b| && a[..i] == b[..i] && (i == |a| || a[i] < b[i])
  }

  lemma OnlyAtFirst(a: string, b: string, i: nat)
    requires i > 0 && (a == [] || b == [] || a[0] != b[0])
    ensures !SmallerAt(a, b, i)
  {
    if i <= |a| && i < |b| { assert a[..i][0] == a[0] && b[..i][0] == b[0]; }
  }

  /** The order is that of the first character in which they differ; a text comes before its continuations. */
  lemma {:induction false} LessMeans(a: string, b: string)
    ensures Less(a, b) <==> exists i: nat :: SmallerAt(a, b, i)
  {
    if a == [] || b == [] || a[0] != b[0] {
      if Less(a, b) { assert SmallerAt(a, b, 0); }
      forall i: nat | 0 < i ensures !SmallerAt(a, b, i) { OnlyAtFirst(a, b, i); }
    } else {
      LessMeans(a[1..], b[1..]);
      forall i: nat ensures SmallerAt(a[1..], b[1..], i) <==> SmallerAt(a, b, i + 1) {
        if i < |a| && i < |b| {
          assert a[..i + 1] == [a[0]] + a[1..][..i] && b[..i + 1] == [b[0]] + b[1..][..i];
          assert a[1..][..i] == a[..i + 1][1..] && b[1..][..i] == b[..i + 1][1..];
        }
      }
      if i: nat :| SmallerAt(a, b, i) {
        assert i > 0 && SmallerAt(a[1..], b[1..], i - 1);
      }
    }
  }

  lemma {:induction false} LessIrreflexive(a: string)
    ensures !Less(a, a)
  {
    if a == [] {
    } else {
      LessIrreflexive(a[1..]);
    }
  }

  lemma {:induction false} LessTransitive(a: string, b: string, c: string)
    requires Less(a, b) && Less(b, c)
    ensures Less(a, c)
  {
    if a != [] && a[0] == b[0] && b[0] == c[0] { LessTransitive(a[1..], b[1..], c[1..]); }
  }

  lemma InsertSorted(names: seq<string>, n: string, i: nat)
    requires Sorted(names) && i <= |names| && forall k :: 0 <= k < i ==> Less(names[k], n)
    requires i < |names| ==> Less(n, names[i])
    ensures Sorted(names[..i] + [n] + names[i..])
  {
    var r := names[..i] + [n] + names[i..];
    forall k | i < k < |names| ensures Less(n, names[k]) {
      LessTransitive(n, names[i], names[k]);
    }
    forall x, y | 0 <= x < y < |r| ensures Less(r[x], r[y]) {
      assert r[x] == if x < i then names[x] else if x == i then n else names[x - 1];
      assert r[y] == if y < i then names[y] else if y == i then n else names[y - 1];
    }
  }

  ghost predicate UnsizedAre(rs: seq<Request>, names: seq<string>) {
    forall n :: n in names <==> Unsized(n) in rs
  }

  /** One request more adds its name, or an entry. */
  lemma UnsizedStep(rs: seq<Request>, r: Request, names: seq<string>)
    requires UnsizedAre(rs, names)
    ensures r.Sized? ==> UnsizedAre(rs + [r], names)
    ensures SizedOnes(rs + [r]) == SizedOnes(rs) + if r.Sized? then [Entry(r.name, r.size)] else []
  {
    assert (rs + [r])[..|rs|] == rs;
  }

  lemma UnsizedMore(rs: seq<Request>, n: string, names: seq<string>, more: seq<string>)
    requires UnsizedAre(rs, names) && forall x :: x in more <==> x in names || x == n
    ensures UnsizedAre(rs + [Unsized(n)], more)
  {
  }

  /** Goes through the requests: the sized groups in order, and the names of the others. */
  method SplitRequests(rs: seq<Request>) returns (procs: seq<Entry>, total: int, unspecified: seq<string>)
    ensures procs == SizedOnes(rs) && total == Sum(procs)
    ensures Sorted(unspecified) && UnsizedAre(rs, unspecified)
  {
    procs, total, unspecified := [], 0, [];
    for i := 0 to |rs|
      invariant procs == SizedOnes(rs[..i]) && total == Sum(procs)
      invariant Sorted(unspecified) && UnsizedAre(rs[..i], unspecified)
    {
      assert rs[..i + 1] == rs[..i] + [rs[i]];
      UnsizedStep(rs[..i], rs[i], unspecified);
      if rs[i].Unsized? {
        ghost var names := unspecified;
        unspecified := Insert(unspecified, rs[i].name);
        UnsizedMore(rs[..i], rs[i].name, names, unspecified);
      } else {
        var entry := Entry(rs[i].name, rs[i].size);
        assert (procs + [entry])[..|procs|] == procs;
        procs := procs + [entry];
        total := total + rs[i].size;
      }
    }
    assert rs[..|rs|] == rs;
  }

  method AssignedNames(procs: seq<Entry>) returns (sized: set<string>)
    ensures forall n :: n in sized <==> exists e :: e in procs && e.name == n
  {
    sized := {};
    for i := 0 to |procs|
      invariant forall n :: n in sized <==> exists e :: e in procs[..i] && e.name == n
    {
      assert procs[..i + 1] == procs[..i] + [procs[i]];
      sized := sized + {procs[i].name};
    }
    assert procs[..|procs|] == procs;
  }

  /** Adds the groups of the script that have not been given a size. */
  method AddUnmentioned(sized: set<string>, all: seq<string>, names: seq<string>)
    returns (unspecified: seq<string>)
    requires Sorted(names)
    ensures Sorted(unspecified)
    ensures forall n :: n in unspecified <==> n in names || (n in all && n !in sized)
  {
    unspecified := names;
    for i := 0 to |all|
      invariant Sorted(unspecified)
      invariant forall n :: n in unspecified <==> n in names || (n in all[..i] && n !in sized)
    {
      assert forall n :: n in all[..i + 1] <==> n in all[..i] || n == all[i];
      if all[i] !in sized {
        unspecified := Insert(unspecified, all[i]);
      }
    }
    assert all[..|all|] == all;
  }

  /** The list of groups with their sizes, and the names of those that share; false stands for the
      exception when the sizes want too much. */
  method ParseProcs(rs: seq<Request>, size: nat, all: seq<string>)
    returns (ok: bool, procs: seq<Entry>, unspecified: seq<string>)
    ensures ok <==> Sum(SizedOnes(rs)) <= size
    ensures Sorted(unspecified)
    ensures ok ==> forall n :: n in unspecified <==> Unsized(n) in rs || (n in all && forall z :: Sized(n, z) !in rs)
    ensures ok ==> procs == ShareOut(rs, size, unspecified)
  {
    var total;
    procs, total, unspecified := SplitRequests(rs);
    if total > size {
      return false, procs, [];
    }
    var sized := AssignedNames(procs);
    forall n ensures n in sized <==> exists z :: Sized(n, z) in rs {
      NamesSized(rs, n);
    }
    unspecified := AddUnmentioned(sized, all, unspecified);
    procs := AppendShares(procs, size - total, unspecified);
    ok := true;
  }

  method AppendShares(sized: seq<Entry>, left: int, unspecified: seq<string>) returns (procs: seq<Entry>)
    ensures procs == sized + Shares(unspecified, ShareOf(left, |unspecified|))
  {
    ghost var share := ShareOf(left, |unspecified|);
    procs := sized;
    for i := 0 to |unspecified|
      invariant procs == sized + Shares(unspecified[..i], share)
    {
      assert unspecified[..i + 1][..i] == unspecified[..i];
      procs := procs + [Entry(unspecified[i], left / |unspecified|)];
    }
    assert unspecified[..|unspecified|] == unspecified;
  }

  function Shares(names: seq<string>, share: int): seq<Entry> {
    if names == [] then [] else Shares(names[..|names| - 1], share) + [Entry(names[|names| - 1], share)]
  }

  /** The sized groups in the order given, and behind them the others in order with equal shares. */
  function ShareOut(rs: seq<Request>, size: int, names: seq<string>): seq<Entry> {
    SizedOnes(rs) + Shares(names, ShareOf(size - Sum(SizedOnes(rs)), |names|))
  }

  function ShareOf(leftover: int, n: nat): int {
    if n == 0 then 0 else leftover / n
  }

  /** Behind the sized groups stand the sharing ones, in order, each with its name and the share. */
  lemma {:induction false} SharesAre(names: seq<string>, share: int)
    ensures |Shares(names, share)| == |names|
    ensures forall i :: 0 <= i < |names| ==> Shares(names, share)[i] == Entry(names[i], share)
  {
    if names == [] {
    } else {
      SharesAre(names[..|names| - 1], share);
    }
  }

  lemma ShareOutAre(rs: seq<Request>, size: int, names: seq<string>)
    ensures var sized, procs := SizedOnes(rs), ShareOut(rs, size, names);
      var share := if names == [] then 0 else (size - Sum(sized)) / |names|;
      sized <= procs && |procs| == |sized| + |names| &&
      forall i :: 0 <= i < |names| ==> procs[|sized| + i] == Entry(names[i], share)
  {
    SharesBehind(SizedOnes(rs), names, ShareOf(size - Sum(SizedOnes(rs)), |names|));
  }

  lemma SharesBehind(sized: seq<Entry>, names: seq<string>, share: int)
    ensures var procs := sized + Shares(names, share);
      sized <= procs && |procs| == |sized| + |names| &&
      forall i :: 0 <= i < |names| ==> procs[|sized| + i] == Entry(names[i], share)
  {
    SharesAre(names, share);
  }

  lemma {:induction false} SharesSum(names: seq<string>, share: int)
    ensures Sum(Shares(names, share)) == |names| * share && |Shares(names, share)| == |names|
  {
    if names == [] {
    } else {
      var k := |names| - 1;
      SharesSum(names[..k], share);
      assert k * share + share == |names| * share;
    }
  }

  lemma ShareOutSum(rs: seq<Request>, size: int, names: seq<string>)
    ensures var sized := Sum(SizedOnes(rs));
      Sum(ShareOut(rs, size, names)) == sized + if names == [] then 0 else |names| * ((size - sized) / |names|)
  {
    var share := ShareOf(size - Sum(SizedOnes(rs)), |names|);
    SharesSum(names, share);
    SumJoin(SizedOnes(rs), Shares(names, share));
  }

  /** What was parsed is accepted for the communicator exactly when the sharing groups can share what
      is left without a remainder, or nobody shares and nothing is left. */
  lemma ParsedAccepted(rs: seq<Request>, size: int, names: seq<string>)
    ensures var left := size - Sum(SizedOnes(rs));
      Sum(ShareOut(rs, size, names)) == size <==> if names == [] then left == 0 else left % |names| == 0
  {
    ShareOutSum(rs, size, names);
    if names != [] { EvenDivision(size - Sum(SizedOnes(rs)), |names|); }
  }

  lemma EvenDivision(x: int, n: nat)
    requires n > 0
    ensures n * (x / n) == x <==> x % n == 0
  {
    DivisionRest(x, n);
  }

  lemma DivisionRest(x: int, n: nat)
    requires n > 0
    ensures x == n * (x / n) + x % n
  {
  }

  // Sizes for the groups of a job.

  /** How many groups have no positive size, and what the others add up to. */
  function Open(groups: seq<Entry>): nat {
    if groups == [] then 0
    else Open(groups[..|groups| - 1]) + if groups[|groups| - 1].size <= 0 then 1 else 0
  }

  function Fixed(groups: seq<Entry>): nat {
    if groups == [] then 0
    else Fixed(groups[..|groups| - 1]) + if groups[|groups| - 1].size > 0 then groups[|groups| - 1].size else 0
  }

  function OpenNames(groups: seq<Entry>): (names: seq<string>)
    ensures |names| == Open(groups)
  {
    if groups == [] then []
    else OpenNames(groups[..|groups| - 1]) + if groups[|groups| - 1].size <= 0 then [groups[|groups| - 1].name] else []
  }

  lemma {:induction false} OpenNamesFrom(groups: seq<Entry>, n: string)
    requires n in OpenNames(groups)
    ensures exists i :: 0 <= i < |groups| && groups[i].name == n
  {
    var k := |groups| - 1;
    if n in OpenNames(groups[..k]) {
      OpenNamesFrom(groups[..k], n);
      var i :| 0 <= i < k && groups[..k][i].name == n;
      assert groups[i].name == n;
    }
  }

  method ScanGroups(groups: seq<Entry>) returns (unspecified: seq<string>, specified: int)
    ensures unspecified == OpenNames(groups) && specified == Fixed(groups)
  {
    unspecified, specified := [], 0;
    for i := 0 to |groups|
      invariant unspecified == OpenNames(groups[..i]) && specified == Fixed(groups[..i])
    {
      assert groups[..i + 1][..i] == groups[..i];
      if groups[i].size <= 0 {
        unspecified := unspecified + [groups[i].name];
      } else {
        specified := specified + groups[i].size;
      }
    }
    assert groups[..|groups|] == groups;
  }

  /** Divides the ranks of a job among its groups, which a map holds by name. False stands for the
      division by zero that is made when no group is open. The division is of the size of the job, not
      of what is left of it; the last open group takes the difference. */
  method Divide(groups: seq<Entry>, size: nat) returns (ok: bool, sizes: seq<Entry>)
    requires Distinct(groups)
    ensures ok <==> Open(groups) > 0
    ensures ok ==> Sum(sizes) == size && |sizes| == |groups|
    ensures ok ==> Divided(groups, size, sizes)
  {
    var unspecified, specified := ScanGroups(groups);
    if |unspecified| == 0 {
      return false, [];
    }
    LastShareIs(groups, size);
    var leftover, share := size - specified, size / |unspecified|;
    var lastShare := leftover - share * (|unspecified| - 1);
    ok := true;
    sizes := AssignSizes(groups, unspecified[|unspecified| - 1], lastShare, share);
    SumIsSize(groups, size);
  }

  lemma LastShareIs(groups: seq<Entry>, size: nat)
    requires Open(groups) > 0
    ensures LastShare(groups, size) == size - Fixed(groups) - size / Open(groups) * (Open(groups) - 1)
  {
    TimesIs(Open(groups) - 1, size / Open(groups));
  }

  method AssignSizes(groups: seq<Entry>, last: string, lastShare: int, share: int) returns (sizes: seq<Entry>)
    ensures |sizes| == |groups| && Sum(sizes) == SumSoFar(groups, last, lastShare, share)
    ensures forall i :: 0 <= i < |groups| ==> sizes[i] == EntryOf(groups[i], last, lastShare, share)
  {
    sizes := [];
    for i := 0 to |groups|
      invariant |sizes| == i && Sum(sizes) == SumSoFar(groups[..i], last, lastShare, share)
      invariant forall k :: 0 <= k < i ==> sizes[k] == EntryOf(groups[k], last, lastShare, share)
    {
      assert groups[..i + 1][..i] == groups[..i];
      var entry :=
        if groups[i].size > 0 then groups[i]
        else if groups[i].name == last then Entry(groups[i].name, lastShare)
        else Entry(groups[i].name, share);
      assert (sizes + [entry])[..i] == sizes;
      sizes := sizes + [entry];
    }
    assert groups[..|groups|] == groups;
  }

  function LastOpen(groups: seq<Entry>): string
    requires Open(groups) > 0
  {
    OpenNames(groups)[Open(groups) - 1]
  }

  function LastShare(groups: seq<Entry>, size: nat): int
    requires Open(groups) > 0
  {
    size - Fixed(groups) - Times(Open(groups) - 1, size / Open(groups))
  }

  function EntryOf(g: Entry, last: string, lastShare: int, share: int): Entry {
    if g.size > 0 then g else Entry(g.name, if g.name == last then lastShare else share)
  }

  function SumSoFar(groups: seq<Entry>, last: string, lastShare: int, share: int): int {
    if groups == [] then 0
    else
      SumSoFar(groups[..|groups| - 1], last, lastShare, share) +
      EntryOf(groups[|groups| - 1], last, lastShare, share).size
  }

  lemma {:induction false} SumWithoutLast(groups: seq<Entry>, last: string, lastShare: int, share: nat)
    requires last !in OpenNames(groups)
    ensures SumSoFar(groups, last, lastShare, share) == Fixed(groups) + Times(Open(groups), share)
  {
    if groups == [] {
    } else {
      SumWithoutLast(groups[..|groups| - 1], last, lastShare, share);
    }
  }

  /** All open groups but the last get one share each. */
  lemma {:induction false} SumWithLast(groups: seq<Entry>, last: string, lastShare: int, share: nat)
    requires Distinct(groups) && Open(groups) > 0 && last == OpenNames(groups)[Open(groups) - 1]
    ensures SumSoFar(groups, last, lastShare, share) == Fixed(groups) + Times(Open(groups) - 1, share) + lastShare
  {
    var k := |groups| - 1;
    if groups[k].size <= 0 {
      if last in OpenNames(groups[..k]) {
        OpenNamesFrom(groups[..k], last);
        assert false;
      }
      SumWithoutLast(groups[..k], last, lastShare, share);
    } else {
      SumWithLast(groups[..k], last, lastShare, share);
    }
  }

  lemma SumIsSize(groups: seq<Entry>, size: nat)
    requires Distinct(groups) && Open(groups) > 0
    ensures SumSoFar(groups, LastOpen(groups), LastShare(groups, size), size / Open(groups)) == size
  {
    SumWithLast(groups, LastOpen(groups), LastShare(groups, size), size / Open(groups));
  }

  lemma ShareAndRest(size: nat, n: nat)
    requires n > 0
    ensures size == Times(n - 1, size / n) + size / n + size % n
  {
    TimesIs(n, size / n);
    DivisionRest(size, n);
  }

  /** The sizes that add up to the job need not be sizes: the share of the last open group is negative
      exactly when the fixed sizes take more than one share and the remainder. */
  lemma LastShareNegative(groups: seq<Entry>, size: nat)
    requires Open(groups) > 0
    ensures LastShare(groups, size) >= 0 <==> Fixed(groups) <= size / Open(groups) + size % Open(groups)
  {
    var n := Open(groups);
    ShareAndRest(size, n);
  }

  // When the ranks of a divided job agree.

  /** Where the last open group stands. */
  function LastOpenAt(groups: seq<Entry>): (at: nat)
    requires Open(groups) > 0
    ensures at < |groups| && groups[at].size <= 0 && forall i :: at < i < |groups| ==> groups[i].size > 0
  {
    var k := |groups| - 1;
    if groups[k].size <= 0 then k else LastOpenAt(groups[..k])
  }

  lemma {:induction false} LastOpenIs(groups: seq<Entry>)
    requires Open(groups) > 0
    ensures var at := LastOpenAt(groups); LastOpen(groups) == groups[at].name && Open(groups[..at]) == Open(groups) - 1
  {
    var k := |groups| - 1;
    if groups[k].size <= 0 {
    } else {
      LastOpenIs(groups[..k]);
      assert groups[..k][..LastOpenAt(groups)] == groups[..LastOpenAt(groups)];
    }
  }

  /** The sizes that `Divide` gives. */
  predicate Divided(groups: seq<Entry>, size: nat, sizes: seq<Entry>)
    requires Open(groups) > 0
  {
    |sizes| == |groups| && forall i :: 0 <= i < |groups| ==>
      sizes[i] == EntryOf(groups[i], LastOpen(groups), LastShare(groups, size), size / Open(groups))
  }

  lemma {:induction false} DividedSum(groups: seq<Entry>, sizes: seq<Entry>, last: string, lastShare: int, share: int)
    requires |sizes| == |groups|
    requires forall i :: 0 <= i < |groups| ==> sizes[i] == EntryOf(groups[i], last, lastShare, share)
    ensures Sum(sizes) == SumSoFar(groups, last, lastShare, share)
  {
    if groups == [] {
    } else {
      var k := |groups| - 1;
      DividedSum(groups[..k], sizes[..k], last, lastShare, share);
    }
  }

  /** What stands before the last open group: the fixed sizes there and a share for every other open one. */
  function BeforeLast(groups: seq<Entry>, size: nat): nat
    requires Open(groups) > 0
  {
    Fixed(groups[..LastOpenAt(groups)]) + Times(Open(groups) - 1, size / Open(groups))
  }

  lemma LastNotBefore(groups: seq<Entry>, at: nat)
    requires Distinct(groups) && at < |groups|
    ensures groups[at].name !in OpenNames(groups[..at])
  {
    if groups[at].name in OpenNames(groups[..at]) { OpenNamesFrom(groups[..at], groups[at].name); }
  }

  lemma SumBefore(groups: seq<Entry>, sizes: seq<Entry>, at: nat, lastShare: int, share: nat)
    requires Distinct(groups) && at < |groups| == |sizes|
    requires forall i :: 0 <= i < |groups| ==> sizes[i] == EntryOf(groups[i], groups[at].name, lastShare, share)
    ensures Sum(sizes[..at]) == Fixed(groups[..at]) + Times(Open(groups[..at]), share)
  {
    LastNotBefore(groups, at);
    DividedSum(groups[..at], sizes[..at], groups[at].name, lastShare, share);
    SumWithoutLast(groups[..at], groups[at].name, lastShare, share);
  }

  lemma DividedBefore(groups: seq<Entry>, size: nat, sizes: seq<Entry>)
    requires Distinct(groups) && Open(groups) > 0 && Divided(groups, size, sizes)
    ensures Sum(sizes[..LastOpenAt(groups)]) == BeforeLast(groups, size)
  {
    LastOpenIs(groups);
    SumBefore(groups, sizes, LastOpenAt(groups), LastShare(groups, size), size / Open(groups));
  }

  lemma DividedWhole(groups: seq<Entry>, size: nat, sizes: seq<Entry>)
    requires Distinct(groups) && Open(groups) > 0 && Divided(groups, size, sizes)
    ensures Distinct(sizes) && Sum(sizes) == size
  {
    DividedSum(groups, sizes, LastOpen(groups), LastShare(groups, size), size / Open(groups));
    SumIsSize(groups, size);
  }

  lemma DividedSizes(groups: seq<Entry>, size: nat, sizes: seq<Entry>)
    requires Distinct(groups) && Open(groups) > 0 && Divided(groups, size, sizes)
    ensures sizes[LastOpenAt(groups)].size == LastShare(groups, size)
    ensures forall i :: 0 <= i < |sizes| && i != LastOpenAt(groups) ==> sizes[i].size >= 0
    ensures forall i :: LastOpenAt(groups) < i < |sizes| ==> sizes[i].size > 0
  {
    LastOpenIs(groups);
  }

  lemma DividedStarts(groups: seq<Entry>, size: nat, sizes: seq<Entry>)
    requires Distinct(groups) && Open(groups) > 0 && Divided(groups, size, sizes)
    ensures Distinct(sizes) && Sum(sizes) == size
    ensures Sum(sizes[..LastOpenAt(groups)]) == BeforeLast(groups, size)
    ensures Sum(sizes[..LastOpenAt(groups) + 1]) == BeforeLast(groups, size) + LastShare(groups, size)
    ensures sizes[LastOpenAt(groups)].size == LastShare(groups, size)
    ensures forall i :: 0 <= i < |sizes| && i != LastOpenAt(groups) ==> sizes[i].size >= 0
    ensures forall i :: LastOpenAt(groups) < i < |sizes| ==> sizes[i].size > 0
  {
    DividedWhole(groups, size, sizes);
    DividedSizes(groups, size, sizes);
    DividedBefore(groups, size, sizes);
    SumStep(sizes, LastOpenAt(groups));
  }

  lemma {:induction false} StartsGrow(procs: seq<Entry>, i: nat, j: nat)
    requires i <= j <= |procs| && forall k :: i <= k < j ==> procs[k].size >= 0
    ensures Sum(procs[..i]) <= Sum(procs[..j])
  {
    if i == j {
    } else {
      StartsGrow(procs, i, j - 1);
      SumStep(procs, j - 1);
    }
  }

  /** The last open group gets no negative share, or it is the last group, or the groups before it have no
      ranks (or there is no rank at all). */
  predicate SafelyDivided(groups: seq<Entry>, size: nat)
    requires Open(groups) > 0
  {
    var n, at := Open(groups), LastOpenAt(groups);
    size == 0 || Fixed(groups) <= size / n + size % n || at == |groups| - 1 ||
    (Fixed(groups[..at]) == 0 && (n == 1 || size < n))
  }

  lemma NothingBefore(groups: seq<Entry>, size: nat)
    requires Open(groups) > 0
    ensures var n := Open(groups);
      BeforeLast(groups, size) == 0 <==> Fixed(groups[..LastOpenAt(groups)]) == 0 && (n == 1 || size < n)
  {
    var n := Open(groups);
    TimesIs(n - 1, size / n);
    SmallQuotient(size, n);
    if n > 1 && size >= n { PositiveProduct(n - 1, size / n); }
  }

  lemma SmallQuotient(x: nat, n: nat)
    requires n > 0
    ensures x / n == 0 <==> x < n
  {
  }

  lemma PositiveProduct(a: nat, b: nat)
    requires a > 0 && b > 0
    ensures a * b > 0
  {
  }

  /** A job divided among its groups is accepted by the map of groups. Every rank has the colour and the
      name of the same group, whose block has it, exactly when the job is safely divided. */
  lemma RanksAgree(groups: seq<Entry>, size: nat, sizes: seq<Entry>)
    requires Distinct(groups) && Open(groups) > 0 && Divided(groups, size, sizes)
    ensures Sum(sizes) == size
    ensures (forall rank: nat :: rank < size ==> Agrees(rank, sizes)) <==> SafelyDivided(groups, size)
    ensures (forall rank: nat :: rank < size ==> OwnEntry(rank, sizes)) <==> SafelyDivided(groups, size)
  {
    DividedStarts(groups, size, sizes);
    LastShareNegative(groups, size);
    NothingBefore(groups, size);
    if SafelyDivided(groups, size) {
      forall rank: nat | rank < size ensures Agrees(rank, sizes) && OwnEntry(rank, sizes) {
        SafeRank(groups, size, sizes, rank);
        OwnEntryExactly(rank, sizes);
      }
    } else {
      var rank := LostRank(groups, size, sizes);
      OwnEntryExactly(rank, sizes);
    }
  }

  lemma SafeRank(groups: seq<Entry>, size: nat, sizes: seq<Entry>, rank: nat)
    requires Distinct(groups) && Open(groups) > 0 && Divided(groups, size, sizes) && rank < size
    requires LastShare(groups, size) >= 0 || LastOpenAt(groups) == |groups| - 1 || BeforeLast(groups, size) == 0
    ensures BehindForGood(rank, sizes)
  {
    var at := LastOpenAt(groups);
    DividedStarts(groups, size, sizes);
    forall j: nat, k: nat | j <= k < |sizes| && Behind(rank, sizes, j) ensures Behind(rank, sizes, k) {
      if k <= at || at < j || LastShare(groups, size) >= 0 {
        StartsGrow(sizes, j, k);
      } else {
        StartsGrow(sizes, j, at);
      }
    }
  }

  /** A rank for which they differ: the one at which the entry behind the last open group starts, or the
      first rank. */
  lemma LostRank(groups: seq<Entry>, size: nat, sizes: seq<Entry>) returns (rank: nat)
    requires Distinct(groups) && Open(groups) > 0 && Divided(groups, size, sizes) && size > 0
    requires LastShare(groups, size) < 0 && LastOpenAt(groups) < |groups| - 1 && BeforeLast(groups, size) > 0
    ensures rank < size && !BehindForGood(rank, sizes)
  {
    var at := LastOpenAt(groups);
    DividedStarts(groups, size, sizes);
    var next := Sum(sizes[..at + 1]);
    rank := if next < 0 then 0 else next;
    SumStep(sizes, at + 1);
    StartsGrow(sizes, at + 2, |sizes|);
    assert sizes[..|sizes|] == sizes;
    assert Behind(rank, sizes, at) && !Behind(rank, sizes, at + 1);
  }

  lemma OpenStep(groups: seq<Entry>, g: Entry)
    ensures Open(groups + [g]) == Open(groups) + if g.size <= 0 then 1 else 0
    ensures Fixed(groups + [g]) == Fixed(groups) + if g.size > 0 then g.size else 0
    ensures OpenNames(groups + [g]) == OpenNames(groups) + if g.size <= 0 then [g.name] else []
  {
    assert (groups + [g])[..|groups|] == groups;
  }

  lemma PlaceStep(procs: seq<Entry>, i: nat, rank: int)
    requires i < |procs|
    ensures var before, after, g := procs[..i], procs[..i + 1], procs[i];
      Sum(after) == Sum(before) + g.size &&
      ColorOf(rank, after) == ColorOf(rank, before) + (if rank >= Sum(after) then 1 else 0) &&
      GroupOf(rank, after) == if rank >= Sum(before) then g.name else GroupOf(rank, before)
  {
    assert procs[..i + 1][..i] == procs[..i];
  }

  /** Three of four ranks are asked for, and the two open groups are given two and minus one. */
  lemma NegativeSize()
    ensures var groups := [Entry("a", 0), Entry("b", 0), Entry("c", 3)];
      Open(groups) == 2 && LastOpen(groups) == "b" && LastShare(groups, 4) == -1 && 4 / Open(groups) == 2
  {
    var a, b, c := Entry("a", 0), Entry("b", 0), Entry("c", 3);
    OpenStep([], a);
    OpenStep([a], b);
    OpenStep([a, b], c);
    assert [] + [a] == [a] && [a] + [b] == [a, b] && [a, b] + [c] == [a, b, c];
    TimesIs(1, 2);
  }

  lemma ThreePlaces(a: Entry, b: Entry, c: Entry, rank: nat)
    ensures Sum([a, b, c]) == a.size + b.size + c.size
    ensures GroupOf(rank, [a, b, c]) ==
      if rank >= a.size + b.size then c.name else if rank >= a.size then b.name else a.name
    ensures var color1 := if rank >= a.size then 1 else 0;
      var color2 := if rank >= a.size + b.size then color1 + 1 else color1;
      ColorOf(rank, [a, b, c]) == if rank >= a.size + b.size + c.size then color2 + 1 else color2
  {
    var procs := [a, b, c];
    PlaceStep(procs, 0, rank);
    PlaceStep(procs, 1, rank);
    PlaceStep(procs, 2, rank);
    assert procs[..0] == [] && procs[..3] == procs;
  }

  /** These sizes are accepted for four ranks. Rank 1 has the colour of `b` and takes itself for one of
      `c`, which ranks 2 and 3 are by colour and name. */
  lemma NegativeLayout()
    ensures var procs := [Entry("a", 2), Entry("b", -1), Entry("c", 3)];
      Sum(procs) == 4 && Distinct(procs) &&
      ColorOf(1, procs) == 1 && GroupOf(1, procs) == "c" &&
      ColorOf(2, procs) == ColorOf(3, procs) == 2 && GroupOf(2, procs) == GroupOf(3, procs) == "c"
  {
    var a, b, c := Entry("a", 2), Entry("b", -1), Entry("c", 3);
    assert a.name[0] == 'a' && b.name[0] == 'b' && c.name[0] == 'c';
    ThreePlaces(a, b, c, 1);
    ThreePlaces(a, b, c, 2);
    ThreePlaces(a, b, c, 3);
  }
}
