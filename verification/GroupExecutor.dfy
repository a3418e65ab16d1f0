/** The loop that a control group runs over its puppets. A puppet is a program that runs until it
    yields or its main function returns; what it does at a time is given by a function of all that has
    happened so far. */
module GroupExecutor {

  /** `call` is the name of a puppet, with a star in front when it is to be proceeded once more at the
      end of the pass; the body is run when the puppet's last result was zero. */
  datatype Statement = Statement(call: string, body: seq<Statement>) {
    predicate Starred() { call != "" && call[0] == '*' }

    function Name(): string { if Starred() then call[1..] else call }
  }

  predicate Uses(s: Statement, n: string) {
    s.call == n || (s.Starred() && s.call[1..] == n) || UsesAny(s.body, n)
  }

  predicate UsesAny(ss: seq<Statement>, n: string) {
    ss != [] && (UsesAny(ss[..|ss| - 1], n) || Uses(ss[|ss| - 1], n))
  }

  datatype Outcome = Yields | Returns(code: int)

  datatype Event = Signalled(name: string) | Proceeded(name: string, outcome: Outcome)

  type Behaviour = (seq<Event>, string) -> Outcome

  datatype PuppetState = PuppetState(running: bool, stop: bool, result: int) {
    /** Main is started again by the next proceed after it has returned. */
    function After(o: Outcome): PuppetState {
      if o.Yields? then this.(running := true) else this.(running := false, result := o.code)
    }
  }

  datatype Exec = Exec(puppets: map<string, PuppetState>, stop: bool, revisit: seq<string>, log: seq<Event>)

  datatype Group = Group(commands: seq<Statement>, control: string, behave: Behaviour)

  /** All puppets that the statements name are there. */
  predicate Loaded(e: Exec, ss: seq<Statement>) {
    AllNamed(e.puppets.Keys, ss)
  }

  predicate AllNamed(names: set<string>, ss: seq<Statement>) {
    ss == [] || (AllNamed(names, ss[..|ss| - 1]) && ss[|ss| - 1].Name() in names && AllNamed(names, ss[|ss| - 1].body))
  }

  predicate AllIn(names: seq<string>, e: Exec) {
    forall i :: 0 <= i < |names| ==> names[i] in e.puppets
  }

  function Proceed(g: Group, e: Exec, n: string): (r: Exec)
    requires n in e.puppets
    ensures r.puppets.Keys == e.puppets.Keys && r.revisit == e.revisit && r.stop == e.stop
  {
    var o := g.behave(e.log, n);
    e.(puppets := e.puppets[n := e.puppets[n].After(o)], log := e.log + [Proceeded(n, o)])
  }

  function Signal(e: Exec, n: string): (r: Exec)
    requires n in e.puppets
    ensures r.puppets.Keys == e.puppets.Keys && r.revisit == e.revisit && r.stop == e.stop
  {
    e.(puppets := e.puppets[n := e.puppets[n].(stop := true)], log := e.log + [Signalled(n)])
  }

  /** One puppet: told to stop if the group stops, proceeded, and looked at if it is the control puppet. */
  function RunPuppet(g: Group, e: Exec, n: string): (r: Exec)
    requires n in e.puppets
    ensures r.puppets.Keys == e.puppets.Keys && r.revisit == e.revisit
  {
    var d := Proceed(g, if e.stop then Signal(e, n) else e, n);
    if !d.puppets[n].running && g.control == n then d.(stop := true) else d
  }

  function RunStatement(g: Group, e: Exec, s: Statement): (r: Exec)
    requires s.Name() in e.puppets && Loaded(e, s.body) && AllIn(e.revisit, e)
    ensures r.puppets.Keys == e.puppets.Keys && AllIn(r.revisit, r)
    decreases s, 0
  {
    var d := RunPuppet(g, if s.Starred() then e.(revisit := e.revisit + [s.Name()]) else e, s.Name());
    if s.body != [] && d.puppets[s.Name()].result == 0 then
      RunAll(g, d, s.body)
    else d
  }

  function RunAll(g: Group, e: Exec, ss: seq<Statement>): (r: Exec)
    requires Loaded(e, ss) && AllIn(e.revisit, e)
    ensures r.puppets.Keys == e.puppets.Keys && AllIn(r.revisit, r)
    decreases ss, 1
  {
    if ss == [] then e
    else
      var k := |ss| - 1;
      var d := RunAll(g, e, ss[..k]);
      RunStatement(g, d, ss[k])
  }

  function ProceedAll(g: Group, e: Exec, names: seq<string>): (r: Exec)
    requires AllIn(names, e)
    ensures r.puppets.Keys == e.puppets.Keys && r.stop == e.stop
  {
    if names == [] then e
    else
      var k := |names| - 1;
      Proceed(g, ProceedAll(g, e, names[..k]), names[k])
  }

  /** One pass: all statements, and then the starred ones that were come by. */
  function Pass(g: Group, e: Exec): (r: Exec)
    requires Loaded(e, g.commands) && e.revisit == []
    ensures r.puppets.Keys == e.puppets.Keys && r.revisit == []
  {
    var d := RunAll(g, e, g.commands);
    ProceedAll(g, d, d.revisit).(revisit := [])
  }

  // What a pass adds to the log.

  predicate NoSignal(es: seq<Event>) {
    forall i :: 0 <= i < |es| ==> es[i].Proceeded?
  }

  /** Every proceed comes right after a signal to the same puppet, and every signal right before one. */
  predicate Paired(es: seq<Event>) {
    es == [] ||
    (|es| >= 2 && es[|es| - 2] == Signalled(es[|es| - 1].name) && es[|es| - 1].Proceeded? && Paired(es[..|es| - 2]))
  }

  function Count(es: seq<Event>, n: string): nat {
    if es == [] then 0
    else Count(es[..|es| - 1], n) + if es[|es| - 1].Proceeded? && es[|es| - 1].name == n then 1 else 0
  }

  lemma {:induction false} CountJoin(a: seq<Event>, b: seq<Event>, n: string)
    ensures Count(a + b, n) == Count(a, n) + Count(b, n)
  {
    if b == [] {
      assert a + b == a;
    } else {
      assert (a + b)[..|a + b| - 1] == a + b[..|b| - 1];
      CountJoin(a, b[..|b| - 1], n);
    }
  }

  lemma {:induction false} PairedJoin(a: seq<Event>, b: seq<Event>)
    requires Paired(a) && Paired(b)
    ensures Paired(a + b)
  {
    if b == [] {
      assert a + b == a;
    } else {
      assert (a + b)[..|a + b| - 2] == a + b[..|b| - 2];
      PairedJoin(a, b[..|b| - 2]);
    }
  }

  /** What happened between two states. */
  function Since(e: Exec, r: Exec): seq<Event> {
    if |e.log| <= |r.log| then r.log[|e.log|..] else []
  }

  predicate Extends(e: Exec, r: Exec) {
    e.log <= r.log && r.puppets.Keys == e.puppets.Keys
  }

  lemma SinceJoin(a: Exec, b: Exec, c: Exec)
    requires Extends(a, b) && Extends(b, c)
    ensures Extends(a, c) && Since(a, c) == Since(a, b) + Since(b, c)
  {
  }

  function Signals(es: seq<Event>, n: string): nat {
    if es == [] then 0
    else Signals(es[..|es| - 1], n) + if es[|es| - 1] == Signalled(n) then 1 else 0
  }

  lemma {:induction false} SignalsJoin(a: seq<Event>, b: seq<Event>, n: string)
    ensures Signals(a + b, n) == Signals(a, n) + Signals(b, n)
  {
    if b == [] {
      assert a + b == a;
    } else {
      assert (a + b)[..|a + b| - 1] == a + b[..|b| - 1];
      SignalsJoin(a, b[..|b| - 1], n);
    }
  }

  lemma {:induction false} NoSignals(es: seq<Event>, n: string)
    requires NoSignal(es)
    ensures Signals(es, n) == 0
  {
    if es == [] {
    } else {
      NoSignals(es[..|es| - 1], n);
    }
  }

  lemma {:induction false} PairedSignals(es: seq<Event>, n: string)
    requires Paired(es)
    ensures Signals(es, n) == Count(es, n)
  {
    if es == [] {
    } else {
      var k := |es| - 2;
      PairedSignals(es[..k], n);
      assert es[..k + 1][..k] == es[..k];
    }
  }

  /** A stretch in which the control puppet has no part: the stop stays as it was, and all puppets are
      told to stop before they go on, or none. */
  predicate Quiet(g: Group, e: Exec, r: Exec) {
    Extends(e, r) && r.stop == e.stop && Count(Since(e, r), g.control) == 0 &&
    (if e.stop then Paired(Since(e, r)) else NoSignal(Since(e, r)))
  }

  lemma QuietJoin(g: Group, a: Exec, b: Exec, c: Exec)
    requires Quiet(g, a, b) && Quiet(g, b, c)
    ensures Quiet(g, a, c)
  {
    SinceJoin(a, b, c);
    CountJoin(Since(a, b), Since(b, c), g.control);
    if a.stop { PairedJoin(Since(a, b), Since(b, c)); }
  }

  lemma PuppetSince(g: Group, e: Exec, n: string)
    requires n in e.puppets
    ensures var r := RunPuppet(g, e, n); var o := g.behave(if e.stop then e.log + [Signalled(n)] else e.log, n);
      Extends(e, r) &&
      Since(e, r) == (if e.stop then [Signalled(n), Proceeded(n, o)] else [Proceeded(n, o)]) &&
      (r.stop <==> e.stop || (n == g.control && o.Returns?))
  {
  }

  lemma PuppetQuiet(g: Group, e: Exec, n: string)
    requires n in e.puppets && n != g.control
    ensures Quiet(g, e, RunPuppet(g, e, n))
  {
    PuppetSince(g, e, n);
    var added := Since(e, RunPuppet(g, e, n));
    assert added[..|added| - 1] == if e.stop then [Signalled(n)] else [];
    if e.stop {
      assert added[..0] == [] && added[..1][..0] == [];
      assert Count(added[..1], g.control) == 0;
    }
  }

  lemma {:induction false} StatementQuiet(g: Group, e: Exec, s: Statement)
    requires s.Name() in e.puppets && Loaded(e, s.body) && AllIn(e.revisit, e) && !Uses(s, g.control)
    ensures Quiet(g, e, RunStatement(g, e, s))
    decreases s, 0
  {
    var e1 := if s.Starred() then e.(revisit := e.revisit + [s.Name()]) else e;
    var d := RunPuppet(g, e1, s.Name());
    PuppetQuiet(g, e1, s.Name());
    assert Quiet(g, e, d);
    if s.body != [] && d.puppets[s.Name()].result == 0 {
      AllQuiet(g, d, s.body);
      QuietJoin(g, e, d, RunAll(g, d, s.body));
    }
  }

  lemma {:induction false} AllQuiet(g: Group, e: Exec, ss: seq<Statement>)
    requires Loaded(e, ss) && AllIn(e.revisit, e) && !UsesAny(ss, g.control)
    ensures Quiet(g, e, RunAll(g, e, ss))
    decreases ss, 1
  {
    if ss == [] {
    } else {
      var k := |ss| - 1;
      var d := RunAll(g, e, ss[..k]);
      AllQuiet(g, e, ss[..k]);
      StatementQuiet(g, d, ss[k]);
      QuietJoin(g, e, d, RunStatement(g, d, ss[k]));
    }
  }

  // How often a puppet goes on.

  function Mentions(names: seq<string>, n: string): nat {
    if names == [] then 0
    else Mentions(names[..|names| - 1], n) + if names[|names| - 1] == n then 1 else 0
  }

  /** How many of the statements are for the puppet, and how many of these are starred. */
  function Occurs(ss: seq<Statement>, n: string): nat {
    if ss == [] then 0
    else Occurs(ss[..|ss| - 1], n) + if ss[|ss| - 1].Name() == n then 1 else 0
  }

  function Stars(ss: seq<Statement>, n: string): nat {
    if ss == [] then 0
    else Stars(ss[..|ss| - 1], n) + if ss[|ss| - 1].Starred() && ss[|ss| - 1].Name() == n then 1 else 0
  }

  /** No body has the puppet. */
  predicate Unconditional(ss: seq<Statement>, n: string) {
    forall i :: 0 <= i < |ss| ==> !UsesAny(ss[i].body, n)
  }

  /** A stretch in which the puppet goes on `times` times and is noted `stars` times for the end. */
  predicate Times(e: Exec, r: Exec, n: string, times: nat, stars: nat) {
    Extends(e, r) && Count(Since(e, r), n) == times && Mentions(r.revisit, n) == Mentions(e.revisit, n) + stars
  }

  lemma TimesJoin(a: Exec, b: Exec, c: Exec, n: string, t1: nat, s1: nat, t2: nat, s2: nat)
    requires Times(a, b, n, t1, s1) && Times(b, c, n, t2, s2)
    ensures Times(a, c, n, t1 + t2, s1 + s2)
  {
    SinceJoin(a, b, c);
    CountJoin(Since(a, b), Since(b, c), n);
  }

  lemma PuppetTimes(g: Group, e: Exec, m: string, n: string)
    requires m in e.puppets
    ensures Times(e, RunPuppet(g, e, m), n, if m == n then 1 else 0, 0)
  {
    PuppetSince(g, e, m);
    var added := Since(e, RunPuppet(g, e, m));
    if e.stop {
      assert added[..1] == [Signalled(m)] && added[..1][..0] == [];
      assert Count(added[..1], n) == 0;
    } else {
      assert added[..0] == [];
      assert Count(added[..0], n) == 0;
    }
  }

  lemma {:induction false} StatementTimes(g: Group, e: Exec, s: Statement, n: string)
    requires s.Name() in e.puppets && Loaded(e, s.body) && AllIn(e.revisit, e) && !UsesAny(s.body, n)
    ensures Times(e, RunStatement(g, e, s), n,
      if s.Name() == n then 1 else 0, if s.Starred() && s.Name() == n then 1 else 0)
    decreases s, 0
  {
    var e1 := if s.Starred() then e.(revisit := e.revisit + [s.Name()]) else e;
    var d := RunPuppet(g, e1, s.Name());
    PuppetTimes(g, e1, s.Name(), n);
    if s.Starred() { assert e1.revisit[..|e.revisit|] == e.revisit; }
    var times, stars := if s.Name() == n then 1 else 0, if s.Starred() && s.Name() == n then 1 else 0;
    assert Times(e, d, n, times, stars);
    if s.body != [] && d.puppets[s.Name()].result == 0 {
      UnusedTimes(g, d, s.body, n);
      TimesJoin(e, d, RunAll(g, d, s.body), n, times, stars, 0, 0);
    }
  }

  lemma {:induction false} UnusedTimes(g: Group, e: Exec, ss: seq<Statement>, n: string)
    requires Loaded(e, ss) && AllIn(e.revisit, e) && !UsesAny(ss, n)
    ensures Times(e, RunAll(g, e, ss), n, 0, 0)
    decreases ss, 1
  {
    if ss == [] {
    } else {
      var k := |ss| - 1;
      var d := RunAll(g, e, ss[..k]);
      UnusedTimes(g, e, ss[..k], n);
      StatementTimes(g, d, ss[k], n);
      TimesJoin(e, d, RunStatement(g, d, ss[k]), n, 0, 0, 0, 0);
    }
  }

  lemma {:induction false} AllTimes(g: Group, e: Exec, ss: seq<Statement>, n: string)
    requires Loaded(e, ss) && AllIn(e.revisit, e) && Unconditional(ss, n)
    ensures Times(e, RunAll(g, e, ss), n, Occurs(ss, n), Stars(ss, n))
  {
    if ss == [] {
    } else {
      var k := |ss| - 1;
      var d := RunAll(g, e, ss[..k]);
      AllTimes(g, e, ss[..k], n);
      StatementTimes(g, d, ss[k], n);
      TimesJoin(e, d, RunStatement(g, d, ss[k]), n, Occurs(ss[..k], n), Stars(ss[..k], n),
        if ss[k].Name() == n then 1 else 0, if ss[k].Starred() && ss[k].Name() == n then 1 else 0);
    }
  }

  lemma {:induction false} ProceedAllSince(g: Group, e: Exec, names: seq<string>, n: string)
    requires AllIn(names, e)
    ensures var r := ProceedAll(g, e, names);
      Extends(e, r) && NoSignal(Since(e, r)) && Count(Since(e, r), n) == Mentions(names, n)
  {
    if names == [] {
    } else {
      var k := |names| - 1;
      ProceedAllSince(g, e, names[..k], n);
      var d, r := ProceedAll(g, e, names[..k]), ProceedAll(g, e, names);
      assert Since(e, r)[..|Since(e, r)| - 1] == Since(e, d);
    }
  }

  /** In every pass a puppet goes on once for each statement, and once more for each starred one. */
  lemma OncePerStatement(g: Group, e: Exec, n: string)
    requires Loaded(e, g.commands) && e.revisit == [] && Unconditional(g.commands, n)
    ensures Extends(e, Pass(g, e)) && Count(Since(e, Pass(g, e)), n) == Occurs(g.commands, n) + Stars(g.commands, n)
  {
    var d := RunAll(g, e, g.commands);
    AllTimes(g, e, g.commands, n);
    ProceedAllSince(g, d, d.revisit, n);
    var r := ProceedAll(g, d, d.revisit);
    SinceJoin(e, d, r);
    CountJoin(Since(e, d), Since(d, r), n);
    assert Since(e, Pass(g, e)) == Since(e, r);
  }

  // The control puppet.

  /** The control puppet stands in one statement, at top level and without a star. */
  predicate ControlledAt(g: Group, at: nat) {
    at < |g.commands| && g.commands[at].call == g.control && !g.commands[at].Starred() &&
    !UsesAny(g.commands[..at], g.control) && !UsesAny(g.commands[at].body, g.control) &&
    !UsesAny(g.commands[at + 1..], g.control)
  }

  /** Its main function yields `k` times and then returns. */
  ghost predicate YieldsTimes(g: Group, k: nat) {
    forall log: seq<Event> :: GoesOn(g, k, log)
  }

  predicate GoesOn(g: Group, k: nat, log: seq<Event>) {
    (Count(log, g.control) < k ==> g.behave(log, g.control).Yields?) &&
    (Count(log, g.control) == k ==> g.behave(log, g.control).Returns?)
  }

  lemma {:induction false} NamedJoin(names: set<string>, a: seq<Statement>, b: seq<Statement>)
    ensures AllNamed(names, a + b) <==> AllNamed(names, a) && AllNamed(names, b)
    decreases |b|
  {
    if b == [] {
      assert a + b == a;
    } else {
      assert (a + b)[..|a + b| - 1] == a + b[..|b| - 1];
      NamedJoin(names, a, b[..|b| - 1]);
    }
  }

  lemma NamedStep(names: set<string>, ss: seq<Statement>, s: Statement)
    ensures AllNamed(names, ss + [s]) <==> AllNamed(names, ss) && s.Name() in names && AllNamed(names, s.body)
  {
    assert (ss + [s])[..|ss|] == ss;
  }

  lemma RunAllStep(g: Group, e: Exec, ss: seq<Statement>, s: Statement)
    requires Loaded(e, ss) && AllIn(e.revisit, e) && s.Name() in e.puppets && Loaded(e, s.body)
    ensures Loaded(e, ss + [s]) && RunAll(g, e, ss + [s]) == RunStatement(g, RunAll(g, e, ss), s)
  {
    assert (ss + [s])[..|ss|] == ss;
  }

  lemma {:induction false} RunJoin(g: Group, e: Exec, a: seq<Statement>, b: seq<Statement>)
    requires Loaded(e, a) && Loaded(e, b) && AllIn(e.revisit, e)
    ensures Loaded(e, a + b) && Loaded(RunAll(g, e, a), b)
    ensures RunAll(g, e, a + b) == RunAll(g, RunAll(g, e, a), b)
    decreases |b|
  {
    if b == [] {
      assert a + b == a;
    } else {
      var first, s := b[..|b| - 1], b[|b| - 1];
      assert b == first + [s] && a + b == (a + first) + [s];
      NamedStep(e.puppets.Keys, first, s);
      RunJoin(g, e, a, first);
      RunAllStep(g, e, a + first, s);
      RunAllStep(g, RunAll(g, e, a), first, s);
    }
  }

  /** A pass in stages: up to the control statement, the control puppet, its body, the rest, the revisits. */
  datatype Stages = Stages(before: Exec, control: Exec, body: Exec, after: Exec, end: Exec)

  function BodyOf(g: Group, e: Exec, s: Statement): (r: Exec)
    requires s.Name() in e.puppets && Loaded(e, s.body) && AllIn(e.revisit, e)
    ensures r.puppets.Keys == e.puppets.Keys && AllIn(r.revisit, r)
  {
    if s.body != [] && e.puppets[s.Name()].result == 0 then RunAll(g, e, s.body) else e
  }

  function StagesOf(g: Group, e: Exec, first: seq<Statement>, c: Statement, rest: seq<Statement>): Stages
    requires Loaded(e, first) && c.Name() in e.puppets && Loaded(e, c.body) && Loaded(e, rest) && AllIn(e.revisit, e)
  {
    var before := RunAll(g, e, first);
    var control := RunPuppet(g, before, c.Name());
    var body := BodyOf(g, control, c);
    var after := RunAll(g, body, rest);
    Stages(before, control, body, after, ProceedAll(g, after, after.revisit))
  }

  /** The statements before the control statement, it, and those after it. */
  predicate Parts(g: Group, first: seq<Statement>, c: Statement, rest: seq<Statement>) {
    g.commands == first + ([c] + rest) && c.call == g.control && !c.Starred() &&
    !UsesAny(first, g.control) && !UsesAny(c.body, g.control) && !UsesAny(rest, g.control)
  }

  lemma ControlledParts(g: Group, at: nat)
    requires ControlledAt(g, at)
    ensures Parts(g, g.commands[..at], g.commands[at], g.commands[at + 1..])
  {
    assert g.commands == g.commands[..at] + ([g.commands[at]] + g.commands[at + 1..]);
  }

  lemma LoadedParts(e: Exec, first: seq<Statement>, c: Statement, rest: seq<Statement>)
    requires Loaded(e, first + ([c] + rest))
    ensures Loaded(e, first) && Loaded(e, [c]) && Loaded(e, [c] + rest) && Loaded(e, rest) && c.Name() in e.puppets &&
      Loaded(e, c.body)
  {
    NamedJoin(e.puppets.Keys, first, [c] + rest);
    NamedJoin(e.puppets.Keys, [c], rest);
    assert [c][..0] == [];
  }

  lemma RunOne(g: Group, e: Exec, c: Statement)
    requires Loaded(e, [c]) && AllIn(e.revisit, e) && !c.Starred() && c.Name() in e.puppets && Loaded(e, c.body)
    ensures RunAll(g, e, [c]) == BodyOf(g, RunPuppet(g, e, c.Name()), c)
  {
    assert [c][..0] == [];
  }

  lemma RunParts(g: Group, e: Exec, first: seq<Statement>, c: Statement, rest: seq<Statement>)
    requires Loaded(e, first + ([c] + rest)) && AllIn(e.revisit, e) && !c.Starred()
    requires Loaded(e, first) && Loaded(e, [c]) && Loaded(e, [c] + rest) && Loaded(e, rest) &&
      c.Name() in e.puppets && Loaded(e, c.body)
    ensures RunAll(g, e, first + ([c] + rest)) == StagesOf(g, e, first, c, rest).after
  {
    var before := RunAll(g, e, first);
    RunJoin(g, e, first, [c] + rest);
    RunJoin(g, before, [c], rest);
    RunOne(g, before, c);
  }

  /** What the stages of a pass do while the group has not stopped. */
  lemma StagesDo(g: Group, e: Exec, first: seq<Statement>, c: Statement, rest: seq<Statement>)
    requires Parts(g, first, c, rest) && e.revisit == [] && !e.stop
    requires Loaded(e, first) && c.Name() in e.puppets && Loaded(e, c.body) && Loaded(e, rest)
    ensures var st := StagesOf(g, e, first, c, rest); var o := g.behave(st.before.log, g.control);
      Quiet(g, e, st.before) && Quiet(g, st.control, st.after) &&
      Extends(st.before, st.control) && Since(st.before, st.control) == [Proceeded(g.control, o)] &&
      (st.control.stop <==> o.Returns?)
  {
    AllQuiet(g, e, first);
    var before := RunAll(g, e, first);
    PuppetSince(g, before, g.control);
    RestQuiet(g, RunPuppet(g, before, g.control), c, rest);
  }

  lemma RestQuiet(g: Group, e: Exec, c: Statement, rest: seq<Statement>)
    requires c.Name() in e.puppets && Loaded(e, c.body) && Loaded(e, rest) && AllIn(e.revisit, e)
    requires !UsesAny(c.body, g.control) && !UsesAny(rest, g.control)
    ensures Quiet(g, e, RunAll(g, BodyOf(g, e, c), rest))
  {
    var body := BodyOf(g, e, c);
    AllQuiet(g, e, c.body);
    AllQuiet(g, body, rest);
    assert Quiet(g, e, e);
    QuietJoin(g, e, body, RunAll(g, body, rest));
  }

  /** The control puppet is not among those to be revisited. */
  lemma ControlNotRevisited(g: Group, e: Exec, first: seq<Statement>, c: Statement, rest: seq<Statement>)
    requires Parts(g, first, c, rest) && e.revisit == []
    requires Loaded(e, first) && c.Name() in e.puppets && Loaded(e, c.body) && Loaded(e, rest)
    ensures Mentions(StagesOf(g, e, first, c, rest).after.revisit, g.control) == 0
  {
    UnusedTimes(g, e, first, g.control);
    var control := RunPuppet(g, RunAll(g, e, first), g.control);
    UnusedTimes(g, control, c.body, g.control);
    UnusedTimes(g, BodyOf(g, control, c), rest, g.control);
  }

  /** What a pass adds to the log: nobody is told to stop before the control puppet goes on (`x`) or
      when revisited (`z`); between them (`y`) everybody is if the control puppet has returned, and
      nobody otherwise. The control puppet goes on once. */
  ghost predicate PassShape(g: Group, e: Exec, r: Exec, x: seq<Event>, o: Outcome, y: seq<Event>, z: seq<Event>) {
    r.log == e.log + (x + [Proceeded(g.control, o)] + y + z) &&
    o == g.behave(e.log + x, g.control) && (r.stop <==> o.Returns?) &&
    NoSignal(x) && NoSignal(z) && (if o.Returns? then Paired(y) else NoSignal(y)) &&
    Count(x, g.control) == Count(y, g.control) == Count(z, g.control) == 0
  }

  lemma PassLog(g: Group, e: Exec, first: seq<Statement>, c: Statement, rest: seq<Statement>)
    requires Parts(g, first, c, rest) && Loaded(e, g.commands) && e.revisit == [] && !e.stop
    requires Loaded(e, first) && c.Name() in e.puppets && Loaded(e, c.body) && Loaded(e, rest)
    ensures StagesShape(g, e, Pass(g, e), StagesOf(g, e, first, c, rest))
  {
    var st := StagesOf(g, e, first, c, rest);
    LoadedParts(e, first, c, rest);
    RunParts(g, e, first, c, rest);
    StagesDo(g, e, first, c, rest);
    ControlNotRevisited(g, e, first, c, rest);
    ProceedAllSince(g, st.after, st.after.revisit, g.control);
    ShapeOfStages(g, e, st, g.behave(st.before.log, g.control));
  }

  ghost predicate StagesShape(g: Group, e: Exec, r: Exec, st: Stages) {
    PassShape(g, e, r, Since(e, st.before), g.behave(st.before.log, g.control), Since(st.control, st.after),
      Since(st.after, st.end))
  }

  lemma ShapeOfStages(g: Group, e: Exec, st: Stages, o: Outcome)
    requires !e.stop && o == g.behave(st.before.log, g.control)
    requires Quiet(g, e, st.before) && Quiet(g, st.control, st.after)
    requires Extends(st.before, st.control) && Since(st.before, st.control) == [Proceeded(g.control, o)]
    requires (st.control.stop <==> o.Returns?) && st.end.stop == st.after.stop
    requires Extends(st.after, st.end) && NoSignal(Since(st.after, st.end)) &&
      Count(Since(st.after, st.end), g.control) == 0
    ensures PassShape(g, e, st.end.(revisit := []), Since(e, st.before), o, Since(st.control, st.after),
      Since(st.after, st.end))
  {
    FourStretches(e.log, st.before.log, st.control.log, st.after.log, st.end.log);
  }

  lemma FourStretches(a: seq<Event>, b: seq<Event>, c: seq<Event>, d: seq<Event>, e: seq<Event>)
    requires a <= b <= c <= d <= e
    ensures b == a + b[|a|..] && e == a + (b[|a|..] + c[|b|..] + d[|c|..] + e[|d|..])
  {
  }

  lemma CountFour(x: seq<Event>, p: Event, y: seq<Event>, z: seq<Event>, n: string)
    ensures Count(x + [p] + y + z, n) == Count(x, n) + (if p.Proceeded? && p.name == n then 1 else 0) + Count(y, n) +
      Count(z, n)
    ensures Signals(x + [p] + y + z, n) == Signals(x, n) + (if p == Signalled(n) then 1 else 0) + Signals(y, n) +
      Signals(z, n)
  {
    assert [p][..0] == [];
    CountJoin(x + [p] + y, z, n);
    CountJoin(x + [p], y, n);
    CountJoin(x, [p], n);
    SignalsJoin(x + [p] + y, z, n);
    SignalsJoin(x + [p], y, n);
    SignalsJoin(x, [p], n);
  }

  /** One more pass is one more proceed of the control puppet, in whatever state it starts. */
  lemma PassCounts(g: Group, e: Exec, r: Exec, x: seq<Event>, o: Outcome, y: seq<Event>, z: seq<Event>)
    requires PassShape(g, e, r, x, o, y, z)
    ensures Count(r.log, g.control) == Count(e.log, g.control) + 1
  {
    CountFour(x, Proceeded(g.control, o), y, z, g.control);
    CountJoin(e.log, x + [Proceeded(g.control, o)] + y + z, g.control);
  }

  lemma PassStops(g: Group, e: Exec, r: Exec, x: seq<Event>, o: Outcome, y: seq<Event>, z: seq<Event>, k: nat)
    requires PassShape(g, e, r, x, o, y, z) && YieldsTimes(g, k) && Count(e.log, g.control) <= k
    ensures r.stop <==> Count(e.log, g.control) == k
  {
    CountJoin(e.log, x, g.control);
    assert GoesOn(g, k, e.log + x);
  }

  lemma NoSignalFour(before: seq<Event>, x: seq<Event>, p: Event, y: seq<Event>, z: seq<Event>)
    requires NoSignal(before) && NoSignal(x) && p.Proceeded? && NoSignal(y) && NoSignal(z)
    ensures NoSignal(before + (x + [p] + y + z))
  {
  }

  /** One pass while the control puppet has gone on no more than `k` times. */
  lemma PassStep(g: Group, e: Exec, r: Exec, x: seq<Event>, o: Outcome, y: seq<Event>, z: seq<Event>, k: nat)
    requires PassShape(g, e, r, x, o, y, z) && YieldsTimes(g, k) && Count(e.log, g.control) <= k
    ensures Count(r.log, g.control) == Count(e.log, g.control) + 1 && (r.stop <==> Count(e.log, g.control) == k)
    ensures !r.stop && NoSignal(e.log) ==> NoSignal(r.log)
  {
    PassCounts(g, e, r, x, o, y, z);
    PassStops(g, e, r, x, o, y, z, k);
    if !r.stop && NoSignal(e.log) { NoSignalFour(e.log, x, Proceeded(g.control, o), y, z); }
  }

  function Passes(g: Group, e: Exec, n: nat): (r: Exec)
    requires Loaded(e, g.commands) && e.revisit == []
    ensures r.puppets.Keys == e.puppets.Keys && r.revisit == []
  {
    if n == 0 then e
    else
      var d := Passes(g, e, n - 1);
      Pass(g, d)
  }

  // When a group stops, wherever its control puppet stands.

  /** In one of these events the main function of the puppet has returned. */
  predicate ReturnedIn(es: seq<Event>, n: string) {
    exists i :: 0 <= i < |es| && ReturnOf(es[i], n)
  }

  predicate ReturnOf(e: Event, n: string) {
    e.Proceeded? && e.name == n && e.outcome.Returns?
  }

  lemma ReturnedJoin(a: seq<Event>, b: seq<Event>, n: string)
    ensures ReturnedIn(a + b, n) <==> ReturnedIn(a, n) || ReturnedIn(b, n)
  {
    if ReturnedIn(a, n) {
      var i :| 0 <= i < |a| && ReturnOf(a[i], n);
      assert ReturnOf((a + b)[i], n);
    }
    if ReturnedIn(b, n) {
      var i :| 0 <= i < |b| && ReturnOf(b[i], n);
      assert ReturnOf((a + b)[|a| + i], n);
    }
  }

  /** Every outcome in the log is what the puppet does after what stands before it. */
  predicate Told(g: Group, log: seq<Event>) {
    forall i :: 0 <= i < |log| ==> ToldAt(g, log, i)
  }

  predicate ToldAt(g: Group, log: seq<Event>, i: nat)
    requires i < |log|
  {
    log[i].Proceeded? ==> log[i].outcome == g.behave(log[..i], log[i].name)
  }

  lemma ToldNext(g: Group, log: seq<Event>, e: Event)
    requires Told(g, log) && (e.Proceeded? ==> e.outcome == g.behave(log, e.name))
    ensures Told(g, log + [e])
  {
    var more := log + [e];
    forall i | 0 <= i < |more| ensures ToldAt(g, more, i) {
      if i < |log| { assert ToldAt(g, log, i) && more[..i] == log[..i]; } else { assert more[..i] == log; }
    }
  }

  // The puppets, told from the log.

  /** The code that main has returned last, -1 before that. */
  function LastCode(log: seq<Event>, n: string): int {
    if log == [] then -1
    else
      match log[|log| - 1]
      case Proceeded(m, Returns(code)) => if m == n then code else LastCode(log[..|log| - 1], n)
      case _ => LastCode(log[..|log| - 1], n)
  }

  /** The last time the puppet went on, it yielded. */
  predicate LastYielded(log: seq<Event>, n: string) {
    log != [] &&
    match log[|log| - 1]
    case Proceeded(m, o) => if m == n then o.Yields? else LastYielded(log[..|log| - 1], n)
    case Signalled(_) => LastYielded(log[..|log| - 1], n)
  }

  /** Every puppet has been told to stop exactly if there was a signal, is running exactly if its main has
      not returned since it went on last, and has the code of its last return. */
  predicate Shown(e: Exec) {
    forall n :: n in e.puppets ==> ShownOne(e.log, e.puppets[n], n)
  }

  predicate ShownOne(log: seq<Event>, p: PuppetState, n: string) {
    p.running == LastYielded(log, n) && p.result == LastCode(log, n) && p.stop == (Signalled(n) in log)
  }

  lemma ShownNext(log: seq<Event>, e: Event, n: string)
    ensures LastCode(log + [e], n) ==
      if e.Proceeded? && e.name == n && e.outcome.Returns? then e.outcome.code else LastCode(log, n)
    ensures LastYielded(log + [e], n) ==
      if e.Proceeded? && e.name == n then e.outcome.Yields? else LastYielded(log, n)
    ensures Signalled(n) in log + [e] <==> Signalled(n) in log || e == Signalled(n)
  {
    assert (log + [e])[..|log|] == log;
  }

  lemma ProceedShown(g: Group, e: Exec, n: string)
    requires n in e.puppets && Shown(e)
    ensures Shown(Proceed(g, e, n))
  {
    var r := Proceed(g, e, n);
    forall m | m in r.puppets ensures ShownOne(r.log, r.puppets[m], m) {
      assert ShownOne(e.log, e.puppets[m], m);
      ShownNext(e.log, Proceeded(n, g.behave(e.log, n)), m);
    }
  }

  lemma SignalShown(e: Exec, n: string)
    requires n in e.puppets && Shown(e)
    ensures Shown(Signal(e, n))
  {
    var r := Signal(e, n);
    forall m | m in r.puppets ensures ShownOne(r.log, r.puppets[m], m) {
      assert ShownOne(e.log, e.puppets[m], m);
      ShownNext(e.log, Signalled(n), m);
    }
  }

  lemma PuppetShown(g: Group, e: Exec, n: string)
    requires n in e.puppets && Shown(e)
    ensures Shown(RunPuppet(g, e, n))
  {
    if e.stop { SignalShown(e, n); }
    ProceedShown(g, if e.stop then Signal(e, n) else e, n);
  }

  lemma {:induction false} StatementShown(g: Group, e: Exec, s: Statement)
    requires s.Name() in e.puppets && Loaded(e, s.body) && AllIn(e.revisit, e) && Shown(e)
    ensures Shown(RunStatement(g, e, s))
    decreases s, 0
  {
    var e1 := if s.Starred() then e.(revisit := e.revisit + [s.Name()]) else e;
    var d := RunPuppet(g, e1, s.Name());
    PuppetShown(g, e1, s.Name());
    if s.body != [] && d.puppets[s.Name()].result == 0 { AllShown(g, d, s.body); }
  }

  lemma {:induction false} AllShown(g: Group, e: Exec, ss: seq<Statement>)
    requires Loaded(e, ss) && AllIn(e.revisit, e) && Shown(e)
    ensures Shown(RunAll(g, e, ss))
    decreases ss, 1
  {
    if ss == [] {
    } else {
      AllShown(g, e, ss[..|ss| - 1]);
      StatementShown(g, RunAll(g, e, ss[..|ss| - 1]), ss[|ss| - 1]);
    }
  }

  lemma {:induction false} ProceedAllShown(g: Group, e: Exec, names: seq<string>)
    requires AllIn(names, e) && Shown(e)
    ensures Shown(ProceedAll(g, e, names))
  {
    if names == [] {
    } else {
      ProceedAllShown(g, e, names[..|names| - 1]);
      ProceedShown(g, ProceedAll(g, e, names[..|names| - 1]), names[|names| - 1]);
    }
  }

  /** Puppets as they are made: not running, not told to stop, without a result. */
  predicate AllNew(e: Exec) {
    e.log == [] && forall n :: n in e.puppets ==> e.puppets[n] == PuppetState(false, false, -1)
  }

  /** In every state that passes lead to, the puppets are what the log tells of them. */
  lemma {:induction false} PassesShown(g: Group, e: Exec, n: nat)
    requires Loaded(e, g.commands) && e.revisit == [] && AllNew(e)
    ensures Shown(Passes(g, e, n))
  {
    if n == 0 {
    } else {
      var d := Passes(g, e, n - 1);
      PassesShown(g, e, n - 1);
      AllShown(g, d, g.commands);
      ProceedAllShown(g, RunAll(g, d, g.commands), RunAll(g, d, g.commands).revisit);
    }
  }

  /** Between two statements, too: what a statement adds is its puppet's going on, and then what its body
      adds, if it has one and the last return of the puppet, now or earlier, was with zero. */
  lemma BodyRuns(g: Group, e: Exec, s: Statement)
    requires s.Name() in e.puppets && Loaded(e, s.body) && AllIn(e.revisit, e) && Shown(e)
    ensures var n, start := s.Name(), e.(revisit := e.revisit + if s.Starred() then [s.Name()] else []);
      var own := if e.stop then [Signalled(n), Proceeded(n, g.behave(e.log + [Signalled(n)], n))]
        else [Proceeded(n, g.behave(e.log, n))];
      var d, r := RunPuppet(g, start, n), RunStatement(g, e, s);
      d.log == e.log + own && d.revisit == start.revisit && Shown(d) && Shown(r) &&
      if s.body != [] && LastCode(d.log, n) == 0 then r == RunAll(g, d, s.body) else r == d
  {
    var n, start := s.Name(), e.(revisit := e.revisit + if s.Starred() then [s.Name()] else []);
    assert e.revisit + [] == e.revisit;
    assert start == if s.Starred() then e.(revisit := e.revisit + [s.Name()]) else e;
    PuppetSince(g, start, n);
    PuppetShown(g, start, n);
    assert ShownOne(RunPuppet(g, start, n).log, RunPuppet(g, start, n).puppets[n], n);
    StatementShown(g, e, s);
  }

  /** The noted puppets go on in the order in which they were noted. */
  lemma {:induction false} RevisitOrder(g: Group, e: Exec, names: seq<string>)
    requires AllIn(names, e)
    ensures var r := ProceedAll(g, e, names);
      |r.log| == |e.log| + |names| && e.log <= r.log &&
      forall i :: 0 <= i < |names| ==> GoesOnAs(r.log[|e.log| + i], names[i])
  {
    if names == [] {
    } else {
      RevisitOrder(g, e, names[..|names| - 1]);
    }
  }

  predicate GoesOnAs(e: Event, n: string) {
    e.Proceeded? && e.name == n
  }

  /** Statements note their starred puppets behind those noted before. */
  lemma {:induction false} StatementNotes(g: Group, e: Exec, s: Statement)
    requires s.Name() in e.puppets && Loaded(e, s.body) && AllIn(e.revisit, e)
    ensures e.revisit + (if s.Starred() then [s.Name()] else []) <= RunStatement(g, e, s).revisit
    ensures s.body == [] ==> RunStatement(g, e, s).revisit == e.revisit + if s.Starred() then [s.Name()] else []
    decreases s, 0
  {
    var e1 := if s.Starred() then e.(revisit := e.revisit + [s.Name()]) else e;
    var d := RunPuppet(g, e1, s.Name());
    if s.body != [] && d.puppets[s.Name()].result == 0 { AllNotes(g, d, s.body); }
  }

  lemma {:induction false} AllNotes(g: Group, e: Exec, ss: seq<Statement>)
    requires Loaded(e, ss) && AllIn(e.revisit, e)
    ensures e.revisit <= RunAll(g, e, ss).revisit
    decreases ss, 1
  {
    if ss == [] {
    } else {
      AllNotes(g, e, ss[..|ss| - 1]);
      StatementNotes(g, RunAll(g, e, ss[..|ss| - 1]), ss[|ss| - 1]);
    }
  }

  // The outcomes in the log.

  lemma ProceedTold(g: Group, e: Exec, n: string)
    requires n in e.puppets && Told(g, e.log)
    ensures Told(g, Proceed(g, e, n).log)
  {
    ToldNext(g, e.log, Proceeded(n, g.behave(e.log, n)));
  }

  /** A stretch of statements stops the group exactly when the control puppet has returned in it. */
  predicate StopsByReturn(g: Group, e: Exec, r: Exec) {
    Extends(e, r) && (r.stop <==> e.stop || ReturnedIn(Since(e, r), g.control)) && (Told(g, e.log) ==> Told(g, r.log))
  }

  lemma StopsJoin(g: Group, a: Exec, b: Exec, c: Exec)
    requires StopsByReturn(g, a, b) && StopsByReturn(g, b, c)
    ensures StopsByReturn(g, a, c)
  {
    SinceJoin(a, b, c);
    ReturnedJoin(Since(a, b), Since(b, c), g.control);
  }

  lemma PuppetTold(g: Group, e: Exec, n: string)
    requires n in e.puppets && Told(g, e.log)
    ensures Told(g, RunPuppet(g, e, n).log)
  {
    if e.stop {
      ToldNext(g, e.log, Signalled(n));
      ProceedTold(g, Signal(e, n), n);
    } else {
      ProceedTold(g, e, n);
    }
  }

  lemma PuppetStops(g: Group, e: Exec, n: string)
    requires n in e.puppets
    ensures StopsByReturn(g, e, RunPuppet(g, e, n))
  {
    PuppetSince(g, e, n);
    var added := Since(e, RunPuppet(g, e, n));
    if n == g.control && added[|added| - 1].outcome.Returns? {
      assert ReturnOf(added[|added| - 1], g.control);
    }
    if Told(g, e.log) { PuppetTold(g, e, n); }
  }

  lemma {:induction false} StatementStops(g: Group, e: Exec, s: Statement)
    requires s.Name() in e.puppets && Loaded(e, s.body) && AllIn(e.revisit, e)
    ensures StopsByReturn(g, e, RunStatement(g, e, s))
    decreases s, 0
  {
    var e1 := if s.Starred() then e.(revisit := e.revisit + [s.Name()]) else e;
    var d := RunPuppet(g, e1, s.Name());
    PuppetStops(g, e1, s.Name());
    assert StopsByReturn(g, e, d);
    if s.body != [] && d.puppets[s.Name()].result == 0 {
      AllStop(g, d, s.body);
      StopsJoin(g, e, d, RunAll(g, d, s.body));
    }
  }

  /** Whatever its commands are, the statements of a pass stop the group exactly when its control puppet
      has returned in one of them. */
  lemma {:induction false} AllStop(g: Group, e: Exec, ss: seq<Statement>)
    requires Loaded(e, ss) && AllIn(e.revisit, e)
    ensures StopsByReturn(g, e, RunAll(g, e, ss))
    decreases ss, 1
  {
    if ss == [] {
    } else {
      var k := |ss| - 1;
      var d := RunAll(g, e, ss[..k]);
      AllStop(g, e, ss[..k]);
      StatementStops(g, d, ss[k]);
      StopsJoin(g, e, d, RunStatement(g, d, ss[k]));
    }
  }

  lemma {:induction false} ProceedAllTold(g: Group, e: Exec, names: seq<string>)
    requires AllIn(names, e) && Told(g, e.log)
    ensures Told(g, ProceedAll(g, e, names).log)
  {
    if names == [] {
    } else {
      var k := |names| - 1;
      ProceedAllTold(g, e, names[..k]);
      ProceedTold(g, ProceedAll(g, e, names[..k]), names[k]);
    }
  }

  /** In a pass the group has been stopped exactly by a return of its control puppet in a statement; its
      return when it is revisited does not count. */
  lemma StopOfPass(g: Group, e: Exec)
    requires Loaded(e, g.commands) && e.revisit == []
    ensures Pass(g, e).stop <==> e.stop || ReturnedIn(Since(e, RunAll(g, e, g.commands)), g.control)
    ensures Told(g, e.log) ==> Told(g, RunAll(g, e, g.commands).log) && Told(g, Pass(g, e).log)
  {
    var d := RunAll(g, e, g.commands);
    AllStop(g, e, g.commands);
    if Told(g, e.log) { ProceedAllTold(g, d, d.revisit); }
  }

  /** After `n` passes, and no fewer, the group has stopped. */
  predicate StopsAfter(g: Group, e: Exec, n: nat)
    requires Loaded(e, g.commands) && e.revisit == []
  {
    n > 0 && forall m: nat :: 0 < m <= n ==> (Passes(g, e, m).stop <==> m == n)
  }

  ghost predicate NeverReturns(g: Group) {
    forall log: seq<Event> :: g.behave(log, g.control).Yields?
  }

  /** A group whose control puppet never returns does not stop after any number of passes. */
  lemma {:induction false} NeverStops(g: Group, e: Exec, n: nat)
    requires Loaded(e, g.commands) && Fresh(e) && NeverReturns(g)
    ensures !Passes(g, e, n).stop && !StopsAfter(g, e, n) && Told(g, Passes(g, e, n).log)
  {
    if n == 0 {
    } else {
      NeverStops(g, e, n - 1);
      GoesOnFurther(g, Passes(g, e, n - 1));
    }
  }

  lemma GoesOnFurther(g: Group, e: Exec)
    requires Loaded(e, g.commands) && e.revisit == [] && NeverReturns(g) && Told(g, e.log) && !e.stop
    ensures !Pass(g, e).stop && Told(g, Pass(g, e).log)
  {
    AllStop(g, e, g.commands);
    StopOfPass(g, e);
    NoReturn(g, e, RunAll(g, e, g.commands));
  }

  lemma NoReturn(g: Group, e: Exec, r: Exec)
    requires e.log <= r.log && Told(g, r.log) && NeverReturns(g)
    ensures !ReturnedIn(Since(e, r), g.control)
  {
    forall i | 0 <= i < |Since(e, r)| ensures !ReturnOf(Since(e, r)[i], g.control) {
      assert ToldAt(g, r.log, |e.log| + i);
    }
  }

  // A control puppet without a star.

  /** No statement, in a body or not, has a star and the puppet. */
  predicate Unstarred(ss: seq<Statement>, n: string) {
    ss == [] || (Unstarred(ss[..|ss| - 1], n) && UnstarredOne(ss[|ss| - 1], n))
  }

  predicate UnstarredOne(s: Statement, n: string) {
    !(s.Starred() && s.Name() == n) && Unstarred(s.body, n)
  }

  lemma {:induction false} StatementUnnoted(g: Group, e: Exec, s: Statement, n: string)
    requires s.Name() in e.puppets && Loaded(e, s.body) && AllIn(e.revisit, e) && UnstarredOne(s, n)
    ensures Mentions(RunStatement(g, e, s).revisit, n) == Mentions(e.revisit, n)
    decreases s, 0
  {
    var e1 := if s.Starred() then e.(revisit := e.revisit + [s.Name()]) else e;
    var d := RunPuppet(g, e1, s.Name());
    if s.Starred() { assert e1.revisit[..|e.revisit|] == e.revisit; }
    if s.body != [] && d.puppets[s.Name()].result == 0 { AllUnnoted(g, d, s.body, n); }
  }

  lemma {:induction false} AllUnnoted(g: Group, e: Exec, ss: seq<Statement>, n: string)
    requires Loaded(e, ss) && AllIn(e.revisit, e) && Unstarred(ss, n)
    ensures Mentions(RunAll(g, e, ss).revisit, n) == Mentions(e.revisit, n)
    decreases ss, 1
  {
    if ss == [] {
    } else {
      AllUnnoted(g, e, ss[..|ss| - 1], n);
      StatementUnnoted(g, RunAll(g, e, ss[..|ss| - 1]), ss[|ss| - 1], n);
    }
  }

  lemma {:induction false} NoneCounted(es: seq<Event>, n: string)
    requires Count(es, n) == 0
    ensures !ReturnedIn(es, n)
  {
    if es == [] {
    } else {
      NoneCounted(es[..|es| - 1], n);
      assert es == es[..|es| - 1] + [es[|es| - 1]];
      ReturnedJoin(es[..|es| - 1], [es[|es| - 1]], n);
    }
  }

  /** When the control puppet is nowhere starred, every return counts: after any number of passes, the
      group has stopped exactly when its control puppet has returned. */
  lemma {:induction false} EveryReturnCounts(g: Group, e: Exec, n: nat)
    requires Loaded(e, g.commands) && Fresh(e) && Unstarred(g.commands, g.control)
    ensures Passes(g, e, n).stop <==> ReturnedIn(Passes(g, e, n).log, g.control)
  {
    if n == 0 {
    } else {
      EveryReturnCounts(g, e, n - 1);
      PassReturns(g, Passes(g, e, n - 1));
    }
  }

  lemma PassReturns(g: Group, e: Exec)
    requires Loaded(e, g.commands) && e.revisit == [] && Unstarred(g.commands, g.control)
    requires e.stop <==> ReturnedIn(e.log, g.control)
    ensures Pass(g, e).stop <==> ReturnedIn(Pass(g, e).log, g.control)
  {
    var d := RunAll(g, e, g.commands);
    var r := ProceedAll(g, d, d.revisit);
    AllStop(g, e, g.commands);
    AllUnnoted(g, e, g.commands, g.control);
    ProceedAllSince(g, d, d.revisit, g.control);
    NoneCounted(Since(d, r), g.control);
    ReturnedJoin(e.log, Since(e, d), g.control);
    ReturnedJoin(d.log, Since(d, r), g.control);
    assert d.log == e.log + Since(e, d) && r.log == d.log + Since(d, r);
  }

  // A control puppet with a star.

  /** One statement is for the control puppet, it is starred, and no body has the puppet. */
  predicate StarredOnce(g: Group) {
    Occurs(g.commands, g.control) == Stars(g.commands, g.control) == 1 && Unconditional(g.commands, g.control)
  }

  /** Its main function yields `k` times before each return. */
  ghost predicate YieldsEachTime(g: Group, k: nat) {
    forall log: seq<Event> :: ReturnsAt(g, k, log)
  }

  predicate ReturnsAt(g: Group, k: nat, log: seq<Event>) {
    g.behave(log, g.control).Returns? <==> Count(log, g.control) % (k + 1) == k
  }

  lemma CountBefore(es: seq<Event>, n: string, i: nat)
    requires i < |es| && es[i].Proceeded? && es[i].name == n
    ensures Count(es[..i], n) < Count(es, n)
  {
    assert es == es[..i] + [es[i]] + es[i + 1..] && [es[i]][..0] == [];
    CountJoin(es[..i], [es[i]], n);
    CountJoin(es[..i] + [es[i]], es[i + 1..], n);
  }

  /** Where the puppet goes on after having done so `t` times. */
  lemma {:induction false} CountedAt(es: seq<Event>, n: string, t: nat) returns (i: nat)
    requires t < Count(es, n)
    ensures i < |es| && es[i].Proceeded? && es[i].name == n && Count(es[..i], n) == t
  {
    var k := |es| - 1;
    if t == Count(es[..k], n) {
      i := k;
    } else {
      i := CountedAt(es[..k], n, t);
      assert es[..k][..i] == es[..i];
    }
  }

  lemma ReturnsInTurn(g: Group, e: Exec, r: Exec, k: nat, i: nat)
    requires e.log <= r.log && Told(g, r.log) && YieldsEachTime(g, k)
    requires var es := Since(e, r); i < |es| && es[i].Proceeded? && es[i].name == g.control
    ensures ReturnOf(Since(e, r)[i], g.control) <==>
      (Count(e.log, g.control) + Count(Since(e, r)[..i], g.control)) % (k + 1) == k
  {
    var es := Since(e, r);
    assert ToldAt(g, r.log, |e.log| + i);
    assert r.log[..|e.log| + i] == e.log + es[..i];
    CountJoin(e.log, es[..i], g.control);
    assert ReturnsAt(g, k, r.log[..|e.log| + i]);
  }

  /** The only time it goes on in a stretch, it returns exactly if its turn has come. */
  lemma OnlyTime(g: Group, e: Exec, r: Exec, k: nat)
    requires e.log <= r.log && Told(g, r.log) && YieldsEachTime(g, k) && Count(Since(e, r), g.control) == 1
    ensures ReturnedIn(Since(e, r), g.control) <==> Count(e.log, g.control) % (k + 1) == k
  {
    var es := Since(e, r);
    forall i: nat | i < |es| && es[i].Proceeded? && es[i].name == g.control
      ensures ReturnOf(es[i], g.control) <==> Count(e.log, g.control) % (k + 1) == k
    {
      CountBefore(es, g.control, i);
      ReturnsInTurn(g, e, r, k, i);
    }
    var i := CountedAt(es, g.control, 0);
    assert ReturnOf(es[i], g.control) ==> ReturnedIn(es, g.control);
  }

  /** A pass is two goes, and only the first is looked at. */
  lemma StarredPass(g: Group, e: Exec, k: nat)
    requires Loaded(e, g.commands) && e.revisit == [] && StarredOnce(g) && YieldsEachTime(g, k) && Told(g, e.log)
    ensures var r := Pass(g, e); Told(g, r.log) && Count(r.log, g.control) == Count(e.log, g.control) + 2
    ensures Pass(g, e).stop <==> e.stop || Count(e.log, g.control) % (k + 1) == k
  {
    var d := RunAll(g, e, g.commands);
    StopOfPass(g, e);
    OncePerStatement(g, e, g.control);
    CountJoin(e.log, Since(e, Pass(g, e)), g.control);
    assert Pass(g, e).log == e.log + Since(e, Pass(g, e));
    AllTimes(g, e, g.commands, g.control);
    OnlyTime(g, e, d, k);
  }

  /** One of the first `n` passes starts when the puppet is about to return. */
  ghost predicate TurnCame(k: nat, n: nat) {
    exists m: nat :: m < n && Turn(k, m)
  }

  predicate Turn(k: nat, m: nat) {
    2 * m % (k + 1) == k
  }

  lemma {:induction false} StarredPasses(g: Group, e: Exec, k: nat, n: nat)
    requires Loaded(e, g.commands) && Fresh(e) && StarredOnce(g) && YieldsEachTime(g, k)
    ensures var r := Passes(g, e, n);
      Told(g, r.log) && Count(r.log, g.control) == 2 * n && (r.stop <==> TurnCame(k, n))
  {
    if n == 0 {
    } else {
      StarredPasses(g, e, k, n - 1);
      StarredPass(g, Passes(g, e, n - 1), k);
      assert TurnCame(k, n) <==> TurnCame(k, n - 1) || Turn(k, n - 1);
    }
  }

  lemma OddTurn(k: nat, m: nat)
    requires k % 2 == 1
    ensures !Turn(k, m)
  {
    var h, q := (k + 1) / 2, 2 * m / (k + 1);
    assert k + 1 == 2 * h && 2 * m == (k + 1) * q + 2 * m % (k + 1);
    assert (2 * h) * q == 2 * (h * q);
  }

  lemma EvenTurn(k: nat, m: nat)
    requires 2 * m <= k
    ensures Turn(k, m) <==> 2 * m == k
  {
    assert 2 * m % (k + 1) == 2 * m;
  }

  /** With a control puppet that has one statement, starred and not in a body, and yields `k` times before
      each return: the group stops exactly if `k` is even, and then after `k / 2 + 1` passes. */
  lemma StarredStops(g: Group, e: Exec, k: nat)
    requires Loaded(e, g.commands) && Fresh(e) && StarredOnce(g) && YieldsEachTime(g, k)
    ensures (exists n: nat :: StopsAfter(g, e, n)) <==> k % 2 == 0
    ensures k % 2 == 0 ==> StopsAfter(g, e, k / 2 + 1)
    ensures k % 2 == 1 ==> forall n: nat :: !Passes(g, e, n).stop
  {
    if k % 2 == 0 {
      forall m: nat | 0 < m <= k / 2 + 1 ensures Passes(g, e, m).stop <==> m == k / 2 + 1 {
        StarredPasses(g, e, k, m);
        forall t: nat | t < m ensures Turn(k, t) <==> 2 * t == k { EvenTurn(k, t); }
        assert m == k / 2 + 1 ==> Turn(k, k / 2);
      }
      assert StopsAfter(g, e, k / 2 + 1);
    } else {
      forall n: nat ensures !Passes(g, e, n).stop {
        StarredPasses(g, e, k, n);
        forall t: nat | t < n ensures !Turn(k, t) { OddTurn(k, t); }
      }
      forall n: nat ensures !StopsAfter(g, e, n) {
        if n > 0 { assert !Passes(g, e, n).stop; }
      }
    }
  }

  lemma SecondTime(g: Group, e: Exec, r: Exec, n: nat)
    requires e.log <= r.log && Told(g, r.log) && YieldsEachTime(g, 1)
    requires Count(e.log, g.control) == 2 * n && Count(Since(e, r), g.control) == 2
    ensures ReturnedIn(Since(e, r), g.control)
  {
    var i := CountedAt(Since(e, r), g.control, 1);
    ReturnsInTurn(g, e, r, 1, i);
    assert ReturnOf(Since(e, r)[i], g.control);
  }

  /** With one yield before each return it returns in every pass, when it is revisited. */
  lemma SecondGo(g: Group, e: Exec, n: nat)
    requires Loaded(e, g.commands) && Fresh(e) && StarredOnce(g) && YieldsEachTime(g, 1)
    ensures ReturnedIn(Since(Passes(g, e, n), Passes(g, e, n + 1)), g.control)
  {
    var d := Passes(g, e, n);
    StarredPasses(g, e, 1, n);
    StarredPass(g, d, 1);
    OncePerStatement(g, d, g.control);
    SecondTime(g, d, Pass(g, d), n);
  }

  /** A group of one starred control puppet that yields once before each return. */
  function EverySecond(log: seq<Event>, n: string): Outcome {
    if Count(log, n) % 2 == 1 then Returns(0) else Yields
  }

  const STARRED := Group([Statement("*c", [])], "c", EverySecond)

  const STARRED_START := Exec(map["c" := PuppetState(false, false, -1)], false, [], [])

  lemma StarredIs()
    ensures Loaded(STARRED_START, STARRED.commands) && Fresh(STARRED_START)
    ensures StarredOnce(STARRED) && YieldsEachTime(STARRED, 1)
  {
    var c := Statement("*c", []);
    assert [c][..0] == [] && c.Name() == "c";
    forall log: seq<Event> ensures ReturnsAt(STARRED, 1, log) {}
  }

  /** Its control puppet returns in every pass, and the group never stops. */
  lemma ReturnsUnseen(n: nat)
    ensures Loaded(STARRED_START, STARRED.commands) && Fresh(STARRED_START)
    ensures !Passes(STARRED, STARRED_START, n).stop
    ensures ReturnedIn(Since(Passes(STARRED, STARRED_START, n), Passes(STARRED, STARRED_START, n + 1)), "c")
  {
    StarredIs();
    StarredStops(STARRED, STARRED_START, 1);
    SecondGo(STARRED, STARRED_START, n);
  }

  /** The group has just been loaded. */
  predicate Fresh(e: Exec) {
    !e.stop && e.revisit == [] && e.log == []
  }

  /** The state after `n` passes. */
  predicate After(g: Group, r: Exec, k: nat, n: nat) {
    Count(r.log, g.control) == n && (r.stop <==> n == k + 1) && (n <= k ==> NoSignal(r.log))
  }

  lemma NextPass(g: Group, e: Exec, at: nat, k: nat)
    requires ControlledAt(g, at) && Loaded(e, g.commands) && e.revisit == [] && !e.stop
    requires YieldsTimes(g, k) && Count(e.log, g.control) <= k && NoSignal(e.log)
    ensures After(g, Pass(g, e), k, Count(e.log, g.control) + 1)
  {
    var first, c, rest := g.commands[..at], g.commands[at], g.commands[at + 1..];
    ControlledParts(g, at);
    LoadedParts(e, first, c, rest);
    PassLog(g, e, first, c, rest);
    StagesStep(g, e, Pass(g, e), StagesOf(g, e, first, c, rest), k);
  }

  lemma StagesStep(g: Group, e: Exec, r: Exec, st: Stages, k: nat)
    requires StagesShape(g, e, r, st) && YieldsTimes(g, k) && Count(e.log, g.control) <= k && NoSignal(e.log)
    ensures After(g, r, k, Count(e.log, g.control) + 1)
  {
    PassStep(g, e, r, Since(e, st.before), g.behave(st.before.log, g.control), Since(st.control, st.after),
      Since(st.after, st.end), k);
  }

  lemma PassesNext(g: Group, e: Exec, at: nat, k: nat, n: nat)
    requires ControlledAt(g, at) && Loaded(e, g.commands) && e.revisit == [] && YieldsTimes(g, k) && 0 < n <= k + 1
    requires After(g, Passes(g, e, n - 1), k, n - 1)
    ensures After(g, Passes(g, e, n), k, n)
  {
    NextPass(g, Passes(g, e, n - 1), at, k);
  }

  /** If the control puppet yields `k` times, the group has stopped after `k + 1` passes and not
      earlier, and no puppet is told to stop before the last pass. */
  lemma {:induction false} PassesDo(g: Group, e: Exec, at: nat, k: nat, n: nat)
    requires ControlledAt(g, at) && Loaded(e, g.commands) && Fresh(e) && YieldsTimes(g, k) && n <= k + 1
    ensures After(g, Passes(g, e, n), k, n)
  {
    if n == 0 {
    } else {
      PassesDo(g, e, at, k, n - 1);
      PassesNext(g, e, at, k, n);
    }
  }

  /** So the loop over the passes, which ends when the group has stopped, makes `k + 1` of them. */
  lemma StopsAfterYields(g: Group, e: Exec, at: nat, k: nat)
    requires ControlledAt(g, at) && Loaded(e, g.commands) && Fresh(e) && YieldsTimes(g, k)
    ensures StopsAfter(g, e, k + 1)
  {
    forall m: nat | 0 < m <= k + 1 ensures Passes(g, e, m).stop <==> m == k + 1 {
      PassesDo(g, e, at, k, m);
    }
  }

  /** In the last pass, a puppet that no body has is told to stop once for each statement after the
      control statement, and at no other time. */
  lemma LastPassSignals(g: Group, e: Exec, at: nat, n: string)
    requires ControlledAt(g, at) && Loaded(e, g.commands) && e.revisit == [] && !e.stop && Unconditional(g.commands, n)
    requires Pass(g, e).stop
    ensures Signals(Pass(g, e).log, n) == Signals(e.log, n) + Occurs(g.commands[at + 1..], n)
  {
    var first, c, rest := g.commands[..at], g.commands[at], g.commands[at + 1..];
    ControlledParts(g, at);
    LoadedParts(e, first, c, rest);
    PassLog(g, e, first, c, rest);
    var control := RunPuppet(g, RunAll(g, e, first), c.Name());
    RestTimes(g, control, c, rest, n);
    StagesSignals(g, e, Pass(g, e), StagesOf(g, e, first, c, rest), n);
  }

  lemma StagesSignals(g: Group, e: Exec, r: Exec, st: Stages, n: string)
    requires StagesShape(g, e, r, st) && r.stop
    ensures Signals(r.log, n) == Signals(e.log, n) + Count(Since(st.control, st.after), n)
  {
    ShapeSignals(g, e, r, Since(e, st.before), g.behave(st.before.log, g.control), Since(st.control, st.after),
      Since(st.after, st.end), n);
  }

  lemma ShapeSignals(g: Group, e: Exec, r: Exec, x: seq<Event>, o: Outcome, y: seq<Event>, z: seq<Event>, n: string)
    requires PassShape(g, e, r, x, o, y, z) && o.Returns?
    ensures Signals(r.log, n) == Signals(e.log, n) + Count(y, n)
  {
    SignalsJoin(e.log, x + [Proceeded(g.control, o)] + y + z, n);
    CountFour(x, Proceeded(g.control, o), y, z, n);
    NoSignals(x, n);
    NoSignals(z, n);
    PairedSignals(y, n);
  }

  lemma RestTimes(g: Group, e: Exec, c: Statement, rest: seq<Statement>, n: string)
    requires c.Name() in e.puppets && Loaded(e, c.body) && Loaded(e, rest) && AllIn(e.revisit, e)
    requires !UsesAny(c.body, n) && Unconditional(rest, n)
    ensures Count(Since(e, RunAll(g, BodyOf(g, e, c), rest)), n) == Occurs(rest, n)
  {
    var body := BodyOf(g, e, c);
    var r := RunAll(g, body, rest);
    UnusedTimes(g, e, c.body, n);
    assert Times(e, e, n, 0, 0);
    AllTimes(g, body, rest, n);
    TimesJoin(e, body, r, n, 0, 0, Occurs(rest, n), Stars(rest, n));
  }
}
