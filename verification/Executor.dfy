/** The objects that run a control group: puppets, whose flags change as they go on, and the executor
    with its loop. The executor also keeps the log that the behaviour of the puppets may depend on. */
module Executor {
  import opened GroupExecutor

  class Puppet {
    var running: bool
    var stop: bool
    var result: int

    function Value(): PuppetState
      reads this
    {
      PuppetState(running, stop, result)
    }

    constructor ()
      ensures Value() == PuppetState(false, false, -1)
    {
      running, stop, result := false, false, -1;
    }

    method SignalStop()
      modifies this`stop
      ensures Value() == old(Value()).(stop := true)
    {
      stop := true;
    }

    /** Goes on until main yields or returns, `o` saying which; main is started over when it had returned. */
    method Proceed(o: Outcome)
      modifies this`running, this`result
      ensures Value() == old(Value()).After(o)
    {
      running := true;
      if o.Returns? {
        result := o.code;
        running := false;
      }
    }

    /** The destructor lets a puppet that is still running end. */
    method Destroy(o: Outcome)
      modifies this
      ensures Value() == if old(running) then old(Value()).(stop := true).After(o) else old(Value())
    {
      if running {
        SignalStop();
        Proceed(o);
      }
    }
  }

  class Executor {
    const g: Group
    const puppets: map<string, Puppet>
    var stop: bool
    var revisit: seq<string>
    var log: seq<Event>

    constructor (g: Group, puppets: map<string, Puppet>)
      ensures this.g == g && this.puppets == puppets && !stop && revisit == [] && log == []
    {
      this.g, this.puppets := g, puppets;
      stop, revisit, log := false, [], [];
    }

    ghost predicate Valid() {
      forall a, b :: a in puppets && b in puppets && a != b ==> puppets[a] != puppets[b]
    }

    ghost function Value(): Exec
      reads this, puppets.Values
    {
      Exec(map n | n in puppets :: puppets[n].Value(), stop, revisit, log)
    }

    method SignalStop(n: string)
      requires Valid() && n in puppets
      modifies this`log, puppets[n]
      ensures Value() == Signal(old(Value()), n)
    {
      puppets[n].SignalStop();
      log := log + [Signalled(n)];
    }

    method Proceed(n: string)
      requires Valid() && n in puppets
      modifies this`log, puppets[n]
      ensures Value() == GroupExecutor.Proceed(g, old(Value()), n)
    {
      var o := g.behave(log, n);
      puppets[n].Proceed(o);
      log := log + [Proceeded(n, o)];
    }

    method RunOne(n: string)
      requires Valid() && n in puppets
      modifies this, puppets.Values
      ensures Value() == RunPuppet(g, old(Value()), n)
    {
      if stop {
        SignalStop(n);
      }
      Proceed(n);
      if !puppets[n].running && g.control == n {
        stop := true;
      }
    }

    method NoteStar(s: Statement)
      modifies this`revisit
      ensures Value() == if s.Starred() then old(Value()).(revisit := old(revisit) + [s.Name()]) else old(Value())
    {
      if s.Starred() {
        revisit := revisit + [s.Name()];
      }
    }

    method RunOneStatement(s: Statement)
      requires Valid() && s.Name() in puppets && Loaded(Value(), s.body) && AllIn(revisit, Value())
      modifies this, puppets.Values
      ensures Value() == RunStatement(g, old(Value()), s)
      decreases s, 0
    {
      ghost var e := Value();
      NoteStar(s);
      RunOne(s.Name());
      ghost var d := Value();
      assert d.puppets[s.Name()].result == puppets[s.Name()].result;
      if s.body != [] && puppets[s.Name()].result == 0 {
        RunStatements(s.body);
      }
    }

    method RunStatements(ss: seq<Statement>)
      requires Valid() && Loaded(Value(), ss) && AllIn(revisit, Value())
      modifies this, puppets.Values
      ensures Value() == RunAll(g, old(Value()), ss)
      decreases ss, 1
    {
      ghost var e := Value();
      for i := 0 to |ss|
        invariant Loaded(e, ss[..i]) && Value() == RunAll(g, e, ss[..i])
      {
        NamedPrefix(e.puppets.Keys, ss, i + 1);
        assert ss[..i + 1][..i] == ss[..i];
        RunOneStatement(ss[i]);
      }
      assert ss[..|ss|] == ss;
    }

    /** Proceeds the puppets that are to finish what they do. */
    method Revisit()
      requires Valid() && AllIn(revisit, Value())
      modifies this, puppets.Values
      ensures Value() == ProceedAll(g, old(Value()), old(revisit)).(revisit := [])
    {
      ghost var e := Value();
      var names := revisit;
      for i := 0 to |names|
        invariant Value() == ProceedAll(g, e, names[..i])
      {
        NextRevisit(g, e, names, i);
        Proceed(names[i]);
      }
      assert names[..|names|] == names;
      revisit := [];
    }

    /** The main loop makes as many passes as it takes until the group has stopped. */
    method Run(ghost n: nat) returns (iteration: nat)
      requires Valid() && Loaded(Value(), g.commands) && revisit == [] && StopsAfter(g, Value(), n)
      modifies this, puppets.Values
      ensures iteration == n && stop
      ensures Value() == Passes(g, old(Value()), n)
    {
      ghost var e := Value();
      iteration := 0;
      var done := false;
      while !done
        invariant iteration <= n && Value() == Passes(g, e, iteration)
        invariant done <==> iteration == n
        invariant done ==> stop
        decreases n - iteration
      {
        RunStatements(g.commands);
        Revisit();
        iteration := iteration + 1;
        assert Value() == Passes(g, e, iteration);
        done := stop;
      }
    }
  }

  lemma NextRevisit(g: Group, e: Exec, names: seq<string>, i: nat)
    requires AllIn(names, e) && i < |names|
    ensures names[i] in e.puppets && AllIn(names[..i], e) && AllIn(names[..i + 1], e)
    ensures ProceedAll(g, e, names[..i + 1]) == GroupExecutor.Proceed(g, ProceedAll(g, e, names[..i]), names[i])
  {
    assert names[..i + 1][..i] == names[..i];
  }

  lemma {:induction false} NamedPrefix(names: set<string>, ss: seq<Statement>, i: nat)
    requires AllNamed(names, ss) && i <= |ss|
    ensures AllNamed(names, ss[..i])
    ensures i > 0 ==> ss[i - 1].Name() in names && AllNamed(names, ss[i - 1].body)
    decreases |ss|
  {
    if i < |ss| {
      NamedPrefix(names, ss[..|ss| - 1], i);
      assert ss[..|ss| - 1][..i] == ss[..i];
    } else {
      assert ss[..i] == ss;
    }
  }
}
