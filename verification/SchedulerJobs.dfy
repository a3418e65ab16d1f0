/** What the system of controller and workers makes of the jobs as they were given: how many ranks each of
    them gets, and that no rank is done with a job before all of them have taken it. */
module SchedulerJobs {
  import opened Allocation
  import opened Options
  import opened SchedulerProtocol

  /** A job as the caller gives it. */
  datatype Given = Given(name: string, size: nat)

  /** The jobs that a run schedules, in order. */
  function GivenIn(events: seq<Event>): seq<Given> {
    if events == [] then []
    else (if events[0].ScheduleJob? then [Given(events[0].name, events[0].size)] else []) + GivenIn(events[1..])
  }

  /** The `k`-th job given has the id `k`, keeps its name and size while it is queued, and has as many ranks
      in a row as its size once it has been dispatched. */
  ghost predicate KeepsGiven(w: World, given: seq<Given>) {
    w.ctl.nextId == |given| &&
    (forall i :: 0 <= i < |w.ctl.jobs| ==> IsGiven(w.ctl.jobs[i], given)) &&
    (forall k :: 0 <= k < |w.log| ==> HasSize(w.log[k], given))
  }

  predicate IsGiven(job: Job, given: seq<Given>) {
    job.id < |given| && given[job.id] == Given(job.name, job.size)
  }

  predicate HasSize(t: Task, given: seq<Given>) {
    t.id < |given| && t.range.last + 1 == t.range.first + given[t.id].size
  }

  lemma StepKeepsGiven(w: World, e: Event, given: seq<Given>, answers: (nat, nat) -> bool)
    requires WorldInv(w, answers) && KeepsGiven(w, given) && Enabled(w, e)
    ensures KeepsGiven(Apply(w, e, answers), given + GivenIn([e]))
  {
    assert [e][1..] == [];
    match e
    case ScheduleJob(name, size) =>
    case Dispatch => DispatchKeepsGiven(w, given, answers);
    case _ => assert given + [] == given;
  }

  lemma DispatchKeepsGiven(w: World, given: seq<Given>, answers: (nat, nat) -> bool)
    requires WorldInv(w, answers) && KeepsGiven(w, given) && Enabled(w, Dispatch)
    ensures KeepsGiven(Apply(w, Dispatch, answers), given + [])
  {
    assert given + [] == given;
    RunJobTakes(w.ctl);
    assert IsGiven(w.ctl.jobs[0], given);
    var w' := Apply(w, Dispatch, answers);
    assert w'.ctl.active[w.ctl.jobs[0].id] == w'.log[|w.log|].range;
    forall k | 0 <= k < |w'.log| ensures HasSize(w'.log[k], given) {
      if k < |w.log| { assert HasSize(w.log[k], given); }
    }
    forall i | 0 <= i < |w'.ctl.jobs| ensures IsGiven(w'.ctl.jobs[i], given) {
      assert IsGiven(w.ctl.jobs[i + 1], given);
    }
  }

  lemma {:induction false} RunKeepsGiven(w: World, events: seq<Event>, given: seq<Given>, answers: (nat, nat) -> bool)
    requires WorldInv(w, answers) && KeepsGiven(w, given) && IsRun(w, events, answers)
    ensures KeepsGiven(After(w, events, answers), given + GivenIn(events))
    decreases |events|
  {
    if events == [] {
      assert given + [] == given;
    } else {
      var first := GivenIn([events[0]]);
      assert [events[0]][1..] == [];
      StepInv(w, events[0], answers);
      StepKeepsGiven(w, events[0], given, answers);
      RunKeepsGiven(Apply(w, events[0], answers), events[1..], given + first, answers);
      assert given + GivenIn(events) == given + first + GivenIn(events[1..]);
    }
  }

  // The barrier of a job.

  /** A task that some rank is done with has been taken by every rank of its range. */
  ghost predicate TakenByAll(w: World) {
    forall j: nat, t, i: nat ::
      IsWorker(w, j) && t in w.workers[j].finished && t.range.first <= i <= t.range.last ==> HasTaken(w, i, t)
  }

  /** The rank runs the task or has run it. */
  predicate HasTaken(w: World, i: nat, t: Task) {
    i < |w.workers| && (w.workers[i].running == Some(t) || t in w.workers[i].finished)
  }

  lemma StepTakenByAll(w: World, e: Event, answers: (nat, nat) -> bool)
    requires WorldInv(w, answers) && TakenByAll(w) && Enabled(w, e)
    ensures TakenByAll(Apply(w, e, answers))
  {
    match e
    case Begin(i) => WorkerTakenByAll(w, e, i, answers);
    case Complete(i) => WorkerTakenByAll(w, e, i, answers);
    case Halt(i) => WorkerTakenByAll(w, e, i, answers);
    case _ => OthersTakenByAll(w, e, answers);
  }

  lemma OthersTakenByAll(w: World, e: Event, answers: (nat, nat) -> bool)
    requires WorldInv(w, answers) && TakenByAll(w) && Enabled(w, e) && !e.Begin? && !e.Complete? && !e.Halt?
    ensures TakenByAll(Apply(w, e, answers))
  {
    var w' := Apply(w, e, answers);
    assert SameTasks(w, w');
    forall j: nat, t, i: nat | IsWorker(w', j) && t in w'.workers[j].finished && t.range.first <= i <= t.range.last
      ensures HasTaken(w', i, t)
    {
      assert IsWorker(w, j) && t in w.workers[j].finished;
      assert HasTaken(w, i, t);
    }
  }

  /** What the workers run and have run is the same. */
  predicate SameTasks(w: World, w': World) {
    |w'.workers| == |w.workers| && w'.ctl.controllers == w.ctl.controllers && forall j :: 0 <= j < |w.workers| ==>
      w'.workers[j].running == w.workers[j].running && w'.workers[j].finished == w.workers[j].finished
  }

  lemma WorkerTakenByAll(w: World, e: Event, i: nat, answers: (nat, nat) -> bool)
    requires WorldInv(w, answers) && TakenByAll(w)
    requires Enabled(w, e) && (e == Begin(i) || e == Complete(i) || e == Halt(i))
    ensures TakenByAll(Apply(w, e, answers))
  {
    var w' := Apply(w, e, answers);
    forall j: nat, t, k: nat | IsWorker(w', j) && t in w'.workers[j].finished && t.range.first <= k <= t.range.last
      ensures HasTaken(w', k, t)
    {
      assert IsWorker(w, j);
      if t !in w.workers[j].finished { assert AllBegun(w, t) && k < |w.workers|; }
      assert HasTaken(w, k, t);
    }
  }

  lemma {:induction false} RunTakenByAll(w: World, events: seq<Event>, answers: (nat, nat) -> bool)
    requires WorldInv(w, answers) && TakenByAll(w) && IsRun(w, events, answers)
    ensures TakenByAll(After(w, events, answers))
    decreases |events|
  {
    if events == [] {
    } else {
      StepInv(w, events[0], answers);
      StepTakenByAll(w, events[0], answers);
      RunTakenByAll(Apply(w, events[0], answers), events[1..], answers);
    }
  }

  /** The job given as the `k`-th is the task `k`, on exactly as many ranks in a row as it was given, or it
      is queued with its name and size. */
  predicate AsGiven(w: World, given: seq<Given>) {
    |w.log| + |w.ctl.jobs| == |given| &&
    (forall k :: 0 <= k < |w.log| ==>
      w.log[k].id == k && w.log[k].range.last + 1 == w.log[k].range.first + given[k].size) &&
    (forall i :: 0 <= i < |w.ctl.jobs| ==>
      w.ctl.jobs[i] == Job(|w.log| + i, given[|w.log| + i].name, given[|w.log| + i].size))
  }

  lemma WorldAsGiven(w: World, given: seq<Given>, answers: (nat, nat) -> bool)
    requires WorldInv(w, answers) && KeepsGiven(w, given)
    ensures AsGiven(w, given)
  {
    forall k | 0 <= k < |w.log|
      ensures w.log[k].id == k && k < |given| && w.log[k].range.last + 1 == w.log[k].range.first + given[k].size
    {
      assert HasSize(w.log[k], given);
    }
    forall i | 0 <= i < |w.ctl.jobs|
      ensures |w.log| + i < |given|
      ensures w.ctl.jobs[i] == Job(|w.log| + i, given[|w.log| + i].name, given[|w.log| + i].size)
    {
      assert IsGiven(w.ctl.jobs[i], given);
    }
  }

  /** So it is in every reachable world, and whoever is done with a task, all ranks of its range have
      taken it. */
  lemma JobsAsGiven(size: nat, controllers: nat, events: seq<Event>, answers: (nat, nat) -> bool)
    requires 1 <= controllers <= size && IsRun(Init(size, controllers), events, answers)
    ensures AsGiven(After(Init(size, controllers), events, answers), GivenIn(events))
    ensures TakenByAll(After(Init(size, controllers), events, answers))
  {
    var start := Init(size, controllers);
    InitInv(size, controllers, answers);
    RunInv(start, events, answers);
    RunKeepsGiven(start, events, [], answers);
    assert [] + GivenIn(events) == GivenIn(events);
    RunTakenByAll(start, events, answers);
    WorldAsGiven(After(start, events, answers), GivenIn(events), answers);
  }
}
