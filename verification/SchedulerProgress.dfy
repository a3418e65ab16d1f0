/** How runs of the scheduler come to an end: how long they can be, what is left when nothing is going
    on any more, and which jobs keep the controller waiting for good. */
module SchedulerProgress {
  import opened Allocation
  import opened Arithmetic
  import opened Options
  import opened SchedulerProtocol

  // The length of runs.

  /** A message counts three, so that taking a task (two), running it and answering (one) each take one. */
  function Load(r: Worker): nat {
    3 * |r.inbox| + if r.running.Some? then 2 else 0
  }

  function TotalLoad(workers: seq<Worker>): nat {
    if workers == [] then 0 else TotalLoad(workers[..|workers| - 1]) + Load(workers[|workers| - 1])
  }

  /** What the messages on their way, the running tasks and the unread answers still amount to. */
  function Pending(w: World): int
    requires w.sending.Some? ==> w.log != []
  {
    (if w.sending.Some? then 4 * (w.log[|w.log| - 1].range.last + 1 - w.sending.value) else 0) +
    TotalLoad(w.workers) + |w.replies|
  }

  /** What is pending and what the queue and the stop can still add to it: up to four for every rank and
      queued job, and three for every rank. */
  function StepsLeft(w: World): int
    requires w.sending.Some? ==> w.log != []
  {
    Pending(w) + Times(|w.ctl.jobs|, PerJob(w)) + if w.stopped then 0 else 3 * |w.workers| + 1
  }

  function PerJob(w: World): nat {
    4 * |w.workers| + 1
  }

  lemma {:induction false} LoadUpdate(workers: seq<Worker>, i: nat, r: Worker)
    requires i < |workers|
    ensures TotalLoad(workers[i := r]) == TotalLoad(workers) - Load(workers[i]) + Load(r)
  {
    var last := |workers| - 1;
    if i == last {
      assert workers[i := r][..last] == workers[..last];
    } else {
      assert workers[i := r][..last] == workers[..last][i := r];
      LoadUpdate(workers[..last], i, r);
    }
  }

  /** One message more for every worker adds no more than three each. */
  lemma {:induction false} LoadMore(a: seq<Worker>, b: seq<Worker>)
    requires |a| == |b| && forall i :: 0 <= i < |a| ==> Load(b[i]) <= Load(a[i]) + 3
    ensures TotalLoad(b) <= TotalLoad(a) + 3 * |a|
  {
    if a == [] {
    } else {
      LoadMore(a[..|a| - 1], b[..|b| - 1]);
    }
  }

  /** Something of what is pending has been worked off, and the controller has no part in it. */
  ghost predicate WorkedOff(w: World, w': World)
    requires w.sending.Some? ==> w.log != []
  {
    w'.ctl == w.ctl && w'.stopped == w.stopped && (w'.sending.Some? ==> w'.log != []) && Pending(w') < Pending(w)
  }

  lemma SendCounts(w: World, answers: (nat, nat) -> bool)
    requires WorldInv(w, answers) && Enabled(w, Send)
    ensures WorkedOff(w, Apply(w, Send, answers))
  {
    LoadUpdate(w.workers, w.sending.value, Apply(w, Send, answers).workers[w.sending.value]);
  }

  lemma WorkerCounts(w: World, e: Event, answers: (nat, nat) -> bool)
    requires WorldInv(w, answers) && Enabled(w, e) && (e.Begin? || e.Complete? || e.Halt?)
    ensures WorkedOff(w, Apply(w, e, answers))
  {
    LoadUpdate(w.workers, e.rank, Apply(w, e, answers).workers[e.rank]);
  }

  /** A dispatch adds no more to what is pending than the queued job stood for. */
  lemma DispatchCounts(w: World, answers: (nat, nat) -> bool)
    requires WorldInv(w, answers) && Enabled(w, Dispatch)
    ensures var w' := Apply(w, Dispatch, answers); StepsLeft(w') < StepsLeft(w)
  {
    RunJobInv(w.ctl);
  }

  lemma SignalStopCounts(w: World, answers: (nat, nat) -> bool)
    requires WorldInv(w, answers) && Enabled(w, SignalStop)
    ensures var w' := Apply(w, SignalStop, answers); StepsLeft(w') < StepsLeft(w)
  {
    var w' := Apply(w, SignalStop, answers);
    LoadMore(w.workers, w'.workers);
  }

  /** A step that was left has been taken, and no more than `grant` have come. */
  ghost predicate Counts(w: World, w': World, grant: nat) {
    (w.sending.Some? ==> w.log != []) && (w'.sending.Some? ==> w'.log != []) && |w'.workers| == |w.workers| &&
    0 <= StepsLeft(w') <= StepsLeft(w) - 1 + grant
  }

  /** What an event adds: a new job its share, everything else nothing. */
  function Grant(e: Event, w: World): nat {
    if e.ScheduleJob? then 1 + PerJob(w) else 0
  }

  lemma EveryEventCounts(w: World, e: Event, answers: (nat, nat) -> bool)
    requires WorldInv(w, answers) && Enabled(w, e)
    ensures WorldInv(Apply(w, e, answers), answers) && Counts(w, Apply(w, e, answers), Grant(e, w))
  {
    StepInv(w, e, answers);
    PendingNat(Apply(w, e, answers), answers);
    match e
    case ScheduleJob(name, size) => QueueCounts(w, e, answers);
    case Receive(k) => QueueCounts(w, e, answers);
    case Dispatch => DispatchCounts(w, answers);
    case SignalStop => SignalStopCounts(w, answers);
    case Send => SendCounts(w, answers);
    case _ => WorkerCounts(w, e, answers);
  }

  lemma QueueCounts(w: World, e: Event, answers: (nat, nat) -> bool)
    requires WorldInv(w, answers) && Enabled(w, e) && (e.ScheduleJob? || e.Receive?)
    ensures var w' := Apply(w, e, answers);
      StepsLeft(w') == StepsLeft(w) + if e.ScheduleJob? then PerJob(w) else -1
  {
  }

  function Scheduled(events: seq<Event>): nat {
    if events == [] then 0 else (if events[0].ScheduleJob? then 1 else 0) + Scheduled(events[1..])
  }

  function Granted(events: seq<Event>, w: World): nat {
    if events == [] then 0 else Grant(events[0], w) + Granted(events[1..], w)
  }

  lemma {:induction false} GrantedIs(events: seq<Event>, v: World, w: World)
    requires |v.workers| == |w.workers|
    ensures Granted(events, v) == Granted(events, w) == Times(Scheduled(events), 1 + PerJob(w))
    decreases |events|
  {
    if events == [] {
    } else {
      GrantedIs(events[1..], v, w);
    }
  }

  /** No run goes on forever: apart from what was left at its start, every job scheduled allows for a
      number of events that only the number of ranks decides. */
  lemma {:induction false} RunsEnd(w: World, events: seq<Event>, answers: (nat, nat) -> bool)
    requires WorldInv(w, answers) && IsRun(w, events, answers)
    ensures |events| <= StepsLeft(w) + Granted(events, w)
    decreases |events|
  {
    if events == [] {
      PendingNat(w, answers);
    } else {
      var w' := Apply(w, events[0], answers);
      EveryEventCounts(w, events[0], answers);
      RunsEnd(w', events[1..], answers);
      GrantedIs(events[1..], w', w);
    }
  }

  /** What that comes to from the start. */
  lemma RunsEndFromStart(size: nat, controllers: nat, events: seq<Event>, answers: (nat, nat) -> bool)
    requires 1 <= controllers <= size && IsRun(Init(size, controllers), events, answers)
    ensures |events| <= 3 * size + 1 + Scheduled(events) * (4 * size + 2)
  {
    var w := Init(size, controllers);
    InitInv(size, controllers, answers);
    RunsEnd(w, events, answers);
    GrantedIs(events, w, w);
    NoLoad(w.workers);
    TimesIs(Scheduled(events), 4 * size + 2);
  }

  lemma {:induction false} NoLoad(workers: seq<Worker>)
    requires forall i :: 0 <= i < |workers| ==> workers[i] == Worker([], None, [], false)
    ensures TotalLoad(workers) == 0
  {
    if workers == [] {
    } else {
      NoLoad(workers[..|workers| - 1]);
    }
  }

  lemma PendingNat(w: World, answers: (nat, nat) -> bool)
    requires WorldInv(w, answers)
    ensures 0 <= Pending(w)
  {
  }

  // Who has answered.

  /** No rank of the job has a result to send back. */
  ghost predicate Silent(w: World, id: nat, answers: (nat, nat) -> bool)
    requires id < |w.log|
  {
    forall j: nat :: w.log[id].range.Has(j) ==> !answers(id, j)
  }

  ghost predicate CauseOk(w: World, id: nat, answers: (nat, nat) -> bool) {
    id < |w.log| && !Silent(w, id, answers)
  }

  /** Every answer on its way, and every finished job, has a rank of the job that had a result. */
  ghost predicate CausesOk(w: World, answers: (nat, nat) -> bool) {
    (forall k :: 0 <= k < |w.replies| ==> CauseOk(w, w.replies[k].id, answers)) &&
    (forall id :: id in w.ctl.done ==> CauseOk(w, id, answers))
  }

  lemma InitCauses(size: nat, controllers: nat, answers: (nat, nat) -> bool)
    ensures CausesOk(Init(size, controllers), answers)
  {
  }

  lemma StepCauses(w: World, e: Event, answers: (nat, nat) -> bool)
    requires WorldInv(w, answers) && CausesOk(w, answers) && Enabled(w, e)
    ensures CausesOk(Apply(w, e, answers), answers)
  {
    var w' := Apply(w, e, answers);
    forall id: nat | CauseOk(w, id, answers) ensures CauseOk(w', id, answers) {
      assert w'.log[id] == w.log[id];
    }
    if e.Complete? { CompleteCauses(w, e.rank, answers); }
  }

  lemma CompleteCauses(w: World, i: nat, answers: (nat, nat) -> bool)
    requires WorldInv(w, answers) && CausesOk(w, answers) && Enabled(w, Complete(i))
    ensures CausesOk(Apply(w, Complete(i), answers), answers)
  {
    var w' := Apply(w, Complete(i), answers);
    RunningUnfinished(w, i, answers);
    forall id: nat | CauseOk(w, id, answers) ensures CauseOk(w', id, answers) {
      assert w'.log[id] == w.log[id];
    }
  }

  lemma {:induction false} RunCauses(w: World, events: seq<Event>, answers: (nat, nat) -> bool)
    requires WorldInv(w, answers) && CausesOk(w, answers) && IsRun(w, events, answers)
    ensures var w' := After(w, events, answers); WorldInv(w', answers) && CausesOk(w', answers)
    decreases |events|
  {
    if events == [] {
    } else {
      StepInv(w, events[0], answers);
      StepCauses(w, events[0], answers);
      RunCauses(Apply(w, events[0], answers), events[1..], answers);
    }
  }

  // What is left in the end.

  /** When no worker has anything to do and no answer is on its way, every dispatched task has run on
      every rank of its range. The jobs still active are exactly those that gave no result anywhere. */
  lemma QuietMeansDone(w: World, answers: (nat, nat) -> bool)
    requires WorldInv(w, answers) && CausesOk(w, answers) && !Unsettled(w) && w.replies == []
    ensures forall k :: 0 <= k < |w.log| ==> InWorkers(w, w.log[k].range) && FinishedEverywhere(w, w.log[k])
    ensures forall id: nat :: id < |w.log| ==> (id in w.ctl.active <==> Silent(w, id, answers))
  {
    forall k | 0 <= k < |w.log| ensures InWorkers(w, w.log[k].range) && FinishedEverywhere(w, w.log[k]) {
      var t := w.log[k];
      forall j: nat | t.range.first <= j <= t.range.last ensures t in w.workers[j].finished {
        assert IsWorker(w, j) && OrderOk(w, j);
        TasksOfMember(w.log, j, t);
      }
    }
    forall id: nat | id < |w.log| ensures id in w.ctl.active <==> Silent(w, id, answers) {
      if id in w.ctl.active {
        forall j: nat | w.log[id].range.Has(j) ensures !answers(id, j) { assert IsWorker(w, j); }
      } else {
        assert id in w.ctl.done;
      }
    }
  }

  /** A job without a result is active from its dispatch on, whatever happens: the stop is never signalled. */
  lemma SilentStays(w: World, id: nat, answers: (nat, nat) -> bool)
    requires WorldInv(w, answers) && CausesOk(w, answers) && id < |w.log| && Silent(w, id, answers)
    ensures id in w.ctl.active && !Enabled(w, SignalStop)
    ensures forall e :: Enabled(w, e) ==>
      var w' := Apply(w, e, answers);
      WorldInv(w', answers) && CausesOk(w', answers) && id < |w'.log| && Silent(w', id, answers) && id in w'.ctl.active
  {
    assert id !in w.ctl.done;
    forall e | Enabled(w, e) ensures
      var w' := Apply(w, e, answers);
      WorldInv(w', answers) && CausesOk(w', answers) && id < |w'.log| && Silent(w', id, answers) && id in w'.ctl.active
    {
      var w' := Apply(w, e, answers);
      StepInv(w, e, answers);
      StepCauses(w, e, answers);
      assert w'.log[id] == w.log[id];
      assert id !in w'.ctl.done;
    }
  }

  /** If nothing can happen but new jobs and the stop signal, all that was dispatched has run. The
      controller can end exactly when each of these jobs gave a result somewhere; then no job that fits
      the workers is left in the queue unless the stop came first, and after it every worker has stopped. */
  lemma NothingStuck(w: World, answers: (nat, nat) -> bool)
    requires WorldInv(w, answers) && CausesOk(w, answers)
    requires forall e :: Enabled(w, e) ==> e.ScheduleJob? || e.SignalStop?
    ensures !Unsettled(w) && w.replies == []
    ensures forall k :: 0 <= k < |w.log| ==> InWorkers(w, w.log[k].range) && FinishedEverywhere(w, w.log[k])
    ensures w.ctl.active == map[] <==> forall id: nat :: id < |w.log| ==> !Silent(w, id, answers)
    ensures w.ctl.active == map[] && !w.stopped ==> w.ctl.jobs == [] || w.ctl.jobs[0].size > w.ctl.Workers()
    ensures w.stopped ==> forall i: nat :: IsWorker(w, i) ==> w.workers[i].halted && w.workers[i].inbox == []
  {
    if Unsettled(w) { DeadlockFree(w, answers); }
    assert Enabled(w, Receive(0)) <==> w.sending.None? && w.replies != [];
    QuietMeansDone(w, answers);
    assert Enabled(w, Dispatch) <==> w.sending.None? && !w.stopped && CanRun(w.ctl);
    if w.ctl.active == map[] && w.ctl.jobs != [] { IdleFits(w.ctl); }
    if forall id: nat :: id < |w.log| ==> !Silent(w, id, answers) {
      forall id ensures id !in w.ctl.active {}
    }
    forall i: nat | IsWorker(w, i) ensures w.stopped ==> w.workers[i].halted && w.workers[i].inbox == [] {
      assert StopOk(w, i);
    }
  }

  /** All dispatched tasks have run everywhere, and the active jobs are those without any result. */
  ghost predicate AtRest(w: World, answers: (nat, nat) -> bool) {
    (forall k :: 0 <= k < |w.log| ==> InWorkers(w, w.log[k].range) && FinishedEverywhere(w, w.log[k])) &&
    (forall id: nat :: id < |w.log| ==> (id in w.ctl.active <==> Silent(w, id, answers)))
  }

  /** The controller can end if every dispatched job had a result; then nothing that fits is queued, and
      after the stop every worker has ended. */
  ghost predicate Ended(w: World, answers: (nat, nat) -> bool) {
    (w.ctl.active == map[] <==> forall id: nat :: id < |w.log| ==> !Silent(w, id, answers)) &&
    (w.ctl.active == map[] && !w.stopped ==> w.ctl.jobs == [] || w.ctl.jobs[0].size > w.ctl.Workers()) &&
    (w.stopped ==> forall i: nat :: IsWorker(w, i) ==> w.workers[i].halted && w.workers[i].inbox == [])
  }

  /** No more can happen than that jobs are scheduled or the stop is signalled. */
  ghost predicate StandsStill(w: World) {
    forall e :: Enabled(w, e) ==> e.ScheduleJob? || e.SignalStop?
  }

  lemma RestOf(w: World, answers: (nat, nat) -> bool)
    requires WorldInv(w, answers) && CausesOk(w, answers)
    ensures !Unsettled(w) && w.replies == [] ==> AtRest(w, answers)
    ensures StandsStill(w) ==> !Unsettled(w) && w.replies == [] && Ended(w, answers)
  {
    if !Unsettled(w) && w.replies == [] { QuietMeansDone(w, answers); }
    if StandsStill(w) { NothingStuck(w, answers); }
  }

  /** All of this for every run from the start: what it comes to when it rests or stands still, and that a
      job without a result keeps the stop away. */
  lemma RunsComeToRest(size: nat, controllers: nat, events: seq<Event>, answers: (nat, nat) -> bool)
    requires 1 <= controllers <= size && IsRun(Init(size, controllers), events, answers)
    ensures var w := After(Init(size, controllers), events, answers);
      !Unsettled(w) && w.replies == [] ==> AtRest(w, answers)
    ensures var w := After(Init(size, controllers), events, answers);
      StandsStill(w) ==> AtRest(w, answers) && Ended(w, answers)
    ensures var w := After(Init(size, controllers), events, answers);
      forall id: nat :: id < |w.log| && Silent(w, id, answers) ==> id in w.ctl.active && !Enabled(w, SignalStop)
  {
    var w := After(Init(size, controllers), events, answers);
    InitInv(size, controllers, answers);
    InitCauses(size, controllers, answers);
    RunCauses(Init(size, controllers), events, answers);
    RestOf(w, answers);
    forall id: nat | id < |w.log| && Silent(w, id, answers) ensures id in w.ctl.active && !Enabled(w, SignalStop) {
      SilentStays(w, id, answers);
    }
  }

  // A run that does not come to its end: one worker, one job, no result.

  const NO_ANSWERS: (nat, nat) -> bool := (id, rank) => false

  const ONE_JOB := [ScheduleJob("", 1), Dispatch, Send, Begin(1), Complete(1)]

  /** The world after the first `k` of these events. */
  function JobWorld(k: nat): World {
    var t := Task(0, Range(1, 1));
    var idle := Worker([], None, [], false);
    var queued := Controller(1, [false, true], [Job(0, "", 1)], map[], 1, {});
    var given := Controller(1, [false, false], [], map[0 := Range(1, 1)], 1, {});
    if k == 0 then Init(2, 1)
    else if k == 1 then World(queued, [], None, false, [idle, idle], [])
    else if k == 2 then World(given, [t], Some(1), false, [idle, idle], [])
    else if k == 3 then World(given, [t], None, false, [idle, idle.(inbox := [JobLetter(t)])], [])
    else if k == 4 then World(given, [t], None, false, [idle, idle.(running := Some(t))], [])
    else World(given, [t], None, false, [idle, idle.(finished := [t])], [])
  }

  lemma JobStep(k: nat)
    requires k < 5
    ensures var w, e := JobWorld(k), ONE_JOB[k]; Enabled(w, e) && Apply(w, e, NO_ANSWERS) == JobWorld(k + 1)
  {
    if k <= 1 { JobGiven(k); } else { JobRuns(k); }
  }

  lemma JobGiven(k: nat)
    requires k <= 1
    ensures var w, e := JobWorld(k), ONE_JOB[k]; Enabled(w, e) && Apply(w, e, NO_ANSWERS) == JobWorld(k + 1)
  {
    var w, e := JobWorld(k), ONE_JOB[k];
    if k == 0 {
      assert Apply(w, e, NO_ANSWERS).ctl.available == [false, true];
      assert Apply(w, e, NO_ANSWERS).workers == JobWorld(1).workers;
    } else {
      assert Free(w.ctl.available, 1, 1) && FirstFit(w.ctl.available, 1, 1) == 1;
      assert Apply(w, e, NO_ANSWERS).ctl.available == [false, false];
      assert w.ctl.jobs[1..] == [];
    }
  }

  lemma JobRuns(k: nat)
    requires 2 <= k < 5
    ensures var w, e := JobWorld(k), ONE_JOB[k]; Enabled(w, e) && Apply(w, e, NO_ANSWERS) == JobWorld(k + 1)
  {
    var w, e := JobWorld(k), ONE_JOB[k];
    var t := Task(0, Range(1, 1));
    if k == 2 {
      assert w.workers[1].inbox + [JobLetter(t)] == [JobLetter(t)];
    } else if k == 3 {
      assert w.workers[1].inbox[1..] == [];
    } else {
      assert AllBegun(w, t);
      assert w.workers[1].finished + [t] == [t];
    }
    assert Apply(w, e, NO_ANSWERS).workers == JobWorld(k + 1).workers;
  }

  lemma {:induction false} JobRun(k: nat)
    requires k <= 5
    ensures IsRun(JobWorld(k), ONE_JOB[k..], NO_ANSWERS) && After(JobWorld(k), ONE_JOB[k..], NO_ANSWERS) == JobWorld(5)
    decreases 5 - k
  {
    if k == 5 {
    } else {
      JobStep(k);
      JobRun(k + 1);
      assert ONE_JOB[k..][0] == ONE_JOB[k] && ONE_JOB[k..][1..] == ONE_JOB[k + 1..];
    }
  }

  /** The job has run and nothing is on its way, but it is active and the controller cannot end. */
  lemma SilentJobBlocks()
    ensures IsRun(Init(2, 1), ONE_JOB, NO_ANSWERS) && Blocked(After(Init(2, 1), ONE_JOB, NO_ANSWERS))
  {
    JobRun(0);
    assert ONE_JOB[0..] == ONE_JOB;
    assert 0 in JobWorld(5).ctl.active;
    assert Blocked(JobWorld(5));
  }

  /** Nothing can happen but that more jobs are scheduled, and some job is active. */
  ghost predicate Blocked(w: World) {
    !Unsettled(w) && w.replies == [] && w.ctl.active != map[] && forall e :: Enabled(w, e) ==> e.ScheduleJob?
  }
}
