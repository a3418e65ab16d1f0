/** One controller and its workers exchanging messages. Sends only enqueue; each worker takes its
    messages in order; a job runs on a worker only once every rank of its range has taken it, because
    the job's communicator is created by all of them together. */
module SchedulerProtocol {
  import opened Allocation
  import opened Options

  datatype Task = Task(id: nat, range: Range)

  datatype Letter = JobLetter(task: Task) | StopLetter

  /** `finished` lists the tasks the rank has run, in order. */
  datatype Worker = Worker(inbox: seq<Letter>, running: Option<Task>, finished: seq<Task>, halted: bool)

  datatype Reply = Reply(from: nat, id: nat)

  /** `log` lists the dispatched tasks; while the last of them is being sent out, `sending` is the
      rank whose turn it is. */
  datatype World = World(
    ctl: Controller, log: seq<Task>, sending: Option<nat>, stopped: bool, workers: seq<Worker>, replies: seq<Reply>)

  /** What may happen next. */
  datatype Event =
    | ScheduleJob(name: string, size: nat)
    | Dispatch
    | Send
    | Receive(k: nat)  // the controller takes in one of the answers on their way
    | SignalStop
    | Begin(rank: nat)
    | Complete(rank: nat)
    | Halt(rank: nat)

  function Init(size: nat, controllers: nat): World {
    World(Start(size, controllers), [], None, false, seq(size, i => Worker([], None, [], false)), [])
  }

  predicate IsWorker(w: World, i: nat) {
    w.ctl.controllers <= i < |w.workers|
  }

  /** Every rank of the range has taken the task. */
  predicate AllBegun(w: World, t: Task)
    requires t.range.last < |w.workers|
  {
    forall j :: t.range.first <= j <= t.range.last ==>
      w.workers[j].running == Some(t) || t in w.workers[j].finished
  }

  predicate Enabled(w: World, e: Event) {
    match e
    case ScheduleJob(_, size) => w.sending.None? && !w.stopped && size > 0
    case Dispatch => w.sending.None? && !w.stopped && CanRun(w.ctl)
    case Send => w.sending.Some? && w.log != [] && w.sending.value < |w.workers|
    case Receive(k) => w.sending.None? && k < |w.replies|
    case SignalStop => w.sending.None? && !w.stopped && w.ctl.active == map[]
    case Begin(i) =>
      IsWorker(w, i) && var r := w.workers[i];
      !r.halted && r.running.None? && r.inbox != [] && r.inbox[0].JobLetter?
    case Complete(i) =>
      IsWorker(w, i) && var r := w.workers[i];
      r.running.Some? && r.running.value.range.last < |w.workers| && AllBegun(w, r.running.value)
    case Halt(i) =>
      IsWorker(w, i) && var r := w.workers[i];
      !r.halted && r.running.None? && r.inbox != [] && r.inbox[0].StopLetter?
  }

  /** `answers(id, rank)` says whether the run of job `id` on `rank` gives a nonempty result; an empty
      one is not sent back. */
  function Apply(w: World, e: Event, answers: (nat, nat) -> bool): World
    requires Enabled(w, e)
  {
    match e
    case ScheduleJob(name, size) => w.(ctl := Schedule(w.ctl, name, size))
    case Dispatch =>
      var t := Task(w.ctl.jobs[0].id, RunRange(w.ctl));
      w.(ctl := RunJob(w.ctl), log := w.log + [t], sending := Some(t.range.first))
    case Send =>
      var t, i := w.log[|w.log| - 1], w.sending.value;
      var r := w.workers[i];
      w.(workers := w.workers[i := r.(inbox := r.inbox + [JobLetter(t)])],
         sending := if i == t.range.last then None else Some(i + 1))
    case Receive(k) =>
      w.(ctl := Answer(w.ctl, w.replies[k].id), replies := w.replies[..k] + w.replies[k + 1..])
    case SignalStop =>
      w.(stopped := true,
         workers := seq(|w.workers|, i requires 0 <= i < |w.workers| =>
           if i == 0 then w.workers[i] else w.workers[i].(inbox := w.workers[i].inbox + [StopLetter])))
    case Begin(i) =>
      var r := w.workers[i];
      w.(workers := w.workers[i := r.(inbox := r.inbox[1..], running := Some(r.inbox[0].task))])
    case Complete(i) =>
      var r := w.workers[i];
      var t := r.running.value;
      w.(workers := w.workers[i := r.(running := None, finished := r.finished + [t])],
         replies := if answers(t.id, i) then w.replies + [Reply(i, t.id)] else w.replies)
    case Halt(i) =>
      var r := w.workers[i];
      w.(workers := w.workers[i := r.(inbox := r.inbox[1..], halted := true)])
  }

  // What has been sent to a rank.

  /** The tasks of a log that concern a rank. */
  function TasksOf(log: seq<Task>, i: nat): seq<Task> {
    if log == [] then []
    else
      var t := log[|log| - 1];
      TasksOf(log[..|log| - 1], i) + if t.range.Has(i) then [t] else []
  }

  /** The tasks that have been sent to a rank so far. */
  function SentTo(w: World, i: nat): seq<Task>
    requires w.sending.Some? ==> w.log != []
  {
    TasksOf(if w.sending.Some? && w.sending.value <= i then w.log[..|w.log| - 1] else w.log, i)
  }

  /** The tasks still in an inbox. */
  function Waiting(inbox: seq<Letter>): seq<Task> {
    if inbox == [] then []
    else (if inbox[0].JobLetter? then [inbox[0].task] else []) + Waiting(inbox[1..])
  }

  function Current(r: Worker): seq<Task> {
    if r.running.Some? then [r.running.value] else []
  }

  // The invariant.

  predicate InWorkers(w: World, r: Range) {
    w.ctl.controllers <= r.first <= r.last < |w.workers|
  }

  ghost predicate LogOk(w: World) {
    |w.log| == w.ctl.Dispatched() && |w.workers| == |w.ctl.available| &&
    (forall k :: 0 <= k < |w.log| ==> w.log[k].id == k && InWorkers(w, w.log[k].range)) &&
    (forall id :: id in w.ctl.active ==> id < |w.log| && w.log[id].range == w.ctl.active[id]) &&
    (w.sending.Some? ==> !w.stopped && w.log != [] && w.log[|w.log| - 1].range.Has(w.sending.value))
  }

  /** Nothing follows a stop, and a rank that has stopped has nothing left to do. */
  ghost predicate StopOk(w: World, i: nat)
    requires i < |w.workers|
  {
    var r := w.workers[i];
    (forall k :: 0 <= k < |r.inbox| && r.inbox[k].StopLetter? ==> k == |r.inbox| - 1 && w.stopped) &&
    (w.stopped && !r.halted ==> r.inbox != [] && r.inbox[|r.inbox| - 1].StopLetter?) &&
    (r.halted ==> w.stopped && r.inbox == [] && r.running.None?)
  }

  /** Each worker runs exactly the tasks sent to it, in the order of their dispatch. */
  ghost predicate OrderOk(w: World, i: nat)
    requires i < |w.workers| && (w.sending.Some? ==> w.log != [])
  {
    var r := w.workers[i];
    r.finished + Current(r) + Waiting(r.inbox) == SentTo(w, i)
  }

  /** The answers to an active job are all still on their way. */
  ghost predicate RepliesOk(w: World, answers: (nat, nat) -> bool) {
    forall id, i: nat :: id in w.ctl.active && id < |w.log| && IsWorker(w, i) ==>
      (w.log[id] in w.workers[i].finished && answers(id, i) ==> Reply(i, id) in w.replies)
  }

  ghost predicate WorldInv(w: World, answers: (nat, nat) -> bool) {
    Inv(w.ctl) && LogOk(w) && (forall i: nat :: IsWorker(w, i) ==> StopOk(w, i) && OrderOk(w, i)) &&
      RepliesOk(w, answers)
  }

  lemma {:induction false} WaitingAppend(inbox: seq<Letter>, l: Letter)
    ensures Waiting(inbox + [l]) == Waiting(inbox) + if l.JobLetter? then [l.task] else []
    decreases |inbox|
  {
    var all := inbox + [l];
    if inbox == [] {
      assert all[1..] == [];
    } else {
      var rest := inbox[1..];
      assert all[1..] == rest + [l] && all[0] == inbox[0];
      WaitingAppend(rest, l);
    }
  }

  /** The first waiting task is at the head of the inbox when nothing follows a stop. */
  lemma WaitingHead(inbox: seq<Letter>)
    requires Waiting(inbox) != [] && forall k :: 0 <= k < |inbox| && inbox[k].StopLetter? ==> k == |inbox| - 1
    ensures inbox != [] && inbox[0] == JobLetter(Waiting(inbox)[0])
  {
    if |inbox| == 1 { assert inbox[1..] == []; }
  }

  lemma TasksOfAppend(log: seq<Task>, t: Task, i: nat)
    ensures TasksOf(log + [t], i) == TasksOf(log, i) + if t.range.Has(i) then [t] else []
  {
    assert (log + [t])[..|log|] == log;
  }

  lemma InitInv(size: nat, controllers: nat, answers: (nat, nat) -> bool)
    requires 1 <= controllers <= size
    ensures WorldInv(Init(size, controllers), answers)
  {
    StartInv(size, controllers);
  }

  lemma ScheduleJobInv(w: World, name: string, size: nat, answers: (nat, nat) -> bool)
    requires WorldInv(w, answers) && Enabled(w, ScheduleJob(name, size))
    ensures WorldInv(Apply(w, ScheduleJob(name, size), answers), answers)
  {
    ScheduleInv(w.ctl, name, size);
    var w' := Apply(w, ScheduleJob(name, size), answers);
    forall i: nat | IsWorker(w', i) ensures StopOk(w', i) && OrderOk(w', i) {
      assert StopOk(w, i) && OrderOk(w, i);
    }
  }

  lemma DispatchInv(w: World, answers: (nat, nat) -> bool)
    requires WorldInv(w, answers) && Enabled(w, Dispatch)
    ensures WorldInv(Apply(w, Dispatch, answers), answers)
  {
    RunJobInv(w.ctl);
    var w' := Apply(w, Dispatch, answers);
    var t := w'.log[|w.log|];
    assert w'.log[..|w.log|] == w.log;
    forall i: nat | IsWorker(w', i) ensures StopOk(w', i) && OrderOk(w', i) {
      assert StopOk(w, i) && OrderOk(w, i);
      TasksOfAppend(w.log, t, i);
    }
    DispatchReplies(w, answers);
  }

  lemma DispatchReplies(w: World, answers: (nat, nat) -> bool)
    requires WorldInv(w, answers) && Enabled(w, Dispatch)
    ensures RepliesOk(Apply(w, Dispatch, answers), answers)
  {
    var w' := Apply(w, Dispatch, answers);
    var t := w'.log[|w.log|];
    IdsGoOn(w.ctl);
    NotFinishedYet(w, t.id);
    forall id, i: nat | id in w'.ctl.active && id < |w'.log| && IsWorker(w', i) &&
      w'.log[id] in w'.workers[i].finished && answers(id, i) ensures Reply(i, id) in w'.replies {
      assert IsWorker(w, i);
      assert w'.log[id].id == id;
      assert id != t.id;
      assert w.log[id] in w.workers[i].finished;
    }
  }

  /** The job at the head of the queue has the first id that has not been dispatched. */
  lemma IdsGoOn(c: Controller)
    requires Inv(c) && CanRun(c)
    ensures c.jobs[0].id == c.Dispatched()
  {
  }

  /** Tasks come from the log, so one with a new id has not been run. */
  lemma NotFinishedYet(w: World, id: nat)
    requires LogOk(w) && id >= |w.log| && forall i: nat :: IsWorker(w, i) ==> OrderOk(w, i)
    ensures forall i: nat, t :: IsWorker(w, i) && t in w.workers[i].finished ==> t.id != id
  {
    forall i: nat, t | IsWorker(w, i) && t in w.workers[i].finished ensures t.id != id {
      assert OrderOk(w, i);
      assert t in SentTo(w, i);
      TasksOfMember(if w.sending.Some? && w.sending.value <= i then w.log[..|w.log| - 1] else w.log, i, t);
      var k :| 0 <= k < |w.log| && w.log[k] == t;
    }
  }

  lemma {:induction false} TasksOfMember(log: seq<Task>, i: nat, t: Task)
    ensures t in TasksOf(log, i) <==> t in log && t.range.Has(i)
  {
    if log == [] {
    } else {
      var last := log[|log| - 1];
      assert log == log[..|log| - 1] + [last];
      TasksOfMember(log[..|log| - 1], i, t);
    }
  }

  lemma SendInv(w: World, answers: (nat, nat) -> bool)
    requires WorldInv(w, answers) && Enabled(w, Send)
    ensures WorldInv(Apply(w, Send, answers), answers)
  {
    var w' := Apply(w, Send, answers);
    var t, i0 := w.log[|w.log| - 1], w.sending.value;
    assert w.log == w.log[..|w.log| - 1] + [t];
    assert InWorkers(w, t.range);
    forall i: nat | IsWorker(w', i) ensures StopOk(w', i) && OrderOk(w', i) {
      assert StopOk(w, i) && OrderOk(w, i);
      TasksOfAppend(w.log[..|w.log| - 1], t, i);
      if i == i0 { WaitingAppend(w.workers[i].inbox, JobLetter(t)); }
    }
    assert RepliesOk(w', answers) by {
      forall id, i: nat | id in w'.ctl.active && id < |w'.log| && IsWorker(w', i) &&
        w'.log[id] in w'.workers[i].finished && answers(id, i) ensures Reply(i, id) in w'.replies {
        assert IsWorker(w, i);
      }
    }
  }

  lemma ReceiveInv(w: World, k: nat, answers: (nat, nat) -> bool)
    requires WorldInv(w, answers) && Enabled(w, Receive(k))
    ensures WorldInv(Apply(w, Receive(k), answers), answers)
  {
    var w' := Apply(w, Receive(k), answers);
    AnswerInv(w.ctl, w.replies[k].id);
    assert w'.ctl.Dispatched() == w.ctl.Dispatched();
    forall i: nat | IsWorker(w', i) ensures StopOk(w', i) && OrderOk(w', i) {
      assert IsWorker(w, i);
      assert StopOk(w, i) && OrderOk(w, i);
    }
    ReceiveReplies(w, k, answers);
  }

  lemma ReceiveReplies(w: World, k: nat, answers: (nat, nat) -> bool)
    requires RepliesOk(w, answers) && Enabled(w, Receive(k))
    ensures RepliesOk(Apply(w, Receive(k), answers), answers)
  {
    var w' := Apply(w, Receive(k), answers);
    forall id, i: nat | id in w'.ctl.active && id < |w'.log| && IsWorker(w', i) &&
      w'.log[id] in w'.workers[i].finished && answers(id, i) ensures Reply(i, id) in w'.replies {
      assert IsWorker(w, i);
      assert Reply(i, id) in w.replies && Reply(i, id) != w.replies[k];
      assert w.replies == w.replies[..k] + [w.replies[k]] + w.replies[k + 1..];
    }
  }

  lemma SignalStopInv(w: World, answers: (nat, nat) -> bool)
    requires WorldInv(w, answers) && Enabled(w, SignalStop)
    ensures WorldInv(Apply(w, SignalStop, answers), answers)
  {
    var w' := Apply(w, SignalStop, answers);
    forall i: nat | IsWorker(w', i) ensures StopOk(w', i) && OrderOk(w', i) {
      assert StopOk(w, i) && OrderOk(w, i);
      WaitingAppend(w.workers[i].inbox, StopLetter);
    }
  }

  /** The events of one worker change only that worker and, perhaps, add an answer. */
  lemma WorkerInv(w: World, e: Event, i: nat, answers: (nat, nat) -> bool)
    requires WorldInv(w, answers) && Enabled(w, e) && (e == Begin(i) || e == Complete(i) || e == Halt(i))
    ensures WorldInv(Apply(w, e, answers), answers)
  {
    var w' := Apply(w, e, answers);
    assert StopOk(w, i) && OrderOk(w, i);
    OneWorker(w, e, i, answers);
    forall j: nat | IsWorker(w', j) && j != i ensures StopOk(w', j) && OrderOk(w', j) {
      assert StopOk(w, j) && OrderOk(w, j);
    }
    WorkerReplies(w, e, i, answers);
  }

  lemma WorkerReplies(w: World, e: Event, i: nat, answers: (nat, nat) -> bool)
    requires LogOk(w) && RepliesOk(w, answers) && Enabled(w, e) && (e == Begin(i) || e == Complete(i) || e == Halt(i))
    requires IsWorker(w, i) && OrderOk(w, i)
    ensures RepliesOk(Apply(w, e, answers), answers)
  {
    var w' := Apply(w, e, answers);
    forall id, j: nat | id in w'.ctl.active && id < |w'.log| && IsWorker(w', j) &&
      w'.log[id] in w'.workers[j].finished && answers(id, j) ensures Reply(j, id) in w'.replies {
      assert IsWorker(w, j);
      assert w.log[id].id == id;
      if w.log[id] !in w.workers[j].finished {
        assert w'.replies == w.replies + [Reply(i, id)];
      }
    }
  }

  lemma OneWorker(w: World, e: Event, i: nat, answers: (nat, nat) -> bool)
    requires LogOk(w) && Enabled(w, e) && (e == Begin(i) || e == Complete(i) || e == Halt(i))
    requires StopOk(w, i) && OrderOk(w, i)
    ensures var w' := Apply(w, e, answers); StopOk(w', i) && OrderOk(w', i)
  {
    match e
    case Begin(_) => BeginWorker(w, i, answers);
    case Complete(_) => CompleteWorker(w, i, answers);
    case Halt(_) => HaltWorker(w, i, answers);
  }

  lemma BeginWorker(w: World, i: nat, answers: (nat, nat) -> bool)
    requires LogOk(w) && Enabled(w, Begin(i)) && StopOk(w, i) && OrderOk(w, i)
    ensures var w' := Apply(w, Begin(i), answers); StopOk(w', i) && OrderOk(w', i)
  {
    var w', r := Apply(w, Begin(i), answers), w.workers[i];
    var r' := w'.workers[i];
    FirstWaiting(r.inbox);
    assert r.finished + [r.inbox[0].task] + Waiting(r.inbox[1..]) == r.finished + Waiting(r.inbox);
    assert SentTo(w', i) == SentTo(w, i);
  }

  lemma FirstWaiting(inbox: seq<Letter>)
    requires inbox != [] && inbox[0].JobLetter?
    ensures Waiting(inbox) == [inbox[0].task] + Waiting(inbox[1..])
  {
  }

  lemma CompleteWorker(w: World, i: nat, answers: (nat, nat) -> bool)
    requires LogOk(w) && Enabled(w, Complete(i)) && StopOk(w, i) && OrderOk(w, i)
    ensures var w' := Apply(w, Complete(i), answers); StopOk(w', i) && OrderOk(w', i)
  {
    var r, r' := w.workers[i], Apply(w, Complete(i), answers).workers[i];
    assert r'.finished + Current(r') == r.finished + Current(r);
  }

  lemma HaltWorker(w: World, i: nat, answers: (nat, nat) -> bool)
    requires LogOk(w) && Enabled(w, Halt(i)) && StopOk(w, i) && OrderOk(w, i)
    ensures var w' := Apply(w, Halt(i), answers); StopOk(w', i) && OrderOk(w', i)
  {
    var r, r' := w.workers[i], Apply(w, Halt(i), answers).workers[i];
    assert Waiting(r'.inbox) == Waiting(r.inbox);
  }

  /** Every event keeps the invariant. */
  lemma StepInv(w: World, e: Event, answers: (nat, nat) -> bool)
    requires WorldInv(w, answers) && Enabled(w, e)
    ensures WorldInv(Apply(w, e, answers), answers)
  {
    match e
    case ScheduleJob(name, size) => ScheduleJobInv(w, name, size, answers);
    case Dispatch => DispatchInv(w, answers);
    case Send => SendInv(w, answers);
    case Receive(k) => ReceiveInv(w, k, answers);
    case SignalStop => SignalStopInv(w, answers);
    case Begin(i) => WorkerInv(w, e, i, answers);
    case Complete(i) => WorkerInv(w, e, i, answers);
    case Halt(i) => WorkerInv(w, e, i, answers);
  }

  // Runs.

  /** A run as the list of its events from the start. */
  ghost predicate IsRun(w: World, events: seq<Event>, answers: (nat, nat) -> bool)
    decreases |events|
  {
    events == [] || (Enabled(w, events[0]) && IsRun(Apply(w, events[0], answers), events[1..], answers))
  }

  ghost function After(w: World, events: seq<Event>, answers: (nat, nat) -> bool): World
    requires IsRun(w, events, answers)
    decreases |events|
  {
    if events == [] then w else After(Apply(w, events[0], answers), events[1..], answers)
  }

  lemma {:induction false} RunInv(w: World, events: seq<Event>, answers: (nat, nat) -> bool)
    requires WorldInv(w, answers) && IsRun(w, events, answers)
    ensures WorldInv(After(w, events, answers), answers)
    decreases |events|
  {
    if events == [] {
    } else {
      StepInv(w, events[0], answers);
      RunInv(Apply(w, events[0], answers), events[1..], answers);
    }
  }

  /** In every reachable world the active ranges are disjoint blocks of workers, the availability
      table marks exactly their ranks as taken, every id is in exactly one place, the dispatch order
      is the order of the ids, and each worker runs the tasks sent to it in that order. */
  lemma Safety(size: nat, controllers: nat, events: seq<Event>, answers: (nat, nat) -> bool)
    requires 1 <= controllers <= size && IsRun(Init(size, controllers), events, answers)
    ensures var w := After(Init(size, controllers), events, answers);
      RangesOk(w.ctl) && TableOk(w.ctl) && IdsOk(w.ctl) &&
      (forall k :: 0 <= k < |w.log| ==> w.log[k].id == k) &&
      (w.sending.Some? ==> w.log != []) &&
      (forall i: nat :: IsWorker(w, i) ==>
        w.workers[i].finished + Current(w.workers[i]) + Waiting(w.workers[i].inbox) == SentTo(w, i))
  {
    InitInv(size, controllers, answers);
    RunInv(Init(size, controllers), events, answers);
    var w := After(Init(size, controllers), events, answers);
    forall i: nat | IsWorker(w, i)
      ensures w.workers[i].finished + Current(w.workers[i]) + Waiting(w.workers[i].inbox) == SentTo(w, i) {
      assert OrderOk(w, i);
    }
  }

  // Deadlock freedom.

  predicate FinishedEverywhere(w: World, t: Task)
    requires t.range.last < |w.workers|
  {
    forall j :: t.range.first <= j <= t.range.last ==> t in w.workers[j].finished
  }

  predicate Listed(log: seq<Task>, t: Task) {
    t.id < |log| && log[t.id] == t
  }

  /** Ids go up along the tasks of a rank. */
  lemma {:induction false} TasksOfIncreasing(log: seq<Task>, i: nat)
    requires forall k :: 0 <= k < |log| ==> log[k].id == k
    ensures forall a :: 0 <= a < |TasksOf(log, i)| ==> Listed(log, TasksOf(log, i)[a])
    ensures forall a, b :: 0 <= a < b < |TasksOf(log, i)| ==> TasksOf(log, i)[a].id < TasksOf(log, i)[b].id
  {
    if log == [] {
    } else {
      var before, t := log[..|log| - 1], log[|log| - 1];
      TasksOfIncreasing(before, i);
      var s0 := TasksOf(before, i);
      assert forall a :: 0 <= a < |s0| ==> Listed(before, s0[a]);
      assert forall u :: Listed(before, u) ==> Listed(log, u);
      assert Listed(log, t);
    }
  }

  /** In a list with increasing ids, what precedes the first missing task is all there. */
  lemma FirstMissing(there: seq<Task>, rest: seq<Task>, t: Task)
    requires forall a, b :: 0 <= a < b < |there + rest| ==> (there + rest)[a].id < (there + rest)[b].id
    requires t in there + rest && t !in there
    requires forall u :: u in there + rest && u.id < t.id ==> u in there
    ensures rest != [] && rest[0] == t
  {
    var d, n := there + rest, |there|;
    var q :| 0 <= q < |d| && d[q] == t;
    assert n <= q;
    forall a | 0 <= a < n ensures there[a] != d[n] {
      assert d[a].id < d[n].id;
    }
    assert d[n] !in there;
  }

  lemma IncreasingSent(w: World, j: nat)
    requires LogOk(w)
    ensures var d := SentTo(w, j);
      (forall a, b :: 0 <= a < b < |d| ==> d[a].id < d[b].id) &&
      (forall u :: u in d ==> u.id < |w.log| && w.log[u.id] == u && u.range.Has(j))
  {
    var log := if w.sending.Some? && w.sending.value <= j then w.log[..|w.log| - 1] else w.log;
    TasksOfIncreasing(log, j);
    assert SentTo(w, j) == TasksOf(log, j);
    forall u | u in SentTo(w, j) ensures u.id < |w.log| && w.log[u.id] == u && u.range.Has(j) {
      TasksOfMember(log, j, u);
      assert Listed(log, u);
    }
  }

  /** The earliest-dispatched unfinished task is what every rank of its range that has been sent it
      and has not run it is running, or will take next. */
  lemma EarliestIsFirst(w: World, k: nat, j: nat, answers: (nat, nat) -> bool)
    requires WorldInv(w, answers) && k < |w.log|
    requires forall m :: 0 <= m < k ==> FinishedEverywhere(w, w.log[m])
    requires w.log[k].range.Has(j) && w.log[k] !in w.workers[j].finished
    requires w.log[k] in SentTo(w, j)
    ensures var r := w.workers[j];
      r.running == Some(w.log[k]) || (r.running.None? && r.inbox != [] && r.inbox[0] == JobLetter(w.log[k]))
  {
    var r := w.workers[j];
    assert OrderOk(w, j) && StopOk(w, j);
    IncreasingSent(w, j);
    var rest := Current(r) + Waiting(r.inbox);
    assert r.finished + rest == SentTo(w, j);
    forall u | u in SentTo(w, j) && u.id < k ensures u in r.finished {
      assert FinishedEverywhere(w, w.log[u.id]);
    }
    FirstMissing(r.finished, rest, w.log[k]);
    assert rest[0] == w.log[k];
    if r.running.None? {
      assert rest == Waiting(r.inbox);
      WaitingHead(r.inbox);
    }
  }

  /** Something is left to do for a worker, or a dispatch is being sent out. */
  ghost predicate Unsettled(w: World) {
    w.sending.Some? || exists i: nat :: IsWorker(w, i) && (w.workers[i].running.Some? || w.workers[i].inbox != [])
  }

  /** The controller and the workers never block each other for good: as long as anything is
      unsettled, some send is due or some worker can move. */
  lemma DeadlockFree(w: World, answers: (nat, nat) -> bool)
    requires WorldInv(w, answers) && Unsettled(w)
    ensures Enabled(w, Send) || exists i :: Enabled(w, Begin(i)) || Enabled(w, Complete(i)) || Enabled(w, Halt(i))
  {
    if w.sending.None? {
      var i: nat :| IsWorker(w, i) && (w.workers[i].running.Some? || w.workers[i].inbox != []);
      var r := w.workers[i];
      assert StopOk(w, i) && OrderOk(w, i);
      if r.running.None? {
        assert Enabled(w, Begin(i)) || Enabled(w, Halt(i));
      } else {
        UnfinishedRun(w, i, answers);
      }
    }
  }

  /** Behind a task that runs somewhere there is an earliest one, and that one can move. */
  lemma UnfinishedRun(w: World, i: nat, answers: (nat, nat) -> bool)
    requires WorldInv(w, answers) && w.sending.None? && IsWorker(w, i) && w.workers[i].running.Some?
    ensures exists i :: Enabled(w, Begin(i)) || Enabled(w, Complete(i))
  {
    var t := w.workers[i].running.value;
    RunningUnfinished(w, i, answers);
    var k := EarliestUnfinished(w, t.id);
    var e := w.log[k];
    assert InWorkers(w, e.range);
    forall j: nat | e.range.Has(j) ensures e in SentTo(w, j) { TasksOfMember(w.log, j, e); }
    if j: nat :| e.range.Has(j) && e !in w.workers[j].finished && w.workers[j].running != Some(e) {
      EarliestIsFirst(w, k, j, answers);
      assert StopOk(w, j);
      assert Enabled(w, Begin(j));
    } else {
      var j :| e.range.first <= j <= e.range.last && e !in w.workers[j].finished;
      assert AllBegun(w, e);
      assert Enabled(w, Complete(j));
    }
  }

  lemma RunningUnfinished(w: World, i: nat, answers: (nat, nat) -> bool)
    requires WorldInv(w, answers) && IsWorker(w, i) && w.workers[i].running.Some?
    ensures var t := w.workers[i].running.value;
      t.id < |w.log| && w.log[t.id] == t && t.range.Has(i) && t !in w.workers[i].finished
  {
    var r, t := w.workers[i], w.workers[i].running.value;
    assert OrderOk(w, i);
    IncreasingSent(w, i);
    var d := SentTo(w, i);
    assert d == r.finished + ([t] + Waiting(r.inbox));
    assert d[|r.finished|] == t;
    forall a | 0 <= a < |r.finished| ensures r.finished[a] != t {
      assert d[a] == r.finished[a];
    }
  }

  lemma {:induction false} EarliestUnfinished(w: World, k: nat) returns (e: nat)
    requires LogOk(w) && k < |w.log| && !FinishedEverywhere(w, w.log[k])
    ensures e <= k && !FinishedEverywhere(w, w.log[e])
    ensures forall m :: 0 <= m < e ==> FinishedEverywhere(w, w.log[m])
  {
    if m :| 0 <= m < k && !FinishedEverywhere(w, w.log[m]) {
      e := EarliestUnfinished(w, m);
    } else {
      e := k;
    }
  }
}
