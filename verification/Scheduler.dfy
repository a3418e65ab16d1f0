/** The scheduler object on a controller rank. Messages to the workers are collected in `outbox`; the
    messages a poll finds are a parameter of the method that polls. */
module Scheduler {
  import opened Allocation

  datatype Message = JobMessage(job: Job, range: Range) | Stop

  datatype Sent = Sent(to: nat, message: Message)

  /** A worker's answer for job `id`. */
  datatype Reply = Reply(from: nat, id: nat, name: string, result: string)

  /** All answers of some polls, taken in one after the other. */
  function Answers(c: Controller, replies: seq<Reply>): Controller
    decreases |replies|
  {
    if replies == [] then c else Answers(Answer(c, replies[0].id), replies[1..])
  }

  /** The results of the answers have been queued, in the order in which these were found. */
  predicate ResultsIn(before: seq<string>, after: seq<string>, replies: seq<Reply>) {
    |after| == |before| + |replies| && before <= after &&
    forall i :: 0 <= i < |replies| ==> after[|before| + i] == replies[i].result
  }

  lemma {:induction false} AnswersInv(c: Controller, replies: seq<Reply>)
    requires Inv(c)
    ensures var d := Answers(c, replies);
      Inv(d) && d.jobs == c.jobs && d.nextId == c.nextId && d.controllers == c.controllers &&
      |d.available| == |c.available| && Remaining(d) <= Remaining(c)
    ensures forall id :: id in Answers(c, replies).active <==>
      id in c.active && forall k :: 0 <= k < |replies| ==> replies[k].id != id
    decreases |replies|
  {
    if replies == [] {
    } else {
      AnswerInv(c, replies[0].id);
      AnswerProgress(c, replies[0].id);
      var e := Answer(c, replies[0].id);
      AnswersInv(e, replies[1..]);
      forall id ensures id in Answers(c, replies).active <==>
          id in c.active && forall k :: 0 <= k < |replies| ==> replies[k].id != id {
        assert (forall k :: 0 <= k < |replies| ==> replies[k].id != id) <==>
          replies[0].id != id && forall k :: 0 <= k < |replies[1..]| ==> replies[1..][k].id != id by {
          if replies[0].id != id && forall k :: 0 <= k < |replies[1..]| ==> replies[1..][k].id != id {
            forall k | 0 <= k < |replies| ensures replies[k].id != id {
              if k > 0 { assert replies[1..][k - 1] == replies[k]; }
            }
          }
        }
      }
    }
  }

  lemma {:induction false} AnswersAppend(c: Controller, replies: seq<Reply>, r: Reply)
    ensures Answers(c, replies + [r]) == Answer(Answers(c, replies), r.id)
    decreases |replies|
  {
    if replies == [] {
      assert replies + [r] == [r];
      assert Answers(Answer(c, r.id), [r][1..]) == Answer(c, r.id);
    } else {
      assert (replies + [r])[1..] == replies[1..] + [r];
      AnswersAppend(Answer(c, replies[0].id), replies[1..], r);
    }
  }

  lemma FirstFitIs(available: seq<bool>, n: nat, s: nat)
    requires n > 0 && 1 <= s
    requires Free(available, s, n) && forall t :: 1 <= t < s ==> !Free(available, t, n)
    ensures FirstFit(available, n, 1) == s
  {
    var r := FirstFit(available, n, 1);
    assert r < |available| ==> Free(available, r, n);
  }

  /** What has been sent is one message to each rank of the range, in order, and to no other. */
  predicate SentToEach(before: seq<Sent>, after: seq<Sent>, r: Range, m: Message) {
    r.first <= r.last + 1 && |after| == |before| + (r.last + 1 - r.first) && before <= after &&
    forall i :: r.first <= i <= r.last ==> after[|before| + (i - r.first)] == Sent(i, m)
  }

  /** The messages have been sent for these jobs one after the other, each to all ranks of its range. */
  ghost predicate SentJobs(before: seq<Sent>, after: seq<Sent>, jobs: seq<Job>, active: map<nat, Range>)
    decreases |jobs|
  {
    if jobs == [] then after == before
    else
      var job := jobs[|jobs| - 1];
      job.id in active && exists mid: seq<Sent> ::
        SentJobs(before, mid, jobs[..|jobs| - 1], active) &&
        SentToEach(mid, after, active[job.id], JobMessage(job, active[job.id]))
  }

  /** The first jobs of a queue have been sent, the others are still there. */
  ghost predicate Dispatched(before: seq<Sent>, after: seq<Sent>, all: seq<Job>, sent: nat, jobs: seq<Job>,
                             active: map<nat, Range>) {
    sent <= |all| && jobs == all[sent..] && SentJobs(before, after, all[..sent], active)
  }

  lemma {:induction false} SentJobsStay(
      before: seq<Sent>, after: seq<Sent>, jobs: seq<Job>, active: map<nat, Range>, more: map<nat, Range>)
    requires SentJobs(before, after, jobs, active)
    requires forall id :: id in active ==> id in more && more[id] == active[id]
    ensures SentJobs(before, after, jobs, more)
    decreases |jobs|
  {
    if jobs == [] {
    } else {
      var job := jobs[|jobs| - 1];
      var mid: seq<Sent> :| SentJobs(before, mid, jobs[..|jobs| - 1], active) &&
        SentToEach(mid, after, active[job.id], JobMessage(job, active[job.id]));
      SentJobsStay(before, mid, jobs[..|jobs| - 1], active, more);
    }
  }

  lemma SentJobsNext(before: seq<Sent>, mid: seq<Sent>, after: seq<Sent>, jobs: seq<Job>, job: Job,
                     active: map<nat, Range>, more: map<nat, Range>)
    requires SentJobs(before, mid, jobs, active) && job.id !in active && job.id in more
    requires forall id :: id in active ==> id in more && more[id] == active[id]
    requires SentToEach(mid, after, more[job.id], JobMessage(job, more[job.id]))
    ensures SentJobs(before, after, jobs + [job], more)
  {
    SentJobsStay(before, mid, jobs, active, more);
    assert (jobs + [job])[..|jobs|] == jobs;
  }

  /** Messages for one rank. */
  function MessagesFor(sent: seq<Sent>, to: nat): seq<Message> {
    if sent == [] then []
    else
      var last := sent[|sent| - 1];
      MessagesFor(sent[..|sent| - 1], to) + if last.to == to then [last.message] else []
  }

  /** So each of these ranks gets the message once, and the others get nothing. */
  lemma {:induction false} EachGetsOne(before: seq<Sent>, after: seq<Sent>, r: Range, m: Message, to: nat)
    requires SentToEach(before, after, r, m)
    ensures MessagesFor(after, to) == MessagesFor(before, to) + if r.Has(to) then [m] else []
    decreases |after|
  {
    if |after| == |before| {
      assert after == before;
    } else {
      var last := after[|after| - 1];
      assert last == after[|before| + (r.last - r.first)] == Sent(r.last, m);
      if r.first == r.last {
        assert after[..|after| - 1] == before;
      } else {
        EachGetsOne(before, after[..|after| - 1], Range(r.first, r.last - 1), m, to);
      }
    }
  }

  class Scheduler {
    const controllers: nat
    var available: array<bool>
    var jobs: seq<Job>
    var active: map<nat, Range>
    var results: seq<string>
    var jobId: nat
    var outbox: seq<Sent>
    ghost var done: set<nat>

    ghost function Abs(): Controller
      reads this, available
    {
      Controller(controllers, available[..], jobs, active, jobId, done)
    }

    ghost predicate Valid()
      reads this, available
    {
      Inv(Abs())
    }

    constructor (size: nat, controllers: nat)
      requires 1 <= controllers <= size
      ensures Valid() && fresh(available) && Abs() == Start(size, controllers)
      ensures results == [] && outbox == [] && jobs == [] && active == map[] && jobId == 0
      ensures available.Length == size && forall i :: 0 <= i < size ==> (available[i] <==> controllers <= i)
    {
      this.controllers := controllers;
      available := new bool[size](i => true);
      jobs, active, results, jobId, outbox, done := [], map[], [], 0, [], {};
      new;
      var rk := 0;
      while rk < controllers
        invariant 0 <= rk <= controllers
        invariant forall i :: 0 <= i < size ==> available[i] == (i >= rk)
        modifies available
      {
        available[rk] := false;
        rk := rk + 1;
      }
      assert available[..] == Start(size, controllers).available;
      StartInv(size, controllers);
    }

    method Schedule(name: string, size: nat)
      requires Valid() && size > 0
      modifies this`jobs, this`jobId
      ensures Valid() && Abs() == Allocation.Schedule(old(Abs()), name, size)
      ensures jobs == old(jobs) + [Job(old(jobId), name, size)] && jobId == old(jobId) + 1
    {
      ScheduleInv(Abs(), name, size);
      jobs := jobs + [Job(jobId, name, size)];
      jobId := jobId + 1;
    }

    /** One pass over the table, counting available ranks in a row. */
    method FindAvailableProcs(n: nat) returns (first: nat)
      requires n > 0 && available.Length > 0
      ensures first == FirstFit(available[..], n, 1)
    {
      var procs := 0;
      var i := 1;
      while i < available.Length
        invariant 1 <= i <= available.Length && 0 <= procs < n && procs < i
        invariant forall k :: i - procs <= k < i ==> available[k]
        invariant procs == i - 1 || !available[i - 1 - procs]
        invariant forall s :: 1 <= s && s + n <= i ==> !Free(available[..], s, n)
      {
        if available[i] { procs := procs + 1; } else { procs := 0; }
        if procs == n {
          FirstFitIs(available[..], n, i - (procs - 1));
          return i - (procs - 1);
        }
        forall s | 1 <= s && s + n == i + 1 ensures !Free(available[..], s, n) {
          assert !available[..][i - procs];
        }
        i := i + 1;
      }
      return available.Length;
    }

    /** Sends the job at the head of the queue to every rank of the first free block. */
    method RunJob()
      requires Valid() && CanRun(Abs())
      modifies this`jobs, this`active, this`outbox, available
      ensures Valid() && Abs() == Allocation.RunJob(old(Abs()))
      ensures jobs == old(jobs)[1..] && old(jobs)[0].id in active
      ensures Taken(active[old(jobs)[0].id], old(jobs)[0].size, old(available[..]), available[..])
      ensures var job := old(jobs)[0];
        SentToEach(old(outbox), outbox, active[job.id], JobMessage(job, active[job.id]))
      ensures old(jobs)[0].id !in old(active)
      ensures forall id :: id in old(active) ==> id in active && active[id] == old(active)[id]
    {
      ghost var c := Abs();
      RunJobInv(c);
      RunJobTakes(c);
      var job := jobs[0];
      jobs := jobs[1..];
      var first := FindAvailableProcs(job.size);
      var last := first + job.size - 1;
      var r := Range(first, last);
      SendAndOccupy(job, r);
      active := active[job.id := r];
      assert Abs() == Allocation.RunJob(c);
    }

    /** The sending loop: each rank is marked as taken right after its message. */
    method SendAndOccupy(job: Job, r: Range)
      requires r.first <= r.last < available.Length
      modifies this`outbox, available
      ensures available[..] == SetRange(old(available[..]), r, false)
      ensures SentToEach(old(outbox), outbox, r, JobMessage(job, r))
    {
      var i := r.first;
      while i <= r.last
        invariant r.first <= i <= r.last + 1
        invariant forall k :: 0 <= k < available.Length ==>
          available[k] == if r.first <= k < i then false else old(available[k])
        invariant |outbox| == |old(outbox)| + (i - r.first) && old(outbox) <= outbox
        invariant forall k :: r.first <= k < i ==> outbox[|old(outbox)| + (k - r.first)] == Sent(k, JobMessage(job, r))
      {
        outbox := outbox + [Sent(i, JobMessage(job, r))];
        available[i] := false;
        i := i + 1;
      }
    }

    /** Takes in the answers that have arrived. */
    method CheckForCompleteJobs(replies: seq<Reply>)
      requires Valid()
      modifies this`active, this`results, this`done, available
      ensures Valid() && Abs() == Answers(old(Abs()), replies)
      ensures ResultsIn(old(results), results, replies)
    {
      var n := 0;
      while n < |replies|
        invariant 0 <= n <= |replies| && Valid()
        invariant Abs() == Answers(old(Abs()), replies[..n])
        invariant ResultsIn(old(results), results, replies[..n])
      {
        TakeReply(replies[n]);
        assert replies[..n + 1] == replies[..n] + [replies[n]];
        AnswersAppend(old(Abs()), replies[..n], replies[n]);
        n := n + 1;
      }
      assert replies[..n] == replies;
    }

    method TakeReply(reply: Reply)
      requires Valid()
      modifies this`active, this`results, this`done, available
      ensures Valid() && Abs() == Answer(old(Abs()), reply.id)
      ensures results == old(results) + [reply.result]
    {
      AnswerInv(Abs(), reply.id);
      results := results + [reply.result];
      var r := if reply.id in active then active[reply.id] else Range(0, 0);
      if reply.id in active { done := done + {reply.id}; }
      active := active - {reply.id};
      Release(r);
      assert reply.id !in old(active) ==> active == old(active);
      assert Abs() == Answer(old(Abs()), reply.id);
    }

    method Release(r: Range)
      requires r.last < available.Length
      modifies available
      ensures available[..] == SetRange(old(available[..]), r, true)
    {
      var i := r.first;
      while i <= r.last
        invariant r.first <= i && (i <= r.last + 1 || i == r.first)
        invariant forall k :: 0 <= k < available.Length ==>
          available[k] == if r.first <= k < i then true else old(available[k])
      {
        available[i] := true;
        i := i + 1;
      }
    }

    /** One more job, behind those that have been sent since the messages were `start`. */
    method RunNext(ghost start: seq<Sent>, ghost all: seq<Job>, ghost sent: nat)
      requires Valid() && CanRun(Abs()) && Dispatched(start, outbox, all, sent, jobs, active)
      modifies this`jobs, this`active, this`outbox, available
      ensures Valid() && Abs() == Allocation.RunJob(old(Abs()))
      ensures Dispatched(start, outbox, all, sent + 1, jobs, active)
    {
      ghost var mid, job, was := outbox, jobs[0], active;
      RunJob();
      SentJobsNext(start, mid, outbox, all[..sent], job, was, active);
      assert all[..sent + 1] == all[..sent] + [all[sent]];
    }

    /** The dispatch loop: the jobs that are no longer queued have been sent, in order, each to all ranks of
        the range that it has. */
    method DispatchAll()
      requires Valid()
      modifies this`jobs, this`active, this`outbox, available
      ensures Valid() && Abs() == RunJobs(old(Abs()))
      ensures |jobs| <= |old(jobs)| && SentJobs(old(outbox), outbox, old(jobs)[..|old(jobs)| - |jobs|], active)
    {
      ghost var all, sent := jobs, 0;
      assert all[..0] == [] && all[0..] == all;
      while true
        invariant Valid() && RunJobs(Abs()) == RunJobs(old(Abs()))
        invariant Dispatched(old(outbox), outbox, all, sent, jobs, active)
        decreases |jobs|
      {
        if jobs == [] { break; }
        var first := FindAvailableProcs(jobs[0].size);
        if first >= available.Length { break; }
        RunNext(old(outbox), all, sent);
        sent := sent + 1;
      }
    }

    /** One round of the control loop. It reports that nothing is left exactly when nothing is; if it
        leaves the scheduler with queued jobs but none active, the first of them wants more workers
        than there are. */
    method Control(replies: seq<Reply>) returns (more: bool)
      requires Valid()
      modifies this`jobs, this`active, this`results, this`outbox, this`done, available
      ensures Valid() && Abs() == RunJobs(Answers(old(Abs()), replies))
      ensures ResultsIn(old(results), results, replies)
      ensures !more <==> active == map[] && jobs == []
      ensures active == map[] && jobs != [] ==> jobs[0].size > available.Length - controllers
      ensures Remaining(Abs()) <= Remaining(old(Abs()))
      ensures |jobs| <= |old(jobs)| && SentJobs(old(outbox), outbox, old(jobs)[..|old(jobs)| - |jobs|], active)
    {
      AnswersInv(Abs(), replies);
      CheckForCompleteJobs(replies);
      RunJobsInv(Abs());
      DispatchAll();
      more := active != map[] || jobs != [];
    }

    /** One poll: exactly the answered jobs are no longer active. */
    method Poll(replies: seq<Reply>)
      requires Valid()
      modifies this`active, this`results, this`done, available
      ensures Valid() && ResultsIn(old(results), results, replies)
      ensures forall id :: id in active <==> id in old(active) && forall k :: 0 <= k < |replies| ==> replies[k].id != id
    {
      AnswersInv(Abs(), replies);
      CheckForCompleteJobs(replies);
    }

    /** Polls until no job is active, then stops the other ranks. It gets there if every job that is
        active is answered in one of the polls. */
    method Finish(polls: seq<seq<Reply>>) returns (finished: bool)
      requires Valid()
      modifies this`active, this`results, this`outbox, this`done, available
      ensures Valid() && jobs == old(jobs)
      ensures (forall id :: id in old(active) ==>
        exists k, j :: 0 <= k < |polls| && 0 <= j < |polls[k]| && polls[k][j].id == id)
        ==> finished
      ensures finished ==> active == map[] && SentToEach(old(outbox), outbox, Range(1, available.Length - 1), Stop)
      ensures !finished ==> active != map[] && outbox == old(outbox)
    {
      var n := 0;
      while active != map[] && n < |polls|
        invariant 0 <= n <= |polls| && Valid() && jobs == old(jobs) && outbox == old(outbox)
        invariant active.Keys <= old(active.Keys)
        invariant forall id, k, j :: id in active && 0 <= k < n && 0 <= j < |polls[k]| ==> polls[k][j].id != id
      {
        Poll(polls[n]);
        n := n + 1;
      }
      finished := active == map[];
      if finished { SignalStop(); }
      else { var id :| id in active; assert id in old(active); }
    }

    method SignalStop()
      requires available.Length > 0
      modifies this`outbox
      ensures SentToEach(old(outbox), outbox, Range(1, available.Length - 1), Stop)
    {
      var i := 1;
      while i < available.Length
        invariant 1 <= i <= available.Length
        invariant SentToEach(old(outbox), outbox, Range(1, i - 1), Stop)
      {
        outbox := outbox + [Sent(i, Stop)];
        i := i + 1;
      }
    }
  }
}
