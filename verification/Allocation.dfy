/** The controller of the job scheduler as a value: a queue of jobs, the rank ranges of the active
    ones, and the table of available ranks that a first-fit search allocates from. */
module Allocation {

  datatype Job = Job(id: nat, name: string, size: nat)

  /** Ranks `first` to `last`, both included. */
  datatype Range = Range(first: nat, last: nat) {
    predicate Has(i: int) { first <= i <= last }
  }

  /** `done` keeps the ids that have been answered; it is bookkeeping of the model. */
  datatype Controller = Controller(
    controllers: nat, available: seq<bool>, jobs: seq<Job>, active: map<nat, Range>, nextId: nat, done: set<nat>)
  {
    /** Ids below this one have been dispatched. */
    function Dispatched(): int { nextId - |jobs| }

    function Workers(): int { |available| - controllers }
  }

  predicate Free(available: seq<bool>, first: nat, n: nat) {
    first + n <= |available| && forall i :: first <= i < first + n ==> available[i]
  }

  /** The least start from `from` on of `n` available ranks in a row, the table size if none exists. */
  function FirstFit(available: seq<bool>, n: nat, from: nat): (r: nat)
    requires n > 0
    ensures r < |available| ==> from <= r && Free(available, r, n)
    ensures forall s :: from <= s && (s < r || r == |available|) ==> !Free(available, s, n)
    ensures r <= |available|
    decreases |available| - from
  {
    if from + n > |available| then |available|
    else if Free(available, from, n) then from
    else FirstFit(available, n, from + 1)
  }

  /** The table with all ranks of a range set. */
  function SetRange(available: seq<bool>, r: Range, value: bool): (a: seq<bool>)
    ensures |a| == |available|
  {
    seq(|available|, i requires 0 <= i < |available| => if r.Has(i) then value else available[i])
  }

  function Start(size: nat, controllers: nat): Controller {
    Controller(controllers, seq(size, i => i >= controllers), [], map[], 0, {})
  }

  function Schedule(c: Controller, name: string, size: nat): Controller {
    c.(jobs := c.jobs + [Job(c.nextId, name, size)], nextId := c.nextId + 1)
  }

  /** The job at the head of the queue fits somewhere. */
  predicate CanRun(c: Controller) {
    c.jobs != [] && c.jobs[0].size > 0 && FirstFit(c.available, c.jobs[0].size, 1) < |c.available|
  }

  function RunRange(c: Controller): Range
    requires CanRun(c)
  {
    var first := FirstFit(c.available, c.jobs[0].size, 1);
    Range(first, first + c.jobs[0].size - 1)
  }

  /** Dispatches the job at the head of the queue. */
  function RunJob(c: Controller): Controller
    requires CanRun(c)
  {
    var r := RunRange(c);
    c.(jobs := c.jobs[1..], available := SetRange(c.available, r, false), active := c.active[c.jobs[0].id := r])
  }

  /** Takes in an answer. The first answer of a job releases its whole range. A later one looks up a
      range that is no longer there, which yields the range of rank 0 alone. */
  function Answer(c: Controller, id: nat): Controller {
    if id in c.active then
      c.(available := SetRange(c.available, c.active[id], true), active := c.active - {id}, done := c.done + {id})
    else
      c.(available := SetRange(c.available, Range(0, 0), true))
  }

  /** Dispatches as long as the head of the queue fits. */
  function RunJobs(c: Controller): Controller
    decreases |c.jobs|
  {
    if CanRun(c) then RunJobs(RunJob(c)) else c
  }

  // The invariant.

  ghost predicate RangesOk(c: Controller) {
    (forall id :: id in c.active ==> c.controllers <= c.active[id].first <= c.active[id].last < |c.available|) &&
    (forall a, b, i :: a in c.active && b in c.active && a != b && c.active[a].Has(i) ==> !c.active[b].Has(i))
  }

  ghost predicate Busy(c: Controller, i: nat) {
    exists id :: id in c.active && c.active[id].Has(i)
  }

  /** A worker is available iff no active job has it; a controller other than rank 0 never is. */
  ghost predicate TableOk(c: Controller) {
    1 <= c.controllers <= |c.available| &&
    (forall i :: 0 < i < c.controllers ==> !c.available[i]) &&
    (forall i :: c.controllers <= i < |c.available| ==> (c.available[i] <==> !Busy(c, i)))
  }

  /** Ids are handed out and dispatched in order; each is queued, active or done, and only one of them. */
  ghost predicate IdsOk(c: Controller) {
    |c.jobs| <= c.nextId &&
    (forall k :: 0 <= k < |c.jobs| ==> c.jobs[k].id == c.Dispatched() + k && c.jobs[k].size > 0) &&
    (forall id: nat :: id < c.Dispatched() <==> id in c.active || id in c.done) &&
    (forall id :: id in c.active ==> id !in c.done)
  }

  ghost predicate Inv(c: Controller) {
    TableOk(c) && RangesOk(c) && IdsOk(c)
  }

  lemma StartInv(size: nat, controllers: nat)
    requires 1 <= controllers <= size
    ensures Inv(Start(size, controllers))
  {
  }

  lemma ScheduleInv(c: Controller, name: string, size: nat)
    requires Inv(c) && size > 0
    ensures Inv(Schedule(c, name, size))
  {
    var d := Schedule(c, name, size);
    assert d.Dispatched() == c.Dispatched();
    forall i | c.controllers <= i < |c.available| ensures d.available[i] <==> !Busy(d, i) {
      assert Busy(d, i) <==> Busy(c, i);
    }
  }

  /** A dispatch takes the first free block of workers, so it overlaps no active job. */
  lemma RunJobInv(c: Controller)
    requires Inv(c) && CanRun(c)
    ensures Inv(RunJob(c))
    ensures c.controllers <= RunRange(c).first && RunRange(c).last < |c.available|
    ensures c.jobs[0].id !in c.active && c.jobs[0].id !in c.done
    ensures RunJob(c).Dispatched() == c.Dispatched() + 1
  {
    var d, r, id := RunJob(c), RunRange(c), c.jobs[0].id;
    assert Free(c.available, r.first, c.jobs[0].size);
    assert c.available[r.first];
    assert d.Dispatched() == c.Dispatched() + 1;
    RunTable(c);
    forall a, i | a in c.active && r.Has(i) ensures !c.active[a].Has(i) {
      assert c.available[i] && !Busy(c, i);
    }
  }

  /** Jobs are dispatched exactly when there are enough available ranks in a row for the first of them. */
  lemma CanRunMeans(c: Controller)
    ensures CanRun(c) <==>
      c.jobs != [] && c.jobs[0].size > 0 && exists s: nat :: s >= 1 && Free(c.available, s, c.jobs[0].size)
  {
    if c.jobs != [] && c.jobs[0].size > 0 {
      var n := c.jobs[0].size;
      if CanRun(c) {
        assert Free(c.available, FirstFit(c.available, n, 1), n);
      }
    }
  }

  /** As many ranks in a row as wanted, all of them available before and none of them after; no smaller
      start would have done. */
  predicate Taken(r: Range, size: nat, before: seq<bool>, after: seq<bool>) {
    1 <= r.first && size > 0 && r.last + 1 == r.first + size <= |before| == |after| &&
    (forall i :: r.first <= i <= r.last ==> before[i] && !after[i]) &&
    (forall i :: 0 <= i < |before| && !(r.first <= i <= r.last) ==> after[i] == before[i]) &&
    (forall s: nat :: 1 <= s < r.first ==> !Free(before, s, size))
  }

  /** A dispatched job has as many ranks as its size. */
  lemma RunJobTakes(c: Controller)
    requires CanRun(c)
    ensures var job, d := c.jobs[0], RunJob(c);
      job.id in d.active && Taken(d.active[job.id], job.size, c.available, d.available)
    ensures var d := RunJob(c);
      d.jobs == c.jobs[1..] && d.nextId == c.nextId && d.done == c.done && d.controllers == c.controllers &&
      d.active - {c.jobs[0].id} == c.active - {c.jobs[0].id}
  {
    var n := c.jobs[0].size;
    assert Free(c.available, FirstFit(c.available, n, 1), n);
  }

  lemma RunTable(c: Controller)
    requires Inv(c) && CanRun(c)
    ensures TableOk(RunJob(c)) && c.controllers <= RunRange(c).first
  {
    var d, r, id := RunJob(c), RunRange(c), c.jobs[0].id;
    assert Free(c.available, r.first, c.jobs[0].size);
    assert c.available[r.first];
    forall i | c.controllers <= i < |c.available| ensures d.available[i] <==> !Busy(d, i) {
      if r.Has(i) { assert id in d.active && d.active[id].Has(i); }
      if Busy(d, i) && !r.Has(i) {
        var a :| a in d.active && d.active[a].Has(i);
        assert a in c.active && c.active[a].Has(i);
      }
      if Busy(c, i) && !r.Has(i) {
        var a :| a in c.active && c.active[a].Has(i);
        assert a in d.active && d.active[a].Has(i);
      }
    }
  }

  /** Any answer keeps the invariant; one for an id that is not active changes no active job and no
      worker's availability. */
  lemma AnswerInv(c: Controller, id: nat)
    requires Inv(c)
    ensures Inv(Answer(c, id))
    ensures id !in c.active ==>
      var d := Answer(c, id);
      d == c.(available := d.available) && d.available[0] &&
      forall i :: 0 < i < |c.available| ==> d.available[i] == c.available[i]
    ensures id in c.active ==>
      var d := Answer(c, id);
      d.active == c.active - {id} && d.done == c.done + {id} && d.jobs == c.jobs && d.nextId == c.nextId &&
      forall i :: 0 <= i < |c.available| ==> (d.available[i] <==> c.available[i] || c.active[id].Has(i))
  {
    var d := Answer(c, id);
    if id in c.active {
      var r := c.active[id];
      forall i | c.controllers <= i < |c.available| ensures d.available[i] <==> !Busy(d, i) {
        if Busy(d, i) {
          var a :| a in d.active && d.active[a].Has(i);
          assert c.active[a].Has(i) && Busy(c, i) && !r.Has(i);
        } else if Busy(c, i) {
          var a :| a in c.active && c.active[a].Has(i);
          assert a == id || a in d.active;
        }
      }
      assert d.Dispatched() == c.Dispatched();
    } else {
      forall i | c.controllers <= i < |c.available| ensures d.available[i] <==> !Busy(d, i) {
        assert Busy(d, i) <==> Busy(c, i);
      }
    }
  }

  /** What is left to do: dispatches weigh two, first answers one. */
  function Remaining(c: Controller): nat {
    2 * |c.jobs| + |c.active|
  }

  lemma RunJobProgress(c: Controller)
    requires Inv(c) && CanRun(c)
    ensures Remaining(RunJob(c)) == Remaining(c) - 1
  {
    RunJobInv(c);
    var d := RunJob(c);
    assert d.active.Keys == c.active.Keys + {c.jobs[0].id};
    assert |d.active| == |d.active.Keys| && |c.active| == |c.active.Keys|;
  }

  lemma AnswerProgress(c: Controller, id: nat)
    ensures Remaining(Answer(c, id)) == Remaining(c) - if id in c.active then 1 else 0
  {
    if id in c.active {
      var d := Answer(c, id);
      assert d.active.Keys == c.active.Keys - {id};
      assert |d.active| == |d.active.Keys| && |c.active| == |c.active.Keys|;
    }
  }

  /** When nothing is active, exactly the jobs that need no more than all workers fit. */
  lemma IdleFits(c: Controller)
    requires Inv(c) && c.active == map[] && c.jobs != []
    ensures CanRun(c) <==> c.jobs[0].size <= c.Workers()
  {
    var n := c.jobs[0].size;
    forall i | c.controllers <= i < |c.available| ensures c.available[i] {
      assert !Busy(c, i);
    }
    if n <= c.Workers() {
      assert Free(c.available, c.controllers, n);
    } else if CanRun(c) {
      RunJobInv(c);
    }
  }

  /** After `control`'s dispatch loop the invariant holds and the scheduler is stuck with nothing
      active only if the head of the queue wants more workers than there are. */
  lemma {:induction false} RunJobsInv(c: Controller)
    requires Inv(c)
    ensures var d := RunJobs(c);
      Inv(d) && !CanRun(d) && Remaining(d) <= Remaining(c) && d.nextId == c.nextId && d.controllers == c.controllers &&
      |d.available| == |c.available| && |d.jobs| <= |c.jobs| && d.jobs == c.jobs[|c.jobs| - |d.jobs|..]
    ensures var d := RunJobs(c);
      d.active == map[] && d.jobs != [] ==> d.jobs[0].size > d.Workers()
    decreases |c.jobs|
  {
    if CanRun(c) {
      RunJobInv(c);
      RunJobProgress(c);
      RunJobsInv(RunJob(c));
    } else if c.active == map[] && c.jobs != [] {
      IdleFits(c);
    }
  }
}
