// The registry object (`JobManager`, apps/venue-svg-generator/service/jobs.py:73-169): a dictionary of job records that readers
// share. Each method makes one step of JobModel.dfy on the records it owns; `Finish` makes the three writes one by one.

module Jobs {
  import opened Base
  import JM = JobModel

  class JobRecord {
    const id: JM.Id
    var status: JM.Status
    var result: Option<string>
    var error: Option<string>
    var finishedAt: Option<int>

    constructor (id: JM.Id)
      ensures this.id == id && Seen() == JM.NEW
    {
      this.id := id;
      status, result, error, finishedAt := JM.Queued, None, None, None;
    }

    /** What a reader of the record sees now. */
    function Seen(): JM.Job
      reads this
    { JM.Job(status, result, error, finishedAt) }
  }

  class JobManager {
    const limits: JM.Limits
    /** `_jobs`. */
    var jobs: map<JM.Id, JobRecord>
    /** The queue of the pool, and its one worker. */
    var queue: seq<JM.Id>
    var worker: JM.Worker
    ghost var accepted: set<JM.Id>
    /** Every record ever made: readers may hold one that the registry has forgotten. */
    ghost var records: map<JM.Id, JobRecord>

    /** Records are filed under their own ids, so no two entries share one. */
    ghost predicate Valid()
      reads this, records.Values
    {
      && (forall id :: id in records ==> records[id].id == id)
      && forall id :: id in jobs ==> id in records && jobs[id] == records[id]
    }

    ghost function Abs(): JM.State
      reads this, records.Values
    {
      JM.State(map id | id in records :: records[id].Seen(), jobs.Keys, accepted, queue, worker)
    }

    constructor (limits: JM.Limits)
      ensures Valid() && this.limits == limits && Abs() == JM.START
    {
      this.limits := limits;
      jobs, queue, worker, accepted, records := map[], [], JM.Free, {}, map[];
    }

    /** `_purge_locked`. */
    method PurgeLocked(now: int)
      requires Valid()
      modifies this`jobs
      ensures Valid() && Abs() == JM.Purge(old(Abs()), limits, now)
    {
      var gone := set id | id in jobs && jobs[id].finishedAt.Some? && now - jobs[id].finishedAt.value > limits.ttl;
      ghost var was, all := Abs(), gone;
      assert gone == JM.Expired(was, limits, now);
      while gone != {}
        invariant Valid() && jobs.Keys == was.known - (all - gone) && gone <= all
        decreases gone
      {
        var id :| id in gone;
        jobs := jobs - {id};
        gone := gone - {id};
      }
      assert Abs() == was.(known := jobs.Keys);
    }

    /** `get`: the record itself, which the caller then reads without the lock. */
    method Get(id: JM.Id, now: int) returns (r: Option<JobRecord>)
      requires Valid()
      modifies this`jobs
      ensures Valid() && Abs() == JM.Purge(old(Abs()), limits, now)
      ensures r == if id in Abs().known then Some(records[id]) else None
    {
      PurgeLocked(now);
      r := if id in jobs then Some(jobs[id]) else None;
    }

    /** How many jobs are queued or running. */
    method CountPending() returns (n: nat)
      requires Valid()
      ensures n == |JM.Pending(Abs())|
    {
      n := 0;
      var left := jobs.Keys;
      ghost var s, counted := Abs(), {};
      while left != {}
        invariant left <= jobs.Keys && counted == (set id | id in jobs && id !in left && JM.IsPending(s.jobs[id])) && n == |counted|
        decreases left
      {
        var id :| id in left;
        left := left - {id};
        if jobs[id].status == JM.Queued || jobs[id].status == JM.Running {
          n := n + 1;
          counted := counted + {id};
        }
      }
      assert counted == JM.Pending(s);
    }

    /** The locked part of `submit`; false is `QueueFull`. */
    method Submit(id: JM.Id, now: int) returns (ok: bool)
      requires Valid() && JM.Enabled(Abs(), JM.Submit(id, now))
      modifies this`jobs, this`accepted, this`records
      ensures Valid() && Abs() == JM.Next(old(Abs()), limits, JM.Submit(id, now))
      ensures ok == !JM.Rejects(JM.Purge(old(Abs()), limits, now), limits)
    {
      hide JM.Pending, JM.Purge, Abs;
      JM.PurgeJobs(Abs(), limits, now);
      PurgeLocked(now);
      var pending := CountPending();
      if pending >= limits.maxPending { return false; }
      Register(id);
      ok := true;
    }

    /** A new record is filed. */
    method Register(id: JM.Id)
      requires Valid() && id !in Abs().jobs
      modifies this`jobs, this`accepted, this`records
      ensures Valid()
      ensures Abs() == var s := old(Abs()); s.(jobs := s.jobs[id := JM.NEW], known := s.known + {id}, accepted := s.accepted + {id})
    {
      var job := new JobRecord(id);
      File(id, job);
    }

    /** The registry and the readers' records both get it. */
    method File(id: JM.Id, job: JobRecord)
      requires Valid() && id !in records && job.id == id && job.Seen() == JM.NEW
      modifies this`jobs, this`accepted, this`records
      ensures Valid()
      ensures Abs() == var s := old(Abs()); s.(jobs := s.jobs[id := JM.NEW], known := s.known + {id}, accepted := s.accepted + {id})
    {
      ghost var s := Abs();
      records := records[id := job];
      jobs := jobs[id := job];
      accepted := accepted + {id};
      assert Abs().jobs == s.jobs[id := JM.NEW];
      assert jobs.Keys == s.known + {id};
    }

    /** The unlocked part: the pool is told. */
    method Hand(id: JM.Id)
      requires Valid() && JM.Enabled(Abs(), JM.Hand(id))
      modifies this`queue, this`accepted
      ensures Valid() && Abs() == JM.Next(old(Abs()), limits, JM.Hand(id))
    {
      accepted := accepted - {id};
      queue := queue + [id];
    }

    method Take()
      requires Valid() && JM.Enabled(Abs(), JM.Take)
      modifies this`queue, this`worker
      ensures Valid() && Abs() == JM.Next(old(Abs()), limits, JM.Take)
    {
      worker := JM.Taken(queue[0]);
      queue := queue[1..];
    }

    /** The first locked part of `_run`. */
    method Begin(job: JobRecord)
      requires Valid() && JM.Enabled(Abs(), JM.Begin) && records[worker.id] == job
      modifies this`worker, job`status
      ensures Valid() && Abs() == JM.Next(old(Abs()), limits, JM.Begin)
    {
      job.status := JM.Running;
      worker := JM.Working(worker.id);
    }

    /** `_finish`: result and error, status, time, in this order, with the lock held throughout. */
    method Finish(job: JobRecord, outcome: JM.Outcome, now: int)
      requires Valid() && worker.Working? && worker.id in records && records[worker.id] == job
      requires Abs().worker.Working? && Abs().worker.id in Abs().jobs
      modifies this`worker, job
      ensures Valid() && Abs() == JM.Finishing(old(Abs()), outcome, now)
    {
      hide JM.Next, JM.Written, Abs;
      JM.FinishingIs(Abs(), limits, outcome, now);
      Answered(outcome);
      WriteAnswer(job, now);
      WriteStatus(job, now);
      WriteTime(job, now);
    }

    /** The child has answered; the lock is taken. */
    method Answered(outcome: JM.Outcome)
      requires Valid() && worker.Working?
      modifies this`worker
      ensures Valid() && Abs() == JM.Next(old(Abs()), limits, JM.End(outcome)) && worker == JM.Writing(old(worker.id), outcome, 0)
    {
      worker := JM.Writing(worker.id, outcome, 0);
    }

    method WriteAnswer(job: JobRecord, now: int)
      requires Valid() && worker.Writing? && worker.step == 0 && worker.id in records && records[worker.id] == job
      modifies this`worker, job`result, job`error
      ensures worker == JM.Writing(old(worker.id), old(worker.outcome), 1)
      ensures Valid() && Abs() == JM.Next(old(Abs()), limits, JM.Write(now))
    {
      job.result := if worker.outcome.Answer? then Some(worker.outcome.result) else None;
      job.error := if worker.outcome.Answer? then None else Some(worker.outcome.error);
      worker := JM.Writing(worker.id, worker.outcome, 1);
    }

    method WriteStatus(job: JobRecord, now: int)
      requires Valid() && worker.Writing? && worker.step == 1 && worker.id in records && records[worker.id] == job
      modifies this`worker, job`status
      ensures worker == JM.Writing(old(worker.id), old(worker.outcome), 2)
      ensures Valid() && Abs() == JM.Next(old(Abs()), limits, JM.Write(now))
    {
      job.status := if worker.outcome.Answer? then JM.Done else JM.Failed;
      worker := JM.Writing(worker.id, worker.outcome, 2);
    }

    method WriteTime(job: JobRecord, now: int)
      requires Valid() && worker.Writing? && worker.step == 2 && worker.id in records && records[worker.id] == job
      modifies this`worker, job`finishedAt
      ensures Valid() && Abs() == JM.Next(old(Abs()), limits, JM.Write(now))
    {
      job.finishedAt := Some(now);
      worker := JM.Free;
    }
  }
}
