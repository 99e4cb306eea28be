// The job registry as a state machine (apps/venue-svg-generator/service/jobs.py:97-169): submitters, readers and one worker
// interleave. A step is what one thread does while it holds the lock, except that `_finish` is taken write by write, because
// readers look at a job's fields after they have let go of the lock.

module JobModel {
  import opened Base

  type Id = string

  datatype Status = Queued | Running | Done | Failed

  datatype Job = Job(status: Status, result: Option<string>, error: Option<string>, finishedAt: Option<int>)

  const NEW := Job(Queued, None, None, None)

  datatype Outcome = Answer(result: string) | Problem(error: string)

  /** The worker is free, has taken a job from its queue, runs it, or is inside `_finish` after `step` writes. */
  datatype Worker = Free | Taken(id: Id) | Working(id: Id) | Writing(id: Id, outcome: Outcome, step: nat)

  /** All jobs ever made, those still registered, those accepted but not handed over, the worker's queue, and the worker. */
  datatype State = State(jobs: map<Id, Job>, known: set<Id>, accepted: set<Id>, queue: seq<Id>, worker: Worker)

  const START := State(map[], {}, {}, [], Free)

  datatype Limits = Limits(maxPending: nat, ttl: int)

  datatype Act =
    | Submit(id: Id, now: int)
    | Hand(id: Id)
    | Read(id: Id, now: int)
    | Take
    | Begin
    | End(outcome: Outcome)
    | Write(now: int)

  predicate IsPending(j: Job) { j.status == Queued || j.status == Running }

  function Pending(s: State): set<Id> {
    set id | id in s.known && id in s.jobs && IsPending(s.jobs[id])
  }

  /** The finished jobs that outlived their time are forgotten. */
  function Expired(s: State, l: Limits, now: int): set<Id> {
    set id | id in s.known && id in s.jobs && s.jobs[id].finishedAt.Some? && now - s.jobs[id].finishedAt.value > l.ttl
  }

  function Purge(s: State, l: Limits, now: int): State {
    s.(known := s.known - Expired(s, l, now))
  }

  predicate LockFree(s: State) { !s.worker.Writing? }

  /** A step can happen: the lock is free for those who need it, and a new id is new. */
  predicate Enabled(s: State, a: Act) {
    match a
    case Submit(id, _) => LockFree(s) && id !in s.jobs
    case Hand(id) => id in s.accepted
    case Read(_, _) => LockFree(s)
    case Take => s.worker.Free? && s.queue != []
    case Begin => s.worker.Taken? && s.worker.id in s.jobs
    case End(_) => s.worker.Working?
    case Write(_) => s.worker.Writing? && s.worker.id in s.jobs && s.worker.step < 3
  }

  function Rejects(s: State, l: Limits): bool { |Pending(s)| >= l.maxPending }

  /** One write of `_finish`: the result and error, then the status, then the time, which lets go of the lock. */
  function Written(j: Job, o: Outcome, step: nat, now: int): Job {
    if step == 0 then
      (match o case Answer(r) => j.(result := Some(r), error := None) case Problem(e) => j.(result := None, error := Some(e)))
    else if step == 1 then j.(status := if o.Answer? then Done else Failed)
    else j.(finishedAt := Some(now))
  }

  function Next(s: State, l: Limits, a: Act): State
    requires Enabled(s, a)
  {
    match a
    case Submit(id, now) =>
      var p := Purge(s, l, now);
      if Rejects(p, l) then p else p.(jobs := p.jobs[id := NEW], known := p.known + {id}, accepted := p.accepted + {id})
    case Hand(id) => s.(accepted := s.accepted - {id}, queue := s.queue + [id])
    case Read(_, now) => Purge(s, l, now)
    case Take => s.(queue := s.queue[1..], worker := Taken(s.queue[0]))
    case Begin => s.(jobs := s.jobs[s.worker.id := s.jobs[s.worker.id].(status := Running)], worker := Working(s.worker.id))
    case End(o) => s.(worker := Writing(s.worker.id, o, 0))
    case Write(now) =>
      var w := s.worker;
      s.(jobs := s.jobs[w.id := Written(s.jobs[w.id], w.outcome, w.step, now)],
         worker := if w.step < 2 then Writing(w.id, w.outcome, w.step + 1) else Free)
  }

  /** The whole of `_finish`. */
  function Finishing(s: State, o: Outcome, now: int): State
    requires s.worker.Working? && s.worker.id in s.jobs
  {
    var id := s.worker.id;
    s.(jobs := s.jobs[id := Written(Written(Written(s.jobs[id], o, 0, now), o, 1, now), o, 2, now)], worker := Free)
  }

  /** It is four steps, and readers may look between any two. */
  lemma {:induction false} FinishingIs(s: State, l: Limits, o: Outcome, now: int)
    requires s.worker.Working? && s.worker.id in s.jobs
    ensures var a := Next(s, l, End(o));
            && Enabled(a, Write(now))
            && var b := Next(a, l, Write(now));
               && Enabled(b, Write(now))
               && var c := Next(b, l, Write(now));
                  Enabled(c, Write(now)) && Next(c, l, Write(now)) == Finishing(s, o, now)
  {
    hide Written;
    var id := s.worker.id;
    var j := s.jobs[id];
    var j1 := Written(j, o, 0, now);
    var j2 := Written(j1, o, 1, now);
    assert s.jobs[id := j1][id := j2] == s.jobs[id := j2];
    assert s.jobs[id := j2][id := Written(j2, o, 2, now)] == s.jobs[id := Written(j2, o, 2, now)];
  }

  // ---- the invariant ----

  /** The job the worker holds, by the stage it is in. */
  predicate Held(w: Worker, j: Job) {
    match w
    case Free => false
    case Taken(_) => j == NEW
    case Working(_) => j == NEW.(status := Running)
    case Writing(_, o, step) =>
      step < 3 && j == if step == 0 then NEW.(status := Running) else if step == 1 then Written(NEW.(status := Running), o, 0, 0)
                       else Written(Written(NEW.(status := Running), o, 0, 0), o, 1, 0)
  }

  /** A finished job shows exactly one of result and error, the one its status names. */
  predicate Finished(j: Job) {
    && (j.status == Done || j.status == Failed) && (j.status == Done <==> j.result.Some?) && (j.status == Failed <==> j.error.Some?)
    && j.finishedAt.Some?
  }

  predicate HasWorker(s: State, id: Id) { !s.worker.Free? && s.worker.id == id }

  /** Each job is in exactly one place: accepted, in the queue, with the worker, or finished. */
  ghost predicate Placed(s: State) {
    && Distinct(s.queue)
    && (forall id :: id in s.accepted ==> id in s.jobs && s.jobs[id] == NEW && id !in s.queue && !HasWorker(s, id))
    && (forall id :: id in s.queue ==> id in s.jobs && s.jobs[id] == NEW && !HasWorker(s, id))
    && (!s.worker.Free? ==> s.worker.id in s.jobs && Held(s.worker, s.jobs[s.worker.id]))
    && forall id :: id in s.jobs && id !in s.accepted && id !in s.queue && !HasWorker(s, id) ==> Finished(s.jobs[id])
  }

  ghost predicate Inv(s: State, l: Limits) {
    && Placed(s) && s.known <= s.jobs.Keys && |Pending(s)| <= l.maxPending
    && forall id :: id in s.jobs && (IsPending(s.jobs[id]) || s.jobs[id].finishedAt == None) ==> id in s.known
  }

  lemma {:induction false} StartOk(l: Limits)
    ensures Inv(START, l)
  {
    assert Pending(START) == {};
  }

  // ---- the steps keep it ----

  lemma {:induction false} FinishedTime(s: State, id: Id)
    requires Placed(s) && id in s.jobs && s.jobs[id].finishedAt.Some?
    ensures Finished(s.jobs[id])
  {}

  /** Forgetting touches no pending job. */
  lemma {:induction false} PurgeOk(s: State, l: Limits, now: int)
    requires Inv(s, l)
    ensures Inv(Purge(s, l, now), l) && Pending(Purge(s, l, now)) == Pending(s)
  {
    hide Placed;
    var p := Purge(s, l, now);
    forall id | id in Expired(s, l, now) ensures !IsPending(s.jobs[id]) {
      FinishedTime(s, id);
    }
    assert Pending(p) == Pending(s);
    PlacedKnown(s, p);
  }

  lemma {:induction false} PlacedKnown(s: State, p: State)
    requires Placed(s) && p == s.(known := p.known)
    ensures Placed(p)
  {}

  lemma {:induction false} SubmitOk(s: State, l: Limits, id: Id)
    requires Inv(s, l) && id !in s.jobs && !Rejects(s, l)
    ensures Inv(s.(jobs := s.jobs[id := NEW], known := s.known + {id}, accepted := s.accepted + {id}), l)
  {
    hide Placed;
    var n := s.(jobs := s.jobs[id := NEW], known := s.known + {id}, accepted := s.accepted + {id});
    assert Pending(n) == Pending(s) + {id};
    SubmitPlaced(s, id, n);
  }

  lemma {:induction false} SubmitPlaced(s: State, id: Id, n: State)
    requires Placed(s) && id !in s.jobs && n == s.(jobs := s.jobs[id := NEW], known := n.known, accepted := s.accepted + {id})
    ensures Placed(n)
  {
    hide Held, Finished, Distinct;
    assert forall x :: x in s.jobs ==> x != id && n.jobs[x] == s.jobs[x];
    forall x | x in n.jobs && x !in n.accepted && x !in n.queue && !HasWorker(n, x) ensures Finished(n.jobs[x]) {
      assert x in s.jobs && !HasWorker(s, x);
    }
  }

  lemma {:induction false} HandOk(s: State, l: Limits, id: Id)
    requires Inv(s, l) && id in s.accepted
    ensures Inv(s.(accepted := s.accepted - {id}, queue := s.queue + [id]), l)
  {
    hide Held, Finished;
    assert Pending(s.(accepted := s.accepted - {id}, queue := s.queue + [id])) == Pending(s);
  }

  lemma {:induction false} TakeOk(s: State, l: Limits)
    requires Inv(s, l) && s.worker.Free? && s.queue != []
    ensures Inv(s.(queue := s.queue[1..], worker := Taken(s.queue[0])), l)
  {
    hide Finished;
    var n := s.(queue := s.queue[1..], worker := Taken(s.queue[0]));
    assert Pending(n) == Pending(s);
    assert forall id :: id in s.queue <==> id == s.queue[0] || id in s.queue[1..];
  }

  /** The worker's own job changes, no other. */
  lemma {:induction false} WorkOk(s: State, l: Limits, n: State)
    requires Inv(s, l) && !s.worker.Free? && !n.worker.Free? && n.worker.id == s.worker.id
    requires n == s.(jobs := n.jobs, worker := n.worker) && s.worker.id in n.jobs
    requires n.jobs == s.jobs[s.worker.id := n.jobs[s.worker.id]] && Held(n.worker, n.jobs[n.worker.id])
    requires s.worker.id in s.jobs && (IsPending(n.jobs[s.worker.id]) ==> IsPending(s.jobs[s.worker.id]))
    ensures Inv(n, l)
  {
    hide Placed, Held;
    WorkerHeld(s, l);
    HeldPending(s.worker, s.jobs[s.worker.id]);
    HeldPending(n.worker, n.jobs[n.worker.id]);
    assert Pending(n) <= Pending(s);
    SubsetSize(Pending(n), Pending(s));
    WorkPlaced(s, n);
  }

  lemma {:induction false} WorkPlaced(s: State, n: State)
    requires Placed(s) && !s.worker.Free? && !n.worker.Free? && n.worker.id == s.worker.id && s.worker.id in n.jobs
    requires n == s.(jobs := n.jobs, worker := n.worker) && n.jobs == s.jobs[s.worker.id := n.jobs[s.worker.id]]
    requires Held(n.worker, n.jobs[n.worker.id])
    ensures Placed(n)
  {
    hide Held, Finished, Distinct;
  }

  /** Until its last write the worker's job has no time; it stays registered. */
  lemma {:induction false} HeldPending(w: Worker, j: Job)
    requires Held(w, j)
    ensures j.finishedAt == None && (IsPending(j) <==> !(w.Writing? && w.step == 2))
  {}

  lemma {:induction false} LastWriteOk(s: State, l: Limits, now: int)
    requires Inv(s, l) && s.worker.Writing? && s.worker.step == 2
    ensures var w := s.worker; Inv(s.(jobs := s.jobs[w.id := Written(s.jobs[w.id], w.outcome, 2, now)], worker := Free), l)
  {
    hide Distinct;
    var w := s.worker;
    var n := s.(jobs := s.jobs[w.id := Written(s.jobs[w.id], w.outcome, 2, now)], worker := Free);
    assert Pending(n) <= Pending(s);
    SubsetSize(Pending(n), Pending(s));
  }

  lemma {:induction false} WriteOk(s: State, l: Limits, now: int)
    requires Inv(s, l) && Enabled(s, Write(now))
    ensures Inv(Next(s, l, Write(now)), l)
  {
    hide Inv;
    if s.worker.step == 2 {
      LastWriteOk(s, l, now);
    } else {
      WorkerHeld(s, l);
      HeldPending(s.worker, s.jobs[s.worker.id]);
      WorkOk(s, l, Next(s, l, Write(now)));
    }
  }

  lemma {:induction false} WorkerHeld(s: State, l: Limits)
    requires Inv(s, l) && !s.worker.Free?
    ensures s.worker.id in s.jobs && Held(s.worker, s.jobs[s.worker.id])
  {}

  lemma {:induction false} StepOk(s: State, l: Limits, a: Act)
    requires Inv(s, l) && Enabled(s, a)
    ensures Inv(Next(s, l, a), l)
  {
    hide Inv, Purge, Rejects;
    match a
    case Submit(id, now) =>
      PurgeOk(s, l, now);
      var p := Purge(s, l, now);
      PurgeJobs(s, l, now);
      if !Rejects(p, l) { SubmitOk(p, l, id); }
    case Hand(id) => HandOk(s, l, id);
    case Read(_, now) => PurgeOk(s, l, now);
    case Take => TakeOk(s, l);
    case Begin =>
      WorkerHeld(s, l);
      WorkOk(s, l, Next(s, l, Begin));
    case End(o) =>
      WorkerHeld(s, l);
      SameJobs(s);
      WorkOk(s, l, Next(s, l, End(o)));
    case Write(now) => WriteOk(s, l, now);
  }

  lemma {:induction false} SameJobs(s: State)
    requires !s.worker.Free? && s.worker.id in s.jobs
    ensures s.jobs[s.worker.id := s.jobs[s.worker.id]] == s.jobs
  {}

  lemma {:induction false} PurgeJobs(s: State, l: Limits, now: int)
    ensures Purge(s, l, now).jobs == s.jobs && Purge(s, l, now).accepted == s.accepted
  {}

  // ---- whole runs ----

  /** The state after the steps, if each could happen when it did. */
  function After(s: State, l: Limits, acts: seq<Act>): Option<State> {
    if acts == [] then Some(s)
    else
      match After(s, l, acts[..|acts|-1])
      case None => None
      case Some(q) => if Enabled(q, acts[|acts|-1]) then Some(Next(q, l, acts[|acts|-1])) else None
  }

  /** In every state any interleaving can reach, the invariant holds. */
  lemma {:induction false} RunsOk(s: State, l: Limits, acts: seq<Act>)
    requires Inv(s, l) && After(s, l, acts).Some?
    ensures Inv(After(s, l, acts).value, l)
    decreases |acts|
  {
    hide Inv, Next, Enabled;
    if acts != [] {
      RunsOk(s, l, acts[..|acts|-1]);
      StepOk(After(s, l, acts[..|acts|-1]).value, l, acts[|acts|-1]);
    }
  }

  lemma {:induction false} ReachedOk(l: Limits, acts: seq<Act>)
    requires After(START, l, acts).Some?
    ensures Inv(After(START, l, acts).value, l)
  {
    hide Inv, After;
    StartOk(l);
    RunsOk(START, l, acts);
  }

  /** Queued plus running jobs are bounded, none of them is forgotten, and at most one runs. */
  lemma {:induction false} PendingBounded(acts: seq<Act>, l: Limits, s: State)
    requires After(START, l, acts) == Some(s)
    ensures |set id | id in s.jobs && IsPending(s.jobs[id])| <= l.maxPending
    ensures forall id | id in s.jobs && IsPending(s.jobs[id]) :: id in s.known
    ensures forall a, b | a in s.jobs && b in s.jobs && s.jobs[a].status == Running && s.jobs[b].status == Running :: a == b
  {
    hide After;
    ReachedOk(l, acts);
    assert (set id | id in s.jobs && IsPending(s.jobs[id])) == Pending(s);
    forall a, b | a in s.jobs && b in s.jobs && s.jobs[a].status == Running && s.jobs[b].status == Running ensures a == b {
      RunningIsHeld(s, a);
      RunningIsHeld(s, b);
    }
  }

  lemma {:induction false} RunningIsHeld(s: State, id: Id)
    requires Placed(s) && id in s.jobs && s.jobs[id].status == Running
    ensures HasWorker(s, id)
  {}

  /** Whoever looks, with or without the lock: a job shown as done shows its result, a failed one its error. */
  lemma {:induction false} DoneShowsResult(acts: seq<Act>, l: Limits, s: State, id: Id)
    requires After(START, l, acts) == Some(s) && id in s.jobs
    ensures s.jobs[id].status == Done ==> s.jobs[id].result.Some? && s.jobs[id].error == None
    ensures s.jobs[id].status == Failed ==> s.jobs[id].error.Some? && s.jobs[id].result == None
  {
    hide After;
    ReachedOk(l, acts);
  }

  function Rank(t: Status): nat {
    match t case Queued => 0 case Running => 1 case Done => 2 case Failed => 2
  }

  /** A status only advances, and once it is final neither it nor the answer changes. */
  predicate Advances(a: Job, b: Job) {
    && Rank(a.status) <= Rank(b.status) <= Rank(a.status) + 1
    && (Rank(a.status) == 2 ==> b.status == a.status && b.result == a.result && b.error == a.error)
  }

  lemma {:induction false} StepAdvances(s: State, l: Limits, a: Act, id: Id)
    requires Inv(s, l) && Enabled(s, a) && id in s.jobs
    ensures id in Next(s, l, a).jobs && Advances(s.jobs[id], Next(s, l, a).jobs[id])
  {
    hide Pending, Rejects, Expired;
    if a.Begin? || a.Write? { WorkerHeld(s, l); }
  }

  predicate Final(t: Status) { t == Done || t == Failed }

  /** A finished job as any later state shows it. */
  predicate SameAnswer(a: Job, b: Job) {
    b.status == a.status && b.result == a.result && b.error == a.error
  }

  /**
   * So what a reader has seen stays true, however many steps lie between two looks: statuses only advance, and a done or
   * failed job keeps its status and its answer.
   */
  lemma {:induction false} LaterAdvances(s: State, l: Limits, acts: seq<Act>, id: Id)
    requires Inv(s, l) && After(s, l, acts).Some? && id in s.jobs
    ensures var t := After(s, l, acts).value;
            && id in t.jobs && Rank(s.jobs[id].status) <= Rank(t.jobs[id].status)
            && (Final(s.jobs[id].status) ==> SameAnswer(s.jobs[id], t.jobs[id]))
            && (s.jobs[id].status == Done ==> t.jobs[id].result.Some?)
            && (s.jobs[id].status == Failed ==> t.jobs[id].error.Some?)
    decreases |acts|
  {
    hide Next, Enabled, Inv;
    if acts == [] {
      FinalAnswer(s, l, id);
    } else {
      LaterAdvances(s, l, acts[..|acts|-1], id);
      RunsOk(s, l, acts[..|acts|-1]);
      StepAdvances(After(s, l, acts[..|acts|-1]).value, l, acts[|acts|-1], id);
    }
  }

  lemma {:induction false} FinalAnswer(s: State, l: Limits, id: Id)
    requires Inv(s, l) && id in s.jobs
    ensures s.jobs[id].status == Done ==> s.jobs[id].result.Some?
    ensures s.jobs[id].status == Failed ==> s.jobs[id].error.Some?
  {}
}
