// How long a job is found, in which order jobs run, and what a finished one holds (apps/venue-svg-generator/service/jobs.py:97-169).

module JobTime {
  import opened Base
  import opened JobModel

  /** The clock reading of the steps that purge first. */
  function PurgeTime(a: Act): Option<int> {
    match a
    case Submit(_, now) => Some(now)
    case Read(_, now) => Some(now)
    case _ => None
  }

  /** At this time the job has been finished for longer than the registry keeps it. */
  predicate Outlived(j: Job, t: int, l: Limits) { j.finishedAt.Some? && j.finishedAt.value + l.ttl < t }

  /** One step forgets a job exactly when it purges and the job has outlived its time; a finished job keeps that time. */
  lemma {:induction false} StepForgets(s: State, l: Limits, a: Act, id: Id)
    requires Inv(s, l) && Enabled(s, a) && id in s.jobs
    ensures var s' := Next(s, l, a);
            && id in s'.jobs && (s.jobs[id].finishedAt.Some? ==> s'.jobs[id].finishedAt == s.jobs[id].finishedAt)
            && (id in s'.known <==> id in s.known && !(PurgeTime(a).Some? && Outlived(s.jobs[id], PurgeTime(a).value, l)))
  {
    hide Pending, Rejects;
    if a.Begin? || a.Write? { WorkerHeld(s, l); }
  }

  /** A reader finds the very jobs that are registered and have not outlived their time at that moment. */
  lemma {:induction false} ReadFinds(l: Limits, acts: seq<Act>, s: State, id: Id, now: int)
    requires After(START, l, acts) == Some(s) && Enabled(s, Read(id, now)) && id in s.known
    ensures id in s.jobs
    ensures id in Next(s, l, Read(id, now)).known <==> s.jobs[id].finishedAt == None || now <= s.jobs[id].finishedAt.value + l.ttl
  {
    hide After, Next, Enabled;
    ReachedOk(l, acts);
    StepForgets(s, l, Read(id, now), id);
  }

  /** A finished job is found for its whole time, whatever happens meanwhile, with the same answer. */
  lemma {:induction false} FoundForItsTime(s: State, l: Limits, acts: seq<Act>, id: Id)
    requires Inv(s, l) && After(s, l, acts).Some? && id in s.jobs && id in s.known && s.jobs[id].finishedAt.Some?
    requires forall k :: 0 <= k < |acts| && PurgeTime(acts[k]).Some? ==> PurgeTime(acts[k]).value <= s.jobs[id].finishedAt.value + l.ttl
    ensures var t := After(s, l, acts).value;
            id in t.known && id in t.jobs && t.jobs[id].finishedAt == s.jobs[id].finishedAt && SameAnswer(s.jobs[id], t.jobs[id])
    decreases |acts|
  {
    hide Next, Enabled, Inv;
    TimedIsFinal(s, l, id);
    LaterAdvances(s, l, acts, id);
    if acts != [] {
      var front := acts[..|acts|-1];
      FoundForItsTime(s, l, front, id);
      RunsOk(s, l, front);
      StepForgets(After(s, l, front).value, l, acts[|acts|-1], id);
    }
  }

  lemma {:induction false} TimedIsFinal(s: State, l: Limits, id: Id)
    requires Inv(s, l) && id in s.jobs && s.jobs[id].finishedAt.Some?
    ensures Final(s.jobs[id].status)
  {
    FinishedTime(s, id);
  }

  /** Once forgotten, a job is never found again. */
  lemma {:induction false} ForgottenForGood(s: State, l: Limits, acts: seq<Act>, id: Id)
    requires Inv(s, l) && After(s, l, acts).Some? && id in s.jobs && id !in s.known
    ensures id in After(s, l, acts).value.jobs && id !in After(s, l, acts).value.known
    decreases |acts|
  {
    hide Next, Enabled, Inv;
    if acts != [] {
      var front := acts[..|acts|-1];
      ForgottenForGood(s, l, front, id);
      RunsOk(s, l, front);
      StepForgets(After(s, l, front).value, l, acts[|acts|-1], id);
    }
  }

  // ---- the order of the jobs ----

  function Handed(acts: seq<Act>): seq<Id> {
    if acts == [] then []
    else Handed(acts[..|acts|-1]) + (match acts[|acts|-1] case Hand(id) => [id] case _ => [])
  }

  function TakenIn(s: State, l: Limits, acts: seq<Act>): seq<Id>
    requires After(s, l, acts).Some?
  {
    if acts == [] then []
    else
      var front := acts[..|acts|-1];
      TakenIn(s, l, front) + (if acts[|acts|-1].Take? then [After(s, l, front).value.queue[0]] else [])
  }

  /** The worker takes the jobs in the order in which they were handed over, none skipped. */
  lemma {:induction false} FirstInFirstOut(s: State, l: Limits, acts: seq<Act>)
    requires After(s, l, acts).Some?
    ensures s.queue + Handed(acts) == TakenIn(s, l, acts) + After(s, l, acts).value.queue
    decreases |acts|
  {
    hide Purge, Rejects, Written;
    if acts == [] {
      assert s.queue + [] == [] + s.queue;
    } else {
      var front, a := acts[..|acts|-1], acts[|acts|-1];
      FirstInFirstOut(s, l, front);
      var q := After(s, l, front).value;
      QueueStep(q, l, a);
      var took := TakenIn(s, l, front);
      match a
      case Hand(id) =>
        SeqAssoc(s.queue, Handed(front), [id]);
        SeqAssoc(took, q.queue, [id]);
        assert took + [] == took;
      case Take => assert took + [q.queue[0]] + q.queue[1..] == took + q.queue;
      case _ => assert took + [] == took;
    }
  }

  lemma {:induction false} QueueStep(s: State, l: Limits, a: Act)
    requires Enabled(s, a)
    ensures Next(s, l, a).queue == match a case Hand(id) => s.queue + [id] case Take => s.queue[1..] case _ => s.queue
  {
    hide Rejects, Written, Expired;
  }

  // ---- the answer ----

  /** After `_finish` the job holds exactly what the run gave: its result as done, or its error as failed. */
  lemma {:induction false} AnswerIsStored(s: State, l: Limits, o: Outcome, now: int)
    requires Inv(s, l) && s.worker.Working? && s.worker.id in s.jobs
    ensures var t := After(s, l, [End(o), Write(now), Write(now), Write(now)]);
            && t.Some?
            && s.worker.id in t.value.jobs
            && t.value.jobs[s.worker.id] == (match o case Answer(r) => Job(Done, Some(r), None, Some(now))
                                                     case Problem(e) => Job(Failed, None, Some(e), Some(now)))
  {
    hide Inv, Next, Enabled;
    FinishingIs(s, l, o, now);
    var acts := [End(o), Write(now), Write(now), Write(now)];
    assert acts[..0] == [] && acts[..1][..0] == [] && acts[..2][..1] == acts[..1] && acts[..3][..2] == acts[..2];
    EndEnabled(s, o);
    assert After(s, l, acts[..1]) == Some(Next(s, l, End(o)));
    assert After(s, l, acts[..2]) == Some(Next(Next(s, l, End(o)), l, Write(now)));
    assert After(s, l, acts[..3]) == Some(Next(Next(Next(s, l, End(o)), l, Write(now)), l, Write(now)));
    assert After(s, l, acts) == Some(Finishing(s, o, now));
    FinishedJob(s, l, o, now);
  }

  lemma {:induction false} EndEnabled(s: State, o: Outcome)
    requires s.worker.Working?
    ensures Enabled(s, End(o))
  {}

  lemma {:induction false} FinishedJob(s: State, l: Limits, o: Outcome, now: int)
    requires Inv(s, l) && s.worker.Working? && s.worker.id in s.jobs
    ensures Finishing(s, o, now).jobs[s.worker.id]
         == match o case Answer(r) => Job(Done, Some(r), None, Some(now)) case Problem(e) => Job(Failed, None, Some(e), Some(now))
  {
    WorkerHeld(s, l);
  }
}
