/** Safety of the notification pipe over whole runs. */
module DispatchLaws {
  import opened Text
  import opened Delivery
  import opened Dispatching
  import opened DispatchRuns

  // ---------------------------------------------------- nothing is stranded

  /** Some delivery has retained its batch and is about to deactivate, or some activation is about to redeliver. */
  ghost predicate Rescue(w: World) {
    exists j :: 0 <= j < |w.jobs| && (Has(w, j, AtDeactivate) || w.jobs[j].Activating?)
  }

  ghost predicate Unstranded(w: World) {
    w.slot.pending != [] ==> !w.active || !w.alive || Rescue(w)
  }

  /** A job that no step advances stays where it is. */
  lemma OthersStay(c: Config, w: World, st: Step, j: nat)
    requires Enabled(w, st) && j < |w.jobs| && Actor(st) != Some(j)
    ensures j < |Apply(c, w, st).jobs| && Apply(c, w, st).jobs[j] == w.jobs[j]
  {
    hide JobAfter, Births, SlotAfter;
  }

  lemma StepUnstranded(c: Config, w: World, st: Step)
    requires Enabled(w, st) && Unstranded(w)
    ensures Unstranded(Apply(c, w, st))
  {
    hide Wait, Release;
    var w' := Apply(c, w, st);
    if w'.slot.pending != [] && w'.active && w'.alive {
      if st.Retain? {
        assert Has(w', st.j, AtDeactivate);
      } else if st.SetActive? {
        assert w'.jobs[|w.jobs|].Activating?;
      } else {
        var j :| 0 <= j < |w.jobs| && (Has(w, j, AtDeactivate) || w.jobs[j].Activating?);
        OthersStay(c, w, st, j);
      }
    }
  }

  /** Retained notifications always have a way out: the subscription is down or gone, or a delivery is
      about to take it down, or an activation is about to send them. */
  lemma {:induction false} NeverStranded(c: Config, w: World, tr: seq<Step>)
    requires LegalRun(c, w, tr) && Unstranded(w)
    ensures Unstranded(Run(c, w, tr))
    decreases |tr|
  {
    hide Apply, Enabled, Unstranded;
    if tr != [] {
      StepUnstranded(c, w, tr[0]);
      NeverStranded(c, Apply(c, w, tr[0]), tr[1..]);
    }
  }

  /** When nothing is in progress, an active subscription has nothing retained. */
  lemma QuiescentActiveHasNonePending(c: Config, active: bool, tr: seq<Step>)
    requires LegalRun(c, NewWorld(active), tr)
    requires var w := Run(c, NewWorld(active), tr);
             w.alive && w.active && forall j :: 0 <= j < |w.jobs| ==> w.jobs[j].Over?
    ensures Run(c, NewWorld(active), tr).slot.pending == []
  {
    hide Apply, Enabled;
    NeverStranded(c, NewWorld(active), tr);
  }

  // ------------------------------------------------- pauses, timers, sizes

  /** Whenever the lock is free: parked only behind a pause, and waiting exactly while a timer is armed. */
  ghost predicate Kept(s: Slot) {
    && (s.queued != [] ==> s.paused)
    && (s.items != [] <==> s.armed)
  }

  lemma StepKept(c: Config, w: World, st: Step)
    requires Enabled(w, st) && Kept(w.slot)
    ensures Kept(Apply(c, w, st).slot)
  {
  }

  lemma {:induction false} AlwaysKept(c: Config, w: World, tr: seq<Step>)
    requires LegalRun(c, w, tr) && Kept(w.slot)
    ensures Kept(Run(c, w, tr).slot)
    decreases |tr|
  {
    hide Apply, Enabled, Kept;
    if tr != [] {
      StepKept(c, w, tr[0]);
      AlwaysKept(c, Apply(c, w, tr[0]), tr[1..]);
    }
  }

  /** The batch size read in a step is at most this. */
  predicate ReadsSize(st: Step, size: int) {
    match st
    case FeedPush(_, n) => n <= size
    case Resume(n) => n <= size
    case _ => true
  }

  predicate BoundedJob(job: Job, size: int) {
    match job
    case Flushing(batch) => 1 <= |batch| < size
    case Delivering(batch, stage, rest, n) =>
      (stage != AtDeactivate ==> 1 <= |batch| <= size) && (rest != [] ==> n <= size)
    case _ => true
  }

  ghost predicate Bounded(w: World, size: int) {
    && |w.slot.items| < size
    && forall j :: 0 <= j < |w.jobs| ==> BoundedJob(w.jobs[j], size)
  }

  lemma StepBounded(c: Config, w: World, st: Step, size: int)
    requires Enabled(w, st) && ReadsSize(st, size) && size >= 1 && Bounded(w, size)
    ensures Bounded(Apply(c, w, st), size)
  {
    hide AckedBy, DroppedBy, GivenBy, Wait;
    if Actor(st).Some? {
      assert BoundedJob(w.jobs[Actor(st).value], size);
      assert BoundedJob(JobAfter(c, w, st), size);
    }
    assert forall j :: 0 <= j < |Births(w, st)| ==> BoundedJob(Births(w, st)[j], size);
  }

  /** Whatever sizes are in force over a run, the largest of them bounds every queue and every batch handed to a
      delivery; with one fixed size, that one. */
  lemma {:induction false} AlwaysBounded(c: Config, w: World, tr: seq<Step>, size: int)
    requires LegalRun(c, w, tr) && size >= 1 && Bounded(w, size)
    requires forall i :: 0 <= i < |tr| ==> ReadsSize(tr[i], size)
    ensures Bounded(Run(c, w, tr), size)
    decreases |tr|
  {
    hide Apply, Enabled, Bounded, ReadsSize;
    if tr != [] {
      StepBounded(c, w, tr[0], size);
      AlwaysBounded(c, Apply(c, w, tr[0]), tr[1..], size);
    }
  }

  /** The size in force at that moment is another matter: a batch leaves Enqueue larger than that if and only if it was
      lowered to what was already waiting, or below. */
  lemma OversizedIff(s: Slot, n: Note, size: int)
    requires size >= 1
    ensures var full := Pushed(s, n, size).1;
            full.Some? && |full.value| > size <==> size <= |s.items|
  {
  }

  // ---------------------------------------------------------- retry bounds

  predicate OnSchedule(c: Config, job: Job) {
    job.Delivering? ==>
      && (job.stage.AtSend? ==> job.stage.attempt <= Retries(c))
      && (job.stage.AtCheck? ==> 1 <= job.stage.retry <= Retries(c))
  }

  /** Attempts left to a delivery before it must retain its batch. */
  function AttemptsLeft(c: Config, job: Job): int {
    if !job.Delivering? then 0
    else match job.stage
      case AtPark => 1 + Retries(c)
      case AtSend(k) => 1 + Retries(c) - k
      case AtCheck(k) => 1 + Retries(c) - k
      case _ => 0
  }

  /** Every attempt uses up one of 1 + Retries, whatever runs in between, and running out of them
      without an acknowledgement is the only way to the retaining stage. */
  lemma StepOnSchedule(c: Config, w: World, st: Step, j: nat)
    requires Enabled(w, st) && j < |w.jobs| && OnSchedule(c, w.jobs[j])
    ensures j < |Apply(c, w, st).jobs| && OnSchedule(c, Apply(c, w, st).jobs[j])
    ensures st == Send(j, false) ==>
      && AttemptsLeft(c, Apply(c, w, st).jobs[j]) == AttemptsLeft(c, w.jobs[j]) - 1
      && (Has(Apply(c, w, st), j, AtRetain) <==> AttemptsLeft(c, w.jobs[j]) == 1)
    ensures !Has(w, j, AtRetain) && Has(Apply(c, w, st), j, AtRetain) ==> st == Send(j, false)
  {
    hide Pushed, Births, SlotAfter, AckedBy, DroppedBy, GivenBy;
    if Actor(st) != Some(j) {
      OthersStay(c, w, st, j);
    } else if st.Send? {
      WaitExistsIff(c, w.jobs[j].stage.attempt + 1);
    }
  }

  /** A pause holds nothing back that is already being retried. */
  lemma PauseDoesNotStopRetries(c: Config, w: World, j: nat)
    requires j < |w.jobs| && w.jobs[j].Delivering? && w.jobs[j].stage.AtSend?
    ensures var p := Apply(c, w, Pause);
            p.slot.paused && Enabled(p, Send(j, true))
            && Apply(c, p, Send(j, true)).acked == w.acked + w.jobs[j].batch
  {
  }

  // ------------------------------------------------------- resume in order

  /** The batches job j starts to send in a run, in order. */
  ghost function Started(c: Config, w: World, tr: seq<Step>, j: nat): seq<seq<Note>>
    requires LegalRun(c, w, tr)
    decreases |tr|
  {
    if tr == [] then []
    else
      (if tr[0] == DeliverPark(j) && !w.slot.paused then [w.jobs[j].batch] else [])
      + Started(c, Apply(c, w, tr[0]), tr[1..], j)
  }

  /** The batches a job has yet to start. */
  function ToStart(job: Job): seq<seq<Note>> {
    if !job.Delivering? then []
    else (if job.stage == AtPark then [job.batch] else [])
         + if job.rest == [] || job.size < 1 then [] else Chunks(job.rest, job.size)
  }

  predicate InRelease(job: Job) {
    (job.Delivering? && SizedJob(job)) || job.Over?
  }

  lemma ReleaseToStart(held: seq<Note>, size: int)
    requires held == [] || size >= 1
    ensures ToStart(Release(held, size)) == if held == [] || size < 1 then [] else Chunks(held, size)
  {
  }

  lemma OnlyPausePauses(w: World, st: Step)
    requires Enabled(w, st) && !w.slot.paused && !st.Pause?
    ensures !SlotAfter(w, st).paused
  {
  }

  /** While there is no pause, a delivery either goes on with its batch or moves to its next chunk. */
  lemma ActorGoesOn(c: Config, w: World, st: Step)
    requires Enabled(w, st) && Actor(st).Some? && InRelease(w.jobs[Actor(st).value]) && !w.slot.paused
    ensures var job, job' := w.jobs[Actor(st).value], JobAfter(c, w, st);
            && job.Delivering? && (st.DeliverPark? <==> job.stage == AtPark)
            && ((job.stage != AtPark && job' == NextChunk(job))
                || (job'.Delivering? && SizedJob(job') && job'.stage != AtPark
                    && job'.rest == job.rest && job'.size == job.size))
  {
    hide Wait, Release;
  }

  lemma ActorStart(c: Config, w: World, st: Step)
    requires Enabled(w, st) && Actor(st).Some? && InRelease(w.jobs[Actor(st).value]) && !w.slot.paused
    ensures var job, job' := w.jobs[Actor(st).value], JobAfter(c, w, st);
            && InRelease(job')
            && ToStart(job) == (if st.DeliverPark? then [job.batch] else []) + ToStart(job')
  {
    hide Wait, Release, Chunks, JobAfter;
    var job := w.jobs[Actor(st).value];
    ActorGoesOn(c, w, st);
    ReleaseToStart(job.rest, job.size);
    ReleaseSized(job.rest, job.size);
  }

  lemma StepStart(c: Config, w: World, st: Step, j: nat)
    requires Enabled(w, st) && j < |w.jobs| && InRelease(w.jobs[j]) && !w.slot.paused && !st.Pause?
    ensures var w' := Apply(c, w, st);
            && j < |w'.jobs| && InRelease(w'.jobs[j]) && !w'.slot.paused
            && ToStart(w.jobs[j]) == (if st == DeliverPark(j) then [w.jobs[j].batch] else []) + ToStart(w'.jobs[j])
  {
    hide SlotAfter, JobAfter, Births, AckedBy, DroppedBy, GivenBy, ToStart, InRelease;
    OnlyPausePauses(w, st);
    if Actor(st) == Some(j) {
      ActorStart(c, w, st);
    } else {
      OthersStay(c, w, st, j);
    }
  }

  lemma ReleaseSized(held: seq<Note>, size: int)
    requires held == [] || size >= 1
    ensures InRelease(Release(held, size))
  {
  }

  lemma {:induction false} StartedInOrder(c: Config, w: World, tr: seq<Step>, j: nat)
    requires LegalRun(c, w, tr) && j < |w.jobs| && InRelease(w.jobs[j]) && !w.slot.paused
    requires forall i :: 0 <= i < |tr| ==> !tr[i].Pause?
    ensures j < |Run(c, w, tr).jobs|
    ensures Started(c, w, tr, j) + ToStart(Run(c, w, tr).jobs[j]) == ToStart(w.jobs[j])
    decreases |tr|
  {
    hide Apply, Enabled, ToStart, InRelease;
    if tr != [] {
      StepStart(c, w, tr[0], j);
      StartedInOrder(c, Apply(c, w, tr[0]), tr[1..], j);
    }
  }

  /** A Resume that is not paused again: once its goroutine is done, what it started to send is exactly
      the parked sequence, in order, in chunks of the batch size, whatever else ran meanwhile. */
  lemma ResumeReplaysParked(c: Config, w: World, size: int, tr: seq<Step>)
    requires Enabled(w, Resume(size)) && w.slot.queued != []
    requires LegalRun(c, Apply(c, w, Resume(size)), tr) && forall i :: 0 <= i < |tr| ==> !tr[i].Pause?
    ensures var r := Apply(c, w, Resume(size));
            var e := Run(c, r, tr);
            && |w.jobs| < |e.jobs|
            && (e.jobs[|w.jobs|].Over? ==>
                  && Started(c, r, tr, |w.jobs|) == Chunks(w.slot.queued, size)
                  && Concat(Started(c, r, tr, |w.jobs|)) == w.slot.queued)
  {
    hide Chunks, Run, LegalRun, Started;
    var r := Apply(c, w, Resume(size));
    var held := w.slot.queued;
    assert r.jobs[|w.jobs|] == Release(held, size) && !r.slot.paused;
    ReleaseSized(held, size);
    ReleaseToStart(held, size);
    StartedInOrder(c, r, tr, |w.jobs|);
    ChunksReplay(held, size);
  }
}
