/** What a pause holds back, and what it does not: the promise in deliverSync that nothing further leaves. */
module DispatchPause {
  import opened Text
  import opened Delivery
  import opened Dispatching
  import opened DispatchRuns
  import opened DispatchLaws

  /** Past the check for a pause and not done sending. */
  predicate MidRetry(job: Job) {
    job.Delivering? && (job.stage.AtSend? || job.stage.AtCheck?)
  }

  ghost predicate NoResume(tr: seq<Step>) {
    forall i :: 0 <= i < |tr| ==> !tr[i].Resume?
  }

  lemma PauseStays(c: Config, w: World, st: Step)
    requires Enabled(w, st) && w.slot.paused && !st.Resume?
    ensures Apply(c, w, st).slot.paused
  {
  }

  /** Under a pause no job comes to be sending that was not. */
  lemma NoneStartsSending(c: Config, w: World, st: Step, j: nat)
    requires Enabled(w, st) && w.slot.paused && (j >= |w.jobs| || !MidRetry(w.jobs[j]))
    ensures var w' := Apply(c, w, st); j >= |w'.jobs| || !MidRetry(w'.jobs[j])
  {
    hide Wait;
  }

  /** From a paused world, over any run without a Resume, only jobs that were past the check ever send. */
  lemma {:induction false} PauseHolds(c: Config, w: World, tr: seq<Step>, j: nat, i: nat)
    requires LegalRun(c, w, tr) && NoResume(tr) && w.slot.paused
    requires i < |tr| && (j >= |w.jobs| || !MidRetry(w.jobs[j]))
    ensures !(tr[i].Send? && tr[i].j == j)
    decreases |tr|
  {
    hide Apply, MidRetry;
    if i == 0 {
      if tr[0].Send? && tr[0].j == j {
        SenderIsMidRetry(w, tr[0]);
      }
    } else {
      PauseStays(c, w, tr[0]);
      NoneStartsSending(c, w, tr[0], j);
      assert tr[1..][i - 1] == tr[i];
      PauseHolds(c, Apply(c, w, tr[0]), tr[1..], j, i - 1);
    }
  }

  lemma SenderIsMidRetry(w: World, st: Step)
    requires Enabled(w, st) && st.Send?
    ensures st.j < |w.jobs| && MidRetry(w.jobs[st.j])
  {
  }

  /** Some run without a Resume in which job j sends. */
  ghost predicate CanSend(c: Config, w: World, j: nat) {
    exists tr: seq<Step> :: LegalRun(c, w, tr) && NoResume(tr) && exists i :: 0 <= i < |tr| && tr[i] == Send(j, true)
  }

  /** Under a pause a delivery can still send if and only if it is past the check already: at a send, or about to look
      for its subscription before one, which is still there. */
  lemma PauseHoldsIff(c: Config, w: World, j: nat)
    requires w.slot.paused
    ensures CanSend(c, w, j)
      <==> j < |w.jobs| && w.jobs[j].Delivering? && (w.jobs[j].stage.AtSend? || (w.jobs[j].stage.AtCheck? && w.alive))
  {
    hide Apply;
    if j >= |w.jobs| || !MidRetry(w.jobs[j]) {
      forall tr: seq<Step>, i: nat | LegalRun(c, w, tr) && NoResume(tr) && i < |tr| ensures tr[i] != Send(j, true) {
        PauseHolds(c, w, tr, j, i);
      }
    } else if w.jobs[j].stage.AtSend? {
      SendNow(c, w, j);
    } else if w.alive {
      CheckThenSend(c, w, j);
    } else {
      forall tr: seq<Step>, i: nat | LegalRun(c, w, tr) && NoResume(tr) && i < |tr| ensures tr[i] != Send(j, true) {
        GoneStaysGone(c, w, tr, j, i);
      }
    }
  }

  lemma SendNow(c: Config, w: World, j: nat)
    requires j < |w.jobs| && w.jobs[j].Delivering? && w.jobs[j].stage.AtSend?
    ensures CanSend(c, w, j)
  {
    hide Apply;
    var tr := [Send(j, true)];
    assert tr[1..] == [] && LegalRun(c, Apply(c, w, tr[0]), []);
    assert LegalRun(c, w, tr) && NoResume(tr) && tr[0] == Send(j, true);
  }

  lemma CheckThenSend(c: Config, w: World, j: nat)
    requires j < |w.jobs| && w.jobs[j].Delivering? && w.jobs[j].stage.AtCheck? && w.alive
    ensures CanSend(c, w, j)
  {
    var tr := [Check(j), Send(j, true)];
    var m := Apply(c, w, tr[0]);
    assert tr[1..] == [Send(j, true)] && tr[1..][1..] == [];
    assert Enabled(m, tr[1]) && LegalRun(c, Apply(c, m, tr[1]), []);
    assert LegalRun(c, m, tr[1..]);
    assert LegalRun(c, w, tr) && NoResume(tr) && tr[1] == Send(j, true);
  }

  /** A retry that finds its subscription deleted sends no more, paused or not. */
  lemma {:induction false} GoneStaysGone(c: Config, w: World, tr: seq<Step>, j: nat, i: nat)
    requires LegalRun(c, w, tr) && NoResume(tr) && w.slot.paused && !w.alive && i < |tr|
    requires j >= |w.jobs| || !w.jobs[j].Delivering? || !w.jobs[j].stage.AtSend?
    ensures tr[i] != Send(j, true)
    decreases |tr|
  {
    hide Wait, Births;
    if i > 0 {
      assert tr[1..][i - 1] == tr[i];
      GoneStep(c, w, tr[0], j);
      GoneStaysGone(c, Apply(c, w, tr[0]), tr[1..], j, i - 1);
    }
  }

  lemma GoneStep(c: Config, w: World, st: Step, j: nat)
    requires Enabled(w, st) && !st.Resume? && w.slot.paused && !w.alive
    requires j >= |w.jobs| || !w.jobs[j].Delivering? || !w.jobs[j].stage.AtSend?
    ensures var w' := Apply(c, w, st);
      && w'.slot.paused && !w'.alive && (j >= |w'.jobs| || !w'.jobs[j].Delivering? || !w'.jobs[j].stage.AtSend?)
  {
    hide Wait;
  }

  // ------------------------------------------------------- what still leaves

  function Exposed(job: Job, x: Note): nat {
    if MidRetry(job) then Count(job.batch, x) else 0
  }

  /** How often x is in the batches past the check. */
  function Exposure(jobs: seq<Job>, x: Note): nat {
    if jobs == [] then 0 else Exposure(jobs[..|jobs| - 1], x) + Exposed(jobs[|jobs| - 1], x)
  }

  lemma {:induction false} ExposurePut(jobs: seq<Job>, j: nat, job: Job, x: Note)
    requires j < |jobs|
    ensures Exposure(jobs[j := job], x) == Exposure(jobs, x) - Exposed(jobs[j], x) + Exposed(job, x)
  {
    hide Exposed;
    var n := |jobs| - 1;
    if j < n {
      assert jobs[j := job][..n] == jobs[..n][j := job];
      ExposurePut(jobs[..n], j, job, x);
    } else {
      assert jobs[j := job][..n] == jobs[..n];
    }
  }

  lemma {:induction false} ExposureAppend(a: seq<Job>, b: seq<Job>, x: Note)
    requires forall i :: 0 <= i < |b| ==> Exposed(b[i], x) == 0
    ensures Exposure(a + b, x) == Exposure(a, x)
  {
    hide Exposed;
    if b == [] {
      assert a + b == a;
    } else {
      assert (a + b)[..|a + b| - 1] == a + b[..|b| - 1];
      ExposureAppend(a, b[..|b| - 1], x);
    }
  }

  lemma NewJobsHidden(w: World, st: Step, x: Note)
    requires Enabled(w, st)
    ensures forall i :: 0 <= i < |Births(w, st)| ==> Exposed(Births(w, st)[i], x) == 0
  {
    hide Count, Pushed;
  }

  /** Under a pause a step gives out of the exposed batches what it acknowledges, and exposes nothing new. */
  lemma ActorExposure(c: Config, w: World, st: Step, x: Note)
    requires Enabled(w, st) && w.slot.paused && Actor(st).Some?
    ensures Exposed(JobAfter(c, w, st), x) + Count(AckedBy(w, st), x) <= Exposed(w.jobs[Actor(st).value], x)
  {
    hide Wait;
  }

  lemma StepExposure(c: Config, w: World, st: Step, x: Note)
    requires Enabled(w, st) && w.slot.paused
    ensures var w' := Apply(c, w, st);
      Count(w'.acked, x) + Exposure(w'.jobs, x) <= Count(w.acked, x) + Exposure(w.jobs, x)
  {
    hide JobAfter, Births, AckedBy, SlotAfter, Exposed, Count, Enabled;
    CountAppend(w.acked, AckedBy(w, st), x);
    NewJobsHidden(w, st, x);
    if Actor(st).Some? {
      ActorInRange(w, st);
      ActorExposure(c, w, st, x);
      ExposurePut(w.jobs, Actor(st).value, JobAfter(c, w, st), x);
      ExposureAppend(w.jobs[Actor(st).value := JobAfter(c, w, st)], Births(w, st), x);
    } else {
      NothingAcked(w, st, x);
      ExposureAppend(w.jobs, Births(w, st), x);
    }
  }

  lemma ActorInRange(w: World, st: Step)
    requires Enabled(w, st) && Actor(st).Some?
    ensures Actor(st).value < |w.jobs|
  {
  }

  lemma NothingAcked(w: World, st: Step, x: Note)
    requires Enabled(w, st) && Actor(st).None?
    ensures Count(AckedBy(w, st), x) == 0
  {
    CountNothing(x);
  }

  /** Whatever is acknowledged between a pause and the next resume comes, each time, out of the batches that were past
      the check when the pause came. */
  lemma {:induction false} OnlyExposedLeaves(c: Config, w: World, tr: seq<Step>, x: Note)
    requires LegalRun(c, w, tr) && NoResume(tr) && w.slot.paused
    ensures Count(Run(c, w, tr).acked, x) <= Count(w.acked, x) + Exposure(w.jobs, x)
    decreases |tr|
  {
    hide Apply, Enabled, Count, Exposure;
    if tr != [] {
      StepExposure(c, w, tr[0], x);
      PauseStays(c, w, tr[0]);
      OnlyExposedLeaves(c, Apply(c, w, tr[0]), tr[1..], x);
    }
  }
}
