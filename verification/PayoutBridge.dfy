/** How often a payout is bridged, which moves the money: on each announcement of the approved state. */
module PayoutBridge {
  import opened Text
  import opened Payout
  import opened PayoutRuns

  // onTransition of cmd/b4b/payments.go starts the bridge call.

  /** The bridge calls started for a payment. */
  function Bridges(told: seq<Note>, id: string): nat {
    if told == [] then 0
    else Bridges(told[..|told| - 1], id) + if told[|told| - 1] == Note(id, TMApproved) then 1 else 0
  }

  /** Whether one is still to come, if nothing crashes. */
  function Due(l: Live): nat {
    if l.forceFail || l.phase == Idle then 0 else 1
  }

  lemma BridgesMore(told: seq<Note>, n: Note, id: string)
    ensures Bridges(told + [n], id) == Bridges(told, id) + if n == Note(id, TMApproved) then 1 else 0
  {
    assert (told + [n])[..|told|] == told;
  }

  /** The last announcement of a payment not forced to fail, and no other one, is the approved state. */
  lemma LastIsBridge(l: Live)
    requires InStep(l) && Untold(l.phase)
    ensures l.state == TMApproved <==> l.phase == Closing && !l.forceFail
  {
  }

  lemma AdvanceDue(l: Live)
    requires InStep(l) && l.phase != Idle
    ensures Due(Advanced(l)) + (if Untold(l.phase) && l.state == TMApproved then 1 else 0) == Due(l)
  {
    hide RemainingStates, Terminal, OnWalk;
    if Untold(l.phase) {
      LastIsBridge(l);
    }
  }

  lemma StepDue(w: World, s: Step, id: string)
    requires Orderly(w) && Enabled(w, s) && s != Crash && id in w.live
    ensures var v := Apply(w, s);
      && id in v.live && v.live[id].forceFail == w.live[id].forceFail
      && Bridges(v.told, id) + Due(v.live[id]) == Bridges(w.told, id) + Due(w.live[id])
  {
    hide Bridges, Due, Advanced, InStep, FileOrderly, Snapshot;
    if s.Advance? {
      var l := w.live[s.id];
      AdvanceDue(l);
      AdvancedInStep(l);
      if Untold(l.phase) {
        BridgesMore(w.told, Note(s.id, l.state), id);
      } else {
        assert w.told + [] == w.told;
      }
    }
  }

  /** A crash that drops a bridge call still to come: the file has the payment past its walk already. */
  predicate Loses(w: World, id: string)
    requires id in w.live && id in w.saved
  {
    !w.live[id].forceFail && w.live[id].phase != Idle && Place(w.saved[id].state) == 4
  }

  /** A crash that brings a second one: the call was started, and the file has the payment before its end. */
  predicate Repeats(w: World, id: string)
    requires id in w.live && id in w.saved
  {
    !w.live[id].forceFail && w.live[id].phase == Idle && Place(w.saved[id].state) < 4
  }

  function Tick(b: bool): nat {
    if b then 1 else 0
  }

  lemma CrashDue(w: World, id: string)
    requires Orderly(w) && id in w.live && id in w.saved
    ensures var v := Apply(w, Crash);
      && id in v.live && v.live[id].forceFail == w.live[id].forceFail && v.told == w.told
      && Due(v.live[id]) + Tick(Loses(w, id)) == Due(w.live[id]) + Tick(Repeats(w, id))
  {
    assert OnWalk(w.saved[id].state, w.saved[id].forceFail);
    assert w.saved[id].forceFail == w.live[id].forceFail;
    WokenInStep(w.saved[id]);
    hide RemainingStates, InStep, OnWalk;
    WokenIdleIff(w.saved[id]);
  }

  lemma WokenIdleIff(s: Saved)
    requires OnWalk(s.state, s.forceFail)
    ensures Woken(s).phase == Idle <==> Place(s.state) == 4
    ensures 0 <= Place(s.state) <= 4 && Woken(s).forceFail == s.forceFail
  {
  }

  /** Every crash of the run finds the payment in the file. */
  ghost predicate Filed(w: World, steps: seq<Step>, id: string)
    requires Legal(w, steps)
    decreases |steps|
  {
    steps == [] || ((steps[0] == Crash ==> id in w.saved) && Filed(Apply(w, steps[0]), steps[1..], id))
  }

  ghost function Losses(w: World, steps: seq<Step>, id: string): nat
    requires Legal(w, steps)
    decreases |steps|
  {
    if steps == [] then 0
    else
      Tick(steps[0] == Crash && id in w.live && id in w.saved && Loses(w, id))
      + Losses(Apply(w, steps[0]), steps[1..], id)
  }

  ghost function Repetitions(w: World, steps: seq<Step>, id: string): nat
    requires Legal(w, steps)
    decreases |steps|
  {
    if steps == [] then 0
    else
      Tick(steps[0] == Crash && id in w.live && id in w.saved && Repeats(w, id))
      + Repetitions(Apply(w, steps[0]), steps[1..], id)
  }

  /** Over any run with restarts, bridge calls started and still due change only by the crashes that repeat or lose
      one. */
  lemma {:induction false} BridgesCounted(w: World, steps: seq<Step>, id: string)
    requires Orderly(w) && Legal(w, steps) && id in w.live && Filed(w, steps, id)
    ensures var e := Run(w, steps);
      && id in e.live && e.live[id].forceFail == w.live[id].forceFail
      && Bridges(e.told, id) + Due(e.live[id]) + Losses(w, steps, id)
           == Bridges(w.told, id) + Due(w.live[id]) + Repetitions(w, steps, id)
    decreases |steps|
  {
    hide Apply, Bridges, Due, Loses, Repeats, Orderly;
    if steps != [] {
      StepOrderly(w, steps[0]);
      if steps[0] == Crash {
        CrashDue(w, id);
      } else {
        StepDue(w, steps[0], id);
      }
      BridgesCounted(Apply(w, steps[0]), steps[1..], id);
    }
  }

  lemma {:induction false} NothingBridged(told: seq<Note>, id: string)
    requires forall i :: 0 <= i < |told| ==> told[i].id != id
    ensures Bridges(told, id) == 0
  {
    if told != [] {
      NothingBridged(told[..|told| - 1], id);
    }
  }

  /** A submitted payout that is not forced to fail and has come to its end, over any run with restarts: it was bridged
      once, plus once for each crash that repeated the call, less once for each that lost it. So exactly once if and
      only if as many repeated it as lost it, in particular if none did either. */
  lemma BridgedOnceIff(w: World, id: string, steps: seq<Step>)
    requires Orderly(w) && FreshId(w, id) && Legal(Apply(w, Submit(id, false)), steps)
    requires Filed(Apply(w, Submit(id, false)), steps, id)
    requires var e := Run(Apply(w, Submit(id, false)), steps); id in e.live && e.live[id].phase == Idle
    ensures var s := Apply(w, Submit(id, false));
      && Bridges(Run(s, steps).told, id) + Losses(s, steps, id) == 1 + Repetitions(s, steps, id)
      && (Bridges(Run(s, steps).told, id) == 1 <==> Losses(s, steps, id) == Repetitions(s, steps, id))
  {
    hide Legal, Run, Filed, Losses, Repetitions, Orderly, InStep;
    StepOrderly(w, Submit(id, false));
    NothingBridged(w.told, id);
    BridgesCounted(Apply(w, Submit(id, false)), steps, id);
  }

  /** A payout forced to fail is never bridged, whatever crashes. */
  lemma FailedNeverBridged(w: World, id: string, steps: seq<Step>)
    requires Orderly(w) && FreshId(w, id) && Legal(Apply(w, Submit(id, true)), steps)
    requires Filed(Apply(w, Submit(id, true)), steps, id)
    ensures Bridges(Run(Apply(w, Submit(id, true)), steps).told, id) == 0
  {
    hide Legal, Run, Filed, Orderly, InStep;
    var s := Apply(w, Submit(id, true));
    StepOrderly(w, Submit(id, true));
    NothingBridged(w.told, id);
    BridgesCounted(s, steps, id);
    NoTicks(s, steps, id);
  }

  lemma {:induction false} NoTicks(w: World, steps: seq<Step>, id: string)
    requires Orderly(w) && Legal(w, steps) && id in w.live && w.live[id].forceFail && Filed(w, steps, id)
    ensures Losses(w, steps, id) == 0 && Repetitions(w, steps, id) == 0
    decreases |steps|
  {
    hide Apply, Orderly;
    if steps != [] {
      StepOrderly(w, steps[0]);
      if steps[0] == Crash {
        CrashDue(w, id);
      } else {
        StepDue(w, steps[0], id);
      }
      NoTicks(Apply(w, steps[0]), steps[1..], id);
    }
  }
}
