/** Many payments walking at once, saved and restarted at any moment. */
module PayoutRuns {
  import opened Text
  import opened Payout

  /** Where a payment's goroutine is. Announcing, Telling and Closing have written a state and not told of it yet. */
  datatype Phase =
    | Announcing
    | Starting
    | Walking(rest: seq<PaymentState>)
    | Telling(rest: seq<PaymentState>)
    | Closing
    | Idle

  datatype Saved = Saved(state: PaymentState, forceFail: bool)

  datatype Live = Live(state: PaymentState, forceFail: bool, phase: Phase)

  datatype Note = Note(id: string, state: PaymentState)

  type File = map<string, Saved>

  /** saved is the state file; taken are the snapshots some persist has in hand and has not written yet; told survives
      every restart, being on the client's side. */
  datatype World = World(live: map<string, Live>, taken: seq<File>, saved: File, told: seq<Note>)

  datatype Step =
    | Submit(id: string, forceFail: bool)
    | Advance(id: string)
    | Take
    | Save(i: nat)
    | Crash

  /** A payment id is new: never live, saved or told of before. */
  predicate FreshId(w: World, id: string) {
    && id !in w.live && id !in w.saved
    && (forall i :: 0 <= i < |w.taken| ==> id !in w.taken[i])
    && (forall i :: 0 <= i < |w.told| ==> w.told[i].id != id)
  }

  predicate Enabled(w: World, s: Step) {
    match s
    case Submit(id, _) => FreshId(w, id)
    case Advance(id) => id in w.live && w.live[id].phase != Idle
    case Save(i) => i < |w.taken|
    case _ => true
  }

  /** One hop of process, or the notification that follows it. */
  function Advanced(l: Live): Live {
    match l.phase
    case Announcing => l.(phase := Starting)
    case Starting =>
      var rest := RemainingStates(l.state);
      l.(phase := Walking(if rest.Some? then rest.value else []))
    case Walking(rest) =>
      if rest != [] then l.(state := rest[0], phase := Telling(rest[1..]))
      else l.(state := Terminal(l.forceFail), phase := Closing)
    case Telling(rest) => l.(phase := Walking(rest))
    case Closing => l.(phase := Idle)
    case Idle => l
  }

  predicate Untold(phase: Phase) {
    phase.Announcing? || phase.Telling? || phase.Closing?
  }

  /** Restore: the payment as the file has it, walking on if its state says so. */
  function Woken(s: Saved): Live {
    Live(s.state, s.forceFail, if RemainingStates(s.state).Some? then Starting else Idle)
  }

  function Snapshot(live: map<string, Live>): File {
    map id | id in live :: Saved(live[id].state, live[id].forceFail)
  }

  /** persist takes its snapshot in one step and writes it in a later one, so an older one may be written last. */
  function Apply(w: World, s: Step): World
    requires s.Advance? ==> s.id in w.live
    requires s.Save? ==> s.i < |w.taken|
  {
    match s
    case Submit(id, forceFail) => w.(live := w.live[id := Live(Accepted, forceFail, Announcing)])
    case Advance(id) =>
      w.(live := w.live[id := Advanced(w.live[id])],
         told := w.told + if Untold(w.live[id].phase) then [Note(id, w.live[id].state)] else [])
    case Take => w.(taken := w.taken + [Snapshot(w.live)])
    case Save(i) => w.(taken := w.taken[..i] + w.taken[i + 1..], saved := w.taken[i])
    case Crash => w.(live := map id | id in w.saved :: Woken(w.saved[id]), taken := [])
  }

  // ------------------------------------------------------------ the story

  /** What the client has been told of a payment. */
  function Heard(told: seq<Note>, id: string): seq<PaymentState> {
    if told == [] then []
    else Heard(told[..|told| - 1], id) + if told[|told| - 1].id == id then [told[|told| - 1].state] else []
  }

  /** What it will still be told, if nothing crashes. */
  function Owed(l: Live): seq<PaymentState> {
    match l.phase
    case Announcing => [l.state] + Walk(l.state, l.forceFail)
    case Starting => Walk(l.state, l.forceFail)
    case Walking(rest) => rest + [Terminal(l.forceFail)]
    case Telling(rest) => [l.state] + rest + [Terminal(l.forceFail)]
    case Closing => [l.state]
    case Idle => []
  }

  function Story(w: World, id: string): seq<PaymentState>
    requires id in w.live
  {
    Heard(w.told, id) + Owed(w.live[id])
  }

  lemma {:induction false} HeardNothing(told: seq<Note>, id: string)
    requires forall i :: 0 <= i < |told| ==> told[i].id != id
    ensures Heard(told, id) == []
  {
    if told != [] {
      HeardNothing(told[..|told| - 1], id);
    }
  }

  lemma HeardMore(told: seq<Note>, n: Note, id: string)
    ensures Heard(told + [n], id) == Heard(told, id) + if n.id == id then [n.state] else []
  {
    assert (told + [n])[..|told|] == told;
  }

  lemma AdvanceHeard(w: World, s: string, id: string)
    requires s in w.live
    ensures Heard(Apply(w, Advance(s)).told, id) ==
      Heard(w.told, id) + if s == id && Untold(w.live[s].phase) then [w.live[s].state] else []
  {
    hide Advanced, Heard;
    if Untold(w.live[s].phase) {
      HeardMore(w.told, Note(s, w.live[s].state), id);
    } else {
      assert w.told + [] == w.told;
    }
  }

  /** Hops, notifications and other payments' doings leave what is told and owed in all as it was. */
  lemma StoryKept(w: World, s: Step, id: string)
    requires Enabled(w, s) && s != Crash && id in w.live
    ensures id in Apply(w, s).live && Story(Apply(w, s), id) == Story(w, id)
    ensures Apply(w, s).live[id].forceFail == w.live[id].forceFail
  {
    hide Owed, Heard, Advanced;
    if s.Advance? {
      var l := w.live[s.id];
      AdvanceHeard(w, s.id, id);
      AdvanceOwes(l);
      var untold := if Untold(l.phase) then [l.state] else [];
      if s.id == id {
        assert Story(Apply(w, s), id) == Heard(w.told, id) + (untold + Owed(Advanced(l)));
      } else {
        assert Heard(Apply(w, s).told, id) == Heard(w.told, id);
      }
    }
  }

  lemma AdvanceOwes(l: Live)
    ensures (if Untold(l.phase) then [l.state] else []) + Owed(Advanced(l)) == Owed(l)
    ensures Advanced(l).forceFail == l.forceFail
  {
    hide RemainingStates, Terminal;
  }

  /** A new payment's story is the uncrashed walk. */
  lemma StoryBegins(w: World, id: string, forceFail: bool)
    requires FreshId(w, id)
    ensures Story(Apply(w, Submit(id, forceFail)), id) == FullWalk(forceFail)
  {
    HeardNothing(w.told, id);
  }

  // --------------------------------------------------------------- reachable

  /** index of a state on the walk */
  function Place(s: PaymentState): nat {
    match s
    case Accepted => 0
    case SanctionsPending => 1
    case SanctionsApproved => 2
    case TMPending => 3
    case _ => 4
  }

  predicate OnWalk(s: PaymentState, forceFail: bool) {
    s == FullWalk(forceFail)[Place(s)]
  }

  /** A phase and a state that go together. */
  predicate InStep(l: Live) {
    && OnWalk(l.state, l.forceFail)
    && match l.phase
       case Announcing => l.state == Accepted
       case Starting => Place(l.state) < 4
       case Walking(rest) => Place(l.state) < 4 && rest == STATE_ORDER[Place(l.state) + 1..]
       case Telling(rest) => 1 <= Place(l.state) < 4 && rest == STATE_ORDER[Place(l.state) + 1..]
       case Closing => Place(l.state) == 4
       case Idle => Place(l.state) == 4
  }

  /** A file has every payment in a state of its walk, and knows which end it is to come to. */
  ghost predicate FileOrderly(f: File, live: map<string, Live>) {
    && (forall id :: id in f ==> OnWalk(f[id].state, f[id].forceFail))
    && (forall id :: id in f ==> id in live && f[id].forceFail == live[id].forceFail)
  }

  ghost predicate Orderly(w: World) {
    && (forall id :: id in w.live ==> InStep(w.live[id]))
    && FileOrderly(w.saved, w.live)
    && (forall i :: 0 <= i < |w.taken| ==> FileOrderly(w.taken[i], w.live))
  }

  lemma WalkingInStep(l: Live)
    requires InStep(l) && l.phase.Walking?
    ensures InStep(Advanced(l)) && Advanced(l).forceFail == l.forceFail
  {
    var rest, k := l.phase.rest, Place(l.state);
    if rest != [] {
      assert k < 3 && rest[0] == STATE_ORDER[k + 1] && rest[1..] == STATE_ORDER[k + 2..];
    }
  }

  lemma AdvancedInStep(l: Live)
    requires InStep(l)
    ensures InStep(Advanced(l)) && Advanced(l).forceFail == l.forceFail
  {
    if l.phase.Walking? {
      WalkingInStep(l);
    }
  }

  lemma StepLiveInStep(w: World, s: Step)
    requires Orderly(w) && Enabled(w, s)
    ensures forall id :: id in Apply(w, s).live ==> InStep(Apply(w, s).live[id])
  {
    hide InStep, Advanced, OnWalk;
    if s.Submit? {
      SubmittedInStep(s.forceFail);
    } else if s.Advance? {
      AdvancedInStep(w.live[s.id]);
    } else if s == Crash {
      forall id | id in w.saved ensures InStep(Woken(w.saved[id])) {
        WokenInStep(w.saved[id]);
      }
    }
  }

  lemma FileStays(f: File, w: World, s: Step)
    requires Orderly(w) && Enabled(w, s) && s != Crash && FileOrderly(f, w.live)
    ensures FileOrderly(f, Apply(w, s).live)
  {
    hide InStep, Advanced, OnWalk;
    if s.Advance? {
      AdvancedInStep(w.live[s.id]);
    }
  }

  lemma SnapshotOrderly(live: map<string, Live>)
    requires forall id :: id in live ==> InStep(live[id])
    ensures FileOrderly(Snapshot(live), live)
  {
    hide InStep, OnWalk;
    forall id | id in live ensures OnWalk(live[id].state, live[id].forceFail) {
      InStepOnWalk(live[id]);
    }
  }

  lemma StepOrderly(w: World, s: Step)
    requires Orderly(w) && Enabled(w, s)
    ensures Orderly(Apply(w, s))
  {
    hide InStep, Advanced, OnWalk, FileOrderly, Snapshot;
    var v := Apply(w, s);
    StepLiveInStep(w, s);
    if s == Crash {
      assert FileOrderly(v.saved, v.live) by { FileOverWoken(w.saved, w.live); }
    } else {
      FileStays(w.saved, w, s);
      forall i | 0 <= i < |w.taken| ensures FileOrderly(w.taken[i], v.live) {
        FileStays(w.taken[i], w, s);
      }
      SnapshotOrderly(w.live);
    }
  }

  lemma FileOverWoken(f: File, live: map<string, Live>)
    requires FileOrderly(f, live)
    ensures FileOrderly(f, map id | id in f :: Woken(f[id]))
  {
    hide OnWalk;
  }

  lemma SubmittedInStep(forceFail: bool)
    ensures InStep(Live(Accepted, forceFail, Announcing))
  {
  }

  lemma InStepOnWalk(l: Live)
    requires InStep(l)
    ensures OnWalk(l.state, l.forceFail)
  {
  }

  lemma WokenInStep(s: Saved)
    requires OnWalk(s.state, s.forceFail)
    ensures InStep(Woken(s))
  {
  }

  ghost predicate Legal(w: World, steps: seq<Step>)
    decreases |steps|
  {
    steps == [] || (Enabled(w, steps[0]) && Legal(Apply(w, steps[0]), steps[1..]))
  }

  function Run(w: World, steps: seq<Step>): World
    requires Legal(w, steps)
    decreases |steps|
  {
    if steps == [] then w else Run(Apply(w, steps[0]), steps[1..])
  }

  // ------------------------------------------------------------------ crashes

  /** After a restart: what was told before it, and every state the file had not reached. */
  lemma CrashStory(w: World, id: string)
    requires id in w.saved
    ensures var v := Apply(w, Crash);
      id in v.live && Story(v, id) == Heard(w.told, id) + Resumed(w.saved[id].state, w.saved[id].forceFail)
  {
  }

  /** From a state on the walk, what is owed is the tail of the walk. */
  lemma OwedIsTail(l: Live)
    requires InStep(l)
    ensures Owed(l) == FullWalk(l.forceFail)[Place(l.state) + (if Untold(l.phase) then 0 else 1)..]
  {
    var f := FullWalk(l.forceFail);
    assert f[..4] == STATE_ORDER && f[4] == Terminal(l.forceFail);
    match l.phase {
      case Announcing =>
      case Starting => ResumedIsTail(l.state, l.forceFail);
      case Walking(rest) => assert f[Place(l.state) + 1..] == rest + [f[4]];
      case Telling(rest) => assert f[Place(l.state)..] == [l.state] + rest + [f[4]];
      case Closing =>
      case Idle =>
    }
  }

  lemma ResumedIsTail(s: PaymentState, forceFail: bool)
    requires OnWalk(s, forceFail)
    ensures Resumed(s, forceFail) == FullWalk(forceFail)[Place(s) + 1..]
    ensures Place(s) < 4 ==> Walk(s, forceFail) == FullWalk(forceFail)[Place(s) + 1..]
  {
    var f := FullWalk(forceFail);
    ResumeCompletes(forceFail, Place(s));
    assert (f[..Place(s) + 1] + Resumed(s, forceFail))[Place(s) + 1..] == Resumed(s, forceFail);
  }

  /** The states written, not merely told: one more while a notification is outstanding. */
  function ToldUpTo(l: Live): int {
    Place(l.state) - if Untold(l.phase) then 1 else 0
  }

  /**
   * A crash costs and repeats nothing for a payment exactly when the file has it in the last state
   * the client was told of.
   */
  lemma CrashIsSeamlessIff(w: World, id: string)
    requires Orderly(w) && id in w.live && id in w.saved
    ensures Story(Apply(w, Crash), id) == Story(w, id) <==> Place(w.saved[id].state) == ToldUpTo(w.live[id])
  {
    hide RemainingStates, Walk, Owed, FullWalk, Resumed, InStep, OnWalk;
    var l, s := w.live[id], w.saved[id];
    CrashStory(w, id);
    InStepBounds(l, s);
    OwedIsTail(l);
    ResumedIsTail(s.state, s.forceFail);
    WalkLength(l.forceFail);
    var heard, f := Heard(w.told, id), FullWalk(l.forceFail);
    if Story(Apply(w, Crash), id) == Story(w, id) {
      assert |heard + f[Place(s.state) + 1..]| == |heard + Owed(l)|;
    }
  }

  lemma InStepBounds(l: Live, s: Saved)
    requires InStep(l) && OnWalk(s.state, s.forceFail)
    ensures 0 <= Place(l.state) <= 4 && 0 <= Place(s.state) <= 4
  {
  }

  lemma OnWalkAt(l: Live)
    requires InStep(l)
    ensures Place(l.state) < |FullWalk(l.forceFail)| && FullWalk(l.forceFail)[Place(l.state)] == l.state
    ensures l.state == Terminal(l.forceFail) ==> Woken(Saved(l.state, l.forceFail)).phase == Idle
  {
  }

  lemma WalkLength(forceFail: bool)
    ensures |FullWalk(forceFail)| == 5
  {
  }

  /**
   * The file written and the process killed between a state and its notification, which is where
   * onTransition saves: that one notification is lost, and nothing else.
   */
  lemma CrashInTheGap(w: World, id: string)
    requires Orderly(w) && id in w.live && id in w.saved && Untold(w.live[id].phase)
    requires w.saved[id].state == w.live[id].state
    ensures Owed(w.live[id]) != [] && Owed(w.live[id])[0] == w.live[id].state
    ensures Story(Apply(w, Crash), id) == Heard(w.told, id) + Owed(w.live[id])[1..]
    ensures w.live[id].state == Terminal(w.live[id].forceFail) ==> Apply(w, Crash).live[id].phase == Idle
  {
    hide Walk, RemainingStates, Resumed, Owed, FullWalk, InStep, OnWalk, Place;
    var l, s := w.live[id], w.saved[id];
    CrashStory(w, id);
    InStepBounds(l, s);
    OwedIsTail(l);
    ResumedIsTail(s.state, s.forceFail);
    WalkLength(l.forceFail);
    OnWalkAt(l);
    assert FullWalk(l.forceFail)[Place(l.state)..][1..] == FullWalk(l.forceFail)[Place(l.state) + 1..];
  }

  // --------------------------------------------------------------- whole runs

  /** Each crash of the run finds every payment in the file, in the last state told of. */
  ghost predicate Seamless(w: World, steps: seq<Step>)
    requires Legal(w, steps)
    decreases |steps|
  {
    steps == [] ||
    ((steps[0] == Crash ==> forall id :: id in w.live ==>
      id in w.saved && Place(w.saved[id].state) == ToldUpTo(w.live[id]))
     && Seamless(Apply(w, steps[0]), steps[1..]))
  }

  ghost predicate OnScript(w: World) {
    Orderly(w) && forall id :: id in w.live ==> Story(w, id) == FullWalk(w.live[id].forceFail)
  }

  lemma StepOnScript(w: World, s: Step)
    requires OnScript(w) && Enabled(w, s)
    requires s == Crash ==> forall id :: id in w.live ==>
      id in w.saved && Place(w.saved[id].state) == ToldUpTo(w.live[id])
    ensures OnScript(Apply(w, s))
  {
    hide Story, FullWalk, InStep, OnWalk, Advanced, ToldUpTo, Place;
    StepOrderly(w, s);
    var v := Apply(w, s);
    forall id | id in v.live ensures Story(v, id) == FullWalk(v.live[id].forceFail) {
      if s == Crash {
        CrashIsSeamlessIff(w, id);
      } else if id in w.live {
        StoryKept(w, s, id);
      } else {
        StoryBegins(w, id, s.forceFail);
      }
    }
  }

  /**
   * With any number of crashes, each at such a moment, every payment is told of exactly the uncrashed
   * walk: once its goroutine is done, each state once, in order, ending in what ForceFail chose.
   */
  lemma {:induction false} WalkSurvives(w: World, steps: seq<Step>)
    requires OnScript(w) && Legal(w, steps) && Seamless(w, steps)
    ensures OnScript(Run(w, steps))
    ensures forall id :: id in Run(w, steps).live && Run(w, steps).live[id].phase == Idle ==>
      Heard(Run(w, steps).told, id) == FullWalk(Run(w, steps).live[id].forceFail)
    decreases |steps|
  {
    hide OnScript, Apply, FullWalk, ToldUpTo, Place;
    if steps == [] {
      IdleHeardAll(w);
    } else {
      StepOnScript(w, steps[0]);
      WalkSurvives(Apply(w, steps[0]), steps[1..]);
    }
  }

  lemma WalkSurvivesFromTheStart(steps: seq<Step>)
    requires var w := World(map[], [], map[], []); Legal(w, steps) && Seamless(w, steps)
    ensures var e := Run(World(map[], [], map[], []), steps);
      forall id :: id in e.live && e.live[id].phase == Idle ==> Heard(e.told, id) == FullWalk(e.live[id].forceFail)
  {
    hide FullWalk, Apply;
    WalkSurvives(World(map[], [], map[], []), steps);
  }

  lemma IdleHeardAll(w: World)
    requires OnScript(w)
    ensures forall id :: id in w.live && w.live[id].phase == Idle ==>
      Heard(w.told, id) == FullWalk(w.live[id].forceFail)
  {
    hide FullWalk, InStep;
    forall id | id in w.live && w.live[id].phase == Idle ensures Heard(w.told, id) == FullWalk(w.live[id].forceFail) {
      assert Story(w, id) == Heard(w.told, id);
    }
  }

  /** And it always gets there: each hop brings the goroutine nearer to its end. */
  function Hops(l: Live): nat {
    match l.phase
    case Announcing => 12
    case Starting => 11
    case Walking(rest) => 2 + 2 * |rest|
    case Telling(rest) => 3 + 2 * |rest|
    case Closing => 1
    case Idle => 0
  }

  /** Left alone, a payment reaches its end within twelve hops. */
  lemma {:induction false} WalkEnds(w: World, id: string) returns (steps: seq<Step>)
    requires id in w.live
    ensures |steps| <= Hops(w.live[id]) && Legal(w, steps) && forall i :: 0 <= i < |steps| ==> steps[i] == Advance(id)
    ensures id in Run(w, steps).live && Run(w, steps).live[id].phase == Idle
    decreases Hops(w.live[id])
  {
    hide Advanced, Hops;
    if w.live[id].phase == Idle {
      steps := [];
    } else {
      HopsShrink(w.live[id]);
      var v := Apply(w, Advance(id));
      var rest := WalkEnds(v, id);
      steps := [Advance(id)] + rest;
      assert steps[1..] == rest;
    }
  }

  lemma HopsShrink(l: Live)
    requires l.phase != Idle
    ensures Hops(Advanced(l)) < Hops(l)
  {
  }
}
