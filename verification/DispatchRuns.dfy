/** Every interleaving of the calls, timers and deliveries of one subscription. */
module DispatchRuns {
  import opened Text
  import opened Delivery
  import opened Dispatching

  // The dispatcher keeps one slot per subscription and no section touches two slots, so a run of
  // the dispatcher is a run of each slot on its own.

  /** Where a delivery stands in deliverSync. */
  datatype Stage = AtPark | AtSend(attempt: nat) | AtCheck(retry: nat) | AtRetain | AtDeactivate

  /** A goroutine or call in progress. */
  datatype Job =
    | Feeding(todo: seq<Note>, passed: bool)                                   // Enqueue, or Redeliver's loop of them
    | Flushing(batch: seq<Note>)                                               // flush, before the store lookup
    | Delivering(batch: seq<Note>, stage: Stage, rest: seq<Note>, size: int)   // deliverSync; rest is Resume's backlog
    | Activating                                                               // after SetActive, before Redeliver
    | Over

  /** alive and active are the store's: the subscription exists, and is active.
      given, acked and dropped are logs of whole notifications. */
  datatype World = World(
    slot: Slot, jobs: seq<Job>, alive: bool, active: bool,
    given: seq<Note>, acked: seq<Note>, dropped: seq<Note>)

  /** size is the batch size read from the subscription at that moment. */
  datatype Step =
    | Offer(n: Note)
    | FeedPark(j: nat)
    | FeedPush(j: nat, size: int)
    | TimerOrFlush
    | FlushLookup(j: nat)
    | DeliverPark(j: nat)
    | Send(j: nat, ok: bool)
    | Check(j: nat)
    | Retain(j: nat)
    | Deactivate(j: nat)
    | Pause
    | Resume(size: int)
    | SetActive(on: bool)
    | Redeliver(j: nat)
    | Delete

  predicate Has(w: World, j: nat, s: Stage) {
    j < |w.jobs| && w.jobs[j].Delivering? && w.jobs[j].stage == s
  }

  predicate Enabled(w: World, st: Step) {
    match st
    case Offer(_) => true
    case FeedPark(j) => j < |w.jobs| && w.jobs[j].Feeding? && w.jobs[j].todo != [] && !w.jobs[j].passed
    case FeedPush(j, size) => size >= 1 && j < |w.jobs| && w.jobs[j].Feeding? && w.jobs[j].todo != []
      && w.jobs[j].passed
    case TimerOrFlush => true
    case FlushLookup(j) => j < |w.jobs| && w.jobs[j].Flushing?
    case DeliverPark(j) => Has(w, j, AtPark)
    case Send(j, _) => j < |w.jobs| && w.jobs[j].Delivering? && w.jobs[j].stage.AtSend?
    case Check(j) => j < |w.jobs| && w.jobs[j].Delivering? && w.jobs[j].stage.AtCheck?
    case Retain(j) => Has(w, j, AtRetain)
    case Deactivate(j) => Has(w, j, AtDeactivate)
    case Pause => true
    case Resume(size) => size >= 1
    case SetActive(_) => w.alive
    case Redeliver(j) => j < |w.jobs| && w.jobs[j].Activating?
    case Delete => w.alive
  }

  /** The delivery of a backlog: its first chunk is about to be checked against the pause. */
  function Release(held: seq<Note>, size: int): Job {
    if held == [] || size < 1 then Over
    else var n := Least(size, |held|); Delivering(held[..n], AtPark, held[n..], size)
  }

  /** This batch is done with: the next chunk of the backlog, or nothing. */
  function NextChunk(job: Job): Job
    requires job.Delivering?
  {
    Release(job.rest, job.size)
  }

  /** The job a step advances. */
  function Actor(st: Step): Option<nat> {
    match st
    case FeedPark(j) => Some(j)
    case FeedPush(j, _) => Some(j)
    case FlushLookup(j) => Some(j)
    case DeliverPark(j) => Some(j)
    case Send(j, _) => Some(j)
    case Check(j) => Some(j)
    case Retain(j) => Some(j)
    case Deactivate(j) => Some(j)
    case Redeliver(j) => Some(j)
    case _ => None
  }

  function JobAfter(c: Config, w: World, st: Step): Job
    requires Enabled(w, st) && Actor(st).Some?
  {
    var job := w.jobs[Actor(st).value];
    match st
    case FeedPark(_) => if w.slot.paused then Feeding(job.todo[1..], false) else job.(passed := true)
    case FeedPush(_, _) => Feeding(job.todo[1..], false)
    case FlushLookup(_) => if w.alive then Delivering(job.batch, AtPark, [], 0) else Over
    case DeliverPark(_) => if w.slot.paused then NextChunk(job) else job.(stage := AtSend(0))
    case Send(_, ok) =>
      if ok then NextChunk(job)
      else
        var k := job.stage.attempt;
        job.(stage := if Wait(c, k + 1).Some? then AtCheck(k + 1) else AtRetain)
    case Check(_) => if w.alive then job.(stage := AtSend(job.stage.retry)) else NextChunk(job)
    case Retain(_) => job.(batch := [], stage := AtDeactivate)
    case Deactivate(_) => NextChunk(job)
    case Redeliver(_) => Feeding(w.slot.pending, false)
  }

  /** The goroutines a step starts. */
  function Births(w: World, st: Step): seq<Job>
    requires Enabled(w, st)
  {
    match st
    case Offer(n) => [Feeding([n], false)]
    case FeedPush(j, size) =>
      (match Pushed(w.slot, w.jobs[j].todo[0], size).1
       case None => []
       case Some(batch) => [Delivering(batch, AtPark, [], 0)])
    case TimerOrFlush => if w.slot.items == [] then [] else [Flushing(w.slot.items)]
    case Resume(size) => if w.slot.queued == [] then [] else [Release(w.slot.queued, size)]
    case SetActive(on) => if on then [Activating] else []
    case _ => []
  }

  function SlotAfter(w: World, st: Step): Slot
    requires Enabled(w, st)
  {
    match st
    case FeedPark(j) => BehindPause(w.slot, [w.jobs[j].todo[0]])
    case FeedPush(j, size) => Pushed(w.slot, w.jobs[j].todo[0], size).0
    case TimerOrFlush => Taken(w.slot).0
    case DeliverPark(j) => BehindPause(w.slot, w.jobs[j].batch)
    case Retain(j) => Retained(w.slot, w.jobs[j].batch)
    case Pause => w.slot.(paused := true)
    case Resume(_) => Resumed(w.slot).0
    case Redeliver(_) => Reclaimed(w.slot).0
    case _ => w.slot
  }

  /** The notifications a step acknowledges. */
  function AckedBy(w: World, st: Step): seq<Note>
    requires Enabled(w, st)
  {
    match st
    case Send(j, ok) => if ok then w.jobs[j].batch else []
    case _ => []
  }

  function DroppedBy(w: World, st: Step): seq<Note>
    requires Enabled(w, st)
  {
    match st
    case FlushLookup(j) => if w.alive then [] else w.jobs[j].batch
    case Check(j) => if w.alive then [] else w.jobs[j].batch
    case _ => []
  }

  function GivenBy(st: Step): seq<Note> {
    match st
    case Offer(n) => [n]
    case _ => []
  }

  function JobsAfter(c: Config, w: World, st: Step): seq<Job>
    requires Enabled(w, st)
  {
    (if Actor(st).Some? then w.jobs[Actor(st).value := JobAfter(c, w, st)] else w.jobs) + Births(w, st)
  }

  function Apply(c: Config, w: World, st: Step): World
    requires Enabled(w, st)
  {
    World(
      SlotAfter(w, st),
      JobsAfter(c, w, st),
      w.alive && !st.Delete?,
      match st case SetActive(on) => on case Deactivate(_) => w.active && !w.alive case _ => w.active,
      w.given + GivenBy(st),
      w.acked + AckedBy(w, st),
      w.dropped + DroppedBy(w, st))
  }

  ghost predicate LegalRun(c: Config, w: World, tr: seq<Step>)
    decreases |tr|
  {
    tr == [] || (Enabled(w, tr[0]) && LegalRun(c, Apply(c, w, tr[0]), tr[1..]))
  }

  ghost function Run(c: Config, w: World, tr: seq<Step>): World
    requires LegalRun(c, w, tr)
    decreases |tr|
  {
    if tr == [] then w else Run(c, Apply(c, w, tr[0]), tr[1..])
  }

  function NewWorld(active: bool): World {
    World(EMPTY, [], true, active, [], [], [])
  }

  // ----------------------------------------------------------- conservation

  /** How often x occurs. */
  function Count(s: seq<Note>, x: Note): nat {
    multiset(s)[x]
  }

  lemma CountAppend(a: seq<Note>, b: seq<Note>, x: Note)
    ensures Count(a + b, x) == Count(a, x) + Count(b, x)
  {
  }

  lemma CountSplit(s: seq<Note>, n: nat, x: Note)
    requires n <= |s|
    ensures Count(s, x) == Count(s[..n], x) + Count(s[n..], x)
  {
    assert s == s[..n] + s[n..];
  }

  lemma CountNothing(x: Note)
    ensures Count([], x) == 0
  {
  }

  function HeldBy(job: Job, x: Note): nat {
    match job
    case Feeding(todo, _) => Count(todo, x)
    case Flushing(batch) => Count(batch, x)
    case Delivering(batch, _, rest, _) => Count(batch, x) + Count(rest, x)
    case _ => 0
  }

  function InFlight(jobs: seq<Job>, x: Note): nat {
    if jobs == [] then 0 else InFlight(jobs[..|jobs| - 1], x) + HeldBy(jobs[|jobs| - 1], x)
  }

  function InSlot(s: Slot, x: Note): nat {
    Count(s.items, x) + Count(s.pending, x) + Count(s.queued, x)
  }

  /** Occurrences of x queued for a batch, retained, parked, in flight, acknowledged and dropped. */
  function Places(w: World, x: Note): nat {
    InSlot(w.slot, x) + InFlight(w.jobs, x) + Count(w.acked, x) + Count(w.dropped, x)
  }

  ghost predicate Conserved(w: World) {
    && (forall x :: Places(w, x) == Count(w.given, x))
    && (w.dropped != [] ==> !w.alive)
  }

  lemma {:induction false} InFlightPut(jobs: seq<Job>, j: nat, job: Job, x: Note)
    requires j < |jobs|
    ensures InFlight(jobs[j := job], x) == InFlight(jobs, x) - HeldBy(jobs[j], x) + HeldBy(job, x)
  {
    hide HeldBy;
    var n := |jobs| - 1;
    if j < n {
      assert jobs[j := job][..n] == jobs[..n][j := job];
      InFlightPut(jobs[..n], j, job, x);
    } else {
      assert jobs[j := job][..n] == jobs[..n];
    }
  }

  lemma {:induction false} InFlightAppend(a: seq<Job>, b: seq<Job>, x: Note)
    ensures InFlight(a + b, x) == InFlight(a, x) + InFlight(b, x)
  {
    hide HeldBy;
    if b == [] {
      assert a + b == a;
    } else {
      assert (a + b)[..|a + b| - 1] == a + b[..|b| - 1];
      InFlightAppend(a, b[..|b| - 1], x);
    }
  }

  lemma InFlightOne(job: Job, x: Note)
    ensures InFlight([job], x) == HeldBy(job, x)
  {
    assert [job][..0] == [];
  }

  lemma InFlightAfter(c: Config, w: World, st: Step, x: Note)
    requires Enabled(w, st)
    ensures InFlight(JobsAfter(c, w, st), x) ==
            InFlight(w.jobs, x) + InFlight(Births(w, st), x)
            + if Actor(st).Some? then HeldBy(JobAfter(c, w, st), x) - HeldBy(w.jobs[Actor(st).value], x) else 0
  {
    hide HeldBy, JobAfter, Births;
    if Actor(st).Some? {
      var j := Actor(st).value;
      InFlightPut(w.jobs, j, JobAfter(c, w, st), x);
      InFlightAppend(w.jobs[j := JobAfter(c, w, st)], Births(w, st), x);
    } else {
      InFlightAppend(w.jobs, Births(w, st), x);
    }
  }

  lemma ReleaseHolds(held: seq<Note>, size: int, x: Note)
    requires held == [] || size >= 1
    ensures HeldBy(Release(held, size), x) == Count(held, x)
  {
    hide Count;
    CountNothing(x);
    if held != [] {
      CountSplit(held, Least(size, |held|), x);
    }
  }

  predicate SizedJob(job: Job) {
    job.Delivering? ==> (job.rest == [] || job.size >= 1) && (job.stage == AtDeactivate ==> job.batch == [])
  }

  /** Every backlog has a size to be cut by, and a retained batch has left its delivery. */
  ghost predicate Sized(w: World) {
    forall j :: 0 <= j < |w.jobs| ==> SizedJob(w.jobs[j])
  }

  lemma StepSized(c: Config, w: World, st: Step)
    requires Enabled(w, st) && Sized(w)
    ensures Sized(Apply(c, w, st))
  {
    hide SlotAfter, AckedBy, DroppedBy, GivenBy;
    assert Actor(st).Some? ==> SizedJob(w.jobs[Actor(st).value]) && SizedJob(JobAfter(c, w, st));
    assert forall j :: 0 <= j < |Births(w, st)| ==> SizedJob(Births(w, st)[j]);
  }

  /** What a step's actor holds, what it starts, what it files: the books of one step, for one notification. */
  lemma StepBooks(c: Config, w: World, st: Step, x: Note)
    requires Enabled(w, st) && Sized(w)
    ensures InSlot(SlotAfter(w, st), x) + Count(AckedBy(w, st), x) + Count(DroppedBy(w, st), x)
            + InFlight(Births(w, st), x)
            + (if Actor(st).Some? then HeldBy(JobAfter(c, w, st), x) else 0)
            == InSlot(w.slot, x) + Count(GivenBy(st), x)
               + if Actor(st).Some? then HeldBy(w.jobs[Actor(st).value], x) else 0
  {
    hide Count, Wait, Release;
    CountNothing(x);
    if |Births(w, st)| == 1 {
      InFlightOne(Births(w, st)[0], x);
      assert Births(w, st) == [Births(w, st)[0]];
    }
    if Actor(st).Some? && w.jobs[Actor(st).value].Delivering? {
      assert SizedJob(w.jobs[Actor(st).value]);
      ReleaseHolds(w.jobs[Actor(st).value].rest, w.jobs[Actor(st).value].size, x);
    }
    match st {
      case FeedPark(j) =>
        var todo := w.jobs[j].todo;
        CountSplit(todo, 1, x);
        assert todo[..1] == [todo[0]];
        CountAppend(w.slot.queued, [todo[0]], x);
      case FeedPush(j, size) =>
        var todo := w.jobs[j].todo;
        CountSplit(todo, 1, x);
        assert todo[..1] == [todo[0]];
        CountAppend(w.slot.items, [todo[0]], x);
      case DeliverPark(j) => CountAppend(w.slot.queued, w.jobs[j].batch, x);
      case Retain(j) => CountAppend(w.slot.pending, w.jobs[j].batch, x);
      case Resume(size) => ReleaseHolds(w.slot.queued, size, x);
      case _ =>
    }
  }

  lemma StepConserved(c: Config, w: World, st: Step)
    requires Enabled(w, st) && Sized(w) && Conserved(w)
    ensures Conserved(Apply(c, w, st))
  {
    hide Count, InFlight, InSlot, HeldBy, SlotAfter, JobsAfter, Births, JobAfter, AckedBy, GivenBy;
    var w' := Apply(c, w, st);
    forall x ensures Places(w', x) == Count(w'.given, x) {
      StepBooks(c, w, st, x);
      InFlightAfter(c, w, st, x);
      CountAppend(w.acked, AckedBy(w, st), x);
      CountAppend(w.dropped, DroppedBy(w, st), x);
      CountAppend(w.given, GivenBy(st), x);
      assert Places(w, x) == Count(w.given, x);
    }
  }

  /** At every step of every run, each notification offered is in exactly one place per offer, and
      none is dropped while its subscription exists. */
  lemma {:induction false} AlwaysConserved(c: Config, w: World, tr: seq<Step>)
    requires LegalRun(c, w, tr) && Sized(w) && Conserved(w)
    ensures Sized(Run(c, w, tr)) && Conserved(Run(c, w, tr))
    decreases |tr|
  {
    hide Apply, Enabled, Sized, Conserved;
    if tr != [] {
      StepSized(c, w, tr[0]);
      StepConserved(c, w, tr[0]);
      AlwaysConserved(c, Apply(c, w, tr[0]), tr[1..]);
    }
  }

  /** A notification offered once is, at any time, in exactly one of the six places, once;
      in particular it is acknowledged at most once. */
  lemma ExactlyOnePlace(c: Config, active: bool, tr: seq<Step>, x: Note)
    requires LegalRun(c, NewWorld(active), tr)
    requires Count(Run(c, NewWorld(active), tr).given, x) == 1
    ensures var w := Run(c, NewWorld(active), tr);
            && Count(w.slot.items, x) + Count(w.slot.pending, x) + Count(w.slot.queued, x)
               + InFlight(w.jobs, x) + Count(w.acked, x) + Count(w.dropped, x) == 1
            && (Count(w.dropped, x) == 1 ==> !w.alive)
  {
    hide Apply, Enabled;
    var w0 := NewWorld(active);
    forall y ensures Places(w0, y) == Count(w0.given, y) {
    }
    AlwaysConserved(c, w0, tr);
    var w := Run(c, w0, tr);
    assert Places(w, x) == Count(w.given, x);
    assert w.dropped == [] ==> Count(w.dropped, x) == 0;
  }
}
