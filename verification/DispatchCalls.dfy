/** The dispatcher's calls on their own: where each puts what, in what order, and that each is a run of its sections. */
module DispatchCalls {
  import opened Text
  import opened Delivery
  import opened Dispatching
  import opened DispatchRuns

  // ------------------------------------------------------------ one Enqueue

  /** Under a pause the notification goes to the end of what is parked and nothing leaves; otherwise to the end of the
      batch, which leaves whole once it has size notifications. */
  lemma EnqueuedMeaning(s: Slot, n: Note, size: int)
    ensures var (t, full) := Enqueued(s, n, size);
      && t.pending == s.pending && t.paused == s.paused
      && (s.paused ==>
            full == None && t.queued == s.queued + [n] && t.items == s.items && t.armed == s.armed)
      && (!s.paused ==> t.queued == s.queued)
      && (!s.paused && |s.items| + 1 >= size ==> full == Some(s.items + [n]) && t.items == [] && !t.armed)
      && (!s.paused && |s.items| + 1 < size ==> full == None && t.items == s.items + [n] && t.armed)
  {
  }

  function Batches(full: Option<seq<Note>>): seq<seq<Note>> {
    match full
    case None => []
    case Some(b) => [b]
  }

  /** Nothing is lost or repeated: what was there and the new one, kept or handed out. */
  lemma EnqueuedConserves(s: Slot, n: Note, size: int, x: Note)
    ensures var (t, full) := Enqueued(s, n, size);
      InSlot(t, x) + Count(Concat(Batches(full)), x) == InSlot(s, x) + Count([n], x)
  {
    hide Count;
    CountNothing(x);
    CountAppend(s.items, [n], x);
    CountAppend(s.queued, [n], x);
    var (t, full) := Enqueued(s, n, size);
    if full.Some? {
      assert Batches(full)[1..] == [];
      assert full.value + [] == full.value;
    }
  }

  // ------------------------------------------------------------ in sequence

  lemma {:induction false} ConcatSnoc(bs: seq<seq<Note>>, b: seq<Note>)
    ensures Concat(bs + [b]) == Concat(bs) + b
  {
    if bs == [] {
      assert bs + [b] == [b] && [b][1..] == [];
    } else {
      assert (bs + [b])[1..] == bs[1..] + [b];
      ConcatSnoc(bs[1..], b);
    }
  }

  /** Under a pause a whole sequence is parked behind what is parked, in order, and nothing leaves. */
  lemma {:induction false} EnqueuedAllPaused(s: Slot, todo: seq<Note>, size: int)
    requires s.paused
    ensures EnqueuedAll(s, todo, size) == (s.(queued := s.queued + todo), [])
    decreases |todo|
  {
    if todo == [] {
      assert s.queued + todo == s.queued;
    } else {
      var k := |todo| - 1;
      EnqueuedAllPaused(s, todo[..k], size);
      assert todo == todo[..k] + [todo[k]];
      assert s.queued + todo == (s.queued + todo[..k]) + [todo[k]];
    }
  }

  /** Otherwise the batches handed out and what is left waiting are what waited before, then the sequence, in order, in
      batches of size. */
  lemma {:induction false} EnqueuedAllMeaning(s: Slot, todo: seq<Note>, size: int)
    requires size >= 1 && !s.paused
    ensures var (t, out) := EnqueuedAll(s, todo, size);
      && t.pending == s.pending && t.queued == s.queued && !t.paused
      && Concat(out) + t.items == s.items + todo
      && (todo != [] ==> |t.items| < size && (t.armed <==> t.items != []))
      && (forall i :: 0 <= i < |out| ==> |out[i]| >= size && (i > 0 || |s.items| < size ==> |out[i]| == size))
    decreases |todo|
  {
    hide Concat, Enqueued;
    if todo == [] {
      ConcatNothing();
      assert s.items + todo == s.items && Concat([]) + s.items == s.items;
    } else {
      var k := |todo| - 1;
      var (m, out) := EnqueuedAll(s, todo[..k], size);
      EnqueuedAllMeaning(s, todo[..k], size);
      EnqueuedMeaning(m, todo[k], size);
      assert todo == todo[..k] + [todo[k]];
      assert s.items + todo == (s.items + todo[..k]) + [todo[k]];
      var (t, full) := Enqueued(m, todo[k], size);
      assert Concat(out) + (m.items + [todo[k]]) == (Concat(out) + m.items) + [todo[k]];
      if full.Some? {
        ConcatSnoc(out, full.value);
        assert k == 0 ==> out == [] && m == s;
      }
    }
  }

  lemma ConcatNothing()
    ensures Concat([]) == []
  {
  }

  /** Redelivery: nothing stays retained, and each retained notification is parked, waiting or handed out. */
  lemma RedeliveredConserves(s: Slot, size: int, x: Note)
    requires size >= 1
    ensures var (t, out) := EnqueuedAll(Reclaimed(s).0, s.pending, size);
      t.pending == [] && InSlot(t, x) + Count(Concat(out), x) == InSlot(s, x)
  {
    hide Count, EnqueuedAll, Concat;
    var (t, out) := EnqueuedAll(Reclaimed(s).0, s.pending, size);
    if s.paused {
      EnqueuedAllPaused(Reclaimed(s).0, s.pending, size);
    } else {
      EnqueuedAllMeaning(Reclaimed(s).0, s.pending, size);
    }
    ConcatNothing();
    CountNothing(x);
    CountAppend(s.queued, s.pending, x);
    CountAppend(s.items, s.pending, x);
    CountAppend(Concat(out), t.items, x);
  }

  // ------------------------------------------------- as runs of the sections

  function Deliveries(batches: seq<seq<Note>>): seq<Job> {
    seq(|batches|, i requires 0 <= i < |batches| => Delivering(batches[i], AtPark, [], 0))
  }

  /** One notification of a feeding job, parked or pushed. */
  function FeedOne(paused: bool, j: nat, size: int): seq<Step> {
    if paused then [FeedPark(j)] else [FeedPark(j), FeedPush(j, size)]
  }

  function FeedEach(paused: bool, j: nat, size: int, count: nat): seq<Step> {
    if count == 0 then [] else FeedOne(paused, j, size) + FeedEach(paused, j, size, count - 1)
  }

  /** The world with another slot and other jobs. */
  function With(w: World, slot: Slot, jobs: seq<Job>): World {
    w.(slot := slot, jobs := jobs)
  }

  lemma FeedOneIsEnqueue(c: Config, w: World, j: nat, size: int)
    requires size >= 1 && j < |w.jobs| && w.jobs[j].Feeding? && w.jobs[j].todo != [] && !w.jobs[j].passed
    ensures var todo, tr := w.jobs[j].todo, FeedOne(w.slot.paused, j, size);
      var (t, full) := Enqueued(w.slot, todo[0], size);
      && LegalRun(c, w, tr)
      && Run(c, w, tr) == With(w, t, w.jobs[j := Feeding(todo[1..], false)] + Deliveries(Batches(full)))
  {
    var todo, tr := w.jobs[j].todo, FeedOne(w.slot.paused, j, size);
    var m := Apply(c, w, tr[0]);
    assert w.given + [] == w.given && w.acked + [] == w.acked && w.dropped + [] == w.dropped;
    if w.slot.paused {
      assert tr[1..] == [];
      assert m == With(w, Enqueued(w.slot, todo[0], size).0, w.jobs[j := Feeding(todo[1..], false)] + []);
    } else {
      assert tr[1..] == [tr[1]] && [tr[1]][1..] == [];
      assert m == With(w, w.slot, w.jobs[j := Feeding(todo, true)] + []);
      assert m.jobs == w.jobs[j := Feeding(todo, true)];
      var e := Apply(c, m, tr[1]);
      var (t, full) := Enqueued(w.slot, todo[0], size);
      assert Births(m, tr[1]) == Deliveries(Batches(full));
      assert m.jobs[j := Feeding(todo[1..], false)] == w.jobs[j := Feeding(todo[1..], false)];
      assert e == With(w, t, w.jobs[j := Feeding(todo[1..], false)] + Deliveries(Batches(full)));
      assert LegalRun(c, e, []) && Run(c, e, []) == e;
      assert LegalRun(c, m, [tr[1]]) && Run(c, m, [tr[1]]) == e;
    }
  }

  lemma {:induction false} RunConcat(c: Config, w: World, a: seq<Step>, b: seq<Step>)
    requires LegalRun(c, w, a) && LegalRun(c, Run(c, w, a), b)
    ensures LegalRun(c, w, a + b) && Run(c, w, a + b) == Run(c, Run(c, w, a), b)
    decreases |a|
  {
    hide Apply, Enabled;
    if a == [] {
      assert a + b == b;
    } else {
      assert (a + b)[1..] == a[1..] + b;
      RunConcat(c, Apply(c, w, a[0]), a[1..], b);
    }
  }

  /** EnqueuedAll, from the front. */
  lemma {:induction false} EnqueuedAllFirst(s: Slot, todo: seq<Note>, size: int)
    requires todo != []
    ensures var (m, full) := Enqueued(s, todo[0], size);
      var (t, out) := EnqueuedAll(m, todo[1..], size);
      EnqueuedAll(s, todo, size) == (t, Batches(full) + out)
    decreases |todo|
  {
    hide Enqueued;
    var k := |todo| - 1;
    if k == 0 {
      assert todo[..k] == [] && todo[1..] == [];
      var (m, full) := Enqueued(s, todo[0], size);
      assert EnqueuedAll(s, todo[..k], size) == (s, []) && EnqueuedAll(m, todo[1..], size) == (m, []);
      assert [] + Batches(full) == Batches(full) + [];
    } else {
      EnqueuedAllFirst(s, todo[..k], size);
      assert todo[..k][1..] == todo[1..][..k - 1] && todo[1..][k - 1] == todo[k] && todo[..k][0] == todo[0];
      var (m, full) := Enqueued(s, todo[0], size);
      var (u, out) := EnqueuedAll(m, todo[1..][..k - 1], size);
      assert EnqueuedAll(s, todo[..k], size) == (u, Batches(full) + out);
      var (t, last) := Enqueued(u, todo[k], size);
      assert Batches(full) + (out + Batches(last)) == (Batches(full) + out) + Batches(last);
      assert out + [] == out && Batches(full) + out + [] == Batches(full) + out;
    }
  }

  lemma DeliveriesConcat(jobs: seq<Job>, a: seq<seq<Note>>, b: seq<seq<Note>>)
    ensures jobs + Deliveries(a) + Deliveries(b) == jobs + Deliveries(a + b)
  {
  }

  lemma {:induction false} FeedEachIsEnqueueAll(c: Config, w: World, j: nat, size: int)
    requires size >= 1 && j < |w.jobs| && w.jobs[j].Feeding? && !w.jobs[j].passed
    ensures var todo := w.jobs[j].todo;
      var tr := FeedEach(w.slot.paused, j, size, |todo|);
      var (t, out) := EnqueuedAll(w.slot, todo, size);
      && LegalRun(c, w, tr)
      && Run(c, w, tr) == With(w, t, w.jobs[j := Feeding([], false)] + Deliveries(out))
    decreases |w.jobs[j].todo|
  {
    hide Apply, Enabled, Enqueued;
    var todo := w.jobs[j].todo;
    if todo == [] {
      assert w.jobs[j := Feeding([], false)] + Deliveries([]) == w.jobs;
    } else {
      var one := FeedOne(w.slot.paused, j, size);
      FeedOneIsEnqueue(c, w, j, size);
      var (m, full) := Enqueued(w.slot, todo[0], size);
      var v := Run(c, w, one);
      EnqueuedMeaning(w.slot, todo[0], size);
      FeedEachIsEnqueueAll(c, v, j, size);
      RunConcat(c, w, one, FeedEach(w.slot.paused, j, size, |todo| - 1));
      EnqueuedAllFirst(w.slot, todo, size);
      var (t, out) := EnqueuedAll(m, todo[1..], size);
      var born := Deliveries(Batches(full));
      assert v.jobs[j := Feeding([], false)] == w.jobs[j := Feeding([], false)] + born;
      DeliveriesConcat(w.jobs[j := Feeding([], false)], Batches(full), out);
    }
  }

  /** A call of Enqueue that nothing disturbs is a run: the offer, the look at the pause, and the push if there is
      none. */
  lemma EnqueueIsRun(c: Config, w: World, n: Note, size: int)
    requires size >= 1
    ensures var tr := [Offer(n)] + FeedOne(w.slot.paused, |w.jobs|, size);
      var (t, full) := Enqueued(w.slot, n, size);
      && LegalRun(c, w, tr)
      && Run(c, w, tr) ==
         With(w, t, w.jobs + [Feeding([], false)] + Deliveries(Batches(full))).(given := w.given + [n])
  {
    hide Enqueued;
    var v := Apply(c, w, Offer(n));
    assert v == With(w, w.slot, w.jobs + [Feeding([n], false)]).(given := w.given + [n]);
    FeedOneIsEnqueue(c, v, |w.jobs|, size);
    assert [n][1..] == [];
    assert v.jobs[|w.jobs| := Feeding([n][1..], false)] == w.jobs + [Feeding([], false)];
    assert [Offer(n)][1..] == [];
    RunConcat(c, w, [Offer(n)], FeedOne(w.slot.paused, |w.jobs|, size));
  }

  /** A redelivery that nothing disturbs is a run: the retained sequence is taken, then fed one by one. */
  lemma RedeliverIsRun(c: Config, w: World, j: nat, size: int)
    requires size >= 1 && j < |w.jobs| && w.jobs[j].Activating?
    ensures var tr := [Redeliver(j)] + FeedEach(w.slot.paused, j, size, |w.slot.pending|);
      var (t, out) := EnqueuedAll(Reclaimed(w.slot).0, w.slot.pending, size);
      && LegalRun(c, w, tr)
      && Run(c, w, tr) == With(w, t, w.jobs[j := Feeding([], false)] + Deliveries(out))
  {
    hide EnqueuedAll;
    var v := Apply(c, w, Redeliver(j));
    assert w.given + [] == w.given && w.acked + [] == w.acked && w.dropped + [] == w.dropped;
    assert v == With(w, Reclaimed(w.slot).0, w.jobs[j := Feeding(w.slot.pending, false)] + []);
    FeedEachIsEnqueueAll(c, v, j, size);
    assert v.jobs[j := Feeding([], false)] == w.jobs[j := Feeding([], false)];
    assert [Redeliver(j)][1..] == [];
    RunConcat(c, w, [Redeliver(j)], FeedEach(w.slot.paused, j, size, |w.slot.pending|));
  }

  // -------------------------------------------------------- one delivery

  /** The world a delivery of one batch leaves when it ends this way. */
  function Ended(w: World, j: nat, batch: seq<Note>, e: Ending): World
    requires j < |w.jobs|
  {
    var done := w.(jobs := w.jobs[j := Over]);
    match e
    case Parked => done.(slot := w.slot.(queued := w.slot.queued + batch))
    case Acked(_) => done.(acked := w.acked + batch)
    case Abandoned(_) => done.(dropped := w.dropped + batch)
    case Exhausted => done.(slot := w.slot.(pending := w.slot.pending + batch), active := w.active && !w.alive)
  }

  /** The sections of a delivery from attempt k on, when send says which attempts are acknowledged. */
  function Attempts(c: Config, alive: bool, send: nat -> bool, j: nat, k: nat): seq<Step>
    decreases |c.schedule| + 1 - k
  {
    if send(k) then [Send(j, true)]
    else if Wait(c, k + 1).None? then [Send(j, false), Retain(j), Deactivate(j)]
    else [Send(j, false), Check(j)] + if alive then Attempts(c, alive, send, j, k + 1) else []
  }

  lemma RunOne(c: Config, w: World, st: Step)
    requires Enabled(w, st)
    ensures LegalRun(c, w, [st]) && Run(c, w, [st]) == Apply(c, w, st)
  {
    hide Apply, Enabled;
    assert [st][1..] == [];
    assert Run(c, Apply(c, w, st), []) == Apply(c, w, st);
  }

  /** A step of a delivery starts nothing and offers nothing. */
  lemma DeliveryStep(c: Config, w: World, st: Step, j: nat)
    requires Enabled(w, st) && Actor(st) == Some(j)
    requires st.DeliverPark? || st.Send? || st.Check? || st.Retain? || st.Deactivate?
    ensures Apply(c, w, st) ==
            w.(slot := SlotAfter(w, st), jobs := w.jobs[j := JobAfter(c, w, st)],
               active := if st.Deactivate? then w.active && !w.alive else w.active,
               acked := w.acked + AckedBy(w, st), dropped := w.dropped + DroppedBy(w, st))
  {
    hide SlotAfter, JobAfter, AckedBy, DroppedBy;
    assert w.given + [] == w.given;
    assert w.jobs[j := JobAfter(c, w, st)] + [] == w.jobs[j := JobAfter(c, w, st)];
  }

  lemma AcknowledgedNow(c: Config, w: World, j: nat, batch: seq<Note>, k: nat)
    requires j < |w.jobs| && w.jobs[j] == Delivering(batch, AtSend(k), [], 0)
    ensures LegalRun(c, w, [Send(j, true)]) && Run(c, w, [Send(j, true)]) == Ended(w, j, batch, Acked(k))
  {
    DeliveryStep(c, w, Send(j, true), j);
    RunOne(c, w, Send(j, true));
    assert w.dropped + [] == w.dropped;
  }

  lemma FailedNow(c: Config, w: World, j: nat, batch: seq<Note>, k: nat)
    requires j < |w.jobs| && w.jobs[j] == Delivering(batch, AtSend(k), [], 0)
    ensures var stage := if Wait(c, k + 1).Some? then AtCheck(k + 1) else AtRetain;
      && LegalRun(c, w, [Send(j, false)])
      && Run(c, w, [Send(j, false)]) == w.(jobs := w.jobs[j := Delivering(batch, stage, [], 0)])
  {
    hide Wait;
    DeliveryStep(c, w, Send(j, false), j);
    RunOne(c, w, Send(j, false));
    assert w.dropped + [] == w.dropped && w.acked + [] == w.acked;
  }

  lemma CheckedNow(c: Config, w: World, j: nat, batch: seq<Note>, k: nat)
    requires j < |w.jobs| && w.jobs[j] == Delivering(batch, AtCheck(k), [], 0)
    ensures LegalRun(c, w, [Check(j)])
    ensures Run(c, w, [Check(j)]) ==
            if w.alive then w.(jobs := w.jobs[j := Delivering(batch, AtSend(k), [], 0)])
            else Ended(w, j, batch, Abandoned(k))
  {
    DeliveryStep(c, w, Check(j), j);
    RunOne(c, w, Check(j));
    assert w.dropped + [] == w.dropped && w.acked + [] == w.acked;
  }

  lemma GivenUpNow(c: Config, w: World, j: nat, batch: seq<Note>)
    requires j < |w.jobs| && w.jobs[j] == Delivering(batch, AtRetain, [], 0)
    ensures LegalRun(c, w, [Retain(j), Deactivate(j)])
    ensures Run(c, w, [Retain(j), Deactivate(j)]) == Ended(w, j, batch, Exhausted)
  {
    DeliveryStep(c, w, Retain(j), j);
    RunOne(c, w, Retain(j));
    var m := Apply(c, w, Retain(j));
    assert w.dropped + [] == w.dropped && w.acked + [] == w.acked;
    DeliveryStep(c, m, Deactivate(j), j);
    RunOne(c, m, Deactivate(j));
    RunConcat(c, w, [Retain(j)], [Deactivate(j)]);
    assert [Retain(j)] + [Deactivate(j)] == [Retain(j), Deactivate(j)];
  }

  lemma {:induction false} AttemptsEnd(c: Config, w: World, j: nat, batch: seq<Note>, k: nat, send: nat -> bool,
                                       alive: nat -> bool)
    requires j < |w.jobs| && w.jobs[j] == Delivering(batch, AtSend(k), [], 0) && forall i :: alive(i) == w.alive
    ensures var e := if send(k) then Acked(k) else FromRetry(c, k + 1, send, alive);
      && LegalRun(c, w, Attempts(c, w.alive, send, j, k))
      && Run(c, w, Attempts(c, w.alive, send, j, k)) == Ended(w, j, batch, e)
    decreases |c.schedule| + 1 - k
  {
    hide Apply, Enabled;
    if send(k) {
      AcknowledgedNow(c, w, j, batch, k);
    } else {
      FailedNow(c, w, j, batch, k);
      var m := Run(c, w, [Send(j, false)]);
      if Wait(c, k + 1).None? {
        GivenUpNow(c, m, j, batch);
        RunConcat(c, w, [Send(j, false)], [Retain(j), Deactivate(j)]);
        assert [Send(j, false)] + [Retain(j), Deactivate(j)] == [Send(j, false), Retain(j), Deactivate(j)];
        assert m.jobs[j := Over] == w.jobs[j := Over];
      } else {
        CheckedNow(c, m, j, batch, k + 1);
        RunConcat(c, w, [Send(j, false)], [Check(j)]);
        assert [Send(j, false)] + [Check(j)] == [Send(j, false), Check(j)];
        assert m.jobs[j := Over] == w.jobs[j := Over];
        if w.alive {
          var n := Run(c, m, [Check(j)]);
          AttemptsEnd(c, n, j, batch, k + 1, send, alive);
          RunConcat(c, w, [Send(j, false), Check(j)], Attempts(c, w.alive, send, j, k + 1));
          assert n.jobs[j := Over] == w.jobs[j := Over];
        } else {
          assert [Send(j, false), Check(j)] + [] == [Send(j, false), Check(j)];
        }
      }
    }
  }

  /** How often a run sends. */
  function SendsOf(tr: seq<Step>): nat {
    if tr == [] then 0 else (if tr[0].Send? then 1 else 0) + SendsOf(tr[1..])
  }

  lemma {:induction false} AttemptsCounted(c: Config, j: nat, k: nat, send: nat -> bool, alive: nat -> bool,
                                           there: bool)
    requires k <= Retries(c) && forall i :: alive(i) == there
    ensures var e := if send(k) then Acked(k) else FromRetry(c, k + 1, send, alive);
      k + SendsOf(Attempts(c, there, send, j, k)) == SendsIn(c, e)
    decreases |c.schedule| + 1 - k
  {
    WaitExistsIff(c, k + 1);
    var tr := Attempts(c, there, send, j, k);
    if send(k) {
      assert tr[1..] == [];
    } else if Wait(c, k + 1).None? {
      assert [Deactivate(j)][1..] == [] && SendsOf([Deactivate(j)]) == 0;
      assert [Retain(j), Deactivate(j)][1..] == [Deactivate(j)] && SendsOf([Retain(j), Deactivate(j)]) == 0;
      assert tr[1..] == [Retain(j), Deactivate(j)];
    } else {
      var rest := if there then Attempts(c, there, send, j, k + 1) else [];
      assert ([Check(j)] + rest)[1..] == rest;
      assert SendsOf([Check(j)] + rest) == SendsOf(rest);
      assert tr[1..] == [Check(j)] + rest;
      if there {
        AttemptsCounted(c, j, k + 1, send, alive, there);
      }
    }
  }

  /** A delivery that nothing disturbs is a run: the look at the pause and the attempts, ending as EndingOf says, with
      the batch parked, acknowledged, dropped, or retained and the subscription taken down, after SendsIn sends. */
  lemma DeliverIsRun(c: Config, w: World, j: nat, batch: seq<Note>, send: nat -> bool, alive: nat -> bool)
    requires j < |w.jobs| && w.jobs[j] == Delivering(batch, AtPark, [], 0) && forall i :: alive(i) == w.alive
    ensures var tr := [DeliverPark(j)] + if w.slot.paused then [] else Attempts(c, w.alive, send, j, 0);
      var e := EndingOf(c, w.slot.paused, send, alive);
      LegalRun(c, w, tr) && Run(c, w, tr) == Ended(w, j, batch, e) && SendsOf(tr) == SendsIn(c, e)
  {
    hide Apply, Enabled, Attempts, Ended;
    ParkedNow(c, w, j, batch);
    AttemptsCounted(c, j, 0, send, alive, w.alive);
    var rest := if w.slot.paused then [] else Attempts(c, w.alive, send, j, 0);
    assert ([DeliverPark(j)] + rest)[1..] == rest;
    if w.slot.paused {
      assert [DeliverPark(j)] + [] == [DeliverPark(j)];
    } else {
      var m := Run(c, w, [DeliverPark(j)]);
      AttemptsEnd(c, m, j, batch, 0, send, alive);
      RunConcat(c, w, [DeliverPark(j)], Attempts(c, w.alive, send, j, 0));
      SameEnd(w, j, batch, Delivering(batch, AtSend(0), [], 0), EndingOf(c, false, send, alive));
    }
  }

  lemma ParkedNow(c: Config, w: World, j: nat, batch: seq<Note>)
    requires j < |w.jobs| && w.jobs[j] == Delivering(batch, AtPark, [], 0)
    ensures LegalRun(c, w, [DeliverPark(j)])
    ensures Run(c, w, [DeliverPark(j)]) ==
            if w.slot.paused then Ended(w, j, batch, Parked)
            else w.(jobs := w.jobs[j := Delivering(batch, AtSend(0), [], 0)])
  {
    DeliveryStep(c, w, DeliverPark(j), j);
    RunOne(c, w, DeliverPark(j));
    assert w.dropped + [] == w.dropped && w.acked + [] == w.acked;
  }

  /** How far the delivery had got does not show at its end. */
  lemma SameEnd(w: World, j: nat, batch: seq<Note>, job: Job, e: Ending)
    requires j < |w.jobs|
    ensures Ended(w.(jobs := w.jobs[j := job]), j, batch, e) == Ended(w, j, batch, e)
  {
    assert w.jobs[j := job][j := Over] == w.jobs[j := Over];
  }

  // -------------------------------------------------- kept in order of arrival

  /** What a step puts behind the pause. */
  function ParkedBy(w: World, st: Step): seq<Note>
    requires Enabled(w, st)
  {
    match st
    case FeedPark(j) => if w.slot.paused then [w.jobs[j].todo[0]] else []
    case DeliverPark(j) => if w.slot.paused then w.jobs[j].batch else []
    case _ => []
  }

  /** What a step retains. */
  function RetainedBy(w: World, st: Step): seq<Note>
    requires Enabled(w, st)
  {
    if st.Retain? then w.jobs[st.j].batch else []
  }

  ghost function ParkedIn(c: Config, w: World, tr: seq<Step>): seq<Note>
    requires LegalRun(c, w, tr)
    decreases |tr|
  {
    if tr == [] then [] else ParkedBy(w, tr[0]) + ParkedIn(c, Apply(c, w, tr[0]), tr[1..])
  }

  ghost function RetainedIn(c: Config, w: World, tr: seq<Step>): seq<Note>
    requires LegalRun(c, w, tr)
    decreases |tr|
  {
    if tr == [] then [] else RetainedBy(w, tr[0]) + RetainedIn(c, Apply(c, w, tr[0]), tr[1..])
  }

  /** Only a resume takes anything from behind a pause, and it takes all; only a redelivery takes what is retained. */
  lemma StepInOrder(c: Config, w: World, st: Step)
    requires Enabled(w, st)
    ensures var s' := Apply(c, w, st).slot;
      && s'.queued == (if st.Resume? then [] else w.slot.queued + ParkedBy(w, st))
      && s'.pending == (if st.Redeliver? then [] else w.slot.pending + RetainedBy(w, st))
      && s'.paused == (st.Pause? || (w.slot.paused && !st.Resume?))
  {
    hide JobsAfter, AckedBy, DroppedBy, GivenBy;
    assert w.slot.queued + [] == w.slot.queued && w.slot.pending + [] == w.slot.pending;
  }

  /** Whatever runs in between, what piles up behind a pause is in order of arrival until a resume takes it. */
  lemma {:induction false} ParkedInOrder(c: Config, w: World, tr: seq<Step>)
    requires LegalRun(c, w, tr) && forall i :: 0 <= i < |tr| ==> !tr[i].Resume?
    ensures Run(c, w, tr).slot.queued == w.slot.queued + ParkedIn(c, w, tr)
    decreases |tr|
  {
    hide Apply, Enabled, ParkedBy;
    if tr != [] {
      StepInOrder(c, w, tr[0]);
      ParkedInOrder(c, Apply(c, w, tr[0]), tr[1..]);
    }
  }

  /** And what failed deliveries retain, until a redelivery takes it. */
  lemma {:induction false} RetainedInOrder(c: Config, w: World, tr: seq<Step>)
    requires LegalRun(c, w, tr) && forall i :: 0 <= i < |tr| ==> !tr[i].Redeliver?
    ensures Run(c, w, tr).slot.pending == w.slot.pending + RetainedIn(c, w, tr)
    decreases |tr|
  {
    hide Apply, Enabled, RetainedBy;
    if tr != [] {
      StepInOrder(c, w, tr[0]);
      RetainedInOrder(c, Apply(c, w, tr[0]), tr[1..]);
    }
  }
}
