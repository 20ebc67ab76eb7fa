/** internal/bankingcircle/dispatcher.go: the state the dispatcher keeps, and its critical sections. */
module Dispatching {
  import opened Text
  import opened Delivery

  datatype Note = Note(eventId: string, kind: string, body: string)

  /** All the dispatcher holds for one subscription. */
  datatype Slot = Slot(items: seq<Note>, armed: bool, pending: seq<Note>, paused: bool, queued: seq<Note>)

  const EMPTY: Slot := Slot([], false, [], false, [])

  function BehindPause(s: Slot, batch: seq<Note>): Slot {
    if s.paused then s.(queued := s.queued + batch) else s
  }

  /** Enqueue under the lock: the new slot, and the batch that became full. */
  function Pushed(s: Slot, n: Note, size: int): (Slot, Option<seq<Note>>) {
    var items := s.items + [n];
    if |items| >= size then (s.(items := [], armed := false), Some(items))
    else (s.(items := items, armed := true), None)
  }

  function Taken(s: Slot): (Slot, seq<Note>) {
    (s.(items := [], armed := false), s.items)
  }

  function Retained(s: Slot, batch: seq<Note>): Slot {
    s.(pending := s.pending + batch)
  }

  function Reclaimed(s: Slot): (Slot, seq<Note>) {
    (s.(pending := []), s.pending)
  }

  function Resumed(s: Slot): (Slot, seq<Note>) {
    (s.(paused := false, queued := []), s.queued)
  }

  /** Enqueue, undisturbed. */
  function Enqueued(s: Slot, n: Note, size: int): (Slot, Option<seq<Note>>) {
    if s.paused then (BehindPause(s, [n]), None) else Pushed(s, n, size)
  }

  /** Enqueue for each, undisturbed: the slot, and the batches that became full, in order. */
  function EnqueuedAll(s: Slot, todo: seq<Note>, size: int): (Slot, seq<seq<Note>>) {
    if todo == [] then (s, [])
    else
      var (m, out) := EnqueuedAll(s, todo[..|todo| - 1], size);
      var (r, full) := Enqueued(m, todo[|todo| - 1], size);
      (r, match full case None => out case Some(b) => out + [b])
  }

  // ------------------------------------------------------------------ chunks

  function Least(a: nat, b: nat): nat {
    if a < b then a else b
  }

  /** The batches a release is cut into. */
  function Chunks(held: seq<Note>, size: int): seq<seq<Note>>
    requires size >= 1
    decreases |held|
  {
    if held == [] then []
    else
      var n := Least(size, |held|);
      [held[..n]] + Chunks(held[n..], size)
  }

  function Concat(bs: seq<seq<Note>>): seq<Note> {
    if bs == [] then [] else bs[0] + Concat(bs[1..])
  }

  /** In order, nothing lost or repeated; every chunk full except perhaps the last, which is not empty. */
  lemma {:induction false} ChunksReplay(held: seq<Note>, size: int)
    requires size >= 1
    ensures Concat(Chunks(held, size)) == held
    ensures var cs := Chunks(held, size);
            && (forall i :: 0 <= i < |cs| - 1 ==> |cs[i]| == size)
            && (cs != [] ==> 1 <= |cs[|cs| - 1]| <= size)
    decreases |held|
  {
    if held != [] {
      var n := Least(size, |held|);
      ChunksReplay(held[n..], size);
      assert held == held[..n] + held[n..];
      assert Chunks(held, size)[1..] == Chunks(held[n..], size);
    }
  }

  lemma ChunksOfNothing(size: int)
    requires size >= 1
    ensures Chunks([], size) == []
  {
  }

  lemma ChunkAt(held: seq<Note>, start: nat, size: int)
    requires size >= 1 && start < |held|
    ensures var end := Least(start + size, |held|);
            Chunks(held[start..], size) == [held[start..end]] + Chunks(held[end..], size)
  {
    var n := Least(size, |held| - start);
    assert held[start..][..n] == held[start..start + n];
    assert held[start..][n..] == held[start + n..];
  }

  // ------------------------------------------------------------------- class

  datatype Queue = Queue(items: seq<Note>, armed: bool)

  class Dispatcher {
    const cfg: Config
    var queues: map<string, Queue>
    var pending: map<string, seq<Note>>
    var paused: map<string, bool>
    var queued: map<string, seq<Note>>

    ghost function SlotOf(id: string): Slot
      reads this
    {
      Slot(if id in queues then queues[id].items else [], id in queues && queues[id].armed,
           if id in pending then pending[id] else [],
           id in paused && paused[id],
           if id in queued then queued[id] else [])
    }

    constructor (cfg: Config)
      ensures this.cfg == cfg && forall id :: SlotOf(id) == EMPTY
    {
      this.cfg := cfg;
      queues, pending, paused, queued := map[], map[], map[], map[];
    }

    /** Put a batch behind the pause, if there is one. */
    method Park(id: string, batch: seq<Note>) returns (parked: bool)
      modifies this`queued
      ensures parked == old(SlotOf(id)).paused
      ensures SlotOf(id) == BehindPause(old(SlotOf(id)), batch)
      ensures SlotOf(id).queued == old(SlotOf(id)).queued + if parked then batch else []
      ensures forall k :: k != id ==> SlotOf(k) == old(SlotOf(k))
    {
      if id !in paused || !paused[id] {
        return false;
      }
      queued := queued[id := (if id in queued then queued[id] else []) + batch];
      return true;
    }

    /** max is the subscription's own setting; full is the batch to hand to a delivery. */
    method Enqueue(id: string, max: int, n: Note) returns (full: Option<seq<Note>>)
      modifies this
      ensures (SlotOf(id), full) == Enqueued(old(SlotOf(id)), n, BatchSize(cfg, max))
      ensures forall k :: k != id ==> SlotOf(k) == old(SlotOf(k))
    {
      var parked := Park(id, [n]);
      if parked {
        return None;
      }
      var size := BatchSize(cfg, max);
      var q := if id in queues then queues[id] else Queue([], false);
      q := q.(items := q.items + [n]);
      if |q.items| >= size {
        var batch := q.items;
        queues := queues[id := Queue([], false)];
        return Some(batch);
      }
      if !q.armed {
        q := q.(armed := true);
      }
      queues := queues[id := q];
      return None;
    }

    /** flush up to the store lookup: the batch taken, empty when there was nothing. */
    method Flush(id: string) returns (batch: seq<Note>)
      modifies this`queues
      ensures (SlotOf(id), batch) == Taken(old(SlotOf(id)))
      ensures batch == old(SlotOf(id)).items && SlotOf(id) == old(SlotOf(id)).(items := [], armed := false)
      ensures forall k :: k != id ==> SlotOf(k) == old(SlotOf(k))
    {
      if id !in queues || queues[id].items == [] {
        if id in queues && queues[id].armed {
          queues := queues[id := queues[id].(armed := false)];
        }
        return [];
      }
      batch := queues[id].items;
      queues := queues[id := Queue([], false)];
    }

    method Retain(id: string, batch: seq<Note>)
      modifies this`pending
      ensures SlotOf(id) == Retained(old(SlotOf(id)), batch)
      ensures SlotOf(id) == old(SlotOf(id)).(pending := old(SlotOf(id)).pending + batch)
      ensures forall k :: k != id ==> SlotOf(k) == old(SlotOf(k))
    {
      pending := pending[id := (if id in pending then pending[id] else []) + batch];
    }

    /** Re-queue everything retained; returns how many, and the batches that became full. */
    method Redeliver(id: string, max: int) returns (count: nat, batches: seq<seq<Note>>)
      modifies this
      ensures count == |old(SlotOf(id)).pending|
      ensures (SlotOf(id), batches) ==
              EnqueuedAll(Reclaimed(old(SlotOf(id))).0, old(SlotOf(id)).pending, BatchSize(cfg, max))
      ensures forall k :: k != id ==> SlotOf(k) == old(SlotOf(k))
    {
      hide Enqueued;
      var held := if id in pending then pending[id] else [];
      pending := pending - {id};
      ghost var s := SlotOf(id);
      assert s == Reclaimed(old(SlotOf(id))).0;
      batches := [];
      for i := 0 to |held|
        invariant (SlotOf(id), batches) == EnqueuedAll(s, held[..i], BatchSize(cfg, max))
        invariant forall k :: k != id ==> SlotOf(k) == old(SlotOf(k))
      {
        var full := Enqueue(id, max, held[i]);
        if full.Some? {
          batches := batches + [full.value];
        }
        assert held[..i + 1][..i] == held[..i];
      }
      assert held[..|held|] == held;
      count := |held|;
    }

    method Pause(id: string) returns (waiting: nat)
      modifies this`paused
      ensures SlotOf(id) == old(SlotOf(id)).(paused := true) && waiting == |SlotOf(id).queued|
      ensures forall k :: k != id ==> SlotOf(k) == old(SlotOf(k))
    {
      paused := paused[id := true];
      waiting := if id in queued then |queued[id]| else 0;
    }

    /** The release goroutine's loop: the batches it hands to deliverSync, in order. */
    static method Cut(held: seq<Note>, size: int) returns (batches: seq<seq<Note>>)
      requires size >= 1
      ensures batches == Chunks(held, size)
    {
      hide Chunks;
      batches := [];
      assert held[0..] == held;
      var start := 0;
      while start < |held|
        invariant 0 <= start
        invariant batches + Chunks(held[Least(start, |held|)..], size) == Chunks(held, size)
        decreases |held| - start
      {
        var end := start + size;
        if end > |held| {
          end := |held|;
        }
        ChunkAt(held, start, size);
        batches := batches + [held[start..end]];
        start := start + size;
      }
      assert held[|held|..] == [];
      ChunksOfNothing(size);
    }

    /** Lift the pause; the batches, in the order the release goroutine delivers them. */
    method Resume(id: string, max: int) returns (count: nat, batches: seq<seq<Note>>)
      modifies this`paused, this`queued
      ensures SlotOf(id) == old(SlotOf(id)).(paused := false, queued := [])
      ensures count == |old(SlotOf(id)).queued|
      ensures batches == Chunks(old(SlotOf(id)).queued, BatchSize(cfg, max))
      ensures forall k :: k != id ==> SlotOf(k) == old(SlotOf(k))
    {
      paused := paused - {id};
      var held := if id in queued then queued[id] else [];
      queued := queued - {id};
      count := |held|;
      batches := [];
      if |held| == 0 {
        return;
      }
      batches := Cut(held, BatchSize(cfg, max));
    }

    /** deliverSync: send says which attempts are acknowledged, alive at which retries the store
        still has the subscription. */
    method DeliverSync(id: string, batch: seq<Note>, send: nat -> bool, alive: nat -> bool)
      returns (ending: Ending, sends: nat, emails: seq<Email>, deactivate: bool)
      modifies this`queued, this`pending
      ensures ending == EndingOf(cfg, old(SlotOf(id)).paused, send, alive)
      ensures sends == SendsIn(cfg, ending)
      ensures emails == Emails(cfg, LastEmailed(cfg, ending))
      ensures deactivate <==> ending.Exhausted?
      ensures SlotOf(id) ==
              if ending.Parked? then BehindPause(old(SlotOf(id)), batch)
              else if ending.Exhausted? then Retained(old(SlotOf(id)), batch)
              else old(SlotOf(id))
      ensures forall k :: k != id ==> SlotOf(k) == old(SlotOf(k))
    {
      hide EmailFor, Wait, Retries;
      sends, emails, deactivate := 0, [], false;
      var parked := Park(id, batch);
      if parked {
        return Parked, 0, [], false;
      }
      sends := 1;
      if send(0) {
        return Acked(0), sends, [], false;
      }
      var retry := 1;
      while true
        invariant 1 <= retry <= Retries(cfg) + 1
        invariant SlotOf(id) == old(SlotOf(id)) && forall k :: k != id ==> SlotOf(k) == old(SlotOf(k))
        invariant FromRetry(cfg, retry, send, alive) == EndingOf(cfg, old(SlotOf(id)).paused, send, alive)
        invariant sends == retry
        invariant emails == Emails(cfg, retry - 1)
        decreases Retries(cfg) + 1 - retry
      {
        WaitExistsIff(cfg, retry);
        var wait := Wait(cfg, retry);
        if wait.None? {
          break;
        }
        if !alive(retry) {
          return Abandoned(retry), sends, emails, false;
        }
        var kind := EmailFor(cfg, retry);
        if kind != "" {
          emails := emails + [Email(kind, retry)];
        }
        sends := sends + 1;
        if send(retry) {
          return Acked(retry), sends, emails, false;
        }
        retry := retry + 1;
      }
      Retain(id, batch);
      return Exhausted, sends, emails, true;
    }
  }
}
