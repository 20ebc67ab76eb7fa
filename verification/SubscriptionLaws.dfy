/** What the subscription store keeps over any sequence of calls. */
module SubscriptionLaws {
  import opened Text
  import opened Sorting
  import opened RowVersions
  import opened Subscriptions

  datatype Op =
    | Create(p: CreateParams, newId: string)
    | Update(id: string, ifMatch: string, u: UpdateParams)
    | SetActive(id: string, ifMatch: string, active: bool)
    | Deactivate(id: string, reason: string)
    | Delete(id: string, ifMatch: string)
    | AddEvent(id: string, eventType: string, evId: string, targets: seq<Target>)
    | ReplaceTargets(evId: string, ifMatch: string, targets: seq<Target>)
    | DeleteEvent(evId: string, ifMatch: string)

  function Do(st: Store, op: Op): (Store, Option<StoreError>) {
    match op
    case Create(p, id) =>
      (match Created(st, p, id)
       case Ok(s) => (s, None)
       case Err(e) => (st, Some(e)))
    case Update(id, ifMatch, u) => Updated(st, id, ifMatch, u)
    case SetActive(id, ifMatch, active) => SetActiveResult(st, id, ifMatch, active)
    case Deactivate(id, reason) => Deactivated(st, id, reason)
    case Delete(id, ifMatch) => Deleted(st, id, ifMatch)
    case AddEvent(id, eventType, evId, targets) => EventAdded(st, id, eventType, evId, targets)
    case ReplaceTargets(evId, ifMatch, targets) => TargetsReplaced(st, evId, ifMatch, targets)
    case DeleteEvent(evId, ifMatch) => EventDeleted(st, evId, ifMatch)
  }

  /** Ids are fresh when they are handed out. */
  predicate FreshOp(st: Store, op: Op) {
    match op
    case Create(_, id) => id !in st.subs
    case AddEvent(_, _, evId, _) => evId !in st.events
    case _ => true
  }

  ghost predicate FreshRun(st: Store, ops: seq<Op>)
    decreases |ops|
  {
    ops == [] || (FreshOp(st, ops[0]) && FreshRun(Do(st, ops[0]).0, ops[1..]))
  }

  function DoAll(st: Store, ops: seq<Op>): Store
    decreases |ops|
  {
    if ops == [] then st else DoAll(Do(st, ops[0]).0, ops[1..])
  }

  const NEW_STORE: Store := Store(map[], map[], 0)

  // -------------------------------------------------------------- invariant

  ghost predicate Filed(st: Store) {
    && (forall id :: id in st.subs ==> st.subs[id].id == id)
    && (forall e :: e in st.events ==> st.events[e].id == e)
  }

  ghost predicate EndpointsUnique(st: Store) {
    forall a, b :: a in st.subs && b in st.subs && st.subs[a].endpoint == st.subs[b].endpoint ==> a == b
  }

  /** The event index is the disjoint union of the subscriptions' lists. */
  ghost predicate Indexed(st: Store) {
    && (forall id :: id in st.subs ==> Distinct(st.subs[id].events))
    && (forall id, e :: id in st.subs && e in st.subs[id].events ==>
      e in st.events && st.events[e].subscriptionId == id)
    && (forall e :: e in st.events ==>
          st.events[e].subscriptionId in st.subs && e in st.subs[st.events[e].subscriptionId].events)
  }

  predicate SameType(d: Event, e: Event) {
    d.subscriptionId == e.subscriptionId && EqualFold(d.eventType, e.eventType)
  }

  ghost predicate TypesUnique(st: Store) {
    forall d, e :: d in st.events && e in st.events && SameType(st.events[d], st.events[e]) ==> d == e
  }

  /** An event is active exactly as its subscription is, and flags agree with statuses. */
  ghost predicate FlagsAgree(st: Store) {
    && (forall id :: id in st.subs ==> st.subs[id].status == StatusOf(st.subs[id].isActive))
    && (forall e :: e in st.events && st.events[e].subscriptionId in st.subs ==>
          var s := st.subs[st.events[e].subscriptionId];
          st.events[e].isActive == s.isActive && st.events[e].status == s.status)
  }

  /** No two records ever carry the same mint. */
  ghost predicate VersionsUnique(st: Store) {
    && (forall a :: a in st.subs ==> 1 <= st.subs[a].version <= st.rowSeq)
    && (forall e :: e in st.events ==> 1 <= st.events[e].version <= st.rowSeq)
    && (forall a, b :: a in st.subs && b in st.subs && st.subs[a].version == st.subs[b].version ==> a == b)
    && (forall d, e :: d in st.events && e in st.events && st.events[d].version == st.events[e].version ==> d == e)
    && (forall a, e :: a in st.subs && e in st.events ==> st.subs[a].version != st.events[e].version)
  }

  ghost predicate BatchSizesAllowed(st: Store) {
    forall id :: id in st.subs ==> BatchSizeAllowed(st.subs[id].maxNotificationsPerMessage)
  }

  ghost predicate Consistent(st: Store) {
    && Filed(st) && EndpointsUnique(st) && Indexed(st) && TypesUnique(st)
    && FlagsAgree(st) && VersionsUnique(st) && BatchSizesAllowed(st)
  }

  // ------------------------------------------------- the loop of setActiveLocked

  /** What the loop over a subscription's events has done. */
  lemma {:induction false} EventsSetMeaning(st: Store, ids: seq<string>, active: bool)
    requires Distinct(ids) && forall i :: 0 <= i < |ids| ==> ids[i] in st.events
    ensures var m := EventsSet(st, ids, active);
      && m.subs == st.subs && m.events.Keys == st.events.Keys && m.rowSeq == st.rowSeq + |ids|
      && (forall e :: e in st.events && e !in ids ==> m.events[e] == st.events[e])
      && (forall i :: 0 <= i < |ids| ==>
            m.events[ids[i]] == st.events[ids[i]].(isActive := active, status := StatusOf(active),
              version := st.rowSeq + i + 1))
  {
    if ids != [] {
      var n := |ids| - 1;
      EventsSetMeaning(st, ids[..n], active);
      assert ids == ids[..n] + [ids[n]];
      assert ids[n] !in ids[..n];
    }
  }

  // --------------------------------------------- what each kind of edit keeps

  /** Same records, owners, types and lists. */
  ghost predicate SameShape(st: Store, t: Store) {
    && st.subs.Keys == t.subs.Keys && st.events.Keys == t.events.Keys
    && (forall id :: id in st.subs ==> t.subs[id].id == st.subs[id].id && t.subs[id].events == st.subs[id].events)
    && (forall e :: e in st.events ==>
          && t.events[e].id == st.events[e].id && t.events[e].subscriptionId == st.events[e].subscriptionId
          && t.events[e].eventType == st.events[e].eventType)
  }

  lemma ShapeKeepsIndexed(st: Store, t: Store)
    requires SameShape(st, t) && Filed(st) && Indexed(st)
    ensures Filed(t) && Indexed(t)
  {
    hide Distinct;
    forall id, e | id in t.subs && e in t.subs[id].events ensures e in t.events && t.events[e].subscriptionId == id {
      assert e in st.subs[id].events;
    }
  }

  lemma ShapeKeepsTypes(st: Store, t: Store)
    requires SameShape(st, t) && TypesUnique(st)
    ensures TypesUnique(t)
  {
    hide EqualFold;
    forall d, e | d in t.events && e in t.events && SameType(t.events[d], t.events[e]) ensures d == e {
      assert SameType(st.events[d], st.events[e]);
    }
  }

  lemma ShapeKeeps(st: Store, t: Store)
    requires SameShape(st, t) && Filed(st) && Indexed(st) && TypesUnique(st)
    ensures Filed(t) && Indexed(t) && TypesUnique(t)
  {
    hide SameShape, Filed, Indexed, TypesUnique;
    ShapeKeepsIndexed(st, t);
    ShapeKeepsTypes(st, t);
  }

  /** Some records got new mints, all different, the others keep theirs. */
  lemma VersionsKept(st: Store, t: Store)
    requires VersionsUnique(st) && t.rowSeq >= st.rowSeq
    requires t.subs.Keys <= st.subs.Keys && t.events.Keys <= st.events.Keys
    requires forall a :: a in t.subs ==>
      t.subs[a].version == st.subs[a].version || st.rowSeq < t.subs[a].version <= t.rowSeq
    requires forall e :: e in t.events ==>
      t.events[e].version == st.events[e].version || st.rowSeq < t.events[e].version <= t.rowSeq
    requires forall a, b :: a in t.subs && b in t.subs && t.subs[a].version == t.subs[b].version > st.rowSeq ==> a == b
    requires forall d, e ::
      d in t.events && e in t.events && t.events[d].version == t.events[e].version > st.rowSeq ==> d == e
    requires forall a, e :: a in t.subs && e in t.events && t.subs[a].version > st.rowSeq ==>
      t.subs[a].version != t.events[e].version
    ensures VersionsUnique(t)
  {
  }

  // One subscription rewritten, its identity and list kept.

  predicate Rewrites(st: Store, id: string, s: Subscription, version: nat) {
    && id in st.subs && s.id == st.subs[id].id && s.events == st.subs[id].events
    && version >= st.rowSeq && (s.version == st.subs[id].version || st.rowSeq < s.version <= version)
  }

  function PutSub(st: Store, id: string, s: Subscription, rowSeq: nat): Store {
    st.(subs := st.subs[id := s], rowSeq := rowSeq)
  }

  lemma PutSubShape(st: Store, id: string, s: Subscription, rowSeq: nat)
    requires Rewrites(st, id, s, rowSeq) && Filed(st) && Indexed(st) && TypesUnique(st)
    ensures var t := PutSub(st, id, s, rowSeq); Filed(t) && Indexed(t) && TypesUnique(t)
  {
    hide Filed, Indexed, TypesUnique;
    ShapeKeeps(st, PutSub(st, id, s, rowSeq));
  }

  lemma PutSubVersions(st: Store, id: string, s: Subscription, rowSeq: nat)
    requires Rewrites(st, id, s, rowSeq) && VersionsUnique(st)
    ensures VersionsUnique(PutSub(st, id, s, rowSeq))
  {
    VersionsKept(st, PutSub(st, id, s, rowSeq));
  }

  lemma PutSubEndpoints(st: Store, id: string, s: Subscription, rowSeq: nat)
    requires id in st.subs && EndpointsUnique(st)
    requires s.endpoint == st.subs[id].endpoint || !EndpointTaken(st, s.endpoint, id)
    ensures EndpointsUnique(PutSub(st, id, s, rowSeq))
  {
  }

  lemma PutSubFlags(st: Store, id: string, s: Subscription, rowSeq: nat)
    requires id in st.subs && FlagsAgree(st)
    requires s.isActive == st.subs[id].isActive && s.status == st.subs[id].status
    ensures FlagsAgree(PutSub(st, id, s, rowSeq))
  {
  }

  lemma PutSubConsistent(st: Store, id: string, s: Subscription, rowSeq: nat)
    requires Consistent(st) && Rewrites(st, id, s, rowSeq)
    requires s.isActive == st.subs[id].isActive && s.status == st.subs[id].status
    requires s.endpoint == st.subs[id].endpoint || !EndpointTaken(st, s.endpoint, id)
    requires BatchSizeAllowed(s.maxNotificationsPerMessage)
    ensures Consistent(PutSub(st, id, s, rowSeq))
  {
    hide Filed, Indexed, TypesUnique, VersionsUnique, FlagsAgree, EndpointsUnique, EndpointTaken;
    PutSubShape(st, id, s, rowSeq);
    PutSubVersions(st, id, s, rowSeq);
    PutSubEndpoints(st, id, s, rowSeq);
    PutSubFlags(st, id, s, rowSeq);
  }

  lemma UpdatedFieldsKeep(st: Store, sub: Subscription, u: UpdateParams)
    ensures var s := UpdatedFields(st, sub, u).0;
      s == sub.(endpoint := s.endpoint, encryptionKey := s.encryptionKey, email := s.email,
                maxNotificationsPerMessage := s.maxNotificationsPerMessage, mtlsEnabled := s.mtlsEnabled)
  {
    hide EndpointTaken, BatchSizeAllowed, WithEndpoint, WithKey, WithEmail, WithMax, WithMtls;
  }

  lemma UpdatedFieldsMeaning(st: Store, sub: Subscription, u: UpdateParams)
    ensures var s := UpdatedFields(st, sub, u).0;
      && s.id == sub.id && s.events == sub.events && s.isActive == sub.isActive && s.status == sub.status
      && s.version == sub.version
      && (s.endpoint == sub.endpoint || !EndpointTaken(st, s.endpoint, sub.id))
      && (|| s.maxNotificationsPerMessage == sub.maxNotificationsPerMessage
          || BatchSizeAllowed(s.maxNotificationsPerMessage))
  {
    hide EndpointTaken, BatchSizeAllowed;
    UpdatedFieldsKeep(st, sub, u);
    var s := UpdatedFields(st, sub, u).0;
    assert s.endpoint == sub.endpoint || !EndpointTaken(st, s.endpoint, sub.id);
  }

  lemma UpdatedConsistent(st: Store, id: string, ifMatch: string, u: UpdateParams)
    requires Consistent(st)
    ensures Consistent(Updated(st, id, ifMatch, u).0)
  {
    hide Matches, Token, UpdatedFields, EndpointTaken;
    hide Indexed, TypesUnique, EndpointsUnique, FlagsAgree, VersionsUnique;
    if Guard(st, id, ifMatch).None? {
      var (s, failed) := UpdatedFields(st, st.subs[id], u);
      UpdatedFieldsMeaning(st, st.subs[id], u);
      PutSubConsistent(st, id, s, st.rowSeq);
      PutSubConsistent(st, id, s.(version := st.rowSeq + 1), st.rowSeq + 1);
    }
  }

  // A new subscription, with no events yet.

  predicate Adds(st: Store, s: Subscription) {
    s.id !in st.subs && s.events == [] && s.version == st.rowSeq + 1
  }

  function AddSub(st: Store, s: Subscription): Store {
    st.(subs := st.subs[s.id := s], rowSeq := st.rowSeq + 1)
  }

  lemma AddSubIndexed(st: Store, s: Subscription)
    requires Adds(st, s) && Filed(st) && Indexed(st)
    ensures Filed(AddSub(st, s)) && Indexed(AddSub(st, s))
  {
  }

  lemma AddSubVersions(st: Store, s: Subscription)
    requires Adds(st, s) && VersionsUnique(st)
    ensures VersionsUnique(AddSub(st, s))
  {
  }

  lemma AddSubFlags(st: Store, s: Subscription)
    requires Adds(st, s) && FlagsAgree(st) && Indexed(st) && s.status == StatusOf(s.isActive)
    ensures FlagsAgree(AddSub(st, s))
  {
  }

  lemma AddSubTypes(st: Store, s: Subscription)
    requires TypesUnique(st)
    ensures TypesUnique(AddSub(st, s))
  {
    hide SameType;
  }

  lemma AddSubEndpoints(st: Store, s: Subscription)
    requires EndpointsUnique(st) && forall k :: k in st.subs ==> st.subs[k].endpoint != s.endpoint
    ensures EndpointsUnique(AddSub(st, s))
  {
  }

  lemma CreatedConsistent(st: Store, p: CreateParams, id: string)
    requires Consistent(st) && id !in st.subs && Created(st, p, id).Ok?
    ensures Consistent(Created(st, p, id).value)
  {
    hide Filed, Indexed, TypesUnique, VersionsUnique, FlagsAgree, EndpointsUnique, TrimSpace;
    var s := Created(st, p, id).value.subs[id];
    AddSubIndexed(st, s);
    AddSubVersions(st, s);
    AddSubFlags(st, s);
    AddSubTypes(st, s);
    AddSubEndpoints(st, s);
  }

  /** A subscription's list is exactly the events it owns. */
  lemma OwnEvents(st: Store, id: string)
    requires Indexed(st) && id in st.subs
    ensures Distinct(st.subs[id].events)
    ensures forall e :: e in st.subs[id].events ==> e in st.events
    ensures forall e :: e in st.events ==> (e in st.subs[id].events <==> st.events[e].subscriptionId == id)
  {
    hide Distinct;
  }

  /** The same, event by event: which are set, and each to its own mint. */
  lemma EventsSetEach(st: Store, ids: seq<string>, active: bool, e: string)
    requires Distinct(ids) && (forall i :: 0 <= i < |ids| ==> ids[i] in st.events) && e in st.events
    ensures var m := EventsSet(st, ids, active);
      && e in m.events
      && (e !in ids ==> m.events[e] == st.events[e])
      && (e in ids ==>
            && m.events[e] == st.events[e].(isActive := active, status := StatusOf(active),
              version := m.events[e].version)
            && exists i :: 0 <= i < |ids| && ids[i] == e && m.events[e].version == st.rowSeq + i + 1)
  {
    hide EventsSet, Distinct;
    EventsSetMeaning(st, ids, active);
    if e in ids {
      var i :| 0 <= i < |ids| && ids[i] == e;
    }
  }

  /** After the loop of setActiveLocked and before the subscription's own record is written. */
  lemma EventsSetKeeps(st: Store, id: string, active: bool)
    requires Consistent(st) && id in st.subs
    ensures var m := EventsSet(st, st.subs[id].events, active);
      && SameShape(st, m) && m.subs == st.subs && VersionsUnique(m) && m.rowSeq >= st.rowSeq
      && (forall e :: e in m.events ==>
            (m.events[e].isActive == if m.events[e].subscriptionId == id then active else st.events[e].isActive)
            && (m.events[e].status == if m.events[e].subscriptionId == id
              then StatusOf(active) else st.events[e].status))
  {
    hide EventsSet, EndpointsUnique, TypesUnique, FlagsAgree, VersionsUnique, Indexed, Filed, BatchSizesAllowed;
    hide Distinct, StatusOf;
    var ids := st.subs[id].events;
    OwnEvents(st, id);
    var m := EventsSet(st, ids, active);
    assert m.subs == st.subs && m.events.Keys == st.events.Keys && m.rowSeq == st.rowSeq + |ids| by {
      EventsSetMeaning(st, ids, active);
    }
    forall e | e in m.events
      ensures e in ids <==> st.events[e].subscriptionId == id
      ensures e !in ids ==> m.events[e] == st.events[e]
      ensures e in ids ==>
        m.events[e] == st.events[e].(isActive := active, status := StatusOf(active), version := m.events[e].version)
      ensures e in ids ==> exists i :: 0 <= i < |ids| && ids[i] == e && m.events[e].version == st.rowSeq + i + 1
    {
      EventsSetEach(st, ids, active, e);
    }
    EventsSetVersions(st, m, ids);
  }

  lemma EventsSetVersions(st: Store, m: Store, ids: seq<string>)
    requires VersionsUnique(st) && m.subs == st.subs && m.events.Keys == st.events.Keys && m.rowSeq == st.rowSeq + |ids|
    requires forall e :: e in m.events && e !in ids ==> m.events[e] == st.events[e]
    requires forall e :: e in m.events && e in ids ==>
      exists i :: 0 <= i < |ids| && ids[i] == e && m.events[e].version == st.rowSeq + i + 1
    ensures VersionsUnique(m)
  {
    forall e | e in m.events
      ensures m.events[e].version == st.events[e].version || st.rowSeq < m.events[e].version <= m.rowSeq
      ensures m.events[e].version > st.rowSeq ==> e in ids
    {
    }
    forall d, e | d in m.events && e in m.events && m.events[d].version == m.events[e].version > st.rowSeq
      ensures d == e
    {
      var i :| 0 <= i < |ids| && ids[i] == d && m.events[d].version == st.rowSeq + i + 1;
      var j :| 0 <= j < |ids| && ids[j] == e && m.events[e].version == st.rowSeq + j + 1;
    }
    VersionsKept(st, m);
  }

  lemma ActiveSetShape(st: Store, m: Store, id: string, s: Subscription, rowSeq: nat)
    requires SameShape(st, m) && m.subs == st.subs && id in st.subs
    requires s.id == st.subs[id].id && s.events == st.subs[id].events
    ensures SameShape(st, PutSub(m, id, s, rowSeq))
  {
  }

  lemma ActiveSetFlags(st: Store, m: Store, id: string, s: Subscription, rowSeq: nat)
    requires FlagsAgree(st) && m.subs == st.subs && SameShape(st, m) && id in st.subs
    requires s.status == StatusOf(s.isActive)
    requires forall e :: e in m.events ==>
      && m.events[e].isActive == (if m.events[e].subscriptionId == id then s.isActive else st.events[e].isActive)
      && m.events[e].status == (if m.events[e].subscriptionId == id then s.status else st.events[e].status)
    ensures FlagsAgree(PutSub(m, id, s, rowSeq))
  {
  }

  lemma ActiveSetConsistent(st: Store, id: string, active: bool, reason: string)
    requires Consistent(st) && id in st.subs
    ensures Consistent(ActiveSet(st, id, active, reason))
  {
    hide EventsSet, Indexed, TypesUnique, VersionsUnique, FlagsAgree, EndpointsUnique, SameShape;
    var m := EventsSet(st, st.subs[id].events, active);
    EventsSetKeeps(st, id, active);
    var s := ActiveSet(st, id, active, reason).subs[id];
    assert ActiveSet(st, id, active, reason) == PutSub(m, id, s, m.rowSeq + 1);
    ActiveSetShape(st, m, id, s, m.rowSeq + 1);
    ShapeKeeps(st, PutSub(m, id, s, m.rowSeq + 1));
    PutSubVersions(m, id, s, m.rowSeq + 1);
    ActiveSetFlags(st, m, id, s, m.rowSeq + 1);
    assert EndpointsUnique(m) by { SameSubs(st, m); }
    PutSubEndpoints(m, id, s, m.rowSeq + 1);
  }

  lemma SameSubs(st: Store, m: Store)
    requires m.subs == st.subs && EndpointsUnique(st)
    ensures EndpointsUnique(m)
  {
  }

  // A subscription and its events removed.

  function RemoveSub(st: Store, id: string): Store
    requires id in st.subs
  {
    st.(subs := st.subs - {id}, events := st.events - set e | e in st.subs[id].events)
  }

  lemma RemoveSubIndexed(st: Store, id: string)
    requires id in st.subs && Filed(st) && Indexed(st)
    ensures Filed(RemoveSub(st, id)) && Indexed(RemoveSub(st, id))
  {
    var t := RemoveSub(st, id);
    forall k, e | k in t.subs && e in t.subs[k].events ensures e in t.events && t.events[e].subscriptionId == k {
      assert st.events[e].subscriptionId == k;
      assert e !in st.subs[id].events;
    }
  }

  lemma RemoveSubRest(st: Store, id: string)
    requires id in st.subs
    ensures VersionsUnique(st) ==> VersionsUnique(RemoveSub(st, id))
    ensures FlagsAgree(st) ==> FlagsAgree(RemoveSub(st, id))
    ensures EndpointsUnique(st) ==> EndpointsUnique(RemoveSub(st, id))
  {
  }

  lemma RemoveSubTypes(st: Store, id: string)
    requires id in st.subs && TypesUnique(st)
    ensures TypesUnique(RemoveSub(st, id))
  {
    hide SameType;
  }

  lemma DeletedConsistent(st: Store, id: string, ifMatch: string)
    requires Consistent(st)
    ensures Consistent(Deleted(st, id, ifMatch).0)
  {
    hide Matches, Token, Filed, Indexed, TypesUnique, VersionsUnique, FlagsAgree, EndpointsUnique;
    if Guard(st, id, ifMatch).None? {
      RemoveSubIndexed(st, id);
      RemoveSubRest(st, id);
      RemoveSubTypes(st, id);
    }
  }

  // An event added to a subscription.

  predicate AddsEvent(st: Store, ev: Event) {
    && ev.id !in st.events && ev.subscriptionId in st.subs
    && ev.version == st.rowSeq + 1
    && !HasType(st, st.subs[ev.subscriptionId], ev.eventType)
  }

  function PutEvent(st: Store, ev: Event): Store
    requires ev.subscriptionId in st.subs
  {
    var s := st.subs[ev.subscriptionId];
    Store(st.subs[ev.subscriptionId := s.(events := s.events + [ev.id], version := st.rowSeq + 2)],
          st.events[ev.id := ev], st.rowSeq + 2)
  }

  lemma DistinctMore(ids: seq<string>, id: string)
    requires Distinct(ids) && id !in ids
    ensures Distinct(ids + [id])
  {
  }

  lemma PutEventIndexed(st: Store, ev: Event)
    requires AddsEvent(st, ev) && Filed(st) && Indexed(st)
    ensures Filed(PutEvent(st, ev)) && Indexed(PutEvent(st, ev))
  {
    hide HasType, Distinct;
    var t, owner := PutEvent(st, ev), ev.subscriptionId;
    DistinctMore(st.subs[owner].events, ev.id);
    forall id, e | id in t.subs && e in t.subs[id].events ensures e in t.events && t.events[e].subscriptionId == id {
      assert e in st.subs[id].events || (id == owner && e == ev.id);
    }
    forall e | e in t.events
      ensures t.events[e].subscriptionId in t.subs && e in t.subs[t.events[e].subscriptionId].events
    {
      assert e == ev.id || e in st.subs[st.events[e].subscriptionId].events;
    }
  }

  lemma PutEventVersions(st: Store, ev: Event)
    requires AddsEvent(st, ev) && VersionsUnique(st)
    ensures VersionsUnique(PutEvent(st, ev))
  {
    hide HasType;
  }

  lemma PutEventFlags(st: Store, ev: Event)
    requires AddsEvent(st, ev) && FlagsAgree(st)
    requires ev.isActive == st.subs[ev.subscriptionId].isActive && ev.status == st.subs[ev.subscriptionId].status
    ensures FlagsAgree(PutEvent(st, ev))
  {
    hide HasType;
  }

  lemma PutEventTypesBy(st: Store, ev: Event)
    requires AddsEvent(st, ev) && TypesUnique(st)
    requires forall k :: k in st.events && st.events[k].subscriptionId == ev.subscriptionId ==>
      !SameType(st.events[k], ev) && !SameType(ev, st.events[k])
    ensures TypesUnique(PutEvent(st, ev))
  {
    hide HasType, EqualFold;
  }

  lemma PutEventTypes(st: Store, ev: Event)
    requires AddsEvent(st, ev) && TypesUnique(st) && Indexed(st)
    ensures TypesUnique(PutEvent(st, ev))
  {
    hide Folded;
    var listed := st.subs[ev.subscriptionId].events;
    forall k | k in st.events && st.events[k].subscriptionId == ev.subscriptionId
      ensures !SameType(st.events[k], ev) && !SameType(ev, st.events[k])
    {
      var i :| 0 <= i < |listed| && listed[i] == k;
      assert listed[i] in st.events;
    }
    PutEventTypesBy(st, ev);
  }

  lemma PutEventEndpoints(st: Store, ev: Event)
    requires ev.subscriptionId in st.subs && EndpointsUnique(st)
    ensures EndpointsUnique(PutEvent(st, ev))
  {
  }

  lemma EventAddedConsistent(st: Store, id: string, eventType: string, evId: string, targets: seq<Target>)
    requires Consistent(st) && evId !in st.events
    ensures Consistent(EventAdded(st, id, eventType, evId, targets).0)
  {
    hide TrimSpace, HasType, Filed, Indexed, TypesUnique, VersionsUnique, FlagsAgree, EndpointsUnique;
    if EventAdded(st, id, eventType, evId, targets).1.None? {
      var sub := st.subs[id];
      var ev := Event(evId, eventType, sub.isActive, id, sub.status, st.rowSeq + 1, targets);
      PutEventIndexed(st, ev);
      PutEventVersions(st, ev);
      PutEventFlags(st, ev);
      PutEventTypes(st, ev);
      PutEventEndpoints(st, ev);
    }
  }

  // An event's targets replaced.

  function Retarget(st: Store, evId: string, targets: seq<Target>): Store
    requires evId in st.events
  {
    st.(events := st.events[evId := st.events[evId].(targets := targets, version := st.rowSeq + 1)],
      rowSeq := st.rowSeq + 1)
  }

  lemma RetargetShape(st: Store, evId: string, targets: seq<Target>)
    requires evId in st.events
    ensures SameShape(st, Retarget(st, evId, targets))
    ensures FlagsAgree(st) ==> FlagsAgree(Retarget(st, evId, targets))
  {
  }

  lemma RetargetVersions(st: Store, evId: string, targets: seq<Target>)
    requires evId in st.events && VersionsUnique(st)
    ensures VersionsUnique(Retarget(st, evId, targets))
  {
    VersionsKept(st, Retarget(st, evId, targets));
  }

  lemma TargetsReplacedConsistent(st: Store, evId: string, ifMatch: string, targets: seq<Target>)
    requires Consistent(st)
    ensures Consistent(TargetsReplaced(st, evId, ifMatch, targets).0)
  {
    hide Matches, Token, Filed, Indexed, TypesUnique, VersionsUnique, FlagsAgree, EndpointsUnique, SameShape;
    if TargetsReplaced(st, evId, ifMatch, targets).1.None? {
      RetargetShape(st, evId, targets);
      ShapeKeeps(st, Retarget(st, evId, targets));
      RetargetVersions(st, evId, targets);
      SameSubs(st, Retarget(st, evId, targets));
    }
  }

  lemma {:induction false} WithoutMeaning(ids: seq<string>, id: string)
    requires Distinct(ids)
    ensures Distinct(Without(ids, id))
    ensures forall x :: x in Without(ids, id) <==> x in ids && x != id
  {
    if ids != [] {
      var n := |ids| - 1;
      WithoutMeaning(ids[..n], id);
      assert ids == ids[..n] + [ids[n]];
      assert ids[n] !in ids[..n];
    }
  }

  // An event removed from its subscription and the index.

  function RemoveEvent(st: Store, evId: string): Store
    requires evId in st.events && st.events[evId].subscriptionId in st.subs
  {
    var owner := st.events[evId].subscriptionId;
    var s := st.subs[owner];
    Store(st.subs[owner := s.(events := Without(s.events, evId), version := st.rowSeq + 1)],
          st.events - {evId}, st.rowSeq + 1)
  }

  lemma RemoveEventIndexed(st: Store, evId: string)
    requires evId in st.events && Filed(st) && Indexed(st)
    ensures Filed(RemoveEvent(st, evId)) && Indexed(RemoveEvent(st, evId))
  {
    hide Without;
    WithoutMeaning(st.subs[st.events[evId].subscriptionId].events, evId);
  }

  lemma RemoveEventVersions(st: Store, evId: string)
    requires evId in st.events && st.events[evId].subscriptionId in st.subs && VersionsUnique(st)
    ensures VersionsUnique(RemoveEvent(st, evId))
  {
    hide Without;
    VersionsKept(st, RemoveEvent(st, evId));
  }

  lemma RemoveEventRest(st: Store, evId: string)
    requires evId in st.events && st.events[evId].subscriptionId in st.subs
    ensures FlagsAgree(st) ==> FlagsAgree(RemoveEvent(st, evId))
    ensures EndpointsUnique(st) ==> EndpointsUnique(RemoveEvent(st, evId))
  {
    hide Without;
  }

  lemma RemoveEventTypes(st: Store, evId: string)
    requires evId in st.events && st.events[evId].subscriptionId in st.subs && TypesUnique(st)
    ensures TypesUnique(RemoveEvent(st, evId))
  {
    hide Without, SameType;
  }

  lemma EventDeletedConsistent(st: Store, evId: string, ifMatch: string)
    requires Consistent(st)
    ensures Consistent(EventDeleted(st, evId, ifMatch).0)
  {
    hide Matches, Token, Without, TypesUnique, VersionsUnique, FlagsAgree, EndpointsUnique;
    if EventDeleted(st, evId, ifMatch).1.None? {
      RemoveEventIndexed(st, evId);
      RemoveEventVersions(st, evId);
      RemoveEventRest(st, evId);
      RemoveEventTypes(st, evId);
    }
  }

  lemma DoConsistent(st: Store, op: Op)
    requires Consistent(st) && FreshOp(st, op)
    ensures Consistent(Do(st, op).0)
  {
    hide Consistent, Matches, Token, ActiveSet, Created, Updated, Deleted, EventAdded, TargetsReplaced, EventDeleted;
    match op {
      case Create(p, id) => if Created(st, p, id).Ok? { CreatedConsistent(st, p, id); }
      case Update(id, ifMatch, u) => UpdatedConsistent(st, id, ifMatch, u);
      case SetActive(id, ifMatch, active) => if id in st.subs { ActiveSetConsistent(st, id, active, ""); }
      case Deactivate(id, reason) => if id in st.subs { ActiveSetConsistent(st, id, false, reason); }
      case Delete(id, ifMatch) => DeletedConsistent(st, id, ifMatch);
      case AddEvent(id, eventType, evId, targets) => EventAddedConsistent(st, id, eventType, evId, targets);
      case ReplaceTargets(evId, ifMatch, targets) => TargetsReplacedConsistent(st, evId, ifMatch, targets);
      case DeleteEvent(evId, ifMatch) => EventDeletedConsistent(st, evId, ifMatch);
    }
  }

  /** Unique endpoints, one event per type, the two indexes in step, flags and tokens in order: always. */
  lemma {:induction false} AlwaysConsistent(st: Store, ops: seq<Op>)
    requires Consistent(st) && FreshRun(st, ops)
    ensures Consistent(DoAll(st, ops))
    decreases |ops|
  {
    hide Consistent, Do, FreshOp;
    if ops != [] {
      DoConsistent(st, ops[0]);
      AlwaysConsistent(Do(st, ops[0]).0, ops[1..]);
    }
  }

  /** In particular from the empty store. */
  lemma ConsistentFromTheStart(ops: seq<Op>)
    requires FreshRun(NEW_STORE, ops)
    ensures Consistent(DoAll(NEW_STORE, ops))
  {
    AlwaysConsistent(NEW_STORE, ops);
  }
}
