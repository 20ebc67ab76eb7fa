/** internal/bankingcircle/subscription.go: the store, its two indexes and its guarded writes. */
module Subscriptions {
  import opened Text
  import opened Sorting
  import opened RowVersions

  datatype Status = NoStatus | Inactive | Active | Retired

  datatype Target = Target(id: string, targetId: string, targetType: int)

  /** version is the mint whose token is the record's rowVersion. */
  datatype Event = Event(
    id: string, eventType: string, isActive: bool, subscriptionId: string, status: Status,
    version: nat, targets: seq<Target>)

  /** events are the ids of the subscription's events, in order: the pointers of the source. */
  datatype Subscription = Subscription(
    id: string, endpoint: string, isActive: bool, mtlsEnabled: bool, status: Status, statusMessage: string,
    version: nat, email: string, maxNotificationsPerMessage: int, events: seq<string>, encryptionKey: string)

  /** rowSeq counts the tokens minted. */
  datatype Store = Store(subs: map<string, Subscription>, events: map<string, Event>, rowSeq: nat)

  datatype StoreError =
    | SubscriptionNotFound | RowVersionMismatch | DuplicateEndpoint | DuplicateEvent
    | EndpointRequired | BadKeyLength | BadStatus | BadBatchSize | EventTypeRequired | TargetsRequired

  const MIN_NOTIFICATIONS: int := 5
  const MAX_NOTIFICATIONS: int := 1000
  const KEY_LENGTH: int := 32

  datatype CreateParams = CreateParams(
    endpoint: string, encryptionKey: string, status: Status, email: string, maxNotificationsPerMessage: int,
    mtlsEnabled: bool)

  datatype UpdateParams = UpdateParams(
    endpoint: Option<string>, encryptionKey: Option<string>, email: Option<string>,
    maxNotificationsPerMessage: Option<int>, mtlsEnabled: Option<bool>)

  predicate BatchSizeAllowed(n: int) {
    MIN_NOTIFICATIONS <= n <= MAX_NOTIFICATIONS
  }

  function Validate(p: CreateParams): Option<StoreError> {
    if TrimSpace(p.endpoint) == "" then Some(EndpointRequired)
    else if ByteLength(p.encryptionKey) != KEY_LENGTH then Some(BadKeyLength)
    else if p.status != Active && p.status != Inactive then Some(BadStatus)
    else if p.maxNotificationsPerMessage != 0 && !BatchSizeAllowed(p.maxNotificationsPerMessage) then Some(BadBatchSize)
    else None
  }

  predicate EndpointTaken(st: Store, endpoint: string, except: string) {
    exists id :: id in st.subs && id != except && st.subs[id].endpoint == endpoint
  }

  // ------------------------------------------------------------- operations

  function Created(st: Store, p: CreateParams, id: string): Result<Store, StoreError> {
    match Validate(p)
    case Some(e) => Err(e)
    case None =>
      if exists k :: k in st.subs && st.subs[k].endpoint == p.endpoint then Err(DuplicateEndpoint)
      else
        var max := if p.maxNotificationsPerMessage == 0 then MAX_NOTIFICATIONS else p.maxNotificationsPerMessage;
        var sub := Subscription(id, p.endpoint, p.status == Active, p.mtlsEnabled, p.status,
                                "Subscription successfully created", st.rowSeq + 1, p.email, max, [], p.encryptionKey);
        Ok(st.(subs := st.subs[id := sub], rowSeq := st.rowSeq + 1))
  }

  // The fields Update writes, one by one.

  function WithEndpoint(sub: Subscription, p: UpdateParams): (s: Subscription)
    ensures s == sub.(endpoint := s.endpoint)
  {
    if p.endpoint.Some? then sub.(endpoint := p.endpoint.value) else sub
  }

  function WithKey(sub: Subscription, p: UpdateParams): (s: Subscription)
    ensures s == sub.(encryptionKey := s.encryptionKey)
  {
    if p.encryptionKey.Some? then sub.(encryptionKey := p.encryptionKey.value) else sub
  }

  function WithEmail(sub: Subscription, p: UpdateParams): (s: Subscription)
    ensures s == sub.(email := s.email)
  {
    if p.email.Some? then sub.(email := p.email.value) else sub
  }

  function WithMax(sub: Subscription, p: UpdateParams): (s: Subscription)
    ensures s == sub.(maxNotificationsPerMessage := s.maxNotificationsPerMessage)
  {
    if p.maxNotificationsPerMessage.Some?
      then sub.(maxNotificationsPerMessage := p.maxNotificationsPerMessage.value) else sub
  }

  function WithMtls(sub: Subscription, p: UpdateParams): (s: Subscription)
    ensures s == sub.(mtlsEnabled := s.mtlsEnabled)
  {
    if p.mtlsEnabled.Some? then sub.(mtlsEnabled := p.mtlsEnabled.value) else sub
  }

  /** How far an update of the fields gets, and what stops it. */
  function UpdatedFields(st: Store, sub: Subscription, p: UpdateParams): (Subscription, Option<StoreError>) {
    if p.endpoint.Some? && EndpointTaken(st, p.endpoint.value, sub.id) then (sub, Some(DuplicateEndpoint))
    else
      var s1 := WithEndpoint(sub, p);
      if p.encryptionKey.Some? && ByteLength(p.encryptionKey.value) != KEY_LENGTH then (s1, Some(BadKeyLength))
      else
        var s2 := WithEmail(WithKey(s1, p), p);
        if p.maxNotificationsPerMessage.Some? && !BatchSizeAllowed(p.maxNotificationsPerMessage.value)
        then (s2, Some(BadBatchSize))
        else (WithMtls(WithMax(s2, p), p), None)
  }

  /** A guarded write on a subscription may go ahead. */
  function Guard(st: Store, id: string, ifMatch: string): Option<StoreError> {
    if id !in st.subs then Some(SubscriptionNotFound)
    else if !Matches(Token(st.subs[id].version), ifMatch) then Some(RowVersionMismatch)
    else None
  }

  function EventGuard(st: Store, id: string, ifMatch: string): Option<StoreError> {
    if id !in st.events then Some(SubscriptionNotFound)
    else if !Matches(Token(st.events[id].version), ifMatch) then Some(RowVersionMismatch)
    else None
  }

  /** Update: the store afterwards, also when validation fails half-way. */
  function Updated(st: Store, id: string, ifMatch: string, p: UpdateParams): (Store, Option<StoreError>) {
    match Guard(st, id, ifMatch)
    case Some(e) => (st, Some(e))
    case None =>
      var (sub, failed) := UpdatedFields(st, st.subs[id], p);
      if failed.Some? then (st.(subs := st.subs[id := sub]), failed)
      else (st.(subs := st.subs[id := sub.(version := st.rowSeq + 1)], rowSeq := st.rowSeq + 1), None)
  }

  function StatusOf(active: bool): Status {
    if active then Active else Inactive
  }

  function EventSet(st: Store, id: string, active: bool): Store {
    if id !in st.events then st
    else
      st.(events := st.events[id := st.events[id].(isActive := active, status := StatusOf(active),
        version := st.rowSeq + 1)],
          rowSeq := st.rowSeq + 1)
  }

  /** setActiveLocked, the events: each gets the flag and its own new token, in order. */
  function EventsSet(st: Store, ids: seq<string>, active: bool): Store {
    if ids == [] then st
    else EventSet(EventsSet(st, ids[..|ids| - 1], active), ids[|ids| - 1], active)
  }

  lemma EventsSetNext(st: Store, ids: seq<string>, i: nat, active: bool)
    requires i < |ids|
    ensures EventsSet(st, ids[..i + 1], active) == EventSet(EventsSet(st, ids[..i], active), ids[i], active)
  {
    assert ids[..i + 1][..i] == ids[..i];
  }

  lemma EventsSetNone(st: Store, active: bool)
    ensures EventsSet(st, [], active) == st
  {
  }

  function ActiveSet(st: Store, id: string, active: bool, reason: string): Store
    requires id in st.subs
  {
    var m := EventsSet(st, st.subs[id].events, active);
    var standing := if active then "Subscription is active" else "Subscription is inactive";
    var message := if reason != "" then reason else standing;
    m.(subs := st.subs[id := st.subs[id].(isActive := active, status := StatusOf(active), statusMessage := message,
                                          version := m.rowSeq + 1)],
       rowSeq := m.rowSeq + 1)
  }

  function SetActiveResult(st: Store, id: string, ifMatch: string, active: bool): (Store, Option<StoreError>) {
    match Guard(st, id, ifMatch)
    case Some(e) => (st, Some(e))
    case None => (ActiveSet(st, id, active, ""), None)
  }

  function Deactivated(st: Store, id: string, reason: string): (Store, Option<StoreError>) {
    if id !in st.subs then (st, Some(SubscriptionNotFound)) else (ActiveSet(st, id, false, reason), None)
  }

  function Deleted(st: Store, id: string, ifMatch: string): (Store, Option<StoreError>) {
    match Guard(st, id, ifMatch)
    case Some(e) => (st, Some(e))
    case None => (st.(subs := st.subs - {id}, events := st.events - set e | e in st.subs[id].events), None)
  }

  predicate HasType(st: Store, sub: Subscription, eventType: string) {
    exists i :: 0 <= i < |sub.events| && sub.events[i] in st.events
      && EqualFold(st.events[sub.events[i]].eventType, eventType)
  }

  function EventAdded(st: Store, id: string, eventType: string, evId: string, targets: seq<Target>)
    : (Store, Option<StoreError>)
  {
    if TrimSpace(eventType) == "" then (st, Some(EventTypeRequired))
    else if id !in st.subs then (st, Some(SubscriptionNotFound))
    else if HasType(st, st.subs[id], eventType) then (st, Some(DuplicateEvent))
    else
      var sub := st.subs[id];
      var ev := Event(evId, eventType, sub.isActive, id, sub.status, st.rowSeq + 1, targets);
      (Store(st.subs[id := sub.(events := sub.events + [evId], version := st.rowSeq + 2)],
             st.events[evId := ev], st.rowSeq + 2), None)
  }

  function TargetsReplaced(st: Store, evId: string, ifMatch: string, targets: seq<Target>)
    : (Store, Option<StoreError>)
  {
    if targets == [] then (st, Some(TargetsRequired))
    else
      match EventGuard(st, evId, ifMatch)
      case Some(e) => (st, Some(e))
      case None =>
        (st.(events := st.events[evId := st.events[evId].(targets := targets, version := st.rowSeq + 1)],
             rowSeq := st.rowSeq + 1), None)
  }

  function Without(ids: seq<string>, id: string): seq<string> {
    if ids == [] then []
    else Without(ids[..|ids| - 1], id) + if ids[|ids| - 1] != id then [ids[|ids| - 1]] else []
  }

  function EventDeleted(st: Store, evId: string, ifMatch: string): (Store, Option<StoreError>) {
    match EventGuard(st, evId, ifMatch)
    case Some(e) => (st, Some(e))
    case None =>
      var owner := st.events[evId].subscriptionId;
      var m := st.(events := st.events - {evId});
      if owner !in st.subs then (m, None)
      else
        var sub := st.subs[owner];
        (m.(subs := st.subs[owner := sub.(events := Without(sub.events, evId), version := st.rowSeq + 1)],
            rowSeq := st.rowSeq + 1), None)
  }

  // ---------------------------------------------------------------- routing

  predicate EventMatches(e: Event, eventType: string, targetIds: seq<string>) {
    && e.isActive && e.status == Active
    && EqualFold(e.eventType, eventType)
    && (e.targets == [] ||
        exists i, j :: 0 <= i < |e.targets| && 0 <= j < |targetIds| &&
          targetIds[j] != "" && e.targets[i].targetId == targetIds[j])
  }

  /** The first event of an active subscription that matches. */
  function MatchingEvent(st: Store, sub: Subscription, eventType: string, targetIds: seq<string>): Option<Event> {
    if !sub.isActive || sub.status != Active then None
    else FirstMatch(st, sub.events, eventType, targetIds)
  }

  function FirstMatch(st: Store, ids: seq<string>, eventType: string, targetIds: seq<string>): Option<Event> {
    if ids == [] then None
    else if ids[0] in st.events && EventMatches(st.events[ids[0]], eventType, targetIds) then Some(st.events[ids[0]])
    else FirstMatch(st, ids[1..], eventType, targetIds)
  }

  datatype Recipient = Recipient(subscription: Subscription, event: Event)

  /** The recipients among ids, in that order. */
  function RecipientsAmong(st: Store, ids: seq<string>, eventType: string, targetIds: seq<string>): seq<Recipient> {
    if ids == [] then []
    else
      var id := ids[|ids| - 1];
      RecipientsAmong(st, ids[..|ids| - 1], eventType, targetIds) +
      if id !in st.subs then []
      else
        match MatchingEvent(st, st.subs[id], eventType, targetIds)
        case None => []
        case Some(e) => [Recipient(st.subs[id], e)]
  }

  /** ids are the store's subscriptions, each once, in order. */
  ghost predicate InIdOrder(st: Store, ids: seq<string>) {
    Sorted(ids, AtMost) && Distinct(ids) && forall id :: id in ids <==> id in st.subs
  }

  // ------------------------------------------------------------------ class

  class SubscriptionStore {
    var subs: map<string, Subscription>
    var events: map<string, Event>
    var rowSeq: nat

    ghost function View(): Store
      reads this
    {
      Store(subs, events, rowSeq)
    }

    constructor ()
      ensures View() == Store(map[], map[], 0)
    {
      subs, events, rowSeq := map[], map[], 0;
    }

    method NextRowVersion() returns (version: nat)
      modifies this`rowSeq
      ensures rowSeq == old(rowSeq) + 1 && version == rowSeq
    {
      rowSeq := rowSeq + 1;
      version := rowSeq;
    }

    /** newId is what the id source hands out: an id not in use. */
    method Create(p: CreateParams, newId: string) returns (r: Result<Subscription, StoreError>)
      requires newId !in subs
      modifies this
      ensures match Created(old(View()), p, newId)
              case Err(e) => r == Err(e) && View() == old(View())
              case Ok(st) => View() == st && newId in subs && r == Ok(subs[newId])
    {
      var invalid := Validate(p);
      if invalid.Some? {
        return Err(invalid.value);
      }
      var rest := subs.Keys;
      while rest != {}
        invariant rest <= subs.Keys
        invariant forall id :: id in subs && id !in rest ==> subs[id].endpoint != p.endpoint
      {
        var id :| id in rest;
        if subs[id].endpoint == p.endpoint {
          return Err(DuplicateEndpoint);
        }
        rest := rest - {id};
      }
      var max := p.maxNotificationsPerMessage;
      if max == 0 {
        max := MAX_NOTIFICATIONS;
      }
      var version := NextRowVersion();
      var sub := Subscription(newId, p.endpoint, p.status == Active, p.mtlsEnabled, p.status,
                              "Subscription successfully created", version, p.email, max, [], p.encryptionKey);
      subs := subs[newId := sub];
      return Ok(sub);
    }

    /** The scan of Update: whether another subscription has the endpoint. */
    method TakenByOther(endpoint: string, except: string) returns (taken: bool)
      ensures taken == EndpointTaken(View(), endpoint, except)
    {
      var rest := subs.Keys;
      while rest != {}
        invariant rest <= subs.Keys
        invariant forall k :: k in subs && k !in rest && k != except ==> subs[k].endpoint != endpoint
      {
        var k :| k in rest;
        if k != except && subs[k].endpoint == endpoint {
          return true;
        }
        rest := rest - {k};
      }
      return false;
    }

    /** The fields are written one by one; a refusal half-way leaves the earlier ones written. */
    method WriteFields(before: Subscription, p: UpdateParams) returns (sub: Subscription, e: Option<StoreError>)
      ensures (sub, e) == UpdatedFields(View(), before, p)
    {
      hide EndpointTaken;
      sub := before;
      if p.endpoint.Some? {
        var taken := TakenByOther(p.endpoint.value, sub.id);
        if taken {
          return sub, Some(DuplicateEndpoint);
        }
        sub := sub.(endpoint := p.endpoint.value);
      }
      if p.encryptionKey.Some? {
        if ByteLength(p.encryptionKey.value) != KEY_LENGTH {
          return sub, Some(BadKeyLength);
        }
        sub := sub.(encryptionKey := p.encryptionKey.value);
      }
      if p.email.Some? {
        sub := sub.(email := p.email.value);
      }
      if p.maxNotificationsPerMessage.Some? {
        if !BatchSizeAllowed(p.maxNotificationsPerMessage.value) {
          return sub, Some(BadBatchSize);
        }
        sub := sub.(maxNotificationsPerMessage := p.maxNotificationsPerMessage.value);
      }
      if p.mtlsEnabled.Some? {
        sub := sub.(mtlsEnabled := p.mtlsEnabled.value);
      }
      return sub, None;
    }

    method Update(id: string, ifMatch: string, p: UpdateParams) returns (r: Result<Subscription, StoreError>)
      modifies this
      ensures var (st, e) := Updated(old(View()), id, ifMatch, p);
              View() == st && (if e.Some? then r == Err(e.value) else id in subs && r == Ok(subs[id]))
    {
      hide Matches, Token, UpdatedFields;
      if id !in subs {
        return Err(SubscriptionNotFound);
      }
      if !Matches(Token(subs[id].version), ifMatch) {
        return Err(RowVersionMismatch);
      }
      var sub, e := WriteFields(subs[id], p);
      subs := subs[id := sub];
      if e.Some? {
        return Err(e.value);
      }
      var version := NextRowVersion();
      sub := sub.(version := version);
      subs := subs[id := sub];
      return Ok(sub);
    }

    method SetActiveLocked(id: string, active: bool, reason: string)
      requires id in subs
      modifies this
      ensures View() == ActiveSet(old(View()), id, active, reason)
    {
      hide EventsSet;
      var sub := subs[id];
      EventsSetNone(View(), active);
      assert sub.events[..0] == [];
      for i := 0 to |sub.events|
        invariant View() == EventsSet(old(View()), sub.events[..i], active)
        invariant subs == old(subs)
      {
        EventsSetNext(old(View()), sub.events, i, active);
        var e := sub.events[i];
        if e in events {
          var version := NextRowVersion();
          events := events[e := events[e].(isActive := active, status := StatusOf(active), version := version)];
        }
      }
      assert sub.events[..|sub.events|] == sub.events;
      sub := sub.(isActive := active, status := StatusOf(active),
                  statusMessage := if active then "Subscription is active" else "Subscription is inactive");
      if reason != "" {
        sub := sub.(statusMessage := reason);
      }
      var version := NextRowVersion();
      sub := sub.(version := version);
      subs := subs[id := sub];
    }

    method SetActive(id: string, ifMatch: string, active: bool) returns (e: Option<StoreError>)
      modifies this
      ensures (View(), e) == SetActiveResult(old(View()), id, ifMatch, active)
    {
      hide Matches, Token, ActiveSet;
      if id !in subs {
        return Some(SubscriptionNotFound);
      }
      if !Matches(Token(subs[id].version), ifMatch) {
        return Some(RowVersionMismatch);
      }
      SetActiveLocked(id, active, "");
      return None;
    }

    method Deactivate(id: string, reason: string) returns (e: Option<StoreError>)
      modifies this
      ensures (View(), e) == Deactivated(old(View()), id, reason)
    {
      hide ActiveSet;
      if id !in subs {
        return Some(SubscriptionNotFound);
      }
      SetActiveLocked(id, false, reason);
      return None;
    }

    method Delete(id: string, ifMatch: string) returns (e: Option<StoreError>)
      modifies this
      ensures (View(), e) == Deleted(old(View()), id, ifMatch)
    {
      hide Matches, Token;
      if id !in subs {
        return Some(SubscriptionNotFound);
      }
      if !Matches(Token(subs[id].version), ifMatch) {
        return Some(RowVersionMismatch);
      }
      var ids := subs[id].events;
      for i := 0 to |ids|
        invariant subs == old(subs) && rowSeq == old(rowSeq)
        invariant events == old(events) - set k | k in ids[..i]
      {
        events := events - {ids[i]};
        assert ids[..i + 1] == ids[..i] + [ids[i]];
      }
      assert ids[..|ids|] == ids;
      subs := subs - {id};
      return None;
    }

    /** evId and targets carry the fresh ids of the new records. */
    method AddEvent(id: string, eventType: string, evId: string, targets: seq<Target>) returns (e: Option<StoreError>)
      requires evId !in events
      modifies this
      ensures (View(), e) == EventAdded(old(View()), id, eventType, evId, targets)
    {
      hide EqualFold;
      if TrimSpace(eventType) == "" {
        return Some(EventTypeRequired);
      }
      if id !in subs {
        return Some(SubscriptionNotFound);
      }
      var sub := subs[id];
      for i := 0 to |sub.events|
        invariant forall j :: 0 <= j < i && sub.events[j] in events ==>
          !EqualFold(events[sub.events[j]].eventType, eventType)
      {
        if sub.events[i] in events && EqualFold(events[sub.events[i]].eventType, eventType) {
          return Some(DuplicateEvent);
        }
      }
      var version := NextRowVersion();
      events := events[evId := Event(evId, eventType, sub.isActive, id, sub.status, version, targets)];
      sub := sub.(events := sub.events + [evId]);
      version := NextRowVersion();
      sub := sub.(version := version);
      subs := subs[id := sub];
      return None;
    }

    method ReplaceTargets(evId: string, ifMatch: string, targets: seq<Target>) returns (e: Option<StoreError>)
      modifies this
      ensures (View(), e) == TargetsReplaced(old(View()), evId, ifMatch, targets)
    {
      hide Matches, Token;
      if |targets| == 0 {
        return Some(TargetsRequired);
      }
      if evId !in events {
        return Some(SubscriptionNotFound);
      }
      if !Matches(Token(events[evId].version), ifMatch) {
        return Some(RowVersionMismatch);
      }
      var ev := events[evId].(targets := targets);
      var version := NextRowVersion();
      ev := ev.(version := version);
      events := events[evId := ev];
      return None;
    }

    method DeleteEvent(evId: string, ifMatch: string) returns (e: Option<StoreError>)
      modifies this
      ensures (View(), e) == EventDeleted(old(View()), evId, ifMatch)
    {
      hide Matches, Token;
      if evId !in events {
        return Some(SubscriptionNotFound);
      }
      if !Matches(Token(events[evId].version), ifMatch) {
        return Some(RowVersionMismatch);
      }
      var owner := events[evId].subscriptionId;
      if owner in subs {
        var sub := subs[owner];
        var kept: seq<string> := [];
        for i := 0 to |sub.events|
          invariant kept == Without(sub.events[..i], evId)
        {
          if sub.events[i] != evId {
            kept := kept + [sub.events[i]];
          }
          assert sub.events[..i + 1][..i] == sub.events[..i];
        }
        assert sub.events[..|sub.events|] == sub.events;
        sub := sub.(events := kept);
        var version := NextRowVersion();
        sub := sub.(version := version);
        subs := subs[owner := sub];
      }
      events := events - {evId};
      return None;
    }

    /** The store's ids, sorted: what the map iteration and sort.Strings come to. */
    method SortedIds() returns (ids: seq<string>)
      ensures InIdOrder(View(), ids)
    {
      var found: seq<string> := [];
      var rest := subs.Keys;
      while rest != {}
        invariant rest <= subs.Keys && Distinct(found)
        invariant forall id :: id in subs <==> id in found || id in rest
        invariant forall id :: id in found ==> id !in rest
      {
        var id :| id in rest;
        found := found + [id];
        rest := rest - {id};
      }
      ids := Sort(found, AtMost);
      AtMostIsTotalPreorder();
      SortSorted(found, AtMost);
      SameMembers(ids, found);
      DistinctMultiset(found);
      DistinctMultiset(ids);
    }

    method Recipients(eventType: string, targetIds: seq<string>) returns (out: seq<Recipient>)
      ensures exists ids :: InIdOrder(View(), ids) && out == RecipientsAmong(View(), ids, eventType, targetIds)
    {
      hide MatchingEvent, AtMost;
      var order := SortedIds();
      out := [];
      for i := 0 to |order|
        invariant out == RecipientsAmong(View(), order[..i], eventType, targetIds)
      {
        var sub := subs[order[i]];
        var ev := MatchingEvent(Store(subs, events, rowSeq), sub, eventType, targetIds);
        if ev.Some? {
          out := out + [Recipient(sub, ev.value)];
        }
        assert order[..i + 1][..i] == order[..i];
      }
      assert order[..|order|] == order;
      assert InIdOrder(View(), order);
    }
  }
}
