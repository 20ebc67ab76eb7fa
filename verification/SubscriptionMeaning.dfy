/** What each call of the subscription store answers and writes, and who receives an event, field by field. */
module SubscriptionMeaning {
  import opened Text
  import opened Sorting
  import opened RowVersions
  import opened Subscriptions
  import opened SubscriptionLaws
  import opened SubscriptionHistory

  // ----------------------------------------------------------------- routing

  /** An event of the wanted type, case aside, for everyone or for one of the wanted ids, an empty id aside. */
  ghost predicate Concerns(e: Event, eventType: string, targetIds: seq<string>) {
    && EqualFold(e.eventType, eventType)
    && (e.targets == [] || exists t :: t in e.targets && t.targetId != "" && t.targetId in targetIds)
  }

  lemma ConcernsIff(e: Event, eventType: string, targetIds: seq<string>)
    ensures EventMatches(e, eventType, targetIds)
      <==> e.isActive && e.status == Active && Concerns(e, eventType, targetIds)
  {
    hide EqualFold;
    if e.targets != [] {
      if t :| t in e.targets && t.targetId != "" && t.targetId in targetIds {
        var i :| 0 <= i < |e.targets| && e.targets[i] == t;
        var j :| 0 <= j < |targetIds| && targetIds[j] == t.targetId;
        assert e.targets[i].targetId == targetIds[j];
      }
      if i, j :| 0 <= i < |e.targets| && 0 <= j < |targetIds| && targetIds[j] != ""
                 && e.targets[i].targetId == targetIds[j] {
        assert e.targets[i] in e.targets;
      }
    }
  }

  /** Event e is one subscription id lists and concerns what happened, and the subscription is active. */
  ghost predicate Receives(st: Store, id: string, e: string, eventType: string, targetIds: seq<string>) {
    && id in st.subs && st.subs[id].isActive
    && e in st.subs[id].events && e in st.events && Concerns(st.events[e], eventType, targetIds)
  }

  lemma AnswersIff(st: Store, id: string, e: string, eventType: string, targetIds: seq<string>)
    requires Consistent(st)
    ensures Answers(st, id, e, eventType, targetIds) <==> Receives(st, id, e, eventType, targetIds)
  {
    hide EventMatches, Concerns, TypesUnique, VersionsUnique, EndpointsUnique;
    if e in st.events {
      ConcernsIff(st.events[e], eventType, targetIds);
    }
  }

  /** Who receives an event, and as what: exactly the active subscriptions listing an event that concerns it, each with
      that event. */
  lemma RecipientsIff(st: Store, ids: seq<string>, eventType: string, targetIds: seq<string>, r: Recipient)
    requires Consistent(st) && InIdOrder(st, ids)
    ensures r in RecipientsAmong(st, ids, eventType, targetIds) <==>
            exists id, e :: Receives(st, id, e, eventType, targetIds) && r == Recipient(st.subs[id], st.events[e])
  {
    hide Answers, RecipientsAmong, Concerns, TypesUnique, VersionsUnique, EndpointsUnique, FlagsAgree, InIdOrder;
    var out := RecipientsAmong(st, ids, eventType, targetIds);
    RecipientsExact(st, ids, eventType, targetIds);
    if r in out {
      AnswersIff(st, r.subscription.id, r.event.id, eventType, targetIds);
    }
    if id, e :| id in st.subs && e in st.events && Receives(st, id, e, eventType, targetIds)
                && r == Recipient(st.subs[id], st.events[e]) {
      AnswersIff(st, id, e, eventType, targetIds);
      assert Routable(st, id, eventType, targetIds);
      var s :| s in out && s.subscription.id == id;
      assert s == r;
    }
  }

  /** An event for others alone is not delivered: what concerns only target a reaches nobody asking for b. */
  lemma OthersEventNotReceived(st: Store, ids: seq<string>, eventType: string, a: Target, b: string, r: Recipient)
    requires Consistent(st) && InIdOrder(st, ids) && a.targetId != b && r.event.targets == [a]
    ensures r !in RecipientsAmong(st, ids, eventType, [b])
  {
    hide RecipientsAmong, Consistent, InIdOrder, EqualFold;
    RecipientsIff(st, ids, eventType, [b], r);
  }

  // ------------------------------------------------------------------ create

  /** Blank, of the wrong length, of another status or outside 5 to 1000, 0 for the default aside: checked in this
      order. */
  lemma ValidateMeaning(p: CreateParams)
    ensures var named, keyed := TrimSpace(p.endpoint) != "", ByteLength(p.encryptionKey) == 32;
      var standing := p.status == Active || p.status == Inactive;
      var sized := p.maxNotificationsPerMessage == 0 || 5 <= p.maxNotificationsPerMessage <= 1000;
      && (Validate(p) == Some(EndpointRequired) <==> !named)
      && (Validate(p) == Some(BadKeyLength) <==> named && !keyed)
      && (Validate(p) == Some(BadStatus) <==> named && keyed && !standing)
      && (Validate(p) == Some(BadBatchSize) <==> named && keyed && standing && !sized)
      && (Validate(p) == None <==> named && keyed && standing && sized)
  {
    hide TrimSpace, ByteLength;
  }

  lemma CreateMeaning(st: Store, p: CreateParams, id: string)
    ensures var r := Created(st, p, id);
      var taken := exists k :: k in st.subs && st.subs[k].endpoint == p.endpoint;
      && (Validate(p).Some? ==> r == Err(Validate(p).value))
      && (r == Err(DuplicateEndpoint) <==> Validate(p).None? && taken)
      && (r.Ok? <==> Validate(p).None? && !taken)
      && (r.Ok? ==>
            && r.value.events == st.events && r.value.rowSeq == st.rowSeq + 1 && id in r.value.subs
            && (forall k :: k != id ==> (k in r.value.subs <==> k in st.subs))
            && (forall k :: k in st.subs && k != id ==> r.value.subs[k] == st.subs[k])
            && var s := r.value.subs[id];
               && s.id == id && s.endpoint == p.endpoint && s.encryptionKey == p.encryptionKey && s.email == p.email
               && s.mtlsEnabled == p.mtlsEnabled && s.status == p.status && s.isActive == (p.status == Active)
               && s.statusMessage == "Subscription successfully created" && s.version == st.rowSeq + 1 && s.events == []
               && s.maxNotificationsPerMessage ==
                  if p.maxNotificationsPerMessage == 0 then 1000 else p.maxNotificationsPerMessage)
  {
    ValidateMeaning(p);
    hide Validate;
  }

  // ------------------------------------------------------------------ update

  /** The record is known and the caller showed its current token. */
  predicate Admitted(st: Store, id: string, ifMatch: string) {
    id in st.subs && Matches(Token(st.subs[id].version), ifMatch)
  }

  lemma GuardMeaning(st: Store, id: string, ifMatch: string)
    ensures Guard(st, id, ifMatch) == Some(SubscriptionNotFound) <==> id !in st.subs
    ensures Guard(st, id, ifMatch) == Some(RowVersionMismatch) <==> id in st.subs && !Admitted(st, id, ifMatch)
    ensures Guard(st, id, ifMatch) == None <==> Admitted(st, id, ifMatch)
  {
    hide Matches, Token;
  }

  /** What an Update answers, in the order it looks. */
  lemma UpdateAnswers(st: Store, id: string, ifMatch: string, u: UpdateParams)
    requires Filed(st)
    ensures var e := Updated(st, id, ifMatch, u).1;
      var moved := u.endpoint.Some? && exists k :: k in st.subs && k != id && st.subs[k].endpoint == u.endpoint.value;
      var keyed := u.encryptionKey.Some? ==> ByteLength(u.encryptionKey.value) == 32;
      var sized := u.maxNotificationsPerMessage.Some? ==> 5 <= u.maxNotificationsPerMessage.value <= 1000;
      && (id !in st.subs ==> e == Some(SubscriptionNotFound))
      && (id in st.subs && !Admitted(st, id, ifMatch) ==> e == Some(RowVersionMismatch))
      && (Admitted(st, id, ifMatch) ==>
            e == if moved then Some(DuplicateEndpoint)
                 else if !keyed then Some(BadKeyLength)
                 else if !sized then Some(BadBatchSize)
                 else None)
  {
    hide Matches, Token, ByteLength;
    if id in st.subs {
      assert st.subs[id].id == id;
    }
  }

  function Given<T>(field: Option<T>, otherwise: T): T {
    match field
    case Some(v) => v
    case None => otherwise
  }

  /** An accepted Update: each field given is the record's, each left out is as it was, nothing else changes but the
      token. */
  lemma UpdateWrites(st: Store, id: string, ifMatch: string, u: UpdateParams)
    requires Updated(st, id, ifMatch, u).1.None?
    ensures var t := Updated(st, id, ifMatch, u).0;
      && Admitted(st, id, ifMatch)
      && t.events == st.events && t.rowSeq == st.rowSeq + 1 && t.subs.Keys == st.subs.Keys
      && (forall k :: k in st.subs && k != id ==> t.subs[k] == st.subs[k])
      && var s, r := st.subs[id], t.subs[id];
         && r.endpoint == Given(u.endpoint, s.endpoint)
         && r.encryptionKey == Given(u.encryptionKey, s.encryptionKey)
         && r.email == Given(u.email, s.email)
         && r.maxNotificationsPerMessage == Given(u.maxNotificationsPerMessage, s.maxNotificationsPerMessage)
         && r.mtlsEnabled == Given(u.mtlsEnabled, s.mtlsEnabled)
         && r.version == st.rowSeq + 1
         && r.id == s.id && r.isActive == s.isActive && r.status == s.status && r.statusMessage == s.statusMessage
         && r.events == s.events
  {
    hide Matches, Token, ByteLength, EndpointTaken;
  }

  // -------------------------------------------------------------- activation

  /** Activation and deactivation: the flags and fresh tokens of the events, in order, then of the subscription; every
      other record as it was. */
  lemma ActivationWrites(st: Store, id: string, active: bool, reason: string)
    requires Consistent(st) && id in st.subs
    ensures var t, ids := ActiveSet(st, id, active, reason), st.subs[id].events;
      && t.subs.Keys == st.subs.Keys && t.events.Keys == st.events.Keys && t.rowSeq == st.rowSeq + |ids| + 1
      && (forall k :: k in st.subs && k != id ==> t.subs[k] == st.subs[k])
      && (forall e :: e in st.events && e !in ids ==> t.events[e] == st.events[e])
      && (forall i :: 0 <= i < |ids| ==>
            && ids[i] in st.events
            && t.events[ids[i]] == st.events[ids[i]].(isActive := active, status := if active then Active else Inactive,
                                                      version := st.rowSeq + 1 + i))
      && t.subs[id] == st.subs[id].(
           isActive := active, status := if active then Active else Inactive, version := st.rowSeq + |ids| + 1,
           statusMessage := if reason != "" then reason
                            else if active then "Subscription is active" else "Subscription is inactive")
  {
    hide EventsSet, TypesUnique, VersionsUnique, EndpointsUnique, FlagsAgree;
    var ids := st.subs[id].events;
    assert forall i :: 0 <= i < |ids| ==> ids[i] in ids;
    EventsSetMeaning(st, ids, active);
  }

  /** The guarded call activates or deactivates without a reason; the unguarded one deactivates with one. */
  lemma ActivationAnswers(st: Store, id: string, ifMatch: string, active: bool, reason: string)
    ensures var (t, e) := SetActiveResult(st, id, ifMatch, active);
      && e == Guard(st, id, ifMatch) && (e.Some? ==> t == st)
      && (e.None? ==> id in st.subs && t == ActiveSet(st, id, active, ""))
    ensures var (t, e) := Deactivated(st, id, reason);
      && (e == Some(SubscriptionNotFound) <==> id !in st.subs) && (e == None <==> id in st.subs)
      && (e.Some? ==> t == st) && (e.None? ==> t == ActiveSet(st, id, false, reason))
  {
    hide Matches, Token, ActiveSet;
  }

  // ------------------------------------------------------------------ events

  lemma DeleteWrites(st: Store, id: string, ifMatch: string)
    requires Consistent(st)
    ensures var (t, e) := Deleted(st, id, ifMatch);
      && e == Guard(st, id, ifMatch) && t.rowSeq == st.rowSeq
      && (e.None? ==>
            && (forall k :: k in t.subs <==> k in st.subs && k != id)
            && (forall k :: k in t.subs ==> t.subs[k] == st.subs[k])
            && (forall v :: v in t.events <==> v in st.events && st.events[v].subscriptionId != id)
            && (forall v :: v in t.events ==> t.events[v] == st.events[v]))
  {
    hide Matches, Token, TypesUnique, VersionsUnique, EndpointsUnique, FlagsAgree;
  }

  lemma AddEventAnswers(st: Store, id: string, eventType: string, evId: string, targets: seq<Target>)
    ensures var e := EventAdded(st, id, eventType, evId, targets).1;
      var named, known := TrimSpace(eventType) != "", id in st.subs;
      var listed := known && exists v :: v in st.subs[id].events && v in st.events
                                         && EqualFold(st.events[v].eventType, eventType);
      && (e == Some(EventTypeRequired) <==> !named)
      && (e == Some(SubscriptionNotFound) <==> named && !known)
      && (e == Some(DuplicateEvent) <==> named && listed)
      && (e == None <==> named && known && !listed)
  {
    hide TrimSpace, EqualFold;
    if id in st.subs {
      var ids := st.subs[id].events;
      if v :| v in ids && v in st.events && EqualFold(st.events[v].eventType, eventType) {
        var i :| 0 <= i < |ids| && ids[i] == v;
        assert HasType(st, st.subs[id], eventType);
      }
    }
  }

  /** The new event has the type, targets and flags given it, and goes to the end of the list. */
  lemma AddEventWrites(st: Store, id: string, eventType: string, evId: string, targets: seq<Target>)
    requires EventAdded(st, id, eventType, evId, targets).1.None?
    ensures var t := EventAdded(st, id, eventType, evId, targets).0;
      && id in st.subs && t.subs.Keys == st.subs.Keys && t.rowSeq == st.rowSeq + 2
      && (forall k :: k in st.subs && k != id ==> t.subs[k] == st.subs[k])
      && t.subs[id] == st.subs[id].(events := st.subs[id].events + [evId], version := st.rowSeq + 2)
      && evId in t.events && t.events.Keys == st.events.Keys + {evId}
      && (forall v :: v in st.events && v != evId ==> t.events[v] == st.events[v])
      && var e := t.events[evId];
         && e.id == evId && e.eventType == eventType && e.targets == targets && e.subscriptionId == id
         && e.isActive == st.subs[id].isActive && e.status == st.subs[id].status && e.version == st.rowSeq + 1
  {
    hide TrimSpace, HasType;
  }

  lemma ReplaceTargetsMeaning(st: Store, evId: string, ifMatch: string, targets: seq<Target>)
    ensures var (t, e) := TargetsReplaced(st, evId, ifMatch, targets);
      var shown := evId in st.events && Matches(Token(st.events[evId].version), ifMatch);
      && (e == Some(TargetsRequired) <==> targets == [])
      && (e == Some(SubscriptionNotFound) <==> targets != [] && evId !in st.events)
      && (e == Some(RowVersionMismatch) <==> targets != [] && evId in st.events && !shown)
      && (e == None <==> targets != [] && shown)
      && t.subs == st.subs && t.events.Keys == st.events.Keys
      && (e.None? ==>
            && t.rowSeq == st.rowSeq + 1
            && (forall v :: v in st.events && v != evId ==> t.events[v] == st.events[v])
            && t.events[evId] == st.events[evId].(targets := targets, version := st.rowSeq + 1))
  {
    hide Matches, Token;
  }

  lemma {:induction false} WithoutMeaning(ids: seq<string>, id: string)
    requires Distinct(ids)
    ensures id !in ids ==> Without(ids, id) == ids
    ensures forall i :: 0 <= i < |ids| && ids[i] == id ==> Without(ids, id) == ids[..i] + ids[i + 1..]
  {
    if ids != [] {
      var n := |ids| - 1;
      WithoutMeaning(ids[..n], id);
      assert ids == ids[..n] + [ids[n]];
      forall i | 0 <= i < |ids| && ids[i] == id ensures Without(ids, id) == ids[..i] + ids[i + 1..] {
        if i < n {
          assert ids[..n][i] == id && ids[..n][..i] == ids[..i] && ids[..n][i + 1..] + [ids[n]] == ids[i + 1..];
        } else {
          assert id !in ids[..n];
          assert ids[i + 1..] == [];
        }
      }
    }
  }

  /** The event is gone from the index and from its subscription's list, whose other entries keep their order. */
  lemma DeleteEventWrites(st: Store, evId: string, ifMatch: string)
    requires Consistent(st) && EventDeleted(st, evId, ifMatch).1.None?
    ensures var t := EventDeleted(st, evId, ifMatch).0;
      && evId in st.events && Matches(Token(st.events[evId].version), ifMatch)
      && t.events == st.events - {evId} && t.rowSeq == st.rowSeq + 1 && t.subs.Keys == st.subs.Keys
      && var id := st.events[evId].subscriptionId;
         && id in st.subs && (forall k :: k in st.subs && k != id ==> t.subs[k] == st.subs[k])
         && t.subs[id] == st.subs[id].(events := t.subs[id].events, version := st.rowSeq + 1)
         && exists i :: 0 <= i < |st.subs[id].events| && st.subs[id].events[i] == evId
              && t.subs[id].events == st.subs[id].events[..i] + st.subs[id].events[i + 1..]
  {
    hide Matches, Token, TypesUnique, VersionsUnique, EndpointsUnique, FlagsAgree, Without;
    var id := st.events[evId].subscriptionId;
    assert evId in st.subs[id].events;
    WithoutMeaning(st.subs[id].events, evId);
    var i :| 0 <= i < |st.subs[id].events| && st.subs[id].events[i] == evId;
  }

  lemma DeleteEventAnswers(st: Store, evId: string, ifMatch: string)
    ensures var (t, e) := EventDeleted(st, evId, ifMatch);
      var shown := evId in st.events && Matches(Token(st.events[evId].version), ifMatch);
      && (e == Some(SubscriptionNotFound) <==> evId !in st.events)
      && (e == Some(RowVersionMismatch) <==> evId in st.events && !shown)
      && (e == None <==> shown) && (e.Some? ==> t == st)
  {
    hide Matches, Token;
  }
}
