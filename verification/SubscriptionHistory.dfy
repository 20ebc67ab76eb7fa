/** Refused calls, tokens over whole histories, and who receives an event. */
module SubscriptionHistory {
  import opened Text
  import opened Sorting
  import opened RowVersions
  import opened Subscriptions
  import opened SubscriptionLaws

  // ------------------------------------------------------------ refused calls

  /** Every refusal except one of Update's leaves the store as it was. */
  lemma RefusedChangesNothing(st: Store, op: Op)
    requires Do(st, op).1.Some? && !op.Update?
    ensures Do(st, op).0 == st
  {
    hide Matches, Token, TrimSpace, HasType, ActiveSet, EndpointTaken;
  }

  predicate Writes<T(==)>(field: Option<T>, now: T) {
    field.Some? && field.value != now
  }

  predicate BadKey(u: UpdateParams) {
    u.encryptionKey.Some? && ByteLength(u.encryptionKey.value) != KEY_LENGTH
  }

  predicate BadSize(u: UpdateParams) {
    u.maxNotificationsPerMessage.Some? && !BatchSizeAllowed(u.maxNotificationsPerMessage.value)
  }

  /** Refused before any field is looked at, or for its endpoint: nothing is written yet. */
  predicate RefusedEarly(st: Store, id: string, ifMatch: string, u: UpdateParams) {
    || Guard(st, id, ifMatch).Some?
    || (u.endpoint.Some? && id in st.subs && EndpointTaken(st, u.endpoint.value, st.subs[id].id))
  }

  /** When Update is refused, told from the store and the arguments. */
  lemma UpdateRefusedIff(st: Store, id: string, ifMatch: string, u: UpdateParams)
    ensures Updated(st, id, ifMatch, u).1.Some? <==> RefusedEarly(st, id, ifMatch, u) || BadKey(u) || BadSize(u)
  {
    hide Matches, Token, EndpointTaken, ByteLength;
  }

  /** What a refused Update has written by then: nothing, the endpoint, or the endpoint, the key and the email. */
  lemma RefusedUpdateWrites(st: Store, id: string, ifMatch: string, u: UpdateParams)
    requires RefusedEarly(st, id, ifMatch, u) || BadKey(u) || BadSize(u)
    ensures Updated(st, id, ifMatch, u).0 ==
      if RefusedEarly(st, id, ifMatch, u) then st
      else
        var sub := st.subs[id];
        var written := if BadKey(u) then WithEndpoint(sub, u) else WithEmail(WithKey(WithEndpoint(sub, u), u), u);
        st.(subs := st.subs[id := written])
  {
    hide Matches, Token, EndpointTaken, ByteLength, WithEndpoint, WithKey, WithEmail, WithMax, WithMtls;
  }

  /** A refused Update mints nothing, and changes nothing if and only if it is refused early or each field it reached
      was left out or already had that value. */
  lemma RefusedUpdateChangesNothingIff(st: Store, id: string, ifMatch: string, u: UpdateParams)
    requires RefusedEarly(st, id, ifMatch, u) || BadKey(u) || BadSize(u)
    ensures var t := Updated(st, id, ifMatch, u).0;
      && t.rowSeq == st.rowSeq && t.events == st.events
      && (forall k :: k in st.subs ==> k in t.subs && t.subs[k].version == st.subs[k].version)
      && (t == st <==>
            || RefusedEarly(st, id, ifMatch, u)
            || (&& !Writes(u.endpoint, st.subs[id].endpoint)
                && (BadKey(u) || (!Writes(u.encryptionKey, st.subs[id].encryptionKey)
                  && !Writes(u.email, st.subs[id].email)))))
  {
    hide Matches, Token, EndpointTaken, ByteLength, Updated, BadKey;
    RefusedUpdateWrites(st, id, ifMatch, u);
    var t := Updated(st, id, ifMatch, u).0;
    if !RefusedEarly(st, id, ifMatch, u) {
      if t.subs[id] == st.subs[id] {
        assert t.subs == st.subs;
      }
    }
  }

  /** An Update answered with an error that has changed the endpoint all the same: one subscription, created as any
      other, and one call that would move it and gives it an empty key. */
  lemma RefusedUpdateMayWrite(key: string)
    requires ByteLength(key) == KEY_LENGTH
    ensures var st := DoAll(NEW_STORE, [Create(CreateParams("https://a", key, Active, "", 0, false), "s")]);
      && FreshRun(NEW_STORE, [Create(CreateParams("https://a", key, Active, "", 0, false), "s")])
      && "s" in st.subs && st.subs["s"].endpoint == "https://a"
      && var (t, e) := Updated(st, "s", Token(1), UpdateParams(Some("https://b"), Some(""), None, None, None));
         e == Some(BadKeyLength) && "s" in t.subs && t.subs["s"].endpoint == "https://b"
  {
    hide Token, Matches, ByteLength;
    var p := CreateParams("https://a", key, Active, "", 0, false);
    var op := Create(p, "s");
    assert [op][1..] == [];
    assert TrimSpace(p.endpoint) == "https://a";
    assert Created(NEW_STORE, p, "s").Ok?;
    var st := Do(NEW_STORE, op).0;
    assert DoAll(NEW_STORE, [op]) == DoAll(st, []) == st;
    assert FreshRun(st, []);
    TokenMatches(1);
    EmptyIsNoBytes();
  }

  /** ReplaceTargets supersedes the event's token and leaves every subscription's alone. */
  lemma TargetsKeepSubscriptionTokens(st: Store, evId: string, ifMatch: string, targets: seq<Target>)
    requires Consistent(st) && TargetsReplaced(st, evId, ifMatch, targets).1.None?
    ensures var t := TargetsReplaced(st, evId, ifMatch, targets).0;
      && t.subs == st.subs && t.events.Keys == st.events.Keys
      && (forall e :: e in st.events ==> (t.events[e].version == st.events[e].version <==> e != evId))
      && Spent(t, st.events[evId].version)
  {
    hide Matches, Token;
    Supersedes(st, ReplaceTargets(evId, ifMatch, targets));
  }

  // ------------------------------------------------------------------ tokens

  /** No record carries mint k, which was handed out before. */
  ghost predicate Spent(st: Store, k: nat) {
    && k <= st.rowSeq
    && (forall a :: a in st.subs ==> st.subs[a].version != k)
    && (forall e :: e in st.events ==> st.events[e].version != k)
  }

  /** Every record of t keeps the version it had in st or has a later mint. */
  ghost predicate Advances(st: Store, t: Store) {
    && st.rowSeq <= t.rowSeq
    && (forall a :: a in t.subs ==>
      t.subs[a].version > st.rowSeq || (a in st.subs && t.subs[a].version == st.subs[a].version))
    && (forall e :: e in t.events ==>
      t.events[e].version > st.rowSeq || (e in st.events && t.events[e].version == st.events[e].version))
  }

  lemma AdvancesActiveSet(st: Store, id: string, active: bool, reason: string)
    requires id in st.subs && Indexed(st)
    ensures Advances(st, ActiveSet(st, id, active, reason))
    ensures ActiveSet(st, id, active, reason).rowSeq == st.rowSeq + |st.subs[id].events| + 1
    ensures ActiveSet(st, id, active, reason).subs[id].version > st.rowSeq
    ensures ActiveSet(st, id, active, reason).subs == st.subs[id := ActiveSet(st, id, active, reason).subs[id]]
  {
    hide EventsSet;
    var ids := st.subs[id].events;
    EventsSetMeaning(st, ids, active);
    var m := EventsSet(st, ids, active);
    forall e | e in m.events ensures m.events[e].version > st.rowSeq || m.events[e].version == st.events[e].version {
      if e in ids {
        var i :| 0 <= i < |ids| && ids[i] == e;
      }
    }
  }

  lemma AdvancesUpdated(st: Store, id: string, ifMatch: string, u: UpdateParams)
    ensures Advances(st, Updated(st, id, ifMatch, u).0)
  {
    hide Matches, Token, UpdatedFields;
    if Guard(st, id, ifMatch).None? {
      UpdatedFieldsMeaning(st, st.subs[id], u);
    }
  }

  lemma AdvancesCreated(st: Store, p: CreateParams, id: string)
    requires Created(st, p, id).Ok?
    ensures Advances(st, Created(st, p, id).value)
  {
    hide Validate;
  }

  lemma AdvancesDeleted(st: Store, id: string, ifMatch: string)
    ensures Advances(st, Deleted(st, id, ifMatch).0)
  {
    hide Guard;
  }

  lemma AdvancesEventAdded(st: Store, id: string, eventType: string, evId: string, targets: seq<Target>)
    ensures Advances(st, EventAdded(st, id, eventType, evId, targets).0)
  {
    hide TrimSpace, HasType;
  }

  lemma AdvancesTargetsReplaced(st: Store, evId: string, ifMatch: string, targets: seq<Target>)
    ensures Advances(st, TargetsReplaced(st, evId, ifMatch, targets).0)
  {
    hide Matches, Token;
  }

  lemma AdvancesEventDeleted(st: Store, evId: string, ifMatch: string)
    ensures Advances(st, EventDeleted(st, evId, ifMatch).0)
  {
    hide Matches, Token, Without;
  }

  lemma DoAdvances(st: Store, op: Op)
    requires Indexed(st)
    ensures Advances(st, Do(st, op).0)
  {
    hide Matches, Token, ActiveSet, Updated, Created, Deleted, EventAdded, TargetsReplaced, EventDeleted, Indexed;
    match op {
      case Create(p, id) => if Created(st, p, id).Ok? { AdvancesCreated(st, p, id); }
      case Update(id, ifMatch, u) => AdvancesUpdated(st, id, ifMatch, u);
      case SetActive(id, ifMatch, active) => if id in st.subs { AdvancesActiveSet(st, id, active, ""); }
      case Deactivate(id, reason) => if id in st.subs { AdvancesActiveSet(st, id, false, reason); }
      case Delete(id, ifMatch) => AdvancesDeleted(st, id, ifMatch);
      case AddEvent(id, eventType, evId, targets) => AdvancesEventAdded(st, id, eventType, evId, targets);
      case ReplaceTargets(evId, ifMatch, targets) => AdvancesTargetsReplaced(st, evId, ifMatch, targets);
      case DeleteEvent(evId, ifMatch) => AdvancesEventDeleted(st, evId, ifMatch);
    }
  }

  // The writes guarded by If-Match, and the record each one checks.

  predicate Guarded(op: Op) {
    op.Update? || op.SetActive? || op.Delete? || op.ReplaceTargets? || op.DeleteEvent?
  }

  predicate OnEvent(op: Op) {
    op.ReplaceTargets? || op.DeleteEvent?
  }

  function IfMatchOf(op: Op): string
    requires Guarded(op)
  {
    op.ifMatch
  }

  /** The mint of the record op is conditional on. */
  function CheckedVersion(st: Store, op: Op): nat
    requires Guarded(op)
  {
    if OnEvent(op) then (if op.evId in st.events then st.events[op.evId].version else 0)
    else if op.id in st.subs then st.subs[op.id].version else 0
  }

  lemma SupersededSub(st: Store, t: Store, id: string)
    requires VersionsUnique(st) && Advances(st, t) && id in st.subs
    requires id !in t.subs || t.subs[id].version > st.rowSeq
    ensures Spent(t, st.subs[id].version)
  {
  }

  lemma SupersededEvent(st: Store, t: Store, e: string)
    requires VersionsUnique(st) && Advances(st, t) && e in st.events
    requires e !in t.events || t.events[e].version > st.rowSeq
    ensures Spent(t, st.events[e].version)
  {
  }

  /** What the write does to the record it checked: renewed or gone. */
  lemma RenewsChecked(st: Store, op: Op)
    requires Indexed(st) && Guarded(op) && Do(st, op).1.None?
    ensures var t := Do(st, op).0;
      if OnEvent(op)
      then op.evId in st.events && (op.evId !in t.events || t.events[op.evId].version > st.rowSeq)
      else op.id in st.subs && (op.id !in t.subs || t.subs[op.id].version > st.rowSeq)
    ensures Matches(Token(CheckedVersion(st, op)), IfMatchOf(op))
  {
    hide Matches, Token, ActiveSet, UpdatedFields, Without, Indexed;
    match op {
      case SetActive(id, ifMatch, active) => AdvancesActiveSet(st, id, active, "");
      case _ =>
    }
  }

  /** A guarded write that goes ahead was shown the current token, and no record has it afterwards. */
  lemma Supersedes(st: Store, op: Op)
    requires Consistent(st) && Guarded(op) && Do(st, op).1.None?
    ensures Unquoted(IfMatchOf(op)) == Token(CheckedVersion(st, op))
    ensures 1 <= CheckedVersion(st, op) <= st.rowSeq
    ensures Spent(Do(st, op).0, CheckedVersion(st, op))
  {
    hide Token, Unquoted, TrimSpace, Do, Advances, Spent, Filed, Indexed, TypesUnique, FlagsAgree, EndpointsUnique;
    DoAdvances(st, op);
    RenewsChecked(st, op);
    if OnEvent(op) {
      SupersededEvent(st, Do(st, op).0, op.evId);
    } else {
      SupersededSub(st, Do(st, op).0, op.id);
    }
  }

  lemma SpentStays(st: Store, op: Op, k: nat)
    requires Consistent(st) && Spent(st, k)
    ensures Spent(Do(st, op).0, k)
  {
    hide Do, Indexed;
    DoAdvances(st, op);
  }

  /** A superseded mint never comes back on any record, over any run. */
  lemma {:induction false} SpentForever(st: Store, ops: seq<Op>, k: nat)
    requires Consistent(st) && FreshRun(st, ops) && Spent(st, k)
    ensures Spent(DoAll(st, ops), k)
    ensures forall a :: a in DoAll(st, ops).subs && DoAll(st, ops).rowSeq < TWO64 ==>
      Token(DoAll(st, ops).subs[a].version) != Token(k)
    ensures forall e :: e in DoAll(st, ops).events && DoAll(st, ops).rowSeq < TWO64 ==>
      Token(DoAll(st, ops).events[e].version) != Token(k)
    decreases |ops|
  {
    hide Do, FreshOp, Token;
    if ops == [] {
      DistinctTokens(st, k);
    } else {
      SpentStays(st, ops[0], k);
      DoConsistent(st, ops[0]);
      SpentForever(Do(st, ops[0]).0, ops[1..], k);
    }
  }

  lemma DistinctTokens(st: Store, k: nat)
    requires VersionsUnique(st) && Spent(st, k)
    ensures forall a :: a in st.subs && st.rowSeq < TWO64 ==> Token(st.subs[a].version) != Token(k)
    ensures forall e :: e in st.events && st.rowSeq < TWO64 ==> Token(st.events[e].version) != Token(k)
  {
    hide Token;
    if st.rowSeq < TWO64 {
      forall a | a in st.subs ensures Token(st.subs[a].version) != Token(k) {
        if Token(st.subs[a].version) == Token(k) { TokensDistinct(st.subs[a].version, k); }
      }
      forall e | e in st.events ensures Token(st.events[e].version) != Token(k) {
        if Token(st.events[e].version) == Token(k) { TokensDistinct(st.events[e].version, k); }
      }
    }
  }

  predicate UsesToken(st: Store, op: Op, token: string) {
    Guarded(op) && Do(st, op).1.None? && Unquoted(IfMatchOf(op)) == token
  }

  /** How many guarded writes of the run went ahead on this token. */
  function Uses(st: Store, ops: seq<Op>, token: string): nat
    decreases |ops|
  {
    if ops == [] then 0
    else (if UsesToken(st, ops[0], token) then 1 else 0) + Uses(Do(st, ops[0]).0, ops[1..], token)
  }

  lemma {:induction false} MintsOnlyGrow(st: Store, ops: seq<Op>)
    requires Consistent(st) && FreshRun(st, ops)
    ensures st.rowSeq <= DoAll(st, ops).rowSeq
    decreases |ops|
  {
    hide Do, Indexed, FreshOp;
    if ops != [] {
      DoAdvances(st, ops[0]);
      DoConsistent(st, ops[0]);
      MintsOnlyGrow(Do(st, ops[0]).0, ops[1..]);
    }
  }

  lemma {:induction false} SpentTokenUnused(st: Store, ops: seq<Op>, k: nat)
    requires Consistent(st) && FreshRun(st, ops) && Spent(st, k) && DoAll(st, ops).rowSeq < TWO64
    ensures Uses(st, ops, Token(k)) == 0
    decreases |ops|
  {
    hide Do, Consistent, FreshOp, Token, Unquoted, CheckedVersion, IfMatchOf;
    if ops != [] {
      MintsOnlyGrow(st, ops);
      if UsesToken(st, ops[0], Token(k)) {
        Supersedes(st, ops[0]);
        TokensDistinct(CheckedVersion(st, ops[0]), k);
        CheckedVersionNotSpent(st, ops[0], k);
      }
      SpentStays(st, ops[0], k);
      DoConsistent(st, ops[0]);
      SpentTokenUnused(Do(st, ops[0]).0, ops[1..], k);
    }
  }

  lemma CheckedVersionNotSpent(st: Store, op: Op, k: nat)
    requires Guarded(op) && Spent(st, k) && k >= 1
    ensures CheckedVersion(st, op) != k
  {
  }

  /** Over any run below 2^64 mints, at most one guarded write succeeds per token. */
  lemma {:induction false} OneWritePerToken(st: Store, ops: seq<Op>, token: string)
    requires Consistent(st) && FreshRun(st, ops) && DoAll(st, ops).rowSeq < TWO64
    ensures Uses(st, ops, token) <= 1
    decreases |ops|
  {
    hide Do, Consistent, FreshOp, Token, Unquoted, CheckedVersion, IfMatchOf, Spent;
    if ops != [] {
      DoConsistent(st, ops[0]);
      if UsesToken(st, ops[0], token) {
        Supersedes(st, ops[0]);
        SpentTokenUnused(Do(st, ops[0]).0, ops[1..], CheckedVersion(st, ops[0]));
      } else {
        OneWritePerToken(Do(st, ops[0]).0, ops[1..], token);
      }
    }
  }

  // ----------------------------------------------------------------- routing

  /** Event e of subscription id matches. */
  predicate Answers(st: Store, id: string, e: string, eventType: string, targetIds: seq<string>) {
    e in st.events && st.events[e].subscriptionId == id && EventMatches(st.events[e], eventType, targetIds)
  }

  /** Some event of the subscription matches. */
  ghost predicate Routable(st: Store, id: string, eventType: string, targetIds: seq<string>) {
    exists e :: Answers(st, id, e, eventType, targetIds)
  }

  lemma {:induction false} FirstMatchMeaning(st: Store, ids: seq<string>, eventType: string, targetIds: seq<string>)
    ensures var r := FirstMatch(st, ids, eventType, targetIds);
      && (r.Some? ==> exists i :: 0 <= i < |ids| && ids[i] in st.events && r == Some(st.events[ids[i]]) &&
                                  EventMatches(st.events[ids[i]], eventType, targetIds))
      && (r.None? ==> forall i :: 0 <= i < |ids| && ids[i] in st.events ==>
        !EventMatches(st.events[ids[i]], eventType, targetIds))
  {
    hide EventMatches;
    if ids != [] {
      FirstMatchMeaning(st, ids[1..], eventType, targetIds);
      var r := FirstMatch(st, ids[1..], eventType, targetIds);
      if r.Some? {
        var i :| 0 <= i < |ids[1..]| && ids[1..][i] in st.events && r == Some(st.events[ids[1..][i]]) &&
                 EventMatches(st.events[ids[1..][i]], eventType, targetIds);
        assert ids[i + 1] == ids[1..][i];
      }
      forall i | 1 <= i < |ids| ensures ids[i] == ids[1..][i - 1] {
      }
    }
  }

  /** At most one event of a subscription matches. */
  lemma OnlyMatch(st: Store, d: string, e: string, eventType: string, targetIds: seq<string>)
    requires TypesUnique(st) && d in st.events && e in st.events
    requires st.events[d].subscriptionId == st.events[e].subscriptionId
    requires EventMatches(st.events[d], eventType, targetIds) && EventMatches(st.events[e], eventType, targetIds)
    ensures d == e
  {
    hide Folded;
    assert SameType(st.events[d], st.events[e]);
  }

  lemma MatchingEventMeaning(st: Store, id: string, eventType: string, targetIds: seq<string>)
    requires Consistent(st) && id in st.subs
    ensures var r := MatchingEvent(st, st.subs[id], eventType, targetIds);
      && (r.Some? <==> Routable(st, id, eventType, targetIds))
      && (r.Some? ==> Answers(st, id, r.value.id, eventType, targetIds) && r.value == st.events[r.value.id])
  {
    hide TypesUnique, VersionsUnique, EndpointsUnique, EqualFold;
    var ids := st.subs[id].events;
    FirstMatchMeaning(st, ids, eventType, targetIds);
    if e :| Answers(st, id, e, eventType, targetIds) {
      var i :| 0 <= i < |ids| && ids[i] == e;
      assert ids[i] in st.events;
      assert st.subs[id].isActive && st.subs[id].status == Active;
    }
    var r := MatchingEvent(st, st.subs[id], eventType, targetIds);
    if r.Some? {
      assert Answers(st, id, r.value.id, eventType, targetIds);
    }
  }

  /** The recipients among any ids, as a set and in order. */
  lemma {:induction false} RecipientsMeaning(st: Store, ids: seq<string>, eventType: string, targetIds: seq<string>)
    requires Sorted(ids, AtMost) && Distinct(ids)
    requires forall i :: 0 <= i < |ids| ==> ids[i] in st.subs && st.subs[ids[i]].id == ids[i]
    ensures var out := RecipientsAmong(st, ids, eventType, targetIds);
      && (forall r :: r in out ==> && r.subscription.id in ids && r.subscription.id in st.subs
                                   && r.subscription == st.subs[r.subscription.id]
                                   && MatchingEvent(st, r.subscription, eventType, targetIds) == Some(r.event))
      && (forall id :: id in ids && MatchingEvent(st, st.subs[id], eventType, targetIds).Some? ==>
            Recipient(st.subs[id], MatchingEvent(st, st.subs[id], eventType, targetIds).value) in out)
      && (forall i, j :: 0 <= i < j < |out| ==>
            AtMost(out[i].subscription.id, out[j].subscription.id) && out[i].subscription.id != out[j].subscription.id)
  {
    hide MatchingEvent, AtMost;
    if ids != [] {
      var n := |ids| - 1;
      assert ids == ids[..n] + [ids[n]];
      RecipientsMeaning(st, ids[..n], eventType, targetIds);
      var before := RecipientsAmong(st, ids[..n], eventType, targetIds);
      forall i | 0 <= i < |before|
        ensures AtMost(before[i].subscription.id, ids[n]) && before[i].subscription.id != ids[n]
      {
        assert before[i] in before;
        var k :| 0 <= k < n && ids[..n][k] == before[i].subscription.id;
        assert ids[k] == before[i].subscription.id;
      }
    }
  }

  /**
   * What Recipients returns: one recipient for each subscription with a matching event, in strictly
   * increasing id order, each an active subscription with its only matching event.
   */
  lemma RecipientsExact(st: Store, ids: seq<string>, eventType: string, targetIds: seq<string>)
    requires Consistent(st) && InIdOrder(st, ids)
    ensures var out := RecipientsAmong(st, ids, eventType, targetIds);
      && (forall i, j :: 0 <= i < j < |out| ==>
            AtMost(out[i].subscription.id, out[j].subscription.id) && out[i].subscription.id != out[j].subscription.id)
      && (forall id :: Routable(st, id, eventType, targetIds) <==> exists r :: r in out && r.subscription.id == id)
      && (forall r :: r in out ==>
            && r.subscription.id in st.subs && r.subscription == st.subs[r.subscription.id]
            && r.subscription.isActive && r.subscription.status == Active
            && r.event.id in st.events && r.event == st.events[r.event.id]
            && (forall e :: Answers(st, r.subscription.id, e, eventType, targetIds) <==> e == r.event.id))
  {
    hide EventMatches, AtMost, Routable, TypesUnique, VersionsUnique, EndpointsUnique, FlagsAgree, RecipientsAmong;
    RecipientsMeaning(st, ids, eventType, targetIds);
    var out := RecipientsAmong(st, ids, eventType, targetIds);
    forall id ensures Routable(st, id, eventType, targetIds) <==> exists r :: r in out && r.subscription.id == id {
      if Routable(st, id, eventType, targetIds) {
        RoutedOnlyWithin(st, id, eventType, targetIds);
      }
      if id in st.subs {
        MatchingEventMeaning(st, id, eventType, targetIds);
        if Routable(st, id, eventType, targetIds) {
          assert Recipient(st.subs[id], MatchingEvent(st, st.subs[id], eventType, targetIds).value) in out;
        }
      }
    }
    forall r | r in out
      ensures && r.subscription.isActive && r.subscription.status == Active
              && r.event.id in st.events && r.event == st.events[r.event.id]
              && (forall e :: Answers(st, r.subscription.id, e, eventType, targetIds) <==> e == r.event.id)
    {
      MatchingEventMeaning(st, r.subscription.id, eventType, targetIds);
      forall e | Answers(st, r.subscription.id, e, eventType, targetIds)
        ensures e == r.event.id
      {
        OnlyMatch(st, e, r.event.id, eventType, targetIds);
      }
    }
  }

  lemma RoutedOnlyWithin(st: Store, id: string, eventType: string, targetIds: seq<string>)
    requires Indexed(st) && Routable(st, id, eventType, targetIds)
    ensures id in st.subs
  {
  }
}
