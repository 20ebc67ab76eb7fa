/** Whether a guarded write can go over a state its client has not read. */
module SubscriptionSeen {
  import opened Text
  import opened Sorting
  import opened RowVersions
  import opened Subscriptions
  import opened SubscriptionLaws
  import opened SubscriptionHistory

  /** A refused Update of id that rewrites some field all the same: the condition of RefusedUpdateChangesNothingIff. */
  predicate WritesUnseen(st: Store, op: Op, id: string) {
    && op.Update? && op.id == id && id in st.subs
    && (BadKey(op.u) || BadSize(op.u)) && !RefusedEarly(st, id, op.ifMatch, op.u)
    && (|| Writes(op.u.endpoint, st.subs[id].endpoint)
        || (!BadKey(op.u) && (Writes(op.u.encryptionKey, st.subs[id].encryptionKey)
                              || Writes(op.u.email, st.subs[id].email))))
  }

  /** One call on a record whose token it does not supersede. */
  lemma StepSeenIff(st: Store, op: Op, id: string)
    requires Consistent(st) && FreshOp(st, op) && id in st.subs
    requires id in Do(st, op).0.subs && Do(st, op).0.subs[id].version == st.subs[id].version
    ensures Do(st, op).0.subs[id] == st.subs[id] <==> !WritesUnseen(st, op, id)
  {
    hide Consistent, Created, Updated, ActiveSet, Deleted, EventAdded, TargetsReplaced, EventDeleted;
    if op.Update? && op.id == id {
      assert op == Update(id, op.ifMatch, op.u);
      UpdateSeenIff(st, id, op.ifMatch, op.u);
    } else {
      OtherSeen(st, op, id);
    }
  }

  lemma UpdateSeenIff(st: Store, id: string, ifMatch: string, u: UpdateParams)
    requires Consistent(st) && id in st.subs && id in Updated(st, id, ifMatch, u).0.subs
    requires Updated(st, id, ifMatch, u).0.subs[id].version == st.subs[id].version
    ensures Updated(st, id, ifMatch, u).0.subs[id] == st.subs[id] <==> !WritesUnseen(st, Update(id, ifMatch, u), id)
  {
    hide Updated, RefusedEarly, BadKey, BadSize, UpdatedFields;
    hide Filed, Indexed, TypesUnique, FlagsAgree, EndpointsUnique;
    UpdateRefusedIff(st, id, ifMatch, u);
    if RefusedEarly(st, id, ifMatch, u) || BadKey(u) || BadSize(u) {
      RefusedUpdateChangesNothingIff(st, id, ifMatch, u);
      RefusedOnlyTouches(st, id, ifMatch, u);
    } else {
      AcceptedUpdateMints(st, id, ifMatch, u);
    }
  }

  lemma RefusedOnlyTouches(st: Store, id: string, ifMatch: string, u: UpdateParams)
    requires id in st.subs && (RefusedEarly(st, id, ifMatch, u) || BadKey(u) || BadSize(u))
    ensures var t := Updated(st, id, ifMatch, u).0;
      id in t.subs && (t == st <==> t.subs[id] == st.subs[id])
  {
    hide RefusedEarly, BadKey, BadSize, Updated, WithEndpoint, WithKey, WithEmail;
    RefusedUpdateWrites(st, id, ifMatch, u);
    var t := Updated(st, id, ifMatch, u).0;
    if id in t.subs && t.subs[id] == st.subs[id] {
      assert t.subs == st.subs;
    }
  }

  lemma AcceptedUpdateMints(st: Store, id: string, ifMatch: string, u: UpdateParams)
    requires Consistent(st) && id in st.subs && Updated(st, id, ifMatch, u).1.None?
    ensures id in Updated(st, id, ifMatch, u).0.subs
    ensures Updated(st, id, ifMatch, u).0.subs[id].version > st.subs[id].version
  {
    hide Matches, Token, UpdatedFields, Filed, Indexed, TypesUnique, FlagsAgree, EndpointsUnique;
  }

  /** Any other call leaves the record alone or renews its token. */
  lemma OtherSeen(st: Store, op: Op, id: string)
    requires Consistent(st) && FreshOp(st, op) && id in st.subs && !(op.Update? && op.id == id)
    requires id in Do(st, op).0.subs && Do(st, op).0.subs[id].version == st.subs[id].version
    ensures Do(st, op).0.subs[id] == st.subs[id]
  {
    hide Matches, Token, TrimSpace, HasType, Without, ActiveSet, UpdatedFields, EqualFold, EventsSet;
    hide EndpointsUnique, TypesUnique, FlagsAgree;
    assert st.subs[id].version <= st.rowSeq;
    match op {
      case SetActive(k, ifMatch, active) => if k in st.subs { AdvancesActiveSet(st, k, active, ""); }
      case Deactivate(k, reason) => if k in st.subs { AdvancesActiveSet(st, k, false, reason); }
      case _ =>
    }
  }

  /** At every point of the run the subscription reads as it does now. */
  ghost predicate Steady(st: Store, ops: seq<Op>, id: string, s: Subscription)
    decreases |ops|
  {
    && id in st.subs && st.subs[id] == s
    && (ops == [] || Steady(Do(st, ops[0]).0, ops[1..], id, s))
  }

  ghost predicate NoneUnseen(st: Store, ops: seq<Op>, id: string)
    decreases |ops|
  {
    ops == [] || (!WritesUnseen(st, ops[0], id) && NoneUnseen(Do(st, ops[0]).0, ops[1..], id))
  }

  /** A subscription that keeps its token over a run keeps it at every step of it. */
  lemma TokenKept(st: Store, ops: seq<Op>, id: string)
    requires Consistent(st) && FreshRun(st, ops) && ops != [] && id in st.subs
    requires id in DoAll(st, ops).subs && DoAll(st, ops).subs[id].version == st.subs[id].version
    ensures id in Do(st, ops[0]).0.subs && Do(st, ops[0]).0.subs[id].version == st.subs[id].version
  {
    hide Do, FreshOp, Filed, Indexed, TypesUnique, FlagsAgree, EndpointsUnique;
    var t, k := Do(st, ops[0]).0, st.subs[id].version;
    DoAdvances(st, ops[0]);
    DoConsistent(st, ops[0]);
    if id !in t.subs || t.subs[id].version != k {
      SupersededSub(st, t, id);
      SpentForever(t, ops[1..], k);
      assert false;
    }
  }

  /** While a token stays current, over any run: the record is at every moment what it was, if and only if no refused
      Update has rewritten a field of it. */
  lemma {:induction false} SteadyIff(st: Store, ops: seq<Op>, id: string)
    requires Consistent(st) && FreshRun(st, ops) && id in st.subs
    requires id in DoAll(st, ops).subs && DoAll(st, ops).subs[id].version == st.subs[id].version
    ensures Steady(st, ops, id, st.subs[id]) <==> NoneUnseen(st, ops, id)
    decreases |ops|
  {
    hide Do, Consistent, FreshOp, WritesUnseen;
    if ops != [] {
      TokenKept(st, ops, id);
      StepSeenIff(st, ops[0], id);
      DoConsistent(st, ops[0]);
      var t := Do(st, ops[0]).0;
      SteadyIff(t, ops[1..], id);
      if t.subs[id] != st.subs[id] {
        SteadyHead(t, ops[1..], id, st.subs[id]);
      }
    }
  }

  lemma SteadyHead(st: Store, ops: seq<Op>, id: string, s: Subscription)
    requires id in st.subs && st.subs[id] != s
    ensures !Steady(st, ops, id, s)
  {
  }

  /** A subscription's token that matches later is still the one that was read. */
  lemma MatchIsCurrent(st: Store, ops: seq<Op>, id: string)
    requires Consistent(st) && FreshRun(st, ops) && DoAll(st, ops).rowSeq < TWO64 && id in st.subs
    requires id in DoAll(st, ops).subs && Token(DoAll(st, ops).subs[id].version) == Token(st.subs[id].version)
    ensures DoAll(st, ops).subs[id].version == st.subs[id].version
  {
    hide Token, Do, FreshOp, Filed, Indexed, TypesUnique, FlagsAgree, EndpointsUnique;
    MintsOnlyGrow(st, ops);
    AlwaysConsistent(st, ops);
    TokensDistinct(DoAll(st, ops).subs[id].version, st.subs[id].version);
  }

  /**
   * The promise of If-Match, over any run below 2^64 mints. A client reads a subscription, anything happens, and a
   * write guarded by the token it read goes ahead: the record has been, all along, what the client read if and only
   * if no refused Update wrote to it meanwhile.
   */
  lemma WritesOverWhatWasReadIff(st: Store, ops: seq<Op>, op: Op, id: string)
    requires Consistent(st) && FreshRun(st, ops) && DoAll(st, ops).rowSeq < TWO64 && id in st.subs
    requires Guarded(op) && !OnEvent(op) && op.id == id && Unquoted(IfMatchOf(op)) == Token(st.subs[id].version)
    requires Do(DoAll(st, ops), op).1.None?
    ensures id in DoAll(st, ops).subs
    ensures Steady(st, ops, id, st.subs[id]) <==> NoneUnseen(st, ops, id)
    ensures NoneUnseen(st, ops, id) ==> DoAll(st, ops).subs[id] == st.subs[id]
  {
    hide Token, Unquoted, Do, FreshOp, Consistent;
    AlwaysConsistent(st, ops);
    RenewedIsThere(DoAll(st, ops), op);
    Supersedes(DoAll(st, ops), op);
    MatchIsCurrent(st, ops, id);
    SteadyIff(st, ops, id);
    if NoneUnseen(st, ops, id) {
      SteadyAtTheEnd(st, ops, id, st.subs[id]);
    }
  }

  lemma RenewedIsThere(st: Store, op: Op)
    requires Consistent(st) && Guarded(op) && !OnEvent(op) && Do(st, op).1.None?
    ensures op.id in st.subs
  {
    hide Do, Filed, TypesUnique, FlagsAgree, EndpointsUnique, VersionsUnique;
    RenewsChecked(st, op);
  }

  lemma {:induction false} SteadyAtTheEnd(st: Store, ops: seq<Op>, id: string, s: Subscription)
    requires Steady(st, ops, id, s)
    ensures id in DoAll(st, ops).subs && DoAll(st, ops).subs[id] == s
    decreases |ops|
  {
    hide Do;
    if ops != [] {
      SteadyAtTheEnd(Do(st, ops[0]).0, ops[1..], id, s);
    }
  }

  // Events, which no refused call writes to.

  lemma ActiveSetSeen(st: Store, id: string, active: bool, reason: string, e: string)
    requires Consistent(st) && id in st.subs && e in st.events
    ensures var t := ActiveSet(st, id, active, reason);
      e in t.events && (t.events[e].version == st.events[e].version ==> t.events[e] == st.events[e])
  {
    hide EventsSet, Distinct, EndpointsUnique, TypesUnique, FlagsAgree;
    OwnEvents(st, id);
    EventsSetEach(st, st.subs[id].events, active, e);
  }

  lemma StepEventSeen(st: Store, op: Op, e: string)
    requires Consistent(st) && FreshOp(st, op) && e in st.events
    requires e in Do(st, op).0.events && Do(st, op).0.events[e].version == st.events[e].version
    ensures Do(st, op).0.events[e] == st.events[e]
  {
    hide Matches, Token, TrimSpace, HasType, Without, ActiveSet, UpdatedFields, EqualFold, EventsSet;
    hide EndpointsUnique, TypesUnique, FlagsAgree;
    assert st.events[e].version <= st.rowSeq;
    match op {
      case SetActive(k, ifMatch, active) => if k in st.subs { ActiveSetSeen(st, k, active, "", e); }
      case Deactivate(k, reason) => if k in st.subs { ActiveSetSeen(st, k, false, reason, e); }
      case _ =>
    }
  }

  lemma {:induction false} EventSeen(st: Store, ops: seq<Op>, e: string)
    requires Consistent(st) && FreshRun(st, ops) && e in st.events
    requires e in DoAll(st, ops).events && DoAll(st, ops).events[e].version == st.events[e].version
    ensures DoAll(st, ops).events[e] == st.events[e]
    decreases |ops|
  {
    hide Do, FreshOp, Filed, Indexed, TypesUnique, FlagsAgree, EndpointsUnique;
    if ops != [] {
      var t, k := Do(st, ops[0]).0, st.events[e].version;
      DoAdvances(st, ops[0]);
      DoConsistent(st, ops[0]);
      if e !in t.events || t.events[e].version != k {
        SupersededEvent(st, t, e);
        SpentForever(t, ops[1..], k);
        assert false;
      } else {
        StepEventSeen(st, ops[0], e);
        EventSeen(t, ops[1..], e);
      }
    }
  }

  /** For an event the promise holds outright: a guarded write that goes ahead finds it as its client read it. */
  lemma EventWriteSeesWhatWasRead(st: Store, ops: seq<Op>, op: Op, e: string)
    requires Consistent(st) && FreshRun(st, ops) && DoAll(st, ops).rowSeq < TWO64 && e in st.events
    requires Guarded(op) && OnEvent(op) && op.evId == e && Unquoted(IfMatchOf(op)) == Token(st.events[e].version)
    requires Do(DoAll(st, ops), op).1.None?
    ensures e in DoAll(st, ops).events && DoAll(st, ops).events[e] == st.events[e]
  {
    hide Token, Unquoted, Do, FreshOp, Filed, Indexed, TypesUnique, FlagsAgree, EndpointsUnique;
    var m := DoAll(st, ops);
    AlwaysConsistent(st, ops);
    Supersedes(m, op);
    MintsOnlyGrow(st, ops);
    TokensDistinct(CheckedVersion(m, op), st.events[e].version);
    EventSeen(st, ops, e);
  }

  // ---------------------------------------------------------------- witness

  function Acme(key: string): Op {
    Create(CreateParams("https://a", key, Active, "", 0, false), "s")
  }

  /** Moves the endpoint, and is refused for its key. */
  function HalfWritten(): Op {
    Update("s", Token(1), UpdateParams(Some("https://b"), Some(""), None, None, None))
  }

  function Later(): Op {
    Update("s", Token(1), UpdateParams(None, None, Some("x@y"), None, None))
  }

  /** Created at https://a and read; a refused Update leaves it at https://b; the reader's guarded write goes ahead and
      keeps an endpoint nobody has read. */
  lemma WrittenUnseen(key: string)
    requires ByteLength(key) == KEY_LENGTH
    ensures FreshRun(NEW_STORE, [Acme(key), HalfWritten(), Later()])
    ensures var st := Do(NEW_STORE, Acme(key)).0;
      var (t, e) := Do(st, HalfWritten());
      var (u, f) := Do(t, Later());
      && "s" in st.subs && st.subs["s"].endpoint == "https://a" && st.subs["s"].version == 1
      && e == Some(BadKeyLength) && "s" in t.subs && t.subs["s"].endpoint == "https://b" && t.subs["s"].version == 1
      && f == None && "s" in u.subs && u.subs["s"].endpoint == "https://b" && u.subs["s"].version == 2
  {
    hide Token, Matches, ByteLength;
    RefusedUpdateMayWrite(key);
    TokenMatches(1);
    EmptyIsNoBytes();
    var ops := [Acme(key), HalfWritten(), Later()];
    assert TrimSpace("https://a") == "https://a";
    var st := Do(NEW_STORE, ops[0]).0;
    assert st.subs["s"].version == 1;
    assert ops[1..] == [ops[1], ops[2]] && ops[1..][1..] == [ops[2]] && [ops[2]][1..] == [];
    var t := Do(st, ops[1]).0;
    assert FreshRun(t, [ops[2]]) by {
      assert FreshRun(Do(t, ops[2]).0, []);
    }
    assert FreshRun(st, ops[1..]);
  }
}
