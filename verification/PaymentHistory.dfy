/** What whole runs of the payment engine can and cannot do to a payment. */
module PaymentHistory {
  import opened Text
  import opened Ledger
  import opened Payments
  import opened PaymentRuns
  import Money

  // --------------------------------------------------------- allowed edges

  /** One notification may follow another on the same payment. */
  predicate Edge(a: PState, b: PState) {
    || (a == OutBooked && b in {OutProcessed, OutRejected, MissingFunding})
    || (a == OutProcessed && b == Reversed)
    || (a == InBooked && b == InProcessed)
  }

  predicate Reaches(a: PState, b: PState) {
    || a == b
    || (a == OutBooked && b in {OutProcessed, OutRejected, MissingFunding, Reversed})
    || Edge(a, b)
  }

  /** What no step ever rewrites. */
  predicate SameOrder(p: Payment, q: Payment) {
    && p.id == q.id && p.fromId == q.fromId && p.toId == q.toId
    && p.amount == q.amount && p.currency == q.currency && p.referenceNumber == q.referenceNumber
    && p.isReturn == q.isReturn && p.returnOf == q.returnOf && p.returnedReference == q.returnedReference
    && p.createdAt == q.createdAt
    && (p.returnedBy != "" ==> q.returnedBy == p.returnedBy)
  }

  lemma FilingEdges(s: Sys, st: Step, k: nat)
    requires Coherent(s) && Enabled(s, st) && k < |s.core.objs| && Files(st)
    ensures k < |Apply(s, st).core.objs|
    ensures var p, q := s.core.objs[k], Apply(s, st).core.objs[k]; SameOrder(p, q) && p.state == q.state
  {
    hide Money.Parse, RefNo, ReturnRemittance, Posted;
  }

  lemma StepEdges(s: Sys, st: Step, k: nat)
    requires Coherent(s) && Enabled(s, st) && k < |s.core.objs|
    ensures k < |Apply(s, st).core.objs|
    ensures var p, q := s.core.objs[k], Apply(s, st).core.objs[k];
            SameOrder(p, q) && (p.state == q.state || Edge(p.state, q.state))
  {
    hide Money.Parse, RefNo, ReturnRemittance, Posted, CreateCore, RecordCore, ReturnCore, Refusal, Moved, Credited;
    if Files(st) {
      FilingEdges(s, st, k);
    }
  }

  /** Over any run a payment keeps its identity, and its state only moves along the edges. */
  lemma {:induction false} RunEdges(s: Sys, tr: seq<Step>, k: nat)
    requires Coherent(s) && LegalRun(s, tr) && k < |s.core.objs|
    ensures k < |Run(s, tr).core.objs|
    ensures var p, q := s.core.objs[k], Run(s, tr).core.objs[k];
            SameOrder(p, q) && Reaches(p.state, q.state)
    decreases |tr|
  {
    hide Apply, Enabled, Coherent;
    if tr != [] {
      StepCoherent(s, tr[0]);
      StepEdges(s, tr[0], k);
      RunEdges(Apply(s, tr[0]), tr[1..], k);
    }
  }

  // ------------------------------------------------ money back at most once

  /** The money of payment k has gone back, or is going back under the engine's mutex. */
  ghost predicate CameBack(s: Sys, k: nat) {
    && k < |s.core.objs|
    && (s.core.objs[k].state == Reversed || s.core.objs[k].returnedBy != "" || (!s.held.Free? && s.held.ptr == k))
  }

  ghost predicate TakesBack(s: Sys, st: Step, k: nat)
    requires Enabled(s, st)
  {
    st.TakeBack? && TakenBack(s, st.payment) == Some(k)
  }

  /** How often, in a run, the ledger was asked and agreed to send payment k's money back. */
  ghost function TimesBack(s: Sys, tr: seq<Step>, k: nat): nat
    requires LegalRun(s, tr)
    decreases |tr|
  {
    if tr == [] then 0
    else (if TakesBack(s, tr[0], k) then 1 else 0) + TimesBack(Apply(s, tr[0]), tr[1..], k)
  }

  function Ticks(b: bool): nat {
    if b then 1 else 0
  }

  lemma StepCameBack(s: Sys, st: Step, k: nat)
    requires Coherent(s) && Enabled(s, st)
    ensures Ticks(CameBack(Apply(s, st), k)) == Ticks(CameBack(s, k)) + Ticks(TakesBack(s, st, k))
  {
    hide Money.Parse, RefNo, ReturnRemittance, Posted, Moved, Credited, Refusal;
  }

  /** The moves that took payment k's money back are counted exactly by its record. */
  lemma {:induction false} BackCounted(s: Sys, tr: seq<Step>, k: nat)
    requires Coherent(s) && LegalRun(s, tr)
    ensures TimesBack(s, tr, k) == Ticks(CameBack(Run(s, tr), k)) - Ticks(CameBack(s, k))
    decreases |tr|
  {
    hide Apply, Enabled, Coherent, CameBack, TakesBack;
    if tr != [] {
      StepCoherent(s, tr[0]);
      StepCameBack(s, tr[0], k);
      BackCounted(Apply(s, tr[0]), tr[1..], k);
    }
  }

  /** At most once, by Reverse or by Return, and a record never shows both. */
  lemma BackAtMostOnce(s: Sys, tr: seq<Step>, k: nat)
    requires Initial(s) && LegalRun(s, tr)
    ensures TimesBack(s, tr, k) <= 1
    ensures k < |Run(s, tr).core.objs| ==>
      var p := Run(s, tr).core.objs[k];
      !(p.state == Reversed && p.returnedBy != "")
    ensures k < |Run(s, tr).core.objs| && Run(s, tr).held.Free? ==>
      (TimesBack(s, tr, k) == 1 <==>
         Run(s, tr).core.objs[k].state == Reversed || Run(s, tr).core.objs[k].returnedBy != "")
  {
    BackCounted(s, tr, k);
    RunCoherent(s, tr);
  }

  lemma {:induction false} RunCoherent(s: Sys, tr: seq<Step>)
    requires Coherent(s) && LegalRun(s, tr)
    ensures Coherent(Run(s, tr))
    decreases |tr|
  {
    hide Apply, Enabled, Coherent;
    if tr != [] {
      StepCoherent(s, tr[0]);
      RunCoherent(Apply(s, tr[0]), tr[1..]);
    }
  }

  // ------------------------------------------------------- reference numbers

  /** Payment k carries the reference number k+1, as an int64 counts. */
  ghost predicate Numbered(c: Core) {
    && c.refSeq == Wrap64(|c.objs|)
    && forall k :: 0 <= k < |c.objs| ==> c.objs[k].referenceNumber == RefNo(Wrap64(k + 1))
  }

  lemma StepNumbered(s: Sys, st: Step)
    requires Coherent(s) && Enabled(s, st) && Numbered(s.core)
    ensures Numbered(Apply(s, st).core)
  {
    hide Money.Parse, RefNo, ReturnRemittance, Posted, Moved, Credited, Refusal, Wrap64;
    WrapAdd(|s.core.objs|, 1);
  }

  lemma {:induction false} RunNumbered(s: Sys, tr: seq<Step>)
    requires Coherent(s) && LegalRun(s, tr) && Numbered(s.core)
    ensures Numbered(Run(s, tr).core)
    decreases |tr|
  {
    hide Apply, Enabled, Coherent, Numbered;
    if tr != [] {
      StepCoherent(s, tr[0]);
      StepNumbered(s, tr[0]);
      RunNumbered(Apply(s, tr[0]), tr[1..]);
    }
  }

  /** Reference numbers are pairwise distinct, over every payment ever made. */
  lemma ReferencesDistinct(s: Sys, tr: seq<Step>, i: nat, j: nat)
    requires Initial(s) && LegalRun(s, tr)
    requires i < j < |Run(s, tr).core.objs| <= MAX64
    ensures Run(s, tr).core.objs[i].referenceNumber != Run(s, tr).core.objs[j].referenceNumber
  {
    hide RefNo;
    RunNumbered(s, tr);
    if RefNo(i + 1) == RefNo(j + 1) {
      RefNoInjective(i + 1, j + 1);
    }
  }

  // -------------------------------------------------- returns and their payouts

  /** Fresh ids: nothing filed is displaced. */
  ghost predicate FreshStep(s: Sys, st: Step) {
    match st
    case Create(p, _) => p.id !in s.core.listed
    case Record(_, id, _) => id !in s.core.listed
    case FinishReturn(id, _, _, _) => id !in s.core.listed
    case _ => true
  }

  ghost predicate FreshRun(s: Sys, tr: seq<Step>)
    requires LegalRun(s, tr)
    decreases |tr|
  {
    tr == [] || (FreshStep(s, tr[0]) && FreshRun(Apply(s, tr[0]), tr[1..]))
  }

  /** Every object is filed under its own id. */
  ghost predicate Filed(c: Core) {
    && (forall k :: 0 <= k < |c.objs| ==> c.objs[k].id in c.listed && c.listed[c.objs[k].id] == k)
    && (forall id :: id in c.listed ==> c.listed[id] < |c.objs| && c.objs[c.listed[id]].id == id)
  }

  /** b is the return of payout o. */
  predicate IsReturnOf(b: Payment, o: Payment) {
    && b.isReturn && b.id != "" && b.returnOf == o.id && o.returnedBy == b.id
    && b.fromId == o.toId && b.toId == o.fromId
    && b.amount == o.amount && b.currency == o.currency
    && b.returnedReference == o.referenceNumber
    && o.state == OutProcessed && !o.isReturn
  }

  ghost predicate PayoutLinked(c: Core, k: nat)
    requires Filed(c) && k < |c.objs|
  {
    c.objs[k].returnedBy != "" ==>
      c.objs[k].returnedBy in c.listed && IsReturnOf(c.objs[c.listed[c.objs[k].returnedBy]], c.objs[k])
  }

  ghost predicate ReturnLinked(c: Core, k: nat)
    requires Filed(c) && k < |c.objs|
  {
    c.objs[k].isReturn ==>
      c.objs[k].returnOf in c.listed && IsReturnOf(c.objs[k], c.objs[c.listed[c.objs[k].returnOf]])
  }

  /** ReturnedBy and ReturnOf point at each other, everywhere. */
  ghost predicate Linked(c: Core)
    requires Filed(c)
  {
    forall k :: 0 <= k < |c.objs| ==> PayoutLinked(c, k) && ReturnLinked(c, k)
  }

  lemma AppendFiled(c: Core, p: Payment)
    requires Filed(c) && p.id !in c.listed
    ensures Filed(Append(c, p))
    ensures !p.isReturn && p.returnedBy == "" && Linked(c) ==> Linked(Append(c, p))
  {
    hide Wrap64;
    var c' := Append(c, p);
    if !p.isReturn && p.returnedBy == "" && Linked(c) {
      forall i | 0 <= i < |c'.objs| ensures PayoutLinked(c', i) && ReturnLinked(c', i) {
        assert i < |c.objs| ==> PayoutLinked(c, i) && ReturnLinked(c, i);
      }
    }
  }

  /** q rewrites payment k without touching what the two links are made of. */
  predicate Rewrites(p: Payment, q: Payment) {
    SameOrder(p, q) && q.returnedBy == p.returnedBy && (p.returnedBy != "" ==> q.state == p.state)
  }

  lemma UpdateFiled(c: Core, k: nat, q: Payment)
    requires Filed(c) && k < |c.objs| && Rewrites(c.objs[k], q)
    ensures Filed(c.(objs := c.objs[k := q]))
    ensures Linked(c) ==> Linked(c.(objs := c.objs[k := q]))
  {
    var c' := c.(objs := c.objs[k := q]);
    if Linked(c) {
      forall i | 0 <= i < |c'.objs| ensures PayoutLinked(c', i) && ReturnLinked(c', i) {
        assert PayoutLinked(c, i) && ReturnLinked(c, i);
      }
    }
  }

  lemma ReturnFiled(c: Core, k: nat, id: string, code: string, description: string, now: string)
    requires Filed(c) && k < |c.objs| && id !in c.listed && id != ""
    requires c.objs[k].state == OutProcessed && !c.objs[k].isReturn && c.objs[k].returnedBy == ""
    ensures Filed(ReturnCore(c, k, id, code, description, now))
    ensures Linked(c) ==> Linked(ReturnCore(c, k, id, code, description, now))
  {
    hide Wrap64, RefNo, ReturnRemittance;
    var c' := ReturnCore(c, k, id, code, description, now);
    assert Filed(c');
    if Linked(c) {
      forall i | 0 <= i < |c'.objs| ensures PayoutLinked(c', i) && ReturnLinked(c', i) {
        if i < |c.objs| {
          assert PayoutLinked(c, i) && ReturnLinked(c, i);
        }
      }
    }
  }

  /** The queue of forced outcomes has no say in filing. */
  lemma FilingIgnoresForced(c: Core, forced: seq<Outcome>)
    requires Filed(c)
    ensures Filed(c.(forced := forced)) && (Linked(c) ==> Linked(c.(forced := forced)))
  {
    var c' := c.(forced := forced);
    if Linked(c) {
      forall i | 0 <= i < |c'.objs| ensures PayoutLinked(c', i) && ReturnLinked(c', i) {
        assert PayoutLinked(c, i) && ReturnLinked(c, i);
      }
    }
  }

  lemma StepFiled(s: Sys, st: Step)
    requires Coherent(s) && Enabled(s, st) && FreshStep(s, st) && Filed(s.core)
    ensures Filed(Apply(s, st).core)
    ensures Linked(s.core) ==> Linked(Apply(s, st).core)
  {
    hide Money.Parse, RefNo, ReturnRemittance, Posted, Moved, Credited, Refusal, Wrap64, Filed, Linked, Append;
    var c, c' := s.core, Apply(s, st).core;
    match st {
      case Create(p, now) =>
        var q := Booked(p, RefNo(NextRef(c.refSeq)), now);
        AppendFiled(c, q);
        FilingIgnoresForced(Append(c, q), c'.forced);
      case ForceNext(_) => FilingIgnoresForced(c, c'.forced);
      case Mark(k, now) => UpdateFiled(c, k, c'.objs[k]);
      case Record(j, id, now) =>
        var l := s.landing[j];
        AppendFiled(c, Incoming(id, l.toId, l.currency, l.amount, l.reference, RefNo(NextRef(c.refSeq)), now));
      case Settle(k, now) => UpdateFiled(c, k, c'.objs[k]);
      case FinishReverse(reason, now) => UpdateFiled(c, s.held.ptr, c'.objs[s.held.ptr]);
      case FinishReturn(id, code, description, now) => ReturnFiled(c, s.held.ptr, id, code, description, now);
      case _ =>
    }
  }

  lemma {:induction false} RunLinked(s: Sys, tr: seq<Step>)
    requires Coherent(s) && LegalRun(s, tr) && FreshRun(s, tr) && Filed(s.core) && Linked(s.core)
    ensures Filed(Run(s, tr).core) && Linked(Run(s, tr).core)
    decreases |tr|
  {
    hide Apply, Enabled, Coherent, Filed, Linked;
    if tr != [] {
      StepCoherent(s, tr[0]);
      StepFiled(s, tr[0]);
      RunLinked(Apply(s, tr[0]), tr[1..]);
    }
  }

  /** Returned payouts and return payments are in bijection: each of the two maps undoes the other. */
  lemma ReturnsBijective(s: Sys, tr: seq<Step>, k: nat)
    requires Initial(s) && LegalRun(s, tr) && FreshRun(s, tr)
    requires k < |Run(s, tr).core.objs|
    ensures var c := Run(s, tr).core;
            c.objs[k].returnedBy != "" ==>
              && c.objs[k].returnedBy in c.listed && c.listed[c.objs[k].returnedBy] < |c.objs|
              && var b := c.objs[c.listed[c.objs[k].returnedBy]];
                 IsReturnOf(b, c.objs[k]) && b.returnOf in c.listed && c.listed[b.returnOf] == k
    ensures var c := Run(s, tr).core;
            c.objs[k].isReturn ==>
              && c.objs[k].returnOf in c.listed && c.listed[c.objs[k].returnOf] < |c.objs|
              && var o := c.objs[c.listed[c.objs[k].returnOf]];
                 IsReturnOf(c.objs[k], o) && o.returnedBy in c.listed && c.listed[o.returnedBy] == k
  {
    RunLinked(s, tr);
    var c := Run(s, tr).core;
    assert PayoutLinked(c, k) && ReturnLinked(c, k);
  }

  // ------------------------------------------------------ displaced payments

  predicate IsListed(c: Core, k: nat) {
    k < |c.objs| && c.objs[k].id in c.listed && c.listed[c.objs[k].id] == k
  }

  /** The replay of what List returns: only the object each id currently names. */
  function ListedReplay(c: Core, a: string, n: nat): int
    requires n <= |c.objs|
  {
    if n == 0 then 0
    else ListedReplay(c, a, n - 1) + if IsListed(c, n - 1) then Effect(c.objs[n - 1], a) else 0
  }

  lemma {:induction false} FiledReplay(c: Core, a: string, n: nat)
    requires Filed(c) && n <= |c.objs|
    ensures ListedReplay(c, a, n) == Replay(c.objs[..n], a)
  {
    if n > 0 {
      FiledReplay(c, a, n - 1);
      assert c.objs[..n][..n - 1] == c.objs[..n - 1];
    }
  }

  /** With fresh ids, the payments the engine lists are all there is, so they replay the ledger too. */
  lemma {:induction false} FreshRunFiled(s: Sys, tr: seq<Step>)
    requires Coherent(s) && LegalRun(s, tr) && FreshRun(s, tr) && Filed(s.core)
    ensures Filed(Run(s, tr).core)
    decreases |tr|
  {
    hide Apply, Enabled, Coherent, Filed;
    if tr != [] {
      StepCoherent(s, tr[0]);
      StepFiled(s, tr[0]);
      FreshRunFiled(Apply(s, tr[0]), tr[1..]);
    }
  }

  lemma ListingReplaysFreshRuns(s: Sys, tr: seq<Step>, a: string)
    requires Initial(s) && LegalRun(s, tr) && FreshRun(s, tr)
    ensures var c := Run(s, tr).core; ListedReplay(c, a, |c.objs|) == Replay(c.objs, a)
  {
    FreshRunFiled(s, tr);
    var c := Run(s, tr).core;
    FiledReplay(c, a, |c.objs|);
    assert c.objs[..|c.objs|] == c.objs;
  }

  /** The ids of the map are right even when an id is used twice. */
  ghost predicate Named(c: Core) {
    forall id :: id in c.listed ==> c.listed[id] < |c.objs| && c.objs[c.listed[id]].id == id
  }

  lemma {:induction false} DisplacedReplay(c: Core, p: Payment, now: string, a: string, n: nat)
    requires Named(c) && n <= |c.objs|
    ensures ListedReplay(CreateCore(c, p, now), a, n) ==
            ListedReplay(c, a, n) - if p.id in c.listed && c.listed[p.id] < n
              then Effect(c.objs[c.listed[p.id]], a) else 0
  {
    hide RefNo, Effect, Wrap64;
    if n > 0 {
      DisplacedReplay(c, p, now, a, n - 1);
    }
  }

  /** At the moment of the call, creating over an id in use keeps the listing in step with the records if and
      only if the payment it displaces has moved nothing on that account. Whether it stays so is another matter. */
  lemma CreateKeepsListingIff(c: Core, p: Payment, now: string, a: string)
    requires Named(c) && ListedReplay(c, a, |c.objs|) == Replay(c.objs, a)
    ensures var c' := CreateCore(c, p, now);
            ListedReplay(c', a, |c'.objs|) == Replay(c'.objs, a)
            <==> (p.id in c.listed ==> Effect(c.objs[c.listed[p.id]], a) == 0)
  {
    hide RefNo, Wrap64;
    var c' := CreateCore(c, p, now);
    DisplacedReplay(c, p, now, a, |c.objs|);
    ReplayAppend(c.objs, c'.objs[|c.objs|], a);
  }

  /** One processed payout of 5.00 to b, and a second Create under its id: the listing forgets the 5.00. */
  lemma ReusedIdLosesPayout(p: Payment, now: string)
    requires p.state == OutProcessed && p.amount == "5.00" && p.fromId == "a" && p.toId == "b"
    ensures var c := Core([p], map[p.id := 0], [], 1);
            var c' := CreateCore(c, p, now);
            && ListedReplay(c, "b", 1) == Replay(c.objs, "b") == 500
            && ListedReplay(c', "b", 2) == 0 && Replay(c'.objs, "b") == 500
  {
    hide RefNo, Money.Parse, Wrap64;
    Money.FiveIsRead();
    var c := Core([p], map[p.id := 0], [], 1);
    var c' := CreateCore(c, p, now);
    assert c'.objs[..1] == [p] && [p][..0] == [];
    assert Effect(p, "b") == 500;
    assert ListedReplay(c, "b", 0) == 0;
    assert Replay(c.objs, "b") == 500 by { assert c.objs[..0] == []; }
    CreateKeepsListingIff(c, p, now, "b");
    DisplacedReplay(c, p, now, "b", 1);
  }
}
