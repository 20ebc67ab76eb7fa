/** Payments the engine no longer lists, because a later one was created under their id. */
module PaymentListing {
  import opened Text
  import opened Ledger
  import opened Payments
  import opened PaymentRuns
  import opened PaymentLaws
  import opened PaymentHistory
  import Money

  /** The replay of the payments no id names any more. */
  function UnlistedReplay(c: Core, a: string, n: nat): int
    requires n <= |c.objs|
  {
    if n == 0 then 0
    else UnlistedReplay(c, a, n - 1) + if IsListed(c, n - 1) then 0 else Effect(c.objs[n - 1], a)
  }

  lemma {:induction false} UnlistedIsDifference(c: Core, a: string, n: nat)
    requires n <= |c.objs|
    ensures Replay(c.objs[..n], a) == ListedReplay(c, a, n) + UnlistedReplay(c, a, n)
  {
    hide Effect, IsListed;
    if n > 0 {
      UnlistedIsDifference(c, a, n - 1);
      assert c.objs[..n][..n - 1] == c.objs[..n - 1];
    }
  }

  /** Over any run, ids used again or not: what List shows, what it no longer shows, and what is in flight
      make up every balance. */
  lemma BalanceIsListingAndUnlisted(s: Sys, tr: seq<Step>, a: string)
    requires Initial(s) && WellKept(s.book) && LegalRun(s, tr)
    ensures var e := Run(s, tr);
      && |e.tasks| == |e.core.objs|
      && Replay(e.core.objs, a) - ListedReplay(e.core, a, |e.core.objs|) == UnlistedReplay(e.core, a, |e.core.objs|)
      && Balance(e.book, a) ==
           Wrap64(ListedReplay(e.core, a, |e.core.objs|) + UnlistedReplay(e.core, a, |e.core.objs|)
                  + Moving(e.core.objs, e.tasks, a) + Landed(e.landing, a) + HeldEffect(e, a))
  {
    hide Apply, Enabled, Wrap64, ListedReplay, UnlistedReplay, Replay, Moving, Landed, HeldEffect, Effect;
    LedgerIsReplayFromTheStart(s, tr);
    var e := Run(s, tr);
    UnlistedIsDifference(e.core, a, |e.core.objs|);
    assert e.core.objs[..|e.core.objs|] == e.core.objs;
  }

  // --------------------------------------------- when a displacement is harmless

  /** The listing replays what the records do, on every account. */
  ghost predicate InStep(s: Sys) {
    forall a :: ListedReplay(s.core, a, |s.core.objs|) == Replay(s.core.objs, a)
  }

  /** No state of this payment ever moves anything: no cents, or a payout to its own debtor. */
  predicate Weightless(p: Payment) {
    Cents(p) == 0 || (p.fromId == p.toId && (p.isReturn || !(p.state == InBooked || p.state == InProcessed)))
  }

  /** It has moved nothing for good, and its goroutine, if any, will not: failed, sent back, held pending,
      or booked with a failure already met or forced. */
  predicate Harmless(p: Payment, t: Task) {
    || Weightless(p)
    || p.state == OutRejected || p.state == MissingFunding || p.state == Reversed
    || (p.state == OutBooked && t != Tried(None) && t != Starting(None))
  }

  lemma WeighsIff(p: Payment)
    ensures Weightless(p) ==> forall a :: Effect(p, a) == 0
    ensures !Weightless(p) && p.state in {OutProcessed, InBooked, InProcessed} ==> Effect(p, p.toId) != 0
    ensures p.state in {OutBooked, OutRejected, MissingFunding, Reversed} ==> forall a :: Effect(p, a) == 0
  {
    hide Cents;
  }

  lemma HarmlessHasNoEffect(p: Payment, t: Task, a: string)
    requires Harmless(p, t)
    ensures Effect(p, a) == 0
  {
    hide Effect, Weightless;
    WeighsIff(p);
  }

  /** What the goroutine of payment k may do next leaves a harmless payment harmless. */
  lemma StepHarmless(s: Sys, st: Step, k: nat)
    requires Coherent(s) && Enabled(s, st) && k < |s.core.objs| && Harmless(s.core.objs[k], s.tasks[k])
    ensures var s' := Apply(s, st);
      k < |s'.core.objs| == |s'.tasks| && Harmless(s'.core.objs[k], s'.tasks[k])
  {
    hide Money.Parse, RefNo, ReturnRemittance, Posted, Moved, Credited, Refusal, Cents, Wrap64;
    StepCoherent(s, st);
    StepEdges(s, st, k);
    var s' := Apply(s, st);
    SameCents(s.core.objs[k], s'.core.objs[k]);
    if !Weightless(s.core.objs[k]) {
      StateStaysHarmless(s, st, k);
    }
  }

  lemma StateStaysHarmless(s: Sys, st: Step, k: nat)
    requires Coherent(s) && Enabled(s, st) && k < |s.core.objs|
    requires Harmless(s.core.objs[k], s.tasks[k]) && !Weightless(s.core.objs[k])
    ensures var s' := Apply(s, st); k < |s'.core.objs| && k < |s'.tasks|
    ensures var p, t := Apply(s, st).core.objs[k], Apply(s, st).tasks[k];
      || p.state == OutRejected || p.state == MissingFunding || p.state == Reversed
      || (p.state == OutBooked && t != Tried(None) && t != Starting(None))
  {
    hide Money.Parse, RefNo, ReturnRemittance, Posted, Moved, Credited, Refusal, Cents, Wrap64, Weightless;
    assert Fits(s.core.objs[k], s.tasks[k]);
    match st {
      case Create(p, now) => assert Apply(s, st).tasks[k] == s.tasks[k];
      case Move(j, day) =>
        if j == k {
          var o := s.tasks[k].outcome;
          assert o.Some? && (o.value == Rejected || o.value == Pending);
        } else {
          assert Apply(s, st).tasks[k] == s.tasks[k];
        }
      case Mark(j, now) => assert j != k ==> Apply(s, st).tasks[k] == s.tasks[k];
      case Record(j, id, now) => assert Apply(s, st).tasks[k] == s.tasks[k];
      case Settle(j, now) => assert j != k;
      case FinishReverse(reason, now) => assert s.held.ptr != k;
      case FinishReturn(id, code, description, now) => assert s.held.ptr != k;
      case _ =>
    }
  }

  lemma SameCents(p: Payment, q: Payment)
    requires p.amount == q.amount
    ensures Cents(p) == Cents(q)
  {
  }

  ghost predicate UnlistedHarmless(s: Sys) {
    && |s.tasks| == |s.core.objs|
    && Named(s.core)
    && forall k :: 0 <= k < |s.core.objs| && !IsListed(s.core, k) ==> Harmless(s.core.objs[k], s.tasks[k])
  }

  /** The id a step files its new payment under. */
  function FiledId(st: Step): Option<string> {
    match st
    case Create(p, _) => Some(p.id)
    case Record(_, id, _) => Some(id)
    case FinishReturn(id, _, _, _) => Some(id)
    case _ => None
  }

  /** A payment displaced by this step is harmless when it happens. */
  ghost predicate CarefulStep(s: Sys, st: Step)
    requires |s.tasks| == |s.core.objs| && Named(s.core)
  {
    var id := FiledId(st);
    id.Some? && id.value in s.core.listed ==>
      Harmless(s.core.objs[s.core.listed[id.value]], s.tasks[s.core.listed[id.value]])
  }

  /** d names what c names, but for an id that was given to a payment made since. */
  ghost predicate NamesOn(c: Core, d: Core, id: Option<string>) {
    && Named(d) && |c.objs| <= |d.objs|
    && (forall k :: 0 <= k < |c.objs| && IsListed(c, k) && id != Some(c.objs[k].id) ==> IsListed(d, k))
    && (forall k :: |c.objs| <= k < |d.objs| ==> IsListed(d, k))
  }

  lemma AppendNames(c: Core, p: Payment)
    requires Named(c)
    ensures NamesOn(c, Append(c, p), Some(p.id))
  {
    hide Wrap64;
  }

  lemma UpdateNames(c: Core, k: nat, q: Payment)
    requires Named(c) && k < |c.objs| && q.id == c.objs[k].id
    ensures NamesOn(c, c.(objs := c.objs[k := q]), None)
  {
  }

  lemma ForcedNames(c: Core, d: Core, forced: seq<Outcome>, id: Option<string>)
    requires NamesOn(c, d, id)
    ensures NamesOn(c, d.(forced := forced), id)
  {
    forall k | 0 <= k < |d.objs| ensures IsListed(d.(forced := forced), k) <==> IsListed(d, k) {
    }
  }

  lemma ReturnNames(c: Core, k: nat, id: string, code: string, description: string, now: string)
    requires Named(c) && k < |c.objs|
    ensures NamesOn(c, ReturnCore(c, k, id, code, description, now), Some(id))
  {
    hide RefNo, ReturnRemittance, Append;
    var d := c.(objs := c.objs[k := c.objs[k].(returnedBy := id)]);
    UpdateNames(c, k, d.objs[k]);
    AppendNames(d, ReturnPay(c.objs[k], id, code, description, RefNo(NextRef(c.refSeq)), now));
  }

  lemma FilingNames(s: Sys, st: Step)
    requires Coherent(s) && Enabled(s, st) && Named(s.core)
    ensures NamesOn(s.core, Apply(s, st).core, FiledId(st))
  {
    hide Money.Parse, RefNo, ReturnRemittance, Posted, Moved, Credited, Refusal, Wrap64, Append, NamesOn, ReturnCore;
    var c, c' := s.core, Apply(s, st).core;
    match st {
      case Create(p, now) =>
        var q := Booked(p, RefNo(NextRef(c.refSeq)), now);
        AppendNames(c, q);
        ForcedNames(c, Append(c, q), c'.forced, Some(p.id));
      case ForceNext(_) => SameNames(c); ForcedNames(c, c, c'.forced, None);
      case Mark(k, now) => UpdateNames(c, k, c'.objs[k]);
      case Record(j, id, now) =>
        var l := s.landing[j];
        AppendNames(c, Incoming(id, l.toId, l.currency, l.amount, l.reference, RefNo(NextRef(c.refSeq)), now));
      case Settle(k, now) => UpdateNames(c, k, c'.objs[k]);
      case FinishReverse(reason, now) => UpdateNames(c, s.held.ptr, c'.objs[s.held.ptr]);
      case FinishReturn(id, code, description, now) => ReturnNames(c, s.held.ptr, id, code, description, now);
      case _ => SameNames(c);
    }
  }

  lemma SameNames(c: Core)
    requires Named(c)
    ensures NamesOn(c, c, None)
  {
  }

  lemma StepUnlistedHarmless(s: Sys, st: Step)
    requires Coherent(s) && Enabled(s, st) && UnlistedHarmless(s) && CarefulStep(s, st)
    ensures UnlistedHarmless(Apply(s, st))
  {
    hide Apply, Enabled, Harmless, Coherent;
    FilingNames(s, st);
    StepSizes(s, st);
    var s' := Apply(s, st);
    forall k | 0 <= k < |s'.core.objs| && !IsListed(s'.core, k) ensures Harmless(s'.core.objs[k], s'.tasks[k]) {
      assert k < |s.core.objs|;
      if IsListed(s.core, k) {
        assert FiledId(st) == Some(s.core.objs[k].id);
      }
      StepHarmless(s, st, k);
    }
  }

  lemma StepSizes(s: Sys, st: Step)
    requires Coherent(s) && Enabled(s, st)
    ensures |Apply(s, st).tasks| == |Apply(s, st).core.objs|
  {
    hide Apply, Enabled;
    StepCoherent(s, st);
  }

  lemma {:induction false} HarmlessReplay(s: Sys, a: string, n: nat)
    requires UnlistedHarmless(s) && n <= |s.core.objs|
    ensures UnlistedReplay(s.core, a, n) == 0
  {
    hide Harmless, Effect;
    if n > 0 {
      HarmlessReplay(s, a, n - 1);
      if !IsListed(s.core, n - 1) {
        HarmlessHasNoEffect(s.core.objs[n - 1], s.tasks[n - 1], a);
      }
    }
  }

  lemma HarmlessInStep(s: Sys)
    requires UnlistedHarmless(s)
    ensures InStep(s)
  {
    hide UnlistedHarmless;
    forall a ensures ListedReplay(s.core, a, |s.core.objs|) == Replay(s.core.objs, a) {
      HarmlessReplay(s, a, |s.core.objs|);
      UnlistedIsDifference(s.core, a, |s.core.objs|);
      assert s.core.objs[..|s.core.objs|] == s.core.objs;
    }
  }

  ghost predicate CarefulRun(s: Sys, tr: seq<Step>)
    requires Coherent(s) && Named(s.core) && LegalRun(s, tr)
    decreases |tr|
  {
    tr == [] ||
    (CarefulStep(s, tr[0]) &&
     (StepCoherent(s, tr[0]); FilingNames(s, tr[0]); CarefulRun(Apply(s, tr[0]), tr[1..])))
  }

  /** Ids may be used again over and over: the listing stays in step with the ledger as long as every payment
      displaced is harmless at that moment. */
  lemma {:induction false} CarefulRunInStep(s: Sys, tr: seq<Step>)
    requires Coherent(s) && UnlistedHarmless(s) && LegalRun(s, tr) && CarefulRun(s, tr)
    ensures InStep(Run(s, tr))
    decreases |tr|
  {
    hide Apply, Enabled, Coherent, UnlistedHarmless, CarefulStep, InStep;
    assert Named(s.core) by { UnlistedNamed(s); }
    if tr == [] {
      HarmlessInStep(s);
    } else {
      StepCoherent(s, tr[0]);
      StepUnlistedHarmless(s, tr[0]);
      CarefulRunInStep(Apply(s, tr[0]), tr[1..]);
    }
  }

  lemma UnlistedNamed(s: Sys)
    requires UnlistedHarmless(s)
    ensures Named(s.core)
  {
  }

  // ------------------------------------- and when it is not: the exact condition

  /** Whatever happens next, with fresh ids from here on. */
  ghost predicate InStepForGood(s: Sys) {
    forall tr: seq<Step> :: LegalRun(s, tr) && FreshRun(s, tr) ==> InStep(Run(s, tr))
  }

  lemma {:induction false} FreshIsCareful(s: Sys, tr: seq<Step>)
    requires Coherent(s) && Named(s.core) && LegalRun(s, tr) && FreshRun(s, tr)
    ensures CarefulRun(s, tr)
    decreases |tr|
  {
    hide Apply, Enabled, Coherent, Harmless, NamesOn;
    if tr != [] {
      StepCoherent(s, tr[0]);
      FilingNames(s, tr[0]);
      assert Named(Apply(s, tr[0]).core) by { NamesOnNamed(s.core, Apply(s, tr[0]).core, FiledId(tr[0])); }
      assert CarefulStep(s, tr[0]) by { TaskPerPayment(s); }
      FreshIsCareful(Apply(s, tr[0]), tr[1..]);
    }
  }

  lemma NamesOnNamed(c: Core, d: Core, id: Option<string>)
    requires NamesOn(c, d, id)
    ensures Named(d)
  {
  }

  lemma TaskPerPayment(s: Sys)
    requires Coherent(s)
    ensures |s.tasks| == |s.core.objs|
  {
  }

  /** One payment is filed under an id in use: everything else is listed. */
  lemma AfterCreate(s: Sys, p: Payment, now: string)
    requires Coherent(s) && Filed(s.core) && Enabled(s, Create(p, now)) && p.id in s.core.listed
    ensures var s', k := Apply(s, Create(p, now)), s.core.listed[p.id];
      && Coherent(s') && Named(s'.core)
      && k < |s.core.objs| && |s'.core.objs| == |s.core.objs| + 1
      && (forall i :: 0 <= i < |s'.core.objs| ==> (IsListed(s'.core, i) <==> i != k))
      && s'.core.objs[k] == s.core.objs[k] && s'.tasks[k] == s.tasks[k]
  {
    hide RefNo, Wrap64;
    StepCoherent(s, Create(p, now));
  }

  /** Displacing a harmless payment costs nothing, ever. */
  lemma HarmlessIsForGood(s: Sys, p: Payment, now: string)
    requires Coherent(s) && Filed(s.core) && Enabled(s, Create(p, now)) && p.id in s.core.listed
    requires Harmless(s.core.objs[s.core.listed[p.id]], s.tasks[s.core.listed[p.id]])
    ensures InStepForGood(Apply(s, Create(p, now)))
  {
    hide Apply, Enabled, Coherent, Harmless, InStep, Filed;
    AfterCreate(s, p, now);
    var s' := Apply(s, Create(p, now));
    StepSizes(s, Create(p, now));
    forall tr | LegalRun(s', tr) && FreshRun(s', tr) ensures InStep(Run(s', tr)) {
      FreshIsCareful(s', tr);
      CarefulRunInStep(s', tr);
    }
  }

  lemma {:induction false} Snoc(s: Sys, tr: seq<Step>, st: Step)
    requires LegalRun(s, tr) && FreshRun(s, tr)
    requires Enabled(Run(s, tr), st) && FreshStep(Run(s, tr), st)
    ensures LegalRun(s, tr + [st]) && FreshRun(s, tr + [st]) && Run(s, tr + [st]) == Apply(Run(s, tr), st)
    decreases |tr|
  {
    hide Apply, Enabled, FreshStep;
    if tr == [] {
      assert [] + [st] == [st] && [st][1..] == [];
    } else {
      assert (tr + [st])[1..] == tr[1..] + [st];
      Snoc(Apply(s, tr[0]), tr[1..], st);
    }
  }

  /** e differs from s in the money only. */
  ghost predicate SameRecords(s: Sys, e: Sys) {
    e.core == s.core && e.held == s.held && e.tasks == s.tasks && s.book.Keys <= e.book.Keys
  }

  lemma AccountsOpened(s: Sys, from: string, to: string) returns (tr: seq<Step>)
    ensures LegalRun(s, tr) && FreshRun(s, tr)
    ensures SameRecords(s, Run(s, tr)) && from in Run(s, tr).book && to in Run(s, tr).book
  {
    Snoc(s, [], OpenAccount(from, "", "", ""));
    Snoc(s, [] + [OpenAccount(from, "", "", "")], OpenAccount(to, "", "", ""));
    tr := [] + [OpenAccount(from, "", "", "")] + [OpenAccount(to, "", "", "")];
  }

  /** Credits can always arrive, so any account can come to hold any amount. */
  lemma AccountFunded(s: Sys, from: string, to: string, cents: int) returns (tr: seq<Step>)
    requires IsInt64(cents)
    ensures LegalRun(s, tr) && FreshRun(s, tr) && SameRecords(s, Run(s, tr))
    ensures from in Run(s, tr).book && to in Run(s, tr).book && Run(s, tr).book[from].cents >= cents
  {
    hide Wrap64, Money.Format, Money.Parse, Apply, Enabled;
    tr := AccountsOpened(s, from, to);
    var e := Run(s, tr);
    if e.book[from].cents < cents {
      var bal := e.book[from].cents;
      var short := Wrap64(cents - bal);
      var l := Landing(from, "", Money.Format(short), "");
      Money.RoundTrip(short);
      LandFunds(e, l, cents);
      Snoc(s, tr, Land(l, 0));
      tr := tr + [Land(l, 0)];
    }
  }

  lemma LandFunds(e: Sys, l: Landing, cents: int)
    requires l.toId in e.book && IsInt64(cents)
    requires Money.Parse(l.amount) == Some(Wrap64(cents - e.book[l.toId].cents))
    ensures Enabled(e, Land(l, 0)) && FreshStep(e, Land(l, 0))
    ensures var m := Apply(e, Land(l, 0));
      SameRecords(e, m) && m.book.Keys == e.book.Keys && m.book[l.toId].cents == cents
  {
    hide Wrap64, Money.Parse;
    WrapAdd(cents - e.book[l.toId].cents, e.book[l.toId].cents);
  }

  /** A booked payout whose goroutine has not moved yet can come to be processed. */
  lemma CanBeTried(s: Sys, k: nat) returns (tr: seq<Step>)
    requires Coherent(s) && k < |s.core.objs| && s.tasks[k] == Starting(None)
    requires s.core.objs[k].fromId != s.core.objs[k].toId && Money.Parse(s.core.objs[k].amount).Some?
    ensures LegalRun(s, tr) && FreshRun(s, tr)
    ensures var e := Run(s, tr); e.core == s.core && e.held == s.held && e.tasks == s.tasks[k := Tried(None)]
  {
    hide Money.Parse, Money.Format, Wrap64, Coherent;
    var p := s.core.objs[k];
    TaskPerPayment(s);
    tr := AccountFunded(s, p.fromId, p.toId, Cents(p));
    MoveSucceeds(Run(s, tr), k);
    Snoc(s, tr, Move(k, 0));
    tr := tr + [Move(k, 0)];
  }

  lemma MoveSucceeds(e: Sys, k: nat)
    requires k < |e.core.objs| == |e.tasks| && e.tasks[k] == Starting(None)
    requires var p := e.core.objs[k];
      && p.fromId != p.toId && Money.Parse(p.amount).Some?
      && p.fromId in e.book && p.toId in e.book && e.book[p.fromId].cents >= Cents(p)
    ensures Enabled(e, Move(k, 0)) && FreshStep(e, Move(k, 0))
    ensures var m := Apply(e, Move(k, 0)); m.core == e.core && m.held == e.held && m.tasks == e.tasks[k := Tried(None)]
  {
    hide Money.Parse, Posted, Moved;
  }

  lemma CanBeProcessed(s: Sys, k: nat) returns (tr: seq<Step>)
    requires Coherent(s) && s.held.Free? && k < |s.core.objs|
      && (s.tasks[k] == Tried(None) || s.tasks[k] == Starting(None))
    requires s.core.objs[k].fromId != s.core.objs[k].toId && Money.Parse(s.core.objs[k].amount).Some?
    ensures LegalRun(s, tr) && FreshRun(s, tr)
    ensures Run(s, tr).core == s.core.(objs := s.core.objs[k := Marked(s.core.objs[k], None, "now")])
  {
    hide Money.Parse, Posted, Moved;
    tr := [];
    if s.tasks[k] == Starting(None) {
      tr := CanBeTried(s, k);
    } else {
      assert s.tasks[k := Tried(None)] == s.tasks;
    }
    Snoc(s, tr, Mark(k, "now"));
    tr := tr + [Mark(k, "now")];
  }

  /** Payment k is the only one not listed. */
  ghost predicate OnlyUnlisted(c: Core, k: nat) {
    k < |c.objs| && forall i :: 0 <= i < |c.objs| ==> (IsListed(c, i) <==> i != k)
  }

  lemma {:induction false} OneUnlisted(c: Core, k: nat, a: string, n: nat)
    requires OnlyUnlisted(c, k) && n <= |c.objs|
    ensures UnlistedReplay(c, a, n) == if k < n then Effect(c.objs[k], a) else 0
  {
    hide Effect, IsListed;
    if n > 0 {
      OneUnlisted(c, k, a, n - 1);
    }
  }

  lemma UnlistedWeightShows(s: Sys, k: nat)
    requires k < |s.core.objs| && OnlyUnlisted(s.core, k) && !Weightless(s.core.objs[k])
    requires s.core.objs[k].state in {OutProcessed, InBooked, InProcessed}
    ensures !InStep(s)
  {
    hide Effect, OnlyUnlisted, Weightless;
    var p := s.core.objs[k];
    WeighsIff(p);
    OneUnlisted(s.core, k, p.toId, |s.core.objs|);
    UnlistedIsDifference(s.core, p.toId, |s.core.objs|);
    assert s.core.objs[..|s.core.objs|] == s.core.objs;
  }

  lemma MarkedStaysUnlisted(c: Core, k: nat, now: string)
    requires OnlyUnlisted(c, k) && c.objs[k].state == OutBooked && !Weightless(c.objs[k])
    ensures var d := c.(objs := c.objs[k := Marked(c.objs[k], None, now)]);
      OnlyUnlisted(d, k) && !Weightless(d.objs[k]) && d.objs[k].state == OutProcessed
    ensures c.objs[k].fromId != c.objs[k].toId && Money.Parse(c.objs[k].amount).Some?
  {
    hide Money.Parse;
    var d := c.(objs := c.objs[k := Marked(c.objs[k], None, now)]);
    forall i | 0 <= i < |d.objs| ensures IsListed(d, i) <==> IsListed(c, i) {
    }
  }

  /** A displaced payment that is not harmless takes the listing out of step, at once or later. */
  lemma HarmShows(s: Sys, k: nat) returns (tr: seq<Step>)
    requires Coherent(s) && s.held.Free? && k < |s.core.objs|
    requires OnlyUnlisted(s.core, k) && !Harmless(s.core.objs[k], s.tasks[k])
    ensures LegalRun(s, tr) && FreshRun(s, tr) && !InStep(Run(s, tr))
  {
    hide OnlyUnlisted, Weightless, InStep, Apply, Enabled;
    var p := s.core.objs[k];
    tr := [];
    if p.state == OutBooked {
      MarkedStaysUnlisted(s.core, k, "now");
      tr := CanBeProcessed(s, k);
    } else {
      assert p.state in {OutProcessed, InBooked, InProcessed};
    }
    UnlistedWeightShows(Run(s, tr), k);
  }

  /** Creating over an id in use keeps the listing in step with the records, whatever happens from then on, if and
      only if the payment it displaces is harmless: failed, reversed, pending, failing, or of no weight at all. */
  lemma CreateInStepForGoodIff(s: Sys, p: Payment, now: string)
    requires Coherent(s) && Filed(s.core) && Enabled(s, Create(p, now)) && p.id in s.core.listed
    ensures InStepForGood(Apply(s, Create(p, now)))
      <==> Harmless(s.core.objs[s.core.listed[p.id]], s.tasks[s.core.listed[p.id]])
  {
    hide Harmless, InStep, LegalRun, FreshRun, Filed, Run;
    var k := s.core.listed[p.id];
    AfterCreate(s, p, now);
    if Harmless(s.core.objs[k], s.tasks[k]) {
      HarmlessIsForGood(s, p, now);
    } else {
      var s' := Apply(s, Create(p, now));
      assert OnlyUnlisted(s'.core, k);
      var tr := HarmShows(s', k);
      assert LegalRun(s', tr) && FreshRun(s', tr) && !InStep(Run(s', tr));
    }
  }

  /** The money is on its way while the id is used again: right after Create nothing shows, and once the goroutine has
      recorded the move, the listing has forgotten 5.00. */
  lemma MoveInFlightForgotten(p: Payment, q: Payment, book: Book, now: string)
    requires p.state == OutBooked && p.amount == "5.00" && p.fromId == "a" && p.toId == "b"
      && p.returnedBy == "" && !p.isReturn
    requires Plain(q) && q.id == p.id
    ensures var s := Sys(Core([p], map[p.id := 0], [], 1), [Tried(None)], book, [], Free);
      && LegalRun(s, [Create(q, now), Mark(0, now)])
      && InStep(Apply(s, Create(q, now)))
      && var c := Run(s, [Create(q, now), Mark(0, now)]).core;
         |c.objs| == 2 && ListedReplay(c, "b", 2) == 0 && Replay(c.objs, "b") == 500
  {
    hide RefNo, Money.Parse, Wrap64;
    Money.FiveIsRead();
    var s := Sys(Core([p], map[p.id := 0], [], 1), [Tried(None)], book, [], Free);
    var tr := [Create(q, now), Mark(0, now)];
    var m := Apply(s, tr[0]);
    var e := Apply(m, tr[1]);
    RunOfTwo(s, tr[0], tr[1]);
    forall a ensures ListedReplay(m.core, a, 2) == Replay(m.core.objs, a) {
      ReplayOfTwo(m.core, a);
    }
    assert InStep(m);
    ReplayOfTwo(e.core, "b");
    assert Effect(e.core.objs[0], "b") == 500;
  }

  lemma RunOfTwo(s: Sys, x: Step, y: Step)
    requires Enabled(s, x) && Enabled(Apply(s, x), y)
    ensures LegalRun(s, [x, y]) && Run(s, [x, y]) == Apply(Apply(s, x), y)
  {
    hide Apply, Enabled;
    var m := Apply(s, x);
    assert [x, y][1..] == [y] && [y][1..] == [];
    assert LegalRun(m, [y]) && Run(m, [y]) == Run(Apply(m, y), []);
  }

  lemma ReplayOfTwo(c: Core, a: string)
    requires |c.objs| == 2
    ensures Replay(c.objs, a) == Effect(c.objs[0], a) + Effect(c.objs[1], a)
    ensures ListedReplay(c, a, 2) ==
      (if IsListed(c, 0) then Effect(c.objs[0], a) else 0) + (if IsListed(c, 1) then Effect(c.objs[1], a) else 0)
  {
    hide Effect, IsListed;
    var objs := c.objs;
    assert objs[..1] == [objs[0]] && [objs[0]][..0] == [];
    assert Replay([objs[0]], a) == Effect(objs[0], a);
    assert ListedReplay(c, a, 0) == 0;
    assert ListedReplay(c, a, 1) == if IsListed(c, 0) then Effect(objs[0], a) else 0;
  }
}
