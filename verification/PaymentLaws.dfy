/** What holds in every reachable state of the payment engine, and over every run of it. */
module PaymentLaws {
  import opened Text
  import opened Ledger
  import opened Payments
  import opened PaymentRuns
  import Money

  // ------------------------------------------- the ledger is the records replayed

  /** Every balance is its replay plus the moves in flight, as an int64 holds it;
      money only ever reaches accounts that exist. */
  ghost predicate Agrees(s: Sys)
    requires Coherent(s)
  {
    && WellKept(s.book)
    && forall a :: Balance(s.book, a) == Wrap64(Net(s, a)) && (a !in s.book ==> Net(s, a) == 0)
  }

  lemma StepAgrees(s: Sys, st: Step)
    requires Coherent(s) && Agrees(s) && Enabled(s, st)
    ensures Coherent(Apply(s, st)) && Agrees(Apply(s, st))
  {
    hide Apply, Enabled, Delta, Net, Balance, Wrap64, WellKept;
    StepCoherent(s, st);
    var s' := Apply(s, st);
    DeltaIsBalance(s, st, "");
    forall a
      ensures Balance(s'.book, a) == Wrap64(Net(s', a)) && (a !in s'.book ==> Net(s', a) == 0)
    {
      DeltaIsNet(s, st, a);
      DeltaIsBalance(s, st, a);
      WrapAdd(Net(s, a), Delta(s, st, a));
    }
  }

  lemma InitialAgrees(s: Sys)
    requires Initial(s) && WellKept(s.book)
    ensures Coherent(s) && Agrees(s)
  {
  }

  /** For any amounts, any schedule and any ids. */
  lemma {:induction false} LedgerIsReplay(s: Sys, tr: seq<Step>)
    requires Coherent(s) && Agrees(s) && LegalRun(s, tr)
    ensures Coherent(Run(s, tr)) && Agrees(Run(s, tr))
    decreases |tr|
  {
    hide Apply, Enabled, Coherent, Agrees;
    if tr != [] {
      StepAgrees(s, tr[0]);
      LedgerIsReplay(Apply(s, tr[0]), tr[1..]);
    }
  }

  lemma LedgerIsReplayFromTheStart(s: Sys, tr: seq<Step>)
    requires Initial(s) && WellKept(s.book) && LegalRun(s, tr)
    ensures Coherent(Run(s, tr)) && Agrees(Run(s, tr))
  {
    hide Apply, Enabled, Coherent, Agrees;
    InitialAgrees(s);
    LedgerIsReplay(s, tr);
  }

  // ------------------------------------------------------ exact, with no overdraft

  function CreditOf(p: Payment): int {
    if (p.state == InBooked || p.state == InProcessed) && !p.isReturn then Cents(p) else 0
  }

  function CreditsRecorded(objs: seq<Payment>): int {
    if objs == [] then 0 else CreditsRecorded(objs[..|objs| - 1]) + CreditOf(objs[|objs| - 1])
  }

  function CreditsLanding(ls: seq<Landing>): int {
    if ls == [] then 0 else CreditsLanding(ls[..|ls| - 1]) + LandingCents(ls[|ls| - 1])
  }

  /** All the money that ever came in from outside. */
  function Credits(s: Sys): int {
    CreditsRecorded(s.core.objs) + CreditsLanding(s.landing)
  }

  lemma {:induction false} CreditsUpdate(objs: seq<Payment>, k: nat, p: Payment)
    requires k < |objs|
    ensures CreditsRecorded(objs[k := p]) == CreditsRecorded(objs) - CreditOf(objs[k]) + CreditOf(p)
  {
    hide CreditOf;
    var n := |objs| - 1;
    if k < n {
      assert objs[k := p][..n] == objs[..n][k := p];
      CreditsUpdate(objs[..n], k, p);
    } else {
      assert objs[k := p][..n] == objs[..n];
    }
  }

  lemma CreditsAppend(objs: seq<Payment>, p: Payment)
    ensures CreditsRecorded(objs + [p]) == CreditsRecorded(objs) + CreditOf(p)
  {
    assert (objs + [p])[..|objs|] == objs;
  }

  lemma CreditsLandingAppend(ls: seq<Landing>, l: Landing)
    ensures CreditsLanding(ls + [l]) == CreditsLanding(ls) + LandingCents(l)
  {
    assert (ls + [l])[..|ls|] == ls;
  }

  lemma {:induction false} CreditsLandingRemove(ls: seq<Landing>, j: nat)
    requires j < |ls|
    ensures CreditsLanding(ls[..j] + ls[j + 1..]) == CreditsLanding(ls) - LandingCents(ls[j])
  {
    hide LandingCents;
    var n := |ls| - 1;
    var r := ls[..j] + ls[j + 1..];
    if j < n {
      assert r[..|r| - 1] == ls[..n][..j] + ls[..n][j + 1..];
      CreditsLandingRemove(ls[..n], j);
    } else {
      assert r == ls[..n];
    }
  }

  /** What the HTTP handlers guarantee: amounts read as positive. */
  ghost predicate PositiveStep(st: Step) {
    match st
    case Create(p, _) => Cents(p) > 0
    case Land(l, _) => LandingCents(l) > 0
    case _ => true
  }

  ghost predicate AllPositive(s: Sys) {
    && PositivePayments(s.core.objs)
    && (forall j :: 0 <= j < |s.landing| ==> LandingCents(s.landing[j]) > 0)
  }

  /** No balance is negative, the balances add up to what came in, and every balance is exactly
      its replay plus the moves in flight. */
  ghost predicate Solvent(s: Sys)
    requires Coherent(s)
  {
    && AllPositive(s)
    && NoOverdraft(s.book)
    && Total(s.book) == Credits(s)
    && forall a :: Balance(s.book, a) == Net(s, a)
  }

  /** Outside money per step: only Land brings any, and recording it moves it between the two sums. */
  lemma StepCredits(s: Sys, st: Step)
    requires Coherent(s) && Enabled(s, st)
    ensures Credits(Apply(s, st)) == Credits(s) + match st case Land(l, _) => LandingCents(l) case _ => 0
  {
    hide Money.Parse, RefNo, ReturnRemittance, Posted, Refusal, CreditsRecorded, CreditsLanding;
    var objs := s.core.objs;
    var s' := Apply(s, st);
    match st {
      case Create(p, now) => CreditsAppend(objs, s'.core.objs[|objs|]);
      case Mark(k, now) => CreditsUpdate(objs, k, s'.core.objs[k]);
      case Land(l, day) => CreditsLandingAppend(s.landing, l);
      case Record(j, id, now) =>
        CreditsAppend(objs, s'.core.objs[|objs|]);
        CreditsLandingRemove(s.landing, j);
      case Settle(k, now) => CreditsUpdate(objs, k, s'.core.objs[k]);
      case FinishReverse(reason, now) => CreditsUpdate(objs, s.held.ptr, s'.core.objs[s.held.ptr]);
      case FinishReturn(id, code, description, now) =>
        var orig := objs[s.held.ptr].(returnedBy := id);
        CreditsUpdate(objs, s.held.ptr, orig);
        CreditsAppend(objs[s.held.ptr := orig], s'.core.objs[|objs|]);
      case _ =>
    }
  }

  ghost predicate PositivePayments(objs: seq<Payment>) {
    forall k :: 0 <= k < |objs| ==> Cents(objs[k]) > 0
  }

  lemma PositiveUpdate(objs: seq<Payment>, k: nat, p: Payment)
    requires k < |objs| && p.amount == objs[k].amount && PositivePayments(objs)
    ensures PositivePayments(objs[k := p])
  {
    assert Cents(p) == Cents(objs[k]);
  }

  lemma PositiveAppend(objs: seq<Payment>, p: Payment)
    requires Cents(p) > 0 && PositivePayments(objs)
    ensures PositivePayments(objs + [p])
  {
  }

  lemma StepPositive(s: Sys, st: Step)
    requires Coherent(s) && Enabled(s, st) && AllPositive(s) && PositiveStep(st)
    ensures AllPositive(Apply(s, st))
  {
    hide Money.Parse, RefNo, ReturnRemittance, Posted, Refusal, Moved, Credited, Fits, Transfer, WithAccount, Attempt;
    var objs, objs' := s.core.objs, Apply(s, st).core.objs;
    match st {
      case Create(p, now) => PositiveAppend(objs, objs'[|objs|]);
      case Mark(k, now) => PositiveUpdate(objs, k, objs'[k]);
      case Record(j, id, now) => PositiveAppend(objs, objs'[|objs|]);
      case Settle(k, now) => PositiveUpdate(objs, k, objs'[k]);
      case FinishReverse(reason, now) => PositiveUpdate(objs, s.held.ptr, objs'[s.held.ptr]);
      case FinishReturn(id, code, description, now) =>
        PositiveUpdate(objs, s.held.ptr, objs'[s.held.ptr]);
        PositiveAppend(objs[s.held.ptr := objs'[s.held.ptr]], objs'[|objs|]);
      case _ =>
    }
  }

  /** One ledger movement of a solvent system: conserved, exact, and no overdraft. */
  lemma StepBook(s: Sys, st: Step)
    requires Coherent(s) && Enabled(s, st) && Solvent(s) && PositiveStep(st) && WellKept(s.book)
    requires Credits(Apply(s, st)) <= MAX64
    ensures NoOverdraft(Apply(s, st).book)
    ensures Total(Apply(s, st).book) == Credits(Apply(s, st))
    ensures forall a :: Balance(Apply(s, st).book, a) == Balance(s.book, a) + Delta(s, st, a)
  {
    hide Money.Parse, RefNo, ReturnRemittance, Posted, Moved, Credited, Cents, LandingCents;
    hide Credits, Net, Wrap64, Balance, Total, NoOverdraft, WithAccount, Refusal, Transfer;
    StepCredits(s, st);
    match st {
      case OpenAccount(id, viban, holder, ccy) =>
        OpeningAddsNothing(s.book, Bare(id, viban, holder, ccy));
      case Move(k, day) =>
        var p := s.core.objs[k];
        MoveConserves(s.book, p.fromId, p.toId, Cents(p), day);
      case Land(l, day) =>
        CreditAdds(s.book, l.toId, LandingCents(l), day);
      case TakeBack(id, asReturn, day) =>
        if TakenBack(s, id).Some? {
          var p := s.core.objs[TakenBack(s, id).value];
          MoveConserves(s.book, p.toId, p.fromId, Cents(p), day);
        }
      case _ =>
    }
  }

  lemma StepSolvent(s: Sys, st: Step)
    requires Coherent(s) && WellKept(s.book) && Solvent(s) && Enabled(s, st) && PositiveStep(st)
    requires Credits(Apply(s, st)) <= MAX64
    ensures Coherent(Apply(s, st)) && WellKept(Apply(s, st).book) && Solvent(Apply(s, st))
  {
    hide Apply, Enabled, Delta, Net, Balance, Wrap64, WellKept, Credits, Total, NoOverdraft, AllPositive;
    StepCoherent(s, st);
    StepPositive(s, st);
    DeltaIsBalance(s, st, "");
    StepBook(s, st);
    forall a ensures Balance(Apply(s, st).book, a) == Net(Apply(s, st), a) {
      DeltaIsNet(s, st, a);
    }
  }

  /** Positive amounts throughout, and never more outside money than an int64 counts. */
  ghost predicate Funded(s: Sys, tr: seq<Step>)
    requires LegalRun(s, tr)
    decreases |tr|
  {
    tr == [] || (PositiveStep(tr[0]) && Credits(Apply(s, tr[0])) <= MAX64 && Funded(Apply(s, tr[0]), tr[1..]))
  }

  lemma InitialSolvent(s: Sys)
    requires Initial(s)
    ensures Coherent(s) && Solvent(s)
  {
    InitialTotal(s.book);
  }

  lemma {:induction false} InitialTotal(b: Book)
    requires forall id :: id in b ==> b[id].cents == 0
    ensures Total(b) == 0
  {
    if b != map[] {
      var k :| k in b && Total(b) == b[k].cents + Total(b - {k});
      InitialTotal(b - {k});
    }
  }

  lemma {:induction false} AlwaysSolvent(s: Sys, tr: seq<Step>)
    requires Coherent(s) && WellKept(s.book) && Solvent(s) && LegalRun(s, tr) && Funded(s, tr)
    ensures Coherent(Run(s, tr)) && Solvent(Run(s, tr))
    decreases |tr|
  {
    hide Apply, Enabled, Coherent, Solvent, PositiveStep;
    if tr != [] {
      StepSolvent(s, tr[0]);
      AlwaysSolvent(Apply(s, tr[0]), tr[1..]);
    }
  }

  /** From a new engine, on any positive run: the three claims in one place. */
  lemma NoMoneyMadeOrLost(s: Sys, tr: seq<Step>)
    requires Initial(s) && WellKept(s.book) && LegalRun(s, tr) && Funded(s, tr)
    ensures var e := Run(s, tr);
            && |e.tasks| == |e.core.objs|
            && (forall a :: Balance(e.book, a) == Net(e, a))
            && (forall id :: id in e.book ==> e.book[id].cents >= 0)
            && Total(e.book) == Credits(e)
  {
    hide Apply, Enabled;
    InitialSolvent(s);
    AlwaysSolvent(s, tr);
  }
}
