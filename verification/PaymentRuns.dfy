/** Every interleaving of the payment engine's critical sections over one ledger. */
module PaymentRuns {
  import opened Text
  import opened Ledger
  import opened Payments
  import Money

  // A step is one critical section: the engine's mutex and the ledger's are separate, so the
  // money moves in one step and the record of it is written in a later one.

  /** What the goroutine started for a payment still has to do. */
  datatype Task =
    | Idle
    | Starting(outcome: Option<Outcome>)
    | Tried(failure: Option<Failure>)
    | Arriving

  /** Reverse and Return keep the engine's mutex while they use the ledger's. */
  datatype Held = Free | Reversing(ptr: nat) | Returning(ptr: nat)

  /** A CreditIncoming call between its ledger credit and its payment record. */
  datatype Landing = Landing(toId: string, currency: string, amount: string, reference: string)

  datatype Sys = Sys(core: Core, tasks: seq<Task>, book: Book, landing: seq<Landing>, held: Held)

  datatype Step =
    | OpenAccount(id: string, viban: string, holder: string, currency: string)
    | Create(p: Payment, now: string)
    | ForceNext(outcomes: seq<Outcome>)
    | Move(k: nat, day: int)
    | Mark(k: nat, now: string)
    | Land(credit: Landing, day: int)
    | Record(j: nat, newId: string, now: string)
    | Settle(k: nat, now: string)
    | TakeBack(payment: string, asReturn: bool, day: int)
    | FinishReverse(reason: string, now: string)
    | FinishReturn(newId: string, code: string, description: string, now: string)

  function LandingCents(l: Landing): int {
    match Money.Parse(l.amount)
    case Some(c) => c
    case None => 0
  }

  ghost predicate Enabled(s: Sys, st: Step) {
    match st
    case OpenAccount(_, _, _, _) => true
    case Create(p, _) => s.held.Free? && Plain(p)
    case ForceNext(_) => s.held.Free?
    case Move(k, _) => k < |s.tasks| == |s.core.objs| && s.tasks[k].Starting?
    case Mark(k, _) => s.held.Free? && k < |s.tasks| == |s.core.objs| && s.tasks[k].Tried?
    case Land(l, _) => Money.Parse(l.amount).Some? && l.toId in s.book
    case Record(j, id, _) => s.held.Free? && j < |s.landing| && id != ""
    case Settle(k, _) => s.held.Free? && k < |s.tasks| == |s.core.objs| && s.tasks[k].Arriving?
    case TakeBack(_, _, _) => s.held.Free? && Closed(s.core)
    case FinishReverse(_, _) => s.held.Reversing? && s.held.ptr < |s.core.objs|
    case FinishReturn(id, _, _, _) => s.held.Returning? && s.held.ptr < |s.core.objs| && id != ""
  }

  /** Whether a TakeBack call gets as far as moving the money, and for which payment. */
  ghost function TakenBack(s: Sys, id: string): Option<nat>
    requires Closed(s.core)
  {
    match TakeBackCheck(s.core, id)
    case Err(_) => None
    case Ok(k) =>
      var p := s.core.objs[k];
      if Refusal(s.book, p.toId, p.fromId, Cents(p)).None? then Some(k) else None
  }

  ghost function Apply(s: Sys, st: Step): Sys
    requires Enabled(s, st)
  {
    match st
    case OpenAccount(id, viban, holder, ccy) =>
      s.(book := WithAccount(s.book, Bare(id, viban, holder, ccy)))
    case Create(p, now) =>
      s.(core := CreateCore(s.core, p, now), tasks := s.tasks + [Starting(NextOutcome(s.core))])
    case ForceNext(outcomes) =>
      s.(core := s.core.(forced := s.core.forced + outcomes))
    case Move(k, day) =>
      var p, o := s.core.objs[k], s.tasks[k].outcome;
      if o == Some(Pending) then s.(tasks := s.tasks[k := Idle])
      else s.(book := Attempted(s.book, p, o, day), tasks := s.tasks[k := Tried(Attempt(s.book, p, o))])
    case Mark(k, now) =>
      s.(core := s.core.(objs := s.core.objs[k := Marked(s.core.objs[k], s.tasks[k].failure, now)]),
         tasks := s.tasks[k := Idle])
    case Land(l, day) =>
      s.(book := Credited(s.book, l.toId, LandingCents(l), day), landing := s.landing + [l])
    case Record(j, id, now) =>
      var l := s.landing[j];
      s.(core := RecordCore(s.core, id, l.toId, l.currency, l.amount, l.reference, now),
         tasks := s.tasks + [Arriving], landing := s.landing[..j] + s.landing[j + 1..])
    case Settle(k, now) =>
      s.(core := s.core.(objs := s.core.objs[k := Settled(s.core.objs[k], now)]), tasks := s.tasks[k := Idle])
    case TakeBack(id, asReturn, day) =>
      (match TakenBack(s, id)
       case None => s
       case Some(k) =>
         var p := s.core.objs[k];
         s.(book := Moved(s.book, p.toId, p.fromId, Cents(p), day),
            held := if asReturn then Returning(k) else Reversing(k)))
    case FinishReverse(reason, now) =>
      var k := s.held.ptr;
      s.(core := s.core.(objs := s.core.objs[k := ReversedPay(s.core.objs[k], reason, now)]), held := Free)
    case FinishReturn(id, code, description, now) =>
      s.(core := ReturnCore(s.core, s.held.ptr, id, code, description, now),
         tasks := s.tasks + [Arriving], held := Free)
  }

  ghost predicate LegalRun(s: Sys, tr: seq<Step>)
    decreases |tr|
  {
    tr == [] || (Enabled(s, tr[0]) && LegalRun(Apply(s, tr[0]), tr[1..]))
  }

  ghost function Run(s: Sys, tr: seq<Step>): Sys
    requires LegalRun(s, tr)
    decreases |tr|
  {
    if tr == [] then s else Run(Apply(s, tr[0]), tr[1..])
  }

  /** A new engine over a ledger whose accounts have not moved. */
  ghost predicate Initial(s: Sys) {
    && s.core == Core([], map[], [], 0)
    && s.tasks == [] && s.landing == [] && s.held == Free
    && forall id :: id in s.book ==> s.book[id].cents == 0
  }

  // -------------------------------------------------------- the replay

  /** What a payment record says has happened to account a. */
  function Effect(p: Payment, a: string): int {
    match p.state
    case OutProcessed => Transfer(p.fromId, p.toId, a, Cents(p))
    case InBooked | InProcessed =>
      if p.isReturn then Transfer(p.fromId, p.toId, a, Cents(p))
      else if a == p.toId then Cents(p) else 0
    case _ => 0
  }

  function Replay(objs: seq<Payment>, a: string): int {
    if objs == [] then 0 else Replay(objs[..|objs| - 1], a) + Effect(objs[|objs| - 1], a)
  }

  /** Money a process goroutine has moved but not yet recorded. */
  function TaskEffect(p: Payment, t: Task, a: string): int {
    if t == Tried(None) then Transfer(p.fromId, p.toId, a, Cents(p)) else 0
  }

  function Moving(objs: seq<Payment>, tasks: seq<Task>, a: string): int
    requires |objs| == |tasks|
  {
    if objs == [] then 0
    else Moving(objs[..|objs| - 1], tasks[..|objs| - 1], a) + TaskEffect(objs[|objs| - 1], tasks[|objs| - 1], a)
  }

  function LandingOn(l: Landing, a: string): int {
    if a == l.toId then LandingCents(l) else 0
  }

  function Landed(ls: seq<Landing>, a: string): int {
    if ls == [] then 0 else Landed(ls[..|ls| - 1], a) + LandingOn(ls[|ls| - 1], a)
  }

  function HeldEffect(s: Sys, a: string): int {
    if s.held.Free? || s.held.ptr >= |s.core.objs| then 0
    else
      var p := s.core.objs[s.held.ptr];
      Transfer(p.toId, p.fromId, a, Cents(p))
  }

  /** The records replayed, plus every move done and not yet recorded. */
  function Net(s: Sys, a: string): int
    requires |s.tasks| == |s.core.objs|
  {
    Replay(s.core.objs, a) + Moving(s.core.objs, s.tasks, a) + Landed(s.landing, a) + HeldEffect(s, a)
  }

  lemma {:induction false} ReplayUpdate(objs: seq<Payment>, k: nat, p: Payment, a: string)
    requires k < |objs|
    ensures Replay(objs[k := p], a) == Replay(objs, a) - Effect(objs[k], a) + Effect(p, a)
  {
    hide Effect;
    var o, n := objs[..|objs| - 1], |objs| - 1;
    if k < n {
      assert objs[k := p][..n] == o[k := p];
      ReplayUpdate(o, k, p, a);
    } else {
      assert objs[k := p][..n] == o;
    }
  }

  lemma {:induction false} MovingUpdate(objs: seq<Payment>, tasks: seq<Task>, k: nat, p: Payment, t: Task, a: string)
    requires k < |objs| == |tasks|
    ensures Moving(objs[k := p], tasks[k := t], a)
            == Moving(objs, tasks, a) - TaskEffect(objs[k], tasks[k], a) + TaskEffect(p, t, a)
  {
    hide TaskEffect;
    var n := |objs| - 1;
    var o, ts := objs[..n], tasks[..n];
    if k < n {
      assert objs[k := p][..n] == o[k := p] && tasks[k := t][..n] == ts[k := t];
      MovingUpdate(o, ts, k, p, t, a);
    } else {
      assert objs[k := p][..n] == o && tasks[k := t][..n] == ts;
    }
  }

  lemma ReplayAppend(objs: seq<Payment>, p: Payment, a: string)
    ensures Replay(objs + [p], a) == Replay(objs, a) + Effect(p, a)
  {
    assert (objs + [p])[..|objs|] == objs;
  }

  lemma MovingAppend(objs: seq<Payment>, tasks: seq<Task>, p: Payment, t: Task, a: string)
    requires |objs| == |tasks|
    ensures Moving(objs + [p], tasks + [t], a) == Moving(objs, tasks, a) + TaskEffect(p, t, a)
  {
    assert (objs + [p])[..|objs|] == objs && (tasks + [t])[..|objs|] == tasks;
  }

  lemma LandedAppend(ls: seq<Landing>, l: Landing, a: string)
    ensures Landed(ls + [l], a) == Landed(ls, a) + LandingOn(l, a)
  {
    assert (ls + [l])[..|ls|] == ls;
  }

  lemma {:induction false} LandedRemove(ls: seq<Landing>, j: nat, a: string)
    requires j < |ls|
    ensures Landed(ls[..j] + ls[j + 1..], a) == Landed(ls, a) - LandingOn(ls[j], a)
  {
    hide LandingOn;
    var n := |ls| - 1;
    var r := ls[..j] + ls[j + 1..];
    if j < n {
      assert r[..|r| - 1] == ls[..n][..j] + ls[..n][j + 1..];
      LandedRemove(ls[..n], j, a);
    } else {
      assert r == ls[..n];
    }
  }

  // ------------------------------------------------ the structural invariant

  ghost predicate Fits(p: Payment, t: Task) {
    && (t.Starting? || t.Tried? ==> p.state == OutBooked)
    && (t == Tried(None) ==> Money.Parse(p.amount).Some?)
    && (t.Arriving? ==> p.state == InBooked)
    && (p.returnedBy != "" ==> p.state == OutProcessed)
    && (p.isReturn ==> p.state == InBooked || p.state == InProcessed)
  }

  ghost predicate CanComeBack(c: Core, k: nat) {
    && k < |c.objs|
    && c.objs[k].state == OutProcessed && c.objs[k].returnedBy == ""
    && Money.Parse(c.objs[k].amount).Some?
  }

  ghost predicate Coherent(s: Sys) {
    && |s.tasks| == |s.core.objs|
    && Closed(s.core)
    && (forall k :: 0 <= k < |s.tasks| ==> Fits(s.core.objs[k], s.tasks[k]))
    && (!s.held.Free? ==> CanComeBack(s.core, s.held.ptr))
    && (forall j :: 0 <= j < |s.landing| ==> Money.Parse(s.landing[j].amount).Some? && s.landing[j].toId in s.book)
  }

  /** The steps that file a new payment. */
  predicate Files(st: Step) {
    st.Create? || st.Record? || st.FinishReturn?
  }

  lemma FilingCoherent(s: Sys, st: Step)
    requires Coherent(s) && Enabled(s, st) && Files(st)
    ensures Coherent(Apply(s, st))
  {
    hide Money.Parse, RefNo, ReturnRemittance, Posted;
  }

  lemma OtherCoherent(s: Sys, st: Step)
    requires Coherent(s) && Enabled(s, st) && !Files(st)
    ensures Coherent(Apply(s, st))
  {
    hide Money.Parse, RefNo, ReturnRemittance, Posted;
  }

  lemma StepCoherent(s: Sys, st: Step)
    requires Coherent(s) && Enabled(s, st)
    ensures Coherent(Apply(s, st))
  {
    hide Coherent, Apply, Enabled;
    if Files(st) {
      FilingCoherent(s, st);
    } else {
      OtherCoherent(s, st);
    }
  }

  // ---------------------------------------------------- ledger equals replay

  /** How much a step changes account a's money by. */
  ghost function Delta(s: Sys, st: Step, a: string): int
    requires Enabled(s, st)
  {
    match st
    case Move(k, _) =>
      var p, o := s.core.objs[k], s.tasks[k].outcome;
      if o != Some(Pending) && Attempt(s.book, p, o).None? then Transfer(p.fromId, p.toId, a, Cents(p)) else 0
    case Land(l, _) => LandingOn(l, a)
    case TakeBack(id, _, _) =>
      (match TakenBack(s, id)
       case None => 0
       case Some(k) => var p := s.core.objs[k]; Transfer(p.toId, p.fromId, a, Cents(p)))
    case _ => 0
  }

  lemma DeltaIsNet(s: Sys, st: Step, a: string)
    requires Coherent(s) && Enabled(s, st)
    ensures |Apply(s, st).tasks| == |Apply(s, st).core.objs|
    ensures Net(Apply(s, st), a) == Net(s, a) + Delta(s, st, a)
  {
    hide Money.Parse, RefNo, ReturnRemittance, Posted, Refusal, Replay, Moving, Landed;
    var objs, tasks := s.core.objs, s.tasks;
    if st.FinishReturn? {
      FinishReturnNet(s, st.newId, st.code, st.description, st.now, a);
    } else if Files(st) {
      FilingNet(s, st, a);
    } else {
      OtherNet(s, st, a);
    }
  }

  lemma FilingNet(s: Sys, st: Step, a: string)
    requires Coherent(s) && Enabled(s, st) && (st.Create? || st.Record?)
    ensures |Apply(s, st).tasks| == |Apply(s, st).core.objs|
    ensures Net(Apply(s, st), a) == Net(s, a) + Delta(s, st, a)
  {
    hide Money.Parse, RefNo, ReturnRemittance, Replay, Moving, Landed;
    var objs, tasks, s' := s.core.objs, s.tasks, Apply(s, st);
    var q := s'.core.objs[|objs|];
    ReplayAppend(objs, q, a);
    MovingAppend(objs, tasks, q, s'.tasks[|objs|], a);
    if st.Record? {
      LandedRemove(s.landing, st.j, a);
    }
  }

  lemma OtherNet(s: Sys, st: Step, a: string)
    requires Coherent(s) && Enabled(s, st) && !Files(st)
    ensures |Apply(s, st).tasks| == |Apply(s, st).core.objs|
    ensures Net(Apply(s, st), a) == Net(s, a) + Delta(s, st, a)
  {
    hide Money.Parse, RefNo, ReturnRemittance, Posted, Refusal, Replay, Moving, Landed;
    var objs, tasks := s.core.objs, s.tasks;
    var s' := Apply(s, st);
    match st {
      case Move(k, day) =>
        assert objs[k := objs[k]] == objs;
        MovingUpdate(objs, tasks, k, objs[k], s'.tasks[k], a);
      case Mark(k, now) =>
        ReplayUpdate(objs, k, s'.core.objs[k], a);
        MovingUpdate(objs, tasks, k, s'.core.objs[k], Idle, a);
      case Land(l, day) =>
        LandedAppend(s.landing, l, a);
      case Settle(k, now) =>
        ReplayUpdate(objs, k, s'.core.objs[k], a);
        MovingUpdate(objs, tasks, k, s'.core.objs[k], Idle, a);
      case FinishReverse(reason, now) =>
        var k := s.held.ptr;
        ReplayUpdate(objs, k, s'.core.objs[k], a);
        assert tasks[k := tasks[k]] == tasks;
        MovingUpdate(objs, tasks, k, s'.core.objs[k], tasks[k], a);
      case _ =>
    }
  }

  lemma FinishReturnNet(s: Sys, id: string, code: string, description: string, now: string, a: string)
    requires Coherent(s) && Enabled(s, FinishReturn(id, code, description, now))
    ensures var s' := Apply(s, FinishReturn(id, code, description, now));
            |s'.tasks| == |s'.core.objs| && Net(s', a) == Net(s, a)
  {
    hide Money.Parse, RefNo, ReturnRemittance, Replay, Moving, Landed;
    var objs, tasks, k := s.core.objs, s.tasks, s.held.ptr;
    var s' := Apply(s, FinishReturn(id, code, description, now));
    var orig := objs[k].(returnedBy := id);
    var back := s'.core.objs[|objs|];
    ReplayUpdate(objs, k, orig, a);
    ReplayAppend(objs[k := orig], back, a);
    assert tasks[k := tasks[k]] == tasks;
    MovingUpdate(objs, tasks, k, orig, tasks[k], a);
    MovingAppend(objs[k := orig], tasks, back, Arriving, a);
  }

  lemma DeltaIsBalance(s: Sys, st: Step, a: string)
    requires Coherent(s) && Enabled(s, st) && WellKept(s.book)
    ensures Balance(Apply(s, st).book, a) == Wrap64(Balance(s.book, a) + Delta(s, st, a))
    ensures a !in Apply(s, st).book ==> Delta(s, st, a) == 0
    ensures WellKept(Apply(s, st).book) && s.book.Keys <= Apply(s, st).book.Keys
  {
    hide Money.Parse, RefNo, ReturnRemittance, Wrap64, Posted, Moved, Credited, Cents, LandingCents;
    BalanceIsInt64(s.book, a);
    match st {
      case Move(k, day) =>
        var p := s.core.objs[k];
        MovedBalance(s.book, p.fromId, p.toId, Cents(p), day, a);
      case Land(l, day) =>
        CreditedBalance(s.book, l.toId, LandingCents(l), day, a);
      case TakeBack(id, asReturn, day) =>
        if TakenBack(s, id).Some? {
          var p := s.core.objs[TakenBack(s, id).value];
          MovedBalance(s.book, p.toId, p.fromId, Cents(p), day, a);
        }
      case _ =>
    }
  }
}
