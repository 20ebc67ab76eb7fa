/** The report's booking lines agree with the money: over any run, and for any account. */
module ReportMoney {
  import opened Text
  import opened Ledger
  import opened Payments
  import opened PaymentRuns
  import opened PaymentLaws
  import opened PaymentHistory
  import opened PaymentEngine
  import opened PaymentListing
  import opened Sorting
  import opened Reports
  import opened ReportLaws
  import Money

  /** Credit minus debit of one line, leaving out a debit that is only booked. */
  function LineNet(r: Row): int {
    (if r.credit.Some? then r.credit.value else 0)
    - (if r.debit.Some? && r.processedTimestamp.Some? then r.debit.value else 0)
  }

  function NetOf(rows: seq<Row>): int {
    if rows == [] then 0 else NetOf(rows[..|rows| - 1]) + LineNet(rows[|rows| - 1])
  }

  lemma {:induction false} NetOfAppend(a: seq<Row>, b: seq<Row>)
    ensures NetOf(a + b) == NetOf(a) + NetOf(b)
  {
    hide LineNet;
    if b == [] {
      assert a + b == a;
    } else {
      assert (a + b)[..|a + b| - 1] == a + b[..|b| - 1];
      NetOfAppend(a, b[..|b| - 1]);
    }
  }

  lemma NetOfSnoc(rows: seq<Row>, r: Row)
    ensures NetOf(rows + [r]) == NetOf(rows) + LineNet(r)
  {
    hide LineNet;
    assert (rows + [r])[..|rows|] == rows;
  }

  lemma {:induction false} NetOfInsert(r: Row, rows: seq<Row>)
    ensures NetOf(Insert(r, rows, RowAtMost)) == NetOf(rows) + LineNet(r)
  {
    hide RowAtMost, LineNet, Insert, NetOf;
    NetOfSnoc(rows, r);
    if rows == [] || RowAtMost(rows[|rows| - 1], r) {
      InsertLast(r, rows, RowAtMost);
    } else {
      var init, last := rows[..|rows| - 1], rows[|rows| - 1];
      assert rows == init + [last];
      InsertEarlier(r, rows, RowAtMost);
      NetOfInsert(r, init);
      NetOfSnoc(Insert(r, init, RowAtMost), last);
      NetOfSnoc(init, last);
    }
  }

  lemma {:induction false} NetOfSort(rows: seq<Row>)
    ensures NetOf(Sort(rows, RowAtMost)) == NetOf(rows)
  {
    hide RowAtMost, LineNet;
    if rows != [] {
      var n := |rows| - 1;
      NetOfSort(rows[..n]);
      NetOfInsert(rows[n], Sort(rows[..n], RowAtMost));
    }
  }

  /** Every line of one account, on one page. */
  function AllLinesOf(account: string): Query {
    Query("", "", "", "", [account], 1, 0)
  }

  /** Processed payments carry the time they were processed, reversed ones also when they were reversed. */
  ghost predicate Stamped(p: Payment) {
    && (IsProcessed(p.state) ==> p.processedAt != "")
    && (p.state == Reversed ==> p.reversedAt != "")
  }

  /** What account a holds of p beyond what the report lists on it: a payout received, a return sent. */
  function Unlisted(p: Payment, a: string): int {
    if p.state == OutProcessed && a == p.toId then Cents(p)
    else if IsIncoming(p.state) && p.isReturn && a == p.fromId then -Cents(p)
    else 0
  }

  function UnlistedTotal(objs: seq<Payment>, a: string): int {
    if objs == [] then 0 else UnlistedTotal(objs[..|objs| - 1], a) + Unlisted(objs[|objs| - 1], a)
  }

  lemma AllDatesPass(rows: seq<Row>)
    ensures DatedWithin(rows, "", "") == rows
  {
    if rows != [] {
      AllDatesPass(rows[..|rows| - 1]);
      assert rows == rows[..|rows| - 1] + [rows[|rows| - 1]];
    }
  }

  /** The account's own id, as the filter compares ids. */
  ghost predicate OnlyItself(a: string, p: Payment) {
    TrimSpace(a) == a && (EqualFold(a, AccountOf(p)) <==> a == AccountOf(p))
  }

  lemma BookingRowsNet(bank: Bank, p: Payment, account: Option<string>)
    requires IsBooked(p.state) && Stamped(p)
    ensures NetOf(BookingRows(bank, p, account)) ==
      match p.state
      case OutProcessed => -Cents(p)
      case InBooked | InProcessed => Cents(p)
      case _ => 0
  {
    hide Cents, BcDate;
    var rows := BookingRows(bank, p, account);
    assert rows[..0] == [];
    if p.state == Reversed {
      assert rows[..1] == [rows[0]];
      assert NetOf([rows[0]]) == LineNet(rows[0]) by { assert [rows[0]][..0] == []; }
    }
  }

  lemma WantedOnAccount(a: string, p: Payment)
    requires OnlyItself(a, p)
    ensures Wanted(p, AllLinesOf(a)) <==> IsBooked(p.state) && a == AccountOf(p)
  {
    hide TrimSpace, Folded;
    var q := AllLinesOf(a);
    assert q.accountIds[0] == a;
    if EqualFold(a, AccountOf(p)) {
      assert EqualFold(TrimSpace(q.accountIds[0]), AccountOf(p));
    }
  }

  /** A payment's lines on an account, against what its record did there. */
  lemma LinesNet(bank: Bank, p: Payment, a: string)
    requires Stamped(p) && OnlyItself(a, p)
    ensures NetOf(Lines(bank, p, AllLinesOf(a))) == Effect(p, a) - Unlisted(p, a)
  {
    hide Cents, BookingRows, Wanted, EqualFold;
    WantedOnAccount(a, p);
    if Wanted(p, AllLinesOf(a)) {
      var account := Str(bank.iban(AccountOf(p)));
      AllDatesPass(BookingRows(bank, p, account));
      BookingRowsNet(bank, p, account);
    }
  }

  lemma {:induction false} CollectedNet(bank: Bank, objs: seq<Payment>, a: string)
    requires forall k :: 0 <= k < |objs| ==> Stamped(objs[k]) && OnlyItself(a, objs[k])
    ensures NetOf(Collected(bank, objs, AllLinesOf(a))) == Replay(objs, a) - UnlistedTotal(objs, a)
  {
    hide Lines, Effect, Unlisted, Stamped, OnlyItself;
    if objs != [] {
      var n := |objs| - 1;
      CollectedNet(bank, objs[..n], a);
      NetOfAppend(Collected(bank, objs[..n], AllLinesOf(a)), Lines(bank, objs[n], AllLinesOf(a)));
      LinesNet(bank, objs[n], a);
    }
  }

  lemma ReportNet(bank: Bank, objs: seq<Payment>, a: string)
    requires forall k :: 0 <= k < |objs| ==> Stamped(objs[k]) && OnlyItself(a, objs[k])
    ensures NetOf(Listing(bank, objs, AllLinesOf(a))) == Replay(objs, a) - UnlistedTotal(objs, a)
  {
    hide Collected, OnlyItself, Stamped;
    CollectedNet(bank, objs, a);
    NetOfSort(Collected(bank, objs, AllLinesOf(a)));
  }

  // ------------------------------------------------------------- over a run

  /** The clock always has a reading. */
  ghost predicate ClockedStep(st: Step) {
    match st
    case Create(_, now) => now != ""
    case Mark(_, now) => now != ""
    case Record(_, _, now) => now != ""
    case Settle(_, now) => now != ""
    case FinishReverse(_, now) => now != ""
    case FinishReturn(_, _, _, now) => now != ""
    case _ => true
  }

  ghost predicate AllStamped(s: Sys) {
    forall k :: 0 <= k < |s.core.objs| ==> Stamped(s.core.objs[k])
  }

  lemma StepStamped(s: Sys, st: Step)
    requires Coherent(s) && Enabled(s, st) && ClockedStep(st) && AllStamped(s)
    ensures AllStamped(Apply(s, st))
  {
    hide Money.Parse, RefNo, ReturnRemittance, Posted, Moved, Credited, Refusal, Wrap64;
  }

  lemma {:induction false} RunStamped(s: Sys, tr: seq<Step>)
    requires Coherent(s) && LegalRun(s, tr) && AllStamped(s)
    requires forall i :: 0 <= i < |tr| ==> ClockedStep(tr[i])
    ensures AllStamped(Run(s, tr))
    decreases |tr|
  {
    hide Apply, Enabled, Coherent, AllStamped, ClockedStep;
    if tr != [] {
      StepCoherent(s, tr[0]);
      StepStamped(s, tr[0]);
      RunStamped(Apply(s, tr[0]), tr[1..]);
    }
  }

  /** Nothing moved but unrecorded. */
  ghost predicate Quiet(s: Sys) {
    && s.held.Free? && s.landing == []
    && forall k :: 0 <= k < |s.tasks| ==> s.tasks[k] != Tried(None)
  }

  lemma {:induction false} NothingMoving(objs: seq<Payment>, tasks: seq<Task>, a: string)
    requires |objs| == |tasks| && forall k :: 0 <= k < |tasks| ==> tasks[k] != Tried(None)
    ensures Moving(objs, tasks, a) == 0
  {
    if objs != [] {
      NothingMoving(objs[..|objs| - 1], tasks[..|objs| - 1], a);
    }
  }

  /** In any state with no move in flight, the lines of an account add up to its balance, less what
      the report does not list on it: so exactly to the balance if and only if that is nothing. */
  lemma LinesAgreeWithLedger(bank: Bank, s: Sys, tr: seq<Step>, a: string)
    requires Initial(s) && WellKept(s.book) && LegalRun(s, tr) && Funded(s, tr)
    requires forall i :: 0 <= i < |tr| ==> ClockedStep(tr[i])
    requires Quiet(Run(s, tr))
    requires forall k :: 0 <= k < |Run(s, tr).core.objs| ==> OnlyItself(a, Run(s, tr).core.objs[k])
    ensures var e := Run(s, tr);
            var net := NetOf(Listing(bank, e.core.objs, AllLinesOf(a)));
            && net == Balance(e.book, a) - UnlistedTotal(e.core.objs, a)
            && (net == Balance(e.book, a) <==> UnlistedTotal(e.core.objs, a) == 0)
  {
    hide Apply, Enabled, Listing, Balance, Coherent, Solvent, Funded, OnlyItself;
    NoMoneyMadeOrLost(s, tr);
    assert Coherent(s) by { InitialSolvent(s); }
    RunStamped(s, tr);
    var e := Run(s, tr);
    NothingMoving(e.core.objs, e.tasks, a);
    ReportNet(bank, e.core.objs, a);
  }

  /** A safeguarding account: no payout is ever made to it. */
  ghost predicate NeverPaidOut(objs: seq<Payment>, a: string) {
    forall k :: 0 <= k < |objs| ==>
      (objs[k].state == OutProcessed ==> objs[k].toId != a) && (objs[k].isReturn ==> objs[k].fromId != a)
  }

  lemma {:induction false} NothingUnlisted(objs: seq<Payment>, a: string)
    requires NeverPaidOut(objs, a)
    ensures UnlistedTotal(objs, a) == 0
  {
    if objs != [] {
      NothingUnlisted(objs[..|objs| - 1], a);
    }
  }

  /** A returned payment leaves the account its payout went to, so if no payout was made to a, no return leaves it. */
  lemma NoReturnLeaves(c: Core, a: string)
    requires Filed(c) && Linked(c)
    requires forall k :: 0 <= k < |c.objs| && c.objs[k].isReturn ==> IsIncoming(c.objs[k].state)
    requires forall k :: 0 <= k < |c.objs| && !c.objs[k].isReturn && !IsIncoming(c.objs[k].state) ==>
      c.objs[k].toId != a
    ensures NeverPaidOut(c.objs, a)
  {
    forall k | 0 <= k < |c.objs| && c.objs[k].isReturn ensures c.objs[k].fromId != a {
      assert ReturnLinked(c, k);
    }
  }

  /** With fresh ids, what List returns is every payment ever made, each once. */
  lemma ListIsEveryPayment(c: Core, out: seq<Payment>)
    requires Filed(c) && exists ids :: IsListing(c, ids, out)
    ensures multiset(out) == multiset(c.objs)
  {
    var ids :| IsListing(c, ids, out);
    ListMembers(c, ids, out);
    ListDistinct(c, ids, out);
    DistinctSameMembers(out, c.objs);
  }

  lemma ListMembers(c: Core, ids: seq<string>, out: seq<Payment>)
    requires Filed(c) && IsListing(c, ids, out)
    ensures forall x :: x in out <==> x in c.objs
  {
    hide Distinct;
    forall x | x in c.objs ensures x in out {
      var k :| 0 <= k < |c.objs| && c.objs[k] == x;
      assert x.id in ids;
      var i :| 0 <= i < |ids| && ids[i] == x.id;
      assert out[i] == x;
    }
  }

  lemma ListDistinct(c: Core, ids: seq<string>, out: seq<Payment>)
    requires Filed(c) && IsListing(c, ids, out)
    ensures Distinct(out) && Distinct(c.objs)
  {
    forall i, j | 0 <= i < j < |out| ensures out[i] != out[j] {
      assert out[i].id == ids[i] && out[j].id == ids[j];
    }
    forall i, j | 0 <= i < j < |c.objs| ensures c.objs[i] != c.objs[j] {
      assert c.listed[c.objs[i].id] == i && c.listed[c.objs[j].id] == j;
    }
  }

  ghost predicate NeverCreditor(objs: seq<Payment>, a: string) {
    forall k :: 0 <= k < |objs| && !objs[k].isReturn && !IsIncoming(objs[k].state) ==> objs[k].toId != a
  }

  lemma SafeguardingListsAll(s: Sys, tr: seq<Step>, a: string)
    requires Initial(s) && LegalRun(s, tr) && FreshRun(s, tr) && NeverCreditor(Run(s, tr).core.objs, a)
    ensures UnlistedTotal(Run(s, tr).core.objs, a) == 0
    ensures DistinctIds(Run(s, tr).core.objs)
  {
    hide Apply, Enabled;
    RunLinked(s, tr);
    RunCoherent(s, tr);
    var c := Run(s, tr).core;
    NoReturnLeaves(c, a);
    NothingUnlisted(c.objs, a);
    forall i, j | 0 <= i < j < |c.objs| ensures c.objs[i].id != c.objs[j].id {
      assert c.listed[c.objs[i].id] == i && c.listed[c.objs[j].id] == j;
    }
  }

  lemma PositiveThroughout(s: Sys, tr: seq<Step>)
    requires Initial(s) && WellKept(s.book) && LegalRun(s, tr) && Funded(s, tr)
    ensures PositiveAmounts(Run(s, tr).core.objs)
  {
    hide Apply, Enabled, Cents;
    InitialSolvent(s);
    AlwaysSolvent(s, tr);
  }

  /** For a safeguarding account, over any run with fresh ids and positive amounts, reversals and
      returns included: summing the report gives exactly the ledger balance, in whatever order the
      store lists the payments. */
  lemma SafeguardingReportIsBalance(bank: Bank, s: Sys, tr: seq<Step>, a: string, listed: seq<Payment>)
    requires Initial(s) && WellKept(s.book) && LegalRun(s, tr) && Funded(s, tr) && FreshRun(s, tr)
    requires forall i :: 0 <= i < |tr| ==> ClockedStep(tr[i])
    requires Quiet(Run(s, tr)) && NeverCreditor(Run(s, tr).core.objs, a)
    requires forall k :: 0 <= k < |Run(s, tr).core.objs| ==> OnlyItself(a, Run(s, tr).core.objs[k])
    requires multiset(listed) == multiset(Run(s, tr).core.objs)
    ensures NetOf(Listing(bank, listed, AllLinesOf(a))) == Balance(Run(s, tr).book, a)
  {
    hide Run, LegalRun, Funded, FreshRun, Initial, WellKept, Quiet, NeverCreditor, Listing, Balance, OnlyItself, NetOf;
    hide UnlistedTotal, DistinctIds, PositiveAmounts;
    LinesAgreeWithLedger(bank, s, tr, a);
    SafeguardingListsAll(s, tr, a);
    PositiveThroughout(s, tr);
    ReportIgnoresOrder(bank, Run(s, tr).core.objs, listed, AllLinesOf(a));
  }

  // ------------------------------------------------ where the two disagree

  /** 5.00 comes in from outside. */
  function PaidIn(now: string): seq<Step> {
    [OpenAccount("sga", "", "", "EUR"), OpenAccount("b", "", "", "EUR"),
     Land(Landing("sga", "EUR", "5.00", ""), 1), Record(0, "in", now)]
  }

  /** And is paid on to another account of the bank. */
  function PaidOn(p: Payment, booked: string, now: string): seq<Step> {
    [Create(p, booked), Move(1, 1), Mark(1, now)]
  }

  predicate PayoutToB(p: Payment) {
    p.id == "out" && p.fromId == "sga" && p.toId == "b" && p.amount == "5.00" && Plain(p)
  }

  lemma {:induction false} RunConcat(s: Sys, x: seq<Step>, y: seq<Step>)
    requires LegalRun(s, x) && LegalRun(Run(s, x), y)
    ensures LegalRun(s, x + y) && Run(s, x + y) == Run(Run(s, x), y)
    decreases |x|
  {
    hide Apply, Enabled;
    if x == [] {
      assert x + y == y;
    } else {
      assert (x + y)[1..] == x[1..] + y;
      RunConcat(Apply(s, x[0]), x[1..], y);
    }
  }

  lemma RunOfThree(s: Sys, x: Step, y: Step, z: Step)
    requires Enabled(s, x) && Enabled(Apply(s, x), y) && Enabled(Apply(Apply(s, x), y), z)
    ensures LegalRun(s, [x, y, z]) && Run(s, [x, y, z]) == Apply(Apply(Apply(s, x), y), z)
  {
    hide Apply, Enabled;
    RunOfTwo(s, x, y);
    var e := Apply(Apply(s, x), y);
    assert [z][1..] == [] && LegalRun(Apply(e, z), []);
    assert LegalRun(e, [z]) && Run(e, [z]) == Apply(e, z);
    RunConcat(s, [x, y], [z]);
    assert [x, y] + [z] == [x, y, z];
  }

  ghost predicate FundsIn(w: Sys, now: string) {
    && w.core == Core([Incoming("in", "sga", "EUR", "5.00", "", RefNo(1), now)], map["in" := 0], [], 1)
    && w.tasks == [Arriving] && w.landing == [] && w.held == Free
    && "sga" in w.book && "b" in w.book && w.book["sga"].cents == 500 && w.book["b"].cents == 0
  }

  lemma FundsArrive(s: Sys, now: string)
    requires Initial(s) && s.book == map[]
    ensures LegalRun(s, PaidIn(now)) && FundsIn(Run(s, PaidIn(now)), now)
  {
    hide Money.Parse, RefNo, Wrap64;
    Money.FiveIsRead();
    var tr := PaidIn(now);
    RunOfTwo(s, tr[0], tr[1]);
    var m := Apply(Apply(s, tr[0]), tr[1]);
    assert m.book["sga"].cents == 0 && m.book["b"].cents == 0;
    RunOfTwo(m, tr[2], tr[3]);
    var l := Apply(m, tr[2]);
    assert l.landing[..0] + l.landing[1..] == [];
    assert NextRef(0) == 1;
    RunConcat(s, [tr[0], tr[1]], [tr[2], tr[3]]);
    assert tr == [tr[0], tr[1]] + [tr[2], tr[3]];
  }

  ghost predicate FundsOut(e: Sys, p: Payment, booked: string, now: string) {
    && |e.core.objs| == 2 && |e.tasks| == 2 && Quiet(e) && Balance(e.book, "b") == 500
    && e.core.objs[0] == Incoming("in", "sga", "EUR", "5.00", "", RefNo(1), booked)
    && e.core.objs[1] == Marked(Booked(p, RefNo(2), booked), None, now)
  }

  lemma FundsLeave(w: Sys, p: Payment, booked: string, now: string)
    requires FundsIn(w, booked) && PayoutToB(p)
    ensures LegalRun(w, PaidOn(p, booked, now)) && FundsOut(Run(w, PaidOn(p, booked, now)), p, booked, now)
  {
    hide Money.Parse, RefNo, Wrap64;
    Money.FiveIsRead();
    assert NextRef(1) == 2;
    var tr := PaidOn(p, booked, now);
    var a := Apply(w, tr[0]);
    assert a.tasks == [Arriving, Starting(None)] && a.core.objs[1] == Booked(p, RefNo(2), booked);
    var b := Apply(a, tr[1]);
    assert b.tasks == [Arriving, Tried(None)];
    var e := Apply(b, tr[2]);
    RunOfThree(w, tr[0], tr[1], tr[2]);
    assert e.tasks == [Arriving, Idle];
  }

  lemma FundsMove(s: Sys, p: Payment, booked: string, now: string)
    requires Initial(s) && s.book == map[] && PayoutToB(p)
    ensures var tr := PaidIn(booked) + PaidOn(p, booked, now);
      LegalRun(s, tr) && FundsOut(Run(s, tr), p, booked, now)
  {
    hide RefNo, Apply, Enabled, FundsIn, FundsOut;
    FundsArrive(s, booked);
    FundsLeave(Run(s, PaidIn(booked)), p, booked, now);
    RunConcat(s, PaidIn(booked), PaidOn(p, booked, now));
  }

  /** The creditor account of one processed payout: it holds 5.00 and its report sums to nothing. */
  lemma CreditorReportIsShort(bank: Bank, s: Sys, p: Payment, now: string)
    requires Initial(s) && s.book == map[] && PayoutToB(p) && now != ""
    ensures var tr := PaidIn(now) + PaidOn(p, now, now);
      && LegalRun(s, tr) && Quiet(Run(s, tr))
      && Balance(Run(s, tr).book, "b") == 500
      && NetOf(Listing(bank, Run(s, tr).core.objs, AllLinesOf("b"))) == 0
  {
    hide Money.Parse, RefNo, Apply, Enabled, Listing, NetOf, Effect, Quiet;
    FundsMove(s, p, now, now);
    ShortOf(bank, Run(s, PaidIn(now) + PaidOn(p, now, now)), p, now);
  }

  lemma ShortOf(bank: Bank, e: Sys, p: Payment, now: string)
    requires FundsOut(e, p, now, now) && PayoutToB(p) && now != ""
    ensures NetOf(Listing(bank, e.core.objs, AllLinesOf("b"))) == 0
  {
    hide Money.Parse, RefNo, Listing, NetOf, Quiet;
    Money.FiveIsRead();
    var objs := e.core.objs;
    assert TrimSpace("b") == "b";
    assert !EqualFold("b", "sga") by { assert |Folded("b")| == 1 && |Folded("sga")| == 3; }
    forall k | 0 <= k < |objs| ensures Stamped(objs[k]) && OnlyItself("b", objs[k]) {
    }
    ReportNet(bank, objs, "b");
    assert objs[..1] == [objs[0]] && [objs[0]][..0] == [];
    assert Replay([objs[0]], "b") == 0 && UnlistedTotal([objs[0]], "b") == 0;
  }
}
