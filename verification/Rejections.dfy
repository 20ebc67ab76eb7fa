/** The rejection report of internal/bankingcircle/reports.go, and what a sweep over both reports sees. */
module Rejections {
  import opened Text
  import opened Sorting
  import opened Ledger
  import opened Payments
  import opened PaymentRuns
  import opened PaymentHistory
  import opened Reports
  import opened ReportMoney
  import BusinessDay
  import Money

  datatype Kind = KindRejected | KindMissingFunds | KindPendingBooked

  datatype RejectionQuery = RejectionQuery(
    transactionDate: string, reportDate: string,
    includeMissingFunds: bool, includeReceived: bool, excludeBooked: bool)

  datatype RejectionRow = RejectionRow(
    reportDate: Option<string>, account: Option<string>, currency: Option<string>, valueDate: Option<string>,
    amount: int, reference: Option<string>, userReference: Option<string>, status: string)

  /** rejectionKindOf, over the states the engine fires. */
  function KindOf(s: PState): Option<Kind> {
    match s
    case OutRejected => Some(KindRejected)
    case MissingFunding => Some(KindMissingFunds)
    case OutBooked => Some(KindPendingBooked)
    case _ => None
  }

  function StatusOf(k: Kind): string {
    match k
    case KindRejected => "Rejected"
    case KindMissingFunds => "Insufficient Funds"
    case KindPendingBooked => "Received"
  }

  predicate Excluded(k: Kind, q: RejectionQuery) {
    || (k == KindMissingFunds && !q.includeMissingFunds)
    || (k == KindPendingBooked && (!q.includeReceived || q.excludeBooked))
  }

  function RowOf(bank: Bank, p: Payment, k: Kind, q: RejectionQuery): RejectionRow {
    RejectionRow(BcDate(q.reportDate), Str(bank.iban(p.fromId)), Str(p.currency),
                 BcDate(bank.businessDate(p.createdAt)), Cents(p), Str(p.referenceNumber),
                 Str(FirstNonEmpty(p.reference, p.settlementId)), StatusOf(k))
  }

  /** The line one payment contributes, if any. */
  function RejectionLines(bank: Bank, p: Payment, q: RejectionQuery): seq<RejectionRow> {
    if bank.businessDate(p.createdAt) != q.transactionDate then []
    else
      match KindOf(p.state)
      case None => []
      case Some(k) => if Excluded(k, q) then [] else [RowOf(bank, p, k, q)]
  }

  function AllRejections(bank: Bank, ps: seq<Payment>, q: RejectionQuery): seq<RejectionRow> {
    if ps == [] then [] else AllRejections(bank, ps[..|ps| - 1], q) + RejectionLines(bank, ps[|ps| - 1], q)
  }

  /** By value date, then by the bank's reference. */
  predicate RejectionBefore(a: RejectionRow, b: RejectionRow) {
    if Deref(a.valueDate) != Deref(b.valueDate) then Less(Deref(a.valueDate), Deref(b.valueDate))
    else Less(Deref(a.reference), Deref(b.reference))
  }

  predicate RejectionAtMost(a: RejectionRow, b: RejectionRow) {
    !RejectionBefore(b, a)
  }

  method RejectionReport(bank: Bank, ps: seq<Payment>, q: RejectionQuery) returns (rows: seq<RejectionRow>)
    ensures rows == Sort(AllRejections(bank, ps, q), RejectionAtMost)
  {
    rows := [];
    for i := 0 to |ps|
      invariant rows == AllRejections(bank, ps[..i], q)
    {
      var p := ps[i];
      assert ps[..i + 1][..i] == ps[..i];
      if bank.businessDate(p.createdAt) != q.transactionDate {
        continue;
      }
      var kind := KindOf(p.state);
      if kind.None? {
        continue;
      }
      if (kind.value == KindMissingFunds && !q.includeMissingFunds)
        || (kind.value == KindPendingBooked && !q.includeReceived)
        || (kind.value == KindPendingBooked && q.excludeBooked) {
        continue;
      }
      rows := rows + [RowOf(bank, p, kind.value, q)];
    }
    assert ps[..|ps|] == ps;
    rows := Sort(rows, RejectionAtMost);
  }

  // ------------------------------------------------------- both reports of a day

  /** Every line of one transaction date. */
  function DayOf(d: string): Query {
    Query(d, d, "", "", [], 1, 0)
  }

  /** The three kinds the report lists by default. */
  function DefaultRejections(d: string): RejectionQuery {
    RejectionQuery(d, d, true, true, false)
  }

  predicate InBookings(bank: Bank, p: Payment, d: string) {
    Lines(bank, p, DayOf(d)) != []
  }

  predicate InRejections(bank: Bank, p: Payment, d: string) {
    RejectionLines(bank, p, DefaultRejections(d)) != []
  }

  predicate Outgoing(p: Payment) {
    !IsIncoming(p.state)
  }

  /** The timestamps the report dates a payment's bookings by. */
  function BookingTimes(p: Payment): seq<string> {
    if p.state == Reversed then [FirstNonEmpty(p.processedAt, p.createdAt), FirstNonEmpty(p.reversedAt, p.updatedAt)]
    else if IsBooked(p.state) then [p.updatedAt]
    else []
  }

  predicate BookedOn(bank: Bank, p: Payment, d: string) {
    exists i :: 0 <= i < |BookingTimes(p)| && bank.businessDate(BookingTimes(p)[i]) == d
  }

  /** Business dates are dates: ten characters. */
  ghost predicate Dated(bank: Bank, p: Payment, d: string) {
    |d| == 10 && forall i :: 0 <= i < |BookingTimes(p)| ==> |bank.businessDate(BookingTimes(p)[i])| == 10
  }

  lemma DatedLine(day: string, d: string)
    requires |day| == 10 && |d| == 10
    ensures WithinDates(Deref(BcDate(day)), d, d) <==> day == d
  {
    hide Less;
    assert day[..10] == day && d[..10] == d;
    assert BcDate(day) == Some(day + "T00:00:00+00:00");
    assert DatePart(day + "T00:00:00+00:00") == day;
    LessTrichotomy(day, d);
  }

  lemma OneDated(rows: seq<Row>, from: string, to: string)
    requires |rows| == 1
    ensures DatedWithin(rows, from, to) != [] <==> WithinDates(Deref(rows[0].reportDate), from, to)
  {
    hide WithinDates;
    assert rows[..0] == [];
  }

  lemma TwoDated(rows: seq<Row>, from: string, to: string)
    requires |rows| == 2
    ensures DatedWithin(rows, from, to) != []
      <==> WithinDates(Deref(rows[0].reportDate), from, to) || WithinDates(Deref(rows[1].reportDate), from, to)
  {
    hide WithinDates;
    OneDated(rows[..1], from, to);
  }

  /** A payment is in the day's reconciliation report if and only if one of its bookings is dated that day. */
  lemma BookedIff(bank: Bank, p: Payment, d: string)
    requires Dated(bank, p, d)
    ensures InBookings(bank, p, d) <==> BookedOn(bank, p, d)
  {
    hide DatedWithin, BcDate, Cents;
    var times := BookingTimes(p);
    assert WithinDates(p.createdAt, "", "");
    if IsBooked(p.state) {
      var rows := BookingRows(bank, p, Str(bank.iban(AccountOf(p))));
      DatedLine(bank.businessDate(times[0]), d);
      if p.state == Reversed {
        TwoDated(rows, d, d);
        DatedLine(bank.businessDate(times[1]), d);
      } else {
        OneDated(rows, d, d);
      }
    }
  }

  /** A payment is in the day's rejection report if and only if it was instructed that day and failed or is pending. */
  lemma NotProcessedIff(bank: Bank, p: Payment, d: string)
    ensures InRejections(bank, p, d)
      <==> bank.businessDate(p.createdAt) == d && p.state in {OutRejected, MissingFunding, OutBooked}
  {
  }

  /**
   * A payment instructed on a day and no longer pending is never in both of the day's reports, and is in exactly one if
   * and only if it failed, or was booked or reversed on that same business day. One processed on a later day is in
   * neither.
   */
  lemma OneReportIff(bank: Bank, p: Payment, d: string)
    requires Outgoing(p) && p.state != OutBooked && bank.businessDate(p.createdAt) == d && Dated(bank, p, d)
    ensures !(InBookings(bank, p, d) && InRejections(bank, p, d))
    ensures InBookings(bank, p, d) || InRejections(bank, p, d)
      <==> p.state == OutRejected || p.state == MissingFunding || BookedOn(bank, p, d)
  {
    hide InBookings, InRejections;
    BookedIff(bank, p, d);
    NotProcessedIff(bank, p, d);
    if p.state == OutRejected || p.state == MissingFunding {
      assert BookingTimes(p) == [];
    }
  }

  /** Instructed before the cutoff and processed after it: the sweep of the day sees the payment in neither report. */
  lemma OvernightInNeither(bank: Bank, p: Payment, d: string)
    requires p.state == OutProcessed && bank.businessDate(p.createdAt) == d && Dated(bank, p, d)
    requires bank.businessDate(p.updatedAt) != d
    ensures !InBookings(bank, p, d) && !InRejections(bank, p, d)
  {
    hide InBookings, InRejections;
    BookedIff(bank, p, d);
    NotProcessedIff(bank, p, d);
  }

  // -------------------------------------------------------------- over a run

  /** A booked payment has not been touched since it was created. */
  ghost predicate BookedUntouched(s: Sys) {
    forall k :: 0 <= k < |s.core.objs| && s.core.objs[k].state == OutBooked ==>
      s.core.objs[k].updatedAt == s.core.objs[k].createdAt
  }

  lemma StepUntouched(s: Sys, st: Step)
    requires Coherent(s) && Enabled(s, st) && BookedUntouched(s)
    ensures BookedUntouched(Apply(s, st))
  {
    hide Money.Parse, RefNo, ReturnRemittance, Posted, Moved, Credited, Refusal, Wrap64;
  }

  lemma {:induction false} AlwaysUntouched(s: Sys, tr: seq<Step>)
    requires Coherent(s) && LegalRun(s, tr) && BookedUntouched(s)
    ensures BookedUntouched(Run(s, tr))
    decreases |tr|
  {
    hide Apply, Enabled, Coherent, BookedUntouched;
    if tr != [] {
      StepCoherent(s, tr[0]);
      StepUntouched(s, tr[0]);
      AlwaysUntouched(Apply(s, tr[0]), tr[1..]);
    }
  }

  /** Over any run, a pending payment that has booked is in both reports of the day it was instructed. */
  lemma PendingInBoth(bank: Bank, s: Sys, tr: seq<Step>, k: nat, d: string)
    requires Initial(s) && LegalRun(s, tr) && k < |Run(s, tr).core.objs|
    requires var p := Run(s, tr).core.objs[k];
      p.state == OutBooked && bank.businessDate(p.createdAt) == d && Dated(bank, p, d)
    ensures InBookings(bank, Run(s, tr).core.objs[k], d) && InRejections(bank, Run(s, tr).core.objs[k], d)
  {
    hide InBookings, InRejections, Apply, Enabled;
    AlwaysUntouched(s, tr);
    var p := Run(s, tr).core.objs[k];
    BookedIff(bank, p, d);
    NotProcessedIff(bank, p, d);
    assert BookingTimes(p)[0] == p.createdAt;
  }

  // ------------------------------------------------ a run over the cutoff

  /** The bank's business days are those of BusinessDay: read makes out a timestamp, text writes a day. */
  ghost predicate KeepsBusinessDays(bank: Bank, read: string -> BusinessDay.Stamp, off: int -> int,
                                    text: int -> string)
  {
    forall ts :: bank.businessDate(ts) ==
      match read(ts)
      case Unreadable => ""
      case BareDate(day) => text(day)
      case Instant(t) => text(BusinessDay.DayOf(t, off))
  }

  const TUESDAY: int := 19724

  const BEFORE_CUTOFF: string := "2024-01-02T18:59:59Z"

  const AT_CUTOFF: string := "2024-01-02T19:00:00Z"

  /** 18:59:59 on Tuesday 2 January 2024 and the second after it belong to two business days. */
  lemma CutoffPassed(off: int -> int)
    requires forall t :: off(t) == 0
    ensures BusinessDay.DayOf(TUESDAY * 86400 + 68399, off) == TUESDAY
    ensures BusinessDay.DayOf(TUESDAY * 86400 + 68400, off) == TUESDAY + 1
  {
  }

  /**
   * From a new engine: 5.00 comes in, a payout of it is created one second before the cutoff and recorded as processed
   * at it. The money has moved, and neither report of the day it was instructed on shows the payout.
   */
  lemma CutoffPayoutInNeither(bank: Bank, read: string -> BusinessDay.Stamp, off: int -> int, text: int -> string,
                              s: Sys, p: Payment)
    requires KeepsBusinessDays(bank, read, off, text) && forall t :: off(t) == 0
    requires read(BEFORE_CUTOFF) == BusinessDay.Instant(TUESDAY * 86400 + 68399)
    requires read(AT_CUTOFF) == BusinessDay.Instant(TUESDAY * 86400 + 68400)
    requires text(TUESDAY) == "2024-01-02" && text(TUESDAY + 1) == "2024-01-03"
    requires Initial(s) && s.book == map[] && PayoutToB(p)
    ensures var tr := PaidIn(BEFORE_CUTOFF) + PaidOn(p, BEFORE_CUTOFF, AT_CUTOFF);
      && LegalRun(s, tr) && |Run(s, tr).core.objs| == 2 && Balance(Run(s, tr).book, "b") == 500
      && var q := Run(s, tr).core.objs[1];
         && q.id == "out" && q.state == OutProcessed && bank.businessDate(q.createdAt) == "2024-01-02"
         && !InBookings(bank, q, "2024-01-02") && !InRejections(bank, q, "2024-01-02")
  {
    hide RefNo, Apply, Enabled, InBookings, InRejections, LegalRun, Run;
    FundsMove(s, p, BEFORE_CUTOFF, AT_CUTOFF);
    CutoffPassed(off);
    hide BusinessDay.DayOf;
    var q := Run(s, PaidIn(BEFORE_CUTOFF) + PaidOn(p, BEFORE_CUTOFF, AT_CUTOFF)).core.objs[1];
    assert q.createdAt == BEFORE_CUTOFF && q.updatedAt == AT_CUTOFF;
    assert bank.businessDate(q.updatedAt) == "2024-01-03";
    OvernightInNeither(bank, q, "2024-01-02");
  }
}
