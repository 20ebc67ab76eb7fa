/** internal/bankingcircle/reports.go: the intraday reconciliation report, amounts in minor units. */
module Reports {
  import opened Text
  import opened Payments
  import opened Sorting

  /** One booking line. None is the null of the wire format. */
  datatype Row = Row(
    paymentId: Option<string>, account: Option<string>, currency: Option<string>,
    debit: Option<int>, credit: Option<int>, transactionAmount: int,
    reportDate: Option<string>, isReturn: bool,
    latestStatusChanged: Option<string>, processedTimestamp: Option<string>, statusReason: Option<string>,
    paymentReferenceNumber: Option<string>, userReferenceNumber: Option<string>,
    paymentDetails: seq<string>, additionalInformation: seq<Option<string>>)

  datatype Query = Query(
    fromTransactionDate: string, toTransactionDate: string, fromCreatedAt: string, toCreatedAt: string,
    accountIds: seq<string>, pageNumber: int, pageSize: int)

  /** What the report is told about the bank: the business day of a timestamp, and an account's IBAN. */
  datatype Bank = Bank(businessDate: string -> string, iban: string -> string)

  function Str(s: string): Option<string> {
    if s == "" then None else Some(s)
  }

  function Deref(s: Option<string>): string {
    if s.Some? then s.value else ""
  }

  function FirstNonEmpty(a: string, b: string): string {
    if a != "" then a else b
  }

  function DatePart(ts: string): string {
    if |ts| >= 10 then ts[..10] else ts
  }

  function BcDate(ts: string): Option<string> {
    if DatePart(ts) != "" then Some(DatePart(ts) + "T00:00:00+00:00") else None
  }

  /** Inclusive at both ends; an empty bound does not filter; an undated line passes only unfiltered. */
  predicate WithinDates(timestamp: string, from: string, to: string) {
    var d := DatePart(timestamp);
    if d == "" then from == "" && to == ""
    else (from == "" || !Less(d, DatePart(from))) && (to == "" || !Less(DatePart(to), d))
  }

  predicate IsBooked(s: PState) {
    s in {OutBooked, OutProcessed, InBooked, InProcessed, Reversed}
  }

  predicate IsProcessed(s: PState) {
    s in {OutProcessed, InProcessed, Reversed}
  }

  predicate IsIncoming(s: PState) {
    s in {InBooked, InProcessed}
  }

  function ReconciliationRow(bank: Bank, p: Payment, account: Option<string>, bookedAt: string): Row {
    var amount := Cents(p);
    Row(Str(p.id), account, Str(p.currency),
        if IsIncoming(p.state) then None else Some(amount),
        if IsIncoming(p.state) then Some(amount) else None,
        amount,
        BcDate(bank.businessDate(bookedAt)),
        p.isReturn,
        Str(p.updatedAt),
        if IsProcessed(p.state) then Str(FirstNonEmpty(p.processedAt, bookedAt)) else None,
        None,
        Str(p.referenceNumber),
        Str(FirstNonEmpty(p.reference, p.settlementId)),
        if |p.remittance| <= 4 then p.remittance else p.remittance[..4],
        if !p.isReturn then []
        else [Some("/RETN/"),
              if p.returnReasonCode != ""
                then Some("/" + p.returnReasonCode + "/" + p.returnReasonDescription) else None,
              if p.returnedReference != "" then Some("/MREF/" + p.returnedReference) else None])
  }

  /** The booking a reversal adds: the same line with its amount negated, dated when it was reversed. */
  function ReversalRow(bank: Bank, p: Payment, original: Row): Row {
    var at := FirstNonEmpty(p.reversedAt, p.updatedAt);
    original.(
      reportDate := BcDate(bank.businessDate(at)),
      processedTimestamp := Str(at),
      debit := if original.debit.Some? then Some(-original.debit.value) else None,
      credit := if original.credit.Some? then Some(-original.credit.value) else None,
      statusReason := Str(p.reversalReason))
  }

  function BookingRows(bank: Bank, p: Payment, account: Option<string>): (rows: seq<Row>) {
    if p.state != Reversed then [ReconciliationRow(bank, p, account, p.updatedAt)]
    else
      var original := ReconciliationRow(bank, p, account, FirstNonEmpty(p.processedAt, p.createdAt));
      [original, ReversalRow(bank, p, original)]
  }

  predicate IsReversalRow(r: Row) {
    (r.debit.Some? && r.debit.value < 0) || (r.credit.Some? && r.credit.value < 0)
  }

  /** Booking time, then payment, then a booking before its reversal. */
  predicate RowBefore(a: Row, b: Row) {
    var (at, bt) := (Deref(a.processedTimestamp), Deref(b.processedTimestamp));
    var (ai, bi) := (Deref(a.paymentId), Deref(b.paymentId));
    if at != bt then Less(at, bt)
    else if ai != bi then Less(ai, bi)
    else !IsReversalRow(a) && IsReversalRow(b)
  }

  predicate RowAtMost(a: Row, b: Row) {
    !RowBefore(b, a)
  }

  /** rows[start:start+size] with start and end in int64; None is the slice bounds panic. */
  function Slice(rows: seq<Row>, at: int, size: int): Option<seq<Row>> {
    var start := Wrap64(at);
    if start >= |rows| then Some([])
    else
      var end := Wrap64(start + size);
      var stop := if end > |rows| then |rows| else end;
      if 0 <= start <= stop then Some(rows[start..stop]) else None
  }

  function Page(rows: seq<Row>, number: int, size: int): Option<seq<Row>> {
    if size <= 0 then Some(rows)
    else
      var n := if number <= 0 then 1 else number;
      Slice(rows, (n - 1) * size, size)
  }

  predicate ContainsFold(list: seq<string>, v: string) {
    exists i :: 0 <= i < |list| && EqualFold(TrimSpace(list[i]), v)
  }

  function AccountOf(p: Payment): string {
    if IsIncoming(p.state) then p.toId else p.fromId
  }

  predicate Wanted(p: Payment, q: Query) {
    && IsBooked(p.state)
    && WithinDates(p.createdAt, q.fromCreatedAt, q.toCreatedAt)
    && (q.accountIds == [] || ContainsFold(q.accountIds, AccountOf(p)))
  }

  function DatedWithin(rows: seq<Row>, from: string, to: string): seq<Row> {
    if rows == [] then []
    else
      var r := rows[|rows| - 1];
      DatedWithin(rows[..|rows| - 1], from, to) + if WithinDates(Deref(r.reportDate), from, to) then [r] else []
  }

  /** The lines one payment contributes. */
  function Lines(bank: Bank, p: Payment, q: Query): seq<Row> {
    if Wanted(p, q) then
      DatedWithin(BookingRows(bank, p, Str(bank.iban(AccountOf(p)))), q.fromTransactionDate, q.toTransactionDate)
    else []
  }

  function Collected(bank: Bank, ps: seq<Payment>, q: Query): seq<Row> {
    if ps == [] then [] else Collected(bank, ps[..|ps| - 1], q) + Lines(bank, ps[|ps| - 1], q)
  }

  /** All lines in report order, before paging. */
  function Listing(bank: Bank, ps: seq<Payment>, q: Query): seq<Row> {
    Sort(Collected(bank, ps, q), RowAtMost)
  }

  method IntradayReconciliation(bank: Bank, ps: seq<Payment>, q: Query) returns (report: Option<seq<Row>>)
    ensures report == Page(Listing(bank, ps, q), q.pageNumber, q.pageSize)
  {
    hide BookingRows, WithinDates, ContainsFold, Page, IsBooked;
    var rows: seq<Row> := [];
    for i := 0 to |ps|
      invariant rows == Collected(bank, ps[..i], q)
    {
      var p := ps[i];
      assert ps[..i + 1][..i] == ps[..i];
      if !IsBooked(p.state) {
        continue;
      }
      if !WithinDates(p.createdAt, q.fromCreatedAt, q.toCreatedAt) {
        continue;
      }
      var account := p.fromId;
      if IsIncoming(p.state) {
        account := p.toId;
      }
      if |q.accountIds| > 0 && !ContainsFold(q.accountIds, account) {
        continue;
      }
      var booked := BookingRows(bank, p, Str(bank.iban(account)));
      ghost var before := rows;
      for j := 0 to |booked|
        invariant rows == before + DatedWithin(booked[..j], q.fromTransactionDate, q.toTransactionDate)
      {
        assert booked[..j + 1][..j] == booked[..j];
        if WithinDates(Deref(booked[j].reportDate), q.fromTransactionDate, q.toTransactionDate) {
          rows := rows + [booked[j]];
        }
      }
      assert booked[..|booked|] == booked;
    }
    assert ps[..|ps|] == ps;
    rows := Sort(rows, RowAtMost);
    report := Page(rows, q.pageNumber, q.pageSize);
  }
}
