/** What the two reports list, told from the payments and the query. */
module ReportMeaning {
  import opened Text
  import opened Payments
  import opened Sorting
  import opened Reports
  import opened ReportLaws
  import opened Rejections
  import Money

  // ----------------------------------------------------------- spelled out

  /** The date a timestamp starts with. */
  function Date(ts: string): string {
    if |ts| < 10 then ts else ts[..10]
  }

  /** At or after a given first day and at or before a given last day; an undated text only when neither is given. */
  predicate InPeriod(ts: string, first: string, last: string) {
    && (first != "" ==> ts != "" && !Less(Date(ts), Date(first)))
    && (last != "" ==> ts != "" && !Less(Date(last), Date(ts)))
  }

  lemma InPeriodIff(ts: string, first: string, last: string)
    ensures WithinDates(ts, first, last) <==> InPeriod(ts, first, last)
  {
    hide Less;
  }

  /** An optional text shows s: null exactly when s is empty. */
  predicate Shows(o: Option<string>, s: string) {
    (o.None? && s == "") || (o.Some? && o.value == s && s != "")
  }

  /** The account a payment is reported on: the creditor's when money comes in, the debtor's otherwise. */
  function ReportedOn(p: Payment): string {
    match p.state
    case InBooked => p.toId
    case InProcessed => p.toId
    case _ => p.fromId
  }

  /** What the query asks of a payment. */
  ghost predicate Asked(p: Payment, q: Query) {
    && p.state != OutRejected && p.state != MissingFunding
    && InPeriod(p.createdAt, q.fromCreatedAt, q.toCreatedAt)
    && (q.accountIds == [] || exists a :: a in q.accountIds && EqualFold(TrimSpace(a), ReportedOn(p)))
  }

  /** What every line of a payment says. */
  predicate NamesPayment(bank: Bank, p: Payment, r: Row) {
    && Shows(r.paymentId, p.id) && Shows(r.account, bank.iban(ReportedOn(p))) && Shows(r.currency, p.currency)
    && Shows(r.latestStatusChanged, p.updatedAt) && Shows(r.paymentReferenceNumber, p.referenceNumber)
    && Shows(r.userReferenceNumber, if p.reference == "" then p.settlementId else p.reference)
    && r.transactionAmount == Cents(p) && r.isReturn == p.isReturn
    && |r.paymentDetails| <= 4 && r.paymentDetails <= p.remittance
    && (|r.paymentDetails| < 4 ==> r.paymentDetails == p.remittance)
    && (!p.isReturn ==> r.additionalInformation == [])
    && (p.isReturn ==>
          && |r.additionalInformation| == 3 && r.additionalInformation[0] == Some("/RETN/")
          && Shows(r.additionalInformation[1], if p.returnReasonCode == "" then ""
                                               else "/" + p.returnReasonCode + "/" + p.returnReasonDescription)
          && Shows(r.additionalInformation[2],
                   if p.returnedReference == "" then "" else "/MREF/" + p.returnedReference))
  }

  /** On the payment's side, the given amount; on the other, nothing. */
  predicate OnItsSide(p: Payment, amount: int, r: Row) {
    if p.state == InBooked || p.state == InProcessed then r.credit == Some(amount) && r.debit == None
    else r.debit == Some(amount) && r.credit == None
  }

  /** Midnight of the bank's business day of a timestamp. */
  predicate DatedAt(bank: Bank, r: Row, at: string) {
    Shows(r.reportDate,
          if bank.businessDate(at) == "" then "" else Date(bank.businessDate(at)) + "T00:00:00+00:00")
  }

  /** The booking: when a payment not reversed last changed, else when it was processed. */
  predicate IsBooking(bank: Bank, p: Payment, r: Row) {
    var at := if p.state != Reversed then p.updatedAt else if p.processedAt == "" then p.createdAt else p.processedAt;
    && NamesPayment(bank, p, r) && OnItsSide(p, Cents(p), r) && DatedAt(bank, r, at) && r.statusReason == None
    && Shows(r.processedTimestamp, if p.state == OutBooked || p.state == InBooked then ""
                                   else if p.processedAt == "" then at else p.processedAt)
  }

  /** The reversal of a reversed payment: the amount negated, when it was reversed, and why. */
  predicate IsReversal(bank: Bank, p: Payment, r: Row) {
    var at := if p.reversedAt == "" then p.updatedAt else p.reversedAt;
    && p.state == Reversed
    && NamesPayment(bank, p, r) && OnItsSide(p, -Cents(p), r) && DatedAt(bank, r, at)
    && Shows(r.processedTimestamp, at) && Shows(r.statusReason, p.reversalReason)
  }

  /** r is a booking or reversal of a payment the query asks for, dated in its transaction range. */
  ghost predicate ListedFor(bank: Bank, p: Payment, q: Query, r: Row) {
    && Asked(p, q) && (IsBooking(bank, p, r) || IsReversal(bank, p, r))
    && InPeriod(Deref(r.reportDate), q.fromTransactionDate, q.toTransactionDate)
  }

  // ------------------------------------------------------------ the listing

  lemma AskedIff(p: Payment, q: Query)
    ensures Wanted(p, q) <==> Asked(p, q)
  {
    hide WithinDates, InPeriod, EqualFold, TrimSpace;
    InPeriodIff(p.createdAt, q.fromCreatedAt, q.toCreatedAt);
    if Wanted(p, q) && q.accountIds != [] {
      var i :| 0 <= i < |q.accountIds| && EqualFold(TrimSpace(q.accountIds[i]), AccountOf(p));
      assert q.accountIds[i] in q.accountIds;
    }
  }

  /** The spelled-out fields leave room for one line alone. */
  lemma SameNames(bank: Bank, p: Payment, r: Row, t: Row)
    requires NamesPayment(bank, p, r) && NamesPayment(bank, p, t)
    ensures r.paymentId == t.paymentId && r.account == t.account && r.currency == t.currency
    ensures r.latestStatusChanged == t.latestStatusChanged && r.paymentReferenceNumber == t.paymentReferenceNumber
    ensures r.userReferenceNumber == t.userReferenceNumber && r.transactionAmount == t.transactionAmount
    ensures r.isReturn == t.isReturn && r.paymentDetails == t.paymentDetails
    ensures r.additionalInformation == t.additionalInformation
  {
    hide Cents;
    if |r.paymentDetails| == 4 {
      assert |t.paymentDetails| == 4;
    }
  }

  lemma RowNames(bank: Bank, p: Payment, at: string)
    requires p.state != OutRejected && p.state != MissingFunding
    ensures NamesPayment(bank, p, ReconciliationRow(bank, p, Str(bank.iban(ReportedOn(p))), at))
  {
    hide Cents;
  }

  lemma BookingIff(bank: Bank, p: Payment, r: Row)
    requires p.state != OutRejected && p.state != MissingFunding
    ensures IsBooking(bank, p, r) <==> r == BookingRows(bank, p, Str(bank.iban(ReportedOn(p))))[0]
  {
    hide Cents, NamesPayment;
    var t := BookingRows(bank, p, Str(bank.iban(ReportedOn(p))))[0];
    RowNames(bank, p, if p.state == Reversed then FirstNonEmpty(p.processedAt, p.createdAt) else p.updatedAt);
    assert IsBooking(bank, p, t);
    if IsBooking(bank, p, r) {
      SameNames(bank, p, r, t);
    }
  }

  lemma ReversalIff(bank: Bank, p: Payment, r: Row)
    requires p.state != OutRejected && p.state != MissingFunding
    ensures var rows := BookingRows(bank, p, Str(bank.iban(ReportedOn(p))));
      IsReversal(bank, p, r) <==> |rows| == 2 && r == rows[1]
  {
    hide Cents;
  }

  lemma LinesIff(bank: Bank, p: Payment, q: Query, r: Row)
    ensures r in Lines(bank, p, q) <==> ListedFor(bank, p, q, r)
  {
    hide Asked, Wanted, InPeriod, WithinDates, IsBooking, IsReversal, ReconciliationRow, ReversalRow;
    AskedIff(p, q);
    InPeriodIff(Deref(r.reportDate), q.fromTransactionDate, q.toTransactionDate);
    if Asked(p, q) {
      AskedState(p, q);
      BookingIff(bank, p, r);
      ReversalIff(bank, p, r);
      DatedWithinMembers(BookingRows(bank, p, Str(bank.iban(ReportedOn(p)))), q.fromTransactionDate,
                         q.toTransactionDate, r);
    }
  }

  lemma AskedState(p: Payment, q: Query)
    requires Asked(p, q)
    ensures p.state != OutRejected && p.state != MissingFunding
  {
  }

  lemma {:induction false} CollectedIff(bank: Bank, ps: seq<Payment>, q: Query, r: Row)
    ensures r in Collected(bank, ps, q) <==> exists p :: p in ps && r in Lines(bank, p, q)
  {
    hide Lines;
    if ps != [] {
      var n := |ps| - 1;
      CollectedIff(bank, ps[..n], q, r);
      assert ps == ps[..n] + [ps[n]];
      assert r in Lines(bank, ps[n], q) ==> ps[n] in ps;
      if p :| p in ps[..n] && r in Lines(bank, p, q) {
        assert p in ps;
      }
    }
  }

  /** A line is listed if and only if it is a booking or reversal of a payment the query asks for, dated in the
      query's transaction range. */
  lemma ListingIff(bank: Bank, ps: seq<Payment>, q: Query, r: Row)
    ensures r in Listing(bank, ps, q) <==> exists p :: p in ps && ListedFor(bank, p, q, r)
  {
    hide Lines, ListedFor;
    SameMembers(Listing(bank, ps, q), Collected(bank, ps, q));
    CollectedIff(bank, ps, q, r);
    if p :| p in ps && r in Lines(bank, p, q) {
      LinesIff(bank, p, q, r);
    }
    if p :| p in ps && ListedFor(bank, p, q, r) {
      LinesIff(bank, p, q, r);
    }
  }

  /** By time of processing, then by payment, then a booking before the reversal of the same payment. */
  lemma ListingOrder(bank: Bank, ps: seq<Payment>, q: Query, i: nat, j: nat)
    requires i < j < |Listing(bank, ps, q)|
    ensures var a, b := Listing(bank, ps, q)[i], Listing(bank, ps, q)[j];
      var sameTime := Deref(a.processedTimestamp) == Deref(b.processedTimestamp);
      var same := sameTime && Deref(a.paymentId) == Deref(b.paymentId);
      && !Less(Deref(b.processedTimestamp), Deref(a.processedTimestamp))
      && (sameTime ==> !Less(Deref(b.paymentId), Deref(a.paymentId)))
      && (same && b.debit.Some? && b.debit.value >= 0 && b.credit.None? ==>
            !(a.debit.Some? && a.debit.value < 0) && !(a.credit.Some? && a.credit.value < 0))
      && (same && b.credit.Some? && b.credit.value >= 0 && b.debit.None? ==>
            !(a.debit.Some? && a.debit.value < 0) && !(a.credit.Some? && a.credit.value < 0))
  {
    hide Less, Listing;
    ReportIsSorted(bank, ps, q);
    var a, b := Listing(bank, ps, q)[i], Listing(bank, ps, q)[j];
    assert RowAtMost(a, b);
    LessTrichotomy(Deref(a.processedTimestamp), Deref(b.processedTimestamp));
    LessTrichotomy(Deref(a.paymentId), Deref(b.paymentId));
  }

  /** No page size gives the whole listing; no page number gives the first page. */
  lemma PageDefaults(rows: seq<Row>, number: int, size: int)
    ensures size <= 0 ==> Page(rows, number, size) == Some(rows)
    ensures 1 <= size <= MAX64 && 2 * |rows| <= MAX64 && number <= 1 ==>
      Page(rows, number, size) == Some(rows[..if size < |rows| then size else |rows|])
  {
    hide Wrap64, Slice;
    if 1 <= size <= MAX64 && 2 * |rows| <= MAX64 && number <= 1 {
      SliceExact(rows, 0, size);
    }
  }

  // ---------------------------------------------- sweeps by date of creation

  /** The payments without a creation date. */
  function NoCreation(ps: seq<Payment>): seq<Payment> {
    if ps == [] then []
    else NoCreation(ps[..|ps| - 1]) + if ps[|ps| - 1].createdAt == "" then [ps[|ps| - 1]] else []
  }

  lemma OneOfTwoCreations(bank: Bank, p: Payment, q: Query, mid: string, next: string)
    requires Adjoining(q.fromCreatedAt, mid, next, q.toCreatedAt)
    requires !(Less(DatePart(mid), DatePart(p.createdAt)) && Less(DatePart(p.createdAt), DatePart(next)))
    ensures multiset(Lines(bank, p, q)) ==
            multiset(Lines(bank, p, q.(toCreatedAt := mid))) + multiset(Lines(bank, p, q.(fromCreatedAt := next)))
            + if q.fromCreatedAt == "" && q.toCreatedAt == "" && p.createdAt == "" then multiset(Lines(bank, p, q))
              else multiset{}
  {
    hide DatedWithin, BookingRows, WithinDates, Less, ContainsFold, Adjoining;
    OneOfTwoPeriods(p.createdAt, q.fromCreatedAt, mid, next, q.toCreatedAt);
  }

  /** Two sweeps over adjoining ranges of creation dates give exactly the lines of the whole range, each once (a payment
      without a creation date shows only when no range is asked for at all). */
  lemma {:induction false} AdjoiningCreations(bank: Bank, ps: seq<Payment>, q: Query, mid: string, next: string)
    requires Adjoining(q.fromCreatedAt, mid, next, q.toCreatedAt)
    requires forall i :: 0 <= i < |ps| ==>
      !(Less(DatePart(mid), DatePart(ps[i].createdAt)) && Less(DatePart(ps[i].createdAt), DatePart(next)))
    ensures multiset(Listing(bank, ps, q)) ==
            multiset(Listing(bank, ps, q.(toCreatedAt := mid)))
            + multiset(Listing(bank, ps, q.(fromCreatedAt := next)))
            + if q.fromCreatedAt == "" && q.toCreatedAt == "" then multiset(Collected(bank, NoCreation(ps), q))
              else multiset{}
  {
    hide Lines, Less, Adjoining, DatePart, Listing;
    if ps != [] {
      var n := |ps| - 1;
      AdjoiningCreations(bank, ps[..n], q, mid, next);
      OneOfTwoCreations(bank, ps[n], q, mid, next);
      ListingLast(bank, ps, q);
      ListingLast(bank, ps, q.(toCreatedAt := mid));
      ListingLast(bank, ps, q.(fromCreatedAt := next));
      CollectedLast(bank, NoCreation(ps[..n]), ps[n], q);
    } else {
      NothingListed(bank, q);
      NothingListed(bank, q.(toCreatedAt := mid));
      NothingListed(bank, q.(fromCreatedAt := next));
    }
  }

  lemma NothingListed(bank: Bank, q: Query)
    ensures Listing(bank, [], q) == [] && Collected(bank, [], q) == []
  {
  }

  lemma ListingLast(bank: Bank, ps: seq<Payment>, q: Query)
    requires ps != []
    ensures multiset(Listing(bank, ps, q)) ==
            multiset(Listing(bank, ps[..|ps| - 1], q)) + multiset(Lines(bank, ps[|ps| - 1], q))
  {
    hide Lines, Sort;
  }

  lemma CollectedLast(bank: Bank, ps: seq<Payment>, p: Payment, q: Query)
    ensures Collected(bank, ps + [p], q) == Collected(bank, ps, q) + Lines(bank, p, q)
    ensures Collected(bank, ps + [], q) == Collected(bank, ps, q)
  {
    hide Lines;
    assert (ps + [p])[..|ps|] == ps && ps + [] == ps;
  }

  // --------------------------------------------------------- the rejections

  /** What the rejection report asks of a payment, flag by flag. */
  predicate Refused(bank: Bank, p: Payment, q: RejectionQuery) {
    && bank.businessDate(p.createdAt) == q.transactionDate
    && match p.state
       case OutRejected => true
       case MissingFunding => q.includeMissingFunds
       case OutBooked => q.includeReceived && !q.excludeBooked
       case _ => false
  }

  /** A text of a date, shown as midnight. */
  predicate ShowsDate(o: Option<string>, date: string) {
    Shows(o, if date == "" then "" else Date(date) + "T00:00:00+00:00")
  }

  predicate IsRefusal(bank: Bank, p: Payment, q: RejectionQuery, r: RejectionRow) {
    && ShowsDate(r.reportDate, q.reportDate) && ShowsDate(r.valueDate, bank.businessDate(p.createdAt))
    && Shows(r.account, bank.iban(p.fromId)) && Shows(r.currency, p.currency) && r.amount == Cents(p)
    && Shows(r.reference, p.referenceNumber)
    && Shows(r.userReference, if p.reference == "" then p.settlementId else p.reference)
    && (p.state == OutRejected ==> r.status == "Rejected")
    && (p.state == MissingFunding ==> r.status == "Insufficient Funds")
    && (p.state == OutBooked ==> r.status == "Received")
  }

  /** Whether a payment is listed, and its line. */
  lemma RefusalMeaning(bank: Bank, p: Payment, q: RejectionQuery, r: RejectionRow)
    ensures !Refused(bank, p, q) ==> RejectionLines(bank, p, q) == []
    ensures Refused(bank, p, q) ==> (RejectionLines(bank, p, q) == [r] <==> IsRefusal(bank, p, q, r))
    ensures Refused(bank, p, q) ==> |RejectionLines(bank, p, q)| == 1
  {
    hide Cents;
  }

  lemma {:induction false} RefusalsIff(bank: Bank, ps: seq<Payment>, q: RejectionQuery, r: RejectionRow)
    ensures r in AllRejections(bank, ps, q)
      <==> exists p :: p in ps && Refused(bank, p, q) && IsRefusal(bank, p, q, r)
  {
    hide Refused, IsRefusal, RejectionLines;
    if ps != [] {
      var n := |ps| - 1;
      RefusalsIff(bank, ps[..n], q, r);
      RefusalMeaning(bank, ps[n], q, r);
      assert ps == ps[..n] + [ps[n]];
      var lines := RejectionLines(bank, ps[n], q);
      assert |lines| == 1 ==> lines == [lines[0]];
      if p :| p in ps[..n] && Refused(bank, p, q) && IsRefusal(bank, p, q, r) {
        assert p in ps;
      }
      if Refused(bank, ps[n], q) && IsRefusal(bank, ps[n], q, r) {
        assert ps[n] in ps;
      }
    }
  }

  lemma RefusalOrderIsTotal()
    ensures TotalPreorder(RejectionAtMost)
  {
    hide Less;
    forall a, b ensures RejectionAtMost(a, b) || RejectionAtMost(b, a) {
      LessTrichotomy(Deref(a.valueDate), Deref(b.valueDate));
      LessTrichotomy(Deref(a.reference), Deref(b.reference));
    }
    forall a, b, c | RejectionAtMost(a, b) && RejectionAtMost(b, c) ensures RejectionAtMost(a, c) {
      RefusalOrderTransitive(a, b, c);
    }
  }

  lemma RefusalOrderTransitive(a: RejectionRow, b: RejectionRow, c: RejectionRow)
    requires RejectionAtMost(a, b) && RejectionAtMost(b, c)
    ensures RejectionAtMost(a, c)
  {
    hide Less;
    var (ad, bd, cd) := (Deref(a.valueDate), Deref(b.valueDate), Deref(c.valueDate));
    var (ar, br, cr) := (Deref(a.reference), Deref(b.reference), Deref(c.reference));
    LessTrichotomy(ad, bd);
    LessTrichotomy(bd, cd);
    LessTrichotomy(ad, cd);
    LessTransitive(cd, ad, bd);
    LessTransitive(bd, cd, ad);
    LessTrichotomy(ar, br);
    LessTrichotomy(br, cr);
    LessTrichotomy(ar, cr);
    LessTransitive(cr, ar, br);
    LessTransitive(br, cr, ar);
  }

  /** The rejection report, whole: which lines, and in which order. */
  lemma RefusalReportMeaning(bank: Bank, ps: seq<Payment>, q: RejectionQuery, r: RejectionRow)
    ensures var rows := Sort(AllRejections(bank, ps, q), RejectionAtMost);
      && (r in rows <==> exists p :: p in ps && Refused(bank, p, q) && IsRefusal(bank, p, q, r))
      && forall i, j :: 0 <= i < j < |rows| ==>
           && !Less(Deref(rows[j].valueDate), Deref(rows[i].valueDate))
           && (Deref(rows[j].valueDate) == Deref(rows[i].valueDate) ==>
                 !Less(Deref(rows[j].reference), Deref(rows[i].reference)))
  {
    hide Refused, IsRefusal, Less, Sort;
    RefusalsIff(bank, ps, q, r);
    var all := AllRejections(bank, ps, q);
    SameMembers(Sort(all, RejectionAtMost), all);
    RefusalOrderIsTotal();
    SortSorted(all, RejectionAtMost);
    var rows := Sort(all, RejectionAtMost);
    forall i, j | 0 <= i < j < |rows|
      ensures !Less(Deref(rows[j].valueDate), Deref(rows[i].valueDate))
      ensures Deref(rows[j].valueDate) == Deref(rows[i].valueDate) ==>
        !Less(Deref(rows[j].reference), Deref(rows[i].reference))
    {
      assert RejectionAtMost(rows[i], rows[j]);
      LessTrichotomy(Deref(rows[j].valueDate), Deref(rows[i].valueDate));
    }
  }
}
