/** What a reconciliation sweep may rely on. */
module ReportLaws {
  import opened Text
  import opened Payments
  import opened Sorting
  import opened Reports

  // ----------------------------------------------------------- report order

  lemma RowOrderIsTotal()
    ensures TotalPreorder(RowAtMost)
  {
    forall a, b ensures RowAtMost(a, b) || RowAtMost(b, a) {
      RowsComparable(a, b);
    }
    forall a, b, c | RowAtMost(a, b) && RowAtMost(b, c) ensures RowAtMost(a, c) {
      RowAtMostTransitive(a, b, c);
    }
  }

  lemma RowsComparable(a: Row, b: Row)
    ensures RowAtMost(a, b) || RowAtMost(b, a)
    ensures RowAtMost(a, b) && RowAtMost(b, a) ==>
      && Deref(a.processedTimestamp) == Deref(b.processedTimestamp)
      && Deref(a.paymentId) == Deref(b.paymentId)
      && IsReversalRow(a) == IsReversalRow(b)
  {
    hide Less;
    LessTrichotomy(Deref(a.processedTimestamp), Deref(b.processedTimestamp));
    LessTrichotomy(Deref(a.paymentId), Deref(b.paymentId));
  }

  lemma RowAtMostTransitive(a: Row, b: Row, c: Row)
    requires RowAtMost(a, b) && RowAtMost(b, c)
    ensures RowAtMost(a, c)
  {
    hide Less, IsReversalRow;
    var (at, bt, ct) := (Deref(a.processedTimestamp), Deref(b.processedTimestamp), Deref(c.processedTimestamp));
    var (ai, bi, ci) := (Deref(a.paymentId), Deref(b.paymentId), Deref(c.paymentId));
    LessTrichotomy(at, bt);
    LessTrichotomy(bt, ct);
    LessTrichotomy(at, ct);
    LessTransitive(at, bt, ct);
    LessTransitive(ct, at, bt);
    LessTransitive(bt, ct, at);
    LessTrichotomy(ai, bi);
    LessTrichotomy(bi, ci);
    LessTrichotomy(ai, ci);
    LessTransitive(ai, bi, ci);
    LessTransitive(ci, ai, bi);
    LessTransitive(bi, ci, ai);
  }

  // -------------------------------------- the report depends on the set only

  ghost predicate DistinctIds(ps: seq<Payment>) {
    forall i, j :: 0 <= i < j < |ps| ==> ps[i].id != ps[j].id
  }

  ghost predicate PositiveAmounts(ps: seq<Payment>) {
    forall i :: 0 <= i < |ps| ==> Cents(ps[i]) > 0
  }

  lemma {:induction false} DatedWithinMembers(rows: seq<Row>, from: string, to: string, r: Row)
    ensures r in DatedWithin(rows, from, to) <==> r in rows && WithinDates(Deref(r.reportDate), from, to)
  {
    if rows != [] {
      DatedWithinMembers(rows[..|rows| - 1], from, to, r);
      assert rows == rows[..|rows| - 1] + [rows[|rows| - 1]];
    }
  }

  lemma {:induction false} CollectedFrom(bank: Bank, ps: seq<Payment>, q: Query, r: Row) returns (i: nat)
    requires r in Collected(bank, ps, q)
    ensures i < |ps| && r in Lines(bank, ps[i], q)
  {
    hide Lines;
    if r in Lines(bank, ps[|ps| - 1], q) {
      i := |ps| - 1;
    } else {
      i := CollectedFrom(bank, ps[..|ps| - 1], q, r);
    }
  }

  /** A line names its payment, and among one payment's lines the sign names the line. */
  lemma LinesOfPayment(bank: Bank, p: Payment, q: Query, r: Row, t: Row)
    requires Cents(p) > 0 && r in Lines(bank, p, q)
    ensures Deref(r.paymentId) == p.id
    ensures t in Lines(bank, p, q) && IsReversalRow(r) == IsReversalRow(t) ==> r == t
  {
    hide Cents, WithinDates, ContainsFold;
    var rows := BookingRows(bank, p, Str(bank.iban(AccountOf(p))));
    DatedWithinMembers(rows, q.fromTransactionDate, q.toTransactionDate, r);
    DatedWithinMembers(rows, q.fromTransactionDate, q.toTransactionDate, t);
  }

  lemma SameLine(bank: Bank, ps: seq<Payment>, q: Query, a: Row, b: Row)
    requires DistinctIds(ps) && PositiveAmounts(ps)
    requires a in Collected(bank, ps, q) && b in Collected(bank, ps, q)
    requires RowAtMost(a, b) && RowAtMost(b, a)
    ensures a == b
  {
    hide RowAtMost, Collected, Lines, IsReversalRow, Cents;
    RowsComparable(a, b);
    var i := CollectedFrom(bank, ps, q, a);
    var j := CollectedFrom(bank, ps, q, b);
    LinesOfPayment(bank, ps[i], q, a, b);
    LinesOfPayment(bank, ps[j], q, b, a);
    assert ps[i].id == ps[j].id;
    assert i == j;
  }

  lemma LinesDistinguished(bank: Bank, ps: seq<Payment>, q: Query)
    requires DistinctIds(ps) && PositiveAmounts(ps)
    ensures Antisymmetric(Collected(bank, ps, q), RowAtMost)
  {
    hide Collected, Cents;
    var rows := Collected(bank, ps, q);
    forall a, b | a in rows && b in rows && RowAtMost(a, b) && RowAtMost(b, a) ensures a == b {
      SameLine(bank, ps, q, a, b);
    }
  }

  lemma {:induction false} CollectedWithout(bank: Bank, ps: seq<Payment>, q: Query, i: nat)
    requires i < |ps|
    ensures multiset(Collected(bank, ps, q)) ==
            multiset(Collected(bank, ps[..i] + ps[i + 1..], q)) + multiset(Lines(bank, ps[i], q))
  {
    hide Lines;
    var n := |ps| - 1;
    var rest := ps[..i] + ps[i + 1..];
    if i < n {
      CollectedWithout(bank, ps[..n], q, i);
      assert rest[..n - 1] == ps[..n][..i] + ps[..n][i + 1..];
      assert rest[n - 1] == ps[n];
    } else {
      assert rest == ps[..n];
    }
  }

  lemma {:induction false} CollectedPermuted(bank: Bank, ps: seq<Payment>, ts: seq<Payment>, q: Query)
    requires multiset(ps) == multiset(ts)
    ensures multiset(Collected(bank, ps, q)) == multiset(Collected(bank, ts, q))
  {
    hide Lines;
    SameMembers(ps, ts);
    if ps != [] {
      var n := |ps| - 1;
      assert ps[n] in ts;
      var i :| 0 <= i < |ts| && ts[i] == ps[n];
      var rest := ts[..i] + ts[i + 1..];
      assert ts == ts[..i] + [ts[i]] + ts[i + 1..];
      DropLastMultiset(ps);
      assert multiset(rest) == multiset(ts) - multiset{ts[i]};
      CollectedPermuted(bank, ps[..n], rest, q);
      CollectedWithout(bank, ts, q, i);
    }
  }

  /** Whatever order the store hands the payments back in, the report is the same. */
  lemma ReportIgnoresOrder(bank: Bank, ps: seq<Payment>, ts: seq<Payment>, q: Query)
    requires multiset(ps) == multiset(ts) && DistinctIds(ps) && PositiveAmounts(ps)
    ensures Listing(bank, ps, q) == Listing(bank, ts, q)
  {
    RowOrderIsTotal();
    LinesDistinguished(bank, ps, q);
    CollectedPermuted(bank, ps, ts, q);
    SortCanonical(Collected(bank, ps, q), Collected(bank, ts, q), RowAtMost);
  }

  /** In the report, a line never precedes one it should follow, and no line is lost or made up. */
  lemma ReportIsSorted(bank: Bank, ps: seq<Payment>, q: Query)
    ensures Sorted(Listing(bank, ps, q), RowAtMost)
    ensures multiset(Listing(bank, ps, q)) == multiset(Collected(bank, ps, q))
  {
    RowOrderIsTotal();
    SortSorted(Collected(bank, ps, q), RowAtMost);
  }

  // ------------------------------------------------------------------ pages

  /** The rows a caller means: size of them from position at, or as many as there are. */
  function TrueSlice(rows: seq<Row>, at: nat, size: nat): seq<Row> {
    if at >= |rows| then []
    else rows[at..if at + size > |rows| then |rows| else at + size]
  }

  lemma WrapMoves(w: int, size: int)
    requires IsInt64(w) && 1 <= size <= MAX64
    ensures Wrap64(w + size) != w
  {
    var q := (w + size + TWO63) / TWO64;
    assert Wrap64(w + size) == w + size - q * TWO64;
  }

  lemma SliceExact(rows: seq<Row>, at: nat, size: int)
    requires at <= MAX64 && 1 <= size <= MAX64 && 2 * |rows| <= MAX64 && (at == 0 || size <= at)
    ensures Slice(rows, at, size) == Some(TrueSlice(rows, at, size))
  {
    hide Wrap64;
  }

  lemma SliceExactIff(rows: seq<Row>, at: nat, size: int)
    requires 1 <= size <= MAX64 && 2 * |rows| <= MAX64 && (at == 0 || size <= at)
    ensures Slice(rows, at, size) == Some(TrueSlice(rows, at, size))
            <==> at <= MAX64 || Wrap64(at) >= |rows|
  {
    hide Wrap64;
    if at <= MAX64 {
      SliceExact(rows, at, size);
    } else {
      assert TrueSlice(rows, at, size) == [];
      WrapMoves(Wrap64(at), size);
    }
  }

  lemma StartOfPage(number: int, size: int)
    requires 1 <= number && 1 <= size
    ensures (number - 1) * size >= 0
    ensures (number - 1) * size == 0 || size <= (number - 1) * size
    ensures number - 1 <= (number - 1) * size
  {
  }

  /** A page is the one meant if and only if its start fits an int64, or wraps past the end. */
  lemma PageExactIff(rows: seq<Row>, number: int, size: int)
    requires 1 <= number <= MAX64 && 1 <= size <= MAX64 && 2 * |rows| <= MAX64
    ensures (number - 1) * size >= 0
    ensures Page(rows, number, size) == Some(TrueSlice(rows, (number - 1) * size, size))
            <==> (number - 1) * size <= MAX64 || Wrap64((number - 1) * size) >= |rows|
  {
    hide Wrap64, Slice, TrueSlice;
    StartOfPage(number, size);
    SliceExactIff(rows, (number - 1) * size, size);
  }

  /** Page 2^32 + 1 of 2^32 rows: its start is 2^64, which wraps to 0, and the first page is served again. */
  lemma HugePageComesRound(rows: seq<Row>)
    requires 1 <= |rows| <= 0x1_0000_0000
    ensures Page(rows, 0x1_0000_0001, 0x1_0000_0000) == Some(rows)
    ensures TrueSlice(rows, (0x1_0000_0001 - 1) * 0x1_0000_0000, 0x1_0000_0000) == []
  {
    assert 0x1_0000_0000 * 0x1_0000_0000 == TWO64;
    assert Wrap64(TWO64) == 0;
    assert rows[0..|rows|] == rows;
  }

  /** Pages 1 to n of the report, one after another. */
  function Sweep(rows: seq<Row>, size: int, n: nat): seq<Row> {
    if n == 0 then []
    else
      Sweep(rows, size, n - 1) +
      match Page(rows, n, size)
      case Some(p) => p
      case None => []
  }

  lemma {:induction false} SweepIsPrefix(rows: seq<Row>, size: int, n: nat)
    requires 1 <= size <= MAX64 && 2 * |rows| <= MAX64 && (n > 0 ==> (n - 1) * size <= |rows|)
    ensures n * size >= 0
    ensures Sweep(rows, size, n) == rows[..if n * size > |rows| then |rows| else n * size]
  {
    hide Page;
    if n > 0 {
      var at := (n - 1) * size;
      StartOfPage(n, size);
      assert n > 1 ==> (n - 2) * size == at - size;
      SweepIsPrefix(rows, size, n - 1);
      assert n * size == at + size;
      PageInRange(rows, n, size);
    }
  }

  lemma PageInRange(rows: seq<Row>, number: int, size: int)
    requires 1 <= number && 1 <= size <= MAX64 && 2 * |rows| <= MAX64 && (number - 1) * size <= |rows|
    ensures (number - 1) * size >= 0
    ensures Page(rows, number, size) == Some(TrueSlice(rows, (number - 1) * size, size))
  {
    hide Wrap64, Slice, TrueSlice;
    StartOfPage(number, size);
    SliceExact(rows, (number - 1) * size, size);
  }

  lemma EarlierPage(k: int, n: int, size: int)
    requires 1 <= k < n && 1 <= size
    ensures 0 <= (k - 1) * size && (k - 1) * size + size <= (n - 1) * size
  {
    var gap := n - 1 - k;
    assert gap * size >= 0;
    assert (k - 1) * size + size + gap * size == (n - 1) * size;
  }

  lemma FullPage(rows: seq<Row>, k: int, n: int, size: int)
    requires 1 <= k < n && 1 <= size <= MAX64 && 2 * |rows| <= MAX64 && (n - 1) * size <= |rows|
    ensures Page(rows, k, size).Some? && |Page(rows, k, size).value| == size
  {
    hide Page, TrueSlice;
    EarlierPage(k, n, size);
    PageInRange(rows, k, size);
    TrueSliceFull(rows, (k - 1) * size, size);
  }

  lemma TrueSliceFull(rows: seq<Row>, at: nat, size: nat)
    ensures size > 0 && at + size <= |rows| ==> |TrueSlice(rows, at, size)| == size
    ensures at <= |rows| < at + size ==> |TrueSlice(rows, at, size)| < size
  {
  }

  lemma LastPage(rows: seq<Row>, size: int) returns (n: int)
    requires 1 <= size
    ensures n == |rows| / size + 1 && n >= 1
    ensures (n - 1) * size <= |rows| < (n - 1) * size + size
    ensures n * size == (n - 1) * size + size
  {
    n := |rows| / size + 1;
  }

  /** Walking pages until the first one that is not full gives the whole report, each row once. */
  lemma SweepIsReport(rows: seq<Row>, size: int)
    requires 1 <= size <= MAX64 && 2 * |rows| <= MAX64
    ensures var n := |rows| / size + 1;
            && Sweep(rows, size, n) == rows
            && Page(rows, n, size).Some? && |Page(rows, n, size).value| < size
            && forall k :: 1 <= k < n ==> Page(rows, k, size).Some? && |Page(rows, k, size).value| == size
  {
    hide Page, TrueSlice, Sweep;
    var n := LastPage(rows, size);
    SweepIsPrefix(rows, size, n);
    assert rows[..|rows|] == rows;
    PageInRange(rows, n, size);
    TrueSliceFull(rows, (n - 1) * size, size);
    forall k | 1 <= k < n ensures Page(rows, k, size).Some? && |Page(rows, k, size).value| == size {
      FullPage(rows, k, n, size);
    }
  }

  // ------------------------------------------------------------ date ranges

  /** The lines of rows without a date. */
  function Undated(rows: seq<Row>): seq<Row> {
    if rows == [] then []
    else
      var r := rows[|rows| - 1];
      Undated(rows[..|rows| - 1]) + if DatePart(Deref(r.reportDate)) == "" then [r] else []
  }

  /** No line is dated after the day mid and before the day next. */
  ghost predicate NoneBetween(rows: seq<Row>, mid: string, next: string) {
    forall i :: 0 <= i < |rows| ==>
      var d := DatePart(Deref(rows[i].reportDate));
      !(Less(DatePart(mid), d) && Less(d, DatePart(next)))
  }

  /** mid is the last day of one range and next the first of the other, inside from..to. */
  predicate Adjoining(from: string, mid: string, next: string, to: string) {
    && mid != "" && next != "" && Less(DatePart(mid), DatePart(next))
    && (from == "" || AtMost(DatePart(from), DatePart(next)))
    && (to == "" || AtMost(DatePart(mid), DatePart(to)))
  }

  /** A dated text is in exactly one of two adjoining ranges if it is in their union, and in none otherwise. */
  lemma OneOfTwoPeriods(ts: string, from: string, mid: string, next: string, to: string)
    requires Adjoining(from, mid, next, to)
    requires !(Less(DatePart(mid), DatePart(ts)) && Less(DatePart(ts), DatePart(next)))
    ensures DatePart(ts) != "" ==>
      && (WithinDates(ts, from, to) <==> WithinDates(ts, from, mid) || WithinDates(ts, next, to))
      && !(WithinDates(ts, from, mid) && WithinDates(ts, next, to))
    ensures DatePart(ts) == "" ==>
      && !WithinDates(ts, from, mid) && !WithinDates(ts, next, to)
      && (WithinDates(ts, from, to) <==> from == "" && to == "")
  {
    hide Less;
    var d := DatePart(ts);
    var (m, n, f, t) := (DatePart(mid), DatePart(next), DatePart(from), DatePart(to));
    LessTrichotomy(d, m);
    LessTrichotomy(d, n);
    LessTrichotomy(m, n);
    LessTrichotomy(d, f);
    LessTrichotomy(d, t);
    LessTransitive(m, n, d);
    if from != "" && !Less(d, n) {
      AtMostTransitive(f, n, d);
    }
    if to != "" && !Less(m, d) {
      AtMostTransitive(d, m, t);
    }
    LessTransitive(d, m, n);
  }

  /** One line of a filter, as a multiset of none or one. */
  function Kept(r: Row, from: string, to: string): multiset<Row> {
    if WithinDates(Deref(r.reportDate), from, to) then multiset{r} else multiset{}
  }

  function KeptUndated(r: Row): multiset<Row> {
    if DatePart(Deref(r.reportDate)) == "" then multiset{r} else multiset{}
  }

  lemma DatedLast(rows: seq<Row>, from: string, to: string)
    requires rows != []
    ensures var n := |rows| - 1;
      && multiset(DatedWithin(rows, from, to)) == multiset(DatedWithin(rows[..n], from, to)) + Kept(rows[n], from, to)
      && multiset(Undated(rows)) == multiset(Undated(rows[..n])) + KeptUndated(rows[n])
  {
    hide WithinDates, DatePart;
  }

  lemma KeptOnce(r: Row, from: string, mid: string, next: string, to: string)
    requires Adjoining(from, mid, next, to)
    requires var d := DatePart(Deref(r.reportDate)); !(Less(DatePart(mid), d) && Less(d, DatePart(next)))
    ensures Kept(r, from, to) == Kept(r, from, mid) + Kept(r, next, to)
            + if from == "" && to == "" then KeptUndated(r) else multiset{}
  {
    hide WithinDates, DatePart, Less;
    OneOfTwoPeriods(Deref(r.reportDate), from, mid, next, to);
  }

  lemma {:induction false} RangesPartition(rows: seq<Row>, from: string, mid: string, next: string, to: string)
    requires Adjoining(from, mid, next, to) && NoneBetween(rows, mid, next)
    ensures multiset(DatedWithin(rows, from, to)) ==
            multiset(DatedWithin(rows, from, mid)) + multiset(DatedWithin(rows, next, to))
            + if from == "" && to == "" then multiset(Undated(rows)) else multiset{}
  {
    hide WithinDates, DatePart, Less, DatedWithin, Undated, Kept, KeptUndated, Adjoining;
    if rows != [] {
      var n := |rows| - 1;
      assert NoneBetween(rows[..n], mid, next);
      RangesPartition(rows[..n], from, mid, next, to);
      KeptOnce(rows[n], from, mid, next, to);
      DatedLast(rows, from, to);
      DatedLast(rows, from, mid);
      DatedLast(rows, next, to);
    } else {
      NothingDated(from, to);
      NothingDated(from, mid);
      NothingDated(next, to);
    }
  }

  lemma NothingDated(from: string, to: string)
    ensures DatedWithin([], from, to) == [] && Undated([]) == []
  {
  }

  /** Every line of every payment the query wants, whatever its date. */
  function Candidates(bank: Bank, ps: seq<Payment>, q: Query): seq<Row> {
    if ps == [] then []
    else
      var p := ps[|ps| - 1];
      Candidates(bank, ps[..|ps| - 1], q) +
      if Wanted(p, q) then BookingRows(bank, p, Str(bank.iban(AccountOf(p)))) else []
  }

  lemma {:induction false} DatedWithinAppend(a: seq<Row>, b: seq<Row>, from: string, to: string)
    ensures DatedWithin(a + b, from, to) == DatedWithin(a, from, to) + DatedWithin(b, from, to)
  {
    hide WithinDates;
    if b == [] {
      assert a + b == a;
    } else {
      assert (a + b)[..|a + b| - 1] == a + b[..|b| - 1];
      DatedWithinAppend(a, b[..|b| - 1], from, to);
    }
  }

  lemma {:induction false} CollectedIsFiltered(bank: Bank, ps: seq<Payment>, q: Query)
    ensures Collected(bank, ps, q) ==
            DatedWithin(Candidates(bank, ps, q), q.fromTransactionDate, q.toTransactionDate)
  {
    hide BookingRows, Wanted, WithinDates;
    if ps != [] {
      var p := ps[|ps| - 1];
      CollectedIsFiltered(bank, ps[..|ps| - 1], q);
      DatedWithinAppend(Candidates(bank, ps[..|ps| - 1], q),
                        if Wanted(p, q) then BookingRows(bank, p, Str(bank.iban(AccountOf(p)))) else [],
                        q.fromTransactionDate, q.toTransactionDate);
    }
  }

  lemma {:induction false} CandidatesIgnoreDates(bank: Bank, ps: seq<Payment>, q: Query, t: Query)
    requires q.fromCreatedAt == t.fromCreatedAt && q.toCreatedAt == t.toCreatedAt && q.accountIds == t.accountIds
    ensures Candidates(bank, ps, q) == Candidates(bank, ps, t)
  {
    hide BookingRows, WithinDates, ContainsFold;
    if ps != [] {
      CandidatesIgnoreDates(bank, ps[..|ps| - 1], q, t);
    }
  }

  /** Two sweeps over adjoining date ranges give exactly the lines of the whole range, each once
      (an undated line shows only when no range is asked for at all). */
  lemma AdjoiningSweeps(bank: Bank, ps: seq<Payment>, q: Query, mid: string, next: string)
    requires Adjoining(q.fromTransactionDate, mid, next, q.toTransactionDate)
    requires NoneBetween(Candidates(bank, ps, q), mid, next)
    ensures multiset(Listing(bank, ps, q)) ==
            multiset(Listing(bank, ps, q.(toTransactionDate := mid)))
            + multiset(Listing(bank, ps, q.(fromTransactionDate := next)))
            + if q.fromTransactionDate == "" && q.toTransactionDate == ""
              then multiset(Undated(Candidates(bank, ps, q))) else multiset{}
  {
    hide Candidates, Collected, DatedWithin, Undated;
    var q1, q2 := q.(toTransactionDate := mid), q.(fromTransactionDate := next);
    CollectedIsFiltered(bank, ps, q);
    CollectedIsFiltered(bank, ps, q1);
    CollectedIsFiltered(bank, ps, q2);
    CandidatesIgnoreDates(bank, ps, q, q1);
    CandidatesIgnoreDates(bank, ps, q, q2);
    RangesPartition(Candidates(bank, ps, q), q.fromTransactionDate, mid, next, q.toTransactionDate);
  }
}
