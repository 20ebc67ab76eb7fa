/** cmd/worldline/cycle.go: one settlement slot, its lump sums, and the money that arrives. */
module Cycle {
  import opened Text
  import opened Ledger
  import Money

  const MORNING: string := "ER"

  datatype CutFile = CutFile(filename: string, currency: string, amountCents: int)

  datatype LumpStatus = NotConfigured | Wired | Failed

  datatype LumpSum = LumpSum(currency: string, amountCents: int, accountId: string, status: LumpStatus)

  datatype CycleRun = CycleRun(
    slot: string, fromDate: string, toDate: string,
    files: seq<CutFile>, published: seq<string>, lumpSums: seq<LumpSum>, errors: nat)

  /** A credit asked of the bank. */
  datatype Request = Request(currency: string, amount: string)

  ghost predicate AmountsFit(files: seq<CutFile>) {
    forall i :: 0 <= i < |files| ==> IsInt64(files[i].amountCents)
  }

  /** The names of the files that were published, in order. */
  function Published(names: seq<Option<string>>): (r: seq<string>)
    ensures |r| <= |names|
  {
    if names == [] then []
    else Published(names[..|names| - 1]) + if names[|names| - 1].Some? then [names[|names| - 1].value] else []
  }

  /** A name more goes to the end; a file that was not published adds none. */
  lemma PublishedGrows(names: seq<Option<string>>, name: string)
    ensures Published(names + [Some(name)]) == Published(names) + [name]
    ensures Published(names + [None]) == Published(names)
  {
    assert (names + [Some(name)])[..|names|] == names && (names + [None])[..|names|] == names;
  }

  /** What file i adds to a currency: nothing when it was not published. names holds the published names. */
  function Share(files: seq<CutFile>, names: seq<Option<string>>, i: nat, ccy: string): int
    requires i < |files| && |names| == |files|
  {
    if names[i].Some? && files[i].currency == ccy then files[i].amountCents else 0
  }

  /** totals[ccy] after the first n files, int64 arithmetic included. */
  function TotalOf(files: seq<CutFile>, names: seq<Option<string>>, ccy: string, n: nat): (t: int)
    requires n <= |files| && |names| == |files|
    ensures IsInt64(t)
  {
    if n == 0 then 0 else Wrap64(TotalOf(files, names, ccy, n - 1) + Share(files, names, n - 1, ccy))
  }

  /** The settlement total the files state. */
  function Stated(files: seq<CutFile>, names: seq<Option<string>>, ccy: string, n: nat): int
    requires n <= |files| && |names| == |files|
  {
    if n == 0 then 0 else Stated(files, names, ccy, n - 1) + Share(files, names, n - 1, ccy)
  }

  function Total(files: seq<CutFile>, names: seq<Option<string>>, ccy: string): int
    requires |names| == |files|
  {
    TotalOf(files, names, ccy, |files|)
  }

  /** The total summed is the stated one, modulo 2^64. */
  lemma {:induction false} TotalIsStated(files: seq<CutFile>, names: seq<Option<string>>, ccy: string, n: nat)
    requires n <= |files| && |names| == |files|
    ensures TotalOf(files, names, ccy, n) == Wrap64(Stated(files, names, ccy, n))
  {
    hide Wrap64;
    if n > 0 {
      TotalIsStated(files, names, ccy, n - 1);
      WrapAdd(Stated(files, names, ccy, n - 1), Share(files, names, n - 1, ccy));
    }
  }

  /** A file more: it counts towards its own currency, and only when it was published. */
  lemma {:induction false} StatedGrows(files: seq<CutFile>, names: seq<Option<string>>, ccy: string, n: nat, f: CutFile,
                                       name: Option<string>)
    requires n <= |files| && |names| == |files|
    ensures Stated(files + [f], names + [name], ccy, n) == Stated(files, names, ccy, n)
    ensures n == |files| ==>
      Stated(files + [f], names + [name], ccy, n + 1) ==
      Stated(files, names, ccy, n) + if name == None || f.currency != ccy then 0 else f.amountCents
  {
    if n > 0 {
      StatedGrows(files, names, ccy, n - 1, f, name);
    }
  }

  /** The requests that reach the bank: those of configured currencies. */
  function Requests(sums: seq<LumpSum>): seq<Request>
    requires forall i :: 0 <= i < |sums| ==> IsInt64(sums[i].amountCents)
  {
    if sums == [] then []
    else
      var s := sums[|sums| - 1];
      Requests(sums[..|sums| - 1]) +
      if s.status == NotConfigured then [] else [Request(s.currency, Money.FormatMinor(s.amountCents))]
  }

  /** Every lump sum asks the bank for its own amount, accepted or not, unless there is nowhere to ask. */
  lemma RequestsGrow(sums: seq<LumpSum>, s: LumpSum)
    requires forall i :: 0 <= i < |sums| ==> IsInt64(sums[i].amountCents)
    requires IsInt64(s.amountCents)
    ensures Requests(sums + [s]) == Requests(sums) +
            (if s.status in {Wired, Failed} then [Request(s.currency, Money.FormatMinor(s.amountCents))] else [])
  {
    hide Money.FormatMinor;
    assert (sums + [s])[..|sums|] == sums;
  }

  const HISTORY: nat := 100

  function Last(runs: seq<CycleRun>): seq<CycleRun> {
    if |runs| > HISTORY then runs[|runs| - HISTORY..] else runs
  }

  ghost predicate Pays(sums: seq<LumpSum>, ccy: string) {
    exists i :: 0 <= i < |sums| && sums[i].currency == ccy
  }

  lemma PaysMore(sums: seq<LumpSum>, s: LumpSum)
    ensures forall ccy :: Pays(sums + [s], ccy) <==> Pays(sums, ccy) || ccy == s.currency
  {
    forall ccy | Pays(sums, ccy) || ccy == s.currency ensures Pays(sums + [s], ccy) {
      assert (sums + [s])[|sums|].currency == s.currency;
      if Pays(sums, ccy) {
        var i :| 0 <= i < |sums| && sums[i].currency == ccy;
        assert (sums + [s])[i].currency == ccy;
      }
    }
  }

  /** What a run pays: one lump sum for each currency with something to pay, of exactly its total. */
  ghost predicate PaysTotals(sums: seq<LumpSum>, files: seq<CutFile>, names: seq<Option<string>>)
    requires |names| == |files|
  {
    && (forall i :: 0 <= i < |sums| ==>
          sums[i].currency != "" && 0 < sums[i].amountCents == Total(files, names, sums[i].currency))
    && (forall ccy :: ccy != "" && Total(files, names, ccy) > 0 ==> Pays(sums, ccy))
    && (forall i, j :: 0 <= i < j < |sums| ==> sums[i].currency != sums[j].currency)
  }

  class SettlementApp {
    var sgaUrl: string
    var sgaAccount: map<string, string>
    var runs: seq<CycleRun>
    /** What was posted to the bank. */
    var posted: seq<Request>

    constructor (sgaUrl: string, sgaAccount: map<string, string>)
      ensures this.sgaUrl == sgaUrl && this.sgaAccount == sgaAccount && runs == [] && posted == []
    {
      this.sgaUrl, this.sgaAccount, runs, posted := sgaUrl, sgaAccount, [], [];
    }

    /** wireLumpSum; accepted is whether the bank answered with a 2xx. */
    method WireLumpSum(ccy: string, cents: int, accepted: bool) returns (s: LumpSum)
      requires IsInt64(cents)
      modifies this`posted
      ensures s.currency == ccy && s.amountCents == cents
      ensures s.status == NotConfigured <==> sgaUrl == "" || ccy !in sgaAccount || sgaAccount[ccy] == ""
      ensures s.status != NotConfigured ==> s.accountId == sgaAccount[ccy] && (s.status == Wired <==> accepted)
      ensures posted == old(posted) + if s.status == NotConfigured then [] else [Request(ccy, Money.FormatMinor(cents))]
    {
      var account := if ccy in sgaAccount then sgaAccount[ccy] else "";
      if sgaUrl == "" || account == "" {
        return LumpSum(ccy, cents, account, NotConfigured);
      }
      posted := posted + [Request(ccy, Money.FormatMinor(cents))];
      return LumpSum(ccy, cents, account, if accepted then Wired else Failed);
    }

    method Record(run: CycleRun)
      modifies this`runs
      ensures runs == Last(old(runs) + [run])
    {
      runs := runs + [run];
      if |runs| > HISTORY {
        runs := runs[|runs| - HISTORY..];
      }
    }

    /** cut is what worldline.Cut made, names[i] the published name of file i, accepted the bank's answers. */
    method Run(slot: string, fromDate: string, toDate: string, cut: Option<seq<CutFile>>, names: seq<Option<string>>,
               accepted: map<string, bool>)
      returns (run: CycleRun)
      requires cut.Some? ==> |names| == |cut.value| && AmountsFit(cut.value)
      modifies this`posted, this`runs
      ensures runs == Last(old(runs) + [run])
      ensures run.slot == slot && run.fromDate == fromDate && run.toDate == toDate
      ensures cut.None? ==> run.files == [] && run.published == [] && run.errors == 1
      ensures cut.Some? ==> run.files == cut.value && run.published == Published(names)
      ensures cut.Some? ==> run.errors == |names| - |Published(names)|
      ensures forall i :: 0 <= i < |run.lumpSums| ==> IsInt64(run.lumpSums[i].amountCents)
      ensures cut.Some? && slot == "ER" ==> PaysTotals(run.lumpSums, cut.value, names)
      ensures cut.None? || slot != "ER" ==> run.lumpSums == []
      ensures posted == old(posted) + Requests(run.lumpSums)
    {
      hide Wrap64, Money.FormatMinor, Pays, Last;
      run := CycleRun(slot, fromDate, toDate, [], [], [], 0);
      if cut.None? {
        run := run.(errors := 1);
        Record(run);
        return;
      }
      var files := cut.value;
      run := run.(files := files);
      var totals: map<string, int> := map[];
      for i := 0 to |files|
        invariant run == CycleRun(slot, fromDate, toDate, files, Published(names[..i]), [], i - |Published(names[..i])|)
        invariant forall ccy :: (if ccy in totals then totals[ccy] else 0) == TotalOf(files, names, ccy, i)
      {
        if names[i].None? {
          run := run.(errors := run.errors + 1);
        } else {
          run := run.(published := run.published + [names[i].value]);
          var ccy := files[i].currency;
          totals := totals[ccy := Wrap64((if ccy in totals then totals[ccy] else 0) + files[i].amountCents)];
        }
        assert names[..i + 1][..i] == names[..i];
      }
      assert names[..|files|] == names;
      if slot == MORNING {
        var sums := WireAll(totals, accepted);
        run := run.(lumpSums := sums);
        assert PaysTotals(sums, files, names);
      }
      Record(run);
    }

    /** The loop over the totals, in whatever order the map gives them. */
    method WireAll(totals: map<string, int>, accepted: map<string, bool>) returns (sums: seq<LumpSum>)
      requires forall ccy :: ccy in totals ==> IsInt64(totals[ccy])
      modifies this`posted
      ensures forall i :: 0 <= i < |sums| ==>
        sums[i].currency != "" && sums[i].currency in totals && 0 < sums[i].amountCents == totals[sums[i].currency]
      ensures forall ccy :: ccy in totals && ccy != "" && totals[ccy] > 0 ==> Pays(sums, ccy)
      ensures forall i, j :: 0 <= i < j < |sums| ==> sums[i].currency != sums[j].currency
      ensures posted == old(posted) + Requests(sums)
    {
      hide Money.FormatMinor, Pays;
      sums := [];
      var rest := totals.Keys;
      while rest != {}
        invariant rest <= totals.Keys
        invariant forall i :: 0 <= i < |sums| ==>
          sums[i].currency != "" && sums[i].currency in totals && sums[i].currency !in rest
          && 0 < sums[i].amountCents == totals[sums[i].currency]
        invariant forall ccy :: ccy in totals && ccy !in rest && ccy != "" && totals[ccy] > 0 ==> Pays(sums, ccy)
        invariant forall i, j :: 0 <= i < j < |sums| ==> sums[i].currency != sums[j].currency
        invariant posted == old(posted) + Requests(sums)
      {
        var ccy :| ccy in rest;
        rest := rest - {ccy};
        if totals[ccy] <= 0 || ccy == "" {
          continue;
        }
        var s := WireLumpSum(ccy, totals[ccy], ccy in accepted && accepted[ccy]);
        PaysMore(sums, s);
        assert (sums + [s])[..|sums|] == sums;
        sums := sums + [s];
      }
    }
  }

  // ------------------------------------------------------------ what arrives

  /** createIncomingPayment and CreditIncoming: the text read, written again and read again. */
  function Received(amount: string): Option<int> {
    match Money.Parse(amount)
    case None => None
    case Some(cents) => if !IsInt64(cents) || cents <= 0 then None else Money.Parse(Money.Format(cents))
  }

  /**
   * A morning lump sum raises the safeguarding account by the currency's total; and that is the total
   * the files state exactly when the stated total fits an int64.
   */
  lemma LumpSumArrives(files: seq<CutFile>, names: seq<Option<string>>, ccy: string, b: Book, account: string, day: int)
    requires |names| == |files| && WellKept(b) && account in b && Total(files, names, ccy) > 0
    ensures var total := Total(files, names, ccy);
      && Received(Money.FormatMinor(total)) == Some(total)
      && Balance(Credited(b, account, total, day), account) == Wrap64(Balance(b, account) + total)
      && (total == Stated(files, names, ccy, |files|) <==> IsInt64(Stated(files, names, ccy, |files|)))
  {
    hide Money.Parse, Money.Format, Money.FormatMinor, TotalOf, Stated, Wrap64;
    var total := Total(files, names, ccy);
    TotalIsStated(files, names, ccy, |files|);
    Money.MinorRoundTrip(total);
    Money.RoundTrip(total);
    CreditedBalance(b, account, total, day, account);
  }

  // ---------------------------------------------------------------- history

  function RecordAll(runs: seq<CycleRun>, log: seq<CycleRun>): seq<CycleRun> {
    if log == [] then runs else Last(RecordAll(runs, log[..|log| - 1]) + [log[|log| - 1]])
  }

  /** The history kept is always the last hundred runs of all that ever were. */
  lemma {:induction false} HistoryIsLast(log: seq<CycleRun>)
    ensures RecordAll([], log) == Last(log)
    ensures Last(log) == log[if |log| > 100 then |log| - 100 else 0..]
  {
    if log != [] {
      HistoryIsLast(log[..|log| - 1]);
    }
  }
}
