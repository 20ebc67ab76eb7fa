/** internal/bankingcircle/ledger.go: accounts, moves, credits and the day's opening balance. */
module Ledger {
  import opened Text

  /** openDay None is the empty string of an account that has never moved. */
  datatype Account = Account(
    id: string, viban: string, holder: string, currency: string,
    cents: int, openDay: Option<int>, openCents: int)

  datatype LedgerError = AccountNotFound | InsufficientFunds | SameAccount | InvalidAccountId

  type Book = map<string, Account>

  function Bare(id: string, viban: string, holder: string, currency: string): Account {
    Account(id, viban, holder, currency, 0, None, 0)
  }

  /** Account.opening: remember the balance the day started with. */
  function Opening(a: Account, day: int): Account {
    if a.openDay != Some(day) then a.(openDay := Some(day), openCents := a.cents) else a
  }

  /** One movement of delta cents on a day. */
  function Posted(a: Account, day: int, delta: int): Account {
    Opening(a, day).(cents := Wrap64(a.cents + delta))
  }

  function DayAmounts(a: Account, day: int): (int, int) {
    if a.openDay != Some(day) then (a.cents, 0)
    else (a.openCents, Wrap64(a.cents - a.openCents))
  }

  /** Why Move refuses, in the order it looks. */
  function Refusal(b: Book, from: string, to: string, cents: int): Option<LedgerError> {
    if from == to then Some(SameAccount)
    else if from !in b || to !in b then Some(AccountNotFound)
    else if b[from].cents < cents then Some(InsufficientFunds)
    else None
  }

  function Moved(b: Book, from: string, to: string, cents: int, day: int): Book {
    if Refusal(b, from, to, cents).Some? then b
    else b[from := Posted(b[from], day, -cents)][to := Posted(b[to], day, cents)]
  }

  function Credited(b: Book, to: string, cents: int, day: int): Book {
    if to in b then b[to := Posted(b[to], day, cents)] else b
  }

  function WithAccount(b: Book, a: Account): Book {
    if a.id in b then b else b[a.id := a]
  }

  function Balance(b: Book, id: string): int {
    if id in b then b[id].cents else 0
  }

  /** Every account is filed under its id and fits an int64. */
  ghost predicate WellKept(b: Book) {
    forall id :: id in b ==> b[id].id == id && IsInt64(b[id].cents) && IsInt64(b[id].openCents)
  }

  /** The index finds, under every account's virtual IBAN, an account with that one, and nothing else. */
  ghost predicate VibansIndexed(b: Book, index: map<string, string>) {
    && (forall v :: v in index ==> index[v] in b && b[index[v]].viban == v)
    && (forall id :: id in b ==> b[id].viban in index)
  }

  class LedgerStore {
    var accts: Book
    var byViban: map<string, string>

    constructor (seeds: seq<Account>)
      requires forall i, j :: 0 <= i < j < |seeds| ==> seeds[i].id != seeds[j].id
      ensures forall a :: a in seeds ==> a.id in accts && accts[a.id] == a
      ensures forall id :: id in accts ==> accts[id] in seeds && accts[id].id == id
      ensures VibansIndexed(accts, byViban)
    {
      accts := map[];
      byViban := map[];
      new;
      for i := 0 to |seeds|
        invariant forall a :: a in seeds[..i] ==> a.id in accts && accts[a.id] == a
        invariant forall id :: id in accts ==> accts[id] in seeds[..i] && accts[id].id == id
        invariant VibansIndexed(accts, byViban)
      {
        assert seeds[i].id !in accts;
        accts := accts[seeds[i].id := seeds[i]];
        byViban := byViban[seeds[i].viban := seeds[i].id];
        assert seeds[..i + 1] == seeds[..i] + [seeds[i]];
      }
    }

    /** By id first, then by virtual IBAN. */
    method Get(id: string) returns (r: Result<Account, LedgerError>)
      ensures id in accts ==> r == Ok(accts[id])
      ensures id !in accts && id in byViban && byViban[id] in accts ==> r == Ok(accts[byViban[id]])
      ensures id !in accts && id !in byViban ==> r == Err(AccountNotFound)
      ensures r.Err? ==> r.error == AccountNotFound && id !in accts
      ensures VibansIndexed(accts, byViban) && id !in accts ==>
        && (r.Ok? <==> exists k :: k in accts && accts[k].viban == id)
        && (r.Ok? ==> r.value.viban == id)
    {
      if id in accts {
        return Ok(accts[id]);
      }
      if id in byViban && byViban[id] in accts {
        return Ok(accts[byViban[id]]);
      }
      return Err(AccountNotFound);
    }

    /** wellFormed is whether id is a UUID; viban and holder are derived from it. */
    method GetOrCreate(id: string, currency: string, wellFormed: bool, viban: string, holder: string)
      returns (r: Result<Account, LedgerError>)
      requires WellKept(accts)
      modifies this
      ensures !wellFormed ==> r == Err(InvalidAccountId) && accts == old(accts) && byViban == old(byViban)
      ensures wellFormed ==>
        accts == WithAccount(old(accts), Bare(id, viban, holder, currency)) && id in accts && r == Ok(accts[id])
      ensures id in old(accts) ==> byViban == old(byViban)
      ensures wellFormed && id !in old(accts) ==>
        && byViban == old(byViban)[viban := id] && accts == old(accts)[id := accts[id]]
        && r.value.id == id && r.value.viban == viban && r.value.holder == holder && r.value.currency == currency
        && r.value.cents == 0 && r.value.openDay == None
      ensures WellKept(accts)
      ensures old(VibansIndexed(accts, byViban)) ==> VibansIndexed(accts, byViban)
    {
      if !wellFormed {
        return Err(InvalidAccountId);
      }
      if id in accts {
        return Ok(accts[id]);
      }
      var a := Bare(id, viban, holder, currency);
      accts := accts[id := a];
      byViban := byViban[viban := id];
      return Ok(a);
    }

    method Move(from: string, to: string, cents: int, day: int) returns (r: Result<(Account, Account), LedgerError>)
      modifies this`accts
      ensures accts == Moved(old(accts), from, to, cents, day)
      ensures match Refusal(old(accts), from, to, cents)
              case Some(e) => r == Err(e)
              case None => from in accts && to in accts && r == Ok((accts[from], accts[to]))
    {
      hide Wrap64;
      if from == to {
        return Err(SameAccount);
      }
      if from !in accts {
        return Err(AccountNotFound);
      }
      if to !in accts {
        return Err(AccountNotFound);
      }
      var f, t := accts[from], accts[to];
      if f.cents < cents {
        return Err(InsufficientFunds);
      }
      f := Opening(f, day);
      t := Opening(t, day);
      f := f.(cents := Wrap64(f.cents - cents));
      t := t.(cents := Wrap64(t.cents + cents));
      accts := accts[from := f][to := t];
      return Ok((f, t));
    }

    method Credit(to: string, cents: int, day: int) returns (r: Result<Account, LedgerError>)
      modifies this`accts
      ensures accts == Credited(old(accts), to, cents, day)
      ensures if to in old(accts) then to in accts && r == Ok(accts[to]) else r == Err(AccountNotFound)
    {
      hide Wrap64;
      if to !in accts {
        return Err(AccountNotFound);
      }
      var t := Opening(accts[to], day);
      t := t.(cents := Wrap64(t.cents + cents));
      accts := accts[to := t];
      return Ok(t);
    }
  }

  // -------------------------------------------------------- book invariants

  /** Money moving in or between accounts leaves every virtual IBAN where it was. */
  lemma MovesKeepVibans(b: Book, index: map<string, string>, from: string, to: string, cents: int, day: int)
    requires VibansIndexed(b, index)
    ensures VibansIndexed(Moved(b, from, to, cents, day), index) && VibansIndexed(Credited(b, to, cents, day), index)
  {
    hide Wrap64, VibansIndexed, Refusal;
    if to in b {
      PostedKeepsViban(b, index, to, day, cents);
      if from in b {
        PostedKeepsViban(b, index, from, day, -cents);
        PostedKeepsViban(b[from := Posted(b[from], day, -cents)], index, to, day, cents);
      }
    }
    RefusalNone(b, from, to, cents);
  }

  lemma RefusalNone(b: Book, from: string, to: string, cents: int)
    ensures Refusal(b, from, to, cents) == None ==> from in b && to in b && from != to
  {
  }

  lemma PostedKeepsViban(b: Book, index: map<string, string>, id: string, day: int, delta: int)
    requires VibansIndexed(b, index) && id in b
    ensures VibansIndexed(b[id := Posted(b[id], day, delta)], index)
  {
    hide Wrap64;
    assert Posted(b[id], day, delta).viban == b[id].viban;
  }

  /** What a move does to every balance, in wrapped arithmetic. */
  lemma MovedBalance(b: Book, from: string, to: string, cents: int, day: int, a: string)
    requires WellKept(b)
    ensures var b' := Moved(b, from, to, cents, day);
            && b'.Keys == b.Keys && WellKept(b')
            && Balance(b', a) ==
                 if Refusal(b, from, to, cents).Some? then Balance(b, a)
                 else if a == from then Wrap64(Balance(b, a) - cents)
                 else if a == to then Wrap64(Balance(b, a) + cents)
                 else Balance(b, a)
  {
    hide Wrap64;
  }

  lemma CreditedBalance(b: Book, to: string, cents: int, day: int, a: string)
    requires WellKept(b)
    ensures var b' := Credited(b, to, cents, day);
            && b'.Keys == b.Keys && WellKept(b')
            && Balance(b', a) == if a == to && a in b then Wrap64(Balance(b, a) + cents) else Balance(b, a)
  {
    hide Wrap64;
  }

  lemma BalanceIsInt64(b: Book, a: string)
    requires WellKept(b)
    ensures IsInt64(Balance(b, a))
  {
  }

  /** The sum of all balances. */
  ghost function Total(b: Book): int {
    if b == map[] then 0
    else
      var k :| k in b;
      b[k].cents + Total(b - {k})
  }

  lemma {:induction false} TotalWithout(b: Book, k: string)
    requires k in b
    ensures Total(b) == b[k].cents + Total(b - {k})
  {
    var j :| j in b && Total(b) == b[j].cents + Total(b - {j});
    if j != k {
      TotalWithout(b - {j}, k);
      TotalWithout(b - {k}, j);
      assert b - {j} - {k} == b - {k} - {j};
    }
  }

  lemma TotalUpdate(b: Book, k: string, a: Account)
    ensures Total(b[k := a]) == Total(b) - Balance(b, k) + a.cents
  {
    TotalWithout(b[k := a], k);
    assert b[k := a] - {k} == b - {k};
    if k in b {
      TotalWithout(b, k);
    } else {
      assert b - {k} == b;
    }
  }

  ghost predicate NoOverdraft(b: Book) {
    forall id :: id in b ==> b[id].cents >= 0
  }

  lemma {:induction false} TotalNonNegative(b: Book)
    requires NoOverdraft(b)
    ensures Total(b) >= 0
  {
    if b != map[] {
      var k :| k in b && Total(b) == b[k].cents + Total(b - {k});
      TotalNonNegative(b - {k});
    }
  }

  /** Two balances never exceed the total, so a move between them cannot overflow. */
  lemma PairWithinTotal(b: Book, x: string, y: string)
    requires NoOverdraft(b) && x in b && y in b && x != y
    ensures b[x].cents + b[y].cents <= Total(b)
  {
    TotalWithout(b, x);
    TotalWithout(b - {x}, y);
    TotalNonNegative(b - {x} - {y});
  }

  lemma OneWithinTotal(b: Book, x: string)
    requires NoOverdraft(b) && x in b
    ensures b[x].cents <= Total(b)
  {
    TotalWithout(b, x);
    TotalNonNegative(b - {x});
  }

  function Transfer(from: string, to: string, a: string, cents: int): int {
    (if a == to then cents else 0) - (if a == from then cents else 0)
  }

  /** A positive move between accounts whose total fits an int64 is exact, conserves the total
      and overdraws nobody. */
  lemma MoveConserves(b: Book, from: string, to: string, cents: int, day: int)
    requires NoOverdraft(b) && Total(b) <= MAX64 && cents > 0
    ensures Total(Moved(b, from, to, cents, day)) == Total(b)
    ensures NoOverdraft(Moved(b, from, to, cents, day))
    ensures forall a :: Balance(Moved(b, from, to, cents, day), a) ==
              Balance(b, a) + if Refusal(b, from, to, cents).None? then Transfer(from, to, a, cents) else 0
  {
    hide Wrap64;
    if Refusal(b, from, to, cents).None? {
      PairWithinTotal(b, from, to);
      var b1 := b[from := Posted(b[from], day, -cents)];
      TotalUpdate(b, from, Posted(b[from], day, -cents));
      TotalUpdate(b1, to, Posted(b[to], day, cents));
    }
  }

  lemma CreditAdds(b: Book, to: string, cents: int, day: int)
    requires NoOverdraft(b) && to in b && cents > 0 && Total(b) + cents <= MAX64
    ensures Total(Credited(b, to, cents, day)) == Total(b) + cents
    ensures NoOverdraft(Credited(b, to, cents, day))
    ensures forall a :: Balance(Credited(b, to, cents, day), a) == Balance(b, a) + if a == to then cents else 0
  {
    hide Wrap64;
    OneWithinTotal(b, to);
    TotalUpdate(b, to, Posted(b[to], day, cents));
  }

  lemma OpeningAddsNothing(b: Book, x: Account)
    requires x.cents == 0 && NoOverdraft(b)
    ensures Total(WithAccount(b, x)) == Total(b) && NoOverdraft(WithAccount(b, x))
    ensures forall a :: Balance(WithAccount(b, x), a) == Balance(b, a)
  {
    TotalUpdate(b, x.id, x);
  }

  // ------------------------------------------------------- the day's amounts

  datatype Movement = Movement(day: int, delta: int)

  /** An account after a history of movements. */
  function Play(a: Account, h: seq<Movement>): Account {
    if h == [] then a else Posted(Play(a, h[..|h| - 1]), h[|h| - 1].day, h[|h| - 1].delta)
  }

  function Sum(h: seq<Movement>): int {
    if h == [] then 0 else Sum(h[..|h| - 1]) + h[|h| - 1].delta
  }

  function SumOn(h: seq<Movement>, day: int): int {
    if h == [] then 0
    else SumOn(h[..|h| - 1], day) + if h[|h| - 1].day == day then h[|h| - 1].delta else 0
  }

  function SumBefore(h: seq<Movement>, day: int): int {
    if h == [] then 0
    else SumBefore(h[..|h| - 1], day) + if h[|h| - 1].day < day then h[|h| - 1].delta else 0
  }

  /** Where the unbroken run of movements on day, at the end of h, starts. */
  function RunStart(h: seq<Movement>, day: int): (n: nat)
    ensures n <= |h|
    ensures forall i :: n <= i < |h| ==> h[i].day == day
    ensures n == 0 || h[n - 1].day != day
  {
    if h == [] || h[|h| - 1].day != day then |h| else RunStart(h[..|h| - 1], day)
  }

  lemma {:induction false} PlayState(h: seq<Movement>, a: Account)
    requires a.cents == 0 && a.openDay == None
    ensures var p := Play(a, h); p.cents == Wrap64(Sum(h))
    ensures h != [] ==>
      var p, d := Play(a, h), h[|h| - 1].day;
      p.openDay == Some(d) && p.openCents == Wrap64(Sum(h[..RunStart(h, d)]))
    ensures h == [] ==> Play(a, h) == a
  {
    hide Wrap64;
    if h != [] {
      var g, m := h[..|h| - 1], h[|h| - 1];
      PlayState(g, a);
      WrapAdd(Sum(g), m.delta);
      assert h[..RunStart(h, m.day)] == g[..RunStart(g, m.day)];
      if g == [] || g[|g| - 1].day != m.day {
        assert g[..|g|] == g;
      }
    }
  }

  lemma {:induction false} SumOnSplit(h: seq<Movement>, n: nat, day: int)
    requires n <= |h| && forall i :: n <= i < |h| ==> h[i].day == day
    ensures Sum(h) - Sum(h[..n]) == SumOn(h, day) - SumOn(h[..n], day)
  {
    if n < |h| {
      var g := h[..|h| - 1];
      assert g[..n] == h[..n];
      SumOnSplit(g, n, day);
    } else {
      assert h[..n] == h;
    }
  }

  /** Whatever the clock did, the two cached fields split the log at the start of the last run on the day. */
  lemma DayAmountsSplit(h: seq<Movement>, a: Account, day: int)
    requires a.cents == 0 && a.openDay == None
    ensures var n := RunStart(h, day);
            DayAmounts(Play(a, h), day) ==
              (Wrap64(Sum(h[..n])), Wrap64(SumOn(h, day) - SumOn(h[..n], day)))
  {
    hide Wrap64;
    PlayState(h, a);
    var n := RunStart(h, day);
    SumOnSplit(h, n, day);
    if h == [] || h[|h| - 1].day != day {
      assert n == |h| && h[..n] == h;
    } else {
      WrapSub(Sum(h), Sum(h[..n]));
    }
  }

  /** The intraday amount is the day's net movement if and only if what moved on that day
      before the clock last arrived there nets to nothing. */
  lemma IntradayExactIff(h: seq<Movement>, a: Account, day: int)
    requires a.cents == 0 && a.openDay == None
    ensures DayAmounts(Play(a, h), day).1 == Wrap64(SumOn(h, day))
            <==> Wrap64(SumOn(h[..RunStart(h, day)], day)) == 0
  {
    hide Wrap64;
    DayAmountsSplit(h, a, day);
    var x, y := SumOn(h, day), SumOn(h[..RunStart(h, day)], day);
    WrapSub(x, y);
    if Wrap64(x - y) == Wrap64(x) {
      WrapSub(x, x - y);
      assert x - (x - y) == y;
    }
    if Wrap64(y) == 0 {
      WrapAdd(x, 0);
    }
  }

  /** The clock set back a day: 1.00 on day 1, 0.05 on day 2, 0.07 on day 1 again, and day 1 shows only the 0.07. */
  lemma ClockBackForgetsMorning(a: Account)
    requires a.cents == 0 && a.openDay == None
    ensures var h := [Movement(1, 100), Movement(2, 5), Movement(1, 7)];
      SumOn(h, 1) == 107 && DayAmounts(Play(a, h), 1) == (105, 7)
  {
    hide Wrap64;
    var h := [Movement(1, 100), Movement(2, 5), Movement(1, 7)];
    assert h[..2] == [h[0], h[1]] && [h[0], h[1]][..1] == [h[0]] && [h[0]][..0] == [];
    assert RunStart(h, 1) == 2;
    assert Sum([h[0]]) == 100 && SumOn([h[0]], 1) == 100;
    assert Sum(h[..2]) == 105 && SumOn(h[..2], 1) == 100;
    DayAmountsSplit(h, a, 1);
  }

  ghost predicate NonDecreasing(h: seq<Movement>) {
    forall i, j :: 0 <= i < j < |h| ==> h[i].day <= h[j].day
  }

  lemma {:induction false} AllBefore(h: seq<Movement>, day: int)
    requires forall i :: 0 <= i < |h| ==> h[i].day < day
    ensures Sum(h) == SumBefore(h, day) && SumOn(h, day) == 0
  {
    if h != [] {
      AllBefore(h[..|h| - 1], day);
    }
  }

  lemma {:induction false} BeforeSplit(h: seq<Movement>, n: nat, day: int)
    requires n <= |h| && forall i :: n <= i < |h| ==> h[i].day == day
    ensures SumBefore(h, day) == SumBefore(h[..n], day)
  {
    if n < |h| {
      assert h[..|h| - 1][..n] == h[..n];
      BeforeSplit(h[..|h| - 1], n, day);
    } else {
      assert h[..n] == h;
    }
  }

  /** On a clock that never runs back: everything before the day, and everything on it. */
  lemma DayAmountsRefineLog(h: seq<Movement>, a: Account, day: int)
    requires a.cents == 0 && a.openDay == None
    requires NonDecreasing(h) && forall i :: 0 <= i < |h| ==> h[i].day <= day
    ensures DayAmounts(Play(a, h), day) == (Wrap64(SumBefore(h, day)), Wrap64(SumOn(h, day)))
  {
    hide Wrap64;
    var n := RunStart(h, day);
    assert forall i :: 0 <= i < n ==> h[i].day < day by {
      assert n > 0 ==> h[n - 1].day < day;
    }
    DayAmountsSplit(h, a, day);
    AllBefore(h[..n], day);
    BeforeSplit(h, n, day);
  }
}
