/** The Engine of internal/bankingcircle/payment.go, one method per call or goroutine half. */
module PaymentEngine {
  import opened Text
  import opened Ledger
  import opened Payments
  import opened PaymentOutcomes
  import opened PaymentRuns
  import opened Sorting
  import Money

  /** out gives the payment each id names, for every id of the map once, in the order of ids. */
  ghost predicate IsListing(c: Core, ids: seq<string>, out: seq<Payment>) {
    && Closed(c) && |ids| == |out| && Distinct(ids)
    && (forall id :: id in c.listed <==> id in ids)
    && (forall i :: 0 <= i < |ids| ==> ids[i] in c.listed && out[i] == c.objs[c.listed[ids[i]]])
  }

  class Engine {
    const ledger: LedgerStore
    var objs: seq<Payment>           // every payment object ever made, in order of creation
    var payments: map<string, nat>   // the map of the source: id to object
    var forced: seq<Outcome>
    var refSeq: int

    ghost function View(): Core
      reads this
    {
      Core(objs, payments, forced, refSeq)
    }

    ghost predicate Valid()
      reads this
    {
      Closed(View())
    }

    constructor (ledger: LedgerStore)
      ensures this.ledger == ledger && View() == Core([], map[], [], 0) && Valid()
    {
      this.ledger := ledger;
      objs, payments, forced, refSeq := [], map[], [], 0;
    }

    method NextReferenceNumber() returns (r: string)
      modifies this`refSeq
      ensures refSeq == NextRef(old(refSeq)) && r == RefNo(refSeq)
    {
      refSeq := Wrap64(refSeq + 1);
      r := RefNo(refSeq);
    }

    /** Book an outgoing payment; the goroutine it starts gets ptr and the outcome taken off the queue. */
    method Create(p: Payment, now: string) returns (ptr: nat, outcome: Option<Outcome>, fired: seq<Payment>)
      requires Valid()
      modifies this
      ensures Valid() && View() == CreateCore(old(View()), p, now)
      ensures ptr == |old(objs)| && outcome == NextOutcome(old(View()))
      ensures fired == [objs[ptr]]
    {
      hide RefNo;
      var q := p.(state := OutBooked, createdAt := now, updatedAt := now);
      var refNo := NextReferenceNumber();
      q := q.(referenceNumber := refNo);
      ptr := |objs|;
      objs := objs + [q];
      payments := payments[q.id := ptr];
      outcome := None;
      if |forced| > 0 {
        outcome, forced := Some(forced[0]), forced[1..];
      }
      fired := [q];
    }

    /** Queue outcomes by name, all or none. */
    method ForceNext(names: seq<string>) returns (r: Result<seq<Outcome>, PaymentError>)
      requires Valid()
      modifies this`forced
      ensures Valid()
      ensures (exists i :: 0 <= i < |names| && names[i] != "Rejected" && names[i] != "Pending")
        ==> r == Err(UnknownOutcome) && forced == old(forced)
      ensures (forall i :: 0 <= i < |names| ==> names[i] == "Rejected" || names[i] == "Pending")
        ==> && |forced| == |old(forced)| + |names| && old(forced) <= forced && r == Ok(forced)
            && forall i :: 0 <= i < |names| ==>
                 forced[|old(forced)| + i] == if names[i] == "Rejected" then Rejected else Pending
    {
      var outcomes: seq<Outcome> := [];
      for i := 0 to |names|
        invariant |outcomes| == i
        invariant forall j :: 0 <= j < i ==>
          (names[j] == "Rejected" && outcomes[j] == Rejected) || (names[j] == "Pending" && outcomes[j] == Pending)
      {
        if names[i] != "Rejected" && names[i] != "Pending" {
          return Err(UnknownOutcome);
        }
        outcomes := outcomes + [if names[i] == "Rejected" then Rejected else Pending];
      }
      forced := forced + outcomes;
      return Ok(forced);
    }

    /** process up to the ledger move, without the engine's mutex, once it is past the check for pending. */
    method ProcessMove(ptr: nat, outcome: Option<Outcome>, day: int) returns (failure: Option<Failure>)
      requires Valid() && ptr < |objs| && outcome != Some(Pending)
      modifies ledger`accts
      ensures failure == Attempt(old(ledger.accts), objs[ptr], outcome)
      ensures ledger.accts == Attempted(old(ledger.accts), objs[ptr], outcome, day)
    {
      hide Money.Parse, Posted;
      var p := objs[ptr];
      if outcome == Some(Rejected) {
        return Some(Forced);
      }
      var cents := Money.Parse(p.amount);
      if cents.None? {
        return Some(BadAmount);
      }
      var moved := ledger.Move(p.fromId, p.toId, cents.value, day);
      failure := match moved case Ok(_) => None case Err(e) => Some(Refused(e));
    }

    /** process after the move: record how it went. */
    method ProcessMark(ptr: nat, failure: Option<Failure>, now: string) returns (fired: seq<Payment>)
      requires Valid() && ptr < |objs|
      modifies this`objs
      ensures Valid() && objs == old(objs)[ptr := Marked(old(objs)[ptr], failure, now)]
      ensures objs[ptr].state == match failure
                                 case None => OutProcessed
                                 case Some(f) => if f == Refused(InsufficientFunds) then MissingFunding else OutRejected
      ensures objs[ptr].updatedAt == now && objs[ptr].createdAt == old(objs)[ptr].createdAt
      ensures fired == [objs[ptr]]
    {
      var p := objs[ptr];
      if failure.None? {
        p := p.(state := OutProcessed, processedAt := now);
      } else if failure == Some(Refused(InsufficientFunds)) {
        p := p.(state := MissingFunding);
      } else {
        p := p.(state := OutRejected);
      }
      p := p.(updatedAt := now);
      objs := objs[ptr := p];
      fired := [p];
    }

    /** process, undisturbed: a payment forced to stay pending is left booked for good. */
    method Process(ptr: nat, outcome: Option<Outcome>, day: int, now: string) returns (fired: seq<Payment>)
      requires Valid() && ptr < |objs|
      modifies this`objs, ledger`accts
      ensures Valid()
      ensures outcome == Some(Pending) ==> objs == old(objs) && ledger.accts == old(ledger.accts) && fired == []
      ensures outcome != Some(Pending) ==>
        && ledger.accts == Attempted(old(ledger.accts), old(objs)[ptr], outcome, day)
        && objs == old(objs)[ptr := Marked(old(objs)[ptr], Attempt(old(ledger.accts), old(objs)[ptr], outcome), now)]
        && fired == [objs[ptr]]
        && ProcessedAs(old(ledger.accts), old(objs)[ptr], outcome, now, objs[ptr])
    {
      hide Attempt, Attempted, Marked, ProcessedAs;
      if outcome == Some(Pending) {
        return [];
      }
      ProcessMeaning(ledger.accts, objs[ptr], outcome, now);
      var failure := ProcessMove(ptr, outcome, day);
      fired := ProcessMark(ptr, failure, now);
    }

    method Get(id: string) returns (r: Result<Payment, PaymentError>)
      requires Valid()
      ensures r == if id in payments then Ok(objs[payments[id]]) else Err(PaymentNotFound)
    {
      if id in payments {
        return Ok(objs[payments[id]]);
      }
      return Err(PaymentNotFound);
    }

    /** Every listed payment once, in no particular order. */
    method List() returns (out: seq<Payment>)
      requires Valid()
      ensures exists ids :: IsListing(View(), ids, out)
    {
      out := [];
      ghost var ids: seq<string> := [];
      var rest := payments.Keys;
      while rest != {}
        invariant rest <= payments.Keys
        invariant |ids| == |out| && Distinct(ids)
        invariant forall id :: id in payments <==> id in ids || id in rest
        invariant forall i :: 0 <= i < |ids| ==>
          ids[i] !in rest && ids[i] in payments && out[i] == objs[payments[ids[i]]]
      {
        var id :| id in rest;
        out := out + [objs[payments[id]]];
        ids := ids + [id];
        rest := rest - {id};
      }
      assert IsListing(View(), ids, out);
    }

    /** Send a processed payout's money back and mark it reversed: the mutex is held across both. */
    method Reverse(id: string, reason: string, day: int, now: string)
      returns (r: Result<Payment, PaymentError>, fired: seq<Payment>)
      requires Valid()
      modifies this`objs, ledger`accts
      ensures Valid()
      ensures r.Err? ==> objs == old(objs) && ledger.accts == old(ledger.accts) && fired == []
      ensures match TakeBackCheck(old(View()), id)
              case Err(e) => r == Err(e)
              case Ok(k) =>
                var p := old(objs)[k];
                match Refusal(old(ledger.accts), p.toId, p.fromId, Cents(p))
                case Some(e) => r == Err(LedgerRefused(e))
                case None =>
                  var q := ReversedPay(p, reason, now);
                  && r == Ok(q) && objs == old(objs)[k := q]
                  && ledger.accts == Moved(old(ledger.accts), p.toId, p.fromId, Cents(p), day)
                  && fired == [q.(state := OutBooked), q]
    {
      hide Money.Parse, Posted;
      fired := [];
      if id !in payments {
        return Err(PaymentNotFound), [];
      }
      var k := payments[id];
      var p := objs[k];
      if p.state != OutProcessed {
        return Err(InvalidState), [];
      }
      if p.returnedBy != "" {
        return Err(AlreadyReturned), [];
      }
      var cents := Money.Parse(p.amount);
      if cents.None? {
        return Err(UnreadableAmount), [];
      }
      var moved := ledger.Move(p.toId, p.fromId, cents.value, day);
      if moved.Err? {
        return Err(LedgerRefused(moved.error)), [];
      }
      p := p.(state := Reversed, reversalReason := reason, reversedAt := now);
      p := p.(updatedAt := p.reversedAt);
      objs := objs[k := p];
      return Ok(p), [p.(state := OutBooked), p];
    }

    /** Credit the ledger, then, in a second critical section, file the incoming payment. */
    method CreditIncoming(toId: string, currency: string, amount: string, reference: string,
                          newId: string, day: int, now: string)
      returns (r: Result<Payment, PaymentError>, fired: seq<Payment>)
      requires Valid()
      modifies this, ledger`accts
      ensures Valid()
      ensures r.Err? ==> View() == old(View()) && ledger.accts == old(ledger.accts) && fired == []
      ensures match Money.Parse(amount)
              case None => r == Err(UnreadableAmount)
              case Some(c) =>
                if toId !in old(ledger.accts) then r == Err(LedgerRefused(AccountNotFound))
                else
                  && ledger.accts == Credited(old(ledger.accts), toId, c, day)
                  && View() == RecordCore(old(View()), newId, toId, currency, amount, reference, now)
                  && r == Ok(objs[|old(objs)|]) && fired == [objs[|old(objs)|]]
    {
      hide Money.Parse, Posted, RefNo;
      var cents := Money.Parse(amount);
      if cents.None? {
        return Err(UnreadableAmount), [];
      }
      var credited := ledger.Credit(toId, cents.value, day);
      if credited.Err? {
        return Err(LedgerRefused(credited.error)), [];
      }
      var refNo := NextReferenceNumber();
      var p := Incoming(newId, toId, currency, amount, reference, refNo, now);
      payments := payments[p.id := |objs|];
      objs := objs + [p];
      return Ok(p), [p];
    }

    method ProcessIncoming(ptr: nat, now: string) returns (fired: seq<Payment>)
      requires Valid() && ptr < |objs|
      modifies this`objs
      ensures Valid() && objs == old(objs)[ptr := Settled(old(objs)[ptr], now)]
      ensures fired == [objs[ptr]]
    {
      var p := objs[ptr].(state := InProcessed, updatedAt := now);
      p := p.(processedAt := p.updatedAt);
      objs := objs[ptr := p];
      fired := [p];
    }

    /** The money comes back as a new incoming payment; the payout only records which. */
    method Return(id: string, code: string, description: string, newId: string, day: int, now: string)
      returns (r: Result<Payment, PaymentError>, fired: seq<Payment>)
      requires Valid()
      modifies this, ledger`accts
      ensures Valid()
      ensures r.Err? ==> View() == old(View()) && ledger.accts == old(ledger.accts) && fired == []
      ensures match TakeBackCheck(old(View()), id)
              case Err(e) => r == Err(e)
              case Ok(k) =>
                var p := old(objs)[k];
                match Refusal(old(ledger.accts), p.toId, p.fromId, Cents(p))
                case Some(e) => r == Err(LedgerRefused(e))
                case None =>
                  && ledger.accts == Moved(old(ledger.accts), p.toId, p.fromId, Cents(p), day)
                  && View() == ReturnCore(old(View()), k, newId, code, description, now)
                  && r == Ok(objs[|old(objs)|]) && fired == [objs[|old(objs)|]]
    {
      hide Money.Parse, Posted, RefNo, ReturnRemittance;
      if id !in payments {
        return Err(PaymentNotFound), [];
      }
      var k := payments[id];
      var orig := objs[k];
      if orig.state != OutProcessed {
        return Err(InvalidState), [];
      }
      if orig.returnedBy != "" {
        return Err(AlreadyReturned), [];
      }
      var cents := Money.Parse(orig.amount);
      if cents.None? {
        return Err(UnreadableAmount), [];
      }
      var moved := ledger.Move(orig.toId, orig.fromId, cents.value, day);
      if moved.Err? {
        return Err(LedgerRefused(moved.error)), [];
      }
      var refNo := NextReferenceNumber();
      var p := ReturnPay(orig, newId, code, description, refNo, now);
      objs := objs[k := orig.(returnedBy := p.id)];
      payments := payments[p.id := |objs|];
      objs := objs + [p];
      return Ok(p), [p];
    }
  }

  // ------------------------------- calls that span two critical sections, undisturbed

  lemma ReverseIsTwoSteps(s: Sys, id: string, reason: string, day: int, now: string)
    requires Coherent(s) && s.held.Free? && TakenBack(s, id).Some?
    ensures var k, tr := TakenBack(s, id).value, [TakeBack(id, false, day), FinishReverse(reason, now)];
            var p := s.core.objs[k];
            && LegalRun(s, tr)
            && Run(s, tr) == s.(core := s.core.(objs := s.core.objs[k := ReversedPay(p, reason, now)]),
                                book := Moved(s.book, p.toId, p.fromId, Cents(p), day))
  {
    hide Money.Parse, Posted, Moved, Refusal;
    var tr := [TakeBack(id, false, day), FinishReverse(reason, now)];
    assert tr[1..] == [tr[1]] && [tr[1]][1..] == [];
    var m := Apply(s, tr[0]);
    assert Enabled(m, tr[1]);
    assert LegalRun(m, [tr[1]]);
    assert Run(m, [tr[1]]) == Apply(m, tr[1]);
  }

  lemma ReturnIsTwoSteps(s: Sys, id: string, newId: string, code: string, description: string, day: int, now: string)
    requires Coherent(s) && s.held.Free? && TakenBack(s, id).Some? && newId != ""
    ensures var k, tr := TakenBack(s, id).value, [TakeBack(id, true, day), FinishReturn(newId, code, description, now)];
            var p := s.core.objs[k];
            && LegalRun(s, tr)
            && Run(s, tr) == s.(core := ReturnCore(s.core, k, newId, code, description, now),
                                book := Moved(s.book, p.toId, p.fromId, Cents(p), day),
                                tasks := s.tasks + [Arriving])
  {
    hide Money.Parse, Posted, Moved, Refusal, ReturnCore;
    var tr := [TakeBack(id, true, day), FinishReturn(newId, code, description, now)];
    assert tr[1..] == [tr[1]] && [tr[1]][1..] == [];
    var m := Apply(s, tr[0]);
    assert Enabled(m, tr[1]);
    assert LegalRun(m, [tr[1]]);
    assert Run(m, [tr[1]]) == Apply(m, tr[1]);
  }

  lemma CreditIncomingIsTwoSteps(s: Sys, l: Landing, newId: string, day: int, now: string)
    requires Coherent(s) && s.held.Free? && s.landing == [] && newId != ""
    requires Money.Parse(l.amount).Some? && l.toId in s.book
    ensures var tr := [Land(l, day), Record(0, newId, now)];
            && LegalRun(s, tr)
            && Run(s, tr) == s.(core := RecordCore(s.core, newId, l.toId, l.currency, l.amount, l.reference, now),
                                book := Credited(s.book, l.toId, LandingCents(l), day),
                                tasks := s.tasks + [Arriving])
  {
    hide Money.Parse, Posted, Credited, RecordCore;
    var tr := [Land(l, day), Record(0, newId, now)];
    assert tr[1..] == [tr[1]] && [tr[1]][1..] == [];
    var m := Apply(s, tr[0]);
    assert Enabled(m, tr[1]);
    assert LegalRun(m, [tr[1]]);
    assert Run(m, [tr[1]]) == Apply(m, tr[1]);
    assert m.landing[..0] + m.landing[1..] == [];
  }
}
