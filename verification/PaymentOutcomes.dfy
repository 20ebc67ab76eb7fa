/** What the payment engine's calls leave on the record, told from the order, the balances before and the arguments. */
module PaymentOutcomes {
  import opened Text
  import opened Ledger
  import opened Payments
  import opened PaymentRuns
  import Money

  // ------------------------------------------------------------ the ledger

  /** Why the ledger refuses a move, and in which order it looks. */
  lemma RefusalMeaning(b: Book, from: string, to: string, cents: int)
    ensures Refusal(b, from, to, cents) == Some(SameAccount) <==> from == to
    ensures Refusal(b, from, to, cents) == Some(AccountNotFound) <==> from != to && (from !in b || to !in b)
    ensures Refusal(b, from, to, cents) == Some(InsufficientFunds)
      <==> from != to && from in b && to in b && b[from].cents < cents
    ensures Refusal(b, from, to, cents) == None
      <==> from != to && from in b && to in b && b[from].cents >= cents
  {
  }

  // -------------------------------------------------------------- process

  /** The amount can be read and names a move between two different, existing accounts. */
  predicate Payable(b: Book, p: Payment) {
    Money.Parse(p.amount).Some? && p.fromId != p.toId && p.fromId in b && p.toId in b
  }

  /** And the debtor has it. */
  predicate Affordable(b: Book, p: Payment) {
    Payable(b, p) && b[p.fromId].cents >= Money.Parse(p.amount).value
  }

  /** q is p after process, with the balances of b and this forced outcome at the time of its move. */
  predicate ProcessedAs(b: Book, p: Payment, outcome: Option<Outcome>, now: string, q: Payment) {
    && (q.state == OutProcessed <==> outcome.None? && Affordable(b, p))
    && (q.state == MissingFunding <==> outcome.None? && Payable(b, p) && !Affordable(b, p))
    && (q.state == OutRejected <==> outcome == Some(Rejected) || !Payable(b, p))
    && (q.state == OutProcessed || q.state == MissingFunding || q.state == OutRejected)
    && q.updatedAt == now && q.processedAt == (if q.state == OutProcessed then now else p.processedAt)
    && p == q.(state := p.state, updatedAt := p.updatedAt, processedAt := p.processedAt)
  }

  /** Which state a payout ends in: processed, short of funds, or rejected. */
  lemma ProcessMeaning(b: Book, p: Payment, outcome: Option<Outcome>, now: string)
    requires outcome != Some(Pending)
    ensures ProcessedAs(b, p, outcome, now, Marked(p, Attempt(b, p, outcome), now))
  {
    hide Money.Parse;
    match outcome {
      case None =>
      case Some(Rejected) =>
      case Some(Pending) =>
    }
    if Money.Parse(p.amount).Some? {
      RefusalMeaning(b, p.fromId, p.toId, Cents(p));
    }
  }

  /** The money moves exactly when the payout is processed. */
  lemma ProcessMoves(b: Book, p: Payment, outcome: Option<Outcome>, day: int, a: string)
    requires WellKept(b) && outcome != Some(Pending)
    ensures var b' := Attempted(b, p, outcome, day);
      && b'.Keys == b.Keys
      && (!(outcome.None? && Affordable(b, p)) ==> b' == b)
      && (outcome.None? && Affordable(b, p) ==>
            Balance(b', a) == if a == p.fromId then Wrap64(Balance(b, a) - Money.Parse(p.amount).value)
                              else if a == p.toId then Wrap64(Balance(b, a) + Money.Parse(p.amount).value)
                              else Balance(b, a))
  {
    hide Money.Parse, Wrap64, Posted;
    match outcome {
      case None =>
      case Some(Rejected) =>
      case Some(Pending) =>
    }
    if Money.Parse(p.amount).Some? {
      RefusalMeaning(b, p.fromId, p.toId, Cents(p));
      MovedBalance(b, p.fromId, p.toId, Cents(p), day, a);
    }
  }

  // ----------------------------------------- process, between other calls

  lemma OtherStep(s: Sys, st: Step, k: nat)
    requires Coherent(s) && Enabled(s, st) && k < |s.core.objs| && s.tasks[k].Tried?
    requires !(st.Mark? && st.k == k)
    ensures var s' := Apply(s, st);
      k < |s'.core.objs| == |s'.tasks| && s'.core.objs[k] == s.core.objs[k] && s'.tasks[k] == s.tasks[k]
  {
    hide Money.Parse, RefNo, ReturnRemittance, Posted, Moved, Credited, Refusal, Wrap64;
    assert Fits(s.core.objs[k], s.tasks[k]);
    StepCoherent(s, st);
  }

  /** Until its own goroutine records the move, nothing touches the payment. */
  lemma {:induction false} TriedStays(s: Sys, tr: seq<Step>, k: nat)
    requires Coherent(s) && LegalRun(s, tr) && k < |s.core.objs| && s.tasks[k].Tried?
    requires forall i :: 0 <= i < |tr| ==> !(tr[i].Mark? && tr[i].k == k)
    ensures var e := Run(s, tr);
      && Coherent(e) && k < |e.core.objs| == |e.tasks|
      && e.core.objs[k] == s.core.objs[k] && e.tasks[k] == s.tasks[k]
    decreases |tr|
  {
    hide Apply, Enabled, Fits;
    if tr != [] {
      OtherStep(s, tr[0], k);
      StepCoherent(s, tr[0]);
      TriedStays(Apply(s, tr[0]), tr[1..], k);
    }
  }

  /** Over any run, what a payout ends as is decided by the balances at its ledger move, whatever happens between that
      move and its record. */
  lemma DecidedAtTheMove(s: Sys, k: nat, day: int, tr: seq<Step>, now: string)
    requires Coherent(s) && Enabled(s, Move(k, day)) && s.tasks[k].outcome != Some(Pending)
    requires LegalRun(Apply(s, Move(k, day)), tr)
    requires forall i :: 0 <= i < |tr| ==> !(tr[i].Mark? && tr[i].k == k)
    requires Enabled(Run(Apply(s, Move(k, day)), tr), Mark(k, now))
    ensures var e := Apply(Run(Apply(s, Move(k, day)), tr), Mark(k, now));
      k < |e.core.objs| && ProcessedAs(s.book, s.core.objs[k], s.tasks[k].outcome, now, e.core.objs[k])
  {
    hide Money.Parse, Posted, Moved, Attempt, Attempted, ProcessedAs, Marked, LegalRun, Run;
    StepCoherent(s, Move(k, day));
    TriedStays(Apply(s, Move(k, day)), tr, k);
    ProcessMeaning(s.book, s.core.objs[k], s.tasks[k].outcome, now);
  }

  /** A payment forced to stay pending is never moved: its goroutine ends with it booked. */
  lemma PendingStaysBooked(s: Sys, k: nat, day: int)
    requires Coherent(s) && Enabled(s, Move(k, day)) && s.tasks[k].outcome == Some(Pending)
    ensures var s' := Apply(s, Move(k, day));
      && s'.book == s.book && s'.core == s.core && s'.tasks == s.tasks[k := Idle] && s.core.objs[k].state == OutBooked
  {
    assert Fits(s.core.objs[k], s.tasks[k]);
  }

  // ------------------------------------------------------ forced outcomes

  /** The forced outcome a step hands to the goroutine of the payment it creates, if any. */
  ghost function TakenBy(s: Sys, st: Step): seq<Outcome>
    requires Enabled(s, st)
  {
    var t := Apply(s, st).tasks;
    if st.Create? && |t| > 0 && t[|t| - 1].Starting? && t[|t| - 1].outcome.Some? then [t[|t| - 1].outcome.value] else []
  }

  /** The forced outcomes handed to the payments a run creates, in order. */
  ghost function Taken(s: Sys, tr: seq<Step>): seq<Outcome>
    requires LegalRun(s, tr)
    decreases |tr|
  {
    if tr == [] then [] else TakenBy(s, tr[0]) + Taken(Apply(s, tr[0]), tr[1..])
  }

  function QueuedBy(st: Step): seq<Outcome> {
    if st.ForceNext? then st.outcomes else []
  }

  /** The outcomes a run queues, in order. */
  function Queued(tr: seq<Step>): seq<Outcome> {
    if tr == [] then [] else QueuedBy(tr[0]) + Queued(tr[1..])
  }

  /** A step takes from the front of the queue and adds at its end, never both. */
  lemma StepForced(s: Sys, st: Step)
    requires Enabled(s, st)
    ensures TakenBy(s, st) + Apply(s, st).core.forced == s.core.forced + QueuedBy(st)
    ensures TakenBy(s, st) == [] || QueuedBy(st) == []
    ensures st.Create? && s.core.forced != [] ==> |TakenBy(s, st)| == 1
  {
    hide Money.Parse, RefNo, ReturnRemittance, Posted, Moved, Credited, Refusal, Wrap64, Attempt, Attempted;
  }

  /** First in, first out: over any run, the outcomes taken and those still queued are those that were queued before and
      during it, in that order. */
  lemma {:induction false} ForcedInOrder(s: Sys, tr: seq<Step>)
    requires LegalRun(s, tr)
    ensures Taken(s, tr) + Run(s, tr).core.forced == s.core.forced + Queued(tr)
    decreases |tr|
  {
    hide Apply, Enabled, TakenBy, QueuedBy;
    if tr != [] {
      var s' := Apply(s, tr[0]);
      StepForced(s, tr[0]);
      ForcedInOrder(s', tr[1..]);
      Regroup(TakenBy(s, tr[0]), Taken(s', tr[1..]), Run(s', tr[1..]).core.forced);
      Regroup(TakenBy(s, tr[0]), s'.core.forced, Queued(tr[1..]));
      Regroup(s.core.forced, QueuedBy(tr[0]), Queued(tr[1..]));
    }
  }

  lemma Regroup<T>(a: seq<T>, b: seq<T>, c: seq<T>)
    ensures (a + b) + c == a + (b + c)
  {
  }

  // ----------------------------------------------------- the other records

  /** What Create books. */
  lemma BookedMeaning(c: Core, p: Payment, now: string)
    ensures var d := CreateCore(c, p, now);
      && |d.objs| == |c.objs| + 1 && d.objs[..|c.objs|] == c.objs
      && d.objs[|c.objs|] == p.(state := OutBooked, createdAt := now, updatedAt := now,
                                referenceNumber := RefNo(Wrap64(c.refSeq + 1)))
      && d.listed == c.listed[p.id := |c.objs|] && d.refSeq == Wrap64(c.refSeq + 1)
  {
    hide RefNo, Wrap64;
  }

  /** The text of a reference number: the prefix, then the counter in ten digits or more. */
  lemma ReferenceMeaning(n: nat)
    ensures var r := RefNo(n);
      && |r| >= 16 && r[..6] == "010F10" && AllDigits(r[6..]) && Value(r[6..]) == n
      && (n < 10_000_000_000 ==> |r| == 16)
    ensures RefNo(Wrap64(0 + 1)) == "010F100000000001"
  {
    ValueOfPadded(n, 10);
    assert RefNo(n)[6..] == Padded(n, 10);
    if n < 10_000_000_000 {
      assert Pow10(10) == 10 * Pow10(9) && Pow10(9) == 1_000_000_000 by {
        assert Pow10(5) == 100_000;
      }
      DigitsFit(n, 10);
    }
    assert Padded(1, 10) == Zeros(9) + "1" == "0000000001";
  }

  /** The refusals Reverse and Return share, and their order. */
  lemma TakeBackMeaning(c: Core, id: string)
    requires Closed(c)
    ensures var r := TakeBackCheck(c, id);
      && (r == Err(PaymentNotFound) <==> id !in c.listed)
      && (id in c.listed ==>
            var p := c.objs[c.listed[id]];
            var free := p.state == OutProcessed && p.returnedBy == "";
            && (r == Err(InvalidState) <==> p.state != OutProcessed)
            && (r == Err(AlreadyReturned) <==> p.state == OutProcessed && p.returnedBy != "")
            && (r == Err(UnreadableAmount) <==> free && Money.Parse(p.amount).None?)
            && (r == Ok(c.listed[id]) <==> free && Money.Parse(p.amount).Some?))
  {
    hide Money.Parse;
  }

  /** What a reversal, an arrival and its settlement write. */
  lemma ReversedMeaning(p: Payment, reason: string, now: string)
    ensures ReversedPay(p, reason, now) ==
      p.(state := Reversed, reversalReason := reason, reversedAt := now, updatedAt := now)
    ensures Settled(p, now) == p.(state := InProcessed, updatedAt := now, processedAt := now)
  {
  }

  lemma IncomingMeaning(c: Core, id: string, toId: string, currency: string, amount: string, reference: string,
                        now: string)
    ensures var d := RecordCore(c, id, toId, currency, amount, reference, now);
      && |d.objs| == |c.objs| + 1 && d.objs[..|c.objs|] == c.objs && d.listed == c.listed[id := |c.objs|]
      && var q := d.objs[|c.objs|];
         && q.id == id && q.toId == toId && q.currency == currency && q.amount == amount && q.reference == reference
         && q.fromId == "external_worldline" && q.state == InBooked && !q.isReturn
         && q.createdAt == now && q.updatedAt == now && q.processedAt == "" && q.returnedBy == ""
         && q.referenceNumber == RefNo(Wrap64(c.refSeq + 1))
         && q.remittance == if reference == "" then [] else [reference]
  {
    hide RefNo, Wrap64;
  }

  /** The return of a payout, field by field. */
  lemma ReturnedMeaning(c: Core, k: nat, id: string, code: string, description: string, now: string)
    requires k < |c.objs|
    ensures var o, d := c.objs[k], ReturnCore(c, k, id, code, description, now);
      && |d.objs| == |c.objs| + 1 && d.objs[..|c.objs|] == c.objs[k := o.(returnedBy := id)]
      && d.listed == c.listed[id := |c.objs|]
      && var q := d.objs[|c.objs|];
         && q.id == id && q.fromId == o.toId && q.toId == o.fromId && q.amount == o.amount && q.currency == o.currency
         && q.state == InBooked && q.isReturn && q.returnOf == o.id && q.returnedReference == o.referenceNumber
         && q.returnReasonCode == code && q.returnReasonDescription == description
         && q.createdAt == now && q.updatedAt == now && q.processedAt == "" && q.returnedBy == ""
         && q.referenceNumber == RefNo(Wrap64(c.refSeq + 1))
         && q.remittance == ["RETURN OF PAYMENT", o.referenceNumber]
              + if TrimSpace(code + " " + description) == "" then [] else [TrimSpace(code + " " + description)]
  {
    hide RefNo, Wrap64, TrimSpace;
  }
}
