/** internal/bankingcircle/payment.go: payment records and what each critical section does to them. */
module Payments {
  import opened Text
  import opened Ledger
  import Money

  /** The notification types the engine ever fires, kept as the payment's state. */
  datatype PState =
    | OutBooked | OutProcessed | OutRejected | MissingFunding | Reversed
    | InBooked | InProcessed

  datatype Outcome = Rejected | Pending

  datatype Payment = Payment(
    id: string, settlementId: string, fromId: string, toId: string,
    amount: string, currency: string, reference: string, referenceNumber: string,
    processedAt: string, reversedAt: string, reversalReason: string,
    returnedBy: string, isReturn: bool, returnOf: string, returnedReference: string,
    returnReasonCode: string, returnReasonDescription: string, remittance: seq<string>,
    state: PState, createdAt: string, updatedAt: string)

  /** Why process could not move the money. */
  datatype Failure = BadAmount | Forced | Refused(error: LedgerError)

  datatype PaymentError =
    | PaymentNotFound | InvalidState | AlreadyReturned | UnreadableAmount
    | LedgerRefused(error: LedgerError) | UnknownOutcome

  /** The fields of Engine under its mutex. A *Payment is an index into objs: goroutines hold
      such pointers, and listed (the payments map) may come to name a newer object under an id. */
  datatype Core = Core(objs: seq<Payment>, listed: map<string, nat>, forced: seq<Outcome>, refSeq: int)

  ghost predicate Closed(c: Core) {
    forall id :: id in c.listed ==> c.listed[id] < |c.objs|
  }

  /** The state in which Create is handed a payment: what createInternalPayment fills in, and nothing else. */
  predicate Plain(p: Payment) {
    && p.processedAt == "" && p.reversedAt == "" && p.reversalReason == ""
    && p.returnedBy == "" && !p.isReturn && p.returnOf == "" && p.returnedReference == ""
    && p.returnReasonCode == "" && p.returnReasonDescription == "" && p.remittance == []
  }

  // ------------------------------------------------------- reference numbers

  /** fmt.Sprintf("010F10%010d", n) */
  function RefNo(n: int): string {
    "010F10" + if n < 0 then "-" + Padded(-n, 9) else Padded(n, 10)
  }

  lemma RefNoInjective(m: nat, n: nat)
    requires RefNo(m) == RefNo(n)
    ensures m == n
  {
    assert RefNo(m)[6..] == Padded(m, 10);
    assert RefNo(n)[6..] == Padded(n, 10);
    ValueOfPadded(m, 10);
    ValueOfPadded(n, 10);
  }

  function NextRef(refSeq: int): int {
    Wrap64(refSeq + 1)
  }

  // ------------------------------------------------- what each section writes

  function Booked(p: Payment, refNo: string, now: string): Payment {
    p.(state := OutBooked, createdAt := now, updatedAt := now, referenceNumber := refNo)
  }

  /** process, second half: the state follows from how the ledger move went. */
  function Marked(p: Payment, f: Option<Failure>, now: string): Payment {
    match f
    case None => p.(state := OutProcessed, processedAt := now, updatedAt := now)
    case Some(Refused(InsufficientFunds)) => p.(state := MissingFunding, updatedAt := now)
    case Some(_) => p.(state := OutRejected, updatedAt := now)
  }

  function NonEmpty(line: string): seq<string> {
    if line == "" then [] else [line]
  }

  function Incoming(id: string, toId: string, currency: string, amount: string, reference: string,
                    refNo: string, now: string): Payment {
    Payment(id, "", "external_worldline", toId, amount, currency, reference, refNo,
            "", "", "", "", false, "", "", "", "", NonEmpty(reference), InBooked, now, now)
  }

  function Settled(p: Payment, now: string): Payment {
    p.(state := InProcessed, updatedAt := now, processedAt := now)
  }

  function ReversedPay(p: Payment, reason: string, now: string): Payment {
    p.(state := Reversed, reversalReason := reason, reversedAt := now, updatedAt := now)
  }

  function ReturnRemittance(reference: string, code: string, description: string): seq<string> {
    var reason := TrimSpace(code + " " + description);
    ["RETURN OF PAYMENT", reference] + NonEmpty(reason)
  }

  function ReturnPay(orig: Payment, id: string, code: string, description: string, refNo: string,
                     now: string): Payment {
    Payment(id, "", orig.toId, orig.fromId, orig.amount, orig.currency, "", refNo,
            "", "", "", "", true, orig.id, orig.referenceNumber, code, description,
            ReturnRemittance(orig.referenceNumber, code, description), InBooked, now, now)
  }

  function Append(c: Core, p: Payment): Core {
    c.(objs := c.objs + [p], listed := c.listed[p.id := |c.objs|], refSeq := NextRef(c.refSeq))
  }

  function CreateCore(c: Core, p: Payment, now: string): Core {
    Append(c, Booked(p, RefNo(NextRef(c.refSeq)), now))
      .(forced := if c.forced == [] then [] else c.forced[1..])
  }

  function NextOutcome(c: Core): Option<Outcome> {
    if c.forced == [] then None else Some(c.forced[0])
  }

  function RecordCore(c: Core, id: string, toId: string, currency: string, amount: string, reference: string,
                      now: string): Core {
    Append(c, Incoming(id, toId, currency, amount, reference, RefNo(NextRef(c.refSeq)), now))
  }

  function ReturnCore(c: Core, k: nat, id: string, code: string, description: string, now: string): Core
    requires k < |c.objs|
  {
    Append(c.(objs := c.objs[k := c.objs[k].(returnedBy := id)]),
           ReturnPay(c.objs[k], id, code, description, RefNo(NextRef(c.refSeq)), now))
  }

  /** The checks Reverse and Return share, in order. */
  function TakeBackCheck(c: Core, id: string): (r: Result<nat, PaymentError>)
    requires Closed(c)
    ensures r.Ok? ==> r.value < |c.objs|
  {
    if id !in c.listed then Err(PaymentNotFound)
    else
      var p := c.objs[c.listed[id]];
      if p.state != OutProcessed then Err(InvalidState)
      else if p.returnedBy != "" then Err(AlreadyReturned)
      else if Money.Parse(p.amount).None? then Err(UnreadableAmount)
      else Ok(c.listed[id])
  }

  function Cents(p: Payment): int {
    match Money.Parse(p.amount)
    case Some(c) => c
    case None => 0
  }

  /** The handlers store an amount as they print what they read: the engine moves exactly those cents. */
  lemma CentsAccepted(text: string, p: Payment)
    requires Money.Parse(text).Some? && p.amount == Money.Format(Money.Parse(text).value)
    ensures Cents(p) == Money.Parse(text).value
  {
    hide Money.Parse, Money.Format;
    Money.Normalised(text);
  }

  /** process, first half: whether the move is attempted, and with what result. */
  function Attempt(b: Book, p: Payment, outcome: Option<Outcome>): Option<Failure> {
    if outcome == Some(Rejected) then Some(Forced)
    else if Money.Parse(p.amount).None? then Some(BadAmount)
    else
      match Refusal(b, p.fromId, p.toId, Cents(p))
      case Some(e) => Some(Refused(e))
      case None => None
  }

  function Attempted(b: Book, p: Payment, outcome: Option<Outcome>, day: int): Book {
    if Attempt(b, p, outcome).None? then Moved(b, p.fromId, p.toId, Cents(p), day) else b
  }
}
