/** internal/bankingcircle/delivery.go: the retry schedule, and how one batch ends on it. */
module Delivery {
  import opened Text

  datatype RetryStep = RetryStep(after: int, email: string)

  datatype Config = Config(
    schedule: seq<RetryStep>, deactivateAfterRetries: int, batchFlushInterval: int,
    defaultMaxNotificationsPerMessage: int, requestTimeout: int)

  const DEFAULT_NOTIFICATIONS_PER_MESSAGE: int := 1000

  /** DeliveryConfig.Wait: the unscaled delay before retry n, if there is such a retry. */
  function Wait(c: Config, n: int): Option<int> {
    if n < 1 || n > |c.schedule| || n > c.deactivateAfterRetries then None
    else Some(c.schedule[n - 1].after)
  }

  function EmailFor(c: Config, n: int): string {
    if n < 1 || n > |c.schedule| then "" else c.schedule[n - 1].email
  }

  /** How many retries the schedule really has. */
  function Retries(c: Config): nat {
    if c.deactivateAfterRetries < 0 then 0
    else if c.deactivateAfterRetries < |c.schedule| then c.deactivateAfterRetries
    else |c.schedule|
  }

  lemma WaitExistsIff(c: Config, n: int)
    ensures Wait(c, n).Some? <==> 1 <= n <= Retries(c)
  {
  }

  /** The clamping at the end of LoadDeliveryConfig. */
  method Clamp(c: Config) returns (r: Config)
    ensures r.schedule == c.schedule && r.defaultMaxNotificationsPerMessage == c.defaultMaxNotificationsPerMessage
    ensures r.deactivateAfterRetries == Retries(r)
    ensures 1 <= c.deactivateAfterRetries <= |c.schedule| ==> r.deactivateAfterRetries == c.deactivateAfterRetries
    ensures !(1 <= c.deactivateAfterRetries <= |c.schedule|) ==> Retries(r) == |r.schedule|
    ensures r.batchFlushInterval == (if c.batchFlushInterval <= 0 then 2 else c.batchFlushInterval) > 0
    ensures r.requestTimeout == (if c.requestTimeout <= 0 then 10 else c.requestTimeout) > 0
  {
    r := c;
    if r.deactivateAfterRetries <= 0 || r.deactivateAfterRetries > |r.schedule| {
      r := r.(deactivateAfterRetries := |r.schedule|);
    }
    if r.batchFlushInterval <= 0 {
      r := r.(batchFlushInterval := 2);
    }
    if r.requestTimeout <= 0 {
      r := r.(requestTimeout := 10);
    }
  }

  /** Dispatcher.batchSize: the subscription's setting, the configured default, the documented one. */
  function BatchSize(c: Config, max: int): (size: int)
    ensures size >= 1
    ensures max > 0 ==> size == max
    ensures max <= 0 < c.defaultMaxNotificationsPerMessage ==> size == c.defaultMaxNotificationsPerMessage
    ensures max <= 0 && c.defaultMaxNotificationsPerMessage <= 0 ==> size == 1000
  {
    if max > 0 then max
    else if c.defaultMaxNotificationsPerMessage > 0 then c.defaultMaxNotificationsPerMessage
    else DEFAULT_NOTIFICATIONS_PER_MESSAGE
  }

  // ------------------------------------------------- the documented schedule

  /** DefaultDeliveryConfig, in seconds, at real time. */
  const DEFAULT: Config := Config(
    [RetryStep(15, ""), RetryStep(30, ""), RetryStep(60, ""), RetryStep(600, ""), RetryStep(1800, ""),
     RetryStep(3600, ""), RetryStep(7200, "warning"), RetryStep(21600, ""), RetryStep(43200, ""),
     RetryStep(86400, "warning"), RetryStep(172800, "deactivation")],
    11, 2, DEFAULT_NOTIFICATIONS_PER_MESSAGE, 10)

  /** The row of the schedule with its number says how long a retry waits and which email goes with it; the limit cuts
      waits off, and not emails. */
  lemma ScheduleMeaning(c: Config, n: int)
    ensures 1 <= n <= |c.schedule| ==> EmailFor(c, n) == c.schedule[n - 1].email
    ensures n < 1 || n > |c.schedule| ==> EmailFor(c, n) == ""
    ensures 1 <= n <= |c.schedule| && n <= c.deactivateAfterRetries ==> Wait(c, n) == Some(c.schedule[n - 1].after)
    ensures n < 1 || n > |c.schedule| || n > c.deactivateAfterRetries ==> Wait(c, n) == None
  {
  }

  /** The waits before retries 1 to n, added up. */
  function Elapsed(c: Config, n: nat): int {
    if n == 0 then 0 else Elapsed(c, n - 1) + match Wait(c, n) case Some(w) => w case None => 0
  }

  /** Eleven retries; a warning with the seventh and the tenth, the deactivation with the eleventh, 48 hours after the
      tenth and 337,305 seconds after the first failure; nothing is sent with the others. */
  lemma DefaultMeaning(n: int)
    ensures Retries(DEFAULT) == 11 && (Wait(DEFAULT, n).Some? <==> 1 <= n <= 11)
    ensures EmailFor(DEFAULT, n) == if n == 7 || n == 10 then "warning" else if n == 11 then "deactivation" else ""
    ensures Wait(DEFAULT, 11) == Some(48 * 3600) && Elapsed(DEFAULT, 11) == 337_305
  {
    assert Elapsed(DEFAULT, 4) == 705;
    assert Elapsed(DEFAULT, 8) == 34_905;
  }

  /** By default, a subscriber that never answers gets twelve sends and these three emails, and is deactivated. */
  lemma DefaultExhausted(send: nat -> bool, alive: nat -> bool)
    requires forall i :: !send(i) && alive(i)
    ensures var e := EndingOf(DEFAULT, false, send, alive);
      && e == Exhausted && SendsIn(DEFAULT, e) == 12
      && Emails(DEFAULT, LastEmailed(DEFAULT, e)) ==
         [Email("warning", 7), Email("warning", 10), Email("deactivation", 11)]
  {
    EndingMeaning(DEFAULT, false, send, alive);
    assert Emails(DEFAULT, 3) == [];
    assert Emails(DEFAULT, 6) == [];
    assert Emails(DEFAULT, 9) == [Email("warning", 7)];
  }

  // ---------------------------------------------------------- one delivery

  /** How a batch handed to deliverSync ends. Attempt 0 is the initial delivery, attempt k retry k. */
  datatype Ending = Parked | Acked(attempt: nat) | Abandoned(retry: nat) | Exhausted

  /** From retry k on: send says which attempts are acknowledged, exists at which retries
      the subscription is still there. */
  function FromRetry(c: Config, k: nat, send: nat -> bool, alive: nat -> bool): Ending
    decreases |c.schedule| + 1 - k
  {
    if Wait(c, k).None? then Exhausted
    else if !alive(k) then Abandoned(k)
    else if send(k) then Acked(k)
    else FromRetry(c, k + 1, send, alive)
  }

  function EndingOf(c: Config, paused: bool, send: nat -> bool, alive: nat -> bool): Ending {
    if paused then Parked
    else if send(0) then Acked(0)
    else FromRetry(c, 1, send, alive)
  }

  function SendsIn(c: Config, e: Ending): nat {
    match e
    case Parked => 0
    case Acked(k) => k + 1
    case Abandoned(k) => k
    case Exhausted => 1 + Retries(c)
  }

  /** The retries reached alive: each sends its email before its attempt. */
  function LastEmailed(c: Config, e: Ending): nat {
    match e
    case Parked => 0
    case Acked(k) => k
    case Abandoned(k) => if k == 0 then 0 else k - 1
    case Exhausted => Retries(c)
  }

  datatype Email = Email(kind: string, attempt: nat)

  function Emails(c: Config, upTo: nat): seq<Email> {
    if upTo == 0 then []
    else Emails(c, upTo - 1) + if EmailFor(c, upTo) != "" then [Email(EmailFor(c, upTo), upTo)] else []
  }

  lemma {:induction false} FromRetryMeaning(c: Config, k: nat, send: nat -> bool, alive: nat -> bool)
    requires 1 <= k
    ensures var e := FromRetry(c, k, send, alive);
      && !e.Parked?
      && (e.Acked? ==> k <= e.attempt <= Retries(c) && send(e.attempt) && alive(e.attempt)
                       && forall i :: k <= i < e.attempt ==> alive(i) && !send(i))
      && (e.Abandoned? ==> k <= e.retry <= Retries(c) && !alive(e.retry)
                           && forall i :: k <= i < e.retry ==> alive(i) && !send(i))
      && (e.Exhausted? <==> forall i :: k <= i <= Retries(c) ==> alive(i) && !send(i))
    decreases |c.schedule| + 1 - k
  {
    WaitExistsIff(c, k);
    if Wait(c, k).Some? && alive(k) && !send(k) {
      FromRetryMeaning(c, k + 1, send, alive);
    }
  }

  /** It stops at the first success; it makes at most one send and one per retry; and it gives up
      exactly when it was not parked, every attempt failed and the subscription was there throughout. */
  lemma EndingMeaning(c: Config, paused: bool, send: nat -> bool, alive: nat -> bool)
    ensures var e := EndingOf(c, paused, send, alive);
      && SendsIn(c, e) <= 1 + Retries(c)
      && (e.Parked? <==> paused)
      && (e.Acked? ==> send(e.attempt) && forall i :: 0 <= i < e.attempt ==> !send(i))
      && (e.Abandoned? ==> 1 <= e.retry && !alive(e.retry) && forall i :: 0 <= i < e.retry ==> !send(i))
      && (e.Exhausted? <==> && !paused
                            && (forall i :: 0 <= i <= Retries(c) ==> !send(i))
                            && (forall i :: 1 <= i <= Retries(c) ==> alive(i)))
  {
    FromRetryMeaning(c, 1, send, alive);
  }

  lemma {:induction false} EmailedIff(c: Config, upTo: nat, kind: string, attempt: nat)
    ensures Email(kind, attempt) in Emails(c, upTo)
            <==> 1 <= attempt <= upTo && kind != "" && kind == EmailFor(c, attempt)
  {
    if upTo > 0 {
      EmailedIff(c, upTo - 1, kind, attempt);
    }
  }

  /** Emails go out before the attempt they accompany: when only the last retry succeeds, its email
      has been sent although the batch is delivered and nobody is deactivated. */
  lemma LastEmailPrecedesSuccess(c: Config, send: nat -> bool, alive: nat -> bool)
    requires Retries(c) >= 1 && EmailFor(c, Retries(c)) == "deactivation"
    requires forall i :: 0 <= i < Retries(c) ==> !send(i)
    requires send(Retries(c)) && forall i :: 1 <= i <= Retries(c) ==> alive(i)
    ensures var e := EndingOf(c, false, send, alive);
            e == Acked(Retries(c)) && Email("deactivation", Retries(c)) in Emails(c, LastEmailed(c, e))
  {
    EndingMeaning(c, false, send, alive);
    FromRetryMeaning(c, 1, send, alive);
    EmailedIff(c, Retries(c), "deactivation", Retries(c));
  }

  /** Retry n is reached: nothing was parked, everything before it failed, and the subscription was still there. */
  ghost predicate Reached(paused: bool, send: nat -> bool, alive: nat -> bool, n: nat) {
    && !paused
    && (forall i :: 0 <= i < n ==> !send(i))
    && (forall i :: 1 <= i <= n ==> alive(i))
  }

  lemma EmailedUpTo(c: Config, paused: bool, send: nat -> bool, alive: nat -> bool, n: nat)
    requires 1 <= n
    ensures n <= LastEmailed(c, EndingOf(c, paused, send, alive))
      <==> n <= Retries(c) && Reached(paused, send, alive, n)
  {
    EndingMeaning(c, paused, send, alive);
    FromRetryMeaning(c, 1, send, alive);
  }

  /** Which emails a delivery sends, for any configuration: exactly those of the retries reached. */
  lemma EmailSentIff(c: Config, paused: bool, send: nat -> bool, alive: nat -> bool, kind: string, n: nat)
    ensures Email(kind, n) in Emails(c, LastEmailed(c, EndingOf(c, paused, send, alive)))
      <==> 1 <= n <= Retries(c) && kind != "" && kind == EmailFor(c, n) && Reached(paused, send, alive, n)
  {
    EmailedIff(c, LastEmailed(c, EndingOf(c, paused, send, alive)), kind, n);
    if n >= 1 {
      EmailedUpTo(c, paused, send, alive, n);
    }
  }

  ghost predicate Sent(c: Config, e: Ending, kind: string) {
    exists n :: Email(kind, n) in Emails(c, LastEmailed(c, e))
  }

  /** With the deactivation email on the last retry and there alone, as by default: it goes out without a deactivation
      if and only if every send failed but that last one, to a subscription that was there throughout. */
  lemma EmailWithoutDeactivationIff(c: Config, paused: bool, send: nat -> bool, alive: nat -> bool)
    requires EmailFor(c, Retries(c)) == "deactivation"
    requires forall n :: 1 <= n < Retries(c) ==> EmailFor(c, n) != "deactivation"
    ensures var e := EndingOf(c, paused, send, alive);
      Sent(c, e, "deactivation") && !e.Exhausted? <==> Reached(paused, send, alive, Retries(c)) && send(Retries(c))
  {
    var e, r := EndingOf(c, paused, send, alive), Retries(c);
    EndingMeaning(c, paused, send, alive);
    EmailSentIff(c, paused, send, alive, "deactivation", r);
    if n :| Email("deactivation", n) in Emails(c, LastEmailed(c, e)) {
      EmailSentIff(c, paused, send, alive, "deactivation", n);
      assert n == r;
    }
  }

  /** And the other way round: a deactivation comes with its email if and only if some retry within the limit has it. */
  lemma DeactivationEmailIff(c: Config, paused: bool, send: nat -> bool, alive: nat -> bool)
    requires EndingOf(c, paused, send, alive).Exhausted?
    ensures Sent(c, EndingOf(c, paused, send, alive), "deactivation")
      <==> exists n :: 1 <= n <= Retries(c) && EmailFor(c, n) == "deactivation"
  {
    var e := EndingOf(c, paused, send, alive);
    EndingMeaning(c, paused, send, alive);
    if n :| 1 <= n <= Retries(c) && EmailFor(c, n) == "deactivation" {
      EmailSentIff(c, paused, send, alive, "deactivation", n);
    }
    if n :| Email("deactivation", n) in Emails(c, LastEmailed(c, e)) {
      EmailSentIff(c, paused, send, alive, "deactivation", n);
    }
  }

  /** A limit below the length of a schedule whose last step alone has the email: deactivated without a word. */
  lemma LowLimitIsSilent(c: Config, paused: bool, send: nat -> bool, alive: nat -> bool)
    requires 0 <= c.deactivateAfterRetries < |c.schedule|
    requires forall n :: 1 <= n < |c.schedule| ==> EmailFor(c, n) != "deactivation"
    requires EndingOf(c, paused, send, alive).Exhausted?
    ensures !Sent(c, EndingOf(c, paused, send, alive), "deactivation")
  {
    hide EndingOf, EmailFor;
    DeactivationEmailIff(c, paused, send, alive);
  }
}
