# Verification of the payment lab

A Dafny model of the settlement and payment simulators in this repository, with proofs of what they keep. Amounts are
int64 minor units with their wrap-around written out; strings are sequences of characters; clock readings, ids, hash
values and the answers of remote services are inputs. `dafny verify dfyconfig.toml` checks everything.

Two forms stand side by side. Classes (`LedgerStore`, `Engine`, `Dispatcher`, `SubscriptionStore`, `Directory`,
`BeneficiaryStore`, the payout `Engine`, `SettlementApp`) have the fields the source updates in place; each method is
proved equal to a function on values. Over the same functions, step systems describe every interleaving of the
critical sections, and the main results quantify over all of their runs. Beside each specification function stands a
lemma that says what it comes to without naming it, in terms of the arguments and the state before: who receives an
event, which lines a report lists, how a payout ends, what a record carries of its request.

**Banking Circle engine and ledger** (`Ledger`, `Payments`, `PaymentRuns`, `PaymentLaws`, `PaymentHistory`,
`PaymentListing`, `PaymentOutcomes`, `PaymentEngine`). The ledger move and the payment record are written under
different locks, so a run interleaves Create, Move, Mark, Land, Record, Settle, TakeBack and the two Finish steps. A
payment is a pointer: the map may come to name a newer object under an id while a goroutine still holds the old one.
How a payout ends is decided by its order and the balances at its ledger move, whatever runs before it is recorded. At
all times each balance is the replay of all records plus the moves in flight: modulo 2^64 for any amounts and any ids,
exactly for positive ones, and then no balance is negative and all of them add up to the outside credits. A payout's
money comes back at most once; returns and returned payouts are in bijection; reference numbers never repeat. The
payments that are *listed* replay the ledger while ids are fresh. An id used again (internal callers choose it,
cmd/bankingcircle/main.go:864) displaces a payment: over any run the listing falls short by exactly the displaced
payments, and `PaymentListing` says, for everything that may still happen, which displacements never show.

**Reconciliation** (`Reports`, `ReportLaws`, `ReportMoney`, `ReportMeaning`, `Rejections`, `BusinessDay`, `Sorting`).
The report is canonical, its pages and date ranges partition it, and its lines sum to the ledger balance for every
account no payout is made to, reversals and returns included; for any other account the difference is named, and is
what that account received by payouts and sent back by returns. A payment is in exactly one of a day's two reports on
an exact condition. The business day is the first working day from the 19:00 cutoff; it never goes back exactly when
no set-back of the clock crosses 19:00 into a working day.

**Notifications** (`Delivery`, `Dispatcher.dfy` with module `Dispatching`, `DispatchRuns`, `DispatchLaws`,
`DispatchPause`, `DispatchCalls`). Every notification is in exactly one of batch queue, in flight, parked, retained,
acknowledged or dropped, under any interleaving of enqueue, timers, retries, pause, resume, activation and deletion;
nothing retained is stranded; parked ones are released in order of arrival. Each call on its own is a run of its
critical sections. A pause holds back everything but the batches already past its check.

**Subscriptions** (`RowVersions`, `Subscriptions`, `SubscriptionLaws`, `SubscriptionHistory`, `SubscriptionSeen`,
`SubscriptionMeaning`). Two indexes over the same events, unique endpoints, one event per type, and If-Match guards
(section 13.1.1 of RFC 9110) with base64 counters (section 4 of RFC 4648): at most one guarded write per token, ever,
and exactly when such a write can go over a state its client has not read.

**B4B** (`Boarding`, `BoardingLaws`, `BoardingRequests`, `BoardingRestarts`, `Snapshots`, `Beneficiaries`, `Payout`,
`PayoutRuns`, `PayoutBridge`). The boarding directory and the payout walk under two-phase calls, snapshots written
late or out of order, and any number of restarts: what always holds, that every company carries the request that made
it, and exactly when a restart loses nothing. The quantity kept for payouts is a payment's story: what its client has
heard followed by what it will still hear. How often a payout is bridged, which moves the money, follows.

**Amount text and the settlement cycle** (`Money`, `Cycle`, `Text`). Every int64 survives printing and parsing, so the
cents credited for a morning lump sum are the total of the published files.

Where a comment in the source and its code differ, the code is modelled:

- internal/b4b/state.go:123-124 says Restore replaces what is there; it merges
  (`BoardingRestarts.RestoreReplacesIff`).
- cmd/b4b/main.go:127-130 promises that a company outlives a restart, and internal/b4b/state.go:18-22 that a profile
  does; each mutator unlocks before it persists, so both do if and only if the file had them by then
  (`BoardingRestarts.RestartEnduresIff`, `BoardingRestarts.SecondProfileIff`).
- internal/b4b/state.go:194-196 says only transitions that had not happened are fired again; a payment saved between a
  state and its notification, which is where cmd/b4b/payments.go:215-216 saves, loses that notification
  (`PayoutRuns.CrashInTheGap`), and a file older than the last notification repeats some (`PayoutRuns.CrashStory`).
- internal/bankingcircle/reports.go:9-15 wants the report to agree with the notifications, so that it can be trusted
  for what booked; whether its lines agree with the money is `ReportMoney.LinesAgreeWithLedger`.
- internal/bankingcircle/reports.go:27-31 says every payment not pending is in exactly one report of its day; one
  processed on a later business day is in neither (`Rejections.OneReportIff`).
- internal/bankingcircle/dispatcher.go:184-187 says nothing further leaves after a pause; the batches already being
  retried do (`DispatchPause.PauseHoldsIff`).
- internal/bankingcircle/dispatcher.go:215-222 sends the deactivation email before an attempt that may succeed, and a
  low limit deactivates without one (`Delivery.EmailWithoutDeactivationIff`, `Delivery.DeactivationEmailIff`).
- internal/bankingcircle/subscription.go:326-350 can leave fields written by an update that is answered with an error
  (`SubscriptionHistory.RefusedUpdateChangesNothingIff`).
- internal/bankingcircle/subscription.go:359-361 says a client that has not read the current state cannot write over
  it; after a refused Update it can (`SubscriptionSeen.WritesOverWhatWasReadIff`, `SubscriptionSeen.WrittenUnseen`).

## Model

| member | source | states |
|---|---|---|
| Money.RoundTrip | internal/money/money.go:10-54 | Printing any int64 of minor units and parsing the text gives the amount back, the least int64 included although its negation wraps |
| Money.FormatInjective | internal/money/money.go:47-54 | Two amounts print alike exactly when they are equal |
| Money.MinorRoundTrip | cmd/worldline/cycle.go:173-179 | The acquirer's printer agrees with the bank's on every int64, and the bank's parser reads its text back exactly |
| Money.Normalised | internal/money/money.go:10-54 | Parsing, printing and parsing again, as the handlers do, keeps the value of every accepted text, odd ones included |
| Money.ParsePlain | internal/money/money.go:20-45 | A plain decimal is read as whole*100+cents modulo 2^64; a non-negative one is read exactly if and only if that fits an int64 |
| Money.SignedFractionAccepted | internal/money/money.go:33-40 | The parser accepts a signed fraction after any whole part, and subtracts it |
| Ledger.LedgerStore.constructor | internal/bankingcircle/ledger.go:91-102 | A new ledger holds exactly the seeded accounts, each under its id, and each virtual IBAN leads to an account that has it |
| Ledger.LedgerStore.Get | internal/bankingcircle/ledger.go:105-117 | Accounts are found by id first, then by virtual IBAN: with the index sound, exactly when some account has it; an identifier unknown to both is refused |
| Ledger.LedgerStore.GetOrCreate | internal/bankingcircle/ledger.go:135-159 | A malformed id changes nothing; a well-formed one leaves existing accounts alone and opens an empty account only when there is none, indexed under its virtual IBAN |
| Ledger.LedgerStore.Move | internal/bankingcircle/ledger.go:177-202 | The three refusals in their order, each changing nothing; otherwise one debit and one credit, each remembering the day's opening first |
| Ledger.LedgerStore.Credit | internal/bankingcircle/ledger.go:208-220 | Adds to one existing account, remembering the day's opening; an unknown account is refused and nothing changes |
| Ledger.MovesKeepVibans | internal/bankingcircle/ledger.go:177-220 | Moves and credits keep the index of virtual IBANs sound |
| Ledger.MovedBalance | internal/bankingcircle/ledger.go:177-202 | What a move of any amount, of any sign, does to every balance, in wrapped arithmetic; no account appears or disappears |
| Ledger.CreditedBalance | internal/bankingcircle/ledger.go:208-220 | What a credit does to every balance, in wrapped arithmetic |
| Ledger.MoveConserves | internal/bankingcircle/ledger.go:177-202 | Between accounts without overdraft whose total fits an int64, a positive move is exact, keeps the total and overdraws nobody |
| Ledger.CreditAdds | internal/bankingcircle/ledger.go:208-220 | A positive credit raises exactly one balance, and the total, by its amount |
| Ledger.OpeningAddsNothing | internal/bankingcircle/ledger.go:135-159 | Opening an account changes no balance and no total |
| Ledger.DayAmountsSplit | internal/bankingcircle/ledger.go:42-62 | For any history of movements on any days, the two cached fields split the full log where the last unbroken stretch of that day starts |
| Ledger.IntradayExactIff | internal/bankingcircle/ledger.go:42-62 | The intraday amount is the day's net movement if and only if what moved on that day before the clock last came back to it nets to zero |
| Ledger.ClockBackForgetsMorning | internal/bankingcircle/ledger.go:42-62 | Movements on days 1, 2 and 1: the first day shows only its last movement |
| Ledger.DayAmountsRefineLog | internal/bankingcircle/ledger.go:42-62 | On a clock that never runs back: (sum of everything before the day, sum of everything on it) |
| Payments.RefNoInjective | internal/bankingcircle/payment.go:482-485 | Different counter values print as different reference numbers |
| Payments.CentsAccepted | cmd/bankingcircle/main.go:838-873 | The cents the engine moves, reverses and returns are the cents the handler read from the request |
| PaymentEngine.Engine.NextReferenceNumber | internal/bankingcircle/payment.go:482-485 | Each call takes the next counter value, int64 wrap included |
| PaymentEngine.Engine.Create | internal/bankingcircle/payment.go:172-188 | Books the payment under its id, displacing any earlier one, numbers it, and takes one forced outcome off the queue |
| PaymentEngine.Engine.ForceNext | internal/bankingcircle/payment.go:193-203 | All names valid: all are appended in order; any name invalid: the queue is unchanged |
| PaymentEngine.Engine.ProcessMove | internal/bankingcircle/payment.go:212-229 | Which of forced rejection, unreadable amount and ledger refusal stops a payout, in that order, and the ledger afterwards |
| PaymentEngine.Engine.ProcessMark | internal/bankingcircle/payment.go:230-245 | A move that went through leaves the payment processed and time-stamped, want of funds leaves it missing funding, any other failure rejected; nothing else changes |
| PaymentEngine.Engine.Process | internal/bankingcircle/payment.go:212-245 | A payment forced pending stays booked and moves nothing; any other is processed exactly when it is not forced, readable, between two existing accounts and affordable, missing funding exactly when only the money is missing, and rejected otherwise; one announcement |
| PaymentEngine.Engine.Get | internal/bankingcircle/payment.go:248-257 | The payment the id names now, or not-found |
| PaymentEngine.Engine.List | internal/bankingcircle/payment.go:260-269 | Every listed payment exactly once |
| PaymentEngine.Engine.Reverse | internal/bankingcircle/payment.go:283-318 | Every refusal in order, changing nothing; otherwise the money goes back and the payout is marked, and a booking and the reversal are announced |
| PaymentEngine.Engine.CreditIncoming | internal/bankingcircle/payment.go:337-371 | Refusals change nothing; otherwise the account is credited and one incoming payment is filed |
| PaymentEngine.Engine.ProcessIncoming | internal/bankingcircle/payment.go:375-386 | An incoming payment becomes processed |
| PaymentEngine.Engine.Return | internal/bankingcircle/payment.go:424-475 | Every refusal in order, changing nothing; otherwise the money goes back, a mirrored incoming payment is filed and the payout names it |
| PaymentEngine.ReverseIsTwoSteps | internal/bankingcircle/payment.go:283-318 | Undisturbed, a reversal is its ledger step followed by its record step |
| PaymentEngine.ReturnIsTwoSteps | internal/bankingcircle/payment.go:424-475 | Undisturbed, a return is its ledger step followed by its record step |
| PaymentEngine.CreditIncomingIsTwoSteps | internal/bankingcircle/payment.go:337-371 | Undisturbed, an incoming credit is its ledger step followed by its record step |
| PaymentOutcomes.RefusalMeaning | internal/bankingcircle/ledger.go:177-202 | Which refusal a move meets: the same account first, then an unknown one, then a balance below the amount; none exactly otherwise |
| PaymentOutcomes.ProcessMeaning | internal/bankingcircle/payment.go:212-245 | The state a payout ends in, from its order fields, the forced outcome and the balances at its move: processed, missing funding or rejected, each exactly when; what it is stamped with, and that nothing else of it changes |
| PaymentOutcomes.ProcessMoves | internal/bankingcircle/payment.go:212-229 | The balances afterwards: the payout's cents go from debtor to creditor exactly when it is processed, and nothing moves otherwise |
| PaymentOutcomes.DecidedAtTheMove | internal/bankingcircle/payment.go:212-245 | Over any run: whatever other calls do between a payout's ledger move and its record, it ends as the balances at the move decide |
| PaymentOutcomes.PendingStaysBooked | internal/bankingcircle/payment.go:212-216 | A payment forced pending is left booked, its goroutine over and the ledger untouched |
| PaymentOutcomes.ForcedInOrder | internal/bankingcircle/payment.go:172-203 | First in, first out over any run: the outcomes handed to the payments created, then those still queued, are those queued before and during the run |
| PaymentOutcomes.BookedMeaning | internal/bankingcircle/payment.go:172-188 | What Create files: the payment given, booked, numbered and stamped, at the end and under its id |
| PaymentOutcomes.ReferenceMeaning | internal/bankingcircle/payment.go:482-485 | The text of a reference number: the prefix and the counter in ten digits or more; the first payment has 010F100000000001 |
| PaymentOutcomes.TakeBackMeaning | internal/bankingcircle/payment.go:283-300 | The refusals Reverse and Return share, each exactly when, and the payment they go on with |
| PaymentOutcomes.ReversedMeaning | internal/bankingcircle/payment.go:300-318 | What a reversal and the settlement of an arrival write on the record |
| PaymentOutcomes.IncomingMeaning | internal/bankingcircle/payment.go:337-371 | The payment an incoming credit files, field by field |
| PaymentOutcomes.ReturnedMeaning | internal/bankingcircle/payment.go:404-475 | The payment a return files, field by field from the payout it returns, and the mark on that payout |
| PaymentRuns.StepCoherent | internal/bankingcircle/payment.go:212-475 | Goroutines and records stay in step: whatever still has to move or be recorded matches the state of its payment |
| PaymentRuns.DeltaIsNet | internal/bankingcircle/payment.go:212-475 | Each step changes the replay of the records plus the moves in flight by exactly the money it moves |
| PaymentRuns.DeltaIsBalance | internal/bankingcircle/payment.go:212-475 | Each step changes each balance by exactly the money it moves, modulo 2^64, and money reaches only existing accounts |
| PaymentLaws.StepAgrees | internal/bankingcircle/payment.go:172-475 | Ledger and records agree after every critical section if they did before it |
| PaymentLaws.LedgerIsReplay | internal/bankingcircle/payment.go:172-475 | For any schedule, ids and amounts: every balance is the replay of all payment records plus the moves done but not recorded, as an int64 holds it |
| PaymentLaws.LedgerIsReplayFromTheStart | internal/bankingcircle/payment.go:155-162 | In particular from a new engine |
| PaymentLaws.StepCredits | internal/bankingcircle/payment.go:337-371 | Only an incoming credit brings outside money in; recording it, reversing and returning bring none |
| PaymentLaws.StepSolvent | internal/bankingcircle/payment.go:212-475 | One step of a solvent system: no overdraft, total equal to outside credits, balances equal to the replay, exactly |
| PaymentLaws.AlwaysSolvent | internal/bankingcircle/payment.go:172-475 | Solvency holds over every run with positive amounts |
| PaymentLaws.NoMoneyMadeOrLost | internal/bankingcircle/payment.go:172-475 | From a new engine, positive amounts: every balance is exactly its replay, none is negative, and they add up to the outside credits |
| PaymentHistory.StepEdges | internal/bankingcircle/payment.go:212-475 | A step moves a payment along an allowed edge or leaves its state, and never rewrites its order fields |
| PaymentHistory.RunEdges | internal/bankingcircle/payment.go:212-475 | Over any run a payment keeps its identity and its state only moves forward along the edges |
| PaymentHistory.BackCounted | internal/bankingcircle/payment.go:283-318 | The ledger moves that took a payout's money back are counted exactly by its record |
| PaymentHistory.BackAtMostOnce | internal/bankingcircle/payment.go:424-475 | Over any run a payout's money comes back at most once, by Reverse or by Return and never both, and the record says whether |
| PaymentHistory.RunNumbered | internal/bankingcircle/payment.go:482-485 | The k-th payment ever made carries the k-th reference number |
| PaymentHistory.ReferencesDistinct | internal/bankingcircle/payment.go:482-485 | Reference numbers are pairwise distinct over every payment of a run |
| PaymentHistory.RunLinked | internal/bankingcircle/payment.go:424-475 | With fresh ids, ReturnedBy and ReturnOf point at each other everywhere, at every point of any run |
| PaymentHistory.ReturnsBijective | internal/bankingcircle/payment.go:424-475 | Returned payouts and return payments are in bijection, with swapped accounts and equal amount, currency and reference |
| PaymentHistory.ListingReplaysFreshRuns | internal/bankingcircle/payment.go:260-269 | With fresh ids, what List returns replays the ledger as all records do |
| PaymentHistory.CreateKeepsListingIff | internal/bankingcircle/payment.go:179 | At the moment of the call, a Create over an id in use keeps the listing in step if and only if the displaced payment has moved nothing yet |
| PaymentHistory.ReusedIdLosesPayout | internal/bankingcircle/payment.go:179 | A payout of 5.00 that the listing forgets when its id is used again |
| PaymentListing.BalanceIsListingAndUnlisted | internal/bankingcircle/payment.go:172-188 | Over any run, any ids: the listing falls short of the records by exactly the payments no id names any more, and the two with what is in flight make every balance |
| PaymentListing.StepHarmless | internal/bankingcircle/payment.go:212-245 | A payment that failed, was reversed, is held pending or is bound to fail stays so |
| PaymentListing.CarefulRunInStep | internal/bankingcircle/payment.go:172-188 | Ids may be used again over and over: the listing replays the ledger as long as each payment displaced is harmless at that moment |
| PaymentListing.CreateInStepForGoodIff | internal/bankingcircle/payment.go:172-188 | A Create over an id in use keeps the listing in step, whatever happens afterwards, if and only if the displaced payment is harmless: failed, reversed, pending, bound to fail, or of no weight |
| PaymentListing.MoveInFlightForgotten | internal/bankingcircle/payment.go:212-245 | A payout displaced between its ledger move and its record: in step after the Create, 5.00 short after the record |
| Reports.IntradayReconciliation | internal/bankingcircle/reports.go:172-212 | The loop, its filters and the paging give the requested page of the listing, whose lines ReportMeaning.ListingIff tells |
| ReportMeaning.ListingIff | internal/bankingcircle/reports.go:172-315 | A line is listed if and only if it is the booking or the reversal, field by field, of a payment in one of the five booked states, created in the created range, on one of the accounts asked for (trimmed, case aside) or with none asked for, and the line's own date is in the transaction range |
| ReportMeaning.ListingOrder | internal/bankingcircle/reports.go:194-208 | Lines come by time of processing, then by payment, then a booking before the reversal of the same payment |
| ReportMeaning.PageDefaults | internal/bankingcircle/reports.go:457-473 | No page size gives the whole listing, no page number the first page |
| ReportMeaning.AdjoiningCreations | internal/bankingcircle/reports.go:477-489 | Sweeps over two adjoining creation-date ranges list exactly the lines of the whole range, each once |
| ReportMeaning.RefusalMeaning | internal/bankingcircle/reports.go:336-437 | Which payments the rejection report lists, flag by flag, and the line of each, with the status text of its kind |
| ReportMeaning.RefusalReportMeaning | internal/bankingcircle/reports.go:336-383 | The whole rejection report: exactly those lines, by value date and then by reference |
| ReportLaws.RowOrderIsTotal | internal/bankingcircle/reports.go:194-208 | The report order is a total preorder, so sorting by it is meaningful |
| ReportLaws.LinesDistinguished | internal/bankingcircle/reports.go:299-321 | With distinct ids and positive amounts the order tells all lines apart, a booking from its own reversal included |
| ReportLaws.ReportIgnoresOrder | internal/bankingcircle/reports.go:172-212 | The report depends only on which payments there are, not on the order they are handed in |
| ReportLaws.ReportIsSorted | internal/bankingcircle/reports.go:172-212 | The listing is sorted and holds exactly the collected lines |
| ReportLaws.PageExactIff | internal/bankingcircle/reports.go:457-473 | A page is the slice that was meant if and only if its start fits an int64 or wraps past the end |
| ReportLaws.HugePageComesRound | internal/bankingcircle/reports.go:457-473 | Page 2^32+1 of 2^32 rows serves the first page again where nothing was meant |
| ReportLaws.SweepIsPrefix | internal/bankingcircle/reports.go:457-473 | Pages 1 to n are the first n*size rows, in order |
| ReportLaws.SweepIsReport | internal/bankingcircle/reports.go:457-473 | Walking pages until the first short one gives the whole listing, no row lost or repeated; exactly the last page is short |
| ReportLaws.RangesPartition | internal/bankingcircle/reports.go:477-489 | Adjoining date ranges split the dated lines without loss or repetition |
| ReportLaws.AdjoiningSweeps | internal/bankingcircle/reports.go:477-489 | Sweeps over two adjoining transaction-date ranges list exactly the lines of the whole range, each once |
| ReportMoney.BookingRowsNet | internal/bankingcircle/reports.go:224-315 | Credit minus debit over one payment's lines is what its state says moved; a reversed payout nets to zero |
| ReportMoney.LinesNet | internal/bankingcircle/reports.go:172-230 | A payment's lines on an account against what its record did to that account |
| ReportMoney.LinesAgreeWithLedger | internal/bankingcircle/reports.go:9-15 | With no move in flight, the lines of any account sum to its balance less what is not listed on it, hence to the balance if and only if that is zero |
| ReportMoney.CreditorReportIsShort | internal/bankingcircle/reports.go:224-230 | A run after which an account holds 5.00 from a processed payout and its report sums to nothing |
| ReportMoney.ListIsEveryPayment | internal/bankingcircle/payment.go:260-269 | With fresh ids, List hands the report every payment ever made, each once |
| ReportMoney.SafeguardingReportIsBalance | internal/bankingcircle/reports.go:9-15 | For an account no payout is made to, over any run and in any listing order, the report sums to exactly the ledger balance, reversals and returns included |
| Rejections.RejectionReport | internal/bankingcircle/reports.go:336-383 | The loop, its exclusions and the sort give the lines of the payments instructed that day that failed or are pending |
| Rejections.BookedIff | internal/bankingcircle/reports.go:172-212 | A payment is in a day's reconciliation report if and only if one of its bookings is dated that day |
| Rejections.OneReportIff | internal/bankingcircle/reports.go:27-31 | A payment instructed on a day and no longer pending is never in both reports of that day, and is in one if and only if it failed or was booked or reversed on that same business day |
| Rejections.OvernightInNeither | internal/bankingcircle/reports.go:27-31 | One processed on a later business day is in neither report of the day it was instructed |
| Rejections.CutoffPayoutInNeither | internal/bankingcircle/reports.go:27-31 | A run from the start, with the business days of the 19:00 cutoff: a payout created a second before it and processed at it is in neither report of its day, and its money has moved |
| Rejections.PendingInBoth | internal/bankingcircle/reports.go:27-31 | Over any run, a pending payment that has booked is in both |
| BusinessDay.BusinessDate | internal/bankingcircle/businessdate.go:37-56 | The cutoff test and the weekend loop end, and give the rolled cutoff-shifted local day; bare dates and unreadable text as the source treats them |
| BusinessDay.DayOfMeaning | internal/bankingcircle/businessdate.go:43-55 | From the seconds on the bank's clock: the day ends at 19:00, a Saturday counts as the Monday two days on and a Sunday as the next day, 1970-01-01 being a Thursday |
| BusinessDay.WeekendMeaning | internal/bankingcircle/businessdate.go:52-54 | Which days are Saturdays and Sundays: 1970-01-01 was a Thursday |
| BusinessDay.SeptemberWeek | internal/bankingcircle/businessdate_test.go:7-19 | The instants of 17 to 21 September 2026 on either side of 19:00 and of the weekend |
| BusinessDay.RollIsLeast | internal/bankingcircle/businessdate.go:47-55 | The result is the first day that is no weekend day, on or after the shifted day |
| BusinessDay.RollBackIff | internal/bankingcircle/businessdate.go:47-55 | Two days roll to the same business day if and only if only weekend days lie between |
| BusinessDay.NeverBackIff | internal/bankingcircle/businessdate.go:37-56 | The business day never goes back as time advances if and only if no set-back of the clock crosses 19:00 into a working day |
| BusinessDay.SetBackAwayFromCutoff | internal/bankingcircle/businessdate.go:43-46 | A one-hour set-back away from 19:00 leaves the business day alone, midnight included |
| Delivery.Clamp | internal/bankingcircle/delivery.go:156-169 | After loading, the retry limit lies within the schedule and the two intervals are positive; settings in range are kept |
| Delivery.BatchSize | internal/bankingcircle/dispatcher.go:128-137 | A positive setting of the subscription wins, then a positive default of the configuration, then 1000 |
| Delivery.ScheduleMeaning | internal/bankingcircle/delivery.go:172-190 | The wait and the email of a retry are those of its row of the schedule; the limit cuts off waits |
| Delivery.DefaultMeaning | internal/bankingcircle/delivery.go:107-133 | The documented schedule: eleven retries, warnings with the seventh and tenth, the deactivation with the eleventh 48 hours after the tenth, nothing with the others |
| Delivery.DefaultExhausted | internal/bankingcircle/delivery.go:107-133 | Under it, a subscriber that never answers is sent to twelve times, gets those three emails in order and is deactivated |
| Delivery.FromRetryMeaning | internal/bankingcircle/dispatcher.go:204-230 | Where the retry loop stops, for every pattern of failures and deletions |
| Delivery.EndingMeaning | internal/bankingcircle/dispatcher.go:183-238 | A delivery stops at its first success, sends at most 1 + retries times, and is exhausted exactly when it was not parked, was never abandoned and every send failed |
| Delivery.LastEmailPrecedesSuccess | internal/bankingcircle/dispatcher.go:215-222 | The deactivation email has gone out although the last retry then succeeds |
| Delivery.EmailSentIff | internal/bankingcircle/dispatcher.go:204-230 | Which emails a delivery sends, for any schedule and limit: exactly those of the retries it reaches |
| Delivery.EmailWithoutDeactivationIff | internal/bankingcircle/dispatcher.go:215-222 | With the email on the last retry alone: it goes out without a deactivation if and only if every send failed but that last one, to a subscription there throughout |
| Delivery.DeactivationEmailIff | internal/bankingcircle/dispatcher.go:231-238 | A deactivation comes with its email if and only if some retry within the limit has it |
| Delivery.LowLimitIsSilent | internal/bankingcircle/delivery.go:159-161 | With the limit below the length of a schedule that has the email on its last step: deactivated without an email |
| DispatchCalls.EnqueuedMeaning | internal/bankingcircle/dispatcher.go:86-123 | Under a pause the notification goes to the end of what is parked and nothing leaves; otherwise to the end of the batch, which leaves whole when it is full |
| DispatchCalls.EnqueuedConserves | internal/bankingcircle/dispatcher.go:86-123 | Each notification is afterwards waiting, parked, retained or in the batch handed out as often as before, plus the new one |
| DispatchCalls.EnqueuedAllPaused | internal/bankingcircle/dispatcher.go:275-288 | Under a pause a redelivered sequence is parked behind what is parked, in order, and nothing leaves |
| DispatchCalls.EnqueuedAllMeaning | internal/bankingcircle/dispatcher.go:275-288 | Without one, the batches handed out and what still waits are what waited and the sequence, in order, every batch of the size in force |
| DispatchCalls.RedeliveredConserves | internal/bankingcircle/dispatcher.go:275-288 | After a redelivery nothing is retained, and each notification is parked, waiting or handed out as often as it was there |
| DispatchCalls.EnqueueIsRun | internal/bankingcircle/dispatcher.go:86-123 | A call of Enqueue nothing disturbs is a run of its critical sections, with the same slot and batch |
| DispatchCalls.RedeliverIsRun | internal/bankingcircle/dispatcher.go:275-288 | A redelivery nothing disturbs is a run: the retained sequence taken, then fed one by one, with the same slot and batches |
| DispatchCalls.DeliverIsRun | internal/bankingcircle/dispatcher.go:183-238 | A delivery nothing disturbs is a run that ends as the retry loop does: parked, acknowledged, dropped, or retained and taken down |
| DispatchCalls.ParkedInOrder | internal/bankingcircle/dispatcher.go:372-388 | Over any run without a resume, what is parked stays in order of arrival |
| DispatchCalls.RetainedInOrder | internal/bankingcircle/dispatcher.go:260-264 | Over any run without a redelivery, what is retained stays in order of arrival |
| Dispatching.ChunksReplay | internal/bankingcircle/dispatcher.go:337-350 | The chunks of a release concatenate to the parked sequence; all are full but perhaps the last, which is not empty |
| Dispatching.Dispatcher.Park | internal/bankingcircle/dispatcher.go:372-388 | A batch goes behind a pause if there is one; no other subscription is touched |
| Dispatching.Dispatcher.Enqueue | internal/bankingcircle/dispatcher.go:86-123 | A notification is parked, or queued with the timer armed, or completes a batch that is handed over with the timer stopped |
| Dispatching.Dispatcher.Flush | internal/bankingcircle/dispatcher.go:144-169 | Takes the whole queue and disarms the timer |
| Dispatching.Dispatcher.Retain | internal/bankingcircle/dispatcher.go:260-264 | Appends to what is retained |
| Dispatching.Dispatcher.Redeliver | internal/bankingcircle/dispatcher.go:275-288 | Everything retained is enqueued again in order; the count, and the batches that became full |
| Dispatching.Dispatcher.Pause | internal/bankingcircle/dispatcher.go:303-308 | Sets the pause and nothing else; reports how many are waiting |
| Dispatching.Dispatcher.Cut | internal/bankingcircle/dispatcher.go:337-350 | The release loop ends and cuts the backlog into the chunks |
| Dispatching.Dispatcher.Resume | internal/bankingcircle/dispatcher.go:326-352 | Lifts the pause, empties the parked list and hands out exactly its chunks, in order |
| Dispatching.Dispatcher.DeliverSync | internal/bankingcircle/dispatcher.go:183-238 | Undisturbed: how the batch ends, how often it is sent, which emails go out, and when it is retained and the subscription deactivated |
| DispatchRuns.StepBooks | internal/bankingcircle/dispatcher.go:86-388 | One critical section moves every notification between places without losing or copying any |
| DispatchRuns.AlwaysConserved | internal/bankingcircle/dispatcher.go:86-388 | Under any interleaving every notification offered is in exactly one place per offer, and drops happen only after deletion |
| DispatchRuns.ExactlyOnePlace | internal/bankingcircle/dispatcher.go:86-388 | A notification offered once is once in exactly one of batch queue, in flight, parked, retained, acknowledged, dropped |
| DispatchLaws.NeverStranded | internal/bankingcircle/dispatcher.go:231-235 | Retained notifications always have a way out: inactive, deleted, a delivery about to deactivate, or an activation about to redeliver |
| DispatchLaws.QuiescentActiveHasNonePending | cmd/bankingcircle/subscriptions.go:156-170 | With nothing in progress an active subscription has nothing retained |
| DispatchLaws.AlwaysKept | internal/bankingcircle/dispatcher.go:86-169 | Whenever the lock is free: parked only behind a pause, and a queue is non-empty exactly when its timer is armed |
| DispatchLaws.AlwaysBounded | internal/bankingcircle/dispatcher.go:86-169 | The largest batch size in force over a run bounds every queue and every delivered batch, none of which is empty |
| DispatchLaws.OversizedIff | internal/bankingcircle/dispatcher.go:104-113 | A batch larger than the size in force at that moment leaves Enqueue if and only if the size was lowered to the number waiting or below |
| DispatchLaws.StepOnSchedule | internal/bankingcircle/dispatcher.go:204-235 | Each failed send uses one of 1 + retries attempts, whatever interleaves; only running out of them leads to retaining |
| DispatchLaws.PauseDoesNotStopRetries | internal/bankingcircle/dispatcher.go:188-230 | A batch already retrying can still be sent and acknowledged after a pause |
| DispatchPause.PauseHolds | internal/bankingcircle/dispatcher.go:184-190 | Over any run without a resume, only deliveries past the check when the pause came ever send |
| DispatchPause.PauseHoldsIff | internal/bankingcircle/dispatcher.go:184-190 | Under a pause a delivery can still send if and only if it is at a send, or about to look for its subscription, which is there |
| DispatchPause.OnlyExposedLeaves | internal/bankingcircle/dispatcher.go:184-190 | Whatever is acknowledged between a pause and the next resume comes out of the batches that were past the check |
| DispatchLaws.StartedInOrder | internal/bankingcircle/dispatcher.go:326-352 | While not paused again, a release starts its batches in order, none skipped or repeated |
| DispatchLaws.ResumeReplaysParked | internal/bankingcircle/dispatcher.go:326-352 | A resume that is not paused again delivers exactly the parked sequence, in chunks, whatever else interleaves |
| RowVersions.DecodeEncode | internal/bankingcircle/subscription.go:230-235 | Base64 as section 4 of RFC 4648 has it can be undone, for every byte string |
| RowVersions.TokensDistinct | internal/bankingcircle/subscription.go:230-235 | Below 2^64 mints, different mints have different tokens |
| RowVersions.TokensRepeat | internal/bankingcircle/subscription.go:230-235 | After 2^64 mints the tokens repeat |
| RowVersions.TokenMatches | internal/bankingcircle/subscription.go:362-370 | A token sent back bare or in double quotes satisfies the If-Match check of its record |
| RowVersions.MatchesMeaning | internal/bankingcircle/subscription.go:362-370 | No header, an empty or a blank one is refused; any other matches exactly when the text inside the quotes around it is the current token |
| RowVersions.FirstTokens | internal/bankingcircle/subscription.go:230-235 | The first two tokens of a store, as text |
| RowVersions.Alphabet | internal/bankingcircle/subscription.go:230-235 | The base64 alphabet of section 4 of RFC 4648 |
| Subscriptions.SubscriptionStore.NextRowVersion | internal/bankingcircle/subscription.go:230-235 | Every call mints the next version |
| Subscriptions.SubscriptionStore.Create | internal/bankingcircle/subscription.go:269-302 | Validation and duplicate endpoints are refused without a change; otherwise one new record, filed and returned |
| Subscriptions.SubscriptionStore.WriteFields | internal/bankingcircle/subscription.go:326-352 | How far an update gets, field by field, and what stops it |
| Subscriptions.SubscriptionStore.Update | internal/bankingcircle/subscription.go:316-357 | The guarded update with the store afterwards, failed validation half-way included |
| Subscriptions.SubscriptionStore.SetActiveLocked | internal/bankingcircle/subscription.go:445-468 | Flag, status and a new token for every event in order and then for the subscription |
| Subscriptions.SubscriptionStore.SetActive | internal/bankingcircle/subscription.go:416-428 | Guarded by If-Match; otherwise exactly the activation |
| Subscriptions.SubscriptionStore.Deactivate | internal/bankingcircle/subscription.go:434-443 | Unguarded deactivation with a reason |
| Subscriptions.SubscriptionStore.Delete | internal/bankingcircle/subscription.go:471-486 | Guarded removal of a subscription together with exactly its events |
| Subscriptions.SubscriptionStore.AddEvent | internal/bankingcircle/subscription.go:489-524 | Refuses blank and, case aside, duplicate types; otherwise one event in both indexes |
| Subscriptions.SubscriptionStore.ReplaceTargets | internal/bankingcircle/subscription.go:538-561 | Guarded by the event's token; only that event changes |
| Subscriptions.SubscriptionStore.DeleteEvent | internal/bankingcircle/subscription.go:564-588 | Guarded removal of an event from both indexes |
| Subscriptions.SubscriptionStore.SortedIds | internal/bankingcircle/subscription.go:593-600 | All ids, each once, in order |
| Subscriptions.SubscriptionStore.Recipients | internal/bankingcircle/subscription.go:593-609 | The loop gives the recipients among all ids, each looked at once, in id order; who they are is SubscriptionMeaning.RecipientsIff |
| SubscriptionLaws.EventsSetMeaning | internal/bankingcircle/subscription.go:445-460 | What activation does to each event, consecutive new tokens included |
| SubscriptionLaws.DoConsistent | internal/bankingcircle/subscription.go:269-588 | Every call keeps endpoints unique, the two event indexes in step, one event per type, flags and statuses equal, versions unique and batch sizes allowed |
| SubscriptionLaws.AlwaysConsistent | internal/bankingcircle/subscription.go:269-588 | All of that over any sequence of calls, failed ones included |
| SubscriptionLaws.ConsistentFromTheStart | internal/bankingcircle/subscription.go:207-216 | In particular from the empty store |
| SubscriptionHistory.RefusedChangesNothing | internal/bankingcircle/subscription.go:269-588 | A refused call other than Update leaves the store as it was |
| SubscriptionHistory.UpdateRefusedIff | internal/bankingcircle/subscription.go:316-357 | When Update is refused, told from the store and the arguments: guard, endpoint, key length, batch size |
| SubscriptionHistory.RefusedUpdateWrites | internal/bankingcircle/subscription.go:326-352 | What a refused Update has written by then |
| SubscriptionHistory.RefusedUpdateChangesNothingIff | internal/bankingcircle/subscription.go:316-357 | A refused Update mints nothing, and changes nothing if and only if the guard or the endpoint refused it, or each field before the refused one was left out or already had that value |
| SubscriptionHistory.RefusedUpdateMayWrite | internal/bankingcircle/subscription.go:326-350 | From the empty store, one Create and one Update: answered with an error, and the endpoint has changed |
| SubscriptionHistory.TargetsKeepSubscriptionTokens | internal/bankingcircle/subscription.go:538-561 | Replacing targets supersedes the event's token and leaves the subscription's own token valid |
| SubscriptionHistory.Supersedes | internal/bankingcircle/subscription.go:362-370 | A guarded write that succeeds was shown the current token of its record, and afterwards no record has it |
| SubscriptionHistory.SpentForever | internal/bankingcircle/subscription.go:230-235 | A superseded token never matches any record again, over any run below 2^64 mints |
| SubscriptionHistory.OneWritePerToken | internal/bankingcircle/subscription.go:316-588 | Over any such run at most one guarded write succeeds per token |
| SubscriptionSeen.SteadyIff | internal/bankingcircle/subscription.go:326-357 | While a subscription keeps its token, over any run, its record is at every moment what it was if and only if no refused Update has rewritten a field of it |
| SubscriptionSeen.WritesOverWhatWasReadIff | internal/bankingcircle/subscription.go:359-370 | A write guarded by a token read earlier finds the record as it was read, all along, if and only if no refused Update wrote to it meanwhile |
| SubscriptionSeen.EventWriteSeesWhatWasRead | internal/bankingcircle/subscription.go:538-588 | For an event it always does |
| SubscriptionSeen.WrittenUnseen | internal/bankingcircle/subscription.go:326-370 | From the empty store: created and read, half-written by a refused Update, and written over with the token first read |
| SubscriptionHistory.MatchingEventMeaning | internal/bankingcircle/subscription.go:110-191 | A subscription has a matching event exactly when one of its events in the index matches, and that one is found; what matching is, is SubscriptionMeaning.ConcernsIff |
| SubscriptionHistory.RecipientsExact | internal/bankingcircle/subscription.go:593-609 | Each subscription with a matching event exactly once, in strictly increasing id order, active, with its only matching event (SubscriptionMeaning.RecipientsIff says which in plain terms) |
| SubscriptionMeaning.ConcernsIff | internal/bankingcircle/subscription.go:110-128 | An event matches exactly when it is active, of the wanted type (case aside), and has no targets or a target whose id is a non-empty wanted id |
| SubscriptionMeaning.RecipientsIff | internal/bankingcircle/subscription.go:181-191 | A recipient is returned if and only if its subscription is active and lists its event, of the wanted type and for everyone or for a wanted id |
| SubscriptionMeaning.OthersEventNotReceived | internal/bankingcircle/subscription.go:106-127 | An event for one id alone is never delivered for another |
| SubscriptionMeaning.ValidateMeaning | internal/bankingcircle/subscription.go:248-266 | What a creation is refused for, each exactly when, in order |
| SubscriptionMeaning.GuardMeaning | internal/bankingcircle/subscription.go:316-324 | A guarded write is refused for an unknown record or a superseded token, and admitted exactly otherwise |
| SubscriptionMeaning.CreateMeaning | internal/bankingcircle/subscription.go:269-302 | When a creation is accepted, and the record it files, field by field |
| SubscriptionMeaning.UpdateAnswers | internal/bankingcircle/subscription.go:316-357 | What an update answers, from the store and the arguments, in the order it looks |
| SubscriptionMeaning.UpdateWrites | internal/bankingcircle/subscription.go:316-357 | The record after an accepted update: every field given is written, every other is kept, and only the token is new |
| SubscriptionMeaning.ActivationWrites | internal/bankingcircle/subscription.go:445-468 | Flags, message and fresh tokens of a subscription and its events after (de)activation; every other record as it was |
| SubscriptionMeaning.ActivationAnswers | internal/bankingcircle/subscription.go:416-443 | The guarded and the unguarded call: what each answers and which of the two it does |
| SubscriptionMeaning.DeleteWrites | internal/bankingcircle/subscription.go:471-486 | Deletion removes the subscription and exactly its events |
| SubscriptionMeaning.AddEventAnswers | internal/bankingcircle/subscription.go:489-511 | A blank type, an unknown subscription and a type already listed (case aside) are refused, each exactly when |
| SubscriptionMeaning.AddEventWrites | internal/bankingcircle/subscription.go:512-524 | The new event, field by field, at the end of its subscription's list |
| SubscriptionMeaning.ReplaceTargetsMeaning | internal/bankingcircle/subscription.go:538-561 | What a replacement of targets answers and writes |
| SubscriptionMeaning.DeleteEventWrites | internal/bankingcircle/subscription.go:564-588 | The event leaves both indexes, the other entries keeping their order |
| SubscriptionMeaning.DeleteEventAnswers | internal/bankingcircle/subscription.go:564-575 | What the deletion of an event answers, and that a refusal changes nothing |
| Boarding.Directory.ResolveCompany | internal/b4b/directory.go:154-160 | Own ids first, then external references |
| Boarding.Directory.CreateCompany | internal/b4b/directory.go:87-139 | Validation and a taken reference change nothing; otherwise the company, its reference and its registered office |
| Boarding.Directory.AddAddress | internal/b4b/directory.go:199-222 | One more address on the resolved company |
| Boarding.Directory.LookForPerson | internal/b4b/directory.go:243-252 | What the first critical section of AddPerson hands on |
| Boarding.Directory.FinishPerson | internal/b4b/directory.go:254-296 | Validation against the waiver read earlier, then the person in both maps |
| Boarding.Directory.LookForExtended | internal/b4b/directory.go:376-396 | What the first critical section of CreateExtended hands on, unknown documents included |
| Boarding.Directory.FinishExtended | internal/b4b/directory.go:398-431 | Validation, unknown documents and a profile made meanwhile are refused; otherwise one profile |
| Boarding.Directory.AddDocument | internal/b4b/directory.go:453-469 | One upload receipt |
| Boarding.Directory.AddViban | internal/b4b/directory.go:489-523 | The company's vIBAN for the normalised currency, existing or new |
| Boarding.Directory.SetCompanySanctions | internal/b4b/directory.go:177-194 | Only the screening status moves |
| Boarding.Directory.SetPersonSanctions | internal/b4b/directory.go:333-365 | The two screening statuses move independently |
| Boarding.Directory.Snapshot | internal/b4b/state.go:84-121 | Every record of every map exactly once, each list sorted by creation time and id |
| Boarding.Directory.Restore | internal/b4b/state.go:125-150 | The state is merged into all eight maps |
| BoardingLaws.DirKept | internal/b4b/directory.go:87-523 | Each critical section keeps the directory sound and the boarded companies and documents in it |
| BoardingLaws.StepSettled | internal/b4b/directory.go:243-431 | What a two-phase call read in its first section still holds in its second, and what any file holds is sound |
| BoardingLaws.AlwaysSettled | internal/b4b/directory.go:87-523 | Under any interleaving, stale files written and restarts anywhere: references unique and indexed, one profile per company with existing documents, documented people unless waived, one vIBAN per currency |
| BoardingLaws.SettledFromTheStart | internal/b4b/directory.go:48-63 | In particular from the empty directory and no file |
| BoardingLaws.RefsUnique | internal/b4b/directory.go:87-98 | No two companies share an external reference |
| BoardingLaws.ResolveMeaning | internal/b4b/directory.go:154-160 | A reference finds its company if and only if it is not the id of another one; exactly unknown identifiers find nothing |
| BoardingLaws.RestoreRebuilds | internal/b4b/state.go:84-150 | Restoring a snapshot into a fresh directory rebuilds every map, up to order inside the per-company lists |
| BoardingLaws.SnapshotsSurvive | internal/b4b/state.go:84-150 | A restored directory has exactly the snapshots of the one that was saved |
| BoardingRequests.CompaniesAsRequested | internal/b4b/directory.go:87-139 | Over any run, interleaved, with stale files and restarts: every company, in the directory, in the file or in a snapshot not yet written, carries the reference, name, code, address and both waivers of a request of the run to create it |
| BoardingRequests.PeopleMeetRequests | internal/b4b/directory.go:243-296 | At any point of any run: a natural person is named and, unless the request that created the company waived them, has every document field |
| BoardingRequests.ProfilesMeetRequests | internal/b4b/directory.go:376-431 | At any point of any run: a profile has a registry number and uploaded documents, at least one unless the request that created the company waived them |
| BoardingRequests.CreateMeaning | internal/b4b/directory.go:87-139 | When a company is accepted, and everything its creation files and leaves alone |
| BoardingRequests.AddressMeaning | internal/b4b/directory.go:199-222 | When an address is accepted, and where it goes |
| BoardingRequests.ValidatePersonMeaning | internal/b4b/company.go:323-362 | Which people are refused as invalid and which for missing documents, each exactly when |
| BoardingRequests.PersonMeaning | internal/b4b/directory.go:254-296 | The person filed, field by field from the request |
| BoardingRequests.ProfileMeaning | internal/b4b/directory.go:398-431 | What a profile is refused for, in order, and the profile filed |
| BoardingRequests.LookMeaning | internal/b4b/directory.go:243-397 | What the first sections find out: the company, the right waiver of the two, an existing profile and the documents never uploaded |
| BoardingRequests.DocumentMeaning | internal/b4b/directory.go:453-469 | The receipt of an upload |
| BoardingRequests.VibanMeaning | internal/b4b/directory.go:489-523 | The currency trimmed and raised; the company's account in it if there is one, a new one otherwise |
| BoardingRequests.UpperMeaning | internal/b4b/directory.go:489-492 | Currencies are raised letter by letter |
| BoardingRequests.SnapshotOrder | internal/b4b/state.go:84-121 | A state file lists every kind of record by time of creation and id |
| BoardingRequests.ScreenCompanyMeaning | internal/b4b/directory.go:177-194 | The status a company has after a screening is the one given, one of three, and nothing else moves but its time of change |
| BoardingRequests.ScreenPersonMeaning | internal/b4b/directory.go:333-365 | Each of a person's two statuses is the one given, or as it was when none was given |
| BoardingRestarts.StepEndures | internal/b4b/directory.go:87-523 | Between restarts nothing boarded is lost or re-owned, and a profile is never rewritten |
| BoardingRestarts.BehindFromTheStart | cmd/b4b/main.go:242-253 | Over any run, every file written or about to be holds nothing the directory does not hold |
| BoardingRestarts.RestartRestoresIff | internal/b4b/state.go:123-150 | A restart brings everything back as it was if and only if the file is a snapshot of the directory as it is |
| BoardingRestarts.RestartEnduresIff | cmd/b4b/main.go:127-136 | A restart loses nothing that was boarded if and only if the file has a record of each company, person, profile, document, address and vIBAN |
| BoardingRestarts.AlwaysEndures | internal/b4b/directory.go:87-523 | Over any run each of whose restarts finds such a file, nothing boarded is lost |
| BoardingRestarts.ProfileSurvivesIff | internal/b4b/state.go:18-22 | A profile survives a restart if and only if it is in the file, and then unchanged |
| BoardingRestarts.OneProfileEver | internal/b4b/directory.go:419-431 | Once one CreateExtended has won, every other one on the company loses, at any later time, while each restart finds the profile in the file |
| BoardingRestarts.WholeCreateIff | internal/b4b/directory.go:376-431 | A whole CreateExtended, both sections undisturbed, files a profile of a company if and only if its spelling resolves to it, it has none, every document named exists and the request is valid under its waiver |
| BoardingRestarts.SecondProfileIff | internal/b4b/directory.go:376-431 | After a restart a whole CreateExtended files a profile of a company if and only if the file has the company and the spelling finds it there, has no profile of it and every document named, and the request is valid under the waiver filed |
| BoardingRestarts.LostCompanyRefused | internal/b4b/directory.go:377-381 | From the start: company and profile created, nothing saved, and after the restart the create is refused |
| BoardingRestarts.ProfileCreatedTwice | internal/b4b/directory.go:426-429 | From any directory: a profile filed and answered, the process gone before the next file, and the same call files another |
| BoardingRestarts.AcmeProfileTwice | internal/b4b/directory.go:426-429 | The same from the start: one company, its file, and the profile it gets twice |
| BoardingRestarts.VibanSurvivesIff | internal/b4b/state.go:147-149 | A currency is still registered after a restart if and only if the file has a vIBAN of it |
| BoardingRestarts.VibanRegisteredOnce | internal/b4b/directory.go:489-523 | Registering a currency again, later and under any spelling, changes nothing, while each restart finds the vIBAN in the file |
| BoardingRestarts.RestoreReplacesIff | internal/b4b/state.go:123-150 | Restoring a snapshot of one directory over another leaves the book of the first if and only if the other had no key and no list entry of its own |
| BoardingRestarts.RestoreKeepsStranger | internal/b4b/state.go:123-150 | A boarded company is still there after an empty state is restored over it |
| BoardingRestarts.RestoreMerges | internal/b4b/state.go:123-150 | Restoring over the directory that was saved keeps the companies and doubles the address and vIBAN lists |
| Snapshots.Collect | internal/b4b/state.go:87-90 | The loop over one map lists each value exactly once |
| Snapshots.Flatten | internal/b4b/state.go:91-96 | The nested loops over one map of lists list each entry as often as it occurs |
| Snapshots.ArrangedSorted | internal/b4b/state.go:218-220 | sortByCreated sorts by its key |
| Snapshots.FiledRebuilds | internal/b4b/state.go:128-146 | Filing any listing of a keyed map makes the map again |
| Snapshots.GroupedRebuilds | internal/b4b/state.go:134-149 | Grouping any listing of a map of lists makes the lists again, up to order |
| Beneficiaries.BeneficiaryStore.Register | internal/b4b/beneficiary.go:240-250 | The record under its id, and its reference pointing at it |
| Beneficiaries.RegisterMeaning | internal/b4b/beneficiary.go:203-248 | After a registration its id and its reference find it, and any other id or reference what it found before |
| Beneficiaries.BeneficiaryStore.Snapshot | internal/b4b/state.go:155-163 | Every record once, sorted by id |
| Beneficiaries.BeneficiaryStore.Restore | internal/b4b/state.go:166-175 | Records and references filed in file order |
| Beneficiaries.RestoredRefs | internal/b4b/state.go:162-175 | After a restore a reference names its greatest id |
| Beneficiaries.RestoreKeepsReferencesIff | internal/b4b/state.go:155-175 | Records always come back; the reference index comes back if and only if, for every reference, the latest registration also has the greatest id |
| Beneficiaries.AlwaysIndexed | internal/b4b/beneficiary.go:240-250 | Over any registrations under fresh ids every reference in use is indexed and names a beneficiary that has it |
| Beneficiaries.CorrectionUndone | internal/b4b/state.go:155-175 | One reference registered as b and then as a means a, and b after a restart |
| Payout.ResumeCompletes | internal/b4b/payment.go:42-53 | Wherever a walk stopped, the states reached and the states resumed make the whole walk; nothing is resumed exactly at the terminal state |
| Payout.Engine.Submit | internal/b4b/payment.go:138-149 | Recorded as accepted, filed and announced |
| Payout.Engine.Process | internal/b4b/payment.go:154-180 | Announces exactly the states not reached yet, in order, ending in what ForceFail chooses |
| Payout.Engine.Snapshot | internal/b4b/state.go:178-186 | Every payment once, in whatever state, sorted by creation time and id |
| Payout.Engine.Restore | internal/b4b/state.go:197-210 | Files the payments and picks, in file order, those whose walk is not over |
| Payout.RestoreOfSnapshot | internal/b4b/state.go:178-210 | Into a new engine the payments come back as saved, and exactly the unfinished ones walk on |
| PayoutRuns.StoryKept | internal/b4b/payment.go:154-180 | What a payment's client has heard and will still hear together stay the same under every hop of every goroutine |
| PayoutRuns.StoryBegins | internal/b4b/payment.go:138-149 | For a new payment that is the uncrashed walk |
| PayoutRuns.CrashStory | internal/b4b/state.go:188-210 | After a crash: what was heard before it, then every state the file had not reached |
| PayoutRuns.CrashIsSeamlessIff | internal/b4b/state.go:188-210 | A crash loses and repeats nothing for a payment if and only if the file has it in the last state its client was told of |
| PayoutRuns.CrashInTheGap | internal/b4b/state.go:188-210 | Saved and crashed between a state and its notification: exactly that notification is lost, the terminal one included |
| PayoutRuns.WalkSurvives | internal/b4b/state.go:188-210 | With any number of seamless crashes every finished payment was announced through exactly the uncrashed walk |
| PayoutRuns.WalkSurvivesFromTheStart | internal/b4b/state.go:188-210 | In particular from a new engine and no file |
| PayoutRuns.WalkEnds | internal/b4b/payment.go:154-180 | Left alone, a payment reaches its end within twelve hops |
| PayoutBridge.BridgesCounted | cmd/b4b/payments.go:215-222 | Over any run with restarts, bridge calls started and still due change only by the crashes that repeat or lose one |
| PayoutBridge.BridgedOnceIff | cmd/b4b/payments.go:215-222 | A finished payout was bridged once, plus once for each crash that found the file before its end after the call, less once for each that found it past it before the call; exactly once if and only if these balance |
| PayoutBridge.FailedNeverBridged | internal/b4b/payment.go:169-179 | A payout forced to fail is never bridged, whatever crashes |
| Text.TrimSpaceMeaning | internal/b4b/company.go:49-62 | Trimming takes white space off both ends and nothing else |
| Text.EqualFoldMeaning | internal/bankingcircle/reports.go:509-516 | Two texts are equal case aside exactly when they differ only in the case of letters |
| Text.LessMeaning | internal/bankingcircle/reports.go:194-208 | Texts are ordered by the first character in which they differ, a shorter text before its continuations |
| Cycle.SettlementApp.WireLumpSum | cmd/worldline/cycle.go:128-169 | One request of the printed amount if the account is configured, none otherwise, and the resulting status |
| Cycle.SettlementApp.Record | cmd/worldline/cycle.go:181-191 | The last hundred runs |
| Cycle.SettlementApp.WireAll | cmd/worldline/cycle.go:107-115 | One lump sum for each currency with a name and a positive total, of exactly that total |
| Cycle.SettlementApp.Run | cmd/worldline/cycle.go:85-121 | Only the morning slot pays: one lump sum per currency, of its total over the published files; names, errors and requests as the files went |
| Cycle.TotalIsStated | cmd/worldline/cycle.go:96-105 | The total summed file by file is the stated sum modulo 2^64 |
| Cycle.StatedGrows | cmd/worldline/cycle.go:96-105 | A file more adds its amount to its own currency, and only when it was published |
| Cycle.PublishedGrows | cmd/worldline/cycle.go:97-103 | The published names are those of the published files, in order |
| Cycle.RequestsGrow | cmd/worldline/cycle.go:128-169 | Each lump sum asks the bank for exactly its printed amount, accepted or not, unless its account is not configured |
| Cycle.LumpSumArrives | cmd/worldline/cycle.go:96-169 | The credit that arrives at the bank equals the total, and equals what the files state if and only if that fits an int64 |
| Cycle.HistoryIsLast | cmd/worldline/cycle.go:181-191 | The history is always the last hundred of all runs |

## Left out

- Concurrency inside one critical section: a section is one step, as its mutex makes it; data races are not modelled.
- HTTP handlers, JSON, TLS, tokens, the console, harness scenarios and key handling: no claim that spans operations.
- `internal/settlement`, `internal/wlsftp`, `internal/labclock`, `internal/retry`, `internal/verify` and the file format
  of `internal/worldline` are not part of this model: cut files, publishing and clock readings are inputs.
- State files on disk: states are values, written whole; two writers sharing the temporary file are not modelled.
- Account.Balance, the text copy of the cents, and seeding's amounts: derived from the cents, not stored.
- Virtual IBANs, holders, IBAN and BIC digits and the well-formedness of account ids: hash and UUID computations of the
  source; parameters of `GetOrCreate`, or not fields.
- Payment fields that are only echoed (recipient IBAN, holder, account number, charge bearer and the like), company and
  person fields that are only stored, and free-form extra fields.
- RFC 3339 parsing and time-zone data: a timestamp is an instant, a bare date or unreadable; the zone is an offset
  function. Local times that a clock change skips at midnight are not modelled.
- Report amounts as floating point: minor units instead, and an amount that does not parse counts as zero.
- Rejection reasons and the fields the lab leaves null: descriptive text.
- Retry delays, the time scale and request timeouts: scheduling is free, so any delay is covered.
- The mailbox ring, `List` paging of subscriptions, synthetic notifications and pending counts: simple reads.
- Subscriptions.SubscriptionStore.AddEvent: compares types case aside for the letters of ASCII only, where
  strings.EqualFold folds all of Unicode; `EventMatches` and the account filter likewise.
- Boarding.Directory.AddViban: raises the letters of ASCII only, where strings.ToUpper knows all of Unicode.
- Go's *SubscriptionEvent pointers shared by two indexes: an event is stored once and a subscription lists ids.
- Slices and pointers handed out to callers (the in-place filter of DeleteEvent, live records from Get and Recipients):
  methods return values.
- Creation and update times of subscriptions, and their constant version field.
- Company and beneficiary pointers in the reference indexes: the ids of what they point at.
- Beneficiary validation, screening, status changes, gates and auto-vivified beneficiaries: single-record rules.
- The order in which Go iterates over a map: every order is allowed.
- ReportLaws.PageExactIff: for listings of at most half an int64 of rows, which memory bounds anyway.
- ReportMeaning.PageDefaults: likewise.
- ReportMoney.SafeguardingReportIsBalance: assumes positive amounts, which the callers guarantee
  (cmd/bankingcircle/main.go:838-842 and cmd/bankingcircle/main.go:906-910), a clock that always has a reading, account
  ids that no other id equals case aside, and payment ids not used twice, which nobody checks; `PaymentListing` says
  what becomes of the listing when one is.
- DispatchCalls.DeliverIsRun: of a batch that is not part of a release; a release's later chunks are
  `DispatchLaws.StartedInOrder`.
- PaymentHistory.CreateKeepsListingIff: speaks of the moment of the call only; `PaymentListing.CreateInStepForGoodIff`
  speaks of everything after it.
- SubscriptionLaws.AlwaysConsistent: assumes the ids handed out are fresh.
- BoardingLaws.AlwaysSettled: assumes the ids of companies and people are fresh when handed out.
- BoardingRequests.CompaniesAsRequested: likewise.
- Boarding.Directory.Snapshot: for a directory filed by id, as `BoardingLaws.KeysOfSound` with
  `BoardingLaws.AlwaysSettled` shows every reachable one to be; likewise the snapshots of beneficiaries and payouts.
- PayoutBridge.BridgedOnceIff: the announcement and the bridge call it starts are one step, so the process dying inside
  that call is not modelled; nor is what the bank makes of a second call.
- PayoutRuns.StoryBegins: assumes a new payment's id was never used.
- SubscriptionHistory.OneWritePerToken: for fewer than 2^64 mints; RowVersions.TokensRepeat shows the bound is needed.
