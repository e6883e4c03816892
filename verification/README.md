# ChargePilot verification model

ChargePilot runs a two-wheeler charging platform: devices connect over TCP, users pay by wallet or
card, a central service prices charges, splits revenue, publishes charging schemes and raises alerts,
and a web console administers it. This project models the parts whose correctness depends on
arithmetic, on state kept across many operations, or on the interleaving of concurrent ones, and
proves what those parts promise.

| file | what it models |
|---|---|
| `Allocation.dfy` | largest-remainder split of a fee over the parties of a station |
| `Settlement.dfy` | booking a calculated fee into the split ledger, directly and from the backlog |
| `Backlog.dfy` | which calculations the rounds of the settlement backlog reach |
| `BillingPipeline.dfy` | calculate, apply, mark delivered, with failures and retries between all steps |
| `CardLedger.dfy` | wallet, payment, session and operation log under card swipes, refunds and the deadline |
| `SchemePublication.dfy` | versions, receipts, overrides and capability checks of published schemes |
| `LeaseQueue.dfy` | claims, sends and finishes of regulatory reports by many workers |
| `Listener.dfy` | the TCP listener's bounded pool and its shutdown |
| `Registry.dfy` | the registry of connected devices |
| `Alerts.dfy` | fault reports, acknowledgement and recovery of device alerts |
| `BrowserSession.dfy` | the console's stored session over several tabs |
| `RefreshRing.dfy` | refresh-token rotation and revocation in Redis |
| `Reconcile.dfy` | reconciling the internal ledger with the channel's report |
| `DeviceCsv.dfy`, `DeviceImport.dfy` | the CSV reader and the row checks of the device import |
| `Basics.dfy` | options, results, 64-bit integers and sums |

Code that changes state step by step is a class or a method with loops; its contract ties the result
and the new state to a function, and the theorems are about that function. A database transaction or
a Redis script is one atomic step. Where several workers, goroutines or tabs interleave, the model is
a system of small steps, and the theorems hold in every state of every run. Clocks, UUIDs, secrets,
network answers and the answers of queries are parameters; what the model expects of them is in the
`Possible`, `Next` or `requires` clause that takes them.

Where the code and its own comments disagree, the model follows the code:

- `internal/central/admin/session.go:76` says that rotation accepts previous digests; the script at
  line 67 compares with the current one only (`RefreshRing.RotateExactly`).
- `internal/central/admin/alerts_sync.go:111` says that repeated or older events do nothing; an older
  event that is not before the alert's creation rewrites its event key (lines 130-137). What follows
  is `Alerts.OlderReportReopens`, and when it cannot follow is `Alerts.ReplayRaisesNothing`.
- `internal/central/billing/settlement.go:105-108` guards against a split that does not preserve the
  pool. The split always does; the guard fires exactly on a fee whose pool exceeds its recorded total
  or int64 (`Settlement.GuardExactly`). `Settle` takes any fee, but every fee that pricing returns has a
  total that covers its parts, and those pass (`Settlement.CoveredFeePasses`).
- The settlement backlog asks for the oldest 50 unsettled calculations. If 50 of them can never be
  booked, for want of a template, nothing newer is ever reached (`Backlog.Starved`); with fewer,
  everything is (`Backlog.Reached`).
- Versions of published rules are 32-bit: strict increase and compare-and-set hold exactly up to the
  last version (`SchemePublication.IncreasesExactly`, `SchemePublication.CompareAndSet`,
  `SchemePublication.SameAgainExactly`), and that version is reachable
  (`SchemePublication.CompareAndSetFails`).
- Inheriting a station's scheme compares the version but does not move it on
  (`SchemePublication.InheritTakesEffect`).
- Reconciliation lists an unknown channel row of 0 cents although both ledgers agree on it
  (`Reconcile.NoDiffsExactly`, `Reconcile.ZeroRowIsListed`).

`dafny verify dfyconfig.toml` checks the whole project.

## Model

| member | source | states |
|---|---|---|
| Allocation.Optimality | internal/central/billing/allocation.go:75-100 | no other integer split with the same total has a smaller sum of absolute errors against the exact quotas |
| Allocation.OrderIndependence | internal/central/billing/allocation.go:91-99 | permuting the parties gives every party the same cents |
| Allocation.DistributedConserves | internal/central/billing/allocation.go:81-99 | shares are non-negative and add up to the amount |
| Allocation.QuotaRule | internal/central/billing/allocation.go:86-98 | each share is the floor of its exact quota or one more |
| Allocation.LeftoverBounds | internal/central/billing/allocation.go:97-98 | the cents left after the floors number fewer than the parties, so the remainder index is in range |
| Allocation.ExactQuotaGetsNoExtra | internal/central/billing/allocation.go:97-98 | a party with remainder zero, so any party with ratio zero, never gets an extra cent |
| Allocation.LargerRatioNeverLess | internal/central/billing/allocation.go:83-99 | a strictly larger ratio never receives less |
| Allocation.TieBreak | internal/central/billing/allocation.go:91-96 | among equal remainders the odd cents go by ID, decided at the first character at which the IDs differ |
| Allocation.PositionIsRank | internal/central/billing/allocation.go:91-96 | in a sorted remainder array exactly k parties come before the k-th: any correct sort gives the same order |
| Allocation.WinnerCount | internal/central/billing/allocation.go:91-99 | exactly as many parties as there are left-over cents rank among the winners |
| Allocation.SortRemainders | internal/central/billing/allocation.go:91-96 | sorts the remainder array by falling remainder, then by party ID, keeping its entries |
| Allocation.FloorShares | internal/central/billing/allocation.go:83-90 | fills the floors and remainders, with no int64 overflow |
| Allocation.HandOut | internal/central/billing/allocation.go:97-99 | one cent each to the first remainders turns the floors into the specified distribution |
| Allocation.Distribute | internal/central/billing/allocation.go:75-101 | the in-place algorithm returns the sort-free distribution that the theorems are about |
| Allocation.CheckParties | internal/central/billing/allocation.go:46-57 | accepts exactly distinct non-empty IDs with ratios in range that total 10000, and reports the total otherwise |
| Allocation.Allocate | internal/central/billing/allocation.go:42-73 | succeeds exactly on valid requests, splitting each amount by mode |
| Allocation.AllocationConserves | internal/central/billing/allocation.go:62-72 | electric shares plus excluded electricity are the electric amount, service shares the service amount |
| Settlement.Resolve | internal/central/billing/settlement.go:62-82 | accepts a template exactly if its mode is known and its parties are valid, maps every code to its party, and an accepted template splits every non-negative fee |
| Settlement.SharesFillPool | internal/central/billing/settlement.go:96-104 | party shares add up to the pool, and the pool plus excluded electricity is electricity plus service |
| Settlement.AddUp | internal/central/billing/settlement.go:96-99 | the sum of the shares as int64 arithmetic computes it |
| Settlement.GuardExactly | internal/central/billing/settlement.go:106-108 | the guard after the split fails exactly if the pool exceeds int64 or the recorded total; the split itself never fails it |
| Settlement.CoveredFeePasses | internal/central/billing/settlement.go:96-108 | a fee whose total covers its electricity and service, as every priced fee does, never fails the guard |
| Settlement.UncoveredFeeFails | internal/central/billing/settlement.go:106-108 | as far as the parameter of Settle goes the guard can fail: on a fee whose total is below its parts |
| Settlement.SettleKeepsConsistent | internal/central/billing/settlement.go:127-168 | one first-generation settlement per calculation, its party rows adding up to its pool |
| Settlement.SettleOnlyAppends | internal/central/billing/settlement.go:145-168 | settlements and party rows are never rewritten |
| Settlement.SettledRowExactly | internal/central/billing/settlement.go:145-155 | the settlement row, field by field: mode_a splits both fees, mode_b the service and sets the electricity aside |
| Settlement.SettledPartyExactly | internal/central/billing/settlement.go:159-168 | one row per party, under its own code, ID and ratio, with its own electric and service shares |
| Settlement.ReplayExactly | internal/central/billing/settlement.go:127-144 | after a booking and any run of others, a request replays it exactly if template ID, electricity, service and pool agree, else it conflicts |
| Settlement.RunKeepsFirstBooking | internal/central/billing/settlement.go:127-173 | over any run of direct and backlog bookings a calculation keeps its first settlement |
| Settlement.Store.Settle | internal/central/billing/settlement.go:87-174 | one booking transaction: the answer and the tables afterwards |
| Settlement.Store.PartyLines | internal/central/billing/settlement.go:159-167 | the party rows of a new settlement |
| Settlement.Store.SettleBacklog | internal/central/billing/service.go:160-204 | each pending calculation is booked exactly if it is settleable, whatever becomes of the others; an error is reported exactly if one with a template is not |
| Settlement.Store.SettlePending | internal/central/billing/service.go:169-202 | one backlog row: booked exactly if settleable, an error exactly if it has a template and is not |
| Backlog.Round | internal/central/billing/service.go:164-203 | a round takes the settleable ones of the oldest 50 off the unsettled calculations and leaves all others in order |
| Backlog.Reached | internal/central/billing/settlement.go:176-188 | with fewer than 50 unsettleable calculations before it, a calculation is in the batch after at most as many rounds as there are calculations before it |
| Backlog.Starved | internal/central/billing/settlement.go:176-188 | with 50 or more of them before it, it never is |
| Settlement.FindAllAfter | internal/central/billing/settlement.go:134-144 | a booking is found again under its calculation and leaves the other calculations as they were |
| BillingPipeline.CalculateExactly | internal/central/billing/store.go:34-90 | in a consistent store a calculation is refused exactly for an unidentified source, a pricing failure or a different stored source; otherwise it answers the stored payload |
| BillingPipeline.Service.Calculate | internal/central/billing/store.go:34-90 | one calculation transaction; a refusal, pricing failure included, leaves no receipt and changes nothing |
| BillingPipeline.Service.MarkDelivered | internal/central/billing/service.go:208-215 | sets the delivered flag and resolves the pending review, and nothing else |
| BillingPipeline.Service.Bill | internal/central/billing/service.go:49-92 | one due order of Run: done exactly if calculation, application and mark all succeeded; an unissued bill or unbooked split is reported besides |
| BillingPipeline.Service.DeliverPending | internal/central/billing/service.go:217-249 | the retry loop: the tables after it and the number of successes |
| BillingPipeline.DeliveredExactly | internal/central/billing/service.go:227-249 | each pending row is delivered exactly if its application and mark succeeded, else has one attempt more; rows do not affect each other |
| BillingPipeline.SuccessesExactly | internal/central/billing/service.go:227-249 | the retry loop counts the rows whose application and mark both succeeded |
| BillingPipeline.BilledExactly | internal/central/billing/service.go:49-92 | billing delivers exactly its order and only if all of it went through; it changes no payload and no other row |
| BillingPipeline.ReviewsExactly | internal/central/billing/service.go:54-62 | a review is opened once and only for a pricing failure, and resolved only by delivering the order |
| BillingPipeline.BillIsSteps | internal/central/billing/service.go:49-92 | billing an order is a piece of a run, so every theorem about runs covers it |
| BillingPipeline.ManualFeeExactly | internal/central/billing/store.go:94-103 | a manual fee is priced as it stands if and only if it was reviewed, adds up and stays within the offer |
| BillingPipeline.ManualChargesAreReviewed | internal/central/billing/store.go:94-103 | no manual fee is ever charged that nobody reviewed, or above the offer |
| BillingPipeline.OneCalculation | internal/central/billing/store.go:67-87 | in every reachable state each order has at most one fee calculation |
| BillingPipeline.ReceiptsArePriced | internal/central/billing/store.go:38-88 | a receipt exists only for a source that pricing accepts and carries that price |
| BillingPipeline.PermanentOnce | internal/central/billing/store.go:63-73 | payload, charge and delivered flag of an order, once there, never change in any later state |
| BillingPipeline.CallsAgree | internal/central/billing/service.go:64-69 | every application ever tried for an order, by any worker at any time, carries the identical result |
| BillingPipeline.DeliveredWasApplied | internal/central/billing/service.go:64-69 | delivered implies that the charge service recorded that payload and acknowledged it |
| BillingPipeline.ChargedAsCalculated | internal/central/settlement/billing.go:201-236 | the charge service never holds anything but the calculated result of an order, at the price of its source |
| BillingPipeline.AppliesExactly | internal/central/settlement/billing.go:201-236 | an application is accepted exactly if the order still has the calculated source and was charged before or can pay; replays never conflict |
| BillingPipeline.SourceIsFixed | internal/central/billing/store.go:63-73 | after a receipt a different source of the order is always refused and its own source always gets the first result |
| BillingPipeline.RetryCompletes | internal/central/billing/service.go:217-249 | whatever failed before, three undisturbed steps deliver an order and charge it only if it was not charged |
| BillingPipeline.RunInv | internal/central/billing/service.go:41-101 | receipts, calculations, payloads, worker hands, log and charges agree in every state of every run |
| CardLedger.LedgerAgrees | internal/central/card/online_card.go:133-148 | in every reachable state the prices of an order's operations are session paid, payment paid and payment total; their minutes are the purchased minutes, at most the maximum; refunds stay within the payment and its status says how far |
| CardLedger.EachEventDebitsOnce | internal/central/card/online_card.go:68-83 | each device event is one operation and the wallet debits are exactly the operations' prices, in order |
| CardLedger.RetryNeverDebits | internal/central/card/online_card.go:68-83 | once a device event bought something, its retries change nothing, whatever happens between |
| CardLedger.ApplyConserves | internal/central/card/online_card.go:216-261 | no event creates or destroys money: wallets plus unrefunded payments move only by recharges |
| CardLedger.ExecConserves | internal/central/card/online_card.go:216-261 | conservation over whole runs |
| CardLedger.CutoffIsFinal | internal/central/card/deadline.go:35-49 | once a cutoff exists the purchased minutes and the cutoff never change; a duration cutoff is start plus final minutes |
| CardLedger.FrozenAtDeadline | internal/central/card/deadline.go:35-49 | a duration cutoff is written once, by a check at or after the deadline, with the deadline as its time |
| CardLedger.ApplyKeepsInv | internal/central/card/online_card.go:55-261 | every swipe, refund, freeze and order event keeps the ledger invariant |
| CardLedger.SwipeShape | internal/central/card/online_card.go:63-228 | an accepted swipe replays an operation, extends a session or starts one, with the exact changes of each |
| CardLedger.ExtendsExactly | internal/central/card/online_card.go:105-148 | on an occupied port a fresh swipe extends the session if and only if order, time, ownership, cutoff, pending operations, package, wallet and payment all allow it, and buys exactly its package |
| CardLedger.ExtensionTooDear | internal/central/card/online_card.go:127-132 | the balance is reported too low exactly if nothing else about the session stands in the way |
| CardLedger.StartsExactly | internal/central/card/online_card.go:149-214 | on a free port a fresh swipe starts a session if and only if the port is available, the package fits and the wallet covers it, with that package and maximum |
| CardLedger.ReplaysExactly | internal/central/card/online_card.go:68-83 | a used event answers its own operation, to the same card on the same port only |
| CardLedger.GoodCardNoExactly | internal/central/card/online_card.go:57-59 | a card number is good exactly if it is the decimal form of a positive 32-bit number |
| CardLedger.RefundsExactly | internal/central/card/online_card.go:236-260 | a refund succeeds if and only if that much is left, and moves exactly that |
| CardLedger.FreezesExactly | internal/central/card/deadline.go:32-50 | a check writes the cutoff if and only if the order is charging, its time is over and it has none |
| CardLedger.CardStore.Swipe | internal/central/card/online_card.go:55-230 | the swipe transaction; a refusal changes nothing |
| CardLedger.CardStore.Refund | internal/central/card/online_card.go:236-261 | the refund transaction |
| CardLedger.CardStore.FreezeDeadline | internal/central/card/deadline.go:18-53 | the deadline transaction |
| CardLedger.RefundConserves | internal/central/card/online_card.go:236-260 | a refund moves cents from the payment back to the wallet |
| CardLedger.SwipeFrame | internal/central/card/online_card.go:116-122 | swipes write no cutoff and sell nothing to an order that has one |
| SchemePublication.RunInv | internal/central/admin/charging_schemes.go:160-288 | in every reachable state each scope has at most one active rule, versions rise, receipts match their rules, and every device's effective scheme passes its capability check |
| SchemePublication.CompareAndSet | internal/central/admin/charging_schemes.go:226-234 | two publications for one scope with the same expected version both succeed only at the last uint32 version |
| SchemePublication.SameAgainExactly | internal/central/admin/charging_schemes.go:226-249 | the same request under an unused ID succeeds again after a publication if and only if the expected version was 2^32-1 |
| SchemePublication.VersionIsReachable | internal/central/admin/charging_schemes.go:226-249 | every version up to the last is reached by some run of publications |
| SchemePublication.CompareAndSetFails | internal/central/admin/charging_schemes.go:226-249 | so some run publishes twice for one scope with the same expected version |
| SchemePublication.IncreasesExactly | internal/central/admin/charging_schemes.go:226-243 | a publication's version exceeds all earlier ones of its scope if and only if the expected version is not 2^32-1 |
| SchemePublication.ReplayIsFirst | internal/central/admin/charging_schemes.go:186-202 | a repeated request answers its first result at any later time and changes nothing; with another actor or payload it conflicts |
| SchemePublication.PublishTakesEffect | internal/central/admin/charging_schemes.go:235-243 | a published scheme is at once effective for exactly the checked devices and for no other |
| SchemePublication.PublishesExactly | internal/central/admin/charging_schemes.go:160-253 | a new request publishes if and only if it is well formed, its scheme can be had in the version named, is valid and executable once normalised, and the version is the expected one |
| SchemePublication.InheritsExactly | internal/central/admin/charging_schemes.go:328-370 | a device falls back if and only if the open station has a valid rule that it can carry out and the version is the expected one; only its own rules are disabled |
| SchemePublication.InheritTakesEffect | internal/central/admin/charging_schemes.go:347-370 | a device that inherits has the station's rule in effect; its version stays, so inheriting again with it succeeds |
| SchemePublication.PublishKeepsCapable | internal/central/admin/charging_schemes.go:261-288 | publishing to a station or device keeps every device's effective scheme executable |
| SchemePublication.InheritKeepsCapable | internal/central/admin/charging_schemes.go:347-368 | so does falling back to the station's scheme |
| SchemePublication.CheckSchemeTargets | internal/central/admin/charging_schemes.go:261-288 | the capability loop with early return decides exactly whether all targets pass |
| SchemePublication.Store.Apply | internal/central/admin/charging_schemes.go:160-258 | the publication transaction; a refusal changes nothing |
| SchemePublication.Store.Inherit | internal/central/admin/charging_schemes.go:328-376 | the inherit transaction; a refusal changes nothing |
| SchemePublication.PublishCounts | internal/central/admin/charging_schemes.go:231-234 | a publication moves its scope on by exactly one version |
| LeaseQueue.DeliveredIsFinal | internal/central/admin/delivery_dispatch.go:204-233 | no later step of any run changes a delivered report |
| LeaseQueue.DeliveredWasSent | internal/delivery/regulatory.go:61-73 | a delivered report was sent successfully under the token that finished it |
| LeaseQueue.AttemptsAndDelay | internal/central/admin/delivery_dispatch.go:210-220 | attempts count the effective finishes; after the k-th failure the report waits 2^min(k,11) seconds |
| LeaseQueue.TokenFinishesOnce | internal/central/admin/delivery_dispatch.go:207-229 | a token finishes at most one report, at most once |
| LeaseQueue.DeadTokenIsInert | internal/central/admin/delivery_dispatch.go:207-229 | an issued token that its report does not hold, spent, superseded or foreign, changes nothing now or at any later time |
| LeaseQueue.SupersededTokenIsInert | internal/central/admin/delivery_dispatch.go:161-172 | a worker whose report was claimed again can never finish it with the old token |
| LeaseQueue.SpentTokenIsInert | internal/central/admin/delivery_dispatch.go:207-229 | a spent token changes nothing at any later time |
| LeaseQueue.ReclaimNeedsExpiry | internal/central/admin/delivery_dispatch.go:161-172 | a claimed report without a finish is claimed again only after its two-minute lease |
| LeaseQueue.ClaimRespectsBackoff | internal/central/admin/delivery_dispatch.go:161-164 | after its k-th failure in a row a report is not claimed before 2^min(k,11) seconds have passed |
| LeaseQueue.EventuallyDue | internal/central/admin/delivery_dispatch.go:161-164 | every undelivered report is due from some time on |
| LeaseQueue.DueIsClaimed | internal/central/admin/delivery_dispatch.go:161-164 | a due report is claimed unless enough due reports with smaller IDs fill the batch |
| LeaseQueue.RunInv | internal/central/admin/delivery_dispatch.go:139-233 | leases, tokens, attempts and deliveries agree in every state of every run |
| LeaseQueue.Dispatch.Claim | internal/central/admin/delivery_dispatch.go:139-184 | the claim transaction: exactly the selected rows get leases with their tokens |
| LeaseQueue.Dispatch.Finish | internal/central/admin/delivery_dispatch.go:204-233 | the finish transaction in item order; finished plus lost is the number of items |
| LeaseQueue.FinishIsSteps | internal/central/admin/delivery_dispatch.go:204-233 | posting a batch is a piece of a run, one finish after the other |
| LeaseQueue.FinishExactly | internal/central/admin/delivery_dispatch.go:204-233 | each report whose token its item names ends delivered or queued with its backoff as the item says; all others are untouched |
| LeaseQueue.FinishedExactly | internal/central/admin/delivery_dispatch.go:224-228 | finished is the number of items whose token was held |
| LeaseQueue.SendBatch | internal/delivery/regulatory.go:58-73 | one receipt per claimed report under its own token, in order |
| DeviceCsv.RoundTrip | admin-web/src/utils/deviceCsv.ts:11-28 | reading a written document from any row start gives back its non-blank rows with their starting lines |
| DeviceCsv.SourceRoundTrip | admin-web/src/utils/deviceCsv.ts:4-28 | the same for whole texts, with or without a byte order mark |
| DeviceCsv.AcceptsExactly | admin-web/src/utils/deviceCsv.ts:4-28 | a text is accepted if and only if it is some properly quoted document's text, and then with exactly that document's rows |
| DeviceCsv.RefusesAt | admin-web/src/utils/deviceCsv.ts:10-27 | a refused text breaks off in a quoted cell, goes on after a closing quote or has a quote in a plain cell, and the error names which and the line |
| DeviceCsv.BlankExactly | admin-web/src/utils/deviceCsv.ts:9 | a row is dropped exactly if all its cells are white space |
| DeviceCsv.TrimExactly | admin-web/src/utils/deviceCsv.ts:9 | trimming takes off all white space at both ends and nothing else |
| DeviceCsv.Unread | admin-web/src/utils/deviceCsv.ts:11-28 | every accepted text was written from a document |
| DeviceCsv.QuotedFirstCellHidesBom | admin-web/src/utils/deviceCsv.ts:4 | a quoted first cell keeps its own leading byte order mark |
| DeviceCsv.ReadRows | admin-web/src/utils/deviceCsv.ts:3-28 | the character loop computes the lexer function, error lines included |
| DeviceImport.ParseDeviceCsv | admin-web/src/utils/deviceCsv.ts:3-46 | succeeds exactly on a good sheet, with one device per row; an error names what is wrong and its first line |
| DeviceImport.ParsedExactly | admin-web/src/utils/deviceCsv.ts:36-44 | a row yields a device exactly if its five trimmed cells are the ID, vendor, station, ports and model of an importable one |
| DeviceImport.DeviceRoundTrip | admin-web/src/utils/deviceCsv.ts:36-44 | every importable device survives being written into a row and read back |
| DeviceImport.KeyExactly | admin-web/src/utils/deviceCsv.ts:39-40 | two devices count as the same exactly if their IDs differ at most in the case of letters |
| DeviceImport.CodePointsExactly | admin-web/src/utils/deviceCsv.ts:43 | a model is measured in code points |
| DeviceImport.ParseRows | admin-web/src/utils/deviceCsv.ts:29-45 | header, row count and row checks |
| DeviceImport.CheckRows | admin-web/src/utils/deviceCsv.ts:33-45 | refuses exactly the first row that is malformed or repeats a device |
| Alerts.OnlyNewestIsOpen | internal/central/admin/alerts_sync.go:121-149 | of a device's alerts on one metric only the newest can be active or acknowledged |
| Alerts.IntervalsInOrder | internal/central/admin/alerts_sync.go:130-149 | successive alerts of one scope cover disjoint, ordered intervals |
| Alerts.RecoveryIsEvidenced | internal/central/admin/alerts_sync.go:157-191 | a recovery applies only while the alert still carries the event key its heartbeat was fetched for, so the heartbeat is later than the latest recorded report |
| Alerts.RaisesExactly | internal/central/admin/alerts_sync.go:129-147 | a report raises an alert exactly if its scope has none or the newest was over before the report |
| Alerts.RecordsExactly | internal/central/admin/alerts_sync.go:121-149 | what a report does in a run: raise an alert of its own, become the latest report of the open one, or nothing |
| Alerts.RecoversExactly | internal/central/admin/alerts_sync.go:163-192 | a recovery round resolves each alert exactly by the evidence found for it; no alert depends on another |
| Alerts.ReportsExactly | internal/central/admin/alerts_sync.go:70-89 | a round of reports is one report after the other; those that fail change nothing |
| Alerts.ProcessedExactly | internal/central/admin/alerts_sync.go:70-89 | marked as processed are exactly the reports that decode and are well formed |
| Alerts.AcknowledgesExactly | internal/central/admin/operations.go:210-226 | acknowledging takes on an active alert and leaves everything else |
| Alerts.ReplayRaisesNothing | internal/central/admin/alerts_sync.go:110-151 | as long as no open alert is given an older report, a processed report never raises an alert again |
| Alerts.OlderReportReopens | internal/central/admin/alerts_sync.go:130-137 | without that condition it can: any run that processed a report and whose alert is given a report older by more than one tick goes on to the same report raising a second alert |
| Alerts.RunInv | internal/central/admin/alerts_sync.go:112-193 | alerts stay timely and ordered under reports, acknowledgements, fetches and recoveries in any order |
| Alerts.AlertStore.RecordFault | internal/central/admin/alerts_sync.go:112-151 | one report: the table afterwards and whether an alert was raised |
| Alerts.AlertStore.RecordReports | internal/central/admin/alerts_sync.go:67-89 | the report loop: processed are exactly the accepted reports; a failing one stops no other |
| Alerts.AlertStore.ResolveRecovered | internal/central/admin/alerts_sync.go:156-194 | the recovery loop |
| Alerts.AlertStore.Acknowledge | internal/central/admin/operations.go:205-233 | succeeds exactly on an open alert and changes only an active one |
| Reconcile.ReconcileType | internal/central/admin/finance_ops.go:209-248 | lists every disputed reference once and correctly; the recorded difference is external minus internal total, for every map iteration order |
| Reconcile.LoopsFindAll | internal/central/admin/finance_ops.go:226-241 | the two comparison loops find all differences in any iteration order |
| Reconcile.NoDiffsExactly | internal/central/admin/finance_ops.go:226-241 | no difference is listed if and only if the books agree and the channel knows no unknown reference |
| Reconcile.ListedExactly | internal/central/admin/finance_ops.go:226-241 | a reference is listed exactly if its amounts differ or only the channel has it, with both amounts and the reason |
| Reconcile.ZeroRowIsListed | internal/central/admin/finance_ops.go:235-241 | an unknown channel row of 0 cents is listed although the books agree |
| Reconcile.IndexKeepsSums | internal/central/admin/finance_ops.go:318-327 | aggregation keeps each reference's sum modulo 64 bits and skips rows without reference |
| Reconcile.IndexKeepsTotal | internal/central/admin/finance_ops.go:318-327 | and the total of all rows with a reference |
| Reconcile.IndexAmounts | internal/central/admin/finance_ops.go:318-327 | the aggregation loop |
| Reconcile.CollectChannel | internal/central/admin/finance_ops.go:181-192 | accepts exactly 1 to 2000 rows with valid references and aggregates them |
| Reconcile.CentsOf | internal/central/admin/finance_ops.go:243-248 | a total is the sum of the ledger in any iteration order |
| BrowserSession.StoredIsLatest | admin-web/src/api/session.ts:38-93 | token, refresh token and profile in the store always descend from the latest login, with no logout since |
| BrowserSession.LateRotation | admin-web/src/api/session.ts:44-51 | a rotation's answer is written exactly if nobody logged in or out since it was asked for |
| BrowserSession.LateProfile | admin-web/src/api/session.ts:54-70 | a profile answer is written only for the same login, token and account it was asked for |
| BrowserSession.RefreshExactly | admin-web/src/api/session.ts:87-92 | in every state a failed request is refused under another login, answered by an exchanged token, or sends the stored refresh token |
| BrowserSession.EnsureExactly | admin-web/src/api/session.ts:78-86 | in every state the refresh token is sent exactly if the stored token ends within 30 seconds |
| BrowserSession.AsksExactly | admin-web/src/api/session.ts:54-57 | a profile is asked for exactly by a stored login with a positive safe account |
| BrowserSession.SyncExactly | admin-web/src/api/session.ts:59-67 | a profile is stored exactly if login, token and account are unchanged and it is well formed and of that account |
| BrowserSession.LoginExactly | admin-web/src/api/session.ts:38-43 | a login stores its epoch, tokens and profile, with the typed name only if the server gives none |
| BrowserSession.ClearIsOwn | admin-web/src/api/session.ts:73-77 | a logout empties the store exactly if its login is still the latest |
| BrowserSession.OneRotationPerToken | admin-web/src/api/client.ts:20-27 | under one shared lock no token or refresh token is ever exchanged successfully twice |
| BrowserSession.FollowersReuse | admin-web/src/api/session.ts:87-92 | every other request that failed with the exchanged token is answered from the store |
| BrowserSession.LockedAnswerIsWritten | admin-web/src/api/session.ts:78-92 | a rotation that holds the lock is never overtaken |
| BrowserSession.RunInv | admin-web/src/api/session.ts:32-94 | the store, the descent of tokens and all waiting requests agree in every state of every run |
| BrowserSession.Browser.Write | admin-web/src/api/session.ts:38-43 | the three keys and one change notice |
| BrowserSession.Browser.Login | admin-web/src/api/session.ts:72 | a new epoch, then the three keys |
| BrowserSession.Browser.Clear | admin-web/src/api/session.ts:73-77 | removes all four keys of its own epoch, or nothing |
| BrowserSession.Browser.BeginRefresh | admin-web/src/api/session.ts:87-92 | refused, answered or sent, up to the request |
| BrowserSession.Browser.BeginEnsure | admin-web/src/api/session.ts:78-86 | the same for the early refresh with its 30 second margin |
| BrowserSession.Browser.EndRotate | admin-web/src/api/session.ts:47-50 | after the request: the store and the outcome |
| BrowserSession.Browser.EndSync | admin-web/src/api/session.ts:59-67 | after the profile request: the store, the outcome and whether a change is announced |
| RefreshRing.RingAndExpiry | internal/central/admin/session.go:63-74 | at any time the previous list is exactly the last 32 superseded digests in order, and the expiry is that of the login |
| RefreshRing.ExchangedOnce | internal/central/admin/session.go:63-74 | no refresh token is ever exchanged twice |
| RefreshRing.RotateExactly | internal/central/admin/session.go:63-74 | a rotation succeeds exactly for the newest digest; superseded ones are refused |
| RefreshRing.RevokeExactly | internal/central/admin/session.go:123-132 | a revocation succeeds exactly for the newest digest and the 32 before it |
| RefreshRing.RevokedForever | internal/central/admin/session.go:123-132 | a revoked session never rotates, revokes or exists again |
| RefreshRing.MatchesExactly | internal/central/admin/session.go:182-199 | a session counts for exactly the account and version of its login, until seven days after it or its revocation, however often it was rotated |
| RefreshRing.ParseExactly | internal/central/admin/session.go:165-180 | a token parses to exactly the session ID and secret it was formatted from |
| RefreshRing.GeneratedParses | internal/central/admin/session.go:41-59 | every generated token parses |
| RefreshRing.DecodableExactly | internal/central/admin/session.go:173-178 | for decoding the number of letters counts; line breaks are skipped and any other character is refused |
| RefreshRing.RunInv | internal/central/admin/session.go:41-132 | entries, issued digests and exchanges agree in every state of every run |
| RefreshRing.Sessions.Create | internal/central/admin/session.go:41-59 | a new session with an empty list and a seven-day expiry |
| RefreshRing.Sessions.Rotate | internal/central/admin/session.go:78-103 | parses, compares, pushes and keeps the expiry; anything else changes nothing |
| RefreshRing.Sessions.Revoke | internal/central/admin/session.go:106-132 | the revoke script with its early returns |
| Listener.BoundedConnections | internal/protocol/listener.go:57-74 | served connections are registered, registered ones hold tokens, tokens never exceed the maximum |
| Listener.ErrorSendNeverBlocks | internal/protocol/listener.go:41-54 | an accept goroutine can always send its error at once |
| Listener.NoSilentStop | internal/protocol/listener.go:48-56 | while Serve waits uncancelled, a stopped acceptor has left an error to be seen |
| Listener.AdmitsExactly | internal/protocol/listener.go:57-78 | an accepted connection is admitted exactly while fewer than the maximum hold tokens, else rejected |
| Listener.ReturnsReason | internal/protocol/listener.go:82-97 | Serve returns the cancellation only if cancelled, else the error of an acceptor that stopped for it |
| Listener.CancelledStopsQuietly | internal/protocol/listener.go:51-55 | after a cancellation accept errors are not reported |
| Listener.ReleaseNeverBlocks | internal/protocol/listener.go:63-69 | and a connection goroutine can always return its token |
| Listener.NoStartAfterDrain | internal/protocol/listener.go:89-96 | after the accept goroutines are awaited no connection is accepted, admitted or started |
| Listener.CleanReturn | internal/protocol/listener.go:82-97 | when Serve returns every accepted connection is closed and no listing, token or goroutine is left |
| Listener.NeverStuck | internal/protocol/listener.go:82-97 | from shutdown to return the program can always take a step of its own |
| Listener.DrainIsBounded | internal/protocol/listener.go:89-97 | once the listeners are closed a run has a bounded number of steps left |
| Listener.RunInv | internal/protocol/listener.go:40-97 | goroutine positions, connections, channels and wait groups agree in every state of every run |
| Listener.AcceptedStays | internal/protocol/listener.go:45-80 | no accepted connection is forgotten by the model, so the return theorem covers all |
| Listener.Bind | internal/protocol/listener.go:19-38 | binds all endpoints or closes every listener it opened; succeeds exactly on a valid configuration |
| Registry.EntryIsLatest | internal/protocol/registry.go:51-73 | a device's entry is its most recent attachment and is there exactly until that one's detach ran |
| Registry.LateDetach | internal/protocol/registry.go:66-72 | a late or repeated detach of an older attachment changes no entry |
| Registry.ReplacedIsClosed | internal/protocol/registry.go:56-65 | every replaced session is closed exactly once, by its replacer, and no other is |
| Registry.ReplacesExactly | internal/protocol/registry.go:56-65 | an attachment is replaced exactly if a later one came before its own detach |
| Registry.SendsToLatest | internal/protocol/registry.go:75-83 | a command goes to the most recent attachment at its look-up, or nowhere |
| Registry.RunInv | internal/protocol/registry.go:42-83 | entries, owed closes and detaches agree in every interleaving |
| Registry.Sessions.Attach | internal/protocol/registry.go:51-59 | maps the device to a fresh entry and hands back the previous one |
| Registry.Sessions.Detach | internal/protocol/registry.go:66-72 | removes the entry only if it is its own |

## Left out

- SQL text, isolation levels, gap locks and deadlocks: a transaction is one atomic step, and the answer of a locking query is a parameter with the query's meaning as its precondition.
- JSON encoding and decoding are the identity, except that an undecodable fault report, profile or template is an error value; digests of request payloads are compared as the payloads themselves.
- UUIDs, session IDs, secrets and their digests are fresh, and an event key stands for one event; their generation is not modelled.
- Pricing: automatic pricing, scheme normalisation, validation and capability checks are arbitrary deterministic functions. The pricing rules themselves are not part of this model.
- Allocation.SortRemainders: sorts by insertion where the code calls the library's sort; `Allocation.PositionIsRank` is why any correct sort gives the same answer.
- Settlement.Resolve: the query for the station's template is a parameter, and the parties' display names, which are only copied, are not modelled.
- BillingPipeline.Service.Bill: the order of the due list, schedules and months are not modelled; whether the bill is issued and the split booked is a parameter here, and the booking itself is `Settlement.dfy`.
- Backlog.Reached: speaks of fixed templates, and of calculations that only the rounds settle while newer ones join; errors while reading a template or month, after which the loop goes on, are not modelled.
- Settlement.Store.SettleBacklog: a station is without a template or has one; other errors of reading it are not modelled.
- BillingPipeline.RetryCompletes: assumes that the order's source still reads as it was calculated and that the payment covers the fee unless it was charged before, which the charge service checks; its refunds and campaigns are not part of this model.
- CardLedger.CardStore.Swipe: the order's own payment status, pricing snapshots, intents and event logs are not modelled, and the scheme's card package is a parameter.
- CardLedger.CardStore.Refund: refund records and their numbers are not modelled; the order is one that exists with its wallet, as both callers have locked it.
- CardLedger.ApplyKeepsInv: device acknowledgements, the end of a charge and stop requests are order events with the effect their own packages give them on the modelled tables.
- SchemePublication.RunInv: the set of devices stays fixed, because adding a device goes through a weaker check of its own; effect dates of rules, which publications leave empty, are not modelled.
- SchemePublication.Store.Apply: permissions and data scopes of the administrator and audit rows are not modelled.
- LeaseQueue.Dispatch.Finish: error texts and modes are not modelled, and the system applies items one at a time, which only adds interleavings.
- DeviceCsv.RoundTrip: texts are sequences of UTF-16 code units; error messages keep their line and kind, not their wording.
- Alerts.AlertStore.ResolveRecovered: which alerts the loop reads and what the gateway finds for them is a parameter, cut off where a request fails and the loop ends; the gateway's own query and the translation of fault codes are not part of this model.
- Alerts.OlderReportReopens: its heartbeat is one that the gateway's contract allows; the gateway in this repository refuses the request, because it demands an `after` time (`internal/gateway/control/device_faults.go:108`) and the alert service sends only `after_key` (`internal/central/admin/alerts_sync.go:173`), so no recovery is fetched until the two agree.
- Reconcile.ReconcileType: reading the internal ledgers, storing the result and resolving it are not modelled.
- BrowserSession.Browser.EndSync: sharing one pending profile request within a tab, and the redirect after a logout, are not modelled.
- BrowserSession.OneRotationPerToken: holds with one lock for all tabs; without it only the theorems on late answers hold, and a lock that is lost with its tab is not modelled.
- RefreshRing.Sessions.Rotate: the precision of numbers in Lua's JSON library and failures of Redis itself are not modelled; multi-factor challenges are left out.
- Listener.NeverStuck: serving ends by itself once its connection is closed, which the adapters have to ensure; log lines are not modelled.
- Registry.ReplacedIsClosed: counts the close calls of the registry; what a session does on close, and the optional callback before it, are not modelled.
- Order, payment, refund and bill handling outside the cited lines: the models meet them only as the events and parameters named above.
- The console's pages, the mini-program, start-up code, senders, exports and plain list or edit handlers: they show, forward or store single records and keep no state across the operations modelled here.
