# firmOS: what must never go wrong with a voucher

A Dafny model of the parts of firmOS that write into outside accounting systems and of the exact arithmetic
around them. The repository promises never to write a voucher twice, never to write one that nobody approved,
and never to call a write done without a read-back that matches. The model states these promises over whole
runs: crashes between any two steps, lost replies, any number of workers, people working in Tally or Zoho at the
same time.

`dafny verify dfyconfig.toml` checks everything.

| module | what it is |
|---|---|
| Options | a value that may be missing |
| FinanceActions | the action table: status trigger, approval bound to a payload, propose, approve, cancel |
| Canonical | Tally orders, vouchers and the comparison of a read-back with an order |
| TallyWrite, TallySafety, TallyRuns | cloud, agent journal and Tally company as one state machine; its invariant; its runs |
| TallyOutcomes | where an action ends, from what was reported, read back, searched, imported and claimed |
| TallyRecovery | from which states the agent can finish its action, and from which it can write it again |
| TallyAgent | the same protocol as classes: the three endpoints, the journal, one poll of the agent |
| TallyText | amounts and names on their way into XML and back |
| ZohoWorker, ZohoSafety, ZohoRuns, ZohoQueue | actions, jobs, workers and provider as one state machine; its invariant; its runs; when both queues agree |
| ZohoOutcomes | where an action ends, from what was claimed, searched, POSTed and read back |
| ZohoProcesses | the same as classes: the statements of the API and the scheduler, one pass of the worker |
| IncomeTaxRules, IncomeTaxLaws, SpecialRates, Tax | the two income-tax engines, what they promise, where they agree |
| Gstin, Nonce, Itc | the GSTIN check character; replay protection; set-off of input tax credit |
| TallyIngest, ZohoSync, Registers | snapshots of Tally, paged syncs of Zoho masters, the one active register row |
| Gstr2b, Reconcile | the two matchers |

State machines are functions from a state and an event to a state; a run is a list of events. The code's own
loops and row updates are methods, each proved equal to a specification function or to steps of the state
machine, and the promises are proved about those.

## Assumptions

- One active device with one poll loop for a Tally company. A request is processed before its client gives up, or
  never. A committed import shows in the next register export. People working in Tally do not type remote ids of the
  form `firmos:...` and do not change one; they may add, change, re-date and delete vouchers.
- A Zoho POST is processed before its client gives up, or never. A committed object is found by the next search for
  its reference. People working in Zoho do not change references.
- SHA-256 of canonical JSON is injective; signature checks are a boolean; the write gates are arbitrary booleans.
- Statements outside a transaction are separate steps; a transaction is one step. Any row SKIP LOCKED may leave over
  may be the one taken.
- A worker process that ends comes back under a new worker id.

## What the proofs found

- A Tally action can end FAILED although its voucher is in the books: a 403 on an export, or a voucher shown without a
  GUID, counts as a definite rejection (exactly when: `TallyOutcomes.ReadBackDecides`, `TallyOutcomes.SearchDecides`,
  `TallySafety.FailedWithVoucherIffMisread`; a run: `TallyRuns.FailedActionCanHaveItsVoucher`).
- A voucher that somebody re-dates while its action is journalled without a result can be written twice, and no other
  can (`TallyRecovery.RedatingIsSafeIffTimely`; a run: `TallyRecovery.RedatedVoucherIsWrittenTwice`).
- One lost report reply, or a crash right after a report, stops a Tally agent for good; from every other state it can go on
  (`TallyRuns.ClosedEntryStopsTheAgent`, `TallyRecovery.CanFinishIffNotStuck`).
- A Zoho cancel from RETRY_SCHEDULED, or one that overtakes the job INSERT of an approval, leaves a job that ends
  the worker process which claims it. The database trigger still keeps anything from being written
  (`ZohoQueue.OrphanKillsItsWorker`, `ZohoRuns.CancelledIsNeverWritten`).
- The two tax engines disagree under the old regime between 2,50,000.20 and 5,00,000 rupees (`Tax.EnginesAgreeOld`).
- Marginal relief bounds tax by the slab tax at the threshold, not by the tax due there, so the excess can cost more
  than itself (exactly when: `IncomeTaxLaws.BandKeepsPromise`; the bundled rule of 2025-26 is safe).
- Marginal relief compares special-rate tax with slab tax: the surcharge can turn negative and a paisa of income can
  save tax (`SpecialRates.GrossNeverFallsIff`, `SpecialRates.OnePaisaSavesTax`).
- Setting IGST credit off against CGST before SGST is not neutral, as the comment at gst.py:79-80 says it is
  (`Itc.HalfIsReached`, `Itc.OptimalUnlessWasteful`).
- Nonces are stored under the start of the transaction but checked against a later clock reading, so ten minutes cover
  the two-sided window only if no time passes in between (`Nonce.TenMinutesAreTight`).
- A voucher that changes from purchase to sale stays active in both registers (`TallyIngest.ChangedBookIsCountedTwice`).
- GSTR-2B runs matched before each other's acceptance accept the same document again
  (`Gstr2b.AcceptedAgainIffClaimedSince`, `Gstr2b.NothingNewIff`).
- The matcher of reconcile.py never suggests: every eligible pair is matched automatically (`Reconcile.NothingIsSuggested`).
- A valid Tally order can never succeed unless its total is its largest leg (`Canonical.VerifiableIffLargestLeg`,
  `TallySafety.SucceededMeansLargestLeg`, `TallyText.TwoPositiveLegsNeverVerify`).

## Model

| member | source | states |
|---|---|---|
| FinanceActions.ProposeIsEngineStep | firmos-backend/core/finance_actions/engine.py:26-41 | A proposal under a new key adds one unapproved row, and no later proposal under that key changes anything; a repeated key changes nothing; no other row changes |
| FinanceActions.ApproveIsEngineStep | firmos-backend/core/finance_actions/engine.py:43-56 | Approves exactly a row that awaits approval under the hash of its stored payload, binds that hash, and touches no other row |
| FinanceActions.QueueIsEngineStep | supabase/migrations/20260714000005_trust_spine.sql:123-146 | The second UPDATE of an approval, which names only the id, moves exactly the row just approved from APPROVED to QUEUED, and no other |
| FinanceActions.CancelIsEngineStep | firmos-backend/core/finance_actions/engine.py:74-84 | Cancels exactly a row in AWAITING_APPROVAL, QUEUED or RETRY_SCHEDULED, and touches no other row |
| Canonical.RemoteIdsDiffer | firmos-backend/connectors/tally/canonical.py:68-69 | Different actions have different remote ids |
| Canonical.NoMismatchIffSameVoucher | firmos-backend/connectors/tally/canonical.py:104-144 | A read-back has no mismatch exactly when it is the approved voucher, field by field and leg by leg |
| Canonical.MismatchesNameTheField | firmos-backend/connectors/tally/canonical.py:104-144 | Each mismatch is reported under the field that departs, and no other is |
| Canonical.VerifiableIffLargestLeg | firmos-backend/connectors/tally/canonical.py:104-144 | Some read-back with the total the agent works out from its legs has no mismatch exactly when the order's total is its largest leg |
| TallyWrite.SettleIsVerdict | firmos-backend/api/routes/tally_agent_actions.py:154-192 | The chain of status updates of a report passes the trigger on every claimed row and adds up to one verdict |
| TallyWrite.StrictReadingIsHonest | apps/firmos-agent/src-tauri/src/tally_write.rs:96-107 | With truthful counts the strict reading of an import reply takes only a committed new voucher for created, and never a committed one for rejected |
| TallySafety.NextKeepsBase | apps/firmos-agent/src-tauri/src/lib.rs:96-154 | Every step of cloud, agent, Tally and its users, with a crash possible in between, keeps rows, journal, lease and proofs consistent |
| TallySafety.NextKeeps | apps/firmos-agent/src-tauri/src/lib.rs:96-154 | And every step but an untimely change of date keeps the books consistent with them |
| TallySafety.AtMostOneVoucherPerAction | apps/firmos-agent/src-tauri/src/tally_write.rs:153-191 | Over every run with crashes and lost replies in which nobody re-dates a voucher while its action is journalled without a result, Tally holds at most one voucher of each action |
| TallyRecovery.RedatingIsSafeIffTimely | apps/firmos-agent/src-tauri/src/tally_write.rs:153-191 | In every state that a timely run reaches, whatever the agent is doing, every timely continuation of a change of date keeps at most one voucher of each action exactly when the action is not journalled without a result |
| TallyRecovery.UntimelyRedateDuplicates | apps/firmos-agent/src-tauri/src/lib.rs:96-154 | The other half as a run: after any other change of date a crash, a resumed poll, a search and an import leave two vouchers of the action |
| TallySafety.JournalHoldsOneLeasedAction | apps/firmos-agent/src-tauri/src/state.rs:71-150 | The journal never holds two actions; a held action is leased or already reported; no action is claimed more than three times |
| TallySafety.ExpiryOnlyHitsUnimported | firmos-backend/api/routes/tally_agent_actions.py:73-82 | A lease that is taken back by expiry belongs to an action that was never imported |
| TallySafety.UnclaimedActionHasNoVoucher | firmos-backend/api/routes/tally_agent_actions.py:83-111 | A cancelled action, or one that waits to be claimed, has no voucher in Tally |
| TallySafety.SucceededMeansApprovedAndVerified | firmos-backend/api/routes/tally_agent_actions.py:163-192 | SUCCEEDED means approved with the hash of the stored payload, and a MATCHED read-back of a voucher the company really held |
| TallySafety.SucceededMeansLargestLeg | apps/firmos-agent/src-tauri/src/tally_write.rs:113-121 | Over every run only an order whose total is its largest leg ever succeeds |
| TallyOutcomes.ReportDecides | firmos-backend/api/routes/tally_agent_actions.py:154-192 | A report of a leased action ends FAILED for a rejection or an accepted voucher without GUID, NEEDS_REVIEW for an ambiguous one, and otherwise SUCCEEDED exactly when the read-back is the approved voucher under the reported GUID; no other row changes |
| TallyOutcomes.ReportRecords | firmos-backend/api/routes/tally_agent_actions.py:165-178 | An accepted report with a GUID, and no other, puts one check of its read-back on record, without differences exactly when the action SUCCEEDS |
| TallyOutcomes.ReadBackDecides | apps/firmos-agent/src-tauri/src/tally_write.rs:186-190 | After an import the read-back decides: FAILED if it is refused with 401 or 403 or shows no GUID, SUCCEEDED exactly if it shows the approved voucher, NEEDS_REVIEW otherwise; the books keep what was imported |
| TallyOutcomes.SearchDecides | apps/firmos-agent/src-tauri/src/tally_write.rs:164-171 | A search for a voucher that an interrupted execution left behind ends the action by exactly the same conditions |
| TallyOutcomes.ImportFollowsEmptySearch | apps/firmos-agent/src-tauri/src/tally_write.rs:164-171 | In every state of the invariant an import follows a search exactly when the register is listed and the books hold no voucher of the action |
| TallyOutcomes.ImportDecides | apps/firmos-agent/src-tauri/src/tally_write.rs:126-134 | An import that is not answered with created ends FAILED if Tally complains or refuses, and NEEDS_REVIEW if the answer is unclear |
| TallyOutcomes.ClaimDecides | firmos-backend/api/routes/tally_agent_actions.py:73-122 | A claim succeeds exactly for a valid row, queued, to be retried or with a lapsed lease, of less than three claims, behind an open gate; it leases the row for ninety seconds and counts the claim |
| TallyOutcomes.ClaimLeavesOthers | firmos-backend/api/routes/tally_agent_actions.py:73-82 | Other rows lose a lapsed lease and are queued again while less than three claims are counted, and nothing else of them changes |
| TallyOutcomes.LeaseProtects | firmos-backend/api/routes/tally_agent_actions.py:126-138 | A renewal keeps every claim off the row for ninety seconds |
| TallyOutcomes.SampleSucceeds | apps/firmos-agent/src-tauri/src/tally_write.rs:153-191 | One run from the proposal to SUCCEEDED, with exactly one voucher added to the books |
| TallySafety.FailedMeansUnwrittenUnlessMisread | apps/firmos-agent/src-tauri/src/tally_write.rs:126-134 | FAILED means that nothing was written, unless an export that looked for the voucher was refused, or showed it without a GUID, while it stood in the books |
| TallySafety.FailedWithVoucherIffMisread | apps/firmos-agent/src-tauri/src/tally_write.rs:126-134 | Over every run in which nobody deletes vouchers a FAILED action has its voucher in the books exactly when that happened |
| TallyRuns.RunKeepsPayloads | supabase/migrations/20260714000005_trust_spine.sql:111-121 | No event changes a stored payload or its hash |
| TallyRuns.ClosedEntryStopsTheAgent | apps/firmos-agent/src-tauri/src/lib.rs:101-130 | Whenever the journal holds an action the cloud has closed and no report is under way, it stays there in every run that follows, and no action is claimed again |
| TallyRuns.CrashAfterReportSticks | apps/firmos-agent/src-tauri/src/lib.rs:130-131 | A crash between a report and the deletion of its journal entry leads there |
| TallyRuns.LostReportReplyStopsTheAgent | apps/firmos-agent/src-tauri/src/lib.rs:101-130 | So after a committed report whose reply is lost, or such a crash, in any run, the agent never claims again |
| TallyRecovery.CanFinishIffNotStuck | apps/firmos-agent/src-tauri/src/lib.rs:96-154 | In every state that is reached, some run that follows empties the journal exactly when it holds no closed entry without a report under way |
| TallyRuns.FailedActionCanHaveItsVoucher | apps/firmos-agent/src-tauri/src/tally_write.rs:126-134 | One such run from the start: the import commits, the read-back is answered with 403, and the action ends FAILED with its voucher in the books |
| TallyRecovery.RedatedVoucherIsWrittenTwice | apps/firmos-agent/src-tauri/src/tally_write.rs:164-171 | One run from the start in which a re-dated voucher, a crash and a resumed search leave two vouchers of one action |
| TallyAgent.ActionTable.ClaimAction | firmos-backend/api/routes/tally_agent_actions.py:69-122 | Requeues lapsed leases and takes one claimable row, or rolls everything back; equal to the claim of the state machine |
| TallyAgent.ActionTable.RenewLease | firmos-backend/api/routes/tally_agent_actions.py:126-138 | Renews only a row that is still claimed under a lease |
| TallyAgent.ActionTable.ReportResult | firmos-backend/api/routes/tally_agent_actions.py:142-195 | The statements of a report, one after the other, equal to the report of the state machine |
| TallyAgent.JournalStore.PendingClaim | apps/firmos-agent/src-tauri/src/state.rs:81-93 | Finds an entry whenever there is one |
| TallyAgent.JournalStore.CompleteAction | apps/firmos-agent/src-tauri/src/state.rs:133-150 | Claim and result of one action go together, nothing else does |
| TallyAgent.Agent.Lookup | apps/firmos-agent/src-tauri/src/tally_write.rs:164-166 | The register of the date, searched for the remote id, has one answer |
| TallyAgent.Agent.Look | apps/firmos-agent/src-tauri/src/tally_write.rs:113-134 | What an export, refused, broken or listing the voucher, is taken for |
| TallyAgent.Agent.CreateVoucher | apps/firmos-agent/src-tauri/src/tally_write.rs:153-191 | Search, import only if nothing was found, and read back, each a step of the protocol and each a place to crash; undisturbed, the result and the books are those of what the exports and the import answer |
| TallyAgent.Agent.ProcessPending | apps/firmos-agent/src-tauri/src/lib.rs:96-138 | Renew, replay a saved result or create the voucher, save, report, complete: a run of the protocol, which undisturbed empties the journal and reports that result |
| TallyAgent.Agent.PollNow | apps/firmos-agent/src-tauri/src/lib.rs:141-154 | One poll, whatever it meets and wherever it dies, is a run of the protocol and keeps its invariant; undisturbed it takes up what is journalled or else what may be claimed, empties the journal, and leaves action and books where the answers of exports and import put them |
| TallyText.PrintParseRoundTrip | apps/firmos-agent/src-tauri/src/tally_write.rs:29-35 | Printing a paise amount and parsing it back is the identity for every i64 but the least |
| TallyText.LeastAmountIsMisprinted | apps/firmos-agent/src-tauri/src/tally_write.rs:33 | For the least i64 it is not: the amount comes back 16 paise larger |
| TallyText.EscapeIsPerCharacter | apps/firmos-agent/src-tauri/src/tally.rs:15-22 | The five passes escape each character exactly once |
| TallyText.EscapeDecodeRoundTrip | apps/firmos-agent/src-tauri/src/tally.rs:15-22 | An XML reader that decodes the predefined entities gets the name back |
| TallyText.EntriesRoundTrip | apps/firmos-agent/src-tauri/src/tally.rs:245-252 | Legs with trimmed names survive writing and reading, in order |
| TallyText.TotalVerifiesIffLargestLeg | apps/firmos-agent/src-tauri/src/tally_write.rs:109-118 | A stored voucher shows no mismatch of legs, and none of the total exactly when the total is its largest leg |
| TallyText.BalancedVoucherReadsBack | firmos-backend/connectors/tally/canonical.py:104-133 | A valid order whose one positive leg is its total reads back without a mismatch of legs or total |
| TallyText.TwoPositiveLegsNeverVerify | firmos-backend/connectors/tally/canonical.py:72-83 | An order with two positive legs passes validation although no honest read-back of it is without a mismatch |
| ZohoSafety.NextKeeps | firmos-backend/automation/worker.py:51-198 | Every step of the API, the scheduler, any number of workers, the provider and its users keeps the invariant of the write path |
| ZohoSafety.AtMostOneObjectPerAction | firmos-backend/connectors/zoho_books/connector.py:164-212 | With any number of workers, retries, lost POST replies and exceptions the provider holds at most one object an action created |
| ZohoSafety.OneWorkerPerJob | firmos-backend/automation/worker.py:23-49 | Two workers are never at work on one job |
| ZohoSafety.AttemptsAreBoundedAndNumbered | firmos-backend/automation/worker.py:163-198 | At most five claims, attempt rows numbered 1 to the attempt count, and a dead letter exactly for a DEAD_LETTER job of five attempts |
| ZohoSafety.SucceededMeansApprovedAndVerified | firmos-backend/automation/worker.py:102-117 | SUCCEEDED means approved with the hash of the stored payload and a matched verification on record |
| ZohoSafety.OnlyApprovedActionsReachTheProvider | firmos-backend/automation/worker.py:56-85 | A worker that talks to the provider does so for an approved and not cancelled action |
| ZohoSafety.UnexecutedActionHasNoObject | firmos-backend/automation/worker.py:56-69 | An action that never executed has no object |
| ZohoSafety.FinishForm | firmos-backend/automation/worker.py:163-187 | _finish, by way of FAILED when exhausted, sets action, job and attempt to one status, and never touches a cancelled action |
| ZohoRuns.RunIsLater | supabase/migrations/20260714000005_trust_spine.sql:116-141 | Over every run payloads and hashes stay, cancelled actions stay cancelled, and a settled job, DEAD_LETTER included, is never touched again |
| ZohoRuns.CancelledIsNeverWritten | firmos-backend/core/finance_actions/engine.py:74-90 | Once an action is cancelled, from RETRY_SCHEDULED too, no POST creates anything for it |
| ZohoQueue.QueuedTogether | firmos-backend/automation/scheduler.py:5-17 | If no cancel comes while a retry is scheduled or before the job row exists, an action is QUEUED or RETRY_SCHEDULED exactly when its job is |
| ZohoQueue.CancelFromRetryLeavesOrphan | firmos-backend/core/finance_actions/engine.py:83-86 | A cancel from RETRY_SCHEDULED leaves a job waiting beside a cancelled action |
| ZohoQueue.EarlyCancelLeavesOrphan | firmos-backend/core/finance_actions/engine.py:57-71 | So does a cancel between the approval's second UPDATE and its job INSERT |
| ZohoQueue.OrphanIsQueued | firmos-backend/automation/scheduler.py:5-17 | The next tick that is due queues such a job |
| ZohoQueue.OrphanKillsItsWorker | firmos-backend/automation/worker.py:66-69 | The worker that claims such a job is refused by the trigger outside its try block: the process ends, the job stays CLAIMED, nothing is written |
| ZohoProcesses.Database.ProposeAction | firmos-backend/core/finance_actions/engine.py:26-41 | The INSERT with its conflict clause, equal to the proposal of the state machine |
| ZohoProcesses.Database.ApproveAction | firmos-backend/core/finance_actions/engine.py:43-72 | An uninterrupted approval is its three statements in order |
| ZohoProcesses.Database.CancelAction | firmos-backend/core/finance_actions/engine.py:74-90 | An uninterrupted cancel is its two statements in order |
| ZohoProcesses.Database.Tick | firmos-backend/automation/scheduler.py:5-17 | Both UPDATEs of the scheduler in one transaction |
| ZohoProcesses.Database.Claim | firmos-backend/automation/worker.py:23-49 | Takes a queued job with its action and attempt row; finds one whenever there is one |
| ZohoProcesses.Database.Finish | firmos-backend/automation/worker.py:163-187 | The transaction of _finish, undone when the trigger refuses |
| ZohoProcesses.Database.Conclude | firmos-backend/automation/worker.py:102-117 | Verification, SUCCEEDED, attempt and job in one transaction |
| ZohoProcesses.Worker.Look | firmos-backend/connectors/zoho_books/connector.py:193-212 | One search by reference makes the same of its candidates as the specification |
| ZohoProcesses.Worker.ExecuteWrite | firmos-backend/connectors/zoho_books/sales_write.py:32-54 | POST only after a search that found nothing, and a second search after a lost reply: a run of the write path |
| ZohoProcesses.Worker.RunFinanceAction | firmos-backend/automation/worker.py:51-121 | From the preconditions to the last _finish, wherever an exception or the end of the process hits, a run of the write path; with nothing in its way it POSTs the approved bill only where nothing stands under its reference, and ends SUCCEEDED, with a matched check, exactly when the bill is the only object there or is created, and is shown by the read-back, and otherwise as the answers say |
| ZohoOutcomes.ReadBackDecides | firmos-backend/automation/worker.py:102-121 | In every state of the invariant an answered read-back ends in SUCCEEDED with a matched check of what was read exactly when the object exists and is the approved bill, and in NEEDS_REVIEW otherwise |
| ZohoOutcomes.ReplyDecides | firmos-backend/connectors/zoho_books/sales_write.py:32-54 | A POST answered with a rate limit is retried, or dead at the fifth attempt, with a refused login waits for a new one, and with anything but an id is reviewed |
| ZohoOutcomes.SeekMeans | firmos-backend/connectors/zoho_books/connector.py:193-212 | A search finds nobody exactly when nothing stands under the reference, and an object exactly when it is the bill and the only one there |
| ZohoOutcomes.ClaimTakesQueued | firmos-backend/automation/worker.py:23-49 | In every reachable state a claim takes exactly a queued job, counts the attempt and notes its owner |
| ZohoOutcomes.TickQueues | firmos-backend/automation/scheduler.py:5-17 | A tick queues exactly the due jobs that wait for a retry, and their waiting actions |
| ZohoOutcomes.ApprovalQueues | firmos-backend/core/finance_actions/engine.py:43-72 | An uninterrupted approval queues the action under the reviewed hash, and a job for it unless there is one |
| ZohoOutcomes.CancelTakesBoth | firmos-backend/core/finance_actions/engine.py:74-90 | An uninterrupted cancel takes the action and its queued job, and no other job |
| ZohoProcesses.Worker.RunOnce | firmos-backend/automation/worker.py:207-213 | One pass is a run of the write path and keeps its invariant; it takes a job if one is queued, and with nothing in its way ends it as above |
| IncomeTaxRules.ValidateSlabs | firmos-backend/engines/income_tax_rules.py:25-35 | Accepts exactly the slab lists that end open, ascend and have rates from 0 to 100 |
| IncomeTaxRules.ComputeSlabTax | firmos-backend/engines/income_tax_rules.py:37-46 | The slab loop computes the recursive slab tax and its details |
| IncomeTaxRules.SlabTaxIsLipschitz | firmos-backend/engines/income_tax_rules.py:37-46 | Although every slab rounds down on its own, an extra paisa of income costs at most a paisa of tax and never saves any |
| IncomeTaxRules.DetailsAddUp | firmos-backend/engines/income_tax_rules.py:37-46 | The details account for the whole income |
| IncomeTaxRules.DetailsHoldTheTax | firmos-backend/engines/income_tax_rules.py:41-43 | The details account for the whole tax |
| IncomeTaxRules.DetailsAreShares | firmos-backend/engines/income_tax_rules.py:40-44 | Each entry of the details is what the income has in one slab, between its limits, at its rate, with the tax rounded down |
| IncomeTaxRules.ComputeSurcharge | firmos-backend/engines/income_tax_rules.py:49-62 | The loops over the bands compute rate, surcharge and relief as specified |
| IncomeTaxRules.Calculate | firmos-backend/engines/income_tax_rules.py:65-91 | Fails exactly for a rule that does not validate or has no rounding unit; deductions, taxable incomes, details, rebate, surcharge and relief are those of the request; gross tax is the sum of its parts, and payable less refund is gross tax less credits |
| IncomeTaxRules.RoundedIsNearest | firmos-backend/engines/income_tax_rules.py:82 | The rounded amount is a multiple of the unit and none is nearer |
| IncomeTaxRules.OldDeductsTheRequest | firmos-backend/engines/income_tax_rules.py:71-74 | Under OLD the whole non-negative request is deducted, whatever the allowance of the new regime |
| IncomeTaxRules.OldIgnoresTheAllowance | firmos-backend/engines/income_tax_rules.py:71-74 | That allowance does not change gross tax under OLD |
| IncomeTaxRules.NewDeductsTheAllowed | firmos-backend/engines/income_tax_rules.py:71-74 | Under NEW the deduction is within request and allowance, all of a request that the allowance covers, and nothing if either is negative |
| IncomeTaxRules.NewIgnoresTheExcess | firmos-backend/engines/income_tax_rules.py:71-74 | A request above the allowance leaves gross tax as it is at the allowance |
| IncomeTaxRules.RebateTakesUpToTheMaximum | firmos-backend/engines/income_tax_rules.py:76-77 | A resident up to the threshold pays what slab tax exceeds the maximum rebate by, and nobody else gets a rebate |
| IncomeTaxLaws.SurchargeIsNeverNegative | firmos-backend/engines/income_tax_rules.py:54-61 | Without special-rate income the surcharge after marginal relief is never negative, for every rule in order |
| IncomeTaxLaws.TotalAboveThreshold | firmos-backend/engines/income_tax_rules.py:55-61 | Tax and surcharge never exceed slab tax and surcharge as they stand at the threshold before relief, plus the extra income |
| IncomeTaxLaws.FirstPaisaDecides | firmos-backend/engines/income_tax_rules.py:55-61 | One paisa above a threshold costs at most a paisa exactly when rebate and relief take nothing off at the threshold, or take one paisa off and the unrelieved total does not move; two paise or more always break it |
| IncomeTaxLaws.BandKeepsPromise | firmos-backend/engines/income_tax_rules.py:55-61 | For every rule in order, in a whole band each income costs at most its excess more than is due at the threshold exactly when nothing is taken off there, or one paisa under an unrelieved total that climbs by less than the excess |
| IncomeTaxLaws.HundredRupeesDecide | firmos-backend/engines/income_tax_rules.py:55-61 | For a band in the open slab, where a hundred rupees of income cost at most themselves, the incomes up to a hundred rupees above the threshold settle that last case |
| IncomeTaxLaws.OnePaisaCanBeFine | firmos-backend/engines/income_tax_rules.py:55-61 | A rule with one paisa of relief at a threshold whose band keeps the promise |
| IncomeTaxLaws.OnePaisaCanBreakThePromise | firmos-backend/engines/income_tax_rules.py:55-61 | A rule with one paisa of relief at a threshold whose band breaks it |
| IncomeTaxLaws.NarrowBandsBreakThePromise | firmos-backend/engines/income_tax_rules.py:55-61 | For thresholds a paisa apart one more paisa of income costs 500 |
| IncomeTaxLaws.TotalGrows | firmos-backend/engines/income_tax_rules.py:49-62 | Tax and surcharge never fall when income rises |
| IncomeTaxLaws.GrossGrows | firmos-backend/engines/income_tax_rules.py:65-83 | Without special-rate income gross tax never falls when income rises, whatever the deductions |
| SpecialRates.SurchargeSign | firmos-backend/engines/income_tax_rules.py:55-61 | With special-rate tax the surcharge is negative exactly where relief applies and the tax alone exceeds what is permitted at the threshold |
| SpecialRates.GrossNeverFallsIff | firmos-backend/engines/income_tax_rules.py:65-83 | With any special-rate income and deductions, more income never means less gross tax exactly when, at each threshold it can cross, tax and surcharge due there are within what is permitted a paisa above |
| SpecialRates.FirstPaisaSaves | firmos-backend/engines/income_tax_rules.py:65-83 | Special income that ends at a threshold without a surcharge, taxed above what is permitted a paisa further: if the first paisa of normal income leaves the tax after rebate as it is, it turns the surcharge negative and lowers the tax to the permitted amount |
| SpecialRates.OnePaisaSavesTax | firmos-backend/engines/income_tax_rules.py:5-16 | Under the bundled rule of 2025-26, with fifty lakh taxed at thirty per cent, that paisa saves 1,87,499.99 rupees |
| Tax.SlabTaxAmount | firmos-backend/engines/tax.py:43-57 | The countdown loop computes its specification |
| Tax.LoopsAgree | firmos-backend/engines/tax.py:43-57 | For climbing limits the countdown loop and the lower-bound loop compute the same tax for every income |
| Tax.LoopsAgreeIff | firmos-backend/engines/tax.py:43-57 | For limits that may repeat, as the rule engine allows them, the loops agree on every income exactly when no slab above a repeated limit owes anything; the two tables of this engine repeat none |
| Tax.CalculateIncomeTax | firmos-backend/engines/tax.py:78-143 | The whole computation: the total, cess as the floor of four per cent of the rest, and a surcharge that is none up to fifty lakh, never negative, and that of the rule engine |
| Tax.NoReliefAboveFiveCrore | firmos-backend/engines/tax.py:60-75 | Above five crore both thresholds permit more than the unrelieved tax of the new regime |
| Tax.EnginesAgreeNew | firmos-backend/engines/tax.py:78-143 | For every income both engines compute the same gross tax of 2025-26 under the new regime |
| Tax.EnginesAgreeOld | firmos-backend/engines/tax.py:117-121 | Under the old regime they agree exactly outside 2,50,000.20 to 5,00,000 rupees, where only this engine grants no rebate |
| Tax.NextRuleInOrder | firmos-backend/engines/income_tax_rules.py:12-15 | The bundled rule of 2026-27 is in order too, so the laws above hold for it |
| Tax.BundledThresholdPromise | firmos-backend/engines/income_tax_rules.py:5-16 | The bundled rule of 2025-26 keeps the promise at each of its thresholds |
| Gstin.GstinChecksum | firmos-backend/core/purchase_invoices/validation.py:36-45 | The check loop accepts exactly the well-formed strings whose weighted digit sum is a multiple of 36 |
| Gstin.SubstitutionIsCaught | firmos-backend/core/purchase_invoices/validation.py:39-45 | No single wrong character passes the sum, wherever it stands |
| Gstin.SwapIsCaught | firmos-backend/core/purchase_invoices/validation.py:39-45 | The sum lets a swap of two different neighbours pass exactly for 0 and Z |
| Gstin.NoSubstitutionIsAccepted | firmos-backend/core/purchase_invoices/validation.py:36-45 | The whole validator accepts no single substitution |
| Gstin.NoSwapIsAccepted | firmos-backend/core/purchase_invoices/validation.py:8-45 | The whole validator accepts no swap of different neighbours: its format rules out 0 beside Z in both orders |
| Gstin.CheckCharacterExists | firmos-backend/core/purchase_invoices/validation.py:44-45 | Every prefix has exactly one check character |
| Nonce.DeviceGate.RequireDevice | firmos-backend/api/routes/tally_agent_auth.py:70-117 | Prune and insert, or leave no trace; the table holds nothing older than ten minutes after an accepted request |
| Nonce.AcceptedIff | firmos-backend/api/routes/tally_agent_auth.py:97-114 | Over every run a request is accepted exactly when it is signed, within the skew window, and no accepted request with its nonce started within the retention before it |
| Nonce.NoReplay | firmos-backend/api/routes/tally_agent_auth.py:97-114 | A signed request is accepted once over every run, if nonces are kept for both sides of the skew window plus the delay between the two clock readings |
| Nonce.ShorterRetentionAllowsReplay | firmos-backend/core/device_signing.py:35-41 | With any shorter retention two deliveries are accepted |
| Nonce.TenMinutesAreTight | firmos-backend/core/device_signing.py:35-41 | Ten minutes cover five either way exactly when no time passes between NOW() and the skew check |
| TallyIngest.Tables.IngestVoucher | firmos-backend/connectors/tally/ingest.py:68-165 | One voucher: object table, voucher table and the register of its book, and nothing else |
| TallyIngest.Tables.ReconcileWindow | firmos-backend/connectors/tally/ingest.py:168-202 | In a COMPLETE window what is not listed is deleted, in all four tables |
| TallyIngest.Tables.IngestSnapshot | firmos-backend/connectors/tally/ingest.py:19-65 | The loops leave in every row of every table what the row-by-row specification says |
| TallyIngest.WindowsInAnyOrder | firmos-backend/connectors/tally/ingest.py:168-177 | From any stored state, complete windows of one Tally state, in any order and with moved vouchers, leave exactly that state undeleted in the dates they cover |
| TallyIngest.OutsideIsUntouched | firmos-backend/connectors/tally/ingest.py:172-177 | Rows outside a window that its snapshot does not list are untouched |
| TallyIngest.LastListingStands | firmos-backend/connectors/tally/ingest.py:68-121 | What a snapshot lists last for a voucher stands undeleted in voucher and object table |
| TallyIngest.LastListingIsRegistered | firmos-backend/connectors/tally/ingest.py:122-165 | And in the register of its book, active unless it is cancelled |
| TallyIngest.UnlistedRegisterRow | firmos-backend/connectors/tally/ingest.py:189-196 | A register row whose voucher is not listed changes only in a COMPLETE window that covers its date, and then only to inactive |
| TallyIngest.RegisterRowOfAnotherBook | firmos-backend/connectors/tally/ingest.py:122-165 | A voucher listed in another book leaves the row of this one as it is |
| TallyIngest.RowOutsideStays | firmos-backend/connectors/tally/ingest.py:168-199 | Over any sequence a register row that nothing lists and no COMPLETE window covers stays as it is |
| TallyIngest.RegistersInAnyOrder | firmos-backend/connectors/tally/ingest.py:168-199 | After complete windows of one Tally state in any order a covered voucher stands in the register of its book as it is, and any other row is the one that was there, as active as before unless a window covered its date without listing its voucher |
| TallyIngest.PartialDeletesNothing | firmos-backend/connectors/tally/ingest.py:169-170 | A PARTIAL snapshot deletes nothing |
| TallyIngest.RunKeepsTablesAgreed | firmos-backend/connectors/platform/provider_objects.py:23-34 | Voucher and object table hold the same vouchers and agree on which are deleted |
| TallyIngest.RegisterAfterWindow | firmos-backend/connectors/tally/ingest.py:122-199 | After a complete window an active register row is a live voucher of that book, or is left over from before the voucher changed its book |
| TallyIngest.ChangedBookIsCountedTwice | firmos-backend/connectors/tally/ingest.py:189-196 | A purchase re-typed as a sale stays active in both registers |
| TallyIngest.SnapshotEndpoint.PushSnapshot | firmos-backend/api/routes/tally_agent_sync.py:123-167 | A known key changes nothing, whether its payload is the same or not |
| TallyIngest.OnlyFirstPushesCount | firmos-backend/api/routes/tally_agent_sync.py:134-142 | However often deliveries are retried, the tables change with the first push of a key and with no other |
| ZohoSync.MasterSync.ClaimSyncJob | firmos-backend/connectors/zoho_books/sync_worker.py:28-43 | Only a queued job is claimed |
| ZohoSync.MasterSync.RunSyncJob | firmos-backend/connectors/zoho_books/sync_worker.py:46-114 | One page: upserts, ids seen, cursor, and the marking of what has disappeared when it is the last |
| ZohoSync.MasterSync.RetrySyncJob | firmos-backend/api/routes/connector_operations.py:66-85 | Only a failed job is resumed, from its saved cursor |
| ZohoSync.InterruptedEqualsUninterrupted | firmos-backend/connectors/zoho_books/sync_worker.py:46-114 | However often pages failed and the job was resumed, success leaves the table of one uninterrupted pass and counts every row once |
| ZohoSync.NotDeletedMeansListed | firmos-backend/connectors/platform/provider_objects.py:38-46 | Not deleted is exactly the union of the ids on all pages |
| ZohoSync.ListedValuesStand | firmos-backend/connectors/zoho_books/sync_worker.py:60-84 | After success every listed row has the values and the void flag it was listed with last |
| ZohoSync.UnlistedRowsAreMarked | firmos-backend/connectors/platform/provider_objects.py:38-46 | And every other row keeps its own, marked as deleted |
| ZohoSync.NothingDeletedBeforeTheEnd | firmos-backend/connectors/zoho_books/sync_worker.py:85-91 | Nothing is marked deleted before the last page |
| ZohoSync.TooManyPagesNeverSucceed | firmos-backend/connectors/zoho_books/paginator.py:8-11 | A job of more than a thousand pages never succeeds |
| ZohoSync.StraightRunSucceeds | firmos-backend/connectors/zoho_books/paginator.py:8-18 | Up to a thousand pages, claiming and answering page after page succeeds |
| Registers.Register.ProjectVerified | firmos-backend/core/purchase_invoices/projection.py:39-62 | Deactivates the other versions of the identity and activates its own |
| Registers.Register.ProjectSynced | firmos-backend/connectors/zoho_books/sync_worker.py:126-176 | The same from the sync worker, inactive if the document is void |
| Registers.Register.MarkDisappeared | firmos-backend/connectors/zoho_books/sync_worker.py:92-101 | Deactivates the rows of deleted provider objects |
| Registers.ActiveIsCurrent | firmos-backend/core/sales_invoices/projection.py:34-47 | Whichever writers, in whatever order, versions back and forth: active is exactly the version projected last |
| Registers.LastProjectionShows | firmos-backend/core/purchase_invoices/projection.py:39-62 | The row projected last for an identity carries that status, is active unless void, and keeps or takes its verification; the other versions are only deactivated |
| Registers.RowsAreProjected | firmos-backend/core/sales_invoices/projection.py:34-47 | A version is in the register exactly when something has projected it, under the verification of its last verified projection |
| Registers.DisappearedRow | firmos-backend/connectors/zoho_books/sync_worker.py:92-101 | What disappears turns inactive with that status; what was inactive stays as it was |
| Registers.AtMostOneActive | firmos-backend/core/purchase_invoices/projection.py:20-21 | At most one active row for each source identity |
| Registers.ReplayChangesNothing | firmos-backend/core/purchase_invoices/projection.py:20-21 | Replaying a projection changes nothing, also after events of other identities |
| Itc.ApplyItcUtilization | firmos-backend/engines/gst.py:64-88 | The seven steps give the closed form; used and cash add up to payable, used and remaining to credit, head by head |
| Itc.OnlySetOffIsInSteps | firmos-backend/engines/gst.py:79-87 | It is the one allocation in which IGST credit serves IGST, CGST and SGST, and CGST and SGST credit their own head and then IGST, each as far as it goes |
| Itc.SetOffIsLawful | firmos-backend/engines/gst.py:79-87 | Legal, IGST credit first and exhausted before CGST or SGST credit is used, and CGST and SGST never cross |
| Itc.SetOffIsMaximal | firmos-backend/engines/gst.py:79-87 | No credit is left beside an unpaid head it could pay |
| Itc.AtLeastHalf | firmos-backend/engines/gst.py:79-87 | At least half of what any legal set-off could pay is paid |
| Itc.HalfIsReached | firmos-backend/engines/gst.py:79-80 | Half is all that is certain, and the better set-off is as lawful: the order of CGST and SGST is not neutral |
| Itc.OptimalUnlessWasteful | firmos-backend/engines/gst.py:79-80 | Among set-offs in the statutory order this one pays most exactly when it spends no IGST credit on CGST that CGST credit would have covered while SGST goes unpaid |
| Itc.PaymentTable | firmos-backend/engines/gst.py:192-209 | Paid by credit and paid in cash add up to payable exactly when the output is not negative |
| Gstr2b.MatchGstr2b | firmos-backend/engines/gstr2b_matcher.py:40-84 | The loops give the specified row for each purchase and for each document left over |
| Gstr2b.PurchaseGetsNearest | firmos-backend/engines/gstr2b_matcher.py:50-62 | One row for each purchase in order; the nearest document of its pool, or none exactly when the pool is empty |
| Gstr2b.KeysAreTakenOnce | firmos-backend/engines/gstr2b_matcher.py:51-59 | No identity key is attached to two purchases |
| Gstr2b.ExactMeansEqual | firmos-backend/engines/gstr2b_matcher.py:66-71 | EXACT exactly for the only document of its key, an unamended invoice of equal GSTIN, normalised number, value and date (or no book date) |
| Gstr2b.BucketsMean | firmos-backend/engines/gstr2b_matcher.py:60-79 | When each bucket is given, and the differences in value and date and the claim that go with it |
| Gstr2b.LeftoversMean | firmos-backend/engines/gstr2b_matcher.py:80-84 | The rows after the purchases are documents whose key no purchase took, missing in the books or repeated |
| Gstr2b.NumbersIgnoreCaseAndPunctuation | firmos-backend/engines/gstr2b_matcher.py:29-30 | Document numbers are compared by their letters and digits alone, whatever their case |
| Gstr2b.EveryKeyIsCovered | firmos-backend/engines/gstr2b_matcher.py:80-84 | Every document key appears in the result |
| Gstr2b.ReviewStore.BulkAccept | firmos-backend/api/routes/gstr2b_runs.py:146-170 | Preview, decisions and claim history of one acceptance |
| Gstr2b.OnlyCleanRowsAreDecided | firmos-backend/api/routes/gstr2b_runs.py:160-161 | An acceptance decides exactly the clean rows and touches no other |
| Gstr2b.PreviewIsOfCleanRows | firmos-backend/api/routes/gstr2b_runs.py:150-157 | The preview counts exactly the clean rows, each as often as it is there |
| Gstr2b.ClaimsAre | firmos-backend/api/routes/gstr2b_runs.py:162-166 | The claims after it are those before it, as they were, and the clean keys under its period |
| Gstr2b.RunClaimsEachKeyOnce | firmos-backend/api/routes/gstr2b_runs.py:158-166 | Accepting a run claims no key twice within the run |
| Gstr2b.FreshRunSkipsClaimedKeys | firmos-backend/api/routes/gstr2b_runs.py:90-94 | A run matched against all that is claimed by now has no clean row with a claimed key |
| Gstr2b.AcceptedAgainIffClaimedSince | firmos-backend/api/routes/gstr2b_runs.py:160-166 | A pending row of a run is accepted although its key is in the claim history exactly when it is EXACT and the key was claimed after the run was matched; the history keeps the first claim |
| Gstr2b.SecondRunAcceptsAgain | firmos-backend/api/routes/gstr2b_runs.py:90-166 | Of what one acceptance accepts, a second run over any books and file accepts again exactly the EXACT rows whose key it was matched without |
| Gstr2b.NothingNewIff | firmos-backend/api/routes/gstr2b_runs.py:158-166 | An acceptance leaves the claim history as it was exactly when every key it accepts was claimed before |
| Gstr2b.OneDocumentIsAcceptedTwice | firmos-backend/api/routes/gstr2b_runs.py:90-166 | The smallest such case: one purchase, one invoice, two runs |
| Reconcile.BestMatch | firmos-backend/engines/reconcile.py:44-86 | The first of the best free eligible targets, or none exactly when there is none |
| Reconcile.ReconcileLines | firmos-backend/engines/reconcile.py:21-141 | Every source once and in order, every target exactly once, no target paired twice, and the summary of the three buckets |
| Reconcile.FreeKeyWins | firmos-backend/engines/reconcile.py:55-77 | A source with a free target of its GSTIN and reference is paired with score 1 |
| Reconcile.ScoreFallsWithNameAndAmount | firmos-backend/engines/reconcile.py:60-75 | Without keys each point of the name score is worth 0.006 and each rupee of difference 0.004 |
| Reconcile.FlagsTellDifferences | firmos-backend/engines/reconcile.py:79-82 | A pair is unflagged exactly when within 100 paise, and only keyed pairs are flagged |
| Reconcile.BucketsAddUp | firmos-backend/engines/reconcile.py:124-139 | Counts and totals of the three buckets sum to the whole report |
| Reconcile.NothingIsSuggested | firmos-backend/engines/reconcile.py:88-110 | The bucket of suggestions is always empty: every eligible pair scores at least 0.84 |

## Left out

- ZohoProcesses.Worker.RunFinanceAction: an exception or the end of the process is placed between the calls inside the try block; outside it, and for any interleaving with other workers, cancels and people, the state machine covers it.
- TallyAgent.Agent.PollNow: during one poll nothing else happens; interleavings with the API and with people are in the state machine only.
- TallyText.PrintParseRoundTrip: only the predefined entities are decoded and only blanks, tabs and line ends are trimmed; the rest of XML is not part of this model.
- TallySafety.AtMostOneVoucherPerAction: counts the vouchers that exist, under the assumptions above; a Tally that answers `created` without a commit, or rejects after one, is not modelled.
- ZohoSafety.AtMostOneObjectPerAction: counts the objects that exist; after somebody deletes one in Zoho a retry may create it again.
- Tax.CalculateIncomeTax: float quotients are read as exact floors, and the slab details it formats for display are left out.
- Reconcile.ReconcileLines: the name score is any number from 0 to 100, in real arithmetic, before it is rounded for display; match ids are left out.
- Registers.ActiveIsCurrent: timestamps and the columns copied from the source document are left out; rows written by the Tally ingestion are in TallyIngest.
- Progress and liveness of journal entries and of jobs left CLAIMED or RUNNING: the code has no recovery step for them.
- The action_payloads and action_attempts log tables of the agent, its configuration, and the mirror of a Tally action in automation_jobs.
- Stripping, default legs and date parsing of validate_purchase and validate_sales; ledger identity checks are part of the claim gate.
- Ledgers and register windows of a Tally snapshot; Zoho transaction sync beyond its register rows (it marks disappearance without a period).
- Firm, client and installation columns: one of each.
- HTTP, SQL text, cryptography, OAuth, XML, CSV and PDF parsing, fuzzy scoring, AI extraction, the web UI, the retired bridge.
- Easy arithmetic: interest, section 194Q, GST halves, running balances.
