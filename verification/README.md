# The village's credits, trust, names and citations

A Dafny 4.11 model of the repository's core, with proofs. `dafny verify dfyconfig.toml`
checks all of it. It covers four parts of the program:

* **The credits economy.** An off-chain ledger with a starting grant on first touch; publish
  payments split into a listing fee and an escrow; royalties released when a paid query cites
  an event; escrows forfeited on contradiction; invoices, pool fees and refund claims.
* **Trust and membership.** Beta scores with exponential decay and asymmetric updates, a
  conservative lower bound, a five-state membership register, and the append-only event log.
* **did:key names.** The hand-written base58 codec and the names of ed25519 public keys.
* **Citations and traits.** The marker scanner, the sentence selector, the validators, the
  renderer's retry loop, and the capped merge of an agent's traits.

## How the model is built

The tables are one value, `Database.Tables`. `Database.Connection` is the shared single-writer
connection: `Begin` saves the tables, `Commit` forgets the copy, `Rollback` restores it. Every
operation of the program that writes is a method on a `Connection`, step by step as in the
source, whose `ensures` equates the new tables and the result with a specification function of
the old tables. What the program promises is proved about those functions.

`Economy.Op` lists what can happen to the village: publishes, query charges, sweeps, royalty
releases, pool fees, filings, the two halves of an adjudication (read the claim; decide it, any
time later), contradictions, corroborations and other trust evidence, with arbitrary arguments,
rejected and rolled-back calls included. `Economy.RunOf` applies any sequence of them to empty
tables. Each transaction body of the source runs without awaiting, so each is one step; a query
is several steps (charge, later release) and others may come in between. `Economy.StepIsOk`
shows that every step keeps `EconomyInvariants.EconomyOk` and moves rows only forward
(`EconomySteps.Evolves`); the theorems about runs follow from it. `VillageTrust` does the same
for trust tables and DID bindings, and `Adjudications` for verdicts on claims. What one call
adds, row by row, is in `Outcomes`; where one piece of evidence leads an agent, in `Transitions`.

Numbers: credits are unbounded integers; scores are exact reals; times are whole microseconds.
`math.sqrt` and `0.5 ** x` are functions given to the model (`BetaScores.Maths`) of which only
their defining laws are assumed, and only by lemmas that say so with `Valid()`. A time that reaches the
trust service carries a flag for its UTC offset (`Database.Stamp`): a naive one is stored as if in
UTC, the session's time zone, but cannot be subtracted from a stored one.

Settings that `Settings.__post_init__` lets through are allowed, whatever the fee ratio, the
horizon, the starting grant (zero and negative included) or the pool fee. They stay fixed during
a run.

## Properties that are false as one would first state them

Each comes with the exact condition, for all inputs, and an input reached from empty tables.

* *A transfer conserves credits.* Only when it names a recipient: `transfer` accepts
  `to_agent=None` and then burns. Condition: `CreditsAuditing.TransferBalancesIffRecipient` and
  `CreditsAuditing.BalancedExactlyWithoutBurns`; input: `CreditsAuditing.BurnExample`. All call
  sites name a recipient.
* *A royalty release depends only on the set of cited events.* False when the treasury sells to
  itself. With B its balance, D what it owes others and M its largest own due, the order decides
  exactly when B covers D and M but not D + M (`RoyaltyReleases.SelfSaleOrderMatters`);
  otherwise only the set matters (`RoyaltyReleases.OnlyTheSetMatters`). Input:
  `ConcreteRuns.SelfSaleOfRun`.
* *The settlement step keeps invoices and charges in step.* Exactly while the invoice is
  pending (`Outcomes.SettlementSafeExactlyWhilePending`): after a sweep it would charge and leave
  the invoice lapsed. Input: `ConcreteRuns.LateSettlementCharges`; the executor runs issue and
  settlement without awaiting, so no run gets there.
* *A failed publish changes nothing.* A first valid signature binds its DID before the publish
  transaction, and only that does (`Outcomes.PublishSucceedsExactly`). Input:
  `ConcreteRuns.FailedPublishBinds`.
* *A failed contradiction changes nothing.* The forfeiture is its own commit. What fails, and
  what that leaves: `Corroboration.FailedContradiction`, in numbers
  `Corroboration.TrustRefusesExactly`. Input: `ConcreteRuns.FailedContradictionForfeits`.
* *Evidence of non-negative weight is always recorded.* Not when its time has no offset while a
  stored row must be aged: Python refuses to subtract the two, the call rolls back, and a publish
  swallows the error (`TrustHistory.CallFailsExactly`, `Outcomes.PublishRecordsExactly`). Input:
  `ConcreteRuns.NaiveSaleIsNoEvidence`.

## Where the documentation and the code differ

* `app/credits/ledger.py:138-142` says that callers may commit a visible rejection row. No call
  site does: in every run the log holds applied rows only (`Economy.AuditIsAlwaysClean`).
* `app/narrative/sentences.py:45` speaks of a marker caught on a sentence boundary. For
  whitespace-free markers, which printed markers are, that branch is unreachable
  (`Sentences.SelectionKeepsEveryOccurrence`).
* `app/narrative/validator.py:47` still mentions a minimum length of 20; the code, and the model,
  refuse any marker-free text while there is evidence.
* `app/trust/membership.py:62-65` reads as if a canary had to be passed. The gate weighs all honesty
  evidence, failures included, and the model follows the code.

## Model

| member | source | states |
|---|---|---|
| Database.Connection.Begin | app/trust/payout.py:107 | a transaction starts from the current tables and remembers them |
| Database.Connection.Rollback | app/trust/payout.py:158-160 | all tables are again what they were at BEGIN |
| Database.Connection.Commit | app/trust/payout.py:157 | the tables stay as they are and can no longer be rolled back |
| CreditsLedger.EnsureBalance | app/credits/ledger.py:95-122 | first touch inserts the row and logs its grant; a grant below 1 breaks a table constraint; nothing else changes |
| CreditsLedger.Transfer | app/credits/ledger.py:125-209 | new ledger tables and result of a transfer, rejected ones included; no other table changes |
| CreditsLedger.TransferOutcome | app/credits/ledger.py:144-197 | a transfer succeeds exactly when its arguments pass, both parties have or can be granted rows, and the sender can pay; closed form of all balances afterwards; a refused one changes no existing balance |
| CreditsLedger.RefusedArguments | app/credits/ledger.py:144-155 | which amounts, names and reasons a transfer refuses before touching a row |
| CreditsLedger.RejectionIsLogged | app/credits/ledger.py:166-177 | a sender without funds leaves one rejected row, grants aside, for the caller to commit or roll back |
| CreditsLedger.TransferKeepsSound | app/credits/ledger.py:95-209 | with any arguments and any outcome, every balance stays equal to applied credits in minus out and non-negative |
| CreditsLedger.TransferSelect | app/credits/ledger.py:191-209 | grants aside, a successful transfer adds exactly one log row, under the id it returns |
| CreditsAuditing.AuditCredits | app/credits/audit.py:36-74 | the report's totals are the sums over all rows, `balanced` is their equality, and the issues are exactly the mismatch and the orphaned paid escrows |
| CreditsAuditing.AuditEscrows | app/credits/audit.py:54-66 | the liability is the sum of open amounts, and exactly the paid escrows without a royalty row are reported |
| CreditsAuditing.BalancedExactlyWithoutBurns | app/credits/audit.py:39-52 | total balances are minted minus burned credits; the audit balances exactly when nothing was burned |
| CreditsAuditing.TransferBalancesIffRecipient | app/credits/ledger.py:144-155 | a successful transfer keeps the audit balanced exactly when it names a recipient |
| CreditsAuditing.BurnExample | app/credits/ledger.py:144-155 | on the empty ledger a transfer without recipient succeeds and one credit is gone |
| CreditsAuditing.TransferKeepsRowed | app/credits/ledger.py:160-164 | whoever an applied row names has a balance row |
| Payout.ListingFeeExactly | app/trust/payout.py:59-60 | for every reward from 1 up and every ratio: 1 for a share up to one credit, the reward for a share from the reward up, and in between the one integer within a half of the share, even on a tie |
| Payout.SplitPublishPayment | app/trust/payout.py:45-86 | tables and result of a split payment: one transfer of exactly that fee, and an open escrow of the rest exactly when there is a rest |
| Payout.ReleaseRoyalties | app/trust/payout.py:89-161 | tables and report of a release as one transaction over the distinct citations; any error restores the tables |
| Payout.ReleaseLoop | app/trust/payout.py:108-156 | the loop body by body, stopping at the first error |
| Payout.EachPrefix | app/trust/payout.py:108-160 | later citations cannot undo an earlier error |
| RoyaltyReleases.ReleaseIsAllOrNothing | app/trust/payout.py:103-161 | an error leaves the tables as they were; a success pays every cited open escrow in time, expires the late ones, moves exactly those amounts, and touches nothing else |
| RoyaltyReleases.SucceedsExactlyInOrder | app/trust/payout.py:103-161 | for every list of citations, success exactly when at each one's turn the treasury still covers it |
| RoyaltyReleases.SucceedsExactlyWhenCovered | app/trust/payout.py:103-161 | without a self-sale, success exactly when the treasury covers the sum of unexpired open amounts |
| RoyaltyReleases.OnlyTheSetMatters | app/trust/payout.py:108 | unless the order decides, as below, order and repeats of citations change neither verdict, balances nor escrow rows (the paying transaction's id aside) |
| RoyaltyReleases.ReleaseAgainIsNoOp | app/trust/payout.py:109-115 | citing released events again changes nothing, whenever and for whatever invoice |
| RoyaltyReleases.ReleaseReports | app/trust/payout.py:117-156 | the returned list has one line per cited escrow that was open, in citation order, paid or expired by its deadline |
| RoyaltyReleases.SelfSaleOrderMatters | app/trust/payout.py:108-141 | for every set of cited events, two orders of it disagree exactly when the treasury covers what it owes others and its largest own due, but not both together |
| RoyaltyReleases.VerdictBounds | app/trust/payout.py:108-141 | every list succeeds if the treasury covers both together, and no list does if it cannot cover each alone |
| Outcomes.TurnExactly | app/trust/payout.py:109-156 | one turn of the loop: a closed escrow is skipped, a late one expires, and one in time is paid by a row from the treasury to its seller that names event and settled invoice |
| Outcomes.RoyaltiesNameTheInvoice | app/trust/payout.py:133-141 | all a release adds to the log is grants and royalties of cited events, each naming the settled invoice |
| ConcreteRuns.SelfSaleOfRun | app/trust/payout.py:108-141 | two sales from empty tables, one by the treasury, after which the order decides |
| Invoices.InsertPendingInvoice | app/storage/invoices.py:18-32 | one more pending invoice, nothing else |
| Invoices.MarkInvoiceSettled | app/storage/invoices.py:35-53 | a pending invoice becomes settled with its transaction; any other stays untouched |
| Invoices.MarkInvoiceInvalidated | app/storage/invoices.py:56-68 | a pending invoice becomes invalidated; any other stays untouched |
| Invoices.MarkExpiredInvoices | app/storage/invoices.py:71-95 | invoice by invoice: lapsed exactly when pending with its expiry past, otherwise untouched; the number lapsed is returned |
| RefundPool.AccruePoolFee | app/trust/refund_pool.py:42-78 | the fee is charged once per invoice; every failure restores the tables |
| RefundPool.FileClaim | app/trust/refund_pool.py:81-105 | a claim is filed exactly on a settled invoice; any number per invoice |
| RefundPool.DecideClaim | app/trust/refund_pool.py:128-168 | the deciding transaction, possibly long after the claim was read: pays and approves, or denies, or restores the tables when the claim is no longer pending or the pool cannot pay |
| RefundPool.AdjudicateClaim | app/trust/refund_pool.py:108-168 | tables and result of pre-check and decision without interference, which `Outcomes.AdjudicationExactly` gives in closed form |
| Charging.Settle | app/a2a/executor.py:479-503 | charge and settlement mark in one transaction, rolled back on any error |
| Charging.ChargeQuerier | app/a2a/executor.py:455-531 | the three transactions of a charge: issue, settle, invalidate when unfunded, and a best-effort pool fee; in closed form in `Outcomes.ChargeOutcome` and `Outcomes.ChargedExactly` |
| Charging.ReleaseForQuery | app/a2a/executor.py:324-347 | royalties are released only for a settled query and never fail the answer |
| Charging.ResolvedSnoc | app/a2a/executor.py:324-347 | citations are resolved in their order, and one without an event is skipped |
| TrustService.UpsertTrustScore | app/storage/trust.py:47-62 | one score row is written; an unknown axis is refused by the table |
| TrustService.AppendTrustEvent | app/storage/trust.py:65-83 | the log gains one row at the end |
| TrustService.UpsertMembership | app/storage/trust.py:105-122 | the register row is replaced but keeps the first joined_at |
| TrustService.RecordTrustEvent | app/trust/service.py:108-210 | scores, register and log after one event as the replay step computes them, the new state as `Transitions.TransitionExactly` says; a failed call, mixed clocks included, changes nothing |
| TrustService.RecordFailsExactly | app/trust/service.py:65-170 | which error a call raises, for all tables and weights: mixed clocks first, then a score without lower bound, then an unknown axis; otherwise it is logged |
| TrustService.RecordedIsLocal | app/trust/service.py:125-202 | an event changes only its own agent's rows, by one replay step, and a failed one nothing |
| BetaScores.LowerBoundPositive | app/trust/ledger.py:26-44 | on every score at or above the prior, mean minus deviation is strictly between 0 and 1, so the clamp never bites and nothing raises |
| BetaScores.LowerBoundValue | app/trust/ledger.py:26-44 | on every score, wherever it does not raise: mean less one deviation and at least 0, the deviation squared being ab / (n^2 (n + 1)) |
| BetaScores.LowerBoundExactly | app/trust/ledger.py:26-44 | the lower bound raises exactly on a zero denominator or a negative term under the root, given by the signs of alpha, beta and their sum |
| BetaScores.EvidenceRaisesExactly | app/trust/ledger.py:30-44 | from a score at or above the prior, an event raises exactly when it takes its axis below zero by no more than the other axis plus one |
| BetaScores.EvidenceMovesLowerBound | app/trust/ledger.py:68-80 | positive evidence strictly raises the lower bound, negative evidence strictly lowers it |
| BetaScores.DecayShrinks | app/trust/ledger.py:83-97 | decay never drops below the prior and never adds mass |
| BetaScores.DecayIsScaling | app/trust/ledger.py:91-97 | decay multiplies both masses by one factor, the early return included |
| TrustHistory.RunIsExplained | app/trust/service.py:125-202 | after any interleaving of events for many agents, failures included, each agent's rows are the replay of its own log rows |
| TrustHistory.RegisterOfHistory | app/trust/service.py:129-197 | violations count the negatives, joined_at is the first event's time, state_changed_at the last change's, excluded exactly from the limit on |
| TrustHistory.RegisterOfRun | app/trust/service.py:125-202 | the same for the register tables of every run, and no honesty event means no membership |
| TrustHistory.ExclusionIsFinal | app/trust/membership.py:67-68 | no later event brings an excluded agent back |
| TrustHistory.PromotionNeedsEvidence | app/trust/membership.py:67-86 | a step that makes a member saw enough decayed honesty mass, enough mass on its axis, and a lower bound at the bar raised by every violation |
| TrustHistory.PromotionInTimeOrder | app/trust/service.py:139-167 | in time order, the promoting event finds enough aged honesty evidence, enough aged evidence on its axis, and a batch score at the raised bar |
| TrustHistory.PromotionOfRun | app/trust/service.py:125-202 | the same for the tables before and after any call of any run |
| Transitions.TransitionExactly | app/trust/membership.py:67-86 | on any tables, the state a recorded event leads to: excluded exactly at the limit or already so; unchanged below the minimum mass; else penalized, warned or member exactly by the lower bound, the bar raised per violation and the honesty mass; unchanged otherwise |
| Transitions.TransitionInTimeOrder | app/trust/service.py:125-167 | in time order the same with aged sums and the batch score of the agent's own events, so promotion holds in both directions |
| Transitions.TransitionOfRun | app/trust/service.py:125-202 | the same for the register before and after any recorded call of any run |
| Transitions.HalfLeftAfterHalfLife | app/trust/ledger.py:59-62 | each axis loses half its mass over its own half-life, in days of 24 hours |
| TrustHistory.NoHonestyNoMember | app/trust/service.py:94-98 | an agent with no honesty event is never a member |
| TrustHistory.StaleHonestyCannotPromote | app/trust/service.py:99-105 | honesty k half-lives old, below 2^(k-1) undecayed, cannot let a reliability event promote |
| TrustHistory.ScoreBounds | app/trust/service.py:54-76 | in any timestamp order a row exists exactly when its axis has an event, never falls below the prior, and holds at most the undecayed sum |
| TrustHistory.NoFailures | app/trust/service.py:125-202 | replaying log rows, whose times are aware, never fails with non-negative weights and known axes |
| TrustHistory.CallFailsExactly | app/trust/service.py:69-105 | with non-negative weights and a known axis a call fails exactly when its time has no offset and a stored row must be aged |
| TrustHistory.StoredScoreIsBatch | app/trust/service.py:65-76 | in time order, decay-then-update gives the batch score: each event's mass scaled by the half-life factor of its own age |
| TrustHistory.AgedScore | app/trust/service.py:99-105 | a stored score decayed to now is the batch score at now |
| TrustHistory.ScoresOfRun | app/trust/service.py:125-202 | the same for the score table of every run |
| Corroboration.RecordContradiction | app/trust/corroboration.py:55-93 | errors change nothing before the forfeiture; then the open escrow is closed unpaid and a negative honesty event recorded, as two commits |
| Corroboration.FailedContradiction | app/trust/corroboration.py:64-93 | for all tables, times and weights: fails exactly on a bad pair, mixed clocks or a score without lower bound; a failed call changes something exactly when the pair is proper and its escrow open |
| Corroboration.TrustRefusesExactly | app/trust/service.py:65-105 | the same refusal as a condition on the seller's stored rows, the weight and the offset |
| Corroboration.ContradictionOutcome | app/trust/corroboration.py:64-93 | on a proper pair: the open escrow expires, and unless the event cannot be recorded the disputed seller gets one negative honesty event of the given weight |
| ConcreteRuns.FailedContradictionForfeits | app/trust/corroboration.py:69-87 | two sales, then a contradiction of weight -1: an error, and the open escrow stays expired |
| Corroboration.RecordCorroboration | app/trust/corroboration.py:96-122 | only another seller's event confirms, and then the original seller gains honesty |
| Corroboration.CorroborationOutcome | app/trust/corroboration.py:104-122 | each refusal exactly, self-corroboration included; otherwise the seller of the original gets one positive honesty event of the given weight |
| Publishing.UpsertAgentIdentity | app/storage/identities.py:22-38 | a DID held by another agent is refused; otherwise the binding is written |
| Publishing.PassGates | app/api/publish.py:199-241 | the gates in order; a first valid signature binds its DID even when a later gate refuses |
| Publishing.Pay | app/api/publish.py:253-282 | no payment, a split payment or the whole reward are all at most one treasury transfer for the event and one escrow |
| Publishing.RunPublishTx | app/api/publish.py:250-329 | payment and rows in one transaction; a used hash or any error restores the tables |
| Publishing.StoreAndRecord | app/api/publish.py:243-346 | past the gates: fresh id, transaction, then reliability evidence exactly for a settled payment; failing evidence undoes nothing |
| Publishing.ExecutePublish | app/api/publish.py:178-365 | tables and result of the whole call |
| Outcomes.ChargeOutcome | app/a2a/executor.py:455-514 | charged exactly when the querier can pay; unfunded leaves the ledger untouched and the invoice invalidated; a raised error leaves it pending; without a querier nothing happens |
| Outcomes.ChargedExactly | app/a2a/executor.py:479-531 | after a charge, all tables: the invoice settled and naming the charge; the log gains the charge and, exactly when a fee is on, not yet taken and affordable after the charge, one fee from the treasury to the pool; every balance |
| Outcomes.SettlementSafeExactlyWhilePending | app/storage/invoices.py:42-53 | the settlement step keeps "settled exactly when charged once" exactly while the invoice is pending |
| ConcreteRuns.LateSettlementCharges | app/storage/invoices.py:42-53 | an invoice issued, swept, then settled: charged, and still lapsed |
| Outcomes.PoolFeeOutcome | app/trust/refund_pool.py:50-78 | a fee is taken exactly when positive, not yet taken for the invoice and affordable: one row from the treasury to the pool, the invoice's only one; a retry takes none |
| Outcomes.FilingOutcome | app/trust/refund_pool.py:81-105 | filed exactly on a settled invoice, as one more pending claim |
| Outcomes.AdjudicationExactly | app/trust/refund_pool.py:108-168 | a pending claim is denied without payout when not justified; approved, and refunded by one row from the pool to the claimant that it names, when justified and the pool can pay; anything else is an error that changes nothing |
| Outcomes.DecisionExactly | app/trust/refund_pool.py:128-168 | the same for the deciding transaction of an adjudicator that read the claim earlier |
| Outcomes.DecisionOutcome | app/trust/refund_pool.py:128-168 | a claim is decided exactly when still pending and, if approved, the pool can pay; every later adjudicator of it gets an error and changes nothing |
| Outcomes.PublishSucceedsExactly | app/api/publish.py:199-329 | success exactly when the gates pass, the payment is covered and the hash is new; bindings change exactly on a first valid signature, and a failure changes nothing else |
| ConcreteRuns.FailedPublishBinds | app/api/publish.py:212-227 | a first valid signature over a stored payload: an error, and the binding stays |
| Outcomes.PublishRefusals | app/api/publish.py:199-329 | which error a refused publish raises, exactly, gate by gate and inside the transaction |
| Outcomes.VerifiesExactly | app/api/publish.py:205-216 | a signature counts exactly when the DID is the name of a key under which it verifies |
| EconomySteps.PaymentSplits | app/api/publish.py:253-282 | what a paid publish moves at once, and the escrow of the rest with its deadline |
| Outcomes.PublishRecordsExactly | app/api/publish.py:335-346 | a stored publish is evidence, one positive reliability event of weight 1, exactly when paid for, with clocks that do not mix and a score that has a lower bound |
| ConcreteRuns.NaiveSaleIsNoEvidence | app/api/publish.py:335-346 | a second paid sale whose time has no offset is stored and paid, and leaves the trust tables as they were |
| Outcomes.PublishStores | app/api/publish.py:250-318 | one event under the returned id with a hash new to the table, its episode, one corroboration per mention of an entity, and, exactly as settings ask, a treasury payment of the fee or the reward and the escrow of the rest |
| EconomySteps.PublishKeeps | app/api/publish.py:178-365 | any publish keeps the invariant of all tables and moves rows forward only |
| EconomySteps.ChargeKeeps | app/a2a/executor.py:455-531 | any charge does |
| EconomySteps.ReleaseKeeps | app/trust/payout.py:89-161 | any royalty release does |
| EconomySteps.PoolFeeKeeps | app/trust/refund_pool.py:42-78 | any pool fee does |
| EconomySteps.FilingKeeps | app/trust/refund_pool.py:81-105 | any filing does |
| EconomySteps.DecisionKeeps | app/trust/refund_pool.py:128-168 | any decision does, however old the adjudicator's reading |
| EconomySteps.SweepKeeps | app/storage/invoices.py:71-95 | any sweep does |
| EconomySteps.ContradictionKeeps | app/trust/corroboration.py:55-93 | any contradiction does |
| EconomySteps.CorroborationKeeps | app/trust/corroboration.py:96-122 | any corroboration does |
| Economy.RunIsOk | app/credits/ledger.py:95-209 | every run keeps the invariant, and continuing it only moves rows forward |
| Economy.AuditIsAlwaysClean | app/credits/audit.py:36-66 | in every run each balance is credits in minus out and non-negative, balances sum to minted credits, no paid escrow lacks its royalty row |
| Economy.MoneySupplyOfRun | app/credits/ledger.py:104-122 | in every run all balances together are one starting grant per agent with a row |
| Economy.EscrowsOfRun | app/trust/payout.py:117-147 | an escrow is paid exactly when one royalty row of its amount and recorded id exists, and was paid in time |
| Economy.ClosedEscrowsStay | app/trust/payout.py:109-113 | an escrow that left open never changes again and never earns another royalty |
| Economy.EscrowPartiesHaveRows | app/trust/payout.py:61-83 | in every run both parties of every escrow have balance rows |
| Economy.ReleaseOfRun | app/trust/payout.py:103-161 | at any moment of any run a release is all or nothing, with the exact conditions above |
| Economy.ContradictedNeverPaid | app/trust/corroboration.py:69-76 | a contradicted unpaid event earns no royalty in any continuation |
| Economy.NoLateEscrow | app/trust/payout.py:70-83 | an event stored without an escrow never earns a royalty |
| Economy.IncomeOfRun | app/trust/payout.py:59-86 | a paid-for event has earned its reward less what is outstanding: never more than the reward, all of it exactly when its escrow is paid or it has none |
| Economy.PaymentOfRun | app/trust/payout.py:59-86 | in every run a paid-for event is linked to its payment row of exactly the fee or the reward; an escrow was opened exactly for a rest, with that rest and its deadline; all its rows go from the treasury to its seller |
| Economy.InvoicesOfRun | app/a2a/executor.py:463-531 | an invoice is settled exactly when its one charge of the query price exists, whose id it stores, and carries at most one pool fee |
| Economy.RefundsOfRun | app/trust/refund_pool.py:128-153 | refunds add up to the query price times the approved claims, each approved claim naming its own payout row |
| Economy.RefundsOfInvoice | app/trust/refund_pool.py:128-153 | the refunds of each invoice are the query price times its own approved claims |
| Economy.DecidedRowsStay | app/trust/refund_pool.py:130-151 | decided claims, invoices that left pending, bindings, events and log rows never change again |
| Economy.LateAdjudicatorLoses | app/trust/refund_pool.py:149-167 | an adjudicator that comes too late gets an error and leaves no trace |
| Adjudications.BegunExactly | app/trust/refund_pool.py:117-126 | reading a pending claim yields an adjudicator who holds the verdict; reading any other yields none; no table changes |
| Adjudications.FinishedExactly | app/trust/refund_pool.py:128-168 | in every reachable world, who decides leaves the claim as the held verdict says |
| Adjudications.DecidedAtOnce | app/trust/refund_pool.py:108-168 | read and decided in two consecutive steps, a claim gets the verdict of the call |
| Adjudications.VerdictsOfRun | app/trust/refund_pool.py:108-168 | in every run approved claims were adjudicated as justified, denied ones as not, and each waiting adjudicator holds the verdict of its call |
| Economy.PublishOfRun | app/api/publish.py:199-329 | at any moment of any run, the exact condition and effect of a publish, without further assumptions |
| Economy.EventsOfRun | app/api/publish.py:216-227 | in every run hashes are unique, bindings one-to-one, and signed events carry their agent's bound DID |
| VillageTrust.TrustOfRun | app/trust/service.py:125-202 | in every run of the village the trust tables are explained by their log, and every bound DID names a key |
| VillageTrust.RegisterOfVillage | app/trust/service.py:129-197 | in every run of the village each register row is what the agent's own events make of it |
| VillageTrust.OneAgentPerKey | app/api/publish.py:216-227 | no two agents are ever bound to the same public key, and a binding is the key's one name |
| VillageTrust.SignedEventsNameTheirSeller | app/api/publish.py:203-227 | the DID of a stored signed event is readable and bound to its seller alone |
| VillageTrust.ScoresOfVillage | app/trust/service.py:65-76 | in every run of the village, in time order, stored scores are the batch scores |
| VillageTrust.EvidenceMovesStanding | app/trust/service.py:65-76 | evidence of positive weight fails exactly on mixed clocks; otherwise it strictly moves the decayed lower bound by its sign, and a negative one is one more violation |
| VillageTrust.ContradictionCostsHonesty | app/trust/corroboration.py:64-93 | in every run a contradiction fails exactly when its time has no offset and the seller has an honesty row; otherwise it strictly lowers the seller's honesty, adds a violation, and reports exactly whether it closed an open escrow |
| DidKey.B58Encode | app/trust/identity.py:33-40 | the loop computes the change of base from 256 to 58 with one "1" per leading zero byte |
| DidKey.B58Decode | app/trust/identity.py:43-52 | the loop computes the change of base from 58 to 256, refusing foreign characters |
| DidKey.DecodeEncoded | app/trust/identity.py:33-52 | decoding an encoded byte string returns it, for every byte string |
| DidKey.EncodeDecoded | app/trust/identity.py:33-52 | encoding a decoded text returns it, for every text over the alphabet |
| DidKey.DidRoundTrip | app/trust/identity.py:77-87 | a printed name decodes to its key exactly for 32-byte keys |
| DidKey.AcceptedDidIsCanonical | app/trust/identity.py:81-87 | every accepted name is the one printed for its key |
| DidKey.OneNamePerKey | app/trust/identity.py:77-87 | two accepted names of one key are the same text |
| DidKey.DidShape | app/trust/identity.py:77-78 | the name of a 32-byte key has 56 characters and starts with did:key:z6Mk |
| Traits.MergeTraits | app/reflection/traits_compile.py:20-55 | both loops compute first-occurrence deduplication, and the evidence is capped at 50 |
| Traits.CollectUnseen | app/reflection/traits_compile.py:33-48 | the seen-set loop keeps exactly the first occurrences, in order |
| Traits.CapEarly | app/reflection/traits_compile.py:41-49 | capping the older list early is invisible after the final cap |
| Traits.HistoryOfEvidence | app/reflection/traits_compile.py:41-49 | any history of merges is one deduplication of all batches, newest first, capped once |
| Traits.HistoryOfDescriptors | app/reflection/traits_compile.py:32-38 | descriptors are the deduplicated concatenation, oldest first; the summary is the last one |
| Traits.MergeTwiceIsOnce | app/reflection/traits_compile.py:20-55 | merging the same reflection twice is merging it once |
| Citations.ExtractCitations | app/narrative/citation.py:41-59 | the loop returns the lower-cased captured ids without repeats |
| Citations.ExtractedOfInterleave | app/narrative/citation.py:14-59 | from marker-free pieces and printed markers, extraction returns exactly the printed ids, lower-cased, in first-occurrence order |
| Citations.ExtractedOfFormat | app/narrative/citation.py:28-59 | a formatted marker scans back exactly when the id starts with eight hex digits |
| Citations.ExtractedShape | app/narrative/citation.py:50-59 | from any text, the ids are the scanned hex numbers, each once, in eight lower-case digits |
| Sentences.SelectionKeepsEveryOccurrence | app/narrative/sentences.py:38-48 | for space-free markers the selected sentences hold exactly as many occurrences as the text, so the fallback branch is never taken |
| Sentences.SplitExactly | app/narrative/sentences.py:12 | splitting is the one way to cut the text at every maximal white space run directly after a full stop, exclamation or question mark, and nowhere else; pieces and runs rebuild the text |
| Sentences.SelectedSentences | app/narrative/sentences.py:38-48 | for a space-free marker: nothing when it never occurs, else exactly the sentences of that one split that carry it, whole, in text order, one space between each two |
| Sentences.WholeSentenceAround | app/narrative/sentences.py:38-48 | around every occurrence of the marker the whole sentence is handed on |
| Sentences.MarkersAreSpaceFree | app/narrative/citation.py:37-38 | printed markers contain no white space |
| Narrative.AcceptedIds | app/narrative/validator.py:57-79 | a text passes exactly when every cited id has evidence, and something is cited or there is no evidence; the missing ids are those without |
| Narrative.ValidateCitationsWithJudge | app/narrative/validator.py:82-157 | existence first, then exactly the citations a judge properly refused are ungrounded; judge failures count as grounded |
| Narrative.JudgeEach | app/narrative/validator.py:120-149 | the loop collects exactly the properly refused citations |
| Narrative.ClaimExactly | app/narrative/validator.py:123-124 | the judge is asked about the joined whole sentences that carry the id's lower-case marker, or about the whole text when it does not occur |
| Narrative.ClaimHoldsSentence | app/narrative/validator.py:123-124 | the claim holds the whole sentence around every occurrence of the marker |
| Narrative.PayloadExactly | app/narrative/validator.py:115-125 | the payload shown is that of the last evidence with the cited prefix |
| Narrative.StrictVerdict | app/narrative/validator.py:109-157 | accepted exactly when existence checking accepts and for each cited id the judge's reply is grounded, an exception, or a provider or parse error |
| Narrative.HintExactly | app/narrative/renderer.py:125-168 | after a refusal the hint blames the claims exactly when all cited ids had resolved |
| Narrative.RenderNarrative | app/narrative/renderer.py:86-189 | when no provider is called, and otherwise that calls are one more than retries used and the outcome below |
| Narrative.RetryLoop | app/narrative/renderer.py:120-189 | at most max_retries + 1 calls, each earlier answer refused, the last shown exactly when accepted, the hint chosen by the previous refusal |
| Narrative.ShownAnswersAreCited | app/narrative/renderer.py:170-201 | an answer that is not the fallback cites at least one id, each with the full id of the last evidence with that prefix, and in strict mode none was refused |

## Left out

* Widths: DuckDB INTEGER is 32 bits; credits here are unbounded, so an overflow error is not modelled.
* Floating point: scores are exact reals; rounding, NaN and infinite weights or ratios are not modelled.
* Clock columns: `ts` of credits rows and `last_updated` of balances are not kept; no modelled code reads them.
* Fresh ids: `uuid4` is a counter restored by rollback, and a transaction id is its position in the log; ids of trust events and episodes are not kept.
* Opaque functions: sha256, the ed25519 check, JSON, NFC and the near-duplicate scan enter a publish request as their results.
* DuckDB and SQL: only table contents, key, UNIQUE and CHECK rejections, and transactions; constraints that no modelled write can break are not restated.
* Providers and judges: arbitrary functions that may answer anything or fail; prompts, routing and the judge's own parsing are not modelled.
* Asynchronous plumbing: `_in_flight`, `_bg_tasks`, cancellation and event queues of the executor; concurrency enters through the order of steps.
* Settings changed while the program runs: a run has one `Settings` value.
* `RecordEvidence` stands for canary verdicts and any other direct call of `record_trust_event`; canary scheduling, probes and reflection are not modelled.
* `apply_traits`: a single-row write of the merged traits.
* ERC-8004 columns and registries, reputation reports, sanctions, smalltalk, cold-start counters, price and scold tables: easy table lookups.
* The FastAPI layer, agent card, migrations' SQL text, scripts, spikes and the evaluation harness.
