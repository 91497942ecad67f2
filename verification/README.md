# Kora: a Dafny model of the invoice-financing contracts

Kora lets a business sell an invoice to investors. A marketplace collects contributions and a
fee, a financing pool keeps the money, takes repayments and pays investors pro rata, and an NFT
contract keeps the invoice and its status. A treasury keeps fees, an access-control contract
holds the pause switch and a multisig, a risk registry holds verifier stakes, and a price oracle
converts currencies. This project models those Soroban contracts and proves what holds over
every run of calls to them.

`dafny verify dfyconfig.toml` checks everything.

## How it is built

Each contract is a class whose fields are its storage and whose methods are its entry points,
step by step as in the source. Every method is proved against a specification function on
values (in the same module, or in `PoolSpec` and `MarketSpec`): what the call returns, and the
whole storage afterwards. Lemmas over runs use those functions.

Conventions:

- **Rollback.** A call that returns an error or traps leaves storage and balances as they were,
  nested contract calls included. The methods write first and undo, where the source writes
  before its last check (`repay` takes its lock, `record_position` stores the position before it
  looks for the pool, `list_invoice` stores the referrer, `withdraw` rolls the epoch).
- **Numbers.** `i128` and `u32` are range-restricted integers. Checked operations yield the error
  the source returns, saturating ones clamp to the type's range, and division truncates toward
  zero.
- **Tokens** are one ledger of balances by token and holder; a transfer fails if it is negative or
  exceeds the payer's balance.
- **Authentication** appears as "the caller is X". Ledger time never decreases along a run.
- **Environment.** Pause flag, oracle prices, attested sellers, credit limits, the tokens the
  treasury accepts and its fee ledger are inputs of each call of the three protocol contracts and
  may change arbitrarily between calls.

| file | content |
|---|---|
| `Outcomes`, `Validation`, `Sums`, `Records`, `TokenLedger` | results, checked arithmetic, sums over maps, stored records, balances |
| `BasisPoints`, `Shares`, `PriceOracle` | what the arithmetic computes, when it succeeds, what rounding costs |
| `InvoiceNft`, `PoolSpec`, `FinancingPool`, `MarketSpec`, `Marketplace` | the three protocol contracts: specification and class |
| `Protocol`, `Distribution`, `Dust`, `Effects` | the transition system and runs, what a distribution pays and leaves behind, and what each committed call changes, declaratively |
| `Coupling`, `Lifecycle`, `Refunds`, `Solvency`, `Settlements`, `Undistributed`, `Aggregate`, `Buyouts`, `Accruals`, `Exposure` | the facts over every run |
| `Admission`, `Settings`, `Sales` | when exactly a call goes through, what the settings are after any run and the fees that follow, what positions sell for |
| `Scenarios` | concrete runs from initialization, for promises the code does not keep |
| `AuditLog`, `Treasury`, `WithdrawalLimit`, `Custody` | the audit ring, the treasury, its limiter and who takes what out of it |
| `AccessControl`, `Governance`, `Quorums`, `Authority` | pause, roles, multisig, parameter governance, what a quorum takes, what executed actions do |
| `RiskRegistry`, `Standing`, `Migration` | verifier stakes, reputations and profiles; the invoice schema migration |

## Main results

1. **Custody solvency** (`Solvency`). In every token, the pool's balance covers the unrefunded
   contributions, the repayments of Funded invoices and the pending buyout escrows, after any run
   whose committed calls meet `FairCall`. So no refund, payout or escrow return fails for lack of
   money. `FairCall` lists what the entry points do not check. Exactly which partial repayments,
   closing repayments and defaults lower no slack is proved in `RepaymentCoveredExactly`,
   `ClosingCoveredExactly` and `DefaultCoveredExactly`, and `ForeignRepaymentBreaksSolvency` is a
   run from initialization that ends insolvent.
2. **Three records stay coupled** (`Coupling`, `Lifecycle`): listing, pool and invoice agree in
   every reachable state; each invoice is distributed at most once; the late penalty is applied
   once; repayments terminate.
3. **Refund and release exclude each other** (`Refunds`), refunds are whole, final and paid once,
   and `funded_amount` is contributions plus fees under any change of rates.
4. **Rounding** (`BasisPoints`, `Shares`, `Distribution`, `Dust`, `Accruals`): exact success
   conditions, exact equality up to 7 decimals, a bound of two units of truncation above, the largest
   loss of a distribution for every number of decimals, and what funding or repaying in parts changes
   over a run.
5. **Early settlement** (`Buyouts`) settles exactly on unanimity, its escrows balance, and what it
   leaves undistributed is exactly the earlier repayments and the dust. What is repaid otherwise can
   be distributed exactly while the invoice is Funded (`Undistributed`).
6. **Treasury limiter** (`WithdrawalLimit`): within one epoch at most the largest cap in force at
   its withdrawals, within any 24 hours at most twice the largest in that window less one, whatever
   the caps before; and that bound is reached.
7. **Audit ring** (`AuditLog`): pages are slices of the reversed unbounded history.
8. **Governance** (`Governance`, `Quorums`): at most once, only with a quorum of distinct signers,
   ids never reused, parameters in range and equal to their latest executed proposal; which
   thresholds can be met at all, and from when the timelock runs.
9. **Stake solvency** (`RiskRegistry`): whatever the slash rate, the balance covers every stake that
   is owed, and removals always pay. **Credit limits** (`Exposure`): exactly when a mint or an
   amendment keeps an SME within its limit. **Schema migration** (`Migration`).
10. **Exactly when a call goes through** (`Admission`, `Custody`, `Authority`, `Standing`): for every
    entry point, an equivalence between committing and a condition on the state and the arguments,
    in every state reachable by fair calls. A refund, for instance, is paid exactly when it is due.
11. **What the calls add up to** (`Settings`, `Sales`, `Custody`, `Authority`, `Standing`): fee rates,
    whitelists, freezes, pause switch, roles, treasury balance, reputations and profiles are what the
    calls that went through made of them; a contribution is charged the rate set last for its
    invoice's band; a position sells for exactly what its seller asked last.

## Where the code and its documentation differ

The model follows the code.

- `README.md:48` and `docs/marketplace.md:89` have the pool release the proceeds to the seller on
  full funding. `release_funds` opens the pool and moves no token; net contributions stay in the
  pool (`FundingNeverPaysTheSeller`; they remain in `Solvency.Liabilities`).
- `docs/CONTRACTS.md:190` and `docs/PERFORMANCE.md:28` bound rounding loss by one smallest unit per
  position. Up to 7 decimals that holds for every repaid amount exactly when the truncated shares
  still total 10_000; three equal investors lose far more (`ThreeEqualInvestors`). With d > 7 decimals
  payouts are whole multiples of 10^(d - 7), and 10^(d - 7) times the number of paid holders, less
  one, must be within it too (`DocumentedDustBound`, `LargestLossExactly`): two halves of 19 units
  with 8 decimals are paid nothing (`TwoHalvesLoseAll`). The remainder for the final
  investor described in `docs/PERFORMANCE.md:33` is not in the code.
- A buyout settles only if the accepted shares reach 10_000. With shares truncated below that
  total it does not settle even when everybody accepts (`SettlesExactlyWhenUnanimous`; three equal
  investors in `UnanimousBuyoutDoesNotSettle`).
- `accept_early_settlement` overwrites `repaid_amount`: earlier repayments stay in the pool's
  balance, owed to nobody (`RepaymentsStranded`; a run in `BuyoutStrandsRepayment`).
- `MAX_AMOUNT` is described as an overflow-safety ceiling; the product with a rate can still
  overflow below it (`CeilingIsNotEnough`, `SafeForEveryRate`).
- The treasury's cap is called a rolling 24-hour cap. It is an epoch cap, and a
  rolling one exactly when it is at most 1 (`RollingExactly`, `DayBoundReached`).
  `emergency_withdraw`, documented as subject to it, does not consult it: it stays within the cap
  exactly when the balance does (`DrainStaysWithinCapExactly`, `DrainExceedsCap`).
- A comment in access_control counts the governance timelock from the quorum; the code counts from
  the proposal (`CoolingOffExactly`, `ExecutedAtItsQuorum`).
- `configure_multisig` compares the threshold with the length of the signer list. A proposal made
  under a configuration, of an action or of a parameter value in range, can be executed under it
  exactly when the threshold is at most the number of different signers (`QuorumReachableExactly`,
  `ParameterQuorumReachableExactly`), and a higher one is accepted
  (`RepeatedSignersAccepted`). Approvals of earlier signers go on counting for proposals made before
  (`FormerSignersCount`).
- Credit limits are described as limits on outstanding exposure. Minting never raises the stored
  exposure: it is minus what was given back (`ExposureIsGivenBack`). So the check of a mint keeps the
  live invoices within the limit exactly when none is live and, unless the limit is the largest there
  is, none ever ended (`GuardKeepsLimitExactly`; two mints above it in `MintsAboveLimit`). Amending
  checks no limit (`AmendKeepsLimitExactly`, `AmendmentAboveLimit`).
- A comment in `migrate` says records minted after the upgrade are skipped. They trap, and a fresh
  deployment starts at version 1 with v2 records (`FreshDeploymentCannotMigrate`).
- `repay` and `mark_default` accept any token (`ForeignRepaymentBreaksSolvency`), and
  `initialize` of the risk registry accepts any slash rate (`StakesStayNonNegativeExactly`).
- `docs/SECURITY.md:30` exempts repayment from the pause. A repayment that closes the pool calls
  `set_repaid`, which the pause stops (`RepaymentsExemptUnlessClosing`; a run in
  `PauseStopsClosingRepayment`).
- `repay` accepts repayments after a default, and `set_defaulted` can be called on the invoice
  directly. What is repaid is distributable exactly while the invoice is Funded
  (`DistributableExactlyWhileFunded`).

## Model

| member | source | states |
|---|---|---|
| BasisPoints.BpsOfExact | contracts/shared/src/validation.rs:292-300 | succeeds iff the amount is non-negative and amount times rate fits i128; then the result is the floored share, at most the amount for rates up to 10_000 |
| BasisPoints.CeilingIsNotEnough | contracts/shared/src/validation.rs:9-12 | an amount within MAX_AMOUNT overflows at a rate of 3 |
| BasisPoints.SafeForEveryRate | contracts/shared/src/validation.rs:292-300 | all valid rates succeed iff the amount is between 0 and i128::MAX / 10_000 |
| BasisPoints.FewDecimals | contracts/shared/src/validation.rs:471-485 | up to 7 decimals the normalised fee equals the plain fee; exact success condition |
| BasisPoints.ManyDecimals | contracts/shared/src/validation.rs:471-485 | above 7 decimals the fee is a multiple of K, never above the plain fee and less than 2K below it; exact success condition |
| BasisPoints.NeverAboveExactShare | contracts/shared/src/validation.rs:471-485 | for any decimals the result lies between 0 and the exact floored share |
| BasisPoints.RoundTrip | contracts/shared/src/validation.rs:415-457 | normalise then denormalise restores the amount, or drops exactly the digits below K |
| BasisPoints.SplittingFees | contracts/shared/src/validation.rs:471-485 | the normalised fees of n amounts at one rate total at most the plain fee of their sum, and at least that less n-1, less n * (2 * 10^(d - 7) - 1) more in a token with d > 7 decimals |
| Accruals.FundingInParts | contracts/marketplace/src/lib.rs:354-371 | over any run, the fees taken from n committed contributions to a listing at one rate are at most the fee of the funded amount, and at least that less n-1, less n * (2 * 10^(d - 7) - 1) more in a token with d > 7 decimals |
| Shares.SharesOfOneTotal | contracts/financing_pool/src/lib.rs:183-196 | shares against one total sum to at most 10_000, and to more than 10_000 - n when contributions make up the total |
| Shares.DustBound | contracts/financing_pool/src/lib.rs:389-399 | of exact floors, the payouts up to 7 decimals: n positions never exceed the repayment and leave less than n + n * repaid / 10_000 behind |
| Dust.LargestLossExactly | contracts/financing_pool/src/lib.rs:387-399 | for every number d of decimals and shares of 10_000 in total: over all computable repayments the loss is at most K * m - 1 for m paid holders, K = 10^(d - 7) above 7 decimals and 1 otherwise, and that is reached where 10_000 * K fits |
| Dust.DocumentedDustBound | docs/CONTRACTS.md:190 | for every number of decimals: at most one unit per position is lost of any computable repayment iff shares total exactly 10_000 and K * m - 1 is at most the number of positions, or K does not fit and nothing is ever paid; up to 7 decimals the former is shares of 10_000 alone |
| Dust.TwoHalvesLoseAll | docs/PERFORMANCE.md:28-33 | shares of 10_000 in two halves and 8 decimals lose all 19 units repaid |
| Dust.FitsWhateverIsRepaid | contracts/financing_pool/src/lib.rs:373-409 | for every number of decimals payouts fit in every repayment if shares total at most 10_000, and only if where 10_000 * K fits |
| Shares.ThreeEqualInvestors | docs/CONTRACTS.md:190 | concrete pool of three, up to 7 decimals, whose loss is 100_000_000 units |
| PriceOracle.PriceOracle.SetPrice | contracts/price_oracle/src/lib.rs:36-58 | admin only, positive prices only; exactly one price replaced, stamped with the ledger time |
| PriceOracle.ConvertExact | contracts/price_oracle/src/lib.rs:62-107 | a conversion is the floored product with a price at most an hour old, and is positive |
| PriceOracle.CreditWithinPayment | contracts/price_oracle/src/lib.rs:86-107 | credits never exceed payments iff the price is at most one unit per unit |
| PriceOracle.SplittingRepayments | contracts/price_oracle/src/lib.rs:86-107 | the conversions of n amounts at one price total between the conversion of their sum less n-1 and that conversion |
| Accruals.RepayingInParts | contracts/financing_pool/src/lib.rs:311-334 | over any run, n committed repayments of an invoice at one price raise its repaid amount by between the lump-sum credit less n-1 and that credit |
| Accruals.SharesOverRun | contracts/financing_pool/src/lib.rs:163-210 | recorded, overwritten or sold, every position of one total holds its floored share |
| Accruals.DustOverRun | contracts/financing_pool/src/lib.rs:373-409 | after any run recording positions against one total, every committed call that distributes, closing repayment, default or settled buyout, pays at most the amount distributed and leaves only the bounded dust, for any decimals |
| PriceOracle.PriceAvailableExactly | contracts/price_oracle/src/lib.rs:62-84 | a price is returned iff it is stored and at most an hour old, and is the stored one |
| PriceOracle.ConvertsExactly | contracts/price_oracle/src/lib.rs:86-107 | a positive amount converts iff the currencies are one, or the price is fresh and the product fits and comes to at least one unit |
| TokenLedger.TransferMoves | contracts/financing_pool/src/lib.rs:336-343 | a transfer moves the amount between two holders and changes no other balance |
| TokenLedger.TokenLedger.Move | contracts/financing_pool/src/lib.rs:336-343 | in-place transfer equals its specification; a rejected one changes nothing |
| InvoiceNft.InvoiceNft.MintInvoice | contracts/invoice_nft/src/lib.rs:252-333 | status and whole storage after a mint, error branches and the credit limit included |
| InvoiceNft.InvoiceNft.AmendInvoice | contracts/invoice_nft/src/lib.rs:340-380 | only the owner amends, only while Created; the tier follows the score |
| InvoiceNft.InvoiceNft.WithdrawInvoice | contracts/invoice_nft/src/lib.rs:386-413 | only the owner withdraws, only while Created; exposure given back |
| InvoiceNft.InvoiceNft.MarkListed | contracts/invoice_nft/src/lib.rs:424-440 | Created to Listed, by the marketplace |
| InvoiceNft.InvoiceNft.MarkFunded | contracts/invoice_nft/src/lib.rs:451-468 | Listed to Funded, by the pool, stamped |
| InvoiceNft.InvoiceNft.MarkRepaid | contracts/invoice_nft/src/lib.rs:479-502 | Funded to Repaid, by the pool, stamped; exposure given back |
| InvoiceNft.InvoiceNft.MarkDefaulted | contracts/invoice_nft/src/lib.rs:513-540 | Funded to Defaulted, by the admin, after the due date; exposure given back |
| Exposure.ExposureIsGivenBack | contracts/invoice_nft/src/lib.rs:286-330 | over every run an SME's stored exposure is minus the amounts of its invoices withdrawn, repaid or defaulted, clamped to i128; never positive |
| Exposure.RefusedForLimitExactly | contracts/invoice_nft/src/lib.rs:286-303 | in every reachable state a mint is refused for the limit iff its amount exceeds the limit by more than everything given back |
| Exposure.GuardKeepsLimitExactly | contracts/invoice_nft/src/lib.rs:286-303 | whatever is minted next, the check keeps the live invoices within the limit iff none is live and none ever ended, or none is live and the limit is i128::MAX |
| Exposure.MintKeepsLimitExactly | contracts/invoice_nft/src/lib.rs:286-330 | a committed mint leaves the live total within a limit iff its amount is within what the live invoices leave of it |
| Exposure.AmendKeepsLimitExactly | contracts/invoice_nft/src/lib.rs:340-380 | a committed amendment does iff the new amount is within what the other live invoices leave |
| Scenarios.MintsAboveLimit | contracts/invoice_nft/src/lib.rs:286-330 | a run from initialization minting 200 live under a limit of 100 |
| Scenarios.AmendmentAboveLimit | contracts/invoice_nft/src/lib.rs:340-413 | a run from initialization that amends an invoice to 1_000 under a limit of 100, withdraws it and mints another 1_000 |
| InvoiceNft.InvoiceNft.SetFreeze | contracts/invoice_nft/src/lib.rs:639-661 | freeze and unfreeze by the admin |
| FinancingPool.FinancingPool.ReleaseFunds | contracts/financing_pool/src/lib.rs:85-141 | opens the pool and marks the invoice Funded, or undoes both |
| FinancingPool.FinancingPool.SetMaxPositionBps | contracts/financing_pool/src/lib.rs:144-152 | status and storage after the limit change |
| PoolSpec.ShareInRange | contracts/financing_pool/src/lib.rs:183-189 | a recorded share is the floored quotient, between 0 and 10_000 |
| FinancingPool.FinancingPool.RecordPosition | contracts/financing_pool/src/lib.rs:163-248 | position and aggregate replaced together; the position written early is undone if the pool is missing |
| FinancingPool.FinancingPool.PayPositions | contracts/financing_pool/src/lib.rs:384-401 | the payout loop pays every holder in address order as `PayHolders` says and totals their contributions |
| FinancingPool.FinancingPool.DistributeYield | contracts/financing_pool/src/lib.rs:373-409 | the loop and the aggregate update together |
| FinancingPool.FinancingPool.CreditRepayment | contracts/financing_pool/src/lib.rs:311-336 | one-time penalty, conversion and credit, closed when the total owed is reached |
| FinancingPool.FinancingPool.Repay | contracts/financing_pool/src/lib.rs:256-371 | whole repayment: lock, credit, transfer, settlement when closed; undone on any failure |
| FinancingPool.FinancingPool.MarkDefault | contracts/financing_pool/src/lib.rs:412-464 | distribution of what was repaid and the step to Defaulted; exactly a committed call reports the invoice's SME to the risk registry |
| FinancingPool.FinancingPool.ProposeEarlySettlement | contracts/financing_pool/src/lib.rs:476-529 | offer recorded and amount escrowed |
| FinancingPool.FinancingPool.AcceptEarlySettlement | contracts/financing_pool/src/lib.rs:535-628 | acceptance tallied, or buyout settled when the tally reaches 10_000 |
| FinancingPool.FinancingPool.CancelEarlySettlement | contracts/financing_pool/src/lib.rs:633-665 | offer removed and escrow returned |
| FinancingPool.FinancingPool.ListPositionForSale | contracts/financing_pool/src/lib.rs:700-751 | sale offer recorded |
| FinancingPool.FinancingPool.BuyPosition | contracts/financing_pool/src/lib.rs:787-844 | price paid and position moved to the buyer |
| Marketplace.Marketplace.SetFeeBps | contracts/marketplace/src/lib.rs:116-128 | flat fee, admin only, at most 10_000 |
| Marketplace.Marketplace.SetTierFeeBps | contracts/marketplace/src/lib.rs:141-155 | tier fee, admin only, at most 10_000 |
| Marketplace.Marketplace.SetWhitelisted | contracts/marketplace/src/lib.rs:176-213 | token added, or removed if present |
| Marketplace.Marketplace.ListInvoice | contracts/marketplace/src/lib.rs:226-302 | all listing checks in order, listing stored and invoice marked Listed, or nothing |
| Marketplace.Marketplace.FundInvoice | contracts/marketplace/src/lib.rs:305-412 | checks, fee, transfers, the treasury's acceptance of the fee, contribution, and the pool opened on completion, or nothing |
| Marketplace.Marketplace.CancelListing | contracts/marketplace/src/lib.rs:417-443 | listing made inactive by seller or admin |
| Marketplace.Marketplace.RequestCancellation | contracts/marketplace/src/lib.rs:454-504 | cancelled at once or pending confirmation |
| Marketplace.Marketplace.AdminConfirmCancellation | contracts/marketplace/src/lib.rs:512-563 | pending request confirmed, listing inactive |
| Marketplace.Marketplace.ClaimRefund | contracts/marketplace/src/lib.rs:572-634 | net contribution paid back once, when confirmed or past an unmet deadline |
| Distribution.PayHoldersPays | contracts/financing_pool/src/lib.rs:384-401 | the loop pays every holder exactly their payout out of the pool and touches no other balance |
| Distribution.SettledExact | contracts/financing_pool/src/lib.rs:384-406 | the saturating total of contributions is exact while it fits |
| Distribution.NeverShort | contracts/financing_pool/src/lib.rs:384-401 | with the total in the pool no payout fails |
| Distribution.PaysAtMostRepaid | contracts/financing_pool/src/lib.rs:389-399 | with shares of at most 10_000 the payouts total at most the repayment, any decimals |
| Distribution.PayoutBound | contracts/financing_pool/src/lib.rs:183-196 | positions of one total, up to 7 decimals: payouts within n + n * repaid / 10_000 of the repayment |
| Distribution.PayoutBoundManyDecimals | contracts/financing_pool/src/lib.rs:389-399 | above 7 decimals, less than 2K per position further below |
| Effects.HasEffect | contracts/financing_pool/src/lib.rs:256-371 | every committed call of the three contracts changes exactly what its declarative effect says |
| Coupling.StepKeeps | contracts/marketplace/src/lib.rs:384-409 | every call keeps listing, pool and invoice coupled |
| Coupling.RunKeeps | contracts/marketplace/src/lib.rs:253-298 | so does every run |
| Lifecycle.ThreeRecords | contracts/financing_pool/src/lib.rs:94-138 | status says exactly whether a listing and a pool exist, whether it is fully funded, whether the pool is closed; face values agree |
| Lifecycle.ReleaseOutsideFunding | contracts/financing_pool/src/lib.rs:85-141 | a release outside `fund_invoice` fails or uncouples the records |
| Lifecycle.NoLockLeftBehind | contracts/financing_pool/src/lib.rs:286-291 | no repayment lock survives its call |
| Lifecycle.StatusFollowsLifecycle | contracts/invoice_nft/src/lib.rs:424-540 | a status moves only along the documented arrows; only a Created invoice disappears |
| Lifecycle.DistributionLeavesFunded | contracts/financing_pool/src/lib.rs:349-366 | each distributing path starts at Funded and ends in a terminal status |
| Lifecycle.SingleDistribution | contracts/financing_pool/src/lib.rs:432-446 | an invoice is distributed at most once over any run |
| Lifecycle.RepaymentsExemptUnlessClosing | contracts/invoice_nft/src/lib.rs:479-484 | a repayment that would go through otherwise goes through while paused iff the repaid amount plus its credit stays below what is owed, a late penalty due included |
| Scenarios.PauseStopsClosingRepayment | contracts/invoice_nft/src/lib.rs:479-484 | a run from initialization after which paying the whole invoice commits, and does not while paused |
| Lifecycle.PenaltyOnce | contracts/financing_pool/src/lib.rs:314-340 | total owed is face value plus the penalty if applied; an open pool is not repaid in full |
| Lifecycle.CreditedProgress | contracts/financing_pool/src/lib.rs:311-340 | a credited repayment strictly raises the repaid amount and lowers what can still be credited |
| Lifecycle.RepaymentsTerminate | contracts/financing_pool/src/lib.rs:314-340 | in any run no more repayments of an invoice commit than units could be credited at the start |
| Admission.CommitsExactly | contracts/financing_pool/src/lib.rs:256-366 | after any fair run each call of the three contracts commits iff the listed conditions on callers, statuses, deadlines, freezes, limits, amounts and balances hold; never for lack of money in the pool |
| Admission.StepsCommitExactly | contracts/invoice_nft/src/lib.rs:424-502 | the steps to Listed, Funded and Repaid commit iff made by their contract, unpaused, from the status before |
| Admission.ReleasesExactly | contracts/financing_pool/src/lib.rs:85-141 | a release commits iff unpaused, on a Listed invoice of a valid amount without a pool, in a token that is not the pool contract; whoever calls |
| Admission.FundCommitsExactly | contracts/marketplace/src/lib.rs:305-412 | a contribution commits iff the listing takes it, its fee can be computed at the rate of the invoice's tier, the investor affords it, and the treasury accepts the fee |
| Admission.RepayCommitsExactly | contracts/financing_pool/src/lib.rs:256-366 | a repayment commits iff it is creditable and affordable on an open, unfrozen pool and, when it closes, the protocol runs, the invoice is Funded and all shares can be computed |
| Admission.RefundPaidExactlyWhenDue | contracts/marketplace/src/lib.rs:585-630 | after any fair run a refund is paid iff the listing is under-funded, confirmed cancelled or past its deadline, not refunded to the investor, and something was contributed |
| Settings.SettingsAreLatest | contracts/marketplace/src/lib.rs:116-213 | flat and tier fees, whitelist, position limit and freezes are what the admin's latest call for each asked for |
| Settings.RequestsAreLatest | contracts/marketplace/src/lib.rs:486-504 | a cancellation is pending iff requested with money in the listing and not confirmed since, under the name of who asked |
| Settings.ReferrersAsListed | contracts/marketplace/src/lib.rs:226-302 | the referrer on record is the one named on listing |
| Settings.CancellationTakesHold | contracts/marketplace/src/lib.rs:417-563 | a committed cancellation shuts the listing unless it is a request with money in the listing; only the admin's confirmation marks it confirmed |
| Settings.TiersAreBands | contracts/shared/src/types.rs:50-60 | an invoice's tier is the band of its risk score in every reachable state |
| Settings.FeesFollowRates | contracts/marketplace/src/lib.rs:348-382 | after any run the treasury receives the amount at the rate set last for the invoice's band, or the flat one, exactly up to 7 decimals, and the pool the rest |
| Sales.SalesPayTheAskedPrice | contracts/financing_pool/src/lib.rs:787-844 | after any run a committed purchase pays the seller the token and price of their latest listing, unused before; the position moves and the offer is gone |
| Sales.OffersAreListed | contracts/financing_pool/src/lib.rs:700-751 | an offer on record is the seller's latest, neither replaced nor bought since |
| Sales.RecordedPosition | contracts/financing_pool/src/lib.rs:190-210 | a recording stores the whole position it names and no other |
| Refunds.RefundExcludesRelease | contracts/marketplace/src/lib.rs:585-630 | no invoice has both a refund and a pool; a confirmed cancellation is inactive and under-funded |
| Refunds.ShutForever | contracts/marketplace/src/lib.rs:323-333 | a shut listing stays shut and its contributions stay frozen |
| Refunds.RefundPaysWhole | contracts/marketplace/src/lib.rs:612-630 | a refund moves the whole net contribution from the pool to the investor and nothing else |
| Refunds.RefundOnceAndFinal | contracts/marketplace/src/lib.rs:572-634 | nobody is refunded twice and no contribution follows the first refund |
| Refunds.FundingConserved | contracts/marketplace/src/lib.rs:348-392 | funded amount is recorded contributions plus fees taken, at most the asking price, which is below face value |
| Refunds.ContributionMoves | contracts/marketplace/src/lib.rs:354-382 | the investor pays the amount, the treasury gets the fee, the pool the rest |
| Refunds.FundingNeverPaysTheSeller | README.md:48 | no contribution, the completing one included, pays the seller |
| Solvency.SlackKept | contracts/financing_pool/src/lib.rs:330-408 | no fair call lowers the pool's balance relative to what it owes, in any token |
| Solvency.AlwaysSolvent | contracts/financing_pool/src/lib.rs:330-408 | after any run whose committed calls are fair the pool covers contributions, repayments and escrows in every token |
| Solvency.RefundNeverShort | contracts/marketplace/src/lib.rs:612-630 | a refund never fails for lack of balance |
| Solvency.CancelBuyoutNeverShort | contracts/financing_pool/src/lib.rs:633-665 | nor does returning an escrow |
| Solvency.AcceptNeverShort | contracts/financing_pool/src/lib.rs:585-626 | nor does settling a buyout |
| Solvency.DefaultNeverShort | contracts/financing_pool/src/lib.rs:432-446 | nor does distributing at default |
| Solvency.RepayNeverShort | contracts/financing_pool/src/lib.rs:336-366 | a repayment the payer can afford never fails for lack of balance |
| Solvency.RepaymentCoveredExactly | contracts/financing_pool/src/lib.rs:330-347 | a partial repayment lowers no slack iff the invoice is Defaulted, or it is in the pool's token and its credit is within the payment |
| Settlements.ClosingCoveredExactly | contracts/financing_pool/src/lib.rs:336-366 | a closing repayment lowers no slack iff what its distribution takes is covered by the payment and, in the pool's token, by what was repaid before |
| Settlements.FairClosingCovered | contracts/financing_pool/src/lib.rs:336-366 | a fair closing repayment is covered |
| Settlements.DefaultCoveredExactly | contracts/financing_pool/src/lib.rs:432-446 | a default lowers no slack iff it names the pool's token or takes nothing |
| Undistributed.DistributableExactlyWhileFunded | contracts/financing_pool/src/lib.rs:412-464 | after any fair run, what was repaid and can be paid out can be distributed by some later call iff the invoice is Funded |
| Scenarios.ForeignRepaymentBreaksSolvency | contracts/financing_pool/src/lib.rs:330-347 | a run from initialization whose repayment in another token leaves the pool owing 5 more than it holds |
| Aggregate.AgreesDistributed | contracts/financing_pool/src/lib.rs:400-408 | a distribution takes exactly the pool's contributions off the aggregate of the named token, without saturating; it still agrees iff that is the pool's token or nothing was contributed |
| Aggregate.AgreesKeptExactly | contracts/financing_pool/src/lib.rs:212-235 | a committed call keeps the aggregate in agreement iff: it distributes in the pool's token or with nothing contributed; it records an undistributed pool or the same contribution again; it buys in a distributed pool, from oneself, or as a buyer who contributed nothing; every other call does |
| Aggregate.AggregateAgrees | contracts/financing_pool/src/lib.rs:212-235 | the aggregate equals the recomputed sum over undistributed pools after any run whose committed calls keep the books fair |
| Buyouts.UnanimityExactly | contracts/financing_pool/src/lib.rs:575-606 | accepted shares reach 10_000 iff shares total 10_000 and every positive holder accepted |
| Buyouts.SettlesExactlyWhenUnanimous | contracts/financing_pool/src/lib.rs:575-626 | over a run with steady positions, an acceptance settles iff that is so |
| Buyouts.EscrowConserved | contracts/financing_pool/src/lib.rs:497-528 | every escrow is pending, refunded once or distributed once, in number and amount |
| Buyouts.EarlierRepaymentsNotDistributed | contracts/financing_pool/src/lib.rs:592-606 | a settled buyout replaces the repaid amount and pays exactly the shares of the escrow |
| Buyouts.RepaymentsStranded | contracts/financing_pool/src/lib.rs:592-606 | it pays at most the escrow, what was repaid before is owed no more and stays in the balance, and nothing but dust stays iff nothing had been repaid |
| Scenarios.BuyoutStrandsRepayment | contracts/financing_pool/src/lib.rs:592-606 | a run from initialization that strands 20 |
| Scenarios.UnanimousBuyoutDoesNotSettle | contracts/financing_pool/src/lib.rs:575-626 | a run from initialization in which all three investors accept and the pool stays open |
| AuditLog.AuditLog.Append | contracts/treasury/src/lib.rs:483-517 | the ring keeps standing for the full history plus the new entry |
| AuditLog.AuditLog.GetAuditLog | contracts/treasury/src/lib.rs:353-388 | a page equals its slice of the last 500 entries, newest first |
| AuditLog.PagesCover | contracts/access_control/src/lib.rs:665-740 | successive pages of any size yield those entries once each and then nothing |
| AuditLog.PagesAsAsked | contracts/treasury/src/lib.rs:353-362 | a page holds at most 50 entries, and as many as asked for while there are enough |
| AuditLog.AppendShifts | contracts/shared/src/audit.rs:6 | an append shifts the readable history by one and drops the oldest of 500 |
| Treasury.Treasury.SetFee | contracts/treasury/src/lib.rs:89-106 | fee changed by the admin within range; audited iff committed |
| Treasury.Treasury.Whitelist | contracts/treasury/src/lib.rs:110-122 | token accepted, by the admin; audited |
| Treasury.Treasury.Collect | contracts/treasury/src/lib.rs:130-147 | informational total raised, overflow reported, no caller check |
| Treasury.Treasury.EnforceRateLimit | contracts/treasury/src/lib.rs:417-453 | epoch rolled and cap checked as `Limit` says |
| Treasury.Treasury.WithdrawTo | contracts/treasury/src/lib.rs:152-198 | withdrawal or rollback of the rolled epoch; audited iff committed |
| Treasury.Treasury.Drain | contracts/treasury/src/lib.rs:204-225 | the whole balance leaves, whatever the cap |
| Treasury.Treasury.ProposeWithdrawalCap | contracts/treasury/src/lib.rs:231-247 | proposal stored with its time |
| Treasury.Treasury.ExecuteWithdrawalCap | contracts/treasury/src/lib.rs:251-276 | proposed cap in force after the timelock |
| Custody.CommitsExactly | contracts/treasury/src/lib.rs:89-276 | after any run each treasury call commits iff its conditions hold; a withdrawal: by the admin, an amount within MAX_AMOUNT, a whitelisted token, what is left of the epoch, the balance |
| Custody.MovesExactly | contracts/treasury/src/lib.rs:186-225 | a withdrawal pays its recipient exactly the amount, a drain the whole balance, nothing else moves a token |
| Custody.BalanceAccounted | contracts/treasury/src/lib.rs:152-225 | over any run the treasury's balance falls only by the admin's withdrawals and drains, apart from what happens outside |
| Custody.CapAccounted | contracts/treasury/src/lib.rs:231-276 | cap and waiting proposal are what the calls that went through made of them, from no cap at first |
| Custody.SettingsAccounted | contracts/treasury/src/lib.rs:89-147 | fee rate, whitelist and fee ledger are what the calls that went through made of them |
| WithdrawalLimit.EpochBound | contracts/treasury/src/lib.rs:417-473 | withdrawals under a cap within one epoch total at most the largest cap in force at one of them; the stored total is exact |
| WithdrawalLimit.DayBound | contracts/treasury/src/lib.rs:417-473 | within any half-open 86_400 s at most twice the largest cap in force at a withdrawal of that window, less one |
| WithdrawalLimit.DayBoundReached | contracts/treasury/src/lib.rs:149-150 | for every cap of at least 2 a run reaches that bound |
| WithdrawalLimit.RollingExactly | contracts/treasury/src/lib.rs:149-150 | a cap bounds every 24 hours of every run under it iff it is at most 1 |
| WithdrawalLimit.DrainStaysWithinCapExactly | contracts/treasury/src/lib.rs:200-225 | a drain takes the whole balance uncounted, and no more than one withdrawal could iff the balance is within what is left of the epoch and within MAX_AMOUNT |
| WithdrawalLimit.DrainExceedsCap | contracts/treasury/src/lib.rs:200-225 | a drain of more than the cap in the second the cap comes into force |
| WithdrawalLimit.CapStartsAFreshEpoch | contracts/treasury/src/lib.rs:241-276 | a cap introduced where there was none finds the running epoch expired |
| WithdrawalLimit.CapChangesWait | contracts/treasury/src/lib.rs:249-276 | a cap changes only to the latest proposal's value, a full day after it |
| AccessControl.AccessControl.PauseOrUnpause | contracts/access_control/src/lib.rs:94-129 | switch flipped by the admin, not twice; audited |
| AccessControl.AccessControl.GrantTo | contracts/access_control/src/lib.rs:137-163 | roles other than Admin and none, not to the admin |
| AccessControl.AccessControl.RevokeFrom | contracts/access_control/src/lib.rs:168-190 | assigned roles other than Admin |
| AccessControl.AccessControl.TransferTo | contracts/access_control/src/lib.rs:198-234 | admin and role entries moved together |
| AccessControl.AccessControl.ConfigureMultisig | contracts/access_control/src/lib.rs:240-269 | threshold between 1 and the length of the list |
| AccessControl.AccessControl.RequireSigner | contracts/access_control/src/lib.rs:768-782 | the scan finds the caller iff the caller is a signer |
| AccessControl.AccessControl.HasApproved | contracts/access_control/src/lib.rs:336-340 | the scan finds an earlier approval iff there is one |
| AccessControl.AccessControl.ProposeAction | contracts/access_control/src/lib.rs:272-314 | proposal under the next id with the proposer's approval; undone on counter overflow |
| AccessControl.AccessControl.ApproveAction | contracts/access_control/src/lib.rs:318-351 | one more approval, in order of the source's checks |
| AccessControl.AccessControl.ExecuteAction | contracts/access_control/src/lib.rs:355-422 | marked executed and performed together, or neither |
| AccessControl.AccessControl.ProposeParameterChange | contracts/access_control/src/lib.rs:444-489 | range-checked proposal under the next id |
| AccessControl.AccessControl.VoteParameterChange | contracts/access_control/src/lib.rs:492-527 | one more vote |
| AccessControl.AccessControl.ExecuteParameterChange | contracts/access_control/src/lib.rs:531-571 | parameter set and proposal marked together |
| Governance.RunKeeps | contracts/access_control/src/lib.rs:318-422 | proposals are never lost or re-purposed, approvals only grow, executed ones are frozen, counters never go back |
| Governance.ExecutedOnce | contracts/access_control/src/lib.rs:366-379 | no proposal of either kind takes effect twice |
| Governance.IdsNeverReused | contracts/access_control/src/lib.rs:281-310 | for multisig and parameter proposals, each with its own counter, later ids are larger and an id keeps what it proposes and its proposer |
| Governance.QuorumAtExecution | contracts/access_control/src/lib.rs:355-374 | executed only with the threshold in force of distinct addresses, each of which proposed or approved earlier as a signer |
| Governance.ExecutionNeedsEnoughSigners | contracts/access_control/src/lib.rs:353-374 | nothing is executed under a threshold above the number of addresses that were ever signers |
| Authority.CommitsExactly | contracts/access_control/src/lib.rs:94-571 | each call of access_control commits iff its conditions on caller, roles, proposal, approvals, expiry and timelock hold |
| Authority.ChangesExactly | contracts/access_control/src/lib.rs:381-415 | a committed call, an executed Pause, Unpause, GrantRole, RevokeRole or TransferAdmin included, changes exactly what it names |
| Authority.PowersAccounted | contracts/access_control/src/lib.rs:94-422 | after any run the pause switch, the admin, every role and the multisig are what the latest call or executed proposal about them made of them |
| Quorums.QuorumReachableExactly | contracts/access_control/src/lib.rs:249-252 | in every reachable state, a proposal made under the configuration in force can be executed under it iff the threshold is at most the number of different signers |
| Quorums.ParameterQuorumReachableExactly | contracts/access_control/src/lib.rs:531-555 | likewise a parameter change proposed under it, iff its value is in range and the threshold at most that number; then exactly the timelock later |
| Quorums.RepeatedSignersAccepted | contracts/access_control/src/lib.rs:249-252 | a list of one signer twice with threshold 2 is accepted |
| Quorums.FormerSignersCount | contracts/access_control/src/lib.rs:355-374 | a run in which a proposal is executed on the approvals of former signers alone |
| Governance.VotesSupported | contracts/access_control/src/lib.rs:492-527 | every vote was cast by its own address while a signer |
| Governance.ParametersAreGoverned | contracts/access_control/src/lib.rs:531-571 | a parameter is in range and equals its latest executed proposal, made a day earlier and carried by a quorum |
| Quorums.CoolingOffExactly | contracts/access_control/src/lib.rs:13-15 | however a run goes on, a proposal is executed no earlier than a day after the call that gave it its first quorum iff it was made at that ledger time |
| Quorums.ExecutedAtItsQuorum | contracts/access_control/src/lib.rs:547-555 | a run that executes a proposal in the second it reaches its quorum |
| RiskRegistry.RiskRegistry.Add | contracts/risk_registry/src/lib.rs:100-139 | stake paid in and recorded, replacing any earlier one |
| RiskRegistry.RiskRegistry.Remove | contracts/risk_registry/src/lib.rs:142-183 | recorded stake paid back, entries removed |
| RiskRegistry.RiskRegistry.Register | contracts/risk_registry/src/lib.rs:188-226 | profile stored once, under its verifier |
| RiskRegistry.RiskRegistry.Default | contracts/risk_registry/src/lib.rs:315-374 | default counted, stake slashed, reputation lowered; traps and overflows reported |
| Standing.CommitsExactly | contracts/risk_registry/src/lib.rs:100-374 | after any run each registry call commits iff its conditions hold |
| Standing.StandingAccounted | contracts/risk_registry/src/lib.rs:188-374 | stakes and reputations are what additions, removals and defaults of the verifier's own SMEs made of them; a profile stays as registered and counts exactly its defaults |
| Standing.OfficesChange | contracts/risk_registry/src/lib.rs:100-183 | a committed call makes and unmakes exactly the verifier it names, and changes the admin only by appointing one |
| Standing.StakesMove | contracts/risk_registry/src/lib.rs:111-176 | a stake is paid in by its verifier and paid back to them; nothing else moves a token |
| RiskRegistry.FairSlash | contracts/risk_registry/src/lib.rs:344-347 | up to 10_000 bps a slash takes its floored share and leaves a non-negative stake; it traps iff the product leaves 128 bits |
| RiskRegistry.StakesStayNonNegativeExactly | contracts/risk_registry/src/lib.rs:56-84 | every slash leaves a non-negative stake iff the rate is at most 10_000 |
| RiskRegistry.SlashIsExact | contracts/risk_registry/src/lib.rs:344-347 | for every stake and rate the slash neither wraps nor underflows: it subtracts the floored share, or traps iff the product leaves 128 bits |
| RiskRegistry.StakesConserved | contracts/risk_registry/src/lib.rs:111-129 | for every slash rate, each call moves the balance and the stakes owed together, up to a non-negative stranded amount |
| RiskRegistry.StakeSolvency | contracts/risk_registry/src/lib.rs:155-176 | for every slash rate, the balance is the positive stakes plus everything slashed, overwritten or donated |
| RiskRegistry.RemovalPaysInFull | contracts/risk_registry/src/lib.rs:155-176 | for every slash rate, the admin's removal always commits and pays the stake, or nothing when it is negative |
| RiskRegistry.NoStakeNegative | contracts/risk_registry/src/lib.rs:344-347 | up to a rate of 10_000 no stake is negative in any reachable state |
| Migration.InvoiceStore.MigrateAll | contracts/invoice_nft/src/lib.rs:163-234 | the loop rewrites exactly the allocated v1 records, or undoes everything |
| Migration.UpgradeKeepsEverything | contracts/invoice_nft/src/lib.rs:206-222 | the v1 record can be read back from the upgraded one |
| Migration.MigratedRecords | contracts/invoice_nft/src/lib.rs:188-231 | every live record becomes v2 with v1 fields unchanged, empty hash and no notes; absent ids stay absent |
| Migration.MigrateOnce | contracts/invoice_nft/src/lib.rs:167-188 | a second call is the identity |
| Migration.MigrateSucceedsExactly | contracts/invoice_nft/src/lib.rs:195-226 | it commits iff the caller is the admin and the store is past version 1 or holds no v2 record |
| Migration.FreshDeploymentCannotMigrate | contracts/invoice_nft/src/lib.rs:136-140 | after the first mint on a fresh deployment it traps |

## Left out

- Signature checks, storage lifetime, events, WASM upgrades, deployment scripts, the SDK and the read-only views: host and I/O plumbing.
- Whether the host lets the marketplace move the pool's tokens in `claim_refund`: the model assumes it does.
- `initialize` of each contract is a constructor; a second call, which the source rejects, and wiring set later (`set_authorized_callers`, `set_risk_registry`) are fixed at construction.
- `release_funds` as a call of its own: a run reaches it only through `fund_invoice`, because its caller is not checked in the source; `ReleaseOutsideFunding` says what other calls would do.
- The re-entrancy flag: token contracts are plain ledgers that call nothing back.
- Overflow of a receiver's balance inside a token contract, and of ledger times near 2^64.
- FinancingPool.FinancingPool.MarkDefault: names the SME it reports; what the risk registry does with the report is `RiskRegistry.Default`, in its own state machine, because the pool ignores the answer.
- Marketplace.Marketplace.FundInvoice: the treasury's fee ledger is an input of the call, so its checks are made and its write is not seen here; the write is `Treasury.Collect`.
- The currency allowlist, `commit_metadata_hash`, and content-identifier validation.
- The branch of `convert_if_needed` for a pool without an oracle: `initialize` always stores one (contracts/financing_pool/src/lib.rs:79).
- The referrer split: stored, never applied by `fund_invoice`.
- Updates of an SME's score, invoice count and credit limit, and debtor scores with their cooldown: no money moves through them.
- In `get_audit_log`, the page number is not limited to 32 bits.
- Admission.CommitsExactly: of a repayment and a default it is said when they are fair, because in a foreign token what the pool holds of it decides.
- Solvency.AlwaysSolvent: assumes `FairCall` of the calls that commit, because the entry points do not check the token of a settlement, the credit of a conversion or the total of recorded shares.
- Aggregate.AggregateAgrees: assumes of the calls that commit exactly what keeps the aggregate in agreement (`AgreesKeptExactly`), because the source overwrites a buyer's position, records after distribution and distributes in any token.
- Dust.DocumentedDustBound: assumes fewer than 2^32 positions, which is what a map of the host can hold.
- Buyouts.SettlesExactlyWhenUnanimous: assumes positions unchanged since the proposal, because a sale moves a share without touching the tally.
- RiskRegistry.NoStakeNegative: assumes a slash rate of at most 10_000, which the source does not validate; `StakesStayNonNegativeExactly` says why.
- Undistributed.DistributableExactlyWhileFunded: assumes a fair run, so that the money is there, and a repaid amount whose payouts can be computed, because one overflow makes the whole distribution trap.
