# Accounting and decision evidence of the trading runtime, in Dafny

The runtime trades offline, keeps a fixed-point accounting ledger in SQLite and records evidence for every trading
decision. This project models the parts in which that bookkeeping can go wrong, and proves what they keep over every
input and every run. `dafny verify dfyconfig.toml` checks all of it; there are no assumptions beyond the ones listed
under "Modelling choices".

## Overview

- `Rounding`, `Ledger`, `Portfolio`, `AccountingReplay`: cash in quanta of 1e-8, assets in quanta of 1e-12, rounded half
  to even; a fill consumes locked before available balance under a tolerance; the stored portfolio row is an object that
  fills and external cash adjustments update in place; the accounting replay folds the fills first and then three
  families of keyed deltas. The central results, `Portfolio.LiveAgreesWithReplay` and
  `AccountingReplay.StoredPortfolioMatchesReport`, compare the stored row with the replay, in any funded order.
- `Rebuild`: runs in which fees are also finalised, which rewrites the fill table and rebuilds the row from the replay.
- `LotTable`, `Incidents`, `FeeRepair`, `RepairCommand`: the lot table behind its triggers and the schema backfill that
  runs under them; the fill-fee incident projection as a state machine over observations, fills and repairs; the fee
  repair proposal; and the repair command, which records the repair, finalises or adds the fill and appends a completed
  observation, or does nothing.
- `IncidentMeaning`: when an incident is active and what the repair command writes, stated over the rows of the tables.
- `Exposure`, `ExposureProofs`, `ExposureMeaning`, `Residue`: the 36-field position exposure snapshot resolved from four
  layers of optional fields, written back into the stored context and resolved again; what each field is, stated over the
  layers without the resolver; residue stripping on JSON trees.
- `BlockReasons`, `BlockMeaning`, `Accumulator`, `AccumulatorMeaning`: block reasons written as `layer.reason` by one module and parsed by another; the
  streaming attribution accumulator against the batch statistics; and which reasons a context has, in which order, and what
  the counters and statistics are, stated over the context and the rows.
- `Equivalence`, `Promotion`, `EquivalenceMeaning`: the comparison of two decision lists, its coverage matrix and outcome, the report on
  exported artifacts, and the promotion gate; a pass and a cleared gate described over the decisions and artifacts.
- `Canonical`, `CanonicalForm`, `CanonicalFields`, `CanonicalMeaning`: normalisation of canonical decisions of both contract
  versions, what a second pass does, the decisions it leaves alone, and what every rewritten field becomes.
- `Grouping`, `Picking`: rows grouped by a key with one verdict each, and lists read item by item; used by the modules
  above with the program's own keys and readers.
- `Text`, `Wrappers`: shared string operations and results.

## What does not hold as one might expect

Each of these has a lemma with the exact condition under which the code does meet the expectation.

- Half-even rounding does not commute with adding whole quanta: on a tie it does exactly when the number of quanta is
  even (`Rounding.HalfEvenShift`). A SELL rounds after adding to the balance, so a cash adjustment before or after
  it can end one quantum apart (`Portfolio.SellCommutesIff`, `Portfolio.TieExists`).
- Consumption does not look at the total alone: available cash overdrawn by more than the tolerance blocks every BUY,
  however much is locked (`Ledger.OverdrawnBlocks`). A cash adjustment can bring this about, because its guard looks at
  the total only (`Portfolio.AdjustmentCanBlockFills`). `Ledger.ShortfallDecidesIff` says exactly when the shortfall alone
  decides, and `Ledger.ConsumeLaw` what happens for all balances.
- Locked balances stay zero in the accounting replay of a table exactly when no BUY has a negative rounded spend and no
  SELL a negative quantity (`Ledger.LockedZeroIff`, `AccountingReplay.ReportUnlockedIff`, failing input
  `Ledger.NegativeQtyLocks`). The live call admits no such fill, so for the tables that a run writes they always stay
  zero (`AccountingReplay.StoredRunUnlocked`).
- The schema backfill can be rejected by its own triggers: it succeeds exactly when every row with a blank semantic basis
  already satisfies the lot-native clauses (`LotTable.OpenPositionLots.Backfill`, `LotTable.BackfillCanFail`).
- The triggers bound the quantity of a lot-native row from above by all its lots times the lot size, but not from below.
  It falls short of its executable lots by at most 1e-12 exactly when it is at least minus 1e-12
  (`LotTable.RowMatchesIff`, `LotTable.NegativeQtyAdmitted`), and a dust row may hold any part of its dust lots
  (`LotTable.DustBelowAuthority`).
- After the repair command the incident is inactive, whatever the fee (`RepairCommand.CommandSettles`), but not always
  for good: a fill with a fill id stays settled over every later run exactly when, before the call, some fill of the order
  carried the id, or none matched and the fill is added (`RepairCommand.SettledForGoodIff`, reopenable input
  `RepairCommand.ReopenableRequest`).
- Recording a proposal makes the next one over the same observations unsafe, but the command also appends an observation.
  Then the next proposal is what the recorded fee left over, and it can be safe again: `FeeRepair.NextProposalSafeIff` says
  exactly when, `FeeRepair.CentsCanBeSafeAgain` and `FeeRepair.ExactCanBeSafeAgain` give inputs. Calling the command for it
  is refused (`RepairCommand.CommandAppliesOnce`).
- A run can be stored that has no report: a BUY that a deposit pays for fails in the fills-first replay
  (`AccountingReplay.DepositFundedBuyHasNoReport`). `AccountingReplay.ReportExistsIff` says exactly when there is one.
- The primary block is read back without conflict unless its reason is a sentinel word, its layer is not, and the
  context has some other entry block reason (`BlockReasons.AttributionFaithfulIff`,
  `BlockReasons.RiskIsLost`).
- A second normalisation pass changes a decision when its version truncates to zero, when exactly one of side and
  final signal is all spaces, or when the first pass marked a hash as missing (`Canonical.SecondPassKeepsIff`,
  `Canonical.ZeroVersionChanges`, `Canonical.BlankSideChanges`, `Canonical.SkippedHashChanges`).
- The plain comparison passes on two empty lists; only the gate stops them (`Promotion.EmptyListsPassButFailGate`).

## Modelling choices

- Amounts are exact: stored ones are integers in quanta, raw ones reals. IEEE doubles are idealised away, except that
  the consumption tolerance keeps its definition of four units in the last place of the largest operand.
- SHA-256, JSON text, number printing and parsing are opaque functions; the assumptions on them are that nothing prints
  as the empty text and that a digest is neither empty nor padded (`Canonical.Notation.Valid`).
- Case folding covers ASCII letters; stripping covers every character that Python's `strip` removes.
- The position classification, lifecycle evidence, payload validation and key functions used by the comparison live
  in other modules; they are function parameters of the model (`Equivalence.Rules`, `Promotion.Coverages`), so the
  theorems hold for all of them.
- A query with `LIMIT 1` picks the first matching row in table order.
- A fee printed with two decimals is any nearest number of cents: on half a cent the binary value decides, so both
  neighbours are allowed (`FeeRepair.PrintsAs`).
- A raised error is an `Err`, a `None` or a refusal that leaves the state alone.
- Exposure fields hold JSON scalars. Payload objects have text keys.
- The field names of the canonical contracts are a parameter (`Canonical.Names`); the program's own lists are
  `CanonicalFields.FIELD_NAMES`.
- The calls with many dictionary writes (`normalize_canonical_decision`, `normalize_strategy_decision_context`) are
  modelled by the value each key ends up with.

## Model

| member | source | states |
|---|---|---|
| Rounding.HalfEven | src/operation/db_core.py:360-365 | the result is within half a quantum, and even on a tie |
| Rounding.HalfEvenUnique | src/operation/db_core.py:360-365 | those two facts admit one integer only |
| Rounding.HalfEvenInteger | src/operation/db_core.py:368-388 | requantising a quantised amount changes nothing |
| Rounding.QuantisedNear | src/operation/db_core.py:368-388 | a stored amount is within half a quantum of the raw one: 1e-8 for cash, 1e-12 for assets |
| Rounding.HalfEvenShift | src/operation/db_core.py:360-365 | whole quanta may be added before or after rounding exactly when the value is no tie or their number is even; otherwise the results are one quantum apart |
| Ledger.Tolerance | src/operation/db_core.py:406-412 | the tolerance is never below 1e-12 of a unit |
| Ledger.ScaleIs | src/operation/db_core.py:391-412 | the scale is the largest of the three amounts, and at least one unit |
| Ledger.CashTolerance | src/operation/db_core.py:391-412 | the cash tolerance is four units in the last place of a 53-bit number of that scale, but at least 1e-12 |
| Ledger.AssetTolerance | src/operation/db_core.py:391-412 | and so is the asset tolerance |
| Ledger.ConsumeLockedThenAvailable | src/operation/db_core.py:391-433 | the step-by-step consumption computes the closed form `Consume`, for all balances and amounts |
| Ledger.ConsumeLaw | src/operation/db_core.py:391-433 | for all balances and amounts: it fails exactly when available is overdrawn beyond the tolerance or locked leaves more than 1e-12 uncovered and the shortfall of the cleaned balances exceeds the tolerance; otherwise results are non-negative, available is touched only once locked is empty, and the cleaned total drops by the amount but for at most 1e-12 kept and at most the tolerance forgiven |
| Ledger.CleanLaw | src/operation/db_core.py:401-404 | a cleaned balance is not negative or at least a tolerance below zero, and was moved by less than the tolerance |
| Ledger.ConsumeNonNegative | src/operation/db_core.py:391-433 | from non-negative balances it fails exactly when the shortfall exceeds the tolerance, and the total drops by the amount but for a remainder of at most 1e-12 kept or a shortfall forgiven |
| Ledger.ShortfallDecidesIff | src/operation/db_core.py:391-433 | exactly when the shortfall alone decides about failure |
| Ledger.CoveredConsumptionFails | src/operation/db_core.py:391-433 | a covered amount that is refused: available is overdrawn while locked covers it |
| Ledger.OverdrawnBlocks | src/operation/db_core.py:436-490 | a balance overdrawn by more than the tolerance blocks every fill that draws on it, however much is locked |
| Ledger.ReplayFills | src/operation/db_core.py:493-536 | the replay loop, with its early failure, is the fold of the single fills |
| Ledger.ReplayComposes | src/operation/db_core.py:493-536 | replaying xs and then ys from the checkpoint is replaying xs + ys, errors included |
| Ledger.FillFailsIff | src/operation/db_core.py:436-490 | a fill fails exactly when the balances it draws on do not suffice or it has no side, and with which error |
| Ledger.ReplayOkIff | src/operation/db_core.py:493-536 | a replay succeeds exactly when every fill finds enough in what the fills before it leave |
| Ledger.FundedFillSucceeds | src/operation/db_core.py:436-490 | a funded fill succeeds, moves the totals by spend and quantity, and keeps at most one asset quantum on a SELL |
| Ledger.ReplayDrift | src/operation/db_core.py:436-536 | after any n funded fills cash is within n half-quanta of the exact sum of price times quantity, less on a BUY and more on a SELL, minus the fees, and assets exceed the exact sum by at most one quantum per SELL |
| Ledger.FillDrift | src/operation/db_core.py:436-490 | one funded fill moves cash by price times quantity less the fee, or costs price times quantity plus the fee, to within half a quantum, and assets by the quantity, with at most one quantum kept on a SELL |
| Ledger.NoLockFromConsuming | src/operation/db_core.py:436-490 | one fill leaves unlocked balances unlocked exactly when the amount it takes is not negative |
| Ledger.LockedZeroIff | src/operation/db_core.py:493-536 | locked balances stay zero through a replay exactly when no BUY has a negative spend and no SELL a negative quantity |
| Ledger.NegativeQtyLocks | src/operation/db_core.py:436-490 | a SELL of a negative quantity, which locks assets |
| Ledger.AdmittedConsumes | src/operation/execution.py:357-368 | no fill that the live call admits takes a negative amount |
| Ledger.UnlockedFill | src/operation/db_core.py:436-490 | from unlocked balances a funded fill has its own effect on cash and assets, with one more quantum of cash at most on a tie |
| Ledger.UnlockedReplay | src/operation/db_core.py:493-536 | so a funded replay adds up the effects, to within one quantum per tie SELL |
| Ledger.EffectsOrderFree | src/operation/db_core.py:493-536 | the effects of a list of fills do not depend on its order |
| Ledger.ReplayOrderFree | src/operation/db_core.py:493-536 | any two funded orders of the same admitted fills from unlocked balances end with equal assets, and cash within one quantum per tie SELL |
| Portfolio.PortfolioStore.constructor | src/operation/db_core.py:5332-5400 | the row starts with totals equal to its components and empty tables |
| Portfolio.PortfolioStore.SetPortfolioBreakdown | src/operation/db_core.py:5332-5400 | components are replaced, totals are their sums, the tables are untouched |
| Portfolio.PortfolioStore.RecordExternalCashAdjustment | src/operation/db_core.py:6103-6233 | the call does what `RecordAdjustment` says: refusals and known keys change nothing, a new key adds its quantised delta to available cash and one row to the table |
| Portfolio.PortfolioStore.ApplyFillAndTrade | src/operation/execution.py:357-512 | an invalid quantity, price, fee or side, or a fill that is not covered, changes nothing; otherwise the fill is appended and its clamped result stored |
| Portfolio.StepKeepsSound | src/operation/db_core.py:6139-6233 | every fill or adjustment call keeps keys distinct and cash at least minus one quantum, and only appends to the tables |
| Portfolio.RunKeepsSound | src/operation/db_core.py:6139-6233 | so does every run |
| Portfolio.RunKeepsDistinct | src/operation/db_core.py:6139-6233 | no run records a key twice, whatever the cash |
| Portfolio.RepeatChangesNothing | src/operation/db_core.py:6139-6233 | a recorded key, asked for again after any later events, changes nothing |
| Portfolio.CashStepConserves | src/operation/db_core.py:6139-6233 | an adjustment call moves available cash by exactly the delta it records |
| Portfolio.CashRunConserves | src/operation/db_core.py:6139-6233 | over every run of adjustment calls the change in cash is the sum of the recorded deltas and nothing else moves |
| Portfolio.RoundedSellsAgree | src/operation/db_core.py:464-482 | adding the same proceeds to two balances before rounding widens their distance by at most one quantum, and only on a tie |
| Portfolio.FillKeepsAgreement | src/operation/db_core.py:436-490 | a funded fill keeps the live and replayed balances in agreement, with one more quantum of slack for a tie SELL |
| Portfolio.LiveAgreesWithReplay | src/operation/db_core.py:436-536 | for every interleaving of funded fills and adjustments, step-by-step and fills-first order hold equal assets and locked cash, and cash differs by at most one quantum per tie SELL |
| Portfolio.RunAdmitsAndUnlocks | src/operation/execution.py:357-512 | every run from an unlocked start writes admitted fills only and locks nothing |
| Portfolio.StepInEffect | src/operation/execution.py:450-512 | a funded call keeps the stored row equal to the start plus the effects of the fills plus the deltas, up to one quantum per tie SELL |
| Portfolio.RunInEffect | src/operation/execution.py:450-512 | so does every funded run from an unlocked start |
| Portfolio.SellCommutesIff | src/operation/db_core.py:464-490 | a SELL and an adjustment commute exactly when the proceeds are no tie or the delta is even |
| Portfolio.TieExists | src/operation/db_core.py:464-482 | a fill whose proceeds are a tie |
| Portfolio.AdjustmentCanBlockFills | src/operation/db_core.py:6189-6195 | an accepted adjustment that overdraws available cash, after which a BUY that the total covers is refused |
| Portfolio.RefusedIff | src/operation/db_core.py:6103-6195 | an adjustment is refused exactly for another currency, a blank source, reason or basis, or a new key that would leave cash below minus one quantum |
| AccountingReplay.ScanFills | src/operation/db_core.py:5901-5926 | duplicates are fill rows minus distinct fill keys; the fee total is the sum of the fees |
| AccountingReplay.FoldFamily | src/operation/db_core.py:5927-6002 | an adjustment loop adds the quantised cash and asset deltas of the first row of every key, counts it once, and keeps totals equal to available plus locked |
| AccountingReplay.ComputeAccountingReplay | src/operation/db_core.py:5876-6002 | the report shows the replayed fills plus the first row of every key of the three families, with consistent totals and counts, and fails exactly when the replay does; what the rows add is `ReportSums` and `RowRaisesReport` |
| AccountingReplay.FamilyAddsFirstRows | src/operation/db_core.py:5927-6002 | a family contributes the plain sums of the quantised cash and asset deltas of the first row of every key |
| AccountingReplay.ReportSums | src/operation/db_core.py:5901-6002 | the report is the replay of the fills plus those sums over the three families |
| AccountingReplay.RowRaisesReport | src/operation/db_core.py:5927-6002 | appending a row with a new key to any of the three families raises cash and quantity by its quantised deltas; a known key changes neither |
| AccountingReplay.EmptyReport | src/operation/db_core.py:5901-6002 | without rows the report is the opening cash |
| AccountingReplay.SameFillIff | src/operation/db_core.py:5901-5926 | two fill rows are duplicates exactly when order, time, price and quantity are equal |
| AccountingReplay.ReportUnlockedIff | src/operation/db_core.py:5901-6002 | balances are unlocked on the way to the report and in it exactly when no fill takes a negative amount |
| AccountingReplay.StoredRunUnlocked | src/operation/db_core.py:5901-6002 | for every run from an opening portfolio neither the stored row nor the report over its fills, in any order, locks anything |
| AccountingReplay.StoredRowsContribute | src/operation/db_core.py:5927-5952 | stored adjustments with distinct keys contribute the sum of their deltas |
| AccountingReplay.ExpectedFromStored | src/operation/db_core.py:5927-5952 | the report over a stored run is the replay credited with that sum |
| AccountingReplay.StoredPortfolioMatchesReport | src/operation/db_core.py:5901-6002 | for every funded run, and every funded order in which the report replays the fills it wrote, the report shows the stored assets exactly and the stored cash to within one quantum per tie SELL |
| AccountingReplay.ReportExistsIff | src/operation/db_core.py:5901-5952 | there is a report exactly when every fill, in replay order, finds enough without any adjustment |
| AccountingReplay.DepositFundedBuyHasNoReport | src/operation/db_core.py:5901-5952 | a deposit and a BUY that it pays for are stored, and there is no report |
| Rebuild.RunOrderly | src/operation/execution.py:841-926 | every run of fills, adjustments, fee finalisations and rebuilds keeps fills admitted, keys distinct and the row unlocked |
| Rebuild.RebuiltInEffect | src/operation/execution.py:918-926 | a funded rebuild leaves the row equal to the opening plus the effects of the rewritten fills plus the deltas |
| Rebuild.RunInEffectToo | src/operation/execution.py:841-926 | so does every funded run with finalisations and rebuilds |
| Rebuild.LedgerMatchesReport | src/operation/execution.py:841-926 | for every such run, and every funded replay order of the fills it leaves, the report shows the stored assets exactly and the stored cash to within one quantum per tie SELL |
| Rebuild.RebuiltIsReport | src/operation/execution.py:918-926 | right after a rebuild the row is the report, and rebuilding again changes nothing |
| Rebuild.FeeFinalised | src/operation/execution.py:841-926 | finalising is refused for a negative fee, a missing fill and without a report; otherwise that fee alone is rewritten and the row becomes the report over the rewritten fills |
| LotTable.OpenPositionLots.constructor | src/operation/db_core.py:3315-3349 | the table starts empty |
| LotTable.OpenPositionLots.Insert | src/operation/db_core.py:1480-1549 | a row is stored exactly when the trigger accepts it |
| LotTable.OpenPositionLots.Update | src/operation/db_core.py:1480-1549 | a row is replaced exactly when the trigger accepts the new one |
| LotTable.CheckIff | src/operation/db_core.py:1480-1549 | a row is rejected for the first of five clauses that it breaks, each stated over the row, and accepted exactly when it breaks none |
| LotTable.BackfillChanges | src/operation/db_core.py:3397-3432 | the backfill turns a blank basis into lot-native, sets a missing count of the row's own state to one, and changes nothing else |
| LotTable.OpenPositionLots.Backfill | src/operation/db_core.py:3397-3432 | it succeeds exactly when every row is relabellable; then the table is relabelled and filled, else unchanged |
| LotTable.RelabelAcceptedIff | src/operation/db_core.py:3397-3403 | the trigger lets a stored row become lot-native exactly when it already satisfies the lot-native clauses |
| LotTable.FillAccepted | src/operation/db_core.py:3413-3432 | filling counts is never rejected, leaves lot-native rows alone and is idempotent |
| LotTable.BackfillLaw | src/operation/db_core.py:3397-3432 | the filled table is accepted, changed only in rows that were not lot-native, and a second backfill changes nothing |
| LotTable.BackfillCanFail | src/operation/db_core.py:3397-3403 | an accepted blank-basis row whose relabelling is rejected |
| LotTable.ReachableAccepted | src/operation/db_core.py:1480-1549 | every table reached by guarded inserts, updates and backfills holds accepted rows only |
| LotTable.RowMatchesIff | src/operation/db_core.py:1480-1525 | an accepted lot-native row with a lot size, open or dust, exceeds all its lots times the size by at most 1e-12, and falls short of its executable lots times the size by at most 1e-12 exactly when its quantity is at least minus 1e-12 |
| LotTable.SumsMatch | src/operation/db_core.py:1480-1525 | summed over all lot-native rows with a lot size, the quantity is at most the authority of all lots plus 1e-12 a row, and at least that of the executable lots minus 1e-12 a row when no quantity is below minus 1e-12; the two are equal without dust |
| LotTable.ReachableTableLaw | src/operation/db_core.py:1480-1549 | every reachable table has non-negative counts and these bounds |
| LotTable.NegativeQtyAdmitted | src/operation/db_core.py:1480-1549 | any negative quantity is admitted with zero counts |
| LotTable.DustBelowAuthority | src/operation/db_core.py:1515-1523 | a dust row may hold any positive part of its dust lots |
| Incidents.FirstFill | src/operation/db_core.py:5562-5601 | the accounted fill found is one that matches, and none is found only if none matches |
| Grouping.JudgedLast | src/operation/db_core.py:5701-5760 | every identity is judged on the last observation that has it |
| Grouping.KeyIffGroup | src/operation/db_core.py:5620-5632 | the identities listed are those of some observation |
| Grouping.KeysDistinct | src/operation/db_core.py:5620-5632 | each identity is listed once |
| Grouping.GroupRows | src/operation/db_core.py:5701-5760 | one pass yields the identities in first-seen order and the observations of each in order |
| Grouping.BuildVerdicts | src/operation/db_core.py:5701-5836 | the loop over the groups builds one verdict for each, on its latest observation |
| Grouping.VerdictsPartition | src/operation/db_core.py:5701-5836 | under any judgement every row belongs to exactly one verdict and the verdicts count every row once |
| Incidents.BuildProjection | src/operation/db_core.py:5701-5836 | one verdict per identity, judged on its latest observation |
| Incidents.ProjectionPartitions | src/operation/db_core.py:5701-5836 | every observation belongs to exactly one verdict and the counts add up to the observations |
| Incidents.ActiveSplits | src/operation/db_core.py:5839-5873 | after every run active issues are unapplied principals plus blocked validations |
| Incidents.JudgedActiveIff | src/operation/db_core.py:5756-5789 | a finding is active exactly in the states of an unapplied principal and a blocked validation |
| IncidentMeaning.MatchingFillAt | src/operation/db_core.py:5562-5601 | the fill of an observation is the first with its order and id, or without one the first of its order in the same terms |
| IncidentMeaning.StateIff | src/operation/db_core.py:5756-5789 | each of the six states, exactly, over the observation, its fill and its repairs |
| IncidentMeaning.ActiveIff | src/operation/db_core.py:5756-5789 | a finding is active exactly when the observation waits for its fee without a repair and without any fill, or its fill failed validation and it is not a pending one that was repaired |
| IncidentMeaning.SameIncidentIff | src/operation/db_core.py:5620-5632 | observations are of one incident exactly with the same order and fill id, or without ids in the same terms |
| IncidentMeaning.ReportedActiveIff | src/operation/db_core.py:5701-5836 | an incident is reported active exactly when its latest observation is such an active issue |
| IncidentMeaning.FillChangesIff | src/operation/execution.py:841-926 | a recorded fill changes exactly when its fee is finalised: it was not final and the fee is not negative |
| IncidentMeaning.TablesGrowIff | src/operation/execution.py:120-150 | a fill is added exactly when none of the order has its id or terms, a repair exactly with a fee of zero or more and a new key, and nothing is removed |
| Incidents.StepKeepsFinalized | src/operation/db_core.py:2735-2741 | no event unfinalises a finalised fill |
| Incidents.FinalizedIsInactive | src/operation/db_core.py:5541-5601 | an identity with a finalised fill is not active |
| Incidents.RunKeepsFinalized | src/operation/db_core.py:2735-2741 | a finalised fill stays finalised over every run |
| Incidents.FinalizedNeverActive | src/operation/db_core.py:5541-5638 | so over every run it is never active again |
| Incidents.RepairCalms | src/operation/db_core.py:5641-5698 | a recorded repair makes no verdict active |
| Incidents.RepairNeverRaisesActive | src/operation/db_core.py:5641-5873 | recording a repair never raises the active count |
| Incidents.FinalizeCalms | src/operation/execution.py:841-926 | finalising a fee makes no verdict active |
| Incidents.FinalizeNeverRaisesActive | src/operation/execution.py:841-926 | finalising a fee never raises the active count |
| FeeRepair.ReadEvidence | src/operation/db_core.py:6706-6760 | one pass gives the fee sum, the pending fills, the earliest paid fee and the two completeness flags |
| FeeRepair.FeeReconciles | src/operation/db_core.py:6755-6800 | observed plus proposed fees are within one quantum of the paid fee, and equal to it exactly when that is no tie or the observed fees are even |
| FeeRepair.MismatchNeverFires | src/operation/db_core.py:6755-6872 | for every observation history the 0.01 mismatch check does not fire |
| FeeRepair.PrintsOnce | src/operation/db_core.py:6755-6872 | every fee prints with two decimals, in one way unless it ends on half a cent |
| FeeRepair.PrintedFeePositive | src/operation/db_core.py:6755-6872 | a positive fee prints as 0.00 below half a cent and not above |
| FeeRepair.SafeProposalComplete | src/operation/db_core.py:6755-6872 | a safe proposal names one fill and a positive fee |
| FeeRepair.SafeIff | src/operation/db_core.py:6780-6860 | a proposal is safe exactly when one fill is pending with a complete fill set and a positive fee within the rate, and nothing duplicates or blocks it |
| FeeRepair.SafeNeeds | src/operation/db_core.py:6706-6872 | a safe proposal needs exactly one waiting observation and a paid fee |
| FeeRepair.ProposalIs | src/operation/db_core.py:6706-6780 | the fee proposed is the earliest paid fee less the observed ones, rounded, for the waiting fill |
| FeeRepair.SafeMeans | src/operation/db_core.py:6780-6872 | it is safe exactly when the fill set is complete, the fee positive and within a cent or a quarter of the fee at the rate, no repair within a cent is recorded, and no order is unresolved |
| FeeRepair.ExpectedFeeNear | src/operation/db_core.py:6809-6812 | the fee at the rate is price times quantity times rate, to half a quantum |
| FeeRepair.RecordedProposalNotSafeAgain | src/operation/db_core.py:7304-7371 | once a proposal is recorded, exactly or with two decimals, the next one over the same observations is not safe |
| FeeRepair.ResidueOfCents | src/operation/db_core.py:6755-6780 | after whole cents are recorded and observed, what they leave of the proposed fee is proposed next |
| FeeRepair.ResidueOfExact | src/operation/db_core.py:6755-6780 | after the exact fee nothing is left, unless the observed fees are a tie and the fee is odd, which leaves one quantum too much or too little |
| FeeRepair.NextProposalSafeIff | src/operation/fee_pending_repair.py:276-357 | after the command the next proposal is the residue, and it is safe exactly when positive, within the rate, a cent away from every recorded repair and no order is unresolved |
| FeeRepair.ExactRepairNotSafeAgain | src/operation/fee_pending_repair.py:276-357 | after the exact fee was recorded it is not safe, but for that tie |
| FeeRepair.CentsCanBeSafeAgain | src/operation/fee_pending_repair.py:276-357 | 0.0245 recorded as 0.02, after which 0.0045 is proposed as safe |
| FeeRepair.ExactCanBeSafeAgain | src/operation/fee_pending_repair.py:276-357 | an exactly recorded fee that leaves one safe quantum |
| RepairCommand.SettledIsFinal | src/operation/fee_pending_repair.py:291-322 | the matching fill is finalised, or a final one added that then matches |
| RepairCommand.Applied | src/operation/fee_pending_repair.py:221-357 | what an applied command leaves: the fill final unless an aggregate was counted already, and one completed observation at the end |
| IncidentMeaning.RepairRecorded | src/operation/fee_pending_repair.py:276-290 | the command records the repair under its key with the order, id, terms and fee, unless the key is already recorded |
| IncidentMeaning.ObservationAppended | src/operation/fee_pending_repair.py:330-357 | it appends one completed observation in the same terms |
| IncidentMeaning.FillFinalised | src/operation/fee_pending_repair.py:291-309 | it makes the fill of the observation final with the fee, and changes no other row |
| IncidentMeaning.FillAdded | src/operation/fee_pending_repair.py:310-322 | without a fill it adds a final one, unless an aggregate was counted already |
| IncidentMeaning.TargetIs | src/operation/fee_pending_repair.py:28-56 | it repairs the last pending observation of the order, and of the fill id when one is given |
| IncidentMeaning.RefusedIff | src/operation/fee_pending_repair.py:95-158 | with a pending observation, it is refused exactly without an order or clearance, for a negative fee, for several observations and no fill id, for a price or quantity that is not positive, for a fill whose fee is final, and without a fee that the size demands |
| IncidentMeaning.NothingAskedRefused | src/operation/fee_pending_repair.py:95-102 | without a pending observation it is refused |
| RepairCommand.CommandSettles | src/operation/fee_pending_repair.py:221-357 | after every applied command, whatever the fee, the incident is inactive |
| RepairCommand.CommandNeverRaisesActive | src/operation/fee_pending_repair.py:221-357 | the command never raises the active count |
| Grouping.CalmRow | src/operation/db_core.py:5701-5836 | an observation that is not judged active adds no active verdict |
| RepairCommand.SettledForGoodIff | src/operation/fee_pending_repair.py:221-357 | for a fill with a fill id the incident stays inactive over every later run exactly when some fill carried the id before the call, or none matched and the fill is added |
| RepairCommand.ReactivatedBy | src/operation/db_core.py:5541-5601 | while no fill carries the id, a later blocked fill with that id makes the incident active again |
| RepairCommand.ReopenableRequest | src/operation/fee_pending_repair.py:221-357 | an applied command of that kind: the fill was booked without its id |
| RepairCommand.SettledForGoodByTerms | src/operation/fee_pending_repair.py:221-357 | for a fill without a fill id the incident stays inactive over every later run |
| RepairCommand.CommandAppliesOnce | src/operation/fee_pending_repair.py:121-137 | the same call again is refused |
| RepairCommand.RowCountsIff | src/operation/db_core.py:5641-5698 | a repair row by itself counts exactly when its fee is not zero |
| ExposureProofs.SellAuthorityKept | src/operation/decision_context.py:361-528 | the sell authority resolved from the stored context is the one that was stored; what it is, is `ExposureMeaning.AuthorityResolved` |
| ExposureProofs.EntryBlockReasonKept | src/operation/decision_context.py:615-1013 | so is the entry block reason |
| ExposureProofs.ExposureKept | src/operation/decision_context.py:615-1013 | so are exposure quantity and activity, now read from the stored field |
| ExposureProofs.RecoveryKept | src/operation/decision_context.py:615-1013 | so are the recovery fields |
| ExposureProofs.StoredSnapshotKept | src/operation/decision_context.py:1208-1385 | resolving a stored context gives the original snapshot in all 36 fields, whatever sources are present; what the fields are, is `ExposureMeaning.SnapshotMeans` |
| ExposureMeaning.SnapshotMeans | src/operation/decision_context.py:306-1013 | for every context, what each of the 36 fields is: the value of the first layer that says anything about it, in the order of that field, or the derived default |
| ExposureMeaning.AuthorityResolved | src/operation/decision_context.py:361-528 | open, reserved and sellable lot counts are the whole numbers stored under their own names in the normalised exposure, and the quantities are the stored ones exactly when the basis is lot-native and lots are open; without a normalised exposure all are zero |
| ExposureMeaning.QuantitiesResolved | src/operation/decision_context.py:615-1013 | the raw and dust quantities |
| ExposureMeaning.FlagsResolved | src/operation/decision_context.py:615-1013 | the position flags and their defaults |
| ExposureMeaning.EntryResolved | src/operation/decision_context.py:615-1013 | when entry is allowed and the position effectively flat |
| ExposureMeaning.EntryReasonResolved | src/operation/decision_context.py:615-1013 | the entry block reason |
| ExposureMeaning.ExitResolved | src/operation/decision_context.py:361-528 | when exit is allowed, and why not |
| ExposureMeaning.RecoveryResolved | src/operation/decision_context.py:615-1013 | the recovery counts, flag and reason |
| ExposureMeaning.ExposureResolved | src/operation/decision_context.py:615-1013 | the normalised exposure and whether it is active |
| ExposureMeaning.HoldingResolved | src/operation/decision_context.py:615-1013 | the holding state |
| ExposureMeaning.WrittenIsStored | src/operation/decision_context.py:1208-1385 | what is stored in the payload and in the normalised exposure, field by field; gate and state stay |
| ExposureMeaning.CopiesAgree | src/operation/decision_context.py:1208-1385 | what is stored in both is stored alike |
| ExposureMeaning.NoSnapshotIff | src/operation/decision_context.py:329-359 | when no snapshot can be resolved |
| ExposureProofs.SnapshotFixedForever | src/operation/decision_context.py:1085-1123 | and so does storing and resolving any number of times |
| ExposureProofs.NoAuthorityWithoutExposure | src/operation/decision_context.py:426-528 | without a normalised exposure all sellable and open figures are zero and exit is not allowed, however often the context is stored and reloaded |
| Residue.StripCleans | src/operation/decision_context.py:129-162 | no residue is left outside the evidence of a risk decision |
| Residue.CleanUnchanged | src/operation/decision_context.py:129-162 | a clean tree is left alone |
| Residue.StripIdempotent | src/operation/decision_context.py:129-162 | stripping twice is stripping once, and a tree is unchanged exactly when clean |
| Residue.RiskDecisionKept | src/operation/decision_context.py:129-162 | stripping neither makes nor unmakes a risk decision |
| Residue.StripKeepsPaths | src/operation/decision_context.py:129-162 | exactly the paths without dropped keys survive, and inside risk evidence the value is verbatim |
| Residue.DroppedIff | src/operation/decision_context.py:26-34 | a key is dropped exactly when it ends in `_source` or `_compatibility_residue` and is none of the five state sources that are kept |
| Residue.FieldKeptIff | src/operation/decision_context.py:129-162 | a field is kept exactly in a risk decision or under a name that is not dropped, and what it becomes |
| BlockReasons.BuildBlockReasons | src/operation/decision_contract.py:48-104 | the reasons are the offers in order, trimmed, without repeats or empty ones, and the primary is `Primary` |
| BlockMeaning.ReasonsIff | src/operation/decision_contract.py:29-104 | a layer and reason are among the reasons exactly when that gate blocks: for each of the filters, the regimes, the position gate, the economics and the extra offers, over the context |
| BlockMeaning.ReasonsInOrder | src/operation/decision_contract.py:48-104 | the reasons come in the order in which the context first names them |
| BlockMeaning.RankIs | src/operation/decision_contract.py:8-18 | the eight layers in order of priority, every other layer last |
| BlockReasons.SelectPrimaryBlock | src/operation/decision_contract.py:38-45 | the loop returns `Primary` |
| BlockReasons.FirstMin | src/operation/decision_contract.py:38-45 | the first position of minimal rank |
| BlockReasons.PrimaryUnique | src/operation/decision_contract.py:38-45 | the first reason of minimal layer priority is the primary |
| BlockReasons.PlainLayerSplits | src/operation/decision_attribution.py:161-168 | a reason under a plain layer parses back to itself |
| BlockReasons.SplitLayerIsPlain | src/operation/decision_attribution.py:161-168 | every layer that parsing yields is plain |
| BlockReasons.SplitRoundTripIff | src/operation/decision_attribution.py:161-168 | writing and parsing round-trips exactly when the layer is plain |
| BlockMeaning.SplitIff | src/operation/decision_attribution.py:161-168 | a text is read as a reason exactly when its first dot, after trimming, parts two texts that are not blank |
| BlockReasons.NormalizeAllBlockReasons | src/operation/decision_attribution.py:187-199 | the normalised reasons, each once, in order of first appearance |
| Picking.CollectFirsts | src/operation/decision_attribution.py:187-199 | the loop with its seen set keeps the first occurrence of everything it reads |
| BlockReasons.CollectIsCollected | src/operation/decision_contract.py:29-35 | collected reasons are trimmed, not empty and distinct |
| BlockReasons.CollectedReadable | src/operation/decision_attribution.py:161-168 | so each of them parses back |
| BlockReasons.ListParses | src/operation/decision_attribution.py:187-212 | the written list parses back to the reasons in order |
| BlockReasons.ListNormalizes | src/operation/decision_attribution.py:187-199 | the written list normalises to itself |
| BlockReasons.RepeatAddsNothing | src/operation/decision_attribution.py:284-351 | reading a normalised list twice adds nothing |
| BlockReasons.AttributeWritten | src/operation/decision_attribution.py:284-351 | when the attribution of a written context is faithful to it |
| BlockReasons.AttributionFaithfulIff | src/operation/decision_contract.py:107-126 | for every context under plain layers the reasons come back in order, and the primary without conflict exactly when the stated sentinel case does not arise |
| BlockMeaning.AttributedExplicit | src/operation/decision_attribution.py:284-351 | any context that names a layer and a reason is attributed to the first it names, and is in conflict exactly when its list has another primary |
| BlockMeaning.AttributedDerived | src/operation/decision_attribution.py:284-351 | any other context is attributed to the primary of its own and nested reasons, read as one list |
| Picking.FirstsTogether | src/operation/decision_attribution.py:284-290 | two lists, each normalised first, normalise together like the two as they were |
| BlockReasons.SentinelReasonConflicts | src/operation/decision_attribution.py:284-351 | a single block whose reason is a sentinel word is lost when the context says something else about the entry |
| BlockReasons.SentinelReasonIsLost | src/operation/decision_attribution.py:284-351 | a context of that kind |
| BlockReasons.RiskIsLost | src/operation/decision_attribution.py:284-351 | the same with an entry said to be blocked by `x` |
| BlockReasons.OwnLayersPlain | src/operation/decision_contract.py:8-18 | the layers of the contract itself are plain |
| Accumulator.DecisionAttributionAccumulator.constructor | src/operation/decision_attribution.py:550-573 | every counter and list starts empty |
| Accumulator.DecisionAttributionAccumulator.AddSignals | src/operation/decision_attribution.py:575-614 | sample, signal and filter counters after one row; the others unchanged |
| Accumulator.DecisionAttributionAccumulator.AddSubmission | src/operation/decision_attribution.py:575-614 | submission counters after one row; the others unchanged |
| Accumulator.DecisionAttributionAccumulator.AddEdges | src/operation/decision_attribution.py:575-614 | edge lists and counters after one row; the others unchanged |
| Accumulator.DecisionAttributionAccumulator.Add | src/operation/decision_attribution.py:575-614 | the whole tally after one row |
| Accumulator.Stream | src/operation/decision_attribution.py:616-634 | feeding the rows one by one gives the batch statistics |
| Accumulator.TallyLists | src/operation/decision_attribution.py:575-634 | the streamed lists and counters are those of the row list |
| Accumulator.StreamingIsBatch | src/operation/decision_attribution.py:532-547 | streaming and batch edge statistics are equal on every row list |
| Picking.PickedPermutation | src/operation/decision_attribution.py:532-547 | permuted rows yield permuted figures |
| Accumulator.SortSorts | src/operation/decision_attribution.py:524-529 | the percentile works on an ascending list |
| Accumulator.SortKeepsItems | src/operation/decision_attribution.py:524-529 | of the same figures |
| Accumulator.SortKeepsSum | src/operation/decision_attribution.py:532-547 | with the same sum |
| Accumulator.SortedUnique | src/operation/decision_attribution.py:524-529 | there is one ascending list of given figures |
| Accumulator.ListStatsOrderFree | src/operation/decision_attribution.py:524-547 | average, median and percentile do not depend on order |
| AccumulatorMeaning.SortedHasRank | src/operation/decision_attribution.py:524-529 | the figure at place k of the sorted list has at most k figures below it and more than k at or below it |
| AccumulatorMeaning.RankUnique | src/operation/decision_attribution.py:524-529 | only one figure has that rank |
| AccumulatorMeaning.MedianIff | src/operation/decision_attribution.py:532-547 | the median is halfway between the figures of the two middle ranks |
| AccumulatorMeaning.MedianHalves | src/operation/decision_attribution.py:532-547 | at least half of the figures lie at or below the median, at most half below it |
| AccumulatorMeaning.P90Iff | src/operation/decision_attribution.py:524-529 | the percentile is the figure with rank nine tenths of the last, rounded down |
| AccumulatorMeaning.AverageIff | src/operation/decision_attribution.py:532-547 | the average times the number of figures is their sum |
| AccumulatorMeaning.StatsMean | src/operation/decision_attribution.py:616-634 | after every list of rows the streamed statistics are those of the gaps and the required edges |
| Accumulator.StatsOrderFree | src/operation/decision_attribution.py:532-547 | the edge statistics do not depend on row order |
| Accumulator.CountsBounded | src/operation/decision_attribution.py:575-614 | signal counts sum to the samples; expected plus mismatched submissions never exceed the final signals of a side; filter and edge counts are bounded |
| AccumulatorMeaning.SignalsCounted | src/operation/decision_attribution.py:575-614 | each signal and filter counter is the number of rows with that signal or filter |
| AccumulatorMeaning.SubmissionsCounted | src/operation/decision_attribution.py:575-614 | each submission counter is the number of rows of that side and expectation |
| AccumulatorMeaning.EdgesCounted | src/operation/decision_attribution.py:575-614 | each figure is listed as often as rows carry it |
| AccumulatorMeaning.ShareIff | src/operation/decision_attribution.py:532-547 | the share of gaps below the required edge, over the rows that have both |
| AccumulatorMeaning.FilterRatioIs | src/operation/decision_attribution.py:520-522 | a filter ratio is the share of the rows that it blocked |
| Accumulator.RatiosInRange | src/operation/decision_attribution.py:520-547 | every filter ratio, zero without samples, and every reported edge ratio lies between 0 and 1 |
| Equivalence.DriftCounts | src/operation/decision_equivalence.py:1565-1587 | the counting gives actual drift and lifecycle mismatches |
| Equivalence.DriftConserved | src/operation/decision_equivalence.py:1565-1587 | actual drift plus lifecycle mismatches is missing decisions plus mismatching pairs |
| Equivalence.AddDecisions | src/operation/decision_equivalence.py:1295-1389 | the loop adds every decision of one side to the entry of its class |
| Equivalence.StateCoverageMatrix | src/operation/decision_equivalence.py:1295-1389 | the matrix of both sides |
| Equivalence.CoverageConserved | src/operation/decision_equivalence.py:1295-1389 | research and runtime counts sum to the lengths of the input lists |
| Equivalence.ByKeyKeys | src/operation/decision_equivalence.py:230-231 | the keys of a map by key are those of the list |
| Equivalence.ByKeyLast | src/operation/decision_equivalence.py:230-231 | under a key is the decision at the last place of the list that has it |
| Equivalence.AgreeByKeyIff | src/operation/decision_equivalence.py:230-285 | the maps agree exactly when the last decisions of every common key in the two lists do |
| Equivalence.FieldCodesEmptyIff | src/operation/decision_equivalence.py:232-246 | a pair has no field code exactly when all comparison fields agree |
| Equivalence.MismatchesEmptyIff | src/operation/decision_equivalence.py:232-285 | no mismatch exactly when all common keys agree, on position authority too where it is compared |
| Equivalence.ValidationEmptyIff | src/operation/decision_equivalence.py:830-874 | no validation code exactly when all decisions are canonical and valid |
| Equivalence.BindingEmptyIff | src/operation/decision_equivalence.py:876-920 | no binding code, and no binding item, exactly when every normalised decision has the profile hash, market, interval and data of the request |
| Equivalence.FailClosedTotalZeroIff | src/operation/decision_equivalence.py:1295-1389 | no fail-closed count exactly when every class seen is supported |
| Equivalence.CleanIff | src/operation/decision_equivalence.py:197-352 | no items and no codes exactly when decisions are of one family, valid, bound and aligned |
| Equivalence.OutcomePassIff | src/operation/decision_equivalence.py:1590-1619 | which counts make the outcome positive |
| Equivalence.PassIffEquivalent | src/operation/decision_equivalence.py:197-352 | the outcome is positive exactly when the two lists are equivalent: one canonical family, valid, bound to the profile, market, interval and data of the request, equal keys, last decisions agreeing on all fields and on position authority, all seen classes modelled |
| EquivalenceMeaning.PassIff | src/operation/decision_equivalence.py:197-352 | the same over the decisions: versions, validation, profile hash, market, interval and data, keys, last decisions field by field, position authority, and a supported decision for every class that occurs |
| EquivalenceMeaning.UnboundFails | src/operation/decision_equivalence.py:876-920 | a canonical decision bound to another profile, market, interval or data forces the binding failure |
| EquivalenceMeaning.OutcomeIs | src/operation/decision_equivalence.py:1590-1619 | each of the five outcomes, as the first failure that applies |
| EquivalenceMeaning.DriftIff | src/operation/decision_equivalence.py:1565-1587 | there is drift exactly when a decision has no partner or some pair differs in more than the dust of a position |
| EquivalenceMeaning.CoverageOf | src/operation/decision_equivalence.py:1295-1389 | a class is seen, supported or objected to exactly when some decision of it is |
| EquivalenceMeaning.FamilyIs | src/operation/decision_equivalence.py:197-229 | which decision lists are of which contract family |
| Promotion.PassClaimsNothingUnsupported | src/operation/decision_equivalence.py:1411-1457 | on a positive outcome the claims list no unsupported class |
| EquivalenceMeaning.ClaimsAre | src/operation/decision_equivalence.py:1411-1457 | a class is claimed exactly when a decision of it occurs and it is flat, or has a supported decision and none objected to; it is listed as unsupported exactly when it occurs otherwise |
| Promotion.EmptyListsPassButFailGate | src/operation/decision_equivalence.py:536-592 | two empty lists pass the comparison, and the gate refuses them |
| Promotion.WrapperLaw | src/operation/decision_equivalence.py:461-513 | the export wrapper keeps the report when artifact binding is clean, and otherwise forces the binding failure, which the gate refuses |
| Promotion.GateClearMeans | src/operation/decision_equivalence.py:536-627 | what a report without gate reasons has |
| Promotion.BothSidesCompared | src/operation/decision_equivalence.py:1295-1389 | equal keys and a class that was seen need decisions on both sides |
| Promotion.GateSound | src/operation/decision_equivalence.py:431-592 | every export report that clears the gate compared at least one decision on each side, and those are equivalent under the second contract version |
| Promotion.GateClearIff | src/operation/decision_equivalence.py:536-592 | the conditions under which a report has no gate reason |
| Promotion.GateIff | src/operation/decision_equivalence.py:431-592 | an export report clears the gate exactly when there are decisions, they are equivalent under the second contract version, the artifacts are real and bound exports, and coverage and claimed lifecycle evidence are complete; over the texts it is `EquivalenceMeaning.GateMeans` |
| EquivalenceMeaning.GateMeans | src/operation/decision_equivalence.py:431-592 | the same over artifacts and decisions: profile, market, interval, plugin hash, source and data of both artifacts, and every decision covered |
| EquivalenceMeaning.ArtifactCodesIff | src/operation/decision_equivalence.py:922-1010 | there is no artifact code exactly when both artifacts are bound to the request and to each other |
| Promotion.FlatExportClears | src/operation/decision_equivalence.py:431-592 | one flat, valid, bound and covered decision on both sides clears it |
| Promotion.RealExports | src/operation/decision_equivalence.py:933-1010 | artifacts that are real and bound exports |
| Canonical.StableFixedIff | src/operation/canonical_decision.py:1766-1775 | the stable form is stable, and a value is its own stable form exactly when it holds no tuple |
| Canonical.SignalsKeptIff | src/operation/canonical_decision.py:402-404 | a second pass keeps side and final signal exactly when not just one of them is blank |
| Canonical.HashEntryPlain | src/operation/canonical_decision.py:424-454 | both hashes come out neither empty nor padded; what they are hashes of is `CanonicalMeaning.FeatureHashIs` and `BehaviorHashIs` |
| Canonical.KeysKeptIff | src/operation/canonical_decision.py:424-466 | a second pass keeps the keys exactly when the first marked no hash as missing |
| Canonical.EntryKept | src/operation/canonical_decision.py:377-467 | every field other than the two signals survives a second pass |
| Canonical.SecondPassKeepsIff | src/operation/canonical_decision.py:377-467 | for both contract versions a second pass changes no field exactly when the version is not zero, not just one signal is blank and no hash was marked missing; what the first pass makes of each field is `CanonicalMeaning` |
| CanonicalMeaning.FieldsIff | src/operation/canonical_decision.py:377-467 | which fields the outcome has, for both contract versions |
| CanonicalMeaning.NormalizedIff | src/operation/canonical_decision.py:377-467 | when the pass raises no error |
| CanonicalMeaning.VersionIs | src/operation/canonical_decision.py:382-387 | the version that is read, and its default |
| CanonicalMeaning.KindIs | src/operation/canonical_decision.py:1682-1729 | what a field of each kind becomes |
| CanonicalMeaning.SignalsAre | src/operation/canonical_decision.py:402-404 | side, raw and final signal are the trimmed upper case of the first text given |
| CanonicalMeaning.TextsAre | src/operation/canonical_decision.py:377-467 | strategy name, versions and the blocked flag |
| CanonicalMeaning.ContractIs | src/operation/canonical_decision.py:377-467 | the strategy decision contract version |
| CanonicalMeaning.FiltersAre | src/operation/canonical_decision.py:377-467 | the block filters become the tuple of what the value holds |
| CanonicalMeaning.StableIs | src/operation/canonical_decision.py:1766-1775 | the stable form keeps keys, places and everything that is not a tuple |
| CanonicalMeaning.PayloadsAre | src/operation/canonical_decision.py:1643-1680 | the feature snapshot and the strategy payload, from the first object given or the legacy figures |
| CanonicalMeaning.DiagnosticsAre | src/operation/canonical_decision.py:1643-1680 | the diagnostics and their namespace |
| CanonicalMeaning.BehaviorIs | src/operation/canonical_decision.py:1643-1680 | the behaviour payload given, or the one put together from the strategy fields |
| CanonicalMeaning.FeatureHashIs | src/operation/canonical_decision.py:424-442 | the feature hash is the one given, or the digest of the outcome's own feature snapshot, or marked missing |
| CanonicalMeaning.BehaviorHashIs | src/operation/canonical_decision.py:443-454 | the behaviour hash is the one given, or the digest of the outcome's own behaviour payload, or marked missing |
| Canonical.BlankSideChanges | src/operation/canonical_decision.py:402-404 | a second pass changes what the first makes of a payload with a blank side |
| Canonical.ZeroVersionChanges | src/operation/canonical_decision.py:382-387 | a second pass changes what the first makes of a payload whose version truncates to zero |
| Canonical.SkippedHashChanges | src/operation/canonical_decision.py:424-454 | a second pass changes what the first makes of a payload without hashes when it may not compute them |
| Canonical.ReloadedCarries | src/operation/canonical_decision.py:1766-1775 | the JSON export loses nothing but the tuple of block filters, which becomes a list |
| Canonical.ComparisonSeesExport | src/operation/decision_equivalence.py:821-827 | exporting and then comparing sees exactly the exported values, with any position authority attached in between |
| CanonicalFields.ProgramExport | src/operation/canonical_decision.py:38-187 | with the field lists of the program, an exported decision is in canonical form and the comparison sees it unchanged |
| CanonicalForm.FixedIffInForm | src/operation/canonical_decision.py:377-467 | normalisation leaves a decision alone exactly when it has the fields of its version, each of its type, objects and evidence without tuples, and the two pairs of dependent fields agree |
| CanonicalForm.KindFixedIff | src/operation/canonical_decision.py:1682-1729 | a field value is kept exactly when it already has the type of its kind |
| CanonicalForm.PayloadFixedIff | src/operation/canonical_decision.py:1643-1680 | a strategy payload is kept exactly when it is an object without tuples |
| CanonicalForm.HashEntriesFixedIff | src/operation/canonical_decision.py:424-454 | a hash is kept exactly when it is a non-empty text without outer spaces |
| CanonicalForm.SignalsFixedIff | src/operation/canonical_decision.py:402-404 | side and final signal are kept exactly when trimmed, upper case and blank together |

## Left out

- SQLite connections, the DDL text, column migrations and schema fingerprints.
- IEEE double behaviour beyond the consumption tolerance; NaN and infinities.
- SHA-256 and JSON encoding: opaque functions on values.
- Configuration, paths, environment loading and live preflight.
- The runtime decision export and the execution planner: field copying that depends on other modules.
- `validate_canonical_decision_payload` and `load_decision_export_artifact`: long lists of independent checks.
- The duplicate and overfill guards of a live fill, which only refuse more calls; the guards on quantity, price, fee and side are modelled.
- The ledger repair script that rewrites prices, and the lifecycle projections that the repair command rebuilds.
- The aggregate check of a fill (an aggregate id whose quantity is already booked) is a flag of the repair request.
- The other repair and adjustment recorders, which repeat the pattern of the external cash adjustment.
- The statement of the schema backfill that fills a blank position state: the column check admits no such row.
- The remaining accumulator counters (decision types, block layers, entry reasons, schema quality) and the interpretation text.
- Representative reason codes, dust details and mismatch counts inside the coverage matrix entries.
- The content of timestamp-only diagnostics: an opaque function that yields codes when a research key is missing.
- The observability counters of canonical hashing, which do not affect results.
- SumsMatch: the lower bound is stated against the executable lots and for quantities of at least minus 1e-12, because the triggers admit any negative quantity and any part of a dust lot (NegativeQtyAdmitted, DustBelowAuthority); for single rows RowMatchesIff is exact.
- The dictionary writes of `normalize_canonical_decision` and `normalize_strategy_decision_context` in their order: only the final value of each key is modelled.
