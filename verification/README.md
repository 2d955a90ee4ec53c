# Altan pallets: verified models

This project models the money, credit and registry pallets of the Altan network in Dafny and proves
what every run of their dispatchables keeps.

| pallet | model | what runs keep | as it runs |
|---|---|---|---|
| bank-operator | `BankOperator.dfy` | `BankOperatorRuns.dfy`, `BankOperatorTraces.dfy`, `BankOperatorPromises.dfy` | `BankOperatorPallet.dfy` |
| bank-of-siberia | `BankOfSiberia.dfy` | `BankOfSiberiaRecords.dfy`, `BankOfSiberiaTreasury.dfy`, `BankOfSiberiaLocks.dfy`, `BankOfSiberiaPromises.dfy`, `BankOfSiberiaContracts.dfy` | `BankOfSiberiaPallet.dfy` |
| bank-of-siberia migration | `LoanIndexMigration.dfy` | `LoanIndexMigration.dfy` | `BankOfSiberiaPallet.dfy` |
| central-bank and its migration | `CentralBank.dfy` | `CentralBankRuns.dfy`, `CentralBankPromises.dfy` | `CentralBankPallet.dfy` |
| buryad-mongol-mixer | `Mixer.dfy` | `Mixer.dfy` | `Mixer.dfy` |
| access-nft | `AccessNft.dfy` | `AccessNft.dfy` | `AccessNft.dfy` |
| annual-profit-tax | `ProfitTax.dfy` | `ProfitTax.dfy` | `ProfitTax.dfy` |
| achievement-nft | `AchievementNft.dfy` | `AchievementNft.dfy` | `AchievementNft.dfy` |
| altan-tax | `AltanTax.dfy`, `FeeRouting.dfy` | `AltanTax.dfy` | `AltanTax.dfy` |

Each pallet has three layers. A *transition function* per dispatchable maps storage to new storage or
to the error the source returns, with its checks in the source's order. A *runs* module proves, by
induction over arbitrary sequences of calls, the invariants and exact conditions, and what they come to
from an empty pallet or from genesis. It also follows each call into whatever comes after it: what was
asked for at issue, on opening or on request is what later calls act on, pay and accept. A *class* holds the storage items as fields; its
methods update them step by step as the source does, undo their writes when a late step fails, and are
proved equal to the transition function. `ExecuteOne` routes a call to its method and `Execute` a
sequence of calls, proved to leave exactly the storage that `Run` ends in; `ChainFromEmpty`,
`ChainFromGenesis` and `ChainFrom` construct a pallet, execute a sequence and end with the invariants.

`Currency.dfy` is the ledger all pallets share: free balances, total issuance and the existential
deposit. Transfers are all or nothing, and a zero transfer or one to oneself moves nothing.
`Sums.dfy` sums over stored maps, independently of the order in which they are visited.
Runs interleave the pallet's own calls with transfers made by other pallets.
In bank-of-siberia every transfer also respects the lock on loan collateral.

## Assumptions the theorems name

- `MintsLand`, `AllLand`: a minted amount takes effect, that is, reaches the existential deposit and
  keeps issuance within 128 bits. Everything said about saturation in the bank-operator and
  central-bank pallets is proved from this.
- `AllHaveRoom`: credit issued within one epoch stays within 128 bits.
- `LeavesBankAlone`, `Keyless`, `LeavesPoolAlone`: the bank, treasury or pool account signs nothing and
  is not paid behind the pallet's back. `LockMovesBacking` and `ReleaseKeepsBooksUnlessToTreasury`
  show that two of these conditions are exactly what is needed.
- `Injective`: address derivation has no collisions; `OpenSubKeepsPaired` says exactly when one matters.
- `Chronological`: block numbers never go back. Block numbers are taken to fit 32 bits; the source
  reads a larger one as zero.
- Id counters, epoch numbers and tranche numbers are unbounded; the source's saturating additions on
  them are taken not to reach their maxima.
- `set_lock` replaces the amount under its identifier and ignores a zero amount, as in pallet-balances,
  which is not part of this model.

## Where comments and code differ

The model follows the code. A promise that fails has a concrete input and the exact condition.

- bank-operator: a repayment in mid-period moves the accrual mark, so part of a period can go unpaid
  (`MidPeriodRepaymentLosesInterest`; how much, `MovedMarkCosts`), and repayments in steps shorter
  than a period keep a credit free of interest for good (`ShortStepsEarnNothing`). An accrual, which
  anybody may trigger, moves the mark as well (`AccrualsLoseInterest`), but only when it charges a
  whole period, so accruals never lose more than half (`AccrualsChargeHalf`). The count of repaid
  credits is not stored at the maximal score (`ClosingAtMaximumIsNotCounted`,
  `ClosingCountsBelowMaximum`).
- bank-of-siberia: the lock on loan collateral is said to cover the largest collateral outstanding; a
  smaller second request or the closing of one of two loans undercuts it (`LockCanFallShort`,
  `LockFallsShortExactly`, `BankOfSiberiaLocks.EveryRunFromEmpty`).
- bank-of-siberia migration: the comment says the highest loan id wins; the first one visited does
  (`FirstNotHighest`, `HighestExactlyWhenFirst`).
- central-bank: the try-state check that emission covers burning can fail, because lent credit is
  not counted as emitted (`EmissionCheckCanFail`, `EmissionCheckBreaksExactly`,
  `TryStateHoldsThroughout`); closed epochs are called immutable, but repayments against them
  accumulate (`ClosedEpochCanChange`, `ClosedEpochChangesExactly`, `ClosedEpochChangesInRunExactly`);
  the base rate is called the ceiling of the dynamic rate and said to take effect with the next
  request or repayment, but it bounds the curve exactly when it equals the protective maximum
  (`BaseRateCanBeExceeded`, `BaseRateBoundsExactly`) and influences no other storage item
  (`BaseRateInfluencesNothing`); the pool migration rewrites an exhausted pool, with the values it
  already has exactly as long as all credit ever issued fits 128 bits (`InitCanRewriteLivePool`,
  `InitLeavesLivePoolAlone`).
- access-nft: the system Creator is said to revoke keys as well; only the issuer can
  (`CreatorCannotRevoke`, `RevokedExactlyByIssuer`).
- annual-profit-tax: lateness starts a day after the filing window closes (`GapDayFiling`,
  `OnTimeExactly`); the confederation share, not the regional one, absorbs the dust (`TaxBounded`).
- altan-tax: the storage comments still name a 26 % share; the split is 54/36/10 (`FeeSplit`).

## Model

| member | source | states |
|---|---|---|
| BankOperatorRuns.EveryRunFromEmpty | pallets/bank-operator/src/lib.rs:601-1087 | From an empty pallet, over every interleaving: contracts matched, total = sum of debts, issuance minus total constant, minted minus burned = total, nine-fold principal, the bank balance accounted for to the planck, interest within the one-shot bound |
| BankOperatorRuns.InterestNeverExceedsOneShot | pallets/bank-operator/src/lib.rs:842-946 | However accruals and partial repayments interleave, interest paid plus interest owed on a credit never exceeds the one-shot formula on its full principal, for any period length including zero |
| BankOperatorPromises.InterestCountsFromIssue | pallets/bank-operator/src/lib.rs:743-821 | For every credit of a run from an empty pallet, interest paid plus owed is at most the formula on nine times the net collateral, at the rate of the score the citizen had, from the block of the call that issued it |
| BankOperatorPromises.IssueStartsCredit | pallets/bank-operator/src/lib.rs:786-805 | A credit issued at a block bears interest from that block, owes its principal and nothing else yet, and has the rate the thresholds 600, 650, 700 and 750 give its owner's score |
| BankOperatorRuns.AccrualBounded | pallets/bank-operator/src/lib.rs:1133-1162 | Accruing once more, with integer floors and saturation, stays within the one-shot interest up to the current block |
| BankOperatorRuns.AccrualLosesLittle | pallets/bank-operator/src/lib.rs:1133-1162 | With the principal whole, no period cut in two and nothing saturating, one accrual loses at most one planck against the one-shot formula, and the first loses none |
| BankOperatorRuns.AccrualsLoseLittle | pallets/bank-operator/src/lib.rs:842-869 | Over any run of k accruals at the ends of its periods, an unpaid credit whose products fit the width owes at most the one-shot interest and at least that less k - 1 plancks |
| BankOperatorRuns.PeriodsSplit | pallets/bank-operator/src/lib.rs:923-926 | Cutting a stretch of blocks in two loses no whole period exactly when the two remainders do not add up to one |
| BankOperatorRuns.MovedMarkCosts | pallets/bank-operator/src/lib.rs:923-926 | Moving the mark in mid-period costs at least the interest of a whole period when the two parts add up to one, and at most a planck otherwise |
| BankOperatorRuns.MidPeriodRepaymentLosesInterest | pallets/bank-operator/src/lib.rs:901-946 | A run from an empty pallet in which interest paid plus owed is half the one-shot interest on a principal that is still whole |
| BankOperatorTraces.ShortStepsEarnNothing | pallets/bank-operator/src/lib.rs:901-946 | Over any run whose calls all fall less than a period after the credit's mark, it neither pays nor owes interest |
| BankOperatorTraces.ShortStepsKeepYoung | pallets/bank-operator/src/lib.rs:923-926 | Accepted repayments less than a period apart are such a run |
| BankOperatorTraces.AccrualsChargeHalf | pallets/bank-operator/src/lib.rs:842-869 | Over any run without repayments of a credit, what anybody's accruals charge is at least half the interest of one accrual at the end, up to a planck an accrual |
| BankOperatorTraces.AccrualsLoseInterest | pallets/bank-operator/src/lib.rs:842-869 | A run from an empty pallet in which two accruals charge two of three elapsed periods |
| BankOperatorRuns.IssuanceTracksCredit | pallets/bank-operator/src/lib.rs:761-809 | In every run in which mints land, the outstanding total is the sum over all credits and issuance minus that total never moves |
| BankOperatorRuns.RepayKeepsTotal | pallets/bank-operator/src/lib.rs:957-974 | A repayment lowers the total by the principal burned, and neither subtraction ever clips |
| BankOperatorRuns.StepKeepsMatched | pallets/bank-operator/src/lib.rs:645-1087 | Every call keeps collateral and credit contracts matched |
| BankOperatorRuns.StatusTellsTheCredit | pallets/bank-operator/src/lib.rs:664-684 | Locked iff no credit refers to the collateral; active iff exactly one does and it is Active or in Default; Released iff exactly one does and it is Repaid |
| BankOperatorPromises.CollateralServesItsOwner | pallets/bank-operator/src/lib.rs:645-1034 | Whatever happens after a citizen locks an amount, the collateral stays its own on these terms: only it requests on it, the credit of nine tenths nine-fold goes to it, and only its closing repayment releases it |
| BankOperatorPromises.LockCharges | pallets/bank-operator/src/lib.rs:645-694 | Locking moves exactly the amount from the citizen to the bank |
| BankOperatorPromises.NoCreditUnasked | pallets/bank-operator/src/lib.rs:701-752 | In a run from an empty pallet every accepted issue follows an accepted request of the collateral's owner |
| BankOperatorTraces.ContractsMoveForward | pallets/bank-operator/src/lib.rs:601-1087 | Over any run credits keep their terms, Repaid and Default are terminal, collateral goes only Locked, Backing, Released, and that of a credit in default is never released |
| BankOperatorTraces.StepMovesAhead | pallets/bank-operator/src/lib.rs:664-1034 | A collateral moves one stage at a time, to Backing by the issue against it and to Released by its owner's repayment of the credit on it |
| BankOperatorRuns.BankStaysBacked | pallets/bank-operator/src/lib.rs:1003-1034 | The bank always holds its opening balance, all fees, all interest and the net collateral of every contract not yet released |
| BankOperatorRuns.LockMovesBacking | pallets/bank-operator/src/lib.rs:645-684 | Locking collateral keeps the bank backed exactly when the citizen is not the bank itself |
| BankOperatorRuns.RepaymentSucceedsExactly | pallets/bank-operator/src/lib.rs:901-1046 | With a backed bank a repayment succeeds iff the citizen can pay the smaller of the amount and the debt and keep the existential deposit; the collateral can always be returned |
| BankOperatorPromises.AcceptedExactly | pallets/bank-operator/src/lib.rs:611-1087 | With a backed bank that signs nothing, a call of any kind is accepted iff its caller meets the terms listed for it; a repayment iff the citizen can pay the smaller of amount and debt above the deposit |
| BankOperatorRuns.RepaymentCharge | pallets/bank-operator/src/lib.rs:929-974 | The citizen is charged the smaller of amount and debt, principal falls only in a step that clears the interest, and exactly the principal leaves issuance |
| BankOperatorRuns.InterestFirst | pallets/bank-operator/src/lib.rs:929-957 | Principal is touched only once no interest is left |
| BankOperatorRuns.ClosingCountsBelowMaximum | pallets/bank-operator/src/lib.rs:976-1001 | The stored count of repaid credits grows with a closing repayment iff the score was not already at its maximum |
| BankOperatorPromises.ScoresFollow | pallets/bank-operator/src/lib.rs:405-424 | Every call moves every account's score by 20 for closing, 5 for burning principal, minus 100 for default, within 300 to 850, and leaves all others alone |
| BankOperatorTraces.ClosingAtMaximumIsNotCounted | pallets/bank-operator/src/lib.rs:976-1001 | A run from an empty pallet in which forty small repayments bring the score to 850 and the closing one leaves the count of repaid credits at zero |
| BankOperatorRuns.DebtWithinTotal | pallets/bank-operator/src/lib.rs:1164-1178 | A citizen's summed debt stays within the outstanding total and the width of a balance |
| BankOperatorPromises.DebtFollows | pallets/bank-operator/src/lib.rs:1164-1178 | What an account is said to owe grows by credits issued to it, shrinks by principal it repays or defaults on, and moves by nothing else |
| BankOperatorPromises.DefaultRecords | pallets/bank-operator/src/lib.rs:1057-1087 | A default keeps principal, interest and collateral and takes the credit out of its citizen's debt |
| BankOperatorRuns.StepKeepsScoresInRange | pallets/bank-operator/src/lib.rs:405-424 | Stored scores stay between 300 and 850 through every call |
| BankOperatorRuns.RatesFollowScores | pallets/bank-operator/src/lib.rs:178-218 | The daily rate is the yearly one over 365 rounded up, and a better score is never charged more |
| BankOperatorPallet.Pallet.SetBankAccount | pallets/bank-operator/src/lib.rs:611-616 | Sets the bank account and nothing else |
| BankOperatorPallet.Pallet.LockCollateral | pallets/bank-operator/src/lib.rs:645-694 | Runs in place exactly as the transition the invariants are proved of, all or nothing |
| BankOperatorPallet.Pallet.RequestCredit | pallets/bank-operator/src/lib.rs:701-722 | Marks the collateral requested, with every refusal of the source |
| BankOperatorPallet.Pallet.IssueCredit | pallets/bank-operator/src/lib.rs:743-821 | Mints, links and records a credit as the transition says, or leaves storage untouched |
| BankOperatorPallet.Pallet.CalculateAccruedInterest | pallets/bank-operator/src/lib.rs:1133-1162 | The early exits and the quotient agree with one saturating formula over whole periods |
| BankOperatorPallet.Pallet.AccrueInterest | pallets/bank-operator/src/lib.rs:842-869 | Stores accrued interest and moves the mark only when interest is due |
| BankOperatorPallet.Pallet.RepayCredit | pallets/bank-operator/src/lib.rs:901-1046 | The stepwise repayment equals its one-shot transition, and any late failure undoes every earlier write |
| BankOperatorPallet.Pallet.TakePayment | pallets/bank-operator/src/lib.rs:928-974 | Interest transferred, then principal burned, or the ledger is restored |
| BankOperatorPallet.Pallet.UpdateScore | pallets/bank-operator/src/lib.rs:976-1001 | A record is written back only when the score moved |
| BankOperatorPallet.Pallet.DeclareDefault | pallets/bank-operator/src/lib.rs:1057-1087 | Default is recorded once, with its penalty |
| BankOperatorPallet.Pallet.Execute | pallets/bank-operator/src/lib.rs:601-1087 | The methods run one after another leave exactly the storage the run of transitions ends in |
| BankOperatorPallet.ChainFromEmpty | pallets/bank-operator/src/lib.rs:601-1087 | A chain started from an empty pallet ends matched, with books and bank balance accounted for and interest bounded |
| BankOperatorPallet.Pallet.TotalOutstandingDebtFor | pallets/bank-operator/src/lib.rs:1168-1178 | In every storage order the loop returns the sum of the active debts, saturated |
| BankOfSiberiaRecords.SubAccountViewsStayPaired | pallets/bank-of-siberia/src/lib.rs:1121-1375 | In every run the forward and reverse sub-account views are exact inverses, each address is the derived one, every master is registered |
| BankOfSiberiaRecords.OpenSubKeepsPaired | pallets/bank-of-siberia/src/lib.rs:1121-1163 | Opening keeps the views inverse exactly when the derived address is not on record |
| BankOfSiberiaRecords.OneSubAccountPerType | pallets/bank-of-siberia/src/lib.rs:1133-1137 | At most one sub-account per master and type, and the duplicate check decides whether it is open |
| BankOfSiberiaRecords.OwnedExactly | pallets/bank-of-siberia/src/lib.rs:981-989 | The owner check passes iff the pair is in the forward view, with the type recorded there, and names another owner iff another holds the sub-account |
| BankOfSiberiaRecords.WithdrawalExact | pallets/bank-of-siberia/src/lib.rs:1184-1235 | The amount reaches the master, and the sub-account stays on record iff it still holds something |
| BankOfSiberiaRecords.LoansStaySound | pallets/bank-of-siberia/src/lib.rs:1256-1954 | In every run the index holds exactly the Active loans, an Active debt is positive and within its principal, and the collateral map holds exactly the Pending and Active loans |
| BankOfSiberiaRecords.LoansMoveForward | pallets/bank-of-siberia/src/lib.rs:1256-1954 | Over any run loans keep their terms and go only Pending, Active, Repaid; debts never grow and a closed loan is frozen |
| BankOfSiberiaRecords.StepMovesLoansAhead | pallets/bank-of-siberia/src/lib.rs:1256-1954 | A loan moves by its approval, its borrower's cancellation while Pending or its borrower's payment while Active, and by nothing else |
| BankOfSiberiaRecords.IndexAgreesWithScan | pallets/bank-of-siberia/src/lib.rs:1275-1283 | The O(1) index gives the answer of the linear scan it replaced, in every storage order |
| BankOfSiberiaRecords.PaymentFindsTheDebt | pallets/bank-of-siberia/src/lib.rs:1256-1292 | A payment is refused for want of a loan iff the scan finds none; the defensive checks never fire |
| BankOfSiberiaPromises.AcceptedExactly | pallets/bank-of-siberia/src/lib.rs:1061-2190 | On sound records each of the calls is accepted iff its caller is entitled to it by the forward sub-account view, the tables and the signature, and the currency lets its money flow under the lock |
| BankOfSiberiaPromises.MoneyFollowsTheCall | pallets/bank-of-siberia/src/lib.rs:1061-2190 | Every accepted call moves exactly the money it names between exactly the accounts it names, for every account; a refused one moves none |
| BankOfSiberiaPromises.OpenSubRecords | pallets/bank-of-siberia/src/lib.rs:1121-1163 | Opening a sub-account gives its master one of the type asked for at its derived address and changes no other |
| BankOfSiberiaPromises.DroppedExactly | pallets/bank-of-siberia/src/lib.rs:1184-1375 | Closing, or drawing all of a savings account, takes away that sub-account and no other |
| BankOfSiberiaPromises.MastersAreApproved | pallets/bank-of-siberia/src/lib.rs:1061-1095 | Over any run an account has a master account iff it had one or opened one with approval |
| BankOfSiberiaContracts.LoanKeepsItsTerms | pallets/bank-of-siberia/src/lib.rs:1256-1954 | Whatever happens after a loan is requested, approval pays its borrower the sum asked for, only the borrower cancels it and only its payments lower the debt, by what is paid |
| BankOfSiberiaContracts.EscrowKeepsItsParties | pallets/bank-of-siberia/src/lib.rs:1486-1650 | Whatever happens after an escrow is made, release is accepted iff the buyer calls it and pays the seller the amount, refund iff the seller calls it and pays the buyer |
| BankOfSiberiaContracts.DepositKeepsItsYield | pallets/bank-of-siberia/src/lib.rs:1680-1816 | Whatever happens after a deposit is opened, it is claimed iff its owner does so from maturity on, once, for principal and the interest of exactly its term |
| BankOfSiberiaContracts.InterestExact | pallets/bank-of-siberia/src/lib.rs:1020-1035 | For any rate and term the interest is the exact fraction of the principal to the nearest planck, save a billionth of the principal |
| BankOfSiberiaContracts.CardFollowsItsHolder | pallets/bank-of-siberia/src/lib.rs:2018-2088 | Over any run an account's card collateral is what it locked less what it took back |
| BankOfSiberiaContracts.KeyIsTheLastSet | pallets/bank-of-siberia/src/lib.rs:2004-2012 | Payouts are verified under the key set last |
| BankOfSiberiaTreasury.TreasuryKeepsDoubleEntry | pallets/bank-of-siberia/src/lib.rs:1256-2130 | In every run the treasury holds its opening balance, the net of all reported flows, locked escrows, open deposits and card collateral; and issuance moves only with wholesale credit |
| BankOfSiberiaTreasury.ReleaseKeepsBooksUnlessToTreasury | pallets/bank-of-siberia/src/lib.rs:1560-1600 | Paying an escrow out keeps the books iff the payee is not the treasury |
| BankOfSiberiaTreasury.NothingIsPaidTwice | pallets/bank-of-siberia/src/lib.rs:1560-2112 | Each escrow settles at most once, each deposit is claimed at most once, each nonce authorises at most one payout across both signed calls |
| BankOfSiberiaTreasury.EscrowPaysOneParty | pallets/bank-of-siberia/src/lib.rs:1560-1651 | Release pays the seller at the word of the buyer, refund pays the buyer at the word of the seller, each the full amount |
| BankOfSiberiaTreasury.ClaimExact | pallets/bank-of-siberia/src/lib.rs:1765-1828 | A matured deposit pays its owner principal and interest in full |
| BankOfSiberiaTreasury.DepositInterest | pallets/bank-of-siberia/src/lib.rs:1020-1035 | Interest never exceeds the principal, and a year at the fixed rate earns five per cent to the nearest planck |
| BankOfSiberiaTreasury.LoansKeepTheirTrail | pallets/bank-of-siberia/src/lib.rs:1256-1954 | A loan is disbursed at most once, an Active one lacks exactly its outstanding balance, a closed one was never disbursed or fully paid back |
| BankOfSiberiaTreasury.StepNeverIssues | pallets/bank-of-siberia/src/lib.rs:2150-2190 | No call other than the wholesale ones changes issuance |
| BankOfSiberiaTreasury.EveryRunFromEmpty | pallets/bank-of-siberia/src/lib.rs:1061-2190 | From an empty bank, over every run: views paired, loans sound, issuance and treasury accounted for, nothing paid twice, every loan with its trail |
| BankOfSiberiaLocks.LockCanFallShort | pallets/bank-of-siberia/src/lib.rs:1402-1430 | A run from an empty bank in which the shared lock falls below, and then lifts from, collateral that is still outstanding |
| BankOfSiberiaLocks.LockFallsShortExactly | pallets/bank-of-siberia/src/lib.rs:1402-1430 | From a lock at the maximum, a call undercuts it iff it is an accepted request with less collateral than is locked, a cancellation of the borrower's Pending loan, or an affordable payment that closes its Active one, while another loan has collateral outstanding |
| BankOfSiberiaLocks.LockIsMaximumThroughout | pallets/bank-of-siberia/src/lib.rs:1402-1405 | The lock covers the largest collateral after every call of a run iff no call of the run is such a one |
| BankOfSiberiaLocks.EveryRunFromEmpty | pallets/bank-of-siberia/src/lib.rs:1402-1405 | The same from an empty bank, for every borrower |
| BankOfSiberiaLocks.PaymentClosesExactly | pallets/bank-of-siberia/src/lib.rs:1256-1292 | A payment is accepted and closes the loan iff it comes from the borrower's credit line, covers the debt and leaves lock and deposit in the account |
| BankOfSiberiaLocks.LockedFundsStay | pallets/bank-of-siberia/src/lib.rs:1394-1397 | No call of the pallet takes an account below the amount under its lock |
| BankOfSiberiaLocks.CollateralStaysInPlace | pallets/bank-of-siberia/src/lib.rs:1394-1405 | While the lock is the maximum, whatever a borrower spends leaves the collateral of each open loan in the account |
| LoanIndexMigration.BackfillIsTheScan | pallets/bank-of-siberia/src/migrations.rs:100-127 | The migration keeps every entry and gives every other borrower what the linear scan finds |
| LoanIndexMigration.BackfillSoundAndComplete | pallets/bank-of-siberia/src/migrations.rs:100-127 | From a sound index it ends sound and complete, overwriting nothing |
| LoanIndexMigration.BackfillIdempotent | pallets/bank-of-siberia/src/migrations.rs:85-90 | Running it again, in any storage order, changes nothing |
| LoanIndexMigration.BackfillLeavesLiveIndexAlone | pallets/bank-of-siberia/src/migrations.rs:100-127 | On every state the live pallet reaches it is the identity |
| LoanIndexMigration.PostUpgradeAlwaysPasses | pallets/bank-of-siberia/src/migrations.rs:130-153 | From a sound index the post-upgrade count check always passes |
| LoanIndexMigration.OrderMattersExactly | pallets/bank-of-siberia/src/migrations.rs:106-116 | The result is the same for every storage order iff no unindexed borrower has two Active loans |
| LoanIndexMigration.FirstNotHighest | pallets/bank-of-siberia/src/migrations.rs:87-90 | Two Active loans of one borrower for which the highest id is not the one registered, contrary to the comment |
| LoanIndexMigration.HighestExactlyWhenFirst | pallets/bank-of-siberia/src/migrations.rs:87-112 | The highest Active loan is registered iff the storage order visits it first among its borrower's |
| BankOfSiberiaPallet.Pallet.OpenMasterAccount | pallets/bank-of-siberia/src/lib.rs:1061-1095 | Registers an approved citizen once |
| BankOfSiberiaPallet.Pallet.OpenSubAccount | pallets/bank-of-siberia/src/lib.rs:1121-1163 | Writes both views, or neither |
| BankOfSiberiaPallet.Pallet.EnsureOwner | pallets/bank-of-siberia/src/lib.rs:981-989 | While the views are paired, the check of the reverse view alone passes exactly for the pairs of the forward view, with the type and derived address of the pair |
| BankOfSiberiaPallet.Pallet.WithdrawFromSavings | pallets/bank-of-siberia/src/lib.rs:1184-1235 | A failed transfer restores the records dropped before it |
| BankOfSiberiaPallet.Pallet.CloseSubAccount | pallets/bank-of-siberia/src/lib.rs:1348-1375 | Drops both views of an empty sub-account |
| BankOfSiberiaPallet.Pallet.RequestLoan | pallets/bank-of-siberia/src/lib.rs:1408-1458 | Adds a Pending loan and its collateral entry, and replaces the borrower's lock |
| BankOfSiberiaPallet.Pallet.ApproveLoan | pallets/bank-of-siberia/src/lib.rs:1853-1907 | Disburses, activates and indexes, or nothing |
| BankOfSiberiaPallet.Pallet.PayCredit | pallets/bank-of-siberia/src/lib.rs:1256-1324 | The stepwise payment equals its transition: the whole amount is taken unless the lock forbids it, debt floored at zero |
| BankOfSiberiaPallet.Pallet.ApplyPayment | pallets/bank-of-siberia/src/lib.rs:1299-1314 | A loan paid off lifts the lock and leaves the index and the collateral map |
| BankOfSiberiaPallet.Pallet.CancelLoanRequest | pallets/bank-of-siberia/src/lib.rs:1925-1954 | A Pending loan is closed and the shared lock lifted without money moving |
| BankOfSiberiaPallet.Pallet.CreateEscrow | pallets/bank-of-siberia/src/lib.rs:1486-1538 | Moves the amount to the treasury and records a Locked contract |
| BankOfSiberiaPallet.Pallet.ReleaseEscrow | pallets/bank-of-siberia/src/lib.rs:1560-1594 | Pays and closes, or nothing |
| BankOfSiberiaPallet.Pallet.RefundEscrow | pallets/bank-of-siberia/src/lib.rs:1616-1650 | Pays back and closes, or nothing |
| BankOfSiberiaPallet.Pallet.OpenTimeDeposit | pallets/bank-of-siberia/src/lib.rs:1680-1732 | Records maturity saturating at 32 bits |
| BankOfSiberiaPallet.Pallet.ClaimTimeDeposit | pallets/bank-of-siberia/src/lib.rs:1765-1816 | Pays principal and interest and closes, or nothing |
| BankOfSiberiaPallet.Pallet.FundTreasury | pallets/bank-of-siberia/src/lib.rs:1978-1999 | Moves the amount to the treasury |
| BankOfSiberiaPallet.Pallet.SetBankServerKey | pallets/bank-of-siberia/src/lib.rs:2004-2012 | Replaces the key and nothing else |
| BankOfSiberiaPallet.Pallet.LockCollateral | pallets/bank-of-siberia/src/lib.rs:2018-2039 | Adds to the caller's card collateral what it transferred |
| BankOfSiberiaPallet.Pallet.Authorise | pallets/bank-of-siberia/src/lib.rs:2049-2062 | A payout is authorised iff its nonce is fresh and the server's signature verifies |
| BankOfSiberiaPallet.Pallet.UnlockCollateral | pallets/bank-of-siberia/src/lib.rs:2044-2088 | A late refusal gives the nonce and the collateral back |
| BankOfSiberiaPallet.Pallet.ClaimCashAdvance | pallets/bank-of-siberia/src/lib.rs:2093-2109 | A failed payout leaves the nonce unused |
| BankOfSiberiaPallet.Pallet.RepayCashAdvance | pallets/bank-of-siberia/src/lib.rs:2114-2130 | Moves the amount to the treasury |
| BankOfSiberiaPallet.Pallet.Execute | pallets/bank-of-siberia/src/lib.rs:1061-2190 | The methods run one after another leave exactly the storage the run of transitions ends in |
| BankOfSiberiaPallet.ChainFromEmpty | pallets/bank-of-siberia/src/lib.rs:1061-2190 | A chain started from an empty bank ends with paired views, a sound treasury, nothing paid twice and every loan with its trail |
| BankOfSiberiaPallet.Pallet.BackfillActiveLoanIndex | pallets/bank-of-siberia/src/migrations.rs:100-127 | The upgrade loop equals the specified fold over the storage order |
| BankOfSiberiaPallet.Pallet.CountActiveLoans | pallets/bank-of-siberia/src/migrations.rs:130-136 | Counts the Active loans, whatever the storage order |
| CentralBankRuns.PoolIsConserved | pallets/central-bank/src/lib.rs:1080-1204 | In every run available plus outstanding is the limit; every per-operator, per-epoch and global total agrees with the debts; the current epoch carries the rate of the curve |
| CentralBankRuns.RepayKeepsPool | pallets/central-bank/src/lib.rs:1140-1190 | A repayment restores the pool; neither a subtraction nor the cap ever clips |
| CentralBankRuns.DebtGrowsByLicensedRequest | pallets/central-bank/src/lib.rs:1080-1118 | Only a licensed operator's own request within the pool raises its debt, by at most the amount |
| CentralBankPromises.DebtFollowsTheCall | pallets/central-bank/src/lib.rs:1080-1190 | Each debt moves by its operator's requests in the current epoch and its repayments naming that epoch, by the amount named, and by nothing else |
| CentralBankPromises.AcceptedExactly | pallets/central-bank/src/lib.rs:591-1204 | On a sound pool a call is accepted iff its caller is licensed or owes, can afford it, and the totals stay within the width |
| CentralBankPromises.MoneyFollowsTheCall | pallets/central-bank/src/lib.rs:634-1204 | Every accepted call moves exactly the money it names, for every account, provided its mint lands |
| CentralBankPromises.LicencesFollowTheCalls | pallets/central-bank/src/lib.rs:591-626 | An operator is licensed iff it was granted a licence last and has not had it revoked since |
| CentralBankPromises.TotalsCountTheCalls | pallets/central-bank/src/lib.rs:634-930 | Over any run emitted and burned totals grow by exactly the accepted mints and grants, and burns |
| CentralBankPromises.EpochNamesItsBlock | pallets/central-bank/src/lib.rs:1288-1318 | Whatever happens after an epoch is opened, its record names the block of the opening and the pool's limit |
| CentralBankRuns.SupplyIsAccountedFor | pallets/central-bank/src/lib.rs:634-940 | In every run in which mints land, issuance = opening + emitted − burned + credit outstanding, so credit never lifts it beyond the limit |
| CentralBankRuns.TryStateExactly | pallets/central-bank/src/migrations.rs:40-68 | The pool and epoch checks hold in every reachable state; seen from the ledger, the emission check holds there iff burning has not eaten into the opening supply or the lent credit |
| CentralBankRuns.EmissionCheckCanFail | pallets/central-bank/src/migrations.rs:43-46 | A reachable state in which the emission check fails: credit never counted as emitted is burned |
| CentralBankRuns.EmissionCheckBreaksExactly | pallets/central-bank/src/lib.rs:674-707 | From a state that passes the emission check, a call breaks it iff it is an affordable burn taking the burned total past the emitted one |
| CentralBankRuns.TryStateHoldsThroughout | pallets/central-bank/src/migrations.rs:40-68 | try_state passes after every call of a run iff no call of the run is such a burn |
| CentralBankRuns.ClosedEpochsKeepTheirTerms | pallets/central-bank/src/lib.rs:1140-1190 | A closed epoch keeps start, rate, issued total and limit for ever, and its repaid total grows by exactly what the run repays against it |
| CentralBankRuns.ClosedEpochChangesExactly | pallets/central-bank/src/lib.rs:1140-1190 | The record of a closed epoch changes in a call iff the call repays against it an amount its operator owes and can afford |
| CentralBankRuns.ClosedEpochChangesInRunExactly | pallets/central-bank/src/lib.rs:101-102 | Contrary to the stated immutability, the record of a closed epoch changes over a run iff some call of the run repays against it |
| CentralBankRuns.ClosedEpochCanChange | pallets/central-bank/src/lib.rs:101-102 | A run from genesis that repays credit of the first epoch in the second |
| CentralBankRuns.RateFollowsUtilization | pallets/central-bank/src/lib.rs:1214-1256 | More credit out never means a lower rate |
| CentralBankRuns.RateAtEnds | pallets/central-bank/src/lib.rs:1214-1256 | The curve meets the optimal rate at the optimal utilisation and the protective maximum at full use, never exceeding it |
| CentralBankPromises.RateExact | pallets/central-bank/src/lib.rs:1214-1256 | Up to the optimal utilisation the rate is the proportional part of the optimal one, beyond it of the way to the maximum, each to within a basis point |
| CentralBankPromises.UtilizationExact | pallets/central-bank/src/lib.rs:1214-1230 | The utilisation is the percentage lent rounded down, zero where it would not fit 32 bits, and at most a hundred on a sound pool |
| CentralBankRuns.BaseRateBoundsExactly | pallets/central-bank/src/lib.rs:348-358 | Of the base rates that can be set, exactly the protective maximum bounds the dynamic rate at every level of lending |
| CentralBankRuns.BaseRateCanBeExceeded | pallets/central-bank/src/lib.rs:348-358 | A one-call run from genesis that ends with a key rate of 5000 above a base rate of 500 |
| CentralBankRuns.BaseRateInfluencesNothing | pallets/central-bank/src/lib.rs:765-800 | Runs that differ in nothing but the base rate agree on every other storage item for ever |
| CentralBankRuns.InitRestoresPoolExactly | pallets/central-bank/src/migrations.rs:118-148 | On an uninitialised pool the migration restores conservation and the pool checks iff the credit outstanding over all epochs fits the limit |
| CentralBankRuns.InitIdempotent | pallets/central-bank/src/migrations.rs:107-110 | Running the migration twice equals running it once |
| CentralBankRuns.InitLeavesLivePoolAlone | pallets/central-bank/src/migrations.rs:118-148 | On a live state it is the identity iff the pool is not exhausted, the limit is zero, or all credit ever issued fits 128 bits |
| CentralBankRuns.InitCanRewriteLivePool | pallets/central-bank/src/migrations.rs:107-110 | A run from genesis whose exhausted pool the migration rewrites to one planck available |
| CentralBankRuns.EveryRunFromGenesis | pallets/central-bank/src/lib.rs:591-1318 | From genesis, over every run with room in which mints land: pool, operator, epoch and global totals agree with the debts, the rate is the curve's, issuance is accounted for |
| CentralBankPallet.Pallet.GrantOperatorLicense | pallets/central-bank/src/lib.rs:591-605 | Licenses an operator once |
| CentralBankPallet.Pallet.RevokeOperatorLicense | pallets/central-bank/src/lib.rs:612-626 | Withdraws a licence |
| CentralBankPallet.Pallet.MintToOperator | pallets/central-bank/src/lib.rs:634-667 | An overflow of the emission total undoes the mint |
| CentralBankPallet.Pallet.Burn | pallets/central-bank/src/lib.rs:674-707 | An overflow of the burn total undoes the burn |
| CentralBankPallet.Pallet.TransitionEpoch | pallets/central-bank/src/lib.rs:1288-1318 | Opens the next epoch at the rate of the curve |
| CentralBankPallet.Pallet.SetBaseRate | pallets/central-bank/src/lib.rs:771-800 | Sets the base rate within its maximum |
| CentralBankPallet.Pallet.ComputeDynamicRate | pallets/central-bank/src/lib.rs:1214-1256 | The branches of the two-phase curve agree with its formula |
| CentralBankPallet.Pallet.DoRequestCredit | pallets/central-bank/src/lib.rs:1080-1137 | Pool, totals, epoch, debts and ledger move together, or nothing does |
| CentralBankPallet.Pallet.DoRepayCredit | pallets/central-bank/src/lib.rs:1140-1204 | Likewise for a repayment |
| CentralBankPallet.Pallet.IssueGenesisGrant | pallets/central-bank/src/lib.rs:894-930 | An overflow undoes the grant |
| CentralBankPallet.Pallet.Execute | pallets/central-bank/src/lib.rs:591-1318 | The methods run one after another leave exactly the storage the run of transitions ends in |
| CentralBankPallet.ChainFromGenesis | pallets/central-bank/src/lib.rs:591-1318 | A chain started from genesis ends with a conserved pool and an accounted supply |
| CentralBankPallet.Pallet.InitCreditPool | pallets/central-bank/src/migrations.rs:118-148 | The upgrade loop over the epochs equals its specification |
| MixerRuns.MixerInvariants | pallets/buryad-mongol-mixer/src/lib.rs:290-439 | In every run the leaf counter is the number of Active commitments, spent nullifiers equal Spent commitments, nothing ever goes back, and the pool moves in whole denominations |
| MixerRuns.EveryRunFromEmpty | pallets/buryad-mongol-mixer/src/lib.rs:290-439 | From an empty mixer, over every run: leaves, nullifiers and pool balance agree with the commitments |
| MixerRuns.StepMovesForward | pallets/buryad-mongol-mixer/src/lib.rs:396-428 | A commitment advances one stage at a time, into the pool by a deposit naming it and out by a withdrawal naming it |
| MixerRuns.DepositExact | pallets/buryad-mongol-mixer/src/lib.rs:290-386 | The pool gains exactly the amount, a distinct depositor loses exactly amount plus fee, every fee account gains at least its share, the Khural at least 54 % of the fee, issuance stands |
| MixerRuns.DepositFlows | pallets/buryad-mongol-mixer/src/lib.rs:290-386 | Where every planck of a deposit goes, for every account and however the recipients coincide: 26 % and twice 10 % of the fee rounded down, the rest to the Khural |
| MixerRuns.WithdrawExact | pallets/buryad-mongol-mixer/src/lib.rs:396-435 | The recipient gains exactly the amount, the pool loses it, no other balance nor issuance moves, and commitment and nullifier are spent |
| MixerRuns.PoolHoldsTheNet | pallets/buryad-mongol-mixer/src/lib.rs:290-435 | Over any run the pool is its opening balance plus accepted deposits less accepted withdrawals |
| MixerRuns.DepositAcceptedExactly | pallets/buryad-mongol-mixer/src/lib.rs:290-386 | A deposit is accepted iff it is a positive number of denominations under a new commitment and the depositor holds amount and fee above the deposit |
| MixerRuns.WithdrawalAcceptedExactly | pallets/buryad-mongol-mixer/src/lib.rs:396-435 | A withdrawal iff it is a positive number of denominations, its commitment in the pool, its nullifier fresh and the pool able to pay |
| MixerRuns.MixerFeeSplit | pallets/buryad-mongol-mixer/src/lib.rs:167-172 | The shares exhaust the fee, the Khural gets at least 54 %, the fee respects its cap and is within one planck of the two rates together |
| MixerPallet.Pallet.Deposit | pallets/buryad-mongol-mixer/src/lib.rs:290-386 | Five transfers and three writes, or none |
| MixerPallet.Pallet.PayOut | pallets/buryad-mongol-mixer/src/lib.rs:324-371 | Skipping empty shares changes nothing; a failed transfer restores the ledger |
| MixerPallet.Pallet.Withdraw | pallets/buryad-mongol-mixer/src/lib.rs:396-435 | A failed payout leaves commitment, nullifier and counter as they were |
| MixerPallet.Pallet.Execute | pallets/buryad-mongol-mixer/src/lib.rs:290-439 | The methods run one after another leave exactly the storage the run of transitions ends in |
| MixerPallet.ChainFromEmpty | pallets/buryad-mongol-mixer/src/lib.rs:290-439 | A chain started from an empty mixer ends with exact counters and a pool moved by whole denominations |
| AccessNftRuns.IndexesStayExact | pallets/access-nft/src/lib.rs:382-531 | In every run each list names exactly the keys of its holder or entity, once, in order of issue |
| AccessNftRuns.ScanDecidesAccess | pallets/access-nft/src/lib.rs:565-579 | Scanning a holder's list finds a key iff the whole table holds one that opens the portal |
| AccessNftRuns.ScanDecidesSbt | pallets/access-nft/src/lib.rs:584-604 | Likewise for the dual binding |
| AccessNftRuns.SbtImpliesAccess | pallets/access-nft/src/lib.rs:565-604 | A verified dual binding implies access |
| AccessNftRuns.AccessExactlyAsGranted | pallets/access-nft/src/lib.rs:382-579 | Over any run from an empty registry an account may pass iff some accepted call granted it these portals at this entity and its issuer has not revoked that key since |
| AccessNftRuns.IssueGrantsExactly | pallets/access-nft/src/lib.rs:382-604 | An issued key adds for its holder exactly the portals asked for at its entity, the dual binding only if bound and for its organisation, and nothing for anybody else |
| AccessNftRuns.IssueGivesRole | pallets/access-nft/src/lib.rs:469-621 | A bound key gives its holder its role in its organisation unless an older live one does |
| AccessNftRuns.RevokedExactlyByIssuer | pallets/access-nft/src/lib.rs:541-556 | Over any run a key changes in nothing but revocation, and ends revoked iff it was or its issuer asked |
| AccessNftRuns.CreatorCannotRevoke | pallets/access-nft/src/lib.rs:533-550 | A run in which an account that did not issue a key asks to revoke it and access remains |
| AccessNftRuns.AccessOutlivesRun | pallets/access-nft/src/lib.rs:541-579 | Access lasts through every run in which the granting key's issuer does not revoke it |
| AccessNftPallet.Pallet.IssueAccessKey | pallets/access-nft/src/lib.rs:382-455 | Mints and lists a key, or leaves storage untouched |
| AccessNftPallet.Pallet.IssueSbtKey | pallets/access-nft/src/lib.rs:469-531 | Likewise for a bound key |
| AccessNftPallet.Pallet.Store | pallets/access-nft/src/lib.rs:435-446 | A full list undoes counter, table and lists |
| AccessNftPallet.Pallet.RevokeAccessKey | pallets/access-nft/src/lib.rs:541-556 | Only the issuer, once |
| AccessNftPallet.Pallet.CheckAccess | pallets/access-nft/src/lib.rs:565-579 | True iff some live key in the table grants access |
| AccessNftPallet.Pallet.VerifySbt | pallets/access-nft/src/lib.rs:584-604 | True iff some live bound key in the table matches |
| AccessNftPallet.Pallet.GetHrRole | pallets/access-nft/src/lib.rs:608-621 | Answers the role of the holder's oldest live bound key, or none iff there is none |
| AccessNftPallet.Pallet.Execute | pallets/access-nft/src/lib.rs:382-556 | The methods run one after another leave the storage of the run, and exact lists stay exact, so the scans keep deciding access |
| AccessNftPallet.ChainFromEmpty | pallets/access-nft/src/lib.rs:382-556 | A chain started from an empty registry ends with exact lists |
| ProfitTaxRuns.CurrentYearInvertsYearStart | pallets/annual-profit-tax/src/lib.rs:311-336 | Every second of a year from 2026 on is read as that year |
| ProfitTaxRuns.AcceptedYearExactly | pallets/annual-profit-tax/src/lib.rs:438-447 | The three guards accept exactly the year the clock has reached, even where the 32-bit cast wraps |
| ProfitTaxRuns.OnTimeExactly | pallets/annual-profit-tax/src/lib.rs:322-355 | On time implies zero late days; the two disagree exactly on the day between the window's end and the start of lateness, or before the year |
| ProfitTaxRuns.GapDayFiling | pallets/annual-profit-tax/src/lib.rs:318-355 | A filing accepted and paid that is not on time and bears no penalty |
| ProfitTaxRuns.CapNeverClips | pallets/annual-profit-tax/src/lib.rs:343-355 | The 259-day cap never clips an accepted filing |
| ProfitTaxRuns.LateDaysExactly | pallets/annual-profit-tax/src/lib.rs:343-355 | A filing counts as d days late iff it falls on the d-th day after the 106th day of its year, the last second of the year as 259 |
| ProfitTaxRuns.FilingCosts | pallets/annual-profit-tax/src/lib.rs:364-540 | From the second of an accepted filing: base at the family's rate, five per cent once late, five per cent a year for each late day, 70 % to the region, charged to the organisation |
| ProfitTaxRuns.FilingAcceptedExactly | pallets/annual-profit-tax/src/lib.rs:421-540 | A filing is accepted iff treasuries are set, the profit is positive, the year is the one the clock has reached and not yet filed, and both shares can be paid |
| ProfitTaxRuns.WidthExactly | pallets/annual-profit-tax/src/lib.rs:454-499 | The checked sums fit iff profit times rate and five times base times late days do; the later checks never fire |
| ProfitTaxRuns.TaxMonotone | pallets/annual-profit-tax/src/lib.rs:456-488 | A filing with no smaller profit and no earlier date never costs less |
| ProfitTaxRuns.AssessmentExact | pallets/annual-profit-tax/src/lib.rs:364-488 | Each part is the floor of its percentage, and penalties fall only on late days |
| ProfitTaxRuns.TaxBounded | pallets/annual-profit-tax/src/lib.rs:364-384 | Total tax is at most base plus both maximal penalties, and splits with no planck lost, 70 % to within one |
| ProfitTaxRuns.FilingExact | pallets/annual-profit-tax/src/lib.rs:421-540 | An accepted filing debits exactly its total, credits the treasuries their shares, conserves issuance and stores the assessment |
| ProfitTaxRuns.FiledAtMostOnce | pallets/annual-profit-tax/src/lib.rs:449-452 | Over any run a year is paid for at most once, a stored record never changes, and a record appears iff exactly one filing succeeded |
| ProfitTaxPallet.Pallet.ComputePeni | pallets/annual-profit-tax/src/lib.rs:364-377 | An answer iff no day is late or both products fit the width, and then the floor of five per cent a year for the days late |
| ProfitTaxPallet.Pallet.ComputeShtraf | pallets/annual-profit-tax/src/lib.rs:380-384 | An answer iff five times the base fits the width, and then the floor of five per cent of it |
| ProfitTaxPallet.Pallet.AssessFiling | pallets/annual-profit-tax/src/lib.rs:454-499 | The checked steps succeed exactly when the assessment fits the width, and give it |
| ProfitTaxPallet.Pallet.DeclareAnnualProfit | pallets/annual-profit-tax/src/lib.rs:421-540 | Two transfers and one record, or nothing |
| ProfitTaxPallet.Pallet.SetRegionalTreasury | pallets/annual-profit-tax/src/lib.rs:550-559 | Replaces the account and nothing else |
| ProfitTaxPallet.Pallet.SetConfederationTreasury | pallets/annual-profit-tax/src/lib.rs:563-572 | Replaces the account and nothing else |
| ProfitTaxPallet.Pallet.Execute | pallets/annual-profit-tax/src/lib.rs:421-572 | The methods run one after another leave exactly the storage the run of transitions ends in |
| ProfitTaxPallet.ChainFromEmpty | pallets/annual-profit-tax/src/lib.rs:421-540 | A chain started from an empty pallet holds a record exactly for the years filed once |
| AchievementNftRuns.ReserveBacksRewards | pallets/achievement-nft/src/lib.rs:372-470 | In every run the treasury's reserve is its opening reserve plus the unredeemed rewards, and free plus reserved money is conserved |
| AchievementNftRuns.EveryRunFromEmpty | pallets/achievement-nft/src/lib.rs:309-470 | From an empty registry, over every run: the treasury's reserve is what it was plus the unredeemed rewards, and free plus reserved money is the issuance |
| AchievementNftRuns.UnreserveIsFull | pallets/achievement-nft/src/lib.rs:448-455 | The reserve covers every unredeemed reward in full |
| AchievementNftRuns.RedemptionSucceedsExactly | pallets/achievement-nft/src/lib.rs:437-470 | A redemption succeeds iff the caller holds an unredeemed reward and the existential deposits allow the transfer |
| AchievementNftRuns.RedemptionPaysInFull | pallets/achievement-nft/src/lib.rs:448-463 | The holder gains the full value, out of the reserve and not of free funds |
| AchievementNftRuns.RewardKeepsItsHolder | pallets/achievement-nft/src/lib.rs:309-470 | Whatever happens after a token is minted, only the holder named at issue redeems a reward, once, for the amount named at issue; a badge nobody redeems |
| AchievementNftRuns.RedeemedAtMostOnce | pallets/achievement-nft/src/lib.rs:447-463 | Over any run a token pays at most once |
| AchievementNftPallet.Pallet.AwardAchievement | pallets/achievement-nft/src/lib.rs:309-351 | Mints a worthless badge, or nothing |
| AchievementNftPallet.Pallet.IssueRewardNft | pallets/achievement-nft/src/lib.rs:372-420 | A refused mint gives the reserve back |
| AchievementNftPallet.Pallet.Store | pallets/achievement-nft/src/lib.rs:404-409 | A full list undoes the mint |
| AchievementNftPallet.Pallet.RedeemRewardNft | pallets/achievement-nft/src/lib.rs:437-470 | A refused transfer puts the reserve back |
| AchievementNftPallet.Pallet.Execute | pallets/achievement-nft/src/lib.rs:309-470 | The methods run one after another leave exactly the storage the run of transitions ends in |
| AchievementNftPallet.ChainFromEmpty | pallets/achievement-nft/src/lib.rs:309-470 | A chain started from an empty registry ends with its rewards covered and no money created |
| AltanTax.FeeSubadditive | pallets/altan-tax/src/lib.rs:238-250 | Splitting a transfer costs at most one planck less than the whole, and below the cap never saves the other way |
| AltanTax.FeeExact | pallets/altan-tax/src/lib.rs:238-250 | The fee is the floor of 0.03 % below the cap, and the cap exactly from where that reaches it |
| AltanTax.FeeSplit | pallets/altan-tax/src/lib.rs:255-274 | The shares exhaust the fee: the floors of 36 % and 10 %, and the rest, at least 54 %, to the Khural |
| AltanTax.TransferWithFeeExact | pallets/altan-tax/src/lib.rs:223-299 | Issuance stands, the recipient gains exactly the amount, a distinct sender loses exactly amount plus fee, a Khural that is not the sender gains at least 54 % of it |
| AltanTax.TransferFlows | pallets/altan-tax/src/lib.rs:223-299 | Where every planck of a transfer goes, for every account and however the recipients coincide: 36 % and 10 % of the fee rounded down, the rest to the Khural |
| AltanTax.AcceptedExactly | pallets/altan-tax/src/lib.rs:223-299 | A sender other than the recipients is accepted iff the treasuries are set, the sums fit and it holds amount and fee above the deposit |
| AltanTax.KhuralCollects | pallets/altan-tax/src/lib.rs:223-299 | Over any run in which the Khural signs nothing, money is conserved and the Khural gains at least 54 % of all fees taken |
| AltanTaxPallet.Pallet.TransferWithFee | pallets/altan-tax/src/lib.rs:223-299 | Four transfers in sequence, or none |
| AltanTaxPallet.Pallet.Execute | pallets/altan-tax/src/lib.rs:223-299 | The method run again and again leaves exactly the ledger the run of transitions ends in |
| AltanTaxPallet.ChainFrom | pallets/altan-tax/src/lib.rs:223-299 | A chain of taxed transfers conserves money and pays the Khural its part |
| FeeRouting.RouteConserves | pallets/altan-tax/src/lib.rs:276-299 | A sequence of payments conserves issuance and moves exactly what each names |
| FeeRouting.RouteSucceedsExactly | pallets/altan-tax/src/lib.rs:276-299 | A sequence of payments to live others succeeds iff the sender holds their sum above the deposit |

## Left out

- Node, RPC, chain specification, runtime wiring, benchmarks and weights.
- Events as such; the ones that report amounts are kept as the record over which totals are taken.
- Origin checks: calls arrive with the account that signed, and privileged calls already authorised.
- Signature verification, hashing and address derivation, which are parameters; `PalletId` accounts.
- Dust: an account drained below the existential deposit keeps its remainder in the model; reserved
  balances appear only where rewards use them.
- Locks and reserves set by other pallets; within bank-of-siberia an account under a lock smaller than
  the existential deposit may be drained to the lock, where the runtime may insist on the deposit.
- Solvency of the treasury and the mixer pool: loans and withdrawals are paid from the same pot, and
  a withdrawal is not tied to the size of its deposit.
- Widths of the balances and collateral sums of bank-of-siberia, of the mixer's counter and of token ids.
- Wholesale credit as seen by bank-of-siberia: the central bank's decision is a parameter there; the
  central bank's own side is modelled in `CentralBank.dfy`, and the two are not composed.
- Genesis distribution of the central bank, which creates proxy accounts.
- Mixer audit log and quarterly audits, RWA assessments and freeze requests: single writes or events.
- Lists of achievement ids per holder: kept, but not proved exact, being the access-key case again.
- pallets/black-book, altan-vault and the registries without money.
- CentralBankRuns.RateAtEnds: assumes the configured rates are in order and their hundredfold fits 32 bits, as in the runtime.
- BankOfSiberiaTreasury.TreasuryKeepsDoubleEntry: speaks of amounts reported by events, not of a stored total, because storage keeps none.
- BankOfSiberiaRecords.WithdrawalExact: keeps dust in the account, where the runtime would reap a
  sub-account drained below the existential deposit and leave its record behind.
- BankOfSiberiaTreasury.StepNeverIssues: likewise, dust reaped by the runtime would leave issuance.
