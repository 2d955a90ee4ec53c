/** pallet-bank-operator: collateral contracts, credits minted against them, lazily accrued
    interest, and repayment that pays interest to the bank and burns principal.

    Every dispatchable is a function from storage to storage. `now` is the current block;
    signed origins are passed as the account that signed. */
module BankOperator {
  import opened Prelude
  import opened Currency

  // ---------------------------------------------------------------- credit rating

  datatype CreditTier = Excellent | Good | Fair | BelowFair | Poor {
    function AnnualRateBps(): nat {
      match this
      case Excellent => 0
      case Good => 300
      case Fair => 700
      case BelowFair => 1_000
      case Poor => 1_500
    }

    /** Annual rate over 365 days, rounded up. */
    function DailyRateBps(): nat {
      if AnnualRateBps() == 0 then 0 else (AnnualRateBps() + 364) / 365
    }
  }

  function TierOf(score: nat): CreditTier {
    if 750 <= score <= 850 then Excellent
    else if 700 <= score <= 749 then Good
    else if 650 <= score <= 699 then Fair
    else if 600 <= score <= 649 then BelowFair
    else Poor
  }

  datatype ScoreRecord = ScoreRecord(score: nat, repaid: nat, defaulted: nat) {
    function FullRepayment(): ScoreRecord { ScoreRecord(Min(score + 20, 850), repaid + 1, defaulted) }

    function PartialRepayment(): ScoreRecord { this.(score := Min(score + 5, 850)) }

    function DefaultPenalty(): ScoreRecord {
      ScoreRecord(if score < 400 then 300 else score - 100, repaid, defaulted + 1)
    }
  }

  const NEW_RECORD := ScoreRecord(650, 0, 0)

  // ---------------------------------------------------------------- storage

  datatype AssetType = AltanCoin | Land | NaturalResource | Infrastructure

  datatype CollateralStatus = Locked | Backing | Released  // `Backing` is the source's `Active`

  datatype CreditStatus = Active | Repaid | Defaulted

  datatype Collateral = Collateral(
    citizen: Account, asset: AssetType, amount: nat, fee: nat, net: nat,
    createdAt: nat, status: CollateralStatus, requested: bool)

  datatype Credit = Credit(
    citizen: Account, collateralId: nat, amount: nat, outstanding: nat, accrued: nat,
    issuedAt: nat, lastInterestBlock: nat, tier: CreditTier, status: CreditStatus)

  datatype Event =
    | CreditIssued(id: nat, amount: nat)
    | CreditRepaid(id: nat, principalBurned: nat, interestPaid: nat)

  datatype Storage = Storage(
    collaterals: map<nat, Collateral>, nextCollateral: nat,
    credits: map<nat, Credit>, nextCredit: nat,
    bank: Option<Account>, totalOutstanding: nat,
    scores: map<Account, ScoreRecord>,
    ledger: Ledger, events: seq<Event>)
  {
    function ScoreOf(a: Account): ScoreRecord { if a in scores then scores[a] else NEW_RECORD }
  }

  datatype Config = Config(multiplier: nat, period: nat)

  datatype Error =
    | BankAccountNotConfigured | CollateralNotFound | CreditNotFound | InvalidCollateralStatus
    | CreditNotActive | InsufficientBalance | NotCreditOwner | ZeroRepayment | ZeroCollateral
    | CreditNotRequested | NotCollateralOwner | CreditAlreadyRequested | InvalidReserveMultiplier
    | TransferRefused

  // ---------------------------------------------------------------- interest

  function Periods(from: nat, to: nat, period: nat): nat {
    if period == 0 || to <= from then 0 else (to - from) / period
  }

  /** Interest since the last accrual: whole periods only, floored, saturating at `u128`. */
  function AccruedSince(c: Credit, now: nat, period: nat): nat {
    SatMul(SatMul(c.outstanding, c.tier.DailyRateBps()), Periods(c.lastInterestBlock, now, period)) / 10_000
  }

  // ---------------------------------------------------------------- dispatchables

  function LockCollateral(s: Storage, now: nat, citizen: Account, amount: nat, asset: AssetType): Outcome<Storage, Error> {
    var _ :- Need(amount > 0, ZeroCollateral);
    var bank :- s.bank.OrErr(BankAccountNotConfigured);
    var ledger :- s.ledger.Transfer(citizen, bank, amount, KeepAlive).OrErr(InsufficientBalance);
    var fee := amount / 10;
    Ok(s.(collaterals := s.collaterals[s.nextCollateral :=
            Collateral(citizen, asset, amount, fee, amount - fee, now, Locked, false)],
          nextCollateral := s.nextCollateral + 1,
          ledger := ledger))
  }

  function RequestCredit(s: Storage, citizen: Account, id: nat): Outcome<Storage, Error> {
    var _ :- Need(id in s.collaterals, CollateralNotFound);
    var col := s.collaterals[id];
    var _ :- Need(col.citizen == citizen, NotCollateralOwner);
    var _ :- Need(col.status == Locked, InvalidCollateralStatus);
    var _ :- Need(!col.requested, CreditAlreadyRequested);
    Ok(s.(collaterals := s.collaterals[id := col.(requested := true)]))
  }

  function IssueCredit(cfg: Config, s: Storage, now: nat, id: nat): Outcome<Storage, Error> {
    var _ :- Need(cfg.multiplier == 9, InvalidReserveMultiplier);
    var _ :- Need(id in s.collaterals, CollateralNotFound);
    var col := s.collaterals[id];
    var _ :- Need(col.status == Locked, InvalidCollateralStatus);
    var _ :- Need(col.requested, CreditNotRequested);
    var amount := SatMul(col.net, cfg.multiplier);
    var record := s.ScoreOf(col.citizen);
    Ok(s.(scores := s.scores[col.citizen := record],
          ledger := s.ledger.DepositCreating(col.citizen, amount),
          collaterals := s.collaterals[id := col.(status := Backing)],
          credits := s.credits[s.nextCredit :=
            Credit(col.citizen, id, amount, amount, 0, now, now, TierOf(record.score), Active)],
          nextCredit := s.nextCredit + 1,
          totalOutstanding := SatAdd(s.totalOutstanding, amount),
          events := s.events + [CreditIssued(s.nextCredit, amount)]))
  }

  /** Anyone may trigger it; nothing is stored when no interest is due. */
  function AccrueInterest(cfg: Config, s: Storage, now: nat, id: nat): Outcome<Storage, Error> {
    var _ :- Need(id in s.credits, CreditNotFound);
    var c := s.credits[id];
    var _ :- Need(c.status == Active, CreditNotActive);
    var due := AccruedSince(c, now, cfg.period);
    if due == 0 then Ok(s)
    else Ok(s.(credits := s.credits[id := c.(accrued := SatAdd(c.accrued, due), lastInterestBlock := now)]))
  }

  /** The credit as a repayment first brings it up to date. */
  function UpToDate(cfg: Config, c: Credit, now: nat): Credit {
    c.(accrued := SatAdd(c.accrued, AccruedSince(c, now, cfg.period)), lastInterestBlock := now)
  }

  function InterestPart(c: Credit, amount: nat): nat { Min(c.accrued, amount) }

  function PrincipalPart(c: Credit, amount: nat): nat { Min(amount - InterestPart(c, amount), c.outstanding) }

  function Reduce(c: Credit, amount: nat): Credit {
    c.(accrued := c.accrued - InterestPart(c, amount), outstanding := c.outstanding - PrincipalPart(c, amount))
  }

  predicate Settled(c: Credit) { c.outstanding == 0 && c.accrued == 0 }

  /** A record is written back only when the score itself moved. */
  function Rescore(s: Storage, citizen: Account, settled: bool, burned: nat): map<Account, ScoreRecord> {
    var before := s.ScoreOf(citizen);
    var record := if settled then before.FullRepayment() else if burned > 0 then before.PartialRepayment() else before;
    if record.score != before.score then s.scores[citizen := record] else s.scores
  }

  function RepayCredit(cfg: Config, s: Storage, now: nat, citizen: Account, id: nat, amount: nat): Outcome<Storage, Error> {
    var _ :- Need(amount > 0, ZeroRepayment);
    var _ :- Need(id in s.credits, CreditNotFound);
    var _ :- Need(s.credits[id].citizen == citizen, NotCreditOwner);
    var _ :- Need(s.credits[id].status == Active, CreditNotActive);
    var bank :- s.bank.OrErr(BankAccountNotConfigured);
    var due := UpToDate(cfg, s.credits[id], now);
    var interest, principal := InterestPart(due, amount), PrincipalPart(due, amount);
    var paid :- s.ledger.Transfer(citizen, bank, interest, KeepAlive).OrErr(InsufficientBalance);
    var burned :- paid.Burn(citizen, principal).OrErr(InsufficientBalance);
    var left := Reduce(due, amount);
    var t := s.(ledger := burned,
                totalOutstanding := SatSub(s.totalOutstanding, principal),
                scores := Rescore(s, citizen, Settled(left), principal),
                events := s.events + [CreditRepaid(id, principal, interest)]);
    if !Settled(left) then Ok(t.(credits := s.credits[id := left])) else
    var _ :- Need(left.collateralId in s.collaterals, CollateralNotFound);
    var col := s.collaterals[left.collateralId];
    var returned :- burned.Transfer(bank, citizen, col.net, KeepAlive).OrErr(InsufficientBalance);
    Ok(t.(ledger := returned,
          credits := s.credits[id := left.(status := Repaid)],
          collaterals := s.collaterals[left.collateralId := col.(status := Released)]))
  }

  function DeclareDefault(s: Storage, id: nat): Outcome<Storage, Error> {
    var _ :- Need(id in s.credits, CreditNotFound);
    var c := s.credits[id];
    var _ :- Need(c.status == Active, CreditNotActive);
    Ok(s.(credits := s.credits[id := c.(status := Defaulted)],
          scores := s.scores[c.citizen := s.ScoreOf(c.citizen).DefaultPenalty()]))
  }

  /** A transfer made by any other pallet on the shared currency. */
  function ForeignTransfer(s: Storage, from: Account, to: Account, amount: nat): Outcome<Storage, Error> {
    var ledger :- s.ledger.Transfer(from, to, amount, KeepAlive).OrErr(TransferRefused);
    Ok(s.(ledger := ledger))
  }

  // ---------------------------------------------------------------- runs

  datatype Call =
    | SetBank(account: Account)
    | Lock(citizen: Account, amount: nat, asset: AssetType)
    | Request(citizen: Account, id: nat)
    | Issue(id: nat)
    | Accrue(id: nat)
    | Repay(citizen: Account, id: nat, amount: nat)
    | Default(id: nat)
    | Foreign(from: Account, to: Account, amount: nat)

  datatype Timed = At(now: nat, call: Call)

  function Dispatch(cfg: Config, s: Storage, now: nat, call: Call): Outcome<Storage, Error> {
    match call
    case SetBank(account) => Ok(s.(bank := Some(account)))
    case Lock(citizen, amount, asset) => LockCollateral(s, now, citizen, amount, asset)
    case Request(citizen, id) => RequestCredit(s, citizen, id)
    case Issue(id) => IssueCredit(cfg, s, now, id)
    case Accrue(id) => AccrueInterest(cfg, s, now, id)
    case Repay(citizen, id, amount) => RepayCredit(cfg, s, now, citizen, id, amount)
    case Default(id) => DeclareDefault(s, id)
    case Foreign(from, to, amount) => ForeignTransfer(s, from, to, amount)
  }

  /** A failed dispatch leaves the storage as it was. */
  function Step(cfg: Config, s: Storage, now: nat, call: Call): Storage {
    match Dispatch(cfg, s, now, call)
    case Ok(t) => t
    case Err(_) => s
  }

  function Run(cfg: Config, s: Storage, calls: seq<Timed>): Storage
    decreases |calls|
  {
    if calls == [] then s else Run(cfg, Step(cfg, s, calls[0].now, calls[0].call), calls[1..])
  }

  function Fresh(ledger: Ledger, bank: Option<Account>): Storage {
    Storage(map[], 0, map[], 0, bank, 0, map[], ledger, [])
  }

  /** Blocks never go back. */
  predicate Chronological(now: nat, calls: seq<Timed>)
    decreases |calls|
  {
    calls == [] || (now <= calls[0].now && Chronological(calls[0].now, calls[1..]))
  }

  function LastBlock(now: nat, calls: seq<Timed>): nat {
    if calls == [] then now else calls[|calls| - 1].now
  }

  // ---------------------------------------------------------------- totals over events

  datatype Measure = Minted | Burned | Interest | InterestOn(credit: nat)

  function Reading(m: Measure, e: Event): nat {
    match e
    case CreditIssued(_, amount) => if m.Minted? then amount else 0
    case CreditRepaid(id, principal, interest) =>
      if m.Burned? then principal
      else if m.Interest? || m == InterestOn(id) then interest
      else 0
  }

  function Total(m: Measure, events: seq<Event>): nat {
    if events == [] then 0 else Total(m, events[..|events| - 1]) + Reading(m, events[|events| - 1])
  }

  lemma TotalAppend(m: Measure, events: seq<Event>, e: Event)
    ensures Total(m, events + [e]) == Total(m, events) + Reading(m, e)
  {
    assert (events + [e])[..|events|] == events;
  }
}
