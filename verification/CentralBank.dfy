/** pallet-central-bank: licensed minting and burning, and the rotating credit pool with its
    epochs, per-operator debts and two-phase key rate. */
module CentralBank {
  import opened Prelude
  import opened Currency

  datatype Epoch = Epoch(startBlock: nat, keyRate: nat, issued: nat, repaid: nat, limit: nat)

  datatype Storage = Storage(
    licensed: set<Account>, emitted: nat, burned: nat, nextTranche: nat,
    epochId: nat, epochs: map<nat, Epoch>,
    debt: map<(Account, nat), nat>, totalDebt: map<Account, nat>,
    available: nat, outstanding: nat, baseRate: nat,
    ledger: Ledger)
  {
    function DebtOf(o: Account, e: nat): nat { if (o, e) in debt then debt[(o, e)] else 0 }

    function TotalDebtOf(o: Account): nat { if o in totalDebt then totalDebt[o] else 0 }
  }

  datatype Parameters = Parameters(limit: nat, optimalRate: nat, maxRate: nat, optimalUtilization: nat)

  /** The rate curve divides by the optimal utilisation. */
  type Config = c: Parameters | c.optimalUtilization > 0 && c.limit <= U128_MAX witness Parameters(0, 0, 0, 1)

  datatype Error =
    | AlreadyLicensed | AlreadyRevoked | ZeroAmount | NotLicensedOperator | ArithmeticOverflow
    | InsufficientOperatorBalance | RateExceedsMax | CreditPoolExhausted | EpochNotFound
    | InsufficientDebt | InsufficientBalance | InvalidRegion | TransferFailed

  const GENESIS_GRANT := 100_000_000_000_000

  // ---------------------------------------------------------------- the rate curve

  function Sat32(n: nat): nat { Min(n, U32_MAX) }

  /** Percentage of the pool lent out; a value too large for `u32` reads as zero. */
  function Utilization(cfg: Config, outstanding: nat): nat
    requires cfg.limit > 0
  {
    var percent := Quotient(SatMul(outstanding, 100), cfg.limit);
    if percent <= U32_MAX then percent else 0
  }

  /** `part * rate / whole`, with the product saturating at `u32`. */
  function Share(part: nat, rate: nat, whole: nat): nat
    requires whole > 0
  {
    Quotient(Sat32(part * rate), whole)
  }

  /** Linear up to the optimal utilisation, then steeper towards the protective maximum. */
  function RateAt(cfg: Config, percent: nat): nat {
    var u := cfg.optimalUtilization;
    if percent <= u then Share(percent, cfg.optimalRate, u)
    else if u >= 100 then cfg.maxRate
    else Sat32(cfg.optimalRate + Share(percent - u, SatSub(cfg.maxRate, cfg.optimalRate), 100 - u))
  }

  function DynamicRate(cfg: Config, outstanding: nat): nat {
    if cfg.limit == 0 || outstanding == 0 then 0 else RateAt(cfg, Utilization(cfg, outstanding))
  }

  // ---------------------------------------------------------------- dispatchables

  function GrantLicense(s: Storage, operator: Account): Outcome<Storage, Error> {
    var _ :- Need(operator !in s.licensed, AlreadyLicensed);
    Ok(s.(licensed := s.licensed + {operator}))
  }

  function RevokeLicense(s: Storage, operator: Account): Outcome<Storage, Error> {
    var _ :- Need(operator in s.licensed, AlreadyRevoked);
    Ok(s.(licensed := s.licensed - {operator}))
  }

  function MintToOperator(s: Storage, operator: Account, amount: nat): Outcome<Storage, Error> {
    var _ :- Need(amount > 0, ZeroAmount);
    var _ :- Need(operator in s.licensed, NotLicensedOperator);
    var _ :- Need(s.emitted + amount <= U128_MAX, ArithmeticOverflow);
    Ok(s.(ledger := s.ledger.DepositCreating(operator, amount),
          nextTranche := s.nextTranche + 1,
          emitted := s.emitted + amount))
  }

  function BurnFromOperator(s: Storage, operator: Account, amount: nat): Outcome<Storage, Error> {
    var _ :- Need(amount > 0, ZeroAmount);
    var _ :- Need(operator in s.licensed, NotLicensedOperator);
    var _ :- Need(s.ledger.Free(operator) >= amount, InsufficientOperatorBalance);
    var ledger :- s.ledger.Burn(operator, amount).OrErr(InsufficientOperatorBalance);
    var _ :- Need(s.burned + amount <= U128_MAX, ArithmeticOverflow);
    Ok(s.(ledger := ledger, burned := s.burned + amount))
  }

  function TransitionEpoch(cfg: Config, s: Storage, now: nat): Storage {
    var next := s.epochId + 1;
    s.(epochs := s.epochs[next := Epoch(now, DynamicRate(cfg, s.outstanding), 0, 0, cfg.limit)], epochId := next)
  }

  function SetBaseRate(cfg: Config, s: Storage, rate: nat): Outcome<Storage, Error> {
    var _ :- Need(rate <= cfg.maxRate, RateExceedsMax);
    Ok(s.(baseRate := rate))
  }

  function Retag(epochs: map<nat, Epoch>, e: nat, rate: nat): map<nat, Epoch>
    requires e in epochs
  {
    epochs[e := epochs[e].(keyRate := rate)]
  }

  function RequestCredit(cfg: Config, s: Storage, operator: Account, amount: nat): Outcome<Storage, Error> {
    var _ :- Need(amount > 0, ZeroAmount);
    var _ :- Need(operator in s.licensed, NotLicensedOperator);
    var _ :- Need(s.available >= amount, CreditPoolExhausted);
    var e := s.epochId;
    var _ :- Need(e in s.epochs, EpochNotFound);
    var outstanding := SatAdd(s.outstanding, amount);
    var epochs := s.epochs[e := s.epochs[e].(issued := SatAdd(s.epochs[e].issued, amount))];
    Ok(s.(available := s.available - amount,
          outstanding := outstanding,
          ledger := s.ledger.DepositCreating(operator, amount),
          epochs := Retag(epochs, e, DynamicRate(cfg, outstanding)),
          debt := s.debt[(operator, e) := SatAdd(s.DebtOf(operator, e), amount)],
          totalDebt := s.totalDebt[operator := SatAdd(s.TotalDebtOf(operator), amount)]))
  }

  function RepayCredit(cfg: Config, s: Storage, operator: Account, e: nat, amount: nat): Outcome<Storage, Error> {
    var _ :- Need(amount > 0, ZeroAmount);
    var _ :- Need(e in s.epochs, EpochNotFound);
    var _ :- Need(s.DebtOf(operator, e) >= amount, InsufficientDebt);
    var _ :- Need(s.ledger.Free(operator) >= amount, InsufficientBalance);
    var ledger :- s.ledger.Burn(operator, amount).OrErr(InsufficientBalance);
    var outstanding := SatSub(s.outstanding, amount);
    var epochs := s.epochs[e := s.epochs[e].(repaid := SatAdd(s.epochs[e].repaid, amount))];
    var _ :- Need(s.epochId in epochs, EpochNotFound);
    Ok(s.(ledger := ledger,
          debt := s.debt[(operator, e) := SatSub(s.DebtOf(operator, e), amount)],
          totalDebt := s.totalDebt[operator := SatSub(s.TotalDebtOf(operator), amount)],
          available := Min(SatAdd(s.available, amount), cfg.limit),
          outstanding := outstanding,
          epochs := Retag(epochs, s.epochId, DynamicRate(cfg, outstanding))))
  }

  function IssueGenesisGrant(s: Storage, citizen: Account, knownRegion: bool): Outcome<Storage, Error> {
    var _ :- Need(knownRegion, InvalidRegion);
    var _ :- Need(s.emitted + GENESIS_GRANT <= U128_MAX, ArithmeticOverflow);
    Ok(s.(ledger := s.ledger.DepositCreating(citizen, GENESIS_GRANT), emitted := s.emitted + GENESIS_GRANT))
  }

  function TransferByOthers(s: Storage, from: Account, to: Account, amount: nat): Outcome<Storage, Error> {
    var ledger :- s.ledger.Transfer(from, to, amount, KeepAlive).OrErr(TransferFailed);
    Ok(s.(ledger := ledger))
  }

  // ---------------------------------------------------------------- runs

  datatype Call =
    | Grant(operator: Account)
    | Revoke(operator: Account)
    | Mint(operator: Account, amount: nat)
    | Burn(operator: Account, amount: nat)
    | NextEpoch
    | BaseRate(rate: nat)
    | Request(operator: Account, amount: nat)
    | Repay(operator: Account, epoch: nat, amount: nat)
    | GenesisGrant(citizen: Account, knownRegion: bool)
    | Foreign(from: Account, to: Account, amount: nat)

  datatype Timed = At(now: nat, call: Call)

  function Dispatch(cfg: Config, s: Storage, now: nat, call: Call): Outcome<Storage, Error> {
    match call
    case Grant(operator) => GrantLicense(s, operator)
    case Revoke(operator) => RevokeLicense(s, operator)
    case Mint(operator, amount) => MintToOperator(s, operator, amount)
    case Burn(operator, amount) => BurnFromOperator(s, operator, amount)
    case NextEpoch => Ok(TransitionEpoch(cfg, s, now))
    case BaseRate(rate) => SetBaseRate(cfg, s, rate)
    case Request(operator, amount) => RequestCredit(cfg, s, operator, amount)
    case Repay(operator, epoch, amount) => RepayCredit(cfg, s, operator, epoch, amount)
    case GenesisGrant(citizen, knownRegion) => IssueGenesisGrant(s, citizen, knownRegion)
    case Foreign(from, to, amount) => TransferByOthers(s, from, to, amount)
  }

  function Step(cfg: Config, s: Storage, now: nat, call: Call): Storage {
    match Dispatch(cfg, s, now, call)
    case Ok(t) => t
    case Err(_) => s
  }

  function Run(cfg: Config, s: Storage, calls: seq<Timed>): Storage
    decreases |calls|
  {
    if calls == [] then s else Run(cfg, Step(cfg, s, calls[0].now, calls[0].call), calls[1..])
  }

  function Genesis(cfg: Config, ledger: Ledger, licensed: set<Account>): Storage {
    Storage(licensed, 0, 0, 0, 1, map[1 := Epoch(0, 0, 0, 0, cfg.limit)], map[], map[], cfg.limit, 0, cfg.optimalRate, ledger)
  }

  // ---------------------------------------------------------------- the pool migration

  /** Credit issued and repaid over epochs 1..n, accumulated with saturation. */
  function IssuedUpTo(epochs: map<nat, Epoch>, n: nat): nat {
    if n == 0 then 0
    else if n in epochs then SatAdd(IssuedUpTo(epochs, n - 1), epochs[n].issued)
    else IssuedUpTo(epochs, n - 1)
  }

  function RepaidUpTo(epochs: map<nat, Epoch>, n: nat): nat {
    if n == 0 then 0
    else if n in epochs then SatAdd(RepaidUpTo(epochs, n - 1), epochs[n].repaid)
    else RepaidUpTo(epochs, n - 1)
  }

  function EpochOutstanding(s: Storage): nat {
    SatSub(IssuedUpTo(s.epochs, s.epochId), RepaidUpTo(s.epochs, s.epochId))
  }

  function InitCreditPool(cfg: Config, s: Storage): Storage {
    if s.available != 0 then s
    else s.(available := SatSub(cfg.limit, EpochOutstanding(s)), outstanding := EpochOutstanding(s))
  }

  /** `try_state`, conjunct by conjunct. */
  predicate EmissionCovered(s: Storage) { s.emitted >= s.burned }

  predicate PoolWithinLimit(cfg: Config, s: Storage) {
    SatAdd(s.available, s.outstanding) <= cfg.limit && s.available <= cfg.limit
  }

  predicate TryState(cfg: Config, s: Storage) {
    EmissionCovered(s) && s.epochId > 0 && PoolWithinLimit(cfg, s)
  }
}
