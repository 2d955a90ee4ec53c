/** pallet-buryad-mongol-mixer: uniform deposits against commitments, withdrawals that burn a
    nullifier, and a capped exclusive fee split 54/26/10/10. */
module Mixer {
  import opened Prelude
  import opened Currency
  import opened FeeRouting

  type Hash = nat

  datatype CommitmentState = Active | Spent

  datatype Storage = Storage(
    commitments: map<Hash, CommitmentState>, nullifiers: map<Hash, nat>, leafCount: nat, ledger: Ledger)

  datatype Parameters = Parameters(
    pool: Account, denomination: nat, baseFee: nat, privacyFee: nat, maxFee: nat,
    khural: Account, ag: Account, creator: Account, validators: Account)

  /** Denominations are positive; fees are in parts per million. */
  type Config = c: Parameters | c.denomination > 0 witness Parameters(0, 1, 0, 0, 0, 0, 0, 0, 0)

  datatype Error =
    | DepositTooSmall | InvalidDenomination | CommitmentAlreadyExists | CommitmentNotFound
    | NullifierAlreadySpent | InsufficientFunds | PoolTransferFailed | TransferFailed

  // ---------------------------------------------------------------- fees

  /** `Permill::mul_floor`. */
  function MulFloor(parts: nat, x: nat): nat { x * parts / 1_000_000 }

  function TotalFee(cfg: Config, amount: nat): nat {
    Min(SatAdd(MulFloor(cfg.baseFee, amount), MulFloor(cfg.privacyFee, amount)), cfg.maxFee)
  }

  function AgShare(fee: nat): nat { MulFloor(260_000, fee) }

  function TenthShare(fee: nat): nat { MulFloor(100_000, fee) }

  function KhuralShare(fee: nat): nat { fee - AgShare(fee) - TenthShare(fee) - TenthShare(fee) }

  function Payments(cfg: Config, amount: nat): seq<Payment> {
    var fee := TotalFee(cfg, amount);
    [Payment(cfg.pool, amount), Payment(cfg.ag, AgShare(fee)), Payment(cfg.creator, TenthShare(fee)),
     Payment(cfg.validators, TenthShare(fee)), Payment(cfg.khural, KhuralShare(fee))]
  }

  // ---------------------------------------------------------------- dispatchables

  function Deposit(cfg: Config, s: Storage, depositor: Account, amount: nat, commitment: Hash): Outcome<Storage, Error> {
    var _ :- Need(amount >= cfg.denomination, DepositTooSmall);
    var _ :- Need(amount % cfg.denomination == 0, InvalidDenomination);
    var _ :- Need(commitment !in s.commitments, CommitmentAlreadyExists);
    var ledger :- Route(s.ledger, depositor, Payments(cfg, amount)).OrErr(InsufficientFunds);
    Ok(s.(ledger := ledger, commitments := s.commitments[commitment := Active], leafCount := s.leafCount + 1))
  }

  function Withdraw(cfg: Config, s: Storage, now: nat, nullifier: Hash, commitment: Hash, recipient: Account, amount: nat): Outcome<Storage, Error> {
    var _ :- Need(amount >= cfg.denomination, DepositTooSmall);
    var _ :- Need(amount % cfg.denomination == 0, InvalidDenomination);
    var _ :- Need(nullifier !in s.nullifiers, NullifierAlreadySpent);
    var _ :- Need(commitment in s.commitments && s.commitments[commitment] == Active, CommitmentNotFound);
    var ledger :- s.ledger.Transfer(cfg.pool, recipient, amount, KeepAlive).OrErr(PoolTransferFailed);
    Ok(s.(ledger := ledger,
          commitments := s.commitments[commitment := Spent],
          nullifiers := s.nullifiers[nullifier := now],
          leafCount := SatSub(s.leafCount, 1)))
  }

  // ---------------------------------------------------------------- runs

  datatype Call =
    | Put(depositor: Account, amount: nat, commitment: Hash)
    | Take(nullifier: Hash, commitment: Hash, recipient: Account, amount: nat)
    | Foreign(from: Account, to: Account, amount: nat)

  datatype Timed = At(now: nat, call: Call)

  function Dispatch(cfg: Config, s: Storage, now: nat, call: Call): Outcome<Storage, Error> {
    match call
    case Put(depositor, amount, commitment) => Deposit(cfg, s, depositor, amount, commitment)
    case Take(nullifier, commitment, recipient, amount) => Withdraw(cfg, s, now, nullifier, commitment, recipient, amount)
    case Foreign(from, to, amount) =>
      var ledger :- s.ledger.Transfer(from, to, amount, KeepAlive).OrErr(TransferFailed);
      Ok(s.(ledger := ledger))
  }

  function Step(cfg: Config, s: Storage, now: nat, call: Call): Storage {
    match Dispatch(cfg, s, now, call)
    case Ok(t) => t
    case Err(_) => s
  }

  function Run(cfg: Config, s: Storage, calls: seq<Timed>): Storage
    decreases |calls|
  {
    if calls == [] then s else Run(cfg, Step(cfg, s, calls[0].now, calls[0].call), calls[1..])
  }

  function Fresh(ledger: Ledger): Storage { Storage(map[], map[], 0, ledger) }
}

/** What every run of the mixer keeps. */
module MixerRuns {
  import opened Prelude
  import opened Arithmetic
  import opened Currency
  import opened Sums
  import opened FeeRouting
  import opened Mixer

  function IsActive(h: Hash, c: CommitmentState): int { if c == Active then 1 else 0 }

  function IsSpent(h: Hash, c: CommitmentState): int { if c == Spent then 1 else 0 }

  /** The leaf counter counts Active commitments, and each Spent one cost one nullifier. */
  ghost predicate Counted(s: Storage) {
    && s.leafCount == Sum(s.commitments, IsActive)
    && |s.nullifiers| == Sum(s.commitments, IsSpent)
  }

  lemma StepKeepsCounted(cfg: Config, s: Storage, now: nat, call: Call)
    requires Counted(s)
    ensures Counted(Step(cfg, s, now, call))
  {
    hide Route, Ledger.Transfer, Sum;
    if Dispatch(cfg, s, now, call).Ok? {
      match call
      case Put(_, _, commitment) =>
        SumUpdate(s.commitments, IsActive, commitment, Active);
        SumUpdate(s.commitments, IsSpent, commitment, Active);
      case Take(nullifier, commitment, _, _) =>
        SumUpdate(s.commitments, IsActive, commitment, Spent);
        SumUpdate(s.commitments, IsSpent, commitment, Spent);
        SumMember(s.commitments, IsActive, commitment);
        assert s.nullifiers[nullifier := now].Keys == s.nullifiers.Keys + {nullifier};
      case _ =>
    }
  }

  /** How far a commitment has come: unknown, in the pool, spent. */
  function Stage(s: Storage, h: Hash): nat {
    if h !in s.commitments then 0 else if s.commitments[h] == Active then 1 else 2
  }

  /** Commitments only move forward, one stage at a time, and nullifiers stay spent. */
  lemma StepMovesForward(cfg: Config, s: Storage, now: nat, call: Call)
    ensures var t := Step(cfg, s, now, call);
            && (forall h :: Stage(s, h) <= Stage(t, h) <= Stage(s, h) + 1)
            && (forall h :: Stage(s, h) < Stage(t, h) ==>
                  (Stage(s, h) == 0 && call == Put(call.depositor, call.amount, h))
                  || (Stage(s, h) == 1 && call == Take(call.nullifier, h, call.recipient, call.amount)))
            && (forall n :: n in s.nullifiers ==> n in t.nullifiers && t.nullifiers[n] == s.nullifiers[n])
  {
    hide Route, Ledger.Transfer;
  }

  /** The pool differs from its opening balance by a whole number of denominations. */
  ghost predicate WholeDenominations(cfg: Config, s: Storage, opening: int) {
    (s.ledger.Free(cfg.pool) - opening) % cfg.denomination == 0
  }

  predicate LeavesPoolAlone(cfg: Config, call: Call) {
    match call
    case Put(depositor, _, _) => depositor != cfg.pool
    case Take(_, _, _, _) => true
    case Foreign(from, to, _) => from != cfg.pool && to != cfg.pool
  }

  predicate PoolTakesNoFee(cfg: Config) {
    cfg.pool !in {cfg.khural, cfg.ag, cfg.creator, cfg.validators}
  }

  lemma PoolReceivesAmount(cfg: Config, amount: nat)
    requires PoolTakesNoFee(cfg)
    ensures ReceivedBy(Payments(cfg, amount), cfg.pool) == amount
  {
    var p := Payments(cfg, amount);
    assert ReceivedBy(p, cfg.pool) == amount + ReceivedBy(p[1..], cfg.pool);
    DistinctSenderReceivesNothing(p[1..], cfg.pool);
  }

  lemma StepKeepsWholeDenominations(cfg: Config, s: Storage, opening: int, now: nat, call: Call)
    requires WholeDenominations(cfg, s, opening) && LeavesPoolAlone(cfg, call) && PoolTakesNoFee(cfg)
    ensures WholeDenominations(cfg, Step(cfg, s, now, call), opening)
  {
    hide Route, Ledger.Transfer, ReceivedBy, Paid, Payments;
    if Dispatch(cfg, s, now, call).Ok? {
      match call
      case Put(depositor, amount, _) =>
        RouteConserves(s.ledger, depositor, Payments(cfg, amount));
        PoolReceivesAmount(cfg, amount);
        MultiplesAdd(s.ledger.Free(cfg.pool) - opening, amount, cfg.denomination);
      case Take(_, _, recipient, amount) =>
        TransferConserves(s.ledger, cfg.pool, recipient, amount, KeepAlive);
        MultiplesAdd(s.ledger.Free(cfg.pool) - opening, amount, cfg.denomination);
      case Foreign(from, to, amount) => TransferConserves(s.ledger, from, to, amount, KeepAlive);
    }
  }

  /** In every run: the counters are exact, no commitment ever goes back, no nullifier is ever
      released, and the pool moves in whole denominations. */
  lemma {:induction false} MixerInvariants(cfg: Config, s: Storage, opening: int, calls: seq<Timed>)
    requires Counted(s) && WholeDenominations(cfg, s, opening) && PoolTakesNoFee(cfg)
    requires forall i :: 0 <= i < |calls| ==> LeavesPoolAlone(cfg, calls[i].call)
    ensures var t := Run(cfg, s, calls);
            && Counted(t) && WholeDenominations(cfg, t, opening)
            && (forall h :: Stage(s, h) <= Stage(t, h))
            && (forall n :: n in s.nullifiers ==> n in t.nullifiers && t.nullifiers[n] == s.nullifiers[n])
    decreases |calls|
  {
    if calls != [] {
      var At(now, call) := calls[0];
      StepKeepsCounted(cfg, s, now, call);
      StepMovesForward(cfg, s, now, call);
      StepKeepsWholeDenominations(cfg, s, opening, now, call);
      hide Step, Counted, WholeDenominations, Stage, LeavesPoolAlone;
      MixerInvariants(cfg, Step(cfg, s, now, call), opening, calls[1..]);
    }
  }

  lemma FreshMixer(cfg: Config, ledger: Ledger)
    ensures Counted(Fresh(ledger)) && WholeDenominations(cfg, Fresh(ledger), ledger.Free(cfg.pool))
  {
    DivisionUnique(0, cfg.denomination, 0, 0);
  }

  /** From an empty mixer: leaves are the commitments in the pool, nullifiers the spent ones, and the
      pool differs from its opening balance by whole denominations. */
  lemma {:induction false} EveryRunFromEmpty(cfg: Config, ledger: Ledger, calls: seq<Timed>)
    requires PoolTakesNoFee(cfg)
    requires forall i :: 0 <= i < |calls| ==> LeavesPoolAlone(cfg, calls[i].call)
    ensures var t := Run(cfg, Fresh(ledger), calls);
            && t.leafCount == Sum(t.commitments, IsActive)
            && |t.nullifiers| == Sum(t.commitments, IsSpent)
            && (t.ledger.Free(cfg.pool) - ledger.Free(cfg.pool)) % cfg.denomination == 0
  {
    FreshMixer(cfg, ledger);
    hide Run, Sum, Fresh, LeavesPoolAlone, PoolTakesNoFee, Stage;
    MixerInvariants(cfg, Fresh(ledger), ledger.Free(cfg.pool), calls);
  }

  // ---------------------------------------------------------------- the fee

  /** The shares exhaust the fee and leave the Khural at least 54 % of it; the fee stays within its
      cap and within the two rates together. */
  lemma MixerFeeSplit(cfg: Config, amount: nat)
    ensures var fee := TotalFee(cfg, amount);
            && AgShare(fee) + 2 * TenthShare(fee) + KhuralShare(fee) == fee
            && 54 * fee <= 100 * KhuralShare(fee) < 54 * fee + 300
            && fee <= cfg.maxFee
            && fee <= MulFloor(cfg.baseFee + cfg.privacyFee, amount)
            && (fee < cfg.maxFee && fee < U128_MAX ==> MulFloor(cfg.baseFee + cfg.privacyFee, amount) <= fee + 1)
  {
    var fee := TotalFee(cfg, amount);
    ShareBounds(fee);
    FloorSum(amount * cfg.baseFee, amount * cfg.privacyFee, 1_000_000);
    assert amount * (cfg.baseFee + cfg.privacyFee) == amount * cfg.baseFee + amount * cfg.privacyFee;
  }

  /** The treasury's share is 26 % of the fee and the creator's and the validators' 10 % each, rounded
      down. */
  lemma SharesExact(fee: nat)
    ensures 100 * AgShare(fee) <= 26 * fee < 100 * AgShare(fee) + 100
    ensures 10 * TenthShare(fee) <= fee < 10 * TenthShare(fee) + 10
    ensures AgShare(fee) == fee * 26 / 100 && TenthShare(fee) == fee / 10
  {}

  lemma ShareBounds(fee: nat)
    ensures AgShare(fee) + 2 * TenthShare(fee) + KhuralShare(fee) == fee
    ensures 54 * fee <= 100 * KhuralShare(fee) < 54 * fee + 300
  {}

  /** A completed deposit conserves issuance, puts exactly the amount into the pool, debits a
      depositor who is no recipient exactly amount plus fee, and gives every fee account at least its
      share, the Khural at least 54 % of the fee. */
  lemma DepositExact(cfg: Config, s: Storage, depositor: Account, amount: nat, commitment: Hash)
    requires Deposit(cfg, s, depositor, amount, commitment).Ok? && PoolTakesNoFee(cfg)
    requires depositor !in {cfg.pool, cfg.khural, cfg.ag, cfg.creator, cfg.validators}
    ensures var l, r := s.ledger, Deposit(cfg, s, depositor, amount, commitment).value.ledger;
            && r.issuance == l.issuance && (l.Balanced() ==> r.Balanced())
            && r.Free(cfg.pool) == l.Free(cfg.pool) + amount
            && r.Free(depositor) == l.Free(depositor) - amount - TotalFee(cfg, amount)
            && r.Free(cfg.ag) >= l.Free(cfg.ag) + AgShare(TotalFee(cfg, amount))
            && r.Free(cfg.creator) >= l.Free(cfg.creator) + TenthShare(TotalFee(cfg, amount))
            && r.Free(cfg.validators) >= l.Free(cfg.validators) + TenthShare(TotalFee(cfg, amount))
            && 100 * (r.Free(cfg.khural) - l.Free(cfg.khural)) >= 54 * TotalFee(cfg, amount)
            && (cfg.khural !in {cfg.ag, cfg.creator, cfg.validators} ==>
                  r.Free(cfg.khural) == l.Free(cfg.khural) + KhuralShare(TotalFee(cfg, amount)))
  {
    var p := Payments(cfg, amount);
    RouteConserves(s.ledger, depositor, p);
    DistinctSenderReceivesNothing(p, depositor);
    PoolReceivesAmount(cfg, amount);
    PaidInAll(cfg, amount);
    ShareBounds(TotalFee(cfg, amount));
    ReceivedAtLeast(p, 1);
    ReceivedAtLeast(p, 2);
    ReceivedAtLeast(p, 3);
    ReceivedAtLeast(p, 4);
    if cfg.khural !in {cfg.ag, cfg.creator, cfg.validators} { KhuralReceivesItsShare(cfg, amount); }
    hide Route, Paid, ReceivedBy, TotalFee, AgShare, TenthShare, KhuralShare, Ledger.Balanced;
  }

  lemma FivePayments(p: seq<Payment>, a: Account)
    requires |p| == 5
    ensures Paid(p) == p[0].amount + p[1].amount + p[2].amount + p[3].amount + p[4].amount
    ensures ReceivedBy(p, a) == (if p[0].to == a then p[0].amount else 0) + (if p[1].to == a then p[1].amount else 0)
                                + (if p[2].to == a then p[2].amount else 0) + (if p[3].to == a then p[3].amount else 0)
                                + (if p[4].to == a then p[4].amount else 0)
  {
    var p1, p2, p3, p4 := p[1..], p[1..][1..], p[1..][1..][1..], p[1..][1..][1..][1..];
    assert p1[0] == p[1] && p2[0] == p[2] && p3[0] == p[3] && p4[0] == p[4] && p4[1..] == [];
    assert Paid(p) == p[0].amount + Paid(p1) && Paid(p1) == p[1].amount + Paid(p2) && Paid(p2) == p[2].amount + Paid(p3)
           && Paid(p3) == p[3].amount + Paid(p4) && Paid(p4) == p[4].amount + Paid(p4[1..]);
    assert ReceivedBy(p, a) == (if p[0].to == a then p[0].amount else 0) + ReceivedBy(p1, a);
    assert ReceivedBy(p1, a) == (if p[1].to == a then p[1].amount else 0) + ReceivedBy(p2, a);
    assert ReceivedBy(p2, a) == (if p[2].to == a then p[2].amount else 0) + ReceivedBy(p3, a);
    assert ReceivedBy(p3, a) == (if p[3].to == a then p[3].amount else 0) + ReceivedBy(p4, a);
    assert ReceivedBy(p4, a) == (if p[4].to == a then p[4].amount else 0) + ReceivedBy(p4[1..], a);
  }

  /** Where every planck of a deposit goes, whichever accounts coincide: to the pool the amount, to the
      treasury, the creator and the validators their floors, to the Khural the rest of the fee. */
  lemma DepositFlows(cfg: Config, s: Storage, depositor: Account, amount: nat, commitment: Hash, a: Account)
    requires Deposit(cfg, s, depositor, amount, commitment).Ok?
    ensures var l, r := s.ledger, Deposit(cfg, s, depositor, amount, commitment).value.ledger;
            var fee := TotalFee(cfg, amount);
            var ag, tenth := fee * 26 / 100, fee / 10;
            r.Free(a) == l.Free(a) - (if a == depositor then amount + fee else 0)
                         + (if a == cfg.pool then amount else 0) + (if a == cfg.ag then ag else 0)
                         + (if a == cfg.creator then tenth else 0) + (if a == cfg.validators then tenth else 0)
                         + (if a == cfg.khural then fee - ag - 2 * tenth else 0)
  {
    hide Route, Paid, ReceivedBy, TotalFee, AgShare, TenthShare, Ledger.Balanced;
    var p, fee := Payments(cfg, amount), TotalFee(cfg, amount);
    SharesExact(fee);
    FivePayments(p, a);
    assert Paid(p) == amount + fee by { PaidInAll(cfg, amount); }
    RouteConserves(s.ledger, depositor, p);
  }

  /** A withdrawal pays its recipient exactly the amount out of the pool, and touches no other balance. */
  lemma WithdrawExact(cfg: Config, s: Storage, now: nat, nullifier: Hash, commitment: Hash, recipient: Account, amount: nat)
    requires Withdraw(cfg, s, now, nullifier, commitment, recipient, amount).Ok?
    ensures var l, t := s.ledger, Withdraw(cfg, s, now, nullifier, commitment, recipient, amount).value;
            && (recipient != cfg.pool ==>
                  t.ledger.Free(recipient) == l.Free(recipient) + amount && t.ledger.Free(cfg.pool) == l.Free(cfg.pool) - amount)
            && (forall a :: a != recipient && a != cfg.pool ==> t.ledger.Free(a) == l.Free(a))
            && (recipient == cfg.pool ==> forall a :: t.ledger.Free(a) == l.Free(a))
            && t.ledger.issuance == l.issuance
            && commitment in s.commitments && s.commitments[commitment] == Active && nullifier !in s.nullifiers
            && t.commitments == s.commitments[commitment := Spent] && t.nullifiers == s.nullifiers[nullifier := now]
  {
    TransferConserves(s.ledger, cfg.pool, recipient, amount, KeepAlive);
    hide Ledger.Transfer, Ledger.Balanced;
  }

  // ---------------------------------------------------------------- the pool over runs

  /** What one call brings into the pool, and what it takes out. */
  function PutIn(cfg: Config, s: Storage, now: nat, call: Call): nat {
    if call.Put? && Dispatch(cfg, s, now, call).Ok? then call.amount else 0
  }

  function TakenOut(cfg: Config, s: Storage, now: nat, call: Call): nat {
    if call.Take? && call.recipient != cfg.pool && Dispatch(cfg, s, now, call).Ok? then call.amount else 0
  }

  function Net(cfg: Config, s: Storage, calls: seq<Timed>): int
    decreases |calls|
  {
    if calls == [] then 0
    else
      var At(now, call) := calls[0];
      PutIn(cfg, s, now, call) - TakenOut(cfg, s, now, call) + Net(cfg, Step(cfg, s, now, call), calls[1..])
  }

  lemma PoolStep(cfg: Config, s: Storage, now: nat, call: Call)
    requires PoolTakesNoFee(cfg) && LeavesPoolAlone(cfg, call)
    ensures Step(cfg, s, now, call).ledger.Free(cfg.pool)
            == s.ledger.Free(cfg.pool) + PutIn(cfg, s, now, call) - TakenOut(cfg, s, now, call)
  {
    hide Route, Ledger.Transfer, ReceivedBy, Paid, Payments;
    if Dispatch(cfg, s, now, call).Ok? {
      match call
      case Put(depositor, amount, _) =>
        RouteConserves(s.ledger, depositor, Payments(cfg, amount));
        PoolReceivesAmount(cfg, amount);
      case Take(nullifier, commitment, recipient, amount) => TransferConserves(s.ledger, cfg.pool, recipient, amount, KeepAlive);
      case Foreign(from, to, amount) => TransferConserves(s.ledger, from, to, amount, KeepAlive);
    }
  }

  /** Over any run the pool holds its opening balance, plus all that accepted deposits put in, less all
      that accepted withdrawals took out. */
  lemma {:induction false} PoolHoldsTheNet(cfg: Config, s: Storage, calls: seq<Timed>)
    requires PoolTakesNoFee(cfg)
    requires forall i :: 0 <= i < |calls| ==> LeavesPoolAlone(cfg, calls[i].call)
    ensures Run(cfg, s, calls).ledger.Free(cfg.pool) == s.ledger.Free(cfg.pool) + Net(cfg, s, calls)
    decreases |calls|
  {
    if calls != [] {
      PoolStep(cfg, s, calls[0].now, calls[0].call);
      hide Step, LeavesPoolAlone, PutIn, TakenOut;
      PoolHoldsTheNet(cfg, Step(cfg, s, calls[0].now, calls[0].call), calls[1..]);
    }
  }

  // ---------------------------------------------------------------- which calls are accepted

  /** A deposit is accepted exactly for a positive number of whole denominations under a new commitment
      that the depositor can pay with the fee; the depositor is none of the paid accounts, all alive. */
  lemma DepositAcceptedExactly(cfg: Config, s: Storage, depositor: Account, amount: nat, commitment: Hash)
    requires forall a :: a in {cfg.pool, cfg.ag, cfg.creator, cfg.validators, cfg.khural} ==> a != depositor && s.ledger.Free(a) >= s.ledger.ed
    ensures Deposit(cfg, s, depositor, amount, commitment).Ok?
            <==> && amount > 0 && amount % cfg.denomination == 0 && commitment !in s.commitments
                 && s.ledger.Free(depositor) >= amount + TotalFee(cfg, amount) + s.ledger.ed
  {
    var p := Payments(cfg, amount);
    RouteSucceedsExactly(s.ledger, depositor, p);
    PaidInAll(cfg, amount);
    WholePositive(amount, cfg.denomination);
    hide Route, Paid, TotalFee;
  }

  /** A withdrawal likewise, for a commitment in the pool and a nullifier not yet spent. */
  lemma WithdrawalAcceptedExactly(cfg: Config, s: Storage, now: nat, nullifier: Hash, commitment: Hash, recipient: Account, amount: nat)
    ensures Withdraw(cfg, s, now, nullifier, commitment, recipient, amount).Ok?
            <==> && amount > 0 && amount % cfg.denomination == 0
                 && nullifier !in s.nullifiers && commitment in s.commitments && s.commitments[commitment] == Active
                 && s.ledger.Transfer(cfg.pool, recipient, amount, KeepAlive).Some?
  {
    WholePositive(amount, cfg.denomination);
    hide Ledger.Transfer;
  }

  lemma WholePositive(amount: nat, denomination: nat)
    requires denomination > 0
    ensures amount >= denomination && amount % denomination == 0 <==> amount > 0 && amount % denomination == 0
  {
    if 0 < amount < denomination {
      DivisionUnique(amount, denomination, 0, amount);
    }
  }

  lemma KhuralReceivesItsShare(cfg: Config, amount: nat)
    requires PoolTakesNoFee(cfg) && cfg.khural !in {cfg.ag, cfg.creator, cfg.validators}
    ensures ReceivedBy(Payments(cfg, amount), cfg.khural) == KhuralShare(TotalFee(cfg, amount))
  {
    var k, p := cfg.khural, Payments(cfg, amount);
    hide TotalFee, AgShare, TenthShare, KhuralShare;
    var p1, p2, p3, p4 := p[1..], p[1..][1..], p[1..][1..][1..], p[1..][1..][1..][1..];
    assert p1[0] == p[1] && p2[0] == p[2] && p3[0] == p[3] && p4[0] == p[4] && p4[1..] == [];
    assert ReceivedBy(p, k) == ReceivedBy(p1, k);
    assert ReceivedBy(p1, k) == ReceivedBy(p2, k);
    assert ReceivedBy(p2, k) == ReceivedBy(p3, k);
    assert ReceivedBy(p3, k) == ReceivedBy(p4, k);
    assert ReceivedBy(p4, k) == p[4].amount + ReceivedBy(p4[1..], k);
  }

  lemma PaidInAll(cfg: Config, amount: nat)
    ensures Paid(Payments(cfg, amount)) == amount + TotalFee(cfg, amount)
  {
    var p, fee := Payments(cfg, amount), TotalFee(cfg, amount);
    var p1, p2, p3, p4 := p[1..], p[1..][1..], p[1..][1..][1..], p[1..][1..][1..][1..];
    ShareBounds(fee);
    hide TotalFee, AgShare, TenthShare, KhuralShare;
    assert p1[0] == p[1] && p2[0] == p[2] && p3[0] == p[3] && p4[0] == p[4] && p4[1..] == [];
    assert Paid(p3) == p[3].amount + Paid(p4);
    assert Paid(p1) == p[1].amount + Paid(p2);
  }
}

/** The dispatchables as they run. */
module MixerPallet {
  import opened Prelude
  import opened Currency
  import opened Sums
  import opened FeeRouting
  import opened MixerRuns
  import opened M = Mixer

  class Pallet {
    const cfg: Config
    var commitments: map<Hash, CommitmentState>
    var spentNullifiers: map<Hash, nat>
    var poolLeafCount: nat
    var ledger: Ledger

    ghost function Contents(): Storage
      reads this
    {
      Storage(commitments, spentNullifiers, poolLeafCount, ledger)
    }

    constructor (cfg: Config, ledger: Ledger)
      ensures this.cfg == cfg && Contents() == Fresh(ledger)
    {
      this.cfg, this.ledger := cfg, ledger;
      commitments, spentNullifiers, poolLeafCount := map[], map[], 0;
    }

    method Deposit(depositor: Account, amount: nat, commitment: Hash) returns (r: Outcome<(), Error>)
      modifies this
      ensures Atomic(M.Deposit(cfg, old(Contents()), depositor, amount, commitment), old(Contents()), Contents(), r)
    {
      if amount < cfg.denomination { return Err(DepositTooSmall); }
      if amount % cfg.denomination != 0 { return Err(InvalidDenomination); }
      if commitment in commitments { return Err(CommitmentAlreadyExists); }
      var totalFee := Min(SatAdd(MulFloor(cfg.baseFee, amount), MulFloor(cfg.privacyFee, amount)), cfg.maxFee);
      var agShare, creatorShare, valShare := MulFloor(260_000, totalFee), MulFloor(100_000, totalFee), MulFloor(100_000, totalFee);
      var khuralShare := SatSub(SatSub(SatSub(totalFee, agShare), creatorShare), valShare);
      var routed := PayOut(depositor, amount, agShare, creatorShare, valShare, khuralShare);
      hide MulFloor;
      if !routed { return Err(InsufficientFunds); }
      commitments := commitments[commitment := Active];
      poolLeafCount := poolLeafCount + 1;
      r := Ok(());
    }

    /** Five transfers in sequence, skipping empty fee shares. */
    method PayOut(depositor: Account, amount: nat, agShare: nat, creatorShare: nat, valShare: nat, khuralShare: nat)
      returns (done: bool)
      modifies this`ledger
      ensures var p := [Payment(cfg.pool, amount), Payment(cfg.ag, agShare), Payment(cfg.creator, creatorShare),
                        Payment(cfg.validators, valShare), Payment(cfg.khural, khuralShare)];
              match Route(old(ledger), depositor, p)
              case Some(l) => done && ledger == l
              case None => !done && ledger == old(ledger)
    {
      var before := ledger;
      ghost var p := [Payment(cfg.pool, amount), Payment(cfg.ag, agShare), Payment(cfg.creator, creatorShare),
                      Payment(cfg.validators, valShare), Payment(cfg.khural, khuralShare)];
      ghost var p1, p2, p3, p4 := p[1..], p[1..][1..], p[1..][1..][1..], p[1..][1..][1..][1..];
      assert p2[0] == p[2] && p3[0] == p[3] && p4[0] == p[4] && p4[1..] == [];
      done := PayShare(depositor, cfg.pool, amount);
      if !done { return; }
      assert Route(before, depositor, p) == Route(ledger, depositor, p1);
      done := PayShare(depositor, cfg.ag, agShare);
      if !done { ledger := before; return; }
      assert Route(before, depositor, p) == Route(ledger, depositor, p2);
      done := PayShare(depositor, cfg.creator, creatorShare);
      if !done { ledger := before; return; }
      assert Route(before, depositor, p) == Route(ledger, depositor, p3);
      done := PayShare(depositor, cfg.validators, valShare);
      if !done { ledger := before; return; }
      assert Route(before, depositor, p) == Route(ledger, depositor, p4);
      done := PayShare(depositor, cfg.khural, khuralShare);
      if !done { ledger := before; return; }
      assert Route(before, depositor, p) == Route(ledger, depositor, p4[1..]) == Some(ledger);
    }

    method PayShare(from: Account, to: Account, share: nat) returns (done: bool)
      modifies this`ledger
      ensures match old(ledger).Transfer(from, to, share, KeepAlive)
              case Some(l) => done && ledger == l
              case None => !done && ledger == old(ledger)
    {
      if share > 0 {
        var moved := ledger.Transfer(from, to, share, KeepAlive);
        if moved.None? { return false; }
        ledger := moved.value;
      }
      done := true;
    }

    method Withdraw(now: nat, nullifier: Hash, commitment: Hash, recipient: Account, amount: nat)
      returns (r: Outcome<(), Error>)
      modifies this
      ensures Atomic(M.Withdraw(cfg, old(Contents()), now, nullifier, commitment, recipient, amount),
                     old(Contents()), Contents(), r)
    {
      if amount < cfg.denomination { return Err(DepositTooSmall); }
      if amount % cfg.denomination != 0 { return Err(InvalidDenomination); }
      if nullifier in spentNullifiers { return Err(NullifierAlreadySpent); }
      if commitment !in commitments || commitments[commitment] != Active { return Err(CommitmentNotFound); }
      var commitmentsBefore, nullifiersBefore, countBefore := commitments, spentNullifiers, poolLeafCount;
      commitments := commitments[commitment := Spent];
      spentNullifiers := spentNullifiers[nullifier := now];
      poolLeafCount := SatSub(poolLeafCount, 1);
      var moved := ledger.Transfer(cfg.pool, recipient, amount, KeepAlive);
      if moved.None? {
        commitments, spentNullifiers, poolLeafCount := commitmentsBefore, nullifiersBefore, countBefore;
        return Err(PoolTransferFailed);
      }
      ledger := moved.value;
      r := Ok(());
    }

    /** A transfer made by any other pallet on the shared currency. */
    method TransferByOthers(from: Account, to: Account, amount: nat) returns (r: Outcome<(), Error>)
      modifies this`ledger
      ensures match old(ledger).Transfer(from, to, amount, KeepAlive)
              case Some(moved) => r == Ok(()) && ledger == moved
              case None => r == Err(TransferFailed) && ledger == old(ledger)
    {
      var moved := ledger.Transfer(from, to, amount, KeepAlive);
      if moved.None? { return Err(TransferFailed); }
      ledger := moved.value;
      r := Ok(());
    }

    // -------------------------------------------------------------- runs

    /** One call, routed to its dispatchable. */
    method ExecuteOne(now: nat, call: Call) returns (r: Outcome<(), Error>)
      modifies this
      ensures Atomic(Dispatch(cfg, old(Contents()), now, call), old(Contents()), Contents(), r)
    {
      hide M.Deposit, M.Withdraw, Ledger.Transfer;
      match call
      case Put(depositor, amount, commitment) => r := Deposit(depositor, amount, commitment);
      case Take(nullifier, commitment, recipient, amount) => r := Withdraw(now, nullifier, commitment, recipient, amount);
      case Foreign(from, to, amount) => r := TransferByOthers(from, to, amount);
    }

    /** A sequence of calls leaves the storage the run of its transitions ends in. */
    method Execute(calls: seq<Timed>)
      modifies this
      ensures Contents() == Run(cfg, old(Contents()), calls)
    {
      for i := 0 to |calls|
        invariant Run(cfg, Contents(), calls[i..]) == Run(cfg, old(Contents()), calls)
      {
        assert calls[i..][1..] == calls[i + 1..];
        hide Dispatch;
        var _ := ExecuteOne(calls[i].now, calls[i].call);
      }
    }
  }

  /** A chain started from an empty mixer: what runs keep holds of the storage it ends with. */
  method ChainFromEmpty(cfg: Config, ledger: Ledger, calls: seq<Timed>) returns (p: Pallet)
    requires PoolTakesNoFee(cfg)
    requires forall i :: 0 <= i < |calls| ==> LeavesPoolAlone(cfg, calls[i].call)
    ensures fresh(p) && p.cfg == cfg && p.Contents() == Run(cfg, Fresh(ledger), calls)
    ensures Counted(p.Contents()) && WholeDenominations(cfg, p.Contents(), ledger.Free(cfg.pool))
  {
    EveryRunFromEmpty(cfg, ledger, calls);
    hide Run, Sum;
    p := new Pallet(cfg, ledger);
    p.Execute(calls);
  }
}
