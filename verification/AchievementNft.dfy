/** pallet-achievement-nft: reputation badges, and reward tokens backed by a reserve on the
    confederation treasury. */
module AchievementNft {
  import opened Prelude
  import opened Currency

  type Kind = nat
  type Bytes = seq<bv8>

  datatype Category = Reputation | Reward

  datatype Token = Token(
    tokenId: nat, holder: Account, category: Category, kind: Kind, value: nat, issuedAt: nat,
    redeemed: bool, issuedBy: Account, eventRef: Option<Bytes>)

  datatype Storage = Storage(
    tokens: map<nat, Token>, nextToken: nat, holderTokens: map<Account, seq<nat>>,
    ledger: Ledger, reserved: map<Account, nat>)
  {
    function HeldBy(a: Account): seq<nat> { if a in holderTokens then holderTokens[a] else [] }

    function ReservedOf(a: Account): nat { if a in reserved then reserved[a] else 0 }
  }

  datatype Config = Config(treasury: Account, maxPerHolder: nat)

  datatype Error =
    | TokenNotFound | NotRedeemable | AlreadyRedeemed | NotHolder | TooManyAchievements
    | InsufficientTreasuryBalance | TransferFailed

  /** An over-long reference is dropped, not refused. */
  function Bounded(eventRef: Option<Bytes>): Option<Bytes> {
    if eventRef.Some? && |eventRef.value| <= 64 then eventRef else None
  }

  /** `reserve`: move free balance aside, all or nothing. */
  function Reserve(s: Storage, who: Account, amount: nat): Option<Storage> {
    if amount == 0 then Some(s)
    else if s.ledger.Free(who) < amount then None
    else Some(s.(ledger := s.ledger.Debit(who, amount), reserved := s.reserved[who := s.ReservedOf(who) + amount]))
  }

  /** `unreserve`: as much as is reserved goes back to free balance. */
  function Unreserve(s: Storage, who: Account, amount: nat): Storage {
    var actual := Min(s.ReservedOf(who), amount);
    if actual == 0 then s
    else s.(ledger := s.ledger.Credit(who, actual), reserved := s.reserved[who := s.ReservedOf(who) - actual])
  }

  function Mint(cfg: Config, s: Storage, token: Token): Outcome<Storage, Error> {
    var _ :- Need(|s.HeldBy(token.holder)| < cfg.maxPerHolder, TooManyAchievements);
    Ok(s.(tokens := s.tokens[token.tokenId := token], nextToken := token.tokenId + 1,
          holderTokens := s.holderTokens[token.holder := s.HeldBy(token.holder) + [token.tokenId]]))
  }

  function AwardAchievement(cfg: Config, s: Storage, now: nat, issuer: Account, holder: Account, kind: Kind,
                            eventRef: Option<Bytes>): Outcome<Storage, Error> {
    Mint(cfg, s, Token(s.nextToken, holder, Reputation, kind, 0, now, false, issuer, Bounded(eventRef)))
  }

  function IssueRewardNft(cfg: Config, s: Storage, now: nat, issuer: Account, holder: Account, kind: Kind, amount: nat,
                          eventRef: Option<Bytes>): Outcome<Storage, Error> {
    var t :- Reserve(s, cfg.treasury, amount).OrErr(InsufficientTreasuryBalance);
    Mint(cfg, t, Token(s.nextToken, holder, Reward, kind, amount, now, false, issuer, Bounded(eventRef)))
  }

  function RedeemRewardNft(cfg: Config, s: Storage, caller: Account, id: nat): Outcome<Storage, Error> {
    var _ :- Need(id in s.tokens, TokenNotFound);
    var token := s.tokens[id];
    var _ :- Need(token.holder == caller, NotHolder);
    var _ :- Need(token.category == Reward, NotRedeemable);
    var _ :- Need(!token.redeemed, AlreadyRedeemed);
    var t := Unreserve(s, cfg.treasury, token.value);
    var ledger :- t.ledger.Transfer(cfg.treasury, token.holder, token.value, KeepAlive).OrErr(TransferFailed);
    Ok(t.(ledger := ledger, tokens := s.tokens[id := token.(redeemed := true)]))
  }

  // ---------------------------------------------------------------- runs

  datatype Call =
    | Award(issuer: Account, holder: Account, kind: Kind, eventRef: Option<Bytes>)
    | IssueReward(issuer: Account, holder: Account, kind: Kind, amount: nat, eventRef: Option<Bytes>)
    | Redeem(caller: Account, id: nat)
    | Foreign(from: Account, to: Account, amount: nat)

  datatype Timed = At(now: nat, call: Call)

  function Dispatch(cfg: Config, s: Storage, now: nat, call: Call): Outcome<Storage, Error> {
    match call
    case Award(issuer, holder, kind, eventRef) => AwardAchievement(cfg, s, now, issuer, holder, kind, eventRef)
    case IssueReward(issuer, holder, kind, amount, eventRef) =>
      IssueRewardNft(cfg, s, now, issuer, holder, kind, amount, eventRef)
    case Redeem(caller, id) => RedeemRewardNft(cfg, s, caller, id)
    case Foreign(from, to, amount) =>
      var ledger :- s.ledger.Transfer(from, to, amount, AllowDeath).OrErr(TransferFailed);
      Ok(s.(ledger := ledger))
  }

  function Step(cfg: Config, s: Storage, now: nat, call: Call): Storage {
    match Dispatch(cfg, s, now, call)
    case Ok(t) => t
    case Err(_) => s
  }

  function Run(cfg: Config, s: Storage, calls: seq<Timed>): Storage
    decreases |calls|
  {
    if calls == [] then s else Run(cfg, Step(cfg, s, calls[0].now, calls[0].call), calls[1..])
  }

  function Fresh(ledger: Ledger, reserved: map<Account, nat>): Storage { Storage(map[], 0, map[], ledger, reserved) }

  /** How many redemptions of token `id` succeed in a run. */
  function Redemptions(cfg: Config, s: Storage, calls: seq<Timed>, id: nat): nat
    decreases |calls|
  {
    if calls == [] then 0
    else (if calls[0].call.Redeem? && calls[0].call.id == id && Dispatch(cfg, s, calls[0].now, calls[0].call).Ok? then 1 else 0)
         + Redemptions(cfg, Step(cfg, s, calls[0].now, calls[0].call), calls[1..], id)
  }
}

/** The reserve always covers the unredeemed rewards, and each is paid at most once. */
module AchievementNftRuns {
  import opened Prelude
  import opened Currency
  import opened Sums
  import opened AchievementNft

  function Unredeemed(id: nat, t: Token): int { if t.category == Reward && !t.redeemed then t.value else 0 }

  function Aside(a: Account, amount: nat): int { amount }

  ghost predicate NumberedBelow(s: Storage) { forall id :: id in s.tokens ==> id < s.nextToken }

  /** The treasury's reserve is its opening reserve plus the value of every unredeemed reward. */
  ghost predicate Covered(cfg: Config, s: Storage, opening: nat) {
    NumberedBelow(s) && s.ReservedOf(cfg.treasury) == opening + Sum(s.tokens, Unredeemed)
  }

  /** Free and reserved balances together are the issuance. */
  ghost predicate WholeMoney(s: Storage) {
    Sum(s.ledger.free, AmountOf) + Sum(s.reserved, Aside) == s.ledger.issuance
  }

  lemma UnreserveIsFull(cfg: Config, s: Storage, opening: nat, id: nat)
    requires Covered(cfg, s, opening) && id in s.tokens && s.tokens[id].category == Reward && !s.tokens[id].redeemed
    ensures s.tokens[id].value <= s.ReservedOf(cfg.treasury)
  {
    SumMember(s.tokens, Unredeemed, id);
  }

  lemma StepKeepsCovered(cfg: Config, s: Storage, opening: nat, now: nat, call: Call)
    requires Covered(cfg, s, opening)
    ensures Covered(cfg, Step(cfg, s, now, call), opening)
  {
    hide Ledger.Transfer, Sum;
    var t := Step(cfg, s, now, call);
    if Dispatch(cfg, s, now, call).Ok? {
      match call
      case Award(_, _, _, _) => SumUpdate(s.tokens, Unredeemed, s.nextToken, t.tokens[s.nextToken]);
      case IssueReward(_, _, _, _, _) => SumUpdate(s.tokens, Unredeemed, s.nextToken, t.tokens[s.nextToken]);
      case Redeem(_, id) =>
        UnreserveIsFull(cfg, s, opening, id);
        SumUpdate(s.tokens, Unredeemed, id, t.tokens[id]);
      case Foreign(_, _, _) =>
    }
  }

  lemma StepKeepsWholeMoney(cfg: Config, s: Storage, now: nat, call: Call)
    requires WholeMoney(s)
    ensures WholeMoney(Step(cfg, s, now, call)) && Step(cfg, s, now, call).ledger.issuance == s.ledger.issuance
  {
    hide Ledger.Transfer, Sum;
    if Dispatch(cfg, s, now, call).Ok? {
      match call
      case Award(_, _, _, _) =>
      case IssueReward(_, _, _, amount, _) =>
        if amount > 0 {
          DebitTakesFromSum(s.ledger, cfg.treasury, amount);
          SumUpdate<Account, nat>(s.reserved, Aside, cfg.treasury, s.ReservedOf(cfg.treasury) + amount);
        }
      case Redeem(_, id) =>
        var value := s.tokens[id].value;
        var actual := Min(s.ReservedOf(cfg.treasury), value);
        CreditAddsToSum(s.ledger, cfg.treasury, actual);
        SumUpdate<Account, nat>(s.reserved, Aside, cfg.treasury, s.ReservedOf(cfg.treasury) - actual);
        TransferConserves(Unreserve(s, cfg.treasury, value).ledger, cfg.treasury, s.tokens[id].holder, value, KeepAlive);
      case Foreign(from, to, amount) => TransferConserves(s.ledger, from, to, amount, AllowDeath);
    }
  }

  /** In every run the reserve covers exactly the unredeemed rewards and no money appears or
      disappears. */
  lemma {:induction false} ReserveBacksRewards(cfg: Config, s: Storage, opening: nat, calls: seq<Timed>)
    requires Covered(cfg, s, opening) && WholeMoney(s)
    ensures var t := Run(cfg, s, calls);
            Covered(cfg, t, opening) && WholeMoney(t) && t.ledger.issuance == s.ledger.issuance
    decreases |calls|
  {
    if calls != [] {
      StepKeepsCovered(cfg, s, opening, calls[0].now, calls[0].call);
      StepKeepsWholeMoney(cfg, s, calls[0].now, calls[0].call);
      hide Step, Covered, WholeMoney;
      ReserveBacksRewards(cfg, Step(cfg, s, calls[0].now, calls[0].call), opening, calls[1..]);
    }
  }

  /** From an empty registry, whatever the treasury has reserved for other purposes. */
  lemma {:induction false} EveryRunFromEmpty(cfg: Config, ledger: Ledger, reserved: map<Account, nat>, calls: seq<Timed>)
    requires Sum(ledger.free, AmountOf) + Sum(reserved, Aside) == ledger.issuance
    ensures var s, t := Fresh(ledger, reserved), Run(cfg, Fresh(ledger, reserved), calls);
            && t.ReservedOf(cfg.treasury) == s.ReservedOf(cfg.treasury) + Sum(t.tokens, Unredeemed)
            && Sum(t.ledger.free, AmountOf) + Sum(t.reserved, Aside) == t.ledger.issuance == ledger.issuance
  {
    var s := Fresh(ledger, reserved);
    assert Covered(cfg, s, s.ReservedOf(cfg.treasury));
    ReserveBacksRewards(cfg, s, s.ReservedOf(cfg.treasury), calls);
    hide Run, Sum;
  }

  /** On a covered treasury a holder's redemption fails only for want of the existential deposit,
      the treasury's or the holder's own. */
  lemma RedemptionSucceedsExactly(cfg: Config, s: Storage, opening: nat, caller: Account, id: nat)
    requires Covered(cfg, s, opening)
    ensures RedeemRewardNft(cfg, s, caller, id).Ok?
            <==> && id in s.tokens && s.tokens[id].holder == caller && s.tokens[id].category == Reward && !s.tokens[id].redeemed
                 && (s.tokens[id].value == 0 || caller == cfg.treasury
                     || (s.ledger.Free(cfg.treasury) >= s.ledger.ed && s.ledger.Free(caller) + s.tokens[id].value >= s.ledger.ed))
  {
    if id in s.tokens && s.tokens[id].category == Reward && !s.tokens[id].redeemed {
      UnreserveIsFull(cfg, s, opening, id);
    }
    hide Sum;
  }

  /** A redemption pays its holder the token's full value out of the reserve. */
  lemma RedemptionPaysInFull(cfg: Config, s: Storage, opening: nat, caller: Account, id: nat)
    requires Covered(cfg, s, opening) && RedeemRewardNft(cfg, s, caller, id).Ok? && caller != cfg.treasury
    ensures var t, value := RedeemRewardNft(cfg, s, caller, id).value, s.tokens[id].value;
            && s.tokens[id].holder == caller
            && t.ledger.Free(caller) == s.ledger.Free(caller) + value
            && t.ledger.Free(cfg.treasury) == s.ledger.Free(cfg.treasury)
            && t.ReservedOf(cfg.treasury) == s.ReservedOf(cfg.treasury) - value
  {
    UnreserveIsFull(cfg, s, opening, id);
    var value := s.tokens[id].value;
    TransferConserves(Unreserve(s, cfg.treasury, value).ledger, cfg.treasury, caller, value, KeepAlive);
    hide Ledger.Transfer, Sum;
  }

  // ---------------------------------------------------------------- what a token promises

  /** Token `id` is `holder`'s, with all it was minted with. */
  predicate TokenOf(s: Storage, id: nat, holder: Account, category: Category, kind: Kind, value: nat, since: nat,
                    issuer: Account, eventRef: Option<Bytes>)
  {
    && id in s.tokens && id < s.nextToken
    && s.tokens[id] == Token(id, holder, category, kind, value, since, s.tokens[id].redeemed, issuer, eventRef)
  }

  /** An issued reward is worth its amount to the holder named and lies in the treasury's reserve; an
      award is worth nothing and moves nothing. References longer than 64 bytes are left out. */
  lemma TokenRecorded(cfg: Config, s: Storage, now: nat, call: Call)
    requires (call.Award? || call.IssueReward?) && Dispatch(cfg, s, now, call).Ok?
    ensures var t, n := Step(cfg, s, now, call), s.nextToken;
            var worth := if call.Award? then 0 else call.amount;
            && TokenOf(t, n, call.holder, if call.Award? then Reputation else Reward, call.kind, worth, now, call.issuer,
                       if call.eventRef.Some? && |call.eventRef.value| > 64 then None else call.eventRef)
            && !t.tokens[n].redeemed && t.HeldBy(call.holder) == s.HeldBy(call.holder) + [n]
            && t.ledger.Free(cfg.treasury) == s.ledger.Free(cfg.treasury) - worth
            && t.ReservedOf(cfg.treasury) == s.ReservedOf(cfg.treasury) + worth
            && (forall a :: a != cfg.treasury ==> t.ledger.Free(a) == s.ledger.Free(a))
  {}

  /** A token is minted exactly when its holder's list has room and, for a reward, the treasury has the
      funds. */
  lemma MintedExactly(cfg: Config, s: Storage, now: nat, call: Call)
    requires call.Award? || call.IssueReward?
    ensures Dispatch(cfg, s, now, call).Ok?
            <==> |s.HeldBy(call.holder)| < cfg.maxPerHolder && (call.IssueReward? ==> s.ledger.Free(cfg.treasury) >= call.amount)
  {}

  lemma StepKeepsToken(cfg: Config, s: Storage, now: nat, call: Call, id: nat)
    requires id in s.tokens && id < s.nextToken
    ensures var t := Step(cfg, s, now, call);
            id in t.tokens && id < t.nextToken && t.tokens[id] == s.tokens[id].(redeemed := t.tokens[id].redeemed)
  {
    hide Ledger.Transfer;
  }

  lemma {:induction false} TokenKeepsItsTerms(cfg: Config, s: Storage, calls: seq<Timed>, id: nat)
    requires id in s.tokens && id < s.nextToken
    ensures var t := Run(cfg, s, calls);
            id in t.tokens && id < t.nextToken && t.tokens[id] == s.tokens[id].(redeemed := t.tokens[id].redeemed)
    decreases |calls|
  {
    if calls != [] {
      StepKeepsToken(cfg, s, calls[0].now, calls[0].call, id);
      hide Step;
      TokenKeepsItsTerms(cfg, Step(cfg, s, calls[0].now, calls[0].call), calls[1..], id);
    }
  }

  /** Whatever happens after a reward is issued, only the holder named at issue redeems it, for the full
      amount named at issue, and only while it is unredeemed; an awarded badge nobody ever redeems. */
  lemma {:induction false} RewardKeepsItsHolder(cfg: Config, s: Storage, opening: nat, now: nat, call: Call, rest: seq<Timed>, w: Account)
    requires Covered(cfg, s, opening) && (call.Award? || call.IssueReward?) && Dispatch(cfg, s, now, call).Ok?
    ensures var n, t := s.nextToken, Run(cfg, Step(cfg, s, now, call), rest);
            && n in t.tokens && t.tokens[n].holder == call.holder && t.tokens[n].issuedBy == call.issuer && t.tokens[n].issuedAt == now
            && (RedeemRewardNft(cfg, t, w, n).Ok? ==> call.IssueReward? && w == call.holder && !t.tokens[n].redeemed)
            && (RedeemRewardNft(cfg, t, w, n).Ok? && w != cfg.treasury ==>
                  var u := RedeemRewardNft(cfg, t, w, n).value;
                  && u.tokens == t.tokens[n := t.tokens[n].(redeemed := true)]
                  && u.ledger.Free(w) == t.ledger.Free(w) + call.amount
                  && u.ReservedOf(cfg.treasury) == t.ReservedOf(cfg.treasury) - call.amount)
  {
    var n, start := s.nextToken, Step(cfg, s, now, call);
    TokenRecorded(cfg, s, now, call);
    StepKeepsCovered(cfg, s, opening, now, call);
    TokenKeepsItsTerms(cfg, start, rest, n);
    CoveredAfter(cfg, start, opening, rest);
    var t := Run(cfg, start, rest);
    hide Step, Run, Dispatch, Covered;
    if RedeemRewardNft(cfg, t, w, n).Ok? {
      RedeemedRecord(cfg, t, w, n);
      if w != cfg.treasury { RedemptionPaysInFull(cfg, t, opening, w, n); }
    }
    hide RedeemRewardNft;
  }

  lemma RedeemedRecord(cfg: Config, t: Storage, w: Account, n: nat)
    requires RedeemRewardNft(cfg, t, w, n).Ok?
    ensures n in t.tokens && t.tokens[n].holder == w && t.tokens[n].category == Reward && !t.tokens[n].redeemed
    ensures RedeemRewardNft(cfg, t, w, n).value.tokens == t.tokens[n := t.tokens[n].(redeemed := true)]
  {
    hide Ledger.Transfer;
  }

  lemma {:induction false} CoveredAfter(cfg: Config, s: Storage, opening: nat, calls: seq<Timed>)
    requires Covered(cfg, s, opening)
    ensures Covered(cfg, Run(cfg, s, calls), opening)
    decreases |calls|
  {
    if calls != [] {
      StepKeepsCovered(cfg, s, opening, calls[0].now, calls[0].call);
      hide Step, Covered;
      CoveredAfter(cfg, Step(cfg, s, calls[0].now, calls[0].call), opening, calls[1..]);
    }
  }

  /** Over any run a token is redeemed at most once, and never again once it has been. */
  lemma {:induction false} RedeemedAtMostOnce(cfg: Config, s: Storage, calls: seq<Timed>, id: nat)
    requires NumberedBelow(s)
    ensures Redemptions(cfg, s, calls, id) <= 1
    ensures id in s.tokens && s.tokens[id].redeemed ==> Redemptions(cfg, s, calls, id) == 0
    decreases |calls|
  {
    if calls != [] {
      var t := Step(cfg, s, calls[0].now, calls[0].call);
      assert NumberedBelow(t) && (id in s.tokens && s.tokens[id].redeemed ==> id in t.tokens && t.tokens[id].redeemed) by {
        hide Ledger.Transfer;
      }
      RedeemedAtMostOnce(cfg, t, calls[1..], id);
      hide Ledger.Transfer, NumberedBelow;
    }
  }
}

/** The dispatchables as they run. */
module AchievementNftPallet {
  import opened Prelude
  import opened Currency
  import opened Sums
  import opened AchievementNftRuns
  import opened M = AchievementNft

  class Pallet {
    const cfg: Config
    var achievements: map<nat, Token>
    var nextAchievementId: nat
    var holderAchievements: map<Account, seq<nat>>
    var ledger: Ledger
    var reserved: map<Account, nat>

    ghost function Contents(): Storage
      reads this
    {
      Storage(achievements, nextAchievementId, holderAchievements, ledger, reserved)
    }

    constructor (cfg: Config, ledger: Ledger, reserved: map<Account, nat>)
      ensures this.cfg == cfg && Contents() == Fresh(ledger, reserved)
    {
      this.cfg, this.ledger, this.reserved := cfg, ledger, reserved;
      achievements, nextAchievementId, holderAchievements := map[], 0, map[];
    }

    method AwardAchievement(now: nat, issuer: Account, holder: Account, kind: Kind, eventRef: Option<Bytes>)
      returns (r: Outcome<(), Error>)
      modifies this
      ensures Atomic(M.AwardAchievement(cfg, old(Contents()), now, issuer, holder, kind, eventRef), old(Contents()), Contents(), r)
    {
      r := Store(Token(nextAchievementId, holder, Reputation, kind, 0, now, false, issuer, Bounded(eventRef)));
    }

    method IssueRewardNft(now: nat, issuer: Account, holder: Account, kind: Kind, amount: nat, eventRef: Option<Bytes>)
      returns (r: Outcome<(), Error>)
      modifies this
      ensures Atomic(M.IssueRewardNft(cfg, old(Contents()), now, issuer, holder, kind, amount, eventRef),
                     old(Contents()), Contents(), r)
    {
      var ledgerBefore, reservedBefore := ledger, reserved;
      if amount > 0 {
        if ledger.Free(cfg.treasury) < amount { return Err(InsufficientTreasuryBalance); }
        ledger := ledger.Debit(cfg.treasury, amount);
        var held := if cfg.treasury in reserved then reserved[cfg.treasury] else 0;
        reserved := reserved[cfg.treasury := held + amount];
      }
      r := Store(Token(nextAchievementId, holder, Reward, kind, amount, now, false, issuer, Bounded(eventRef)));
      if r.Err? {
        ledger, reserved := ledgerBefore, reservedBefore;
      }
    }

    method Store(token: Token) returns (r: Outcome<(), Error>)
      requires token.tokenId == nextAchievementId
      modifies this
      ensures Atomic(M.Mint(cfg, old(Contents()), token), old(Contents()), Contents(), r)
    {
      var before := achievements;
      nextAchievementId := nextAchievementId + 1;
      achievements := achievements[token.tokenId := token];
      var ids := if token.holder in holderAchievements then holderAchievements[token.holder] else [];
      if |ids| >= cfg.maxPerHolder {
        achievements, nextAchievementId := before, token.tokenId;
        return Err(TooManyAchievements);
      }
      holderAchievements := holderAchievements[token.holder := ids + [token.tokenId]];
      r := Ok(());
    }

    method RedeemRewardNft(caller: Account, id: nat) returns (r: Outcome<(), Error>)
      modifies this
      ensures Atomic(M.RedeemRewardNft(cfg, old(Contents()), caller, id), old(Contents()), Contents(), r)
    {
      if id !in achievements { return Err(TokenNotFound); }
      var token := achievements[id];
      if token.holder != caller { return Err(NotHolder); }
      if token.category != Reward { return Err(NotRedeemable); }
      if token.redeemed { return Err(AlreadyRedeemed); }
      var ledgerBefore, reservedBefore := ledger, reserved;
      var held := if cfg.treasury in reserved then reserved[cfg.treasury] else 0;
      var actual := Min(held, token.value);
      if actual > 0 {
        ledger := ledger.Credit(cfg.treasury, actual);
        reserved := reserved[cfg.treasury := held - actual];
      }
      var moved := ledger.Transfer(cfg.treasury, token.holder, token.value, KeepAlive);
      if moved.None? {
        ledger, reserved := ledgerBefore, reservedBefore;
        return Err(TransferFailed);
      }
      ledger := moved.value;
      token := token.(redeemed := true);
      achievements := achievements[id := token];
      r := Ok(());
    }

    /** A transfer made by any other pallet on the shared currency. */
    method TransferByOthers(from: Account, to: Account, amount: nat) returns (r: Outcome<(), Error>)
      modifies this`ledger
      ensures match old(ledger).Transfer(from, to, amount, AllowDeath)
              case Some(moved) => r == Ok(()) && ledger == moved
              case None => r == Err(TransferFailed) && ledger == old(ledger)
    {
      var moved := ledger.Transfer(from, to, amount, AllowDeath);
      if moved.None? { return Err(TransferFailed); }
      ledger := moved.value;
      r := Ok(());
    }

    // -------------------------------------------------------------- runs

    /** One call, routed to its dispatchable. */
    method ExecuteOne(now: nat, call: Call) returns (r: Outcome<(), Error>)
      modifies this
      ensures Atomic(Dispatch(cfg, old(Contents()), now, call), old(Contents()), Contents(), r)
    {
      hide M.AwardAchievement, M.IssueRewardNft, M.RedeemRewardNft, Ledger.Transfer;
      match call
      case Award(issuer, holder, kind, eventRef) => r := AwardAchievement(now, issuer, holder, kind, eventRef);
      case IssueReward(issuer, holder, kind, amount, eventRef) =>
        r := IssueRewardNft(now, issuer, holder, kind, amount, eventRef);
      case Redeem(caller, id) => r := RedeemRewardNft(caller, id);
      case Foreign(from, to, amount) => r := TransferByOthers(from, to, amount);
    }

    /** A sequence of calls leaves the storage the run of its transitions ends in. */
    method Execute(calls: seq<Timed>)
      modifies this
      ensures Contents() == Run(cfg, old(Contents()), calls)
    {
      for i := 0 to |calls|
        invariant Run(cfg, Contents(), calls[i..]) == Run(cfg, old(Contents()), calls)
      {
        assert calls[i..][1..] == calls[i + 1..];
        hide Dispatch;
        var _ := ExecuteOne(calls[i].now, calls[i].call);
      }
    }
  }

  /** A chain started from an empty registry: what runs keep holds of the storage it ends with. */
  method ChainFromEmpty(cfg: Config, ledger: Ledger, reserved: map<Account, nat>, calls: seq<Timed>) returns (p: Pallet)
    requires Sum(ledger.free, AmountOf) + Sum(reserved, Aside) == ledger.issuance
    ensures fresh(p) && p.cfg == cfg && p.Contents() == Run(cfg, Fresh(ledger, reserved), calls)
    ensures Covered(cfg, p.Contents(), Fresh(ledger, reserved).ReservedOf(cfg.treasury)) && WholeMoney(p.Contents())
    ensures p.ledger.issuance == ledger.issuance
  {
    var start := Fresh(ledger, reserved);
    assert Covered(cfg, start, start.ReservedOf(cfg.treasury));
    ReserveBacksRewards(cfg, start, start.ReservedOf(cfg.treasury), calls);
    hide Run, Sum, Covered, WholeMoney;
    p := new Pallet(cfg, ledger, reserved);
    p.Execute(calls);
  }
}
