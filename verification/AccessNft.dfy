/** pallet-access-nft: revocable access keys, listed under their holder and under their entity. */
module AccessNft {
  import opened Prelude

  type Bytes = seq<bv8>

  datatype EntityKind =
    | Organization | Guild | GovernmentBody | Committee | UnifiedCenter | Bank
    | PensionFund | CreditReserve | Foundation | Region | Custom

  datatype Key = Key(
    tokenId: nat, kind: EntityKind, entity: Bytes, holder: Account, role: nat, level: nat, portals: bv8,
    issuedAt: nat, revoked: bool, issuedBy: Account, orgReg: Bytes, walletBound: bool, hrRole: nat)

  datatype Storage = Storage(
    keys: map<nat, Key>, nextToken: nat,
    holderKeys: map<Account, seq<nat>>, entityKeys: map<Bytes, seq<nat>>)
  {
    function HeldBy(a: Account): seq<nat> { if a in holderKeys then holderKeys[a] else [] }

    function IssuedFor(e: Bytes): seq<nat> { if e in entityKeys then entityKeys[e] else [] }
  }

  datatype Config = Config(maxPerHolder: nat, maxPerEntity: nat)

  datatype Error =
    | TokenNotFound | NotIssuer | AlreadyRevoked | TooManyKeysForHolder | TooManyHoldersForEntity
    | EntityIdTooLong | InvalidAccessLevel | InvalidPortalMask | OrgRegTooLong

  const LEGACY_HR_ROLE := 255

  // ---------------------------------------------------------------- dispatchables

  /** Store a key and list it under its holder and its entity. */
  function Mint(cfg: Config, s: Storage, key: Key): Outcome<Storage, Error> {
    var _ :- Need(|s.HeldBy(key.holder)| < cfg.maxPerHolder, TooManyKeysForHolder);
    var _ :- Need(|s.IssuedFor(key.entity)| < cfg.maxPerEntity, TooManyHoldersForEntity);
    Ok(Storage(s.keys[key.tokenId := key], key.tokenId + 1,
               s.holderKeys[key.holder := s.HeldBy(key.holder) + [key.tokenId]],
               s.entityKeys[key.entity := s.IssuedFor(key.entity) + [key.tokenId]]))
  }

  function IssueAccessKey(cfg: Config, s: Storage, now: nat, issuer: Account, kind: EntityKind, entity: Bytes,
                          holder: Account, role: nat, level: nat, portals: bv8): Outcome<Storage, Error> {
    var _ :- Need(1 <= level <= 10, InvalidAccessLevel);
    var _ :- Need(1 <= portals <= 7, InvalidPortalMask);
    var _ :- Need(|entity| <= 64, EntityIdTooLong);
    Mint(cfg, s, Key(s.nextToken, kind, entity, holder, role, level, portals, now, false, issuer, [], false, LEGACY_HR_ROLE))
  }

  function IssueSbtKey(cfg: Config, s: Storage, now: nat, issuer: Account, kind: EntityKind, entity: Bytes, orgReg: Bytes,
                       holder: Account, role: nat, level: nat, portals: bv8, hrRole: nat): Outcome<Storage, Error> {
    var _ :- Need(1 <= level <= 10, InvalidAccessLevel);
    var _ :- Need(1 <= portals <= 7, InvalidPortalMask);
    var _ :- Need(|entity| <= 64, EntityIdTooLong);
    var _ :- Need(|orgReg| <= 32, OrgRegTooLong);
    var _ :- Need(orgReg != [], OrgRegTooLong);
    Mint(cfg, s, Key(s.nextToken, kind, entity, holder, role, level, portals, now, false, issuer, orgReg, true, hrRole))
  }

  function RevokeAccessKey(s: Storage, revoker: Account, token: nat): Outcome<Storage, Error> {
    var _ :- Need(token in s.keys, TokenNotFound);
    var key := s.keys[token];
    var _ :- Need(!key.revoked, AlreadyRevoked);
    var _ :- Need(key.issuedBy == revoker, NotIssuer);
    Ok(s.(keys := s.keys[token := key.(revoked := true)]))
  }

  // ---------------------------------------------------------------- queries

  /** Every required portal bit is set. */
  predicate Covers(portals: bv8, mask: bv8) { portals & mask == mask }

  predicate Opens(key: Key, entity: Bytes, mask: bv8) {
    !key.revoked && key.entity == entity && Covers(key.portals, mask)
  }

  predicate OpensSbt(key: Key, entity: Bytes, orgReg: Bytes, mask: bv8) {
    !key.revoked && key.walletBound && key.entity == entity && key.orgReg == orgReg && Covers(key.portals, mask)
  }

  predicate LiveSbt(key: Key, orgReg: Bytes) { !key.revoked && key.walletBound && key.orgReg == orgReg }

  /** Whether some key in the whole table, held by `who`, opens the portal. */
  ghost predicate HasAccess(s: Storage, who: Account, entity: Bytes, mask: bv8) {
    exists t :: t in s.keys && s.keys[t].holder == who && Opens(s.keys[t], entity, mask)
  }

  ghost predicate HasSbt(s: Storage, who: Account, entity: Bytes, orgReg: Bytes, mask: bv8) {
    exists t :: t in s.keys && s.keys[t].holder == who && OpensSbt(s.keys[t], entity, orgReg, mask)
  }

  // ---------------------------------------------------------------- runs

  datatype Call =
    | Issue(issuer: Account, kind: EntityKind, entity: Bytes, holder: Account, role: nat, level: nat, portals: bv8)
    | IssueSbt(issuer: Account, kind: EntityKind, entity: Bytes, orgReg: Bytes, holder: Account, role: nat, level: nat,
               portals: bv8, hrRole: nat)
    | Revoke(revoker: Account, token: nat)

  datatype Timed = At(now: nat, call: Call)

  function Dispatch(cfg: Config, s: Storage, now: nat, call: Call): Outcome<Storage, Error> {
    match call
    case Issue(issuer, kind, entity, holder, role, level, portals) =>
      IssueAccessKey(cfg, s, now, issuer, kind, entity, holder, role, level, portals)
    case IssueSbt(issuer, kind, entity, orgReg, holder, role, level, portals, hrRole) =>
      IssueSbtKey(cfg, s, now, issuer, kind, entity, orgReg, holder, role, level, portals, hrRole)
    case Revoke(revoker, token) => RevokeAccessKey(s, revoker, token)
  }

  function Step(cfg: Config, s: Storage, now: nat, call: Call): Storage {
    match Dispatch(cfg, s, now, call)
    case Ok(t) => t
    case Err(_) => s
  }

  function Run(cfg: Config, s: Storage, calls: seq<Timed>): Storage
    decreases |calls|
  {
    if calls == [] then s else Run(cfg, Step(cfg, s, calls[0].now, calls[0].call), calls[1..])
  }

  function Fresh(): Storage { Storage(map[], 0, map[], map[]) }
}

/** The two indexes stay exact, the scans over them decide access, and only issuers take access away. */
module AccessNftRuns {
  import opened Prelude
  import opened AccessNft

  ghost predicate Ascending(ids: seq<nat>) { forall i, j :: 0 <= i < j < |ids| ==> ids[i] < ids[j] }

  ghost predicate Numbered(s: Storage) {
    forall t: nat :: (t in s.keys <==> t < s.nextToken) && (t in s.keys ==> s.keys[t].tokenId == t)
  }

  /** Each holder's list names exactly the keys it holds, each once, in order of issue. */
  ghost predicate HoldersListed(s: Storage) {
    forall a :: Ascending(s.HeldBy(a)) && forall t :: t in s.HeldBy(a) <==> t in s.keys && s.keys[t].holder == a
  }

  /** Likewise for entities. */
  ghost predicate EntitiesListed(s: Storage) {
    forall e :: Ascending(s.IssuedFor(e)) && forall t :: t in s.IssuedFor(e) <==> t in s.keys && s.keys[t].entity == e
  }

  ghost predicate Listed(s: Storage) { Numbered(s) && HoldersListed(s) && EntitiesListed(s) }

  lemma AppendAscending(ids: seq<nat>, t: nat)
    requires Ascending(ids) && forall i :: i in ids ==> i < t
    ensures Ascending(ids + [t])
  {
    forall i, j | 0 <= i < j < |ids + [t]| ensures (ids + [t])[i] < (ids + [t])[j] {
      assert j == |ids| ==> ids[i] in ids;
    }
  }

  lemma MintKeepsListed(cfg: Config, s: Storage, key: Key)
    requires Listed(s) && key.tokenId == s.nextToken && Mint(cfg, s, key).Ok?
    ensures Listed(Mint(cfg, s, key).value)
  {
    var t, n := Mint(cfg, s, key).value, s.nextToken;
    assert n !in s.keys;
    assert HoldersListed(t) by {
      hide EntitiesListed, Ascending;
      forall a
        ensures Ascending(t.HeldBy(a))
        ensures forall k :: k in t.HeldBy(a) <==> k in t.keys && t.keys[k].holder == a
      {
        assert forall k :: k in s.HeldBy(a) <==> k in s.keys && s.keys[k].holder == a;
        if a == key.holder {
          AppendAscending(s.HeldBy(a), n);
        }
      }
    }
    assert EntitiesListed(t) by {
      hide HoldersListed, Ascending;
      forall e
        ensures Ascending(t.IssuedFor(e))
        ensures forall k :: k in t.IssuedFor(e) <==> k in t.keys && t.keys[k].entity == e
      {
        assert forall k :: k in s.IssuedFor(e) <==> k in s.keys && s.keys[k].entity == e;
        if e == key.entity {
          AppendAscending(s.IssuedFor(e), n);
        }
      }
    }
  }

  lemma RevokeKeepsListed(s: Storage, revoker: Account, token: nat)
    requires Listed(s) && RevokeAccessKey(s, revoker, token).Ok?
    ensures Listed(RevokeAccessKey(s, revoker, token).value)
  {
    var t := RevokeAccessKey(s, revoker, token).value;
    assert HoldersListed(t) by {
      forall a ensures Ascending(t.HeldBy(a)) && forall k :: k in t.HeldBy(a) <==> k in t.keys && t.keys[k].holder == a {
        assert t.HeldBy(a) == s.HeldBy(a);
      }
    }
    assert EntitiesListed(t) by {
      forall e ensures Ascending(t.IssuedFor(e)) && forall k :: k in t.IssuedFor(e) <==> k in t.keys && t.keys[k].entity == e {
        assert t.IssuedFor(e) == s.IssuedFor(e);
      }
    }
  }

  lemma StepKeepsListed(cfg: Config, s: Storage, now: nat, call: Call)
    requires Listed(s)
    ensures Listed(Step(cfg, s, now, call))
  {
    hide Mint;
    var t := s.nextToken;
    if Dispatch(cfg, s, now, call).Ok? {
      match call
      case Issue(issuer, kind, entity, holder, role, level, portals) =>
        MintKeepsListed(cfg, s, Key(t, kind, entity, holder, role, level, portals, now, false, issuer, [], false, LEGACY_HR_ROLE));
      case IssueSbt(issuer, kind, entity, orgReg, holder, role, level, portals, hrRole) =>
        MintKeepsListed(cfg, s, Key(t, kind, entity, holder, role, level, portals, now, false, issuer, orgReg, true, hrRole));
      case Revoke(_, _) => RevokeKeepsListed(s, call.revoker, call.token);
    }
  }

  lemma {:induction false} IndexesStayExact(cfg: Config, s: Storage, calls: seq<Timed>)
    requires Listed(s)
    ensures Listed(Run(cfg, s, calls))
    decreases |calls|
  {
    if calls != [] {
      StepKeepsListed(cfg, s, calls[0].now, calls[0].call);
      IndexesStayExact(cfg, Step(cfg, s, calls[0].now, calls[0].call), calls[1..]);
    }
  }

  // ---------------------------------------------------------------- the scans

  /** What scanning the holder's list finds is what the whole table holds. */
  lemma ScanDecidesAccess(s: Storage, who: Account, entity: Bytes, mask: bv8)
    requires Listed(s)
    ensures (exists i :: 0 <= i < |s.HeldBy(who)| && s.HeldBy(who)[i] in s.keys && Opens(s.keys[s.HeldBy(who)[i]], entity, mask))
            <==> HasAccess(s, who, entity, mask)
  {
    if HasAccess(s, who, entity, mask) {
      var t :| t in s.keys && s.keys[t].holder == who && Opens(s.keys[t], entity, mask);
      assert t in s.HeldBy(who);
    }
  }

  lemma ScanDecidesSbt(s: Storage, who: Account, entity: Bytes, orgReg: Bytes, mask: bv8)
    requires Listed(s)
    ensures (exists i :: 0 <= i < |s.HeldBy(who)| && s.HeldBy(who)[i] in s.keys
                         && OpensSbt(s.keys[s.HeldBy(who)[i]], entity, orgReg, mask))
            <==> HasSbt(s, who, entity, orgReg, mask)
  {
    if HasSbt(s, who, entity, orgReg, mask) {
      var t :| t in s.keys && s.keys[t].holder == who && OpensSbt(s.keys[t], entity, orgReg, mask);
      assert t in s.HeldBy(who);
    }
  }

  lemma SbtImpliesAccess(s: Storage, who: Account, entity: Bytes, orgReg: Bytes, mask: bv8)
    requires HasSbt(s, who, entity, orgReg, mask)
    ensures HasAccess(s, who, entity, mask)
  {
    var t :| t in s.keys && s.keys[t].holder == who && OpensSbt(s.keys[t], entity, orgReg, mask);
    assert Opens(s.keys[t], entity, mask);
  }

  /** The holder's oldest live SBT key for an organisation, as the role query reports it. */
  ghost predicate OldestRole(s: Storage, who: Account, orgReg: Bytes, role: Option<nat>) {
    match role
    case Some(r) =>
      exists t :: t in s.keys && s.keys[t].holder == who && LiveSbt(s.keys[t], orgReg) && s.keys[t].hrRole == r
                  && forall u :: u in s.keys && s.keys[u].holder == who && LiveSbt(s.keys[u], orgReg) ==> t <= u
    case None => forall t :: t in s.keys && s.keys[t].holder == who ==> !LiveSbt(s.keys[t], orgReg)
  }

  // ---------------------------------------------------------------- gaining access

  /** What an issued key is: the one asked for, numbered next, live, in the name of its issuer. */
  lemma KeyRecorded(cfg: Config, s: Storage, now: nat, call: Call)
    requires !call.Revoke? && Dispatch(cfg, s, now, call).Ok?
    ensures var t, n := Step(cfg, s, now, call), s.nextToken;
            && t.nextToken == n + 1 && t.keys.Keys == s.keys.Keys + {n}
            && (forall k :: k in s.keys && k != n ==> t.keys[k] == s.keys[k])
            && var key := t.keys[n];
               && key.tokenId == n && key.holder == call.holder && key.entity == call.entity && key.kind == call.kind
               && key.role == call.role && key.level == call.level && key.portals == call.portals
               && key.issuedBy == call.issuer && key.issuedAt == now && !key.revoked
               && (call.Issue? ==> !key.walletBound && key.orgReg == [] && key.hrRole == 255)
               && (call.IssueSbt? ==> key.walletBound && key.orgReg == call.orgReg && key.hrRole == call.hrRole)
  {}

  /** The portals a call asks to open for `who` at `entity`. */
  predicate Opening(call: Call, who: Account, entity: Bytes, mask: bv8) {
    !call.Revoke? && call.holder == who && call.entity == entity && call.portals & mask == mask
  }

  /** A table with one key more grants what it did and what that key grants. */
  lemma TableGrows(s: Storage, t: Storage, n: nat, who: Account, entity: Bytes, orgReg: Bytes, mask: bv8)
    requires n !in s.keys && n in t.keys && t.keys == s.keys[n := t.keys[n]]
    ensures HasAccess(t, who, entity, mask)
            <==> HasAccess(s, who, entity, mask) || (t.keys[n].holder == who && Opens(t.keys[n], entity, mask))
    ensures HasSbt(t, who, entity, orgReg, mask)
            <==> HasSbt(s, who, entity, orgReg, mask) || (t.keys[n].holder == who && OpensSbt(t.keys[n], entity, orgReg, mask))
  {
    hide Opens, OpensSbt;
    if HasAccess(s, who, entity, mask) {
      var k :| k in s.keys && s.keys[k].holder == who && Opens(s.keys[k], entity, mask);
      assert t.keys[k] == s.keys[k];
    }
    if HasSbt(s, who, entity, orgReg, mask) {
      var k :| k in s.keys && s.keys[k].holder == who && OpensSbt(s.keys[k], entity, orgReg, mask);
      assert t.keys[k] == s.keys[k];
    }
  }

  lemma OpensAsAsked(key: Key, call: Call, who: Account, entity: Bytes, orgReg: Bytes, mask: bv8)
    requires !call.Revoke? && !key.revoked && key.holder == call.holder && key.entity == call.entity && key.portals == call.portals
    requires key.walletBound <==> call.IssueSbt?
    requires call.IssueSbt? ==> key.orgReg == call.orgReg
    ensures key.holder == who && Opens(key, entity, mask) <==> Opening(call, who, entity, mask)
    ensures key.holder == who && OpensSbt(key, entity, orgReg, mask)
            <==> call.IssueSbt? && call.orgReg == orgReg && Opening(call, who, entity, mask)
  {}

  /** An issued key opens to its holder exactly the portals asked for, at the entity asked for, and opens
      nothing to anybody else; the dual binding it gives only if it is bound, for the organisation it
      names. */
  lemma IssueGrantsExactly(cfg: Config, s: Storage, now: nat, call: Call, who: Account, entity: Bytes, orgReg: Bytes, mask: bv8)
    requires Numbered(s) && !call.Revoke? && Dispatch(cfg, s, now, call).Ok?
    ensures var t := Step(cfg, s, now, call);
            && (HasAccess(t, who, entity, mask) <==> HasAccess(s, who, entity, mask) || Opening(call, who, entity, mask))
            && (HasSbt(t, who, entity, orgReg, mask)
                <==> HasSbt(s, who, entity, orgReg, mask)
                     || (call.IssueSbt? && call.orgReg == orgReg && Opening(call, who, entity, mask)))
  {
    var t, n := Step(cfg, s, now, call), s.nextToken;
    KeyRecorded(cfg, s, now, call);
    OpensAsAsked(t.keys[n], call, who, entity, orgReg, mask);
    hide Step, Dispatch, HasAccess, HasSbt, Opens, OpensSbt, Opening;
    assert n !in s.keys && t.keys == s.keys[n := t.keys[n]];
    TableGrows(s, t, n, who, entity, orgReg, mask);
  }

  /** A bound key gives its holder its role in its organisation, unless an older live one already does. */
  lemma IssueGivesRole(cfg: Config, s: Storage, now: nat, call: Call, who: Account, orgReg: Bytes, role: nat)
    requires Numbered(s) && !call.Revoke? && Dispatch(cfg, s, now, call).Ok?
    ensures OldestRole(Step(cfg, s, now, call), who, orgReg, Some(role))
            <==> || OldestRole(s, who, orgReg, Some(role))
                 || (OldestRole(s, who, orgReg, None) && call.IssueSbt? && call.holder == who && call.orgReg == orgReg && call.hrRole == role)
  {
    KeyRecorded(cfg, s, now, call);
    hide Step, Dispatch;
    var t, n := Step(cfg, s, now, call), s.nextToken;
    assert n !in s.keys && forall k :: k in s.keys ==> k < n;
    forall k | k in t.keys ensures k != n ==> k in s.keys && t.keys[k] == s.keys[k] {}
    if OldestRole(s, who, orgReg, Some(role)) {
      var k :| k in s.keys && s.keys[k].holder == who && LiveSbt(s.keys[k], orgReg) && s.keys[k].hrRole == role
               && forall u :: u in s.keys && s.keys[u].holder == who && LiveSbt(s.keys[u], orgReg) ==> k <= u;
      assert k in t.keys && t.keys[k] == s.keys[k];
    }
    if OldestRole(s, who, orgReg, None) && call.IssueSbt? && call.holder == who && call.orgReg == orgReg && call.hrRole == role {
      assert n in t.keys && LiveSbt(t.keys[n], orgReg);
    }
    if OldestRole(t, who, orgReg, Some(role)) {
      var k :| k in t.keys && t.keys[k].holder == who && LiveSbt(t.keys[k], orgReg) && t.keys[k].hrRole == role
               && forall u :: u in t.keys && t.keys[u].holder == who && LiveSbt(t.keys[u], orgReg) ==> k <= u;
      forall u | u in s.keys && s.keys[u].holder == who && LiveSbt(s.keys[u], orgReg) ensures k <= u {
        assert u in t.keys && t.keys[u] == s.keys[u];
      }
      if k == n {
        assert forall u :: u in s.keys && s.keys[u].holder == who ==> !LiveSbt(s.keys[u], orgReg);
      }
    }
  }

  /** What each call asks of its arguments and of the lists it lengthens. */
  predicate Accepts(cfg: Config, s: Storage, call: Call) {
    match call
    case Issue(_, _, entity, holder, _, level, portals) =>
      && 1 <= level <= 10 && 1 <= portals <= 7 && |entity| <= 64
      && |s.HeldBy(holder)| < cfg.maxPerHolder && |s.IssuedFor(entity)| < cfg.maxPerEntity
    case IssueSbt(_, _, entity, orgReg, holder, _, level, portals, _) =>
      && 1 <= level <= 10 && 1 <= portals <= 7 && |entity| <= 64 && 0 < |orgReg| <= 32
      && |s.HeldBy(holder)| < cfg.maxPerHolder && |s.IssuedFor(entity)| < cfg.maxPerEntity
    case Revoke(revoker, token) => token in s.keys && !s.keys[token].revoked && s.keys[token].issuedBy == revoker
  }

  lemma AcceptedExactly(cfg: Config, s: Storage, now: nat, call: Call)
    ensures Dispatch(cfg, s, now, call).Ok? <==> Accepts(cfg, s, call)
  {}

  // ---------------------------------------------------------------- losing access

  /** A minted key never changes except for being revoked, by its own issuer. */
  lemma StepChangesKey(cfg: Config, s: Storage, now: nat, call: Call, t: nat)
    requires Numbered(s) && t in s.keys
    ensures var after := Step(cfg, s, now, call);
            && Numbered(after) && t in after.keys
            && after.keys[t] == s.keys[t].(revoked := s.keys[t].revoked || call == Revoke(s.keys[t].issuedBy, t))
  {}

  /** Over any run a key ends revoked exactly when it was already, or its issuer asked for it. */
  lemma {:induction false} RevokedExactlyByIssuer(cfg: Config, s: Storage, calls: seq<Timed>, t: nat)
    requires Numbered(s) && t in s.keys
    ensures t in Run(cfg, s, calls).keys
    ensures Run(cfg, s, calls).keys[t] == s.keys[t].(revoked := Run(cfg, s, calls).keys[t].revoked)
    ensures Run(cfg, s, calls).keys[t].revoked
            <==> s.keys[t].revoked || exists i :: 0 <= i < |calls| && calls[i].call == Revoke(s.keys[t].issuedBy, t)
    decreases |calls|
  {
    if calls != [] {
      var rest := calls[1..];
      StepChangesKey(cfg, s, calls[0].now, calls[0].call, t);
      hide Step, Numbered;
      RevokedExactlyByIssuer(cfg, Step(cfg, s, calls[0].now, calls[0].call), rest, t);
      var asked := Revoke(s.keys[t].issuedBy, t);
      assert (exists i :: 0 <= i < |calls| && calls[i].call == asked)
             <==> calls[0].call == asked || exists i :: 0 <= i < |rest| && rest[i].call == asked by {
        if i :| 0 <= i < |calls| && calls[i].call == asked {
          assert i > 0 ==> rest[i - 1].call == asked;
        }
        if i :| 0 <= i < |rest| && rest[i].call == asked {
          assert calls[i + 1].call == asked;
        }
      }
    }
  }

  // ---------------------------------------------------------------- access over runs

  /** A run cut short before its call number `i`. */
  function Before(cfg: Config, s: Storage, calls: seq<Timed>, i: nat): Storage
    requires i <= |calls|
  {
    Run(cfg, s, calls[..i])
  }

  lemma {:induction false} RunSplit(cfg: Config, s: Storage, a: seq<Timed>, b: seq<Timed>)
    ensures Run(cfg, s, a + b) == Run(cfg, Run(cfg, s, a), b)
    decreases |a|
  {
    hide Step;
    if a == [] {
      assert a + b == b;
    } else {
      assert (a + b)[1..] == a[1..] + b;
      RunSplit(cfg, Step(cfg, s, a[0].now, a[0].call), a[1..], b);
    }
  }

  lemma BeforeNext(cfg: Config, s: Storage, calls: seq<Timed>, i: nat)
    requires i < |calls|
    ensures Before(cfg, s, calls, i + 1) == Step(cfg, Before(cfg, s, calls, i), calls[i].now, calls[i].call)
    ensures Run(cfg, s, calls) == Run(cfg, Before(cfg, s, calls, i + 1), calls[i + 1..])
  {
    hide Step;
    assert calls[..i + 1] == calls[..i] + [calls[i]] && calls == calls[..i + 1] + calls[i + 1..];
    RunSplit(cfg, s, calls[..i], [calls[i]]);
    RunSplit(cfg, s, calls[..i + 1], calls[i + 1..]);
    assert [calls[i]][1..] == [];
  }

  lemma StepKeepsNumbered(cfg: Config, s: Storage, now: nat, call: Call)
    requires Numbered(s)
    ensures Numbered(Step(cfg, s, now, call))
    ensures Step(cfg, s, now, call).nextToken == s.nextToken + if !call.Revoke? && Dispatch(cfg, s, now, call).Ok? then 1 else 0
  {}

  lemma {:induction false} NumberedBefore(cfg: Config, calls: seq<Timed>, i: nat)
    requires i <= |calls|
    ensures Numbered(Before(cfg, Fresh(), calls, i))
  {
    if i > 0 {
      NumberedBefore(cfg, calls, i - 1);
      BeforeNext(cfg, Fresh(), calls, i - 1);
      StepKeepsNumbered(cfg, Before(cfg, Fresh(), calls, i - 1), calls[i - 1].now, calls[i - 1].call);
      hide Step, Before, Numbered;
    } else {
      assert calls[..0] == [];
    }
  }

  /** Call `i` of the run was accepted and issued key `k`. */
  ghost predicate Issues(cfg: Config, calls: seq<Timed>, i: nat, k: nat) {
    && i < |calls| && !calls[i].call.Revoke?
    && Dispatch(cfg, Before(cfg, Fresh(), calls, i), calls[i].now, calls[i].call).Ok?
    && Before(cfg, Fresh(), calls, i).nextToken == k
  }

  /** ... and its issuer has not revoked it by the end. */
  ghost predicate Unrevoked(calls: seq<Timed>, i: nat, k: nat)
    requires i < |calls| && !calls[i].call.Revoke?
  {
    forall j :: i < j < |calls| ==> calls[j].call != Revoke(calls[i].call.issuer, k)
  }

  /** Every key of a run's registry was issued by one of its calls. */
  lemma {:induction false} KeyOrigin(cfg: Config, calls: seq<Timed>, n: nat, k: nat)
    returns (i: nat)
    requires n <= |calls| && k < Before(cfg, Fresh(), calls, n).nextToken
    ensures i < n && Issues(cfg, calls, i, k)
    decreases n
  {
    BeforeNext(cfg, Fresh(), calls, n - 1);
    NumberedBefore(cfg, calls, n - 1);
    StepKeepsNumbered(cfg, Before(cfg, Fresh(), calls, n - 1), calls[n - 1].now, calls[n - 1].call);
    hide Step, Before, Numbered, Dispatch;
    if k < Before(cfg, Fresh(), calls, n - 1).nextToken {
      i := KeyOrigin(cfg, calls, n - 1, k);
    } else {
      i := n - 1;
    }
  }

  /** An issued key is there in the end as it was asked for, revoked exactly if its issuer revoked it. */
  lemma {:induction false} KeyInTheEnd(cfg: Config, calls: seq<Timed>, i: nat, k: nat)
    requires Issues(cfg, calls, i, k)
    ensures var t, call := Run(cfg, Fresh(), calls), calls[i].call;
            && k in t.keys && t.keys[k].holder == call.holder && t.keys[k].entity == call.entity
            && t.keys[k].portals == call.portals && t.keys[k].issuedBy == call.issuer
            && (t.keys[k].revoked <==> !Unrevoked(calls, i, k))
  {
    var s := Before(cfg, Fresh(), calls, i);
    var start, rest := Before(cfg, Fresh(), calls, i + 1), calls[i + 1..];
    NumberedBefore(cfg, calls, i);
    NumberedBefore(cfg, calls, i + 1);
    BeforeNext(cfg, Fresh(), calls, i);
    KeyRecorded(cfg, s, calls[i].now, calls[i].call);
    hide Step, Before, Run, Dispatch, Numbered;
    RevokedExactlyByIssuer(cfg, start, rest, k);
    assert forall j :: 0 <= j < |rest| ==> rest[j] == calls[i + 1 + j];
    assert (exists j :: 0 <= j < |rest| && rest[j].call == Revoke(calls[i].call.issuer, k)) <==> !Unrevoked(calls, i, k) by {
      if !Unrevoked(calls, i, k) {
        var j :| i < j < |calls| && calls[j].call == Revoke(calls[i].call.issuer, k);
        assert rest[j - i - 1].call == Revoke(calls[i].call.issuer, k);
      }
    }
  }

  /** Access over whole runs: an account may pass exactly if some accepted call of the run opened the
      portal to it and the issuer has not taken that key back. */
  lemma {:induction false} AccessExactlyAsGranted(cfg: Config, calls: seq<Timed>, who: Account, entity: Bytes, mask: bv8)
    ensures HasAccess(Run(cfg, Fresh(), calls), who, entity, mask)
            <==> exists i: nat, k: nat :: Issues(cfg, calls, i, k) && Opening(calls[i].call, who, entity, mask) && Unrevoked(calls, i, k)
  {
    var t := Run(cfg, Fresh(), calls);
    assert calls[..|calls|] == calls;
    NumberedBefore(cfg, calls, |calls|);
    if HasAccess(t, who, entity, mask) {
      var k :| k in t.keys && t.keys[k].holder == who && Opens(t.keys[k], entity, mask);
      var i := KeyOrigin(cfg, calls, |calls|, k);
      KeyInTheEnd(cfg, calls, i, k);
      hide Run, Unrevoked, Issues;
      assert Issues(cfg, calls, i, k) && Opening(calls[i].call, who, entity, mask) && Unrevoked(calls, i, k);
    }
    if i: nat, k: nat :| Issues(cfg, calls, i, k) && Opening(calls[i].call, who, entity, mask) && Unrevoked(calls, i, k) {
      KeyInTheEnd(cfg, calls, i, k);
      assert Opens(t.keys[k], entity, mask);
    }
  }

  /** The system Creator is no exception: an account that did not issue the key asks in vain. */
  lemma CreatorCannotRevoke(cfg: Config, issuer: Account, creator: Account, holder: Account)
    requires issuer != creator && cfg.maxPerHolder > 0 && cfg.maxPerEntity > 0
    ensures var calls := [At(0, Issue(issuer, Bank, [], holder, 0, 1, 1)), At(1, Revoke(creator, 0))];
            var t := Run(cfg, Fresh(), calls);
            0 in t.keys && !t.keys[0].revoked && HasAccess(t, holder, [], 1)
  {
    var calls := [At(0, Issue(issuer, Bank, [], holder, 0, 1, 1)), At(1, Revoke(creator, 0))];
    var s := Step(cfg, Fresh(), 0, calls[0].call);
    assert Covers(1, 1);
    assert 0 in s.keys && s.keys[0].issuedBy == issuer && Opens(s.keys[0], [], 1) && s.keys[0].holder == holder && Numbered(s);
    assert Run(cfg, Fresh(), calls) == Run(cfg, s, calls[1..]);
    AccessOutlivesRun(cfg, s, calls[1..], 0, holder, [], 1);
    RevokedExactlyByIssuer(cfg, s, calls[1..], 0);
    hide Step, Run, Covers;
  }

  /** Access granted by a key lasts through every run in which its issuer does not revoke it. */
  lemma {:induction false} AccessOutlivesRun(cfg: Config, s: Storage, calls: seq<Timed>, t: nat, who: Account, entity: Bytes, mask: bv8)
    requires Numbered(s) && t in s.keys && s.keys[t].holder == who && Opens(s.keys[t], entity, mask)
    requires forall i :: 0 <= i < |calls| ==> calls[i].call != Revoke(s.keys[t].issuedBy, t)
    ensures HasAccess(Run(cfg, s, calls), who, entity, mask)
  {
    RevokedExactlyByIssuer(cfg, s, calls, t);
  }
}

/** The dispatchables and the scanning queries as they run. */
module AccessNftPallet {
  import opened Prelude
  import opened AccessNftRuns
  import opened M = AccessNft

  class Pallet {
    const cfg: Config
    var accessKeys: map<nat, Key>
    var nextTokenId: nat
    var holderKeys: map<Account, seq<nat>>
    var entityKeys: map<Bytes, seq<nat>>

    ghost function Contents(): Storage
      reads this
    {
      Storage(accessKeys, nextTokenId, holderKeys, entityKeys)
    }

    constructor (cfg: Config)
      ensures this.cfg == cfg && Contents() == Fresh() && Listed(Contents())
    {
      this.cfg := cfg;
      accessKeys, nextTokenId, holderKeys, entityKeys := map[], 0, map[], map[];
    }

    method IssueAccessKey(now: nat, issuer: Account, kind: EntityKind, entity: Bytes, holder: Account, role: nat,
                          level: nat, portals: bv8) returns (r: Outcome<(), Error>)
      modifies this
      ensures Atomic(M.IssueAccessKey(cfg, old(Contents()), now, issuer, kind, entity, holder, role, level, portals),
                     old(Contents()), Contents(), r)
    {
      if level < 1 || level > 10 { return Err(InvalidAccessLevel); }
      if portals < 1 || portals > 7 { return Err(InvalidPortalMask); }
      if |entity| > 64 { return Err(EntityIdTooLong); }
      r := Store(Key(nextTokenId, kind, entity, holder, role, level, portals, now, false, issuer, [], false, LEGACY_HR_ROLE));
    }

    method IssueSbtKey(now: nat, issuer: Account, kind: EntityKind, entity: Bytes, orgReg: Bytes, holder: Account,
                       role: nat, level: nat, portals: bv8, hrRole: nat) returns (r: Outcome<(), Error>)
      modifies this
      ensures Atomic(M.IssueSbtKey(cfg, old(Contents()), now, issuer, kind, entity, orgReg, holder, role, level, portals, hrRole),
                     old(Contents()), Contents(), r)
    {
      if level < 1 || level > 10 { return Err(InvalidAccessLevel); }
      if portals < 1 || portals > 7 { return Err(InvalidPortalMask); }
      if |entity| > 64 { return Err(EntityIdTooLong); }
      if |orgReg| > 32 { return Err(OrgRegTooLong); }
      if orgReg == [] { return Err(OrgRegTooLong); }
      r := Store(Key(nextTokenId, kind, entity, holder, role, level, portals, now, false, issuer, orgReg, true, hrRole));
    }

    /** Counter, table, holder list, entity list; a full list undoes it all. */
    method Store(key: Key) returns (r: Outcome<(), Error>)
      requires key.tokenId == nextTokenId
      modifies this
      ensures Atomic(M.Mint(cfg, old(Contents()), key), old(Contents()), Contents(), r)
    {
      var keysBefore, holdersBefore := accessKeys, holderKeys;
      nextTokenId := nextTokenId + 1;
      accessKeys := accessKeys[key.tokenId := key];
      var held := if key.holder in holderKeys then holderKeys[key.holder] else [];
      if |held| >= cfg.maxPerHolder {
        accessKeys, nextTokenId := keysBefore, key.tokenId;
        return Err(TooManyKeysForHolder);
      }
      holderKeys := holderKeys[key.holder := held + [key.tokenId]];
      var issued := if key.entity in entityKeys then entityKeys[key.entity] else [];
      if |issued| >= cfg.maxPerEntity {
        accessKeys, holderKeys, nextTokenId := keysBefore, holdersBefore, key.tokenId;
        return Err(TooManyHoldersForEntity);
      }
      entityKeys := entityKeys[key.entity := issued + [key.tokenId]];
      r := Ok(());
    }

    method RevokeAccessKey(revoker: Account, token: nat) returns (r: Outcome<(), Error>)
      modifies this
      ensures Atomic(M.RevokeAccessKey(old(Contents()), revoker, token), old(Contents()), Contents(), r)
    {
      if token !in accessKeys { return Err(TokenNotFound); }
      var key := accessKeys[token];
      if key.revoked { return Err(AlreadyRevoked); }
      if key.issuedBy != revoker { return Err(NotIssuer); }
      key := key.(revoked := true);
      accessKeys := accessKeys[token := key];
      r := Ok(());
    }

    /** The scan over the holder's keys; on an exactly listed registry it decides access. */
    method CheckAccess(who: Account, entity: Bytes, mask: bv8) returns (found: bool)
      requires Listed(Contents())
      ensures found <==> HasAccess(Contents(), who, entity, mask)
    {
      hide Covers;
      ScanDecidesAccess(Contents(), who, entity, mask);
      var keys := if who in holderKeys then holderKeys[who] else [];
      for i := 0 to |keys|
        invariant forall j :: 0 <= j < i ==> keys[j] in accessKeys ==> !Opens(accessKeys[keys[j]], entity, mask)
      {
        if keys[i] in accessKeys {
          var key := accessKeys[keys[i]];
          if !key.revoked && key.entity == entity && Covers(key.portals, mask) {
            assert Opens(accessKeys[Contents().HeldBy(who)[i]], entity, mask);
            return true;
          }
        }
      }
      found := false;
    }

    method VerifySbt(who: Account, entity: Bytes, orgReg: Bytes, mask: bv8) returns (found: bool)
      requires Listed(Contents())
      ensures found <==> HasSbt(Contents(), who, entity, orgReg, mask)
    {
      hide Covers;
      ScanDecidesSbt(Contents(), who, entity, orgReg, mask);
      var keys := if who in holderKeys then holderKeys[who] else [];
      for i := 0 to |keys|
        invariant forall j :: 0 <= j < i ==> keys[j] in accessKeys ==> !OpensSbt(accessKeys[keys[j]], entity, orgReg, mask)
      {
        if keys[i] in accessKeys {
          var key := accessKeys[keys[i]];
          if !key.revoked && key.walletBound && key.entity == entity && key.orgReg == orgReg && Covers(key.portals, mask) {
            assert OpensSbt(accessKeys[Contents().HeldBy(who)[i]], entity, orgReg, mask);
            return true;
          }
        }
      }
      found := false;
    }

    method GetHrRole(who: Account, orgReg: Bytes) returns (role: Option<nat>)
      requires Listed(Contents())
      ensures OldestRole(Contents(), who, orgReg, role)
    {
      var keys := if who in holderKeys then holderKeys[who] else [];
      assert keys == Contents().HeldBy(who) && Ascending(keys);
      for i := 0 to |keys|
        invariant forall j :: 0 <= j < i ==> keys[j] in accessKeys ==> !LiveSbt(accessKeys[keys[j]], orgReg)
      {
        if keys[i] in accessKeys {
          var key := accessKeys[keys[i]];
          if !key.revoked && key.walletBound && key.orgReg == orgReg {
            forall u | u in accessKeys && accessKeys[u].holder == who && LiveSbt(accessKeys[u], orgReg) ensures keys[i] <= u {
              assert u in keys;
            }
            return Some(key.hrRole);
          }
        }
      }
      role := None;
    }

    // -------------------------------------------------------------- runs

    /** One call, routed to its dispatchable. */
    method ExecuteOne(now: nat, call: Call) returns (r: Outcome<(), Error>)
      modifies this
      ensures Atomic(Dispatch(cfg, old(Contents()), now, call), old(Contents()), Contents(), r)
    {
      hide M.IssueAccessKey, M.IssueSbtKey, M.RevokeAccessKey;
      match call
      case Issue(issuer, kind, entity, holder, role, level, portals) =>
        r := IssueAccessKey(now, issuer, kind, entity, holder, role, level, portals);
      case IssueSbt(issuer, kind, entity, orgReg, holder, role, level, portals, hrRole) =>
        r := IssueSbtKey(now, issuer, kind, entity, orgReg, holder, role, level, portals, hrRole);
      case Revoke(revoker, token) => r := RevokeAccessKey(revoker, token);
    }

    /** A sequence of calls leaves the storage the run of its transitions ends in, and a registry whose
        lists were exact answers the scans rightly afterwards. */
    method Execute(calls: seq<Timed>)
      modifies this
      ensures Contents() == Run(cfg, old(Contents()), calls)
      ensures old(Listed(Contents())) ==> Listed(Contents())
    {
      if Listed(Contents()) { IndexesStayExact(cfg, Contents(), calls); }
      hide Listed, Dispatch;
      for i := 0 to |calls|
        invariant Run(cfg, Contents(), calls[i..]) == Run(cfg, old(Contents()), calls)
      {
        assert calls[i..][1..] == calls[i + 1..];
        var _ := ExecuteOne(calls[i].now, calls[i].call);
      }
    }
  }
  /** A chain started from an empty registry ends with exact lists. */
  method ChainFromEmpty(cfg: Config, calls: seq<Timed>) returns (p: Pallet)
    ensures fresh(p) && p.cfg == cfg && p.Contents() == Run(cfg, Fresh(), calls)
    ensures Listed(p.Contents())
  {
    hide Run, Listed;
    p := new Pallet(cfg);
    p.Execute(calls);
  }
}
