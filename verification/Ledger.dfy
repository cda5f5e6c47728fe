/** The accounts the program owns, their lamports, and the arithmetic every handler shares. */
module Ledger {
  import opened Prelude
  import opened Odds
  import opened Reveal
  import opened Sums

  /** A wallet's public key; 0 is `Pubkey::default()`. */
  type Id = nat

  /** Every account that can hold lamports. */
  datatype Account =
    | Wallet(id: Id) | VaultPda | ClaimPda(id: Id) | GamePda(id: Id) | SessionPda(id: Id)
    | StatsPda(id: Id) | PositionPda(id: Id) | ReferralPda(id: Id)

  type Lamports = map<Account, nat>

  // ---------------------------------------------------------------- lamports

  /** Rent-exempt minimum on the default rent schedule. */
  function Rent(space: nat): nat {
    (128 + space) * 6_960
  }

  const VAULT_SPACE: nat := 428
  const CLAIM_SPACE: nat := 69
  const GAME_SPACE: nat := 621
  const SESSION_SPACE: nat := 180
  const STATS_SPACE: nat := 203
  const POSITION_SPACE: nat := 121
  const REFERRAL_SPACE: nat := 103

  function Bal(l: Lamports, a: Account): nat {
    if a in l then l[a] else 0
  }

  function Balance(a: Account, n: nat): nat { n }

  ghost function Total(l: Lamports): nat {
    Sum<Account, nat>(l, Balance)
  }

  /** Spendable lamports: the balance above the vault's rent minimum. */
  function Assets(l: Lamports): nat {
    SatSub(Bal(l, VaultPda), Rent(VAULT_SPACE))
  }

  /** No lamport is created or destroyed, and a vault at its rent minimum stays there. */
  ghost predicate MoneyKept(l: Lamports, l': Lamports) {
    && Total(l') == Total(l)
    && (Rent(VAULT_SPACE) <= Bal(l, VaultPda) ==> Rent(VAULT_SPACE) <= Bal(l', VaultPda))
  }

  function Part(a: Account, party: Account, n: nat): nat {
    if a == party then n else 0
  }

  /** A checked debit then a checked credit on live balances, so a transfer to oneself nets to zero. */
  function Move(l: Lamports, from: Account, to: Account, n: nat): (r: Result<Lamports>)
    ensures r.Ok? ==> Bal(r.value, VaultPda) == Bal(l, VaultPda) - Part(VaultPda, from, n) + Part(VaultPda, to, n)
    ensures r.Ok? && (from == VaultPda ==> n <= Assets(l)) ==> MoneyKept(l, r.value)
    ensures Total(l) <= U64_MAX ==> (r.Ok? <==> n <= Bal(l, from))
  {
    if n > Bal(l, from) then Err(MathOverflow)
    else
      var debited := l[from := Bal(l, from) - n];
      SumUpdate<Account, nat>(l, Balance, from, Bal(l, from) - n);
      SumUpdate<Account, nat>(debited, Balance, to, Bal(debited, to) + n);
      BalanceBounded(debited, to);
      if Bal(debited, to) + n > U64_MAX then Err(MathOverflow)
      else Ok(debited[to := Bal(debited, to) + n])
  }

  lemma BalanceBounded(l: Lamports, a: Account)
    ensures Bal(l, a) <= Total(l)
  {
    if a in l {
      SumAtLeast<Account, nat>(l, Balance, a);
    }
  }

  /** `init`: the payer brings the new account up to its rent minimum. */
  function Fund(l: Lamports, payer: Id, a: Account, space: nat): (r: Result<Lamports>)
    ensures r.Ok? ==> MoneyKept(l, r.value)
    ensures r.Ok? ==> Bal(r.value, VaultPda) == Bal(l, VaultPda) + Part(VaultPda, a, SatSub(Rent(space), Bal(l, a)))
  {
    Move(l, Wallet(payer), a, SatSub(Rent(space), Bal(l, a)))
  }

  /** `close`: every lamport of the account goes to the target. */
  function Drain(l: Lamports, a: Account, to: Account): (r: Result<Lamports>)
    ensures r.Ok? && a != VaultPda ==> MoneyKept(l, r.value)
    ensures r.Ok? && a != VaultPda && to != VaultPda ==> Bal(r.value, VaultPda) == Bal(l, VaultPda)
  {
    Move(l, a, to, Bal(l, a))
  }

  // ---------------------------------------------------------------- accounts

  datatype Vault = Vault(
    owner: Id, houseAuthority: Id, treasury: Account, edge: nat, maxBetBps: nat, maxPayoutBps: nat,
    splitBps: nat, paused: bool, allowlist: set<Account>)

  datatype V2State = V2State(
    outstanding: nat,
    totalUnits: nat, houseUnits: nat, housePending: nat, houseUnlock: nat, seedUnits: nat, totalPending: nat,
    minHouseShare: nat, maxUserPosition: nat, minHealth: nat, cooldown: nat, minDeposit: nat,
    vrfEnabled: bool, vrfValidator: Id, vrfMaxPayoutBps: nat)

  datatype Position = Position(units: nat, pending: nat, unlock: nat)

  datatype SessionStatus = Playing | Won | Lost | Expired

  /** A SHA-256 digest. */
  type Digest = Randomness

  /** A commit-reveal game. A tile mask is the set of its one bits. */
  datatype Session = Session(
    status: SessionStatus, bet: nat, mines: nat, commitment: Digest, revealed: set<nat>, safeTiles: set<nat>,
    safe: nat, mult: nat, startSlot: nat, settled: bool, maxPayout: nat)

  datatype Referral = Referral(referrer: Id, tier: nat, accrued: nat, volume: nat)

  /** What L1 sees of a reveal account: zero-filled bytes, or a game. */
  datatype Image = Blank | Bytes(game: VrfGame)

  /**
   The reveal account. Under program ownership L1 holds the live game; while delegated the live
   game is the rollup's, and L1 keeps an image that may be blank or stale.
   */
  datatype GameSlot = OnL1(game: VrfGame) | Delegated(image: Image, game: VrfGame)

  function L1Image(slot: GameSlot): Image {
    if slot.OnL1? then Bytes(slot.game) else slot.image
  }

  /** The status byte as the raw readers see it: zero-filled bytes read as Playing. */
  function RawStatus(image: Image): nat {
    if image.Blank? then 0 else image.game.status
  }

  datatype State = State(
    slot: nat, vault: Vault, v2: V2State, lamports: Lamports,
    claims: map<Id, Claim>, games: map<Id, GameSlot>, positions: map<Id, Position>,
    sessions: map<Id, Session>, stats: map<Id, Option<Id>>, referrals: map<Id, Referral>)

  // ---------------------------------------------------------------- what is counted

  function ReservedOf(id: Id, c: Claim): nat { c.reserved }

  /** A session owes its worst case while it plays, and until a finished one is settled. */
  function ObligationOf(id: Id, g: Session): nat {
    if g.status == Playing || ((g.status == Won || g.status == Lost) && !g.settled) then g.maxPayout else 0
  }

  function UnitsOf(id: Id, p: Position): nat { p.units + p.pending }

  function PendingOf(id: Id, p: Position): nat { p.pending }

  function Reserved(s: State, p: Id): nat {
    if p in s.claims then s.claims[p].reserved else 0
  }

  function Owed(s: State, p: Id): nat {
    if p in s.sessions then ObligationOf(p, s.sessions[p]) else 0
  }

  function Units(s: State, u: Id): nat {
    if u in s.positions then UnitsOf(u, s.positions[u]) else 0
  }

  function Pending(s: State, u: Id): nat {
    if u in s.positions then s.positions[u].pending else 0
  }

  function OperatorUnits(v2: V2State): nat {
    v2.seedUnits + v2.houseUnits + v2.housePending
  }

  /** Only a finished session can be settled. */
  predicate SessionSound(s: State, p: Id) {
    p in s.sessions && s.sessions[p].status == Playing ==> !s.sessions[p].settled
  }

  // ---------------------------------------------------------------- what each kind of handler may do

  ghost predicate SameUnits(s: State, t: State) {
    && t.v2.totalUnits == s.v2.totalUnits && OperatorUnits(t.v2) == OperatorUnits(s.v2)
    && t.v2.houseUnits == s.v2.houseUnits && t.v2.totalPending == s.v2.totalPending && t.positions == s.positions
  }

  ghost predicate SameConfig(s: State, t: State) {
    && t.vault == s.vault
    && t.v2.minHouseShare == s.v2.minHouseShare && t.v2.minHealth == s.v2.minHealth
    && t.v2.vrfMaxPayoutBps == s.v2.vrfMaxPayoutBps
  }

  ghost predicate SameBook(s: State, t: State) {
    && t.v2.outstanding == s.v2.outstanding && t.claims == s.claims && t.games == s.games
    && t.sessions == s.sessions && s.stats.Keys <= t.stats.Keys
  }

  /** A VRF handler touches one player's round, and the accumulator follows that player's claim. */
  ghost predicate RoundEffect(s: State, r: Result<State>, p: Id) {
    r.Ok? ==>
      var t := r.value;
      && MoneyKept(s.lamports, t.lamports) && SameUnits(s, t) && SameConfig(s, t)
      && t.sessions == s.sessions && s.stats.Keys <= t.stats.Keys
      && t.claims - {p} == s.claims - {p} && t.games - {p} == s.games - {p}
      && t.v2.outstanding == SatSub(s.v2.outstanding + Reserved(t, p), Reserved(s, p))
  }

  /** A commit-reveal handler touches one session, and the accumulator follows its obligation. */
  ghost predicate SessionEffect(s: State, r: Result<State>, p: Id) {
    r.Ok? ==>
      var t := r.value;
      && MoneyKept(s.lamports, t.lamports) && SameUnits(s, t) && SameConfig(s, t)
      && t.claims == s.claims && t.games == s.games && s.stats.Keys <= t.stats.Keys
      && t.sessions - {p} == s.sessions - {p}
      && (SessionSound(s, p) ==>
            && SessionSound(t, p)
            && t.v2.outstanding == SatSub(s.v2.outstanding + Owed(t, p), Owed(s, p)))
  }

  /** An LP handler touches one position, and the totals follow its units. */
  ghost predicate LpEffect(s: State, r: Result<State>, u: Id) {
    r.Ok? ==>
      var t := r.value;
      && MoneyKept(s.lamports, t.lamports) && SameBook(s, t) && SameConfig(s, t)
      && OperatorUnits(t.v2) == OperatorUnits(s.v2) && t.v2.houseUnits == s.v2.houseUnits
      && t.positions - {u} == s.positions - {u}
      && t.v2.totalUnits + Units(s, u) == s.v2.totalUnits + Units(t, u)
      && t.v2.totalPending + Pending(s, u) == s.v2.totalPending + Pending(t, u)
      && (s.v2.totalUnits <= U128_MAX ==> t.v2.totalUnits <= U128_MAX)
  }

  /** A house or treasury handler touches only the operator's own units. */
  ghost predicate HouseEffect(s: State, r: Result<State>) {
    r.Ok? ==>
      var t := r.value;
      && MoneyKept(s.lamports, t.lamports) && SameBook(s, t) && SameConfig(s, t)
      && t.positions == s.positions && t.v2.totalPending == s.v2.totalPending
      && t.v2.totalUnits + OperatorUnits(s.v2) == s.v2.totalUnits + OperatorUnits(t.v2)
      && (s.v2.totalUnits <= U128_MAX ==> t.v2.totalUnits <= U128_MAX)
  }

  /** A referral or configuration handler moves no vault money and counts nothing. */
  ghost predicate AdminEffect(s: State, r: Result<State>) {
    r.Ok? ==>
      && MoneyKept(s.lamports, r.value.lamports) && SameBook(s, r.value) && SameUnits(s, r.value)
      && Bal(r.value.lamports, VaultPda) == Bal(s.lamports, VaultPda)
  }

  // ---------------------------------------------------------------- units and health

  function DepositToUnits(amount: nat, assets: nat, totalUnits: nat): Result<nat> {
    if totalUnits == 0 then Ok(amount)
    else if assets == 0 then Err(MathOverflow)
    else if amount * totalUnits > U128_MAX then Err(MathOverflow)
    else Ok(amount * totalUnits / assets)
  }

  function UnitsToAssets(units: nat, assets: nat, totalUnits: nat): Result<nat> {
    if totalUnits == 0 || units == 0 then Ok(0)
    else if units * assets > U128_MAX then Err(MathOverflow)
    else if units * assets / totalUnits > U64_MAX then Err(MathOverflow)
    else Ok(units * assets / totalUnits)
  }

  function CheckedSub(a: nat, b: nat): Result<nat> {
    if a >= b then Ok(a - b) else Err(MathOverflow)
  }

  function CheckedAdd(a: nat, b: nat, max: nat): Result<nat> {
    if a + b <= max then Ok(a + b) else Err(MathOverflow)
  }

  function UserUnitsTotal(v2: V2State): Result<nat> {
    var a :- CheckedSub(v2.totalUnits, v2.seedUnits);
    var b :- CheckedSub(a, v2.houseUnits);
    CheckedSub(b, v2.housePending)
  }

  function CalcHealth(v2: V2State, assets: nat): Result<nat> {
    if assets == 0 then Ok(0)
    else
      var pendingValue :- UnitsToAssets(v2.totalPending, assets, v2.totalUnits);
      var obligations :- CheckedAdd(v2.outstanding, pendingValue, U64_MAX);
      Ok(HealthOf(SatSub(assets, obligations), assets))
  }

  function HealthOf(free: nat, assets: nat): nat
    requires 0 < assets
  {
    Min(free * BPS / assets, BPS)
  }

  function EnforceMinHealth(v2: V2State, assets: nat): Outcome {
    if v2.minHealth == 0 then Pass
    else match CalcHealth(v2, assets)
      case Err(e) => Fail(e)
      case Ok(h) => Need(h >= v2.minHealth, HealthFloorBreached)
  }

  function EnforceHouseFloor(house: nat, users: nat, minShare: nat): Outcome {
    if minShare == 0 then Pass
    else if house + users > U128_MAX then Fail(MathOverflow)
    else if house + users == 0 then Pass
    else if house * BPS > U128_MAX || minShare * (house + users) > U128_MAX then Fail(MathOverflow)
    else Need(house * BPS >= minShare * (house + users), HouseShareFloorBreached)
  }

  function EnforcePositionCap(value: nat, assets: nat, health: nat, maxBps: nat): Outcome {
    if maxBps == 0 then Pass
    else Need(value <= assets * maxBps / BPS * health / BPS, UserPositionCapExceeded)
  }

  /** What an owner-gated cleanup may spend: never the last lamport of assets while units exist. */
  function AdminSpendable(l: Lamports, v2: V2State): nat {
    if v2.totalUnits > 0 then SatSub(Assets(l), 1) else Assets(l)
  }

  /** A cap in bps of assets, scaled down by health. */
  function ScaledCap(assets: nat, bps: nat, health: nat): Result<nat> {
    MulDivFloor(assets, bps * health / BPS, BPS)
  }
}
