/**
 What each transaction asks for. For every instruction, the exact condition under which it succeeds in a
 state of the invariant, in plain arithmetic on that state.
 */
module Admission {
  import opened Prelude
  import opened Arith
  import opened Sums
  import opened Odds
  import opened Reveal
  import opened Ledger
  import opened Handlers
  import opened Runs
  import opened Settlement
  import opened Payments
  import opened Withdrawals

  // ---------------------------------------------------------------- the health floor

  /** Assets less what is reserved and what is being withdrawn; negative when they do not cover it. */
  function Free(v2: V2State, assets: nat): int {
    assets - v2.outstanding - Payments.Value(v2, v2.totalPending, assets)
  }

  /** The vault stands at or above its configured health floor. */
  predicate Healthy(v2: V2State, assets: nat) {
    0 < assets && v2.minHealth * assets <= Free(v2, assets) * BPS
  }

  /** Health as the caps see it: free assets in basis points of all of them. */
  function HealthBps(v2: V2State, assets: nat): nat {
    if assets == 0 || Free(v2, assets) < 0 then 0 else Free(v2, assets) * BPS / assets
  }

  /** Pricing what is being withdrawn fits a u128, and with what is reserved a u64. */
  predicate Priced(v2: V2State, assets: nat) {
    assets == 0 ||
    (v2.totalPending * assets <= U128_MAX && v2.outstanding + Payments.Value(v2, v2.totalPending, assets) <= U64_MAX)
  }

  lemma PendingWorth(v2: V2State, assets: nat)
    requires v2.totalPending <= v2.totalUnits && assets <= U64_MAX
    ensures Payments.Value(v2, v2.totalPending, assets) <= assets
    ensures UnitsToAssets(v2.totalPending, assets, v2.totalUnits).Ok? <==> v2.totalPending * assets <= U128_MAX
    ensures UnitsToAssets(v2.totalPending, assets, v2.totalUnits).Ok? ==>
              UnitsToAssets(v2.totalPending, assets, v2.totalUnits).value == Payments.Value(v2, v2.totalPending, assets)
  {
    ShareWithinAssets(v2.totalPending, assets, v2.totalUnits);
    if v2.totalUnits != 0 {
      MulMono(v2.totalPending, v2.totalUnits, assets);
      DivAtMost(assets, v2.totalPending * assets, v2.totalUnits) by {
        assert (assets + 1) * v2.totalUnits == v2.totalUnits * assets + v2.totalUnits;
      }
    }
    if UnitsToAssets(v2.totalPending, assets, v2.totalUnits).Ok? {
      UnitsWorth(v2, v2.totalPending, assets);
    }
  }

  lemma HealthIs(v2: V2State, assets: nat)
    requires v2.totalPending <= v2.totalUnits && assets <= U64_MAX
    ensures CalcHealth(v2, assets).Ok? <==> Priced(v2, assets)
    ensures Priced(v2, assets) ==> CalcHealth(v2, assets).value == HealthBps(v2, assets) <= BPS
    ensures CalcHealth(v2, assets).Err? ==> CalcHealth(v2, assets).error == MathOverflow
  {
    UnitsErr(v2.totalPending, assets, v2.totalUnits);
    hide UnitsToAssets, Payments.Value;
    PendingWorth(v2, assets);
    if 0 < assets && 0 <= Free(v2, assets) {
      MulMono(Free(v2, assets), assets, BPS);
      DivAtMost(BPS, Free(v2, assets) * BPS, assets);
    }
  }

  lemma UnitsErr(units: nat, assets: nat, totalUnits: nat)
    ensures UnitsToAssets(units, assets, totalUnits).Err? ==> UnitsToAssets(units, assets, totalUnits).error == MathOverflow
  {}

  /** The check passes exactly at or above the floor, without the division. */
  lemma FloorIs(v2: V2State, assets: nat)
    requires v2.totalPending <= v2.totalUnits && assets <= U64_MAX && 0 < v2.minHealth
    ensures EnforceMinHealth(v2, assets) == Pass <==> Priced(v2, assets) && Healthy(v2, assets)
    ensures EnforceMinHealth(v2, assets) == Fail(HealthFloorBreached) <==> Priced(v2, assets) && !Healthy(v2, assets)
  {
    HealthIs(v2, assets);
    hide CalcHealth, Priced;
    if 0 < assets && 0 <= Free(v2, assets) {
      var free := Free(v2, assets);
      if v2.minHealth * assets <= free * BPS {
        DivAtLeast(v2.minHealth, free * BPS, assets);
      } else {
        DivAtMost(v2.minHealth - 1, free * BPS, assets);
      }
    }
    BelowNothing(v2.minHealth, Free(v2, assets), assets);
  }

  lemma BelowNothing(floor: nat, free: int, assets: nat)
    ensures 0 < floor && 0 < assets && free < 0 ==> free * BPS < floor * assets
  {}

  // ---------------------------------------------------------------- opening a game

  /** `amount` is at most `bps` of assets, scaled down by health; both scalings floored. */
  predicate WithinCap(amount: nat, assets: nat, bps: nat, health: nat) {
    amount <= assets * (bps * health / BPS) / BPS
  }

  lemma CapIs(amount: nat, assets: nat, bps: nat, health: nat)
    requires assets <= U64_MAX && bps <= BPS && health <= BPS
    ensures ScaledCap(assets, bps, health).Ok?
    ensures amount <= ScaledCap(assets, bps, health).value <==> WithinCap(amount, assets, bps, health)
    ensures WithinCap(amount, assets, bps, health) ==> amount <= U64_MAX
  {
    MulMono(health, BPS, bps);
    var scaled := bps * health / BPS;
    DivAtMost(BPS, bps * health, BPS);
    MulMono(scaled, BPS, assets);
    DivAtMost(assets, assets * scaled, BPS);
  }

  /** The board's full-clear price of a bet. */
  function FullClear(bet: nat, mines: nat, edge: nat): nat
    requires mines <= GRID_SIZE && edge <= BPS
  {
    Payout(bet, GRID_SIZE - mines, mines, edge)
  }

  lemma WorstIs(bet: nat, mines: nat, edge: nat)
    requires MIN_MINES <= mines <= MAX_MINES && edge <= BPS
    ensures WorstCasePayout(bet, mines, edge) ==
            if FullClear(bet, mines, edge) <= U64_MAX then Ok(FullClear(bet, mines, edge)) else Err(MathOverflow)
  {
    hide Multiplier;
  }

  /** A bet within both caps, on a vault that can price what is being withdrawn. */
  predicate Quoted(vault: Vault, v2: V2State, assets: nat, payoutBps: nat, mines: nat, bet: nat)
    requires mines <= GRID_SIZE && vault.edge <= BPS
  {
    && Priced(v2, assets)
    && WithinCap(bet, assets, vault.maxBetBps, HealthBps(v2, assets))
    && WithinCap(FullClear(bet, mines, vault.edge), assets, payoutBps, HealthBps(v2, assets))
  }

  /** What a bet must meet before the health floor is asked. */
  predicate Acceptable(vault: Vault, v2: V2State, assets: nat, payoutBps: nat, mines: nat, bet: nat) {
    && MIN_MINES <= mines <= MAX_MINES && vault.edge <= BPS && Quoted(vault, v2, assets, payoutBps, mines, bet)
    && v2.outstanding + FullClear(bet, mines, vault.edge) <= U64_MAX
    && Priced(Reserving(v2, FullClear(bet, mines, vault.edge)), assets + bet)
  }

  /** The accumulator once a new game is counted. */
  function Reserving(v2: V2State, worst: nat): V2State {
    v2.(outstanding := v2.outstanding + worst)
  }

  predicate CapsSound(vault: Vault, v2: V2State, payoutBps: nat) {
    && vault.edge <= BPS && vault.maxBetBps <= BPS && payoutBps <= BPS
    && v2.totalPending <= v2.totalUnits && 0 < v2.minHealth
  }

  lemma QuoteIs(vault: Vault, v2: V2State, assets: nat, payoutBps: nat, mines: nat, bet: nat)
    requires CapsSound(vault, v2, payoutBps) && assets <= U64_MAX && MIN_MINES <= mines <= MAX_MINES
    ensures var r := Quote(vault, v2, assets, payoutBps, mines, bet);
            && (r.Ok? <==> Quoted(vault, v2, assets, payoutBps, mines, bet))
            && (r.Ok? ==> r.value == FullClear(bet, mines, vault.edge))
            && (r.Err? ==> r.error != HealthFloorBreached)
  {
    hide CalcHealth, ScaledCap, WorstCasePayout, Priced, WithinCap, FullClear, HealthBps;
    HealthIs(v2, assets);
    if Priced(v2, assets) {
      var worst := FullClear(bet, mines, vault.edge);
      CapIs(bet, assets, vault.maxBetBps, HealthBps(v2, assets));
      CapIs(worst, assets, payoutBps, HealthBps(v2, assets));
      WorstIs(bet, mines, vault.edge);
    }
  }

  lemma ReserveIs(v2: V2State, assets: nat, bet: nat, worst: nat)
    requires v2.totalPending <= v2.totalUnits && 0 < v2.minHealth && assets + bet <= U64_MAX
    ensures var r, after := Reserve(v2, assets, bet, worst), Reserving(v2, worst);
            var fits := v2.outstanding + worst <= U64_MAX && Priced(after, assets + bet);
            && (r.Ok? <==> fits && Healthy(after, assets + bet))
            && (r == Err(HealthFloorBreached) <==> fits && !Healthy(after, assets + bet))
  {
    hide EnforceMinHealth, Priced, Healthy;
    if v2.outstanding + worst <= U64_MAX {
      FloorIs(Reserving(v2, worst), assets + bet);
    }
  }

  /** Taking a bet: exactly the caps and the floor. */
  lemma TakeBetIs(l: Lamports, vault: Vault, v2: V2State, p: Id, payoutBps: nat, mines: nat, bet: nat)
    requires CapsSound(vault, v2, payoutBps) && MIN_MINES <= mines <= MAX_MINES
    requires Total(l) <= U64_MAX && Rent(VAULT_SPACE) <= Bal(l, VaultPda)
    ensures var r, assets := TakeBet(l, vault, v2, p, payoutBps, mines, bet), Assets(l);
            var accepted := bet <= Bal(l, Wallet(p)) && Acceptable(vault, v2, assets, payoutBps, mines, bet);
            var after := Reserving(v2, FullClear(bet, mines, vault.edge));
            && (r.Ok? <==> accepted && Healthy(after, assets + bet))
            && (r == Err(HealthFloorBreached) <==> accepted && !Healthy(after, assets + bet))
            && (r.Ok? ==> r.value.v2 == after && Assets(r.value.lamports) == assets + bet)
  {
    hide Quote, Reserve, Move, Healthy, Priced, Bal, Assets, Quoted, FullClear, MoneyKept;
    AssetsFit(l);
    QuoteIs(vault, v2, Assets(l), payoutBps, mines, bet);
    MoveFails(l, Wallet(p), VaultPda, bet);
    if bet <= Bal(l, Wallet(p)) {
      BetArrives(l, p, bet);
      ReserveIs(v2, Assets(l), bet, FullClear(bet, mines, vault.edge));
    }
  }

  lemma BetArrives(l: Lamports, p: Id, bet: nat)
    requires Total(l) <= U64_MAX && Rent(VAULT_SPACE) <= Bal(l, VaultPda) && bet <= Bal(l, Wallet(p))
    ensures Move(l, Wallet(p), VaultPda, bet).Ok?
    ensures Assets(l) + bet <= U64_MAX && Assets(Move(l, Wallet(p), VaultPda, bet).value) == Assets(l) + bet
  {
    BalanceBounded(Move(l, Wallet(p), VaultPda, bet).value, VaultPda);
  }

  lemma MoveFails(l: Lamports, from: Account, to: Account, n: nat)
    ensures Move(l, from, to, n).Err? ==> Move(l, from, to, n).error == MathOverflow
  {}

  lemma AssetsFit(l: Lamports)
    requires Total(l) <= U64_MAX
    ensures Assets(l) <= U64_MAX
  {
    BalanceBounded(l, VaultPda);
  }

  // ---------------------------------------------------------------- rents

  lemma FundIs(l: Lamports, p: Id, x: Account, space: nat)
    requires Total(l) <= U64_MAX && x != Wallet(p)
    ensures Fund(l, p, x, space).Ok? <==> SatSub(Rent(space), Bal(l, x)) <= Bal(l, Wallet(p))
    ensures Fund(l, p, x, space).Err? ==> Fund(l, p, x, space).error == MathOverflow
  {
    MoveFails(l, Wallet(p), x, SatSub(Rent(space), Bal(l, x)));
    hide Move, Bal;
  }

  function StatsDue(s: State, p: Id): nat {
    if p in s.stats then 0 else RentDue(s, StatsPda(p), STATS_SPACE)
  }

  /** The rent of a round's accounts. */
  function RoundRent(s: State, p: Id): nat {
    RentDue(s, ClaimPda(p), CLAIM_SPACE) + RentDue(s, GamePda(p), GAME_SPACE) + StatsDue(s, p)
  }

  lemma StatsFunded(s: State, p: Id)
    requires MoneySound(s)
    ensures EnsureStats(s, p).Ok? <==> StatsDue(s, p) <= Bal(s.lamports, Wallet(p))
    ensures EnsureStats(s, p).Err? ==> EnsureStats(s, p).error == MathOverflow
    ensures EnsureStats(s, p).Ok? ==>
              Bal(EnsureStats(s, p).value.lamports, Wallet(p)) == Bal(s.lamports, Wallet(p)) - StatsDue(s, p)
  {
    hide Fund, Bal, MoneyKept;
    if p !in s.stats {
      FundIs(s.lamports, p, StatsPda(p), STATS_SPACE);
      if EnsureStats(s, p).Ok? {
        StatsBalance(s, p, Wallet(p));
      }
    }
  }

  lemma RoundFunded(s: State, p: Id)
    requires MoneySound(s)
    ensures FundRound(s, p).Ok? <==> RoundRent(s, p) <= Bal(s.lamports, Wallet(p))
    ensures FundRound(s, p).Err? ==> FundRound(s, p).error == MathOverflow
    ensures FundRound(s, p).Ok? ==>
              var l := FundRound(s, p).value.lamports;
              && Bal(l, Wallet(p)) == Bal(s.lamports, Wallet(p)) - RoundRent(s, p)
              && Bal(l, VaultPda) == Bal(s.lamports, VaultPda) && Total(l) == Total(s.lamports)
  {
    hide Fund, Bal, EnsureStats, Rent;
    FundIs(s.lamports, p, ClaimPda(p), CLAIM_SPACE);
    if RentDue(s, ClaimPda(p), CLAIM_SPACE) <= Bal(s.lamports, Wallet(p)) {
      var l1 := Fund(s.lamports, p, ClaimPda(p), CLAIM_SPACE).value;
      FundBalance(s.lamports, p, ClaimPda(p), CLAIM_SPACE, Wallet(p));
      FundBalance(s.lamports, p, ClaimPda(p), CLAIM_SPACE, GamePda(p));
      FundBalance(s.lamports, p, ClaimPda(p), CLAIM_SPACE, StatsPda(p));
      FundIs(l1, p, GamePda(p), GAME_SPACE);
      if RentDue(s, GamePda(p), GAME_SPACE) <= Bal(l1, Wallet(p)) {
        var l2 := Fund(l1, p, GamePda(p), GAME_SPACE).value;
        FundBalance(l1, p, GamePda(p), GAME_SPACE, Wallet(p));
        FundBalance(l1, p, GamePda(p), GAME_SPACE, StatsPda(p));
        StatsFunded(s.(lamports := l2), p);
      }
    }
  }

  // ---------------------------------------------------------------- the two ways to open a game

  /** The terms of a VRF round, all but the health floor. */
  predicate MayStart(s: State, p: Id, mines: nat, bet: nat) {
    && p !in s.claims && p !in s.games && RoundRent(s, p) + bet <= Bal(s.lamports, Wallet(p))
    && s.v2.vrfEnabled && s.v2.vrfValidator != 0 && 0 < s.v2.vrfMaxPayoutBps
    && !s.vault.paused && MIN_BET_LAMPORTS <= bet
    && Acceptable(s.vault, s.v2, Assets(s.lamports), Min(s.vault.maxPayoutBps, s.v2.vrfMaxPayoutBps), mines, bet)
  }

  /** The floor, with the bet in the vault and the full clear reserved. */
  predicate HealthyWith(s: State, mines: nat, bet: nat)
    requires mines <= GRID_SIZE && s.vault.edge <= BPS
  {
    Healthy(Reserving(s.v2, FullClear(bet, mines, s.vault.edge)), Assets(s.lamports) + bet)
  }

  lemma CapsAreSound(s: State, payoutBps: nat)
    requires Inv(s) && payoutBps <= s.vault.maxPayoutBps
    ensures CapsSound(s.vault, s.v2, payoutBps) && MoneySound(s)
  {
    PendingWithinUnits(s);
  }

  /** A round opens exactly on those terms and above the floor; short of the floor alone, that is the error. */
  lemma StartExactly(s: State, p: Id, key: Id, mines: nat, bet: nat)
    requires Inv(s)
    ensures var r := StartGameVrf(s, p, key, mines, bet);
            && (r.Ok? <==> MayStart(s, p, mines, bet) && HealthyWith(s, mines, bet))
            && (r == Err(HealthFloorBreached) <==> MayStart(s, p, mines, bet) && !HealthyWith(s, mines, bet))
  {
    hide Inv, FundRound, TakeBet, RoundEffect, Healthy, Bal, Assets, RoundRent, FullClear, Quoted;
    var cap := Min(s.vault.maxPayoutBps, s.v2.vrfMaxPayoutBps);
    CapsAreSound(s, cap);
    RoundFunded(s, p);
    if FundRound(s, p).Ok? && MIN_MINES <= mines <= MAX_MINES {
      var l := FundRound(s, p).value.lamports;
      SameVaultSameAssets(s.lamports, l);
      TakeBetIs(l, s.vault, s.v2, p, cap, mines, bet);
    }
  }

  lemma SameVaultSameAssets(l: Lamports, l': Lamports)
    requires Bal(l', VaultPda) == Bal(l, VaultPda)
    ensures Assets(l') == Assets(l)
  {}

  /** The terms of a commit-reveal session, all but the health floor. */
  predicate MayOpen(s: State, p: Id, mines: nat, bet: nat, commitment: Digest) {
    && p !in s.sessions && RentDue(s, SessionPda(p), SESSION_SPACE) + StatsDue(s, p) + bet <= Bal(s.lamports, Wallet(p))
    && !s.vault.paused && MIN_BET_LAMPORTS <= bet && (exists i | 0 <= i < 32 :: commitment[i] != 0)
    && Acceptable(s.vault, s.v2, Assets(s.lamports), s.vault.maxPayoutBps, mines, bet)
  }

  lemma BlankedIs(commitment: Digest)
    ensures Blanked(commitment) <==> !exists i | 0 <= i < 32 :: commitment[i] != 0
  {
    if Blanked(commitment) {
      forall i | 0 <= i < 32
        ensures commitment[i] == 0
      {
        assert commitment[i] in commitment;
      }
    }
  }

  lemma SessionFunded(s: State, p: Id)
    requires MoneySound(s)
    ensures var l1 := Fund(s.lamports, p, SessionPda(p), SESSION_SPACE);
            && (l1.Err? ==> l1.error == MathOverflow)
            && (l1.Ok? ==> EnsureStats(s.(lamports := l1.value), p).Err? ==>
                           EnsureStats(s.(lamports := l1.value), p).error == MathOverflow)
            && (l1.Ok? && EnsureStats(s.(lamports := l1.value), p).Ok? <==>
                  RentDue(s, SessionPda(p), SESSION_SPACE) + StatsDue(s, p) <= Bal(s.lamports, Wallet(p)))
            && (l1.Ok? && EnsureStats(s.(lamports := l1.value), p).Ok? ==>
                  var l := EnsureStats(s.(lamports := l1.value), p).value.lamports;
                  && Bal(l, Wallet(p)) == Bal(s.lamports, Wallet(p)) - RentDue(s, SessionPda(p), SESSION_SPACE) - StatsDue(s, p)
                  && Bal(l, VaultPda) == Bal(s.lamports, VaultPda) && Total(l) == Total(s.lamports))
  {
    hide Fund, Bal, EnsureStats, Rent;
    FundIs(s.lamports, p, SessionPda(p), SESSION_SPACE);
    if RentDue(s, SessionPda(p), SESSION_SPACE) <= Bal(s.lamports, Wallet(p)) {
      var l1 := Fund(s.lamports, p, SessionPda(p), SESSION_SPACE).value;
      FundBalance(s.lamports, p, SessionPda(p), SESSION_SPACE, Wallet(p));
      FundBalance(s.lamports, p, SessionPda(p), SESSION_SPACE, StatsPda(p));
      StatsFunded(s.(lamports := l1), p);
    }
  }

  lemma OpenExactly(s: State, p: Id, mines: nat, bet: nat, commitment: Digest)
    requires Inv(s)
    ensures var r := StartGame(s, p, mines, bet, commitment);
            && (r.Ok? <==> MayOpen(s, p, mines, bet, commitment) && HealthyWith(s, mines, bet))
            && (r == Err(HealthFloorBreached) <==> MayOpen(s, p, mines, bet, commitment) && !HealthyWith(s, mines, bet))
  {
    BlankedIs(commitment);
    hide Inv, Fund, EnsureStats, TakeBet, SessionEffect, Healthy, Bal, Assets, RentDue, StatsDue, FullClear, Quoted, Blanked;
    CapsAreSound(s, s.vault.maxPayoutBps);
    SessionFunded(s, p);
    var l1 := Fund(s.lamports, p, SessionPda(p), SESSION_SPACE);
    if l1.Ok? && EnsureStats(s.(lamports := l1.value), p).Ok? && MIN_MINES <= mines <= MAX_MINES {
      var l := EnsureStats(s.(lamports := l1.value), p).value.lamports;
      SameVaultSameAssets(s.lamports, l);
      TakeBetIs(l, s.vault, s.v2, p, s.vault.maxPayoutBps, mines, bet);
    }
  }

  // ---------------------------------------------------------------- the house's floor and the user's cap

  /** The house keeps its configured part of the units that are the house's or the users'. */
  predicate FloorMet(house: nat, users: nat, minShare: nat) {
    minShare * (house + users) <= house * BPS
  }

  lemma HouseFloorIs(house: nat, users: nat, minShare: nat)
    requires house + users <= U128_MAX
    ensures EnforceHouseFloor(house, users, minShare) == Pass <==>
            FloorMet(house, users, minShare) && (minShare == 0 || house * BPS <= U128_MAX || users + house == 0)
    ensures EnforceHouseFloor(house, users, minShare) != Fail(HealthFloorBreached)
  {}

  /** A user's holding, valued at its units' share, is within the cap scaled by health. */
  predicate HoldingCapped(value: nat, assets: nat, maxBps: nat, health: nat) {
    maxBps == 0 || value <= assets * maxBps / BPS * health / BPS
  }

  /** What a deposit must leave, all but the health floor: `users` units are users', `holding` this user's. */
  predicate Admissible(v2: V2State, assets: nat, holding: nat) {
    var users := SatSub(v2.totalUnits, OperatorUnits(v2));
    && FloorMet(v2.houseUnits, users, v2.minHouseShare) && (v2.minHouseShare == 0 || v2.houseUnits * BPS <= U128_MAX)
    && Priced(v2, assets) && holding * assets <= U128_MAX
    && HoldingCapped(Payments.Value(v2, holding, assets), assets, v2.maxUserPosition, HealthBps(v2, assets))
  }

  lemma AdmitIs(v2: V2State, assets: nat, pos: Position)
    requires OperatorUnits(v2) + pos.units + pos.pending <= v2.totalUnits <= U128_MAX && v2.totalPending <= v2.totalUnits
    requires assets <= U64_MAX && 0 < v2.minHealth && 0 < pos.units
    ensures var r := AdmitDeposit(v2, assets, pos);
            && (r.Ok? <==> Admissible(v2, assets, pos.units + pos.pending) && Healthy(v2, assets))
            && (r == Err(HealthFloorBreached) <==> Admissible(v2, assets, pos.units + pos.pending) && !Healthy(v2, assets))
  {
    hide EnforceHouseFloor, CalcHealth, EnforceMinHealth, Priced, Healthy, HealthBps, UnitsToAssets, FloorMet, Payments.Value;
    var holding := pos.units + pos.pending;
    HouseFloorIs(v2.houseUnits, v2.totalUnits - OperatorUnits(v2), v2.minHouseShare);
    HealthIs(v2, assets);
    FloorIs(v2, assets);
    ShareWithinAssets(holding, assets, v2.totalUnits);
    UnitsErr(holding, assets, v2.totalUnits);
    if holding * assets <= U128_MAX {
      UnitsWorth(v2, holding, assets);
    }
  }

  /** The units a deposit buys. */
  function Bought(s: State, n: nat): nat {
    if s.v2.totalUnits == 0 then n else if Assets(s.lamports) == 0 then 0 else n * s.v2.totalUnits / Assets(s.lamports)
  }

  function WithUnits(v2: V2State, n: nat): V2State {
    v2.(totalUnits := v2.totalUnits + n)
  }

  function OpeningDue(s: State, u: Id): nat {
    if u in s.positions then 0 else RentDue(s, PositionPda(u), POSITION_SPACE)
  }

  /** The terms of a deposit, all but the health floor. */
  predicate MayDeposit(s: State, u: Id, n: nat) {
    && MayPayIn(s, u, n)
    && Admissible(WithUnits(s.v2, Bought(s, n)), Assets(s.lamports) + n, Units(s, u) + Bought(s, n))
  }

  lemma MintIs(s: State, n: nat)
    ensures var r := DepositToUnits(n, Assets(s.lamports), s.v2.totalUnits);
            && (r.Ok? && 0 < r.value <==> 0 < Bought(s, n) && (s.v2.totalUnits == 0 || n * s.v2.totalUnits <= U128_MAX))
            && (r.Ok? ==> r.value == Bought(s, n)) && (r.Err? ==> r.error == MathOverflow)
  {
    hide Assets;
  }

  lemma PositionFunded(s: State, u: Id)
    requires MoneySound(s)
    ensures var r := EnsurePosition(s, u);
            && (r.Ok? <==> OpeningDue(s, u) <= Bal(s.lamports, Wallet(u))) && (r.Err? ==> r.error == MathOverflow)
            && (r.Ok? ==>
                  && Bal(r.value.lamports, Wallet(u)) == Bal(s.lamports, Wallet(u)) - OpeningDue(s, u)
                  && Bal(r.value.lamports, VaultPda) == Bal(s.lamports, VaultPda) && Total(r.value.lamports) == Total(s.lamports)
                  && r.value.positions[u] == Holding(s, u))
  {
    hide Fund, Bal, Rent;
    FundIs(s.lamports, u, PositionPda(u), POSITION_SPACE);
    if u !in s.positions && OpeningDue(s, u) <= Bal(s.lamports, Wallet(u)) {
      FundBalance(s.lamports, u, PositionPda(u), POSITION_SPACE, Wallet(u));
    }
  }

  lemma UnitsOfOne(s: State, u: Id)
    requires Inv(s)
    ensures OperatorUnits(s.v2) + Units(s, u) <= s.v2.totalUnits <= U128_MAX
    ensures s.v2.totalPending <= s.v2.totalUnits && 0 < s.v2.minHealth && MoneySound(s)
    ensures OperatorUnits(s.v2) + s.v2.totalPending <= s.v2.totalUnits
  {
    PositionWithinTotals(s, u);
    SumMono(s.positions, PendingOf, UnitsOf);
  }

  /** The terms of a deposit that do not depend on what it would leave. */
  predicate MayPayIn(s: State, u: Id, n: nat) {
    && OpeningDue(s, u) + n <= Bal(s.lamports, Wallet(u)) && !s.vault.paused && s.v2.minDeposit <= n
    && (s.v2.totalUnits == 0 || n * s.v2.totalUnits <= U128_MAX)
    && 0 < Bought(s, n) && s.v2.totalUnits + Bought(s, n) <= U128_MAX
  }

  function Holding(s: State, u: Id): Position {
    if u in s.positions then s.positions[u] else Position(0, 0, 0)
  }

  /** The checks on what the deposit would leave. */
  function Admitting(s: State, u: Id, n: nat): Result<()> {
    var pos := Holding(s, u);
    AdmitDeposit(WithUnits(s.v2, Bought(s, n)), Assets(s.lamports) + n, pos.(units := pos.units + Bought(s, n)))
  }

  /** With those met, only what the deposit would leave can refuse it. */
  lemma PaidInIsAdmitted(s: State, u: Id, n: nat)
    requires MoneySound(s) && Holding(s, u).units <= s.v2.totalUnits && MayPayIn(s, u, n)
    ensures var r, admitted := LpDeposit(s, u, n), Admitting(s, u, n);
            && 0 < Bought(s, n) && s.v2.totalUnits + Bought(s, n) <= U128_MAX && Assets(s.lamports) + n <= U64_MAX
            && (r.Ok? <==> admitted.Ok?) && (r.Err? ==> r.error == admitted.error)
  {
    hide EnsurePosition, DepositToUnits, MoneyKept, Units, Pending, Rent, Total, AdmitDeposit, Move, Bal, Assets;
    hide LpEffect, OpeningDue, Bought;
    PositionFunded(s, u);
    MintIs(s, n);
    var l := EnsurePosition(s, u).value.lamports;
    SameVaultSameAssets(s.lamports, l);
    DepositArrives(l, u, n);
  }

  lemma NotPaidIn(s: State, u: Id, n: nat)
    requires MoneySound(s) && !MayPayIn(s, u, n)
    ensures LpDeposit(s, u, n).Err? && LpDeposit(s, u, n).error != HealthFloorBreached
  {
    hide EnsurePosition, DepositToUnits, MoneyKept, Units, Pending, Rent, Total, AdmitDeposit, Move, Bal, Assets;
    hide LpEffect, OpeningDue, Bought;
    PositionFunded(s, u);
    MintIs(s, n);
    if EnsurePosition(s, u).Ok? {
      var l := EnsurePosition(s, u).value.lamports;
      SameVaultSameAssets(s.lamports, l);
      MoveFails(l, Wallet(u), VaultPda, n);
      MoveNeeds(l, Wallet(u), VaultPda, n);
    }
  }

  lemma MoveNeeds(l: Lamports, from: Account, to: Account, n: nat)
    ensures Move(l, from, to, n).Ok? ==> n <= Bal(l, from)
  {}

  lemma HoldingWithin(s: State, u: Id)
    requires Inv(s)
    ensures Holding(s, u).units <= s.v2.totalUnits && MoneySound(s)
  {
    UnitsOfOne(s, u);
  }

  lemma DepositExactly(s: State, u: Id, n: nat)
    requires Inv(s)
    ensures var r, after, assets := LpDeposit(s, u, n), WithUnits(s.v2, Bought(s, n)), Assets(s.lamports) + n;
            && (r.Ok? <==> MayDeposit(s, u, n) && Healthy(after, assets))
            && (r == Err(HealthFloorBreached) <==> MayDeposit(s, u, n) && !Healthy(after, assets))
  {
    HoldingWithin(s, u);
    DepositTerms(s, u, n);
    hide *;
    if MayPayIn(s, u, n) {
      PaidInIsAdmitted(s, u, n);
      DepositAdmitted(s, u, n);
    } else {
      NotPaidIn(s, u, n);
    }
  }

  lemma DepositTerms(s: State, u: Id, n: nat)
    ensures MayDeposit(s, u, n) <==>
            MayPayIn(s, u, n)
            && Admissible(WithUnits(s.v2, Bought(s, n)), Assets(s.lamports) + n, Units(s, u) + Bought(s, n))
  {}

  lemma DepositArrives(l: Lamports, u: Id, n: nat)
    requires Total(l) <= U64_MAX && Rent(VAULT_SPACE) <= Bal(l, VaultPda) && n <= Bal(l, Wallet(u))
    ensures Move(l, Wallet(u), VaultPda, n).Ok? && SatAdd(Assets(l), n) == Assets(l) + n <= U64_MAX
    ensures Assets(Move(l, Wallet(u), VaultPda, n).value) == Assets(l) + n
  {
    BetArrives(l, u, n);
  }

  lemma DepositAdmitted(s: State, u: Id, n: nat)
    requires Inv(s) && 0 < Bought(s, n) && s.v2.totalUnits + Bought(s, n) <= U128_MAX && Assets(s.lamports) + n <= U64_MAX
    ensures var v2, assets, r := WithUnits(s.v2, Bought(s, n)), Assets(s.lamports) + n, Admitting(s, u, n);
            && (r.Ok? <==> Admissible(v2, assets, Units(s, u) + Bought(s, n)) && Healthy(v2, assets))
            && (r == Err(HealthFloorBreached) <==> Admissible(v2, assets, Units(s, u) + Bought(s, n)) && !Healthy(v2, assets))
  {
    UnitsOfOne(s, u);
    hide Inv, AdmitDeposit, Admissible, Healthy, Assets, Bought;
    var pos := Holding(s, u);
    AdmitIs(WithUnits(s.v2, Bought(s, n)), Assets(s.lamports) + n, pos.(units := pos.units + Bought(s, n)));
  }

  // ---------------------------------------------------------------- the operator

  /** What the operator's exit pays: the units' share, as far as it is free. */
  function ExitPay(s: State): nat {
    var assets := Assets(s.lamports);
    Min(Payments.Value(s.v2, OperatorUnits(s.v2), assets),
        SatSub(assets, s.v2.outstanding + Payments.Value(s.v2, s.v2.totalPending, assets)))
  }

  function WithoutOperator(v2: V2State): V2State {
    v2.(totalUnits := SatSub(v2.totalUnits, OperatorUnits(v2)),
        seedUnits := 0, houseUnits := 0, housePending := 0, houseUnlock := 0)
  }

  /** An address the operator may pay. */
  predicate MayBePaid(s: State, to: Account, executable: bool) {
    !executable && to != VaultPda && to in s.vault.allowlist
  }

  /** Before the floor is asked: units to sell, a payee, both shares priced, and something free to pay. */
  predicate ExitReached(s: State, to: Account, executable: bool) {
    && 0 < OperatorUnits(s.v2) && MayBePaid(s, to, executable) && 0 < ExitPay(s)
    && Fits(OperatorUnits(s.v2), Assets(s.lamports)) && Fits(s.v2.totalPending, Assets(s.lamports))
  }

  /** A house deposit's units are the house's own, neither seed nor pending. */
  lemma HouseInLeaves(s: State, n: nat)
    requires HouseDeposit(s, n).Ok?
    ensures var t := HouseDeposit(s, n).value;
            t.v2 == s.v2.(totalUnits := s.v2.totalUnits + Bought(s, n), houseUnits := s.v2.houseUnits + Bought(s, n))
  {
    hide Assets, Move, HouseEffect, MoneyKept, DepositToUnits;
    MintIs(s, n);
  }

  /** The terms of the operator's exit, all but the health floor. */
  predicate MayExit(s: State, to: Account, executable: bool) {
    && ExitReached(s, to, executable)
    && Priced(WithoutOperator(s.v2), SatSub(Assets(s.lamports), ExitPay(s)))
  }

  lemma MayReceiveIs(s: State, to: Account, executable: bool)
    ensures MayReceive(s.vault, to, executable) == Pass <==> MayBePaid(s, to, executable)
    ensures MayReceive(s.vault, to, executable) != Fail(HealthFloorBreached)
  {}

  lemma SharesPriced(s: State)
    requires Inv(s)
    ensures var v2, assets := s.v2, Assets(s.lamports);
            && (UnitsToAssets(OperatorUnits(v2), assets, v2.totalUnits).Ok? <==> Fits(OperatorUnits(v2), assets))
            && (UnitsToAssets(OperatorUnits(v2), assets, v2.totalUnits).Ok? ==>
                  UnitsToAssets(OperatorUnits(v2), assets, v2.totalUnits).value == Payments.Value(v2, OperatorUnits(v2), assets))
            && (UnitsToAssets(OperatorUnits(v2), assets, v2.totalUnits).Err? ==>
                  UnitsToAssets(OperatorUnits(v2), assets, v2.totalUnits).error == MathOverflow)
  {
    UnitsOfOne(s, 0);
    hide Inv, UnitsToAssets, Payments.Value;
    AssetsFit(s.lamports);
    ShareWithinAssets(OperatorUnits(s.v2), Assets(s.lamports), s.v2.totalUnits);
    UnitsErr(OperatorUnits(s.v2), Assets(s.lamports), s.v2.totalUnits);
    if OperatorUnits(s.v2) * Assets(s.lamports) <= U128_MAX {
      UnitsWorth(s.v2, OperatorUnits(s.v2), Assets(s.lamports));
    }
  }

  lemma PendingShare(s: State)
    requires Inv(s)
    ensures var r := UnitsToAssets(s.v2.totalPending, Assets(s.lamports), s.v2.totalUnits);
            && (r.Ok? <==> Fits(s.v2.totalPending, Assets(s.lamports)))
            && (r.Ok? ==> r.value == Payments.Value(s.v2, s.v2.totalPending, Assets(s.lamports)))
            && (r.Err? ==> r.error == MathOverflow)
  {
    UnitsOfOne(s, 0);
    AssetsFit(s.lamports);
    PendingWorth(s.v2, Assets(s.lamports));
    UnitsErr(s.v2.totalPending, Assets(s.lamports), s.v2.totalUnits);
  }

  lemma ExitRefused(s: State, to: Account, executable: bool)
    requires Inv(s) && !ExitReached(s, to, executable)
    ensures UnlockOperatorPosition(s, to, executable).Err?
    ensures UnlockOperatorPosition(s, to, executable).error != HealthFloorBreached
  {
    SharesPriced(s);
    PendingShare(s);
    MayReceiveIs(s, to, executable);
    hide Inv, UnitsToAssets, Payments.Value, EnforceMinHealth, MayReceive, MayBePaid, Move, Bal, HouseEffect, Assets, Fits;
  }

  /** Once reached, the exit is decided by the floor on what it leaves. */
  lemma ExitDecided(s: State, to: Account, executable: bool)
    requires Inv(s) && ExitReached(s, to, executable)
    ensures var r, enforced := UnlockOperatorPosition(s, to, executable),
                               EnforceMinHealth(WithoutOperator(s.v2), SatSub(Assets(s.lamports), ExitPay(s)));
            if enforced == Pass then r.Ok? else r == Err(enforced.error)
  {
    UnitsOfOne(s, 0);
    SharesPriced(s);
    PendingShare(s);
    MayReceiveIs(s, to, executable);
    PaymentLeaves(s.lamports, to, ExitPay(s));
    hide Inv, UnitsToAssets, Payments.Value, EnforceMinHealth, MayReceive, Move, Bal, HouseEffect, Assets, MoneySound, Units;
    hide Fits;
  }

  lemma PaymentLeaves(l: Lamports, to: Account, n: nat)
    requires Total(l) <= U64_MAX && n <= Assets(l)
    ensures Move(l, VaultPda, to, n).Ok?
    ensures to != VaultPda ==> Assets(Move(l, VaultPda, to, n).value) == SatSub(Assets(l), n)
  {
    hide Move;
  }

  lemma UnlockExactly(s: State, to: Account, executable: bool)
    requires Inv(s)
    ensures var r := UnlockOperatorPosition(s, to, executable);
            var after, assets := WithoutOperator(s.v2), SatSub(Assets(s.lamports), ExitPay(s));
            && (r.Ok? <==> MayExit(s, to, executable) && Healthy(after, assets))
            && (r == Err(HealthFloorBreached) <==> MayExit(s, to, executable) && !Healthy(after, assets))
  {
    UnitsOfOne(s, 0);
    AssetsFit(s.lamports);
    assert WithoutOperator(s.v2).totalPending <= WithoutOperator(s.v2).totalUnits;
    assert WithoutOperator(s.v2).minHealth == s.v2.minHealth;
    assert SatSub(Assets(s.lamports), ExitPay(s)) <= U64_MAX;
    assert MayExit(s, to, executable) <==>
           ExitReached(s, to, executable) && Priced(WithoutOperator(s.v2), SatSub(Assets(s.lamports), ExitPay(s)));
    hide *;
    FloorIs(WithoutOperator(s.v2), SatSub(Assets(s.lamports), ExitPay(s)));
    if ExitReached(s, to, executable) {
      ExitDecided(s, to, executable);
    } else {
      ExitRefused(s, to, executable);
    }
  }

  /** The four transactions the health floor guards. */
  predicate Floored(step: Step) {
    match step
    case Vrf(v) => v.Start?
    case Legacy(g) => g.Open?
    case Lp(l) => l.Deposit?
    case House(h) => h.Unlock?
    case Admin(_) => false
  }

  /** Whoever opens, deposits or exits leaves the vault at or above its floor. */
  lemma EndsHealthy(s: State, step: Step)
    requires Inv(s) && Apply(s, step).Ok?
    requires Floored(step)
    ensures Healthy(Next(s, step).v2, Assets(Next(s, step).lamports))
  {
    hide Inv, Healthy, StartGameVrf, StartGame, LpDeposit, UnlockOperatorPosition, MoneyKept, Assets;
    match step {
      case Vrf(Start(p, k, m, b)) => StartExactly(s, p, k, m, b); StartLeaves(s, p, k, m, b);
      case Legacy(Open(p, m, b, c)) => OpenExactly(s, p, m, b, c); OpenLeaves(s, p, m, b, c);
      case Lp(Deposit(u, n)) => DepositExactly(s, u, n); DepositLeaves(s, u, n);
      case House(Unlock(to, x)) => UnlockExactly(s, to, x); UnlockLeaves(s, to, x);
    }
  }

  /** A round as it is opened: the stake and the slot in the claim, the full clear in the accumulator. */
  lemma StartLeaves(s: State, p: Id, key: Id, mines: nat, bet: nat)
    requires Inv(s) && StartGameVrf(s, p, key, mines, bet).Ok?
    ensures var t := StartGameVrf(s, p, key, mines, bet).value;
            && mines <= GRID_SIZE && s.vault.edge <= BPS
            && t.v2 == Reserving(s.v2, FullClear(bet, mines, s.vault.edge)) && Assets(t.lamports) == Assets(s.lamports) + bet
            && p in t.claims && p in t.games
            && t.claims[p] == Claim(bet, FullClear(bet, mines, s.vault.edge), mines, s.vault.edge, s.slot, false)
            && t.games[p] == OnL1(OpenGame(p, key, mines, s.vault.edge))
  {
    hide Inv, FundRound, TakeBet, RoundEffect, Bal, Assets, FullClear, Healthy, Acceptable, MoneyKept;
    var cap := Min(s.vault.maxPayoutBps, s.v2.vrfMaxPayoutBps);
    CapsAreSound(s, cap);
    RoundFunded(s, p);
    SameVaultSameAssets(s.lamports, FundRound(s, p).value.lamports);
    TakeBetIs(FundRound(s, p).value.lamports, s.vault, s.v2, p, cap, mines, bet);
    TakenIsWorst(FundRound(s, p).value.lamports, s.vault, s.v2, p, cap, mines, bet);
  }

  lemma TakenIsWorst(l: Lamports, vault: Vault, v2: V2State, p: Id, payoutBps: nat, mines: nat, bet: nat)
    requires TakeBet(l, vault, v2, p, payoutBps, mines, bet).Ok?
    requires MIN_MINES <= mines <= MAX_MINES && vault.edge <= BPS
    ensures TakeBet(l, vault, v2, p, payoutBps, mines, bet).value.worst == FullClear(bet, mines, vault.edge)
  {
    hide CalcHealth, ScaledCap, Reserve, Move, WorstCasePayout, FullClear;
    WorstIs(bet, mines, vault.edge);
  }

  lemma OpenLeaves(s: State, p: Id, mines: nat, bet: nat, commitment: Digest)
    requires Inv(s) && StartGame(s, p, mines, bet, commitment).Ok?
    ensures var t := StartGame(s, p, mines, bet, commitment).value;
            && mines <= GRID_SIZE && s.vault.edge <= BPS
            && t.v2 == Reserving(s.v2, FullClear(bet, mines, s.vault.edge)) && Assets(t.lamports) == Assets(s.lamports) + bet
            && p in t.sessions
            && t.sessions[p] == Session(Playing, bet, mines, commitment, {}, {}, 0, BPS, s.slot, false,
                                        FullClear(bet, mines, s.vault.edge))
  {
    hide Inv, Fund, EnsureStats, TakeBet, SessionEffect, Bal, Assets, FullClear, Healthy, Acceptable, RentDue, StatsDue;
    hide MoneyKept, Blanked;
    CapsAreSound(s, s.vault.maxPayoutBps);
    SessionFunded(s, p);
    var l := EnsureStats(s.(lamports := Fund(s.lamports, p, SessionPda(p), SESSION_SPACE).value), p).value.lamports;
    SameVaultSameAssets(s.lamports, l);
    TakeBetIs(l, s.vault, s.v2, p, s.vault.maxPayoutBps, mines, bet);
    TakenIsWorst(l, s.vault, s.v2, p, s.vault.maxPayoutBps, mines, bet);
  }

  lemma DepositLeaves(s: State, u: Id, n: nat)
    requires Inv(s) && LpDeposit(s, u, n).Ok?
    ensures var t := LpDeposit(s, u, n).value;
            t.v2 == WithUnits(s.v2, Bought(s, n)) && Assets(t.lamports) == Assets(s.lamports) + n
  {
    hide Inv, EnsurePosition, DepositToUnits, AdmitDeposit, Move, Bal, Assets, LpEffect, Bought, OpeningDue, MoneyKept;
    HoldingWithin(s, u);
    PositionFunded(s, u);
    MintIs(s, n);
    var l := EnsurePosition(s, u).value.lamports;
    SameVaultSameAssets(s.lamports, l);
    MoveNeeds(l, Wallet(u), VaultPda, n);
    DepositArrives(l, u, n);
  }

  lemma UnlockLeaves(s: State, to: Account, executable: bool)
    requires Inv(s) && UnlockOperatorPosition(s, to, executable).Ok?
    ensures var t := UnlockOperatorPosition(s, to, executable).value;
            t.v2 == WithoutOperator(s.v2) && Assets(t.lamports) == SatSub(Assets(s.lamports), ExitPay(s))
  {
    UnlockUnits(s, to, executable);
    UnlockBalance(s, to, executable, VaultPda);
    UnlockExactly(s, to, executable);
    hide Inv, UnlockOperatorPosition, Healthy, Priced, Payments.Value, Bal, MoneySound;
  }

  lemma UnlockUnits(s: State, to: Account, executable: bool)
    requires UnlockOperatorPosition(s, to, executable).Ok?
    ensures UnlockOperatorPosition(s, to, executable).value.v2 == WithoutOperator(s.v2)
  {
    hide UnitsToAssets, EnforceMinHealth, MayReceive, Move, HouseEffect, Assets, MoneyKept;
  }
}
