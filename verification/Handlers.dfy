/**
 The instruction handlers as functions of the ledger. A handler that fails is an `Err` and, as on
 chain, leaves no trace. Account addresses and signatures are given: a handler is called with the
 accounts its context derives, and with its signers' keys.
 */
module Handlers {
  import opened Prelude
  import opened Odds
  import opened Reveal
  import opened Ledger

  const MIN_BET_LAMPORTS: nat := 1_000_000
  const MAX_BET_BPS: nat := 1_000
  const MAX_PAYOUT_BPS: nat := 5_000
  const MIN_HEALTH_BPS_FLOOR: nat := 100
  const MIN_WITHDRAW_COOLDOWN_SLOTS: nat := 150
  const ANTI_INFLATION_SEED_LAMPORTS: nat := 1_000_000_000
  const DEFAULT_WITHDRAW_COOLDOWN_SLOTS: nat := 648_000
  const DEFAULT_MIN_HOUSE_SHARE_BPS: nat := 5_000
  const DEFAULT_MAX_USER_POSITION_BPS: nat := 1_000
  const DEFAULT_MIN_HEALTH_BPS: nat := 1_000
  const DEFAULT_MIN_LP_DEPOSIT_LAMPORTS: nat := 10_000_000
  const STALL_SLOTS: nat := 25
  const ABANDON_SLOTS: nat := 216_000
  const GAME_EXPIRY_SLOTS: nat := 300
  const CLOSE_UNSETTLED_EXPIRY_SLOTS: nat := 38
  const REFERRAL_BRONZE_BPS: nat := 50
  const REFERRAL_SILVER_BPS: nat := 60
  const REFERRAL_GOLD_BPS: nat := 70
  const SILVER_VOLUME_LAMPORTS: nat := 10_000_000_000
  const GOLD_VOLUME_LAMPORTS: nat := 100_000_000_000

  predicate Blanked(digest: Digest) {
    forall b | b in digest :: b == 0
  }

  // ================================================================ shared money steps

  /** What either game mode asks of a bet before it looks at the vault. */
  function CheckBet(vault: Vault, mines: nat, bet: nat): (r: Outcome)
    ensures r == Pass ==> MIN_MINES <= mines <= MAX_MINES
  {
    if vault.paused then Fail(VaultPaused)
    else if !(MIN_MINES <= mines <= MAX_MINES) then Fail(InvalidMineCount)
    else Need(bet >= MIN_BET_LAMPORTS, BetTooLow)
  }

  /** The caps both game modes open a game under; the result is the worst case to reserve. */
  function Quote(vault: Vault, v2: V2State, available: nat, payoutBps: nat, mines: nat, bet: nat)
    : (r: Result<nat>)
    ensures r.Ok? ==> WorstCasePayout(bet, mines, vault.edge) == r && r.value <= U64_MAX
  {
    var health :- CalcHealth(v2, available);
    var maxBet :- ScaledCap(available, vault.maxBetBps, health);
    :- Need(bet <= maxBet, BetExceedsMax);
    var worst :- WorstCasePayout(bet, mines, vault.edge);
    var maxPayout :- ScaledCap(available, payoutBps, health);
    :- Need(worst <= maxPayout, VaultInsufficientFunds);
    Ok(worst)
  }

  /** Count a new obligation and hold the health floor with the bet already in the vault. */
  function Reserve(v2: V2State, available: nat, bet: nat, worst: nat): Result<V2State> {
    var outstanding :- CheckedAdd(v2.outstanding, worst, U64_MAX);
    var v2' := v2.(outstanding := outstanding);
    :- EnforceMinHealth(v2', SatAdd(available, bet));
    Ok(v2')
  }

  datatype Escrow = Escrow(lamports: Lamports, v2: V2State, worst: nat)

  /** Price a new game, take the bet into the vault and reserve its worst case. */
  function TakeBet(l: Lamports, vault: Vault, v2: V2State, player: Id, payoutBps: nat, mines: nat, bet: nat)
    : (r: Result<Escrow>)
    ensures r.Ok? ==> MoneyKept(l, r.value.lamports) && r.value.v2 == v2.(outstanding := v2.outstanding + r.value.worst)
  {
    hide Quote, EnforceMinHealth, Assets;
    var available := Assets(l);
    var worst :- Quote(vault, v2, available, payoutBps, mines, bet);
    var l' :- Move(l, Wallet(player), VaultPda, bet);
    var v2' :- Reserve(v2, available, bet, worst);
    Ok(Escrow(l', v2', worst))
  }

  function Release(v2: V2State, reserved: nat): V2State {
    v2.(outstanding := SatSub(v2.outstanding, reserved))
  }

  function CutBps(tier: nat): nat {
    if tier == 0 then REFERRAL_BRONZE_BPS else if tier == 1 then REFERRAL_SILVER_BPS else REFERRAL_GOLD_BPS
  }

  function TierFor(volume: nat): nat {
    if volume >= GOLD_VOLUME_LAMPORTS then 2 else if volume >= SILVER_VOLUME_LAMPORTS then 1 else 0
  }

  datatype Paid = Paid(lamports: Lamports, referrals: map<Id, Referral>)

  /** Rakeback to the player's referrer, when there is one and its account was passed. */
  function PayReferrer(l: Lamports, referrals: map<Id, Referral>, referrer: Option<Id>, passed: Option<Account>, bet: nat)
    : (r: Result<Paid>)
    ensures r.Ok? ==> MoneyKept(l, r.value.lamports)
  {
    if referrer.None? || passed.None? then Ok(Paid(l, referrals))
    else
      var key := referrer.value;
      :- Need(passed.value == ReferralPda(key), ReferralMismatch);
      :- Need(key in referrals, AccountMissing);
      :- Need(referrals[key].referrer == key, ReferralMismatch);
      var ra := referrals[key];
      var cut :- MulDivFloor(bet, CutBps(ra.tier), BPS);
      var actual := Min(cut, Assets(l));
      var l' :- Move(l, VaultPda, ReferralPda(key), actual);
      var volume := SatAdd(ra.volume, bet);
      Ok(Paid(l', referrals[key := Referral(key, TierFor(volume), SatAdd(ra.accrued, actual), volume)]))
  }

  /** The treasury's share of the edge, capped by what is neither reserved nor being withdrawn. */
  function PayTreasury(l: Lamports, vault: Vault, v2: V2State, bet: nat): (r: Result<Lamports>)
    ensures r.Ok? ==> MoneyKept(l, r.value) && Assets(r.value) <= Assets(l)
    ensures r.Ok? ==> Assets(r.value) == Assets(l) || v2.outstanding <= Assets(r.value)
  {
    if vault.splitBps == 0 then Ok(l)
    else
      var edgeShare :- MulDivFloor(bet, vault.edge, BPS);
      var cut :- MulDivFloor(edgeShare, vault.splitBps, BPS);
      var pendingValue :- UnitsToAssets(v2.totalPending, Assets(l), v2.totalUnits);
      var liquidity := SatSub(SatSub(Assets(l), v2.outstanding), pendingValue);
      Move(l, VaultPda, vault.treasury, Min(cut, liquidity))
  }

  /** The player's stats account, created on first use. */
  function EnsureStats(s: State, player: Id): (r: Result<State>)
    ensures r.Ok? ==>
              && MoneyKept(s.lamports, r.value.lamports)
              && Bal(r.value.lamports, VaultPda) == Bal(s.lamports, VaultPda)
              && player in r.value.stats && s.stats.Keys <= r.value.stats.Keys
              && r.value == s.(lamports := r.value.lamports, stats := r.value.stats)
  {
    if player in s.stats then Ok(s)
    else
      var l :- Fund(s.lamports, player, StatsPda(player), STATS_SPACE);
      Ok(s.(lamports := l, stats := s.stats[player := None]))
  }

  // ================================================================ VRF rounds

  /** The three accounts a round needs. */
  function FundRound(s: State, player: Id): (r: Result<State>)
    ensures r.Ok? ==>
              && MoneyKept(s.lamports, r.value.lamports)
              && Bal(r.value.lamports, VaultPda) == Bal(s.lamports, VaultPda)
              && player in r.value.stats && s.stats.Keys <= r.value.stats.Keys
              && r.value == s.(lamports := r.value.lamports, stats := r.value.stats)
  {
    hide EnsureStats;
    var l1 :- Fund(s.lamports, player, ClaimPda(player), CLAIM_SPACE);
    var l2 :- Fund(l1, player, GamePda(player), GAME_SPACE);
    EnsureStats(s.(lamports := l2), player)
  }

  /** VRF mode needs its switch, an oracle and a payout cap. */
  function CheckVrfOpen(v2: V2State): Outcome {
    if !v2.vrfEnabled then Fail(VrfModeDisabled)
    else Need(v2.vrfValidator != 0 && v2.vrfMaxPayoutBps > 0, VrfValidatorNotSet)
  }

  function StartGameVrf(s: State, player: Id, session: Id, mines: nat, bet: nat): (r: Result<State>)
    ensures RoundEffect(s, r, player)
  {
    hide TakeBet, FundRound;
    if player in s.claims || player in s.games then Err(AccountInUse)
    else
      var s' :- FundRound(s, player);
      :- CheckVrfOpen(s.v2);
      :- CheckBet(s.vault, mines, bet);
      var cap := Min(s.vault.maxPayoutBps, s.v2.vrfMaxPayoutBps);
      var e :- TakeBet(s'.lamports, s.vault, s.v2, player, cap, mines, bet);
      Ok(s'.(
         lamports := e.lamports, v2 := e.v2,
         claims := s.claims[player := Claim(bet, e.worst, mines, s.vault.edge, s.slot, false)],
         games := s.games[player := OnL1(OpenGame(player, session, mines, s.vault.edge))]))
  }

  /** Only a game that is genuinely in play on L1 may be handed to the rollup. */
  function CheckDelegable(slot: GameSlot): Outcome {
    if slot.Delegated? then Fail(GameStillDelegated)
    else if L1Image(slot).Blank? then Fail(BadGameAccount)
    else if RawStatus(L1Image(slot)) != VRF_PLAYING then Fail(GameAlreadyResolved)
    else Need(!slot.game.pending, RevealPending)
  }

  /** Hand-off: L1's copy is zeroed and the live game moves to the rollup. */
  function DelegateVrf(s: State, player: Id, passed: Option<Id>): (r: Result<State>)
    ensures RoundEffect(s, r, player)
  {
    if s.v2.vrfValidator == 0 then Err(VrfValidatorNotSet)
    else if passed.Some? && passed.value != s.v2.vrfValidator then Err(WrongVrfValidator)
    else if player !in s.games then Err(GameStillDelegated)
    else
      :- CheckDelegable(s.games[player]);
      Ok(s.(games := s.games[player := Delegated(Blank, s.games[player].game)]))
  }

  /** A play step acts on the live game, wherever it is. */
  function Play(s: State, player: Id, step: VrfGame -> Result<VrfGame>): (r: Result<State>)
    ensures RoundEffect(s, r, player)
  {
    if player !in s.games then Err(AccountMissing)
    else
      var g :- step(s.games[player].game);
      Ok(s.(games := s.games[player := s.games[player].(game := g)]))
  }

  function RequestRevealVrf(s: State, player: Id, signer: Id, tile: nat): (r: Result<State>)
    ensures RoundEffect(s, r, player)
  {
    Play(s, player, (g: VrfGame) => RequestReveal(g, signer, tile))
  }

  function RevealCallbackVrf(s: State, player: Id, randomness: Randomness): (r: Result<State>)
    ensures RoundEffect(s, r, player)
  {
    Play(s, player, (g: VrfGame) => RevealCallback(g, randomness))
  }

  function CashOutVrf(s: State, player: Id, signer: Id): (r: Result<State>)
    ensures RoundEffect(s, r, player)
  {
    Play(s, player, (g: VrfGame) => CashOut(g, signer))
  }

  /** A periodic commit refreshes L1's bytes while ownership stays with the rollup. */
  function CommitVrf(s: State, player: Id): (r: Result<State>)
    ensures RoundEffect(s, r, player)
  {
    if player !in s.games || s.games[player].OnL1? then Err(AccountMissing)
    else
      var g := s.games[player].game;
      Ok(s.(games := s.games[player := Delegated(Bytes(g), g)]))
  }

  function UndelegateVrf(s: State, player: Id, signer: Id): (r: Result<State>)
    ensures RoundEffect(s, r, player)
  {
    if player !in s.games || s.games[player].OnL1? then Err(AccountMissing)
    else
      var g := s.games[player].game;
      :- Need(signer == g.player || signer == g.session, BadSessionKey);
      Ok(s.(games := s.games[player := OnL1(g)]))
  }

  /** Close the claim and the game to the player. */
  function CloseRound(s: State, l: Lamports, player: Id): (r: Result<State>)
    ensures r.Ok? ==>
              MoneyKept(l, r.value.lamports) && Bal(r.value.lamports, VaultPda) == Bal(l, VaultPda)
              && r.value == s.(lamports := r.value.lamports, claims := s.claims - {player}, games := s.games - {player})
  {
    var l1 :- Drain(l, ClaimPda(player), Wallet(player));
    var l2 :- Drain(l1, GamePda(player), Wallet(player));
    Ok(s.(lamports := l2, claims := s.claims - {player}, games := s.games - {player}))
  }

  /** The player first, then the referrer's and the treasury's cuts of the bet. */
  function PayRound(s: State, player: Id, payout: nat, bet: nat, passed: Option<Account>): (r: Result<Paid>)
    requires player in s.stats
    ensures r.Ok? ==> MoneyKept(s.lamports, r.value.lamports)
  {
    if payout > Assets(s.lamports) then Err(VaultInsufficientFunds)
    else
      var l1 :- Move(s.lamports, VaultPda, Wallet(player), payout);
      var paid :- PayReferrer(l1, s.referrals, s.stats[player], passed, bet);
      var l2 :- PayTreasury(paid.lamports, s.vault, s.v2, bet);
      Ok(Paid(l2, paid.referrals))
  }

  function SettleVrf(s: State, player: Id, passed: Option<Account>): (r: Result<State>)
    ensures RoundEffect(s, r, player)
  {
    if player !in s.claims || player !in s.games || player !in s.stats then Err(AccountMissing)
    else if s.games[player].Delegated? then Err(GameStillDelegated)
    else
      var c := s.claims[player];
      var verdict :- Verify(c, s.games[player].game);
      var v2' := Release(s.v2, c.reserved);
      var payout :- Award(c, verdict);
      var paid :- PayRound(s.(v2 := v2'), player, payout, c.bet, passed);
      CloseRound(s.(v2 := v2', referrals := paid.referrals), paid.lamports, player)
  }

  /** Who may refund which claim, and when. */
  function CheckStalled(s: State, player: Id, caller: Id): (r: Outcome)
    requires player in s.claims
    ensures r == Pass ==> player in s.games
  {
    var c := s.claims[player];
    if c.settled then Fail(GameAlreadySettled)
    else if caller != player && caller != s.vault.houseAuthority then Fail(Unauthorized)
    else if s.slot <= SatAdd(c.startSlot, STALL_SLOTS) then Fail(NotStalledYet)
    else if player !in s.games || s.games[player].Delegated? then Fail(GameStillDelegated)
    else
      var g := s.games[player].game;
      if g.status != VRF_PLAYING then Fail(GameAlreadyResolved)
      else if g.player != player then Fail(BadGameAccount)
      else Need(caller == player || (g.safe == 0 && !g.pending), Unauthorized)
  }

  function RefundStalledVrf(s: State, player: Id, caller: Id): (r: Result<State>)
    ensures RoundEffect(s, r, player)
  {
    if player !in s.claims then Err(AccountMissing)
    else
      var c := s.claims[player];
      :- CheckStalled(s, player, caller);
      :- Need(c.bet <= Assets(s.lamports), VaultInsufficientFunds);
      var l :- Move(s.lamports, VaultPda, Wallet(player), c.bet);
      CloseRound(s.(v2 := Release(s.v2, c.reserved)), l, player)
  }

  /** The owner's last resort. The reveal account stays where it is. */
  function AdminReleaseVrfClaim(s: State, player: Id): (r: Result<State>)
    ensures RoundEffect(s, r, player)
  {
    if player !in s.claims then Err(AccountMissing)
    else
      var c := s.claims[player];
      :- Need(!c.settled, GameAlreadySettled);
      :- Need(s.slot > SatAdd(c.startSlot, ABANDON_SLOTS), NotStalledYet);
      var payable := Min(c.bet, AdminSpendable(s.lamports, s.v2));
      var l1 :- Move(s.lamports, VaultPda, Wallet(player), payable);
      var l2 :- Drain(l1, ClaimPda(player), Wallet(player));
      Ok(s.(lamports := l2, v2 := Release(s.v2, c.reserved), claims := s.claims - {player}))
  }

  // ================================================================ commit-reveal sessions

  function StartGame(s: State, player: Id, mines: nat, bet: nat, commitment: Digest): (r: Result<State>)
    ensures SessionEffect(s, r, player)
  {
    hide TakeBet, EnsureStats;
    if player in s.sessions then Err(AccountInUse)
    else
      var l1 :- Fund(s.lamports, player, SessionPda(player), SESSION_SPACE);
      var s' :- EnsureStats(s.(lamports := l1), player);
      :- CheckBet(s.vault, mines, bet);
      :- Need(!Blanked(commitment), InvalidCommitment);
      var e :- TakeBet(s'.lamports, s.vault, s.v2, player, s.vault.maxPayoutBps, mines, bet);
      var session := Session(Playing, bet, mines, commitment, {}, {}, 0, BPS, s.slot, false, e.worst);
      Ok(s'.(lamports := e.lamports, v2 := e.v2, sessions := s.sessions[player := session]))
  }

  function RevealTile(s: State, player: Id, tile: nat, isMine: bool): (r: Result<State>)
    ensures SessionEffect(s, r, player)
  {
    if tile >= GRID_SIZE then Err(InvalidTileIndex)
    else if player !in s.sessions then Err(AccountMissing)
    else
      var g := s.sessions[player];
      :- Need(g.status == Playing, GameNotPlaying);
      :- Need(s.slot <= SatAdd(g.startSlot, GAME_EXPIRY_SLOTS), GameExpired);
      :- Need(tile !in g.revealed, TileAlreadyRevealed);
      if isMine then
        Ok(s.(sessions := s.sessions[player := g.(revealed := g.revealed + {tile}, status := Lost)]))
      else
        var mult :- CalcMultiplier(g.safe + 1, g.mines, s.vault.edge);
        var status := if g.safe + 1 >= SatSub(GRID_SIZE, g.mines) then Won else Playing;
        var g' := g.(revealed := g.revealed + {tile}, safeTiles := g.safeTiles + {tile}, safe := g.safe + 1, mult := mult,
                     status := status);
        Ok(s.(sessions := s.sessions[player := g']))
  }

  /** Pays at once, and leaves the obligation to whichever handler ends the session. */
  function CashOutGame(s: State, player: Id): (r: Result<State>)
    ensures SessionEffect(s, r, player)
  {
    if player !in s.sessions then Err(AccountMissing)
    else
      var g := s.sessions[player];
      :- Need(g.status == Playing, GameNotPlaying);
      :- Need(g.safe > 0, NoTilesRevealed);
      var payout :- MulDivFloor(g.bet, g.mult, BPS);
      :- Need(payout <= Assets(s.lamports), VaultInsufficientFunds);
      var l :- Move(s.lamports, VaultPda, Wallet(player), payout);
      Ok(s.(lamports := l, sessions := s.sessions[player := g.(status := Won)]))
  }

  /** The published mine layout against its commitment and against what was revealed. */
  function CheckLayout(g: Session, layout: set<nat>, digest: Digest): Outcome {
    var revealedMines := g.revealed - g.safeTiles;
    if digest != g.commitment || |layout| != g.mines then Fail(CommitmentMismatch)
    else Need(g.safeTiles !! layout && revealedMines <= layout && (g.status == Lost ==> revealedMines != {}), RevealMismatch)
  }

  /** `digest` is the hash of the published layout, mine count and salt. */
  function SettleGame(s: State, player: Id, layout: set<nat>, digest: Digest, passed: Option<Account>): (r: Result<State>)
    ensures SessionEffect(s, r, player)
  {
    if player !in s.sessions || player !in s.stats then Err(AccountMissing)
    else
      var g := s.sessions[player];
      :- Need(g.status == Won || g.status == Lost, GameNotPlaying);
      :- Need(!g.settled, GameAlreadySettled);
      :- CheckLayout(g, layout, digest);
      var v2' := Release(s.v2, g.maxPayout);
      var _ :- if g.status == Won then MulDivFloor(g.bet, g.mult, BPS) else Ok(0);
      var paid :- PayReferrer(s.lamports, s.referrals, s.stats[player], passed, g.bet);
      var l :- PayTreasury(paid.lamports, s.vault, v2', g.bet);
      var _ :- CalcHealth(v2', Assets(l));
      Ok(s.(lamports := l, referrals := paid.referrals, v2 := v2',
            sessions := s.sessions[player := g.(settled := true)]))
  }

  function RefundExpired(s: State, player: Id): (r: Result<State>)
    ensures SessionEffect(s, r, player)
  {
    if player !in s.sessions then Err(AccountMissing)
    else
      var g := s.sessions[player];
      :- Need(g.status == Playing, GameNotPlaying);
      :- Need(s.slot > SatAdd(g.startSlot, GAME_EXPIRY_SLOTS), GameNotExpired);
      var l :- Move(s.lamports, VaultPda, Wallet(player), Min(g.bet, Assets(s.lamports)));
      Ok(s.(lamports := l, v2 := Release(s.v2, g.maxPayout),
            sessions := s.sessions[player := g.(status := Expired)]))
  }

  function CloseSession(s: State, player: Id): (r: Result<State>)
    ensures r.Ok? ==> MoneyKept(s.lamports, r.value.lamports)
  {
    var l :- Drain(s.lamports, SessionPda(player), Wallet(player));
    Ok(s.(lamports := l, sessions := s.sessions - {player}))
  }

  function CloseGame(s: State, player: Id): (r: Result<State>)
    ensures SessionEffect(s, r, player)
  {
    if player !in s.sessions then Err(AccountMissing)
    else
      var g := s.sessions[player];
      :- Need(g.status == Expired || (g.settled && (g.status == Won || g.status == Lost)), GameNotFinished);
      CloseSession(s, player)
  }

  function CloseUnsettledGame(s: State, player: Id): (r: Result<State>)
    ensures SessionEffect(s, r, player)
  {
    if player !in s.sessions then Err(AccountMissing)
    else
      var g := s.sessions[player];
      :- Need(g.status == Won || g.status == Lost, GameNotFinished);
      :- Need(!g.settled, GameAlreadySettled);
      :- Need(s.slot > SatAdd(g.startSlot, CLOSE_UNSETTLED_EXPIRY_SLOTS), GameNotExpired);
      CloseSession(s.(v2 := Release(s.v2, g.maxPayout)), player)
  }

  // ================================================================ LP positions

  function FundVault(s: State, funder: Id, amount: nat): (r: Result<State>)
    ensures LpEffect(s, r, funder)
  {
    if amount == 0 then Err(InvalidAmount)
    else
      var l :- Move(s.lamports, Wallet(funder), VaultPda, amount);
      Ok(s.(lamports := l))
  }

  /** The user's position account, created on the first deposit. */
  function EnsurePosition(s: State, user: Id): (r: Result<State>)
    ensures r.Ok? ==>
              && MoneyKept(s.lamports, r.value.lamports)
              && Bal(r.value.lamports, VaultPda) == Bal(s.lamports, VaultPda)
              && user in r.value.positions && r.value.positions - {user} == s.positions - {user}
              && Units(r.value, user) == Units(s, user) && Pending(r.value, user) == Pending(s, user)
              && r.value == s.(lamports := r.value.lamports, positions := r.value.positions)
  {
    if user in s.positions then Ok(s)
    else
      var l :- Fund(s.lamports, user, PositionPda(user), POSITION_SPACE);
      Ok(s.(lamports := l, positions := s.positions[user := Position(0, 0, 0)]))
  }

  /** The floor, the cap and the health check on what a deposit would leave. */
  function AdmitDeposit(v2: V2State, assets: nat, pos: Position): Result<()> {
    var users :- UserUnitsTotal(v2);
    :- EnforceHouseFloor(v2.houseUnits, users, v2.minHouseShare);
    var units :- CheckedAdd(pos.units, pos.pending, U128_MAX);
    var value :- UnitsToAssets(units, assets, v2.totalUnits);
    var health :- CalcHealth(v2, assets);
    :- EnforcePositionCap(value, assets, health, v2.maxUserPosition);
    :- EnforceMinHealth(v2, assets);
    Ok(())
  }

  function LpDeposit(s: State, user: Id, amount: nat): (r: Result<State>)
    ensures LpEffect(s, r, user)
  {
    var s' :- EnsurePosition(s, user);
    var pos := s'.positions[user];
    :- Need(!s.vault.paused, VaultPaused);
    :- Need(amount >= s.v2.minDeposit, DepositBelowMin);
    var assets := Assets(s'.lamports);
    var minted :- DepositToUnits(amount, assets, s.v2.totalUnits);
    :- Need(minted > 0, MathOverflow);
    var l :- Move(s'.lamports, Wallet(user), VaultPda, amount);
    var assetsAfter := SatAdd(assets, amount);
    var totalUnits :- CheckedAdd(s.v2.totalUnits, minted, U128_MAX);
    var units :- CheckedAdd(pos.units, minted, U128_MAX);
    var v2', pos' := s.v2.(totalUnits := totalUnits), pos.(units := units);
    var _ :- AdmitDeposit(v2', assetsAfter, pos');
    Ok(s'.(lamports := l, v2 := v2', positions := s'.positions[user := pos']))
  }

  function RequestWithdraw(s: State, user: Id, units: nat): (r: Result<State>)
    ensures LpEffect(s, r, user)
  {
    if user !in s.positions then Err(AccountMissing)
    else
      var pos := s.positions[user];
      :- Need(pos.pending == 0, PendingWithdrawAlreadyExists);
      :- Need(units > 0, InvalidAmount);
      :- Need(units <= pos.units, InsufficientUnits);
      var totalPending :- CheckedAdd(s.v2.totalPending, units, U128_MAX);
      Ok(s.(v2 := s.v2.(totalPending := totalPending),
            positions := s.positions[user := Position(pos.units - units, units, SatAdd(s.slot, s.v2.cooldown))]))
  }

  function CancelWithdraw(s: State, user: Id): (r: Result<State>)
    ensures LpEffect(s, r, user)
  {
    if user !in s.positions then Err(AccountMissing)
    else
      var pos := s.positions[user];
      :- Need(pos.pending > 0, NoPendingWithdraw);
      var units :- CheckedAdd(pos.units, pos.pending, U128_MAX);
      var totalPending :- CheckedSub(s.v2.totalPending, pos.pending);
      Ok(s.(v2 := s.v2.(totalPending := totalPending), positions := s.positions[user := Position(units, 0, 0)]))
  }

  function CompleteWithdraw(s: State, user: Id): (r: Result<State>)
    ensures LpEffect(s, r, user)
  {
    if user !in s.positions then Err(AccountMissing)
    else
      var pos := s.positions[user];
      :- Need(pos.pending > 0, NoPendingWithdraw);
      :- Need(s.slot >= pos.unlock, CooldownNotElapsed);
      var out :- UnitsToAssets(pos.pending, Assets(s.lamports), s.v2.totalUnits);
      :- Need(out <= Assets(s.lamports), InsufficientLiquidity);
      var totalPending :- CheckedSub(s.v2.totalPending, pos.pending);
      var totalUnits :- CheckedSub(s.v2.totalUnits, pos.pending);
      var l :- Move(s.lamports, VaultPda, Wallet(user), out);
      Ok(s.(lamports := l, v2 := s.v2.(totalPending := totalPending, totalUnits := totalUnits),
            positions := s.positions[user := Position(pos.units, 0, 0)]))
  }

  function CloseLpPosition(s: State, user: Id): (r: Result<State>)
    ensures LpEffect(s, r, user)
  {
    if user !in s.positions then Err(AccountMissing)
    else
      var pos := s.positions[user];
      :- Need(pos.units == 0 && pos.pending == 0, LpPositionNotEmpty);
      var l :- Drain(s.lamports, PositionPda(user), Wallet(user));
      Ok(s.(lamports := l, positions := s.positions - {user}))
  }

  // ================================================================ the house's position

  function HouseDeposit(s: State, amount: nat): (r: Result<State>)
    ensures HouseEffect(s, r)
  {
    if amount == 0 then Err(InvalidAmount)
    else
      var minted :- DepositToUnits(amount, Assets(s.lamports), s.v2.totalUnits);
      :- Need(minted > 0, MathOverflow);
      var l :- Move(s.lamports, Wallet(s.vault.owner), VaultPda, amount);
      var totalUnits :- CheckedAdd(s.v2.totalUnits, minted, U128_MAX);
      var houseUnits :- CheckedAdd(s.v2.houseUnits, minted, U128_MAX);
      Ok(s.(lamports := l, v2 := s.v2.(totalUnits := totalUnits, houseUnits := houseUnits)))
  }

  function HouseRequestWithdraw(s: State, units: nat): (r: Result<State>)
    ensures HouseEffect(s, r)
  {
    if s.v2.housePending != 0 then Err(PendingWithdrawAlreadyExists)
    else if units == 0 then Err(InvalidAmount)
    else if units > s.v2.houseUnits then Err(InsufficientUnits)
    else
      var users :- UserUnitsTotal(s.v2);
      :- EnforceHouseFloor(s.v2.houseUnits - units, users, s.v2.minHouseShare);
      Ok(s.(v2 := s.v2.(houseUnits := s.v2.houseUnits - units, housePending := units,
                        houseUnlock := SatAdd(s.slot, s.v2.cooldown))))
  }

  function HouseCancelWithdraw(s: State): (r: Result<State>)
    ensures HouseEffect(s, r)
  {
    if s.v2.housePending == 0 then Err(NoPendingWithdraw)
    else
      var houseUnits :- CheckedAdd(s.v2.houseUnits, s.v2.housePending, U128_MAX);
      Ok(s.(v2 := s.v2.(houseUnits := houseUnits, housePending := 0, houseUnlock := 0)))
  }

  function HouseCompleteWithdraw(s: State): (r: Result<State>)
    ensures HouseEffect(s, r)
  {
    if s.v2.housePending == 0 then Err(NoPendingWithdraw)
    else if s.slot < s.v2.houseUnlock then Err(CooldownNotElapsed)
    else
      var out :- UnitsToAssets(s.v2.housePending, Assets(s.lamports), s.v2.totalUnits);
      :- Need(out <= Assets(s.lamports), InsufficientLiquidity);
      var totalUnits :- CheckedSub(s.v2.totalUnits, s.v2.housePending);
      var l :- Move(s.lamports, VaultPda, Wallet(s.vault.owner), out);
      Ok(s.(lamports := l, v2 := s.v2.(totalUnits := totalUnits, housePending := 0, houseUnlock := 0)))
  }

  /** A payee of the operator: not a program, not the vault, and on the allowlist. */
  function MayReceive(vault: Vault, destination: Account, executable: bool): Outcome {
    if executable then Fail(InvalidAmount)
    else if destination == VaultPda then Fail(InvalidConfig)
    else Need(destination in vault.allowlist, DestinationNotAllowlisted)
  }

  function UnlockOperatorPosition(s: State, destination: Account, executable: bool): (r: Result<State>)
    ensures HouseEffect(s, r)
  {
    var v2 := s.v2;
    var two :- CheckedAdd(v2.seedUnits, v2.houseUnits, U128_MAX);
    var burn :- CheckedAdd(two, v2.housePending, U128_MAX);
    :- Need(burn > 0, NoOperatorUnitsToUnlock);
    :- MayReceive(s.vault, destination, executable);
    var assets := Assets(s.lamports);
    var payout :- UnitsToAssets(burn, assets, v2.totalUnits);
    var userPending :- UnitsToAssets(v2.totalPending, assets, v2.totalUnits);
    var actual := Min(payout, SatSub(SatSub(assets, v2.outstanding), userPending));
    :- Need(actual > 0, InsufficientLiquidity);
    var totalUnits :- CheckedSub(v2.totalUnits, burn);
    var v2' := v2.(totalUnits := totalUnits, seedUnits := 0, houseUnits := 0, housePending := 0, houseUnlock := 0);
    var l :- Move(s.lamports, VaultPda, destination, actual);
    :- EnforceMinHealth(v2', Assets(l));
    Ok(s.(lamports := l, v2 := v2'))
  }

  function WithdrawToTreasury(s: State, destination: Account, executable: bool, amount: nat): (r: Result<State>)
    ensures HouseEffect(s, r)
  {
    if amount == 0 then Err(InvalidAmount)
    else
      :- MayReceive(s.vault, destination, executable);
      var l :- Move(s.lamports, VaultPda, destination, Min(amount, Assets(s.lamports)));
      Ok(s.(lamports := l))
  }

  // ================================================================ referrals and configuration

  function SetReferrer(s: State, player: Id, referrer: Id): (r: Result<State>)
    ensures AdminEffect(s, r)
    ensures r.Ok? ==> SameConfig(s, r.value)
  {
    if referrer == player then Err(SelfReferral)
    else
      var s' :- EnsureStats(s, player);
      var isNew := referrer !in s.referrals;
      var l :- if isNew then Fund(s'.lamports, player, ReferralPda(referrer), REFERRAL_SPACE) else Ok(s'.lamports);
      :- Need(s'.stats[player].None?, ReferrerAlreadySet);
      var ra := if isNew then Referral(referrer, 0, 0, 0)
                else if s.referrals[referrer].referrer == 0 then s.referrals[referrer].(referrer := referrer, tier := 0)
                else s.referrals[referrer];
      Ok(s'.(lamports := l, stats := s'.stats[player := Some(referrer)], referrals := s.referrals[referrer := ra]))
  }

  function ClaimReferral(s: State, referrer: Id): (r: Result<State>)
    ensures AdminEffect(s, r)
    ensures r.Ok? ==> SameConfig(s, r.value)
  {
    if referrer !in s.referrals then Err(AccountMissing)
    else
      var ra := s.referrals[referrer];
      :- Need(ra.referrer == referrer, Unauthorized);
      :- Need(ra.accrued > 0, NothingToClaim);
      var payout := Min(ra.accrued, SatSub(Bal(s.lamports, ReferralPda(referrer)), Rent(REFERRAL_SPACE)));
      var l :- Move(s.lamports, ReferralPda(referrer), Wallet(referrer), payout);
      Ok(s.(lamports := l, referrals := s.referrals[referrer := ra.(accrued := ra.accrued - payout)]))
  }

  predicate VaultConfigOk(v: Vault) {
    && v.edge <= MAX_HOUSE_EDGE_BPS
    && 0 < v.maxBetBps <= MAX_BET_BPS
    && 0 < v.maxPayoutBps <= MAX_PAYOUT_BPS
    && v.splitBps <= BPS
  }

  ghost predicate ConfigSound(s: State) {
    VaultConfigOk(s.vault) && MIN_HEALTH_BPS_FLOOR <= s.v2.minHealth <= BPS && s.v2.minHouseShare <= BPS
    && s.v2.vrfMaxPayoutBps <= BPS
  }

  /** The owner's settings in the vault; `None` leaves one alone. */
  datatype VaultUpdate = VaultUpdate(
    edge: Option<nat>, maxBetBps: Option<nat>, maxPayoutBps: Option<nat>, splitBps: Option<nat>,
    paused: Option<bool>, houseAuthority: Option<Id>, treasury: Option<Account>)

  predicate VaultUpdateOk(u: VaultUpdate) {
    && (u.edge.Some? ==> u.edge.value <= MAX_HOUSE_EDGE_BPS)
    && (u.maxBetBps.Some? ==> 0 < u.maxBetBps.value <= MAX_BET_BPS)
    && (u.maxPayoutBps.Some? ==> 0 < u.maxPayoutBps.value <= MAX_PAYOUT_BPS)
    && (u.splitBps.Some? ==> u.splitBps.value <= BPS)
    && u.houseAuthority != Some(0) && u.treasury != Some(Wallet(0))
  }

  function UpdateVault(s: State, u: VaultUpdate): (r: Result<State>)
    ensures AdminEffect(s, r)
    ensures r.Ok? && ConfigSound(s) ==> ConfigSound(r.value)
  {
    var v := s.vault;
    if !VaultUpdateOk(u) then Err(InvalidConfig)
    else Ok(s.(vault := v.(
      edge := Or(u.edge, v.edge), maxBetBps := Or(u.maxBetBps, v.maxBetBps), maxPayoutBps := Or(u.maxPayoutBps, v.maxPayoutBps),
      splitBps := Or(u.splitBps, v.splitBps), paused := Or(u.paused, v.paused),
      houseAuthority := Or(u.houseAuthority, v.houseAuthority), treasury := Or(u.treasury, v.treasury))))
  }

  /** The owner's settings in the second state account; `None` leaves one alone. */
  datatype V2Update = V2Update(
    minHouseShare: Option<nat>, maxUserPosition: Option<nat>, minHealth: Option<nat>, cooldown: Option<nat>,
    minDeposit: Option<nat>, vrfEnabled: Option<bool>, vrfValidator: Option<Id>, vrfMaxPayoutBps: Option<nat>)

  predicate V2UpdateOk(u: V2Update) {
    && (u.vrfMaxPayoutBps.Some? ==> u.vrfMaxPayoutBps.value <= BPS)
    && (u.minHouseShare.Some? ==> u.minHouseShare.value <= BPS)
    && (u.maxUserPosition.Some? ==> u.maxUserPosition.value <= BPS)
    && (u.minHealth.Some? ==> MIN_HEALTH_BPS_FLOOR <= u.minHealth.value <= BPS)
    && (u.cooldown.Some? ==> MIN_WITHDRAW_COOLDOWN_SLOTS <= u.cooldown.value)
  }

  function UpdateV2Config(s: State, u: V2Update): (r: Result<State>)
    ensures AdminEffect(s, r)
    ensures r.Ok? && ConfigSound(s) ==> ConfigSound(r.value)
  {
    var v := s.v2;
    if !V2UpdateOk(u) then Err(InvalidConfig)
    else Ok(s.(v2 := v.(
      minHouseShare := Or(u.minHouseShare, v.minHouseShare), maxUserPosition := Or(u.maxUserPosition, v.maxUserPosition),
      minHealth := Or(u.minHealth, v.minHealth), cooldown := Or(u.cooldown, v.cooldown),
      minDeposit := Or(u.minDeposit, v.minDeposit), vrfEnabled := Or(u.vrfEnabled, v.vrfEnabled),
      vrfValidator := Or(u.vrfValidator, v.vrfValidator), vrfMaxPayoutBps := Or(u.vrfMaxPayoutBps, v.vrfMaxPayoutBps))))
  }

  /** Carve the existing balance into seed and house units, one unit a lamport. */
  function InitializeV2(assets: nat): Result<V2State> {
    if assets < ANTI_INFLATION_SEED_LAMPORTS then Err(InsufficientLiquidity)
    else Ok(V2State(
      0,
      assets, assets - ANTI_INFLATION_SEED_LAMPORTS, 0, 0, ANTI_INFLATION_SEED_LAMPORTS, 0,
      DEFAULT_MIN_HOUSE_SHARE_BPS, DEFAULT_MAX_USER_POSITION_BPS, DEFAULT_MIN_HEALTH_BPS,
      DEFAULT_WITHDRAW_COOLDOWN_SLOTS, DEFAULT_MIN_LP_DEPOSIT_LAMPORTS,
      false, 0, 0))
  }
}
