/**
 The program as it executes: one ledger whose fields every handler updates in place, in the order
 the instruction does, and a runtime that undoes what a failed transaction wrote.
 */
module Program {
  import opened Prelude
  import opened Odds
  import opened Reveal
  import opened VrfGameAccount
  import opened Ledger
  import opened Handlers
  import opened Runs

  /** A handler that succeeds leaves what the specification says; one that fails reports the same error. */
  ghost predicate Follows(r: Result<()>, now: State, spec: Result<State>) {
    match spec
    case Ok(t) => r == Ok(()) && now == t
    case Err(e) => r == Err(e)
  }

  class Kaboom {
    var slot: nat
    var vault: Vault
    var v2: V2State
    var lamports: Lamports
    var claims: map<Id, Claim>
    var games: map<Id, GameSlot>
    var positions: map<Id, Position>
    var sessions: map<Id, Session>
    var stats: map<Id, Option<Id>>
    var referrals: map<Id, Referral>

    function View(): State
      reads this
    {
      State(slot, vault, v2, lamports, claims, games, positions, sessions, stats, referrals)
    }

    constructor (s: State)
      ensures View() == s
    {
      slot, vault, v2, lamports, claims, games := s.slot, s.vault, s.v2, s.lamports, s.claims, s.games;
      positions, sessions, stats, referrals := s.positions, s.sessions, s.stats, s.referrals;
    }

    method Restore(s: State)
      modifies this
      ensures View() == s
    {
      slot, vault, v2, lamports, claims, games := s.slot, s.vault, s.v2, s.lamports, s.claims, s.games;
      positions, sessions, stats, referrals := s.positions, s.sessions, s.stats, s.referrals;
    }

    // -------------------------------------------------------------- lamports

    method MoveLamports(from: Account, to: Account, n: nat) returns (r: Result<()>)
      modifies this`lamports
      ensures match Move(old(lamports), from, to, n)
              case Ok(l) => r == Ok(()) && lamports == l
              case Err(e) => r == Err(e)
    {
      if n > Bal(lamports, from) { return Err(MathOverflow); }
      lamports := lamports[from := Bal(lamports, from) - n];
      if Bal(lamports, to) + n > U64_MAX { return Err(MathOverflow); }
      lamports := lamports[to := Bal(lamports, to) + n];
      return Ok(());
    }

    method FundAccount(payer: Id, a: Account, space: nat) returns (r: Result<()>)
      modifies this`lamports
      ensures match Fund(old(lamports), payer, a, space)
              case Ok(l) => r == Ok(()) && lamports == l
              case Err(e) => r == Err(e)
    {
      r := MoveLamports(Wallet(payer), a, SatSub(Rent(space), Bal(lamports, a)));
    }

    method CloseAccount(a: Account, to: Account) returns (r: Result<()>)
      modifies this`lamports
      ensures match Drain(old(lamports), a, to)
              case Ok(l) => r == Ok(()) && lamports == l
              case Err(e) => r == Err(e)
    {
      r := MoveLamports(a, to, Bal(lamports, a));
    }

    method OpenStats(player: Id) returns (r: Result<()>)
      modifies this`lamports, this`stats
      ensures Follows(r, View(), EnsureStats(old(View()), player))
    {
      if player !in stats {
        var _ :- FundAccount(player, StatsPda(player), STATS_SPACE);
        stats := stats[player := None];
      }
      return Ok(());
    }

    method OpenRoundAccounts(player: Id) returns (r: Result<()>)
      modifies this`lamports, this`stats
      ensures Follows(r, View(), FundRound(old(View()), player))
    {
      hide Fund, EnsureStats, MoneyKept;
      var _ :- FundAccount(player, ClaimPda(player), CLAIM_SPACE);
      var _ :- FundAccount(player, GamePda(player), GAME_SPACE);
      r := OpenStats(player);
    }

    method OpenPosition(user: Id) returns (r: Result<()>)
      modifies this`lamports, this`positions
      ensures Follows(r, View(), EnsurePosition(old(View()), user))
    {
      if user !in positions {
        var _ :- FundAccount(user, PositionPda(user), POSITION_SPACE);
        positions := positions[user := Position(0, 0, 0)];
      }
      return Ok(());
    }

    /** Rakeback, written to the referrer's record. */
    method PayRakeback(player: Id, passed: Option<Account>, bet: nat) returns (r: Result<()>)
      requires player in stats
      modifies this`lamports, this`referrals
      ensures match PayReferrer(old(lamports), old(referrals), stats[player], passed, bet)
              case Ok(paid) => r == Ok(()) && lamports == paid.lamports && referrals == paid.referrals
              case Err(e) => r == Err(e)
    {
      if stats[player].Some? && passed.Some? {
        var key := stats[player].value;
        :- Need(passed.value == ReferralPda(key), ReferralMismatch);
        :- Need(key in referrals, AccountMissing);
        var ra := referrals[key];
        :- Need(ra.referrer == key, ReferralMismatch);
        var cut :- MulDivFloor(bet, CutBps(ra.tier), BPS);
        var actual := Min(cut, Assets(lamports));
        var _ :- MoveLamports(VaultPda, ReferralPda(key), actual);
        var volume := SatAdd(ra.volume, bet);
        referrals := referrals[key := Referral(key, TierFor(volume), SatAdd(ra.accrued, actual), volume)];
      }
      return Ok(());
    }

    method PayTreasuryCut(bet: nat) returns (r: Result<()>)
      modifies this`lamports
      ensures match PayTreasury(old(lamports), vault, v2, bet)
              case Ok(l) => r == Ok(()) && lamports == l
              case Err(e) => r == Err(e)
    {
      if vault.splitBps != 0 {
        var edgeShare :- MulDivFloor(bet, vault.edge, BPS);
        var cut :- MulDivFloor(edgeShare, vault.splitBps, BPS);
        var pendingValue :- UnitsToAssets(v2.totalPending, Assets(lamports), v2.totalUnits);
        var liquidity := SatSub(SatSub(Assets(lamports), v2.outstanding), pendingValue);
        r := MoveLamports(VaultPda, vault.treasury, Min(cut, liquidity));
      } else {
        r := Ok(());
      }
    }

    method PayParties(player: Id, payout: nat, bet: nat, passed: Option<Account>) returns (r: Result<()>)
      requires player in stats
      modifies this`lamports, this`referrals
      ensures match PayRound(old(View()), player, payout, bet, passed)
              case Ok(paid) => r == Ok(()) && lamports == paid.lamports && referrals == paid.referrals
              case Err(e) => r == Err(e)
    {
      hide PayReferrer, PayTreasury, Assets, Move, MoneyKept;
      if payout > Assets(lamports) { return Err(VaultInsufficientFunds); }
      var _ :- MoveLamports(VaultPda, Wallet(player), payout);
      var _ :- PayRakeback(player, passed, bet);
      r := PayTreasuryCut(bet);
    }

    method EscrowBet(player: Id, payoutBps: nat, mines: nat, bet: nat) returns (r: Result<nat>)
      modifies this`lamports, this`v2
      ensures match TakeBet(old(lamports), vault, old(v2), player, payoutBps, mines, bet)
              case Ok(e) => r == Ok(e.worst) && lamports == e.lamports && v2 == e.v2
              case Err(e) => r == Err(e)
    {
      hide Quote, Assets, Move, EnforceMinHealth, MoneyKept;
      var available := Assets(lamports);
      var worst :- Quote(vault, v2, available, payoutBps, mines, bet);
      var _ :- MoveLamports(Wallet(player), VaultPda, bet);
      var outstanding :- CheckedAdd(v2.outstanding, worst, U64_MAX);
      v2 := v2.(outstanding := outstanding);
      :- EnforceMinHealth(v2, SatAdd(available, bet));
      return Ok(worst);
    }

    method ReleaseOutstanding(reserved: nat)
      modifies this`v2
      ensures v2 == Release(old(v2), reserved)
    {
      v2 := v2.(outstanding := SatSub(v2.outstanding, reserved));
    }

    /** Replay the committed records in the account's own array. */
    method CheckRound(c: Claim, g: VrfGame) returns (r: Result<Verdict>)
      ensures r == Verify(c, g)
    {
      var account := new GameAccount.Load(g);
      r := account.CheckSettlement(c);
    }

    method CloseClaimAndGame(player: Id) returns (r: Result<()>)
      modifies this`lamports, this`claims, this`games
      ensures Follows(r, View(), CloseRound(old(View()), old(lamports), player))
    {
      hide Drain, MoneyKept;
      var _ :- CloseAccount(ClaimPda(player), Wallet(player));
      var _ :- CloseAccount(GamePda(player), Wallet(player));
      claims := claims - {player};
      games := games - {player};
      return Ok(());
    }

    // -------------------------------------------------------------- VRF rounds

    method StartGameVrf(player: Id, session: Id, mines: nat, bet: nat) returns (r: Result<()>)
      modifies this
      ensures Follows(r, View(), Handlers.StartGameVrf(old(View()), player, session, mines, bet))
    {
      hide TakeBet, FundRound, CheckVrfOpen, MoneyKept, RoundEffect;
      if player in claims || player in games { return Err(AccountInUse); }
      var _ :- OpenRoundAccounts(player);
      :- CheckVrfOpen(v2);
      :- CheckBet(vault, mines, bet);
      var worst :- EscrowBet(player, Min(vault.maxPayoutBps, v2.vrfMaxPayoutBps), mines, bet);
      claims := claims[player := Claim(bet, worst, mines, vault.edge, slot, false)];
      games := games[player := OnL1(OpenGame(player, session, mines, vault.edge))];
      return Ok(());
    }

    method DelegateVrf(player: Id, passed: Option<Id>) returns (r: Result<()>)
      modifies this
      ensures Follows(r, View(), Handlers.DelegateVrf(old(View()), player, passed))
    {
      if v2.vrfValidator == 0 { return Err(VrfValidatorNotSet); }
      if passed.Some? && passed.value != v2.vrfValidator { return Err(WrongVrfValidator); }
      if player !in games { return Err(GameStillDelegated); }
      :- CheckDelegable(games[player]);
      games := games[player := Delegated(Blank, games[player].game)];
      return Ok(());
    }

    method RequestRevealVrf(player: Id, signer: Id, tile: nat) returns (r: Result<()>)
      modifies this
      ensures Follows(r, View(), Handlers.RequestRevealVrf(old(View()), player, signer, tile))
    {
      hide RequestReveal;
      if player !in games { return Err(AccountMissing); }
      var account := new GameAccount.Load(games[player].game);
      var _ :- account.Request(signer, tile);
      games := games[player := games[player].(game := account.View())];
      return Ok(());
    }

    method RevealCallbackVrf(player: Id, randomness: Randomness) returns (r: Result<()>)
      modifies this
      ensures Follows(r, View(), Handlers.RevealCallbackVrf(old(View()), player, randomness))
    {
      hide RevealCallback;
      if player !in games { return Err(AccountMissing); }
      var account := new GameAccount.Load(games[player].game);
      var _ :- account.Callback(randomness);
      games := games[player := games[player].(game := account.View())];
      return Ok(());
    }

    method CashOutVrf(player: Id, signer: Id) returns (r: Result<()>)
      modifies this
      ensures Follows(r, View(), Handlers.CashOutVrf(old(View()), player, signer))
    {
      hide CashOut;
      if player !in games { return Err(AccountMissing); }
      var account := new GameAccount.Load(games[player].game);
      var _ :- account.TakeCashOut(signer);
      games := games[player := games[player].(game := account.View())];
      return Ok(());
    }

    method CommitVrf(player: Id) returns (r: Result<()>)
      modifies this
      ensures Follows(r, View(), Handlers.CommitVrf(old(View()), player))
    {
      if player !in games || games[player].OnL1? { return Err(AccountMissing); }
      games := games[player := games[player].(image := Bytes(games[player].game))];
      return Ok(());
    }

    method UndelegateVrf(player: Id, signer: Id) returns (r: Result<()>)
      modifies this
      ensures Follows(r, View(), Handlers.UndelegateVrf(old(View()), player, signer))
    {
      if player !in games || games[player].OnL1? { return Err(AccountMissing); }
      var g := games[player].game;
      :- Need(signer == g.player || signer == g.session, BadSessionKey);
      games := games[player := OnL1(g)];
      return Ok(());
    }

    method SettleVrf(player: Id, passed: Option<Account>) returns (r: Result<()>)
      modifies this
      ensures Follows(r, View(), Handlers.SettleVrf(old(View()), player, passed))
    {
      hide Verify, Award, PayRound, Drain, Release, MoneyKept, RoundEffect;
      if player !in claims || player !in games || player !in stats { return Err(AccountMissing); }
      if games[player].Delegated? { return Err(GameStillDelegated); }
      var c := claims[player];
      var verdict :- CheckRound(c, games[player].game);
      ReleaseOutstanding(c.reserved);
      var payout :- Award(c, verdict);
      var _ :- PayParties(player, payout, c.bet, passed);
      r := CloseClaimAndGame(player);
    }

    method RefundStalledVrf(player: Id, caller: Id) returns (r: Result<()>)
      modifies this
      ensures Follows(r, View(), Handlers.RefundStalledVrf(old(View()), player, caller))
    {
      hide Drain, Move, Assets, Release, CheckStalled, MoneyKept, RoundEffect;
      if player !in claims { return Err(AccountMissing); }
      var c := claims[player];
      :- CheckStalled(View(), player, caller);
      :- Need(c.bet <= Assets(lamports), VaultInsufficientFunds);
      var _ :- MoveLamports(VaultPda, Wallet(player), c.bet);
      ReleaseOutstanding(c.reserved);
      r := CloseClaimAndGame(player);
    }

    method AdminReleaseVrfClaim(player: Id) returns (r: Result<()>)
      modifies this
      ensures Follows(r, View(), Handlers.AdminReleaseVrfClaim(old(View()), player))
    {
      hide Move, Drain, MoneyKept, RoundEffect;
      if player !in claims { return Err(AccountMissing); }
      var c := claims[player];
      :- Need(!c.settled, GameAlreadySettled);
      :- Need(slot > SatAdd(c.startSlot, ABANDON_SLOTS), NotStalledYet);
      ReleaseOutstanding(c.reserved);
      var payable := Min(c.bet, AdminSpendable(lamports, v2));
      var _ :- MoveLamports(VaultPda, Wallet(player), payable);
      var _ :- CloseAccount(ClaimPda(player), Wallet(player));
      claims := claims - {player};
      return Ok(());
    }

    // -------------------------------------------------------------- commit-reveal sessions

    method StartGame(player: Id, mines: nat, bet: nat, commitment: Digest) returns (r: Result<()>)
      modifies this
      ensures Follows(r, View(), Handlers.StartGame(old(View()), player, mines, bet, commitment))
    {
      hide TakeBet, Fund, EnsureStats, MoneyKept, SessionEffect;
      if player in sessions { return Err(AccountInUse); }
      var _ :- FundAccount(player, SessionPda(player), SESSION_SPACE);
      var _ :- OpenStats(player);
      :- CheckBet(vault, mines, bet);
      :- Need(!Blanked(commitment), InvalidCommitment);
      var worst :- EscrowBet(player, vault.maxPayoutBps, mines, bet);
      sessions := sessions[player := Session(Playing, bet, mines, commitment, {}, {}, 0, BPS, slot, false, worst)];
      return Ok(());
    }

    method RevealTile(player: Id, tile: nat, isMine: bool) returns (r: Result<()>)
      modifies this
      ensures Follows(r, View(), Handlers.RevealTile(old(View()), player, tile, isMine))
    {
      hide CalcMultiplier;
      if tile >= GRID_SIZE { return Err(InvalidTileIndex); }
      if player !in sessions { return Err(AccountMissing); }
      var g := sessions[player];
      :- Need(g.status == Playing, GameNotPlaying);
      :- Need(slot <= SatAdd(g.startSlot, GAME_EXPIRY_SLOTS), GameExpired);
      :- Need(tile !in g.revealed, TileAlreadyRevealed);
      g := g.(revealed := g.revealed + {tile});
      if isMine {
        g := g.(status := Lost);
      } else {
        var mult :- CalcMultiplier(g.safe + 1, g.mines, vault.edge);
        g := g.(safeTiles := g.safeTiles + {tile}, safe := g.safe + 1, mult := mult);
        if g.safe >= SatSub(GRID_SIZE, g.mines) { g := g.(status := Won); }
      }
      sessions := sessions[player := g];
      return Ok(());
    }

    method CashOutGame(player: Id) returns (r: Result<()>)
      modifies this
      ensures Follows(r, View(), Handlers.CashOutGame(old(View()), player))
    {
      hide MulDivFloor, Move, MoneyKept;
      if player !in sessions { return Err(AccountMissing); }
      var g := sessions[player];
      :- Need(g.status == Playing, GameNotPlaying);
      :- Need(g.safe > 0, NoTilesRevealed);
      var payout :- MulDivFloor(g.bet, g.mult, BPS);
      :- Need(payout <= Assets(lamports), VaultInsufficientFunds);
      var _ :- MoveLamports(VaultPda, Wallet(player), payout);
      sessions := sessions[player := g.(status := Won)];
      return Ok(());
    }

    method SettleGame(player: Id, layout: set<nat>, digest: Digest, passed: Option<Account>) returns (r: Result<()>)
      modifies this
      ensures Follows(r, View(), Handlers.SettleGame(old(View()), player, layout, digest, passed))
    {
      hide PayReferrer, PayTreasury, CalcHealth, MulDivFloor, MoneyKept, SessionEffect;
      if player !in sessions || player !in stats { return Err(AccountMissing); }
      var g := sessions[player];
      :- Need(g.status == Won || g.status == Lost, GameNotPlaying);
      :- Need(!g.settled, GameAlreadySettled);
      :- CheckLayout(g, layout, digest);
      sessions := sessions[player := g.(settled := true)];
      ReleaseOutstanding(g.maxPayout);
      if g.status == Won {
        var _ :- MulDivFloor(g.bet, g.mult, BPS);
      }
      var _ :- PayRakeback(player, passed, g.bet);
      var _ :- PayTreasuryCut(g.bet);
      var _ :- CalcHealth(v2, Assets(lamports));
      return Ok(());
    }

    method RefundExpired(player: Id) returns (r: Result<()>)
      modifies this
      ensures Follows(r, View(), Handlers.RefundExpired(old(View()), player))
    {
      hide Move, MoneyKept, SessionEffect;
      if player !in sessions { return Err(AccountMissing); }
      var g := sessions[player];
      :- Need(g.status == Playing, GameNotPlaying);
      :- Need(slot > SatAdd(g.startSlot, GAME_EXPIRY_SLOTS), GameNotExpired);
      var _ :- MoveLamports(VaultPda, Wallet(player), Min(g.bet, Assets(lamports)));
      sessions := sessions[player := g.(status := Expired)];
      ReleaseOutstanding(g.maxPayout);
      return Ok(());
    }

    method CloseGame(player: Id) returns (r: Result<()>)
      modifies this
      ensures Follows(r, View(), Handlers.CloseGame(old(View()), player))
    {
      hide Drain, MoneyKept, SessionEffect;
      if player !in sessions { return Err(AccountMissing); }
      var g := sessions[player];
      :- Need(g.status == Expired || (g.settled && (g.status == Won || g.status == Lost)), GameNotFinished);
      var _ :- CloseAccount(SessionPda(player), Wallet(player));
      sessions := sessions - {player};
      return Ok(());
    }

    method CloseUnsettledGame(player: Id) returns (r: Result<()>)
      modifies this
      ensures Follows(r, View(), Handlers.CloseUnsettledGame(old(View()), player))
    {
      hide Drain, MoneyKept, SessionEffect;
      if player !in sessions { return Err(AccountMissing); }
      var g := sessions[player];
      :- Need(g.status == Won || g.status == Lost, GameNotFinished);
      :- Need(!g.settled, GameAlreadySettled);
      :- Need(slot > SatAdd(g.startSlot, CLOSE_UNSETTLED_EXPIRY_SLOTS), GameNotExpired);
      ReleaseOutstanding(g.maxPayout);
      var _ :- CloseAccount(SessionPda(player), Wallet(player));
      sessions := sessions - {player};
      return Ok(());
    }

    // -------------------------------------------------------------- LP positions

    method FundVault(funder: Id, amount: nat) returns (r: Result<()>)
      modifies this
      ensures Follows(r, View(), Handlers.FundVault(old(View()), funder, amount))
    {
      hide Move, MoneyKept, LpEffect;
      if amount == 0 { return Err(InvalidAmount); }
      r := MoveLamports(Wallet(funder), VaultPda, amount);
    }

    method LpDeposit(user: Id, amount: nat) returns (r: Result<()>)
      modifies this
      ensures Follows(r, View(), Handlers.LpDeposit(old(View()), user, amount))
    {
      hide DepositToUnits, AdmitDeposit, EnsurePosition, Move, Assets, CheckedAdd, SatAdd, MoneyKept, LpEffect;
      var _ :- OpenPosition(user);
      var pos := positions[user];
      :- Need(!vault.paused, VaultPaused);
      :- Need(amount >= v2.minDeposit, DepositBelowMin);
      var assets := Assets(lamports);
      var minted :- DepositToUnits(amount, assets, v2.totalUnits);
      :- Need(minted > 0, MathOverflow);
      var _ :- MoveLamports(Wallet(user), VaultPda, amount);
      var assetsAfter := SatAdd(assets, amount);
      var totalUnits :- CheckedAdd(v2.totalUnits, minted, U128_MAX);
      v2 := v2.(totalUnits := totalUnits);
      var units :- CheckedAdd(pos.units, minted, U128_MAX);
      positions := positions[user := pos.(units := units)];
      var _ :- AdmitDeposit(v2, assetsAfter, positions[user]);
      return Ok(());
    }

    method RequestWithdraw(user: Id, units: nat) returns (r: Result<()>)
      modifies this
      ensures Follows(r, View(), Handlers.RequestWithdraw(old(View()), user, units))
    {
      if user !in positions { return Err(AccountMissing); }
      var pos := positions[user];
      :- Need(pos.pending == 0, PendingWithdrawAlreadyExists);
      :- Need(units > 0, InvalidAmount);
      :- Need(units <= pos.units, InsufficientUnits);
      positions := positions[user := Position(pos.units - units, units, SatAdd(slot, v2.cooldown))];
      var totalPending :- CheckedAdd(v2.totalPending, units, U128_MAX);
      v2 := v2.(totalPending := totalPending);
      return Ok(());
    }

    method CancelWithdraw(user: Id) returns (r: Result<()>)
      modifies this
      ensures Follows(r, View(), Handlers.CancelWithdraw(old(View()), user))
    {
      if user !in positions { return Err(AccountMissing); }
      var pos := positions[user];
      :- Need(pos.pending > 0, NoPendingWithdraw);
      var units :- CheckedAdd(pos.units, pos.pending, U128_MAX);
      positions := positions[user := Position(units, 0, 0)];
      var totalPending :- CheckedSub(v2.totalPending, pos.pending);
      v2 := v2.(totalPending := totalPending);
      return Ok(());
    }

    method CompleteWithdraw(user: Id) returns (r: Result<()>)
      modifies this
      ensures Follows(r, View(), Handlers.CompleteWithdraw(old(View()), user))
    {
      hide UnitsToAssets, Move, Assets, MoneyKept, LpEffect;
      if user !in positions { return Err(AccountMissing); }
      var pos := positions[user];
      :- Need(pos.pending > 0, NoPendingWithdraw);
      :- Need(slot >= pos.unlock, CooldownNotElapsed);
      var out :- UnitsToAssets(pos.pending, Assets(lamports), v2.totalUnits);
      :- Need(out <= Assets(lamports), InsufficientLiquidity);
      positions := positions[user := Position(pos.units, 0, 0)];
      var totalPending :- CheckedSub(v2.totalPending, pos.pending);
      v2 := v2.(totalPending := totalPending);
      var totalUnits :- CheckedSub(v2.totalUnits, pos.pending);
      v2 := v2.(totalUnits := totalUnits);
      r := MoveLamports(VaultPda, Wallet(user), out);
    }

    method CloseLpPosition(user: Id) returns (r: Result<()>)
      modifies this
      ensures Follows(r, View(), Handlers.CloseLpPosition(old(View()), user))
    {
      hide Drain, MoneyKept, LpEffect;
      if user !in positions { return Err(AccountMissing); }
      var pos := positions[user];
      :- Need(pos.units == 0 && pos.pending == 0, LpPositionNotEmpty);
      var _ :- CloseAccount(PositionPda(user), Wallet(user));
      positions := positions - {user};
      return Ok(());
    }

    // -------------------------------------------------------------- the house's position

    method HouseDeposit(amount: nat) returns (r: Result<()>)
      modifies this
      ensures Follows(r, View(), Handlers.HouseDeposit(old(View()), amount))
    {
      hide DepositToUnits, Move, Assets, MoneyKept, HouseEffect;
      if amount == 0 { return Err(InvalidAmount); }
      var minted :- DepositToUnits(amount, Assets(lamports), v2.totalUnits);
      :- Need(minted > 0, MathOverflow);
      var _ :- MoveLamports(Wallet(vault.owner), VaultPda, amount);
      var totalUnits :- CheckedAdd(v2.totalUnits, minted, U128_MAX);
      v2 := v2.(totalUnits := totalUnits);
      var houseUnits :- CheckedAdd(v2.houseUnits, minted, U128_MAX);
      v2 := v2.(houseUnits := houseUnits);
      return Ok(());
    }

    method HouseRequestWithdraw(units: nat) returns (r: Result<()>)
      modifies this
      ensures Follows(r, View(), Handlers.HouseRequestWithdraw(old(View()), units))
    {
      hide EnforceHouseFloor, UserUnitsTotal, HouseEffect;
      if v2.housePending != 0 { return Err(PendingWithdrawAlreadyExists); }
      :- Need(units > 0, InvalidAmount);
      :- Need(units <= v2.houseUnits, InsufficientUnits);
      var users :- UserUnitsTotal(v2);
      :- EnforceHouseFloor(v2.houseUnits - units, users, v2.minHouseShare);
      v2 := v2.(houseUnits := v2.houseUnits - units, housePending := units, houseUnlock := SatAdd(slot, v2.cooldown));
      return Ok(());
    }

    method HouseCancelWithdraw() returns (r: Result<()>)
      modifies this
      ensures Follows(r, View(), Handlers.HouseCancelWithdraw(old(View())))
    {
      if v2.housePending == 0 { return Err(NoPendingWithdraw); }
      var houseUnits :- CheckedAdd(v2.houseUnits, v2.housePending, U128_MAX);
      v2 := v2.(houseUnits := houseUnits, housePending := 0, houseUnlock := 0);
      return Ok(());
    }

    method HouseCompleteWithdraw() returns (r: Result<()>)
      modifies this
      ensures Follows(r, View(), Handlers.HouseCompleteWithdraw(old(View())))
    {
      hide UnitsToAssets, Move, Assets, MoneyKept, HouseEffect;
      if v2.housePending == 0 { return Err(NoPendingWithdraw); }
      :- Need(slot >= v2.houseUnlock, CooldownNotElapsed);
      var out :- UnitsToAssets(v2.housePending, Assets(lamports), v2.totalUnits);
      :- Need(out <= Assets(lamports), InsufficientLiquidity);
      var totalUnits :- CheckedSub(v2.totalUnits, v2.housePending);
      v2 := v2.(totalUnits := totalUnits, housePending := 0, houseUnlock := 0);
      r := MoveLamports(VaultPda, Wallet(vault.owner), out);
    }

    method UnlockOperatorPosition(destination: Account, executable: bool) returns (r: Result<()>)
      modifies this
      ensures Follows(r, View(), Handlers.UnlockOperatorPosition(old(View()), destination, executable))
    {
      hide UnitsToAssets, Move, Assets, EnforceMinHealth, MoneyKept, HouseEffect;
      var two :- CheckedAdd(v2.seedUnits, v2.houseUnits, U128_MAX);
      var burn :- CheckedAdd(two, v2.housePending, U128_MAX);
      :- Need(burn > 0, NoOperatorUnitsToUnlock);
      :- MayReceive(vault, destination, executable);
      var assets := Assets(lamports);
      var payout :- UnitsToAssets(burn, assets, v2.totalUnits);
      var userPending :- UnitsToAssets(v2.totalPending, assets, v2.totalUnits);
      var actual := Min(payout, SatSub(SatSub(assets, v2.outstanding), userPending));
      :- Need(actual > 0, InsufficientLiquidity);
      var totalUnits :- CheckedSub(v2.totalUnits, burn);
      v2 := v2.(totalUnits := totalUnits, seedUnits := 0, houseUnits := 0, housePending := 0, houseUnlock := 0);
      var _ :- MoveLamports(VaultPda, destination, actual);
      :- EnforceMinHealth(v2, Assets(lamports));
      return Ok(());
    }

    method WithdrawToTreasury(destination: Account, executable: bool, amount: nat) returns (r: Result<()>)
      modifies this
      ensures Follows(r, View(), Handlers.WithdrawToTreasury(old(View()), destination, executable, amount))
    {
      hide Move, MoneyKept, HouseEffect;
      if amount == 0 { return Err(InvalidAmount); }
      :- MayReceive(vault, destination, executable);
      r := MoveLamports(VaultPda, destination, Min(amount, Assets(lamports)));
    }

    // -------------------------------------------------------------- referrals and configuration

    method SetReferrer(player: Id, referrer: Id) returns (r: Result<()>)
      modifies this
      ensures Follows(r, View(), Handlers.SetReferrer(old(View()), player, referrer))
    {
      hide EnsureStats, Fund, MoneyKept, AdminEffect;
      if referrer == player { return Err(SelfReferral); }
      var _ :- OpenStats(player);
      if referrer !in referrals {
        var _ :- FundAccount(player, ReferralPda(referrer), REFERRAL_SPACE);
        referrals := referrals[referrer := Referral(0, 0, 0, 0)];
      }
      :- Need(stats[player].None?, ReferrerAlreadySet);
      stats := stats[player := Some(referrer)];
      if referrals[referrer].referrer == 0 {
        referrals := referrals[referrer := referrals[referrer].(referrer := referrer, tier := 0)];
      }
      return Ok(());
    }

    method ClaimReferral(referrer: Id) returns (r: Result<()>)
      modifies this
      ensures Follows(r, View(), Handlers.ClaimReferral(old(View()), referrer))
    {
      hide Move, MoneyKept, AdminEffect;
      if referrer !in referrals { return Err(AccountMissing); }
      var ra := referrals[referrer];
      :- Need(ra.referrer == referrer, Unauthorized);
      :- Need(ra.accrued > 0, NothingToClaim);
      var payout := Min(ra.accrued, SatSub(Bal(lamports, ReferralPda(referrer)), Rent(REFERRAL_SPACE)));
      referrals := referrals[referrer := ra.(accrued := ra.accrued - payout)];
      r := MoveLamports(ReferralPda(referrer), Wallet(referrer), payout);
    }

    method UpdateVault(u: VaultUpdate) returns (r: Result<()>)
      modifies this`vault
      ensures Follows(r, View(), Handlers.UpdateVault(old(View()), u))
    {
      if !VaultUpdateOk(u) { return Err(InvalidConfig); }
      vault := vault.(edge := Or(u.edge, vault.edge));
      vault := vault.(maxBetBps := Or(u.maxBetBps, vault.maxBetBps));
      vault := vault.(maxPayoutBps := Or(u.maxPayoutBps, vault.maxPayoutBps));
      vault := vault.(splitBps := Or(u.splitBps, vault.splitBps));
      vault := vault.(paused := Or(u.paused, vault.paused));
      vault := vault.(houseAuthority := Or(u.houseAuthority, vault.houseAuthority));
      vault := vault.(treasury := Or(u.treasury, vault.treasury));
      return Ok(());
    }

    method UpdateV2Config(u: V2Update) returns (r: Result<()>)
      modifies this`v2
      ensures Follows(r, View(), Handlers.UpdateV2Config(old(View()), u))
    {
      if !V2UpdateOk(u) { return Err(InvalidConfig); }
      v2 := v2.(vrfEnabled := Or(u.vrfEnabled, v2.vrfEnabled));
      v2 := v2.(vrfValidator := Or(u.vrfValidator, v2.vrfValidator));
      v2 := v2.(vrfMaxPayoutBps := Or(u.vrfMaxPayoutBps, v2.vrfMaxPayoutBps));
      v2 := v2.(minHouseShare := Or(u.minHouseShare, v2.minHouseShare));
      v2 := v2.(maxUserPosition := Or(u.maxUserPosition, v2.maxUserPosition));
      v2 := v2.(minHealth := Or(u.minHealth, v2.minHealth));
      v2 := v2.(cooldown := Or(u.cooldown, v2.cooldown));
      v2 := v2.(minDeposit := Or(u.minDeposit, v2.minDeposit));
      return Ok(());
    }

    // -------------------------------------------------------------- transactions

    method TransactVrf(step: VrfStep) returns (r: Result<()>)
      modifies this
      ensures Follows(r, View(), ApplyVrf(old(View()), step))
    {
      hide Handlers.StartGameVrf, Handlers.DelegateVrf, Handlers.RequestRevealVrf, Handlers.RevealCallbackVrf;
      hide Handlers.CashOutVrf, Handlers.CommitVrf, Handlers.UndelegateVrf, Handlers.SettleVrf;
      hide Handlers.RefundStalledVrf, Handlers.AdminReleaseVrfClaim;
      match step {
        case Start(p, k, m, b) => r := StartGameVrf(p, k, m, b);
        case Delegate(p, v) => r := DelegateVrf(p, v);
        case Request(p, k, t) => r := RequestRevealVrf(p, k, t);
        case Callback(p, x) => r := RevealCallbackVrf(p, x);
        case TakeWin(p, k) => r := CashOutVrf(p, k);
        case Commit(p) => r := CommitVrf(p);
        case Undelegate(p, k) => r := UndelegateVrf(p, k);
        case Settle(p, a) => r := SettleVrf(p, a);
        case Refund(p, c) => r := RefundStalledVrf(p, c);
        case AdminRelease(p) => r := AdminReleaseVrfClaim(p);
      }
    }

    method TransactSession(step: SessionStep) returns (r: Result<()>)
      modifies this
      ensures Follows(r, View(), ApplySession(old(View()), step))
    {
      hide Handlers.StartGame, Handlers.RevealTile, Handlers.CashOutGame, Handlers.SettleGame, Handlers.RefundExpired;
      hide Handlers.CloseGame, Handlers.CloseUnsettledGame;
      match step {
        case Open(p, m, b, c) => r := StartGame(p, m, b, c);
        case Tile(p, t, m) => r := RevealTile(p, t, m);
        case TakeCash(p) => r := CashOutGame(p);
        case Prove(p, l, d, a) => r := SettleGame(p, l, d, a);
        case Expire(p) => r := RefundExpired(p);
        case Close(p) => r := CloseGame(p);
        case CloseUnsettled(p) => r := CloseUnsettledGame(p);
      }
    }

    method TransactLp(step: LpStep) returns (r: Result<()>)
      modifies this
      ensures Follows(r, View(), ApplyLp(old(View()), step))
    {
      hide Handlers.FundVault, Handlers.LpDeposit, Handlers.RequestWithdraw, Handlers.CancelWithdraw;
      hide Handlers.CompleteWithdraw, Handlers.CloseLpPosition;
      match step {
        case Donate(f, n) => r := FundVault(f, n);
        case Deposit(u, n) => r := LpDeposit(u, n);
        case RequestOut(u, n) => r := RequestWithdraw(u, n);
        case CancelOut(u) => r := CancelWithdraw(u);
        case CompleteOut(u) => r := CompleteWithdraw(u);
        case ClosePosition(u) => r := CloseLpPosition(u);
      }
    }

    method TransactHouse(step: HouseStep) returns (r: Result<()>)
      modifies this
      ensures Follows(r, View(), ApplyHouse(old(View()), step))
    {
      hide Handlers.HouseDeposit, Handlers.HouseRequestWithdraw, Handlers.HouseCancelWithdraw, Handlers.HouseCompleteWithdraw;
      hide Handlers.UnlockOperatorPosition, Handlers.WithdrawToTreasury;
      match step {
        case HouseIn(n) => r := HouseDeposit(n);
        case HouseRequest(n) => r := HouseRequestWithdraw(n);
        case HouseCancel => r := HouseCancelWithdraw();
        case HouseComplete => r := HouseCompleteWithdraw();
        case Unlock(d, x) => r := UnlockOperatorPosition(d, x);
        case TreasuryOut(d, x, n) => r := WithdrawToTreasury(d, x, n);
      }
    }

    method TransactAdmin(step: AdminStep) returns (r: Result<()>)
      modifies this
      ensures Follows(r, View(), ApplyAdmin(old(View()), step))
    {
      hide Handlers.SetReferrer, Handlers.ClaimReferral, Handlers.UpdateVault, Handlers.UpdateV2Config;
      match step {
        case Refer(p, q) => r := SetReferrer(p, q);
        case ClaimCut(q) => r := ClaimReferral(q);
        case Configure(u) => r := UpdateVault(u);
        case ConfigureV2(u) => r := UpdateV2Config(u);
        case Wait(n) => slot := slot + n; r := Ok(());
      }
    }

    /** One transaction: all of its writes, or none of them. The invariant survives either way. */
    method Transact(step: Step) returns (r: Result<()>)
      requires Inv(View())
      modifies this
      ensures View() == Next(old(View()), step) && Inv(View())
      ensures r.Err? ==> View() == old(View())
    {
      hide Inv, ApplyVrf, ApplySession, ApplyLp, ApplyHouse, ApplyAdmin, MoneyKept;
      var was := View();
      StepKeepsInv(was, step);
      match step {
        case Vrf(v) => r := TransactVrf(v);
        case Legacy(g) => r := TransactSession(g);
        case Lp(l) => r := TransactLp(l);
        case House(h) => r := TransactHouse(h);
        case Admin(a) => r := TransactAdmin(a);
      }
      if r.Err? {
        Restore(was);
      }
    }

    /** Any list of transactions, in order. */
    method Execute(steps: seq<Step>)
      requires Inv(View())
      modifies this
      ensures View() == Run(old(View()), steps) && Inv(View())
    {
      hide Inv, Next, MoneyKept;
      for i := 0 to |steps|
        invariant Inv(View()) && Run(View(), steps[i..]) == Run(old(View()), steps)
      {
        var _ := Transact(steps[i]);
        assert steps[i..][1..] == steps[i + 1..];
      }
    }
  }
}
