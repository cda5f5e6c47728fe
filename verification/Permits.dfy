/**
 The whole instruction set at a glance: in every state of the invariant a transaction succeeds if and only
 if the table below permits it. Signers, windows, statuses and amounts are read off the state alone.
 */
module Permits {
  import opened Prelude
  import opened Odds
  import opened Reveal
  import opened Ledger
  import opened Handlers
  import opened Runs
  import opened Solvency
  import opened Settlement
  import opened Payments
  import opened Admission
  import Withdrawals

  // ---------------------------------------------------------------- the table

  predicate InPlay(g: VrfGame) {
    g.status == VRF_PLAYING && !g.pending
  }

  predicate PermitsVrf(s: State, step: VrfStep) {
    var p := step.player;
    match step
    case Start(_, _, mines, bet) => MayStart(s, p, mines, bet) && HealthyWith(s, mines, bet)
    case Delegate(_, validator) =>
      && p in s.games && s.games[p].OnL1? && InPlay(s.games[p].game)
      && s.v2.vrfValidator != 0 && (validator.None? || validator.value == s.v2.vrfValidator)
    case Request(_, signer, tile) =>
      p in s.games && var g := s.games[p].game;
      InPlay(g) && signer == g.session && tile < GRID_SIZE && tile !in g.revealed
    case Callback(_, _) => p in s.games && s.games[p].game.pending
    case TakeWin(_, signer) =>
      p in s.games && var g := s.games[p].game; InPlay(g) && 0 < g.safe && signer in {p, g.session}
    case Commit(_) => p in s.games && s.games[p].Delegated?
    case Undelegate(_, signer) => p in s.games && s.games[p].Delegated? && signer in {p, s.games[p].game.session}
    case Settle(_, passed) => MaySettle(s, p, passed)
    case Refund(_, caller) =>
      && p in s.claims && p in s.games && s.games[p].OnL1? && s.games[p].game.status == VRF_PLAYING
      && SatAdd(s.claims[p].startSlot, STALL_SLOTS) < s.slot && s.claims[p].bet <= Assets(s.lamports)
      && (caller == p || (caller == s.vault.houseAuthority && s.games[p].game.safe == 0 && !s.games[p].game.pending))
    case AdminRelease(_) => p in s.claims && SatAdd(s.claims[p].startSlot, ABANDON_SLOTS) < s.slot
  }

  /** A finished round on L1, a vault that covers its price, the referrer's account, and pending units that price. */
  predicate MaySettle(s: State, p: Id, passed: Option<Account>) {
    && Landed(s, p) && p in s.stats
    && s.games[p].game.safe + s.claims[p].mines <= GRID_SIZE && s.claims[p].edge <= BPS
    && Due(s.claims[p], s.games[p].game) <= Assets(s.lamports)
    && RecordFits(s.referrals, s.stats[p], passed) && PendingPriced(s.vault, s.v2, AfterPayment(s, p, passed))
  }

  predicate PermitsSession(s: State, step: SessionStep) {
    var p := step.player;
    match step
    case Open(_, mines, bet, commitment) => MayOpen(s, p, mines, bet, commitment) && HealthyWith(s, mines, bet)
    case Tile(_, tile, isMine) =>
      p in s.sessions && var g := s.sessions[p];
      && g.status == Playing && s.slot <= SatAdd(g.startSlot, GAME_EXPIRY_SLOTS) && tile < GRID_SIZE && tile !in g.revealed
      && (isMine || g.mines + g.safe + 1 <= GRID_SIZE)
    case TakeCash(_) =>
      p in s.sessions && var g := s.sessions[p];
      g.status == Playing && 0 < g.safe && g.bet * g.mult / BPS <= Assets(s.lamports)
    case Prove(_, layout, digest, passed) => p in s.sessions && MayProve(s, s.sessions[p], p, layout, digest, passed)
    case Expire(_) =>
      p in s.sessions && s.sessions[p].status == Playing && SatAdd(s.sessions[p].startSlot, GAME_EXPIRY_SLOTS) < s.slot
    case Close(_) => p in s.sessions && (s.sessions[p].status == Expired || (Finished(s.sessions[p]) && s.sessions[p].settled))
    case CloseUnsettled(_) =>
      p in s.sessions && var g := s.sessions[p];
      Finished(g) && !g.settled && SatAdd(g.startSlot, CLOSE_UNSETTLED_EXPIRY_SLOTS) < s.slot
  }

  predicate Finished(g: Session) {
    g.status == Won || g.status == Lost
  }

  /** The layout is the committed one, hides a mine under every revealed mine and none under a safe tile. */
  predicate Matches(g: Session, layout: set<nat>, digest: Digest) {
    && digest == g.commitment && |layout| == g.mines
    && (forall t | t in g.revealed :: t in g.safeTiles <==> t !in layout)
    && (forall t | t in g.safeTiles :: t !in layout)
    && (g.status == Lost ==> exists t :: t in g.revealed && t in layout)
  }

  predicate MayProve(s: State, g: Session, p: Id, layout: set<nat>, digest: Digest, passed: Option<Account>) {
    && p in s.stats && Finished(g) && !g.settled && Matches(g, layout, digest)
    && (g.status == Won ==> g.bet * g.mult / BPS <= U64_MAX)
    && RecordFits(s.referrals, s.stats[p], passed) && PendingPriced(s.vault, s.v2, ProofRest(s, g, p, passed))
    && Priced(Release(s.v2, g.maxPayout), ProofLeft(s, g, p, passed))
  }

  /** Assets once the referrer of a commit-reveal game is paid, and once the treasury is too. */
  function ProofRest(s: State, g: Session, p: Id, passed: Option<Account>): nat {
    SatSub(Assets(s.lamports), ReferrerCut(s, p, passed, g.bet, Assets(s.lamports)))
  }

  function ProofLeft(s: State, g: Session, p: Id, passed: Option<Account>): nat {
    var rest := ProofRest(s, g, p, passed);
    if s.vault.treasury == VaultPda then rest
    else SatSub(rest, TreasuryCut(s, g.bet, rest, SatSub(s.v2.outstanding, g.maxPayout)))
  }

  predicate PermitsLp(s: State, step: LpStep) {
    match step
    case Donate(f, n) => 0 < n <= Bal(s.lamports, Wallet(f))
    case Deposit(u, n) => MayDeposit(s, u, n) && Healthy(WithUnits(s.v2, Bought(s, n)), Assets(s.lamports) + n)
    case RequestOut(u, n) => u in s.positions && s.positions[u].pending == 0 && 0 < n <= s.positions[u].units
    case CancelOut(u) => u in s.positions && 0 < s.positions[u].pending
    case CompleteOut(u) =>
      && u in s.positions && 0 < s.positions[u].pending && s.positions[u].unlock <= s.slot
      && s.positions[u].pending * Assets(s.lamports) <= U128_MAX
    case ClosePosition(u) => u in s.positions && s.positions[u].units == 0 && s.positions[u].pending == 0
  }

  predicate PermitsHouse(s: State, step: HouseStep) {
    var v2, users := s.v2, SatSub(s.v2.totalUnits, OperatorUnits(s.v2));
    match step
    case HouseIn(n) =>
      && 0 < n <= Bal(s.lamports, Wallet(s.vault.owner)) && (v2.totalUnits == 0 || n * v2.totalUnits <= U128_MAX)
      && 0 < Bought(s, n) && v2.totalUnits + Bought(s, n) <= U128_MAX
    case HouseRequest(n) =>
      && v2.housePending == 0 && 0 < n <= v2.houseUnits && FloorMet(v2.houseUnits - n, users, v2.minHouseShare)
      && (v2.minHouseShare == 0 || (v2.houseUnits - n) * BPS <= U128_MAX || users + (v2.houseUnits - n) == 0)
    case HouseCancel => 0 < v2.housePending
    case HouseComplete => 0 < v2.housePending && v2.houseUnlock <= s.slot && v2.housePending * Assets(s.lamports) <= U128_MAX
    case Unlock(to, executable) =>
      MayExit(s, to, executable) && Healthy(WithoutOperator(v2), SatSub(Assets(s.lamports), ExitPay(s)))
    case TreasuryOut(to, executable, n) => 0 < n && MayBePaid(s, to, executable)
  }

  predicate PermitsAdmin(s: State, step: AdminStep) {
    match step
    case Refer(p, k) =>
      && k != p && (p in s.stats ==> s.stats[p].None?)
      && StatsDue(s, p) + (if k in s.referrals then 0 else RentDue(s, ReferralPda(k), REFERRAL_SPACE))
         <= Bal(s.lamports, Wallet(p))
    case ClaimCut(k) => k in s.referrals && s.referrals[k].referrer == k && 0 < s.referrals[k].accrued
    case Configure(u) =>
      && Or(u.edge, 0) <= 1_000 && 0 < Or(u.maxBetBps, 1) <= 1_000 && 0 < Or(u.maxPayoutBps, 1) <= 5_000
      && Or(u.splitBps, 0) <= BPS && Or(u.houseAuthority, 1) != 0 && Or(u.treasury, VaultPda) != Wallet(0)
    case ConfigureV2(u) =>
      && Or(u.minHouseShare, 0) <= BPS && Or(u.maxUserPosition, 0) <= BPS && 100 <= Or(u.minHealth, 100) <= BPS
      && 150 <= Or(u.cooldown, 150) && Or(u.vrfMaxPayoutBps, 0) <= BPS
    case Wait(_) => true
  }

  predicate Permits(s: State, step: Step) {
    match step
    case Vrf(v) => PermitsVrf(s, v)
    case Legacy(g) => PermitsSession(s, g)
    case Lp(l) => PermitsLp(s, l)
    case House(h) => PermitsHouse(s, h)
    case Admin(a) => PermitsAdmin(s, a)
  }

  // ---------------------------------------------------------------- VRF rounds

  lemma GameOf(s: State, p: Id)
    requires Inv(s) && p in s.games
    ensures Honest(s.games[p].game) && s.games[p].game.player == p
  {}

  lemma ClaimOf(s: State, p: Id)
    requires Inv(s) && p in s.claims
    ensures p in s.games && p in s.stats && !s.claims[p].settled
  {
    hide Honest;
    assert RoundSound(s, p);
  }

  lemma RequestPermitted(s: State, step: VrfStep)
    requires step.Request?
    ensures ApplyVrf(s, step).Ok? <==> PermitsVrf(s, step)
  {
    hide RoundEffect;
  }

  lemma TakeWinPermitted(s: State, step: VrfStep)
    requires step.TakeWin? && (step.player in s.games ==> s.games[step.player].game.player == step.player)
    ensures ApplyVrf(s, step).Ok? <==> PermitsVrf(s, step)
  {
    hide RoundEffect;
  }

  lemma CallbackPermitted(s: State, step: VrfStep)
    requires Inv(s) && step.Callback?
    ensures ApplyVrf(s, step).Ok? <==> PermitsVrf(s, step)
  {
    if step.player in s.games {
      GameOf(s, step.player);
      CallbackHonest(s.games[step.player].game, step.randomness);
    }
    hide Inv, Honest, RevealCallback, RoundEffect;
  }

  lemma PlacePermitted(s: State, step: VrfStep)
    requires step.Delegate? || step.Commit? || step.Undelegate?
    requires step.player in s.games ==> s.games[step.player].game.player == step.player
    ensures ApplyVrf(s, step).Ok? <==> PermitsVrf(s, step)
  {
    hide RoundEffect;
  }

  lemma PlayerOf(s: State, p: Id)
    requires Inv(s)
    ensures p in s.games ==> s.games[p].game.player == p
  {}

  /** The player may ask for the bet back, or the house authority where nothing was revealed. */
  lemma StalledIs(s: State, p: Id, caller: Id)
    requires p in s.claims && (p in s.games ==> s.games[p].game.player == p)
    ensures CheckStalled(s, p, caller) == Pass <==>
            && !s.claims[p].settled && p in s.games && s.games[p].OnL1? && s.games[p].game.status == VRF_PLAYING
            && SatAdd(s.claims[p].startSlot, STALL_SLOTS) < s.slot
            && (caller == p || (caller == s.vault.houseAuthority && s.games[p].game.safe == 0 && !s.games[p].game.pending))
  {}

  lemma RefundIs(s: State, p: Id, caller: Id)
    requires MoneySound(s) && p in s.claims
    ensures RefundStalledVrf(s, p, caller).Ok? <==>
            CheckStalled(s, p, caller) == Pass && s.claims[p].bet <= Assets(s.lamports)
  {
    if s.claims[p].bet <= Assets(s.lamports) {
      PaymentMoves(s.lamports, p, s.claims[p].bet);
      var l := Move(s.lamports, VaultPda, Wallet(p), s.claims[p].bet).value;
      ClosingGoesThrough(s.(v2 := Release(s.v2, s.claims[p].reserved)), l, p);
    }
    hide CheckStalled, RoundEffect, Move, CloseRound, Assets;
  }

  lemma RefundPermitted(s: State, p: Id, caller: Id)
    requires Inv(s)
    ensures RefundStalledVrf(s, p, caller).Ok? <==> PermitsVrf(s, VrfStep.Refund(p, caller))
  {
    RefundTerms(s, p, caller);
    ConfigOf(s);
    if p in s.claims {
      hide *;
      ClaimOf(s, p);
      PlayerOf(s, p);
      StalledIs(s, p, caller);
      RefundIs(s, p, caller);
    } else {
      hide Inv, RoundEffect;
    }
  }

  lemma RefundTerms(s: State, p: Id, caller: Id)
    ensures PermitsVrf(s, VrfStep.Refund(p, caller)) <==>
            p in s.claims && p in s.games && s.games[p].OnL1? && s.games[p].game.status == VRF_PLAYING
            && SatAdd(s.claims[p].startSlot, STALL_SLOTS) < s.slot
            && (caller == p || (caller == s.vault.houseAuthority && s.games[p].game.safe == 0 && !s.games[p].game.pending))
            && s.claims[p].bet <= Assets(s.lamports)
  {
    hide Assets;
  }

  lemma ReleaseIs(s: State, p: Id)
    requires MoneySound(s) && p in s.claims
    ensures AdminReleaseVrfClaim(s, p).Ok? <==>
            !s.claims[p].settled && SatAdd(s.claims[p].startSlot, ABANDON_SLOTS) < s.slot
  {
    var payable := Min(s.claims[p].bet, AdminSpendable(s.lamports, s.v2));
    PaymentMoves(s.lamports, p, payable);
    DrainGoesThrough(Move(s.lamports, VaultPda, Wallet(p), payable).value, ClaimPda(p), Wallet(p));
    hide RoundEffect, Move, Drain, Assets;
  }

  lemma ReleasePermitted(s: State, p: Id)
    requires Inv(s)
    ensures AdminReleaseVrfClaim(s, p).Ok? <==> PermitsVrf(s, AdminRelease(p))
  {
    ReleaseTerms(s, p);
    ConfigOf(s);
    if p in s.claims {
      hide *;
      ClaimOf(s, p);
      ReleaseIs(s, p);
    } else {
      hide Inv, RoundEffect;
    }
  }

  lemma ReleaseTerms(s: State, p: Id)
    ensures PermitsVrf(s, AdminRelease(p)) <==> p in s.claims && SatAdd(s.claims[p].startSlot, ABANDON_SLOTS) < s.slot
  {}

  /** A landed round is awarded its price, whatever the vault holds. */
  lemma AwardIsDue(s: State, p: Id)
    requires Inv(s) && Landed(s, p)
    ensures var c, g := s.claims[p], s.games[p].game;
            && g.safe + c.mines <= GRID_SIZE && c.edge <= BPS
            && Verify(c, g) == Ok(Settlement.Outcome(g)) && Award(c, Settlement.Outcome(g)) == Ok(Due(c, g))
  {
    hide Verify, Award, Payout;
    ClaimOf(s, p);
    assert RoundSound(s, p);
    LandedVerifiesHere(s, p);
    SettlementSound(s.claims[p], s.games[p].game);
  }

  lemma UnfinishedCannotSettle(s: State, p: Id, passed: Option<Account>)
    requires !Landed(s, p)
    ensures SettleVrf(s, p, passed).Err?
  {
    hide Replay, CalcMultiplier, Award, PayRound, CloseRound, RoundEffect;
  }

  lemma UncoveredCannotSettle(s: State, p: Id, passed: Option<Account>)
    requires Inv(s) && Landed(s, p) && p in s.stats
    requires s.games[p].game.safe + s.claims[p].mines <= GRID_SIZE && s.claims[p].edge <= BPS
    requires Assets(s.lamports) < Due(s.claims[p], s.games[p].game)
    ensures SettleVrf(s, p, passed).Err?
  {
    AwardIsDue(s, p);
    var c := s.claims[p];
    NoFunds(s.(v2 := Release(s.v2, c.reserved)), p, Due(c, s.games[p].game), c.bet, passed);
    hide Inv, Verify, Award, Due, PayRound, CloseRound, RoundEffect, Assets;
  }

  lemma NoFunds(s: State, p: Id, payout: nat, bet: nat, passed: Option<Account>)
    requires p in s.stats && Assets(s.lamports) < payout
    ensures PayRound(s, p, payout, bet, passed).Err?
  {}

  lemma SettlePermitted(s: State, p: Id, passed: Option<Account>)
    requires Inv(s)
    ensures SettleVrf(s, p, passed).Ok? <==> MaySettle(s, p, passed)
  {
    if !Landed(s, p) {
      UnfinishedCannotSettle(s, p, passed);
    } else {
      AwardIsDue(s, p);
      ClaimOf(s, p);
      ConfigOf(s);
      hide Inv, SettleVrf, Verify, Award, Due, PayRound, RecordFits, AfterPayment, RoundEffect, Assets, PendingPriced;
      if Assets(s.lamports) < Due(s.claims[p], s.games[p].game) {
        UncoveredCannotSettle(s, p, passed);
      } else {
        PartiesPaid(s, p, passed);
        PaidClose(s, p, passed);
      }
    }
  }

  lemma VrfSucceeds(s: State, step: VrfStep)
    requires Inv(s)
    ensures ApplyVrf(s, step).Ok? <==> PermitsVrf(s, step)
  {
    match step {
      case Start(p, k, m, b) => StartPermitted(s, step);
      case Settle(p, passed) => SettlePermitted(s, p, passed);
      case Refund(p, caller) => RefundPermitted(s, p, caller);
      case AdminRelease(p) => ReleasePermitted(s, p);
      case Callback(_, _) => CallbackPermitted(s, step);
      case Request(_, _, _) => RequestPermitted(s, step);
      case TakeWin(p, _) => PlayerOf(s, p); TakeWinPermitted(s, step);
      case _ => PlayerOf(s, step.player); PlacePermitted(s, step);
    }
    hide Inv, StartGameVrf, SettleVrf, RefundStalledVrf, AdminReleaseVrfClaim, RoundEffect, MayStart, HealthyWith, MaySettle;
    hide DelegateVrf, RequestRevealVrf, RevealCallbackVrf, CashOutVrf, CommitVrf, UndelegateVrf;
  }

  lemma StartPermitted(s: State, step: VrfStep)
    requires Inv(s) && step.Start?
    ensures ApplyVrf(s, step).Ok? <==> PermitsVrf(s, step)
  {
    StartExactly(s, step.player, step.session, step.mines, step.bet);
    hide Inv, StartGameVrf, Healthy, Acceptable, RoundEffect, RoundRent, Bal, Assets;
  }

  // ---------------------------------------------------------------- commit-reveal sessions

  lemma MatchesIs(g: Session, layout: set<nat>, digest: Digest)
    ensures CheckLayout(g, layout, digest) == Pass <==> Matches(g, layout, digest)
  {
    var revealedMines := g.revealed - g.safeTiles;
    if Matches(g, layout, digest) && g.status == Lost {
      var t :| t in g.revealed && t in layout;
      assert t in revealedMines;
    }
    if CheckLayout(g, layout, digest) == Pass && g.status == Lost {
      var t :| t in revealedMines;
      assert t in layout;
    }
  }

  lemma PayoutPermitted(s: State, step: SessionStep)
    requires MoneySound(s) && (step.TakeCash? || step.Expire?)
    ensures ApplySession(s, step).Ok? <==> PermitsSession(s, step)
  {
    var p := step.player;
    AssetsFit(s.lamports);
    if p in s.sessions {
      var g := s.sessions[p];
      if g.bet * g.mult / BPS <= Assets(s.lamports) {
        PaymentMoves(s.lamports, p, g.bet * g.mult / BPS);
      }
      PaymentMoves(s.lamports, p, Min(g.bet, Assets(s.lamports)));
    }
    hide StartGame, SettleGame, RevealTile, SessionEffect, Move, Drain, Assets, MoneyKept;
  }

  lemma PlainSessionPermitted(s: State, step: SessionStep)
    requires MoneySound(s) && s.vault.edge <= BPS && (step.Tile? || step.Close? || step.CloseUnsettled?)
    ensures ApplySession(s, step).Ok? <==> PermitsSession(s, step)
  {
    DrainGoesThrough(s.lamports, SessionPda(step.player), Wallet(step.player));
    hide StartGame, SettleGame, CashOutGame, RefundExpired, SessionEffect, Drain, Multiplier, MoneySound;
  }

  lemma ProofPaysFirst(s: State, p: Id, passed: Option<Account>, bet: nat)
    requires MoneySound(s) && p in s.stats && bet <= U64_MAX
    ensures var r := PayReferrer(s.lamports, s.referrals, s.stats[p], passed, bet);
            && (r.Ok? <==> RecordFits(s.referrals, s.stats[p], passed))
            && (r.Ok? ==>
                  && Total(r.value.lamports) <= U64_MAX
                  && Assets(r.value.lamports) == SatSub(Assets(s.lamports), ReferrerCut(s, p, passed, bet, Assets(s.lamports))))
  {
    hide PayReferrer, RecordFits, Assets, Rakeback, ReferrerCut, Rent;
    ReferrerPays(s.lamports, s.referrals, s.stats[p], passed, bet);
    if RecordFits(s.referrals, s.stats[p], passed) {
      ReferrerLeavesAssets(s, s.lamports, p, passed, bet);
    }
  }

  lemma ProofPaysTreasury(s: State, l: Lamports, p: Id, passed: Option<Account>, g: Session)
    requires ConfigSound(s) && s.v2.totalPending <= s.v2.totalUnits && Total(l) <= U64_MAX && g.bet <= U64_MAX
    requires Assets(l) == ProofRest(s, g, p, passed)
    ensures var r := PayTreasury(l, s.vault, Release(s.v2, g.maxPayout), g.bet);
            && (r.Ok? <==> PendingPriced(s.vault, s.v2, ProofRest(s, g, p, passed)))
            && (r.Ok? ==> Assets(r.value) == ProofLeft(s, g, p, passed) && Assets(r.value) <= U64_MAX)
  {
    hide PayTreasury, Assets, TreasuryCut, ProofRest, Rent, Bal;
    TreasuryPays(l, s.vault, Release(s.v2, g.maxPayout), g.bet);
    if PendingPriced(s.vault, s.v2, ProofRest(s, g, p, passed)) {
      var t := PayTreasury(l, s.vault, Release(s.v2, g.maxPayout), g.bet).value;
      TreasuryBalance(s, l, SatSub(s.v2.outstanding, g.maxPayout), g.bet, VaultPda);
      AssetsAre(l, t, s.vault.treasury, TreasuryCut(s, g.bet, Assets(l), SatSub(s.v2.outstanding, g.maxPayout)));
      AssetsFit(l);
    }
  }

  lemma AssetsAre(l: Lamports, t: Lamports, to: Account, n: nat)
    requires Bal(t, VaultPda) == Bal(l, VaultPda) + Moved(VaultPda, VaultPda, to, n)
    ensures Assets(t) == if to == VaultPda then Assets(l) else SatSub(Assets(l), n)
  {}

  /** A proof goes through when each of its steps does. */
  lemma ProveIs(s: State, p: Id, layout: set<nat>, digest: Digest, passed: Option<Account>)
    requires p in s.sessions && p in s.stats
    ensures var g, v2 := s.sessions[p], Release(s.v2, s.sessions[p].maxPayout);
            var paid := PayReferrer(s.lamports, s.referrals, s.stats[p], passed, g.bet);
            SettleGame(s, p, layout, digest, passed).Ok? <==>
            && Finished(g) && !g.settled && CheckLayout(g, layout, digest) == Pass
            && (g.status == Won ==> MulDivFloor(g.bet, g.mult, BPS).Ok?)
            && paid.Ok? && PayTreasury(paid.value.lamports, s.vault, v2, g.bet).Ok?
            && CalcHealth(v2, Assets(PayTreasury(paid.value.lamports, s.vault, v2, g.bet).value)).Ok?
  {
    hide CheckLayout, PayReferrer, PayTreasury, CalcHealth, MulDivFloor, SessionEffect, Assets, MoneyKept;
  }

  lemma ProveTerms(s: State, step: SessionStep)
    requires step.Prove?
    ensures PermitsSession(s, step) <==>
            && step.player in s.sessions
            && MayProve(s, s.sessions[step.player], step.player, step.layout, step.digest, step.referral)
  {
    hide MayProve;
  }

  lemma ProveNeedsStats(s: State, p: Id, layout: set<nat>, digest: Digest, passed: Option<Account>)
    requires p !in s.sessions || p !in s.stats
    ensures SettleGame(s, p, layout, digest, passed).Err?
  {}

  lemma ProvePermitted(s: State, step: SessionStep)
    requires Inv(s) && step.Prove? && (step.player in s.sessions ==> s.sessions[step.player].bet <= U64_MAX)
    ensures ApplySession(s, step).Ok? <==> PermitsSession(s, step)
  {
    var p := step.player;
    ProveTerms(s, step);
    ConfigOf(s);
    hide PermitsSession, SettleGame, Inv, SessionEffect, StartGame;
    if p in s.sessions && p in s.stats {
      hide CheckLayout, Matches, PayReferrer, PayTreasury, CalcHealth, Priced, PendingPriced, RecordFits, ProofRest;
      hide ProofLeft, Assets, MoneyKept, MoneySound, ConfigSound, MulDivFloor, Finished;
      var g := s.sessions[p];
      ProveIs(s, p, step.layout, step.digest, step.referral);
      MatchesIs(g, step.layout, step.digest);
      PendingUnits(s);
      PrizeFits(g);
      ProofPaysFirst(s, p, step.referral, g.bet);
      if RecordFits(s.referrals, s.stats[p], step.referral) {
        ProofIsFinished(s, p, g, step.referral);
      }
    } else {
      ProveNeedsStats(s, p, step.layout, step.digest, step.referral);
    }
  }

  /** Once the referrer is paid, what remains is pricing: for the treasury's cut, and for the health report. */
  lemma ProofIsFinished(s: State, p: Id, g: Session, passed: Option<Account>)
    requires MoneySound(s) && ConfigSound(s) && s.v2.totalPending <= s.v2.totalUnits && g.bet <= U64_MAX && p in s.stats
    requires PayReferrer(s.lamports, s.referrals, s.stats[p], passed, g.bet).Ok?
    ensures var paid := PayReferrer(s.lamports, s.referrals, s.stats[p], passed, g.bet).value.lamports;
            var r := PayTreasury(paid, s.vault, Release(s.v2, g.maxPayout), g.bet);
            r.Ok? && CalcHealth(Release(s.v2, g.maxPayout), Assets(r.value)).Ok? <==>
            && PendingPriced(s.vault, s.v2, ProofRest(s, g, p, passed))
            && Priced(Release(s.v2, g.maxPayout), ProofLeft(s, g, p, passed))
  {
    ProofPaysFirst(s, p, passed, g.bet);
    assert ProofRest(s, g, p, passed) == SatSub(Assets(s.lamports), ReferrerCut(s, p, passed, g.bet, Assets(s.lamports)));
    hide PayReferrer, PayTreasury, CalcHealth, Priced, PendingPriced, RecordFits, ProofRest, ProofLeft, Assets, MoneyKept;
    hide ReferrerCut, MoneySound, ConfigSound;
    ProofPaysTreasury(s, PayReferrer(s.lamports, s.referrals, s.stats[p], passed, g.bet).value.lamports, p, passed, g);
    if PendingPriced(s.vault, s.v2, ProofRest(s, g, p, passed)) {
      HealthIs(Release(s.v2, g.maxPayout), ProofLeft(s, g, p, passed));
    }
  }

  lemma PrizeFits(g: Session)
    ensures MulDivFloor(g.bet, g.mult, BPS).Ok? <==> g.bet * g.mult / BPS <= U64_MAX
  {}

  lemma PendingUnits(s: State)
    requires Inv(s)
    ensures s.v2.totalPending <= s.v2.totalUnits
  {
    UnitsOfOne(s, 0);
  }

  lemma OpenPermitted(s: State, step: SessionStep)
    requires Inv(s) && step.Open?
    ensures ApplySession(s, step).Ok? <==> PermitsSession(s, step)
  {
    OpenExactly(s, step.player, step.mines, step.bet, step.commitment);
    hide Inv, StartGame, Healthy, Acceptable, SessionEffect, RentDue, StatsDue, Bal, Assets;
  }

  lemma SessionSucceeds(s: State, step: SessionStep)
    requires Inv(s) && (step.Prove? && step.player in s.sessions ==> s.sessions[step.player].bet <= U64_MAX)
    ensures ApplySession(s, step).Ok? <==> PermitsSession(s, step)
  {
    ConfigOf(s);
    assert s.vault.edge <= BPS;
    hide *;
    match step {
      case Open(_, _, _, _) => OpenPermitted(s, step);
      case Prove(_, _, _, _) => ProvePermitted(s, step);
      case TakeCash(_) => PayoutPermitted(s, step);
      case Expire(_) => PayoutPermitted(s, step);
      case _ => PlainSessionPermitted(s, step);
    }
  }

  // ---------------------------------------------------------------- the pool

  lemma DonatePermitted(s: State, step: LpStep)
    requires MoneySound(s) && (step.Donate? || step.ClosePosition?)
    ensures ApplyLp(s, step).Ok? <==> PermitsLp(s, step)
  {
    if step.ClosePosition? {
      DrainGoesThrough(s.lamports, PositionPda(step.user), Wallet(step.user));
    }
    hide LpDeposit, LpEffect, Drain, MoneyKept, Bal;
  }

  lemma CancelPermitted(s: State, u: Id)
    requires Inv(s)
    ensures CancelWithdraw(s, u).Ok? <==> u in s.positions && 0 < s.positions[u].pending
  {
    PositionWithinTotals(s, u);
    hide LpEffect, ReservationsExact, SessionsSound, MoneySound, ConfigSound, RoundsSound;
  }

  lemma LpSucceeds(s: State, step: LpStep)
    requires Inv(s)
    ensures ApplyLp(s, step).Ok? <==> PermitsLp(s, step)
  {
    ConfigOf(s);
    match step {
      case Deposit(u, n) => DepositExactly(s, u, n);
      case RequestOut(u, n) =>
        if u in s.positions {
          Withdrawals.RequestSucceeds(s, u, n);
        }
      case CancelOut(u) => CancelPermitted(s, u);
      case CompleteOut(u) =>
        if u in s.positions {
          Withdrawals.UserIsPaid(s, u);
        }
      case _ => DonatePermitted(s, step);
    }
    hide Inv, FundVault, LpDeposit, CancelWithdraw, CloseLpPosition, LpEffect, MayDeposit, Healthy, Assets, Bal, Move;
    hide UnitsToAssets, MoneySound, ConfigSound;
  }

  lemma HouseInPermitted(s: State, n: nat)
    requires Inv(s)
    ensures HouseDeposit(s, n).Ok? <==> PermitsHouse(s, HouseIn(n))
  {
    UnitsOfOne(s, 0);
    MintIs(s, n);
    MoveNeeds(s.lamports, Wallet(s.vault.owner), VaultPda, n);
    if n <= Bal(s.lamports, Wallet(s.vault.owner)) {
      BetArrives(s.lamports, s.vault.owner, n);
    }
    hide Inv, DepositToUnits, Move, Bal, Assets, HouseEffect, Bought, MoneyKept;
  }

  lemma HouseRequestPermitted(s: State, n: nat)
    requires Inv(s)
    ensures HouseRequestWithdraw(s, n).Ok? <==> PermitsHouse(s, HouseRequest(n))
  {
    UnitsOfOne(s, 0);
    if n <= s.v2.houseUnits {
      HouseFloorIs(s.v2.houseUnits - n, SatSub(s.v2.totalUnits, OperatorUnits(s.v2)), s.v2.minHouseShare);
    }
    hide Inv, EnforceHouseFloor, HouseEffect, FloorMet;
  }

  lemma TreasuryOutPermitted(s: State, to: Account, executable: bool, n: nat)
    requires MoneySound(s)
    ensures WithdrawToTreasury(s, to, executable, n).Ok? <==> PermitsHouse(s, TreasuryOut(to, executable, n))
  {
    MayReceiveIs(s, to, executable);
    PaymentLeaves(s.lamports, to, Min(n, Assets(s.lamports)));
    hide MayReceive, MayBePaid, Move, Assets, HouseEffect, MoneyKept;
  }

  lemma HouseSucceeds(s: State, step: HouseStep)
    requires Inv(s)
    ensures ApplyHouse(s, step).Ok? <==> PermitsHouse(s, step)
  {
    ConfigOf(s);
    match step {
      case HouseIn(n) => HouseInPermitted(s, n);
      case HouseRequest(n) => HouseRequestPermitted(s, n);
      case HouseCancel => UnitsOfOne(s, 0);
      case HouseComplete => Withdrawals.HouseIsPaid(s);
      case Unlock(to, x) => UnlockExactly(s, to, x);
      case TreasuryOut(to, x, n) => TreasuryOutPermitted(s, to, x, n);
    }
    hide Inv, HouseDeposit, HouseRequestWithdraw, HouseCompleteWithdraw, UnlockOperatorPosition, WithdrawToTreasury;
    hide HouseEffect, MayExit, Healthy, Assets, Bal, MoneySound, ConfigSound, FloorMet, MayBePaid, Bought;
  }

  // ---------------------------------------------------------------- referrals and configuration

  lemma ReferPermitted(s: State, p: Id, k: Id)
    requires MoneySound(s)
    ensures SetReferrer(s, p, k).Ok? <==> PermitsAdmin(s, Refer(p, k))
  {
    hide EnsureStats, Fund, AdminEffect, Bal, Rent, RentDue, StatsDue;
    StatsFunded(s, p);
    if EnsureStats(s, p).Ok? {
      var l := EnsureStats(s, p).value.lamports;
      StatsLeaveReferral(s, p, k);
      FundIs(l, p, ReferralPda(k), REFERRAL_SPACE);
      StatsAre(s, p);
    }
  }

  lemma StatsLeaveReferral(s: State, p: Id, k: Id)
    requires MoneySound(s) && EnsureStats(s, p).Ok?
    ensures var l := EnsureStats(s, p).value.lamports;
            SatSub(Rent(REFERRAL_SPACE), Bal(l, ReferralPda(k))) == RentDue(s, ReferralPda(k), REFERRAL_SPACE)
            && Total(l) <= U64_MAX
  {
    hide EnsureStats, Bal, Rent;
    StatsBalance(s, p, ReferralPda(k));
  }

  lemma StatsAre(s: State, p: Id)
    requires EnsureStats(s, p).Ok?
    ensures EnsureStats(s, p).value.stats[p] == if p in s.stats then s.stats[p] else None
  {
    hide Fund, MoneyKept;
  }

  lemma ClaimPermitted(s: State, k: Id)
    requires MoneySound(s)
    ensures ClaimReferral(s, k).Ok? <==> PermitsAdmin(s, ClaimCut(k))
  {
    hide AdminEffect, MoneyKept, Bal;
  }

  lemma AdminSucceeds(s: State, step: AdminStep)
    requires MoneySound(s)
    ensures ApplyAdmin(s, step).Ok? <==> PermitsAdmin(s, step)
  {
    match step {
      case Refer(p, k) => ReferPermitted(s, p, k);
      case ClaimCut(k) => ClaimPermitted(s, k);
      case _ =>
    }
    hide SetReferrer, ClaimReferral, AdminEffect, StatsDue, RentDue, Bal;
  }

  /** What an optional setting leaves in its field. */
  predicate Takes<T(==)>(setting: Option<T>, before: T, after: T) {
    match setting
    case None => after == before
    case Some(value) => after == value
  }

  /** A configuration call sets the fields it names and leaves everything else as it was. */
  lemma SettingsTake(s: State, step: AdminStep)
    requires (step.Configure? || step.ConfigureV2?) && ApplyAdmin(s, step).Ok?
    ensures var t := ApplyAdmin(s, step).value;
            && (step.Configure? ==>
                  var u, v, w := step.vault, s.vault, t.vault;
                  && Takes(u.edge, v.edge, w.edge) && Takes(u.maxBetBps, v.maxBetBps, w.maxBetBps)
                  && Takes(u.maxPayoutBps, v.maxPayoutBps, w.maxPayoutBps) && Takes(u.splitBps, v.splitBps, w.splitBps)
                  && Takes(u.paused, v.paused, w.paused) && Takes(u.houseAuthority, v.houseAuthority, w.houseAuthority)
                  && Takes(u.treasury, v.treasury, w.treasury)
                  && w.owner == v.owner && w.allowlist == v.allowlist && t == s.(vault := w))
            && (step.ConfigureV2? ==>
                  var u, v, w := step.v2, s.v2, t.v2;
                  && Takes(u.minHouseShare, v.minHouseShare, w.minHouseShare) && Takes(u.minHealth, v.minHealth, w.minHealth)
                  && Takes(u.maxUserPosition, v.maxUserPosition, w.maxUserPosition) && Takes(u.cooldown, v.cooldown, w.cooldown)
                  && Takes(u.minDeposit, v.minDeposit, w.minDeposit) && Takes(u.vrfEnabled, v.vrfEnabled, w.vrfEnabled)
                  && Takes(u.vrfValidator, v.vrfValidator, w.vrfValidator)
                  && Takes(u.vrfMaxPayoutBps, v.vrfMaxPayoutBps, w.vrfMaxPayoutBps)
                  && SameHoldings(v, w) && t == s.(v2 := w))
  {
    hide AdminEffect, MoneyKept;
  }

  predicate SameHoldings(v: V2State, w: V2State) {
    && w.outstanding == v.outstanding && w.totalUnits == v.totalUnits && w.seedUnits == v.seedUnits
    && w.houseUnits == v.houseUnits && w.housePending == v.housePending && w.houseUnlock == v.houseUnlock
    && w.totalPending == v.totalPending
  }

  // ---------------------------------------------------------------- the theorem

  /** In a state of the invariant every transaction succeeds exactly when the table permits it. */
  lemma StepSucceeds(s: State, step: Step)
    requires Inv(s)
    requires forall p | p in s.sessions :: s.sessions[p].bet <= U64_MAX
    ensures Apply(s, step).Ok? <==> Permits(s, step)
  {
    ConfigOf(s);
    hide Inv, ApplyVrf, ApplySession, ApplyLp, ApplyHouse, ApplyAdmin, MoneyKept, MoneySound, ConfigSound;
    hide PermitsVrf, PermitsSession, PermitsLp, PermitsHouse, PermitsAdmin;
    match step {
      case Vrf(v) => VrfSucceeds(s, v);
      case Legacy(g) => SessionSucceeds(s, g);
      case Lp(l) => LpSucceeds(s, l);
      case House(h) => HouseSucceeds(s, h);
      case Admin(a) => AdminSucceeds(s, a);
    }
  }
}
