/**
 Who pays whom. For every transaction that succeeds, the balance of every account afterwards, in plain
 arithmetic on the ledger it found; and, from that, who can be paid at all.
 */
module Payments {
  import opened Prelude
  import opened Odds
  import opened Reveal
  import opened Ledger
  import opened Handlers
  import opened Runs
  import opened Settlement

  // ---------------------------------------------------------------- amounts

  /** n lamports going from one account to another, as account a sees it. */
  function Moved(a: Account, from: Account, to: Account, n: nat): int {
    Part(a, to, n) - Part(a, from, n)
  }

  /** What `units` of the pool are worth, floored. */
  function Value(v2: V2State, units: nat, assets: nat): nat {
    if v2.totalUnits == 0 then 0 else units * assets / v2.totalUnits
  }

  /** What is missing from an account's rent. */
  function RentDue(s: State, a: Account, space: nat): nat {
    SatSub(Rent(space), Bal(s.lamports, a))
  }

  /** A finished round's prize at the multiplier it recorded. */
  function Prize(s: State, p: Id): nat {
    if p in s.claims && p in s.games && s.games[p].game.status != VRF_LOST
    then s.claims[p].bet * s.games[p].game.mult / BPS else 0
  }

  /** The referrer's part of a bet: 50, 60 or 70 bps of it by tier, as far as assets go. */
  function ReferrerCut(s: State, p: Id, passed: Option<Account>, bet: nat, assets: nat): nat {
    if p in s.stats && s.stats[p].Some? && passed.Some? && s.stats[p].value in s.referrals
    then Min(bet * (50 + 10 * Min(s.referrals[s.stats[p].value].tier, 2)) / BPS, assets) else 0
  }

  /** The referrer's account; any other where there is none, for nothing is paid then. */
  function ReferrerOf(s: State, p: Id): Account {
    if p in s.stats && s.stats[p].Some? then ReferralPda(s.stats[p].value) else VaultPda
  }

  /**
   The treasury's part of the edge on a bet, out of what is left when obligations and the units being
   withdrawn are set aside.
   */
  function TreasuryCut(s: State, bet: nat, assets: nat, outstanding: nat): nat {
    Min(bet * s.vault.edge / BPS * s.vault.splitBps / BPS,
        SatSub(assets, outstanding + Value(s.v2, s.v2.totalPending, assets)))
  }

  /** Both cuts of a bet, paid after `paid` has left the vault and `released` the accumulator. */
  function Cuts(s: State, p: Id, passed: Option<Account>, bet: nat, paid: nat, released: nat, a: Account): int {
    var left := SatSub(Assets(s.lamports), paid);
    var cut := ReferrerCut(s, p, passed, bet, left);
    Moved(a, VaultPda, ReferrerOf(s, p), cut)
    + Moved(a, VaultPda, s.vault.treasury, TreasuryCut(s, bet, SatSub(left, cut), SatSub(s.v2.outstanding, released)))
  }

  /** Account x is emptied into `to`: what a holds, from what a and x held before. */
  function Emptied(a: Account, x: Account, to: Account, heldByA: int, heldByX: int): int {
    if a == x then 0 else if a == to then heldByA + heldByX else heldByA
  }

  /** The claim and the reveal account are closed to the player. */
  function RoundClosed(p: Id, a: Account, held: Account -> int): int {
    Emptied(a, GamePda(p), Wallet(p), Emptied(a, ClaimPda(p), Wallet(p), held(a), held(ClaimPda(p))), held(GamePda(p)))
  }

  // ---------------------------------------------------------------- every account, after every transaction

  function StatsRent(s: State, p: Id, a: Account): int {
    Moved(a, Wallet(p), StatsPda(p), if p in s.stats then 0 else RentDue(s, StatsPda(p), STATS_SPACE))
  }

  function AfterVrf(s: State, step: VrfStep, a: Account): int {
    var held := Bal(s.lamports, a);
    match step
    case Start(p, _, _, bet) =>
      held + Moved(a, Wallet(p), ClaimPda(p), RentDue(s, ClaimPda(p), CLAIM_SPACE))
      + Moved(a, Wallet(p), GamePda(p), RentDue(s, GamePda(p), GAME_SPACE)) + StatsRent(s, p, a)
      + Moved(a, Wallet(p), VaultPda, bet)
    case Settle(p, passed) => AfterSettle(s, p, passed, a)
    case Refund(p, _) => RoundClosed(p, a, (x: Account) => Bal(s.lamports, x) + Moved(x, VaultPda, Wallet(p), BetOf(s, p)))
    case AdminRelease(p) =>
      var spendable := if s.v2.totalUnits > 0 then SatSub(Assets(s.lamports), 1) else Assets(s.lamports);
      Emptied(a, ClaimPda(p), Wallet(p), held + Moved(a, VaultPda, Wallet(p), Min(BetOf(s, p), spendable)),
              Bal(s.lamports, ClaimPda(p)))
    case _ => held
  }

  function BetOf(s: State, p: Id): nat {
    if p in s.claims then s.claims[p].bet else 0
  }

  /** The winner, the referrer and the treasury are paid, then both accounts are closed. */
  function AfterSettle(s: State, p: Id, passed: Option<Account>, a: Account): int {
    RoundClosed(p, a, (x: Account) => PaidParties(s, p, passed, x))
  }

  function PaidParties(s: State, p: Id, passed: Option<Account>, a: Account): int {
    var reserved := if p in s.claims then s.claims[p].reserved else 0;
    Bal(s.lamports, a) + Moved(a, VaultPda, Wallet(p), Prize(s, p))
    + Cuts(s, p, passed, BetOf(s, p), Prize(s, p), reserved, a)
  }

  function AfterSession(s: State, step: SessionStep, a: Account): int {
    var p, held := step.player, Bal(s.lamports, a);
    var bet := if p in s.sessions then s.sessions[p].bet else 0;
    match step
    case Open(_, _, stake, _) =>
      held + Moved(a, Wallet(p), SessionPda(p), RentDue(s, SessionPda(p), SESSION_SPACE)) + StatsRent(s, p, a)
      + Moved(a, Wallet(p), VaultPda, stake)
    case Tile(_, _, _) => held
    case TakeCash(_) =>
      held + Moved(a, VaultPda, Wallet(p), if p in s.sessions then bet * s.sessions[p].mult / BPS else 0)
    case Prove(_, _, _, passed) =>
      held + Cuts(s, p, passed, bet, 0, if p in s.sessions then s.sessions[p].maxPayout else 0, a)
    case Expire(_) => held + Moved(a, VaultPda, Wallet(p), Min(bet, Assets(s.lamports)))
    case _ => Emptied(a, SessionPda(p), Wallet(p), held, Bal(s.lamports, SessionPda(p)))
  }

  function AfterLp(s: State, step: LpStep, a: Account): int {
    var held := Bal(s.lamports, a);
    match step
    case Donate(f, n) => held + Moved(a, Wallet(f), VaultPda, n)
    case Deposit(u, n) =>
      held + Moved(a, Wallet(u), PositionPda(u), if u in s.positions then 0 else RentDue(s, PositionPda(u), POSITION_SPACE))
      + Moved(a, Wallet(u), VaultPda, n)
    case CompleteOut(u) => held + Moved(a, VaultPda, Wallet(u), Value(s.v2, Pending(s, u), Assets(s.lamports)))
    case ClosePosition(u) => Emptied(a, PositionPda(u), Wallet(u), held, Bal(s.lamports, PositionPda(u)))
    case _ => held
  }

  function AfterHouse(s: State, step: HouseStep, a: Account): int {
    var held, assets, v2 := Bal(s.lamports, a), Assets(s.lamports), s.v2;
    match step
    case HouseIn(n) => held + Moved(a, Wallet(s.vault.owner), VaultPda, n)
    case HouseComplete => held + Moved(a, VaultPda, Wallet(s.vault.owner), Value(v2, v2.housePending, assets))
    case Unlock(to, _) =>
      held + Moved(a, VaultPda, to, Min(Value(v2, v2.seedUnits + v2.houseUnits + v2.housePending, assets),
                                       SatSub(assets, v2.outstanding + Value(v2, v2.totalPending, assets))))
    case TreasuryOut(to, _, n) => held + Moved(a, VaultPda, to, Min(n, assets))
    case _ => held
  }

  function AfterAdmin(s: State, step: AdminStep, a: Account): int {
    var held := Bal(s.lamports, a);
    match step
    case Refer(p, k) =>
      held + StatsRent(s, p, a)
      + Moved(a, Wallet(p), ReferralPda(k), if k in s.referrals then 0 else RentDue(s, ReferralPda(k), REFERRAL_SPACE))
    case ClaimCut(k) =>
      var accrued := if k in s.referrals then s.referrals[k].accrued else 0;
      held + Moved(a, ReferralPda(k), Wallet(k), Min(accrued, SatSub(Bal(s.lamports, ReferralPda(k)), Rent(REFERRAL_SPACE))))
    case _ => held
  }

  function BalanceAfter(s: State, step: Step, a: Account): int {
    match step
    case Vrf(v) => AfterVrf(s, v, a)
    case Legacy(g) => AfterSession(s, g, a)
    case Lp(l) => AfterLp(s, l, a)
    case House(h) => AfterHouse(s, h, a)
    case Admin(d) => AfterAdmin(s, d, a)
  }

  // ---------------------------------------------------------------- the shared steps

  lemma DrainBalance(l: Lamports, x: Account, to: Account, a: Account)
    requires x != to && Drain(l, x, to).Ok?
    ensures Bal(Drain(l, x, to).value, a) == Emptied(a, x, to, Bal(l, a), Bal(l, x))
  {
    hide Move;
    MoveBalance(l, x, to, Bal(l, x), a);
  }

  lemma FundBalance(l: Lamports, payer: Id, x: Account, space: nat, a: Account)
    requires Fund(l, payer, x, space).Ok?
    ensures Bal(Fund(l, payer, x, space).value, a) == Bal(l, a) + Moved(a, Wallet(payer), x, SatSub(Rent(space), Bal(l, x)))
  {
    hide Move, Bal, MoneyKept;
    MoveBalance(l, Wallet(payer), x, SatSub(Rent(space), Bal(l, x)), a);
  }

  lemma StatsBalance(s: State, p: Id, a: Account)
    requires EnsureStats(s, p).Ok?
    ensures Bal(EnsureStats(s, p).value.lamports, a) == Bal(s.lamports, a) + StatsRent(s, p, a)
  {
    hide Fund, Bal, MoneyKept;
    if p !in s.stats {
      FundBalance(s.lamports, p, StatsPda(p), STATS_SPACE, a);
    }
  }

  lemma RoundRents(s: State, p: Id, a: Account)
    requires FundRound(s, p).Ok?
    ensures Bal(FundRound(s, p).value.lamports, a) ==
            Bal(s.lamports, a) + Moved(a, Wallet(p), ClaimPda(p), RentDue(s, ClaimPda(p), CLAIM_SPACE))
            + Moved(a, Wallet(p), GamePda(p), RentDue(s, GamePda(p), GAME_SPACE)) + StatsRent(s, p, a)
  {
    hide Fund, Bal, MoneyKept, EnsureStats;
    var l1 := Fund(s.lamports, p, ClaimPda(p), CLAIM_SPACE).value;
    var l2 := Fund(l1, p, GamePda(p), GAME_SPACE).value;
    FundBalance(s.lamports, p, ClaimPda(p), CLAIM_SPACE, a);
    FundBalance(s.lamports, p, ClaimPda(p), CLAIM_SPACE, GamePda(p));
    FundBalance(s.lamports, p, ClaimPda(p), CLAIM_SPACE, StatsPda(p));
    FundBalance(l1, p, GamePda(p), GAME_SPACE, a);
    FundBalance(l1, p, GamePda(p), GAME_SPACE, StatsPda(p));
    StatsBalance(s.(lamports := l2), p, a);
  }

  lemma BetBalance(l: Lamports, vault: Vault, v2: V2State, p: Id, bps: nat, mines: nat, bet: nat, a: Account)
    requires TakeBet(l, vault, v2, p, bps, mines, bet).Ok?
    ensures Bal(TakeBet(l, vault, v2, p, bps, mines, bet).value.lamports, a) == Bal(l, a) + Moved(a, Wallet(p), VaultPda, bet)
  {
    hide Quote, Reserve, Move, Bal, MoneyKept;
    MoveBalance(l, Wallet(p), VaultPda, bet, a);
  }

  lemma ReferrerBalance(s: State, l: Lamports, p: Id, passed: Option<Account>, bet: nat, a: Account)
    requires p in s.stats && PayReferrer(l, s.referrals, s.stats[p], passed, bet).Ok?
    ensures Bal(PayReferrer(l, s.referrals, s.stats[p], passed, bet).value.lamports, a) ==
            Bal(l, a) + Moved(a, VaultPda, ReferrerOf(s, p), ReferrerCut(s, p, passed, bet, Assets(l)))
  {
    hide Move, Bal, MoneyKept, Assets;
    if s.stats[p].Some? && passed.Some? {
      MoveBalance(l, VaultPda, ReferrerOf(s, p), ReferrerCut(s, p, passed, bet, Assets(l)), a);
    }
  }

  lemma TreasuryBalance(s: State, l: Lamports, outstanding: nat, bet: nat, a: Account)
    requires PayTreasury(l, s.vault, s.v2.(outstanding := outstanding), bet).Ok?
    ensures Bal(PayTreasury(l, s.vault, s.v2.(outstanding := outstanding), bet).value, a) ==
            Bal(l, a) + Moved(a, VaultPda, s.vault.treasury, TreasuryCut(s, bet, Assets(l), outstanding))
  {
    hide Move, Bal, MoneyKept, Assets, TreasuryCut, UnitsToAssets;
    TreasuryIsPaid(s, l, outstanding, bet);
    if s.vault.splitBps != 0 {
      MoveBalance(l, VaultPda, s.vault.treasury, TreasuryCut(s, bet, Assets(l), outstanding), a);
    }
  }

  lemma UnitsWorth(v2: V2State, units: nat, assets: nat)
    requires UnitsToAssets(units, assets, v2.totalUnits).Ok?
    ensures UnitsToAssets(units, assets, v2.totalUnits).value == Value(v2, units, assets)
  {
    assert 0 * assets == 0;
  }

  /** Both bps of the cut are floored, and both claims on assets come first. */
  lemma TreasuryIsPaid(s: State, l: Lamports, outstanding: nat, bet: nat)
    requires PayTreasury(l, s.vault, s.v2.(outstanding := outstanding), bet).Ok?
    ensures var cut := TreasuryCut(s, bet, Assets(l), outstanding);
            if s.vault.splitBps == 0 then cut == 0 && PayTreasury(l, s.vault, s.v2.(outstanding := outstanding), bet).value == l
            else Move(l, VaultPda, s.vault.treasury, cut) == PayTreasury(l, s.vault, s.v2.(outstanding := outstanding), bet)
  {
    hide Move, Bal, MoneyKept, Assets, UnitsToAssets, Value;
    if s.vault.splitBps == 0 {
      assert bet * s.vault.edge / BPS * s.vault.splitBps == 0;
    } else {
      UnitsWorth(s.v2, s.v2.totalPending, Assets(l));
    }
  }

  // ---------------------------------------------------------------- each kind of transaction

  /** A verified round is awarded the prize its game recorded. */
  lemma AwardIsPrize(s: State, p: Id)
    requires p in s.claims && p in s.games && Verify(s.claims[p], s.games[p].game).Ok?
    requires Award(s.claims[p], Verify(s.claims[p], s.games[p].game).value).Ok?
    ensures Award(s.claims[p], Verify(s.claims[p], s.games[p].game).value).value == Prize(s, p)
  {
    hide Replay, CalcMultiplier;
  }

  /** Assets after a payment out of them. */
  lemma AssetsAfter(l: Lamports, to: Account, n: nat)
    requires Move(l, VaultPda, to, n).Ok? && n <= Assets(l) && (to != VaultPda || n == 0)
    ensures Assets(Move(l, VaultPda, to, n).value) == Assets(l) - n
  {
    hide Bal;
    MoveBalance(l, VaultPda, to, n, VaultPda);
  }

  lemma ReferrerLeavesAssets(s: State, l: Lamports, p: Id, passed: Option<Account>, bet: nat)
    requires p in s.stats && PayReferrer(l, s.referrals, s.stats[p], passed, bet).Ok?
    ensures Assets(PayReferrer(l, s.referrals, s.stats[p], passed, bet).value.lamports)
            == Assets(l) - ReferrerCut(s, p, passed, bet, Assets(l))
  {
    hide PayReferrer, Bal, MoneyKept;
    ReferrerBalance(s, l, p, passed, bet, VaultPda);
  }

  lemma PartiesBalance(s: State, p: Id, payout: nat, reserved: nat, bet: nat, passed: Option<Account>, a: Account)
    requires p in s.stats && PayRound(s.(v2 := Release(s.v2, reserved)), p, payout, bet, passed).Ok?
    ensures Bal(PayRound(s.(v2 := Release(s.v2, reserved)), p, payout, bet, passed).value.lamports, a) ==
            Bal(s.lamports, a) + Moved(a, VaultPda, Wallet(p), payout) + Cuts(s, p, passed, bet, payout, reserved, a)
  {
    hide PayReferrer, PayTreasury, Move, Bal, MoneyKept, Assets, ReferrerCut, TreasuryCut;
    var l1 := Move(s.lamports, VaultPda, Wallet(p), payout).value;
    var l2 := PayReferrer(l1, s.referrals, s.stats[p], passed, bet).value.lamports;
    MoveBalance(s.lamports, VaultPda, Wallet(p), payout, a);
    AssetsAfter(s.lamports, Wallet(p), payout);
    ReferrerBalance(s, l1, p, passed, bet, a);
    ReferrerLeavesAssets(s, l1, p, passed, bet);
    TreasuryBalance(s, l2, SatSub(s.v2.outstanding, reserved), bet, a);
  }

  lemma ClosedBalance(s: State, l: Lamports, p: Id, held: Account -> int, a: Account)
    requires CloseRound(s, l, p).Ok?
    requires held(a) == Bal(l, a) && held(ClaimPda(p)) == Bal(l, ClaimPda(p)) && held(GamePda(p)) == Bal(l, GamePda(p))
    ensures Bal(CloseRound(s, l, p).value.lamports, a) == RoundClosed(p, a, held)
  {
    hide Drain, Bal, MoneyKept;
    var l1 := Drain(l, ClaimPda(p), Wallet(p)).value;
    DrainBalance(l, ClaimPda(p), Wallet(p), a);
    DrainBalance(l, ClaimPda(p), Wallet(p), GamePda(p));
    DrainBalance(l1, GamePda(p), Wallet(p), a);
  }

  lemma SettleBalance(s: State, p: Id, passed: Option<Account>, a: Account)
    requires SettleVrf(s, p, passed).Ok?
    ensures Bal(SettleVrf(s, p, passed).value.lamports, a) == AfterSettle(s, p, passed, a)
  {
    hide Verify, Award, PayRound, CloseRound, RoundEffect, Bal, Prize, Cuts;
    var c := s.claims[p];
    var payout := Award(c, Verify(c, s.games[p].game).value).value;
    AwardIsPrize(s, p);
    var released := s.(v2 := Release(s.v2, c.reserved));
    var paid := PayRound(released, p, payout, c.bet, passed).value;
    PartiesBalance(s, p, payout, c.reserved, c.bet, passed, a);
    PartiesBalance(s, p, payout, c.reserved, c.bet, passed, ClaimPda(p));
    PartiesBalance(s, p, payout, c.reserved, c.bet, passed, GamePda(p));
    ClosedBalance(released.(referrals := paid.referrals), paid.lamports, p, (x: Account) => PaidParties(s, p, passed, x), a);
  }

  lemma StartBalance(s: State, p: Id, key: Id, mines: nat, bet: nat, a: Account)
    requires StartGameVrf(s, p, key, mines, bet).Ok?
    ensures Bal(StartGameVrf(s, p, key, mines, bet).value.lamports, a) == AfterVrf(s, VrfStep.Start(p, key, mines, bet), a)
  {
    hide FundRound, TakeBet, RoundEffect, Bal, CheckVrfOpen, CheckBet, RentDue, StatsRent;
    RoundRents(s, p, a);
    BetBalance(FundRound(s, p).value.lamports, s.vault, s.v2, p, Min(s.vault.maxPayoutBps, s.v2.vrfMaxPayoutBps), mines, bet, a);
  }

  lemma RefundBalance(s: State, p: Id, caller: Id, a: Account)
    requires RefundStalledVrf(s, p, caller).Ok?
    ensures Bal(RefundStalledVrf(s, p, caller).value.lamports, a) == AfterVrf(s, VrfStep.Refund(p, caller), a)
  {
    hide CheckStalled, Assets, RoundEffect, Bal, Move, CloseRound;
    var c := s.claims[p];
    var l := Move(s.lamports, VaultPda, Wallet(p), c.bet).value;
    MoveBalance(s.lamports, VaultPda, Wallet(p), c.bet, a);
    MoveBalance(s.lamports, VaultPda, Wallet(p), c.bet, ClaimPda(p));
    MoveBalance(s.lamports, VaultPda, Wallet(p), c.bet, GamePda(p));
    ClosedBalance(s.(v2 := Release(s.v2, c.reserved)), l, p,
                  (x: Account) => Bal(s.lamports, x) + Moved(x, VaultPda, Wallet(p), BetOf(s, p)), a);
  }

  lemma ReleaseBalance(s: State, p: Id, a: Account)
    requires AdminReleaseVrfClaim(s, p).Ok?
    ensures Bal(AdminReleaseVrfClaim(s, p).value.lamports, a) == AfterVrf(s, AdminRelease(p), a)
  {
    hide RoundEffect, Bal, Move, Drain, Assets;
    var payable := Min(s.claims[p].bet, AdminSpendable(s.lamports, s.v2));
    var l1 := Move(s.lamports, VaultPda, Wallet(p), payable).value;
    MoveBalance(s.lamports, VaultPda, Wallet(p), payable, a);
    MoveBalance(s.lamports, VaultPda, Wallet(p), payable, ClaimPda(p));
    DrainBalance(l1, ClaimPda(p), Wallet(p), a);
  }

  lemma VrfBalance(s: State, step: VrfStep, a: Account)
    requires ApplyVrf(s, step).Ok?
    ensures Bal(ApplyVrf(s, step).value.lamports, a) == AfterVrf(s, step, a)
  {
    hide StartGameVrf, SettleVrf, RefundStalledVrf, AdminReleaseVrfClaim, RoundEffect, Bal, Assets;
    hide RequestReveal, RevealCallback, CashOut, CheckDelegable, AfterSettle;
    match step {
      case Start(p, k, m, b) => StartBalance(s, p, k, m, b, a);
      case Settle(p, passed) => SettleBalance(s, p, passed, a);
      case Refund(p, caller) => RefundBalance(s, p, caller, a);
      case AdminRelease(p) => ReleaseBalance(s, p, a);
      case _ =>
    }
  }

  lemma OpenBalance(s: State, p: Id, mines: nat, bet: nat, commitment: Digest, a: Account)
    requires StartGame(s, p, mines, bet, commitment).Ok?
    ensures Bal(StartGame(s, p, mines, bet, commitment).value.lamports, a) == AfterSession(s, Open(p, mines, bet, commitment), a)
  {
    hide Fund, EnsureStats, TakeBet, SessionEffect, Bal, CheckBet, StatsRent, MoneyKept;
    var l1 := Fund(s.lamports, p, SessionPda(p), SESSION_SPACE).value;
    FundBalance(s.lamports, p, SessionPda(p), SESSION_SPACE, a);
    FundBalance(s.lamports, p, SessionPda(p), SESSION_SPACE, StatsPda(p));
    StatsBalance(s.(lamports := l1), p, a);
    StatsRentElsewhere(s, l1, p, a);
    BetBalance(EnsureStats(s.(lamports := l1), p).value.lamports, s.vault, s.v2, p, s.vault.maxPayoutBps, mines, bet, a);
  }

  lemma StatsRentElsewhere(s: State, l: Lamports, p: Id, a: Account)
    requires Bal(l, StatsPda(p)) == Bal(s.lamports, StatsPda(p))
    ensures StatsRent(s.(lamports := l), p, a) == StatsRent(s, p, a)
  {}

  lemma ProveBalance(s: State, p: Id, layout: set<nat>, digest: Digest, passed: Option<Account>, a: Account)
    requires SettleGame(s, p, layout, digest, passed).Ok?
    ensures Bal(SettleGame(s, p, layout, digest, passed).value.lamports, a) ==
            AfterSession(s, Prove(p, layout, digest, passed), a)
  {
    hide SessionEffect, MoneyKept, PayReferrer, PayTreasury, CheckLayout, CalcHealth, MulDivFloor, Bal, Assets;
    hide ReferrerCut, TreasuryCut;
    var g := s.sessions[p];
    var l := PayReferrer(s.lamports, s.referrals, s.stats[p], passed, g.bet).value.lamports;
    ReferrerBalance(s, s.lamports, p, passed, g.bet, a);
    ReferrerLeavesAssets(s, s.lamports, p, passed, g.bet);
    TreasuryBalance(s, l, SatSub(s.v2.outstanding, g.maxPayout), g.bet, a);
  }

  lemma SessionBalance(s: State, step: SessionStep, a: Account)
    requires ApplySession(s, step).Ok?
    ensures Bal(ApplySession(s, step).value.lamports, a) == AfterSession(s, step, a)
  {
    hide StartGame, SettleGame, SessionEffect, Bal, Assets, Move, Drain, CalcMultiplier, Cuts, StatsRent, MoneyKept;
    var p := step.player;
    match step {
      case Open(_, m, b, c) => OpenBalance(s, p, m, b, c, a);
      case Prove(_, l, d, passed) => ProveBalance(s, p, l, d, passed, a);
      case TakeCash(_) => MoveBalance(s.lamports, VaultPda, Wallet(p), s.sessions[p].bet * s.sessions[p].mult / BPS, a);
      case Expire(_) => MoveBalance(s.lamports, VaultPda, Wallet(p), Min(s.sessions[p].bet, Assets(s.lamports)), a);
      case Tile(_, _, _) =>
      case _ => DrainBalance(s.lamports, SessionPda(p), Wallet(p), a);
    }
  }

  lemma DepositBalance(s: State, u: Id, n: nat, a: Account)
    requires LpDeposit(s, u, n).Ok?
    ensures Bal(LpDeposit(s, u, n).value.lamports, a) == AfterLp(s, Deposit(u, n), a)
  {
    hide LpEffect, Bal, Assets, Move, Fund, DepositToUnits, AdmitDeposit, MoneyKept;
    if u !in s.positions {
      FundBalance(s.lamports, u, PositionPda(u), POSITION_SPACE, a);
    }
    MoveBalance(EnsurePosition(s, u).value.lamports, Wallet(u), VaultPda, n, a);
  }

  lemma LpBalance(s: State, step: LpStep, a: Account)
    requires ApplyLp(s, step).Ok?
    ensures Bal(ApplyLp(s, step).value.lamports, a) == AfterLp(s, step, a)
  {
    hide LpDeposit, LpEffect, Bal, Assets, Move, Drain, UnitsToAssets, MoneyKept, Value;
    match step {
      case Donate(f, n) => MoveBalance(s.lamports, Wallet(f), VaultPda, n, a);
      case Deposit(u, n) => DepositBalance(s, u, n, a);
      case CompleteOut(u) =>
        UnitsWorth(s.v2, s.positions[u].pending, Assets(s.lamports));
        MoveBalance(s.lamports, VaultPda, Wallet(u), Value(s.v2, Pending(s, u), Assets(s.lamports)), a);
      case ClosePosition(u) => DrainBalance(s.lamports, PositionPda(u), Wallet(u), a);
      case _ =>
    }
  }

  lemma UnlockBalance(s: State, to: Account, executable: bool, a: Account)
    requires UnlockOperatorPosition(s, to, executable).Ok?
    ensures Bal(UnlockOperatorPosition(s, to, executable).value.lamports, a) == AfterHouse(s, Unlock(to, executable), a)
  {
    hide HouseEffect, Bal, Assets, Move, UnitsToAssets, EnforceMinHealth, MayReceive, MoneyKept, Value;
    var v2, assets := s.v2, Assets(s.lamports);
    var burn := v2.seedUnits + v2.houseUnits + v2.housePending;
    UnitsWorth(v2, burn, assets);
    UnitsWorth(v2, v2.totalPending, assets);
    MoveBalance(s.lamports, VaultPda, to,
                Min(Value(v2, burn, assets), SatSub(assets, v2.outstanding + Value(v2, v2.totalPending, assets))), a);
  }

  lemma HouseBalance(s: State, step: HouseStep, a: Account)
    requires ApplyHouse(s, step).Ok?
    ensures Bal(ApplyHouse(s, step).value.lamports, a) == AfterHouse(s, step, a)
  {
    hide UnlockOperatorPosition, HouseEffect, Bal, Assets, Move, UnitsToAssets, DepositToUnits, MayReceive, MoneyKept, Value;
    hide EnforceHouseFloor, UserUnitsTotal;
    match step {
      case HouseIn(n) => MoveBalance(s.lamports, Wallet(s.vault.owner), VaultPda, n, a);
      case HouseComplete =>
        UnitsWorth(s.v2, s.v2.housePending, Assets(s.lamports));
        MoveBalance(s.lamports, VaultPda, Wallet(s.vault.owner), Value(s.v2, s.v2.housePending, Assets(s.lamports)), a);
      case Unlock(to, x) => UnlockBalance(s, to, x, a);
      case TreasuryOut(to, _, n) => MoveBalance(s.lamports, VaultPda, to, Min(n, Assets(s.lamports)), a);
      case _ =>
    }
  }

  lemma ReferBalance(s: State, p: Id, k: Id, a: Account)
    requires SetReferrer(s, p, k).Ok?
    ensures Bal(SetReferrer(s, p, k).value.lamports, a) == AfterAdmin(s, Refer(p, k), a)
  {
    hide EnsureStats, Fund, AdminEffect, Bal, MoneyKept;
    var l := EnsureStats(s, p).value.lamports;
    StatsBalance(s, p, a);
    StatsBalance(s, p, ReferralPda(k));
    if k !in s.referrals {
      FundBalance(l, p, ReferralPda(k), REFERRAL_SPACE, a);
    }
  }

  lemma AdminBalance(s: State, step: AdminStep, a: Account)
    requires ApplyAdmin(s, step).Ok?
    ensures Bal(ApplyAdmin(s, step).value.lamports, a) == AfterAdmin(s, step, a)
  {
    hide SetReferrer, AdminEffect, Bal, Move, MoneyKept, StatsRent;
    match step {
      case Refer(p, k) => ReferBalance(s, p, k, a);
      case ClaimCut(k) =>
        MoveBalance(s.lamports, ReferralPda(k), Wallet(k),
                    Min(s.referrals[k].accrued, SatSub(Bal(s.lamports, ReferralPda(k)), Rent(REFERRAL_SPACE))), a);
      case _ =>
    }
  }

  /** After any transaction that succeeds, every account holds exactly what the book says. */
  lemma StepBalances(s: State, step: Step, a: Account)
    requires Apply(s, step).Ok?
    ensures Bal(Next(s, step).lamports, a) == BalanceAfter(s, step, a)
  {
    hide ApplyVrf, ApplySession, ApplyLp, ApplyHouse, ApplyAdmin, Bal, MoneyKept;
    hide AfterVrf, AfterSession, AfterLp, AfterHouse, AfterAdmin;
    match step {
      case Vrf(v) => VrfBalance(s, v, a);
      case Legacy(g) => SessionBalance(s, g, a);
      case Lp(l) => LpBalance(s, l, a);
      case House(h) => HouseBalance(s, h, a);
      case Admin(d) => AdminBalance(s, d, a);
    }
  }

  // ---------------------------------------------------------------- what it comes to

  /** In a state of the invariant a finished round's recorded prize is its price. */
  lemma PrizeIsDue(s: State, p: Id)
    requires Inv(s) && p in s.claims && s.games[p].game.status != VRF_PLAYING
    ensures var c, g := s.claims[p], s.games[p].game;
            g.safe + c.mines <= GRID_SIZE && c.edge <= BPS && Prize(s, p) == Due(c, g)
  {
    hide Multiplier, Finds, TilesOf, WorstCasePayout, ReservationsExact, SessionsSound, UnitsConserved, MoneySound, ConfigSound;
    assert RoundSound(s, p);
  }

  /** A treasury that is neither the vault nor a party of the round. */
  predicate TreasuryApart(s: State, p: Id) {
    s.vault.treasury != VaultPda && s.vault.treasury !in Own(p) && s.vault.treasury != ReferrerOf(s, p)
  }

  /**
   A bet settled: the vault has paid `due`, the referrer's cut and the treasury's, and the treasury has
   received exactly its part of the edge, capped by what obligations and pending withdrawals leave free.
   */
  predicate Settled(s: State, t: Lamports, p: Id, passed: Option<Account>, bet: nat, due: nat, released: nat) {
    var left := SatSub(Assets(s.lamports), due);
    var rakeback := ReferrerCut(s, p, passed, bet, left);
    var rest := SatSub(left, rakeback);
    var pending := if s.v2.totalUnits == 0 then 0 else s.v2.totalPending * rest / s.v2.totalUnits;
    var free := SatSub(rest, SatSub(s.v2.outstanding, released) + pending);
    var share := Min(bet * s.vault.edge / BPS * s.vault.splitBps / BPS, free);
    && rakeback <= left
    && Bal(t, s.vault.treasury) == Bal(s.lamports, s.vault.treasury) + share
    && Bal(t, VaultPda) == Bal(s.lamports, VaultPda) - due - rakeback - share
  }

  /** Settling a round pays its price, the referrer and the treasury, each exactly. */
  lemma TreasuryReceives(s: State, p: Id, passed: Option<Account>)
    requires Inv(s) && SettleVrf(s, p, passed).Ok? && TreasuryApart(s, p)
    ensures p in s.claims && s.games[p].game.safe + s.claims[p].mines <= GRID_SIZE && s.claims[p].edge <= BPS
    ensures Settled(s, SettleVrf(s, p, passed).value.lamports, p, passed, s.claims[p].bet,
                    Due(s.claims[p], s.games[p].game), s.claims[p].reserved)
  {
    hide Inv, SettleVrf, Bal, Assets, Due, AfterSettle, Prize, Own, Settled, TreasuryApart;
    Finished(s, p, passed);
    PrizeIsDue(s, p);
    SettleBalance(s, p, passed, s.vault.treasury);
    SettleBalance(s, p, passed, VaultPda);
    SettledForTreasury(s, SettleVrf(s, p, passed).value.lamports, p, passed);
  }

  lemma CutWithin(s: State, p: Id, passed: Option<Account>, bet: nat, assets: nat)
    ensures ReferrerCut(s, p, passed, bet, assets) <= assets
  {}

  lemma SettledForTreasury(s: State, t: Lamports, p: Id, passed: Option<Account>)
    requires p in s.claims && TreasuryApart(s, p)
    requires Bal(t, s.vault.treasury) == AfterSettle(s, p, passed, s.vault.treasury)
    requires Bal(t, VaultPda) == AfterSettle(s, p, passed, VaultPda)
    ensures Settled(s, t, p, passed, s.claims[p].bet, Prize(s, p), s.claims[p].reserved)
  {
    hide Bal, Assets, Prize, ReferrerCut;
    CutWithin(s, p, passed, s.claims[p].bet, SatSub(Assets(s.lamports), Prize(s, p)));
    NoReferrerNoCut(s, p, passed, s.claims[p].bet, SatSub(Assets(s.lamports), Prize(s, p)));
  }

  lemma NoReferrerNoCut(s: State, p: Id, passed: Option<Account>, bet: nat, assets: nat)
    ensures ReferrerOf(s, p) == VaultPda ==> ReferrerCut(s, p, passed, bet, assets) == 0
  {}

  lemma Finished(s: State, p: Id, passed: Option<Account>)
    requires SettleVrf(s, p, passed).Ok?
    ensures p in s.claims && p in s.games && s.games[p].game.status != VRF_PLAYING
  {
    hide Replay, CalcMultiplier, Award, PayRound, CloseRound, RoundEffect;
  }

  /** The same for a commit-reveal settlement, which pays the player nothing. */
  lemma TreasuryReceivesProof(s: State, p: Id, layout: set<nat>, digest: Digest, passed: Option<Account>)
    requires SettleGame(s, p, layout, digest, passed).Ok?
    requires s.vault.treasury != VaultPda && s.vault.treasury != ReferrerOf(s, p)
    ensures p in s.sessions
    ensures Settled(s, SettleGame(s, p, layout, digest, passed).value.lamports, p, passed,
                    s.sessions[p].bet, 0, s.sessions[p].maxPayout)
  {
    assert p in s.sessions by { hide SessionEffect; }
    hide SettleGame, SessionEffect, Bal, Assets, ReferrerCut;
    CutWithin(s, p, passed, s.sessions[p].bet, Assets(s.lamports));
    NoReferrerNoCut(s, p, passed, s.sessions[p].bet, Assets(s.lamports));
    ProveBalance(s, p, layout, digest, passed, s.vault.treasury);
    ProveBalance(s, p, layout, digest, passed, VaultPda);
  }

  // ---------------------------------------------------------------- who can be paid

  /** Everyone a transaction may pay. An operator's payment can only go where the allowlist says. */
  function Payees(s: State, step: Step): set<Account> {
    match step
    case Vrf(Start(p, _, _, _)) => {VaultPda, ClaimPda(p), GamePda(p), StatsPda(p)}
    case Vrf(Settle(p, _)) => {Wallet(p), ReferrerOf(s, p), s.vault.treasury}
    case Vrf(Refund(p, _)) => {Wallet(p)}
    case Vrf(AdminRelease(p)) => {Wallet(p)}
    case Vrf(_) => {}
    case Legacy(Open(p, _, _, _)) => {VaultPda, SessionPda(p), StatsPda(p)}
    case Legacy(Tile(_, _, _)) => {}
    case Legacy(Prove(p, _, _, _)) => {ReferrerOf(s, p), s.vault.treasury}
    case Legacy(g) => {Wallet(g.player)}
    case Lp(Donate(_, _)) => {VaultPda}
    case Lp(Deposit(u, _)) => {VaultPda, PositionPda(u)}
    case Lp(CompleteOut(u)) => {Wallet(u)}
    case Lp(ClosePosition(u)) => {Wallet(u)}
    case Lp(_) => {}
    case House(HouseIn(_)) => {VaultPda}
    case House(HouseComplete) => {Wallet(s.vault.owner)}
    case House(Unlock(_, _)) => s.vault.allowlist - {VaultPda}
    case House(TreasuryOut(_, _, _)) => s.vault.allowlist - {VaultPda}
    case House(_) => {}
    case Admin(Refer(p, k)) => {StatsPda(p), ReferralPda(k)}
    case Admin(ClaimCut(k)) => {Wallet(k)}
    case Admin(_) => {}
  }

  lemma OperatorPays(s: State, step: HouseStep)
    requires Apply(s, House(step)).Ok? && (step.Unlock? || step.TreasuryOut?)
    ensures step.destination in s.vault.allowlist && step.destination != VaultPda && !step.executable
  {
    hide HouseEffect, MoneyKept, Move, Assets, UnitsToAssets, EnforceMinHealth;
  }

  lemma VrfPayees(s: State, step: VrfStep, a: Account)
    requires Bal(s.lamports, a) < AfterVrf(s, step, a)
    ensures a in Payees(s, Vrf(step))
  {
    hide Bal, Assets, Rent, RentDue, TreasuryCut, ReferrerCut, Prize;
  }

  lemma SessionPayees(s: State, step: SessionStep, a: Account)
    requires Bal(s.lamports, a) < AfterSession(s, step, a)
    ensures a in Payees(s, Legacy(step))
  {
    hide Bal, Assets, Rent, RentDue, TreasuryCut, ReferrerCut;
  }

  lemma PoolPayees(s: State, step: Step, a: Account)
    requires (step.Lp? || step.Admin?) && Bal(s.lamports, a) < BalanceAfter(s, step, a)
    ensures a in Payees(s, step)
  {
    hide Bal, Assets, Rent, RentDue, Value;
  }

  lemma HousePayees(s: State, step: HouseStep, a: Account)
    requires Apply(s, House(step)).Ok? && Bal(s.lamports, a) < AfterHouse(s, step, a)
    ensures a in Payees(s, House(step))
  {
    hide Apply, Bal, Assets, Value;
    if step.Unlock? || step.TreasuryOut? {
      OperatorPays(s, step);
    }
  }

  /** No transaction leaves anybody richer but those it is for. */
  lemma OnlyPayeesGain(s: State, step: Step, a: Account)
    requires Apply(s, step).Ok? && Bal(s.lamports, a) < Bal(Next(s, step).lamports, a)
    ensures a in Payees(s, step)
  {
    hide Apply, Next, Bal, AfterVrf, AfterSession, AfterLp, AfterHouse, AfterAdmin, Payees;
    StepBalances(s, step, a);
    match step {
      case Vrf(v) => VrfPayees(s, v, a);
      case Legacy(g) => SessionPayees(s, g, a);
      case House(h) => HousePayees(s, h, a);
      case _ => PoolPayees(s, step, a);
    }
  }

  /** Over any run, an account nobody pays never grows. */
  predicate Unpaid(s: State, steps: seq<Step>, a: Account)
    decreases |steps|
  {
    steps == [] || (a !in Payees(s, steps[0]) && Unpaid(Next(s, steps[0]), steps[1..], a))
  }

  lemma {:induction false} UnpaidNeverGrows(s: State, steps: seq<Step>, a: Account)
    requires Unpaid(s, steps, a)
    ensures Bal(Run(s, steps).lamports, a) <= Bal(s.lamports, a)
    decreases |steps|
  {
    hide Next, Apply, Payees, Bal, MoneyKept;
    if steps != [] {
      NextUnpaid(s, steps[0], a);
      UnpaidNeverGrows(Next(s, steps[0]), steps[1..], a);
    }
  }

  lemma NextUnpaid(s: State, step: Step, a: Account)
    requires a !in Payees(s, step)
    ensures Bal(Next(s, step).lamports, a) <= Bal(s.lamports, a)
  {
    hide Apply, Payees, Bal, MoneyKept;
    if Apply(s, step).Ok? && Bal(s.lamports, a) < Bal(Next(s, step).lamports, a) {
      OnlyPayeesGain(s, step, a);
    }
  }
}
