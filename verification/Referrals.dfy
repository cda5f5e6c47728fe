/**
 The referral records over whole runs: whoever is set as a referrer keeps a record under their own key, so
 that a settlement can be refused for a referral account only when it is not the referrer's.
 */
module Referrals {
  import opened Prelude
  import opened Odds
  import opened Ledger
  import opened Handlers
  import opened Runs
  import opened Solvency
  import opened Settlement
  import opened Payments

  /** A record is unclaimed or under its own key, and every set referrer has one. */
  ghost predicate RecordsSound(stats: map<Id, Option<Id>>, referrals: map<Id, Referral>) {
    && (forall k | k in referrals :: referrals[k].referrer == 0 || referrals[k].referrer == k)
    && (forall p | p in stats && stats[p].Some? ::
          stats[p].value in referrals && referrals[stats[p].value].referrer == stats[p].value)
  }

  lemma StatsAreOpened(s: State, p: Id)
    requires EnsureStats(s, p).Ok?
    ensures var t := EnsureStats(s, p).value;
            t.stats == (if p in s.stats then s.stats else s.stats[p := None]) && t.referrals == s.referrals
  {
    hide Fund, MoneyKept;
  }

  lemma RoundOpensStats(s: State, p: Id)
    requires FundRound(s, p).Ok?
    ensures var t := FundRound(s, p).value;
            t.stats == (if p in s.stats then s.stats else s.stats[p := None]) && t.referrals == s.referrals
  {
    hide Fund, MoneyKept, EnsureStats;
    var l := Fund(Fund(s.lamports, p, ClaimPda(p), CLAIM_SPACE).value, p, GamePda(p), GAME_SPACE).value;
    StatsAreOpened(s.(lamports := l), p);
  }

  lemma PaidRecords(l: Lamports, stats: map<Id, Option<Id>>, referrals: map<Id, Referral>, p: Id, passed: Option<Account>,
                    bet: nat)
    requires p in stats && RecordsSound(stats, referrals) && PayReferrer(l, referrals, stats[p], passed, bet).Ok?
    ensures RecordsSound(stats, PayReferrer(l, referrals, stats[p], passed, bet).value.referrals)
  {
    hide Move, MulDivFloor, MoneyKept;
  }

  lemma RoundRecords(s: State, p: Id, payout: nat, bet: nat, passed: Option<Account>)
    requires p in s.stats && RecordsSound(s.stats, s.referrals) && PayRound(s, p, payout, bet, passed).Ok?
    ensures RecordsSound(s.stats, PayRound(s, p, payout, bet, passed).value.referrals)
  {
    hide Move, PayReferrer, PayTreasury, RecordsSound, MoneyKept, Assets;
    PaidRecords(Move(s.lamports, VaultPda, Wallet(p), payout).value, s.stats, s.referrals, p, passed, bet);
  }

  lemma SettleRecords(s: State, p: Id, passed: Option<Account>)
    requires RecordsSound(s.stats, s.referrals) && SettleVrf(s, p, passed).Ok?
    ensures var t := SettleVrf(s, p, passed).value; RecordsSound(t.stats, t.referrals)
  {
    hide Reveal.Verify, Reveal.Award, PayRound, Drain, RoundEffect, RecordsSound;
    var c := s.claims[p];
    var v2' := Release(s.v2, c.reserved);
    var payout := Reveal.Award(c, Reveal.Verify(c, s.games[p].game).value).value;
    RoundRecords(s.(v2 := v2'), p, payout, c.bet, passed);
  }

  lemma VrfRecords(s: State, step: VrfStep)
    requires RecordsSound(s.stats, s.referrals) && ApplyVrf(s, step).Ok?
    ensures var t := ApplyVrf(s, step).value; RecordsSound(t.stats, t.referrals)
  {
    hide RoundEffect, MoneyKept, SettleVrf, FundRound, TakeBet, CheckBet, Drain, CheckStalled, Reveal.RequestReveal;
    hide Reveal.RevealCallback, Reveal.CashOut, CheckDelegable, CheckVrfOpen, Move;
    match step {
      case Start(p, _, _, _) => RoundOpensStats(s, p);
      case Settle(p, passed) => SettleRecords(s, p, passed);
      case _ =>
    }
  }

  lemma ProveRecords(s: State, p: Id, layout: set<nat>, digest: Digest, passed: Option<Account>)
    requires RecordsSound(s.stats, s.referrals) && SettleGame(s, p, layout, digest, passed).Ok?
    ensures var t := SettleGame(s, p, layout, digest, passed).value; RecordsSound(t.stats, t.referrals)
  {
    hide SessionEffect, MoneyKept, PayReferrer, PayTreasury, CheckLayout, RecordsSound;
    PaidRecords(s.lamports, s.stats, s.referrals, p, passed, s.sessions[p].bet);
  }

  lemma SessionRecords(s: State, step: SessionStep)
    requires RecordsSound(s.stats, s.referrals) && ApplySession(s, step).Ok?
    ensures var t := ApplySession(s, step).value; RecordsSound(t.stats, t.referrals)
  {
    hide SessionEffect, MoneyKept, SettleGame, EnsureStats, TakeBet, CheckBet, Fund, Drain, Move;
    match step {
      case Open(p, _, _, _) => OpenRecords(s, step);
      case Prove(p, l, d, passed) => ProveRecords(s, p, l, d, passed);
      case _ =>
    }
  }

  lemma OpenRecords(s: State, step: SessionStep)
    requires step.Open? && RecordsSound(s.stats, s.referrals) && ApplySession(s, step).Ok?
    ensures var t := ApplySession(s, step).value; RecordsSound(t.stats, t.referrals)
  {
    hide SessionEffect, MoneyKept, TakeBet, CheckBet, Fund, Drain, Move;
  }

  lemma ReferRecords(s: State, p: Id, k: Id)
    requires RecordsSound(s.stats, s.referrals) && SetReferrer(s, p, k).Ok?
    ensures var t := SetReferrer(s, p, k).value; RecordsSound(t.stats, t.referrals)
  {
    hide AdminEffect, MoneyKept, Fund, EnsureStats;
    StatsAreOpened(s, p);
  }

  lemma AdminRecords(s: State, step: AdminStep)
    requires RecordsSound(s.stats, s.referrals) && ApplyAdmin(s, step).Ok?
    ensures var t := ApplyAdmin(s, step).value; RecordsSound(t.stats, t.referrals)
  {
    hide SetReferrer, AdminEffect, MoneyKept, Move;
    if step.Refer? {
      ReferRecords(s, step.player, step.referrer);
    }
  }

  lemma DepositLeavesRecords(s: State, u: Id, n: nat)
    requires LpDeposit(s, u, n).Ok?
    ensures LpDeposit(s, u, n).value.stats == s.stats && LpDeposit(s, u, n).value.referrals == s.referrals
  {
    hide EnsurePosition, LpEffect, MoneyKept, Move, DepositToUnits, AdmitDeposit, Assets;
  }

  lemma LpLeavesRecords(s: State, step: LpStep)
    requires ApplyLp(s, step).Ok?
    ensures ApplyLp(s, step).value.stats == s.stats && ApplyLp(s, step).value.referrals == s.referrals
  {
    hide LpDeposit, LpEffect, MoneyKept, Move, Drain, UnitsToAssets, Assets;
    if step.Deposit? {
      DepositLeavesRecords(s, step.user, step.amount);
    }
  }

  lemma UnlockLeavesRecords(s: State, d: Account, x: bool)
    requires UnlockOperatorPosition(s, d, x).Ok?
    ensures var t := UnlockOperatorPosition(s, d, x).value; t.stats == s.stats && t.referrals == s.referrals
  {
    hide HouseEffect, MoneyKept, Move, UnitsToAssets, EnforceMinHealth, Assets;
  }

  lemma HouseLeavesRecords(s: State, step: HouseStep)
    requires ApplyHouse(s, step).Ok?
    ensures ApplyHouse(s, step).value.stats == s.stats && ApplyHouse(s, step).value.referrals == s.referrals
  {
    hide UnlockOperatorPosition, HouseEffect, MoneyKept, Move, UnitsToAssets, DepositToUnits, Assets;
    hide EnforceMinHealth, EnforceHouseFloor, UserUnitsTotal;
    if step.Unlock? {
      UnlockLeavesRecords(s, step.destination, step.executable);
    }
  }

  lemma StepKeepsRecords(s: State, step: Step)
    requires RecordsSound(s.stats, s.referrals)
    ensures RecordsSound(Next(s, step).stats, Next(s, step).referrals)
  {
    hide ApplyVrf, ApplySession, ApplyLp, ApplyHouse, ApplyAdmin, MoneyKept, RecordsSound;
    if Apply(s, step).Ok? {
      match step {
        case Vrf(v) => VrfRecords(s, v);
        case Legacy(g) => SessionRecords(s, g);
        case Admin(a) => AdminRecords(s, a);
        case Lp(l) => LpLeavesRecords(s, l);
        case House(h) => HouseLeavesRecords(s, h);
      }
    }
  }

  lemma {:induction false} RunKeepsRecords(s: State, steps: seq<Step>)
    requires RecordsSound(s.stats, s.referrals)
    ensures RecordsSound(Run(s, steps).stats, Run(s, steps).referrals)
    decreases |steps|
  {
    hide Next, RecordsSound, MoneyKept;
    if steps != [] {
      StepKeepsRecords(s, steps[0]);
      RunKeepsRecords(Next(s, steps[0]), steps[1..]);
    }
  }

  /** The referral account is the referrer's, where there is a referrer and one is passed. */
  predicate AccountMatches(referrer: Option<Id>, passed: Option<Account>) {
    referrer.Some? && passed.Some? ==> passed.value == ReferralPda(referrer.value)
  }

  /**
   Over every run from `initialize_v2`: a landed round in a funded vault settles if and only if the referral
   account passed is the referrer's and valuing the pending units fits a u128.
   */
  lemma ReachableSettles(s: State, steps: seq<Step>, p: Id, passed: Option<Account>)
    requires Genesis(s) && RecordsSound(s.stats, s.referrals) && Funded(Run(s, steps)) && Landed(Run(s, steps), p)
    ensures var t := Run(s, steps);
            && p in t.stats && t.games[p].game.safe + t.claims[p].mines <= GRID_SIZE && t.claims[p].edge <= BPS
            && (AccountMatches(t.stats[p], passed) <==> RecordFits(t.referrals, t.stats[p], passed))
            && (SettleVrf(t, p, passed).Ok? <==>
                  AccountMatches(t.stats[p], passed) && PendingPriced(t.vault, t.v2, AfterPayment(t, p, passed)))
  {
    hide Genesis, Inv, Run, SettleVrf, Funded, Landed, AfterPayment;
    ReachableInv(s, steps);
    RunKeepsRecords(s, steps);
    LandedSettles(Run(s, steps), p, passed);
  }

  // ---------------------------------------------------------------- a referrer is for life

  lemma SessionKeepsStats(s: State, step: SessionStep, p: Id)
    requires p in s.stats && ApplySession(s, step).Ok?
    ensures p in ApplySession(s, step).value.stats && ApplySession(s, step).value.stats[p] == s.stats[p]
  {
    hide SessionEffect, MoneyKept, SettleGame, Fund, TakeBet, CheckBet, Drain, Move;
    if step.Prove? {
      ProofKeepsStats(s, step);
    }
  }

  lemma ProofKeepsStats(s: State, step: SessionStep)
    requires step.Prove? && ApplySession(s, step).Ok?
    ensures ApplySession(s, step).value.stats == s.stats
  {
    hide SessionEffect, MoneyKept, PayReferrer, PayTreasury, CalcHealth, MulDivFloor, CheckLayout, Assets;
  }

  lemma VrfKeepsStats(s: State, step: VrfStep, p: Id)
    requires p in s.stats && ApplyVrf(s, step).Ok?
    ensures p in ApplyVrf(s, step).value.stats && ApplyVrf(s, step).value.stats[p] == s.stats[p]
  {
    hide RoundEffect, MoneyKept, Reveal.Verify, Reveal.Award, PayRound, FundRound, TakeBet, CheckBet, Drain, CheckStalled;
    hide Reveal.RequestReveal, Reveal.RevealCallback, Reveal.CashOut, CheckDelegable, CheckVrfOpen, Move;
    if step.Start? {
      RoundOpensStats(s, step.player);
    }
  }

  lemma ReferKeepsStats(s: State, step: AdminStep, p: Id, k: Id)
    requires p in s.stats && s.stats[p] == Some(k) && ApplyAdmin(s, step).Ok?
    ensures p in ApplyAdmin(s, step).value.stats && ApplyAdmin(s, step).value.stats[p] == Some(k)
  {
    hide AdminEffect, MoneyKept, Fund, Move, EnsureStats;
    if step.Refer? {
      StatsAreOpened(s, step.player);
    }
  }

  lemma StepKeepsReferrer(s: State, step: Step, p: Id, k: Id)
    requires p in s.stats && s.stats[p] == Some(k)
    ensures p in Next(s, step).stats && Next(s, step).stats[p] == Some(k)
  {
    hide ApplyVrf, ApplySession, ApplyLp, ApplyHouse, ApplyAdmin, MoneyKept;
    if Apply(s, step).Ok? {
      match step {
        case Vrf(v) => VrfKeepsStats(s, v, p);
        case Legacy(g) => SessionKeepsStats(s, g, p);
        case Admin(a) => ReferKeepsStats(s, a, p, k);
        case Lp(l) => LpLeavesRecords(s, l);
        case House(h) => HouseLeavesRecords(s, h);
      }
    }
  }

  /** Once set, a player's referrer never changes, over any run. */
  lemma {:induction false} ReferrerIsForever(s: State, steps: seq<Step>, p: Id, k: Id)
    requires p in s.stats && s.stats[p] == Some(k)
    ensures p in Run(s, steps).stats && Run(s, steps).stats[p] == Some(k)
    decreases |steps|
  {
    hide Next, MoneyKept;
    if steps != [] {
      StepKeepsReferrer(s, steps[0], p, k);
      ReferrerIsForever(Next(s, steps[0]), steps[1..], p, k);
    }
  }

  /** A referrer's record is opened empty, or claimed where it was nobody's: back to bronze, with what it had earned. */
  lemma ReferOpens(s: State, p: Id, k: Id)
    requires SetReferrer(s, p, k).Ok?
    ensures var t := SetReferrer(s, p, k).value;
            && p != k && p in t.stats && t.stats[p] == Some(k) && (p in s.stats ==> s.stats[p].None?)
            && k in t.referrals && t.referrals - {k} == s.referrals - {k}
            && (k !in s.referrals ==> t.referrals[k] == Referral(k, 0, 0, 0))
            && (k in s.referrals && s.referrals[k].referrer != 0 ==> t.referrals[k] == s.referrals[k])
            && (k in s.referrals && s.referrals[k].referrer == 0 ==>
                  t.referrals[k] == Referral(k, 0, s.referrals[k].accrued, s.referrals[k].volume))
  {
    hide AdminEffect, MoneyKept, Fund, EnsureStats;
    StatsAreOpened(s, p);
  }

  // ---------------------------------------------------------------- what a record is credited

  /** The player whose settled bet a transaction reports to k's record. */
  predicate Credits(s: State, step: Step, k: Id) {
    match step
    case Vrf(Settle(p, passed)) => p in s.stats && s.stats[p] == Some(k) && passed.Some?
    case Legacy(Prove(p, _, _, passed)) => p in s.stats && s.stats[p] == Some(k) && passed.Some?
    case _ => false
  }

  function BetSettled(s: State, step: Step): nat {
    match step
    case Vrf(Settle(p, _)) => BetOf(s, p)
    case Legacy(Prove(p, _, _, _)) => if p in s.sessions then s.sessions[p].bet else 0
    case _ => 0
  }

  /** The referrer's part of that bet, as far as assets go once the player has been paid. */
  function CutPaid(s: State, step: Step): nat {
    match step
    case Vrf(Settle(p, passed)) => ReferrerCut(s, p, passed, BetOf(s, p), SatSub(Assets(s.lamports), Prize(s, p)))
    case Legacy(Prove(p, _, _, passed)) => ReferrerCut(s, p, passed, BetSettled(s, step), Assets(s.lamports))
    case _ => 0
  }

  /** Ten SOL of referred bets make a silver referrer, a hundred a gold one. */
  function Level(volume: nat): nat {
    if volume < 10_000_000_000 then 0 else if volume < 100_000_000_000 then 1 else 2
  }

  function Credited(r: Referral, k: Id, cut: nat, bet: nat): Referral {
    var volume := SatAdd(r.volume, bet);
    Referral(k, Level(volume), SatAdd(r.accrued, cut), volume)
  }

  lemma PayCredits(s: State, l: Lamports, p: Id, passed: Option<Account>, bet: nat, k: Id)
    requires k in s.referrals && p in s.stats && PayReferrer(l, s.referrals, s.stats[p], passed, bet).Ok?
    ensures var after := PayReferrer(l, s.referrals, s.stats[p], passed, bet).value.referrals;
            && k in after
            && after[k] == if s.stats[p] == Some(k) && passed.Some?
                           then Credited(s.referrals[k], k, ReferrerCut(s, p, passed, bet, Assets(l)), bet) else s.referrals[k]
  {
    hide Move, Assets, MoneyKept;
  }

  lemma RoundCredits(s: State, p: Id, payout: nat, reserved: nat, bet: nat, passed: Option<Account>, k: Id)
    requires k in s.referrals && p in s.stats && PayRound(s.(v2 := Release(s.v2, reserved)), p, payout, bet, passed).Ok?
    ensures var after := PayRound(s.(v2 := Release(s.v2, reserved)), p, payout, bet, passed).value.referrals;
            && k in after
            && after[k] == if s.stats[p] == Some(k) && passed.Some?
                           then Credited(s.referrals[k], k,
                                         ReferrerCut(s, p, passed, bet, SatSub(Assets(s.lamports), payout)), bet)
                           else s.referrals[k]
  {
    hide Move, PayReferrer, PayTreasury, Assets, Bal, MoneyKept, ReferrerCut, Credited;
    var l1 := Move(s.lamports, VaultPda, Wallet(p), payout).value;
    AssetsAfter(s.lamports, Wallet(p), payout);
    PayCredits(s, l1, p, passed, bet, k);
  }

  lemma SettleCredits(s: State, p: Id, passed: Option<Account>, k: Id)
    requires k in s.referrals && SettleVrf(s, p, passed).Ok?
    ensures var step, t := Vrf(Settle(p, passed)), SettleVrf(s, p, passed).value;
            && k in t.referrals
            && t.referrals[k] == if Credits(s, step, k) then Credited(s.referrals[k], k, CutPaid(s, step), BetSettled(s, step))
                                 else s.referrals[k]
  {
    hide Reveal.Verify, Reveal.Award, PayRound, Drain, RoundEffect, ReferrerCut, Prize, Credited, Assets;
    var c := s.claims[p];
    AwardIsPrize(s, p);
    RoundCredits(s, p, Prize(s, p), c.reserved, c.bet, passed, k);
  }

  lemma ProofCredits(s: State, p: Id, layout: set<nat>, digest: Digest, passed: Option<Account>, k: Id)
    requires k in s.referrals && SettleGame(s, p, layout, digest, passed).Ok?
    ensures var step, t := Legacy(Prove(p, layout, digest, passed)), SettleGame(s, p, layout, digest, passed).value;
            && k in t.referrals
            && t.referrals[k] == if Credits(s, step, k) then Credited(s.referrals[k], k, CutPaid(s, step), BetSettled(s, step))
                                 else s.referrals[k]
  {
    hide SessionEffect, PayReferrer, PayTreasury, CalcHealth, MulDivFloor, CheckLayout, ReferrerCut, Credited, Assets, MoneyKept;
    PayCredits(s, s.lamports, p, passed, s.sessions[p].bet, k);
  }
}
