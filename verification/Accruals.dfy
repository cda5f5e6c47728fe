/**
 Referral accounting over whole runs: what a record says is owed to its referrer is exactly the cuts paid less
 the claims made, and the record's own account always holds it, so a claim is paid in full.
 */
module Accruals {
  import opened Prelude
  import opened Odds
  import opened Reveal
  import opened Ledger
  import opened Handlers
  import opened Runs
  import opened Settlement
  import opened Payments
  import opened Referrals

  /** The record's account holds its rent and everything accrued. */
  predicate Held(s: State, k: Id) {
    k in s.referrals && Rent(REFERRAL_SPACE) + s.referrals[k].accrued <= Bal(s.lamports, ReferralPda(k))
  }

  /** What a transaction that succeeds adds to k's record, and what it takes out. */
  function Earned(s: State, step: Step, k: Id): nat {
    if Apply(s, step).Ok? && Credits(s, step, k) then CutPaid(s, step) else 0
  }

  function Taken(s: State, step: Step, k: Id): nat {
    if Apply(s, step).Ok? && step == Admin(ClaimCut(k)) && k in s.referrals then s.referrals[k].accrued else 0
  }

  // ---------------------------------------------------------------- the account

  lemma SettleFeeds(s: State, p: Id, passed: Option<Account>, k: Id)
    ensures AfterSettle(s, p, passed, ReferralPda(k)) >=
            Bal(s.lamports, ReferralPda(k))
            + if Credits(s, Vrf(Settle(p, passed)), k) then CutPaid(s, Vrf(Settle(p, passed))) else 0
  {
    hide Bal, Assets, TreasuryCut, ReferrerCut, Prize;
  }

  lemma VrfFeeds(s: State, step: VrfStep, k: Id)
    ensures AfterVrf(s, step, ReferralPda(k)) >=
            Bal(s.lamports, ReferralPda(k)) + if Credits(s, Vrf(step), k) then CutPaid(s, Vrf(step)) else 0
  {
    hide Bal, Assets, AfterSettle, ReferrerCut, Prize, Rent, RentDue;
    if step.Settle? {
      SettleFeeds(s, step.player, step.referral, k);
    }
  }

  lemma SessionFeeds(s: State, step: SessionStep, k: Id)
    ensures AfterSession(s, step, ReferralPda(k)) >=
            Bal(s.lamports, ReferralPda(k)) + if Credits(s, Legacy(step), k) then CutPaid(s, Legacy(step)) else 0
  {
    hide Bal, Assets, TreasuryCut, ReferrerCut, Rent, RentDue;
  }

  lemma PoolFeeds(s: State, step: Step, k: Id)
    requires (step.Lp? || step.House? || step.Admin?) && step != Admin(ClaimCut(k))
    ensures BalanceAfter(s, step, ReferralPda(k)) >= Bal(s.lamports, ReferralPda(k))
  {
    hide Bal, Assets, Rent, RentDue, Payments.Value;
  }

  /** Only a claim debits a record's account, and a cut credits it in full. */
  lemma AccountKept(s: State, step: Step, k: Id)
    requires Apply(s, step).Ok? && step != Admin(ClaimCut(k))
    ensures Bal(Next(s, step).lamports, ReferralPda(k)) >= Bal(s.lamports, ReferralPda(k)) + Earned(s, step, k)
  {
    hide Apply, Next, Bal, AfterVrf, AfterSession, AfterLp, AfterHouse, AfterAdmin, CutPaid, Credits;
    StepBalances(s, step, ReferralPda(k));
    match step {
      case Vrf(v) => VrfFeeds(s, v, k);
      case Legacy(g) => SessionFeeds(s, g, k);
      case _ => NoCredit(s, step, k); PoolFeeds(s, step, k);
    }
  }

  lemma NoCredit(s: State, step: Step, k: Id)
    requires step.Lp? || step.House? || step.Admin?
    ensures !Credits(s, step, k)
  {}

  // ---------------------------------------------------------------- the record

  lemma VrfLeavesRecord(s: State, step: VrfStep)
    requires !step.Settle? && ApplyVrf(s, step).Ok?
    ensures ApplyVrf(s, step).value.referrals == s.referrals
  {
    hide RoundEffect, MoneyKept, FundRound, TakeBet, CheckBet, Drain, CheckStalled, RequestReveal, RevealCallback, CashOut;
    hide CheckDelegable, CheckVrfOpen, Move, SettleVrf;
    if step.Start? {
      RoundOpensStats(s, step.player);
    }
  }

  lemma SessionLeavesRecord(s: State, step: SessionStep)
    requires !step.Prove? && ApplySession(s, step).Ok?
    ensures ApplySession(s, step).value.referrals == s.referrals
  {
    hide SessionEffect, MoneyKept, SettleGame, Fund, TakeBet, CheckBet, Drain, Move, CalcMultiplier, MulDivFloor;
  }

  lemma AdminLeavesRecord(s: State, step: AdminStep, k: Id)
    requires k in s.referrals && ApplyAdmin(s, step).Ok?
    ensures k in ApplyAdmin(s, step).value.referrals
    ensures step != ClaimCut(k) ==> ApplyAdmin(s, step).value.referrals[k].accrued == s.referrals[k].accrued
  {
    hide AdminEffect, MoneyKept, Fund, Move, EnsureStats;
    if step.Refer? {
      StatsAreOpened(s, step.player);
    }
  }

  /** What every transaction does to what a record has accrued, up to the width of a u64. */
  lemma RecordAccrues(s: State, step: Step, k: Id)
    requires k in s.referrals && Apply(s, step).Ok? && step != Admin(ClaimCut(k))
    ensures k in Next(s, step).referrals
    ensures Next(s, step).referrals[k].accrued ==
            if Credits(s, step, k) then SatAdd(s.referrals[k].accrued, CutPaid(s, step)) else s.referrals[k].accrued
  {
    hide ApplyVrf, ApplySession, ApplyLp, ApplyHouse, ApplyAdmin, MoneyKept, CutPaid;
    match step {
      case Vrf(Settle(p, passed)) => NextSettle(s, p, passed); SettleCredits(s, p, passed, k);
      case Legacy(Prove(p, l, d, passed)) => NextProve(s, p, l, d, passed); ProofCredits(s, p, l, d, passed, k);
      case Vrf(v) => VrfLeavesRecord(s, v);
      case Legacy(g) => SessionLeavesRecord(s, g);
      case Lp(l) => LpLeavesRecords(s, l);
      case House(h) => HouseLeavesRecords(s, h);
      case Admin(a) => AdminLeavesRecord(s, a, k);
    }
  }

  lemma NextSettle(s: State, p: Id, passed: Option<Account>)
    requires Apply(s, Vrf(Settle(p, passed))).Ok?
    ensures SettleVrf(s, p, passed) == Ok(Next(s, Vrf(Settle(p, passed))))
  {
    hide SettleVrf, MoneyKept;
  }

  lemma NextProve(s: State, p: Id, layout: set<nat>, digest: Digest, passed: Option<Account>)
    requires Apply(s, Legacy(Prove(p, layout, digest, passed))).Ok?
    ensures SettleGame(s, p, layout, digest, passed) == Ok(Next(s, Legacy(Prove(p, layout, digest, passed))))
  {
    hide SettleGame, MoneyKept;
  }

  // ---------------------------------------------------------------- paid in full

  /** A claim pays the referrer everything accrued, and leaves nothing owed. */
  lemma ClaimPaysAll(s: State, k: Id)
    requires Held(s, k) && Apply(s, Admin(ClaimCut(k))).Ok?
    ensures var t := Next(s, Admin(ClaimCut(k)));
            && Bal(t.lamports, Wallet(k)) == Bal(s.lamports, Wallet(k)) + s.referrals[k].accrued
            && k in t.referrals && t.referrals[k].accrued == 0 && Held(t, k)
  {
    StepBalances(s, Admin(ClaimCut(k)), Wallet(k));
    StepBalances(s, Admin(ClaimCut(k)), ReferralPda(k));
    assert k in Next(s, Admin(ClaimCut(k))).referrals && Next(s, Admin(ClaimCut(k))).referrals[k].accrued == 0 by {
      hide AdminEffect, MoneyKept, Move, Bal, BalanceAfter;
      assert ClaimReferral(s, k).Ok?;
    }
    hide Apply, Next, Bal, Rent;
  }

  /** Where the account is short, a claim leaves exactly what it did not pay. */
  lemma ClaimOwesTheRest(s: State, k: Id)
    requires ClaimReferral(s, k).Ok?
    ensures var t := ClaimReferral(s, k).value;
            && k in s.referrals && k in t.referrals
            && t.referrals[k].accrued + (Bal(t.lamports, Wallet(k)) - Bal(s.lamports, Wallet(k))) == s.referrals[k].accrued
            && t.referrals == s.referrals[k := s.referrals[k].(accrued := t.referrals[k].accrued)]
  {
    hide AdminEffect, Move, Bal, Rent;
    MoveBalance(s.lamports, ReferralPda(k), Wallet(k),
                Min(s.referrals[k].accrued, SatSub(Bal(s.lamports, ReferralPda(k)), Rent(REFERRAL_SPACE))), Wallet(k));
  }

  lemma StepKeepsHeld(s: State, step: Step, k: Id)
    requires MoneySound(s) && Held(s, k)
    ensures Held(Next(s, step), k)
    ensures Next(s, step).referrals[k].accrued + Taken(s, step, k) == s.referrals[k].accrued + Earned(s, step, k)
  {
    hide Apply, Bal, Rent, CutPaid, MoneySound;
    if Apply(s, step).Ok? {
      if step == Admin(ClaimCut(k)) {
        ClaimPaysAll(s, k);
        NoCredit(s, step, k);
      } else {
        AccountKept(s, step, k);
        RecordAccrues(s, step, k);
        AccountFits(Next(s, step), k) by { NextIsSound(s, step); }
      }
    }
  }

  lemma NextIsSound(s: State, step: Step)
    requires MoneySound(s)
    ensures MoneySound(Next(s, step))
  {
    hide Next;
  }

  lemma AccountFits(s: State, k: Id)
    requires MoneySound(s)
    ensures Bal(s.lamports, ReferralPda(k)) <= U64_MAX
  {
    BalanceBounded(s.lamports, ReferralPda(k));
  }

  function EarnedOver(s: State, steps: seq<Step>, k: Id): nat
    decreases |steps|
  {
    if steps == [] then 0 else Earned(s, steps[0], k) + EarnedOver(Next(s, steps[0]), steps[1..], k)
  }

  function TakenOver(s: State, steps: seq<Step>, k: Id): nat
    decreases |steps|
  {
    if steps == [] then 0 else Taken(s, steps[0], k) + TakenOver(Next(s, steps[0]), steps[1..], k)
  }

  /**
   Over any run: what is owed at the end and what was claimed on the way add up to what was owed before and
   the cuts earned, and the account holds it throughout.
   */
  lemma {:induction false} AccrualsConserved(s: State, steps: seq<Step>, k: Id)
    requires MoneySound(s) && Held(s, k)
    ensures Held(Run(s, steps), k)
    ensures Run(s, steps).referrals[k].accrued + TakenOver(s, steps, k) == s.referrals[k].accrued + EarnedOver(s, steps, k)
    decreases |steps|
  {
    hide Next, Earned, Taken, Held, MoneySound;
    if steps != [] {
      StepKeepsHeld(s, steps[0], k);
      HeldIsThere(s, k);
      HeldIsThere(Next(s, steps[0]), k);
      NextIsSound(s, steps[0]);
      AccrualsConserved(Next(s, steps[0]), steps[1..], k);
    }
  }

  /** A referrer's first player opens the record, and the account that holds it. */
  lemma OpenedHeld(s: State, p: Id, k: Id)
    requires k !in s.referrals && Apply(s, Admin(Refer(p, k))).Ok?
    ensures Held(Next(s, Admin(Refer(p, k))), k) && Next(s, Admin(Refer(p, k))).referrals[k] == Referral(k, 0, 0, 0)
  {
    StepBalances(s, Admin(Refer(p, k)), ReferralPda(k));
    assert SetReferrer(s, p, k) == Ok(Next(s, Admin(Refer(p, k)))) by { hide SetReferrer, MoneyKept; }
    hide Apply, Next, Bal, EnsureStats, Fund, MoneyKept, AdminEffect, Rent;
  }

  lemma HeldIsThere(s: State, k: Id)
    requires Held(s, k)
    ensures k in s.referrals
  {}
}
