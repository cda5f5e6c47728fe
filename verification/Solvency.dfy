/** The vault can always pay what it has reserved, so no verified winner is turned away. */
module Solvency {
  import opened Prelude
  import opened Sums
  import opened Odds
  import opened Reveal
  import opened Ledger
  import opened Handlers
  import opened Runs

  ghost predicate Solvent(s: State) {
    s.v2.outstanding <= Assets(s.lamports)
  }

  /** What a session can still be paid: only one in play can be cashed out or refunded. */
  function PayableOf(id: Id, g: Session): nat {
    if g.status == Playing then g.maxPayout else 0
  }

  /** The reservations of both modes that can still be called on. */
  ghost function Payable(s: State): nat {
    Sum(s.claims, ReservedOf) + Sum(s.sessions, PayableOf)
  }

  /** The vault can pay everything that can still be called on. */
  ghost predicate Funded(s: State) {
    Payable(s) <= Assets(s.lamports)
  }

  lemma PayableWithinOutstanding(s: State)
    requires ReservationsExact(s)
    ensures Payable(s) <= s.v2.outstanding
  {
    SumMono(s.sessions, PayableOf, ObligationOf);
  }

  lemma SolventIsFunded(s: State)
    requires Inv(s) && Solvent(s)
    ensures Funded(s)
  {
    PayableWithinOutstanding(s);
  }

  /** An open claim is paid out of assets. */
  lemma ClaimFunded(s: State, p: Id)
    requires Funded(s) && p in s.claims
    ensures s.claims[p].reserved <= Assets(s.lamports)
  {
    SumAtLeast(s.claims, ReservedOf, p);
  }

  /** No referral cut is taken: the player has no referrer, or none was passed. */
  predicate NoRakeback(s: State, p: Id, referral: Option<Account>) {
    referral.None? || p !in s.stats || s.stats[p].None?
  }

  /**
   The steps covered. Left out are the ones capped by assets alone: LP, house and treasury
   withdrawals, referral cuts, and the commit-reveal mode.
   */
  predicate Covered(s: State, step: Step) {
    match step
    case Vrf(Settle(p, referral)) => NoRakeback(s, p, referral)
    case Vrf(_) => true
    case Lp(l) => !l.CompleteOut?
    case House(h) => !h.HouseComplete? && !h.TreasuryOut?
    case Legacy(_) => false
    case Admin(_) => true
  }

  predicate AllCovered(s: State, steps: seq<Step>)
    decreases |steps|
  {
    steps == [] || (Covered(s, steps[0]) && AllCovered(Next(s, steps[0]), steps[1..]))
  }

  /** Passing a non-zero health floor leaves assets above every obligation. */
  lemma HealthyMeansSolvent(v2: V2State, assets: nat)
    requires 0 < v2.minHealth && EnforceMinHealth(v2, assets) == Pass
    ensures v2.outstanding < assets
  {
    hide UnitsToAssets;
    var pendingValue := UnitsToAssets(v2.totalPending, assets, v2.totalUnits).value;
    FreeWhenHealthy(SatSub(assets, v2.outstanding + pendingValue), assets);
  }

  lemma FreeWhenHealthy(free: nat, assets: nat)
    requires 0 < assets && 0 < HealthOf(free, assets)
    ensures 0 < free
  {}

  // ---------------------------------------------------------------- step by step

  lemma StartSolvent(s: State, p: Id, session: Id, mines: nat, bet: nat)
    requires Inv(s) && StartGameVrf(s, p, session, mines, bet).Ok?
    ensures Solvent(StartGameVrf(s, p, session, mines, bet).value)
  {
    hide Quote, EnforceMinHealth, FundRound, RoundEffect, Inv;
    var t := StartGameVrf(s, p, session, mines, bet).value;
    assert ConfigSound(s) && MoneySound(s) by { ConfigOf(s); }
    HealthyMeansSolvent(t.v2, SatAdd(Assets(s.lamports), bet));
  }

  lemma ConfigOf(s: State)
    requires Inv(s)
    ensures ConfigSound(s) && MoneySound(s)
  {}

  /** An open claim's bet is inside its reservation, which is inside the accumulator. */
  lemma ClaimCovered(s: State, p: Id)
    requires Inv(s) && p in s.claims
    ensures Written(s.claims[p]) && s.claims[p].bet <= s.claims[p].reserved <= s.v2.outstanding
  {
    hide Honest;
    ClaimIsReserved(s, p);
    assert RoundSound(s, p);
    var c := s.claims[p];
    WorstCaseCoversBet(c.bet, c.mines, c.edge);
  }

  lemma SettleSolvent(s: State, p: Id, referral: Option<Account>)
    requires Inv(s) && Solvent(s) && SettleVrf(s, p, referral).Ok?
    requires Covered(s, Vrf(Settle(p, referral)))
    ensures Solvent(SettleVrf(s, p, referral).value)
  {
    hide Verify, PayTreasury, Inv, RoundEffect, Written;
    var c := s.claims[p];
    ClaimCovered(s, p);
    SettlementSound(c, s.games[p].game);
  }

  lemma VrfSolvent(s: State, step: VrfStep)
    requires Inv(s) && Solvent(s) && Covered(s, Vrf(step)) && ApplyVrf(s, step).Ok?
    ensures Solvent(ApplyVrf(s, step).value)
  {
    hide StartGameVrf, SettleVrf, Inv, Written, RoundEffect, Drain, RequestReveal, RevealCallback, CashOut, CheckDelegable;
    match step {
      case Start(p, k, m, b) => StartSolvent(s, p, k, m, b);
      case Settle(p, referral) => SettleSolvent(s, p, referral);
      case Refund(p, _) => ClaimCovered(s, p);
      case AdminRelease(p) => ClaimCovered(s, p);
      case _ =>
    }
  }

  lemma LpSolvent(s: State, step: LpStep)
    requires MoneySound(s) && Solvent(s) && !step.CompleteOut? && ApplyLp(s, step).Ok?
    ensures Solvent(ApplyLp(s, step).value)
  {
    hide DepositToUnits, UnitsToAssets, CalcHealth, EnforceHouseFloor, EnforcePositionCap, EnforceMinHealth, MoneyKept;
    hide UserUnitsTotal;
  }

  lemma HouseSolvent(s: State, step: HouseStep)
    requires Inv(s) && Solvent(s) && !step.HouseComplete? && !step.TreasuryOut? && ApplyHouse(s, step).Ok?
    ensures Solvent(ApplyHouse(s, step).value)
  {
    hide DepositToUnits, UnitsToAssets, EnforceHouseFloor, EnforceMinHealth, UserUnitsTotal, Inv;
    ConfigOf(s);
    if step.Unlock? {
      var t := ApplyHouse(s, step).value;
      HealthyMeansSolvent(t.v2, Assets(t.lamports));
    }
  }

  lemma StepSolvent(s: State, step: Step)
    requires Inv(s) && Solvent(s) && Covered(s, step)
    ensures Solvent(Next(s, step))
  {
    hide ApplyVrf, ApplySession, ApplyLp, ApplyHouse, ApplyAdmin, Inv, MoneyKept;
    ConfigOf(s);
    if Apply(s, step).Ok? {
      match step {
        case Vrf(v) => VrfSolvent(s, v);
        case Lp(l) => LpSolvent(s, l);
        case House(h) => HouseSolvent(s, h);
        case Admin(_) =>
        case Legacy(_) =>
      }
    }
  }

  lemma {:induction false} RunSolvent(s: State, steps: seq<Step>)
    requires Inv(s) && Solvent(s) && AllCovered(s, steps)
    ensures Inv(Run(s, steps)) && Solvent(Run(s, steps))
    decreases |steps|
  {
    hide Inv, Solvent, Next, Covered;
    if steps != [] {
      StepSolvent(s, steps[0]);
      StepKeepsInv(s, steps[0]);
      RunSolvent(Next(s, steps[0]), steps[1..]);
    }
  }

  /** From `initialize_v2`, any interleaving of covered transactions leaves assets above what is reserved. */
  lemma ReachableSolvent(s: State, steps: seq<Step>)
    requires Genesis(s) && AllCovered(s, steps)
    ensures Solvent(Run(s, steps))
  {
    GenesisInv(s);
    RunSolvent(s, steps);
  }
}
