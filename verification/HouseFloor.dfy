/** The floor on the house's ownership of the pool, over whole runs. */
module HouseFloor {
  import opened Prelude
  import opened Arith
  import opened Ledger
  import opened Handlers
  import opened Runs
  import Sums

  function UserUnits(v2: V2State): int {
    v2.totalUnits - OperatorUnits(v2)
  }

  /** The house holds its configured share of the units that are neither seed nor leaving. */
  predicate FloorHolds(s: State) {
    s.v2.minHouseShare * (s.v2.houseUnits + UserUnits(s.v2)) <= s.v2.houseUnits * BPS
  }

  /** Everything but the operator's exit and a raise of the floor itself. */
  predicate FloorStep(s: State, step: Step) {
    match step
    case House(Unlock(_, _)) => false
    case Admin(ConfigureV2(u)) => Or(u.minHouseShare, s.v2.minHouseShare) <= s.v2.minHouseShare
    case _ => true
  }

  predicate AllFloorSteps(s: State, steps: seq<Step>)
    decreases |steps|
  {
    steps == [] || (FloorStep(s, steps[0]) && AllFloorSteps(Next(s, steps[0]), steps[1..]))
  }

  /** In every reachable state the units the floor is checked against are the users' own. */
  lemma UsersAreCounted(s: State)
    requires UnitsConserved(s)
    ensures UserUnitsTotal(s.v2) == Ok(Sums.Sum(s.positions, UnitsOf))
    ensures UserUnits(s.v2) == Sums.Sum(s.positions, UnitsOf)
  {}

  lemma FewerUsers(share: nat, house: nat, users: nat, users': nat)
    requires share * (house + users) <= house * BPS && users' <= users
    ensures share * (house + users') <= house * BPS
  {
    MulMono(house + users', house + users, share);
  }

  lemma MoreHouse(share: nat, house: nat, users: nat, more: nat)
    requires share * (house + users) <= house * BPS && share <= BPS
    ensures share * (house + more + users) <= (house + more) * BPS
  {
    MulMono(share, BPS, more);
    assert share * (house + more + users) == share * (house + users) + share * more;
  }

  lemma LowerFloor(share: nat, share': nat, all: nat, house: nat)
    requires share * all <= house * BPS && share' <= share
    ensures share' * all <= house * BPS
  {
    MulMono(share', share, all);
  }

  lemma LpKeepsFloor(s: State, step: LpStep)
    requires UnitsConserved(s) && FloorHolds(s) && ApplyLp(s, step).Ok?
    ensures FloorHolds(ApplyLp(s, step).value)
  {
    hide LpEffect, LpDeposit, UnitsConserved, FloorHolds;
    hide FundVault, RequestWithdraw, CancelWithdraw, CompleteWithdraw, CloseLpPosition;
    if step.Deposit? {
      DepositMeetsFloor(s, step.user, step.amount);
    } else {
      OnlyDepositsMint(s, step);
      WithoutMint(s, step);
    }
  }

  lemma WithoutMint(s: State, step: LpStep)
    requires UnitsConserved(s) && FloorHolds(s) && ApplyLp(s, step).Ok?
    requires ApplyLp(s, step).value.v2.totalUnits <= s.v2.totalUnits
    ensures FloorHolds(ApplyLp(s, step).value)
  {
    hide ApplyLp, MoneyKept;
    var t := ApplyLp(s, step).value;
    StepKeepsUnits(s, Lp(step));
    FewerUsers(s.v2.minHouseShare, s.v2.houseUnits, Sums.Sum(s.positions, UnitsOf), Sums.Sum(t.positions, UnitsOf));
  }

  lemma DepositMeetsFloor(s: State, u: Id, n: nat)
    requires LpDeposit(s, u, n).Ok?
    ensures FloorHolds(LpDeposit(s, u, n).value)
  {
    hide DepositToUnits, UnitsToAssets, CalcHealth, EnforcePositionCap, EnforceMinHealth, LpEffect, Move, Fund;
  }

  lemma OnlyDepositsMint(s: State, step: LpStep)
    requires !step.Deposit? && ApplyLp(s, step).Ok?
    ensures ApplyLp(s, step).value.v2.totalUnits <= s.v2.totalUnits
  {
    hide LpDeposit, UnitsToAssets, Move, Drain, LpEffect;
  }

  lemma HouseKeepsFloor(s: State, step: HouseStep)
    requires UnitsConserved(s) && ConfigSound(s) && FloorHolds(s) && !step.Unlock? && ApplyHouse(s, step).Ok?
    ensures FloorHolds(ApplyHouse(s, step).value)
  {
    var t := ApplyHouse(s, step).value;
    assert UserUnits(t.v2) == UserUnits(s.v2) by { hide ApplyHouse; }
    if step.HouseRequest? {
      RequestMeetsFloor(s, step.units);
    } else {
      assert s.v2.houseUnits <= t.v2.houseUnits && t.v2.minHouseShare == s.v2.minHouseShare by {
        hide DepositToUnits, UnitsToAssets, Move, UnlockOperatorPosition, HouseRequestWithdraw;
      }
      hide ApplyHouse;
      UsersAreCounted(s);
      MoreHouse(s.v2.minHouseShare, s.v2.houseUnits, UserUnits(s.v2), t.v2.houseUnits - s.v2.houseUnits);
    }
  }

  lemma RequestMeetsFloor(s: State, units: nat)
    requires HouseRequestWithdraw(s, units).Ok?
    ensures FloorHolds(HouseRequestWithdraw(s, units).value)
  {}

  lemma AdminKeepsFloor(s: State, step: AdminStep)
    requires UnitsConserved(s) && FloorHolds(s) && FloorStep(s, Admin(step)) && ApplyAdmin(s, step).Ok?
    ensures FloorHolds(ApplyAdmin(s, step).value)
  {
    AdminKeepsShare(s, step);
    hide ApplyAdmin, MoneyKept;
    var t := ApplyAdmin(s, step).value;
    LowerFloor(s.v2.minHouseShare, t.v2.minHouseShare, s.v2.houseUnits + Sums.Sum(s.positions, UnitsOf), s.v2.houseUnits);
  }

  lemma AdminKeepsShare(s: State, step: AdminStep)
    requires FloorStep(s, Admin(step)) && ApplyAdmin(s, step).Ok?
    ensures ApplyAdmin(s, step).value.v2.minHouseShare <= s.v2.minHouseShare
  {
    hide SetReferrer, ClaimReferral, AdminEffect;
  }

  lemma StepKeepsFloor(s: State, step: Step)
    requires UnitsConserved(s) && ConfigSound(s) && FloorHolds(s) && FloorStep(s, step)
    ensures FloorHolds(Next(s, step))
  {
    hide ApplyVrf, ApplySession, ApplyLp, ApplyHouse, ApplyAdmin, MoneyKept;
    if Apply(s, step).Ok? {
      match step {
        case Lp(l) => LpKeepsFloor(s, l);
        case House(h) => HouseKeepsFloor(s, h);
        case Admin(a) => AdminKeepsFloor(s, a);
        case _ =>
      }
    }
  }

  lemma {:induction false} RunKeepsFloor(s: State, steps: seq<Step>)
    requires Inv(s) && FloorHolds(s) && AllFloorSteps(s, steps)
    ensures FloorHolds(Run(s, steps))
    decreases |steps|
  {
    hide Next, FloorHolds, FloorStep, MoneyKept;
    if steps != [] {
      StepKeepsFloor(s, steps[0]);
      StepKeepsInv(s, steps[0]);
      RunKeepsFloor(Next(s, steps[0]), steps[1..]);
    }
  }

  /**
   From `initialize_v2`, whatever users, players and the house do, the house keeps its share: only
   the operator's exit or a raise of the floor can leave it short.
   */
  lemma ReachableFloor(s: State, steps: seq<Step>)
    requires Genesis(s) && AllFloorSteps(s, steps)
    ensures HouseKeepsShare(Run(s, steps).v2)
  {
    hide Inv, FloorHolds, Run, MoneyKept, HouseKeepsShare;
    GenesisInv(s);
    GenesisFloor(s);
    RunKeepsFloor(s, steps);
    RunKeepsInv(s, steps);
    FloorMeansShare(Run(s, steps));
  }

  /** The floor in the program's own terms. */
  predicate HouseKeepsShare(v2: V2State) {
    UserUnitsTotal(v2).Ok? && v2.minHouseShare * (v2.houseUnits + UserUnitsTotal(v2).value) <= v2.houseUnits * BPS
  }

  lemma FloorMeansShare(s: State)
    requires Inv(s) && FloorHolds(s)
    ensures HouseKeepsShare(s.v2)
  {
    UsersAreCounted(s);
  }

  lemma GenesisFloor(s: State)
    requires Genesis(s)
    ensures FloorHolds(s)
  {
    hide SessionsSound;
  }

  /** The operator's exit keeps the floor only where there is none, or nobody is left to protect. */
  lemma UnlockDropsFloor(s: State, destination: Account, executable: bool)
    requires UnitsConserved(s) && UnlockOperatorPosition(s, destination, executable).Ok?
    ensures FloorHolds(UnlockOperatorPosition(s, destination, executable).value) <==>
            s.v2.minHouseShare == 0 || UserUnitsTotal(s.v2) == Ok(0)
  {
    hide UnitsToAssets, Move, EnforceMinHealth;
    UsersAreCounted(s);
    var share, users := s.v2.minHouseShare, UserUnits(s.v2);
    if share != 0 && users != 0 {
      MulMono2(1, share, 1, users);
    }
  }
}
