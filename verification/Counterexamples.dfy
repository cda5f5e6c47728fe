/**
 Two runs from `initialize_v2` in which a promise does not hold: a group gains by another's rounding, and
 a verified round cannot be settled.
 */
module Counterexamples {
  import opened Prelude
  import opened Arith
  import opened Odds
  import opened Reveal
  import opened Sums
  import opened Ledger
  import opened Handlers
  import opened Runs
  import opened Solvency
  import opened Settlement
  import opened Pricing
  import opened Example

  // ---------------------------------------------------------------- single transactions

  /** Everything but the vault's and one wallet's balance is as it was. */
  ghost predicate Elsewhere(l: Lamports, l': Lamports, wallet: Id) {
    forall a: Account | a != VaultPda && a != Wallet(wallet) :: Bal(l', a) == Bal(l, a)
  }

  lemma DonationGoesThrough(s: State, f: Id, n: nat)
    requires MoneySound(s) && 0 < n <= Bal(s.lamports, Wallet(f))
    ensures var t := Next(s, Lp(Donate(f, n)));
            && t == s.(lamports := t.lamports) && MoneySound(t) && FundVault(s, f, n) == Ok(t)
            && Assets(t.lamports) == Assets(s.lamports) + n && Elsewhere(s.lamports, t.lamports, f)
            && Bal(t.lamports, Wallet(f)) == Bal(s.lamports, Wallet(f)) - n
  {
    hide LpEffect;
  }

  // ---------------------------------------------------------------- rounding enriches

  const DEPOSIT: nat := 10_000_000

  /** The player donates one lamport and then deposits ten million. */
  const ROUNDING: seq<Step> := [Lp(Donate(PLAYER, 1)), Lp(Deposit(PLAYER, DEPOSIT))]

  /** The operator, with the seed and the house's units. */
  const OPERATOR: Group := Group({}, true)

  lemma SmallDepositAdmitted(v2: V2State, minted: nat)
    requires v2 == START.v2.(totalUnits := BANKROLL + minted) && minted == 9_999_999
    ensures AdmitDeposit(v2, BANKROLL + 1 + DEPOSIT, Position(minted, 0, 0)) == Ok(())
  {
    var assets := BANKROLL + 1 + DEPOSIT;
    FullHealth(v2, assets);
    assert UserUnitsTotal(v2) == Ok(minted);
    assert EnforceHouseFloor(v2.houseUnits, minted, v2.minHouseShare) == Pass;
    assert UnitsToAssets(minted, assets, v2.totalUnits).Ok? && UnitsToAssets(minted, assets, v2.totalUnits).value <= DEPOSIT by {
      DivAtMost(DEPOSIT, minted * assets, v2.totalUnits);
    }
    assert EnforcePositionCap(UnitsToAssets(minted, assets, v2.totalUnits).value, assets, BPS, v2.maxUserPosition) == Pass;
    hide UnitsToAssets, CalcHealth, EnforceMinHealth, EnforceHouseFloor, EnforcePositionCap, UserUnitsTotal;
  }

  lemma DepositIsMinted()
    ensures DepositToUnits(DEPOSIT, BANKROLL + 1, BANKROLL) == Ok(9_999_999)
  {
    DivAtLeast(9_999_999, DEPOSIT * BANKROLL, BANKROLL + 1);
    DivAtMost(9_999_999, DEPOSIT * BANKROLL, BANKROLL + 1);
  }

  /** A first deposit whose units, floor, cap and health check out. */
  lemma FirstDepositGoesThrough(s: State, u: Id, n: nat, minted: nat)
    requires MoneySound(s) && u !in s.positions && !s.vault.paused && s.v2.minDeposit <= n && 0 < minted && 0 < Assets(s.lamports)
    requires Rent(POSITION_SPACE) + n <= Bal(s.lamports, Wallet(u)) && Assets(s.lamports) + n <= U64_MAX
    requires DepositToUnits(n, Assets(s.lamports), s.v2.totalUnits) == Ok(minted) && s.v2.totalUnits + minted <= U128_MAX
    requires AdmitDeposit(s.v2.(totalUnits := s.v2.totalUnits + minted), Assets(s.lamports) + n, Position(minted, 0, 0)) == Ok(())
    ensures var t := Next(s, Lp(Deposit(u, n)));
            && LpDeposit(s, u, n) == Ok(t) && MoneySound(t)
            && t == s.(lamports := t.lamports, v2 := s.v2.(totalUnits := s.v2.totalUnits + minted),
                       positions := s.positions[u := Position(minted, 0, 0)])
            && Assets(t.lamports) == Assets(s.lamports) + n
            && Bal(s.lamports, Wallet(u)) <= Bal(t.lamports, Wallet(u)) + n + Rent(POSITION_SPACE)
            && forall w | w != u :: Bal(t.lamports, Wallet(w)) == Bal(s.lamports, Wallet(w))
  {
    hide LpDeposit, AdmitDeposit, DepositToUnits, LpEffect;
    DepositSucceeds(s, u, n, minted);
    NextDeposit(s, u, n);
  }

  lemma NextDeposit(s: State, u: Id, n: nat)
    requires MoneySound(s) && LpDeposit(s, u, n).Ok?
    ensures Next(s, Lp(Deposit(u, n))) == LpDeposit(s, u, n).value && MoneySound(LpDeposit(s, u, n).value)
  {
    hide LpDeposit;
  }

  lemma DepositSucceeds(s: State, u: Id, n: nat, minted: nat)
    requires MoneySound(s) && u !in s.positions && !s.vault.paused && s.v2.minDeposit <= n && 0 < minted && 0 < Assets(s.lamports)
    requires Rent(POSITION_SPACE) + n <= Bal(s.lamports, Wallet(u)) && Assets(s.lamports) + n <= U64_MAX
    requires DepositToUnits(n, Assets(s.lamports), s.v2.totalUnits) == Ok(minted) && s.v2.totalUnits + minted <= U128_MAX
    requires AdmitDeposit(s.v2.(totalUnits := s.v2.totalUnits + minted), Assets(s.lamports) + n, Position(minted, 0, 0)) == Ok(())
    ensures LpDeposit(s, u, n).Ok?
    ensures var t := LpDeposit(s, u, n).value;
            && t == s.(lamports := t.lamports, v2 := s.v2.(totalUnits := s.v2.totalUnits + minted),
                       positions := s.positions[u := Position(minted, 0, 0)])
            && Assets(t.lamports) == Assets(s.lamports) + n
            && Bal(s.lamports, Wallet(u)) <= Bal(t.lamports, Wallet(u)) + n + Rent(POSITION_SPACE)
            && forall w | w != u :: Bal(t.lamports, Wallet(w)) == Bal(s.lamports, Wallet(w))
  {
    hide EnsurePosition, AdmitDeposit, DepositToUnits, Move, Assets, Bal, LpEffect, MoneyKept;
    OpeningGoesThrough(s, u);
    var l := EnsurePosition(s, u).value.lamports;
    OpeningMoney(s, u);
    SameAssets(s.lamports, l);
    DepositMoves(l, u, n);
  }

  lemma OpeningMoney(s: State, u: Id)
    requires Total(s.lamports) <= U64_MAX && EnsurePosition(s, u).Ok?
    ensures Total(EnsurePosition(s, u).value.lamports) <= U64_MAX
    ensures Bal(EnsurePosition(s, u).value.lamports, VaultPda) == Bal(s.lamports, VaultPda)
  {
    hide EnsurePosition;
  }

  lemma OpeningGoesThrough(s: State, u: Id)
    requires Total(s.lamports) <= U64_MAX && u !in s.positions && Rent(POSITION_SPACE) <= Bal(s.lamports, Wallet(u))
    ensures EnsurePosition(s, u).Ok?
    ensures var t := EnsurePosition(s, u).value;
            && t == s.(lamports := t.lamports, positions := s.positions[u := Position(0, 0, 0)])
            && Bal(s.lamports, Wallet(u)) <= Bal(t.lamports, Wallet(u)) + Rent(POSITION_SPACE)
            && forall w | w != u :: Bal(t.lamports, Wallet(w)) == Bal(s.lamports, Wallet(w))
  {}

  lemma SameAssets(l: Lamports, l': Lamports)
    requires Bal(l', VaultPda) == Bal(l, VaultPda)
    ensures Assets(l') == Assets(l)
  {}

  lemma DepositMoves(l: Lamports, u: Id, n: nat)
    requires Total(l) <= U64_MAX && n <= Bal(l, Wallet(u)) && 0 < Assets(l)
    ensures Move(l, Wallet(u), VaultPda, n).Ok?
    ensures var l' := Move(l, Wallet(u), VaultPda, n).value;
            && Assets(l') == Assets(l) + n && Bal(l', Wallet(u)) == Bal(l, Wallet(u)) - n
            && forall w | w != u :: Bal(l', Wallet(w)) == Bal(l, Wallet(w))
  {}

  /** After the donation, the deposit buys 9_999_999 units at a price just above one lamport. */
  lemma DepositGoesThrough(s: State)
    requires MoneySound(s) && s == START.(lamports := s.lamports) && Assets(s.lamports) == BANKROLL + 1
    requires 2 * STAKE <= Bal(s.lamports, Wallet(PLAYER))
    ensures var t := Next(s, Lp(Deposit(PLAYER, DEPOSIT)));
            && LpDeposit(s, PLAYER, DEPOSIT) == Ok(t)
            && t.v2.totalUnits == BANKROLL + 9_999_999
            && Assets(t.lamports) == BANKROLL + 1 + DEPOSIT
            && t.positions == map[PLAYER := Position(9_999_999, 0, 0)]
  {
    DepositIsMinted();
    SmallDepositAdmitted(s.v2.(totalUnits := BANKROLL + 9_999_999), 9_999_999);
    hide AdmitDeposit, DepositToUnits, Assets, Bal, Next;
    FirstDepositGoesThrough(s, PLAYER, DEPOSIT, 9_999_999);
  }

  function Donated(): State {
    Next(START, Lp(Donate(PLAYER, 1)))
  }

  function Deposited(): State {
    Next(Donated(), Lp(Deposit(PLAYER, DEPOSIT)))
  }

  lemma RoundingGoesThrough()
    ensures Genesis(START) && Assets(START.lamports) == BANKROLL
    ensures Donated().v2 == START.v2 && Assets(Donated().lamports) == BANKROLL + 1
    ensures Deposited().v2.totalUnits == BANKROLL + 9_999_999 && Assets(Deposited().lamports) == BANKROLL + 1 + DEPOSIT
    ensures Deposited().positions == map[PLAYER := Position(9_999_999, 0, 0)]
  {
    hide Next, Genesis, Assets;
    StartIsGenesis();
    GenesisMoney();
    DonationGoesThrough(START, PLAYER, 1);
    DepositGoesThrough(Donated());
  }

  lemma GenesisMoney()
    ensures MoneySound(START)
  {
    StartIsGenesis();
  }

  lemma RunsRounding()
    ensures Run(START, ROUNDING) == Deposited()
    ensures 0 < Donated().v2.totalUnits && 0 < Deposited().v2.totalUnits ==> UnitsThroughout(START, ROUNDING)
  {
    hide Next, Run, MoneyKept;
    var last := ROUNDING[1];
    assert ROUNDING == [ROUNDING[0]] + ([last] + []) && ROUNDING[1..] == [last] && [last][1..] == [];
    RunFirst(START, ROUNDING[0], [last] + []);
    RunFirst(Donated(), last, []);
    RunNothing(Deposited());
    assert UnitsThroughout(Deposited(), []) <==> 0 < Deposited().v2.totalUnits;
    assert UnitsThroughout(Donated(), [last]) <==> 0 < Donated().v2.totalUnits && UnitsThroughout(Deposited(), []);
  }

  lemma RoundingFlows()
    requires Assets(START.lamports) == BANKROLL && Assets(Donated().lamports) == BANKROLL + 1
    ensures PutIn(START, ROUNDING, OPERATOR) == 1 && TakenOut(START, ROUNDING, OPERATOR) == 0
  {
    hide Next, Assets, MoneyKept;
    var last := ROUNDING[1];
    assert ROUNDING[1..] == [last] && [last][1..] == [];
    assert PutIn(Deposited(), [], OPERATOR) == 0 && TakenOut(Deposited(), [], OPERATOR) == 0;
    assert PutIn(Donated(), [last], OPERATOR) == 0 && TakenOut(Donated(), [last], OPERATOR) == 0;
    assert FlowIn(START, ROUNDING[0], OPERATOR) == 1 && FlowOut(START, ROUNDING[0], OPERATOR) == 0;
  }

  /** The operator's share is worth more than it started with and was given, although it did nothing. */
  lemma RoundedDepositEnriches()
    ensures Genesis(START) && UnitsThroughout(START, ROUNDING) && (forall step | step in ROUNDING :: PoolStep(step))
    ensures 0 < Run(START, ROUNDING).v2.totalUnits
    ensures Value(START, OPERATOR) + (PutIn(START, ROUNDING, OPERATOR) as real)
            < Value(Run(START, ROUNDING), OPERATOR) + (TakenOut(START, ROUNDING, OPERATOR) as real)
  {
    hide Genesis, Run, Donated, Deposited, UnitsThroughout, PutIn, TakenOut, Value, Assets;
    RoundingGoesThrough();
    RunsRounding();
    RoundingFlows();
    OperatorAtStart();
    OperatorAtEnd(Deposited());
  }

  lemma OperatorAtStart()
    ensures Value(START, OPERATOR) == BANKROLL as real
  {
    StartIsGenesis();
  }

  lemma OperatorAtEnd(t: State)
    requires t.v2.totalUnits == BANKROLL + 9_999_999 && Assets(t.lamports) == BANKROLL + 1 + DEPOSIT
    requires t.positions == map[PLAYER := Position(9_999_999, 0, 0)]
    ensures (BANKROLL as real) + 1.0 < Value(t, OPERATOR)
  {
    SumUpdate<Id, Position>(map[], OutsideOf(OPERATOR), PLAYER, Position(9_999_999, 0, 0));
    assert map[][PLAYER := Position(9_999_999, 0, 0)] == t.positions;
    assert Outside(t, OPERATOR) == 9_999_999;
    ValueOfUnits(t, OPERATOR);
    assert Price(t) * (t.v2.totalUnits as real) == (BANKROLL + 1 + DEPOSIT) as real;
  }

  // ---------------------------------------------------------------- a round that cannot settle

  const LARGE: nat := 10_000_000_000_000
  const GIFT: nat := 1_000_000_000_000_000
  const TREASURY: Account := Wallet(6)

  /** No floor on the house's share, no cap on a position, and VRF mode on. */
  const OPEN_POOL: V2Update := V2Update(Some(0), Some(0), None, None, None, Some(true), Some(VALIDATOR), Some(500))

  /** Units once the treasury has left one lamport and a provider has bought in. */
  const UNITS: nat := BANKROLL + LARGE * BANKROLL
  const LEAVING: nat := BANKROLL * BANKROLL

  /** The treasury empties the pool, units inflate, a tenth of them are leaving, and a gift raises the assets. */
  const SETUP: seq<Step> := [
    Admin(ConfigureV2(OPEN_POOL)), House(TreasuryOut(TREASURY, false, BANKROLL - 1)), Lp(Deposit(PROVIDER, LARGE)),
    Lp(RequestOut(PROVIDER, LEAVING)), Vrf(VrfStep.Start(PLAYER, SESSION_KEY, 15, STAKE)), Lp(Donate(PROVIDER, GIFT))]

  /** A ledger without rounds, by its pot and the provider's savings. */
  ghost predicate Stage(s: State, pot: nat, savings: nat) {
    && MoneySound(s) && Assets(s.lamports) == pot && savings <= Bal(s.lamports, Wallet(PROVIDER))
    && Bal(s.lamports, Wallet(PLAYER)) == 10 * STAKE
    && s.claims == map[] && s.games == map[] && s.sessions == map[] && PLAYER !in s.stats && s.vault == SETTINGS
  }

  /** The pool's state, up to the settings nothing here reads. */
  predicate PoolIs(v2: V2State, units: nat, pending: nat, outstanding: nat) {
    && v2.totalUnits == units && v2.totalPending == pending && v2.outstanding == outstanding
    && v2.minHouseShare == 0 && v2.maxUserPosition == 0 && v2.minHealth == 1_000 && v2.minDeposit <= LARGE
    && v2.seedUnits + v2.houseUnits + v2.housePending <= units
    && CheckVrfOpen(v2) == Pass && v2.vrfMaxPayoutBps == 500
  }

  lemma OpensPool()
    ensures Stage(Next(START, SETUP[0]), BANKROLL, SAVINGS) && PoolIs(Next(START, SETUP[0]).v2, BANKROLL, 0, 0)
    ensures Next(START, SETUP[0]).positions == map[]
  {
    StartIsGenesis();
    hide MoneyKept;
  }

  lemma Drains(s: State)
    requires Stage(s, BANKROLL, SAVINGS)
    ensures var t := Next(s, SETUP[1]); Stage(t, 1, SAVINGS) && t.v2 == s.v2 && t.positions == s.positions
  {
    hide HouseEffect;
  }

  lemma Inflates(s: State)
    requires Stage(s, 1, SAVINGS) && PoolIs(s.v2, BANKROLL, 0, 0) && s.positions == map[]
    ensures var t := Next(s, SETUP[2]);
            && Stage(t, LARGE + 1, GIFT) && PoolIs(t.v2, UNITS, 0, 0)
            && t.positions == map[PROVIDER := Position(LARGE * BANKROLL, 0, 0)]
  {
    var minted := LARGE * BANKROLL;
    assert DepositToUnits(LARGE, 1, BANKROLL) == Ok(minted);
    hide Next, Assets, Bal, AdmitDeposit, DepositToUnits, MoneySound, CheckVrfOpen;
    LargeDepositAdmitted(s.v2.(totalUnits := UNITS), minted);
    assert MoneySound(s) && Assets(s.lamports) == 1;
    FirstDepositGoesThrough(s, PROVIDER, LARGE, minted);
  }

  lemma LargeDepositAdmitted(v2: V2State, minted: nat)
    requires PoolIs(v2, UNITS, 0, 0) && v2.seedUnits + v2.houseUnits + v2.housePending <= BANKROLL && minted == LARGE * BANKROLL
    ensures AdmitDeposit(v2, 1 + LARGE, Position(minted, 0, 0)) == Ok(())
  {
    assert UserUnitsTotal(v2).Ok?;
    assert UnitsToAssets(minted, 1 + LARGE, UNITS) == Ok(LARGE) by {
      DivAtLeast(LARGE, minted * (1 + LARGE), UNITS);
      DivAtMost(LARGE, minted * (1 + LARGE), UNITS);
    }
    DivAtLeast(BPS, (1 + LARGE) * BPS, 1 + LARGE);
    assert CalcHealth(v2, 1 + LARGE) == Ok(BPS);
  }

  lemma Leaves(s: State)
    requires Stage(s, LARGE + 1, GIFT) && PoolIs(s.v2, UNITS, 0, 0)
    requires s.positions == map[PROVIDER := Position(LARGE * BANKROLL, 0, 0)]
    ensures var t := Next(s, SETUP[3]); Stage(t, LARGE + 1, GIFT) && PoolIs(t.v2, UNITS, LEAVING, 0)
  {
    hide LpEffect, MoneyKept, Assets, Bal;
  }

  /** With a tenth of the units leaving, at least four fifths of the pool is free. */
  lemma StillHealthy(v2: V2State, assets: nat, outstanding: nat)
    requires PoolIs(v2, UNITS, LEAVING, outstanding) && outstanding <= 20_000_000_000 && LARGE <= assets <= LARGE + 2 * STAKE
    ensures CalcHealth(v2, assets).Ok? && 8_000 <= CalcHealth(v2, assets).value <= BPS && EnforceMinHealth(v2, assets) == Pass
  {
    var leaving := UnitsToAssets(LEAVING, assets, UNITS);
    assert leaving.Ok? && leaving.value * 10 <= assets + 10 by {
      DivAtMost(assets / 10, LEAVING * assets, UNITS);
    }
    var free := assets - outstanding - leaving.value;
    assert 8_000 * assets <= free * BPS;
    DivAtLeast(8_000, free * BPS, assets);
    hide UnitsToAssets;
    assert CalcHealth(v2, assets) == Ok(HealthOf(free, assets));
  }

  lemma StakeIsTaken(l: Lamports, v2: V2State)
    requires Assets(l) == LARGE + 1 && STAKE <= Bal(l, Wallet(PLAYER)) && Total(l) <= U64_MAX && PoolIs(v2, UNITS, LEAVING, 0)
    ensures TakeBet(l, SETTINGS, v2, PLAYER, 500, 15, STAKE).Ok?
    ensures TakeBet(l, SETTINGS, v2, PLAYER, 500, 15, STAKE).value.worst == 15_680_000_000
  {
    FullClearPrice();
    StillHealthy(v2, LARGE + 1, 0);
    StillHealthy(v2.(outstanding := 15_680_000_000), LARGE + 1 + STAKE, 15_680_000_000);
    CapsAllow(CalcHealth(v2, LARGE + 1).value);
    hide CalcHealth, EnforceMinHealth, WorstCasePayout, MoneyKept, Assets, ScaledCap;
    assert Quote(SETTINGS, v2, LARGE + 1, 500, 15, STAKE) == Ok(15_680_000_000);
  }

  lemma CapsAllow(health: nat)
    requires 8_000 <= health <= BPS
    ensures ScaledCap(LARGE + 1, 100, health).Ok? && STAKE <= ScaledCap(LARGE + 1, 100, health).value
    ensures ScaledCap(LARGE + 1, 500, health).Ok? && 15_680_000_000 <= ScaledCap(LARGE + 1, 500, health).value
  {}

  lemma OthersKeepTheirs(s: State)
    requires FundRound(s, PLAYER).Ok?
    ensures Bal(FundRound(s, PLAYER).value.lamports, Wallet(PROVIDER)) == Bal(s.lamports, Wallet(PROVIDER))
  {}

  lemma StakeMoves(l: Lamports, v2: V2State)
    requires TakeBet(l, SETTINGS, v2, PLAYER, 500, 15, STAKE).Ok? && 0 < Assets(l)
    ensures var l' := TakeBet(l, SETTINGS, v2, PLAYER, 500, 15, STAKE).value.lamports;
            Assets(l') == Assets(l) + STAKE && Bal(l', Wallet(PROVIDER)) == Bal(l, Wallet(PROVIDER))
  {
    hide Quote, Reserve, MoneyKept;
  }

  lemma Opens(s: State)
    requires Stage(s, LARGE + 1, GIFT) && PoolIs(s.v2, UNITS, LEAVING, 0)
    ensures var t := Next(s, SETUP[4]);
            && MoneySound(t) && Assets(t.lamports) == LARGE + 1 + STAKE && GIFT <= Bal(t.lamports, Wallet(PROVIDER))
            && PLAYER in t.claims && t.games == map[PLAYER := OnL1(OPENED)] && t.vault == SETTINGS
            && t.v2.vrfValidator != 0 && t.v2.totalPending == LEAVING && t.v2.outstanding == 15_680_000_000
  {
    hide FundRound, TakeBet, Assets, Bal, RoundEffect, CheckVrfOpen, Next, CheckBet;
    RentIsPaid(s);
    var funded := FundRound(s, PLAYER).value.lamports;
    SameAssets(s.lamports, funded);
    StakeIsTaken(funded, s.v2);
    OthersKeepTheirs(s);
    StakeMoves(funded, s.v2);
    BetIsFine();
    NextStart(s);
    StartMoney(s);
    OpenPool(s.v2);
  }

  lemma BetIsFine()
    ensures CheckBet(SETTINGS, 15, STAKE) == Pass
  {}

  lemma OpenPool(v2: V2State)
    requires CheckVrfOpen(v2) == Pass
    ensures v2.vrfValidator != 0
  {}

  lemma StartMoney(s: State)
    requires MoneySound(s) && StartGameVrf(s, PLAYER, SESSION_KEY, 15, STAKE).Ok?
    ensures MoneySound(StartGameVrf(s, PLAYER, SESSION_KEY, 15, STAKE).value)
  {
    hide StartGameVrf;
  }

  lemma NextStart(s: State)
    requires StartGameVrf(s, PLAYER, SESSION_KEY, 15, STAKE).Ok?
    ensures Next(s, SETUP[4]) == StartGameVrf(s, PLAYER, SESSION_KEY, 15, STAKE).value
  {
    hide StartGameVrf;
  }

  /** The whole run, transaction by transaction, up to where the round is played. */
  function Stuck(): State {
    Run(START, SETUP)
  }

  lemma RunSix(s: State, steps: seq<Step>)
    requires |steps| == 6
    ensures Run(s, steps) == Next(Next(Next(Next(Next(Next(s, steps[0]), steps[1]), steps[2]), steps[3]), steps[4]), steps[5])
  {
    hide Next, Run, MoneyKept;
    var s1 := Next(s, steps[0]);
    var s2 := Next(s1, steps[1]);
    RunStep(s, steps);
    RunStep(s1, steps[1..]);
    assert steps[1..][1..] == steps[2..];
    RunFour(s2, steps[2], steps[3], steps[4], steps[5]);
    assert steps[2..] == [steps[2], steps[3], steps[4], steps[5]];
  }

  lemma SetupGoesThrough()
    ensures var t := Stuck();
            && MoneySound(t) && LARGE + GIFT <= Assets(t.lamports) && PLAYER in t.claims && t.games == map[PLAYER := OnL1(OPENED)]
            && t.vault == SETTINGS && t.v2.vrfValidator != 0 && t.v2.totalPending == LEAVING && t.v2.outstanding == 15_680_000_000
  {
    hide Next, Stage, PoolIs, Assets, Bal, MoneyKept, Run, MoneySound;
    RunSix(START, SETUP);
    OpensPool();
    var s1 := Next(START, SETUP[0]);
    Drains(s1);
    var s2 := Next(s1, SETUP[1]);
    Inflates(s2);
    var s3 := Next(s2, SETUP[2]);
    Leaves(s3);
    var s4 := Next(s3, SETUP[3]);
    Opens(s4);
    var s5 := Next(s4, SETUP[4]);
    DonationGoesThrough(s5, PROVIDER, GIFT);
  }

  /** The transactions that play the round to a win and bring it home. */
  const STUCK_ROUND: seq<Step> := SETUP + ROUND[2..]

  /**
   From `initialize_v2`, a reachable ledger that can pay everything it owes and holds a verified winner
   whose settlement is refused: pricing the pending withdrawals overflows a u128.
   */
  lemma AWinnerIsStuck()
    ensures var t := Run(START, STUCK_ROUND);
            && Genesis(START) && Inv(t) && Solvent(t) && Landed(t, PLAYER)
            && Verify(t.claims[PLAYER], t.games[PLAYER].game).Ok?
            && SettleVrf(t, PLAYER, None).Err?
  {
    hide Genesis, Inv, Run, SettleVrf, Landed, Assets, Verify, Due, OpenGame, Funded;
    StartIsGenesis();
    SetupGoesThrough();
    PlayLands(Stuck());
    RunSplit(START, SETUP, ROUND[2..]);
    ReachableInv(START, STUCK_ROUND);
    var t := Run(START, STUCK_ROUND);
    LandedVerifiesHere(t, PLAYER);
    SolventIsFunded(t);
    LandedSettles(t, PLAYER, None);
    DueIsCovered(t, PLAYER);
    ClaimCovered(t, PLAYER);
    NotPriced(t);
  }

  lemma {:induction false} RunSplit(s: State, a: seq<Step>, b: seq<Step>)
    ensures Run(s, a + b) == Run(Run(s, a), b)
    decreases |a|
  {
    hide Next, MoneyKept;
    if a == [] {
      assert a + b == b;
    } else {
      assert (a + b)[1..] == a[1..] + b;
      RunSplit(Next(s, a[0]), a[1..], b);
    }
  }

  lemma NotPriced(t: State)
    requires Landed(t, PLAYER) && PLAYER in t.stats && t.vault == SETTINGS && t.v2.totalPending == LEAVING
    requires t.games[PLAYER].game.safe + t.claims[PLAYER].mines <= GRID_SIZE && t.claims[PLAYER].edge <= BPS
    requires LARGE + GIFT <= Assets(t.lamports) && Due(t.claims[PLAYER], t.games[PLAYER].game) <= 15_680_000_000
    ensures !PendingPriced(t.vault, t.v2, AfterPayment(t, PLAYER, None))
  {
    hide Due, Assets;
    MulMono(GIFT, AfterPayment(t, PLAYER, None), LEAVING);
  }
}
