/** One round from `initialize_v2` to a settled win: the states the results speak of do arise. */
module Example {
  import opened Prelude
  import opened Arith
  import opened Odds
  import opened Reveal
  import opened Sums
  import opened Ledger
  import opened Handlers
  import opened Runs
  import opened Solvency
  import opened Settlement

  const PLAYER: Id := 1
  const SESSION_KEY: Id := 2
  const VALIDATOR: Id := 3
  const PROVIDER: Id := 7
  const BANKROLL: nat := 1_000_000_000_000
  const STAKE: nat := 1_000_000_000
  const SAVINGS: nat := 2_000_000_000_000_000

  const SETTINGS: Vault := Vault(4, 5, Wallet(6), 200, 100, 1_000, 5_000, false, {Wallet(6)})
  const LAUNCH: V2Update := V2Update(None, None, None, None, None, Some(true), Some(VALIDATOR), Some(500))

  const START: State := State(
    0, SETTINGS, InitializeV2(BANKROLL).value,
    map[VaultPda := Rent(VAULT_SPACE) + BANKROLL, Wallet(PLAYER) := 10 * STAKE, Wallet(PROVIDER) := SAVINGS],
    map[], map[], map[], map[], map[], map[])

  /** With 15 mines one tile is safe: the draw 15 finds it. */
  const LUCKY: Randomness := [15] + seq(31, _ => 0)

  const ROUND: seq<Step> := [
    Admin(ConfigureV2(LAUNCH)), Vrf(VrfStep.Start(PLAYER, SESSION_KEY, 15, STAKE)), Vrf(Delegate(PLAYER, None)),
    Vrf(Request(PLAYER, SESSION_KEY, 0)), Vrf(Callback(PLAYER, LUCKY)), Vrf(Undelegate(PLAYER, PLAYER))]

  lemma StartIsGenesis()
    ensures Genesis(START) && Assets(START.lamports) == BANKROLL
    ensures Bal(START.lamports, Wallet(PLAYER)) == 10 * STAKE && Bal(START.lamports, Wallet(PROVIDER)) == SAVINGS
  {
    var one: Lamports := map[VaultPda := Rent(VAULT_SPACE) + BANKROLL];
    var two: Lamports := one[Wallet(PLAYER) := 10 * STAKE];
    SumUpdate<Account, nat>(map[], Balance, VaultPda, Rent(VAULT_SPACE) + BANKROLL);
    SumUpdate<Account, nat>(one, Balance, Wallet(PLAYER), 10 * STAKE);
    SumUpdate<Account, nat>(two, Balance, Wallet(PROVIDER), SAVINGS);
    assert map[][VaultPda := Rent(VAULT_SPACE) + BANKROLL] == one;
    assert two[Wallet(PROVIDER) := SAVINGS] == START.lamports;
  }

  lemma LuckyIsSafe()
    ensures Draw(LUCKY) == 15 && !DecideMine(LUCKY, 0, 15)
  {
    Zeros(LUCKY[..8][1..]);
    assert LUCKY[..8][0] == 15;
  }

  lemma {:induction false} Zeros(bs: seq<Byte>)
    requires forall i | 0 <= i < |bs| :: bs[i] == 0
    ensures LeNat(bs) == 0
  {
    if bs != [] {
      Zeros(bs[1..]);
    }
  }

  lemma FullClearPrice()
    ensures WorstCasePayout(STAKE, 15, 200) == Ok(15_680_000_000)
  {
    assert Falling(16, 1) == 16 && Falling(1, 1) == 1;
    assert RawBps(16, 1, 15) == 160_000;
  }

  // ---------------------------------------------------------------- the bet

  function Configured(): State {
    Next(START, Admin(ConfigureV2(LAUNCH)))
  }

  lemma ConfiguredIs()
    ensures Configured() == START.(v2 := Configured().v2)
    ensures var v2 := Configured().v2;
            && v2.outstanding == 0 && v2.totalPending == 0 && v2.totalUnits == BANKROLL && v2.minHealth == 1_000
            && CheckVrfOpen(v2) == Pass && v2.vrfMaxPayoutBps == 500
  {
    hide MoneyKept;
  }

  /** An account is opened for at most its rent. */
  lemma FundSucceeds(l: Lamports, a: Account, space: nat)
    requires Total(l) <= U64_MAX && Rent(space) <= Bal(l, Wallet(PLAYER))
    ensures Fund(l, PLAYER, a, space).Ok? && Total(Fund(l, PLAYER, a, space).value) <= U64_MAX
    ensures Bal(l, Wallet(PLAYER)) <= Bal(Fund(l, PLAYER, a, space).value, Wallet(PLAYER)) + Rent(space)
  {}

  /** Three accounts are opened at the player's cost, and the rest still covers the bet. */
  lemma RentIsPaid(s: State)
    requires Total(s.lamports) <= U64_MAX && Bal(s.lamports, Wallet(PLAYER)) == 10 * STAKE && PLAYER !in s.stats
    ensures FundRound(s, PLAYER).Ok? && STAKE <= Bal(FundRound(s, PLAYER).value.lamports, Wallet(PLAYER))
  {
    hide Fund, Bal, MoneyKept;
    FundSucceeds(s.lamports, ClaimPda(PLAYER), CLAIM_SPACE);
    var l1 := Fund(s.lamports, PLAYER, ClaimPda(PLAYER), CLAIM_SPACE).value;
    FundSucceeds(l1, GamePda(PLAYER), GAME_SPACE);
    var l2 := Fund(l1, PLAYER, GamePda(PLAYER), GAME_SPACE).value;
    FundSucceeds(l2, StatsPda(PLAYER), STATS_SPACE);
  }

  lemma FullHealth(v2: V2State, assets: nat)
    requires v2.totalPending == 0 && v2.outstanding <= 20_000_000_000 && v2.minHealth == 1_000
    requires BANKROLL <= assets <= 2 * BANKROLL
    ensures v2.outstanding == 0 ==> CalcHealth(v2, assets) == Ok(BPS)
    ensures EnforceMinHealth(v2, assets) == Pass
  {
    var free := assets - v2.outstanding;
    assert 1_000 * assets <= free * BPS;
    DivAtLeast(1_000, free * BPS, assets);
    if v2.outstanding == 0 {
      DivAtLeast(BPS, assets * BPS, assets);
    }
  }

  lemma BetIsTaken(l: Lamports, v2: V2State)
    requires Assets(l) == BANKROLL && STAKE <= Bal(l, Wallet(PLAYER)) && Total(l) <= U64_MAX
    requires v2.outstanding == 0 && v2.totalPending == 0 && v2.minHealth == 1_000
    ensures TakeBet(l, SETTINGS, v2, PLAYER, 500, 15, STAKE).Ok?
  {
    FullClearPrice();
    FullHealth(v2, BANKROLL);
    FullHealth(v2.(outstanding := 15_680_000_000), BANKROLL + STAKE);
    hide CalcHealth, EnforceMinHealth, WorstCasePayout, MoneyKept, Assets;
    assert Quote(SETTINGS, v2, BANKROLL, 500, 15, STAKE) == Ok(15_680_000_000);
  }

  lemma RoundOpens()
    ensures StartGameVrf(Configured(), PLAYER, SESSION_KEY, 15, STAKE).Ok?
    ensures var t := StartGameVrf(Configured(), PLAYER, SESSION_KEY, 15, STAKE).value;
            && PLAYER in t.claims && t.claims[PLAYER].mines == 15 && t.claims[PLAYER].edge == 200
            && t.games == map[PLAYER := OnL1(OpenGame(PLAYER, SESSION_KEY, 15, 200))]
            && t.v2.vrfValidator != 0 && t.v2.totalPending == 0
  {
    StartIsGenesis();
    ConfiguredIs();
    var s := Configured();
    RentIsPaid(s);
    var funded := FundRound(s, PLAYER).value;
    BetIsTaken(funded.lamports, s.v2);
    hide FundRound, TakeBet, CheckVrfOpen, Configured, Genesis, RoundEffect;
  }

  // ---------------------------------------------------------------- the click

  const OPENED: VrfGame := OpenGame(PLAYER, SESSION_KEY, 15, 200)

  lemma ClickWins()
    ensures RequestReveal(OPENED, SESSION_KEY, 0).Ok?
    ensures var asked := RequestReveal(OPENED, SESSION_KEY, 0).value;
            && RevealCallback(asked, LUCKY).Ok?
            && RevealCallback(asked, LUCKY).value.status == VRF_WON
            && RevealCallback(asked, LUCKY).value.player == PLAYER
  {
    LuckyIsSafe();
    hide DecideMine;
  }

  /** The rest of the round, from a started game on L1. */
  lemma PlayLands(t: State)
    requires PLAYER in t.claims && t.games == map[PLAYER := OnL1(OPENED)] && t.v2.vrfValidator != 0
    ensures Landed(Run(t, ROUND[2..]), PLAYER) && Run(t, ROUND[2..]) == t.(games := Run(t, ROUND[2..]).games)
  {
    ClickWins();
    var asked := RequestReveal(OPENED, SESSION_KEY, 0).value;
    var won := RevealCallback(asked, LUCKY).value;
    hide RequestReveal, RevealCallback, Next, Run, MoneyKept;
    HandOff(t, OPENED);
    var t1 := t.(games := map[PLAYER := Delegated(Blank, OPENED)]);
    Clicked(t1, OPENED, asked);
    var t2 := t.(games := map[PLAYER := Delegated(Blank, asked)]);
    Answered(t2, asked, won);
    var t3 := t.(games := map[PLAYER := Delegated(Blank, won)]);
    GivenBack(t3, won);
    RunFour(t, ROUND[2], ROUND[3], ROUND[4], ROUND[5]);
    assert ROUND[2..] == [ROUND[2], ROUND[3], ROUND[4], ROUND[5]];
  }

  lemma RunFour(t: State, a: Step, b: Step, c: Step, d: Step)
    ensures Run(t, [a, b, c, d]) == Next(Next(Next(Next(t, a), b), c), d)
  {
    hide Next, Run, MoneyKept;
    var t1 := Next(t, a);
    var t2 := Next(t1, b);
    var t3 := Next(t2, c);
    assert [a, b, c, d] == [a] + [b, c, d] && [b, c, d] == [b] + [c, d] && [c, d] == [c] + [d] && [d] == [d] + [];
    RunFirst(t, a, [b, c, d]);
    RunFirst(t1, b, [c, d]);
    RunFirst(t2, c, [d]);
    RunFirst(t3, d, []);
    RunNothing(Next(t3, d));
  }

  lemma HandOff(t: State, g: VrfGame)
    requires t.games == map[PLAYER := OnL1(g)] && t.v2.vrfValidator != 0 && g.status == VRF_PLAYING && !g.pending
    ensures Next(t, Vrf(Delegate(PLAYER, None))) == t.(games := map[PLAYER := Delegated(Blank, g)])
  {
    hide MoneyKept, RoundEffect;
  }

  lemma Clicked(t: State, g: VrfGame, g': VrfGame)
    requires t.games == map[PLAYER := Delegated(Blank, g)] && RequestReveal(g, SESSION_KEY, 0) == Ok(g')
    ensures Next(t, Vrf(Request(PLAYER, SESSION_KEY, 0))) == t.(games := map[PLAYER := Delegated(Blank, g')])
  {
    hide MoneyKept, RoundEffect, RequestReveal;
  }

  lemma Answered(t: State, g: VrfGame, g': VrfGame)
    requires t.games == map[PLAYER := Delegated(Blank, g)] && RevealCallback(g, LUCKY) == Ok(g')
    ensures Next(t, Vrf(Callback(PLAYER, LUCKY))) == t.(games := map[PLAYER := Delegated(Blank, g')])
  {
    hide MoneyKept, RoundEffect, RevealCallback;
  }

  lemma GivenBack(t: State, g: VrfGame)
    requires t.games == map[PLAYER := Delegated(Blank, g)] && g.player == PLAYER
    ensures Next(t, Vrf(Undelegate(PLAYER, PLAYER))) == t.(games := map[PLAYER := OnL1(g)])
  {
    hide MoneyKept, RoundEffect;
  }

  lemma RoundLands()
    ensures Landed(Run(START, ROUND), PLAYER) && Run(START, ROUND).v2.totalPending == 0
  {
    hide StartGameVrf, Configured, Next, Run, Landed, OpenGame;
    RoundOpens();
    ConfiguredIsNext();
    StartIsNext();
    var t := Next(Configured(), ROUND[1]);
    PlayLands(t);
    assert ROUND == [ROUND[0]] + ([ROUND[1]] + ROUND[2..]);
    RunFirst(START, ROUND[0], [ROUND[1]] + ROUND[2..]);
    RunFirst(Configured(), ROUND[1], ROUND[2..]);
  }

  lemma StartIsNext()
    requires StartGameVrf(Configured(), PLAYER, SESSION_KEY, 15, STAKE).Ok?
    ensures Next(Configured(), ROUND[1]) == StartGameVrf(Configured(), PLAYER, SESSION_KEY, 15, STAKE).value
  {
    hide StartGameVrf, Configured, MoneyKept;
  }

  /** The results' hypotheses are met: from `initialize_v2` a round lands as a win, and it settles. */
  lemma AWinIsPaid()
    ensures Genesis(START) && AllCovered(START, ROUND) && Landed(Run(START, ROUND), PLAYER)
    ensures SettleVrf(Run(START, ROUND), PLAYER, None).Ok?
  {
    hide Genesis, AllCovered, Run, Landed, Inv, Solvent, Funded, SettleVrf, Due;
    StartIsGenesis();
    RoundLands();
    EveryStepCovered(START, ROUND);
    ReachableSolvent(START, ROUND);
    ReachableInv(START, ROUND);
    SolventIsFunded(Run(START, ROUND));
    LandedSettles(Run(START, ROUND), PLAYER, None);
  }

  lemma ConfiguredIsNext()
    ensures Next(START, ROUND[0]) == Configured()
  {
    hide Next;
  }

  /** Play steps are covered in every state. */
  lemma {:induction false} EveryStepCovered(s: State, steps: seq<Step>)
    requires forall step | step in steps :: step.Admin? || (step.Vrf? && !step.v.Settle?)
    ensures AllCovered(s, steps)
    decreases |steps|
  {
    hide Next;
    if steps != [] {
      EveryStepCovered(Next(s, steps[0]), steps[1..]);
    }
  }
}
