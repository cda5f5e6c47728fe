/**
 A whole VRF round on the ledger: the player's own transactions, from the first click to the closed claim,
 change the player's wallet by exactly the path payout whose average the house edge bounds.
 */
module RoundRun {
  import opened Prelude
  import opened Odds
  import opened Reveal
  import opened Ledger
  import opened Handlers
  import opened Runs
  import opened Solvency
  import opened Settlement
  import opened Fairness
  import HouseEdge
  import Liveness

  /** Bring the game home and settle it. */
  function SettleSteps(p: Id): seq<Step> {
    [Vrf(Undelegate(p, p)), Vrf(Settle(p, None))]
  }

  /** Bring the game home, wait out the stall window, and take the bet back. */
  function RefundSteps(p: Id, c: Claim): seq<Step> {
    [Vrf(Undelegate(p, p)), Admin(Wait(SatAdd(c.startSlot, STALL_SLOTS) + 1)), Vrf(VrfStep.Refund(p, p))]
  }

  /** The transactions of a player who follows a strategy against the oracle's bytes, from the i-th decision on. */
  function Moves(p: Id, key: Id, c: Claim, play: HouseEdge.Strategy, tiles: seq<nat>, rs: seq<Randomness>, i: nat): seq<Step>
    requires |tiles| == |rs| == GRID_SIZE - c.mines && i + c.mines < GRID_SIZE
    decreases |rs| - i
  {
    if i >= 1 && play(Draws(rs)[..i]) == HouseEdge.CashOut then [Vrf(TakeWin(p, key))] + SettleSteps(p)
    else if i >= 1 && play(Draws(rs)[..i]) == HouseEdge.Refund then RefundSteps(p, c)
    else
      [Vrf(Request(p, key, tiles[i])), Vrf(Callback(p, rs[i]))] +
      if HouseEdge.IsMine(GRID_SIZE, Draw(rs[i]), i, c.mines) || i + 1 + c.mines == GRID_SIZE then SettleSteps(p)
      else Moves(p, key, c, play, tiles, rs, i + 1)
  }

  /** A round being played in the rollup, in a vault that can pay and price what it must. */
  ghost predicate InRollup(s: State, p: Id, c: Claim, key: Id, g: VrfGame) {
    && Inv(s) && Funded(s) && PendingPriced(s.vault, s.v2, Assets(s.lamports)) && s.vault.treasury !in Own(p)
    && p in s.claims && s.claims[p] == c && p in s.games && s.games[p].Delegated? && s.games[p].game == g && g.session == key
  }

  /** The player's wallet holds `gained` more than before, and the rent of both closed accounts. */
  ghost predicate PaidOut(s: State, t: State, p: Id, gained: nat) {
    && p !in t.claims && p !in t.games
    && Bal(t.lamports, Wallet(p)) ==
       Bal(s.lamports, Wallet(p)) + gained + Bal(s.lamports, ClaimPda(p)) + Bal(s.lamports, GamePda(p))
  }

  // ---------------------------------------------------------------- play

  /** The same ledger with another live game in the rollup. */
  function WithGame(s: State, p: Id, g: VrfGame): State
    requires p in s.games
  {
    s.(games := s.games[p := s.games[p].(game := g)])
  }

  lemma NextRequest(s: State, p: Id, key: Id, tile: nat)
    requires p in s.games && RequestReveal(s.games[p].game, key, tile).Ok?
    ensures Next(s, Vrf(Request(p, key, tile))) == WithGame(s, p, RequestReveal(s.games[p].game, key, tile).value)
  {
    hide MoneyKept, RoundEffect, RequestReveal;
  }

  lemma NextCallback(s: State, p: Id, randomness: Randomness)
    requires p in s.games && RevealCallback(s.games[p].game, randomness).Ok?
    ensures Next(s, Vrf(Callback(p, randomness))) == WithGame(s, p, RevealCallback(s.games[p].game, randomness).value)
  {
    hide MoneyKept, RoundEffect, RevealCallback;
  }

  lemma NextTakeWin(s: State, p: Id, key: Id)
    requires p in s.games && CashOut(s.games[p].game, key).Ok?
    ensures Next(s, Vrf(TakeWin(p, key))) == WithGame(s, p, CashOut(s.games[p].game, key).value)
  {
    hide MoneyKept, RoundEffect, CashOut;
  }

  lemma FundedSame(s: State, t: State)
    requires Funded(s) && t.claims == s.claims && t.sessions == s.sessions && t.lamports == s.lamports
    ensures Funded(t)
  {}

  /** A play step changes the live game and nothing else. */
  lemma PlayStays(s: State, p: Id, c: Claim, key: Id, g: VrfGame, step: Step, g': VrfGame)
    requires InRollup(s, p, c, key, g) && Next(s, step) == WithGame(s, p, g') && g'.session == key
    ensures InRollup(Next(s, step), p, c, key, g') && Next(s, step).lamports == s.lamports
  {
    hide Inv, Funded, Next, PendingPriced, Own, MoneyKept;
    StepKeepsInv(s, step);
    FundedSame(s, Next(s, step));
  }

  // ---------------------------------------------------------------- the end of a round

  lemma NextSettled(s: State, p: Id)
    requires SettleVrf(s, p, None).Ok?
    ensures Next(s, Vrf(Settle(p, None))) == SettleVrf(s, p, None).value
  {
    hide SettleVrf, MoneyKept;
  }

  /** A finished game comes home and is paid what it is due. */
  lemma FinishedPays(s: State, p: Id, c: Claim, key: Id, g: VrfGame)
    requires InRollup(s, p, c, key, g) && g.status != VRF_PLAYING
    ensures g.safe + c.mines <= GRID_SIZE && c.edge <= BPS
    ensures PaidOut(s, Run(s, SettleSteps(p)), p, Due(c, g))
  {
    hide Inv, Next, Run, SettleVrf, Due, PendingPriced, Bal, Assets;
    var t := s.(games := s.games[p := OnL1(g)]);
    Liveness.Home(s, p);
    StepKeepsInv(s, Vrf(Undelegate(p, p)));
    DueIsCovered(t, p);
    LandedSettles(t, p, None);
    Liveness.StillPriceable(t, AfterPayment(t, p, None));
    WinnerReceives(t, p, None);
    NextSettled(t, p);
    RunTwo(s, Vrf(Undelegate(p, p)), Vrf(Settle(p, None)));
  }

  /** An unfinished game comes home and the bet goes back. */
  lemma UnfinishedRefunds(s: State, p: Id, c: Claim, key: Id, g: VrfGame)
    requires InRollup(s, p, c, key, g) && g.status == VRF_PLAYING
    ensures PaidOut(s, Run(s, RefundSteps(p, c)), p, c.bet)
  {
    hide Inv, Next, Run, RefundStalledVrf, PendingPriced, Bal, Assets;
    var slots := SatAdd(c.startSlot, STALL_SLOTS) + 1;
    var t := s.(games := s.games[p := OnL1(g)]);
    var u := t.(slot := t.slot + slots);
    Liveness.Home(s, p);
    StepKeepsInv(s, Vrf(Undelegate(p, p)));
    Liveness.WaitGoesThrough(t, slots);
    StepKeepsInv(t, Admin(Wait(slots)));
    Liveness.RefundGoesThrough(u, p);
    Liveness.NextRefund(u, p);
    RefundPays(u, p);
    assert RefundSteps(p, c) == [Vrf(Undelegate(p, p))] + [Admin(Wait(slots)), Vrf(VrfStep.Refund(p, p))];
    RunFirst(s, Vrf(Undelegate(p, p)), [Admin(Wait(slots)), Vrf(VrfStep.Refund(p, p))]);
    RunTwo(t, Admin(Wait(slots)), Vrf(VrfStep.Refund(p, p)));
  }

  lemma RefundPays(s: State, p: Id)
    requires RefundStalledVrf(s, p, p).Ok?
    ensures p in s.claims && PaidOut(s, RefundStalledVrf(s, p, p).value, p, s.claims[p].bet)
  {
    hide CheckStalled, Assets, RoundEffect, Bal, Move, CloseRound;
    var bet := s.claims[p].bet;
    var l := Move(s.lamports, VaultPda, Wallet(p), bet).value;
    MoveBalance(s.lamports, VaultPda, Wallet(p), bet, Wallet(p));
    MoveBalance(s.lamports, VaultPda, Wallet(p), bet, ClaimPda(p));
    MoveBalance(s.lamports, VaultPda, Wallet(p), bet, GamePda(p));
    ClosingPays(s.(v2 := Release(s.v2, s.claims[p].reserved)), l, p);
  }

  // ---------------------------------------------------------------- the whole round

  /** A finished honest game is due its prize, or nothing. */
  lemma DueIsPrize(c: Claim, g: VrfGame)
    requires Written(c) && g.safe + c.mines <= GRID_SIZE
    ensures c.edge <= BPS && Due(c, g) == if g.status == VRF_LOST then 0 else TermsOf(c).Prize(g.safe)
  {
    hide Multiplier, WorstCasePayout;
  }

  lemma ClaimIsWritten(s: State, p: Id)
    requires Inv(s) && p in s.claims
    ensures Written(s.claims[p])
  {
    ClaimCovered(s, p);
  }

  /** Cashing out pays the prize of the tiles revealed. */
  lemma CashingOutPays(s: State, p: Id, c: Claim, key: Id, g: VrfGame, tiles: seq<nat>, i: nat)
    requires InRollup(s, p, c, key, g) && Written(c) && At(c, g, tiles, i) && 1 <= i && i + c.mines < GRID_SIZE
    ensures TermsOf(c).Valid() && PaidOut(s, Run(s, [Vrf(TakeWin(p, key))] + SettleSteps(p)), p, TermsOf(c).Prize(i))
  {
    hide Honest, Written, Run, Next, InRollup, Due;
    TermsFit(c);
    GameIs(s, p, c, key, g);
    CashOutHonest(g, key);
    var won := CashOut(g, key).value;
    NextTakeWin(s, p, key);
    PlayStays(s, p, c, key, g, Vrf(TakeWin(p, key)), won);
    FinishedPays(WithGame(s, p, won), p, c, key, won);
    DueIsPrize(c, won);
    RunFirst(s, Vrf(TakeWin(p, key)), SettleSteps(p));
  }

  lemma GameIs(s: State, p: Id, c: Claim, key: Id, g: VrfGame)
    requires InRollup(s, p, c, key, g)
    ensures p in s.games && s.games[p].game == g && g.session == key
  {}

  /** Two transactions answer one click, and the ledger keeps its money. */
  lemma ClickOnLedger(s: State, p: Id, c: Claim, key: Id, g: VrfGame, tile: nat, randomness: Randomness)
    requires InRollup(s, p, c, key, g) && RequestReveal(g, key, tile).Ok?
    requires RevealCallback(RequestReveal(g, key, tile).value, randomness).Ok?
    ensures var g' := RevealCallback(RequestReveal(g, key, tile).value, randomness).value;
            var t := Next(Next(s, Vrf(Request(p, key, tile))), Vrf(Callback(p, randomness)));
            InRollup(t, p, c, key, g') && t.lamports == s.lamports
  {
    hide Next, InRollup;
    var asked := RequestReveal(g, key, tile).value;
    GameIs(s, p, c, key, g);
    NextRequest(s, p, key, tile);
    PlayStays(s, p, c, key, g, Vrf(Request(p, key, tile)), asked);
    var t := Next(s, Vrf(Request(p, key, tile)));
    NextCallback(t, p, randomness);
    PlayStays(t, p, c, key, asked, Vrf(Callback(p, randomness)), RevealCallback(asked, randomness).value);
  }

  /** The game after the i-th click is answered. */
  function Clicked(g: VrfGame, key: Id, tile: nat, randomness: Randomness): VrfGame
    requires RequestReveal(g, key, tile).Ok? && RevealCallback(RequestReveal(g, key, tile).value, randomness).Ok?
  {
    RevealCallback(RequestReveal(g, key, tile).value, randomness).value
  }

  /** A click on a mine, or on the last safe tile, and the settlement it leads to. */
  lemma LastClickPays(s: State, p: Id, c: Claim, key: Id, g: VrfGame, tiles: seq<nat>, i: nat, randomness: Randomness)
    requires InRollup(s, p, c, key, g) && Written(c) && At(c, g, tiles, i) && i + c.mines < GRID_SIZE
    requires DistinctTiles(tiles) && i < |tiles|
    requires HouseEdge.IsMine(GRID_SIZE, Draw(randomness), i, c.mines) || i + 1 + c.mines == GRID_SIZE
    ensures TermsOf(c).Valid()
    ensures PaidOut(s, Run(s, [Vrf(Request(p, key, tiles[i])), Vrf(Callback(p, randomness))] + SettleSteps(p)), p,
                    if HouseEdge.IsMine(GRID_SIZE, Draw(randomness), i, c.mines) then 0 else TermsOf(c).Prize(i + 1))
  {
    TermsFit(c);
    hide InRollup, Written, Honest, Run, Next, DistinctTiles, HouseEdge.IsMine, Draw, PaidOut, RequestReveal, RevealCallback, Due;
    GameIs(s, p, c, key, g);
    ClickGoesThrough(c, g, tiles, i, randomness);
    ClickOnLedger(s, p, c, key, g, tiles[i], randomness);
    var g' := Clicked(g, key, tiles[i], randomness);
    var t := Next(Next(s, Vrf(Request(p, key, tiles[i]))), Vrf(Callback(p, randomness)));
    FinishedPays(t, p, c, key, g');
    DueIsPrize(c, g');
    RunClick(s, p, key, tiles[i], randomness, SettleSteps(p));
    SamePayment(s, t, Run(t, SettleSteps(p)), p, Due(c, g'));
  }

  /** A safe click with more to come leaves the round one click further. */
  lemma SafeClickGoesOn(s: State, p: Id, c: Claim, key: Id, g: VrfGame, tiles: seq<nat>, i: nat, randomness: Randomness)
    requires InRollup(s, p, c, key, g) && At(c, g, tiles, i) && i + 1 + c.mines < GRID_SIZE
    requires DistinctTiles(tiles) && i < |tiles| && !HouseEdge.IsMine(GRID_SIZE, Draw(randomness), i, c.mines)
    ensures RequestReveal(g, key, tiles[i]).Ok? && RevealCallback(RequestReveal(g, key, tiles[i]).value, randomness).Ok?
    ensures var g' := Clicked(g, key, tiles[i], randomness);
            var t := Next(Next(s, Vrf(Request(p, key, tiles[i]))), Vrf(Callback(p, randomness)));
            InRollup(t, p, c, key, g') && At(c, g', tiles, i + 1) && t.lamports == s.lamports
  {
    hide InRollup, Honest, Next, DistinctTiles, HouseEdge.IsMine, Draw, RequestReveal, RevealCallback;
    GameIs(s, p, c, key, g);
    ClickGoesThrough(c, g, tiles, i, randomness);
    ClickOnLedger(s, p, c, key, g, tiles[i], randomness);
  }

  /** What the i-th decision comes to: one of two stops, a click that ends the round, or a click that leads on. */
  datatype Decision = TakePrize | TakeBetBack | LastClick | SafeClick

  function Decide(c: Claim, play: HouseEdge.Strategy, rs: seq<Randomness>, i: nat): Decision
    requires i < |rs|
  {
    if i >= 1 && play(Draws(rs)[..i]) == HouseEdge.CashOut then TakePrize
    else if i >= 1 && play(Draws(rs)[..i]) == HouseEdge.Refund then TakeBetBack
    else if HouseEdge.IsMine(GRID_SIZE, Draw(rs[i]), i, c.mines) || GRID_SIZE <= i + 1 + c.mines then LastClick
    else SafeClick
  }

  /** Taking the prize ends the round. */
  lemma TakePrizePays(s: State, p: Id, c: Claim, key: Id, g: VrfGame,
                      play: HouseEdge.Strategy, tiles: seq<nat>, rs: seq<Randomness>, i: nat)
    requires InRollup(s, p, c, key, g) && Written(c) && At(c, g, tiles, i) && i + c.mines < GRID_SIZE
    requires |tiles| == |rs| == GRID_SIZE - c.mines && Decide(c, play, rs, i) == TakePrize
    ensures TermsOf(c).Valid()
    ensures PaidOut(s, Run(s, Moves(p, key, c, play, tiles, rs, i)), p, PathPayout(TermsOf(c), play, Draws(rs), i))
  {
    TermsFit(c);
    hide TermsOf, Draws, InRollup, Written, At, Run, Next, PaidOut, Moves, PathPayout, SettleSteps, RefundSteps, MoneyKept;
    hide Decide;
    OnPrize(p, key, c, play, tiles, rs, i);
    CashingOutPays(s, p, c, key, g, tiles, i);
  }

  /** So does taking the bet back. */
  lemma TakeBetBackPays(s: State, p: Id, c: Claim, key: Id, g: VrfGame,
                        play: HouseEdge.Strategy, tiles: seq<nat>, rs: seq<Randomness>, i: nat)
    requires InRollup(s, p, c, key, g) && Written(c) && At(c, g, tiles, i) && i + c.mines < GRID_SIZE
    requires |tiles| == |rs| == GRID_SIZE - c.mines && Decide(c, play, rs, i) == TakeBetBack
    ensures TermsOf(c).Valid()
    ensures PaidOut(s, Run(s, Moves(p, key, c, play, tiles, rs, i)), p, PathPayout(TermsOf(c), play, Draws(rs), i))
  {
    TermsFit(c);
    assert g.status == VRF_PLAYING;
    hide TermsOf, Draws, InRollup, Written, At, Run, Next, PaidOut, Moves, PathPayout, SettleSteps, RefundSteps, MoneyKept;
    hide Decide;
    OnBetBack(p, key, c, play, tiles, rs, i);
    UnfinishedRefunds(s, p, c, key, g);
  }

  /** So does a click on a mine or on the last safe tile. */
  lemma LastMovePays(s: State, p: Id, c: Claim, key: Id, g: VrfGame,
                     play: HouseEdge.Strategy, tiles: seq<nat>, rs: seq<Randomness>, i: nat)
    requires InRollup(s, p, c, key, g) && Written(c) && At(c, g, tiles, i) && i + c.mines < GRID_SIZE
    requires DistinctTiles(tiles) && |tiles| == |rs| == GRID_SIZE - c.mines && Decide(c, play, rs, i) == LastClick
    ensures TermsOf(c).Valid()
    ensures PaidOut(s, Run(s, Moves(p, key, c, play, tiles, rs, i)), p, PathPayout(TermsOf(c), play, Draws(rs), i))
  {
    TermsFit(c);
    hide TermsOf, Draws, InRollup, Written, At, Run, Next, DistinctTiles, HouseEdge.IsMine, Draw, PaidOut;
    hide Moves, PathPayout, SettleSteps, RefundSteps, MoneyKept, Decide;
    OnLastClick(p, key, c, play, tiles, rs, i);
    LastClickPays(s, p, c, key, g, tiles, i, rs[i]);
  }

  /** A decision that leads on passes on what the rest of the round pays. */
  lemma SafeClickPays(s: State, p: Id, c: Claim, key: Id, t: State,
                      play: HouseEdge.Strategy, tiles: seq<nat>, rs: seq<Randomness>, i: nat)
    requires TermsOf(c).Valid() && |tiles| == |rs| == GRID_SIZE - c.mines && i < |rs| && Decide(c, play, rs, i) == SafeClick
    requires t == Next(Next(s, Vrf(Request(p, key, tiles[i]))), Vrf(Callback(p, rs[i]))) && t.lamports == s.lamports
    requires PaidOut(t, Run(t, Moves(p, key, c, play, tiles, rs, i + 1)), p, PathPayout(TermsOf(c), play, Draws(rs), i + 1))
    ensures PaidOut(s, Run(s, Moves(p, key, c, play, tiles, rs, i)), p, PathPayout(TermsOf(c), play, Draws(rs), i))
  {
    hide Run, Next, HouseEdge.IsMine, Draw, PaidOut, Moves, PathPayout, MoneyKept, Decide;
    OnSafeClick(p, key, c, play, tiles, rs, i);
    PaidAfterClick(s, p, key, tiles[i], rs[i], Moves(p, key, c, play, tiles, rs, i + 1),
                   PathPayout(TermsOf(c), play, Draws(rs), i + 1));
  }

  /**
   From any decision of a round in the rollup, the player's transactions close the claim and pay the wallet
   the path payout: the prize on a cash-out or a cleared board, the bet on a refund, nothing on a mine.
   */
  lemma {:induction false} MovesPayPath(s: State, p: Id, c: Claim, key: Id, g: VrfGame,
                                        play: HouseEdge.Strategy, tiles: seq<nat>, rs: seq<Randomness>, i: nat)
    requires InRollup(s, p, c, key, g) && Written(c) && At(c, g, tiles, i) && i + c.mines < GRID_SIZE
    requires DistinctTiles(tiles) && |tiles| == |rs| == GRID_SIZE - c.mines
    ensures TermsOf(c).Valid()
    ensures PaidOut(s, Run(s, Moves(p, key, c, play, tiles, rs, i)), p, PathPayout(TermsOf(c), play, Draws(rs), i))
    decreases |rs| - i
  {
    TermsFit(c);
    hide TermsOf, Draws, Clicked, InRollup, Written, At, Run, Next, DistinctTiles, PaidOut, RequestReveal, RevealCallback;
    hide Moves, PathPayout, Decide, HouseEdge.IsMine, Draw, MoneyKept;
    match Decide(c, play, rs, i) {
      case TakePrize => TakePrizePays(s, p, c, key, g, play, tiles, rs, i);
      case TakeBetBack => TakeBetBackPays(s, p, c, key, g, play, tiles, rs, i);
      case LastClick => LastMovePays(s, p, c, key, g, play, tiles, rs, i);
      case SafeClick =>
        SafeMeans(c, play, rs, i);
        SafeClickGoesOn(s, p, c, key, g, tiles, i, rs[i]);
        var t := Next(Next(s, Vrf(Request(p, key, tiles[i]))), Vrf(Callback(p, rs[i])));
        MovesPayPath(t, p, c, key, Clicked(g, key, tiles[i], rs[i]), play, tiles, rs, i + 1);
        SafeClickPays(s, p, c, key, t, play, tiles, rs, i);
    }
  }

  lemma SafeMeans(c: Claim, play: HouseEdge.Strategy, rs: seq<Randomness>, i: nat)
    requires i < |rs| && Decide(c, play, rs, i) == SafeClick
    ensures !HouseEdge.IsMine(GRID_SIZE, Draw(rs[i]), i, c.mines) && i + 1 + c.mines < GRID_SIZE
  {}

  /** Each decision, on both sides: the transactions it makes and what the path pays. */
  lemma OnPrize(p: Id, key: Id, c: Claim, play: HouseEdge.Strategy, tiles: seq<nat>, rs: seq<Randomness>, i: nat)
    requires TermsOf(c).Valid() && i + c.mines < GRID_SIZE && |tiles| == |rs| == GRID_SIZE - c.mines
    requires Decide(c, play, rs, i) == TakePrize
    ensures i >= 1 && Moves(p, key, c, play, tiles, rs, i) == [Vrf(TakeWin(p, key))] + SettleSteps(p)
    ensures PathPayout(TermsOf(c), play, Draws(rs), i) == TermsOf(c).Prize(i)
  {
    hide HouseEdge.IsMine, Draw, SettleSteps, RefundSteps, Multiplier;
  }

  lemma OnBetBack(p: Id, key: Id, c: Claim, play: HouseEdge.Strategy, tiles: seq<nat>, rs: seq<Randomness>, i: nat)
    requires TermsOf(c).Valid() && i + c.mines < GRID_SIZE && |tiles| == |rs| == GRID_SIZE - c.mines
    requires Decide(c, play, rs, i) == TakeBetBack
    ensures Moves(p, key, c, play, tiles, rs, i) == RefundSteps(p, c)
    ensures PathPayout(TermsOf(c), play, Draws(rs), i) == c.bet
  {
    hide HouseEdge.IsMine, Draw, SettleSteps, RefundSteps, Multiplier;
  }

  lemma OnLastClick(p: Id, key: Id, c: Claim, play: HouseEdge.Strategy, tiles: seq<nat>, rs: seq<Randomness>, i: nat)
    requires TermsOf(c).Valid() && i + c.mines < GRID_SIZE && |tiles| == |rs| == GRID_SIZE - c.mines
    requires Decide(c, play, rs, i) == LastClick
    ensures HouseEdge.IsMine(GRID_SIZE, Draw(rs[i]), i, c.mines) || i + 1 + c.mines == GRID_SIZE
    ensures Moves(p, key, c, play, tiles, rs, i) == [Vrf(Request(p, key, tiles[i])), Vrf(Callback(p, rs[i]))] + SettleSteps(p)
    ensures PathPayout(TermsOf(c), play, Draws(rs), i) ==
            if HouseEdge.IsMine(GRID_SIZE, Draw(rs[i]), i, c.mines) then 0 else TermsOf(c).Prize(i + 1)
  {
    hide HouseEdge.IsMine, Draw, SettleSteps, RefundSteps, Multiplier;
  }

  lemma OnSafeClick(p: Id, key: Id, c: Claim, play: HouseEdge.Strategy, tiles: seq<nat>, rs: seq<Randomness>, i: nat)
    requires TermsOf(c).Valid() && i + c.mines < GRID_SIZE && |tiles| == |rs| == GRID_SIZE - c.mines
    requires Decide(c, play, rs, i) == SafeClick
    ensures i + 1 + c.mines < GRID_SIZE
    ensures Moves(p, key, c, play, tiles, rs, i) ==
            [Vrf(Request(p, key, tiles[i])), Vrf(Callback(p, rs[i]))] + Moves(p, key, c, play, tiles, rs, i + 1)
    ensures PathPayout(TermsOf(c), play, Draws(rs), i) == PathPayout(TermsOf(c), play, Draws(rs), i + 1)
  {
    hide HouseEdge.IsMine, Draw, SettleSteps, RefundSteps, Multiplier;
  }

  lemma RunClick(s: State, p: Id, key: Id, tile: nat, randomness: Randomness, rest: seq<Step>)
    ensures Run(s, [Vrf(Request(p, key, tile)), Vrf(Callback(p, randomness))] + rest) ==
            Run(Next(Next(s, Vrf(Request(p, key, tile))), Vrf(Callback(p, randomness))), rest)
  {
    hide Run, Next;
    var a, b := Vrf(Request(p, key, tile)), Vrf(Callback(p, randomness));
    assert [a, b] + rest == [a] + ([b] + rest);
    RunFirst(s, a, [b] + rest);
    RunFirst(Next(s, a), b, rest);
  }

  /** A click that keeps the money passes on what the rest of the round pays. */
  lemma PaidAfterClick(s: State, p: Id, key: Id, tile: nat, randomness: Randomness, rest: seq<Step>, gained: nat)
    requires Next(Next(s, Vrf(Request(p, key, tile))), Vrf(Callback(p, randomness))).lamports == s.lamports
    requires var t := Next(Next(s, Vrf(Request(p, key, tile))), Vrf(Callback(p, randomness))); PaidOut(t, Run(t, rest), p, gained)
    ensures PaidOut(s, Run(s, [Vrf(Request(p, key, tile)), Vrf(Callback(p, randomness))] + rest), p, gained)
  {
    hide Run, Next, PaidOut;
    var t := Next(Next(s, Vrf(Request(p, key, tile))), Vrf(Callback(p, randomness)));
    RunClick(s, p, key, tile, randomness, rest);
    SamePayment(s, t, Run(t, rest), p, gained);
  }

  lemma SamePayment(s: State, t: State, u: State, p: Id, gained: nat)
    requires t.lamports == s.lamports && PaidOut(t, u, p, gained)
    ensures PaidOut(s, u, p, gained)
  {}

  /** The round as a player opens it: start, hand-off, and every move to the end. */
  function WholeRound(p: Id, key: Id, c: Claim, play: HouseEdge.Strategy, tiles: seq<nat>, rs: seq<Randomness>): seq<Step>
    requires |tiles| == |rs| == GRID_SIZE - c.mines && c.mines < GRID_SIZE
  {
    [Vrf(Delegate(p, None))] + Moves(p, key, c, play, tiles, rs, 0)
  }

  lemma HandedOver(s: State, p: Id, key: Id, mines: nat, bet: nat)
    requires StartGameVrf(s, p, key, mines, bet).Ok?
    ensures var t := StartGameVrf(s, p, key, mines, bet).value;
            && p in t.claims && p in t.games && t.vault == s.vault
            && t.claims[p].mines == mines && t.claims[p].edge == s.vault.edge
            && var g := OpenGame(p, key, mines, s.vault.edge);
            t.games[p] == OnL1(g) && Next(t, Vrf(Delegate(p, None))) == t.(games := t.games[p := GameSlot.Delegated(Blank, g)])
  {
    hide FundRound, TakeBet, MoneyKept, RoundEffect;
  }

  /**
   Every round a player opens in a state of the invariant, followed to its end by any strategy on any tiles
   against any oracle bytes, returns to the wallet exactly the path payout and the two accounts' rent.
   */
  lemma RoundPaysPathOnLedger(s: State, p: Id, key: Id, mines: nat, bet: nat,
                              play: HouseEdge.Strategy, tiles: seq<nat>, rs: seq<Randomness>)
    requires Inv(s) && StartGameVrf(s, p, key, mines, bet).Ok? && s.vault.treasury !in Own(p)
    requires DistinctTiles(tiles) && mines < GRID_SIZE && |tiles| == |rs| == GRID_SIZE - mines
    requires var t := StartGameVrf(s, p, key, mines, bet).value; PendingPriced(t.vault, t.v2, Assets(t.lamports))
    ensures var t := StartGameVrf(s, p, key, mines, bet).value;
            && p in t.claims && t.claims[p].mines == mines && TermsOf(t.claims[p]).Valid()
            && PaidOut(t, Run(t, WholeRound(p, key, t.claims[p], play, tiles, rs)), p,
                       PathPayout(TermsOf(t.claims[p]), play, Draws(rs), 0))
  {
    hide Inv, Run, Next, StartGameVrf, Honest, Written, DistinctTiles, PendingPriced, Assets, PathPayout, Moves;
    var t := StartGameVrf(s, p, key, mines, bet).value;
    assert Inv(t) && Funded(t) by { Started(s, p, key, mines, bet); }
    HandedOver(s, p, key, mines, bet);
    var c, g := t.claims[p], OpenGame(p, key, mines, s.vault.edge);
    ClaimIsWritten(t, p);
    TermsFit(c);
    StepKeepsInv(t, Vrf(Delegate(p, None)));
    var u := t.(games := t.games[p := GameSlot.Delegated(Blank, g)]);
    OpenHonest(p, key, mines, s.vault.edge);
    assert tiles[..0] == [];
    MovesPayPath(u, p, c, key, g, play, tiles, rs, 0);
    RunFirst(t, Vrf(Delegate(p, None)), Moves(p, key, c, play, tiles, rs, 0));
    SamePayment(t, u, Run(u, Moves(p, key, c, play, tiles, rs, 0)), p, PathPayout(TermsOf(c), play, Draws(rs), 0));
  }

  lemma Started(s: State, p: Id, key: Id, mines: nat, bet: nat)
    requires Inv(s) && StartGameVrf(s, p, key, mines, bet).Ok?
    ensures Inv(StartGameVrf(s, p, key, mines, bet).value) && Funded(StartGameVrf(s, p, key, mines, bet).value)
  {
    var step := Vrf(VrfStep.Start(p, key, mines, bet));
    assert Next(s, step) == StartGameVrf(s, p, key, mines, bet).value by { hide StartGameVrf, MoneyKept; }
    hide Inv, Solvent, Funded, StartGameVrf, Next;
    StepKeepsInv(s, step);
    StartSolvent(s, p, key, mines, bet);
    SolventIsFunded(Next(s, step));
  }
}
