/**
 A whole commit-reveal game on the ledger: opened, revealed tile by tile and cashed out, it pays the same price
 a VRF round would; and whatever became of it, its account can always be closed in the end.
 */
module Sessions {
  import opened Prelude
  import opened Odds
  import opened Reveal
  import opened Ledger
  import opened Handlers
  import opened Runs
  import opened Solvency
  import opened Settlement
  import opened Payments
  import opened Admission
  import opened Permits
  import opened Fairness
  import Backing
  import Liveness

  function Shown(tiles: seq<nat>, i: nat): set<nat>
    requires i <= |tiles|
  {
    set t | t in tiles[..i]
  }

  /** p's session in play after its first i tiles were revealed safe, at the edge in force. */
  predicate Showing(s: State, p: Id, tiles: seq<nat>, i: nat) {
    p in s.sessions && i <= |tiles| && s.vault.edge <= BPS && var g := s.sessions[p];
    && g.status == Playing && g.safe == i && g.safe + g.mines < GRID_SIZE && s.slot <= SatAdd(g.startSlot, GAME_EXPIRY_SLOTS)
    && g.revealed == Shown(tiles, i) && g.safeTiles == g.revealed
    && g.mult == Multiplier(GRID_SIZE, i, g.mines, s.vault.edge)
  }

  /** The authority reveals the tiles from the i-th on, all safe. */
  function TileSteps(p: Id, tiles: seq<nat>, i: nat): seq<Step>
    requires i <= |tiles|
    decreases |tiles| - i
  {
    if i == |tiles| then [] else [Legacy(Tile(p, tiles[i], false))] + TileSteps(p, tiles, i + 1)
  }

  /** Nothing moves but p's session. */
  predicate OnlySession(s: State, t: State, p: Id) {
    p in s.sessions && p in t.sessions && t == s.(sessions := t.sessions)
    && t.sessions[p].bet == s.sessions[p].bet && t.sessions[p].mines == s.sessions[p].mines
  }

  lemma FreshTile(tiles: seq<nat>, i: nat)
    requires DistinctTiles(tiles) && i < |tiles|
    ensures tiles[i] < GRID_SIZE && tiles[i] !in Shown(tiles, i)
    ensures Shown(tiles, i + 1) == Shown(tiles, i) + {tiles[i]}
  {
    assert tiles[i] in tiles;
    assert tiles[..i + 1] == tiles[..i] + [tiles[i]];
  }

  lemma TileShows(s: State, p: Id, tiles: seq<nat>, i: nat)
    requires Showing(s, p, tiles, i) && DistinctTiles(tiles) && i < |tiles| && i + 1 + s.sessions[p].mines < GRID_SIZE
    ensures var t := Next(s, Legacy(Tile(p, tiles[i], false))); Showing(t, p, tiles, i + 1) && OnlySession(s, t, p)
  {
    FreshTile(tiles, i);
    hide Multiplier, SessionEffect, DistinctTiles, MoneyKept, Shown;
    assert RevealTile(s, p, tiles[i], false).Ok?;
  }

  lemma {:induction false} TilesShow(s: State, p: Id, tiles: seq<nat>, i: nat)
    requires Showing(s, p, tiles, i) && DistinctTiles(tiles) && |tiles| + s.sessions[p].mines < GRID_SIZE
    ensures var t := Run(s, TileSteps(p, tiles, i)); Showing(t, p, tiles, |tiles|) && OnlySession(s, t, p)
    decreases |tiles| - i
  {
    hide Next, Showing, DistinctTiles, MoneyKept;
    if i < |tiles| {
      var t := Next(s, Legacy(Tile(p, tiles[i], false)));
      HasSession(s, p, tiles, i);
      TileShows(s, p, tiles, i);
      TilesShow(t, p, tiles, i + 1);
      RunFirst(s, Legacy(Tile(p, tiles[i], false)), TileSteps(p, tiles, i + 1));
    } else {
      HasSession(s, p, tiles, i);
      RunNothing(s);
    }
  }

  lemma HasSession(s: State, p: Id, tiles: seq<nat>, i: nat)
    requires Showing(s, p, tiles, i)
    ensures p in s.sessions && i <= |tiles|
  {}

  /** Cashing out the tiles shown pays their price, and a lost tile ends the session unpaid. */
  lemma ShownPays(s: State, p: Id, tiles: seq<nat>)
    requires MoneySound(s) && Showing(s, p, tiles, |tiles|) && 1 <= |tiles|
    requires s.sessions[p].bet * s.sessions[p].mult / BPS <= Assets(s.lamports)
    ensures var g := s.sessions[p];
            var t := Next(s, Legacy(TakeCash(p)));
            && |tiles| + g.mines <= GRID_SIZE && s.vault.edge <= BPS
            && Bal(t.lamports, Wallet(p)) == Bal(s.lamports, Wallet(p)) + Payout(g.bet, |tiles|, g.mines, s.vault.edge)
            && p in t.sessions && t.sessions[p] == g.(status := Won) && t.v2 == s.v2
  {
    PayoutPermitted(s, TakeCash(p));
    StepBalances(s, Legacy(TakeCash(p)), Wallet(p)) by { hide CashOutGame, MoneyKept; }
    assert CashOutGame(s, p) == Ok(Next(s, Legacy(TakeCash(p)))) by { hide CashOutGame, MoneyKept; }
    hide Next, Apply, Bal, Assets, Multiplier, Move, SessionEffect, MoneyKept;
  }

  /**
   A session opened in a state of the invariant and shown k safe tiles cashes out: its player has the bet's
   price at k tiles and the opening edge, with no other condition on the vault.
   */
  lemma SessionPays(s: State, p: Id, mines: nat, bet: nat, commitment: Digest, tiles: seq<nat>)
    requires Inv(s) && StartGame(s, p, mines, bet, commitment).Ok? && s.slot <= U64_MAX
    requires DistinctTiles(tiles) && 1 <= |tiles| && |tiles| + mines < GRID_SIZE
    ensures s.vault.edge <= BPS
    ensures var first := StartGame(s, p, mines, bet, commitment).value;
            var t := Run(first, TileSteps(p, tiles, 0) + [Legacy(TakeCash(p))]);
            && Bal(t.lamports, Wallet(p)) == Bal(first.lamports, Wallet(p)) + Payout(bet, |tiles|, mines, s.vault.edge)
            && p in t.sessions && t.sessions[p].status == Won
  {
    var open := StartGame(s, p, mines, bet, commitment).value;
    hide Inv, StartGame, Next, Run, Payout, FullClear, DistinctTiles, MoneyKept, SessionEffect, Assets, Bal;
    OpenLeaves(s, p, mines, bet, commitment);
    OpensShowing(s, p, mines, bet, commitment, tiles);
    TilesShow(open, p, tiles, 0);
    var shown := Run(open, TileSteps(p, tiles, 0));
    PriceIsCovered(s, p, mines, bet, commitment, shown, tiles);
    ShownPays(shown, p, tiles);
    RunThen(open, TileSteps(p, tiles, 0), Legacy(TakeCash(p)));
  }

  lemma {:induction false} RunThen(s: State, steps: seq<Step>, last: Step)
    ensures Run(s, steps + [last]) == Next(Run(s, steps), last)
    decreases |steps|
  {
    hide Next, MoneyKept;
    if steps == [] {
      assert steps + [last] == [last] + [];
      RunFirst(s, last, []);
      RunNothing(Next(s, last));
    } else {
      assert (steps + [last])[1..] == steps[1..] + [last];
      RunThen(Next(s, steps[0]), steps[1..], last);
    }
  }

  lemma OpensShowing(s: State, p: Id, mines: nat, bet: nat, commitment: Digest, tiles: seq<nat>)
    requires Inv(s) && StartGame(s, p, mines, bet, commitment).Ok? && mines < GRID_SIZE && s.slot <= U64_MAX
    ensures Showing(StartGame(s, p, mines, bet, commitment).value, p, tiles, 0)
  {
    hide *;
    OpenLeaves(s, p, mines, bet, commitment);
    OpenKeeps(s, p, mines, bet, commitment);
    OpenedShows(StartGame(s, p, mines, bet, commitment).value, p, tiles, Session(
                  Playing, bet, mines, commitment, {}, {}, 0, BPS, s.slot, false, FullClear(bet, mines, s.vault.edge)));
  }

  lemma OpenedShows(s: State, p: Id, tiles: seq<nat>, g: Session)
    requires p in s.sessions && s.sessions[p] == g && s.vault.edge <= BPS && g.startSlot == s.slot && g.mines < GRID_SIZE
    requires g.status == Playing && g.safe == 0 && g.revealed == g.safeTiles == {} && g.mult == BPS && s.slot <= U64_MAX
    ensures Showing(s, p, tiles, 0)
  {
    assert Shown(tiles, 0) == {};
    NothingShown(g.mines, s.vault.edge);
    hide Multiplier, Shown;
  }

  lemma NothingShown(mines: nat, edge: nat)
    requires mines <= GRID_SIZE && edge <= BPS
    ensures Multiplier(GRID_SIZE, 0, mines, edge) == BPS
  {}

  lemma OpenKeeps(s: State, p: Id, mines: nat, bet: nat, commitment: Digest)
    requires StartGame(s, p, mines, bet, commitment).Ok?
    ensures var t := StartGame(s, p, mines, bet, commitment).value; t.vault == s.vault && t.slot == s.slot
  {
    hide Fund, EnsureStats, TakeBet, CheckBet, SessionEffect, MoneyKept;
  }

  /** What a session can be cashed out for was reserved when it was opened, and is there. */
  lemma PriceIsCovered(s: State, p: Id, mines: nat, bet: nat, commitment: Digest, shown: State, tiles: seq<nat>)
    requires Inv(s) && StartGame(s, p, mines, bet, commitment).Ok?
    requires OnlySession(StartGame(s, p, mines, bet, commitment).value, shown, p)
    requires Showing(shown, p, tiles, |tiles|) && 1 <= |tiles|
    ensures MoneySound(shown) && shown.vault == s.vault && s.vault.edge <= BPS
    ensures shown.sessions[p].bet == bet && shown.sessions[p].mines == mines
    ensures bet * shown.sessions[p].mult / BPS <= Assets(shown.lamports)
  {
    var open := StartGame(s, p, mines, bet, commitment).value;
    OpenLeaves(s, p, mines, bet, commitment);
    OpenKeeps(s, p, mines, bet, commitment);
    StartGameIsSound(s, p, mines, bet, commitment);
    Backing.OpenSolvent(s, p, mines, bet, commitment);
    OpenWithinCaps(s, p, mines, bet, commitment);
    hide Inv, StartGame, Assets, Multiplier, MoneySound, CalcMultiplier, MulDivFloor;
    WorstIs(bet, mines, s.vault.edge);
    PayoutWithinWorstCase(bet, |tiles|, mines, s.vault.edge);
  }

  lemma OpenWithinCaps(s: State, p: Id, mines: nat, bet: nat, commitment: Digest)
    requires Inv(s) && StartGame(s, p, mines, bet, commitment).Ok?
    ensures MIN_MINES <= mines <= MAX_MINES && s.vault.edge <= BPS && FullClear(bet, mines, s.vault.edge) <= U64_MAX
    ensures StartGame(s, p, mines, bet, commitment).value.v2.outstanding >= FullClear(bet, mines, s.vault.edge)
  {
    OpenExactly(s, p, mines, bet, commitment);
    OpenLeaves(s, p, mines, bet, commitment);
    hide Inv, StartGame, Assets, FullClear, Healthy, Quoted, Priced, Bal, RentDue, StatsDue;
  }

  lemma StartGameIsSound(s: State, p: Id, mines: nat, bet: nat, commitment: Digest)
    requires MoneySound(s) && StartGame(s, p, mines, bet, commitment).Ok?
    ensures MoneySound(StartGame(s, p, mines, bet, commitment).value)
  {
    hide StartGame;
  }

  // ---------------------------------------------------------------- the way out

  /** Wait out the window the session is in, end it where that is still to be done, and close it. */
  function SessionExit(s: State, p: Id): seq<Step>
    requires p in s.sessions
  {
    var g := s.sessions[p];
    if g.status == Playing then [Admin(Wait(SatAdd(g.startSlot, 300) + 1)), Legacy(Expire(p)), Legacy(Close(p))]
    else if g.status == Expired || g.settled then [Legacy(Close(p))]
    else [Admin(Wait(SatAdd(g.startSlot, 38) + 1)), Legacy(CloseUnsettled(p))]
  }

  lemma CloseRemoves(s: State, p: Id)
    requires MoneySound(s) && PermitsSession(s, Close(p))
    ensures p !in Next(s, Legacy(Close(p))).sessions
  {
    DrainGoesThrough(s.lamports, SessionPda(p), Wallet(p));
    hide SessionEffect, Drain, MoneyKept, MoneySound;
    assert CloseGame(s, p).Ok?;
  }

  lemma CloseUnsettledRemoves(s: State, p: Id)
    requires MoneySound(s) && PermitsSession(s, CloseUnsettled(p))
    ensures p !in Next(s, Legacy(CloseUnsettled(p))).sessions
  {
    DrainGoesThrough(s.lamports, SessionPda(p), Wallet(p));
    hide SessionEffect, Drain, MoneyKept, MoneySound;
    assert CloseUnsettledGame(s, p).Ok?;
  }

  lemma ExpireEnds(s: State, p: Id)
    requires MoneySound(s) && PermitsSession(s, Expire(p))
    ensures var t := Next(s, Legacy(Expire(p))); MoneySound(t) && p in t.sessions && t.sessions[p].status == Expired
  {
    PayoutPermitted(s, Expire(p));
    hide SessionEffect, Move, Assets;
    assert RefundExpired(s, p).Ok?;
  }

  lemma ExpiredExit(s: State, p: Id)
    requires MoneySound(s) && p in s.sessions && s.sessions[p].status == Playing
    ensures p !in Run(s, SessionExit(s, p)).sessions
  {
    var wait := SatAdd(s.sessions[p].startSlot, 300) + 1;
    var t := s.(slot := s.slot + wait);
    assert SessionExit(s, p) == [Admin(Wait(wait))] + [Legacy(Expire(p)), Legacy(Close(p))];
    assert PermitsSession(t, Expire(p));
    SameMoney(s, t);
    hide *;
    Liveness.WaitGoesThrough(s, wait);
    ExpireEnds(t, p);
    MayClose(Next(t, Legacy(Expire(p))), p);
    CloseRemoves(Next(t, Legacy(Expire(p))), p);
    RunFirst(s, Admin(Wait(wait)), [Legacy(Expire(p)), Legacy(Close(p))]);
    RunTwo(t, Legacy(Expire(p)), Legacy(Close(p)));
  }

  lemma MayClose(s: State, p: Id)
    requires p in s.sessions && s.sessions[p].status == Expired
    ensures PermitsSession(s, Close(p))
  {}

  lemma UnsettledExit(s: State, p: Id)
    requires MoneySound(s) && p in s.sessions && Permits.Finished(s.sessions[p]) && !s.sessions[p].settled
    ensures p !in Run(s, SessionExit(s, p)).sessions
  {
    var wait := SatAdd(s.sessions[p].startSlot, 38) + 1;
    var t := s.(slot := s.slot + wait);
    Liveness.WaitGoesThrough(s, wait);
    SameMoney(s, t);
    hide Next, Run, MoneySound;
    CloseUnsettledRemoves(t, p);
    RunTwo(s, Admin(Wait(wait)), Legacy(CloseUnsettled(p)));
  }

  /** From every state, whatever became of it, a session has a run that closes its account. */
  lemma SessionCanExit(s: State, p: Id)
    requires MoneySound(s) && p in s.sessions
    ensures p !in Run(s, SessionExit(s, p)).sessions
  {
    hide Next, Run, MoneySound;
    var g := s.sessions[p];
    if g.status == Playing {
      ExpiredExit(s, p);
    } else if g.status == Expired || g.settled {
      CloseRemoves(s, p);
      RunOne(s, Legacy(Close(p)));
    } else {
      UnsettledExit(s, p);
    }
  }

  lemma SameMoney(s: State, t: State)
    requires MoneySound(s) && t.lamports == s.lamports
    ensures MoneySound(t)
  {}
}
