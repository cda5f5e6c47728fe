/** The reveal-state account as the program writes it: fields updated in place over a 16-slot array. */
module VrfGameAccount {
  import opened Prelude
  import opened Odds
  import opened Reveal

  class GameAccount {
    var status: nat
    var player: nat
    var session: nat
    var mines: nat
    var edge: nat
    var safe: nat
    var count: nat
    var pending: bool
    var pendingTile: nat
    var revealed: set<nat>
    var mined: set<nat>
    var mult: nat
    const records: array<VrfReveal>

    ghost predicate Valid() {
      records.Length == MAX_VRF_REVEALS
    }

    function View(): VrfGame
      requires Valid()
      reads this, records
    {
      VrfGame(status, player, session, mines, edge, safe, count, pending, pendingTile, revealed, mined, mult, records[..])
    }

    constructor (player: nat, session: nat, mines: nat, edge: nat)
      ensures Valid() && fresh(records)
      ensures View() == OpenGame(player, session, mines, edge)
    {
      this.status := VRF_PLAYING;
      this.player := player;
      this.session := session;
      this.mines := mines;
      this.edge := edge;
      this.safe := 0;
      this.count := 0;
      this.pending := false;
      this.pendingTile := NO_TILE;
      this.revealed := {};
      this.mined := {};
      this.mult := BPS;
      this.records := new VrfReveal[MAX_VRF_REVEALS](_ => VrfReveal(0, seq(32, _ => 0)));
      new;
      assert records[..] == NoReveals();
    }

    /** Read the account's bytes into memory. */
    constructor Load(g: VrfGame)
      ensures Valid() && fresh(records) && View() == g
    {
      status, player, session, mines, edge := g.status, g.player, g.session, g.mines, g.edge;
      safe, count, pending, pendingTile := g.safe, g.count, g.pending, g.pendingTile;
      revealed, mined, mult := g.revealed, g.mined, g.mult;
      records := new VrfReveal[MAX_VRF_REVEALS](i requires 0 <= i < MAX_VRF_REVEALS => g.records[i]);
      new;
      assert records[..] == g.records;
    }

    method Request(signer: nat, tile: nat) returns (r: Result<()>)
      requires Valid()
      modifies this`pending, this`pendingTile
      ensures match RequestReveal(old(View()), signer, tile)
              case Ok(g) => r == Ok(()) && View() == g
              case Err(e) => r == Err(e) && View() == old(View())
    {
      if signer != session { return Err(BadSessionKey); }
      if status != VRF_PLAYING { return Err(GameNotPlaying); }
      if tile >= GRID_SIZE { return Err(InvalidTileIndex); }
      if pending { return Err(RevealPending); }
      if tile in revealed { return Err(TileAlreadyRevealed); }
      pending := true;
      pendingTile := tile;
      return Ok(());
    }

    method Record(randomness: Randomness)
      requires Valid() && count < MAX_VRF_REVEALS
      modifies this, records
      ensures View() == Recorded(old(View()), randomness)
    {
      records[count] := VrfReveal(pendingTile, randomness);
      count := count + 1;
      revealed := revealed + {pendingTile};
      pending := false;
      pendingTile := NO_TILE;
    }

    method Callback(randomness: Randomness) returns (r: Result<()>)
      requires Valid()
      modifies this, records
      ensures match RevealCallback(old(View()), randomness)
              case Ok(g) => r == Ok(()) && View() == g
              case Err(e) => r == Err(e) && View() == old(View())
    {
      hide DecideMine, CalcMultiplier;
      if !pending { return Err(NoRevealPending); }
      if pendingTile >= GRID_SIZE { return Err(MathOverflow); }
      if count >= MAX_VRF_REVEALS { return Err(TooManyReveals); }
      var tile, isMine := pendingTile, DecideMine(randomness, safe, mines);
      var next := CalcMultiplier(safe + 1, mines, edge);
      if !isMine && next.Err? { return Err(next.error); }
      Record(randomness);
      if isMine {
        mined := mined + {tile};
        status := VRF_LOST;
      } else {
        safe := safe + 1;
        mult := next.value;
        if safe >= SatSub(GRID_SIZE, mines) {
          status := VRF_WON;
        }
      }
      return Ok(());
    }

    method TakeCashOut(signer: nat) returns (r: Result<()>)
      requires Valid()
      modifies this`status
      ensures match CashOut(old(View()), signer)
              case Ok(g) => r == Ok(()) && View() == g
              case Err(e) => r == Err(e) && View() == old(View())
    {
      if signer != session && signer != player { return Err(BadSessionKey); }
      if status != VRF_PLAYING { return Err(GameNotPlaying); }
      if pending { return Err(RevealPending); }
      if safe == 0 { return Err(NoTilesRevealed); }
      status := VRF_WON;
      return Ok(());
    }

    /** `settle_vrf` up to the payout: pin the terms, replay the records, compare the summary. */
    method CheckSettlement(c: Claim) returns (r: Result<Verdict>)
      requires Valid()
      ensures r == Verify(c, View())
    {
      if c.settled { return Err(GameAlreadySettled); }
      if status != VRF_WON && status != VRF_LOST { return Err(GameNotPlaying); }
      if mines != c.mines || edge != c.edge { return Err(ReplayMismatch); }
      if count > MAX_VRF_REVEALS { return Err(TooManyReveals); }
      var replayed, lost := 0, false;
      var i := 0;
      while i < count
        invariant 0 <= i <= count && replayed == i && !lost
        invariant Replay(records[..], count, mines, 0, 0) == Replay(records[..], count, mines, i, replayed)
      {
        if records[i].tile >= GRID_SIZE { return Err(InvalidTileIndex); }
        if DecideMine(records[i].randomness, replayed, mines) {
          lost := true;
          break;
        }
        replayed := replayed + 1;
        i := i + 1;
      }
      assert Replay(records[..], count, mines, 0, 0) == Ok(Replayed(replayed, lost));
      if replayed != safe { return Err(ReplayMismatch); }
      if status != (if lost then VRF_LOST else VRF_WON) { return Err(ReplayMismatch); }
      if !lost && replayed == 0 { return Err(ReplayMismatch); }
      var expected :- CalcMultiplier(replayed, mines, edge);
      if mult != expected { return Err(ReplayMismatch); }
      return Ok(Verdict(lost, replayed, expected));
    }
  }
}
